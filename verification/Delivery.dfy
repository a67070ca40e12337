/**
Delivery guarantees of the pipeline over every run: where each request's job is, how often it can be
executed, and why the workers come to rest.
*/
module Delivery {
  import opened Wrappers
  import opened Queue
  import opened Pipeline
  import opened Gauges

  function Tally(m: multiset<RequestId>, scope: Scope): nat {
    match scope
    case None => |m|
    case Some(r) => m[r]
  }

  function SentIn(s: State, scope: Scope): set<RequestId> {
    set r | r in s.api && Sent(s, r) && InScope(scope, r)
  }

  /** The accounting law: every copy is in a list or in a worker's hands, or was acknowledged, or was
      lost; and copies come from API pushes and duplications only. */
  ghost predicate Balanced(s: State, scope: Scope) {
    Total(Copies, scope, s) + Tally(s.led.acked, scope) + Tally(s.led.lost, scope) ==
    |SentIn(s, scope)| + Tally(s.led.duplicated, scope)
  }

  /** The execution budget: started executions plus those the existing copies still allow. */
  ghost predicate Budgeted(s: State, scope: Scope) {
    Tally(s.led.started, scope) + Total(Budget, scope, s) <=
    MAX_JOB_ATTEMPTS * |SentIn(s, scope)| + Tally(s.led.recovered, scope) + 2 * Tally(s.led.duplicated, scope)
  }

  predicate Pushes(e: Event) {
    e.ApiEnqueue? || (e.ApiEnqueueError? && e.applied)
  }

  lemma SentInUpdate(s: State, n: State, r: RequestId, scope: Scope)
    requires r in n.api && n.api == s.api[r := n.api[r]]
    requires Sent(s, r) ==> Sent(n, r)
    ensures |SentIn(n, scope)| == |SentIn(s, scope)| + if Sent(n, r) && !Sent(s, r) then One(scope, r) else 0
  {
    var a, b := SentIn(s, scope), SentIn(n, scope);
    assert forall x :: x != r ==> (x in b <==> x in a);
    if Sent(n, r) && !Sent(s, r) && InScope(scope, r) {
      assert b == a + {r};
    } else {
      assert b == a;
    }
  }

  lemma StepApi(s: State, e: Event)
    requires Enabled(s, e) && IsApi(e)
    ensures e.r in NextApi(s, e) && NextApi(s, e) == s.api[e.r := NextApi(s, e)[e.r]]
    ensures !e.ApiQueued? ==> !Sent(s, e.r) && (Sent(Next(s, e), e.r) <==> Pushes(e))
    ensures e.ApiQueued? ==> Sent(s, e.r) && Sent(Next(s, e), e.r)
  {
  }

  /** What one step does to the set of sent requests. */
  lemma StepSent(s: State, e: Event, scope: Scope)
    requires Enabled(s, e)
    ensures |SentIn(Next(s, e), scope)| == |SentIn(s, scope)| + if Pushes(e) then One(scope, e.r) else 0
  {
    if IsApi(e) {
      StepApi(s, e);
      SentInUpdate(s, Next(s, e), e.r, scope);
    } else {
      assert SentIn(Next(s, e), scope) == SentIn(s, scope);
    }
  }

  function One(scope: Scope, r: RequestId): nat {
    if InScope(scope, r) then 1 else 0
  }

  /** What one step adds to the ledger. */
  lemma StepLedger(s: State, e: Event, scope: Scope)
    requires Enabled(s, e)
    ensures var m, n := s.led, NextLedger(s, e);
            && Tally(n.acked, scope) == Tally(m.acked, scope) + (if Acks(s, e) then One(scope, s.pc[e.w].job.id) else 0)
            && Tally(n.lost, scope) == Tally(m.lost, scope) + (if Loses(s, e) then One(scope, s.pc[e.w].job.id) else 0)
            && Tally(n.duplicated, scope) ==
               Tally(m.duplicated, scope) + (if Duplicates(s, e) then One(scope, s.pc[e.w].job.id) else 0)
            && Tally(n.started, scope) == Tally(m.started, scope) + (if Starts(s, e) then One(scope, s.pc[e.w].job.id) else 0)
            && Tally(n.recovered, scope) ==
               Tally(m.recovered, scope) + (if e.RecoverOne? then One(scope, Tail(s.q.processing[e.w]).id) else 0)
  {
  }

  function Mark(b: bool, scope: Scope, s: State, e: Event): nat
    requires !IsApi(e) && Enabled(s, e)
    requires b ==> !s.pc[e.w].Idle? && !s.pc[e.w].Down?
  {
    if b then One(scope, s.pc[e.w].job.id) else 0
  }

  /** What a worker's step does to the number of copies. */
  lemma CopiesDelta(s: State, e: Event, scope: Scope)
    requires Inv(s) && Enabled(s, e) && !IsApi(e)
    ensures ListDelta(Copies, scope, s, e) + PcDelta(Copies, scope, s, e) ==
            Mark(Duplicates(s, e), scope, s, e) - Mark(Loses(s, e), scope, s, e) - Mark(Acks(s, e), scope, s, e)
  {
  }

  /** What a worker's step does to the executions the copies still allow. */
  lemma BudgetDelta(s: State, e: Event, scope: Scope)
    requires Inv(s) && Enabled(s, e) && !IsApi(e)
    ensures ListDelta(Budget, scope, s, e) + PcDelta(Budget, scope, s, e) <=
            (if e.RecoverOne? then One(scope, Tail(s.q.processing[e.w]).id) else 0)
            + 2 * Mark(Duplicates(s, e), scope, s, e) - Mark(Starts(s, e), scope, s, e)
  {
    assert WorkerOk(s.q.processing[e.w], s.pc[e.w]);
  }

  lemma StepBalanced(s: State, e: Event, scope: Scope)
    requires Inv(s) && Enabled(s, e) && Balanced(s, scope)
    ensures Balanced(Next(s, e), scope)
  {
    StepTotal(Copies, scope, s, e);
    StepSent(s, e, scope);
    StepLedger(s, e, scope);
    if !IsApi(e) {
      CopiesDelta(s, e, scope);
    }
  }

  lemma StepBudgeted(s: State, e: Event, scope: Scope)
    requires Inv(s) && Enabled(s, e) && Budgeted(s, scope)
    ensures Budgeted(Next(s, e), scope)
  {
    StepTotal(Budget, scope, s, e);
    StepSent(s, e, scope);
    StepLedger(s, e, scope);
    if !IsApi(e) {
      BudgetDelta(s, e, scope);
    }
  }

  lemma {:induction false} RunLaws(s: State, es: seq<Event>, scope: Scope)
    requires Inv(s) && Balanced(s, scope) && Budgeted(s, scope) && ValidRun(s, es)
    ensures var n := After(s, es); Inv(n) && Balanced(n, scope) && Budgeted(n, scope)
    decreases |es|
  {
    if es != [] {
      StepInv(s, es[0]);
      StepBalanced(s, es[0], scope);
      StepBudgeted(s, es[0], scope);
      RunLaws(Next(s, es[0]), es[1..], scope);
    }
  }

  lemma {:induction false} EmptySums(g: Gauge, scope: Scope, workers: nat)
    ensures SumLists(g, scope, seq(workers, i => [])) == 0
    ensures SumPcs(g, scope, seq(workers, i => Idle)) == 0
  {
    if workers > 0 {
      EmptySums(g, scope, workers - 1);
      assert seq(workers, i => [])[1..] == seq<seq<Job>>(workers - 1, i => []);
      assert seq(workers, i => Idle)[1..] == seq(workers - 1, i => Idle);
    }
  }

  lemma InitLaws(workers: nat, scope: Scope)
    ensures var s := Init(workers); Inv(s) && Balanced(s, scope) && Budgeted(s, scope)
  {
    InitInv(workers);
    EmptySums(Copies, scope, workers);
    EmptySums(Budget, scope, workers);
    assert SentIn(Init(workers), scope) == {};
  }

  // ---- Conservation over every run ----------------------------------------------------------

  /** In every run, whatever fails and whenever, the copies of a request plus its acknowledgements
      and losses are its push (0 or 1) plus its duplications. */
  lemma Accounting(workers: nat, es: seq<Event>, r: RequestId)
    requires ValidRun(Init(workers), es)
    ensures var s := After(Init(workers), es);
            Total(Copies, Some(r), s) + s.led.acked[r] + s.led.lost[r] ==
            (if Sent(s, r) then 1 else 0) + s.led.duplicated[r]
  {
    InitLaws(workers, Some(r));
    RunLaws(Init(workers), es, Some(r));
    SentOne(After(Init(workers), es), r);
  }

  lemma SentOne(s: State, r: RequestId)
    ensures |SentIn(s, Some(r))| == if Sent(s, r) then 1 else 0
  {
    assert SentIn(s, Some(r)) == if Sent(s, r) then {r} else {};
  }

  /** At-least-once delivery, with its exact price: a pushed request whose copies were never lost is
      still listed, or in a worker's hands, or was acknowledged after a terminal status. */
  lemma NeverSilentlyLost(workers: nat, es: seq<Event>, r: RequestId)
    requires ValidRun(Init(workers), es)
    requires Sent(After(Init(workers), es), r) && After(Init(workers), es).led.lost[r] == 0
    ensures var s := After(Init(workers), es); Total(Copies, Some(r), s) + s.led.acked[r] >= 1
  {
    Accounting(workers, es, r);
  }

  /** The number of places a request's job is in, the acknowledged jobs counting as one place. */
  function Places(s: State, r: RequestId): int {
    Total(Copies, Some(r), s) + s.led.acked[r]
  }

  /** Does this step lose or duplicate a copy of r?  Decided by where the worker stands. */
  predicate Breaks(s: State, e: Event, r: RequestId)
    requires Enabled(s, e)
  {
    !IsApi(e) && (Loses(s, e) || Duplicates(s, e)) && s.pc[e.w].job.id == r
  }

  predicate BreakFree(s: State, es: seq<Event>, r: RequestId)
    requires ValidRun(s, es)
    decreases |es|
  {
    es == [] || (!Breaks(s, es[0], r) && BreakFree(Next(s, es[0]), es[1..], r))
  }

  /** Every state of the run has a pushed r in exactly one place. */
  predicate AlwaysOnePlace(s: State, es: seq<Event>, r: RequestId)
    requires ValidRun(s, es)
    decreases |es|
  {
    && (Sent(s, r) ==> Places(s, r) == 1)
    && (es == [] || AlwaysOnePlace(Next(s, es[0]), es[1..], r))
  }

  /** From a state where r is in exactly one place, the next state has r in exactly one place if and
      only if the step does not break r.  In particular no crash matters outside the LREM-LPUSH window. */
  lemma OnePlaceStep(s: State, e: Event, r: RequestId)
    requires Inv(s) && Balanced(s, Some(r)) && Enabled(s, e)
    requires s.led.lost[r] == 0 && s.led.duplicated[r] == 0
    ensures var n := Next(s, e);
            && (Sent(n, r) ==> (Places(n, r) == 1 <==> !Breaks(s, e, r)))
            && (Breaks(s, e, r) ==> Sent(n, r) && (Loses(s, e) ==> Places(n, r) == 0) && (Duplicates(s, e) ==> Places(n, r) == 2))
            && (!Breaks(s, e, r) ==> n.led.lost[r] == 0 && n.led.duplicated[r] == 0)
  {
    var n := Next(s, e);
    StepBalanced(s, e, Some(r));
    StepLedger(s, e, Some(r));
    StepInv(s, e);
    SentOne(s, r);
    SentOne(n, r);
    if Breaks(s, e, r) {
      HolderWasSent(s, e.w, r);
    }
  }

  /** A worker that holds or anchors a job of r: r was pushed. */
  lemma HolderWasSent(s: State, w: nat, r: RequestId)
    requires Inv(s) && Balanced(s, Some(r)) && w < |s.pc|
    requires s.led.duplicated[r] == 0
    requires (s.pc[w].Held? && s.pc[w].job.id == r) || (Anchor(s.pc[w]).Some? && Anchor(s.pc[w]).value.id == r)
    ensures Sent(s, r) && Total(Copies, Some(r), s) == 1
  {
    SentOne(s, r);
    forall v | 0 <= v < |s.pc|
      ensures Sum(Copies, Some(r), OnProcessing, s.q.processing[v]) + PcValue(Copies, Some(r), s.pc[v]) >= 0
    {
      SumAtLeast(Copies, Some(r), OnProcessing, s.q.processing[v]);
    }
    PairsAtLeast(Copies, Some(r), s.q.processing, s.pc);
    SumAtLeast(Copies, Some(r), OnProcessing, s.q.processing[w]);
    SumAtLeast(Copies, Some(r), OnMain, s.q.main);
    SumAtLeast(Copies, Some(r), OnDlq, s.q.dlq);
    assert WorkerOk(s.q.processing[w], s.pc[w]);
  }

  lemma {:induction false} OnePlaceRun(s: State, es: seq<Event>, r: RequestId)
    requires Inv(s) && Balanced(s, Some(r)) && ValidRun(s, es)
    requires s.led.lost[r] == 0 && s.led.duplicated[r] == 0
    ensures AlwaysOnePlace(s, es, r) <==> BreakFree(s, es, r)
    decreases |es|
  {
    SentOne(s, r);
    if es != [] {
      var n := Next(s, es[0]);
      OnePlaceStep(s, es[0], r);
      StepInv(s, es[0]);
      StepBalanced(s, es[0], Some(r));
      if Breaks(s, es[0], r) {
        assert !AlwaysOnePlace(n, es[1..], r);
      } else {
        OnePlaceRun(n, es[1..], r);
      }
    }
  }

  /** Conservation, exactly: a pushed request is in exactly one of the main list, one processing list,
      the dead-letter list, one worker's hands and the acknowledged jobs throughout a run, if and only
      if no step of the run loses or duplicates one of its copies. */
  lemma ExactlyOnePlaceIff(workers: nat, es: seq<Event>, r: RequestId)
    requires ValidRun(Init(workers), es)
    ensures AlwaysOnePlace(Init(workers), es, r) <==> BreakFree(Init(workers), es, r)
  {
    InitLaws(workers, Some(r));
    OnePlaceRun(Init(workers), es, r);
  }

  // ---- The two ways to break it, as runs ------------------------------------------------------

  /** The first step of a run, and the rest. */
  lemma StepThen(s: State, e: Event, n: State, rest: seq<Event>)
    requires Enabled(s, e) && Next(s, e) == n && ValidRun(n, rest)
    ensures ValidRun(s, [e] + rest) && After(s, [e] + rest) == After(n, rest)
  {
    assert ([e] + rest)[1..] == rest;
  }

  function OneWorker(q: Lists, pc: Pc, history: seq<Status>, led: Ledger): State {
    State(q, [pc], map[0 := Row(history, None)], map[0 := Enqueued], led)
  }

  const NOTHING: Ledger := Ledger(multiset{}, multiset{}, multiset{}, multiset{}, multiset{})
  const STARTED: Ledger := NOTHING.(started := multiset{0})

  /** The only worker is about to remove job 0 after a transient failure. */
  const RETRYING: State :=
    OneWorker(Lists([], [[Job(0, 0)]], []), Retrying(Job(0, 0)), [Pending, Pending, Broadcasting], STARTED)

  const TRIED: seq<Status> := [Pending, Pending, Broadcasting]

  const INTO_WINDOW: seq<Event> :=
    [ApiInsert(0)] + ([ApiEnqueue(0)] + ([Dequeue(0)] + ([Begin(0, true)] + [Finish(0, Transient, true)])))

  const PUSHED_STATE: State := OneWorker(Lists([Job(0, 0)], [[]], []), Idle, [Pending, Pending], NOTHING)

  const INSERTED_STATE: State :=
    State(Lists([], [[]], []), [Idle], map[0 := Row([Pending], None)], map[0 := Inserted], NOTHING)

  lemma InsertedThenPushed(rest: seq<Event>)
    requires ValidRun(PUSHED_STATE, rest)
    ensures var es := [ApiEnqueue(0)] + rest;
            ValidRun(INSERTED_STATE, es) && After(INSERTED_STATE, es) == After(PUSHED_STATE, rest)
  {
    FirstPush();
    StepThen(INSERTED_STATE, ApiEnqueue(0), PUSHED_STATE, rest);
  }

  lemma FirstPush()
    ensures Enabled(INSERTED_STATE, ApiEnqueue(0)) && Next(INSERTED_STATE, ApiEnqueue(0)) == PUSHED_STATE
  {
    assert [Pending] + [Pending] == [Pending, Pending];
    assert [Job(0, 0)] + [] == [Job(0, 0)];
  }

  lemma FirstInsert()
    ensures Enabled(Init(1), ApiInsert(0)) && Next(Init(1), ApiInsert(0)) == INSERTED_STATE
  {
    assert Init(1) == State(Lists([], [[]], []), [Idle], map[], map[], NOTHING);
  }

  lemma Submitted(rest: seq<Event>)
    requires ValidRun(PUSHED_STATE, rest)
    ensures var es := [ApiInsert(0)] + ([ApiEnqueue(0)] + rest);
            ValidRun(Init(1), es) && After(Init(1), es) == After(PUSHED_STATE, rest)
  {
    InsertedThenPushed(rest);
    FirstInsert();
    StepThen(Init(1), ApiInsert(0), INSERTED_STATE, [ApiEnqueue(0)] + rest);
  }

  lemma TakenUp(rest: seq<Event>)
    requires ValidRun(OneWorker(Lists([], [[Job(0, 0)]], []), Running(Job(0, 0)), TRIED, STARTED), rest)
    ensures var s := PUSHED_STATE;
            var n := OneWorker(Lists([], [[Job(0, 0)]], []), Running(Job(0, 0)), TRIED, STARTED);
            var es := [Dequeue(0)] + ([Begin(0, true)] + rest);
            ValidRun(s, es) && After(s, es) == After(n, rest)
  {
    var s := PUSHED_STATE;
    var m := OneWorker(Lists([], [[Job(0, 0)]], []), Got(Job(0, 0)), [Pending, Pending], NOTHING);
    var n := OneWorker(Lists([], [[Job(0, 0)]], []), Running(Job(0, 0)), TRIED, STARTED);
    assert [Pending, Pending] + [Broadcasting] == [Pending, Pending, Broadcasting];
    assert Next(m, Begin(0, true)).rows == n.rows;
    StepThen(m, Begin(0, true), n, rest);
    assert Next(s, Dequeue(0)).q == m.q by {
      assert [Job(0, 0)][..0] == [] && [Job(0, 0)] + [] == [Job(0, 0)];
    }
    StepThen(s, Dequeue(0), m, [Begin(0, true)] + rest);
  }

  lemma {:induction false} RunConcat(s: State, a: seq<Event>, b: seq<Event>)
    requires ValidRun(s, a) && ValidRun(After(s, a), b)
    ensures ValidRun(s, a + b) && After(s, a + b) == After(After(s, a), b)
    decreases |a|
  {
    if a == [] {
      assert a + b == b;
    } else {
      assert (a + b)[1..] == a[1..] + b;
      RunConcat(Next(s, a[0]), a[1..], b);
    }
  }

  lemma IntoWindow()
    ensures ValidRun(Init(1), INTO_WINDOW) && After(Init(1), INTO_WINDOW) == RETRYING
  {
    var n := OneWorker(Lists([], [[Job(0, 0)]], []), Running(Job(0, 0)), TRIED, STARTED);
    StepThen(n, Finish(0, Transient, true), RETRYING, []);
    assert [Finish(0, Transient, true)] + [] == [Finish(0, Transient, true)];
    TakenUp([Finish(0, Transient, true)]);
    Submitted([Dequeue(0)] + ([Begin(0, true)] + [Finish(0, Transient, true)]));
  }

  const LOST_STATE: State := OneWorker(Lists([], [[]], []), Down, TRIED, STARTED.(lost := multiset{0}))

  lemma WindowCrash()
    ensures ValidRun(RETRYING, [Remove(0)] + [Crash(0)]) && After(RETRYING, [Remove(0)] + [Crash(0)]) == LOST_STATE
  {
    var held := OneWorker(Lists([], [[]], []), Held(Job(0, 1), false), TRIED, STARTED);
    StepThen(held, Crash(0), LOST_STATE, []);
    assert [Crash(0)] + [] == [Crash(0)];
    StepThen(RETRYING, Remove(0), held, [Crash(0)]);
  }

  lemma LostPlaces()
    ensures Sent(LOST_STATE, 0) && Places(LOST_STATE, 0) == 0
  {
    assert SumLists(Copies, Some(0), [[]]) == 0 && SumPcs(Copies, Some(0), [Down]) == 0;
  }

  /** The losing run: the worker dies between the LREM and the LPUSH of a retry.  The request was
      pushed and never finished, yet no list, no worker and no acknowledgement has it. */
  lemma LosingRun()
    ensures var es := INTO_WINDOW + ([Remove(0)] + [Crash(0)]);
            && ValidRun(Init(1), es)
            && var s := After(Init(1), es);
               Sent(s, 0) && Places(s, 0) == 0 && s.q == Lists([], [[]], []) && s.led.acked == multiset{}
  {
    IntoWindow();
    WindowCrash();
    RunConcat(Init(1), INTO_WINDOW, [Remove(0)] + [Crash(0)]);
    LostPlaces();
  }

  const TWICE_STATE: State :=
    OneWorker(Lists([Job(0, 1)], [[Job(0, 0)]], []), Idle, TRIED, STARTED.(duplicated := multiset{0}))

  lemma WindowRemoveError()
    ensures var es := [RemoveError(0, false)] + [Push(0)]; ValidRun(RETRYING, es) && After(RETRYING, es) == TWICE_STATE
  {
    var held := OneWorker(Lists([], [[Job(0, 0)]], []), Held(Job(0, 1), false), TRIED, STARTED.(duplicated := multiset{0}));
    StepThen(held, Push(0), TWICE_STATE, []);
    assert [Push(0)] + [] == [Push(0)];
    StepThen(RETRYING, RemoveError(0, false), held, [Push(0)]);
  }

  lemma TwicePlaces()
    ensures Places(TWICE_STATE, 0) == 2
  {
    assert SumPcs(Copies, Some(0), [Idle]) == 0 && Sum(Copies, Some(0), OnMain, [Job(0, 1)]) == 1;
    assert SumLists(Copies, Some(0), [[Job(0, 0)]]) == Sum(Copies, Some(0), OnProcessing, [Job(0, 0)]) == 1;
  }

  /** The duplicating run: the LREM before a retry is reported as failed and not carried out; the
      retry is pushed all the same, and the request is listed twice. */
  lemma DuplicatingRun()
    ensures var es := INTO_WINDOW + ([RemoveError(0, false)] + [Push(0)]);
            && ValidRun(Init(1), es)
            && After(Init(1), es).q == Lists([Job(0, 1)], [[Job(0, 0)]], [])
            && After(Init(1), es).pc == [Idle]
            && Places(After(Init(1), es), 0) == 2
  {
    IntoWindow();
    WindowRemoveError();
    RunConcat(Init(1), INTO_WINDOW, [RemoveError(0, false)] + [Push(0)]);
    TwicePlaces();
  }

  // ---- Attempts -----------------------------------------------------------------------------

  /** In every run a request's executions number at most the maximum per push, plus one for each time
      it was recovered, plus two for each duplication. */
  lemma ExecutionBound(workers: nat, es: seq<Event>, r: RequestId)
    requires ValidRun(Init(workers), es)
    ensures var s := After(Init(workers), es);
            s.led.started[r] <= 3 + s.led.recovered[r] + 2 * s.led.duplicated[r]
  {
    InitLaws(workers, Some(r));
    RunLaws(Init(workers), es, Some(r));
    SentOne(After(Init(workers), es), r);
    TotalNonNegative(Budget, Some(r), After(Init(workers), es));
  }

  /** The same bound over all requests together. */
  lemma TotalExecutionBound(workers: nat, es: seq<Event>)
    requires ValidRun(Init(workers), es)
    ensures var s := After(Init(workers), es);
            |s.led.started| <= 3 * |SentIn(s, None)| + |s.led.recovered| + 2 * |s.led.duplicated|
  {
    InitLaws(workers, None);
    RunLaws(Init(workers), es, None);
    TotalNonNegative(Budget, None, After(Init(workers), es));
  }

  /** In every run the attempt count of a listed job stays below the maximum, so no worker ever takes
      the poison-pill branch, and every dead-letter entry carries exactly the maximum. */
  lemma AttemptDiscipline(workers: nat, es: seq<Event>)
    requires ValidRun(Init(workers), es)
    ensures var s := After(Init(workers), es);
            && (forall j :: j in s.q.main ==> j.attempt < 3)
            && (forall j :: j in s.q.dlq ==> j.attempt == 3)
            && (forall w, j :: 0 <= w < |s.q.processing| && j in s.q.processing[w] ==> j.attempt < 3)
            && (forall w :: 0 <= w < |s.pc| ==>
                  !s.pc[w].Poisoned? && (s.pc[w].Got? ==> s.pc[w].job.attempt < MAX_JOB_ATTEMPTS))
  {
    InitInv(workers);
    RunInv(Init(workers), es);
    var s := After(Init(workers), es);
    forall w | 0 <= w < |s.pc|
      ensures AllBelowMax(s.q.processing[w])
      ensures !s.pc[w].Poisoned? && (s.pc[w].Got? ==> s.pc[w].job.attempt < MAX_JOB_ATTEMPTS)
    {
      assert WorkerOk(s.q.processing[w], s.pc[w]);
    }
  }

  // ---- Termination --------------------------------------------------------------------------

  /** The worker steps of a run without Redis errors and crashes. */
  predicate Calm(e: Event) {
    e.Dequeue? || e.Begin? || e.Finish? || e.Remove? || e.Push? || e.CloseOut?
  }

  /** The states such runs go through: each processing list holds the job its worker is at, and
      nothing else. */
  predicate Snug(s: State) {
    && |s.pc| == |s.q.processing|
    && forall w :: 0 <= w < |s.pc| ==>
         && !s.pc[w].Down?
         && s.q.processing[w] == if Anchor(s.pc[w]).Some? then [Anchor(s.pc[w]).value] else []
  }

  lemma StepSnug(s: State, e: Event)
    requires Snug(s) && Enabled(s, e)
    requires Calm(e) || IsApi(e)
    ensures Snug(Next(s, e))
  {
    if !IsApi(e) {
      StepFrame(s, e);
      SnugWorker(s, e);
    }
  }

  lemma SnugWorker(s: State, e: Event)
    requires Snug(s) && Enabled(s, e) && Calm(e)
    ensures NextLists(s, e).processing[e.w] ==
            (if Anchor(NextPc(s, e)).Some? then [Anchor(NextPc(s, e)).value] else [])
    ensures !NextPc(s, e).Down?
  {
  }

  lemma WorkDelta(s: State, e: Event)
    requires Inv(s) && Enabled(s, e) && Calm(e)
    ensures ListDelta(Work, None, s, e) + PcDelta(Work, None, s, e) < 0
  {
    assert WorkerOk(s.q.processing[e.w], s.pc[e.w]);
  }

  /** Each calm step uses up at least one unit of work. */
  lemma StepWork(s: State, e: Event)
    requires Inv(s) && Enabled(s, e) && Calm(e)
    ensures Total(Work, None, Next(s, e)) < Total(Work, None, s)
  {
    StepTotal(Work, None, s, e);
    WorkDelta(s, e);
  }

  /** Every schedule of calm steps terminates: it cannot be longer than the work there was. */
  lemma {:induction false} CalmRunsTerminate(s: State, es: seq<Event>)
    requires Inv(s) && ValidRun(s, es)
    requires forall e :: e in es ==> Calm(e)
    ensures |es| <= Total(Work, None, s) - Total(Work, None, After(s, es))
    ensures |es| <= Total(Work, None, s)
    decreases |es|
  {
    if es != [] {
      StepWork(s, es[0]);
      StepInv(s, es[0]);
      CalmRunsTerminate(Next(s, es[0]), es[1..]);
    } else {
      TotalNonNegative(Work, None, s);
    }
  }

  /** A run that cannot be continued has delivered everything: no job is left in the main list or in
      any processing list. */
  lemma StuckMeansDone(s: State)
    requires Snug(s) && |s.pc| > 0
    requires forall e :: Calm(e) ==> !Enabled(s, e)
    ensures s.q.main == []
    ensures forall w :: 0 <= w < |s.pc| ==> s.q.processing[w] == [] && s.pc[w] == Idle
  {
    forall w | 0 <= w < |s.pc|
      ensures s.q.processing[w] == [] && s.pc[w] == Idle
    {
      assert Calm(Begin(w, true)) && Calm(Finish(w, Transient, true)) && Calm(Remove(w));
      assert Calm(Push(w)) && Calm(CloseOut(w, true));
    }
    assert Calm(Dequeue(0)) && s.pc[0] == Idle;
  }

  lemma {:induction false} FreshWork(jobs: seq<Job>)
    requires forall j :: j in jobs ==> j.attempt == 0
    ensures Sum(Work, None, OnMain, jobs) == 18 * |jobs|
  {
    if jobs != [] {
      FreshWork(jobs[1..]);
    }
  }

  /** Idle workers with nothing in their processing lists, and a batch of jobs never tried before. */
  predicate FreshBatch(workers: nat, jobs: seq<Job>, s: State) {
    && s.pc == seq(workers, i => Idle) && s.q == Lists(jobs, seq(workers, i => []), [])
    && forall j :: j in jobs ==> j.attempt == 0
  }

  /** n fresh jobs in front of idle workers: any calm schedule ends within 18 n steps. */
  lemma FreshBatchTerminates(workers: nat, n: nat, jobs: seq<Job>, s: State, es: seq<Event>)
    requires Inv(s) && FreshBatch(workers, jobs, s) && |jobs| == n
    requires ValidRun(s, es) && forall e :: e in es ==> Calm(e)
    ensures |es| <= 18 * n
  {
    FreshWork(jobs);
    EmptySums(Work, None, workers);
    CalmRunsTerminate(s, es);
  }

  lemma {:induction false} RunSnug(s: State, es: seq<Event>)
    requires Snug(s) && ValidRun(s, es) && forall e :: e in es ==> Calm(e)
    ensures Snug(After(s, es))
    decreases |es|
  {
    if es != [] {
      StepSnug(s, es[0]);
      RunSnug(Next(s, es[0]), es[1..]);
    }
  }

  /** Calm steps neither make nor lose copies, and pay for executions from the budget. */
  lemma StepCalmLaws(s: State, e: Event, scope: Scope)
    requires Inv(s) && Enabled(s, e) && Calm(e)
    ensures var n := Next(s, e);
            && Total(Copies, scope, n) + Tally(n.led.acked, scope) == Total(Copies, scope, s) + Tally(s.led.acked, scope)
            && Total(Budget, scope, n) + Tally(n.led.started, scope) <= Total(Budget, scope, s) + Tally(s.led.started, scope)
  {
    StepTotal(Copies, scope, s, e);
    StepTotal(Budget, scope, s, e);
    CopiesDelta(s, e, scope);
    BudgetDelta(s, e, scope);
    StepLedger(s, e, scope);
  }

  lemma {:induction false} CalmLaws(s: State, es: seq<Event>, scope: Scope)
    requires Inv(s) && ValidRun(s, es) && forall e :: e in es ==> Calm(e)
    ensures var n := After(s, es);
            && Inv(n)
            && Total(Copies, scope, n) + Tally(n.led.acked, scope) == Total(Copies, scope, s) + Tally(s.led.acked, scope)
            && Total(Budget, scope, n) + Tally(n.led.started, scope) <= Total(Budget, scope, s) + Tally(s.led.started, scope)
    decreases |es|
  {
    if es != [] {
      StepCalmLaws(s, es[0], scope);
      StepInv(s, es[0]);
      CalmLaws(Next(s, es[0]), es[1..], scope);
    }
  }

  /** The requests of a list of jobs. */
  function Ids(jobs: seq<Job>): multiset<RequestId> {
    if jobs == [] then multiset{} else multiset{jobs[0].id} + Ids(jobs[1..])
  }

  lemma {:induction false} CopiesAreIds(place: Place, jobs: seq<Job>, r: RequestId)
    ensures Sum(Copies, Some(r), place, jobs) == Ids(jobs)[r]
  {
    if jobs != [] {
      CopiesAreIds(place, jobs[1..], r);
    }
  }

  lemma {:induction false} FreshBudget(jobs: seq<Job>)
    requires forall j :: j in jobs ==> j.attempt == 0
    ensures Sum(Budget, None, OnMain, jobs) == MAX_JOB_ATTEMPTS * |jobs|
  {
    if jobs != [] {
      FreshBudget(jobs[1..]);
    }
  }

  lemma AllQuiet(g: Gauge, scope: Scope, s: State, workers: nat)
    requires s.pc == seq(workers, i => Idle) && s.q.processing == seq(workers, i => [])
    ensures Total(g, scope, s) == Sum(g, scope, OnMain, s.q.main) + Sum(g, scope, OnDlq, s.q.dlq)
  {
    EmptySums(g, scope, workers);
  }

  lemma StuckIsQuiet(s: State, workers: nat)
    requires Snug(s) && |s.pc| == workers > 0 && forall e :: Calm(e) ==> !Enabled(s, e)
    ensures s.q.main == [] && s.q.processing == seq(workers, i => []) && s.pc == seq(workers, i => Idle)
  {
    StuckMeansDone(s);
  }

  lemma {:induction false} CalmWorkers(s: State, es: seq<Event>)
    requires ValidRun(s, es) && forall e :: e in es ==> Calm(e)
    ensures |After(s, es).pc| == |s.pc|
    decreases |es|
  {
    if es != [] {
      CalmWorkers(Next(s, es[0]), es[1..]);
    }
  }

  lemma BatchCopies(workers: nat, jobs: seq<Job>, s: State, es: seq<Event>, r: RequestId)
    requires Inv(s) && FreshBatch(workers, jobs, s) && ValidRun(s, es) && forall e :: e in es ==> Calm(e)
    requires var n := After(s, es);
             n.q.main == [] && n.q.processing == seq(workers, i => []) && n.pc == seq(workers, i => Idle)
    ensures Ids(jobs)[r] + s.led.acked[r] == Ids(After(s, es).q.dlq)[r] + After(s, es).led.acked[r]
  {
    var n := After(s, es);
    CalmLaws(s, es, Some(r));
    AllQuiet(Copies, Some(r), s, workers);
    AllQuiet(Copies, Some(r), n, workers);
    CopiesAreIds(OnMain, jobs, r);
    CopiesAreIds(OnDlq, n.q.dlq, r);
  }

  lemma BatchStarts(workers: nat, jobs: seq<Job>, s: State, es: seq<Event>)
    requires Inv(s) && FreshBatch(workers, jobs, s) && ValidRun(s, es) && forall e :: e in es ==> Calm(e)
    ensures |After(s, es).led.started| <= |s.led.started| + MAX_JOB_ATTEMPTS * |jobs|
  {
    CalmLaws(s, es, None);
    TotalNonNegative(Budget, None, After(s, es));
    AllQuiet(Budget, None, s, workers);
    FreshBudget(jobs);
  }

  /** Any calm schedule of n fresh jobs that cannot be continued has ended well: the main list and every
      processing list are empty, every job was acknowledged or is in the dead-letter list with the maximum
      of attempts, and at most 3 n executions were started. */
  lemma FreshBatchDelivered(workers: nat, n: nat, jobs: seq<Job>, s: State, es: seq<Event>)
    requires Inv(s) && FreshBatch(workers, jobs, s) && |jobs| == n && workers > 0
    requires ValidRun(s, es) && forall e :: e in es ==> Calm(e)
    requires forall e :: Calm(e) ==> !Enabled(After(s, es), e)
    ensures var end := After(s, es);
            && |es| <= 18 * n
            && end.q.main == [] && (forall w :: 0 <= w < |end.q.processing| ==> end.q.processing[w] == [])
            && s.led.acked + Ids(jobs) == end.led.acked + Ids(end.q.dlq)
            && (forall j :: j in end.q.dlq ==> j.attempt == 3)
            && |end.led.started| <= |s.led.started| + 3 * n
  {
    FreshBatchTerminates(workers, n, jobs, s, es);
    RunSnug(s, es);
    CalmWorkers(s, es);
    CalmLaws(s, es, None);
    StuckIsQuiet(After(s, es), workers);
    BatchStarts(workers, jobs, s, es);
    forall r ensures (s.led.acked + Ids(jobs))[r] == (After(s, es).led.acked + Ids(After(s, es).q.dlq))[r] {
      BatchCopies(workers, jobs, s, es, r);
    }
  }

  lemma {:induction false} CalmLedger(s: State, es: seq<Event>)
    requires ValidRun(s, es)
    requires forall e :: e in es ==> Calm(e) || IsApi(e)
    ensures After(s, es).led.recovered == s.led.recovered && After(s, es).led.duplicated == s.led.duplicated
    decreases |es|
  {
    if es != [] {
      CalmLedger(Next(s, es[0]), es[1..]);
    }
  }

  /** Without Redis errors and crashes, n pushed requests cause at most 3 n executions. */
  lemma CalmExecutions(workers: nat, es: seq<Event>)
    requires ValidRun(Init(workers), es)
    requires forall e :: e in es ==> Calm(e) || IsApi(e)
    ensures var s := After(Init(workers), es); |s.led.started| <= 3 * |SentIn(s, None)|
  {
    TotalExecutionBound(workers, es);
    CalmLedger(Init(workers), es);
  }
}
