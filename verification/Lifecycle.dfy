/**
The status a caller sees, over every run in which no Redis command, status write or worker that has to
do with the request fails.  Whatever fails around other requests does not matter.

The documented order is pending, queued, broadcasting, then confirmed, failed or reverted.  The API
pushes the job before it writes `Queued`, so a worker may be first; the lemmas here say exactly when
the documented order is kept and what happens otherwise.
*/
module Lifecycle {
  import opened Wrappers
  import opened Queue
  import opened Pipeline
  import opened Gauges
  import opened Delivery

  predicate Terminal(st: Status) {
    st.Confirmed? || st.Failed? || st.Reverted?
  }

  /** The documented successors of a status.  A failed simulation goes from pending to failed. */
  predicate Allowed(a: Status, b: Status) {
    match a
    case Pending => b == Pending || b == Queued || b == Failed
    case Queued => b == Broadcasting
    case Broadcasting => b == Broadcasting || Terminal(b)
    case _ => false
  }

  predicate Legal(h: seq<Status>) {
    && h != [] && h[0] == Pending
    && forall i :: 0 <= i < |h| - 1 ==> Allowed(h[i], h[i + 1])
  }

  function Last(h: seq<Status>): Status
    requires h != []
  {
    h[|h| - 1]
  }

  /** Events of a run without failures. */
  predicate Smooth(e: Event) {
    match e
    case ApiInsert(_) => true
    case ApiReject(_, db) => db
    case ApiEnqueue(_) => true
    case ApiQueued(_, db) => db
    case Dequeue(_) => true
    case Begin(_, db) => db
    case Finish(_, _, db) => db
    case Remove(_) => true
    case Push(_) => true
    case CloseOut(_, db) => db
    case _ => false
  }

  predicate At(pc: Pc, r: RequestId) {
    !pc.Down? && !pc.Idle? && pc.job.id == r
  }

  /** Does the step read or write r's row, or move a copy of r's job? */
  predicate Concerns(s: State, e: Event, r: RequestId)
    requires Enabled(s, e)
  {
    if IsApi(e) then e.r == r
    else
      || At(s.pc[e.w], r)
      || ((e.Dequeue? || (e.DequeueError? && e.applied)) && Tail(s.q.main).id == r)
      || (e.RecoverOne? && Tail(s.q.processing[e.w]).id == r)
  }

  /** Nothing fails that has to do with r. */
  predicate Untroubled(s: State, e: Event, r: RequestId)
    requires Enabled(s, e)
  {
    Concerns(s, e, r) ==> Smooth(e)
  }

  predicate Undisturbed(s: State, es: seq<Event>, r: RequestId)
    requires ValidRun(s, es)
    decreases |es|
  {
    es == [] || (Untroubled(s, es[0], r) && Undisturbed(Next(s, es[0]), es[1..], r))
  }

  /** A run without any failures does not disturb any request. */
  lemma {:induction false} SmoothIsUndisturbed(s: State, es: seq<Event>, r: RequestId)
    requires ValidRun(s, es) && forall e :: e in es ==> Smooth(e)
    ensures Undisturbed(s, es, r)
    decreases |es|
  {
    if es != [] {
      SmoothIsUndisturbed(Next(s, es[0]), es[1..], r);
    }
  }

  /** A worker starts on r before the API call has written `Queued`. */
  predicate Untimely(s: State, e: Event, r: RequestId)
    requires Enabled(s, e)
  {
    e.Begin? && s.pc[e.w].job.id == r && r in s.api && s.api[r] == Enqueued
  }

  predicate Timely(s: State, es: seq<Event>, r: RequestId)
    requires ValidRun(s, es)
    decreases |es|
  {
    es == [] || (!Untimely(s, es[0], r) && Timely(Next(s, es[0]), es[1..], r))
  }

  /** Status of a request whose job waits with the given attempt count. */
  predicate Ready(attempt: nat, st: Status, stage: Stage) {
    || (stage == Enqueued && attempt == 0 && st == Pending)
    || (stage == Answered(true) && st == if attempt == 0 then Queued else Broadcasting)
  }

  /** Status of a request a worker is at. */
  predicate PcOk(pc: Pc, st: Status, stage: Stage) {
    match pc
    case Got(job) => Ready(job.attempt, st, stage)
    case Settled(_) => stage == Answered(true) && Terminal(st)
    case Running(_) => stage == Answered(true) && st == Broadcasting
    case Retrying(_) => stage == Answered(true) && st == Broadcasting
    case Held(_, _) => stage == Answered(true) && st == Broadcasting
    case Exhausted(_) => stage == Answered(true) && st == Broadcasting
    case _ => false
  }

  ghost predicate Laid(s: State, job: Job, st: Status, stage: Stage) {
    stage == Answered(true) && (st == Failed || exists w :: 0 <= w < |s.pc| && s.pc[w] == Exhausted(job))
  }

  /** What the status row of r says, given where r's job is. */
  ghost predicate Life(s: State, r: RequestId) {
    r in s.api ==>
      && r in s.rows && Legal(s.rows[r].history)
      && var st, stage := Last(s.rows[r].history), s.api[r];
         && (stage.Inserted? ==> st == Pending)
         && (stage == Answered(false) ==> st == Failed)
         && (forall j :: j in s.q.main && j.id == r ==> Ready(j.attempt, st, stage))
         && (forall w :: 0 <= w < |s.pc| && At(s.pc[w], r) ==> PcOk(s.pc[w], st, stage))
         && (forall j :: j in s.q.dlq && j.id == r ==> Laid(s, j, st, stage))
         && (s.led.acked[r] > 0 ==> stage == Answered(true) && Terminal(st))
  }

  /** The worker relies on a copy of r's job in its processing list. */
  predicate Holds(pc: Pc, r: RequestId) {
    Anchor(pc).Some? && Anchor(pc).value.id == r
  }

  /** The processing lists hold a job of r exactly where a worker relies on it. */
  predicate Tidy(s: State, r: RequestId) {
    && |s.pc| == |s.q.processing|
    && forall w :: 0 <= w < |s.pc| ==>
         Sum(Copies, Some(r), OnProcessing, s.q.processing[w]) == if Holds(s.pc[w], r) then 1 else 0
  }

  /** The facts about undisturbed runs that place r's job: one copy at most, and none out of sight. */
  ghost predicate Placed(s: State, r: RequestId) {
    && Inv(s) && Tidy(s, r) && Balanced(s, Some(r))
    && s.led.lost[r] == 0 && s.led.duplicated[r] == 0
    && (forall w :: 0 <= w < |s.pc| && s.pc[w].Exhausted? && At(s.pc[w], r) ==> s.pc[w].job in s.q.dlq)
    && OneAt(s.pc, r)
  }

  predicate Free(jobs: seq<Job>, r: RequestId) {
    forall j :: j in jobs ==> j.id != r
  }

  // ---- At most one place --------------------------------------------------------------------

  /** Copies of r a worker accounts for, in its list and in its hands. */
  function Share(s: State, w: nat, r: RequestId): int
    requires w < |s.pc| && w < |s.q.processing|
  {
    Sum(Copies, Some(r), OnProcessing, s.q.processing[w]) + PcValue(Copies, Some(r), s.pc[w])
  }

  lemma ShareIs(s: State, w: nat, r: RequestId)
    requires Tidy(s, r) && w < |s.pc|
    ensures Share(s, w, r) == if At(s.pc[w], r) && (Anchor(s.pc[w]).Some? || s.pc[w].Held?) then 1 else 0
  {
  }

  /** Two different workers' shares never exceed the whole. */
  lemma {:induction false} TwoShares(lists: seq<seq<Job>>, pcs: seq<Pc>, v: nat, w: nat, r: RequestId)
    requires |lists| == |pcs| && v < w < |pcs|
    requires forall u :: 0 <= u < |pcs| ==> Sum(Copies, Some(r), OnProcessing, lists[u]) + PcValue(Copies, Some(r), pcs[u]) >= 0
    ensures Sum(Copies, Some(r), OnProcessing, lists[v]) + PcValue(Copies, Some(r), pcs[v])
            + Sum(Copies, Some(r), OnProcessing, lists[w]) + PcValue(Copies, Some(r), pcs[w]) <=
            SumLists(Copies, Some(r), lists) + SumPcs(Copies, Some(r), pcs)
  {
    forall u | 0 <= u < |pcs| - 1
      ensures Sum(Copies, Some(r), OnProcessing, lists[1..][u]) + PcValue(Copies, Some(r), pcs[1..][u]) >= 0
    {
      assert lists[1..][u] == lists[u + 1] && pcs[1..][u] == pcs[u + 1];
    }
    assert lists[1..][w - 1] == lists[w] && pcs[1..][w - 1] == pcs[w];
    if v == 0 {
      PairsAtLeast(Copies, Some(r), lists[1..], pcs[1..]);
    } else {
      assert lists[1..][v - 1] == lists[v] && pcs[1..][v - 1] == pcs[v];
      TwoShares(lists[1..], pcs[1..], v - 1, w - 1, r);
    }
  }

  lemma Shares(s: State, r: RequestId)
    requires Placed(s, r)
    ensures SumLists(Copies, Some(r), s.q.processing) + SumPcs(Copies, Some(r), s.pc) >= 0
    ensures forall w :: 0 <= w < |s.pc| ==>
              0 <= Share(s, w, r) <= SumLists(Copies, Some(r), s.q.processing) + SumPcs(Copies, Some(r), s.pc)
    ensures forall v, w :: 0 <= v < w < |s.pc| ==>
              Share(s, v, r) + Share(s, w, r) <= SumLists(Copies, Some(r), s.q.processing) + SumPcs(Copies, Some(r), s.pc)
    ensures Total(Copies, Some(r), s) + s.led.acked[r] == if Sent(s, r) then 1 else 0
  {
    forall w | 0 <= w < |s.pc| ensures Share(s, w, r) >= 0 {
      ShareIs(s, w, r);
    }
    PairsAtLeast(Copies, Some(r), s.q.processing, s.pc);
    forall v, w | 0 <= v < w < |s.pc|
      ensures Share(s, v, r) + Share(s, w, r) <= SumLists(Copies, Some(r), s.q.processing) + SumPcs(Copies, Some(r), s.pc)
    {
      TwoShares(s.q.processing, s.pc, v, w, r);
    }
    SentOne(s, r);
  }

  /** A worker that is at r is the only place r's job is in. */
  lemma Alone(s: State, w: nat, r: RequestId)
    requires Placed(s, r) && w < |s.pc| && At(s.pc[w], r)
    ensures Free(s.q.main, r) && s.led.acked[r] == 0
    ensures forall v :: 0 <= v < |s.pc| && v != w ==> !At(s.pc[v], r)
    ensures !s.pc[w].Exhausted? ==> Free(s.q.dlq, r)
  {
    Shares(s, r);
    ShareIs(s, w, r);
    NoCopies(r, OnMain, s.q.main);
    NoCopies(r, OnDlq, s.q.dlq);
    assert WorkerOk(s.q.processing[w], s.pc[w]);
  }

  /** A job of r in the main list is the only place r's job is in. */
  lemma MainAlone(s: State, job: Job)
    requires Placed(s, job.id) && job in s.q.main
    ensures s.led.acked[job.id] == 0 && Free(s.q.dlq, job.id)
    ensures forall w :: 0 <= w < |s.pc| ==> !At(s.pc[w], job.id)
    ensures job == Tail(s.q.main) ==> Free(s.q.main[..|s.q.main| - 1], job.id)
  {
    var r := job.id;
    Shares(s, r);
    NoCopies(r, OnMain, s.q.main);
    NoCopies(r, OnDlq, s.q.dlq);
    forall w | 0 <= w < |s.pc| ensures !At(s.pc[w], r) {
      ShareIs(s, w, r);
      assert WorkerOk(s.q.processing[w], s.pc[w]);
    }
    if job == Tail(s.q.main) {
      SumSnoc(Copies, Some(r), OnMain, s.q.main);
      NoCopies(r, OnMain, s.q.main[..|s.q.main| - 1]);
    }
  }

  /** A request that was never pushed has no job anywhere. */
  lemma UnsentNowhere(s: State, r: RequestId)
    requires Placed(s, r) && !Sent(s, r)
    ensures Free(s.q.main, r) && Free(s.q.dlq, r) && s.led.acked[r] == 0
    ensures forall w :: 0 <= w < |s.pc| ==> !At(s.pc[w], r)
  {
    Shares(s, r);
    NoCopies(r, OnMain, s.q.main);
    NoCopies(r, OnDlq, s.q.dlq);
    forall w | 0 <= w < |s.pc| ensures !At(s.pc[w], r) {
      ShareIs(s, w, r);
      assert WorkerOk(s.q.processing[w], s.pc[w]);
    }
  }

  // ---- One step -----------------------------------------------------------------------------

  /** The step leaves a job of r in a processing list without a worker that relies on it: a move that is
      carried out but reported as failed, a removal that is not carried out, or the worker's death. */
  predicate Strands(s: State, e: Event, r: RequestId)
    requires Enabled(s, e)
  {
    || (e.DequeueError? && e.applied && Tail(s.q.main).id == r)
    || (e.RemoveError? && !e.applied && Holds(s.pc[e.w], r))
    || (e.Crash? && Holds(s.pc[e.w], r))
  }

  /** What a worker's step does to r's copies in its processing list. */
  lemma StepList(s: State, e: Event, r: RequestId)
    requires Inv(s) && Enabled(s, e) && !IsApi(e)
    ensures Sum(Copies, Some(r), OnProcessing, NextLists(s, e).processing[e.w]) ==
            Sum(Copies, Some(r), OnProcessing, s.q.processing[e.w])
            + (if (e.Dequeue? || (e.DequeueError? && e.applied)) && Tail(s.q.main).id == r then 1 else 0)
            - (if (e.Remove? || (e.RemoveError? && e.applied)) && Holds(s.pc[e.w], r) then 1 else 0)
            - (if e.RecoverOne? && Tail(s.q.processing[e.w]).id == r then 1 else 0)
  {
    var p := s.q.processing[e.w];
    assert WorkerOk(p, s.pc[e.w]);
    if e.Dequeue? || (e.DequeueError? && e.applied) {
      SumCons(Copies, Some(r), OnProcessing, Tail(s.q.main), p);
    } else if e.Remove? || (e.RemoveError? && e.applied) {
      SumRemove(Copies, Some(r), OnProcessing, p, s.pc[e.w].job);
    } else if e.RecoverOne? {
      SumSnoc(Copies, Some(r), OnProcessing, p);
    } else {
      assert NextLists(s, e).processing == s.q.processing;
    }
  }

  /** Where the worker's reliance on r changes. */
  lemma StepHolds(s: State, e: Event, r: RequestId)
    requires Inv(s) && Enabled(s, e) && !IsApi(e)
    ensures Holds(NextPc(s, e), r) <==>
            || (e.Dequeue? && Tail(s.q.main).id == r)
            || ((e.Begin? || e.Finish?) && Holds(s.pc[e.w], r))
    ensures Holds(s.pc[e.w], r) ==> e.Begin? || e.Finish? || e.Remove? || e.RemoveError? || e.Crash?
  {
  }

  lemma TidyWorker(s: State, e: Event, r: RequestId)
    requires Inv(s) && Tidy(s, r) && Enabled(s, e) && !IsApi(e)
    ensures Sum(Copies, Some(r), OnProcessing, NextLists(s, e).processing[e.w]) == (if Holds(NextPc(s, e), r) then 1 else 0)
            <==> !Strands(s, e, r)
  {
    StepList(s, e, r);
    StepHolds(s, e, r);
    NoCopies(r, OnProcessing, s.q.processing[e.w]);
  }

  /** Exactly when a job ends up in a processing list without a worker at it. */
  lemma TidyUnlessStranded(s: State, e: Event, r: RequestId)
    requires Inv(s) && Tidy(s, r) && Enabled(s, e)
    ensures Tidy(Next(s, e), r) <==> !Strands(s, e, r)
  {
    if IsApi(e) {
      assert NextLists(s, e).processing == s.q.processing && NextPcs(s, e) == s.pc;
    } else {
      TidyWorker(s, e, r);
      StepFrame(s, e);
      TidyFrame(s, Next(s, e), e.w, r);
    }
  }

  lemma TidyFrame(s: State, n: State, w: nat, r: RequestId)
    requires Tidy(s, r) && w < |s.pc| && |n.pc| == |s.pc| && |n.q.processing| == |s.q.processing|
    requires forall v :: 0 <= v < |s.pc| && v != w ==> n.pc[v] == s.pc[v] && n.q.processing[v] == s.q.processing[v]
    ensures Tidy(n, r) <==> Sum(Copies, Some(r), OnProcessing, n.q.processing[w]) == if Holds(n.pc[w], r) then 1 else 0
  {
  }

  lemma StepPlaced(s: State, e: Event, r: RequestId)
    requires Placed(s, r) && Enabled(s, e) && Untroubled(s, e, r)
    ensures Placed(Next(s, e), r)
  {
    StepInv(s, e);
    TidyUnlessStranded(s, e, r);
    StepBalanced(s, e, Some(r));
    StepUnbroken(s, e, r);
    if !IsApi(e) {
      StepExhausted(s, e, r);
      StepPcs(s, e, r);
    }
  }

  lemma StepUnbroken(s: State, e: Event, r: RequestId)
    requires Inv(s) && Enabled(s, e) && Untroubled(s, e, r)
    ensures NextLedger(s, e).lost[r] == s.led.lost[r] && NextLedger(s, e).duplicated[r] == s.led.duplicated[r]
    ensures !Strands(s, e, r)
  {
  }

  lemma StepExhausted(s: State, e: Event, r: RequestId)
    requires Placed(s, r) && Enabled(s, e) && Untroubled(s, e, r) && !IsApi(e)
    ensures forall w :: 0 <= w < |Next(s, e).pc| && Next(s, e).pc[w].Exhausted? && At(Next(s, e).pc[w], r) ==>
              Next(s, e).pc[w].job in Next(s, e).q.dlq
  {
    StepFrame(s, e);
    DeadLettersStay(s, e);
    assert WorkerOk(s.q.processing[e.w], s.pc[e.w]);
    if NextPc(s, e).Exhausted? && At(NextPc(s, e), r) {
      NextExhausted(s, e, r);
    }
  }

  lemma NextExhausted(s: State, e: Event, r: RequestId)
    requires Enabled(s, e) && Untroubled(s, e, r) && !IsApi(e) && TamePc(s.pc[e.w])
    requires NextPc(s, e).Exhausted? && At(NextPc(s, e), r)
    ensures NextPc(s, e).job in NextLists(s, e).dlq
  {
  }

  lemma DeadLettersStay(s: State, e: Event)
    requires Enabled(s, e)
    ensures forall j :: j in s.q.dlq ==> j in NextLists(s, e).dlq
  {
  }

  predicate OneAt(pcs: seq<Pc>, r: RequestId) {
    forall v, w :: 0 <= v < w < |pcs| && At(pcs[v], r) ==> !At(pcs[w], r)
  }

  lemma OneAtUpdate(pcs: seq<Pc>, w: nat, pc: Pc, r: RequestId)
    requires OneAt(pcs, r) && w < |pcs|
    requires At(pc, r) ==> At(pcs[w], r) || forall v :: 0 <= v < |pcs| ==> !At(pcs[v], r)
    ensures OneAt(pcs[w := pc], r)
  {
  }

  lemma NextAt(s: State, e: Event, r: RequestId)
    requires Enabled(s, e) && !IsApi(e)
    ensures At(NextPc(s, e), r) ==> At(s.pc[e.w], r) || (e.Dequeue? && Tail(s.q.main).id == r)
  {
  }

  lemma StepPcs(s: State, e: Event, r: RequestId)
    requires Placed(s, r) && Enabled(s, e) && !IsApi(e)
    ensures OneAt(Next(s, e).pc, r)
  {
    NextAt(s, e, r);
    if e.Dequeue? && Tail(s.q.main).id == r {
      MainAlone(s, Tail(s.q.main));
    }
    OneAtUpdate(s.pc, e.w, NextPc(s, e), r);
  }

  lemma LegalAppend(h: seq<Status>, st: Status)
    requires Legal(h)
    ensures Legal(h + [st]) <==> Allowed(Last(h), st)
  {
    var g := h + [st];
    if Legal(g) {
      assert Allowed(g[|h| - 1], g[|h|]);
    }
  }

  lemma ApiQueuedLife(s: State, e: Event, r: RequestId)
    requires Placed(s, r) && Life(s, r) && Enabled(s, e) && Smooth(e) && e.ApiQueued? && e.r == r
    ensures Life(Next(s, e), r)
  {
    LegalAppend(s.rows[r].history, Queued);
    assert forall j :: j in s.q.dlq && j.id == r ==> !Laid(s, j, Last(s.rows[r].history), s.api[r]);
    QueuedInTime(s, r);
  }

  lemma ApiOwnLife(s: State, e: Event, r: RequestId)
    requires Placed(s, r) && Life(s, r) && Enabled(s, e) && Smooth(e) && IsApi(e) && !e.ApiQueued? && e.r == r
    ensures Life(Next(s, e), r)
  {
    UnsentNowhere(s, r);
    if e.ApiEnqueue? {
      ApiEnqueueLife(s, e, r);
    } else if e.ApiReject? {
      LegalAppend(s.rows[r].history, Failed);
    }
  }

  lemma ApiEnqueueLife(s: State, e: Event, r: RequestId)
    requires Placed(s, r) && Life(s, r) && Enabled(s, e) && e.ApiEnqueue? && e.r == r
    ensures Life(Next(s, e), r)
  {
    UnsentNowhere(s, r);
    LegalAppend(s.rows[r].history, Pending);
  }

  /** API steps. */
  lemma ApiLife(s: State, e: Event, r: RequestId)
    requires Placed(s, r) && Life(s, r) && Enabled(s, e) && Untroubled(s, e, r) && IsApi(e)
    ensures Life(Next(s, e), r)
  {
    if e.r != r {
      ApiOtherLife(s, e, r);
    } else if e.ApiQueued? {
      ApiQueuedLife(s, e, r);
    } else {
      ApiOwnLife(s, e, r);
    }
  }

  lemma ApiOtherLife(s: State, e: Event, r: RequestId)
    requires Life(s, r) && Enabled(s, e) && IsApi(e) && e.r != r
    ensures Life(Next(s, e), r)
  {
    var n := Next(s, e);
    if r in n.api {
      ApiOtherFrame(s, e, r);
      forall j | j in n.q.dlq && j.id == r
        ensures Laid(n, j, Last(n.rows[r].history), n.api[r])
      {
        assert Laid(s, j, Last(s.rows[r].history), s.api[r]);
      }
    }
  }

  lemma ApiOtherFrame(s: State, e: Event, r: RequestId)
    requires Enabled(s, e) && IsApi(e) && e.r != r
    ensures r in NextApi(s, e) <==> r in s.api
    ensures r in s.api ==> NextApi(s, e)[r] == s.api[r]
    ensures r in NextRows(s, e) <==> r in s.rows
    ensures r in s.rows ==> NextRows(s, e)[r] == s.rows[r]
    ensures forall j :: j in NextLists(s, e).main && j.id == r ==> j in s.q.main
    ensures NextLists(s, e).dlq == s.q.dlq && NextPcs(s, e) == s.pc && NextLedger(s, e).acked == s.led.acked
  {
  }

  /** While the API call is between its push and its Queued write the row is still pending. */
  lemma QueuedInTime(s: State, r: RequestId)
    requires Placed(s, r) && Life(s, r) && r in s.api && s.api[r] == Enqueued
    ensures Last(s.rows[r].history) == Pending && s.led.acked[r] == 0
  {
    Shares(s, r);
    NoCopies(r, OnMain, s.q.main);
    NoCopies(r, OnDlq, s.q.dlq);
    if Free(s.q.main, r) {
      assert Free(s.q.dlq, r);
      assert exists w :: 0 <= w < |s.pc| && Share(s, w, r) > 0 by {
        if forall w :: 0 <= w < |s.pc| ==> Share(s, w, r) == 0 {
          forall w | 0 <= w < |s.pc|
            ensures Sum(Copies, Some(r), OnProcessing, s.q.processing[w]) + PcValue(Copies, Some(r), s.pc[w]) == 0
          {
            assert Share(s, w, r) == 0;
          }
          ZeroShares(s.q.processing, s.pc, r);
        }
      }
      var w :| 0 <= w < |s.pc| && Share(s, w, r) > 0;
      ShareIs(s, w, r);
      assert PcOk(s.pc[w], Last(s.rows[r].history), s.api[r]);
    } else {
      var j :| j in s.q.main && j.id == r;
      assert Ready(j.attempt, Last(s.rows[r].history), s.api[r]);
    }
  }

  lemma {:induction false} ZeroShares(lists: seq<seq<Job>>, pcs: seq<Pc>, r: RequestId)
    requires |lists| == |pcs|
    requires forall w :: 0 <= w < |pcs| ==> Sum(Copies, Some(r), OnProcessing, lists[w]) + PcValue(Copies, Some(r), pcs[w]) == 0
    ensures SumLists(Copies, Some(r), lists) + SumPcs(Copies, Some(r), pcs) == 0
  {
    if pcs != [] {
      forall w | 0 <= w < |pcs| - 1
        ensures Sum(Copies, Some(r), OnProcessing, lists[1..][w]) + PcValue(Copies, Some(r), pcs[1..][w]) == 0
      {
        assert lists[1..][w] == lists[w + 1] && pcs[1..][w] == pcs[w + 1];
      }
      ZeroShares(lists[1..], pcs[1..], r);
    }
  }

  /** Worker steps that have nothing to do with r. */
  lemma OtherLife(s: State, e: Event, r: RequestId)
    requires Placed(s, r) && Life(s, r) && Enabled(s, e) && !IsApi(e) && !Concerns(s, e, r)
    ensures Life(Next(s, e), r)
  {
    var n := Next(s, e);
    if r in s.api {
      OtherRow(s, e, r);
      OtherLists(s, e, r);
      forall j | j in n.q.dlq && j.id == r
        ensures Laid(n, j, Last(n.rows[r].history), n.api[r])
      {
        assert Laid(s, j, Last(s.rows[r].history), s.api[r]);
        if Last(s.rows[r].history) != Failed {
          OtherExhausted(s, e, r, j);
        }
      }
    }
  }

  lemma OtherRow(s: State, e: Event, r: RequestId)
    requires Enabled(s, e) && !IsApi(e) && r in s.rows && !Concerns(s, e, r)
    ensures r in NextRows(s, e) && NextRows(s, e)[r] == s.rows[r] && NextLedger(s, e).acked[r] == s.led.acked[r]
    ensures !At(NextPc(s, e), r)
  {
  }

  lemma OtherLists(s: State, e: Event, r: RequestId)
    requires Enabled(s, e) && !IsApi(e) && !Concerns(s, e, r)
    ensures forall j :: j in NextLists(s, e).main && j.id == r ==> j in s.q.main
    ensures forall j :: j in NextLists(s, e).dlq && j.id == r ==> j in s.q.dlq
  {
  }

  lemma OtherExhausted(s: State, e: Event, r: RequestId, j: Job)
    requires Enabled(s, e) && !IsApi(e) && !At(s.pc[e.w], r) && j.id == r
    requires exists w :: 0 <= w < |s.pc| && s.pc[w] == Exhausted(j)
    ensures exists w :: 0 <= w < |Next(s, e).pc| && Next(s, e).pc[w] == Exhausted(j)
  {
    var v :| 0 <= v < |s.pc| && s.pc[v] == Exhausted(j);
    assert Next(s, e).pc == NextPcs(s, e) && NextPcs(s, e)[v] == s.pc[v];
  }

  /** Taking r's job off the main list. */
  lemma DequeueLife(s: State, e: Event, r: RequestId)
    requires Placed(s, r) && Life(s, r) && Enabled(s, e) && e.Dequeue? && Tail(s.q.main).id == r
    ensures Life(Next(s, e), r)
  {
    MainAlone(s, Tail(s.q.main));
    assert Tail(s.q.main) in s.q.main;
  }

  /** What is left of `Life` when a worker that is at r writes r's row, or not, and moves on
      without a push. */
  lemma OwnFrame(s: State, e: Event, r: RequestId)
    requires Placed(s, r) && Life(s, r) && Enabled(s, e) && r in s.api
    requires e.Begin? || e.Finish? || e.Remove? || e.CloseOut?
    requires At(s.pc[e.w], r)
    requires var n := Next(s, e);
             && r in n.rows && Legal(n.rows[r].history)
             && var st := Last(n.rows[r].history);
                && (At(n.pc[e.w], r) ==> PcOk(n.pc[e.w], st, s.api[r]))
                && (s.api[r] == Answered(true) || (s.api[r] == Enqueued && e.Remove?))
                && (n.led.acked[r] > 0 ==> s.api[r] == Answered(true) && Terminal(st))
                && (e.CloseOut? ==> st == Failed)
    ensures Life(Next(s, e), r)
  {
    var n := Next(s, e);
    Alone(s, e.w, r);
    assert n.q.main == s.q.main && n.q.dlq == s.q.dlq && n.api == s.api;
    assert forall v :: 0 <= v < |n.pc| && At(n.pc[v], r) ==> v == e.w;
  }

  lemma OwnBeginLife(s: State, e: Event, r: RequestId)
    requires Placed(s, r) && Life(s, r) && Enabled(s, e) && Smooth(e) && e.Begin?
    requires At(s.pc[e.w], r) && !Untimely(s, e, r) && r in s.api
    ensures Life(Next(s, e), r)
  {
    Alone(s, e.w, r);
    assert WorkerOk(s.q.processing[e.w], s.pc[e.w]);
    assert PcOk(s.pc[e.w], Last(s.rows[r].history), s.api[r]);
    LegalAppend(s.rows[r].history, Broadcasting);
    OwnFrame(s, e, r);
  }

  lemma OwnFinishLife(s: State, e: Event, r: RequestId)
    requires Placed(s, r) && Life(s, r) && Enabled(s, e) && Smooth(e) && e.Finish?
    requires At(s.pc[e.w], r) && r in s.api
    ensures Life(Next(s, e), r)
  {
    Alone(s, e.w, r);
    assert PcOk(s.pc[e.w], Last(s.rows[r].history), s.api[r]);
    LegalAppend(s.rows[r].history, Confirmed);
    LegalAppend(s.rows[r].history, Reverted);
    OwnFrame(s, e, r);
  }

  lemma OwnLastLife(s: State, e: Event, r: RequestId)
    requires Placed(s, r) && Life(s, r) && Enabled(s, e) && Smooth(e) && (e.Remove? || e.CloseOut?)
    requires At(s.pc[e.w], r) && r in s.api
    ensures Life(Next(s, e), r)
  {
    Alone(s, e.w, r);
    assert WorkerOk(s.q.processing[e.w], s.pc[e.w]);
    assert PcOk(s.pc[e.w], Last(s.rows[r].history), s.api[r]);
    LegalAppend(s.rows[r].history, Failed);
    OwnFrame(s, e, r);
  }

  lemma OwnPushLife(s: State, e: Event, r: RequestId)
    requires Placed(s, r) && Life(s, r) && Enabled(s, e) && e.Push?
    requires At(s.pc[e.w], r) && r in s.api
    ensures Life(Next(s, e), r)
  {
    var n := Next(s, e);
    Alone(s, e.w, r);
    assert WorkerOk(s.q.processing[e.w], s.pc[e.w]);
    assert PcOk(s.pc[e.w], Last(s.rows[r].history), s.api[r]);
    if s.pc[e.w].job.attempt >= MAX_JOB_ATTEMPTS {
      assert n.pc[e.w] == Exhausted(s.pc[e.w].job);
      forall j | j in n.q.dlq && j.id == r
        ensures Laid(n, j, Last(n.rows[r].history), n.api[r])
      {
        assert j == s.pc[e.w].job;
      }
    }
  }

  lemma AtIsSent(s: State, w: nat, r: RequestId)
    requires Placed(s, r) && w < |s.pc| && At(s.pc[w], r)
    ensures r in s.api
  {
    if r !in s.api {
      UnsentNowhere(s, r);
    }
  }

  lemma StepLife(s: State, e: Event, r: RequestId)
    requires Placed(s, r) && Life(s, r) && Enabled(s, e) && Untroubled(s, e, r) && !Untimely(s, e, r)
    ensures Life(Next(s, e), r)
  {
    if IsApi(e) {
      ApiLife(s, e, r);
    } else if !Concerns(s, e, r) {
      OtherLife(s, e, r);
    } else if e.Dequeue? {
      DequeueLife(s, e, r);
    } else {
      OwnLife(s, e, r);
    }
  }

  lemma OwnLife(s: State, e: Event, r: RequestId)
    requires Placed(s, r) && Life(s, r) && Enabled(s, e) && Smooth(e) && !Untimely(s, e, r)
    requires !IsApi(e) && At(s.pc[e.w], r)
    ensures Life(Next(s, e), r)
  {
    AtIsSent(s, e.w, r);
    if e.Begin? {
      OwnBeginLife(s, e, r);
    } else if e.Finish? {
      OwnFinishLife(s, e, r);
    } else if e.Push? {
      OwnPushLife(s, e, r);
    } else {
      OwnLastLife(s, e, r);
    }
  }

  // ---- Over whole runs ----------------------------------------------------------------------

  lemma InitLife(workers: nat, r: RequestId)
    ensures Placed(Init(workers), r) && Life(Init(workers), r)
  {
    InitLaws(workers, Some(r));
    assert Sum(Copies, Some(r), OnProcessing, []) == 0;
  }

  /** Rows are never dropped and their histories only grow, whatever fails. */
  lemma StepHistoryGrows(s: State, e: Event, r: RequestId)
    requires Enabled(s, e) && r in s.rows
    ensures r in Next(s, e).rows && s.rows[r].history <= Next(s, e).rows[r].history
  {
    if IsApi(e) {
      ApiHistoryGrows(s, e, r);
    } else {
      WorkerHistoryGrows(s, e, r);
    }
  }

  lemma ApiHistoryGrows(s: State, e: Event, r: RequestId)
    requires Enabled(s, e) && r in s.rows && IsApi(e)
    ensures r in NextRows(s, e) && s.rows[r].history <= NextRows(s, e)[r].history
  {
  }

  lemma WorkerHistoryGrows(s: State, e: Event, r: RequestId)
    requires Enabled(s, e) && r in s.rows && !IsApi(e)
    ensures r in NextRows(s, e) && s.rows[r].history <= NextRows(s, e)[r].history
  {
  }

  lemma {:induction false} HistoryGrows(s: State, es: seq<Event>, r: RequestId)
    requires ValidRun(s, es) && r in s.rows
    ensures r in After(s, es).rows && s.rows[r].history <= After(s, es).rows[r].history
    decreases |es|
  {
    if es != [] {
      StepHistoryGrows(s, es[0], r);
      HistoryGrows(Next(s, es[0]), es[1..], r);
    }
  }

  lemma PrefixLegal(g: seq<Status>, h: seq<Status>)
    requires g <= h && g != [] && Legal(h)
    ensures Legal(g)
    ensures Terminal(Last(g)) ==> g == h
  {
    forall i | 0 <= i < |g| - 1 ensures Allowed(g[i], g[i + 1]) {
      assert g[i] == h[i] && g[i + 1] == h[i + 1];
    }
    if |g| < |h| {
      assert Allowed(h[|g| - 1], h[|g|]);
    }
  }

  /** An untimely start writes Broadcasting over Pending. */
  lemma UntimelyStepIllegal(s: State, e: Event, r: RequestId)
    requires Placed(s, r) && Life(s, r) && Enabled(s, e) && Untroubled(s, e, r) && Untimely(s, e, r)
    ensures r in Next(s, e).rows && !Legal(Next(s, e).rows[r].history)
    ensures Next(s, e).rows[r].history == s.rows[r].history + [Broadcasting]
  {
    assert WorkerOk(s.q.processing[e.w], s.pc[e.w]);
    assert PcOk(s.pc[e.w], Last(s.rows[r].history), s.api[r]);
    LegalAppend(s.rows[r].history, Broadcasting);
  }

  lemma {:induction false} RunLegalIff(s: State, es: seq<Event>, r: RequestId)
    requires Placed(s, r) && Life(s, r) && ValidRun(s, es)
    requires Undisturbed(s, es, r)
    ensures var n := After(s, es);
            if Timely(s, es, r) then r in n.rows ==> Legal(n.rows[r].history)
            else r in n.rows && !Legal(n.rows[r].history)
    decreases |es|
  {
    if es == [] {
      assert Inv(s);
    } else {
      var n := Next(s, es[0]);
      StepPlaced(s, es[0], r);
      if Untimely(s, es[0], r) {
        UntimelyStepIllegal(s, es[0], r);
        HistoryGrows(n, es[1..], r);
        if Legal(After(n, es[1..]).rows[r].history) {
          PrefixLegal(n.rows[r].history, After(n, es[1..]).rows[r].history);
        }
      } else {
        StepLife(s, es[0], r);
        RunLegalIff(n, es[1..], r);
      }
    }
  }

  /** In a run in which nothing fails that has to do with the request, the documented order of statuses
      is kept if and only if no worker started on the request before the API call had written `Queued`. */
  lemma DocumentedOrderIff(workers: nat, es: seq<Event>, r: RequestId)
    requires ValidRun(Init(workers), es) && Undisturbed(Init(workers), es, r)
    requires r in After(Init(workers), es).rows
    ensures Legal(After(Init(workers), es).rows[r].history) <==> Timely(Init(workers), es, r)
  {
    InitLife(workers, r);
    RunLegalIff(Init(workers), es, r);
  }

  /** Once a transaction hash is recorded there is always one, in any run, whatever fails.  It can be
      replaced by that of a later execution. */
  lemma {:induction false} TxHashKept(s: State, es: seq<Event>, r: RequestId)
    requires ValidRun(s, es) && r in s.rows && s.rows[r].txHash.Some?
    ensures r in After(s, es).rows && After(s, es).rows[r].txHash.Some?
    decreases |es|
  {
    if es != [] {
      assert Next(s, es[0]).rows[r].txHash.Some? by {
        assert es[0].ApiInsert? ==> es[0].r != r;
      }
      TxHashKept(Next(s, es[0]), es[1..], r);
    }
  }

  // ---- The late Queued write ----------------------------------------------------------------

  /** No list and no worker has a job of r, and its API call has returned. */
  ghost predicate Gone(s: State, r: RequestId) {
    && |s.pc| == |s.q.processing|
    && r in s.api && s.api[r].Answered? && r in s.rows
    && Free(s.q.main, r)
    && forall w :: 0 <= w < |s.pc| ==> !At(s.pc[w], r) && Free(s.q.processing[w], r)
  }

  lemma GoneLists(s: State, e: Event, r: RequestId)
    requires Gone(s, r) && Enabled(s, e) && !IsApi(e)
    ensures Free(NextLists(s, e).main, r) && Free(NextLists(s, e).processing[e.w], r)
  {
    if e.Remove? || e.RemoveError? {
      RemoveFirstSubset(s.q.processing[e.w], s.pc[e.w].job);
    }
  }

  lemma GoneRow(s: State, e: Event, r: RequestId)
    requires Gone(s, r) && Enabled(s, e)
    ensures r in NextRows(s, e) && NextRows(s, e)[r] == s.rows[r]
    ensures r in NextApi(s, e) && NextApi(s, e)[r] == s.api[r]
  {
  }

  lemma GonePc(s: State, e: Event, r: RequestId)
    requires Gone(s, r) && Enabled(s, e) && !IsApi(e)
    ensures !At(NextPc(s, e), r)
  {
  }

  lemma StepGone(s: State, e: Event, r: RequestId)
    requires Gone(s, r) && Enabled(s, e)
    ensures Gone(Next(s, e), r) && Next(s, e).rows[r] == s.rows[r]
  {
    GoneRow(s, e, r);
    if !IsApi(e) {
      WorkerFrame(s, e);
      GoneLists(s, e, r);
      GonePc(s, e, r);
    } else {
      GoneApiLists(s, e, r);
    }
  }

  lemma GoneApiLists(s: State, e: Event, r: RequestId)
    requires Gone(s, r) && Enabled(s, e) && IsApi(e)
    ensures Free(NextLists(s, e).main, r) && NextLists(s, e).processing == s.q.processing
  {
  }

  /** From then on nothing writes its row again, whatever happens. */
  lemma {:induction false} NothingWritesAgain(s: State, es: seq<Event>, r: RequestId)
    requires Gone(s, r) && ValidRun(s, es)
    ensures r in After(s, es).rows && After(s, es).rows[r] == s.rows[r]
    decreases |es|
  {
    if es != [] {
      StepGone(s, es[0], r);
      NothingWritesAgain(Next(s, es[0]), es[1..], r);
    }
  }

  const OVERTAKEN: seq<Event> :=
    [ApiInsert(0)] + ([ApiEnqueue(0)] + ([Dequeue(0)] + ([Begin(0, true)] +
    ([Finish(0, Success(7), true)] + ([Remove(0)] + [ApiQueued(0, true)])))))

  /** The regression: the worker confirms the request before the API call writes `Queued`.  The row
      goes back to `Queued`, and since nothing is left in any list it says so in every continuation. */
  lemma LateQueuedRegression(es: seq<Event>)
    requires ValidRun(OVERTAKEN_STATE, es)
    ensures ValidRun(Init(1), OVERTAKEN) && After(Init(1), OVERTAKEN) == OVERTAKEN_STATE
    ensures forall e :: e in OVERTAKEN ==> Smooth(e)
    ensures var n := After(OVERTAKEN_STATE, es);
            && 0 in n.rows && n.rows[0].txHash == Some(7)
            && n.rows[0].history == [Pending, Pending, Broadcasting, Confirmed, Queued]
  {
    Overtaken();
    OvertakenSmooth();
    OvertakenGone();
    NothingWritesAgain(OVERTAKEN_STATE, es, 0);
  }

  lemma OvertakenSmooth()
    ensures forall e :: e in OVERTAKEN ==> Smooth(e)
  {
  }

  lemma OvertakenGone()
    ensures Gone(OVERTAKEN_STATE, 0)
    ensures TRIED + [Confirmed] + [Queued] == [Pending, Pending, Broadcasting, Confirmed, Queued]
  {
  }

  const OVERTAKEN_STATE: State :=
    State(Lists([], [[]], []), [Idle], map[0 := Row(TRIED + [Confirmed] + [Queued], Some(7))],
          map[0 := Answered(true)], STARTED.(acked := multiset{0}))

  const CONFIRMED: Table := map[0 := Row(TRIED + [Confirmed], Some(7))]

  lemma AckedThenQueued()
    ensures var s := State(Lists([], [[]], []), [Idle], CONFIRMED, map[0 := Enqueued], STARTED.(acked := multiset{0}));
            ValidRun(s, [ApiQueued(0, true)]) && After(s, [ApiQueued(0, true)]) == OVERTAKEN_STATE
  {
    var s := State(Lists([], [[]], []), [Idle], CONFIRMED, map[0 := Enqueued], STARTED.(acked := multiset{0}));
    StepThen(s, ApiQueued(0, true), OVERTAKEN_STATE, []);
    assert [ApiQueued(0, true)] + [] == [ApiQueued(0, true)];
  }

  lemma SettledThenAcked(rest: seq<Event>)
    requires ValidRun(State(Lists([], [[]], []), [Idle], CONFIRMED, map[0 := Enqueued], STARTED.(acked := multiset{0})), rest)
    ensures var s := State(Lists([], [[Job(0, 0)]], []), [Settled(Job(0, 0))], CONFIRMED, map[0 := Enqueued], STARTED);
            var n := State(Lists([], [[]], []), [Idle], CONFIRMED, map[0 := Enqueued], STARTED.(acked := multiset{0}));
            ValidRun(s, [Remove(0)] + rest) && After(s, [Remove(0)] + rest) == After(n, rest)
  {
    var s := State(Lists([], [[Job(0, 0)]], []), [Settled(Job(0, 0))], CONFIRMED, map[0 := Enqueued], STARTED);
    var n := State(Lists([], [[]], []), [Idle], CONFIRMED, map[0 := Enqueued], STARTED.(acked := multiset{0}));
    assert NextLists(s, Remove(0)) == n.q;
    StepThen(s, Remove(0), n, rest);
  }

  lemma RunningThenSettled(rest: seq<Event>)
    requires ValidRun(State(Lists([], [[Job(0, 0)]], []), [Settled(Job(0, 0))], CONFIRMED, map[0 := Enqueued], STARTED), rest)
    ensures var s := OneWorker(Lists([], [[Job(0, 0)]], []), Running(Job(0, 0)), TRIED, STARTED);
            var n := State(Lists([], [[Job(0, 0)]], []), [Settled(Job(0, 0))], CONFIRMED, map[0 := Enqueued], STARTED);
            var es := [Finish(0, Success(7), true)] + rest;
            ValidRun(s, es) && After(s, es) == After(n, rest)
  {
    var s := OneWorker(Lists([], [[Job(0, 0)]], []), Running(Job(0, 0)), TRIED, STARTED);
    var n := State(Lists([], [[Job(0, 0)]], []), [Settled(Job(0, 0))], CONFIRMED, map[0 := Enqueued], STARTED);
    assert NextRows(s, Finish(0, Success(7), true)) == CONFIRMED;
    StepThen(s, Finish(0, Success(7), true), n, rest);
  }

  lemma Overtaken()
    ensures ValidRun(Init(1), OVERTAKEN) && After(Init(1), OVERTAKEN) == OVERTAKEN_STATE
  {
    AckedThenQueued();
    SettledThenAcked([ApiQueued(0, true)]);
    RunningThenSettled([Remove(0)] + [ApiQueued(0, true)]);
    TakenUp([Finish(0, Success(7), true)] + ([Remove(0)] + [ApiQueued(0, true)]));
    Submitted([Dequeue(0)] + ([Begin(0, true)] + ([Finish(0, Success(7), true)] + ([Remove(0)] + [ApiQueued(0, true)]))));
  }
}
