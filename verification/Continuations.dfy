/**
What can still happen to a request, whatever fails from now on: whether it can be executed again, and
whether its row and its transaction hash can still change.  Each answer is exact.
*/
module Continuations {
  import opened Wrappers
  import opened Queue
  import opened Pipeline
  import opened Delivery
  import opened Lifecycle
  import opened Finality

  // ---- Reaching a state ---------------------------------------------------------------------

  ghost predicate Reaches(s: State, goal: State -> bool) {
    exists es :: ValidRun(s, es) && goal(After(s, es))
  }

  lemma ReachesNow(s: State, goal: State -> bool)
    requires goal(s)
    ensures Reaches(s, goal)
  {
    assert ValidRun(s, []) && After(s, []) == s;
  }

  lemma ReachesAfter(s: State, e: Event, goal: State -> bool)
    requires Enabled(s, e) && Reaches(Next(s, e), goal)
    ensures Reaches(s, goal)
  {
    var n := Next(s, e);
    var es :| ValidRun(n, es) && goal(After(n, es));
    StepThen(s, e, n, es);
    assert ValidRun(s, [e] + es) && goal(After(s, [e] + es));
  }

  lemma ReachesAfterRun(s: State, a: seq<Event>, goal: State -> bool)
    requires ValidRun(s, a) && Reaches(After(s, a), goal)
    ensures Reaches(s, goal)
  {
    var n := After(s, a);
    var b :| ValidRun(n, b) && goal(After(n, b));
    RunConcat(s, a, b);
    assert ValidRun(s, a + b) && goal(After(s, a + b));
  }

  // ---- Executions ---------------------------------------------------------------------------

  predicate Executing(s: State, r: RequestId) {
    exists w :: 0 <= w < |s.pc| && s.pc[w].Running? && s.pc[w].job.id == r
  }

  function Executes(r: RequestId): State -> bool {
    (n: State) => Executing(n, r)
  }

  predicate HeldForRetry(pc: Pc, r: RequestId) {
    pc.Held? && !pc.poison && pc.job.id == r && pc.job.attempt < MAX_JOB_ATTEMPTS
  }

  /** There is, or will be, a job of r for a worker to take: the API call has yet to push it, or it is in
      the main list, in a processing list, or in the hands of a worker that is about to push it again. */
  predicate Live(s: State, r: RequestId) {
    || r !in s.api || s.api[r].Inserted?
    || !Free(s.q.main, r)
    || (exists w :: 0 <= w < |s.q.processing| && !Free(s.q.processing[w], r))
    || (exists w :: 0 <= w < |s.pc| && HeldForRetry(s.pc[w], r))
  }

  /** The first worker is idle: it takes jobs until it has one of r's. */
  lemma {:induction false} IdleExecutes(s: State, r: RequestId)
    requires Inv(s) && |s.pc| > 0 && s.pc[0].Idle? && !Free(s.q.main, r)
    ensures Reaches(s, Executes(r))
    decreases |s.q.main|, 0
  {
    var n := Next(s, Dequeue(0));
    StepInv(s, Dequeue(0));
    TakenByFirst(s);
    if Tail(s.q.main).id == r {
      TakenExecutes(n, r);
    } else {
      StillWaiting(s, r);
      MainExecutes(n, r);
    }
    ReachesAfter(s, Dequeue(0), Executes(r));
  }

  lemma TakenByFirst(s: State)
    requires Inv(s) && |s.pc| > 0 && s.pc[0].Idle? && s.q.main != []
    ensures var n := Next(s, Dequeue(0));
            && |n.pc| > 0 && n.pc[0] == Got(Tail(s.q.main)) && Tail(s.q.main).attempt < MAX_JOB_ATTEMPTS
            && n.q.main == s.q.main[..|s.q.main| - 1]
  {
    assert Tail(s.q.main) in s.q.main;
  }

  lemma StillWaiting(s: State, r: RequestId)
    requires s.q.main != [] && !Free(s.q.main, r) && Tail(s.q.main).id != r
    ensures !Free(s.q.main[..|s.q.main| - 1], r)
  {
    var j :| j in s.q.main && j.id == r;
    assert j in s.q.main[..|s.q.main| - 1];
  }

  lemma TakenExecutes(s: State, r: RequestId)
    requires Inv(s) && |s.pc| > 0 && s.pc[0].Got? && s.pc[0].job.id == r && s.pc[0].job.attempt < MAX_JOB_ATTEMPTS
    ensures Reaches(s, Executes(r))
  {
    var n := Next(s, Begin(0, true));
    assert n.pc[0].Running? && n.pc[0].job.id == r;
    ReachesNow(n, Executes(r));
    ReachesAfter(s, Begin(0, true), Executes(r));
  }

  /** A waiting job can be executed: the first worker is stopped and restarted, whatever it is doing. */
  lemma {:induction false} MainExecutes(s: State, r: RequestId)
    requires Inv(s) && |s.pc| > 0 && !Free(s.q.main, r)
    ensures Reaches(s, Executes(r))
    decreases |s.q.main|, 2
  {
    if s.pc[0].Idle? {
      IdleExecutes(s, r);
    } else if s.pc[0].Down? {
      DownExecutes(s, r);
    } else {
      var n := Next(s, Crash(0));
      StepInv(s, Crash(0));
      assert n.q == s.q && |n.pc| == |s.pc| && n.pc[0].Down?;
      DownExecutes(n, r);
      ReachesAfter(s, Crash(0), Executes(r));
    }
  }

  lemma {:induction false} DownExecutes(s: State, r: RequestId)
    requires Inv(s) && |s.pc| > 0 && s.pc[0].Down? && !Free(s.q.main, r)
    ensures Reaches(s, Executes(r))
    decreases |s.q.main|, 1
  {
    var n := Next(s, Restart(0));
    StepInv(s, Restart(0));
    assert n.q == s.q && |n.pc| == |s.pc| && n.pc[0].Idle?;
    IdleExecutes(n, r);
    ReachesAfter(s, Restart(0), Executes(r));
  }

  /** So can a job in a processing list: its worker is stopped, and the list recovered. */
  lemma {:induction false} ProcessingExecutes(s: State, w: nat, r: RequestId)
    requires Inv(s) && w < |s.pc| && !Free(s.q.processing[w], r)
    ensures Reaches(s, Executes(r))
    decreases |s.q.processing[w]|, if s.pc[w].Down? then 0 else 1
  {
    var e := if s.pc[w].Down? then RecoverOne(w) else Crash(w);
    var n := Next(s, e);
    StepInv(s, e);
    if e.Crash? {
      assert n.q == s.q && |n.pc| == |s.pc| && n.pc[w].Down?;
      ProcessingExecutes(n, w, r);
    } else {
      RecoveredKeeps(s, w, r);
      if !Free(n.q.main, r) {
        MainExecutes(n, r);
      } else {
        ProcessingExecutes(n, w, r);
      }
    }
    ReachesAfter(s, e, Executes(r));
  }

  lemma RecoveredKeeps(s: State, w: nat, r: RequestId)
    requires Inv(s) && w < |s.pc| && s.pc[w].Down? && !Free(s.q.processing[w], r)
    ensures var n := Next(s, RecoverOne(w));
            && |n.pc| == |s.pc| && w < |n.q.processing| && |n.q.processing[w]| < |s.q.processing[w]|
            && (!Free(n.q.main, r) || !Free(n.q.processing[w], r))
  {
    var p, n := s.q.processing[w], Next(s, RecoverOne(w));
    var j :| j in p && j.id == r;
    if j == Tail(p) {
      assert n.q.main[0] == j;
    } else {
      assert j in p[..|p| - 1];
    }
  }

  lemma HeldExecutes(s: State, w: nat, r: RequestId)
    requires Inv(s) && w < |s.pc| && HeldForRetry(s.pc[w], r)
    ensures Reaches(s, Executes(r))
  {
    var n := Next(s, Push(w));
    StepInv(s, Push(w));
    assert n.q.main[0] == s.pc[w].job && |n.pc| == |s.pc|;
    MainExecutes(n, r);
    ReachesAfter(s, Push(w), Executes(r));
  }

  lemma InsertedExecutes(s: State, r: RequestId)
    requires Inv(s) && |s.pc| > 0 && r in s.api && s.api[r].Inserted?
    ensures Reaches(s, Executes(r))
  {
    var n := Next(s, ApiEnqueue(r));
    StepInv(s, ApiEnqueue(r));
    assert n.q.main[0] == Job(r, 0) && n.pc == s.pc;
    MainExecutes(n, r);
    ReachesAfter(s, ApiEnqueue(r), Executes(r));
  }

  lemma UnknownExecutes(s: State, r: RequestId)
    requires Inv(s) && |s.pc| > 0 && r !in s.api
    ensures Reaches(s, Executes(r))
  {
    var n := Next(s, ApiInsert(r));
    StepInv(s, ApiInsert(r));
    assert n.pc == s.pc && n.api[r].Inserted?;
    InsertedExecutes(n, r);
    ReachesAfter(s, ApiInsert(r), Executes(r));
  }

  lemma LiveExecutes(s: State, r: RequestId)
    requires Inv(s) && |s.pc| > 0 && Live(s, r)
    ensures Reaches(s, Executes(r))
  {
    if r !in s.api {
      UnknownExecutes(s, r);
    } else if s.api[r].Inserted? {
      InsertedExecutes(s, r);
    } else if !Free(s.q.main, r) {
      MainExecutes(s, r);
    } else if w :| 0 <= w < |s.q.processing| && !Free(s.q.processing[w], r) {
      ProcessingExecutes(s, w, r);
    } else {
      var w :| 0 <= w < |s.pc| && HeldForRetry(s.pc[w], r);
      HeldExecutes(s, w, r);
    }
  }

  // ---- No more executions -------------------------------------------------------------------

  /** A worker at a request that is not live has only its last push or its last write left. */
  lemma DeadWorkers(s: State, w: nat, r: RequestId)
    requires Inv(s) && !Live(s, r) && w < |s.pc| && At(s.pc[w], r)
    ensures s.pc[w].Exhausted? || (s.pc[w].Held? && !s.pc[w].poison && s.pc[w].job.attempt >= MAX_JOB_ATTEMPTS)
  {
    assert WorkerOk(s.q.processing[w], s.pc[w]);
    assert Free(s.q.processing[w], r);
    assert !HeldForRetry(s.pc[w], r);
  }

  lemma StepDeadLists(s: State, e: Event, r: RequestId)
    requires Inv(s) && !Live(s, r) && Enabled(s, e) && !IsApi(e)
    ensures Free(NextLists(s, e).main, r) && Free(NextLists(s, e).processing[e.w], r)
  {
    assert Free(s.q.processing[e.w], r);
    if At(s.pc[e.w], r) {
      DeadWorkers(s, e.w, r);
    }
    if e.Remove? || e.RemoveError? {
      RemoveFirstSubset(s.q.processing[e.w], s.pc[e.w].job);
    }
  }

  lemma StepDeadPc(s: State, e: Event, r: RequestId)
    requires Inv(s) && !Live(s, r) && Enabled(s, e) && !IsApi(e)
    ensures !HeldForRetry(NextPc(s, e), r)
  {
    if At(s.pc[e.w], r) {
      DeadWorkers(s, e.w, r);
    }
  }

  lemma StepDead(s: State, e: Event, r: RequestId)
    requires Inv(s) && !Live(s, r) && Enabled(s, e)
    ensures !Live(Next(s, e), r)
  {
    if IsApi(e) {
      StepDeadApi(s, e, r);
    } else {
      var n := Next(s, e);
      StepDeadLists(s, e, r);
      StepDeadPc(s, e, r);
      StepFrame(s, e);
      assert n.api == s.api;
      forall w | 0 <= w < |n.pc| ensures Free(n.q.processing[w], r) && !HeldForRetry(n.pc[w], r) {
        if w != e.w {
          assert Free(s.q.processing[w], r) && !HeldForRetry(s.pc[w], r);
        }
      }
    }
  }

  lemma StepDeadApi(s: State, e: Event, r: RequestId)
    requires Inv(s) && !Live(s, r) && Enabled(s, e) && IsApi(e)
    ensures !Live(Next(s, e), r)
  {
    assert NextLists(s, e).processing == s.q.processing && NextPcs(s, e) == s.pc;
    assert Free(NextLists(s, e).main, r);
    assert r in NextApi(s, e) && !NextApi(s, e)[r].Inserted?;
  }

  lemma DeadHash(s: State, e: Event, r: RequestId)
    requires Inv(s) && !Live(s, r) && Enabled(s, e)
    ensures r in s.rows && r in NextRows(s, e) && NextRows(s, e)[r].txHash == s.rows[r].txHash
  {
    if !IsApi(e) && At(s.pc[e.w], r) {
      DeadWorkers(s, e.w, r);
    }
  }

  lemma {:induction false} DeadRun(s: State, es: seq<Event>, r: RequestId)
    requires Inv(s) && !Live(s, r) && ValidRun(s, es)
    ensures Inv(After(s, es)) && !Live(After(s, es), r)
    ensures r in s.rows && r in After(s, es).rows && After(s, es).rows[r].txHash == s.rows[r].txHash
    decreases |es|
  {
    if es != [] {
      StepInv(s, es[0]);
      StepDead(s, es[0], r);
      DeadHash(s, es[0], r);
      DeadRun(Next(s, es[0]), es[1..], r);
    }
  }

  lemma DeadNotExecuting(s: State, r: RequestId)
    requires Inv(s) && !Live(s, r)
    ensures !Executing(s, r)
  {
    if w :| 0 <= w < |s.pc| && s.pc[w].Running? && s.pc[w].job.id == r {
      DeadWorkers(s, w, r);
    }
  }

  /** A request can be executed, now or later, if and only if it is live. */
  lemma ExecutesIffLive(s: State, r: RequestId)
    requires Inv(s) && |s.pc| > 0
    ensures Reaches(s, Executes(r)) <==> Live(s, r)
  {
    if Live(s, r) {
      LiveExecutes(s, r);
    } else {
      forall es | ValidRun(s, es) ensures !Executing(After(s, es), r) {
        DeadRun(s, es, r);
        DeadNotExecuting(After(s, es), r);
      }
    }
  }

  // ---- The transaction hash -----------------------------------------------------------------

  function HashIsNot(r: RequestId, txHash: Option<TxHash>): State -> bool {
    (n: State) => r in n.rows && n.rows[r].txHash != txHash
  }

  lemma ExecutingRehashes(s: State, r: RequestId, txHash: Option<TxHash>)
    requires Inv(s) && Executing(s, r) && r in s.rows
    ensures Reaches(s, HashIsNot(r, txHash))
  {
    var w :| 0 <= w < |s.pc| && s.pc[w].Running? && s.pc[w].job.id == r;
    var e := Finish(w, Success(if txHash == Some(0) then 1 else 0), true);
    ReachesNow(Next(s, e), HashIsNot(r, txHash));
    ReachesAfter(s, e, HashIsNot(r, txHash));
  }

  lemma ToExecution(s: State, r: RequestId) returns (a: seq<Event>)
    requires Inv(s) && |s.pc| > 0 && r in s.api && Live(s, r)
    ensures ValidRun(s, a) && Inv(After(s, a)) && Executing(After(s, a), r)
    ensures r in s.rows && r in After(s, a).rows && |s.rows[r].history| <= |After(s, a).rows[r].history|
  {
    LiveExecutes(s, r);
    a :| ValidRun(s, a) && Executes(r)(After(s, a));
    RunInv(s, a);
    HistoryGrows(s, a, r);
  }

  predicate KeepsHash(s: State, es: seq<Event>, r: RequestId)
    requires ValidRun(s, es) && r in s.rows
  {
    r in After(s, es).rows && After(s, es).rows[r].txHash == s.rows[r].txHash
  }

  lemma LiveRehashes(s: State, r: RequestId) returns (es: seq<Event>)
    requires Inv(s) && |s.pc| > 0 && r in s.api && Live(s, r)
    ensures ValidRun(s, es) && !KeepsHash(s, es, r)
  {
    var goal := HashIsNot(r, s.rows[r].txHash);
    var a := ToExecution(s, r);
    ExecutingRehashes(After(s, a), r, s.rows[r].txHash);
    ReachesAfterRun(s, a, goal);
    es :| ValidRun(s, es) && goal(After(s, es));
  }

  /** A request's transaction hash, recorded or not, is settled for good if and only if the request is not
      live. */
  lemma HashIsFixedIff(s: State, r: RequestId)
    requires Inv(s) && |s.pc| > 0 && r in s.api
    ensures (forall es :: ValidRun(s, es) ==> KeepsHash(s, es, r)) <==> !Live(s, r)
  {
    if Live(s, r) {
      var es := LiveRehashes(s, r);
    } else {
      forall es | ValidRun(s, es) ensures KeepsHash(s, es, r) {
        DeadRun(s, es, r);
      }
    }
  }

  // ---- The row ------------------------------------------------------------------------------

  /** r's history is longer than it was. */
  function Longer(r: RequestId, length: nat): State -> bool {
    (n: State) => r in n.rows && |n.rows[r].history| > length
  }

  lemma WriteLengthens(s: State, e: Event, r: RequestId, length: nat)
    requires Enabled(s, e) && r in s.rows && |s.rows[r].history| >= length
    requires r in Next(s, e).rows && |Next(s, e).rows[r].history| > |s.rows[r].history|
    ensures Reaches(s, Longer(r, length))
  {
    ReachesNow(Next(s, e), Longer(r, length));
    ReachesAfter(s, e, Longer(r, length));
  }

  lemma ExecutingLengthens(s: State, r: RequestId, length: nat)
    requires Inv(s) && Executing(s, r) && r in s.rows && |s.rows[r].history| >= length
    ensures Reaches(s, Longer(r, length))
  {
    var w :| 0 <= w < |s.pc| && s.pc[w].Running? && s.pc[w].job.id == r;
    WriteLengthens(s, Finish(w, Success(0), true), r, length);
  }

  lemma LiveLengthens(s: State, r: RequestId)
    requires Inv(s) && |s.pc| > 0 && r in s.api && Live(s, r)
    ensures Reaches(s, Longer(r, |s.rows[r].history|))
  {
    var length := |s.rows[r].history|;
    var a := ToExecution(s, r);
    ExecutingLengthens(After(s, a), r, length);
    ReachesAfterRun(s, a, Longer(r, length));
  }

  /** A worker with r's last write before it. */
  lemma LastWriteLengthens(s: State, w: nat, r: RequestId)
    requires Inv(s) && r in s.rows && w < |s.pc| && At(s.pc[w], r) && !Live(s, r)
    ensures Reaches(s, Longer(r, |s.rows[r].history|))
  {
    DeadWorkers(s, w, r);
    if s.pc[w].Exhausted? {
      WriteLengthens(s, CloseOut(w, true), r, |s.rows[r].history|);
    } else {
      var n := Next(s, Push(w));
      assert n.pc[w].Exhausted? && n.pc[w].job.id == r && n.rows == s.rows && |n.pc| == |s.pc|;
      StepInv(s, Push(w));
      WriteLengthens(n, CloseOut(w, true), r, |s.rows[r].history|);
      ReachesAfter(s, Push(w), Longer(r, |s.rows[r].history|));
    }
  }

  lemma NotGoneLengthens(s: State, r: RequestId)
    requires Inv(s) && |s.pc| > 0 && r in s.api && !Gone(s, r)
    ensures Reaches(s, Longer(r, |s.rows[r].history|))
  {
    if Live(s, r) {
      LiveLengthens(s, r);
    } else if s.api[r] == Enqueued {
      WriteLengthens(s, ApiQueued(r, true), r, |s.rows[r].history|);
    } else {
      var w :| 0 <= w < |s.pc| && At(s.pc[w], r);
      LastWriteLengthens(s, w, r);
    }
  }

  predicate KeepsRow(s: State, es: seq<Event>, r: RequestId)
    requires ValidRun(s, es) && r in s.rows
  {
    r in After(s, es).rows && After(s, es).rows[r] == s.rows[r]
  }

  lemma NotGoneRewrites(s: State, r: RequestId) returns (es: seq<Event>)
    requires Inv(s) && |s.pc| > 0 && r in s.api && !Gone(s, r)
    ensures ValidRun(s, es) && !KeepsRow(s, es, r)
  {
    var goal := Longer(r, |s.rows[r].history|);
    NotGoneLengthens(s, r);
    es :| ValidRun(s, es) && goal(After(s, es));
  }

  /** A request's row is settled for good, whatever happens, if and only if its API call has returned and no
      list and no worker has a job of it. */
  lemma RowIsFixedIff(s: State, r: RequestId)
    requires Inv(s) && |s.pc| > 0 && r in s.api
    ensures (forall es :: ValidRun(s, es) ==> KeepsRow(s, es, r)) <==> Gone(s, r)
  {
    if Gone(s, r) {
      forall es | ValidRun(s, es) ensures KeepsRow(s, es, r) {
        NothingWritesAgain(s, es, r);
      }
    } else {
      var es := NotGoneRewrites(s, r);
    }
  }
}
