/**
When a terminal status is final, over every run in which nothing fails that has to do with the request.

The only write that can follow a terminal status is the `Queued` write of the API call, and only if the
request was finished before it.  That condition decides both whether rows stay as they are and whether
the status column agrees with where the job is.
*/
module Finality {
  import opened Wrappers
  import opened Queue
  import opened Pipeline
  import opened Gauges
  import opened Delivery
  import opened Lifecycle

  /** The status of r is terminal. */
  predicate Ended(s: State, r: RequestId) {
    r in s.rows && s.rows[r].history != [] && Terminal(Last(s.rows[r].history))
  }

  /** A worker finishes r while its API call has yet to write `Queued`. */
  predicate Premature(s: State, e: Event, r: RequestId)
    requires Enabled(s, e)
  {
    && ((e.Finish? && !e.outcome.Transient?) || e.CloseOut?)
    && s.pc[e.w].job.id == r && r in s.api && s.api[r] == Enqueued
  }

  predicate Queues(e: Event, r: RequestId) {
    e.ApiQueued? && e.r == r
  }

  /** The `Queued` write of r is in the run. */
  predicate QueuedIn(es: seq<Event>, r: RequestId) {
    es != [] && (Queues(es[0], r) || QueuedIn(es[1..], r))
  }

  /** r is finished prematurely, and the `Queued` write follows. */
  predicate Overtaken(s: State, es: seq<Event>, r: RequestId)
    requires ValidRun(s, es)
    decreases |es|
  {
    es != [] && ((Premature(s, es[0], r) && QueuedIn(es[1..], r)) || Overtaken(Next(s, es[0]), es[1..], r))
  }

  /** Whenever r's status is terminal, its row is what it is at the end of the run. */
  predicate AlwaysFinal(s: State, es: seq<Event>, r: RequestId)
    requires ValidRun(s, es)
    decreases |es|
  {
    && (Ended(s, r) ==> r in After(s, es).rows && After(s, es).rows[r] == s.rows[r])
    && (es == [] || AlwaysFinal(Next(s, es[0]), es[1..], r))
  }

  // ---- Finished requests --------------------------------------------------------------------

  /** No job of r is waiting, and no worker will write its row again. */
  ghost predicate Resting(s: State, r: RequestId) {
    && r in s.api && !s.api[r].Inserted? && r in s.rows
    && Free(s.q.main, r)
    && forall w :: 0 <= w < |s.pc| && At(s.pc[w], r) ==> s.pc[w].Settled?
  }

  lemma StepRests(s: State, e: Event, r: RequestId)
    requires Resting(s, r) && Enabled(s, e) && Untroubled(s, e, r)
    ensures Resting(Next(s, e), r)
    ensures Queues(e, r) ==> s.api[r] == Enqueued && Next(s, e).api[r] == Answered(true)
    ensures Queues(e, r) ==> Next(s, e).rows[r] == Row(s.rows[r].history + [Queued], s.rows[r].txHash)
    ensures !Queues(e, r) ==> Next(s, e).api[r] == s.api[r] && Next(s, e).rows[r] == s.rows[r]
  {
    if IsApi(e) {
      RestsApi(s, e, r);
    } else if Concerns(s, e, r) {
      RestsOwn(s, e, r);
    } else {
      OtherRow(s, e, r);
      OtherLists(s, e, r);
    }
  }

  lemma RestsApi(s: State, e: Event, r: RequestId)
    requires Resting(s, r) && Enabled(s, e) && Untroubled(s, e, r) && IsApi(e)
    ensures Resting(Next(s, e), r)
    ensures Queues(e, r) ==> s.api[r] == Enqueued && Next(s, e).api[r] == Answered(true)
    ensures Queues(e, r) ==> Next(s, e).rows[r] == Row(s.rows[r].history + [Queued], s.rows[r].txHash)
    ensures !Queues(e, r) ==> Next(s, e).api[r] == s.api[r] && Next(s, e).rows[r] == s.rows[r]
  {
  }

  /** A worker at a finished request can only acknowledge it. */
  lemma RestsOwn(s: State, e: Event, r: RequestId)
    requires Resting(s, r) && Enabled(s, e) && Smooth(e) && !IsApi(e) && Concerns(s, e, r)
    ensures e.Remove? && Resting(Next(s, e), r) && Next(s, e).api == s.api && Next(s, e).rows == s.rows
  {
  }

  /** What is left to happen to the row of a finished request: the `Queued` write, if it is still due. */
  lemma {:induction false} RestRun(s: State, es: seq<Event>, r: RequestId)
    requires Resting(s, r) && ValidRun(s, es) && Undisturbed(s, es, r)
    ensures Resting(After(s, es), r)
    ensures if s.api[r] == Enqueued && QueuedIn(es, r)
            then After(s, es).rows[r] == Row(s.rows[r].history + [Queued], s.rows[r].txHash) && After(s, es).api[r] == Answered(true)
            else After(s, es).rows[r] == s.rows[r] && After(s, es).api[r] == s.api[r]
    decreases |es|
  {
    if es != [] {
      StepRests(s, es[0], r);
      RestRun(Next(s, es[0]), es[1..], r);
    }
  }

  // ---- The course of a request --------------------------------------------------------------

  ghost predicate Explained(s: State, j: Job, st: Status) {
    Terminal(st) || exists w :: 0 <= w < |s.pc| && s.pc[w] == Exhausted(j)
  }

  /** What r's status says, as long as no `Queued` write has come after a terminal one. */
  ghost predicate Course(s: State, r: RequestId) {
    r in s.api ==>
      && r in s.rows && s.rows[r].history != []
      && var st := Last(s.rows[r].history);
         && (s.api[r].Inserted? ==> !Terminal(st))
         && (forall j :: j in s.q.main && j.id == r ==> !Terminal(st))
         && (forall w :: 0 <= w < |s.pc| && At(s.pc[w], r) ==> (Terminal(st) <==> s.pc[w].Settled?))
         && (forall j :: j in s.q.dlq && j.id == r ==> Explained(s, j, st))
         && (s.led.acked[r] > 0 ==> Terminal(st))
  }

  lemma EndedRests(s: State, r: RequestId)
    requires Inv(s) && Course(s, r) && Ended(s, r)
    ensures Resting(s, r)
  {
  }

  lemma ApiOwnCourse(s: State, e: Event, r: RequestId)
    requires Placed(s, r) && Course(s, r) && Enabled(s, e) && Smooth(e) && IsApi(e) && e.r == r && !e.ApiQueued?
    ensures Course(Next(s, e), r)
  {
    if e.ApiEnqueue? {
      ApiEnqueueCourse(s, e, r);
    } else {
      UnsentNowhere(s, r);
      assert NextLists(s, e) == s.q;
    }
  }

  lemma ApiEnqueueCourse(s: State, e: Event, r: RequestId)
    requires Placed(s, r) && Course(s, r) && Enabled(s, e) && e.ApiEnqueue? && e.r == r
    ensures Course(Next(s, e), r)
  {
    UnsentNowhere(s, r);
  }

  lemma ApiCourse(s: State, e: Event, r: RequestId)
    requires Placed(s, r) && Course(s, r) && Enabled(s, e) && Untroubled(s, e, r) && IsApi(e)
    requires !(Queues(e, r) && Ended(s, r))
    ensures Course(Next(s, e), r)
  {
    if e.r != r {
      ApiOtherCourse(s, e, r);
    } else if e.ApiQueued? {
      ApiQueuedCourse(s, e, r);
    } else {
      ApiOwnCourse(s, e, r);
    }
  }

  lemma ApiQueuedCourse(s: State, e: Event, r: RequestId)
    requires Placed(s, r) && Course(s, r) && Enabled(s, e) && Smooth(e) && Queues(e, r) && !Ended(s, r)
    ensures Course(Next(s, e), r)
  {
    ExplainedFrame(s, e, r);
  }

  lemma ApiOtherCourse(s: State, e: Event, r: RequestId)
    requires Course(s, r) && Enabled(s, e) && IsApi(e) && e.r != r
    ensures Course(Next(s, e), r)
  {
    if r in s.api {
      ApiOtherFrame(s, e, r);
      ExplainedFrame(s, e, r);
    }
  }

  /** A step that leaves r's workers alone leaves the dead letters of r explained. */
  lemma ExplainedFrame(s: State, e: Event, r: RequestId)
    requires Enabled(s, e) && (IsApi(e) || !At(s.pc[e.w], r))
    ensures forall j: Job, st: Status, st': Status :: j.id == r && Explained(s, j, st) && (Terminal(st) ==> Terminal(st')) ==> Explained(Next(s, e), j, st')
  {
    forall j: Job, st: Status, st': Status | j.id == r && Explained(s, j, st) && (Terminal(st) ==> Terminal(st'))
      ensures Explained(Next(s, e), j, st')
    {
      if !Terminal(st') {
        var w :| 0 <= w < |s.pc| && s.pc[w] == Exhausted(j);
        assert Next(s, e).pc[w] == Exhausted(j);
      }
    }
  }

  lemma OtherCourse(s: State, e: Event, r: RequestId)
    requires Placed(s, r) && Course(s, r) && Enabled(s, e) && !IsApi(e) && !Concerns(s, e, r)
    ensures Course(Next(s, e), r)
  {
    if r in s.api {
      OtherRow(s, e, r);
      OtherLists(s, e, r);
      ExplainedFrame(s, e, r);
    }
  }

  lemma DequeueCourse(s: State, e: Event, r: RequestId)
    requires Placed(s, r) && Course(s, r) && Enabled(s, e) && e.Dequeue? && Tail(s.q.main).id == r
    ensures Course(Next(s, e), r)
  {
    MainAlone(s, Tail(s.q.main));
    assert Tail(s.q.main) in s.q.main;
  }

  lemma AtWasSent(s: State, w: nat, r: RequestId)
    requires Placed(s, r) && w < |s.pc| && At(s.pc[w], r)
    ensures Sent(s, r)
  {
    if !Sent(s, r) {
      UnsentNowhere(s, r);
    }
  }

  /** A worker that is at r writes r's row or not, and moves on without a push. */
  lemma OwnCourseFrame(s: State, e: Event, r: RequestId)
    requires Placed(s, r) && Course(s, r) && Enabled(s, e)
    requires e.Begin? || e.Finish? || e.Remove? || e.CloseOut?
    requires At(s.pc[e.w], r)
    requires var n := Next(s, e);
             && r in n.rows && n.rows[r].history != []
             && var st := Last(n.rows[r].history);
                && (At(n.pc[e.w], r) ==> (Terminal(st) <==> n.pc[e.w].Settled?))
                && (s.pc[e.w].Exhausted? ==> Terminal(st))
                && (n.led.acked[r] > s.led.acked[r] ==> Terminal(st))
    ensures Course(Next(s, e), r)
  {
    var n := Next(s, e);
    AtWasSent(s, e.w, r);
    Alone(s, e.w, r);
    assert n.q.main == s.q.main && n.q.dlq == s.q.dlq && n.api == s.api;
    assert forall v :: 0 <= v < |n.pc| && At(n.pc[v], r) ==> v == e.w;
  }

  lemma OwnCourse(s: State, e: Event, r: RequestId)
    requires Placed(s, r) && Course(s, r) && Enabled(s, e) && Smooth(e) && !IsApi(e) && At(s.pc[e.w], r)
    ensures Course(Next(s, e), r)
  {
    AtWasSent(s, e.w, r);
    assert WorkerOk(s.q.processing[e.w], s.pc[e.w]);
    if e.Push? {
      OwnPushCourse(s, e, r);
    } else {
      OwnWrites(s, e, r);
      OwnCourseFrame(s, e, r);
    }
  }

  /** What a worker that is at r writes. */
  lemma OwnWrites(s: State, e: Event, r: RequestId)
    requires Course(s, r) && Enabled(s, e) && Smooth(e) && r in s.api && !IsApi(e) && !e.Push?
    requires At(s.pc[e.w], r) && (e.Begin? ==> s.pc[e.w].job.attempt < MAX_JOB_ATTEMPTS)
    ensures r in NextRows(s, e) && NextRows(s, e)[r].history != []
    ensures var st := Last(NextRows(s, e)[r].history);
            && (At(NextPc(s, e), r) ==> (Terminal(st) <==> NextPc(s, e).Settled?))
            && (s.pc[e.w].Exhausted? ==> Terminal(st))
            && (NextLedger(s, e).acked[r] > s.led.acked[r] ==> Terminal(st))
  {
  }

  lemma OwnPushCourse(s: State, e: Event, r: RequestId)
    requires Placed(s, r) && Course(s, r) && Enabled(s, e) && e.Push? && At(s.pc[e.w], r) && r in s.api
    ensures Course(Next(s, e), r)
  {
    var n := Next(s, e);
    AtWasSent(s, e.w, r);
    Alone(s, e.w, r);
    assert WorkerOk(s.q.processing[e.w], s.pc[e.w]);
    if n.pc[e.w].Exhausted? {
      assert n.pc[e.w] == Exhausted(s.pc[e.w].job);
    }
  }

  lemma StepCourse(s: State, e: Event, r: RequestId)
    requires Placed(s, r) && Course(s, r) && Enabled(s, e) && Untroubled(s, e, r)
    requires !(Queues(e, r) && Ended(s, r))
    ensures Course(Next(s, e), r)
  {
    if IsApi(e) {
      ApiCourse(s, e, r);
    } else if !Concerns(s, e, r) {
      OtherCourse(s, e, r);
    } else if At(s.pc[e.w], r) {
      OwnCourse(s, e, r);
    } else {
      DequeueCourse(s, e, r);
    }
  }

  /** Finished, with the `Queued` write still due. */
  predicate Early(s: State, r: RequestId) {
    r in s.api && s.api[r] == Enqueued && Ended(s, r)
  }

  lemma ApiNotEarly(s: State, e: Event, r: RequestId)
    requires Course(s, r) && Enabled(s, e) && IsApi(e) && !(Ended(s, r) && r in s.api)
    ensures !Early(Next(s, e), r)
  {
  }

  lemma OwnEarly(s: State, e: Event, r: RequestId)
    requires Course(s, r) && Enabled(s, e) && Smooth(e) && !IsApi(e) && r in s.api && !Ended(s, r)
    requires At(s.pc[e.w], r) && (e.Begin? ==> s.pc[e.w].job.attempt < MAX_JOB_ATTEMPTS)
    ensures Early(Next(s, e), r) <==> Premature(s, e, r)
  {
    assert NextApi(s, e) == s.api;
  }

  lemma OtherNotEarly(s: State, e: Event, r: RequestId)
    requires Enabled(s, e) && !IsApi(e) && !Ended(s, r) && !At(s.pc[e.w], r)
    ensures !Early(Next(s, e), r) && !Premature(s, e, r)
  {
  }

  /** A request gets there by being finished prematurely, and leaves by the `Queued` write. */
  lemma StepEarly(s: State, e: Event, r: RequestId)
    requires Placed(s, r) && Course(s, r) && Enabled(s, e) && Untroubled(s, e, r)
    ensures Early(Next(s, e), r) <==> Premature(s, e, r) || (Early(s, r) && !Queues(e, r))
    ensures Early(s, r) ==> !Premature(s, e, r)
  {
    if Ended(s, r) && r in s.api {
      EndedRests(s, r);
      StepRests(s, e, r);
    } else if IsApi(e) {
      ApiNotEarly(s, e, r);
    } else if At(s.pc[e.w], r) {
      AtIsSent(s, e.w, r);
      assert WorkerOk(s.q.processing[e.w], s.pc[e.w]);
      OwnEarly(s, e, r);
    } else {
      assert Inv(s);
      OtherNotEarly(s, e, r);
    }
  }

  /** The `Queued` write of r comes after a terminal status, now or later. */
  predicate Late(s: State, es: seq<Event>, r: RequestId)
    requires ValidRun(s, es)
  {
    (Early(s, r) && QueuedIn(es, r)) || Overtaken(s, es, r)
  }

  /** Overwritten for good: the row says `Queued`, and nothing will write it again. */
  ghost predicate Stranded(s: State, r: RequestId) {
    Resting(s, r) && s.api[r] == Answered(true) && s.rows[r].history != [] && Last(s.rows[r].history) == Queued
  }

  lemma {:induction false} CourseRun(s: State, es: seq<Event>, r: RequestId)
    requires Placed(s, r) && Course(s, r) && ValidRun(s, es) && Undisturbed(s, es, r)
    ensures Placed(After(s, es), r)
    ensures if Late(s, es, r) then Stranded(After(s, es), r) else Course(After(s, es), r)
    ensures AlwaysFinal(s, es, r) <==> !Late(s, es, r)
    decreases |es|
  {
    if Ended(s, r) && r in s.api {
      EndedRests(s, r);
      RestRun(s, es, r);
    }
    if es != [] {
      var n := Next(s, es[0]);
      StepPlaced(s, es[0], r);
      StepEarly(s, es[0], r);
      if Early(s, r) && Queues(es[0], r) {
        PlacedRun(n, es[1..], r);
      } else {
        StepCourse(s, es[0], r);
        CourseRun(n, es[1..], r);
      }
    }
  }

  lemma {:induction false} PlacedRun(s: State, es: seq<Event>, r: RequestId)
    requires Placed(s, r) && ValidRun(s, es) && Undisturbed(s, es, r)
    ensures Placed(After(s, es), r)
    decreases |es|
  {
    if es != [] {
      StepPlaced(s, es[0], r);
      PlacedRun(Next(s, es[0]), es[1..], r);
    }
  }

  lemma InitCourse(workers: nat, r: RequestId)
    ensures Placed(Init(workers), r) && Course(Init(workers), r) && !Early(Init(workers), r)
  {
    InitLife(workers, r);
  }

  // ---- The laws -----------------------------------------------------------------------------

  /** In a run in which nothing fails that has to do with the request, terminal statuses are final if and only if the request is not finished
      prematurely with its `Queued` write to follow. */
  lemma TerminalIsFinal(workers: nat, es: seq<Event>, r: RequestId)
    requires ValidRun(Init(workers), es) && Undisturbed(Init(workers), es, r)
    ensures AlwaysFinal(Init(workers), es, r) <==> !Overtaken(Init(workers), es, r)
  {
    InitCourse(workers, r);
    CourseRun(Init(workers), es, r);
  }

  /** With no worker at r, r's job is in the main list, in the dead-letter list or acknowledged. */
  lemma LeftPlaces(s: State, r: RequestId)
    requires Placed(s, r) && Sent(s, r) && forall w :: 0 <= w < |s.pc| ==> !At(s.pc[w], r)
    ensures Free(s.q.main, r) <==> s.led.acked[r] == 1 || !Free(s.q.dlq, r)
    ensures forall w :: 0 <= w < |s.q.processing| ==> Free(s.q.processing[w], r)
  {
    Shares(s, r);
    NoCopies(r, OnMain, s.q.main);
    NoCopies(r, OnDlq, s.q.dlq);
    forall w | 0 <= w < |s.pc| ensures Share(s, w, r) == 0 && Free(s.q.processing[w], r) {
      ShareIs(s, w, r);
      NoCopies(r, OnProcessing, s.q.processing[w]);
    }
    ZeroShares(s.q.processing, s.pc, r);
  }

  /** Whatever the other workers are doing, the status of an answered request that no worker is at is
      terminal exactly when its job has left the main list and the processing lists, unless the run has
      overtaken it, and then it is not. */
  lemma TerminalExactlyWhenDone(workers: nat, es: seq<Event>, r: RequestId)
    requires ValidRun(Init(workers), es) && Undisturbed(Init(workers), es, r)
    requires var s := After(Init(workers), es);
             r in s.api && s.api[r] == Answered(true) && forall w :: 0 <= w < |s.pc| ==> !At(s.pc[w], r)
    ensures var s := After(Init(workers), es);
            && r in s.rows && s.rows[r].history != []
            && ((Terminal(Last(s.rows[r].history)) <==> Free(s.q.main, r)) <==> !Overtaken(Init(workers), es, r))
            && (forall w :: 0 <= w < |s.q.processing| ==> Free(s.q.processing[w], r))
            && (Free(s.q.main, r) <==> s.led.acked[r] == 1 || !Free(s.q.dlq, r))
  {
    InitCourse(workers, r);
    CourseRun(Init(workers), es, r);
    LeftPlaces(After(Init(workers), es), r);
    if !Overtaken(Init(workers), es, r) {
      LeftCourse(After(Init(workers), es), r);
    }
  }

  lemma LeftCourse(s: State, r: RequestId)
    requires Placed(s, r) && Course(s, r) && Sent(s, r) && forall w :: 0 <= w < |s.pc| ==> !At(s.pc[w], r)
    ensures Terminal(Last(s.rows[r].history)) <==> Free(s.q.main, r)
  {
    LeftPlaces(s, r);
    if Free(s.q.main, r) && !Free(s.q.dlq, r) {
      var j :| j in s.q.dlq && j.id == r;
      assert Explained(s, j, Last(s.rows[r].history));
    } else if !Free(s.q.main, r) {
      var j :| j in s.q.main && j.id == r;
    }
  }

  lemma LifeNotPremature(s: State, e: Event, r: RequestId)
    requires Life(s, r) && Enabled(s, e) && r in s.api && (e.Finish? || e.CloseOut?) && At(s.pc[e.w], r)
    ensures s.api[r] == Answered(true)
  {
    assert PcOk(s.pc[e.w], Last(s.rows[r].history), s.api[r]);
  }

  /** A run in which no worker starts on r before the `Queued` write does not overtake r. */
  lemma {:induction false} TimelyNotOvertaken(s: State, es: seq<Event>, r: RequestId)
    requires Placed(s, r) && Life(s, r) && ValidRun(s, es) && Timely(s, es, r)
    requires Undisturbed(s, es, r)
    ensures !Overtaken(s, es, r)
    decreases |es|
  {
    if es != [] {
      var e := es[0];
      if r in s.api && (e.Finish? || e.CloseOut?) && At(s.pc[e.w], r) {
        LifeNotPremature(s, e, r);
      }
      StepPlaced(s, e, r);
      StepLife(s, e, r);
      TimelyNotOvertaken(Next(s, e), es[1..], r);
    }
  }

  // ---- The transaction hash -----------------------------------------------------------------

  /** A hash is only recorded with a final status. */
  ghost predicate Hashed(s: State, r: RequestId) {
    r in s.rows && s.rows[r].txHash.Some? ==> Resting(s, r)
  }

  lemma StepHash(s: State, e: Event, r: RequestId)
    requires Placed(s, r) && Hashed(s, r) && Enabled(s, e) && Untroubled(s, e, r)
    ensures Hashed(Next(s, e), r)
    ensures r in s.rows && s.rows[r].txHash.Some? ==> r in Next(s, e).rows && Next(s, e).rows[r].txHash == s.rows[r].txHash
  {
    if r in s.rows && s.rows[r].txHash.Some? {
      StepRests(s, e, r);
    } else if e.Finish? && s.pc[e.w].job.id == r {
      FinishRests(s, e, r);
    } else {
      NoNewHash(s, e, r);
    }
  }

  lemma NoNewHash(s: State, e: Event, r: RequestId)
    requires Enabled(s, e) && !(e.Finish? && s.pc[e.w].job.id == r)
    requires r in s.rows ==> s.rows[r].txHash.None?
    ensures r in NextRows(s, e) ==> NextRows(s, e)[r].txHash.None?
  {
  }

  lemma FinishRests(s: State, e: Event, r: RequestId)
    requires Placed(s, r) && Enabled(s, e) && e.Finish? && At(s.pc[e.w], r)
    ensures Next(s, e).pc[e.w].Settled? ==> Resting(Next(s, e), r)
    ensures !Next(s, e).pc[e.w].Settled? ==> Next(s, e).rows == s.rows
  {
    AtWasSent(s, e.w, r);
    Alone(s, e.w, r);
  }

  lemma {:induction false} HashRun(s: State, es: seq<Event>, r: RequestId)
    requires Placed(s, r) && Hashed(s, r) && ValidRun(s, es) && Undisturbed(s, es, r)
    ensures Placed(After(s, es), r) && Hashed(After(s, es), r)
    ensures r in s.rows && s.rows[r].txHash.Some? ==>
              r in After(s, es).rows && After(s, es).rows[r].txHash == s.rows[r].txHash
    decreases |es|
  {
    if es != [] {
      StepPlaced(s, es[0], r);
      StepHash(s, es[0], r);
      HashRun(Next(s, es[0]), es[1..], r);
    }
  }

  /** A recorded transaction hash never changes in a run in which nothing fails that has to do with the
      request. */
  lemma TxHashIsFixed(workers: nat, a: seq<Event>, b: seq<Event>, r: RequestId)
    requires ValidRun(Init(workers), a) && Undisturbed(Init(workers), a, r)
    requires ValidRun(After(Init(workers), a), b) && Undisturbed(After(Init(workers), a), b, r)
    requires var s := After(Init(workers), a); r in s.rows && s.rows[r].txHash.Some?
    ensures var s := After(Init(workers), a);
            r in After(s, b).rows && After(s, b).rows[r].txHash == s.rows[r].txHash
  {
    InitCourse(workers, r);
    HashRun(Init(workers), a, r);
    HashRun(After(Init(workers), a), b, r);
  }

  // ---- With a crash -------------------------------------------------------------------------

  const SETTLED_STATE: State :=
    State(Lists([], [[Job(0, 0)]], []), [Settled(Job(0, 0))], CONFIRMED, map[0 := Enqueued], STARTED)

  const BACK_LEDGER: Ledger := STARTED.(recovered := multiset{0})

  const DEAD_STATE: State := SETTLED_STATE.(pc := [Down])

  const BACK_STATE: State := State(Lists([Job(0, 0)], [[]], []), [Down], CONFIRMED, map[0 := Enqueued], BACK_LEDGER)

  const READY_STATE: State := BACK_STATE.(pc := [Idle])

  const TAKEN_STATE: State :=
    State(Lists([], [[Job(0, 0)]], []), [Got(Job(0, 0))], CONFIRMED, map[0 := Enqueued], BACK_LEDGER)

  const RERUN_STATE: State :=
    State(Lists([], [[Job(0, 0)]], []), [Running(Job(0, 0))],
          map[0 := Row(TRIED + [Confirmed] + [Broadcasting], Some(7))], map[0 := Enqueued],
          BACK_LEDGER.(started := multiset{0, 0}))

  lemma RerunSteps()
    ensures Enabled(SETTLED_STATE, Crash(0)) && Next(SETTLED_STATE, Crash(0)) == DEAD_STATE
    ensures Enabled(BACK_STATE, Restart(0)) && Next(BACK_STATE, Restart(0)) == READY_STATE
  {
  }

  lemma RerunBegins()
    ensures Enabled(TAKEN_STATE, Begin(0, true)) && Next(TAKEN_STATE, Begin(0, true)) == RERUN_STATE
  {
  }

  lemma RerunMoves()
    ensures Enabled(DEAD_STATE, RecoverOne(0)) && Next(DEAD_STATE, RecoverOne(0)) == BACK_STATE
    ensures Enabled(READY_STATE, Dequeue(0)) && Next(READY_STATE, Dequeue(0)) == TAKEN_STATE
  {
    assert [Job(0, 0)] + [] == [Job(0, 0)] && [Job(0, 0)][..0] == [];
    assert NextLists(DEAD_STATE, RecoverOne(0)) == BACK_STATE.q;
    assert NextLists(READY_STATE, Dequeue(0)) == TAKEN_STATE.q;
  }

  const RERUN_END: seq<Event> := [Dequeue(0)] + ([Begin(0, true)] + [])

  const RERUN_TAIL: seq<Event> := [Crash(0)] + ([RecoverOne(0)] + ([Restart(0)] + RERUN_END))

  lemma ReadyThenRerun()
    ensures ValidRun(READY_STATE, RERUN_END) && After(READY_STATE, RERUN_END) == RERUN_STATE
  {
    RerunBegins();
    RerunMoves();
    StepThen(TAKEN_STATE, Begin(0, true), RERUN_STATE, []);
    StepThen(READY_STATE, Dequeue(0), TAKEN_STATE, [Begin(0, true)] + []);
  }

  lemma SettledThenRerun()
    ensures ValidRun(SETTLED_STATE, RERUN_TAIL) && After(SETTLED_STATE, RERUN_TAIL) == RERUN_STATE
  {
    RerunSteps();
    RerunMoves();
    ReadyThenRerun();
    StepThen(BACK_STATE, Restart(0), READY_STATE, RERUN_END);
    StepThen(DEAD_STATE, RecoverOne(0), BACK_STATE, [Restart(0)] + RERUN_END);
    StepThen(SETTLED_STATE, Crash(0), DEAD_STATE, [RecoverOne(0)] + ([Restart(0)] + RERUN_END));
  }

  const RERUN: seq<Event> :=
    [ApiInsert(0)] + ([ApiEnqueue(0)] + ([Dequeue(0)] + ([Begin(0, true)] + ([Finish(0, Success(7), true)] + RERUN_TAIL))))

  lemma RerunIsRun()
    ensures ValidRun(Init(1), RERUN) && After(Init(1), RERUN) == RERUN_STATE
  {
    SettledThenRerun();
    RunningThenSettled(RERUN_TAIL);
    TakenUp([Finish(0, Success(7), true)] + RERUN_TAIL);
    Submitted([Dequeue(0)] + ([Begin(0, true)] + ([Finish(0, Success(7), true)] + RERUN_TAIL)));
  }

  /** A worker that dies after the final status and before the acknowledgement: its job is recovered and
      executed again, and the confirmed row goes back to `Broadcasting`. */
  lemma CrashReopens()
    ensures ValidRun(Init(1), RERUN) && !Ended(After(Init(1), RERUN), 0)
    ensures 0 in After(Init(1), RERUN).rows
    ensures After(Init(1), RERUN).rows[0].history == [Pending, Pending, Broadcasting, Confirmed, Broadcasting]
  {
    RerunIsRun();
    assert TRIED + [Confirmed] + [Broadcasting] == [Pending, Pending, Broadcasting, Confirmed, Broadcasting];
  }

  const REHASHED_STATE: State :=
    State(RERUN_STATE.q, [Settled(Job(0, 0))],
          map[0 := Row(TRIED + [Confirmed] + [Broadcasting] + [Confirmed], Some(8))], map[0 := Enqueued], RERUN_STATE.led)

  lemma RehashStep()
    ensures var e := Finish(0, Success(8), true); Enabled(RERUN_STATE, e) && Next(RERUN_STATE, e) == REHASHED_STATE
  {
    assert NextRows(RERUN_STATE, Finish(0, Success(8), true)) == REHASHED_STATE.rows;
  }

  /** The second execution replaces the recorded transaction hash by its own. */
  lemma HashReplaced()
    ensures CONFIRMED[0].txHash == Some(7)
    ensures ValidRun(Init(1), RERUN + [Finish(0, Success(8), true)])
    ensures var n := After(Init(1), RERUN + [Finish(0, Success(8), true)]); 0 in n.rows && n.rows[0].txHash == Some(8)
  {
    RehashStep();
    RerunIsRun();
    StepThen(RERUN_STATE, Finish(0, Success(8), true), REHASHED_STATE, []);
    assert [Finish(0, Success(8), true)] + [] == [Finish(0, Success(8), true)];
    RunConcat(Init(1), RERUN, [Finish(0, Success(8), true)]);
  }
}
