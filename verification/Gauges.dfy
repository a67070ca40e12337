/**
Weighted counts over everything a pipeline state holds, and what one step does to them.

A gauge gives a weight to each listed job, depending on the list it is in, and to each worker,
depending on where it stands.  Its total over a state moves by a small explicit amount in each step
(`StepTotal`), so an accounting law about all runs becomes arithmetic on one step.
*/
module Gauges {
  import opened Wrappers
  import opened Queue
  import opened Pipeline

  datatype Place = OnMain | OnProcessing | OnDlq

  datatype Gauge =
    | Copies  // how many copies of a job exist
    | Budget  // how many more executions the existing copies can still start
    | Work    // how many more worker steps they can still take

  /** All requests, or one. */
  type Scope = Option<RequestId>

  predicate InScope(scope: Scope, r: RequestId) {
    scope.None? || scope.value == r
  }

  function JobWeight(g: Gauge, place: Place, job: Job): int {
    match (g, place)
    case (Copies, _) => 1
    case (_, OnDlq) => 0
    case (Budget, OnMain) => MAX_JOB_ATTEMPTS - job.attempt
    case (Budget, OnProcessing) => MAX_JOB_ATTEMPTS - 1 - job.attempt
    case (Work, _) => 6 * (MAX_JOB_ATTEMPTS - job.attempt)
  }

  function PcWeight(g: Gauge, pc: Pc): int {
    match (g, pc)
    case (Copies, Held(_, _)) => 1
    case (Budget, Got(_)) => 1
    case (Budget, Held(job, _)) => MAX_JOB_ATTEMPTS - job.attempt
    case (Work, Got(_)) => -1
    case (Work, Running(_)) => -2
    case (Work, Settled(_)) => -3
    case (Work, Retrying(_)) => -3
    case (Work, Held(job, _)) => 6 * (MAX_JOB_ATTEMPTS - job.attempt) + 2
    case (Work, Exhausted(_)) => 1
    case _ => 0
  }

  /** The weight of a listed job as far as the scope is concerned. */
  function Value(g: Gauge, scope: Scope, place: Place, job: Job): int {
    if InScope(scope, job.id) then JobWeight(g, place, job) else 0
  }

  /** The weight of a worker as far as the scope is concerned. */
  function PcValue(g: Gauge, scope: Scope, pc: Pc): int {
    if !pc.Down? && !pc.Idle? && InScope(scope, pc.job.id) then PcWeight(g, pc) else 0
  }

  function Sum(g: Gauge, scope: Scope, place: Place, jobs: seq<Job>): int {
    if jobs == [] then 0 else Value(g, scope, place, jobs[0]) + Sum(g, scope, place, jobs[1..])
  }

  function SumLists(g: Gauge, scope: Scope, lists: seq<seq<Job>>): int {
    if lists == [] then 0 else Sum(g, scope, OnProcessing, lists[0]) + SumLists(g, scope, lists[1..])
  }

  function SumPcs(g: Gauge, scope: Scope, pcs: seq<Pc>): int {
    if pcs == [] then 0 else PcValue(g, scope, pcs[0]) + SumPcs(g, scope, pcs[1..])
  }

  function Total(g: Gauge, scope: Scope, s: State): int {
    Sum(g, scope, OnMain, s.q.main) + SumLists(g, scope, s.q.processing)
    + Sum(g, scope, OnDlq, s.q.dlq) + SumPcs(g, scope, s.pc)
  }

  lemma SumCons(g: Gauge, scope: Scope, place: Place, job: Job, jobs: seq<Job>)
    ensures Sum(g, scope, place, [job] + jobs) == Value(g, scope, place, job) + Sum(g, scope, place, jobs)
  {
    assert ([job] + jobs)[1..] == jobs;
  }

  lemma {:induction false} SumSnoc(g: Gauge, scope: Scope, place: Place, jobs: seq<Job>)
    requires jobs != []
    ensures var n := |jobs| - 1;
            Sum(g, scope, place, jobs) == Sum(g, scope, place, jobs[..n]) + Value(g, scope, place, jobs[n])
  {
    var n := |jobs| - 1;
    if n > 0 {
      SumSnoc(g, scope, place, jobs[1..]);
      assert jobs[..n][1..] == jobs[1..][..n - 1];
    }
  }

  lemma {:induction false} SumRemove(g: Gauge, scope: Scope, place: Place, jobs: seq<Job>, job: Job)
    requires job in jobs
    ensures Sum(g, scope, place, RemoveFirst(jobs, job)) ==
            Sum(g, scope, place, jobs) - Value(g, scope, place, job)
  {
    if jobs[0] != job {
      SumRemove(g, scope, place, jobs[1..], job);
      SumCons(g, scope, place, jobs[0], RemoveFirst(jobs[1..], job));
    }
  }

  lemma {:induction false} SumListsUpdate(g: Gauge, scope: Scope, lists: seq<seq<Job>>, w: nat, list: seq<Job>)
    requires w < |lists|
    ensures SumLists(g, scope, lists[w := list]) ==
            SumLists(g, scope, lists) - Sum(g, scope, OnProcessing, lists[w]) + Sum(g, scope, OnProcessing, list)
  {
    if w == 0 {
      assert lists[w := list][1..] == lists[1..];
    } else {
      assert lists[w := list][1..] == lists[1..][w - 1 := list];
      SumListsUpdate(g, scope, lists[1..], w - 1, list);
    }
  }

  lemma {:induction false} SumPcsUpdate(g: Gauge, scope: Scope, pcs: seq<Pc>, w: nat, pc: Pc)
    requires w < |pcs|
    ensures SumPcs(g, scope, pcs[w := pc]) ==
            SumPcs(g, scope, pcs) - PcValue(g, scope, pcs[w]) + PcValue(g, scope, pc)
  {
    if w == 0 {
      assert pcs[w := pc][1..] == pcs[1..];
    } else {
      assert pcs[w := pc][1..] == pcs[1..][w - 1 := pc];
      SumPcsUpdate(g, scope, pcs[1..], w - 1, pc);
    }
  }

  /** The job a step moves, and how its weight in the lists changes. */
  function ListDelta(g: Gauge, scope: Scope, s: State, e: Event): int
    requires Enabled(s, e)
  {
    if e.ApiEnqueue? || (e.ApiEnqueueError? && e.applied) then
      Value(g, scope, OnMain, Job(e.r, 0))
    else if e.Dequeue? || (e.DequeueError? && e.applied) then
      var j := s.q.main[|s.q.main| - 1];
      Value(g, scope, OnProcessing, j) - Value(g, scope, OnMain, j)
    else if e.Remove? || (e.RemoveError? && e.applied) then
      -Value(g, scope, OnProcessing, s.pc[e.w].job)
    else if e.Push? || (e.PushError? && e.applied) then
      var pc := s.pc[e.w];
      Value(g, scope, if pc.poison || pc.job.attempt >= MAX_JOB_ATTEMPTS then OnDlq else OnMain, pc.job)
    else if e.RecoverOne? then
      var p := s.q.processing[e.w];
      Value(g, scope, OnMain, p[|p| - 1]) - Value(g, scope, OnProcessing, p[|p| - 1])
    else 0
  }

  function PcDelta(g: Gauge, scope: Scope, s: State, e: Event): int
    requires Enabled(s, e)
  {
    if IsApi(e) then 0
    else PcValue(g, scope, NextPc(s, e)) - PcValue(g, scope, s.pc[e.w])
  }

  function SumQueue(g: Gauge, scope: Scope, q: Lists): int {
    Sum(g, scope, OnMain, q.main) + SumLists(g, scope, q.processing) + Sum(g, scope, OnDlq, q.dlq)
  }

  lemma MovedSum(g: Gauge, scope: Scope, q: Lists, w: nat)
    requires q.main != [] && w < |q.processing|
    ensures var j := q.main[|q.main| - 1];
            SumQueue(g, scope, Moved(q, w)) ==
            SumQueue(g, scope, q) + Value(g, scope, OnProcessing, j) - Value(g, scope, OnMain, j)
  {
    var j := q.main[|q.main| - 1];
    SumSnoc(g, scope, OnMain, q.main);
    SumCons(g, scope, OnProcessing, j, q.processing[w]);
    SumListsUpdate(g, scope, q.processing, w, [j] + q.processing[w]);
  }

  lemma RemovedSum(g: Gauge, scope: Scope, q: Lists, w: nat, job: Job)
    requires w < |q.processing| && job in q.processing[w]
    ensures SumQueue(g, scope, Removed(q, w, job)) == SumQueue(g, scope, q) - Value(g, scope, OnProcessing, job)
  {
    SumRemove(g, scope, OnProcessing, q.processing[w], job);
    SumListsUpdate(g, scope, q.processing, w, RemoveFirst(q.processing[w], job));
  }

  lemma RecoveredOneSum(g: Gauge, scope: Scope, q: Lists, w: nat)
    requires w < |q.processing| && q.processing[w] != []
    ensures var j := q.processing[w][|q.processing[w]| - 1];
            SumQueue(g, scope, RecoveredOne(q, w)) ==
            SumQueue(g, scope, q) + Value(g, scope, OnMain, j) - Value(g, scope, OnProcessing, j)
  {
    var p := q.processing[w];
    SumSnoc(g, scope, OnProcessing, p);
    SumCons(g, scope, OnMain, p[|p| - 1], q.main);
    SumListsUpdate(g, scope, q.processing, w, p[..|p| - 1]);
  }

  predicate QueueSumOk(g: Gauge, scope: Scope, s: State, e: Event)
    requires Enabled(s, e)
  {
    SumQueue(g, scope, NextLists(s, e)) == SumQueue(g, scope, s.q) + ListDelta(g, scope, s, e)
  }

  lemma ApiQueueSum(g: Gauge, scope: Scope, s: State, e: Event)
    requires Enabled(s, e) && IsApi(e)
    ensures QueueSumOk(g, scope, s, e)
  {
    SumCons(g, scope, OnMain, Job(e.r, 0), s.q.main);
  }

  lemma DequeueQueueSum(g: Gauge, scope: Scope, s: State, e: Event)
    requires Enabled(s, e) && (e.Dequeue? || (e.DequeueError? && e.applied))
    ensures QueueSumOk(g, scope, s, e)
  {
    MovedSum(g, scope, s.q, e.w);
  }

  lemma RemoveQueueSum(g: Gauge, scope: Scope, s: State, e: Event)
    requires Inv(s) && Enabled(s, e) && (e.Remove? || (e.RemoveError? && e.applied))
    ensures QueueSumOk(g, scope, s, e)
  {
    assert WorkerOk(s.q.processing[e.w], s.pc[e.w]);
    RemovedSum(g, scope, s.q, e.w, s.pc[e.w].job);
  }

  lemma PushQueueSum(g: Gauge, scope: Scope, s: State, e: Event)
    requires Enabled(s, e) && (e.Push? || e.PushError?)
    ensures QueueSumOk(g, scope, s, e)
  {
    SumCons(g, scope, OnMain, s.pc[e.w].job, s.q.main);
    SumCons(g, scope, OnDlq, s.pc[e.w].job, s.q.dlq);
  }

  lemma RecoverQueueSum(g: Gauge, scope: Scope, s: State, e: Event)
    requires Enabled(s, e) && e.RecoverOne?
    ensures QueueSumOk(g, scope, s, e)
  {
    RecoveredOneSum(g, scope, s.q, e.w);
  }

  /** What one step does to the lists, in weights. */
  lemma StepQueueSum(g: Gauge, scope: Scope, s: State, e: Event)
    requires Inv(s) && Enabled(s, e)
    ensures QueueSumOk(g, scope, s, e)
  {
    if IsApi(e) {
      ApiQueueSum(g, scope, s, e);
    } else if e.Dequeue? || (e.DequeueError? && e.applied) {
      DequeueQueueSum(g, scope, s, e);
    } else if e.Remove? || (e.RemoveError? && e.applied) {
      RemoveQueueSum(g, scope, s, e);
    } else if e.Push? || e.PushError? {
      PushQueueSum(g, scope, s, e);
    } else if e.RecoverOne? {
      RecoverQueueSum(g, scope, s, e);
    }
  }

  /** What one step does to a gauge. */
  lemma StepTotal(g: Gauge, scope: Scope, s: State, e: Event)
    requires Inv(s) && Enabled(s, e)
    ensures Total(g, scope, Next(s, e)) == Total(g, scope, s) + ListDelta(g, scope, s, e) + PcDelta(g, scope, s, e)
  {
    StepQueueSum(g, scope, s, e);
    TotalOf(g, scope, s);
    TotalOf(g, scope, Next(s, e));
    StepPcSum(g, scope, s, e);
  }

  lemma TotalOf(g: Gauge, scope: Scope, s: State)
    ensures Total(g, scope, s) == SumQueue(g, scope, s.q) + SumPcs(g, scope, s.pc)
  {
  }

  lemma StepPcSum(g: Gauge, scope: Scope, s: State, e: Event)
    requires Enabled(s, e)
    ensures SumPcs(g, scope, NextPcs(s, e)) == SumPcs(g, scope, s.pc) + PcDelta(g, scope, s, e)
  {
    if !IsApi(e) {
      SumPcsUpdate(g, scope, s.pc, e.w, NextPc(s, e));
    }
  }

  // ---- Positive weights -------------------------------------------------------------------

  lemma {:induction false} SumAtLeast(g: Gauge, scope: Scope, place: Place, jobs: seq<Job>)
    requires forall j :: j in jobs ==> Value(g, scope, place, j) >= 0
    ensures Sum(g, scope, place, jobs) >= 0
    ensures forall j :: j in jobs ==> Sum(g, scope, place, jobs) >= Value(g, scope, place, j)
  {
    if jobs != [] {
      SumAtLeast(g, scope, place, jobs[1..]);
      forall j | j in jobs ensures Sum(g, scope, place, jobs) >= Value(g, scope, place, j) {
        assert j == jobs[0] || j in jobs[1..];
      }
    }
  }

  /** No copies in a list means no job of the request in it, and the other way round. */
  lemma NoCopies(r: RequestId, place: Place, jobs: seq<Job>)
    ensures Sum(Copies, Some(r), place, jobs) >= 0
    ensures Sum(Copies, Some(r), place, jobs) == 0 <==> forall j :: j in jobs ==> j.id != r
  {
    SumAtLeast(Copies, Some(r), place, jobs);
    if forall j :: j in jobs ==> j.id != r {
      AllZero(Copies, Some(r), place, jobs);
    }
  }

  lemma {:induction false} AllZero(g: Gauge, scope: Scope, place: Place, jobs: seq<Job>)
    requires forall j :: j in jobs ==> Value(g, scope, place, j) == 0
    ensures Sum(g, scope, place, jobs) == 0
  {
    if jobs != [] {
      AllZero(g, scope, place, jobs[1..]);
    }
  }

  /** The workers and their lists, weighed pairwise. */
  lemma {:induction false} PairsAtLeast(g: Gauge, scope: Scope, lists: seq<seq<Job>>, pcs: seq<Pc>)
    requires |lists| == |pcs|
    requires forall w :: 0 <= w < |pcs| ==> Sum(g, scope, OnProcessing, lists[w]) + PcValue(g, scope, pcs[w]) >= 0
    ensures SumLists(g, scope, lists) + SumPcs(g, scope, pcs) >= 0
    ensures forall w :: 0 <= w < |pcs| ==>
              SumLists(g, scope, lists) + SumPcs(g, scope, pcs) >=
              Sum(g, scope, OnProcessing, lists[w]) + PcValue(g, scope, pcs[w])
  {
    if pcs != [] {
      forall w | 0 <= w < |pcs| - 1
        ensures Sum(g, scope, OnProcessing, lists[1..][w]) + PcValue(g, scope, pcs[1..][w]) >= 0
      {
        assert lists[1..][w] == lists[w + 1] && pcs[1..][w] == pcs[w + 1];
      }
      PairsAtLeast(g, scope, lists[1..], pcs[1..]);
      forall w | 0 <= w < |pcs|
        ensures SumLists(g, scope, lists) + SumPcs(g, scope, pcs) >=
                Sum(g, scope, OnProcessing, lists[w]) + PcValue(g, scope, pcs[w])
      {
        if w > 0 {
          assert lists[1..][w - 1] == lists[w] && pcs[1..][w - 1] == pcs[w];
        }
      }
    }
  }

  lemma WorkerNonNegative(g: Gauge, scope: Scope, list: seq<Job>, pc: Pc)
    requires WorkerOk(list, pc)
    ensures Sum(g, scope, OnProcessing, list) + PcValue(g, scope, pc) >= 0
  {
    SumAtLeast(g, scope, OnProcessing, list);
  }

  /** In a state that satisfies the invariant every gauge is a natural number. */
  lemma TotalNonNegative(g: Gauge, scope: Scope, s: State)
    requires Inv(s)
    ensures Total(g, scope, s) >= 0
    ensures Total(g, scope, s) >= Sum(g, scope, OnMain, s.q.main) >= 0
  {
    SumAtLeast(g, scope, OnMain, s.q.main);
    SumAtLeast(g, scope, OnDlq, s.q.dlq);
    forall w | 0 <= w < |s.pc|
      ensures Sum(g, scope, OnProcessing, s.q.processing[w]) + PcValue(g, scope, s.pc[w]) >= 0
    {
      assert WorkerOk(s.q.processing[w], s.pc[w]);
      WorkerNonNegative(g, scope, s.q.processing[w], s.pc[w]);
    }
    PairsAtLeast(g, scope, s.q.processing, s.pc);
  }
}
