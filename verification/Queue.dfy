/**
The Redis job queue: one main list, one processing list per worker, one dead-letter list.

`Lists` is the abstract value of those lists and the functions on it say what a single Redis
command does.  `RedisQueue` holds the lists as mutable state and its methods are the queue
operations of the service, each proved against those functions.
*/
module Queue {
  import opened Wrappers

  type RequestId = nat

  /** Attempts after which a job goes to the dead-letter list. */
  const MAX_JOB_ATTEMPTS: nat := 3

  /** A queued job.  The fields that never change after the API call are fixed by `id`, so the
      payload string of a job is determined by these two fields. */
  datatype Job = Job(id: RequestId, attempt: nat)

  function Bumped(job: Job): Job {
    job.(attempt := job.attempt + 1)
  }

  datatype Lists = Lists(main: seq<Job>, processing: seq<seq<Job>>, dlq: seq<Job>)

  /** LREM with count 1: drop the occurrence nearest the head, if there is one. */
  function RemoveFirst(jobs: seq<Job>, job: Job): seq<Job> {
    if jobs == [] then []
    else if jobs[0] == job then jobs[1..]
    else [jobs[0]] + RemoveFirst(jobs[1..], job)
  }

  /** LPUSH onto the main list. */
  function Pushed(q: Lists, job: Job): Lists {
    q.(main := [job] + q.main)
  }

  /** BLMOVE main RIGHT to processing LEFT. */
  function Moved(q: Lists, w: nat): Lists
    requires q.main != [] && w < |q.processing|
  {
    var n := |q.main| - 1;
    q.(main := q.main[..n], processing := q.processing[w := [q.main[n]] + q.processing[w]])
  }

  /** LREM from a processing list. */
  function Removed(q: Lists, w: nat, job: Job): Lists
    requires w < |q.processing|
  {
    q.(processing := q.processing[w := RemoveFirst(q.processing[w], job)])
  }

  /** LPUSH onto the dead-letter list. */
  function Buried(q: Lists, job: Job): Lists {
    q.(dlq := [job] + q.dlq)
  }

  /** LMOVE processing RIGHT to main LEFT. */
  function RecoveredOne(q: Lists, w: nat): Lists
    requires w < |q.processing| && q.processing[w] != []
  {
    var p := q.processing[w];
    q.(main := [p[|p| - 1]] + q.main, processing := q.processing[w := p[..|p| - 1]])
  }

  /** What draining one processing list should amount to: its jobs stand, in the same order, in
      front of the main list. */
  function RecoveredAll(q: Lists, w: nat): Lists
    requires w < |q.processing|
  {
    q.(main := q.processing[w] + q.main, processing := q.processing[w := []])
  }

  /** The same, stopped after k moves: the last k jobs stand in front of the main list. */
  function RecoveredPart(q: Lists, w: nat, k: nat): Lists
    requires w < |q.processing| && k <= |q.processing[w]|
  {
    var p := q.processing[w];
    q.(main := p[|p| - k..] + q.main, processing := q.processing[w := p[..|p| - k]])
  }

  lemma RecoveredPartEnds(q: Lists, w: nat)
    requires w < |q.processing|
    ensures RecoveredPart(q, w, 0) == q
    ensures RecoveredPart(q, w, |q.processing[w]|) == RecoveredAll(q, w)
  {
    var p := q.processing[w];
    assert p[|p|..] + q.main == q.main && p[..|p|] == p && q.processing[w := p] == q.processing;
    assert p[0..] == p && p[..0] == [];
  }

  /** One more move. */
  lemma RecoveredPartNext(q: Lists, w: nat, k: nat)
    requires w < |q.processing| && k < |q.processing[w]|
    ensures var part := RecoveredPart(q, w, k);
            && part.processing[w] != [] && RecoveredOne(part, w) == RecoveredPart(q, w, k + 1)
            && |RecoveredPart(q, w, k + 1).processing[w]| == |q.processing[w]| - (k + 1)
  {
    var p := q.processing[w];
    var rest := p[..|p| - k];
    assert [rest[|rest| - 1]] + (p[|p| - k..] + q.main) == p[|p| - (k + 1)..] + q.main;
    assert rest[..|rest| - 1] == p[..|p| - (k + 1)];
    assert q.processing[w := rest][w := p[..|p| - (k + 1)]] == q.processing[w := p[..|p| - (k + 1)]];
  }

  /** Does an error after `stop` moves end the draining of a list? */
  predicate Stops(length: nat, stop: Option<nat>) {
    stop.Some? && stop.value <= length
  }

  /** Draining the lists of workers 0, 1, ..., n-1 one after another. */
  function RecoveredUpTo(q: Lists, n: nat): (r: Lists)
    requires n <= |q.processing|
    ensures |r.processing| == |q.processing|
  {
    if n == 0 then q else RecoveredAll(RecoveredUpTo(q, n - 1), n - 1)
  }

  /** Concatenation of the first n processing lists, last worker first. */
  function Stacked(processing: seq<seq<Job>>, n: nat): seq<Job>
    requires n <= |processing|
  {
    if n == 0 then [] else processing[n - 1] + Stacked(processing, n - 1)
  }

  /** Startup recovery puts exactly the jobs of the first n lists in front of the main list and
      leaves every other processing list, and the dead-letter list, alone.  A list whose worker id
      is at or above the configured number of workers is therefore not drained. */
  lemma {:induction false} RecoveredUpToIs(q: Lists, n: nat)
    requires n <= |q.processing|
    ensures var r := RecoveredUpTo(q, n);
            && r.main == Stacked(q.processing, n) + q.main
            && r.dlq == q.dlq
            && |r.processing| == |q.processing|
            && forall w :: 0 <= w < |q.processing| ==>
                 r.processing[w] == if w < n then [] else q.processing[w]
  {
    if n > 0 {
      RecoveredUpToIs(q, n - 1);
      assert q.processing[n - 1] + (Stacked(q.processing, n - 1) + q.main) == Stacked(q.processing, n) + q.main;
    }
  }

  /** How a Redis command fares: carried out, or reported as failed, and then carried out or not. */
  datatype Fate = Fine | Error(applied: bool)

  predicate Applied(fate: Fate) {
    fate.Fine? || fate.applied
  }

  datatype DequeueError = CommandFailed | CorruptPayload

  /** What a dequeue leaves of the lists.  A payload that does not parse is taken out of the processing
      list again and put on the dead-letter list; errors of those two commands are ignored. */
  function Taken(q: Lists, w: nat, legible: bool, take: Fate, remove: Fate, push: Fate): Lists
    requires w < |q.processing|
  {
    if q.main == [] || !Applied(take) then q
    else if take.Fine? && !legible then
      var job, moved := q.main[|q.main| - 1], Moved(q, w);
      var removed := if Applied(remove) then Removed(moved, w, job) else moved;
      if Applied(push) then Buried(removed, job) else removed
    else Moved(q, w)
  }

  class RedisQueue {
    var main: seq<Job>
    var processing: seq<seq<Job>>
    var dlq: seq<Job>

    constructor (workers: nat)
      ensures View() == Lists([], seq(workers, i => []), [])
    {
      main, processing, dlq := [], seq(workers, i => []), [];
    }

    function View(): Lists
      reads this
    {
      Lists(main, processing, dlq)
    }

    method EnqueueJob(job: Job, fate: Fate) returns (ok: bool)
      modifies this
      ensures ok == fate.Fine?
      ensures View() == if Applied(fate) then Pushed(old(View()), job) else old(View())
    {
      if Applied(fate) {
        main := [job] + main;
      }
      return fate.Fine?;
    }

    /** `None` is the timeout with an empty main list. */
    method DequeueJob(w: nat, legible: bool, take: Fate, remove: Fate, push: Fate) returns (r: Result<Option<Job>, DequeueError>)
      requires w < |processing|
      modifies this
      ensures View() == Taken(old(View()), w, legible, take, remove, push)
      ensures r == if !take.Fine? then Err(CommandFailed)
                   else if old(main) == [] then Ok(None)
                   else if legible then Ok(Some(old(main)[|old(main)| - 1]))
                   else Err(CorruptPayload)
    {
      if main == [] || !Applied(take) {
        return if take.Fine? then Ok(None) else Err(CommandFailed);
      }
      var tail := main[|main| - 1];
      main := main[..|main| - 1];
      processing := processing[w := [tail] + processing[w]];
      if !take.Fine? {
        return Err(CommandFailed);
      }
      if !legible {
        var _, _ := AckJob(tail, w, remove);
        var _ := PushToDlq(tail, push);
        return Err(CorruptPayload);
      }
      return Ok(Some(tail));
    }

    /** `removed` is the LREM count; 0 draws a warning and nothing else. */
    method AckJob(job: Job, w: nat, fate: Fate) returns (ok: bool, removed: nat)
      requires w < |processing|
      modifies this
      ensures ok == fate.Fine?
      ensures View() == if Applied(fate) then Removed(old(View()), w, job) else old(View())
      ensures removed == if Applied(fate) && job in old(processing)[w] then 1 else 0
    {
      ok, removed := fate.Fine?, 0;
      if Applied(fate) {
        removed := if job in processing[w] then 1 else 0;
        processing := processing[w := RemoveFirst(processing[w], job)];
      }
    }

    /** An error of the removal ends the move. */
    method MoveToDlq(job: Job, w: nat, remove: Fate, push: Fate) returns (ok: bool)
      requires w < |processing|
      modifies this
      ensures ok == (remove.Fine? && push.Fine?)
      ensures var removed := if Applied(remove) then Removed(old(View()), w, job) else old(View());
              View() == if remove.Fine? && Applied(push) then Buried(removed, job) else removed
    {
      var found, _ := AckJob(job, w, remove);
      if !found {
        return false;
      }
      ok := PushToDlq(job, push);
    }

    method PushToDlq(job: Job, fate: Fate) returns (ok: bool)
      modifies this
      ensures ok == fate.Fine?
      ensures View() == if Applied(fate) then Buried(old(View()), job) else old(View())
    {
      if Applied(fate) {
        dlq := [job] + dlq;
      }
      return fate.Fine?;
    }

    /** LMOVE processing RIGHT to main LEFT. */
    method MoveBack(w: nat)
      requires w < |processing| && processing[w] != []
      modifies this
      ensures View() == RecoveredOne(old(View()), w)
    {
      var p := processing[w];
      main := [p[|p| - 1]] + main;
      processing := processing[w := p[..|p| - 1]];
    }

    /** `None` is an error, reported after `stop` moves that were carried out. */
    method RecoverStaleJobs(w: nat, stop: Option<nat>) returns (recovered: Option<nat>)
      requires w < |processing|
      modifies this
      ensures var length := |old(processing)[w]|;
              if Stops(length, stop) then recovered == None && View() == RecoveredPart(old(View()), w, stop.value)
              else recovered == Some(length) && View() == RecoveredAll(old(View()), w)
    {
      ghost var q, length := View(), |processing[w]|;
      RecoveredPartEnds(q, w);
      var moves := 0;
      while processing[w] != [] && stop != Some(moves)
        invariant w < |processing| && moves + |processing[w]| == length
        invariant View() == RecoveredPart(q, w, moves)
        invariant stop.None? || moves <= stop.value
        decreases |processing[w]|
      {
        RecoveredPartNext(q, w, moves);
        MoveBack(w);
        moves := moves + 1;
      }
      return if stop == Some(moves) then None else Some(moves);
    }

    /** The startup loop over the configured worker ids.  The first error ends it. */
    method RecoverAtStartup(workers: nat, stops: seq<Option<nat>>) returns (recovered: Option<nat>)
      requires workers <= |processing| && |stops| == workers
      modifies this
      ensures recovered.Some? <==> forall w :: 0 <= w < workers ==> !Stops(|old(processing)[w]|, stops[w])
      ensures recovered.Some? ==>
                recovered.value == |Stacked(old(processing), workers)| && View() == RecoveredUpTo(old(View()), workers)
      ensures recovered.None? ==>
                exists w :: 0 <= w < workers && StoppedAt(old(View()), w, stops, View())
    {
      var total := 0;
      for w := 0 to workers
        invariant |processing| == |old(processing)|
        invariant View() == RecoveredUpTo(old(View()), w)
        invariant total == |Stacked(old(processing), w)|
        invariant forall v :: 0 <= v < w ==> !Stops(|old(processing)[v]|, stops[v])
      {
        RecoveredUpToIs(old(View()), w);
        var n := RecoverStaleJobs(w, stops[w]);
        if n.None? {
          assert StoppedAt(old(View()), w, stops, View());
          return None;
        }
        total := total + n.value;
      }
      return Some(total);
    }
  }

  /** The lists of workers before w are drained, and w's as far as the error allows. */
  predicate StoppedAt(q: Lists, w: nat, stops: seq<Option<nat>>, end: Lists) {
    && w < |q.processing| && w < |stops|
    && (forall v :: 0 <= v < w ==> !Stops(|q.processing[v]|, stops[v]))
    && Stops(|q.processing[w]|, stops[w])
    && RecoveredUpTo(q, w).processing[w] == q.processing[w]
    && end == RecoveredPart(RecoveredUpTo(q, w), w, stops[w].value)
  }
}
