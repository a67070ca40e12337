/**
The API call and the worker loop as they run: objects for the Redis lists and the status table,
updated command by command.  Each operation is proved to leave the lists and the rows in a stated
state, and each is shown to be a run of the pipeline machine, so the laws about runs apply to it.
*/
module Service {
  import opened Wrappers
  import opened Queue
  import opened Pipeline
  import opened Delivery
  import opened Lifecycle

  class Database {
    var rows: Table

    constructor ()
      ensures rows == map[]
    {
      rows := map[];
    }

    method InsertExecutionRequest(id: RequestId, status: Status)
      requires id !in rows
      modifies this
      ensures rows == old(rows)[id := Row([status], None)]
    {
      rows := rows[id := Row([status], None)];
    }

    /** Overwrites the status; keeps the recorded hash unless a new one is given. */
    method UpdateExecutionStatus(id: RequestId, status: Status, txHash: Option<TxHash>, fine: bool) returns (ok: bool)
      modifies this
      ensures ok == fine
      ensures rows == Try(fine, old(rows), id, status, txHash)
    {
      ok := fine;
      if fine && id in rows {
        var row := rows[id];
        rows := rows[id := Row(row.history + [status], if txHash.Some? then txHash else row.txHash)];
      }
    }
  }

  // ---- The API call ---------------------------------------------------------------------------

  datatype Simulation = Passes | Rejects | Breaks

  /** How the statements of one API call fare; `insert`, `reject`, `estimate` and `queued` are status
      writes, carried out or not. */
  datatype CallFaults = CallFaults(insert: bool, reject: bool, estimate: bool, push: Fate, queued: bool)

  datatype CallError = DatabaseError | SimulationError | RedisError

  /** Does the call push a job? */
  predicate Sends(simulation: Simulation, f: CallFaults) {
    f.insert && simulation.Passes? && f.estimate && Applied(f.push)
  }

  /** The statuses the call writes to its row. */
  function CallStatuses(simulation: Simulation, f: CallFaults): seq<Status> {
    match simulation
    case Breaks => [Pending]
    case Rejects => if f.reject then [Pending, Failed] else [Pending]
    case Passes =>
      if !f.estimate then [Pending]
      else if f.push.Fine? && f.queued then [Pending, Pending, Queued]
      else [Pending, Pending]
  }

  /** The enqueueing half of `handle_execute`: insert, simulate, push, mark as queued.  The call can report
      an error although a job was pushed. */
  method HandleExecute(redis: RedisQueue, db: Database, id: RequestId, simulation: Simulation, f: CallFaults)
    returns (r: Result<Status, CallError>)
    requires id !in db.rows
    modifies redis, db
    ensures r.Ok? <==>
            f.insert && match simulation
                        case Breaks => false
                        case Rejects => f.reject
                        case Passes => f.estimate && f.push.Fine? && f.queued
    ensures r.Ok? ==> r.value == if simulation.Passes? then Queued else Failed
    ensures redis.View() == if Sends(simulation, f) then Pushed(old(redis.View()), Job(id, 0)) else old(redis.View())
    ensures db.rows == if f.insert then old(db.rows)[id := Row(CallStatuses(simulation, f), None)] else old(db.rows)
  {
    assert [Pending] + [Failed] == [Pending, Failed] && [Pending] + [Pending] == [Pending, Pending];
    assert [Pending, Pending] + [Queued] == [Pending, Pending, Queued];
    if !f.insert {
      return Err(DatabaseError);
    }
    db.InsertExecutionRequest(id, Pending);
    match simulation {
      case Breaks =>
        return Err(SimulationError);
      case Rejects =>
        var ok := db.UpdateExecutionStatus(id, Failed, None, f.reject);
        return if ok then Ok(Failed) else Err(DatabaseError);
      case Passes =>
        var ok := db.UpdateExecutionStatus(id, Pending, None, f.estimate);
        if !ok {
          return Err(DatabaseError);
        }
        ok := redis.EnqueueJob(Job(id, 0), f.push);
        if !ok {
          return Err(RedisError);
        }
        ok := db.UpdateExecutionStatus(id, Queued, None, f.queued);
        return if ok then Ok(Queued) else Err(DatabaseError);
    }
  }

  // ---- The worker -----------------------------------------------------------------------------

  /** How the statements of one pass fare. `begin`, `finish` and `close` are status writes, carried out or
      not; `legible` says whether the payload parses. */
  datatype Faults = Faults(legible: bool, take: Fate, begin: bool, finish: bool, remove: Fate, push: Fate, close: bool)

  const NO_FAULTS: Faults := Faults(true, Fine, true, true, Fine, Fine, true)

  /** The main list without the job a worker takes next. */
  function Rest(q: Lists): seq<Job>
    requires q.main != []
  {
    q.main[..|q.main| - 1]
  }

  /** The lists after the job was taken and, if that command was carried out, removed. */
  function RoundRemoved(q: Lists, w: nat, remove: Fate): Lists
    requires q.main != [] && w < |q.processing|
  {
    if Applied(remove) then Lists(Rest(q), q.processing, q.dlq) else Moved(q, w)
  }

  /** Where the job of one whole pass ends up. */
  function RoundLists(q: Lists, w: nat, outcome: Outcome, f: Faults): Lists
    requires q.main != [] && w < |q.processing|
  {
    var job, removed := Tail(q.main), RoundRemoved(q, w, f.remove);
    if !f.take.Fine? then (if f.take.applied then Moved(q, w) else q)
    else if !f.legible then (if Applied(f.push) then Buried(removed, job) else removed)
    else if job.attempt >= MAX_JOB_ATTEMPTS then
      (if f.remove.Fine? && Applied(f.push) then Buried(removed, job) else removed)
    else if !outcome.Transient? || !Applied(f.push) then removed
    else if job.attempt + 1 >= MAX_JOB_ATTEMPTS then Buried(removed, Bumped(job))
    else Pushed(removed, Bumped(job))
  }

  /** Without faults no processing list changes, and the job is acknowledged, retried or buried. */
  lemma FaultlessRound(q: Lists, w: nat, outcome: Outcome)
    requires q.main != [] && w < |q.processing|
    ensures var job := Tail(q.main);
            var exhausted := job.attempt >= MAX_JOB_ATTEMPTS;
            var buried := exhausted || (outcome.Transient? && job.attempt + 1 >= MAX_JOB_ATTEMPTS);
            var end := if exhausted then job else Bumped(job);
            RoundLists(q, w, outcome, NO_FAULTS) ==
            Lists(if outcome.Transient? && !buried then [end] + Rest(q) else Rest(q),
                  q.processing,
                  if buried then [end] + q.dlq else q.dlq)
  {
  }

  /** The statuses one whole pass appends to the job's row. */
  function RoundStatuses(job: Job, outcome: Outcome, f: Faults): seq<Status> {
    if job.attempt >= MAX_JOB_ATTEMPTS then StatusIf(f.begin, Failed)
    else
      StatusIf(f.begin, Broadcasting) +
      match outcome
      case Success(_) => StatusIf(f.finish, Confirmed)
      case OnChainRevert(_) => StatusIf(f.finish, Reverted)
      case Transient => if job.attempt + 1 >= MAX_JOB_ATTEMPTS then StatusIf(f.close, Failed) else []
  }

  function StatusIf(ok: bool, status: Status): seq<Status> {
    if ok then [status] else []
  }

  function OutcomeTx(outcome: Outcome): Option<TxHash> {
    match outcome
    case Success(tx) => Some(tx)
    case OnChainRevert(tx) => tx
    case Transient => None
  }

  function RoundTx(job: Job, outcome: Outcome, f: Faults): Option<TxHash> {
    if job.attempt >= MAX_JOB_ATTEMPTS || !f.finish then None else OutcomeTx(outcome)
  }

  function RoundRows(rows: Table, job: Job, outcome: Outcome, f: Faults): Table {
    if !f.take.Fine? || !f.legible then rows
    else Extended(rows, job.id, RoundStatuses(job, outcome, f), RoundTx(job, outcome, f))
  }

  /** Several statuses appended to a row, and a hash recorded if there is one. */
  function Extended(rows: Table, id: RequestId, statuses: seq<Status>, txHash: Option<TxHash>): Table {
    if id !in rows then rows
    else rows[id := Row(rows[id].history + statuses, if txHash.Some? then txHash else rows[id].txHash)]
  }

  lemma OneWrite(rows: Table, id: RequestId, ok: bool, a: Status, txHash: Option<TxHash>)
    ensures Try(ok, rows, id, a, txHash) == Extended(rows, id, StatusIf(ok, a), if ok then txHash else None)
  {
    if id in rows && !ok {
      assert rows[id].history + [] == rows[id].history && rows[id := rows[id]] == rows;
    }
  }

  lemma ExtendedTwice(rows: Table, id: RequestId, a: seq<Status>, b: seq<Status>, txHash: Option<TxHash>)
    ensures Extended(Extended(rows, id, a, None), id, b, txHash) == Extended(rows, id, a + b, txHash)
  {
    if id in rows {
      assert rows[id].history + a + b == rows[id].history + (a + b);
    }
  }

  /** The rows of a pass, write by write. */
  lemma RowsOfRound(rows: Table, job: Job, outcome: Outcome, f: Faults)
    requires f.take.Fine? && f.legible
    ensures RoundRows(rows, job, outcome, f) ==
            if job.attempt >= MAX_JOB_ATTEMPTS then Try(f.begin, rows, job.id, Failed, None)
            else
              var first := Try(f.begin, rows, job.id, Broadcasting, None);
              match outcome
              case Success(tx) => Try(f.finish, first, job.id, Confirmed, Some(tx))
              case OnChainRevert(tx) => Try(f.finish, first, job.id, Reverted, tx)
              case Transient => if job.attempt + 1 >= MAX_JOB_ATTEMPTS then Try(f.close, first, job.id, Failed, None) else first
  {
    if job.attempt >= MAX_JOB_ATTEMPTS {
      OneWrite(rows, job.id, f.begin, Failed, None);
    } else {
      var first := Try(f.begin, rows, job.id, Broadcasting, None);
      var a := StatusIf(f.begin, Broadcasting);
      OneWrite(rows, job.id, f.begin, Broadcasting, None);
      match outcome {
        case Success(tx) =>
          OneWrite(first, job.id, f.finish, Confirmed, Some(tx));
          ExtendedTwice(rows, job.id, a, StatusIf(f.finish, Confirmed), if f.finish then Some(tx) else None);
        case OnChainRevert(tx) =>
          OneWrite(first, job.id, f.finish, Reverted, tx);
          ExtendedTwice(rows, job.id, a, StatusIf(f.finish, Reverted), if f.finish then tx else None);
        case Transient =>
          OneWrite(first, job.id, f.close, Failed, None);
          ExtendedTwice(rows, job.id, a, StatusIf(f.close, Failed), None);
          assert a + [] == a;
      }
    }
  }

  class Worker {
    const id: nat
    const redis: RedisQueue
    const db: Database

    constructor (id: nat, redis: RedisQueue, db: Database)
      ensures this.id == id && this.redis == redis && this.db == db
    {
      this.id, this.redis, this.db := id, redis, db;
    }

    /** Remove the job from the processing list and push it again, or bury it.  Every error is only logged. */
    method ReEnqueueWithBump(job: Job, f: Faults)
      requires id < |redis.processing|
      modifies redis, db
      ensures var q := if Applied(f.remove) then Removed(old(redis.View()), id, job) else old(redis.View());
              if job.attempt + 1 >= MAX_JOB_ATTEMPTS then
                && redis.View() == (if Applied(f.push) then Buried(q, Bumped(job)) else q)
                && db.rows == Try(f.close, old(db.rows), job.id, Failed, None)
              else
                && redis.View() == (if Applied(f.push) then Pushed(q, Bumped(job)) else q)
                && db.rows == old(db.rows)
    {
      var _, _ := redis.AckJob(job, id, f.remove);
      var bumped := Bumped(job);
      if bumped.attempt >= MAX_JOB_ATTEMPTS {
        var _ := redis.PushToDlq(bumped, f.push);
        var _ := db.UpdateExecutionStatus(job.id, Failed, None, f.close);
        return;
      }
      var _ := redis.EnqueueJob(bumped, f.push);
    }

    /** One pass through the worker loop, with `outcome` what the execution would report. */
    method RunOnce(outcome: Outcome, f: Faults)
      requires id < |redis.processing|
      modifies redis, db
      ensures old(redis.main) == [] ==> redis.View() == old(redis.View()) && db.rows == old(db.rows)
      ensures old(redis.main) != [] ==>
        && redis.View() == RoundLists(old(redis.View()), id, outcome, f)
        && db.rows == RoundRows(old(db.rows), Tail(old(redis.main)), outcome, f)
    {
      ghost var q, rows := redis.View(), db.rows;
      if redis.main != [] {
        RemovedMoved(q, id);
      }
      var dequeued := redis.DequeueJob(id, f.legible, f.take, f.remove, f.push);
      if dequeued.Err? || dequeued.value.None? {
        return;
      }
      var job := dequeued.value.value;
      RowsOfRound(rows, job, outcome, f);
      if job.attempt >= MAX_JOB_ATTEMPTS {
        var _ := db.UpdateExecutionStatus(job.id, Failed, None, f.begin);
        var _ := redis.MoveToDlq(job, id, f.remove, f.push);
        return;
      }
      var _ := db.UpdateExecutionStatus(job.id, Broadcasting, None, f.begin);
      match outcome {
        case Success(tx) =>
          var _ := db.UpdateExecutionStatus(job.id, Confirmed, Some(tx), f.finish);
          var _, _ := redis.AckJob(job, id, f.remove);
        case OnChainRevert(tx) =>
          var _ := db.UpdateExecutionStatus(job.id, Reverted, tx, f.finish);
          var _, _ := redis.AckJob(job, id, f.remove);
        case Transient =>
          ReEnqueueWithBump(job, f);
      }
    }

    /** What the supervisor does after the worker died.  An error is only logged. */
    method Recover(stop: Option<nat>)
      requires id < |redis.processing|
      modifies redis
      ensures var length := |old(redis.processing)[id]|;
              redis.View() == if Stops(length, stop) then RecoveredPart(old(redis.View()), id, stop.value)
                              else RecoveredAll(old(redis.View()), id)
    {
      var _ := redis.RecoverStaleJobs(id, stop);
    }
  }

  // ---- The same operations as runs of the machine ---------------------------------------------

  function RemoveEvent(w: nat, fate: Fate): Event {
    if fate.Fine? then Remove(w) else RemoveError(w, fate.applied)
  }

  function PushEvent(w: nat, fate: Fate): Event {
    if fate.Fine? then Push(w) else PushError(w, fate.applied)
  }

  /** The steps of one whole pass after the first two. */
  function RoundTail(job: Job, w: nat, outcome: Outcome, f: Faults): seq<Event> {
    if job.attempt >= MAX_JOB_ATTEMPTS then
      [RemoveEvent(w, f.remove)] + if f.remove.Fine? then [PushEvent(w, f.push)] else []
    else
      [Finish(w, outcome, f.finish)] + [RemoveEvent(w, f.remove)] + if outcome.Transient? then RetryTail(job, w, f) else []
  }

  function RetryTail(job: Job, w: nat, f: Faults): seq<Event> {
    [PushEvent(w, f.push)] + if job.attempt + 1 >= MAX_JOB_ATTEMPTS then [CloseOut(w, f.close)] else []
  }

  function RoundEvents(job: Job, w: nat, outcome: Outcome, f: Faults): seq<Event> {
    if f.take.Fine? then [Dequeue(w)] + ([Begin(w, f.begin)] + RoundTail(job, w, outcome, f))
    else [DequeueError(w, f.take.applied)] + []
  }

  /** What a pass leaves of a machine state. */
  ghost predicate RoundDone(s: State, n: State, w: nat, outcome: Outcome, f: Faults)
    requires s.q.main != [] && w < |s.q.processing|
  {
    && n.q == RoundLists(s.q, w, outcome, f)
    && n.rows == RoundRows(s.rows, Tail(s.q.main), outcome, f)
    && n.pc == s.pc && n.api == s.api
  }

  // One step at a time, with the whole next state spelled out.

  lemma FinishIs(s: State, w: nat, outcome: Outcome, db: bool)
    requires w < |s.pc| && w < |s.q.processing| && s.pc[w].Running?
    ensures var e := Finish(w, outcome, db); var job := s.pc[w].job;
            && Enabled(s, e)
            && Next(s, e).q == s.q && Next(s, e).api == s.api
            && Next(s, e).pc == s.pc[w := if outcome.Transient? then Retrying(job) else Settled(job)]
            && Next(s, e).rows == if outcome.Transient? then s.rows
                                  else Try(db, s.rows, job.id, if outcome.Success? then Confirmed else Reverted, OutcomeTx(outcome))
  {
  }

  lemma RemoveIs(s: State, w: nat, fate: Fate)
    requires w < |s.pc| && w < |s.q.processing| && Removing(s.pc[w])
    ensures var e := RemoveEvent(w, fate); var pc := s.pc[w];
            && Enabled(s, e)
            && Next(s, e).q == (if Applied(fate) then Removed(s.q, w, pc.job) else s.q)
            && Next(s, e).api == s.api && Next(s, e).rows == s.rows
            && Next(s, e).pc == s.pc[w := if pc.Retrying? then Held(Bumped(pc.job), false)
                                          else if pc.Poisoned? && fate.Fine? then Held(pc.job, true) else Idle]
  {
  }

  lemma PushIs(s: State, w: nat, fate: Fate)
    requires w < |s.pc| && w < |s.q.processing| && s.pc[w].Held?
    ensures var e := PushEvent(w, fate);
            && Enabled(s, e)
            && Next(s, e).q == (if Applied(fate) then Delivered(s.q, s.pc[w]) else s.q)
            && Next(s, e).api == s.api && Next(s, e).rows == s.rows
            && Next(s, e).pc == s.pc[w := AfterPush(s.pc[w])]
  {
  }

  lemma CloseOutIs(s: State, w: nat, db: bool)
    requires w < |s.pc| && w < |s.q.processing| && s.pc[w].Exhausted?
    ensures var e := CloseOut(w, db);
            && Enabled(s, e)
            && Next(s, e).q == s.q && Next(s, e).api == s.api
            && Next(s, e).pc == s.pc[w := Idle]
            && Next(s, e).rows == Try(db, s.rows, s.pc[w].job.id, Failed, None)
  {
  }

  predicate CanTake(s: State, w: nat) {
    w < |s.pc| && w < |s.q.processing| && s.pc[w].Idle? && s.q.main != []
  }

  /** The state after dequeueing and beginning. */
  function Begun(s: State, w: nat, db: bool): State
    requires CanTake(s, w)
  {
    Next(Next(s, Dequeue(w)), Begin(w, db))
  }

  lemma BegunIs(s: State, w: nat, db: bool)
    requires CanTake(s, w)
    ensures var job := Tail(s.q.main);
            && Begun(s, w, db).q == Moved(s.q, w) && Begun(s, w, db).api == s.api
            && Begun(s, w, db).pc == s.pc[w := if job.attempt >= MAX_JOB_ATTEMPTS then Poisoned(job) else Running(job)]
            && Begun(s, w, db).rows ==
               Try(db, s.rows, job.id, if job.attempt >= MAX_JOB_ATTEMPTS then Failed else Broadcasting, None)
  {
    var n := Next(s, Dequeue(w));
    assert n.pc == s.pc[w := Got(Tail(s.q.main))];
    assert n.pc[w := NextPc(n, Begin(w, db))] == s.pc[w := NextPc(n, Begin(w, db))];
  }

  /** Taking the job back out of the processing list it was just moved to. */
  lemma RemovedMoved(q: Lists, w: nat)
    requires q.main != [] && w < |q.processing|
    ensures Removed(Moved(q, w), w, Tail(q.main)) == Lists(Rest(q), q.processing, q.dlq)
  {
    var m := Moved(q, w);
    assert m.processing[w] == [Tail(q.main)] + q.processing[w];
    assert RemoveFirst(m.processing[w], Tail(q.main)) == q.processing[w];
    assert m.processing[w := q.processing[w]] == q.processing;
  }

  /** The end of a poison-pill pass: removal and push. */
  lemma PoisonMoved(b: State, w: nat, push: Fate)
    requires w < |b.pc| && w < |b.q.processing| && b.pc[w].Poisoned?
    ensures var es := [Remove(w)] + [PushEvent(w, push)];
            var job, removed := b.pc[w].job, Removed(b.q, w, b.pc[w].job);
            && ValidRun(b, es)
            && After(b, es).q == (if Applied(push) then Buried(removed, job) else removed)
            && After(b, es).pc == b.pc[w := Idle] && After(b, es).rows == b.rows && After(b, es).api == b.api
  {
    RemoveIs(b, w, Fine);
    var n := Next(b, Remove(w));
    PushRun(n, w, push);
    StepThen(b, Remove(w), n, [PushEvent(w, push)]);
  }

  /** ...or a removal that fails and ends it. */
  lemma PoisonKept(b: State, w: nat, applied: bool)
    requires w < |b.pc| && w < |b.q.processing| && b.pc[w].Poisoned?
    ensures var es := [RemoveError(w, applied)] + [];
            && ValidRun(b, es)
            && After(b, es).q == (if applied then Removed(b.q, w, b.pc[w].job) else b.q)
            && After(b, es).pc == b.pc[w := Idle] && After(b, es).rows == b.rows && After(b, es).api == b.api
  {
    RemoveIs(b, w, Error(applied));
    StepThen(b, RemoveError(w, applied), Next(b, RemoveError(w, applied)), []);
  }

  lemma PoisonTail(b: State, w: nat, remove: Fate, push: Fate)
    requires w < |b.pc| && w < |b.q.processing| && b.pc[w].Poisoned?
    ensures var es := [RemoveEvent(w, remove)] + if remove.Fine? then [PushEvent(w, push)] else [];
            var job := b.pc[w].job;
            var removed := if Applied(remove) then Removed(b.q, w, job) else b.q;
            && ValidRun(b, es)
            && After(b, es).q == (if remove.Fine? && Applied(push) then Buried(removed, job) else removed)
            && After(b, es).pc == b.pc[w := Idle] && After(b, es).rows == b.rows && After(b, es).api == b.api
  {
    if remove.Fine? {
      PoisonMoved(b, w, push);
    } else {
      PoisonKept(b, w, remove.applied);
    }
  }

  lemma PoisonRound(s: State, b: State, w: nat, outcome: Outcome, f: Faults)
    requires CanTake(s, w) && Tail(s.q.main).attempt >= MAX_JOB_ATTEMPTS && f.take.Fine? && f.legible
    requires b.q == Moved(s.q, w) && b.pc == s.pc[w := Poisoned(Tail(s.q.main))] && b.api == s.api
    requires b.rows == Try(f.begin, s.rows, Tail(s.q.main).id, Failed, None)
    ensures var es := RoundTail(Tail(s.q.main), w, outcome, f); ValidRun(b, es) && RoundDone(s, After(b, es), w, outcome, f)
  {
    RemovedMoved(s.q, w);
    RowsOfRound(s.rows, Tail(s.q.main), outcome, f);
    assert s.pc[w := Idle] == s.pc;
    PoisonTail(b, w, f.remove, f.push);
  }

  /** The Finish and Remove of a pass. */
  lemma MiddleRun(s: State, b: State, w: nat, outcome: Outcome, f: Faults)
    requires CanTake(s, w) && Tail(s.q.main).attempt < MAX_JOB_ATTEMPTS
    requires b.q == Moved(s.q, w) && b.pc == s.pc[w := Running(Tail(s.q.main))] && b.api == s.api
    ensures var es := [Finish(w, outcome, f.finish)] + [RemoveEvent(w, f.remove)]; var job := Tail(s.q.main);
            && ValidRun(b, es)
            && After(b, es).q == RoundRemoved(s.q, w, f.remove) && After(b, es).api == s.api
            && After(b, es).pc == s.pc[w := if outcome.Transient? then Held(Bumped(job), false) else Idle]
            && After(b, es).rows == if outcome.Transient? then b.rows
                                    else Try(f.finish, b.rows, job.id, if outcome.Success? then Confirmed else Reverted, OutcomeTx(outcome))
  {
    RemovedMoved(s.q, w);
    FinishThenRemove(b, w, outcome, f.finish, f.remove);
  }

  lemma FinishThenRemove(b: State, w: nat, outcome: Outcome, finish: bool, remove: Fate)
    requires w < |b.pc| && w < |b.q.processing| && b.pc[w].Running?
    ensures var es := [Finish(w, outcome, finish)] + [RemoveEvent(w, remove)]; var job := b.pc[w].job;
            && ValidRun(b, es)
            && After(b, es).q == (if Applied(remove) then Removed(b.q, w, job) else b.q) && After(b, es).api == b.api
            && After(b, es).pc == b.pc[w := if outcome.Transient? then Held(Bumped(job), false) else Idle]
            && After(b, es).rows == if outcome.Transient? then b.rows
                                    else Try(finish, b.rows, job.id, if outcome.Success? then Confirmed else Reverted, OutcomeTx(outcome))
  {
    FinishIs(b, w, outcome, finish);
    var n := Next(b, Finish(w, outcome, finish));
    RemoveRun(n, w, remove);
    StepThen(b, Finish(w, outcome, finish), n, [RemoveEvent(w, remove)]);
  }

  /** A removal, as a run of one step. */
  lemma RemoveRun(s: State, w: nat, fate: Fate)
    requires w < |s.pc| && w < |s.q.processing| && Removing(s.pc[w])
    ensures var es := [RemoveEvent(w, fate)]; var pc := s.pc[w];
            && ValidRun(s, es)
            && After(s, es).q == (if Applied(fate) then Removed(s.q, w, pc.job) else s.q)
            && After(s, es).api == s.api && After(s, es).rows == s.rows
            && After(s, es).pc == s.pc[w := if pc.Retrying? then Held(Bumped(pc.job), false)
                                            else if pc.Poisoned? && fate.Fine? then Held(pc.job, true) else Idle]
  {
    RemoveIs(s, w, fate);
    StepThen(s, RemoveEvent(w, fate), Next(s, RemoveEvent(w, fate)), []);
    assert [RemoveEvent(w, fate)] + [] == [RemoveEvent(w, fate)];
  }

  /** A push, as a run of one step. */
  lemma PushRun(s: State, w: nat, fate: Fate)
    requires w < |s.pc| && w < |s.q.processing| && s.pc[w].Held?
    ensures var es := [PushEvent(w, fate)];
            && ValidRun(s, es)
            && After(s, es).q == (if Applied(fate) then Delivered(s.q, s.pc[w]) else s.q)
            && After(s, es).api == s.api && After(s, es).rows == s.rows
            && After(s, es).pc == s.pc[w := AfterPush(s.pc[w])]
  {
    PushIs(s, w, fate);
    StepThen(s, PushEvent(w, fate), Next(s, PushEvent(w, fate)), []);
    assert [PushEvent(w, fate)] + [] == [PushEvent(w, fate)];
  }

  /** The last write, as a run of one step. */
  lemma CloseOutRun(s: State, w: nat, db: bool)
    requires w < |s.pc| && w < |s.q.processing| && s.pc[w].Exhausted?
    ensures var es := [CloseOut(w, db)];
            && ValidRun(s, es)
            && After(s, es).q == s.q && After(s, es).api == s.api
            && After(s, es).pc == s.pc[w := Idle]
            && After(s, es).rows == Try(db, s.rows, s.pc[w].job.id, Failed, None)
  {
    CloseOutIs(s, w, db);
    StepThen(s, CloseOut(w, db), Next(s, CloseOut(w, db)), []);
    assert [CloseOut(w, db)] + [] == [CloseOut(w, db)];
  }

  /** The push that ends a retry... */
  lemma RetryPushed(h: State, w: nat, push: Fate)
    requires w < |h.pc| && w < |h.q.processing| && h.pc[w].Held? && !h.pc[w].poison
    requires h.pc[w].job.attempt < MAX_JOB_ATTEMPTS
    ensures var job, es := h.pc[w].job, [PushEvent(w, push)] + [];
            && ValidRun(h, es)
            && After(h, es).q == (if Applied(push) then Pushed(h.q, job) else h.q)
            && After(h, es).pc == h.pc[w := Idle] && After(h, es).api == h.api && After(h, es).rows == h.rows
  {
    PushIs(h, w, push);
    StepThen(h, PushEvent(w, push), Next(h, PushEvent(w, push)), []);
  }

  /** ...and the Failed write if it was the last. */
  lemma RetryBuried(h: State, w: nat, push: Fate, close: bool)
    requires w < |h.pc| && w < |h.q.processing| && h.pc[w].Held? && !h.pc[w].poison
    requires h.pc[w].job.attempt >= MAX_JOB_ATTEMPTS
    ensures var job, es := h.pc[w].job, [PushEvent(w, push)] + [CloseOut(w, close)];
            && ValidRun(h, es)
            && After(h, es).q == (if Applied(push) then Buried(h.q, job) else h.q)
            && After(h, es).pc == h.pc[w := Idle] && After(h, es).api == h.api
            && After(h, es).rows == Try(close, h.rows, job.id, Failed, None)
  {
    PushIs(h, w, push);
    var n := Next(h, PushEvent(w, push));
    CloseOutRun(n, w, close);
    StepThen(h, PushEvent(w, push), n, [CloseOut(w, close)]);
  }

  lemma RetryRun(s: State, h: State, w: nat, f: Faults)
    requires CanTake(s, w) && Tail(s.q.main).attempt < MAX_JOB_ATTEMPTS && f.take.Fine? && f.legible
    requires h.q == RoundRemoved(s.q, w, f.remove) && h.pc == s.pc[w := Held(Bumped(Tail(s.q.main)), false)]
    requires h.rows == Try(f.begin, s.rows, Tail(s.q.main).id, Broadcasting, None) && h.api == s.api
    ensures var es := RetryTail(Tail(s.q.main), w, f);
            ValidRun(h, es) && RoundDone(s, After(h, es), w, Transient, f)
  {
    var n := After(h, RetryTail(Tail(s.q.main), w, f)) by {
      RetryEnd(h, w, f.push, f.close);
    }
    assert n.q == RoundLists(s.q, w, Transient, f) by {
      RetryEnd(h, w, f.push, f.close);
    }
    assert n.rows == RoundRows(s.rows, Tail(s.q.main), Transient, f) by {
      RowsOfRound(s.rows, Tail(s.q.main), Transient, f);
      RetryEnd(h, w, f.push, f.close);
    }
    assert ValidRun(h, RetryTail(Tail(s.q.main), w, f)) && n.pc == s.pc && n.api == s.api by {
      assert s.pc[w := Idle] == s.pc;
      RetryEnd(h, w, f.push, f.close);
    }
  }

  lemma RetryEnd(h: State, w: nat, push: Fate, close: bool)
    requires w < |h.pc| && w < |h.q.processing| && h.pc[w].Held? && !h.pc[w].poison
    ensures var job := h.pc[w].job;
            var last := job.attempt >= MAX_JOB_ATTEMPTS;
            var es := [PushEvent(w, push)] + if last then [CloseOut(w, close)] else [];
            && ValidRun(h, es)
            && After(h, es).q == (if !Applied(push) then h.q else if last then Buried(h.q, job) else Pushed(h.q, job))
            && After(h, es).pc == h.pc[w := Idle] && After(h, es).api == h.api
            && After(h, es).rows == if last then Try(close, h.rows, job.id, Failed, None) else h.rows
  {
    if h.pc[w].job.attempt >= MAX_JOB_ATTEMPTS {
      RetryBuried(h, w, push, close);
    } else {
      RetryPushed(h, w, push);
    }
  }

  lemma OrdinaryRound(s: State, b: State, w: nat, outcome: Outcome, f: Faults)
    requires CanTake(s, w) && Tail(s.q.main).attempt < MAX_JOB_ATTEMPTS && f.take.Fine? && f.legible
    requires b.q == Moved(s.q, w) && b.pc == s.pc[w := Running(Tail(s.q.main))] && b.api == s.api
    requires b.rows == Try(f.begin, s.rows, Tail(s.q.main).id, Broadcasting, None)
    ensures var es := RoundTail(Tail(s.q.main), w, outcome, f); ValidRun(b, es) && RoundDone(s, After(b, es), w, outcome, f)
  {
    var job := Tail(s.q.main);
    var lead := [Finish(w, outcome, f.finish)] + [RemoveEvent(w, f.remove)];
    MiddleRun(s, b, w, outcome, f);
    if outcome.Transient? {
      RetryRun(s, After(b, lead), w, f);
      RunConcat(b, lead, RetryTail(job, w, f));
    } else {
      RowsOfRound(s.rows, job, outcome, f);
      assert s.pc[w := Idle] == s.pc && lead + [] == lead;
    }
  }

  /** Everything after the first two steps of a pass. */
  lemma TailRun(s: State, w: nat, outcome: Outcome, f: Faults)
    requires CanTake(s, w) && f.take.Fine? && f.legible
    ensures var es := RoundTail(Tail(s.q.main), w, outcome, f); var b := Begun(s, w, f.begin);
            ValidRun(b, es) && RoundDone(s, After(b, es), w, outcome, f)
  {
    BegunIs(s, w, f.begin);
    if Tail(s.q.main).attempt >= MAX_JOB_ATTEMPTS {
      PoisonRound(s, Begun(s, w, f.begin), w, outcome, f);
    } else {
      OrdinaryRound(s, Begun(s, w, f.begin), w, outcome, f);
    }
  }

  lemma LeadRun(s: State, w: nat, db: bool, rest: seq<Event>)
    requires CanTake(s, w) && ValidRun(Begun(s, w, db), rest)
    ensures var es := [Dequeue(w)] + ([Begin(w, db)] + rest);
            ValidRun(s, es) && After(s, es) == After(Begun(s, w, db), rest)
  {
    var m := Next(s, Dequeue(w));
    StepThen(m, Begin(w, db), Begun(s, w, db), rest);
    StepThen(s, Dequeue(w), m, [Begin(w, db)] + rest);
  }

  /** One pass of the worker loop, whatever fails in it, is a run of the machine, whatever the other
      workers and the API calls are doing around it. */
  lemma RoundIsRun(s: State, w: nat, outcome: Outcome, f: Faults)
    requires CanTake(s, w) && f.legible
    ensures var es := RoundEvents(Tail(s.q.main), w, outcome, f);
            ValidRun(s, es) && RoundDone(s, After(s, es), w, outcome, f)
  {
    if f.take.Fine? {
      TailRun(s, w, outcome, f);
      LeadRun(s, w, f.begin, RoundTail(Tail(s.q.main), w, outcome, f));
    } else {
      var e := DequeueError(w, f.take.applied);
      assert s.pc[w := Idle] == s.pc;
      StepThen(s, e, Next(s, e), []);
    }
  }

  lemma RoundIsSmooth(job: Job, w: nat, outcome: Outcome)
    ensures forall e :: e in RoundEvents(job, w, outcome, NO_FAULTS) ==> Smooth(e)
  {
  }

  function Recoveries(w: nat, n: nat): (es: seq<Event>)
    ensures |es| == n && forall e :: e in es ==> e == RecoverOne(w)
  {
    if n == 0 then [] else [RecoverOne(w)] + Recoveries(w, n - 1)
  }

  lemma RecoverStep(s: State, w: nat, k: nat)
    requires w < |s.pc| && w < |s.q.processing| && s.pc[w].Down? && 0 < k <= |s.q.processing[w]|
    ensures var n := Next(s, RecoverOne(w));
            && n.pc == s.pc && w < |n.q.processing|
            && |n.q.processing[w]| == |s.q.processing[w]| - 1
            && RecoveredPart(n.q, w, k - 1) == RecoveredPart(s.q, w, k)
  {
    var p, n := s.q.processing[w], Next(s, RecoverOne(w));
    var rest := p[..|p| - 1];
    assert rest[|rest| - (k - 1)..] + ([Tail(p)] + s.q.main) == p[|p| - k..] + s.q.main;
    assert rest[..|rest| - (k - 1)] == p[..|p| - k];
    assert n.q.processing[w := p[..|p| - k]] == s.q.processing[w := p[..|p| - k]];
  }

  /** Draining a dead worker's processing list, wholly or in part, is a run of single recovery moves. */
  lemma {:induction false} RecoverIsRun(s: State, w: nat, k: nat)
    requires w < |s.pc| && w < |s.q.processing| && s.pc[w].Down? && k <= |s.q.processing[w]|
    ensures var es := Recoveries(w, k);
            ValidRun(s, es) && After(s, es).q == RecoveredPart(s.q, w, k) && After(s, es).pc == s.pc
    decreases k
  {
    if k == 0 {
      RecoveredPartEnds(s.q, w);
    } else {
      var n := Next(s, RecoverOne(w));
      RecoverStep(s, w, k);
      RecoverIsRun(n, w, k - 1);
      StepThen(s, RecoverOne(w), n, Recoveries(w, k - 1));
    }
  }

  /** The steps of one API call. */
  function CallEvents(id: RequestId, simulation: Simulation, f: CallFaults): seq<Event> {
    if f.insert then [ApiInsert(id)] + CallTail(id, simulation, f) else []
  }

  function CallTail(id: RequestId, simulation: Simulation, f: CallFaults): seq<Event> {
    match simulation
    case Breaks => []
    case Rejects => [ApiReject(id, f.reject)] + []
    case Passes =>
      if !f.estimate then []
      else if f.push.Fine? then [ApiEnqueue(id)] + ([ApiQueued(id, f.queued)] + [])
      else [ApiEnqueueError(id, f.push.applied)] + []
  }

  lemma CallTailRun(a: State, id: RequestId, simulation: Simulation, f: CallFaults)
    requires id in a.api && a.api[id] == Inserted && id in a.rows && a.rows[id] == Row([Pending], None) && f.insert
    ensures var es := CallTail(id, simulation, f);
            && ValidRun(a, es)
            && After(a, es).q == (if Sends(simulation, f) then Pushed(a.q, Job(id, 0)) else a.q)
            && After(a, es).rows == a.rows[id := Row(CallStatuses(simulation, f), None)]
            && After(a, es).pc == a.pc
  {
    if simulation.Rejects? {
      RejectedCall(a, id, f.reject);
    } else if simulation.Passes? && f.estimate && f.push.Fine? {
      QueuedCall(a, id, f.queued);
    } else if simulation.Passes? && f.estimate {
      UnansweredCall(a, id, f.push.applied);
    }
  }

  lemma InsertIs(s: State, id: RequestId)
    requires id !in s.api && id !in s.rows
    ensures var a := Next(s, ApiInsert(id));
            && a.rows == s.rows[id := Row([Pending], None)] && a.q == s.q && a.pc == s.pc
            && id in a.api && a.api[id] == Inserted
  {
  }

  /** The API call, whatever fails in it, is a run of the machine too. */
  lemma ExecuteIsRun(s: State, id: RequestId, simulation: Simulation, f: CallFaults)
    requires id !in s.api && id !in s.rows
    ensures var es := CallEvents(id, simulation, f);
            && ValidRun(s, es)
            && After(s, es).q == (if Sends(simulation, f) then Pushed(s.q, Job(id, 0)) else s.q)
            && After(s, es).rows == (if f.insert then s.rows[id := Row(CallStatuses(simulation, f), None)] else s.rows)
            && After(s, es).pc == s.pc
  {
    if f.insert {
      InsertIs(s, id);
      CallTailRun(Next(s, ApiInsert(id)), id, simulation, f);
      StepThen(s, ApiInsert(id), Next(s, ApiInsert(id)), CallTail(id, simulation, f));
    }
  }

  lemma RejectedCall(a: State, id: RequestId, reject: bool)
    requires id in a.api && a.api[id] == Inserted && id in a.rows && a.rows[id] == Row([Pending], None)
    ensures var es := [ApiReject(id, reject)] + [];
            && ValidRun(a, es)
            && After(a, es).q == a.q && After(a, es).pc == a.pc
            && After(a, es).rows == a.rows[id := Row(if reject then [Pending, Failed] else [Pending], None)]
  {
    assert [Pending] + [Failed] == [Pending, Failed];
    StepThen(a, ApiReject(id, reject), Next(a, ApiReject(id, reject)), []);
  }

  lemma UnansweredCall(a: State, id: RequestId, applied: bool)
    requires id in a.api && a.api[id] == Inserted && id in a.rows && a.rows[id] == Row([Pending], None)
    ensures var es := [ApiEnqueueError(id, applied)] + [];
            && ValidRun(a, es)
            && After(a, es).q == (if applied then Pushed(a.q, Job(id, 0)) else a.q) && After(a, es).pc == a.pc
            && After(a, es).rows == a.rows[id := Row([Pending, Pending], None)]
  {
    assert [Pending] + [Pending] == [Pending, Pending];
    StepThen(a, ApiEnqueueError(id, applied), Next(a, ApiEnqueueError(id, applied)), []);
  }

  lemma QueuedCall(a: State, id: RequestId, queued: bool)
    requires id in a.api && a.api[id] == Inserted && id in a.rows && a.rows[id] == Row([Pending], None)
    ensures var es := [ApiEnqueue(id)] + ([ApiQueued(id, queued)] + []);
            && ValidRun(a, es)
            && After(a, es).q == Pushed(a.q, Job(id, 0)) && After(a, es).pc == a.pc
            && After(a, es).rows ==
               a.rows[id := Row(if queued then [Pending, Pending, Queued] else [Pending, Pending], None)]
  {
    var b := Next(a, ApiEnqueue(id));
    assert [Pending] + [Pending] == [Pending, Pending] && [Pending, Pending] + [Queued] == [Pending, Pending, Queued];
    StepThen(b, ApiQueued(id, queued), Next(b, ApiQueued(id, queued)), []);
    StepThen(a, ApiEnqueue(id), b, [ApiQueued(id, queued)] + []);
  }
}
