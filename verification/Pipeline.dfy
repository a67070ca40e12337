/**
The execution pipeline as a state machine: API calls, workers, Redis and the status table, with one
Redis command or one status write per step, any interleaving, and every failure the code tolerates:
a command that reports an error (whether or not Redis applied it), a failed status write, and a
worker that dies at any point.
*/
module Pipeline {
  import opened Wrappers
  import opened Queue

  type TxHash = nat

  datatype Status = Pending | Queued | Broadcasting | Confirmed | Failed | Reverted

  /** A row of `execution_requests`.  The status column is the last entry of `history`. */
  datatype Row = Row(history: seq<Status>, txHash: Option<TxHash>)

  type Table = map<RequestId, Row>

  /** UPDATE ... SET status, tx_hash = COALESCE(new, old) WHERE id. */
  function Written(rows: Table, id: RequestId, status: Status, txHash: Option<TxHash>): Table {
    if id !in rows then rows
    else rows[id := Row(rows[id].history + [status],
                        if txHash.Some? then txHash else rows[id].txHash)]
  }

  /** A status write whose failure the caller logs and ignores. */
  function Try(ok: bool, rows: Table, id: RequestId, status: Status, txHash: Option<TxHash>): Table {
    if ok then Written(rows, id, status, txHash) else rows
  }

  /** How an execution ended.  A panic in the spawned task counts as transient. */
  datatype Outcome = Success(tx: TxHash) | OnChainRevert(revertTx: Option<TxHash>) | Transient

  /** Where a worker stands in its loop. */
  datatype Pc =
    | Down                             // died; its supervisor has not restarted it yet
    | Idle                             // about to dequeue
    | Got(job: Job)                    // dequeued
    | Poisoned(job: Job)               // poison-pill guard taken and Failed written, before LREM
    | Running(job: Job)                // Broadcasting written, execution started
    | Settled(job: Job)                // terminal status written, before the acknowledging LREM
    | Retrying(job: Job)               // transient failure, before the LREM that precedes re-enqueue
    | Held(job: Job, poison: bool)     // between LREM and LPUSH: the job is in no list
    | Exhausted(job: Job)              // pushed to the dead-letter list, Failed not yet written

  /** Where an API call stands. */
  datatype Stage =
    | Inserted              // row written as Pending
    | Enqueued              // job pushed, Queued not yet written
    | Answered(sent: bool)  // the call has returned; `sent` says whether a job was pushed

  /** What has happened so far, per request. */
  datatype Ledger = Ledger(
    acked: multiset<RequestId>,       // removed for good after a terminal status
    lost: multiset<RequestId>,        // copies that vanished
    duplicated: multiset<RequestId>,  // copies that were created beside the original
    started: multiset<RequestId>,     // executions started
    recovered: multiset<RequestId>)   // moves from a processing list back to the main list

  datatype State = State(q: Lists, pc: seq<Pc>, rows: Table, api: map<RequestId, Stage>, led: Ledger)

  datatype Event =
    | ApiInsert(r: RequestId)
    | ApiReject(r: RequestId, db: bool)
    | ApiEnqueue(r: RequestId)
    | ApiEnqueueError(r: RequestId, applied: bool)
    | ApiQueued(r: RequestId, db: bool)
    | Dequeue(w: nat)
    | DequeueError(w: nat, applied: bool)
    | Begin(w: nat, db: bool)
    | Finish(w: nat, outcome: Outcome, db: bool)
    | Remove(w: nat)
    | RemoveError(w: nat, applied: bool)
    | Push(w: nat)
    | PushError(w: nat, applied: bool)
    | CloseOut(w: nat, db: bool)
    | Crash(w: nat)
    | RecoverOne(w: nat)
    | Restart(w: nat)

  predicate IsApi(e: Event) {
    e.ApiInsert? || e.ApiReject? || e.ApiEnqueue? || e.ApiEnqueueError? || e.ApiQueued?
  }

  predicate Removing(pc: Pc) {
    pc.Settled? || pc.Retrying? || pc.Poisoned?
  }

  predicate Enabled(s: State, e: Event) {
    if IsApi(e) then
      if e.ApiInsert? then e.r !in s.api && e.r !in s.rows
      else e.r in s.api && s.api[e.r] == if e.ApiQueued? then Enqueued else Inserted
    else
      && e.w < |s.pc| && e.w < |s.q.processing|
      && var pc := s.pc[e.w];
         match e
         case Dequeue(_) => pc.Idle? && s.q.main != []
         case DequeueError(_, applied) => pc.Idle? && (applied ==> s.q.main != [])
         case Begin(_, _) => pc.Got?
         case Finish(_, _, _) => pc.Running?
         case Remove(_) => Removing(pc)
         case RemoveError(_, _) => Removing(pc)
         case Push(_) => pc.Held?
         case PushError(_, _) => pc.Held?
         case CloseOut(_, _) => pc.Exhausted?
         case Crash(_) => !pc.Down?
         case RecoverOne(_) => pc.Down? && s.q.processing[e.w] != []
         case Restart(_) => pc.Down?
  }

  /** One step, component by component. */
  function Next(s: State, e: Event): State
    requires Enabled(s, e)
  {
    State(NextLists(s, e), NextPcs(s, e), NextRows(s, e), NextApi(s, e), NextLedger(s, e))
  }

  /** The push that ends a retry or a poison-pill move. */
  function Delivered(q: Lists, pc: Pc): Lists
    requires pc.Held?
  {
    if pc.poison || pc.job.attempt >= MAX_JOB_ATTEMPTS then Buried(q, pc.job) else Pushed(q, pc.job)
  }

  /** The Redis lists.  A command reported as failed may have been applied or not. */
  function NextLists(s: State, e: Event): Lists
    requires Enabled(s, e)
  {
    match e
    case ApiEnqueue(r) => Pushed(s.q, Job(r, 0))
    case ApiEnqueueError(r, applied) => if applied then Pushed(s.q, Job(r, 0)) else s.q
    case Dequeue(w) => Moved(s.q, w)
    case DequeueError(w, applied) => if applied then Moved(s.q, w) else s.q
    case Remove(w) => Removed(s.q, w, s.pc[w].job)
    case RemoveError(w, applied) => if applied then Removed(s.q, w, s.pc[w].job) else s.q
    case Push(w) => Delivered(s.q, s.pc[w])
    case PushError(w, applied) => if applied then Delivered(s.q, s.pc[w]) else s.q
    case RecoverOne(w) => RecoveredOne(s.q, w)
    case _ => s.q
  }

  function NextPcs(s: State, e: Event): seq<Pc>
    requires Enabled(s, e)
  {
    if IsApi(e) then s.pc else s.pc[e.w := NextPc(s, e)]
  }

  /** Where the stepping worker goes. */
  function NextPc(s: State, e: Event): Pc
    requires !IsApi(e) && Enabled(s, e)
  {
    var pc := s.pc[e.w];
    match e
    case Dequeue(_) => Got(s.q.main[|s.q.main| - 1])
    case DequeueError(_, _) => Idle
    case Begin(_, _) => if pc.job.attempt >= MAX_JOB_ATTEMPTS then Poisoned(pc.job) else Running(pc.job)
    case Finish(_, outcome, _) => if outcome.Transient? then Retrying(pc.job) else Settled(pc.job)
    case Remove(_) =>
      if pc.Settled? then Idle else if pc.Retrying? then Held(Bumped(pc.job), false) else Held(pc.job, true)
    case RemoveError(_, _) =>
      // before a retry the error is only logged, and the bumped job is pushed all the same;
      // in a poison-pill move it ends the move
      if pc.Retrying? then Held(Bumped(pc.job), false) else Idle
    case Push(_) => AfterPush(pc)
    case PushError(_, _) => AfterPush(pc)
    case CloseOut(_, _) => Idle
    case Crash(_) => Down
    case RecoverOne(_) => Down
    case Restart(_) => Idle  // the supervisor restarts the worker even when recovery reported an error
  }

  /** Where the worker goes after a push, whatever Redis answered. */
  function AfterPush(pc: Pc): Pc
    requires pc.Held?
  {
    if !pc.poison && pc.job.attempt >= MAX_JOB_ATTEMPTS then Exhausted(pc.job) else Idle
  }

  /** The status table. */
  function NextRows(s: State, e: Event): Table
    requires Enabled(s, e)
  {
    match e
    case ApiInsert(r) => s.rows[r := Row([Pending], None)]
    case ApiReject(r, db) => Try(db, s.rows, r, Failed, None)
    case ApiEnqueue(r) => Written(s.rows, r, Pending, None)  // stores the gas estimate just before the push
    case ApiEnqueueError(r, _) => Written(s.rows, r, Pending, None)
    case ApiQueued(r, db) => Try(db, s.rows, r, Queued, None)
    case Begin(w, db) =>
      var job := s.pc[w].job;
      Try(db, s.rows, job.id, if job.attempt >= MAX_JOB_ATTEMPTS then Failed else Broadcasting, None)
    case Finish(w, outcome, db) =>
      (match outcome
       case Success(tx) => Try(db, s.rows, s.pc[w].job.id, Confirmed, Some(tx))
       case OnChainRevert(tx) => Try(db, s.rows, s.pc[w].job.id, Reverted, tx)
       case Transient => s.rows)
    case CloseOut(w, db) => Try(db, s.rows, s.pc[w].job.id, Failed, None)
    case _ => s.rows
  }

  function NextApi(s: State, e: Event): map<RequestId, Stage>
    requires Enabled(s, e)
  {
    match e
    case ApiInsert(r) => s.api[r := Inserted]
    case ApiReject(r, _) => s.api[r := Answered(false)]
    case ApiEnqueue(r) => s.api[r := Enqueued]
    case ApiEnqueueError(r, applied) => s.api[r := Answered(applied)]
    case ApiQueued(r, _) => s.api[r := Answered(true)]
    case _ => s.api
  }

  predicate Acks(s: State, e: Event)
    requires Enabled(s, e)
  {
    (e.Remove? || (e.RemoveError? && e.applied)) && s.pc[e.w].Settled?
  }

  /** A copy vanishes: the worker dies between LREM and LPUSH, or the LPUSH is not carried out, or a
      poison-pill LREM takes effect but is reported as failed. */
  predicate Loses(s: State, e: Event)
    requires Enabled(s, e)
  {
    || (e.Crash? && s.pc[e.w].Held?)
    || (e.PushError? && !e.applied)
    || (e.RemoveError? && e.applied && s.pc[e.w].Poisoned?)
  }

  /** A second copy appears: the LREM before a retry is not carried out, and the retry goes ahead. */
  predicate Duplicates(s: State, e: Event)
    requires Enabled(s, e)
  {
    e.RemoveError? && !e.applied && s.pc[e.w].Retrying?
  }

  predicate Starts(s: State, e: Event)
    requires Enabled(s, e)
  {
    e.Begin? && s.pc[e.w].job.attempt < MAX_JOB_ATTEMPTS
  }

  function NextLedger(s: State, e: Event): Ledger
    requires Enabled(s, e)
  {
    Ledger(
      if Acks(s, e) then s.led.acked + multiset{s.pc[e.w].job.id} else s.led.acked,
      if Loses(s, e) then s.led.lost + multiset{s.pc[e.w].job.id} else s.led.lost,
      if Duplicates(s, e) then s.led.duplicated + multiset{s.pc[e.w].job.id} else s.led.duplicated,
      if Starts(s, e) then s.led.started + multiset{s.pc[e.w].job.id} else s.led.started,
      if e.RecoverOne? then s.led.recovered + multiset{Tail(s.q.processing[e.w]).id} else s.led.recovered)
  }

  function Tail(jobs: seq<Job>): Job
    requires jobs != []
  {
    jobs[|jobs| - 1]
  }

  predicate ValidRun(s: State, es: seq<Event>)
    decreases |es|
  {
    es == [] || (Enabled(s, es[0]) && ValidRun(Next(s, es[0]), es[1..]))
  }

  function After(s: State, es: seq<Event>): State
    requires ValidRun(s, es)
    decreases |es|
  {
    if es == [] then s else After(Next(s, es[0]), es[1..])
  }

  function Init(workers: nat): State {
    State(Lists([], seq(workers, i => []), []), seq(workers, i => Idle), map[], map[],
          Ledger(multiset{}, multiset{}, multiset{}, multiset{}, multiset{}))
  }

  /** Has a job for r ever been pushed by the API? */
  predicate Sent(s: State, r: RequestId) {
    r in s.api && (s.api[r].Enqueued? || s.api[r] == Answered(true))
  }

  /** The job whose copy in the worker's processing list the worker relies on. */
  function Anchor(pc: Pc): Option<Job> {
    match pc
    case Got(job) => Some(job)
    case Poisoned(job) => Some(job)
    case Running(job) => Some(job)
    case Settled(job) => Some(job)
    case Retrying(job) => Some(job)
    case _ => None
  }

  /** Attempt counts that can occur when the API only ever pushes attempt 0. */
  predicate TamePc(pc: Pc) {
    match pc
    case Poisoned(_) => false
    case Held(job, poison) => !poison && 1 <= job.attempt <= MAX_JOB_ATTEMPTS
    case Exhausted(job) => job.attempt == MAX_JOB_ATTEMPTS
    case _ => true
  }

  predicate AllBelowMax(jobs: seq<Job>) {
    forall j :: j in jobs ==> j.attempt < MAX_JOB_ATTEMPTS
  }

  predicate AllAtMax(jobs: seq<Job>) {
    forall j :: j in jobs ==> j.attempt == MAX_JOB_ATTEMPTS
  }

  predicate WorkerOk(list: seq<Job>, pc: Pc) {
    && AllBelowMax(list)
    && TamePc(pc)
    && (Anchor(pc).Some? ==> Anchor(pc).value in list)
  }

  ghost predicate Inv(s: State) {
    && |s.pc| == |s.q.processing|
    && s.api.Keys == s.rows.Keys
    && AllBelowMax(s.q.main)
    && AllAtMax(s.q.dlq)
    && forall w :: 0 <= w < |s.pc| ==> WorkerOk(s.q.processing[w], s.pc[w])
  }

  lemma {:induction false} RemoveFirstSubset(jobs: seq<Job>, job: Job)
    ensures forall j :: j in RemoveFirst(jobs, job) ==> j in jobs
  {
    if jobs != [] && jobs[0] != job {
      RemoveFirstSubset(jobs[1..], job);
    }
  }

  lemma InitInv(workers: nat)
    ensures Inv(Init(workers))
  {
  }

  /** A step of worker w changes nothing of the other workers. */
  lemma WorkerFrame(s: State, e: Event)
    requires !IsApi(e) && Enabled(s, e) && |s.pc| == |s.q.processing|
    ensures |NextLists(s, e).processing| == |s.q.processing|
    ensures NextLists(s, e).processing == s.q.processing[e.w := NextLists(s, e).processing[e.w]]
    ensures NextRows(s, e).Keys == s.rows.Keys
  {
  }

  lemma StepFrame(s: State, e: Event)
    requires |s.pc| == |s.q.processing| && Enabled(s, e) && !IsApi(e)
    ensures var n := Next(s, e);
            && |n.pc| == |s.pc| && |n.q.processing| == |s.q.processing|
            && n.q.processing[e.w] == NextLists(s, e).processing[e.w] && n.pc[e.w] == NextPc(s, e)
            && forall v :: 0 <= v < |s.pc| && v != e.w ==> n.pc[v] == s.pc[v] && n.q.processing[v] == s.q.processing[v]
  {
    WorkerFrame(s, e);
  }

  lemma StepListsOk(s: State, e: Event)
    requires Inv(s) && !IsApi(e) && Enabled(s, e)
    ensures AllBelowMax(NextLists(s, e).main) && AllAtMax(NextLists(s, e).dlq)
  {
    assert WorkerOk(s.q.processing[e.w], s.pc[e.w]);
  }

  lemma RemoveWorkerOk(s: State, e: Event)
    requires Inv(s) && Enabled(s, e) && (e.Remove? || e.RemoveError?)
    ensures WorkerOk(NextLists(s, e).processing[e.w], NextPc(s, e))
  {
    assert WorkerOk(s.q.processing[e.w], s.pc[e.w]);
    RemoveFirstSubset(s.q.processing[e.w], s.pc[e.w].job);
  }

  lemma MoveWorkerOk(s: State, e: Event)
    requires Inv(s) && Enabled(s, e) && (e.Dequeue? || e.DequeueError? || e.RecoverOne?)
    ensures WorkerOk(NextLists(s, e).processing[e.w], NextPc(s, e))
  {
    assert WorkerOk(s.q.processing[e.w], s.pc[e.w]);
  }

  lemma StepWorkerOk(s: State, e: Event)
    requires Inv(s) && !IsApi(e) && Enabled(s, e)
    ensures WorkerOk(NextLists(s, e).processing[e.w], NextPc(s, e))
  {
    if e.Remove? || e.RemoveError? {
      RemoveWorkerOk(s, e);
    } else if e.Dequeue? || e.DequeueError? || e.RecoverOne? {
      MoveWorkerOk(s, e);
    } else {
      assert WorkerOk(s.q.processing[e.w], s.pc[e.w]);
      assert NextLists(s, e).processing == s.q.processing;
    }
  }

  /** Every step keeps the structural invariant, failures included. */
  lemma StepInv(s: State, e: Event)
    requires Inv(s) && Enabled(s, e)
    ensures Inv(Next(s, e))
  {
    if !IsApi(e) {
      WorkerFrame(s, e);
      StepListsOk(s, e);
      StepWorkerOk(s, e);
    }
  }

  lemma {:induction false} RunInv(s: State, es: seq<Event>)
    requires Inv(s) && ValidRun(s, es)
    ensures Inv(After(s, es))
    decreases |es|
  {
    if es != [] {
      StepInv(s, es[0]);
      RunInv(Next(s, es[0]), es[1..]);
    }
  }
}
