/**
Get-or-create of agent wallets: callers race through load, generate, insert-if-absent and reload on one
shared table.
*/
module AgentWallet {
  import opened Wrappers

  /** The hyphenated text of a UUID is always 36 characters long. */
  type Uuid = s: string | |s| == 36 witness seq(36, _ => '0')

  function Namespaced(apiKey: Uuid, agent: string): string {
    apiKey + "::" + agent
  }

  /** The fixed width of the UUID makes the separator unambiguous, whatever the agent id contains. */
  lemma NamespacedInjective(key: Uuid, agent: string, otherKey: Uuid, otherAgent: string)
    ensures Namespaced(key, agent) == Namespaced(otherKey, otherAgent) <==> key == otherKey && agent == otherAgent
  {
    var a, b := Namespaced(key, agent), Namespaced(otherKey, otherAgent);
    assert key == a[..36] && agent == a[38..];
    assert otherKey == b[..36] && otherAgent == b[38..];
  }

  /** What one call generates: a row id, an encrypted signing key and the two addresses. */
  datatype Material = Material(id: Uuid, signingKey: seq<int>, eoa: nat, smartWallet: nat)

  datatype Row = Row(apiKey: Uuid, agent: string, namespacedId: string, wallet: Material)

  function MakeRow(apiKey: Uuid, agent: string, material: Material): Row {
    Row(apiKey, agent, Namespaced(apiKey, agent), material)
  }

  type Table = map<string, Row>

  predicate Proper(row: Row) {
    row.namespacedId == Namespaced(row.apiKey, row.agent)
  }

  predicate TableOk(rows: Table) {
    forall id :: id in rows ==> rows[id].namespacedId == id && Proper(rows[id])
  }

  predicate Keeps(before: Table, after: Table) {
    forall id :: id in before ==> id in after && after[id] == before[id]
  }

  /** Insert with ON CONFLICT (namespaced_id) DO NOTHING. */
  function InsertIfAbsent(rows: Table, row: Row): Table {
    if row.namespacedId in rows then rows else rows[row.namespacedId := row]
  }

  function InsertAll(rows: Table, others: seq<Row>): (after: Table)
    requires TableOk(rows) && forall i :: 0 <= i < |others| ==> Proper(others[i])
    ensures TableOk(after) && Keeps(rows, after)
    decreases |others|
  {
    if others == [] then rows else InsertAll(InsertIfAbsent(rows, others[0]), others[1..])
  }

  // ---- One call, with other callers' inserts between its statements -----------------------------

  datatype InsertOutcome = Answered | LostBefore | LostAfter

  /** How the statements of one call fare. */
  datatype Weather = Weather(load: bool, generated: Option<Material>, insert: InsertOutcome, reload: bool)

  datatype Problem = LoadFailed | GenerateFailed | InsertFailed | ReloadFailed

  class WalletTable {
    var rows: Table

    constructor ()
      ensures rows == map[]
    {
      rows := map[];
    }

    method LoadWallet(namespacedId: string) returns (r: Option<Row>)
      ensures r == if namespacedId in rows then Some(rows[namespacedId]) else None
    {
      if namespacedId in rows {
        return Some(rows[namespacedId]);
      }
      return None;
    }

    method InsertOnConflictDoNothing(row: Row)
      modifies this
      ensures rows == InsertIfAbsent(old(rows), row)
    {
      if row.namespacedId !in rows {
        rows := rows[row.namespacedId := row];
      }
    }

    method OthersInsert(others: seq<Row>)
      requires TableOk(rows) && forall i :: 0 <= i < |others| ==> Proper(others[i])
      modifies this
      ensures rows == InsertAll(old(rows), others)
    {
      for i := 0 to |others|
        invariant TableOk(rows)
        invariant InsertAll(rows, others[i..]) == InsertAll(old(rows), others)
      {
        assert others[i..][0] == others[i] && others[i..][1..] == others[i + 1..];
        InsertOnConflictDoNothing(others[i]);
      }
    }

    /** A success returns the stored row of the pair, whoever stored it; no row that was there changes;
        and the call fails only with one of its statements. */
    method GetOrCreate(apiKey: Uuid, agent: string, weather: Weather, beforeInsert: seq<Row>, afterInsert: seq<Row>)
      returns (r: Result<Row, Problem>)
      requires TableOk(rows)
      requires forall i :: 0 <= i < |beforeInsert| ==> Proper(beforeInsert[i])
      requires forall i :: 0 <= i < |afterInsert| ==> Proper(afterInsert[i])
      modifies this
      ensures TableOk(rows) && Keeps(old(rows), rows)
      ensures r.Ok? <==>
              && weather.load
              && (Namespaced(apiKey, agent) in old(rows) || (weather.generated.Some? && weather.insert == Answered && weather.reload))
      ensures r.Ok? ==> Namespaced(apiKey, agent) in rows && r.value == rows[Namespaced(apiKey, agent)]
      ensures r.Ok? ==> r.value.apiKey == apiKey && r.value.agent == agent
      ensures r.Ok? && Namespaced(apiKey, agent) !in InsertAll(old(rows), beforeInsert) ==>
                weather.generated.Some? && r.value.wallet == weather.generated.value
      ensures rows ==
              if !weather.load || Namespaced(apiKey, agent) in old(rows) || weather.generated.None? then old(rows)
              else
                var first := InsertAll(old(rows), beforeInsert);
                if weather.insert == LostBefore then first
                else
                  var second := InsertIfAbsent(first, MakeRow(apiKey, agent, weather.generated.value));
                  if weather.insert == LostAfter then second else InsertAll(second, afterInsert)
    {
      var namespacedId := Namespaced(apiKey, agent);
      if !weather.load {
        return Err(LoadFailed);
      }
      var found := LoadWallet(namespacedId);
      if found.Some? {
        NamespacedInjective(found.value.apiKey, found.value.agent, apiKey, agent);
        return Ok(found.value);
      }
      if weather.generated.None? {
        return Err(GenerateFailed);
      }
      var row := MakeRow(apiKey, agent, weather.generated.value);
      OthersInsert(beforeInsert);
      if weather.insert == LostBefore {
        return Err(InsertFailed);
      }
      InsertOnConflictDoNothing(row);
      if weather.insert == LostAfter {
        return Err(InsertFailed);
      }
      OthersInsert(afterInsert);
      if !weather.reload {
        return Err(ReloadFailed);
      }
      var existing := LoadWallet(namespacedId);
      if existing.Some? {
        NamespacedInjective(existing.value.apiKey, existing.value.agent, apiKey, agent);
        return Ok(existing.value);
      }
      return Ok(row);
    }
  }

  // ---- Any number of callers, interleaved statement by statement --------------------------------

  datatype Phase =
    | Started
    | Missing
    | Generated(row: Row)
    | Stored(row: Row)
    | Done(row: Row, fallback: bool)
    | Failed

  datatype Caller = Caller(apiKey: Uuid, agent: string, phase: Phase) {
    function Id(): string {
      Namespaced(apiKey, agent)
    }
  }

  datatype World = World(rows: Table, callers: seq<Caller>)

  datatype Event =
    | Arrive(apiKey: Uuid, agent: string)
    | Load(c: nat)
    | Generate(c: nat, material: Material)
    | Insert(c: nat)
    | InsertUnanswered(c: nat)
    | Reload(c: nat)
    | Fail(c: nat)

  predicate Enabled(w: World, e: Event) {
    match e
    case Arrive(_, _) => true
    case Load(c) => c < |w.callers| && w.callers[c].phase.Started?
    case Generate(c, _) => c < |w.callers| && w.callers[c].phase.Missing?
    case Insert(c) => c < |w.callers| && w.callers[c].phase.Generated?
    case InsertUnanswered(c) => c < |w.callers| && w.callers[c].phase.Generated?
    case Reload(c) => c < |w.callers| && w.callers[c].phase.Stored?
    case Fail(c) => c < |w.callers| && !w.callers[c].phase.Done? && !w.callers[c].phase.Failed?
  }

  /** The caller an event belongs to moves to this phase. */
  function Moved(w: World, e: Event): Phase
    requires Enabled(w, e) && !e.Arrive?
  {
    var caller := w.callers[e.c];
    match e
    case Load(_) => if caller.Id() in w.rows then Done(w.rows[caller.Id()], false) else Missing
    case Generate(_, material) => Generated(MakeRow(caller.apiKey, caller.agent, material))
    case Insert(_) => Stored(caller.phase.row)
    case InsertUnanswered(_) => Failed
    case Reload(_) => if caller.Id() in w.rows then Done(w.rows[caller.Id()], false) else Done(caller.phase.row, true)
    case Fail(_) => Failed
  }

  function NextRows(w: World, e: Event): Table
    requires Enabled(w, e)
  {
    if e.Insert? || e.InsertUnanswered? then InsertIfAbsent(w.rows, w.callers[e.c].phase.row) else w.rows
  }

  function Next(w: World, e: Event): World
    requires Enabled(w, e)
  {
    World(NextRows(w, e),
          if e.Arrive? then w.callers + [Caller(e.apiKey, e.agent, Started)]
          else w.callers[e.c := w.callers[e.c].(phase := Moved(w, e))])
  }

  predicate ValidRun(w: World, run: seq<Event>)
    decreases |run|
  {
    run != [] ==> Enabled(w, run[0]) && ValidRun(Next(w, run[0]), run[1..])
  }

  function After(w: World, run: seq<Event>): World
    requires ValidRun(w, run)
    decreases |run|
  {
    if run == [] then w else After(Next(w, run[0]), run[1..])
  }

  predicate CallerOk(rows: Table, caller: Caller) {
    match caller.phase
    case Generated(row) => Proper(row) && row.namespacedId == caller.Id()
    case Stored(row) => caller.Id() in rows
    case Done(row, fallback) => !fallback && caller.Id() in rows && rows[caller.Id()] == row
    case _ => true
  }

  predicate Inv(w: World) {
    && TableOk(w.rows)
    && forall c :: 0 <= c < |w.callers| ==> CallerOk(w.rows, w.callers[c])
  }

  /** Callers stay who they are, and one that has its wallet keeps it. */
  predicate Extends(before: World, after: World) {
    && Keeps(before.rows, after.rows)
    && |before.callers| <= |after.callers|
    && forall c :: 0 <= c < |before.callers| ==>
         && after.callers[c].apiKey == before.callers[c].apiKey
         && after.callers[c].agent == before.callers[c].agent
         && (before.callers[c].phase.Done? ==> after.callers[c].phase == before.callers[c].phase)
  }

  lemma StepKeeps(w: World, e: Event)
    requires Inv(w) && Enabled(w, e)
    ensures Inv(Next(w, e)) && Extends(w, Next(w, e))
  {
    var next := Next(w, e);
    forall c | 0 <= c < |next.callers| ensures CallerOk(next.rows, next.callers[c]) {
      if c < |w.callers| {
        assert CallerOk(w.rows, w.callers[c]);
      }
    }
  }

  /** Over every run: rows are only ever added, finished callers keep the stored row of their pair, and
      no caller falls back to the row that it generated itself. */
  lemma {:induction false} RunKeeps(w: World, run: seq<Event>)
    requires Inv(w) && ValidRun(w, run)
    ensures Inv(After(w, run)) && Extends(w, After(w, run))
    decreases |run|
  {
    if run != [] {
      StepKeeps(w, run[0]);
      RunKeeps(Next(w, run[0]), run[1..]);
    }
  }

  predicate Finished(w: World, c: nat) {
    c < |w.callers| && w.callers[c].phase.Done?
  }

  /** A caller finished after some run and a caller finished after a longer one hold the same wallet
      exactly when they ask for the same pair, and that wallet is the table's for good. */
  lemma CallersConverge(w: World, run: seq<Event>, more: seq<Event>, i: nat, j: nat)
    requires Inv(w) && ValidRun(w, run) && ValidRun(After(w, run), more)
    requires Finished(After(w, run), i) && Finished(After(After(w, run), more), j)
    ensures var middle, last := After(w, run), After(After(w, run), more);
            var one, other := middle.callers[i], last.callers[j];
            && (one.phase.row == other.phase.row <==> one.apiKey == other.apiKey && one.agent == other.agent)
            && !one.phase.fallback && !other.phase.fallback
            && one.Id() in last.rows && last.rows[one.Id()] == one.phase.row
            && other.Id() in last.rows && last.rows[other.Id()] == other.phase.row
  {
    RunKeeps(w, run);
    RunKeeps(After(w, run), more);
    var last := After(After(w, run), more);
    var one, other := After(w, run).callers[i], last.callers[j];
    assert CallerOk(last.rows, other) && CallerOk(After(w, run).rows, one);
    NamespacedInjective(one.apiKey, one.agent, other.apiKey, other.agent);
  }

  lemma StepThen(w: World, e: Event, rest: seq<Event>)
    requires Enabled(w, e) && ValidRun(Next(w, e), rest)
    ensures ValidRun(w, [e] + rest) && After(w, [e] + rest) == After(Next(w, e), rest)
  {
    assert ([e] + rest)[1..] == rest;
  }

  /** A first call that nobody disturbs is a run: it stores the wallet it generated and returns it, as
      `WalletTable.GetOrCreate` does. */
  lemma FirstCallIsRun(w: World, c: nat, material: Material)
    requires c < |w.callers| && w.callers[c].phase.Started? && w.callers[c].Id() !in w.rows
    ensures var run := [Load(c)] + ([Generate(c, material)] + ([Insert(c)] + ([Reload(c)] + [])));
            var row := MakeRow(w.callers[c].apiKey, w.callers[c].agent, material);
            && ValidRun(w, run)
            && After(w, run).rows == InsertIfAbsent(w.rows, row)
            && After(w, run).callers == w.callers[c := w.callers[c].(phase := Done(row, false))]
            && row.wallet == material && row.apiKey == w.callers[c].apiKey && row.agent == w.callers[c].agent
            && After(w, run).rows == w.rows[w.callers[c].Id() := row]
  {
    var loaded := Next(w, Load(c));
    var generated := Next(loaded, Generate(c, material));
    var stored := Next(generated, Insert(c));
    StepThen(stored, Reload(c), []);
    StepThen(generated, Insert(c), [Reload(c)] + []);
    StepThen(loaded, Generate(c, material), [Insert(c)] + ([Reload(c)] + []));
    StepThen(w, Load(c), [Generate(c, material)] + ([Insert(c)] + ([Reload(c)] + [])));
  }

  /** Statements a caller may still execute. */
  function Left(caller: Caller): nat {
    match caller.phase
    case Started => 4
    case Missing => 3
    case Generated(_) => 2
    case Stored(_) => 1
    case _ => 0
  }

  function LeftAt(w: World, c: nat): nat {
    if c < |w.callers| then Left(w.callers[c]) else 4
  }

  /** The statements of a run that caller c executes. */
  function StatementsOf(run: seq<Event>, c: nat): nat {
    if run == [] then 0 else (if !run[0].Arrive? && run[0].c == c then 1 else 0) + StatementsOf(run[1..], c)
  }

  lemma {:induction false} LeftAfter(w: World, run: seq<Event>, c: nat)
    requires ValidRun(w, run)
    ensures StatementsOf(run, c) + LeftAt(After(w, run), c) <= LeftAt(w, c)
    decreases |run|
  {
    if run != [] {
      LeftAfter(Next(w, run[0]), run[1..], c);
    }
  }

  /** No schedule makes any caller execute more than four statements. */
  lemma CallsAreShort(w: World, run: seq<Event>, c: nat)
    requires ValidRun(w, run)
    ensures StatementsOf(run, c) <= 4
  {
    LeftAfter(w, run, c);
  }

  /** Without faults a caller that has not finished can always go on, so a run that cannot be continued
      has given every caller its wallet. */
  lemma StuckMeansServed(w: World, run: seq<Event>, material: Material)
    requires Inv(w) && w.callers == [] && ValidRun(w, run)
    requires forall k :: 0 <= k < |run| ==> !run[k].Fail? && !run[k].InsertUnanswered?
    requires forall c: nat :: !Enabled(After(w, run), Load(c)) && !Enabled(After(w, run), Generate(c, material))
    requires forall c: nat :: !Enabled(After(w, run), Insert(c)) && !Enabled(After(w, run), Reload(c))
    ensures forall c: nat :: c < |After(w, run).callers| ==> Finished(After(w, run), c)
  {
    NoFaultNoFailure(w, run);
    var last := After(w, run);
    forall c: nat | c < |last.callers| ensures Finished(last, c) {
      assert !Enabled(last, Load(c)) && !Enabled(last, Generate(c, material));
      assert !Enabled(last, Insert(c)) && !Enabled(last, Reload(c));
    }
  }

  lemma {:induction false} NoFaultNoFailure(w: World, run: seq<Event>)
    requires ValidRun(w, run)
    requires forall k :: 0 <= k < |run| ==> !run[k].Fail? && !run[k].InsertUnanswered?
    requires forall c :: 0 <= c < |w.callers| ==> !w.callers[c].phase.Failed?
    ensures forall c :: 0 <= c < |After(w, run).callers| ==> !After(w, run).callers[c].phase.Failed?
    decreases |run|
  {
    if run != [] {
      var next := Next(w, run[0]);
      assert forall c :: 0 <= c < |next.callers| ==> !next.callers[c].phase.Failed?;
      NoFaultNoFailure(next, run[1..]);
    }
  }
}
