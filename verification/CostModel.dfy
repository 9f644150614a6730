/**
  Cost rollups: the in-memory fold over event rows and the persisted projector. Amounts are
  exact reals and counters unbounded integers.
 */
module CostModel {

  datatype Usage = Usage(input: int, output: int, cacheRead: int, cacheWrite: int, reasoning: int)

  datatype Totals = Totals(cost: real, usage: Usage, turns: int)

  const ZERO: Totals := Totals(0.0, Usage(0, 0, 0, 0, 0), 0)

  function AddUsage(a: Usage, b: Usage): Usage {
    Usage(a.input + b.input, a.output + b.output, a.cacheRead + b.cacheRead, a.cacheWrite + b.cacheWrite,
          a.reasoning + b.reasoning)
  }

  function Plus(a: Totals, b: Totals): Totals {
    Totals(a.cost + b.cost, AddUsage(a.usage, b.usage), a.turns + b.turns)
  }

  /** `Bad` kinds carry a payload that does not decode; `text` is what the database reads as its model. */
  datatype Kind =
    | Started(turn: string, model: string)
    | Ended(turn: string, cost: real, usage: Usage)
    | BadStarted(text: string)
    | BadEnded
    | Other

  datatype EventRow = EventRow(gid: int, at: int, tenant: string, session: string, kind: Kind)

  datatype SessionKey = SessionKey(tenant: string, session: string)

  function KeyOf(r: EventRow): SessionKey {
    SessionKey(r.tenant, r.session)
  }

  function Cost(r: EventRow): Totals {
    if r.kind.Ended? then Totals(r.kind.cost, r.kind.usage, 1) else ZERO
  }

  function Get<K>(m: map<K, Totals>, k: K): Totals {
    if k in m then m[k] else ZERO
  }

  // ---- The fold ----

  /** The fold over the first n rows; false when it stopped at a row that does not decode. */
  function Rollup(start: map<SessionKey, Totals>, rows: seq<EventRow>, n: nat): (map<SessionKey, Totals>, bool)
    requires n <= |rows|
  {
    if n == 0 then (start, true) else
    var (totals, ok) := Rollup(start, rows, n - 1);
    var r := rows[n - 1];
    if !ok || r.kind.BadEnded? then (totals, false)
    else if r.kind.Ended? then (totals[KeyOf(r) := Plus(Get(totals, KeyOf(r)), Cost(r))], true)
    else (totals, true)
  }

  /** The accumulator the caller passes in and keeps. */
  class Rollups {
    var totals: map<SessionKey, Totals>

    constructor ()
      ensures totals == map[]
    {
      totals := map[];
    }
  }

  /** Folds into the caller's accumulator in place and returns it; into a new one when there is none. */
  method RollupFold(given: Rollups?, rows: seq<EventRow>) returns (acc: Rollups, ok: bool)
    modifies given
    ensures given != null ==> acc == given
    ensures given == null ==> fresh(acc)
    ensures (acc.totals, ok) == Rollup(if given == null then map[] else old(given.totals), rows, |rows|)
  {
    if given == null {
      acc := new Rollups();
    } else {
      acc := given;
    }
    ghost var start := acc.totals;
    for i := 0 to |rows|
      invariant (acc.totals, true) == Rollup(start, rows, i)
    {
      var r := rows[i];
      if r.kind.BadEnded? {
        StaysStopped(start, rows, i + 1, |rows|);
        return acc, false;
      }
      if r.kind.Ended? {
        var t := if KeyOf(r) in acc.totals then acc.totals[KeyOf(r)] else ZERO;
        t := Totals(t.cost + r.kind.cost, AddUsage(t.usage, r.kind.usage), t.turns + 1);
        acc.totals := acc.totals[KeyOf(r) := t];
      }
    }
    ok := true;
  }

  lemma {:induction false} StaysStopped(start: map<SessionKey, Totals>, rows: seq<EventRow>, n: nat, m: nat)
    requires n <= m <= |rows| && !Rollup(start, rows, n).1
    ensures Rollup(start, rows, m) == Rollup(start, rows, n)
  {
    if n < m {
      StaysStopped(start, rows, n, m - 1);
    }
  }

  /** The sum over the first n rows of what each contributes to session k. */
  function Total(rows: seq<EventRow>, n: nat, k: SessionKey): Totals
    requires n <= |rows|
  {
    if n == 0 then ZERO else
    Plus(Total(rows, n - 1, k), if KeyOf(rows[n - 1]) == k then Cost(rows[n - 1]) else ZERO)
  }

  predicate Terminates(rows: seq<EventRow>, n: nat, k: SessionKey)
    requires n <= |rows|
  {
    exists j | 0 <= j < n :: rows[j].kind.Ended? && KeyOf(rows[j]) == k
  }

  lemma {:induction false} RollupSucceeds(start: map<SessionKey, Totals>, rows: seq<EventRow>, n: nat)
    requires n <= |rows|
    ensures Rollup(start, rows, n).1 <==> forall j | 0 <= j < n :: !rows[j].kind.BadEnded?
  {
    if n > 0 {
      RollupSucceeds(start, rows, n - 1);
    }
  }

  lemma {:induction false} RollupAt(start: map<SessionKey, Totals>, rows: seq<EventRow>, n: nat, k: SessionKey)
    requires n <= |rows| && Rollup(start, rows, n).1
    ensures Get(Rollup(start, rows, n).0, k) == Plus(Get(start, k), Total(rows, n, k))
    ensures k in Rollup(start, rows, n).0 <==> k in start || Terminates(rows, n, k)
  {
    hide Plus;
    if n > 0 {
      RollupAt(start, rows, n - 1, k);
      var r := rows[n - 1];
      PlusAssoc(Get(start, k), Total(rows, n - 1, k), if KeyOf(r) == k then Cost(r) else ZERO);
      TerminatesNext(rows, n - 1, k);
      PlusAssoc(Get(start, k), ZERO, ZERO);
      PlusAssoc(Total(rows, n - 1, k), ZERO, ZERO);
    } else {
      PlusAssoc(Get(start, k), ZERO, ZERO);
    }
  }

  lemma TerminatesNext(rows: seq<EventRow>, n: nat, k: SessionKey)
    requires n < |rows|
    ensures Terminates(rows, n + 1, k) <==> Terminates(rows, n, k) || (rows[n].kind.Ended? && KeyOf(rows[n]) == k)
  {
  }

  /**
    The fold succeeds exactly when every terminal row decodes; then it has added to each
    session the sum of its rows, and holds an entry for exactly the sessions it started with
    and those with a terminal row.
   */
  lemma RollupIsTotal(start: map<SessionKey, Totals>, rows: seq<EventRow>, k: SessionKey)
    ensures var (totals, ok) := Rollup(start, rows, |rows|);
            && (ok <==> forall j | 0 <= j < |rows| :: !rows[j].kind.BadEnded?)
            && (ok ==> Get(totals, k) == Plus(Get(start, k), Total(rows, |rows|, k)))
            && (ok ==> (k in totals <==> k in start || Terminates(rows, |rows|, k)))
  {
    RollupSucceeds(start, rows, |rows|);
    if Rollup(start, rows, |rows|).1 {
      RollupAt(start, rows, |rows|, k);
    }
  }

  lemma PlusAssoc(a: Totals, b: Totals, c: Totals)
    ensures Plus(Plus(a, b), c) == Plus(a, Plus(b, c)) && Plus(a, ZERO) == a && Plus(a, b) == Plus(b, a)
  {
  }

  // ---- The projector ----

  type TurnKey = (string, string)

  datatype Entry = Entry(gid: int, tenant: string, session: string, cost: real, usage: Usage)

  datatype CostRow = CostRow(entry: Entry, model: string)

  /** Row ids whose database calls go wrong: the insert fails, the model lookup fails, the insert lands but reports failure. */
  datatype Faults = Faults(inserts: set<int>, lookups: set<int>, acks: set<int>)

  type Memory = map<TurnKey, string>

  function EntryOf(r: EventRow): Entry
    requires r.kind.Ended?
  {
    Entry(r.gid, r.tenant, r.session, r.kind.cost, r.kind.usage)
  }

  /** Pass 1 over the first n rows of a batch. */
  function Record(mem: Memory, rows: seq<EventRow>, n: nat): (Memory, bool)
    requires n <= |rows|
  {
    if n == 0 then (mem, true) else
    var (m, ok) := Record(mem, rows, n - 1);
    var r := rows[n - 1];
    if !ok || r.kind.BadStarted? then (m, false)
    else if r.kind.Started? then (m[(r.session, r.kind.turn) := r.kind.model], true)
    else (m, true)
  }

  predicate IsStart(r: EventRow) {
    r.kind.Started? || r.kind.BadStarted?
  }

  /** The start of the session with the highest sequence number below `before`, among the first n events; -1 when none. */
  function LatestBelow(events: seq<EventRow>, n: nat, session: string, before: int): (b: int)
    requires n <= |events|
    ensures -1 <= b < n
    ensures b >= 0 ==> events[b].session == session && IsStart(events[b]) && events[b].at < before
    ensures forall j | 0 <= j < n && events[j].session == session && IsStart(events[j]) && events[j].at < before ::
              b >= 0 && events[j].at <= events[b].at
  {
    if n == 0 then -1 else
    var b, r := LatestBelow(events, n - 1, session, before), events[n - 1];
    if r.session == session && IsStart(r) && r.at < before && (b < 0 || events[b].at < r.at) then n - 1 else b
  }

  function Lookup(events: seq<EventRow>, session: string, before: int): string {
    var b := LatestBelow(events, |events|, session, before);
    if b < 0 then "" else if events[b].kind.Started? then events[b].kind.model else events[b].kind.text
  }

  /** What the query returns when row b alone has the highest sequence number among the session's starts below the bound. */
  lemma LookupMeans(events: seq<EventRow>, session: string, before: int, b: nat)
    requires b < |events| && events[b].session == session && IsStart(events[b]) && events[b].at < before
    requires forall j | 0 <= j < |events| && j != b && events[j].session == session && IsStart(events[j]) && events[j].at < before ::
               events[j].at < events[b].at
    ensures match events[b].kind
            case Started(_, model) => Lookup(events, session, before) == model
            case BadStarted(text) => Lookup(events, session, before) == text
            case _ => false
  {
    hide LatestBelow;
    var c := LatestBelow(events, |events|, session, before);
    assert c >= 0 && events[b].at <= events[c].at;
  }

  lemma LookupFindsNone(events: seq<EventRow>, session: string, before: int)
    requires forall j | 0 <= j < |events| && events[j].session == session && IsStart(events[j]) :: events[j].at >= before
    ensures Lookup(events, session, before) == ""
  {
    hide LatestBelow;
  }

  function Resolve(events: seq<EventRow>, mem: Memory, r: EventRow, turn: string, faults: Faults): string {
    if (r.session, turn) in mem then mem[(r.session, turn)]
    else if r.gid in faults.lookups then ""
    else Lookup(events, r.session, r.at)
  }

  predicate Contains(table: seq<CostRow>, gid: int) {
    exists i | 0 <= i < |table| :: table[i].entry.gid == gid
  }

  /** Insert unless the row id is taken. */
  function Insert(table: seq<CostRow>, row: CostRow): seq<CostRow> {
    if Contains(table, row.entry.gid) then table else table + [row]
  }

  datatype Outcome = Outcome(mem: Memory, table: seq<CostRow>, ok: bool)

  /** Pass 2 from row i of a batch. */
  function Write(events: seq<EventRow>, mem: Memory, table: seq<CostRow>, rows: seq<EventRow>, i: nat, faults: Faults): Outcome
    requires i <= |rows|
    decreases |rows| - i
  {
    if i == |rows| then Outcome(mem, table, true) else
    var r := rows[i];
    if r.kind.BadEnded? then Outcome(mem, table, false)
    else if !r.kind.Ended? then Write(events, mem, table, rows, i + 1, faults)
    else if r.gid in faults.inserts then Outcome(mem, table, false)
    else
      var table' := Insert(table, CostRow(EntryOf(r), Resolve(events, mem, r, r.kind.turn, faults)));
      if r.gid in faults.acks then Outcome(mem, table', false)
      else Write(events, mem - {(r.session, r.kind.turn)}, table', rows, i + 1, faults)
  }

  function Project(events: seq<EventRow>, mem: Memory, table: seq<CostRow>, rows: seq<EventRow>, faults: Faults): Outcome {
    var (recorded, ok) := Record(mem, rows, |rows|);
    if ok then Write(events, recorded, table, rows, 0, faults) else Outcome(recorded, table, false)
  }
}

module CostProjection {
  import opened CostModel

  /** The database as the projector sees it. */
  class CostDb {
    const events: seq<EventRow>
    var table: seq<CostRow>

    constructor (events: seq<EventRow>, table: seq<CostRow>)
      ensures this.events == events && this.table == table
    {
      this.events, this.table := events, table;
    }

    method ExecInsert(row: CostRow, faults: Faults) returns (ok: bool)
      modifies this
      ensures ok <==> row.entry.gid !in faults.inserts && row.entry.gid !in faults.acks
      ensures table == if row.entry.gid in faults.inserts then old(table) else Insert(old(table), row)
    {
      if row.entry.gid in faults.inserts {
        return false;
      }
      if forall i | 0 <= i < |table| :: table[i].entry.gid != row.entry.gid {
        table := table + [row];
      }
      ok := row.entry.gid !in faults.acks;
    }
  }

  class CostProjector {
    const db: CostDb
    var modelByTurn: Memory

    constructor (db: CostDb)
      ensures this.db == db && modelByTurn == map[]
    {
      this.db := db;
      modelByTurn := map[];
    }

    method ProjectRows(rows: seq<EventRow>, faults: Faults) returns (ok: bool)
      modifies this, db
      ensures Outcome(modelByTurn, db.table, ok) == Project(db.events, old(modelByTurn), old(db.table), rows, faults)
    {
      for i := 0 to |rows|
        invariant (modelByTurn, true) == Record(old(modelByTurn), rows, i) && db.table == old(db.table)
      {
        var r := rows[i];
        if r.kind.BadStarted? {
          RecordStopped(old(modelByTurn), rows, i + 1, |rows|);
          return false;
        }
        if r.kind.Started? {
          modelByTurn := modelByTurn[(r.session, r.kind.turn) := r.kind.model];
        }
      }
      ghost var recorded := modelByTurn;
      for i := 0 to |rows|
        invariant Write(db.events, modelByTurn, db.table, rows, i, faults)
                  == Write(db.events, recorded, old(db.table), rows, 0, faults)
      {
        var r := rows[i];
        if r.kind.BadEnded? {
          return false;
        }
        if r.kind.Ended? {
          var model := ResolveModel(r, r.kind.turn, faults);
          var written := db.ExecInsert(CostRow(EntryOf(r), model), faults);
          if !written {
            return false;
          }
          modelByTurn := modelByTurn - {(r.session, r.kind.turn)};
        }
      }
      ok := true;
    }

    method ResolveModel(r: EventRow, turn: string, faults: Faults) returns (model: string)
      ensures model == Resolve(db.events, modelByTurn, r, turn, faults)
    {
      if (r.session, turn) in modelByTurn {
        return modelByTurn[(r.session, turn)];
      }
      if r.gid in faults.lookups {
        return "";
      }
      model := Lookup(db.events, r.session, r.at);
    }
  }

  lemma {:induction false} RecordStopped(mem: Memory, rows: seq<EventRow>, n: nat, m: nat)
    requires n <= m <= |rows| && !Record(mem, rows, n).1
    ensures Record(mem, rows, m) == Record(mem, rows, n)
  {
    if n < m {
      RecordStopped(mem, rows, n, m - 1);
    }
  }
}
