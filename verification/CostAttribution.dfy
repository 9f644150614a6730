/**
  Which model a persisted cost row is attributed to. The projector answers from its
  in-flight map or from a lookup that does not filter on the turn; the reference is the
  direct join on (session, turn).
 */
module CostAttribution {
  import opened CostModel
  import opened CostRuns

  /** Within a session the log follows the sequence numbers. */
  ghost predicate InSequence(log: seq<EventRow>) {
    forall i, j | 0 <= i < j < |log| && log[i].session == log[j].session :: log[i].at < log[j].at
  }

  predicate StartsTurn(r: EventRow, k: TurnKey) {
    r.kind.Started? && (r.session, r.kind.turn) == k
  }

  predicate EndsTurn(r: EventRow, k: TurnKey) {
    r.kind.Ended? && (r.session, r.kind.turn) == k
  }

  /** The last model started for the turn, "" when there is none. */
  function Join(log: seq<EventRow>, n: nat, k: TurnKey): string
    requires n <= |log|
  {
    if n == 0 then "" else if StartsTurn(log[n - 1], k) then log[n - 1].kind.model else Join(log, n - 1, k)
  }

  function TurnOf(r: EventRow): TurnKey
    requires r.kind.Ended?
  {
    (r.session, r.kind.turn)
  }

  /** Row s can be what the in-flight map holds for the turn that row j ends. */
  ghost predicate Fast(log: seq<EventRow>, j: nat, s: nat)
    requires j < |log| && log[j].kind.Ended?
  {
    && s < |log| && StartsTurn(log[s], TurnOf(log[j]))
    && forall t | s < t < j :: !StartsTurn(log[t], TurnOf(log[j])) && !EndsTurn(log[t], TurnOf(log[j]))
  }

  ghost predicate Candidate(log: seq<EventRow>, j: nat, m: string) {
    && j < |log| && log[j].kind.Ended?
    && (m == Lookup(log, log[j].session, log[j].at) || exists s: nat :: Fast(log, j, s) && log[s].kind.model == m)
  }

  // ---- Every written model is a candidate ----

  /** Row s accounts for `m` being in flight for turn k at position p of a batch that ends at e. */
  ghost predicate From(log: seq<EventRow>, k: TurnKey, m: string, s: nat, p: nat, e: nat)
    requires p <= |log| && e <= |log|
  {
    && s < |log| && StartsTurn(log[s], k) && log[s].kind.model == m
    && (forall t | s < t < e :: !StartsTurn(log[t], k))
    && (forall t | s < t < p :: !EndsTurn(log[t], k))
  }

  ghost predicate MemAt(log: seq<EventRow>, mem: Memory, p: nat, e: nat) {
    p <= |log| && e <= |log| && forall k | k in mem :: exists s: nat :: From(log, k, mem[k], s, p, e)
  }

  lemma MemWeakens(log: seq<EventRow>, mem: Memory, p: nat, e: nat, p': nat, e': nat)
    requires MemAt(log, mem, p, e) && p' <= p && e' <= e
    ensures MemAt(log, mem, p', e')
  {
    forall k | k in mem
      ensures exists s: nat :: From(log, k, mem[k], s, p', e')
    {
      var s: nat :| From(log, k, mem[k], s, p, e);
      assert From(log, k, mem[k], s, p', e');
    }
  }

  lemma RecordRow(log: seq<EventRow>, mem: Memory, p: nat, e: nat)
    requires MemAt(log, mem, p, e) && p <= e < |log|
    ensures log[e].kind.Started? ==> MemAt(log, mem[(log[e].session, log[e].kind.turn) := log[e].kind.model], p, e + 1)
    ensures !log[e].kind.Started? ==> MemAt(log, mem, p, e + 1)
  {
    var r := log[e];
    var mem' := if r.kind.Started? then mem[(r.session, r.kind.turn) := r.kind.model] else mem;
    var next := e + 1;
    forall k | k in mem'
      ensures exists s: nat :: From(log, k, mem'[k], s, p, next)
    {
      if StartsTurn(r, k) {
        assert From(log, k, mem'[k], e, p, next);
      } else {
        var s: nat :| From(log, k, mem[k], s, p, e);
        assert From(log, k, mem'[k], s, p, next);
      }
    }
  }

  lemma {:induction false} RecordMem(log: seq<EventRow>, mem: Memory, c: nat, rows: seq<EventRow>, n: nat)
    requires MemAt(log, mem, c, c) && Batch(log, c, rows) && n <= |rows|
    ensures var (m, ok) := Record(mem, rows, n); MemAt(log, m, c, c) && (ok ==> MemAt(log, m, c, c + n))
  {
    hide MemAt;
    if n > 0 {
      RecordMem(log, mem, c, rows, n - 1);
      var (m, ok) := Record(mem, rows, n - 1);
      assert rows[n - 1] == log[c + n - 1];
      if ok {
        RecordRow(log, m, c, c + n - 1);
        var (m', ok') := Record(mem, rows, n);
        if ok' {
          MemWeakens(log, m', c, c + n, c, c);
        }
      }
    }
  }

  lemma PassRow(log: seq<EventRow>, mem: Memory, p: nat, e: nat)
    requires MemAt(log, mem, p, e) && p < |log|
    ensures log[p].kind.Ended? ==> MemAt(log, mem - {TurnOf(log[p])}, p + 1, e)
    ensures !log[p].kind.Ended? ==> MemAt(log, mem, p + 1, e)
  {
    var r := log[p];
    var mem' := if r.kind.Ended? then mem - {TurnOf(r)} else mem;
    var next := p + 1;
    forall k | k in mem'
      ensures exists s: nat :: From(log, k, mem'[k], s, next, e)
    {
      var s: nat :| From(log, k, mem[k], s, p, e);
      assert From(log, k, mem'[k], s, next, e);
    }
  }

  /** A candidate, or the unknown model where the lookup may fail. */
  ghost predicate Possible(log: seq<EventRow>, j: nat, m: string, failing: set<int>) {
    Candidate(log, j, m) || (j < |log| && log[j].kind.Ended? && log[j].gid in failing && m == "")
  }

  lemma ResolveIsPossible(log: seq<EventRow>, mem: Memory, j: nat, e: nat, faults: Faults, failing: set<int>)
    requires MemAt(log, mem, j, e) && j < |log| && j <= e && log[j].kind.Ended? && faults.lookups <= failing
    ensures Possible(log, j, Resolve(log, mem, log[j], log[j].kind.turn, faults), failing)
  {
    hide Lookup;
    var k := TurnOf(log[j]);
    if k in mem {
      var s: nat :| From(log, k, mem[k], s, j, e);
      assert Fast(log, j, s);
    }
  }

  ghost predicate Attributed(log: seq<EventRow>, row: CostRow, j: nat, failing: set<int>) {
    j < |log| && log[j].kind.Ended? && row.entry == EntryOf(log[j]) && Possible(log, j, row.model, failing)
  }

  ghost predicate Sourced(log: seq<EventRow>, row: CostRow, failing: set<int>) {
    exists j: nat :: Attributed(log, row, j, failing)
  }

  ghost predicate ModelsOk(log: seq<EventRow>, table: seq<CostRow>, failing: set<int>) {
    forall i | 0 <= i < |table| :: Sourced(log, table[i], failing)
  }

  lemma ModelsGrow(log: seq<EventRow>, table: seq<CostRow>, row: CostRow, j: nat, failing: set<int>)
    requires ModelsOk(log, table, failing) && Attributed(log, row, j, failing)
    ensures ModelsOk(log, Insert(table, row), failing)
  {
    hide Attributed, Contains;
    forall i | 0 <= i < |Insert(table, row)|
      ensures Sourced(log, Insert(table, row)[i], failing)
    {
      if i < |table| {
        assert Insert(table, row)[i] == table[i];
      } else {
        assert Insert(table, row)[i] == row;
      }
    }
  }

  lemma {:induction false} WriteModels(log: seq<EventRow>, mem: Memory, table: seq<CostRow>, c: nat, rows: seq<EventRow>,
                                       i: nat, faults: Faults, failing: set<int>)
    requires Batch(log, c, rows) && i <= |rows| && MemAt(log, mem, c + i, c + |rows|) && ModelsOk(log, table, failing)
    requires faults.lookups <= failing
    ensures var o := Write(log, mem, table, rows, i, faults);
            && ModelsOk(log, o.table, failing) && MemAt(log, o.mem, c, c)
            && (o.ok ==> MemAt(log, o.mem, c + |rows|, c + |rows|))
    decreases |rows| - i
  {
    hide MemAt, ModelsOk, Resolve, Insert, Possible;
    MemWeakens(log, mem, c + i, c + |rows|, c, c);
    if i < |rows| {
      assert rows[i] == log[c + i];
      var r := rows[i];
      PassRow(log, mem, c + i, c + |rows|);
      if r.kind.Ended? && r.gid !in faults.inserts {
        var row := CostRow(EntryOf(r), Resolve(log, mem, r, r.kind.turn, faults));
        ResolveIsPossible(log, mem, c + i, c + |rows|, faults, failing);
        assert Attributed(log, row, c + i, failing);
        ModelsGrow(log, table, row, c + i, failing);
        if r.gid !in faults.acks {
          WriteModels(log, mem - {TurnOf(r)}, Insert(table, row), c, rows, i + 1, faults, failing);
        }
      } else if !r.kind.Ended? && !r.kind.BadEnded? {
        WriteModels(log, mem, table, c, rows, i + 1, faults, failing);
      }
    }
  }

  lemma {:induction false} LookupFrame(log: seq<EventRow>, more: seq<EventRow>, n: nat, session: string, before: int)
    requires n <= |more|
    requires forall j | 0 <= j < |more| && more[j].session == session :: more[j].at >= before
    ensures LatestBelow(log + more, |log| + n, session, before) == LatestBelow(log, |log|, session, before)
  {
    if n > 0 {
      LookupFrame(log, more, n - 1, session, before);
      assert (log + more)[|log| + n - 1] == more[n - 1];
    } else {
      LookupPrefix(log, more, |log|, session, before);
    }
  }

  lemma {:induction false} LookupPrefix(log: seq<EventRow>, more: seq<EventRow>, n: nat, session: string, before: int)
    requires n <= |log|
    ensures LatestBelow(log + more, n, session, before) == LatestBelow(log, n, session, before)
  {
    if n > 0 {
      LookupPrefix(log, more, n - 1, session, before);
    }
  }

  lemma PossibleFrame(log: seq<EventRow>, more: seq<EventRow>, j: nat, m: string, failing: set<int>)
    requires InSequence(log + more) && Possible(log, j, m, failing)
    ensures Possible(log + more, j, m, failing)
  {
    hide InSequence, Candidate;
    if Candidate(log, j, m) {
      CandidateFrame(log, more, j, m);
    }
  }

  lemma CandidateFrame(log: seq<EventRow>, more: seq<EventRow>, j: nat, m: string)
    requires InSequence(log + more) && Candidate(log, j, m)
    ensures Candidate(log + more, j, m)
  {
    hide LatestBelow;
    var r := log[j];
    forall i | 0 <= i < |more| && more[i].session == r.session
      ensures more[i].at >= r.at
    {
      assert (log + more)[j] == r && (log + more)[|log| + i] == more[i];
    }
    LookupFrame(log, more, |more|, r.session, r.at);
    if m != Lookup(log, r.session, r.at) {
      var s: nat :| Fast(log, j, s) && log[s].kind.model == m;
      assert Fast(log + more, j, s);
    }
  }

  lemma ModelsFrame(log: seq<EventRow>, more: seq<EventRow>, table: seq<CostRow>, failing: set<int>)
    requires InSequence(log + more) && ModelsOk(log, table, failing)
    ensures ModelsOk(log + more, table, failing)
  {
    hide InSequence, Possible;
    forall i | 0 <= i < |table|
      ensures Sourced(log + more, table[i], failing)
    {
      assert Sourced(log, table[i], failing);
      var j: nat :| Attributed(log, table[i], j, failing);
      PossibleFrame(log, more, j, table[i].model, failing);
      assert Attributed(log + more, table[i], j, failing);
    }
  }

  lemma MemFrame(log: seq<EventRow>, more: seq<EventRow>, mem: Memory, p: nat, e: nat)
    requires MemAt(log, mem, p, e)
    ensures MemAt(log + more, mem, p, e)
  {
    forall k | k in mem
      ensures exists s: nat :: From(log + more, k, mem[k], s, p, e)
    {
      var s: nat :| From(log, k, mem[k], s, p, e);
      assert From(log + more, k, mem[k], s, p, e);
    }
  }

  /** No lookup fails but for these rows. */
  ghost predicate FailingOnly(steps: seq<Step>, failing: set<int>) {
    forall i | 0 <= i < |steps| && steps[i].Poll? :: steps[i].faults.lookups <= failing
  }

  ghost predicate LookupsWork(steps: seq<Step>) {
    FailingOnly(steps, {})
  }

  ghost predicate Inv(w: World, failing: set<int>) {
    ModelsOk(w.log, w.table, failing) && MemAt(w.log, w.mem, w.cursor, w.cursor)
  }

  lemma PollModels(w: World, n: nat, faults: Faults, saved: bool, failing: set<int>)
    requires Inv(w, failing) && w.cursor + n <= |w.log| && faults.lookups <= failing
    ensures Inv(Exec(w, Poll(n, faults, saved)), failing)
  {
    hide MemAt, ModelsOk, Write, Record;
    var rows := w.log[w.cursor..w.cursor + n];
    RecordMem(w.log, w.mem, w.cursor, rows, |rows|);
    var (recorded, ok) := Record(w.mem, rows, |rows|);
    if ok {
      WriteModels(w.log, recorded, w.table, w.cursor, rows, 0, faults, failing);
    }
  }

  lemma EmptyMem(log: seq<EventRow>, p: nat)
    requires p <= |log|
    ensures MemAt(log, map[], p, p)
  {
  }

  lemma MemInLog(log: seq<EventRow>, mem: Memory, p: nat)
    requires MemAt(log, mem, p, p)
    ensures p <= |log|
  {
  }

  lemma SequenceBefore(log: seq<EventRow>, more: seq<EventRow>)
    ensures log <= more && InSequence(more) ==> InSequence(log)
  {
    if log <= more && InSequence(more) {
      assert forall i | 0 <= i < |log| :: log[i] == more[i];
    }
  }

  lemma {:induction false} RunModels(steps: seq<Step>, n: nat, failing: set<int>)
    requires n <= |steps| && FailingOnly(steps, failing) && InSequence(Run(steps, n).log)
    ensures Inv(Run(steps, n), failing)
  {
    hide MemAt, ModelsOk, InSequence, Project;
    if n > 0 {
      SequenceBefore(Run(steps, n - 1).log, Run(steps, n).log);
      RunModels(steps, n - 1, failing);
      var w, step := Run(steps, n - 1), steps[n - 1];
      MemInLog(w.log, w.mem, w.cursor);
      match step
      case Grow(rows) =>
        ModelsFrame(w.log, rows, w.table, failing);
        MemFrame(w.log, rows, w.mem, w.cursor, w.cursor);
      case Poll(k, faults, saved) => if w.cursor + k <= |w.log| { PollModels(w, k, faults, saved, failing); }
      case Restart(at) => if at <= w.cursor { EmptyMem(w.log, at); }
    } else {
      EmptyMem([], 0);
      NoModels([], failing);
    }
  }

  lemma NoModels(log: seq<EventRow>, failing: set<int>)
    ensures ModelsOk(log, [], failing)
  {
  }

  /** A run over exactly this log, whose lookups fail for these rows only, attributes the turn that row j ends to m. */
  ghost predicate ReportsWith(steps: seq<Step>, log: seq<EventRow>, j: nat, m: string, failing: set<int>)
    requires j < |log| && log[j].kind.Ended?
  {
    && Legal(steps) && FailingOnly(steps, failing) && Run(steps, |steps|).log == log
    && CostRow(EntryOf(log[j]), m) in Run(steps, |steps|).table
  }

  ghost predicate Reports(steps: seq<Step>, log: seq<EventRow>, j: nat, m: string)
    requires j < |log| && log[j].kind.Ended?
  {
    ReportsWith(steps, log, j, m, {})
  }

  /** Whatever fails, every run attributes every terminal row to a candidate, or to the unknown model if its lookup may fail. */
  lemma ReportIsPossible(steps: seq<Step>, log: seq<EventRow>, j: nat, m: string, failing: set<int>)
    requires InSequence(log) && j < |log| && log[j].kind.Ended? && ReportsWith(steps, log, j, m, failing)
    ensures Possible(log, j, m, failing)
  {
    hide Run, Possible, InSequence, DistinctIds;
    RunModels(steps, |steps|, failing);
    var w, row := Run(steps, |steps|), CostRow(EntryOf(log[j]), m);
    var i :| 0 <= i < |w.table| && w.table[i] == row;
    assert Sourced(log, w.table[i], failing);
    var j': nat :| Attributed(log, w.table[i], j', failing);
    assert LegalAt(steps, |steps|);
    SameRow(log, j, j');
  }

  /** With working lookups every run attributes every terminal row to one of its candidates. */
  lemma ReportIsCandidate(steps: seq<Step>, log: seq<EventRow>, j: nat, m: string)
    requires InSequence(log) && j < |log| && log[j].kind.Ended? && Reports(steps, log, j, m)
    ensures Candidate(log, j, m)
  {
    hide InSequence, ReportsWith, Candidate;
    ReportIsPossible(steps, log, j, m, {});
  }

  lemma SameRow(log: seq<EventRow>, i: nat, j: nat)
    requires DistinctIds(log) && i < |log| && j < |log| && log[i].gid == log[j].gid
    ensures i == j
  {
  }

  // ---- Every candidate is written by some run ----

  const FINE: Faults := Faults({}, {}, {})

  predicate Decodes(log: seq<EventRow>) {
    forall i | 0 <= i < |log| :: !log[i].kind.BadStarted? && !log[i].kind.BadEnded?
  }

  /** The whole log at once, then k polls of one row each. */
  function Sweep(log: seq<EventRow>, k: nat): seq<Step> {
    if k == 0 then [Grow(log)] else Sweep(log, k - 1) + [Poll(1, FINE, true)]
  }

  /** What the sweep leaves in flight. */
  function SweepMem(log: seq<EventRow>, k: nat): Memory
    requires k <= |log|
  {
    if k == 0 then map[] else
    var mem, r := SweepMem(log, k - 1), log[k - 1];
    if r.kind.Started? then mem[(r.session, r.kind.turn) := r.kind.model]
    else if r.kind.Ended? then mem - {TurnOf(r)}
    else mem
  }

  lemma {:induction false} RunPrefix(a: seq<Step>, b: seq<Step>, n: nat)
    requires n <= |a|
    ensures Run(a + b, n) == Run(a, n)
  {
    hide Exec;
    if n > 0 {
      RunPrefix(a, b, n - 1);
    }
  }

  lemma RunSnoc(a: seq<Step>, step: Step)
    ensures Run(a + [step], |a| + 1) == Exec(Run(a, |a|), step)
  {
    hide Exec;
    RunPrefix(a, [step], |a|);
  }

  ghost predicate Plain(steps: seq<Step>, log: seq<EventRow>, failing: set<int>) {
    && steps != [] && steps[0] == Grow(log)
    && forall i | 0 < i < |steps| :: !steps[i].Grow? && (steps[i].Poll? ==> steps[i].faults.lookups <= failing)
  }

  lemma {:induction false} PlainLog(steps: seq<Step>, log: seq<EventRow>, n: nat, failing: set<int>)
    requires Plain(steps, log, failing) && n <= |steps|
    ensures Run(steps, n).log == if n == 0 then [] else log
  {
    hide Project;
    if n > 0 {
      PlainLog(steps, log, n - 1, failing);
      assert n == 1 ==> [] + log == log;
    }
  }

  lemma PlainIsLegal(steps: seq<Step>, log: seq<EventRow>, failing: set<int>)
    requires Plain(steps, log, failing) && DistinctIds(log)
    ensures Legal(steps) && FailingOnly(steps, failing) && Run(steps, |steps|).log == log
  {
    hide Run;
    forall n | 0 <= n <= |steps|
      ensures LegalAt(steps, n)
    {
      PlainLog(steps, log, n, failing);
    }
    PlainLog(steps, log, |steps|, failing);
  }

  lemma {:induction false} SweepIsPlain(log: seq<EventRow>, k: nat)
    ensures Plain(Sweep(log, k), log, {}) && |Sweep(log, k)| == k + 1
  {
    if k > 0 {
      SweepIsPlain(log, k - 1);
    }
  }

  lemma ProjectOne(log: seq<EventRow>, mem: Memory, table: seq<CostRow>, r: EventRow)
    requires !r.kind.BadStarted? && !r.kind.BadEnded?
    ensures var o := Project(log, mem, table, [r], FINE);
            && o.ok
            && o.mem == (if r.kind.Started? then mem[(r.session, r.kind.turn) := r.kind.model]
                         else if r.kind.Ended? then mem - {TurnOf(r)} else mem)
            && o.table == (if r.kind.Ended? then Insert(table, CostRow(EntryOf(r), Resolve(log, mem, r, r.kind.turn, FINE)))
                           else table)
  {
    hide Insert, Resolve;
    assert Record(mem, [r], 0) == (mem, true);
    var (m, ok) := Record(mem, [r], 1);
    var t := if r.kind.Ended? then Insert(table, CostRow(EntryOf(r), Resolve(log, mem, r, r.kind.turn, FINE))) else table;
    var m' := if r.kind.Ended? then m - {TurnOf(r)} else m;
    assert Write(log, m', t, [r], 1, FINE) == Outcome(m', t, true);
  }

  ghost predicate Swept(w: World, log: seq<EventRow>, k: nat) {
    k <= |log| && w.log == log && w.cursor == k && w.mem == SweepMem(log, k) && TableIs(w.table, log, k)
  }

  lemma SweepPoll(w: World, log: seq<EventRow>, k: nat)
    requires DistinctIds(log) && Decodes(log) && k < |log| && Swept(w, log, k)
    ensures Swept(Exec(w, Poll(1, FINE, true)), log, k + 1)
  {
    hide DistinctIds, TableIs, Insert, Resolve, Project;
    var r := log[k];
    assert log[k..k + 1] == [r];
    ProjectOne(log, w.mem, w.table, r);
    if r.kind.Ended? {
      ContainsIff(log, w.table, k, k);
      SweepInsert(log, w.table, k, CostRow(EntryOf(r), Resolve(log, w.mem, r, r.kind.turn, FINE)));
    } else {
      TableGrows(log, w.table, k, CostRow(Entry(0, "", "", 0.0, Usage(0, 0, 0, 0, 0)), ""));
    }
  }

  lemma {:induction false} SweepState(log: seq<EventRow>, k: nat)
    requires DistinctIds(log) && Decodes(log) && k <= |log|
    ensures Swept(Run(Sweep(log, k), |Sweep(log, k)|), log, k)
  {
    hide DistinctIds, Decodes, Swept, Exec, Run;
    if k > 0 {
      SweepState(log, k - 1);
      SweepPoll(Run(Sweep(log, k - 1), |Sweep(log, k - 1)|), log, k - 1);
      RunSnoc(Sweep(log, k - 1), Poll(1, FINE, true));
    } else {
      SweepStart(log);
    }
  }

  lemma SweepStart(log: seq<EventRow>)
    ensures Swept(Run([Grow(log)], 1), log, 0)
  {
    assert Run([Grow(log)], 0) == CostRuns.EMPTY;
    assert [] + log == log;
  }

  lemma SweepInsert(log: seq<EventRow>, table: seq<CostRow>, h: nat, row: CostRow)
    requires TableIs(table, log, h) && h < |log| && log[h].kind.Ended? && row.entry == EntryOf(log[h])
    requires !Contains(table, log[h].gid)
    ensures Insert(table, row) == table + [row] && TableIs(Insert(table, row), log, h + 1)
  {
    hide TableIs, Contains;
    TableGrows(log, table, h, row);
  }

  lemma {:induction false} WriteExtends(log: seq<EventRow>, mem: Memory, table: seq<CostRow>, rows: seq<EventRow>, i: nat, faults: Faults)
    requires i <= |rows|
    ensures table <= Write(log, mem, table, rows, i, faults).table
    decreases |rows| - i
  {
    hide Resolve, Contains;
    if i < |rows| {
      var r := rows[i];
      if r.kind.Ended? && r.gid !in faults.inserts && r.gid !in faults.acks {
        var row := CostRow(EntryOf(r), Resolve(log, mem, r, r.kind.turn, faults));
        WriteExtends(log, mem - {(r.session, r.kind.turn)}, Insert(table, row), rows, i + 1, faults);
      } else if !r.kind.Ended? && !r.kind.BadEnded? {
        WriteExtends(log, mem, table, rows, i + 1, faults);
      }
    }
  }

  /** A poll that starts at row j writes it with what pass 1 over the batch leaves in flight. */
  lemma PollReports(w: World, n: nat, failing: set<int>)
    requires DistinctIds(w.log) && Decodes(w.log) && 0 < n && w.cursor + n <= |w.log|
    requires w.log[w.cursor].kind.Ended? && TableIs(w.table, w.log, w.cursor)
    ensures var rows, r, faults := w.log[w.cursor..w.cursor + n], w.log[w.cursor], Faults({}, failing, {});
            var mem := Record(w.mem, rows, |rows|).0;
            CostRow(EntryOf(r), Resolve(w.log, mem, r, r.kind.turn, faults)) in Exec(w, Poll(n, faults, true)).table
  {
    hide DistinctIds, TableIs, Resolve, Record;
    var j, rows, r, faults := w.cursor, w.log[w.cursor..w.cursor + n], w.log[w.cursor], Faults({}, failing, {});
    RecordSucceeds(w.mem, rows, |rows|);
    var mem := Record(w.mem, rows, |rows|).0;
    var row := CostRow(EntryOf(r), Resolve(w.log, mem, r, r.kind.turn, faults));
    assert rows[0] == r;
    ContainsIff(w.log, w.table, j, j);
    SweepInsert(w.log, w.table, j, row);
    var table := Insert(w.table, row);
    assert table[|w.table|] == row;
    WriteExtends(w.log, mem - {TurnOf(r)}, table, rows, 1, faults);
    assert Write(w.log, mem, w.table, rows, 0, faults) == Write(w.log, mem - {TurnOf(r)}, table, rows, 1, faults);
  }

  lemma {:induction false} SweepHolds(log: seq<EventRow>, j: nat, s: nat, k: nat)
    requires j < |log| && log[j].kind.Ended? && Fast(log, j, s) && s < k <= j
    ensures TurnOf(log[j]) in SweepMem(log, k) && SweepMem(log, k)[TurnOf(log[j])] == log[s].kind.model
  {
    if k > s + 1 {
      SweepHolds(log, j, s, k - 1);
      assert !StartsTurn(log[k - 1], TurnOf(log[j])) && !EndsTurn(log[k - 1], TurnOf(log[j]));
    }
  }

  lemma RecordOne(mem: Memory, r: EventRow)
    requires r.kind.Ended?
    ensures Record(mem, [r], 1).0 == mem
  {
    assert Record(mem, [r], 0) == (mem, true);
  }

  /** A restart just before row j forgets what is in flight and takes the lookup, or the unknown model when that fails. */
  lemma LookupIsReported(log: seq<EventRow>, j: nat, failing: set<int>) returns (steps: seq<Step>)
    requires DistinctIds(log) && Decodes(log) && j < |log| && log[j].kind.Ended?
    ensures ReportsWith(steps, log, j, if log[j].gid in failing then "" else Lookup(log, log[j].session, log[j].at), failing)
  {
    hide DistinctIds, TableIs, Lookup, Run, Record, Sweep, Decodes;
    var base, faults := Sweep(log, j), Faults({}, failing, {});
    SweepIsPlain(log, j);
    SweepState(log, j);
    var restarted := base + [Restart(j)];
    RunSnoc(base, Restart(j));
    var w := Run(restarted, |restarted|);
    assert w == Run(base, |base|).(mem := map[], cursor := j);
    steps := restarted + [Poll(1, faults, true)];
    RunSnoc(restarted, Poll(1, faults, true));
    assert log[j..j + 1] == [log[j]];
    RecordOne(map[], log[j]);
    PollReports(w, 1, failing);
    PlainIsLegal(steps, log, failing);
  }

  /** A start before row j that nothing superseded is still in flight when row j is read on its own. */
  lemma EarlierIsReported(log: seq<EventRow>, j: nat, s: nat) returns (steps: seq<Step>)
    requires DistinctIds(log) && Decodes(log) && j < |log| && log[j].kind.Ended? && Fast(log, j, s) && s < j
    ensures Reports(steps, log, j, log[s].kind.model)
  {
    hide DistinctIds, TableIs, Lookup, Run, Record, Sweep, Decodes, SweepMem;
    var base := Sweep(log, j);
    SweepIsPlain(log, j);
    SweepState(log, j);
    SweepHolds(log, j, s, j);
    steps := base + [Poll(1, FINE, true)];
    RunSnoc(base, Poll(1, FINE, true));
    assert log[j..j + 1] == [log[j]];
    RecordOne(SweepMem(log, j), log[j]);
    PollReports(Run(base, |base|), 1, {});
    PlainIsLegal(steps, log, {});
  }

  /** A later start of the same turn wins when it ends the batch that begins with row j. */
  lemma LaterIsReported(log: seq<EventRow>, j: nat, s: nat) returns (steps: seq<Step>)
    requires DistinctIds(log) && Decodes(log) && j < |log| && log[j].kind.Ended? && Fast(log, j, s) && j < s
    ensures Reports(steps, log, j, log[s].kind.model)
  {
    hide DistinctIds, TableIs, Lookup, Run, Record, Sweep, Decodes, SweepMem;
    var base, n := Sweep(log, j), s - j + 1;
    SweepIsPlain(log, j);
    SweepState(log, j);
    steps := base + [Poll(n, FINE, true)];
    RunSnoc(base, Poll(n, FINE, true));
    LastRecorded(SweepMem(log, j), log, j, s);
    PollReports(Run(base, |base|), n, {});
    PlainIsLegal(steps, log, {});
  }

  lemma LastRecorded(mem: Memory, log: seq<EventRow>, j: nat, s: nat)
    requires Decodes(log) && j < s < |log| && log[s].kind.Started?
    ensures var rows := log[j..j + (s - j + 1)];
            var m, k := Record(mem, rows, |rows|).0, (log[s].session, log[s].kind.turn);
            k in m && m[k] == log[s].kind.model
  {
    var rows := log[j..j + (s - j + 1)];
    assert rows[|rows| - 1] == log[s];
    RecordSucceeds(mem, rows, |rows|);
  }

  /** Every candidate is what some run writes. */
  lemma CandidateIsReported(log: seq<EventRow>, j: nat, m: string) returns (steps: seq<Step>)
    requires DistinctIds(log) && Decodes(log) && Candidate(log, j, m)
    ensures Reports(steps, log, j, m)
  {
    hide DistinctIds, Decodes, ReportsWith, Lookup;
    if m == Lookup(log, log[j].session, log[j].at) {
      steps := LookupIsReported(log, j, {});
    } else {
      var s: nat :| Fast(log, j, s) && log[s].kind.model == m;
      if s < j {
        steps := EarlierIsReported(log, j, s);
      } else {
        steps := LaterIsReported(log, j, s);
      }
    }
  }

  /** So with lookups that may fail for these rows, the models some run writes are exactly the possible ones. */
  lemma PossibleIffReported(log: seq<EventRow>, j: nat, m: string, failing: set<int>)
    requires DistinctIds(log) && InSequence(log) && Decodes(log) && j < |log| && log[j].kind.Ended?
    ensures Possible(log, j, m, failing) <==> exists steps :: ReportsWith(steps, log, j, m, failing)
  {
    hide DistinctIds, Decodes, InSequence, ReportsWith, Candidate, Lookup;
    if Candidate(log, j, m) {
      var steps := CandidateIsReported(log, j, m);
      MoreMayFail(steps, log, j, m, failing);
    } else if Possible(log, j, m, failing) {
      var steps := LookupIsReported(log, j, failing);
    }
    if steps :| ReportsWith(steps, log, j, m, failing) {
      ReportIsPossible(steps, log, j, m, failing);
    }
  }

  lemma MoreMayFail(steps: seq<Step>, log: seq<EventRow>, j: nat, m: string, failing: set<int>)
    requires j < |log| && log[j].kind.Ended? && Reports(steps, log, j, m)
    ensures ReportsWith(steps, log, j, m, failing)
  {
    hide Run, Legal;
  }

  // ---- When the attribution is the join ----

  /** What the lookup finds, and every start of the turn that may be in flight, has the joined model. */
  ghost predicate Settled(log: seq<EventRow>, j: nat)
    requires j < |log| && log[j].kind.Ended?
  {
    var joined := Join(log, |log|, TurnOf(log[j]));
    && Lookup(log, log[j].session, log[j].at) == joined
    && forall s: nat | Fast(log, j, s) :: log[s].kind.model == joined
  }

  /**
    Every run with working lookups attributes the turn to the joined model exactly when the
    lookup and every start that may be in flight agree with the join.
   */
  lemma AttributionIsJoinIff(log: seq<EventRow>, j: nat)
    requires DistinctIds(log) && InSequence(log) && Decodes(log) && j < |log| && log[j].kind.Ended?
    ensures (forall steps, m | Reports(steps, log, j, m) :: m == Join(log, |log|, TurnOf(log[j]))) <==> Settled(log, j)
  {
    hide DistinctIds, InSequence, Decodes, ReportsWith, Lookup, Join;
    var joined := Join(log, |log|, TurnOf(log[j]));
    if Settled(log, j) {
      forall steps, m | Reports(steps, log, j, m)
        ensures m == joined
      {
        ReportIsCandidate(steps, log, j, m);
      }
    }
    if forall steps, m | Reports(steps, log, j, m) :: m == joined {
      var steps := LookupIsReported(log, j, {});
      assert Reports(steps, log, j, Lookup(log, log[j].session, log[j].at));
      forall s: nat | Fast(log, j, s)
        ensures log[s].kind.model == joined
      {
        var steps := CandidateIsReported(log, j, log[s].kind.model);
      }
    }
  }

  /** One model per turn. */
  ghost predicate OneModel(log: seq<EventRow>) {
    forall i, j | 0 <= i < |log| && 0 <= j < |log| && log[i].kind.Started? && log[j].kind.Started?
                  && log[i].session == log[j].session && log[i].kind.turn == log[j].kind.turn ::
      log[i].kind.model == log[j].kind.model
  }

  lemma {:induction false} JoinIsModel(log: seq<EventRow>, n: nat, k: TurnKey, s: nat)
    requires OneModel(log) && s < n <= |log| && StartsTurn(log[s], k)
    ensures Join(log, n, k) == log[s].kind.model
  {
    if !StartsTurn(log[n - 1], k) {
      JoinIsModel(log, n - 1, k, s);
    }
  }

  /** Row b is the latest start in the session of row j before it. */
  ghost predicate LatestStart(log: seq<EventRow>, j: nat, b: nat) {
    && b < j < |log| && log[b].session == log[j].session && IsStart(log[b])
    && forall t | b < t < j && log[t].session == log[j].session :: !IsStart(log[t])
  }

  lemma LookupFindsLatest(log: seq<EventRow>, j: nat, b: nat)
    requires InSequence(log) && LatestStart(log, j, b)
    ensures LatestBelow(log, |log|, log[j].session, log[j].at) == b
  {
    hide LatestBelow;
    var c := LatestBelow(log, |log|, log[j].session, log[j].at);
    assert log[b].at < log[j].at;
    assert c < j;
  }

  /** It is so when every turn has one model and the latest start before row j is of its own turn. */
  lemma OwnStartSettles(log: seq<EventRow>, j: nat, b: nat)
    requires InSequence(log) && OneModel(log) && LatestStart(log, j, b)
    requires log[j].kind.Ended? && StartsTurn(log[b], TurnOf(log[j]))
    ensures Settled(log, j)
  {
    hide OneModel, Join, LatestBelow, InSequence;
    LookupFindsLatest(log, j, b);
    JoinIsModel(log, |log|, TurnOf(log[j]), b);
    forall s: nat | Fast(log, j, s)
      ensures log[s].kind.model == Join(log, |log|, TurnOf(log[j]))
    {
      JoinIsModel(log, |log|, TurnOf(log[j]), s);
    }
  }

  /** Two turns of a session under way at once: the lookup attributes the first to the second's model. */
  lemma OverlappingTurnsDiffer(first: string, second: string, a: string, b: string, usage: Usage) returns (steps: seq<Step>)
    requires first != second && a != b
    ensures var log := [EventRow(1, 1, "t", "s", Started(first, a)), EventRow(2, 2, "t", "s", Started(second, b)),
                        EventRow(3, 3, "t", "s", Ended(first, 0.0, usage))];
            Reports(steps, log, 2, b) && Join(log, 3, ("s", first)) == a
  {
    hide ReportsWith;
    var log := [EventRow(1, 1, "t", "s", Started(first, a)), EventRow(2, 2, "t", "s", Started(second, b)),
                EventRow(3, 3, "t", "s", Ended(first, 0.0, usage))];
    assert log[0] == EventRow(1, 1, "t", "s", Started(first, a));
    assert Join(log, 1, ("s", first)) == a;
    assert Join(log, 2, ("s", first)) == a;
    assert LatestBelow(log, 3, "s", 3) == 1;
    steps := LookupIsReported(log, 2, {});
  }
}
