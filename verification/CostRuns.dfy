/**
  Runs of the cost projection: a growing log read at least once from a saved position, in
  batches of any size, with failing inserts, lost acknowledgements, unsaved positions and
  restarts.
 */
module CostRuns {
  import opened CostModel

  /** `cursor` counts the rows before the saved position; `reached` the rows projected so far, saved or not. */
  datatype World = World(log: seq<EventRow>, table: seq<CostRow>, mem: Memory, cursor: nat, reached: nat)

  datatype Step =
    | Grow(rows: seq<EventRow>)
    | Poll(n: nat, faults: Faults, saved: bool)
    | Restart(at: nat)

  const EMPTY: World := World([], [], map[], 0, 0)

  function Exec(w: World, step: Step): World {
    match step
    case Grow(rows) => w.(log := w.log + rows)
    case Poll(n, faults, saved) =>
      if w.cursor + n > |w.log| then w else
      var o := Project(w.log, w.mem, w.table, w.log[w.cursor..w.cursor + n], faults);
      World(w.log, o.table, o.mem, if o.ok && saved then w.cursor + n else w.cursor,
            if o.ok && w.cursor + n > w.reached then w.cursor + n else w.reached)
    case Restart(at) => if at <= w.cursor then w.(mem := map[], cursor := at) else w
  }

  /** Row ids identify rows. */
  ghost predicate DistinctIds(log: seq<EventRow>) {
    forall i, j | 0 <= i < j < |log| :: log[i].gid != log[j].gid
  }

  function Run(steps: seq<Step>, n: nat): World
    requires n <= |steps|
  {
    if n == 0 then EMPTY else Exec(Run(steps, n - 1), steps[n - 1])
  }

  ghost predicate LegalAt(steps: seq<Step>, n: nat)
    requires n <= |steps|
  {
    DistinctIds(Run(steps, n).log)
  }

  ghost predicate Legal(steps: seq<Step>) {
    forall n {:trigger LegalAt(steps, n)} | 0 <= n <= |steps| :: LegalAt(steps, n)
  }

  // ---- What the table holds ----

  /** One entry per terminal row, in log order. */
  function Entries(log: seq<EventRow>, n: nat): seq<Entry>
    requires n <= |log|
  {
    if n == 0 then [] else
    Entries(log, n - 1) + (if log[n - 1].kind.Ended? then [EntryOf(log[n - 1])] else [])
  }

  ghost predicate TableIs(table: seq<CostRow>, log: seq<EventRow>, h: nat) {
    h <= |log| && |table| == |Entries(log, h)| && forall i | 0 <= i < |table| :: table[i].entry == Entries(log, h)[i]
  }

  lemma {:induction false} EntryFrom(log: seq<EventRow>, h: nat, i: nat) returns (j: nat)
    requires h <= |log| && i < |Entries(log, h)|
    ensures j < h && log[j].kind.Ended? && Entries(log, h)[i] == EntryOf(log[j])
  {
    if i < |Entries(log, h - 1)| {
      j := EntryFrom(log, h - 1, i);
    } else {
      j := h - 1;
    }
  }

  lemma {:induction false} EntryOfRow(log: seq<EventRow>, h: nat, j: nat) returns (i: nat)
    requires j < h <= |log| && log[j].kind.Ended?
    ensures i < |Entries(log, h)| && Entries(log, h)[i] == EntryOf(log[j])
  {
    if j == h - 1 {
      i := |Entries(log, h - 1)|;
    } else {
      i := EntryOfRow(log, h - 1, j);
    }
  }

  /** A terminal row is in the table exactly when it lies below the mark. */
  lemma ContainsIff(log: seq<EventRow>, table: seq<CostRow>, h: nat, j: nat)
    requires DistinctIds(log) && TableIs(table, log, h) && j < |log| && log[j].kind.Ended?
    ensures Contains(table, log[j].gid) <==> j < h
  {
    if j < h {
      var i := EntryOfRow(log, h, j);
      assert table[i].entry.gid == log[j].gid;
    }
    if i :| 0 <= i < |table| && table[i].entry.gid == log[j].gid {
      var j' := EntryFrom(log, h, i);
      assert log[j'].gid == log[j].gid;
    }
  }

  /** Rows `rows` of the log starting at c. */
  ghost predicate Batch(log: seq<EventRow>, c: nat, rows: seq<EventRow>) {
    c + |rows| <= |log| && forall i | 0 <= i < |rows| :: rows[i] == log[c + i]
  }

  lemma TableGrows(log: seq<EventRow>, table: seq<CostRow>, h: nat, row: CostRow)
    requires TableIs(table, log, h) && h < |log|
    ensures log[h].kind.Ended? && row.entry == EntryOf(log[h]) ==> TableIs(table + [row], log, h + 1)
    ensures !log[h].kind.Ended? ==> TableIs(table, log, h + 1)
  {
  }

  /** Whatever goes wrong on the way, the table moves from one mark to a later one, past the whole batch if nothing did. */
  lemma {:induction false} WriteKeeps(log: seq<EventRow>, mem: Memory, table: seq<CostRow>, c: nat, rows: seq<EventRow>,
                                      i: nat, faults: Faults, h: nat) returns (h': nat)
    requires DistinctIds(log) && Batch(log, c, rows) && i <= |rows| && TableIs(table, log, h) && c + i <= h
    ensures var o := Write(log, mem, table, rows, i, faults);
            && h <= h' && TableIs(o.table, log, h')
            && (o.ok ==> c + |rows| <= h' && forall j | i <= j < |rows| :: !rows[j].kind.BadEnded?)
    decreases |rows| - i
  {
    hide DistinctIds, TableIs, Resolve, Contains;
    h' := h;
    if i < |rows| {
      assert rows[i] == log[c + i];
      var r := rows[i];
      if r.kind.Ended? && r.gid !in faults.inserts {
        var row := CostRow(EntryOf(r), Resolve(log, mem, r, r.kind.turn, faults));
        h' := InsertKeeps(log, table, c + i, row, h);
        if r.gid !in faults.acks {
          h' := WriteKeeps(log, mem - {(r.session, r.kind.turn)}, Insert(table, row), c, rows, i + 1, faults, h');
        }
      } else if !r.kind.Ended? && !r.kind.BadEnded? {
        h' := PassBy(log, table, c + i, h);
        h' := WriteKeeps(log, mem, table, c, rows, i + 1, faults, h');
      }
    }
  }

  lemma InsertKeeps(log: seq<EventRow>, table: seq<CostRow>, j: nat, row: CostRow, h: nat) returns (h': nat)
    requires DistinctIds(log) && TableIs(table, log, h) && j <= h && j < |log| && log[j].kind.Ended? && row.entry == EntryOf(log[j])
    ensures h <= h' && j < h' && TableIs(Insert(table, row), log, h')
  {
    hide DistinctIds, TableIs, Contains;
    ContainsIff(log, table, h, j);
    h' := h;
    if j == h {
      TableGrows(log, table, h, row);
      h' := h + 1;
    }
  }

  lemma PassBy(log: seq<EventRow>, table: seq<CostRow>, j: nat, h: nat) returns (h': nat)
    requires TableIs(table, log, h) && j <= h && j < |log| && !log[j].kind.Ended?
    ensures h <= h' && j < h' && TableIs(table, log, h')
  {
    h' := h;
    if j == h {
      TableGrows(log, table, h, CostRow(Entry(0, "", "", 0.0, Usage(0, 0, 0, 0, 0)), ""));
      h' := h + 1;
    }
  }

  lemma {:induction false} RecordSucceeds(mem: Memory, rows: seq<EventRow>, n: nat)
    requires n <= |rows|
    ensures Record(mem, rows, n).1 <==> forall j | 0 <= j < n :: !rows[j].kind.BadStarted?
  {
    if n > 0 {
      RecordSucceeds(mem, rows, n - 1);
    }
  }

  // ---- Every run ----

  ghost predicate Counted(w: World, h: nat) {
    && w.cursor <= w.reached <= h && TableIs(w.table, w.log, h)
    && forall j | 0 <= j < w.reached :: !w.log[j].kind.BadStarted? && !w.log[j].kind.BadEnded?
  }

  lemma {:induction false} EntriesFrame(log: seq<EventRow>, more: seq<EventRow>, h: nat)
    requires h <= |log|
    ensures Entries(log + more, h) == Entries(log, h)
  {
    if h > 0 {
      EntriesFrame(log, more, h - 1);
    }
  }

  lemma PollCounts(w: World, n: nat, faults: Faults, saved: bool, h: nat) returns (h': nat)
    requires DistinctIds(w.log) && Counted(w, h) && w.cursor + n <= |w.log|
    ensures Counted(Exec(w, Poll(n, faults, saved)), h')
  {
    hide DistinctIds, TableIs, Write;
    var rows := w.log[w.cursor..w.cursor + n];
    var (recorded, ok) := Record(w.mem, rows, |rows|);
    h' := h;
    if ok {
      RecordSucceeds(w.mem, rows, |rows|);
      h' := WriteKeeps(w.log, recorded, w.table, w.cursor, rows, 0, faults, h);
      forall j | w.cursor <= j < w.cursor + n
        ensures w.log[j] == rows[j - w.cursor]
      {
      }
    }
  }

  lemma {:induction false} RunCounts(steps: seq<Step>, n: nat) returns (h: nat)
    requires Legal(steps) && n <= |steps|
    ensures Counted(Run(steps, n), h)
  {
    h := 0;
    if n > 0 {
      h := RunCounts(steps, n - 1);
      var w, step := Run(steps, n - 1), steps[n - 1];
      assert LegalAt(steps, n - 1);
      match step
      case Grow(rows) => EntriesFrame(w.log, rows, h);
      case Poll(k, faults, saved) => if w.cursor + k <= |w.log| { h := PollCounts(w, k, faults, saved, h); }
      case Restart(at) =>
    }
  }

  /** The sum of a session's persisted rows. */
  function Persisted(table: seq<CostRow>, n: nat, k: SessionKey): Totals
    requires n <= |table|
  {
    if n == 0 then ZERO else
    var e := table[n - 1].entry;
    Plus(Persisted(table, n - 1, k), if SessionKey(e.tenant, e.session) == k then Totals(e.cost, e.usage, 1) else ZERO)
  }

  lemma {:induction false} PersistedIsTotal(log: seq<EventRow>, table: seq<CostRow>, h: nat, k: SessionKey)
    requires TableIs(table, log, h)
    ensures Persisted(table, |table|, k) == Total(log, h, k)
    decreases h
  {
    hide Plus;
    if h > 0 {
      PlusAssoc(Total(log, h - 1, k), ZERO, ZERO);
      if log[h - 1].kind.Ended? {
        var n := |table| - 1;
        PersistedIsTotal(log, table[..n], h - 1, k);
        PersistedFrame(table, n, n, k);
      } else {
        PersistedIsTotal(log, table, h - 1, k);
      }
    }
  }

  lemma {:induction false} PersistedFrame(table: seq<CostRow>, m: nat, n: nat, k: SessionKey)
    requires n <= m <= |table|
    ensures Persisted(table[..m], n, k) == Persisted(table, n, k)
  {
    hide Plus;
    if n > 0 {
      PersistedFrame(table, m, n - 1, k);
    }
  }

  /**
    However the log was cut into batches, re-read or interrupted, and whether or not the last
    position was saved: once every row has been delivered, the table has exactly one row for each terminal event, in log order, and each
    session's persisted sum is what one fold over the whole log gives.
   */
  lemma EveryRunCountsOnce(steps: seq<Step>, k: SessionKey)
    requires Legal(steps) && Run(steps, |steps|).reached == |Run(steps, |steps|).log|
    ensures var w := Run(steps, |steps|);
            && TableIs(w.table, w.log, |w.log|)
            && Rollup(map[], w.log, |w.log|).1
            && Persisted(w.table, |w.table|, k) == Get(Rollup(map[], w.log, |w.log|).0, k)
  {
    hide TableIs, Plus, Run, Legal;
    var w := Run(steps, |steps|);
    var h := RunCounts(steps, |steps|);
    MarkBounded(w.table, w.log, h);
    PersistedIsTotal(w.log, w.table, |w.log|, k);
    RollupIsTotal(map[], w.log, k);
    PlusAssoc(Total(w.log, |w.log|, k), ZERO, ZERO);
    PlusAssoc(ZERO, Total(w.log, |w.log|, k), ZERO);
  }

  lemma MarkBounded(table: seq<CostRow>, log: seq<EventRow>, h: nat)
    requires TableIs(table, log, h)
    ensures h <= |log|
  {
  }
}
