/** From the feed to the per-model figures: the persisted table, summed by model, against the direct join. */
module CostByModel {
  import opened CostModel
  import opened CostRuns
  import opened CostAttribution
  import opened ModelCost

  /** SUM ... GROUP BY model over the first n persisted rows. */
  function PersistedFor(table: seq<CostRow>, n: nat, m: string): Totals
    requires n <= |table|
  {
    if n == 0 then ZERO else
    var row := table[n - 1];
    Plus(PersistedFor(table, n - 1, m), if row.model == m then Totals(row.entry.cost, row.entry.usage, 1) else ZERO)
  }

  /** Every row carries the model its terminal event joins to. */
  ghost predicate Joined(whole: seq<EventRow>, log: seq<EventRow>, table: seq<CostRow>) {
    forall i, j | 0 <= i < |table| && 0 <= j < |log| && log[j].kind.Ended? && table[i].entry == EntryOf(log[j]) ::
      table[i].model == Join(whole, |whole|, TurnOf(log[j]))
  }

  lemma {:induction false} PersistedForFrame(table: seq<CostRow>, k: nat, n: nat, m: string)
    requires n <= k <= |table|
    ensures PersistedFor(table[..k], n, m) == PersistedFor(table, n, m)
  {
    hide Plus;
    if n > 0 {
      PersistedForFrame(table, k, n - 1, m);
    }
  }

  lemma {:induction false} TableSumsByModel(whole: seq<EventRow>, log: seq<EventRow>, table: seq<CostRow>, h: nat, m: string)
    requires TableIs(table, log, h) && Joined(whole, log, table)
    ensures PersistedFor(table, |table|, m) == ModelTotal(whole, log, h, m)
    decreases h
  {
    hide Plus, Join;
    if h > 0 {
      PlusAssoc(ModelTotal(whole, log, h - 1, m), ZERO, ZERO);
      if log[h - 1].kind.Ended? {
        var n := |table| - 1;
        assert table[n].entry == EntryOf(log[h - 1]);
        TableSumsByModel(whole, log, table[..n], h - 1, m);
        PersistedForFrame(table, n, n, m);
      } else {
        TableSumsByModel(whole, log, table, h - 1, m);
      }
    }
  }

  /** A model has a persisted row exactly when some terminal event joins to it. */
  lemma RowsForModel(whole: seq<EventRow>, log: seq<EventRow>, table: seq<CostRow>, m: string)
    requires TableIs(table, log, |log|) && Joined(whole, log, table)
    ensures (exists row | row in table :: row.model == m) <==> Billed(whole, log, m)
  {
    hide Join, Entries;
    if row :| row in table && row.model == m {
      var i :| 0 <= i < |table| && table[i] == row;
      var j := EntryFrom(log, |log|, i);
      assert log[j] in log;
    }
    if Billed(whole, log, m) {
      var r :| r in log && r.kind.Ended? && Join(whole, |whole|, TurnOf(r)) == m;
      var j :| 0 <= j < |log| && log[j] == r;
      var i := EntryOfRow(log, |log|, j);
      assert table[i] in table;
    }
  }

  lemma SettledIsJoined(steps: seq<Step>)
    requires Legal(steps) && LookupsWork(steps) && InSequence(Run(steps, |steps|).log)
    requires var log := Run(steps, |steps|).log; forall j | 0 <= j < |log| && log[j].kind.Ended? :: Settled(log, j)
    ensures var w := Run(steps, |steps|); Joined(w.log, w.log, w.table)
  {
    hide Run, Legal, InSequence, Join, Lookup, FailingOnly;
    var w := Run(steps, |steps|);
    forall i, j | 0 <= i < |w.table| && 0 <= j < |w.log| && w.log[j].kind.Ended? && w.table[i].entry == EntryOf(w.log[j])
      ensures w.table[i].model == Join(w.log, |w.log|, TurnOf(w.log[j]))
    {
      assert w.table[i] == CostRow(EntryOf(w.log[j]), w.table[i].model);
      assert w.table[i] in w.table;
      ReportIsCandidate(steps, w.log, j, w.table[i].model);
      assert Settled(w.log, j);
    }
  }

  /**
    If the lookup and every start that may be in flight agree with the join for every terminal
    row, then in every run that delivered the log, however cut, re-read or interrupted, the table
    summed by model is the direct fold over the log, model for model.
   */
  lemma EveryRunSumsByModel(steps: seq<Step>, m: string)
    requires Legal(steps) && LookupsWork(steps) && InSequence(Run(steps, |steps|).log)
    requires Run(steps, |steps|).reached == |Run(steps, |steps|).log|
    requires var log := Run(steps, |steps|).log; forall j | 0 <= j < |log| && log[j].kind.Ended? :: Settled(log, j)
    ensures var w := Run(steps, |steps|);
            && PersistedFor(w.table, |w.table|, m) == Get(Listed(w.log), m)
            && ((exists row | row in w.table :: row.model == m) <==> m in Listed(w.log))
  {
    hide Run, Legal, InSequence, Join, Settled, TableIs, Joined, ByModel, ModelTotal, Billed, LookupsWork;
    var w := Run(steps, |steps|);
    EveryRunCountsOnce(steps, SessionKey("", ""));
    SettledIsJoined(steps);
    TableSumsByModel(w.log, w.log, w.table, |w.log|, m);
    RowsForModel(w.log, w.log, w.table, m);
    ByModelAt(w.log, |w.log|, m);
    assert w.log[..|w.log|] == w.log;
  }
}
