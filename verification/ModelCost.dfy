/**
  The per-model cost rows folded directly from event lists: a partition of the totals that
  does not depend on the order in which sessions are listed.
 */
module ModelCost {
  import opened CostModel
  import opened CostAttribution
  import InsertionSort
  import Lexicographic

  datatype ModelRow = ModelRow(model: string, totals: Totals)

  function ModelByTurn(events: seq<EventRow>, n: nat): Memory
    requires n <= |events|
  {
    if n == 0 then map[] else
    var m, r := ModelByTurn(events, n - 1), events[n - 1];
    if r.kind.Started? then m[(r.session, r.kind.turn) := r.kind.model] else m
  }

  /** The model of a terminal row: "" when its turn has no start. */
  function ModelOf(models: Memory, r: EventRow): string
    requires r.kind.Ended?
  {
    if TurnOf(r) in models then models[TurnOf(r)] else ""
  }

  function ByModel(models: Memory, events: seq<EventRow>, n: nat): map<string, Totals>
    requires n <= |events|
  {
    if n == 0 then map[] else
    var m, r := ByModel(models, events, n - 1), events[n - 1];
    if r.kind.Ended? then m[ModelOf(models, r) := Plus(Get(m, ModelOf(models, r)), Cost(r))] else m
  }

  ghost predicate Ascending(rows: seq<ModelRow>) {
    forall i, j | 0 <= i < j < |rows| :: Lexicographic.Less(rows[i].model, rows[j].model)
  }

  ghost predicate Distinct(rows: seq<ModelRow>) {
    forall i, j | 0 <= i < j < |rows| :: rows[i].model != rows[j].model
  }

  /** The rows are the entries of m. */
  ghost predicate Covers(rows: seq<ModelRow>, m: map<string, Totals>) {
    && (forall r | r in rows :: r.model in m && r.totals == m[r.model])
    && (forall k | k in m :: ModelRow(k, m[k]) in rows)
  }

  /** One row per entry, ascending by model. */
  ghost predicate RowsOf(rows: seq<ModelRow>, m: map<string, Totals>) {
    Ascending(rows) && Covers(rows, m)
  }

  function Listed(events: seq<EventRow>): map<string, Totals> {
    ByModel(ModelByTurn(events, |events|), events, |events|)
  }

  const BY_MODEL := (a: ModelRow, b: ModelRow) => Lexicographic.Less(a.model, b.model)

  lemma ModelsAreOrdered(rows: seq<ModelRow>)
    requires Distinct(rows)
    ensures InsertionSort.Transitive(BY_MODEL) && InsertionSort.Comparable(BY_MODEL, rows)
    ensures forall s: seq<ModelRow> :: InsertionSort.InOrder(BY_MODEL, s) ==> Ascending(s)
  {
    forall a: ModelRow, b: ModelRow, c: ModelRow | BY_MODEL(a, b) && BY_MODEL(b, c)
      ensures BY_MODEL(a, c)
    {
      Lexicographic.Transitive(a.model, b.model, c.model);
    }
    forall i, j | 0 <= i < j < |rows|
      ensures BY_MODEL(rows[i], rows[j]) || BY_MODEL(rows[j], rows[i])
    {
      Lexicographic.Total(rows[i].model, rows[j].model);
    }
  }

  method FoldModelCost(events: seq<EventRow>) returns (out: seq<ModelRow>)
    ensures RowsOf(out, Listed(events))
  {
    var models: Memory := map[];
    for i := 0 to |events|
      invariant models == ModelByTurn(events, i)
    {
      if events[i].kind.Started? {
        models := models[(events[i].session, events[i].kind.turn) := events[i].kind.model];
      }
    }
    var byModel: map<string, Totals> := map[];
    for i := 0 to |events|
      invariant byModel == ByModel(models, events, i)
    {
      var r := events[i];
      if r.kind.Ended? {
        var model := if (r.session, r.kind.turn) in models then models[(r.session, r.kind.turn)] else "";
        var t := if model in byModel then byModel[model] else ZERO;
        byModel := byModel[model := Totals(t.cost + r.kind.cost, AddUsage(t.usage, r.kind.usage), t.turns + 1)];
      }
    }
    out := RowsInOrder(byModel);
  }

  /** The map's entries in no particular order, then sorted. */
  method RowsInOrder(byModel: map<string, Totals>) returns (out: seq<ModelRow>)
    ensures RowsOf(out, byModel)
  {
    var rows: seq<ModelRow> := [];
    var left := byModel.Keys;
    while left != {}
      invariant left <= byModel.Keys && Distinct(rows)
      invariant forall r | r in rows :: r.model in byModel && r.model !in left && r.totals == byModel[r.model]
      invariant forall k | k in byModel && k !in left :: ModelRow(k, byModel[k]) in rows
      decreases |left|
    {
      var k :| k in left;
      rows := rows + [ModelRow(k, byModel[k])];
      left := left - {k};
    }
    ModelsAreOrdered(rows);
    InsertionSort.SortSorts(BY_MODEL, rows, |rows|);
    InsertionSort.SortMembers(BY_MODEL, rows, |rows|);
    assert rows[..|rows|] == rows;
    out := InsertionSort.Sort(BY_MODEL, rows, |rows|);
  }

  // ---- The rows are determined by the map ----

  lemma AscendingDistinct(rows: seq<ModelRow>)
    requires Ascending(rows)
    ensures Distinct(rows)
  {
    forall i, j | 0 <= i < j < |rows|
      ensures rows[i].model != rows[j].model
    {
      Lexicographic.Irreflexive(rows[i].model);
    }
  }

  /** The last of the rows carries the greatest model. */
  lemma LastIsGreatest(a: seq<ModelRow>, b: seq<ModelRow>, m: map<string, Totals>)
    requires RowsOf(a, m) && RowsOf(b, m) && a != [] && b != []
    ensures a[|a| - 1] == b[|b| - 1]
  {
    var x, y := a[|a| - 1], b[|b| - 1];
    assert x in a && y in b;
    assert x == ModelRow(x.model, m[x.model]) && x in b;
    assert y == ModelRow(y.model, m[y.model]) && y in a;
    var i :| 0 <= i < |b| && b[i] == x;
    var j :| 0 <= j < |a| && a[j] == y;
    if i < |b| - 1 && j < |a| - 1 {
      Lexicographic.Transitive(x.model, y.model, x.model);
      Lexicographic.Irreflexive(x.model);
    }
  }

  lemma WithoutLast(rows: seq<ModelRow>, m: map<string, Totals>)
    requires RowsOf(rows, m) && rows != []
    ensures var n := |rows| - 1; rows[n].model in m && RowsOf(rows[..n], m - {rows[n].model}) && rows[n].totals == m[rows[n].model]
  {
    AscendingDistinct(rows);
    var n := |rows| - 1;
    var m' := m - {rows[n].model};
    assert rows[n] in rows;
    forall r | r in rows[..n]
      ensures r.model in m' && r.totals == m'[r.model]
    {
      assert r in rows;
    }
    forall k | k in m'
      ensures ModelRow(k, m'[k]) in rows[..n]
    {
      var i :| 0 <= i < |rows| && rows[i] == ModelRow(k, m[k]);
      assert i < n && rows[..n][i] == rows[i];
    }
  }

  lemma EmptyRows(rows: seq<ModelRow>, m: map<string, Totals>)
    requires RowsOf(rows, m)
    ensures rows == [] <==> m == map[]
  {
    if rows != [] {
      assert rows[0] in rows;
    }
    if m != map[] {
      var k :| k in m;
      assert ModelRow(k, m[k]) in rows;
    }
  }

  lemma {:induction false} RowsAreUnique(a: seq<ModelRow>, b: seq<ModelRow>, m: map<string, Totals>)
    requires RowsOf(a, m) && RowsOf(b, m)
    ensures a == b
    decreases |a|
  {
    hide Ascending;
    EmptyRows(a, m);
    EmptyRows(b, m);
    if a != [] {
      LastIsGreatest(a, b, m);
      WithoutLast(a, m);
      WithoutLast(b, m);
      RowsAreUnique(a[..|a| - 1], b[..|b| - 1], m - {a[|a| - 1].model});
      assert a == a[..|a| - 1] + [a[|a| - 1]] && b == b[..|b| - 1] + [b[|b| - 1]];
    }
  }

  // ---- A partition of the total ----

  /** The sum of the values of a map. */
  ghost function SumMap<K(!new)>(m: map<K, Totals>): Totals
    decreases |m|
  {
    if m == map[] then ZERO else
    var k :| k in m;
    Plus(m[k], SumMap(m - {k}))
  }

  lemma {:induction false} SumRemove<K(!new)>(m: map<K, Totals>, k: K)
    requires k in m
    ensures SumMap(m) == Plus(m[k], SumMap(m - {k}))
    decreases |m|
  {
    hide Plus;
    var c :| c in m && SumMap(m) == Plus(m[c], SumMap(m - {c}));
    if c != k {
      SumRemove(m - {c}, k);
      SumRemove(m - {k}, c);
      assert m - {c} - {k} == m - {k} - {c};
      PlusAssoc(m[c], m[k], SumMap(m - {k} - {c}));
      PlusAssoc(m[k], m[c], SumMap(m - {k} - {c}));
    }
  }

  lemma SumAdd<K(!new)>(m: map<K, Totals>, k: K, x: Totals)
    ensures SumMap(m[k := Plus(Get(m, k), x)]) == Plus(SumMap(m), x)
  {
    hide Plus, SumMap;
    var m' := m[k := Plus(Get(m, k), x)];
    SumRemove(m', k);
    assert m' - {k} == m - {k};
    var rest := SumMap(m - {k});
    if k in m {
      SumRemove(m, k);
      PlusAssoc(m[k], x, rest);
      PlusAssoc(x, rest, ZERO);
      PlusAssoc(m[k], rest, x);
    } else {
      assert m - {k} == m;
      PlusAssoc(x, ZERO, rest);
      PlusAssoc(x, rest, ZERO);
      PlusAssoc(ZERO, x, rest);
    }
  }

  /** The cost of all rows, whatever their session or model. */
  function Grand(rows: seq<EventRow>, n: nat): Totals
    requires n <= |rows|
  {
    if n == 0 then ZERO else Plus(Grand(rows, n - 1), Cost(rows[n - 1]))
  }

  lemma {:induction false} RollupSums(rows: seq<EventRow>, n: nat)
    requires n <= |rows| && Rollup(map[], rows, n).1
    ensures SumMap(Rollup(map[], rows, n).0) == Grand(rows, n)
  {
    hide Plus;
    if n > 0 {
      RollupSums(rows, n - 1);
      var r, m := rows[n - 1], Rollup(map[], rows, n - 1).0;
      SumAdd(m, KeyOf(r), Cost(r));
      PlusAssoc(Grand(rows, n - 1), ZERO, ZERO);
    }
  }

  lemma {:induction false} ByModelSums(models: Memory, rows: seq<EventRow>, n: nat)
    requires n <= |rows|
    ensures SumMap(ByModel(models, rows, n)) == Grand(rows, n)
  {
    hide Plus;
    if n > 0 {
      ByModelSums(models, rows, n - 1);
      var r, m := rows[n - 1], ByModel(models, rows, n - 1);
      if r.kind.Ended? {
        SumAdd(m, ModelOf(models, r), Cost(r));
      }
      PlusAssoc(Grand(rows, n - 1), ZERO, ZERO);
    }
  }

  function SumRows(rows: seq<ModelRow>, n: nat): Totals
    requires n <= |rows|
  {
    if n == 0 then ZERO else Plus(SumRows(rows, n - 1), rows[n - 1].totals)
  }

  lemma {:induction false} SumRowsFrame(rows: seq<ModelRow>, m: nat, n: nat)
    requires n <= m <= |rows|
    ensures SumRows(rows[..m], n) == SumRows(rows, n)
  {
    hide Plus;
    if n > 0 {
      SumRowsFrame(rows, m, n - 1);
    }
  }

  lemma {:induction false} RowsSum(rows: seq<ModelRow>, m: map<string, Totals>)
    requires RowsOf(rows, m)
    ensures SumRows(rows, |rows|) == SumMap(m)
    decreases |rows|
  {
    hide Plus, SumMap;
    if rows == [] {
      EmptyRows(rows, m);
      EmptySum<string>();
    } else {
      var n := |rows| - 1;
      WithoutLast(rows, m);
      RowsSum(rows[..n], m - {rows[n].model});
      SumRowsFrame(rows, n, n);
      SumRemove(m, rows[n].model);
      PlusAssoc(rows[n].totals, SumRows(rows, n), ZERO);
    }
  }

  lemma EmptySum<K(!new)>()
    ensures SumMap<K>(map[]) == ZERO
  {
  }

  /** The per-model rows add up to the cost of all events, which is what the per-session totals add up to. */
  lemma ModelsPartitionTheTotal(events: seq<EventRow>, out: seq<ModelRow>, totals: map<SessionKey, Totals>)
    requires RowsOf(out, Listed(events)) && Rollup(map[], events, |events|) == (totals, true)
    ensures SumRows(out, |out|) == Grand(events, |events|) == SumMap(totals)
  {
    hide Plus, SumMap, RowsOf;
    RowsSum(out, Listed(events));
    ByModelSums(ModelByTurn(events, |events|), events, |events|);
    RollupSums(events, |events|);
  }

  // ---- The order of the sessions does not matter ----

  /** The rows of one session among the first n, in order. */
  function View(rows: seq<EventRow>, n: nat, session: string): seq<EventRow>
    requires n <= |rows|
  {
    if n == 0 then [] else
    View(rows, n - 1, session) + (if rows[n - 1].session == session then [rows[n - 1]] else [])
  }

  ghost predicate SameViews(a: seq<EventRow>, b: seq<EventRow>) {
    forall s :: View(a, |a|, s) == View(b, |b|, s)
  }

  lemma {:induction false} TurnsAreJoined(events: seq<EventRow>, n: nat, k: TurnKey)
    requires n <= |events|
    ensures var m := ModelByTurn(events, n); Join(events, n, k) == if k in m then m[k] else ""
  {
    if n > 0 {
      TurnsAreJoined(events, n - 1, k);
    }
  }

  lemma {:induction false} JoinFrame(a: seq<EventRow>, b: seq<EventRow>, n: nat, k: TurnKey)
    requires n <= |a| && a <= b
    ensures Join(a, n, k) == Join(b, n, k)
  {
    if n > 0 {
      JoinFrame(a, b, n - 1, k);
    }
  }

  /** The join of a turn reads only its session. */
  lemma {:induction false} JoinOfView(events: seq<EventRow>, n: nat, k: TurnKey)
    requires n <= |events|
    ensures var v := View(events, n, k.0); Join(v, |v|, k) == Join(events, n, k)
  {
    if n > 0 {
      JoinOfView(events, n - 1, k);
      var v, r := View(events, n - 1, k.0), events[n - 1];
      if r.session == k.0 {
        JoinFrame(v, v + [r], |v|, k);
        assert Join(v + [r], |v| + 1, k) == if StartsTurn(r, k) then r.kind.model else Join(v, |v|, k);
      } else {
        assert View(events, n, k.0) == v;
      }
    }
  }

  lemma CountSnoc(s: seq<EventRow>, r: EventRow, x: EventRow)
    ensures multiset(s + [r])[x] == multiset(s)[x] + if r == x then 1 else 0
  {
  }

  lemma ViewNext(rows: seq<EventRow>, n: nat, s: string)
    requires 0 < n <= |rows|
    ensures View(rows, n, s) == if rows[n - 1].session == s then View(rows, n - 1, s) + [rows[n - 1]] else View(rows, n - 1, s)
    ensures rows[..n] == rows[..n - 1] + [rows[n - 1]]
  {
  }

  lemma {:induction false} CountOfView(rows: seq<EventRow>, n: nat, x: EventRow)
    requires n <= |rows|
    ensures multiset(View(rows, n, x.session))[x] == multiset(rows[..n])[x]
  {
    hide View;
    if n > 0 {
      CountOfView(rows, n - 1, x);
      ViewNext(rows, n, x.session);
      CountSnoc(rows[..n - 1], rows[n - 1], x);
      CountSnoc(View(rows, n - 1, x.session), rows[n - 1], x);
    } else {
      EmptyCount(rows, x);
    }
  }

  lemma EmptyCount(rows: seq<EventRow>, x: EventRow)
    ensures multiset(View(rows, 0, x.session))[x] == multiset(rows[..0])[x] == 0
  {
    assert rows[..0] == [];
  }

  lemma SameViewsSameRows(a: seq<EventRow>, b: seq<EventRow>)
    requires SameViews(a, b)
    ensures multiset(a) == multiset(b)
  {
    forall x: EventRow
      ensures multiset(a)[x] == multiset(b)[x]
    {
      assert View(a, |a|, x.session) == View(b, |b|, x.session);
      CountOfView(a, |a|, x);
      CountOfView(b, |b|, x);
      assert a[..|a|] == a && b[..|b|] == b;
    }
  }

  /** Row r's contribution to model m when turns are joined in `whole`. */
  function Share(whole: seq<EventRow>, r: EventRow, m: string): Totals {
    if r.kind.Ended? && Join(whole, |whole|, TurnOf(r)) == m then Cost(r) else ZERO
  }

  function ModelTotal(whole: seq<EventRow>, rows: seq<EventRow>, n: nat, m: string): Totals
    requires n <= |rows|
  {
    if n == 0 then ZERO else Plus(ModelTotal(whole, rows, n - 1, m), Share(whole, rows[n - 1], m))
  }

  predicate Billed(whole: seq<EventRow>, rows: seq<EventRow>, m: string) {
    exists r | r in rows :: r.kind.Ended? && Join(whole, |whole|, TurnOf(r)) == m
  }

  /** Each entry of the fold is the sum of its model's rows, and every model with a row has an entry. */
  lemma {:induction false} ByModelAt(events: seq<EventRow>, n: nat, m: string)
    requires n <= |events|
    ensures var entries := ByModel(ModelByTurn(events, |events|), events, n);
            && Get(entries, m) == ModelTotal(events, events, n, m)
            && (m in entries <==> Billed(events, events[..n], m))
  {
    hide Plus, Join;
    if n > 0 {
      ByModelAt(events, n - 1, m);
      var r := events[n - 1];
      assert events[..n] == events[..n - 1] + [r];
      PlusAssoc(ModelTotal(events, events, n - 1, m), ZERO, ZERO);
      BilledNext(events, events[..n - 1], r, m);
      if r.kind.Ended? {
        TurnsAreJoined(events, |events|, TurnOf(r));
      }
    }
  }

  lemma BilledNext(whole: seq<EventRow>, rows: seq<EventRow>, r: EventRow, m: string)
    ensures Billed(whole, rows + [r], m)
            <==> Billed(whole, rows, m) || (r.kind.Ended? && Join(whole, |whole|, TurnOf(r)) == m)
  {
    hide Join;
    assert r in rows + [r];
    forall x | x in rows
      ensures x in rows + [r]
    {
    }
  }

  lemma {:induction false} ModelTotalFrame(whole: seq<EventRow>, a: seq<EventRow>, b: seq<EventRow>, n: nat, m: string)
    requires n <= |a| && n <= |b| && a[..n] == b[..n]
    ensures ModelTotal(whole, a, n, m) == ModelTotal(whole, b, n, m)
  {
    hide Plus, Share;
    if n > 0 {
      assert a[n - 1] == a[..n][n - 1] == b[..n][n - 1] == b[n - 1];
      assert a[..n - 1] == a[..n][..n - 1] == b[..n][..n - 1] == b[..n - 1];
      ModelTotalFrame(whole, a, b, n - 1, m);
    }
  }

  lemma {:induction false} RemoveAt(whole: seq<EventRow>, rows: seq<EventRow>, p: nat, n: nat, m: string)
    requires p < n <= |rows|
    ensures ModelTotal(whole, rows, n, m)
            == Plus(ModelTotal(whole, rows[..p] + rows[p + 1..], n - 1, m), Share(whole, rows[p], m))
  {
    hide Plus, Share;
    var rest := rows[..p] + rows[p + 1..];
    if n == p + 1 {
      ModelTotalFrame(whole, rows, rest, p, m);
    } else {
      RemoveAt(whole, rows, p, n - 1, m);
      assert rest[n - 2] == rows[n - 1];
      var t, x, y := ModelTotal(whole, rest, n - 2, m), Share(whole, rows[p], m), Share(whole, rows[n - 1], m);
      PlusAssoc(t, x, y);
      PlusAssoc(t, y, x);
      PlusAssoc(x, y, ZERO);
    }
  }

  lemma MultisetCancels(a: multiset<EventRow>, b: multiset<EventRow>, x: EventRow)
    requires a + multiset{x} == b + multiset{x}
    ensures a == b
  {
    forall y: EventRow
      ensures a[y] == b[y]
    {
      assert (a + multiset{x})[y] == (b + multiset{x})[y];
    }
  }

  /** A sum over rows depends only on which rows there are. */
  lemma {:induction false} ModelTotalPermutes(whole: seq<EventRow>, a: seq<EventRow>, b: seq<EventRow>, m: string)
    requires multiset(a) == multiset(b)
    ensures ModelTotal(whole, a, |a|, m) == ModelTotal(whole, b, |b|, m)
    decreases |a|
  {
    hide Plus, Share;
    assert |a| == |multiset(a)| == |multiset(b)| == |b|;
    if a != [] {
      var n := |a| - 1;
      var p := Located(a, b);
      ModelTotalPermutes(whole, a[..n], b[..p] + b[p + 1..], m);
      RemoveAt(whole, b, p, |b|, m);
      ModelTotalFrame(whole, a, a[..n], n, m);
    }
  }

  lemma MultisetAt(s: seq<EventRow>, p: nat)
    requires p < |s|
    ensures multiset(s) == multiset(s[..p] + s[p + 1..]) + multiset{s[p]}
  {
    assert s == s[..p] + [s[p]] + s[p + 1..];
  }

  /** Where b holds the last element of a, and that the rest of both is still the same. */
  lemma Located(a: seq<EventRow>, b: seq<EventRow>) returns (p: nat)
    requires a != [] && multiset(a) == multiset(b)
    ensures p < |b| && b[p] == a[|a| - 1] && multiset(a[..|a| - 1]) == multiset(b[..p] + b[p + 1..])
  {
    var n := |a| - 1;
    var x := a[n];
    assert x in multiset(a) && x in b;
    p :| 0 <= p < |b| && b[p] == x;
    MultisetAt(a, n);
    MultisetAt(b, p);
    assert a[..n] + a[n + 1..] == a[..n];
    MultisetCancels(multiset(a[..n]), multiset(b[..p] + b[p + 1..]), x);
  }

  lemma {:induction false} SameJoinsSameTotal(a: seq<EventRow>, b: seq<EventRow>, rows: seq<EventRow>, n: nat, m: string)
    requires n <= |rows| && forall k :: Join(a, |a|, k) == Join(b, |b|, k)
    ensures ModelTotal(a, rows, n, m) == ModelTotal(b, rows, n, m)
  {
    hide Plus, Join;
    if n > 0 {
      SameJoinsSameTotal(a, b, rows, n - 1, m);
    }
  }

  lemma SameViewsSameJoins(a: seq<EventRow>, b: seq<EventRow>, k: TurnKey)
    requires SameViews(a, b)
    ensures Join(a, |a|, k) == Join(b, |b|, k)
  {
    hide Join;
    assert View(a, |a|, k.0) == View(b, |b|, k.0);
    JoinOfView(a, |a|, k);
    JoinOfView(b, |b|, k);
  }

  lemma SameViewsSameEntry(a: seq<EventRow>, b: seq<EventRow>, m: string)
    requires SameViews(a, b)
    ensures (m in Listed(a) <==> m in Listed(b)) && Get(Listed(a), m) == Get(Listed(b), m)
  {
    hide Join, SameViews, ModelTotal, ByModel;
    SameViewsSameRows(a, b);
    forall k
      ensures Join(a, |a|, k) == Join(b, |b|, k)
    {
      SameViewsSameJoins(a, b, k);
    }
    ByModelAt(a, |a|, m);
    ByModelAt(b, |b|, m);
    assert a[..|a|] == a && b[..|b|] == b;
    SameJoinsSameTotal(a, b, b, |b|, m);
    ModelTotalPermutes(a, a, b, m);
    SameMembers(a, b);
  }

  lemma SameMembers(a: seq<EventRow>, b: seq<EventRow>)
    requires multiset(a) == multiset(b)
    ensures forall x :: x in a <==> x in b
  {
    forall x
      ensures x in a <==> x in b
    {
      assert x in a <==> x in multiset(a);
      assert x in b <==> x in multiset(b);
    }
  }

  /** Lists that hold the same rows of every session, in the same order within each, give the same result. */
  lemma OrderOfSessionsIsFree(a: seq<EventRow>, b: seq<EventRow>, outA: seq<ModelRow>, outB: seq<ModelRow>)
    requires SameViews(a, b) && RowsOf(outA, Listed(a)) && RowsOf(outB, Listed(b))
    ensures outA == outB
  {
    hide SameViews, RowsOf, Listed;
    forall m
      ensures (m in Listed(a) <==> m in Listed(b)) && Get(Listed(a), m) == Get(Listed(b), m)
    {
      SameViewsSameEntry(a, b, m);
    }
    assert Listed(a) == Listed(b);
    RowsAreUnique(outA, outB, Listed(a));
  }

  /** All sessions of a store, one after the other in the given order. */
  function Concat(logs: map<string, seq<EventRow>>, order: seq<string>, n: nat): seq<EventRow>
    requires n <= |order| && Listing(order) <= logs.Keys
  {
    if n == 0 then [] else assert order[n - 1] in Listing(order); Concat(logs, order, n - 1) + logs[order[n - 1]]
  }

  function Listing(order: seq<string>): set<string> {
    set s | s in order
  }

  predicate Own(rows: seq<EventRow>, s: string) {
    forall r | r in rows :: r.session == s
  }

  ghost predicate OwnRows(logs: map<string, seq<EventRow>>) {
    forall s | s in logs :: Own(logs[s], s)
  }

  ghost predicate Once(order: seq<string>, n: nat)
    requires n <= |order|
  {
    forall i, j | 0 <= i < j < n :: order[i] != order[j]
  }

  lemma {:induction false} ViewOfAppend(a: seq<EventRow>, b: seq<EventRow>, n: nat, s: string)
    requires n <= |b|
    ensures View(a + b, |a| + n, s) == View(a, |a|, s) + View(b, n, s)
  {
    if n > 0 {
      ViewOfAppend(a, b, n - 1, s);
      assert (a + b)[|a| + n - 1] == b[n - 1];
    } else {
      ViewFrame(a, b, |a|, s);
    }
  }

  lemma {:induction false} ViewFrame(a: seq<EventRow>, b: seq<EventRow>, n: nat, s: string)
    requires n <= |a|
    ensures View(a + b, n, s) == View(a, n, s)
  {
    if n > 0 {
      ViewFrame(a, b, n - 1, s);
    }
  }

  lemma OwnAt(rows: seq<EventRow>, own: string, i: nat)
    requires i < |rows| && Own(rows, own)
    ensures rows[i].session == own && rows[..i + 1] == rows[..i] + [rows[i]]
  {
    assert rows[i] in rows;
  }

  lemma {:induction false} ViewOfOwn(rows: seq<EventRow>, n: nat, own: string, s: string)
    requires n <= |rows| && Own(rows, own)
    ensures View(rows, n, s) == if s == own then rows[..n] else []
  {
    hide Own;
    if n > 0 {
      ViewOfOwn(rows, n - 1, own, s);
      OwnAt(rows, own, n - 1);
    }
  }

  lemma ListedNext(order: seq<string>, n: nat, s: string)
    requires 0 < n <= |order| && Once(order, n)
    ensures s in order[..n] <==> s in order[..n - 1] || s == order[n - 1]
    ensures order[n - 1] !in order[..n - 1]
  {
    assert order[..n] == order[..n - 1] + [order[n - 1]];
  }

  lemma EmptyView(s: string)
    ensures View([], 0, s) == []
  {
  }

  lemma {:induction false} ViewOfConcat(logs: map<string, seq<EventRow>>, order: seq<string>, n: nat, s: string)
    requires n <= |order| && Listing(order) <= logs.Keys && OwnRows(logs) && Once(order, n)
    ensures var all := Concat(logs, order, n); View(all, |all|, s) == if s in order[..n] then logs[s] else []
  {
    hide View;
    if n > 0 {
      ViewOfConcat(logs, order, n - 1, s);
      var all, last := Concat(logs, order, n - 1), order[n - 1];
      assert last in Listing(order);
      ViewOfAppend(all, logs[last], |logs[last]|, s);
      ViewOfOwn(logs[last], |logs[last]|, last, s);
      assert logs[last][..|logs[last]|] == logs[last];
      ListedNext(order, n, s);
    } else {
      EmptyView(s);
    }
  }

  /** Any two orders in which every session is listed once give the same rows. */
  lemma TenantCostIsOrderFree(logs: map<string, seq<EventRow>>, p: seq<string>, q: seq<string>)
    requires OwnRows(logs) && Once(p, |p|) && Once(q, |q|) && Listing(p) == logs.Keys == Listing(q)
    ensures var a, b := Concat(logs, p, |p|), Concat(logs, q, |q|);
            forall outA, outB | RowsOf(outA, Listed(a)) && RowsOf(outB, Listed(b)) :: outA == outB
  {
    hide RowsOf, Listed, Concat, OwnRows, View;
    var a, b := Concat(logs, p, |p|), Concat(logs, q, |q|);
    assert p[..|p|] == p && q[..|q|] == q;
    forall s
      ensures View(a, |a|, s) == View(b, |b|, s)
    {
      ViewOfConcat(logs, p, |p|, s);
      ViewOfConcat(logs, q, |q|, s);
      assert s in p <==> s in Listing(p);
      assert s in q <==> s in Listing(q);
    }
    forall outA, outB | RowsOf(outA, Listed(a)) && RowsOf(outB, Listed(b))
      ensures outA == outB
    {
      OrderOfSessionsIsFree(a, b, outA, outB);
    }
  }
}
