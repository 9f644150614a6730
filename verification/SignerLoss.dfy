/**
  What becomes of a leaf the signer passes over. Nothing here assumes an ascending feed, a
  gap-free cursor or calls that succeed: the facts hold in every possible run.
 */
module SignerLoss {
  import opened Hashing
  import opened Checkpoints
  import opened SignerModel
  import opened SignerInvariant
  import opened SignerRuns
  import opened SignerLimits
  import InsertionSort

  // ---- Which leaves a row was folded from ----

  ghost predicate Climbs(s: seq<Leaf>, lo: int) {
    && (forall i | 0 <= i < |s| :: s[i].gid > lo)
    && (forall i, j | 0 <= i < j < |s| :: s[i].gid < s[j].gid)
  }

  ghost predicate FromFeed(s: seq<Leaf>, feed: seq<Row>) {
    forall l | l in s :: l in Chained(feed)
  }

  predicate Lacks(s: seq<Leaf>, g: int) {
    forall l | l in s :: l.gid != g
  }

  /** Row i is the fold of this group of chained rows. */
  ghost predicate Folds(k: Keys, feed: seq<Row>, table: seq<Checkpoint>, i: nat, group: seq<Leaf>) {
    && i < |table| && group != [] && Climbs(group, 0) && FromFeed(group, feed)
    && table[i] == Fold(k, i == 0, HeadHash(k, table, i), group)
  }

  // ---- The groups a run has folded, one for each row it stored ----

  type Groups = seq<seq<Leaf>>

  function FlushGroups(c: Config, w: World, h: Groups): Groups {
    if |FlushLeaves(c, w).db.table| > |w.db.table| then h + [w.s.leaves] else h
  }

  function PushGroups(c: Config, w: World, l: Leaf, h: Groups): Groups {
    var v := w.(s := w.s.(leaves := w.s.leaves + [l], lastSeen := l.gid));
    if |v.s.leaves| >= c.every then FlushGroups(c, v, h) else h
  }

  function HydrateGroups(c: Config, w: World, tail: seq<Leaf>, i: nat, h: Groups): Groups
    requires i <= |tail|
    decreases |tail| - i
  {
    if i == |tail| || !w.ok then h
    else HydrateGroups(c, Push(c, w, tail[i]), tail, i + 1, PushGroups(c, w, tail[i], h))
  }

  function LoadGroups(c: Config, w: World, h: Groups): Groups {
    if w.s.loaded || w.db.budget < 2 then h else
    var s := LoadHead(c.keys, w.s, w.db.table);
    HydrateGroups(c, World(s, w.db.(budget := w.db.budget - 2), true), Above(Log(w.db.feed), s.lastCovered), 0, h)
  }

  function DeliverRowGroups(c: Config, w: World, r: Row, h: Groups): Groups {
    if r.hash.None? || r.gid <= w.s.lastSeen then h else PushGroups(c, w, Leaf(r.gid, r.hash.value), h)
  }

  function DeliverGroups(c: Config, w: World, rows: seq<Row>, i: nat, h: Groups): Groups
    requires i <= |rows|
    decreases |rows| - i
  {
    if i == |rows| || !w.ok then h
    else DeliverGroups(c, DeliverRow(c, w, rows[i]), rows, i + 1, DeliverRowGroups(c, w, rows[i], h))
  }

  function ExecGroups(c: Config, st: State, step: Step, h: Groups): Groups
    requires st.cursor <= |st.w.db.feed|
  {
    if !step.Batch? && !step.CatchUp? then h else
    var w := Armed(st, step.budget);
    var v, loaded := EnsureLoaded(c, w), LoadGroups(c, w, h);
    if !v.ok then loaded
    else if step.Batch? then DeliverGroups(c, v, st.w.db.feed[st.cursor..End(st, step.n)], 0, loaded)
    else FlushGroups(c, v, loaded)
  }

  /** The accumulators flushed in the first n steps, in the order of the rows they became. */
  function History(c: Config, steps: seq<Step>, n: nat): Groups
    requires n <= |steps|
  {
    if n == 0 then [] else
    var st, h := Run(c, steps, n - 1), History(c, steps, n - 1);
    if st.cursor <= |st.w.db.feed| then ExecGroups(c, st, steps[n - 1], h) else h
  }

  ghost predicate RecordsAt(k: Keys, feed: seq<Row>, table: seq<Checkpoint>, h: Groups, i: nat) {
    i < |h| && Folds(k, feed, table, i, h[i])
  }

  /** The table is the recorded groups, folded one by one. */
  ghost predicate Records(k: Keys, feed: seq<Row>, table: seq<Checkpoint>, h: Groups) {
    |h| == |table| && forall i {:trigger RecordsAt(k, feed, table, h, i)} | 0 <= i < |h| :: RecordsAt(k, feed, table, h, i)
  }

  /** No row was folded from the leaf with global id g. */
  predicate Omits(h: Groups, g: int) {
    forall i | 0 <= i < |h| :: Lacks(h[i], g)
  }

  /** Some row was folded from leaf l. */
  predicate Anchors(h: Groups, l: Leaf) {
    exists i | 0 <= i < |h| :: l in h[i]
  }

  lemma FoldsExtend(k: Keys, feed: seq<Row>, table: seq<Checkpoint>, i: nat, group: seq<Leaf>, moreFeed: seq<Row>, more: seq<Checkpoint>)
    requires Folds(k, feed, table, i, group) && feed <= moreFeed && table <= more
    ensures Folds(k, moreFeed, more, i, group)
  {
    hide Fold, Climbs, Chained;
    FromMore(group, feed, moreFeed);
  }

  lemma FromMore(s: seq<Leaf>, feed: seq<Row>, more: seq<Row>)
    requires FromFeed(s, feed) && feed <= more
    ensures FromFeed(s, more)
  {
    ChainedExtends(feed, more, |feed|);
    ChainedMonotone(more, |feed|, |more|);
  }

  lemma FeedMore(k: Keys, feed: seq<Row>, more: seq<Row>, table: seq<Checkpoint>, h: Groups)
    requires Records(k, feed, table, h) && feed <= more
    ensures Records(k, more, table, h)
  {
    hide Folds;
    forall i | 0 <= i < |h|
      ensures RecordsAt(k, more, table, h, i)
    {
      assert RecordsAt(k, feed, table, h, i);
      FoldsExtend(k, feed, table, i, h[i], more, table);
    }
  }

  lemma RecordsMore(k: Keys, feed: seq<Row>, table: seq<Checkpoint>, h: Groups, more: seq<Checkpoint>, group: seq<Leaf>)
    requires Records(k, feed, table, h) && table <= more && |more| == |table| + 1 && Folds(k, feed, more, |table|, group)
    ensures Records(k, feed, more, h + [group])
  {
    hide Folds;
    forall i | 0 <= i < |h + [group]|
      ensures RecordsAt(k, feed, more, h + [group], i)
    {
      if i < |h| {
        assert RecordsAt(k, feed, table, h, i);
        FoldsExtend(k, feed, table, i, h[i], feed, more);
      }
    }
  }

  // ---- In every run the table rises ----

  ghost predicate Stacked(table: seq<Checkpoint>) {
    && (forall i | 0 <= i < |table| :: 1 <= table[i].from <= table[i].to)
    && (forall i, j | 0 <= i < j < |table| :: table[i].to < table[j].from)
  }

  /** The memory of a loaded signer stands on top of the table. */
  ghost predicate Tops(k: Keys, feed: seq<Row>, table: seq<Checkpoint>, s: Signer) {
    && s.prev == HeadHash(k, table, |table|) && s.lastCovered == HeadTo(table, |table|)
    && Climbs(s.leaves, s.lastCovered) && FromFeed(s.leaves, feed)
    && s.lastSeen == if s.leaves == [] then s.lastCovered else s.leaves[|s.leaves| - 1].gid
  }

  ghost predicate Rises(c: Config, w: World, h: Groups) {
    && Stacked(w.db.table) && Records(c.keys, w.db.feed, w.db.table, h)
    && (if w.s.loaded then Tops(c.keys, w.db.feed, w.db.table, w.s) else w.s.leaves == [])
  }

  /** The signer has gone past global id g, and neither a row nor the accumulator has its leaf. */
  predicate Passed(w: World, h: Groups, g: int) {
    && Omits(h, g)
    && (if w.s.loaded then g <= w.s.lastSeen && Lacks(w.s.leaves, g) else g <= HeadTo(w.db.table, |w.db.table|))
  }

  /** Leaf l is accumulated or folded into a row. */
  predicate Has(w: World, h: Groups, l: Leaf) {
    l in w.s.leaves || Anchors(h, l)
  }

  lemma HeadIsHighest(table: seq<Checkpoint>)
    requires Stacked(table)
    ensures HeadTo(table, |table|) >= 0 && (table != [] <==> HeadTo(table, |table|) != 0)
    ensures forall i | 0 <= i < |table| :: table[i].to <= HeadTo(table, |table|)
  {
    forall i | 0 <= i < |table|
      ensures table[i].to <= HeadTo(table, |table|)
    {
      if i < |table| - 1 {
        assert table[i].to < table[|table| - 1].from;
      }
    }
  }

  /** The row a flush stores: the fold of the accumulator on top of the table, in conflict with none. */
  lemma StoresTheFold(c: Config, w: World, h: Groups)
    requires Rises(c, w, h) && w.s.loaded && w.s.leaves != [] && w.db.budget > 0
    ensures var cp := Fold(c.keys, w.db.table == [], HeadHash(c.keys, w.db.table, |w.db.table|), w.s.leaves);
            && FlushLeaves(c, w) == World(w.s.(prev := cp.hash, lastCovered := cp.to, leaves := []),
                                          w.db.(table := w.db.table + [cp], budget := w.db.budget - 1), true)
            && FlushGroups(c, w, h) == h + [w.s.leaves]
  {
    hide LeavesDigest, CheckpointHash, Records;
    HeadIsHighest(w.db.table);
    var cp := MakeCheckpoint(c.keys, w.s);
    assert cp == Fold(c.keys, w.db.table == [], HeadHash(c.keys, w.db.table, |w.db.table|), w.s.leaves);
    assert cp.to > w.s.lastCovered;
  }

  lemma StackedMore(table: seq<Checkpoint>, cp: Checkpoint)
    requires Stacked(table) && HeadTo(table, |table|) < cp.from <= cp.to
    ensures Stacked(table + [cp])
  {
    HeadIsHighest(table);
  }

  lemma NewRowFolds(k: Keys, feed: seq<Row>, table: seq<Checkpoint>, leaves: seq<Leaf>)
    requires leaves != [] && Climbs(leaves, 0) && FromFeed(leaves, feed)
    ensures Folds(k, feed, table + [Fold(k, table == [], HeadHash(k, table, |table|), leaves)], |table|, leaves)
  {
    hide Fold, Climbs, Chained;
    var cp := Fold(k, table == [], HeadHash(k, table, |table|), leaves);
    assert HeadHash(k, table + [cp], |table|) == HeadHash(k, table, |table|);
  }

  lemma FlushRises(c: Config, w: World, h: Groups, g: int, l: Leaf)
    requires Rises(c, w, h) && w.s.loaded
    ensures var v, more := FlushLeaves(c, w), FlushGroups(c, w, h);
            && Rises(c, v, more) && v.s.loaded && v.db.feed == w.db.feed && v.s.lastSeen == w.s.lastSeen && w.db.table <= v.db.table
            && (v.ok && w.ok ==> v.s.leaves == [])
            && (Passed(w, h, g) ==> Passed(v, more, g)) && (Has(w, h, l) ==> Has(v, more, l))
  {
    hide Fold, Folds, Records, MakeCheckpoint, Insert, Stacked, FromFeed;
    if w.s.leaves != [] && w.db.budget > 0 {
      var k, feed, table, leaves := c.keys, w.db.feed, w.db.table, w.s.leaves;
      var cp := Fold(k, table == [], HeadHash(k, table, |table|), leaves);
      StoresTheFold(c, w, h);
      FoldFields(k, table == [], HeadHash(k, table, |table|), leaves);
      HeadIsHighest(table);
      StackedMore(table, cp);
      NewRowFolds(k, feed, table, leaves);
      RecordsMore(k, feed, table, h, table + [cp], leaves);
      GroupsMore(h, leaves, g, l);
      assert HeadTo(table + [cp], |table + [cp]|) == cp.to && HeadHash(k, table + [cp], |table + [cp]|) == cp.hash;
      NothingFrom(feed);
    }
  }

  lemma GroupsMore(h: Groups, group: seq<Leaf>, g: int, l: Leaf)
    ensures Omits(h + [group], g) <==> Omits(h, g) && Lacks(group, g)
    ensures Anchors(h + [group], l) <==> Anchors(h, l) || l in group
  {
    hide Lacks;
    var more := h + [group];
    assert more[|h|] == group && forall i | 0 <= i < |h| :: more[i] == h[i];
  }

  lemma NothingFrom(feed: seq<Row>)
    ensures FromFeed([], feed)
  {
  }

  lemma AccumulateRises(c: Config, w: World, h: Groups, x: Leaf)
    requires Rises(c, w, h) && w.s.loaded && x.gid > w.s.lastSeen && x in Chained(w.db.feed)
    ensures Rises(c, w.(s := w.s.(leaves := w.s.leaves + [x], lastSeen := x.gid)), h)
  {
    hide Records, Stacked, Chained;
  }

  lemma PushRises(c: Config, w: World, h: Groups, x: Leaf, g: int, l: Leaf)
    requires Rises(c, w, h) && w.s.loaded && x.gid > w.s.lastSeen && x in Chained(w.db.feed)
    ensures var v, more := Push(c, w, x), PushGroups(c, w, x, h);
            && Rises(c, v, more) && v.s.loaded && v.db.feed == w.db.feed && v.s.lastSeen == x.gid && w.db.table <= v.db.table
            && (Passed(w, h, g) ==> Passed(v, more, g)) && (Has(w, h, l) || l == x ==> Has(v, more, l))
            && (x.gid >= g && Omits(h, g) && Lacks(w.s.leaves + [x], g) ==> Passed(v, more, g))
  {
    hide FlushLeaves, FlushGroups, Rises, Anchors, Omits;
    var u := w.(s := w.s.(leaves := w.s.leaves + [x], lastSeen := x.gid));
    AccumulateRises(c, w, h, x);
    FlushRises(c, u, h, g, l);
  }

  ghost predicate ClimbsFrom(tail: seq<Leaf>, i: nat, lo: int) {
    && (forall j | i <= j < |tail| :: tail[j].gid > lo)
    && (forall j, m | i <= j < m < |tail| :: tail[j].gid < tail[m].gid)
  }

  lemma {:induction false} HydrateRises(c: Config, w: World, h: Groups, tail: seq<Leaf>, i: nat, g: int, l: Leaf)
    requires Rises(c, w, h) && w.s.loaded && i <= |tail| && ClimbsFrom(tail, i, w.s.lastSeen) && FromFeed(tail, w.db.feed)
    ensures var v, more := Hydrate(c, w, tail, i), HydrateGroups(c, w, tail, i, h);
            && Rises(c, v, more) && v.s.loaded && v.db.feed == w.db.feed && w.db.table <= v.db.table
            && (Passed(w, h, g) ==> Passed(v, more, g)) && (Has(w, h, l) ==> Has(v, more, l))
            && (v.ok && (exists j | i <= j < |tail| :: tail[j] == l) ==> Has(v, more, l))
    decreases |tail| - i
  {
    hide Push, PushGroups, Rises, Has, Passed, Chained;
    if i < |tail| && w.ok {
      assert tail[i] in tail;
      PushRises(c, w, h, tail[i], g, l);
      HydrateRises(c, Push(c, w, tail[i]), PushGroups(c, w, tail[i], h), tail, i + 1, g, l);
    }
  }

  // ---- The tail query ----

  lemma ClimbsSnoc(s: seq<Leaf>, lo: int, l: Leaf)
    requires Climbs(s, lo) && l.gid > lo && forall x | x in s :: x.gid < l.gid
    ensures Climbs(s + [l], lo)
  {
    forall i | 0 <= i < |s|
      ensures s[i].gid < l.gid
    {
      assert s[i] in s;
    }
  }

  /** An ascending list ends with its greatest element. */
  lemma ClimbsToLast(s: seq<Leaf>, lo: int)
    requires Climbs(s, lo) && s != []
    ensures var n := |s| - 1; Climbs(s[..n], lo) && s == s[..n] + [s[n]] && forall x | x in s[..n] :: x.gid < s[n].gid
  {
  }

  lemma ClimbsPositive(s: seq<Leaf>, lo: int, i: nat)
    requires Climbs(s, lo) && i < |s|
    ensures s[i].gid > lo
  {
  }

  /** The log by global id: every chained row once, strictly ascending. */
  lemma LogClimbs(feed: seq<Row>)
    requires WellFormed(feed)
    ensures Climbs(Log(feed), 0) && forall l :: l in Log(feed) <==> l in Chained(feed)
  {
    var leaves := Chained(feed);
    forall x, y | 0 <= x < |leaves| && 0 <= y < |leaves|
      ensures leaves[x].gid > 0
      ensures x != y ==> leaves[x].gid != leaves[y].gid
    {
      var i := RowOfLeaf(feed, |feed|, x);
      var j := RowOfLeaf(feed, |feed|, y);
    }
    InsertionSort.SortSorts(BY_GID, leaves, |leaves|);
    InsertionSort.SortMembers(BY_GID, leaves, |leaves|);
    assert leaves[..|leaves|] == leaves;
    var log := Log(feed);
    forall m | 0 <= m < |log|
      ensures log[m].gid > 0
    {
      assert log[m] in leaves;
    }
  }

  lemma {:induction false} SelectClimbs(log: seq<Leaf>, n: nat, lo: Option<int>, hi: Option<int>)
    requires n <= |log| && Climbs(log, 0)
    ensures Climbs(Select(log, n, lo, hi), 0)
    ensures forall x | x in Select(log, n, lo, hi) :: n > 0 && x.gid <= log[n - 1].gid
    ensures forall x :: x in Select(log, n, lo, hi) <==> x in log[..n] && Within(x, lo, hi)
  {
    if n > 0 {
      SelectClimbs(log, n - 1, lo, hi);
      SliceSnoc(log, 0, n);
      ClimbsPositive(log, 0, n - 1);
      if Within(log[n - 1], lo, hi) {
        forall x | x in Select(log, n - 1, lo, hi)
          ensures x.gid < log[n - 1].gid
        {
          assert log[n - 2].gid < log[n - 1].gid;
        }
        ClimbsSnoc(Select(log, n - 1, lo, hi), 0, log[n - 1]);
      }
    }
  }

  lemma TailClimbs(feed: seq<Row>, lo: int)
    requires WellFormed(feed)
    ensures var tail := Above(Log(feed), lo);
            && ClimbsFrom(tail, 0, lo) && FromFeed(tail, feed)
            && forall l | l in Chained(feed) && l.gid > lo :: l in tail
  {
    hide Chained, Log;
    LogClimbs(feed);
    var log := Log(feed);
    SelectClimbs(log, |log|, Some(lo + 1), None);
    assert log[..|log|] == log;
    var tail := Above(log, lo);
    forall j | 0 <= j < |tail|
      ensures tail[j].gid > lo
    {
      assert tail[j] in tail;
    }
  }

  // ---- Loading and delivering ----

  lemma LoadedHeadTops(c: Config, w: World, h: Groups)
    requires Rises(c, w, h) && !w.s.loaded
    ensures var s := LoadHead(c.keys, w.s, w.db.table);
            && s.loaded && s.leaves == [] && s.lastSeen == s.lastCovered == HeadTo(w.db.table, |w.db.table|)
            && Tops(c.keys, w.db.feed, w.db.table, s)
  {
    hide Folds, Chained;
    if w.db.table != [] {
      var n := |w.db.table| - 1;
      assert RecordsAt(c.keys, w.db.feed, w.db.table, h, n);
      RowHash(c.keys, w.db.feed, w.db.table, n, h[n]);
    }
  }

  lemma RowHash(k: Keys, feed: seq<Row>, table: seq<Checkpoint>, i: nat, group: seq<Leaf>)
    requires Folds(k, feed, table, i, group)
    ensures |table[i].hash| == 32
  {
    hide Fold;
    FoldFields(k, i == 0, HeadHash(k, table, i), group);
  }

  lemma LoadRises(c: Config, w: World, h: Groups, g: int, l: Leaf)
    requires Rises(c, w, h) && w.ok && WellFormed(w.db.feed)
    ensures var v, more := EnsureLoaded(c, w), LoadGroups(c, w, h);
            && Rises(c, v, more) && v.db.feed == w.db.feed && w.db.table <= v.db.table && (w.s.loaded || v.ok ==> v.s.loaded)
            && (Passed(w, h, g) ==> Passed(v, more, g)) && (Has(w, h, l) ==> Has(v, more, l))
            && (v.ok && !w.s.loaded && l in Chained(w.db.feed) && l.gid > HeadTo(w.db.table, |w.db.table|) ==> Has(v, more, l))
  {
    hide Hydrate, HydrateGroups, Stacked, Records, Omits, Anchors, Above, Log, Chained, Tops;
    if !w.s.loaded && w.db.budget > 0 {
      LoadedHeadTops(c, w, h);
      var s := LoadHead(c.keys, w.s, w.db.table);
      var u := World(s, w.db.(budget := if w.db.budget == 1 then 0 else w.db.budget - 2), true);
      assert Rises(c, u, h) && (Passed(w, h, g) ==> Passed(u, h, g)) && (Has(w, h, l) ==> Has(u, h, l));
      if w.db.budget > 1 {
        var tail := Above(Log(w.db.feed), s.lastCovered);
        TailClimbs(w.db.feed, s.lastCovered);
        HydrateRises(c, u, h, tail, 0, g, l);
      }
    }
  }

  ghost predicate RowsFrom(rows: seq<Row>, feed: seq<Row>) {
    forall x | 0 <= x < |rows| && rows[x].hash.Some? :: Leaf(rows[x].gid, rows[x].hash.value) in Chained(feed)
  }

  lemma SliceIsFromFeed(feed: seq<Row>, p: nat, q: nat)
    requires p <= q <= |feed|
    ensures RowsFrom(feed[p..q], feed)
  {
    var rows := feed[p..q];
    forall x | 0 <= x < |rows| && rows[x].hash.Some?
      ensures Leaf(rows[x].gid, rows[x].hash.value) in Chained(feed)
    {
      assert rows[x] == feed[p + x];
      LeafOfRow(feed, p + x, |feed|);
    }
  }

  lemma {:induction false} DeliverRises(c: Config, w: World, h: Groups, rows: seq<Row>, i: nat, g: int, l: Leaf)
    requires Rises(c, w, h) && w.s.loaded && i <= |rows| && RowsFrom(rows, w.db.feed)
    ensures var v, more := Deliver(c, w, rows, i), DeliverGroups(c, w, rows, i, h);
            && Rises(c, v, more) && v.s.loaded && v.db.feed == w.db.feed && w.db.table <= v.db.table
            && (Passed(w, h, g) ==> Passed(v, more, g)) && (Has(w, h, l) ==> Has(v, more, l))
    decreases |rows| - i
  {
    hide Push, PushGroups, Rises, Has, Passed, Chained;
    if i < |rows| && w.ok {
      var r := rows[i];
      if r.hash.Some? && r.gid > w.s.lastSeen {
        PushRises(c, w, h, Leaf(r.gid, r.hash.value), g, l);
      }
      DeliverRises(c, DeliverRow(c, w, r), DeliverRowGroups(c, w, r, h), rows, i + 1, g, l);
    }
  }

  // ---- Every step ----

  lemma SettleRises(c: Config, w: World, h: Groups, rows: seq<Row>)
    requires Rises(c, w, h)
    ensures Rises(c, w.(db := w.db.(feed := w.db.feed + rows)), h)
  {
    hide Records, Stacked, FromFeed, Climbs;
    var k, feed, more, table := c.keys, w.db.feed, w.db.feed + rows, w.db.table;
    FeedMore(k, feed, more, table, h);
    FromMoreOrNone(w.s, k, feed, more, table);
  }

  lemma FromMoreOrNone(s: Signer, k: Keys, feed: seq<Row>, more: seq<Row>, table: seq<Checkpoint>)
    requires feed <= more
    ensures Tops(k, feed, table, s) ==> Tops(k, more, table, s)
  {
    hide Chained;
    if FromFeed(s.leaves, feed) {
      FromMore(s.leaves, feed, more);
    }
  }

  /** The table grows, the history with it, and nothing already had or passed changes sides. */
  lemma CallRises(c: Config, st: State, h: Groups, step: Step, g: int, l: Leaf)
    requires Rises(c, st.w, h) && st.cursor <= |st.w.db.feed| && WellFormed(st.w.db.feed) && (step.Batch? || step.CatchUp?)
    ensures var v, more := Exec(c, st, step).w, ExecGroups(c, st, step, h);
            && Rises(c, v, more) && st.w.db.table <= v.db.table && (st.w.s.loaded ==> v.s.loaded)
            && (Passed(st.w, h, g) ==> Passed(v, more, g)) && (Has(st.w, h, l) ==> Has(v, more, l))
  {
    hide EnsureLoaded, LoadGroups, Deliver, DeliverGroups, FlushLeaves, FlushGroups, Stacked, Records, Tops, Omits, Anchors, WellFormed;
    var w := Armed(st, step.budget);
    LoadRises(c, w, h, g, l);
    var u, loaded := EnsureLoaded(c, w), LoadGroups(c, w, h);
    if u.ok {
      if step.Batch? {
        SliceIsFromFeed(st.w.db.feed, st.cursor, End(st, step.n));
        DeliverRises(c, u, loaded, st.w.db.feed[st.cursor..End(st, step.n)], 0, g, l);
      } else {
        FlushRises(c, u, loaded, g, l);
      }
    }
  }

  lemma {:induction false} RunRises(c: Config, steps: seq<Step>, n: nat)
    requires n <= |steps| && LegalTo(c, steps, n)
    ensures var st := Run(c, steps, n);
            Rises(c, st.w, History(c, steps, n)) && WellFormed(st.w.db.feed) && st.cursor <= |st.w.db.feed|
  {
    hide Rises, Exec, ExecGroups, WellFormed;
    if n == 0 {
      InitialRises(c);
    } else {
      RunRises(c, steps, n - 1);
      StepRises(c, Run(c, steps, n - 1), History(c, steps, n - 1), steps[n - 1]);
    }
  }

  lemma InitialRises(c: Config)
    ensures Rises(c, INITIAL.w, []) && WellFormed([])
  {
  }

  lemma StepRises(c: Config, st: State, h: Groups, step: Step)
    requires Rises(c, st.w, h) && WellFormed(st.w.db.feed) && st.cursor <= |st.w.db.feed| && Legal(st, step)
    ensures var v := Exec(c, st, step);
            Rises(c, v.w, ExecGroups(c, st, step, h)) && WellFormed(v.w.db.feed) && v.cursor <= |v.w.db.feed|
  {
    hide Project, Flush, EnsureLoaded, LoadGroups, Stacked, Records, Tops, WellFormed;
    FeedGrows(c, st, step);
    match step
    case Settle(rows) => SettleRises(c, st.w, h, rows);
    case Restart(cursor) =>
    case _ =>
      assert st.w.db.feed + [] == st.w.db.feed;
      CallRises(c, st, h, step, 0, Leaf(0, CheckpointGenesisPrev(c.keys.sha)));
  }

  /**
    In every possible run, ascending feed or not, gaps or not, ranges are disjoint and strictly
    ascending, and the rows are the folds of the groups flushed, each of chained rows, in order.
   */
  lemma EveryTableIsStacked(c: Config, steps: seq<Step>)
    requires LegalTo(c, steps, |steps|)
    ensures var w := Final(c, steps).w;
            Stacked(w.db.table) && Records(c.keys, w.db.feed, w.db.table, History(c, steps, |steps|))
  {
    hide Stacked, Records, LegalTo, Run, History;
    RunRises(c, steps, |steps|);
  }

  // ---- A leaf at or below the head of the table that no row has ----

  predicate Missed(w: World, h: Groups, g: int) {
    g <= HeadTo(w.db.table, |w.db.table|) && Omits(h, g)
  }

  ghost predicate MissedAt(c: Config, steps: seq<Step>, n: nat, g: int)
    requires n <= |steps|
  {
    Missed(Run(c, steps, n).w, History(c, steps, n), g)
  }

  lemma MissedIsPassed(c: Config, w: World, h: Groups, g: int)
    requires Rises(c, w, h) && Missed(w, h, g)
    ensures Passed(w, h, g)
  {
    hide Omits, Records, FromFeed;
    if w.s.loaded {
      forall l | l in w.s.leaves
        ensures l.gid != g
      {
      }
    }
  }

  /** What has been passed and lies at or below the head of the table is missed. */
  lemma PassedAndCovered(w: World, h: Groups, g: int)
    requires Passed(w, h, g) && g <= HeadTo(w.db.table, |w.db.table|)
    ensures Missed(w, h, g)
  {
    hide Omits, HeadTo;
  }

  lemma HeadRises(before: seq<Checkpoint>, after: seq<Checkpoint>)
    requires before <= after && Stacked(after)
    ensures HeadTo(before, |before|) <= HeadTo(after, |after|)
  {
    HeadIsHighest(after);
  }

  lemma StaysMissed(c: Config, st: State, h: Groups, step: Step, g: int)
    requires Rises(c, st.w, h) && WellFormed(st.w.db.feed) && st.cursor <= |st.w.db.feed| && Legal(st, step)
    requires Missed(st.w, h, g)
    ensures Missed(Exec(c, st, step).w, ExecGroups(c, st, step, h), g)
  {
    hide Project, Flush, EnsureLoaded, LoadGroups, Stacked, Omits, Records, Tops, WellFormed, HeadTo;
    if step.Batch? || step.CatchUp? {
      MissedIsPassed(c, st.w, h, g);
      CallRises(c, st, h, step, g, Leaf(0, CheckpointGenesisPrev(c.keys.sha)));
      HeadRises(st.w.db.table, Exec(c, st, step).w.db.table);
    }
  }

  /** Such a leaf is lost for good: in every continuation, restarts included, no row is folded from it. */
  lemma {:induction false} MissedForGood(c: Config, steps: seq<Step>, m: nat, n: nat, g: int)
    requires m <= n <= |steps| && LegalTo(c, steps, n) && MissedAt(c, steps, m, g)
    ensures MissedAt(c, steps, n, g)
  {
    hide Missed, Exec, ExecGroups, Rises, WellFormed;
    if m < n {
      MissedForGood(c, steps, m, n - 1, g);
      RunRises(c, steps, n - 1);
      StaysMissed(c, Run(c, steps, n - 1), History(c, steps, n - 1), steps[n - 1], g);
    }
  }

  /** Every group lies in the range of its row. */
  lemma GroupInRange(k: Keys, feed: seq<Row>, table: seq<Checkpoint>, i: nat, group: seq<Leaf>, l: Leaf)
    requires Folds(k, feed, table, i, group) && l in group
    ensures table[i].from <= l.gid <= table[i].to
  {
    hide Fold, FromFeed;
    FoldFields(k, i == 0, HeadHash(k, table, i), group);
    var x :| 0 <= x < |group| && group[x] == l;
    GroupBounds(group, x);
  }

  /**
    In every run a chained leaf at or below the head of the table is either folded into a row,
    exactly one, or missed.
   */
  lemma AnchoredOnceOrMissed(c: Config, steps: seq<Step>, l: Leaf)
    requires LegalTo(c, steps, |steps|) && l in Chained(Final(c, steps).w.db.feed)
    requires var table := Final(c, steps).w.db.table; l.gid <= HeadTo(table, |table|)
    ensures var h := History(c, steps, |steps|);
            && (MissedAt(c, steps, |steps|, l.gid) <==> !Anchors(h, l))
            && forall i, j | 0 <= i < j < |h| :: !(l in h[i] && l in h[j])
  {
    hide Run, History, LegalTo, Chained, Folds, WellFormed, HeadTo;
    RunRises(c, steps, |steps|);
    var w, h := Final(c, steps).w, History(c, steps, |steps|);
    forall i, x: Leaf | 0 <= i < |h| && x in h[i] && x.gid == l.gid
      ensures x == l
    {
      assert RecordsAt(c.keys, w.db.feed, w.db.table, h, i);
      FoldsFromFeed(c.keys, w.db.feed, w.db.table, i, h[i], x);
      SameIdSameLeaf(w.db.feed, x, l);
    }
    forall i, j | 0 <= i < j < |h|
      ensures !(l in h[i] && l in h[j])
    {
      assert RecordsAt(c.keys, w.db.feed, w.db.table, h, i) && RecordsAt(c.keys, w.db.feed, w.db.table, h, j);
      if l in h[i] && l in h[j] {
        GroupInRange(c.keys, w.db.feed, w.db.table, i, h[i], l);
        GroupInRange(c.keys, w.db.feed, w.db.table, j, h[j], l);
      }
    }
  }

  lemma FoldsFromFeed(k: Keys, feed: seq<Row>, table: seq<Checkpoint>, i: nat, group: seq<Leaf>, l: Leaf)
    requires Folds(k, feed, table, i, group) && l in group
    ensures l in Chained(feed)
  {
  }

  lemma SameIdSameLeaf(feed: seq<Row>, x: Leaf, y: Leaf)
    requires WellFormed(feed) && x in Chained(feed) && y in Chained(feed) && x.gid == y.gid
    ensures x == y
  {
    var m, n :| 0 <= m < |Chained(feed)| && 0 <= n < |Chained(feed)| && Chained(feed)[m] == x && Chained(feed)[n] == y;
    var i := RowOfLeaf(feed, |feed|, m);
    var j := RowOfLeaf(feed, |feed|, n);
  }

  /** A leaf above the head of the table is not lost yet: a restart and a flush anchor it. */
  lemma RestartAnchors(c: Config, steps: seq<Step>, l: Leaf) returns (budget: nat)
    requires LegalTo(c, steps, |steps|)
    requires var w := Final(c, steps).w; l in Chained(w.db.feed) && l.gid > HeadTo(w.db.table, |w.db.table|)
    ensures var more := steps + [Restart(Final(c, steps).cursor), CatchUp(budget)];
            LegalTo(c, more, |more|) && Final(c, more).w.ok && Anchors(History(c, more, |more|), l)
  {
    hide Run, History, LegalTo, Exec, ExecGroups, Rises, Anchors, WellFormed, HeadTo, Log, Above;
    var st, h := Final(c, steps), History(c, steps, |steps|);
    RunRises(c, steps, |steps|);
    var once := steps + [Restart(st.cursor)];
    RunOneMore(c, steps, Restart(st.cursor));
    RunRises(c, once, |once|);
    FreshAfterRestart(c, st, h);
    budget := |Above(Log(st.w.db.feed), HeadTo(st.w.db.table, |st.w.db.table|))| + 3;
    RunOneMore(c, once, CatchUp(budget));
    assert once + [CatchUp(budget)] == steps + [Restart(st.cursor), CatchUp(budget)];
    FirstFlushAnchors(c, Run(c, once, |once|), h, budget, l);
  }

  lemma FreshAfterRestart(c: Config, st: State, h: Groups)
    requires st.cursor <= |st.w.db.feed|
    ensures Exec(c, st, Restart(st.cursor)) == State(World(FRESH, st.w.db, true), st.cursor)
    ensures ExecGroups(c, st, Restart(st.cursor), h) == h
  {
  }

  lemma FirstFlushAnchors(c: Config, st: State, h: Groups, budget: nat, l: Leaf)
    requires st.cursor <= |st.w.db.feed| && Rises(c, st.w, h) && WellFormed(st.w.db.feed) && !st.w.s.loaded
    requires l in Chained(st.w.db.feed) && l.gid > HeadTo(st.w.db.table, |st.w.db.table|)
    requires budget >= |Above(Log(st.w.db.feed), HeadTo(st.w.db.table, |st.w.db.table|))| + 3
    ensures Exec(c, st, CatchUp(budget)).w.ok && Anchors(ExecGroups(c, st, CatchUp(budget), h), l)
  {
    hide Hydrate, LoadGroups, FlushLeaves, FlushGroups, Stacked, Records, Tops, Omits, Anchors, WellFormed, Log, Above, Chained, HeadTo;
    var w := Armed(st, budget);
    LoadRises(c, w, h, 0, l);
    LoadedHeadTops(c, st.w, h);
    var s := LoadHead(c.keys, w.s, w.db.table);
    var tail := Above(Log(w.db.feed), s.lastCovered);
    HydrateSucceeds(c, World(s, w.db.(budget := budget - 2), true), tail, 0);
    var u := EnsureLoaded(c, w);
    FlushRises(c, u, LoadGroups(c, w, h), 0, l);
    FlushSucceeds(c, u);
  }

  lemma FlushSucceeds(c: Config, w: World)
    requires w.ok && w.db.budget > 0
    ensures FlushLeaves(c, w).ok
  {
  }

  // ---- Steps of a longer run ----

  lemma {:induction false} RunPrefix(c: Config, a: seq<Step>, b: seq<Step>, n: nat)
    requires n <= |a|
    ensures Run(c, a + b, n) == Run(c, a, n) && (LegalTo(c, a + b, n) <==> LegalTo(c, a, n))
    ensures History(c, a + b, n) == History(c, a, n)
  {
    hide Exec, ExecGroups, Legal;
    if n > 0 {
      RunPrefix(c, a, b, n - 1);
    }
  }

  lemma RunOneMore(c: Config, steps: seq<Step>, step: Step)
    requires LegalTo(c, steps, |steps|)
    requires var st := Run(c, steps, |steps|); st.cursor <= |st.w.db.feed|
    ensures Run(c, steps + [step], |steps| + 1) == Exec(c, Run(c, steps, |steps|), step)
    ensures History(c, steps + [step], |steps| + 1) == ExecGroups(c, Run(c, steps, |steps|), step, History(c, steps, |steps|))
    ensures Legal(Run(c, steps, |steps|), step) ==> LegalTo(c, steps + [step], |steps| + 1)
  {
    hide Exec, ExecGroups, Legal;
    RunPrefix(c, steps, [step], |steps|);
  }

  lemma {:induction false} StrandedPrefix(c: Config, a: seq<Step>, b: seq<Step>, n: nat)
    requires n <= |a|
    ensures Stranded(c, a + b, n) == Stranded(c, a, n)
  {
    hide Run;
    if n > 0 {
      StrandedPrefix(c, a, b, n - 1);
      RunPrefix(c, a, b, n - 1);
      RunPrefix(c, a, b, n);
    }
  }

  // ---- A leaf passed over stays passed until a restart ----

  ghost predicate PassedAt(c: Config, steps: seq<Step>, n: nat, g: int)
    requires n <= |steps|
  {
    Passed(Run(c, steps, n).w, History(c, steps, n), g)
  }

  ghost predicate NoRestart(steps: seq<Step>, m: nat, n: nat)
    requires n <= |steps|
  {
    forall i | m <= i < n :: !steps[i].Restart?
  }

  lemma StepStaysPassed(c: Config, st: State, h: Groups, step: Step, g: int)
    requires Rises(c, st.w, h) && WellFormed(st.w.db.feed) && st.cursor <= |st.w.db.feed|
    requires !step.Restart? && Passed(st.w, h, g)
    ensures Passed(Exec(c, st, step).w, ExecGroups(c, st, step, h), g)
  {
    hide Project, Flush, EnsureLoaded, LoadGroups, Rises, Omits, WellFormed, HeadTo;
    if !step.Settle? {
      CallRises(c, st, h, step, g, Leaf(0, CheckpointGenesisPrev(c.keys.sha)));
    }
  }

  lemma {:induction false} StaysPassed(c: Config, steps: seq<Step>, m: nat, n: nat, g: int)
    requires m <= n <= |steps| && LegalTo(c, steps, n) && NoRestart(steps, m, n) && PassedAt(c, steps, m, g)
    ensures PassedAt(c, steps, n, g)
  {
    hide Passed, Exec, ExecGroups, Rises, WellFormed;
    if m < n {
      StaysPassed(c, steps, m, n - 1, g);
      RunRises(c, steps, n - 1);
      StepStaysPassed(c, Run(c, steps, n - 1), History(c, steps, n - 1), steps[n - 1], g);
    }
  }

  /** Once the table reaches a leaf that was passed over, before any restart, the leaf is lost for good. */
  lemma PassedIsLost(c: Config, steps: seq<Step>, m: nat, n: nat, g: int)
    requires m <= n <= |steps| && LegalTo(c, steps, |steps|) && NoRestart(steps, m, n) && PassedAt(c, steps, m, g)
    requires var table := Run(c, steps, n).w.db.table; g <= HeadTo(table, |table|)
    ensures MissedAt(c, steps, |steps|, g)
  {
    hide Run, History, LegalTo, Passed, Missed, HeadTo;
    FeedBefore(c, steps, n, |steps|);
    StaysPassed(c, steps, m, n, g);
    PassedAndCovered(Run(c, steps, n).w, History(c, steps, n), g);
    MissedForGood(c, steps, n, |steps|, g);
  }

  /** A successful flush brings the table up to everything passed over. */
  lemma FlushReaches(c: Config, st: State, h: Groups, budget: nat, g: int)
    requires Rises(c, st.w, h) && st.w.s.loaded && st.cursor <= |st.w.db.feed| && Passed(st.w, h, g)
    requires Exec(c, st, CatchUp(budget)).w.ok
    ensures var table := Exec(c, st, CatchUp(budget)).w.db.table; g <= HeadTo(table, |table|)
  {
    hide FlushLeaves, FlushGroups, Stacked, Records, Omits, Anchors;
    FlushRises(c, Armed(st, budget), h, g, Leaf(0, CheckpointGenesisPrev(c.keys.sha)));
  }

  // ---- The overtaken leaf ----

  /** The run that overtakes a row, then one catch-up flush. */
  function LossRun(feed: seq<Row>, p: nat): seq<Step>
    requires p <= |feed|
  {
    OvertakingRun(feed, p) + [CatchUp(1)]
  }

  lemma OmitsUnknown(k: Keys, feed: seq<Row>, table: seq<Checkpoint>, h: Groups, g: int)
    requires Records(k, feed, table, h) && Lacks(Chained(feed), g)
    ensures Omits(h, g)
  {
    hide Chained, Climbs, Fold;
    forall i | 0 <= i < |h|
      ensures Lacks(h[i], g)
    {
      assert RecordsAt(k, feed, table, h, i);
    }
  }

  lemma NotYetSettled(feed: seq<Row>, p: nat, j: nat)
    requires WellFormed(feed) && p <= j < |feed|
    ensures Lacks(Chained(feed[..p]), feed[j].gid)
  {
    var head := feed[..p];
    forall l | l in Chained(head)
      ensures l.gid != feed[j].gid
    {
      var m :| 0 <= m < |Chained(head)| && Chained(head)[m] == l;
      var i := RowOfLeaf(head, |head|, m);
      assert head[i] == feed[i];
    }
  }

  /** A row that has not settled is passed by a frontier above its id. */
  lemma PassedBeforeItSettles(c: Config, w: World, h: Groups, feed: seq<Row>, p: nat, i: nat, j: nat)
    requires WellFormed(feed) && i < p <= j < |feed| && feed[i].hash.Some? && feed[j].gid < feed[i].gid
    requires Rises(c, w, h) && w.s.loaded && w.db.feed == feed[..p] && GapFree(w, p)
    ensures Passed(w, h, feed[j].gid)
  {
    hide Chained, Climbs, Stacked, Records, Omits;
    NotYetSettled(feed, p, j);
    OmitsUnknown(c.keys, w.db.feed, w.db.table, h, feed[j].gid);
    BelowFrontier(w, p, i);
  }

  lemma LossRunPasses(c: Config, feed: seq<Row>, i: nat, j: nat, p: nat)
    requires WellFormed(feed) && i < p <= j < |feed| && AscendingTo(feed, j)
    requires feed[i].hash.Some? && feed[j].hash.Some? && feed[j].gid < feed[i].gid
    requires feed[p - 1].txid < feed[p].txid
    ensures var steps := OvertakingRun(feed, p);
            && LegalTo(c, steps, 4) && Run(c, steps, 4).w.s.loaded && PassedAt(c, steps, 4, feed[j].gid)
  {
    hide Run, History, LegalTo, Exec, Rises, Passed, Good, GapFree, WellFormed, Accounted;
    var steps := OvertakingRun(feed, p);
    OvertakenLeafIsSkipped(c, feed, i, j, p);
    var st2 := FirstHalf(c, feed, p);
    RunRises(c, steps, 2);
    PassedBeforeItSettles(c, st2.w, History(c, steps, 2), feed, p, i, j);
    StaysPassed(c, steps, 2, 4, feed[j].gid);
    StaysLoaded(c, steps, 2, 4);
  }

  lemma {:induction false} StaysLoaded(c: Config, steps: seq<Step>, m: nat, n: nat)
    requires m <= n <= |steps| && LegalTo(c, steps, n) && NoRestart(steps, m, n) && Run(c, steps, m).w.s.loaded
    ensures Run(c, steps, n).w.s.loaded
  {
    hide Exec, ExecGroups, Rises, WellFormed;
    if m < n {
      StaysLoaded(c, steps, m, n - 1);
      RunRises(c, steps, n - 1);
      StepStaysLoaded(c, Run(c, steps, n - 1), History(c, steps, n - 1), steps[n - 1]);
    }
  }

  lemma StepStaysLoaded(c: Config, st: State, h: Groups, step: Step)
    requires Rises(c, st.w, h) && WellFormed(st.w.db.feed) && st.cursor <= |st.w.db.feed| && !step.Restart? && st.w.s.loaded
    ensures Exec(c, st, step).w.s.loaded
  {
    hide Project, Flush, Rises, WellFormed;
    if !step.Settle? {
      CallRises(c, st, h, step, 0, Leaf(0, CheckpointGenesisPrev(c.keys.sha)));
    }
  }

  /** A run, a successful catch-up flush, then anything: a leaf passed over before the flush is lost. */
  lemma FlushedIsLost(c: Config, first: seq<Step>, more: seq<Step>, g: int)
    requires LegalTo(c, first, |first|) && Run(c, first, |first|).w.s.loaded && PassedAt(c, first, |first|, g)
    ensures var run := first + [CatchUp(1)];
            && LegalTo(c, run, |run|)
            && (LegalTo(c, run + more, |run + more|) ==> MissedAt(c, run + more, |run + more|, g))
  {
    hide Run, History, LegalTo, Exec, ExecGroups, Rises, Passed, Missed, HeadTo, WellFormed;
    var run, st, h := first + [CatchUp(1)], Run(c, first, |first|), History(c, first, |first|);
    RunRises(c, first, |first|);
    RunOneMore(c, first, CatchUp(1));
    LoadedFlushSucceeds(c, st);
    FlushReaches(c, st, h, 1, g);
    if LegalTo(c, run + more, |run + more|) {
      RunPrefix(c, run, more, |run|);
      RunPrefix(c, first, [CatchUp(1)] + more, |first|);
      assert first + ([CatchUp(1)] + more) == run + more;
      PassedIsLost(c, run + more, |first|, |run|, g);
    }
  }

  /**
    On a feed that is not ascending, one legal run without any failure delivers a leaf and skips
    it; once flushed, no continuation, restarts included, ever folds it into a row.
   */
  lemma OvertakenLeafIsLost(c: Config, feed: seq<Row>, i: nat, j: nat, p: nat, more: seq<Step>)
    requires WellFormed(feed) && i < p <= j < |feed| && AscendingTo(feed, j)
    requires feed[i].hash.Some? && feed[j].hash.Some? && feed[j].gid < feed[i].gid
    requires feed[p - 1].txid < feed[p].txid
    ensures LegalRun(c, LossRun(feed, p))
    ensures var steps := LossRun(feed, p) + more;
            LegalTo(c, steps, |steps|) ==> MissedAt(c, steps, |steps|, feed[j].gid)
  {
    hide Run, History, LegalTo, PassedAt, MissedAt, Accounted, WellFormed, Stranded;
    var first := OvertakingRun(feed, p);
    OvertakenLeafIsSkipped(c, feed, i, j, p);
    LossRunPasses(c, feed, i, j, p);
    RunRises(c, first, 4);
    LossRunIsLegal(c, first);
    FlushedIsLost(c, first, more, feed[j].gid);
  }

  lemma LoadedFlushSucceeds(c: Config, st: State)
    requires st.w.s.loaded && st.cursor <= |st.w.db.feed|
    ensures Exec(c, st, CatchUp(1)).w.ok
  {
  }

  lemma LossRunIsLegal(c: Config, first: seq<Step>)
    requires LegalRun(c, first)
    requires var st := Run(c, first, |first|); st.cursor <= |st.w.db.feed|
    ensures LegalRun(c, first + [CatchUp(1)])
  {
    hide Run, LegalTo, Stranded;
    RunOneMore(c, first, CatchUp(1));
    var run := first + [CatchUp(1)];
    forall i | 0 <= i < |run| && run[i].Batch?
      ensures !Stranded(c, run, i)
    {
      StrandedPrefix(c, first, [CatchUp(1)], i);
      assert run[i] == first[i];
    }
  }

  // ---- The row behind a gap ----

  lemma OmitsAbove(k: Keys, feed: seq<Row>, table: seq<Checkpoint>, h: Groups, g: int)
    requires Records(k, feed, table, h) && Stacked(table) && g > HeadTo(table, |table|)
    ensures Omits(h, g)
  {
    hide Chained, Fold;
    HeadIsHighest(table);
    forall i | 0 <= i < |h|
      ensures Lacks(h[i], g)
    {
      assert RecordsAt(k, feed, table, h, i);
      FoldFields(k, i == 0, HeadHash(k, table, i), h[i]);
      BelowLast(h[i], g);
    }
  }

  lemma BelowLast(group: seq<Leaf>, g: int)
    requires group != [] && Climbs(group, 0) && group[|group| - 1].gid < g
    ensures Lacks(group, g)
  {
    forall l | l in group
      ensures l.gid != g
    {
      var i :| 0 <= i < |group| && group[i] == l;
      assert i < |group| - 1 ==> group[i].gid < group[|group| - 1].gid;
    }
  }

  lemma UnseenIsNowhere(c: Config, w: World, h: Groups, g: int)
    requires Rises(c, w, h) && w.s.loaded && g > w.s.lastSeen
    ensures Omits(h, g) && Lacks(w.s.leaves, g)
  {
    hide Records, Stacked, Omits, FromFeed;
    if w.s.leaves != [] {
      assert w.s.leaves[0].gid <= w.s.lastSeen;
      PositiveHead(w.db.table);
      BelowLast(w.s.leaves, g);
    }
    OmitsAbove(c.keys, w.db.feed, w.db.table, h, g);
  }

  lemma PositiveHead(table: seq<Checkpoint>)
    requires Stacked(table)
    ensures HeadTo(table, |table|) >= 0
  {
    HeadIsHighest(table);
  }

  lemma {:induction false} JumpPasses(c: Config, w: World, h: Groups, rows: seq<Row>, i: nat, x: nat, g: int)
    requires Rises(c, w, h) && w.s.loaded && w.ok && i <= x < |rows| && RowsFrom(rows, w.db.feed) && g > w.s.lastSeen
    requires rows[x].hash.Some? && forall y | 0 <= y < |rows| && rows[y].hash.Some? :: rows[y].gid > g
    ensures Passed(Deliver(c, w, rows, i), DeliverGroups(c, w, rows, i, h), g)
    decreases |rows| - i
  {
    hide Push, PushGroups, Rises, Passed, Omits, Chained;
    var r := rows[i];
    if r.hash.Some? {
      var any, l := Leaf(0, CheckpointGenesisPrev(c.keys.sha)), Leaf(r.gid, r.hash.value);
      UnseenIsNowhere(c, w, h, g);
      PushRises(c, w, h, l, g, any);
      DeliverRises(c, Push(c, w, l), PushGroups(c, w, l, h), rows, i + 1, g, any);
    } else {
      JumpPasses(c, w, h, rows, i + 1, x, g);
    }
  }

  /** Row y lies before the cursor unseen, and the next n rows hold a chained one. */
  ghost predicate Overruns(st: State, n: nat, y: nat) {
    && y < st.cursor <= |st.w.db.feed| && Ascending(st.w.db.feed) && st.w.s.loaded
    && st.w.db.feed[y].hash.Some? && st.w.db.feed[y].gid > st.w.s.lastSeen
    && exists x | st.cursor <= x < End(st, n) :: st.w.db.feed[x].hash.Some?
  }

  lemma BatchPasses(c: Config, st: State, h: Groups, n: nat, budget: nat, saved: bool, y: nat)
    requires Rises(c, st.w, h) && Overruns(st, n, y)
    ensures var b := Batch(n, budget, saved);
            Passed(Exec(c, st, b).w, ExecGroups(c, st, b, h), st.w.db.feed[y].gid)
  {
    hide Stacked, Records, Omits, Chained, Deliver, DeliverGroups;
    var feed, p, q := st.w.db.feed, st.cursor, End(st, n);
    var rows := feed[p..q];
    var x :| p <= x < q && feed[x].hash.Some?;
    SliceIsFromFeed(feed, p, q);
    forall m | 0 <= m < |rows| && rows[m].hash.Some?
      ensures rows[m].gid > feed[y].gid
    {
      assert rows[m] == feed[p + m];
    }
    assert rows[x - p] == feed[x];
    JumpPasses(c, Armed(st, budget), h, rows, 0, x - p, feed[y].gid);
  }

  /**
    Any run in which a batch takes a leaf across a gap and the table, before the next restart,
    reaches the row behind the gap, by whatever flush: that row is lost for good.
   */
  lemma JumpedRowIsLost(c: Config, steps: seq<Step>, m: nat, n: nat, y: nat)
    requires m < n <= |steps| && LegalTo(c, steps, |steps|) && steps[m].Batch? && NoRestart(steps, m + 1, n)
    requires Overruns(Run(c, steps, m), steps[m].n, y)
    requires var table := Run(c, steps, n).w.db.table; Run(c, steps, m).w.db.feed[y].gid <= HeadTo(table, |table|)
    ensures MissedAt(c, steps, |steps|, Run(c, steps, m).w.db.feed[y].gid)
  {
    hide Run, History, LegalTo, Exec, ExecGroups, Rises, Passed, MissedAt, WellFormed, HeadTo;
    var st, b := Run(c, steps, m), steps[m];
    FeedBefore(c, steps, m, |steps|);
    FeedBefore(c, steps, m + 1, |steps|);
    RunRises(c, steps, m);
    NextState(c, steps, m);
    NextGroups(c, steps, m);
    BatchPasses(c, st, History(c, steps, m), b.n, b.budget, b.saved, y);
    PassedIsLost(c, steps, m + 1, n, st.w.db.feed[y].gid);
  }

  lemma NextGroups(c: Config, steps: seq<Step>, n: nat)
    requires n < |steps|
    requires var st := Run(c, steps, n); st.cursor <= |st.w.db.feed|
    ensures History(c, steps, n + 1) == ExecGroups(c, Run(c, steps, n), steps[n], History(c, steps, n))
  {
    hide Run, ExecGroups;
  }

  /** One accumulated leaf, a crash, a failed reload, one more event, a flush: the first leaf is lost for good. */
  lemma StrandedLeafIsLost(k: Keys, d: Digest, more: seq<Step>)
    ensures var c := Config(k, 2);
            var steps := StrandingRun(d) + [CatchUp(1)] + more;
            && LegalTo(c, StrandingRun(d) + [CatchUp(1)], 7)
            && (LegalTo(c, steps, |steps|) ==> MissedAt(c, steps, |steps|, 1))
  {
    hide Run, History, LegalTo, MissedAt, Accounted;
    var c, first := Config(k, 2), StrandingRun(d);
    StrandedTail(k, d);
    RunRises(c, first, 6);
    StrandedIsPassed(c, d);
    FlushedIsLost(c, first, more, 1);
  }

  lemma StrandedIsPassed(c: Config, d: Digest)
    requires c.every == 2 && LegalTo(c, StrandingRun(d), 6)
    ensures Run(c, StrandingRun(d), 6).w.s.loaded && PassedAt(c, StrandingRun(d), 6, 1)
  {
    hide Run, History, LegalTo, Exec, Accounted, Folds, Stacked;
    StrandedEnd(c, d);
    RunRises(c, StrandingRun(d), 6);
  }

  // ---- What the verifier makes of it ----

  function Gids(s: seq<Leaf>): set<int> {
    set l | l in s :: l.gid
  }

  lemma {:induction false} GidsCount(s: seq<Leaf>, lo: int)
    requires Climbs(s, lo)
    ensures |Gids(s)| == |s|
  {
    if s != [] {
      var n := |s| - 1;
      ClimbsToLast(s, lo);
      GidsCount(s[..n], lo);
      assert s[n].gid !in Gids(s[..n]);
      assert Gids(s) == Gids(s[..n]) + {s[n].gid};
    }
  }

  lemma Fewer(a: set<int>, b: set<int>, g: int)
    requires a <= b && g in b && g !in a
    ensures |a| < |b|
  {
    assert b == a + (b - a) && g in b - a;
  }

  /** A group without a leaf of its own range has fewer leaves than the verifier reads back. */
  lemma GroupFallsShort(feed: seq<Row>, group: seq<Leaf>, l: Leaf)
    requires WellFormed(feed) && group != [] && Climbs(group, 0) && FromFeed(group, feed)
    requires l in Chained(feed) && Lacks(group, l.gid) && group[0].gid <= l.gid <= group[|group| - 1].gid
    ensures |group| < |LeavesIn(Log(feed), group[0].gid, group[|group| - 1].gid)|
  {
    hide Chained, Log;
    var log, from, to := Log(feed), group[0].gid, group[|group| - 1].gid;
    LogClimbs(feed);
    SelectClimbs(log, |log|, Some(from), Some(to));
    assert log[..|log|] == log;
    var read := Select(log, |log|, Some(from), Some(to));
    forall x | x in group
      ensures x in read
    {
      var i :| 0 <= i < |group| && group[i] == x;
      GroupBounds(group, i);
    }
    GidsCount(group, 0);
    GidsCount(read, 0);
    assert l in read;
    Fewer(Gids(group), Gids(read), l.gid);
  }

  lemma GroupBounds(group: seq<Leaf>, i: nat)
    requires Climbs(group, 0) && i < |group|
    ensures group[0].gid <= group[i].gid <= group[|group| - 1].gid
  {
  }

  /**
    If the lost leaf lies inside the range of row i, verification rejects the table, or two of the
    strings hashed by the signer and the verifier for that row collide.
   */
  lemma RangeOverLostLeafIsRejected(c: Config, steps: seq<Step>, l: Leaf, i: nat)
    requires LegalTo(c, steps, |steps|) && MissedAt(c, steps, |steps|, l.gid)
    requires var w := Final(c, steps).w;
             && l in Chained(w.db.feed) && i < |w.db.table| && w.db.table[i].from <= l.gid <= w.db.table[i].to
    ensures |History(c, steps, |steps|)| == |Final(c, steps).w.db.table|
    ensures var w, group := Final(c, steps).w, History(c, steps, |steps|)[i];
            var log, prev := Log(w.db.feed), PrevOf(c.keys, w.db.table, i);
            && Folds(c.keys, w.db.feed, w.db.table, i, group)
            && (!Accepted(c.keys, log, w.db.table)
                || CollisionIn(c.keys.sha, CheckpointPreimages(c.keys.sha, prev, Hashes(group))
                                           + CheckpointPreimages(c.keys.sha, prev, Covered(log, w.db.table[i]))))
  {
    hide Run, History, LegalTo, WellFormed, Chained, Log, Climbs, CollisionIn, CheckpointPreimages, Tops, HeadTo, Stacked;
    RunRises(c, steps, |steps|);
    var w, h := Final(c, steps).w, History(c, steps, |steps|);
    assert RecordsAt(c.keys, w.db.feed, w.db.table, h, i);
    FoldFields(c.keys, i == 0, HeadHash(c.keys, w.db.table, i), h[i]);
    GroupFallsShort(w.db.feed, h[i], l);
    if Accepted(c.keys, Log(w.db.feed), w.db.table) {
      RecomputesToAnother(c.keys, Log(w.db.feed), w.db.feed, w.db.table, i, h[i]);
    }
  }

  lemma RecomputesToAnother(k: Keys, log: seq<Leaf>, feed: seq<Row>, table: seq<Checkpoint>, i: nat, group: seq<Leaf>)
    requires Folds(k, feed, table, i, group) && Accepted(k, log, table) && |group| < |Covered(log, table[i])|
    ensures var prev := PrevOf(k, table, i);
            CollisionIn(k.sha, CheckpointPreimages(k.sha, prev, Hashes(group))
                               + CheckpointPreimages(k.sha, prev, Covered(log, table[i])))
  {
    hide Climbs, FromFeed, CollisionIn, CheckpointPreimages, Covered, LeavesDigest, CheckpointHash;
    assert RowOk(k, log, table, i);
    var prev := PrevOf(k, table, i);
    CheckpointHashBinds(k.sha, prev, Hashes(group), prev, Covered(log, table[i]));
  }
}
