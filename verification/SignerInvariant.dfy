/** The signer's invariant, and that each of its methods keeps it. */
module SignerInvariant {
  import opened Hashing
  import opened Checkpoints
  import opened SignerModel
  import InsertionSort

  ghost predicate Ordered(log: seq<Leaf>) {
    && (forall i | 0 <= i < |log| :: log[i].gid >= 1)
    && (forall i, j | 0 <= i < j < |log| :: log[i].gid < log[j].gid)
  }

  function GidAt(log: seq<Leaf>, n: nat): int
    requires n <= |log|
  {
    if n == 0 then 0 else log[n - 1].gid
  }

  /** Hash and upper end of the chain made of the first n rows. */
  function HeadHash(k: Keys, table: seq<Checkpoint>, n: nat): Bytes
    requires n <= |table|
  {
    if n == 0 then CheckpointGenesisPrev(k.sha) else table[n - 1].hash
  }

  function HeadTo(table: seq<Checkpoint>, n: nat): int
    requires n <= |table|
  {
    if n == 0 then 0 else table[n - 1].to
  }

  function Total(table: seq<Checkpoint>, n: nat): nat
    requires n <= |table|
  {
    if n == 0 then 0 else Total(table, n - 1) + table[n - 1].count
  }

  /** The row a group of leaves must produce on top of a chain ending in `head`. */
  function Fold(k: Keys, first: bool, head: Bytes, group: seq<Leaf>): Checkpoint
    requires group != []
  {
    var hash := CheckpointHash(k.sha, head, LeavesDigest(k.sha, Hashes(group)));
    Checkpoint(if first then [] else head, hash,
               group[0].gid, group[|group| - 1].gid, |group|, k.sign(hash))
  }

  lemma FoldFields(k: Keys, first: bool, head: Bytes, group: seq<Leaf>)
    requires group != []
    ensures var cp := Fold(k, first, head, group);
            && cp.prev == (if first then [] else head) && |cp.hash| == 32
            && cp.from == group[0].gid && cp.to == group[|group| - 1].gid && cp.count == |group|
  {
  }

  /** The first n rows partition the first a leaves of the log, in order, into their groups. */
  predicate Anchored(k: Keys, log: seq<Leaf>, a: nat, table: seq<Checkpoint>, n: nat)
    requires a <= |log| && n <= |table|
    decreases n
  {
    if n == 0 then a == 0 else
    var m := a - table[n - 1].count;
    && 0 <= m < a
    && table[n - 1] == Fold(k, n == 1, HeadHash(k, table, n - 1), log[m..a])
    && Anchored(k, log, m, table, n - 1)
  }

  /** Leaves anchored or accumulated. */
  function Seen(w: World): nat {
    Total(w.db.table, |w.db.table|) + |w.s.leaves|
  }

  /** The table anchors a prefix of the log and the accumulator holds what follows it. */
  ghost predicate Holds(k: Keys, log: seq<Leaf>, table: seq<Checkpoint>, leaves: seq<Leaf>) {
    var a := Total(table, |table|);
    && a + |leaves| <= |log|
    && Anchored(k, log, a, table, |table|)
    && leaves == log[a..a + |leaves|]
  }

  /** The memory of a loaded signer agrees with the table and the log. */
  ghost predicate Tracks(k: Keys, log: seq<Leaf>, table: seq<Checkpoint>, s: Signer) {
    && s.prev == HeadHash(k, table, |table|)
    && s.lastCovered == HeadTo(table, |table|)
    && Total(table, |table|) + |s.leaves| <= |log|
    && s.lastSeen == GidAt(log, Total(table, |table|) + |s.leaves|)
  }

  ghost predicate Good(c: Config, w: World) {
    var log := Chained(w.db.feed);
    && Ordered(log)
    && Holds(c.keys, log, w.db.table, w.s.leaves)
    && (if w.s.loaded then Tracks(c.keys, log, w.db.table, w.s) else w.s.leaves == [])
  }

  // ---- Facts about the table ----

  lemma {:induction false} AnchoredTotal(k: Keys, log: seq<Leaf>, a: nat, table: seq<Checkpoint>, n: nat)
    requires a <= |log| && n <= |table| && Anchored(k, log, a, table, n)
    ensures Total(table, n) == a
    decreases n
  {
    hide Fold;
    if n > 0 {
      AnchoredTotal(k, log, a - table[n - 1].count, table, n - 1);
    }
  }

  /** Appending to the log or to the table disturbs nothing anchored. */
  lemma {:induction false} AnchoredExtends(k: Keys, log: seq<Leaf>, a: nat, table: seq<Checkpoint>, n: nat,
                                          moreLog: seq<Leaf>, moreTable: seq<Checkpoint>)
    requires a <= |log| && n <= |table| && Anchored(k, log, a, table, n)
    requires log <= moreLog && table <= moreTable
    ensures Anchored(k, moreLog, a, moreTable, n) && Total(moreTable, n) == Total(table, n)
    decreases n
  {
    hide Fold;
    if n > 0 {
      var m := a - table[n - 1].count;
      AnchoredExtends(k, log, m, table, n - 1, moreLog, moreTable);
      assert moreLog[m..a] == log[m..a];
    }
  }

  /** Ranges lie within the log, and the last one ends where the anchored prefix does. */
  lemma {:induction false} RangesWithin(k: Keys, log: seq<Leaf>, a: nat, table: seq<Checkpoint>, n: nat)
    requires Ordered(log) && a <= |log| && n <= |table| && Anchored(k, log, a, table, n)
    ensures HeadTo(table, n) == GidAt(log, a)
    ensures n > 0 <==> a > 0
    ensures forall i | 0 <= i < n :: 1 <= table[i].from <= table[i].to <= GidAt(log, a)
    decreases n
  {
    hide Fold;
    if n > 0 {
      var m := a - table[n - 1].count;
      FoldFields(k, n == 1, HeadHash(k, table, n - 1), log[m..a]);
      RangesWithin(k, log, m, table, n - 1);
      assert GidAt(log, m) < log[m].gid <= GidAt(log, a);
    }
  }

  /** Ranges are disjoint and ascending, and each row names the hash of the one before it. */
  lemma {:induction false} RangesAscend(k: Keys, log: seq<Leaf>, a: nat, table: seq<Checkpoint>, n: nat, i: nat, j: nat)
    requires Ordered(log) && a <= |log| && n <= |table| && Anchored(k, log, a, table, n)
    requires i < j < n
    ensures table[i].to < table[j].from
    ensures table[j].prev == table[j - 1].hash && table[0].prev == []
    decreases n
  {
    hide Fold;
    var m := a - table[n - 1].count;
    FoldFields(k, n == 1, HeadHash(k, table, n - 1), log[m..a]);
    RangesWithin(k, log, m, table, n - 1);
    FirstIsGenesis(k, log, a, table, n);
    if j < n - 1 {
      RangesAscend(k, log, m, table, n - 1, i, j);
    }
  }

  lemma {:induction false} FirstIsGenesis(k: Keys, log: seq<Leaf>, a: nat, table: seq<Checkpoint>, n: nat)
    requires a <= |log| && 0 < n <= |table| && Anchored(k, log, a, table, n)
    ensures table[0].prev == []
    decreases n
  {
    hide Fold;
    FoldFields(k, n == 1, HeadHash(k, table, n - 1), log[a - table[n - 1].count..a]);
    if n > 1 {
      FirstIsGenesis(k, log, a - table[n - 1].count, table, n - 1);
    }
  }

  lemma SliceSnoc<T>(s: seq<T>, m: nat, n: nat)
    requires m < n <= |s|
    ensures s[m..n] == s[m..n - 1] + [s[n - 1]]
  {
  }

  lemma SliceOfPrefix<T>(s: seq<T>, m: nat, a: nat, b: nat)
    requires m <= a <= b <= |s|
    ensures s[..b][m..a] == s[m..a]
  {
  }

  lemma {:induction false} SelectSlice(log: seq<Leaf>, n: nat, lo: Option<int>, hi: Option<int>, m: nat, a: nat)
    requires m <= a && n <= |log|
    requires forall i | 0 <= i < n :: Within(log[i], lo, hi) <==> m <= i < a
    ensures Select(log, n, lo, hi) == if n <= m then [] else log[m..if n <= a then n else a]
  {
    if n > 0 {
      SelectSlice(log, n - 1, lo, hi, m, a);
      assert Within(log[n - 1], lo, hi) <==> m <= n - 1 < a;
      if m < n <= a {
        SliceSnoc(log, m, n);
      }
    }
  }

  lemma CoveredIsGroup(log: seq<Leaf>, m: nat, a: nat)
    requires Ordered(log) && m < a <= |log|
    ensures LeavesIn(log, log[m].gid, log[a - 1].gid) == Hashes(log[m..a])
  {
    SelectSlice(log, |log|, Some(log[m].gid), Some(log[a - 1].gid), m, a);
  }

  lemma AboveIsRest(log: seq<Leaf>, a: nat)
    requires Ordered(log) && a <= |log|
    ensures Above(log, GidAt(log, a)) == log[a..]
  {
    SelectSlice(log, |log|, Some(GidAt(log, a) + 1), None, a, |log|);
  }

  lemma UpToIsPrefix(log: seq<Leaf>, a: nat)
    requires Ordered(log) && a <= |log|
    ensures UpTo(log, GidAt(log, a)) == log[..a]
  {
    SelectSlice(log, |log|, None, Some(GidAt(log, a)), 0, a);
  }

  ghost predicate SignaturesVerify(k: Keys) {
    forall d: Digest :: k.verify(d, k.sign(d))
  }

  lemma FoldedRowOk(k: Keys, log: seq<Leaf>, table: seq<Checkpoint>, i: nat, m: nat, a: nat)
    requires SignaturesVerify(k) && i < |table|
    requires m < a <= |log| && Covered(log, table[i]) == Hashes(log[m..a])
    requires table[i] == Fold(k, i == 0, HeadHash(k, table, i), log[m..a])
    ensures RowOk(k, log, table, i)
  {
  }

  /** A table that anchors a prefix of the log passes the verifier, whatever was appended since. */
  lemma {:induction false} AnchoredIsAccepted(k: Keys, log: seq<Leaf>, a: nat, table: seq<Checkpoint>, n: nat)
    requires SignaturesVerify(k) && Ordered(log)
    requires a <= |log| && n <= |table| && Anchored(k, log, a, table, n)
    ensures forall i | 0 <= i < n :: RowOk(k, log, table, i)
    decreases n
  {
    hide Fold;
    if n > 0 {
      var m := a - table[n - 1].count;
      AnchoredIsAccepted(k, log, m, table, n - 1);
      CoveredIsGroup(log, m, a);
      FoldFields(k, n == 1, HeadHash(k, table, n - 1), log[m..a]);
      FoldedRowOk(k, log, table, n - 1, m, a);
    }
  }

  /** The leaf hashes the first n rows cover, row after row, as the verifier reads them from the log. */
  function AnchoredLeaves(log: seq<Leaf>, table: seq<Checkpoint>, n: nat): seq<Digest>
    requires n <= |table|
  {
    if n == 0 then [] else AnchoredLeaves(log, table, n - 1) + Covered(log, table[n - 1])
  }

  lemma HashesConcat(log: seq<Leaf>, m: nat, a: nat)
    requires m <= a <= |log|
    ensures Hashes(log[..m]) + Hashes(log[m..a]) == Hashes(log[..a])
  {
  }

  /** Together they are the anchored prefix of the log: nothing twice, nothing left out. */
  lemma {:induction false} AnchoredConcat(k: Keys, log: seq<Leaf>, a: nat, table: seq<Checkpoint>, n: nat)
    requires Ordered(log) && a <= |log| && n <= |table| && Anchored(k, log, a, table, n)
    ensures AnchoredLeaves(log, table, n) == Hashes(log[..a])
    decreases n
  {
    hide Fold, Hashes, LeavesIn;
    if n > 0 {
      var m := a - table[n - 1].count;
      AnchoredConcat(k, log, m, table, n - 1);
      FoldFields(k, n == 1, HeadHash(k, table, n - 1), log[m..a]);
      CoveredIsGroup(log, m, a);
      HashesConcat(log, m, a);
    } else {
      NoHashes();
    }
  }

  lemma NoHashes()
    ensures Hashes([]) == []
  {
  }

  /** The row made from the next leaves conflicts with no stored row. */
  lemma NoConflict(k: Keys, log: seq<Leaf>, table: seq<Checkpoint>, leaves: seq<Leaf>)
    requires Ordered(log) && Holds(k, log, table, leaves) && leaves != []
    ensures var cp := Fold(k, table == [], HeadHash(k, table, |table|), leaves);
            Insert(table, cp) == table + [cp]
  {
    hide Fold;
    var a := Total(table, |table|);
    FoldFields(k, table == [], HeadHash(k, table, |table|), leaves);
    RangesWithin(k, log, a, table, |table|);
    assert log[a + |leaves| - 1].gid > GidAt(log, a);
  }

  lemma AnchoredSnoc(k: Keys, log: seq<Leaf>, a: nat, b: nat, table: seq<Checkpoint>, n: nat)
    requires a < b <= |log| && n < |table|
    requires Anchored(k, log, a, table, n) && table[n] == Fold(k, n == 0, HeadHash(k, table, n), log[a..b])
    ensures Anchored(k, log, b, table, n + 1) && Total(table, n + 1) == Total(table, n) + b - a
  {
    hide Fold;
    FoldFields(k, n == 0, HeadHash(k, table, n), log[a..b]);
  }

  lemma {:induction false} TotalExtends(table: seq<Checkpoint>, more: seq<Checkpoint>, n: nat)
    requires table <= more && n <= |table|
    ensures Total(more, n) == Total(table, n)
  {
    if n > 0 {
      TotalExtends(table, more, n - 1);
    }
  }

  lemma TotalSnoc(table: seq<Checkpoint>, cp: Checkpoint)
    ensures Total(table + [cp], |table + [cp]|) == Total(table, |table|) + cp.count
  {
    TotalExtends(table, table + [cp], |table|);
  }

  /** The row made from the next leaves extends the anchored prefix by them. */
  lemma AnchorMore(k: Keys, log: seq<Leaf>, table: seq<Checkpoint>, leaves: seq<Leaf>)
    requires Holds(k, log, table, leaves) && leaves != []
    ensures var cp := Fold(k, table == [], HeadHash(k, table, |table|), leaves);
            Holds(k, log, table + [cp], [])
  {
    hide Fold, Anchored, Total;
    var cp, a := Fold(k, table == [], HeadHash(k, table, |table|), leaves), Total(table, |table|);
    AnchoredExtends(k, log, a, table, |table|, log, table + [cp]);
    assert (table + [cp])[|table|] == cp;
    assert HeadHash(k, table + [cp], |table|) == HeadHash(k, table, |table|);
    AnchoredSnoc(k, log, a, a + |leaves|, table + [cp], |table|);
    assert |table + [cp]| == |table| + 1;
  }

  // ---- Facts about the feed ----

  lemma {:induction false} ChainedMonotone(feed: seq<Row>, p: nat, q: nat)
    requires p <= q <= |feed|
    ensures ChainedTo(feed, p) <= ChainedTo(feed, q)
  {
    if p < q {
      ChainedMonotone(feed, p, q - 1);
    }
  }

  lemma {:induction false} ChainedExtends(feed: seq<Row>, more: seq<Row>, n: nat)
    requires feed <= more && n <= |feed|
    ensures ChainedTo(more, n) == ChainedTo(feed, n)
  {
    if n > 0 {
      ChainedExtends(feed, more, n - 1);
    }
  }

  lemma LogIsChained(feed: seq<Row>)
    requires Ordered(Chained(feed))
    ensures Log(feed) == Chained(feed)
  {
    var leaves := Chained(feed);
    InsertionSort.SortKeeps(BY_GID, leaves, |leaves|);
    assert leaves[..|leaves|] == leaves;
  }

  // ---- Every method keeps the invariant ----

  /** What the signer folds is what the log demands. */
  lemma MakesTheFold(c: Config, w: World)
    requires Good(c, w) && w.s.loaded && w.s.leaves != []
    ensures MakeCheckpoint(c.keys, w.s) ==
            Fold(c.keys, w.db.table == [], HeadHash(c.keys, w.db.table, |w.db.table|), w.s.leaves)
  {
    RangesWithin(c.keys, Chained(w.db.feed), Total(w.db.table, |w.db.table|), w.db.table, |w.db.table|);
  }

  lemma FlushAdvances(c: Config, w: World)
    requires Good(c, w) && w.s.loaded && w.s.leaves != [] && w.db.budget > 0
    ensures var v, log := FlushLeaves(c, w), Chained(w.db.feed);
            Holds(c.keys, log, v.db.table, []) && Tracks(c.keys, log, v.db.table, v.s) && Seen(v) == Seen(w)
  {
    hide Fold, MakeCheckpoint, Insert, Anchored, Total, Chained;
    var log, table, leaves := Chained(w.db.feed), w.db.table, w.s.leaves;
    var cp := Fold(c.keys, table == [], HeadHash(c.keys, table, |table|), leaves);
    var v := FlushLeaves(c, w);
    MakesTheFold(c, w);
    FoldFields(c.keys, table == [], HeadHash(c.keys, table, |table|), leaves);
    NoConflict(c.keys, log, table, leaves);
    assert v.db.table == table + [cp] && v.s.leaves == [];
    AnchorMore(c.keys, log, table, leaves);
    TotalSnoc(table, cp);
    assert HeadHash(c.keys, v.db.table, |v.db.table|) == cp.hash && HeadTo(v.db.table, |v.db.table|) == cp.to;
    assert leaves[|leaves| - 1] == log[Total(table, |table|) + |leaves| - 1];
  }

  lemma FlushLeavesKeeps(c: Config, w: World)
    requires Good(c, w) && w.s.loaded
    ensures var v := FlushLeaves(c, w);
            && Good(c, v) && v.s.loaded && v.db.feed == w.db.feed && Seen(v) == Seen(w)
            && (w.ok && !v.ok ==> v.s == w.s && v.db == w.db)
            && (v.ok && w.ok ==> v.s.leaves == [])
  {
    hide MakeCheckpoint, Insert, Holds, Tracks, Total, Chained;
    if w.s.leaves != [] && w.db.budget > 0 {
      FlushAdvances(c, w);
    }
  }

  lemma PushKeeps(c: Config, w: World, l: Leaf)
    requires Good(c, w) && w.s.loaded
    requires Seen(w) < |Chained(w.db.feed)| && l == Chained(w.db.feed)[Seen(w)]
    ensures var v := Push(c, w, l);
            Good(c, v) && v.s.loaded && v.db.feed == w.db.feed && Seen(v) == Seen(w) + 1
  {
    hide FlushLeaves, Anchored;
    var v := w.(s := w.s.(leaves := w.s.leaves + [l], lastSeen := l.gid));
    assert Good(c, v);
    FlushLeavesKeeps(c, v);
  }

  lemma {:induction false} HydrateKeeps(c: Config, w: World, tail: seq<Leaf>, i: nat)
    requires Good(c, w) && w.s.loaded && i <= |tail|
    requires i <= Seen(w) <= |Chained(w.db.feed)| && tail == Chained(w.db.feed)[Seen(w) - i..]
    ensures var v := Hydrate(c, w, tail, i);
            && Good(c, v) && v.s.loaded && v.db.feed == w.db.feed
            && (v.ok ==> Seen(v) == |Chained(v.db.feed)|)
    decreases |tail| - i
  {
    hide Push, Good;
    if i < |tail| && w.ok {
      PushKeeps(c, w, tail[i]);
      HydrateKeeps(c, Push(c, w, tail[i]), tail, i + 1);
    }
  }

  /** Reading the head back after a restart yields the frontier of the table. */
  lemma LoadHeadTracks(c: Config, w: World)
    requires Good(c, w) && !w.s.loaded
    ensures var s, log := LoadHead(c.keys, w.s, w.db.table), Chained(w.db.feed);
            && s.loaded && s.leaves == [] && Tracks(c.keys, log, w.db.table, s)
            && s.lastCovered == HeadTo(w.db.table, |w.db.table|) == GidAt(log, Seen(w))
  {
    hide Anchored, Total, Chained, Ordered;
    var log, table := Chained(w.db.feed), w.db.table;
    RangesWithin(c.keys, log, Total(table, |table|), table, |table|);
    if table != [] {
      LastHashIsDigest(c.keys, log, Total(table, |table|), table);
    }
  }

  lemma LastHashIsDigest(k: Keys, log: seq<Leaf>, a: nat, table: seq<Checkpoint>)
    requires a <= |log| && table != [] && Anchored(k, log, a, table, |table|)
    ensures |table[|table| - 1].hash| == 32
  {
    hide Fold;
    var n := |table|;
    FoldFields(k, n == 1, HeadHash(k, table, n - 1), log[a - table[n - 1].count..a]);
  }

  lemma EnsureLoadedKeeps(c: Config, w: World)
    requires Good(c, w) && w.ok
    ensures var v := EnsureLoaded(c, w);
            && Good(c, v) && v.db.feed == w.db.feed
            && (w.s.loaded ==> v == w)
            && (v.ok ==> v.s.loaded)
            && (v.ok && !w.s.loaded ==> Seen(v) == |Chained(v.db.feed)|)
  {
    hide Hydrate, Above, Log, Anchored;
    if !w.s.loaded && w.db.budget > 0 {
      var log := Chained(w.db.feed);
      LoadHeadTracks(c, w);
      var u := World(LoadHead(c.keys, w.s, w.db.table),
                     w.db.(budget := if w.db.budget == 1 then 0 else w.db.budget - 2), true);
      assert Good(c, u) && Seen(u) == Seen(w);
      if w.db.budget > 1 {
        LogIsChained(w.db.feed);
        AboveIsRest(log, Seen(w));
        HydrateKeeps(c, u, log[Seen(w)..], 0);
      }
    }
  }

  /** A row already counted is skipped; the next uncounted one is exactly the next leaf of the log. */
  lemma DeliverRowKeeps(c: Config, w: World, p: nat)
    requires Good(c, w) && w.s.loaded && p < |w.db.feed|
    requires |ChainedTo(w.db.feed, p)| <= Seen(w)
    ensures var v := DeliverRow(c, w, w.db.feed[p]);
            && Good(c, v) && v.s.loaded && v.db.feed == w.db.feed
            && |ChainedTo(w.db.feed, p + 1)| <= Seen(v)
  {
    hide Push, Anchored;
    var r, log, n := w.db.feed[p], Chained(w.db.feed), |ChainedTo(w.db.feed, p)|;
    ChainedMonotone(w.db.feed, p + 1, |w.db.feed|);
    if r.hash.Some? {
      var l := Leaf(r.gid, r.hash.value);
      assert log[n] == ChainedTo(w.db.feed, p + 1)[n] == l;
      if r.gid > w.s.lastSeen {
        assert n == Seen(w);
        PushKeeps(c, w, l);
      }
    }
  }

  lemma {:induction false} DeliverKeeps(c: Config, w: World, p: nat, q: nat, i: nat)
    requires Good(c, w) && w.s.loaded && p <= q <= |w.db.feed| && i <= q - p
    requires |ChainedTo(w.db.feed, p + i)| <= Seen(w)
    ensures var v := Deliver(c, w, w.db.feed[p..q], i);
            && Good(c, v) && v.s.loaded && v.db.feed == w.db.feed
            && (v.ok ==> |ChainedTo(v.db.feed, q)| <= Seen(v))
    decreases q - p - i
  {
    hide DeliverRow, Good;
    if i < q - p && w.ok {
      DeliverRowKeeps(c, w, p + i);
      DeliverKeeps(c, DeliverRow(c, w, w.db.feed[p + i]), p, q, i + 1);
    }
  }
}
