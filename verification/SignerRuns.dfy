/**
  Runs of the signer: rows settle, batches are projected, database calls fail, the process
  crashes and restarts anywhere. What every run keeps, and exactly when.
 */
module SignerRuns {
  import opened Hashing
  import opened Checkpoints
  import opened SignerModel
  import opened SignerInvariant

  /** The signer, its database, and the position of the runner's saved cursor in the feed. */
  datatype State = State(w: World, cursor: nat)

  datatype Step =
    | Settle(rows: seq<Row>)                       // the snapshot horizon rises over whole transactions
    | Batch(n: nat, budget: nat, saved: bool)      // project the next n rows; then save the cursor, or fail to
    | CatchUp(budget: nat)                         // the flush after a short read
    | Restart(cursor: nat)                         // crash: memory is lost, the cursor is whatever was saved

  const INITIAL := State(World(FRESH, Db([], [], 0), true), 0)

  /** Feed order is (transaction_id, global_id); ids are positive and unique. */
  ghost predicate WellFormed(feed: seq<Row>) {
    && (forall i | 0 <= i < |feed| :: feed[i].gid >= 1)
    && (forall i, j | 0 <= i < j < |feed| ::
          && feed[i].gid != feed[j].gid
          && (feed[i].txid < feed[j].txid || (feed[i].txid == feed[j].txid && feed[i].gid < feed[j].gid)))
  }

  /** The chained rows among the first n come in ascending global id, too. */
  ghost predicate AscendingTo(feed: seq<Row>, n: nat)
    requires n <= |feed|
  {
    forall i, j | 0 <= i < j < n && feed[i].hash.Some? && feed[j].hash.Some? :: feed[i].gid < feed[j].gid
  }

  ghost predicate Ascending(feed: seq<Row>) {
    AscendingTo(feed, |feed|)
  }

  function End(st: State, n: nat): nat {
    if st.cursor + n <= |st.w.db.feed| then st.cursor + n else |st.w.db.feed|
  }

  function Armed(st: State, budget: nat): World {
    st.w.(ok := true, db := st.w.db.(budget := budget))
  }

  function Exec(c: Config, st: State, step: Step): State
    requires st.cursor <= |st.w.db.feed|
  {
    match step
    case Settle(rows) => st.(w := st.w.(db := st.w.db.(feed := st.w.db.feed + rows)))
    case Batch(n, budget, saved) =>
      var v := Project(c, Armed(st, budget), st.w.db.feed[st.cursor..End(st, n)]);
      State(v, if v.ok && saved then End(st, n) else st.cursor)
    case CatchUp(budget) => st.(w := Flush(c, Armed(st, budget)))
    case Restart(cursor) => State(World(FRESH, st.w.db, true), cursor)
  }

  ghost predicate Legal(st: State, step: Step) {
    match step
    case Settle(rows) =>
      && WellFormed(st.w.db.feed + rows)
      && (st.w.db.feed != [] && rows != [] ==> st.w.db.feed[|st.w.db.feed| - 1].txid < rows[0].txid)
    case Restart(cursor) => cursor <= |st.w.db.feed|
    case _ => true
  }

  /** No chained row before the cursor is still unseen by the signer. */
  ghost predicate GapFree(w: World, cursor: nat)
    requires cursor <= |w.db.feed|
  {
    w.s.loaded ==> forall i | 0 <= i < cursor && w.db.feed[i].hash.Some? :: w.db.feed[i].gid <= w.s.lastSeen
  }

  function Run(c: Config, steps: seq<Step>, n: nat): State
    requires n <= |steps|
  {
    if n == 0 then INITIAL else
    var st := Run(c, steps, n - 1);
    if st.cursor <= |st.w.db.feed| then Exec(c, st, steps[n - 1]) else st
  }

  function Final(c: Config, steps: seq<Step>): State {
    Run(c, steps, |steps|)
  }

  /** The first n steps are possible. */
  ghost predicate LegalTo(c: Config, steps: seq<Step>, n: nat)
    requires n <= |steps|
  {
    n == 0 ||
    var st := Run(c, steps, n - 1);
    LegalTo(c, steps, n - 1) && st.cursor <= |st.w.db.feed| && Legal(st, steps[n - 1])
  }

  /** The next n rows hold a new chained row, although one before the cursor is still unseen. */
  ghost predicate Jumps(st: State, n: nat)
    requires st.cursor <= |st.w.db.feed|
  {
    && !GapFree(st.w, st.cursor)
    && exists x | st.cursor <= x < End(st, n) :: st.w.db.feed[x].hash.Some? && st.w.db.feed[x].gid > st.w.s.lastSeen
  }

  ghost predicate SmoothAt(c: Config, steps: seq<Step>, i: nat)
    requires i < |steps| && steps[i].Batch?
  {
    var st := Run(c, steps, i); st.cursor <= |st.w.db.feed| ==> !Jumps(st, steps[i].n)
  }

  /** No batch among the first n steps takes a new leaf across a gap. */
  ghost predicate SmoothTo(c: Config, steps: seq<Step>, n: nat)
    requires n <= |steps|
  {
    forall i {:trigger SmoothAt(c, steps, i)} | 0 <= i < n && steps[i].Batch? :: SmoothAt(c, steps, i)
  }

  /** Since the last restart, a call that had to load has returned an error. */
  predicate Stranded(c: Config, steps: seq<Step>, n: nat)
    requires n <= |steps|
  {
    n > 0 && !steps[n - 1].Restart? &&
    var before, after := Run(c, steps, n - 1).w, Run(c, steps, n).w;
    Stranded(c, steps, n - 1) || (!before.s.loaded && after.s.loaded && !after.ok)
  }

  /** An error out of a call that had to load is a crash: no batch follows it before a restart. */
  ghost predicate FailedLoadsCrash(c: Config, steps: seq<Step>) {
    forall i {:trigger Stranded(c, steps, i)} | 0 <= i < |steps| && steps[i].Batch? :: !Stranded(c, steps, i)
  }

  ghost predicate LegalRun(c: Config, steps: seq<Step>) {
    LegalTo(c, steps, |steps|) && FailedLoadsCrash(c, steps)
  }

  /** The largest global id the signer claims to have dealt with. */
  function Frontier(w: World): int {
    if w.s.loaded then w.s.lastSeen else HeadTo(w.db.table, |w.db.table|)
  }

  /**
    Conservation: the log up to the frontier, by ascending global id, is exactly the
    concatenation of the groups anchored by the table followed by the accumulator. Each such
    leaf is therefore in one checkpoint or in the accumulator, once.
   */
  ghost predicate Accounted(c: Config, w: World) {
    Holds(c.keys, UpTo(Log(w.db.feed), Frontier(w)), w.db.table, w.s.leaves)
    && Seen(w) == |UpTo(Log(w.db.feed), Frontier(w))|
  }

  // ---- From the invariant to the claims ----

  lemma LogUpToFrontier(c: Config, w: World)
    requires Good(c, w)
    ensures Seen(w) <= |Chained(w.db.feed)|
    ensures UpTo(Log(w.db.feed), Frontier(w)) == Chained(w.db.feed)[..Seen(w)]
  {
    hide Anchored, Log, UpTo;
    if !w.s.loaded {
      LoadHeadTracks(c, w);
    }
    LogIsChained(w.db.feed);
    UpToIsPrefix(Chained(w.db.feed), Seen(w));
  }

  lemma {:induction false} AnchoredPrefix(k: Keys, log: seq<Leaf>, a: nat, b: nat, table: seq<Checkpoint>, n: nat)
    requires a <= b <= |log| && n <= |table| && Anchored(k, log, a, table, n)
    ensures Anchored(k, log[..b], a, table, n)
    decreases n
  {
    hide Fold;
    if n > 0 {
      var m := a - table[n - 1].count;
      AnchoredPrefix(k, log, m, b, table, n - 1);
      SliceOfPrefix(log, m, a, b);
    }
  }

  lemma GoodIsAccounted(c: Config, w: World)
    requires Good(c, w)
    ensures Accounted(c, w)
  {
    hide Anchored, Log, UpTo, Chained, Frontier;
    LogUpToFrontier(c, w);
    var log, a := Chained(w.db.feed), Total(w.db.table, |w.db.table|);
    AnchoredPrefix(c.keys, log, a, Seen(w), w.db.table, |w.db.table|);
    SliceOfPrefix(log, a, Seen(w), Seen(w));
  }

  /** The leaves anchored and then those accumulated are the log up to the frontier. */
  lemma GoodConserves(c: Config, w: World)
    requires Good(c, w)
    ensures var log := Log(w.db.feed);
            AnchoredLeaves(log, w.db.table, |w.db.table|) + Hashes(w.s.leaves) == Hashes(UpTo(log, Frontier(w)))
  {
    hide Anchored, Log, UpTo, Chained, Frontier, Hashes;
    LogUpToFrontier(c, w);
    LogIsChained(w.db.feed);
    var log, a := Chained(w.db.feed), Total(w.db.table, |w.db.table|);
    AnchoredConcat(c.keys, log, a, w.db.table, |w.db.table|);
    HashesConcat(log, a, Seen(w));
  }

  lemma GoodIsAccepted(c: Config, w: World)
    requires Good(c, w) && SignaturesVerify(c.keys)
    ensures Accepted(c.keys, Log(w.db.feed), w.db.table)
  {
    hide Anchored, Log, RowOk;
    LogIsChained(w.db.feed);
    AnchoredIsAccepted(c.keys, Chained(w.db.feed), Total(w.db.table, |w.db.table|), w.db.table, |w.db.table|);
  }

  /** Where the leaf of row i sits among the chained rows. */
  lemma LeafOfRow(feed: seq<Row>, i: nat, n: nat)
    requires i < n <= |feed| && feed[i].hash.Some?
    ensures var m := |ChainedTo(feed, i)|;
            m < |ChainedTo(feed, n)| && ChainedTo(feed, n)[m] == Leaf(feed[i].gid, feed[i].hash.value)
  {
    ChainedMonotone(feed, i + 1, n);
    assert ChainedTo(feed, i + 1)[|ChainedTo(feed, i)|] == Leaf(feed[i].gid, feed[i].hash.value);
  }

  lemma {:induction false} RowOfLeaf(feed: seq<Row>, n: nat, m: nat) returns (i: nat)
    requires n <= |feed| && m < |ChainedTo(feed, n)|
    ensures i < n && feed[i].hash.Some? && |ChainedTo(feed, i)| == m
    ensures ChainedTo(feed, n)[m] == Leaf(feed[i].gid, feed[i].hash.value)
  {
    if m < |ChainedTo(feed, n - 1)| {
      i := RowOfLeaf(feed, n - 1, m);
    } else {
      i := n - 1;
    }
  }

  lemma AscendingIsOrdered(feed: seq<Row>, n: nat)
    requires WellFormed(feed) && n <= |feed| && AscendingTo(feed, n)
    ensures Ordered(ChainedTo(feed, n))
  {
    var log := ChainedTo(feed, n);
    forall x, y | 0 <= x < |log| && 0 <= y < |log|
      ensures log[x].gid >= 1
      ensures x < y ==> log[x].gid < log[y].gid
    {
      var i := RowOfLeaf(feed, n, x);
      var j := RowOfLeaf(feed, n, y);
      if x < y && j <= i {
        ChainedMonotone(feed, j, i);
      }
    }
  }

  /** The guard on the cursor compares global ids; in a good state it counts leaves. */
  lemma GapFreeCounts(c: Config, w: World, cursor: nat)
    requires Good(c, w) && w.s.loaded && cursor <= |w.db.feed|
    ensures GapFree(w, cursor) <==> |ChainedTo(w.db.feed, cursor)| <= Seen(w)
  {
    hide Anchored;
    var feed, log := w.db.feed, Chained(w.db.feed);
    ChainedMonotone(feed, cursor, |feed|);
    if |ChainedTo(feed, cursor)| > Seen(w) {
      var i := RowOfLeaf(feed, cursor, Seen(w));
      assert feed[i].gid == log[Seen(w)].gid > w.s.lastSeen;
    } else {
      forall i | 0 <= i < cursor && feed[i].hash.Some?
        ensures feed[i].gid <= w.s.lastSeen
      {
        LeafOfRow(feed, i, cursor);
        assert feed[i].gid == log[|ChainedTo(feed, i)|].gid <= log[Seen(w) - 1].gid;
      }
    }
  }

  // ---- Every step keeps the invariant ----

  lemma ArmedIsGood(c: Config, st: State, budget: nat)
    requires Good(c, st.w)
    ensures Good(c, Armed(st, budget)) && Seen(Armed(st, budget)) == Seen(st.w)
  {
  }

  lemma ProjectKeeps(c: Config, st: State, n: nat, budget: nat)
    requires Good(c, st.w) && st.cursor <= |st.w.db.feed| && GapFree(st.w, st.cursor)
    ensures var v := Project(c, Armed(st, budget), st.w.db.feed[st.cursor..End(st, n)]);
            && Good(c, v) && v.db.feed == st.w.db.feed
            && (v.ok ==> v.s.loaded && |ChainedTo(v.db.feed, End(st, n))| <= Seen(v))
            && (st.w.s.loaded ==> v.s.loaded && |ChainedTo(v.db.feed, st.cursor)| <= Seen(v))
  {
    hide Good, EnsureLoaded, Deliver;
    var w := Armed(st, budget);
    ArmedIsGood(c, st, budget);
    EnsureLoadedKeeps(c, w);
    var v := EnsureLoaded(c, w);
    if v.ok {
      ChainedMonotone(v.db.feed, st.cursor, |v.db.feed|);
      if w.s.loaded {
        GapFreeCounts(c, w, st.cursor);
      }
      DeliverKeeps(c, v, st.cursor, End(st, n), 0);
      DeliverSees(c, v, st.w.db.feed[st.cursor..End(st, n)], 0, st.cursor);
    }
  }

  /** Delivery takes leaves only on top of those seen. */
  lemma {:induction false} DeliverSees(c: Config, w: World, rows: seq<Row>, i: nat, p: nat)
    requires Good(c, w) && w.s.loaded && i <= |rows| && p + |rows| <= |w.db.feed| && rows == w.db.feed[p..p + |rows|]
    requires |ChainedTo(w.db.feed, p + i)| <= Seen(w)
    ensures Seen(Deliver(c, w, rows, i)) >= Seen(w)
    decreases |rows| - i
  {
    hide DeliverRow, Good;
    if i < |rows| && w.ok {
      assert rows[i] == w.db.feed[p + i];
      DeliverRowKeeps(c, w, p + i);
      DeliverRowSees(c, w, p + i);
      DeliverSees(c, DeliverRow(c, w, rows[i]), rows, i + 1, p);
    }
  }

  lemma DeliverRowSees(c: Config, w: World, p: nat)
    requires Good(c, w) && w.s.loaded && p < |w.db.feed| && |ChainedTo(w.db.feed, p)| <= Seen(w)
    ensures Seen(DeliverRow(c, w, w.db.feed[p])) >= Seen(w)
  {
    hide Push, Anchored;
    var r, log, n := w.db.feed[p], Chained(w.db.feed), |ChainedTo(w.db.feed, p)|;
    ChainedMonotone(w.db.feed, p + 1, |w.db.feed|);
    if r.hash.Some? && r.gid > w.s.lastSeen {
      assert log[n] == ChainedTo(w.db.feed, p + 1)[n] == Leaf(r.gid, r.hash.value);
      PushKeeps(c, w, log[n]);
    }
  }

  lemma {:induction false} NothingNew(c: Config, w: World, rows: seq<Row>, i: nat)
    requires i <= |rows| && forall x | 0 <= x < |rows| && rows[x].hash.Some? :: rows[x].gid <= w.s.lastSeen
    ensures Deliver(c, w, rows, i) == w
    decreases |rows| - i
  {
    if i < |rows| && w.ok {
      NothingNew(c, w, rows, i + 1);
    }
  }

  /** Across a gap a batch that takes nothing new changes nothing. */
  lemma SmoothKeeps(c: Config, st: State, n: nat, budget: nat)
    requires Good(c, st.w) && st.cursor <= |st.w.db.feed| && !Jumps(st, n)
    ensures var v := Project(c, Armed(st, budget), st.w.db.feed[st.cursor..End(st, n)]); Good(c, v) && v.db.feed == st.w.db.feed
  {
    hide Good, Deliver;
    if GapFree(st.w, st.cursor) {
      ProjectKeeps(c, st, n, budget);
    } else {
      ArmedIsGood(c, st, budget);
      NothingNew(c, Armed(st, budget), st.w.db.feed[st.cursor..End(st, n)], 0);
    }
  }

  lemma FlushKeeps(c: Config, st: State, budget: nat)
    requires Good(c, st.w)
    ensures var v := Flush(c, Armed(st, budget)); Good(c, v) && v.db.feed == st.w.db.feed
  {
    hide Good, EnsureLoaded, FlushLeaves;
    ArmedIsGood(c, st, budget);
    EnsureLoadedKeeps(c, Armed(st, budget));
    var v := EnsureLoaded(c, Armed(st, budget));
    if v.ok {
      FlushLeavesKeeps(c, v);
    }
  }

  lemma SettleKeeps(c: Config, w: World, rows: seq<Row>)
    requires Good(c, w) && Ordered(Chained(w.db.feed + rows))
    ensures Good(c, w.(db := w.db.(feed := w.db.feed + rows)))
  {
    hide Anchored, Fold, Ordered;
    var more, table := w.db.feed + rows, w.db.table;
    ChainedExtends(w.db.feed, more, |w.db.feed|);
    ChainedMonotone(more, |w.db.feed|, |more|);
    AnchoredExtends(c.keys, Chained(w.db.feed), Total(table, |table|), table, |table|, Chained(more), table);
  }

  lemma ExecKeeps(c: Config, st: State, step: Step)
    requires Good(c, st.w) && st.cursor <= |st.w.db.feed|
    requires Legal(st, step) && (step.Batch? ==> !Jumps(st, step.n))
    requires step.Settle? ==> Ordered(Chained(st.w.db.feed + step.rows))
    ensures var v := Exec(c, st, step); Good(c, v.w) && v.cursor <= |v.w.db.feed|
  {
    hide Anchored, Project, Flush, Jumps;
    match step
    case Settle(rows) => SettleKeeps(c, st.w, rows);
    case Batch(n, budget, saved) => SmoothKeeps(c, st, n, budget);
    case CatchUp(budget) => FlushKeeps(c, st, budget);
    case Restart(cursor) =>
  }

  lemma {:induction false} HydrateFeed(c: Config, w: World, tail: seq<Leaf>, i: nat)
    requires i <= |tail|
    ensures Hydrate(c, w, tail, i).db.feed == w.db.feed
    decreases |tail| - i
  {
    if i < |tail| && w.ok {
      HydrateFeed(c, Push(c, w, tail[i]), tail, i + 1);
    }
  }

  lemma {:induction false} DeliverFeed(c: Config, w: World, rows: seq<Row>, i: nat)
    requires i <= |rows|
    ensures Deliver(c, w, rows, i).db.feed == w.db.feed
    decreases |rows| - i
  {
    if i < |rows| && w.ok {
      DeliverFeed(c, DeliverRow(c, w, rows[i]), rows, i + 1);
    }
  }

  lemma LoadFeed(c: Config, w: World)
    ensures EnsureLoaded(c, w).db.feed == w.db.feed
  {
    if !w.s.loaded && w.db.budget > 1 {
      var s := LoadHead(c.keys, w.s, w.db.table);
      HydrateFeed(c, World(s, w.db.(budget := w.db.budget - 2), true), Above(Log(w.db.feed), s.lastCovered), 0);
    }
  }

  /** The feed is append-only. */
  lemma FeedGrows(c: Config, st: State, step: Step)
    requires st.cursor <= |st.w.db.feed|
    ensures Exec(c, st, step).w.db.feed == st.w.db.feed + if step.Settle? then step.rows else []
  {
    hide EnsureLoaded, Deliver, Fold;
    match step
    case Batch(n, budget, saved) =>
      LoadFeed(c, Armed(st, budget));
      var v := EnsureLoaded(c, Armed(st, budget));
      if v.ok {
        DeliverFeed(c, v, st.w.db.feed[st.cursor..End(st, n)], 0);
      }
    case CatchUp(budget) => LoadFeed(c, Armed(st, budget));
    case _ =>
  }

  lemma {:induction false} RunKeeps(c: Config, steps: seq<Step>, n: nat)
    requires n <= |steps| && LegalTo(c, steps, n) && SmoothTo(c, steps, n)
    requires Ascending(Run(c, steps, n).w.db.feed)
    ensures var st := Run(c, steps, n); Good(c, st.w) && st.cursor <= |st.w.db.feed| && WellFormed(st.w.db.feed)
  {
    hide Good, Exec, Jumps;
    if n == 0 {
      InitialIsGood(c);
    } else {
      var st, step, end := Run(c, steps, n - 1), steps[n - 1], Run(c, steps, n);
      assert step.Batch? ==> SmoothAt(c, steps, n - 1);
      FeedGrows(c, st, step);
      AscendingBefore(st.w.db.feed, end.w.db.feed);
      RunKeeps(c, steps, n - 1);
      assert end.w.db.feed == st.w.db.feed + if step.Settle? then step.rows else [];
      if step.Settle? {
        AscendingIsOrdered(end.w.db.feed, |end.w.db.feed|);
      }
      ExecKeeps(c, st, step);
    }
  }

  // ---- Crashing on a failed load is enough ----

  lemma SettleKeepsGap(w: World, rows: seq<Row>, cursor: nat)
    requires cursor <= |w.db.feed| && GapFree(w, cursor)
    ensures GapFree(w.(db := w.db.(feed := w.db.feed + rows)), cursor)
  {
  }

  lemma GapFreeIsSmooth(st: State, n: nat)
    requires st.cursor <= |st.w.db.feed| && GapFree(st.w, st.cursor)
    ensures !Jumps(st, n)
  {
  }

  lemma BatchKeepsGapFree(c: Config, st: State, n: nat, budget: nat, saved: bool)
    requires Good(c, st.w) && st.cursor <= |st.w.db.feed| && GapFree(st.w, st.cursor)
    ensures var v := Exec(c, st, Batch(n, budget, saved));
            && Good(c, v.w) && v.cursor <= |v.w.db.feed|
            && (!(!st.w.s.loaded && v.w.s.loaded && !v.w.ok) ==> GapFree(v.w, v.cursor))
  {
    hide Good, Project, GapFree;
    ProjectKeeps(c, st, n, budget);
    var v := Exec(c, st, Batch(n, budget, saved));
    if v.w.s.loaded {
      GapFreeCounts(c, v.w, v.cursor);
      ChainedMonotone(v.w.db.feed, st.cursor, End(st, n));
    } else {
      UnloadedIsGapFree(v.w, v.cursor);
    }
  }

  lemma UnloadedIsGapFree(w: World, cursor: nat)
    requires !w.s.loaded && cursor <= |w.db.feed|
    ensures GapFree(w, cursor)
  {
  }

  lemma FlushKeepsGapFree(c: Config, st: State, budget: nat)
    requires Good(c, st.w) && st.cursor <= |st.w.db.feed| && GapFree(st.w, st.cursor)
    ensures var v := Exec(c, st, CatchUp(budget));
            && Good(c, v.w) && v.cursor <= |v.w.db.feed|
            && (!(!st.w.s.loaded && v.w.s.loaded && !v.w.ok) ==> GapFree(v.w, v.cursor))
  {
    hide Good, EnsureLoaded, FlushLeaves, GapFree;
    ArmedIsGood(c, st, budget);
    EnsureLoadedKeeps(c, Armed(st, budget));
    var u := EnsureLoaded(c, Armed(st, budget));
    if u.ok {
      FlushLeavesKeeps(c, u);
    }
    var v := Exec(c, st, CatchUp(budget));
    if v.w.s.loaded {
      GapFreeCounts(c, v.w, v.cursor);
      ChainedMonotone(v.w.db.feed, v.cursor, |v.w.db.feed|);
      if st.w.s.loaded {
        GapFreeCounts(c, st.w, st.cursor);
      }
    } else {
      UnloadedIsGapFree(v.w, v.cursor);
    }
  }

  /** Whoever crashes on a failed load never has a gap before the cursor when a batch comes. */
  lemma {:induction false} CrashingLeavesNoGap(c: Config, steps: seq<Step>, n: nat)
    requires n <= |steps| && LegalTo(c, steps, n) && FailedLoadsCrash(c, steps)
    requires Ascending(Run(c, steps, n).w.db.feed)
    ensures var st := Run(c, steps, n);
            && Good(c, st.w) && st.cursor <= |st.w.db.feed| && WellFormed(st.w.db.feed)
            && (!Stranded(c, steps, n) ==> GapFree(st.w, st.cursor))
  {
    hide Good, Exec, Jumps, GapFree;
    if n == 0 {
      InitialIsGood(c);
      UnloadedIsGapFree(INITIAL.w, 0);
    } else {
      var st, step, end := Run(c, steps, n - 1), steps[n - 1], Run(c, steps, n);
      FeedGrows(c, st, step);
      AscendingBefore(st.w.db.feed, end.w.db.feed);
      CrashingLeavesNoGap(c, steps, n - 1);
      assert end.w.db.feed == st.w.db.feed + if step.Settle? then step.rows else [];
      if step.Settle? {
        AscendingIsOrdered(end.w.db.feed, |end.w.db.feed|);
      }
      if !Stranded(c, steps, n - 1) {
        GapFreeIsSmooth(st, if step.Batch? then step.n else 0);
        StepKeepsGapFree(c, st, step);
      }
      ExecKeeps(c, st, step);
      if step.Restart? {
        Restarts(c, st, step);
      }
    }
  }

  lemma Restarts(c: Config, st: State, step: Step)
    requires st.cursor <= |st.w.db.feed| && step.Restart? && Legal(st, step)
    ensures var v := Exec(c, st, step); v.cursor <= |v.w.db.feed| && GapFree(v.w, v.cursor)
  {
  }

  lemma StepKeepsGapFree(c: Config, st: State, step: Step)
    requires Good(c, st.w) && st.cursor <= |st.w.db.feed| && GapFree(st.w, st.cursor) && Legal(st, step)
    ensures var v := Exec(c, st, step);
            v.cursor <= |v.w.db.feed| && (!(!st.w.s.loaded && v.w.s.loaded && !v.w.ok) ==> GapFree(v.w, v.cursor))
  {
    hide Good, Project, Flush, GapFree;
    match step
    case Settle(rows) => SettleKeepsGap(st.w, rows, st.cursor);
    case Batch(n, budget, saved) => BatchKeepsGapFree(c, st, n, budget, saved);
    case CatchUp(budget) => FlushKeepsGapFree(c, st, budget);
    case Restart(cursor) => Restarts(c, st, step);
  }

  lemma InitialIsGood(c: Config)
    ensures Good(c, INITIAL.w)
  {
  }

  lemma AscendingBefore(feed: seq<Row>, more: seq<Row>)
    requires feed <= more && Ascending(more)
    ensures Ascending(feed)
  {
    assert forall i | 0 <= i < |feed| :: feed[i] == more[i];
  }

  // ---- Theorems ----

  /**
    In every run over an ascending feed, under any batching, replay, failed call and crash,
    every leaf up to the frontier is in exactly one checkpoint or in the accumulator.
   */
  lemma EveryRunAccounts(c: Config, steps: seq<Step>)
    requires LegalRun(c, steps) && Ascending(Final(c, steps).w.db.feed)
    ensures Accounted(c, Final(c, steps).w)
    ensures var w := Final(c, steps).w;
            AnchoredLeaves(Log(w.db.feed), w.db.table, |w.db.table|) + Hashes(w.s.leaves)
            == Hashes(UpTo(Log(w.db.feed), Frontier(w)))
  {
    hide Good, Accounted, AnchoredLeaves, Log, Hashes, UpTo, Frontier;
    CrashingLeavesNoGap(c, steps, |steps|);
    GoodIsAccounted(c, Final(c, steps).w);
    GoodConserves(c, Final(c, steps).w);
  }

  /** Every reachable table passes the verifier against the whole log. */
  lemma EveryRunVerifies(c: Config, steps: seq<Step>)
    requires LegalRun(c, steps) && Ascending(Final(c, steps).w.db.feed) && SignaturesVerify(c.keys)
    ensures Accepted(c.keys, Log(Final(c, steps).w.db.feed), Final(c, steps).w.db.table)
  {
    hide Good, Accepted;
    CrashingLeavesNoGap(c, steps, |steps|);
    GoodIsAccepted(c, Final(c, steps).w);
  }

  /** The ranges of a reachable table are disjoint and strictly ascending, across restarts too; only row 0 has a NULL prev. */
  lemma EveryRunAscends(c: Config, steps: seq<Step>, i: nat, j: nat)
    requires LegalRun(c, steps) && Ascending(Final(c, steps).w.db.feed)
    requires i < j < |Final(c, steps).w.db.table|
    ensures var t := Final(c, steps).w.db.table;
            && 1 <= t[i].from <= t[i].to < t[j].from <= t[j].to
            && t[j].prev == t[j - 1].hash
            && t[0].prev == []
  {
    hide Run, Anchored, LegalRun;
    RunIsGood(c, steps);
    var w := Final(c, steps).w;
    var log, a, n := Chained(w.db.feed), Total(w.db.table, |w.db.table|), |w.db.table|;
    RangesWithin(c.keys, log, a, w.db.table, n);
    RangesAscend(c.keys, log, a, w.db.table, n, i, j);
  }

  lemma RunIsGood(c: Config, steps: seq<Step>)
    requires LegalRun(c, steps) && Ascending(Final(c, steps).w.db.feed)
    ensures Good(c, Final(c, steps).w)
  {
    hide Good;
    CrashingLeavesNoGap(c, steps, |steps|);
  }

  lemma FlushAnchorsAll(c: Config, w: World)
    requires Good(c, w) && w.ok
    requires w.s.loaded ==> Seen(w) == |Chained(w.db.feed)|
    ensures var v := Flush(c, w);
            v.ok ==> v.s.leaves == [] && AnchoredLeaves(Log(v.db.feed), v.db.table, |v.db.table|) == Hashes(Log(v.db.feed))
  {
    hide EnsureLoaded, FlushLeaves, Anchored, Log, Chained, AnchoredLeaves, Hashes, Tracks, Ordered;
    EnsureLoadedKeeps(c, w);
    var u := EnsureLoaded(c, w);
    if u.ok {
      FlushLeavesKeeps(c, u);
      LogIsChained(u.db.feed);
      var v, log := FlushLeaves(c, u), Chained(u.db.feed);
      AnchoredConcat(c.keys, log, Total(v.db.table, |v.db.table|), v.db.table, |v.db.table|);
      assert v.ok ==> log[..Total(v.db.table, |v.db.table|)] == log;
    }
  }

  /** A successful flush when caught up, or the first after a restart, anchors the whole chained log. */
  lemma CaughtUpFlushAnchorsAll(c: Config, steps: seq<Step>, budget: nat)
    requires LegalRun(c, steps) && Ascending(Final(c, steps).w.db.feed)
    requires var st := Final(c, steps);
             st.w.s.loaded ==> st.cursor == |st.w.db.feed| && !Stranded(c, steps, |steps|)
    ensures var v := Flush(c, Armed(Final(c, steps), budget));
            v.ok ==> v.s.leaves == [] && AnchoredLeaves(Log(v.db.feed), v.db.table, |v.db.table|) == Hashes(Log(v.db.feed))
  {
    hide Good, Flush, AnchoredLeaves, Log, Hashes;
    CrashingLeavesNoGap(c, steps, |steps|);
    var st := Final(c, steps);
    var w := Armed(st, budget);
    ArmedIsGood(c, st, budget);
    if w.s.loaded {
      GapFreeCounts(c, w, st.cursor);
      SeenInLog(c, w);
    }
    FlushAnchorsAll(c, w);
  }

  lemma SeenInLog(c: Config, w: World)
    requires Good(c, w)
    ensures Seen(w) <= |Chained(w.db.feed)|
  {
  }
}
