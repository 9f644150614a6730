/**
  The exact conditions behind the signer's guarantees: the order of the feed, the cursor after
  a failed reload, an insert whose acknowledgement is lost, and the size of checkpoints.
 */
module SignerLimits {
  import opened Hashing
  import opened Checkpoints
  import opened SignerModel
  import opened SignerInvariant
  import opened SignerRuns
  import InsertionSort

  // ---- Counting ----

  lemma InsertCounts(table: seq<Checkpoint>, cp: Checkpoint)
    ensures var t := Insert(table, cp); Total(t, |t|) <= Total(table, |table|) + cp.count
  {
    TotalSnoc(table, cp);
  }

  lemma PushCounts(c: Config, w: World, l: Leaf)
    ensures var v := Push(c, w, l);
            && Seen(v) <= Seen(w) + 1 && v.s.lastSeen == l.gid
            && (w.ok && w.db.budget > 0 ==> v.ok && v.db.budget >= w.db.budget - 1)
            && (w.s.loaded ==> v.s.loaded)
  {
    hide Insert, CheckpointHash, LeavesDigest;
    var u := w.s.(leaves := w.s.leaves + [l], lastSeen := l.gid);
    InsertCounts(w.db.table, MakeCheckpoint(c.keys, u));
  }

  lemma {:induction false} HydrateSucceeds(c: Config, w: World, tail: seq<Leaf>, i: nat)
    requires i <= |tail| && w.ok && w.db.budget >= |tail| - i
    ensures var v := Hydrate(c, w, tail, i); v.ok && v.db.budget >= w.db.budget - (|tail| - i)
    decreases |tail| - i
  {
    hide Push;
    if i < |tail| {
      PushCounts(c, w, tail[i]);
      HydrateSucceeds(c, Push(c, w, tail[i]), tail, i + 1);
    }
  }

  /** Delivery adds a leaf per chained row at most, and leaves none of the delivered rows above the frontier. */
  lemma {:induction false} DeliverCounts(c: Config, w: World, rows: seq<Row>, i: nat)
    requires i <= |rows| && w.ok && w.s.loaded && w.db.budget >= |rows| - i
    ensures var v := Deliver(c, w, rows, i);
            && v.ok && v.s.loaded
            && v.s.lastSeen >= w.s.lastSeen
            && Seen(v) + |ChainedTo(rows, i)| <= Seen(w) + |Chained(rows)|
            && forall x | i <= x < |rows| && rows[x].hash.Some? :: rows[x].gid <= v.s.lastSeen
    decreases |rows| - i
  {
    hide Push;
    if i < |rows| {
      if rows[i].hash.Some? {
        PushCounts(c, w, Leaf(rows[i].gid, rows[i].hash.value));
      }
      DeliverCounts(c, DeliverRow(c, w, rows[i]), rows, i + 1);
    }
  }

  /** A chained row below the frontier is skipped for good, so the count falls behind. */
  lemma {:induction false} DeliverSkips(c: Config, w: World, rows: seq<Row>, i: nat, j: nat)
    requires i <= j < |rows| && w.ok && w.s.loaded && w.db.budget >= |rows| - i
    requires rows[j].hash.Some? && rows[j].gid <= w.s.lastSeen
    ensures Seen(Deliver(c, w, rows, i)) + |ChainedTo(rows, i)| < Seen(w) + |Chained(rows)|
    decreases |rows| - i
  {
    hide Push;
    if rows[i].hash.Some? {
      PushCounts(c, w, Leaf(rows[i].gid, rows[i].hash.value));
    }
    if i == j {
      DeliverCounts(c, w, rows, i + 1);
    } else {
      DeliverSkips(c, DeliverRow(c, w, rows[i]), rows, i + 1, j);
    }
  }

  /** Once nothing chained lies above the frontier, a full account has as many leaves as the feed. */
  lemma AllBelowFrontier(c: Config, w: World)
    requires w.s.loaded
    requires forall i | 0 <= i < |w.db.feed| && w.db.feed[i].hash.Some? :: w.db.feed[i].gid <= w.s.lastSeen
    ensures Accounted(c, w) ==> Seen(w) == |Chained(w.db.feed)|
  {
    hide Holds;
    var leaves, g := Chained(w.db.feed), w.s.lastSeen;
    forall m | 0 <= m < |leaves|
      ensures leaves[m].gid <= g
    {
      var i := RowOfLeaf(w.db.feed, |w.db.feed|, m);
    }
    InsertionSort.SortMembers(BY_GID, leaves, |leaves|);
    var log := Log(w.db.feed);
    forall m | 0 <= m < |log|
      ensures log[m].gid <= g
    {
      assert log[m] in leaves[..|leaves|];
    }
    SelectSlice(log, |log|, None, Some(g), 0, |log|);
  }

  // ---- The order of the feed ----

  lemma FirstInversion(feed: seq<Row>) returns (i: nat, j: nat)
    requires WellFormed(feed) && !Ascending(feed)
    ensures i < j < |feed| && feed[i].hash.Some? && feed[j].hash.Some?
    ensures feed[j].gid < feed[i].gid && AscendingTo(feed, j)
  {
    var n := 0;
    while n < |feed| && AscendingTo(feed, n + 1)
      invariant n <= |feed| && AscendingTo(feed, n)
    {
      n := n + 1;
    }
    j := n;
    i :| 0 <= i < j && feed[i].hash.Some? && feed[j].hash.Some? && !(feed[i].gid < feed[j].gid);
  }

  lemma TransactionStart(feed: seq<Row>, i: nat, j: nat) returns (p: nat)
    requires WellFormed(feed) && i < j < |feed| && feed[j].gid < feed[i].gid
    ensures i < p <= j && feed[p - 1].txid < feed[p].txid
  {
    p := j;
    while feed[p - 1].txid == feed[j].txid
      invariant i < p <= j && feed[p].txid == feed[j].txid
      decreases p
    {
      p := p - 1;
    }
  }

  /** Rows that settle first, are delivered, and are then followed by the rest of the feed. */
  function OvertakingRun(feed: seq<Row>, p: nat): seq<Step>
    requires p <= |feed|
  {
    var budget := 2 * |feed| + 2;
    [Settle(feed[..p]), Batch(p, budget, true), Settle(feed[p..]), Batch(|feed| - p, budget, true)]
  }

  lemma StepOn(c: Config, steps: seq<Step>, n: nat)
    requires n < |steps| && LegalTo(c, steps, n)
    requires var st := Run(c, steps, n); st.cursor <= |st.w.db.feed| && Legal(st, steps[n])
    ensures LegalTo(c, steps, n + 1) && Run(c, steps, n + 1) == Exec(c, Run(c, steps, n), steps[n])
  {
  }

  lemma StepCall(c: Config, steps: seq<Step>, n: nat, st: State)
    requires n < |steps| && LegalTo(c, steps, n) && Run(c, steps, n) == st
    requires st.cursor <= |st.w.db.feed| && (steps[n].Batch? || steps[n].CatchUp?)
    ensures LegalTo(c, steps, n + 1) && Run(c, steps, n + 1) == Exec(c, st, steps[n])
  {
    StepOn(c, steps, n);
  }

  lemma StepSettle(c: Config, steps: seq<Step>, n: nat, st: State, rows: seq<Row>)
    requires n < |steps| && LegalTo(c, steps, n) && Run(c, steps, n) == st && steps[n] == Settle(rows)
    requires st.cursor <= |st.w.db.feed| && WellFormed(st.w.db.feed + rows)
    requires st.w.db.feed != [] && rows != [] && st.w.db.feed[|st.w.db.feed| - 1].txid < rows[0].txid
    ensures LegalTo(c, steps, n + 1)
    ensures Run(c, steps, n + 1) == st.(w := st.w.(db := st.w.db.(feed := st.w.db.feed + rows)))
  {
    StepOn(c, steps, n);
  }

  lemma Settled(c: Config, steps: seq<Step>, feed: seq<Row>)
    requires steps != [] && steps[0] == Settle(feed) && WellFormed(feed)
    ensures LegalTo(c, steps, 1) && Run(c, steps, 1) == State(World(FRESH, Db(feed, [], 0), true), 0)
  {
    assert [] + feed == feed;
    assert LegalTo(c, steps, 0) && Run(c, steps, 0) == INITIAL;
    StepOn(c, steps, 0);
  }

  /** A first batch over everything settled so far takes all of it. */
  lemma FirstBatch(c: Config, head: seq<Row>, budget: nat)
    requires WellFormed(head) && Ascending(head) && budget >= 2 * |head| + 2
    ensures var st := Exec(c, State(World(FRESH, Db(head, [], 0), true), 0), Batch(|head|, budget, true));
            && Good(c, st.w) && st.w.s.loaded && st.w.ok && st.cursor == |head| && st.w.db.feed == head
            && GapFree(st.w, |head|) && Seen(st.w) == |Chained(head)|
  {
    hide Project, Good, GapFree;
    var st1 := State(World(FRESH, Db(head, [], 0), true), 0);
    AscendingIsOrdered(head, |head|);
    FreshIsGood(c, head);
    FreshIsGapFree(st1.w);
    assert head[0..End(st1, |head|)] == head;
    ProjectKeeps(c, st1, |head|, budget);
    ProjectSucceeds(c, Armed(st1, budget), head);
    var st := Exec(c, st1, Batch(|head|, budget, true));
    SeenInLog(c, st.w);
    GapFreeCounts(c, st.w, |head|);
  }

  lemma FreshIsGood(c: Config, feed: seq<Row>)
    requires Ordered(Chained(feed))
    ensures Good(c, World(FRESH, Db(feed, [], 0), true))
  {
  }

  lemma FirstHalf(c: Config, feed: seq<Row>, p: nat) returns (st: State)
    requires WellFormed(feed) && p <= |feed| && AscendingTo(feed, p)
    ensures st == Run(c, OvertakingRun(feed, p), 2) && LegalTo(c, OvertakingRun(feed, p), 2)
    ensures Good(c, st.w) && st.w.s.loaded && st.cursor == p && st.w.db.feed == feed[..p]
    ensures GapFree(st.w, p) && Seen(st.w) == |ChainedTo(feed, p)| && st.w.ok
    ensures Run(c, OvertakingRun(feed, p), 1) == State(World(FRESH, Db(feed[..p], [], 0), true), 0)
  {
    hide Exec, Good, GapFree, Run, LegalTo;
    var steps, head := OvertakingRun(feed, p), feed[..p];
    assert WellFormed(head) && Ascending(head);
    Settled(c, steps, head);
    FirstBatch(c, head, 2 * |feed| + 2);
    StepCall(c, steps, 1, Run(c, steps, 1));
    st := Run(c, steps, 2);
    ChainedExtends(head, feed, p);
  }

  lemma FreshIsGapFree(w: World)
    requires !w.s.loaded
    ensures GapFree(w, 0)
  {
  }

  lemma ProjectSucceeds(c: Config, w: World, rows: seq<Row>)
    requires !w.s.loaded && w.ok && w.s.leaves == [] && w.db.table == [] && w.db.feed == rows
    requires Ordered(Chained(rows))
    requires w.db.budget >= 2 * |rows| + 2
    ensures Project(c, w, rows).ok
  {
    hide Hydrate, Deliver, Log;
    var s := LoadHead(c.keys, w.s, []);
    LogIsChained(rows);
    var tail := Above(Log(rows), 0);
    AboveIsRest(Chained(rows), 0);
    ChainedShort(rows, |rows|);
    HydrateSucceeds(c, World(s, w.db.(budget := w.db.budget - 2), true), tail, 0);
    LoadedAfter(c, World(s, w.db.(budget := w.db.budget - 2), true), tail, 0);
    DeliverCounts(c, EnsureLoaded(c, w), rows, 0);
  }

  lemma {:induction false} LoadedAfter(c: Config, w: World, tail: seq<Leaf>, i: nat)
    requires i <= |tail| && w.s.loaded
    ensures Hydrate(c, w, tail, i).s.loaded
    decreases |tail| - i
  {
    hide Push;
    if i < |tail| && w.ok {
      PushCounts(c, w, tail[i]);
      LoadedAfter(c, Push(c, w, tail[i]), tail, i + 1);
    }
  }

  lemma {:induction false} ChainedShort(feed: seq<Row>, n: nat)
    requires n <= |feed|
    ensures |ChainedTo(feed, n)| <= n
  {
    if n > 0 {
      ChainedShort(feed, n - 1);
    }
  }

  lemma {:induction false} ChainedConcat(f: seq<Row>, g: seq<Row>, n: nat)
    requires n <= |g|
    ensures |ChainedTo(f + g, |f| + n)| == |ChainedTo(f, |f|)| + |ChainedTo(g, n)|
  {
    if n > 0 {
      ChainedConcat(f, g, n - 1);
    } else {
      ChainedExtends(f, f + g, |f|);
    }
  }

  /** Rows i and j settle out of order: the second is delivered and skipped, and no longer accounted for. */
  lemma OvertakenLeafIsSkipped(c: Config, feed: seq<Row>, i: nat, j: nat, p: nat)
    requires WellFormed(feed) && i < p <= j < |feed| && AscendingTo(feed, j)
    requires feed[i].hash.Some? && feed[j].hash.Some? && feed[j].gid < feed[i].gid
    requires feed[p - 1].txid < feed[p].txid
    ensures LegalRun(c, OvertakingRun(feed, p))
    ensures Final(c, OvertakingRun(feed, p)).w.db.feed == feed
    ensures !Accounted(c, Final(c, OvertakingRun(feed, p)).w)
  {
    hide Project, Good, Accounted, Deliver, Run, LegalTo, GapFree, WellFormed, Stranded;
    var steps, rest, budget := OvertakingRun(feed, p), feed[p..], 2 * |feed| + 2;
    var st2 := FirstHalf(c, feed, p);
    assert feed[..p] + rest == feed;
    StepSettle(c, steps, 2, st2, rest);
    var st3 := Run(c, steps, 3);
    assert st3 == st2.(w := st2.w.(db := st2.w.db.(feed := feed)));
    StepCall(c, steps, 3, st3);
    FeedGrows(c, st3, steps[3]);
    assert st3.w.db.feed[p..End(st3, |feed| - p)] == rest;
    BelowFrontier(st2.w, p, i);
    StillGapFree(st2.w, Armed(st3, budget), p);
    LastHalf(c, Armed(st3, budget), feed, p, i, j);
    NoneStranded(c, steps);
  }

  /** Nothing failed before either batch. */
  lemma NoneStranded(c: Config, steps: seq<Step>)
    requires |steps| == 4 && steps[0].Settle? && steps[1].Batch? && steps[2].Settle? && steps[3].Batch?
    requires !Run(c, steps, 1).w.s.loaded && Run(c, steps, 2).w.ok && Run(c, steps, 3).w.ok
    ensures FailedLoadsCrash(c, steps)
  {
    hide Run;
    assert !Stranded(c, steps, 0);
    assert !Stranded(c, steps, 1);
    assert !Stranded(c, steps, 2);
    assert !Stranded(c, steps, 3);
    assert forall k | 0 <= k < |steps| && steps[k].Batch? :: k == 1 || k == 3;
  }

  lemma StillGapFree(w: World, v: World, p: nat)
    requires p <= |w.db.feed| && GapFree(w, p) && w.db.feed <= v.db.feed && v.s == w.s
    ensures GapFree(v, p)
  {
  }

  lemma BelowFrontier(w: World, p: nat, i: nat)
    requires i < p <= |w.db.feed| && GapFree(w, p) && w.s.loaded && w.db.feed[i].hash.Some?
    ensures w.db.feed[i].gid <= w.s.lastSeen
  {
  }

  lemma LastHalf(c: Config, w: World, feed: seq<Row>, p: nat, i: nat, j: nat)
    requires w.ok && w.s.loaded && w.db.budget >= |feed| && w.db.feed == feed
    requires i < p <= j < |feed| && feed[j].hash.Some? && feed[j].gid < feed[i].gid <= w.s.lastSeen
    requires Seen(w) == |ChainedTo(feed, p)| && GapFree(w, p)
    ensures var v := Project(c, w, feed[p..]); v.db.feed == feed ==> !Accounted(c, v)
  {
    hide Deliver, Accounted;
    var rest := feed[p..];
    assert rest[j - p] == feed[j];
    DeliverCounts(c, w, rest, 0);
    DeliverSkips(c, w, rest, 0, j - p);
    ChainedConcat(feed[..p], rest, |rest|);
    ChainedExtends(feed[..p], feed, p);
    assert feed[..p] + rest == feed;
    var v := Deliver(c, w, rest, 0);
    assert v == Project(c, w, rest);
    if v.db.feed == feed {
      forall x | 0 <= x < |feed| && feed[x].hash.Some?
        ensures feed[x].gid <= v.s.lastSeen
      {
        if x >= p {
          assert feed[x] == rest[x - p];
        }
      }
      AllBelowFrontier(c, v);
    }
  }

  /**
    Skipping on the global id alone is sound exactly for feeds whose chained rows are delivered
    in ascending global id: over any other feed some run, without a single failure, loses a leaf.
   */
  lemma OrderIsExact(c: Config, feed: seq<Row>)
    requires WellFormed(feed)
    ensures Ascending(feed) <==>
            forall steps :: LegalRun(c, steps) && Final(c, steps).w.db.feed == feed ==> Accounted(c, Final(c, steps).w)
  {
    hide Accounted, LegalRun, Final;
    if Ascending(feed) {
      forall steps | LegalRun(c, steps) && Final(c, steps).w.db.feed == feed
        ensures Accounted(c, Final(c, steps).w)
      {
        EveryRunAccounts(c, steps);
      }
    } else {
      var i, j := FirstInversion(feed);
      var p := TransactionStart(feed, i, j);
      OvertakenLeafIsSkipped(c, feed, i, j, p);
    }
  }

  // ---- The cursor after a failed reload ----

  /**
    The next new leaf can be taken without losing another exactly when no chained row lies
    between the last one seen and the cursor. A run reaches the other case when the reload
    after a restart fails: the signer counts as loaded, and the cursor is past rows it never read.
   */
  lemma GapIsExact(c: Config, w: World, p: nat)
    requires Good(c, w) && w.s.loaded && p < |w.db.feed|
    requires w.db.feed[p].hash.Some? && w.db.feed[p].gid > w.s.lastSeen
    ensures Accounted(c, DeliverRow(c, w, w.db.feed[p])) <==> GapFree(w, p)
  {
    hide Anchored, Push, GapFree, Holds, Tracks;
    var feed, log, n := w.db.feed, Chained(w.db.feed), |ChainedTo(w.db.feed, p)|;
    GapFreeCounts(c, w, p);
    if n <= Seen(w) {
      DeliverRowKeeps(c, w, p);
      GoodIsAccounted(c, DeliverRow(c, w, feed[p]));
    } else {
      var l := Leaf(feed[p].gid, feed[p].hash.value);
      PushCounts(c, w, l);
      PushFeed(c, w, l);
      LeafOfRow(feed, p, |feed|);
      LogIsChained(feed);
      assert GidAt(log, n + 1) == l.gid;
      UpToIsPrefix(log, n + 1);
    }
  }

  /** The signer has taken the last of the chained rows before p, and fewer leaves than there are. */
  ghost predicate Short(w: World, p: nat)
    requires p <= |w.db.feed|
  {
    && w.s.loaded && Ordered(Chained(w.db.feed))
    && |ChainedTo(w.db.feed, p)| <= |Chained(w.db.feed)|
    && w.s.lastSeen == GidAt(Chained(w.db.feed), |ChainedTo(w.db.feed, p)|)
    && Seen(w) < |ChainedTo(w.db.feed, p)|
  }

  lemma ShortIsUnaccounted(c: Config, w: World, p: nat)
    requires p <= |w.db.feed| && Short(w, p)
    ensures !Accounted(c, w)
  {
    hide Holds, Log, Chained;
    LogIsChained(w.db.feed);
    UpToIsPrefix(Chained(w.db.feed), |ChainedTo(w.db.feed, p)|);
  }

  lemma ShortAfterPush(c: Config, w: World, p: nat)
    requires w.s.loaded && p < |w.db.feed| && Ordered(Chained(w.db.feed)) && w.db.feed[p].hash.Some?
    requires Seen(w) < |ChainedTo(w.db.feed, p)|
    ensures var v := Push(c, w, Leaf(w.db.feed[p].gid, w.db.feed[p].hash.value)); v.db.feed == w.db.feed && Short(v, p + 1)
  {
    hide Push;
    var l := Leaf(w.db.feed[p].gid, w.db.feed[p].hash.value);
    PushCounts(c, w, l);
    PushFeed(c, w, l);
    LeafOfRow(w.db.feed, p, |w.db.feed|);
    ChainedMonotone(w.db.feed, p + 1, |w.db.feed|);
  }

  lemma {:induction false} StaysShort(c: Config, w: World, p: nat, q: nat, i: nat)
    requires p <= q <= |w.db.feed| && i <= q - p && Short(w, p + i)
    ensures !Accounted(c, Deliver(c, w, w.db.feed[p..q], i))
    decreases q - p - i
  {
    hide Push, Accounted;
    if i < q - p && w.ok {
      var r := w.db.feed[p + i];
      assert w.db.feed[p..q][i] == r;
      if r.hash.Some? {
        LeafOfRow(w.db.feed, p + i, |w.db.feed|);
        ShortAfterPush(c, w, p + i);
      }
      StaysShort(c, DeliverRow(c, w, r), p, q, i + 1);
    } else {
      ShortIsUnaccounted(c, w, p + i);
    }
  }

  lemma {:induction false} JumpFallsShort(c: Config, w: World, p: nat, q: nat, i: nat, x: nat)
    requires Ordered(Chained(w.db.feed)) && w.s.loaded && w.ok && p <= q <= |w.db.feed| && p + i <= x < q
    requires w.db.feed[x].hash.Some? && w.db.feed[x].gid > w.s.lastSeen
    requires Seen(w) < |ChainedTo(w.db.feed, p + i)|
    ensures !Accounted(c, Deliver(c, w, w.db.feed[p..q], i))
    decreases q - p - i
  {
    hide Push, Accounted;
    var r := w.db.feed[p + i];
    assert w.db.feed[p..q][i] == r;
    if r.hash.Some? && r.gid > w.s.lastSeen {
      ShortAfterPush(c, w, p + i);
      StaysShort(c, DeliverRow(c, w, r), p, q, i + 1);
    } else {
      ChainedMonotone(w.db.feed, p + i, p + i + 1);
      JumpFallsShort(c, w, p, q, i + 1, x);
    }
  }

  /** From a good state a batch leaves every leaf accounted for exactly when it takes no new one across a gap. */
  lemma BatchIsExact(c: Config, st: State, n: nat, budget: nat, saved: bool)
    requires Good(c, st.w) && st.cursor <= |st.w.db.feed|
    ensures Accounted(c, Exec(c, st, Batch(n, budget, saved)).w) <==> !Jumps(st, n)
  {
    hide Good, Accounted, GapFree, Deliver;
    var w := Armed(st, budget);
    if Jumps(st, n) {
      var x :| st.cursor <= x < End(st, n) && w.db.feed[x].hash.Some? && w.db.feed[x].gid > w.s.lastSeen;
      GapMeansLoaded(st.w, st.cursor);
      GapFreeCounts(c, st.w, st.cursor);
      GoodIsOrdered(c, st.w);
      JumpFallsShort(c, w, st.cursor, End(st, n), 0, x);
    } else {
      SmoothKeeps(c, st, n, budget);
      GoodIsAccounted(c, Exec(c, st, Batch(n, budget, saved)).w);
    }
  }

  lemma GapMeansLoaded(w: World, cursor: nat)
    requires cursor <= |w.db.feed| && !GapFree(w, cursor)
    ensures w.s.loaded
  {
  }

  lemma GoodIsOrdered(c: Config, w: World)
    requires Good(c, w)
    ensures Ordered(Chained(w.db.feed))
  {
  }

  ghost predicate AccountedAt(c: Config, steps: seq<Step>, n: nat)
    requires n <= |steps|
  {
    Accounted(c, Run(c, steps, n).w)
  }

  lemma {:induction false} FeedBefore(c: Config, steps: seq<Step>, m: nat, n: nat)
    requires m <= n <= |steps| && LegalTo(c, steps, n)
    ensures Run(c, steps, m).w.db.feed <= Run(c, steps, n).w.db.feed && LegalTo(c, steps, m)
  {
    hide Exec, Legal;
    if m < n {
      FeedBefore(c, steps, m, n - 1);
      FeedGrows(c, Run(c, steps, n - 1), steps[n - 1]);
    }
  }

  lemma FirstJump(c: Config, steps: seq<Step>) returns (n: nat)
    requires !SmoothTo(c, steps, |steps|)
    ensures n < |steps| && steps[n].Batch? && SmoothTo(c, steps, n) && !SmoothAt(c, steps, n)
  {
    hide SmoothAt;
    n := 0;
    while SmoothTo(c, steps, n + 1)
      invariant n < |steps| && SmoothTo(c, steps, n)
      decreases |steps| - n
    {
      n := n + 1;
    }
  }

  /**
    Over an ascending feed, a run with any pattern of failures accounts for every leaf at every
    point exactly when none of its batches takes a new leaf across a gap.
   */
  lemma SmoothIsExact(c: Config, steps: seq<Step>)
    requires LegalTo(c, steps, |steps|) && Ascending(Final(c, steps).w.db.feed)
    ensures SmoothTo(c, steps, |steps|) <==>
            forall n {:trigger AccountedAt(c, steps, n)} | 0 <= n <= |steps| :: AccountedAt(c, steps, n)
  {
    hide Run, Accounted, Good, Jumps, LegalTo, Exec;
    if SmoothTo(c, steps, |steps|) {
      forall n | 0 <= n <= |steps|
        ensures AccountedAt(c, steps, n)
      {
        FeedBefore(c, steps, n, |steps|);
        AscendingBefore(Run(c, steps, n).w.db.feed, Final(c, steps).w.db.feed);
        RunKeeps(c, steps, n);
        GoodIsAccounted(c, Run(c, steps, n).w);
      }
    } else {
      var n := FirstJump(c, steps);
      FeedBefore(c, steps, n, |steps|);
      FeedBefore(c, steps, n + 1, |steps|);
      AscendingBefore(Run(c, steps, n).w.db.feed, Final(c, steps).w.db.feed);
      RunKeeps(c, steps, n);
      var step := steps[n];
      BatchIsExact(c, Run(c, steps, n), step.n, step.budget, step.saved);
      NextState(c, steps, n);
      assert !AccountedAt(c, steps, n + 1);
    }
  }

  lemma NextState(c: Config, steps: seq<Step>, n: nat)
    requires n < |steps| && LegalTo(c, steps, n + 1)
    ensures var st := Run(c, steps, n); st.cursor <= |st.w.db.feed| && Legal(st, steps[n]) && Run(c, steps, n + 1) == Exec(c, st, steps[n])
  {
    hide Exec;
  }

  lemma PushFeed(c: Config, w: World, l: Leaf)
    ensures Push(c, w, l).db.feed == w.db.feed
  {
  }

  /** A reload whose second read fails leaves a good signer, with a gap exactly over the unanchored rows before the cursor. */
  lemma FailedReload(c: Config, w: World, cursor: nat)
    requires Good(c, w) && !w.s.loaded && w.ok && w.db.budget == 1 && cursor <= |w.db.feed|
    ensures var v := EnsureLoaded(c, w);
            && Good(c, v) && v.s.loaded && !v.ok && v.db.table == w.db.table
            && (GapFree(v, cursor) <==>
                forall i | 0 <= i < cursor && w.db.feed[i].hash.Some? ::
                  w.db.feed[i].gid <= HeadTo(w.db.table, |w.db.table|))
  {
    hide Anchored, Hydrate;
    EnsureLoadedKeeps(c, w);
    LoadHeadTracks(c, w);
  }

  function StrandingRun(d: Digest): seq<Step> {
    [Settle([Row(1, 1, Some(d))]), Batch(1, 9, true), Restart(1), CatchUp(1), Settle([Row(2, 2, Some(d))]), Batch(1, 9, true)]
  }

  /** The gap is real: one accumulated leaf, a crash, a failed reload, one more event. */
  lemma StrandedTail(k: Keys, d: Digest)
    ensures var c, steps := Config(k, 2), StrandingRun(d);
            && LegalTo(c, steps, 6) && Ascending(Final(c, steps).w.db.feed)
            && !Accounted(c, Final(c, steps).w)
  {
    hide Run, LegalTo, Exec, Accounted;
    var c, steps := Config(k, 2), StrandingRun(d);
    StrandedEnd(c, d);
    AllBelowFrontier(c, Run(c, steps, 6).w);
    TwoChained(Row(1, 1, Some(d)), Row(2, 2, Some(d)));
  }

  lemma StrandedEnd(c: Config, d: Digest)
    requires c.every == 2
    ensures var steps := StrandingRun(d);
            && LegalTo(c, steps, 6)
            && Run(c, steps, 6).w == World(Signer(true, CheckpointGenesisPrev(c.keys.sha), 0, 2, [Leaf(2, d)]),
                                           Db([Row(1, 1, Some(d)), Row(2, 2, Some(d))], [], 9), true)
  {
    hide Run, LegalTo, Exec;
    var r1, r2, steps := Row(1, 1, Some(d)), Row(2, 2, Some(d)), StrandingRun(d);
    UntilReload(c, steps, r1, Leaf(1, d), d);
    assert [r1] + [r2] == [r1, r2];
    StepSettle(c, steps, 4, Run(c, steps, 4), [r2]);
    SecondLeaf(c, Run(c, steps, 5), r1, r2, Leaf(2, d), d, CheckpointGenesisPrev(c.keys.sha));
    StepCall(c, steps, 5, Run(c, steps, 5));
  }

  lemma TwoChained(r1: Row, r2: Row)
    requires r1.hash.Some? && r2.hash.Some?
    ensures |Chained([r1, r2])| == 2
  {
    assert |ChainedTo([r1, r2], 0)| == 0 && |ChainedTo([r1, r2], 1)| == 1;
  }

  lemma UntilReload(c: Config, steps: seq<Step>, r: Row, l: Leaf, d: Digest)
    requires c.every == 2 && r == Row(1, 1, Some(d)) && l == Leaf(1, d)
    requires |steps| >= 4 && steps[0] == Settle([r]) && steps[1] == Batch(1, 9, true)
    requires steps[2] == Restart(1) && steps[3] == CatchUp(1)
    ensures LegalTo(c, steps, 4)
    ensures Run(c, steps, 4) ==
            State(World(Signer(true, CheckpointGenesisPrev(c.keys.sha), 0, 0, []), Db([r], [], 0), false), 1)
  {
    hide Run, LegalTo, Exec;
    Settled(c, steps, [r]);
    FirstLeaf(c, r, l, d);
    StepCall(c, steps, 1, Run(c, steps, 1));
    Restarted(c, steps, 2, Run(c, steps, 2));
    ReloadFails(c, Run(c, steps, 3), r);
    StepCall(c, steps, 3, Run(c, steps, 3));
  }

  lemma Restarted(c: Config, steps: seq<Step>, n: nat, st: State)
    requires n < |steps| && LegalTo(c, steps, n) && Run(c, steps, n) == st && steps[n] == Restart(st.cursor)
    requires st.cursor <= |st.w.db.feed|
    ensures LegalTo(c, steps, n + 1) && Run(c, steps, n + 1) == State(World(FRESH, st.w.db, true), st.cursor)
  {
    StepOn(c, steps, n);
  }

  lemma FirstLeaf(c: Config, r: Row, l: Leaf, d: Digest)
    requires c.every == 2 && r == Row(1, 1, Some(d)) && l == Leaf(1, d)
    ensures var st := Exec(c, State(World(FRESH, Db([r], [], 0), true), 0), Batch(1, 9, true));
            st.cursor == 1 && st.w.db.feed == [r] && st.w.db.table == []
  {
    hide Log, Above;
    assert [r][0..1] == [r];
    assert ChainedTo([r], 0) == [] && Chained([r]) == [l];
    LogIsChained([r]);
    AboveIsRest([l], 0);
    assert [l][0..] == [l];
    var w := World(FRESH, Db([r], [], 9), true);
    var u := World(Signer(true, CheckpointGenesisPrev(c.keys.sha), 0, 0, []), Db([r], [], 7), true);
    var v := u.(s := u.s.(leaves := [l], lastSeen := 1));
    assert Push(c, u, l) == v;
    assert Hydrate(c, u, [l], 0) == Hydrate(c, v, [l], 1) == v;
    assert EnsureLoaded(c, w) == v;
    assert Deliver(c, v, [r], 0) == Deliver(c, v, [r], 1) == v;
  }

  lemma ReloadFails(c: Config, st: State, r: Row)
    requires st.w.s == FRESH && st.w.db.feed == [r] && st.w.db.table == [] && st.cursor == 1
    ensures Exec(c, st, CatchUp(1)) ==
            State(World(Signer(true, CheckpointGenesisPrev(c.keys.sha), 0, 0, []), Db([r], [], 0), false), 1)
  {
  }

  lemma SecondLeaf(c: Config, st: State, r1: Row, r2: Row, l: Leaf, d: Digest, g: Bytes)
    requires c.every == 2 && r1 == Row(1, 1, Some(d)) && r2 == Row(2, 2, Some(d)) && l == Leaf(2, d)
    requires st == State(World(Signer(true, g, 0, 0, []), Db([r1, r2], [], 0), false), 1)
    ensures Exec(c, st, Batch(1, 9, true)).w == World(Signer(true, g, 0, 2, [l]), Db([r1, r2], [], 9), true)
  {
    var w := Armed(st, 9);
    assert [r1, r2][1..End(st, 1)] == [r2];
    assert Deliver(c, w, [r2], 0) == DeliverRow(c, w, r2) == Push(c, w, l);
  }

  // ---- A failed insert ----

  /** After a failed insert the next leaf goes into a checkpoint that starts where the failed one did. */
  lemma FailedInsertExtends(c: Config, w: World, l: Leaf, budget: nat)
    requires Good(c, w) && w.s.loaded && w.ok && w.s.leaves != [] && |w.s.leaves| >= c.every
    requires w.db.budget == 0 && budget > 0
    requires Seen(w) < |Chained(w.db.feed)| && l == Chained(w.db.feed)[Seen(w)]
    ensures var v := FlushLeaves(c, w);
            var z := Push(c, v.(ok := true, db := v.db.(budget := budget)), l);
            && !v.ok && v.s == w.s && v.db == w.db
            && Good(c, z) && z.ok && z.s.leaves == [] && |z.db.table| == |w.db.table| + 1
            && (var row := z.db.table[|w.db.table|];
                row.from == w.s.leaves[0].gid && row.to == l.gid && row.count == |w.s.leaves| + 1)
  {
    hide Anchored, Fold, Insert, MakeCheckpoint, Ordered, Chained, Tracks;
    var u := w.(ok := true, db := w.db.(budget := budget));
    PushKeeps(c, u, l);
    var s2 := w.s.(leaves := w.s.leaves + [l], lastSeen := l.gid);
    var w2 := World(s2, u.db, true);
    assert Push(c, u, l) == FlushLeaves(c, w2);
    LongerIsGood(c, u, l);
    FlushStores(c, w2);
  }

  lemma LongerIsGood(c: Config, w: World, l: Leaf)
    requires Good(c, w) && w.s.loaded
    requires Seen(w) < |Chained(w.db.feed)| && l == Chained(w.db.feed)[Seen(w)]
    ensures Good(c, w.(s := w.s.(leaves := w.s.leaves + [l], lastSeen := l.gid)))
  {
    hide Anchored;
  }

  lemma FlushStores(c: Config, w: World)
    requires Good(c, w) && w.s.loaded && w.s.leaves != [] && w.db.budget > 0
    ensures var v, n := FlushLeaves(c, w), |w.s.leaves|;
            && v.ok && v.s.leaves == [] && |v.db.table| == |w.db.table| + 1
            && (var row := v.db.table[|w.db.table|];
                row.from == w.s.leaves[0].gid && row.to == w.s.leaves[n - 1].gid && row.count == n)
  {
    hide Anchored, Fold, Insert, MakeCheckpoint, Ordered, Chained, Tracks, Holds;
    MakesTheFold(c, w);
    FoldFields(c.keys, w.db.table == [], HeadHash(c.keys, w.db.table, |w.db.table|), w.s.leaves);
    NoConflict(c.keys, Chained(w.db.feed), w.db.table, w.s.leaves);
  }

  // ---- An insert whose acknowledgement is lost ----

  /** The row was stored, but the signer is told that the insert failed. */
  function FlushLostAck(c: Config, w: World): World
    requires w.s.leaves != []
  {
    World(w.s, w.db.(table := Insert(w.db.table, MakeCheckpoint(c.keys, w.s))), false)
  }

  /** A restart, or a retry before any new leaf, heals it: the retry hits the conflict clause and writes nothing. */
  lemma LostAckHeals(c: Config, w: World, budget: nat)
    requires Good(c, w) && w.s.loaded && w.s.leaves != [] && budget > 0
    ensures var v := FlushLostAck(c, w);
            && Good(c, World(FRESH, v.db, true))
            && (var u := FlushLeaves(c, v.(ok := true, db := v.db.(budget := budget)));
                u.ok && u.db.table == v.db.table && u.s.leaves == [] && Good(c, u) && Seen(u) == Seen(w))
  {
    hide Anchored, MakeCheckpoint, Ordered;
    var first := w.(db := w.db.(budget := budget));
    FlushLeavesKeeps(c, first);
    var cp, table := MakeCheckpoint(c.keys, w.s), Insert(w.db.table, MakeCheckpoint(c.keys, w.s));
    assert exists i :: 0 <= i < |table| && table[i].to == cp.to by {
      if table == w.db.table + [cp] {
        assert table[|w.db.table|] == cp;
      }
    }
    assert Insert(table, cp) == table;
  }

  /** If a new leaf is accumulated first, the next checkpoint forks the chain and verification rejects the table. */
  lemma LostAckThenNewLeaf(c: Config, w: World, l: Leaf, budget: nat)
    requires Good(c, w) && w.s.loaded && w.s.leaves != [] && budget > 0 && SignaturesVerify(c.keys)
    requires Seen(w) < |Chained(w.db.feed)| && l == Chained(w.db.feed)[Seen(w)]
    requires |w.s.leaves| + 1 >= c.every
    ensures var v := FlushLostAck(c, w);
            var z := Push(c, v.(ok := true, db := v.db.(budget := budget)), l);
            var log := Log(w.db.feed);
            && |z.db.table| == |w.db.table| + 2
            && (!Accepted(c.keys, log, z.db.table) || CollisionIn(c.keys.sha, Preimages(c.keys, log, v.db.table)))
  {
    hide Anchored, Fold, Ordered, CollisionIn, Preimages, RowOk, FlushLeaves;
    var k, log, table := c.keys, Chained(w.db.feed), w.db.table;
    LogIsChained(w.db.feed);
    var v := FlushLostAck(c, w);
    StoredOnce(c, w);
    var s2 := w.s.(leaves := w.s.leaves + [l], lastSeen := l.gid);
    var cp2 := MakeCheckpoint(k, s2);
    var w2 := World(s2, v.db.(budget := budget), true);
    var z := Push(c, v.(ok := true, db := v.db.(budget := budget)), l);
    NextIsAbove(log, Seen(w));
    StoredTwice(c, w2, l, GidAt(log, Seen(w)));
    assert z.db.table == v.db.table + [cp2];
    if Accepted(k, log, z.db.table) && !CollisionIn(k.sha, Preimages(k, log, v.db.table)) {
      SameHeadTwice(k, log, table, v.db.table, z.db.table, w.s.prev, cp2);
    }
  }

  lemma NextIsAbove(log: seq<Leaf>, n: nat)
    requires Ordered(log) && n < |log|
    ensures GidAt(log, n) < log[n].gid
  {
  }

  /** The lost row is the one the log demands, so the table with it still verifies. */
  lemma StoredOnce(c: Config, w: World)
    requires Good(c, w) && w.s.loaded && w.s.leaves != [] && SignaturesVerify(c.keys)
    ensures var v, cp := FlushLostAck(c, w), MakeCheckpoint(c.keys, w.s);
            && v.db.table == w.db.table + [cp] && |cp.hash| == 32
            && Accepted(c.keys, Chained(w.db.feed), v.db.table)
            && w.s.prev == HeadHash(c.keys, w.db.table, |w.db.table|)
            && (w.s.lastCovered != 0 <==> w.db.table != [])
            && Below(v.db.table, GidAt(Chained(w.db.feed), Seen(w)))
  {
    hide Anchored, Fold, Insert, Accepted, MakeCheckpoint, Ordered;
    var table, log, a := w.db.table, Chained(w.db.feed), Total(w.db.table, |w.db.table|);
    MakesTheFold(c, w);
    FoldFields(c.keys, table == [], HeadHash(c.keys, table, |table|), w.s.leaves);
    NoConflict(c.keys, log, table, w.s.leaves);
    AnchorMore(c.keys, log, table, w.s.leaves);
    var t := FlushLostAck(c, w).db.table;
    AcceptedFromHolds(c.keys, log, t);
    TotalSnoc(table, MakeCheckpoint(c.keys, w.s));
    RangesWithin(c.keys, log, a, table, |table|);
    RangesWithin(c.keys, log, Total(t, |t|), t, |t|);
  }

  ghost predicate Below(table: seq<Checkpoint>, g: int) {
    forall i | 0 <= i < |table| :: table[i].to <= g
  }

  lemma AcceptedFromHolds(k: Keys, log: seq<Leaf>, table: seq<Checkpoint>)
    requires SignaturesVerify(k) && Ordered(log) && Holds(k, log, table, [])
    ensures Accepted(k, log, table)
  {
    hide Anchored, RowOk, Ordered;
    AnchoredIsAccepted(k, log, Total(table, |table|), table, |table|);
  }

  lemma StoredTwice(c: Config, w: World, l: Leaf, g: int)
    requires w.ok && w.db.budget > 0 && |w.s.leaves| >= c.every && w.s.leaves != []
    requires w.s.leaves[|w.s.leaves| - 1] == l
    requires g < l.gid && Below(w.db.table, g)
    ensures FlushLeaves(c, w).db.table == w.db.table + [MakeCheckpoint(c.keys, w.s)]
  {
    hide LeavesDigest, CheckpointHash;
  }

  lemma SameHeadTwice(k: Keys, log: seq<Leaf>, table: seq<Checkpoint>, once: seq<Checkpoint>, twice: seq<Checkpoint>,
                      prev: Bytes, cp: Checkpoint)
    requires |once| == |table| + 1 && table <= once && twice == once + [cp]
    requires prev == HeadHash(k, table, |table|) && cp.prev == (if table != [] then prev else [])
    requires |once[|table|].hash| == 32
    requires Accepted(k, log, once) && !CollisionIn(k.sha, Preimages(k, log, once))
    ensures !Accepted(k, log, twice)
  {
    hide RowOk, CollisionIn, Preimages, Recomputed;
    var n := |table|;
    BindingSeparates(k, Preimages(k, log, once), log, once, log, once);
    if n > 0 && once[n - 1].hash == once[n].hash {
      RowHashFixesHistory(k, log, once, n - 1, log, once, n);
    }
    assert !Linked(k, twice, n + 1);
    NotLinked(k, log, twice, n + 1);
  }

  lemma NotLinked(k: Keys, log: seq<Leaf>, table: seq<Checkpoint>, i: nat)
    requires i < |table| && !Linked(k, table, i)
    ensures !Accepted(k, log, table)
  {
    hide Linked;
    assert !RowOk(k, log, table, i);
  }

  // ---- The size of checkpoints ----

  /** `after` extends `before` by checkpoints of exactly `every` leaves. */
  ghost predicate OnlyFull(c: Config, before: seq<Checkpoint>, after: seq<Checkpoint>) {
    before <= after && forall i | |before| <= i < |after| :: after[i].count == c.every
  }

  lemma PushFull(c: Config, w: World, l: Leaf)
    requires |w.s.leaves| < c.every && w.ok && Push(c, w, l).ok
    ensures var v := Push(c, w, l); |v.s.leaves| < c.every && OnlyFull(c, w.db.table, v.db.table)
  {
    hide LeavesDigest, CheckpointHash;
  }

  lemma {:induction false} HydrateFull(c: Config, w: World, tail: seq<Leaf>, i: nat)
    requires i <= |tail| && |w.s.leaves| < c.every && w.ok && Hydrate(c, w, tail, i).ok
    ensures var v := Hydrate(c, w, tail, i); |v.s.leaves| < c.every && OnlyFull(c, w.db.table, v.db.table)
    decreases |tail| - i
  {
    hide Push;
    if i < |tail| && Push(c, w, tail[i]).ok {
      PushFull(c, w, tail[i]);
      HydrateFull(c, Push(c, w, tail[i]), tail, i + 1);
    }
  }

  lemma {:induction false} DeliverFull(c: Config, w: World, rows: seq<Row>, i: nat)
    requires i <= |rows| && |w.s.leaves| < c.every && w.ok && Deliver(c, w, rows, i).ok
    ensures var v := Deliver(c, w, rows, i); |v.s.leaves| < c.every && OnlyFull(c, w.db.table, v.db.table)
    decreases |rows| - i
  {
    hide Push;
    if i < |rows| && DeliverRow(c, w, rows[i]).ok {
      if rows[i].hash.Some? && rows[i].gid > w.s.lastSeen {
        PushFull(c, w, Leaf(rows[i].gid, rows[i].hash.value));
      }
      DeliverFull(c, DeliverRow(c, w, rows[i]), rows, i + 1);
    }
  }

  lemma LoadFull(c: Config, w: World)
    requires |w.s.leaves| < c.every && w.ok && EnsureLoaded(c, w).ok
    ensures var v := EnsureLoaded(c, w); |v.s.leaves| < c.every && OnlyFull(c, w.db.table, v.db.table)
  {
    hide Hydrate, Above, Log;
    if !w.s.loaded {
      var s := LoadHead(c.keys, w.s, w.db.table);
      HydrateFull(c, World(s, w.db.(budget := w.db.budget - 2), true), Above(Log(w.db.feed), s.lastCovered), 0);
    }
  }

  /** `after` extends `before` by full checkpoints, but for the last one if a flush emitted it. */
  ghost predicate FullUnlessFlushed(c: Config, before: seq<Checkpoint>, after: seq<Checkpoint>, flushed: bool) {
    before <= after && forall i | |before| <= i < |after| && after[i].count != c.every :: flushed && i == |after| - 1
  }

  lemma FlushSizes(c: Config, before: seq<Checkpoint>, w: World)
    requires w.ok && c.every > 0 && FlushLeaves(c, w).ok && |w.s.leaves| < c.every && OnlyFull(c, before, w.db.table)
    ensures var v := FlushLeaves(c, w); |v.s.leaves| < c.every && FullUnlessFlushed(c, before, v.db.table, true)
  {
    hide LeavesDigest, CheckpointHash;
  }

  /** The call that failed is the insert, not one of the two reads of a load. */
  predicate InsertFailed(st: State, step: Step, after: State) {
    && (step.Batch? || step.CatchUp?) && !after.w.ok
    && (st.w.s.loaded || step.budget >= 2)
  }

  lemma FailedReadAddsNothing(c: Config, w: World)
    requires w.ok && !w.s.loaded && w.db.budget < 2
    ensures var v := EnsureLoaded(c, w); !v.ok && v.s.leaves == w.s.leaves && v.db.table == w.db.table
  {
  }

  /** One step without a failed insert: full checkpoints only, but for the last one of a catch-up flush. */
  lemma StepSizes(c: Config, st: State, step: Step)
    requires c.every > 0 && |st.w.s.leaves| < c.every && st.cursor <= |st.w.db.feed|
    requires !InsertFailed(st, step, Exec(c, st, step))
    ensures var v := Exec(c, st, step).w;
            |v.s.leaves| < c.every && FullUnlessFlushed(c, st.w.db.table, v.db.table, step.CatchUp?)
  {
    hide EnsureLoaded, Deliver, FlushLeaves;
    if step.Batch? || step.CatchUp? {
      var w := Armed(st, step.budget);
      if !w.s.loaded && w.db.budget < 2 {
        FailedReadAddsNothing(c, w);
      } else {
        LoadFull(c, w);
        var u := EnsureLoaded(c, w);
        if step.Batch? {
          var rows := st.w.db.feed[st.cursor..End(st, step.n)];
          DeliverFull(c, u, rows, 0);
          FullTwice(c, w.db.table, u.db.table, Deliver(c, u, rows, 0).db.table);
        } else {
          FlushSizes(c, w.db.table, u);
        }
      }
    }
  }

  lemma FullTwice(c: Config, a: seq<Checkpoint>, b: seq<Checkpoint>, d: seq<Checkpoint>)
    requires OnlyFull(c, a, b) && OnlyFull(c, b, d)
    ensures FullUnlessFlushed(c, a, d, false)
  {
  }

  ghost predicate InsertsWork(c: Config, steps: seq<Step>) {
    forall i {:trigger InsertWorksAt(c, steps, i)} | 0 <= i < |steps| :: InsertWorksAt(c, steps, i)
  }

  ghost predicate InsertWorksAt(c: Config, steps: seq<Step>, i: nat)
    requires i < |steps|
  {
    !InsertFailed(Run(c, steps, i), steps[i], Run(c, steps, i + 1))
  }

  lemma {:induction false} AccumulatorStaysBelow(c: Config, steps: seq<Step>, n: nat)
    requires c.every > 0 && n <= |steps| && LegalTo(c, steps, n) && InsertsWork(c, steps)
    ensures |Run(c, steps, n).w.s.leaves| < c.every
  {
    hide Exec, Legal, InsertFailed;
    if n > 0 {
      AccumulatorStaysBelow(c, steps, n - 1);
      assert InsertWorksAt(c, steps, n - 1);
      StepSizes(c, Run(c, steps, n - 1), steps[n - 1]);
    }
  }

  /**
    In a run without failed inserts, whatever else fails: the accumulator stays below `every`
    leaves, and a checkpoint that step n stored with another count is the last one stored by a
    catch-up flush.
   */
  lemma CheckpointSizes(c: Config, steps: seq<Step>, n: nat)
    requires c.every > 0 && n < |steps| && LegalTo(c, steps, n + 1) && InsertsWork(c, steps)
    ensures |Run(c, steps, n + 1).w.s.leaves| < c.every
    ensures FullUnlessFlushed(c, Run(c, steps, n).w.db.table, Run(c, steps, n + 1).w.db.table, steps[n].CatchUp?)
  {
    hide Run, LegalTo, Exec, Legal, InsertFailed;
    FeedBefore(c, steps, n, n + 1);
    NextState(c, steps, n);
    AccumulatorStaysBelow(c, steps, n);
    assert InsertWorksAt(c, steps, n);
    StepSizes(c, Run(c, steps, n), steps[n]);
  }
}
