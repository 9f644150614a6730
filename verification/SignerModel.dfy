/**
  The checkpoint signer as functions on its in-memory fields and the database it talks to.

  `budget` is the number of database calls that succeed before one fails. A call that fails
  ends the method it is in, so the number describes every pattern of failures inside one
  call of the signer; a large budget is a call without failures.
 */
module SignerModel {
  import opened Hashing
  import opened Checkpoints
  import InsertionSort

  /** An event of the global feed; `hash` is None for a row written before hashing existed. */
  datatype Row = Row(txid: nat, gid: int, hash: Option<Digest>)

  datatype Config = Config(keys: Keys, every: nat)

  datatype Signer = Signer(loaded: bool, prev: Bytes, lastCovered: int, lastSeen: int, leaves: seq<Leaf>)

  const FRESH := Signer(false, [], 0, 0, [])

  /** The settled rows in feed order, and the checkpoint table in id order. */
  datatype Db = Db(feed: seq<Row>, table: seq<Checkpoint>, budget: nat)

  datatype World = World(s: Signer, db: Db, ok: bool)

  // ---- The event log as the database orders it ----

  /** The chained rows among the first n, in feed order. */
  function ChainedTo(feed: seq<Row>, n: nat): seq<Leaf>
    requires n <= |feed|
  {
    if n == 0 then [] else
    var rest := ChainedTo(feed, n - 1);
    var r := feed[n - 1];
    if r.hash.Some? then rest + [Leaf(r.gid, r.hash.value)] else rest
  }

  function Chained(feed: seq<Row>): seq<Leaf> {
    ChainedTo(feed, |feed|)
  }

  const BY_GID := (a: Leaf, b: Leaf) => a.gid < b.gid

  /** The chained rows by ascending global id, as both SQL reads order them. */
  function Log(feed: seq<Row>): seq<Leaf> {
    InsertionSort.Sort(BY_GID, Chained(feed), |Chained(feed)|)
  }

  function Above(log: seq<Leaf>, gid: int): seq<Leaf> {
    Select(log, |log|, Some(gid + 1), None)
  }

  function UpTo(log: seq<Leaf>, gid: int): seq<Leaf> {
    Select(log, |log|, None, Some(gid))
  }

  // ---- The signer's methods ----

  /** The checkpoint folded from the accumulator. */
  function MakeCheckpoint(k: Keys, s: Signer): Checkpoint
    requires s.leaves != []
  {
    var hash := CheckpointHash(k.sha, s.prev, LeavesDigest(k.sha, Hashes(s.leaves)));
    Checkpoint(if s.lastCovered != 0 then s.prev else [], hash,
               s.leaves[0].gid, s.leaves[|s.leaves| - 1].gid, |s.leaves|, k.sign(hash))
  }

  /** INSERT ... ON CONFLICT (covers_to_global_id) DO NOTHING. */
  function Insert(table: seq<Checkpoint>, cp: Checkpoint): seq<Checkpoint> {
    if exists i :: 0 <= i < |table| && table[i].to == cp.to then table else table + [cp]
  }

  function FlushLeaves(c: Config, w: World): World {
    if w.s.leaves == [] then w
    else if w.db.budget == 0 then w.(ok := false)
    else
      var cp := MakeCheckpoint(c.keys, w.s);
      World(w.s.(prev := cp.hash, lastCovered := cp.to, leaves := []),
            w.db.(table := Insert(w.db.table, cp), budget := w.db.budget - 1), true)
  }

  function Push(c: Config, w: World, l: Leaf): World {
    var v := w.(s := w.s.(leaves := w.s.leaves + [l], lastSeen := l.gid));
    if |v.s.leaves| >= c.every then FlushLeaves(c, v) else v
  }

  /** The loop over the re-read tail, from leaf i on. */
  function Hydrate(c: Config, w: World, tail: seq<Leaf>, i: nat): World
    requires i <= |tail|
    decreases |tail| - i
  {
    if i == |tail| || !w.ok then w else Hydrate(c, Push(c, w, tail[i]), tail, i + 1)
  }

  /** The head of the checkpoint chain, as selectHeadSQL and the genesis fallback give it. */
  function LoadHead(k: Keys, s: Signer, table: seq<Checkpoint>): Signer {
    if table == [] || table[|table| - 1].hash == [] then Signer(true, CheckpointGenesisPrev(k.sha), 0, 0, s.leaves)
    else
      var head := table[|table| - 1];
      Signer(true, head.hash, head.to, head.to, s.leaves)
  }

  /** `loaded` is set once the head is read, before the tail is; a failed tail read leaves it set. */
  function EnsureLoaded(c: Config, w: World): World {
    if w.s.loaded then w
    else if w.db.budget == 0 then w.(ok := false)
    else
      var s := LoadHead(c.keys, w.s, w.db.table);
      if w.db.budget == 1 then World(s, w.db.(budget := 0), false)
      else Hydrate(c, World(s, w.db.(budget := w.db.budget - 2), true), Above(Log(w.db.feed), s.lastCovered), 0)
  }

  function DeliverRow(c: Config, w: World, r: Row): World {
    if r.hash.None? || r.gid <= w.s.lastSeen then w else Push(c, w, Leaf(r.gid, r.hash.value))
  }

  /** The loop over a batch, from row i on. */
  function Deliver(c: Config, w: World, rows: seq<Row>, i: nat): World
    requires i <= |rows|
    decreases |rows| - i
  {
    if i == |rows| || !w.ok then w else Deliver(c, DeliverRow(c, w, rows[i]), rows, i + 1)
  }

  function Project(c: Config, w: World, rows: seq<Row>): World {
    var v := EnsureLoaded(c, w);
    if v.ok then Deliver(c, v, rows, 0) else v
  }

  function Flush(c: Config, w: World): World {
    var v := EnsureLoaded(c, w);
    if v.ok then FlushLeaves(c, v) else v
  }
}

/** The signer as an object over a connection; each method computes its function above. */
module AuditSigning {
  import opened Hashing
  import opened Checkpoints
  import opened SignerModel

  const DEFAULT_CHECKPOINT_EVERY := 256

  /** The database: `budget` calls succeed, the next one fails and changes nothing. */
  class Conn {
    var feed: seq<Row>
    var table: seq<Checkpoint>
    var budget: nat

    constructor (feed: seq<Row>)
      ensures this.feed == feed && table == [] && budget == 0
    {
      this.feed := feed;
      table, budget := [], 0;
    }

    ghost function State(): Db
      reads this
    {
      Db(feed, table, budget)
    }

    /** SELECT ... ORDER BY id DESC LIMIT 1. */
    method QueryHead() returns (ok: bool, head: Option<Checkpoint>)
      modifies this`budget
      ensures ok == (old(budget) > 0)
      ensures budget == if ok then old(budget) - 1 else 0
      ensures ok ==> head == if table == [] then None else Some(table[|table| - 1])
    {
      ok, head := budget > 0, None;
      if ok {
        budget := budget - 1;
        head := if table == [] then None else Some(table[|table| - 1]);
      }
    }

    method QueryTail(above: int) returns (ok: bool, tail: seq<Leaf>)
      modifies this`budget
      ensures ok == (old(budget) > 0)
      ensures budget == if ok then old(budget) - 1 else 0
      ensures ok ==> tail == Above(Log(feed), above)
    {
      ok, tail := budget > 0, [];
      if ok {
        budget := budget - 1;
        tail := Above(Log(feed), above);
      }
    }

    method ExecInsert(cp: Checkpoint) returns (ok: bool)
      modifies this`budget, this`table
      ensures ok == (old(budget) > 0)
      ensures State() == if ok then old(State()).(table := Insert(old(table), cp), budget := old(budget) - 1)
                         else old(State())
    {
      ok := budget > 0;
      if ok {
        budget := budget - 1;
        if !exists i :: 0 <= i < |table| && table[i].to == cp.to {
          table := table + [cp];
        }
      }
    }
  }

  class AuditSigner {
    const conn: Conn
    const keys: Keys
    const every: nat
    var loaded: bool
    var prev: Bytes
    var lastCovered: int
    var lastSeen: int
    var leaves: seq<Leaf>

    constructor (conn: Conn, keys: Keys, every: int)
      ensures this.conn == conn && this.keys == keys
      ensures this.every == if every <= 0 then 256 else every
      ensures State() == FRESH
    {
      this.conn, this.keys := conn, keys;
      this.every := if every <= 0 then DEFAULT_CHECKPOINT_EVERY else every;
      loaded, prev, lastCovered, lastSeen, leaves := false, [], 0, 0, [];
    }

    ghost function State(): Signer
      reads this
    {
      Signer(loaded, prev, lastCovered, lastSeen, leaves)
    }

    ghost function Cfg(): Config {
      Config(keys, every)
    }

    ghost function Here(ok: bool): World
      reads this, conn
    {
      World(State(), conn.State(), ok)
    }

    method FlushAccumulated() returns (ok: bool)
      modifies this, conn`table, conn`budget
      ensures Here(ok) == FlushLeaves(Cfg(), old(Here(true)))
    {
      if |leaves| == 0 {
        return true;
      }
      var hashes: seq<Digest> := [];
      for i := 0 to |leaves|
        invariant |hashes| == i && forall j | 0 <= j < i :: hashes[j] == leaves[j].hash
        invariant Here(true) == old(Here(true))
      {
        hashes := hashes + [leaves[i].hash];
      }
      assert hashes == Hashes(leaves);
      var from, to := leaves[0].gid, leaves[|leaves| - 1].gid;
      var digest := ComputeLeavesDigest(keys.sha, hashes);
      var hash := CheckpointHash(keys.sha, prev, digest);
      var prevArg := if lastCovered != 0 then prev else [];
      ok := conn.ExecInsert(Checkpoint(prevArg, hash, from, to, |hashes|, keys.sign(hash)));
      if !ok {
        return;
      }
      prev, lastCovered, leaves := hash, to, [];
    }

    method HydrateUnanchoredTail() returns (ok: bool)
      modifies this, conn`table, conn`budget
      ensures var w := old(Here(true));
              Here(ok) == if w.db.budget == 0 then w.(ok := false)
                          else Hydrate(Cfg(), w.(db := w.db.(budget := w.db.budget - 1)),
                                       Above(Log(w.db.feed), w.s.lastCovered), 0)
    {
      var tail;
      ok, tail := conn.QueryTail(lastCovered);
      if !ok {
        return;
      }
      ghost var w := Here(true);
      for i := 0 to |tail|
        invariant ok
        invariant Hydrate(Cfg(), w, tail, 0) == Hydrate(Cfg(), Here(true), tail, i)
      {
        leaves := leaves + [tail[i]];
        lastSeen := tail[i].gid;
        if |leaves| >= every {
          ok := FlushAccumulated();
          if !ok {
            return;
          }
        }
      }
    }

    method Load() returns (ok: bool)
      modifies this, conn`table, conn`budget
      ensures Here(ok) == EnsureLoaded(Cfg(), old(Here(true)))
    {
      if loaded {
        return true;
      }
      var head;
      ok, head := conn.QueryHead();
      if !ok {
        return;
      }
      if head.None? || |head.value.hash| == 0 {
        prev, lastCovered := CheckpointGenesisPrev(keys.sha), 0;
      } else {
        prev, lastCovered := head.value.hash, head.value.to;
      }
      lastSeen := lastCovered;
      loaded := true;
      ok := HydrateUnanchoredTail();
    }

    method ProjectBatch(rows: seq<Row>) returns (ok: bool)
      modifies this, conn`table, conn`budget
      ensures Here(ok) == Project(Cfg(), old(Here(true)), rows)
    {
      ok := Load();
      if !ok {
        return;
      }
      ghost var w := Here(true);
      for i := 0 to |rows|
        invariant ok
        invariant Deliver(Cfg(), w, rows, 0) == Deliver(Cfg(), Here(true), rows, i)
      {
        var r := rows[i];
        if r.hash.None? || r.gid <= lastSeen {
          continue;
        }
        leaves := leaves + [Leaf(r.gid, r.hash.value)];
        lastSeen := r.gid;
        if |leaves| >= every {
          ok := FlushAccumulated();
          if !ok {
            return;
          }
        }
      }
    }

    method FlushPending() returns (ok: bool)
      modifies this, conn`table, conn`budget
      ensures Here(ok) == Flush(Cfg(), old(Here(true)))
    {
      ok := Load();
      if !ok || |leaves| == 0 {
        return;
      }
      ok := FlushAccumulated();
    }
  }
}
