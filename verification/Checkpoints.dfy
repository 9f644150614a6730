/**
  The checkpoint table, its verifier, and what an accepted table proves about the event log.
 */
module Checkpoints {
  import opened Hashing

  /** A chained event: its position in the global feed and its content hash. */
  datatype Leaf = Leaf(gid: int, hash: Digest)

  /** A row of audit_checkpoints; the empty `prev` is SQL NULL. */
  datatype Checkpoint = Checkpoint(prev: Bytes, hash: Bytes, from: int, to: int, count: nat, sig: Bytes)

  /** The signing key, its public half, and the hash function. */
  datatype Keys = Keys(sha: Sha, sign: Digest -> Bytes, verify: (Bytes, Bytes) -> bool)

  datatype Reason = BrokenPrevLink | LeafMismatch | InvalidSignature

  datatype Verdict = Verified(checked: nat) | Rejected(row: nat, reason: Reason, checked: nat)

  function Hashes(leaves: seq<Leaf>): seq<Digest> {
    seq(|leaves|, i requires 0 <= i < |leaves| => leaves[i].hash)
  }

  predicate Within(l: Leaf, lo: Option<int>, hi: Option<int>) {
    (lo.Some? ==> lo.value <= l.gid) && (hi.Some? ==> l.gid <= hi.value)
  }

  /** The leaves among the first n whose position lies between the bounds, in order. */
  function Select(log: seq<Leaf>, n: nat, lo: Option<int>, hi: Option<int>): seq<Leaf>
    requires n <= |log|
  {
    if n == 0 then [] else
    var rest := Select(log, n - 1, lo, hi);
    if Within(log[n - 1], lo, hi) then rest + [log[n - 1]] else rest
  }

  function LeavesIn(log: seq<Leaf>, from: int, to: int): seq<Digest> {
    Hashes(Select(log, |log|, Some(from), Some(to)))
  }

  /** The predecessor hash entering row i. */
  function PrevOf(k: Keys, table: seq<Checkpoint>, i: nat): Bytes
    requires i < |table|
  {
    if i == 0 then CheckpointGenesisPrev(k.sha) else table[i - 1].hash
  }

  function Covered(log: seq<Leaf>, cp: Checkpoint): seq<Digest> {
    LeavesIn(log, cp.from, cp.to)
  }

  function Recomputed(k: Keys, log: seq<Leaf>, table: seq<Checkpoint>, i: nat): Digest
    requires i < |table|
  {
    CheckpointHash(k.sha, PrevOf(k, table, i), LeavesDigest(k.sha, Covered(log, table[i])))
  }

  predicate Linked(k: Keys, table: seq<Checkpoint>, i: nat)
    requires i < |table|
  {
    table[i].prev == PrevOf(k, table, i) || (i == 0 && table[i].prev == [])
  }

  predicate RowOk(k: Keys, log: seq<Leaf>, table: seq<Checkpoint>, i: nat)
    requires i < |table|
  {
    && Linked(k, table, i)
    && Recomputed(k, log, table, i) == table[i].hash
    && k.verify(table[i].hash, table[i].sig)
  }

  ghost predicate Accepted(k: Keys, log: seq<Leaf>, table: seq<Checkpoint>) {
    forall i | 0 <= i < |table| :: RowOk(k, log, table, i)
  }

  /** The verifier's loop: the verdict names the first failing row and classifies its failure. */
  method ClassifyCheckpoints(k: Keys, log: seq<Leaf>, table: seq<Checkpoint>) returns (v: Verdict)
    ensures v.Verified? <==> Accepted(k, log, table)
    ensures v.Verified? ==> v.checked == |table|
    ensures v.Rejected? ==>
              && v.checked == v.row < |table|
              && (forall i | 0 <= i < v.row :: RowOk(k, log, table, i))
              && (v.reason == BrokenPrevLink <==>
                  if v.row == 0 then table[0].prev !in {[], CheckpointGenesisPrev(k.sha)}
                  else table[v.row].prev != table[v.row - 1].hash)
              && (v.reason == LeafMismatch <==>
                  Linked(k, table, v.row) && Recomputed(k, log, table, v.row) != table[v.row].hash)
              && (v.reason == InvalidSignature ==> !k.verify(table[v.row].hash, table[v.row].sig))
  {
    var prev: Bytes := CheckpointGenesisPrev(k.sha);
    var checked := 0;
    for i := 0 to |table|
      invariant checked == i
      invariant i < |table| ==> prev == PrevOf(k, table, i)
      invariant forall j | 0 <= j < i :: RowOk(k, log, table, j)
    {
      var cp := table[i];
      if i == 0 {
        if cp.prev != [] && cp.prev != CheckpointGenesisPrev(k.sha) {
          assert !RowOk(k, log, table, i);
          return Rejected(i, BrokenPrevLink, checked);
        }
      } else if cp.prev != table[i - 1].hash {
        assert !RowOk(k, log, table, i);
        return Rejected(i, BrokenPrevLink, checked);
      }
      var digest := ComputeLeavesDigest(k.sha, LeavesIn(log, cp.from, cp.to));
      var recomputed := CheckpointHash(k.sha, prev, digest);
      assert recomputed == Recomputed(k, log, table, i);
      if recomputed != cp.hash {
        assert !RowOk(k, log, table, i);
        return Rejected(i, LeafMismatch, checked);
      }
      if !k.verify(recomputed, cp.sig) {
        assert !RowOk(k, log, table, i);
        return Rejected(i, InvalidSignature, checked);
      }
      prev := cp.hash;
      checked := checked + 1;
    }
    v := Verified(checked);
  }

  // ---- What acceptance proves ----

  /** Every byte string the verifier hashes for a table against a log. */
  ghost function Preimages(k: Keys, log: seq<Leaf>, table: seq<Checkpoint>): set<Bytes> {
    {Ascii(CHECKPOINT_GENESIS_PREFIX)}
    + (set i | 0 <= i < |table| :: Join(Covered(log, table[i])))
    + (set i | 0 <= i < |table| ::
         PrevOf(k, table, i) + LeavesDigest(k.sha, Covered(log, table[i])))
  }

  /** Rows 0..i of two tables carry the same hashes over the same leaves. */
  ghost predicate SameThrough(la: seq<Leaf>, ta: seq<Checkpoint>, lb: seq<Leaf>, tb: seq<Checkpoint>, n: nat) {
    && n <= |ta| && n <= |tb|
    && forall m | 0 <= m < n :: ta[m].hash == tb[m].hash && Covered(la, ta[m]) == Covered(lb, tb[m])
  }

  /** The strings hashed for `table` are among `hashed`, no two of which collide. */
  ghost predicate Binding(k: Keys, log: seq<Leaf>, table: seq<Checkpoint>, hashed: set<Bytes>) {
    Accepted(k, log, table) && Preimages(k, log, table) <= hashed && !CollisionIn(k.sha, hashed)
  }

  /** Equal row hashes mean equal predecessors and equal leaves. */
  lemma RowHashBinds(k: Keys, hashed: set<Bytes>, la: seq<Leaf>, ta: seq<Checkpoint>, i: nat,
                     lb: seq<Leaf>, tb: seq<Checkpoint>, j: nat)
    requires Binding(k, la, ta, hashed) && Binding(k, lb, tb, hashed)
    requires i < |ta| && j < |tb| && ta[i].hash == tb[j].hash
    ensures PrevOf(k, ta, i) == PrevOf(k, tb, j) && Covered(la, ta[i]) == Covered(lb, tb[j])
  {
    assert RowOk(k, la, ta, i) && RowOk(k, lb, tb, j);
    var p, q := PrevOf(k, ta, i), PrevOf(k, tb, j);
    CheckpointHashBinds(k.sha, p, Covered(la, ta[i]), q, Covered(lb, tb[j]));
    assert CheckpointPreimages(k.sha, p, Covered(la, ta[i])) <= Preimages(k, la, ta);
    assert CheckpointPreimages(k.sha, q, Covered(lb, tb[j])) <= Preimages(k, lb, tb);
  }

  /** What Binding gives two tables, with the hashed strings out of sight. */
  ghost predicate Separated(k: Keys, la: seq<Leaf>, ta: seq<Checkpoint>, lb: seq<Leaf>, tb: seq<Checkpoint>) {
    && (forall i | 0 <= i < |ta| :: ta[i].hash != CheckpointGenesisPrev(k.sha))
    && (forall j | 0 <= j < |tb| :: tb[j].hash != CheckpointGenesisPrev(k.sha))
    && (forall i, j | 0 <= i < |ta| && 0 <= j < |tb| && ta[i].hash == tb[j].hash ::
          PrevOf(k, ta, i) == PrevOf(k, tb, j) && Covered(la, ta[i]) == Covered(lb, tb[j]))
  }

  lemma BindingSeparates(k: Keys, hashed: set<Bytes>, la: seq<Leaf>, ta: seq<Checkpoint>,
                         lb: seq<Leaf>, tb: seq<Checkpoint>)
    requires Binding(k, la, ta, hashed) && Binding(k, lb, tb, hashed)
    ensures Separated(k, la, ta, lb, tb)
  {
    hide Binding, PrevOf, Covered;
    forall i | 0 <= i < |ta|
      ensures ta[i].hash != CheckpointGenesisPrev(k.sha)
    {
      GenesisIsNoRow(k, la, ta, i, hashed);
    }
    forall j | 0 <= j < |tb|
      ensures tb[j].hash != CheckpointGenesisPrev(k.sha)
    {
      GenesisIsNoRow(k, lb, tb, j, hashed);
    }
    forall i, j | 0 <= i < |ta| && 0 <= j < |tb| && ta[i].hash == tb[j].hash
      ensures PrevOf(k, ta, i) == PrevOf(k, tb, j) && Covered(la, ta[i]) == Covered(lb, tb[j])
    {
      RowHashBinds(k, hashed, la, ta, i, lb, tb, j);
    }
  }

  /** A row hash fixes its own index, its leaves and everything before it, across any two accepted tables. */
  lemma {:induction false} RowHashFixesHistory(k: Keys, la: seq<Leaf>, ta: seq<Checkpoint>, i: nat,
                                              lb: seq<Leaf>, tb: seq<Checkpoint>, j: nat)
    requires Separated(k, la, ta, lb, tb)
    requires i < |ta| && j < |tb| && ta[i].hash == tb[j].hash
    ensures i == j && SameThrough(la, ta, lb, tb, i + 1)
    decreases i + j
  {
    if i > 0 && j > 0 {
      RowHashFixesHistory(k, la, ta, i - 1, lb, tb, j - 1);
    }
  }

  /** No row hash is the genesis constant: 64 hashed bytes against the 37 of the prefix. */
  lemma GenesisIsNoRow(k: Keys, log: seq<Leaf>, table: seq<Checkpoint>, i: nat, hashed: set<Bytes>)
    requires Binding(k, log, table, hashed) && i < |table|
    ensures table[i].hash != CheckpointGenesisPrev(k.sha)
  {
    var x := PrevOf(k, table, i) + LeavesDigest(k.sha, Covered(log, table[i]));
    assert RowOk(k, log, table, i) && x in hashed;
    assert i > 0 ==> RowOk(k, log, table, i - 1);
    assert |x| == 64 && |Ascii(CHECKPOINT_GENESIS_PREFIX)| == 37;
  }

  /** Every signature that verifies on `table` was made over a row hash of `signed`. */
  ghost predicate Unforged(k: Keys, signed: seq<Checkpoint>, table: seq<Checkpoint>) {
    forall i | 0 <= i < |table| && k.verify(table[i].hash, table[i].sig) ::
      exists j :: 0 <= j < |signed| && signed[j].hash == table[i].hash
  }

  /**
    Tamper proof. Someone who may rewrite the event log and the checkpoint table at will, but
    cannot sign, gets a table accepted only if, row by row, it carries the signed hashes over the
    same sequence of leaf hashes: no content of the covered ranges was changed, dropped, added or
    reordered. The positions themselves are not hashed.
   */
  lemma AcceptedMeansUntampered(k: Keys, honestLog: seq<Leaf>, honest: seq<Checkpoint>,
                                log: seq<Leaf>, table: seq<Checkpoint>)
    requires Accepted(k, honestLog, honest) && Accepted(k, log, table)
    requires Unforged(k, honest, table)
    ensures CollisionIn(k.sha, Preimages(k, log, table) + Preimages(k, honestLog, honest))
            || SameThrough(log, table, honestLog, honest, |table|)
  {
    var hashed := Preimages(k, log, table) + Preimages(k, honestLog, honest);
    if table != [] && !CollisionIn(k.sha, hashed) {
      BindingSeparates(k, hashed, log, table, honestLog, honest);
      var i := |table| - 1;
      assert RowOk(k, log, table, i);
      var j :| 0 <= j < |honest| && honest[j].hash == table[i].hash;
      RowHashFixesHistory(k, log, table, i, honestLog, honest, j);
    }
  }

  /** The first row may carry NULL or the genesis constant as its predecessor, and nothing else. */
  lemma FirstRowLinksToGenesis(k: Keys, log: seq<Leaf>, table: seq<Checkpoint>, prev: Bytes)
    requires Accepted(k, log, table) && table != []
    ensures Accepted(k, log, table[0 := table[0].(prev := prev)]) <==> prev in {[], CheckpointGenesisPrev(k.sha)}
  {
    hide CheckpointGenesisPrev;
    var other := table[0 := table[0].(prev := prev)];
    assert Accepted(k, log, other) ==> RowOk(k, log, other, 0);
    forall i | 0 <= i < |table|
      ensures prev in {[], CheckpointGenesisPrev(k.sha)} ==> RowOk(k, log, other, i)
    {
      assert RowOk(k, log, table, i) && PrevOf(k, other, i) == PrevOf(k, table, i);
    }
  }

  /** Fewer rows than were signed are accepted, so the previous lemma cannot conclude that none is missing. */
  lemma TruncationIsAccepted(k: Keys, log: seq<Leaf>, table: seq<Checkpoint>, n: nat)
    requires Accepted(k, log, table) && n <= |table|
    ensures Accepted(k, log, table[..n]) && Unforged(k, table, table[..n])
  {
    forall i | 0 <= i < n
      ensures RowOk(k, log, table[..n], i)
      ensures exists j :: 0 <= j < |table| && table[j].hash == table[..n][i].hash
    {
      assert RowOk(k, log, table, i) && table[i] == table[..n][i];
      assert i > 0 ==> table[..n][i - 1] == table[i - 1];
    }
  }
}
