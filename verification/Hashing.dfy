/**
  Digest formulas shared by the per-session hash chain and the signed checkpoint chain.

  SHA-256 is an arbitrary function from byte strings to 32-byte digests, passed as an
  argument. It is never assumed injective: a statement that needs that says instead that two
  distinct byte strings, taken from a finite set of strings that were really hashed, collide.
 */
module Hashing {

  newtype Byte = x: int | 0 <= x < 256

  type Bytes = seq<Byte>

  type Digest = d: Bytes | |d| == 32 witness seq(32, _ => 0 as Byte)

  type Sha = Bytes -> Digest

  datatype Option<+T> = None | Some(value: T)

  function Ascii(s: string): Bytes {
    seq(|s|, i requires 0 <= i < |s| => (s[i] as int % 256) as Byte)
  }

  const GENESIS_PREFIX: string := "boltrope-audit-genesis-v1:"

  const CHECKPOINT_GENESIS_PREFIX: string := "boltrope-audit-checkpoint-genesis-v1:"

  function GenesisChainHash(sha: Sha, sessionId: Bytes): Digest {
    sha(Ascii(GENESIS_PREFIX) + sessionId)
  }

  function ChainHash(sha: Sha, prev: Bytes, content: Bytes): Digest {
    sha(prev + content)
  }

  function CheckpointGenesisPrev(sha: Sha): Digest {
    sha(Ascii(CHECKPOINT_GENESIS_PREFIX))
  }

  /** Concatenation of the leaves, with no separator. */
  function Join(leaves: seq<Digest>): Bytes {
    if leaves == [] then [] else Join(leaves[..|leaves| - 1]) + leaves[|leaves| - 1]
  }

  function LeavesDigest(sha: Sha, leaves: seq<Digest>): Digest {
    sha(Join(leaves))
  }

  function CheckpointHash(sha: Sha, prev: Bytes, leavesDigest: Digest): Digest {
    sha(prev + leavesDigest)
  }

  /** The loop that appends leaf after leaf to a fresh buffer; measuring it beforehand has no counterpart here. */
  method ComputeLeavesDigest(sha: Sha, leaves: seq<Digest>) returns (sum: Digest)
    ensures sum == LeavesDigest(sha, leaves) == sha(Join(leaves))
  {
    var buf: Bytes := [];
    for i := 0 to |leaves|
      invariant buf == Join(leaves[..i])
    {
      assert leaves[..i + 1][..i] == leaves[..i];
      buf := buf + leaves[i];
    }
    assert leaves[..|leaves|] == leaves;
    sum := sha(buf);
  }

  /**
    The fold of both chains over mutable buffers. Without a `modifies` clause neither caller's
    array is written, and the result shares storage with neither.
   */
  method FoldPair(sha: Sha, prev: array<Byte>, content: array<Byte>) returns (sum: array<Byte>)
    ensures fresh(sum)
    ensures sum[..] == ChainHash(sha, prev[..], content[..]) == sha(prev[..] + content[..])
  {
    var n := prev.Length;
    var buf := new Byte[n + content.Length];
    for i := 0 to n
      invariant buf[..i] == prev[..i]
    {
      buf[i] := prev[i];
    }
    for i := 0 to content.Length
      invariant buf[..n] == prev[..]
      invariant buf[n..n + i] == content[..i]
    {
      buf[n + i] := content[i];
    }
    ghost var whole := buf[..];
    assert whole[..n] == prev[..] && whole[n..] == content[..];
    Halves(whole, n);
    var digest := sha(buf[..]);
    sum := new Byte[32](i requires 0 <= i < 32 => digest[i]);
    assert sum[..] == digest;
  }

  lemma Halves(s: Bytes, n: nat)
    requires n <= |s|
    ensures s == s[..n] + s[n..]
  {
  }

  /** Two distinct strings of `hashed` share a digest. */
  ghost predicate CollisionIn(sha: Sha, hashed: set<Bytes>) {
    exists x, y :: x in hashed && y in hashed && x != y && sha(x) == sha(y)
  }

  lemma {:induction false} JoinLength(leaves: seq<Digest>)
    ensures |Join(leaves)| == 32 * |leaves|
  {
    if leaves != [] {
      JoinLength(leaves[..|leaves| - 1]);
    }
  }

  /** Leaf i is at byte 32 * i. */
  lemma {:induction false} LeafAt(leaves: seq<Digest>, i: nat)
    requires i < |leaves|
    ensures 32 * i + 32 <= |Join(leaves)| && Join(leaves)[32 * i..32 * i + 32] == leaves[i]
  {
    var n := |leaves| - 1;
    JoinLength(leaves);
    JoinLength(leaves[..n]);
    var before, last := Join(leaves[..n]), leaves[n];
    assert Join(leaves) == before + last;
    if i < n {
      LeafAt(leaves[..n], i);
      assert (before + last)[32 * i..32 * i + 32] == before[32 * i..32 * i + 32];
    } else {
      assert (before + last)[32 * i..32 * i + 32] == last;
    }
  }

  /** What the two chains start from: strings that never coincide, and one for each session. */
  lemma GenesisStringsDiffer(sha: Sha, a: Bytes, b: Bytes)
    ensures var p, q := Ascii("boltrope-audit-genesis-v1:"), Ascii("boltrope-audit-checkpoint-genesis-v1:");
            && GenesisChainHash(sha, a) == sha(p + a) && CheckpointGenesisPrev(sha) == sha(q)
            && p + a != q && (p + a == p + b ==> a == b)
  {
    var p, q := Ascii(GENESIS_PREFIX), Ascii(CHECKPOINT_GENESIS_PREFIX);
    assert GENESIS_PREFIX[15] == 'g' && CHECKPOINT_GENESIS_PREFIX[15] == 'c';
    assert (p + a)[15] == p[15] != q[15];
    if p + a == p + b {
      assert a == (p + a)[|p|..] == (p + b)[|p|..] == b;
    }
  }

  /** Concatenated 32-byte leaves decode uniquely, although nothing separates them. */
  lemma {:induction false} JoinInjective(a: seq<Digest>, b: seq<Digest>)
    requires Join(a) == Join(b)
    ensures a == b
  {
    JoinLength(a);
    JoinLength(b);
    if a != [] {
      var n := |a| - 1;
      var p, q := a[..n], b[..n];
      JoinLength(p);
      JoinLength(q);
      assert Join(p) == Join(a)[..32 * n] == Join(b)[..32 * n] == Join(q);
      assert a[n] == Join(a)[32 * n..] == Join(b)[32 * n..] == b[n];
      JoinInjective(p, q);
      assert a == p + [a[n]] && b == q + [b[n]];
    }
  }

  /** The byte strings hashed to fold one checkpoint. */
  function CheckpointPreimages(sha: Sha, prev: Bytes, leaves: seq<Digest>): set<Bytes> {
    {Join(leaves), prev + LeavesDigest(sha, leaves)}
  }

  /**
    Changing, dropping, adding or reordering leaves, or relinking to another predecessor,
    changes the checkpoint hash, or two of the four strings hashed collide.
   */
  lemma CheckpointHashBinds(sha: Sha, p: Bytes, a: seq<Digest>, q: Bytes, b: seq<Digest>)
    requires CheckpointHash(sha, p, LeavesDigest(sha, a)) == CheckpointHash(sha, q, LeavesDigest(sha, b))
    ensures (p == q && a == b)
            || CollisionIn(sha, CheckpointPreimages(sha, p, a) + CheckpointPreimages(sha, q, b))
  {
    var x, y := p + LeavesDigest(sha, a), q + LeavesDigest(sha, b);
    if x == y {
      assert |p| == |x| - 32 == |y| - 32 == |q|;
      assert p == x[..|p|] == y[..|q|] == q;
      assert LeavesDigest(sha, a) == x[|p|..] == y[|q|..] == LeavesDigest(sha, b);
      if Join(a) == Join(b) {
        JoinInjective(a, b);
      }
    }
  }
}
