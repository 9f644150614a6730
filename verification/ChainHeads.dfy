/**
  A chain hash stands for the whole log before it: links do not repeat along one log, and two
  logs that meet in a link agree up to there.
 */
module ChainHeads {
  import opened Hashing
  import opened EventChain

  /** The event has bytes to hash, and its two hashes follow from them and its stored predecessor. */
  ghost predicate Checked(sha: Sha, id: Bytes, log: seq<Envelope>, i: nat)
    requires i < |log|
  {
    && Canonical(log[i]).Some?
    && log[i].content == Some(sha(Canonical(log[i]).value))
    && log[i].chain == Some(ChainHash(sha, PrevChain(sha, id, log, i), sha(Canonical(log[i]).value)))
  }

  ghost predicate AllChecked(sha: Sha, id: Bytes, log: seq<Envelope>) {
    forall i {:trigger Checked(sha, id, log, i)} | 0 <= i < |log| :: Checked(sha, id, log, i)
  }

  ghost predicate Readable(log: seq<Envelope>) {
    forall i | 0 <= i < |log| :: Canonical(log[i]).Some?
  }

  lemma CheckedIsReadable(sha: Sha, id: Bytes, log: seq<Envelope>)
    requires AllChecked(sha, id, log)
    ensures Readable(log)
  {
    hide PrevChain, ChainHash, Canonical;
    forall i | 0 <= i < |log|
      ensures Canonical(log[i]).Some?
    {
      assert Checked(sha, id, log, i);
    }
  }

  lemma HonestIsChecked(sha: Sha, id: Bytes, log: seq<Envelope>)
    requires Honest(sha, id, log)
    ensures AllChecked(sha, id, log)
  {
    hide Honest, PrevChain, ChainHash;
    forall i | 0 <= i < |log|
      ensures Checked(sha, id, log, i)
    {
      HonestAt(sha, id, log, i);
    }
  }

  lemma {:induction false} ValidIsChecked(sha: Sha, id: Bytes, log: seq<Envelope>, i: nat, hi: nat, n: nat, j: nat)
    requires i <= j < hi <= |log| && FirstFailure(sha, id, log, i, hi, n).Valid?
    ensures Checked(sha, id, log, j)
    decreases hi - i
  {
    hide PrevChain, ChainHash, Canonical;
    if i < j {
      ValidIsChecked(sha, id, log, i + 1, hi, n + 1, j);
    }
  }

  /** A log whose full verification counts every event checks event by event. */
  lemma VerifiedIsChecked(sha: Sha, id: Bytes, log: seq<Envelope>, base: nat)
    requires Contiguous(log, base) && Verify(sha, id, log, 0, 0) == Valid(|log|)
    ensures AllChecked(sha, id, log)
  {
    hide Verify, FirstFailure, Checked;
    if log != [] {
      ClampWindow(sha, id, log, base, 0, 0);
      VerifyIsFirstFailure(sha, id, log, base, 0, |log|);
      FailureSplits(sha, id, log, Start(log, 0, |log|), |log|, |log|, 0);
      forall j | 0 <= j < |log|
        ensures Checked(sha, id, log, j)
      {
        ValidIsChecked(sha, id, log, 0, |log|, 0, j);
      }
    }
  }

  // ---- Links and the strings behind them ----

  /** The link into event i, and out of the log for i == |log|. */
  function LinkInto(sha: Sha, id: Bytes, log: seq<Envelope>, i: nat): Bytes
    requires i <= |log|
  {
    if i == 0 || log[i - 1].chain.None? then GenesisChainHash(sha, id) else log[i - 1].chain.value
  }

  /** The string hashed for the chain hash of event i. */
  function LinkString(sha: Sha, id: Bytes, log: seq<Envelope>, i: nat): Bytes
    requires i < |log| && Canonical(log[i]).Some?
  {
    LinkInto(sha, id, log, i) + sha(Canonical(log[i]).value)
  }

  ghost function LinkStrings(sha: Sha, id: Bytes, log: seq<Envelope>): set<Bytes>
    requires Readable(log)
  {
    {Ascii(GENESIS_PREFIX) + id} + set i | 0 <= i < |log| :: LinkString(sha, id, log, i)
  }

  /** The string behind the genesis is itself the string behind some event's link. */
  ghost predicate GenesisRecurs(sha: Sha, id: Bytes, log: seq<Envelope>)
    requires Readable(log)
  {
    exists i | 0 <= i < |log| :: LinkString(sha, id, log, i) == Ascii(GENESIS_PREFIX) + id
  }

  lemma LinkOfString(sha: Sha, id: Bytes, log: seq<Envelope>, i: nat)
    requires AllChecked(sha, id, log) && Readable(log) && 0 < i <= |log|
    ensures LinkInto(sha, id, log, i) == sha(LinkString(sha, id, log, i - 1))
    ensures LinkString(sha, id, log, i - 1) in LinkStrings(sha, id, log)
  {
    assert Checked(sha, id, log, i - 1);
  }

  lemma GenesisLink(sha: Sha, id: Bytes, log: seq<Envelope>)
    requires Readable(log)
    ensures LinkInto(sha, id, log, 0) == sha(Ascii(GENESIS_PREFIX) + id)
    ensures Ascii(GENESIS_PREFIX) + id in LinkStrings(sha, id, log)
  {
  }

  lemma SplitLink(p: Bytes, a: Digest, q: Bytes, b: Digest)
    requires p + a == q + b
    ensures p == q && a == b
  {
    assert |p| == |p + a| - 32 == |q + b| - 32 == |q|;
    assert p == (p + a)[..|p|] == (q + b)[..|q|] == q;
    assert a == (p + a)[|p|..] == (q + b)[|q|..] == b;
  }

  // ---- A link fixes the log before it ----

  /** The first n events of both logs have equal content hashes. */
  ghost predicate SameContents(sha: Sha, a: seq<Envelope>, b: seq<Envelope>, n: nat)
    requires Readable(a) && Readable(b)
  {
    && n <= |a| && n <= |b|
    && forall i | 0 <= i < n :: sha(Canonical(a[i]).value) == sha(Canonical(b[i]).value)
  }

  /** Link strings of the two logs collide, or one of them has the genesis string again. */
  ghost predicate Confused(sha: Sha, id: Bytes, a: seq<Envelope>, b: seq<Envelope>)
    requires Readable(a) && Readable(b)
  {
    || CollisionIn(sha, LinkStrings(sha, id, a) + LinkStrings(sha, id, b))
    || GenesisRecurs(sha, id, a) || GenesisRecurs(sha, id, b)
  }

  lemma {:induction false} LinkFixesContents(sha: Sha, id: Bytes, a: seq<Envelope>, b: seq<Envelope>, i: nat, j: nat)
    requires AllChecked(sha, id, a) && AllChecked(sha, id, b) && Readable(a) && Readable(b)
    requires i <= |a| && j <= |b| && LinkInto(sha, id, a, i) == LinkInto(sha, id, b, j) && !Confused(sha, id, a, b)
    ensures i == j && SameContents(sha, a, b, i)
    decreases i
  {
    hide AllChecked, LinkInto, LinkStrings, CollisionIn, Canonical;
    GenesisLink(sha, id, a);
    GenesisLink(sha, id, b);
    var hashed := LinkStrings(sha, id, a) + LinkStrings(sha, id, b);
    if i > 0 {
      LinkOfString(sha, id, a, i);
    }
    if j > 0 {
      LinkOfString(sha, id, b, j);
    }
    var x := if i == 0 then Ascii(GENESIS_PREFIX) + id else LinkString(sha, id, a, i - 1);
    var y := if j == 0 then Ascii(GENESIS_PREFIX) + id else LinkString(sha, id, b, j - 1);
    NoCollision(sha, hashed, x, y);
    if i > 0 && j > 0 {
      SplitLink(LinkInto(sha, id, a, i - 1), sha(Canonical(a[i - 1]).value),
                LinkInto(sha, id, b, j - 1), sha(Canonical(b[j - 1]).value));
      LinkFixesContents(sha, id, a, b, i - 1, j - 1);
    }
  }

  /** Two positions of a log that checks have different links, unless strings collide or the genesis recurs. */
  lemma LinksAreDistinct(sha: Sha, id: Bytes, log: seq<Envelope>, i: nat, j: nat)
    requires AllChecked(sha, id, log) && i < j <= |log|
    ensures Readable(log)
    ensures LinkInto(sha, id, log, i) == LinkInto(sha, id, log, j)
            ==> CollisionIn(sha, LinkStrings(sha, id, log)) || GenesisRecurs(sha, id, log)
  {
    hide AllChecked, Readable, LinkInto, LinkStrings, CollisionIn, GenesisRecurs;
    CheckedIsReadable(sha, id, log);
    assert LinkStrings(sha, id, log) + LinkStrings(sha, id, log) == LinkStrings(sha, id, log);
    if LinkInto(sha, id, log, i) == LinkInto(sha, id, log, j) && !Confused(sha, id, log, log) {
      LinkFixesContents(sha, id, log, log, i, j);
    }
  }

  ghost function Payloads(log: seq<Envelope>): set<Bytes>
    requires Readable(log)
  {
    set i | 0 <= i < |log| :: Canonical(log[i]).value
  }

  ghost predicate SamePayloads(a: seq<Envelope>, b: seq<Envelope>, n: nat) {
    n <= |a| && n <= |b| && forall i | 0 <= i < n :: Canonical(a[i]) == Canonical(b[i])
  }

  /**
    A link fixes everything before it: if the link into event i of one log is the link into event
    j of another, then i == j and the events before carry the same bytes, or hashed strings
    collide, or the genesis recurs.
   */
  lemma LinkFixesHistory(sha: Sha, id: Bytes, a: seq<Envelope>, b: seq<Envelope>, i: nat, j: nat)
    requires AllChecked(sha, id, a) && AllChecked(sha, id, b) && i <= |a| && j <= |b|
    requires LinkInto(sha, id, a, i) == LinkInto(sha, id, b, j)
    ensures Readable(a) && Readable(b)
    ensures (i == j && SamePayloads(a, b, i)) || Confused(sha, id, a, b) || CollisionIn(sha, Payloads(a) + Payloads(b))
  {
    hide AllChecked, LinkInto, LinkStrings, CollisionIn, GenesisRecurs;
    CheckedIsReadable(sha, id, a);
    CheckedIsReadable(sha, id, b);
    if !Confused(sha, id, a, b) && !CollisionIn(sha, Payloads(a) + Payloads(b)) {
      LinkFixesContents(sha, id, a, b, i, j);
      forall m | 0 <= m < i
        ensures Canonical(a[m]) == Canonical(b[m])
      {
        assert Canonical(a[m]).value in Payloads(a) && Canonical(b[m]).value in Payloads(b);
        NoCollision(sha, Payloads(a) + Payloads(b), Canonical(a[m]).value, Canonical(b[m]).value);
      }
    }
  }

  /** Every stored event has the honest payload, or none while it still marshals to it. */
  ghost predicate StillCarries(all: seq<Envelope>, stored: seq<Envelope>) {
    && |stored| == |all|
    && forall i | 0 <= i < |all| ::
         stored[i].payload == all[i].payload || (stored[i].payload.None? && stored[i].marshalled == all[i].payload)
  }

  lemma SameBytesCarry(sha: Sha, id: Bytes, all: seq<Envelope>, stored: seq<Envelope>)
    requires Honest(sha, id, all) && |stored| == |all| && SamePayloads(all, stored, |all|)
    ensures StillCarries(all, stored)
  {
    hide Honest;
    forall i | 0 <= i < |all|
      ensures stored[i].payload == all[i].payload || (stored[i].payload.None? && stored[i].marshalled == all[i].payload)
    {
      HonestAt(sha, id, all, i);
      assert Canonical(all[i]) == Canonical(stored[i]);
    }
  }

  /**
    Whatever was done to the stored events: a log that verifies in full and still ends in the
    head of an honest log has as many events, with the same bytes, or strings collide or the
    genesis recurs.
   */
  lemma VerifiedHeadFixesLog(sha: Sha, id: Bytes, all: seq<Envelope>, stored: seq<Envelope>, base: nat)
    requires Honest(sha, id, all) && Contiguous(stored, base) && Verify(sha, id, stored, 0, 0) == Valid(|stored|)
    requires LinkInto(sha, id, all, |all|) == LinkInto(sha, id, stored, |stored|)
    ensures Readable(all) && Readable(stored)
    ensures || StillCarries(all, stored)
            || Confused(sha, id, all, stored) || CollisionIn(sha, Payloads(all) + Payloads(stored))
  {
    hide Honest, Verify, AllChecked, LinkInto, Confused, CollisionIn;
    HonestIsChecked(sha, id, all);
    VerifiedIsChecked(sha, id, stored, base);
    LinkFixesHistory(sha, id, all, stored, |all|, |stored|);
    if |stored| == |all| && SamePayloads(all, stored, |all|) {
      SameBytesCarry(sha, id, all, stored);
    }
  }
}
