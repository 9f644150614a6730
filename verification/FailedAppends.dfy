/**
  What a failed append leaves behind. The events before the one that does not marshal stay
  stored, a number is used up, and the next append chains to the head saved before the failure.
 */
module FailedAppends {
  import opened Hashing
  import opened EventChain
  import opened ChainHeads
  import opened StoreModel
  import opened StoreHistories

  // ---- Events that link one to the next ----

  /** Event e is filled and its chain hash folds its content onto prev. */
  predicate LinkedTo(sha: Sha, e: Envelope, prev: Bytes) {
    && e.payload.Some? && e.marshalled == e.payload && e.content == Some(sha(e.payload.value))
    && e.chain == Some(ChainHash(sha, prev, sha(e.payload.value)))
  }

  /** Events i..hi-1 link one to the next, the first to prev. */
  predicate Links(sha: Sha, w: seq<Envelope>, i: nat, hi: nat, prev: Bytes)
    requires i <= hi <= |w|
    decreases hi - i
  {
    i == hi || (LinkedTo(sha, w[i], prev) && Links(sha, w, i + 1, hi, w[i].chain.value))
  }

  /** The verifier passes over linked events. */
  lemma {:induction false} CheckPasses(sha: Sha, w: seq<Envelope>, i: nat, hi: nat, prev: Bytes, checked: nat)
    requires i < hi <= |w| && Links(sha, w, i, hi, prev)
    ensures w[hi - 1].chain.Some?
    ensures CheckFrom(sha, w, i, prev, checked) == CheckFrom(sha, w, hi, w[hi - 1].chain.value, checked + hi - i)
    decreases hi - i
  {
    if i + 1 < hi {
      CheckPasses(sha, w, i + 1, hi, w[i].chain.value, checked + 1);
    }
  }

  lemma {:induction false} LinksShift(sha: Sha, a: seq<Envelope>, b: seq<Envelope>, i: nat, hi: nat, prev: Bytes)
    requires i <= hi <= |b|
    ensures Links(sha, a + b, |a| + i, |a| + hi, prev) == Links(sha, b, i, hi, prev)
    decreases hi - i
  {
    if i < hi && LinkedTo(sha, b[i], prev) {
      LinksShift(sha, a, b, i + 1, hi, b[i].chain.value);
    }
  }

  lemma {:induction false} HonestLinks(sha: Sha, id: Id, log: seq<Envelope>, rest: seq<Envelope>, i: nat)
    requires Honest(sha, id, log) && i < |log|
    ensures Links(sha, log + rest, i, |log|, PrevChain(sha, id, log, i))
    decreases |log| - i
  {
    hide Honest;
    HonestAt(sha, id, log, i);
    if i + 1 < |log| {
      HonestLinks(sha, id, log, rest, i + 1);
    }
  }

  lemma {:induction false} LinkedIsFilled(sha: Sha, w: seq<Envelope>, i: nat, prev: Bytes, j: nat)
    requires i <= j < |w| && Links(sha, w, i, |w|, prev)
    ensures w[j].payload.Some? && w[j].marshalled == w[j].payload && w[j].content.Some? && w[j].chain.Some?
    decreases |w| - i
  {
    if i < j {
      LinkedIsFilled(sha, w, i + 1, w[i].chain.value, j);
    }
  }

  lemma {:induction false} LinkedIsHonest(sha: Sha, id: Id, w: seq<Envelope>, i: nat, j: nat)
    requires i <= j < |w| && Links(sha, w, i, |w|, PrevChain(sha, id, w, i))
    ensures HonestEvent(sha, id, w, j)
    decreases |w| - i
  {
    if i < j {
      LinkedIsHonest(sha, id, w, i + 1, j);
    }
  }

  lemma LinkedFromGenesis(sha: Sha, id: Id, w: seq<Envelope>)
    requires Links(sha, w, 0, |w|, GenesisChainHash(sha, id))
    ensures Honest(sha, id, w)
  {
    hide Links, HonestEvent, GenesisChainHash;
    forall j | 0 <= j < |w|
      ensures w[j].payload.Some? && w[j].marshalled == w[j].payload && w[j].content.Some? && w[j].chain.Some?
    {
      LinkedIsFilled(sha, w, 0, GenesisChainHash(sha, id), j);
    }
    forall j | 0 <= j < |w|
      ensures HonestEvent(sha, id, w, j)
    {
      FirstPrev(sha, id, w);
      LinkedIsHonest(sha, id, w, 0, j);
    }
  }

  lemma FirstPrev(sha: Sha, id: Id, w: seq<Envelope>)
    requires w != []
    ensures PrevChain(sha, id, w, 0) == GenesisChainHash(sha, id)
  {
  }

  // ---- What an append adds ----

  /** A batch that marshals adds consecutive events, linked from prev. */
  lemma {:induction false} AppendsLinked(sha: Sha, st: State, id: Id, batch: seq<Option<Bytes>>, i: nat, prev: Bytes)
    returns (added: seq<Envelope>)
    requires id in st.aggregates && st.aggregates[id].head >= 0 && i <= |batch| && forall j | i <= j < |batch| :: batch[j].Some?
    ensures var st' := AppendFrom(sha, st, id, batch, i, prev).0;
            && Log(st', id) == Log(st, id) + added && |added| == |batch| - i
            && Contiguous(added, st.aggregates[id].head) && Links(sha, added, 0, |added|, prev)
    decreases |batch| - i
  {
    hide AppendFrom, Push, Bump, Sealed, Links, Contiguous, Log, LinkedTo;
    if i == |batch| {
      AppendEnds(sha, st, id, batch, prev);
      added := [];
      NothingAdded(sha, st, id, prev);
    } else {
      AppendStep(sha, st, id, batch, i, prev);
      NextEvent(sha, st, id, batch[i].value, prev);
      var e := Sealed(sha, st.aggregates[id].head + 1, batch[i].value, prev);
      var rest := AppendsLinked(sha, Push(Bump(st, id), id, e), id, batch, i + 1, e.chain.value);
      added := [e] + rest;
      ConsLinks(sha, e, rest, prev, st.aggregates[id].head);
      AddedTogether(Log(st, id), e, rest);
    }
  }

  lemma NothingAdded(sha: Sha, st: State, id: Id, prev: Bytes)
    requires id in st.aggregates && st.aggregates[id].head >= 0
    ensures Log(st.(heads := st.heads[id := prev]), id) == Log(st, id) + []
    ensures Contiguous([], st.aggregates[id].head) && Links(sha, [], 0, 0, prev)
  {
  }

  lemma AddedTogether(log: seq<Envelope>, e: Envelope, rest: seq<Envelope>)
    ensures log + [e] + rest == log + ([e] + rest)
  {
  }

  /** One event of a batch: its number, its link, and the state it leaves. */
  lemma NextEvent(sha: Sha, st: State, id: Id, payload: Bytes, prev: Bytes)
    requires id in st.aggregates
    ensures var e := Sealed(sha, st.aggregates[id].head + 1, payload, prev);
            var st' := Push(Bump(st, id), id, e);
            && Bump(st, id).aggregates[id].head == st.aggregates[id].head + 1
            && e.at == st.aggregates[id].head + 1 && e.chain.Some? && LinkedTo(sha, e, prev)
            && id in st'.aggregates && st'.aggregates[id].head == st.aggregates[id].head + 1
            && st'.aggregates[id].forkedFrom == st.aggregates[id].forkedFrom
            && Log(st', id) == Log(st, id) + [e] && st'.heads == st.heads
  {
    PushEffect(st, id, Sealed(sha, st.aggregates[id].head + 1, payload, prev));
  }

  lemma ConsLinks(sha: Sha, e: Envelope, rest: seq<Envelope>, prev: Bytes, head: nat)
    requires LinkedTo(sha, e, prev) && Links(sha, rest, 0, |rest|, e.chain.value)
    requires e.at == head + 1 && Contiguous(rest, head + 1)
    ensures var all := [e] + rest; Links(sha, all, 0, |all|, prev) && Contiguous(all, head)
  {
    hide ChainHash;
    var all := [e] + rest;
    LinksShift(sha, [e], rest, 0, |rest|, e.chain.value);
    assert all[0] == e && |all| == 1 + |rest|;
  }

  lemma BumpEffect(st: State, id: Id)
    requires id in st.aggregates
    ensures var st' := Bump(st, id);
            && id in st'.aggregates && st'.aggregates[id] == st.aggregates[id].(head := st.aggregates[id].head + 1)
            && st'.sessions == st.sessions && st'.heads == st.heads
  {
  }

  /** Up to the event that does not marshal the session is sound; then its number is taken. */
  lemma {:induction false} FailsAfter(sha: Sha, st: State, id: Id, batch: seq<Option<Bytes>>, i: nat, prev: Bytes, k: nat) returns (mid: State)
    requires SoundWith(sha, st, id, prev) && i <= k < |batch| && batch[k].None? && forall j | i <= j < k :: batch[j].Some?
    ensures id in mid.aggregates && AppendFrom(sha, st, id, batch, i, prev).0 == Bump(mid, id)
    ensures SoundWith(sha, mid, id, LastChain(sha, id, Log(mid, id))) && mid.heads == st.heads
    ensures mid.aggregates[id].forkedFrom == st.aggregates[id].forkedFrom
    ensures Log(st, id) <= Log(mid, id) && |Log(mid, id)| == |Log(st, id)| + k - i
    decreases k - i
  {
    hide AppendFrom, Push, Bump, Sealed, SoundWith, Log, LastChain;
    SoundIsThere(sha, st, id, prev);
    AppendStep(sha, st, id, batch, i, prev);
    if i == k {
      mid := st;
    } else {
      NextEvent(sha, st, id, batch[i].value, prev);
      var e := Sealed(sha, st.aggregates[id].head + 1, batch[i].value, prev);
      PushKeeps(sha, st, id, batch[i].value, prev);
      mid := FailsAfter(sha, Push(Bump(st, id), id, e), id, batch, i + 1, e.chain.value, k);
    }
  }

  lemma SoundIsThere(sha: Sha, st: State, id: Id, prev: Bytes)
    requires SoundWith(sha, st, id, prev)
    ensures id in st.aggregates && prev == LastChain(sha, id, Log(st, id))
  {
  }

  /** The store after a batch that fails at k, then a batch that marshals. */
  function After(sha: Sha, st: State, id: Id, batch: seq<Option<Bytes>>, next: seq<Option<Bytes>>): State {
    Append(sha, Append(sha, st, id, batch).0, id, next).0
  }

  ghost predicate FailsAt(batch: seq<Option<Bytes>>, k: nat) {
    k < |batch| && batch[k].None? && forall j | 0 <= j < k :: batch[j].Some?
  }

  ghost predicate Marshals(batch: seq<Option<Bytes>>) {
    forall j | 0 <= j < |batch| :: batch[j].Some?
  }

  /** The stored log: what was there and the k events, honest; a number missing; the next batch, linked from the stale head. */
  lemma LogAfterFailure(sha: Sha, st: State, id: Id, batch: seq<Option<Bytes>>, k: nat, next: seq<Option<Bytes>>)
    returns (kept: seq<Envelope>, added: seq<Envelope>, base: nat)
    requires Sound(sha, st) && FailsAt(batch, k) && Marshals(next)
    ensures Log(After(sha, st, id, batch, next), id) == kept + added
    ensures Log(st, id) <= kept && |kept| == |Log(st, id)| + k && Contiguous(kept, base) && Honest(sha, id, kept)
    ensures base == (if id in st.aggregates then st.aggregates[id].forkedFrom else 0)
    ensures |added| == |next| && Contiguous(added, base + |kept| + 1)
    ensures Links(sha, added, 0, |added|, LastChain(sha, id, Log(st, id)))
  {
    hide AppendFrom, Append, Push, Bump, Honest, Contiguous, Links, Sound;
    CreateKeeps(sha, st, id);
    var start := Create(st, id);
    var prev := ChainHead(sha, start, id);
    AppendStarts(sha, st, id, batch);
    assert Log(start, id) == Log(st, id);
    var mid := FailsAfter(sha, start, id, batch, 0, prev, k);
    BumpEffect(mid, id);
    var st1 := Bump(mid, id);
    AppendStarts(sha, st1, id, next);
    assert Create(st1, id) == st1 && ChainHead(sha, st1, id) == prev;
    kept, base := Log(mid, id), mid.aggregates[id].forkedFrom;
    added := AppendsLinked(sha, st1, id, next, 0, prev);
    assert Log(st1, id) == kept;
  }

  // ---- The verdicts ----

  lemma {:induction false} WindowIsAll(all: seq<Envelope>, n: nat, from: int, to: int)
    requires n <= |all| && forall i | 0 <= i < n :: from <= all[i].at <= to
    ensures Window(all, n, from, to) == all[..n]
  {
    if n > 0 {
      WindowIsAll(all, n - 1, from, to);
      SliceSnoc(all, 0, n);
    }
  }

  lemma {:induction false} WindowStarts(all: seq<Envelope>, n: nat, m: nat, from: int, to: int)
    requires m < n <= |all| && from <= all[m].at <= to && forall i | 0 <= i < m :: all[i].at < from
    ensures var w := Window(all, n, from, to); w != [] && w[0] == all[m]
    decreases n
  {
    if n == m + 1 {
      EmptyBefore(all, m, from, to);
    } else {
      WindowStarts(all, n - 1, m, from, to);
    }
  }

  lemma {:induction false} EmptyBefore(all: seq<Envelope>, m: nat, from: int, to: int)
    requires m <= |all| && forall i | 0 <= i < m :: all[i].at < from
    ensures Window(all, m, from, to) == []
  {
    if m > 0 {
      EmptyBefore(all, m - 1, from, to);
    }
  }

  /** With no event of the preceding number the seed is the genesis. */
  lemma {:induction false} SeedIsGenesis(sha: Sha, id: Id, all: seq<Envelope>, first: int, i: nat)
    requires i <= |all| && forall j | 0 <= j < |all| :: all[j].at != first - 1
    ensures SeedPrev(sha, id, all, first, i) == GenesisChainHash(sha, id)
    decreases |all| - i
  {
    if i < |all| {
      SeedIsGenesis(sha, id, all, first, i + 1);
    }
  }

  /** kept is numbered base+1.., added takes up one number later than it should. */
  ghost predicate Torn(sha: Sha, id: Id, kept: seq<Envelope>, added: seq<Envelope>, base: nat, stale: Bytes) {
    && Contiguous(kept, base) && Honest(sha, id, kept)
    && added != [] && Contiguous(added, base + |kept| + 1) && Links(sha, added, 0, |added|, stale)
  }

  function FirstContent(sha: Sha, added: seq<Envelope>): Digest
    requires added != [] && added[0].payload.Some?
  {
    sha(added[0].payload.value)
  }

  lemma NumberOf(kept: seq<Envelope>, added: seq<Envelope>, base: nat, i: nat)
    requires Contiguous(kept, base) && Contiguous(added, base + |kept| + 1) && i < |kept| + |added|
    ensures (kept + added)[i].at == if i < |kept| then base + 1 + i else base + 2 + i
  {
  }

  lemma TornNumbers(kept: seq<Envelope>, added: seq<Envelope>, base: nat)
    requires Contiguous(kept, base) && Contiguous(added, base + |kept| + 1) && added != []
    ensures var all := kept + added;
            && Head(all) == base + 1 + |all|
            && (forall i | 0 <= i < |all| :: 1 <= all[i].at <= Head(all))
            && (forall i | 0 <= i < |all| :: all[i].at != base + 1 + |kept| && all[i].at != base)
            && (forall i | 0 <= i < |kept| :: all[i].at < base + 2 + |kept|)
            && all[|kept|].at == base + 2 + |kept| && all[0].at == if kept == [] then base + 2 else base + 1
  {
    hide Contiguous;
    var all := kept + added;
    forall i | 0 <= i < |all|
      ensures all[i].at == if i < |kept| then base + 1 + i else base + 2 + i
    {
      NumberOf(kept, added, base, i);
    }
  }

  lemma TornStarts(sha: Sha, id: Id, kept: seq<Envelope>, added: seq<Envelope>, base: nat, stale: Bytes)
    requires Torn(sha, id, kept, added, base, stale)
    ensures var all := kept + added;
            Verify(sha, id, all, 0, 0) == CheckFrom(sha, all, 0, GenesisChainHash(sha, id), 0)
  {
    hide Honest, Links, CheckFrom, Contiguous, Window, SeedPrev, SkipUnchained, GenesisChainHash;
    var all := kept + added;
    TornNumbers(kept, added, base);
    WindowIsAll(all, |all|, 1, Head(all));
    assert all[..|all|] == all;
    FirstIsFilled(sha, id, kept, added, stale);
    SkipNone(all);
    SeedIsGenesis(sha, id, all, all[0].at, 0);
  }

  lemma FirstIsFilled(sha: Sha, id: Id, kept: seq<Envelope>, added: seq<Envelope>, stale: Bytes)
    requires Honest(sha, id, kept) && added != [] && Links(sha, added, 0, |added|, stale)
    ensures (kept + added)[0].content.Some? && LinkedTo(sha, added[0], stale)
  {
  }

  lemma SkipNone(w: seq<Envelope>)
    requires w != [] && w[0].content.Some?
    ensures SkipUnchained(w, 0) == 0
  {
  }

  lemma KeptPasses(sha: Sha, id: Id, kept: seq<Envelope>, added: seq<Envelope>)
    requires Honest(sha, id, kept)
    ensures CheckFrom(sha, kept + added, 0, GenesisChainHash(sha, id), 0)
            == CheckFrom(sha, kept + added, |kept|, LastChain(sha, id, kept), |kept|)
  {
    hide Honest, CheckFrom, GenesisChainHash, Links;
    if kept != [] {
      FirstPrev(sha, id, kept);
      HonestLinks(sha, id, kept, added, 0);
      CheckPasses(sha, kept + added, 0, |kept|, GenesisChainHash(sha, id), 0);
      HonestAt(sha, id, kept, |kept| - 1);
    }
  }

  /** The first added event is checked against `prev`; the rest follow it. */
  lemma AddedVerdict(sha: Sha, w: seq<Envelope>, m: nat, prev: Bytes, stale: Bytes, checked: nat)
    requires m < |w| && Links(sha, w, m, |w|, stale)
    ensures var content := sha(w[m].payload.value);
            CheckFrom(sha, w, m, prev, checked) ==
            if ChainHash(sha, prev, content) == ChainHash(sha, stale, content) then Valid(checked + |w| - m)
            else Bad(w[m].at, BrokenLink, checked)
  {
    hide ChainHash;
    if ChainHash(sha, prev, sha(w[m].payload.value)) == ChainHash(sha, stale, sha(w[m].payload.value)) {
      if m + 1 < |w| {
        CheckPasses(sha, w, m + 1, |w|, w[m].chain.value, checked + 1);
      }
    }
  }

  /** The whole log: valid, unless the stale head and the last stored link give the next event different links. */
  lemma WholeVerdict(sha: Sha, id: Id, kept: seq<Envelope>, added: seq<Envelope>, base: nat, stale: Bytes)
    requires Torn(sha, id, kept, added, base, stale) && added[0].payload.Some?
    ensures var content := FirstContent(sha, added);
            Verify(sha, id, kept + added, 0, 0) ==
            if ChainHash(sha, LastChain(sha, id, kept), content) == ChainHash(sha, stale, content) then Valid(|kept| + |added|)
            else Bad(base + 2 + |kept|, BrokenLink, |kept|)
  {
    hide Honest, Contiguous, Verify, CheckFrom, Links, ChainHash, GenesisChainHash;
    TornStarts(sha, id, kept, added, base, stale);
    KeptPasses(sha, id, kept, added);
    LinksShift(sha, kept, added, 0, |added|, stale);
    AddedVerdict(sha, kept + added, |kept|, LastChain(sha, id, kept), stale, |kept|);
    TornNumbers(kept, added, base);
  }

  /** The window that starts at the first added event: its seed falls back to the genesis. */
  lemma WindowVerdict(sha: Sha, id: Id, kept: seq<Envelope>, added: seq<Envelope>, base: nat, stale: Bytes)
    requires Torn(sha, id, kept, added, base, stale) && added[0].payload.Some?
    requires var content := FirstContent(sha, added);
             ChainHash(sha, GenesisChainHash(sha, id), content) != ChainHash(sha, stale, content)
    ensures Verify(sha, id, kept + added, base + 2 + |kept|, 0) == Bad(base + 2 + |kept|, BrokenLink, 0)
  {
    hide Honest, Contiguous, Links, ChainHash, GenesisChainHash, Window, SeedPrev, SkipUnchained;
    var all, at := kept + added, base + 2 + |kept|;
    TornNumbers(kept, added, base);
    WindowStarts(all, |all|, |kept|, at, Head(all));
    FirstIsFilled(sha, id, kept, added, stale);
    var w := Window(all, |all|, at, Head(all));
    assert w[0] == added[0];
    SkipNone(w);
    SeedIsGenesis(sha, id, all, at, 0);
  }

  // ---- The stale link is another one ----

  /** Strings collide that the store or the verifier hashes around the failure, or the genesis recurs. */
  ghost predicate Masked(sha: Sha, id: Id, kept: seq<Envelope>, stale: Bytes, content: Digest)
    requires Readable(kept)
  {
    || GenesisRecurs(sha, id, kept)
    || CollisionIn(sha, LinkStrings(sha, id, kept))
    || CollisionIn(sha, {LastChain(sha, id, kept) + content, stale + content, GenesisChainHash(sha, id) + content})
  }

  lemma LinkDiffers(sha: Sha, id: Id, kept: seq<Envelope>, i: nat, j: nat, content: Digest, stale: Bytes)
    requires Honest(sha, id, kept) && i < j <= |kept|
    requires {LinkInto(sha, id, kept, i) + content, LinkInto(sha, id, kept, j) + content}
             <= {LastChain(sha, id, kept) + content, stale + content, GenesisChainHash(sha, id) + content}
    ensures Readable(kept)
    ensures ChainHash(sha, LinkInto(sha, id, kept, i), content) == ChainHash(sha, LinkInto(sha, id, kept, j), content)
            ==> Masked(sha, id, kept, stale, content)
  {
    hide Honest, LinkInto, LinkStrings, CollisionIn, GenesisChainHash, LastChain, GenesisRecurs, AllChecked, Readable;
    HonestIsChecked(sha, id, kept);
    LinksAreDistinct(sha, id, kept, i, j);
    var p, q := LinkInto(sha, id, kept, i), LinkInto(sha, id, kept, j);
    var hashed := {LastChain(sha, id, kept) + content, stale + content, GenesisChainHash(sha, id) + content};
    if ChainHash(sha, p, content) == ChainHash(sha, q, content) && !CollisionIn(sha, hashed) {
      assert p + content in hashed && q + content in hashed;
      NoCollision(sha, hashed, p + content, q + content);
      SplitLink(p, content, q, content);
    }
  }

  lemma LastIsLinkOut(sha: Sha, id: Id, log: seq<Envelope>, kept: seq<Envelope>)
    requires log <= kept
    ensures LastChain(sha, id, log) == LinkInto(sha, id, kept, |log|)
  {
  }

  // ---- The theorem ----

  /**
    After a batch whose first event that does not marshal is at k, the next batch's first event
    takes a number that leaves a gap and links to the head saved before the failure. If k > 0 the
    whole log is rejected there; if the session had events before, so is the window that starts
    there. If k == 0 the whole log still verifies, and if the session was empty every window does.
    Each rejection up to strings that collide.
   */
  lemma FailedAppendBreaksTheChain(sha: Sha, st: State, id: Id, batch: seq<Option<Bytes>>, k: nat, next: seq<Option<Bytes>>)
    returns (kept: seq<Envelope>, added: seq<Envelope>, at: nat)
    requires Sound(sha, st) && FailsAt(batch, k) && Marshals(next) && next != []
    ensures Log(After(sha, st, id, batch, next), id) == kept + added && |added| == |next|
    ensures Log(st, id) <= kept && |kept| == |Log(st, id)| + k && Filled(kept) && added[0].payload.Some?
    ensures added[0].at == at && forall i | 0 <= i < |kept + added| :: (kept + added)[i].at != at - 1
    ensures var log, stale, content := kept + added, LastChain(sha, id, Log(st, id)), FirstContent(sha, added);
            && (k > 0 ==> Verify(sha, id, log, 0, 0) == Bad(at, BrokenLink, |kept|) || Masked(sha, id, kept, stale, content))
            && (Log(st, id) != [] ==> Verify(sha, id, log, at, 0) == Bad(at, BrokenLink, 0) || Masked(sha, id, kept, stale, content))
            && (k == 0 ==> Verify(sha, id, log, 0, 0) == Valid(|log|))
            && (k == 0 && Log(st, id) == [] ==>
                  forall fromSeq, toSeq :: Verify(sha, id, log, fromSeq, toSeq) == Valid(|Requested(log, fromSeq, toSeq)|))
  {
    hide After, Honest, Contiguous, Links, Verify, Masked, ChainHash, GenesisChainHash, LastChain, Sound, Requested;
    var base: nat;
    kept, added, base := LogAfterFailure(sha, st, id, batch, k, next);
    at := base + 2 + |kept|;
    var before := Log(st, id);
    var stale := LastChain(sha, id, before);
    FirstIsFilled(sha, id, kept, added, stale);
    HonestIsFilled(sha, id, kept);
    TornNumbers(kept, added, base);
    var content := FirstContent(sha, added);
    WholeVerdict(sha, id, kept, added, base, stale);
    LastIsLinkOut(sha, id, before, kept);
    LastIsLinkOut(sha, id, kept, kept);
    LastIsLinkOut(sha, id, [], kept);
    NoEvents(sha, id);
    if k > 0 {
      LinkDiffers(sha, id, kept, |before|, |kept|, content, stale);
    } else {
      assert before == kept;
    }
    if before != [] {
      LinkDiffers(sha, id, kept, 0, |before|, content, stale);
      if ChainHash(sha, GenesisChainHash(sha, id), content) != ChainHash(sha, stale, content) {
        WindowVerdict(sha, id, kept, added, base, stale);
      }
    } else if k == 0 {
      EmptySessionVerifies(sha, id, kept, added, base);
    }
  }

  lemma NoEvents(sha: Sha, id: Id)
    ensures LastChain(sha, id, []) == GenesisChainHash(sha, id)
  {
  }

  lemma HonestIsFilled(sha: Sha, id: Id, log: seq<Envelope>)
    requires Honest(sha, id, log)
    ensures Filled(log)
  {
  }

  lemma EmptySessionVerifies(sha: Sha, id: Id, kept: seq<Envelope>, added: seq<Envelope>, base: nat)
    requires kept == [] && Contiguous(added, base + 1) && Links(sha, added, 0, |added|, GenesisChainHash(sha, id))
    ensures forall fromSeq, toSeq :: Verify(sha, id, kept + added, fromSeq, toSeq) == Valid(|Requested(kept + added, fromSeq, toSeq)|)
  {
    hide Links, Honest, Verify, Requested, Contiguous, GenesisChainHash, LowOf, HighOf;
    LinkedFromGenesis(sha, id, added);
    assert kept + added == added;
    forall fromSeq, toSeq
      ensures Verify(sha, id, added, fromSeq, toSeq) == Valid(|Requested(added, fromSeq, toSeq)|)
    {
      HonestVerifies(sha, id, added, base + 1, fromSeq, toSeq);
      RequestedSize(added, base + 1, fromSeq, toSeq);
    }
  }
}
