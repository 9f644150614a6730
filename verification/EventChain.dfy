/**
  The per-session hash chain and its verification over a window of sequence numbers.
 */
module EventChain {
  import opened Hashing

  /**
    A stored event. `marshalled` is what encoding the event yields, None when that fails;
    `payload`, `content` and `chain` are the stored columns, None for NULL.
   */
  datatype Envelope = Envelope(at: int, marshalled: Option<Bytes>, payload: Option<Bytes>,
                               content: Option<Bytes>, chain: Option<Bytes>)

  datatype Reason = ContentMismatch | BrokenLink

  datatype Verdict =
    | Valid(checked: nat)
    | Bad(firstBad: int, reason: Reason, checked: nat)
    | Unreadable(badSeq: int)

  // ---- The verification, step by step ----

  function Canonical(e: Envelope): Option<Bytes> {
    if e.payload.Some? then e.payload else e.marshalled
  }

  function Head(all: seq<Envelope>): int {
    if all == [] then 0 else all[|all| - 1].at
  }

  /** The events among the first n with a sequence number in [from, to]. */
  function Window(all: seq<Envelope>, n: nat, from: int, to: int): seq<Envelope>
    requires n <= |all|
  {
    if n == 0 then [] else
    var rest := Window(all, n - 1, from, to);
    if from <= all[n - 1].at <= to then rest + [all[n - 1]] else rest
  }

  /** The first chained event at or after i. */
  function SkipUnchained(w: seq<Envelope>, i: nat): (start: nat)
    requires i <= |w|
    ensures i <= start <= |w|
    ensures forall j | i <= j < start :: w[j].content.None?
    ensures start < |w| ==> w[start].content.Some?
    decreases |w| - i
  {
    if i < |w| && w[i].content.None? then SkipUnchained(w, i + 1) else i
  }

  /** The stored hash of the preceding sequence number, else the session genesis. */
  function SeedPrev(sha: Sha, id: Bytes, all: seq<Envelope>, first: int, i: nat): Bytes
    requires i <= |all|
    decreases |all| - i
  {
    if first <= 1 || i == |all| then GenesisChainHash(sha, id)
    else if all[i].at == first - 1 then
      if all[i].chain.None? then GenesisChainHash(sha, id) else all[i].chain.value
    else SeedPrev(sha, id, all, first, i + 1)
  }

  function CheckFrom(sha: Sha, w: seq<Envelope>, i: nat, prev: Bytes, checked: nat): Verdict
    requires i <= |w|
    decreases |w| - i
  {
    if i == |w| then Valid(checked) else
    var e := w[i];
    if Canonical(e).None? then Unreadable(e.at)
    else
      var content := sha(Canonical(e).value);
      if e.content != Some(content) then Bad(e.at, ContentMismatch, checked)
      else if e.chain != Some(ChainHash(sha, prev, content)) then Bad(e.at, BrokenLink, checked)
      else CheckFrom(sha, w, i + 1, e.chain.value, checked + 1)
  }

  function Verify(sha: Sha, id: Bytes, all: seq<Envelope>, fromSeq: int, toSeq: int): Verdict {
    var from := if fromSeq <= 0 then 1 else fromSeq;
    var to := if toSeq <= 0 || toSeq > Head(all) then Head(all) else toSeq;
    if from > to then Valid(0) else
    var w := Window(all, |all|, from, to);
    var start := SkipUnchained(w, 0);
    if start == |w| then Valid(0) else
    CheckFrom(sha, w, start, SeedPrev(sha, id, all, w[start].at, 0), 0)
  }

  /** The same, with the loops of the source. */
  method VerifyChainIntegrity(sha: Sha, id: Bytes, all: seq<Envelope>, fromSeq: int, toSeq: int) returns (v: Verdict)
    ensures v == Verify(sha, id, all, fromSeq, toSeq)
  {
    var head := if |all| > 0 then all[|all| - 1].at else 0;
    var from, to := fromSeq, toSeq;
    if from <= 0 {
      from := 1;
    }
    if to <= 0 || to > head {
      to := head;
    }
    if from > to {
      return Valid(0);
    }
    var w: seq<Envelope> := [];
    for i := 0 to |all|
      invariant w == Window(all, i, from, to)
    {
      if all[i].at >= from && all[i].at <= to {
        w := w + [all[i]];
      }
    }
    var start := 0;
    while start < |w| && w[start].content.None?
      invariant start <= |w| && SkipUnchained(w, start) == SkipUnchained(w, 0)
    {
      start := start + 1;
    }
    if start >= |w| {
      return Valid(0);
    }
    var prev := FindSeedPrev(sha, id, all, w[start].at);
    ghost var seed := prev;
    var checked := 0;
    for i := start to |w|
      invariant CheckFrom(sha, w, i, prev, checked) == CheckFrom(sha, w, start, seed, 0)
    {
      var e := w[i];
      var canonical := e.payload;
      if canonical.None? {
        if e.marshalled.None? {
          return Unreadable(e.at);
        }
        canonical := e.marshalled;
      }
      var content := sha(canonical.value);
      if e.content != Some(content) {
        return Bad(e.at, ContentMismatch, checked);
      }
      if e.chain != Some(ChainHash(sha, prev, content)) {
        return Bad(e.at, BrokenLink, checked);
      }
      prev := e.chain.value;
      checked := checked + 1;
    }
    v := Valid(checked);
  }

  method FindSeedPrev(sha: Sha, id: Bytes, all: seq<Envelope>, first: int) returns (prev: Bytes)
    ensures prev == SeedPrev(sha, id, all, first, 0)
  {
    prev := GenesisChainHash(sha, id);
    if first <= 1 {
      return;
    }
    for i := 0 to |all|
      invariant SeedPrev(sha, id, all, first, i) == SeedPrev(sha, id, all, first, 0)
    {
      if all[i].at == first - 1 {
        if all[i].chain.Some? {
          prev := all[i].chain.value;
        }
        return;
      }
    }
  }

  // ---- What it decides ----

  /** Sequence numbers base+1, base+2, ... */
  ghost predicate Contiguous(all: seq<Envelope>, base: nat) {
    forall i | 0 <= i < |all| :: all[i].at == base + 1 + i
  }

  /** The stored hash entering event i of a contiguous stream. */
  function PrevChain(sha: Sha, id: Bytes, all: seq<Envelope>, i: nat): Bytes
    requires i < |all|
  {
    if i == 0 || all[i - 1].chain.None? then GenesisChainHash(sha, id) else all[i - 1].chain.value
  }

  /** Event i on its own: its hashes follow from its bytes and its stored predecessor. */
  function CheckAt(sha: Sha, id: Bytes, all: seq<Envelope>, i: nat, checked: nat): Verdict
    requires i < |all|
  {
    var e := all[i];
    if Canonical(e).None? then Unreadable(e.at)
    else
      var content := sha(Canonical(e).value);
      if e.content != Some(content) then Bad(e.at, ContentMismatch, checked)
      else if e.chain != Some(ChainHash(sha, PrevChain(sha, id, all, i), content)) then Bad(e.at, BrokenLink, checked)
      else Valid(checked + 1)
  }

  /** The verdict of the first event in [i, hi) that fails on its own, else valid. */
  function FirstFailure(sha: Sha, id: Bytes, all: seq<Envelope>, i: nat, hi: nat, checked: nat): Verdict
    requires i <= hi <= |all|
    decreases hi - i
  {
    if i == hi then Valid(checked) else
    var v := CheckAt(sha, id, all, i, checked);
    if v.Valid? then FirstFailure(sha, id, all, i + 1, hi, checked + 1) else v
  }

  /** The first chained event in [lo, hi), or hi. */
  function Start(all: seq<Envelope>, lo: nat, hi: nat): (start: nat)
    requires lo <= hi <= |all|
    ensures lo <= start <= hi
    ensures forall j | lo <= j < start :: all[j].content.None?
    ensures start < hi ==> all[start].content.Some?
    decreases hi - lo
  {
    if lo < hi && all[lo].content.None? then Start(all, lo + 1, hi) else lo
  }

  lemma SliceSnoc(all: seq<Envelope>, lo: nat, n: nat)
    requires lo < n <= |all|
    ensures all[lo..n] == all[lo..n - 1] + [all[n - 1]]
  {
  }

  lemma {:induction false} WindowIsSlice(all: seq<Envelope>, n: nat, base: nat, lo: nat, hi: nat)
    requires Contiguous(all, base) && n <= |all| && lo <= hi <= |all|
    ensures n <= lo ==> Window(all, n, base + 1 + lo, base + hi) == []
    ensures lo <= n <= hi ==> Window(all, n, base + 1 + lo, base + hi) == all[lo..n]
    ensures hi <= n ==> Window(all, n, base + 1 + lo, base + hi) == all[lo..hi]
  {
    if n > 0 {
      WindowIsSlice(all, n - 1, base, lo, hi);
      assert all[n - 1].at == base + n;
      if lo < n <= hi {
        SliceSnoc(all, lo, n);
      }
    }
  }

  lemma {:induction false} SeedIsPrev(sha: Sha, id: Bytes, all: seq<Envelope>, base: nat, k: nat, i: nat)
    requires Contiguous(all, base) && k < |all| && (i <= k - 1 || (k == 0 && i <= |all|))
    ensures SeedPrev(sha, id, all, base + 1 + k, i) == PrevChain(sha, id, all, k)
    decreases |all| - i
  {
    if base + 1 + k > 1 && i < |all| {
      assert all[i].at == base + 1 + i;
      if i != k - 1 {
        SeedIsPrev(sha, id, all, base, k, i + 1);
      }
    }
  }

  lemma {:induction false} SkipIsStart(all: seq<Envelope>, lo: nat, hi: nat, i: nat)
    requires lo <= hi <= |all| && i <= hi - lo
    ensures SkipUnchained(all[lo..hi], i) == Start(all, lo + i, hi) - lo
    decreases hi - lo - i
  {
    if lo + i < hi && all[lo + i].content.None? {
      SkipIsStart(all, lo, hi, i + 1);
    }
  }

  lemma {:induction false} CheckIsFirstFailure(sha: Sha, id: Bytes, all: seq<Envelope>, lo: nat, hi: nat, i: nat, prev: Bytes, checked: nat)
    requires lo <= hi <= |all| && i <= hi - lo
    requires lo + i < hi ==> prev == PrevChain(sha, id, all, lo + i)
    ensures CheckFrom(sha, all[lo..hi], i, prev, checked) == FirstFailure(sha, id, all, lo + i, hi, checked)
    decreases hi - lo - i
  {
    if lo + i < hi && CheckAt(sha, id, all, lo + i, checked).Valid? {
      CheckIsFirstFailure(sha, id, all, lo, hi, i + 1, all[lo + i].chain.value, checked + 1);
    }
  }

  /** On a contiguous stream, verifying base+1+lo .. base+hi finds the first event that fails on its own. */
  lemma VerifyIsFirstFailure(sha: Sha, id: Bytes, all: seq<Envelope>, base: nat, lo: nat, hi: nat)
    requires Contiguous(all, base) && lo < hi <= |all|
    ensures Verify(sha, id, all, base + 1 + lo, base + hi)
            == FirstFailure(sha, id, all, Start(all, lo, hi), hi, 0)
  {
    hide CheckFrom, FirstFailure, SeedPrev, Window, SkipUnchained, Start, PrevChain;
    assert all[|all| - 1].at == base + |all|;
    WindowIsSlice(all, |all|, base, lo, hi);
    var w, start := all[lo..hi], Start(all, lo, hi);
    assert Window(all, |all|, base + 1 + lo, base + hi) == w;
    SkipIsStart(all, lo, hi, 0);
    if start < hi {
      assert w[start - lo] == all[start] && all[start].at == base + 1 + start;
      SeedIsPrev(sha, id, all, base, start, 0);
      CheckIsFirstFailure(sha, id, all, lo, hi, start - lo, PrevChain(sha, id, all, start), 0);
    } else {
      NothingToCheck(sha, id, all, hi);
    }
  }

  lemma NothingToCheck(sha: Sha, id: Bytes, all: seq<Envelope>, hi: nat)
    requires hi <= |all|
    ensures FirstFailure(sha, id, all, hi, hi, 0) == Valid(0)
  {
  }

  // ---- Which bytes are hashed ----

  /** Numbers, hashes and the bytes to hash are the same. */
  ghost predicate Alike(a: Envelope, b: Envelope) {
    a.at == b.at && a.content == b.content && a.chain == b.chain && Canonical(a) == Canonical(b)
  }

  ghost predicate AllAlike(a: seq<Envelope>, b: seq<Envelope>) {
    |a| == |b| && forall i | 0 <= i < |a| :: Alike(a[i], b[i])
  }

  lemma {:induction false} AlikeWindows(a: seq<Envelope>, b: seq<Envelope>, n: nat, from: int, to: int)
    requires AllAlike(a, b) && n <= |a|
    ensures AllAlike(Window(a, n, from, to), Window(b, n, from, to))
  {
    hide Canonical;
    if n > 0 {
      AlikeWindows(a, b, n - 1, from, to);
    }
  }

  lemma {:induction false} AlikeStarts(a: seq<Envelope>, b: seq<Envelope>, i: nat)
    requires AllAlike(a, b) && i <= |a|
    ensures SkipUnchained(a, i) == SkipUnchained(b, i)
    decreases |a| - i
  {
    hide Canonical;
    if i < |a| {
      AlikeStarts(a, b, i + 1);
    }
  }

  lemma {:induction false} AlikeSeeds(sha: Sha, id: Bytes, a: seq<Envelope>, b: seq<Envelope>, first: int, i: nat)
    requires AllAlike(a, b) && i <= |a|
    ensures SeedPrev(sha, id, a, first, i) == SeedPrev(sha, id, b, first, i)
    decreases |a| - i
  {
    hide Canonical;
    if i < |a| {
      AlikeSeeds(sha, id, a, b, first, i + 1);
    }
  }

  lemma {:induction false} AlikeChecks(sha: Sha, a: seq<Envelope>, b: seq<Envelope>, i: nat, prev: Bytes, checked: nat)
    requires AllAlike(a, b) && i <= |a|
    ensures CheckFrom(sha, a, i, prev, checked) == CheckFrom(sha, b, i, prev, checked)
    decreases |a| - i
  {
    hide Canonical;
    if i < |a| && a[i].chain.Some? {
      AlikeChecks(sha, a, b, i + 1, a[i].chain.value, checked + 1);
    }
  }

  lemma AlikeVerdicts(sha: Sha, id: Bytes, a: seq<Envelope>, b: seq<Envelope>, fromSeq: int, toSeq: int)
    requires AllAlike(a, b)
    ensures Verify(sha, id, a, fromSeq, toSeq) == Verify(sha, id, b, fromSeq, toSeq)
  {
    hide Canonical, Window, SkipUnchained, SeedPrev, CheckFrom;
    var from := if fromSeq <= 0 then 1 else fromSeq;
    var to := if toSeq <= 0 || toSeq > Head(a) then Head(a) else toSeq;
    AlikeWindows(a, b, |a|, from, to);
    var v, w := Window(a, |a|, from, to), Window(b, |b|, from, to);
    AlikeStarts(v, w, 0);
    var start := SkipUnchained(v, 0);
    if start < |v| {
      AlikeSeeds(sha, id, a, b, v[start].at, 0);
      AlikeChecks(sha, v, w, start, SeedPrev(sha, id, a, v[start].at, 0), 0);
    }
  }

  /** Where bytes are stored, what the event would marshal to has no say, in any log and window. */
  lemma StoredBytesDecide(sha: Sha, id: Bytes, all: seq<Envelope>, k: nat, marshalled: Option<Bytes>, fromSeq: int, toSeq: int)
    requires k < |all| && all[k].payload.Some?
    ensures Verify(sha, id, all[k := all[k].(marshalled := marshalled)], fromSeq, toSeq)
            == Verify(sha, id, all, fromSeq, toSeq)
  {
    hide Verify;
    AlikeVerdicts(sha, id, all[k := all[k].(marshalled := marshalled)], all, fromSeq, toSeq);
  }

  /** Where none are stored, the marshalled event takes their place. */
  lemma MissingBytesAreMarshalled(sha: Sha, id: Bytes, all: seq<Envelope>, k: nat, fromSeq: int, toSeq: int)
    requires k < |all| && all[k].payload.None?
    ensures Verify(sha, id, all, fromSeq, toSeq)
            == Verify(sha, id, all[k := all[k].(payload := all[k].marshalled)], fromSeq, toSeq)
  {
    hide Verify;
    AlikeVerdicts(sha, id, all, all[k := all[k].(payload := all[k].marshalled)], fromSeq, toSeq);
  }

  // ---- Honest streams ----

  /** No column is NULL, and the stored bytes are the event's. */
  ghost predicate Filled(all: seq<Envelope>) {
    forall i | 0 <= i < |all| ::
      all[i].payload.Some? && all[i].marshalled == all[i].payload && all[i].content.Some? && all[i].chain.Some?
  }

  ghost predicate HonestEvent(sha: Sha, id: Bytes, all: seq<Envelope>, i: nat)
    requires i < |all|
  {
    && all[i].payload.Some?
    && all[i].content == Some(sha(all[i].payload.value))
    && all[i].chain == Some(ChainHash(sha, PrevChain(sha, id, all, i), sha(all[i].payload.value)))
  }

  /** What Append stores: bytes, their hash, and the fold of the hashes from the session genesis. */
  ghost predicate Honest(sha: Sha, id: Bytes, all: seq<Envelope>) {
    && Filled(all)
    && forall i {:trigger HonestEvent(sha, id, all, i)} | 0 <= i < |all| :: HonestEvent(sha, id, all, i)
  }

  lemma HonestAt(sha: Sha, id: Bytes, all: seq<Envelope>, i: nat)
    requires Honest(sha, id, all) && i < |all|
    ensures all[i].payload.Some? && all[i].marshalled == all[i].payload
    ensures all[i].content == Some(sha(all[i].payload.value))
    ensures all[i].chain == Some(ChainHash(sha, PrevChain(sha, id, all, i), sha(all[i].payload.value)))
  {
    assert HonestEvent(sha, id, all, i);
  }

  lemma {:induction false} PassesThrough(sha: Sha, id: Bytes, all: seq<Envelope>, i: nat, hi: nat, checked: nat)
    requires i <= hi <= |all| && forall j, n: nat | i <= j < hi :: CheckAt(sha, id, all, j, n) == Valid(n + 1)
    ensures FirstFailure(sha, id, all, i, hi, checked) == Valid(checked + hi - i)
    decreases hi - i
  {
    hide CheckAt;
    if i < hi {
      PassesThrough(sha, id, all, i + 1, hi, checked + 1);
    }
  }

  lemma AllChained(all: seq<Envelope>)
    requires forall j | 0 <= j < |all| :: all[j].content.Some?
    ensures forall lo, hi | 0 <= lo <= hi <= |all| :: Start(all, lo, hi) == lo
  {
  }

  lemma HonestPasses(sha: Sha, id: Bytes, all: seq<Envelope>)
    requires Honest(sha, id, all)
    ensures forall j, n: nat | 0 <= j < |all| :: CheckAt(sha, id, all, j, n) == Valid(n + 1)
    ensures forall lo, hi | 0 <= lo <= hi <= |all| :: Start(all, lo, hi) == lo
  {
    hide PrevChain, Start;
    forall j, n: nat | 0 <= j < |all|
      ensures CheckAt(sha, id, all, j, n) == Valid(n + 1)
    {
      HonestAt(sha, id, all, j);
    }
    AllChained(all);
  }

  /** The bounds a request resolves to, as positions in the stream. */
  function LowOf(base: nat, fromSeq: int): nat {
    if fromSeq <= base + 1 then 0 else fromSeq - base - 1
  }

  function HighOf(all: seq<Envelope>, base: nat, toSeq: int): int {
    (if toSeq <= 0 || toSeq > base + |all| then base + |all| else toSeq) - base
  }

  lemma ClampWindow(sha: Sha, id: Bytes, all: seq<Envelope>, base: nat, fromSeq: int, toSeq: int)
    requires Contiguous(all, base)
    ensures var lo, hi := LowOf(base, fromSeq), HighOf(all, base, toSeq);
            Verify(sha, id, all, fromSeq, toSeq) ==
            if lo < hi then Verify(sha, id, all, base + 1 + lo, base + hi) else Valid(0)
  {
    var lo, hi := LowOf(base, fromSeq), HighOf(all, base, toSeq);
    if all != [] {
      assert Head(all) == base + |all|;
      var from := if fromSeq <= 0 then 1 else fromSeq;
      var to := if toSeq <= 0 || toSeq > Head(all) then Head(all) else toSeq;
      if lo < hi {
        SameWindow(all, |all|, from, base + 1 + lo, to);
      } else {
        EmptyWindow(all, |all|, from, to);
      }
    }
  }

  lemma {:induction false} SameWindow(all: seq<Envelope>, n: nat, a: int, b: int, to: int)
    requires n <= |all| && forall i | 0 <= i < |all| :: a <= all[i].at <==> b <= all[i].at
    ensures Window(all, n, a, to) == Window(all, n, b, to)
  {
    if n > 0 {
      SameWindow(all, n - 1, a, b, to);
    }
  }

  lemma {:induction false} EmptyWindow(all: seq<Envelope>, n: nat, a: int, to: int)
    requires n <= |all| && forall i | 0 <= i < |all| :: !(a <= all[i].at <= to)
    ensures Window(all, n, a, to) == []
  {
    if n > 0 {
      EmptyWindow(all, n - 1, a, to);
    }
  }

  /** An honest stream verifies over every window, with every event of the window counted. */
  lemma HonestVerifies(sha: Sha, id: Bytes, all: seq<Envelope>, base: nat, fromSeq: int, toSeq: int)
    requires Contiguous(all, base) && Honest(sha, id, all)
    ensures var lo, hi := LowOf(base, fromSeq), HighOf(all, base, toSeq);
            Verify(sha, id, all, fromSeq, toSeq) == Valid(if lo < hi then hi - lo else 0)
  {
    hide Verify, FirstFailure, CheckAt, Honest, Start, Contiguous;
    var lo, hi := LowOf(base, fromSeq), HighOf(all, base, toSeq);
    ClampWindow(sha, id, all, base, fromSeq, toSeq);
    if lo < hi {
      VerifyIsFirstFailure(sha, id, all, base, lo, hi);
      HonestPasses(sha, id, all);
      PassesThrough(sha, id, all, lo, hi, 0);
    }
  }

  // ---- Tampering with one event ----

  /** The verdict of the first k-lo checks does not see a change at k or later. */
  lemma {:induction false} FailsFirstAt(sha: Sha, id: Bytes, all: seq<Envelope>, i: nat, k: nat, hi: nat, checked: nat)
    requires i <= k < hi <= |all|
    requires forall j, n: nat | i <= j < k :: CheckAt(sha, id, all, j, n) == Valid(n + 1)
    requires !CheckAt(sha, id, all, k, checked + k - i).Valid?
    ensures FirstFailure(sha, id, all, i, hi, checked) == CheckAt(sha, id, all, k, checked + k - i)
    decreases k - i
  {
    hide CheckAt;
    if i < k {
      FailsFirstAt(sha, id, all, i + 1, k, hi, checked + 1);
    }
  }

  lemma UntouchedPasses(sha: Sha, id: Bytes, all: seq<Envelope>, bad: seq<Envelope>, j: nat, n: nat)
    requires Honest(sha, id, all) && j < |all| == |bad| && bad[j] == all[j] && (j > 0 ==> bad[j - 1].chain == all[j - 1].chain)
    ensures CheckAt(sha, id, bad, j, n) == Valid(n + 1)
  {
    hide Honest;
    HonestAt(sha, id, all, j);
  }

  /** Events other than k and k+1 pass as before. */
  lemma OthersPass(sha: Sha, id: Bytes, all: seq<Envelope>, k: nat, bad: seq<Envelope>)
    requires Honest(sha, id, all) && k < |all| && |bad| == |all| && bad == all[k := bad[k]]
    ensures forall j, n: nat | 0 <= j < |all| && j != k && j != k + 1 :: CheckAt(sha, id, bad, j, n) == Valid(n + 1)
    ensures bad[k].content.Some? ==> forall lo, hi | 0 <= lo <= hi <= |all| :: Start(bad, lo, hi) == lo
  {
    hide CheckAt, Start, PrevChain;
    forall j, n: nat | 0 <= j < |all| && j != k && j != k + 1
      ensures CheckAt(sha, id, bad, j, n) == Valid(n + 1)
    {
      UntouchedPasses(sha, id, all, bad, j, n);
    }
    if bad[k].content.Some? {
      AllChained(bad);
    }
  }

  /** An event whose content column is NULL fails on its own. */
  lemma UnchainedFailsAt(sha: Sha, id: Bytes, all: seq<Envelope>, k: nat, n: nat)
    requires k < |all| && all[k].content.None?
    ensures CheckAt(sha, id, all, k, n) in {Unreadable(all[k].at), Bad(all[k].at, ContentMismatch, n)}
  {
  }

  lemma StartsAtOnce(all: seq<Envelope>, lo: nat, hi: nat)
    requires lo < hi <= |all|
    ensures if all[lo].content.Some? then Start(all, lo, hi) == lo else Start(all, lo, hi) > lo
  {
  }

  /**
    Any stored change of event k that leaves it inconsistent is reported at k, after the k - lo
    events before it, exactly when its content column is set or the window starts before it: a
    NULL column makes it a leading unchained row of a window that starts there.
   */
  lemma InconsistentEventIsFound(sha: Sha, id: Bytes, all: seq<Envelope>, base: nat, k: nat, e: Envelope, lo: nat, hi: nat)
    requires Contiguous(all, base) && Honest(sha, id, all)
    requires lo <= k < hi <= |all| && e.at == all[k].at
    requires !CheckAt(sha, id, all[k := e], k, k - lo).Valid?
    ensures Verify(sha, id, all[k := e], base + 1 + lo, base + hi) == CheckAt(sha, id, all[k := e], k, k - lo)
            <==> e.content.Some? || lo < k
  {
    hide Verify, FirstFailure, CheckAt, Honest, Start;
    var bad := all[k := e];
    VerifyIsFirstFailure(sha, id, bad, base, lo, hi);
    StartsAtOnce(bad, lo, hi);
    if e.content.Some? || lo < k {
      HonestAt(sha, id, all, lo);
      OthersPass(sha, id, all, k, bad);
      FailsFirstAt(sha, id, bad, lo, k, hi, 0);
    } else {
      UnchainedFailsAt(sha, id, bad, k, 0);
      FailureWithin(sha, id, bad, base, Start(bad, lo, hi), hi, 0);
    }
  }

  // ---- Content columns set to NULL ----

  /** Numbers and chain hashes are kept; an event is otherwise untouched, or its content column is NULL. */
  ghost predicate Nulled(all: seq<Envelope>, bad: seq<Envelope>) {
    && |bad| == |all|
    && (forall i | 0 <= i < |all| :: bad[i].at == all[i].at && bad[i].chain == all[i].chain)
    && (forall i | 0 <= i < |all| :: bad[i] == all[i] || bad[i].content.None?)
  }

  lemma ChainedPasses(sha: Sha, id: Bytes, all: seq<Envelope>, bad: seq<Envelope>, j: nat, n: nat)
    requires Honest(sha, id, all) && Nulled(all, bad) && j < |all| && bad[j].content.Some?
    ensures CheckAt(sha, id, bad, j, n) == Valid(n + 1)
  {
    hide Honest, CheckAt;
    UntouchedPasses(sha, id, all, bad, j, n);
  }

  lemma {:induction false} SkipsNulled(bad: seq<Envelope>, m: nat, lo: nat, hi: nat)
    requires lo <= hi <= |bad| && forall i | 0 <= i < |bad| :: bad[i].content.None? <==> i < m
    ensures Start(bad, lo, hi) == if m <= lo then lo else if m <= hi then m else hi
    decreases hi - lo
  {
    if lo < hi && lo < m {
      SkipsNulled(bad, m, lo + 1, hi);
    }
  }

  /**
    NULL content columns over the first m events hide whatever their payloads say: every window
    is valid and counts its events from m on.
   */
  lemma NulledPrefixVerifies(sha: Sha, id: Bytes, all: seq<Envelope>, bad: seq<Envelope>, base: nat, m: nat, fromSeq: int, toSeq: int)
    requires Contiguous(all, base) && Honest(sha, id, all) && Nulled(all, bad) && m <= |all|
    requires forall i | 0 <= i < |bad| :: bad[i].content.None? <==> i < m
    ensures var lo, hi := LowOf(base, fromSeq), HighOf(all, base, toSeq);
            var from := if lo < m then m else lo;
            Verify(sha, id, bad, fromSeq, toSeq) == Valid(if from < hi then hi - from else 0)
  {
    hide Verify, FirstFailure, CheckAt, Honest, Start;
    var lo, hi := LowOf(base, fromSeq), HighOf(all, base, toSeq);
    ClampWindow(sha, id, bad, base, fromSeq, toSeq);
    if lo < hi {
      VerifyIsFirstFailure(sha, id, bad, base, lo, hi);
      SkipsNulled(bad, m, lo, hi);
      var start := Start(bad, lo, hi);
      forall j, n: nat | start <= j < hi
        ensures CheckAt(sha, id, bad, j, n) == Valid(n + 1)
      {
        ChainedPasses(sha, id, all, bad, j, n);
      }
      PassesThrough(sha, id, bad, start, hi, 0);
    }
  }

  /** The first NULL column after event i, when i has none. */
  lemma {:induction false} FirstNulled(bad: seq<Envelope>, i: nat, j: nat) returns (k: nat)
    requires i < j < |bad| && bad[i].content.Some? && bad[j].content.None?
    ensures i < k <= j && bad[k - 1].content.Some? && bad[k].content.None?
  {
    if bad[j - 1].content.Some? {
      k := j;
    } else {
      k := FirstNulled(bad, i, j - 1);
    }
  }

  /** The window of event k and the one before it reports a NULL column at k. */
  lemma NulledIsFound(sha: Sha, id: Bytes, all: seq<Envelope>, bad: seq<Envelope>, base: nat, k: nat)
    requires Contiguous(all, base) && Honest(sha, id, all) && Nulled(all, bad)
    requires 0 < k < |bad| && bad[k - 1].content.Some? && bad[k].content.None?
    ensures !Verify(sha, id, bad, base + k, base + k + 1).Valid?
  {
    hide Verify, FirstFailure, CheckAt, Honest, Start;
    VerifyIsFirstFailure(sha, id, bad, base, k - 1, k + 1);
    StartsAtOnce(bad, k - 1, k + 1);
    forall j, n: nat | k - 1 <= j < k
      ensures CheckAt(sha, id, bad, j, n) == Valid(n + 1)
    {
      ChainedPasses(sha, id, all, bad, j, n);
    }
    UnchainedFailsAt(sha, id, bad, k, 1);
    FailsFirstAt(sha, id, bad, k - 1, k, k + 1, 0);
  }

  /** NULL content columns go unnoticed by every window exactly when no chained event precedes one of them. */
  lemma NullingIsHiddenIff(sha: Sha, id: Bytes, all: seq<Envelope>, bad: seq<Envelope>, base: nat)
    requires Contiguous(all, base) && Honest(sha, id, all) && Nulled(all, bad)
    ensures (forall fromSeq, toSeq :: Verify(sha, id, bad, fromSeq, toSeq).Valid?)
            <==> (forall i, j | 0 <= i < j < |bad| && bad[j].content.None? :: bad[i].content.None?)
  {
    hide Verify, Honest;
    var m := Start(bad, 0, |bad|);
    if j: nat :| m < j < |bad| && bad[j].content.None? {
      var k := FirstNulled(bad, m, j);
      NulledIsFound(sha, id, all, bad, base, k);
    } else {
      forall fromSeq, toSeq
        ensures Verify(sha, id, bad, fromSeq, toSeq).Valid?
      {
        NulledPrefixVerifies(sha, id, all, bad, base, m, fromSeq, toSeq);
      }
    }
  }

  lemma MismatchAt(sha: Sha, id: Bytes, bad: seq<Envelope>, k: nat, n: nat)
    requires k < |bad| && Canonical(bad[k]).Some? && bad[k].content != Some(sha(Canonical(bad[k]).value))
    ensures CheckAt(sha, id, bad, k, n) == Bad(bad[k].at, ContentMismatch, n)
  {
  }

  lemma WrongLinkAt(sha: Sha, id: Bytes, all: seq<Envelope>, k: nat, e: Envelope, n: nat)
    requires Honest(sha, id, all) && k < |all| && e == all[k].(chain := e.chain) && e.chain != all[k].chain
    ensures CheckAt(sha, id, all[k := e], k, n) == Bad(e.at, BrokenLink, n)
  {
    hide Honest;
    HonestAt(sha, id, all, k);
    assert PrevChain(sha, id, all[k := e], k) == PrevChain(sha, id, all, k);
  }

  /**
    Other bytes in place of the stored payload, whatever the event itself still marshals to:
    found at k as a content mismatch, unless the two payloads collide.
   */
  lemma ChangedPayloadIsFound(sha: Sha, id: Bytes, all: seq<Envelope>, base: nat, k: nat, payload: Bytes,
                              marshalled: Option<Bytes>, lo: nat, hi: nat)
    requires Contiguous(all, base) && Honest(sha, id, all)
    requires lo <= k < hi <= |all| && Some(payload) != all[k].payload
    ensures all[k].payload.Some?
    ensures var e := all[k].(payload := Some(payload), marshalled := marshalled);
            Verify(sha, id, all[k := e], base + 1 + lo, base + hi) == Bad(base + 1 + k, ContentMismatch, k - lo)
            || CollisionIn(sha, {all[k].payload.value, payload})
  {
    hide Verify, Honest, CheckAt;
    var e := all[k].(payload := Some(payload), marshalled := marshalled);
    HonestAt(sha, id, all, k);
    if sha(payload) != sha(all[k].payload.value) {
      MismatchAt(sha, id, all[k := e], k, k - lo);
      InconsistentEventIsFound(sha, id, all, base, k, e, lo, hi);
    }
  }

  /** The stored payload lost: the event passes while it marshals to the same bytes, and is unreadable when it does not marshal. */
  lemma LostPayloadIsMarshalled(sha: Sha, id: Bytes, all: seq<Envelope>, base: nat, k: nat, marshalled: Option<Bytes>, lo: nat, hi: nat)
    requires Contiguous(all, base) && Honest(sha, id, all) && lo <= k < hi <= |all|
    ensures all[k].payload.Some?
    ensures var v := Verify(sha, id, all[k := all[k].(payload := None, marshalled := marshalled)], base + 1 + lo, base + hi);
            if marshalled.None? then v == Unreadable(base + 1 + k)
            else if marshalled == all[k].payload then v == Valid(hi - lo)
            else v == Bad(base + 1 + k, ContentMismatch, k - lo) || CollisionIn(sha, {all[k].payload.value, marshalled.value})
  {
    hide Verify, Honest, CheckAt, Contiguous, CollisionIn;
    HonestAt(sha, id, all, k);
    var e := all[k].(payload := None, marshalled := marshalled);
    var bad := all[k := e];
    if marshalled.None? {
      UnreadableAt(sha, id, bad, k, k - lo);
      NumberedAt(all, base, k);
      InconsistentEventIsFound(sha, id, all, base, k, e, lo, hi);
    } else {
      MissingBytesAreMarshalled(sha, id, bad, k, base + 1 + lo, base + hi);
      var full := all[k].(payload := marshalled, marshalled := marshalled);
      assert bad[k := bad[k].(payload := bad[k].marshalled)] == all[k := full];
      if marshalled == all[k].payload {
        assert all[k := full] == all;
        HonestVerifies(sha, id, all, base, base + 1 + lo, base + hi);
      } else {
        ChangedPayloadIsFound(sha, id, all, base, k, marshalled.value, marshalled, lo, hi);
      }
    }
  }

  lemma UnreadableAt(sha: Sha, id: Bytes, bad: seq<Envelope>, k: nat, n: nat)
    requires k < |bad| && bad[k].payload.None? && bad[k].marshalled.None?
    ensures CheckAt(sha, id, bad, k, n) == Unreadable(bad[k].at)
  {
  }

  lemma NumberedAt(all: seq<Envelope>, base: nat, k: nat)
    requires Contiguous(all, base) && k < |all|
    ensures all[k].at == base + 1 + k
  {
  }

  /** Another chain hash in place of the stored one: always found at k, as a broken link. */
  lemma ChangedChainHashIsFound(sha: Sha, id: Bytes, all: seq<Envelope>, base: nat, k: nat, e: Envelope, lo: nat, hi: nat)
    requires Contiguous(all, base) && Honest(sha, id, all)
    requires lo <= k < hi <= |all| && e == all[k].(chain := e.chain) && e.chain != all[k].chain
    ensures Verify(sha, id, all[k := e], base + 1 + lo, base + hi) == Bad(base + 1 + k, BrokenLink, k - lo)
  {
    hide Verify, Honest, CheckAt, PrevChain;
    HonestAt(sha, id, all, k);
    WrongLinkAt(sha, id, all, k, e, k - lo);
    InconsistentEventIsFound(sha, id, all, base, k, e, lo, hi);
  }

  /** Event k rewritten together with both of its hashes. */
  function Forged(sha: Sha, id: Bytes, all: seq<Envelope>, k: nat, payload: Bytes): Envelope
    requires k < |all|
  {
    var content := sha(payload);
    Envelope(all[k].at, Some(payload), Some(payload), Some(content),
             Some(ChainHash(sha, PrevChain(sha, id, all, k), content)))
  }

  /** The strings hashed around a rewrite: both payloads, both links into the event, both links out of it. */
  ghost function ForgeryPreimages(sha: Sha, prev: Bytes, was: Bytes, payload: Bytes, next: Bytes): set<Bytes> {
    {was, payload, prev + sha(was), prev + sha(payload),
     ChainHash(sha, prev, sha(was)) + next, ChainHash(sha, prev, sha(payload)) + next}
  }

  /** A different payload yields a different link into the event and a different link out of it. */
  lemma LinksDiffer(sha: Sha, prev: Bytes, was: Bytes, payload: Bytes, next: Bytes)
    requires was != payload && !CollisionIn(sha, ForgeryPreimages(sha, prev, was, payload, next))
    ensures ChainHash(sha, ChainHash(sha, prev, sha(was)), next) != ChainHash(sha, ChainHash(sha, prev, sha(payload)), next)
  {
    hide CollisionIn;
    var hashed := ForgeryPreimages(sha, prev, was, payload, next);
    NoCollision(sha, hashed, was, payload);
    AppendCancels(prev, sha(was), sha(payload));
    NoCollision(sha, hashed, prev + sha(was), prev + sha(payload));
    var a, b := ChainHash(sha, prev, sha(was)), ChainHash(sha, prev, sha(payload));
    PrependCancels(a, b, next);
    NoCollision(sha, hashed, a + next, b + next);
  }

  lemma ForgedPasses(sha: Sha, id: Bytes, all: seq<Envelope>, k: nat, payload: Bytes, n: nat)
    requires k < |all|
    ensures CheckAt(sha, id, all[k := Forged(sha, id, all, k, payload)], k, n) == Valid(n + 1)
  {
    var bad := all[k := Forged(sha, id, all, k, payload)];
    assert PrevChain(sha, id, bad, k) == PrevChain(sha, id, all, k);
  }

  lemma NextLinkBreaks(sha: Sha, id: Bytes, all: seq<Envelope>, k: nat, payload: Bytes, n: nat)
    requires Honest(sha, id, all) && k + 1 < |all|
    requires all[k].payload.Some? && all[k + 1].content.Some? && payload != all[k].payload.value
    requires !CollisionIn(sha, ForgeryPreimages(sha, PrevChain(sha, id, all, k), all[k].payload.value, payload,
                                                all[k + 1].content.value))
    ensures CheckAt(sha, id, all[k := Forged(sha, id, all, k, payload)], k + 1, n) == Bad(all[k + 1].at, BrokenLink, n)
  {
    hide CollisionIn, Honest, ForgeryPreimages, ChainHash;
    var bad := all[k := Forged(sha, id, all, k, payload)];
    HonestAt(sha, id, all, k);
    HonestAt(sha, id, all, k + 1);
    LinksDiffer(sha, PrevChain(sha, id, all, k), all[k].payload.value, payload, all[k + 1].content.value);
    assert bad[k + 1] == all[k + 1] && bad[k] == Forged(sha, id, all, k, payload);
  }

  /**
    A consistent rewrite of event k passes at k and is found at k+1, unless a collision hides
    it; at the end of the window nothing is left to find it, which is what the signed
    checkpoints are for.
   */
  lemma ForgedEventIsFoundNext(sha: Sha, id: Bytes, all: seq<Envelope>, base: nat, k: nat, payload: Bytes, lo: nat, hi: nat)
    requires Contiguous(all, base) && Honest(sha, id, all)
    requires lo <= k < hi <= |all| && payload != all[k].payload.value
    ensures var v := Verify(sha, id, all[k := Forged(sha, id, all, k, payload)], base + 1 + lo, base + hi);
            if k + 1 == hi then v == Valid(hi - lo)
            else
              || v == Bad(base + 2 + k, BrokenLink, k + 1 - lo)
              || CollisionIn(sha, ForgeryPreimages(sha, PrevChain(sha, id, all, k), all[k].payload.value, payload,
                                                   all[k + 1].content.value))
  {
    hide Verify, FirstFailure, Start, CheckAt, CollisionIn, ForgeryPreimages, PrevChain;
    var bad := all[k := Forged(sha, id, all, k, payload)];
    VerifyIsFirstFailure(sha, id, bad, base, lo, hi);
    OthersPass(sha, id, all, k, bad);
    forall n: nat
      ensures CheckAt(sha, id, bad, k, n) == Valid(n + 1)
    {
      ForgedPasses(sha, id, all, k, payload, n);
    }
    if k + 1 == hi {
      PassesThrough(sha, id, bad, lo, hi, 0);
    } else if !CollisionIn(sha, ForgeryPreimages(sha, PrevChain(sha, id, all, k), all[k].payload.value, payload,
                                                 all[k + 1].content.value)) {
      NextLinkBreaks(sha, id, all, k, payload, k + 1 - lo);
      FailsFirstAt(sha, id, bad, lo, k + 1, hi, 0);
    }
  }

  lemma NoCollision(sha: Sha, hashed: set<Bytes>, x: Bytes, y: Bytes)
    requires x in hashed && y in hashed && !CollisionIn(sha, hashed)
    ensures sha(x) == sha(y) ==> x == y
  {
  }

  lemma AppendCancels(p: Bytes, a: Digest, b: Digest)
    ensures p + a == p + b ==> a == b
  {
    if p + a == p + b {
      assert a == (p + a)[|p|..] == (p + b)[|p|..] == b;
    }
  }

  lemma PrependCancels(a: Digest, b: Digest, s: Bytes)
    ensures a + s == b + s ==> a == b
  {
    if a + s == b + s {
      assert a == (a + s)[..32] == (b + s)[..32] == b;
    }
  }

  // ---- Windows compose ----

  /** Verify one window, then, if valid, the next; counts add up. */
  function Then(first: Verdict, second: Verdict): Verdict {
    if !first.Valid? then first
    else match second
      case Valid(n) => Valid(first.checked + n)
      case Bad(at, reason, n) => Bad(at, reason, first.checked + n)
      case Unreadable(at) => second
  }

  lemma {:induction false} FailureSplits(sha: Sha, id: Bytes, all: seq<Envelope>, i: nat, mid: nat, hi: nat, checked: nat)
    requires i <= mid <= hi <= |all|
    ensures var first := FirstFailure(sha, id, all, i, mid, checked);
            FirstFailure(sha, id, all, i, hi, checked) ==
            if first.Valid? then FirstFailure(sha, id, all, mid, hi, first.checked) else first
    ensures var first := FirstFailure(sha, id, all, i, mid, checked); first.Valid? ==> first.checked == checked + mid - i
    decreases mid - i
  {
    hide CheckAt;
    if i < mid && CheckAt(sha, id, all, i, checked).Valid? {
      FailureSplits(sha, id, all, i + 1, mid, hi, checked + 1);
    }
  }

  lemma {:induction false} FailureShifts(sha: Sha, id: Bytes, all: seq<Envelope>, i: nat, hi: nat, checked: nat, more: nat)
    requires i <= hi <= |all|
    ensures FirstFailure(sha, id, all, i, hi, checked + more)
            == Then(Valid(more), FirstFailure(sha, id, all, i, hi, checked))
    decreases hi - i
  {
    if i < hi && CheckAt(sha, id, all, i, checked).Valid? {
      FailureShifts(sha, id, all, i + 1, hi, checked + 1, more);
    }
  }

  /** A failure lies within the window scanned, so never before it. */
  lemma {:induction false} FailureWithin(sha: Sha, id: Bytes, all: seq<Envelope>, base: nat, i: nat, hi: nat, checked: nat)
    requires Contiguous(all, base) && i <= hi <= |all|
    ensures var v := FirstFailure(sha, id, all, i, hi, checked);
            && (v.Bad? ==> v.firstBad > base + i)
            && (v.Unreadable? ==> v.badSeq > base + i)
    decreases hi - i
  {
    if i < hi && CheckAt(sha, id, all, i, checked).Valid? {
      FailureWithin(sha, id, all, base, i + 1, hi, checked + 1);
    }
  }

  lemma StartSplits(all: seq<Envelope>, lo: nat, mid: nat, hi: nat)
    requires lo <= mid <= hi <= |all|
    ensures Start(all, lo, hi) == if Start(all, lo, mid) < mid then Start(all, lo, mid) else Start(all, mid, hi)
  {
    var s, t, u := Start(all, lo, hi), Start(all, lo, mid), Start(all, mid, hi);
  }

  lemma UnchainedFails(sha: Sha, id: Bytes, all: seq<Envelope>, base: nat, i: nat, hi: nat, n: nat)
    requires Contiguous(all, base) && i < hi <= |all| && all[i].content.None?
    ensures var v := FirstFailure(sha, id, all, i, hi, n);
            v == Bad(base + 1 + i, ContentMismatch, n) || v == Unreadable(base + 1 + i)
  {
  }

  /**
    Verifying a..c agrees with verifying a..b and then b+1..c exactly when it is not the case
    that the first part is valid with something checked while event b+1 is unchained: only
    there does the second call skip what the single call rejects. Any stored log, honest or not.
   */
  lemma WindowsCompose(sha: Sha, id: Bytes, all: seq<Envelope>, base: nat, lo: nat, mid: nat, hi: nat)
    requires Contiguous(all, base) && lo < mid < hi <= |all|
    ensures var whole := Verify(sha, id, all, base + 1 + lo, base + hi);
            var first := Verify(sha, id, all, base + 1 + lo, base + mid);
            var second := Verify(sha, id, all, base + 1 + mid, base + hi);
            whole == Then(first, second) <==> !(first.Valid? && first.checked > 0 && all[mid].content.None?)
  {
    hide Verify, FirstFailure, CheckAt, Start;
    VerifyIsFirstFailure(sha, id, all, base, lo, hi);
    VerifyIsFirstFailure(sha, id, all, base, lo, mid);
    VerifyIsFirstFailure(sha, id, all, base, mid, hi);
    StartSplits(all, lo, mid, hi);
    NothingToCheck(sha, id, all, mid);
    var s, u := Start(all, lo, mid), Start(all, mid, hi);
    var first := FirstFailure(sha, id, all, s, mid, 0);
    if s < mid {
      FailureSplits(sha, id, all, s, mid, hi, 0);
      if first.Valid? {
        if u == mid {
          FailureShifts(sha, id, all, mid, hi, 0, mid - s);
        } else {
          UnchainedFails(sha, id, all, base, mid, hi, mid - s);
          FailureWithin(sha, id, all, base, u, hi, 0);
        }
      }
    } else {
      FailureShifts(sha, id, all, u, hi, 0, 0);
    }
  }
}
