/**
  Every history of create, append and fork: numbering, chain heads, verification, and the
  timeline a forked session composes from its ancestors.
 */
module StoreHistories {
  import opened Hashing
  import opened EventChain
  import opened StoreModel

  // ---- A sound session ----

  /** The fold of the content hashes of the first n events from the session genesis. */
  function ChainFold(sha: Sha, id: Id, log: seq<Envelope>, n: nat): Bytes
    requires n <= |log| && forall i | 0 <= i < |log| :: log[i].payload.Some?
  {
    if n == 0 then GenesisChainHash(sha, id) else
    ChainHash(sha, ChainFold(sha, id, log, n - 1), sha(log[n - 1].payload.value))
  }

  function LastChain(sha: Sha, id: Id, log: seq<Envelope>): Bytes {
    if log == [] || log[|log| - 1].chain.None? then GenesisChainHash(sha, id) else log[|log| - 1].chain.value
  }

  /** Own events numbered forkedFrom+1..head, honestly chained, with `prev` the running head. */
  ghost predicate SoundWith(sha: Sha, st: State, id: Id, prev: Bytes) {
    && id in st.aggregates
    && st.aggregates[id].forkedFrom >= 0
    && st.aggregates[id].head == st.aggregates[id].forkedFrom + |Log(st, id)|
    && Contiguous(Log(st, id), st.aggregates[id].forkedFrom)
    && Honest(sha, id, Log(st, id))
    && prev == LastChain(sha, id, Log(st, id))
  }

  ghost predicate SoundSession(sha: Sha, st: State, id: Id) {
    SoundWith(sha, st, id, ChainHead(sha, st, id))
  }

  ghost predicate Sound(sha: Sha, st: State) {
    && (forall id | id in st.aggregates :: SoundSession(sha, st, id))
    && st.sessions.Keys <= st.aggregates.Keys && st.heads.Keys <= st.aggregates.Keys
  }

  lemma {:induction false} HonestIsFold(sha: Sha, id: Id, log: seq<Envelope>, n: nat)
    requires Honest(sha, id, log) && n <= |log| && forall i | 0 <= i < |log| :: log[i].payload.Some?
    ensures n > 0 ==> log[n - 1].chain == Some(ChainFold(sha, id, log, n))
  {
    hide Honest;
    if n > 0 {
      HonestAt(sha, id, log, n - 1);
      HonestIsFold(sha, id, log, n - 1);
    }
  }

  lemma HonestSnoc(sha: Sha, id: Id, log: seq<Envelope>, at: int, payload: Bytes)
    requires Honest(sha, id, log)
    ensures var e := Sealed(sha, at, payload, LastChain(sha, id, log));
            Honest(sha, id, log + [e]) && LastChain(sha, id, log + [e]) == e.chain.value
  {
    hide Honest;
    var e := Sealed(sha, at, payload, LastChain(sha, id, log));
    HonestFrom(sha, id, log, e);
  }

  lemma PrevOfSnoc(sha: Sha, id: Id, log: seq<Envelope>, e: Envelope, i: nat)
    requires i <= |log|
    ensures PrevChain(sha, id, log + [e], i) == if i < |log| then PrevChain(sha, id, log, i) else LastChain(sha, id, log)
  {
  }

  lemma HonestFrom(sha: Sha, id: Id, log: seq<Envelope>, e: Envelope)
    requires Honest(sha, id, log) && e.payload.Some? && e == Sealed(sha, e.at, e.payload.value, LastChain(sha, id, log))
    ensures Honest(sha, id, log + [e])
  {
    hide PrevChain, ChainHash;
    forall i | 0 <= i < |log + [e]|
      ensures HonestEvent(sha, id, log + [e], i)
    {
      PrevOfSnoc(sha, id, log, e, i);
      if i < |log| {
        HonestAt(sha, id, log, i);
      }
    }
  }

  // ---- Append ----

  /** Nothing but session `id` and the tail channels differs. */
  ghost predicate SameElsewhere(st: State, st': State, id: Id) {
    && st'.subscribers == st.subscribers
    && (forall x | x != id :: x in st'.aggregates <==> x in st.aggregates)
    && (forall x | x != id && x in st.aggregates :: st'.aggregates[x] == st.aggregates[x])
    && (forall x | x != id :: x in st'.sessions <==> x in st.sessions)
    && (forall x | x != id && x in st.sessions :: st'.sessions[x] == st.sessions[x])
    && (forall x | x != id :: x in st'.heads <==> x in st.heads)
    && (forall x | x != id && x in st.heads :: st'.heads[x] == st.heads[x])
  }

  /** Session x keeps its place in the forest and only grows. */
  ghost predicate Grown(st: State, st': State, x: Id) {
    && x in st.aggregates && x in st'.aggregates
    && st'.aggregates[x].parent == st.aggregates[x].parent
    && st'.aggregates[x].forkedFrom == st.aggregates[x].forkedFrom
    && st'.aggregates[x].head >= st.aggregates[x].head
    && Log(st, x) <= Log(st', x)
  }

  lemma PushEffect(st: State, id: Id, e: Envelope)
    requires id in st.aggregates
    ensures var st' := Push(Bump(st, id), id, e);
            && SameElsewhere(st, st', id) && Grown(st, st', id)
            && Log(st', id) == Log(st, id) + [e]
            && st'.aggregates[id] == st.aggregates[id].(head := st.aggregates[id].head + 1)
            && st'.heads == st.heads
  {
  }

  /** Any batch, marshalled or not. */
  lemma {:induction false} AppendFromFrame(sha: Sha, st: State, id: Id, batch: seq<Option<Bytes>>, i: nat, prev: Bytes)
    requires id in st.aggregates && i <= |batch|
    ensures var st' := AppendFrom(sha, st, id, batch, i, prev).0; SameElsewhere(st, st', id) && Grown(st, st', id)
    decreases |batch| - i
  {
    if i < |batch| && batch[i].Some? {
      var bumped := Bump(st, id);
      var e := Sealed(sha, bumped.aggregates[id].head, batch[i].value, prev);
      PushEffect(st, id, e);
      AppendFromFrame(sha, Push(bumped, id, e), id, batch, i + 1, e.chain.value);
    }
  }

  lemma {:induction false} AppendFromKeeps(sha: Sha, st: State, id: Id, batch: seq<Option<Bytes>>, i: nat, prev: Bytes)
    requires i <= |batch| && SoundWith(sha, st, id, prev) && forall j | i <= j < |batch| :: batch[j].Some?
    ensures var r := AppendFrom(sha, st, id, batch, i, prev); r.1 && SoundSession(sha, r.0, id)
    decreases |batch| - i
  {
    hide Honest, Contiguous, AppendFrom, Push;
    if i == |batch| {
      AppendEnds(sha, st, id, batch, prev);
    } else {
      AppendStep(sha, st, id, batch, i, prev);
      var bumped := Bump(st, id);
      var e := Sealed(sha, bumped.aggregates[id].head, batch[i].value, prev);
      PushKeeps(sha, st, id, batch[i].value, prev);
      AppendFromKeeps(sha, Push(bumped, id, e), id, batch, i + 1, e.chain.value);
    }
  }

  lemma PushKeeps(sha: Sha, st: State, id: Id, payload: Bytes, prev: Bytes)
    requires SoundWith(sha, st, id, prev)
    ensures var e := Sealed(sha, st.aggregates[id].head + 1, payload, prev);
            SoundWith(sha, Push(Bump(st, id), id, e), id, e.chain.value)
  {
    hide Honest;
    var e := Sealed(sha, st.aggregates[id].head + 1, payload, prev);
    PushEffect(st, id, e);
    HonestSnoc(sha, id, Log(st, id), e.at, payload);
  }

  /** An event that does not marshal has taken a number that no stored event carries. */
  lemma {:induction false} AppendFromFails(sha: Sha, st: State, id: Id, batch: seq<Option<Bytes>>, i: nat, prev: Bytes, k: nat)
    requires id in st.aggregates && i <= k < |batch| && batch[k].None?
    ensures var r := AppendFrom(sha, st, id, batch, i, prev);
            && !r.1 && id in r.0.aggregates && r.0.aggregates[id].forkedFrom == st.aggregates[id].forkedFrom
            && r.0.aggregates[id].head - |Log(r.0, id)| == st.aggregates[id].head - |Log(st, id)| + 1
    decreases |batch| - i
  {
    if batch[i].Some? {
      var bumped := Bump(st, id);
      var e := Sealed(sha, bumped.aggregates[id].head, batch[i].value, prev);
      PushEffect(st, id, e);
      AppendFromFails(sha, Push(bumped, id, e), id, batch, i + 1, e.chain.value, k);
    }
  }

  lemma SoundElsewhere(sha: Sha, st: State, st': State, id: Id)
    requires Sound(sha, st) && SameElsewhere(st, st', id) && id in st'.aggregates && SoundSession(sha, st', id)
    ensures Sound(sha, st')
  {
    forall x | x in st'.aggregates
      ensures SoundSession(sha, st', x)
    {
      if x != id {
        assert SoundSession(sha, st, x);
        assert Log(st', x) == Log(st, x);
      }
    }
  }

  lemma CreateKeeps(sha: Sha, st: State, id: Id)
    requires Sound(sha, st)
    ensures Sound(sha, Create(st, id)) && SoundSession(sha, Create(st, id), id)
  {
    if id in st.aggregates {
      assert SoundSession(sha, st, id);
    } else {
      SoundElsewhere(sha, st, Create(st, id), id);
    }
  }

  /** An append keeps the store sound exactly when every event of the batch marshals. */
  lemma AppendKeepsIff(sha: Sha, st: State, id: Id, batch: seq<Option<Bytes>>)
    requires Sound(sha, st)
    ensures var r := Append(sha, st, id, batch);
            && (Sound(sha, r.0) <==> forall j | 0 <= j < |batch| :: batch[j].Some?)
            && (r.1 <==> forall j | 0 <= j < |batch| :: batch[j].Some?)
  {
    hide AppendFrom, SoundWith;
    CreateKeeps(sha, st, id);
    var start := Create(st, id);
    var prev := ChainHead(sha, start, id);
    var st' := AppendFrom(sha, start, id, batch, 0, prev).0;
    AppendFromFrame(sha, start, id, batch, 0, prev);
    if k :| 0 <= k < |batch| && batch[k].None? {
      AppendFromFails(sha, start, id, batch, 0, prev, k);
      HeadMatches(sha, start, id);
      if Sound(sha, st') {
        HeadMatches(sha, st', id);
        assert false;
      }
    } else {
      AppendFromKeeps(sha, start, id, batch, 0, prev);
      SoundElsewhere(sha, start, st', id);
    }
  }

  lemma HeadMatches(sha: Sha, st: State, id: Id)
    requires Sound(sha, st) && id in st.aggregates
    ensures st.aggregates[id].head - |Log(st, id)| == st.aggregates[id].forkedFrom
  {
    assert SoundSession(sha, st, id);
  }

  // ---- Fork ----

  /** A fork keeps the store sound exactly when it branches at no negative number into an id whose chain head is its genesis. */
  lemma ForkKeepsIff(sha: Sha, st: State, parent: Id, atSeq: int, child: Id)
    requires Sound(sha, st)
    ensures Sound(sha, Fork(st, parent, atSeq, child))
            <==> atSeq >= 0 && ChainHead(sha, st, child) == GenesisChainHash(sha, child)
  {
    hide SoundSession, ChainHead, GenesisChainHash;
    ForkedChild(sha, st, parent, atSeq, child);
    if SoundSession(sha, Fork(st, parent, atSeq, child), child) {
      SoundElsewhere(sha, st, Fork(st, parent, atSeq, child), child);
    }
  }

  lemma ForkedChild(sha: Sha, st: State, parent: Id, atSeq: int, child: Id)
    ensures SoundSession(sha, Fork(st, parent, atSeq, child), child)
            <==> atSeq >= 0 && ChainHead(sha, st, child) == GenesisChainHash(sha, child)
  {
    assert Log(Fork(st, parent, atSeq, child), child) == [];
  }

  // ---- Histories ----

  datatype Op =
    | CreateOp(id: Id)
    | AppendOp(id: Id, batch: seq<Option<Bytes>>)
    | ForkOp(parent: Id, atSeq: int, id: Id)

  function Apply(sha: Sha, st: State, op: Op): State {
    match op
    case CreateOp(id) => Create(st, id)
    case AppendOp(id, batch) => Append(sha, st, id, batch).0
    case ForkOp(parent, atSeq, id) => Fork(st, parent, atSeq, id)
  }

  /** Events marshal; a fork names a new session and branches within an existing parent. */
  ghost predicate Legal(st: State, op: Op) {
    match op
    case CreateOp(id) => true
    case AppendOp(id, batch) => forall j | 0 <= j < |batch| :: batch[j].Some?
    case ForkOp(parent, atSeq, id) =>
      id !in st.aggregates && parent in st.aggregates && 0 <= atSeq <= st.aggregates[parent].head
  }

  function Run(sha: Sha, ops: seq<Op>, n: nat): State
    requires n <= |ops|
  {
    if n == 0 then EMPTY else Apply(sha, Run(sha, ops, n - 1), ops[n - 1])
  }

  ghost predicate LegalAt(sha: Sha, ops: seq<Op>, i: nat)
    requires i < |ops|
  {
    Legal(Run(sha, ops, i), ops[i])
  }

  ghost predicate LegalHistory(sha: Sha, ops: seq<Op>) {
    forall i {:trigger LegalAt(sha, ops, i)} | 0 <= i < |ops| :: LegalAt(sha, ops, i)
  }

  lemma ApplyKeeps(sha: Sha, st: State, op: Op)
    requires Sound(sha, st) && Legal(st, op)
    ensures Sound(sha, Apply(sha, st, op))
  {
    hide SoundSession, Append;
    match op
    case CreateOp(id) => CreateKeeps(sha, st, id);
    case AppendOp(id, batch) => AppendKeepsIff(sha, st, id, batch);
    case ForkOp(parent, atSeq, id) => ForkKeepsIff(sha, st, parent, atSeq, id);
  }

  lemma {:induction false} RunIsSound(sha: Sha, ops: seq<Op>, n: nat)
    requires LegalHistory(sha, ops) && n <= |ops|
    ensures Sound(sha, Run(sha, ops, n))
  {
    if n > 0 {
      assert LegalAt(sha, ops, n - 1);
      RunIsSound(sha, ops, n - 1);
      ApplyKeeps(sha, Run(sha, ops, n - 1), ops[n - 1]);
    }
  }

  /** The resolved window of a verification request over a stored log. */
  function Requested(log: seq<Envelope>, fromSeq: int, toSeq: int): seq<Envelope> {
    Window(log, |log|, if fromSeq <= 0 then 1 else fromSeq, if toSeq <= 0 || toSeq > Head(log) then Head(log) else toSeq)
  }

  lemma RequestedSize(log: seq<Envelope>, base: nat, fromSeq: int, toSeq: int)
    requires Contiguous(log, base)
    ensures var lo, hi := LowOf(base, fromSeq), HighOf(log, base, toSeq);
            |Requested(log, fromSeq, toSeq)| == if lo < hi then hi - lo else 0
  {
    var lo, hi := LowOf(base, fromSeq), HighOf(log, base, toSeq);
    if log != [] {
      assert Head(log) == base + |log|;
      var from := if fromSeq <= 0 then 1 else fromSeq;
      var to := if toSeq <= 0 || toSeq > Head(log) then Head(log) else toSeq;
      if lo < hi {
        SameWindow(log, |log|, from, base + 1 + lo, to);
        WindowIsSlice(log, |log|, base, lo, hi);
      } else {
        EmptyWindow(log, |log|, from, to);
      }
    }
  }

  /**
    At every point of every legal history each session's own events are numbered forkedFrom+1..head, its
    running head is the fold of its content hashes from its genesis, and every window of it
    verifies with every event of the window checked.
   */
  lemma EveryHistoryVerifies(sha: Sha, ops: seq<Op>, n: nat, id: Id, fromSeq: int, toSeq: int)
    requires LegalHistory(sha, ops) && n <= |ops| && id in Run(sha, ops, n).aggregates
    ensures var st := Run(sha, ops, n);
            var log, s := Log(st, id), st.aggregates[id];
            && s.head == s.forkedFrom + |log| && s.forkedFrom >= 0
            && (forall i | 0 <= i < |log| :: log[i].at == s.forkedFrom + 1 + i && log[i].payload.Some?)
            && ChainHead(sha, st, id) == ChainFold(sha, id, log, |log|)
            && Verify(sha, id, log, fromSeq, toSeq) == Valid(|Requested(log, fromSeq, toSeq)|)
  {
    hide Verify, Run, Requested, HighOf, LowOf, LegalHistory;
    var st := Run(sha, ops, n);
    RunIsSound(sha, ops, n);
    assert SoundSession(sha, st, id);
    var log, base := Log(st, id), st.aggregates[id].forkedFrom;
    HonestIsFold(sha, id, log, |log|);
    HonestVerifies(sha, id, log, base, fromSeq, toSeq);
    RequestedSize(log, base, fromSeq, toSeq);
  }

  // ---- The fork forest ----

  /** The operation that brought each session into being. */
  function Born(ops: seq<Op>, n: nat): map<Id, nat>
    requires n <= |ops|
  {
    if n == 0 then map[] else
    var born := Born(ops, n - 1);
    if ops[n - 1].id in born then born else born[ops[n - 1].id := n - 1]
  }

  /** Parents exist, are older, and reach the branch point. */
  ghost predicate Rooted(st: State, born: map<Id, nat>, id: Id) {
    && id in st.aggregates && id in born
    && match st.aggregates[id].parent
       case None => st.aggregates[id].forkedFrom == 0
       case Some(p) =>
         && p in st.aggregates && p in born && born[p] < born[id]
         && 0 <= st.aggregates[id].forkedFrom <= st.aggregates[p].head
  }

  ghost predicate Forest(st: State, born: map<Id, nat>) {
    forall id {:trigger Rooted(st, born, id)} | id in st.aggregates :: Rooted(st, born, id)
  }

  /** The timeline of a session: its parent's timeline up to the branch point, then its own events. */
  ghost function Compose(st: State, born: map<Id, nat>, id: Id): seq<Envelope>
    requires Forest(st, born) && id in st.aggregates
    decreases if id in born then born[id] else 0
  {
    assert Rooted(st, born, id);
    match st.aggregates[id].parent
    case None => Log(st, id)
    case Some(p) =>
      assert Rooted(st, born, p);
      var inherited := Compose(st, born, p);
      UpTo(inherited, |inherited|, st.aggregates[id].forkedFrom) + Log(st, id)
  }

  /** On consecutive numbers from base+1 on, reading up to k gives the events until that number. */
  lemma {:induction false} UpToIsPrefix(all: seq<Envelope>, base: nat, n: nat, k: int)
    requires Contiguous(all, base) && n <= |all|
    ensures UpTo(all, n, k) == all[..if k < base then 0 else if k - base < n then k - base else n]
  {
    if n > 0 {
      UpToIsPrefix(all, base, n - 1, k);
      assert all[n - 1].at == base + n;
      if base + n <= k {
        SliceSnoc(all, 0, n);
      }
    }
  }

  lemma ComposeUnfolds(st: State, born: map<Id, nat>, id: Id)
    requires Forest(st, born) && id in st.aggregates
    ensures Rooted(st, born, id)
    ensures var parent := st.aggregates[id].parent;
            Compose(st, born, id) ==
            if parent.None? then Log(st, id) else
            var inherited := Compose(st, born, parent.value);
            UpTo(inherited, |inherited|, st.aggregates[id].forkedFrom) + Log(st, id)
  {
    assert Rooted(st, born, id);
  }

  /** Own events numbered forkedFrom+1..head, in every session. */
  ghost predicate Numbered(st: State) {
    forall id | id in st.aggregates ::
      && 0 <= st.aggregates[id].forkedFrom
      && st.aggregates[id].head == st.aggregates[id].forkedFrom + |Log(st, id)|
      && Contiguous(Log(st, id), st.aggregates[id].forkedFrom)
  }

  lemma SoundIsNumbered(sha: Sha, st: State)
    requires Sound(sha, st)
    ensures Numbered(st)
  {
    hide Honest, Contiguous;
    forall id | id in st.aggregates
      ensures SoundSession(sha, st, id)
    {
    }
  }

  lemma GluedIsContiguous(inherited: seq<Envelope>, at: nat, own: seq<Envelope>)
    requires Contiguous(inherited, 0) && at <= |inherited| && Contiguous(own, at)
    ensures var all := UpTo(inherited, |inherited|, at) + own; Contiguous(all, 0) && |all| == at + |own|
  {
    UpToIsPrefix(inherited, 0, |inherited|, at);
  }

  /** Numbered 1..head, with no gap or overlap at any branch point. */
  lemma {:induction false} ComposedIsContiguous(st: State, born: map<Id, nat>, id: Id)
    requires Numbered(st) && Forest(st, born) && id in st.aggregates
    ensures Contiguous(Compose(st, born, id), 0) && |Compose(st, born, id)| == st.aggregates[id].head
    decreases if id in born then born[id] else 0
  {
    hide Contiguous, Compose, Forest, UpTo, Log;
    ComposeUnfolds(st, born, id);
    var s := st.aggregates[id];
    if s.parent.Some? {
      ComposeUnfolds(st, born, s.parent.value);
      ComposedIsContiguous(st, born, s.parent.value);
      GluedIsContiguous(Compose(st, born, s.parent.value), s.forkedFrom, Log(st, id));
    }
  }

  lemma {:induction false} AppendFromAdds(sha: Sha, st: State, id: Id, batch: seq<Option<Bytes>>, i: nat, prev: Bytes)
    requires id in st.aggregates && i <= |batch| && forall j | i <= j < |batch| :: batch[j].Some?
    ensures |Log(AppendFrom(sha, st, id, batch, i, prev).0, id)| == |Log(st, id)| + |batch| - i
    decreases |batch| - i
  {
    hide AppendFrom, Push, SameElsewhere, Grown;
    if i == |batch| {
      AppendEnds(sha, st, id, batch, prev);
    } else {
      AppendStep(sha, st, id, batch, i, prev);
      var bumped := Bump(st, id);
      var e := Sealed(sha, bumped.aggregates[id].head, batch[i].value, prev);
      PushEffect(st, id, e);
      AppendFromAdds(sha, Push(bumped, id, e), id, batch, i + 1, e.chain.value);
    }
  }

  lemma GluedIff(inherited: seq<Envelope>, at: nat, own: seq<Envelope>)
    requires Contiguous(inherited, 0) && Contiguous(own, at) && own != []
    ensures Contiguous(UpTo(inherited, |inherited|, at) + own, 0) <==> at <= |inherited|
  {
    UpToIsPrefix(inherited, 0, |inherited|, at);
    if at <= |inherited| {
      GluedIsContiguous(inherited, at, own);
    } else {
      assert inherited[..|inherited|] == inherited && (inherited + own)[|inherited|] == own[0];
    }
  }

  lemma AppendToFork(sha: Sha, st: State, parent: Id, atSeq: int, child: Id, batch: seq<Option<Bytes>>)
    requires Sound(sha, st) && child !in st.aggregates && atSeq >= 0
    requires batch != [] && forall j | 0 <= j < |batch| :: batch[j].Some?
    ensures var later := Append(sha, Fork(st, parent, atSeq, child), child, batch).0;
            Sound(sha, later) && Contiguous(Log(later, child), atSeq) && Log(later, child) != []
  {
    hide AppendFrom, Honest, GenesisChainHash;
    var forked := Fork(st, parent, atSeq, child);
    ForkKeepsIff(sha, st, parent, atSeq, child);
    AppendKeepsIff(sha, forked, child, batch);
    var prev := ChainHead(sha, forked, child);
    AppendFromAdds(sha, forked, child, batch, 0, prev);
    AppendFromFrame(sha, forked, child, batch, 0, prev);
    assert SoundSession(sha, Append(sha, forked, child, batch).0, child);
  }

  /**
    The fork checks nothing, and the store stays sound wherever it branches; but once the child
    has events, its timeline is numbered without a gap exactly when the branch point is at most
    the parent's head.
   */
  lemma ForkTimelineIff(sha: Sha, st: State, born: map<Id, nat>, parent: Id, atSeq: int, child: Id, batch: seq<Option<Bytes>>)
    requires Sound(sha, st) && Forest(st, born) && parent in st.aggregates && child !in st.aggregates && atSeq >= 0
    requires batch != [] && forall j | 0 <= j < |batch| :: batch[j].Some?
    ensures var later := Append(sha, Fork(st, parent, atSeq, child), child, batch).0;
            var inherited := Compose(st, born, parent);
            && Sound(sha, later)
            && (Contiguous(UpTo(inherited, |inherited|, atSeq) + Log(later, child), 0)
                <==> atSeq <= st.aggregates[parent].head)
  {
    hide Contiguous, Compose, Forest, UpTo, Log, Append, Sound, Fork;
    AppendToFork(sha, st, parent, atSeq, child, batch);
    SoundIsNumbered(sha, st);
    ComposedIsContiguous(st, born, parent);
    GluedIff(Compose(st, born, parent), atSeq, Log(Append(sha, Fork(st, parent, atSeq, child), child, batch).0, child));
  }

  lemma SamePrefix(a: seq<Envelope>, b: seq<Envelope>, at: nat)
    requires Contiguous(a, 0) && Contiguous(b, 0) && a <= b && at <= |a|
    ensures UpTo(a, |a|, at) == UpTo(b, |b|, at)
  {
    UpToIsPrefix(a, 0, |a|, at);
    UpToIsPrefix(b, 0, |b|, at);
    assert a[..at] == b[..at];
  }

  ghost predicate AllGrown(st: State, st': State) {
    && st.aggregates.Keys <= st'.aggregates.Keys
    && forall x | x in st.aggregates :: Grown(st, st', x)
  }

  /**
    Whatever the ranks, a state in which every session has only grown composes a longer
    timeline for each, and the same one where the session's own events are the same.
   */
  lemma {:induction false} ComposeExtends(st: State, born: map<Id, nat>, st': State, born': map<Id, nat>, id: Id)
    requires Numbered(st) && Forest(st, born) && Numbered(st') && Forest(st', born')
    requires id in st.aggregates && AllGrown(st, st')
    ensures Compose(st, born, id) <= Compose(st', born', id)
    ensures Log(st, id) == Log(st', id) ==> Compose(st, born, id) == Compose(st', born', id)
    decreases if id in born then born[id] else 0
  {
    hide Numbered, Forest, Contiguous, Compose, UpTo, Log;
    ComposeUnfolds(st, born, id);
    ComposeUnfolds(st', born', id);
    assert Grown(st, st', id);
    var s := st.aggregates[id];
    if s.parent.Some? {
      var p := s.parent.value;
      ComposeUnfolds(st, born, p);
      ComposeExtends(st, born, st', born', p);
      ComposedIsContiguous(st, born, p);
      ComposedIsContiguous(st', born', p);
      SamePrefix(Compose(st, born, p), Compose(st', born', p), s.forkedFrom);
    }
  }

  // ---- The forest of a history ----

  lemma ApplyGrows(sha: Sha, st: State, op: Op)
    requires Legal(st, op)
    ensures AllGrown(st, Apply(sha, st, op))
    ensures Apply(sha, st, op).aggregates.Keys == st.aggregates.Keys + {op.id}
  {
    hide AppendFrom, Grown, Create, Log;
    match op
    case CreateOp(id) =>
      CreateGrows(st, id);
    case AppendOp(id, batch) =>
      var start := Create(st, id);
      CreateGrows(st, id);
      AppendFromFrame(sha, start, id, batch, 0, ChainHead(sha, start, id));
      ElsewhereGrows(start, Apply(sha, st, op), id);
      GrowthComposes(st, start, Apply(sha, st, op));
    case ForkOp(parent, atSeq, id) =>
      ForkGrows(st, parent, atSeq, id);
  }

  lemma CreateGrows(st: State, id: Id)
    ensures AllGrown(st, Create(st, id)) && Create(st, id).aggregates.Keys == st.aggregates.Keys + {id}
  {
  }

  lemma ForkGrows(st: State, parent: Id, atSeq: int, id: Id)
    requires id !in st.aggregates
    ensures AllGrown(st, Fork(st, parent, atSeq, id))
  {
  }

  lemma ElsewhereGrows(st: State, st': State, id: Id)
    requires SameElsewhere(st, st', id) && Grown(st, st', id)
    ensures AllGrown(st, st') && st'.aggregates.Keys == st.aggregates.Keys
  {
    forall x | x in st.aggregates
      ensures Grown(st, st', x)
    {
    }
    forall x
      ensures x in st'.aggregates.Keys <==> x in st.aggregates.Keys
    {
    }
  }

  lemma ApplyPlants(sha: Sha, st: State, op: Op)
    requires Legal(st, op)
    ensures var st' := Apply(sha, st, op);
            op.id !in st.aggregates ==>
              && op.id in st'.aggregates
              && st'.aggregates[op.id].parent == (if op.ForkOp? then Some(op.parent) else None)
              && st'.aggregates[op.id].forkedFrom == (if op.ForkOp? then op.atSeq else 0)
  {
    if op.AppendOp? {
      var start := Create(st, op.id);
      AppendFromFrame(sha, start, op.id, op.batch, 0, ChainHead(sha, start, op.id));
    }
  }

  lemma {:induction false} RunIsForest(sha: Sha, ops: seq<Op>, n: nat)
    requires LegalHistory(sha, ops) && n <= |ops|
    ensures Forest(Run(sha, ops, n), Born(ops, n))
    ensures Born(ops, n).Keys == Run(sha, ops, n).aggregates.Keys
    ensures forall x | x in Born(ops, n) :: Born(ops, n)[x] < n
  {
    hide Apply, Legal, Forest;
    if n > 0 {
      assert LegalAt(sha, ops, n - 1);
      RunIsForest(sha, ops, n - 1);
      ForestStep(sha, Run(sha, ops, n - 1), Born(ops, n - 1), ops[n - 1], n - 1);
    } else {
      EmptyForest();
    }
  }

  lemma EmptyForest()
    ensures Forest(EMPTY, map[])
  {
  }

  lemma ForestStep(sha: Sha, st: State, born: map<Id, nat>, op: Op, now: nat)
    requires Forest(st, born) && Legal(st, op) && born.Keys == st.aggregates.Keys
    requires forall x | x in born :: born[x] < now
    ensures var born' := if op.id in born then born else born[op.id := now]; Forest(Apply(sha, st, op), born')
    ensures Apply(sha, st, op).aggregates.Keys == born.Keys + {op.id}
  {
    hide Apply;
    var born' := if op.id in born then born else born[op.id := now];
    var st' := Apply(sha, st, op);
    ApplyGrows(sha, st, op);
    ApplyPlants(sha, st, op);
    forall x | x in st'.aggregates
      ensures Rooted(st', born', x)
    {
      if x in st.aggregates {
        assert Rooted(st, born, x) && Grown(st, st', x);
        if st.aggregates[x].parent.Some? {
          assert Grown(st, st', st.aggregates[x].parent.value);
        }
      } else if op.ForkOp? {
        assert Grown(st, st', op.parent);
      }
    }
  }

  lemma GrowthComposes(a: State, b: State, c: State)
    requires AllGrown(a, b) && AllGrown(b, c)
    ensures AllGrown(a, c)
  {
    hide Log;
    forall x | x in a.aggregates
      ensures Grown(a, c, x)
    {
      assert Grown(a, b, x) && Grown(b, c, x);
    }
  }

  lemma {:induction false} RunGrows(sha: Sha, ops: seq<Op>, m: nat, n: nat)
    requires LegalHistory(sha, ops) && m <= n <= |ops|
    ensures AllGrown(Run(sha, ops, m), Run(sha, ops, n))
  {
    hide Apply, Legal, Grown;
    if m < n {
      assert LegalAt(sha, ops, n - 1);
      RunGrows(sha, ops, m, n - 1);
      ApplyGrows(sha, Run(sha, ops, n - 1), ops[n - 1]);
      GrowthComposes(Run(sha, ops, m), Run(sha, ops, n - 1), Run(sha, ops, n));
    } else {
      GrowthStarts(Run(sha, ops, m));
    }
  }

  lemma GrowthStarts(st: State)
    ensures AllGrown(st, st)
  {
  }

  lemma LogKeptOnce(sha: Sha, st: State, op: Op, id: Id)
    requires Legal(st, op) && id in st.aggregates && (op.AppendOp? ==> op.id != id)
    ensures Log(Apply(sha, st, op), id) == Log(st, id)
  {
    hide AppendFrom;
    if op.AppendOp? {
      var start := Create(st, op.id);
      AppendFromFrame(sha, start, op.id, op.batch, 0, ChainHead(sha, start, op.id));
    }
  }

  /** Only appends to the session itself touch its own events. */
  lemma {:induction false} LogKept(sha: Sha, ops: seq<Op>, m: nat, n: nat, id: Id)
    requires LegalHistory(sha, ops) && m <= n <= |ops| && id in Run(sha, ops, m).aggregates
    requires forall i | m <= i < n :: ops[i].AppendOp? ==> ops[i].id != id
    ensures Log(Run(sha, ops, n), id) == Log(Run(sha, ops, m), id)
  {
    hide Apply, Legal, Grown, Log;
    if m < n {
      assert LegalAt(sha, ops, n - 1);
      LogKept(sha, ops, m, n - 1, id);
      RunGrows(sha, ops, m, n - 1);
      LogKeptOnce(sha, Run(sha, ops, n - 1), ops[n - 1], id);
    }
  }

  /**
    At every point of every legal history the timeline of every session is numbered 1..head;
    whatever follows only appends to it, and leaves it as it is unless the session itself is
    appended to. Appends to ancestors, and later forks, never show.
   */
  lemma EveryTimelineHolds(sha: Sha, ops: seq<Op>, m: nat, n: nat, id: Id)
    requires LegalHistory(sha, ops) && m <= n <= |ops| && id in Run(sha, ops, m).aggregates
    ensures Forest(Run(sha, ops, m), Born(ops, m)) && Forest(Run(sha, ops, n), Born(ops, n))
    ensures id in Run(sha, ops, n).aggregates
    ensures var before := Compose(Run(sha, ops, m), Born(ops, m), id);
            var after := Compose(Run(sha, ops, n), Born(ops, n), id);
            && |before| == Run(sha, ops, m).aggregates[id].head
            && (forall i | 0 <= i < |before| :: before[i].at == 1 + i)
            && before <= after
            && ((forall i | m <= i < n :: ops[i].AppendOp? ==> ops[i].id != id) ==> after == before)
  {
    hide Run, Sound, Numbered, Forest, Born, Compose, LegalHistory;
    RunIsSound(sha, ops, m);
    RunIsSound(sha, ops, n);
    RunIsForest(sha, ops, m);
    RunIsForest(sha, ops, n);
    SoundIsNumbered(sha, Run(sha, ops, m));
    SoundIsNumbered(sha, Run(sha, ops, n));
    RunGrows(sha, ops, m, n);
    ComposedIsContiguous(Run(sha, ops, m), Born(ops, m), id);
    ComposeExtends(Run(sha, ops, m), Born(ops, m), Run(sha, ops, n), Born(ops, n), id);
    if forall i | m <= i < n :: ops[i].AppendOp? ==> ops[i].id != id {
      LogKept(sha, ops, m, n, id);
    }
  }
}
