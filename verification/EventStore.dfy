/**
  The in-memory event store: sessions, their running chain heads, fork lineage and the tail
  channels of live subscribers.
 */
module StoreModel {
  import opened Hashing
  import opened EventChain

  type Id = Bytes
  type Chan = nat

  const TAIL_CAPACITY: nat := 256

  datatype Session = Session(parent: Option<Id>, forkedFrom: int, head: int)

  datatype State = State(sessions: map<Id, seq<Envelope>>, aggregates: map<Id, Session>, heads: map<Id, Bytes>,
                         subscribers: map<Id, seq<Chan>>, tails: map<Chan, seq<Envelope>>)

  const EMPTY: State := State(map[], map[], map[], map[], map[])

  function Log(st: State, id: Id): seq<Envelope> {
    if id in st.sessions then st.sessions[id] else []
  }

  function ChainHead(sha: Sha, st: State, id: Id): Bytes {
    if id in st.heads then st.heads[id] else GenesisChainHash(sha, id)
  }

  function Subscribed(st: State, id: Id): seq<Chan> {
    if id in st.subscribers then st.subscribers[id] else []
  }

  function Tail(tails: map<Chan, seq<Envelope>>, c: Chan): seq<Envelope> {
    if c in tails then tails[c] else []
  }

  function Create(st: State, id: Id): State {
    if id in st.aggregates then st else st.(aggregates := st.aggregates[id := Session(None, 0, 0)])
  }

  /** A send that gives up on a full channel. */
  function Offer(queue: seq<Envelope>, e: Envelope): seq<Envelope> {
    if |queue| < TAIL_CAPACITY then queue + [e] else queue
  }

  function Fanout(tails: map<Chan, seq<Envelope>>, subs: seq<Chan>, i: nat, e: Envelope): map<Chan, seq<Envelope>>
    requires i <= |subs|
    decreases |subs| - i
  {
    if i == |subs| then tails else Fanout(tails[subs[i] := Offer(Tail(tails, subs[i]), e)], subs, i + 1, e)
  }

  /** The envelope of the next event: `head` is the sequence number it takes. */
  function Sealed(sha: Sha, head: int, payload: Bytes, prev: Bytes): Envelope {
    Envelope(head, Some(payload), Some(payload), Some(sha(payload)), Some(ChainHash(sha, prev, sha(payload))))
  }

  function Bump(st: State, id: Id): State
    requires id in st.aggregates
  {
    st.(aggregates := st.aggregates[id := st.aggregates[id].(head := st.aggregates[id].head + 1)])
  }

  function Push(st: State, id: Id, e: Envelope): State {
    st.(sessions := st.sessions[id := Log(st, id) + [e]], tails := Fanout(st.tails, Subscribed(st, id), 0, e))
  }

  /** Events i.. of a batch; None is an event that does not marshal, which is noticed after its number is taken. */
  function AppendFrom(sha: Sha, st: State, id: Id, batch: seq<Option<Bytes>>, i: nat, prev: Bytes): (State, bool)
    requires id in st.aggregates && i <= |batch|
    decreases |batch| - i
  {
    if i == |batch| then (st.(heads := st.heads[id := prev]), true) else
    var bumped := Bump(st, id);
    if batch[i].None? then (bumped, false) else
    var e := Sealed(sha, bumped.aggregates[id].head, batch[i].value, prev);
    AppendFrom(sha, Push(bumped, id, e), id, batch, i + 1, e.chain.value)
  }

  function Append(sha: Sha, st: State, id: Id, batch: seq<Option<Bytes>>): (State, bool) {
    var st := Create(st, id);
    AppendFrom(sha, st, id, batch, 0, ChainHead(sha, st, id))
  }

  lemma AppendStarts(sha: Sha, st: State, id: Id, batch: seq<Option<Bytes>>)
    ensures var start := Create(st, id);
            Append(sha, st, id, batch) == AppendFrom(sha, start, id, batch, 0, ChainHead(sha, start, id))
  {
  }

  lemma AppendStep(sha: Sha, st: State, id: Id, batch: seq<Option<Bytes>>, i: nat, prev: Bytes)
    requires id in st.aggregates && i < |batch|
    ensures var bumped := Bump(st, id);
            AppendFrom(sha, st, id, batch, i, prev) ==
            if batch[i].None? then (bumped, false) else
            var e := Sealed(sha, bumped.aggregates[id].head, batch[i].value, prev);
            AppendFrom(sha, Push(bumped, id, e), id, batch, i + 1, e.chain.value)
  {
  }

  lemma AppendEnds(sha: Sha, st: State, id: Id, batch: seq<Option<Bytes>>, prev: Bytes)
    requires id in st.aggregates
    ensures AppendFrom(sha, st, id, batch, |batch|, prev) == (st.(heads := st.heads[id := prev]), true)
  {
  }

  function Fork(st: State, parent: Id, atSeq: int, child: Id): State {
    st.(aggregates := st.aggregates[child := Session(Some(parent), atSeq, atSeq)], sessions := st.sessions[child := []])
  }

  function Register(st: State, id: Id, c: Chan): State {
    st.(subscribers := st.subscribers[id := Subscribed(st, id) + [c]], tails := st.tails[c := []])
  }

  /** The list without its first occurrence of c at or after i. */
  function Without(subs: seq<Chan>, c: Chan, i: nat): seq<Chan>
    requires i <= |subs|
    decreases |subs| - i
  {
    if i == |subs| then subs
    else if subs[i] == c then subs[..i] + subs[i + 1..]
    else Without(subs, c, i + 1)
  }

  function Unregister(st: State, id: Id, c: Chan): State {
    st.(subscribers := st.subscribers[id := Without(Subscribed(st, id), c, 0)])
  }

  /** Without takes out the first occurrence and nothing else. */
  lemma {:induction false} WithoutIsFirst(subs: seq<Chan>, c: Chan, i: nat) returns (k: nat)
    requires i <= |subs|
    ensures i <= k <= |subs| && c !in subs[i..k] && (k < |subs| ==> subs[k] == c)
    ensures Without(subs, c, i) == if k == |subs| then subs else subs[..k] + subs[k + 1..]
    decreases |subs| - i
  {
    if i == |subs| || subs[i] == c {
      k := i;
    } else {
      k := WithoutIsFirst(subs, c, i + 1);
      assert subs[i..k] == [subs[i]] + subs[i + 1..k];
    }
  }

  lemma WithoutLosesOne(subs: seq<Chan>, c: Chan)
    ensures c in subs ==> multiset(Without(subs, c, 0)) + multiset{c} == multiset(subs)
    ensures c !in subs ==> Without(subs, c, 0) == subs
  {
    hide Without;
    var k := WithoutIsFirst(subs, c, 0);
    if k < |subs| {
      assert subs == subs[..k] + [c] + subs[k + 1..];
    } else {
      assert subs[0..k] == subs;
    }
  }

  // ---- Reads ----

  /** The events among the first n numbered at most atSeq. */
  function UpTo(all: seq<Envelope>, n: nat, atSeq: int): seq<Envelope>
    requires n <= |all|
  {
    if n == 0 then [] else
    UpTo(all, n - 1, atSeq) + (if all[n - 1].at <= atSeq then [all[n - 1]] else [])
  }

  /** The events among the first n numbered above afterSeq. */
  function Above(all: seq<Envelope>, n: nat, afterSeq: int): seq<Envelope>
    requires n <= |all|
  {
    if n == 0 then [] else
    Above(all, n - 1, afterSeq) + (if all[n - 1].at > afterSeq then [all[n - 1]] else [])
  }

  function Filter(s: seq<Envelope>, fromSeq: int): seq<Envelope> {
    Above(s, |s|, fromSeq)
  }

  /** At most limit of them; no limit when it is not positive. */
  function Capped(all: seq<Envelope>, limit: int): seq<Envelope> {
    if 0 < limit < |all| then all[..limit] else all
  }

  lemma {:induction false} UpToMembers(all: seq<Envelope>, n: nat, atSeq: int)
    requires n <= |all|
    ensures forall e :: e in UpTo(all, n, atSeq) <==> e in all[..n] && e.at <= atSeq
  {
    if n > 0 {
      UpToMembers(all, n - 1, atSeq);
      assert all[..n] == all[..n - 1] + [all[n - 1]];
    }
  }

  lemma {:induction false} AboveMembers(all: seq<Envelope>, n: nat, afterSeq: int)
    requires n <= |all|
    ensures forall e :: e in Above(all, n, afterSeq) <==> e in all[..n] && e.at > afterSeq
  {
    if n > 0 {
      AboveMembers(all, n - 1, afterSeq);
      assert all[..n] == all[..n - 1] + [all[n - 1]];
    }
  }

  lemma {:induction false} NothingAbove(s: seq<Envelope>, n: nat, bound: int)
    requires n <= |s| && forall i | 0 <= i < n :: s[i].at <= bound
    ensures Above(s, n, bound) == []
  {
    if n > 0 {
      NothingAbove(s, n - 1, bound);
    }
  }

  /** In an ascending log, reading up to a number and reading on from it give the log, once each, in order. */
  lemma {:induction false} ReadsJoin(all: seq<Envelope>, n: nat, at: int)
    requires Ascending(all) && n <= |all|
    ensures UpTo(all, n, at) + Above(all, n, at) == all[..n]
  {
    if n > 0 {
      ReadsJoin(all, n - 1, at);
      assert all[..n] == all[..n - 1] + [all[n - 1]];
      if all[n - 1].at <= at {
        NothingAbove(all, n - 1, at);
      }
    }
  }

  /** What a read from afterSeq with a limit returns: the events above it, cut after limit of them when that is positive. */
  lemma RangeIsPrefix(all: seq<Envelope>, afterSeq: int, limit: int)
    ensures var rows, above := Capped(Above(all, |all|, afterSeq), limit), Above(all, |all|, afterSeq);
            && rows <= above
            && (limit <= 0 ==> rows == above)
            && (limit > 0 ==> |rows| <= limit && (|rows| < limit ==> rows == above))
  {
  }

  // ---- Ascending logs ----

  ghost predicate Ascending(s: seq<Envelope>) {
    forall i, j | 0 <= i < j < |s| :: s[i].at < s[j].at
  }

  lemma {:induction false} FilterAppends(a: seq<Envelope>, b: seq<Envelope>, n: nat, fromSeq: int)
    requires n <= |b|
    ensures Above(a + b, |a| + n, fromSeq) == Above(a, |a|, fromSeq) + Above(b, n, fromSeq)
    decreases n
  {
    if n == 0 {
      AboveOfPrefix(a + b, a, |a|, fromSeq);
    } else {
      FilterAppends(a, b, n - 1, fromSeq);
      assert (a + b)[|a| + n - 1] == b[n - 1];
    }
  }

  lemma {:induction false} AboveOfPrefix(s: seq<Envelope>, p: seq<Envelope>, n: nat, fromSeq: int)
    requires p <= s && n <= |p|
    ensures Above(s, n, fromSeq) == Above(p, n, fromSeq)
  {
    if n > 0 {
      AboveOfPrefix(s, p, n - 1, fromSeq);
    }
  }

  lemma FilterSnoc(s: seq<Envelope>, e: Envelope, fromSeq: int)
    ensures Filter(s + [e], fromSeq) == Filter(s, fromSeq) + if e.at > fromSeq then [e] else []
  {
    AboveOfPrefix(s + [e], s, |s|, fromSeq);
  }
}

module DevStore {
  import opened Hashing
  import opened EventChain
  import opened StoreModel

  class Store {
    const sha: Sha
    var sessions: map<Id, seq<Envelope>>
    var aggregates: map<Id, Session>
    var chainHead: map<Id, Bytes>
    var subscribers: map<Id, seq<Chan>>
    var tails: map<Chan, seq<Envelope>>
    var nextChan: Chan

    ghost function St(): State
      reads this
    {
      State(sessions, aggregates, chainHead, subscribers, tails)
    }

    /** Every channel in use was handed out before the next one. */
    ghost predicate Fresh()
      reads this`subscribers, this`tails, this`nextChan
    {
      && (forall c | c in tails :: c < nextChan)
      && (forall id, c | id in subscribers && c in subscribers[id] :: c < nextChan)
    }

    constructor (sha: Sha)
      ensures St() == EMPTY && this.sha == sha && Fresh()
    {
      this.sha := sha;
      sessions, aggregates, chainHead, subscribers, tails := map[], map[], map[], map[], map[];
      nextChan := 0;
    }

    method CreateSession(id: Id) returns (agg: Session)
      modifies this`aggregates
      ensures St() == Create(old(St()), id) && Log(St(), id) == old(Log(St(), id))
      ensures id in aggregates && id in St().aggregates && agg == aggregates[id]
    {
      if id !in aggregates {
        aggregates := aggregates[id := Session(None, 0, 0)];
      }
      agg := aggregates[id];
    }

    /** The envelopes stored, or None when an event did not marshal. */
    method AppendBatch(id: Id, batch: seq<Option<Bytes>>) returns (stored: Option<seq<Envelope>>)
      modifies this`sessions, this`aggregates, this`chainHead, this`tails
      ensures (St(), stored.Some?) == Append(sha, old(St()), id, batch)
      ensures stored.Some? ==> Log(St(), id) == Log(old(St()), id) + stored.value
      ensures old(Fresh()) ==> Fresh()
    {
      hide AppendFrom, Append, Push, Sealed, Bump, Create, ChainHead, Log, St, Fresh;
      AppendStarts(sha, St(), id, batch);
      var agg := CreateSession(id);
      ghost var start := St();
      var prev := RunningHead(id);
      var envelopes := [];
      for i := 0 to |batch|
        invariant id in aggregates && id in St().aggregates
        invariant AppendFrom(sha, St(), id, batch, i, prev) == AppendFrom(sha, start, id, batch, 0, ChainHead(sha, start, id))
        invariant Log(St(), id) == Log(start, id) + envelopes
        invariant old(Fresh()) ==> Fresh()
      {
        AppendStep(sha, St(), id, batch, i, prev);
        TakeNumber(id);
        if batch[i].None? {
          return None;
        }
        var e := StoreEvent(id, batch[i].value, prev);
        envelopes := envelopes + [e];
        prev := e.chain.value;
      }
      AppendEnds(sha, St(), id, batch, prev);
      SaveHead(id, prev);
      stored := Some(envelopes);
    }

    method RunningHead(id: Id) returns (prev: Bytes)
      ensures prev == ChainHead(sha, St(), id)
    {
      prev := if id in chainHead then chainHead[id] else GenesisChainHash(sha, id);
    }

    method SaveHead(id: Id, prev: Bytes)
      modifies this`chainHead
      ensures St() == old(St()).(heads := old(St()).heads[id := prev]) && Log(St(), id) == old(Log(St(), id))
    {
      chainHead := chainHead[id := prev];
    }

    method TakeNumber(id: Id)
      requires id in aggregates && id in St().aggregates
      modifies this`aggregates
      ensures St() == Bump(old(St()), id) && Log(St(), id) == old(Log(St(), id))
      ensures id in aggregates && id in St().aggregates && St().aggregates[id].head == aggregates[id].head
    {
      aggregates := aggregates[id := aggregates[id].(head := aggregates[id].head + 1)];
    }

    /** The part of one iteration that follows a successful marshal. */
    method StoreEvent(id: Id, payload: Bytes, prev: Bytes) returns (e: Envelope)
      requires id in aggregates
      modifies this`sessions, this`tails
      ensures e == Sealed(sha, aggregates[id].head, payload, prev) && e.chain.Some?
      ensures St() == Push(old(St()), id, e) && id in St().aggregates
      ensures Log(St(), id) == Log(old(St()), id) + [e]
      ensures old(Fresh()) ==> Fresh()
    {
      var content := sha(payload);
      e := Envelope(aggregates[id].head, Some(payload), Some(payload), Some(content), Some(ChainHash(sha, prev, content)));
      sessions := sessions[id := (if id in sessions then sessions[id] else []) + [e]];
      FanoutEvent(id, e);
    }

    method FanoutEvent(id: Id, e: Envelope)
      modifies this`tails
      ensures tails == Fanout(old(tails), Subscribed(old(St()), id), 0, e)
      ensures old(Fresh()) ==> Fresh()
    {
      var subs := if id in subscribers then subscribers[id] else [];
      for i := 0 to |subs|
        invariant Fanout(tails, subs, i, e) == Fanout(old(tails), subs, 0, e)
        invariant forall c | c in tails :: c in old(tails) || c in subs
      {
        var queue := if subs[i] in tails then tails[subs[i]] else [];
        if |queue| < TAIL_CAPACITY {
          queue := queue + [e];
        }
        tails := tails[subs[i] := queue];
      }
    }

    method ForkSession(parent: Id, atSeq: int, child: Id) returns (agg: Session)
      modifies this`aggregates, this`sessions
      ensures St() == Fork(old(St()), parent, atSeq, child)
      ensures agg == aggregates[child]
    {
      agg := Session(Some(parent), atSeq, atSeq);
      aggregates := aggregates[child := agg];
      sessions := sessions[child := []];
    }

    /** Snapshot and registration under one lock. */
    method Subscribe(id: Id) returns (c: Chan, snapshot: seq<Envelope>)
      requires Fresh()
      modifies this`subscribers, this`tails, this`nextChan
      ensures Fresh() && c !in old(tails) && forall x :: c !in Subscribed(old(St()), x)
      ensures snapshot == Log(old(St()), id) && St() == Register(old(St()), id, c)
    {
      snapshot := if id in sessions then sessions[id] else [];
      c := nextChan;
      nextChan := nextChan + 1;
      tails := tails[c := []];
      subscribers := subscribers[id := (if id in subscribers then subscribers[id] else []) + [c]];
    }

    method Unsubscribe(id: Id, c: Chan)
      modifies this`subscribers
      ensures forall x :: Subscribed(St(), x) == Subscribed(Unregister(old(St()), id, c), x)
      ensures St() == old(St()).(subscribers := subscribers)
      ensures old(Fresh()) ==> Fresh()
    {
      var subs := if id in subscribers then subscribers[id] else [];
      for i := 0 to |subs|
        invariant Without(subs, c, i) == Without(subs, c, 0)
      {
        if subs[i] == c {
          var rest := subs[..i] + subs[i + 1..];
          assert forall x | x in rest :: x in subs;
          subscribers := subscribers[id := rest];
          break;
        }
      }
    }

    method LoadUpTo(id: Id, atSeq: int) returns (out: seq<Envelope>)
      ensures out == UpTo(Log(St(), id), |Log(St(), id)|, atSeq)
    {
      var all := if id in sessions then sessions[id] else [];
      out := [];
      for i := 0 to |all|
        invariant out == UpTo(all, i, atSeq)
      {
        if all[i].at <= atSeq {
          out := out + [all[i]];
        }
      }
    }

    method LoadRange(id: Id, afterSeq: int, limit: int) returns (out: seq<Envelope>)
      ensures out == Capped(Above(Log(St(), id), |Log(St(), id)|, afterSeq), limit)
    {
      var all := if id in sessions then sessions[id] else [];
      out := [];
      for i := 0 to |all|
        invariant out == Above(all, i, afterSeq)
        invariant limit > 0 ==> |out| < limit
      {
        if all[i].at > afterSeq {
          out := out + [all[i]];
          if limit > 0 && |out| >= limit {
            AboveGrows(all, i + 1, |all|, afterSeq);
            return;
          }
        }
      }
    }

    method Verify(id: Id, fromSeq: int, toSeq: int) returns (v: Verdict)
      ensures v == EventChain.Verify(sha, id, Log(St(), id), fromSeq, toSeq)
    {
      v := VerifyChainIntegrity(sha, id, if id in sessions then sessions[id] else [], fromSeq, toSeq);
    }
  }

  lemma {:induction false} AboveGrows(all: seq<Envelope>, n: nat, m: nat, afterSeq: int)
    requires n <= m <= |all|
    ensures Above(all, n, afterSeq) <= Above(all, m, afterSeq)
  {
    if n < m {
      AboveGrows(all, n, m - 1, afterSeq);
    }
  }
}
