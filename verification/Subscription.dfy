/**
  One subscriber of one session: a snapshot taken when its tail channel is registered, then
  the tail. Appends proceed event by event, so the relay may run between any two of them.
 */
module Subscription {
  import opened Hashing
  import opened EventChain
  import opened StoreModel
  import StoreHistories

  /** `hand` is an event taken from the tail channel and not yet delivered. */
  datatype Relay = Relay(id: Id, chan: Chan, fromSeq: int, snapshot: seq<Envelope>, pos: nat,
                         hand: Option<Envelope>, seen: int, out: seq<Envelope>)

  /** `kept[i]` records whether the i-th event appended since the snapshot found room in the channel. */
  datatype World = World(st: State, relay: Relay, kept: seq<bool>)

  datatype Step =
    | Touch(x: Id)
    | Put(x: Id, payload: Bytes, prev: Bytes)
    | Waste(x: Id)
    | Save(x: Id, prev: Bytes)
    | Branch(parent: Id, atSeq: int, x: Id)
    | Join(x: Id, c: Chan)
    | Leave(x: Id, c: Chan)
    | Drain(c: Chan)
    | Replay
    | Receive
    | Send

  function StoreStep(sha: Sha, st: State, step: Step): State {
    match step
    case Touch(x) => Create(st, x)
    case Put(x, payload, prev) =>
      if x !in st.aggregates then st
      else Push(Bump(st, x), x, Sealed(sha, st.aggregates[x].head + 1, payload, prev))
    case Waste(x) => if x !in st.aggregates then st else Bump(st, x)
    case Save(x, prev) => st.(heads := st.heads[x := prev])
    case Branch(parent, atSeq, x) => Fork(st, parent, atSeq, x)
    case Join(x, c) => Register(st, x, c)
    case Leave(x, c) => Unregister(st, x, c)
    case Drain(c) => if Tail(st.tails, c) == [] then st else st.(tails := st.tails[c := st.tails[c][1..]])
    case _ => st
  }

  function Deliver(r: Relay, e: Envelope): Relay {
    r.(out := r.out + [e], seen := e.at)
  }

  function RelayStep(st: State, r: Relay, step: Step): (State, Relay) {
    if step.Replay? && r.pos < |r.snapshot| then
      var e := r.snapshot[r.pos];
      var next := r.(pos := r.pos + 1);
      (st, if e.at <= r.fromSeq then next else Deliver(next, e))
    else if step.Receive? && r.pos == |r.snapshot| && r.hand.None? && Tail(st.tails, r.chan) != [] then
      var e := st.tails[r.chan][0];
      (st.(tails := st.tails[r.chan := st.tails[r.chan][1..]]), if e.at <= r.seen then r else r.(hand := Some(e)))
    else if step.Send? && r.hand.Some? then
      (st, Deliver(r, r.hand.value).(hand := None))
    else (st, r)
  }

  function Exec(sha: Sha, w: World, step: Step): World {
    if step.Replay? || step.Receive? || step.Send? then
      var (st, r) := RelayStep(w.st, w.relay, step);
      World(st, r, w.kept)
    else if step.Put? && step.x == w.relay.id && step.x in w.st.aggregates then
      World(StoreStep(sha, w.st, step), w.relay, w.kept + [|Tail(w.st.tails, w.relay.chan)| < TAIL_CAPACITY])
    else
      World(StoreStep(sha, w.st, step), w.relay, w.kept)
  }

  /** A fork names a new session; other subscribers have channels of their own. */
  predicate Legal(w: World, step: Step) {
    && (step.Branch? ==> step.x !in w.st.aggregates)
    && (step.Join? || step.Leave? || step.Drain? ==> step.c != w.relay.chan)
  }

  function Run(sha: Sha, w: World, steps: seq<Step>, n: nat): World
    requires n <= |steps|
  {
    if n == 0 then w else Exec(sha, Run(sha, w, steps, n - 1), steps[n - 1])
  }

  predicate LegalAt(sha: Sha, w: World, steps: seq<Step>, i: nat)
    requires i < |steps|
  {
    Legal(Run(sha, w, steps, i), steps[i])
  }

  predicate LegalRun(sha: Sha, w: World, steps: seq<Step>) {
    forall i {:trigger LegalAt(sha, w, steps, i)} | 0 <= i < |steps| :: LegalAt(sha, w, steps, i)
  }

  function Start(st: State, id: Id, c: Chan, fromSeq: int): World {
    World(Register(st, id, c), Relay(id, c, fromSeq, Log(st, id), 0, None, fromSeq, []), [])
  }

  // ---- An append is a sequence of such steps ----

  function BatchSteps(sha: Sha, id: Id, batch: seq<Option<Bytes>>, i: nat, prev: Bytes): seq<Step>
    requires i <= |batch|
    decreases |batch| - i
  {
    if i == |batch| then [Save(id, prev)]
    else if batch[i].None? then [Waste(id)]
    else [Put(id, batch[i].value, prev)]
         + BatchSteps(sha, id, batch, i + 1, ChainHash(sha, prev, sha(batch[i].value)))
  }

  function StoreRun(sha: Sha, st: State, steps: seq<Step>): State
    decreases |steps|
  {
    if steps == [] then st else StoreRun(sha, StoreStep(sha, st, steps[0]), steps[1..])
  }

  lemma {:induction false} AppendIsSteps(sha: Sha, st: State, id: Id, batch: seq<Option<Bytes>>, i: nat, prev: Bytes)
    requires id in st.aggregates && i <= |batch|
    ensures StoreRun(sha, st, BatchSteps(sha, id, batch, i, prev)) == AppendFrom(sha, st, id, batch, i, prev).0
    decreases |batch| - i
  {
    hide Push, ChainHash, StoreRun, StoreStep;
    if i < |batch| && batch[i].Some? {
      var link := ChainHash(sha, prev, sha(batch[i].value));
      var put, rest := Put(id, batch[i].value, prev), BatchSteps(sha, id, batch, i + 1, link);
      PutTracks(sha, st, id, batch[i].value, prev);
      RunCons(sha, st, put, rest);
      AppendIsSteps(sha, StoreStep(sha, st, put), id, batch, i + 1, link);
    } else {
      RunLast(sha, st, BatchSteps(sha, id, batch, i, prev)[0]);
      LastStep(sha, st, id, prev);
    }
  }

  lemma RunCons(sha: Sha, st: State, step: Step, rest: seq<Step>)
    ensures StoreRun(sha, st, [step] + rest) == StoreRun(sha, StoreStep(sha, st, step), rest)
  {
    hide StoreStep;
    assert ([step] + rest)[1..] == rest;
  }

  lemma RunLast(sha: Sha, st: State, step: Step)
    ensures StoreRun(sha, st, [step]) == StoreStep(sha, st, step)
  {
    hide StoreStep;
    assert StoreRun(sha, StoreStep(sha, st, step), []) == StoreStep(sha, st, step);
  }

  lemma LastStep(sha: Sha, st: State, id: Id, prev: Bytes)
    requires id in st.aggregates
    ensures StoreStep(sha, st, Waste(id)) == Bump(st, id)
    ensures StoreStep(sha, st, Save(id, prev)) == st.(heads := st.heads[id := prev])
  {
  }

  lemma PutTracks(sha: Sha, st: State, id: Id, payload: Bytes, prev: Bytes)
    requires id in st.aggregates
    ensures var e := Sealed(sha, Bump(st, id).aggregates[id].head, payload, prev);
            && StoreStep(sha, st, Put(id, payload, prev)) == Push(Bump(st, id), id, e)
            && id in Push(Bump(st, id), id, e).aggregates
  {
  }

  // ---- Stores whose logs ascend ----

  /** The logs of a store ascend and stay at or below the session's head; gaps are allowed. */
  ghost predicate Ordered(st: State) {
    && st.sessions.Keys <= st.aggregates.Keys
    && forall x | x in st.sessions ::
         Ascending(st.sessions[x]) && forall e | e in st.sessions[x] :: e.at <= st.aggregates[x].head
  }

  lemma SoundIsOrdered(sha: Sha, st: State)
    requires StoreHistories.Sound(sha, st)
    ensures Ordered(st)
  {
    hide Honest;
    forall x | x in st.sessions
      ensures Ascending(st.sessions[x]) && forall e | e in st.sessions[x] :: e.at <= st.aggregates[x].head
    {
      assert StoreHistories.SoundSession(sha, st, x);
      assert Contiguous(st.sessions[x], st.aggregates[x].forkedFrom);
    }
  }

  lemma PutOrdered(st: State, x: Id, e: Envelope)
    requires Ordered(st) && x in st.aggregates && e.at == st.aggregates[x].head + 1
    ensures Ordered(Push(Bump(st, x), x, e))
  {
    hide Fanout;
    var st' := Push(Bump(st, x), x, e);
    assert st'.sessions == st.sessions[x := Log(st, x) + [e]];
    assert st'.aggregates.Keys == st.aggregates.Keys;
  }

  lemma StepOrdered(sha: Sha, st: State, step: Step)
    requires Ordered(st) && (step.Branch? ==> step.x !in st.aggregates)
    ensures Ordered(StoreStep(sha, st, step))
  {
    hide Fanout, Without;
    match step
    case Put(x, payload, prev) =>
      if x in st.aggregates {
        PutOrdered(st, x, Sealed(sha, st.aggregates[x].head + 1, payload, prev));
      }
    case Branch(parent, atSeq, x) => BranchOrdered(st, parent, atSeq, x);
    case Waste(x) => if x in st.aggregates { WasteOrdered(st, x); }
    case _ =>
  }

  lemma BranchOrdered(st: State, parent: Id, atSeq: int, x: Id)
    requires Ordered(st)
    ensures Ordered(Fork(st, parent, atSeq, x))
  {
  }

  lemma WasteOrdered(st: State, x: Id)
    requires Ordered(st) && x in st.aggregates
    ensures Ordered(Bump(st, x))
  {
  }

  // ---- Which channels a fan-out reaches ----

  function Count(subs: seq<Chan>, i: nat, c: Chan): nat
    requires i <= |subs|
    decreases |subs| - i
  {
    if i == |subs| then 0 else (if subs[i] == c then 1 else 0) + Count(subs, i + 1, c)
  }

  lemma {:induction false} FanoutTail(tails: map<Chan, seq<Envelope>>, subs: seq<Chan>, i: nat, e: Envelope, c: Chan)
    requires i <= |subs| && Count(subs, i, c) <= 1
    ensures Tail(Fanout(tails, subs, i, e), c) == if Count(subs, i, c) == 1 then Offer(Tail(tails, c), e) else Tail(tails, c)
    decreases |subs| - i
  {
    if i < |subs| {
      FanoutTail(tails[subs[i] := Offer(Tail(tails, subs[i]), e)], subs, i + 1, e, c);
    }
  }

  lemma {:induction false} CountSnoc(subs: seq<Chan>, i: nat, c: Chan, d: Chan)
    requires i <= |subs|
    ensures Count(subs + [d], i, c) == Count(subs, i, c) + if d == c then 1 else 0
    decreases |subs| - i
  {
    if i < |subs| {
      CountSnoc(subs, i + 1, c, d);
    }
  }

  lemma {:induction false} CountIsMultiplicity(subs: seq<Chan>, i: nat, c: Chan)
    requires i <= |subs|
    ensures Count(subs, i, c) == multiset(subs[i..])[c]
    decreases |subs| - i
  {
    if i < |subs| {
      CountIsMultiplicity(subs, i + 1, c);
      assert subs[i..] == [subs[i]] + subs[i + 1..];
    }
  }

  /** Removing a channel takes one of its occurrences away and leaves every other channel as it is. */
  lemma CountWithout(subs: seq<Chan>, c: Chan, d: Chan)
    ensures Count(Without(subs, d, 0), 0, c) == Count(subs, 0, c) - if c == d && c in subs then 1 else 0
  {
    hide Count, Without;
    var rest := Without(subs, d, 0);
    CountIsMultiplicity(subs, 0, c);
    CountIsMultiplicity(rest, 0, c);
    assert subs[0..] == subs && rest[0..] == rest;
    WithoutLosesOne(subs, d);
  }

  // ---- What is delivered ----

  /** The events of the log above fromSeq that are in the snapshot or found room. */
  function Expected(log: seq<Envelope>, n: nat, kept: seq<bool>, fromSeq: int, i: nat): seq<Envelope>
    requires i <= |log| && |log| == n + |kept|
  {
    if i == 0 then [] else
    Expected(log, n, kept, fromSeq, i - 1)
    + (if log[i - 1].at > fromSeq && (i <= n || kept[i - 1 - n]) then [log[i - 1]] else [])
  }

  function InHand(r: Relay): seq<Envelope> {
    if r.hand.Some? then [r.hand.value] else []
  }

  /** What is still on its way to the subscriber. */
  function Pending(w: World): seq<Envelope>
    requires w.relay.pos <= |w.relay.snapshot|
  {
    Filter(w.relay.snapshot[w.relay.pos..], w.relay.fromSeq)
    + (InHand(w.relay) + Filter(Tail(w.st.tails, w.relay.chan), w.relay.fromSeq))
  }

  predicate Absent(st: State, x: Id, c: Chan) {
    Count(Subscribed(st, x), 0, c) == 0
  }

  /** Channel c is subscribed once, to this session only. */
  ghost predicate Registered(st: State, id: Id, c: Chan) {
    Count(Subscribed(st, id), 0, c) == 1 && forall x | x != id :: Absent(st, x, c)
  }

  ghost predicate Consistent(w: World) {
    var r := w.relay;
    && Ordered(w.st)
    && |Log(w.st, r.id)| == |r.snapshot| + |w.kept| && r.snapshot <= Log(w.st, r.id)
    && r.pos <= |r.snapshot| && (r.hand.Some? ==> r.pos == |r.snapshot|)
    && r.seen == (if r.out == [] then r.fromSeq else r.out[|r.out| - 1].at)
  }

  ghost predicate Balanced(w: World)
    requires Consistent(w)
  {
    w.relay.out + Pending(w)
    == Expected(Log(w.st, w.relay.id), |w.relay.snapshot|, w.kept, w.relay.fromSeq, |Log(w.st, w.relay.id)|)
  }

  ghost predicate Inv(w: World) {
    Registered(w.st, w.relay.id, w.relay.chan) && Consistent(w) && Balanced(w)
  }

  // ---- Facts about Filter and Expected ----

  lemma FilterHead(s: seq<Envelope>, fromSeq: int)
    requires s != []
    ensures Filter(s, fromSeq) == (if s[0].at > fromSeq then [s[0]] else []) + Filter(s[1..], fromSeq)
  {
    FilterAppends([s[0]], s[1..], |s| - 1, fromSeq);
    assert [s[0]] + s[1..] == s;
    assert Above([s[0]], 1, fromSeq) == Above([s[0]], 0, fromSeq) + if s[0].at > fromSeq then [s[0]] else [];
  }

  lemma {:induction false} ExpectedFrame(log: seq<Envelope>, n: nat, kept: seq<bool>, fromSeq: int, i: nat, e: Envelope, room: bool)
    requires i <= |log| && |log| == n + |kept|
    ensures Expected(log + [e], n, kept + [room], fromSeq, i) == Expected(log, n, kept, fromSeq, i)
  {
    if i > 0 {
      ExpectedFrame(log, n, kept, fromSeq, i - 1, e, room);
    }
  }

  /** Strictly increasing, above fromSeq, from the log. */
  lemma {:induction false} ExpectedAscends(log: seq<Envelope>, n: nat, kept: seq<bool>, fromSeq: int, i: nat)
    requires i <= |log| && |log| == n + |kept| && Ascending(log)
    ensures var s := Expected(log, n, kept, fromSeq, i);
            Ascending(s) && forall e | e in s :: e.at > fromSeq && e in log && e.at <= log[i - 1].at
  {
    if i > 0 {
      ExpectedAscends(log, n, kept, fromSeq, i - 1);
    }
  }

  lemma {:induction false} ExpectedSnapshot(log: seq<Envelope>, fromSeq: int, i: nat)
    requires i <= |log|
    ensures Expected(log, |log|, [], fromSeq, i) == Above(log, i, fromSeq)
  {
    if i > 0 {
      ExpectedSnapshot(log, fromSeq, i - 1);
    }
  }

  /** Everything above fromSeq is expected exactly when every one of those events found room. */
  lemma {:induction false} ExpectedIsAll(log: seq<Envelope>, n: nat, kept: seq<bool>, fromSeq: int, i: nat)
    requires i <= |log| && |log| == n + |kept|
    ensures |Expected(log, n, kept, fromSeq, i)| <= |Above(log, i, fromSeq)|
    ensures (forall j | n <= j < i && log[j].at > fromSeq :: kept[j - n])
            ==> Expected(log, n, kept, fromSeq, i) == Above(log, i, fromSeq)
    ensures !(forall j | n <= j < i && log[j].at > fromSeq :: kept[j - n])
            ==> |Expected(log, n, kept, fromSeq, i)| < |Above(log, i, fromSeq)|
  {
    if i > 0 {
      ExpectedIsAll(log, n, kept, fromSeq, i - 1);
    }
  }

  // ---- Every step keeps the invariant ----

  lemma StartInv(st: State, id: Id, c: Chan, fromSeq: int)
    requires Ordered(st) && forall x :: Absent(st, x, c)
    ensures Inv(Start(st, id, c, fromSeq))
  {
    var w, log := Start(st, id, c, fromSeq), Log(st, id);
    assert Absent(st, id, c);
    CountSnoc(Subscribed(st, id), 0, c, c);
    forall x | x != id
      ensures Absent(w.st, x, c)
    {
      assert Absent(st, x, c);
    }
    assert log[0..] == log;
    ExpectedSnapshot(log, fromSeq, |log|);
    assert Pending(w) == Filter(log, fromSeq);
  }

  /** A step that does not touch the session's log, its channel or its registration. */
  lemma Unseen(w: World, st: State)
    requires Inv(w) && Ordered(st) && Log(st, w.relay.id) == Log(w.st, w.relay.id)
    requires Tail(st.tails, w.relay.chan) == Tail(w.st.tails, w.relay.chan)
    requires Registered(st, w.relay.id, w.relay.chan)
    ensures Inv(World(st, w.relay, w.kept))
  {
    hide Ordered, Registered, Filter, Expected;
  }

  lemma SubscribersKept(st: State, st': State, id: Id, c: Chan)
    requires Registered(st, id, c) && st'.subscribers == st.subscribers
    ensures Registered(st', id, c)
  {
    forall x | x != id
      ensures Absent(st', x, c)
    {
      assert Absent(st, x, c);
    }
  }

  lemma PutElsewhere(w: World, x: Id, e: Envelope)
    requires Inv(w) && x in w.st.aggregates && x != w.relay.id && e.at == w.st.aggregates[x].head + 1
    ensures Inv(World(Push(Bump(w.st, x), x, e), w.relay, w.kept))
  {
    hide Ordered, Filter, Expected, Fanout, Balanced;
    var st := Push(Bump(w.st, x), x, e);
    PutOrdered(w.st, x, e);
    assert Absent(w.st, x, w.relay.chan);
    FanoutTail(w.st.tails, Subscribed(w.st, x), 0, e, w.relay.chan);
    SubscribersKept(w.st, st, w.relay.id, w.relay.chan);
    Unseen(w, st);
  }

  lemma PutHere(w: World, e: Envelope)
    requires Inv(w) && w.relay.id in w.st.aggregates && e.at == w.st.aggregates[w.relay.id].head + 1
    ensures Inv(World(Push(Bump(w.st, w.relay.id), w.relay.id, e), w.relay,
                      w.kept + [|Tail(w.st.tails, w.relay.chan)| < TAIL_CAPACITY]))
  {
    hide Ordered, Filter, Expected, Fanout;
    var r, log, tail := w.relay, Log(w.st, w.relay.id), Tail(w.st.tails, w.relay.chan);
    var st, room := Push(Bump(w.st, r.id), r.id, e), |tail| < TAIL_CAPACITY;
    var w' := World(st, r, w.kept + [room]);
    PutOrdered(w.st, r.id, e);
    FanoutTail(w.st.tails, Subscribed(w.st, r.id), 0, e, r.chan);
    SubscribersKept(w.st, st, r.id, r.chan);
    assert Log(st, r.id) == log + [e] && Tail(st.tails, r.chan) == Offer(tail, e);
    FilterSnoc(tail, e, r.fromSeq);
    ExpectedSnoc(log, |r.snapshot|, w.kept, r.fromSeq, e, room);
    var added := if e.at > r.fromSeq && room then [e] else [];
    PendingGrows(w, w', added);
  }

  lemma ExpectedSnoc(log: seq<Envelope>, n: nat, kept: seq<bool>, fromSeq: int, e: Envelope, room: bool)
    requires |log| == n + |kept|
    ensures Expected(log + [e], n, kept + [room], fromSeq, |log| + 1)
            == Expected(log, n, kept, fromSeq, |log|) + if e.at > fromSeq && room then [e] else []
  {
    ExpectedFrame(log, n, kept, fromSeq, |log|, e, room);
  }

  lemma PendingGrows(w: World, w': World, added: seq<Envelope>)
    requires w'.relay == w.relay && w.relay.pos <= |w.relay.snapshot|
    requires var r := w.relay;
             Filter(Tail(w'.st.tails, r.chan), r.fromSeq) == Filter(Tail(w.st.tails, r.chan), r.fromSeq) + added
    ensures w.relay.out + Pending(w') == w.relay.out + Pending(w) + added
  {
    hide Filter;
  }

  lemma OtherStep(sha: Sha, w: World, step: Step)
    requires Inv(w) && Legal(w, step) && !step.Put? && !step.Replay? && !step.Receive? && !step.Send?
    ensures Inv(Exec(sha, w, step))
  {
    hide Ordered, Inv, Balanced, Without, Registered;
    InvParts(w);
    StepOrdered(sha, w.st, step);
    var st, id, chan := StoreStep(sha, w.st, step), w.relay.id, w.relay.chan;
    match step
    case Join(x, c) => JoinRegistered(w.st, id, chan, x, c); Unseen(w, st);
    case Leave(x, c) => LeaveRegistered(w.st, id, chan, x, c); Unseen(w, st);
    case Branch(parent, atSeq, x) => SubscribersKept(w.st, st, id, chan); BranchUnseen(w, parent, atSeq, x); Unseen(w, st);
    case _ => SubscribersKept(w.st, st, id, chan); Unseen(w, st);
  }

  lemma InvParts(w: World)
    requires Inv(w)
    ensures Registered(w.st, w.relay.id, w.relay.chan) && Consistent(w) && Balanced(w)
  {
  }

  lemma BranchUnseen(w: World, parent: Id, atSeq: int, x: Id)
    requires Ordered(w.st) && x !in w.st.aggregates
    ensures Log(Fork(w.st, parent, atSeq, x), w.relay.id) == Log(w.st, w.relay.id)
  {
  }

  lemma JoinRegistered(st: State, id: Id, chan: Chan, y: Id, c: Chan)
    requires Registered(st, id, chan) && c != chan
    ensures Registered(Register(st, y, c), id, chan)
  {
    CountSnoc(Subscribed(st, y), 0, chan, c);
    forall x | x != id
      ensures Absent(Register(st, y, c), x, chan)
    {
      assert Absent(st, x, chan);
    }
  }

  lemma LeaveRegistered(st: State, id: Id, chan: Chan, y: Id, c: Chan)
    requires Registered(st, id, chan) && c != chan
    ensures Registered(Unregister(st, y, c), id, chan)
  {
    CountWithout(Subscribed(st, y), chan, c);
    forall x | x != id
      ensures Absent(Unregister(st, y, c), x, chan)
    {
      assert Absent(st, x, chan);
    }
  }

  lemma ReplayKeeps(w: World)
    requires Inv(w) && w.relay.pos < |w.relay.snapshot|
    ensures var r := RelayStep(w.st, w.relay, Replay).1; Inv(World(w.st, r, w.kept))
  {
    hide Ordered, Filter, Expected, Registered;
    var r := w.relay;
    var r' := RelayStep(w.st, r, Replay).1;
    var e, rest := r.snapshot[r.pos], r.snapshot[r.pos..];
    assert rest[0] == e && rest[1..] == r.snapshot[r.pos + 1..];
    FilterHead(rest, r.fromSeq);
    var tail := InHand(r) + Filter(Tail(w.st.tails, r.chan), r.fromSeq);
    if e.at > r.fromSeq {
      Reassociate(r.out, e, Filter(r.snapshot[r.pos + 1..], r.fromSeq), tail);
    }
  }

  lemma Reassociate(a: seq<Envelope>, e: Envelope, b: seq<Envelope>, c: seq<Envelope>)
    ensures a + (([e] + b) + c) == (a + [e]) + (b + c)
  {
  }

  /** The next event of the tail is skipped exactly when it is not above fromSeq. */
  lemma NextIsNew(w: World)
    requires Inv(w) && w.relay.pos == |w.relay.snapshot| && w.relay.hand.None? && Tail(w.st.tails, w.relay.chan) != []
    ensures w.relay.seen >= w.relay.fromSeq
    ensures var e := Tail(w.st.tails, w.relay.chan)[0]; e.at > w.relay.seen <==> e.at > w.relay.fromSeq
  {
    hide Registered, Expected, Filter;
    var r, log, tail := w.relay, Log(w.st, w.relay.id), Tail(w.st.tails, w.relay.chan);
    LogAscends(w.st, r.id);
    ExpectedAscends(log, |r.snapshot|, w.kept, r.fromSeq, |log|);
    FilterHead(tail, r.fromSeq);
    EmptyFilter(r.snapshot, r.fromSeq);
    var all := r.out + Pending(w);
    if r.out != [] {
      assert all[|r.out| - 1] == r.out[|r.out| - 1];
      if tail[0].at > r.fromSeq {
        assert Pending(w)[0] == tail[0];
        assert all[|r.out|] == tail[0];
      }
    }
  }

  lemma EmptyFilter(s: seq<Envelope>, fromSeq: int)
    ensures Filter(s[|s|..], fromSeq) == []
  {
  }

  lemma LogAscends(st: State, id: Id)
    requires Ordered(st)
    ensures Ascending(Log(st, id))
  {
  }

  lemma ReceiveKeeps(w: World)
    requires Inv(w) && w.relay.pos == |w.relay.snapshot| && w.relay.hand.None? && Tail(w.st.tails, w.relay.chan) != []
    ensures var (st, r) := RelayStep(w.st, w.relay, Receive); Inv(World(st, r, w.kept))
  {
    hide Ordered, Filter, Expected, Registered;
    var r, tail := w.relay, Tail(w.st.tails, w.relay.chan);
    var (st, r') := RelayStep(w.st, r, Receive);
    NextIsNew(w);
    FilterHead(tail, r.fromSeq);
    TailsOnly(w.st, st);
    SubscribersKept(w.st, st, r.id, r.chan);
    assert Tail(st.tails, r.chan) == tail[1..];
  }

  lemma TailsOnly(st: State, st': State)
    requires Ordered(st) && st' == st.(tails := st'.tails)
    ensures Ordered(st')
  {
  }

  lemma SendKeeps(w: World)
    requires Inv(w) && w.relay.hand.Some?
    ensures var r := RelayStep(w.st, w.relay, Send).1; Inv(World(w.st, r, w.kept))
  {
    hide Ordered, Filter, Expected, Registered;
    var r := w.relay;
    var r' := RelayStep(w.st, r, Send).1;
    EmptyFilter(r.snapshot, r.fromSeq);
    var rest := Filter(Tail(w.st.tails, r.chan), r.fromSeq);
    assert Pending(w) == [r.hand.value] + rest;
    assert Pending(World(w.st, r', w.kept)) == rest;
  }

  lemma StepKeeps(sha: Sha, w: World, step: Step)
    requires Inv(w) && Legal(w, step)
    ensures Inv(Exec(sha, w, step))
  {
    hide Inv, Push, Bump, Sealed;
    match step
    case Replay => if w.relay.pos < |w.relay.snapshot| { ReplayKeeps(w); }
    case Receive =>
      if w.relay.pos == |w.relay.snapshot| && w.relay.hand.None? && Tail(w.st.tails, w.relay.chan) != [] {
        ReceiveKeeps(w);
      }
    case Send => if w.relay.hand.Some? { SendKeeps(w); }
    case Put(x, payload, prev) =>
      if x in w.st.aggregates {
        var e := Sealed(sha, w.st.aggregates[x].head + 1, payload, prev);
        SealedAt(sha, w.st.aggregates[x].head + 1, payload, prev);
        if x == w.relay.id {
          PutHere(w, e);
        } else {
          PutElsewhere(w, x, e);
        }
      }
    case _ => OtherStep(sha, w, step);
  }

  lemma SealedAt(sha: Sha, head: int, payload: Bytes, prev: Bytes)
    ensures Sealed(sha, head, payload, prev).at == head
  {
  }

  lemma {:induction false} RunKeeps(sha: Sha, w: World, steps: seq<Step>, n: nat)
    requires Inv(w) && LegalRun(sha, w, steps) && n <= |steps|
    ensures Inv(Run(sha, w, steps, n))
    ensures var r := Run(sha, w, steps, n).relay;
            r.id == w.relay.id && r.fromSeq == w.relay.fromSeq && r.snapshot == w.relay.snapshot
  {
    hide Inv, Legal, Exec;
    if n > 0 {
      assert LegalAt(sha, w, steps, n - 1);
      RunKeeps(sha, w, steps, n - 1);
      StepKeeps(sha, Run(sha, w, steps, n - 1), steps[n - 1]);
      SameSubscription(sha, Run(sha, w, steps, n - 1), steps[n - 1]);
    }
  }

  lemma SameSubscription(sha: Sha, w: World, step: Step)
    ensures var r := Exec(sha, w, step).relay;
            r.id == w.relay.id && r.fromSeq == w.relay.fromSeq && r.snapshot == w.relay.snapshot
  {
    hide StoreStep;
  }

  lemma Outcome(w: World)
    requires Inv(w)
    ensures var r := w.relay;
            var log, n := Log(w.st, r.id), |r.snapshot|;
            && Ascending(r.out) && (forall e | e in r.out :: e in log && e.at > r.fromSeq)
            && |log| == n + |w.kept| && r.pos <= n
            && (r.out + Pending(w) == Filter(log, r.fromSeq) <==> AllFoundRoom(log, n, w.kept, r.fromSeq))
            && (AllFoundRoom(log, n, w.kept, r.fromSeq) ==> r.out <= Filter(log, r.fromSeq))
  {
    hide Inv, Consistent, Ordered, Expected, Pending, Registered, Above, Log;
    InvParts(w);
    ConsistentIsOrdered(w);
    var r := w.relay;
    var log, n := Log(w.st, r.id), |r.snapshot|;
    LogAscends(w.st, r.id);
    ExpectedAscends(log, n, w.kept, r.fromSeq, |log|);
    AllRoomIff(log, n, w.kept, r.fromSeq);
    DeliveredSoFar(r.out, Pending(w), log, r.fromSeq);
  }

  ghost predicate AllFoundRoom(log: seq<Envelope>, n: nat, kept: seq<bool>, fromSeq: int)
    requires |log| == n + |kept|
  {
    forall j | n <= j < |log| && log[j].at > fromSeq :: kept[j - n]
  }

  lemma AllRoomIff(log: seq<Envelope>, n: nat, kept: seq<bool>, fromSeq: int)
    requires |log| == n + |kept|
    ensures Expected(log, n, kept, fromSeq, |log|) == Filter(log, fromSeq) <==> AllFoundRoom(log, n, kept, fromSeq)
  {
    ExpectedIsAll(log, n, kept, fromSeq, |log|);
  }

  lemma DeliveredSoFar(out: seq<Envelope>, pending: seq<Envelope>, log: seq<Envelope>, fromSeq: int)
    requires Ascending(out + pending) && forall e | e in out + pending :: e.at > fromSeq && e in log
    ensures Ascending(out) && (forall e | e in out :: e in log && e.at > fromSeq)
    ensures out + pending == Filter(log, fromSeq) ==> out <= Filter(log, fromSeq)
  {
    hide Filter;
    PrefixAscends(out, pending);
  }

  /**
    Every interleaving: what was delivered is strictly increasing and so free of duplicates,
    comes from the log above fromSeq in order, and with what is still on its way makes up the
    log above fromSeq exactly when every event above fromSeq found room in the channel. Until
    one does not, what was delivered is a prefix of that log.
   */
  lemma EveryInterleavingDelivers(sha: Sha, st: State, id: Id, c: Chan, fromSeq: int, steps: seq<Step>)
    requires Ordered(st) && (forall x :: Absent(st, x, c)) && LegalRun(sha, Start(st, id, c, fromSeq), steps)
    ensures var w := Run(sha, Start(st, id, c, fromSeq), steps, |steps|);
            var log, out, n := Log(w.st, id), w.relay.out, |Log(st, id)|;
            && Ascending(out) && (forall e | e in out :: e in log && e.at > fromSeq)
            && |log| == n + |w.kept| && w.relay.pos <= |w.relay.snapshot|
            && (out + Pending(w) == Filter(log, fromSeq) <==> AllFoundRoom(log, n, w.kept, fromSeq))
            && (AllFoundRoom(log, n, w.kept, fromSeq) ==> out <= Filter(log, fromSeq))
  {
    hide Run, Ordered, Pending, LegalRun, Inv, Filter, Log;
    StartInv(st, id, c, fromSeq);
    RunKeeps(sha, Start(st, id, c, fromSeq), steps, |steps|);
    Outcome(Run(sha, Start(st, id, c, fromSeq), steps, |steps|));
  }

  lemma PrefixAscends(a: seq<Envelope>, b: seq<Envelope>)
    requires Ascending(a + b)
    ensures Ascending(a) && (forall e | e in a :: e in a + b) && a <= a + b
  {
    forall i, j | 0 <= i < j < |a|
      ensures a[i].at < a[j].at
    {
      assert (a + b)[i].at < (a + b)[j].at;
    }
  }

  /** So it is for a subscriber that joins after any legal history. */
  lemma EverySubscriberAfterHistory(sha: Sha, ops: seq<StoreHistories.Op>, id: Id, c: Chan, fromSeq: int, steps: seq<Step>)
    requires StoreHistories.LegalHistory(sha, ops)
    requires LegalRun(sha, Start(StoreHistories.Run(sha, ops, |ops|), id, c, fromSeq), steps)
    ensures var st := StoreHistories.Run(sha, ops, |ops|);
            var w := Run(sha, Start(st, id, c, fromSeq), steps, |steps|);
            var log, out, n := Log(w.st, id), w.relay.out, |Log(st, id)|;
            && Ascending(out) && (forall e | e in out :: e in log && e.at > fromSeq)
            && |log| == n + |w.kept|
            && (AllFoundRoom(log, n, w.kept, fromSeq) ==> out <= Filter(log, fromSeq))
  {
    hide StoreHistories.Run, StoreHistories.LegalHistory, StoreHistories.Sound, Run, LegalRun, Ordered, Absent, Filter, Pending;
    var st := StoreHistories.Run(sha, ops, |ops|);
    StoreHistories.RunIsSound(sha, ops, |ops|);
    SoundIsOrdered(sha, st);
    NoSubscribers(sha, ops, |ops|);
    forall x
      ensures Absent(st, x, c)
    {
      NobodyIsAbsent(st, x, c);
    }
    EveryInterleavingDelivers(sha, st, id, c, fromSeq, steps);
  }

  lemma NobodyIsAbsent(st: State, x: Id, c: Chan)
    requires st.subscribers == map[]
    ensures Absent(st, x, c)
  {
  }

  lemma {:induction false} NoSubscribers(sha: Sha, ops: seq<StoreHistories.Op>, n: nat)
    requires n <= |ops|
    ensures StoreHistories.Run(sha, ops, n).subscribers == map[]
  {
    hide AppendFrom;
    if n > 0 {
      NoSubscribers(sha, ops, n - 1);
      var st, op := StoreHistories.Run(sha, ops, n - 1), ops[n - 1];
      if op.AppendOp? {
        var start := Create(st, op.id);
        StoreHistories.AppendFromFrame(sha, start, op.id, op.batch, 0, ChainHead(sha, start, op.id));
      }
    }
  }

  // ---- After unsubscribing ----

  /** The steps neither register channel c again nor read from it. */
  predicate LeavesAlone(steps: seq<Step>, c: Chan) {
    forall i | 0 <= i < |steps| :: (steps[i].Join? || steps[i].Drain?) ==> steps[i].c != c
  }

  ghost predicate AbsentEverywhere(st: State, c: Chan) {
    forall x :: Absent(st, x, c)
  }

  lemma PutAbsent(st: State, x: Id, e: Envelope, c: Chan)
    requires AbsentEverywhere(st, c) && x in st.aggregates
    ensures AbsentEverywhere(Push(Bump(st, x), x, e), c) && Tail(Push(Bump(st, x), x, e).tails, c) == Tail(st.tails, c)
  {
    hide Count, Fanout, Tail;
    assert Absent(st, x, c);
    FanoutTail(st.tails, Subscribed(st, x), 0, e, c);
    SameSubscribers(st, Push(Bump(st, x), x, e), c);
  }

  lemma SubscribersAbsent(st: State, x: Id, subs: seq<Chan>, c: Chan)
    requires AbsentEverywhere(st, c) && Count(subs, 0, c) == 0
    ensures AbsentEverywhere(st.(subscribers := st.subscribers[x := subs]), c)
  {
    hide Count;
    var st' := st.(subscribers := st.subscribers[x := subs]);
    forall y
      ensures Absent(st', y, c)
    {
      assert Absent(st, y, c);
    }
  }

  lemma StepAbsent(sha: Sha, st: State, step: Step, c: Chan)
    requires AbsentEverywhere(st, c) && ((step.Join? || step.Drain?) ==> step.c != c)
    ensures AbsentEverywhere(StoreStep(sha, st, step), c) && Tail(StoreStep(sha, st, step).tails, c) == Tail(st.tails, c)
  {
    hide Without, Count, Push, AbsentEverywhere;
    var st' := StoreStep(sha, st, step);
    match step
    case Put(x, payload, prev) =>
      if x in st.aggregates {
        PutAbsent(st, x, Sealed(sha, st.aggregates[x].head + 1, payload, prev), c);
      }
    case Join(x, d) =>
      AbsentAt(st, x, c);
      CountSnoc(Subscribed(st, x), 0, c, d);
      SubscribersAbsent(st, x, Subscribed(st, x) + [d], c);
      SameSubscribers(st.(subscribers := st'.subscribers), st', c);
    case Leave(x, d) =>
      AbsentAt(st, x, c);
      CountWithout(Subscribed(st, x), c, d);
      SubscribersAbsent(st, x, Without(Subscribed(st, x), d, 0), c);
    case _ => SameSubscribers(st, st', c);
  }

  lemma AbsentAt(st: State, x: Id, c: Chan)
    requires AbsentEverywhere(st, c)
    ensures Count(Subscribed(st, x), 0, c) == 0
  {
    assert Absent(st, x, c);
  }

  lemma SameSubscribers(st: State, st': State, c: Chan)
    requires AbsentEverywhere(st, c) && st'.subscribers == st.subscribers
    ensures AbsentEverywhere(st', c)
  {
    forall x
      ensures Absent(st', x, c)
    {
      assert Absent(st, x, c);
    }
  }

  lemma {:induction false} AbsentForGood(sha: Sha, st: State, steps: seq<Step>, c: Chan)
    requires AbsentEverywhere(st, c) && LeavesAlone(steps, c)
    ensures Tail(StoreRun(sha, st, steps).tails, c) == Tail(st.tails, c)
    decreases |steps|
  {
    hide AbsentEverywhere, StoreStep, Tail;
    if steps != [] {
      StepAbsent(sha, st, steps[0], c);
      AbsentForGood(sha, StoreStep(sha, st, steps[0]), steps[1..], c);
    }
  }

  /** A channel that was subscribed once and then unsubscribed is registered nowhere, and nothing done to the store ever reaches it. */
  lemma UnsubscribedHearsNothing(sha: Sha, st: State, id: Id, c: Chan, steps: seq<Step>)
    requires Registered(st, id, c) && LeavesAlone(steps, c)
    ensures var left := Unregister(st, id, c);
            AbsentEverywhere(left, c) && Tail(StoreRun(sha, left, steps).tails, c) == Tail(st.tails, c)
  {
    hide Without, StoreRun, Count;
    var left := Unregister(st, id, c);
    CountIsMultiplicity(Subscribed(st, id), 0, c);
    assert Subscribed(st, id)[0..] == Subscribed(st, id);
    CountWithout(Subscribed(st, id), c, c);
    forall x
      ensures Absent(left, x, c)
    {
      if x != id {
        assert Absent(st, x, c);
      }
    }
    AbsentForGood(sha, left, steps, c);
  }

  // ---- An event that found no room ----

  lemma {:induction false} ExpectedMember(log: seq<Envelope>, n: nat, kept: seq<bool>, fromSeq: int, i: nat, e: Envelope) returns (m: nat)
    requires i <= |log| && |log| == n + |kept| && e in Expected(log, n, kept, fromSeq, i)
    ensures m < i && e == log[m] && (m < n || kept[m - n])
  {
    if e in Expected(log, n, kept, fromSeq, i - 1) {
      m := ExpectedMember(log, n, kept, fromSeq, i - 1, e);
    } else {
      m := i - 1;
    }
  }

  lemma DroppedIsNotExpected(log: seq<Envelope>, n: nat, kept: seq<bool>, fromSeq: int, j: nat)
    requires Ascending(log) && |log| == n + |kept| && n <= j < |log| && !kept[j - n]
    ensures log[j] !in Expected(log, n, kept, fromSeq, |log|)
  {
    hide Expected;
    forall e | e in Expected(log, n, kept, fromSeq, |log|)
      ensures e.at != log[j].at
    {
      var m := ExpectedMember(log, n, kept, fromSeq, |log|, e);
      if m < j {
        assert log[m].at < log[j].at;
      } else {
        assert log[j].at < log[m].at;
      }
    }
  }

  lemma LogStays(sha: Sha, w: World, step: Step)
    requires Ordered(w.st) && Legal(w, step)
    ensures var v := Exec(sha, w, step); Log(w.st, w.relay.id) <= Log(v.st, w.relay.id) && w.kept <= v.kept && v.relay.id == w.relay.id
  {
    hide Fanout, Without, Ordered;
    match step
    case Branch(parent, atSeq, x) => BranchUnseen(w, parent, atSeq, x);
    case _ =>
  }

  lemma {:induction false} RunStays(sha: Sha, w: World, steps: seq<Step>, m: nat, n: nat)
    requires Inv(w) && LegalRun(sha, w, steps) && m <= n <= |steps|
    ensures var a, b := Run(sha, w, steps, m), Run(sha, w, steps, n);
            Log(a.st, w.relay.id) <= Log(b.st, w.relay.id) && a.kept <= b.kept && b.relay.id == w.relay.id
  {
    hide Inv, Legal, Exec, Log;
    if n == 0 {
    } else if m == n {
      RunKeeps(sha, w, steps, n);
    } else {
      assert LegalAt(sha, w, steps, n - 1);
      RunStays(sha, w, steps, m, n - 1);
      RunKeeps(sha, w, steps, n - 1);
      InvParts(Run(sha, w, steps, n - 1));
      ConsistentIsOrdered(Run(sha, w, steps, n - 1));
      LogStays(sha, Run(sha, w, steps, n - 1), steps[n - 1]);
    }
  }

  lemma ConsistentIsOrdered(w: World)
    requires Consistent(w)
    ensures Ordered(w.st) && |Log(w.st, w.relay.id)| == |w.relay.snapshot| + |w.kept| && w.relay.pos <= |w.relay.snapshot|
  {
    hide Ordered;
  }

  /** An event that once found no room is never delivered, nor on its way, whatever follows. */
  lemma DroppedForGood(sha: Sha, w: World, steps: seq<Step>, m: nat, n: nat, j: nat)
    requires Inv(w) && LegalRun(sha, w, steps) && m <= n <= |steps|
    requires var a := Run(sha, w, steps, m);
             |w.relay.snapshot| <= j < |w.relay.snapshot| + |a.kept| && !a.kept[j - |w.relay.snapshot|]
    ensures var a, b := Run(sha, w, steps, m), Run(sha, w, steps, n);
            && j < |Log(a.st, w.relay.id)| && j < |Log(b.st, w.relay.id)| && b.relay.pos <= |b.relay.snapshot|
            && Log(b.st, w.relay.id)[j] == Log(a.st, w.relay.id)[j]
            && Log(b.st, w.relay.id)[j] !in b.relay.out + Pending(b)
  {
    hide Inv, Run, LegalRun, Ordered, Expected, Pending, Consistent, Registered, Log;
    var a, b := Run(sha, w, steps, m), Run(sha, w, steps, n);
    RunKeeps(sha, w, steps, m);
    RunKeeps(sha, w, steps, n);
    RunStays(sha, w, steps, m, n);
    RunStays(sha, w, steps, 0, m);
    InvParts(a);
    InvParts(b);
    ConsistentIsOrdered(a);
    ConsistentIsOrdered(b);
    LogAscends(b.st, w.relay.id);
    assert !b.kept[j - |w.relay.snapshot|];
    DroppedIsNotExpected(Log(b.st, w.relay.id), |w.relay.snapshot|, b.kept, b.relay.fromSeq, j);
  }

  // ---- A reader that does not keep up ----

  predicate Unread(steps: seq<Step>, n: nat)
    requires n <= |steps|
  {
    forall i | 0 <= i < n :: !steps[i].Receive?
  }

  /** Without a receive the channel only fills, by one event of the session at a time. */
  lemma UnreadStep(sha: Sha, w: World, step: Step)
    requires Registered(w.st, w.relay.id, w.relay.chan) && Legal(w, step) && !step.Receive?
    ensures var v, queue := Exec(sha, w, step), Tail(w.st.tails, w.relay.chan);
            && v.relay.id == w.relay.id && v.relay.chan == w.relay.chan
            && if step.Put? && step.x == w.relay.id && step.x in w.st.aggregates then
                 && v.kept == w.kept + [|queue| < TAIL_CAPACITY]
                 && |Tail(v.st.tails, w.relay.chan)| == (if |queue| < TAIL_CAPACITY then |queue| + 1 else |queue|)
               else
                 v.kept == w.kept && Tail(v.st.tails, w.relay.chan) == queue
  {
    hide Without;
    if step.Put? && step.x in w.st.aggregates {
      var e := Sealed(sha, w.st.aggregates[step.x].head + 1, step.payload, step.prev);
      assert step.x != w.relay.id ==> Absent(w.st, step.x, w.relay.chan);
      FanoutTail(w.st.tails, Subscribed(w.st, step.x), 0, e, w.relay.chan);
    }
  }

  /** Room for the first 256 events, none for any later one. */
  ghost predicate Fills(w: World) {
    && |Tail(w.st.tails, w.relay.chan)| == (if |w.kept| < 256 then |w.kept| else 256)
    && forall i | 0 <= i < |w.kept| :: w.kept[i] <==> i < 256
  }

  lemma {:induction false} UnreadFills(sha: Sha, w: World, steps: seq<Step>, n: nat)
    requires Inv(w) && LegalRun(sha, w, steps) && n <= |steps| && Unread(steps, n) && Fills(w)
    ensures Fills(Run(sha, w, steps, n))
  {
    hide Inv, Exec, Legal, Tail;
    if n > 0 {
      var v := Run(sha, w, steps, n - 1);
      assert LegalAt(sha, w, steps, n - 1);
      UnreadFills(sha, w, steps, n - 1);
      RunKeeps(sha, w, steps, n - 1);
      InvParts(v);
      UnreadStep(sha, v, steps[n - 1]);
    }
  }

  /**
    A reader that does not keep up, in any run: of the events appended to the session before it
    receives one, all after the first 256 are stored and never delivered, whatever follows.
   */
  lemma SlowReaderLosesEvents(sha: Sha, st: State, id: Id, c: Chan, fromSeq: int, steps: seq<Step>, n: nat, j: nat)
    requires Ordered(st) && (forall x :: Absent(st, x, c))
    requires LegalRun(sha, Start(st, id, c, fromSeq), steps) && n <= |steps| && Unread(steps, n)
    requires 256 <= j < |Run(sha, Start(st, id, c, fromSeq), steps, n).kept|
    ensures var w := Run(sha, Start(st, id, c, fromSeq), steps, |steps|);
            |Log(st, id)| + j < |Log(w.st, id)| && Log(w.st, id)[|Log(st, id)| + j] !in w.relay.out
  {
    hide Inv, Run, Ordered, LegalRun, Absent, Pending, Log;
    var w := Start(st, id, c, fromSeq);
    StartInv(st, id, c, fromSeq);
    UnreadFills(sha, w, steps, n);
    DroppedForGood(sha, w, steps, n, |steps|, |Log(st, id)| + j);
  }

  /** The steps of a batch that marshals: one put for each event, then the saved head. */
  lemma {:induction false} BatchPuts(sha: Sha, id: Id, batch: seq<Option<Bytes>>, i: nat, prev: Bytes, k: nat)
    requires i <= |batch| && k < |batch| - i && forall x | 0 <= x < |batch| :: batch[x].Some?
    ensures var steps := BatchSteps(sha, id, batch, i, prev);
            |steps| == |batch| - i + 1 && steps[k].Put? && steps[k].x == id
    decreases |batch| - i
  {
    var link := ChainHash(sha, prev, sha(batch[i].value));
    if i + 1 < |batch| {
      BatchPuts(sha, id, batch, i + 1, link, if k == 0 then 0 else k - 1);
    }
  }

  lemma {:induction false} PutsCount(sha: Sha, w: World, steps: seq<Step>, n: nat)
    requires w.relay.id in w.st.aggregates && n <= |steps|
    requires forall i | 0 <= i < n :: steps[i].Put? && steps[i].x == w.relay.id
    ensures var v := Run(sha, w, steps, n);
            |v.kept| == |w.kept| + n && v.relay == w.relay && w.relay.id in v.st.aggregates
  {
    hide Fanout, Sealed, Tail, Log, Subscribed;
    if n > 0 {
      PutsCount(sha, w, steps, n - 1);
    }
  }

  /** One append of more than 256 events before the first receive is such a run: its later events are lost to the reader. */
  lemma LongBatchOverflows(sha: Sha, st: State, id: Id, c: Chan, fromSeq: int, batch: seq<Option<Bytes>>, more: seq<Step>, j: nat)
    requires Ordered(st) && (forall x :: Absent(st, x, c)) && id in st.aggregates
    requires 256 <= j < |batch| && forall i | 0 <= i < |batch| :: batch[i].Some?
    requires LegalRun(sha, Start(st, id, c, fromSeq), BatchSteps(sha, id, batch, 0, ChainHead(sha, st, id)) + more)
    ensures var steps := BatchSteps(sha, id, batch, 0, ChainHead(sha, st, id)) + more;
            var w := Run(sha, Start(st, id, c, fromSeq), steps, |steps|);
            |Log(st, id)| + j < |Log(w.st, id)| && Log(w.st, id)[|Log(st, id)| + j] !in w.relay.out
  {
    hide Run, Ordered, LegalRun, Absent, Log, BatchSteps, ChainHead;
    var puts := BatchSteps(sha, id, batch, 0, ChainHead(sha, st, id));
    var steps := puts + more;
    BatchPuts(sha, id, batch, 0, ChainHead(sha, st, id), 0);
    forall k | 0 <= k < |batch|
      ensures steps[k].Put? && steps[k].x == id
    {
      BatchPuts(sha, id, batch, 0, ChainHead(sha, st, id), k);
    }
    PutsCount(sha, Start(st, id, c, fromSeq), steps, |batch|);
    SlowReaderLosesEvents(sha, st, id, c, fromSeq, steps, |batch|, j);
  }
}
