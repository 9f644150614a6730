/** Keyset pages of the session list. Times are nanoseconds; a page token keeps milliseconds. */
module SessionPages {
  import opened Hashing
  import InsertionSort
  import Lexicographic

  const MILLISECOND: int := 1_000_000

  datatype Status = Active | Finished | Failed

  datatype Session = Session(id: string, created: int, status: Status)

  datatype Cursor = Cursor(createdMs: int, id: string)

  /** An empty status set, a missing bound, a cursor with an empty id and a limit that is not positive do not restrict. */
  datatype Query = Query(statuses: set<Status>, after: Option<int>, before: Option<int>, cursor: Cursor, descending: bool, limit: int)

  const FIRST_PAGE: Cursor := Cursor(0, "")

  predicate Less(a: Session, b: Session) {
    if a.created != b.created then a.created < b.created else Lexicographic.Less(a.id, b.id)
  }

  /** a is listed ahead of b. */
  predicate Ahead(descending: bool, a: Session, b: Session) {
    if descending then Less(b, a) else Less(a, b)
  }

  predicate Matches(q: Query, s: Session) {
    && (q.statuses != {} ==> s.status in q.statuses)
    && (q.after.Some? ==> s.created >= q.after.value)
    && (q.before.Some? ==> s.created < q.before.value)
  }

  predicate PastCursor(c: Cursor, descending: bool, s: Session) {
    c.id != "" ==> Ahead(descending, Session(c.id, c.createdMs * MILLISECOND, Active), s)
  }

  function CursorOf(s: Session): Cursor {
    Cursor(s.created / MILLISECOND, s.id)
  }

  // ---- What a page is ----

  ghost predicate InOrder(descending: bool, rows: seq<Session>) {
    forall i, j | 0 <= i < j < |rows| :: Ahead(descending, rows[i], rows[j])
  }

  ghost predicate Keyed(all: map<string, Session>) {
    forall k | k in all :: all[k].id == k
  }

  predicate Eligible(all: map<string, Session>, q: Query, s: Session) {
    s.id in all && all[s.id] == s && Matches(q, s) && PastCursor(q.cursor, q.descending, s)
  }

  /** The first `limit` of the eligible sessions, in order. */
  ghost predicate IsPage(rows: seq<Session>, all: map<string, Session>, q: Query) {
    && InOrder(q.descending, rows)
    && (forall s | s in rows :: Eligible(all, q, s))
    && (q.limit > 0 ==> |rows| <= q.limit)
    && (forall s | Eligible(all, q, s) && s !in rows ::
          q.limit > 0 && |rows| == q.limit && forall r | r in rows :: Ahead(q.descending, r, s))
  }

  // ---- The order is strict and total ----

  lemma AheadTransitive(d: bool, a: Session, b: Session, c: Session)
    requires Ahead(d, a, b) && Ahead(d, b, c)
    ensures Ahead(d, a, c)
  {
    if a.created == b.created == c.created {
      if d {
        Lexicographic.Transitive(c.id, b.id, a.id);
      } else {
        Lexicographic.Transitive(a.id, b.id, c.id);
      }
    }
  }

  lemma AheadTotal(d: bool, a: Session, b: Session)
    ensures a.id != b.id ==> Ahead(d, a, b) || Ahead(d, b, a)
    ensures a.id == b.id && a.created == b.created ==> !Ahead(d, a, b)
  {
    Lexicographic.Total(a.id, b.id);
    Lexicographic.Irreflexive(a.id);
  }

  /** Listed by time, then by id in string order; descending is the same order backwards. */
  lemma AheadIff(d: bool, a: Session, b: Session)
    ensures var (x, y) := if d then (b, a) else (a, b);
            Ahead(d, a, b) <==> x.created < y.created || (x.created == y.created && exists k: nat :: Lexicographic.LessAt(x.id, y.id, k))
  {
    Lexicographic.LessIff(a.id, b.id);
    Lexicographic.LessIff(b.id, a.id);
  }

  // ---- The filters ----

  /** Statuses only narrow, and an empty set of them does not. */
  lemma StatusesNarrow(q: Query, s: Session)
    ensures Matches(q, s) <==> (q.statuses == {} || s.status in q.statuses) && Matches(q.(statuses := {}), s)
  {
  }

  predicate MatchesIn(q: Query, from: int, to: int, s: Session) {
    Matches(q.(after := Some(from), before := Some(to)), s)
  }

  /** Time windows are half open: adjacent ones share no session and miss none, the lower bound is in and the upper one out. */
  lemma WindowsPartition(q: Query, a: int, b: int, c: int, s: Session)
    requires a <= b <= c
    ensures MatchesIn(q, a, c, s) <==> MatchesIn(q, a, b, s) || MatchesIn(q, b, c, s)
    ensures !(MatchesIn(q, a, b, s) && MatchesIn(q, b, c, s))
    ensures s.created == b && b < c ==> (MatchesIn(q, b, c, s) <==> Matches(q.(after := None, before := None), s))
    ensures s.created == b ==> !MatchesIn(q, a, b, s)
  {
  }

  /** A missing bound does not restrict. */
  lemma OpenWindow(q: Query, a: int, b: int, s: Session)
    requires a <= s.created < b
    ensures Matches(q.(after := None, before := None), s) <==> MatchesIn(q, a, b, s)
    ensures Matches(q.(after := Some(a), before := None), s) <==> MatchesIn(q, a, b, s)
    ensures Matches(q.(after := None, before := Some(b)), s) <==> MatchesIn(q, a, b, s)
  {
  }

  // ---- The listing ----

  function Order(d: bool): (Session, Session) -> bool {
    (a, b) => Ahead(d, a, b)
  }

  lemma SessionsAreOrdered(d: bool, rows: seq<Session>)
    requires forall i, j | 0 <= i < j < |rows| :: rows[i].id != rows[j].id
    ensures InsertionSort.Transitive(Order(d)) && InsertionSort.Comparable(Order(d), rows)
    ensures forall s :: InsertionSort.InOrder(Order(d), s) ==> InOrder(d, s)
  {
    hide Ahead;
    forall a, b, c | Order(d)(a, b) && Order(d)(b, c)
      ensures Order(d)(a, c)
    {
      AheadTransitive(d, a, b, c);
    }
    forall i, j | 0 <= i < j < |rows|
      ensures Order(d)(rows[i], rows[j]) || Order(d)(rows[j], rows[i])
    {
      AheadTotal(d, rows[i], rows[j]);
    }
  }

  lemma SortedSessions(d: bool, rows: seq<Session>)
    requires forall i, j | 0 <= i < j < |rows| :: rows[i].id != rows[j].id
    ensures var sorted := InsertionSort.Sort(Order(d), rows, |rows|);
            InOrder(d, sorted) && forall s :: s in sorted <==> s in rows
  {
    hide Order, InOrder, InsertionSort.Sort;
    SessionsAreOrdered(d, rows);
    InsertionSort.SortSorts(Order(d), rows, |rows|);
    InsertionSort.SortMembers(Order(d), rows, |rows|);
    assert rows[..|rows|] == rows;
  }

  method ListSessions(all: map<string, Session>, q: Query) returns (rows: seq<Session>)
    requires Keyed(all)
    ensures IsPage(rows, all, q)
  {
    hide Ahead, Order, InsertionSort.Sort;
    var matching := Collect(all, q);
    SortedSessions(q.descending, matching);
    var sorted := InsertionSort.Sort(Order(q.descending), matching, |matching|);
    rows := sorted;
    if q.cursor.id != "" {
      rows := KeepPastCursor(sorted, q);
    }
    if q.limit > 0 && |rows| > q.limit {
      Cut(rows, q.limit, q.descending);
      rows := rows[..q.limit];
    }
  }

  /** The stored sessions in no particular order, those that match. */
  method Collect(all: map<string, Session>, q: Query) returns (rows: seq<Session>)
    requires Keyed(all)
    ensures forall i, j | 0 <= i < j < |rows| :: rows[i].id != rows[j].id
    ensures forall s :: s in rows <==> s.id in all && all[s.id] == s && Matches(q, s)
  {
    hide Matches;
    rows := [];
    var left := all.Keys;
    while left != {}
      invariant left <= all.Keys
      invariant forall i, j | 0 <= i < j < |rows| :: rows[i].id != rows[j].id
      invariant forall s :: s in rows <==> s.id in all && s.id !in left && all[s.id] == s && Matches(q, s)
      decreases |left|
    {
      var k :| k in left;
      if Matches(q, all[k]) {
        rows := rows + [all[k]];
      }
      left := left - {k};
    }
  }

  method KeepPastCursor(sorted: seq<Session>, q: Query) returns (rows: seq<Session>)
    requires InOrder(q.descending, sorted)
    ensures InOrder(q.descending, rows)
    ensures forall s :: s in rows <==> s in sorted && PastCursor(q.cursor, q.descending, s)
  {
    hide Ahead, PastCursor;
    rows := [];
    for i := 0 to |sorted|
      invariant InOrder(q.descending, rows)
      invariant forall s :: s in rows <==> s in sorted[..i] && PastCursor(q.cursor, q.descending, s)
    {
      assert sorted[..i + 1] == sorted[..i] + [sorted[i]];
      if PastCursor(q.cursor, q.descending, sorted[i]) {
        forall j | 0 <= j < |rows|
          ensures Ahead(q.descending, rows[j], sorted[i])
        {
          assert rows[j] in sorted[..i];
        }
        rows := rows + [sorted[i]];
      }
    }
    assert sorted[..|sorted|] == sorted;
  }

  lemma InPrefix(rows: seq<Session>, n: nat, i: nat)
    requires i < |rows| && n <= |rows|
    ensures i < n ==> rows[i] in rows[..n]
  {
    if i < n {
      assert rows[..n][i] == rows[i];
    }
  }

  lemma Cut(rows: seq<Session>, n: nat, d: bool)
    requires InOrder(d, rows) && n <= |rows|
    ensures InOrder(d, rows[..n]) && forall s, r | s in rows && s !in rows[..n] && r in rows[..n] :: Ahead(d, r, s)
  {
    hide Ahead;
    forall s, r | s in rows && s !in rows[..n] && r in rows[..n]
      ensures Ahead(d, r, s)
    {
      var i :| 0 <= i < |rows| && rows[i] == s;
      var j :| 0 <= j < n && rows[..n][j] == r;
      InPrefix(rows, n, i);
    }
  }

  // ---- The cursor ----

  /** A store keyed by id can hold both. */
  predicate Beside(s: Session, t: Session) {
    t.id == s.id ==> t == s
  }

  /**
    Continuing past the token of s keeps exactly the stored sessions listed after s if and only
    if its time is a whole number of milliseconds and its id is not empty.
   */
  lemma TokenIsExactIff(d: bool, s: Session)
    ensures (forall t | Beside(s, t) :: PastCursor(CursorOf(s), d, t) <==> Ahead(d, s, t))
            <==> s.created % 1_000_000 == 0 && s.id != ""
  {
    hide Lexicographic.Less, Beside;
    if s.created % MILLISECOND == 0 && s.id != "" {
      forall t | Beside(s, t)
        ensures PastCursor(CursorOf(s), d, t) <==> Ahead(d, s, t)
      {
        TokenIsExact(d, s, t);
      }
    } else {
      var t := TokenCounterexample(d, s);
      AheadTotal(d, s, s);
      assert Beside(s, t) && PastCursor(CursorOf(s), d, t) != Ahead(d, s, t);
    }
  }

  lemma TokenIsExact(d: bool, s: Session, t: Session)
    requires s.created % MILLISECOND == 0 && s.id != ""
    ensures PastCursor(CursorOf(s), d, t) <==> Ahead(d, s, t)
  {
    assert s.created / MILLISECOND * MILLISECOND == s.created;
  }

  /** A session of the same millisecond that comes after s in descending order. */
  function Shadowed(s: Session): Session {
    Session(s.id + "x", s.created / MILLISECOND * MILLISECOND, Active)
  }

  lemma ShadowedIsPassedOver(s: Session)
    requires s.created % MILLISECOND != 0 && s.id != ""
    ensures var t := Shadowed(s); t.id != s.id && Ahead(true, s, t) && !PastCursor(CursorOf(s), true, t)
  {
    assert |Shadowed(s).id| == |s.id| + 1;
    Lexicographic.LongerIsNotLess(s.id, "x");
  }

  lemma RepeatsItself(d: bool, s: Session)
    requires s.id == "" || (!d && s.created % MILLISECOND != 0)
    ensures PastCursor(CursorOf(s), d, s)
  {
  }

  /**
    Otherwise the page that follows shows s again (ascending, or with an empty id), or passes over
    a session that comes after s (descending).
   */
  lemma TokenCounterexample(d: bool, s: Session) returns (t: Session)
    requires s.created % MILLISECOND != 0 || s.id == ""
    ensures Beside(s, t)
    ensures !d || s.id == "" ==> t == s && PastCursor(CursorOf(s), d, t)
    ensures d && s.id != "" ==> t.id != s.id && Ahead(d, s, t) && !PastCursor(CursorOf(s), d, t)
  {
    if d && s.id != "" {
      t := Shadowed(s);
      ShadowedIsPassedOver(s);
    } else {
      t := s;
      RepeatsItself(d, s);
    }
  }

  // ---- Walking the pages ----

  /** The page a request returns: one row more is fetched, and dropped when it is there. */
  function Shown(rows: seq<Session>, size: nat): seq<Session> {
    if |rows| > size then rows[..size] else rows
  }

  /** Pages 0..n-1 one after the other. */
  function Listing(rows: seq<seq<Session>>, sizes: seq<nat>, n: nat): seq<Session>
    requires n <= |rows| == |sizes|
  {
    if n == 0 then [] else Listing(rows, sizes, n - 1) + Shown(rows[n - 1], sizes[n - 1])
  }

  /** The token request i carries. */
  function Token(rows: seq<seq<Session>>, sizes: seq<nat>, i: nat): Cursor
    requires i <= |rows| == |sizes|
  {
    if i == 0 || |rows[i - 1]| <= sizes[i - 1] || sizes[i - 1] == 0 then FIRST_PAGE
    else CursorOf(rows[i - 1][sizes[i - 1] - 1])
  }

  ghost predicate Answered(stores: seq<map<string, Session>>, q: Query, sizes: seq<nat>, rows: seq<seq<Session>>, i: nat)
    requires i < |stores| == |sizes| == |rows|
  {
    IsPage(rows[i], stores[i], q.(cursor := Token(rows, sizes, i), limit := sizes[i] + 1))
  }

  /**
    Request i reads store `stores[i]`, fetching `sizes[i] + 1` rows past the last session
    shown, and every request but the last found that extra row.
   */
  ghost predicate Walk(stores: seq<map<string, Session>>, q: Query, sizes: seq<nat>, rows: seq<seq<Session>>) {
    && |stores| == |sizes| == |rows|
    && (forall i | 0 <= i < |rows| :: sizes[i] > 0)
    && (forall i | 0 <= i < |rows| - 1 :: |rows[i]| > sizes[i])
    && (forall i {:trigger Answered(stores, q, sizes, rows, i)} | 0 <= i < |rows| :: Answered(stores, q, sizes, rows, i))
  }

  /** Unique non-empty ids, times in whole milliseconds. */
  ghost predicate Aligned(stores: seq<map<string, Session>>) {
    forall i, k | 0 <= i < |stores| && k in stores[i] ::
      stores[i][k].id == k && k != "" && stores[i][k].created % MILLISECOND == 0
  }

  lemma PageParts(stores: seq<map<string, Session>>, q: Query, sizes: seq<nat>, rows: seq<seq<Session>>, i: nat)
    requires Walk(stores, q, sizes, rows) && i < |rows|
    ensures |stores| == |sizes| == |rows| && sizes[i] > 0 && (i < |rows| - 1 ==> |rows[i]| > sizes[i])
    ensures IsPage(rows[i], stores[i], q.(cursor := Token(rows, sizes, i), limit := sizes[i] + 1))
  {
    assert Answered(stores, q, sizes, rows, i);
  }

  /** Request i+1 continues behind the last session that request i showed. */
  lemma TokenContinues(stores: seq<map<string, Session>>, q: Query, sizes: seq<nat>, rows: seq<seq<Session>>, i: nat, t: Session)
    requires Walk(stores, q, sizes, rows) && Aligned(stores) && i + 1 < |rows|
    ensures var page := Shown(rows[i], sizes[i]);
            page != [] && (PastCursor(Token(rows, sizes, i + 1), q.descending, t) <==> Ahead(q.descending, page[|page| - 1], t))
  {
    hide Ahead, PastCursor, Matches, Token;
    PageParts(stores, q, sizes, rows, i);
    var last := rows[i][sizes[i] - 1];
    assert last in rows[i];
    assert Eligible(stores[i], q.(cursor := Token(rows, sizes, i), limit := sizes[i] + 1), last);
    TokenIsExact(q.descending, last, t);
    TokenAfter(rows, sizes, i);
  }

  lemma TokenAfter(rows: seq<seq<Session>>, sizes: seq<nat>, i: nat)
    requires i < |rows| == |sizes| && |rows[i]| > sizes[i] > 0
    ensures Token(rows, sizes, i + 1) == CursorOf(rows[i][sizes[i] - 1])
  {
  }

  lemma GlueInOrder(d: bool, a: seq<Session>, b: seq<Session>)
    requires InOrder(d, a) && InOrder(d, b) && (a != [] ==> forall t | t in b :: Ahead(d, a[|a| - 1], t))
    ensures InOrder(d, a + b)
  {
    hide Ahead;
    forall i, j | 0 <= i < |a| && 0 <= j < |b|
      ensures Ahead(d, a[i], b[j])
    {
      assert b[j] in b;
      if i < |a| - 1 {
        AheadTransitive(d, a[i], a[|a| - 1], b[j]);
      }
    }
    assert forall i, j | 0 <= i < j < |a + b| :: Ahead(d, (a + b)[i], (a + b)[j]);
  }

  /** The listing is in strict order, page after page. */
  lemma {:induction false} ListingInOrder(stores: seq<map<string, Session>>, q: Query, sizes: seq<nat>, rows: seq<seq<Session>>, n: nat)
    requires Walk(stores, q, sizes, rows) && Aligned(stores) && n <= |rows|
    ensures InOrder(q.descending, Listing(rows, sizes, n))
    ensures 0 < n < |rows| ==> Shown(rows[n - 1], sizes[n - 1]) != []
  {
    hide Ahead, PastCursor, Matches, Walk, Aligned, Token;
    if n > 0 {
      var i := n - 1;
      PageParts(stores, q, sizes, rows, i);
      ListingInOrder(stores, q, sizes, rows, i);
      var all, page := Listing(rows, sizes, i), Shown(rows[i], sizes[i]);
      ShownInOrder(q.descending, rows[i], sizes[i]);
      forall t | t in page && all != []
        ensures Ahead(q.descending, all[|all| - 1], t)
      {
        assert t in rows[i];
        TokenContinues(stores, q, sizes, rows, i - 1, t);
      }
      GlueInOrder(q.descending, all, page);
    }
  }

  lemma ShownInOrder(d: bool, rows: seq<Session>, size: nat)
    requires InOrder(d, rows)
    ensures InOrder(d, Shown(rows, size)) && forall t | t in Shown(rows, size) :: t in rows
  {
    hide Ahead;
  }

  /** A session that every request finds in its store, unmoved and matching. */
  ghost predicate Steady(stores: seq<map<string, Session>>, q: Query, id: string, created: int) {
    forall i | 0 <= i < |stores| :: id in stores[i] && stores[i][id].created == created && Matches(q, stores[i][id])
  }

  ghost predicate Lists(rows: seq<Session>, id: string, created: int) {
    exists s | s in rows :: s.id == id && s.created == created
  }

  /** Request i found more rows, and the session lies behind those it showed. */
  ghost predicate Behind(rows: seq<Session>, size: nat, d: bool, id: string, created: int) {
    var page := Shown(rows, size);
    |rows| > size && page != [] && Ahead(d, page[|page| - 1], Session(id, created, Active))
  }

  lemma NextPage(stores: seq<map<string, Session>>, q: Query, sizes: seq<nat>, rows: seq<seq<Session>>,
                 i: nat, id: string, created: int)
    requires Walk(stores, q, sizes, rows) && Aligned(stores) && i < |rows| && Steady(stores, q, id, created)
    requires i > 0 ==> Behind(rows[i - 1], sizes[i - 1], q.descending, id, created)
    ensures Lists(Shown(rows[i], sizes[i]), id, created) || Behind(rows[i], sizes[i], q.descending, id, created)
  {
    hide Ahead, PastCursor, Walk, Aligned, Token, Steady, IsPage, Shown;
    PageParts(stores, q, sizes, rows, i);
    SteadyIn(stores, q, id, created, i);
    var s := stores[i][id];
    StatusIsFree(q.descending, s);
    if i == 0 {
      FirstToken(rows, sizes, q.descending, s);
    } else {
      TokenContinues(stores, q, sizes, rows, i - 1, s);
    }
    OnPageOrBehind(rows[i], stores[i], q.(cursor := Token(rows, sizes, i), limit := sizes[i] + 1), sizes[i], s);
  }

  /** After n requests a steady session has been listed, or lies behind everything listed. */
  lemma {:induction false} ListedOrBehind(stores: seq<map<string, Session>>, q: Query, sizes: seq<nat>, rows: seq<seq<Session>>,
                                          n: nat, id: string, created: int)
    requires Walk(stores, q, sizes, rows) && Aligned(stores) && n <= |rows| && Steady(stores, q, id, created)
    ensures || Lists(Listing(rows, sizes, n), id, created)
            || (n > 0 ==> Behind(rows[n - 1], sizes[n - 1], q.descending, id, created))
  {
    hide Walk, Aligned, Steady, Lists, Behind, Shown;
    if n > 0 {
      PageParts(stores, q, sizes, rows, n - 1);
      ListedOrBehind(stores, q, sizes, rows, n - 1, id, created);
      var all, page := Listing(rows, sizes, n - 1), Shown(rows[n - 1], sizes[n - 1]);
      if !Lists(all, id, created) {
        NextPage(stores, q, sizes, rows, n - 1, id, created);
      }
      if Lists(all, id, created) || Lists(page, id, created) {
        ListsMore(all, page, id, created);
      }
    }
  }

  lemma ListsMore(a: seq<Session>, b: seq<Session>, id: string, created: int)
    requires Lists(a, id, created) || Lists(b, id, created)
    ensures Lists(a + b, id, created)
  {
    var s :| (s in a || s in b) && s.id == id && s.created == created;
    assert s in a + b;
  }

  lemma SteadyIn(stores: seq<map<string, Session>>, q: Query, id: string, created: int, i: nat)
    requires Steady(stores, q, id, created) && i < |stores| && Aligned(stores)
    ensures id in stores[i] && stores[i][id].created == created && Matches(q, stores[i][id]) && stores[i][id].id == id
  {
  }

  lemma StatusIsFree(d: bool, s: Session)
    ensures forall x :: Ahead(d, x, s) <==> Ahead(d, x, Session(s.id, s.created, Active))
  {
  }

  lemma FirstToken(rows: seq<seq<Session>>, sizes: seq<nat>, d: bool, s: Session)
    requires |rows| == |sizes|
    ensures PastCursor(Token(rows, sizes, 0), d, s)
  {
  }

  lemma OnPageOrBehind(rows: seq<Session>, all: map<string, Session>, q: Query, size: nat, s: Session)
    requires IsPage(rows, all, q) && q.limit == size + 1 && size > 0
    requires s.id in all && all[s.id] == s && Matches(q, s) && PastCursor(q.cursor, q.descending, s)
    ensures var page := Shown(rows, size);
            s in page || (|rows| > size && page != [] && Ahead(q.descending, page[|page| - 1], s))
  {
    hide Ahead, PastCursor, Matches;
    var page := Shown(rows, size);
    assert Eligible(all, q, s);
    if s in rows {
      var j :| 0 <= j < |rows| && rows[j] == s;
      if j < |page| {
        assert page[j] == s;
      }
    } else {
      assert page[size - 1] in rows;
    }
  }

  /**
    A finished walk, in either direction, with any page sizes, over a store that changes
    between requests: the listing is in strict order, so no session is listed twice, and it
    has every session that each request found in its store, unmoved and matching.
   */
  lemma WalkListsEachOnce(stores: seq<map<string, Session>>, q: Query, sizes: seq<nat>, rows: seq<seq<Session>>)
    requires Walk(stores, q, sizes, rows) && Aligned(stores) && rows != []
    requires |rows[|rows| - 1]| <= sizes[|rows| - 1]
    ensures var all := Listing(rows, sizes, |rows|);
            && InOrder(q.descending, all)
            && (forall i, j | 0 <= i < j < |all| :: all[i].id != all[j].id || all[i].created != all[j].created)
            && (forall id, created | Steady(stores, q, id, created) :: Lists(all, id, created))
  {
    hide Ahead, Walk, Aligned, Steady, Lists;
    PageParts(stores, q, sizes, rows, |rows| - 1);
    var all := Listing(rows, sizes, |rows|);
    ListingInOrder(stores, q, sizes, rows, |rows|);
    forall i, j | 0 <= i < j < |all|
      ensures all[i].id != all[j].id || all[i].created != all[j].created
    {
      AheadTotal(q.descending, all[i], all[j]);
    }
    forall id, created | Steady(stores, q, id, created)
      ensures Lists(all, id, created)
    {
      ListedOrBehind(stores, q, sizes, rows, |rows|, id, created);
    }
  }

  // ---- Walks over times that are not whole milliseconds ----

  function AllSessions(d: bool): Query {
    Query({}, None, None, FIRST_PAGE, d, 0)
  }

  function Pair(s: Session, t: Session): map<string, Session> {
    map[s.id := s, t.id := t]
  }

  lemma PairIsPage(s: Session, t: Session, q: Query)
    requires s.id != t.id && Ahead(q.descending, s, t) && q == AllSessions(q.descending).(cursor := q.cursor, limit := 2)
    requires PastCursor(q.cursor, q.descending, s) && PastCursor(q.cursor, q.descending, t)
    ensures IsPage([s, t], Pair(s, t), q)
  {
    hide Ahead, PastCursor;
    assert forall x | x in [s, t] :: x == s || x == t;
  }

  lemma PastTransitive(c: Cursor, d: bool, s: Session, t: Session)
    requires PastCursor(c, d, s) && Ahead(d, s, t)
    ensures PastCursor(c, d, t)
  {
    hide Ahead;
    if c.id != "" {
      AheadTransitive(d, Session(c.id, c.createdMs * MILLISECOND, Active), s, t);
    }
  }

  /** Two sessions, one per page, the store unchanged: the second page shows the first session again. */
  lemma UnalignedWalkRepeats(d: bool, s: Session, t: Session)
    requires s.id == "" || (!d && s.created % MILLISECOND != 0)
    requires t.id != s.id && Ahead(d, s, t)
    ensures var store, rows := Pair(s, t), [[s, t], [s, t]];
            Walk([store, store], AllSessions(d), [1, 1], rows) && Listing(rows, [1, 1], 2) == [s, s]
  {
    hide Ahead, PastCursor, IsPage;
    var store, q, rows, sizes := Pair(s, t), AllSessions(d), [[s, t], [s, t]], [1, 1];
    FirstToken(rows, sizes, d, s);
    FirstToken(rows, sizes, d, t);
    PairIsPage(s, t, q.(cursor := Token(rows, sizes, 0), limit := 2));
    TokenAfter(rows, sizes, 0);
    assert Token(rows, sizes, 1) == CursorOf(s);
    RepeatsItself(d, s);
    PastTransitive(CursorOf(s), d, s, t);
    PairIsPage(s, t, q.(cursor := CursorOf(s), limit := 2));
    assert Answered([store, store], q, sizes, rows, 0) && Answered([store, store], q, sizes, rows, 1);
    assert Listing(rows, sizes, 1) == [s];
  }

  lemma NothingPast(s: Session, t: Session, q: Query)
    requires !PastCursor(q.cursor, q.descending, s) && !PastCursor(q.cursor, q.descending, t) && q.limit > 0
    ensures IsPage([], Pair(s, t), q)
  {
    hide Ahead, PastCursor;
  }

  /** Descending, the walk over s and a session of its own millisecond ends without having listed the latter. */
  lemma UnalignedWalkMisses(s: Session)
    requires s.created % MILLISECOND != 0 && s.id != ""
    ensures var t := Shadowed(s);
            var stores, rows := [Pair(s, t), Pair(s, t)], [[s, t], []];
            && Walk(stores, AllSessions(true), [1, 1], rows) && |rows[1]| <= 1
            && Steady(stores, AllSessions(true), t.id, t.created) && !Lists(Listing(rows, [1, 1], 2), t.id, t.created)
  {
    hide Ahead, PastCursor, IsPage;
    var t := Shadowed(s);
    ShadowedIsPassedOver(s);
    NotPastItself(s);
    var store, q, sizes := Pair(s, t), AllSessions(true), [1, 1];
    var rows: seq<seq<Session>> := [[s, t], []];
    FirstToken(rows, sizes, true, s);
    FirstToken(rows, sizes, true, t);
    PairIsPage(s, t, q.(cursor := Token(rows, sizes, 0), limit := 2));
    TokenAfter(rows, sizes, 0);
    assert Token(rows, sizes, 1) == CursorOf(s);
    NothingPast(s, t, q.(cursor := CursorOf(s), limit := 2));
    assert Answered([store, store], q, sizes, rows, 0) && Answered([store, store], q, sizes, rows, 1);
    assert Listing(rows, sizes, 1) == [s];
    assert Listing(rows, sizes, 2) == [s];
  }

  lemma NotPastItself(s: Session)
    requires s.id != ""
    ensures !PastCursor(CursorOf(s), true, s)
  {
    Lexicographic.Irreflexive(s.id);
  }
}

/** Keyset pages of one session's events. */
module EventPages {
  import opened EventChain
  import opened StoreModel

  /** The page a request returns: one event more is fetched, and dropped when it is there. */
  function Shown(rows: seq<Envelope>, size: nat): seq<Envelope> {
    if |rows| > size then rows[..size] else rows
  }

  /** Where request i starts. */
  function After(start: int, pages: seq<seq<Envelope>>, i: nat): int
    requires i <= |pages|
  {
    if i == 0 then start
    else if pages[i - 1] == [] then 0
    else pages[i - 1][|pages[i - 1]| - 1].at
  }

  function Listing(pages: seq<seq<Envelope>>, n: nat): seq<Envelope>
    requires n <= |pages|
  {
    if n == 0 then [] else Listing(pages, n - 1) + pages[n - 1]
  }

  ghost predicate Page(log: seq<Envelope>, after: int, size: nat, page: seq<Envelope>, more: bool) {
    && size > 0 && Ascending(log)
    && page == Shown(Capped(Filter(log, after), size + 1), size)
    && (more ==> |Filter(log, after)| > size)
  }

  ghost predicate PageAt(logs: seq<seq<Envelope>>, start: int, sizes: seq<nat>, pages: seq<seq<Envelope>>, i: nat)
    requires i < |logs| == |sizes| == |pages|
  {
    Page(logs[i], After(start, pages, i), sizes[i], pages[i], i < |pages| - 1)
  }

  /** Request i reads `logs[i]`; logs only grow; every request but the last found an extra event. */
  ghost predicate Walk(logs: seq<seq<Envelope>>, start: int, sizes: seq<nat>, pages: seq<seq<Envelope>>) {
    && |logs| == |sizes| == |pages|
    && (forall i, j | 0 <= i < j < |pages| :: logs[i] <= logs[j])
    && (forall i {:trigger PageAt(logs, start, sizes, pages, i)} | 0 <= i < |pages| :: PageAt(logs, start, sizes, pages, i))
  }

  lemma {:induction false} FilterMembers(log: seq<Envelope>, n: nat, start: int)
    requires n <= |log| && Ascending(log)
    ensures var s := Above(log, n, start);
            Ascending(s) && forall e | e in s :: e.at > start && e in log && (n > 0 ==> e.at <= log[n - 1].at)
  {
    if n > 0 {
      FilterMembers(log, n - 1, start);
    }
  }

  /** Filtering again from a later start drops exactly the events up to it. */
  lemma {:induction false} FilterAgain(log: seq<Envelope>, n: nat, start: int, later: int)
    requires n <= |log| && start <= later
    ensures Above(Above(log, n, start), |Above(log, n, start)|, later) == Above(log, n, later)
  {
    if n > 0 {
      FilterAgain(log, n - 1, start, later);
      var s, e := Above(log, n - 1, start), log[n - 1];
      if e.at > start {
        FilterSnoc(s, e, later);
      } else {
        assert Above(log, n, start) == s;
      }
    }
  }

  /** In an ascending list, what lies above its k-th element is the rest. */
  lemma {:induction false} AboveSplit(s: seq<Envelope>, k: nat, n: nat)
    requires Ascending(s) && 0 < k <= n <= |s|
    ensures Above(s, n, s[k - 1].at) == s[k..n]
  {
    if n > k {
      AboveSplit(s, k, n - 1);
      assert s[k..n] == s[k..n - 1] + [s[n - 1]];
    } else {
      NothingAbove(s, k, s[k - 1].at);
    }
  }

  /** Listing a first part of what lies above start leaves what lies above its last event. */
  lemma Resume(log: seq<Envelope>, start: int, k: nat)
    requires Ascending(log) && 0 < k <= |Filter(log, start)|
    ensures var s := Filter(log, start); s == s[..k] + Filter(log, s[k - 1].at) && s[k - 1].at > start
  {
    var s := Filter(log, start);
    FilterMembers(log, |log|, start);
    assert s[k - 1] in s;
    FilterAgain(log, |log|, start, s[k - 1].at);
    AboveSplit(s, k, |s|);
  }

  lemma GrownFilter(a: seq<Envelope>, b: seq<Envelope>, start: int)
    requires a <= b
    ensures Filter(a, start) <= Filter(b, start)
  {
    assert b == a + b[|a|..];
    FilterAppends(a, b[|a|..], |b| - |a|, start);
  }

  /** What was listed so far is the beginning of what lies above the start, and the next request takes up right after it. */
  lemma {:induction false} ListedPrefix(logs: seq<seq<Envelope>>, start: int, sizes: seq<nat>, pages: seq<seq<Envelope>>, n: nat)
    requires Walk(logs, start, sizes, pages) && n < |pages|
    ensures Filter(logs[n], start) == Listing(pages, n) + Filter(logs[n], After(start, pages, n))
  {
    hide Filter, Ascending, Walk;
    if n > 0 {
      var i := n - 1;
      ListedPrefix(logs, start, sizes, pages, i);
      FullPage(logs, start, sizes, pages, i);
      NextStart(logs[i], logs[n], start, After(start, pages, i), Listing(pages, i), sizes[i]);
    }
  }

  lemma FullPage(logs: seq<seq<Envelope>>, start: int, sizes: seq<nat>, pages: seq<seq<Envelope>>, i: nat)
    requires Walk(logs, start, sizes, pages) && i + 1 < |pages|
    ensures |logs| == |sizes| == |pages| && logs[i] <= logs[i + 1] && Ascending(logs[i + 1])
    ensures var rest := Filter(logs[i], After(start, pages, i));
            && 0 < sizes[i] <= |rest| && pages[i] == rest[..sizes[i]]
            && After(start, pages, i + 1) == rest[sizes[i] - 1].at
  {
    hide Filter, Ascending, Page;
    assert PageAt(logs, start, sizes, pages, i) && PageAt(logs, start, sizes, pages, i + 1);
    PageIs(logs[i], After(start, pages, i), sizes[i], pages[i], true);
    PageIs(logs[i + 1], After(start, pages, i + 1), sizes[i + 1], pages[i + 1], i + 1 < |pages| - 1);
  }

  lemma PageIs(log: seq<Envelope>, after: int, size: nat, page: seq<Envelope>, more: bool)
    requires Page(log, after, size, page, more)
    ensures var rest := Filter(log, after);
            && size > 0 && Ascending(log) && (more ==> |rest| > size)
            && |page| == (if |rest| > size then size else |rest|) && page == rest[..|page|]
  {
    hide Filter, Ascending;
  }

  lemma NextStart(log: seq<Envelope>, grown: seq<Envelope>, start: int, later: int, listed: seq<Envelope>, size: nat)
    requires log <= grown && Ascending(grown) && Filter(log, start) == listed + Filter(log, later)
    requires 0 < size <= |Filter(log, later)|
    ensures var page := Filter(log, later)[..size];
            Filter(grown, start) == listed + page + Filter(grown, page[size - 1].at)
  {
    hide Filter, Ascending;
    var s, g, page := Filter(log, start), Filter(grown, start), Filter(log, later)[..size];
    GrownFilter(log, grown, start);
    var k := |listed| + size;
    assert g[..k] == s[..k] == listed + page;
    assert g[k - 1] == page[size - 1];
    Resume(grown, start, k);
  }

  /**
    A finished walk lists exactly the events above the start in the log the last request
    read, whatever was appended between requests; an unfinished one lists a beginning of them.
   */
  lemma WalkListsTheLog(logs: seq<seq<Envelope>>, start: int, sizes: seq<nat>, pages: seq<seq<Envelope>>)
    requires Walk(logs, start, sizes, pages) && pages != []
    ensures var n := |pages| - 1;
            && Listing(pages, |pages|) <= Filter(logs[n], start)
            && (|Filter(logs[n], After(start, pages, n))| <= sizes[n] <==> Listing(pages, |pages|) == Filter(logs[n], start))
  {
    hide Filter, Ascending, Page, Walk;
    var n := |pages| - 1;
    ListedPrefix(logs, start, sizes, pages, n);
    WalkPage(logs, start, sizes, pages, n);
    PageIs(logs[n], After(start, pages, n), sizes[n], pages[n], false);
    LastPage(Filter(logs[n], start), Listing(pages, n), Filter(logs[n], After(start, pages, n)), pages[n], sizes[n]);
  }

  lemma WalkPage(logs: seq<seq<Envelope>>, start: int, sizes: seq<nat>, pages: seq<seq<Envelope>>, n: nat)
    requires Walk(logs, start, sizes, pages) && n < |pages|
    ensures |logs| == |sizes| == |pages| && Page(logs[n], After(start, pages, n), sizes[n], pages[n], n < |pages| - 1)
  {
    assert PageAt(logs, start, sizes, pages, n);
  }

  lemma LastPage(all: seq<Envelope>, listed: seq<Envelope>, rest: seq<Envelope>, page: seq<Envelope>, size: nat)
    requires all == listed + rest && |page| == (if |rest| > size then size else |rest|) && page == rest[..|page|]
    ensures listed + page <= all && (|rest| <= size <==> listed + page == all)
  {
  }
}
