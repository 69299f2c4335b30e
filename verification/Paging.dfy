/** Walking backwards through a conversation with a keyset cursor. */
module Paging {
  import opened Collections
  import opened Rows
  import opened Ordering

  datatype Message = Message(created: int, id: nat)

  /** Later first; the id breaks ties. */
  predicate Later(a: Message, b: Message) {
    a.created > b.created || (a.created == b.created && a.id > b.id)
  }

  datatype Page = Page(items: seq<Message>, hasMore: bool, next: Option<nat>)

  predicate UniqueIds(table: seq<Message>) {
    forall i, j :: 0 <= i < j < |table| ==> table[i].id != table[j].id
  }

  /** The row with an id; None is the source's not-found error. */
  function Find(table: seq<Message>, id: nat): Option<Message> {
    if table == [] then None
    else if table[|table| - 1].id == id then Some(table[|table| - 1]) else Find(table[..|table| - 1], id)
  }

  function Below(table: seq<Message>, cursor: Message): seq<Message> {
    if table == [] then []
    else
      var rest := Below(table[..|table| - 1], cursor);
      if Later(cursor, table[|table| - 1]) then rest + [table[|table| - 1]] else rest
  }

  function Take(rows: seq<Message>, n: nat): seq<Message> {
    if n <= |rows| then rows[..n] else rows
  }

  /** One page: the first `limit` rows below the cursor, and whether there is one more. */
  function ListMessages(table: seq<Message>, before: Option<nat>, limit: nat): Option<Page> {
    var cursor := if before.Some? then Find(table, before.value) else None;
    if before.Some? && cursor.None? then None
    else
      var matching := if before.Some? then Below(table, cursor.value) else table;
      var rows := Take(Sort(matching, Later), limit + 1);
      var items := Take(rows, limit);
      var hasMore := |rows| > limit;
      Some(Page(items, hasMore, if hasMore && items != [] then Some(items[|items| - 1].id) else None))
  }

  /** Follow next_before until has_more is false, at most `n` pages; `page(k, before)` is the answer to the
      k-th request.  The second component says that the walk came to its end. */
  function Walk(page: (nat, Option<nat>) -> Option<Page>, k: nat, before: Option<nat>, n: nat): (seq<Message>, bool)
    decreases n
  {
    if n == 0 then ([], false)
    else
      match page(k, before)
      case None => ([], false)
      case Some(p) =>
        if !p.hasMore then (p.items, true)
        else
          var (rest, ended) := Walk(page, k + 1, p.next, n - 1);
          (p.items + rest, ended)
  }

  /** The k-th request reads the k-th state of the table. */
  function Requests(tables: nat -> seq<Message>, limit: nat): (nat, Option<nat>) -> Option<Page> {
    (k: nat, before: Option<nat>) => ListMessages(tables(k), before, limit)
  }

  // ---------------------------------------------------------------------------------------------
  // Sorted tables
  // ---------------------------------------------------------------------------------------------

  /** Between pages only messages later than every one present at the first call are added. */
  ghost predicate OnlyNewer(tables: nat -> seq<Message>) {
    forall k: nat ::
      && UniqueIds(tables(k))
      && (forall m :: m in tables(0) ==> m in tables(k))
      && (forall m, n :: m in tables(k) && m !in tables(0) && n in tables(0) ==> Later(m, n))
  }

  lemma {:induction false} BelowExactly(table: seq<Message>, cursor: Message)
    requires UniqueIds(table)
    ensures UniqueIds(Below(table, cursor))
    ensures forall m :: m in Below(table, cursor) <==> m in table && Later(cursor, m)
  {
    if table != [] {
      var front, last := table[..|table| - 1], table[|table| - 1];
      BelowExactly(front, cursor);
      assert table == front + [last];
      forall i | 0 <= i < |Below(front, cursor)|
        ensures Below(front, cursor)[i].id != last.id
      {
        var m := Below(front, cursor)[i];
        assert m in front;
      }
    }
  }

  lemma {:induction false} FindExactly(table: seq<Message>, m: Message)
    requires UniqueIds(table) && m in table
    ensures Find(table, m.id) == Some(m)
  {
    var front, last := table[..|table| - 1], table[|table| - 1];
    assert table == front + [last];
    if m != last {
      FindExactly(front, m);
    }
  }

  /** Rows without repetitions and with the same members are the same multiset. */
  lemma SameMembers(a: seq<Message>, b: seq<Message>)
    requires UniqueIds(a) && UniqueIds(b) && forall m :: m in a <==> m in b
    ensures multiset(a) == multiset(b)
  {
    forall m
      ensures multiset(a)[m] == multiset(b)[m]
    {
      if m in a {
        var i :| 0 <= i < |a| && a[i] == m;
        var j :| 0 <= j < |b| && b[j] == m;
        Once(a, i);
        Once(b, j);
      }
    }
  }

  /** The messages of a table, latest first. */
  function Descending(table: seq<Message>): seq<Message> {
    Sort(table, Later)
  }

  lemma DescendingUnique(table: seq<Message>)
    requires UniqueIds(table)
    ensures var s := Descending(table);
            && |s| == |table| && UniqueIds(s) && multiset(s) == multiset(table)
            && (forall i, j :: 0 <= i < j < |s| ==> Later(s[i], s[j]))
            && (forall m :: m in s <==> m in table)
  {
    SortSorts(table, Later);
    var s := Descending(table);
    forall m
      ensures m in s <==> m in table
    {
      assert m in multiset(s) <==> m in multiset(table);
    }
    Rearranged(table, s);
  }

  lemma Rearranged(table: seq<Message>, s: seq<Message>)
    requires UniqueIds(table) && multiset(s) == multiset(table)
    ensures UniqueIds(s)
  {
    forall i, j | 0 <= i < j < |s|
      ensures s[i].id != s[j].id
    {
      assert s[i] in multiset(table) && s[j] in multiset(table);
      if s[i] == s[j] {
        var k :| 0 <= k < |table| && table[k] == s[i];
        Once(table, k);
        Twice(s, i, j);
      }
    }
  }

  lemma RestMember(s: seq<Message>, m: nat, x: Message)
    requires 0 < m <= |s| && forall i, j :: 0 <= i < j < |s| ==> Later(s[i], s[j])
    ensures x in s[m..] <==> x in s && Later(s[m - 1], x)
  {
    if x in s[m..] {
      var i :| 0 <= i < |s| - m && s[m..][i] == x;
      assert s[m + i] == x;
    }
    if x in s {
      var i :| 0 <= i < |s| && s[i] == x;
      if i >= m {
        assert s[m..][i - m] == x;
      } else if i < m - 1 {
        assert Later(s[i], s[m - 1]);
      }
    }
  }

  /** Below the m-th message of the first table there are exactly the ones after it, whatever was added. */
  lemma RestOfWalk(tables: nat -> seq<Message>, k: nat, m: nat)
    requires OnlyNewer(tables) && 0 < m <= |tables(0)|
    ensures var s := Descending(tables(0));
            |s| == |tables(0)| && Descending(Below(tables(k), s[m - 1])) == s[m..]
  {
    DescendingUnique(tables(0));
    var s := Descending(tables(0));
    var cursor := s[m - 1];
    var below := Below(tables(k), cursor);
    BelowExactly(tables(k), cursor);
    forall x
      ensures x in below <==> x in s[m..]
    {
      RestMember(s, m, x);
    }
    assert UniqueIds(s[m..]);
    SameMembers(below, s[m..]);
    DescendingUnique(below);
    assert Sorted(Descending(below), Later) && Sorted(s[m..], Later);
    SortedUnique(Descending(below), s[m..], Later);
  }

  /** The page after the first `m` messages of `s`. */
  function PageFrom(s: seq<Message>, m: nat, limit: nat): Page
    requires m <= |s| && limit >= 1
  {
    if m + limit < |s| then Page(s[m..m + limit], true, Some(s[m + limit - 1].id)) else Page(s[m..], false, None)
  }

  lemma NextPage(tables: nat -> seq<Message>, k: nat, m: nat, limit: nat)
    requires OnlyNewer(tables) && 0 < m <= |tables(0)| && limit >= 1
    ensures var s := Descending(tables(0));
            |s| == |tables(0)| && ListMessages(tables(k), Some(s[m - 1].id), limit) == Some(PageFrom(s, m, limit))
  {
    DescendingUnique(tables(0));
    var s := Descending(tables(0));
    assert s[m - 1] in tables(k);
    FindExactly(tables(k), s[m - 1]);
    RestOfWalk(tables, k, m);
    TakePage(s, m, limit);
  }

  lemma FirstPage(table: seq<Message>, limit: nat)
    requires limit >= 1
    ensures ListMessages(table, None, limit) == Some(PageFrom(Descending(table), 0, limit))
  {
    assert Descending(table)[0..] == Descending(table);
    TakePage(Descending(table), 0, limit);
  }

  lemma TakePage(s: seq<Message>, m: nat, limit: nat)
    requires m <= |s| && limit >= 1
    ensures var rows := Take(s[m..], limit + 1);
            var items := Take(rows, limit);
            Page(items, |rows| > limit, if |rows| > limit && items != [] then Some(items[|items| - 1].id) else None)
            == PageFrom(s, m, limit)
  {
  }

  /** The pages a walk over so many messages takes. */
  function PagesNeeded(messages: nat, limit: nat): (n: nat)
    requires limit >= 1
    ensures n >= 1
  {
    if messages <= limit then 1 else 1 + PagesNeeded(messages - limit, limit)
  }

  /** Request `k` with the cursor on message `m - 1` is answered with the page that follows it. */
  predicate Served(page: (nat, Option<nat>) -> Option<Page>, s: seq<Message>, k: nat, m: nat, limit: nat)
    requires limit >= 1 && 0 < m <= |s|
  {
    page(k, Some(s[m - 1].id)) == Some(PageFrom(s, m, limit))
  }

  /** Every cursor the walk over `s` can reach is served. */
  ghost predicate Serves(page: (nat, Option<nat>) -> Option<Page>, s: seq<Message>, limit: nat)
    requires limit >= 1
  {
    && page(0, None) == Some(PageFrom(s, 0, limit))
    && forall k: nat, m: nat :: 0 < m <= |s| ==> Served(page, s, k, m, limit)
  }

  lemma NewerServes(tables: nat -> seq<Message>, limit: nat)
    requires OnlyNewer(tables) && limit >= 1
    ensures Serves(Requests(tables, limit), Descending(tables(0)), limit)
  {
    DescendingUnique(tables(0));
    FirstPage(tables(0), limit);
    var s := Descending(tables(0));
    forall k: nat, m: nat | 0 < m <= |s|
      ensures Served(Requests(tables, limit), s, k, m, limit)
    {
      NextPage(tables, k, m, limit);
    }
  }

  lemma {:induction false} WalkFrom(page: (nat, Option<nat>) -> Option<Page>, s: seq<Message>, k: nat, m: nat,
                                    limit: nat, n: nat)
    requires limit >= 1 && Serves(page, s, limit) && 0 < m <= |s|
    requires n >= PagesNeeded(|s| - m, limit)
    ensures Walk(page, k, Some(s[m - 1].id), n) == (s[m..], true)
    decreases n
  {
    assert Served(page, s, k, m, limit);
    if m + limit < |s| {
      WalkFrom(page, s, k + 1, m + limit, limit, n - 1);
      assert s[m..m + limit] + s[m + limit..] == s[m..];
    }
  }

  lemma WalkFromStart(page: (nat, Option<nat>) -> Option<Page>, s: seq<Message>, limit: nat, n: nat)
    requires limit >= 1 && Serves(page, s, limit) && n >= PagesNeeded(|s|, limit)
    ensures Walk(page, 0, None, n) == (s, true)
  {
    if limit < |s| {
      WalkFrom(page, s, 1, limit, limit, n - 1);
      assert s[0..limit] + s[limit..] == s;
    } else {
      assert s[0..] == s;
    }
  }

  lemma {:induction false} PagesEnough(messages: nat, limit: nat, n: nat)
    requires limit >= 1 && n >= 1 && n * limit >= messages
    ensures n >= PagesNeeded(messages, limit)
  {
    if messages > limit {
      assert (n - 1) * limit == n * limit - limit;
      assert n != 1;
      PagesEnough(messages - limit, limit, n - 1);
    }
  }

  /** Following next_before until has_more is false gives every message present at the first call exactly
      once, latest first, for any limit and any ties, whatever newer messages arrive in between; and n
      pages are enough as soon as n * limit reaches their number. */
  lemma WalkIsComplete(tables: nat -> seq<Message>, limit: nat, n: nat)
    requires OnlyNewer(tables) && limit >= 1 && n >= 1 && n * limit >= |tables(0)|
    ensures var (items, ended) := Walk(Requests(tables, limit), 0, None, n);
            && ended
            && multiset(items) == multiset(tables(0)) && UniqueIds(items)
            && forall i, j :: 0 <= i < j < |items| ==>
                 items[i].created > items[j].created
                 || (items[i].created == items[j].created && items[i].id > items[j].id)
  {
    DescendingUnique(tables(0));
    NewerServes(tables, limit);
    PagesEnough(|tables(0)|, limit, n);
    WalkFromStart(Requests(tables, limit), Descending(tables(0)), limit, n);
  }

  // ---------------------------------------------------------------------------------------------
  // One page
  // ---------------------------------------------------------------------------------------------

  /** A message the page has to look at: below the cursor, if there is one. */
  predicate Listed(table: seq<Message>, cursor: Option<Message>, m: Message) {
    m in table
    && (cursor.Some? ==>
          m.created < cursor.value.created || (m.created == cursor.value.created && m.id < cursor.value.id))
  }

  function Matching(table: seq<Message>, cursor: Option<Message>): seq<Message> {
    if cursor.Some? then Below(table, cursor.value) else table
  }

  lemma MatchingExactly(table: seq<Message>, cursor: Option<Message>)
    requires UniqueIds(table)
    ensures UniqueIds(Matching(table, cursor))
    ensures forall m :: m in Matching(table, cursor) <==> Listed(table, cursor, m)
  {
    if cursor.Some? {
      BelowExactly(table, cursor.value);
    }
  }

  /** The first messages of a list, and what that leaves out. */
  lemma PageOf(s: seq<Message>, limit: nat)
    requires limit >= 1 && forall i, j :: 0 <= i < j < |s| ==> Later(s[i], s[j])
    ensures var p := PageFrom(s, 0, limit);
            && |p.items| == (if |s| > limit then limit else |s|) && (p.hasMore <==> |s| > limit)
            && (forall m :: m in p.items ==> m in s)
            && (forall i, m :: 0 <= i < |p.items| && m in s && m !in p.items ==> Later(p.items[i], m))
            && (forall i, j :: 0 <= i < j < |p.items| ==> Later(p.items[i], p.items[j]))
            && p.next == if |s| > limit then Some(p.items[limit - 1].id) else None
  {
    var p := PageFrom(s, 0, limit);
    forall i, m | 0 <= i < |p.items| && m in s && m !in p.items
      ensures Later(p.items[i], m)
    {
      assert s == p.items + s[|p.items|..];
      var j :| 0 <= j < |s| - |p.items| && s[|p.items|..][j] == m;
      assert m == s[|p.items| + j];
    }
  }

  /** A page holds at most `limit` of the messages below its cursor, latest first; those it leaves out come later in
      the listing, there are some iff it says so, and the next cursor is its last message. */
  ghost predicate IsPage(table: seq<Message>, cursor: Option<Message>, limit: nat, p: Page) {
    && |p.items| <= limit && (p.hasMore ==> |p.items| == limit)
    && (forall m :: m in p.items ==> Listed(table, cursor, m))
    && (forall i, j :: 0 <= i < j < |p.items| ==>
          p.items[i].created > p.items[j].created
          || (p.items[i].created == p.items[j].created && p.items[i].id > p.items[j].id))
    && (forall i, m :: 0 <= i < |p.items| && Listed(table, cursor, m) && m !in p.items ==>
          p.items[i].created > m.created || (p.items[i].created == m.created && p.items[i].id > m.id))
    && (p.hasMore <==> exists m :: Listed(table, cursor, m) && m !in p.items)
    && p.next == if p.hasMore && limit > 0 && |p.items| == limit then Some(p.items[limit - 1].id) else None
  }

  lemma FirstOfListed(table: seq<Message>, cursor: Option<Message>, limit: nat, s: seq<Message>)
    requires limit >= 1 && UniqueIds(s)
    requires forall i, j :: 0 <= i < j < |s| ==> Later(s[i], s[j])
    requires forall m :: m in s <==> Listed(table, cursor, m)
    ensures IsPage(table, cursor, limit, PageFrom(s, 0, limit))
  {
    PageOf(s, limit);
    var p := PageFrom(s, 0, limit);
    if |s| > limit {
      assert s[limit] !in p.items && Listed(table, cursor, s[limit]);
    } else {
      assert p.items == s;
    }
  }

  lemma PageExactly(table: seq<Message>, cursor: Option<Message>, limit: nat)
    requires UniqueIds(table) && limit >= 1 && (cursor.Some? ==> cursor.value in table)
    ensures var page := ListMessages(table, if cursor.Some? then Some(cursor.value.id) else None, limit);
            page.Some? && IsPage(table, cursor, limit, page.value)
  {
    var matching := Matching(table, cursor);
    MatchingExactly(table, cursor);
    DescendingUnique(matching);
    FirstOfListed(table, cursor, limit, Descending(matching));
    ListedPage(table, cursor, limit);
  }

  lemma ListedPage(table: seq<Message>, cursor: Option<Message>, limit: nat)
    requires UniqueIds(table) && limit >= 1 && (cursor.Some? ==> cursor.value in table)
    ensures ListMessages(table, if cursor.Some? then Some(cursor.value.id) else None, limit)
            == Some(PageFrom(Descending(Matching(table, cursor)), 0, limit))
  {
    if cursor.Some? {
      FindExactly(table, cursor.value);
    }
    var s := Descending(Matching(table, cursor));
    assert s[0..] == s;
    TakePage(s, 0, limit);
  }

  /** A cursor that names no message is an error. */
  lemma {:induction false} UnknownCursor(table: seq<Message>, before: nat, limit: nat)
    ensures ListMessages(table, Some(before), limit).None? <==> forall m :: m in table ==> m.id != before
  {
    Unfound(table, before);
  }

  lemma {:induction false} Unfound(table: seq<Message>, id: nat)
    ensures Find(table, id).None? <==> forall m :: m in table ==> m.id != id
  {
    if table != [] {
      Unfound(table[..|table| - 1], id);
      assert table == table[..|table| - 1] + [table[|table| - 1]];
    }
  }
}
