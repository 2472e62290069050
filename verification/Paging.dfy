/** Keyset pages of a feed: Next goes older, Prev newer, from the last or first post of a page. */
module Paging {
  import opened Messages

  const WEB_PAGE: nat := 30

  /** A feed's rows, each at its time: arrival or last touch. */
  type Rows = map<Id, int>

  /** (time, id) order, the one the queries sort by; no two rows share a place. */
  predicate Older(a: (int, Id), b: (int, Id))
  {
    a.0 < b.0 || (a.0 == b.0 && a.1 < b.1)
  }

  function KeyOf(rows: Rows, x: Id): (int, Id)
    requires x in rows
  {
    (rows[x], x)
  }

  ghost predicate IsTop(rows: Rows, x: Id)
  {
    x in rows && forall y :: y in rows && y != x ==> Older(KeyOf(rows, y), KeyOf(rows, x))
  }

  lemma {:induction false} TopExists(rows: Rows)
    requires rows != map[]
    ensures exists x :: IsTop(rows, x)
    decreases |rows|
  {
    var x :| x in rows;
    if rows.Keys == {x} {
      assert IsTop(rows, x);
    } else {
      var rest := rows - {x};
      assert rows == rest[x := rows[x]];
      TopExists(rest);
      var y :| IsTop(rest, y);
      var top := if Older(KeyOf(rows, x), KeyOf(rows, y)) then y else x;
      forall z | z in rows && z != top
        ensures Older(KeyOf(rows, z), KeyOf(rows, top))
      {
        if z != x && z != y { assert Older(KeyOf(rest, z), KeyOf(rest, y)); }
      }
      assert IsTop(rows, top);
    }
  }

  /** ORDER BY time DESC, id DESC. */
  ghost function Desc(rows: Rows): seq<Id>
    decreases |rows|
  {
    if rows == map[] then []
    else
      TopExists(rows);
      var x :| IsTop(rows, x);
      assert rows == (rows - {x})[x := rows[x]];
      [x] + Desc(rows - {x})
  }

  /** s lists the rows, each once, newest first. */
  ghost predicate Lists(rows: Rows, s: seq<Id>)
  {
    && (forall x :: x in s <==> x in rows)
    && (forall i, j :: 0 <= i < j < |s| ==> Older(KeyOf(rows, s[j]), KeyOf(rows, s[i])))
  }

  lemma {:induction false} DescLists(rows: Rows)
    ensures Lists(rows, Desc(rows))
    decreases |rows|
  {
    if rows != map[] {
      var s := Desc(rows);
      var x := s[0];
      var rest := rows - {x};
      assert rows == rest[x := rows[x]];
      DescLists(rest);
      assert s == [x] + Desc(rest);
      forall i, j | 0 <= i < j < |s|
        ensures Older(KeyOf(rows, s[j]), KeyOf(rows, s[i]))
      {
        assert s[j] == Desc(rest)[j - 1] && s[j] in rest;
        if i > 0 { assert Older(KeyOf(rest, Desc(rest)[j - 1]), KeyOf(rest, Desc(rest)[i - 1])); }
      }
    }
  }

  lemma TopOnce(rows: Rows, x: Id, y: Id)
    requires IsTop(rows, x) && IsTop(rows, y)
    ensures x == y
  {
  }

  lemma HeadIsTop(rows: Rows, s: seq<Id>)
    requires Lists(rows, s) && s != []
    ensures IsTop(rows, s[0])
  {
    assert s[0] in s;
    forall y: Id | y in rows && y != s[0]
      ensures Older(KeyOf(rows, y), KeyOf(rows, s[0]))
    {
      HeadIsNewer(rows, s, y);
    }
  }

  lemma HeadIsNewer(rows: Rows, s: seq<Id>, y: Id)
    requires Lists(rows, s) && s != [] && s[0] in rows && y in rows && y != s[0]
    ensures Older(KeyOf(rows, y), KeyOf(rows, s[0]))
  {
    assert y in s;
    var j: nat :| j < |s| && s[j] == y;
    assert 0 < j;
    assert Older(KeyOf(rows, s[j]), KeyOf(rows, s[0]));
  }

  /** There is one such list. */
  lemma {:induction false} ListedOnce(rows: Rows, s: seq<Id>, t: seq<Id>)
    requires Lists(rows, s) && Lists(rows, t)
    ensures s == t
    decreases |s|
  {
    assert s != [] ==> s[0] in s && s[0] in t;
    assert t != [] ==> t[0] in t && t[0] in s;
    if s != [] && t != [] {
      HeadIsTop(rows, s);
      HeadIsTop(rows, t);
      TopOnce(rows, s[0], t[0]);
      TailLists(rows, s);
      TailLists(rows, t);
      ListedOnce(rows - {s[0]}, s[1..], t[1..]);
    }
  }

  lemma TailLists(rows: Rows, s: seq<Id>)
    requires Lists(rows, s) && s != []
    ensures Lists(rows - {s[0]}, s[1..])
  {
    var rest := rows - {s[0]};
    forall x
      ensures x in s[1..] <==> x in rest
    {
      if x in rest {
        assert x in s;
        var i :| 0 <= i < |s| && s[i] == x;
        assert s[1..][i - 1] == x;
      }
      if x in s[1..] {
        var i :| 0 <= i < |s[1..]| && s[1..][i] == x;
        assert Older(KeyOf(rows, s[i + 1]), KeyOf(rows, s[0]));
      }
    }
    forall i, j | 0 <= i < j < |s[1..]|
      ensures Older(KeyOf(rest, s[1..][j]), KeyOf(rest, s[1..][i]))
    {
      assert Older(KeyOf(rows, s[j + 1]), KeyOf(rows, s[i + 1]));
    }
  }

  // ---- the two queries ----

  function Past(rows: Rows, k: (int, Id)): Rows { map x | x in rows && Older(KeyOf(rows, x), k) :: rows[x] }
  function Since(rows: Rows, k: (int, Id)): Rows { map x | x in rows && Older(k, KeyOf(rows, x)) :: rows[x] }

  function Take<T>(s: seq<T>, n: nat): seq<T> { if |s| <= n then s else s[..n] }

  function Reversed<T>(s: seq<T>): (r: seq<T>)
    ensures |r| == |s| && forall i :: 0 <= i < |s| ==> r[i] == s[|s| - 1 - i]
  {
    if s == [] then [] else Reversed(s[1..]) + [s[0]]
  }

  /** Rows before a cursor, newest first; with none, from the top. */
  ghost function OlderPage(rows: Rows, before: Option<Id>, n: nat): seq<Id>
    requires before.Some? ==> before.value in rows
  {
    Take(Desc(if before.None? then rows else Past(rows, KeyOf(rows, before.value))), n)
  }

  /** Rows after a cursor, oldest first. */
  ghost function NewerPage(rows: Rows, after: Id, n: nat): seq<Id>
    requires after in rows
  {
    Take(Reversed(Desc(Since(rows, KeyOf(rows, after)))), n)
  }

  /** Before and after a row of the feed are what stands before and after it in the order. */
  lemma CursorSplits(rows: Rows, i: nat)
    requires i < |Desc(rows)|
    ensures Desc(rows)[i] in rows
    ensures Desc(Past(rows, KeyOf(rows, Desc(rows)[i]))) == Desc(rows)[i + 1..]
    ensures Desc(Since(rows, KeyOf(rows, Desc(rows)[i]))) == Desc(rows)[..i]
  {
    var f := Desc(rows);
    DescLists(rows);
    assert f[i] in f;
    var k := KeyOf(rows, f[i]);
    PastLists(rows, f, i);
    SinceLists(rows, f, i);
    DescLists(Past(rows, k));
    DescLists(Since(rows, k));
    ListedOnce(Past(rows, k), Desc(Past(rows, k)), f[i + 1..]);
    ListedOnce(Since(rows, k), Desc(Since(rows, k)), f[..i]);
  }

  lemma PastLists(rows: Rows, f: seq<Id>, i: nat)
    requires Lists(rows, f) && i < |f| && f[i] in rows
    ensures Lists(Past(rows, KeyOf(rows, f[i])), f[i + 1..])
  {
    var past := Past(rows, KeyOf(rows, f[i]));
    forall x
      ensures x in f[i + 1..] <==> x in past
    {
      if x in past {
        assert x in f;
        var j :| 0 <= j < |f| && f[j] == x;
        assert j > i;
        assert f[i + 1..][j - i - 1] == x;
      }
      if x in f[i + 1..] {
        var j :| 0 <= j < |f[i + 1..]| && f[i + 1..][j] == x;
        assert x == f[j + i + 1] && x in f;
      }
    }
    var rest := f[i + 1..];
    forall p, q | 0 <= p < q < |rest|
      ensures Older(KeyOf(past, rest[q]), KeyOf(past, rest[p]))
    {
      assert rest[p] in rest && rest[q] in rest;
      assert Older(KeyOf(rows, f[q + i + 1]), KeyOf(rows, f[p + i + 1]));
    }
  }

  lemma SinceLists(rows: Rows, f: seq<Id>, i: nat)
    requires Lists(rows, f) && i < |f| && f[i] in rows
    ensures Lists(Since(rows, KeyOf(rows, f[i])), f[..i])
  {
    var since := Since(rows, KeyOf(rows, f[i]));
    forall x
      ensures x in f[..i] <==> x in since
    {
      if x in since {
        assert x in f;
        var j :| 0 <= j < |f| && f[j] == x;
        assert j < i;
        assert f[..i][j] == x;
      }
      if x in f[..i] {
        var j :| 0 <= j < i && f[..i][j] == x;
        assert x == f[j] && x in f;
      }
    }
    var front := f[..i];
    forall p, q | 0 <= p < q < |front|
      ensures Older(KeyOf(since, front[q]), KeyOf(since, front[p]))
    {
      assert front[p] in front && front[q] in front;
      assert Older(KeyOf(rows, f[q]), KeyOf(rows, f[p]));
    }
  }

  // ---- a page ----

  /** A page and its neighbours' cursors; home asks for a redirect to the first page. */
  datatype Pager = Pager(posts: seq<Id>, prev: Option<Id>, next: Option<Id>, home: bool)

  datatype Query = Top | Before(id: Id) | After(id: Id)

  predicate Fits(rows: Rows, q: Query)
  {
    match q
    case Top => true
    case Before(x) => x in rows
    case After(x) => x in rows
  }

  ghost function PageOf(rows: Rows, q: Query): Pager
    requires Fits(rows, q)
  {
    match q
    case After(x) =>
      var asc := NewerPage(rows, x, WEB_PAGE + 1);
      if |asc| <= WEB_PAGE then Pager([], None, None, true)
      else
        var posts := Reversed(asc[..WEB_PAGE]);
        Pager(posts, Some(posts[0]), Some(posts[|posts| - 1]), false)
    case Top =>
      var posts := OlderPage(rows, None, WEB_PAGE + 1);
      if |posts| > WEB_PAGE then Pager(posts[..WEB_PAGE], None, Some(posts[WEB_PAGE - 1]), false)
          else Pager(posts, None, None, false)
    case Before(x) =>
      var posts := OlderPage(rows, Some(x), WEB_PAGE + 1);
      var prev := if posts == [] then x else posts[0];
      if |posts| > WEB_PAGE then Pager(posts[..WEB_PAGE], Some(prev), Some(posts[WEB_PAGE - 1]), false)
      else Pager(posts, Some(prev), None, false)
  }

  /** The page a page's Next leads to, and its Prev. */
  function NextOf(p: Pager): Query
    requires p.next.Some?
  {
    Before(p.next.value)
  }

  function PrevOf(p: Pager): Query
    requires p.prev.Some?
  {
    After(p.prev.value)
  }

  // ---- where pages stand in the feed ----

  lemma InFeed(rows: Rows, i: nat)
    requires i < |Desc(rows)|
    ensures Desc(rows)[i] in rows
  {
    DescLists(rows);
    assert Desc(rows)[i] in Desc(rows);
  }

  /** s is the feed past a cursor: the page under it is the head of s. */
  lemma PageFromOlder(rows: Rows, x: Id, s: seq<Id>)
    requires x in rows && Desc(Past(rows, KeyOf(rows, x))) == s
    ensures var p := PageOf(rows, Before(x));
            && p.posts == Take(s, WEB_PAGE) && !p.home && p.prev == Some(if s == [] then x else s[0])
            && p.next == (if |s| > WEB_PAGE then Some(s[WEB_PAGE - 1]) else None)
  {
    if |s| > WEB_PAGE { assert Take(s, WEB_PAGE + 1)[..WEB_PAGE] == s[..WEB_PAGE]; }
  }

  /** The page under a cursor is the posts right after it in the feed. */
  lemma BeforeIs(rows: Rows, f: seq<Id>, i: nat)
    requires f == Desc(rows) && i < |f| && f[i] in rows
    ensures var p := PageOf(rows, Before(f[i]));
            && p.posts == Take(f[i + 1..], WEB_PAGE) && !p.home &&
               p.prev == Some(if i + 1 < |f| then f[i + 1] else f[i])
            && p.next == (if i + 1 + WEB_PAGE < |f| then Some(f[i + WEB_PAGE]) else None)
  {
    CursorSplits(rows, i);
    PageFromOlder(rows, f[i], f[i + 1..]);
  }

  lemma TopIs(rows: Rows, f: seq<Id>)
    requires f == Desc(rows)
    ensures var p := PageOf(rows, Top);
            && p.posts == Take(f, WEB_PAGE) && !p.home && p.prev == None
            && p.next == (if |f| > WEB_PAGE then Some(f[WEB_PAGE - 1]) else None)
  {
    if |f| > WEB_PAGE { assert Take(f, WEB_PAGE + 1)[..WEB_PAGE] == f[..WEB_PAGE]; }
  }

  lemma PageFromNewer(rows: Rows, x: Id, s: seq<Id>)
    requires x in rows && Desc(Since(rows, KeyOf(rows, x))) == s
    ensures var p := PageOf(rows, After(x));
            && (p.home <==> |s| <= WEB_PAGE)
            && (|s| > WEB_PAGE ==>
                  p.posts == s[|s| - WEB_PAGE..] && p.prev == Some(s[|s| - WEB_PAGE]) && p.next == Some(s[|s| - 1]))
  {
    if |s| > WEB_PAGE {
      var asc := Take(Reversed(s), WEB_PAGE + 1);
      assert forall k :: 0 <= k < WEB_PAGE ==> asc[..WEB_PAGE][k] == s[|s| - 1 - k];
      assert Reversed(asc[..WEB_PAGE]) == s[|s| - WEB_PAGE..];
    }
  }

  /** The page over a cursor is the posts right before it in the feed, or the redirect home when
      no more than a page stands there. */
  lemma AfterIs(rows: Rows, f: seq<Id>, i: nat)
    requires f == Desc(rows) && i < |f| && f[i] in rows
    ensures var p := PageOf(rows, After(f[i]));
            && (p.home <==> i <= WEB_PAGE)
            && (i > WEB_PAGE ==>
                  p.posts == f[i - WEB_PAGE..i] && p.prev == Some(f[i - WEB_PAGE]) && p.next == Some(f[i - 1]))
  {
    CursorSplits(rows, i);
    PageFromNewer(rows, f[i], f[..i]);
    if i > WEB_PAGE { assert f[..i][i - WEB_PAGE..] == f[i - WEB_PAGE..i]; }
  }

  // ---- walking the feed ----

  /** All the posts met by following Next from a page, so many pages on, in order. */
  ghost function WalkNext(rows: Rows, q: Query, pages: nat): seq<Id>
    requires Fits(rows, q)
    decreases pages
  {
    var p := PageOf(rows, q);
    if pages == 0 || p.next.None? || !Fits(rows, NextOf(p)) then p.posts
    else p.posts + WalkNext(rows, NextOf(p), pages - 1)
  }

  lemma {:induction false} WalkFrom(rows: Rows, f: seq<Id>, i: nat, pages: nat)
    requires f == Desc(rows) && i < |f| && f[i] in rows && pages >= |f| - i
    ensures WalkNext(rows, Before(f[i]), pages) == f[i + 1..]
    decreases pages
  {
    BeforeIs(rows, f, i);
    if i + 1 + WEB_PAGE < |f| {
      InFeed(rows, i + WEB_PAGE);
      WalkFrom(rows, f, i + WEB_PAGE, pages - 1);
      Joined(f, i + 1);
    }
  }

  lemma Joined(f: seq<Id>, i: nat)
    requires i + WEB_PAGE < |f|
    ensures Take(f[i..], WEB_PAGE) + f[i + WEB_PAGE..] == f[i..]
  {
  }

  lemma WalkAll(rows: Rows, f: seq<Id>, pages: nat)
    requires f == Desc(rows) && pages > |f| && AllIn(rows, f)
    ensures WalkNext(rows, Top, pages) == f
  {
    TopIs(rows, f);
    if WEB_PAGE < |f| {
      WalkFrom(rows, f, WEB_PAGE - 1, pages - 1);
      assert Take(f, WEB_PAGE) + f[WEB_PAGE..] == f;
    }
  }

  /** Following Next from the first page visits every post of the feed exactly once, in order. */
  lemma NextVisitsAll(rows: Rows)
    ensures Lists(rows, WalkNext(rows, Top, |Desc(rows)| + 1))
    ensures var s := WalkNext(rows, Top, |Desc(rows)| + 1);
            forall i, j :: 0 <= i < j < |s| ==>
              && s[i] in rows && s[j] in rows
              && (rows[s[i]] > rows[s[j]] || (rows[s[i]] == rows[s[j]] && s[i] > s[j]))
  {
    DescLists(rows);
    FeedIn(rows);
    WalkAll(rows, Desc(rows), |Desc(rows)| + 1);
  }

  /** Prev from a page lands on exactly the posts before it when more than a page stands there,
      and Next from there comes back; nearer the top it is the redirect home. */
  lemma PrevComesBack(rows: Rows, f: seq<Id>, i: nat)
    requires f == Desc(rows) && i + 1 < |f| && f[i] in rows && f[i + 1] in rows
    ensures PageOf(rows, Before(f[i])).prev == Some(f[i + 1])
    ensures var q := PageOf(rows, After(f[i + 1]));
            if i + 1 <= WEB_PAGE then q.home
            else !q.home && q.posts == f[i + 1 - WEB_PAGE..i + 1] && q.next.Some? && NextOf(q) == Before(f[i])
  {
    BeforeIs(rows, f, i);
    AfterIs(rows, f, i + 1);
  }

  /** Where page k begins, counted from 0. */
  function PageStart(k: nat): (i: nat)
    ensures k > 0 ==> i >= WEB_PAGE
  {
    if k == 0 then 0 else PageStart(k - 1) + WEB_PAGE
  }

  /** Where following Next k times from the first page leads, as far as there is a Next. */
  ghost function NthPage(rows: Rows, k: nat): (q: Query)
    ensures Fits(rows, q)
  {
    if k == 0 then Top
    else
      var p := PageOf(rows, NthPage(rows, k - 1));
      if p.next.Some? && p.next.value in rows then NextOf(p) else NthPage(rows, k - 1)
  }

  lemma TopNext(rows: Rows, f: seq<Id>)
    requires f == Desc(rows) && WEB_PAGE < |f|
    ensures PageOf(rows, Top).next == Some(f[WEB_PAGE - 1])
  {
    TopIs(rows, f);
  }

  lemma BeforeNext(rows: Rows, f: seq<Id>, i: nat)
    requires f == Desc(rows) && i + 1 + WEB_PAGE < |f| && f[i] in rows
    ensures PageOf(rows, Before(f[i])).next == Some(f[i + WEB_PAGE])
  {
    BeforeIs(rows, f, i);
  }

  lemma NthStep(rows: Rows, k: nat, q: Query, x: Id)
    requires k > 0 && q == NthPage(rows, k - 1) && PageOf(rows, q).next == Some(x) && x in rows
    ensures NthPage(rows, k) == Before(x)
  {
  }

  lemma NthFirst(rows: Rows, f: seq<Id>)
    requires f == Desc(rows) && WEB_PAGE < |f| && f[WEB_PAGE - 1] in rows
    ensures NthPage(rows, 1) == Before(f[WEB_PAGE - 1])
  {
    TopNext(rows, f);
    NthStep(rows, 1, Top, f[WEB_PAGE - 1]);
  }

  lemma NthLater(rows: Rows, f: seq<Id>, k: nat, i: nat)
    requires f == Desc(rows) && k > 0 && i + 1 + WEB_PAGE < |f| && f[i] in rows && f[i + WEB_PAGE] in rows
    requires NthPage(rows, k - 1) == Before(f[i])
    ensures NthPage(rows, k) == Before(f[i + WEB_PAGE])
  {
    BeforeNext(rows, f, i);
    NthStep(rows, k, Before(f[i]), f[i + WEB_PAGE]);
  }

  predicate AllIn(rows: Rows, f: seq<Id>) { forall i :: 0 <= i < |f| ==> f[i] in rows }

  lemma {:induction false} NthIs(rows: Rows, f: seq<Id>, k: nat)
    requires f == Desc(rows) && k > 0 && PageStart(k) < |f| && AllIn(rows, f)
    ensures NthPage(rows, k) == Before(f[PageStart(k) - 1])
  {
    if k == 1 {
      NthFirst(rows, f);
    } else {
      NthIs(rows, f, k - 1);
      NthLater(rows, f, k, PageStart(k - 1) - 1);
    }
  }

  /** Prev from the page of q lands on exactly the posts of the page of b. */
  ghost predicate PrevLeads(rows: Rows, q: Query, b: Query)
    requires Fits(rows, q) && Fits(rows, b)
  {
    var p := PageOf(rows, q);
    p.prev.Some? && p.prev.value in rows && PageOf(rows, PrevOf(p)).posts == PageOf(rows, b).posts
  }

  /** Two pages a Next apart: Prev from the later is the earlier. */
  lemma PrevOfNext(rows: Rows, f: seq<Id>, i: nat, q: Query, b: Query)
    requires f == Desc(rows) && i + 1 + WEB_PAGE < |f| && AllIn(rows, f)
    requires q == Before(f[i + WEB_PAGE]) && b == Before(f[i])
    ensures PrevLeads(rows, q, b)
  {
    BeforeIs(rows, f, i + WEB_PAGE);
    AfterIs(rows, f, i + WEB_PAGE + 1);
    BeforeIs(rows, f, i);
    SliceTaken(f, i + 1);
  }

  lemma SliceTaken(f: seq<Id>, i: nat)
    requires i + WEB_PAGE <= |f|
    ensures f[i..i + WEB_PAGE] == Take(f[i..], WEB_PAGE)
  {
  }

  lemma SecondGoesHome(rows: Rows, f: seq<Id>)
    requires f == Desc(rows) && WEB_PAGE < |f| && AllIn(rows, f)
    ensures var p := PageOf(rows, Before(f[WEB_PAGE - 1]));
            p.prev == Some(f[WEB_PAGE]) && PageOf(rows, PrevOf(p)).home
  {
    BeforeIs(rows, f, WEB_PAGE - 1);
    AfterIs(rows, f, WEB_PAGE);
  }

  lemma FeedIn(rows: Rows)
    ensures AllIn(rows, Desc(rows))
  {
    forall j: nat | j < |Desc(rows)| ensures Desc(rows)[j] in rows { InFeed(rows, j); }
  }

  lemma PrevLeadsBack(rows: Rows, f: seq<Id>, k: nat, q: Query, b: Query)
    requires f == Desc(rows) && AllIn(rows, f) && k > 1 && PageStart(k) < |f|
    requires q == Before(f[PageStart(k) - 1]) && b == Before(f[PageStart(k - 1) - 1])
    ensures PrevLeads(rows, q, b)
  {
    PrevOfNext(rows, f, PageStart(k - 1) - 1, q, b);
  }

  /** Prev from any page past the second lands on exactly the page before it. */
  lemma PrevIsThePageBefore(rows: Rows, k: nat)
    requires k > 1 && PageStart(k) < |Desc(rows)|
    ensures PrevLeads(rows, NthPage(rows, k), NthPage(rows, k - 1))
  {
    FeedIn(rows);
    NthIs(rows, Desc(rows), k);
    NthIs(rows, Desc(rows), k - 1);
    PrevLeadsBack(rows, Desc(rows), k, NthPage(rows, k), NthPage(rows, k - 1));
  }

  /** Prev from the second page is the redirect home. */
  lemma PrevFromSecondIsHome(rows: Rows)
    requires WEB_PAGE < |Desc(rows)|
    ensures var p := PageOf(rows, NthPage(rows, 1));
            p.prev.Some? && p.prev.value in rows && PageOf(rows, PrevOf(p)).home
  {
    FeedIn(rows);
    NthFirst(rows, Desc(rows));
    SecondGoesHome(rows, Desc(rows));
  }

  // ---- the page as it is built ----

  /** A page from the rows its query answered. */
  method WebPageOf(ghost rows: Rows, q: Query, newer: seq<Id>, older: seq<Id>) returns (pg: Pager)
    requires Fits(rows, q)
    requires q.After? ==> newer == NewerPage(rows, q.id, WEB_PAGE + 1)
    requires !q.After? ==> older == OlderPage(rows, if q.Top? then None else Some(q.id), WEB_PAGE + 1)
    ensures pg == PageOf(rows, q)
  {
    pg := Pager([], None, None, false);
    if q.After? {
      if |newer| <= WEB_PAGE { return pg.(home := true); }
      var asc := newer[..WEB_PAGE];
      var i := |asc|;
      while i > 0
        invariant 0 <= i <= |asc| && |pg.posts| == |asc| - i && pg == Pager(pg.posts, None, None, false)
        invariant forall k :: 0 <= k < |asc| - i ==> pg.posts[k] == asc[|asc| - 1 - k]
      {
        i := i - 1;
        pg := pg.(posts := pg.posts + [asc[i]]);
      }
      assert pg.posts == Reversed(asc);
      return pg.(prev := Some(pg.posts[0]), next := Some(pg.posts[|pg.posts| - 1]));
    }
    var posts := older;
    if |posts| > WEB_PAGE {
      posts := posts[..WEB_PAGE];
      pg := pg.(next := Some(posts[|posts| - 1]));
    }
    pg := pg.(posts := posts);
    if q.Before? { pg := pg.(prev := Some(if |posts| > 0 then posts[0] else q.id)); }
  }
}
