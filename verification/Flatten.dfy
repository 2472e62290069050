/** A thread laid out for reading: every reply followed by the replies to it. */
module Flatten {
  import opened Messages
  import opened Derive

  /** The replies fetched, in (received, id) order, and a rank that falls from a post to the
      replies to it: ids are hashes, so no chain of replies comes back to where it began. */
  datatype Fetch = Fetch(posts: Posts, all: seq<Id>, rank: Id -> nat)

  predicate Earlier(posts: Posts, x: Id, y: Id)
    requires x in posts && y in posts
  {
    posts[x].received < posts[y].received || (posts[x].received == posts[y].received && x < y)
  }

  ghost predicate Sound(g: Fetch)
  {
    && (forall i :: 0 <= i < |g.all| ==> g.all[i] in g.posts && g.posts[g.all[i]].replyTo.Some?)
    && (forall i :: 0 <= i < |g.all| ==> g.rank(g.all[i]) < g.rank(g.posts[g.all[i]].replyTo.value))
    && (forall i, j :: 0 <= i < j < |g.all| ==> Earlier(g.posts, g.all[i], g.all[j]))
  }

  function Parent(g: Fetch, x: Id): Option<Id>
  {
    if x in g.posts then g.posts[x].replyTo else None
  }

  /** The fetched replies to p, in the order fetched. */
  function KidsIn(g: Fetch, ids: seq<Id>, p: Id): seq<Id>
  {
    if ids == [] then []
    else KidsIn(g, ids[..|ids| - 1], p) + (if Parent(g, ids[|ids| - 1]) == Some(p) then [ids[|ids| - 1]] else [])
  }

  function Kids(g: Fetch, p: Id): seq<Id> { KidsIn(g, g.all, p) }

  lemma {:induction false} KidsAre(g: Fetch, ids: seq<Id>, p: Id)
    ensures forall x :: x in KidsIn(g, ids, p) <==> x in ids && Parent(g, x) == Some(p)
    ensures |KidsIn(g, ids, p)| <= |ids|
  {
    if ids != [] {
      KidsAre(g, ids[..|ids| - 1], p);
      assert ids == ids[..|ids| - 1] + [ids[|ids| - 1]];
    }
  }

  /** Replies in the order fetched stay in it. */
  lemma {:induction false} KidsSorted(g: Fetch, ids: seq<Id>, p: Id)
    requires forall i :: 0 <= i < |ids| ==> ids[i] in g.posts
    requires forall i, j :: 0 <= i < j < |ids| ==> Earlier(g.posts, ids[i], ids[j])
    ensures forall i :: 0 <= i < |KidsIn(g, ids, p)| ==> KidsIn(g, ids, p)[i] in g.posts && KidsIn(g, ids, p)[i] in ids
    ensures forall i, j :: 0 <= i < j < |KidsIn(g, ids, p)| ==>
      Earlier(g.posts, KidsIn(g, ids, p)[i], KidsIn(g, ids, p)[j])
  {
    if ids != [] {
      var front, x := ids[..|ids| - 1], ids[|ids| - 1];
      KidsSorted(g, front, p);
      forall y | y in front
        ensures y in g.posts && Earlier(g.posts, y, x)
      {
        var i :| 0 <= i < |front| && front[i] == y;
        assert ids[i] == y;
      }
    }
  }

  /** A reply where it is placed, and its steps from the root. */
  datatype Placed = Placed(id: Id, depth: nat)

  /** Kids that the walk may go down to. */
  ghost predicate Lower(g: Fetch, kids: seq<Id>, bound: nat)
  {
    |kids| <= |g.all| && forall i :: 0 <= i < |kids| ==> kids[i] in g.all && g.rank(kids[i]) < bound
  }

  lemma KidsLower(g: Fetch, p: Id)
    requires Sound(g)
    ensures Lower(g, Kids(g, p), g.rank(p))
  {
    KidsAre(g, g.all, p);
    forall i | 0 <= i < |Kids(g, p)|
      ensures Kids(g, p)[i] in g.all && g.rank(Kids(g, p)[i]) < g.rank(p)
    {
      assert Kids(g, p)[i] in Kids(g, p);
      var j :| 0 <= j < |g.all| && g.all[j] == Kids(g, p)[i];
    }
  }

  /** The tree below p in reading order. It ends, replies having a rank. */
  ghost function Descend(g: Fetch, p: Id, depth: nat): seq<Placed>
    requires Sound(g)
    decreases g.rank(p), |g.all| + 1
  {
    KidsLower(g, p);
    DescendKids(g, Kids(g, p), depth, g.rank(p))
  }

  ghost function DescendKids(g: Fetch, kids: seq<Id>, depth: nat, bound: nat): seq<Placed>
    requires Sound(g) && Lower(g, kids, bound)
    decreases bound, |kids|
  {
    if kids == [] then []
    else [Placed(kids[0], depth)] + Descend(g, kids[0], depth + 1) + DescendKids(g, kids[1..], depth, bound)
  }

  predicate IsPlaced(out: seq<Placed>, x: Id) { exists i :: 0 <= i < |out| && out[i].id == x }

  /** What was fetched and not placed, kept at the end as direct replies. */
  function Rest(out: seq<Placed>, all: seq<Id>): seq<Placed>
  {
    if all == [] then []
    else Rest(out, all[..|all| - 1]) + (if IsPlaced(out, all[|all| - 1]) then [] else [Placed(all[|all| - 1], 1)])
  }

  ghost function Thread(g: Fetch, root: Id): seq<Placed>
    requires Sound(g)
  {
    Descend(g, root, 1) + Rest(Descend(g, root, 1), g.all)
  }

  // ---- what is placed ----

  /** n steps up from x, every step from a fetched reply, end at p. */
  ghost predicate Climbs(g: Fetch, x: Id, n: nat, p: Id)
    decreases n
  {
    n > 0 && x in g.all && Parent(g, x).Some? &&
    if n == 1 then Parent(g, x) == Some(p) else Climbs(g, Parent(g, x).value, n - 1, p)
  }

  /** One more step at the top. */
  lemma {:induction false} ClimbsOn(g: Fetch, x: Id, n: nat, k: Id, p: Id)
    requires Climbs(g, x, n, k) && k in g.all && Parent(g, k) == Some(p)
    ensures Climbs(g, x, n + 1, p)
    decreases n
  {
    if n > 1 { ClimbsOn(g, Parent(g, x).value, n - 1, k, p); }
  }

  /** The last step of a climb is from a reply to where it ends. */
  lemma {:induction false} ClimbsBelow(g: Fetch, x: Id, n: nat, p: Id)
    requires Climbs(g, x, n, p) && n > 1
    ensures exists k :: k in g.all && Parent(g, k) == Some(p) && Climbs(g, x, n - 1, k)
    decreases n
  {
    if n == 2 {
      var k := Parent(g, x).value;
      assert Climbs(g, x, 1, k);
      assert k in g.all && Parent(g, k) == Some(p);
    } else {
      var up := Parent(g, x).value;
      ClimbsBelow(g, up, n - 1, p);
      var k :| k in g.all && Parent(g, k) == Some(p) && Climbs(g, up, n - 2, k);
      assert Climbs(g, x, n - 1, k);
    }
  }

  /** The rank rises along a climb, so none comes back to where it began. */
  lemma {:induction false} ClimbsRise(g: Fetch, x: Id, n: nat, p: Id)
    requires Sound(g) && Climbs(g, x, n, p)
    ensures g.rank(x) < g.rank(p)
    decreases n
  {
    var i :| 0 <= i < |g.all| && g.all[i] == x;
    if n > 1 { ClimbsRise(g, Parent(g, x).value, n - 1, p); }
  }

  /** From one reply to one ancestor there is one number of steps. */
  lemma {:induction false} OneClimb(g: Fetch, x: Id, n: nat, m: nat, p: Id)
    requires Sound(g) && Climbs(g, x, n, p) && Climbs(g, x, m, p)
    ensures n == m
    decreases n
  {
    if n > 1 && m > 1 {
      OneClimb(g, Parent(g, x).value, n - 1, m - 1, p);
    } else if n > 1 {
      ClimbsRise(g, p, n - 1, p);
    } else if m > 1 {
      ClimbsRise(g, p, m - 1, p);
    }
  }

  /** Two climbs as long from one reply end at one place. */
  lemma {:induction false} SameClimb(g: Fetch, x: Id, n: nat, p: Id, q: Id)
    requires Climbs(g, x, n, p) && Climbs(g, x, n, q)
    ensures p == q
    decreases n
  {
    if n > 1 { SameClimb(g, Parent(g, x).value, n - 1, p, q); }
  }

  /** The walk of p places exactly what climbs to p, at its number of steps. */
  lemma {:induction false} WalkPlaces(g: Fetch, p: Id, depth: nat, x: Id, d: nat)
    requires Sound(g)
    ensures Placed(x, d) in Descend(g, p, depth) <==> d >= depth && Climbs(g, x, d - depth + 1, p)
    decreases g.rank(p), |g.all| + 1
  {
    KidsLower(g, p);
    KidsAre(g, g.all, p);
    WalkKidsPlaces(g, Kids(g, p), depth, g.rank(p), x, d);
    if d > depth && Climbs(g, x, d - depth + 1, p) {
      ClimbsBelow(g, x, d - depth + 1, p);
      var k :| k in g.all && Parent(g, k) == Some(p) && Climbs(g, x, d - depth, k);
      assert UnderKid(g, Kids(g, p), depth, x, d, k);
    }
    if d > depth && Placed(x, d) in Descend(g, p, depth) {
      var k :| UnderKid(g, Kids(g, p), depth, x, d, k);
      ClimbsOn(g, x, d - depth, k, p);
    }
  }

  /** x is placed below the kid k. */
  ghost predicate UnderKid(g: Fetch, kids: seq<Id>, depth: nat, x: Id, d: nat, k: Id)
  {
    k in kids && d > depth && Climbs(g, x, d - depth, k)
  }

  lemma {:induction false} WalkKidsPlaces(g: Fetch, kids: seq<Id>, depth: nat, bound: nat, x: Id, d: nat)
    requires Sound(g) && Lower(g, kids, bound)
    ensures Placed(x, d) in DescendKids(g, kids, depth, bound) <==>
            (d == depth && x in kids) || exists k :: UnderKid(g, kids, depth, x, d, k)
    decreases bound, |kids|
  {
    if kids != [] {
      var rest := kids[1..];
      WalkPlaces(g, kids[0], depth + 1, x, d);
      WalkKidsPlaces(g, rest, depth, bound, x, d);
      assert kids == [kids[0]] + rest;
      if k :| UnderKid(g, rest, depth, x, d, k) { assert UnderKid(g, kids, depth, x, d, k); }
      if k :| UnderKid(g, kids, depth, x, d, k) {
        if k == kids[0] {
          assert Placed(x, d) in Descend(g, kids[0], depth + 1);
        } else {
          assert UnderKid(g, rest, depth, x, d, k);
        }
      }
      if Placed(x, d) in Descend(g, kids[0], depth + 1) { assert UnderKid(g, kids, depth, x, d, kids[0]); }
    }
  }

  // ---- each reply once ----

  predicate Once(out: seq<Placed>) { forall i, j :: 0 <= i < j < |out| ==> out[i].id != out[j].id }

  /** Replies to one post, none twice. */
  ghost predicate Siblings(g: Fetch, kids: seq<Id>, p: Id)
  {
    && (forall i :: 0 <= i < |kids| ==> kids[i] in g.all && Parent(g, kids[i]) == Some(p))
    && (forall i, j :: 0 <= i < j < |kids| ==> kids[i] != kids[j])
  }

  lemma KidsAreSiblings(g: Fetch, p: Id)
    requires Sound(g)
    ensures Siblings(g, Kids(g, p), p)
  {
    KidsSorted(g, g.all, p);
    KidsAre(g, g.all, p);
    forall i | 0 <= i < |Kids(g, p)|
      ensures Kids(g, p)[i] in g.all && Parent(g, Kids(g, p)[i]) == Some(p)
    {
      assert Kids(g, p)[i] in Kids(g, p);
    }
  }

  /** Nothing climbs from a reply to itself or to one beside it. */
  lemma NoneBeside(g: Fetch, x: Id, n: nat, k: Id, p: Id)
    requires Sound(g) && x in g.all && k in g.all && Parent(g, x) == Some(p) && Parent(g, k) == Some(p)
    ensures !Climbs(g, x, n, k)
  {
    if Climbs(g, x, n, k) {
      assert Climbs(g, k, 1, p);
      ClimbsRise(g, k, 1, p);
      if n > 1 { ClimbsRise(g, p, n - 1, k); }
    }
  }

  /** What is placed below one kid is not placed below another. */
  lemma ApartKids(g: Fetch, x: Id, n: nat, m: nat, k: Id, l: Id, p: Id)
    requires Sound(g) && k in g.all && l in g.all && Parent(g, k) == Some(p) && Parent(g, l) == Some(p)
    requires Climbs(g, x, n, k) && Climbs(g, x, m, l)
    ensures k == l
  {
    ClimbsOn(g, x, n, k, p);
    ClimbsOn(g, x, m, l, p);
    OneClimb(g, x, n + 1, m + 1, p);
    SameClimb(g, x, n, k, l);
  }

  /** What the walks of the other kids place is neither a kid nor below it. */
  lemma ApartFromRest(g: Fetch, k: Id, rest: seq<Id>, depth: nat, bound: nat, p: Id, y: Placed)
    requires Sound(g) && Lower(g, rest, bound) && Siblings(g, [k] + rest, p) && y in DescendKids(g, rest, depth, bound)
    ensures y.id != k && forall n: nat :: !Climbs(g, y.id, n, k)
  {
    var all := [k] + rest;
    assert all[0] == k && forall i :: 0 <= i < |rest| ==> all[i + 1] == rest[i];
    WalkKidsPlaces(g, rest, depth, bound, y.id, y.depth);
    if y.id in rest {
      forall n: nat ensures !Climbs(g, y.id, n, k) { NoneBeside(g, y.id, n, k, p); }
    } else {
      var l :| UnderKid(g, rest, depth, y.id, y.depth, l);
      NoneBeside(g, k, y.depth - depth, l, p);
      forall n: nat
        ensures !Climbs(g, y.id, n, k)
      {
        if Climbs(g, y.id, n, k) { ApartKids(g, y.id, n, y.depth - depth, k, l, p); }
      }
    }
  }

  lemma {:induction false} WalkOnce(g: Fetch, p: Id, depth: nat)
    requires Sound(g)
    ensures Once(Descend(g, p, depth))
    decreases g.rank(p), |g.all| + 1
  {
    KidsLower(g, p);
    KidsAreSiblings(g, p);
    WalkKidsOnce(g, Kids(g, p), depth, g.rank(p), p);
  }

  lemma {:induction false} WalkKidsOnce(g: Fetch, kids: seq<Id>, depth: nat, bound: nat, p: Id)
    requires Sound(g) && Lower(g, kids, bound) && Siblings(g, kids, p)
    ensures Once(DescendKids(g, kids, depth, bound))
    decreases bound, |kids|
  {
    if kids != [] {
      var k, rest := kids[0], kids[1..];
      var a, b := Descend(g, k, depth + 1), DescendKids(g, rest, depth, bound);
      assert kids == [k] + rest;
      WalkOnce(g, k, depth + 1);
      WalkKidsOnce(g, rest, depth, bound, p);
      forall i | 0 <= i < |a|
        ensures a[i].id != k && a[i].depth > depth && Climbs(g, a[i].id, a[i].depth - depth, k)
      {
        assert a[i] in a;
        WalkPlaces(g, k, depth + 1, a[i].id, a[i].depth);
        NoneBeside(g, k, a[i].depth - depth, k, p);
      }
      forall j | 0 <= j < |b|
        ensures b[j].id != k && forall n: nat :: !Climbs(g, b[j].id, n, k)
      {
        assert b[j] in b;
        ApartFromRest(g, k, rest, depth, bound, p, b[j]);
      }
      OnceJoined(Placed(k, depth), a, b);
    }
  }

  lemma OnceJoined(x: Placed, a: seq<Placed>, b: seq<Placed>)
    requires Once(a) && Once(b)
    requires forall i :: 0 <= i < |a| ==> a[i].id != x.id
    requires forall j :: 0 <= j < |b| ==> b[j].id != x.id
    requires forall i, j :: 0 <= i < |a| && 0 <= j < |b| ==> a[i].id != b[j].id
    ensures Once([x] + a + b)
  {
  }

  lemma {:induction false} RestIs(out: seq<Placed>, all: seq<Id>)
    requires forall i, j :: 0 <= i < j < |all| ==> all[i] != all[j]
    ensures forall x: Id :: IsPlaced(Rest(out, all), x) <==> x in all && !IsPlaced(out, x)
    ensures Once(Rest(out, all)) && forall i :: 0 <= i < |Rest(out, all)| ==> Rest(out, all)[i].depth == 1
  {
    if all != [] {
      var front, y := all[..|all| - 1], all[|all| - 1];
      RestIs(out, front);
      assert all == front + [y];
      var r, r1 := Rest(out, front), Rest(out, all);
      assert y !in front;
      forall x: Id
        ensures IsPlaced(r1, x) <==> IsPlaced(r, x) || (x == y && !IsPlaced(out, y))
      {
        if IsPlaced(r, x) {
          var i :| 0 <= i < |r| && r[i].id == x;
          assert r1[i].id == x;
        }
        if !IsPlaced(out, y) { assert r1[|r|].id == y; }
      }
    }
  }

  /** The output is the fetched replies, each exactly once. */
  lemma ThreadIsPermutation(g: Fetch, root: Id)
    requires Sound(g)
    ensures Once(Thread(g, root)) && forall x: Id :: IsPlaced(Thread(g, root), x) <==> x in g.all
  {
    var w := Descend(g, root, 1);
    var r := Rest(w, g.all);
    WalkOnce(g, root, 1);
    RestIs(w, g.all);
    forall i, j | 0 <= i < |w| && 0 <= j < |r|
      ensures w[i].id != r[j].id
    {
      assert IsPlaced(r, r[j].id) && IsPlaced(w, w[i].id);
    }
    forall x: Id
      ensures IsPlaced(w + r, x) <==> x in g.all
    {
      PlacedJoined(w, r, x);
      if IsPlaced(w, x) {
        var i :| 0 <= i < |w| && w[i].id == x;
        assert w[i] in w;
        WalkPlaces(g, root, 1, x, w[i].depth);
      }
    }
  }

  lemma PlacedJoined(a: seq<Placed>, b: seq<Placed>, x: Id)
    ensures IsPlaced(a + b, x) <==> IsPlaced(a, x) || IsPlaced(b, x)
  {
    if i :| 0 <= i < |a| && a[i].id == x { assert (a + b)[i].id == x; }
    if i :| 0 <= i < |b| && b[i].id == x { assert (a + b)[|a| + i].id == x; }
  }

  // ---- reading order ----

  /** What follows position i is the walk of what stands there. */
  ghost predicate BlockAt(g: Fetch, out: seq<Placed>, i: nat)
    requires Sound(g) && i < |out|
  {
    var sub := Descend(g, out[i].id, out[i].depth + 1);
    i + 1 + |sub| <= |out| && out[i + 1..i + 1 + |sub|] == sub
  }

  lemma {:induction false} WalkBlocks(g: Fetch, p: Id, depth: nat, i: nat)
    requires Sound(g) && i < |Descend(g, p, depth)|
    ensures BlockAt(g, Descend(g, p, depth), i)
    decreases g.rank(p), |g.all| + 1
  {
    KidsLower(g, p);
    WalkKidsBlocks(g, Kids(g, p), depth, g.rank(p), i);
  }

  lemma {:induction false} WalkKidsBlocks(g: Fetch, kids: seq<Id>, depth: nat, bound: nat, i: nat)
    requires Sound(g) && Lower(g, kids, bound) && i < |DescendKids(g, kids, depth, bound)|
    ensures BlockAt(g, DescendKids(g, kids, depth, bound), i)
    decreases bound, |kids|
  {
    var x, a, b := Placed(kids[0], depth), Descend(g, kids[0], depth + 1), DescendKids(g, kids[1..], depth, bound);
    if i == 0 {
      HeadBlock(x, a, b);
    } else if i <= |a| {
      WalkBlocks(g, kids[0], depth + 1, i - 1);
      BlockWithin(g, [x], a, b, i - 1);
    } else {
      WalkKidsBlocks(g, kids[1..], depth, bound, i - 1 - |a|);
      BlockAfter(g, [x] + a, b, i - 1 - |a|);
    }
  }

  lemma HeadBlock(x: Placed, a: seq<Placed>, b: seq<Placed>)
    ensures ([x] + a + b)[0] == x && ([x] + a + b)[1..1 + |a|] == a
  {
  }

  lemma Within(before: seq<Placed>, mid: seq<Placed>, after: seq<Placed>, i: nat, n: nat)
    requires i < |mid| && i + 1 + n <= |mid|
    ensures var out, j := before + mid + after, |before| + i;
            out[j] == mid[i] && out[j + 1..j + 1 + n] == mid[i + 1..i + 1 + n]
  {
  }

  lemma BlockWithin(g: Fetch, before: seq<Placed>, mid: seq<Placed>, after: seq<Placed>, i: nat)
    requires Sound(g) && i < |mid| && BlockAt(g, mid, i)
    ensures BlockAt(g, before + mid + after, |before| + i)
  {
    Within(before, mid, after, i, |Descend(g, mid[i].id, mid[i].depth + 1)|);
  }

  lemma BlockAfter(g: Fetch, before: seq<Placed>, mid: seq<Placed>, i: nat)
    requires Sound(g) && i < |mid| && BlockAt(g, mid, i)
    ensures BlockAt(g, before + mid, |before| + i)
  {
    BlockWithin(g, before, mid, [], i);
    assert before + mid + [] == before + mid;
  }

  /** A reply placed by the walk is followed at once by all that is placed below it, in one piece,
      laid out the same way: so a parent comes before its replies and no subtree is broken up. */
  lemma SubtreesAreContiguous(g: Fetch, root: Id, i: nat)
    requires Sound(g) && i < |Descend(g, root, 1)|
    ensures i < |Thread(g, root)| && BlockAt(g, Thread(g, root), i)
  {
    var w := Descend(g, root, 1);
    var r := Rest(w, g.all);
    WalkBlocks(g, root, 1, i);
    BlockFirst(g, w, r, i);
  }

  lemma BlockFirst(g: Fetch, w: seq<Placed>, r: seq<Placed>, i: nat)
    requires Sound(g) && i < |w| && BlockAt(g, w, i)
    ensures BlockAt(g, w + r, i)
  {
    BlockWithin(g, [], w, r, i);
    assert [] + w + r == w + r;
  }

  /** Of two replies walked side by side, the one walked first is placed first. */
  lemma {:induction false} KidsInOrder(g: Fetch, kids: seq<Id>, depth: nat, bound: nat, a: nat, b: nat)
    returns (i: nat, j: nat)
    requires Sound(g) && Lower(g, kids, bound) && a < b < |kids|
    ensures var out := DescendKids(g, kids, depth, bound); i < j < |out| && out[i].id == kids[a] && out[j].id == kids[b]
    decreases |kids|
  {
    var first := [Placed(kids[0], depth)] + Descend(g, kids[0], depth + 1);
    var rest := DescendKids(g, kids[1..], depth, bound);
    if a == 0 {
      WalkKidsPlaces(g, kids[1..], depth, bound, kids[b], depth);
      assert kids[1..][b - 1] == kids[b];
      var m :| 0 <= m < |rest| && rest[m] == Placed(kids[b], depth);
      i, j := 0, |first| + m;
    } else {
      var i0, j0 := KidsInOrder(g, kids[1..], depth, bound, a - 1, b - 1);
      i, j := |first| + i0, |first| + j0;
    }
    assert DescendKids(g, kids, depth, bound) == first + rest;
  }

  lemma UnderOneParent(g: Fetch, p: Id, depth: nat, x: Id, y: Id) returns (i: nat, j: nat)
    requires Sound(g) && x in g.all && y in g.all && Parent(g, x) == Parent(g, y) == Some(p) && Earlier(g.posts, x, y)
    ensures var out := Descend(g, p, depth); i < j < |out| && out[i].id == x && out[j].id == y
  {
    KidsSorted(g, g.all, p);
    KidsAre(g, g.all, p);
    KidsLower(g, p);
    var a :| 0 <= a < |Kids(g, p)| && Kids(g, p)[a] == x;
    var b :| 0 <= b < |Kids(g, p)| && Kids(g, p)[b] == y;
    i, j := KidsInOrder(g, Kids(g, p), depth, g.rank(p), a, b);
  }

  /** What is placed answers the root or something placed, and is one of those fetched. */
  lemma ParentPlaced(g: Fetch, root: Id, w: seq<Placed>, i: nat)
    requires Sound(g) && w == Descend(g, root, 1) && i < |w|
    ensures w[i].id in g.all
    ensures Parent(g, w[i].id) == Some(root) || exists k :: 0 <= k < |w| && Parent(g, w[i].id) == Some(w[k].id)
  {
    var x, d := w[i].id, w[i].depth;
    assert w[i] in w;
    WalkPlaces(g, root, 1, x, d);
    if d > 1 {
      WalkPlaces(g, root, 1, Parent(g, x).value, d - 1);
      var k :| 0 <= k < |w| && w[k] == Placed(Parent(g, x).value, d - 1);
    }
  }

  lemma PlacedInOrder(g: Fetch, root: Id, w: seq<Placed>, i: nat, j: nat)
    requires Sound(g) && w == Descend(g, root, 1) && i < |w| && j < |w| && w[i].id in g.posts && w[j].id in g.posts
    requires Parent(g, w[i].id) == Parent(g, w[j].id) && Earlier(g.posts, w[i].id, w[j].id)
    ensures i < j
  {
    WalkOnce(g, root, 1);
    ParentPlaced(g, root, w, i);
    ParentPlaced(g, root, w, j);
    if Parent(g, w[i].id) == Some(root) {
      var a, b := UnderOneParent(g, root, 1, w[i].id, w[j].id);
    } else {
      var k: nat :| k < |w| && Parent(g, w[i].id) == Some(w[k].id);
      var a, b := UnderOneParent(g, w[k].id, w[k].depth + 1, w[i].id, w[j].id);
      WalkBlocks(g, root, 1, k);
      InBlock(g, w, k, a);
      InBlock(g, w, k, b);
    }
  }

  lemma InBlock(g: Fetch, w: seq<Placed>, k: nat, a: nat)
    requires Sound(g) && k < |w| && BlockAt(g, w, k) && a < |Descend(g, w[k].id, w[k].depth + 1)|
    ensures k + 1 + a < |w| && w[k + 1 + a] == Descend(g, w[k].id, w[k].depth + 1)[a]
  {
    var sub := Descend(g, w[k].id, w[k].depth + 1);
    assert w[k + 1..k + 1 + |sub|][a] == w[k + 1 + a];
  }

  lemma ParentFirst(g: Fetch, root: Id, w: seq<Placed>, i: nat, j: nat)
    requires Sound(g) && w == Descend(g, root, 1) && i < |w| && j < |w| && Parent(g, w[j].id) == Some(w[i].id)
    ensures i < j
  {
    WalkOnce(g, root, 1);
    ParentPlaced(g, root, w, j);
    WalkBlocks(g, root, 1, i);
    var sub := Descend(g, w[i].id, w[i].depth + 1);
    WalkPlaces(g, w[i].id, w[i].depth + 1, w[j].id, w[i].depth + 1);
    var a :| 0 <= a < |sub| && sub[a] == Placed(w[j].id, w[i].depth + 1);
    InBlock(g, w, i, a);
  }

  /** Some of those fetched, none placed, in the order fetched. */
  ghost predicate LeftInOrder(g: Fetch, out: seq<Placed>, all: seq<Id>, r: seq<Placed>)
  {
    && (forall i :: 0 <= i < |r| ==> r[i].id in all && r[i].id in g.posts && !IsPlaced(out, r[i].id))
    && forall i, j :: 0 <= i < j < |r| ==> Earlier(g.posts, r[i].id, r[j].id)
  }

  lemma {:induction false} RestInOrder(g: Fetch, out: seq<Placed>, all: seq<Id>)
    requires forall i :: 0 <= i < |all| ==> all[i] in g.posts
    requires forall i, j :: 0 <= i < j < |all| ==> Earlier(g.posts, all[i], all[j])
    ensures LeftInOrder(g, out, all, Rest(out, all))
  {
    if all != [] {
      var front, y := all[..|all| - 1], all[|all| - 1];
      RestInOrder(g, out, front);
      assert all == front + [y];
      forall x | x in front
        ensures x in g.posts && Earlier(g.posts, x, y)
      {
        var i :| 0 <= i < |front| && front[i] == x;
        assert all[i] == x;
      }
    }
  }

  /** Replies to one post are placed all or none. */
  lemma SiblingsTogether(g: Fetch, root: Id, w: seq<Placed>, i: nat, y: Id)
    requires Sound(g) && w == Descend(g, root, 1) && i < |w| && y in g.all && Parent(g, y) == Parent(g, w[i].id)
    ensures IsPlaced(w, y)
  {
    var x, d := w[i].id, w[i].depth;
    assert w[i] in w;
    WalkPlaces(g, root, 1, x, d);
    WalkPlaces(g, root, 1, y, d);
    var k :| 0 <= k < |w| && w[k] == Placed(y, d);
  }

  /** The output reads in order: a placed reply comes before the replies to it, and of two replies
      to one post the earlier, by (received, id), comes first. */
  lemma ReadsInOrder(g: Fetch, root: Id, i: nat, j: nat)
    requires Sound(g) && i < |Thread(g, root)| && j < |Thread(g, root)|
    ensures var out := Thread(g, root);
            && out[i].id in g.posts && out[j].id in g.posts
            && (i < |Descend(g, root, 1)| && Parent(g, out[j].id) == Some(out[i].id) ==> i < j)
            && (Parent(g, out[i].id) == Parent(g, out[j].id) && i < j ==>
                  var a, b := g.posts[out[i].id].received, g.posts[out[j].id].received;
                  a < b || (a == b && out[i].id < out[j].id))
  {
    InReadingOrder(g, root, i, j);
    InReadingOrder(g, root, j, i);
    ThreadIsPermutation(g, root);
  }

  lemma InReadingOrder(g: Fetch, root: Id, i: nat, j: nat)
    requires Sound(g) && i < |Thread(g, root)| && j < |Thread(g, root)|
    ensures var out := Thread(g, root);
            && out[i].id in g.posts && out[j].id in g.posts
            && (i < |Descend(g, root, 1)| && Parent(g, out[j].id) == Some(out[i].id) ==> i < j)
            && (Parent(g, out[i].id) == Parent(g, out[j].id) && Earlier(g.posts, out[i].id, out[j].id) ==> i < j)
  {
    var w := Descend(g, root, 1);
    var out, r := Thread(g, root), Rest(w, g.all);
    RestInOrder(g, w, g.all);
    Fetched(g, root, i);
    Fetched(g, root, j);
    if i < |w| && j < |w| {
      if Parent(g, w[j].id) == Some(w[i].id) { ParentFirst(g, root, w, i, j); }
      if Parent(g, w[i].id) == Parent(g, w[j].id) && Earlier(g.posts, w[i].id, w[j].id) {
        PlacedInOrder(g, root, w, i, j);
      }
    } else if j < |w| {
      assert out[i] == r[i - |w|] && out[j] == w[j] && !IsPlaced(w, r[i - |w|].id);
      if Parent(g, out[i].id) == Parent(g, w[j].id) { SiblingsTogether(g, root, w, j, r[i - |w|].id); }
    } else if i >= |w| {
      assert out[i] == r[i - |w|] && out[j] == r[j - |w|];
    }
  }

  lemma Fetched(g: Fetch, root: Id, i: nat)
    requires Sound(g) && i < |Thread(g, root)|
    ensures Thread(g, root)[i].id in g.all && Thread(g, root)[i].id in g.posts
  {
    ThreadIsPermutation(g, root);
    assert IsPlaced(Thread(g, root), Thread(g, root)[i].id);
    var k :| 0 <= k < |g.all| && g.all[k] == Thread(g, root)[i].id;
  }

  // ---- with no limit ----

  const MAX_LEVELS: nat := 32

  /** Everything down to 32 levels was fetched. */
  ghost predicate AllFetched(g: Fetch, root: Id)
  {
    forall x: Id :: x in g.all <==> exists n: nat :: Level(g.posts, x, n, root)
  }

  ghost predicate Level(posts: Posts, x: Id, n: nat, root: Id)
  {
    1 <= n <= MAX_LEVELS && Reaches(posts, x, n, root)
  }

  lemma {:induction false} FetchedClimbs(g: Fetch, x: Id, n: nat, root: Id)
    requires AllFetched(g, root) && Level(g.posts, x, n, root)
    ensures Climbs(g, x, n, root)
    decreases n
  {
    if n > 1 {
      assert Level(g.posts, g.posts[x].replyTo.value, n - 1, root);
      FetchedClimbs(g, g.posts[x].replyTo.value, n - 1, root);
    } else {
      assert Reaches(g.posts, g.posts[x].replyTo.value, 0, root);
    }
  }

  lemma {:induction false} ClimbReaches(g: Fetch, x: Id, n: nat, root: Id)
    requires Sound(g) && Climbs(g, x, n, root)
    ensures Reaches(g.posts, x, n, root)
    decreases n
  {
    if n > 1 {
      ClimbReaches(g, Parent(g, x).value, n - 1, root);
    } else {
      assert Reaches(g.posts, Parent(g, x).value, 0, root);
    }
  }

  lemma AllArePlaced(g: Fetch, root: Id, w: seq<Placed>, x: Id)
    requires Sound(g) && AllFetched(g, root) && w == Descend(g, root, 1) && x in g.all
    ensures IsPlaced(w, x)
  {
    var n: nat :| Level(g.posts, x, n, root);
    FetchedClimbs(g, x, n, root);
    WalkPlaces(g, root, 1, x, n);
    var i :| 0 <= i < |w| && w[i] == Placed(x, n);
  }

  lemma DepthIsChain(g: Fetch, root: Id, w: seq<Placed>, i: nat)
    requires Sound(g) && w == Descend(g, root, 1) && i < |w|
    ensures Reaches(g.posts, w[i].id, w[i].depth, root)
  {
    assert w[i] in w;
    WalkPlaces(g, root, 1, w[i].id, w[i].depth);
    ClimbReaches(g, w[i].id, w[i].depth, root);
  }

  lemma NoneLeft(g: Fetch, w: seq<Placed>)
    requires Sound(g) && forall x :: x in g.all ==> IsPlaced(w, x)
    ensures Rest(w, g.all) == []
  {
    RestIs(w, g.all);
    var r := Rest(w, g.all);
    assert r != [] ==> IsPlaced(r, r[0].id);
  }

  /** With no limit nothing is left over, and Depth is the length of the reply chain to the root. */
  lemma NoLimitLeavesNone(g: Fetch, root: Id)
    requires Sound(g) && AllFetched(g, root)
    ensures Thread(g, root) == Descend(g, root, 1)
    ensures forall i :: 0 <= i < |Thread(g, root)| ==>
      Reaches(g.posts, Thread(g, root)[i].id, Thread(g, root)[i].depth, root)
  {
    var w := Descend(g, root, 1);
    forall x | x in g.all ensures IsPlaced(w, x) { AllArePlaced(g, root, w, x); }
    NoneLeft(g, w);
    assert w + [] == w;
    forall i: nat | i < |w| ensures Reaches(g.posts, w[i].id, w[i].depth, root) { DepthIsChain(g, root, w, i); }
  }

  // ---- the layout as it is built ----

  function KidsAt(kids: map<Id, seq<Id>>, p: Id): seq<Id> { if p in kids then kids[p] else [] }

  /** kids holds the replies among ids by the post they answer. */
  ghost predicate ByParent(g: Fetch, ids: seq<Id>, kids: map<Id, seq<Id>>)
  {
    forall p: Id :: KidsAt(kids, p) == KidsIn(g, ids, p)
  }

  lemma KidsGrow(g: Fetch, front: seq<Id>, x: Id, kids: map<Id, seq<Id>>)
    requires ByParent(g, front, kids) && Parent(g, x).Some?
    ensures ByParent(g, front + [x], kids[Parent(g, x).value := KidsAt(kids, Parent(g, x).value) + [x]])
  {
    var p := Parent(g, x).value;
    var more := kids[p := KidsAt(kids, p) + [x]];
    assert (front + [x])[..|front + [x]| - 1] == front;
    forall q: Id
      ensures KidsAt(more, q) == KidsIn(g, front + [x], q)
    {
      assert KidsAt(kids, q) == KidsIn(g, front, q);
    }
  }

  method GroupKids(ghost g: Fetch, posts: Posts, all: seq<Id>) returns (kids: map<Id, seq<Id>>)
    requires Sound(g) && posts == g.posts && all == g.all
    ensures ByParent(g, all, kids)
  {
    kids := map[];
    for i := 0 to |all|
      invariant ByParent(g, all[..i], kids)
    {
      KidsGrow(g, all[..i], all[i], kids);
      assert all[..i + 1] == all[..i] + [all[i]];
      var p := posts[all[i]].replyTo.value;
      kids := kids[p := KidsAt(kids, p) + [all[i]]];
    }
    assert all[..|all|] == all;
  }

  /** The replies by the post they answer, what was placed, and the output so far. */
  class Layout {
    ghost const g: Fetch
    var kids: map<Id, seq<Id>>
    var placed: set<Id>
    var out: seq<Placed>

    ghost predicate Valid()
      reads this
    {
      && Sound(g) && ByParent(g, g.all, kids)
      && (forall x: Id :: x in placed <==> IsPlaced(out, x))
    }

    constructor (ghost g: Fetch, kids: map<Id, seq<Id>>)
      requires Sound(g) && ByParent(g, g.all, kids)
      ensures Valid() && this.g == g && out == []
    {
      this.g := g;
      this.kids := kids;
      placed, out := {}, [];
    }

    method Place(x: Id, depth: nat)
      requires Valid()
      modifies this`placed, this`out
      ensures Valid() && out == old(out) + [Placed(x, depth)]
    {
      placed := placed + {x};
      out := out + [Placed(x, depth)];
      forall y: Id ensures y in placed <==> IsPlaced(out, y) { PlacedSnoc(old(out), Placed(x, depth), y); }
    }

    /** The tree below parent written out, depth first. */
    method WalkFrom(parent: Id, depth: nat)
      requires Valid()
      modifies this`placed, this`out
      ensures Valid() && out == old(out) + Descend(g, parent, depth)
      decreases g.rank(parent)
    {
      KidsLower(g, parent);
      var below := KidsAt(kids, parent);
      assert below == Kids(g, parent);
      ghost var goal := out + Descend(g, parent, depth);
      for i := 0 to |below|
        invariant Valid() && Lower(g, below[i..], g.rank(parent))
        invariant out + DescendKids(g, below[i..], depth, g.rank(parent)) == goal
      {
        WalkStep(g, below, i, depth, g.rank(parent), out);
        Place(below[i], depth);
        WalkFrom(below[i], depth + 1);
      }
    }

    method Has(x: Id) returns (has: bool)
      requires Valid()
      ensures has == IsPlaced(out, x)
    {
      has := x in placed;
    }
  }

  lemma PlacedSnoc(out: seq<Placed>, e: Placed, y: Id)
    ensures IsPlaced(out + [e], y) <==> IsPlaced(out, y) || y == e.id
  {
    PlacedJoined(out, [e], y);
    assert IsPlaced([e], y) <==> y == e.id by { if y == e.id { assert [e][0].id == y; } }
  }

  lemma WalkStep(g: Fetch, kids: seq<Id>, i: nat, depth: nat, bound: nat, out: seq<Placed>)
    requires Sound(g) && Lower(g, kids, bound) && i < |kids|
    ensures Lower(g, kids[i..], bound) && Lower(g, kids[i + 1..], bound)
    ensures out + DescendKids(g, kids[i..], depth, bound) ==
            out + [Placed(kids[i], depth)] + Descend(g, kids[i], depth + 1) +
                DescendKids(g, kids[i + 1..], depth, bound)
  {
    assert kids[i..][1..] == kids[i + 1..];
  }

  lemma RestStep(w: seq<Placed>, all: seq<Id>, i: nat)
    requires i < |all|
    ensures Rest(w, all[..i + 1]) == Rest(w, all[..i]) + (if IsPlaced(w, all[i]) then [] else [Placed(all[i], 1)])
  {
    assert all[..i + 1][..i] == all[..i];
  }

  /** What was fetched and not placed. */
  method LeftOver(l: Layout, all: seq<Id>) returns (rest: seq<Placed>)
    requires l.Valid()
    ensures rest == Rest(l.out, all)
  {
    rest := [];
    for i := 0 to |all|
      invariant rest == Rest(l.out, all[..i])
    {
      RestStep(l.out, all, i);
      var has := l.Has(all[i]);
      if !has { rest := rest + [Placed(all[i], 1)]; }
    }
    assert all[..|all|] == all;
  }

  /** A thread laid out. */
  method LayOut(ghost g: Fetch, posts: Posts, all: seq<Id>, root: Id) returns (out: seq<Placed>)
    requires Sound(g) && posts == g.posts && all == g.all
    ensures out == Thread(g, root)
  {
    var kids := GroupKids(g, posts, all);
    var l := new Layout(g, kids);
    l.WalkFrom(root, 1);
    assert l.out == Descend(g, root, 1);
    var rest := LeftOver(l, all);
    out := l.out + rest;
  }
}
