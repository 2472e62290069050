/** What the thread columns of posts keep, whatever order replies arrive and posts are deleted in. */
module Threads {
  import opened Messages
  import opened Derive

  /** The chain up from z has come apart for good: it ends at a post that was here and is gone. */
  ghost predicate Broken(posts: Posts, logged: set<Id>, z: Id)
  {
    exists n: nat, g :: Reaches(posts, z, n, g) && g !in posts && g in logged
  }

  /** y's last_reply names z: a held post, below the root y or cut off from it since. */
  ghost predicate NamesReply(posts: Posts, logged: set<Id>, y: Id, z: Id)
    requires y in posts
  {
    z in posts && posts[y].replyTo.None? && (Below(posts, z, y) || Broken(posts, logged, z))
  }

  /** A root's activity is no earlier than the arrival of any reply below it. */
  ghost predicate Active(posts: Posts)
  {
    forall r, x :: r in posts && posts[r].replyTo.None? && Below(posts, x, r) ==> posts[r].activity >= posts[x].received
  }

  ghost predicate NamesHeld(posts: Posts, logged: set<Id>)
  {
    forall y :: y in posts && posts[y].lastReply.Some? ==> NamesReply(posts, logged, y, posts[y].lastReply.value)
  }

  ghost predicate NamesOnce(posts: Posts)
  {
    forall y, z ::
      y in posts && z in posts && posts[y].lastReply.Some? && posts[y].lastReply == posts[z].lastReply ==> y == z
  }

  /** Activity is the arrival of the reply named, or the post's own while none is. */
  ghost predicate Dated(posts: Posts)
  {
    forall y :: y in posts ==> DatedAt(posts, y)
  }

  predicate DatedAt(posts: Posts, y: Id)
    requires y in posts
  {
    match posts[y].lastReply
    case None => posts[y].activity == posts[y].received
    case Some(z) => z in posts && posts[y].activity == posts[z].received
  }

  ghost predicate ThreadsOk(posts: Posts, logged: set<Id>, clock: int)
  {
    && posts.Keys <= logged
    && (forall x :: x in posts ==> posts[x].received <= clock)
    && Active(posts) && NamesHeld(posts, logged) && NamesOnce(posts) && Dated(posts)
  }

  // ---- chains ----

  ghost predicate SameChains(a: Posts, b: Posts)
  {
    a.Keys == b.Keys && forall x :: x in a ==> a[x].replyTo == b[x].replyTo && a[x].received == b[x].received
  }

  ghost predicate Within(a: Posts, b: Posts)
  {
    forall x :: x in a ==> x in b && a[x].replyTo == b[x].replyTo
  }

  lemma {:induction false} ReachesWithin(a: Posts, b: Posts, x: Id, n: nat, y: Id)
    requires Within(a, b) && Reaches(a, x, n, y)
    ensures Reaches(b, x, n, y)
    decreases n
  {
    if n > 0 { ReachesWithin(a, b, a[x].replyTo.value, n - 1, y); }
  }

  /** y is where a chain can go no further: a root, or a post that is not here. */
  predicate End(posts: Posts, y: Id)
  {
    y !in posts || posts[y].replyTo.None?
  }

  /** A chain has one end. */
  lemma {:induction false} OneEnd(posts: Posts, x: Id, n: nat, y: Id, m: nat, z: Id)
    requires Reaches(posts, x, n, y) && Reaches(posts, x, m, z) && End(posts, y) && End(posts, z)
    ensures n == m && y == z
    decreases n
  {
    if n > 0 && m > 0 { OneEnd(posts, posts[x].replyTo.value, n - 1, y, m - 1, z); }
  }

  /** Some chain leads up from x to v. */
  ghost predicate Leads(posts: Posts, x: Id, v: Id)
  {
    exists k: nat :: Reaches(posts, x, k, v)
  }

  /** Without v, a chain is as it was or ends at v. */
  lemma {:induction false} ReachesWithout(posts: Posts, left: Posts, v: Id, x: Id, n: nat, y: Id)
    requires left == posts - {v} && Reaches(posts, x, n, y)
    ensures Reaches(left, x, n, y) || Leads(left, x, v)
    decreases n
  {
    if x == v {
      assert Reaches(left, x, 0, v);
    } else if n > 0 {
      var up := posts[x].replyTo.value;
      ReachesWithout(posts, left, v, up, n - 1, y);
      if !Reaches(left, up, n - 1, y) {
        var k: nat :| Reaches(left, up, k, v);
        assert Reaches(left, x, k + 1, v);
      }
    }
  }

  lemma BrokenStays(a: Posts, b: Posts, logged: set<Id>, more: set<Id>, z: Id)
    requires Within(a, b) && logged <= more && (forall g :: g in logged && g !in a ==> g !in b)
    requires Broken(a, logged, z)
    ensures Broken(b, more, z)
  {
    var n: nat, g :| Reaches(a, z, n, g) && g !in a && g in logged;
    ReachesWithin(a, b, z, n, g);
  }

  lemma BelowWithin(a: Posts, b: Posts, x: Id, y: Id)
    requires Within(a, b) && Below(a, x, y)
    ensures Below(b, x, y)
  {
    var n: nat :| n > 0 && Reaches(a, x, n, y);
    ReachesWithin(a, b, x, n, y);
  }

  // ---- the walk up ----

  /** The walk stops by itself before its steps are out. */
  predicate WalkEnds(posts: Posts, root: Id, steps: nat)
    decreases steps
  {
    steps > 0 && (End(posts, root) || WalkEnds(posts, posts[root].replyTo.value, steps - 1))
  }

  /** A walk that ends finds the root above, exactly when there is one. */
  lemma {:induction false} WalkFinds(posts: Posts, x: Id, steps: nat)
    requires WalkEnds(posts, x, steps)
    ensures Walk(posts, x, steps).Some? ==>
              var r := Walk(posts, x, steps).value;
              r in posts && posts[r].replyTo.None? && exists n: nat :: Reaches(posts, x, n, r)
    ensures Walk(posts, x, steps).None? ==>
              exists n: nat, g :: Reaches(posts, x, n, g) && g !in posts
    decreases steps
  {
    if End(posts, x) {
      assert Reaches(posts, x, 0, x);
    } else {
      var up := posts[x].replyTo.value;
      WalkFinds(posts, up, steps - 1);
      if Walk(posts, up, steps - 1).Some? {
        var n: nat :| Reaches(posts, up, n, Walk(posts, up, steps - 1).value);
        assert Reaches(posts, x, n + 1, Walk(posts, up, steps - 1).value);
      } else {
        var n: nat, g :| Reaches(posts, up, n, g) && g !in posts;
        assert Reaches(posts, x, n + 1, g);
      }
    }
  }

  /** One that does not is at the post so many steps up. */
  lemma {:induction false} WalkStops(posts: Posts, x: Id, steps: nat)
    requires !WalkEnds(posts, x, steps)
    ensures Walk(posts, x, steps).Some? && Reaches(posts, x, steps, Walk(posts, x, steps).value)
    decreases steps
  {
    if steps > 0 { WalkStops(posts, posts[x].replyTo.value, steps - 1); }
  }

  lemma {:induction false} RootFound(posts: Posts, x: Id, steps: nat) returns (n: nat)
    requires RootOf(posts, x, steps).Some?
    ensures var r := RootOf(posts, x, steps).value;
            r in posts && posts[r].replyTo.None? && n <= steps && Reaches(posts, x, n, r)
    decreases steps
  {
    if posts[x].replyTo.None? {
      n := 0;
    } else {
      n := RootFound(posts, posts[x].replyTo.value, steps - 1);
      n := n + 1;
    }
  }

  lemma {:induction false} FoundRoot(posts: Posts, x: Id, steps: nat, n: nat, r: Id)
    requires r in posts && posts[r].replyTo.None? && n <= steps && Reaches(posts, x, n, r)
    ensures RootOf(posts, x, steps) == Some(r)
    decreases n
  {
    if n > 0 { FoundRoot(posts, posts[x].replyTo.value, steps - 1, n - 1, r); }
  }

  /** r is a root, above x by no more than so many steps. */
  ghost predicate RootWithin(posts: Posts, x: Id, steps: nat, r: Id)
  {
    r in posts && posts[r].replyTo.None? && exists n: nat :: n <= steps && Reaches(posts, x, n, r)
  }

  /** The root of a thread is found exactly when it is held, above by no more than the steps looked. */
  lemma RootIsAbove(posts: Posts, x: Id, steps: nat, r: Id)
    ensures RootOf(posts, x, steps) == Some(r) <==> RootWithin(posts, x, steps, r)
  {
    if RootOf(posts, x, steps) == Some(r) {
      var n := RootFound(posts, x, steps);
      assert RootWithin(posts, x, steps, r);
    }
    if RootWithin(posts, x, steps, r) {
      var n: nat :| n <= steps && Reaches(posts, x, n, r);
      FoundRoot(posts, x, steps, n, r);
    }
  }

  lemma WalkIsRoot(posts: Posts, x: Id, n: nat, r: Id)
    requires WalkEnds(posts, x, WALK_STEPS) && Reaches(posts, x, n, r)
    requires r in posts && posts[r].replyTo.None?
    ensures Walk(posts, x, WALK_STEPS) == Some(r)
  {
    WalkFinds(posts, x, WALK_STEPS);
    if Walk(posts, x, WALK_STEPS).Some? {
      var m: nat :| Reaches(posts, x, m, Walk(posts, x, WALK_STEPS).value);
      OneEnd(posts, x, n, r, m, Walk(posts, x, WALK_STEPS).value);
    } else {
      var m: nat, g :| Reaches(posts, x, m, g) && g !in posts;
      OneEnd(posts, x, n, r, m, g);
    }
  }

  // ---- a post arrives ----

  /** What a chain in the posts with id added was before it came. */
  lemma {:induction false} ReachesAdded(posts: Posts, mid: Posts, id: Id, x: Id, n: nat, y: Id)
    requires id in mid && posts == mid - {id} && Reaches(mid, x, n, y)
    ensures Reaches(posts, x, n, y) || Below(mid, id, y)
    decreases n
  {
    if n > 0 && x != id {
      ReachesAdded(posts, mid, id, mid[x].replyTo.value, n - 1, y);
    }
  }

  /** The root above a new post is the one its walk bumps. */
  lemma AboveNew(posts: Posts, id: Id, p: Post, n: nat, r: Id)
    requires n > 0 && Reaches(posts[id := p], id, n, r)
    requires r in posts[id := p] && posts[id := p][r].replyTo.None?
    requires p.replyTo.Some? ==> WalkEnds(posts[id := p], p.replyTo.value, WALK_STEPS)
    ensures p.replyTo.Some? && Walk(posts[id := p], p.replyTo.value, WALK_STEPS) == Some(r)
  {
    WalkIsRoot(posts[id := p], p.replyTo.value, n - 1, r);
  }

  /** The posts a new one leaves: the same chains, and only the bumped root's columns changed. */
  lemma CreateShape(posts: Posts, id: Id, p: Post)
    requires id !in posts
    ensures var after := CreatePost(posts, id, p);
            SameChains(posts[id := p], after) &&
            forall y :: y in after ==>
              after[y] == posts[id := p][y] ||
              (p.replyTo.Some? && Walk(posts[id := p], p.replyTo.value, WALK_STEPS) == Some(y) &&
               after[y] == posts[id := p][y].(activity := p.received, lastReply := Some(id)))
  {
  }

  lemma CreateActive(posts: Posts, logged: set<Id>, clock: int, id: Id, p: Post)
    requires ThreadsOk(posts, logged, clock) && id !in logged && clock <= p.received == p.activity
    requires p.replyTo.Some? ==> WalkEnds(posts[id := p], p.replyTo.value, WALK_STEPS)
    ensures Active(CreatePost(posts, id, p))
  {
    var mid, after := posts[id := p], CreatePost(posts, id, p);
    CreateShape(posts, id, p);
    forall r, x | r in after && after[r].replyTo.None? && Below(after, x, r)
      ensures after[r].activity >= after[x].received
    {
      BelowWithin(after, mid, x, r);
      var n: nat :| n > 0 && Reaches(mid, x, n, r);
      assert posts == mid - {id};
      ReachesAdded(posts, mid, id, x, n, r);
      if Reaches(posts, x, n, r) {
        assert x in posts;
        assert r != id ==> Below(posts, x, r);
      } else {
        var k: nat :| k > 0 && Reaches(mid, id, k, r);
        AboveNew(posts, id, p, k, r);
      }
    }
  }

  lemma CreateNames(posts: Posts, logged: set<Id>, clock: int, id: Id, p: Post)
    requires ThreadsOk(posts, logged, clock) && id !in logged && p.lastReply.None?
    requires p.replyTo.Some? ==> WalkEnds(posts[id := p], p.replyTo.value, WALK_STEPS)
    ensures NamesHeld(CreatePost(posts, id, p), logged + {id}) && NamesOnce(CreatePost(posts, id, p))
  {
    var mid, after := posts[id := p], CreatePost(posts, id, p);
    CreateShape(posts, id, p);
    forall y | y in after && after[y].lastReply.Some?
      ensures NamesReply(after, logged + {id}, y, after[y].lastReply.value)
    {
      var z := after[y].lastReply.value;
      if after[y] == mid[y] {
        if Below(posts, z, y) {
          BelowWithin(posts, after, z, y);
        } else {
          BrokenStays(posts, after, logged, logged + {id}, z);
        }
      } else {
        WalkFinds(mid, p.replyTo.value, WALK_STEPS);
        var n: nat :| Reaches(mid, p.replyTo.value, n, y);
        assert Reaches(mid, id, n + 1, y);
        assert Below(mid, id, y);
        BelowWithin(mid, after, id, y);
      }
    }
  }

  lemma CreateDated(posts: Posts, logged: set<Id>, clock: int, id: Id, p: Post)
    requires ThreadsOk(posts, logged, clock) && id !in logged && p.received == p.activity && p.lastReply.None?
    ensures Dated(CreatePost(posts, id, p))
  {
    CreateShape(posts, id, p);
    forall y | y in CreatePost(posts, id, p)
      ensures DatedAt(CreatePost(posts, id, p), y)
    {
      assert y in posts ==> DatedAt(posts, y);
    }
  }

  lemma CreateKeeps(posts: Posts, logged: set<Id>, clock: int, id: Id, p: Post)
    requires ThreadsOk(posts, logged, clock) && id !in logged
    requires clock <= p.received == p.activity && p.lastReply.None?
    requires p.replyTo.Some? ==> WalkEnds(posts[id := p], p.replyTo.value, WALK_STEPS)
    ensures ThreadsOk(CreatePost(posts, id, p), logged + {id}, p.received)
  {
    CreateActive(posts, logged, clock, id, p);
    CreateNames(posts, logged, clock, id, p);
    CreateDated(posts, logged, clock, id, p);
    CreateShape(posts, id, p);
    CreatePostKeys(posts, id, p);
  }

  // ---- a post goes ----

  lemma LosePost(posts: Posts, logged: set<Id>, clock: int, v: Id)
    requires ThreadsOk(posts, logged, clock) && v in posts
    ensures var left := posts - {v};
            Active(left) && NamesOnce(left) &&
            (forall y :: y in left && left[y].lastReply != Some(v) ==> DatedAt(left, y)) &&
            forall y :: y in left && left[y].lastReply.Some? && left[y].lastReply.value != v ==>
              NamesReply(left, logged, y, left[y].lastReply.value)
  {
    var left := posts - {v};
    forall r, x | r in left && left[r].replyTo.None? && Below(left, x, r)
      ensures left[r].activity >= left[x].received
    {
      BelowWithin(left, posts, x, r);
    }
    forall y | y in left && left[y].lastReply != Some(v)
      ensures DatedAt(left, y)
    {
      assert DatedAt(posts, y);
    }
    forall y | y in left && left[y].lastReply.Some? && left[y].lastReply.value != v
      ensures NamesReply(left, logged, y, left[y].lastReply.value)
    {
      NameSurvives(posts, logged, v, y);
    }
  }

  lemma NameSurvives(posts: Posts, logged: set<Id>, v: Id, y: Id)
    requires posts.Keys <= logged && v in posts && y in posts && y != v
    requires posts[y].lastReply.Some? && posts[y].lastReply.value != v
    requires NamesReply(posts, logged, y, posts[y].lastReply.value)
    ensures NamesReply(posts - {v}, logged, y, posts[y].lastReply.value)
  {
    var left, z := posts - {v}, posts[y].lastReply.value;
    if Below(posts, z, y) {
      var n: nat :| n > 0 && Reaches(posts, z, n, y);
      ReachesWithout(posts, left, v, z, n, y);
      if Reaches(left, z, n, y) {
        assert Below(left, z, y);
      } else {
        var k: nat :| Reaches(left, z, k, v);
        assert Broken(left, logged, z);
      }
    } else {
      var n: nat, g :| Reaches(posts, z, n, g) && g !in posts && g in logged;
      ReachesWithout(posts, left, v, z, n, g);
      assert Broken(left, logged, z);
    }
  }

  /** Another post naming a reply below root would have root above it too. */
  lemma NoOtherName(posts: Posts, logged: set<Id>, root: Id, y: Id, n: Id)
    requires root in posts && posts[root].replyTo.None? && Below(posts, n, root)
    requires y in posts && NamesReply(posts, logged, y, n)
    ensures y == root
  {
    var k: nat :| k > 0 && Reaches(posts, n, k, root);
    if Below(posts, n, y) {
      var m: nat :| m > 0 && Reaches(posts, n, m, y);
      OneEnd(posts, n, k, root, m, y);
    } else {
      var m: nat, g :| Reaches(posts, n, m, g) && g !in posts && g in logged;
      OneEnd(posts, n, k, root, m, g);
    }
  }

  lemma PointBackShape(left: Posts, root: Id)
    requires root in left
    ensures var after := PointBack(left, root); SameChains(left, after)
    ensures var after := PointBack(left, root); forall y :: y in left && y != root ==> after[y] == left[y]
    ensures DatedAt(PointBack(left, root), root)
    ensures var after := PointBack(left, root);
            after[root].lastReply.Some? ==>
              Below(left, after[root].lastReply.value, root) &&
                  after[root].activity == left[after[root].lastReply.value].received
    ensures var after := PointBack(left, root);
            forall x :: Below(left, x, root) ==> after[root].activity >= left[x].received
  {
  }

  lemma PointBackKeeps(left: Posts, logged: set<Id>, clock: int, v: Id, root: Id)
    requires left.Keys <= logged && (forall x :: x in left ==> left[x].received <= clock)
    requires Active(left) && NamesOnce(left) && root in left && left[root].replyTo.None?
    requires forall y :: y in left && left[y].lastReply.Some? && y != root ==>
               NamesReply(left, logged, y, left[y].lastReply.value)
    requires forall y :: y in left && y != root ==> DatedAt(left, y)
    ensures ThreadsOk(PointBack(left, root), logged, clock)
  {
    var after := PointBack(left, root);
    PointBackShape(left, root);
    forall y | y in after
      ensures DatedAt(after, y)
    {
      assert y != root ==> DatedAt(left, y);
    }
    forall r, x | r in after && after[r].replyTo.None? && Below(after, x, r)
      ensures after[r].activity >= after[x].received
    {
      BelowWithin(after, left, x, r);
    }
    forall y | y in after && after[y].lastReply.Some?
      ensures NamesReply(after, logged, y, after[y].lastReply.value)
    {
      var z := after[y].lastReply.value;
      if Below(left, z, y) {
        BelowWithin(left, after, z, y);
      } else {
        BrokenStays(left, after, logged, logged, z);
      }
    }
    forall y, z | y in after && z in after && after[y].lastReply.Some? && after[y].lastReply == after[z].lastReply
      ensures y == z
    {
      if y == root && z != root {
        NoOtherName(left, logged, root, z, after[z].lastReply.value);
      } else if z == root && y != root {
        NoOtherName(left, logged, root, y, after[y].lastReply.value);
      }
    }
  }

  /** The thread whose named reply goes names the newest left below its root, by arrival and then by
      id, and is as old as that; with none left it names none and is as old as its root. */
  lemma DeleteNamesNewest(posts: Posts, v: Id, root: Id)
    requires root in posts && root != v && posts[root].lastReply == Some(v)
    requires forall y :: y in posts && posts[y].lastReply == Some(v) ==> y == root
    ensures var left, after := posts - {v}, DeletePost(posts, v);
            && root in after
            && match after[root].lastReply
               case None => after[root].activity == posts[root].received && forall x: Id :: !Below(left, x, root)
               case Some(z) =>
                 && Below(left, z, root) && after[root].activity == posts[z].received
                 && forall x: Id :: Below(left, x, root) && x != z ==>
                      posts[x].received < posts[z].received || (posts[x].received == posts[z].received && x < z)
  {
    assert Holds(posts, v, root);
    assert Holder(posts, v) == Some(root);
    var left := posts - {v};
    assert forall x: Id :: Below(left, x, root) <==> x in Tree(left, root);
  }

  lemma DeleteKeeps(posts: Posts, logged: set<Id>, clock: int, v: Id)
    requires ThreadsOk(posts, logged, clock) && v in posts
    ensures ThreadsOk(DeletePost(posts, v), logged, clock)
  {
    var left := posts - {v};
    LosePost(posts, logged, clock, v);
    match Holder(posts, v)
    case None =>
    case Some(root) =>
      if root == v {
        assert forall y :: y in left && left[y].lastReply.Some? ==> left[y].lastReply.value != v;
      } else {
        PointBackKeeps(left, logged, clock, v, root);
      }
  }
}
