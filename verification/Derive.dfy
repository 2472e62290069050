/** What one message does to the tables derived from the log. */
module Derive {
  import opened Messages

  type Posts = map<Id, Post>

  // ---- threads: the chain up from a post, and the tree below one ----

  /** n steps up reply_to from x, every step taken from a held post, end at y; y itself need not be held. */
  ghost predicate Reaches(posts: Posts, x: Id, n: nat, y: Id)
    decreases n
  {
    if n == 0 then x == y
    else x in posts && posts[x].replyTo.Some? && Reaches(posts, posts[x].replyTo.value, n - 1, y)
  }

  /** x is held and hangs below y, however deep: the recursive walk down from y. */
  ghost predicate Below(posts: Posts, x: Id, y: Id)
  {
    x in posts && exists n: nat :: n > 0 && Reaches(posts, x, n, y)
  }

  ghost function Tree(posts: Posts, y: Id): (s: set<Id>)
    ensures forall x :: x in s <==> Below(posts, x, y)
  {
    set x | x in posts && Below(posts, x, y)
  }

  /** The walk a new reply's bump takes: at most `steps` lookups up from root. None when a
      parent is not held; the post it stopped at, whatever it is, when the steps run out. */
  function Walk(posts: Posts, root: Id, steps: nat): Option<Id>
    decreases steps
  {
    if steps == 0 then Some(root)
    else if root !in posts then None
    else match posts[root].replyTo
      case None => Some(root)
      case Some(up) => Walk(posts, up, steps - 1)
  }

  const WALK_STEPS: nat := 40

  /** The root of the thread x stands in, found within `steps` levels above it. */
  function RootOf(posts: Posts, x: Id, steps: nat): Option<Id>
    decreases steps
  {
    if x !in posts then None
    else match posts[x].replyTo
      case None => Some(x)
      case Some(up) => if steps == 0 then None else RootOf(posts, up, steps - 1)
  }

  /** (received, id) order, the one replies are ranked by. */
  predicate Newer(posts: Posts, x: Id, y: Id)
    requires x in posts && y in posts
  {
    posts[x].received > posts[y].received || (posts[x].received == posts[y].received && x > y)
  }

  ghost predicate IsNewest(posts: Posts, s: set<Id>, x: Id)
    requires s <= posts.Keys
  {
    x in s && forall y :: y in s && y != x ==> Newer(posts, x, y)
  }

  lemma {:induction false} NewestExists(posts: Posts, s: set<Id>)
    requires s != {} && s <= posts.Keys
    ensures exists x :: IsNewest(posts, s, x)
    decreases s
  {
    var x :| x in s;
    if s == {x} {
      assert IsNewest(posts, s, x);
    } else {
      NewestExists(posts, s - {x});
      var y :| IsNewest(posts, s - {x}, y);
      var z := if Newer(posts, x, y) then x else y;
      forall w | w in s && w != z
        ensures Newer(posts, z, w)
      {
        assert w != x ==> w in s - {x};
      }
      assert IsNewest(posts, s, z);
    }
  }

  /** The newest post of s. */
  ghost function Newest(posts: Posts, s: set<Id>): (r: Option<Id>)
    requires s <= posts.Keys
    ensures s == {} ==> r == None
    ensures s != {} ==> r.Some? && IsNewest(posts, s, r.value)
  {
    if s == {} then None
    else
      NewestExists(posts, s);
      var x :| IsNewest(posts, s, x);
      Some(x)
  }

  // ---- one operation on the tables ----

  /** A post.create: the row, then the bump of the thread's root. */
  function CreatePost(posts: Posts, id: Id, p: Post): Posts
  {
    var posts1 := posts[id := p];
    match p.replyTo
    case None => posts1
    case Some(up) =>
      match Walk(posts1, up, WALK_STEPS)
      case None => posts1
      case Some(root) => BumpRoot(posts1, root, id, p.received)
  }

  function BumpRoot(posts: Posts, root: Id, id: Id, received: int): Posts
  {
    if root in posts then posts[root := posts[root].(activity := received, lastReply := Some(id))] else posts
  }

  predicate Holds(posts: Posts, x: Id, y: Id) { y in posts && posts[y].lastReply == Some(x) }

  /** The post whose last_reply is x. There is at most one (see Threads); were there more,
      the first by id stands for whichever row SQLite reads. */
  ghost function Holder(posts: Posts, x: Id): (r: Option<Id>)
    ensures r.Some? ==> Holds(posts, x, r.value) && forall z: Id :: Holds(posts, x, z) ==> r.value <= z
    ensures r.None? ==> forall y: Id :: y in posts ==> posts[y].lastReply != Some(x)
  {
    if y: Id :| Holds(posts, x, y) then Some(FirstHolder(posts, x, y))
    else
      assert forall y: Id :: y in posts && posts[y].lastReply == Some(x) ==> Holds(posts, x, y);
      None
  }

  ghost function FirstHolder(posts: Posts, x: Id, y: Id): (w: Id)
    requires Holds(posts, x, y)
    ensures Holds(posts, x, w) && forall z: Id :: Holds(posts, x, z) ==> w <= z
  {
    if z: Id :| Holds(posts, x, z) && z < y then FirstHolder(posts, x, z) else y
  }

  /** A post.delete: the row goes, and the thread it was the newest reply of is pointed
      back at the newest left in its tree. */
  ghost function DeletePost(posts: Posts, x: Id): Posts
  {
    var posts1 := posts - {x};
    match Holder(posts, x)
    case None => posts1
    case Some(root) => PointBack(posts1, root)
  }

  ghost function PointBack(posts: Posts, root: Id): Posts
  {
    if root !in posts then posts
    else match Newest(posts, Tree(posts, root))
      case None => posts[root := posts[root].(lastReply := None, activity := posts[root].received)]
      case Some(n) => posts[root := posts[root].(lastReply := Some(n), activity := posts[n].received)]
  }

  lemma CreatePostKeys(posts: Posts, id: Id, p: Post)
    ensures CreatePost(posts, id, p).Keys == posts.Keys + {id}
  {
  }

  lemma DeletePostKeys(posts: Posts, x: Id)
    ensures DeletePost(posts, x).Keys == posts.Keys - {x}
  {
    var posts1 := posts - {x};
    forall root
      ensures PointBack(posts1, root).Keys == posts1.Keys
    {
      PointBackKeys(posts1, root);
    }
  }

  lemma PointBackKeys(posts: Posts, root: Id)
    ensures PointBack(posts, root).Keys == posts.Keys
  {
  }

  /** A mark wins its box by its own (ts, id), never by when it came. */
  predicate Beats(m: Mark, held: Mark)
  {
    m.ts > held.ts || (m.ts == held.ts && m.id > held.id)
  }

  function SetMark(marks: map<(Id, nat), Mark>, post: Id, box: nat, m: Mark): map<(Id, nat), Mark>
  {
    if (post, box) in marks && !Beats(m, marks[(post, box)]) then marks else marks[(post, box) := m]
  }

  /** Content and bookmarks leave the hub's policy and the authors' numbers alone. */
  predicate SamePolicy(t: Tables, t1: Tables)
  {
    t1.bans == t.bans && t1.invites == t.invites && t1.seqs == t.seqs && t1.peers == t.peers
  }

  ghost function TakeCreate(t: Tables, id: Id, p: Post, embeds: seq<Embed>): (r: Result<Tables>)
    ensures r.Ok? ==> SamePolicy(t, r.value) && r.value.profiles == t.profiles && r.value.marks == t.marks
  {
    if id in t.posts || id in t.embeds then Err(Constraint)
    else Ok(t.(posts := CreatePost(t.posts, id, p), embeds := t.embeds[id := embeds]))
  }

  function MarksWithout(marks: map<(Id, nat), Mark>, post: Id): map<(Id, nat), Mark>
  {
    map k | k in marks && k.0 != post :: marks[k]
  }

  function BookmarksWithout(bookmarks: map<(Pid, Id), int>, post: Id): map<(Pid, Id), int>
  {
    map k | k in bookmarks && k.1 != post :: bookmarks[k]
  }

  ghost function TakeDelete(t: Tables, pid: Pid, post: Id): (r: Result<Tables>)
    ensures r.Ok? ==> SamePolicy(t, r.value) && r.value.profiles == t.profiles
  {
    if post !in t.posts then Err(NotFound)
    else if t.posts[post].author != pid then Err(NotOwner)
    else Ok(t.(posts := DeletePost(t.posts, post), embeds := t.embeds - {post},
               marks := MarksWithout(t.marks, post), bookmarks := BookmarksWithout(t.bookmarks, post)))
  }

  function TakeMark(t: Tables, pid: Pid, post: Id, box: nat, m: Mark): (r: Result<Tables>)
    ensures r.Ok? ==> r.value.posts == t.posts && r.value.embeds == t.embeds && r.value.profiles == t.profiles
    ensures r.Ok? ==> SamePolicy(t, r.value)
  {
    if post !in t.posts then Err(NotFound)
    else if t.posts[post].author != pid then Err(NotOwner)
    else Ok(t.(marks := SetMark(t.marks, post, box, m)))
  }

  /** replay lets pass a bookmark of a post that is not here. */
  function TakeBookmark(t: Tables, pid: Pid, post: Id, on: bool, received: int, replay: bool): (r: Result<Tables>)
    ensures r.Ok? ==> r.value.posts == t.posts && r.value.embeds == t.embeds && r.value.profiles == t.profiles
    ensures r.Ok? ==> SamePolicy(t, r.value)
    ensures r.Ok? ==> r.value.marks == t.marks
  {
    if !on then Ok(t.(bookmarks := t.bookmarks - {(pid, post)}))
    else if post in t.posts then Ok(t.(bookmarks := t.bookmarks[(pid, post) := received]))
    else if replay then Ok(t)
    else Err(NotFound)
  }

  function TakeProfile(t: Tables, e: Envelope, name: string, bio: string, avatar: Option<Cid>, received: int)
    : (t1: Tables)
    ensures t1.posts == t.posts && t1.embeds == t.embeds && t1.marks == t.marks && SamePolicy(t, t1)
  {
    var created := if e.pid in t.profiles then t.profiles[e.pid].created else received;
    var pubkey := if e.pid in t.profiles then t.profiles[e.pid].pubkey else e.author;
    t.(profiles := t.profiles[e.pid := Profile(pubkey, name, bio, avatar, created, received)])
  }

  /** Moderation and curation: bans, invites, peers. */
  function TakePolicy(t: Tables, e: Envelope, received: int): (t1: Tables)
    ensures t1.posts == t.posts && t1.embeds == t.embeds && t1.profiles == t.profiles
    ensures t1.marks == t.marks && t1.bookmarks == t.bookmarks && t1.seqs == t.seqs
    ensures !e.op.BanSet? ==> t1.bans.Keys <= t.bans.Keys
  {
    match e.op
    case BanSet(target, reason) => t.(bans := t.bans[target := Ban(reason, e.pid, received)])
    case BanLift(target) => t.(bans := t.bans - {target})
    case InviteSet(key, profile, note) =>
      var kept := if key in t.invites then t.invites[key].profile else profile;
      t.(invites := t.invites[key := Invite(kept, note, e.pid, received)])
    case InviteLift(key) => t.(invites := t.invites - {key})
    case PeerAdd(hub, addr) => t.(peers := t.peers[hub := Peer(addr, e.pid, received)])
    case PeerRemove(hub) => t.(peers := t.peers - {hub})
    case _ => t
  }

  /** The tables after one message; pins are kept by Files. */
  ghost function Materialize(t: Tables, id: Id, e: Envelope, received: int, replay: bool): Result<Tables>
  {
    match e.op
    case ProfileSet(name, bio, avatar) => Ok(TakeProfile(t, e, name, bio, avatar, received))
    case PostCreate(text, replyTo, embeds) =>
      TakeCreate(t, id, Post(e.pid, text, replyTo, e.ts, received, received, None), embeds)
    case PostDelete(post) => TakeDelete(t, e.pid, post)
    case PostMark(post, box, done) => TakeMark(t, e.pid, post, box, Mark(done, e.ts, id))
    case PostBookmark(post, on) => TakeBookmark(t, e.pid, post, on, received, replay)
    case _ => Ok(TakePolicy(t, e, received))
  }

  lemma OtherTables(t: Tables, id: Id, e: Envelope, received: int, replay: bool)
    requires Materialize(t, id, e, received, replay).Ok?
    requires !e.op.PostCreate? && !e.op.PostDelete?
    ensures var t1 := Materialize(t, id, e, received, replay).value;
            && t1.posts == t.posts && t1.embeds == t.embeds
            && (!e.op.ProfileSet? ==> t1.profiles == t.profiles)
            && (!e.op.PostMark? ==> t1.marks == t.marks)
  {
  }

  lemma PointBackLeaves(posts: Posts, root: Id, x: Id)
    requires x in posts
    ensures var p := PointBack(posts, root);
            x in p && p[x] == posts[x].(activity := p[x].activity, lastReply := p[x].lastReply)
  {
  }

  lemma DeleteLeaves(posts: Posts, gone: Id, x: Id)
    requires x in posts && x != gone
    ensures var p := DeletePost(posts, gone);
            x in p && p[x] == posts[x].(activity := p[x].activity, lastReply := p[x].lastReply)
  {
    if Holder(posts, gone).Some? { PointBackLeaves(posts - {gone}, Holder(posts, gone).value, x); }
  }

  /** A post not deleted keeps all but its thread columns. */
  lemma PostStays(t: Tables, id: Id, e: Envelope, received: int, replay: bool, x: Id)
    requires Materialize(t, id, e, received, replay).Ok? && x in t.posts && !(e.op.PostDelete? && e.op.post == x)
    ensures var t1 := Materialize(t, id, e, received, replay).value;
            && x in t1.posts
            && t1.posts[x] == t.posts[x].(activity := t1.posts[x].activity, lastReply := t1.posts[x].lastReply)
  {
    if e.op.PostDelete? {
      DeleteLeaves(t.posts, e.op.post, x);
    } else if !e.op.PostCreate? {
      OtherTables(t, id, e, received, replay);
    }
  }

  lemma PolicyStays(t: Tables, id: Id, e: Envelope, received: int, replay: bool)
    requires Materialize(t, id, e, received, replay).Ok?
    requires e.op.ProfileSet? || e.op.PostCreate? || e.op.PostDelete? || e.op.PostMark? || e.op.PostBookmark?
    ensures SamePolicy(t, Materialize(t, id, e, received, replay).value)
  {
  }

  lemma SeqsStay(t: Tables, id: Id, e: Envelope, received: int, replay: bool)
    requires Materialize(t, id, e, received, replay).Ok?
    ensures Materialize(t, id, e, received, replay).value.seqs == t.seqs
  {
    if !(e.op.ProfileSet? || e.op.PostCreate? || e.op.PostDelete? || e.op.PostMark? || e.op.PostBookmark?) {
      assert Materialize(t, id, e, received, replay) == Ok(TakePolicy(t, e, received));
    } else {
      PolicyStays(t, id, e, received, replay);
    }
  }

  /** The author's sequence high-water, which a lower number never brings down. */
  function RaiseSeq(t: Tables, e: Envelope): Tables
  {
    var last := if e.author in t.seqs then t.seqs[e.author] else e.seqNo;
    t.(seqs := t.seqs[e.author := if last >= e.seqNo then last else e.seqNo])
  }

  /** Materialize and the sequence number with it: what ingest and replay both do for a message. */
  ghost function Take(t: Tables, id: Id, e: Envelope, received: int, replay: bool): Result<Tables>
  {
    match Materialize(t, id, e, received, replay)
    case Err(x) => Err(x)
    case Ok(t1) => Ok(RaiseSeq(t1, e))
  }

  /** The tables as replaying a whole log from nothing leaves them. */
  ghost function Replayed(log: seq<Msg>): Result<Tables>
    decreases |log|
  {
    if log == [] then Ok(EMPTY_TABLES)
    else
      match Replayed(log[..|log| - 1])
      case Err(x) => Err(x)
      case Ok(t) =>
        var m := log[|log| - 1];
        Take(t, m.id, m.e, m.received, true)
  }
}
