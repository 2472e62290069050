/** A hub that pulls another's log shows what that log says. */
module Replica {
  import opened Messages
  import opened Derive
  import opened Hub
  import Ledger
  import ReplayLaws

  // ---- what replicates ----

  predicate IsContent(op: Op)
  {
    op.ProfileSet? || op.PostCreate? || op.PostDelete? || op.PostMark?
  }

  datatype PostView = PostView(author: Pid, text: string, replyTo: Option<Id>, ts: int)
  datatype ProfileView = ProfileView(pubkey: Key, name: string, bio: string, avatar: Option<Cid>)

  /** A hub's content: no arrival times, no thread columns. */
  datatype View = View(posts: map<Id, PostView>, embeds: map<Id, seq<Embed>>, profiles: map<Pid, ProfileView>,
                       marks: map<(Id, nat), Mark>)

  function ViewPost(p: Post): PostView { PostView(p.author, p.text, p.replyTo, p.ts) }
  function ViewProfile(p: Profile): ProfileView { ProfileView(p.pubkey, p.name, p.bio, p.avatar) }

  function ViewPosts(posts: Posts): map<Id, PostView> { map x | x in posts :: ViewPost(posts[x]) }
  function ViewProfiles(ps: map<Pid, Profile>): map<Pid, ProfileView> { map x | x in ps :: ViewProfile(ps[x]) }

  function Content(t: Tables): View
  {
    View(ViewPosts(t.posts), t.embeds, ViewProfiles(t.profiles), t.marks)
  }

  lemma ViewPointBack(posts: Posts, root: Id)
    ensures ViewPosts(PointBack(posts, root)) == ViewPosts(posts)
  {
  }

  lemma ViewDelete(posts: Posts, x: Id)
    ensures ViewPosts(DeletePost(posts, x)) == ViewPosts(posts) - {x}
  {
    if Holder(posts, x).Some? { ViewPointBack(posts - {x}, Holder(posts, x).value); }
  }

  // ---- one author's content ----

  predicate Mine(t: Tables, p: Pid, x: Id) { x in t.posts && t.posts[x].author == p }

  predicate SamePost(ta: Tables, tb: Tables, p: Pid, x: Id)
  {
    && (Mine(ta, p, x) <==> Mine(tb, p, x))
    && (Mine(ta, p, x) ==>
          && ViewPost(ta.posts[x]) == ViewPost(tb.posts[x]) && (x in ta.embeds <==> x in tb.embeds)
          && (x in ta.embeds ==> ta.embeds[x] == tb.embeds[x]))
  }

  predicate SameBox(ta: Tables, tb: Tables, p: Pid, x: Id, box: nat)
  {
    Mine(ta, p, x) ==>
      && ((x, box) in ta.marks <==> (x, box) in tb.marks)
      && ((x, box) in ta.marks ==> ta.marks[(x, box)] == tb.marks[(x, box)])
  }

  predicate SameProfile(ta: Tables, tb: Tables, p: Pid)
  {
    && (p in ta.profiles <==> p in tb.profiles)
    && (p in ta.profiles ==> ViewProfile(ta.profiles[p]) == ViewProfile(tb.profiles[p]))
  }

  /** Two hubs show the same of an author: posts, their embeds and boxes, and the profile. */
  ghost predicate SameOf(ta: Tables, tb: Tables, p: Pid)
  {
    && (forall x: Id :: SamePost(ta, tb, p, x)) && (forall x: Id, box: nat :: SameBox(ta, tb, p, x, box))
    && SameProfile(ta, tb, p)
  }

  lemma SameThrough(ta: Tables, tb: Tables, tc: Tables, p: Pid)
    requires SameOf(ta, tb, p) && SameOf(tb, tc, p)
    ensures SameOf(ta, tc, p)
  {
    forall x: Id
      ensures SamePost(ta, tc, p, x)
    {
      assert SamePost(ta, tb, p, x) && SamePost(tb, tc, p, x);
    }
    forall x: Id, box: nat
      ensures SameBox(ta, tc, p, x, box)
    {
      assert SamePost(ta, tb, p, x) && SameBox(ta, tb, p, x, box) && SameBox(tb, tc, p, x, box);
    }
  }

  lemma SameBack(ta: Tables, tb: Tables, p: Pid)
    requires SameOf(ta, tb, p)
    ensures SameOf(tb, ta, p)
  {
    forall x: Id
      ensures SamePost(tb, ta, p, x)
    {
      assert SamePost(ta, tb, p, x);
    }
    forall x: Id, box: nat
      ensures SameBox(tb, ta, p, x, box)
    {
      assert SamePost(ta, tb, p, x) && SameBox(ta, tb, p, x, box);
    }
  }

  /** Hubs that show the same of every author show the same. */
  lemma AllAlike(ta: Tables, tb: Tables)
    requires forall p: Pid :: SameOf(ta, tb, p)
    requires Ledger.OfHeld(ta) && Ledger.OfHeld(tb)
    requires ta.embeds.Keys == ta.posts.Keys && tb.embeds.Keys == tb.posts.Keys
    ensures Content(ta) == Content(tb)
  {
    forall x: Id
      ensures x in ta.posts <==> x in tb.posts
      ensures x in ta.posts ==> ViewPost(ta.posts[x]) == ViewPost(tb.posts[x]) && ta.embeds[x] == tb.embeds[x]
    {
      if x in ta.posts { assert SameOf(ta, tb, ta.posts[x].author) && SamePost(ta, tb, ta.posts[x].author, x); }
      if x in tb.posts { assert SameOf(ta, tb, tb.posts[x].author) && SamePost(ta, tb, tb.posts[x].author, x); }
    }
    forall p: Pid
      ensures p in ta.profiles <==> p in tb.profiles
      ensures p in ta.profiles ==> ViewProfile(ta.profiles[p]) == ViewProfile(tb.profiles[p])
    {
      assert SameOf(ta, tb, p) && SameProfile(ta, tb, p);
    }
    AlikeMarks(ta, tb);
    assert ViewPosts(ta.posts) == ViewPosts(tb.posts) && ViewProfiles(ta.profiles) == ViewProfiles(tb.profiles);
    assert ta.embeds == tb.embeds;
  }

  lemma AlikeMarks(ta: Tables, tb: Tables)
    requires (forall p: Pid :: SameOf(ta, tb, p)) && Ledger.OfHeld(ta) && Ledger.OfHeld(tb)
    ensures ta.marks == tb.marks
  {
    forall x: Id, box: nat
      ensures (x, box) in ta.marks <==> (x, box) in tb.marks
      ensures (x, box) in ta.marks ==> ta.marks[(x, box)] == tb.marks[(x, box)]
    {
      if (x, box) in ta.marks {
        assert (x, box).0 in ta.posts;
        assert SameOf(ta, tb, ta.posts[x].author) && SameBox(ta, tb, ta.posts[x].author, x, box);
      }
      if (x, box) in tb.marks {
        assert (x, box).0 in tb.posts;
        assert SameOf(ta, tb, tb.posts[x].author) && SamePost(ta, tb, tb.posts[x].author, x);
        assert SameBox(ta, tb, tb.posts[x].author, x, box);
      }
    }
    assert forall k :: k in ta.marks <==> (k.0, k.1) in ta.marks;
    assert forall k :: k in tb.marks <==> (k.0, k.1) in tb.marks;
  }

  /** What a delete leaves of a post still here, its thread columns apart. */
  lemma DeleteView(posts: Posts, gone: Id, x: Id)
    ensures x in DeletePost(posts, gone) <==> x in posts && x != gone
    ensures x in DeletePost(posts, gone) ==> ViewPost(DeletePost(posts, gone)[x]) == ViewPost(posts[x])
  {
    ViewDelete(posts, gone);
    assert x in ViewPosts(DeletePost(posts, gone)) <==> x in DeletePost(posts, gone);
    if x in DeletePost(posts, gone) { assert ViewPosts(DeletePost(posts, gone))[x] == ViewPosts(posts)[x]; }
  }

  lemma CreateView(posts: Posts, id: Id, p: Post, x: Id)
    ensures x in CreatePost(posts, id, p) <==> x in posts || x == id
    ensures x in posts && x != id ==> ViewPost(CreatePost(posts, id, p)[x]) == ViewPost(posts[x])
    ensures ViewPost(CreatePost(posts, id, p)[id]) == ViewPost(p)
  {
  }

  lemma DeleteLeaves(t: Tables, pid: Pid, gone: Id, p: Pid)
    requires TakeDelete(t, pid, gone).Ok? && pid != p
    ensures SameOf(t, TakeDelete(t, pid, gone).value, p)
  {
    forall x: Id ensures SamePost(t, TakeDelete(t, pid, gone).value, p, x) { DeleteView(t.posts, gone, x); }
  }

  lemma CreateLeaves(t: Tables, id: Id, post: Post, embeds: seq<Embed>, p: Pid)
    requires TakeCreate(t, id, post, embeds).Ok? && post.author != p
    ensures SameOf(t, TakeCreate(t, id, post, embeds).value, p)
  {
    forall x: Id ensures SamePost(t, TakeCreate(t, id, post, embeds).value, p, x) { CreateView(t.posts, id, post, x); }
  }

  lemma MarkLeaves(t: Tables, pid: Pid, post: Id, box: nat, m: Mark, p: Pid)
    requires TakeMark(t, pid, post, box, m).Ok? && pid != p
    ensures SameOf(t, TakeMark(t, pid, post, box, m).value, p)
  {
  }

  lemma UnsaidLeaves(t: Tables, t1: Tables, p: Pid)
    requires t1.posts == t.posts && t1.embeds == t.embeds && t1.marks == t.marks && SameProfile(t, t1, p)
    ensures SameOf(t, t1, p)
  {
  }

  /** One author's messages, and those that are no content, leave what every other author shows. */
  lemma OthersLeave(t: Tables, id: Id, e: Envelope, received: int, replay: bool, p: Pid)
    requires Materialize(t, id, e, received, replay).Ok? && (e.pid != p || !IsContent(e.op))
    ensures SameOf(t, Materialize(t, id, e, received, replay).value, p)
  {
    match e.op
    case PostCreate(text, replyTo, embeds) =>
      CreateLeaves(t, id, Post(e.pid, text, replyTo, e.ts, received, received, None), embeds, p);
    case PostDelete(post) => DeleteLeaves(t, e.pid, post, p);
    case PostMark(post, box, done) => MarkLeaves(t, e.pid, post, box, Mark(done, e.ts, id), p);
    case _ =>
      OtherTables(t, id, e, received, replay);
      UnsaidLeaves(t, Materialize(t, id, e, received, replay).value, p);
  }

  lemma SameCreate(ta: Tables, tb: Tables, id: Id, pa: Post, pb: Post, embeds: seq<Embed>)
    requires SameOf(ta, tb, pa.author) && ViewPost(pa) == ViewPost(pb) && Ledger.OfHeld(ta) && Ledger.OfHeld(tb)
    requires TakeCreate(ta, id, pa, embeds).Ok? && id !in tb.posts && id !in tb.embeds
    ensures SameOf(TakeCreate(ta, id, pa, embeds).value, TakeCreate(tb, id, pb, embeds).value, pa.author)
  {
    var a1, b1 := TakeCreate(ta, id, pa, embeds).value, TakeCreate(tb, id, pb, embeds).value;
    forall x: Id
      ensures SamePost(a1, b1, pa.author, x)
    {
      CreateView(ta.posts, id, pa, x);
      CreateView(tb.posts, id, pb, x);
      assert SamePost(ta, tb, pa.author, x);
    }
    forall x: Id, box: nat
      ensures SameBox(a1, b1, pa.author, x, box)
    {
      CreateView(ta.posts, id, pa, x);
      assert SameBox(ta, tb, pa.author, x, box);
      if x == id { assert (x, box).0 !in ta.posts && (x, box).0 !in tb.posts; }
    }
  }

  lemma SameDelete(ta: Tables, tb: Tables, pid: Pid, post: Id)
    requires SameOf(ta, tb, pid) && TakeDelete(ta, pid, post).Ok?
    ensures TakeDelete(tb, pid, post).Ok?
    ensures SameOf(TakeDelete(ta, pid, post).value, TakeDelete(tb, pid, post).value, pid)
  {
    assert SamePost(ta, tb, pid, post);
    var a1, b1 := TakeDelete(ta, pid, post).value, TakeDelete(tb, pid, post).value;
    forall x: Id
      ensures SamePost(a1, b1, pid, x)
    {
      DeleteView(ta.posts, post, x);
      DeleteView(tb.posts, post, x);
      assert SamePost(ta, tb, pid, x);
    }
    forall x: Id, box: nat
      ensures SameBox(a1, b1, pid, x, box)
    {
      DeleteView(ta.posts, post, x);
      assert SamePost(ta, tb, pid, x) && SameBox(ta, tb, pid, x, box);
    }
  }

  lemma SameMark(ta: Tables, tb: Tables, pid: Pid, post: Id, box: nat, m: Mark)
    requires SameOf(ta, tb, pid) && TakeMark(ta, pid, post, box, m).Ok?
    ensures TakeMark(tb, pid, post, box, m).Ok?
    ensures SameOf(TakeMark(ta, pid, post, box, m).value, TakeMark(tb, pid, post, box, m).value, pid)
  {
    assert SamePost(ta, tb, pid, post) && SameBox(ta, tb, pid, post, box);
    var a1, b1 := TakeMark(ta, pid, post, box, m).value, TakeMark(tb, pid, post, box, m).value;
    forall x: Id ensures SamePost(a1, b1, pid, x) { assert SamePost(ta, tb, pid, x); }
    forall x: Id, c: nat ensures SameBox(a1, b1, pid, x, c) { assert SameBox(ta, tb, pid, x, c); }
  }

  lemma SameSet(ta: Tables, tb: Tables, e: Envelope, name: string, bio: string, avatar: Option<Cid>, ra: int, rb: int)
    requires SameOf(ta, tb, e.pid)
    ensures SameOf(TakeProfile(ta, e, name, bio, avatar, ra), TakeProfile(tb, e, name, bio, avatar, rb), e.pid)
  {
    var a1, b1 := TakeProfile(ta, e, name, bio, avatar, ra), TakeProfile(tb, e, name, bio, avatar, rb);
    forall x: Id ensures SamePost(a1, b1, e.pid, x) { assert SamePost(ta, tb, e.pid, x); }
    forall x: Id, c: nat ensures SameBox(a1, b1, e.pid, x, c) { assert SameBox(ta, tb, e.pid, x, c); }
  }

  /** Content moves by its author's alone: of two hubs that show the same of an author, what one
      takes of that author the other takes, new to it, and they show the same again, whenever
      each received it and whatever else each holds. */
  lemma SameContent(ta: Tables, tb: Tables, id: Id, e: Envelope, ra: int, rb: int)
    requires SameOf(ta, tb, e.pid) && IsContent(e.op) && Materialize(ta, id, e, ra, true).Ok?
    requires Ledger.OfHeld(ta) && Ledger.OfHeld(tb) && id !in tb.posts && id !in tb.embeds
    ensures Materialize(tb, id, e, rb, true).Ok?
    ensures SameOf(Materialize(ta, id, e, ra, true).value, Materialize(tb, id, e, rb, true).value, e.pid)
  {
    match e.op
    case ProfileSet(name, bio, avatar) => SameSet(ta, tb, e, name, bio, avatar, ra, rb);
    case PostCreate(text, replyTo, embeds) =>
      SameCreate(ta, tb, id, Post(e.pid, text, replyTo, e.ts, ra, ra, None),
          Post(e.pid, text, replyTo, e.ts, rb, rb, None), embeds);
    case PostDelete(post) => SameDelete(ta, tb, e.pid, post);
    case PostMark(post, box, done) => SameMark(ta, tb, e.pid, post, box, Mark(done, e.ts, id));
  }

  // ---- two hubs ----

  /** Where the puller is: between pulls, holding the cursor it will ask from, or with a page
      in hand (asked from `from`, ending at `end`, next to handle `pos`). */
  datatype Pull = Idle | At(cursor: nat) | Reading(from: nat, pos: nat, end: nat)

  /** a is the origin, b the puller. high is the furthest message of a's log b ever handled,
      kept only to state things by. */
  datatype World = World(a: Db, b: Db, pull: Pull, high: nat)

  datatype Move =
    | AtA(s: Step)
    | AtB(s: Step)
    | Start
    | Fetch(limit: nat)
    | Handle(now: int)
    | Save
    | Stop

  function Max(x: nat, y: nat): nat { if x >= y then x else y }

  /** The saved cursor; a peer without a row is read from the start. */
  function Cursor(b: Db, hub: HubId): nat
  {
    if hub in b.peerState then b.peerState[hub].cursor else 0
  }

  function Saved(b: Db, hub: HubId, n: nat): PeerState
  {
    if hub in b.peerState then b.peerState[hub].(cursor := n) else PeerState(n, 0, 0)
  }

  /** Where a page asked for after `from` ends: the limit bounds the rows scanned. */
  function PageEnd(log: seq<Msg>, from: nat, limit: nat): nat
  {
    if from + limit <= |log| then from + limit else Max(from, |log|)
  }

  /** One message of a page: banned authors and anything but content are passed over, the
      rest is ingested as the peer's; a refusal is no more than that. */
  ghost function HandleOne(b: Db, hub: HubId, id: Id, e: Envelope, now: int): Db
  {
    if !IsContent(e.op) || e.pid in b.t.bans then b
    else Next(b, Ingests(id, e, now, Some(hub)))
  }

  /** One step of the two hubs; a move that is not open changes nothing. */
  ghost function Moved(w: World, hub: HubId, m: Move): World
  {
    match m
    case AtA(s) => w.(a := Next(w.a, s))
    case AtB(s) => w.(b := Next(w.b, s))
    case Start => if w.pull.Idle? then w.(pull := At(Cursor(w.b, hub))) else w
    case Fetch(limit) =>
      if w.pull.At? then w.(pull := Reading(w.pull.cursor, w.pull.cursor, PageEnd(w.a.log, w.pull.cursor, limit)))
          else w
    case Handle(now) =>
      if w.pull.Reading? && w.pull.pos < w.pull.end && w.pull.pos < |w.a.log| then
        var x := w.a.log[w.pull.pos];
        World(w.a, HandleOne(w.b, hub, x.id, x.e, now), w.pull.(pos := w.pull.pos + 1), Max(w.high, w.pull.pos + 1))
      else w
    case Save =>
      if !w.pull.Reading? || w.pull.pos < w.pull.end then w
      else if w.pull.end <= w.pull.from then w.(pull := Idle)
      else w.(b := Next(w.b, SetsPeerState(hub, Saved(w.b, hub, w.pull.end))), pull := At(w.pull.end))
    case Stop => w.(pull := Idle)
  }

  /** What each hub does by itself: the origin takes only messages sent to it; the puller takes
      none of its own that is content, bans and lifts whom it will, and leaves the peer's cursor
      to the pull. An id names one envelope: hash says which. */
  predicate Allowed(b: Db, hub: HubId, m: Move, hash: Id -> Envelope)
  {
    match m
    case AtA(s) => s.Ingests? ==> s.origin == None && s.e == hash(s.id)
    case AtB(s) =>
      (match s
       case Ingests(id, e, _, origin) => origin == None && e == hash(id) && !IsContent(e.op)
       case SetsPeerState(h, state) => h == hub ==> state.cursor == Cursor(b, hub)
       case _ => true)
    case _ => true
  }

  const START := World(EMPTY, EMPTY, Idle, 0)

  ghost function Story(hub: HubId, moves: seq<Move>): World
    decreases |moves|
  {
    if moves == [] then START
    else Moved(Story(hub, moves[..|moves| - 1]), hub, moves[|moves| - 1])
  }

  ghost predicate AllAllowed(hub: HubId, moves: seq<Move>, hash: Id -> Envelope)
  {
    forall k :: 0 <= k < |moves| ==> Allowed(Story(hub, moves[..k]).b, hub, moves[k], hash)
  }

  // ---- what every world keeps ----

  /** The origin's numbers: one author's go up along the log, and the high-water is past them. */
  ghost predicate Rising(db: Db)
  {
    && (forall i :: 0 <= i < |db.log| ==>
       db.log[i].e.author in db.t.seqs && db.log[i].e.seqNo <= db.t.seqs[db.log[i].e.author])
    && (forall i, j :: 0 <= i < j < |db.log| && db.log[i].e.author == db.log[j].e.author ==>
       db.log[i].e.seqNo < db.log[j].e.seqNo)
  }

  ghost predicate Origin(a: Db, hash: Id -> Envelope)
  {
    && ReplayLaws.Derived(a) && Rising(a)
    && forall i :: 0 <= i < |a.log| ==> a.log[i].e == hash(a.log[i].id)
  }

  predicate LoggedBefore(log: seq<Msg>, high: nat, id: Id)
  {
    exists i :: 0 <= i < high && i < |log| && log[i].id == id
  }

  /** A message of b's log is its own and no content, or content it pulled from the first high of a's. */
  predicate Sound(alog: seq<Msg>, m: Msg, hub: HubId, high: nat, hash: Id -> Envelope)
  {
    && m.e == hash(m.id)
    && (if IsContent(m.e.op) then LoggedBefore(alog, high, m.id) else m.origin != Some(hub))
  }

  /** No message of a log bans p. */
  predicate NeverBanned(log: seq<Msg>, p: Pid)
  {
    forall i :: 0 <= i < |log| && log[i].e.op.BanSet? ==> log[i].e.op.target != p
  }

  predicate NobodyBanned(log: seq<Msg>)
  {
    forall i :: 0 <= i < |log| ==> !log[i].e.op.BanSet?
  }

  ghost predicate Pulled(a: Db, b: Db, hub: HubId, high: nat, hash: Id -> Envelope)
  {
    && ReplayLaws.Derived(b)
    && (forall j :: 0 <= j < |b.log| ==> Sound(a.log, b.log[j], hub, high, hash))
    && HasAll(a.log, b.log, high)
  }

  /** b's log has all the content of the first high of a's by authors b never banned. */
  ghost predicate HasAll(alog: seq<Msg>, blog: seq<Msg>, high: nat)
  {
    forall i :: 0 <= i < high && i < |alog| && IsContent(alog[i].e.op) && NeverBanned(blog, alog[i].e.pid) ==>
      Logged(blog, alog[i].id)
  }

  /** b shows, of every author it never banned, what the first n messages of a's log say. */
  ghost predicate Shows(b: Db, alog: seq<Msg>, n: nat)
  {
    && n <= |alog| && Replayed(alog[..n]).Ok?
    && forall p: Pid :: NeverBanned(b.log, p) ==> SameOf(b.t, Replayed(alog[..n]).value, p)
  }

  predicate InPlace(w: World, hub: HubId)
  {
    && Cursor(w.b, hub) <= w.high <= |w.a.log|
    && (match w.pull
        case Idle => true
        case At(c) => c <= w.high
        case Reading(from, pos, end) => from <= pos <= end <= |w.a.log| && pos <= w.high)
  }

  ghost predicate Inv(w: World, hub: HubId, hash: Id -> Envelope)
  {
    Origin(w.a, hash) && Pulled(w.a, w.b, hub, w.high, hash) && InPlace(w, hub) && Shows(w.b, w.a.log, w.high)
  }

  // ---- the origin's own steps ----

  lemma OriginKeeps(a: Db, s: Step, hash: Id -> Envelope)
    requires Origin(a, hash)
    requires s.Ingests? ==> s.origin == None && s.e == hash(s.id)
    ensures Origin(Next(a, s), hash) && a.log <= Next(a, s).log
  {
    ReplayLaws.NextKeeps(a, s);
    match s
    case Ingests(id, e, now, origin) =>
      if Ingest(a, id, e, now, origin).Ok? { IngestRises(a, id, e, now); }
    case Rebuilds => ReplayLaws.RebuildKeeps(a);
    case _ =>
  }

  /** What an accepted message leaves of the log, the tables and the cursors. */
  lemma Lands(db: Db, id: Id, e: Envelope, now: int, origin: Option<HubId>)
    requires Ingest(db, id, e, now, origin).Ok?
    ensures var db1 := Ingest(db, id, e, now, origin).value.0;
            && db1.log == db.log + [Msg(id, e, now, origin)]
            && Materialize(db.t, id, e, now, origin.Some?).Ok?
            && db1.t == RaiseSeq(Materialize(db.t, id, e, now, origin.Some?).value, e)
            && db1.peerState == if e.op.PeerRemove? then db.peerState - {e.op.hub} else db.peerState
    ensures !Logged(db.log, id) && (origin.None? ==> e.seqNo > LastSeq(db.t, e.author))
  {
  }

  /** A peer's message lands when its id and its number are new and the tables take it. */
  lemma Taken(db: Db, id: Id, e: Envelope, now: int, hub: HubId)
    requires !Logged(db.log, id) && !SeqTaken(db.log, e.author, e.seqNo, Some(hub))
    requires Materialize(db.t, id, e, now, true).Ok?
    ensures Ingest(db, id, e, now, Some(hub)).Ok?
  {
    ReplayLaws.TouchReplays(db.f, db.t, e);
  }

  lemma IngestRises(a: Db, id: Id, e: Envelope, now: int)
    requires Rising(a) && Ingest(a, id, e, now, None).Ok?
    ensures Rising(Ingest(a, id, e, now, None).value.0)
    ensures Ingest(a, id, e, now, None).value.0.log == a.log + [Msg(id, e, now, None)]
  {
    Lands(a, id, e, now, None);
    SeqsStay(a.t, id, e, now, false);
  }

  lemma GrownPulls(a: Db, a1: Db, b: Db, hub: HubId, high: nat, hash: Id -> Envelope)
    requires Pulled(a, b, hub, high, hash) && high <= |a.log| && a.log <= a1.log
    ensures Pulled(a1, b, hub, high, hash)
  {
    forall j | 0 <= j < |b.log|
      ensures Sound(a1.log, b.log[j], hub, high, hash)
    {
      assert Sound(a.log, b.log[j], hub, high, hash);
      GrownLog(a.log, a1.log, high, b.log[j].id);
    }
    forall i | 0 <= i < high && i < |a1.log| && IsContent(a1.log[i].e.op) && NeverBanned(b.log, a1.log[i].e.pid)
      ensures Logged(b.log, a1.log[i].id)
    {
      assert a1.log[i] == a.log[i];
    }
  }

  lemma AtAKeeps(w: World, hub: HubId, s: Step, hash: Id -> Envelope)
    requires Inv(w, hub, hash) && Allowed(w.b, hub, AtA(s), hash)
    ensures Inv(Moved(w, hub, AtA(s)), hub, hash)
  {
    OriginKeeps(w.a, s, hash);
    var a1 := Next(w.a, s);
    assert a1.log[..w.high] == w.a.log[..w.high];
    GrownPulls(w.a, a1, w.b, hub, w.high, hash);
  }

  lemma GrownLog(log: seq<Msg>, more: seq<Msg>, high: nat, id: Id)
    requires log <= more
    ensures LoggedBefore(log, high, id) ==> LoggedBefore(more, high, id)
  {
    if LoggedBefore(log, high, id) {
      var i :| 0 <= i < high && i < |log| && log[i].id == id;
      assert more[i] == log[i];
    }
  }

  // ---- the puller's own steps ----

  lemma RaisedSame(t: Tables, e: Envelope, p: Pid)
    ensures SameOf(t, RaiseSeq(t, e), p) && RaiseSeq(t, e).bans == t.bans
  {
  }

  /** Whom no message bans is not banned. */
  lemma NotBanned(log: seq<Msg>, p: Pid)
    requires Replayed(log).Ok? && NeverBanned(log, p)
    ensures p !in Replayed(log).value.bans
  {
    if Ledger.Silent(log, Ledger.OfBan(p)) {
      Ledger.SilentIsNone(log, Ledger.OfBan(p));
    } else {
      var i := Ledger.LastSpoken(log, Ledger.OfBan(p));
      Ledger.BanIsLastSet(log, i, p);
    }
  }

  /** A message accepted, by another author or no content, leaves what p shows. */
  lemma IngestLeaves(b: Db, id: Id, e: Envelope, now: int, origin: Option<HubId>, p: Pid)
    requires Ingest(b, id, e, now, origin).Ok? && (e.pid != p || !IsContent(e.op))
    ensures SameOf(b.t, Ingest(b, id, e, now, origin).value.0.t, p)
  {
    Lands(b, id, e, now, origin);
    OthersLeave(b.t, id, e, now, origin.Some?, p);
    var t1 := Materialize(b.t, id, e, now, origin.Some?).value;
    RaisedSame(t1, e, p);
    SameThrough(b.t, t1, RaiseSeq(t1, e), p);
  }

  /** b goes on showing what it showed while its authors' content stays. */
  lemma ShowsOn(b: Db, b1: Db, alog: seq<Msg>, n: nat)
    requires Shows(b, alog, n)
    requires forall p: Pid :: NeverBanned(b1.log, p) ==> NeverBanned(b.log, p) && SameOf(b1.t, b.t, p)
    ensures Shows(b1, alog, n)
  {
    forall p: Pid | NeverBanned(b1.log, p)
      ensures SameOf(b1.t, Replayed(alog[..n]).value, p)
    {
      SameThrough(b1.t, b.t, Replayed(alog[..n]).value, p);
    }
  }

  lemma BannedStays(log: seq<Msg>, m: Msg, p: Pid)
    requires NeverBanned(log + [m], p)
    ensures NeverBanned(log, p)
  {
    assert forall i :: 0 <= i < |log| ==> (log + [m])[i] == log[i];
  }

  lemma {:induction false} ReplayCursor(db: Db, log: seq<Msg>, hub: HubId)
    requires Replay(db, log).Ok?
    ensures Cursor(Replay(db, log).value, hub) in {0, Cursor(db, hub)}
    decreases |log|
  {
    if log != [] {
      ReplayCursor(db, log[..|log| - 1], hub);
    }
  }

  lemma OwnMessage(w: World, hub: HubId, id: Id, e: Envelope, now: int, hash: Id -> Envelope)
    requires Inv(w, hub, hash) && !IsContent(e.op) && e == hash(id) && Ingest(w.b, id, e, now, None).Ok?
    ensures var b1 := Ingest(w.b, id, e, now, None).value.0;
            && Shows(b1, w.a.log, w.high) && Pulled(w.a, b1, hub, w.high, hash)
            && Cursor(b1, hub) in {0, Cursor(w.b, hub)}
  {
    var b1 := Ingest(w.b, id, e, now, None).value.0;
    Lands(w.b, id, e, now, None);
    ReplayLaws.IngestKeeps(w.b, id, e, now, None);
    Appended(w.a.log, w.b.log, Msg(id, e, now, None), hub, w.high, w.high, hash);
    forall p: Pid | NeverBanned(b1.log, p)
      ensures NeverBanned(w.b.log, p) && SameOf(b1.t, w.b.t, p)
    {
      BannedStays(w.b.log, Msg(id, e, now, None), p);
      IngestLeaves(w.b, id, e, now, None, p);
      SameBack(w.b.t, b1.t, p);
    }
    ShowsOn(w.b, b1, w.a.log, w.high);
  }

  lemma AtBKeeps(w: World, hub: HubId, s: Step, hash: Id -> Envelope)
    requires Inv(w, hub, hash) && Allowed(w.b, hub, AtB(s), hash)
    ensures Inv(Moved(w, hub, AtB(s)), hub, hash)
  {
    var b1 := Next(w.b, s);
    ReplayLaws.NextKeeps(w.b, s);
    match s
    case Ingests(id, e, now, origin) =>
      if Ingest(w.b, id, e, now, origin).Ok? {
        OwnMessage(w, hub, id, e, now, hash);
      }
    case Rebuilds =>
      ReplayLaws.RebuildKeeps(w.b);
      ReplayLaws.ReplayReaches(Cleared(w.b), w.b.log);
      ReplayCursor(Cleared(w.b), w.b.log, hub);
    case _ =>
  }

  /** One more message in b's log, when it is sound there. */
  lemma Appended(alog: seq<Msg>, blog: seq<Msg>, m: Msg, hub: HubId, high: nat, high1: nat, hash: Id -> Envelope)
    requires high <= high1 && Sound(alog, m, hub, high1, hash) && HasAll(alog, blog, high)
    requires forall j :: 0 <= j < |blog| ==> Sound(alog, blog[j], hub, high, hash)
    ensures forall j :: 0 <= j < |blog + [m]| ==> Sound(alog, (blog + [m])[j], hub, high1, hash)
    ensures HasAll(alog, blog + [m], high) && Logged(blog + [m], m.id)
  {
    var blog1 := blog + [m];
    forall j | 0 <= j < |blog1|
      ensures Sound(alog, blog1[j], hub, high1, hash)
    {
      if j < |blog| { assert Sound(alog, blog[j], hub, high, hash); }
    }
    forall i | 0 <= i < high && i < |alog| && IsContent(alog[i].e.op) && NeverBanned(blog1, alog[i].e.pid)
      ensures Logged(blog1, alog[i].id)
    {
      BannedStays(blog, m, alog[i].e.pid);
      ReplayLaws.LoggedSnoc(blog, m, alog[i].id);
    }
    ReplayLaws.LoggedSnoc(blog, m, m.id);
  }

  // ---- handling a page ----

  /** A message already handled is a duplicate, or passed over as it was then, its author never banned. */
  lemma HandledBefore(w: World, hub: HubId, hash: Id -> Envelope, i: nat, now: int)
    requires Inv(w, hub, hash) && i < w.high
    requires NeverBanned(w.b.log, w.a.log[i].e.pid) || !IsContent(w.a.log[i].e.op)
    ensures HandleOne(w.b, hub, w.a.log[i].id, w.a.log[i].e, now) == w.b
  {
  }

  /** The next one was never seen here: its id is new, and its author's number is. */
  lemma NextIsNew(w: World, hub: HubId, hash: Id -> Envelope, j: nat)
    requires Inv(w, hub, hash) && w.high < |w.a.log| && IsContent(w.a.log[w.high].e.op) && j < |w.b.log|
    ensures var m, x := w.a.log[w.high], w.b.log[j];
            x.id != m.id && (x.origin == Some(hub) && x.e.author == m.e.author ==> x.e.seqNo < m.e.seqNo)
  {
    var m, x := w.a.log[w.high], w.b.log[j];
    assert Sound(w.a.log, x, hub, w.high, hash);
    if IsContent(x.e.op) {
      var i :| 0 <= i < w.high && i < |w.a.log| && w.a.log[i].id == x.id;
      assert w.a.log[i].e == x.e;
    }
  }

  lemma NeverSeen(w: World, hub: HubId, hash: Id -> Envelope)
    requires Inv(w, hub, hash) && w.high < |w.a.log| && IsContent(w.a.log[w.high].e.op)
    ensures var m := w.a.log[w.high]; !Logged(w.b.log, m.id) && !SeqTaken(w.b.log, m.e.author, m.e.seqNo, Some(hub))
  {
    var m := w.a.log[w.high];
    forall j: nat | j < |w.b.log|
      ensures w.b.log[j].id != m.id
      ensures !(w.b.log[j].e.author == m.e.author && w.b.log[j].e.seqNo == m.e.seqNo && w.b.log[j].origin == Some(hub))
    {
      NextIsNew(w, hub, hash, j);
    }
  }

  /** A message whose id and number are new lands, and b shows its author as the origin's log has it. */
  lemma TakesNew(b: Db, alog: seq<Msg>, n: nat, hub: HubId, now: int)
    requires ReplayLaws.Derived(b) && n < |alog| && Replayed(alog).Ok? && IsContent(alog[n].e.op)
    requires Replayed(alog[..n]).Ok? && SameOf(Replayed(alog[..n]).value, b.t, alog[n].e.pid)
    requires !Logged(b.log, alog[n].id) && !SeqTaken(b.log, alog[n].e.author, alog[n].e.seqNo, Some(hub))
    ensures var m := alog[n];
            && Ingest(b, m.id, m.e, now, Some(hub)).Ok? && Replayed(alog[..n + 1]).Ok?
            && SameOf(Ingest(b, m.id, m.e, now, Some(hub)).value.0.t, Replayed(alog[..n + 1]).value, m.e.pid)
  {
    var m := alog[n];
    ReplayLaws.PrefixSnoc(alog, n);
    var t := Replayed(alog[..n]).value;
    Ledger.AllOfHeld(alog[..n]);
    Ledger.AllOfHeld(b.log);
    SameContent(t, b.t, m.id, m.e, m.received, now);
    Taken(b, m.id, m.e, now, hub);
    Lands(b, m.id, m.e, now, Some(hub));
    SameRaised(Materialize(t, m.id, m.e, m.received, true).value, Materialize(b.t, m.id, m.e, now, true).value, m.e);
  }

  lemma SameRaised(ta: Tables, tb: Tables, e: Envelope)
    requires SameOf(ta, tb, e.pid)
    ensures SameOf(RaiseSeq(tb, e), RaiseSeq(ta, e), e.pid)
  {
    SameBack(ta, tb, e.pid);
    RaisedSame(ta, e, e.pid);
    RaisedSame(tb, e, e.pid);
    SameBack(tb, RaiseSeq(tb, e), e.pid);
    SameThrough(RaiseSeq(tb, e), tb, ta, e.pid);
    SameThrough(RaiseSeq(tb, e), ta, RaiseSeq(ta, e), e.pid);
  }

  /** One more message of the origin's log leaves what another author shows there, and it too when it is no content. */
  lemma LogLeaves(alog: seq<Msg>, n: nat, p: Pid)
    requires Replayed(alog).Ok? && n < |alog| && (alog[n].e.pid != p || !IsContent(alog[n].e.op))
    ensures Replayed(alog[..n]).Ok? && Replayed(alog[..n + 1]).Ok?
    ensures SameOf(Replayed(alog[..n]).value, Replayed(alog[..n + 1]).value, p)
  {
    ReplayLaws.PrefixSnoc(alog, n);
    var t, m := Replayed(alog[..n]).value, alog[n];
    OthersLeave(t, m.id, m.e, m.received, true, p);
    var t1 := Materialize(t, m.id, m.e, m.received, true).value;
    RaisedSame(t1, m.e, p);
    SameThrough(t, t1, RaiseSeq(t1, m.e), p);
  }

  /** What handling a message does to the log: nothing, or the message at its end, content by an author not banned. */
  lemma HandleAdds(b: Db, hub: HubId, id: Id, e: Envelope, now: int)
    requires ReplayLaws.Derived(b)
    ensures var b1 := HandleOne(b, hub, id, e, now);
            && ReplayLaws.Derived(b1) && b1.peerState == b.peerState
            && (b1 == b || (IsContent(e.op) && e.pid !in b.t.bans && Ingest(b, id, e, now, Some(hub)).Ok?
                            && b1 == Ingest(b, id, e, now, Some(hub)).value.0
                            && b1.log == b.log + [Msg(id, e, now, Some(hub))]))
  {
    ReplayLaws.NextKeeps(b, Ingests(id, e, now, Some(hub)));
    if IsContent(e.op) && Ingest(b, id, e, now, Some(hub)).Ok? { Lands(b, id, e, now, Some(hub)); }
  }

  lemma BansUnsaid(log: seq<Msg>, m: Msg, p: Pid)
    requires IsContent(m.e.op)
    ensures NeverBanned(log + [m], p) <==> NeverBanned(log, p)
  {
    if NeverBanned(log + [m], p) { BannedStays(log, m, p); }
  }

  /** Handling leaves what other authors show at b, and whom b never banned. */
  lemma HandleLeaves(b: Db, hub: HubId, id: Id, e: Envelope, now: int, p: Pid)
    requires ReplayLaws.Derived(b)
    ensures var b1 := HandleOne(b, hub, id, e, now);
            (NeverBanned(b1.log, p) <==> NeverBanned(b.log, p)) && (e.pid != p ==> SameOf(b1.t, b.t, p))
  {
    var b1 := HandleOne(b, hub, id, e, now);
    HandleAdds(b, hub, id, e, now);
    if b1 == b {
      UnsaidLeaves(b.t, b.t, p);
    } else {
      BansUnsaid(b.log, Msg(id, e, now, Some(hub)), p);
      if e.pid != p {
        IngestLeaves(b, id, e, now, Some(hub), p);
        SameBack(b.t, b1.t, p);
      }
    }
  }

  /** New content by an author never banned lands. */
  lemma TakesUnbanned(b: Db, alog: seq<Msg>, n: nat, hub: HubId, now: int)
    requires ReplayLaws.Derived(b) && Shows(b, alog, n) && n < |alog| && Replayed(alog).Ok? && IsContent(alog[n].e.op)
    requires NeverBanned(b.log, alog[n].e.pid)
    requires !Logged(b.log, alog[n].id) && !SeqTaken(b.log, alog[n].e.author, alog[n].e.seqNo, Some(hub))
    ensures var m := alog[n];
            var b1 := HandleOne(b, hub, m.id, m.e, now);
            && b1.log == b.log + [Msg(m.id, m.e, now, Some(hub))] && Replayed(alog[..n + 1]).Ok?
            && SameOf(b1.t, Replayed(alog[..n + 1]).value, m.e.pid)
  {
    var m := alog[n];
    NotBanned(b.log, m.e.pid);
    SameBack(b.t, Replayed(alog[..n]).value, m.e.pid);
    TakesNew(b, alog, n, hub, now);
    Lands(b, m.id, m.e, now, Some(hub));
  }

  lemma TakesNext(w: World, hub: HubId, hash: Id -> Envelope, now: int)
    requires Inv(w, hub, hash) && w.high < |w.a.log| && IsContent(w.a.log[w.high].e.op)
    requires NeverBanned(w.b.log, w.a.log[w.high].e.pid)
    ensures var m := w.a.log[w.high];
            var b1 := HandleOne(w.b, hub, m.id, m.e, now);
            && b1.log == w.b.log + [Msg(m.id, m.e, now, Some(hub))] && Replayed(w.a.log[..w.high + 1]).Ok?
            && SameOf(b1.t, Replayed(w.a.log[..w.high + 1]).value, m.e.pid)
  {
    var b, alog, n := w.b, w.a.log, w.high;
    assert ReplayLaws.Derived(b) && Shows(b, alog, n) && Replayed(alog).Ok?;
    NeverSeen(w, hub, hash);
    TakesUnbanned(b, alog, n, hub, now);
  }

  /** Handling the next message, b shows one message more of the log. */
  lemma NextShows(w: World, hub: HubId, hash: Id -> Envelope, now: int)
    requires Inv(w, hub, hash) && w.high < |w.a.log|
    ensures var m := w.a.log[w.high]; Shows(HandleOne(w.b, hub, m.id, m.e, now), w.a.log, w.high + 1)
  {
    var alog, n, m := w.a.log, w.high, w.a.log[w.high];
    var b1 := HandleOne(w.b, hub, m.id, m.e, now);
    ReplayLaws.PrefixSnoc(alog, n);
    forall p: Pid | NeverBanned(b1.log, p)
      ensures SameOf(b1.t, Replayed(alog[..n + 1]).value, p)
    {
      HandleLeaves(w.b, hub, m.id, m.e, now, p);
      if m.e.pid == p && IsContent(m.e.op) {
        TakesNext(w, hub, hash, now);
      } else {
        if m.e.pid == p { UnsaidLeaves(w.b.t, w.b.t, p); }
        OthersShow(w.b, b1, alog, n, p);
      }
    }
  }

  lemma OthersShow(b: Db, b1: Db, alog: seq<Msg>, n: nat, p: Pid)
    requires Replayed(alog).Ok? && n < |alog| && (alog[n].e.pid != p || !IsContent(alog[n].e.op))
    requires Shows(b, alog, n) && NeverBanned(b.log, p) && SameOf(b1.t, b.t, p)
    ensures Replayed(alog[..n + 1]).Ok? && SameOf(b1.t, Replayed(alog[..n + 1]).value, p)
  {
    LogLeaves(alog, n, p);
    SameThrough(b1.t, b.t, Replayed(alog[..n]).value, p);
    SameThrough(b1.t, Replayed(alog[..n]).value, Replayed(alog[..n + 1]).value, p);
  }

  /** Handling a message again, b shows what it showed: a duplicate, or one of an author once banned. */
  lemma AgainShows(w: World, hub: HubId, hash: Id -> Envelope, i: nat, now: int)
    requires Inv(w, hub, hash) && i < w.high
    ensures var m := w.a.log[i]; Shows(HandleOne(w.b, hub, m.id, m.e, now), w.a.log, w.high)
  {
    var m := w.a.log[i];
    var b1 := HandleOne(w.b, hub, m.id, m.e, now);
    forall p: Pid | NeverBanned(b1.log, p)
      ensures NeverBanned(w.b.log, p) && SameOf(b1.t, w.b.t, p)
    {
      HandleLeaves(w.b, hub, m.id, m.e, now, p);
      if m.e.pid == p {
        HandledBefore(w, hub, hash, i, now);
        UnsaidLeaves(w.b.t, w.b.t, p);
      }
    }
    ShowsOn(w.b, b1, w.a.log, w.high);
  }

  /** What b has of a's log once it handled the i-th message. */
  lemma HandlePulls(w: World, hub: HubId, hash: Id -> Envelope, i: nat, now: int)
    requires Inv(w, hub, hash) && i <= w.high && i < |w.a.log|
    ensures var m := w.a.log[i]; Pulled(w.a, HandleOne(w.b, hub, m.id, m.e, now), hub, Max(w.high, i + 1), hash)
  {
    var m, high1 := w.a.log[i], Max(w.high, i + 1);
    var b1 := HandleOne(w.b, hub, m.id, m.e, now);
    HandleAdds(w.b, hub, m.id, m.e, now);
    if b1 != w.b {
      assert LoggedBefore(w.a.log, high1, m.id);
      Appended(w.a.log, w.b.log, Msg(m.id, m.e, now, Some(hub)), hub, w.high, high1, hash);
    } else {
      Higher(w.a.log, w.b.log, hub, w.high, high1, hash);
    }
    forall k | 0 <= k < high1 && k < |w.a.log| && IsContent(w.a.log[k].e.op) && NeverBanned(b1.log, w.a.log[k].e.pid)
      ensures Logged(b1.log, w.a.log[k].id)
    {
      if k == w.high {
        HandleLeaves(w.b, hub, m.id, m.e, now, m.e.pid);
        TakesNext(w, hub, hash, now);
      }
    }
  }

  lemma Higher(alog: seq<Msg>, blog: seq<Msg>, hub: HubId, high: nat, high1: nat, hash: Id -> Envelope)
    requires high <= high1 && forall j :: 0 <= j < |blog| ==> Sound(alog, blog[j], hub, high, hash)
    ensures forall j :: 0 <= j < |blog| ==> Sound(alog, blog[j], hub, high1, hash)
  {
    forall j | 0 <= j < |blog|
      ensures Sound(alog, blog[j], hub, high1, hash)
    {
      assert Sound(alog, blog[j], hub, high, hash);
    }
  }

  /** b once the message in hand is handled shows, and has pulled, what came before it and that. */
  lemma HandledOne(w: World, hub: HubId, now: int, hash: Id -> Envelope)
    requires Inv(w, hub, hash) && w.pull.Reading? && w.pull.pos < w.pull.end
    ensures var m, high1 := w.a.log[w.pull.pos], Max(w.high, w.pull.pos + 1);
            var b1 := HandleOne(w.b, hub, m.id, m.e, now);
            Shows(b1, w.a.log, high1) && Pulled(w.a, b1, hub, high1, hash) && b1.peerState == w.b.peerState
  {
    var m := w.a.log[w.pull.pos];
    HandlePulls(w, hub, hash, w.pull.pos, now);
    HandleAdds(w.b, hub, m.id, m.e, now);
    if w.pull.pos < w.high {
      AgainShows(w, hub, hash, w.pull.pos, now);
    } else {
      NextShows(w, hub, hash, now);
    }
  }

  lemma NextInPlace(w: World, hub: HubId, b1: Db)
    requires InPlace(w, hub) && w.pull.Reading? && w.pull.pos < w.pull.end && b1.peerState == w.b.peerState
    ensures InPlace(World(w.a, b1, w.pull.(pos := w.pull.pos + 1), Max(w.high, w.pull.pos + 1)), hub)
  {
  }

  lemma HandleKeeps(w: World, hub: HubId, now: int, hash: Id -> Envelope)
    requires Inv(w, hub, hash) && w.pull.Reading? && w.pull.pos < w.pull.end
    ensures Inv(Moved(w, hub, Handle(now)), hub, hash)
  {
    var m := w.a.log[w.pull.pos];
    var b1 := HandleOne(w.b, hub, m.id, m.e, now);
    HandledOne(w, hub, now, hash);
    NextInPlace(w, hub, b1);
    assert Moved(w, hub, Handle(now)) == World(w.a, b1, w.pull.(pos := w.pull.pos + 1), Max(w.high, w.pull.pos + 1));
  }

  lemma FetchKeeps(w: World, hub: HubId, limit: nat, hash: Id -> Envelope)
    requires Inv(w, hub, hash)
    ensures Inv(Moved(w, hub, Fetch(limit)), hub, hash)
  {
  }

  lemma CursorSaved(b: Db, hub: HubId, n: nat)
    ensures var b1 := Next(b, SetsPeerState(hub, Saved(b, hub, n)));
            b1.log == b.log && b1.t == b.t && Cursor(b1, hub) == n
  {
  }

  lemma SaveKeeps(w: World, hub: HubId, hash: Id -> Envelope)
    requires Inv(w, hub, hash)
    ensures Inv(Moved(w, hub, Save), hub, hash)
  {
    if w.pull.Reading? && w.pull.pos == w.pull.end && w.pull.end > w.pull.from {
      CursorSaved(w.b, hub, w.pull.end);
    }
  }

  lemma MoveKeeps(w: World, hub: HubId, m: Move, hash: Id -> Envelope)
    requires Inv(w, hub, hash) && Allowed(w.b, hub, m, hash)
    ensures Inv(Moved(w, hub, m), hub, hash)
  {
    match m
    case AtA(s) => AtAKeeps(w, hub, s, hash);
    case AtB(s) => AtBKeeps(w, hub, s, hash);
    case Handle(now) => if w.pull.Reading? && w.pull.pos < w.pull.end { HandleKeeps(w, hub, now, hash); }
    case Fetch(limit) => FetchKeeps(w, hub, limit, hash);
    case Save => SaveKeeps(w, hub, hash);
    case _ =>
  }

  lemma {:induction false} StoryKeeps(hub: HubId, moves: seq<Move>, hash: Id -> Envelope)
    requires AllAllowed(hub, moves, hash)
    ensures Inv(Story(hub, moves), hub, hash)
    decreases |moves|
  {
    if moves != [] {
      var front := moves[..|moves| - 1];
      assert forall k :: 0 <= k < |front| ==> front[..k] == moves[..k];
      StoryKeeps(hub, front, hash);
      MoveKeeps(Story(hub, front), hub, moves[|moves| - 1], hash);
    }
  }

  /** In every reachable world, however the two hubs' steps fall, whom the puller bans and lifts
      and wherever it stopped: of every author it never banned it shows exactly what the origin's
      log says up to the furthest message it handled, which is never behind its cursor. */
  lemma ReplicaShowsOrigin(hub: HubId, moves: seq<Move>, hash: Id -> Envelope)
    requires AllAllowed(hub, moves, hash)
    ensures var w := Story(hub, moves);
            Cursor(w.b, hub) <= w.high <= |w.a.log| && Shows(w.b, w.a.log, w.high)
  {
    StoryKeeps(hub, moves, hash);
  }

  /** A puller that banned nobody and is at the end of the log shows all that the origin does. */
  lemma CaughtUp(w: World, hub: HubId, hash: Id -> Envelope)
    requires Inv(w, hub, hash) && Cursor(w.b, hub) >= |w.a.log|
    ensures forall p: Pid :: NeverBanned(w.b.log, p) ==> SameOf(w.b.t, w.a.t, p)
    ensures NobodyBanned(w.b.log) ==> Content(w.b.t) == Content(w.a.t)
  {
    assert w.a.log[..w.high] == w.a.log;
    if NobodyBanned(w.b.log) {
      forall p: Pid ensures SameOf(w.b.t, w.a.t, p) { assert NeverBanned(w.b.log, p); }
      Ledger.AllOfHeld(w.a.log);
      Ledger.AllOfHeld(w.b.log);
      AllAlike(w.b.t, w.a.t);
    }
  }

  /** A pull that ran dry at the end of the origin's log leaves the two hubs showing the same of
      every author the puller never banned, and altogether the same when it banned none. */
  lemma DrainedReplicaIsEqual(hub: HubId, moves: seq<Move>, hash: Id -> Envelope)
    requires AllAllowed(hub, moves, hash)
    requires Cursor(Story(hub, moves).b, hub) == |Story(hub, moves).a.log|
    ensures var w := Story(hub, moves);
            && (forall p: Pid :: NeverBanned(w.b.log, p) ==> SameOf(w.b.t, w.a.t, p))
            && (NobodyBanned(w.b.log) ==> Content(w.b.t) == Content(w.a.t))
  {
    StoryKeeps(hub, moves, hash);
    CaughtUp(Story(hub, moves), hub, hash);
  }

  // ---- the banned ----

  /** What came from the peer is content, by authors not banned when it came. */
  ghost predicate NoneOfBanned(log: seq<Msg>, hub: HubId)
  {
    forall j :: 0 <= j < |log| && log[j].origin == Some(hub) ==> Admitted(log, j)
  }

  ghost predicate Admitted(log: seq<Msg>, j: nat)
    requires j < |log|
  {
    IsContent(log[j].e.op) && Replayed(log[..j]).Ok? && log[j].e.pid !in Replayed(log[..j]).value.bans
  }

  lemma AdmittedOn(log: seq<Msg>, m: Msg, hub: HubId)
    requires NoneOfBanned(log, hub) && (m.origin == Some(hub) ==> Admitted(log + [m], |log|))
    ensures NoneOfBanned(log + [m], hub)
  {
    forall j: nat | j < |log + [m]| && (log + [m])[j].origin == Some(hub)
      ensures Admitted(log + [m], j)
    {
      if j < |log| { assert (log + [m])[..j] == log[..j] && Admitted(log, j); }
    }
  }

  lemma OwnAdmits(b: Db, s: Step, hub: HubId)
    requires ReplayLaws.Derived(b) && NoneOfBanned(b.log, hub) && (s.Ingests? ==> s.origin != Some(hub))
    ensures ReplayLaws.Derived(Next(b, s)) && NoneOfBanned(Next(b, s).log, hub)
  {
    ReplayLaws.NextKeeps(b, s);
    match s
    case Ingests(id, e, now, origin) =>
      if Ingest(b, id, e, now, origin).Ok? {
        Lands(b, id, e, now, origin);
        AdmittedOn(b.log, Msg(id, e, now, origin), hub);
      }
    case Rebuilds => ReplayLaws.RebuildKeeps(b);
    case _ =>
  }

  lemma HandleAdmits(b: Db, hub: HubId, id: Id, e: Envelope, now: int)
    requires ReplayLaws.Derived(b) && NoneOfBanned(b.log, hub)
    ensures NoneOfBanned(HandleOne(b, hub, id, e, now).log, hub)
  {
    HandleAdds(b, hub, id, e, now);
    var m := Msg(id, e, now, Some(hub));
    assert (b.log + [m])[..|b.log|] == b.log;
    if HandleOne(b, hub, id, e, now) != b { AdmittedOn(b.log, m, hub); }
  }

  /** Local bans apply to what is pulled: in every world, whoever the puller bans and lifts and
      whatever else it takes, no message it has from the peer was by an author banned at the time. */
  lemma {:induction false} NothingOfTheBanned(hub: HubId, moves: seq<Move>)
    requires forall k :: 0 <= k < |moves| && moves[k].AtB? && moves[k].s.Ingests? ==> moves[k].s.origin != Some(hub)
    ensures ReplayLaws.Derived(Story(hub, moves).b) && NoneOfBanned(Story(hub, moves).b.log, hub)
    decreases |moves|
  {
    if moves != [] {
      var w, m := Story(hub, moves[..|moves| - 1]), moves[|moves| - 1];
      NothingOfTheBanned(hub, moves[..|moves| - 1]);
      match m
      case AtB(s) => OwnAdmits(w.b, s, hub);
      case Handle(now) =>
        if w.pull.Reading? && w.pull.pos < w.pull.end && w.pull.pos < |w.a.log| {
          HandleAdds(w.b, hub, w.a.log[w.pull.pos].id, w.a.log[w.pull.pos].e, now);
          HandleAdmits(w.b, hub, w.a.log[w.pull.pos].id, w.a.log[w.pull.pos].e, now);
        }
      case Save =>
        ReplayLaws.NextKeeps(w.b, SetsPeerState(hub, Saved(w.b, hub, if w.pull.Reading? then w.pull.end else 0)));
      case _ =>
    }
  }

  // ---- cursors that were never thrown away ----

  /** The message the puller will handle next. */
  function Position(w: World, hub: HubId): nat
  {
    match w.pull
    case Idle => Cursor(w.b, hub)
    case At(c) => c
    case Reading(_, pos, _) => pos
  }

  /** A move that throws no progress away: it stops no page half way, and leaves the cursor where it is. */
  ghost predicate Unbroken(w: World, hub: HubId, m: Move)
  {
    && (m.Stop? ==> !w.pull.Reading?)
    && (m.AtB? ==> Cursor(Moved(w, hub, m).b, hub) == Cursor(w.b, hub))
  }

  lemma HandleLeavesCursor(b: Db, hub: HubId, id: Id, e: Envelope, now: int)
    ensures Cursor(HandleOne(b, hub, id, e, now), hub) == Cursor(b, hub)
  {
    if IsContent(e.op) && Ingest(b, id, e, now, Some(hub)).Ok? { Lands(b, id, e, now, Some(hub)); }
  }

  ghost predicate OnCourse(w: World, hub: HubId)
  {
    w.high == Position(w, hub) &&
    match w.pull
    case Idle => true
    case At(c) => c == Cursor(w.b, hub)
    case Reading(from, pos, end) => from <= pos <= end && from == Cursor(w.b, hub)
  }

  lemma SaveStaysOnCourse(w: World, hub: HubId)
    requires OnCourse(w, hub)
    ensures OnCourse(Moved(w, hub, Save), hub)
  {
  }

  lemma HandleStaysOnCourse(w: World, hub: HubId, now: int)
    requires OnCourse(w, hub) && (w.pull.Reading? ==> w.pull.end <= |w.a.log|)
    ensures OnCourse(Moved(w, hub, Handle(now)), hub)
  {
    if w.pull.Reading? && w.pull.pos < w.pull.end {
      HandleLeavesCursor(w.b, hub, w.a.log[w.pull.pos].id, w.a.log[w.pull.pos].e, now);
    }
  }

  lemma StaysOnCourse(w: World, hub: HubId, m: Move)
    requires OnCourse(w, hub) && Unbroken(w, hub, m) && InPlace(w, hub)
    ensures OnCourse(Moved(w, hub, m), hub)
  {
    match m
    case Handle(now) => HandleStaysOnCourse(w, hub, now);
    case Save => SaveStaysOnCourse(w, hub);
    case _ =>
  }

  lemma {:induction false} CursorIsAll(hub: HubId, moves: seq<Move>, hash: Id -> Envelope)
    requires AllAllowed(hub, moves, hash)
    requires forall k :: 0 <= k < |moves| ==> Unbroken(Story(hub, moves[..k]), hub, moves[k])
    ensures OnCourse(Story(hub, moves), hub)
    decreases |moves|
  {
    if moves != [] {
      var front := moves[..|moves| - 1];
      assert forall k :: 0 <= k < |front| ==> front[..k] == moves[..k];
      CursorIsAll(hub, front, hash);
      StoryKeeps(hub, front, hash);
      StaysOnCourse(Story(hub, front), hub, moves[|moves| - 1]);
    }
  }

  /** With no page cut short and no cursor lost, a puller between pages shows, of every author it
      never banned, the origin's log up to its saved cursor, no more and no less. */
  lemma CursorIsExact(hub: HubId, moves: seq<Move>, hash: Id -> Envelope)
    requires AllAllowed(hub, moves, hash)
    requires forall k :: 0 <= k < |moves| ==> Unbroken(Story(hub, moves[..k]), hub, moves[k])
    requires !Story(hub, moves).pull.Reading?
    ensures var w := Story(hub, moves); Shows(w.b, w.a.log, Cursor(w.b, hub))
  {
    CursorIsAll(hub, moves, hash);
    StoryKeeps(hub, moves, hash);
  }
}
