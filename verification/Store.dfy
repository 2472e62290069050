/** The store as it runs: its tables updated in place, a transaction at a time. */
module Store {
  import opened Messages
  import opened Derive
  import opened Named
  import opened Hub
  import H = Hub
  import F = Files
  import W = Words
  import R = Revisions

  // ---- loops that stop on the first error ----

  lemma {:induction false} EmbedsStuck(pins: F.Pins, embeds: seq<Embed>, replay: bool, n: nat)
    requires n <= |embeds| && F.BumpEmbeds(pins, embeds[..n], replay).Err?
    ensures F.BumpEmbeds(pins, embeds, replay) == F.BumpEmbeds(pins, embeds[..n], replay)
    decreases |embeds|
  {
    if n == |embeds| {
      assert embeds[..n] == embeds;
    } else {
      assert embeds[..|embeds| - 1][..n] == embeds[..n];
      EmbedsStuck(pins, embeds[..|embeds| - 1], replay, n);
    }
  }

  lemma {:induction false} ReplayStuck(db: Db, log: seq<Msg>, n: nat)
    requires n <= |log| && Replay(db, log[..n]).Err?
    ensures Replay(db, log) == Replay(db, log[..n])
    decreases |log|
  {
    if n == |log| {
      assert log[..n] == log;
    } else {
      assert log[..|log| - 1][..n] == log[..n];
      ReplayStuck(db, log[..|log| - 1], n);
    }
  }

  /** The newest of a set is one post. */
  lemma OneNewest(posts: Posts, s: set<Id>, x: Id)
    requires s <= posts.Keys && IsNewest(posts, s, x)
    ensures Newest(posts, s) == Some(x)
  {
  }

  /** A set that holds the replies to y, and the replies to its own, holds the whole tree below y. */
  lemma {:induction false} ClosedHoldsTree(posts: Posts, y: Id, s: set<Id>, x: Id, n: nat)
    requires forall z ::
               z in posts && posts[z].replyTo.Some? && (posts[z].replyTo.value == y || posts[z].replyTo.value in s)
               ==> z in s
    requires n > 0 && x in posts && Reaches(posts, x, n, y)
    ensures x in s
    decreases n
  {
    if n > 1 {
      var up := posts[x].replyTo.value;
      ClosedHoldsTree(posts, y, s, up, n - 1);
    } else {
      assert Reaches(posts, posts[x].replyTo.value, 0, y);
    }
  }

  lemma ReplyIsBelow(posts: Posts, x: Id, y: Id)
    requires x in posts && posts[x].replyTo.Some? &&
      (posts[x].replyTo.value == y || Below(posts, posts[x].replyTo.value, y))
    ensures Below(posts, x, y)
  {
    var up := posts[x].replyTo.value;
    if up == y {
      assert Reaches(posts, up, 0, y);
      assert Reaches(posts, x, 1, y);
    } else {
      var n: nat :| n > 0 && Reaches(posts, up, n, y);
      assert Reaches(posts, x, n + 1, y);
    }
  }

  // ---- apply, op by op ----

  lemma ProfileApplied(db: Db, id: Id, e: Envelope, received: int, replay: bool)
    requires e.op.ProfileSet?
    ensures var was, avatar := F.OldAvatar(db.t, e.pid), e.op.avatar;
            H.Apply(db, id, e, received, replay) ==
            match F.AvatarError(db.f.pins, was, avatar, replay)
            case Some(x) => Err(x)
            case None => Ok((db.(t := TakeProfile(db.t, e, e.op.name, e.op.bio, avatar, received),
                                 f := db.f.(pins := F.SwapAvatar(db.f.pins, was, avatar).0)),
                             F.SwapAvatar(db.f.pins, was, avatar).1))
  {
  }

  lemma CreateApplied(db: Db, id: Id, e: Envelope, received: int, replay: bool)
    requires e.op.PostCreate?
    ensures var p := Post(e.pid, e.op.text, e.op.replyTo, e.ts, received, received, None);
            H.Apply(db, id, e, received, replay) ==
            match TakeCreate(db.t, id, p, e.op.embeds)
            case Err(x) => Err(x)
            case Ok(t) =>
              match F.BumpEmbeds(db.f.pins, e.op.embeds, replay)
              case Err(x) => Err(x)
              case Ok(ps) => Ok((db.(t := t, f := db.f.(pins := ps)), []))
  {
  }

  lemma DeleteApplied(db: Db, id: Id, e: Envelope, received: int, replay: bool)
    requires e.op.PostDelete?
    ensures var post := e.op.post;
            var dropped := F.DropAll(db.f.pins, [], F.PostCids(db.t, post) + F.SideCids(db.f, post));
            H.Apply(db, id, e, received, replay) ==
            match TakeDelete(db.t, e.pid, post)
            case Err(x) => Err(x)
            case Ok(t) =>
              Ok((db.(t := t, f := F.Files(dropped.0, db.f.cards - {post}, db.f.pictures - {post}),
                      w := W.ForgetPost(db.w, RootOf(db.t.posts, post, WALK_STEPS), post)), dropped.1))
  {
  }

  lemma RestApplied(db: Db, id: Id, e: Envelope, received: int, replay: bool)
    requires !(e.op.ProfileSet? || e.op.PostCreate? || e.op.PostDelete?)
    ensures H.Apply(db, id, e, received, replay) ==
            match Materialize(db.t, id, e, received, replay)
            case Err(x) => Err(x)
            case Ok(t) =>
              Ok((db.(t := t, peerState := if e.op.PeerRemove? then db.peerState - {e.op.hub} else db.peerState), []))
  {
  }

  /** What cards and pictures name does not depend on the pins. */
  lemma SameNames(f: F.Files, g: F.Files)
    requires f.cards == g.cards && f.pictures == g.pictures
    ensures F.NamedByCards(f) == F.NamedByCards(g) && F.NamedByPictures(f) == F.NamedByPictures(g)
    ensures forall c :: F.SideRefs(f, c) == F.SideRefs(g, c)
  {
    assert F.NamedByCards(f) == F.NamedByCards(g);
    assert F.NamedByPictures(f) == F.NamedByPictures(g);
  }

  // ---- pages ----

  /** out is the rows of keys, as they are served. */
  ghost predicate Shares(w: W.Words, keys: seq<(Id, W.Lang)>, out: seq<W.SharedTranslation>)
  {
    |out| == |keys| && forall i :: 0 <= i < |keys| ==>
        keys[i] in w.translations && out[i] == R.ShareTr(keys[i], w.translations[keys[i]])
  }

  lemma PageStep(w: W.Words, after: nat, limit: nat, k: (Id, W.Lang))
    requires R.Numbered(w) && limit > 0 && R.IsNextRow(R.TrRevs(w), after, k)
    ensures R.Page(R.TrRevs(w), after, limit) == [k] + R.Page(R.TrRevs(w), w.translations[k].rev, limit - 1)
  {
    var revs := R.TrRevs(w);
    forall j | R.IsNextRow(revs, after, j) ensures j == k { assert revs[j] == revs[k]; }
  }

  /** One row more of a page under way. */
  lemma PageGrows(w: W.Words, after: nat, limit: nat, keys: seq<(Id, W.Lang)>, out: seq<W.SharedTranslation>,
                  next: nat, left: nat, k: (Id, W.Lang))
    requires R.Numbered(w) && left > 0 && R.IsNextRow(R.TrRevs(w), next, k) && Shares(w, keys, out)
    requires R.Page(R.TrRevs(w), after, limit) == keys + R.Page(R.TrRevs(w), next, left)
    ensures Shares(w, keys + [k], out + [R.ShareTr(k, w.translations[k])])
    ensures R.Page(R.TrRevs(w), after, limit) == keys + [k] + R.Page(R.TrRevs(w), w.translations[k].rev, left - 1)
    ensures R.PageNext(R.TrRevs(w), after, keys + [k]) == w.translations[k].rev
  {
    PageStep(w, next, left, k);
    var rest := R.Page(R.TrRevs(w), w.translations[k].rev, left - 1);
    assert keys + ([k] + rest) == keys + [k] + rest;
  }

  class Store {
    var log: seq<Msg>
    var posts: Posts
    var embeds: map<Id, seq<Embed>>
    var profiles: map<Pid, Profile>
    var marks: map<(Id, nat), Mark>
    var bookmarks: map<(Pid, Id), int>
    var bans: map<Pid, Ban>
    var invites: map<Key, Invite>
    var seqs: map<Key, int>
    var peers: map<HubId, Peer>
    var pins: F.Pins
    var cards: map<Id, F.Card>
    var pictures: map<Id, seq<F.Picture>>
    var words: W.Words
    var peerState: map<HubId, PeerState>

    function LogTables(): Tables
      reads this
    {
      Tables(posts, embeds, profiles, marks, bookmarks, bans, invites, seqs, peers)
    }

    function Files(): F.Files
      reads this
    {
      F.Files(pins, cards, pictures)
    }

    function View(): Db
      reads this
    {
      Db(log, LogTables(), Files(), words, peerState)
    }

    constructor ()
      ensures View() == EMPTY
    {
      log, posts, embeds, profiles, marks, bookmarks := [], map[], map[], map[], map[], map[];
      bans, invites, seqs, peers := map[], map[], map[], map[];
      pins, cards, pictures, words, peerState := map[], map[], map[], W.EMPTY_WORDS, map[];
    }

    method SetTables(t: Tables)
      modifies this`posts, this`embeds, this`profiles, this`marks, this`bookmarks, this`bans, this`invites, this`seqs,
          this`peers
      ensures LogTables() == t
    {
      posts, embeds, profiles, marks, bookmarks := t.posts, t.embeds, t.profiles, t.marks, t.bookmarks;
      bans, invites, seqs, peers := t.bans, t.invites, t.seqs, t.peers;
    }

    /** A transaction rolled back. */
    method Rollback(before: Db)
      modifies this
      ensures View() == before
    {
      SetTables(before.t);
      pins, cards, pictures := before.f.pins, before.f.cards, before.f.pictures;
      log, words, peerState := before.log, before.w, before.peerState;
    }

    // ---- pins ----

    method DropRef(c: Cid, unpin: seq<Cid>) returns (out: seq<Cid>)
      modifies this`pins
      ensures (pins, out) == F.DropRef(old(pins), unpin, c)
    {
      out := unpin;
      if c in pins {
        pins := pins[c := pins[c].(refs := pins[c].refs - 1)];
        if pins[c].refs <= 0 {
          assert pins - {c} == old(pins) - {c};
          pins := pins - {c};
          out := out + [c];
        }
      }
    }

    method DropRefs(cids: seq<Cid>, unpin: seq<Cid>) returns (out: seq<Cid>)
      modifies this`pins
      ensures (pins, out) == F.DropAll(old(pins), unpin, cids)
    {
      out := unpin;
      for i := 0 to |cids|
        invariant (pins, out) == F.DropAll(old(pins), unpin, cids[..i])
      {
        assert cids[..i + 1][..i] == cids[..i];
        out := DropRef(cids[i], out);
      }
      assert cids[..|cids|] == cids;
    }

    /** UPDATE pins SET refs=refs+1: whether a row was there. */
    method Bump(c: Cid) returns (found: bool)
      modifies this`pins
      ensures found == (c in old(pins)) && pins == F.Bump(old(pins), c)
    {
      found := c in pins;
      if found { pins := pins[c := pins[c].(refs := pins[c].refs + 1)]; }
    }

    method CountEmbed(em: Embed, replay: bool) returns (r: Option<Error>)
      modifies this`pins
      ensures match F.BumpEmbed(old(pins), em, replay) case Ok(p) => r == None && pins == p case Err(x) => r == Some(x)
    {
      ghost var was := pins;
      var found := Bump(em.cid);
      if !found && !replay { return Some(NoPin); }
      ghost var one := pins;
      if em.poster.Some? {
        found := Bump(em.poster.value);
        if !found && !replay { return Some(NoPin); }
      }
      if !replay && pins[em.cid].media.Some? && !F.FactsAgree(em, pins[em.cid].media.value) {
        return Some(Error.Facts);
      }
      Counted(was, em);
      return None;
    }

    lemma Counted(pins: F.Pins, em: Embed)
      ensures F.BumpAll(pins, [em.cid] + OptSeq(em.poster)) ==
              if em.poster.Some? then F.Bump(F.Bump(pins, em.cid), em.poster.value) else F.Bump(pins, em.cid)
    {
      var cids := [em.cid] + OptSeq(em.poster);
      assert F.BumpAll(pins, []) == pins;
      assert [em.cid][..0] == [];
      assert F.BumpAll(pins, [em.cid]) == F.Bump(pins, em.cid);
      if em.poster.Some? {
        assert cids[..1] == [em.cid];
      } else {
        assert cids == [em.cid];
      }
    }

    method CountEmbeds(ems: seq<Embed>, replay: bool) returns (r: Option<Error>)
      modifies this`pins
      ensures match F.BumpEmbeds(old(pins), ems, replay)
              case Ok(p) => r == None && pins == p
              case Err(x) => r == Some(x)
    {
      for i := 0 to |ems|
        invariant F.BumpEmbeds(old(pins), ems[..i], replay) == Ok(pins)
      {
        assert ems[..i + 1][..i] == ems[..i];
        r := CountEmbed(ems[i], replay);
        if r.Some? {
          EmbedsStuck(old(pins), ems, replay, i + 1);
          return;
        }
      }
      assert ems[..|ems|] == ems;
      r := None;
    }

    // ---- threads ----

    /** A reply's bump: walk up from the parent, at most forty lookups, and touch where it ends. */
    method BumpThread(up: Id, id: Id, received: int)
      modifies this`posts
      ensures posts == match Walk(old(posts), up, WALK_STEPS)
                       case None => old(posts)
                       case Some(root) => BumpRoot(old(posts), root, id, received)
    {
      var root := up;
      var i := 0;
      while i < WALK_STEPS
        invariant 0 <= i <= WALK_STEPS && posts == old(posts)
        invariant Walk(posts, up, WALK_STEPS) == Walk(posts, root, WALK_STEPS - i)
      {
        if root !in posts { return; }
        if posts[root].replyTo.None? { break; }
        root := posts[root].replyTo.value;
        i := i + 1;
      }
      if root in posts {
        posts := posts[root := posts[root].(activity := received, lastReply := Some(id))];
      }
    }

    /** The root of the thread x stands in, looked for up to forty levels above it. */
    method FindRoot(x: Id) returns (root: Option<Id>)
      ensures root == RootOf(posts, x, WALK_STEPS)
    {
      var at, left := x, WALK_STEPS;
      while at in posts && posts[at].replyTo.Some? && left > 0
        invariant RootOf(posts, x, WALK_STEPS) == RootOf(posts, at, left)
        decreases left
      {
        at, left := posts[at].replyTo.value, left - 1;
      }
      root := if at in posts && posts[at].replyTo.None? then Some(at) else None;
    }

    method SelectHolder(x: Id) returns (r: Option<Id>)
      ensures r == Holder(posts, x)
    {
      r := None;
      var rest := posts.Keys;
      while rest != {}
        invariant rest <= posts.Keys
        invariant r.Some? ==> Holds(posts, x, r.value)
        invariant forall y: Id :: Holds(posts, x, y) && y !in rest ==> r.Some? && r.value <= y
        decreases rest
      {
        var y :| y in rest;
        if posts[y].lastReply == Some(x) && (r.None? || y < r.value) { r := Some(y); }
        rest := rest - {y};
      }
    }

    /** Everything below y, level by level. */
    method SelectTree(y: Id) returns (s: set<Id>)
      ensures s == Tree(posts, y)
    {
      s := {};
      var more := set x | x in posts && posts[x].replyTo == Some(y);
      forall x | x in more ensures Below(posts, x, y) { ReplyIsBelow(posts, x, y); }
      while more != {}
        invariant s <= posts.Keys && more <= posts.Keys - s
        invariant forall x :: x in s + more ==> Below(posts, x, y)
        invariant forall x :: x in posts && posts[x].replyTo.Some? && (posts[x].replyTo.value in {y} + s) ==>
          x in s + more
        decreases posts.Keys - s
      {
        var next := set x | x in posts && x !in s + more && posts[x].replyTo.Some? && posts[x].replyTo.value in more;
        forall x | x in next ensures Below(posts, x, y) { ReplyIsBelow(posts, x, y); }
        s := s + more;
        more := next;
      }
      forall x | Below(posts, x, y) ensures x in s {
        var n: nat :| n > 0 && Reaches(posts, x, n, y);
        ClosedHoldsTree(posts, y, s, x, n);
      }
    }

    method SelectNewest(s: set<Id>) returns (r: Option<Id>)
      requires s <= posts.Keys
      ensures r == Newest(posts, s)
    {
      r := None;
      var rest := s;
      while rest != {}
        invariant rest <= s
        invariant r.None? ==> rest == s
        invariant r.Some? ==> IsNewest(posts, s - rest, r.value)
        decreases rest
      {
        var y :| y in rest;
        assert s - (rest - {y}) == (s - rest) + {y};
        if r.None? || Newer(posts, y, r.value) { r := Some(y); }
        rest := rest - {y};
      }
      assert s - rest == s;
      if r.Some? { OneNewest(posts, s, r.value); }
    }

    /** After a delete the thread it was the newest reply of points back. */
    method PointBackFrom(root: Id)
      modifies this`posts
      ensures posts == PointBack(old(posts), root)
    {
      if root !in posts { return; }
      var tree := SelectTree(root);
      var newest := SelectNewest(tree);
      if newest.None? {
        posts := posts[root := posts[root].(lastReply := None, activity := posts[root].received)];
      } else {
        posts := posts[root := posts[root].(lastReply := newest, activity := posts[newest.value].received)];
      }
    }

    // ---- apply, one op at a time ----

    method CountAvatar(avatar: Option<Cid>, was: Option<Cid>, replay: bool) returns (r: Option<Error>)
      modifies this`pins
      ensures r == F.AvatarError(old(pins), was, avatar, replay)
      ensures r.None? ==> pins == if avatar != was then F.BumpAll(old(pins), OptSeq(avatar)) else old(pins)
    {
      if avatar.Some? && avatar != was {
        if !replay && avatar.value !in pins { return Some(NoPin); }
        if !replay && !pins[avatar.value].isAvatar { return Some(NotAvatar); }
        F.BumpOne(pins, avatar.value);
        var _ := Bump(avatar.value);
      }
      r := None;
    }

    method PutProfile(e: Envelope, name: string, bio: string, avatar: Option<Cid>, received: int)
      modifies this`profiles
      ensures LogTables() == TakeProfile(old(LogTables()), e, name, bio, avatar, received)
    {
      if e.pid in profiles {
        profiles := profiles[e.pid :=
            profiles[e.pid].(name := name, bio := bio, avatar := avatar, updated := received)];
      } else {
        profiles := profiles[e.pid := Profile(e.author, name, bio, avatar, received, received)];
      }
    }

    method ApplyProfile(e: Envelope, name: string, bio: string, avatar: Option<Cid>, received: int, replay: bool)
      returns (r: Result<seq<Cid>>)
      modifies this`profiles, this`pins
      ensures var was := F.OldAvatar(old(LogTables()), e.pid);
              match F.AvatarError(old(pins), was, avatar, replay)
              case Some(x) => r == Err(x)
              case None =>
                && r.Ok? && (pins, r.value) == F.SwapAvatar(old(pins), was, avatar)
                && LogTables() == TakeProfile(old(LogTables()), e, name, bio, avatar, received)
    {
      var was := F.OldAvatar(LogTables(), e.pid);
      var x := CountAvatar(avatar, was, replay);
      if x.Some? { return Err(x.value); }
      PutProfile(e, name, bio, avatar, received);
      var unpin := [];
      if was.Some? && was != avatar {
        F.DropOne(pins, [], was.value);
        unpin := DropRef(was.value, []);
      }
      r := Ok(unpin);
    }

    method ApplyCreate(id: Id, e: Envelope, received: int, replay: bool) returns (r: Option<Error>)
      requires e.op.PostCreate?
      modifies this`posts, this`embeds, this`pins
      ensures var p := Post(e.pid, e.op.text, e.op.replyTo, e.ts, received, received, None);
              match TakeCreate(old(LogTables()), id, p, e.op.embeds)
              case Err(x) => r == Some(x)
              case Ok(t) =>
                match F.BumpEmbeds(old(pins), e.op.embeds, replay)
                case Err(x) => r == Some(x)
                case Ok(ps) => r == None && LogTables() == t && pins == ps
    {
      if id in posts || id in embeds { return Some(Constraint); }
      posts := posts[id := Post(e.pid, e.op.text, e.op.replyTo, e.ts, received, received, None)];
      if e.op.replyTo.Some? { BumpThread(e.op.replyTo.value, id, received); }
      r := CountEmbeds(e.op.embeds, replay);
      if r.None? { embeds := embeds[id := e.op.embeds]; }
    }

    method EmbedFiles(post: Id) returns (cids: seq<Cid>)
      ensures cids == F.EmbedCidsOf(embeds, post)
    {
      cids := [];
      if post in embeds {
        var rows := embeds[post];
        for i := 0 to |rows|
          invariant cids == F.EmbedCids(rows[..i])
        {
          assert rows[..i + 1][..i] == rows[..i];
          cids := cids + [rows[i].cid];
          if rows[i].poster.Some? { cids := cids + [rows[i].poster.value]; }
        }
        assert rows[..|rows|] == rows;
      }
    }

    method PictureFiles(post: Id) returns (cids: seq<Cid>)
      ensures cids == F.PostPictureCids(pictures, post)
    {
      cids := [];
      if post in pictures {
        var rows := pictures[post];
        for i := 0 to |rows|
          invariant cids == F.PictureCids(rows[..i])
        {
          assert rows[..i + 1][..i] == rows[..i];
          if rows[i].cid.Some? { cids := cids + [rows[i].cid.value]; }
        }
        assert rows[..|rows|] == rows;
      }
    }

    method ReleaseCard(post: Id, unpin: seq<Cid>) returns (out: seq<Cid>)
      modifies this`pins, this`cards
      ensures (pins, out) == F.DropAll(old(pins), unpin, F.CardCids(old(cards), post)) && cards == old(cards) - {post}
    {
      out := unpin;
      if post in cards && cards[post].image.Some? {
        F.DropOne(pins, unpin, cards[post].image.value);
        out := DropRef(cards[post].image.value, unpin);
      }
      cards := cards - {post};
    }

    method ReleasePictures(post: Id, unpin: seq<Cid>) returns (out: seq<Cid>)
      modifies this`pins, this`pictures
      ensures (pins, out) == F.DropAll(old(pins), unpin, F.PostPictureCids(old(pictures), post))
      ensures pictures == old(pictures) - {post}
    {
      var cids := PictureFiles(post);
      out := DropRefs(cids, unpin);
      pictures := pictures - {post};
    }

    /** A deleted post's files released: its embeds', its card's, its pictures'. */
    method ReleaseFiles(post: Id) returns (unpin: seq<Cid>)
      modifies this`pins, this`cards, this`pictures
      ensures var side := F.CardCids(old(cards), post) + F.PostPictureCids(old(pictures), post);
              var cids := F.EmbedCidsOf(embeds, post) + side;
              (pins, unpin) == F.DropAll(old(pins), [], cids)
      ensures cards == old(cards) - {post} && pictures == old(pictures) - {post}
    {
      var cids := EmbedFiles(post);
      F.DropInTurn(pins, cids, F.CardCids(cards, post), F.PostPictureCids(pictures, post));
      unpin := DropRefs(cids, []);
      unpin := ReleaseCard(post, unpin);
      unpin := ReleasePictures(post, unpin);
    }

    method DeleteRow(post: Id)
      modifies this`posts
      ensures posts == DeletePost(old(posts), post)
    {
      var holder := SelectHolder(post);
      posts := posts - {post};
      if holder.Some? { PointBackFrom(holder.value); }
    }

    method ForgetRows(post: Id)
      modifies this`embeds, this`marks, this`bookmarks, this`words
      ensures embeds == old(embeds) - {post} && marks == MarksWithout(old(marks), post)
      ensures bookmarks == BookmarksWithout(old(bookmarks), post)
      ensures words == W.ForgetPost(old(words), RootOf(posts, post, WALK_STEPS), post)
    {
      embeds := embeds - {post};
      marks := MarksWithout(marks, post);
      bookmarks := BookmarksWithout(bookmarks, post);
      var root := FindRoot(post);
      words := W.ForgetPost(words, root, post);
    }

    method ApplyDelete(pid: Pid, post: Id) returns (r: Result<seq<Cid>>)
      modifies this`posts, this`embeds, this`marks, this`bookmarks, this`pins, this`cards, this`pictures, this`words
      ensures match TakeDelete(old(LogTables()), pid, post)
              case Err(x) => r == Err(x)
              case Ok(t) =>
                && r.Ok? && posts == t.posts && embeds == t.embeds && marks == t.marks && bookmarks == t.bookmarks
                && (pins, r.value) == F.DropAll(old(pins), [], F.EmbedCidsOf(old(embeds), post) +
                                                 (F.CardCids(old(cards), post) +
                                                     F.PostPictureCids(old(pictures), post)))
                && cards == old(cards) - {post} && pictures == old(pictures) - {post}
                && words == W.ForgetPost(old(words), RootOf(old(posts), post, WALK_STEPS), post)
    {
      if post !in posts { return Err(NotFound); }
      if posts[post].author != pid { return Err(NotOwner); }
      var unpin := ReleaseFiles(post);
      ForgetRows(post);
      DeleteRow(post);
      r := Ok(unpin);
    }

    method ApplyMark(pid: Pid, post: Id, box: nat, m: Mark) returns (r: Option<Error>)
      modifies this`marks
      ensures match TakeMark(old(LogTables()), pid, post, box, m)
              case Err(x) => r == Some(x)
              case Ok(t) => r == None && marks == t.marks
    {
      if post !in posts { return Some(NotFound); }
      if posts[post].author != pid { return Some(NotOwner); }
      if (post, box) !in marks || m.ts > marks[(post, box)].ts ||
          (m.ts == marks[(post, box)].ts && m.id > marks[(post, box)].id) {
        marks := marks[(post, box) := m];
      }
      r := None;
    }

    method ApplyBookmark(pid: Pid, post: Id, on: bool, received: int, replay: bool) returns (r: Option<Error>)
      modifies this`bookmarks
      ensures match TakeBookmark(old(LogTables()), pid, post, on, received, replay)
              case Err(x) => r == Some(x)
              case Ok(t) => r == None && bookmarks == t.bookmarks
    {
      if !on {
        bookmarks := bookmarks - {(pid, post)};
      } else if post in posts {
        bookmarks := bookmarks[(pid, post) := received];
      } else if !replay {
        return Some(NotFound);
      }
      r := None;
    }

    method ApplyPolicy(e: Envelope, received: int)
      modifies this`bans, this`invites, this`peers, this`peerState
      ensures var t := TakePolicy(old(LogTables()), e, received);
              bans == t.bans && invites == t.invites && peers == t.peers
      ensures peerState == if e.op.PeerRemove? then old(peerState) - {e.op.hub} else old(peerState)
    {
      match e.op
      case BanSet(target, reason) => bans := bans[target := Ban(reason, e.pid, received)];
      case BanLift(target) => bans := bans - {target};
      case InviteSet(key, profile, note) =>
        if key in invites {
          invites := invites[key := invites[key].(note := note, admin := e.pid, ts := received)];
        } else {
          invites := invites[key := Invite(profile, note, e.pid, received)];
        }
      case InviteLift(key) => invites := invites - {key};
      case PeerAdd(hub, addr) => peers := peers[hub := Peer(addr, e.pid, received)];
      case PeerRemove(hub) =>
        peers := peers - {hub};
        peerState := peerState - {hub};
      case _ =>
    }

    /** The store stands as db says, table by table. */
    ghost predicate Is(db: Db)
      reads this
    {
      && log == db.log && posts == db.t.posts && embeds == db.t.embeds && profiles == db.t.profiles
      && marks == db.t.marks && bookmarks == db.t.bookmarks && bans == db.t.bans && invites == db.t.invites
      && seqs == db.t.seqs && peers == db.t.peers
      && pins == db.f.pins && cards == db.f.cards && pictures == db.f.pictures
      && words == db.w && peerState == db.peerState
    }

    lemma IsView(db: Db)
      requires Is(db)
      ensures View() == db
    {
    }

    method TakesProfile(id: Id, e: Envelope, received: int, replay: bool) returns (r: Result<seq<Cid>>)
      requires e.op.ProfileSet?
      modifies this
      ensures match H.Apply(old(View()), id, e, received, replay)
              case Err(x) => r == Err(x)
              case Ok((db, unpin)) => r == Ok(unpin) && Is(db)
    {
      ProfileApplied(View(), id, e, received, replay);
      r := ApplyProfile(e, e.op.name, e.op.bio, e.op.avatar, received, replay);
    }

    method TakesCreate(id: Id, e: Envelope, received: int, replay: bool) returns (r: Result<seq<Cid>>)
      requires e.op.PostCreate?
      modifies this
      ensures match H.Apply(old(View()), id, e, received, replay)
              case Err(x) => r == Err(x)
              case Ok((db, unpin)) => r == Ok(unpin) && Is(db)
    {
      CreateApplied(View(), id, e, received, replay);
      var x := ApplyCreate(id, e, received, replay);
      r := if x.Some? then Err(x.value) else Ok([]);
    }

    method TakesDelete(id: Id, e: Envelope, received: int, replay: bool) returns (r: Result<seq<Cid>>)
      requires e.op.PostDelete?
      modifies this
      ensures match H.Apply(old(View()), id, e, received, replay)
              case Err(x) => r == Err(x)
              case Ok((db, unpin)) => r == Ok(unpin) && Is(db)
    {
      DeleteApplied(View(), id, e, received, replay);
      r := ApplyDelete(e.pid, e.op.post);
    }

    method TakesMark(id: Id, e: Envelope, received: int, replay: bool) returns (r: Result<seq<Cid>>)
      requires e.op.PostMark?
      modifies this
      ensures match H.Apply(old(View()), id, e, received, replay)
              case Err(x) => r == Err(x)
              case Ok((db, unpin)) => r == Ok(unpin) && Is(db)
    {
      RestApplied(View(), id, e, received, replay);
      var x := ApplyMark(e.pid, e.op.post, e.op.box, Mark(e.op.done, e.ts, id));
      r := if x.Some? then Err(x.value) else Ok([]);
    }

    method TakesBookmark(id: Id, e: Envelope, received: int, replay: bool) returns (r: Result<seq<Cid>>)
      requires e.op.PostBookmark?
      modifies this
      ensures match H.Apply(old(View()), id, e, received, replay)
              case Err(x) => r == Err(x)
              case Ok((db, unpin)) => r == Ok(unpin) && Is(db)
    {
      RestApplied(View(), id, e, received, replay);
      var x := ApplyBookmark(e.pid, e.op.post, e.op.on, received, replay);
      r := if x.Some? then Err(x.value) else Ok([]);
    }

    method TakesPolicy(id: Id, e: Envelope, received: int, replay: bool) returns (r: Result<seq<Cid>>)
      requires e.op.BanSet? || e.op.BanLift? || e.op.InviteSet? || e.op.InviteLift? || e.op.PeerAdd? || e.op.PeerRemove?
      modifies this
      ensures match H.Apply(old(View()), id, e, received, replay)
              case Err(x) => r == Err(x)
              case Ok((db, unpin)) => r == Ok(unpin) && Is(db)
    {
      RestApplied(View(), id, e, received, replay);
      ApplyPolicy(e, received);
      r := Ok([]);
    }

    method Apply(id: Id, e: Envelope, received: int, replay: bool) returns (r: Result<seq<Cid>>)
      modifies this
      ensures match H.Apply(old(View()), id, e, received, replay)
              case Err(x) => r == Err(x)
              case Ok((db, unpin)) => r == Ok(unpin) && Is(db)
    {
      match e.op
      case ProfileSet(_, _, _) => r := TakesProfile(id, e, received, replay);
      case PostCreate(_, _, _) => r := TakesCreate(id, e, received, replay);
      case PostDelete(_) => r := TakesDelete(id, e, received, replay);
      case PostMark(_, _, _) => r := TakesMark(id, e, received, replay);
      case PostBookmark(_, _) => r := TakesBookmark(id, e, received, replay);
      case _ => r := TakesPolicy(id, e, received, replay);
    }

    // ---- ingest ----

    /** INSERT INTO seqs … MAX(seq, excluded.seq). */
    method BumpSeq(e: Envelope)
      modifies this`seqs
      ensures seqs == RaiseSeq(old(LogTables()), e).seqs
    {
      if e.author !in seqs || seqs[e.author] < e.seqNo { seqs := seqs[e.author := e.seqNo]; }
    }

    /** One verified message, all of it or nothing. */
    method Ingest(id: Id, e: Envelope, now: int, origin: Option<HubId>) returns (r: Result<seq<Cid>>)
      modifies this
      ensures match H.Ingest(old(View()), id, e, now, origin)
              case Err(x) => r == Err(x) && View() == old(View())
              case Ok((db, unpin)) => r == Ok(unpin) && Is(db)
    {
      var before := View();
      if Logged(log, id) { return Err(Duplicate); }
      if origin.None? && e.seqNo <= (if e.author in seqs then seqs[e.author] else 0) { return Err(StaleSeq); }
      r := Apply(id, e, now, origin.Some?);
      if r.Err? {
        Rollback(before);
        return;
      }
      if SeqTaken(log, e.author, e.seqNo, origin) {
        Rollback(before);
        return Err(Constraint);
      }
      log := log + [Msg(id, e, now, origin)];
      BumpSeq(e);
    }

    // ---- Rebuild ----

    method CountCards(c: Cid) returns (n: nat)
      ensures n == All(F.NamedByCards(Files()), c)
    {
      ghost var named := F.NamedByCards(Files());
      n := 0;
      var rest := cards.Keys;
      ghost var left := named;
      assert left.Keys == rest;
      while rest != {}
        invariant rest <= cards.Keys && left.Keys == rest && (forall p :: p in rest ==> left[p] == named[p])
        invariant n + All(left, c) == All(named, c)
        decreases rest
      {
        var p :| p in rest;
        AllSplit(left, p, c);
        if cards[p].image == Some(c) { n := n + 1; }
        assert Count(left[p], c) == if cards[p].image == Some(c) then 1 else 0;
        rest := rest - {p};
        left := left - {p};
      }
      assert left == map[];
    }

    method CountPictures(c: Cid) returns (n: nat)
      ensures n == All(F.NamedByPictures(Files()), c)
    {
      ghost var named := F.NamedByPictures(Files());
      n := 0;
      var rest := pictures.Keys;
      ghost var left := named;
      assert left.Keys == rest;
      while rest != {}
        invariant rest <= pictures.Keys && left.Keys == rest && (forall p :: p in rest ==> left[p] == named[p])
        invariant n + All(left, c) == All(named, c)
        decreases rest
      {
        var p :| p in rest;
        AllSplit(left, p, c);
        var cids := PictureFiles(p);
        n := n + Count(cids, c);
        rest := rest - {p};
        left := left - {p};
      }
      assert left == map[];
    }

    /** The references of the cards and pictures that stay, put back on the pins. */
    method AddSideRefs(ghost side: F.Files)
      requires side.cards == cards && side.pictures == pictures
      modifies this`pins
      ensures pins == Recounted(old(pins), side)
    {
      ghost var was := pins;
      var rest := pins.Keys;
      while rest != {}
        invariant rest <= pins.Keys && pins.Keys == was.Keys
        invariant forall c :: c in rest ==> pins[c] == was[c]
        invariant forall c :: c in pins && c !in rest ==> pins[c] == was[c].(refs := was[c].refs + F.SideRefs(side, c))
        decreases rest
      {
        var c :| c in rest;
        var byCards := CountCards(c);
        var byPictures := CountPictures(c);
        SameNames(side, Files());
        pins := pins[c := pins[c].(refs := pins[c].refs + byCards + byPictures)];
        rest := rest - {c};
      }
    }

    /** The log replayed over emptied tables, then what outlived it put right; all of it or nothing. */
    method Rebuild() returns (r: Option<Error>)
      modifies this
      ensures match H.Rebuild(old(View()))
              case Err(x) => r == Some(x) && View() == old(View())
              case Ok(db) => r == None && Is(db)
    {
      var before := View();
      ClearTables();
      r := ReplayLog(before);
      if r.Some? {
        Rollback(before);
        return;
      }
      SettleRest();
    }

    method ClearTables()
      modifies this
      ensures Is(Cleared(old(View())))
    {
      SetTables(EMPTY_TABLES);
      pins := map c | c in pins :: pins[c].(refs := 0);
    }

    /** One logged message applied again, its author's last number with it. */
    method ReplayOne(m: Msg) returns (r: Option<Error>)
      modifies this
      ensures match H.Apply(old(View()), m.id, m.e, m.received, true)
              case Err(x) => r == Some(x)
              case Ok((db, _)) => r == None && Is(db.(t := RaiseSeq(db.t, m.e)))
    {
      var x := Apply(m.id, m.e, m.received, true);
      if x.Err? { return Some(x.error); }
      BumpSeq(m.e);
      r := None;
    }

    method ReplayLog(before: Db) returns (r: Option<Error>)
      requires Is(Cleared(before))
      modifies this
      ensures match Replay(Cleared(before), before.log)
              case Err(x) => r == Some(x)
              case Ok(db) => r == None && Is(db)
    {
      var msgs := log;
      for i := 0 to |msgs|
        invariant Replay(Cleared(before), msgs[..i]).Ok? && Is(Replay(Cleared(before), msgs[..i]).value)
      {
        assert msgs[..i + 1][..i] == msgs[..i];
        IsView(Replay(Cleared(before), msgs[..i]).value);
        r := ReplayOne(msgs[i]);
        if r.Some? {
          ReplayStuck(Cleared(before), msgs, i + 1);
          return;
        }
      }
      assert msgs[..|msgs|] == msgs;
      r := None;
    }

    method SettleRest()
      modifies this`cards, this`pictures, this`pins, this`words
      ensures var db := Settle(old(View()));
              pins == db.f.pins && cards == db.f.cards && pictures == db.f.pictures && words == db.w
    {
      cards := HeldCards(cards, posts.Keys);
      pictures := HeldPictures(pictures, posts.Keys);
      SameNames(F.Files(map[], cards, pictures), Files());
      AddSideRefs(F.Files(map[], cards, pictures));
      words := W.ForgetOrphans(words, posts.Keys);
    }

    /** How far into a peer's log this hub has read. */
    method SetPeerCursor(hub: HubId, cursor: nat)
      modifies this`peerState
      ensures peerState == old(peerState)[hub := if hub in old(peerState) then old(peerState)[hub].(cursor := cursor)
        else PeerState(cursor, 0, 0)]
    {
      peerState := peerState[hub := if hub in peerState then peerState[hub].(cursor := cursor)
          else PeerState(cursor, 0, 0)];
    }

    // ---- cards, pictures and uploads ----

    /** A landed file's pin: a new row starts at one reference. */
    method KeepPin(c: Cid, size: int, mime: string, now: int)
      modifies this`pins
      ensures pins == F.Keep(old(pins), c, size, mime, now)
    {
      var found := Bump(c);
      if !found { pins := pins[c := F.Pin(size, mime, 1, false, now, None)]; }
    }

    /** What a row held released, and what it holds now pinned. */
    method SwapFile(was: Option<Cid>, got: Option<Cid>, size: int, mime: string, now: int) returns (unpin: seq<Cid>)
      modifies this`pins
      ensures (pins, unpin) == F.Swap(old(pins), was, got, size, mime, now)
    {
      unpin := [];
      if was.Some? && was != got {
        F.DropOne(pins, [], was.value);
        unpin := DropRef(was.value, []);
      }
      if got.Some? && got != was { KeepPin(got.value, size, mime, now); }
    }

    method SetCard(post: Id, card: F.CardRow, ok: bool, size: int, mime: string, now: int) returns (unpin: seq<Cid>)
      modifies this`pins, this`cards
      ensures (Files(), unpin) == F.SetCard(old(Files()), post, card, ok, size, mime, now)
    {
      var was := if post in cards then cards[post].image else None;
      var row := F.StoredCard(card, ok, now);
      unpin := SwapFile(was, row.image, size, mime, now);
      cards := cards[post := row];
    }

    method SetPicture(post: Id, row: F.PictureRow, ok: bool, size: int, now: int) returns (unpin: seq<Cid>)
      modifies this`pins, this`pictures
      ensures (Files(), unpin) == F.SetPicture(old(Files()), post, row, ok, size, now)
    {
      var rows := if post in pictures then pictures[post] else [];
      var i := F.FindUrl(rows, row.url);
      var stored := F.StoredPicture(row, ok, now);
      unpin := SwapFile(if i < |rows| then rows[i].cid else None, stored.cid, size, stored.mime, now);
      pictures := pictures[post := F.PutRow(rows, stored)];
    }

    method AddPin(c: Cid, size: int, mime: string, avatar: bool, now: int)
      modifies this`pins
      ensures pins == F.AddPin(old(pins), c, size, mime, avatar, now)
    {
      if c in pins {
        pins := pins[c := pins[c].(isAvatar := pins[c].isAvatar || avatar)];
      } else {
        pins := pins[c := F.Pin(size, mime, 0, avatar, now, None)];
      }
    }

    method CountEmbedded(c: Cid) returns (n: nat)
      ensures n == All(F.NamedByEmbeds(LogTables()), c)
    {
      ghost var named := F.NamedByEmbeds(LogTables());
      n := 0;
      var rest := embeds.Keys;
      ghost var left := named;
      assert left.Keys == rest;
      while rest != {}
        invariant rest <= embeds.Keys && left.Keys == rest && (forall p :: p in rest ==> left[p] == named[p])
        invariant n + All(left, c) == All(named, c)
        decreases rest
      {
        var p :| p in rest;
        AllSplit(left, p, c);
        var cids := EmbedFiles(p);
        n := n + Count(cids, c);
        rest := rest - {p};
        left := left - {p};
      }
      assert left == map[];
    }

    method CountAvatars(c: Cid) returns (n: nat)
      ensures n == All(F.NamedByProfiles(LogTables()), c)
    {
      ghost var named := F.NamedByProfiles(LogTables());
      n := 0;
      var rest := profiles.Keys;
      ghost var left := named;
      assert left.Keys == rest;
      while rest != {}
        invariant rest <= profiles.Keys && left.Keys == rest && (forall p :: p in rest ==> left[p] == named[p])
        invariant n + All(left, c) == All(named, c)
        decreases rest
      {
        var p :| p in rest;
        AllSplit(left, p, c);
        if profiles[p].avatar == Some(c) { n := n + 1; }
        assert Count(left[p], c) == if profiles[p].avatar == Some(c) then 1 else 0;
        rest := rest - {p};
        left := left - {p};
      }
      assert left == map[];
    }

    /** Every kind of reference a pin can have, counted. */
    method CountRefs(c: Cid) returns (n: nat)
      ensures n == F.Refs(LogTables(), Files(), c)
    {
      var byEmbeds := CountEmbedded(c);
      var byProfiles := CountAvatars(c);
      var byCards := CountCards(c);
      var byPictures := CountPictures(c);
      n := byEmbeds + byProfiles + byCards + byPictures;
    }

    /** A file mirrored after the messages that name it: its references are counted. */
    method AdoptPin(c: Cid, size: int, mime: string, avatar: bool, now: int)
      modifies this`pins
      ensures Files() == F.AdoptPin(old(Files()), LogTables(), c, size, mime, avatar, now)
    {
      ghost var was := Files();
      AddPin(c, size, mime, avatar, now);
      var refs := CountRefs(c);
      SameNames(was, Files());
      pins := pins[c := pins[c].(refs := refs)];
    }

    method SweepStaged(cutoff: int) returns (taken: set<Cid>)
      modifies this`pins
      ensures (pins, taken) == F.SweepStaged(old(pins), cutoff)
    {
      taken := set c | c in pins && pins[c].refs == 0 && pins[c].created < cutoff;
      pins := pins - taken;
    }

    method BeginArchive(post: Id, maxTries: nat, before: int, now: int) returns (link: Option<string>)
      modifies this`cards
      ensures (cards, link) == F.BeginArchive(old(cards), post, maxTries, before, now)
    {
      link := None;
      if post in cards && F.MayBegin(cards[post], maxTries, before) {
        link := Some(cards[post].url);
        cards := cards[post := cards[post].(archiveTries := cards[post].archiveTries + 1, archiveTs := now)];
      }
    }

    // ---- translations and summaries ----

    /** The next number, one more than any ever given. */
    method NextRev() returns (rev: nat)
      modifies this`words
      ensures rev == old(words).lastRev + 1 && words == old(words).(lastRev := rev)
    {
      rev := words.lastRev + 1;
      words := words.(lastRev := rev);
    }

    method SetTranslation(post: Id, lang: W.Lang, text: string, model: string, ok: bool, now: int)
      modifies this`words
      ensures words == W.SetTranslation(old(words), post in posts, post, lang, text, model, ok, now)
    {
      var rev := 0;
      if ok { rev := NextRev(); }
      if post in posts {
        var k := (post, lang);
        var tries := if k in words.translations then words.translations[k].tries + 1 else 1;
        words := words.(translations :=
            words.translations[k := W.Translation(if ok then text else "", model, ok, tries, now, None, rev)]);
      }
    }

    method AcceptTranslation(peer: HubId, x: W.SharedTranslation) returns (kept: bool)
      modifies this`words
      ensures kept == W.TakesTranslation(old(words), x.post in posts, x)
      ensures words == W.AcceptTranslation(old(words), x.post in posts, peer, x)
    {
      var k := (x.post, x.lang);
      kept := x.post in posts &&
          (k !in words.translations || !words.translations[k].ok || words.translations[k].ts < x.ts);
      if kept {
        var tries := if k in words.translations then words.translations[k].tries else 0;
        words := words.(translations :=
            words.translations[k := W.Translation(x.text, x.model, true, tries, x.ts, Some(peer), 0)]);
      }
    }

    method RewriteTranslation(post: Id, lang: W.Lang, text: string, now: int)
      modifies this`words
      ensures words == W.RewriteTranslation(old(words), post, lang, text, now)
    {
      var k := (post, lang);
      if k !in words.translations || !words.translations[k].ok { return; }
      var row := words.translations[k];
      if row.origin.Some? {
        words := words.(translations := words.translations[k := row.(text := text)]);
      } else {
        var rev := NextRev();
        words := words.(translations := words.translations[k := row.(text := text, ts := now, rev := rev)]);
      }
    }

    /** Whether every reply a summary cites still stands in its thread, asked one by one. */
    method CitesStand(post: Id, cites: map<int, Id>) returns (stand: bool)
      ensures stand == W.ThreadStands(posts, post, cites)
    {
      var root := FindRoot(post);
      if root != Some(post) { return false; }
      var rest := cites.Values;
      while rest != {}
        invariant rest <= cites.Values
        invariant forall x :: x in cites.Values && x !in rest ==> RootOf(posts, x, WALK_STEPS) == Some(post)
        decreases rest
      {
        var x :| x in rest;
        root := FindRoot(x);
        if root != Some(post) { return false; }
        rest := rest - {x};
      }
      stand := true;
    }

    method SetSummary(post: Id, step: nat, lang: W.Lang, text: string, model: string, replies: nat,
                      cites: map<int, Id>, ok: bool, now: int) returns (wrote: bool)
      modifies this`words
      ensures wrote == W.ThreadStands(posts, post, cites)
      ensures words == W.SetSummary(old(words), posts, post, step, lang, text, model, replies, cites, ok, now)
    {
      wrote := CitesStand(post, cites);
      if !wrote { return; }
      WriteSummary(post, step, lang, W.SrcKept(words, post, step, lang), text, model, replies, cites, ok, now);
    }

    method WriteSummary(post: Id, step: nat, lang: W.Lang, src: Option<W.Lang>, text: string, model: string,
                        replies: nat, cites: map<int, Id>, ok: bool, now: int)
      modifies this`words
      ensures words == W.PutSummary(old(words), post, step, lang, src, text, model, replies, cites, ok, now)
    {
      var rev := 0;
      if ok { rev := NextRev(); }
      var k := (post, step, lang);
      var tries := if k in words.summaries then words.summaries[k].tries + 1 else 1;
      var row := W.Summary(src, if ok then text else "", model, replies, if ok then cites
          else map[], ok, tries, now, None, rev);
      words := words.(summaries := words.summaries[k := row]);
    }

    method SetSummaryTranslation(post: Id, step: nat, lang: W.Lang, src: W.Lang, text: string, model: string,
        replies: nat,
                                 cites: map<int, Id>, ok: bool, now: int) returns (wrote: bool)
      modifies this`words
      ensures words == W.SetSummaryTranslation(old(words), post in posts, post, step, lang, src, text, model, replies,
        cites, ok, now)
    {
      wrote := post in posts && W.HasOriginal(words, post, step);
      if wrote { WriteSummary(post, step, lang, Some(src), text, model, replies, cites, ok, now); }
    }

    method DropSummaries(post: Id, step: nat)
      modifies this`words
      ensures words == W.DropSummaries(old(words), post, step)
    {
      var n := step;
      if step == 0 { n := MaxStep(post); }
      words := words.(summaries := map k | k in words.summaries && !(k.0 == post && k.1 == n) :: words.summaries[k]);
    }

    method MaxStep(post: Id) returns (n: nat)
      ensures n == W.NewestStep(words, post)
    {
      ghost var steps := W.StepsOf(words, post);
      n := 0;
      var rest := set k | k in words.summaries && k.0 == post;
      ghost var some := rest != {};
      while rest != {}
        invariant forall k :: k in rest ==> k in words.summaries && k.0 == post
        invariant forall k :: k in words.summaries && k.0 == post && k !in rest ==> k.1 <= n && n in steps
        invariant n == 0 || n in steps
        decreases rest
      {
        var k :| k in rest;
        assert k.1 in steps;
        if k.1 > n || n == 0 { n := k.1; }
        rest := rest - {k};
      }
      if some { assert W.IsGreatest(steps, n); }
    }

    /** What this hub made itself, in the order it kept it, from a peer's cursor on. */
    method TranslationsPage(after: nat, limit: nat) returns (out: seq<W.SharedTranslation>, next: nat)
      requires R.Numbered(words)
      ensures var page := R.Page(R.TrRevs(words), after, limit);
              Shares(words, page, out) && next == R.PageNext(R.TrRevs(words), after, page)
    {
      out, next := [], after;
      ghost var revs, keys := R.TrRevs(words), [];
      var i := 0;
      while i < limit
        invariant 0 <= i <= limit && Shares(words, keys, out)
        invariant R.Page(revs, after, limit) == keys + R.Page(revs, next, limit - i)
        invariant next == R.PageNext(revs, after, keys)
      {
        var k := NextTranslation(next);
        if k.None? {
          assert R.Page(revs, next, limit - i) == [];
          assert keys + [] == keys;
          return;
        }
        PageGrows(words, after, limit, keys, out, next, limit - i, k.value);
        out, keys := out + [R.ShareTr(k.value, words.translations[k.value])], keys + [k.value];
        next := words.translations[k.value].rev;
        i := i + 1;
      }
      assert keys + [] == keys;
    }

    /** The row with the least number past `after`, of those this hub serves. */
    method NextTranslation(after: nat) returns (k: Option<(Id, W.Lang)>)
      requires R.Numbered(words)
      ensures k.Some? ==> R.IsNextRow(R.TrRevs(words), after, k.value)
      ensures k.None? ==> forall j :: !R.IsNextRow(R.TrRevs(words), after, j)
    {
      k := None;
      var rest := words.translations.Keys;
      while rest != {}
        invariant rest <= words.translations.Keys
        invariant k.Some? ==> k.value in R.TrRevs(words) && R.TrRevs(words)[k.value] > after
        invariant forall j :: j in R.TrRevs(words) && R.TrRevs(words)[j] > after && j !in rest ==>
                    k.Some? && R.TrRevs(words)[k.value] <= R.TrRevs(words)[j]
        decreases rest
      {
        var j :| j in rest;
        var row := words.translations[j];
        if R.OwnTr(row) && row.rev > after && (k.None? || row.rev < words.translations[k.value].rev) { k := Some(j); }
        rest := rest - {j};
      }
    }
  }
}
