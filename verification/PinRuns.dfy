/** Refcounts over whole runs, and across a rebuild. */
module PinRuns {
  import opened Messages
  import opened Derive
  import opened Named
  import opened Hub
  import opened PinLaws
  import F = Files
  import ReplayLaws

  /** How many references the replayed log leaves to c. */
  ghost function LogCount(log: seq<Msg>, c: Cid): nat
  {
    if Replayed(log).Ok? then F.LogRefs(Replayed(log).value, c) else 0
  }

  /** Somewhere in the log the last embed, poster or avatar naming c went. */
  ghost predicate BackToZero(log: seq<Msg>, c: Cid)
  {
    exists i :: 0 < i <= |log| && DropsToZero(log[..i], c)
  }

  ghost predicate DropsToZero(log: seq<Msg>, c: Cid)
    requires log != []
  {
    LogCount(log[..|log| - 1], c) > 0 && LogCount(log, c) == 0
  }

  lemma BackToZeroSnoc(log: seq<Msg>, c: Cid)
    requires log != []
    ensures BackToZero(log, c) <==> BackToZero(log[..|log| - 1], c) || DropsToZero(log, c)
  {
    var front := log[..|log| - 1];
    assert log[..|log|] == log;
    assert forall i :: 0 < i <= |front| ==> front[..i] == log[..i];
  }

  // ---- card and picture rows of posts that are gone ----

  /** The posts a log deletes. */
  ghost function Deleted(log: seq<Msg>): set<Id>
  {
    set m | m in log && m.e.op.PostDelete? :: m.e.op.post
  }

  /** The card and picture rows of some posts. */
  ghost function Only(f: F.Files, posts: set<Id>): F.Files
  {
    F.Files(f.pins, map p | p in f.cards && p in posts :: f.cards[p],
            map p | p in f.pictures && p in posts :: f.pictures[p])
  }

  /** The card and picture rows but those of some posts. */
  ghost function Without(f: F.Files, posts: set<Id>): F.Files
  {
    F.Files(f.pins, f.cards - posts, f.pictures - posts)
  }

  /** How often card and picture rows name c for posts a log deletes. */
  ghost function Orphaned(f: F.Files, log: seq<Msg>, c: Cid): nat
  {
    F.SideRefs(Only(f, Deleted(log)), c)
  }

  /** How often they name c for posts that are not here. */
  ghost function OfMissing(db: Db, c: Cid): nat
  {
    F.SideRefs(Without(db.f, db.t.posts.Keys), c)
  }

  /** What a replay over f counts for c: what the log names, less what goes with the posts it deletes. */
  ghost function Net(f: F.Files, log: seq<Msg>, c: Cid): int
  {
    LogCount(log, c) - Orphaned(f, log, c)
  }

  /** A message of the log takes that count down to nought or below. */
  ghost predicate Sinks(f: F.Files, log: seq<Msg>, c: Cid)
    requires log != []
  {
    Net(f, log, c) < Net(f, log[..|log| - 1], c) && Net(f, log, c) <= 0
  }

  /** Some message of the log does, that one or one before it. */
  ghost predicate EverSinks(f: F.Files, log: seq<Msg>, c: Cid)
    decreases |log|
  {
    log != [] && (EverSinks(f, log[..|log| - 1], c) || Sinks(f, log, c))
  }

  ghost function Among(named: map<Id, seq<Cid>>, posts: set<Id>): map<Id, seq<Cid>>
  {
    map p | p in named && p in posts :: named[p]
  }

  lemma AmongLess(named: map<Id, seq<Cid>>, posts: set<Id>, p: Id)
    requires p in named
    ensures Among(named - {p}, posts) == Among(named, posts) - {p}
    ensures (named - {p}) - posts == (named - posts) - {p}
    ensures p in Among(named, posts) <==> p in posts
  {
  }

  lemma {:induction false} NamesSplit(named: map<Id, seq<Cid>>, posts: set<Id>, c: Cid)
    ensures All(Among(named, posts), c) + All(named - posts, c) == All(named, c)
    decreases |named|
  {
    if named == map[] {
      assert Among(named, posts) == map[] && named - posts == map[];
    } else {
      var p: Id :| p in named;
      AmongLess(named, posts, p);
      NamesSplit(named - {p}, posts, c);
      AllSplit(named, p, c);
      AllRemove(Among(named, posts), Among(named - {p}, posts), p, c);
      AllRemove(named - posts, (named - {p}) - posts, p, c);
    }
  }

  /** References from cards and pictures are those of some posts and those of the rest. */
  lemma SideSplit(f: F.Files, posts: set<Id>, c: Cid)
    ensures F.SideRefs(Only(f, posts), c) + F.SideRefs(Without(f, posts), c) == F.SideRefs(f, c)
  {
    CardsAmong(f, posts);
    PicturesAmong(f, posts);
    NamesSplit(F.NamedByCards(f), posts, c);
    NamesSplit(F.NamedByPictures(f), posts, c);
  }

  lemma CardsAmong(f: F.Files, posts: set<Id>)
    ensures F.NamedByCards(Only(f, posts)) == Among(F.NamedByCards(f), posts)
    ensures F.NamedByCards(Without(f, posts)) == F.NamedByCards(f) - posts
  {
  }

  lemma PicturesAmong(f: F.Files, posts: set<Id>)
    ensures F.NamedByPictures(Only(f, posts)) == Among(F.NamedByPictures(f), posts)
    ensures F.NamedByPictures(Without(f, posts)) == F.NamedByPictures(f) - posts
  {
  }

  // ---- a deleted post stays deleted ----

  lemma {:induction false} HeldIsLogged(log: seq<Msg>, p: Id)
    requires Replayed(log).Ok? && p in Replayed(log).value.posts
    ensures Logged(log, p)
    decreases |log|
  {
    var front, m := log[..|log| - 1], log[|log| - 1];
    var t := Replayed(front).value;
    ReplayLaws.PostsOf(t, m.id, m.e, m.received, true);
    if p in t.posts {
      HeldIsLogged(front, p);
      var i :| 0 <= i < |front| && front[i].id == p;
      assert log[i].id == p;
    } else {
      assert log[|log| - 1].id == p;
    }
  }

  lemma {:induction false} DeletedStaysDeleted(log: seq<Msg>, i: nat)
    requires Replayed(log).Ok? && i < |log| && log[i].e.op.PostDelete?
    requires forall j, k :: 0 <= j < k < |log| ==> log[j].id != log[k].id
    ensures Logged(log, log[i].e.op.post)
    ensures log[i].e.op.post !in Replayed(log).value.posts
    decreases |log|
  {
    var front, m, p := log[..|log| - 1], log[|log| - 1], log[i].e.op.post;
    var t := Replayed(front).value;
    ReplayLaws.PostsOf(t, m.id, m.e, m.received, true);
    if i == |log| - 1 {
      HeldIsLogged(front, p);
    } else {
      assert front[i] == log[i];
      DeletedStaysDeleted(front, i);
    }
    var k :| 0 <= k < |front| && front[k].id == p;
    assert log[k].id == p;
  }

  // ---- the pins through a replay ----

  lemma SameLogRefs(t: Tables, e: Envelope, c: Cid)
    ensures F.LogRefs(RaiseSeq(t, e), c) == F.LogRefs(t, c)
  {
    assert F.NamedByEmbeds(RaiseSeq(t, e)) == F.NamedByEmbeds(t);
    assert F.NamedByProfiles(RaiseSeq(t, e)) == F.NamedByProfiles(t);
  }

  /** A replay of one more message is one more message applied. */
  lemma ReplaySnoc(db: Db, log: seq<Msg>, c: Cid)
    requires db.t == EMPTY_TABLES && Replayed(log).Ok? && log != []
    ensures Replay(db, log).Ok? && Replay(db, log[..|log| - 1]).Ok?
    ensures var d, m := Replay(db, log[..|log| - 1]).value, log[|log| - 1];
            && Materialize(d.t, m.id, m.e, m.received, true).Ok? && F.Touch(d.f, d.t, m.e, true).Ok?
            && Replay(db, log).value.f == F.Touch(d.f, d.t, m.e, true).value.0
            && LogCount(log[..|log| - 1], c) == F.LogRefs(d.t, c)
            && LogCount(log, c) == F.LogRefs(Materialize(d.t, m.id, m.e, m.received, true).value, c)
  {
    var front, m := log[..|log| - 1], log[|log| - 1];
    ReplayLaws.ReplayReaches(db, log);
    ReplayLaws.ReplayReaches(db, front);
    var d := Replay(db, front).value;
    SameLogRefs(Materialize(d.t, m.id, m.e, m.received, true).value, m.e, c);
  }

  /** Within the replay, a row never counts more than the log names it. */
  lemma {:induction false} ReplayWithin(db: Db, log: seq<Msg>, c: Cid)
    requires db.t == EMPTY_TABLES && Replayed(log).Ok?
    requires c in db.f.pins ==> db.f.pins[c].refs == 0
    ensures Replay(db, log).Ok? && Counted(Replay(db, log).value.f.pins, c, LogCount(log, c))
    decreases |log|
  {
    if log != [] {
      var m := log[|log| - 1];
      ReplayWithin(db, log[..|log| - 1], c);
      ReplaySnoc(db, log, c);
      var d := Replay(db, log[..|log| - 1]).value;
      LogRefsMove(d.t, m.id, m.e, m.received, true, c);
      TouchPin(d.f, d.t, m.e, true, c);
    }
  }

  lemma DeletedSnoc(log: seq<Msg>)
    requires log != []
    ensures var front, m := log[..|log| - 1], log[|log| - 1];
            Deleted(log) == Deleted(front) + (if m.e.op.PostDelete? then {m.e.op.post} else {})
  {
    assert log == log[..|log| - 1] + [log[|log| - 1]];
  }

  /** What a replayed delete takes with its post was counted as orphaned from then on. */
  lemma OrphanedSnoc(f0: F.Files, f: F.Files, log: seq<Msg>, c: Cid)
    requires log != [] && f.cards == f0.cards - Deleted(log[..|log| - 1])
    requires f.pictures == f0.pictures - Deleted(log[..|log| - 1])
    ensures Orphaned(f0, log, c) == Orphaned(f0, log[..|log| - 1], c) + Count(TakenSide(f, log[|log| - 1].e), c)
  {
    var front, m := log[..|log| - 1], log[|log| - 1];
    DeletedSnoc(log);
    SideSplit(f0, Deleted(front), c);
    SideSplit(f0, Deleted(log), c);
    if m.e.op.PostDelete? {
      SideDelete(f, m.e.op.post, f.pins, c);
      var f1 := F.Files(f.pins, f.cards - {m.e.op.post}, f.pictures - {m.e.op.post});
      assert f1.cards == Without(f0, Deleted(log)).cards && f1.pictures == Without(f0, Deleted(log)).pictures;
      SameSide(Without(f0, Deleted(log)), f1, c);
      SameSide(Without(f0, Deleted(front)), f, c);
    } else {
      assert Deleted(log) == Deleted(front);
    }
  }

  /** One replayed message loses a row exactly when it takes something of it and leaves nought. */
  lemma ReplayRow(f: F.Files, t: Tables, m: Msg, c: Cid, net: int)
    requires Materialize(t, m.id, m.e, m.received, true).Ok? && F.Touch(f, t, m.e, true).Ok?
    requires c in f.pins ==> f.pins[c].refs == net
    ensures var t1, f1 := Materialize(t, m.id, m.e, m.received, true).value, F.Touch(f, t, m.e, true).value.0;
            var net1 := net + F.LogRefs(t1, c) - F.LogRefs(t, c) - Count(TakenSide(f, m.e), c);
            && (c in f1.pins <==> c in f.pins && !(net1 < net && net1 <= 0))
            && (c in f1.pins ==> f1.pins[c].refs == net1)
  {
    LogRefsMove(t, m.id, m.e, m.received, true, c);
    TouchPin(f, t, m.e, true, c);
    AddsOrTakes(t, m.e, c);
    if m.e.op.PostDelete? { assert Added(t, m.e) == []; } else { assert TakenSide(f, m.e) == []; }
  }

  lemma ReplayedFiles(f: F.Files, t: Tables, e: Envelope)
    requires F.Touch(f, t, e, true).Ok?
    ensures var f1, gone := F.Touch(f, t, e, true).value.0, if e.op.PostDelete? then {e.op.post} else {};
            f1.cards == f.cards - gone && f1.pictures == f.pictures - gone
  {
  }

  /** Where a replay over f0 stands: the rows of deleted posts are gone, and c's row counts what
      is left to it, unless that ever sank. */
  ghost predicate ReplayedRow(f0: F.Files, f: F.Files, log: seq<Msg>, c: Cid)
  {
    && f.cards == f0.cards - Deleted(log) && f.pictures == f0.pictures - Deleted(log)
    && (c in f.pins <==> c in f0.pins && !EverSinks(f0, log, c))
    && (c in f.pins ==> f.pins[c].refs == Net(f0, log, c))
  }

  lemma {:induction false} ReplayExactly(db: Db, log: seq<Msg>, c: Cid)
    requires db.t == EMPTY_TABLES && Replayed(log).Ok?
    requires c in db.f.pins ==> db.f.pins[c].refs == 0
    ensures Replay(db, log).Ok? && ReplayedRow(db.f, Replay(db, log).value.f, log, c)
    decreases |log|
  {
    if log == [] {
      assert F.NamedByEmbeds(EMPTY_TABLES) == map[] && F.NamedByProfiles(EMPTY_TABLES) == map[];
      assert F.NamedByCards(Only(db.f, {})) == map[] && F.NamedByPictures(Only(db.f, {})) == map[];
    } else {
      ReplayExactly(db, log[..|log| - 1], c);
      ReplayOneMore(db, log, c);
    }
  }

  /** The row after one more message, in terms of what the message's two sides do to it. */
  lemma RowMore(f0: F.Files, f: F.Files, log: seq<Msg>, c: Cid, f1: F.Files)
    requires log != [] && ReplayedRow(f0, f, log[..|log| - 1], c)
    requires f1.cards == f0.cards - Deleted(log) && f1.pictures == f0.pictures - Deleted(log)
    requires var net, net1 := Net(f0, log[..|log| - 1], c), Net(f0, log, c);
             && (c in f1.pins <==> c in f.pins && !(net1 < net && net1 <= 0))
             && (c in f1.pins ==> f1.pins[c].refs == net1)
    ensures ReplayedRow(f0, f1, log, c)
  {
  }

  lemma ReplayOneMore(db: Db, log: seq<Msg>, c: Cid)
    requires db.t == EMPTY_TABLES && Replayed(log).Ok? && log != []
    requires Replay(db, log[..|log| - 1]).Ok? &&
             ReplayedRow(db.f, Replay(db, log[..|log| - 1]).value.f, log[..|log| - 1], c)
    ensures Replay(db, log).Ok? && ReplayedRow(db.f, Replay(db, log).value.f, log, c)
  {
    var front, m := log[..|log| - 1], log[|log| - 1];
    ReplaySnoc(db, log, c);
    var d := Replay(db, front).value;
    var f1 := F.Touch(d.f, d.t, m.e, true).value.0;
    RowFiles(db.f, d.f, d.t, log, f1);
    OrphanedSnoc(db.f, d.f, log, c);
    ReplayRow(d.f, d.t, m, c, Net(db.f, front, c));
    RowMore(db.f, d.f, log, c, f1);
  }

  lemma RowFiles(f0: F.Files, f: F.Files, t: Tables, log: seq<Msg>, f1: F.Files)
    requires log != [] && f.cards == f0.cards - Deleted(log[..|log| - 1])
    requires f.pictures == f0.pictures - Deleted(log[..|log| - 1])
    requires F.Touch(f, t, log[|log| - 1].e, true).Ok? && f1 == F.Touch(f, t, log[|log| - 1].e, true).value.0
    ensures f1.cards == f0.cards - Deleted(log) && f1.pictures == f0.pictures - Deleted(log)
  {
    DeletedSnoc(log);
    ReplayedFiles(f, t, log[|log| - 1].e);
  }

  // ---- Rebuild ----

  /** The card and picture rows a rebuild leaves are those of held posts. */
  lemma RebuildSide(db: Db)
    requires ReplayLaws.Derived(db) && Replay(Cleared(db), db.log).Ok?
    requires Replay(Cleared(db), db.log).value.f.cards == db.f.cards - Deleted(db.log)
    requires Replay(Cleared(db), db.log).value.f.pictures == db.f.pictures - Deleted(db.log)
    ensures Rebuild(db).Ok? && Rebuild(db).value.t == db.t
    ensures Rebuild(db).value.f.cards == Only(db.f, db.t.posts.Keys).cards
    ensures Rebuild(db).value.f.pictures == Only(db.f, db.t.posts.Keys).pictures
  {
    ReplayLaws.RebuildKeeps(db);
    ReplayLaws.ReplayReaches(Cleared(db), db.log);
    DeletedAreGone(db);
    HeldOfRest(db.f, Deleted(db.log), db.t.posts.Keys);
  }

  lemma HeldOfRest(f: F.Files, gone: set<Id>, held: set<Id>)
    requires gone !! held
    ensures HeldCards(f.cards - gone, held) == Only(f, held).cards
    ensures HeldPictures(f.pictures - gone, held) == Only(f, held).pictures
  {
  }

  lemma DeletedAreGone(db: Db)
    requires ReplayLaws.Derived(db)
    ensures Deleted(db.log) !! db.t.posts.Keys
  {
    forall m | m in db.log && m.e.op.PostDelete?
      ensures m.e.op.post !in db.t.posts
    {
      var i :| 0 <= i < |db.log| && db.log[i] == m;
      DeletedStaysDeleted(db.log, i);
    }
  }

  /** What becomes of every pin, on any store: a row survives a rebuild exactly when nothing in
      the log ever takes what the log names of it, less what card and picture rows name for the
      posts deleted so far, down to nought or below; and its refs are then its references less
      what those rows named. */
  lemma RebuildPins(db: Db, c: Cid)
    requires ReplayLaws.Derived(db)
    ensures Rebuild(db).Ok?
    ensures var db1 := Rebuild(db).value;
            && (c in db1.f.pins <==> c in db.f.pins && !EverSinks(db.f, db.log, c))
            && (c in db1.f.pins ==> db1.f.pins[c].refs == Refs(db1, c) - Orphaned(db.f, db.log, c))
            && Refs(db1, c) == Refs(db, c) - OfMissing(db, c)
  {
    ReplayExactly(Cleared(db), db.log, c);
    SinksSame(Cleared(db).f, db.f, db.log, c);
    RebuildSide(db);
    var db1 := Rebuild(db).value;
    SideSplit(db.f, db.t.posts.Keys, c);
    SameSide(Only(db.f, db.t.posts.Keys), db1.f, c);
    SameSide(db1.f, F.Files(map[], db1.f.cards, db1.f.pictures), c);
  }

  lemma {:induction false} SinksSame(f: F.Files, g: F.Files, log: seq<Msg>, c: Cid)
    requires f.cards == g.cards && f.pictures == g.pictures
    ensures EverSinks(f, log, c) <==> EverSinks(g, log, c)
    ensures Orphaned(f, log, c) == Orphaned(g, log, c)
    decreases |log|
  {
    SameSide(Only(f, Deleted(log)), Only(g, Deleted(log)), c);
    if log != [] { SinksSame(f, g, log[..|log| - 1], c); }
  }

  /** So the counts a rebuild leaves are the references exactly when the row is lost or no card or
      picture row named the file for a post the log deletes. */
  lemma RebuildIsExactIff(db: Db, c: Cid)
    requires ReplayLaws.Derived(db)
    ensures Rebuild(db).Ok?
    ensures Exact(Rebuild(db).value.f.pins, c, Refs(Rebuild(db).value, c)) <==>
            c !in db.f.pins || EverSinks(db.f, db.log, c) || Orphaned(db.f, db.log, c) == 0
  {
    RebuildPins(db, c);
  }

  lemma OrphansAreMissing(db: Db, c: Cid)
    requires ReplayLaws.Derived(db)
    ensures Orphaned(db.f, db.log, c) <= OfMissing(db, c)
  {
    DeletedAreGone(db);
    SideSplit(Without(db.f, db.t.posts.Keys), Deleted(db.log), c);
    OnlyOfRest(db.f, db.t.posts.Keys, Deleted(db.log), c);
  }

  lemma OnlyOfRest(f: F.Files, held: set<Id>, posts: set<Id>, c: Cid)
    requires posts !! held
    ensures F.SideRefs(Only(Without(f, held), posts), c) == F.SideRefs(Only(f, posts), c)
  {
    SameSide(Only(f, posts), Only(Without(f, held), posts), c);
  }

  /** With no row for a deleted post naming c, its count sinks exactly where the log's falls back to nought. */
  lemma {:induction false} SinksIsBackToZero(f: F.Files, log: seq<Msg>, c: Cid)
    requires Orphaned(f, log, c) == 0
    ensures EverSinks(f, log, c) <==> BackToZero(log, c)
    decreases |log|
  {
    if log != [] {
      var front := log[..|log| - 1];
      FewerOrphaned(f, log, c);
      SinksIsBackToZero(f, front, c);
      BackToZeroSnoc(log, c);
    }
  }

  lemma FewerOrphaned(f: F.Files, log: seq<Msg>, c: Cid)
    requires log != []
    ensures Orphaned(f, log[..|log| - 1], c) <= Orphaned(f, log, c)
  {
    var front := log[..|log| - 1];
    DeletedSnoc(log);
    SideSplit(Only(f, Deleted(log)), Deleted(front), c);
    SameSide(Only(f, Deleted(front)), Only(Only(f, Deleted(log)), Deleted(front)), c);
  }

  /** With no row for a missing post naming c, a rebuild keeps c's row exactly when the log never lets it go. */
  lemma KeptUnlessBackToZero(db: Db, c: Cid)
    requires ReplayLaws.Derived(db) && OfMissing(db, c) == 0
    ensures Rebuild(db).Ok? && (c in Rebuild(db).value.f.pins <==> c in db.f.pins && !BackToZero(db.log, c))
  {
    OrphansAreMissing(db, c);
    SinksIsBackToZero(db.f, db.log, c);
    RebuildPins(db, c);
  }

  /** A live count that was exact is kept by a rebuild if and only if the log's count never fell
      back to nought and no card or picture row of a missing post names the file. */
  lemma RebuildAgainstLive(db: Db, c: Cid)
    requires ReplayLaws.Derived(db) && c in db.f.pins && Exact(db.f.pins, c, Refs(db, c))
    ensures Rebuild(db).Ok?
    ensures (c in Rebuild(db).value.f.pins && Rebuild(db).value.f.pins[c].refs == db.f.pins[c].refs) <==>
            !BackToZero(db.log, c) && OfMissing(db, c) == 0
  {
    if OfMissing(db, c) == 0 {
      KeptUnlessBackToZero(db, c);
      RebuiltRefs(db, c);
    } else {
      RebuiltRefs(db, c);
    }
  }

  /** The refs a rebuild leaves, against all the references there were. */
  lemma RebuiltRefs(db: Db, c: Cid)
    requires ReplayLaws.Derived(db)
    ensures Rebuild(db).Ok?
    ensures c in Rebuild(db).value.f.pins ==>
              Refs(db, c) - 2 * OfMissing(db, c) <= Rebuild(db).value.f.pins[c].refs <= Refs(db, c) - OfMissing(db, c)
  {
    RebuildPins(db, c);
    OrphansAreMissing(db, c);
  }

  /** Even with rows for missing posts, a rebuild counts no more than the references. */
  lemma RebuildWithin(db: Db, c: Cid)
    requires ReplayLaws.Derived(db)
    ensures Rebuild(db).Ok? && Counted(Rebuild(db).value.f.pins, c, Refs(Rebuild(db).value, c))
  {
    ReplayLaws.RebuildKeeps(db);
    ReplayWithin(Cleared(db), db.log, c);
    var db1 := Rebuild(db).value;
    SameSide(db1.f, F.Files(map[], db1.f.cards, db1.f.pictures), c);
  }

  // ---- runs ----

  lemma NextWithin(db: Db, s: Step, c: Cid)
    requires ReplayLaws.Derived(db) && Counted(db.f.pins, c, Refs(db, c))
    ensures Counted(Next(db, s).f.pins, c, Refs(Next(db, s), c))
  {
    match s
    case Ingests(id, e, now, origin) =>
      if Ingest(db, id, e, now, origin).Ok? {
        MessageMoves(db.t, db.f, id, e, now, origin.Some?, c);
        SameLogRefs(Materialize(db.t, id, e, now, origin.Some?).value, e, c);
      }
    case Rebuilds => RebuildWithin(db, c);
    case OnFiles(fs) => FileStepMoves(db.t, db.f, fs, c);
    case _ =>
  }

  /** In every reachable store a pin's refs is at least nought and never more than its references. */
  lemma {:induction false} RefsWithin(steps: seq<Step>, c: Cid)
    ensures var db := Run(EMPTY, steps); c in db.f.pins ==> 0 <= db.f.pins[c].refs <= Refs(db, c)
    decreases |steps|
  {
    if steps != [] {
      var front := steps[..|steps| - 1];
      RefsWithin(front, c);
      ReplayLaws.RunKeeps(front);
      NextWithin(Run(EMPTY, front), steps[|steps| - 1], c);
    }
  }

  /** A step that keeps c's count exact: it makes no row for c over references, unless by adopting
      it; and a rebuild finds no card or picture row naming c for a post the log deletes, or loses c. */
  ghost predicate Careful(db: Db, s: Step, c: Cid)
  {
    && (s.OnFiles? ==> Adopting(db.t, db.f, s.fs, c))
    && (s.Rebuilds? ==> c !in db.f.pins || EverSinks(db.f, db.log, c) || Orphaned(db.f, db.log, c) == 0)
  }

  ghost predicate AllCareful(steps: seq<Step>, c: Cid)
    decreases |steps|
  {
    steps == [] ||
    (AllCareful(steps[..|steps| - 1], c) && Careful(Run(EMPTY, steps[..|steps| - 1]), steps[|steps| - 1], c))
  }

  /** From an exact count, a step keeps it exact if and only if it is careful. */
  lemma NextExactIff(db: Db, s: Step, c: Cid)
    requires ReplayLaws.Derived(db) && Exact(db.f.pins, c, Refs(db, c))
    ensures Exact(Next(db, s).f.pins, c, Refs(Next(db, s), c)) <==> Careful(db, s, c)
  {
    match s
    case Ingests(id, e, now, origin) =>
      if Ingest(db, id, e, now, origin).Ok? {
        MessageMoves(db.t, db.f, id, e, now, origin.Some?, c);
        SameLogRefs(Materialize(db.t, id, e, now, origin.Some?).value, e, c);
      }
    case Rebuilds => RebuildIsExactIff(db, c);
    case OnFiles(fs) => FileStepExactIff(db.t, db.f, fs, c);
    case _ =>
  }

  /** c's count was its references after each step. */
  ghost predicate AlwaysExact(steps: seq<Step>, c: Cid)
    decreases |steps|
  {
    && Exact(Run(EMPTY, steps).f.pins, c, Refs(Run(EMPTY, steps), c))
    && (steps == [] || AlwaysExact(steps[..|steps| - 1], c))
  }

  /** A pin's refs are its references all through a run if and only if every step of it is careful. */
  lemma {:induction false} RefsExactIff(steps: seq<Step>, c: Cid)
    ensures AlwaysExact(steps, c) <==> AllCareful(steps, c)
    decreases |steps|
  {
    if steps != [] {
      var front := steps[..|steps| - 1];
      RefsExactIff(front, c);
      ReplayLaws.RunKeeps(front);
      if AlwaysExact(front, c) { NextExactIff(Run(EMPTY, front), steps[|steps| - 1], c); }
    }
  }

  /** And where a pin's refs are its references, nothing still referenced is let go: not by a
      message, not by a new card or picture, not by the sweep of staged uploads. */
  lemma NothingReferencedIsTaken(steps: seq<Step>, c: Cid)
    requires Exact(Run(EMPTY, steps).f.pins, c, Refs(Run(EMPTY, steps), c))
    ensures var db := Run(EMPTY, steps);
            && (forall id, e, now, origin ::
                  Ingest(db, id, e, now, origin).Ok? && c in Ingest(db, id, e, now, origin).value.1 ==>
                  Refs(Ingest(db, id, e, now, origin).value.0, c) == 0)
            && (forall cutoff :: c in F.SweepStaged(db.f.pins, cutoff).1 ==> Refs(db, c) == 0)
            && (forall post, card, ok, size, mime, now ::
                  c in F.SetCard(db.f, post, card, ok, size, mime, now).1 ==>
                    F.Refs(db.t, F.SetCard(db.f, post, card, ok, size, mime, now).0, c) == 0)
            && (forall post, row, ok, size, now ::
                  c in F.SetPicture(db.f, post, row, ok, size, now).1 ==>
                    F.Refs(db.t, F.SetPicture(db.f, post, row, ok, size, now).0, c) == 0)
  {
    var db := Run(EMPTY, steps);
    forall id, e, now, origin | Ingest(db, id, e, now, origin).Ok? && c in Ingest(db, id, e, now, origin).value.1
      ensures Refs(Ingest(db, id, e, now, origin).value.0, c) == 0
    {
      MessageMoves(db.t, db.f, id, e, now, origin.Some?, c);
      SameLogRefs(Materialize(db.t, id, e, now, origin.Some?).value, e, c);
    }
    forall post, card, ok, size, mime, now | c in F.SetCard(db.f, post, card, ok, size, mime, now).1
      ensures F.Refs(db.t, F.SetCard(db.f, post, card, ok, size, mime, now).0, c) == 0
    {
      UnpinnedHadRow(db.f.pins, CardImage(db.f, post), F.StoredCard(card, ok, now).image, size, mime, now, c);
      CardStep(db.t, db.f, post, card, ok, size, mime, now, c);
    }
    forall post, row, ok, size, now | c in F.SetPicture(db.f, post, row, ok, size, now).1
      ensures F.Refs(db.t, F.SetPicture(db.f, post, row, ok, size, now).0, c) == 0
    {
      var stored := F.StoredPicture(row, ok, now);
      UnpinnedHadRow(db.f.pins, PictureCid(db.f, post, row.url), stored.cid, size, stored.mime, now, c);
      PictureStep(db.t, db.f, post, row, ok, size, now, c);
    }
  }

  lemma UnpinnedHadRow(pins: F.Pins, was: Option<Cid>, got: Option<Cid>, size: int, mime: string, now: int, c: Cid)
    requires c in F.Swap(pins, was, got, size, mime, now).1
    ensures c in pins
  {
    F.DropAllAt(pins, [], OptSeq(was), c);
  }
}
