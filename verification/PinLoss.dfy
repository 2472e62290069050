/** Runs in which pin counts and references part. */
module PinLoss {
  import opened Messages
  import opened Derive
  import opened Named
  import opened Hub
  import opened PinLaws
  import opened PinRuns
  import F = Files
  import ReplayLaws
  import Seqs

  const PHOTO: Cid := 7
  const AUTHOR: Key := 1

  function Signed(seqNo: int, op: Op): Envelope { Envelope(AUTHOR, AUTHOR, seqNo, 0, op) }

  const PHOTO_POST := Signed(1,
      PostCreate("a photo", None, [Embed(PHOTO, "image/png", "", "", None, 0, 0, 0.0, false)]))
  const LINK_POST := Signed(2, PostCreate("a link", None, []))
  const PHOTO_GONE := Signed(3, PostDelete(1))

  const UPLOAD := OnFiles(F.AddsPin(PHOTO, 1, "image/png", false, 0))
  const CARDED := OnFiles(F.SetsCard(2, F.CardRow("u", "h", "t", "d", Some(PHOTO), None, true, 0, "", 0, 0), true, 1,
      "image/png", 3))

  const PHOTO_UP := Ingests(1, PHOTO_POST, 1, None)
  const LINK_UP := Ingests(2, LINK_POST, 2, None)
  const PHOTO_DOWN := Ingests(3, PHOTO_GONE, 4, None)

  /** The photo of a post becomes the picture of another post's link card too, and its post is deleted. */
  const STORY: seq<Step> := [UPLOAD] + [PHOTO_UP] + [LINK_UP] + [CARDED] + [PHOTO_DOWN]

  const STAGED := F.AddPin(map[], PHOTO, 1, "image/png", false, 0)
  const POSTED := Post(AUTHOR, "a photo", None, 0, 1, 1, None)
  const LINKED := Post(AUTHOR, "a link", None, 0, 2, 2, None)

  lemma RunOn(steps: seq<Step>, s: Step)
    ensures Run(EMPTY, steps + [s]) == Next(Run(EMPTY, steps), s)
  {
    Seqs.Snoc(steps, s);
  }

  const M1 := Msg(1, PHOTO_POST, 1, None)
  const M2 := Msg(2, LINK_POST, 2, None)
  const M3 := Msg(3, PHOTO_GONE, 4, None)

  /** An accepted local message, in terms of what it does to each part. */
  lemma Lands(db: Db, m: Msg, t1: Tables, f1: F.Files)
    requires !Logged(db.log, m.id) && m.origin == None && m.e.seqNo > LastSeq(db.t, m.e.author)
    requires !SeqTaken(db.log, m.e.author, m.e.seqNo, None)
    requires Materialize(db.t, m.id, m.e, m.received, false) == Ok(t1)
    requires F.Touch(db.f, db.t, m.e, false).Ok? && F.Touch(db.f, db.t, m.e, false).value.0 == f1
    ensures var db1 := Next(db, Ingests(m.id, m.e, m.received, None));
            db1.log == db.log + [m] && db1.t == RaiseSeq(t1, m.e) && db1.f == f1
  {
  }

  ghost predicate Blank(db: Db)
  {
    db.t == EMPTY_TABLES && db.log == [] && db.f == F.Files(STAGED, map[], map[])
  }

  ghost predicate OneShown(db: Db)
  {
    && db.log == [M1]
    && db.t.posts == map[1 := POSTED] && db.t.embeds == map[1 := PHOTO_POST.op.embeds]
    && db.t.seqs == map[AUTHOR := 1] && db.t.profiles == map[]
    && PHOTO in db.f.pins && db.f.pins[PHOTO].refs == 1
    && db.f.cards == map[] && db.f.pictures == map[]
  }

  ghost predicate TwoShown(db: Db)
  {
    && db.log == [M1, M2]
    && db.t.posts == map[1 := POSTED, 2 := LINKED] && db.t.embeds == map[1 := PHOTO_POST.op.embeds, 2 := []]
    && db.t.seqs == map[AUTHOR := 2] && db.t.profiles == map[]
    && PHOTO in db.f.pins && db.f.pins[PHOTO].refs == 1
    && db.f.cards == map[] && db.f.pictures == map[]
  }

  lemma PhotoLands(db: Db)
    requires Blank(db)
    ensures OneShown(Next(db, PHOTO_UP))
  {
    var embeds := PHOTO_POST.op.embeds;
    assert F.BumpEmbeds(STAGED, embeds[..0], false) == Ok(STAGED);
    F.BumpEmbedsAll(STAGED, embeds, false);
    F.BumpAllAt(STAGED, F.EmbedCids(embeds), PHOTO);
  }

  lemma LinkTaken(t: Tables)
    requires t.posts == map[1 := POSTED] && t.embeds == map[1 := PHOTO_POST.op.embeds]
    ensures Materialize(t, 2, LINK_POST, 2, false) ==
            Ok(t.(posts := map[1 := POSTED, 2 := LINKED], embeds := map[1 := PHOTO_POST.op.embeds, 2 := []]))
  {
  }

  lemma LinkLands(db: Db)
    requires OneShown(db)
    ensures TwoShown(Next(db, LINK_UP))
  {
    LinkTaken(db.t);
    Lands(db, M2, Materialize(db.t, 2, LINK_POST, 2, false).value, db.f);
  }

  /** Before the delete: two references to the photo, the post's and the card's. */
  ghost predicate Twice(db: Db)
  {
    && db.log == [M1, M2] && db.t.seqs == map[AUTHOR := 2]
    && db.t.posts == map[1 := POSTED, 2 := LINKED] && db.t.embeds == map[1 := PHOTO_POST.op.embeds, 2 := []]
    && PHOTO in db.f.pins && db.f.pins[PHOTO].refs == 2
    && db.f.cards.Keys == {2} && db.f.cards[2].image == Some(PHOTO) && db.f.pictures == map[]
  }

  ghost predicate Once(db: Db)
  {
    && db.log == [M1, M2, M3] && db.t.posts.Keys == {2}
    && PHOTO in db.f.pins && db.f.pins[PHOTO].refs == 1
    && db.f.cards.Keys == {2} && db.f.cards[2].image == Some(PHOTO) && db.f.pictures == map[]
  }

  lemma CardLands(db: Db)
    requires TwoShown(db)
    ensures Twice(Next(db, CARDED))
  {
  }

  lemma PhotoTaken(t: Tables)
    requires t.posts == map[1 := POSTED, 2 := LINKED]
    ensures Materialize(t, 3, PHOTO_GONE, 4, false).Ok? && Materialize(t, 3, PHOTO_GONE, 4, true).Ok?
    ensures var t1 := Materialize(t, 3, PHOTO_GONE, 4, false).value;
            t1.posts.Keys == {2} && t1.seqs == t.seqs
  {
    DeletePostKeys(t.posts, 1);
  }

  lemma PhotoDropped(f: F.Files, t: Tables)
    requires t.embeds == map[1 := PHOTO_POST.op.embeds, 2 := []]
    requires PHOTO in f.pins && f.pins[PHOTO].refs == 2 && 1 !in f.cards && 1 !in f.pictures
    ensures F.Touch(f, t, PHOTO_GONE, false).Ok?
    ensures var f1 := F.Touch(f, t, PHOTO_GONE, false).value.0;
            PHOTO in f1.pins && f1.pins[PHOTO].refs == 1 && f1.cards == f.cards && f1.pictures == f.pictures
  {
    assert PHOTO_POST.op.embeds[..0] == [];
    assert F.EmbedCids(PHOTO_POST.op.embeds) == [PHOTO];
    assert F.PostCids(t, 1) + F.SideCids(f, 1) == [PHOTO];
    F.DropAllAt(f.pins, [], [PHOTO], PHOTO);
  }

  lemma PhotoIngested(db: Db)
    requires Twice(db)
    ensures Once(Next(db, PHOTO_DOWN))
  {
    PhotoTaken(db.t);
    PhotoDropped(db.f, db.t);
    Lands(db, M3, Materialize(db.t, 3, PHOTO_GONE, 4, false).value, F.Touch(db.f, db.t, PHOTO_GONE, false).value.0);
  }

  /** The run step by step: before is up to where both posts are shown. */
  lemma StoryRuns() returns (before: seq<Step>)
    ensures TwoShown(Run(EMPTY, before)) && Once(Run(EMPTY, STORY))
  {
    RunOn([], UPLOAD);
    assert [] + [UPLOAD] == [UPLOAD];
    PhotoLands(Run(EMPTY, [UPLOAD]));
    RunOn([UPLOAD], PHOTO_UP);
    LinkLands(Run(EMPTY, [UPLOAD] + [PHOTO_UP]));
    before := [UPLOAD] + [PHOTO_UP] + [LINK_UP];
    RunOn([UPLOAD] + [PHOTO_UP], LINK_UP);
    StoryEnds(before);
  }

  lemma StoryEnds(before: seq<Step>)
    requires before == [UPLOAD] + [PHOTO_UP] + [LINK_UP] && TwoShown(Run(EMPTY, before))
    ensures Once(Run(EMPTY, STORY))
  {
    var d3 := Run(EMPTY, before);
    CardLands(d3);
    RunOn(before, CARDED);
    PhotoIngested(Next(d3, CARDED));
    RunOn(before + [CARDED], PHOTO_DOWN);
  }

  lemma LogFalls(t: Tables)
    requires t.posts == map[1 := POSTED, 2 := LINKED] && t.profiles == map[]
    requires t.embeds == map[1 := PHOTO_POST.op.embeds, 2 := []]
    requires Replayed([M1, M2]) == Ok(t) && Replayed([M1, M2, M3]).Ok?
    ensures DropsToZero([M1, M2, M3], PHOTO)
  {
    assert [M1, M2, M3][..2] == [M1, M2];
    PhotoTaken(t);
    LogRefsMove(t, 3, PHOTO_GONE, 4, true, PHOTO);
    SameLogRefs(Materialize(t, 3, PHOTO_GONE, 4, true).value, PHOTO_GONE, PHOTO);
    OnceInLog(t);
    assert F.PostCids(t, 1) == [PHOTO];
  }

  /** In the log, the photo's last reference goes with its post. */
  lemma PhotoFallsToZero(d3: Db, d5: Db)
    requires ReplayLaws.Derived(d3) && ReplayLaws.Derived(d5) && d3.log == [M1, M2] && d5.log == [M1, M2, M3]
    requires TwoShown(d3)
    ensures BackToZero(d5.log, PHOTO)
  {
    LogFalls(d3.t);
    Seqs.Whole([M1, M2, M3]);
  }

  lemma PhotoLost(db: Db)
    requires Once(db) && ReplayLaws.Derived(db) && BackToZero(db.log, PHOTO)
    ensures Rebuild(db).Ok? && PHOTO !in Rebuild(db).value.f.pins
  {
    NoneMissing(db, PHOTO);
    KeptUnlessBackToZero(db, PHOTO);
  }

  /** Where every card and picture row is of a held post, none names a file for a missing one. */
  lemma NoneMissing(db: Db, c: Cid)
    requires db.f.cards.Keys <= db.t.posts.Keys && db.f.pictures.Keys <= db.t.posts.Keys
    ensures OfMissing(db, c) == 0
  {
    var missing := Without(db.f, db.t.posts.Keys);
    assert F.NamedByCards(missing) == map[] && F.NamedByPictures(missing) == map[];
  }

  /** The live count says one reference, the card's; the rebuilt store has lost the row. */
  lemma RebuildLosesALivePin()
    ensures var db := Run(EMPTY, STORY);
            && PHOTO in db.f.pins && db.f.pins[PHOTO].refs == 1
            && 2 in db.f.cards && db.f.cards[2].image == Some(PHOTO)
            && Rebuild(db).Ok? && PHOTO !in Rebuild(db).value.f.pins
  {
    var before := StoryRuns();
    var d3, d5 := Run(EMPTY, before), Run(EMPTY, STORY);
    ReplayLaws.RunKeeps(before);
    ReplayLaws.RunKeeps(STORY);
    PhotoFallsToZero(d3, d5);
    PhotoLost(d5);
  }

  /** With one post naming the photo once, the log refers to it once. */
  lemma OnceInLog(t: Tables)
    requires t.embeds == map[1 := PHOTO_POST.op.embeds, 2 := []] && t.profiles == map[]
    ensures F.LogRefs(t, PHOTO) == 1 && F.EmbedCids(PHOTO_POST.op.embeds) == [PHOTO]
  {
    var named := F.NamedByEmbeds(t);
    AllSplit(named, 1, PHOTO);
    var rest := named - {1};
    AllSplit(rest, 2, PHOTO);
    assert rest - {2} == map[];
    assert F.NamedByProfiles(t) == map[];
    assert PHOTO_POST.op.embeds[..0] == [];
    assert F.EmbedCids(PHOTO_POST.op.embeds) == [PHOTO];
  }

  // ---- a row made over references ----

  const PULLED := Ingests(1, PHOTO_POST, 1, Some(9))

  lemma PhotoPulled()
    ensures var db := Run(EMPTY, [PULLED]);
            && db.t.posts == map[1 := POSTED] && db.t.embeds == map[1 := PHOTO_POST.op.embeds] && db.t.profiles == map[]
            && db.f.pins == map[] && db.f.cards == map[] && db.f.pictures == map[]
  {
    assert [PULLED][..0] == [];
    assert Run(EMPTY, [PULLED]) == Next(EMPTY, PULLED);
    var embeds := PHOTO_POST.op.embeds;
    F.BumpEmbedsAll(map[], embeds, true);
    assert F.BumpAll(map[], F.EmbedCids(embeds)) == map[] by {
      forall c: Cid ensures c !in F.BumpAll(map[], F.EmbedCids(embeds)) { F.BumpAllAt(map[], F.EmbedCids(embeds), c); }
    }
  }

  /** A post pulled without its photo, and then the photo uploaded here: the row stands at nought
      beside one reference, and the sweep of staged uploads takes it. */
  lemma UploadFallsShort()
    ensures var db := Run(EMPTY, [PULLED, UPLOAD]);
            && PHOTO in db.f.pins && db.f.pins[PHOTO].refs == 0 && Refs(db, PHOTO) == 1
            && PHOTO in F.SweepStaged(db.f.pins, 1).1
  {
    PhotoPulled();
    assert [PULLED, UPLOAD][..1] == [PULLED];
    var db := Run(EMPTY, [PULLED, UPLOAD]);
    OneName(db.t);
    assert F.NamedByCards(db.f) == map[] && F.NamedByPictures(db.f) == map[];
  }

  lemma OneName(t: Tables)
    requires t.embeds == map[1 := PHOTO_POST.op.embeds] && t.profiles == map[]
    ensures F.LogRefs(t, PHOTO) == 1
  {
    var named := F.NamedByEmbeds(t);
    AllSplit(named, 1, PHOTO);
    assert named - {1} == map[];
    assert F.NamedByProfiles(t) == map[];
    assert PHOTO_POST.op.embeds[..0] == [];
    assert F.EmbedCids(PHOTO_POST.op.embeds) == [PHOTO];
  }

  // ---- a card of a post that is gone ----

  const EM := Embed(PHOTO, "image/png", "", "", None, 0, 0, 0.0, false)

  /** The photo named once by a post, or twice. */
  function Shots(twice: bool): seq<Embed> { if twice then [EM] + [EM] else [EM] }
  function Times(twice: bool): nat { if twice then 2 else 1 }

  const PLAIN := Signed(1, PostCreate("a link", None, []))
  const PLAIN_GONE := Signed(3, PostDelete(1))
  const PLAIN_UP := Ingests(1, PLAIN, 1, None)
  const PLAIN_DOWN := Ingests(3, PLAIN_GONE, 3, None)
  const LATE_CARD := OnFiles(F.SetsCard(1, F.CardRow("u", "h", "t", "d", Some(PHOTO), None, true, 0, "", 0, 0), true,
      1, "image/png", 4))

  function ShotsPost(twice: bool): Envelope { Signed(2, PostCreate("a photo", None, Shots(twice))) }
  function ShotsUp(twice: bool): Step { Ingests(2, ShotsPost(twice), 2, None) }

  const N1 := Msg(1, PLAIN, 1, None)
  function N2(twice: bool): Msg { Msg(2, ShotsPost(twice), 2, None) }
  const N3 := Msg(3, PLAIN_GONE, 3, None)

  /** A post's link is being read when the post is deleted; its card lands all the same, its picture
      the photo another post shows. */
  function LateStory(twice: bool): seq<Step> { [UPLOAD] + [PLAIN_UP] + [ShotsUp(twice)] + [PLAIN_DOWN] + [LATE_CARD] }

  ghost predicate PlainShown(db: Db)
  {
    && db.log == [N1] && db.t.posts.Keys == {1} && db.t.posts[1].author == AUTHOR && db.t.posts[1].lastReply == None
    && db.t.embeds == map[1 := []] && db.t.seqs == map[AUTHOR := 1] && db.t.profiles == map[]
    && db.f == F.Files(STAGED, map[], map[])
  }

  ghost predicate BothShown(db: Db, twice: bool)
  {
    && db.log == [N1, N2(twice)] && db.t.posts.Keys == {1, 2} && db.t.posts[1].author == AUTHOR
    && db.t.embeds == map[1 := [], 2 := Shots(twice)] && db.t.seqs == map[AUTHOR := 2] && db.t.profiles == map[]
    && PHOTO in db.f.pins && db.f.pins[PHOTO].refs == Times(twice) && db.f.cards == map[] && db.f.pictures == map[]
  }

  ghost predicate OneLeft(db: Db, twice: bool)
  {
    && db.log == [N1, N2(twice), N3] && db.t.posts.Keys == {2}
    && db.t.embeds == map[2 := Shots(twice)] && db.t.profiles == map[]
    && PHOTO in db.f.pins && db.f.pins[PHOTO].refs == Times(twice) && db.f.cards == map[] && db.f.pictures == map[]
  }

  ghost predicate Late(db: Db, twice: bool)
  {
    && db.log == [N1, N2(twice), N3] && db.t.posts.Keys == {2}
    && db.t.embeds == map[2 := Shots(twice)] && db.t.profiles == map[]
    && PHOTO in db.f.pins && db.f.pins[PHOTO].refs == Times(twice) + 1
    && db.f.cards.Keys == {1} && db.f.cards[1].image == Some(PHOTO) && db.f.pictures == map[]
  }

  lemma PlainLands(db: Db)
    requires Blank(db)
    ensures PlainShown(Next(db, PLAIN_UP))
  {
  }

  lemma ShotsName(twice: bool)
    ensures Count(F.EmbedCids(Shots(twice)), PHOTO) == Times(twice)
  {
    assert F.EmbedCids([]) == [] && [EM][..0] == [];
    assert F.EmbedCids([EM]) == [PHOTO] && [PHOTO][..0] == [];
    if twice {
      assert ([EM] + [EM])[..1] == [EM];
      assert F.EmbedCids([EM] + [EM]) == [PHOTO] + [PHOTO];
      CountConcat([PHOTO], [PHOTO], PHOTO);
    }
  }

  lemma ShotsCounted(twice: bool)
    ensures F.BumpEmbeds(STAGED, Shots(twice), false).Ok?
    ensures var p := F.BumpEmbeds(STAGED, Shots(twice), false).value;
            PHOTO in p && p[PHOTO].refs == Times(twice)
  {
    assert F.BumpEmbeds(STAGED, [], false) == Ok(STAGED) && [EM][..0] == [];
    F.BumpOne(STAGED, PHOTO);
    if twice {
      var p := F.BumpEmbeds(STAGED, [EM], false).value;
      assert ([EM] + [EM])[..1] == [EM];
      F.BumpOne(p, PHOTO);
    }
    F.BumpEmbedsAll(STAGED, Shots(twice), false);
    F.BumpAllAt(STAGED, F.EmbedCids(Shots(twice)), PHOTO);
    ShotsName(twice);
  }

  lemma ShotsTaken(t: Tables, twice: bool)
    requires t.posts.Keys == {1} && t.posts[1].author == AUTHOR && t.embeds == map[1 := []]
    ensures Materialize(t, 2, ShotsPost(twice), 2, false).Ok?
    ensures var t1 := Materialize(t, 2, ShotsPost(twice), 2, false).value;
            && t1.posts.Keys == {1, 2} && t1.posts[1].author == AUTHOR && t1.seqs == t.seqs && t1.profiles == t.profiles
            && t1.embeds == map[1 := [], 2 := Shots(twice)]
  {
  }

  lemma ShotsLand(db: Db, twice: bool)
    requires PlainShown(db)
    ensures BothShown(Next(db, ShotsUp(twice)), twice)
  {
    ShotsTaken(db.t, twice);
    ShotsCounted(twice);
    Lands(db, N2(twice), Materialize(db.t, 2, ShotsPost(twice), 2, false).value,
          F.Touch(db.f, db.t, ShotsPost(twice), false).value.0);
  }

  lemma PlainTaken(t: Tables, twice: bool)
    requires t.posts.Keys == {1, 2} && t.posts[1].author == AUTHOR && t.embeds == map[1 := [], 2 := Shots(twice)]
    ensures Materialize(t, 3, PLAIN_GONE, 3, false).Ok?
    ensures var t1 := Materialize(t, 3, PLAIN_GONE, 3, false).value;
            t1.posts.Keys == {2} && t1.embeds == map[2 := Shots(twice)] && t1.profiles == t.profiles
  {
    DeletePostKeys(t.posts, 1);
  }

  lemma PlainGoes(db: Db, twice: bool)
    requires BothShown(db, twice)
    ensures OneLeft(Next(db, PLAIN_DOWN), twice)
  {
    PlainTaken(db.t, twice);
    assert F.PostCids(db.t, 1) + F.SideCids(db.f, 1) == [];
    Lands(db, N3, Materialize(db.t, 3, PLAIN_GONE, 3, false).value, F.Touch(db.f, db.t, PLAIN_GONE, false).value.0);
  }

  lemma LateLands(db: Db, twice: bool)
    requires OneLeft(db, twice)
    ensures Late(Next(db, LATE_CARD), twice)
  {
  }

  lemma LateRuns(twice: bool) returns (before: seq<Step>)
    ensures BothShown(Run(EMPTY, before), twice) && Late(Run(EMPTY, LateStory(twice)), twice)
  {
    RunOn([], UPLOAD);
    assert [] + [UPLOAD] == [UPLOAD];
    PlainLands(Run(EMPTY, [UPLOAD]));
    RunOn([UPLOAD], PLAIN_UP);
    var two := [UPLOAD] + [PLAIN_UP];
    ShotsLand(Run(EMPTY, two), twice);
    RunOn(two, ShotsUp(twice));
    before := two + [ShotsUp(twice)];
    LateEnds(before, twice);
  }

  lemma LateEnds(before: seq<Step>, twice: bool)
    requires before == [UPLOAD] + [PLAIN_UP] + [ShotsUp(twice)] && BothShown(Run(EMPTY, before), twice)
    ensures Late(Run(EMPTY, LateStory(twice)), twice)
  {
    var d3 := Run(EMPTY, before);
    PlainGoes(d3, twice);
    RunOn(before, PLAIN_DOWN);
    LateLands(Next(d3, PLAIN_DOWN), twice);
    RunOn(before + [PLAIN_DOWN], LATE_CARD);
  }

  /** What the log names of the photo: its post's embeds and no more. */
  lemma LogNamesShots(t: Tables, twice: bool)
    requires t.profiles == map[] && (t.embeds == map[2 := Shots(twice)] || t.embeds == map[1 := [], 2 := Shots(twice)])
    ensures F.LogRefs(t, PHOTO) == Times(twice)
  {
    var named := F.NamedByEmbeds(t);
    ShotsName(twice);
    assert F.NamedByProfiles(t) == map[];
    AllSplit(named, 2, PHOTO);
    if 1 in named { AllSplit(named - {2}, 1, PHOTO); }
    assert named - {2} - {1} == map[];
    assert 1 !in named ==> named - {2} == map[];
  }

  lemma LateNames(db: Db, twice: bool)
    requires Late(db, twice)
    ensures F.SideRefs(db.f, PHOTO) == 1 && OfMissing(db, PHOTO) == 1
    ensures Orphaned(db.f, db.log, PHOTO) == 1 && Orphaned(db.f, [N1, N2(twice)], PHOTO) == 0
  {
    OneCard(db.f);
    assert Deleted(db.log) == {1} by { assert N3 in db.log; }
    assert Deleted([N1, N2(twice)]) == {};
    OneCard(Only(db.f, {1}));
    OneCard(Without(db.f, {2}));
    assert F.NamedByCards(Only(db.f, {})) == map[] && F.NamedByPictures(Only(db.f, {})) == map[];
  }

  lemma OneCard(f: F.Files)
    requires f.cards.Keys == {1} && f.cards[1].image == Some(PHOTO) && f.pictures == map[]
    ensures F.SideRefs(f, PHOTO) == 1
  {
    var named := F.NamedByCards(f);
    AllSplit(named, 1, PHOTO);
    assert named - {1} == map[] && F.NamedByPictures(f) == map[];
    assert [PHOTO][..0] == [];
  }

  lemma LateCounts(d3: Db, db: Db, twice: bool)
    requires BothShown(d3, twice) && Late(db, twice) && ReplayLaws.Derived(d3) && ReplayLaws.Derived(db)
    ensures LogCount(db.log, PHOTO) == Times(twice) && LogCount([N1, N2(twice)], PHOTO) == Times(twice)
    ensures LogCount([], PHOTO) == 0
  {
    LogNamesShots(d3.t, twice);
    LogNamesShots(db.t, twice);
    assert F.NamedByEmbeds(EMPTY_TABLES) == map[] && F.NamedByProfiles(EMPTY_TABLES) == map[];
  }

  lemma NeverBack(log: seq<Msg>, two: seq<Msg>, c: Cid)
    requires |log| == 3 && two == log[..2] && LogCount(log, c) > 0 && LogCount(two, c) > 0 && LogCount([], c) == 0
    ensures !BackToZero(log, c) && !BackToZero(two, c)
  {
    assert two[..1][..0] == [];
    BackToZeroSnoc(log, c);
    BackToZeroSnoc(two, c);
    BackToZeroSnoc(two[..1], c);
  }

  /** The log names the photo all along; what is left to it sinks by the card when the log names it once. */
  lemma LateSinks(d3: Db, db: Db, twice: bool)
    requires BothShown(d3, twice) && Late(db, twice) && ReplayLaws.Derived(d3) && ReplayLaws.Derived(db)
    ensures !BackToZero(db.log, PHOTO) && (EverSinks(db.f, db.log, PHOTO) <==> !twice)
  {
    var log, two := db.log, [N1, N2(twice)];
    assert log[..2] == two;
    LateCounts(d3, db, twice);
    NeverBack(log, two, PHOTO);
    LateNames(db, twice);
    NeverSinksUnnamed(db.f, two, PHOTO);
  }

  /** Without a row orphaned so far, a count sinks no lower than the log takes it. */
  lemma NeverSinksUnnamed(f: F.Files, log: seq<Msg>, c: Cid)
    requires Orphaned(f, log, c) == 0 && !BackToZero(log, c)
    ensures !EverSinks(f, log, c)
  {
    SinksIsBackToZero(f, log, c);
  }

  /** A rebuild loses the row of a photo that a post still shows, though the log never let go of it. */
  lemma OrphanLosesAPin()
    ensures var db := Run(EMPTY, LateStory(false));
            && PHOTO in db.f.pins && db.f.pins[PHOTO].refs == Refs(db, PHOTO) == 2 && !BackToZero(db.log, PHOTO)
            && 2 in db.t.embeds && db.t.embeds[2] == [EM]
            && Rebuild(db).Ok? && PHOTO !in Rebuild(db).value.f.pins
  {
    var before := LateRuns(false);
    var d3, db := Run(EMPTY, before), Run(EMPTY, LateStory(false));
    ReplayLaws.RunKeeps(before);
    ReplayLaws.RunKeeps(LateStory(false));
    LateSinks(d3, db, false);
    LateNames(db, false);
    LogNamesShots(db.t, false);
    RebuildPins(db, PHOTO);
  }

  /** And where the photo is named twice, the row stays with one reference beside two. */
  lemma OrphanFallsShort()
    ensures var db := Run(EMPTY, LateStory(true));
            && PHOTO in db.f.pins && db.f.pins[PHOTO].refs == Refs(db, PHOTO) == 3 && Rebuild(db).Ok?
            && var db1 := Rebuild(db).value; PHOTO in db1.f.pins && db1.f.pins[PHOTO].refs == 1 && Refs(db1, PHOTO) == 2
  {
    var before := LateRuns(true);
    var d3, db := Run(EMPTY, before), Run(EMPTY, LateStory(true));
    ReplayLaws.RunKeeps(before);
    ReplayLaws.RunKeeps(LateStory(true));
    LateSinks(d3, db, true);
    LateNames(db, true);
    LogNamesShots(db.t, true);
    RebuildPins(db, PHOTO);
  }
}
