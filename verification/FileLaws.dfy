/** What the rows of pins, cards and pictures hold, and which messages the pins let in. */
module FileLaws {
  import opened Messages
  import opened Derive
  import opened Named
  import opened Hub
  import F = Files
  import PinRuns
  import ReplayLaws

  // ---- which messages the pins let in ----

  /** A file an embed names is pinned, its poster too; where it was measured the embed says nothing
      of its shape, or repeats the measures, its length to a hundredth of a second. */
  predicate Backed(pins: F.Pins, em: Embed)
  {
    && em.cid in pins && (em.poster.Some? ==> em.poster.value in pins)
    && match pins[em.cid].media
       case None => true
       case Some(x) =>
         || (em.poster == None && em.width == 0 && em.duration == 0.0 && !em.loops)
         || (x.duration - 0.01 <= em.duration <= x.duration + 0.01
             && F.Facts(em.poster, em.width, em.height, x.duration, em.loops) == x)
  }

  /** What the pins ask of a message taken here. */
  predicate LetIn(f: F.Files, t: Tables, e: Envelope)
  {
    match e.op
    case PostCreate(_, _, embeds) => forall em :: em in embeds ==> Backed(f.pins, em)
    case ProfileSet(_, _, Some(c)) =>
      (e.pid in t.profiles && t.profiles[e.pid].avatar == Some(c)) || (c in f.pins && f.pins[c].isAvatar)
    case _ => true
  }

  lemma {:induction false} EmbedsBacked(pins: F.Pins, embeds: seq<Embed>)
    ensures F.BumpEmbeds(pins, embeds, false).Ok? <==> forall em :: em in embeds ==> Backed(pins, em)
    ensures F.BumpEmbeds(pins, embeds, false).Ok? ==>
              forall c :: (c in F.BumpEmbeds(pins, embeds, false).value <==> c in pins) &&
                (c in pins ==> F.BumpEmbeds(pins, embeds, false).value[c].media == pins[c].media)
  {
    if embeds != [] {
      var front, em := embeds[..|embeds| - 1], embeds[|embeds| - 1];
      EmbedsBacked(pins, front);
      assert embeds == front + [em];
      if F.BumpEmbeds(pins, front, false).Ok? {
        var p := F.BumpEmbeds(pins, front, false).value;
        forall c
          ensures c in F.BumpAll(p, [em.cid] + OptSeq(em.poster)) <==> c in p
          ensures c in p ==> F.BumpAll(p, [em.cid] + OptSeq(em.poster))[c].media == p[c].media
        {
          F.BumpAllAt(p, [em.cid] + OptSeq(em.poster), c);
        }
        assert Backed(p, em) <==> Backed(pins, em);
      }
    }
  }

  /** A post taken here names only pinned files, as they were measured, and a new avatar is a pinned
      picture minted for one; that and no more is asked of the pins. */
  lemma PinsLetIn(f: F.Files, t: Tables, e: Envelope)
    ensures F.Touch(f, t, e, false).Ok? <==> LetIn(f, t, e)
  {
    if e.op.PostCreate? { EmbedsBacked(f.pins, e.op.embeds); }
  }

  // ---- a pin's row is as it was made ----

  datatype Made = Made(size: int, mime: string, now: int)

  /** The row a step makes for a file that has none. */
  function Makes(s: Step, c: Cid): Option<Made>
  {
    if !s.OnFiles? then None
    else
      match s.fs
      case AddsPin(d, size, mime, _, now) => if d == c then Some(Made(size, mime, now)) else None
      case AddsMediaPin(d, size, mime, _, now) => if d == c then Some(Made(size, mime, now)) else None
      case AdoptsPin(d, size, mime, _, now) => if d == c then Some(Made(size, mime, now)) else None
      case SetsCard(_, card, ok, size, mime, now) =>
        if ok && card.image == Some(c) then Some(Made(size, mime, now)) else None
      case SetsPicture(_, row, ok, size, now) =>
        if ok && row.cid == Some(c) then Some(Made(size, row.mime, now)) else None
      case _ => None
  }

  /** A step that flags a file as an avatar, and the facts one gives it. */
  predicate Flags(s: Step, c: Cid)
  {
    s.OnFiles? && ((s.fs.AddsPin? && s.fs.c == c && s.fs.avatar) || (s.fs.AdoptsPin? && s.fs.c == c && s.fs.avatar))
  }

  function Measures(s: Step, c: Cid): Option<F.Facts>
  {
    if s.OnFiles? && s.fs.AddsMediaPin? && s.fs.c == c then Some(s.fs.facts) else None
  }

  /** The row after a step, from the row before it or as the step makes it. */
  ghost predicate RowAfter(db: Db, s: Step, db1: Db, c: Cid)
  {
    c in db1.f.pins ==>
      var p := db1.f.pins[c];
      if c in db.f.pins then
        var q := db.f.pins[c];
        && p.size == q.size && p.mime == q.mime && p.created == q.created && p.isAvatar == (q.isAvatar || Flags(s, c))
        && p.media == if Measures(s, c).Some? then Measures(s, c) else q.media
      else
        && Makes(s, c) == Some(Made(p.size, p.mime, p.created))
        && p.isAvatar == Flags(s, c) && p.media == Measures(s, c)
  }

  /** Only the count of a row differs. */
  predicate SameBut(pins: F.Pins, pins1: F.Pins, c: Cid)
  {
    c in pins1 ==> c in pins && pins1[c] == pins[c].(refs := pins1[c].refs)
  }

  lemma TouchSame(f: F.Files, t: Tables, e: Envelope, replay: bool, c: Cid)
    requires F.Touch(f, t, e, replay).Ok?
    ensures SameBut(f.pins, F.Touch(f, t, e, replay).value.0.pins, c)
  {
    match e.op
    case ProfileSet(_, _, avatar) =>
      var was := F.OldAvatar(t, e.pid);
      F.BumpAllAt(f.pins, OptSeq(avatar), c);
      F.DropAllAt(F.BumpAll(f.pins, OptSeq(avatar)), [], OptSeq(was), c);
    case PostCreate(_, _, embeds) =>
      F.BumpEmbedsAll(f.pins, embeds, replay);
      F.BumpAllAt(f.pins, F.EmbedCids(embeds), c);
    case PostDelete(post) => F.DropAllAt(f.pins, [], F.PostCids(t, post) + F.SideCids(f, post), c);
    case _ =>
  }

  lemma {:induction false} ReplaySame(db: Db, log: seq<Msg>, c: Cid)
    requires Replay(db, log).Ok?
    ensures SameBut(db.f.pins, Replay(db, log).value.f.pins, c)
    decreases |log|
  {
    if log != [] {
      var front, m := log[..|log| - 1], log[|log| - 1];
      ReplaySame(db, front, c);
      var d := Replay(db, front).value;
      TouchSame(d.f, d.t, m.e, true, c);
    }
  }

  lemma RebuildSame(db: Db, c: Cid)
    requires Rebuild(db).Ok?
    ensures SameBut(db.f.pins, Rebuild(db).value.f.pins, c)
  {
    ReplaySame(Cleared(db), db.log, c);
  }

  lemma SwapRow(pins: F.Pins, was: Option<Cid>, got: Option<Cid>, size: int, mime: string, now: int, c: Cid)
    requires c in F.Swap(pins, was, got, size, mime, now).0
    ensures var p := F.Swap(pins, was, got, size, mime, now).0[c];
            if c in pins then p == pins[c].(refs := p.refs)
            else got == Some(c) && p == F.Pin(size, mime, 1, false, now, None)
  {
    F.DropAllAt(pins, [], OptSeq(was), c);
  }

  lemma FileStepRow(db: Db, fs: F.FileStep, c: Cid)
    ensures RowAfter(db, OnFiles(fs), Next(db, OnFiles(fs)), c)
  {
    if c in Next(db, OnFiles(fs)).f.pins {
      match fs
      case SetsCard(post, card, ok, size, mime, now) =>
        var was := if post in db.f.cards then db.f.cards[post].image else None;
        SwapRow(db.f.pins, was, F.StoredCard(card, ok, now).image, size, mime, now, c);
      case SetsPicture(post, row, ok, size, now) =>
        var rows := F.PictureRows(db.f, post);
        var i := F.FindUrl(rows, row.url);
        var stored := F.StoredPicture(row, ok, now);
        SwapRow(db.f.pins, if i < |rows| then rows[i].cid else None, stored.cid, size, stored.mime, now, c);
      case _ =>
    }
  }

  lemma StepRow(db: Db, s: Step, c: Cid)
    requires ReplayLaws.Derived(db)
    ensures RowAfter(db, s, Next(db, s), c)
  {
    match s
    case Ingests(id, e, now, origin) =>
      if Ingest(db, id, e, now, origin).Ok? { TouchSame(db.f, db.t, e, origin.Some?, c); }
    case Rebuilds =>
      ReplayLaws.RebuildKeeps(db);
      RebuildSame(db, c);
    case OnFiles(fs) => FileStepRow(db, fs, c);
    case _ =>
  }

  /** What a row says of the steps since the one that made it. */
  ghost predicate AsMade(steps: seq<Step>, i: nat, c: Cid, p: F.Pin)
  {
    && i < |steps| && Makes(steps[i], c) == Some(Made(p.size, p.mime, p.created))
    && (p.isAvatar <==> exists j :: i <= j < |steps| && Flags(steps[j], c))
    && (p.media.None? ==> forall j :: i <= j < |steps| ==> Measures(steps[j], c).None?)
    && (p.media.Some? ==>
          exists j :: i <= j < |steps| && Measures(steps[j], c) == p.media &&
            forall k :: j < k < |steps| ==> Measures(steps[k], c).None?)
  }

  lemma MadeMore(steps: seq<Step>, i: nat, s: Step, c: Cid, q: F.Pin, p: F.Pin)
    requires AsMade(steps, i, c, q) && p.size == q.size && p.mime == q.mime && p.created == q.created
    requires p.isAvatar == (q.isAvatar || Flags(s, c))
    requires p.media == if Measures(s, c).Some? then Measures(s, c) else q.media
    ensures AsMade(steps + [s], i, c, p)
  {
    var more := steps + [s];
    assert more[|steps|] == s && forall j :: 0 <= j < |steps| ==> more[j] == steps[j];
    if p.isAvatar {
      if q.isAvatar {
        var j :| i <= j < |steps| && Flags(steps[j], c);
        assert Flags(more[j], c);
      } else {
        assert Flags(more[|steps|], c);
      }
    }
    if p.media.Some? {
      if Measures(s, c).Some? {
        assert Measures(more[|steps|], c) == p.media;
      } else {
        var j :| i <= j < |steps| && Measures(steps[j], c) == q.media
          && forall k :: j < k < |steps| ==> Measures(steps[k], c).None?;
        assert Measures(more[j], c) == p.media;
      }
    }
  }

  lemma MadeNow(steps: seq<Step>, s: Step, c: Cid, p: F.Pin)
    requires Makes(s, c) == Some(Made(p.size, p.mime, p.created))
    requires p.isAvatar == Flags(s, c) && p.media == Measures(s, c)
    ensures AsMade(steps + [s], |steps|, c, p)
  {
    assert (steps + [s])[|steps|] == s;
  }

  /** In every reachable store a pin's row has the size, the type and the date of the step that made
      it, and since then was flagged an avatar exactly when some step said so and measured as the
      last to measure it did. */
  lemma {:induction false} PinIsAsMade(steps: seq<Step>, c: Cid) returns (i: nat)
    requires c in Run(EMPTY, steps).f.pins
    ensures AsMade(steps, i, c, Run(EMPTY, steps).f.pins[c])
    decreases |steps|
  {
    var front, s := steps[..|steps| - 1], steps[|steps| - 1];
    var db := Run(EMPTY, front);
    ReplayLaws.RunKeeps(front);
    StepRow(db, s, c);
    assert steps == front + [s];
    if c in db.f.pins {
      i := PinIsAsMade(front, c);
      MadeMore(front, i, s, c, db.f.pins[c], Run(EMPTY, steps).f.pins[c]);
    } else {
      i := |front|;
      MadeNow(front, s, c, Run(EMPTY, steps).f.pins[c]);
    }
  }

  /** The sweep takes a file exactly when nothing counts on it and the step that made its row is
      older than the cutoff. */
  lemma SweptIffOld(steps: seq<Step>, c: Cid, cutoff: int) returns (i: nat)
    requires c in Run(EMPTY, steps).f.pins
    ensures i < |steps| && Makes(steps[i], c).Some?
    ensures c !in Next(Run(EMPTY, steps), OnFiles(F.Sweeps(cutoff))).f.pins <==>
            Run(EMPTY, steps).f.pins[c].refs == 0 && Makes(steps[i], c).value.now < cutoff
  {
    i := PinIsAsMade(steps, c);
  }

  // ---- cards and pictures are read as they were set ----

  /** A step that writes the card, or the row of a url, anew. */
  predicate WritesCard(s: Step, post: Id) { s.OnFiles? && s.fs.SetsCard? && s.fs.post == post }
  predicate WritesPicture(s: Step, post: Id, url: string)
  {
    s.OnFiles? && s.fs.SetsPicture? && s.fs.post == post && s.fs.row.url == url
  }
  predicate Deletes(s: Step, post: Id) { s.Ingests? && s.e.op.PostDelete? && s.e.op.post == post }

  /** The card as it was set, the columns of its archived copy apart. */
  predicate IsCard(f: F.Files, post: Id, c: F.CardRow, ok: bool, now: int)
  {
    && post in f.cards
    && var r := f.cards[post];
       && r.url == c.url && r.ok == ok && r.ts == now
       && if ok then r.host == c.host && r.title == c.title && r.descr == c.descr && r.image == c.image
          && r.quote == c.quote
          else r.host == r.title == r.descr == "" && r.image == None && r.quote == None
  }

  lemma TouchLeavesSide(f: F.Files, t: Tables, e: Envelope, replay: bool, post: Id)
    requires F.Touch(f, t, e, replay).Ok? && !(e.op.PostDelete? && e.op.post == post)
    ensures var f1 := F.Touch(f, t, e, replay).value.0;
            && (post in f1.cards <==> post in f.cards) && (post in f.cards ==> f1.cards[post] == f.cards[post])
            && (post in f1.pictures <==> post in f.pictures)
            && (post in f.pictures ==> f1.pictures[post] == f.pictures[post])
  {
  }

  lemma {:induction false} ReplayLeavesSide(db: Db, log: seq<Msg>, post: Id)
    requires Replay(db, log).Ok?
    requires forall i :: 0 <= i < |log| && log[i].e.op.PostDelete? ==> log[i].e.op.post != post
    ensures var f, f1 := db.f, Replay(db, log).value.f;
            && (post in f1.cards <==> post in f.cards) && (post in f.cards ==> f1.cards[post] == f.cards[post])
            && (post in f1.pictures <==> post in f.pictures)
            && (post in f.pictures ==> f1.pictures[post] == f.pictures[post])
    decreases |log|
  {
    if log != [] {
      var front, m := log[..|log| - 1], log[|log| - 1];
      assert forall i :: 0 <= i < |front| ==> front[i] == log[i];
      ReplayLeavesSide(db, front, post);
      TouchLeavesSide(Replay(db, front).value.f, Replay(db, front).value.t, m.e, true, post);
    }
  }

  /** A rebuild keeps the card and the pictures of a post that is here. */
  lemma RebuildLeavesSide(db: Db, post: Id)
    requires ReplayLaws.Derived(db) && post in db.t.posts
    ensures Rebuild(db).Ok?
    ensures var f, f1 := db.f, Rebuild(db).value.f;
            && (post in f1.cards <==> post in f.cards) && (post in f.cards ==> f1.cards[post] == f.cards[post])
            && (post in f1.pictures <==> post in f.pictures)
            && (post in f.pictures ==> f1.pictures[post] == f.pictures[post])
  {
    ReplayLaws.RebuildKeeps(db);
    ReplayLaws.ReplayReaches(Cleared(db), db.log);
    forall i | 0 <= i < |db.log| && db.log[i].e.op.PostDelete?
      ensures db.log[i].e.op.post != post
    {
      PinRuns.DeletedStaysDeleted(db.log, i);
    }
    ReplayLeavesSide(Cleared(db), db.log, post);
  }

  lemma StaysHeld(db: Db, s: Step, post: Id)
    requires ReplayLaws.Derived(db) && post in db.t.posts && !Deletes(s, post)
    ensures post in Next(db, s).t.posts
  {
    match s
    case Ingests(id, e, now, origin) =>
      if Ingest(db, id, e, now, origin).Ok? { ReplayLaws.PostsOf(db.t, id, e, now, origin.Some?); }
    case Rebuilds => ReplayLaws.RebuildKeeps(db);
    case _ =>
  }

  lemma FileStepLeavesCard(f: F.Files, t: Tables, fs: F.FileStep, post: Id, c: F.CardRow, ok: bool, now: int)
    requires !(fs.SetsCard? && fs.post == post) && IsCard(f, post, c, ok, now)
    ensures IsCard(F.NextFiles(f, t, fs), post, c, ok, now)
  {
    assert post in F.NextFiles(f, t, fs).cards;
  }

  lemma StepLeavesCard(db: Db, s: Step, post: Id, c: F.CardRow, ok: bool, now: int)
    requires ReplayLaws.Derived(db) && post in db.t.posts && !Deletes(s, post) && !WritesCard(s, post)
    requires IsCard(db.f, post, c, ok, now)
    ensures IsCard(Next(db, s).f, post, c, ok, now)
  {
    match s
    case Ingests(id, e, at, origin) =>
      if Ingest(db, id, e, at, origin).Ok? { TouchLeavesSide(db.f, db.t, e, origin.Some?, post); }
    case Rebuilds => RebuildLeavesSide(db, post);
    case OnFiles(fs) => FileStepLeavesCard(db.f, db.t, fs, post, c, ok, now);
    case _ =>
  }

  lemma {:induction false} CardStays(db: Db, steps: seq<Step>, post: Id, c: F.CardRow, ok: bool, now: int)
    requires ReplayLaws.Derived(db) && post in db.t.posts && IsCard(db.f, post, c, ok, now)
    requires forall i :: 0 <= i < |steps| ==> !Deletes(steps[i], post) && !WritesCard(steps[i], post)
    ensures var db1 := Run(db, steps); ReplayLaws.Derived(db1) && post in db1.t.posts && IsCard(db1.f, post, c, ok, now)
    decreases |steps|
  {
    if steps != [] {
      var front, s := steps[..|steps| - 1], steps[|steps| - 1];
      CardStays(db, front, post, c, ok, now);
      StepLeavesCard(Run(db, front), s, post, c, ok, now);
      StaysHeld(Run(db, front), s, post);
      ReplayLaws.NextKeeps(Run(db, front), s);
    }
  }

  /** A post's card is read, however much later, with what was fetched for it last, or as the bare
      link when that failed, until it is set anew or its post goes. */
  lemma CardIsRead(db: Db, post: Id, c: F.CardRow, ok: bool, size: int, mime: string, now: int, more: seq<Step>)
    requires ReplayLaws.Derived(db) && post in db.t.posts
    requires forall i :: 0 <= i < |more| ==> !Deletes(more[i], post) && !WritesCard(more[i], post)
    ensures IsCard(Run(Next(db, OnFiles(F.SetsCard(post, c, ok, size, mime, now))), more).f, post, c, ok, now)
  {
    CardStays(Next(db, OnFiles(F.SetsCard(post, c, ok, size, mime, now))), more, post, c, ok, now);
  }

  /** The row of a linked picture as it was set. */
  predicate IsPicture(f: F.Files, post: Id, r: F.PictureRow, ok: bool, now: int)
  {
    post in f.pictures && exists k :: 0 <= k < |f.pictures[post]| && IsRowOf(f.pictures[post][k], r, ok, now)
  }

  predicate IsRowOf(p: F.PictureRow, r: F.PictureRow, ok: bool, now: int)
  {
    && p.url == r.url && p.idx == r.idx && p.ok == ok && p.tries == r.tries && p.ts == now
    && if ok then p.cid == r.cid && p.mime == r.mime else p.cid == None && p.mime == ""
  }

  lemma PutLeaves(rows: seq<F.Picture>, r: F.Picture, k: nat)
    requires k < |rows| && rows[k].url != r.url
    ensures k < |F.PutRow(rows, r)| && F.PutRow(rows, r)[k] == rows[k]
  {
  }

  lemma StepLeavesPicture(db: Db, s: Step, post: Id, r: F.PictureRow, ok: bool, now: int)
    requires ReplayLaws.Derived(db) && post in db.t.posts && !Deletes(s, post) && !WritesPicture(s, post, r.url)
    requires IsPicture(db.f, post, r, ok, now)
    ensures IsPicture(Next(db, s).f, post, r, ok, now)
  {
    var k :| 0 <= k < |db.f.pictures[post]| && IsRowOf(db.f.pictures[post][k], r, ok, now);
    match s
    case Ingests(id, e, at, origin) =>
      if Ingest(db, id, e, at, origin).Ok? { TouchLeavesSide(db.f, db.t, e, origin.Some?, post); }
    case Rebuilds => RebuildLeavesSide(db, post);
    case OnFiles(fs) =>
      if fs.SetsPicture? && fs.post == post {
        PutLeaves(db.f.pictures[post], F.StoredPicture(fs.row, fs.ok, fs.now), k);
        assert IsRowOf(Next(db, s).f.pictures[post][k], r, ok, now);
      }
    case _ =>
  }

  lemma {:induction false} PictureStays(db: Db, steps: seq<Step>, post: Id, r: F.PictureRow, ok: bool, now: int)
    requires ReplayLaws.Derived(db) && post in db.t.posts && IsPicture(db.f, post, r, ok, now)
    requires forall i :: 0 <= i < |steps| ==> !Deletes(steps[i], post) && !WritesPicture(steps[i], post, r.url)
    ensures var db1 := Run(db, steps);
            ReplayLaws.Derived(db1) && post in db1.t.posts && IsPicture(db1.f, post, r, ok, now)
    decreases |steps|
  {
    if steps != [] {
      var front, s := steps[..|steps| - 1], steps[|steps| - 1];
      PictureStays(db, front, post, r, ok, now);
      StepLeavesPicture(Run(db, front), s, post, r, ok, now);
      StaysHeld(Run(db, front), s, post);
      ReplayLaws.NextKeeps(Run(db, front), s);
    }
  }

  lemma PutIsThere(rows: seq<F.Picture>, r: F.Picture) returns (k: nat)
    ensures k < |F.PutRow(rows, r)| && F.PutRow(rows, r)[k] == r
  {
    k := F.FindUrl(rows, r.url);
  }

  /** A linked picture is read as it was last fetched, or as having failed, until it is set anew or its post goes. */
  lemma PictureIsRead(db: Db, post: Id, r: F.PictureRow, ok: bool, size: int, now: int, more: seq<Step>)
    requires ReplayLaws.Derived(db) && post in db.t.posts
    requires forall i :: 0 <= i < |more| ==> !Deletes(more[i], post) && !WritesPicture(more[i], post, r.url)
    ensures IsPicture(Run(Next(db, OnFiles(F.SetsPicture(post, r, ok, size, now))), more).f, post, r, ok, now)
  {
    var db1 := Next(db, OnFiles(F.SetsPicture(post, r, ok, size, now)));
    var k := PutIsThere(F.PictureRows(db.f, post), F.StoredPicture(r, ok, now));
    assert IsRowOf(db1.f.pictures[post][k], r, ok, now);
    PictureStays(db1, more, post, r, ok, now);
  }
}
