/** A pin's refcount against the references there are, one CID at a time. */
module PinLaws {
  import opened Messages
  import opened Derive
  import opened Named
  import F = Files
  import Seqs

  ghost predicate Counted(pins: F.Pins, c: Cid, refs: nat)
  {
    c in pins ==> 0 <= pins[c].refs <= refs
  }

  ghost predicate Exact(pins: F.Pins, c: Cid, refs: nat)
  {
    c in pins ==> pins[c].refs == refs
  }

  // ---- what a message adds and takes away ----

  function Added(t: Tables, e: Envelope): seq<Cid>
  {
    match e.op
    case ProfileSet(_, _, avatar) => if avatar != F.OldAvatar(t, e.pid) then OptSeq(avatar) else []
    case PostCreate(_, _, embeds) => F.EmbedCids(embeds)
    case _ => []
  }

  function Taken(t: Tables, e: Envelope): seq<Cid>
  {
    match e.op
    case ProfileSet(_, _, avatar) => if avatar != F.OldAvatar(t, e.pid) then OptSeq(F.OldAvatar(t, e.pid)) else []
    case PostDelete(post) => F.PostCids(t, post)
    case _ => []
  }

  function TakenSide(f: F.Files, e: Envelope): seq<Cid>
  {
    if e.op.PostDelete? then F.SideCids(f, e.op.post) else []
  }

  /** No message both adds and takes references of one file. */
  lemma AddsOrTakes(t: Tables, e: Envelope, c: Cid)
    ensures Count(Added(t, e), c) == 0 || Count(Taken(t, e), c) == 0
  {
  }

  lemma ProfileMoves(t: Tables, e: Envelope, name: string, bio: string, avatar: Option<Cid>, received: int, c: Cid)
    requires e.op == ProfileSet(name, bio, avatar)
    ensures F.LogRefs(TakeProfile(t, e, name, bio, avatar, received), c) + Count(Taken(t, e), c) ==
            F.LogRefs(t, c) + Count(Added(t, e), c)
  {
    var t1 := TakeProfile(t, e, name, bio, avatar, received);
    assert F.NamedByEmbeds(t1) == F.NamedByEmbeds(t);
    AllUpdate(F.NamedByProfiles(t), F.NamedByProfiles(t1), e.pid, OptSeq(avatar), c);
  }

  lemma CreateMoves(t: Tables, id: Id, p: Post, embeds: seq<Embed>, c: Cid)
    requires TakeCreate(t, id, p, embeds).Ok?
    ensures F.LogRefs(TakeCreate(t, id, p, embeds).value, c) == F.LogRefs(t, c) + Count(F.EmbedCids(embeds), c)
  {
    var t1 := TakeCreate(t, id, p, embeds).value;
    assert F.NamedByProfiles(t1) == F.NamedByProfiles(t);
    AllUpdate(F.NamedByEmbeds(t), F.NamedByEmbeds(t1), id, F.EmbedCids(embeds), c);
  }

  lemma DeleteMoves(t: Tables, pid: Pid, post: Id, c: Cid)
    requires TakeDelete(t, pid, post).Ok?
    ensures F.LogRefs(TakeDelete(t, pid, post).value, c) + Count(F.PostCids(t, post), c) == F.LogRefs(t, c)
  {
    var t1 := TakeDelete(t, pid, post).value;
    assert F.NamedByProfiles(t1) == F.NamedByProfiles(t);
    AllRemove(F.NamedByEmbeds(t), F.NamedByEmbeds(t1), post, c);
  }

  lemma OtherMoves(t: Tables, id: Id, e: Envelope, received: int, replay: bool, c: Cid)
    requires Materialize(t, id, e, received, replay).Ok?
    requires !e.op.ProfileSet? && !e.op.PostCreate? && !e.op.PostDelete?
    ensures F.LogRefs(Materialize(t, id, e, received, replay).value, c) == F.LogRefs(t, c)
  {
    OtherTables(t, id, e, received, replay);
    var t1 := Materialize(t, id, e, received, replay).value;
    assert F.NamedByEmbeds(t1) == F.NamedByEmbeds(t);
    assert F.NamedByProfiles(t1) == F.NamedByProfiles(t);
  }

  /** The references the log is behind move by what the message adds and takes. */
  lemma LogRefsMove(t: Tables, id: Id, e: Envelope, received: int, replay: bool, c: Cid)
    requires Materialize(t, id, e, received, replay).Ok?
    ensures F.LogRefs(Materialize(t, id, e, received, replay).value, c) + Count(Taken(t, e), c) ==
            F.LogRefs(t, c) + Count(Added(t, e), c)
  {
    match e.op
    case ProfileSet(name, bio, avatar) =>
      ProfileMoves(t, e, name, bio, avatar, received, c);
    case PostCreate(text, replyTo, embeds) =>
      CreateMoves(t, id, Post(e.pid, text, replyTo, e.ts, received, received, None), embeds, c);
    case PostDelete(post) =>
      DeleteMoves(t, e.pid, post, c);
    case _ =>
      OtherMoves(t, id, e, received, replay, c);
  }

  lemma SideDelete(f: F.Files, post: Id, pins: F.Pins, c: Cid)
    ensures F.SideRefs(F.Files(pins, f.cards - {post}, f.pictures - {post}), c) + Count(F.SideCids(f, post), c) ==
      F.SideRefs(f, c)
  {
    var f1 := F.Files(pins, f.cards - {post}, f.pictures - {post});
    AllRemove(F.NamedByCards(f), F.NamedByCards(f1), post, c);
    AllRemove(F.NamedByPictures(f), F.NamedByPictures(f1), post, c);
    CountConcat(if post in f.cards then OptSeq(f.cards[post].image) else [],
                if post in f.pictures then F.PictureCids(f.pictures[post]) else [], c);
  }

  lemma SameSide(f: F.Files, f1: F.Files, c: Cid)
    requires f1.cards.Keys == f.cards.Keys && (forall p :: p in f.cards ==> f1.cards[p].image == f.cards[p].image)
    requires f1.pictures == f.pictures
    ensures F.SideRefs(f1, c) == F.SideRefs(f, c)
  {
    assert F.NamedByCards(f1) == F.NamedByCards(f);
    assert F.NamedByPictures(f1) == F.NamedByPictures(f);
  }

  /** The references fetched files are behind move by what goes with a deleted post. */
  lemma SideRefsMove(f: F.Files, t: Tables, e: Envelope, replay: bool, c: Cid)
    requires F.Touch(f, t, e, replay).Ok?
    ensures F.SideRefs(F.Touch(f, t, e, replay).value.0, c) + Count(TakenSide(f, e), c) == F.SideRefs(f, c)
  {
    var f1 := F.Touch(f, t, e, replay).value.0;
    if e.op.PostDelete? {
      SideDelete(f, e.op.post, f1.pins, c);
    } else {
      SameSide(f, f1, c);
    }
  }

  /** What becomes of a pin when `add` references come and then `take` go. */
  ghost predicate PinMoved(pins: F.Pins, pins1: F.Pins, c: Cid, add: nat, take: nat)
  {
    && (c in pins1 <==> c in pins && (take == 0 || pins[c].refs + add > take))
    && (c in pins1 ==> pins1[c].refs == pins[c].refs + add - take)
  }

  /** A message moves each pin by what it adds and takes, and unpins exactly what loses its row. */
  lemma TouchPin(f: F.Files, t: Tables, e: Envelope, replay: bool, c: Cid)
    requires F.Touch(f, t, e, replay).Ok?
    ensures var (f1, unpin) := F.Touch(f, t, e, replay).value;
            && PinMoved(f.pins, f1.pins, c, Count(Added(t, e), c), Count(Taken(t, e), c) + Count(TakenSide(f, e), c))
            && (c in unpin <==> c in f.pins && c !in f1.pins)
  {
    match e.op
    case ProfileSet(_, _, avatar) =>
      var was := F.OldAvatar(t, e.pid);
      F.BumpAllAt(f.pins, OptSeq(avatar), c);
      F.DropAllAt(F.BumpAll(f.pins, OptSeq(avatar)), [], OptSeq(was), c);
    case PostCreate(_, _, embeds) =>
      F.BumpEmbedsAll(f.pins, embeds, replay);
      F.BumpAllAt(f.pins, F.EmbedCids(embeds), c);
    case PostDelete(post) =>
      F.DropAllAt(f.pins, [], F.PostCids(t, post) + F.SideCids(f, post), c);
      CountConcat(F.PostCids(t, post), F.SideCids(f, post), c);
    case _ =>
  }

  /** A message keeps counts within the references, and on them when they were; what it
      unpins has then no reference left. */
  lemma MessageMoves(t: Tables, f: F.Files, id: Id, e: Envelope, received: int, replay: bool, c: Cid)
    requires Materialize(t, id, e, received, replay).Ok? && F.Touch(f, t, e, replay).Ok?
    ensures var t1, (f1, unpin) := Materialize(t, id, e, received, replay).value, F.Touch(f, t, e, replay).value;
            && (Counted(f.pins, c, F.Refs(t, f, c)) ==> Counted(f1.pins, c, F.Refs(t1, f1, c)))
            && (Exact(f.pins, c, F.Refs(t, f, c)) ==>
                  Exact(f1.pins, c, F.Refs(t1, f1, c)) && (c in unpin ==> F.Refs(t1, f1, c) == 0))
  {
    LogRefsMove(t, id, e, received, replay, c);
    SideRefsMove(f, t, e, replay, c);
    TouchPin(f, t, e, replay, c);
  }

  // ---- the other writers ----

  lemma SwapMoves(pins: F.Pins, was: Option<Cid>, got: Option<Cid>, size: int, mime: string, now: int,
                  c: Cid, refs: nat, refs1: nat)
    requires refs1 + Count(OptSeq(was), c) == refs + Count(OptSeq(got), c)
    ensures var (p, unpin) := F.Swap(pins, was, got, size, mime, now);
            && (Counted(pins, c, refs) ==> Counted(p, c, refs1))
            && (Exact(pins, c, refs) && (got == Some(c) && got != was && c !in pins ==> refs == 0) ==>
                  Exact(p, c, refs1) && (c in unpin ==> refs1 == 0))
  {
    F.DropAllAt(pins, [], OptSeq(was), c);
  }

  function CardImage(f: F.Files, post: Id): Option<Cid>
  {
    if post in f.cards then f.cards[post].image else None
  }

  function PictureCid(f: F.Files, post: Id, url: string): Option<Cid>
  {
    var rows := F.PictureRows(f, post);
    var i := F.FindUrl(rows, url);
    if i < |rows| then rows[i].cid else None
  }

  lemma CardMoves(f: F.Files, post: Id, row: F.Card, pins: F.Pins, c: Cid)
    ensures F.SideRefs(F.Files(pins, f.cards[post := row], f.pictures), c) + Count(OptSeq(CardImage(f, post)), c) ==
            F.SideRefs(f, c) + Count(OptSeq(row.image), c)
  {
    var f1 := F.Files(pins, f.cards[post := row], f.pictures);
    assert F.NamedByPictures(f1) == F.NamedByPictures(f);
    AllUpdate(F.NamedByCards(f), F.NamedByCards(f1), post, OptSeq(row.image), c);
  }

  lemma CidsSnoc(rows: seq<F.Picture>, c: Cid)
    requires rows != []
    ensures PicturesNaming(rows, c) == PicturesNaming(rows[..|rows| - 1], c) + Count(OptSeq(rows[|rows| - 1].cid), c)
  {
    CountConcat(F.PictureCids(rows[..|rows| - 1]), OptSeq(rows[|rows| - 1].cid), c);
  }

  /** How often a post's pictures name c. */
  ghost function PicturesNaming(rows: seq<F.Picture>, c: Cid): nat { Count(F.PictureCids(rows), c) }

  lemma FrontAndLast(b: seq<F.Picture>)
    requires b != []
    ensures b[..|b| - 1] + [b[|b| - 1]] == b
  {
  }

  lemma {:induction false} PicturesJoin(a: seq<F.Picture>, b: seq<F.Picture>, c: Cid)
    ensures PicturesNaming(a + b, c) == PicturesNaming(a, c) + PicturesNaming(b, c)
    decreases |b|
  {
    if b == [] {
      assert a + b == a;
    } else {
      var front, last := b[..|b| - 1], b[|b| - 1];
      PicturesJoin(a, front, c);
      OneMorePicture(a + front, last, c);
      OneMorePicture(front, last, c);
      FrontAndLast(b);
      Seqs.Assoc(a, front, [last]);
    }
  }

  lemma OneMorePicture(rows: seq<F.Picture>, row: F.Picture, c: Cid)
    ensures PicturesNaming(rows + [row], c) == PicturesNaming(rows, c) + Count(OptSeq(row.cid), c)
  {
    CidsSnoc(rows + [row], c);
    assert (rows + [row])[..|rows + [row]| - 1] == rows;
  }

  lemma PutCids(rows: seq<F.Picture>, i: nat, row: F.Picture, c: Cid)
    requires i < |rows|
    ensures PicturesNaming(rows[i := row], c) + Count(OptSeq(rows[i].cid), c) ==
      PicturesNaming(rows, c) + Count(OptSeq(row.cid), c)
  {
    var a, b := rows[..i], rows[i + 1..];
    OneMorePicture(a, rows[i], c);
    OneMorePicture(a, row, c);
    PicturesJoin(a + [rows[i]], b, c);
    PicturesJoin(a + [row], b, c);
    PutSplits(rows, i, row);
  }

  lemma PutSplits(rows: seq<F.Picture>, i: nat, row: F.Picture)
    requires i < |rows|
    ensures rows == rows[..i] + [rows[i]] + rows[i + 1..] && rows[i := row] == rows[..i] + [row] + rows[i + 1..]
  {
  }

  lemma PutRowCids(rows: seq<F.Picture>, row: F.Picture, c: Cid)
    ensures var i := F.FindUrl(rows, row.url);
            var was := if i < |rows| then rows[i].cid else None;
            Count(F.PictureCids(F.PutRow(rows, row)), c) + Count(OptSeq(was), c) ==
            Count(F.PictureCids(rows), c) + Count(OptSeq(row.cid), c)
  {
    var i := F.FindUrl(rows, row.url);
    if i < |rows| {
      PutCids(rows, i, row, c);
    } else {
      assert (rows + [row])[..|rows|] == rows;
      CountConcat(F.PictureCids(rows), OptSeq(row.cid), c);
    }
  }

  lemma PictureMoves(f: F.Files, post: Id, row: F.Picture, pins: F.Pins, c: Cid)
    ensures F.SideRefs(F.Files(pins, f.cards, f.pictures[post := F.PutRow(F.PictureRows(f, post), row)]), c)
              + Count(OptSeq(PictureCid(f, post, row.url)), c) ==
            F.SideRefs(f, c) + Count(OptSeq(row.cid), c)
  {
    var rows := F.PutRow(F.PictureRows(f, post), row);
    PicturesPut(f, post, rows, pins, c);
    PutRowCids(F.PictureRows(f, post), row, c);
  }

  lemma NamedPut(f: F.Files, f1: F.Files, post: Id, rows: seq<F.Picture>)
    requires f1.pictures == f.pictures[post := rows]
    ensures F.NamedByPictures(f1) == F.NamedByPictures(f)[post := F.PictureCids(rows)]
  {
  }

  lemma SameCardNames(f: F.Files, f1: F.Files)
    requires f1.cards == f.cards
    ensures F.NamedByCards(f1) == F.NamedByCards(f)
  {
  }

  lemma SideIs(f: F.Files, byCards: map<Id, seq<Cid>>, byPictures: map<Id, seq<Cid>>, c: Cid)
    requires byCards == F.NamedByCards(f) && byPictures == F.NamedByPictures(f)
    ensures F.SideRefs(f, c) == All(byCards, c) + All(byPictures, c)
  {
  }

  /** Writing one post's pictures moves the references by what they name. */
  lemma PicturesPut(f: F.Files, post: Id, rows: seq<F.Picture>, pins: F.Pins, c: Cid)
    ensures F.SideRefs(F.Files(pins, f.cards, f.pictures[post := rows]), c) +
      PicturesNaming(F.PictureRows(f, post), c) ==
            F.SideRefs(f, c) + PicturesNaming(rows, c)
  {
    ghost var named := F.NamedByPictures(f);
    SideIs(f, F.NamedByCards(f), named, c);
    var f1 := F.Files(pins, f.cards, f.pictures[post := rows]);
    SameCardNames(f, f1);
    NamedPut(f, f1, post, rows);
    SideIs(f1, F.NamedByCards(f), named[post := F.PictureCids(rows)], c);
    RowsNamed(f, post, c);
    AllUpdate(named, named[post := F.PictureCids(rows)], post, F.PictureCids(rows), c);
  }

  lemma RowsNamed(f: F.Files, post: Id, c: Cid)
    ensures var named := F.NamedByPictures(f);
            PicturesNaming(F.PictureRows(f, post), c) == if post in named then Count(named[post], c) else 0
  {
  }

  /** The CID a step makes a row for when it has none, counting only what the step itself brings. */
  function MakesRow(f: F.Files, s: F.FileStep): Option<Cid>
  {
    match s
    case AddsPin(c, _, _, _, _) => Some(c)
    case AddsMediaPin(c, _, _, _, _) => Some(c)
    case SetsCard(post, card, ok, _, _, _) => if ok && card.image != CardImage(f, post) then card.image else None
    case SetsPicture(post, row, ok, _, _) => if ok && row.cid != PictureCid(f, post, row.url) then row.cid else None
    case _ => None
  }

  /** A row for a CID already named without one comes only from AdoptPin. */
  ghost predicate Adopting(t: Tables, f: F.Files, s: F.FileStep, c: Cid)
  {
    MakesRow(f, s) == Some(c) && c !in f.pins ==> F.Refs(t, f, c) == 0
  }

  lemma CardStep(t: Tables, f: F.Files, post: Id, card: F.CardRow, ok: bool, size: int, mime: string, now: int, c: Cid)
    ensures var (f1, unpin) := F.SetCard(f, post, card, ok, size, mime, now);
            && (Counted(f.pins, c, F.Refs(t, f, c)) ==> Counted(f1.pins, c, F.Refs(t, f1, c)))
            && (Exact(f.pins, c, F.Refs(t, f, c)) && Adopting(t, f, F.SetsCard(post, card, ok, size, mime, now), c) ==>
                  Exact(f1.pins, c, F.Refs(t, f1, c)) && (c in unpin ==> F.Refs(t, f1, c) == 0))
  {
    var f1 := F.SetCard(f, post, card, ok, size, mime, now).0;
    var row := F.StoredCard(card, ok, now);
    CardMoves(f, post, row, f1.pins, c);
    SwapMoves(f.pins, CardImage(f, post), row.image, size, mime, now, c, F.Refs(t, f, c), F.Refs(t, f1, c));
  }

  lemma PictureStep(t: Tables, f: F.Files, post: Id, row: F.PictureRow, ok: bool, size: int, now: int, c: Cid)
    ensures var (f1, unpin) := F.SetPicture(f, post, row, ok, size, now);
            && (Counted(f.pins, c, F.Refs(t, f, c)) ==> Counted(f1.pins, c, F.Refs(t, f1, c)))
            && (Exact(f.pins, c, F.Refs(t, f, c)) && Adopting(t, f, F.SetsPicture(post, row, ok, size, now), c) ==>
                  Exact(f1.pins, c, F.Refs(t, f1, c)) && (c in unpin ==> F.Refs(t, f1, c) == 0))
  {
    var stored := F.StoredPicture(row, ok, now);
    var was := PictureCid(f, post, row.url);
    var p := F.Swap(f.pins, was, stored.cid, size, stored.mime, now).0;
    var f1 := F.Files(p, f.cards, f.pictures[post := F.PutRow(F.PictureRows(f, post), stored)]);
    assert F.SetPicture(f, post, row, ok, size, now).0 == f1;
    PictureMoves(f, post, stored, p, c);
    SwapMoves(f.pins, was, stored.cid, size, stored.mime, now, c, F.Refs(t, f, c), F.Refs(t, f1, c));
  }

  lemma OtherStepMoves(t: Tables, f: F.Files, s: F.FileStep, c: Cid)
    requires !s.SetsCard? && !s.SetsPicture?
    ensures var f1 := F.NextFiles(f, t, s);
            && (Counted(f.pins, c, F.Refs(t, f, c)) ==> Counted(f1.pins, c, F.Refs(t, f1, c)))
            && (Exact(f.pins, c, F.Refs(t, f, c)) && Adopting(t, f, s, c) ==> Exact(f1.pins, c, F.Refs(t, f1, c)))
  {
    SameSide(f, F.NextFiles(f, t, s), c);
  }

  /** Every other writer keeps counts within the references, and on them when rows are adopted. */
  lemma FileStepMoves(t: Tables, f: F.Files, s: F.FileStep, c: Cid)
    ensures var f1 := F.NextFiles(f, t, s);
            && (Counted(f.pins, c, F.Refs(t, f, c)) ==> Counted(f1.pins, c, F.Refs(t, f1, c)))
            && (Exact(f.pins, c, F.Refs(t, f, c)) && Adopting(t, f, s, c) ==> Exact(f1.pins, c, F.Refs(t, f1, c)))
  {
    match s
    case SetsCard(post, card, ok, size, mime, now) => CardStep(t, f, post, card, ok, size, mime, now, c);
    case SetsPicture(post, row, ok, size, now) => PictureStep(t, f, post, row, ok, size, now, c);
    case _ => OtherStepMoves(t, f, s, c);
  }

  /** A row made for a CID by anything but AdoptPin counts its references exactly when none
      named it before: this is where a count falls short. */
  lemma FreshRowIsExactIff(t: Tables, f: F.Files, s: F.FileStep, c: Cid)
    requires c !in f.pins && c in F.NextFiles(f, t, s).pins && !s.AdoptsPin?
    ensures var f1 := F.NextFiles(f, t, s); Exact(f1.pins, c, F.Refs(t, f1, c)) <==> F.Refs(t, f, c) == 0
  {
    match s
    case SetsCard(post, card, ok, size, mime, now) =>
      var row := F.StoredCard(card, ok, now);
      var f1 := F.NextFiles(f, t, s);
      CardMoves(f, post, row, f1.pins, c);
      FreshSwap(f.pins, CardImage(f, post), row.image, size, mime, now, c);
    case SetsPicture(post, row, ok, size, now) =>
      var stored := F.StoredPicture(row, ok, now);
      var f1 := F.NextFiles(f, t, s);
      PictureMoves(f, post, stored, f1.pins, c);
      FreshSwap(f.pins, PictureCid(f, post, row.url), stored.cid, size, stored.mime, now, c);
    case _ => SameSide(f, F.NextFiles(f, t, s), c);
  }

  lemma FreshSwap(pins: F.Pins, was: Option<Cid>, got: Option<Cid>, size: int, mime: string, now: int, c: Cid)
    requires c !in pins && c in F.Swap(pins, was, got, size, mime, now).0
    ensures got == Some(c) && was != got && F.Swap(pins, was, got, size, mime, now).0[c].refs == 1
    ensures Count(OptSeq(got), c) == 1 && Count(OptSeq(was), c) == 0
  {
    F.DropAllAt(pins, [], OptSeq(was), c);
  }

  lemma SwapMakes(pins: F.Pins, was: Option<Cid>, got: Option<Cid>, size: int, mime: string, now: int, c: Cid)
    requires c !in pins && got == Some(c) && was != got
    ensures c in F.Swap(pins, was, got, size, mime, now).0
  {
    F.DropAllAt(pins, [], OptSeq(was), c);
  }

  lemma MakesARow(t: Tables, f: F.Files, s: F.FileStep, c: Cid)
    requires c !in f.pins && MakesRow(f, s) == Some(c)
    ensures c in F.NextFiles(f, t, s).pins && !s.AdoptsPin?
  {
    match s
    case SetsCard(post, card, ok, size, mime, now) =>
      SwapMakes(f.pins, CardImage(f, post), F.StoredCard(card, ok, now).image, size, mime, now, c);
    case SetsPicture(post, row, ok, size, now) =>
      SwapMakes(f.pins, PictureCid(f, post, row.url), F.StoredPicture(row, ok, now).cid, size,
          F.StoredPicture(row, ok, now).mime, now, c);
    case _ =>
  }

  /** From an exact count, a step keeps it exact if and only if it makes no row over references. */
  lemma FileStepExactIff(t: Tables, f: F.Files, s: F.FileStep, c: Cid)
    requires Exact(f.pins, c, F.Refs(t, f, c))
    ensures var f1 := F.NextFiles(f, t, s); Exact(f1.pins, c, F.Refs(t, f1, c)) <==> Adopting(t, f, s, c)
  {
    FileStepMoves(t, f, s, c);
    if !Adopting(t, f, s, c) {
      MakesARow(t, f, s, c);
      FreshRowIsExactIff(t, f, s, c);
    }
  }
}
