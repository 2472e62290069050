/** Refcounted pins, and the link cards and linked pictures whose files they hold. */
module Files {
  import opened Messages
  import opened Named

  datatype Facts = Facts(poster: Option<Cid>, width: nat, height: nat, duration: real, loops: bool)
  /** media is what a conversion measured for the file, when it made it. */
  datatype Pin = Pin(size: int, mime: string, refs: int, isAvatar: bool, created: int, media: Option<Facts>)
  datatype CardRow = CardRow(url: string, host: string, title: string, descr: string, image: Option<Cid>,
                             quote: Option<Id>, ok: bool, ts: int, archive: string, archiveTries: nat, archiveTs: int)
  datatype PictureRow = PictureRow(url: string, idx: nat, cid: Option<Cid>, mime: string, ok: bool, tries: nat, ts: int)
  /** A failed row holds no file, so counting the rows that name a CID is counting the ok ones. */
  type Card = c: CardRow | c.ok || c.image.None? witness CardRow("", "", "", "", None, None, true, 0, "", 0, 0)
  type Picture = r: PictureRow | r.ok || r.cid.None? witness PictureRow("", 0, None, "", true, 0, 0)

  type Pins = map<Cid, Pin>

  /** A post's pictures are its rows, no url twice, in the order they are read. */
  datatype Files = Files(pins: Pins, cards: map<Id, Card>, pictures: map<Id, seq<Picture>>)

  const EMPTY_FILES := Files(map[], map[], map[])

  // ---- what rows name ----

  function EmbedCids(embeds: seq<Embed>): seq<Cid>
  {
    if embeds == [] then []
    else
      var em := embeds[|embeds| - 1];
      EmbedCids(embeds[..|embeds| - 1]) + [em.cid] + OptSeq(em.poster)
  }

  function PictureCids(rows: seq<Picture>): seq<Cid>
  {
    if rows == [] then []
    else PictureCids(rows[..|rows| - 1]) + OptSeq(rows[|rows| - 1].cid)
  }

  ghost function NamedByEmbeds(t: Tables): map<Id, seq<Cid>> { map p | p in t.embeds :: EmbedCids(t.embeds[p]) }
  ghost function NamedByProfiles(t: Tables): map<Pid, seq<Cid>>
  {
    map p | p in t.profiles :: OptSeq(t.profiles[p].avatar)
  }
  ghost function NamedByCards(f: Files): map<Id, seq<Cid>> { map p | p in f.cards :: OptSeq(f.cards[p].image) }
  ghost function NamedByPictures(f: Files): map<Id, seq<Cid>> { map p | p in f.pictures :: PictureCids(f.pictures[p]) }

  /** References the log is behind: embeds, their posters, avatars. */
  ghost function LogRefs(t: Tables, c: Cid): nat
  {
    All(NamedByEmbeds(t), c) + All(NamedByProfiles(t), c)
  }

  /** References that come from fetched files. */
  ghost function SideRefs(f: Files, c: Cid): nat
  {
    All(NamedByCards(f), c) + All(NamedByPictures(f), c)
  }

  ghost function Refs(t: Tables, f: Files, c: Cid): nat
  {
    LogRefs(t, c) + SideRefs(f, c)
  }

  // ---- counting up and down ----

  /** UPDATE pins SET refs=refs+1: nothing for a CID with no row. */
  function Bump(pins: Pins, c: Cid): Pins
  {
    if c in pins then pins[c := pins[c].(refs := pins[c].refs + 1)] else pins
  }

  function BumpAll(pins: Pins, cids: seq<Cid>): Pins
  {
    if cids == [] then pins else Bump(BumpAll(pins, cids[..|cids| - 1]), cids[|cids| - 1])
  }

  /** One reference less; the row goes, and its CID is to be unpinned, when none is left. */
  function DropRef(pins: Pins, unpin: seq<Cid>, c: Cid): (Pins, seq<Cid>)
  {
    if c !in pins then (pins, unpin)
    else if pins[c].refs - 1 <= 0 then (pins - {c}, unpin + [c])
    else (pins[c := pins[c].(refs := pins[c].refs - 1)], unpin)
  }

  function DropAll(pins: Pins, unpin: seq<Cid>, cids: seq<Cid>): (Pins, seq<Cid>)
  {
    if cids == [] then (pins, unpin)
    else
      var (p, u) := DropAll(pins, unpin, cids[..|cids| - 1]);
      DropRef(p, u, cids[|cids| - 1])
  }

  /** Counting a list up. */
  lemma {:induction false} BumpAllAt(pins: Pins, cids: seq<Cid>, c: Cid)
    ensures c in BumpAll(pins, cids) <==> c in pins
    ensures c in pins ==> BumpAll(pins, cids)[c] == pins[c].(refs := pins[c].refs + Count(cids, c))
  {
    if cids != [] {
      BumpAllAt(pins, cids[..|cids| - 1], c);
    }
  }

  /** Counting a list down: a row it names stands exactly when it has more references than are taken. */
  lemma {:induction false} DropAllAt(pins: Pins, unpin: seq<Cid>, cids: seq<Cid>, c: Cid)
    ensures var p := DropAll(pins, unpin, cids).0;
            && (c in p <==> c in pins && (Count(cids, c) == 0 || pins[c].refs > Count(cids, c)))
            && (c in p ==> p[c] == pins[c].(refs := pins[c].refs - Count(cids, c)))
    ensures c in DropAll(pins, unpin, cids).1 <==> c in unpin || (c in pins && c !in DropAll(pins, unpin, cids).0)
  {
    if cids != [] {
      DropAllAt(pins, unpin, cids[..|cids| - 1], c);
    }
  }

  lemma BumpOne(pins: Pins, c: Cid)
    ensures BumpAll(pins, [c]) == Bump(pins, c)
  {
    assert [c][..0] == [];
  }

  lemma DropOne(pins: Pins, unpin: seq<Cid>, c: Cid)
    ensures DropAll(pins, unpin, [c]) == DropRef(pins, unpin, c)
  {
    assert [c][..0] == [];
  }

  lemma {:induction false} DropAllConcat(pins: Pins, unpin: seq<Cid>, a: seq<Cid>, b: seq<Cid>)
    ensures DropAll(pins, unpin, a + b) == DropAll(DropAll(pins, unpin, a).0, DropAll(pins, unpin, a).1, b)
    decreases |b|
  {
    if b == [] {
      assert a + b == a;
    } else {
      assert (a + b)[..|a + b| - 1] == a + b[..|b| - 1];
      DropAllConcat(pins, unpin, a, b[..|b| - 1]);
    }
  }

  /** Three lists released in turn are one list released. */
  lemma DropInTurn(pins: Pins, a: seq<Cid>, b: seq<Cid>, c: seq<Cid>)
    ensures var (p1, u1) := DropAll(pins, [], a);
            var (p2, u2) := DropAll(p1, u1, b);
            DropAll(p2, u2, c) == DropAll(pins, [], a + (b + c))
  {
    DropAllConcat(pins, [], a, b);
    DropAllConcat(pins, [], a + b, c);
    assert a + b + c == a + (b + c);
  }

  // ---- what a message does to the files ----

  predicate FactsAgree(em: Embed, x: Facts)
  {
    (em.poster.None? && em.width == 0 && em.duration == 0.0 && !em.loops) ||
    (em.poster == x.poster && em.width == x.width && em.height == x.height &&
     -0.01 <= em.duration - x.duration <= 0.01 && em.loops == x.loops)
  }

  function BumpEmbed(pins: Pins, em: Embed, replay: bool): Result<Pins>
  {
    if em.cid !in pins && !replay then Err(NoPin)
    else if em.poster.Some? && em.poster.value !in pins && !replay then Err(NoPin)
    else if !replay && pins[em.cid].media.Some? && !FactsAgree(em, pins[em.cid].media.value) then Err(Error.Facts)
    else Ok(BumpAll(pins, [em.cid] + OptSeq(em.poster)))
  }

  function BumpEmbeds(pins: Pins, embeds: seq<Embed>, replay: bool): Result<Pins>
  {
    if embeds == [] then Ok(pins)
    else
      match BumpEmbeds(pins, embeds[..|embeds| - 1], replay)
      case Err(x) => Err(x)
      case Ok(p) => BumpEmbed(p, embeds[|embeds| - 1], replay)
  }

  lemma {:induction false} BumpAllConcat(pins: Pins, a: seq<Cid>, b: seq<Cid>)
    ensures BumpAll(pins, a + b) == BumpAll(BumpAll(pins, a), b)
    decreases |b|
  {
    if b == [] {
      assert a + b == a;
    } else {
      assert (a + b)[..|a + b| - 1] == a + b[..|b| - 1];
      BumpAllConcat(pins, a, b[..|b| - 1]);
    }
  }

  /** Counting the embeds of a post counts every CID they name; a replay never stops. */
  lemma {:induction false} BumpEmbedsAll(pins: Pins, embeds: seq<Embed>, replay: bool)
    ensures replay ==> BumpEmbeds(pins, embeds, replay).Ok?
    ensures BumpEmbeds(pins, embeds, replay).Ok? ==>
              BumpEmbeds(pins, embeds, replay).value == BumpAll(pins, EmbedCids(embeds))
  {
    if embeds != [] {
      var front, em := embeds[..|embeds| - 1], embeds[|embeds| - 1];
      BumpEmbedsAll(pins, front, replay);
      BumpAllConcat(pins, EmbedCids(front), [em.cid] + OptSeq(em.poster));
      assert EmbedCids(front) + ([em.cid] + OptSeq(em.poster)) == EmbedCids(embeds);
    }
  }

  /** The avatar a profile had before, for a ProfileSet. */
  function OldAvatar(t: Tables, pid: Pid): Option<Cid>
  {
    if pid in t.profiles then t.profiles[pid].avatar else None
  }

  /** A new avatar must be a picture this hub minted; replay does not ask. */
  function AvatarError(pins: Pins, was: Option<Cid>, avatar: Option<Cid>, replay: bool): Option<Error>
  {
    if avatar.None? || avatar == was || replay then None
    else if avatar.value !in pins then Some(NoPin)
    else if !pins[avatar.value].isAvatar then Some(NotAvatar) else None
  }

  function SwapAvatar(pins: Pins, was: Option<Cid>, avatar: Option<Cid>): (Pins, seq<Cid>)
  {
    if avatar == was then (pins, []) else DropAll(BumpAll(pins, OptSeq(avatar)), [], OptSeq(was))
  }

  function EmbedCidsOf(embeds: map<Id, seq<Embed>>, post: Id): seq<Cid>
  {
    if post in embeds then EmbedCids(embeds[post]) else []
  }

  function PostCids(t: Tables, post: Id): seq<Cid>
  {
    EmbedCidsOf(t.embeds, post)
  }

  function CardCids(cards: map<Id, Card>, post: Id): seq<Cid>
  {
    if post in cards then OptSeq(cards[post].image) else []
  }

  function PostPictureCids(pictures: map<Id, seq<Picture>>, post: Id): seq<Cid>
  {
    if post in pictures then PictureCids(pictures[post]) else []
  }

  function SideCids(f: Files, post: Id): seq<Cid>
  {
    CardCids(f.cards, post) + PostPictureCids(f.pictures, post)
  }

  /** The files after one message, and the CIDs to unpin. t is the tables before it, and
      the message is one Materialize took. */
  ghost function Touch(f: Files, t: Tables, e: Envelope, replay: bool): Result<(Files, seq<Cid>)>
  {
    match e.op
    case ProfileSet(_, _, avatar) =>
      var was := OldAvatar(t, e.pid);
      (match AvatarError(f.pins, was, avatar, replay)
       case Some(x) => Err(x)
       case None =>
         var (p, unpin) := SwapAvatar(f.pins, was, avatar);
         Ok((f.(pins := p), unpin)))
    case PostCreate(_, _, embeds) =>
      (match BumpEmbeds(f.pins, embeds, replay)
       case Err(x) => Err(x)
       case Ok(p) => Ok((f.(pins := p), [])))
    case PostDelete(post) =>
      var (p, unpin) := DropAll(f.pins, [], PostCids(t, post) + SideCids(f, post));
      Ok((Files(p, f.cards - {post}, f.pictures - {post}), unpin))
    case _ => Ok((f, []))
  }

  // ---- the writers that are not messages ----

  /** A pin for a file that just landed: a new row starts at one reference. */
  function Keep(pins: Pins, c: Cid, size: int, mime: string, now: int): Pins
  {
    if c in pins then Bump(pins, c) else pins[c := Pin(size, mime, 1, false, now, None)]
  }

  /** Replace what a row held by what it holds now, counting both. */
  function Swap(pins: Pins, was: Option<Cid>, got: Option<Cid>, size: int, mime: string, now: int): (Pins, seq<Cid>)
  {
    if was == got then (pins, [])
    else
      var (p, unpin) := DropAll(pins, [], OptSeq(was));
      (if got.Some? then Keep(p, got.value, size, mime, now) else p, unpin)
  }

  /** A card's words as they were fetched; a failed one keeps only its link. */
  function StoredCard(c: CardRow, ok: bool, now: int): Card
  {
    if ok then c.(ok := true, ts := now, archive := "", archiveTries := 0, archiveTs := 0)
    else CardRow(c.url, "", "", "", None, None, false, now, "", 0, 0)
  }

  function SetCard(f: Files, post: Id, c: CardRow, ok: bool, size: int, mime: string, now: int): (Files, seq<Cid>)
  {
    var was := if post in f.cards then f.cards[post].image else None;
    var row: Card := StoredCard(c, ok, now);
    var (p, unpin) := Swap(f.pins, was, row.image, size, mime, now);
    (f.(pins := p, cards := f.cards[post := row]), unpin)
  }

  /** Where the row of a url stands among a post's pictures, |rows| when it has none. */
  function FindUrl(rows: seq<Picture>, url: string): (i: nat)
    ensures i <= |rows|
    ensures i < |rows| ==> rows[i].url == url
    ensures forall j :: 0 <= j < i ==> rows[j].url != url
  {
    if rows == [] then 0 else if rows[0].url == url then 0 else 1 + FindUrl(rows[1..], url)
  }

  function PictureRows(f: Files, post: Id): seq<Picture>
  {
    if post in f.pictures then f.pictures[post] else []
  }

  function PutRow(rows: seq<Picture>, r: Picture): seq<Picture>
  {
    var i := FindUrl(rows, r.url);
    if i < |rows| then rows[i := r] else rows + [r]
  }

  function StoredPicture(r: PictureRow, ok: bool, now: int): Picture
  {
    if ok then r.(ok := true, ts := now) else r.(cid := None, mime := "", ok := false, ts := now)
  }

  function SetPicture(f: Files, post: Id, r: PictureRow, ok: bool, size: int, now: int): (Files, seq<Cid>)
  {
    var rows := PictureRows(f, post);
    var i := FindUrl(rows, r.url);
    var was := if i < |rows| then rows[i].cid else None;
    var row := StoredPicture(r, ok, now);
    var (p, unpin) := Swap(f.pins, was, row.cid, size, row.mime, now);
    (f.(pins := p, pictures := f.pictures[post := PutRow(rows, row)]), unpin)
  }

  /** An upload: staged, with no reference yet. */
  function AddPin(pins: Pins, c: Cid, size: int, mime: string, avatar: bool, now: int): Pins
  {
    if c in pins then pins[c := pins[c].(isAvatar := pins[c].isAvatar || avatar)]
    else pins[c := Pin(size, mime, 0, avatar, now, None)]
  }

  function AddMediaPin(pins: Pins, c: Cid, size: int, mime: string, x: Facts, now: int): Pins
  {
    if c in pins then pins[c := pins[c].(media := Some(x))]
    else pins[c := Pin(size, mime, 0, false, now, Some(x))]
  }

  function Adopted(pins: Pins, c: Cid, size: int, mime: string, avatar: bool, refs: nat, now: int): Pins
  {
    var p := AddPin(pins, c, size, mime, avatar, now);
    p[c := p[c].(refs := refs)]
  }

  /** A file mirrored late: it starts with the references it already has. */
  ghost function AdoptPin(f: Files, t: Tables, c: Cid, size: int, mime: string, avatar: bool, now: int): Files
  {
    f.(pins := Adopted(f.pins, c, size, mime, avatar, Refs(t, f, c), now))
  }

  /** Uploads never referenced and older than cutoff, gone. */
  function SweepStaged(pins: Pins, cutoff: int): (Pins, set<Cid>)
  {
    var taken := set c | c in pins && pins[c].refs == 0 && pins[c].created < cutoff;
    (pins - taken, taken)
  }

  /** A round of archiving opened: counted and stamped, when the card is ok, no post card,
      has no copy, has rounds left and began none lately. */
  predicate MayBegin(c: Card, maxTries: nat, before: int)
  {
    c.ok && c.quote.None? && c.archive == "" && c.archiveTries < maxTries && c.archiveTs < before
  }

  function BeginArchive(cards: map<Id, Card>, post: Id, maxTries: nat, before: int, now: int)
    : (map<Id, Card>, Option<string>)
  {
    if post in cards && MayBegin(cards[post], maxTries, before)
    then (cards[post := cards[post].(archiveTries := cards[post].archiveTries + 1, archiveTs := now)],
        Some(cards[post].url))
    else (cards, None)
  }
  function SetArchive(cards: map<Id, Card>, post: Id, copy: string): map<Id, Card>
  {
    if post in cards then cards[post := cards[post].(archive := copy)] else cards
  }

  // ---- one step on the files ----

  datatype FileStep =
    | SetsCard(post: Id, card: CardRow, ok: bool, size: int, mime: string, now: int)
    | SetsPicture(post: Id, row: PictureRow, ok: bool, size: int, now: int)
    | AddsPin(c: Cid, size: int, mime: string, avatar: bool, now: int)
    | AddsMediaPin(c: Cid, size: int, mime: string, facts: Facts, now: int)
    | AdoptsPin(c: Cid, size: int, mime: string, avatar: bool, now: int)
    | Sweeps(cutoff: int)
    | BeginsArchive(post: Id, maxTries: nat, before: int, now: int)
    | SetsArchive(post: Id, copy: string)

  ghost function NextFiles(f: Files, t: Tables, s: FileStep): Files
  {
    match s
    case SetsCard(post, card, ok, size, mime, now) => SetCard(f, post, card, ok, size, mime, now).0
    case SetsPicture(post, row, ok, size, now) => SetPicture(f, post, row, ok, size, now).0
    case AddsPin(c, size, mime, avatar, now) => f.(pins := AddPin(f.pins, c, size, mime, avatar, now))
    case AddsMediaPin(c, size, mime, facts, now) => f.(pins := AddMediaPin(f.pins, c, size, mime, facts, now))
    case AdoptsPin(c, size, mime, avatar, now) => AdoptPin(f, t, c, size, mime, avatar, now)
    case Sweeps(cutoff) => f.(pins := SweepStaged(f.pins, cutoff).0)
    case BeginsArchive(post, maxTries, before, now) => f.(cards := BeginArchive(f.cards, post, maxTries, before, now).0)
    case SetsArchive(post, copy) => f.(cards := SetArchive(f.cards, post, copy))
  }
}
