/** A hub's whole store, its operations, and the runs they make. */
module Hub {
  import opened Messages
  import opened Derive
  import F = Files
  import W = Words

  /** How far this hub has read a peer's log, translations and summaries. */
  datatype PeerState = PeerState(cursor: nat, trCursor: nat, sumCursor: nat)

  datatype Db = Db(log: seq<Msg>, t: Tables, f: F.Files, w: W.Words, peerState: map<HubId, PeerState>)

  const EMPTY := Db([], EMPTY_TABLES, F.EMPTY_FILES, W.EMPTY_WORDS, map[])

  ghost function Refs(db: Db, c: Cid): nat { F.Refs(db.t, db.f, c) }

  predicate Logged(log: seq<Msg>, id: Id) { exists i :: 0 <= i < |log| && log[i].id == id }

  /** messages_author_seq_origin: one author's number is used once per origin. */
  predicate SeqTaken(log: seq<Msg>, author: Key, seqNo: int, origin: Option<HubId>)
  {
    exists i :: 0 <= i < |log| && log[i].e.author == author && log[i].e.seqNo == seqNo && log[i].origin == origin
  }

  function LastSeq(t: Tables, author: Key): int
  {
    if author in t.seqs then t.seqs[author] else 0
  }

  /** One op on every table it touches, and the CIDs to unpin. */
  ghost function Apply(db: Db, id: Id, e: Envelope, received: int, replay: bool): Result<(Db, seq<Cid>)>
  {
    match Materialize(db.t, id, e, received, replay)
    case Err(x) => Err(x)
    case Ok(t1) =>
      match F.Touch(db.f, db.t, e, replay)
      case Err(x) => Err(x)
      case Ok((f1, unpin)) =>
        Ok((db.(t := t1, f := f1,
                w := if e.op.PostDelete? then W.ForgetPost(db.w, RootOf(db.t.posts, e.op.post, WALK_STEPS), e.op.post)
                    else db.w,
                peerState := if e.op.PeerRemove? then db.peerState - {e.op.hub} else db.peerState),
            unpin))
  }

  /** One message taken into the store, or the reason it was not. */
  ghost function Ingest(db: Db, id: Id, e: Envelope, now: int, origin: Option<HubId>): Result<(Db, seq<Cid>)>
  {
    if Logged(db.log, id) then Err(Duplicate)
    else if origin.None? && e.seqNo <= LastSeq(db.t, e.author) then Err(StaleSeq)
    else
      match Apply(db, id, e, now, origin.Some?)
      case Err(x) => Err(x)
      case Ok((db1, unpin)) =>
        if SeqTaken(db.log, e.author, e.seqNo, origin) then Err(Constraint)
        else Ok((db1.(log := db.log + [Msg(id, e, now, origin)], t := RaiseSeq(db1.t, e)), unpin))
  }

  // ---- Rebuild ----

  /** Every derived table emptied, every pin's count at nought. */
  function Cleared(db: Db): Db
  {
    db.(t := EMPTY_TABLES, f := db.f.(pins := map c | c in db.f.pins :: db.f.pins[c].(refs := 0)))
  }

  /** The log replayed on top of db. */
  ghost function Replay(db: Db, log: seq<Msg>): Result<Db>
    decreases |log|
  {
    if log == [] then Ok(db)
    else
      match Replay(db, log[..|log| - 1])
      case Err(x) => Err(x)
      case Ok(d) =>
        var m := log[|log| - 1];
        match Apply(d, m.id, m.e, m.received, true)
        case Err(x) => Err(x)
        case Ok((d1, _)) => Ok(d1.(t := RaiseSeq(d1.t, m.e)))
  }

  function HeldCards(cards: map<Id, F.Card>, held: set<Id>): map<Id, F.Card>
  {
    map p | p in cards && p in held :: cards[p]
  }

  function HeldPictures(pictures: map<Id, seq<F.Picture>>, held: set<Id>): map<Id, seq<F.Picture>>
  {
    map p | p in pictures && p in held :: pictures[p]
  }

  ghost function Recounted(pins: F.Pins, side: F.Files): F.Pins
  {
    map c | c in pins :: pins[c].(refs := pins[c].refs + F.SideRefs(side, c))
  }

  /** What outlives a replay: cards, pictures and words of posts that are gone are dropped,
      and the files the rest hold are counted again. */
  ghost function Settle(db: Db): Db
  {
    var cards, pictures := HeldCards(db.f.cards, db.t.posts.Keys), HeldPictures(db.f.pictures, db.t.posts.Keys);
    db.(f := F.Files(Recounted(db.f.pins, F.Files(map[], cards, pictures)), cards, pictures),
        w := W.ForgetOrphans(db.w, db.t.posts.Keys))
  }

  ghost function Rebuild(db: Db): Result<Db>
  {
    match Replay(Cleared(db), db.log)
    case Err(x) => Err(x)
    case Ok(d) => Ok(Settle(d))
  }

  // ---- runs ----

  datatype Step =
    | Ingests(id: Id, e: Envelope, now: int, origin: Option<HubId>)
    | Rebuilds
    | OnFiles(fs: F.FileStep)
    | OnWords(ws: W.WordStep)
    | SetsPeerState(hub: HubId, state: PeerState)

  /** One step; a message refused, like any transaction that fails, changes nothing. */
  ghost function Next(db: Db, s: Step): Db
  {
    match s
    case Ingests(id, e, now, origin) => (match Ingest(db, id, e, now, origin) case Ok((d, _)) => d case Err(_) => db)
    case Rebuilds => (match Rebuild(db) case Ok(d) => d case Err(_) => db)
    case OnFiles(fs) => db.(f := F.NextFiles(db.f, db.t, fs))
    case OnWords(ws) => db.(w := W.NextWords(db.w, db.t.posts, ws))
    case SetsPeerState(hub, state) => db.(peerState := db.peerState[hub := state])
  }

  ghost function Run(db: Db, steps: seq<Step>): Db
    decreases |steps|
  {
    if steps == [] then db else Next(Run(db, steps[..|steps| - 1]), steps[|steps| - 1])
  }
}
