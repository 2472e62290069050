/** Signed messages and the tables a hub derives from its log of them. */
module Messages {

  datatype Option<+T> = None | Some(value: T)

  datatype Result<+T> = Ok(value: T) | Err(error: Error)

  /** Why the store refuses a message; Constraint is a key SQLite would not take twice. */
  datatype Error = Duplicate | StaleSeq | NoPin | NotAvatar | Facts | NotFound | NotOwner | Constraint

  /** A message id: the SHA-256 of the envelope, read as a number. Ids are hex text
      of one length, so the text order the queries sort by is the order of numbers. */
  type Id = nat
  /** An author's public key, its 16-hex fingerprint, a hub's id, and an IPFS CID. */
  type Key = nat
  type Pid = nat
  type HubId = nat
  type Cid = nat

  datatype Embed = Embed(cid: Cid, mime: string, filename: string, alt: string,
                         poster: Option<Cid>, width: nat, height: nat, duration: real, loops: bool)

  datatype Op =
    | ProfileSet(name: string, bio: string, avatar: Option<Cid>)
    | PostCreate(text: string, replyTo: Option<Id>, embeds: seq<Embed>)
    | PostDelete(post: Id)
    | PostMark(post: Id, box: nat, done: bool)
    | PostBookmark(post: Id, on: bool)
    | BanSet(target: Pid, reason: string)
    | BanLift(target: Pid)
    | InviteSet(key: Key, profile: Pid, note: string)
    | InviteLift(key: Key)
    | PeerAdd(hub: HubId, addr: string)
    | PeerRemove(hub: HubId)

  /** An envelope already parsed and verified; pid is the fingerprint of author. */
  datatype Envelope = Envelope(author: Key, pid: Pid, seqNo: int, ts: int, op: Op)

  /** A row of the log. origin is None for a message taken here, else the peer it was pulled from. */
  datatype Msg = Msg(id: Id, e: Envelope, received: int, origin: Option<HubId>)

  datatype Post = Post(author: Pid, text: string, replyTo: Option<Id>, ts: int, received: int,
                       activity: int, lastReply: Option<Id>)
  datatype Profile = Profile(pubkey: Key, name: string, bio: string, avatar: Option<Cid>, created: int, updated: int)
  datatype Mark = Mark(done: bool, ts: int, id: Id)
  datatype Ban = Ban(reason: string, admin: Pid, ts: int)
  datatype Invite = Invite(profile: Pid, note: string, admin: Pid, ts: int)
  datatype Peer = Peer(addr: string, addedBy: Pid, ts: int)

  /** The nine tables that are nothing but the log replayed. The embeds of a post are
      its rows in idx order. */
  datatype Tables = Tables(posts: map<Id, Post>, embeds: map<Id, seq<Embed>>, profiles: map<Pid, Profile>,
                           marks: map<(Id, nat), Mark>, bookmarks: map<(Pid, Id), int>, bans: map<Pid, Ban>,
                           invites: map<Key, Invite>, seqs: map<Key, int>, peers: map<HubId, Peer>)

  const EMPTY_TABLES := Tables(map[], map[], map[], map[], map[], map[], map[], map[], map[])
}
