/** What every row of the derived tables holds, said of the log alone. */
module Ledger {
  import opened Messages
  import opened Derive
  import opened Hub
  import ReplayLaws
  import FileLaws
  import F = Files

  // ---- rows that messages set and lift by name ----

  datatype Row =
    | OfProfile(pid: Pid)
    | OfBan(target: Pid)
    | OfInvite(key: Key)
    | OfPeer(hub: HubId)
    | OfBookmark(pid: Pid, post: Id)

  /** A message about a row. */
  predicate Speaks(m: Msg, r: Row)
  {
    match r
    case OfProfile(pid) => m.e.op.ProfileSet? && m.e.pid == pid
    case OfBan(target) => (m.e.op.BanSet? || m.e.op.BanLift?) && m.e.op.target == target
    case OfInvite(key) => (m.e.op.InviteSet? || m.e.op.InviteLift?) && m.e.op.key == key
    case OfPeer(hub) => (m.e.op.PeerAdd? || m.e.op.PeerRemove?) && m.e.op.hub == hub
    case OfBookmark(pid, post) =>
      (m.e.op.PostBookmark? && m.e.pid == pid && m.e.op.post == post) || (m.e.op.PostDelete? && m.e.op.post == post)
  }

  /** The last message about a row, and the first. */
  ghost predicate Last(log: seq<Msg>, i: nat, r: Row)
  {
    i < |log| && Speaks(log[i], r) && forall j :: i < j < |log| ==> !Speaks(log[j], r)
  }

  ghost predicate First(log: seq<Msg>, i: nat, r: Row)
  {
    i < |log| && Speaks(log[i], r) && forall j :: 0 <= j < i ==> !Speaks(log[j], r)
  }

  ghost predicate Silent(log: seq<Msg>, r: Row)
  {
    forall i :: 0 <= i < |log| ==> !Speaks(log[i], r)
  }

  lemma {:induction false} LastSpoken(log: seq<Msg>, r: Row) returns (i: nat)
    requires !Silent(log, r)
    ensures Last(log, i, r)
    decreases |log|
  {
    var front := log[..|log| - 1];
    if Speaks(log[|log| - 1], r) {
      i := |log| - 1;
    } else {
      assert forall j :: 0 <= j < |front| ==> front[j] == log[j];
      i := LastSpoken(front, r);
    }
  }

  predicate Stands(t: Tables, r: Row)
  {
    match r
    case OfProfile(pid) => pid in t.profiles
    case OfBan(target) => target in t.bans
    case OfInvite(key) => key in t.invites
    case OfPeer(hub) => hub in t.peers
    case OfBookmark(pid, post) => (pid, post) in t.bookmarks
  }

  /** The row is in both as it is in one, or in neither. */
  predicate SameRow(t: Tables, t1: Tables, r: Row)
  {
    && Stands(t, r) == Stands(t1, r)
    && (Stands(t, r) ==>
          match r
          case OfProfile(pid) => t.profiles[pid] == t1.profiles[pid]
          case OfBan(target) => t.bans[target] == t1.bans[target]
          case OfInvite(key) => t.invites[key] == t1.invites[key]
          case OfPeer(hub) => t.peers[hub] == t1.peers[hub]
          case OfBookmark(pid, post) => t.bookmarks[(pid, post)] == t1.bookmarks[(pid, post)])
  }

  lemma DeleteLeavesRow(t: Tables, pid: Pid, post: Id, r: Row)
    requires TakeDelete(t, pid, post).Ok? && (r.OfBookmark? ==> r.post != post)
    ensures SameRow(t, TakeDelete(t, pid, post).value, r)
  {
  }

  lemma BanLeavesRow(t: Tables, m: Msg, r: Row)
    requires !Speaks(m, r) && (m.e.op.BanSet? || m.e.op.BanLift?)
    ensures SameRow(t, TakePolicy(t, m.e, m.received), r)
  {
  }

  lemma InviteLeavesRow(t: Tables, m: Msg, r: Row)
    requires !Speaks(m, r) && (m.e.op.InviteSet? || m.e.op.InviteLift?)
    ensures SameRow(t, TakePolicy(t, m.e, m.received), r)
  {
  }

  lemma PeerLeavesRow(t: Tables, m: Msg, r: Row)
    requires !Speaks(m, r) && (m.e.op.PeerAdd? || m.e.op.PeerRemove?)
    ensures SameRow(t, TakePolicy(t, m.e, m.received), r)
  {
  }

  lemma BookmarkLeavesRow(t: Tables, pid: Pid, post: Id, on: bool, received: int, r: Row)
    requires r != OfBookmark(pid, post)
    ensures var t1 := TakeBookmark(t, pid, post, on, received, true); t1.Ok? && SameRow(t, t1.value, r)
  {
    var t1 := TakeBookmark(t, pid, post, on, received, true).value;
    assert t1 == t.(bookmarks := t1.bookmarks);
  }

  lemma PolicyLeavesRow(t: Tables, m: Msg, r: Row)
    requires !Speaks(m, r)
    ensures SameRow(t, TakePolicy(t, m.e, m.received), r)
  {
    if m.e.op.BanSet? || m.e.op.BanLift? {
      BanLeavesRow(t, m, r);
    } else if m.e.op.InviteSet? || m.e.op.InviteLift? {
      InviteLeavesRow(t, m, r);
    } else if m.e.op.PeerAdd? || m.e.op.PeerRemove? {
      PeerLeavesRow(t, m, r);
    } else {
      assert TakePolicy(t, m.e, m.received) == t;
    }
  }

  lemma MaterializeLeavesRow(t: Tables, m: Msg, r: Row)
    requires Materialize(t, m.id, m.e, m.received, true).Ok? && !Speaks(m, r)
    ensures SameRow(t, Materialize(t, m.id, m.e, m.received, true).value, r)
  {
    match m.e.op
    case PostDelete(post) => DeleteLeavesRow(t, m.e.pid, post, r);
    case PostCreate(_, _, _) => PostLeavesRow(t, m, r);
    case PostMark(_, _, _) => PostLeavesRow(t, m, r);
    case PostBookmark(post, on) => BookmarkLeavesRow(t, m.e.pid, post, on, m.received, r);
    case ProfileSet(_, _, _) => ProfileLeavesRow(t, m, r);
    case _ => PolicyLeavesRow(t, m, r);
  }

  lemma ProfileLeavesRow(t: Tables, m: Msg, r: Row)
    requires !Speaks(m, r) && m.e.op.ProfileSet?
    ensures SameRow(t, Materialize(t, m.id, m.e, m.received, true).value, r)
  {
  }

  lemma PostLeavesRow(t: Tables, m: Msg, r: Row)
    requires Materialize(t, m.id, m.e, m.received, true).Ok? && !Speaks(m, r) &&
      (m.e.op.PostCreate? || m.e.op.PostMark?)
    ensures SameRow(t, Materialize(t, m.id, m.e, m.received, true).value, r)
  {
  }

  lemma RaiseLeavesRow(t: Tables, e: Envelope, r: Row)
    ensures SameRow(t, RaiseSeq(t, e), r)
  {
  }

  /** A message not about a row leaves it as it was. */
  lemma OthersLeaveRow(t: Tables, m: Msg, r: Row)
    requires Take(t, m.id, m.e, m.received, true).Ok? && !Speaks(m, r)
    ensures SameRow(t, Take(t, m.id, m.e, m.received, true).value, r)
  {
    MaterializeLeavesRow(t, m, r);
    RaiseLeavesRow(Materialize(t, m.id, m.e, m.received, true).value, m.e, r);
  }

  ghost function Upto(log: seq<Msg>, n: nat): Tables
    requires Replayed(log).Ok? && n <= |log|
  {
    ReplayLaws.PrefixReplays(log, n);
    Replayed(log[..n]).value
  }

  lemma UptoNext(log: seq<Msg>, n: nat)
    requires Replayed(log).Ok? && n < |log|
    ensures Take(Upto(log, n), log[n].id, log[n].e, log[n].received, true) == Ok(Upto(log, n + 1))
  {
    ReplayLaws.PrefixSnoc(log, n);
  }

  /** From where a row was last spoken of, it stays. */
  lemma {:induction false} RowStays(log: seq<Msg>, r: Row, from: nat, n: nat)
    requires Replayed(log).Ok? && from <= n <= |log| && forall j :: from <= j < n ==> !Speaks(log[j], r)
    ensures SameRow(Upto(log, from), Upto(log, n), r)
    decreases n
  {
    if from < n {
      RowStays(log, r, from, n - 1);
      UptoNext(log, n - 1);
      OthersLeaveRow(Upto(log, n - 1), log[n - 1], r);
    }
  }

  lemma UptoAll(log: seq<Msg>)
    requires Replayed(log).Ok?
    ensures Upto(log, |log|) == Replayed(log).value && Upto(log, 0) == EMPTY_TABLES
  {
    assert log[..|log|] == log && log[..0] == [];
  }

  /** A row never spoken of does not stand. */
  lemma SilentIsNone(log: seq<Msg>, r: Row)
    requires Replayed(log).Ok? && Silent(log, r)
    ensures !Stands(Replayed(log).value, r)
  {
    UptoAll(log);
    RowStays(log, r, 0, |log|);
  }

  lemma LastWrites(log: seq<Msg>, i: nat, r: Row)
    requires Replayed(log).Ok? && Last(log, i, r)
    ensures Materialize(Upto(log, i), log[i].id, log[i].e, log[i].received, true).Ok?
    ensures SameRow(Materialize(Upto(log, i), log[i].id, log[i].e, log[i].received, true).value, Replayed(log).value, r)
  {
    UptoAll(log);
    UptoNext(log, i);
    RowStays(log, r, i + 1, |log|);
    RaiseLeavesRow(Materialize(Upto(log, i), log[i].id, log[i].e, log[i].received, true).value, log[i].e, r);
  }

  // ---- profiles ----

  lemma {:induction false} FirstNames(log: seq<Msg>, i: nat, pid: Pid, n: nat)
    requires Replayed(log).Ok? && First(log, i, OfProfile(pid)) && i < n <= |log|
    ensures pid in Upto(log, n).profiles
    ensures Upto(log, n).profiles[pid].pubkey == log[i].e.author &&
      Upto(log, n).profiles[pid].created == log[i].received
    decreases n
  {
    UptoNext(log, n - 1);
    if n == i + 1 {
      UptoAll(log);
      RowStays(log, OfProfile(pid), 0, i);
    } else {
      FirstNames(log, i, pid, n - 1);
      if !Speaks(log[n - 1], OfProfile(pid)) { OthersLeaveRow(Upto(log, n - 1), log[n - 1], OfProfile(pid)); }
    }
  }

  /** A profile holds what the last profile.set by its fingerprint said and when that came, with
      the key and the arrival of the first. */
  lemma ProfileIsLastSet(log: seq<Msg>, first: nat, last: nat, pid: Pid)
    requires Replayed(log).Ok? && First(log, first, OfProfile(pid)) && Last(log, last, OfProfile(pid))
    ensures pid in Replayed(log).value.profiles
    ensures var p, op := Replayed(log).value.profiles[pid], log[last].e.op;
            && p.name == op.name && p.bio == op.bio && p.avatar == op.avatar && p.updated == log[last].received
            && p.pubkey == log[first].e.author && p.created == log[first].received
  {
    LastWrites(log, last, OfProfile(pid));
    UptoAll(log);
    FirstNames(log, first, pid, |log|);
  }

  // ---- bans, peers, invites, bookmarks ----

  /** A ban stands exactly when the last word on its target was to set it, and is that message's. */
  lemma BanIsLastSet(log: seq<Msg>, i: nat, target: Pid)
    requires Replayed(log).Ok? && Last(log, i, OfBan(target))
    ensures var bans := Replayed(log).value.bans;
            && (target in bans <==> log[i].e.op.BanSet?)
            && (target in bans ==> bans[target] == Ban(log[i].e.op.reason, log[i].e.pid, log[i].received))
  {
    LastWrites(log, i, OfBan(target));
  }

  /** A peer is held exactly when the last word on it was to add it, at that message's address. */
  lemma PeerIsLastAdded(log: seq<Msg>, i: nat, hub: HubId)
    requires Replayed(log).Ok? && Last(log, i, OfPeer(hub))
    ensures var peers := Replayed(log).value.peers;
            && (hub in peers <==> log[i].e.op.PeerAdd?)
            && (hub in peers ==> peers[hub] == Peer(log[i].e.op.addr, log[i].e.pid, log[i].received))
  {
    LastWrites(log, i, OfPeer(hub));
    var t, m := Upto(log, i), log[i];
    assert Materialize(t, m.id, m.e, m.received, true) == Ok(TakePolicy(t, m.e, m.received));
  }

  /** Whom an invite was first set for stays through the sets after it. */
  lemma {:induction false} InviteKeepsProfile(log: seq<Msg>, k: nat, key: Key, n: nat)
    requires Replayed(log).Ok? && k < n <= |log| && log[k].e.op.InviteSet? && log[k].e.op.key == key
    requires key !in Upto(log, k).invites
    requires forall j :: k < j < n && Speaks(log[j], OfInvite(key)) ==> log[j].e.op.InviteSet?
    ensures key in Upto(log, n).invites && Upto(log, n).invites[key].profile == log[k].e.op.profile
    decreases n
  {
    UptoNext(log, n - 1);
    if n > k + 1 {
      InviteKeepsProfile(log, k, key, n - 1);
      if !Speaks(log[n - 1], OfInvite(key)) { OthersLeaveRow(Upto(log, n - 1), log[n - 1], OfInvite(key)); }
    }
  }

  /** An invite stands exactly when the last word on its key was to set it. */
  lemma InviteIsLastSet(log: seq<Msg>, i: nat, key: Key)
    requires Replayed(log).Ok? && Last(log, i, OfInvite(key))
    ensures var invites := Replayed(log).value.invites;
            && (key in invites <==> log[i].e.op.InviteSet?)
            && (key in invites ==>
                  invites[key] == Invite(invites[key].profile, log[i].e.op.note, log[i].e.pid, log[i].received))
  {
    LastWrites(log, i, OfInvite(key));
  }

  /** And it is for whom the first set since the last lift named. */
  lemma InviteIsForFirst(log: seq<Msg>, k: nat, key: Key)
    requires Replayed(log).Ok? && k < |log| && log[k].e.op.InviteSet? && log[k].e.op.key == key
    requires Silent(log[..k], OfInvite(key)) ||
             exists j: nat :: Last(log[..k], j, OfInvite(key)) && log[j].e.op.InviteLift?
    requires forall j :: k < j < |log| && Speaks(log[j], OfInvite(key)) ==> log[j].e.op.InviteSet?
    ensures key in Replayed(log).value.invites && Replayed(log).value.invites[key].profile == log[k].e.op.profile
  {
    ReplayLaws.PrefixReplays(log, k);
    if Silent(log[..k], OfInvite(key)) {
      SilentIsNone(log[..k], OfInvite(key));
    } else {
      var j: nat :| Last(log[..k], j, OfInvite(key)) && log[j].e.op.InviteLift?;
      InviteIsLastSet(log[..k], j, key);
    }
    InviteKeepsProfile(log, k, key, |log|);
    UptoAll(log);
  }

  /** Boxes and bookmarks are of posts that are here. */
  ghost predicate OfHeld(t: Tables)
  {
    (forall k :: k in t.marks ==> k.0 in t.posts) && forall k :: k in t.bookmarks ==> k.1 in t.posts
  }

  lemma DeleteOfHeld(t: Tables, pid: Pid, post: Id)
    requires OfHeld(t) && TakeDelete(t, pid, post).Ok?
    ensures OfHeld(TakeDelete(t, pid, post).value)
  {
    DeletePostKeys(t.posts, post);
  }

  lemma CreateOfHeld(t: Tables, id: Id, p: Post, embeds: seq<Embed>)
    requires OfHeld(t) && TakeCreate(t, id, p, embeds).Ok?
    ensures OfHeld(TakeCreate(t, id, p, embeds).value)
  {
    CreatePostKeys(t.posts, id, p);
  }

  lemma PolicyOfHeld(t: Tables, e: Envelope, received: int)
    requires OfHeld(t)
    ensures OfHeld(TakePolicy(t, e, received))
  {
  }

  lemma MarkOfHeld(t: Tables, pid: Pid, post: Id, box: nat, m: Mark)
    requires OfHeld(t) && TakeMark(t, pid, post, box, m).Ok?
    ensures OfHeld(TakeMark(t, pid, post, box, m).value)
  {
  }

  lemma BookmarkOfHeld(t: Tables, pid: Pid, post: Id, on: bool, received: int)
    requires OfHeld(t) && TakeBookmark(t, pid, post, on, received, true).Ok?
    ensures OfHeld(TakeBookmark(t, pid, post, on, received, true).value)
  {
  }

  lemma RaiseOfHeld(t: Tables, e: Envelope)
    requires OfHeld(t)
    ensures OfHeld(RaiseSeq(t, e))
  {
  }

  lemma TakeOfHeld(t: Tables, m: Msg)
    requires OfHeld(t) && Take(t, m.id, m.e, m.received, true).Ok?
    ensures OfHeld(Take(t, m.id, m.e, m.received, true).value)
  {
    if m.e.op.PostCreate? {
      CreateOfHeld(t, m.id, Post(m.e.pid, m.e.op.text, m.e.op.replyTo, m.e.ts, m.received, m.received, None),
          m.e.op.embeds);
    } else if m.e.op.PostDelete? {
      DeleteOfHeld(t, m.e.pid, m.e.op.post);
    } else if m.e.op.PostMark? {
      MarkOfHeld(t, m.e.pid, m.e.op.post, m.e.op.box, Mark(m.e.op.done, m.e.ts, m.id));
    } else if m.e.op.PostBookmark? {
      BookmarkOfHeld(t, m.e.pid, m.e.op.post, m.e.op.on, m.received);
    } else if m.e.op.ProfileSet? {
      var t1 := TakeProfile(t, m.e, m.e.op.name, m.e.op.bio, m.e.op.avatar, m.received);
      assert t1.posts == t.posts && t1.marks == t.marks && t1.bookmarks == t.bookmarks;
    } else {
      PolicyOfHeld(t, m.e, m.received);
    }
    RaiseOfHeld(Materialize(t, m.id, m.e, m.received, true).value, m.e);
  }

  lemma {:induction false} AllOfHeld(log: seq<Msg>)
    requires Replayed(log).Ok?
    ensures OfHeld(Replayed(log).value)
    decreases |log|
  {
    if log != [] {
      AllOfHeld(log[..|log| - 1]);
      TakeOfHeld(Replayed(log[..|log| - 1]).value, log[|log| - 1]);
    }
  }

  /** A bookmark stands exactly when the last word on it was to set it, while the post was here. */
  lemma BookmarkIsLastSet(log: seq<Msg>, i: nat, pid: Pid, post: Id)
    requires Replayed(log).Ok? && Last(log, i, OfBookmark(pid, post))
    ensures var marked, op := Replayed(log).value.bookmarks, log[i].e.op;
            && ((pid, post) in marked <==> op.PostBookmark? && op.on && post in Upto(log, i).posts)
            && ((pid, post) in marked ==> marked[(pid, post)] == log[i].received)
  {
    LastWrites(log, i, OfBookmark(pid, post));
    ReplayLaws.PrefixReplays(log, i);
    AllOfHeld(log[..i]);
  }

  // ---- posts ----

  /** The row of a post created by m, its thread columns apart, and its embeds. */
  ghost predicate IsOf(t: Tables, m: Msg)
    requires m.e.op.PostCreate?
  {
    && m.id in t.posts && m.id in t.embeds && t.embeds[m.id] == m.e.op.embeds
    && var p := t.posts[m.id];
       && p.author == m.e.pid && p.text == m.e.op.text && p.replyTo == m.e.op.replyTo
       && p.ts == m.e.ts && p.received == m.received
  }

  predicate Creates(m: Msg, x: Id) { m.e.op.PostCreate? && m.id == x }
  predicate Deletes(m: Msg, x: Id) { m.e.op.PostDelete? && m.e.op.post == x }

  lemma CreateIsOf(t: Tables, m: Msg)
    requires m.e.op.PostCreate? && Take(t, m.id, m.e, m.received, true).Ok?
    ensures IsOf(Take(t, m.id, m.e, m.received, true).value, m)
  {
  }

  lemma EmbedsStay(t: Tables, m: Msg, x: Id)
    requires Materialize(t, m.id, m.e, m.received, true).Ok? && x in t.embeds && !Deletes(m, x)
    ensures var t1 := Materialize(t, m.id, m.e, m.received, true).value; x in t1.embeds && t1.embeds[x] == t.embeds[x]
  {
    if !m.e.op.PostCreate? && !m.e.op.PostDelete? { OtherTables(t, m.id, m.e, m.received, true); }
  }

  lemma OthersLeavePost(t: Tables, m: Msg, c: Msg)
    requires c.e.op.PostCreate? && IsOf(t, c) && !Deletes(m, c.id) && Take(t, m.id, m.e, m.received, true).Ok?
    ensures IsOf(Take(t, m.id, m.e, m.received, true).value, c)
  {
    PostStays(t, m.id, m.e, m.received, true, c.id);
    EmbedsStay(t, m, c.id);
  }

  lemma {:induction false} CreatedStays(log: seq<Msg>, i: nat, n: nat)
    requires Replayed(log).Ok? && i < n <= |log| && log[i].e.op.PostCreate?
    requires forall j :: i < j < n ==> !Deletes(log[j], log[i].id)
    ensures IsOf(Upto(log, n), log[i])
    decreases n
  {
    UptoNext(log, n - 1);
    if n == i + 1 {
      CreateIsOf(Upto(log, i), log[i]);
    } else {
      CreatedStays(log, i, n - 1);
      OthersLeavePost(Upto(log, n - 1), log[n - 1], log[i]);
    }
  }

  /** A held post was created by a message of the log that no later one deletes. */
  lemma {:induction false} HeldWasCreated(log: seq<Msg>, x: Id, n: nat) returns (i: nat)
    requires Replayed(log).Ok? && n <= |log| && x in Upto(log, n).posts
    ensures i < n && Creates(log[i], x) && forall j :: i < j < n ==> !Deletes(log[j], x)
    decreases n
  {
    if n == 0 { UptoAll(log); }
    var m := log[n - 1];
    UptoNext(log, n - 1);
    ReplayLaws.PostsOf(Upto(log, n - 1), m.id, m.e, m.received, true);
    if x in Upto(log, n - 1).posts {
      i := HeldWasCreated(log, x, n - 1);
    } else {
      i := n - 1;
    }
  }

  /** Whoever's message deletes or marks a post created it: the log holds the create, by the same fingerprint. */
  lemma OwnersAct(log: seq<Msg>, j: nat) returns (i: nat)
    requires Replayed(log).Ok? && j < |log| && (log[j].e.op.PostDelete? || log[j].e.op.PostMark?)
    ensures i < j && Creates(log[i], log[j].e.op.post) && log[i].e.pid == log[j].e.pid
  {
    var x := log[j].e.op.post;
    UptoNext(log, j);
    i := HeldWasCreated(log, x, j);
    CreatedStays(log, i, j);
  }

  /** A post is here exactly when its create is in the log and no delete of it is. */
  lemma HeldIffNotDeleted(log: seq<Msg>, i: nat)
    requires Replayed(log).Ok? && ReplayLaws.DistinctIds(log) && i < |log| && log[i].e.op.PostCreate?
    ensures log[i].id in Replayed(log).value.posts <==> forall j :: 0 <= j < |log| ==> !Deletes(log[j], log[i].id)
  {
    var x := log[i].id;
    UptoAll(log);
    if x in Replayed(log).value.posts {
      var k := HeldWasCreated(log, x, |log|);
      forall j | 0 <= j < |log|
        ensures !Deletes(log[j], x)
      {
        if Deletes(log[j], x) { var l := OwnersAct(log, j); }
      }
    } else if forall j :: 0 <= j < |log| ==> !Deletes(log[j], x) {
      CreatedStays(log, i, |log|);
    }
  }

  /** And it then is what its own create said, thread columns apart. */
  lemma PostIsItsCreate(log: seq<Msg>, x: Id) returns (i: nat)
    requires Replayed(log).Ok? && x in Replayed(log).value.posts
    ensures i < |log| && Creates(log[i], x) && IsOf(Replayed(log).value, log[i])
  {
    UptoAll(log);
    i := HeldWasCreated(log, x, |log|);
    CreatedStays(log, i, |log|);
  }

  // ---- numbers ----

  /** An author's number is the highest of the author's messages. */
  lemma {:induction false} SeqIsHighest(log: seq<Msg>, author: Key)
    requires Replayed(log).Ok?
    ensures var seqs := Replayed(log).value.seqs;
            && (forall i :: 0 <= i < |log| && log[i].e.author == author ==>
               author in seqs && log[i].e.seqNo <= seqs[author])
            && (author in seqs ==>
                  exists i :: 0 <= i < |log| && log[i].e.author == author && log[i].e.seqNo == seqs[author])
    decreases |log|
  {
    if log != [] {
      var front, m := log[..|log| - 1], log[|log| - 1];
      var t := Replayed(front).value;
      SeqIsHighest(front, author);
      SeqsStay(t, m.id, m.e, m.received, true);
      var seqs := Replayed(log).value.seqs;
      if author in seqs {
        if m.e.author == author && m.e.seqNo == seqs[author] {
          assert log[|log| - 1] == m;
        } else {
          var i :| 0 <= i < |front| && front[i].e.author == author && front[i].e.seqNo == seqs[author];
          assert log[i] == front[i];
        }
      }
    }
  }

  /** A message taken here has a number past all its author's before it. */
  ghost predicate OwnRise(log: seq<Msg>)
  {
    forall i, j :: 0 <= i < j < |log| && log[j].origin.None? && log[i].e.author == log[j].e.author ==>
      log[i].e.seqNo < log[j].e.seqNo
  }

  /** And from one hub no author's number is taken twice. */
  ghost predicate UsedOnce(log: seq<Msg>)
  {
    forall i, j :: 0 <= i < j < |log| && log[i].e.author == log[j].e.author && log[i].origin == log[j].origin ==>
      log[i].e.seqNo != log[j].e.seqNo
  }

  lemma IngestRises(db: Db, id: Id, e: Envelope, now: int, origin: Option<HubId>)
    requires ReplayLaws.Derived(db) && OwnRise(db.log) && UsedOnce(db.log) && Ingest(db, id, e, now, origin).Ok?
    ensures var log := Ingest(db, id, e, now, origin).value.0.log; OwnRise(log) && UsedOnce(log)
  {
    SeqIsHighest(db.log, e.author);
  }

  /** Over every run a message taken here has a number past all its author's before it, and no
      author's number comes twice from one hub. */
  lemma {:induction false} NumbersRise(steps: seq<Step>)
    ensures OwnRise(Run(EMPTY, steps).log) && UsedOnce(Run(EMPTY, steps).log)
    decreases |steps|
  {
    if steps != [] {
      var db, s := Run(EMPTY, steps[..|steps| - 1]), steps[|steps| - 1];
      NumbersRise(steps[..|steps| - 1]);
      ReplayLaws.RunKeeps(steps[..|steps| - 1]);
      match s
      case Ingests(id, e, now, origin) => if Ingest(db, id, e, now, origin).Ok? { IngestRises(db, id, e, now, origin); }
      case Rebuilds => ReplayLaws.RebuildKeeps(db);
      case _ =>
    }
  }

  // ---- which messages are taken ----

  /** The log has the post's create, by the one named if one is, and no delete of it. */
  ghost predicate Made(log: seq<Msg>, x: Id, maker: Option<Pid>)
  {
    && (exists i :: 0 <= i < |log| && Creates(log[i], x) && (maker.Some? ==> log[i].e.pid == maker.value))
    && forall j :: 0 <= j < |log| ==> !Deletes(log[j], x)
  }

  lemma MadeIffHeld(db: Db, x: Id)
    requires ReplayLaws.Derived(db)
    ensures Made(db.log, x, None) <==> x in db.t.posts
    ensures forall p: Pid :: Made(db.log, x, Some(p)) <==> x in db.t.posts && db.t.posts[x].author == p
  {
    if x in db.t.posts {
      var i := PostIsItsCreate(db.log, x);
      HeldIffNotDeleted(db.log, i);
      assert forall k :: 0 <= k < |db.log| && Creates(db.log[k], x) ==> k == i;
    } else {
      forall i | 0 <= i < |db.log| && Creates(db.log[i], x)
        ensures exists j :: 0 <= j < |db.log| && Deletes(db.log[j], x)
      {
        HeldIffNotDeleted(db.log, i);
      }
    }
  }

  /** Who may delete or mark a post, and what may be bookmarked. */
  ghost predicate Rightful(log: seq<Msg>, e: Envelope, here: bool)
  {
    match e.op
    case PostDelete(post) => Made(log, post, Some(e.pid))
    case PostMark(post, _, _) => Made(log, post, Some(e.pid))
    case PostBookmark(post, on) => on && here ==> Made(log, post, None)
    case _ => true
  }

  lemma MaterializeIff(db: Db, id: Id, e: Envelope, now: int, origin: Option<HubId>)
    requires ReplayLaws.Derived(db) && !Logged(db.log, id)
    ensures Materialize(db.t, id, e, now, origin.Some?).Ok? <==> Rightful(db.log, e, origin.None?)
  {
    if e.op.PostDelete? || e.op.PostMark? || e.op.PostBookmark? { MadeIffHeld(db, e.op.post); }
  }

  /** A message that needs its post here. */
  predicate OnPost(e: Envelope, here: bool)
  {
    e.op.PostDelete? || e.op.PostMark? || (e.op.PostBookmark? && e.op.on && here)
  }

  lemma PinErrors(f: F.Files, t: Tables, e: Envelope, replay: bool)
    ensures F.Touch(f, t, e, replay).Err? ==>
              && F.Touch(f, t, e, replay).error in {NoPin, NotAvatar, Error.Facts}
              && (e.op.PostCreate? || e.op.ProfileSet?)
  {
    if e.op.PostCreate? { EmbedErrors(f.pins, e.op.embeds, replay); }
  }

  lemma {:induction false} EmbedErrors(pins: F.Pins, embeds: seq<Embed>, replay: bool)
    ensures F.BumpEmbeds(pins, embeds, replay).Err? ==>
              F.BumpEmbeds(pins, embeds, replay).error in {NoPin, Error.Facts}
    decreases |embeds|
  {
    if embeds != [] { EmbedErrors(pins, embeds[..|embeds| - 1], replay); }
  }

  /** The number is past all the author's, the first past nought. */
  ghost predicate NumberIsNew(log: seq<Msg>, e: Envelope)
  {
    && (forall i :: 0 <= i < |log| && log[i].e.author == e.author ==> log[i].e.seqNo < e.seqNo)
    && (e.seqNo > 0 || exists i :: 0 <= i < |log| && log[i].e.author == e.author)
  }

  lemma NumberIsNewIff(db: Db, e: Envelope)
    requires ReplayLaws.Derived(db)
    ensures NumberIsNew(db.log, e) <==> e.seqNo > LastSeq(db.t, e.author)
  {
    SeqIsHighest(db.log, e.author);
  }

  /** A message is taken exactly when it is not in the log, its number was not used from where it
      comes, it is its author's to send, and, sent here, its number is past the author's others and
      the pins let it in: what comes from a peer is asked neither. */
  lemma TakenIff(db: Db, id: Id, e: Envelope, now: int, origin: Option<HubId>)
    requires ReplayLaws.Derived(db)
    ensures Ingest(db, id, e, now, origin).Ok? <==>
            && (forall i :: 0 <= i < |db.log| ==> db.log[i].id != id)
            && (forall i :: 0 <= i < |db.log| ==>
                  (db.log[i].e.author, db.log[i].e.seqNo, db.log[i].origin) != (e.author, e.seqNo, origin))
            && Rightful(db.log, e, origin.None?)
            && (origin.None? ==> NumberIsNew(db.log, e) && FileLaws.LetIn(db.f, db.t, e))
  {
    if !Logged(db.log, id) {
      MaterializeIff(db, id, e, now, origin);
      NumberIsNewIff(db, e);
      FileLaws.PinsLetIn(db.f, db.t, e);
      ReplayLaws.TouchReplays(db.f, db.t, e);
    }
  }

  lemma MaterializeWhy(db: Db, id: Id, e: Envelope, now: int, here: bool)
    requires ReplayLaws.Derived(db) && !Logged(db.log, id)
    ensures var r := Materialize(db.t, id, e, now, !here);
            && (r.Err? ==> r.error in {NotFound, NotOwner})
            && (r == Err(NotFound) <==> OnPost(e, here) && !Made(db.log, e.op.post, None))
            && (r == Err(NotOwner) <==> (e.op.PostDelete? || e.op.PostMark?) && Made(db.log, e.op.post, None)
                                        && !Made(db.log, e.op.post, Some(e.pid)))
  {
    if e.op.PostDelete? || e.op.PostMark? || e.op.PostBookmark? { MadeIffHeld(db, e.op.post); }
  }

  /** And the sender is told why: a copy, an old number, a post that is not here, another's post,
      in that order. */
  lemma WhyRefused(db: Db, id: Id, e: Envelope, now: int, origin: Option<HubId>)
    requires ReplayLaws.Derived(db)
    ensures var r := Ingest(db, id, e, now, origin);
            var isNew := !Logged(db.log, id) && (origin.None? ==> NumberIsNew(db.log, e));
            && (r == Err(Duplicate) <==> Logged(db.log, id))
            && (r == Err(StaleSeq) <==> !Logged(db.log, id) && !isNew)
            && (r == Err(NotFound) <==> isNew && OnPost(e, origin.None?) && !Made(db.log, e.op.post, None))
            && (r == Err(NotOwner) <==>
                  isNew && (e.op.PostDelete? || e.op.PostMark?) && Made(db.log, e.op.post, None)
                  && !Made(db.log, e.op.post, Some(e.pid)))
  {
    NumberIsNewIff(db, e);
    if !Logged(db.log, id) { MaterializeWhy(db, id, e, now, origin.None?); }
    PinErrors(db.f, db.t, e, origin.Some?);
  }

  // ---- how far a peer was read ----

  predicate Removes(e: Envelope, hub: HubId) { e.op.PeerRemove? && e.op.hub == hub }

  lemma IngestLeavesPeer(db: Db, id: Id, e: Envelope, now: int, origin: Option<HubId>, hub: HubId)
    requires Ingest(db, id, e, now, origin).Ok?
    ensures var was, left := db.peerState, Ingest(db, id, e, now, origin).value.0.peerState;
            if Removes(e, hub) then hub !in left
            else (hub in left <==> hub in was) && (hub in was ==> left[hub] == was[hub])
  {
  }

  /** What was saved of a peer is what is read from, until it is saved anew, the peer is removed or
      the tables are rebuilt. */
  lemma {:induction false} PeerStateStays(db: Db, steps: seq<Step>, hub: HubId)
    requires forall i :: 0 <= i < |steps| ==>
               !steps[i].Rebuilds? && !(steps[i].SetsPeerState? && steps[i].hub == hub) &&
               !(steps[i].Ingests? && Removes(steps[i].e, hub))
    ensures var was, left := db.peerState, Run(db, steps).peerState;
            (hub in left <==> hub in was) && (hub in was ==> left[hub] == was[hub])
    decreases |steps|
  {
    if steps != [] {
      var front, s := steps[..|steps| - 1], steps[|steps| - 1];
      PeerStateStays(db, front, hub);
      if s.Ingests? && Ingest(Run(db, front), s.id, s.e, s.now, s.origin).Ok? {
        IngestLeavesPeer(Run(db, front), s.id, s.e, s.now, s.origin, hub);
      }
    }
  }
}
