/** Replaying the log lands where live ingestion stands. */
module ReplayLaws {
  import opened Messages
  import opened Derive
  import opened Hub
  import F = Files

  ghost predicate DistinctIds(log: seq<Msg>)
  {
    forall i, j :: 0 <= i < j < |log| ==> log[i].id != log[j].id
  }

  /** What every reachable store keeps: the tables are the log replayed, every post and every
      post with embeds was logged, no id was logged twice. */
  ghost predicate Derived(db: Db)
  {
    && Replayed(db.log) == Ok(db.t)
    && (forall p :: p in db.t.posts ==> Logged(db.log, p))
    && db.t.embeds.Keys == db.t.posts.Keys
    && DistinctIds(db.log)
  }

  lemma ReplayedSnoc(log: seq<Msg>, m: Msg)
    ensures Replayed(log + [m]) ==
            match Replayed(log) case Err(x) => Err(x) case Ok(t) => Take(t, m.id, m.e, m.received, true)
  {
    assert (log + [m])[..|log + [m]| - 1] == log;
  }

  /** A prefix of a replayable log is replayable. */
  lemma {:induction false} PrefixReplays(log: seq<Msg>, n: nat)
    requires Replayed(log).Ok? && n <= |log|
    ensures Replayed(log[..n]).Ok?
    decreases |log|
  {
    if n < |log| {
      PrefixReplays(log[..|log| - 1], n);
      assert log[..|log| - 1][..n] == log[..n];
    } else {
      assert log[..n] == log;
    }
  }

  lemma PrefixSnoc(log: seq<Msg>, n: nat)
    requires Replayed(log).Ok? && n < |log|
    ensures Replayed(log[..n]).Ok? && Replayed(log[..n + 1]).Ok?
    ensures var t, m := Replayed(log[..n]).value, log[n];
            Materialize(t, m.id, m.e, m.received, true).Ok? &&
            Replayed(log[..n + 1]).value == RaiseSeq(Materialize(t, m.id, m.e, m.received, true).value, m.e)
  {
    PrefixReplays(log, n + 1);
    PrefixReplays(log, n);
    assert log[..n + 1][..n] == log[..n];
  }

  /** What was taken live is taken in replay, with the same result: only refusals depend on it. */
  lemma ReplayTakesTheSame(t: Tables, id: Id, e: Envelope, received: int, replay: bool)
    requires Materialize(t, id, e, received, replay).Ok?
    ensures Materialize(t, id, e, received, true) == Materialize(t, id, e, received, replay)
  {
  }

  lemma PostsOfCreate(t: Tables, id: Id, p: Post, embeds: seq<Embed>)
    requires TakeCreate(t, id, p, embeds).Ok?
    ensures var t1 := TakeCreate(t, id, p, embeds).value;
            t1.posts.Keys == t.posts.Keys + {id} && t1.embeds.Keys == t.embeds.Keys + {id}
  {
    CreatePostKeys(t.posts, id, p);
  }

  lemma PostsOfDelete(t: Tables, pid: Pid, post: Id)
    requires TakeDelete(t, pid, post).Ok?
    ensures var t1 := TakeDelete(t, pid, post).value;
            t1.posts.Keys == t.posts.Keys - {post} && t1.embeds.Keys == t.embeds.Keys - {post}
  {
    DeletePostKeys(t.posts, post);
  }

  /** Which posts a message leaves held. */
  ghost predicate HeldAfter(t: Tables, id: Id, e: Envelope, t1: Tables)
  {
    match e.op
    case PostCreate(_, _, _) => t1.posts.Keys == t.posts.Keys + {id} && t1.embeds.Keys == t.embeds.Keys + {id}
    case PostDelete(post) => t1.posts.Keys == t.posts.Keys - {post} && t1.embeds.Keys == t.embeds.Keys - {post}
    case _ => t1.posts == t.posts && t1.embeds == t.embeds
  }

  lemma PostsOf(t: Tables, id: Id, e: Envelope, received: int, replay: bool)
    requires Materialize(t, id, e, received, replay).Ok?
    ensures HeldAfter(t, id, e, Materialize(t, id, e, received, replay).value)
  {
    match e.op
    case PostCreate(text, replyTo, embeds) =>
      PostsOfCreate(t, id, Post(e.pid, text, replyTo, e.ts, received, received, None), embeds);
    case PostDelete(post) =>
      PostsOfDelete(t, e.pid, post);
    case _ =>
      OtherTables(t, id, e, received, replay);
  }

  lemma LoggedSnoc(log: seq<Msg>, m: Msg, p: Id)
    ensures Logged(log + [m], p) <==> Logged(log, p) || p == m.id
  {
    var more := log + [m];
    assert more[|log|] == m && forall i :: 0 <= i < |log| ==> more[i] == log[i];
  }

  /** Taking a message keeps the held posts among the logged ones. */
  lemma HeldStaysLogged(t: Tables, log: seq<Msg>, m: Msg, replay: bool)
    requires Materialize(t, m.id, m.e, m.received, replay).Ok?
    requires forall p :: p in t.posts ==> Logged(log, p)
    requires t.embeds.Keys == t.posts.Keys
    ensures var t1 := Materialize(t, m.id, m.e, m.received, replay).value;
            t1.embeds.Keys == t1.posts.Keys && forall p :: p in t1.posts ==> Logged(log + [m], p)
  {
    PostsOf(t, m.id, m.e, m.received, replay);
    var t1 := Materialize(t, m.id, m.e, m.received, replay).value;
    forall p | p in t1.posts
      ensures Logged(log + [m], p)
    {
      LoggedSnoc(log, m, p);
    }
  }

  lemma IngestKeeps(db: Db, id: Id, e: Envelope, now: int, origin: Option<HubId>)
    requires Derived(db)
    requires Ingest(db, id, e, now, origin).Ok?
    ensures Derived(Ingest(db, id, e, now, origin).value.0)
  {
    var m := Msg(id, e, now, origin);
    ReplayTakesTheSame(db.t, id, e, now, origin.Some?);
    ReplayedSnoc(db.log, m);
    HeldStaysLogged(db.t, db.log, m, origin.Some?);
  }

  /** Files never stop a replay. */
  lemma TouchReplays(f: F.Files, t: Tables, e: Envelope)
    ensures F.Touch(f, t, e, true).Ok?
  {
    if e.op.PostCreate? {
      F.BumpEmbedsAll(f.pins, e.op.embeds, true);
    }
  }

  /** Replay reaches the derived tables whatever stands in the others. */
  lemma {:induction false} ReplayReaches(db: Db, log: seq<Msg>)
    requires db.t == EMPTY_TABLES
    requires Replayed(log).Ok?
    ensures Replay(db, log).Ok? && Replay(db, log).value.t == Replayed(log).value
    ensures Replay(db, log).value.log == db.log
    decreases |log|
  {
    if log != [] {
      var m := log[|log| - 1];
      ReplayReaches(db, log[..|log| - 1]);
      var d := Replay(db, log[..|log| - 1]).value;
      TouchReplays(d.f, d.t, m.e);
    }
  }

  /** Rebuild never fails on a store whose tables are its log's, and leaves them as they were. */
  lemma RebuildKeeps(db: Db)
    requires Derived(db)
    ensures Rebuild(db).Ok?
    ensures Rebuild(db).value.t == db.t && Rebuild(db).value.log == db.log
    ensures Derived(Rebuild(db).value)
  {
    ReplayReaches(Cleared(db), db.log);
  }

  lemma NextKeeps(db: Db, s: Step)
    requires Derived(db)
    ensures Derived(Next(db, s))
  {
    match s
    case Ingests(id, e, now, origin) =>
      if Ingest(db, id, e, now, origin).Ok? {
        IngestKeeps(db, id, e, now, origin);
      }
    case Rebuilds =>
      RebuildKeeps(db);
    case _ =>
  }

  lemma {:induction false} RunKeeps(steps: seq<Step>)
    ensures Derived(Run(EMPTY, steps))
    decreases |steps|
  {
    if steps != [] {
      RunKeeps(steps[..|steps| - 1]);
      NextKeeps(Run(EMPTY, steps[..|steps| - 1]), steps[|steps| - 1]);
    }
  }

  /** After any run of messages taken and refused, cards, pictures, pins, translations,
      summaries and rebuilds, Rebuild succeeds and every table derived from the log is
      exactly as it was live: posts with their activity and last reply, embeds, profiles,
      marks, bookmarks, bans, invites, seqs and peers. */
  lemma ReplayRefinesLive(steps: seq<Step>)
    ensures var db := Run(EMPTY, steps);
            Rebuild(db).Ok? && Rebuild(db).value.t == db.t && Rebuild(db).value.log == db.log
  {
    RunKeeps(steps);
    RebuildKeeps(Run(EMPTY, steps));
  }
}
