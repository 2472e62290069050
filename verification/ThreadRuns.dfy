/** Thread bookkeeping over whole runs of a hub. */
module ThreadRuns {
  import opened Messages
  import opened Derive
  import opened Threads
  import opened Hub
  import ReplayLaws

  ghost function Ids(log: seq<Msg>): set<Id>
  {
    set m | m in log :: m.id
  }

  /** The hub's clock never goes back. */
  predicate Paced(log: seq<Msg>)
  {
    forall i, j :: 0 <= i <= j < |log| ==> log[i].received <= log[j].received
  }

  ghost function PostOf(m: Msg): Post
    requires m.e.op.PostCreate?
  {
    Post(m.e.pid, m.e.op.text, m.e.op.replyTo, m.e.ts, m.received, m.received, None)
  }

  /** A reply whose parent chain, where it stands when it comes, is within the walk. */
  ghost predicate Shallow(t: Tables, m: Msg)
  {
    m.e.op.PostCreate? && m.e.op.replyTo.Some? ==>
      WalkEnds(t.posts[m.id := PostOf(m)], m.e.op.replyTo.value, WALK_STEPS)
  }

  ghost predicate AllShallow(log: seq<Msg>)
  {
    forall i :: 0 <= i < |log| && Replayed(log[..i]).Ok? ==> Shallow(Replayed(log[..i]).value, log[i])
  }

  lemma TakeKeepsThreads(t: Tables, logged: set<Id>, clock: int, m: Msg)
    requires ThreadsOk(t.posts, logged, clock) && m.id !in logged && clock <= m.received && Shallow(t, m)
    requires Materialize(t, m.id, m.e, m.received, true).Ok?
    ensures ThreadsOk(Materialize(t, m.id, m.e, m.received, true).value.posts, logged + {m.id}, m.received)
  {
    match m.e.op
    case PostCreate(text, replyTo, embeds) =>
      CreateKeeps(t.posts, logged, clock, m.id, PostOf(m));
    case PostDelete(post) =>
      DeleteKeeps(t.posts, logged, clock, post);
      Fresher(DeletePost(t.posts, post), logged, clock, logged + {m.id}, m.received);
    case _ =>
      OtherTables(t, m.id, m.e, m.received, true);
      Fresher(t.posts, logged, clock, logged + {m.id}, m.received);
  }

  /** A message that brings no post only moves the clock and the log on. */
  lemma Fresher(posts: Posts, logged: set<Id>, clock: int, more: set<Id>, now: int)
    requires ThreadsOk(posts, logged, clock) && logged <= more && clock <= now
    ensures ThreadsOk(posts, more, now)
  {
    forall y | y in posts && posts[y].lastReply.Some?
      ensures NamesReply(posts, more, y, posts[y].lastReply.value)
    {
      if !Below(posts, posts[y].lastReply.value, y) {
        BrokenStays(posts, posts, logged, more, posts[y].lastReply.value);
      }
    }
  }

  lemma {:induction false} LogKeepsThreads(log: seq<Msg>, clock: int)
    requires Replayed(log).Ok? && Paced(log) && AllShallow(log)
    requires forall i, j :: 0 <= i < j < |log| ==> log[i].id != log[j].id
    requires log != [] ==> clock == log[|log| - 1].received
    ensures ThreadsOk(Replayed(log).value.posts, Ids(log), clock)
    decreases |log|
  {
    if log == [] {
      assert Replayed(log).value.posts == map[];
    } else {
      var front, m := log[..|log| - 1], log[|log| - 1];
      forall i | 0 <= i < |front|
        ensures log[..i] == front[..i]
      {
      }
      var before := if front == [] then m.received else front[|front| - 1].received;
      LogKeepsThreads(front, before);
      assert log[..|log| - 1] == front && Ids(log) == Ids(front) + {m.id};
      TakeKeepsThreads(Replayed(front).value, Ids(front), before, m);
    }
  }

  /** After any run whose clock never went back and whose replies came within the walk: a
      root's activity is no earlier than any reply below it, however deep and in whatever
      order they came; it is the arrival of the reply named by last_reply, a held post no other
      post names, or of the root itself while none is named. */
  lemma ThreadsHold(steps: seq<Step>)
    requires Paced(Run(EMPTY, steps).log) && AllShallow(Run(EMPTY, steps).log)
    ensures var posts := Run(EMPTY, steps).t.posts;
            && (forall r, x :: r in posts && posts[r].replyTo.None? && Below(posts, x, r) ==>
                  posts[r].activity >= posts[x].received)
            && (forall y :: y in posts && posts[y].lastReply.Some? ==> posts[y].lastReply.value in posts)
            && NamesOnce(posts) && Dated(posts)
  {
    var db := Run(EMPTY, steps);
    ReplayLaws.RunKeeps(steps);
    LogKeepsThreads(db.log, if db.log == [] then 0 else db.log[|db.log| - 1].received);
  }
}
