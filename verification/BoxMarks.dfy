/** A to-do box shows the newest mark its author ever made, whatever order the marks came in. */
module BoxMarks {
  import opened Messages
  import opened Derive
  import opened Hub
  import PinRuns
  import ReplayLaws

  predicate Marks(m: Msg, post: Id, box: nat)
  {
    m.e.op.PostMark? && m.e.op.post == post && m.e.op.box == box
  }

  function MarkOf(m: Msg): Mark
    requires m.e.op.PostMark?
  {
    Mark(m.e.op.done, m.e.ts, m.id)
  }

  /** Every mark of a box in the log. */
  ghost function BoxMarks(log: seq<Msg>, post: Id, box: nat): set<Mark>
  {
    set m | m in log && Marks(m, post, box) :: MarkOf(m)
  }

  /** The mark with the greatest (ts, id). */
  ghost predicate Wins(marks: set<Mark>, m: Mark)
  {
    m in marks && forall x :: x in marks && x != m ==> x.ts < m.ts || (x.ts == m.ts && x.id < m.id)
  }

  lemma BoxMarksSnoc(log: seq<Msg>, post: Id, box: nat)
    requires log != []
    ensures var front, m := log[..|log| - 1], log[|log| - 1];
            BoxMarks(log, post, box) == BoxMarks(front, post, box) + if Marks(m, post, box) then {MarkOf(m)} else {}
  {
    var front, m := log[..|log| - 1], log[|log| - 1];
    assert log == front + [m];
  }

  /** A mark in the log is of a post that was here, so was logged. */
  lemma {:induction false} MarkedIsLogged(log: seq<Msg>, i: nat)
    requires Replayed(log).Ok? && i < |log| && log[i].e.op.PostMark?
    ensures Logged(log, log[i].e.op.post)
    decreases |log|
  {
    var front, p := log[..|log| - 1], log[i].e.op.post;
    if i == |log| - 1 {
      PinRuns.HeldIsLogged(front, p);
    } else {
      assert front[i] == log[i];
      MarkedIsLogged(front, i);
    }
    var k :| 0 <= k < |front| && front[k].id == p;
    assert log[k].id == p;
  }

  /** Before its post is created no box of it is marked. */
  lemma NotMarkedBefore(log: seq<Msg>, post: Id, box: nat)
    requires Replayed(log).Ok? && !Logged(log, post)
    ensures BoxMarks(log, post, box) == {}
  {
    if m :| m in log && Marks(m, post, box) {
      var i :| 0 <= i < |log| && log[i] == m;
      MarkedIsLogged(log, i);
    }
  }

  ghost predicate Shows(t: Tables, marks: set<Mark>, post: Id, box: nat)
  {
    if (post, box) in t.marks then Wins(marks, t.marks[(post, box)]) else marks == {}
  }

  lemma MarkShows(t: Tables, marks: set<Mark>, post: Id, box: nat, m: Mark)
    requires Shows(t, marks, post, box) && forall x :: x in marks ==> x.id != m.id
    requires post in t.posts
    ensures Shows(t.(marks := SetMark(t.marks, post, box, m)), marks + {m}, post, box)
  {
  }

  lemma MarkIdsLogged(log: seq<Msg>, post: Id, box: nat, x: Mark)
    requires x in BoxMarks(log, post, box)
    ensures Logged(log, x.id)
  {
    var m :| m in log && Marks(m, post, box) && MarkOf(m) == x;
    var i :| 0 <= i < |log| && log[i] == m;
    assert log[i].id == x.id;
  }

  lemma DeleteElsewhere(t: Tables, pid: Pid, gone: Id, post: Id, box: nat)
    requires TakeDelete(t, pid, gone).Ok? && gone != post
    ensures var t1 := TakeDelete(t, pid, gone).value;
            ((post, box) in t1.marks <==> (post, box) in t.marks) &&
            ((post, box) in t1.marks ==> t1.marks[(post, box)] == t.marks[(post, box)])
  {
  }

  /** A message that is no mark of the box and takes no post away leaves the box alone. */
  lemma Elsewhere(t: Tables, m: Msg, post: Id, box: nat)
    requires Materialize(t, m.id, m.e, m.received, true).Ok?
    requires !Marks(m, post, box) && (m.e.op.PostDelete? ==> m.e.op.post != post)
    ensures var t1 := Materialize(t, m.id, m.e, m.received, true).value;
            ((post, box) in t1.marks <==> (post, box) in t.marks) &&
            ((post, box) in t1.marks ==> t1.marks[(post, box)] == t.marks[(post, box)])
  {
    if m.e.op.PostDelete? {
      DeleteElsewhere(t, m.e.pid, m.e.op.post, post, box);
    } else if !m.e.op.PostMark? && !m.e.op.PostCreate? {
      OtherTables(t, m.id, m.e, m.received, true);
    }
  }

  /** One more message keeps a held post's box on the newest of its marks. */
  lemma TakeShows(t: Tables, marks: set<Mark>, m: Msg, post: Id, box: nat)
    requires Materialize(t, m.id, m.e, m.received, true).Ok?
    requires post in t.posts && Shows(t, marks, post, box)
    requires m.e.op.PostDelete? ==> m.e.op.post != post
    requires forall x :: x in marks ==> x.id != m.id
    ensures Shows(Materialize(t, m.id, m.e, m.received, true).value,
                  marks + (if Marks(m, post, box) then {MarkOf(m)} else {}), post, box)
  {
    if Marks(m, post, box) {
      MarkShows(t, marks, post, box, MarkOf(m));
    } else {
      Elsewhere(t, m, post, box);
      assert marks + {} == marks;
    }
  }

  /** In any store, a held post's box holds the mark with the greatest (ts, id) of all the
      marks of it in the log, and no mark when there is none. */
  lemma {:induction false} BoxHoldsNewest(log: seq<Msg>, post: Id, box: nat)
    requires Replayed(log).Ok? && ReplayLaws.DistinctIds(log)
    requires post in Replayed(log).value.posts
    ensures Shows(Replayed(log).value, BoxMarks(log, post, box), post, box)
    decreases |log|
  {
    var front, m := log[..|log| - 1], log[|log| - 1];
    var t := Replayed(front).value;
    BoxMarksSnoc(log, post, box);
    ReplayLaws.PostsOf(t, m.id, m.e, m.received, true);
    if post in t.posts {
      BoxHoldsNewest(front, post, box);
      forall x | x in BoxMarks(front, post, box)
        ensures x.id != m.id
      {
        MarkIdsLogged(front, post, box, x);
      }
      TakeShows(t, BoxMarks(front, post, box), m, post, box);
    } else {
      assert !Logged(front, post);
      NotMarkedBefore(front, post, box);
      NoMarkRow(front, post, box);
    }
  }

  /** A post that was never logged has no mark row. */
  lemma {:induction false} NoMarkRow(log: seq<Msg>, post: Id, box: nat)
    requires Replayed(log).Ok? && !Logged(log, post)
    ensures (post, box) !in Replayed(log).value.marks
    decreases |log|
  {
    if log != [] {
      var front, m := log[..|log| - 1], log[|log| - 1];
      assert forall k :: 0 <= k < |front| ==> front[k] == log[k];
      NoMarkRow(front, post, box);
      if m.e.op.PostMark? {
        MarkedIsLogged(log, |log| - 1);
      } else if !m.e.op.PostDelete? && !m.e.op.PostCreate? {
        OtherTables(Replayed(front).value, m.id, m.e, m.received, true);
      }
    }
  }

  /** Two hubs that took the same marks of a post they both hold show the same boxes, in
      whatever order the marks, and everything else, came to each. */
  lemma HubsAgree(a: seq<Step>, b: seq<Step>, post: Id, box: nat)
    requires post in Run(EMPTY, a).t.posts && post in Run(EMPTY, b).t.posts
    requires BoxMarks(Run(EMPTY, a).log, post, box) == BoxMarks(Run(EMPTY, b).log, post, box)
    ensures (post, box) in Run(EMPTY, a).t.marks <==> (post, box) in Run(EMPTY, b).t.marks
    ensures (post, box) in Run(EMPTY, a).t.marks ==>
              Run(EMPTY, a).t.marks[(post, box)] == Run(EMPTY, b).t.marks[(post, box)]
  {
    ReplayLaws.RunKeeps(a);
    ReplayLaws.RunKeeps(b);
    BoxHoldsNewest(Run(EMPTY, a).log, post, box);
    BoxHoldsNewest(Run(EMPTY, b).log, post, box);
  }
}
