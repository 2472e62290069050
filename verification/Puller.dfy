/** The puller as it runs: a peer's log drained page by page, translations taken and settled. */
module Puller {
  import opened Messages
  import opened Hub
  import S = Store
  import W = Words
  import P = Pending
  import R = Replica
  import ReplayLaws
  import Seqs

  /** The store after some steps on what it says of its posts. */
  ghost function AfterWords(db: Db, steps: seq<W.WordStep>): Db
    decreases |steps|
  {
    if steps == [] then db else Next(AfterWords(db, steps[..|steps| - 1]), OnWords(steps[|steps| - 1]))
  }

  lemma AfterOne(db: Db, steps: seq<W.WordStep>, step: W.WordStep)
    ensures AfterWords(db, steps + [step]) == Next(AfterWords(db, steps), OnWords(step))
  {
    assert (steps + [step])[..|steps + [step]| - 1] == steps;
  }

  lemma {:induction false} WordsLeaveRest(db: Db, steps: seq<W.WordStep>)
    ensures AfterWords(db, steps) == db.(w := AfterWords(db, steps).w)
    decreases |steps|
  {
    if steps != [] { WordsLeaveRest(db, steps[..|steps| - 1]); }
  }

  /** Waiting rows tried one after another. */
  ghost function TryAll(r: P.Rules, s: P.St, ks: seq<P.Key>, now: int): P.St
    decreases |ks|
  {
    if ks == [] then s
    else
      var before := TryAll(r, s, ks[..|ks| - 1], now);
      if ks[|ks| - 1] in before.pending then P.Try(r, before, ks[|ks| - 1], now) else before
  }

  predicate Distinct(ks: seq<P.Key>) { forall i, j :: 0 <= i < j < |ks| ==> ks[i] != ks[j] }

  function KeySet(ks: seq<P.Key>): set<P.Key> { set k | k in ks }

  lemma NotYetTried(ks: seq<P.Key>, i: nat)
    requires Distinct(ks) && i < |ks|
    ensures ks[i] !in ks[..i] && KeySet(ks[..i + 1]) == KeySet(ks[..i]) + {ks[i]}
  {
    Seqs.Upto(ks, i);
  }

  lemma TryMore(r: P.Rules, s: P.St, ks: seq<P.Key>, i: nat, now: int)
    requires i < |ks| && ks[i] in TryAll(r, s, ks[..i], now).pending
    ensures TryAll(r, s, ks[..i + 1], now) == P.Try(r, TryAll(r, s, ks[..i], now), ks[i], now)
  {
    Seqs.Upto(ks, i);
  }

  /** A waiting row whose post this is, or whose post is here. */
  predicate Wanted(s: P.St, k: P.Key, post: Option<Id>)
  {
    k in s.pending && if post.Some? then k.1 == post.value else k.1 in s.db.t.posts
  }

  /** The rows wanted, the newest first: all of them, or the newest limit. */
  ghost predicate NewestFirst(s: P.St, post: Option<Id>, ks: seq<P.Key>, limit: nat)
  {
    && Distinct(ks) && |ks| <= limit && (forall i :: 0 <= i < |ks| ==> Wanted(s, ks[i], post))
    && (forall i, j :: 0 <= i < j < |ks| ==> s.pending[ks[i]].ts >= s.pending[ks[j]].ts)
    && forall k :: Wanted(s, k, post) && k !in ks ==>
         |ks| == limit && forall i :: 0 <= i < |ks| ==> s.pending[k].ts <= s.pending[ks[i]].ts
  }

  class Puller {
    const st: S.Store
    var pending: map<P.Key, P.Waiting>
    var rows: nat
    var now: int

    constructor (st: S.Store)
      ensures this.st == st && pending == map[] && rows == 0
    {
      this.st := st;
      pending, rows, now := map[], 0, 0;
    }

    function View(): P.St
      reads this, st
    {
      P.St(st.View(), pending, rows)
    }

    /** A translation set aside, the peer kept to its cap. */
    method SetAside(peer: HubId, x: W.SharedTranslation)
      modifies this`pending, this`rows
      ensures View() == P.SetPending(old(View()), peer, x, now)
    {
      var k := (peer, x.post, x.lang);
      if k !in pending {
        pending := pending[k := P.Waiting(x.text, x.model, x.ts, now, rows)];
      } else if x.ts > pending[k].ts {
        pending := pending[k := pending[k].(text := x.text, model := x.model, ts := x.ts)];
      }
      pending := pending - P.Evicted(pending, peer, P.PENDING_MAX);
      rows := rows + 1;
    }

    /** One translation a peer offers; step is what keeping it does to the store. */
    method Take(r: P.Rules, peer: HubId, offer: W.SharedTranslation) returns (got: P.Taking, ghost step: W.WordStep)
      modifies this`pending, this`rows, st`words
      ensures (View(), got) == P.Take(r, old(View()), peer, offer, now)
      ensures st.View() == if got == P.Kept then Next(old(st.View()), OnWords(step)) else old(st.View())
    {
      step := W.AcceptsTranslation(peer, offer);
      if !r.wellFormed(offer.lang, offer.text) { return P.Passed, step; }
      var x := P.Cut(offer);
      if x.post !in st.posts {
        SetAside(peer, x);
        return P.Waits, step;
      }
      if P.LangOf(st.View(), x.post) == x.lang { return P.Passed, step; }
      x := x.(text := r.tidy(x.lang, x.text));
      if !r.check(st.posts[x.post].text, x.text, x.lang) { return P.Passed, step; }
      step := W.AcceptsTranslation(peer, x);
      var kept := st.AcceptTranslation(peer, x);
      got := if kept then P.Kept else P.Passed;
    }

    /** One that waited, tried and dropped: its post is here, so what is decided is final. */
    method TryOne(r: P.Rules, k: P.Key) returns (kept: bool, ghost step: W.WordStep)
      requires k in pending && k.1 in st.posts
      modifies this`pending, this`rows, st`words
      ensures View() == P.Try(r, old(View()), k, now) && pending == old(pending) - {k}
      ensures st.View() == if kept then Next(old(st.View()), OnWords(step)) else old(st.View())
    {
      var n := pending[k];
      var got;
      got, step := Take(r, k.0, W.SharedTranslation(k.1, k.2, n.text, n.model, n.ts));
      kept := got == P.Kept;
      if got != P.Waits { pending := pending - {k}; }
    }

    /** The newest of some waiting rows. */
    method NewestOf(ks: set<P.Key>) returns (k: P.Key)
      requires ks != {} && ks <= pending.Keys
      ensures k in ks && forall j :: j in ks ==> MadeAt(j) <= MadeAt(k)
    {
      k :| k in ks;
      var rest := ks - {k};
      while rest != {}
        invariant rest <= ks && k in ks && forall j :: j in ks && j !in rest ==> MadeAt(j) <= MadeAt(k)
        decreases rest
      {
        var j :| j in rest;
        if pending[j].ts > pending[k].ts { k := j; }
        rest := rest - {j};
      }
    }

    function MadeAt(k: P.Key): int
      reads this
    {
      if k in pending then pending[k].ts else 0
    }

    /** What waits for one post, or for any post here by now: the newest first, so many at most. */
    method WaitingFor(post: Option<Id>, limit: nat) returns (ks: seq<P.Key>)
      ensures NewestFirst(View(), post, ks, limit)
    {
      ks := [];
      var rest := set k | k in pending && (if post.Some? then k.1 == post.value else k.1 in st.posts);
      while |ks| < limit && rest != {}
        invariant |ks| <= limit && rest <= pending.Keys && Distinct(ks)
        invariant forall k :: k in rest ==> Wanted(View(), k, post) && k !in ks && forall i :: 0 <= i < |ks| ==>
          MadeAt(k) <= MadeAt(ks[i])
        invariant forall i :: 0 <= i < |ks| ==> Wanted(View(), ks[i], post)
        invariant forall i, j :: 0 <= i < j < |ks| ==> MadeAt(ks[i]) >= MadeAt(ks[j])
        invariant forall k :: Wanted(View(), k, post) ==> k in rest || k in ks
        decreases rest
      {
        var k := NewestOf(rest);
        ks, rest := ks + [k], rest - {k};
      }
    }

    /** Each of the rows tried, in order. */
    method TryEach(r: P.Rules, ks: seq<P.Key>) returns (ghost steps: seq<W.WordStep>)
      requires Distinct(ks) && forall i :: 0 <= i < |ks| ==> ks[i] in pending && ks[i].1 in st.posts
      modifies this`pending, this`rows, st`words
      ensures View() == TryAll(r, old(View()), ks, now) && pending.Keys == old(pending).Keys - KeySet(ks)
      ensures st.View() == AfterWords(old(st.View()), steps)
    {
      steps := [];
      ghost var start, db := View(), st.View();
      for i := 0 to |ks|
        invariant View() == TryAll(r, start, ks[..i], now) && pending.Keys == old(pending).Keys - KeySet(ks[..i])
        invariant st.View() == AfterWords(db, steps)
      {
        NotYetTried(ks, i);
        TryMore(r, start, ks, i, now);
        ghost var step, kept;
        kept, step := TryOne(r, ks[i]);
        AfterOne(db, steps, step);
        if kept { steps := steps + [step]; }
      }
      Seqs.Whole(ks);
    }

    /** What has waited longer goes unasked. */
    method AgeOut(before: int)
      modifies this`pending
      ensures View() == P.Age(old(View()), before) && pending.Keys <= old(pending).Keys
    {
      pending := map k | k in pending && pending[k].seen >= before :: pending[k];
    }

    /** Translations set aside are tried now that their posts are here: one post's, or anyone's. */
    method Settle(r: P.Rules, post: Option<Id>) returns (ghost ks: seq<P.Key>, ghost steps: seq<W.WordStep>)
      requires post.Some? ==> post.value in st.posts
      modifies this`pending, this`rows, st`words
      ensures var aged := if post.None? then P.Age(old(View()), now - PENDING_AGE) else old(View());
              NewestFirst(aged, post, ks, SETTLE_LIMIT) && View() == TryAll(r, aged, ks, now)
      ensures pending.Keys <= old(pending).Keys - KeySet(ks)
      ensures |ks| < SETTLE_LIMIT ==> forall k :: !Wanted(View(), k, post)
      ensures st.View() == AfterWords(old(st.View()), steps)
    {
      if post.None? { AgeOut(now - PENDING_AGE); }
      var waiting := WaitingFor(post, SETTLE_LIMIT);
      ks := waiting;
      ghost var before := st.View();
      steps := TryEach(r, waiting);
      WordsLeaveRest(before, steps);
    }

    /** Time goes on between one message and the next. */
    method Tick()
      modifies this`now
      ensures now >= old(now)
    {
      var d: int := *;
      if d > 0 { now := now + d; }
    }

    /** One replicated message: passed over, or ingested as the peer's; a post that came has what
        waited for it settled. */
    method Handle(r: P.Rules, hub: HubId, id: Id, e: Envelope) returns (ghost steps: seq<W.WordStep>)
      modifies this`pending, this`rows, st
      ensures st.View() == AfterWords(R.HandleOne(old(st.View()), hub, id, e, now), steps)
      ensures R.Cursor(st.View(), hub) == R.Cursor(old(st.View()), hub)
    {
      steps := [];
      R.HandleLeavesCursor(st.View(), hub, id, e, now);
      if e.pid in st.bans || !R.IsContent(e.op) { return; }
      ghost var was := st.View();
      var got := st.Ingest(id, e, now, Some(hub));
      if got.Err? { return; }
      st.IsView(Ingest(was, id, e, now, Some(hub)).value.0);
      if e.op.PostCreate? {
        CreatedIsHeld(was, id, e, now, hub);
        ghost var ks;
        ghost var held := st.View();
        ks, steps := Settle(r, Some(id));
        WordsLeaveRest(held, steps);
      }
    }

    /** The messages of one page, in order. */
    method HandlePage(r: P.Rules, hub: HubId, log: seq<Msg>, from: nat, end: nat, ghost w0: R.World,
        ghost before: seq<R.Move>)
      returns (ghost moves: seq<R.Move>)
      requires from <= end && (from < end ==> end <= |log|) && PullMoves(before)
      requires At(MovedAll(w0, hub, before), log, st.View(), R.Reading(from, from, end))
      modifies this`pending, this`rows, this`now, st
      ensures PullMoves(moves) && At(MovedAll(w0, hub, moves), log, st.View(), R.Reading(from, end, end))
      ensures R.Cursor(st.View(), hub) == R.Cursor(old(st.View()), hub)
    {
      moves := before;
      var pos := from;
      while pos < end
        invariant from <= pos <= end && PullMoves(moves)
        invariant At(MovedAll(w0, hub, moves), log, st.View(), R.Reading(from, pos, end))
        invariant R.Cursor(st.View(), hub) == R.Cursor(old(st.View()), hub)
      {
        Tick();
        var steps := Handle(r, hub, log[pos].id, log[pos].e);
        MovedOne(w0, hub, moves, R.Handle(now));
        moves := moves + [R.Handle(now)];
        MovedWords(w0, hub, moves, steps);
        moves := moves + AsMoves(steps);
        pos := pos + 1;
      }
    }

    /** One page fetched, handled, and the cursor past it saved, when it goes on at all. */
    method PullPage(r: P.Rules, hub: HubId, log: seq<Msg>, cursor: nat, limit: nat, ghost w0: R.World,
        ghost before: seq<R.Move>)
      returns (end: nat, ghost moves: seq<R.Move>)
      requires PullMoves(before) && At(MovedAll(w0, hub, before), log, st.View(), R.At(cursor))
      requires R.Cursor(st.View(), hub) == cursor
      modifies this`pending, this`rows, this`now, st
      ensures PullMoves(moves) && end == R.PageEnd(log, cursor, limit) && R.Cursor(st.View(), hub) == end
      ensures At(MovedAll(w0, hub, moves), log, st.View(), if end <= cursor then R.Idle else R.At(end))
    {
      end := R.PageEnd(log, cursor, limit);
      MovedOne(w0, hub, before, R.Fetch(limit));
      moves := HandlePage(r, hub, log, cursor, end, w0, before + [R.Fetch(limit)]);
      MovedOne(w0, hub, moves, R.Save);
      moves := moves + [R.Save];
      if end > cursor {
        ghost var was := st.View();
        st.SetPeerCursor(hub, end);
        assert st.View() == Next(was, SetsPeerState(hub, R.Saved(was, hub, end)));
      }
    }

    /** A peer drained: page after page from the saved cursor until none is left. What it does is
        a run of the protocol's moves. */
    method Pull(r: P.Rules, hub: HubId, log: seq<Msg>, limit: nat, ghost w0: R.World) returns (ghost moves: seq<R.Move>)
      requires At(w0, log, st.View(), R.Idle)
      modifies this`pending, this`rows, this`now, st
      ensures PullMoves(moves) && At(MovedAll(w0, hub, moves), log, st.View(), R.Idle)
      ensures limit > 0 ==> R.Cursor(st.View(), hub) >= |log|
    {
      var cursor := if hub in st.peerState then st.peerState[hub].cursor else 0;
      moves := Started(w0, hub);
      while true
        invariant PullMoves(moves) && At(MovedAll(w0, hub, moves), log, st.View(), R.At(cursor))
        invariant R.Cursor(st.View(), hub) == cursor
        decreases if cursor <= |log| then |log| - cursor else 0
      {
        var end;
        end, moves := PullPage(r, hub, log, cursor, limit, w0, moves);
        if end <= cursor { break; }
        cursor := end;
      }
    }
  }

  lemma Started(w: R.World, hub: HubId) returns (moves: seq<R.Move>)
    requires w.pull.Idle?
    ensures PullMoves(moves) && MovedAll(w, hub, moves) == w.(pull := R.At(R.Cursor(w.b, hub)))
  {
    moves := [R.Start];
    MovedOne(w, hub, [], R.Start);
    assert [] + [R.Start] == moves;
  }

  lemma {:induction false} PullKeeps(w: R.World, hub: HubId, moves: seq<R.Move>, hash: Id -> Envelope)
    requires R.Inv(w, hub, hash) && PullMoves(moves)
    ensures R.Inv(MovedAll(w, hub, moves), hub, hash) && MovedAll(w, hub, moves).a == w.a
    decreases |moves|
  {
    if moves != [] {
      PullKeeps(w, hub, moves[..|moves| - 1], hash);
      R.MoveKeeps(MovedAll(w, hub, moves[..|moves| - 1]), hub, moves[|moves| - 1], hash);
    }
  }

  /** A pull with nothing in its way ends with the puller showing all the origin shows of every
      author it never banned, and all it shows when it banned none. */
  lemma PullCatchesUp(w: R.World, hub: HubId, moves: seq<R.Move>, hash: Id -> Envelope)
    requires R.Inv(w, hub, hash) && PullMoves(moves) && R.Cursor(MovedAll(w, hub, moves).b, hub) >= |w.a.log|
    ensures var b := MovedAll(w, hub, moves).b;
            && (forall p: Pid :: R.NeverBanned(b.log, p) ==> R.SameOf(b.t, w.a.t, p))
            && (R.NobodyBanned(b.log) ==> R.Content(b.t) == R.Content(w.a.t))
  {
    PullKeeps(w, hub, moves, hash);
    R.CaughtUp(MovedAll(w, hub, moves), hub, hash);
  }

  /** The origin's log is log, the puller's store is b, and the pull stands where it says. */
  ghost predicate At(w: R.World, log: seq<Msg>, b: Db, pull: R.Pull)
  {
    w.a.log == log && w.b == b && w.pull == pull
  }

  lemma CreatedIsHeld(db: Db, id: Id, e: Envelope, now: int, hub: HubId)
    requires e.op.PostCreate? && Ingest(db, id, e, now, Some(hub)).Ok?
    ensures id in Ingest(db, id, e, now, Some(hub)).value.0.t.posts
  {
    R.Lands(db, id, e, now, Some(hub));
    ReplayLaws.PostsOf(db.t, id, e, now, true);
  }

  const PENDING_AGE: int := 30 * 24 * 3600 * 1000
  const SETTLE_LIMIT: nat := 500

  // ---- draining a peer ----

  /** The moves a settle makes at the puller. */
  ghost function AsMoves(steps: seq<W.WordStep>): seq<R.Move>
  {
    seq(|steps|, i requires 0 <= i < |steps| => R.AtB(OnWords(steps[i])))
  }

  /** A run of the two hubs' moves. */
  ghost function MovedAll(w: R.World, hub: HubId, moves: seq<R.Move>): R.World
    decreases |moves|
  {
    if moves == [] then w else R.Moved(MovedAll(w, hub, moves[..|moves| - 1]), hub, moves[|moves| - 1])
  }

  /** The moves a pull makes: its own, and what settling does to the words. */
  predicate PullMoves(moves: seq<R.Move>)
  {
    forall i :: 0 <= i < |moves| ==> !moves[i].AtA? && !moves[i].Stop? && (moves[i].AtB? ==> moves[i].s.OnWords?)
  }

  lemma MovedOne(w: R.World, hub: HubId, moves: seq<R.Move>, m: R.Move)
    ensures MovedAll(w, hub, moves + [m]) == R.Moved(MovedAll(w, hub, moves), hub, m)
  {
    assert (moves + [m])[..|moves + [m]| - 1] == moves;
  }

  lemma {:induction false} MovedWords(w: R.World, hub: HubId, moves: seq<R.Move>, steps: seq<W.WordStep>)
    requires PullMoves(moves)
    ensures var now := MovedAll(w, hub, moves);
            MovedAll(w, hub, moves + AsMoves(steps)) == now.(b := AfterWords(now.b, steps)) &&
                PullMoves(moves + AsMoves(steps))
    decreases |steps|
  {
    if steps == [] {
      assert moves + AsMoves(steps) == moves;
    } else {
      var front, last := steps[..|steps| - 1], steps[|steps| - 1];
      MovedWords(w, hub, moves, front);
      assert moves + AsMoves(steps) == moves + AsMoves(front) + [R.AtB(OnWords(last))];
      MovedOne(w, hub, moves + AsMoves(front), R.AtB(OnWords(last)));
    }
  }
}
