/** One pass over a worklist kept in the store: the step-over set, the three misses, the pool. */
module Drain {
  import opened Messages
  import opened Sums

  type Key = nat
  datatype Outcome = Wrote | NoAnswer | StoreFailed

  const DOWN_AFTER: nat := 3
  const MAX_TRIES: nat := 3

  // ---- what one outcome does to the pass ----

  /** skip is what was stepped over; over says the pass is, and whether the server was there. */
  datatype Tally = Tally(skip: set<Key>, missed: nat, over: Option<bool>)

  const FRESH := Tally({}, 0, None)

  function Judge(t: Tally, k: Key, o: Outcome): Tally
  {
    match o
    case StoreFailed => t.(over := Some(true))
    case NoAnswer => Tally(t.skip + {k}, t.missed + 1, if t.missed + 1 >= DOWN_AFTER then Some(false) else None)
    case Wrote => t.(missed := 0)
  }

  /** How many of the last outcomes, one after another, were no answer. */
  function Misses(log: seq<(Key, Outcome)>): nat
  {
    if log == [] || log[|log| - 1].1 != NoAnswer then 0 else 1 + Misses(log[..|log| - 1])
  }

  predicate LastThreeMissed(log: seq<(Key, Outcome)>)
  {
    |log| >= DOWN_AFTER && forall i :: |log| - DOWN_AFTER <= i < |log| ==> log[i].1 == NoAnswer
  }

  /** The tally is what the judged outcomes make it. */
  predicate Tallied(t: Tally, log: seq<(Key, Outcome)>)
  {
    && t.skip == (set i | 0 <= i < |log| && log[i].1 == NoAnswer :: log[i].0)
    && match t.over
       case None => t.missed == Misses(log) < DOWN_AFTER
       case Some(up) => log != [] && if up then log[|log| - 1].1 == StoreFailed else LastThreeMissed(log)
  }

  lemma {:induction false} MissesMean(log: seq<(Key, Outcome)>, n: nat)
    requires n <= Misses(log)
    ensures n <= |log| && forall i :: |log| - n <= i < |log| ==> log[i].1 == NoAnswer
    decreases n
  {
    if n > 0 { MissesMean(log[..|log| - 1], n - 1); }
  }

  /** The pass is over for want of an answer exactly when the last three judged were none. */
  lemma {:induction false} ThreeMisses(log: seq<(Key, Outcome)>)
    ensures LastThreeMissed(log) <==> Misses(log) >= DOWN_AFTER
  {
    if Misses(log) >= DOWN_AFTER { MissesMean(log, DOWN_AFTER); }
    if LastThreeMissed(log) {
      var a := log[..|log| - 1];
      var b := a[..|a| - 1];
      assert a[|a| - 1] == log[|log| - 2] && b[|b| - 1] == log[|log| - 3];
      assert Misses(log) == 1 + Misses(a) && Misses(a) == 1 + Misses(b) && Misses(b) >= 1;
    }
  }

  lemma JudgeTallies(t: Tally, log: seq<(Key, Outcome)>, k: Key, o: Outcome)
    requires Tallied(t, log) && t.over.None?
    ensures Tallied(Judge(t, k, o), log + [(k, o)])
  {
    var more := log + [(k, o)];
    assert more[..|more| - 1] == log;
    ThreeMisses(more);
    assert forall i :: 0 <= i < |log| ==> more[i] == log[i];
  }

  // ---- the pass ----

  /** A page being worked: begun of todo so far, the pieces in flight, the outcomes back, how
      many of them judged, in order; shut once the pool begins no more. base is what was left
      of the work when the page was listed, kept only to count by. */
  datatype Phase =
    | Listing
    | Working(todo: seq<Key>, begun: nat, flying: set<nat>, results: map<nat, Outcome>, judged: nat, shut: bool,
        base: nat)
    | Ended(up: bool, drained: bool)

  /** owed is the work the store lists, with the tries each piece has left; arrivals is how
      many more pieces will ever come. log is every outcome judged, in order. */
  datatype Pass = Pass(owed: map<Key, nat>, arrivals: nat, tally: Tally, log: seq<(Key, Outcome)>, phase: Phase)

  datatype Move =
    | Arrives(k: Key, tries: nat)
    | Leaves(k: Key)
    | ListFails
    | Lists(work: seq<Key>)
    | Begins
    | Lands(i: nat, o: Outcome, spent: Option<nat>)
    | Judges
    | Shuts
    | Turns

  predicate Distinct(s: seq<Key>) { forall i, j :: 0 <= i < j < |s| ==> s[i] != s[j] }

  function Max(x: nat, y: nat): nat { if x >= y then x else y }

  /** A list of at most limit owed pieces, no piece twice, short only when no more are owed. */
  predicate ListOf(owed: map<Key, nat>, limit: nat, work: seq<Key>)
  {
    && Distinct(work) && (forall i :: 0 <= i < |work| ==> work[i] in owed)
    && |work| == if |owed| <= limit then |owed| else limit
  }

  /** The listed work less what was stepped over, in the order listed. */
  function Todo(work: seq<Key>, skip: set<Key>): (todo: seq<Key>)
  {
    if work == [] then []
    else Todo(work[..|work| - 1], skip) + (if work[|work| - 1] in skip then [] else [work[|work| - 1]])
  }

  function Limit(n: nat, size: nat, skip: set<Key>): nat { Max(size, Max(n, 1)) + |skip| }

  /** What an outcome leaves of a piece: settled, one try the fewer, or as it was. */
  predicate Spends(owed: map<Key, nat>, k: Key, o: Outcome, spent: Option<nat>)
  {
    o == Wrote && k in owed && spent.Some? ==> 0 < spent.value < owed[k]
  }

  function After(owed: map<Key, nat>, k: Key, o: Outcome, spent: Option<nat>): map<Key, nat>
  {
    if o != Wrote || k !in owed then owed else if spent.Some? then owed[k := spent.value] else owed - {k}
  }

  /** Which moves are open, with n pieces in flight at most; one at a time, each is judged
      before the next is begun. */
  predicate Open(p: Pass, n: nat, size: nat, m: Move)
  {
    match m
    case Arrives(k, tries) => !p.phase.Ended? && p.arrivals > 0 && k !in p.owed && 0 < tries <= MAX_TRIES
    case Leaves(k) => !p.phase.Ended? && k in p.owed
    case ListFails => p.phase.Listing?
    case Lists(work) => p.phase.Listing? && ListOf(p.owed, Limit(n, size, p.tally.skip), work)
    case Begins =>
      && p.phase.Working? && !p.phase.shut && p.phase.begun < |p.phase.todo|
      && (if n <= 1 then p.phase.judged == p.phase.begun && p.tally.over.None? else |p.phase.flying| < n)
    case Lands(i, o, spent) =>
      p.phase.Working? && i in p.phase.flying && i < |p.phase.todo| && Spends(p.owed, p.phase.todo[i], o, spent)
    case Judges =>
      p.phase.Working? && p.tally.over.None? && p.phase.judged < |p.phase.todo| && p.phase.judged in p.phase.results
    case Shuts => p.phase.Working? && !p.phase.shut && (p.phase.begun == |p.phase.todo| || p.tally.over.Some?)
    case Turns =>
      && p.phase.Working? && p.phase.shut && p.phase.flying == {}
      && (p.tally.over.Some? || p.phase.judged == |p.phase.todo|)
  }

  ghost function Moved(p: Pass, m: Move): Pass
  {
    match m
    case Arrives(k, tries) => if p.arrivals > 0 then p.(owed := p.owed[k := tries], arrivals := p.arrivals - 1) else p
    case Leaves(k) => p.(owed := p.owed - {k})
    case ListFails => p.(phase := Ended(true, false))
    case Lists(work) =>
      var todo := Todo(work, p.tally.skip);
      p.(phase := if todo == [] then Ended(true, true) else Working(todo, 0, {}, map[], 0, false, Left(p)))
    case Begins =>
      if p.phase.Working? then
        p.(phase := p.phase.(begun := p.phase.begun + 1, flying := p.phase.flying + {p.phase.begun}))
      else p
    case Lands(i, o, spent) =>
      if p.phase.Working? && i < |p.phase.todo| then
        p.(owed := After(p.owed, p.phase.todo[i], o, spent),
           phase := p.phase.(flying := p.phase.flying - {i}, results := p.phase.results[i := o]))
      else p
    case Judges =>
      if p.phase.Working? && p.phase.judged < |p.phase.todo| && p.phase.judged in p.phase.results then
        var k, o := p.phase.todo[p.phase.judged], p.phase.results[p.phase.judged];
        p.(tally := Judge(p.tally, k, o), log := p.log + [(k, o)], phase := p.phase.(judged := p.phase.judged + 1))
      else p
    case Shuts => if p.phase.Working? then p.(phase := p.phase.(shut := true)) else p
    case Turns => p.(phase := if p.tally.over.Some? then Ended(p.tally.over.value, false) else Listing)
  }

  // ---- what is left of the work ----

  /** Tries left in all, tries left of what was not stepped over, and what may still come. */
  ghost function Left(p: Pass): nat
  {
    Sum(p.owed) + Sum(p.owed - p.tally.skip) + (2 * MAX_TRIES + 1) * p.arrivals
  }

  ghost predicate Sane(p: Pass)
  {
    forall k :: k in p.owed ==> 0 < p.owed[k]
  }

  lemma LeftFalls(p: Pass, m: Move)
    requires Sane(p) && (m.Arrives? || m.Leaves?) &&
      (m.Arrives? ==> p.arrivals > 0 && m.k !in p.owed && 0 < m.tries <= MAX_TRIES)
    requires m.Leaves? ==> m.k in p.owed
    ensures Left(Moved(p, m)) < Left(p)
  {
    var k, skip := m.k, p.tally.skip;
    if m.Arrives? {
      SumPut(p.owed, k, m.tries);
      if k in skip {
        assert p.owed[k := m.tries] - skip == p.owed - skip;
      } else {
        SumPut(p.owed - skip, k, m.tries);
        assert p.owed[k := m.tries] - skip == (p.owed - skip)[k := m.tries];
      }
    } else {
      SumTake(p.owed, k);
      SumTake(p.owed - skip, k);
      assert p.owed - {k} - skip == p.owed - skip - {k};
    }
  }

  lemma LeftSpent(p: Pass, k: Key, o: Outcome, spent: Option<nat>)
    requires Sane(p) && Spends(p.owed, k, o, spent)
    ensures var p1 := p.(owed := After(p.owed, k, o, spent));
            Sane(p1) && Left(p1) <= Left(p) && (o == Wrote && k in p.owed ==> Left(p1) < Left(p))
  {
    var skip := p.tally.skip;
    if o == Wrote && k in p.owed {
      if spent.Some? {
        SumPut(p.owed, k, spent.value);
        if k in skip {
          assert p.owed[k := spent.value] - skip == p.owed - skip;
        } else {
          SumPut(p.owed - skip, k, spent.value);
          assert p.owed[k := spent.value] - skip == (p.owed - skip)[k := spent.value];
        }
      } else {
        LeftFalls(p, Leaves(k));
      }
    }
  }

  /** Stepping over a piece that is owed leaves less to do. */
  lemma LeftStepped(p: Pass, k: Key)
    requires Sane(p)
    ensures var p1 := p.(tally := p.tally.(skip := p.tally.skip + {k}));
            Left(p1) <= Left(p) && (k in p.owed && k !in p.tally.skip ==> Left(p1) < Left(p))
  {
    SumTake(p.owed - p.tally.skip, k);
    assert p.owed - (p.tally.skip + {k}) == p.owed - p.tally.skip - {k};
  }

  // ---- what every pass keeps ----

  /** The pieces begun are those in flight and those whose outcome is back; no more than n are in flight. */
  predicate PoolOk(p: Pass, n: nat)
    requires p.phase.Working?
  {
    var w := p.phase;
    && w.judged <= w.begun <= |w.todo|
    && (forall i: nat :: i in w.flying ==> i < w.begun && i !in w.results)
    && (forall i: nat :: i < w.begun && i !in w.flying ==> i in w.results)
    && (forall i: nat :: i in w.results ==> i < w.begun)
    && |w.flying| <= Max(n, 1)
    && (w.shut ==> w.begun == |w.todo| || p.tally.over.Some?)
    && (n <= 1 ==> w.begun <= w.judged + 1)
  }

  /** The outcomes of this page were judged in the order listed. */
  predicate InOrder(p: Pass)
    requires p.phase.Working?
  {
    var w := p.phase;
    && w.judged <= |p.log| && w.judged <= |w.todo|
    && forall i: nat :: i < w.judged ==> i in w.results && p.log[|p.log| - w.judged + i] == (w.todo[i], w.results[i])
  }

  /** Something got done since the page was listed, or its first piece is still to. */
  ghost predicate Progress(p: Pass)
    requires p.phase.Working?
  {
    var w := p.phase;
    && w.todo != [] && Left(p) <= w.base
    && (Left(p) < w.base ||
        (w.todo[0] in p.owed && w.todo[0] !in p.tally.skip && (0 in w.results ==> w.results[0] != Wrote)))
    && (p.tally.over.None? && w.judged > 0 && 0 in w.results ==> w.results[0] != StoreFailed)
  }

  ghost predicate Inv(p: Pass, n: nat)
  {
    && Sane(p) && Tallied(p.tally, p.log)
    && match p.phase
       case Listing => p.tally.over.None?
       case Working(_, _, _, _, _, _, _) => PoolOk(p, n) && InOrder(p) && Progress(p)
       case Ended(up, drained) => (up <==> !LastThreeMissed(p.log)) && (drained ==> p.owed.Keys <= p.tally.skip)
  }

  // ---- listing ----

  lemma {:induction false} TodoIs(work: seq<Key>, skip: set<Key>, k: Key)
    ensures k in Todo(work, skip) <==> k in work && k !in skip
  {
    if work != [] {
      TodoIs(work[..|work| - 1], skip, k);
      assert work == work[..|work| - 1] + [work[|work| - 1]];
    }
  }

  lemma {:induction false} WithinSkip(work: seq<Key>, skip: set<Key>)
    requires Distinct(work) && forall i :: 0 <= i < |work| ==> work[i] in skip
    ensures |work| <= |skip|
  {
    if work != [] {
      var k := work[|work| - 1];
      var front := work[..|work| - 1];
      assert forall i :: 0 <= i < |front| ==> front[i] in skip - {k};
      WithinSkip(front, skip - {k});
    }
  }

  lemma {:induction false} AllListed(work: seq<Key>, keys: set<Key>)
    requires Distinct(work) && |work| == |keys| && forall i :: 0 <= i < |work| ==> work[i] in keys
    ensures forall k :: k in keys ==> k in work
  {
    if work == [] {
      assert keys == {};
    } else {
      var k := work[|work| - 1];
      var front := work[..|work| - 1];
      assert forall i :: 0 <= i < |front| ==> front[i] in keys - {k};
      AllListed(front, keys - {k});
      forall j | j in keys
        ensures j in work
      {
        if j != k { assert j in keys - {k} && j in front; }
      }
    }
  }

  /** A page longer than all that was stepped over, and nothing new on it, is all that is owed. */
  lemma NothingNew(p: Pass, limit: nat, work: seq<Key>)
    requires ListOf(p.owed, limit, work) && limit > |p.tally.skip| && Todo(work, p.tally.skip) == []
    ensures p.owed.Keys <= p.tally.skip
  {
    forall i | 0 <= i < |work|
      ensures work[i] in p.tally.skip
    {
      TodoIs(work, p.tally.skip, work[i]);
    }
    WithinSkip(work, p.tally.skip);
    assert |p.owed.Keys| == |p.owed|;
    AllListed(work, p.owed.Keys);
  }

  lemma ListKeeps(p: Pass, n: nat, size: nat, work: seq<Key>)
    requires Inv(p, n) && Open(p, n, size, Lists(work))
    ensures Inv(Moved(p, Lists(work)), n)
  {
    ThreeMisses(p.log);
    var todo := Todo(work, p.tally.skip);
    if todo == [] {
      NothingNew(p, Limit(n, size, p.tally.skip), work);
    } else {
      TodoIs(work, p.tally.skip, todo[0]);
    }
  }

  // ---- working a page ----

  lemma OutsideKeeps(p: Pass, n: nat, size: nat, m: Move)
    requires Inv(p, n) && Open(p, n, size, m) && (m.Arrives? || m.Leaves?)
    ensures Inv(Moved(p, m), n)
  {
    LeftFalls(p, m);
  }

  lemma BeginKeeps(p: Pass, n: nat, size: nat)
    requires Inv(p, n) && Open(p, n, size, Begins)
    ensures Inv(Moved(p, Begins), n)
  {
    if n <= 1 { assert p.phase.flying == {}; }
  }

  lemma LandKeeps(p: Pass, n: nat, size: nat, i: nat, o: Outcome, spent: Option<nat>)
    requires Inv(p, n) && Open(p, n, size, Lands(i, o, spent))
    ensures Inv(Moved(p, Lands(i, o, spent)), n)
  {
    LeftSpent(p, p.phase.todo[i], o, spent);
  }

  lemma JudgeKeeps(p: Pass, n: nat, size: nat)
    requires Inv(p, n) && Open(p, n, size, Judges)
    ensures Inv(Moved(p, Judges), n)
  {
    var w := p.phase;
    var k, o := w.todo[w.judged], w.results[w.judged];
    JudgeTallies(p.tally, p.log, k, o);
    LeftStepped(p, k);
  }

  lemma TurnKeeps(p: Pass, n: nat, size: nat)
    requires Inv(p, n) && Open(p, n, size, Turns)
    ensures Inv(Moved(p, Turns), n)
  {
  }

  lemma ShutKeeps(p: Pass, n: nat, size: nat)
    requires Inv(p, n) && Open(p, n, size, Shuts)
    ensures Inv(Moved(p, Shuts), n)
  {
  }

  lemma FailKeeps(p: Pass, n: nat)
    requires Inv(p, n) && p.phase.Listing?
    ensures Inv(Moved(p, ListFails), n)
  {
    ThreeMisses(p.log);
  }

  lemma MoveKeeps(p: Pass, n: nat, size: nat, m: Move)
    requires Inv(p, n) && Open(p, n, size, m)
    ensures Inv(Moved(p, m), n)
  {
    match m
    case Arrives(_, _) => OutsideKeeps(p, n, size, m);
    case Leaves(_) => OutsideKeeps(p, n, size, m);
    case ListFails => FailKeeps(p, n);
    case Lists(work) => ListKeeps(p, n, size, work);
    case Begins => BeginKeeps(p, n, size);
    case Lands(i, o, spent) => LandKeeps(p, n, size, i, o, spent);
    case Judges => JudgeKeeps(p, n, size);
    case Shuts => ShutKeeps(p, n, size);
    case Turns => TurnKeeps(p, n, size);
  }

  // ---- whole passes ----

  ghost function Run(p: Pass, moves: seq<Move>): Pass
    decreases |moves|
  {
    if moves == [] then p else Moved(Run(p, moves[..|moves| - 1]), moves[|moves| - 1])
  }

  ghost predicate AllOpen(p: Pass, n: nat, size: nat, moves: seq<Move>)
    decreases |moves|
  {
    moves == [] ||
    (AllOpen(p, n, size, moves[..|moves| - 1]) && Open(Run(p, moves[..|moves| - 1]), n, size, moves[|moves| - 1]))
  }

  function Begun(owed: map<Key, nat>, arrivals: nat): Pass
  {
    Pass(owed, arrivals, FRESH, [], Listing)
  }

  predicate LastFailed(log: seq<(Key, Outcome)>)
  {
    log != [] && log[|log| - 1].1 == StoreFailed
  }

  /** A pass goes on until nothing is left, or a list failed, or the outcome judged last ended it. */
  ghost predicate EndsRight(p: Pass, listFailed: bool)
  {
    p.phase.Ended? && p.phase.up ==> p.phase.drained || listFailed || LastFailed(p.log)
  }

  lemma MoveEndsRight(p: Pass, n: nat, size: nat, m: Move, failed: bool)
    requires Tallied(p.tally, p.log) && Open(p, n, size, m) && EndsRight(p, failed)
    ensures EndsRight(Moved(p, m), failed || m.ListFails?)
  {
  }

  lemma InSnoc(moves: seq<Move>, m: Move)
    requires moves != []
    ensures m in moves <==> m in moves[..|moves| - 1] || moves[|moves| - 1] == m
  {
    assert moves == moves[..|moves| - 1] + [moves[|moves| - 1]];
  }

  lemma {:induction false} RunEndsRight(p: Pass, n: nat, size: nat, moves: seq<Move>)
    requires Inv(p, n) && !p.phase.Ended? && AllOpen(p, n, size, moves)
    ensures EndsRight(Run(p, moves), ListFails in moves)
    decreases |moves|
  {
    if moves != [] {
      var before, m := moves[..|moves| - 1], moves[|moves| - 1];
      RunKeeps(p, n, size, before);
      RunEndsRight(p, n, size, before);
      MoveEndsRight(Run(p, before), n, size, m, ListFails in before);
      InSnoc(moves, ListFails);
    }
  }

  lemma {:induction false} RunKeeps(p: Pass, n: nat, size: nat, moves: seq<Move>)
    requires Inv(p, n) && AllOpen(p, n, size, moves)
    ensures Inv(Run(p, moves), n) && Aloft(Run(p, moves)) == Aloft(p) + Airborne(moves)
    decreases |moves|
  {
    if moves != [] {
      var before := Run(p, moves[..|moves| - 1]);
      RunKeeps(p, n, size, moves[..|moves| - 1]);
      MoveKeeps(before, n, size, moves[|moves| - 1]);
      MoveAloft(before, n, size, moves[|moves| - 1]);
    }
  }

  function Aloft(p: Pass): nat { if p.phase.Working? then |p.phase.flying| else 0 }

  /** The pieces begun less those landed. */
  function Airborne(moves: seq<Move>): int
    decreases |moves|
  {
    if moves == [] then 0 else Airborne(moves[..|moves| - 1]) + Lifts(moves[|moves| - 1])
  }

  function Lifts(m: Move): int { if m.Begins? then 1 else if m.Lands? then -1 else 0 }

  lemma MoveAloft(p: Pass, n: nat, size: nat, m: Move)
    requires Inv(p, n) && Open(p, n, size, m)
    ensures Aloft(Moved(p, m)) == Aloft(p) + Lifts(m)
  {
    if m.Begins? { assert p.phase.begun !in p.phase.flying; }
  }

  /** However the pieces come, go, land and fail: a pass never has more than n begun and not
      landed, and none when it has ended; judges each page in the order listed; ends false
      exactly when the last three judged were no answer, and true only for want of work, all that
      is owed then stepped over, or when a list or the outcome judged last was the store failing. */
  lemma PassIsSound(owed: map<Key, nat>, arrivals: nat, n: nat, size: nat, moves: seq<Move>)
    requires (forall k :: k in owed ==> 0 < owed[k]) && AllOpen(Begun(owed, arrivals), n, size, moves)
    ensures var p := Run(Begun(owed, arrivals), moves);
            && 0 <= Airborne(moves) <= Max(n, 1) && (!p.phase.Working? ==> Airborne(moves) == 0)
            && (p.phase.Working? ==> Airborne(moves) == |p.phase.flying| && InOrder(p))
            && (p.phase.Ended? ==> (p.phase.up <==> !LastThreeMissed(p.log)))
            && (p.phase.Ended? && p.phase.up ==> p.phase.drained || ListFails in moves || LastFailed(p.log))
            && (p.phase.Ended? && p.phase.drained ==> forall k :: k in p.owed ==> k in p.tally.skip)
            && p.tally.skip == set i | 0 <= i < |p.log| && p.log[i].1 == NoAnswer :: p.log[i].0
  {
    RunKeeps(Begun(owed, arrivals), n, size, moves);
    RunEndsRight(Begun(owed, arrivals), n, size, moves);
  }

  // ---- every pass ends ----

  ghost function Rank(p: Pass): (nat, nat)
    requires p.phase.Working? ==> p.phase.begun <= |p.phase.todo| && p.phase.judged <= |p.phase.todo|
  {
    match p.phase
    case Ended(_, _) => (0, 0)
    case Listing => (2 * Left(p) + 1, 0)
    case Working(todo, begun, flying, _, judged, shut, base) =>
      (2 * base, Left(p) + 4 * (|todo| - begun) + 2 * |flying| + (|todo| - judged) + (if shut then 0 else 1))
  }

  predicate Under(a: (nat, nat), b: (nat, nat)) { a.0 < b.0 || (a.0 == b.0 && a.1 < b.1) }

  /** A page worked to its end leaves less to do than there was when it was listed. */
  lemma PageProgress(p: Pass, n: nat)
    requires Inv(p, n) && p.phase.Working? && p.tally.over.None? && p.phase.judged == |p.phase.todo|
    ensures Left(p) < p.phase.base
  {
    var w := p.phase;
    assert p.log[|p.log| - w.judged + 0] == (w.todo[0], w.results[0]);
    if w.results[0] == NoAnswer { assert w.todo[0] in p.tally.skip; }
  }

  lemma WorkRankFalls(p: Pass, n: nat, size: nat, m: Move)
    requires Inv(p, n) && Open(p, n, size, m) && p.phase.Working? && !m.Turns?
    ensures Inv(Moved(p, m), n) && Under(Rank(Moved(p, m)), Rank(p))
  {
    MoveKeeps(p, n, size, m);
    match m
    case Arrives(_, _) => LeftFalls(p, m);
    case Leaves(_) => LeftFalls(p, m);
    case Lands(i, o, spent) => LeftSpent(p, p.phase.todo[i], o, spent);
    case Judges => LeftJudged(p);
    case _ =>
  }

  lemma LeftJudged(p: Pass)
    requires Sane(p) && p.phase.Working? && p.phase.judged < |p.phase.todo| && p.phase.judged in p.phase.results
    ensures Left(Moved(p, Judges)) <= Left(p)
  {
    LeftStepped(p, p.phase.todo[p.phase.judged]);
  }

  lemma RankFalls(p: Pass, n: nat, size: nat, m: Move)
    requires Inv(p, n) && Open(p, n, size, m)
    ensures Inv(Moved(p, m), n) && Under(Rank(Moved(p, m)), Rank(p))
  {
    MoveKeeps(p, n, size, m);
    if p.phase.Working? && !m.Turns? {
      WorkRankFalls(p, n, size, m);
    } else if p.phase.Working? {
      if p.tally.over.None? { PageProgress(p, n); }
    } else if m.Arrives? || m.Leaves? {
      LeftFalls(p, m);
    }
  }

  lemma {:induction false} EndsFrom(f: nat -> Pass, ms: nat -> Move, n: nat, size: nat, i: nat)
    requires Inv(f(i), n)
    requires forall j: nat :: f(j).phase.Ended? || (Open(f(j), n, size, ms(j)) && f(j + 1) == Moved(f(j), ms(j)))
    ensures exists j: nat :: f(j).phase.Ended?
    decreases Rank(f(i)).0, Rank(f(i)).1
  {
    if !f(i).phase.Ended? {
      RankFalls(f(i), n, size, ms(i));
      EndsFrom(f, ms, n, size, i + 1);
    }
  }

  /** No pass goes on for ever: a run that moves on from every state but an ended one ends. */
  lemma EveryPassEnds(f: nat -> Pass, ms: nat -> Move, owed: map<Key, nat>, arrivals: nat, n: nat, size: nat)
    requires (forall k :: k in owed ==> 0 < owed[k]) && f(0) == Begun(owed, arrivals)
    requires forall j: nat :: f(j).phase.Ended? || (Open(f(j), n, size, ms(j)) && f(j + 1) == Moved(f(j), ms(j)))
    ensures exists j: nat :: f(j).phase.Ended?
  {
    EndsFrom(f, ms, n, size, 0);
  }

  lemma {:induction false} ListExists(owed: map<Key, nat>, limit: nat)
    ensures exists work :: ListOf(owed, limit, work)
    decreases limit
  {
    if limit == 0 || owed == map[] {
      assert ListOf(owed, limit, []);
    } else {
      var k :| k in owed;
      ListExists(owed - {k}, limit - 1);
      var work :| ListOf(owed - {k}, limit - 1, work);
      assert |owed - {k}| == |owed| - 1 by { assert owed == (owed - {k})[k := owed[k]]; }
      assert ListOf(owed, limit, work + [k]);
    }
  }

  /** A pass is never stuck: until it ends, the store's answer, a piece in flight or the pass itself has a move. */
  lemma NeverStuck(p: Pass, n: nat, size: nat)
    requires Inv(p, n) && !p.phase.Ended?
    ensures exists m: Move :: !m.Arrives? && !m.Leaves? && !m.ListFails? && Open(p, n, size, m)
  {
    if p.phase.Listing? {
      ListExists(p.owed, Limit(n, size, p.tally.skip));
      var work :| ListOf(p.owed, Limit(n, size, p.tally.skip), work);
      assert Open(p, n, size, Lists(work));
    } else if i: nat :| i in p.phase.flying {
      assert Open(p, n, size, Lands(i, NoAnswer, None));
    } else {
      Grounded(p, n);
      var m := if p.tally.over.None? && p.phase.judged in p.phase.results then Judges
               else if p.phase.shut then Turns
               else if p.phase.begun < |p.phase.todo| && p.tally.over.None? then Begins else Shuts;
      assert Open(p, n, size, m);
    }
  }

  lemma Grounded(p: Pass, n: nat)
    requires Inv(p, n) && p.phase.Working? && forall i: nat :: i !in p.phase.flying
    ensures p.phase.flying == {} && forall i: nat :: i in p.phase.results <==> i < p.phase.begun
  {
  }

  // ---- how many are begun past the piece that ends a pass ----

  /** A page just listed, none of it begun. */
  ghost predicate JustListed(p: Pass, n: nat)
  {
    && Inv(p, n) && p.tally.over.None?
    && p.phase.Working? && p.phase == Working(p.phase.todo, 0, {}, map[], 0, false, p.phase.base)
  }

  /** Moves made on one page, not past it. */
  ghost predicate OnPage(p: Pass, n: nat, size: nat, moves: seq<Move>)
  {
    AllOpen(p, n, size, moves) && Turns !in moves
  }

  /** The pieces begun past the last one judged, once that one ended the pass. */
  function Past(p: Pass): nat
  {
    if p.phase.Working? && p.tally.over.Some? && p.phase.begun > p.phase.judged
    then p.phase.begun - p.phase.judged else 0
  }

  /** Whatever happens on the page, at most n are begun past the piece that ends the pass. */
  ghost predicate AtMostPast(p: Pass, n: nat, size: nat)
  {
    forall moves :: OnPage(p, n, size, moves) ==> Past(Run(p, moves)) <= n
  }

  /** The same, of a pass that three misses end. */
  ghost predicate AtMostPastMisses(p: Pass, n: nat, size: nat)
  {
    forall moves :: OnPage(p, n, size, moves) && Run(p, moves).tally.over == Some(false) ==> Past(Run(p, moves)) <= n
  }

  /** The misses in a row still wanting when p was listed. */
  function Wanting(p: Pass): int { DOWN_AFTER - p.tally.missed }

  /** What q, on the page listed at p, owes to the pieces judged since. */
  ghost predicate PageOf(p: Pass, q: Pass, n: nat)
  {
    && Inv(q, n) && p.phase.Working? && q.phase.Working? && q.phase.todo == p.phase.todo
    && q.tally.missed <= p.tally.missed + q.phase.judged
    && (q.tally.over.Some? ==> q.phase.judged > 0 && (n <= 1 ==> q.phase.begun == q.phase.judged))
    && (q.tally.over == Some(false) ==> q.tally.missed >= DOWN_AFTER)
  }

  lemma PageMoves(p: Pass, q: Pass, n: nat, size: nat, m: Move)
    requires PageOf(p, q, n) && Open(q, n, size, m) && !m.Turns?
    ensures PageOf(p, Moved(q, m), n)
  {
    MoveKeeps(q, n, size, m);
  }

  lemma {:induction false} PageRuns(p: Pass, n: nat, size: nat, moves: seq<Move>)
    requires JustListed(p, n) && OnPage(p, n, size, moves)
    ensures PageOf(p, Run(p, moves), n)
    decreases |moves|
  {
    if moves != [] {
      var before, last := moves[..|moves| - 1], moves[|moves| - 1];
      assert last in moves;
      PageRuns(p, n, size, before);
      PageMoves(p, Run(p, before), n, size, last);
    }
  }

  /** One at a time none is; with more, all of the page but what was judged may be, and at least
      the misses still wanting were judged when an unanswering server ended it. */
  lemma PastIsBounded(p: Pass, n: nat, size: nat, moves: seq<Move>)
    requires JustListed(p, n) && OnPage(p, n, size, moves)
    ensures Past(Run(p, moves)) <= |p.phase.todo| - 1 && (n <= 1 ==> Past(Run(p, moves)) == 0)
    ensures Run(p, moves).tally.over == Some(false) ==> Past(Run(p, moves)) + Wanting(p) <= |p.phase.todo|
  {
    PageRuns(p, n, size, moves);
  }

  lemma RunSnoc(p: Pass, n: nat, size: nat, moves: seq<Move>, m: Move)
    requires OnPage(p, n, size, moves) && Open(Run(p, moves), n, size, m) && !m.Turns?
    ensures OnPage(p, n, size, moves + [m]) && Run(p, moves + [m]) == Moved(Run(p, moves), m)
  {
    assert (moves + [m])[..|moves + [m]| - 1] == moves;
  }

  /** The first k pieces of a page have the one outcome, the others were written. */
  function OutcomeAt(i: nat, k: nat, o: Outcome): Outcome { if i < k then o else Wrote }

  /** So many such outcomes, and no fewer, end the pass. */
  predicate EndsIt(p: Pass, k: nat, o: Outcome)
  {
    (o == StoreFailed && k == 1) || (o == NoAnswer && k == Wanting(p))
  }

  /** The first piece in flight, those up to the j-th landed past it, none judged. */
  ghost predicate Behind(p: Pass, q: Pass, j: nat, k: nat, o: Outcome)
    requires p.phase.Working?
  {
    && q.tally == p.tally && q.phase.Working? && q.phase.todo == p.phase.todo && q.phase.begun == j + 1
    && q.phase.flying == {0} && q.phase.judged == 0 && !q.phase.shut
    && forall i: nat :: 0 < i <= j ==> i in q.phase.results && q.phase.results[i] == OutcomeAt(i, k, o)
  }

  lemma SlowStep(p: Pass, q: Pass, n: nat, size: nat, j: nat, k: nat, o: Outcome)
    requires JustListed(p, n) && 0 < j < |p.phase.todo| && n >= 2 && Behind(p, q, j - 1, k, o)
    ensures Open(q, n, size, Begins) && Open(Moved(q, Begins), n, size, Lands(j, OutcomeAt(j, k, o), None))
    ensures Behind(p, Moved(Moved(q, Begins), Lands(j, OutcomeAt(j, k, o), None)), j, k, o)
  {
  }

  /** The run in which the first piece is slow: the others of its page begin and land past it. */
  lemma {:induction false} SlowRun(p: Pass, n: nat, size: nat, j: nat, k: nat, o: Outcome) returns (moves: seq<Move>)
    requires JustListed(p, n) && j < |p.phase.todo| && n >= 2
    ensures OnPage(p, n, size, moves) && Behind(p, Run(p, moves), j, k, o)
  {
    if j == 0 {
      RunSnoc(p, n, size, [], Begins);
      moves := [] + [Begins];
    } else {
      var before := SlowRun(p, n, size, j - 1, k, o);
      SlowStep(p, Run(p, before), n, size, j, k, o);
      RunSnoc(p, n, size, before, Begins);
      RunSnoc(p, n, size, before + [Begins], Lands(j, OutcomeAt(j, k, o), None));
      moves := before + [Begins] + [Lands(j, OutcomeAt(j, k, o), None)];
    }
  }

  /** All of the page begun, its outcomes back, the first j judged and the pass over at the k-th. */
  ghost predicate Heard(p: Pass, q: Pass, j: nat, k: nat, o: Outcome)
    requires p.phase.Working?
  {
    && q.phase.Working? && q.phase.todo == p.phase.todo && q.phase.begun == |q.phase.todo| && q.phase.judged == j
    && (forall i: nat :: i < |q.phase.todo| ==> i in q.phase.results && q.phase.results[i] == OutcomeAt(i, k, o))
    && (o == NoAnswer ==> q.tally.missed == p.tally.missed + j)
    && q.tally.over == if j < k then None else Some(o == StoreFailed)
  }

  lemma {:induction false} HearRun(p: Pass, n: nat, size: nat, first: seq<Move>, j: nat, k: nat, o: Outcome)
    returns (moves: seq<Move>)
    requires p.phase.Working? && EndsIt(p, k, o) && j <= k <= |p.phase.todo|
    requires OnPage(p, n, size, first) && Heard(p, Run(p, first), 0, k, o)
    ensures OnPage(p, n, size, moves) && Heard(p, Run(p, moves), j, k, o)
  {
    moves := first;
    if j > 0 {
      var before := HearRun(p, n, size, first, j - 1, k, o);
      RunSnoc(p, n, size, before, Judges);
      moves := before + [Judges];
    }
  }

  lemma LandFirst(p: Pass, n: nat, size: nat, first: seq<Move>, k: nat, o: Outcome) returns (moves: seq<Move>)
    requires JustListed(p, n) && EndsIt(p, k, o) && 0 < k && OnPage(p, n, size, first)
    requires Behind(p, Run(p, first), |p.phase.todo| - 1, k, o)
    ensures OnPage(p, n, size, moves) && Heard(p, Run(p, moves), 0, k, o)
  {
    FirstLands(p, Run(p, first), n, size, k, o);
    RunSnoc(p, n, size, first, Lands(0, o, None));
    moves := first + [Lands(0, o, None)];
  }

  lemma FirstLands(p: Pass, q: Pass, n: nat, size: nat, k: nat, o: Outcome)
    requires p.phase.Working? && p.phase.todo != [] && p.tally.over.None? && EndsIt(p, k, o) && 0 < k
    requires Behind(p, q, |p.phase.todo| - 1, k, o)
    ensures Open(q, n, size, Lands(0, o, None)) && Heard(p, Moved(q, Lands(0, o, None)), 0, k, o)
  {
  }

  /** With two or more at once, a page can be begun to its last piece past the k that end the pass. */
  lemma Overrun(p: Pass, n: nat, size: nat, k: nat, o: Outcome) returns (moves: seq<Move>)
    requires JustListed(p, n) && n >= 2 && EndsIt(p, k, o) && 0 < k <= |p.phase.todo|
    ensures OnPage(p, n, size, moves) && Run(p, moves).tally.over == Some(o == StoreFailed)
    ensures Past(Run(p, moves)) == |p.phase.todo| - k
  {
    var slow := SlowRun(p, n, size, |p.phase.todo| - 1, k, o);
    var landed := LandFirst(p, n, size, slow, k, o);
    moves := HearRun(p, n, size, landed, k, k, o);
  }

  /** At most n pieces are ever begun past the one that ends the pass exactly when they go one
      at a time or the page holds no more than that one and n: only what is in flight is bounded. */
  lemma PastTheEndIff(p: Pass, n: nat, size: nat)
    requires JustListed(p, n)
    ensures AtMostPast(p, n, size) <==> n <= 1 || |p.phase.todo| <= n + 1
  {
    if n <= 1 || |p.phase.todo| <= n + 1 {
      forall moves | OnPage(p, n, size, moves)
        ensures Past(Run(p, moves)) <= n
      {
        PastIsBounded(p, n, size, moves);
      }
    } else {
      var moves := Overrun(p, n, size, 1, StoreFailed);
      assert OnPage(p, n, size, moves) && Past(Run(p, moves)) > n;
    }
  }

  /** A server that is away is asked at most n times more than the misses that said so exactly
      when one at a time, or when the page holds no more than those still wanting and n. */
  lemma PastTheMissesIff(p: Pass, n: nat, size: nat)
    requires JustListed(p, n)
    ensures 0 < Wanting(p) <= DOWN_AFTER
    ensures AtMostPastMisses(p, n, size) <==> n <= 1 || |p.phase.todo| <= n + Wanting(p)
  {
    if n <= 1 || |p.phase.todo| <= n + Wanting(p) {
      forall moves | OnPage(p, n, size, moves) && Run(p, moves).tally.over == Some(false)
        ensures Past(Run(p, moves)) <= n
      {
        PastIsBounded(p, n, size, moves);
      }
    } else {
      var moves := Overrun(p, n, size, Wanting(p), NoAnswer);
      assert OnPage(p, n, size, moves) && Past(Run(p, moves)) > n;
    }
  }

  lemma {:induction false} TodoWithin(work: seq<Key>, skip: set<Key>)
    ensures |Todo(work, skip)| <= |work|
    ensures (forall i :: 0 <= i < |work| ==> work[i] !in skip) ==> Todo(work, skip) == work
  {
    if work != [] { TodoWithin(work[..|work| - 1], skip); }
  }

  /** Pieces 0 to m - 1, a try left of each. */
  function Upto(m: nat): (owed: map<Key, nat>)
    ensures |owed| == m && (forall k: nat :: k in owed <==> k < m) && forall k :: k in owed ==> owed[k] == 1
  {
    if m == 0 then map[] else Upto(m - 1)[m - 1 := 1]
  }

  /** A first page of what is owed, listed by a pass just begun. */
  ghost predicate FirstPage(owed: map<Key, nat>, n: nat, size: nat, work: seq<Key>)
  {
    Sane(Begun(owed, 0)) && ListOf(owed, Limit(n, size, {}), work) && work != []
  }

  ghost predicate FirstPagesHold(n: nat, size: nat)
  {
    forall owed, work :: FirstPage(owed, n, size, work) ==> AtMostPast(Moved(Begun(owed, 0), Lists(work)), n, size)
  }

  lemma FirstListed(owed: map<Key, nat>, n: nat, size: nat, work: seq<Key>)
    requires FirstPage(owed, n, size, work)
    ensures var p := Moved(Begun(owed, 0), Lists(work)); JustListed(p, n) && p.phase.todo == work
  {
    TodoWithin(work, {});
    ListKeeps(Begun(owed, 0), n, size, work);
  }

  /** A pass's first page keeps the bound whatever it lists exactly when the page size is at
      most one more than what is in flight: with a size of four, unless two go at once. */
  lemma FirstPagesHoldIff(n: nat, size: nat)
    ensures FirstPagesHold(n, size) <==> n <= 1 || size <= n + 1
  {
    if n <= 1 || size <= n + 1 {
      forall owed, work | FirstPage(owed, n, size, work)
        ensures AtMostPast(Moved(Begun(owed, 0), Lists(work)), n, size)
      {
        FirstListed(owed, n, size, work);
        PastTheEndIff(Moved(Begun(owed, 0), Lists(work)), n, size);
      }
    } else {
      var work := seq(size, i requires 0 <= i => i);
      assert FirstPage(Upto(size), n, size, work);
      FirstListed(Upto(size), n, size, work);
      PastTheEndIff(Moved(Begun(Upto(size), 0), Lists(work)), n, size);
    }
  }

  // ---- the pass as it runs, one piece at a time ----

  /** What may go on beside a pass between two states of the work: any pass keeps its
      invariant over it, and is left with no more to do. */
  ghost predicate Drifts(owed: map<Key, nat>, arrivals: nat, owed1: map<Key, nat>, arrivals1: nat)
  {
    forall p: Pass, n: nat :: Inv(p, n) && !p.phase.Ended? && p.owed == owed && p.arrivals == arrivals ==>
      Inv(p.(owed := owed1, arrivals := arrivals1), n) && Left(p.(owed := owed1, arrivals := arrivals1)) <= Left(p)
  }

  lemma ComeDrifts(owed: map<Key, nat>, arrivals: nat, k: Key, tries: nat)
    requires arrivals > 0 && k !in owed && 0 < tries <= MAX_TRIES
    ensures Drifts(owed, arrivals, owed[k := tries], arrivals - 1)
  {
    forall p: Pass, n: nat | Inv(p, n) && !p.phase.Ended? && p.owed == owed && p.arrivals == arrivals
      ensures Inv(p.(owed := owed[k := tries], arrivals := arrivals - 1), n)
      ensures Left(p.(owed := owed[k := tries], arrivals := arrivals - 1)) <= Left(p)
    {
      OutsideKeeps(p, n, 0, Arrives(k, tries));
      LeftFalls(p, Arrives(k, tries));
    }
  }

  lemma GoDrifts(owed: map<Key, nat>, arrivals: nat, k: Key)
    requires k in owed
    ensures Drifts(owed, arrivals, owed - {k}, arrivals)
  {
    forall p: Pass, n: nat | Inv(p, n) && !p.phase.Ended? && p.owed == owed && p.arrivals == arrivals
      ensures Inv(p.(owed := owed - {k}, arrivals := arrivals), n)
      ensures Left(p.(owed := owed - {k}, arrivals := arrivals)) <= Left(p)
    {
      OutsideKeeps(p, n, 0, Leaves(k));
      LeftFalls(p, Leaves(k));
    }
  }

  lemma NoDrift(owed: map<Key, nat>, arrivals: nat)
    ensures Drifts(owed, arrivals, owed, arrivals)
  {
    forall p: Pass | p.owed == owed && p.arrivals == arrivals
      ensures p.(owed := owed, arrivals := arrivals) == p
    {
    }
  }

  /** A piece that comes, a piece that goes, or nothing. */
  function Event(owed: map<Key, nat>, arrivals: nat, k: Key, tries: nat, comes: bool): (map<Key, nat>, nat)
  {
    if k in owed then (owed - {k}, arrivals)
    else if comes && arrivals > 0 && 0 < tries <= MAX_TRIES then (owed[k := tries], arrivals - 1)
    else (owed, arrivals)
  }

  lemma EventDrifts(owed: map<Key, nat>, arrivals: nat, k: Key, tries: nat, comes: bool)
    ensures Drifts(owed, arrivals, Event(owed, arrivals, k, tries, comes).0, Event(owed, arrivals, k, tries, comes).1)
  {
    if k in owed {
      GoDrifts(owed, arrivals, k);
    } else if comes && arrivals > 0 && 0 < tries <= MAX_TRIES {
      ComeDrifts(owed, arrivals, k, tries);
    } else {
      NoDrift(owed, arrivals);
    }
  }

  lemma DriftOn(owed: map<Key, nat>, arrivals: nat, owed1: map<Key, nat>, arrivals1: nat, owed2: map<Key, nat>,
      arrivals2: nat)
    requires Drifts(owed, arrivals, owed1, arrivals1) && Drifts(owed1, arrivals1, owed2, arrivals2)
    ensures Drifts(owed, arrivals, owed2, arrivals2)
  {
    forall p: Pass, n: nat | Inv(p, n) && !p.phase.Ended? && p.owed == owed && p.arrivals == arrivals
      ensures Inv(p.(owed := owed2, arrivals := arrivals2), n) &&
        Left(p.(owed := owed2, arrivals := arrivals2)) <= Left(p)
    {
      var p1 := p.(owed := owed1, arrivals := arrivals1);
      assert Inv(p1, n) && Left(p1) <= Left(p);
      assert p1.(owed := owed2, arrivals := arrivals2) == p.(owed := owed2, arrivals := arrivals2);
    }
  }

  /** The store and the server as the pass meets them: pieces come, a bounded number of them,
      and go at any time; a piece tried is settled, spends a try, or gets no answer. */
  class World {
    var owed: map<Key, nat>
    var arrivals: nat
    /** How many lists have failed. */
    ghost var failures: nat

    /** What goes on meanwhile. */
    method Drift()
      modifies this`owed, this`arrivals
      ensures Drifts(old(owed), old(arrivals), owed, arrivals)
    {
      var events: nat := *;
      NoDrift(owed, arrivals);
      while events > 0
        invariant Drifts(old(owed), old(arrivals), owed, arrivals)
      {
        var k: Key, tries: nat, comes: bool := *, *, *;
        var (owed1, arrivals1) := Event(owed, arrivals, k, tries, comes);
        EventDrifts(owed, arrivals, k, tries, comes);
        DriftOn(old(owed), old(arrivals), owed, arrivals, owed1, arrivals1);
        owed, arrivals, events := owed1, arrivals1, events - 1;
      }
    }

    /** A page of the work still owed, or none when the store fails. */
    method List(limit: nat) returns (work: Option<seq<Key>>)
      modifies this
      ensures Drifts(old(owed), old(arrivals), owed, arrivals)
      ensures failures == old(failures) + (if work.None? then 1 else 0)
      ensures work.Some? ==> ListOf(owed, limit, work.value)
    {
      Drift();
      var fails: bool := *;
      if fails {
        failures := failures + 1;
        return None;
      }
      var page: seq<Key>, rest := [], owed;
      while |page| < limit && rest != map[]
        invariant |page| <= limit && Distinct(page) && |page| + |rest| == |owed|
        invariant forall i :: 0 <= i < |page| ==> page[i] in owed && page[i] !in rest
        invariant forall k :: k in rest ==> k in owed
        decreases |rest|
      {
        var k :| k in rest;
        assert rest == (rest - {k})[k := rest[k]];
        page, rest := page + [k], rest - {k};
      }
      work := Some(page);
    }

    /** One piece tried; mid is the work as the outcome found it. */
    method Do(k: Key) returns (o: Outcome, ghost mid: map<Key, nat>, ghost spent: Option<nat>)
      modifies this`owed, this`arrivals
      ensures Drifts(old(owed), old(arrivals), mid, arrivals)
      ensures Spends(mid, k, o, spent) && owed == After(mid, k, o, spent)
    {
      Drift();
      mid, spent := owed, None;
      o := *;
      var left: nat := *;
      if o == Wrote && k in owed {
        if 0 < left < owed[k] {
          spent := Some(left);
          owed := owed[k := left];
        } else {
          owed := owed - {k};
        }
      }
    }
  }

  /** Between two pieces: all that was begun is judged, and the pass goes on. */
  ghost predicate Between(p: Pass, todo: seq<Key>, i: nat)
  {
    && Inv(p, 1) && p.tally.over.None? && p.phase.Working? && p.phase.todo == todo &&
       p.phase.begun == p.phase.judged == i
    && !p.phase.shut && p.phase.flying == {}
  }

  /** One piece of a page, begun, tried and judged: the moves a pass one at a time makes. */
  ghost function OneDone(p: Pass, mid: map<Key, nat>, arrivals: nat, i: nat, o: Outcome, spent: Option<nat>): Pass
  {
    Moved(Moved(Moved(p, Begins).(owed := mid, arrivals := arrivals), Lands(i, o, spent)), Judges)
  }

  lemma OneBegun(p: Pass, todo: seq<Key>, i: nat, mid: map<Key, nat>, arrivals: nat)
    requires Between(p, todo, i) && i < |todo| && Drifts(p.owed, p.arrivals, mid, arrivals)
    ensures var q := Moved(p, Begins).(owed := mid, arrivals := arrivals);
            Inv(q, 1) && q.tally == p.tally && q.phase == p.phase.(begun := i + 1, flying := {i})
  {
    BeginKeeps(p, 1, 0);
    assert Inv(Moved(p, Begins), 1);
  }

  lemma OneKeeps(p: Pass, todo: seq<Key>, i: nat, mid: map<Key, nat>, arrivals: nat, o: Outcome, spent: Option<nat>)
    requires Between(p, todo, i) && i < |todo| && Drifts(p.owed, p.arrivals, mid, arrivals) &&
      Spends(mid, todo[i], o, spent)
    ensures var q := OneDone(p, mid, arrivals, i, o, spent);
            && Inv(q, 1) && q.owed == After(mid, todo[i], o, spent) && q.arrivals == arrivals
            && q.tally == Judge(p.tally, todo[i], o) && (q.tally.over.None? ==> Between(q, todo, i + 1))
            && q.phase.Working? && q.phase.base == p.phase.base
  {
    var q1 := Moved(p, Begins).(owed := mid, arrivals := arrivals);
    OneBegun(p, todo, i, mid, arrivals);
    LandKeeps(q1, 1, 0, i, o, spent);
    JudgeKeeps(Moved(q1, Lands(i, o, spent)), 1, 0);
  }

  /** One page, a piece at a time, each judged before the next is begun. */
  method WorkPage(w: World, todo: seq<Key>, skip0: set<Key>, missed0: nat, ghost p: Pass)
    returns (skip: set<Key>, missed: nat, over: Option<bool>, ghost q: Pass)
    requires Between(p, todo, 0) && p.owed == w.owed && p.arrivals == w.arrivals &&
      p.tally == Tally(skip0, missed0, None)
    modifies w`owed, w`arrivals
    ensures Inv(q, 1) && q.owed == w.owed && q.arrivals == w.arrivals && q.tally == Tally(skip, missed, over)
    ensures over.None? ==> Between(q, todo, |todo|) && q.phase.base == p.phase.base
  {
    skip, missed, over, q := skip0, missed0, None, p;
    for i := 0 to |todo|
      invariant Between(q, todo, i) && q.phase.base == p.phase.base && q.owed == w.owed && q.arrivals == w.arrivals
      invariant q.tally == Tally(skip, missed, None)
    {
      var o, mid, spent := w.Do(todo[i]);
      OneKeeps(q, todo, i, mid, w.arrivals, o, spent);
      q := OneDone(q, mid, w.arrivals, i, o, spent);
      match o
      case StoreFailed =>
        over := Some(true);
        return;
      case NoAnswer =>
        skip, missed := skip + {todo[i]}, missed + 1;
        if missed >= DOWN_AFTER {
          over := Some(false);
          return;
        }
      case Wrote =>
        missed := 0;
    }
  }

  method StillToDo(work: seq<Key>, skip: set<Key>) returns (todo: seq<Key>)
    ensures todo == Todo(work, skip)
  {
    todo := [];
    for i := 0 to |work|
      invariant todo == Todo(work[..i], skip)
    {
      assert work[..i + 1][..i] == work[..i];
      if work[i] !in skip { todo := todo + [work[i]]; }
    }
    assert work[..|work|] == work;
  }

  lemma PageDone(p: Pass, todo: seq<Key>)
    requires Between(p, todo, |todo|)
    ensures var q := p.(phase := Listing); Inv(q, 1) && Left(q) < p.phase.base
  {
    PageProgress(p, 1);
  }

  /** The pass carried over what went on while the store listed. */
  lemma Drifted(p: Pass, owed: map<Key, nat>, arrivals: nat)
    requires Inv(p, 1) && p.phase.Listing? && Drifts(p.owed, p.arrivals, owed, arrivals)
    ensures var p1 := p.(owed := owed, arrivals := arrivals); Inv(p1, 1) && Left(p1) <= Left(p)
  {
  }

  lemma PassListed(p: Pass, size: nat, work: seq<Key>)
    requires Inv(p, 1) && p.phase.Listing? && ListOf(p.owed, Limit(1, size, p.tally.skip), work)
    ensures var todo, listed := Todo(work, p.tally.skip), Moved(p, Lists(work));
            && listed.owed == p.owed && listed.arrivals == p.arrivals && listed.tally == p.tally
            && if todo == [] then p.owed.Keys <= p.tally.skip && !LastThreeMissed(p.log)
               else Between(listed, todo, 0) && listed.phase.base == Left(p)
  {
    ListKeeps(p, 1, size, work);
  }

  lemma PassOver(q: Pass)
    requires Inv(q, 1) && q.tally.over.Some?
    ensures q.tally.over.value <==> !LastThreeMissed(q.log)
    ensures q.tally.over.value ==> LastFailed(q.log)
  {
  }

  lemma SteppedOver(p: Pass, k: Key)
    requires Tallied(p.tally, p.log) && p.owed.Keys <= p.tally.skip && k in p.owed
    ensures exists i :: 0 <= i < |p.log| && p.log[i] == (k, NoAnswer)
  {
    assert k in p.tally.skip;
    var i :| 0 <= i < |p.log| && p.log[i].1 == NoAnswer && p.log[i].0 == k;
    assert p.log[i] == (k, NoAnswer);
  }

  /** One pass, one piece at a time. log is what was judged, in order; dry says it ended for
      want of work. It ends, whatever the store and the server do, and goes on until it is dry,
      a list fails, or the outcome judged last ends it. */
  method Drain(w: World, size: nat) returns (up: bool, ghost log: seq<(Key, Outcome)>, ghost dry: bool)
    requires forall k :: k in w.owed ==> 0 < w.owed[k]
    modifies w
    ensures up <==> !LastThreeMissed(log)
    ensures up ==> dry || w.failures > old(w.failures) || LastFailed(log)
    ensures dry ==> forall k :: k in w.owed ==> exists i :: 0 <= i < |log| && log[i] == (k, NoAnswer)
  {
    var skip: set<Key>, missed := {}, 0;
    ghost var p := Begun(w.owed, w.arrivals);
    while true
      invariant Inv(p, 1) && p.phase.Listing? && p.owed == w.owed && p.arrivals == w.arrivals
      invariant p.tally == Tally(skip, missed, None) && w.failures == old(w.failures)
      decreases Left(p)
    {
      var work := w.List(Limit(1, size, skip));
      Drifted(p, w.owed, w.arrivals);
      p := p.(owed := w.owed, arrivals := w.arrivals);
      if work.None? {
        FailKeeps(p, 1);
        return true, p.log, false;
      }
      var todo := StillToDo(work.value, skip);
      PassListed(p, size, work.value);
      if todo == [] {
        forall k | k in w.owed ensures exists i :: 0 <= i < |p.log| && p.log[i] == (k, NoAnswer) { SteppedOver(p, k); }
        return true, p.log, true;
      }
      ghost var listed := Moved(p, Lists(work.value));
      ghost var q: Pass;
      var over: Option<bool>;
      skip, missed, over, q := WorkPage(w, todo, skip, missed, listed);
      if over.Some? {
        PassOver(q);
        return over.value, q.log, false;
      }
      PageDone(q, todo);
      p := q.(phase := Listing);
    }
  }
}
