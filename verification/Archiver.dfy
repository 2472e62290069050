/** Archived copies of link cards: rounds of lookups, saves and polls, one call at a time. */
module Archiver {
  import opened Messages
  import F = Files

  /** One round's next step: begin (no link yet), look up (no job yet) or poll the save job. */
  datatype Job = Job(post: Id, link: string, job: string, step: nat)
  datatype Timer = Timer(due: int, job: Job)

  /** What the goroutine is at: nothing, a pause before a call, or a call. */
  datatype Doing =
    | Idle
    | ToLookUp(j: Job)
    | LookingUp(j: Job)
    | ToSave(j: Job)
    | Saving(j: Job)
    | ToPoll(j: Job)
    | Polling(j: Job)

  datatype Looked = Found(copy: string) | NoneFound | LookFailed(tooMany: bool)
  datatype Save = SaveBegun(job: string) | SaveRefused(tooMany: bool)
  datatype Polled = Copied(copy: string) | Pending | SaveLost | PollFailed(tooMany: bool)

  /** The calls of one round so far. */
  datatype Tally = Tally(looks: nat, saves: nat, polls: nat)
  /** A call begun, and a 429 heard. */
  datatype Event = Called(at: int) | TooMany(at: int)

  datatype Config = Config(gap: int, quiet: int, retries: seq<int>, polls: seq<int>)

  const QUEUE_CAP: nat := 256
  const ARCHIVE_TRIES: nat := 3
  const ARCHIVE_EVERY: int := 3600000

  /** The archiver, the cards it works on, and, kept only to state things by, the calls of the
      rounds in flight and of those that ended, what happened when, and when each card's rounds
      began since its row was written. */
  datatype State = State(now: int, queue: seq<Job>, timers: seq<Timer>, doing: Doing, busy: set<Id>,
                         last: Option<int>, calm: Option<int>, cards: map<Id, F.Card>,
                         made: map<Id, Tally>, ended: seq<Tally>, events: seq<Event>, began: map<Id, seq<int>>)

  datatype Move =
    | Ticks(to: int)
    | Enqueues(post: Id)
    | Fires(i: nat)
    | CardWritten(post: Id, card: F.CardRow, ok: bool)
    | CardGone(post: Id)
    | Takes(storeUp: bool)
    | Calls
    | LookedUp(looked: Looked)
    | SaveAnswered(save: Save)
    | PollAnswered(polled: Polled)

  // ---- the source's functions, between one call and the next ----

  /** What the clock properties speak of: everything else may change freely. */
  predicate SameClock(s: State, s1: State)
  {
    s1.last == s.last && s1.calm == s.calm && s1.events == s.events && s1.now == s.now
  }

  /** What the count of rounds begun speaks of. */
  predicate SameRounds(s: State, s1: State)
  {
    && s1.began == s.began && s1.cards.Keys == s.cards.Keys
    && forall p :: p in s.cards ==>
       s1.cards[p].archiveTries == s.cards[p].archiveTries && s1.cards[p].archiveTs == s.cards[p].archiveTs
  }

  /** later: the round comes back to the queue when its next step is due. */
  function Later(s: State, j: Job, after: int): (s1: State)
    ensures SameClock(s, s1) && SameRounds(s, s1) && s1.made == s.made
  {
    s.(timers := s.timers + [Timer(s.now + after, j)], doing := Idle)
  }

  /** failed: a 429 quiets the archiver. */
  function Failed(s: State, c: Config, tooMany: bool): (s1: State)
    ensures SameRounds(s, s1) && s1.made == s.made && s1.doing == s.doing
  {
    if tooMany then s.(calm := Some(s.now + c.quiet), events := s.events + [TooMany(s.now)]) else s
  }

  function TallyOf(s: State, p: Id): Tally { if p in s.made then s.made[p] else Tally(0, 0, 0) }

  /** The round is over. */
  function Over(s: State, p: Id): (s1: State)
    ensures SameClock(s, s1) && SameRounds(s, s1) && s1.made == s.made - {p}
  {
    s.(busy := s.busy - {p}, doing := Idle, made := s.made - {p}, ended := s.ended + [TallyOf(s, p)])
  }

  function Land(s: State, p: Id, copy: string): (s1: State)
    ensures SameClock(s, s1) && SameRounds(s, s1) && s1.made == s.made - {p}
  {
    Over(s, p).(cards := F.SetArchive(s.cards, p, copy))
  }

  function Begin(s: State, p: Id, storeUp: bool): (s1: State)
    ensures SameClock(s, s1) && (p in s.busy ==> s1 == s)
    ensures s1.made == s.made || s1.made == s.made[p := Tally(0, 0, 0)]
  {
    if p in s.busy || !storeUp then s
    else
      var (cards, link) := F.BeginArchive(s.cards, p, ARCHIVE_TRIES, s.now - ARCHIVE_EVERY, s.now);
      if link.None? then s
      else
        var s1 := s.(cards := cards, began := s.began[p := Began(s, p) + [s.now]]);
        if link.value == "" then s1
        else s1.(busy := s.busy + {p}, doing := ToLookUp(Job(p, link.value, "", 0)),
                 made := s.made[p := Tally(0, 0, 0)])
  }

  function Began(s: State, p: Id): seq<int> { if p in s.began then s.began[p] else [] }

  /** The goroutine takes the next job off the queue. */
  function Take(s: State, storeUp: bool): (s1: State)
    requires s.queue != []
    ensures SameClock(s, s1) &&
      (s1.made == s.made || (s.queue[0].post !in s.busy && s1.made == s.made[s.queue[0].post := Tally(0, 0, 0)]))
  {
    var j := s.queue[0];
    var s1 := s.(queue := s.queue[1..]);
    if j.link == "" then Begin(s1, j.post, storeUp)
    else if j.job == "" then s1.(doing := ToLookUp(j))
    else s1.(doing := ToPoll(j))
  }

  /** wait, over: the pause between calls is kept, and a quiet. */
  predicate Rested(s: State, c: Config)
  {
    (s.last.Some? ==> s.now >= s.last.value + c.gap) && (s.calm.Some? ==> s.now >= s.calm.value)
  }

  function Call(s: State): (s1: State)
    ensures SameRounds(s, s1)
  {
    var s1 := s.(last := Some(s.now), events := s.events + [Called(s.now)]);
    match s.doing
    case ToLookUp(j) =>
      s1.(doing := LookingUp(j),
          made := s.made[j.post := TallyOf(s, j.post).(looks := TallyOf(s, j.post).looks + 1)])
    case ToSave(j) =>
      s1.(doing := Saving(j),
          made := s.made[j.post := TallyOf(s, j.post).(saves := TallyOf(s, j.post).saves + 1)])
    case ToPoll(j) =>
      s1.(doing := Polling(j),
          made := s.made[j.post := TallyOf(s, j.post).(polls := TallyOf(s, j.post).polls + 1)])
    case _ => s
  }

  /** A failed lookup is tried again, or past the last retry saved without; one that found nothing is saved. */
  function AfterLookUp(s: State, c: Config, j: Job, a: Looked): (s1: State)
    ensures SameRounds(s, s1) && (s1.made == s.made || s1.made == s.made - {j.post})
    ensures SameClock(if a.LookFailed? then Failed(s, c, a.tooMany) else s, s1)
  {
    match a
    case Found(copy) => Land(s, j.post, copy)
    case NoneFound => s.(doing := ToSave(j))
    case LookFailed(tooMany) => RetryOrSave(Failed(s, c, tooMany), c, j)
  }

  function RetryOrSave(s: State, c: Config, j: Job): (s1: State)
    ensures SameClock(s, s1) && SameRounds(s, s1) && s1.made == s.made
  {
    if j.step < |c.retries| then Later(s, j.(step := j.step + 1), c.retries[j.step]) else s.(doing := ToSave(j))
  }

  function AfterSave(s: State, c: Config, j: Job, a: Save): (s1: State)
    requires c.polls != []
    ensures SameRounds(s, s1) && (s1.made == s.made || s1.made == s.made - {j.post})
    ensures SameClock(if a.SaveRefused? then Failed(s, c, a.tooMany) else s, s1)
  {
    match a
    case SaveBegun(job) => Later(s, j.(job := job, step := 0), c.polls[0])
    case SaveRefused(tooMany) => Over(Failed(s, c, tooMany), j.post)
  }

  /** A save job still pending, or not answered for, is asked about again, a bounded number of times. */
  function AfterPoll(s: State, c: Config, j: Job, a: Polled): (s1: State)
    ensures SameRounds(s, s1) && (s1.made == s.made || s1.made == s.made - {j.post})
    ensures SameClock(if a.PollFailed? then Failed(s, c, a.tooMany) else s, s1)
  {
    match a
    case SaveLost => Over(s, j.post)
    case Copied(copy) => Land(s, j.post, copy)
    case Pending => AskAgain(s, c, j)
    case PollFailed(tooMany) => AskAgain(Failed(s, c, tooMany), c, j)
  }

  function AskAgain(s: State, c: Config, j: Job): (s1: State)
    ensures SameClock(s, s1) && SameRounds(s, s1) && (s1.made == s.made || s1.made == s.made - {j.post})
  {
    if j.step + 1 >= |c.polls| then Over(s, j.post) else Later(s, j.(step := j.step + 1), c.polls[j.step + 1])
  }

  // ---- moves ----

  predicate Open(s: State, c: Config, m: Move)
  {
    match m
    case Ticks(to) => to >= s.now
    case Enqueues(_) => true
    case Fires(i) => i < |s.timers| && s.timers[i].due <= s.now && |s.queue| < QUEUE_CAP
    case CardWritten(_, _, _) => true
    case CardGone(_) => true
    case Takes(_) => s.doing.Idle? && s.queue != []
    case Calls => (s.doing.ToLookUp? || s.doing.ToSave? || s.doing.ToPoll?) && Rested(s, c)
    case LookedUp(_) => s.doing.LookingUp?
    case SaveAnswered(a) => s.doing.Saving? && (a.SaveBegun? ==> a.job != "")
    case PollAnswered(_) => s.doing.Polling?
  }

  function Moved(s: State, c: Config, m: Move): State
    requires c.polls != [] && Open(s, c, m)
  {
    match m
    case Ticks(to) => s.(now := to)
    case Enqueues(post) => if |s.queue| < QUEUE_CAP then s.(queue := s.queue + [Job(post, "", "", 0)]) else s
    case Fires(i) => s.(queue := s.queue + [s.timers[i].job], timers := s.timers[..i] + s.timers[i + 1..])
    case CardWritten(post, card, ok) =>
      s.(cards := s.cards[post := F.StoredCard(card, ok, s.now)], began := s.began - {post})
    case CardGone(post) => s.(cards := s.cards - {post}, began := s.began - {post})
    case Takes(storeUp) => Take(s, storeUp)
    case Calls => Call(s)
    case LookedUp(a) => AfterLookUp(s, c, s.doing.j, a)
    case SaveAnswered(a) => AfterSave(s, c, s.doing.j, a)
    case PollAnswered(a) => AfterPoll(s, c, s.doing.j, a)
  }

  // ---- rounds in flight ----

  predicate RoundOf(j: Job, p: Id) { j.link != "" && j.post == p }

  function InQueue(q: seq<Job>, p: Id): nat
  {
    if q == [] then 0 else InQueue(q[..|q| - 1], p) + (if RoundOf(q[|q| - 1], p) then 1 else 0)
  }

  function InTimers(ts: seq<Timer>, p: Id): nat
  {
    if ts == [] then 0 else InTimers(ts[..|ts| - 1], p) + (if RoundOf(ts[|ts| - 1].job, p) then 1 else 0)
  }

  function Running(d: Doing, p: Id): nat
  {
    if !d.Idle? && d.j.post == p then 1 else 0
  }

  /** Rounds of p waiting on a timer, queued, or being worked. */
  function InFlight(s: State, p: Id): nat { InQueue(s.queue, p) + InTimers(s.timers, p) + Running(s.doing, p) }

  lemma InQueueSnoc(q: seq<Job>, j: Job, p: Id)
    ensures InQueue(q + [j], p) == InQueue(q, p) + (if RoundOf(j, p) then 1 else 0)
  {
    assert (q + [j])[..|q + [j]| - 1] == q;
  }

  lemma InTimersSnoc(ts: seq<Timer>, t: Timer, p: Id)
    ensures InTimers(ts + [t], p) == InTimers(ts, p) + (if RoundOf(t.job, p) then 1 else 0)
  {
    assert (ts + [t])[..|ts + [t]| - 1] == ts;
  }

  lemma {:induction false} InQueueHead(q: seq<Job>, p: Id)
    requires q != []
    ensures InQueue(q, p) == (if RoundOf(q[0], p) then 1 else 0) + InQueue(q[1..], p)
    decreases |q|
  {
    if |q| > 1 {
      InQueueHead(q[..|q| - 1], p);
      assert q[..|q| - 1][1..] == q[1..][..|q[1..]| - 1];
    }
  }

  lemma {:induction false} InTimersOut(ts: seq<Timer>, i: nat, p: Id)
    requires i < |ts|
    ensures InTimers(ts, p) == InTimers(ts[..i] + ts[i + 1..], p) + (if RoundOf(ts[i].job, p) then 1 else 0)
    decreases |ts|
  {
    var rest := ts[..i] + ts[i + 1..];
    if i == |ts| - 1 {
      assert rest == ts[..i];
    } else {
      var front := ts[..|ts| - 1];
      InTimersOut(front, i, p);
      assert rest[..|rest| - 1] == front[..i] + front[i + 1..];
    }
  }

  // ---- what every run keeps ----

  /** At most one round of a post is in flight, and busy says exactly which. */
  ghost predicate OneRound(s: State)
  {
    forall p: Id :: InFlight(s, p) == if p in s.busy then 1 else 0
  }

  predicate Bounded(t: Tally, c: Config)
  {
    t.looks <= |c.retries| + 1 && t.saves <= 1 && t.polls <= |c.polls|
  }

  /** A job between calls: what its round has done so far is what its step says. */
  predicate JobOk(j: Job, made: map<Id, Tally>, c: Config)
  {
    j.link != "" ==>
      && j.post in made
      && if j.job == "" then made[j.post] == Tally(j.step, 0, 0) && j.step <= |c.retries|
         else
           && made[j.post].looks <= |c.retries| + 1 && made[j.post].saves == 1
           && made[j.post].polls == j.step < |c.polls|
  }

  predicate DoingOk(d: Doing, made: map<Id, Tally>, c: Config)
  {
    match d
    case Idle => true
    case ToLookUp(j) => j.link != "" && j.job == "" && JobOk(j, made, c)
    case LookingUp(j) =>
      && j.link != "" && j.job == "" && j.post in made
      && made[j.post] == Tally(j.step + 1, 0, 0) && j.step <= |c.retries|
    case ToSave(j) =>
      && j.link != "" && j.job == "" && j.post in made
      && made[j.post].looks <= |c.retries| + 1 && made[j.post].saves == made[j.post].polls == 0
    case Saving(j) =>
      && j.link != "" && j.job == "" && j.post in made
      && made[j.post].looks <= |c.retries| + 1 && made[j.post].saves == 1 && made[j.post].polls == 0
    case ToPoll(j) => j.link != "" && j.job != "" && JobOk(j, made, c)
    case Polling(j) =>
      && j.link != "" && j.job != "" && j.post in made
      && made[j.post].looks <= |c.retries| + 1 && made[j.post].saves == 1
      && made[j.post].polls == j.step + 1 <= |c.polls|
  }

  ghost predicate Within(s: State, c: Config)
  {
    && (forall j :: j in s.queue ==> JobOk(j, s.made, c))
    && (forall t :: t in s.timers ==> JobOk(t.job, s.made, c))
    && DoingOk(s.doing, s.made, c)
    && (forall t :: t in s.ended ==> Bounded(t, c))
    && s.made.Keys == s.busy
  }

  /** Calls start a gap apart, and none within the quiet after a 429. */
  predicate Polite(events: seq<Event>, c: Config)
  {
    forall i, j :: 0 <= i < j < |events| && events[j].Called? ==>
      events[j].at >= events[i].at + (if events[i].Called? then c.gap else c.quiet)
  }

  /** last and calm are late enough for everything that happened. */
  ghost predicate Timely(s: State, c: Config)
  {
    && Polite(s.events, c)
    && (forall i :: 0 <= i < |s.events| && s.events[i].Called? ==> s.last.Some? && s.events[i].at <= s.last.value)
    && (forall i :: 0 <= i < |s.events| && s.events[i].TooMany? ==>
       s.calm.Some? && s.events[i].at + c.quiet <= s.calm.value)
    && (s.last.Some? ==> s.last.value <= s.now) && (forall i :: 0 <= i < |s.events| ==> s.events[i].at <= s.now)
  }

  predicate Hourly(times: seq<int>)
  {
    forall i :: 0 <= i < |times| - 1 ==> times[i + 1] > times[i] + ARCHIVE_EVERY
  }

  /** A card's rounds since its row was written: counted by the row, at most three, over an hour apart. */
  predicate CountedAt(s: State, p: Id)
  {
    if p in s.cards then
      var times := Began(s, p);
      |times| == s.cards[p].archiveTries <= ARCHIVE_TRIES && Hourly(times) &&
      (times != [] ==> s.cards[p].archiveTs == times[|times| - 1])
    else p !in s.began
  }

  ghost predicate Counted(s: State)
  {
    forall p: Id :: CountedAt(s, p)
  }

  ghost predicate Inv(s: State, c: Config)
  {
    OneRound(s) && Within(s, c) && Timely(s, c) && Counted(s)
  }

  // ---- one round at a time ----

  lemma {:induction false} NoneQueued(q: seq<Job>, p: Id)
    ensures InQueue(q, p) == 0 <==> forall j :: j in q ==> !RoundOf(j, p)
  {
    if q != [] {
      NoneQueued(q[..|q| - 1], p);
      assert q == q[..|q| - 1] + [q[|q| - 1]];
    }
  }

  lemma {:induction false} NoneTimed(ts: seq<Timer>, p: Id)
    ensures InTimers(ts, p) == 0 <==> forall t :: t in ts ==> !RoundOf(t.job, p)
  {
    if ts != [] {
      NoneTimed(ts[..|ts| - 1], p);
      assert ts == ts[..|ts| - 1] + [ts[|ts| - 1]];
    }
  }

  /** InFlight agrees with busy for one post. */
  ghost predicate Agrees(s: State, p: Id) { InFlight(s, p) == if p in s.busy then 1 else 0 }

  lemma BeginFlight(s: State, post: Id, storeUp: bool, p: Id)
    requires s.doing.Idle? && Agrees(s, p)
    ensures Agrees(Begin(s, post, storeUp), p)
  {
    assert Begin(s, post, storeUp).queue == s.queue && Begin(s, post, storeUp).timers == s.timers;
  }

  lemma TakeFlight(s: State, storeUp: bool, p: Id)
    requires s.doing.Idle? && s.queue != [] && Agrees(s, p)
    ensures Agrees(Take(s, storeUp), p)
  {
    InQueueHead(s.queue, p);
    if s.queue[0].link == "" { BeginFlight(s.(queue := s.queue[1..]), s.queue[0].post, storeUp, p); }
  }

  lemma LaterFlight(s: State, j: Job, after: int, p: Id)
    requires !s.doing.Idle? && s.doing.j.post == j.post && j.link != ""
    ensures InFlight(Later(s, j, after), p) == InFlight(s, p)
  {
    InTimersSnoc(s.timers, Timer(s.now + after, j), p);
  }

  lemma OverFlight(s: State, p: Id, q: Id)
    requires Agrees(s, q) && !s.doing.Idle? && s.doing.j.post == p
    ensures Agrees(Over(s, p), q)
  {
    assert Over(s, p).queue == s.queue && Over(s, p).timers == s.timers;
  }

  lemma FailedFlight(s: State, c: Config, tooMany: bool, p: Id)
    requires Agrees(s, p)
    ensures Agrees(Failed(s, c, tooMany), p) && Failed(s, c, tooMany).doing == s.doing
  {
    assert InFlight(Failed(s, c, tooMany), p) == InFlight(s, p);
  }

  lemma RetryFlight(s: State, c: Config, p: Id)
    requires Agrees(s, p) && s.doing.LookingUp? && s.doing.j.link != ""
    ensures Agrees(RetryOrSave(s, c, s.doing.j), p)
  {
    var j := s.doing.j;
    if j.step < |c.retries| { LaterFlight(s, j.(step := j.step + 1), c.retries[j.step], p); }
  }

  lemma LookedUpFlight(s: State, c: Config, a: Looked, p: Id)
    requires c.polls != [] && Agrees(s, p) && s.doing.LookingUp? && s.doing.j.link != ""
    ensures Agrees(AfterLookUp(s, c, s.doing.j, a), p)
  {
    match a
    case Found(_) => OverFlight(s, s.doing.j.post, p);
    case NoneFound =>
    case LookFailed(tooMany) =>
      FailedFlight(s, c, tooMany, p);
      RetryFlight(Failed(s, c, tooMany), c, p);
  }

  lemma SavedFlight(s: State, c: Config, a: Save, p: Id)
    requires c.polls != [] && Agrees(s, p) && s.doing.Saving? && s.doing.j.link != ""
    ensures Agrees(AfterSave(s, c, s.doing.j, a), p)
  {
    var j := s.doing.j;
    match a
    case SaveBegun(job) => LaterFlight(s, j.(job := job, step := 0), c.polls[0], p);
    case SaveRefused(tooMany) =>
      FailedFlight(s, c, tooMany, p);
      OverFlight(Failed(s, c, tooMany), j.post, p);
  }

  lemma AgainFlight(s: State, c: Config, p: Id)
    requires Agrees(s, p) && s.doing.Polling? && s.doing.j.link != ""
    ensures Agrees(AskAgain(s, c, s.doing.j), p)
  {
    var j := s.doing.j;
    if j.step + 1 >= |c.polls| {
      OverFlight(s, j.post, p);
    } else {
      LaterFlight(s, j.(step := j.step + 1), c.polls[j.step + 1], p);
    }
  }

  lemma PolledFlight(s: State, c: Config, a: Polled, p: Id)
    requires Agrees(s, p) && s.doing.Polling? && s.doing.j.link != ""
    ensures Agrees(AfterPoll(s, c, s.doing.j, a), p)
  {
    match a
    case SaveLost => OverFlight(s, s.doing.j.post, p);
    case Copied(_) => OverFlight(s, s.doing.j.post, p);
    case Pending => AgainFlight(s, c, p);
    case PollFailed(tooMany) =>
      FailedFlight(s, c, tooMany, p);
      AgainFlight(Failed(s, c, tooMany), c, p);
  }

  lemma FiresFlight(s: State, c: Config, i: nat, p: Id)
    requires c.polls != [] && Agrees(s, p) && Open(s, c, Fires(i))
    ensures Agrees(Moved(s, c, Fires(i)), p)
  {
    InTimersOut(s.timers, i, p);
    InQueueSnoc(s.queue, s.timers[i].job, p);
  }

  lemma EnqueuesFlight(s: State, c: Config, post: Id, p: Id)
    requires c.polls != [] && Agrees(s, p)
    ensures Agrees(Moved(s, c, Enqueues(post)), p)
  {
    InQueueSnoc(s.queue, Job(post, "", "", 0), p);
  }

  lemma FlightKeeps(s: State, c: Config, m: Move)
    requires c.polls != [] && Inv(s, c) && Open(s, c, m)
    ensures OneRound(Moved(s, c, m))
  {
    forall p: Id
      ensures InFlight(Moved(s, c, m), p) == if p in Moved(s, c, m).busy then 1 else 0
    {
      assert Agrees(s, p);
      match m
      case Enqueues(post) => EnqueuesFlight(s, c, post, p);
      case Fires(i) => FiresFlight(s, c, i, p);
      case Takes(storeUp) => TakeFlight(s, storeUp, p);
      case LookedUp(a) => LookedUpFlight(s, c, a, p);
      case SaveAnswered(a) => SavedFlight(s, c, a, p);
      case PollAnswered(a) => PolledFlight(s, c, a, p);
      case _ =>
    }
  }

  // ---- the calls of a round ----

  /** Nothing but what is being worked belongs to its round. */
  lemma Alone(s: State, c: Config)
    requires OneRound(s) && Within(s, c) && !s.doing.Idle?
    ensures s.doing.j.post in s.busy
    ensures forall j :: j in s.queue ==> !RoundOf(j, s.doing.j.post)
    ensures forall t :: t in s.timers ==> !RoundOf(t.job, s.doing.j.post)
  {
    var p := s.doing.j.post;
    assert InFlight(s, p) == if p in s.busy then 1 else 0;
    NoneQueued(s.queue, p);
    NoneTimed(s.timers, p);
  }

  lemma CallWithin(s: State, c: Config)
    requires c.polls != [] && OneRound(s) && Within(s, c) && Open(s, c, Calls)
    ensures Within(Call(s), c)
  {
    Alone(s, c);
  }

  lemma OverWithin(s: State, c: Config, p: Id)
    requires OneRound(s) && Within(s, c) && !s.doing.Idle? && s.doing.j.post == p && p in s.made &&
      Bounded(s.made[p], c)
    ensures Within(Over(s, p), c)
  {
    Alone(s, c);
  }

  lemma LaterWithin(s: State, c: Config, j: Job, after: int)
    requires Within(s, c) && JobOk(j, s.made, c)
    ensures Within(Later(s, j, after), c)
  {
  }

  lemma FailedWithin(s: State, c: Config, tooMany: bool)
    requires Within(s, c) && OneRound(s)
    ensures Within(Failed(s, c, tooMany), c) && OneRound(Failed(s, c, tooMany)) && Failed(s, c, tooMany).made == s.made
    ensures Failed(s, c, tooMany).doing == s.doing
  {
    assert forall p: Id :: InFlight(Failed(s, c, tooMany), p) == InFlight(s, p);
  }

  lemma LookedUpWithin(s: State, c: Config, a: Looked)
    requires c.polls != [] && OneRound(s) && Within(s, c) && s.doing.LookingUp?
    ensures Within(AfterLookUp(s, c, s.doing.j, a), c)
  {
    var j := s.doing.j;
    match a
    case Found(_) => OverWithin(s, c, j.post);
    case NoneFound =>
    case LookFailed(tooMany) =>
      FailedWithin(s, c, tooMany);
      if j.step < |c.retries| { LaterWithin(Failed(s, c, tooMany), c, j.(step := j.step + 1), c.retries[j.step]); }
  }

  lemma SavedWithin(s: State, c: Config, a: Save)
    requires c.polls != [] && OneRound(s) && Within(s, c) && s.doing.Saving? && (a.SaveBegun? ==> a.job != "")
    ensures Within(AfterSave(s, c, s.doing.j, a), c)
  {
    var j := s.doing.j;
    match a
    case SaveBegun(job) => LaterWithin(s, c, j.(job := job, step := 0), c.polls[0]);
    case SaveRefused(tooMany) =>
      FailedWithin(s, c, tooMany);
      OverWithin(Failed(s, c, tooMany), c, j.post);
  }

  lemma AgainWithin(s: State, c: Config)
    requires c.polls != [] && OneRound(s) && Within(s, c) && s.doing.Polling?
    ensures Within(AskAgain(s, c, s.doing.j), c)
  {
    var j := s.doing.j;
    if j.step + 1 >= |c.polls| {
      OverWithin(s, c, j.post);
    } else {
      LaterWithin(s, c, j.(step := j.step + 1), c.polls[j.step + 1]);
    }
  }

  lemma PolledWithin(s: State, c: Config, a: Polled)
    requires c.polls != [] && OneRound(s) && Within(s, c) && s.doing.Polling?
    ensures Within(AfterPoll(s, c, s.doing.j, a), c)
  {
    match a
    case SaveLost => OverWithin(s, c, s.doing.j.post);
    case Copied(_) => OverWithin(s, c, s.doing.j.post);
    case Pending => AgainWithin(s, c);
    case PollFailed(tooMany) =>
      FailedWithin(s, c, tooMany);
      AgainWithin(Failed(s, c, tooMany), c);
  }

  lemma BeginWithin(s: State, c: Config, p: Id, storeUp: bool)
    requires OneRound(s) && Within(s, c) && s.doing.Idle?
    ensures Within(Begin(s, p, storeUp), c)
  {
    assert InFlight(s, p) == if p in s.busy then 1 else 0;
    NoneQueued(s.queue, p);
    NoneTimed(s.timers, p);
  }

  lemma TakeWithin(s: State, c: Config, storeUp: bool)
    requires OneRound(s) && Within(s, c) && s.doing.Idle? && s.queue != []
    ensures Within(Take(s, storeUp), c)
  {
    var j, s1 := s.queue[0], s.(queue := s.queue[1..]);
    assert j in s.queue;
    if j.link == "" {
      forall p: Id
        ensures InFlight(s1, p) == if p in s1.busy then 1 else 0
      {
        InQueueHead(s.queue, p);
        assert InFlight(s, p) == if p in s.busy then 1 else 0;
      }
      BeginWithin(s1, c, j.post, storeUp);
    }
  }

  lemma WithinKeeps(s: State, c: Config, m: Move)
    requires c.polls != [] && Inv(s, c) && Open(s, c, m)
    ensures Within(Moved(s, c, m), c)
  {
    match m
    case Takes(storeUp) => TakeWithin(s, c, storeUp);
    case Calls => CallWithin(s, c);
    case LookedUp(a) => LookedUpWithin(s, c, a);
    case SaveAnswered(a) => SavedWithin(s, c, a);
    case PollAnswered(a) => PolledWithin(s, c, a);
    case Fires(i) => assert s.timers[i] in s.timers;
    case _ =>
  }

  // ---- the pauses ----

  lemma FailedTimely(s: State, c: Config, tooMany: bool)
    requires Timely(s, c)
    ensures Timely(Failed(s, c, tooMany), c)
  {
  }

  lemma PoliteOn(events: seq<Event>, c: Config, at: int)
    requires Polite(events, c)
    requires forall i :: 0 <= i < |events| ==> at >= events[i].at + (if events[i].Called? then c.gap else c.quiet)
    ensures Polite(events + [Called(at)], c)
  {
  }

  lemma CallTimely(s: State, c: Config)
    requires Timely(s, c) && Open(s, c, Calls)
    ensures Timely(Call(s), c)
  {
    PoliteOn(s.events, c, s.now);
    assert Call(s).events == s.events + [Called(s.now)] && Call(s).last == Some(s.now);
  }

  lemma ClockTimely(s: State, s1: State, c: Config)
    requires Timely(s, c) && SameClock(s, s1)
    ensures Timely(s1, c)
  {
  }

  lemma AnswersTimely(s: State, c: Config, m: Move)
    requires c.polls != [] && Timely(s, c) && Open(s, c, m) && (m.LookedUp? || m.SaveAnswered? || m.PollAnswered?)
    ensures Timely(Moved(s, c, m), c)
  {
    var tooMany := match m
      case LookedUp(a) => a.LookFailed? && a.tooMany
      case SaveAnswered(a) => a.SaveRefused? && a.tooMany
      case PollAnswered(a) => a.PollFailed? && a.tooMany
      case _ => false;
    FailedTimely(s, c, tooMany);
    ClockTimely(Failed(s, c, tooMany), Moved(s, c, m), c);
  }

  lemma TimelyKeeps(s: State, c: Config, m: Move)
    requires c.polls != [] && Timely(s, c) && Open(s, c, m)
    ensures Timely(Moved(s, c, m), c)
  {
    if m.LookedUp? || m.SaveAnswered? || m.PollAnswered? {
      AnswersTimely(s, c, m);
    } else if m.Calls? {
      CallTimely(s, c);
    } else if !m.Ticks? {
      assert SameClock(s, Moved(s, c, m));
    }
  }

  // ---- rounds begun ----

  lemma BeginCounted(s: State, p: Id, storeUp: bool, q: Id)
    requires CountedAt(s, q)
    ensures CountedAt(Begin(s, p, storeUp), q)
  {
  }

  lemma SameCounted(s: State, s1: State, q: Id)
    requires CountedAt(s, q) && SameRounds(s, s1)
    ensures CountedAt(s1, q)
  {
  }

  lemma RewrittenCounted(s: State, c: Config, m: Move, q: Id)
    requires c.polls != [] && CountedAt(s, q) && (m.CardWritten? || m.CardGone?)
    ensures CountedAt(Moved(s, c, m), q)
  {
  }

  lemma CountedKeeps(s: State, c: Config, m: Move)
    requires c.polls != [] && Counted(s) && Open(s, c, m)
    ensures Counted(Moved(s, c, m))
  {
    forall q: Id
      ensures CountedAt(Moved(s, c, m), q)
    {
      assert CountedAt(s, q);
      if m.CardWritten? || m.CardGone? {
        RewrittenCounted(s, c, m, q);
      } else if m.Takes? {
        var s1 := s.(queue := s.queue[1..]);
        SameCounted(s, s1, q);
        BeginCounted(s1, s.queue[0].post, m.storeUp, q);
        if s.queue[0].link != "" { SameCounted(s1, Moved(s, c, m), q); }
      } else {
        SameCounted(s, Moved(s, c, m), q);
      }
    }
  }

  // ---- whole runs ----

  const IDLE: State := State(0, [], [], Idle, {}, None, None, map[], map[], [], [], map[])

  ghost function Run(c: Config, moves: seq<Move>): State
    requires c.polls != []
    decreases |moves|
  {
    if moves == [] then IDLE
    else
      var s, m := Run(c, moves[..|moves| - 1]), moves[|moves| - 1];
      if Open(s, c, m) then Moved(s, c, m) else s
  }

  lemma StepKeeps(s: State, c: Config, m: Move)
    requires c.polls != [] && Inv(s, c) && Open(s, c, m)
    ensures Inv(Moved(s, c, m), c)
  {
    FlightKeeps(s, c, m);
    WithinKeeps(s, c, m);
    TimelyKeeps(s, c, m);
    CountedKeeps(s, c, m);
  }

  lemma {:induction false} RunKeeps(c: Config, moves: seq<Move>)
    requires c.polls != []
    ensures Inv(Run(c, moves), c)
    decreases |moves|
  {
    if moves != [] {
      var s, m := Run(c, moves[..|moves| - 1]), moves[|moves| - 1];
      RunKeeps(c, moves[..|moves| - 1]);
      if Open(s, c, m) { StepKeeps(s, c, m); }
    }
  }

  /** Over any run a post has at most one round on a timer, queued or being worked, and busy
      says exactly which have one. */
  lemma OneRoundEach(c: Config, moves: seq<Move>, p: Id)
    requires c.polls != []
    ensures var s := Run(c, moves); InFlight(s, p) <= 1 && (p in s.busy <==> InFlight(s, p) == 1)
  {
    RunKeeps(c, moves);
    var s := Run(c, moves);
    assert InFlight(s, p) == if p in s.busy then 1 else 0;
  }

  /** A round makes at most a lookup more than the retries, one save, and the polls. */
  lemma RoundsAreBounded(c: Config, moves: seq<Move>)
    requires c.polls != []
    ensures var s := Run(c, moves);
            && (forall p :: p in s.made ==> Bounded(s.made[p], c)) && (forall t :: t in s.ended ==> Bounded(t, c))
  {
    RunKeeps(c, moves);
    var s := Run(c, moves);
    forall p | p in s.made
      ensures Bounded(s.made[p], c)
    {
      MadeBounded(s, c, p);
    }
  }

  /** Calls start a gap apart, and none within the quiet after a 429. */
  lemma CallsArePolite(c: Config, moves: seq<Move>)
    requires c.polls != []
    ensures Polite(Run(c, moves).events, c)
  {
    RunKeeps(c, moves);
  }

  /** A card's row counts the rounds begun on it: at most three until it is written anew, over an hour apart. */
  lemma RowsAreBegunThrice(c: Config, moves: seq<Move>, p: Id)
    requires c.polls != []
    ensures var s := Run(c, moves);
            |Began(s, p)| <= ARCHIVE_TRIES && Hourly(Began(s, p)) &&
                (p in s.cards ==> |Began(s, p)| == s.cards[p].archiveTries)
  {
    RunKeeps(c, moves);
    assert CountedAt(Run(c, moves), p);
  }

  lemma MadeBounded(s: State, c: Config, p: Id)
    requires Inv(s, c) && p in s.made
    ensures Bounded(s.made[p], c)
  {
    assert InFlight(s, p) == 1;
    NoneQueued(s.queue, p);
    NoneTimed(s.timers, p);
  }

  // ---- a round's calls run out ----

  /** Where a run of moves leads, none when one of them is not open. */
  function RunFrom(s: State, c: Config, moves: seq<Move>): Option<State>
    requires c.polls != []
    decreases |moves|
  {
    if moves == [] then Some(s)
    else
      match RunFrom(s, c, moves[..|moves| - 1])
      case None => None
      case Some(mid) => if Open(mid, c, moves[|moves| - 1]) then Some(Moved(mid, c, moves[|moves| - 1])) else None
  }

  /** What a round may still do: lookups and a save ahead of it, then polls. */
  function ToCome(t: Tally, c: Config): int
  {
    (|c.retries| + 1 - t.looks) + (1 - t.saves) + (|c.polls| - t.polls)
  }

  /** A call made by p's round. */
  predicate CallOf(s: State, m: Move, p: Id) { m.Calls? && Running(s.doing, p) == 1 }

  lemma MadeMoves(s: State, c: Config, m: Move, p: Id)
    requires c.polls != [] && Within(s, c) && Open(s, c, m) && p in s.made && p in Moved(s, c, m).made
    ensures if CallOf(s, m, p) then ToCome(Moved(s, c, m).made[p], c) == ToCome(s.made[p], c) - 1
            else Moved(s, c, m).made[p] == s.made[p]
  {
  }

  /** The moves are open one after another, and p is busy before and after each. */
  predicate BusyThroughout(s: State, c: Config, moves: seq<Move>, p: Id)
    requires c.polls != []
    decreases |moves|
  {
    && RunFrom(s, c, moves).Some? && p in RunFrom(s, c, moves).value.busy
    && (moves == [] || BusyThroughout(s, c, moves[..|moves| - 1], p))
  }

  /** How many of the moves are calls of p's round. */
  function CallsOf(s: State, c: Config, moves: seq<Move>, p: Id): nat
    requires c.polls != [] && BusyThroughout(s, c, moves, p)
    decreases |moves|
  {
    if moves == [] then 0
    else
      var front := moves[..|moves| - 1];
      CallsOf(s, c, front, p) + (if CallOf(RunFrom(s, c, front).value, moves[|moves| - 1], p) then 1 else 0)
  }

  lemma {:induction false} CallsAreSpent(s: State, c: Config, moves: seq<Move>, p: Id)
    requires c.polls != [] && Inv(s, c) && BusyThroughout(s, c, moves, p)
    ensures var s1 := RunFrom(s, c, moves).value;
            && Inv(s1, c) && p in s.made && p in s1.made
            && ToCome(s1.made[p], c) == ToCome(s.made[p], c) - CallsOf(s, c, moves, p)
    decreases |moves|
  {
    if moves != [] {
      var front, m := moves[..|moves| - 1], moves[|moves| - 1];
      CallsAreSpent(s, c, front, p);
      StepKeeps(RunFrom(s, c, front).value, c, m);
      MadeMoves(RunFrom(s, c, front).value, c, m, p);
    }
  }

  /** From any reachable state, for as long as p stays busy, its round makes no more calls than
      it has still to make: a lookup more than the retries, a save and the polls in all. */
  lemma CallsRunOut(c: Config, before: seq<Move>, moves: seq<Move>, p: Id)
    requires c.polls != [] && BusyThroughout(Run(c, before), c, moves, p)
    ensures p in Run(c, before).made
    ensures CallsOf(Run(c, before), c, moves, p) <= ToCome(Run(c, before).made[p], c) <= |c.retries| + 2 + |c.polls|
  {
    RunKeeps(c, before);
    CallsAreSpent(Run(c, before), c, moves, p);
    MadeBounded(RunFrom(Run(c, before), c, moves).value, c, p);
  }

  /** How p's round may end: with a copy found or saved and put on its card, or after its one save
      was refused, lost, or asked about as often as there are polls. */
  predicate EndsBy(s: State, c: Config, m: Move, s1: State, p: Id)
    requires p in s.made
  {
    match m
    case LookedUp(Found(copy)) => p in s1.cards ==> s1.cards[p].archive == copy
    case SaveAnswered(SaveRefused(_)) => s.made[p].saves == 1
    case PollAnswered(Copied(copy)) => s.made[p].saves == 1 && (p in s1.cards ==> s1.cards[p].archive == copy)
    case PollAnswered(SaveLost) => s.made[p].saves == 1
    case PollAnswered(_) => s.made[p].saves == 1 && s.made[p].polls == |c.polls|
    case _ => false
  }

  lemma EndsByAnswer(s: State, c: Config, m: Move, p: Id)
    requires c.polls != [] && Within(s, c) && Open(s, c, m) && p in s.busy && p !in Moved(s, c, m).busy
    ensures p in s.made && EndsBy(s, c, m, Moved(s, c, m), p)
  {
  }

  /** A link with no copy is saved before its round is given up, and what was found or saved is on the card. */
  lemma RoundEndsSo(c: Config, moves: seq<Move>, m: Move, p: Id)
    requires c.polls != [] && Open(Run(c, moves), c, m)
    requires p in Run(c, moves).busy && p !in Moved(Run(c, moves), c, m).busy
    ensures p in Run(c, moves).made && EndsBy(Run(c, moves), c, m, Moved(Run(c, moves), c, m), p)
  {
    RunKeeps(c, moves);
    EndsByAnswer(Run(c, moves), c, m, p);
  }

  /** How long a round that goes on waits for its next call: a retry's time while it has asked for no
      save, a poll's after. */
  function Delay(t: Tally, c: Config): int
    requires if t.saves == 0 then 0 < t.looks <= |c.retries| else t.polls < |c.polls|
  {
    if t.saves == 0 then c.retries[t.looks - 1] else c.polls[t.polls]
  }

  /** What an answered round that goes on does: it is saved next, its link found to have no copy or
      its lookups all failed; or it waits as long as its calls so far say. */
  predicate GoesOn(s: State, c: Config, m: Move, s1: State, p: Id)
    requires p in s.made
  {
    var t := s.made[p];
    if s1.doing.ToSave? then
      s1.timers == s.timers && t.saves == 0 &&
          (m == LookedUp(NoneFound) || (m.LookedUp? && m.looked.LookFailed? && t.looks == |c.retries| + 1))
    else
      && (if t.saves == 0 then m.LookedUp? && m.looked.LookFailed? && 0 < t.looks <= |c.retries|
          else t.polls < |c.polls|)
      && |s1.timers| == |s.timers| + 1 && s1.timers[..|s.timers|] == s.timers
      && s1.timers[|s.timers|].due == s.now + Delay(t, c) && RoundOf(s1.timers[|s.timers|].job, p)
  }

  lemma AnswerGoesOn(s: State, c: Config, m: Move, p: Id)
    requires c.polls != [] && Within(s, c) && Open(s, c, m) && OnCall(s.doing) && Running(s.doing, p) == 1
    requires m.LookedUp? || m.SaveAnswered? || m.PollAnswered?
    requires p in s.busy && p in Moved(s, c, m).busy
    ensures p in s.made && GoesOn(s, c, m, Moved(s, c, m), p)
  {
  }

  /** A failed lookup is tried again after its time, so often, and then saved without; a link with no
      copy is saved at once; a save is asked about after each poll's time in turn. */
  lemma RoundGoesOnSo(c: Config, moves: seq<Move>, m: Move, p: Id)
    requires c.polls != [] && Open(Run(c, moves), c, m) && OnCall(Run(c, moves).doing) &&
      Running(Run(c, moves).doing, p) == 1
    requires m.LookedUp? || m.SaveAnswered? || m.PollAnswered?
    requires p in Run(c, moves).busy && p in Moved(Run(c, moves), c, m).busy
    ensures p in Run(c, moves).made && GoesOn(Run(c, moves), c, m, Moved(Run(c, moves), c, m), p)
  {
    RunKeeps(c, moves);
    AnswerGoesOn(Run(c, moves), c, m, p);
  }

  /** A round is begun only on a card that is owed a copy: read well, no post's own, with none yet,
      and its link is what is looked up. */
  lemma BegunIsOwed(s: State, c: Config, m: Move, p: Id)
    requires c.polls != [] && Open(s, c, m) && p in s.cards && Began(Moved(s, c, m), p) != Began(s, p) &&
      !m.CardWritten? && !m.CardGone?
    ensures s.cards[p].ok && s.cards[p].quote.None? && s.cards[p].archive == "" && p !in s.busy &&
      Moved(s, c, m).now == s.now
    ensures Began(Moved(s, c, m), p) == Began(s, p) + [s.now]
    ensures p in Moved(s, c, m).busy ==> Moved(s, c, m).doing == ToLookUp(Job(p, s.cards[p].url, "", 0))
  {
  }

  lemma CapKeeps(s: State, c: Config, m: Move)
    requires c.polls != [] && Open(s, c, m) && |s.queue| <= QUEUE_CAP
    ensures |Moved(s, c, m).queue| <= QUEUE_CAP
  {
    if m.LookedUp? || m.SaveAnswered? || m.PollAnswered? { AfterAnswer(s, c, m); }
  }

  /** No more jobs are queued than the queue holds. */
  lemma {:induction false} QueueIsCapped(c: Config, moves: seq<Move>)
    requires c.polls != []
    ensures |Run(c, moves).queue| <= QUEUE_CAP
    decreases |moves|
  {
    if moves != [] {
      var s, m := Run(c, moves[..|moves| - 1]), moves[|moves| - 1];
      QueueIsCapped(c, moves[..|moves| - 1]);
      if Open(s, c, m) { CapKeeps(s, c, m); }
    }
  }

  /** A round in flight is never lost: it waits on a timer, in the queue, or is the one being worked. */
  lemma NeverLost(c: Config, moves: seq<Move>, p: Id)
    requires c.polls != [] && p in Run(c, moves).busy
    ensures var s := Run(c, moves);
            || (exists t :: t in s.timers && RoundOf(t.job, p))
            || (exists j :: j in s.queue && RoundOf(j, p))
            || (!s.doing.Idle? && s.doing.j.post == p)
  {
    RunKeeps(c, moves);
    var s := Run(c, moves);
    assert InFlight(s, p) == 1;
    NoneQueued(s.queue, p);
    NoneTimed(s.timers, p);
  }

  // ---- a round always ends ----

  /** The goroutine's own moves, and a call answered. */
  predicate Works(m: Move)
  {
    m.Takes? || m.Calls? || m.LookedUp? || m.SaveAnswered? || m.PollAnswered?
  }

  /** One of them is open. */
  predicate Ready(s: State, c: Config)
  {
    match s.doing
    case Idle => s.queue != []
    case ToLookUp(_) => Rested(s, c)
    case ToSave(_) => Rested(s, c)
    case ToPoll(_) => Rested(s, c)
    case _ => true
  }

  /** A timer of p's round that is due. */
  predicate Due(s: State, p: Id)
  {
    exists t :: t in s.timers && RoundOf(t.job, p) && t.due <= s.now
  }

  predicate FiresFor(s: State, m: Move, p: Id)
  {
    m.Fires? && m.i < |s.timers| && RoundOf(s.timers[m.i].job, p)
  }

  predicate StepsAt(f: nat -> State, ms: nat -> Move, c: Config, k: nat)
    requires c.polls != []
  {
    Open(f(k), c, ms(k)) && f(k + 1) == Moved(f(k), c, ms(k))
  }

  /** An endless run: every move open, each state what the move before it left. */
  ghost predicate Endless(f: nat -> State, ms: nat -> Move, c: Config)
    requires c.polls != []
  {
    f(0) == IDLE && forall k: nat :: StepsAt(f, ms, c, k)
  }

  ghost predicate Reaches(f: nat -> State, i: nat, at: int)
  {
    exists j: nat :: i <= j && f(j).now >= at
  }

  ghost predicate ClockRuns(f: nat -> State)
  {
    forall i: nat, at: int :: Reaches(f, i, at)
  }

  ghost predicate TimersFire(f: nat -> State, ms: nat -> Move)
  {
    forall i: nat, p: Id :: Due(f(i), p) ==> exists j: nat :: i <= j && FiresFor(f(j), ms(j), p)
  }

  ghost predicate KeepsWorking(f: nat -> State, ms: nat -> Move, c: Config)
  {
    forall i: nat :: Ready(f(i), c) ==> exists j: nat :: i <= j && Works(ms(j))
  }

  /** Time passes, due timers get their job into the queue, and the goroutine and the service go
      on whenever they can. */
  ghost predicate Fair(f: nat -> State, ms: nat -> Move, c: Config)
  {
    ClockRuns(f) && TimersFire(f, ms) && KeepsWorking(f, ms, c)
  }

  /** How many jobs are ahead of p's round. */
  function Ahead(q: seq<Job>, p: Id): nat
  {
    if q == [] || RoundOf(q[0], p) then 0 else 1 + Ahead(q[1..], p)
  }

  lemma {:induction false} AheadSnoc(q: seq<Job>, j: Job, p: Id)
    requires InQueue(q, p) > 0
    ensures Ahead(q + [j], p) == Ahead(q, p)
  {
    InQueueHead(q, p);
    if !RoundOf(q[0], p) {
      AheadSnoc(q[1..], j, p);
      assert (q + [j])[1..] == q[1..] + [j];
    }
  }

  /** What is left to do of the job being worked. */
  function Left(d: Doing): nat
  {
    match d
    case Idle => 0
    case ToLookUp(_) => 4
    case LookingUp(_) => 3
    case ToSave(_) => 2
    case Saving(_) => 1
    case ToPoll(_) => 2
    case Polling(_) => 1
  }

  predicate OnCall(d: Doing) { d.LookingUp? || d.Saving? || d.Polling? }

  /** Where p's round stands: about to call, queued, on a timer, or on a call. */
  function Stage(s: State, p: Id): nat
  {
    if Running(s.doing, p) == 1 then (if OnCall(s.doing) then 3 else 0) else if InQueue(s.queue, p) > 0 then 1 else 2
  }

  datatype Rank = Rank(calls: int, stage: nat, ahead: nat, left: nat)

  /** How far p's round is from its end. */
  function RankOf(s: State, c: Config, p: Id): Rank
    requires p in s.made
  {
    var stage := Stage(s, p);
    Rank(ToCome(s.made[p], c), stage,
         if stage == 1 then Ahead(s.queue, p) else 0, if stage == 1 then Left(s.doing) else 0)
  }

  predicate Under(a: Rank, b: Rank)
  {
    || a.calls < b.calls
    || (a.calls == b.calls && (a.stage < b.stage
        || (a.stage == b.stage && (a.ahead < b.ahead || (a.ahead == b.ahead && a.left < b.left)))))
  }

  /** The moves that bring p's round nearer its end: its timer's, while it waits on one, and
      after that whatever the goroutine does. */
  predicate Helps(s: State, m: Move, p: Id)
  {
    if Stage(s, p) == 2 then FiresFor(s, m, p) else Works(m)
  }

  lemma InTheOne(s: State, c: Config, p: Id)
    requires Inv(s, c) && p in s.busy
    ensures p in s.made && 0 <= ToCome(s.made[p], c) && InFlight(s, p) == 1
    ensures Stage(s, p) == 2 <==> InTimers(s.timers, p) == 1
  {
    assert InFlight(s, p) == if p in s.busy then 1 else 0;
    MadeBounded(s, c, p);
  }

  predicate NoFurther(a: Rank, b: Rank) { a == b || Under(a, b) }

  /** Not further from its end, and nearer by a move that helps. */
  predicate Nearer(s: State, c: Config, m: Move, s1: State, p: Id)
    requires p in s.made && p in s1.made
  {
    if Helps(s, m, p) then Under(RankOf(s1, c, p), RankOf(s, c, p)) else NoFurther(RankOf(s1, c, p), RankOf(s, c, p))
  }

  /** One more job behind brings no round nearer, nor takes one further. */
  lemma GrownQueue(s: State, c: Config, j: Job, p: Id)
    requires p in s.made && !RoundOf(j, p)
    ensures RankOf(s.(queue := s.queue + [j]), c, p) == RankOf(s, c, p)
  {
    InQueueSnoc(s.queue, j, p);
    if InQueue(s.queue, p) > 0 { AheadSnoc(s.queue, j, p); }
  }

  lemma EnqueuedNearer(s: State, c: Config, post: Id, p: Id)
    requires c.polls != [] && p in s.made
    ensures Nearer(s, c, Enqueues(post), Moved(s, c, Enqueues(post)), p)
  {
    GrownQueue(s, c, Job(post, "", "", 0), p);
  }

  lemma FiredNearer(s: State, c: Config, i: nat, p: Id)
    requires c.polls != [] && Open(s, c, Fires(i)) && p in s.made && InFlight(s, p) == 1
    ensures Nearer(s, c, Fires(i), Moved(s, c, Fires(i)), p)
  {
    var j := s.timers[i].job;
    InTimersOut(s.timers, i, p);
    InQueueSnoc(s.queue, j, p);
    if InQueue(s.queue, p) > 0 { AheadSnoc(s.queue, j, p); }
  }

  lemma TakenNearer(s: State, c: Config, storeUp: bool, p: Id)
    requires c.polls != [] && Open(s, c, Takes(storeUp)) && p in s.busy && p in s.made && InFlight(s, p) == 1
    ensures var s1 := Take(s, storeUp); p in s1.made && Nearer(s, c, Takes(storeUp), s1, p)
  {
    InQueueHead(s.queue, p);
    assert Take(s, storeUp).queue == s.queue[1..];
    assert Take(s, storeUp).made[p] == s.made[p];
  }

  lemma CalledNearer(s: State, c: Config, p: Id)
    requires c.polls != [] && Open(s, c, Calls) && p in s.made && p in Call(s).made && InFlight(s, p) == 1
    requires if CallOf(s, Calls, p) then ToCome(Call(s).made[p], c) < ToCome(s.made[p], c)
      else Call(s).made[p] == s.made[p]
    ensures Nearer(s, c, Calls, Call(s), p)
  {
  }

  lemma AnsweredNearer(s: State, c: Config, m: Move, p: Id)
    requires c.polls != [] && Open(s, c, m) && (m.LookedUp? || m.SaveAnswered? || m.PollAnswered?) &&
      InFlight(s, p) == 1
    requires p in s.made && p in Moved(s, c, m).made && Moved(s, c, m).made[p] == s.made[p]
    ensures Nearer(s, c, m, Moved(s, c, m), p)
  {
    AfterAnswer(s, c, m);
  }

  /** An answered job is saved next, or is worked no more; the queue is as it was. */
  lemma AfterAnswer(s: State, c: Config, m: Move)
    requires c.polls != [] && Open(s, c, m) && (m.LookedUp? || m.SaveAnswered? || m.PollAnswered?)
    ensures var s1 := Moved(s, c, m);
            && s1.queue == s.queue && OnCall(s.doing)
            && (s1.doing.Idle? || (s.doing.LookingUp? && s1.doing == ToSave(s.doing.j)))
  {
    match m
    case LookedUp(a) => LookUpAnswered(s, c, s.doing.j, a);
    case SaveAnswered(a) => assert AfterSave(s, c, s.doing.j, a).queue == s.queue;
    case PollAnswered(a) => PollAnsweredThen(s, c, s.doing.j, a);
  }

  lemma LookUpAnswered(s: State, c: Config, j: Job, a: Looked)
    ensures var s1 := AfterLookUp(s, c, j, a); s1.queue == s.queue && (s1.doing.Idle? || s1.doing == ToSave(j))
  {
  }

  lemma PollAnsweredThen(s: State, c: Config, j: Job, a: Polled)
    ensures var s1 := AfterPoll(s, c, j, a); s1.queue == s.queue && s1.doing.Idle?
  {
  }

  /** While p is busy no move takes its round further from its end, and one that helps brings it nearer. */
  lemma MoveNearer(s: State, c: Config, m: Move, p: Id)
    requires c.polls != [] && Inv(s, c) && Open(s, c, m) && Inv(Moved(s, c, m), c)
    requires p in s.busy && p in Moved(s, c, m).busy
    ensures var s1 := Moved(s, c, m); p in s.made && p in s1.made && Nearer(s, c, m, s1, p)
  {
    InTheOne(s, c, p);
    InTheOne(Moved(s, c, m), c, p);
    MadeMoves(s, c, m, p);
    ByMove(s, c, m, p);
  }

  lemma ByMove(s: State, c: Config, m: Move, p: Id)
    requires c.polls != [] && Open(s, c, m) && p in s.busy && InFlight(s, p) == 1 && p in s.made &&
      p in Moved(s, c, m).made
    requires if CallOf(s, m, p) then ToCome(Moved(s, c, m).made[p], c) == ToCome(s.made[p], c) - 1
             else Moved(s, c, m).made[p] == s.made[p]
    ensures Nearer(s, c, m, Moved(s, c, m), p)
  {
    match m
    case Enqueues(post) => EnqueuedNearer(s, c, post, p);
    case Fires(i) => FiredNearer(s, c, i, p);
    case Takes(storeUp) => TakenNearer(s, c, storeUp, p);
    case Calls => CalledNearer(s, c, p);
    case LookedUp(_) => AnsweredNearer(s, c, m, p);
    case SaveAnswered(_) => AnsweredNearer(s, c, m, p);
    case PollAnswered(_) => AnsweredNearer(s, c, m, p);
    case _ =>
  }

  lemma {:induction false} AlwaysInv(f: nat -> State, ms: nat -> Move, c: Config, i: nat)
    requires c.polls != [] && Endless(f, ms, c)
    ensures Inv(f(i), c)
  {
    if i == 0 {
      RunKeeps(c, []);
    } else {
      AlwaysInv(f, ms, c, i - 1);
      assert StepsAt(f, ms, c, i - 1);
      StepKeeps(f(i - 1), c, ms(i - 1));
    }
  }

  /** p is busy from i to j, and its round no further from its end at j than at i. */
  ghost predicate Kept(f: nat -> State, c: Config, i: nat, j: nat, p: Id)
  {
    && p in f(j).busy && p in f(i).made && p in f(j).made && NoFurther(RankOf(f(j), c, p), RankOf(f(i), c, p))
  }

  lemma KeptOn(f: nat -> State, ms: nat -> Move, c: Config, i: nat, j: nat, p: Id)
    requires c.polls != [] && Endless(f, ms, c) && Kept(f, c, i, j, p) && p in f(j + 1).busy
    ensures Kept(f, c, i, j + 1, p)
    ensures Helps(f(j), ms(j), p) ==> Under(RankOf(f(j + 1), c, p), RankOf(f(i), c, p))
  {
    AlwaysInv(f, ms, c, j);
    AlwaysInv(f, ms, c, j + 1);
    assert StepsAt(f, ms, c, j);
    MoveNearer(f(j), c, ms(j), p);
  }

  lemma KeptAtFirst(f: nat -> State, ms: nat -> Move, c: Config, i: nat, p: Id)
    requires c.polls != [] && Endless(f, ms, c) && p in f(i).busy
    ensures Kept(f, c, i, i, p)
  {
    AlwaysInv(f, ms, c, i);
    InTheOne(f(i), c, p);
  }

  /** Kept as far as j, or let go before. */
  lemma {:induction false} KeptUntil(f: nat -> State, ms: nat -> Move, c: Config, i: nat, j: nat, p: Id)
      returns (k: nat)
    requires c.polls != [] && Endless(f, ms, c) && i <= j && p in f(i).busy
    ensures i <= k <= j && if p in f(k).busy then k == j && Kept(f, c, i, j, p) else true
  {
    if j == i {
      KeptAtFirst(f, ms, c, i, p);
      k := i;
    } else {
      k := KeptUntil(f, ms, c, i, j - 1, p);
      if p in f(k).busy {
        k := j;
        if p in f(j).busy { KeptOn(f, ms, c, i, j - 1, p); }
      }
    }
  }

  /** p's timer stays until it fires. */
  lemma {:induction false} TimerStays(f: nat -> State, ms: nat -> Move, c: Config, i: nat, j: nat, t: Timer)
    requires c.polls != [] && Endless(f, ms, c) && i <= j && t in f(i).timers && t.job.link != ""
    ensures t in f(j).timers || exists k: nat :: i <= k < j && FiresFor(f(k), ms(k), t.job.post)
  {
    if j > i {
      TimerStays(f, ms, c, i, j - 1, t);
      assert StepsAt(f, ms, c, j - 1);
      if t in f(j - 1).timers { StillTimed(f(j - 1), c, ms(j - 1), t); }
    }
  }

  lemma StillTimed(s: State, c: Config, m: Move, t: Timer)
    requires c.polls != [] && Open(s, c, m) && t in s.timers && t.job.link != ""
    ensures t in Moved(s, c, m).timers || FiresFor(s, m, t.job.post)
  {
    if m.Fires? {
      var k :| 0 <= k < |s.timers| && s.timers[k] == t;
      var rest := s.timers[..m.i] + s.timers[m.i + 1..];
      if k < m.i { assert rest[k] == t; } else if k > m.i { assert rest[k - 1] == t; }
    }
  }

  /** A round on a timer: the timer comes to fire. */
  lemma TimerHelps(f: nat -> State, ms: nat -> Move, c: Config, i: nat, p: Id)
    requires c.polls != [] && Endless(f, ms, c) && Fair(f, ms, c) && p in f(i).busy && Stage(f(i), p) == 2
    ensures exists j: nat :: i <= j && FiresFor(f(j), ms(j), p)
  {
    AlwaysInv(f, ms, c, i);
    InTheOne(f(i), c, p);
    NoneTimed(f(i).timers, p);
    var t :| t in f(i).timers && RoundOf(t.job, p);
    assert Reaches(f, i, t.due);
    var j: nat :| i <= j && f(j).now >= t.due;
    TimerStays(f, ms, c, i, j, t);
    if t in f(j).timers { assert Due(f(j), p); }
  }

  /** Until the goroutine moves, what it is at and when it may call stand still. */
  lemma {:induction false} StandsStill(f: nat -> State, ms: nat -> Move, c: Config, i: nat, j: nat)
    requires c.polls != [] && Endless(f, ms, c) && i <= j
    ensures (exists k: nat :: i <= k < j && Works(ms(k)))
      || (f(j).doing == f(i).doing && f(j).last == f(i).last && f(j).calm == f(i).calm)
  {
    if j > i {
      StandsStill(f, ms, c, i, j - 1);
      assert StepsAt(f, ms, c, j - 1);
      if !Works(ms(j - 1)) { StillUnlessWorks(f(j - 1), c, ms(j - 1)); }
    }
  }

  lemma StillUnlessWorks(s: State, c: Config, m: Move)
    requires c.polls != [] && Open(s, c, m) && !Works(m)
    ensures var s1 := Moved(s, c, m); s1.doing == s.doing && s1.last == s.last && s1.calm == s.calm
  {
  }

  /** With a job at hand or one queued, the goroutine comes to move: a pause or a quiet ends. */
  lemma WorkHelps(f: nat -> State, ms: nat -> Move, c: Config, i: nat)
    requires c.polls != [] && Endless(f, ms, c) && Fair(f, ms, c) && (!f(i).doing.Idle? || f(i).queue != [])
    ensures exists j: nat :: i <= j && Works(ms(j))
  {
    if !Ready(f(i), c) {
      var gap := if f(i).last.Some? then f(i).last.value + c.gap else 0;
      var at := if f(i).calm.Some? && f(i).calm.value > gap then f(i).calm.value else gap;
      assert Reaches(f, i, at);
      var j: nat :| i <= j && f(j).now >= at;
      StandsStill(f, ms, c, i, j);
      if f(j).doing == f(i).doing && f(j).last == f(i).last && f(j).calm == f(i).calm { assert Ready(f(j), c); }
    }
  }

  /** A move that would help p's round as it stands comes. */
  lemma HelpComes(f: nat -> State, ms: nat -> Move, c: Config, i: nat, p: Id) returns (k: nat)
    requires c.polls != [] && Endless(f, ms, c) && Fair(f, ms, c) && p in f(i).busy
    ensures i <= k && if Stage(f(i), p) == 2 then FiresFor(f(k), ms(k), p) else Works(ms(k))
  {
    if Stage(f(i), p) == 2 {
      TimerHelps(f, ms, c, i, p);
      k :| i <= k && FiresFor(f(k), ms(k), p);
    } else {
      WorkHelps(f, ms, c, i);
      k :| i <= k && Works(ms(k));
    }
  }

  /** Sooner or later p is let go, or its round is nearer its end. */
  lemma ComesNearer(f: nat -> State, ms: nat -> Move, c: Config, i: nat, p: Id) returns (j: nat)
    requires c.polls != [] && Endless(f, ms, c) && Fair(f, ms, c) && p in f(i).busy && p in f(i).made
    ensures i <= j
    ensures p in f(j).busy ==> p in f(j).made && Under(RankOf(f(j), c, p), RankOf(f(i), c, p))
  {
    var k := HelpComes(f, ms, c, i, p);
    j := KeptUntil(f, ms, c, i, k, p);
    if p in f(j).busy && !Under(RankOf(f(k), c, p), RankOf(f(i), c, p)) {
      j := k + 1;
      if p in f(j).busy { KeptOn(f, ms, c, i, k, p); }
    }
  }

  lemma {:induction false} RoundEnds(f: nat -> State, ms: nat -> Move, c: Config, i: nat, p: Id)
    requires c.polls != [] && Endless(f, ms, c) && Fair(f, ms, c) && p in f(i).busy && p in f(i).made
    requires RankOf(f(i), c, p).calls >= 0
    ensures exists j: nat :: i <= j && p !in f(j).busy
    decreases RankOf(f(i), c, p).calls, RankOf(f(i), c, p).stage, RankOf(f(i), c, p).ahead, RankOf(f(i), c, p).left
  {
    var j := ComesNearer(f, ms, c, i, p);
    if p in f(j).busy {
      AlwaysInv(f, ms, c, j);
      InTheOne(f(j), c, p);
      RoundEnds(f, ms, c, j, p);
    }
  }

  /** Every round ends: in an endless run in which time passes, due timers get their job into
      the queue and the goroutine and the service go on, busy is cleared of any post in it. */
  lemma EveryRoundEnds(f: nat -> State, ms: nat -> Move, c: Config, i: nat, p: Id)
    requires c.polls != [] && Endless(f, ms, c) && Fair(f, ms, c) && p in f(i).busy
    ensures exists j: nat :: i <= j && p !in f(j).busy
  {
    AlwaysInv(f, ms, c, i);
    InTheOne(f(i), c, p);
    RoundEnds(f, ms, c, i, p);
  }

  // ---- the archiver as it runs ----

  /** The moves lead from s to s1, every one of them open. */
  predicate Leads(s: State, c: Config, moves: seq<Move>, s1: State)
    requires c.polls != []
  {
    RunFrom(s, c, moves) == Some(s1)
  }

  lemma LeadsOn(s: State, c: Config, moves: seq<Move>, mid: State, m: Move, s1: State)
    requires c.polls != [] && Leads(s, c, moves, mid) && Open(mid, c, m) && s1 == Moved(mid, c, m)
    ensures Leads(s, c, moves + [m], s1)
  {
    assert (moves + [m])[..|moves + [m]| - 1] == moves;
  }

  class Archiver {
    const c: Config
    var now: int
    var queue: seq<Job>
    var timers: seq<Timer>
    var busy: set<Id>
    var last: Option<int>
    var calm: Option<int>
    var cards: map<Id, F.Card>
    ghost var doing: Doing
    ghost var made: map<Id, Tally>
    ghost var ended: seq<Tally>
    ghost var events: seq<Event>
    ghost var began: map<Id, seq<int>>

    ghost function View(): State
      reads this
    {
      State(now, queue, timers, doing, busy, last, calm, cards, made, ended, events, began)
    }

    constructor (c: Config)
      requires c.polls != []
      ensures this.c == c && View() == IDLE
    {
      this.c := c;
      now, queue, timers, busy, last, calm, cards := 0, [], [], {}, None, None, map[];
      doing, made, ended, events, began := Idle, map[], [], [], map[];
    }

    method Enqueue(post: Id)
      modifies this`queue
      ensures View() ==
              if |old(queue)| < QUEUE_CAP then old(View()).(queue := old(queue) + [Job(post, "", "", 0)])
              else old(View())
    {
      if |queue| < QUEUE_CAP { queue := queue + [Job(post, "", "", 0)]; }
    }

    /** Time passes, for a call to answer. */
    method Elapse()
      modifies this`now
      ensures now >= old(now)
    {
      var d: int := *;
      if d > 0 { now := now + d; }
    }

    /** The pause between calls, and a quiet after a 429, slept through. */
    method Sleep()
      modifies this`now
      ensures now >= old(now) && (last.Some? ==> now >= last.value + c.gap) && (calm.Some? ==> now >= calm.value)
    {
      var next := now;
      if last.Some? && last.value + c.gap > next { next := last.value + c.gap; }
      if calm.Some? && calm.value > next { next := calm.value; }
      now := next;
      Elapse();
    }

    /** The call begins. */
    method Dial()
      requires doing.ToLookUp? || doing.ToSave? || doing.ToPoll?
      modifies this`last, this`doing, this`made, this`events
      ensures View() == Call(old(View()))
    {
      ghost var s := Call(View());
      last := Some(now);
      doing, made, events := s.doing, s.made, s.events;
    }

    method SetCalm(tooMany: bool)
      modifies this`calm, this`events
      ensures View() == Failed(old(View()), c, tooMany)
    {
      if tooMany {
        calm := Some(now + c.quiet);
        events := events + [TooMany(now)];
      }
    }

    method Later(j: Job, after: int)
      modifies this`timers, this`doing
      ensures timers == old(timers) + [Timer(now + after, j)] && doing == Idle
    {
      timers := timers + [Timer(now + after, j)];
      doing := Idle;
    }

    method EndRound(p: Id)
      modifies this`busy, this`doing, this`made, this`ended
      ensures View() == Over(old(View()), p)
    {
      ended := ended + [TallyOf(View(), p)];
      made := made - {p};
      busy := busy - {p};
      doing := Idle;
    }

    method StoreCopy(p: Id, copy: string)
      modifies this`busy, this`doing, this`made, this`ended, this`cards
      ensures View() == Land(old(View()), p, copy)
    {
      EndRound(p);
      if p in cards { cards := cards[p := cards[p].(archive := copy)]; }
    }

    /** What becomes of a lookup's answer; whether a save is next. */
    method HearLookUp(j: Job, a: Looked) returns (save: bool)
      requires doing == LookingUp(j) && c.polls != []
      modifies this`timers, this`doing, this`busy, this`made, this`ended, this`cards, this`calm, this`events
      ensures View() == AfterLookUp(old(View()), c, j, a) && (save <==> View().doing == ToSave(j))
    {
      if a.Found? {
        StoreCopy(j.post, a.copy);
        return false;
      }
      if a.LookFailed? {
        SetCalm(a.tooMany);
        if j.step < |c.retries| {
          Later(j.(step := j.step + 1), c.retries[j.step]);
          return false;
        }
      }
      doing := ToSave(j);
      save := true;
    }

    method HearSave(j: Job, a: Save)
      requires doing == Saving(j) && c.polls != []
      modifies this`timers, this`doing, this`busy, this`made, this`ended, this`calm, this`events
      ensures View() == AfterSave(old(View()), c, j, a)
    {
      match a
      case SaveRefused(tooMany) =>
        SetCalm(tooMany);
        EndRound(j.post);
      case SaveBegun(job) =>
        Later(j.(job := job, step := 0), c.polls[0]);
    }

    method HearPoll(j: Job, a: Polled)
      requires doing == Polling(j)
      modifies this`timers, this`doing, this`busy, this`made, this`ended, this`cards, this`calm, this`events
      ensures View() == AfterPoll(old(View()), c, j, a)
    {
      if a.SaveLost? {
        EndRound(j.post);
        return;
      }
      if a.PollFailed? { SetCalm(a.tooMany); }
      if a.Copied? {
        StoreCopy(j.post, a.copy);
        return;
      }
      var step := j.step + 1;
      if step >= |c.polls| {
        EndRound(j.post);
        return;
      }
      Later(j.(step := step), c.polls[step]);
    }

    /** A pause, a call, and the time its answer takes. */
    method CallOut(ghost before: seq<Move>, ghost start: State) returns (ghost moves: seq<Move>)
      requires (doing.ToLookUp? || doing.ToSave? || doing.ToPoll?) && c.polls != [] && Leads(start, c, before, View())
      modifies this`now, this`last, this`doing, this`made, this`events
      ensures Leads(start, c, moves, View()) && doing == Call(old(View())).doing
    {
      ghost var s := View();
      Sleep();
      LeadsOn(start, c, before, s, Ticks(now), View());
      moves, s := before + [Ticks(now)], View();
      Dial();
      LeadsOn(start, c, moves, s, Calls, View());
      moves, s := moves + [Calls], View();
      Elapse();
      LeadsOn(start, c, moves, s, Ticks(now), View());
      moves := moves + [Ticks(now)];
    }

    /** A lookup, and when it is no use a save: a run of moves of the state machine. */
    method LookUp(j: Job) returns (ghost moves: seq<Move>)
      requires doing == ToLookUp(j) && c.polls != []
      modifies this
      ensures Leads(old(View()), c, moves, View())
    {
      ghost var start := View();
      moves := CallOut([], start);
      var a: Looked := *;
      ghost var mid := View();
      var save := HearLookUp(j, a);
      LeadsOn(start, c, moves, mid, LookedUp(a), View());
      moves := moves + [LookedUp(a)];
      if save { moves := AskForSave(j, moves, start); }
    }

    method AskForSave(j: Job, ghost before: seq<Move>, ghost start: State) returns (ghost moves: seq<Move>)
      requires doing == ToSave(j) && c.polls != [] && Leads(start, c, before, View())
      modifies this
      ensures Leads(start, c, moves, View())
    {
      moves := CallOut(before, start);
      var b: Save := *;
      if b.SaveBegun? && b.job == "" { b := SaveRefused(false); }
      ghost var mid := View();
      HearSave(j, b);
      LeadsOn(start, c, moves, mid, SaveAnswered(b), View());
      moves := moves + [SaveAnswered(b)];
    }

    method Poll(j: Job) returns (ghost moves: seq<Move>)
      requires doing == ToPoll(j) && c.polls != []
      modifies this
      ensures Leads(old(View()), c, moves, View())
    {
      ghost var start := View();
      moves := CallOut([], start);
      var a: Polled := *;
      ghost var mid := View();
      HearPoll(j, a);
      LeadsOn(start, c, moves, mid, PollAnswered(a), View());
      moves := moves + [PollAnswered(a)];
    }

    /** A round opened, when the store says so; it is looked up next. */
    method BeginRound(post: Id, storeUp: bool) returns (link: string)
      requires doing == Idle
      modifies this`cards, this`began, this`busy, this`made, this`doing
      ensures View() == Begin(old(View()), post, storeUp)
      ensures doing == if link == "" then Idle else ToLookUp(Job(post, link, "", 0))
    {
      link := "";
      if post in busy || !storeUp { return; }
      link := OpenRound(post);
      if link == "" { return; }
      busy, made, doing := busy + {post}, made[post := Tally(0, 0, 0)], ToLookUp(Job(post, link, "", 0));
    }

    /** The store opens a round: counted and stamped on the card's row. */
    method OpenRound(post: Id) returns (link: string)
      modifies this`cards, this`began
      ensures var (cs, l) := F.BeginArchive(old(cards), post, ARCHIVE_TRIES, now - ARCHIVE_EVERY, now);
              && cards == cs && link == (if l.Some? then l.value else "")
              && began ==
                 if l.Some? then old(began)[post := (if post in old(began) then old(began)[post] else []) + [now]]
                 else old(began)
    {
      link := "";
      if post in cards && F.MayBegin(cards[post], ARCHIVE_TRIES, now - ARCHIVE_EVERY) {
        link := cards[post].url;
        began := began[post := (if post in began then began[post] else []) + [now]];
        cards := cards[post := cards[post].(archiveTries := cards[post].archiveTries + 1, archiveTs := now)];
      }
    }

    /** The next job off the queue, done: a run of moves of the state machine. */
    method Step(storeUp: bool) returns (ghost moves: seq<Move>)
      requires doing == Idle && queue != [] && c.polls != []
      modifies this
      ensures Leads(Take(old(View()), storeUp), c, moves, View())
    {
      var j := queue[0];
      queue := queue[1..];
      moves := [];
      if j.link == "" {
        var link := BeginRound(j.post, storeUp);
        if link != "" { moves := LookUp(Job(j.post, link, "", 0)); }
      } else if j.job == "" {
        doing := ToLookUp(j);
        moves := LookUp(j);
      } else {
        doing := ToPoll(j);
        moves := Poll(j);
      }
    }
  }
}
