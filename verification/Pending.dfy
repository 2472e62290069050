/** Translations taken from peers, the ones that come before their post among them. */
module Pending {
  import opened Messages
  import opened Derive
  import opened Hub
  import W = Words
  import PinRuns
  import ReplayLaws
  import Revisions

  /** What the puller asks of a translation: its shape, the punctuation rule of its language,
      and the check of the words against the post. */
  datatype Rules = Rules(wellFormed: (W.Lang, string) -> bool, tidy: (W.Lang, string) -> string,
                         check: (string, string, W.Lang) -> bool)

  type Key = (HubId, Id, W.Lang)

  /** A translation set aside: seen is when this hub first did, row the order it was inserted in. */
  datatype Waiting = Waiting(text: string, model: string, ts: int, seen: int, row: nat)

  datatype St = St(db: Db, pending: map<Key, Waiting>, rows: nat)

  const PENDING_MAX: nat := 2000

  predicate WaitsLess(a: Waiting, b: Waiting)
  {
    a.seen > b.seen || (a.seen == b.seen && a.row > b.row)
  }

  function Mine(pending: map<Key, Waiting>, peer: HubId): set<Key> { set k | k in pending && k.0 == peer }

  /** Those of ks that have waited less than k. */
  function Newer(pending: map<Key, Waiting>, ks: set<Key>, k: Key): set<Key>
    requires ks <= pending.Keys && k in pending
  {
    set j | j in ks && WaitsLess(pending[j], pending[k])
  }

  /** Those of ks past the first cap: so many others have waited less. */
  function PastCap(pending: map<Key, Waiting>, ks: set<Key>, cap: nat): set<Key>
    requires ks <= pending.Keys
  {
    set k | k in ks && |Newer(pending, ks, k)| >= cap
  }

  function Evicted(pending: map<Key, Waiting>, peer: HubId, cap: nat): set<Key>
  {
    PastCap(pending, Mine(pending, peer), cap)
  }

  /** The newest per peer, post and language stands; a row keeps its place in the wait. */
  function Aside(s: St, peer: HubId, x: W.SharedTranslation, now: int): map<Key, Waiting>
  {
    var k := (peer, x.post, x.lang);
    if k !in s.pending then s.pending[k := Waiting(x.text, x.model, x.ts, now, s.rows)]
    else if x.ts > s.pending[k].ts
    then s.pending[k := s.pending[k].(text := x.text, model := x.model, ts := x.ts)]
    else s.pending
  }

  function SetPending(s: St, peer: HubId, x: W.SharedTranslation, now: int): St
  {
    var p := Aside(s, peer, x, now);
    s.(pending := p - Evicted(p, peer, PENDING_MAX), rows := s.rows + 1)
  }

  /** The language a post was named, empty while it was not. */
  function LangOf(db: Db, post: Id): W.Lang
  {
    if post in db.w.langs && db.w.langs[post].ok then db.w.langs[post].lang else ""
  }

  function Cut(x: W.SharedTranslation): W.SharedTranslation
  {
    if |x.model| > 200 then x.(model := x.model[..200]) else x
  }

  datatype Taking = Kept | Passed | Waits

  /** One translation a peer offers: kept, passed for good, or set aside for its post. */
  function Take(r: Rules, s: St, peer: HubId, offer: W.SharedTranslation, now: int): (St, Taking)
  {
    if !r.wellFormed(offer.lang, offer.text) then (s, Passed)
    else
      var x := Cut(offer);
      if x.post !in s.db.t.posts then (SetPending(s, peer, x, now), Waits)
      else if LangOf(s.db, x.post) == x.lang then (s, Passed)
      else
        var y := x.(text := r.tidy(x.lang, x.text));
        if !r.check(s.db.t.posts[x.post].text, y.text, y.lang) then (s, Passed)
        else if W.TakesTranslation(s.db.w, true, y)
        then (s.(db := s.db.(w := W.AcceptTranslation(s.db.w, true, peer, y))), Kept)
        else (s, Passed)
  }

  /** One that was set aside, tried: whatever take decides is final, unless its post is still not here. */
  function Try(r: Rules, s: St, k: Key, now: int): St
    requires k in s.pending
  {
    var n := s.pending[k];
    var (s1, got) := Take(r, s, k.0, W.SharedTranslation(k.1, k.2, n.text, n.model, n.ts), now);
    if got == Waits then s1 else s1.(pending := s1.pending - {k})
  }

  function Age(s: St, before: int): St
  {
    s.(pending := map k | k in s.pending && s.pending[k].seen >= before :: s.pending[k])
  }

  datatype Move =
    | Offers(peer: HubId, x: W.SharedTranslation, now: int)
    | Tries(k: Key, now: int)
    | Ages(before: int)
    | OfHub(step: Step)

  ghost function Moved(r: Rules, s: St, m: Move): St
  {
    match m
    case Offers(peer, x, now) => Take(r, s, peer, x, now).0
    case Tries(k, now) => if k in s.pending then Try(r, s, k, now) else s
    case Ages(before) => Age(s, before)
    case OfHub(step) => s.(db := Next(s.db, step))
  }

  ghost function Story(r: Rules, moves: seq<Move>): St
    decreases |moves|
  {
    if moves == [] then St(EMPTY, map[], 0) else Moved(r, Story(r, moves[..|moves| - 1]), moves[|moves| - 1])
  }

  // ---- a peer kept to its cap ----

  predicate DistinctRows(pending: map<Key, Waiting>)
  {
    forall j, k :: j in pending && k in pending && j != k ==> pending[j].row != pending[k].row
  }

  lemma {:induction false} LongestWaiting(pending: map<Key, Waiting>, ks: set<Key>) returns (m: Key)
    requires ks <= pending.Keys && ks != {} && DistinctRows(pending)
    ensures m in ks && forall j :: j in ks && j != m ==> WaitsLess(pending[j], pending[m])
    decreases |ks|
  {
    m :| m in ks;
    if ks != {m} {
      var best := LongestWaiting(pending, ks - {m});
      if WaitsLess(pending[m], pending[best]) { m := best; }
    }
  }

  /** past is what of ks is over the cap: as many stay as may, and each of those that stay has
      waited less than each that goes. */
  predicate CutOff(pending: map<Key, Waiting>, ks: set<Key>, past: set<Key>, cap: nat)
    requires ks <= pending.Keys
  {
    && past <= ks && |ks - past| == (if |ks| <= cap then |ks| else cap) && (|ks| <= cap ==> past == {})
    && forall j, k :: j in ks && j !in past && k in past ==>
         || pending[j].seen > pending[k].seen
         || (pending[j].seen == pending[k].seen && pending[j].row > pending[k].row)
  }

  lemma {:induction false} PastCapIs(pending: map<Key, Waiting>, ks: set<Key>, cap: nat)
    requires ks <= pending.Keys && DistinctRows(pending)
    ensures CutOff(pending, ks, PastCap(pending, ks, cap), cap)
    decreases |ks|
  {
    if |ks| <= cap {
      NonePastCap(pending, ks, cap);
    } else {
      var m := LongestWaiting(pending, ks);
      PastCapIs(pending, ks - {m}, cap);
      PastCapLess(pending, ks, cap, m);
      CutOffMore(pending, ks, PastCap(pending, ks - {m}, cap), cap, m);
    }
  }

  lemma NonePastCap(pending: map<Key, Waiting>, ks: set<Key>, cap: nat)
    requires ks <= pending.Keys && |ks| <= cap
    ensures PastCap(pending, ks, cap) == {}
  {
    forall k | k in ks
      ensures |Newer(pending, ks, k)| < cap
    {
      NewerFewer(pending, ks, k);
    }
  }

  lemma CutOffMore(pending: map<Key, Waiting>, ks: set<Key>, past: set<Key>, cap: nat, m: Key)
    requires ks <= pending.Keys && m in ks && |ks| > cap && CutOff(pending, ks - {m}, past, cap)
    requires forall j :: j in ks && j != m ==> WaitsLess(pending[j], pending[m])
    ensures CutOff(pending, ks, past + {m}, cap)
  {
    assert ks - (past + {m}) == (ks - {m}) - past;
  }

  lemma NewerFewer(pending: map<Key, Waiting>, ks: set<Key>, k: Key)
    requires ks <= pending.Keys && k in ks
    ensures |Newer(pending, ks, k)| < |ks|
  {
    Fewer(Newer(pending, ks, k), ks - {k});
  }

  lemma Fewer(a: set<Key>, b: set<Key>)
    requires a <= b
    ensures |a| <= |b|
  {
    assert b == a + (b - a);
  }

  lemma PastCapLess(pending: map<Key, Waiting>, ks: set<Key>, cap: nat, m: Key)
    requires ks <= pending.Keys && m in ks && |ks| > cap
    requires forall j :: j in ks && j != m ==> WaitsLess(pending[j], pending[m])
    ensures PastCap(pending, ks, cap) == PastCap(pending, ks - {m}, cap) + {m}
  {
    assert Newer(pending, ks, m) == ks - {m};
    forall k | k in ks && k != m
      ensures Newer(pending, ks, k) == Newer(pending, ks - {m}, k)
    {
      assert !WaitsLess(pending[m], pending[k]);
    }
  }

  /** Each row was inserted at a place of its own, before the next. */
  predicate Rowed(s: St)
  {
    DistinctRows(s.pending) && forall k :: k in s.pending ==> s.pending[k].row < s.rows
  }

  lemma AsideIs(s: St, peer: HubId, x: W.SharedTranslation, now: int)
    requires Rowed(s)
    ensures var p, k := Aside(s, peer, x, now), (peer, x.post, x.lang);
            && DistinctRows(p) && p.Keys == s.pending.Keys + {k} && p[k].row <= s.rows
            && forall j :: j in s.pending && j != k ==> p[j] == s.pending[j]
  {
  }

  /** A peer's rows kept to the cap. */
  ghost predicate KeptToCap(p: map<Key, Waiting>, p1: map<Key, Waiting>, peer: HubId, cap: nat)
  {
    && p1.Keys <= p.Keys && (forall k :: k in p1 ==> p1[k] == p[k]) && (forall k :: k in p && k !in p1 ==> k.0 == peer)
    && CutOff(p, Mine(p, peer), Mine(p, peer) - Mine(p1, peer), cap)
  }

  lemma EvictedIs(p: map<Key, Waiting>, peer: HubId, cap: nat)
    requires DistinctRows(p)
    ensures KeptToCap(p, p - Evicted(p, peer, cap), peer, cap)
    ensures |Mine(p - Evicted(p, peer, cap), peer)| <= cap
  {
    var mine, past := Mine(p, peer), Evicted(p, peer, cap);
    PastCapIs(p, mine, cap);
    assert Mine(p - past, peer) == mine - past;
    assert mine - (mine - past) == past;
  }

  /** Setting one aside leaves its peer with as many as it would have, or the cap when that is
      fewer; who goes has waited longer than each that stays; no other peer's rows are touched. */
  lemma SetPendingCaps(s: St, peer: HubId, x: W.SharedTranslation, now: int)
    requires Rowed(s)
    ensures Rowed(SetPending(s, peer, x, now))
    ensures KeptToCap(Aside(s, peer, x, now), SetPending(s, peer, x, now).pending, peer, PENDING_MAX)
    ensures |Mine(SetPending(s, peer, x, now).pending, peer)| <= PENDING_MAX
  {
    AsideIs(s, peer, x, now);
    EvictedIs(Aside(s, peer, x, now), peer, PENDING_MAX);
  }

  ghost predicate Capped(s: St)
  {
    Rowed(s) && forall peer: HubId :: |Mine(s.pending, peer)| <= PENDING_MAX
  }

  lemma SetPendingCapped(s: St, peer: HubId, x: W.SharedTranslation, now: int)
    requires Capped(s)
    ensures Capped(SetPending(s, peer, x, now))
  {
    SetPendingCaps(s, peer, x, now);
    AsideIs(s, peer, x, now);
    var s1 := SetPending(s, peer, x, now);
    forall other: HubId
      ensures |Mine(s1.pending, other)| <= PENDING_MAX
    {
      if other != peer { Fewer(Mine(s1.pending, other), Mine(s.pending, other)); }
    }
  }

  lemma FewerCapped(s: St, s1: St)
    requires Capped(s) && s1.rows >= s.rows
    requires forall k :: k in s1.pending ==> k in s.pending && s1.pending[k] == s.pending[k]
    ensures Capped(s1)
  {
    forall peer: HubId
      ensures |Mine(s1.pending, peer)| <= PENDING_MAX
    {
      Fewer(Mine(s1.pending, peer), Mine(s.pending, peer));
    }
  }

  lemma TakeCapped(r: Rules, s: St, peer: HubId, offer: W.SharedTranslation, now: int)
    requires Capped(s)
    ensures Capped(Take(r, s, peer, offer, now).0)
  {
    if Take(r, s, peer, offer, now).1 == Waits {
      SetPendingCapped(s, peer, Cut(offer), now);
    } else {
      FewerCapped(s, Take(r, s, peer, offer, now).0);
    }
  }

  lemma TryCapped(r: Rules, s: St, k: Key, now: int)
    requires Capped(s) && k in s.pending
    ensures Capped(Try(r, s, k, now))
  {
    var n := s.pending[k];
    var x := W.SharedTranslation(k.1, k.2, n.text, n.model, n.ts);
    TakeCapped(r, s, k.0, x, now);
    FewerCapped(Take(r, s, k.0, x, now).0, Try(r, s, k, now));
  }

  /** Whatever peers offer and when, none ever has more rows waiting than the cap. */
  lemma {:induction false} PeersAreCapped(r: Rules, moves: seq<Move>)
    ensures Capped(Story(r, moves))
    decreases |moves|
  {
    if moves == [] {
      forall peer: HubId
        ensures Mine(map[], peer) == {}
      {
      }
    } else {
      var s, m := Story(r, moves[..|moves| - 1]), moves[|moves| - 1];
      PeersAreCapped(r, moves[..|moves| - 1]);
      match m
      case Offers(peer, x, now) => TakeCapped(r, s, peer, x, now);
      case Tries(k, now) => if k in s.pending { TryCapped(r, s, k, now); }
      case Ages(before) => FewerCapped(s, Age(s, before));
      case OfHub(step) => FewerCapped(s, Moved(r, s, m));
    }
  }

  // ---- what is kept was checked ----

  /** A move that leaves it to the peers to put post into lang, though it may drop what they did. */
  predicate ByPeers(m: Move, post: Id, lang: W.Lang)
  {
    m.OfHub? && m.step.OnWords? ==>
      match m.step.ws
      case SetsTranslation(p, l, _, _, _, _) => !(p == post && l == lang)
      case RewritesTranslation(p, l, _, _) => !(p == post && l == lang)
      case AcceptsTranslation(_, x) => !(x.post == post && x.lang == lang)
      case _ => true
  }

  /** Well-formed words, set by the rule of their language. */
  ghost predicate Tidied(r: Rules, lang: W.Lang, text: string)
  {
    exists raw :: r.wellFormed(lang, raw) && text == r.tidy(lang, raw)
  }

  /** The row kept is well-formed words set by the rule, and passes the check against the post's. */
  ghost predicate Checked(r: Rules, db: Db, post: Id, lang: W.Lang)
  {
    (post, lang) in db.w.translations ==>
      && post in db.t.posts && r.check(db.t.posts[post].text, db.w.translations[(post, lang)].text, lang)
      && Tidied(r, lang, db.w.translations[(post, lang)].text)
  }

  /** What waits is well-formed, and its model's name of a length to keep. */
  ghost predicate AllWellFormed(r: Rules, pending: map<Key, Waiting>)
  {
    forall k :: k in pending ==> r.wellFormed(k.2, pending[k].text) && |pending[k].model| <= 200
  }

  lemma TakeWellFormed(r: Rules, s: St, peer: HubId, offer: W.SharedTranslation, now: int)
    requires AllWellFormed(r, s.pending)
    ensures AllWellFormed(r, Take(r, s, peer, offer, now).0.pending)
  {
  }

  lemma TryWellFormed(r: Rules, s: St, k: Key, now: int)
    requires AllWellFormed(r, s.pending) && k in s.pending
    ensures AllWellFormed(r, Try(r, s, k, now).pending)
  {
    var n := s.pending[k];
    TakeWellFormed(r, s, k.0, W.SharedTranslation(k.1, k.2, n.text, n.model, n.ts), now);
  }

  /** Whatever peers offer, only well-formed words ever wait. */
  lemma {:induction false} WaitingIsWellFormed(r: Rules, moves: seq<Move>)
    ensures AllWellFormed(r, Story(r, moves).pending)
    decreases |moves|
  {
    if moves != [] {
      var s, m := Story(r, moves[..|moves| - 1]), moves[|moves| - 1];
      WaitingIsWellFormed(r, moves[..|moves| - 1]);
      match m
      case Offers(peer, x, now) => TakeWellFormed(r, s, peer, x, now);
      case Tries(k, now) => if k in s.pending { TryWellFormed(r, s, k, now); }
      case _ =>
    }
  }

  // ---- how long one waits ----

  /** It was seen before what is kept. */
  predicate Aged(s: St, m: Move, k: Key)
  {
    m.Ages? && k in s.pending && s.pending[k].seen < m.before
  }

  /** It is tried, and its post is here. */
  predicate Tried(s: St, m: Move, k: Key)
  {
    m.Tries? && m.k == k && k.1 in s.db.t.posts
  }

  /** An offer that is set aside. */
  predicate SetsAside(r: Rules, s: St, m: Move)
  {
    m.Offers? && r.wellFormed(m.x.lang, m.x.text) && m.x.post !in s.db.t.posts
  }

  predicate IsFor(m: Move, k: Key) { m.Offers? && (m.peer, m.x.post, m.x.lang) == k }

  /** Its peer, with as many waiting as it may have, has one more set aside. */
  predicate Crowded(r: Rules, s: St, m: Move, k: Key)
  {
    SetsAside(r, s, m) && m.peer == k.0 && |Mine(s.pending, k.0)| == PENDING_MAX
    && (m.peer, m.x.post, m.x.lang) !in s.pending
  }

  lemma MineAside(pending: map<Key, Waiting>, p: map<Key, Waiting>, k: Key)
    requires p.Keys == pending.Keys + {k} && (k in pending || |Mine(pending, k.0)| < PENDING_MAX)
    requires |Mine(pending, k.0)| <= PENDING_MAX
    ensures |Mine(p, k.0)| <= PENDING_MAX
  {
    if k in pending {
      assert Mine(p, k.0) == Mine(pending, k.0);
    } else {
      assert Mine(p, k.0) == Mine(pending, k.0) + {k};
    }
  }

  /** A peer with room, or that has its row already, puts none out. */
  lemma NonePutOut(s: St, peer: HubId, x: W.SharedTranslation, now: int)
    requires Capped(s) && ((peer, x.post, x.lang) in s.pending || |Mine(s.pending, peer)| < PENDING_MAX)
    ensures SetPending(s, peer, x, now).pending == Aside(s, peer, x, now)
  {
    var p := Aside(s, peer, x, now);
    AsideIs(s, peer, x, now);
    MineAside(s.pending, p, (peer, x.post, x.lang));
    NonePastCap(p, Mine(p, peer), PENDING_MAX);
    assert p - {} == p;
  }

  lemma AsideLeaves(s: St, peer: HubId, x: W.SharedTranslation, now: int, k: Key)
    requires Capped(s) && k in s.pending
    requires k.0 != peer || (peer, x.post, x.lang) in s.pending || |Mine(s.pending, peer)| < PENDING_MAX
    ensures k in SetPending(s, peer, x, now).pending
  {
    AsideIs(s, peer, x, now);
    if k.0 == peer { NonePutOut(s, peer, x, now); }
  }

  lemma AsideSets(s: St, peer: HubId, x: W.SharedTranslation, now: int, k: Key)
    requires k in s.pending && k in SetPending(s, peer, x, now).pending
    ensures var n := s.pending[k];
            SetPending(s, peer, x, now).pending[k] ==
              if k == (peer, x.post, x.lang) && x.ts > n.ts then n.(text := x.text, model := x.model, ts := x.ts) else n
  {
  }

  lemma TriedGoes(r: Rules, s: St, k: Key, now: int)
    requires Capped(s) && AllWellFormed(r, s.pending) && k in s.pending
    ensures var p1 := Try(r, s, k, now).pending;
            if k.1 in s.db.t.posts then p1 == s.pending - {k} else p1 == s.pending
  {
    var n := s.pending[k];
    var x := W.SharedTranslation(k.1, k.2, n.text, n.model, n.ts);
    if k.1 !in s.db.t.posts {
      assert Cut(x) == x && Aside(s, k.0, x, now) == s.pending;
      NonePutOut(s, k.0, x, now);
    }
  }

  /** What waits goes exactly when it was seen too long ago, or is tried with its post here, but for
      a full peer's row that one more of the peer's puts out. Till then it waits since it was first
      seen, with the latest words its peer has for it. */
  lemma WaitsOn(r: Rules, s: St, m: Move, k: Key)
    requires Capped(s) && AllWellFormed(r, s.pending) && k in s.pending
    ensures var p1, n := Moved(r, s, m).pending, s.pending[k];
            && (Aged(s, m, k) || Tried(s, m, k) ==> k !in p1)
            && (k !in p1 ==> Aged(s, m, k) || Tried(s, m, k) || Crowded(r, s, m, k))
            && (k in p1 ==>
                  p1[k] == if SetsAside(r, s, m) && IsFor(m, k) && m.x.ts > n.ts
                           then n.(text := m.x.text, model := Cut(m.x).model, ts := m.x.ts) else n)
  {
    match m
    case Offers(peer, x, now) =>
      if SetsAside(r, s, m) {
        if !Crowded(r, s, m, k) { AsideLeaves(s, peer, Cut(x), now, k); }
        if k in SetPending(s, peer, Cut(x), now).pending { AsideSets(s, peer, Cut(x), now, k); }
      }
    case Tries(j, now) => if j in s.pending { TriedGoes(r, s, j, now); }
    case _ =>
  }

  /** An offer whose post is not here is set aside as it came, unless its peer has all it may waiting. */
  lemma StartsToWait(r: Rules, s: St, m: Move)
    requires Capped(s) && SetsAside(r, s, m) && |Mine(s.pending, m.peer)| < PENDING_MAX
    ensures var k, p1 := (m.peer, m.x.post, m.x.lang), Moved(r, s, m).pending;
            k !in s.pending ==>
              k in p1 && p1[k] == Waiting(m.x.text, Cut(m.x).model, m.x.ts, m.now, s.rows)
  {
    NonePutOut(s, m.peer, Cut(m.x), m.now);
  }

  predicate SameKept(w: W.Words, w1: W.Words, post: Id, lang: W.Lang)
  {
    && ((post, lang) in w1.translations <==> (post, lang) in w.translations)
    && ((post, lang) in w.translations ==> w1.translations[(post, lang)] == w.translations[(post, lang)])
  }

  lemma TakeNotIntoItsOwn(r: Rules, s: St, peer: HubId, x: W.SharedTranslation, now: int, post: Id, lang: W.Lang)
    requires LangOf(s.db, post) == lang
    ensures SameKept(s.db.w, Take(r, s, peer, x, now).0.db.w, post, lang)
  {
  }

  /** No peer puts a post into the language it is in. */
  lemma NotIntoItsOwn(r: Rules, s: St, m: Move, post: Id, lang: W.Lang)
    requires LangOf(s.db, post) == lang && !m.OfHub?
    ensures SameKept(s.db.w, Moved(r, s, m).db.w, post, lang)
  {
    match m
    case Offers(peer, x, now) => TakeNotIntoItsOwn(r, s, peer, x, now, post, lang);
    case Tries(k, now) =>
      if k in s.pending {
        var n := s.pending[k];
        TakeNotIntoItsOwn(r, s, k.0, W.SharedTranslation(k.1, k.2, n.text, n.model, n.ts), now, post, lang);
      }
    case _ =>
  }

  lemma TakeChecked(r: Rules, s: St, peer: HubId, offer: W.SharedTranslation, now: int, post: Id, lang: W.Lang)
    requires Checked(r, s.db, post, lang)
    ensures Checked(r, Take(r, s, peer, offer, now).0.db, post, lang)
    ensures Take(r, s, peer, offer, now).0.db == s.db.(w := Take(r, s, peer, offer, now).0.db.w)
  {
    if Take(r, s, peer, offer, now).1 == Kept { assert Tidied(r, offer.lang, r.tidy(offer.lang, offer.text)); }
  }

  lemma MessageChecked(r: Rules, db: Db, s: Step, post: Id, lang: W.Lang)
    requires s.Ingests? && Checked(r, db, post, lang)
    ensures Checked(r, Next(db, s), post, lang)
  {
    if Ingest(db, s.id, s.e, s.now, s.origin).Ok? && post in db.t.posts &&
        !(s.e.op.PostDelete? && s.e.op.post == post) {
      PostStays(db.t, s.id, s.e, s.now, s.origin.Some?, post);
    }
  }

  lemma HubChecked(r: Rules, db: Db, s: Step, post: Id, lang: W.Lang)
    requires ReplayLaws.Derived(db) && Checked(r, db, post, lang) && ByPeers(OfHub(s), post, lang)
    ensures Checked(r, Next(db, s), post, lang)
  {
    match s
    case Ingests(_, _, _, _) => MessageChecked(r, db, s, post, lang);
    case Rebuilds => RebuildChecked(r, db, post, lang);
    case OnWords(ws) => WordsChecked(r, db, ws, post, lang);
    case _ =>
  }

  lemma RebuildChecked(r: Rules, db: Db, post: Id, lang: W.Lang)
    requires ReplayLaws.Derived(db) && Checked(r, db, post, lang)
    ensures Checked(r, Next(db, Rebuilds), post, lang)
  {
    ReplayLaws.RebuildKeeps(db);
    Revisions.ReplayShrinks(Cleared(db), db.log);
  }

  lemma WordsChecked(r: Rules, db: Db, ws: W.WordStep, post: Id, lang: W.Lang)
    requires Checked(r, db, post, lang) && ByPeers(OfHub(OnWords(ws)), post, lang)
    ensures Checked(r, Next(db, OnWords(ws)), post, lang)
  {
    var w1 := W.NextWords(db.w, db.t.posts, ws);
    assert (post, lang) in w1.translations ==>
        (post, lang) in db.w.translations && w1.translations[(post, lang)] == db.w.translations[(post, lang)];
  }

  /** However the offers, the post and the settles come, the words a hub keeps from its peers for a
      post are well-formed, set by the rule of their language, and pass the check against the
      post's own: what does not is never kept. */
  lemma {:induction false} KeptIsChecked(r: Rules, moves: seq<Move>, post: Id, lang: W.Lang)
    requires forall i :: 0 <= i < |moves| ==> ByPeers(moves[i], post, lang)
    ensures ReplayLaws.Derived(Story(r, moves).db) && Checked(r, Story(r, moves).db, post, lang)
    decreases |moves|
  {
    if moves == [] {
      ReplayLaws.RunKeeps([]);
    } else {
      var s, m := Story(r, moves[..|moves| - 1]), moves[|moves| - 1];
      KeptIsChecked(r, moves[..|moves| - 1], post, lang);
      match m
      case Offers(peer, x, now) => TakeChecked(r, s, peer, x, now, post, lang);
      case Tries(k, now) =>
        if k in s.pending {
          var n := s.pending[k];
          TakeChecked(r, s, k.0, W.SharedTranslation(k.1, k.2, n.text, n.model, n.ts), now, post, lang);
        }
      case Ages(_) =>
      case OfHub(step) =>
        HubChecked(r, s.db, step, post, lang);
        ReplayLaws.NextKeeps(s.db, step);
    }
  }

  // ---- one post and one language ----

  predicate At(k: Key, post: Id, lang: W.Lang) { k.1 == post && k.2 == lang }

  /** A step of this hub that leaves the translation of post into lang to its peers: it makes,
      rewrites and drops none, does not delete the post, and does not name it as being in lang. */
  predicate LeftToPeers(s: Step, post: Id, lang: W.Lang)
  {
    match s
    case Ingests(_, e, _, _) => !(e.op.PostDelete? && e.op.post == post)
    case OnWords(ws) =>
      (match ws
       case SetsTranslation(p, l, _, _, _, _) => !(p == post && l == lang)
       case RewritesTranslation(p, l, _, _) => !(p == post && l == lang)
       case AcceptsTranslation(_, x) => !(x.post == post && x.lang == lang)
       case DropsTranslations(p, only) => !(p == post && (only.None? || only.value == lang))
       case SetsLang(p, l, _, ok, _) => !(p == post && ok && l == lang)
       case _ => true)
    case _ => true
  }

  predicate OfferAt(m: Move, post: Id, lang: W.Lang)
  {
    m.Offers? && m.x.post == post && m.x.lang == lang
  }

  /** A move that evicts and ages away nothing waiting for post in lang, and leaves it to the
      peers; what it offers passes the checks against the post. */
  ghost predicate Fair(r: Rules, s: St, m: Move, post: Id, lang: W.Lang, words: string)
  {
    && (m.OfHub? ==> LeftToPeers(m.step, post, lang))
    && (OfferAt(m, post, lang) ==> r.wellFormed(lang, m.x.text) && r.check(words, r.tidy(lang, m.x.text), lang))
    && (forall k :: k in s.pending && At(k, post, lang) && !(m.Tries? && m.k == k && post in s.db.t.posts) ==>
       k in Moved(r, s, m).pending)
    && (OfferAt(m, post, lang) && post !in s.db.t.posts ==> (m.peer, post, lang) in Moved(r, s, m).pending)
    && (post in s.db.t.posts ==> s.db.t.posts[post].text == words)
  }

  ghost predicate AllFair(r: Rules, moves: seq<Move>, post: Id, lang: W.Lang, words: string)
    decreases |moves|
  {
    moves == [] ||
    (AllFair(r, moves[..|moves| - 1], post, lang, words) &&
     Fair(r, Story(r, moves[..|moves| - 1]), moves[|moves| - 1], post, lang, words))
  }

  /** Every translation of post into lang offered so far, with the peer that offered it. */
  ghost function Offered(moves: seq<Move>, post: Id, lang: W.Lang): set<(HubId, W.SharedTranslation)>
  {
    set m | m in moves && m.Offers? && m.x.post == post && m.x.lang == lang :: (m.peer, Cut(m.x))
  }

  /** The kept row is one of the offers, as the rule sets it. */
  ghost predicate IsOffer(r: Rules, offers: set<(HubId, W.SharedTranslation)>, row: W.Translation, lang: W.Lang)
  {
    row.ok && exists o :: o in offers && row.origin == Some(o.0) && row.ts == o.1.ts &&
                          row.text == r.tidy(lang, o.1.text) && row.model == o.1.model
  }

  /** A waiting row is one of the offers, as it came. */
  ghost predicate IsWaiting(offers: set<(HubId, W.SharedTranslation)>, k: Key, n: Waiting)
  {
    (k.0, W.SharedTranslation(k.1, k.2, n.text, n.model, n.ts)) in offers
  }

  ghost predicate Covered(s: St, o: (HubId, W.SharedTranslation), post: Id, lang: W.Lang)
  {
    || ((o.0, post, lang) in s.pending && s.pending[(o.0, post, lang)].ts >= o.1.ts)
    || ((post, lang) in s.db.w.translations && s.db.w.translations[(post, lang)].ts >= o.1.ts)
  }

  /** Nothing newer is lost: every offer is outlived by a waiting or the kept one, and those are offers. */
  ghost predicate Inv(r: Rules, s: St, offers: set<(HubId, W.SharedTranslation)>, post: Id, lang: W.Lang, words: string)
  {
    && ReplayLaws.Derived(s.db) && LangOf(s.db, post) != lang
    && ((post, lang) in s.db.w.translations ==>
          post in s.db.t.posts && IsOffer(r, offers, s.db.w.translations[(post, lang)], lang))
    && (forall k :: k in s.pending && At(k, post, lang) ==> IsWaiting(offers, k, s.pending[k]))
    && (forall o :: o in offers ==> Covered(s, o, post, lang))
    && (forall o :: o in offers ==> OfferOk(r, o.1, post, lang, words))
  }

  predicate OfferOk(r: Rules, x: W.SharedTranslation, post: Id, lang: W.Lang, words: string)
  {
    x.post == post && x.lang == lang && |x.model| <= 200 &&
    r.wellFormed(lang, x.text) && r.check(words, r.tidy(lang, x.text), lang)
  }

  // ---- the hub's own steps ----

  /** A message that does not delete post leaves what is said of it in lang, and the post. */
  lemma MessageLeaves(db: Db, id: Id, e: Envelope, received: int, replay: bool, post: Id, lang: W.Lang)
    requires Apply(db, id, e, received, replay).Ok? && !(e.op.PostDelete? && e.op.post == post)
    ensures var db1 := Apply(db, id, e, received, replay).value.0;
            && ((post, lang) in db1.w.translations <==> (post, lang) in db.w.translations)
            && ((post, lang) in db.w.translations ==>
               db1.w.translations[(post, lang)] == db.w.translations[(post, lang)])
            && LangOf(db1, post) == LangOf(db, post)
  {
  }

  lemma MessageHolds(db: Db, id: Id, e: Envelope, received: int, replay: bool, post: Id)
    requires Apply(db, id, e, received, replay).Ok? && !(e.op.PostDelete? && e.op.post == post)
    requires post in db.t.posts
    ensures post in Apply(db, id, e, received, replay).value.0.t.posts
  {
    ReplayLaws.PostsOf(db.t, id, e, received, replay);
  }

  lemma {:induction false} ReplayLeaves(db: Db, log: seq<Msg>, post: Id, lang: W.Lang)
    requires Replay(db, log).Ok?
    requires forall i :: 0 <= i < |log| && log[i].e.op.PostDelete? ==> log[i].e.op.post != post
    ensures var db1 := Replay(db, log).value;
            && ((post, lang) in db1.w.translations <==> (post, lang) in db.w.translations)
            && ((post, lang) in db.w.translations ==>
               db1.w.translations[(post, lang)] == db.w.translations[(post, lang)])
            && LangOf(db1, post) == LangOf(db, post)
    decreases |log|
  {
    if log != [] {
      var front, m := log[..|log| - 1], log[|log| - 1];
      assert forall i :: 0 <= i < |front| ==> front[i] == log[i];
      ReplayLeaves(db, front, post, lang);
      MessageLeaves(Replay(db, front).value, m.id, m.e, m.received, true, post, lang);
    }
  }

  lemma {:induction false} ReplayLangs(db: Db, log: seq<Msg>, post: Id)
    requires Replay(db, log).Ok?
    ensures post in Replay(db, log).value.w.langs ==>
              post in db.w.langs && Replay(db, log).value.w.langs[post] == db.w.langs[post]
    decreases |log|
  {
    if log != [] {
      ReplayLangs(db, log[..|log| - 1], post);
    }
  }

  lemma RebuildLeaves(db: Db, post: Id, lang: W.Lang)
    requires ReplayLaws.Derived(db) && lang != "" && LangOf(db, post) != lang
    requires (post, lang) in db.w.translations ==> post in db.t.posts
    ensures Rebuild(db).Ok?
    ensures var db1 := Rebuild(db).value;
            && LangOf(db1, post) != lang
            && ((post, lang) in db1.w.translations <==> (post, lang) in db.w.translations)
            && ((post, lang) in db.w.translations ==>
               db1.w.translations[(post, lang)] == db.w.translations[(post, lang)])
  {
    ReplayLaws.RebuildKeeps(db);
    ReplayLangs(Cleared(db), db.log, post);
    Revisions.ReplayShrinks(Cleared(db), db.log);
    if post in db.t.posts {
      forall i | 0 <= i < |db.log| && db.log[i].e.op.PostDelete?
        ensures db.log[i].e.op.post != post
      {
        PinRuns.DeletedStaysDeleted(db.log, i);
      }
      ReplayLeaves(Cleared(db), db.log, post, lang);
    }
  }

  lemma WordsLeave(w: W.Words, posts: Posts, ws: W.WordStep, post: Id, lang: W.Lang)
    requires LeftToPeers(OnWords(ws), post, lang)
    ensures var w1 := W.NextWords(w, posts, ws);
            && ((post, lang) in w1.translations <==> (post, lang) in w.translations)
            && ((post, lang) in w.translations ==> w1.translations[(post, lang)] == w.translations[(post, lang)])
  {
  }

  lemma WordsLang(db: Db, ws: W.WordStep, post: Id, lang: W.Lang)
    requires LeftToPeers(OnWords(ws), post, lang) && lang != "" && LangOf(db, post) != lang
    ensures LangOf(Next(db, OnWords(ws)), post) != lang
  {
  }

  /** Both states say the same of post in lang, and nothing waiting for it was added or lost. */
  ghost predicate SameAt(s: St, s1: St, post: Id, lang: W.Lang)
  {
    && ((post, lang) in s1.db.w.translations <==> (post, lang) in s.db.w.translations)
    && ((post, lang) in s.db.w.translations ==> s1.db.w.translations[(post, lang)] == s.db.w.translations[(post, lang)])
    && (forall k :: At(k, post, lang) ==> (k in s1.pending <==> k in s.pending))
    && (forall k :: At(k, post, lang) && k in s.pending && k in s1.pending ==> s1.pending[k] == s.pending[k])
  }

  lemma SameKeeps(r: Rules, s: St, s1: St, offers: set<(HubId, W.SharedTranslation)>, post: Id, lang: W.Lang,
      words: string)
    requires Inv(r, s, offers, post, lang, words) && SameAt(s, s1, post, lang)
    requires ReplayLaws.Derived(s1.db) && LangOf(s1.db, post) != lang
    requires post in s.db.t.posts ==> post in s1.db.t.posts
    ensures Inv(r, s1, offers, post, lang, words)
  {
    forall o | o in offers
      ensures Covered(s1, o, post, lang)
    {
      assert At((o.0, post, lang), post, lang);
    }
  }

  /** What a step of the hub left to the peers leaves of the key. */
  lemma HubLeaves(db: Db, step: Step, post: Id, lang: W.Lang)
    requires ReplayLaws.Derived(db) && LeftToPeers(step, post, lang) && lang != "" && LangOf(db, post) != lang
    requires (post, lang) in db.w.translations ==> post in db.t.posts
    ensures var db1 := Next(db, step);
            && LangOf(db1, post) != lang && (post in db.t.posts ==> post in db1.t.posts)
            && ((post, lang) in db1.w.translations <==> (post, lang) in db.w.translations)
            && ((post, lang) in db.w.translations ==>
               db1.w.translations[(post, lang)] == db.w.translations[(post, lang)])
  {
    match step
    case Ingests(id, e, now, origin) =>
      if Ingest(db, id, e, now, origin).Ok? {
        MessageLeaves(db, id, e, now, origin.Some?, post, lang);
        if post in db.t.posts { MessageHolds(db, id, e, now, origin.Some?, post); }
      }
    case Rebuilds =>
      RebuildLeaves(db, post, lang);
      ReplayLaws.RebuildKeeps(db);
    case OnWords(ws) =>
      WordsLeave(db.w, db.t.posts, ws, post, lang);
      WordsLang(db, ws, post, lang);
    case _ =>
  }

  lemma HubKeeps(r: Rules, s: St, step: Step, offers: set<(HubId, W.SharedTranslation)>, post: Id, lang: W.Lang,
      words: string)
    requires Inv(r, s, offers, post, lang, words) && LeftToPeers(step, post, lang) && lang != ""
    ensures Inv(r, s.(db := Next(s.db, step)), offers, post, lang, words)
  {
    ReplayLaws.NextKeeps(s.db, step);
    HubLeaves(s.db, step, post, lang);
    SameKeeps(r, s, s.(db := Next(s.db, step)), offers, post, lang, words);
  }

  // ---- offers and settles ----

  /** Taking an offer for another key, or setting it aside, leaves this one's row alone. */
  lemma TakeElsewhere(r: Rules, s: St, peer: HubId, x: W.SharedTranslation, now: int, post: Id, lang: W.Lang)
    requires !(x.post == post && x.lang == lang)
    ensures var s1 := Take(r, s, peer, x, now).0;
            && s1.db.t == s.db.t && s1.db.log == s.db.log && s1.db.w.langs == s.db.w.langs
            && ((post, lang) in s1.db.w.translations <==> (post, lang) in s.db.w.translations)
            && ((post, lang) in s.db.w.translations ==>
               s1.db.w.translations[(post, lang)] == s.db.w.translations[(post, lang)])
            && (forall k :: k in s1.pending && At(k, post, lang) ==> k in s.pending && s1.pending[k] == s.pending[k])
  {
  }

  lemma TakeHere(r: Rules, s: St, peer: HubId, x: W.SharedTranslation, now: int, post: Id, lang: W.Lang, words: string)
    requires x.post == post && x.lang == lang && OfferOk(r, Cut(x), post, lang, words)
    requires post in s.db.t.posts && s.db.t.posts[post].text == words && LangOf(s.db, post) != lang
    ensures var s1 := Take(r, s, peer, x, now).0;
            && s1.db.t == s.db.t && s1.db.log == s.db.log && s1.db.w.langs == s.db.w.langs && s1.pending == s.pending
            && (post, lang) in s1.db.w.translations && Take(r, s, peer, x, now).1 != Waits
            && var row := s1.db.w.translations[(post, lang)];
               if (post, lang) in s.db.w.translations && s.db.w.translations[(post, lang)].ok &&
                  s.db.w.translations[(post, lang)].ts >= x.ts
               then row == s.db.w.translations[(post, lang)]
               else
                 && row.ok && row.origin == Some(peer) && row.ts == x.ts
                 && row.text == r.tidy(lang, x.text)
                 && row.model == if |x.model| <= 200 then x.model else x.model[..200]
  {
  }

  /** An offer for another key leaves all as it is for this one. */
  lemma OfferElsewhere(r: Rules, s: St, m: Move, offers: set<(HubId, W.SharedTranslation)>, post: Id, lang: W.Lang,
      words: string)
    requires Inv(r, s, offers, post, lang, words) && Fair(r, s, m, post, lang, words) && m.Offers? &&
      !OfferAt(m, post, lang)
    ensures Inv(r, Moved(r, s, m), offers, post, lang, words)
  {
    var s1 := Moved(r, s, m);
    TakeElsewhere(r, s, m.peer, m.x, m.now, post, lang);
    SameKeeps(r, s, s1, offers, post, lang, words);
  }

  lemma OfferKeeps(r: Rules, s: St, m: Move, offers: set<(HubId, W.SharedTranslation)>, post: Id, lang: W.Lang,
      words: string)
    requires Inv(r, s, offers, post, lang, words) && Fair(r, s, m, post, lang, words) && m.Offers?
    ensures var more := if OfferAt(m, post, lang) then {(m.peer, Cut(m.x))} else {};
            Inv(r, Moved(r, s, m), offers + more, post, lang, words)
  {
    if !OfferAt(m, post, lang) {
      OfferElsewhere(r, s, m, offers, post, lang, words);
      assert offers + {} == offers;
    } else if post in s.db.t.posts {
      OfferHere(r, s, m, offers, post, lang, words);
    } else {
      OfferAside(r, s, m, offers, post, lang, words);
    }
  }

  lemma OfferHere(r: Rules, s: St, m: Move, offers: set<(HubId, W.SharedTranslation)>, post: Id, lang: W.Lang,
      words: string)
    requires Inv(r, s, offers, post, lang, words) && Fair(r, s, m, post, lang, words) && OfferAt(m, post, lang)
    requires post in s.db.t.posts
    ensures Inv(r, Moved(r, s, m), offers + {(m.peer, Cut(m.x))}, post, lang, words)
  {
    var s1, o1 := Moved(r, s, m), (m.peer, Cut(m.x));
    TakeHere(r, s, m.peer, m.x, m.now, post, lang, words);
    KeptIsOffer(r, s, s1, offers, offers + {o1}, o1, post, lang);
    forall o | o in offers + {o1}
      ensures Covered(s1, o, post, lang)
    {
      if o in offers { assert Covered(s, o, post, lang); }
    }
  }

  /** The row after an offer here is the one that stood or the offer itself: an offer either way. */
  lemma KeptIsOffer(r: Rules, s: St, s1: St, offers: set<(HubId, W.SharedTranslation)>,
      more: set<(HubId, W.SharedTranslation)>,
                    o: (HubId, W.SharedTranslation), post: Id, lang: W.Lang)
    requires offers <= more && o in more && (post, lang) in s1.db.w.translations
    requires (post, lang) in s.db.w.translations ==> IsOffer(r, offers, s.db.w.translations[(post, lang)], lang)
    requires var row := s1.db.w.translations[(post, lang)];
             || ((post, lang) in s.db.w.translations && row == s.db.w.translations[(post, lang)])
             || (row.ok && row.origin == Some(o.0) && row.ts == o.1.ts && row.text == r.tidy(lang, o.1.text) &&
                row.model == o.1.model)
    ensures IsOffer(r, more, s1.db.w.translations[(post, lang)], lang)
  {
  }

  /** Setting an offer aside, and evicting what waited longest, changes only the peer's rows. */
  lemma AsideRow(s: St, peer: HubId, x: W.SharedTranslation, now: int, j: Key)
    requires j in SetPending(s, peer, x, now).pending
    ensures var n := SetPending(s, peer, x, now).pending[j];
            if j == (peer, x.post, x.lang)
            then
              || (n.text, n.model, n.ts) == (x.text, x.model, x.ts)
              || (j in s.pending && n == s.pending[j] && n.ts >= x.ts)
            else j in s.pending && n == s.pending[j]
    ensures var n := SetPending(s, peer, x, now).pending[j];
            (j in s.pending ==> n.ts >= s.pending[j].ts) && (j == (peer, x.post, x.lang) ==> n.ts >= x.ts)
  {
  }

  lemma OfferAside(r: Rules, s: St, m: Move, offers: set<(HubId, W.SharedTranslation)>, post: Id, lang: W.Lang,
      words: string)
    requires Inv(r, s, offers, post, lang, words) && Fair(r, s, m, post, lang, words) && OfferAt(m, post, lang)
    requires post !in s.db.t.posts
    ensures Inv(r, Moved(r, s, m), offers + {(m.peer, Cut(m.x))}, post, lang, words)
  {
    var s1, more := Moved(r, s, m), offers + {(m.peer, Cut(m.x))};
    assert s1 == SetPending(s, m.peer, Cut(m.x), m.now);
    forall j | j in s1.pending && At(j, post, lang)
      ensures IsWaiting(more, j, s1.pending[j])
    {
      AsideRow(s, m.peer, Cut(m.x), m.now, j);
    }
    forall o | o in more
      ensures Covered(s1, o, post, lang)
    {
      AsideCovers(s, s1, m.peer, Cut(m.x), m.now, o, offers, post, lang);
    }
  }

  lemma AsideCovers(s: St, s1: St, peer: HubId, x: W.SharedTranslation, now: int, o: (HubId, W.SharedTranslation),
                    offers: set<(HubId, W.SharedTranslation)>, post: Id, lang: W.Lang)
    requires s1 == SetPending(s, peer, x, now) && x.post == post && x.lang == lang
    requires forall k :: k in s.pending && At(k, post, lang) ==> k in s1.pending
    requires (peer, post, lang) in s1.pending
    requires o == (peer, x) || (o in offers && Covered(s, o, post, lang))
    ensures Covered(s1, o, post, lang)
  {
    var k := (o.0, post, lang);
    assert At(k, post, lang);
    if k in s1.pending { AsideRow(s, peer, x, now, k); }
  }

  lemma TryHere(r: Rules, s: St, k: Key, now: int, offers: set<(HubId, W.SharedTranslation)>, post: Id, lang: W.Lang,
      words: string)
    requires Inv(r, s, offers, post, lang, words) && k in s.pending && At(k, post, lang)
    requires post in s.db.t.posts && s.db.t.posts[post].text == words
    ensures Inv(r, Try(r, s, k, now), offers, post, lang, words)
  {
    var n, s1 := s.pending[k], Try(r, s, k, now);
    var x := W.SharedTranslation(k.1, k.2, n.text, n.model, n.ts);
    assert IsWaiting(offers, k, n) && (k.0, x) in offers && Cut(x) == x;
    TakeHere(r, s, k.0, x, now, post, lang, words);
    var row := s1.db.w.translations[(post, lang)];
    assert IsOffer(r, offers, row, lang);
    forall o | o in offers
      ensures Covered(s1, o, post, lang)
    {
      assert Covered(s, o, post, lang);
    }
  }

  lemma TryAside(r: Rules, s: St, m: Move, offers: set<(HubId, W.SharedTranslation)>, post: Id, lang: W.Lang,
      words: string)
    requires Inv(r, s, offers, post, lang, words) && Fair(r, s, m, post, lang, words) && m.Tries? && m.k in s.pending
    requires !(At(m.k, post, lang) && post in s.db.t.posts)
    ensures Inv(r, Moved(r, s, m), offers, post, lang, words)
  {
    var s1, k := Moved(r, s, m), m.k;
    var n := s.pending[k];
    if !At(k, post, lang) {
      TakeElsewhere(r, s, k.0, W.SharedTranslation(k.1, k.2, n.text, n.model, n.ts), m.now, post, lang);
    } else {
      assert IsWaiting(offers, k, n);
    }
    SameKeeps(r, s, s1, offers, post, lang, words);
  }

  lemma TryKeeps(r: Rules, s: St, m: Move, offers: set<(HubId, W.SharedTranslation)>, post: Id, lang: W.Lang,
      words: string)
    requires Inv(r, s, offers, post, lang, words) && Fair(r, s, m, post, lang, words) && m.Tries? && m.k in s.pending
    ensures Inv(r, Moved(r, s, m), offers, post, lang, words)
  {
    if At(m.k, post, lang) && post in s.db.t.posts {
      TryHere(r, s, m.k, m.now, offers, post, lang, words);
    } else {
      TryAside(r, s, m, offers, post, lang, words);
    }
  }

  lemma AgeKeeps(r: Rules, s: St, m: Move, offers: set<(HubId, W.SharedTranslation)>, post: Id, lang: W.Lang,
      words: string)
    requires Inv(r, s, offers, post, lang, words) && Fair(r, s, m, post, lang, words) && m.Ages?
    ensures Inv(r, Moved(r, s, m), offers, post, lang, words)
  {
  }

  lemma OfferedSnoc(moves: seq<Move>, post: Id, lang: W.Lang)
    requires moves != []
    ensures var front, m := moves[..|moves| - 1], moves[|moves| - 1];
            Offered(moves, post, lang) ==
            Offered(front, post, lang) + (if OfferAt(m, post, lang) then {(m.peer, Cut(m.x))} else {})
  {
    assert moves == moves[..|moves| - 1] + [moves[|moves| - 1]];
  }

  lemma {:induction false} StoryKeeps(r: Rules, moves: seq<Move>, post: Id, lang: W.Lang, words: string)
    requires AllFair(r, moves, post, lang, words) && lang != ""
    ensures Inv(r, Story(r, moves), Offered(moves, post, lang), post, lang, words)
    decreases |moves|
  {
    if moves == [] {
      ReplayLaws.RunKeeps([]);
    } else {
      var front, m := moves[..|moves| - 1], moves[|moves| - 1];
      var s, offers := Story(r, front), Offered(front, post, lang);
      StoryKeeps(r, front, post, lang, words);
      OfferedSnoc(moves, post, lang);
      assert !m.Offers? ==> Offered(moves, post, lang) == offers;
      match m
      case Offers(_, _, _) => OfferKeeps(r, s, m, offers, post, lang, words);
      case Tries(k, _) => if k in s.pending { TryKeeps(r, s, m, offers, post, lang, words); }
      case Ages(_) => AgeKeeps(r, s, m, offers, post, lang, words);
      case OfHub(step) => HubKeeps(r, s, step, offers, post, lang, words);
    }
  }

  /** A translation before its post is as good as one after. Whatever the order of the
      offers, the post's arrival and the settles: once the post is here and nothing waits for
      it in that language, the newest offer is the one kept. */
  lemma NewestIsKept(r: Rules, moves: seq<Move>, post: Id, lang: W.Lang, words: string,
      newest: (HubId, W.SharedTranslation))
    requires AllFair(r, moves, post, lang, words) && lang != ""
    requires newest in Offered(moves, post, lang)
    requires forall o :: o in Offered(moves, post, lang) && o != newest ==> o.1.ts < newest.1.ts
    requires post in Story(r, moves).db.t.posts
    requires forall k :: k in Story(r, moves).pending ==> !At(k, post, lang)
    ensures var trs := Story(r, moves).db.w.translations;
            && (post, lang) in trs && trs[(post, lang)].ok && trs[(post, lang)].origin == Some(newest.0)
            && trs[(post, lang)].text == r.tidy(lang, newest.1.text) && trs[(post, lang)].ts == newest.1.ts
  {
    StoryKeeps(r, moves, post, lang, words);
    var s := Story(r, moves);
    assert Covered(s, newest, post, lang);
  }
}
