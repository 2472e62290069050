/** No revision lands behind a reader: what a hub serves, numbered, and what its peers have read. */
module Revisions {
  import opened Messages
  import opened Derive
  import opened Hub
  import W = Words

  predicate OwnTr(r: W.Translation) { r.ok && r.origin.None? }
  predicate OwnSu(r: W.Summary) { r.ok && r.origin.None? }

  /** The rows served are this hub's own kept ones, each under a number of its own across both tables. */
  ghost predicate Numbered(w: W.Words)
  {
    RowsOk(w) && TrDistinct(w) && SuDistinct(w) && Apart(w)
  }

  ghost predicate RowsOk(w: W.Words)
  {
    && (forall k :: k in w.translations ==> NumberOk(OwnTr(w.translations[k]), w.translations[k].rev, w.lastRev))
    && (forall k :: k in w.summaries ==> NumberOk(OwnSu(w.summaries[k]), w.summaries[k].rev, w.lastRev))
  }

  ghost predicate TrDistinct(w: W.Words)
  {
    forall j, k ::
      j in w.translations && k in w.translations && w.translations[j].rev == w.translations[k].rev > 0 ==> j == k
  }

  ghost predicate SuDistinct(w: W.Words)
  {
    forall j, k :: j in w.summaries && k in w.summaries && w.summaries[j].rev == w.summaries[k].rev > 0 ==> j == k
  }

  ghost predicate Apart(w: W.Words)
  {
    forall j, k :: j in w.translations && k in w.summaries && w.translations[j].rev > 0 ==>
      w.translations[j].rev != w.summaries[k].rev
  }

  predicate NumberOk(own: bool, rev: nat, last: nat)
  {
    rev <= last && (own <==> rev > 0)
  }

  /** From w to w1 no number comes again: a served row is as it was, or numbered past all of them. */
  ghost predicate MovesOn(w: W.Words, w1: W.Words)
  {
    && w.lastRev <= w1.lastRev
    && (forall k :: k in w1.translations && w1.translations[k].rev > 0 ==>
          (k in w.translations && w.translations[k] == w1.translations[k]) || w1.translations[k].rev > w.lastRev)
    && (forall k :: k in w1.summaries && w1.summaries[k].rev > 0 ==>
          (k in w.summaries && w.summaries[k] == w1.summaries[k]) || w1.summaries[k].rev > w.lastRev)
  }

  ghost predicate Good(w: W.Words, w1: W.Words)
  {
    Numbered(w1) && MovesOn(w, w1)
  }

  /** w1 is w with rows gone. */
  ghost predicate Shrinks(w: W.Words, w1: W.Words)
  {
    && w1.lastRev == w.lastRev
    && (forall k :: k in w1.translations ==> k in w.translations && w1.translations[k] == w.translations[k])
    && (forall k :: k in w1.summaries ==> k in w.summaries && w1.summaries[k] == w.summaries[k])
  }

  lemma ShrinkGood(w: W.Words, w1: W.Words)
    requires Numbered(w) && Shrinks(w, w1)
    ensures Good(w, w1)
  {
  }

  lemma PutTranslationRows(w: W.Words, w1: W.Words, k: (Id, W.Lang), row: W.Translation)
    requires RowsOk(w) && w1.translations == w.translations[k := row] && w1.summaries == w.summaries
    requires NumberOk(OwnTr(row), row.rev, w1.lastRev) && w.lastRev <= w1.lastRev
    ensures RowsOk(w1)
  {
  }

  lemma PutTranslationDistinct(w: W.Words, w1: W.Words, k: (Id, W.Lang), row: W.Translation)
    requires RowsOk(w) && TrDistinct(w) && w1.translations == w.translations[k := row]
    requires row.rev == 0 || row.rev > w.lastRev
    ensures TrDistinct(w1)
  {
  }

  lemma PutTranslationApart(w: W.Words, w1: W.Words, k: (Id, W.Lang), row: W.Translation)
    requires RowsOk(w) && Apart(w) && w1.translations == w.translations[k := row] && w1.summaries == w.summaries
    requires row.rev == 0 || row.rev > w.lastRev
    ensures Apart(w1)
  {
  }

  lemma PutTranslation(w: W.Words, w1: W.Words, k: (Id, W.Lang), row: W.Translation)
    requires Numbered(w) && w1.translations == w.translations[k := row] && w1.summaries == w.summaries
    requires OwnTr(row) ==> w1.lastRev == row.rev == w.lastRev + 1
    requires !OwnTr(row) ==> row.rev == 0 && w1.lastRev == w.lastRev
    ensures Good(w, w1)
  {
    PutTranslationRows(w, w1, k, row);
    PutTranslationDistinct(w, w1, k, row);
    PutTranslationApart(w, w1, k, row);
  }

  lemma PutSummaryRows(w: W.Words, w1: W.Words, k: (Id, nat, W.Lang), row: W.Summary)
    requires RowsOk(w) && w1.summaries == w.summaries[k := row] && w1.translations == w.translations
    requires NumberOk(OwnSu(row), row.rev, w1.lastRev) && w.lastRev <= w1.lastRev
    ensures RowsOk(w1)
  {
  }

  lemma PutSummaryDistinct(w: W.Words, w1: W.Words, k: (Id, nat, W.Lang), row: W.Summary)
    requires RowsOk(w) && SuDistinct(w) && w1.summaries == w.summaries[k := row]
    requires row.rev == 0 || row.rev > w.lastRev
    ensures SuDistinct(w1)
  {
  }

  lemma PutSummaryApart(w: W.Words, w1: W.Words, k: (Id, nat, W.Lang), row: W.Summary)
    requires RowsOk(w) && Apart(w) && w1.summaries == w.summaries[k := row] && w1.translations == w.translations
    requires row.rev == 0 || row.rev > w.lastRev
    ensures Apart(w1)
  {
  }

  lemma PutSummary(w: W.Words, w1: W.Words, k: (Id, nat, W.Lang), row: W.Summary)
    requires Numbered(w) && w1.summaries == w.summaries[k := row] && w1.translations == w.translations
    requires OwnSu(row) ==> w1.lastRev == row.rev == w.lastRev + 1
    requires !OwnSu(row) ==> row.rev == 0 && w1.lastRev == w.lastRev
    ensures Good(w, w1)
  {
    PutSummaryRows(w, w1, k, row);
    PutSummaryDistinct(w, w1, k, row);
    PutSummaryApart(w, w1, k, row);
  }

  lemma Spent(w: W.Words, w1: W.Words)
    requires Numbered(w) && w1.translations == w.translations && w1.summaries == w.summaries && w1.lastRev >= w.lastRev
    ensures Good(w, w1)
  {
  }

  lemma SetTranslationGood(w: W.Words, held: bool, post: Id, lang: W.Lang, text: string, model: string, ok: bool,
      now: int)
    requires Numbered(w)
    ensures Good(w, W.SetTranslation(w, held, post, lang, text, model, ok, now))
  {
    var w1 := W.SetTranslation(w, held, post, lang, text, model, ok, now);
    if held { PutTranslation(w, w1, (post, lang), w1.translations[(post, lang)]); } else { Spent(w, w1); }
  }

  lemma AcceptTranslationGood(w: W.Words, held: bool, peer: HubId, x: W.SharedTranslation)
    requires Numbered(w)
    ensures Good(w, W.AcceptTranslation(w, held, peer, x))
  {
    var w1 := W.AcceptTranslation(w, held, peer, x);
    if W.TakesTranslation(w, held, x) {
      PutTranslation(w, w1, (x.post, x.lang), w1.translations[(x.post, x.lang)]);
    } else {
      Spent(w, w1);
    }
  }

  lemma RewriteTranslationGood(w: W.Words, post: Id, lang: W.Lang, text: string, now: int)
    requires Numbered(w)
    ensures Good(w, W.RewriteTranslation(w, post, lang, text, now))
  {
    var w1 := W.RewriteTranslation(w, post, lang, text, now);
    if (post, lang) in w.translations && w.translations[(post, lang)].ok {
      PutTranslation(w, w1, (post, lang), w1.translations[(post, lang)]);
    } else {
      Spent(w, w1);
    }
  }

  lemma TranslationStepGood(w: W.Words, posts: Posts, s: W.WordStep)
    requires Numbered(w)
    requires s.SetsTranslation? || s.AcceptsTranslation? || s.RewritesTranslation? || s.DropsTranslations? ||
      s.SetsLang?
    ensures Good(w, W.NextWords(w, posts, s))
  {
    match s
    case SetsTranslation(post, lang, text, model, ok, now) =>
      SetTranslationGood(w, post in posts, post, lang, text, model, ok, now);
    case AcceptsTranslation(peer, tr) => AcceptTranslationGood(w, tr.post in posts, peer, tr);
    case RewritesTranslation(post, lang, text, now) => RewriteTranslationGood(w, post, lang, text, now);
    case DropsTranslations(_, _) => ShrinkGood(w, W.NextWords(w, posts, s));
    case SetsLang(_, _, _, _, _) => Spent(w, W.NextWords(w, posts, s));
  }

  lemma PutSummaryGood(w: W.Words, post: Id, step: nat, lang: W.Lang, src: Option<W.Lang>, text: string, model: string,
                       replies: nat, cites: map<int, Id>, ok: bool, now: int)
    requires Numbered(w)
    ensures Good(w, W.PutSummary(w, post, step, lang, src, text, model, replies, cites, ok, now))
  {
    var w1 := W.PutSummary(w, post, step, lang, src, text, model, replies, cites, ok, now);
    PutSummary(w, w1, (post, step, lang), w1.summaries[(post, step, lang)]);
  }

  lemma SummaryStepGood(w: W.Words, posts: Posts, s: W.WordStep)
    requires Numbered(w)
    requires s.SetsSummary? || s.SetsSummaryTranslation? || s.AcceptsSummary? || s.DropsSummaries?
    ensures Good(w, W.NextWords(w, posts, s))
  {
    var w1 := W.NextWords(w, posts, s);
    match s
    case SetsSummary(post, step, lang, text, model, replies, cites, ok, now) =>
      if W.ThreadStands(posts, post, cites) {
        PutSummaryGood(w, post, step, lang, W.SrcKept(w, post, step, lang), text, model, replies, cites, ok, now);
      } else {
        Spent(w, w1);
      }
    case SetsSummaryTranslation(post, step, lang, src, text, model, replies, cites, ok, now) =>
      if post in posts && W.HasOriginal(w, post, step) {
        PutSummaryGood(w, post, step, lang, Some(src), text, model, replies, cites, ok, now);
      } else {
        Spent(w, w1);
      }
    case AcceptsSummary(_, su) =>
      if W.TakesSummary(w, su.post in posts, su) {
        PutSummary(w, w1, (su.post, su.step, su.lang), w1.summaries[(su.post, su.step, su.lang)]);
      } else {
        Spent(w, w1);
      }
    case DropsSummaries(_, _) => ShrinkGood(w, w1);
  }

  // ---- steps of the whole store ----

  lemma ApplyShrinks(db: Db, id: Id, e: Envelope, received: int, replay: bool)
    requires Apply(db, id, e, received, replay).Ok?
    ensures Shrinks(db.w, Apply(db, id, e, received, replay).value.0.w)
  {
  }

  lemma {:induction false} ReplayShrinks(db: Db, log: seq<Msg>)
    requires Replay(db, log).Ok?
    ensures Shrinks(db.w, Replay(db, log).value.w)
    decreases |log|
  {
    if log != [] {
      var m := log[|log| - 1];
      ReplayShrinks(db, log[..|log| - 1]);
      ApplyShrinks(Replay(db, log[..|log| - 1]).value, m.id, m.e, m.received, true);
    }
  }

  lemma StepGood(db: Db, s: Step)
    requires Numbered(db.w)
    ensures Good(db.w, Next(db, s).w)
  {
    match s
    case Ingests(id, e, now, origin) =>
      if Ingest(db, id, e, now, origin).Ok? {
        ApplyShrinks(db, id, e, now, origin.Some?);
      }
      ShrinkGood(db.w, Next(db, s).w);
    case Rebuilds =>
      if Rebuild(db).Ok? {
        ReplayShrinks(Cleared(db), db.log);
      }
      ShrinkGood(db.w, Next(db, s).w);
    case OnWords(ws) =>
      if ws.SetsSummary? || ws.SetsSummaryTranslation? || ws.AcceptsSummary? || ws.DropsSummaries? {
        SummaryStepGood(db.w, db.t.posts, ws);
      } else {
        TranslationStepGood(db.w, db.t.posts, ws);
      }
    case _ => ShrinkGood(db.w, Next(db, s).w);
  }

  // ---- pages by revision ----

  /** The row a page reads next: the one with the least number past `after`. */
  ghost predicate IsNextRow<K(!new)>(revs: map<K, nat>, after: nat, k: K)
  {
    k in revs && revs[k] > after && forall j :: j in revs && revs[j] > after ==> revs[k] <= revs[j]
  }

  lemma {:induction false} NextRowExists<K(!new)>(revs: map<K, nat>, after: nat, j: K)
    requires j in revs && revs[j] > after
    ensures exists k :: IsNextRow(revs, after, k)
    decreases revs[j]
  {
    if i :| i in revs && after < revs[i] < revs[j] {
      NextRowExists(revs, after, i);
    } else {
      assert IsNextRow(revs, after, j);
    }
  }

  /** WHERE rev > after ORDER BY rev LIMIT limit. */
  ghost function Page<K(!new)>(revs: map<K, nat>, after: nat, limit: nat): seq<K>
    decreases limit
  {
    if limit == 0 then []
    else if k :| IsNextRow(revs, after, k) then [k] + Page(revs, revs[k], limit - 1)
    else []
  }

  /** The cursor for the page after: the last number read, or where the page began. */
  ghost function PageNext<K(!new)>(revs: map<K, nat>, after: nat, page: seq<K>): nat
  {
    if page != [] && page[|page| - 1] in revs then revs[page[|page| - 1]] else after
  }

  /** A page holds every row numbered past its start and up to its end. */
  lemma {:induction false} PageComplete<K(!new)>(revs: map<K, nat>, after: nat, limit: nat, j: K)
    requires j in revs && after < revs[j] <= PageNext(revs, after, Page(revs, after, limit))
    requires forall i, k :: i in revs && k in revs && revs[i] == revs[k] ==> i == k
    ensures j in Page(revs, after, limit)
    decreases limit
  {
    var page := Page(revs, after, limit);
    NextRowExists(revs, after, j);
    var k := page[0];
    var rest := Page(revs, revs[k], limit - 1);
    assert page == [k] + rest;
    if j != k {
      if rest != [] { assert page[|page| - 1] == rest[|rest| - 1]; }
      PageComplete(revs, revs[k], limit - 1, j);
    }
  }

  lemma {:induction false} PageRows<K(!new)>(revs: map<K, nat>, after: nat, limit: nat)
    ensures forall k :: k in Page(revs, after, limit) ==> k in revs && revs[k] > after
    ensures after <= PageNext(revs, after, Page(revs, after, limit))
    decreases limit
  {
    if limit > 0 && exists k :: IsNextRow(revs, after, k) {
      var page := Page(revs, after, limit);
      var k := page[0];
      PageRows(revs, revs[k], limit - 1);
      assert page == [k] + Page(revs, revs[k], limit - 1);
    }
  }

  /** A page reads in the order of the numbers. */
  lemma {:induction false} PageInOrder<K(!new)>(revs: map<K, nat>, after: nat, limit: nat)
    ensures var page := Page(revs, after, limit);
            && (forall i :: 0 <= i < |page| ==> page[i] in revs && revs[page[i]] > after)
            && (forall i, j :: 0 <= i < j < |page| ==> revs[page[i]] < revs[page[j]])
    decreases limit
  {
    if limit > 0 && exists k :: IsNextRow(revs, after, k) {
      var page := Page(revs, after, limit);
      PageInOrder(revs, revs[page[0]], limit - 1);
      assert page[1..] == Page(revs, revs[page[0]], limit - 1);
    }
  }

  /** It holds as many rows as it may, or every one past its start. */
  lemma {:induction false} PageIsFull<K(!new)>(revs: map<K, nat>, after: nat, limit: nat)
    requires forall i, k :: i in revs && k in revs && revs[i] == revs[k] ==> i == k
    ensures var page := Page(revs, after, limit);
            |page| <= limit && (|page| < limit ==> forall j :: j in revs && revs[j] > after ==> j in page)
    decreases limit
  {
    if limit > 0 && exists k :: IsNextRow(revs, after, k) {
      var page := Page(revs, after, limit);
      var k := page[0];
      PageIsFull(revs, revs[k], limit - 1);
      assert page == [k] + Page(revs, revs[k], limit - 1);
    } else if limit > 0 {
      forall j | j in revs
        ensures revs[j] <= after
      {
        if revs[j] > after { NextRowExists(revs, after, j); }
      }
    }
  }

  // ---- a peer reading ----

  ghost function TrRevs(w: W.Words): map<(Id, W.Lang), nat>
  {
    map k | k in w.translations && OwnTr(w.translations[k]) :: w.translations[k].rev
  }

  ghost function SuRevs(w: W.Words): map<(Id, nat, W.Lang), nat>
  {
    map k | k in w.summaries && OwnSu(w.summaries[k]) :: w.summaries[k].rev
  }

  function ShareTr(k: (Id, W.Lang), r: W.Translation): W.SharedTranslation
  {
    W.SharedTranslation(k.0, k.1, r.text, r.model, r.ts)
  }

  function ShareSu(k: (Id, nat, W.Lang), r: W.Summary): W.SharedSummary
  {
    W.SharedSummary(k.0, k.1, k.2, r.src, r.text, r.model, r.replies, r.cites, r.ts)
  }

  /** A peer's cursors, the ends of the pages it has fetched and not yet saved, and all it was ever offered. */
  datatype Reader = Reader(tr: nat, su: nat, trNext: nat, suNext: nat,
                           trSeen: set<W.SharedTranslation>, suSeen: set<W.SharedSummary>)

  /** What goes on between a hub and one peer: the hub's own steps; the peer fetching a page,
      saving the cursor it brought, stopping before it did, or forgetting where it was. */
  datatype Move =
    | OfHub(s: Step)
    | FetchTr(limit: nat)
    | FetchSu(limit: nat)
    | SaveTr
    | SaveSu
    | Stops
    | Forgets

  datatype Pair = Pair(db: Db, r: Reader)

  ghost function Fetched(w: W.Words, r: Reader, limit: nat): Reader
  {
    var page := Page(TrRevs(w), r.tr, limit);
    r.(trNext := PageNext(TrRevs(w), r.tr, page),
       trSeen := r.trSeen + set k | k in page && k in w.translations :: ShareTr(k, w.translations[k]))
  }

  ghost function FetchedSu(w: W.Words, r: Reader, limit: nat): Reader
  {
    var page := Page(SuRevs(w), r.su, limit);
    r.(suNext := PageNext(SuRevs(w), r.su, page),
       suSeen := r.suSeen + set k | k in page && k in w.summaries :: ShareSu(k, w.summaries[k]))
  }

  ghost function Moved(p: Pair, m: Move): Pair
  {
    match m
    case OfHub(s) => p.(db := Next(p.db, s))
    case FetchTr(limit) => p.(r := Fetched(p.db.w, p.r, limit))
    case FetchSu(limit) => p.(r := FetchedSu(p.db.w, p.r, limit))
    case SaveTr => p.(r := p.r.(tr := p.r.trNext))
    case SaveSu => p.(r := p.r.(su := p.r.suNext))
    case Stops => p.(r := p.r.(trNext := p.r.tr, suNext := p.r.su))
    case Forgets => p.(r := p.r.(tr := 0, su := 0, trNext := 0, suNext := 0))
  }

  ghost function Story(moves: seq<Move>): Pair
    decreases |moves|
  {
    if moves == [] then Pair(EMPTY, Reader(0, 0, 0, 0, {}, {}))
    else Moved(Story(moves[..|moves| - 1]), moves[|moves| - 1])
  }

  /** Every own kept row numbered up to n was offered, as it now reads. */
  ghost predicate TrOffered(w: W.Words, n: nat, seen: set<W.SharedTranslation>)
  {
    n <= w.lastRev &&
    forall k :: k in w.translations && OwnTr(w.translations[k]) && w.translations[k].rev <= n ==>
      ShareTr(k, w.translations[k]) in seen
  }

  ghost predicate SuOffered(w: W.Words, n: nat, seen: set<W.SharedSummary>)
  {
    n <= w.lastRev &&
    forall k :: k in w.summaries && OwnSu(w.summaries[k]) && w.summaries[k].rev <= n ==>
      ShareSu(k, w.summaries[k]) in seen
  }

  ghost predicate Caught(w: W.Words, r: Reader)
  {
    && Numbered(w)
    && TrOffered(w, r.tr, r.trSeen) && TrOffered(w, r.trNext, r.trSeen)
    && SuOffered(w, r.su, r.suSeen) && SuOffered(w, r.suNext, r.suSeen)
  }

  lemma OfferedStays(w: W.Words, w1: W.Words, r: Reader)
    requires Caught(w, r) && Good(w, w1)
    ensures Caught(w1, r)
  {
  }

  lemma FetchOffers(w: W.Words, r: Reader, limit: nat)
    requires Caught(w, r)
    ensures Caught(w, Fetched(w, r, limit))
  {
    var revs, r1 := TrRevs(w), Fetched(w, r, limit);
    var page := Page(revs, r.tr, limit);
    PageRows(revs, r.tr, limit);
    forall k | k in w.translations && OwnTr(w.translations[k]) && w.translations[k].rev <= r1.trNext
      ensures ShareTr(k, w.translations[k]) in r1.trSeen
    {
      if w.translations[k].rev > r.tr {
        PageComplete(revs, r.tr, limit, k);
      }
    }
  }

  lemma FetchOffersSu(w: W.Words, r: Reader, limit: nat)
    requires Caught(w, r)
    ensures Caught(w, FetchedSu(w, r, limit))
  {
    var revs, r1 := SuRevs(w), FetchedSu(w, r, limit);
    var page := Page(revs, r.su, limit);
    PageRows(revs, r.su, limit);
    forall k | k in w.summaries && OwnSu(w.summaries[k]) && w.summaries[k].rev <= r1.suNext
      ensures ShareSu(k, w.summaries[k]) in r1.suSeen
    {
      if w.summaries[k].rev > r.su {
        PageComplete(revs, r.su, limit, k);
      }
    }
  }

  lemma {:induction false} StoryCaught(moves: seq<Move>)
    ensures Caught(Story(moves).db.w, Story(moves).r)
    decreases |moves|
  {
    if moves != [] {
      var p, m := Story(moves[..|moves| - 1]), moves[|moves| - 1];
      StoryCaught(moves[..|moves| - 1]);
      match m
      case OfHub(s) =>
        StepGood(p.db, s);
        OfferedStays(p.db.w, Next(p.db, s).w, p.r);
      case FetchTr(limit) => FetchOffers(p.db.w, p.r, limit);
      case FetchSu(limit) => FetchOffersSu(p.db.w, p.r, limit);
      case _ =>
    }
  }

  /** This hub's own kept translation, or summary, is what was offered, word for word. */
  ghost predicate OwnNow(w: W.Words, x: W.SharedTranslation)
  {
    && (x.post, x.lang) in w.translations
    && var r := w.translations[(x.post, x.lang)];
       r.ok && r.origin == None && r.text == x.text && r.model == x.model && r.ts == x.ts
  }

  ghost predicate OwnSummaryNow(w: W.Words, x: W.SharedSummary)
  {
    && (x.post, x.step, x.lang) in w.summaries
    && var r := w.summaries[(x.post, x.step, x.lang)];
       r.ok && r.origin == None && r.src == x.src && r.text == x.text && r.model == x.model && r.replies == x.replies
       && r.cites == x.cites && r.ts == x.ts
  }

  ghost predicate OnceOwn(moves: seq<Move>, x: W.SharedTranslation)
  {
    exists i: nat :: i <= |moves| && OwnNow(Story(moves[..i]).db.w, x)
  }

  ghost predicate OnceOwnSummary(moves: seq<Move>, x: W.SharedSummary)
  {
    exists i: nat :: i <= |moves| && OwnSummaryNow(Story(moves[..i]).db.w, x)
  }

  lemma OnceStays(moves: seq<Move>, m: Move)
    ensures forall x :: OnceOwn(moves, x) ==> OnceOwn(moves + [m], x)
    ensures forall x :: OnceOwnSummary(moves, x) ==> OnceOwnSummary(moves + [m], x)
  {
    assert forall i :: 0 <= i <= |moves| ==> (moves + [m])[..i] == moves[..i];
  }

  lemma NowIsOnce(moves: seq<Move>)
    ensures forall x :: OwnNow(Story(moves).db.w, x) ==> OnceOwn(moves, x)
    ensures forall x :: OwnSummaryNow(Story(moves).db.w, x) ==> OnceOwnSummary(moves, x)
  {
    assert moves[..|moves|] == moves;
  }

  /** And a peer is offered nothing else: whatever it was ever served was then this hub's own, kept, as it read. */
  lemma {:induction false} OnlyOwnIsOffered(moves: seq<Move>)
    ensures forall x :: x in Story(moves).r.trSeen ==> OnceOwn(moves, x)
    ensures forall x :: x in Story(moves).r.suSeen ==> OnceOwnSummary(moves, x)
    decreases |moves|
  {
    if moves != [] {
      var front, m := moves[..|moves| - 1], moves[|moves| - 1];
      OnlyOwnIsOffered(front);
      OnceStays(front, m);
      NowIsOnce(front);
      assert front + [m] == moves;
      var p := Story(front);
      PageRows(TrRevs(p.db.w), p.r.tr, if m.FetchTr? then m.limit else 0);
      PageRows(SuRevs(p.db.w), p.r.su, if m.FetchSu? then m.limit else 0);
    }
  }

  /** Over any interleaving of a hub's steps with a peer paging: this hub's own kept rows
      carry distinct numbers across both tables, and every one of them at or below the
      peer's cursor was offered to that peer with its current words and time. */
  lemma NothingBehindAReader(moves: seq<Move>)
    ensures var (w, r) := (Story(moves).db.w, Story(moves).r);
            && (forall k :: k in w.translations && OwnTr(w.translations[k]) && w.translations[k].rev <= r.tr ==>
                  var x := w.translations[k]; W.SharedTranslation(k.0, k.1, x.text, x.model, x.ts) in r.trSeen)
            && (forall k :: k in w.summaries && OwnSu(w.summaries[k]) && w.summaries[k].rev <= r.su ==>
                  var x := w.summaries[k];
                  W.SharedSummary(k.0, k.1, k.2, x.src, x.text, x.model, x.replies, x.cites, x.ts) in r.suSeen)
    ensures Numbered(Story(moves).db.w)
  {
    StoryCaught(moves);
    var (w, r) := (Story(moves).db.w, Story(moves).r);
    forall k | k in w.translations && OwnTr(w.translations[k]) && w.translations[k].rev <= r.tr
      ensures var x := w.translations[k]; W.SharedTranslation(k.0, k.1, x.text, x.model, x.ts) in r.trSeen
    {
      assert ShareTr(k, w.translations[k]) in r.trSeen;
    }
    forall k | k in w.summaries && OwnSu(w.summaries[k]) && w.summaries[k].rev <= r.su
      ensures var x := w.summaries[k];
              W.SharedSummary(k.0, k.1, k.2, x.src, x.text, x.model, x.replies, x.cites, x.ts) in r.suSeen
    {
      assert ShareSu(k, w.summaries[k]) in r.suSeen;
    }
  }

  /** A number is given once: a step never numbers a row at or below the highest number that
      stood before it, whatever rows have gone since. */
  lemma RevisionsNeverComeAgain(moves: seq<Move>, s: Step)
    ensures var w, w1 := Story(moves).db.w, Next(Story(moves).db, s).w; MovesOn(w, w1)
  {
    StoryCaught(moves);
    StepGood(Story(moves).db, s);
  }
}
