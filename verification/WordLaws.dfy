/** What a hub says of a post stands as it was written until it is written anew or its post goes. */
module WordLaws {
  import opened Messages
  import opened Derive
  import opened Hub
  import W = Words
  import Threads
  import PinRuns
  import ReplayLaws

  /** A row of the words: a post's language, a translation, a summary. */
  datatype Said =
    | OfLang(post: Id)
    | OfTranslation(post: Id, lang: W.Lang)
    | OfSummary(post: Id, step: nat, lang: W.Lang)

  predicate Stands(w: W.Words, k: Said)
  {
    match k
    case OfLang(post) => post in w.langs
    case OfTranslation(post, lang) => (post, lang) in w.translations
    case OfSummary(post, step, lang) => (post, step, lang) in w.summaries
  }

  /** The row is in both as it is in one, or in neither. */
  predicate SameRow(w: W.Words, w1: W.Words, k: Said)
  {
    && Stands(w, k) == Stands(w1, k)
    && (Stands(w, k) ==>
          match k
          case OfLang(post) => w.langs[post] == w1.langs[post]
          case OfTranslation(post, lang) => w.translations[(post, lang)] == w1.translations[(post, lang)]
          case OfSummary(post, step, lang) => w.summaries[(post, step, lang)] == w1.summaries[(post, step, lang)])
  }

  /** The posts a row is about: its own, and those a summary cites. */
  function About(w: W.Words, k: Said): set<Id>
  {
    {k.post} + if k.OfSummary? && Stands(w, k) then w.summaries[(k.post, k.step, k.lang)].cites.Values else {}
  }

  /** A step on the words that writes or drops the row. */
  predicate Writes(s: W.WordStep, k: Said)
  {
    match s
    case SetsLang(post, _, _, _, _) => k == OfLang(post)
    case SetsTranslation(post, lang, _, _, _, _) => k == OfTranslation(post, lang)
    case AcceptsTranslation(_, tr) => k == OfTranslation(tr.post, tr.lang)
    case RewritesTranslation(post, lang, _, _) => k == OfTranslation(post, lang)
    case DropsTranslations(post, only) => k.OfTranslation? && k.post == post && (only.None? || only.value == k.lang)
    case SetsSummary(post, step, lang, _, _, _, _, _, _) => k == OfSummary(post, step, lang)
    case SetsSummaryTranslation(post, step, lang, _, _, _, _, _, _, _) => k == OfSummary(post, step, lang)
    case AcceptsSummary(_, su) => k == OfSummary(su.post, su.step, su.lang)
    case DropsSummaries(post, _) => k.OfSummary? && k.post == post
  }

  /** A step that writes no such row and deletes none of the posts it is about. */
  predicate Leaves(s: Step, k: Said, about: set<Id>)
  {
    match s
    case Ingests(_, e, _, _) => !(e.op.PostDelete? && e.op.post in about)
    case OnWords(ws) => !Writes(ws, k)
    case _ => true
  }

  lemma WordsLeave(w: W.Words, posts: Posts, s: W.WordStep, k: Said)
    requires !Writes(s, k)
    ensures SameRow(w, W.NextWords(w, posts, s), k)
  {
  }

  lemma ForgetLeaves(w: W.Words, root: Option<Id>, post: Id, k: Said)
    requires post !in About(w, k)
    ensures SameRow(w, W.ForgetPost(w, root, post), k)
  {
  }

  lemma MessageLeaves(db: Db, id: Id, e: Envelope, received: int, replay: bool, k: Said)
    requires Apply(db, id, e, received, replay).Ok? && !(e.op.PostDelete? && e.op.post in About(db.w, k))
    ensures SameRow(db.w, Apply(db, id, e, received, replay).value.0.w, k)
  {
    if e.op.PostDelete? { ForgetLeaves(db.w, RootOf(db.t.posts, e.op.post, WALK_STEPS), e.op.post, k); }
  }

  lemma {:induction false} ReplayLeaves(db: Db, log: seq<Msg>, k: Said)
    requires Replay(db, log).Ok?
    requires forall i :: 0 <= i < |log| && log[i].e.op.PostDelete? ==> log[i].e.op.post !in About(db.w, k)
    ensures SameRow(db.w, Replay(db, log).value.w, k)
    decreases |log|
  {
    if log != [] {
      var front, m := log[..|log| - 1], log[|log| - 1];
      assert forall i :: 0 <= i < |front| ==> front[i] == log[i];
      ReplayLeaves(db, front, k);
      MessageLeaves(Replay(db, front).value, m.id, m.e, m.received, true, k);
    }
  }

  /** A rebuild keeps what is said of posts that are here. */
  lemma RebuildLeaves(db: Db, k: Said)
    requires ReplayLaws.Derived(db) && About(db.w, k) <= db.t.posts.Keys
    ensures Rebuild(db).Ok? && SameRow(db.w, Rebuild(db).value.w, k)
  {
    ReplayLaws.RebuildKeeps(db);
    ReplayLaws.ReplayReaches(Cleared(db), db.log);
    forall i | 0 <= i < |db.log| && db.log[i].e.op.PostDelete?
      ensures db.log[i].e.op.post !in About(db.w, k)
    {
      PinRuns.DeletedStaysDeleted(db.log, i);
    }
    ReplayLeaves(Cleared(db), db.log, k);
  }

  lemma IngestLeaves(db: Db, id: Id, e: Envelope, now: int, origin: Option<HubId>, k: Said)
    requires Ingest(db, id, e, now, origin).Ok? && About(db.w, k) <= db.t.posts.Keys
    requires !(e.op.PostDelete? && e.op.post in About(db.w, k))
    ensures var db1 := Ingest(db, id, e, now, origin).value.0;
            SameRow(db.w, db1.w, k) && About(db.w, k) <= db1.t.posts.Keys
  {
    MessageLeaves(db, id, e, now, origin.Some?, k);
    ReplayLaws.PostsOf(db.t, id, e, now, origin.Some?);
  }

  lemma WordStepLeaves(db: Db, ws: W.WordStep, k: Said)
    requires !Writes(ws, k)
    ensures var w1 := Next(db, OnWords(ws)).w; SameRow(db.w, w1, k) && About(w1, k) == About(db.w, k)
  {
    WordsLeave(db.w, db.t.posts, ws, k);
  }

  /** The row as it was, and the posts it is about here. */
  ghost predicate Kept(db: Db, db1: Db, k: Said)
  {
    SameRow(db.w, db1.w, k) && About(db1.w, k) == About(db.w, k) && About(db1.w, k) <= db1.t.posts.Keys
  }

  lemma MessageStepLeaves(db: Db, s: Step, k: Said)
    requires s.Ingests? && About(db.w, k) <= db.t.posts.Keys && Leaves(s, k, About(db.w, k))
    ensures Kept(db, Next(db, s), k)
  {
    if Ingest(db, s.id, s.e, s.now, s.origin).Ok? { IngestLeaves(db, s.id, s.e, s.now, s.origin, k); }
  }

  lemma RebuildStepLeaves(db: Db, k: Said)
    requires ReplayLaws.Derived(db) && About(db.w, k) <= db.t.posts.Keys
    ensures Kept(db, Next(db, Rebuilds), k)
  {
    RebuildLeaves(db, k);
    ReplayLaws.RebuildKeeps(db);
  }

  lemma StepLeaves(db: Db, s: Step, k: Said)
    requires ReplayLaws.Derived(db) && About(db.w, k) <= db.t.posts.Keys && Leaves(s, k, About(db.w, k))
    ensures Kept(db, Next(db, s), k)
  {
    match s
    case Ingests(_, _, _, _) => MessageStepLeaves(db, s, k);
    case Rebuilds => RebuildStepLeaves(db, k);
    case OnWords(ws) => WordStepLeaves(db, ws, k);
    case _ =>
  }

  /** What is said of posts that are here stays, whatever comes, until it is written anew or one
      of those posts goes. */
  lemma {:induction false} StandsAsWritten(db: Db, steps: seq<Step>, k: Said)
    requires ReplayLaws.Derived(db) && About(db.w, k) <= db.t.posts.Keys
    requires forall i :: 0 <= i < |steps| ==> Leaves(steps[i], k, About(db.w, k))
    ensures var db1 := Run(db, steps);
            && SameRow(db.w, db1.w, k) && ReplayLaws.Derived(db1) && About(db1.w, k) == About(db.w, k)
            && About(db1.w, k) <= db1.t.posts.Keys
    decreases |steps|
  {
    if steps != [] {
      var front := steps[..|steps| - 1];
      assert forall i :: 0 <= i < |front| ==> front[i] == steps[i];
      StandsAsWritten(db, front, k);
      StepLeaves(Run(db, front), steps[|steps| - 1], k);
      ReplayLaws.NextKeeps(Run(db, front), steps[|steps| - 1]);
    }
  }

  // ---- what is written is what is read ----

  lemma WordsOnly(db: Db, s: W.WordStep)
    requires ReplayLaws.Derived(db)
    ensures var db1 := Next(db, OnWords(s));
            ReplayLaws.Derived(db1) && db1.t == db.t && db1.w == W.NextWords(db.w, db.t.posts, s)
  {
  }

  /** The row of a translation as it was kept. */
  predicate IsRow(w: W.Words, post: Id, lang: W.Lang, text: string, model: string, ok: bool, ts: int,
                  origin: Option<HubId>, rev: nat)
  {
    && (post, lang) in w.translations
    && var r := w.translations[(post, lang)];
       r.text == text && r.model == model && r.ok == ok && r.ts == ts && r.origin == origin && r.rev == rev
  }

  lemma RowIsRead(db: Db, post: Id, lang: W.Lang, r: W.Translation, more: seq<Step>)
    requires ReplayLaws.Derived(db) && post in db.t.posts
    requires IsRow(db.w, post, lang, r.text, r.model, r.ok, r.ts, r.origin, r.rev)
    requires forall i :: 0 <= i < |more| ==> Leaves(more[i], OfTranslation(post, lang), {post})
    ensures IsRow(Run(db, more).w, post, lang, r.text, r.model, r.ok, r.ts, r.origin, r.rev)
  {
    StandsAsWritten(db, more, OfTranslation(post, lang));
  }

  /** A translation this hub kept is read, however much later, in the words and by the model it was
      kept with, as its own and under a number never given before; one that failed has no words. */
  lemma TranslationIsRead(db: Db, post: Id, lang: W.Lang, text: string, model: string, ok: bool, now: int,
                           more: seq<Step>)
    requires ReplayLaws.Derived(db) && post in db.t.posts
    requires forall i :: 0 <= i < |more| ==> Leaves(more[i], OfTranslation(post, lang), {post})
    ensures var w := Run(Next(db, OnWords(W.SetsTranslation(post, lang, text, model, ok, now))), more).w;
            IsRow(w, post, lang, if ok then text else "", model, ok, now, None, if ok then db.w.lastRev + 1 else 0)
  {
    var s := W.SetsTranslation(post, lang, text, model, ok, now);
    WordsOnly(db, s);
    RowIsRead(Next(db, OnWords(s)), post, lang, Next(db, OnWords(s)).w.translations[(post, lang)], more);
  }

  /** A peer's that took its place is read as the peer made it, dated as it was, under no number here. */
  lemma AcceptedIsRead(db: Db, peer: HubId, x: W.SharedTranslation, more: seq<Step>)
    requires ReplayLaws.Derived(db) && x.post in db.t.posts && W.TakesTranslation(db.w, true, x)
    requires forall i :: 0 <= i < |more| ==> Leaves(more[i], OfTranslation(x.post, x.lang), {x.post})
    ensures var w := Run(Next(db, OnWords(W.AcceptsTranslation(peer, x))), more).w;
            IsRow(w, x.post, x.lang, x.text, x.model, true, x.ts, Some(peer), 0)
  {
    var s := W.AcceptsTranslation(peer, x);
    WordsOnly(db, s);
    RowIsRead(Next(db, OnWords(s)), x.post, x.lang, Next(db, OnWords(s)).w.translations[(x.post, x.lang)], more);
  }

  /** And one set right is read in its new words, by the model and from the hub that made it; this
      hub's own under a new number and date, a peer's under the old. */
  lemma RewrittenIsRead(db: Db, post: Id, lang: W.Lang, text: string, now: int, more: seq<Step>)
    requires ReplayLaws.Derived(db) && post in db.t.posts
    requires (post, lang) in db.w.translations && db.w.translations[(post, lang)].ok
    requires forall i :: 0 <= i < |more| ==> Leaves(more[i], OfTranslation(post, lang), {post})
    ensures var w := Run(Next(db, OnWords(W.RewritesTranslation(post, lang, text, now))), more).w;
            var was := db.w.translations[(post, lang)];
            IsRow(w, post, lang, text, was.model, true, if was.origin.Some? then was.ts else now, was.origin,
                  if was.origin.Some? then was.rev else db.w.lastRev + 1)
  {
    var s := W.RewritesTranslation(post, lang, text, now);
    WordsOnly(db, s);
    RowIsRead(Next(db, OnWords(s)), post, lang, Next(db, OnWords(s)).w.translations[(post, lang)], more);
  }

  /** A post is read as named in the language last found, or as unnamed when none was. */
  lemma LangIsRead(db: Db, post: Id, lang: W.Lang, model: string, ok: bool, now: int, more: seq<Step>)
    requires ReplayLaws.Derived(db) && post in db.t.posts
    requires forall i :: 0 <= i < |more| ==> Leaves(more[i], OfLang(post), {post})
    ensures var w := Run(Next(db, OnWords(W.SetsLang(post, lang, model, ok, now))), more).w;
            && post in w.langs
            && var r := w.langs[post];
               r.ok == ok && r.model == model && r.ts == now && r.lang == if ok then lang else ""
  {
    var s := W.SetsLang(post, lang, model, ok, now);
    WordsOnly(db, s);
    StandsAsWritten(Next(db, OnWords(s)), more, OfLang(post));
  }

  /** The row of a summary as it was kept. */
  predicate IsKept(w: W.Words, x: W.SharedSummary, origin: Option<HubId>, rev: nat)
  {
    && (x.post, x.step, x.lang) in w.summaries
    && var r := w.summaries[(x.post, x.step, x.lang)];
       && r.ok && r.src == x.src && r.text == x.text && r.model == x.model && r.replies == x.replies
       && r.cites == x.cites && r.ts == x.ts && r.origin == origin && r.rev == rev
  }

  lemma KeptIsRead(db: Db, x: W.SharedSummary, origin: Option<HubId>, rev: nat, more: seq<Step>)
    requires ReplayLaws.Derived(db) && x.post in db.t.posts && x.cites.Values <= db.t.posts.Keys
    requires IsKept(db.w, x, origin, rev)
    requires forall i :: 0 <= i < |more| ==>
      Leaves(more[i], OfSummary(x.post, x.step, x.lang), {x.post} + x.cites.Values)
    ensures IsKept(Run(db, more).w, x, origin, rev)
  {
    StandsAsWritten(db, more, OfSummary(x.post, x.step, x.lang));
  }

  lemma ThreadHeld(posts: Posts, post: Id, cites: map<int, Id>)
    requires W.ThreadStands(posts, post, cites)
    ensures post in posts && cites.Values <= posts.Keys
  {
    forall x | x in cites.Values ensures x in posts { assert RootOf(posts, x, WALK_STEPS) == Some(post); }
  }

  /** A summary kept while its root and every reply it cites stand is read as it was kept, until one of them goes. */
  lemma SummaryIsRead(db: Db, x: W.SharedSummary, more: seq<Step>)
    requires ReplayLaws.Derived(db) && W.ThreadStands(db.t.posts, x.post, x.cites)
    requires x.src == W.SrcKept(db.w, x.post, x.step, x.lang)
    requires forall i :: 0 <= i < |more| ==>
      Leaves(more[i], OfSummary(x.post, x.step, x.lang), {x.post} + x.cites.Values)
    ensures var s := W.SetsSummary(x.post, x.step, x.lang, x.text, x.model, x.replies, x.cites, true, x.ts);
            IsKept(Run(Next(db, OnWords(s)), more).w, x, None, db.w.lastRev + 1)
  {
    var s := W.SetsSummary(x.post, x.step, x.lang, x.text, x.model, x.replies, x.cites, true, x.ts);
    WordsOnly(db, s);
    ThreadHeld(db.t.posts, x.post, x.cites);
    KeptIsRead(Next(db, OnWords(s)), x, None, db.w.lastRev + 1, more);
  }

  /** A summary's translation is kept only beside an original, and is read as it was kept. */
  lemma SummaryTranslationIsRead(db: Db, x: W.SharedSummary, more: seq<Step>)
    requires ReplayLaws.Derived(db) && x.post in db.t.posts && x.cites.Values <= db.t.posts.Keys
    requires x.src.Some? && W.HasOriginal(db.w, x.post, x.step)
    requires forall i :: 0 <= i < |more| ==>
      Leaves(more[i], OfSummary(x.post, x.step, x.lang), {x.post} + x.cites.Values)
    ensures var s := W.SetsSummaryTranslation(x.post, x.step, x.lang, x.src.value, x.text, x.model, x.replies, x.cites,
                                              true, x.ts);
            IsKept(Run(Next(db, OnWords(s)), more).w, x, None, db.w.lastRev + 1)
  {
    var s := W.SetsSummaryTranslation(x.post, x.step, x.lang, x.src.value, x.text, x.model, x.replies, x.cites, true,
        x.ts);
    WordsOnly(db, s);
    KeptIsRead(Next(db, OnWords(s)), x, None, db.w.lastRev + 1, more);
  }

  lemma AcceptsKept(db: Db, peer: HubId, x: W.SharedSummary)
    requires ReplayLaws.Derived(db) && x.post in db.t.posts && W.TakesSummary(db.w, true, x)
    ensures var db1 := Next(db, OnWords(W.AcceptsSummary(peer, x)));
            ReplayLaws.Derived(db1) && db1.t == db.t && IsKept(db1.w, x, Some(peer), 0)
  {
    WordsOnly(db, W.AcceptsSummary(peer, x));
  }

  /** A peer's summary that took the place of none, of a failed try or of an older one is read as the peer made it. */
  lemma AcceptedSummaryIsRead(db: Db, peer: HubId, x: W.SharedSummary, more: seq<Step>)
    requires ReplayLaws.Derived(db) && x.post in db.t.posts && x.cites.Values <= db.t.posts.Keys
    requires W.TakesSummary(db.w, true, x)
    requires forall i :: 0 <= i < |more| ==>
      Leaves(more[i], OfSummary(x.post, x.step, x.lang), {x.post} + x.cites.Values)
    ensures IsKept(Run(Next(db, OnWords(W.AcceptsSummary(peer, x))), more).w, x, Some(peer), 0)
  {
    AcceptsKept(db, peer, x);
    KeptIsRead(Next(db, OnWords(W.AcceptsSummary(peer, x))), x, Some(peer), 0, more);
  }

  // ---- which writes are made ----

  /** What a peer offers is newer than a row that is kept. */
  predicate Newer(ok: bool, held: int, ts: int) { ok ==> held < ts }

  /** When a step writes its row: the post is here; a row to set right is there; a summary is of a root
      with every reply it cites below it, its translation of an original that is kept; a peer's is
      newer than a row that is kept. */
  ghost predicate MayWrite(w: W.Words, posts: Posts, s: W.WordStep)
  {
    match s
    case SetsLang(post, _, _, _, _) => post in posts
    case SetsTranslation(post, _, _, _, _, _) => post in posts
    case AcceptsTranslation(_, x) =>
      x.post in posts && ((x.post, x.lang) in w.translations ==>
        Newer(w.translations[(x.post, x.lang)].ok, w.translations[(x.post, x.lang)].ts, x.ts))
    case RewritesTranslation(post, lang, _, _) =>
      (post, lang) in w.translations && w.translations[(post, lang)].ok
    case SetsSummary(post, _, _, _, _, _, cites, _, _) =>
      post in posts && posts[post].replyTo == None
      && forall x :: x in cites.Values ==> Threads.RootWithin(posts, x, WALK_STEPS, post)
    case SetsSummaryTranslation(post, step, _, _, _, _, _, _, _, _) =>
      post in posts && exists lang: W.Lang :: IsOriginal(w, post, step, lang)
    case AcceptsSummary(_, x) =>
      x.post in posts && ((x.post, x.step, x.lang) in w.summaries ==>
        Newer(w.summaries[(x.post, x.step, x.lang)].ok, w.summaries[(x.post, x.step, x.lang)].ts, x.ts))
    case _ => true
  }

  /** The words a row says, and those a step would have it say. */
  function WordsOf(w: W.Words, k: Said): string
    requires Stands(w, k)
  {
    match k
    case OfLang(post) => w.langs[post].lang
    case OfTranslation(post, lang) => w.translations[(post, lang)].text
    case OfSummary(post, step, lang) => w.summaries[(post, step, lang)].text
  }

  function Told(s: W.WordStep): string
  {
    match s
    case SetsLang(_, lang, _, ok, _) => if ok then lang else ""
    case SetsTranslation(_, _, text, _, ok, _) => if ok then text else ""
    case AcceptsTranslation(_, x) => x.text
    case RewritesTranslation(_, _, text, _) => text
    case SetsSummary(_, _, _, text, _, _, _, ok, _) => if ok then text else ""
    case SetsSummaryTranslation(_, _, _, _, text, _, _, _, ok, _) => if ok then text else ""
    case AcceptsSummary(_, x) => x.text
    case _ => ""
  }

  /** A summary kept that was written from the thread. */
  predicate IsOriginal(w: W.Words, post: Id, step: nat, lang: W.Lang)
  {
    && (post, step, lang) in w.summaries
    && w.summaries[(post, step, lang)].ok && w.summaries[(post, step, lang)].src == None
  }

  lemma ThreadStandsIff(posts: Posts, post: Id, cites: map<int, Id>)
    ensures W.ThreadStands(posts, post, cites) <==>
            && post in posts && posts[post].replyTo == None
            && forall x :: x in cites.Values ==> Threads.RootWithin(posts, x, WALK_STEPS, post)
  {
    Threads.RootIsAbove(posts, post, WALK_STEPS, post);
    forall x | x in cites.Values
      ensures RootOf(posts, x, WALK_STEPS) == Some(post) <==> Threads.RootWithin(posts, x, WALK_STEPS, post)
    {
      Threads.RootIsAbove(posts, x, WALK_STEPS, post);
    }
  }

  lemma HasOriginalIff(w: W.Words, post: Id, step: nat)
    ensures W.HasOriginal(w, post, step) <==> exists lang: W.Lang :: IsOriginal(w, post, step, lang)
  {
    if W.HasOriginal(w, post, step) {
      var k :| k in w.summaries && k.0 == post && k.1 == step && w.summaries[k].src.None? && w.summaries[k].ok;
      assert IsOriginal(w, post, step, k.2);
    }
    if lang: W.Lang :| IsOriginal(w, post, step, lang) {
      var k := (post, step, lang);
      assert k in w.summaries && k.0 == post && k.1 == step;
    }
  }

  /** A step that writes a row writes it exactly when it may, and else leaves it as it was. */
  lemma WrittenIffAllowed(w: W.Words, posts: Posts, s: W.WordStep, k: Said)
    requires Writes(s, k) && !s.DropsTranslations? && !s.DropsSummaries?
    ensures var w1 := W.NextWords(w, posts, s);
            if MayWrite(w, posts, s) then Stands(w1, k) && WordsOf(w1, k) == Told(s) else SameRow(w, w1, k)
  {
    if s.SetsSummary? { ThreadStandsIff(posts, s.post, s.cites); }
    if s.SetsSummaryTranslation? { HasOriginalIff(w, s.post, s.step); }
  }

  // ---- nothing is said of posts that are not here ----

  ghost predicate OfHeld(w: W.Words, held: set<Id>)
  {
    && (forall p :: p in w.langs ==> p in held) && (forall k :: k in w.translations ==> k.0 in held)
    && (forall k :: k in w.summaries ==> k.0 in held)
  }

  lemma MessageOfHeld(db: Db, id: Id, e: Envelope, now: int, origin: Option<HubId>)
    requires OfHeld(db.w, db.t.posts.Keys) && Ingest(db, id, e, now, origin).Ok?
    ensures var db1 := Ingest(db, id, e, now, origin).value.0; OfHeld(db1.w, db1.t.posts.Keys)
  {
    ReplayLaws.PostsOf(db.t, id, e, now, origin.Some?);
  }

  lemma WordStepOfHeld(w: W.Words, posts: Posts, s: W.WordStep)
    requires OfHeld(w, posts.Keys)
    ensures OfHeld(W.NextWords(w, posts, s), posts.Keys)
  {
    if s.SetsSummary? && W.ThreadStands(posts, s.post, s.cites) { ThreadHeld(posts, s.post, s.cites); }
  }

  lemma RebuildOfHeld(db: Db)
    requires ReplayLaws.Derived(db)
    ensures var db1 := Next(db, Rebuilds); OfHeld(db1.w, db1.t.posts.Keys)
  {
    ReplayLaws.RebuildKeeps(db);
    ReplayLaws.ReplayReaches(Cleared(db), db.log);
  }

  /** Over every run, what is said is said of posts that are here: with its post goes all of it. */
  lemma {:induction false} SaidOfHeld(steps: seq<Step>)
    ensures OfHeld(Run(EMPTY, steps).w, Run(EMPTY, steps).t.posts.Keys)
    decreases |steps|
  {
    if steps != [] {
      var db, s := Run(EMPTY, steps[..|steps| - 1]), steps[|steps| - 1];
      SaidOfHeld(steps[..|steps| - 1]);
      ReplayLaws.RunKeeps(steps[..|steps| - 1]);
      match s
      case Ingests(id, e, now, origin) =>
        if Ingest(db, id, e, now, origin).Ok? { MessageOfHeld(db, id, e, now, origin); }
      case Rebuilds => RebuildOfHeld(db);
      case OnWords(ws) =>
        WordsOnly(db, ws);
        WordStepOfHeld(db.w, db.t.posts, ws);
      case _ =>
    }
  }

  /** A reply deleted under a root that is found is cited by no summary of that thread. */
  lemma DeletedIsUncited(db: Db, id: Id, e: Envelope, now: int, origin: Option<HubId>, root: Id, step: nat,
                          lang: W.Lang)
    requires Ingest(db, id, e, now, origin).Ok? && e.op.PostDelete?
    requires RootOf(db.t.posts, e.op.post, WALK_STEPS) == Some(root)
    ensures var w := Ingest(db, id, e, now, origin).value.0.w;
            (root, step, lang) in w.summaries ==> e.op.post !in w.summaries[(root, step, lang)].cites.Values
  {
  }

  // ---- what is dropped is gone ----

  lemma TranslationsAreDropped(db: Db, post: Id, only: Option<W.Lang>, lang: W.Lang)
    requires only.None? || only.value == lang
    ensures (post, lang) !in Next(db, OnWords(W.DropsTranslations(post, only))).w.translations
  {
  }

  lemma {:induction false} Greatest(steps: set<nat>) returns (n: nat)
    requires steps != {}
    ensures W.IsGreatest(steps, n)
    decreases |steps|
  {
    n :| n in steps;
    var rest := steps - {n};
    if rest != {} {
      var best := Greatest(rest);
      forall m | m in steps ensures m <= if best > n then best else n { if m != n { assert m in rest; } }
      if best > n { n := best; }
    } else {
      forall m | m in steps ensures m <= n { assert m !in rest; }
    }
  }

  lemma NewestIs(w: W.Words, post: Id)
    requires W.StepsOf(w, post) != {}
    ensures W.IsGreatest(W.StepsOf(w, post), W.NewestStep(w, post))
  {
    var n := Greatest(W.StepsOf(w, post));
  }

  /** A summary of the thread no step of it is past. */
  ghost predicate OfNewest(w: W.Words, post: Id, k: (Id, nat, W.Lang))
  {
    k.0 == post && forall m :: m in W.StepsOf(w, post) ==> m <= k.1
  }

  /** Dropping a step of a thread's summaries drops it in every language, the newest when none is
      named, and nothing else. */
  lemma SummariesAreDropped(w: W.Words, post: Id, step: nat, k: (Id, nat, W.Lang))
    requires k in w.summaries
    ensures var w1 := W.DropSummaries(w, post, step);
            && (k !in w1.summaries <==> if step == 0 then OfNewest(w, post, k) else k.0 == post && k.1 == step)
            && (k in w1.summaries ==> w1.summaries[k] == w.summaries[k])
  {
    if k.0 == post {
      assert k.1 in W.StepsOf(w, post);
      NewestIs(w, post);
    }
  }

  // ---- tries ----

  function Tries(w: W.Words, k: Said): nat
  {
    if !Stands(w, k) then 0
    else
      match k
      case OfLang(post) => w.langs[post].tries
      case OfTranslation(post, lang) => w.translations[(post, lang)].tries
      case OfSummary(post, step, lang) => w.summaries[(post, step, lang)].tries
  }

  /** A try at a row by this hub. */
  predicate IsTry(s: W.WordStep, k: Said)
  {
    match s
    case SetsLang(_, _, _, _, _) => Writes(s, k)
    case SetsTranslation(_, _, _, _, _, _) => Writes(s, k)
    case SetsSummary(_, _, _, _, _, _, _, _, _) => Writes(s, k)
    case SetsSummaryTranslation(_, _, _, _, _, _, _, _, _, _) => Writes(s, k)
    case _ => false
  }

  /** A try that reaches its row counts as one more; nothing else counts, and only dropping forgets. */
  lemma TriesAreCounted(w: W.Words, posts: Posts, s: W.WordStep, k: Said)
    ensures var w1 := W.NextWords(w, posts, s);
            if IsTry(s, k) then Tries(w1, k) == Tries(w, k) + 1 || SameRow(w, w1, k)
            else Tries(w1, k) == Tries(w, k) || !Stands(w1, k)
  {
    if !Writes(s, k) { WordsLeave(w, posts, s, k); }
  }
}
