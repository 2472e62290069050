/** What a hub says about its posts: their languages, translations and thread summaries,
    and the revision numbers the ones it made are served by. */
module Words {
  import opened Messages
  import opened Derive

  type Lang = string

  datatype LangRow = LangRow(lang: Lang, model: string, ok: bool, tries: nat, ts: int)

  /** origin is None for a row this hub made. rev is 0 for a row that is not served. */
  datatype Translation = Translation(text: string, model: string, ok: bool, tries: nat, ts: int,
                                     origin: Option<HubId>, rev: nat)
  /** src is None for a summary written from the thread, else the language it was put from. */
  datatype Summary = Summary(src: Option<Lang>, text: string, model: string, replies: nat, cites: map<int, Id>,
                             ok: bool, tries: nat, ts: int, origin: Option<HubId>, rev: nat)

  /** lastRev is the highest number ever given, kept when its row is gone. */
  datatype Words = Words(langs: map<Id, LangRow>, translations: map<(Id, Lang), Translation>,
                         summaries: map<(Id, nat, Lang), Summary>, lastRev: nat)

  const EMPTY_WORDS := Words(map[], map[], map[], 0)

  /** A translation as one hub serves it to another. */
  datatype SharedTranslation = SharedTranslation(post: Id, lang: Lang, text: string, model: string, ts: int)
  datatype SharedSummary = SharedSummary(post: Id, step: nat, lang: Lang, src: Option<Lang>, text: string,
                                         model: string, replies: nat, cites: map<int, Id>, ts: int)

  // ---- languages ----

  function SetLang(w: Words, held: bool, post: Id, lang: Lang, model: string, ok: bool, now: int): Words
  {
    if !held then w
    else
      var tries := if post in w.langs then w.langs[post].tries + 1 else 1;
      w.(langs := w.langs[post := LangRow(if ok then lang else "", model, ok, tries, now)])
  }

  // ---- translations ----

  /** An answer kept, under the next number, or one more that was none. A post that is not
      here gets no row, though the number is spent. */
  function SetTranslation(w: Words, held: bool, post: Id, lang: Lang, text: string, model: string, ok: bool,
      now: int): Words
  {
    var rev := if ok then w.lastRev + 1 else 0;
    var w1 := if ok then w.(lastRev := rev) else w;
    if !held then w1
    else
      var tries := if (post, lang) in w.translations then w.translations[(post, lang)].tries + 1 else 1;
      w1.(translations := w.translations[(post, lang) :=
            Translation(if ok then text else "", model, ok, tries, now, None, rev)])
  }

  /** A peer's translation takes the place of none, of a failed try, or of an older one. */
  predicate TakesTranslation(w: Words, held: bool, x: SharedTranslation)
  {
    held && ((x.post, x.lang) in w.translations ==>
               var r := w.translations[(x.post, x.lang)]; !r.ok || r.ts < x.ts)
  }

  function AcceptTranslation(w: Words, held: bool, peer: HubId, x: SharedTranslation): Words
  {
    if !TakesTranslation(w, held, x) then w
    else
      var tries := if (x.post, x.lang) in w.translations then w.translations[(x.post, x.lang)].tries else 0;
      w.(translations := w.translations[(x.post, x.lang) :=
          Translation(x.text, x.model, true, tries, x.ts, Some(peer), 0)])
  }

  /** New words for a kept translation: this hub's own is numbered and dated anew, a peer's is set right in place. */
  function RewriteTranslation(w: Words, post: Id, lang: Lang, text: string, now: int): Words
  {
    if (post, lang) !in w.translations || !w.translations[(post, lang)].ok then w
    else
      var r := w.translations[(post, lang)];
      if r.origin.Some? then w.(translations := w.translations[(post, lang) := r.(text := text)])
      else w.(translations := w.translations[(post, lang) := r.(text := text, ts := now, rev := w.lastRev + 1)],
              lastRev := w.lastRev + 1)
  }

  function DropTranslations(w: Words, post: Id, lang: Option<Lang>): Words
  {
    w.(translations := map k | k in w.translations &&
        !(k.0 == post && (lang.None? || lang.value == k.1)) :: w.translations[k])
  }

  // ---- summaries ----

  /** Whether a summary of post may be kept: it is a root, and every cited reply still stands in its thread. */
  predicate ThreadStands(posts: Posts, post: Id, cites: map<int, Id>)
  {
    RootOf(posts, post, WALK_STEPS) == Some(post) &&
    forall x :: x in cites.Values ==> RootOf(posts, x, WALK_STEPS) == Some(post)
  }

  function PutSummary(w: Words, post: Id, step: nat, lang: Lang, src: Option<Lang>, text: string, model: string,
                      replies: nat, cites: map<int, Id>, ok: bool, now: int): Words
  {
    var rev := if ok then w.lastRev + 1 else 0;
    var k := (post, step, lang);
    var tries := if k in w.summaries then w.summaries[k].tries + 1 else 1;
    w.(lastRev := if ok then rev else w.lastRev,
       summaries := w.summaries[k := Summary(src, if ok then text else "", model, replies, if ok then cites else map[],
                                             ok, tries, now, None, rev)])
  }

  /** Writing a summary from the thread over a row already there leaves the row's src as it was. */
  function SrcKept(w: Words, post: Id, step: nat, lang: Lang): Option<Lang>
  {
    if (post, step, lang) in w.summaries then w.summaries[(post, step, lang)].src else None
  }

  function SetSummary(w: Words, posts: Posts, post: Id, step: nat, lang: Lang, text: string, model: string,
                      replies: nat, cites: map<int, Id>, ok: bool, now: int): Words
  {
    if ThreadStands(posts, post, cites)
        then PutSummary(w, post, step, lang, SrcKept(w, post, step, lang), text, model, replies, cites, ok, now) else w
  }

  predicate HasOriginal(w: Words, post: Id, step: nat)
  {
    exists k :: k in w.summaries && k.0 == post && k.1 == step && w.summaries[k].src.None? && w.summaries[k].ok
  }

  function SetSummaryTranslation(w: Words, held: bool, post: Id, step: nat, lang: Lang, src: Lang, text: string,
                                 model: string, replies: nat, cites: map<int, Id>, ok: bool, now: int): Words
  {
    if held && HasOriginal(w, post, step)
    then PutSummary(w, post, step, lang, Some(src), text, model, replies, cites, ok, now) else w
  }

  predicate TakesSummary(w: Words, held: bool, x: SharedSummary)
  {
    held && ((x.post, x.step, x.lang) in w.summaries ==>
               var r := w.summaries[(x.post, x.step, x.lang)]; !r.ok || r.ts < x.ts)
  }

  function AcceptSummary(w: Words, held: bool, peer: HubId, x: SharedSummary): Words
  {
    if !TakesSummary(w, held, x) then w
    else
      var k := (x.post, x.step, x.lang);
      var tries := if k in w.summaries then w.summaries[k].tries else 0;
      w.(summaries := w.summaries[k :=
          Summary(x.src, x.text, x.model, x.replies, x.cites, true, tries, x.ts, Some(peer), 0)])
  }

  /** The steps a thread has summaries of. */
  function StepsOf(w: Words, post: Id): set<nat> { set k | k in w.summaries && k.0 == post :: k.1 }

  predicate IsGreatest(steps: set<nat>, n: nat) { n in steps && forall m :: m in steps ==> m <= n }

  /** A thread's newest step, 0 when it has none. */
  ghost function NewestStep(w: Words, post: Id): nat
  {
    if n: nat :| IsGreatest(StepsOf(w, post), n) then n else 0
  }

  ghost function DropSummaries(w: Words, post: Id, step: nat): Words
  {
    var n := if step == 0 then NewestStep(w, post) else step;
    w.(summaries := map k | k in w.summaries && !(k.0 == post && k.1 == n) :: w.summaries[k])
  }

  // ---- what goes with a post ----

  /** Everything said of a post goes with it, and the summaries of its thread that cite it. */
  function ForgetPost(w: Words, root: Option<Id>, post: Id): Words
  {
    Words(w.langs - {post},
          map k | k in w.translations && k.0 != post :: w.translations[k],
          map k | k in w.summaries && k.0 != post &&
                  !(root == Some(k.0) && post in w.summaries[k].cites.Values) :: w.summaries[k],
          w.lastRev)
  }

  function ForgetOrphans(w: Words, held: set<Id>): Words
  {
    Words(map k | k in w.langs && k in held :: w.langs[k],
          map k | k in w.translations && k.0 in held :: w.translations[k],
          map k | k in w.summaries && k.0 in held :: w.summaries[k],
          w.lastRev)
  }

  // ---- one step on the words ----

  datatype WordStep =
    | SetsLang(post: Id, lang: Lang, model: string, ok: bool, now: int)
    | SetsTranslation(post: Id, lang: Lang, text: string, model: string, ok: bool, now: int)
    | AcceptsTranslation(peer: HubId, tr: SharedTranslation)
    | RewritesTranslation(post: Id, lang: Lang, text: string, now: int)
    | DropsTranslations(post: Id, only: Option<Lang>)
    | SetsSummary(post: Id, step: nat, lang: Lang, text: string, model: string, replies: nat, cites: map<int, Id>,
        ok: bool, now: int)
    | SetsSummaryTranslation(post: Id, step: nat, lang: Lang, src: Lang, text: string, model: string, replies: nat,
                             cites: map<int, Id>, ok: bool, now: int)
    | AcceptsSummary(peer: HubId, su: SharedSummary)
    | DropsSummaries(post: Id, step: nat)

  ghost function NextWords(w: Words, posts: Posts, s: WordStep): Words
  {
    match s
    case SetsLang(post, lang, model, ok, now) => SetLang(w, post in posts, post, lang, model, ok, now)
    case SetsTranslation(post, lang, text, model, ok, now) => SetTranslation(w, post in posts, post, lang, text,
        model, ok, now)
    case AcceptsTranslation(peer, tr) => AcceptTranslation(w, tr.post in posts, peer, tr)
    case RewritesTranslation(post, lang, text, now) => RewriteTranslation(w, post, lang, text, now)
    case DropsTranslations(post, only) => DropTranslations(w, post, only)
    case SetsSummary(post, step, lang, text, model, replies, cites, ok, now) =>
      SetSummary(w, posts, post, step, lang, text, model, replies, cites, ok, now)
    case SetsSummaryTranslation(post, step, lang, src, text, model, replies, cites, ok, now) =>
      SetSummaryTranslation(w, post in posts, post, step, lang, src, text, model, replies, cites, ok, now)
    case AcceptsSummary(peer, su) => AcceptSummary(w, su.post in posts, peer, su)
    case DropsSummaries(post, step) => DropSummaries(w, post, step)
  }
}
