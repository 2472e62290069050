/** A search's marks over one run of text: every stretch that holds a query word. */
module SearchMarks {
  import opened Messages

  /** A to Z lowered, and nothing else: the case SQLite's LIKE folds. */
  function FoldChar(c: char): char
  {
    if 'A' <= c <= 'Z' then c - 'A' + 'a' else c
  }

  function Fold(s: string): (f: string)
    ensures |f| == |s| && forall i :: 0 <= i < |s| ==> f[i] == FoldChar(s[i])
  {
    seq(|s|, i requires 0 <= i < |s| => FoldChar(s[i]))
  }

  predicate Occurs(low: string, w: string, at: nat)
  {
    at + |w| <= |low| && low[at..at + |w|] == w
  }

  /** A stretch from its first character to past its last. */
  type Run = (nat, nat)

  // ---- the runs found ----

  /** Every occurrence of w from `at` on, overlapping ones included. */
  function Found(low: string, w: string, at: nat): seq<Run>
    requires at <= |low| + 1
    decreases |low| + 1 - at
  {
    if at > |low| then []
    else (if Occurs(low, w, at) then [(at, at + |w|)] else []) + Found(low, w, at + 1)
  }

  function AllFound(low: string, words: seq<string>): seq<Run>
  {
    if words == [] then [] else AllFound(low, words[..|words| - 1]) + Found(low, words[|words| - 1], 0)
  }

  lemma {:induction false} FoundIs(low: string, w: string, at: nat, r: Run)
    requires at <= |low| + 1
    ensures r in Found(low, w, at) <==> at <= r.0 && Occurs(low, w, r.0) && r.1 == r.0 + |w|
    decreases |low| + 1 - at
  {
    if at <= |low| { FoundIs(low, w, at + 1, r); }
  }

  ghost predicate IsHit(low: string, words: seq<string>, r: Run)
  {
    exists w :: w in words && Occurs(low, w, r.0) && r.1 == r.0 + |w|
  }

  lemma {:induction false} AllFoundIs(low: string, words: seq<string>, r: Run)
    ensures r in AllFound(low, words) <==> IsHit(low, words, r)
  {
    if words != [] {
      var front, last := words[..|words| - 1], words[|words| - 1];
      AllFoundIs(low, front, r);
      FoundIs(low, last, 0, r);
      assert words == front + [last];
    }
  }

  // ---- sorted ----

  predicate Before(x: Run, y: Run) { x.0 < y.0 || (x.0 == y.0 && x.1 <= y.1) }
  predicate InOrder(rs: seq<Run>) { forall i, j :: 0 <= i < j < |rs| ==> Before(rs[i], rs[j]) }

  function Insert(r: Run, rs: seq<Run>): seq<Run>
  {
    if rs == [] || Before(r, rs[0]) then [r] + rs else [rs[0]] + Insert(r, rs[1..])
  }

  function Sorted(rs: seq<Run>): seq<Run>
  {
    if rs == [] then [] else Insert(rs[0], Sorted(rs[1..]))
  }

  lemma {:induction false} Inserted(r: Run, rs: seq<Run>)
    requires InOrder(rs)
    ensures InOrder(Insert(r, rs)) && multiset(Insert(r, rs)) == multiset(rs) + multiset{r}
  {
    if rs != [] && !Before(r, rs[0]) {
      Inserted(r, rs[1..]);
      assert rs == [rs[0]] + rs[1..];
      var rest := Insert(r, rs[1..]);
      forall i | 0 <= i < |rest|
        ensures Before(rs[0], rest[i])
      {
        assert rest[i] in multiset(rest);
        if rest[i] != r { assert rest[i] in rs[1..]; }
      }
    }
  }

  lemma {:induction false} SortedIs(rs: seq<Run>)
    ensures InOrder(Sorted(rs)) && multiset(Sorted(rs)) == multiset(rs)
  {
    if rs != [] {
      SortedIs(rs[1..]);
      Inserted(rs[0], Sorted(rs[1..]));
      assert rs == [rs[0]] + rs[1..];
    }
  }

  // ---- joined ----

  function Max(x: nat, y: nat): nat { if x >= y then x else y }

  /** Stretches that touch or overlap joined into one. */
  function Joined(rs: seq<Run>, from: nat, to: nat): seq<Run>
  {
    if rs == [] then [(from, to)]
    else if rs[0].0 <= to then Joined(rs[1..], from, Max(to, rs[0].1))
    else [(from, to)] + Joined(rs[1..], rs[0].0, rs[0].1)
  }

  predicate Inside(i: nat, r: Run) { r.0 <= i < r.1 }
  predicate InSome(i: nat, rs: seq<Run>) { exists k :: 0 <= k < |rs| && Inside(i, rs[k]) }

  /** Disjoint, in order, never touching, none empty. */
  predicate Apart(rs: seq<Run>)
  {
    && (forall k :: 0 <= k < |rs| ==> rs[k].0 < rs[k].1)
    && (forall k :: 0 <= k < |rs| - 1 ==> rs[k].1 < rs[k + 1].0)
  }

  /** Runs that may follow from. */
  predicate Follow(rs: seq<Run>, from: nat)
  {
    InOrder(rs) && forall k :: 0 <= k < |rs| ==> from <= rs[k].0 < rs[k].1
  }

  lemma InSomeSplit(i: nat, r: Run, rs: seq<Run>)
    ensures InSome(i, [r] + rs) <==> Inside(i, r) || InSome(i, rs)
  {
    if Inside(i, r) { assert Inside(i, ([r] + rs)[0]); }
    if k :| 0 <= k < |rs| && Inside(i, rs[k]) { assert Inside(i, ([r] + rs)[k + 1]); }
  }

  lemma FollowTail(rs: seq<Run>, from: nat)
    requires Follow(rs, from) && rs != []
    ensures Follow(rs[1..], from) && Follow(rs[1..], rs[0].0)
  {
    assert forall k :: 0 <= k < |rs[1..]| ==> rs[1..][k] == rs[k + 1] && Before(rs[0], rs[k + 1]);
  }

  /** Joining leaves stretches apart. */
  lemma {:induction false} JoinedApart(rs: seq<Run>, from: nat, to: nat)
    requires from < to && Follow(rs, from)
    ensures var js := Joined(rs, from, to); Apart(js) && js != [] && js[0].0 == from && js[0].1 >= to
  {
    if rs != [] {
      FollowTail(rs, from);
      if rs[0].0 <= to {
        JoinedApart(rs[1..], from, Max(to, rs[0].1));
      } else {
        JoinedApart(rs[1..], rs[0].0, rs[0].1);
      }
    }
  }

  /** Joining covers what was covered. */
  lemma {:induction false} JoinedCovers(rs: seq<Run>, from: nat, to: nat, i: nat)
    requires from < to && Follow(rs, from)
    ensures InSome(i, Joined(rs, from, to)) <==> Inside(i, (from, to)) || InSome(i, rs)
  {
    if rs == [] {
      assert InSome(i, [(from, to)]) <==> Inside(i, [(from, to)][0]);
    } else {
      FollowTail(rs, from);
      assert rs == [rs[0]] + rs[1..];
      InSomeSplit(i, rs[0], rs[1..]);
      if rs[0].0 <= to {
        JoinedCovers(rs[1..], from, Max(to, rs[0].1), i);
      } else {
        JoinedCovers(rs[1..], rs[0].0, rs[0].1, i);
        InSomeSplit(i, (from, to), Joined(rs[1..], rs[0].0, rs[0].1));
      }
    }
  }

  lemma {:induction false} JoinedEnds(rs: seq<Run>, from: nat, to: nat, end: nat)
    requires from < to <= end && forall k :: 0 <= k < |rs| ==> rs[k].0 < rs[k].1 <= end
    ensures forall k :: 0 <= k < |Joined(rs, from, to)| ==> Joined(rs, from, to)[k].1 <= end
  {
    if rs != [] {
      if rs[0].0 <= to {
        JoinedEnds(rs[1..], from, Max(to, rs[0].1), end);
      } else {
        JoinedEnds(rs[1..], rs[0].0, rs[0].1, end);
      }
    }
  }

  /** The marks of a text: its hits sorted and joined. */
  function Marks(text: string, words: seq<string>): seq<Run>
  {
    var rs := Sorted(AllFound(Fold(text), words));
    if rs == [] then [] else Joined(rs[1..], rs[0].0, rs[0].1)
  }

  predicate NonEmpty(words: seq<string>) { forall k :: 0 <= k < |words| ==> words[k] != "" }

  /** i lies in an occurrence of a query word. */
  ghost predicate InHit(text: string, words: seq<string>, i: nat)
  {
    exists r: Run :: Inside(i, r) && IsHit(Fold(text), words, r)
  }

  lemma HitsAreRuns(text: string, words: seq<string>)
    requires NonEmpty(words)
    ensures var rs := Sorted(AllFound(Fold(text), words));
            && InOrder(rs) && (forall k :: 0 <= k < |rs| ==>
               rs[k].0 < rs[k].1 <= |text| && IsHit(Fold(text), words, rs[k]))
            && (forall r :: IsHit(Fold(text), words, r) ==> r in rs)
  {
    var low := Fold(text);
    var found := AllFound(low, words);
    var rs := Sorted(found);
    SortedIs(found);
    forall k | 0 <= k < |rs|
      ensures rs[k].0 < rs[k].1 <= |text| && IsHit(low, words, rs[k])
    {
      assert rs[k] in multiset(rs);
      assert rs[k] in found;
      AllFoundIs(low, words, rs[k]);
    }
    forall r: Run | IsHit(low, words, r)
      ensures r in rs
    {
      AllFoundIs(low, words, r);
      assert r in multiset(found);
    }
  }

  /** Marks are apart, within the text, and a character lies in one exactly when it lies in a hit. */
  lemma MarksAreHits(text: string, words: seq<string>, i: nat)
    requires NonEmpty(words)
    ensures var ms := Marks(text, words);
            && Apart(ms) && (forall k :: 0 <= k < |ms| ==> ms[k].1 <= |text|)
            && (InSome(i, ms) <==> InHit(text, words, i))
  {
    HitsAreRuns(text, words);
    var rs := Sorted(AllFound(Fold(text), words));
    if rs != [] {
      assert Follow(rs, rs[0].0);
      FollowTail(rs, rs[0].0);
      JoinedApart(rs[1..], rs[0].0, rs[0].1);
      JoinedCovers(rs[1..], rs[0].0, rs[0].1, i);
      JoinedEnds(rs[1..], rs[0].0, rs[0].1, |text|);
      assert rs == [rs[0]] + rs[1..];
      InSomeSplit(i, rs[0], rs[1..]);
    }
    InSomeIsHit(text, words, rs, i);
  }

  lemma InSomeIsHit(text: string, words: seq<string>, rs: seq<Run>, i: nat)
    requires forall k :: 0 <= k < |rs| ==> IsHit(Fold(text), words, rs[k])
    requires forall r :: IsHit(Fold(text), words, r) ==> r in rs
    ensures InSome(i, rs) <==> InHit(text, words, i)
  {
    if r: Run :| Inside(i, r) && IsHit(Fold(text), words, r) {
      assert r in rs;
      var k :| 0 <= k < |rs| && rs[k] == r;
    }
  }

  // ---- what is written ----

  datatype Piece = Plain(text: string) | Marked(text: string)

  /** The text from `at` on, cut at its marks. */
  function Cut(text: string, marks: seq<Run>, at: nat): seq<Piece>
    requires at <= |text| && Fits(text, marks, at)
  {
    if marks == [] then [Plain(text[at..])]
    else [Plain(text[at..marks[0].0]), Marked(text[marks[0].0..marks[0].1])] + Cut(text, marks[1..], marks[0].1)
  }

  predicate Fits(text: string, marks: seq<Run>, at: nat)
  {
    Apart(marks) && (forall k :: 0 <= k < |marks| ==> marks[k].1 <= |text|) && (marks != [] ==> at <= marks[0].0)
  }

  /** The text the pieces show, the mark tags dropped. */
  function Shown(ps: seq<Piece>): string
  {
    if ps == [] then "" else ps[0].text + Shown(ps[1..])
  }

  /** Whether the character at i is shown inside a mark. */
  predicate MarkedAt(ps: seq<Piece>, i: nat)
  {
    ps != [] && if i < |ps[0].text| then ps[0].Marked? else MarkedAt(ps[1..], i - |ps[0].text|)
  }

  lemma ThreeParts(s: string, a: nat, b: nat, c: nat)
    requires a <= b <= c <= |s|
    ensures s[a..b] + (s[b..c] + s[c..]) == s[a..]
  {
  }

  lemma {:induction false} CutShows(text: string, marks: seq<Run>, at: nat)
    requires at <= |text| && Fits(text, marks, at)
    ensures Shown(Cut(text, marks, at)) == text[at..]
    decreases |marks|
  {
    if marks == [] {
      assert [Plain(text[at..])][1..] == [];
      assert text[at..] + "" == text[at..];
    } else {
      var m := marks[0];
      var rest := Cut(text, marks[1..], m.1);
      CutShows(text, marks[1..], m.1);
      var ps := [Plain(text[at..m.0]), Marked(text[m.0..m.1])] + rest;
      assert ps[1..][1..] == rest;
      ThreeParts(text, at, m.0, m.1);
    }
  }

  lemma {:induction false} CutMarks(text: string, marks: seq<Run>, at: nat, i: nat)
    requires at <= i < |text| && Fits(text, marks, at)
    ensures MarkedAt(Cut(text, marks, at), i - at) <==> InSome(i, marks)
    decreases |marks|
  {
    if marks != [] {
      var m := marks[0];
      var rest := Cut(text, marks[1..], m.1);
      var ps := [Plain(text[at..m.0]), Marked(text[m.0..m.1])] + rest;
      assert ps[1..][1..] == rest;
      assert marks == [m] + marks[1..];
      InSomeSplit(i, m, marks[1..]);
      if i >= m.1 {
        CutMarks(text, marks[1..], m.1, i);
      } else {
        LaterMarks(marks, i);
      }
    }
  }

  /** A character before the end of the first mark lies in no later one. */
  lemma {:induction false} LaterMarks(marks: seq<Run>, i: nat)
    requires marks != [] && Apart(marks) && i < marks[0].1
    ensures !InSome(i, marks[1..])
    decreases |marks|
  {
    if |marks| > 1 {
      LaterMarks(marks[1..], i);
      assert marks[1..] == [marks[1]] + marks[1..][1..];
      InSomeSplit(i, marks[1], marks[1..][1..]);
    }
  }

  function Written(text: string, words: seq<string>): seq<Piece>
    requires NonEmpty(words)
  {
    MarksAreHits(text, words, 0);
    Cut(text, Marks(text, words), 0)
  }

  /** A character reads as a word's: the same, or the capital of it. */
  predicate ReadsAs(c: char, w: char)
  {
    if 'A' <= c <= 'Z' then 'a' <= w <= 'z' && w as int - 'a' as int == c as int - 'A' as int else w == c
  }

  /** Some word stands there, letter for letter, over i. */
  ghost predicate WordOver(text: string, words: seq<string>, i: nat)
  {
    exists w, at: nat :: w in words && StandsAt(text, w, at) && at <= i < at + |w|
  }

  predicate StandsAt(text: string, w: string, at: nat)
  {
    at + |w| <= |text| && forall k :: 0 <= k < |w| ==> ReadsAs(text[at + k], w[k])
  }

  lemma StandsIsOccurs(text: string, w: string, at: nat)
    ensures StandsAt(text, w, at) <==> Occurs(Fold(text), w, at)
  {
    if at + |w| <= |text| {
      var low := Fold(text);
      var cut := low[at..at + |w|];
      assert forall k :: 0 <= k < |w| ==> cut[k] == FoldChar(text[at + k]);
      assert forall c, d :: ReadsAs(c, d) <==> FoldChar(c) == d;
    }
  }

  lemma WordOverIsHit(text: string, words: seq<string>, i: nat)
    ensures InHit(text, words, i) <==> WordOver(text, words, i)
  {
    if InHit(text, words, i) {
      var r: Run :| Inside(i, r) && IsHit(Fold(text), words, r);
      var w :| w in words && Occurs(Fold(text), w, r.0) && r.1 == r.0 + |w|;
      StandsIsOccurs(text, w, r.0);
    }
    if WordOver(text, words, i) {
      var w, at: nat :| w in words && StandsAt(text, w, at) && at <= i < at + |w|;
      StandsIsOccurs(text, w, at);
      assert IsHit(Fold(text), words, (at, at + |w|)) && Inside(i, (at, at + |w|));
    }
  }

  /** Dropping the mark tags gives back the text, and a character stands in a mark exactly when it
      stands in an occurrence of some query word, capitals read as small. */
  lemma WrittenIsRight(text: string, words: seq<string>)
    requires NonEmpty(words)
    ensures Shown(Written(text, words)) == text
    ensures forall i: nat :: i < |text| ==> (MarkedAt(Written(text, words), i) <==> WordOver(text, words, i))
  {
    MarksAreHits(text, words, 0);
    CutShows(text, Marks(text, words), 0);
    forall i: nat | i < |text|
      ensures MarkedAt(Written(text, words), i) <==> WordOver(text, words, i)
    {
      WordOverIsHit(text, words, i);
      MarksAreHits(text, words, i);
      CutMarks(text, Marks(text, words), 0, i);
    }
  }

  // ---- the text as it is written ----

  /** Where w next occurs, from `at` on. */
  function Index(low: string, w: string, at: nat): (i: Option<nat>)
    requires at <= |low| + 1
    ensures i.Some? ==> at <= i.value <= |low|
    decreases |low| + 1 - at
  {
    if at > |low| then None else if Occurs(low, w, at) then Some(at) else Index(low, w, at + 1)
  }

  lemma {:induction false} IndexIsNext(low: string, w: string, at: nat)
    requires at <= |low| + 1
    ensures Found(low, w, at) == match Index(low, w, at)
                                 case None => []
                                 case Some(k) => [(k, k + |w|)] + Found(low, w, k + 1)
    decreases |low| + 1 - at
  {
    if at <= |low| && !Occurs(low, w, at) {
      IndexIsNext(low, w, at + 1);
      assert [] + Found(low, w, at + 1) == Found(low, w, at + 1);
    }
  }

  method FindWord(low: string, w: string) returns (runs: seq<Run>)
    ensures runs == Found(low, w, 0)
  {
    runs := [];
    var at := 0;
    ghost var left := Found(low, w, 0);
    while true
      invariant at <= |low| + 1 && left == Found(low, w, at) && runs + left == Found(low, w, 0)
      decreases |low| + 1 - at
    {
      IndexIsNext(low, w, at);
      var i := Index(low, w, at);
      if i.None? { break; }
      at := i.value;
      ghost var rest := Found(low, w, at + 1);
      assert runs + ([(at, at + |w|)] + rest) == runs + [(at, at + |w|)] + rest;
      runs, left := runs + [(at, at + |w|)], rest;
      at := at + 1;
    }
  }

  method FindRuns(low: string, words: seq<string>) returns (runs: seq<Run>)
    ensures runs == AllFound(low, words)
  {
    runs := [];
    for k := 0 to |words|
      invariant runs == AllFound(low, words[..k])
    {
      assert words[..k + 1][..k] == words[..k];
      var more := FindWord(low, words[k]);
      runs := runs + more;
    }
    assert words[..|words|] == words;
  }

  /** What is still to come of the merge: the pieces of the stretch in hand and the runs left. */
  ghost predicate ToCome(text: string, rs: seq<Run>, at: nat, from: nat, to: nat)
  {
    && at <= from < to <= |text| && Follow(rs, from) && forall k :: 0 <= k < |rs| ==> rs[k].1 <= |text|
  }

  lemma ToComeFits(text: string, rs: seq<Run>, at: nat, from: nat, to: nat)
    requires ToCome(text, rs, at, from, to)
    ensures Fits(text, Joined(rs, from, to), at)
  {
    JoinedApart(rs, from, to);
    JoinedEnds(rs, from, to, |text|);
  }

  lemma MergeStep(text: string, rs: seq<Run>, at: nat, from: nat, to: nat)
    requires ToCome(text, rs, at, from, to) && rs != []
    ensures Fits(text, Joined(rs, from, to), at)
    ensures if rs[0].0 <= to then
              ToCome(text, rs[1..], at, from, Max(to, rs[0].1)) &&
              Fits(text, Joined(rs[1..], from, Max(to, rs[0].1)), at) &&
                  Joined(rs, from, to) == Joined(rs[1..], from, Max(to, rs[0].1))
            else
              && ToCome(text, rs[1..], to, rs[0].0, rs[0].1) && Fits(text, Joined(rs[1..], rs[0].0, rs[0].1), to)
              && Cut(text, Joined(rs, from, to), at) ==
                 [Plain(text[at..from]), Marked(text[from..to])] + Cut(text, Joined(rs[1..], rs[0].0, rs[0].1), to)
  {
    ToComeFits(text, rs, at, from, to);
    FollowTail(rs, from);
    if rs[0].0 > to {
      ToComeFits(text, rs[1..], to, rs[0].0, rs[0].1);
      assert Joined(rs, from, to)[1..] == Joined(rs[1..], rs[0].0, rs[0].1);
    }
  }

  /** One text node written: its runs found, sorted, and joined as they are written out. */
  method WriteMarked(text: string, words: seq<string>) returns (out: seq<Piece>)
    requires NonEmpty(words)
    ensures out == Written(text, words)
  {
    var found := FindRuns(Fold(text), words);
    if found == [] {
      assert text[0..] == text;
      return [Plain(text)];
    }
    var runs := Sorted(found);
    HitsAreRuns(text, words);
    SortedIs(found);
    assert |multiset(runs)| == |multiset(found)| > 0;
    out := Merge(text, runs);
  }

  method Merge(text: string, runs: seq<Run>) returns (out: seq<Piece>)
    requires runs != [] && InOrder(runs) && forall k :: 0 <= k < |runs| ==> runs[k].0 < runs[k].1 <= |text|
    ensures Fits(text, Joined(runs[1..], runs[0].0, runs[0].1), 0)
    ensures out == Cut(text, Joined(runs[1..], runs[0].0, runs[0].1), 0)
  {
    var at: nat, from: nat, to: nat := 0, runs[0].0, runs[0].1;
    out := [];
    FollowTail(runs, runs[0].0);
    ToComeFits(text, runs[1..], at, from, to);
    ghost var left := Cut(text, Joined(runs[1..], from, to), 0);
    for k := 1 to |runs|
      invariant ToCome(text, runs[k..], at, from, to) && Fits(text, Joined(runs[k..], from, to), at)
      invariant left == Cut(text, Joined(runs[k..], from, to), at)
      invariant out + left == Cut(text, Joined(runs[1..], runs[0].0, runs[0].1), 0)
    {
      MergeStep(text, runs[k..], at, from, to);
      assert runs[k..][1..] == runs[k + 1..] && runs[k..][0] == runs[k];
      var r := runs[k];
      if r.0 <= to {
        to := Max(to, r.1);
      } else {
        var two := [Plain(text[at..from]), Marked(text[from..to])];
        left := WrittenOut(out, two, Cut(text, Joined(runs[k + 1..], r.0, r.1), to));
        out := out + two;
        at, from, to := to, r.0, r.1;
      }
    }
    assert runs[|runs|..] == [];
    out := out + [Plain(text[at..from]), Marked(text[from..to])] + [Plain(text[to..])];
  }

  lemma WrittenOut(out: seq<Piece>, two: seq<Piece>, rest: seq<Piece>) returns (left: seq<Piece>)
    ensures left == rest && out + (two + rest) == out + two + rest
  {
    left := rest;
  }
}
