/** The punctuation rule for Chinese and Japanese translations. Text is a sequence of code points. */
module Punct {
  import Seqs

  // ---- code spans and links, as the pages find them ----

  predicate Latin(c: char)
  {
    '\U{C0}' <= c <= '\U{D6}' || '\U{D8}' <= c <= '\U{F6}' || '\U{F8}' <= c <= '\U{24F}'
  }

  predicate WordChar(c: char)
  {
    '0' <= c <= '9' || 'A' <= c <= 'Z' || 'a' <= c <= 'z' || c == '_'
  }

  /** What a link may hold, and what it may end with. */
  predicate UrlEnd(c: char)
  {
    WordChar(c) || Latin(c) || '#' <= c <= '&' || c == '+' || c == '-' || c == '/' || c == ';' || c == '=' || c == '@'
  }
  predicate UrlChar(c: char)
  {
    UrlEnd(c) || c == ',' || c == '.' || c == ':' || c == '?' || c == '[' || c == ']' || c == '~'
  }

  /** The greedy tail of a link: the longest run of UrlChars that ends with a UrlEnd. */
  function UrlTail(t: string): (n: nat)
    ensures n <= |t|
  {
    if t == "" || !UrlChar(t[0]) then 0
    else
      var rest := UrlTail(t[1..]);
      if rest > 0 then rest + 1 else if UrlEnd(t[0]) then 1 else 0
  }

  predicate IsTail(t: string, n: nat)
  {
    0 < n <= |t| && UrlEnd(t[n - 1]) && forall k :: 0 <= k < n ==> UrlChar(t[k])
  }

  /** The tail is a tail whenever there is one, and none is longer. */
  lemma {:induction false} UrlTailIsLongest(t: string)
    ensures UrlTail(t) > 0 ==> IsTail(t, UrlTail(t))
    ensures forall n: nat :: IsTail(t, n) ==> n <= UrlTail(t)
  {
    if t != "" && UrlChar(t[0]) {
      UrlTailIsLongest(t[1..]);
      forall n: nat | IsTail(t, n)
        ensures n <= UrlTail(t)
      {
        if n > 1 {
          assert t[1..][n - 2] == t[n - 1];
          assert IsTail(t[1..], n - 1);
        }
      }
      if UrlTail(t[1..]) > 0 {
        var n := UrlTail(t);
        assert t[n - 1] == t[1..][n - 2];
        assert forall k :: 1 <= k < n ==> t[k] == t[1..][k - 1];
      }
    }
  }

  function Scheme(t: string): (n: nat)
    ensures n <= |t|
  {
    if "https://" <= t then 8 else if "http://" <= t then 7 else 0
  }

  function UrlLen(t: string): (n: nat)
    ensures n <= |t|
  {
    var s := Scheme(t);
    if s == 0 || UrlTail(t[s..]) == 0 then 0 else s + UrlTail(t[s..])
  }

  /** How far t runs before a backtick or the end of the line. */
  function CodeRun(t: string): (n: nat)
    ensures n <= |t|
  {
    if t == "" || t[0] == '`' || t[0] == '\n' then 0 else 1 + CodeRun(t[1..])
  }

  function CodeLen(t: string): (n: nat)
    ensures n <= |t|
  {
    if t == "" || t[0] != '`' then 0
    else
      var n := CodeRun(t[1..]);
      if n > 0 && n + 1 < |t| && t[n + 1] == '`' then n + 2 else 0
  }

  lemma {:induction false} CodeRunIs(t: string)
    ensures forall k :: 0 <= k < CodeRun(t) ==> t[k] != '`' && t[k] != '\n'
    ensures CodeRun(t) < |t| ==> t[CodeRun(t)] == '`' || t[CodeRun(t)] == '\n'
  {
    if t != "" && t[0] != '`' && t[0] != '\n' {
      CodeRunIs(t[1..]);
      assert forall k :: 1 <= k < CodeRun(t) ==> t[k] == t[1..][k - 1];
    }
  }

  /** Backticks around one or more characters of one line, none of them a backtick. */
  predicate IsCode(t: string, n: nat)
  {
    2 < n <= |t| && t[0] == '`' && t[n - 1] == '`' && forall k :: 0 < k < n - 1 ==> t[k] != '`' && t[k] != '\n'
  }

  /** A code span starts a text exactly when it is one, and is as long. */
  lemma CodeIsSpan(t: string, n: nat)
    ensures IsCode(t, n) <==> n > 0 && CodeLen(t) == n
  {
    if t != "" && t[0] == '`' {
      var r := CodeRun(t[1..]);
      CodeRunIs(t[1..]);
      assert forall k :: 0 < k < |t| ==> t[k] == t[1..][k - 1];
      if IsCode(t, n) {
        assert r < |t| - 1 && t[1 + r] == t[1..][r];
      }
    }
  }

  /** A matcher: the length of the match that starts a text, 0 when none does. */
  type Matcher = string -> nat

  const CODE: Matcher := t => CodeLen(t)
  const URL: Matcher := t => UrlLen(t)

  function Len(k: Matcher, t: string): (n: nat)
    ensures n <= |t|
  {
    if k(t) <= |t| then k(t) else |t|
  }

  /** How far a search goes at the start of t: over the match there, or one character. */
  function Advance(k: Matcher, t: string): (n: nat)
    requires t != ""
    ensures 0 < n <= |t|
  {
    if Len(k, t) > 0 then Len(k, t) else 1
  }

  /** Whether the character at i lies in a match, the matches found from the left, none overlapping. */
  predicate Covered(k: Matcher, t: string, i: nat)
    requires i < |t|
    decreases |t|
  {
    var n := Advance(k, t);
    if i < n then Len(k, t) > 0 else Covered(k, t[n..], i - n)
  }

  /** The match a search passes over, when there is one. */
  function First(k: Matcher, t: string): seq<string>
  {
    if Len(k, t) > 0 then [t[..Len(k, t)]] else []
  }

  /** What is covered lies in a match, and where nothing is covered no match starts. */
  lemma {:induction false} CoveredIsMatched(k: Matcher, t: string, i: nat)
    requires i < |t|
    ensures Covered(k, t, i) ==> exists p: nat :: p <= i && i < p + Len(k, t[p..])
    ensures !Covered(k, t, i) ==> Len(k, t[i..]) == 0
    decreases |t|
  {
    var n := Advance(k, t);
    assert t[0..] == t;
    if i < n {
      assert Covered(k, t, i) ==> 0 <= i < 0 + Len(k, t[0..]);
    } else {
      CoveredIsMatched(k, t[n..], i - n);
      assert t[n..][i - n..] == t[i..];
      if Covered(k, t, i) {
        var p: nat :| p <= i - n && i - n < p + Len(k, t[n..][p..]);
        assert t[n..][p..] == t[n + p..];
        assert n + p <= i < n + p + Len(k, t[n + p..]);
      }
    }
  }

  /** The matches themselves, in order. */
  function Spans(k: Matcher, t: string): seq<string>
    decreases |t|
  {
    if t == "" then [] else First(k, t) + Spans(k, t[Advance(k, t)..])
  }

  /** Which characters stand in a code span or a link. */
  function Kept(t: string): (m: seq<bool>)
    ensures |m| == |t|
  {
    seq(|t|, i requires 0 <= i < |t| => Covered(CODE, t, i) || Covered(URL, t, i))
  }

  // ---- the rule ----

  /** unicode.IsSpace. */
  predicate IsSpace(c: char)
  {
    || '\t' <= c <= '\r' || c == ' ' || '\U{2000}' <= c <= '\U{200A}'
    || c == '\U{85}' || c == '\U{A0}' || c == '\U{1680}' || c == '\U{2028}' || c == '\U{2029}' || c == '\U{202F}' ||
       c == '\U{205F}' || c == '\U{3000}'
  }

  const FULL_WIDTH_MARKS :=
      map[',' := '\U{FF0C}', ';' := '\U{FF1B}', ':' := '\U{FF1A}', '!' := '\U{FF01}', '?' := '\U{FF1F}']
  const FULL_WIDTH_JA_MARKS := map[';' := '\U{FF1B}', ':' := '\U{FF1A}', '!' := '\U{FF01}', '?' := '\U{FF1F}']

  /** A half-width mark and a full-width one. */
  predicate Half(c: char) { c == ',' || c == ';' || c == ':' || c == '!' || c == '?' }
  predicate Wide(c: char)
  {
    c == '\U{FF0C}' || c == '\U{FF1B}' || c == '\U{FF1A}' || c == '\U{FF01}' || c == '\U{FF1F}'
  }

  /** The marks and the script of a rule: the script holds none of the full-width marks. */
  datatype Rule = Rule(marks: map<char, char>, script: char -> bool)

  ghost predicate Proper(r: Rule)
  {
    (forall c :: c in r.marks ==> Half(c) && Wide(r.marks[c])) && forall c :: Wide(c) ==> !r.script(c)
  }

  predicate InScript(r: Rule, t: string, i: int) { 0 <= i < |t| && r.script(t[i]) }
  predicate FreeSpace(t: string, kept: seq<bool>, i: nat)
    requires |kept| == |t|
  {
    i < |t| && t[i] == ' ' && !kept[i]
  }

  /** The mark at i is the language's own, typed in ASCII. */
  predicate Against(r: Rule, t: string, kept: seq<bool>, i: nat)
    requires |kept| == |t| && i < |t|
  {
    || InScript(r, t, i - 1) || InScript(r, t, i + 1) || (FreeSpace(t, kept, i + 1) && InScript(r, t, i + 2))
    || ((t[i] == ',' || t[i] == ';') && i > 0 && kept[i - 1] && i + 1 < |t| && !IsSpace(t[i + 1]))
  }

  predicate Face(t: string, i: nat)
    requires i < |t|
  {
    (t[i] == ':' || t[i] == ';') && i + 1 < |t| && (t[i + 1] == ')' || t[i + 1] == '(' || t[i + 1] == '-')
  }

  predicate Turns(r: Rule, t: string, kept: seq<bool>, i: nat)
    requires |kept| == |t| && i < |t|
  {
    t[i] in r.marks && !kept[i] && Against(r, t, kept, i) && !Face(t, i)
  }

  /** The rule from i on. */
  function From(r: Rule, t: string, kept: seq<bool>, i: nat): string
    requires |kept| == |t|
    decreases |t| - i
  {
    if i >= |t| then ""
    else if !Turns(r, t, kept, i) then [t[i]] + From(r, t, kept, i + 1)
    else [r.marks[t[i]]] + From(r, t, kept, if FreeSpace(t, kept, i + 1) then i + 2 else i + 1)
  }

  function FullWidthWith(r: Rule, t: string): string { From(r, t, Kept(t), 0) }

  /** Han, and Han with the kana, as the Unicode tables have them. */
  datatype Scripts = Scripts(han: char -> bool, kana: char -> bool)

  function Chinese(s: Scripts): Rule { Rule(FULL_WIDTH_MARKS, s.han) }
  function Japanese(s: Scripts): Rule { Rule(FULL_WIDTH_JA_MARKS, c => s.han(c) || s.kana(c)) }

  function FullWidth(s: Scripts, t: string): string { FullWidthWith(Chinese(s), t) }
  function FullWidthJa(s: Scripts, t: string): string { FullWidthWith(Japanese(s), t) }

  function Tidy(s: Scripts, to: string, t: string): string
  {
    if "zh" <= to then FullWidth(s, t) else if to == "ja" then FullWidthJa(s, t) else t
  }

  /** In the tables the full-width marks belong to no script. */
  ghost predicate Common(s: Scripts)
  {
    forall c :: Wide(c) ==> !s.han(c) && !s.kana(c)
  }

  // ---- one mark changed outside every match moves no match ----

  /** t with the mark at a set wide, and the d characters after it gone. */
  function Edit(t: string, a: nat, d: nat, c: char): string
    requires a + d < |t|
  {
    t[..a] + [c] + t[a + 1 + d..]
  }

  lemma EditTail(t: string, a: nat, d: nat, c: char, n: nat)
    requires 0 < n <= a && a + d < |t|
    ensures Edit(t, a, d, c)[n..] == Edit(t[n..], a - n, d, c)
  {
  }

  /** A link's tail that ends before the edit is the tail after it. */
  lemma {:induction false} TailStays(t: string, a: nat, d: nat, c: char)
    requires a + d < |t| && !UrlChar(c) && UrlTail(t) <= a
    ensures UrlTail(Edit(t, a, d, c)) == UrlTail(t)
  {
    var t1 := Edit(t, a, d, c);
    if a > 0 && UrlChar(t[0]) {
      EditTail(t, a, d, c, 1);
      TailStays(t[1..], a - 1, d, c);
    }
  }

  lemma {:induction false} RunStays(t: string, a: nat, d: nat, c: char)
    requires a + d < |t| && c != '`' && c != '\n' && CodeRun(t) <= a
    requires t[a] != '`' && t[a] != '\n'
    ensures CodeRun(Edit(t, a, d, c)) == CodeRun(t)
  {
    if t[0] != '`' && t[0] != '\n' {
      EditTail(t, a, d, c, 1);
      RunStays(t[1..], a - 1, d, c);
    }
  }

  /** The run the edit falls in stops where it did: at a backtick, or not. */
  lemma {:induction false} RunEnds(t: string, a: nat, d: nat, c: char)
    requires a + d < |t| && c != '`' && c != '\n' && a < CodeRun(t)
    requires forall k :: a <= k <= a + d ==> t[k] != '`' && t[k] != '\n'
    ensures CodeRun(t) > a + d && CodeRun(Edit(t, a, d, c)) == CodeRun(t) - d
  {
    if a > 0 {
      EditTail(t, a, d, c, 1);
      RunEnds(t[1..], a - 1, d, c);
    } else {
      assert Edit(t, 0, d, c)[1..] == t[1 + d..];
      RunSkips(t, d + 1);
    }
  }

  lemma {:induction false} RunSkips(t: string, n: nat)
    requires n <= |t| && forall k :: 0 <= k < n ==> t[k] != '`' && t[k] != '\n'
    ensures CodeRun(t) == n + CodeRun(t[n..])
    decreases n
  {
    if n > 0 {
      RunSkips(t[1..], n - 1);
      assert t[1..][n - 1..] == t[n..];
    } else {
      assert t[0..] == t;
    }
  }

  /** A word the edit's mark is not in stands at the start only when it ends before the edit. */
  lemma PrefixStays(w: string, t: string, a: nat, d: nat, c: char)
    requires a + d < |t| && c !in w
    ensures w <= Edit(t, a, d, c) <==> w <= t && |w| <= a
  {
    var t1 := Edit(t, a, d, c);
    if a < |w| <= |t1| { assert t1[..|w|][a] == c; }
    if |w| <= a { assert t1[..|w|] == t[..|w|]; }
  }

  lemma SchemeStays(t: string, a: nat, d: nat, c: char)
    requires a + d < |t| && Wide(c)
    ensures Scheme(Edit(t, a, d, c)) == if Scheme(t) <= a then Scheme(t) else 0
  {
    PrefixStays("https://", t, a, d, c);
    PrefixStays("http://", t, a, d, c);
    if "https://" <= t { assert t[4] == 's'; }
    if "http://" <= t { assert t[4] == ':'; }
  }

  lemma UrlStays(t: string, a: nat, d: nat, c: char)
    requires a + d < |t| && Wide(c) && UrlLen(t) <= a
    ensures UrlLen(Edit(t, a, d, c)) == UrlLen(t)
  {
    SchemeStays(t, a, d, c);
    var s := Scheme(t);
    if 0 < s <= a {
      EditTail(t, a, d, c, s);
      if UrlTail(t[s..]) <= a - s { TailStays(t[s..], a - s, d, c); }
    }
  }

  lemma CodeStays(t: string, a: nat, d: nat, c: char)
    requires a + d < |t| && Wide(c) && CodeLen(t) <= a
    requires forall k :: a <= k <= a + d ==> t[k] != '`' && t[k] != '\n'
    ensures CodeLen(Edit(t, a, d, c)) == CodeLen(t)
  {
    if t[0] == '`' {
      EditTail(t, a, d, c, 1);
      if CodeRun(t[1..]) <= a - 1 { CodeBefore(t, a, d, c); } else { CodeAcross(t, a, d, c); }
    }
  }

  /** A code span whose run stops before the edit. */
  lemma CodeBefore(t: string, a: nat, d: nat, c: char)
    requires 0 < a && a + d < |t| && Wide(c) && CodeLen(t) <= a && t[0] == '`' && CodeRun(t[1..]) <= a - 1
    requires Edit(t, a, d, c)[1..] == Edit(t[1..], a - 1, d, c)
    requires forall k :: a <= k <= a + d ==> t[k] != '`' && t[k] != '\n'
    ensures CodeLen(Edit(t, a, d, c)) == CodeLen(t)
  {
    var t1, n := Edit(t, a, d, c), CodeRun(t[1..]);
    RunStays(t[1..], a - 1, d, c);
    assert n + 1 < a ==> t1[n + 1] == t[n + 1];
  }

  /** One whose run the edit falls in is none, before and after. */
  lemma CodeAcross(t: string, a: nat, d: nat, c: char)
    requires 0 < a && a + d < |t| && Wide(c) && CodeLen(t) <= a && t[0] == '`' && CodeRun(t[1..]) > a - 1
    requires Edit(t, a, d, c)[1..] == Edit(t[1..], a - 1, d, c)
    requires forall k :: a <= k <= a + d ==> t[k] != '`' && t[k] != '\n'
    ensures CodeLen(Edit(t, a, d, c)) == CodeLen(t)
  {
    var t1, n := Edit(t, a, d, c), CodeRun(t[1..]);
    RunEnds(t[1..], a - 1, d, c);
    assert n + 1 < |t| ==> t1[n + 1 - d] == t[n + 1];
  }

  /** The characters an edit takes away are in no match, and start none. */
  predicate Plain(t: string, a: nat, d: nat)
  {
    d <= 1 && a + d < |t| && t[a] != '`' && t[a] != '\n' && (d == 1 ==> t[a + 1] == ' ')
  }

  ghost predicate Loose(k: Matcher, t: string, a: nat, d: nat)
  {
    Plain(t, a, d) && !Covered(k, t, a) && (d == 1 ==> !Covered(k, t, a + 1))
  }

  /** An edit past where a match ends, or where none starts, changes no match. */
  ghost predicate Steady(k: Matcher)
  {
    forall t: string, a: nat, d: nat, c: char ::
      Plain(t, a, d) && Wide(c) && Len(k, t) <= a ==> Len(k, Edit(t, a, d, c)) == Len(k, t)
  }

  lemma BothSteady()
    ensures Steady(CODE) && Steady(URL)
  {
    forall t: string, a: nat, d: nat, c: char | Plain(t, a, d) && Wide(c) && Len(CODE, t) <= a
      ensures Len(CODE, Edit(t, a, d, c)) == Len(CODE, t)
    {
      CodeStays(t, a, d, c);
    }
    forall t: string, a: nat, d: nat, c: char | Plain(t, a, d) && Wide(c) && Len(URL, t) <= a
      ensures Len(URL, Edit(t, a, d, c)) == Len(URL, t)
    {
      UrlStays(t, a, d, c);
    }
  }

  /** Where a search stands after its first step, in the text and in the edited one. */
  lemma Onward(k: Matcher, t: string, a: nat, d: nat, c: char)
    requires Steady(k) && Loose(k, t, a, d) && Wide(c) && a > 0
    ensures var t1, n := Edit(t, a, d, c), Advance(k, t);
            && n <= a && Advance(k, t1) == n && Len(k, t1) == Len(k, t) && First(k, t1) == First(k, t)
            && t1[n..] == Edit(t[n..], a - n, d, c) && Loose(k, t[n..], a - n, d)
  {
    var t1, n := Edit(t, a, d, c), Advance(k, t);
    assert n <= a;
    EditTail(t, a, d, c, n);
    assert t1[..n] == t[..n];
  }

  lemma EditFirst(k: Matcher, t: string, d: nat, c: char)
    requires Steady(k) && Loose(k, t, 0, d) && Wide(c)
    ensures var t1 := Edit(t, 0, d, c);
            Len(k, t) == 0 && Len(k, t1) == 0 && t1[1..] == t[1 + d..] &&
                (d == 1 ==> Len(k, t[1..]) == 0 && t[1..][1..] == t[2..])
  {
    assert Edit(t, 0, d, c)[1..] == t[1 + d..];
    if d == 1 {
      assert Covered(k, t, 1) == Covered(k, t[1..], 0);
      assert t[1..][1..] == t[2..];
    }
  }

  lemma CoverFirst(k: Matcher, t: string, d: nat, c: char, i: nat)
    requires Steady(k) && Loose(k, t, 0, d) && Wide(c) && i < |t| - d
    ensures Covered(k, Edit(t, 0, d, c), i) <==> i != 0 && Covered(k, t, i + d)
  {
    EditFirst(k, t, d, c);
    var t1 := Edit(t, 0, d, c);
    if i > 0 {
      assert Covered(k, t1, i) == Covered(k, t[1 + d..], i - 1);
      assert Covered(k, t, i + d) == Covered(k, t[1..], i + d - 1);
      if d == 1 { assert Covered(k, t[1..], i) == Covered(k, t[2..], i - 1); }
    }
  }

  lemma CoverLater(k: Matcher, t: string, i: nat)
    requires t != "" && i < |t|
    ensures Covered(k, t, i) == if i < Advance(k, t) then Len(k, t) > 0
      else Covered(k, t[Advance(k, t)..], i - Advance(k, t))
  {
  }

  /** An edit where nothing matches leaves every match where it was. */
  lemma {:induction false} CoverStays(k: Matcher, t: string, a: nat, d: nat, c: char, i: nat)
    requires Steady(k) && Loose(k, t, a, d) && Wide(c) && i < |t| - d
    ensures Covered(k, Edit(t, a, d, c), i) <==> i != a && Covered(k, t, if i < a then i else i + d)
    decreases |t|
  {
    if a == 0 {
      CoverFirst(k, t, d, c, i);
    } else {
      Onward(k, t, a, d, c);
      var n := Advance(k, t);
      if i >= n { CoverStays(k, t[n..], a - n, d, c, i - n); }
      CoverOnward(k, t, Edit(t, a, d, c), t[n..], Edit(t[n..], a - n, d, c), a, d, n, i);
    }
  }

  /** Past the first step of a search, the two texts are covered as their rests are. */
  lemma CoverOnward(k: Matcher, t: string, t1: string, rest: string, rest1: string, a: nat, d: nat, n: nat, i: nat)
    requires t != "" && t1 != "" && n == Advance(k, t) == Advance(k, t1) <= a && Len(k, t1) == Len(k, t)
    requires rest == t[n..] && rest1 == t1[n..] && i < |t1| == |t| - d
    requires i >= n ==> (Covered(k, rest1, i - n) <==>
      i - n != a - n && Covered(k, rest, if i - n < a - n then i - n else i - n + d))
    ensures Covered(k, t1, i) <==> i != a && Covered(k, t, if i < a then i else i + d)
  {
    CoverLater(k, t1, i);
    CoverLater(k, t, if i < a then i else i + d);
  }

  lemma {:induction false} SpansStay(k: Matcher, t: string, a: nat, d: nat, c: char)
    requires Steady(k) && Loose(k, t, a, d) && Wide(c)
    ensures Spans(k, Edit(t, a, d, c)) == Spans(k, t)
    decreases |t|
  {
    if a > 0 {
      Onward(k, t, a, d, c);
      SpansStay(k, t[Advance(k, t)..], a - Advance(k, t), d, c);
    } else {
      EditFirst(k, t, d, c);
    }
  }

  lemma KeptStays(t: string, a: nat, d: nat, c: char)
    requires Loose(CODE, t, a, d) && Loose(URL, t, a, d) && Wide(c)
    ensures var t1 := Edit(t, a, d, c);
            forall i :: 0 <= i < |t1| ==> Kept(t1)[i] == (i != a && Kept(t)[if i < a then i else i + d])
  {
    BothSteady();
    forall i: nat | i < |t| - d
      ensures Kept(Edit(t, a, d, c))[i] == (i != a && Kept(t)[if i < a then i else i + d])
    {
      CoverStays(CODE, t, a, d, c, i);
      CoverStays(URL, t, a, d, c, i);
    }
  }

  // ---- the rule keeps every match ----

  /** What the rule keeps of the mask: nothing for a mark that turned, and for the space after it. */
  function FromMask(r: Rule, t: string, kept: seq<bool>, i: nat): (m: seq<bool>)
    requires |kept| == |t|
    ensures |m| == |From(r, t, kept, i)|
    decreases |t| - i
  {
    if i >= |t| then []
    else if !Turns(r, t, kept, i) then [kept[i]] + FromMask(r, t, kept, i + 1)
    else [false] + FromMask(r, t, kept, if FreeSpace(t, kept, i + 1) then i + 2 else i + 1)
  }

  /** The text with the rule done from i on. */
  function Done(r: Rule, t: string, i: nat): string
    requires i <= |t|
  {
    t[..i] + From(r, t, Kept(t), i)
  }

  /** A mask is kept up to i, and goes on as m. */
  ghost predicate Follows(mask: seq<bool>, kept: seq<bool>, m: seq<bool>, i: nat)
    requires i <= |kept|
  {
    && |mask| == i + |m|
    && (forall j :: 0 <= j < i ==> mask[j] == kept[j])
    && (forall j :: 0 <= j < |m| ==> mask[i + j] == m[j])
  }

  lemma FollowsEdit(mask: seq<bool>, mask1: seq<bool>, kept: seq<bool>, m: seq<bool>, i: nat, d: nat)
    requires i + 1 + d <= |kept| && Follows(mask, kept, m, i + 1 + d) && |mask1| == |mask| - d
    requires forall j :: 0 <= j < |mask1| ==> mask1[j] == (j != i && mask[if j < i then j else j + d])
    ensures Follows(mask1, kept, [false] + m, i)
  {
    forall j | 0 <= j < |m| + 1
      ensures mask1[i + j] == ([false] + m)[j]
    {
      if j > 0 { assert mask[i + 1 + d + (j - 1)] == m[j - 1]; }
    }
  }

  lemma FollowsKept(mask: seq<bool>, kept: seq<bool>, m: seq<bool>, i: nat)
    requires i < |kept| && Follows(mask, kept, m, i + 1)
    ensures Follows(mask, kept, [kept[i]] + m, i)
  {
    forall j | 0 <= j < |m| + 1
      ensures mask[i + j] == ([kept[i]] + m)[j]
    {
      if j > 0 { assert mask[i + 1 + (j - 1)] == m[j - 1]; }
    }
  }

  /** A mark that turns, and the space that goes with it, stand in no match. */
  lemma TurnIsLoose(r: Rule, t: string, u: string, i: nat, d: nat)
    requires Proper(r) && i < |t| && Turns(r, t, Kept(t), i)
    requires d == if FreeSpace(t, Kept(t), i + 1) then 1 else 0
    requires i + 1 + d <= |u| && forall j :: 0 <= j < i + 1 + d ==> u[j] == t[j] && Kept(u)[j] == Kept(t)[j]
    ensures Loose(CODE, u, i, d) && Loose(URL, u, i, d)
  {
    assert !Kept(u)[i];
    if d == 1 { assert !Kept(u)[i + 1]; }
  }

  lemma DoneIsEdit(r: Rule, t: string, i: nat, d: nat)
    requires i < |t| && Turns(r, t, Kept(t), i)
    requires d == if FreeSpace(t, Kept(t), i + 1) then 1 else 0
    ensures Done(r, t, i) == Edit(Done(r, t, i + 1 + d), i, d, r.marks[t[i]])
    ensures forall j :: 0 <= j < i + 1 + d ==> Done(r, t, i + 1 + d)[j] == t[j]
  {
  }

  lemma DoneIsSame(r: Rule, t: string, i: nat)
    requires i < |t| && !Turns(r, t, Kept(t), i)
    ensures Done(r, t, i) == Done(r, t, i + 1)
  {
    assert t[..i + 1] == t[..i] + [t[i]];
  }

  /** Code spans and links stay where they were left, all through the rule. */
  lemma {:induction false} RuleKeeps(r: Rule, t: string, i: nat)
    requires Proper(r) && i <= |t|
    ensures Follows(Kept(Done(r, t, i)), Kept(t), FromMask(r, t, Kept(t), i), i)
    ensures Spans(CODE, Done(r, t, i)) == Spans(CODE, t) && Spans(URL, Done(r, t, i)) == Spans(URL, t)
    decreases |t| - i
  {
    var kept := Kept(t);
    if i == |t| {
      assert t[..i] + "" == t;
    } else if !Turns(r, t, kept, i) {
      RuleKeeps(r, t, i + 1);
      DoneIsSame(r, t, i);
      FollowsKept(Kept(Done(r, t, i)), kept, FromMask(r, t, kept, i + 1), i);
    } else {
      var d := if FreeSpace(t, kept, i + 1) then 1 else 0;
      RuleKeeps(r, t, i + 1 + d);
      TurnKeeps(r, t, i, d);
    }
  }

  lemma TurnKeeps(r: Rule, t: string, i: nat, d: nat)
    requires Proper(r) && i < |t| && Turns(r, t, Kept(t), i)
    requires d == if FreeSpace(t, Kept(t), i + 1) then 1 else 0
    requires Follows(Kept(Done(r, t, i + 1 + d)), Kept(t), FromMask(r, t, Kept(t), i + 1 + d), i + 1 + d)
    ensures Follows(Kept(Done(r, t, i)), Kept(t), FromMask(r, t, Kept(t), i), i)
    ensures Spans(CODE, Done(r, t, i)) == Spans(CODE, Done(r, t, i + 1 + d))
    ensures Spans(URL, Done(r, t, i)) == Spans(URL, Done(r, t, i + 1 + d))
  {
    var u, c := Done(r, t, i + 1 + d), r.marks[t[i]];
    DoneIsEdit(r, t, i, d);
    TurnIsLoose(r, t, u, i, d);
    BothSteady();
    SpansStay(CODE, u, i, d, c);
    SpansStay(URL, u, i, d, c);
    KeptStays(u, i, d, c);
    FollowsEdit(Kept(u), Kept(Edit(u, i, d, c)), Kept(t), FromMask(r, t, Kept(t), i + 1 + d), i, d);
  }

  // ---- the rule is its own fixed point ----

  /** A text and its mask. */
  datatype Masked = Masked(t: string, kept: seq<bool>)

  predicate Fits(m: Masked) { |m.kept| == |m.t| }

  /** Where the rule goes on after i. */
  function After(r: Rule, m: Masked, i: nat): (n: nat)
    requires Fits(m) && i < |m.t|
    ensures n > i
  {
    if Turns(r, m.t, m.kept, i) && FreeSpace(m.t, m.kept, i + 1) then i + 2 else i + 1
  }

  /** What the rule writes for i, and its mask. */
  function Writes(r: Rule, m: Masked, i: nat): (char, bool)
    requires Fits(m) && i < |m.t|
  {
    if Turns(r, m.t, m.kept, i) then (r.marks[m.t[i]], false) else (m.t[i], m.kept[i])
  }

  /** u from p on is what the rule writes for m from i on. */
  ghost predicate Tail(r: Rule, m: Masked, u: Masked, i: nat, p: nat)
    requires Fits(m) && Fits(u)
    decreases |m.t| - i
  {
    if i >= |m.t| then p == |u.t|
    else p < |u.t| && (u.t[p], u.kept[p]) == Writes(r, m, i) && Tail(r, m, u, After(r, m, i), p + 1)
  }

  lemma WrittenStep(r: Rule, m: Masked, i: nat)
    requires Fits(m) && i < |m.t|
    ensures From(r, m.t, m.kept, i) == [Writes(r, m, i).0] + From(r, m.t, m.kept, After(r, m, i))
    ensures FromMask(r, m.t, m.kept, i) == [Writes(r, m, i).1] + FromMask(r, m.t, m.kept, After(r, m, i))
  {
  }

  lemma {:induction false} WrittenIsTail(r: Rule, m: Masked, u: Masked, i: nat, p: nat)
    requires Fits(m) && Fits(u) && p <= |u.t|
    requires u.t[p..] == From(r, m.t, m.kept, i) && u.kept[p..] == FromMask(r, m.t, m.kept, i)
    ensures Tail(r, m, u, i, p)
    decreases |m.t| - i
  {
    if i < |m.t| {
      WrittenStep(r, m, i);
      Seqs.From(u.t, p);
      Seqs.From(u.kept, p);
      Heads(u.t[p], u.t[p + 1..], Writes(r, m, i).0, From(r, m.t, m.kept, After(r, m, i)));
      Heads(u.kept[p], u.kept[p + 1..], Writes(r, m, i).1, FromMask(r, m.t, m.kept, After(r, m, i)));
      WrittenIsTail(r, m, u, After(r, m, i), p + 1);
    }
  }

  lemma Heads<T>(a: T, s: seq<T>, b: T, t: seq<T>)
    requires [a] + s == [b] + t
    ensures a == b && s == t
  {
    assert ([a] + s)[0] == a && ([b] + t)[0] == b;
    assert ([a] + s)[1..] == s && ([b] + t)[1..] == t;
  }

  /** What stands left of a place in the output: what stood there, or a mark the rule just set. */
  predicate LeftSame(m: Masked, u: Masked, i: nat, p: nat)
    requires Fits(m) && Fits(u)
  {
    if p == 0 then i == 0
    else
      && p <= |u.t|
      && (|| (0 < i <= |m.t| && u.t[p - 1] == m.t[i - 1] && u.kept[p - 1] == m.kept[i - 1])
          || (Wide(u.t[p - 1]) && !u.kept[p - 1]))
  }

  /** Two characters of the output ahead of a mark the rule left: what the rule looked at. */
  lemma Ahead(r: Rule, m: Masked, u: Masked, i: nat, p: nat)
    requires Proper(r) && Fits(m) && Fits(u) && i < |m.t| && Tail(r, m, u, i, p) && !Turns(r, m.t, m.kept, i)
    ensures p + 1 < |u.t| <==> i + 1 < |m.t|
    ensures p + 1 < |u.t| ==>
      (u.t[p + 1] == m.t[i + 1] && u.kept[p + 1] == m.kept[i + 1]) || (Half(m.t[i + 1]) && Wide(u.t[p + 1]))
    ensures p + 2 < |u.t| && u.t[p + 1] == ' ' ==> i + 2 < |m.t| && (u.t[p + 2] == m.t[i + 2] || Wide(u.t[p + 2]))
  {
    assert Tail(r, m, u, i + 1, p + 1);
    if i + 1 < |m.t| && !Turns(r, m.t, m.kept, i + 1) {
      assert Tail(r, m, u, i + 2, p + 2);
    }
  }

  /** A mark the rule left half-width it would leave again. */
  lemma LeftAgain(r: Rule, m: Masked, u: Masked, i: nat, p: nat)
    requires Proper(r) && Fits(m) && Fits(u) && i < |m.t| && LeftSame(m, u, i, p) && Tail(r, m, u, i, p)
    requires !Turns(r, m.t, m.kept, i)
    ensures p < |u.t| && u.t[p] == m.t[i] && u.kept[p] == m.kept[i] && !Turns(r, u.t, u.kept, p)
  {
    Ahead(r, m, u, i, p);
  }

  lemma StaysPut(r: Rule, u: Masked, p: nat)
    requires Fits(u) && p < |u.t| && !Turns(r, u.t, u.kept, p) && From(r, u.t, u.kept, p + 1) == u.t[p + 1..]
    ensures From(r, u.t, u.kept, p) == u.t[p..]
  {
    Seqs.From(u.t, p);
  }

  lemma {:induction false} FixedFrom(r: Rule, m: Masked, u: Masked, i: nat, p: nat)
    requires Proper(r) && Fits(m) && Fits(u) && i <= |m.t| && LeftSame(m, u, i, p) && Tail(r, m, u, i, p)
    ensures p <= |u.t| && From(r, u.t, u.kept, p) == u.t[p..]
    decreases |m.t| - i
  {
    if i < |m.t| {
      if !Turns(r, m.t, m.kept, i) { LeftAgain(r, m, u, i, p); }
      FixedFrom(r, m, u, After(r, m, i), p + 1);
      StaysPut(r, u, p);
    }
  }

  /** The code spans and links of the output are those of the input, in the same order. */
  lemma RuleKeepsSpans(r: Rule, t: string)
    requires Proper(r)
    ensures SameSpans(t, FullWidthWith(r, t))
  {
    RuleKeeps(r, t, 0);
    assert Done(r, t, 0) == FullWidthWith(r, t);
  }

  lemma RuleIsFixed(r: Rule, t: string)
    requires Proper(r)
    ensures FullWidthWith(r, FullWidthWith(r, t)) == FullWidthWith(r, t)
  {
    var u := FullWidthWith(r, t);
    RuleKeeps(r, t, 0);
    assert Done(r, t, 0) == u;
    FixedWhole(r, Masked(t, Kept(t)), Masked(u, Kept(u)));
  }

  lemma FixedWhole(r: Rule, m: Masked, u: Masked)
    requires Proper(r) && Fits(m) && Fits(u) && u.t == From(r, m.t, m.kept, 0) &&
      Follows(u.kept, m.kept, FromMask(r, m.t, m.kept, 0), 0)
    ensures From(r, u.t, u.kept, 0) == u.t
  {
    Seqs.Whole(u.t);
    Seqs.Whole(u.kept);
    assert u.kept == FromMask(r, m.t, m.kept, 0);
    WrittenIsTail(r, m, u, 0, 0);
    FixedFrom(r, m, u, 0, 0);
  }

  lemma RulesAreProper(s: Scripts)
    requires Common(s)
    ensures Proper(Chinese(s)) && Proper(Japanese(s))
  {
  }

  /** The rule for a language, run again, changes nothing. */
  lemma TidyIsFixed(s: Scripts, to: string, t: string)
    requires Common(s)
    ensures Tidy(s, to, Tidy(s, to, t)) == Tidy(s, to, t)
    ensures FullWidth(s, FullWidth(s, t)) == FullWidth(s, t)
    ensures FullWidthJa(s, FullWidthJa(s, t)) == FullWidthJa(s, t)
  {
    RulesAreProper(s);
    RuleIsFixed(Chinese(s), t);
    RuleIsFixed(Japanese(s), t);
  }

  ghost predicate SameSpans(t: string, u: string)
  {
    Spans(CODE, u) == Spans(CODE, t) && Spans(URL, u) == Spans(URL, t)
  }

  /** Whatever the language, the code spans and links of a text come through as they were, in order. */
  lemma TidyKeepsSpans(s: Scripts, to: string, t: string)
    requires Common(s)
    ensures SameSpans(t, Tidy(s, to, t))
  {
    RulesAreProper(s);
    RuleKeepsSpans(Chinese(s), t);
    RuleKeepsSpans(Japanese(s), t);
  }

  // ---- nothing but marks and the spaces after them ----

  /** The half-width mark of a full-width one; any other character is itself. */
  function HalfOf(c: char): char
  {
    if c == '\U{FF0C}' then ',' else if c == '\U{FF1B}' then ';' else if c == '\U{FF1A}' then ':'
    else if c == '\U{FF01}' then '!' else if c == '\U{FF1F}' then '?' else c
  }

  /** A text without its spaces, every mark half-width. */
  function Bare(t: string): string
  {
    if t == "" then "" else (if t[0] == ' ' then "" else [HalfOf(t[0])]) + Bare(t[1..])
  }

  lemma {:induction false} FromKeepsWords(r: Rule, t: string, kept: seq<bool>, i: nat)
    requires |kept| == |t| && i <= |t| && forall c :: c in r.marks ==>
      HalfOf(r.marks[c]) == HalfOf(c) && c != ' ' && r.marks[c] != ' '
    ensures Bare(From(r, t, kept, i)) == Bare(t[i..])
    decreases |t| - i
  {
    if i < |t| {
      assert t[i..][1..] == t[i + 1..];
      var n := if Turns(r, t, kept, i) && FreeSpace(t, kept, i + 1) then i + 2 else i + 1;
      FromKeepsWords(r, t, kept, n);
      assert From(r, t, kept, i)[1..] == From(r, t, kept, n);
      if n == i + 2 { assert t[i + 1..][1..] == t[i + 2..]; }
    }
  }

  /** The words, spaces apart, come through with nothing but their marks set wide. */
  lemma TidyKeepsWords(s: Scripts, to: string, t: string)
    ensures Bare(Tidy(s, to, t)) == Bare(t)
  {
    FromKeepsWords(Chinese(s), t, Kept(t), 0);
    FromKeepsWords(Japanese(s), t, Kept(t), 0);
    assert t[0..] == t;
  }

  /** What stands in the output for a character: itself, or a half-width mark outside every
      match set wide. */
  predicate Stands(c: char, kept: bool, c1: char)
  {
    c1 == c || (Half(c) && !kept && Wide(c1) && HalfOf(c1) == c)
  }

  /** A space outside every match, right after a mark set wide; o says where u's characters stood. */
  predicate SpaceAfterWide(t: string, kept: seq<bool>, u: string, o: seq<nat>, j: nat)
    requires |kept| == |t| && |o| == |u|
  {
    FreeSpace(t, kept, j) && exists k :: 0 <= k < |o| && o[k] == j - 1 && u[k] != t[j - 1]
  }

  /** u is t from i on with marks set wide and, of each, the one space after it gone: nothing
      else is changed, moved or lost. */
  ghost predicate Rewrites(t: string, kept: seq<bool>, i: nat, u: string, o: seq<nat>)
    requires |kept| == |t|
  {
    && |o| == |u|
    && (forall k :: 0 <= k < |o| ==> i <= o[k] < |t| && Stands(t[o[k]], kept[o[k]], u[k]))
    && (forall k, l :: 0 <= k < l < |o| ==> o[k] < o[l])
    && (forall j: nat :: i <= j < |t| ==> (j !in o <==> SpaceAfterWide(t, kept, u, o, j)))
  }

  /** The marks of a rule are wide forms of the half-width ones. */
  predicate Widens(r: Rule)
  {
    forall c :: c in r.marks ==> Half(c) && Wide(r.marks[c]) && HalfOf(r.marks[c]) == c
  }

  lemma RewritesMore(t: string, kept: seq<bool>, i: nat, c: char, n: nat, u: string, o: seq<nat>)
    requires |kept| == |t| && i < |t| && Rewrites(t, kept, n, u, o) && Stands(t[i], kept[i], c)
    requires n == if c != t[i] && FreeSpace(t, kept, i + 1) then i + 2 else i + 1
    ensures Rewrites(t, kept, i, [c] + u, [i] + o)
  {
    var u1, o1 := [c] + u, [i] + o;
    forall j: nat | i <= j < |t|
      ensures j !in o1 <==> SpaceAfterWide(t, kept, u1, o1, j)
    {
      if j == i + 1 {
        assert o1[0] == j - 1 && u1[0] == c;
      } else if j >= n && SpaceAfterWide(t, kept, u, o, j) {
        var k :| 0 <= k < |o| && o[k] == j - 1 && u[k] != t[j - 1];
        assert o1[k + 1] == j - 1 && u1[k + 1] == u[k];
      }
    }
  }

  // ---- when a mark turns ----

  /** The marks a language sets wide, and its script. */
  predicate MarkOf(to: string, c: char)
  {
    if "zh" <= to then c == ',' || c == ';' || c == ':' || c == '!' || c == '?'
    else to == "ja" && (c == ';' || c == ':' || c == '!' || c == '?')
  }

  predicate ScriptOf(s: Scripts, to: string, c: char) { s.han(c) || (!("zh" <= to) && s.kana(c)) }

  /** A character of the script stands right before i, right after it, or after the one free space there. */
  predicate Touches(s: Scripts, to: string, t: string, i: nat)
  {
    exists j: nat :: j < |t| && ScriptOf(s, to, t[j]) &&
      (j + 1 == i || j == i + 1 || (j == i + 2 && t[i + 1] == ' ' && !Kept(t)[i + 1]))
  }

  /** A comma or semicolon jammed between a code span or a link and what follows. */
  predicate Jammed(t: string, i: nat)
    requires i < |t|
  {
    (t[i] == ',' || t[i] == ';') && 0 < i < |t| - 1 && Kept(t)[i - 1] && !IsSpace(t[i + 1])
  }

  /** The output has wide, at the place of i, what the rule is for, and all else as it was. */
  ghost predicate TurnsWhere(s: Scripts, to: string, t: string, u: string, o: seq<nat>)
    requires |o| == |u| && forall k :: 0 <= k < |o| ==> o[k] < |t|
  {
    forall k :: 0 <= k < |o| ==>
      (u[k] != t[o[k]] <==>
       MarkOf(to, t[o[k]]) && !Kept(t)[o[k]] && !Face(t, o[k]) && (Touches(s, to, t, o[k]) || Jammed(t, o[k])))
  }

  /** What stands in the output is what the rule writes for its place. */
  ghost predicate WritesAll(r: Rule, t: string, kept: seq<bool>, u: string, o: seq<nat>)
    requires |kept| == |t| && |o| == |u| && forall k :: 0 <= k < |o| ==> o[k] < |t|
  {
    forall k :: 0 <= k < |o| ==> u[k] == if Turns(r, t, kept, o[k]) then r.marks[t[o[k]]] else t[o[k]]
  }

  lemma TurnsMeans(s: Scripts, to: string, r: Rule, t: string, i: nat)
    requires i < |t| && r == (if "zh" <= to then Chinese(s) else Japanese(s)) && ("zh" <= to || to == "ja")
    ensures Turns(r, t, Kept(t), i) <==>
            MarkOf(to, t[i]) && !Kept(t)[i] && !Face(t, i) && (Touches(s, to, t, i) || Jammed(t, i))
  {
    var kept := Kept(t);
    if InScript(r, t, i - 1) { assert ScriptOf(s, to, t[i - 1]) && i - 1 + 1 == i; }
    if InScript(r, t, i + 1) { assert ScriptOf(s, to, t[i + 1]); }
    if FreeSpace(t, kept, i + 1) && InScript(r, t, i + 2) { assert ScriptOf(s, to, t[i + 2]); }
  }

  lemma WritesMore(r: Rule, t: string, kept: seq<bool>, i: nat, c: char, u: string, o: seq<nat>)
    requires |kept| == |t| && |o| == |u| && i < |t| && forall k :: 0 <= k < |o| ==> o[k] < |t|
    requires WritesAll(r, t, kept, u, o) && c == if Turns(r, t, kept, i) then r.marks[t[i]] else t[i]
    ensures forall k :: 0 <= k < |[i] + o| ==> ([i] + o)[k] < |t|
    ensures WritesAll(r, t, kept, [c] + u, [i] + o)
  {
    forall k | 0 <= k < |o| + 1
      ensures ([i] + o)[k] < |t|
      ensures ([c] + u)[k] == if Turns(r, t, kept, ([i] + o)[k]) then r.marks[t[([i] + o)[k]]] else t[([i] + o)[k]]
    {
      if k > 0 { assert ([i] + o)[k] == o[k - 1] && ([c] + u)[k] == u[k - 1]; }
    }
  }

  lemma {:induction false} FromRewrites(r: Rule, t: string, kept: seq<bool>, i: nat) returns (o: seq<nat>)
    requires |kept| == |t| && i <= |t| && Widens(r)
    ensures Rewrites(t, kept, i, From(r, t, kept, i), o) && WritesAll(r, t, kept, From(r, t, kept, i), o)
    decreases |t| - i
  {
    o := [];
    if i < |t| {
      var turns := Turns(r, t, kept, i);
      var n := if turns && FreeSpace(t, kept, i + 1) then i + 2 else i + 1;
      var rest := FromRewrites(r, t, kept, n);
      var c := if turns then r.marks[t[i]] else t[i];
      assert From(r, t, kept, i) == [c] + From(r, t, kept, n);
      RewritesMore(t, kept, i, c, n, From(r, t, kept, n), rest);
      WritesMore(r, t, kept, i, c, From(r, t, kept, n), rest);
      o := [i] + rest;
    }
  }

  lemma SameRewrites(t: string) returns (o: seq<nat>)
    ensures Rewrites(t, Kept(t), 0, t, o) && forall k :: 0 <= k < |o| ==> o[k] == k
  {
    o := seq(|t|, i requires 0 <= i < |t| => i);
    forall j: nat | j < |t|
      ensures j in o && !SpaceAfterWide(t, Kept(t), t, o, j)
    {
      assert o[j] == j;
    }
  }

  lemma WritesWhere(s: Scripts, to: string, r: Rule, t: string, u: string, o: seq<nat>)
    requires r == (if "zh" <= to then Chinese(s) else Japanese(s)) && ("zh" <= to || to == "ja") && Widens(r)
    requires Rewrites(t, Kept(t), 0, u, o) && WritesAll(r, t, Kept(t), u, o)
    ensures TurnsWhere(s, to, t, u, o)
  {
    forall k | 0 <= k < |o|
      ensures u[k] != t[o[k]] <==> Turns(r, t, Kept(t), o[k])
    {
    }
    forall k | 0 <= k < |o|
      ensures u[k] != t[o[k]] <==>
              MarkOf(to, t[o[k]]) && !Kept(t)[o[k]] && !Face(t, o[k]) && (Touches(s, to, t, o[k]) || Jammed(t, o[k]))
    {
      TurnsMeans(s, to, r, t, o[k]);
    }
  }

  /** Whatever the language: every character stands in its order as it was or as a mark set wide
      outside code and links, and what goes is exactly the one free space after each such mark.
      A mark of the language is set wide exactly when, no face and outside code and links, its
      script stands against it or it is jammed. */
  lemma TidyRewrites(s: Scripts, to: string, t: string) returns (o: seq<nat>)
    ensures Rewrites(t, Kept(t), 0, Tidy(s, to, t), o) && TurnsWhere(s, to, t, Tidy(s, to, t), o)
  {
    if "zh" <= to {
      o := FromRewrites(Chinese(s), t, Kept(t), 0);
      WritesWhere(s, to, Chinese(s), t, Tidy(s, to, t), o);
    } else if to == "ja" {
      o := FromRewrites(Japanese(s), t, Kept(t), 0);
      WritesWhere(s, to, Japanese(s), t, Tidy(s, to, t), o);
    } else {
      o := SameRewrites(t);
    }
  }

  // ---- the rule as it runs ----

  /** A search from pos on goes on past what it met there. */
  lemma CoverPast(k: Matcher, text: string, pos: nat, i: nat)
    requires pos <= i < |text|
    ensures var next := pos + Advance(k, text[pos..]);
            Covered(k, text[pos..], i - pos) == if i < next then Len(k, text[pos..]) > 0
                else Covered(k, text[next..], i - next)
  {
    var n := Advance(k, text[pos..]);
    CoverLater(k, text[pos..], i - pos);
    assert text[pos..][n..] == text[pos + n..];
  }

  method KeepRange(kept: array<bool>, from: nat, to: nat)
    requires from <= to <= kept.Length
    modifies kept
    ensures forall i :: 0 <= i < kept.Length ==> kept[i] == (old(kept[i]) || from <= i < to)
  {
    for i := from to to
      invariant forall j :: 0 <= j < kept.Length ==> kept[j] == (old(kept[j]) || from <= j < i)
    {
      kept[i] := true;
    }
  }

  /** From pos on a search of the whole text is a search of what is left. */
  ghost predicate Resumes(k: Matcher, text: string, pos: nat)
  {
    pos <= |text| && forall i :: pos <= i < |text| ==> Covered(k, text, i) == Covered(k, text[pos..], i - pos)
  }

  lemma ResumesNext(k: Matcher, text: string, pos: nat)
    requires pos < |text| && Resumes(k, text, pos)
    ensures var next := pos + Advance(k, text[pos..]);
            Resumes(k, text, next) && forall i :: pos <= i < next ==> Covered(k, text, i) == (Len(k, text[pos..]) > 0)
  {
    forall i | pos <= i < |text|
      ensures var next := pos + Advance(k, text[pos..]);
              Covered(k, text, i) == if i < next then Len(k, text[pos..]) > 0 else Covered(k, text[next..], i - next)
    {
      CoverPast(k, text, pos, i);
    }
  }

  /** Every character of every match marked as kept. */
  method KeepMatches(k: Matcher, text: string, kept: array<bool>)
    requires kept.Length == |text|
    modifies kept
    ensures forall i :: 0 <= i < |text| ==> kept[i] == (old(kept[i]) || Covered(k, text, i))
  {
    var pos := 0;
    assert text[0..] == text;
    while pos < |text|
      invariant 0 <= pos <= |text| && Resumes(k, text, pos)
      invariant forall i :: 0 <= i < |text| ==> kept[i] == (old(kept[i]) || (i < pos && Covered(k, text, i)))
    {
      var n := Len(k, text[pos..]);
      ResumesNext(k, text, pos);
      if n > 0 {
        KeepRange(kept, pos, pos + n);
        pos := pos + n;
      } else {
        pos := pos + 1;
      }
    }
  }

  method FindKept(text: string) returns (kept: array<bool>)
    ensures kept.Length == |text| && kept[..] == Kept(text) && fresh(kept)
  {
    kept := new bool[|text|](_ => false);
    KeepMatches(CODE, text, kept);
    KeepMatches(URL, text, kept);
  }

  lemma RuleStep(r: Rule, t: string, kept: seq<bool>, i: nat)
    requires |kept| == |t| && i < |t|
    ensures From(r, t, kept, i) ==
            if !Turns(r, t, kept, i) then [t[i]] + From(r, t, kept, i + 1)
            else if FreeSpace(t, kept, i + 1) then [r.marks[t[i]]] + From(r, t, kept, i + 2)
            else [r.marks[t[i]]] + From(r, t, kept, i + 1)
  {
  }

  lemma Written(out: string, c: char, rest: string)
    ensures out + ([c] + rest) == out + [c] + rest
  {
  }

  /** The rule as it runs: the matches marked first, then one pass over the text. */
  method SetFullWidth(r: Rule, text: string) returns (out: string)
    ensures out == FullWidthWith(r, text)
  {
    var found := FindKept(text);
    var kept := found[..];
    out := "";
    ghost var rest := From(r, text, kept, 0);
    var i := 0;
    while i < |text|
      invariant 0 <= i <= |text|
      invariant rest == From(r, text, kept, i) && out + rest == From(r, text, kept, 0)
      decreases |text| - i
    {
      RuleStep(r, text, kept, i);
      var turns := text[i] in r.marks && !kept[i] && Against(r, text, kept, i) && !Face(text, i);
      var c := if turns then r.marks[text[i]] else text[i];
      i := if turns && FreeSpace(text, kept, i + 1) then i + 2 else i + 1;
      Written(out, c, From(r, text, kept, i));
      out, rest := out + [c], From(r, text, kept, i);
    }
  }
}
