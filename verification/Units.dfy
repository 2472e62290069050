/** Token amounts as the hub prints them: raw base units with a decimal point, the fraction's
    trailing zeros trimmed, thousands separated. */
module Units {
  import Seqs

  predicate IsDigit(c: char) { '0' <= c <= '9' }
  predicate AllDigits(s: string) { forall i :: 0 <= i < |s| ==> IsDigit(s[i]) }

  // ---- decimal numbers ----

  function Decimal(n: nat): (s: string)
    ensures s != "" && AllDigits(s)
  {
    if n < 10 then ['0' + n as char] else Decimal(n / 10) + ['0' + (n % 10) as char]
  }

  /** The number a run of digits stands for, whatever zeros lead it. */
  function Value(s: string): nat
  {
    if s == "" then 0
    else Value(s[..|s| - 1]) * 10 + (if IsDigit(s[|s| - 1]) then s[|s| - 1] as int - '0' as int else 0)
  }

  lemma {:induction false} ValueOfDecimal(n: nat)
    ensures Value(Decimal(n)) == n
  {
    if n >= 10 {
      ValueOfDecimal(n / 10);
      assert Decimal(n)[..|Decimal(n)| - 1] == Decimal(n / 10);
    } else {
      assert Decimal(n)[..0] == "";
    }
  }

  lemma {:induction false} ValueOfLed(s: string)
    ensures Value("0" + s) == Value(s)
    decreases |s|
  {
    if s == "" {
      assert "0"[..0] == "";
      assert "0" + s == "0";
    } else {
      assert ("0" + s)[..|"0" + s| - 1] == "0" + s[..|s| - 1];
      ValueOfLed(s[..|s| - 1]);
    }
  }

  // ---- the parts of an amount ----

  function Zeros(n: nat): (z: string)
    ensures |z| == n
  {
    seq(n, _ => '0')
  }

  /** Zeros put in front until more than dec digits stand. */
  function Led(s: string, dec: nat): (t: string)
    ensures |t| > dec && |t| >= |s|
    ensures AllDigits(s) ==> AllDigits(t)
    decreases dec + 1 - |s|
  {
    if |s| <= dec then Led("0" + s, dec) else s
  }

  lemma {:induction false} ValueOfLedTo(s: string, dec: nat)
    ensures Value(Led(s, dec)) == Value(s)
    decreases dec + 1 - |s|
  {
    if |s| <= dec {
      ValueOfLedTo("0" + s, dec);
      ValueOfLed(s);
    }
  }

  function Trimmed(s: string): (t: string)
    ensures |t| <= |s| && t == s[..|t|] && (t != "" ==> t[|t| - 1] != '0')
  {
    if s != "" && s[|s| - 1] == '0' then Trimmed(s[..|s| - 1]) else s
  }

  /** What trimming took is zeros: refilled, the fraction is what it was. */
  lemma {:induction false} Refilled(s: string)
    ensures Trimmed(s) + Zeros(|s| - |Trimmed(s)|) == s
  {
    if s != "" && s[|s| - 1] == '0' {
      var front := s[..|s| - 1];
      Refilled(front);
      assert Zeros(|s| - |Trimmed(s)|) == Zeros(|front| - |Trimmed(front)|) + "0";
    }
  }

  /** Whether a comma stands before digit i. */
  predicate CommaBefore(s: string, i: nat)
    requires i < |s|
  {
    i > 0 && (|s| - i) % 3 == 0
  }

  /** The first n digits of s written out with their commas. */
  function Grouped(s: string, n: nat): string
    requires n <= |s|
  {
    if n == 0 then ""
    else Grouped(s, n - 1) + (if CommaBefore(s, n - 1) then "," else "") + [s[n - 1]]
  }

  function WithoutCommas(s: string): string
  {
    if s == "" then "" else WithoutCommas(s[..|s| - 1]) + (if s[|s| - 1] == ',' then "" else [s[|s| - 1]])
  }

  lemma {:induction false} WithoutCommasJoin(a: string, b: string)
    ensures WithoutCommas(a + b) == WithoutCommas(a) + WithoutCommas(b)
    decreases |b|
  {
    if b == "" {
      assert a + b == a;
    } else {
      assert (a + b)[..|a + b| - 1] == a + b[..|b| - 1];
      WithoutCommasJoin(a, b[..|b| - 1]);
    }
  }

  lemma CommaDrops(a: string, comma: bool, x: char)
    requires IsDigit(x)
    ensures WithoutCommas(a + (if comma then "," else "") + [x]) == WithoutCommas(a) + [x]
  {
    var c := if comma then "," else "";
    WithoutCommasJoin(a + c, [x]);
    WithoutCommasJoin(a, c);
    assert [x][..0] == "";
    assert ","[..0] == "";
  }

  /** Dropping the commas gives back the digits. */
  lemma {:induction false} CommasDrop(s: string, n: nat)
    requires n <= |s| && AllDigits(s)
    ensures WithoutCommas(Grouped(s, n)) == s[..n]
  {
    if n > 0 {
      CommasDrop(s, n - 1);
      CommaDrops(Grouped(s, n - 1), CommaBefore(s, n - 1), s[n - 1]);
    }
  }

  /** One to three digits, then groups of a comma and exactly three. */
  predicate InThrees(t: string)
  {
    (0 < |t| <= 3 && AllDigits(t)) ||
    (|t| >= 5 && t[|t| - 4] == ',' && AllDigits(t[|t| - 3..]) && InThrees(t[..|t| - 4]))
  }

  /** The same digits grouped, less the last group. */
  lemma {:induction false} GroupedFront(s: string, n: nat)
    requires |s| > 3 && n <= |s| - 3
    ensures Grouped(s, n) == Grouped(s[..|s| - 3], n)
  {
    if n > 0 {
      GroupedFront(s, n - 1);
      assert (|s| - (n - 1)) % 3 == (|s| - 3 - (n - 1)) % 3;
    }
  }

  lemma LastThree(s: string, k: nat)
    requires k == |s| > 3
    ensures Grouped(s, k) == Grouped(s, k - 3) + ("," + [s[k - 3], s[k - 2], s[k - 1]])
  {
    var g := Grouped(s, k - 3);
    assert CommaBefore(s, k - 3) && !CommaBefore(s, k - 2) && !CommaBefore(s, k - 1);
    assert Grouped(s, k - 2) == g + "," + [s[k - 3]];
    assert Grouped(s, k - 1) == Grouped(s, k - 2) + "" + [s[k - 2]];
    assert Grouped(s, k) == Grouped(s, k - 1) + "" + [s[k - 1]];
    FourJoined(g, s[k - 3], s[k - 2], s[k - 1]);
  }

  lemma FourJoined(g: string, x: char, y: char, z: char)
    ensures g + "," + [x] + "" + [y] + "" + [z] == g + ("," + [x, y, z])
  {
  }

  lemma Group(g: string, x: char, y: char, z: char)
    requires InThrees(g) && IsDigit(x) && IsDigit(y) && IsDigit(z)
    ensures InThrees(g + ("," + [x, y, z]))
  {
    var last := "," + [x, y, z];
    var t := g + last;
    Seqs.Parts(g, last);
    assert |last| == 4 && t[|t| - 4..] == last && t[|t| - 4] == last[0] && t[|t| - 3..] == [x, y, z];
    assert |g| >= 1;
  }

  lemma {:induction false} GroupsAreThree(s: string)
    requires s != "" && AllDigits(s)
    ensures InThrees(Grouped(s, |s|))
    decreases |s|
  {
    var k := |s|;
    if k <= 3 {
      ShortGroup(s, k);
    } else {
      var front := s[..k - 3];
      GroupsAreThree(front);
      GroupedFront(s, k - 3);
      var g := Grouped(front, k - 3);
      LastThree(s, k);
      var last := "," + [s[k - 3], s[k - 2], s[k - 1]];
      Seqs.Parts(g, last);
      Group(g, s[k - 3], s[k - 2], s[k - 1]);
    }
  }

  lemma {:induction false} ShortGroup(s: string, n: nat)
    requires n <= |s| <= 3 && AllDigits(s)
    ensures Grouped(s, n) == s[..n] && AllDigits(s[..n])
  {
    if n > 0 {
      ShortGroup(s, n - 1);
      assert s[..n] == s[..n - 1] + [s[n - 1]];
    }
  }

  // ---- the amount ----

  function Whole(raw: nat, dec: int): string
  {
    if dec > 0 then Led(Decimal(raw), dec)[..|Led(Decimal(raw), dec)| - dec] else Decimal(raw)
  }

  function Fraction(raw: nat, dec: int): string
  {
    if dec > 0 then Trimmed(Led(Decimal(raw), dec)[|Led(Decimal(raw), dec)| - dec..]) else ""
  }

  function HumanUnits(raw: nat, dec: int): string
  {
    var whole, frac := Whole(raw, dec), Fraction(raw, dec);
    Grouped(whole, |whole|) + (if frac != "" then "." + frac else "")
  }

  // ---- reading it back ----

  /** Where the decimal point stands, |t| when there is none. */
  function Point(t: string): (i: nat)
    ensures i <= |t|
  {
    if t == "" || t[0] == '.' then 0 else 1 + Point(t[1..])
  }

  /** The raw amount a printed one stands for: commas dropped, the fraction refilled, joined. */
  function Raw(t: string, dec: int): nat
  {
    var i := Point(t);
    var frac := if i < |t| then t[i + 1..] else "";
    Value(WithoutCommas(t[..i]) + frac + (if dec > |frac| then Zeros(dec - |frac|) else ""))
  }

  lemma {:induction false} PointAfter(a: string, b: string)
    requires (forall i :: 0 <= i < |a| ==> a[i] != '.') && (b == "" || b[0] == '.')
    ensures Point(a + b) == |a|
  {
    if a != "" {
      assert (a + b)[1..] == a[1..] + b;
      PointAfter(a[1..], b);
    }
  }

  lemma {:induction false} GroupedHasNoPoint(s: string, n: nat)
    requires n <= |s| && AllDigits(s)
    ensures forall i :: 0 <= i < |Grouped(s, n)| ==> Grouped(s, n)[i] != '.'
  {
    if n > 0 { GroupedHasNoPoint(s, n - 1); }
  }

  /** The parts of an amount, the fraction refilled, are its digits. */
  lemma PartsJoin(raw: nat, dec: int)
    ensures AllDigits(Whole(raw, dec)) && Whole(raw, dec) != "" && |Fraction(raw, dec)| <= (if dec > 0 then dec else 0)
    ensures Value(Whole(raw, dec) + Fraction(raw, dec) +
                  (if dec > |Fraction(raw, dec)| then Zeros(dec - |Fraction(raw, dec)|) else "")) == raw
  {
    ValueOfDecimal(raw);
    if dec > 0 {
      var s := Led(Decimal(raw), dec);
      var frac := s[|s| - dec..];
      ValueOfLedTo(Decimal(raw), dec);
      Refilled(frac);
      assert s[..|s| - dec] + frac == s;
      assert Whole(raw, dec) + Fraction(raw, dec) + Zeros(dec - |Fraction(raw, dec)|) == Whole(raw, dec) + frac;
      if |Fraction(raw, dec)| == dec { assert Whole(raw, dec) + Fraction(raw, dec) + "" == s; }
    } else {
      assert Decimal(raw) + "" + "" == Decimal(raw);
    }
  }

  lemma RawIs(t: string, g: string, frac: string, dec: int)
    requires Point(t) == |g| && t[..|g|] == g && frac == if |g| < |t| then t[|g| + 1..] else ""
    ensures Raw(t, dec) == Value(WithoutCommas(g) + frac + (if dec > |frac| then Zeros(dec - |frac|) else ""))
  {
  }

  lemma CutAtPoint(g: string, frac: string)
    ensures (g + ("." + frac))[..|g|] == g && (g + ("." + frac))[|g| + 1..] == frac
  {
  }

  /** A whole part without a point, then a fraction or none, is read as its parts. */
  lemma RawOfParts(g: string, frac: string, dec: int)
    requires forall i :: 0 <= i < |g| ==> g[i] != '.'
    ensures Raw(g + (if frac != "" then "." + frac else ""), dec) ==
            Value(WithoutCommas(g) + frac + (if dec > |frac| then Zeros(dec - |frac|) else ""))
  {
    if frac != "" {
      PointAfter(g, "." + frac);
      CutAtPoint(g, frac);
      RawIs(g + ("." + frac), g, frac, dec);
    } else {
      PointAfter(g, "");
      assert g + "" == g;
      Seqs.Whole(g);
      RawIs(g, g, "", dec);
    }
  }

  lemma ReadsParts(whole: string, frac: string, dec: int)
    requires AllDigits(whole)
    ensures Raw(Grouped(whole, |whole|) + (if frac != "" then "." + frac else ""), dec) ==
            Value(whole + frac + (if dec > |frac| then Zeros(dec - |frac|) else ""))
  {
    GroupedHasNoPoint(whole, |whole|);
    CommasDrop(whole, |whole|);
    Seqs.Whole(whole);
    RawOfParts(Grouped(whole, |whole|), frac, dec);
  }

  /** Nothing is lost: the printed amount reads back as the raw one. */
  lemma ReadsBack(raw: nat, dec: int)
    ensures Raw(HumanUnits(raw, dec), dec) == raw
  {
    PartsJoin(raw, dec);
    ReadsParts(Whole(raw, dec), Fraction(raw, dec), dec);
  }

  /** And it reads well: the whole part in groups of three, no zero ending the fraction. */
  lemma PrintsWell(raw: nat, dec: int)
    ensures var whole, frac := Whole(raw, dec), Fraction(raw, dec);
            InThrees(Grouped(whole, |whole|)) && (frac != "" ==> frac[|frac| - 1] != '0')
  {
    PartsJoin(raw, dec);
    GroupsAreThree(Whole(raw, dec));
  }

  // ---- the printer as it runs ----

  method Lead(s: string, dec: nat) returns (t: string)
    ensures t == Led(s, dec)
  {
    t := s;
    while |t| <= dec
      invariant Led(t, dec) == Led(s, dec)
      decreases dec + 1 - |t|
    {
      t := "0" + t;
    }
  }

  method Trim(s: string) returns (t: string)
    ensures t == Trimmed(s)
  {
    t := s;
    while t != "" && t[|t| - 1] == '0'
      invariant Trimmed(t) == Trimmed(s)
      decreases |t|
    {
      t := t[..|t| - 1];
    }
  }

  method Group3(s: string) returns (b: string)
    ensures b == Grouped(s, |s|)
  {
    b := "";
    for i := 0 to |s|
      invariant b == Grouped(s, i)
    {
      if i > 0 && (|s| - i) % 3 == 0 { b := b + ","; }
      b := b + [s[i]];
    }
  }

  /** The number led with zeros and cut at the point, the fraction trimmed, the whole part grouped. */
  method Print(raw: nat, dec: int) returns (t: string)
    ensures t == HumanUnits(raw, dec)
  {
    var s, frac := Decimal(raw), "";
    if dec > 0 {
      var led := Lead(s, dec);
      s := led[..|led| - dec];
      frac := Trim(led[|led| - dec..]);
    }
    assert s == Whole(raw, dec) && frac == Fraction(raw, dec);
    t := Group3(s);
    if frac != "" { t := t + ("." + frac); }
  }
}
