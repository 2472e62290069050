/** Base58 as the gate prints a public key, and the decoder that reads it back. */
module Base58 {
  import opened Seqs

  type Byte = x: nat | x < 256
  type Digit = x: nat | x < 58

  /** The alphabet: 1 to 9, the capitals without I and O, the small letters without l. */
  function CharOf(d: Digit): (c: char)
    ensures IndexOf(c) == d
  {
    if d < 9 then '1' + d as char
    else if d < 17 then 'A' + (d - 9) as char
    else if d < 22 then 'J' + (d - 17) as char
    else if d < 33 then 'P' + (d - 22) as char
    else if d < 44 then 'a' + (d - 33) as char
    else 'm' + (d - 44) as char
  }

  /** A character's place in the alphabet, -1 for one that is not in it. */
  function IndexOf(c: char): int
  {
    if '1' <= c <= '9' then c as int - '1' as int
    else if 'A' <= c <= 'H' then c as int - 'A' as int + 9
    else if 'J' <= c <= 'N' then c as int - 'J' as int + 17
    else if 'P' <= c <= 'Z' then c as int - 'P' as int + 22
    else if 'a' <= c <= 'k' then c as int - 'a' as int + 33
    else if 'm' <= c <= 'z' then c as int - 'm' as int + 44
    else -1
  }

  lemma OnlyChar(c: char)
    requires IndexOf(c) >= 0
    ensures IndexOf(c) < 58 && CharOf(IndexOf(c)) == c
  {
  }

  predicate InAlphabet(s: string) { forall i :: 0 <= i < |s| ==> IndexOf(s[i]) >= 0 }

  // ---- a number in a base ----

  datatype Base = B58 | B256

  function Size(b: Base): nat { if b.B58? then 58 else 256 }
  function Quot(n: nat, b: Base): (q: nat)
    ensures n > 0 ==> q < n
  {
    if b.B58? then n / 58 else n / 256
  }
  function Rem(n: nat, b: Base): (r: nat)
    ensures r < Size(b)
  {
    if b.B58? then n % 58 else n % 256
  }
  function Shift(n: nat, b: Base, d: nat): nat { if b.B58? then n * 58 + d else n * 256 + d }

  lemma Shifted(n: nat, b: Base, d: nat)
    requires d < Size(b)
    ensures Quot(Shift(n, b, d), b) == n && Rem(Shift(n, b, d), b) == d
  {
  }

  lemma Unshifted(n: nat, b: Base)
    ensures Shift(Quot(n, b), b, Rem(n, b)) == n
  {
  }

  /** The number big-endian digits stand for. */
  function Value(digits: seq<nat>, base: Base): nat
  {
    if digits == [] then 0 else Shift(Value(digits[..|digits| - 1], base), base, digits[|digits| - 1])
  }

  predicate Below(ds: seq<nat>, bound: nat) { forall i :: 0 <= i < |ds| ==> ds[i] < bound }

  /** A number's digits, none for nought. */
  function Digits(n: nat, base: Base): (ds: seq<nat>)
    ensures Below(ds, Size(base))
  {
    if n == 0 then [] else Digits(Quot(n, base), base) + [Rem(n, base)]
  }

  /** How many digits, from the front, are nought. */
  function Zeros(ds: seq<nat>): (z: nat)
    ensures z <= |ds|
  {
    if ds == [] || ds[0] != 0 then 0 else 1 + Zeros(ds[1..])
  }

  function Pad(z: nat): seq<nat> { seq(z, _ => 0) }

  lemma {:induction false} DigitsOfValue(ds: seq<nat>, base: Base)
    requires Below(ds, Size(base)) && (ds != [] ==> ds[0] != 0)
    ensures Digits(Value(ds, base), base) == ds && (ds != [] ==> Value(ds, base) > 0)
    decreases |ds|
  {
    if ds != [] {
      var front, d := ds[..|ds| - 1], ds[|ds| - 1];
      DigitsOfValue(front, base);
      Shifted(Value(front, base), base, d);
    }
  }

  lemma {:induction false} ValueOfDigits(n: nat, base: Base)
    ensures Value(Digits(n, base), base) == n && (n > 0 ==> Digits(n, base) != [] && Digits(n, base)[0] != 0)
    decreases n
  {
    if n > 0 {
      var front := Digits(Quot(n, base), base);
      ValueOfDigits(Quot(n, base), base);
      Unshifted(n, base);
      assert Digits(n, base)[..|front|] == front;
    }
  }

  lemma {:induction false} ValueOfPadded(z: nat, ds: seq<nat>, base: Base)
    ensures Value(Pad(z) + ds, base) == Value(ds, base)
    decreases z + |ds|
  {
    var all := Pad(z) + ds;
    if ds != [] {
      assert all[..|all| - 1] == Pad(z) + ds[..|ds| - 1];
      ValueOfPadded(z, ds[..|ds| - 1], base);
    } else if z > 0 {
      assert all[..|all| - 1] == Pad(z - 1) + [];
      ValueOfPadded(z - 1, [], base);
    }
  }

  lemma {:induction false} ZerosSplit(ds: seq<nat>)
    ensures ds == Pad(Zeros(ds)) + ds[Zeros(ds)..] && (Zeros(ds) < |ds| ==> ds[Zeros(ds)] != 0)
  {
    if ds != [] && ds[0] == 0 { ZerosSplit(ds[1..]); }
  }

  lemma {:induction false} ZerosOfPadded(z: nat, ds: seq<nat>)
    requires ds != [] ==> ds[0] != 0
    ensures Zeros(Pad(z) + ds) == z
  {
    if z > 0 {
      assert (Pad(z) + ds)[1..] == Pad(z - 1) + ds;
      ZerosOfPadded(z - 1, ds);
    }
  }

  // ---- changing base, leading noughts kept ----

  function Rebase(ds: seq<nat>, from: Base, to: Base): seq<nat>
  {
    Pad(Zeros(ds)) + Digits(Value(ds, from), to)
  }

  /** There and back: every sequence of digits comes through, leading noughts and all. */
  lemma RebaseRoundTrip(ds: seq<nat>, from: Base, to: Base)
    requires Below(ds, Size(from))
    ensures Rebase(Rebase(ds, from, to), to, from) == ds
  {
    var z := Zeros(ds);
    var tail := ds[z..];
    ZerosSplit(ds);
    ValueOfPadded(z, tail, from);
    var n := Value(ds, from);
    ValueOfDigits(n, to);
    ZerosOfPadded(z, Digits(n, to));
    ValueOfPadded(z, Digits(n, to), to);
    DigitsOfValue(tail, from);
  }

  // ---- the text ----

  function Text(ds: seq<nat>): (s: string)
    requires Below(ds, 58)
    ensures |s| == |ds|
  {
    seq(|ds|, i requires 0 <= i < |ds| => CharOf(ds[i]))
  }

  function Indexes(s: string): (ds: seq<nat>)
    requires InAlphabet(s)
    ensures |ds| == |s| && Below(ds, 58)
  {
    seq(|s|, i requires 0 <= i < |s| => (OnlyChar(s[i]); IndexOf(s[i])))
  }

  function Encode(b: seq<Byte>): (s: string)
    ensures InAlphabet(s)
  {
    Text(Rebase(b, B256, B58))
  }

  function Decode(s: string): (b: seq<Byte>)
    requires InAlphabet(s)
  {
    Rebase(Indexes(s), B58, B256)
  }

  /** The decoder restores the bytes and their leading zeros. */
  lemma DecodeOfEncode(b: seq<Byte>)
    ensures Decode(Encode(b)) == b
  {
    var ds := Rebase(b, B256, B58);
    assert Indexes(Text(ds)) == ds;
    RebaseRoundTrip(b, B256, B58);
  }

  /** Every text in the alphabet is the text of one key. */
  lemma EncodeOfDecode(s: string)
    requires InAlphabet(s)
    ensures Encode(Decode(s)) == s
  {
    var ds := Indexes(s);
    RebaseRoundTrip(ds, B58, B256);
    forall i | 0 <= i < |s|
      ensures Text(ds)[i] == s[i]
    {
      OnlyChar(s[i]);
    }
    assert Text(ds) == s;
  }

  /** No two keys print alike. */
  lemma EncodeIsInjective(a: seq<Byte>, b: seq<Byte>)
    requires Encode(a) == Encode(b)
    ensures a == b
  {
    DecodeOfEncode(a);
    DecodeOfEncode(b);
  }

  // ---- the printer as it runs ----

  lemma TextJoin(a: seq<nat>, b: seq<nat>)
    requires Below(a, 58) && Below(b, 58)
    ensures Below(a + b, 58) && Text(a + b) == Text(a) + Text(b)
  {
  }

  lemma TextPut(d: nat, done: seq<nat>)
    requires d < 58 && Below(done, 58)
    ensures Below([d] + done, 58) && Text([d] + done) == [CharOf(d)] + Text(done)
  {
    TextJoin([d], done);
    assert Text([d]) == [CharOf(d)];
  }

  lemma DigitsPut(n: nat, done: seq<nat>)
    requires n > 0
    ensures Digits(n / 58, B58) + ([n % 58] + done) == Digits(n, B58) + done
  {
    Assoc(Digits(n / 58, B58), [n % 58], done);
  }

  lemma PadPut(z: nat, ds: seq<nat>)
    ensures Pad(z + 1) + ds == [0] + (Pad(z) + ds)
  {
  }

  /** One big number divided down, a digit put in front each time. */
  method PrintNumber(all: nat) returns (s: string)
    ensures s == Text(Digits(all, B58))
  {
    var n := all;
    s := "";
    ghost var done: seq<nat> := [];
    while n > 0
      invariant Below(done, 58) && s == Text(done) && Digits(n, B58) + done == Digits(all, B58)
    {
      var d := n % 58;
      TextPut(d, done);
      DigitsPut(n, done);
      s, done, n := [CharOf(d)] + s, [d] + done, n / 58;
    }
  }

  /** The number, then a 1 in front for each leading zero byte. */
  method Print(b: seq<Byte>) returns (s: string)
    ensures s == Encode(b)
  {
    s := PrintNumber(Value(b, B256));
    ghost var digits := Digits(Value(b, B256), B58);
    var i := 0;
    Whole(b);
    assert Pad(0) + digits == digits;
    while i < |b| && b[i] == 0
      invariant i <= |b| && Zeros(b) == i + Zeros(b[i..])
      invariant Below(Pad(i) + digits, 58) && s == Text(Pad(i) + digits)
    {
      From(b, i);
      TextPut(0, Pad(i) + digits);
      PadPut(i, digits);
      s := ['1'] + s;
      i := i + 1;
    }
  }
}
