/** What xatoi accepts and what it makes of it, for every string. */
module XprintfParses {
  import opened Xprintf

  /** The end of the word at position i: the next character up to a space, or the end of the string. */
  function WordEnd(s: seq<Char>, i: nat): (e: nat)
    requires i <= |s|
    ensures i <= e <= |s| && At(s, e) <= SPACE
    decreases |s| - i
  {
    if At(s, i) <= SPACE then i else WordEnd(s, i + 1)
  }

  lemma {:induction false} WordIsOne(s: seq<Char>, i: nat, k: nat)
    requires i <= |s| && i <= k < WordEnd(s, i)
    ensures At(s, k) > SPACE
    decreases k - i
  {
    if k > i {
      WordIsOne(s, i + 1, k);
    }
  }

  predicate AllBelow(t: seq<Char>, r: nat) { forall k :: 0 <= k < |t| ==> DigitOf(t[k]) < r }

  /** The number a string of digits stands for. */
  function Reading(t: seq<Char>, r: nat): nat {
    if t == [] then 0 else Reading(t[..|t| - 1], r) * r + DigitOf(t[|t| - 1])
  }

  // ----- the digits -----

  lemma ModuloStep(x: nat, r: nat, d: nat)
    requires r in {2, 8, 10, 16}
    ensures ((x % 0x1_0000_0000) * r + d) % 0x1_0000_0000 == (x * r + d) % 0x1_0000_0000
  {
    if r == 2 {
    } else if r == 8 {
    } else if r == 10 {
    } else {
    }
  }

  lemma OneTaken(s: seq<Char>, k: nat, r: nat, val: Word)
    requires k < |s| && s[k] > SPACE && DigitOf(s[k]) < r
    ensures ParseDigits(s, k, r, val) == ParseDigits(s, k + 1, r, (val * r + DigitOf(s[k])) % 0x1_0000_0000)
  {
  }

  lemma OneRead(t: seq<Char>, r: nat)
    requires t != []
    ensures Reading(t, r) == Reading(t[..|t| - 1], r) * r + DigitOf(t[|t| - 1])
  {
  }

  /** Up to position k the loop has taken the digits before it. */
  lemma {:induction false} DigitsTaken(s: seq<Char>, i: nat, k: nat, r: nat)
    requires r in {2, 8, 10, 16} && i <= k <= |s| && k <= WordEnd(s, i) && AllBelow(s[i..k], r)
    ensures ParseDigits(s, i, r, 0) == ParseDigits(s, k, r, Reading(s[i..k], r) % 0x1_0000_0000)
    decreases k
  {
    hide DigitOf, ParseDigits, WordEnd;
    if k > i {
      var t := s[i..k];
      assert t[..|t| - 1] == s[i..k - 1] && t[|t| - 1] == s[k - 1];
      DigitsTaken(s, i, k - 1, r);
      WordIsOne(s, i, k - 1);
      OneTaken(s, k - 1, r, Reading(s[i..k - 1], r) % 0x1_0000_0000);
      OneRead(t, r);
      hide Reading;
      ModuloStep(Reading(s[i..k - 1], r), r, DigitOf(s[k - 1]));
    }
  }

  /** The first character that is no digit, if there is one. */
  function FirstBad(t: seq<Char>, r: nat): (k: nat)
    ensures k <= |t| && AllBelow(t[..k], r) && (k < |t| ==> DigitOf(t[k]) >= r)
  {
    if t == [] || DigitOf(t[0]) >= r then 0
    else
      var k := 1 + FirstBad(t[1..], r);
      assert t[..k] == [t[0]] + t[1..][..k - 1];
      k
  }

  /** The loop succeeds if and only if the whole word is digits, with what they stand for modulo 2^32; otherwise
      it stops at the first character that is none, with 0. */
  lemma DigitsParsed(s: seq<Char>, i: nat, r: nat)
    requires r in {2, 8, 10, 16} && i <= |s|
    ensures var t := s[i..WordEnd(s, i)];
      ParseDigits(s, i, r, 0) ==
      if AllBelow(t, r) then Parsed(true, Reading(t, r) % 0x1_0000_0000, WordEnd(s, i))
      else Parsed(false, 0, i + FirstBad(t, r))
  {
    hide DigitOf, FirstBad, Reading, WordEnd, AllBelow;
    var t := s[i..WordEnd(s, i)];
    var k := i + FirstBad(t, r);
    assert s[i..k] == t[..k - i];
    DigitsTaken(s, i, k, r);
    if k < WordEnd(s, i) {
      WordIsOne(s, i, k);
      assert At(s, k) == s[k] == t[k - i];
      OneBad(t, r, k - i);
    } else {
      assert t == t[..k - i];
    }
  }

  lemma OneBad(t: seq<Char>, r: nat, k: nat)
    requires k < |t| && DigitOf(t[k]) >= r
    ensures !AllBelow(t, r)
  {
  }

  // ----- the whole -----

  /** A number without its sign: hexadecimal or binary digits behind their prefix, octal behind a 0 and a decimal
      digit, decimal otherwise; 0x and 0b alone are 0. */
  predicate IsUnsigned(t: seq<Char>) {
    if t == [] || !IsDigit(t[0]) then false
    else if t[0] != ZERO then AllBelow(t, 10)
    else if |t| == 1 then true
    else if t[1] == LETTER_X then AllBelow(t[2..], 16)
    else if t[1] == LETTER_B then AllBelow(t[2..], 2)
    else IsDigit(t[1]) && AllBelow(t[1..], 8)
  }

  function Value(t: seq<Char>): nat
    requires IsUnsigned(t)
  {
    if t[0] != ZERO then Reading(t, 10)
    else if |t| == 1 then 0
    else if t[1] == LETTER_X then Reading(t[2..], 16)
    else if t[1] == LETTER_B then Reading(t[2..], 2)
    else Reading(t[1..], 8)
  }

  predicate HasMinus(t: seq<Char>) { t != [] && t[0] == MINUS }

  function WithoutMinus(t: seq<Char>): seq<Char> { if HasMinus(t) then t[1..] else t }

  predicate IsNumber(t: seq<Char>) { IsUnsigned(WithoutMinus(t)) }

  /** The value as the 32 bits of a long. */
  function Meaning(t: seq<Char>): Word
    requires IsNumber(t)
  {
    var v: int := Value(WithoutMinus(t));
    (if HasMinus(t) then -v else v) % 0x1_0000_0000
  }

  lemma NegateIs(v: int)
    requires v >= 0
    ensures Negate(v % 0x1_0000_0000) == (-v) % 0x1_0000_0000
  {
  }

  /** The word behind the sign, read from its first character. */
  function XatoiUnsigned(s: seq<Char>, j: nat): Parsed
    requires j <= |s|
  {
    if At(s, j) == ZERO then
      var c := At(s, j + 1);
      if c == 120 then ParseDigits(s, j + 2, 16, 0)
      else if c == 98 then ParseDigits(s, j + 2, 2, 0)
      else if c <= SPACE then Parsed(true, 0, j + 1)
      else if !IsDigit(c) then Parsed(false, 0, j + 1)
      else ParseDigits(s, j + 1, 8, 0)
    else if !IsDigit(At(s, j)) then Parsed(false, 0, j)
    else ParseDigits(s, j, 10, 0)
  }

  lemma WordStep(s: seq<Char>, j: nat)
    requires j < |s| && At(s, j) > SPACE
    ensures var t := s[j..WordEnd(s, j)];
      && WordEnd(s, j) == WordEnd(s, j + 1) && t != [] && t[0] == s[j] && t[1..] == s[j + 1..WordEnd(s, j + 1)]
  {
  }

  /** What the function makes of the word at position j. */
  ghost predicate ReadAs(p: Parsed, t: seq<Char>, end: nat) {
    && p.ok == IsUnsigned(t)
    && (p.ok ==> p.value == Value(t) % 0x1_0000_0000 && p.next == end)
    && (!p.ok ==> p.value == 0 && p.next <= end)
  }

  /** Behind a 0. */
  lemma ZeroRead(s: seq<Char>, j: nat)
    requires j < |s| && At(s, j) == ZERO
    ensures ReadAs(XatoiUnsigned(s, j), s[j..WordEnd(s, j)], WordEnd(s, j))
  {
    hide ParseDigits, Reading, DigitOf, AllBelow, WordEnd, FirstBad;
    WordStep(s, j);
    if At(s, j + 1) > SPACE {
      WordStep(s, j + 1);
      var t := s[j..WordEnd(s, j)];
      assert t[1] == s[j + 1] && t[2..] == t[1..][1..];
      DigitsParsed(s, j + 1, 8);
      DigitsParsed(s, j + 2, 16);
      DigitsParsed(s, j + 2, 2);
    } else {
      NoWord(s, j + 1);
    }
  }

  lemma NoWord(s: seq<Char>, j: nat)
    requires j <= |s| && At(s, j) <= SPACE
    ensures WordEnd(s, j) == j && s[j..WordEnd(s, j)] == []
  {
  }

  lemma UnsignedRead(s: seq<Char>, j: nat)
    requires j <= |s|
    ensures ReadAs(XatoiUnsigned(s, j), s[j..WordEnd(s, j)], WordEnd(s, j))
  {
    hide ParseDigits, Reading, DigitOf, AllBelow, WordEnd, FirstBad;
    if At(s, j) <= SPACE {
      NoWord(s, j);
    } else if At(s, j) == ZERO {
      ZeroRead(s, j);
    } else {
      WordStep(s, j);
      DigitsParsed(s, j, 10);
    }
  }

  lemma XatoiIs(s: seq<Char>, start: nat)
    requires start <= |s|
    ensures var i := SkipSpaces(s, start);
      var negative := At(s, i) == MINUS;
      Xatoi(s, start) == WithSign(XatoiUnsigned(s, if negative then i + 1 else i), negative)
  {
    hide ParseDigits, SkipSpaces;
  }

  /** The parser reads the word behind the leading spaces.  It succeeds if and only if that is a number, stores what
      it means and stops at the end of the word; otherwise it stores 0. */
  lemma XatoiReads(s: seq<Char>, start: nat)
    requires start <= |s|
    ensures var i, p := SkipSpaces(s, start), Xatoi(s, start);
      var t := s[i..WordEnd(s, i)];
      && p.ok == IsNumber(t)
      && (p.ok ==> p.value == Meaning(t) && p.next == WordEnd(s, i))
      && (!p.ok ==> p.value == 0 && p.next <= WordEnd(s, i))
  {
    var i := SkipSpaces(s, start);
    XatoiIs(s, start);
    hide ParseDigits, SkipSpaces, IsUnsigned, Value, XatoiUnsigned, Xatoi;
    if At(s, i) == MINUS {
      WordStep(s, i);
      UnsignedRead(s, i + 1);
      var t := s[i + 1..WordEnd(s, i + 1)];
      if IsUnsigned(t) {
        NegateIs(Value(t));
      }
    } else {
      UnsignedRead(s, i);
      MinusFirst(s, i);
    }
  }

  lemma MinusFirst(s: seq<Char>, i: nat)
    requires i <= |s| && At(s, i) != MINUS
    ensures !HasMinus(s[i..WordEnd(s, i)])
  {
  }

  /** Leading spaces are all skipped, and nothing else. */
  lemma {:induction false} SpacesAreSkipped(s: seq<Char>, i: nat)
    requires i <= |s|
    ensures At(s, SkipSpaces(s, i)) != SPACE && forall k :: i <= k < SkipSpaces(s, i) ==> s[k] == SPACE
    decreases |s| - i
  {
    if At(s, i) == SPACE {
      SpacesAreSkipped(s, i + 1);
    }
  }
}
