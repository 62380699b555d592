/** The printer and the number parser of xprintf.c, for 32-bit longs without floating point. */
module Xprintf {

  type Char = c: int | 0 <= c < 256

  /** A null-terminated string, without the null. */
  type Chars = s: seq<Char> | 0 !in s

  /** An int, long or unsigned long argument as its 32 bits. */
  type Word = w: int | 0 <= w < 0x1_0000_0000

  const SPACE: Char := 32
  const ZERO: Char := 48
  const MINUS: Char := 45

  /** sizeof str */
  const SZB_OUTPUT: nat := 32

  // ----- printing one number -----

  datatype Conversion = Binary | Octal | Signed | Unsigned | HexLower | HexUpper

  function Radix(c: Conversion): (r: nat)
    ensures r in {2, 8, 10, 16}
  {
    match c
    case Binary => 2
    case Octal => 8
    case Signed => 10
    case Unsigned => 10
    case HexLower => 16
    case HexUpper => 16
  }

  /** d += 0x27 or 0x07 beyond 9, then + '0'. */
  function DigitChar(d: nat, c: Conversion): Char
    requires d < 16
  {
    (if d > 9 then d + (if c == HexLower then 0x27 else 0x07) else d) + ZERO
  }

  predicate Negative(v: Word) { v >= 0x8000_0000 }

  /** The number whose digits are printed. */
  function Magnitude(v: Word, c: Conversion): Word {
    if c == Signed && Negative(v) then 0x1_0000_0000 - v else v
  }

  /** The digits of v, most significant first. */
  function Digits(v: nat, c: Conversion): (s: seq<Char>)
    ensures s != []
  {
    if v < Radix(c) then [DigitChar(v, c)] else Digits(v / Radix(c), c) + [DigitChar(v % Radix(c), c)]
  }

  function Spaces(n: nat): (s: seq<Char>)
    ensures |s| == n && forall i :: 0 <= i < n ==> s[i] == SPACE
  {
    seq(n, i => SPACE)
  }

  function Fill(n: nat, pad: Char): (s: seq<Char>)
    ensures |s| == n
  {
    seq(n, i => pad)
  }

  /** Sign and digits. */
  function Numeral(v: Word, c: Conversion): seq<Char> {
    (if c == Signed && Negative(v) then [MINUS] else []) + Digits(Magnitude(v, c), c)
  }

  /** A body in a field of at least the given width. */
  function Padded(body: seq<Char>, width: nat, left: bool, pad: Char): seq<Char> {
    var room := if width > |body| then width - |body| else 0;
    if left then body + Spaces(room) else Fill(room, pad) + body
  }

  function Field(v: Word, c: Conversion, width: nat, left: bool, pad: Char): seq<Char> {
    Padded(Numeral(v, c), width, left, pad)
  }

  /** As much of a string as a precision lets through; a negative one lets all through. */
  function Shortened(s: seq<Char>, precision: int): seq<Char> {
    if 0 <= precision < |s| then s[..precision] else s
  }

  /** A number below 2^n has at most n digits in any radix. */
  lemma {:induction false} DigitsFit(v: nat, c: Conversion, n: nat)
    requires 0 < n && v < Pow2(n)
    ensures |Digits(v, c)| <= n
  {
    if v >= Radix(c) {
      DivideAtLeastHalves(v, Radix(c));
      assert Pow2(1) == 2;
      assert n > 1;
      DigitsFit(v / Radix(c), c, n - 1);
    }
  }

  lemma DivideAtLeastHalves(v: nat, r: nat)
    requires r >= 2
    ensures 2 * (v / r) <= v
  {
    assert v == r * (v / r) + v % r;
    if v / r > 0 {
      assert r * (v / r) >= 2 * (v / r);
    }
  }

  function Pow2(n: nat): nat {
    if n == 0 then 1 else 2 * Pow2(n - 1)
  }

  lemma Pow32()
    ensures Pow2(32) == 0x1_0000_0000
  {
    assert Pow2(8) == 256;
    assert Pow2(16) == 0x1_0000;
    assert Pow2(24) == 0x100_0000;
  }

  /** The digit buffer never drops a digit, nor the sign. */
  lemma NumeralFits(v: Word, c: Conversion)
    ensures |Numeral(v, c)| <= SZB_OUTPUT
  {
    Pow32();
    DigitsFit(Magnitude(v, c), c, 32);
    if c == Signed && Negative(v) {
      assert Pow2(32) == 8 * Pow2(29);
      DigitsFit(Magnitude(v, c) / 10, c, 29);
    }
  }

  // ----- the printer's format -----

  /** What is printed for a directive: a number, or a string of limited length. */
  datatype Directive =
    | Directive(conversion: Conversion, width: nat, left: bool, pad: Char)
    | Text(width: nat, left: bool, pad: Char, precision: int)

  /** The character at a position of a string that ends with a null. */
  function At(s: seq<Char>, i: nat): Char { if i < |s| then s[i] else 0 }

  predicate IsDigit(c: Char) { ZERO <= c <= 57 }

  /** A run of digits from position i: its value on top of w, as an unsigned int, and where it ends. */
  function Number(fmt: seq<Char>, i: nat, w: Word): (r: (Word, nat))
    ensures r.1 >= i
    decreases |fmt| - i
  {
    if IsDigit(At(fmt, i)) then
      Number(fmt, i + 1, (w * 10 + (At(fmt, i) - ZERO)) % 0x1_0000_0000)
    else (w, i)
  }

  /** One argument, as an int. */
  function AsInt(v: Word): int { if Negative(v) then v - 0x1_0000_0000 else v }

  /** An argument: a number, or a pointer to a string; the null pointer counts as the empty string. */
  datatype Arg = Num(w: Word) | Str(s: Chars)

  datatype Scan = Scan(d: Directive, next: nat, args: seq<Arg>) | Pass(c: Char, next: nat, args: seq<Arg>) | End

  function TypeOf(c: Char): Conversion
    requires c in {98, 111, 100, 117, 120, 88}
  {
    if c == 98 then Binary
    else if c == 111 then Octal
    else if c == 100 then Signed
    else if c == 117 then Unsigned
    else if c == 120 then HexLower
    else HexUpper
  }

  /** The next argument as a number or as a string; a missing one, or one of the other kind, reads as 0 or
      as the empty string. */
  function First(args: seq<Arg>): Word { if args != [] && args[0].Num? then args[0].w else 0 }

  function FirstText(args: seq<Arg>): Chars { if args != [] && args[0].Str? then args[0].s else [] }

  /** The arguments after the next one. */
  function Others(args: seq<Arg>): seq<Arg> { if args != [] then args[1..] else args }

  datatype Width = Width(width: nat, left: bool, next: nat, args: seq<Arg>)

  /** A minimum width, from the format or from an argument that may also ask for left justification. */
  function ScanWidth(fmt: seq<Char>, i: nat, left: bool, args: seq<Arg>): (w: Width)
    ensures w.next >= i
  {
    if At(fmt, i) == 42 then
      var n := AsInt(First(args));
      Width(if n < 0 then -n else n, left || n < 0, i + 1, Others(args))
    else
      var (w, next) := Number(fmt, i, 0);
      Width(w, left, next, args)
  }

  /** A precision, -1 if there is none. */
  function ScanPrecision(fmt: seq<Char>, i: nat, args: seq<Arg>): (r: (int, nat, seq<Arg>))
    ensures r.1 >= i
  {
    if At(fmt, i) != 46 then (-1, i, args)
    else if At(fmt, i + 1) == 42 then (AsInt(First(args)), i + 2, Others(args))
    else
      var (precision, next) := Number(fmt, i + 1, 0);
      (AsInt(precision), next, args)
  }

  function ScanType(fmt: seq<Char>, i: nat, w: Width, pad: Char, precision: int, args: seq<Arg>): (r: Scan)
    ensures r != End ==> r.next > i
  {
    var k := if At(fmt, i) == 108 then i + 1 else i;
    var c := At(fmt, k);
    if c == 0 then End
    else if c in {98, 111, 100, 117, 120, 88} then Scan(Directive(TypeOf(c), w.width, w.left, pad), k + 1, args)
    else if c == 99 then Pass(First(args) % 256, k + 1, Others(args))
    else if c == 115 then Scan(Text(w.width, w.left, pad, precision), k + 1, args)
    else Pass(c, k + 1, args)
  }

  /** The directive behind a percent sign. */
  function ScanDirective(fmt: seq<Char>, i: nat, args: seq<Arg>): (r: Scan)
    ensures r != End ==> r.next > i
  {
    var zero, minus := At(fmt, i) == ZERO, At(fmt, i) == MINUS;
    var w := ScanWidth(fmt, if zero || minus then i + 1 else i, minus, args);
    var (precision, next, rest) := ScanPrecision(fmt, w.next, w.args);
    ScanType(fmt, next, w, if zero then ZERO else SPACE, precision, rest)
  }

  /** What a directive prints of the next argument. */
  function Converted(d: Directive, args: seq<Arg>): seq<Char> {
    match d
    case Directive(c, width, left, pad) => Field(First(args), c, width, left, pad)
    case Text(width, left, pad, precision) => Padded(Shortened(FirstText(args), precision), width, left, pad)
  }

  /** xvfprintf without floating point. */
  function Print(fmt: seq<Char>, i: nat, args: seq<Arg>): seq<Char>
    decreases |fmt| - i
  {
    if At(fmt, i) == 0 || i >= |fmt| then []
    else if fmt[i] != 37 then [fmt[i]] + Print(fmt, i + 1, args)
    else
      match ScanDirective(fmt, i + 1, args)
      case End => []
      case Pass(c, next, rest) => [c] + Print(fmt, if next > |fmt| then |fmt| else next, rest)
      case Scan(d, next, rest) =>
        Converted(d, rest) + Print(fmt, if next > |fmt| then |fmt| else next, Others(rest))
  }

  // ----- the parser -----

  /** What xatoi returns: success, the value stored and the position it leaves the string at. */
  datatype Parsed = Parsed(ok: bool, value: Word, next: nat)

  /** The digit a character stands for: c is an unsigned char, and lower case is turned into upper.  The
      source goes on to refuse a result of at most 9 here, but from 17 on there is none. */
  function DigitOf(ch: Char): Char {
    var c := (if ch >= 97 then ch - 0x20 else ch) - ZERO;
    var c1 := if c < 0 then c + 256 else c;
    if c1 >= 17 then c1 - 7 else c1
  }

  /** The loop over the digits. */
  function ParseDigits(s: seq<Char>, i: nat, r: nat, val: Word): Parsed
    requires i <= |s|
    decreases |s| - i
  {
    var c := At(s, i);
    if c <= SPACE then Parsed(true, val, i)
    else
      var d := DigitOf(c);
      if d >= r then Parsed(false, 0, i) else ParseDigits(s, i + 1, r, (val * r + d) % 0x1_0000_0000)
  }

  /** Leading spaces. */
  function SkipSpaces(s: seq<Char>, i: nat): (r: nat)
    requires i <= |s|
    ensures i <= r <= |s|
    decreases |s| - i
  {
    if At(s, i) == SPACE then SkipSpaces(s, i + 1) else i
  }

  function Negate(v: Word): Word { if v == 0 then 0 else 0x1_0000_0000 - v }

  function WithSign(p: Parsed, negative: bool): Parsed {
    if p.ok && negative then p.(value := Negate(p.value)) else p
  }

  /** xatoi */
  function Xatoi(s: seq<Char>, start: nat): Parsed
    requires start <= |s|
  {
    var i := SkipSpaces(s, start);
    var negative := At(s, i) == MINUS;
    var j := if negative then i + 1 else i;
    if At(s, j) == ZERO then
      var c := At(s, j + 1);
      if c == 120 then WithSign(ParseDigits(s, j + 2, 16, 0), negative)
      else if c == 98 then WithSign(ParseDigits(s, j + 2, 2, 0), negative)
      else if c <= SPACE then Parsed(true, 0, j + 1)
      else if !IsDigit(c) then Parsed(false, 0, j + 1)
      else WithSign(ParseDigits(s, j + 1, 8, 0), negative)
    else if !IsDigit(At(s, j)) then Parsed(false, 0, j)
    else WithSign(ParseDigits(s, j, 10, 0), negative)
  }

  /** The parser takes back every digit the printer writes. */
  lemma DigitTakenBack(d: nat, c: Conversion)
    requires d < Radix(c)
    ensures DigitOf(DigitChar(d, c)) == d && DigitChar(d, c) > SPACE
  {
  }

  /** It takes more: in hexadecimal the characters from : to ? count as the digits 10 to 15. */
  lemma PunctuationCountsAsHex(ch: Char)
    requires ch > SPACE
    ensures DigitOf(ch) < 16 <==> 48 <= ch <= 63 || 65 <= ch <= 70 || 97 <= ch <= 102
  {
  }

  /** So 0x: is read as 10. */
  lemma ColonReadsAsTen()
    ensures Xatoi([ZERO, 120, 58], 0) == Parsed(true, 10, 3)
  {
    var s: seq<Char> := [ZERO, 120, 58];
    assert DigitOf(58) == 10;
    assert ParseDigits(s, 2, 16, 0) == ParseDigits(s, 3, 16, 10);
  }

  // ----- what is printed is read back -----

  /** s holds t at position i. */
  ghost predicate Holds(s: seq<Char>, i: nat, t: seq<Char>) {
    i + |t| <= |s| && s[i..i + |t|] == t
  }

  lemma HoldsParts(s: seq<Char>, i: nat, a: seq<Char>, b: seq<Char>)
    requires Holds(s, i, a + b)
    ensures Holds(s, i, a) && Holds(s, i + |a|, b)
  {
    assert s[i..i + |a|] == (a + b)[..|a|];
    assert s[i + |a|..i + |a| + |b|] == (a + b)[|a|..];
  }

  lemma HoldsOne(s: seq<Char>, i: nat, c: Char)
    requires Holds(s, i, [c])
    ensures At(s, i) == c
  {
    assert s[i] == s[i..i + 1][0];
  }

  lemma HoldsChar(s: seq<Char>, i: nat, t: seq<Char>, k: nat)
    requires Holds(s, i, t) && k < |t|
    ensures i + k < |s| && s[i + k] == At(s, i + k) == t[k]
  {
    assert s[i + k] == s[i..i + |t|][k];
  }

  lemma DivMod(v: nat, r: nat)
    requires r in {2, 8, 10, 16}
    ensures (v / r) * r + v % r == v && v % r < r && v / r <= v
  {
    if r == 2 {
    } else if r == 8 {
    } else if r == 10 {
    } else {
    }
  }

  lemma SmallModulo(x: nat)
    requires x < 0x1_0000_0000
    ensures x % 0x1_0000_0000 == x
  {
  }

  /** One digit more. */
  lemma ReadOne(s: seq<Char>, i: nat, r: nat, val: Word, d: nat, c: Conversion)
    requires r == Radix(c) && d < r && val * r + d < 0x1_0000_0000 && Holds(s, i, [DigitChar(d, c)])
    ensures i < |s| && ParseDigits(s, i, r, val) == ParseDigits(s, i + 1, r, val * r + d)
  {
    hide DigitOf, DigitChar, Radix;
    DigitTakenBack(d, c);
    HoldsOne(s, i, DigitChar(d, c));
    SmallModulo(val * r + d);
  }

  lemma DigitsParts(v: nat, c: Conversion)
    ensures Digits(v, c) == if v < Radix(c) then [DigitChar(v, c)]
                            else Digits(v / Radix(c), c) + [DigitChar(v % Radix(c), c)]
  {
  }

  /** Reading the digits of v from nothing gives v. */
  lemma {:induction false} DigitsReadBack(s: seq<Char>, i: nat, v: Word, c: Conversion)
    requires Holds(s, i, Digits(v, c))
    ensures ParseDigits(s, i, Radix(c), 0) == ParseDigits(s, i + |Digits(v, c)|, Radix(c), v)
    decreases v
  {
    hide DigitChar, Radix, ParseDigits, Digits, Holds;
    var r := Radix(c);
    DigitsParts(v, c);
    DivMod(v, r);
    if v < r {
      ReadOne(s, i, r, 0, v, c);
    } else {
      var front := Digits(v / r, c);
      HoldsParts(s, i, front, [DigitChar(v % r, c)]);
      DivideAtLeastHalves(v, r);
      DigitsReadBack(s, i, v / r, c);
      ReadOne(s, i + |front|, r, v / r, v % r, c);
    }
  }

  /** A number other than 0 does not begin with the digit 0. */
  lemma {:induction false} NoLeadingZero(v: nat, c: Conversion)
    requires v > 0
    ensures Digits(v, c)[0] != ZERO
    ensures Radix(c) <= 10 ==> IsDigit(Digits(v, c)[0])
    decreases v
  {
    if v >= Radix(c) {
      DivideAtLeastHalves(v, Radix(c));
      DivMod(v, Radix(c));
      NoLeadingZero(v / Radix(c), c);
    }
  }

  lemma {:induction false} SpacesSkipped(s: seq<Char>, i: nat, n: nat)
    requires Holds(s, i, Spaces(n))
    ensures SkipSpaces(s, i) == SkipSpaces(s, i + n)
    decreases n
  {
    if n > 0 {
      assert Spaces(n) == [SPACE] + Spaces(n - 1);
      HoldsParts(s, i, [SPACE], Spaces(n - 1));
      HoldsOne(s, i, SPACE);
      SpacesSkipped(s, i + 1, n - 1);
    }
  }

  lemma DigitsEnd(s: seq<Char>, i: nat, v: Word, c: Conversion)
    requires Holds(s, i, Digits(v, c)) && At(s, i + |Digits(v, c)|) <= SPACE
    ensures ParseDigits(s, i, Radix(c), 0) == Parsed(true, v, i + |Digits(v, c)|)
  {
    DigitsReadBack(s, i, v, c);
    hide Digits;
  }

  lemma FillStep(n: nat, c: Char)
    requires n > 0
    ensures Fill(n, c) == [c] + Fill(n - 1, c)
  {
  }

  /** Zeros in front make no difference. */
  lemma {:induction false} ZerosSkipped(s: seq<Char>, i: nat, n: nat, c: Conversion)
    requires Holds(s, i, Fill(n, ZERO))
    ensures i <= |s| && ParseDigits(s, i, Radix(c), 0) == ParseDigits(s, i + n, Radix(c), 0)
    decreases n
  {
    hide Radix, ParseDigits;
    if n > 0 {
      FillStep(n, ZERO);
      HoldsParts(s, i, [ZERO], Fill(n - 1, ZERO));
      ReadOne(s, i, Radix(c), 0, 0, c);
      ZerosSkipped(s, i + 1, n - 1, c);
    }
  }

  lemma ZerosAndDigitsEnd(s: seq<Char>, i: nat, n: nat, v: Word, c: Conversion)
    requires Holds(s, i, Fill(n, ZERO) + Digits(v, c)) && At(s, i + n + |Digits(v, c)|) <= SPACE
    ensures i <= |s| && ParseDigits(s, i, Radix(c), 0) == Parsed(true, v, i + n + |Digits(v, c)|)
  {
    hide Digits, Fill, ParseDigits;
    HoldsParts(s, i, Fill(n, ZERO), Digits(v, c));
    ZerosSkipped(s, i, n, c);
    DigitsEnd(s, i + n, v, c);
  }

  lemma FirstDigit(s: seq<Char>, i: nat, v: Word, c: Conversion)
    requires Holds(s, i, Digits(v, c)) && Radix(c) <= 10
    ensures IsDigit(At(s, i)) && (v > 0 ==> At(s, i) != ZERO) && (v == 0 ==> Digits(v, c) == [ZERO])
  {
    if v > 0 {
      NoLeadingZero(v, c);
    }
    assert s[i] == s[i..i + |Digits(v, c)|][0];
  }

  /** A printed number: in decimal, in a field whose width is spelled out in the format or handed over as an
      argument; or in another radix after the prefix that names it, with zeros up to a width. */
  datatype Item =
    | Decimal(v: Word, width: int, literal: bool)
    | Hex(v: Word, zeros: Word, upper: bool)
    | Bin(v: Word, zeros: Word)
    | Oct(v: Word, zeros: Word)

  const LETTER_X: Char := 120
  const LETTER_B: Char := 98

  function HexOf(upper: bool): Conversion { if upper then HexUpper else HexLower }

  /** The printed number without the spaces around it. */
  function Body(item: Item): seq<Char> {
    match item
    case Decimal(v, _, _) => Numeral(v, Signed)
    case Hex(v, width, upper) => [ZERO, LETTER_X] + Zeroed(v, HexOf(upper), width)
    case Bin(v, width) => [ZERO, LETTER_B] + Zeroed(v, Binary, width)
    case Oct(v, width) => [ZERO] + Zeroed(v, Octal, width)
  }

  function Zeroed(v: Word, c: Conversion, width: nat): seq<Char> {
    Fill(Room(v, c, width), ZERO) + Digits(v, c)
  }

  function Room(v: Word, c: Conversion, width: nat): nat {
    if width > |Digits(v, c)| then width - |Digits(v, c)| else 0
  }

  lemma DecimalReadBack(s: seq<Char>, i: nat, v: Word)
    requires Holds(s, i, Numeral(v, Signed)) && At(s, i + |Numeral(v, Signed)|) <= SPACE
    ensures Xatoi(s, i) == Parsed(true, v, i + |Numeral(v, Signed)|)
  {
    hide Digits, ParseDigits, Holds;
    var digits := Digits(Magnitude(v, Signed), Signed);
    if Negative(v) {
      HoldsParts(s, i, [MINUS], digits);
      HoldsOne(s, i, MINUS);
      FirstDigit(s, i + 1, Magnitude(v, Signed), Signed);
      DigitsEnd(s, i + 1, Magnitude(v, Signed), Signed);
    } else {
      assert [] + digits == digits;
      FirstDigit(s, i, v, Signed);
      DigitsEnd(s, i, v, Signed);
    }
  }

  lemma PrefixedReadBack(s: seq<Char>, i: nat, letter: Char, v: Word, c: Conversion, width: nat)
    requires (letter == LETTER_X && Radix(c) == 16) || (letter == LETTER_B && Radix(c) == 2)
    requires Holds(s, i, [ZERO, letter] + Zeroed(v, c, width)) && At(s, i + 2 + |Zeroed(v, c, width)|) <= SPACE
    ensures Xatoi(s, i) == Parsed(true, v, i + 2 + |Zeroed(v, c, width)|)
  {
    hide Digits, ParseDigits, Holds, Fill;
    HoldsParts(s, i, [ZERO, letter], Zeroed(v, c, width));
    assert [ZERO, letter] == [ZERO] + [letter];
    HoldsParts(s, i, [ZERO], [letter]);
    HoldsOne(s, i, ZERO);
    HoldsOne(s, i + 1, letter);
    ZerosAndDigitsEnd(s, i + 2, Room(v, c, width), v, c);
  }

  lemma OctalReadBack(s: seq<Char>, i: nat, v: Word, width: nat)
    requires Holds(s, i, [ZERO] + Zeroed(v, Octal, width)) && At(s, i + 1 + |Zeroed(v, Octal, width)|) <= SPACE
    ensures Xatoi(s, i) == Parsed(true, v, i + 1 + |Zeroed(v, Octal, width)|)
  {
    hide Digits, ParseDigits, Holds;
    HoldsParts(s, i, [ZERO], Zeroed(v, Octal, width));
    HoldsOne(s, i, ZERO);
    FirstZeroed(s, i + 1, v, width);
    ZerosAndDigitsEnd(s, i + 1, Room(v, Octal, width), v, Octal);
  }

  lemma FirstZeroed(s: seq<Char>, i: nat, v: Word, width: nat)
    requires Holds(s, i, Zeroed(v, Octal, width))
    ensures IsDigit(At(s, i))
  {
    hide Digits;
    var n := Room(v, Octal, width);
    HoldsParts(s, i, Fill(n, ZERO), Digits(v, Octal));
    if n == 0 {
      FirstDigit(s, i, v, Octal);
    } else {
      HoldsChar(s, i, Fill(n, ZERO), 0);
    }
  }

  /** One printed number is read back, and the parser stops right behind it. */
  lemma ItemReadBack(s: seq<Char>, i: nat, item: Item)
    requires Holds(s, i, Body(item)) && At(s, i + |Body(item)|) <= SPACE
    ensures Xatoi(s, i) == Parsed(true, item.v, i + |Body(item)|)
  {
    hide Zeroed, Numeral, Xatoi, Holds;
    match item {
      case Decimal(v, _, _) => DecimalReadBack(s, i, v);
      case Hex(v, width, upper) => PrefixedReadBack(s, i, LETTER_X, v, HexOf(upper), width);
      case Bin(v, width) => PrefixedReadBack(s, i, LETTER_B, v, Binary, width);
      case Oct(v, width) => OctalReadBack(s, i, v, width);
    }
  }

  /** Spaces in front make no difference. */
  lemma SpacesIgnored(s: seq<Char>, i: nat, n: nat)
    requires Holds(s, i, Spaces(n))
    ensures Xatoi(s, i) == Xatoi(s, i + n)
  {
    SpacesSkipped(s, i, n);
    hide ParseDigits, SkipSpaces, Spaces;
  }

  // ----- a line of numbers -----

  function Abs(n: int): nat { if n < 0 then -n else n }

  /** Spaces on either side of a printed number, the separating space included. */
  function Before(item: Item): nat {
    if item.Decimal? && item.width > |Body(item)| then item.width - |Body(item)| else 0
  }

  function After(item: Item): nat {
    1 + if item.Decimal? && -item.width > |Body(item)| then -item.width - |Body(item)| else 0
  }

  function Printed(item: Item): seq<Char> {
    Spaces(Before(item)) + Body(item) + Spaces(After(item))
  }

  function Line(items: seq<Item>): seq<Char> {
    if items == [] then [] else Printed(items[0]) + Line(items[1..])
  }

  /** n calls of xatoi in a row, or what they return up to a failure. */
  function ReadAll(s: seq<Char>, i: nat, n: nat): seq<Word>
    requires i <= |s|
    decreases n
  {
    if n == 0 then []
    else
      var p := Xatoi(s, i);
      if p.ok && p.next <= |s| then [p.value] + ReadAll(s, p.next, n - 1) else []
  }

  function Numbers(items: seq<Item>): seq<Word> {
    seq(|items|, i requires 0 <= i < |items| => items[i].v)
  }

  lemma HoldsBound(s: seq<Char>, i: nat, t: seq<Char>)
    requires Holds(s, i, t)
    ensures i + |t| <= |s|
  {
  }

  /** The next number of a line is read, and what follows is the rest of the line. */
  lemma NextReadBack(s: seq<Char>, i: nat, gap: nat, item: Item, rest: seq<Char>)
    requires Holds(s, i, Spaces(gap) + (Printed(item) + rest))
    ensures var k := i + gap + Before(item) + |Body(item)|;
      && i <= |s| && k <= |s| && Xatoi(s, i) == Parsed(true, item.v, k)
      && Holds(s, k, Spaces(After(item)) + rest)
  {
    hide Xatoi, Body, Spaces, Holds, Before;
    var b, body, a := Before(item), Body(item), After(item);
    HoldsBound(s, i, Spaces(gap) + (Printed(item) + rest));
    HoldsParts(s, i, Spaces(gap), Printed(item) + rest);
    HoldsParts(s, i + gap, Printed(item), rest);
    HoldsParts(s, i + gap, Spaces(b) + body, Spaces(a));
    HoldsParts(s, i + gap, Spaces(b), body);
    var j := i + gap + b;
    SpacesIgnored(s, i, gap);
    SpacesIgnored(s, i + gap, b);
    FirstSpace(s, j + |body|, a);
    ItemReadBack(s, j, item);
    Regroup(s, j + |body|, a, rest);
  }

  /** Any line of printed numbers is read back by as many calls of the parser. */
  lemma {:induction false} LineReadBack(s: seq<Char>, i: nat, gap: nat, items: seq<Item>)
    requires Holds(s, i, Spaces(gap) + Line(items))
    ensures i <= |s| && ReadAll(s, i, |items|) == Numbers(items)
    decreases |items|
  {
    hide Xatoi, Body, Spaces, Holds, Before, After, Printed;
    HoldsBound(s, i, Spaces(gap) + Line(items));
    if items != [] {
      var item := items[0];
      NextReadBack(s, i, gap, item, Line(items[1..]));
      LineReadBack(s, i + gap + Before(item) + |Body(item)|, After(item), items[1..]);
      NumbersOf(items);
    }
  }

  lemma NumbersOf(items: seq<Item>)
    requires items != []
    ensures Numbers(items) == [items[0].v] + Numbers(items[1..])
  {
  }

  lemma FirstSpace(s: seq<Char>, i: nat, n: nat)
    requires n > 0 && Holds(s, i, Spaces(n))
    ensures At(s, i) == SPACE
  {
    assert s[i] == s[i..i + n][0];
  }

  lemma Regroup(s: seq<Char>, i: nat, n: nat, rest: seq<Char>)
    requires Holds(s, i, Spaces(n)) && Holds(s, i + n, rest)
    ensures Holds(s, i, Spaces(n) + rest)
  {
    assert s[i..i + n + |rest|] == s[i..i + n] + s[i + n..i + n + |rest|];
  }

  // ----- the printer prints such lines -----

  /** A width as a format spells it. */
  function Spelled(width: Word): seq<Char> { if width == 0 then [] else Digits(width, Unsigned) }

  function TypeChar(c: Conversion): Char {
    match c
    case Binary => LETTER_B
    case Octal => 111
    case Signed => 100
    case Unsigned => 117
    case HexLower => LETTER_X
    case HexUpper => 88
  }

  /** %08x and the like; %x if the width is 0. */
  function ZeroFormat(c: Conversion, width: Word): seq<Char> {
    [37] + ((if width == 0 then [] else [ZERO]) + (Spelled(width) + [TypeChar(c)]))
  }

  /** The format that prints the item: %*d with the width as an argument, or %12d, %-5d, %d, or the prefix and
      %x, %08X, %b, %o; a space in the end. */
  function FormatOf(item: Item): seq<Char>
    requires Printable(item)
  {
    match item
    case Decimal(_, width, literal) =>
      if literal then
        [37] + ((if width < 0 then [MINUS] else []) + (Spelled(Abs(width)) + [TypeChar(Signed)])) + [SPACE]
      else [37, 42, 100, SPACE]
    case Hex(_, width, upper) => [ZERO, LETTER_X] + ZeroFormat(HexOf(upper), width) + [SPACE]
    case Bin(_, width) => [ZERO, LETTER_B] + ZeroFormat(Binary, width) + [SPACE]
    case Oct(_, width) => [ZERO] + ZeroFormat(Octal, width) + [SPACE]
  }

  /** A width in the format is an unsigned int, one in an argument an int. */
  predicate Printable(item: Item) {
    item.Decimal? ==>
      if item.literal then Abs(item.width) < 0x1_0000_0000 else -0x8000_0000 < item.width < 0x8000_0000
  }

  function ArgsOf(item: Item): seq<Arg>
    requires Printable(item)
  {
    if item.Decimal? && !item.literal then
      [Num(if item.width < 0 then item.width + 0x1_0000_0000 else item.width), Num(item.v)]
    else [Num(item.v)]
  }

  lemma SpacesAre(n: nat)
    ensures Fill(n, SPACE) == Spaces(n)
  {
  }

  lemma SpacesJoin(n: nat)
    ensures Spaces(n) + [SPACE] == Spaces(n + 1) && Spaces(0) == []
  {
  }

  /** A field padded with spaces and the space behind it. */
  lemma FieldIsPrinted(item: Item)
    requires item.Decimal?
    ensures Field(item.v, Signed, Abs(item.width), item.width < 0, SPACE) + [SPACE] == Printed(item)
  {
    hide Numeral, Spaces, Fill;
    var body := Numeral(item.v, Signed);
    var room := if Abs(item.width) > |body| then Abs(item.width) - |body| else 0;
    SpacesAre(room);
    SpacesJoin(room);
    SpacesJoin(0);
    assert body + Spaces(room) + [SPACE] == [] + body + (Spaces(room) + [SPACE]);
  }

  lemma ZeroedField(v: Word, c: Conversion, width: Word, pad: Char)
    requires c != Signed && (width == 0 || pad == ZERO)
    ensures Field(v, c, width, false, pad) == Zeroed(v, c, width)
  {
    hide Digits, Fill;
    assert Numeral(v, c) == [] + Digits(v, c) == Digits(v, c);
    assert Fill(0, pad) == Fill(0, ZERO) == [];
  }

  lemma PrintPlain(fmt: seq<Char>, i: nat, args: seq<Arg>)
    requires i < |fmt| && fmt[i] != 0 && fmt[i] != 37
    ensures Print(fmt, i, args) == [fmt[i]] + Print(fmt, i + 1, args)
  {
  }

  // ----- widths in the format -----

  /** One digit more of a width. */
  lemma NumberOne(fmt: seq<Char>, i: nat, w: Word, d: nat)
    requires d < 10 && w * 10 + d < 0x1_0000_0000 && Holds(fmt, i, [DigitChar(d, Unsigned)])
    ensures Number(fmt, i, w) == Number(fmt, i + 1, w * 10 + d)
  {
    HoldsOne(fmt, i, DigitChar(d, Unsigned));
    SmallModulo(w * 10 + d);
  }

  /** The digits of a width are read back. */
  lemma {:induction false} NumberReadBack(fmt: seq<Char>, i: nat, w: Word)
    requires Holds(fmt, i, Digits(w, Unsigned))
    ensures Number(fmt, i, 0) == Number(fmt, i + |Digits(w, Unsigned)|, w)
    decreases w
  {
    hide DigitChar, Number, Digits, Holds;
    DigitsParts(w, Unsigned);
    DivMod(w, 10);
    if w < 10 {
      NumberOne(fmt, i, 0, w);
    } else {
      var front := Digits(w / 10, Unsigned);
      HoldsParts(fmt, i, front, [DigitChar(w % 10, Unsigned)]);
      DivideAtLeastHalves(w, 10);
      NumberReadBack(fmt, i, w / 10);
      NumberOne(fmt, i + |front|, w / 10, w % 10);
    }
  }

  /** The character a width and a type begin with is no flag. */
  lemma NoFlag(fmt: seq<Char>, i: nat, w: Word, c: Conversion)
    requires Holds(fmt, i, Spelled(w) + [TypeChar(c)])
    ensures At(fmt, i) !in {ZERO, MINUS, 42}
  {
    hide Digits, DigitChar, Holds;
    HoldsParts(fmt, i, Spelled(w), [TypeChar(c)]);
    if w == 0 {
      HoldsOne(fmt, i, TypeChar(c));
    } else {
      FirstDigit(fmt, i, w, Unsigned);
    }
  }

  lemma WidthReadBack(fmt: seq<Char>, i: nat, w: Word, c: Conversion)
    requires Holds(fmt, i, Spelled(w) + [TypeChar(c)])
    ensures var k := i + |Spelled(w)|;
      k < |fmt| && Number(fmt, i, 0) == (w, k) && At(fmt, k) == TypeChar(c)
  {
    hide Digits, DigitChar, Holds;
    HoldsParts(fmt, i, Spelled(w), [TypeChar(c)]);
    HoldsBound(fmt, i + |Spelled(w)|, [TypeChar(c)]);
    HoldsOne(fmt, i + |Spelled(w)|, TypeChar(c));
    if w > 0 {
      NumberReadBack(fmt, i, w);
    }
  }

  lemma TypeIs(c: Conversion)
    ensures TypeChar(c) in {98, 111, 100, 117, 120, 88} && TypeOf(TypeChar(c)) == c
  {
  }

  /** A directive of a flag, a width and a type. */
  lemma ScanIs(fmt: seq<Char>, i: nat, flag: seq<Char>, w: Word, c: Conversion, args: seq<Arg>)
    requires flag in {[], [ZERO], [MINUS]} && Holds(fmt, i, flag + (Spelled(w) + [TypeChar(c)]))
    ensures ScanDirective(fmt, i, args) ==
            Scan(Directive(c, w, flag == [MINUS], if flag == [ZERO] then ZERO else SPACE),
                 i + |flag| + |Spelled(w)| + 1, args)
    ensures i + |flag| + |Spelled(w)| < |fmt|
  {
    hide Number, Spelled, TypeChar, TypeOf, Holds;
    HoldsParts(fmt, i, flag, Spelled(w) + [TypeChar(c)]);
    var j := i + |flag|;
    NoFlag(fmt, j, w, c);
    WidthReadBack(fmt, j, w, c);
    TypeIs(c);
    if flag == [] {
      assert j == i;
    } else {
      HoldsOne(fmt, i, flag[0]);
    }
  }

  /** Printing by such a directive. */
  lemma PrintFlagged(fmt: seq<Char>, i: nat, flag: seq<Char>, w: Word, c: Conversion, v: Word, rest: seq<Arg>)
    requires flag in {[], [ZERO], [MINUS]} && Holds(fmt, i, [37] + (flag + (Spelled(w) + [TypeChar(c)])))
    ensures Print(fmt, i, [Num(v)] + rest) ==
            Field(v, c, w, flag == [MINUS], if flag == [ZERO] then ZERO else SPACE) +
            Print(fmt, i + 2 + |flag| + |Spelled(w)|, rest)
  {
    hide Field, Spelled, TypeChar, ScanDirective, Holds, Print, Others;
    HoldsParts(fmt, i, [37], flag + (Spelled(w) + [TypeChar(c)]));
    HoldsChar(fmt, i, [37], 0);
    ScanIs(fmt, i + 1, flag, w, c, [Num(v)] + rest);
    PrintScanned(fmt, i, [Num(v)] + rest);
    NextArg(v, rest);
  }

  lemma NextArg(v: Word, rest: seq<Arg>)
    ensures First([Num(v)] + rest) == v && Others([Num(v)] + rest) == rest
  {
  }

  lemma PrintScanned(fmt: seq<Char>, i: nat, args: seq<Arg>)
    requires i < |fmt| && fmt[i] == 37 && ScanDirective(fmt, i + 1, args).Scan?
    ensures var scan := ScanDirective(fmt, i + 1, args);
      Print(fmt, i, args) == Converted(scan.d, scan.args) +
                             Print(fmt, if scan.next > |fmt| then |fmt| else scan.next, Others(scan.args))
  {
    hide ScanDirective, Converted, Others;
  }

  /** Printing by %*d. */
  lemma PrintStarred(fmt: seq<Char>, i: nat, w: Word, v: Word, rest: seq<Arg>)
    requires i + 2 < |fmt| && fmt[i] == 37 && fmt[i + 1] == 42 && fmt[i + 2] == 100
    ensures Print(fmt, i, [Num(w), Num(v)] + rest) ==
            Field(v, Signed, Abs(AsInt(w)), AsInt(w) < 0, SPACE) + Print(fmt, i + 3, rest)
  {
    hide Field;
    var args := [Num(w), Num(v)] + rest;
    assert args[1..] == [Num(v)] + rest && args[1..][1..] == rest;
    assert ScanDirective(fmt, i + 1, args) ==
           Scan(Directive(Signed, Abs(AsInt(w)), AsInt(w) < 0, SPACE), i + 3, args[1..]);
  }

  // ----- items -----

  lemma TwoChars(a: Char, b: Char, t: seq<Char>)
    ensures [a] + ([b] + t) == [a, b] + t
  {
  }

  lemma Unpadded(body: seq<Char>, t: seq<Char>)
    ensures body + ([SPACE] + t) == (Spaces(0) + body + Spaces(1)) + t
  {
    SpacesJoin(0);
    hide Spaces;
  }

  lemma Grouped(a: seq<Char>, b: seq<Char>, c: seq<Char>)
    ensures a + (b + c) == (a + b) + c
  {
  }

  /** A number in another radix, then a space. */
  lemma PrintZeroed(fmt: seq<Char>, i: nat, c: Conversion, width: Word, v: Word, rest: seq<Arg>)
    requires c != Signed && Holds(fmt, i, ZeroFormat(c, width) + [SPACE])
    ensures Print(fmt, i, [Num(v)] + rest) ==
            Zeroed(v, c, width) + ([SPACE] + Print(fmt, i + |ZeroFormat(c, width)| + 1, rest))
  {
    hide Print, Field, Zeroed, Spelled, Holds, TypeChar;
    var flag: seq<Char> := if width == 0 then [] else [ZERO];
    HoldsParts(fmt, i, ZeroFormat(c, width), [SPACE]);
    PrintFlagged(fmt, i, flag, width, c, v, rest);
    PrintSpace(fmt, i + |ZeroFormat(c, width)|, rest);
    ZeroedField(v, c, width, if flag == [ZERO] then ZERO else SPACE);
  }

  lemma PrintSpace(fmt: seq<Char>, i: nat, args: seq<Arg>)
    requires Holds(fmt, i, [SPACE])
    ensures Print(fmt, i, args) == [SPACE] + Print(fmt, i + 1, args)
  {
    HoldsChar(fmt, i, [SPACE], 0);
  }

  /** The same behind a literal prefix. */
  lemma PrintPrefixed(fmt: seq<Char>, i: nat, prefix: seq<Char>, c: Conversion, width: Word, v: Word, rest: seq<Arg>)
    requires prefix in {[ZERO], [ZERO, LETTER_X], [ZERO, LETTER_B]}
    requires c != Signed && Holds(fmt, i, prefix + ZeroFormat(c, width) + [SPACE])
    ensures Print(fmt, i, [Num(v)] + rest) ==
            (Spaces(0) + (prefix + Zeroed(v, c, width)) + Spaces(1)) +
            Print(fmt, i + |prefix| + |ZeroFormat(c, width)| + 1, rest)
  {
    hide Print, Zeroed, ZeroFormat, Spaces, Holds;
    Grouped(prefix, ZeroFormat(c, width), [SPACE]);
    HoldsParts(fmt, i, prefix, ZeroFormat(c, width) + [SPACE]);
    var args, end := [Num(v)] + rest, Print(fmt, i + |prefix| + |ZeroFormat(c, width)| + 1, rest);
    PrintPrefix(fmt, i, prefix, args);
    PrintZeroed(fmt, i + |prefix|, c, width, v, rest);
    Grouped(prefix, Zeroed(v, c, width), [SPACE] + end);
    Unpadded(prefix + Zeroed(v, c, width), end);
  }

  lemma PrintPrefix(fmt: seq<Char>, i: nat, prefix: seq<Char>, args: seq<Arg>)
    requires prefix in {[ZERO], [ZERO, LETTER_X], [ZERO, LETTER_B]} && Holds(fmt, i, prefix)
    ensures Print(fmt, i, args) == prefix + Print(fmt, i + |prefix|, args)
  {
    hide Print;
    HoldsChar(fmt, i, prefix, 0);
    PrintPlain(fmt, i, args);
    if |prefix| == 2 {
      HoldsChar(fmt, i, prefix, 1);
      PrintPlain(fmt, i + 1, args);
      TwoChars(ZERO, prefix[1], Print(fmt, i + 2, args));
    }
  }

  lemma PrintSpelled(fmt: seq<Char>, i: nat, item: Item, rest: seq<Arg>)
    requires item.Decimal? && item.literal && Printable(item) && Holds(fmt, i, FormatOf(item))
    ensures Print(fmt, i, ArgsOf(item) + rest) ==
            Field(item.v, Signed, Abs(item.width), item.width < 0, SPACE) +
            ([SPACE] + Print(fmt, i + |FormatOf(item)|, rest))
  {
    hide Print, Field, Spelled, Holds, TypeChar;
    var flag: seq<Char> := if item.width < 0 then [MINUS] else [];
    var directive := [37] + (flag + (Spelled(Abs(item.width)) + [TypeChar(Signed)]));
    HoldsParts(fmt, i, directive, [SPACE]);
    PrintFlagged(fmt, i, flag, Abs(item.width), Signed, item.v, rest);
    PrintSpace(fmt, i + |directive|, rest);
  }

  lemma PrintHandedOver(fmt: seq<Char>, i: nat, item: Item, rest: seq<Arg>)
    requires item.Decimal? && !item.literal && Printable(item) && Holds(fmt, i, FormatOf(item))
    ensures Print(fmt, i, ArgsOf(item) + rest) ==
            Field(item.v, Signed, Abs(item.width), item.width < 0, SPACE) +
            ([SPACE] + Print(fmt, i + |FormatOf(item)|, rest))
  {
    hide Print, Field, Holds;
    var f := FormatOf(item);
    HoldsChar(fmt, i, f, 0);
    HoldsChar(fmt, i, f, 1);
    HoldsChar(fmt, i, f, 2);
    HoldsChar(fmt, i, f, 3);
    var w := ArgsOf(item)[0].w;
    assert AsInt(w) == item.width;
    PrintStarred(fmt, i, w, item.v, rest);
    PrintPlain(fmt, i + 3, rest);
  }

  lemma PrintDecimal(fmt: seq<Char>, i: nat, item: Item, rest: seq<Arg>)
    requires item.Decimal? && Printable(item) && Holds(fmt, i, FormatOf(item))
    ensures Print(fmt, i, ArgsOf(item) + rest) == Printed(item) + Print(fmt, i + |FormatOf(item)|, rest)
  {
    hide Print, Field, Printed, FormatOf, ArgsOf, Holds;
    if item.literal {
      PrintSpelled(fmt, i, item, rest);
    } else {
      PrintHandedOver(fmt, i, item, rest);
    }
    FieldIsPrinted(item);
    Grouped(Field(item.v, Signed, Abs(item.width), item.width < 0, SPACE), [SPACE],
            Print(fmt, i + |FormatOf(item)|, rest));
  }

  lemma PrintItem(fmt: seq<Char>, i: nat, item: Item, rest: seq<Arg>)
    requires Printable(item) && Holds(fmt, i, FormatOf(item))
    ensures Print(fmt, i, ArgsOf(item) + rest) == Printed(item) + Print(fmt, i + |FormatOf(item)|, rest)
  {
    hide Print, Zeroed, ZeroFormat, Spaces, Holds, Numeral;
    match item {
      case Decimal(_, _, _) => PrintDecimal(fmt, i, item, rest);
      case Hex(v, width, upper) => PrintPrefixed(fmt, i, [ZERO, LETTER_X], HexOf(upper), width, v, rest);
      case Bin(v, width) => PrintPrefixed(fmt, i, [ZERO, LETTER_B], Binary, width, v, rest);
      case Oct(v, width) => PrintPrefixed(fmt, i, [ZERO], Octal, width, v, rest);
    }
  }

  function Formats(items: seq<Item>): seq<Char>
    requires forall i :: 0 <= i < |items| ==> Printable(items[i])
  {
    if items == [] then [] else FormatOf(items[0]) + Formats(items[1..])
  }

  function AllArgs(items: seq<Item>): seq<Arg>
    requires forall i :: 0 <= i < |items| ==> Printable(items[i])
  {
    if items == [] then [] else ArgsOf(items[0]) + AllArgs(items[1..])
  }

  lemma PrintNothing(fmt: seq<Char>)
    ensures Print(fmt, |fmt|, []) == []
  {
  }

  lemma {:induction false} PrintLine(fmt: seq<Char>, i: nat, items: seq<Item>)
    requires forall k :: 0 <= k < |items| ==> Printable(items[k])
    requires Holds(fmt, i, Formats(items)) && i + |Formats(items)| == |fmt|
    ensures Print(fmt, i, AllArgs(items)) == Line(items)
    decreases |items|
  {
    hide FormatOf, ArgsOf, Printed, Print, Printable, Holds;
    if items == [] {
      PrintNothing(fmt);
    } else {
      var f := FormatOf(items[0]);
      HoldsParts(fmt, i, f, Formats(items[1..]));
      PrintItem(fmt, i, items[0], AllArgs(items[1..]));
      PrintLine(fmt, i + |f|, items[1..]);
    }
  }

  /** Printing and parsing are inverse: any list of 32-bit numbers, printed by one call of the printer in
      decimal with any width and justification, spelled out in the format or handed over as an argument, or
      in hexadecimal, binary or octal behind 0x, 0b or 0 with zeros up to any width, is recovered number by
      number by repeated calls of the parser. */
  lemma PrintedLinesReadBack(items: seq<Item>)
    requires forall k :: 0 <= k < |items| ==> Printable(items[k])
    ensures ReadAll(Print(Formats(items), 0, AllArgs(items)), 0, |items|) == Numbers(items)
  {
    var fmt := Formats(items);
    assert fmt[0..|fmt|] == fmt;
    PrintLine(fmt, 0, items);
    var s := Line(items);
    SpacesJoin(0);
    assert Spaces(0) + s == s && s[0..|s|] == s;
    hide Spaces, Line, Formats, Print, ReadAll, Numbers;
    LineReadBack(s, 0, 0, items);
  }

  // ----- zeros in front of a decimal -----

  /** What the decimal digits of v mean in octal; -1 if there is an 8 or a 9 among them. */
  function AsOctal(v: nat): (u: int)
    ensures -1 <= u <= v && (u == v <==> v < 8)
  {
    if v < 8 then v
    else if v < 10 || v % 10 >= 8 || AsOctal(v / 10) < 0 then -1
    else AsOctal(v / 10) * 8 + v % 10
  }

  lemma OctalOne(s: seq<Char>, i: nat, val: Word, d: nat)
    requires d < 10 && val * 8 + d < 0x1_0000_0000 && Holds(s, i, [DigitChar(d, Signed)])
    ensures i < |s|
    ensures if d < 8 then ParseDigits(s, i, 8, val) == ParseDigits(s, i + 1, 8, val * 8 + d)
            else !ParseDigits(s, i, 8, val).ok
  {
    hide DigitOf;
    if d < 8 {
      ReadOne(s, i, 8, val, d, Octal);
    } else {
      DigitTakenBack(d, Signed);
      HoldsOne(s, i, DigitChar(d, Signed));
    }
  }

  /** Decimal digits read in octal. */
  lemma {:induction false} DigitsInOctal(s: seq<Char>, i: nat, v: Word)
    requires Holds(s, i, Digits(v, Signed))
    ensures i + |Digits(v, Signed)| <= |s|
    ensures if AsOctal(v) < 0 then !ParseDigits(s, i, 8, 0).ok
            else ParseDigits(s, i, 8, 0) == ParseDigits(s, i + |Digits(v, Signed)|, 8, AsOctal(v))
    decreases v
  {
    hide DigitChar, ParseDigits, Digits, Holds;
    DigitsParts(v, Signed);
    HoldsBound(s, i, Digits(v, Signed));
    DivMod(v, 10);
    if v < 10 {
      OctalOne(s, i, 0, v);
    } else {
      var front := Digits(v / 10, Signed);
      HoldsParts(s, i, front, [DigitChar(v % 10, Signed)]);
      DivideAtLeastHalves(v, 10);
      DigitsInOctal(s, i, v / 10);
      if AsOctal(v / 10) >= 0 {
        OctalOne(s, i + |front|, AsOctal(v / 10), v % 10);
      }
    }
  }

  /** A decimal with zeros in front, as %05d prints it, is taken for octal: it is read back if and only if it
      is one of 0 to 7. */
  lemma ZeroPaddedDecimals(s: seq<Char>, i: nat, v: Word, width: nat)
    requires width > |Numeral(v, Signed)| && Holds(s, i, Field(v, Signed, width, false, ZERO))
    requires At(s, i + width) <= SPACE
    ensures i <= |s| && (Xatoi(s, i) == Parsed(true, v, i + width) <==> v < 8)
  {
    hide Digits, Holds, Fill;
    var n := width - |Numeral(v, Signed)|;
    FillStep(n, ZERO);
    Grouped([ZERO], Fill(n - 1, ZERO), Numeral(v, Signed));
    HoldsParts(s, i, [ZERO], Fill(n - 1, ZERO) + Numeral(v, Signed));
    HoldsOne(s, i, ZERO);
    HoldsBound(s, i, [ZERO]);
    ZerosThenNumeral(s, i + 1, n - 1, v);
    hide ParseDigits, Numeral;
  }

  lemma ZerosThenNumeral(s: seq<Char>, i: nat, n: nat, v: Word)
    requires Holds(s, i, Fill(n, ZERO) + Numeral(v, Signed))
    requires At(s, i + n + |Numeral(v, Signed)|) <= SPACE
    ensures i <= |s| && At(s, i) !in {120, 98} && At(s, i) > SPACE
    ensures IsDigit(At(s, i)) && ParseDigits(s, i, 8, 0) == Parsed(true, v, i + n + |Numeral(v, Signed)|) <==> v < 8
  {
    hide Digits, Holds, Fill, AsOctal;
    HoldsParts(s, i, Fill(n, ZERO), Numeral(v, Signed));
    ZerosSkipped(s, i, n, Octal);
    var j := i + n;
    if Negative(v) {
      HoldsParts(s, j, [MINUS], Digits(Magnitude(v, Signed), Signed));
      HoldsOne(s, j, MINUS);
      assert DigitOf(MINUS) == 246;
    } else {
      assert Numeral(v, Signed) == Digits(v, Signed);
      FirstDigit(s, j, v, Signed);
      DigitsInOctal(s, j, v);
    }
    if n > 0 {
      FirstZero(s, i, n);
    }
  }

  lemma FirstZero(s: seq<Char>, i: nat, n: nat)
    requires n > 0 && Holds(s, i, Fill(n, ZERO))
    ensures At(s, i) == ZERO
  {
    HoldsChar(s, i, Fill(n, ZERO), 0);
  }
}
