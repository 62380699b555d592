/** The printer and the parser of xprintf.c as they work: a digit buffer filled from the low end and
    emptied from the high one, and cursors that move along the format and the string. */
module XprintfLoops {
  import opened Xprintf

  function Reversed(s: seq<Char>): (r: seq<Char>)
    ensures |r| == |s|
  {
    if s == [] then [] else [s[|s| - 1]] + Reversed(s[..|s| - 1])
  }

  lemma ReversedOne(s: seq<Char>, i: nat)
    requires i < |s|
    ensures Reversed(s[..i + 1]) == [s[i]] + Reversed(s[..i])
  {
    assert s[..i + 1][..i] == s[..i];
  }

  /** One round of the digit loop: the lowest digit of uv goes in front of those already in the buffer. */
  lemma DigitMoves(uv: nat, c: Conversion, done: seq<Char>)
    ensures var low := [DigitChar(uv % Radix(c), c)] + done;
      Digits(uv, c) + done == if uv / Radix(c) == 0 then low else Digits(uv / Radix(c), c) + low
  {
    hide Digits, DigitChar;
    DigitsParts(uv, c);
    DivMod(uv, Radix(c));
    QuotientZero(uv, Radix(c));
    if uv >= Radix(c) {
      Grouped(Digits(uv / Radix(c), c), [DigitChar(uv % Radix(c), c)], done);
    }
  }

  lemma QuotientZero(v: nat, r: nat)
    requires r > 0
    ensures v / r == 0 <==> v < r
    ensures v < r ==> v % r == v
  {
  }

  lemma FillOne(n: nat, c: Char)
    ensures Fill(n, c) + [c] == Fill(n + 1, c) && Fill(0, c) == []
  {
  }

  lemma ShortenedLength(s: seq<Char>, precision: int)
    ensures |Shortened(s, precision)| == if precision >= 0 && |s| > precision then precision else |s|
  {
  }

  /** The output function that the printer is given, and what has been put through it. */
  class Printer {
    var out: seq<Char>

    constructor ()
      ensures out == []
    {
      out := [];
    }

    /** xfputc */
    method Put(c: Char)
      modifies this
      ensures out == old(out) + [c]
    {
      out := out + [c];
    }

    method PutMany(n: nat, c: Char)
      modifies this
      ensures out == old(out) + Fill(n, c)
    {
      var j := 0;
      FillOne(0, c);
      while j < n
        invariant j <= n && out == old(out) + Fill(j, c)
      {
        FillOne(j, c);
        Put(c);
        j := j + 1;
      }
    }

    /** One more character in the buffer. */
    method PutDigit(str: array<Char>, i: nat, c: Char)
      requires i < str.Length
      modifies str
      ensures Reversed(str[..i + 1]) == [c] + Reversed(old(str[..i]))
    {
      hide Reversed;
      ghost var before := str[..i];
      str[i] := c;
      assert str[..i] == before;
      assert str[..i + 1] == str[..][..i + 1] && str[..i] == str[..][..i];
      ReversedOne(str[..], i);
    }

    /** The digit loop: the buffer is filled from the lowest digit, and large enough for all of them. */
    method MakeDigits(v: Word, c: Conversion, str: array<Char>) returns (i: nat)
      requires str.Length == SZB_OUTPUT && |Digits(v, c)| <= SZB_OUTPUT
      modifies str
      ensures 0 < i <= SZB_OUTPUT && Reversed(str[..i]) == Digits(v, c)
    {
      hide Digits, DigitChar, Reversed;
      var r := Radix(c);
      var uv: nat := v;
      assert Reversed(str[..0]) == [];
      i := 0;
      var more := true;
      while more
        invariant i <= SZB_OUTPUT && (i == 0 ==> more)
        invariant Digits(v, c) == if more then Digits(uv, c) + Reversed(str[..i]) else Reversed(str[..i])
        invariant more ==> i < SZB_OUTPUT
        decreases more, SZB_OUTPUT - i
      {
        var d := uv % r;
        DivMod(uv, r);
        DigitMoves(uv, c, Reversed(str[..i]));
        uv := uv / r;
        PutDigit(str, i, DigitChar(d, c));
        i := i + 1;
        more := uv != 0 && i < SZB_OUTPUT;
      }
    }

    /** Digits, and the sign behind them. */
    method MakeNumeral(v: Word, c: Conversion, str: array<Char>) returns (i: nat)
      requires str.Length == SZB_OUTPUT
      modifies str
      ensures 0 < i <= SZB_OUTPUT && Reversed(str[..i]) == Numeral(v, c)
    {
      hide Digits, Magnitude;
      NumeralFits(v, c);
      i := MakeDigits(Magnitude(v, c), c, str);
      if c == Signed && Negative(v) {
        PutDigit(str, i, MINUS);
        i := i + 1;
      }
    }

    /** The buffer is put out from its high end. */
    method PutBuffer(str: array<Char>, length: nat)
      requires length <= str.Length
      modifies this
      ensures out == old(out) + Reversed(str[..length])
    {
      var i := length;
      ghost var body := Reversed(str[..length]);
      while i != 0
        invariant 0 <= i <= length && out == old(out) + body[..length - i] && Reversed(str[..i]) == body[length - i..]
      {
        i := i - 1;
        assert str[..i + 1] == str[..][..i + 1] && str[..i] == str[..][..i];
        ReversedOne(str[..], i);
        assert body[length - i - 1] == str[i];
        Put(str[i]);
      }
    }

    /** The second half of a conversion in xvfprintf: sign, digits and padding. */
    method PutNumber(v: Word, c: Conversion, width: nat, left: bool, pad: Char)
      modifies this
      ensures out == old(out) + Field(v, c, width, left, pad)
    {
      hide Numeral, Fill, Spaces, Reversed;
      var str := new Char[SZB_OUTPUT];
      var i := MakeNumeral(v, c, str);
      var room: nat := if width > i then width - i else 0;
      if !left {
        PutMany(room, pad);
      }
      PutBuffer(str, i);
      if left {
        PutMany(room, SPACE);
        SpacesAre(room);
      }
    }

    /** As many characters of a string as the precision lets through. */
    method PutBody(p: Chars, precision: int)
      modifies this
      ensures out == old(out) + Shortened(p, precision)
    {
      ghost var body := Shortened(p, precision);
      var k, rest := 0, precision;
      while k < |p| && rest != 0
        invariant k <= |body| && out == old(out) + body[..k] && rest == precision - k
      {
        Put(p[k]);
        k := k + 1;
        rest := rest - 1;
      }
      assert body[..k] == body;
    }

    /** The case of a string: pads, the body, pads. */
    method PutText(p: Chars, width: nat, left: bool, pad: Char, precision: int)
      modifies this
      ensures out == old(out) + Padded(Shortened(p, precision), width, left, pad)
    {
      hide Fill, Spaces, Shortened;
      ShortenedLength(p, precision);
      var j := |p|;
      if precision >= 0 && j > precision {
        j := precision;
      }
      var room: nat := if width > j then width - j else 0;
      SpacesAre(room);
      if !left {
        PutMany(room, pad);
      }
      PutBody(p, precision);
      if left {
        PutMany(room, SPACE);
      }
    }

    /** One argument by one directive. */
    method PutConverted(d: Directive, args: seq<Arg>)
      modifies this
      ensures out == old(out) + Converted(d, args)
    {
      hide Field, Padded;
      match d {
        case Directive(c, width, left, pad) => PutNumber(First(args), c, width, left, pad);
        case Text(width, left, pad, precision) => PutText(FirstText(args), width, left, pad, precision);
      }
    }

    /** xvfprintf without floating point. */
    method Printf(fmt: seq<Char>, args0: seq<Arg>)
      modifies this
      ensures out == old(out) + Print(fmt, 0, args0)
    {
      hide Converted, ScanDirective;
      var i, args := 0, args0;
      ghost var all := Print(fmt, 0, args0);
      while i < |fmt| && fmt[i] != 0
        invariant i <= |fmt| && out + Print(fmt, i, args) == old(out) + all
        decreases |fmt| - i
      {
        ghost var before := out;
        if fmt[i] != 37 {
          Put(fmt[i]);
          Grouped(before, [fmt[i]], Print(fmt, i + 1, args));
          i := i + 1;
        } else {
          var scan := ReadDirective(fmt, i + 1, args);
          if scan == End {
            break;
          }
          if scan.Pass? {
            Put(scan.c);
            args := scan.args;
          } else {
            PutConverted(scan.d, scan.args);
            args := Others(scan.args);
          }
          i := if scan.next > |fmt| then |fmt| else scan.next;
          Grouped(before, out[|before|..], Print(fmt, i, args));
        }
      }
    }

    /** A run of digits in the format. */
    static method ReadNumber(fmt: seq<Char>, start: nat) returns (w: Word, i: nat)
      ensures (w, i) == Number(fmt, start, 0)
    {
      w, i := 0, start;
      while IsDigit(At(fmt, i))
        invariant i >= start && Number(fmt, i, w) == Number(fmt, start, 0)
        decreases |fmt| - i
      {
        w := (w * 10 + (At(fmt, i) - ZERO)) % 0x1_0000_0000;
        i := i + 1;
      }
    }

    static method ReadWidth(fmt: seq<Char>, start: nat, minus: bool, args0: seq<Arg>)
      returns (width: nat, left: bool, i: nat, args: seq<Arg>)
      ensures Width(width, left, i, args) == ScanWidth(fmt, start, minus, args0)
    {
      hide Number;
      i, args, left := start, args0, minus;
      if At(fmt, i) == 42 {
        var n := AsInt(First(args));
        args := Others(args);
        if n < 0 {
          n := -n;
          left := true;
        }
        width := n;
        i := i + 1;
      } else {
        width, i := ReadNumber(fmt, i);
      }
    }

    static method ReadPrecision(fmt: seq<Char>, start: nat, args0: seq<Arg>)
      returns (precision: int, i: nat, args: seq<Arg>)
      ensures (precision, i, args) == ScanPrecision(fmt, start, args0)
    {
      hide Number;
      precision, i, args := -1, start, args0;
      if At(fmt, i) == 46 {
        i := i + 1;
        if At(fmt, i) == 42 {
          precision := AsInt(First(args));
          args := Others(args);
          i := i + 1;
        } else {
          var digits;
          digits, i := ReadNumber(fmt, i);
          precision := AsInt(digits);
        }
      }
    }

    /** The first half of a conversion in xvfprintf: flags, width, precision, size and type. */
    static method ReadDirective(fmt: seq<Char>, start: nat, args0: seq<Arg>) returns (scan: Scan)
      ensures scan == ScanDirective(fmt, start, args0)
    {
      hide ScanWidth, ScanPrecision;
      var i, pad, left := start, SPACE, false;
      if At(fmt, i) == ZERO {
        pad := ZERO;
        i := i + 1;
      } else if At(fmt, i) == MINUS {
        left := true;
        i := i + 1;
      }
      var width, args;
      width, left, i, args := ReadWidth(fmt, i, left, args0);
      var precision;
      precision, i, args := ReadPrecision(fmt, i, args);
      if At(fmt, i) == 108 {
        i := i + 1;
      }
      var c := At(fmt, i);
      if c == 0 {
        scan := End;
      } else if c in {98, 111, 100, 117, 120, 88} {
        scan := Scan(Directive(TypeOf(c), width, left, pad), i + 1, args);
      } else if c == 99 {
        scan := Pass(First(args) % 256, i + 1, Others(args));
      } else if c == 115 {
        scan := Scan(Text(width, left, pad, precision), i + 1, args);
      } else {
        scan := Pass(c, i + 1, args);
      }
    }
  }

  /** The string handed to the parser and the pointer that it moves. */
  class Reader {
    const text: seq<Char>
    var pos: nat

    ghost predicate Valid()
      reads this
    {
      pos <= |text|
    }

    constructor (text: seq<Char>)
      ensures Valid() && this.text == text && pos == 0
    {
      this.text := text;
      pos := 0;
    }

    /** The loop over the digits. */
    method ReadDigits(r: nat, negative: bool) returns (ok: bool, value: Word)
      requires Valid() && 2 <= r <= 16
      modifies this
      ensures Valid() && Parsed(ok, value, pos) == WithSign(ParseDigits(text, old(pos), r, 0), negative)
    {
      hide DigitOf;
      var val: Word := 0;
      while At(text, pos) > SPACE
        invariant Valid() && ParseDigits(text, pos, r, val) == ParseDigits(text, old(pos), r, 0)
        decreases |text| - pos
      {
        var d := DigitOf(At(text, pos));
        if d >= r {
          return false, 0;
        }
        val := (val * r + d) % 0x1_0000_0000;
        pos := pos + 1;
      }
      return true, if negative then Negate(val) else val;
    }

    /** xatoi */
    method ReadLong() returns (ok: bool, value: Word)
      requires Valid()
      modifies this
      ensures Valid() && Parsed(ok, value, pos) == Xatoi(text, old(pos))
    {
      hide ParseDigits, WithSign;
      while At(text, pos) == SPACE
        invariant Valid() && SkipSpaces(text, pos) == SkipSpaces(text, old(pos))
        decreases |text| - pos
      {
        pos := pos + 1;
      }
      hide SkipSpaces;
      var negative := At(text, pos) == MINUS;
      if negative {
        pos := pos + 1;
      }
      if At(text, pos) == ZERO {
        pos := pos + 1;
        var c := At(text, pos);
        if c == 120 {
          pos := pos + 1;
          ok, value := ReadDigits(16, negative);
        } else if c == 98 {
          pos := pos + 1;
          ok, value := ReadDigits(2, negative);
        } else if c <= SPACE {
          return true, 0;
        } else if !IsDigit(c) {
          return false, 0;
        } else {
          ok, value := ReadDigits(8, negative);
        }
      } else if !IsDigit(At(text, pos)) {
        return false, 0;
      } else {
        ok, value := ReadDigits(10, negative);
      }
    }
  }
}
