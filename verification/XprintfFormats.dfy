/** What every directive of xprintf prints: whatever flags, width, precision and size it is spelled with. */
module XprintfFormats {
  import opened Xprintf

  /** A number in the format or from an argument; 0 in the format is nothing at all. */
  datatype Amount = Given(n: Word) | Handed(n: Word)

  datatype What =
    | Numeric(conversion: Conversion, v: Word)
    | Str(s: Chars)
    | Single(v: Word)
    | Other(c: Char)

  /** A character of the format that stands for itself, or a directive. */
  datatype Piece =
    | Literal(c: Char)
    | Directive(flag: seq<Char>, width: Amount, precise: bool, precision: Amount, long: bool, what: What)

  const STAR: Char := 42
  const DOT: Char := 46
  const LONG: Char := 108
  const LETTER_C: Char := 99
  const LETTER_S: Char := 115
  const PERCENT: Char := 37

  predicate IsTypeLetter(c: Char) { c in {98, 111, 100, 117, 120, 88, LETTER_C, LETTER_S} }

  /** A character that means nothing in a directive. */
  predicate MeansNothing(c: Char) {
    c != 0 && c != MINUS && c != STAR && c != DOT && c != LONG && !IsDigit(c) && !IsTypeLetter(c)
  }

  predicate WellFormed(p: Piece) {
    match p
    case Literal(c) => c != PERCENT && c != 0
    case Directive(flag, _, _, _, _, what) =>
      flag in {[], [ZERO], [MINUS]} && (what.Other? ==> MeansNothing(what.c))
  }

  // ----- how it is spelled -----

  function SpelledAmount(a: Amount): seq<Char> {
    match a
    case Given(n) => Spelled(n)
    case Handed(_) => [STAR]
  }

  function SpelledPrecision(precise: bool, a: Amount): seq<Char> {
    if precise then [DOT] + SpelledAmount(a) else []
  }

  function Letter(w: What): Char {
    match w
    case Numeric(c, _) => TypeChar(c)
    case Str(_) => LETTER_S
    case Single(_) => LETTER_C
    case Other(c) => c
  }

  function Tail(long: bool, w: What): seq<Char> { (if long then [LONG] else []) + [Letter(w)] }

  function FormatOf(p: Piece): seq<Char> {
    match p
    case Literal(c) => [c]
    case Directive(flag, width, precise, precision, long, what) =>
      [PERCENT] + (flag + (SpelledAmount(width) + (SpelledPrecision(precise, precision) + Tail(long, what))))
  }

  function AmountArgs(a: Amount): seq<Arg> { if a.Handed? then [Arg.Num(a.n)] else [] }

  function PrecisionArgs(precise: bool, a: Amount): seq<Arg> { if precise then AmountArgs(a) else [] }

  function WhatArgs(w: What): seq<Arg> {
    match w
    case Numeric(_, v) => [Arg.Num(v)]
    case Str(s) => [Arg.Str(s)]
    case Single(v) => [Arg.Num(v)]
    case Other(_) => []
  }

  function ArgsOf(p: Piece): seq<Arg> {
    match p
    case Literal(_) => []
    case Directive(_, width, precise, precision, _, what) =>
      AmountArgs(width) + (PrecisionArgs(precise, precision) + WhatArgs(what))
  }

  // ----- what it prints -----

  function WidthOf(a: Amount): nat { if a.Given? then a.n else Abs(AsInt(a.n)) }

  predicate ToTheLeft(flag: seq<Char>, a: Amount) { flag == [MINUS] || (a.Handed? && AsInt(a.n) < 0) }

  /** -1 is no limit. */
  function Limit(precise: bool, a: Amount): int { if precise then AsInt(a.n) else -1 }

  /** A number in a field, a string cut short in a field, a character, or the letter itself. */
  function Printout(p: Piece): seq<Char> {
    match p
    case Literal(c) => [c]
    case Directive(flag, width, precise, precision, _, what) =>
      var n, left, pad := WidthOf(width), ToTheLeft(flag, width), if flag == [ZERO] then ZERO else SPACE;
      match what
      case Numeric(c, v) => Padded(Numeral(v, c), n, left, pad)
      case Str(s) => Padded(Shortened(s, Limit(precise, precision)), n, left, pad)
      case Single(v) => [v % 256]
      case Other(c) => [c]
  }

  /** A body in a field: the field is as wide as asked for or as the body needs, with the body on the left and spaces
      after it, or on the right and pads before it. */
  lemma PaddedIs(body: seq<Char>, width: nat, left: bool, pad: Char)
    ensures var r, n := Padded(body, width, left, pad), |body|;
      && |r| == (if width > n then width else n)
      && (left ==> r[..n] == body && forall i :: n <= i < |r| ==> r[i] == SPACE)
      && (!left ==> r[|r| - n..] == body && forall i :: 0 <= i < |r| - n ==> r[i] == pad)
  {
  }

  /** A precision keeps that many leading characters, or all if there are fewer or it is negative. */
  lemma ShortenedIs(s: seq<Char>, precision: int)
    ensures var r := Shortened(s, precision);
      r <= s && |r| == (if precision < 0 || precision > |s| then |s| else precision)
  {
  }

  /** The digits are 0 to 9, and beyond them a to f, or A to F. */
  lemma DigitCharIs(d: nat, c: Conversion)
    requires d < 16
    ensures d < 10 ==> DigitChar(d, c) == ZERO + d
    ensures d >= 10 && c == HexLower ==> DigitChar(d, c) == 97 + (d - 10)
    ensures d >= 10 && c != HexLower ==> DigitChar(d, c) == 65 + (d - 10)
  {
  }

  // ----- scanning -----

  lemma NotADigit(fmt: seq<Char>, k: nat, w: Word)
    requires !IsDigit(At(fmt, k))
    ensures Number(fmt, k, w) == (w, k)
  {
  }

  /** An amount in the format is read, and what follows is left. */
  lemma AmountRead(fmt: seq<Char>, i: nat, n: Word)
    requires Holds(fmt, i, Spelled(n)) && !IsDigit(At(fmt, i + |Spelled(n)|))
    ensures Number(fmt, i, 0) == (n, i + |Spelled(n)|)
  {
    hide Number, Digits, Holds;
    NotADigit(fmt, i + |Spelled(n)|, n);
    if n > 0 {
      NumberReadBack(fmt, i, n);
    }
  }

  lemma TypeLetters(c: Conversion)
    ensures IsTypeLetter(TypeChar(c)) && TypeChar(c) !in {LETTER_C, LETTER_S} && TypeOf(TypeChar(c)) == c
  {
    TypeIs(c);
  }

  /** The letter behind the size, whatever it is, is no part of an amount or a flag. */
  lemma TailBegins(fmt: seq<Char>, k: nat, long: bool, w: What)
    requires Holds(fmt, k, Tail(long, w)) && (w.Other? ==> MeansNothing(w.c))
    ensures !IsDigit(At(fmt, k)) && At(fmt, k) !in {MINUS, STAR, DOT}
    ensures var j := if long then k + 1 else k; j < |fmt| && At(fmt, j) == Letter(w) && (At(fmt, k) == LONG <==> long)
  {
    if w.Numeric? { TypeLetters(w.conversion); }
    hide TypeChar, Holds;
    HoldsChar(fmt, k, Tail(long, w), 0);
    HoldsChar(fmt, k, Tail(long, w), |Tail(long, w)| - 1);
  }

  function Scanned(width: nat, left: bool, pad: Char, precision: int, what: What, next: nat, args: seq<Arg>): Scan {
    match what
    case Numeric(c, _) => Scan(Xprintf.Directive.Directive(c, width, left, pad), next, args)
    case Str(_) => Scan(Text(width, left, pad, precision), next, args)
    case Single(_) => Pass(First(args) % 256, next, Others(args))
    case Other(c) => Pass(c, next, args)
  }

  lemma TypeScanned(fmt: seq<Char>, k: nat, long: bool, what: What, w: Width, pad: Char, precision: int, args: seq<Arg>)
    requires Holds(fmt, k, Tail(long, what)) && (what.Other? ==> MeansNothing(what.c))
    ensures ScanType(fmt, k, w, pad, precision, args) ==
            Scanned(w.width, w.left, pad, precision, what, k + |Tail(long, what)|, args)
    ensures k + |Tail(long, what)| <= |fmt|
  {
    TailBegins(fmt, k, long, what);
    if what.Numeric? { TypeLetters(what.conversion); }
    hide TypeChar, TypeOf, Holds;
  }

  lemma PrecisionScanned(fmt: seq<Char>, i: nat, precise: bool, a: Amount, rest: seq<Char>, args: seq<Arg>)
    requires Holds(fmt, i, SpelledPrecision(precise, a) + rest) && rest != []
    requires !IsDigit(rest[0]) && rest[0] != STAR && rest[0] != DOT
    ensures ScanPrecision(fmt, i, PrecisionArgs(precise, a) + args) ==
            (Limit(precise, a), i + |SpelledPrecision(precise, a)|, args)
  {
    hide Holds, Spelled, Number;
    var spelled := SpelledPrecision(precise, a);
    HoldsParts(fmt, i, spelled, rest);
    HoldsChar(fmt, i + |spelled|, rest, 0);
    if precise {
      HoldsChar(fmt, i, spelled, 0);
      HoldsParts(fmt, i, [DOT], SpelledAmount(a));
      if a.Handed? {
        HoldsChar(fmt, i, spelled, 1);
        assert ([Arg.Num(a.n)] + args)[1..] == args;
      } else {
        AmountRead(fmt, i + 1, a.n);
        AmountBegins(fmt, i + 1, a.n);
        assert [] + args == args;
      }
    } else {
      assert [] + args == args;
    }
  }

  /** An amount in the format does not begin with a star. */
  lemma AmountBegins(fmt: seq<Char>, i: nat, n: Word)
    requires Holds(fmt, i, Spelled(n)) && At(fmt, i + |Spelled(n)|) != STAR && !IsDigit(At(fmt, i + |Spelled(n)|))
    ensures At(fmt, i) != STAR
  {
    if n > 0 {
      FirstDigit(fmt, i, n, Unsigned);
    }
    hide Holds, Digits;
  }

  lemma WidthScanned(fmt: seq<Char>, i: nat, flag: seq<Char>, a: Amount, rest: seq<Char>, args: seq<Arg>)
    requires Holds(fmt, i, SpelledAmount(a) + rest) && rest != [] && !IsDigit(rest[0]) && rest[0] != STAR
    ensures ScanWidth(fmt, i, flag == [MINUS], AmountArgs(a) + args) ==
            Width(WidthOf(a), ToTheLeft(flag, a), i + |SpelledAmount(a)|, args)
  {
    hide Holds, Spelled, Number;
    HoldsParts(fmt, i, SpelledAmount(a), rest);
    HoldsChar(fmt, i + |SpelledAmount(a)|, rest, 0);
    if a.Handed? {
      HoldsChar(fmt, i, SpelledAmount(a), 0);
      assert ([Arg.Num(a.n)] + args)[1..] == args;
    } else {
      AmountRead(fmt, i, a.n);
      AmountBegins(fmt, i, a.n);
      assert [] + args == args;
    }
  }

  lemma AmountHead(a: Amount, rest: seq<Char>)
    requires rest != [] && rest[0] !in {ZERO, MINUS}
    ensures var t := SpelledAmount(a) + rest; t != [] && t[0] !in {ZERO, MINUS}
  {
    if a.Given? && a.n > 0 {
      NoLeadingZero(a.n, Unsigned);
    }
    hide Digits;
  }

  lemma PrecisionHead(precise: bool, a: Amount, rest: seq<Char>)
    requires rest != [] && !IsDigit(rest[0]) && rest[0] !in {MINUS, STAR}
    ensures var t := SpelledPrecision(precise, a) + rest; t != [] && !IsDigit(t[0]) && t[0] !in {MINUS, STAR}
  {
  }

  lemma TailHead(long: bool, w: What)
    requires w.Other? ==> MeansNothing(w.c)
    ensures var t := Tail(long, w); t != [] && !IsDigit(t[0]) && t[0] !in {MINUS, STAR, DOT}
  {
    if w.Numeric? { TypeLetters(w.conversion); }
  }

  /** A flag is told from the width behind it. */
  lemma FlagSeen(fmt: seq<Char>, i: nat, flag: seq<Char>, rest: seq<Char>)
    requires flag in {[], [ZERO], [MINUS]} && rest != [] && rest[0] !in {ZERO, MINUS} && Holds(fmt, i, flag + rest)
    ensures At(fmt, i) == ZERO <==> flag == [ZERO]
    ensures At(fmt, i) == MINUS <==> flag == [MINUS]
    ensures Holds(fmt, i + |flag|, rest)
  {
    HoldsParts(fmt, i, flag, rest);
    HoldsChar(fmt, i, flag + rest, 0);
  }

  /** A directive is scanned as it is spelled. */
  lemma DirectiveScanned(fmt: seq<Char>, i: nat, p: Piece, more: seq<Arg>)
    requires p.Directive? && WellFormed(p) && Holds(fmt, i, FormatOf(p))
    ensures i + |FormatOf(p)| <= |fmt|
    ensures ScanDirective(fmt, i + 1, ArgsOf(p) + more) ==
            Scanned(WidthOf(p.width), ToTheLeft(p.flag, p.width), if p.flag == [ZERO] then ZERO else SPACE,
                    Limit(p.precise, p.precision), p.what, i + |FormatOf(p)|, WhatArgs(p.what) + more)
  {
    hide *;
    var tail := Tail(p.long, p.what);
    var fraction := SpelledPrecision(p.precise, p.precision) + tail;
    var size := SpelledAmount(p.width) + fraction;
    var last := WhatArgs(p.what) + more;
    var later := PrecisionArgs(p.precise, p.precision) + last;
    Parts(p, more);
    Heads(p);
    HoldsParts(fmt, i, [PERCENT], p.flag + size);
    FlagSeen(fmt, i + 1, p.flag, size);
    var j := i + 1 + |p.flag|;
    WidthScanned(fmt, j, p.flag, p.width, fraction, later);
    HoldsParts(fmt, j, SpelledAmount(p.width), fraction);
    var k := j + |SpelledAmount(p.width)|;
    PrecisionScanned(fmt, k, p.precise, p.precision, tail, last);
    HoldsParts(fmt, k, SpelledPrecision(p.precise, p.precision), tail);
    var w := Width(WidthOf(p.width), ToTheLeft(p.flag, p.width), k, later);
    var pad := if p.flag == [ZERO] then ZERO else SPACE;
    var l := k + |SpelledPrecision(p.precise, p.precision)|;
    TypeScanned(fmt, l, p.long, p.what, w, pad, Limit(p.precise, p.precision), last);
    Assembled(fmt, i, p, w, Limit(p.precise, p.precision), l, later, last, ArgsOf(p) + more);
  }

  /** The parts of a directive scanned one after the other. */
  lemma Assembled(fmt: seq<Char>, i: nat, p: Piece, w: Width, precision: int, l: nat, later: seq<Arg>,
                  last: seq<Arg>, args: seq<Arg>)
    requires p.Directive?
    requires At(fmt, i + 1) == ZERO <==> p.flag == [ZERO]
    requires At(fmt, i + 1) == MINUS <==> p.flag == [MINUS]
    requires p.flag in {[], [ZERO], [MINUS]}
    requires ScanWidth(fmt, i + 1 + |p.flag|, p.flag == [MINUS], args) == w
    requires ScanPrecision(fmt, w.next, w.args) == (precision, l, last)
    ensures ScanDirective(fmt, i + 1, args) ==
            ScanType(fmt, l, w, if p.flag == [ZERO] then ZERO else SPACE, precision, last)
  {
    hide ScanWidth, ScanPrecision, ScanType, At;
  }

  /** The format and the arguments of a directive, part by part. */
  lemma Parts(p: Piece, more: seq<Arg>)
    requires p.Directive?
    ensures var tail, last := Tail(p.long, p.what), WhatArgs(p.what) + more;
      && FormatOf(p) == [PERCENT] + (p.flag + (SpelledAmount(p.width) +
                        (SpelledPrecision(p.precise, p.precision) + tail)))
      && |FormatOf(p)| == 1 + |p.flag| + |SpelledAmount(p.width)| +
                          |SpelledPrecision(p.precise, p.precision)| + |tail|
      && ArgsOf(p) + more == AmountArgs(p.width) + (PrecisionArgs(p.precise, p.precision) + last)
  {
    hide SpelledAmount, SpelledPrecision, Tail, AmountArgs, PrecisionArgs, WhatArgs;
  }

  lemma Heads(p: Piece)
    requires p.Directive? && WellFormed(p)
    ensures p.flag in {[], [ZERO], [MINUS]} && (p.what.Other? ==> MeansNothing(p.what.c))
    ensures var tail := Tail(p.long, p.what); tail != [] && !IsDigit(tail[0]) && tail[0] !in {STAR, DOT}
    ensures var fraction := SpelledPrecision(p.precise, p.precision) + Tail(p.long, p.what);
      && fraction != [] && !IsDigit(fraction[0]) && fraction[0] != STAR
      && var size := SpelledAmount(p.width) + fraction; size != [] && size[0] !in {ZERO, MINUS}
  {
    hide Tail, SpelledPrecision, SpelledAmount;
    TailHead(p.long, p.what);
    PrecisionHead(p.precise, p.precision, Tail(p.long, p.what));
    AmountHead(p.width, SpelledPrecision(p.precise, p.precision) + Tail(p.long, p.what));
  }

  lemma WhatPrinted(p: Piece, next: nat, more: seq<Arg>)
    requires p.Directive?
    ensures match Scanned(WidthOf(p.width), ToTheLeft(p.flag, p.width), if p.flag == [ZERO] then ZERO else SPACE,
                          Limit(p.precise, p.precision), p.what, next, WhatArgs(p.what) + more)
      case End => false
      case Pass(c, n, rest) => n == next && [c] == Printout(p) && rest == more
      case Scan(d, n, rest) => n == next && Converted(d, rest) == Printout(p) && Others(rest) == more
  {
    hide Padded, Shortened, Numeral, WidthOf, ToTheLeft, Limit;
    assert p.what.Other? ==> WhatArgs(p.what) + more == more;
    assert !p.what.Other? ==> (WhatArgs(p.what) + more)[1..] == more;
  }

  lemma DirectiveStep(fmt: seq<Char>, i: nat, args: seq<Arg>)
    requires i < |fmt| && fmt[i] == PERCENT
    ensures match ScanDirective(fmt, i + 1, args)
      case End => true
      case Pass(c, n, rest) => n <= |fmt| ==> Print(fmt, i, args) == [c] + Print(fmt, n, rest)
      case Scan(d, n, rest) => n <= |fmt| ==> Print(fmt, i, args) == Converted(d, rest) + Print(fmt, n, Others(rest))
  {
    hide ScanDirective, Converted, Others;
  }

  lemma LiteralPrinted(fmt: seq<Char>, i: nat, c: Char, more: seq<Arg>)
    requires c != PERCENT && c != 0 && Holds(fmt, i, [c])
    ensures i + 1 <= |fmt| && Print(fmt, i, [] + more) == [c] + Print(fmt, i + 1, more)
  {
    HoldsChar(fmt, i, [c], 0);
    assert [] + more == more;
    hide ScanDirective, Converted;
  }

  lemma DirectiveBegins(p: Piece)
    requires p.Directive?
    ensures FormatOf(p) != [] && FormatOf(p)[0] == PERCENT
  {
  }

  lemma DirectivePrinted(fmt: seq<Char>, i: nat, p: Piece, more: seq<Arg>)
    requires p.Directive? && WellFormed(p) && Holds(fmt, i, FormatOf(p))
    ensures i + |FormatOf(p)| <= |fmt|
    ensures Print(fmt, i, ArgsOf(p) + more) == Printout(p) + Print(fmt, i + |FormatOf(p)|, more)
  {
    hide *;
    DirectiveBegins(p);
    HoldsChar(fmt, i, FormatOf(p), 0);
    DirectiveScanned(fmt, i, p, more);
    WhatPrinted(p, i + |FormatOf(p)|, more);
    DirectiveStep(fmt, i, ArgsOf(p) + more);
  }

  /** Every piece puts out what it stands for, with the arguments it takes, and printing goes on behind it. */
  lemma PiecePrinted(fmt: seq<Char>, i: nat, p: Piece, more: seq<Arg>)
    requires WellFormed(p) && Holds(fmt, i, FormatOf(p))
    ensures i + |FormatOf(p)| <= |fmt|
    ensures Print(fmt, i, ArgsOf(p) + more) == Printout(p) + Print(fmt, i + |FormatOf(p)|, more)
  {
    hide Print, Holds;
    match p
    case Literal(c) => LiteralPrinted(fmt, i, c, more);
    case Directive(_, _, _, _, _, _) => DirectivePrinted(fmt, i, p, more);
  }

  function Formats(ps: seq<Piece>): seq<Char> {
    if ps == [] then [] else FormatOf(ps[0]) + Formats(ps[1..])
  }

  function AllArgs(ps: seq<Piece>): seq<Arg> {
    if ps == [] then [] else ArgsOf(ps[0]) + AllArgs(ps[1..])
  }

  function Printouts(ps: seq<Piece>): seq<Char> {
    if ps == [] then [] else Printout(ps[0]) + Printouts(ps[1..])
  }

  /** A format of any pieces puts out what they stand for, in order, and then what is left of the format. */
  lemma {:induction false} PiecesPrinted(fmt: seq<Char>, i: nat, ps: seq<Piece>, more: seq<Arg>)
    requires (forall k :: 0 <= k < |ps| ==> WellFormed(ps[k])) && Holds(fmt, i, Formats(ps))
    ensures i + |Formats(ps)| <= |fmt|
    ensures Print(fmt, i, AllArgs(ps) + more) == Printouts(ps) + Print(fmt, i + |Formats(ps)|, more)
    decreases |ps|
  {
    hide *;
    HoldsBound(fmt, i, Formats(ps));
    if ps == [] {
      NoMore(more, Print(fmt, i, more));
    } else {
      var p, rest := ps[0], ps[1..];
      var j := i + |FormatOf(p)|;
      OneMore(ps, more);
      HoldsParts(fmt, i, FormatOf(p), Formats(rest));
      PiecePrinted(fmt, i, p, AllArgs(rest) + more);
      PiecesPrinted(fmt, j, rest, more);
      Chained(Printout(p), Printouts(rest), Print(fmt, j + |Formats(rest)|, more));
    }
  }

  lemma NoMore(more: seq<Arg>, s: seq<Char>)
    ensures Formats([]) == [] && AllArgs([]) + more == more && Printouts([]) + s == s
  {
  }

  lemma OneMore(ps: seq<Piece>, more: seq<Arg>)
    requires ps != []
    ensures var p, rest := ps[0], ps[1..];
      && Formats(ps) == FormatOf(p) + Formats(rest)
      && |Formats(ps)| == |FormatOf(p)| + |Formats(rest)|
      && Printouts(ps) == Printout(p) + Printouts(rest)
      && AllArgs(ps) + more == ArgsOf(p) + (AllArgs(rest) + more)
  {
    hide FormatOf, ArgsOf, Printout;
  }

  lemma Chained(a: seq<Char>, b: seq<Char>, c: seq<Char>)
    ensures a + (b + c) == (a + b) + c
  {
  }
}
