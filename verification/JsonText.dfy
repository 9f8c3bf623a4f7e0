/** JSON text (RFC 8259): the printer of Go's encoding/json with HTML
    escaping, a parser, and the round trip between them. */
module JsonText {
  import Text
  import opened Utf8

  datatype Parsed<+T> = Bad | Good(value: T, rest: Bytes)

  // ----- strings (section 7 of RFC 8259)

  function HexDigit(d: nat): Byte
    requires d < 16
  {
    if d < 10 then ('0' as int + d) as char else ('a' as int + d - 10) as char
  }

  /** The value of a hexadecimal digit, 16 when `c` is not one. */
  function HexValue(c: Byte): (v: nat)
    ensures v <= 16
  {
    if '0' <= c <= '9' then c as int - '0' as int
    else if 'a' <= c <= 'f' then c as int - 'a' as int + 10
    else if 'A' <= c <= 'F' then c as int - 'A' as int + 10
    else 16
  }

  predicate IsLineSeparator(s: Bytes) {
    |s| >= 3 && s[0] as int == 0xE2 && s[1] as int == 0x80 && (s[2] as int == 0xA8 || s[2] as int == 0xA9)
  }

  /** The text written for the first code point (or malformed byte) of `s`. */
  function EncodeFirst(s: Bytes): Bytes
    requires s != []
  {
    var c := s[0];
    if c == '"' || c == '\\' then ['\\', c]
    else if c as int == 8 then "\\b"
    else if c as int == 12 then "\\f"
    else if c == '\n' then "\\n"
    else if c == '\r' then "\\r"
    else if c == '\t' then "\\t"
    else if c < ' ' || c == '<' || c == '>' || c == '&' then
      ['\\', 'u', '0', '0', HexDigit(c as int / 16), HexDigit(c as int % 16)]
    else if RuneWidth(s) == 0 then ['\\', 'u', 'f', 'f', 'f', 'd']
    else if IsLineSeparator(s) then ['\\', 'u', '2', '0', '2', HexDigit(s[2] as int % 16)]
    else s[..RuneWidth(s)]
  }

  function EncodeString(s: Bytes): Bytes
    decreases |s|
  {
    if s == [] then [] else EncodeFirst(s) + EncodeString(s[StepWidth(s)..])
  }

  function EncodeRune(u: nat): Bytes
    requires u < 0x110000
  {
    if u < 0x80 then [u as char]
    else if u < 0x800 then [(0xC0 + u / 64) as char, (0x80 + u % 64) as char]
    else if 0xD800 <= u < 0xE000 then REPLACEMENT
    else if u < 0x10000 then [(0xE0 + u / 4096) as char, (0x80 + u / 64 % 64) as char, (0x80 + u % 64) as char]
    else
      [(0xF0 + u / 262144) as char, (0x80 + u / 4096 % 64) as char,
       (0x80 + u / 64 % 64) as char, (0x80 + u % 64) as char]
  }

  /** A code point that text may hold: surrogates are none. */
  predicate Scalar(u: nat) { u < 0xD800 || 0xE000 <= u < 0x110000 }

  /** The code point that a well-formed front of `s` stands for. */
  function PointOf(s: Bytes): nat
    requires RuneWidth(s) > 0
  {
    var a := s[0] as int;
    if a < 0x80 then a
    else if a < 0xE0 then (a - 0xC0) * 64 + (s[1] as int - 0x80)
    else if a < 0xF0 then (a - 0xE0) * 4096 + (s[1] as int - 0x80) * 64 + (s[2] as int - 0x80)
    else
      (a - 0xF0) * 262144 + (s[1] as int - 0x80) * 4096 + (s[2] as int - 0x80) * 64 + (s[3] as int - 0x80)
  }

  lemma Split64(v: nat, r: nat)
    requires r < 64
    ensures (v * 64 + r) / 64 == v && (v * 64 + r) % 64 == r
  {}

  lemma ThreeDigits(a: nat, b: nat, c: nat)
    requires b < 64 && c < 64
    ensures var u := a * 4096 + b * 64 + c; u / 4096 == a && u / 64 % 64 == b && u % 64 == c
  {
    var v := a * 64 + b;
    Split64(v, c);
    Split64(a, b);
    assert a * 4096 + b * 64 + c == v * 64 + c;
    assert (v * 64 + c) / 4096 == v / 64;
  }

  lemma FourDigits(a: nat, b: nat, c: nat, d: nat)
    requires b < 64 && c < 64 && d < 64
    ensures var u := a * 262144 + b * 4096 + c * 64 + d;
            u / 262144 == a && u / 4096 % 64 == b && u / 64 % 64 == c && u % 64 == d
  {
    var v := a * 4096 + b * 64 + c;
    ThreeDigits(a, b, c);
    Split64(v, d);
    assert a * 262144 + b * 4096 + c * 64 + d == v * 64 + d;
    assert (v * 64 + d) / 4096 == v / 64 && (v * 64 + d) / 262144 == v / 4096;
  }

  lemma PointEncodes(s: Bytes)
    requires RuneWidth(s) > 0
    ensures Scalar(PointOf(s)) && EncodeRune(PointOf(s)) == s[..RuneWidth(s)]
  {
    var w := RuneWidth(s);
    if w == 2 {
      Split64(s[0] as int - 0xC0, s[1] as int - 0x80);
    } else if w == 3 {
      ThreeBytes(s, s[0] as int - 0xE0, s[1] as int - 0x80, s[2] as int - 0x80);
    } else if w == 4 {
      FourBytes(s, s[0] as int - 0xF0, s[1] as int - 0x80, s[2] as int - 0x80, s[3] as int - 0x80);
    }
  }

  lemma ThreeBytes(s: Bytes, a: nat, b: nat, c: nat)
    requires RuneWidth(s) == 3 && s[0] as int == 0xE0 + a && s[1] as int == 0x80 + b && s[2] as int == 0x80 + c
    ensures Scalar(PointOf(s)) && EncodeRune(PointOf(s)) == s[..3]
  {
    var u := a * 4096 + b * 64 + c;
    ThreeDigits(a, b, c);
    assert PointOf(s) == u && 0x800 <= u < 0x10000 && Scalar(u);
    assert EncodeRune(u) == [(0xE0 + a) as char, (0x80 + b) as char, (0x80 + c) as char];
  }

  lemma FourBytes(s: Bytes, a: nat, b: nat, c: nat, d: nat)
    requires RuneWidth(s) == 4 && s[0] as int == 0xF0 + a && s[1] as int == 0x80 + b
    requires s[2] as int == 0x80 + c && s[3] as int == 0x80 + d
    ensures Scalar(PointOf(s)) && EncodeRune(PointOf(s)) == s[..4]
  {
    var u := a * 262144 + b * 4096 + c * 64 + d;
    FourDigits(a, b, c, d);
    assert PointOf(s) == u && 0x10000 <= u < 0x110000;
    assert EncodeRune(u) == [(0xF0 + a) as char, (0x80 + b) as char, (0x80 + c) as char, (0x80 + d) as char];
  }

  lemma EncodedIsRune(u: nat, rest: Bytes)
    requires Scalar(u)
    ensures RuneWidth(EncodeRune(u) + rest) == |EncodeRune(u)|
  {
    var t := EncodeRune(u) + rest;
    if 0x800 <= u < 0x10000 {
      assert u / 4096 == u / 64 / 64;
    } else if u >= 0x10000 {
      assert u / 4096 == u / 64 / 64 && u / 262144 == u / 4096 / 64;
    }
  }

  /** A well-formed front is exactly the encoding of a code point: no overlong form,
      no surrogate, nothing above U+10FFFF, and no code point is left out. */
  lemma RunesAreScalars(s: Bytes)
    ensures RuneWidth(s) > 0 <==> exists u: nat :: Scalar(u) && EncodeRune(u) <= s
    ensures forall u: nat :: Scalar(u) && EncodeRune(u) <= s ==> RuneWidth(s) == |EncodeRune(u)|
  {
    forall u: nat | Scalar(u) && EncodeRune(u) <= s ensures RuneWidth(s) == |EncodeRune(u)| > 0 {
      EncodedIsRune(u, s[|EncodeRune(u)|..]);
      assert s == EncodeRune(u) + s[|EncodeRune(u)|..];
    }
    if RuneWidth(s) > 0 {
      PointEncodes(s);
    }
  }

  /** The code unit of `\uXXXX` at the front of `t`, -1 when there is none. */
  function CodeUnit(t: Bytes): (u: int)
    ensures -1 <= u < 0x10000
    ensures u >= 0 ==> |t| >= 6
  {
    if |t| >= 6 && t[0] == '\\' && t[1] == 'u' &&
       HexValue(t[2]) < 16 && HexValue(t[3]) < 16 && HexValue(t[4]) < 16 && HexValue(t[5]) < 16
    then HexValue(t[2]) * 4096 + HexValue(t[3]) * 256 + HexValue(t[4]) * 16 + HexValue(t[5])
    else -1
  }

  function DecodeUnicode(t: Bytes): (p: Parsed<Bytes>)
    ensures p.Good? ==> |p.rest| < |t|
  {
    var u := CodeUnit(t);
    if u < 0 then Bad
    else
      var v := CodeUnit(t[6..]);
      if 0xD800 <= u < 0xDC00 && 0xDC00 <= v < 0xE000
      then Good(EncodeRune(0x10000 + (u - 0xD800) * 1024 + (v - 0xDC00)), t[12..])
      else Good(EncodeRune(u), t[6..])
  }

  function DecodeEscape(t: Bytes): (p: Parsed<Bytes>)
    requires t != [] && t[0] == '\\'
    ensures p.Good? ==> |p.rest| < |t|
  {
    if |t| < 2 then Bad
    else if t[1] == '"' || t[1] == '\\' || t[1] == '/' then Good([t[1]], t[2..])
    else if t[1] == 'b' then Good([8 as char], t[2..])
    else if t[1] == 'f' then Good([12 as char], t[2..])
    else if t[1] == 'n' then Good(['\n'], t[2..])
    else if t[1] == 'r' then Good(['\r'], t[2..])
    else if t[1] == 't' then Good(['\t'], t[2..])
    else DecodeUnicode(t)
  }

  function DecodeFirst(t: Bytes): (p: Parsed<Bytes>)
    requires t != []
    ensures p.Good? ==> |p.rest| < |t|
  {
    if t[0] == '\\' then DecodeEscape(t)
    else if t[0] < ' ' then Bad
    else if RuneWidth(t) > 0 then Good(t[..RuneWidth(t)], t[RuneWidth(t)..])
    else Good(REPLACEMENT, t[1..])
  }

  /** The rest of a string whose opening quote has been read. */
  function DecodeString(t: Bytes): (p: Parsed<Bytes>)
    ensures p.Good? ==> |p.rest| < |t|
    decreases |t|
  {
    if t == [] then Bad
    else if t[0] == '"' then Good([], t[1..])
    else
      match DecodeFirst(t)
      case Bad => Bad
      case Good(piece, rest) =>
        match DecodeString(rest)
        case Bad => Bad
        case Good(more, after) => Good(piece + more, after)
  }

  lemma HexPairs(c: Byte)
    ensures HexValue(HexDigit(c as int / 16)) == c as int / 16
    ensures HexValue(HexDigit(c as int % 16)) == c as int % 16
  {}

  lemma UnicodeReadsBack(e: Bytes, tail: Bytes)
    requires |e| == 6 && CodeUnit(e) >= 0 && !(0xD800 <= CodeUnit(e) < 0xE000)
    ensures DecodeFirst(e + tail) == Good(EncodeRune(CodeUnit(e)), tail)
  {
    assert CodeUnit(e + tail) == CodeUnit(e);
    assert (e + tail)[6..] == tail;
  }

  /** A pair of surrogate escapes, as UTF-16 splits a code point, reads as that code point. */
  lemma SurrogatesRead(u: nat, high: Bytes, low: Bytes, tail: Bytes)
    requires 0x10000 <= u < 0x110000 && |high| == |low| == 6
    requires CodeUnit(high) == 0xD800 + (u - 0x10000) / 1024 && CodeUnit(low) == 0xDC00 + (u - 0x10000) % 1024
    ensures DecodeFirst(high + (low + tail)) == Good(EncodeRune(u), tail)
  {
    var t := high + (low + tail);
    assert CodeUnit(t) == CodeUnit(high) && t[6..] == low + tail;
    assert CodeUnit(low + tail) == CodeUnit(low) && t[12..] == tail;
  }

  /** Escapes this printer does not write but others do. */
  lemma OtherEscapesRead(tail: Bytes)
    ensures DecodeFirst(['\\', '/'] + tail) == Good(['/'], tail)
    ensures DecodeFirst(['\\', 'b'] + tail) == Good([8 as char], tail)
    ensures DecodeFirst(['\\', 'f'] + tail) == Good([12 as char], tail)
  {
    assert (['\\', '/'] + tail)[2..] == tail && (['\\', 'b'] + tail)[2..] == tail && (['\\', 'f'] + tail)[2..] == tail;
  }

  lemma HexValues(d: nat)
    requires d < 16
    ensures d < 10 ==> HexValue(('0' as int + d) as char) == d
    ensures d >= 10 ==> HexValue(('a' as int + d - 10) as char) == HexValue(('A' as int + d - 10) as char) == d
  {}

  lemma EscapeReadsBack(s: Bytes, tail: Bytes)
    requires s != [] && |EncodeFirst(s)| == 2 && EncodeFirst(s)[0] == '\\'
    ensures DecodeFirst(EncodeFirst(s) + tail) == Good([s[0]], tail)
  {
    assert (EncodeFirst(s) + tail)[2..] == tail;
  }

  lemma PlainReadsBack(s: Bytes, tail: Bytes)
    requires RuneWidth(s) > 0 && s[0] >= ' ' && s[0] != '\\'
    ensures DecodeFirst(s[..RuneWidth(s)] + tail) == Good(s[..RuneWidth(s)], tail)
  {
    var e := s[..RuneWidth(s)];
    WidthOfPrefix(s, tail);
    assert (e + tail)[..|e|] == e && (e + tail)[|e|..] == tail;
  }

  /** The six-character escapes stand for what they replace. */
  lemma UnicodeStandsFor(s: Bytes)
    requires s != [] && |EncodeFirst(s)| == 6
    ensures var u := CodeUnit(EncodeFirst(s));
            0 <= u && !(0xD800 <= u < 0xE000)
            && EncodeRune(u) == if RuneWidth(s) > 0 then s[..RuneWidth(s)] else REPLACEMENT
  {
    var c, e := s[0], EncodeFirst(s);
    HexPairs(c);
    if c as int < 0x80 {
      assert CodeUnit(e) == c as int;
    } else if RuneWidth(s) == 0 {
      assert CodeUnit(e) == 0xFFFD;
    } else {
      assert CodeUnit(e) == 0x2020 + s[2] as int % 16;
    }
  }

  /** Decoding takes back one encoded code point, malformed bytes having become U+FFFD. */
  lemma FirstRoundTrip(s: Bytes, tail: Bytes)
    requires s != []
    ensures var t := EncodeFirst(s) + tail;
            && t != [] && t[0] != '"'
            && DecodeFirst(t) == Good(if RuneWidth(s) > 0 then s[..RuneWidth(s)] else REPLACEMENT, tail)
  {
    var e := EncodeFirst(s);
    assert s[0] as int < 0x80 ==> s[..RuneWidth(s)] == [s[0]];
    if |e| == 6 {
      UnicodeStandsFor(s);
      UnicodeReadsBack(e, tail);
    } else if |e| == 2 && e[0] == '\\' {
      EscapeReadsBack(s, tail);
    } else {
      PlainReadsBack(s, tail);
    }
  }

  lemma {:induction false} StringRoundTrip(s: Bytes, rest: Bytes)
    ensures DecodeString(EncodeString(s) + ['"'] + rest) == Good(Sanitize(s), rest)
    decreases |s|
  {
    var t := EncodeString(s) + ['"'] + rest;
    if s == [] {
      assert t[1..] == rest;
    } else {
      var tail := EncodeString(s[StepWidth(s)..]) + ['"'] + rest;
      assert t == EncodeFirst(s) + tail;
      FirstRoundTrip(s, tail);
      StringRoundTrip(s[StepWidth(s)..], rest);
    }
  }

  // ----- numbers (integers only)

  function PrintNat(n: nat): Bytes {
    if n < 10 then [HexDigit(n)] else PrintNat(n / 10) + [HexDigit(n % 10)]
  }

  function ParseDigits(t: Bytes, acc: nat): (p: (nat, Bytes))
    ensures |p.1| <= |t|
    decreases |t|
  {
    if t != [] && Text.IsDigit(t[0]) then ParseDigits(t[1..], acc * 10 + HexValue(t[0])) else (acc, t)
  }

  predicate EndsNumber(rest: Bytes) {
    rest == [] || !(Text.IsDigit(rest[0]) || rest[0] == '.' || rest[0] == 'e' || rest[0] == 'E')
  }

  function ParseNat(t: Bytes): (p: Parsed<nat>)
    ensures p.Good? ==> |p.rest| < |t|
  {
    if t == [] || !Text.IsDigit(t[0]) then Bad
    else
      var (n, rest) := if t[0] == '0' then (0, t[1..]) else ParseDigits(t, 0);
      if EndsNumber(rest) then
        assert t[0] != '0' ==> ParseDigits(t, 0) == ParseDigits(t[1..], HexValue(t[0]));
        Good(n, rest)
      else Bad
  }

  lemma {:induction false} DigitsRoundTrip(n: nat, rest: Bytes)
    ensures ParseDigits(PrintNat(n) + rest, 0) == ParseDigits(rest, n)
    decreases n
  {
    if n < 10 {
      assert (PrintNat(n) + rest)[1..] == rest;
    } else {
      var tail := [HexDigit(n % 10)] + rest;
      assert PrintNat(n) + rest == PrintNat(n / 10) + tail;
      DigitsRoundTrip(n / 10, tail);
      assert tail[1..] == rest;
    }
  }

  lemma {:induction false} NatStartsWithDigit(n: nat)
    ensures PrintNat(n) != [] && Text.IsDigit(PrintNat(n)[0])
    ensures PrintNat(n)[0] == '0' ==> n == 0
    decreases n
  {
    if n >= 10 {
      NatStartsWithDigit(n / 10);
    }
  }

  lemma NatRoundTrip(n: nat, rest: Bytes)
    requires EndsNumber(rest)
    ensures ParseNat(PrintNat(n) + rest) == Good(n, rest)
  {
    NatStartsWithDigit(n);
    DigitsRoundTrip(n, rest);
    if n == 0 {
      assert (PrintNat(0) + rest)[1..] == rest;
    }
  }

  // ----- values

  datatype Json =
    | Null
    | Bool(b: bool)
    | Int(n: int)
    | Str(s: Bytes)
    | Arr(elems: seq<Json>)
    | Obj(members: seq<Member>)

  datatype Member = Member(key: Bytes, value: Json)

  function Print(v: Json): Bytes {
    match v
    case Null => "null"
    case Bool(b) => if b then "true" else "false"
    case Int(n) => if n < 0 then ['-'] + PrintNat(-n) else PrintNat(n)
    case Str(s) => ['"'] + EncodeString(s) + ['"']
    case Arr(elems) => ['['] + PrintElems(elems) + [']']
    case Obj(members) => ['{'] + PrintMembers(members) + ['}']
  }

  function PrintElems(elems: seq<Json>): Bytes {
    if elems == [] then []
    else Print(elems[0]) + (if |elems| == 1 then [] else [','] + PrintElems(elems[1..]))
  }

  function PrintMember(m: Member): Bytes {
    ['"'] + EncodeString(m.key) + ['"', ':'] + Print(m.value)
  }

  function PrintMembers(members: seq<Member>): Bytes {
    if members == [] then []
    else PrintMember(members[0]) + (if |members| == 1 then [] else [','] + PrintMembers(members[1..]))
  }

  /** The value a reader gets back: strings with malformed bytes replaced. */
  function Clean(v: Json): Json {
    match v
    case Str(s) => Str(Sanitize(s))
    case Arr(elems) => Arr(CleanElems(elems))
    case Obj(members) => Obj(CleanMembers(members))
    case _ => v
  }

  function CleanElems(elems: seq<Json>): seq<Json> {
    seq(|elems|, i requires 0 <= i < |elems| => Clean(elems[i]))
  }

  function CleanMembers(members: seq<Member>): seq<Member> {
    seq(|members|, i requires 0 <= i < |members| => Member(Sanitize(members[i].key), Clean(members[i].value)))
  }

  function SkipBlanks(t: Bytes): (r: Bytes)
    ensures |r| <= |t|
    decreases |t|
  {
    if t != [] && (t[0] == ' ' || t[0] == '\t' || t[0] == '\n' || t[0] == '\r') then SkipBlanks(t[1..]) else t
  }

  /** Whether, blanks aside, `t` goes on with the character `c`. */
  predicate GoesOn(t: Bytes, c: Byte) { SkipBlanks(t) != [] && SkipBlanks(t)[0] == c }

  predicate StartsWith(t: Bytes, word: Bytes) { |t| >= |word| && t[..|word|] == word }

  function ParseValue(t0: Bytes): (p: Parsed<Json>)
    ensures p.Good? ==> |p.rest| < |t0|
    decreases |t0|, 0
  {
    var t := SkipBlanks(t0);
    if t == [] then Bad
    else if t[0] == '"' then
      (match DecodeString(t[1..])
       case Bad => Bad
       case Good(s, rest) => Good(Str(s), rest))
    else if t[0] == '[' then
      if GoesOn(t[1..], ']') then Good(Arr([]), SkipBlanks(t[1..])[1..])
      else
        (match ParseElems(t[1..])
         case Bad => Bad
         case Good(elems, rest) => Good(Arr(elems), rest))
    else if t[0] == '{' then
      if GoesOn(t[1..], '}') then Good(Obj([]), SkipBlanks(t[1..])[1..])
      else
        (match ParseMembers(t[1..])
         case Bad => Bad
         case Good(members, rest) => Good(Obj(members), rest))
    else if t[0] == '-' then
      (match ParseNat(t[1..])
       case Bad => Bad
       case Good(n, rest) => Good(Int(0 - n), rest))
    else if Text.IsDigit(t[0]) then
      (match ParseNat(t)
       case Bad => Bad
       case Good(n, rest) => Good(Int(n), rest))
    else if StartsWith(t, "null") then Good(Null, t[4..])
    else if StartsWith(t, "true") then Good(Bool(true), t[4..])
    else if StartsWith(t, "false") then Good(Bool(false), t[5..])
    else Bad
  }

  function ParseElems(t: Bytes): (p: Parsed<seq<Json>>)
    ensures p.Good? ==> |p.rest| < |t|
    decreases |t|, 1
  {
    match ParseValue(t)
    case Bad => Bad
    case Good(v, rest) =>
      if GoesOn(rest, ']') then Good([v], SkipBlanks(rest)[1..])
      else if GoesOn(rest, ',') then
        (match ParseElems(SkipBlanks(rest)[1..])
         case Bad => Bad
         case Good(more, after) => Good([v] + more, after))
      else Bad
  }

  function ParseMember(t: Bytes): (p: Parsed<Member>)
    ensures p.Good? ==> |p.rest| < |t|
    decreases |t|, 0
  {
    if !GoesOn(t, '"') then Bad
    else
      match DecodeString(SkipBlanks(t)[1..])
      case Bad => Bad
      case Good(key, rest) =>
        if !GoesOn(rest, ':') then Bad
        else
          match ParseValue(SkipBlanks(rest)[1..])
          case Bad => Bad
          case Good(v, after) => Good(Member(key, v), after)
  }

  function ParseMembers(t: Bytes): (p: Parsed<seq<Member>>)
    ensures p.Good? ==> |p.rest| < |t|
    decreases |t|, 1
  {
    match ParseMember(t)
    case Bad => Bad
    case Good(m, rest) =>
      if GoesOn(rest, '}') then Good([m], SkipBlanks(rest)[1..])
      else if GoesOn(rest, ',') then
        (match ParseMembers(SkipBlanks(rest)[1..])
         case Bad => Bad
         case Good(more, after) => Good([m] + more, after))
      else Bad
  }

  /** A whole document: one value and nothing after it. */
  function Parse(t: Bytes): Parsed<Json> {
    match ParseValue(t)
    case Bad => Bad
    case Good(v, rest) => if SkipBlanks(rest) == [] then Good(v, []) else Bad
  }

  /** Blanks before a value do not matter. */
  lemma {:induction false} LeadingBlanks(b: Bytes, t: Bytes)
    requires forall i :: 0 <= i < |b| ==> b[i] == ' ' || b[i] == '\t' || b[i] == '\n' || b[i] == '\r'
    ensures SkipBlanks(b + t) == SkipBlanks(t) && ParseValue(b + t) == ParseValue(t)
  {
    if b == [] {
      assert b + t == t;
    } else {
      assert (b + t)[1..] == b[1..] + t;
      LeadingBlanks(b[1..], t);
    }
  }

  // ----- the round trip

  lemma PrintStarts(v: Json, rest: Bytes)
    ensures Print(v) != [] && Print(v)[0] != ']' && Print(v)[0] != '}'
    ensures SkipBlanks(Print(v) + rest) == Print(v) + rest
  {
    if v.Int? {
      NatStartsWithDigit(if v.n < 0 then -v.n else v.n);
    }
  }

  lemma NatValue(n: nat, rest: Bytes)
    requires EndsNumber(rest)
    ensures ParseValue(PrintNat(n) + rest) == Good(Int(n), rest)
  {
    var t := PrintNat(n) + rest;
    NatStartsWithDigit(n);
    NatRoundTrip(n, rest);
    assert t[0] == PrintNat(n)[0] && SkipBlanks(t) == t;
  }

  lemma MinusValue(t: Bytes, digits: Bytes, n: nat, rest: Bytes)
    requires t == ['-'] + digits && ParseNat(digits) == Good(n, rest)
    ensures ParseValue(t) == Good(Int(0 - n), rest)
  {
    assert t[1..] == digits && SkipBlanks(t) == t;
  }

  lemma IntRoundTrip(n: int, rest: Bytes)
    requires EndsNumber(rest)
    ensures ParseValue(Print(Int(n)) + rest) == Good(Int(n), rest)
  {
    if n < 0 {
      NatRoundTrip(-n, rest);
      assert ['-'] + PrintNat(-n) + rest == ['-'] + (PrintNat(-n) + rest);
      MinusValue(['-'] + PrintNat(-n) + rest, PrintNat(-n) + rest, -n, rest);
    } else {
      NatValue(n, rest);
    }
  }

  lemma LiteralRoundTrip(v: Json, rest: Bytes)
    requires v.Null? || v.Bool?
    ensures ParseValue(Print(v) + rest) == Good(v, rest)
  {
    PrintStarts(v, rest);
    var t := Print(v) + rest;
    assert t[..|Print(v)|] == Print(v) && t[|Print(v)|..] == rest;
  }

  lemma StrRoundTrip(s: Bytes, rest: Bytes)
    ensures ParseValue(Print(Str(s)) + rest) == Good(Str(Sanitize(s)), rest)
  {
    PrintStarts(Str(s), rest);
    StringRoundTrip(s, rest);
    assert (Print(Str(s)) + rest)[1..] == EncodeString(s) + ['"'] + rest;
  }

  lemma ArrayStep(t: Bytes, inner: Bytes)
    requires t != [] && t[0] == '[' && t[1..] == inner
    ensures GoesOn(inner, ']') ==> ParseValue(t) == Good(Arr([]), SkipBlanks(inner)[1..])
    ensures !GoesOn(inner, ']') && ParseElems(inner).Good? ==>
              ParseValue(t) == Good(Arr(ParseElems(inner).value), ParseElems(inner).rest)
  {}

  lemma ObjectStep(t: Bytes, inner: Bytes)
    requires t != [] && t[0] == '{' && t[1..] == inner
    ensures GoesOn(inner, '}') ==> ParseValue(t) == Good(Obj([]), SkipBlanks(inner)[1..])
    ensures !GoesOn(inner, '}') && ParseMembers(inner).Good? ==>
              ParseValue(t) == Good(Obj(ParseMembers(inner).value), ParseMembers(inner).rest)
  {}

  lemma Opened(open: Byte, body: Bytes, close: Byte, rest: Bytes)
    ensures var t := [open] + body + [close] + rest; t[0] == open && t[1..] == body + [close] + rest
  {}

  lemma EmptyRoundTrip(rest: Bytes)
    ensures ParseValue(Print(Arr([])) + rest) == Good(Arr([]), rest)
    ensures ParseValue(Print(Obj([])) + rest) == Good(Obj([]), rest)
  {
    Opened('[', [], ']', rest);
    Opened('{', [], '}', rest);
    ArrayStep(['['] + [] + [']'] + rest, [] + [']'] + rest);
    ObjectStep(['{'] + [] + ['}'] + rest, [] + ['}'] + rest);
    assert ([] + [']'] + rest)[1..] == rest && ([] + ['}'] + rest)[1..] == rest;
  }

  lemma ArrFromElems(elems: seq<Json>, rest: Bytes)
    requires var inner := PrintElems(elems) + [']'] + rest;
             !GoesOn(inner, ']') && ParseElems(inner) == Good(CleanElems(elems), rest)
    ensures ParseValue(Print(Arr(elems)) + rest) == Good(Arr(CleanElems(elems)), rest)
  {
    var inner := PrintElems(elems) + [']'] + rest;
    Opened('[', PrintElems(elems), ']', rest);
    ArrayStep(['['] + PrintElems(elems) + [']'] + rest, inner);
  }

  lemma ObjFromMembers(members: seq<Member>, rest: Bytes)
    requires var inner := PrintMembers(members) + ['}'] + rest;
             !GoesOn(inner, '}') && ParseMembers(inner) == Good(CleanMembers(members), rest)
    ensures ParseValue(Print(Obj(members)) + rest) == Good(Obj(CleanMembers(members)), rest)
  {
    var inner := PrintMembers(members) + ['}'] + rest;
    Opened('{', PrintMembers(members), '}', rest);
    ObjectStep(['{'] + PrintMembers(members) + ['}'] + rest, inner);
  }

  lemma {:induction false} ValueRoundTrip(v: Json, rest: Bytes)
    requires EndsNumber(rest)
    ensures ParseValue(Print(v) + rest) == Good(Clean(v), rest)
    decreases v, 1
  {
    match v {
      case Null => LiteralRoundTrip(v, rest);
      case Bool(_) => LiteralRoundTrip(v, rest);
      case Int(n) => IntRoundTrip(n, rest);
      case Str(s) => StrRoundTrip(s, rest);
      case Arr(elems) =>
        if elems == [] {
          assert v == Arr([]) && CleanElems([]) == [];
          EmptyRoundTrip(rest);
        } else {
          ElemsRoundTrip(elems, rest);
          ArrFromElems(elems, rest);
        }
      case Obj(members) =>
        if members == [] {
          assert v == Obj([]) && CleanMembers([]) == [];
          EmptyRoundTrip(rest);
        } else {
          MembersRoundTrip(members, rest);
          ObjFromMembers(members, rest);
        }
    }
  }

  lemma ElemsStep(t: Bytes, v: Json, after: Bytes)
    requires ParseValue(t) == Good(v, after) && after != []
    ensures after[0] == ']' ==> ParseElems(t) == Good([v], after[1..])
    ensures after[0] == ',' && ParseElems(after[1..]).Good? ==>
              ParseElems(t) == Good([v] + ParseElems(after[1..]).value, ParseElems(after[1..]).rest)
  {}

  /** What follows the first element in an array's text. */
  function AfterElem(elems: seq<Json>, rest: Bytes): Bytes
    requires elems != []
  {
    if |elems| == 1 then [']'] + rest else [','] + (PrintElems(elems[1..]) + [']'] + rest)
  }

  /** Concatenations regrouped: a separated list, and its last element. */
  lemma Separated(p: Bytes, comma: Byte, q: Bytes, close: Byte, rest: Bytes)
    ensures p + ([comma] + q) + [close] + rest == p + ([comma] + (q + [close] + rest))
    ensures p + [] + [close] + rest == p + ([close] + rest)
  {}

  lemma ElemsText(elems: seq<Json>, rest: Bytes)
    requires elems != []
    ensures PrintElems(elems) + [']'] + rest == Print(elems[0]) + AfterElem(elems, rest)
  {
    Separated(Print(elems[0]), ',', PrintElems(elems[1..]), ']', rest);
  }

  lemma CleanElemsSplit(elems: seq<Json>)
    requires elems != []
    ensures CleanElems(elems) == [Clean(elems[0])] + CleanElems(elems[1..])
  {}

  lemma {:induction false} ElemsRoundTrip(elems: seq<Json>, rest: Bytes)
    requires elems != []
    ensures !GoesOn(PrintElems(elems) + [']'] + rest, ']')
    ensures ParseElems(PrintElems(elems) + [']'] + rest) == Good(CleanElems(elems), rest)
    decreases elems, 0
  {
    var after, v := AfterElem(elems, rest), Clean(elems[0]);
    ElemsText(elems, rest);
    CleanElemsSplit(elems);
    PrintStarts(elems[0], after);
    ValueRoundTrip(elems[0], after);
    ElemsStep(Print(elems[0]) + after, v, after);
    if |elems| == 1 {
      assert after[1..] == rest && [v] + CleanElems(elems[1..]) == [v];
    } else {
      assert after[1..] == PrintElems(elems[1..]) + [']'] + rest;
      ElemsRoundTrip(elems[1..], rest);
    }
  }

  lemma MemberStep(t: Bytes, key: Bytes, after: Bytes, v: Json, rest: Bytes)
    requires t != [] && t[0] == '"' && DecodeString(t[1..]) == Good(key, after)
    requires after != [] && after[0] == ':' && ParseValue(after[1..]) == Good(v, rest)
    ensures ParseMember(t) == Good(Member(key, v), rest)
  {}

  lemma MemberText(m: Member, rest: Bytes)
    ensures var t := PrintMember(m) + rest;
            t[0] == '"' && t[1..] == EncodeString(m.key) + ['"'] + ([':'] + (Print(m.value) + rest))
  {}

  lemma {:induction false} MemberRoundTrip(m: Member, rest: Bytes)
    requires EndsNumber(rest)
    ensures PrintMember(m) != [] && PrintMember(m)[0] == '"'
    ensures ParseMember(PrintMember(m) + rest) == Good(Member(Sanitize(m.key), Clean(m.value)), rest)
    decreases m, 2
  {
    var printed := Print(m.value) + rest;
    var after := [':'] + printed;
    MemberText(m, rest);
    StringRoundTrip(m.key, after);
    ValueRoundTrip(m.value, rest);
    assert after[1..] == printed;
    MemberStep(PrintMember(m) + rest, Sanitize(m.key), after, Clean(m.value), rest);
  }

  lemma MembersStep(t: Bytes, m: Member, after: Bytes)
    requires ParseMember(t) == Good(m, after) && after != []
    ensures after[0] == '}' ==> ParseMembers(t) == Good([m], after[1..])
    ensures after[0] == ',' && ParseMembers(after[1..]).Good? ==>
              ParseMembers(t) == Good([m] + ParseMembers(after[1..]).value, ParseMembers(after[1..]).rest)
  {}

  /** What follows the first member in an object's text. */
  function AfterMember(members: seq<Member>, rest: Bytes): Bytes
    requires members != []
  {
    if |members| == 1 then ['}'] + rest else [','] + (PrintMembers(members[1..]) + ['}'] + rest)
  }

  lemma MembersText(members: seq<Member>, rest: Bytes)
    requires members != []
    ensures PrintMembers(members) + ['}'] + rest == PrintMember(members[0]) + AfterMember(members, rest)
  {
    Separated(PrintMember(members[0]), ',', PrintMembers(members[1..]), '}', rest);
  }

  lemma CleanMembersSplit(members: seq<Member>)
    requires members != []
    ensures CleanMembers(members)
            == [Member(Sanitize(members[0].key), Clean(members[0].value))] + CleanMembers(members[1..])
  {}

  lemma {:induction false} MembersRoundTrip(members: seq<Member>, rest: Bytes)
    requires members != []
    ensures !GoesOn(PrintMembers(members) + ['}'] + rest, '}')
    ensures ParseMembers(PrintMembers(members) + ['}'] + rest) == Good(CleanMembers(members), rest)
    decreases members, 0
  {
    var after := AfterMember(members, rest);
    var m := Member(Sanitize(members[0].key), Clean(members[0].value));
    MembersText(members, rest);
    CleanMembersSplit(members);
    MemberRoundTrip(members[0], after);
    MembersStep(PrintMember(members[0]) + after, m, after);
    if |members| == 1 {
      assert after[1..] == rest && [m] + CleanMembers(members[1..]) == [m];
    } else {
      assert after[1..] == PrintMembers(members[1..]) + ['}'] + rest;
      MembersRoundTrip(members[1..], rest);
    }
  }

  /** Reading a printed document gives the document back. */
  lemma RoundTrip(v: Json)
    ensures Parse(Print(v)) == Good(Clean(v), [])
  {
    ValueRoundTrip(v, []);
    assert Print(v) + [] == Print(v);
  }

  // ----- what is escaped

  lemma OneCharacter(s: Bytes)
    requires s != [] && StepWidth(s) == |s|
    ensures EncodeString(s) == EncodeFirst(s)
  {
    assert s[|s|..] == [] && EncodeString([]) == [];
  }

  /** None of the characters that matter to HTML, and no quote without its escape. */
  predicate Cooked(e: Bytes) {
    && (forall i :: 0 <= i < |e| ==> e[i] != '<' && e[i] != '>' && e[i] != '&')
    && (forall i :: 0 <= i < |e| && e[i] == '"' ==> i > 0 && e[i - 1] == '\\')
  }

  lemma CookedConcat(a: Bytes, b: Bytes)
    requires Cooked(a) && Cooked(b)
    ensures Cooked(a + b)
  {
    var e := a + b;
    forall i | 0 <= i < |e| && e[i] == '"' ensures i > 0 && e[i - 1] == '\\' {
      assert i < |a| ==> a[i] == '"' && i > 0 && a[i - 1] == '\\';
      assert i >= |a| ==> b[i - |a|] == '"' && i > |a| && b[i - |a| - 1] == '\\';
    }
  }

  lemma {:induction false} NothingRaw(s: Bytes)
    ensures Cooked(EncodeString(s))
    decreases |s|
  {
    if s != [] {
      NothingRaw(s[StepWidth(s)..]);
      FirstNotRaw(s);
      CookedConcat(EncodeFirst(s), EncodeString(s[StepWidth(s)..]));
    }
  }

  lemma FirstNotRaw(s: Bytes)
    requires s != []
    ensures Cooked(EncodeFirst(s))
  {}

  /** The escapes of encoding/json. */
  lemma EscapesAre(c: Byte)
    ensures c == '\n' ==> EncodeString([c]) == "\\n"
    ensures c == '\r' ==> EncodeString([c]) == "\\r"
    ensures c == '\t' ==> EncodeString([c]) == "\\t"
    ensures c as int == 8 ==> EncodeString([c]) == "\\b"
    ensures c as int == 12 ==> EncodeString([c]) == "\\f"
    ensures c == '"' || c == '\\' ==> EncodeString([c]) == ['\\', c]
    ensures c == '<' ==> EncodeString([c]) == "\\u003c"
    ensures c == '>' ==> EncodeString([c]) == "\\u003e"
    ensures c == '&' ==> EncodeString([c]) == "\\u0026"
    ensures c as int >= 0x80 ==> EncodeString([c]) == "\\ufffd"
  {
    OneCharacter([c]);
  }

  /** The two separators that end a line in a script. */
  lemma SeparatorsAre(s: Bytes)
    requires |s| == 3 && s[0] as int == 0xE2 && s[1] as int == 0x80
    ensures s[2] as int == 0xA8 ==> EncodeString(s) == "\\u2028"
    ensures s[2] as int == 0xA9 ==> EncodeString(s) == "\\u2029"
  {
    if s[2] as int == 0xA8 || s[2] as int == 0xA9 {
      OneCharacter(s);
    }
  }

  // ----- printed text has no control characters

  predicate NoControls(t: Bytes) { forall i :: 0 <= i < |t| ==> t[i] >= ' ' }

  lemma {:induction false} StringHasNoControls(s: Bytes)
    ensures NoControls(EncodeString(s))
    decreases |s|
  {
    if s != [] {
      StringHasNoControls(s[StepWidth(s)..]);
      var e := EncodeFirst(s);
      assert NoControls(e);
    }
  }

  lemma {:induction false} NatHasNoControls(n: nat)
    ensures NoControls(PrintNat(n))
    decreases n
  {
    if n >= 10 {
      NatHasNoControls(n / 10);
    }
  }

  lemma {:induction false} PrintHasNoControls(v: Json)
    ensures NoControls(Print(v))
    decreases v, 1
  {
    match v {
      case Int(n) => NatHasNoControls(if n < 0 then -n else n);
      case Str(s) => StringHasNoControls(s);
      case Arr(elems) => ElemsHaveNoControls(elems);
      case Obj(members) => MembersHaveNoControls(members);
      case _ =>
    }
  }

  lemma {:induction false} ElemsHaveNoControls(elems: seq<Json>)
    ensures NoControls(PrintElems(elems))
    decreases elems, 0
  {
    if elems != [] {
      PrintHasNoControls(elems[0]);
      ElemsHaveNoControls(elems[1..]);
    }
  }

  lemma {:induction false} MembersHaveNoControls(members: seq<Member>)
    ensures NoControls(PrintMembers(members))
    decreases members, 0
  {
    if members != [] {
      StringHasNoControls(members[0].key);
      PrintHasNoControls(members[0].value);
      MembersHaveNoControls(members[1..]);
    }
  }
}
