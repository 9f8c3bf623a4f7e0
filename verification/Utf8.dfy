/** Byte strings and well-formed UTF-8 (section 4 of RFC 3629). */
module Utf8 {
  /** A byte, written as the character with that code. */
  type Byte = c: char | (c as int) < 256

  type Bytes = seq<Byte>

  predicate In(c: Byte, lo: int, hi: int) { lo <= c as int <= hi }

  predicate Tail(c: Byte) { In(c, 0x80, 0xBF) }

  /** The width of the well-formed code point at the front of `s`, 0 if there is none. */
  function RuneWidth(s: Bytes): (w: nat)
    ensures w <= |s| && w <= 4
  {
    if |s| >= 1 && s[0] as int < 0x80 then 1
    else if |s| >= 2 && In(s[0], 0xC2, 0xDF) && Tail(s[1]) then 2
    else if |s| >= 3 && Lead3(s[0], s[1]) && Tail(s[2]) then 3
    else if |s| >= 4 && Lead4(s[0], s[1]) && Tail(s[2]) && Tail(s[3]) then 4
    else 0
  }

  predicate Lead3(a: Byte, b: Byte) {
    || (a as int == 0xE0 && In(b, 0xA0, 0xBF))
    || ((In(a, 0xE1, 0xEC) || In(a, 0xEE, 0xEF)) && Tail(b))
    || (a as int == 0xED && In(b, 0x80, 0x9F))
  }

  predicate Lead4(a: Byte, b: Byte) {
    || (a as int == 0xF0 && In(b, 0x90, 0xBF))
    || (In(a, 0xF1, 0xF3) && Tail(b))
    || (a as int == 0xF4 && In(b, 0x80, 0x8F))
  }

  predicate Valid(s: Bytes)
    decreases |s|
  {
    s == [] || (RuneWidth(s) > 0 && Valid(s[RuneWidth(s)..]))
  }

  /** The step a decoder takes: one code point, or one malformed byte. */
  function StepWidth(s: Bytes): (w: nat)
    requires s != []
    ensures 1 <= w <= |s|
  {
    if RuneWidth(s) > 0 then RuneWidth(s) else 1
  }

  /** The encoding of U+FFFD. */
  const REPLACEMENT: Bytes := [0xEF as char, 0xBF as char, 0xBD as char]

  /** `s` with every malformed byte replaced by U+FFFD. */
  function Sanitize(s: Bytes): Bytes
    decreases |s|
  {
    if s == [] then []
    else (if RuneWidth(s) > 0 then s[..RuneWidth(s)] else REPLACEMENT) + Sanitize(s[StepWidth(s)..])
  }

  lemma WidthOfPrefix(s: Bytes, t: Bytes)
    requires RuneWidth(s) > 0
    ensures RuneWidth(s[..RuneWidth(s)] + t) == RuneWidth(s)
  {}

  /** A code point seen in a prefix is seen in the whole, and the other way
      round when the prefix is long enough. */
  lemma WidthInPrefix(s: Bytes, n: nat)
    requires n <= |s|
    ensures RuneWidth(s[..n]) > 0 ==> RuneWidth(s) == RuneWidth(s[..n])
    ensures 0 < RuneWidth(s) <= n ==> RuneWidth(s[..n]) == RuneWidth(s)
  {}

  /** So decoding a long enough prefix starts as decoding the whole does. */
  lemma StepInPrefix(s: Bytes, n: nat)
    requires s != [] && StepWidth(s) <= n <= |s|
    ensures RuneWidth(s[..n]) == RuneWidth(s) && StepWidth(s[..n]) == StepWidth(s)
    ensures s[..n][..StepWidth(s)] == s[..StepWidth(s)]
    ensures s[..n][StepWidth(s)..] == s[StepWidth(s)..][..n - StepWidth(s)]
  {
    WidthInPrefix(s, n);
  }

  lemma ValidAfterRune(s: Bytes)
    requires RuneWidth(s) > 0
    ensures Valid(s) <==> Valid(s[RuneWidth(s)..])
  {}

  lemma {:induction false} ValidConcat(a: Bytes, b: Bytes)
    requires Valid(a) && Valid(b)
    ensures Valid(a + b)
    decreases |a|
  {
    if a == [] {
      assert a + b == b;
    } else {
      var w := RuneWidth(a);
      WidthOfPrefix(a, a[w..] + b);
      assert a + b == a[..w] + (a[w..] + b);
      assert (a + b)[w..] == a[w..] + b;
      ValidConcat(a[w..], b);
    }
  }

  lemma {:induction false} SanitizeIsValid(s: Bytes)
    ensures Valid(Sanitize(s))
    decreases |s|
  {
    if s != [] {
      SanitizeIsValid(s[StepWidth(s)..]);
      if RuneWidth(s) > 0 {
        WidthOfPrefix(s, []);
        assert s[..RuneWidth(s)] + [] == s[..RuneWidth(s)];
        assert s[..RuneWidth(s)][RuneWidth(s)..] == [];
        assert Valid(s[..RuneWidth(s)]);
        ValidConcat(s[..RuneWidth(s)], Sanitize(s[StepWidth(s)..]));
      } else {
        assert REPLACEMENT[RuneWidth(REPLACEMENT)..] == [];
        assert Valid(REPLACEMENT);
        ValidConcat(REPLACEMENT, Sanitize(s[StepWidth(s)..]));
      }
    }
  }

  /** Well-formed text is exactly what replacement leaves alone. */
  lemma {:induction false} SanitizeFixesValid(s: Bytes)
    ensures Valid(s) <==> Sanitize(s) == s
    decreases |s|
  {
    SanitizeIsValid(s);
    if s != [] && Valid(s) {
      SanitizeFixesValid(s[RuneWidth(s)..]);
    }
  }

  lemma {:induction false} AsciiIsValid(s: Bytes)
    requires forall i :: 0 <= i < |s| ==> s[i] as int < 0x80
    ensures Valid(s) && Sanitize(s) == s
    decreases |s|
  {
    if s != [] {
      AsciiIsValid(s[1..]);
    }
  }
}
