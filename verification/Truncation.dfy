/** Cutting text to a size without splitting a code point: tool results,
    trace events and workspace files. */
module Truncation {
  import opened Common
  import opened Utf8
  import JsonText

  /** `s` without its malformed bytes. */
  function Dropped(s: Bytes): (t: Bytes)
    ensures |t| <= |s|
    decreases |s|
  {
    if s == [] then []
    else s[..RuneWidth(s)] + Dropped(s[StepWidth(s)..])
  }

  /** How far `s` is well-formed. */
  function ValidLength(s: Bytes): (n: nat)
    ensures n <= |s|
    decreases |s|
  {
    if s == [] || RuneWidth(s) == 0 then 0 else RuneWidth(s) + ValidLength(s[RuneWidth(s)..])
  }

  // ----- facts about prefixes

  lemma {:induction false} DroppedIsValid(s: Bytes)
    ensures Valid(Dropped(s))
    decreases |s|
  {
    if s != [] {
      DroppedIsValid(s[StepWidth(s)..]);
      if RuneWidth(s) > 0 {
        WidthInPrefix(s, RuneWidth(s));
        assert s[..RuneWidth(s)][RuneWidth(s)..] == [];
        ValidConcat(s[..RuneWidth(s)], Dropped(s[StepWidth(s)..]));
      } else {
        assert s[..0] + Dropped(s[1..]) == Dropped(s[1..]);
      }
    }
  }

  lemma {:induction false} ValidLengthIsValid(s: Bytes)
    ensures Valid(s[..ValidLength(s)])
    decreases |s|
  {
    var w, n := RuneWidth(s), ValidLength(s);
    if s != [] && w > 0 {
      ValidLengthIsValid(s[w..]);
      WidthInPrefix(s, n);
      assert s[..n][w..] == s[w..][..n - w];
    }
  }

  lemma {:induction false} ValidPrefixIsShort(s: Bytes, m: nat)
    requires m <= |s| && Valid(s[..m])
    ensures m <= ValidLength(s)
    decreases |s|
  {
    if m > 0 {
      var w := RuneWidth(s);
      assert s[..m] != [];
      WidthInPrefix(s, m);
      assert s[..m][w..] == s[w..][..m - w];
      ValidPrefixIsShort(s[w..], m - w);
    }
  }

  lemma {:induction false} ValidIsKept(s: Bytes)
    requires Valid(s)
    ensures Dropped(s) == s
    decreases |s|
  {
    if s != [] {
      ValidIsKept(s[RuneWidth(s)..]);
    }
  }

  lemma WidthBeforeBad(a: Bytes, bad: Byte, b: Bytes)
    requires a != [] && bad as int >= 0xF8
    ensures RuneWidth(a + [bad] + b) == RuneWidth(a)
  {
    var s := a + [bad] + b;
    assert s[|a|] == bad;
    assert forall i :: 0 <= i < |a| ==> s[i] == a[i];
  }

  lemma DroppedStep(s: Bytes, w: nat, rest: Bytes)
    requires s != [] && w == RuneWidth(s) && rest == s[StepWidth(s)..]
    ensures Dropped(s) == s[..w] + Dropped(rest)
  {}

  lemma SlicesBeforeBad(a: Bytes, bad: Byte, b: Bytes, n: nat)
    requires n <= |a|
    ensures (a + [bad] + b)[..n] == a[..n] && (a + [bad] + b)[n..] == a[n..] + [bad] + b
  {}

  lemma {:induction false} BadByteSplits(a: Bytes, bad: Byte, b: Bytes)
    requires bad as int >= 0xF8
    ensures Dropped(a + [bad] + b) == Dropped(a) + Dropped(b)
    decreases |a|
  {
    var s := a + [bad] + b;
    if a == [] {
      SlicesBeforeBad(a, bad, b, 0);
      assert s[0] == bad && s[1..] == b;
      DroppedStep(s, 0, b);
    } else {
      var w, n := RuneWidth(a), StepWidth(a);
      WidthBeforeBad(a, bad, b);
      SlicesBeforeBad(a, bad, b, n);
      SlicesBeforeBad(a, bad, b, w);
      BadByteSplits(a[n..], bad, b);
      DroppedStep(s, w, a[n..] + [bad] + b);
      DroppedStep(a, w, a[n..]);
      Regroup(a[..w], Dropped(a[n..]), Dropped(b));
    }
  }

  /** A byte that no code point contains goes, and only that: well-formed text on
      either side of it stays. */
  lemma BadByteGoes(a: Bytes, bad: Byte, b: Bytes)
    requires bad as int >= 0xF8 && Valid(a) && Valid(b)
    ensures Dropped(a + [bad] + b) == a + b
  {
    BadByteSplits(a, bad, b);
    ValidIsKept(a);
    ValidIsKept(b);
  }

  /** The prefix of that length is well-formed and no longer prefix is. */
  lemma ValidLengthIsLongest(s: Bytes, m: nat)
    requires m <= |s|
    ensures Valid(s[..ValidLength(s)])
    ensures Valid(s[..m]) ==> m <= ValidLength(s)
  {
    ValidLengthIsValid(s);
    if Valid(s[..m]) {
      ValidPrefixIsShort(s, m);
    }
  }

  /** The front of a well-formed text that stops inside its first code point
      holds nothing that decodes. */
  lemma PartialRune(s: Bytes, n: nat)
    requires n < RuneWidth(s)
    ensures n <= 3 && ValidLength(s[..n]) == 0 && Dropped(s[..n]) == []
  {
    var t := s[..n];
    if n > 0 {
      assert RuneWidth(t) == 0;
      assert t[..0] == [];
      if n > 1 {
        assert RuneWidth(t[1..]) == 0 && t[1..][..0] == [];
        if n > 2 {
          assert RuneWidth(t[1..][1..]) == 0 && t[1..][1..][..0] == [];
          assert t[1..][1..][1..] == [];
        }
        assert Dropped(t[1..][1..]) == [];
      }
      assert Dropped(t[1..]) == [];
    }
  }

  /** Cutting well-formed text loses at most three bytes to the last code point. */
  lemma {:induction false} CutOfValid(s: Bytes, n: nat)
    requires Valid(s) && n <= |s|
    ensures n - 3 <= ValidLength(s[..n]) <= n
    decreases |s|
  {
    var w := RuneWidth(s);
    if n < w {
      PartialRune(s, n);
    } else if n > 0 {
      StepInPrefix(s, n);
      CutOfValid(s[w..], n - w);
    }
  }

  lemma FirstRuneKept(s: Bytes)
    requires RuneWidth(s) > 0
    ensures Dropped(s) == s[..RuneWidth(s)] + Dropped(s[RuneWidth(s)..])
    ensures ValidLength(s) == RuneWidth(s) + ValidLength(s[RuneWidth(s)..])
  {}

  lemma DropExtends(s: Bytes, n: nat, w: nat)
    requires 0 < w == RuneWidth(s) <= n <= |s|
    requires var front := s[w..][..n - w]; Dropped(front) == s[w..][..ValidLength(front)]
    ensures Dropped(s[..n]) == s[..ValidLength(s[..n])]
  {
    var cut, t := s[..n], s[w..];
    var front := t[..n - w];
    StepInPrefix(s, n);
    FirstRuneKept(cut);
    Glued(s, w, ValidLength(front));
    assert cut[..w] == s[..w] && cut[w..] == front;
  }

  /** Dropping malformed bytes from a cut well-formed text is cutting before them. */
  lemma {:induction false} DroppedFromCut(s: Bytes, n: nat)
    requires Valid(s) && n <= |s|
    ensures Dropped(s[..n]) == s[..ValidLength(s[..n])]
    decreases |s|
  {
    var w := RuneWidth(s);
    if n < w {
      PartialRune(s, n);
    } else if n > 0 {
      var t := s[w..];
      DroppedFromCut(t, n - w);
      DropExtends(s, n, w);
    }
  }

  lemma Glued(s: Bytes, w: nat, v: nat)
    requires w + v <= |s|
    ensures s[..w] + s[w..][..v] == s[..w + v]
  {}

  // ----- tool results

  const NOTE_START: Bytes := "\n\n[Truncated: showing first "
  const NOTE_MIDDLE: Bytes := " bytes of "
  const NOTE_END: Bytes := " total]"

  function Note(kept: nat, total: nat): Bytes {
    NOTE_START + JsonText.PrintNat(kept) + NOTE_MIDDLE + JsonText.PrintNat(total) + NOTE_END
  }

  function TruncateResult(s: Bytes, maxBytes: int): Bytes {
    if maxBytes <= 0 || |s| <= maxBytes then s
    else
      var kept := Dropped(s[..maxBytes]);
      kept + Note(|kept|, |s|)
  }

  /** Cut well-formed output keeps its longest well-formed prefix within the
      limit, says how long that is, and loses at most three bytes below the limit. */
  lemma ResultKeepsLongestPrefix(s: Bytes, maxBytes: int) returns (n: nat)
    requires 0 < maxBytes < |s| && Valid(s)
    ensures maxBytes - 3 <= n <= maxBytes
    ensures TruncateResult(s, maxBytes) == s[..n] + Note(n, |s|)
    ensures Valid(s[..n]) && forall m :: n < m <= maxBytes ==> !Valid(s[..m])
  {
    var cut := s[..maxBytes];
    n := ValidLength(cut);
    CutOfValid(s, maxBytes);
    DroppedFromCut(s, maxBytes);
    LongestInCut(s, maxBytes);
  }

  lemma NoteIs(kept: nat, total: nat)
    ensures Note(kept, total) == "\n\n[Truncated: showing first " + JsonText.PrintNat(kept) + " bytes of "
                                 + JsonText.PrintNat(total) + " total]"
    ensures SUFFIX == "...[truncated]"
  {}

  /** Output that fits, or any output without a limit, is passed on as it is;
      whatever is cut says so. */
  lemma FittingIsKept(s: Bytes, maxBytes: int)
    ensures maxBytes <= 0 || |s| <= maxBytes ==> TruncateResult(s, maxBytes) == s
    ensures 0 < maxBytes < |s| ==>
              exists kept: Bytes :: |kept| <= maxBytes && Valid(kept)
                                    && TruncateResult(s, maxBytes) == kept + Note(|kept|, |s|)
                                    && (Valid(s) ==> kept <= s && |kept| >= maxBytes - 3)
  {
    if 0 < maxBytes < |s| {
      var kept := Dropped(s[..maxBytes]);
      DroppedIsValid(s[..maxBytes]);
      if Valid(s) {
        CutOfValid(s, maxBytes);
        DroppedFromCut(s, maxBytes);
        assert kept <= s;
      }
    }
  }

  lemma LongestInCut(s: Bytes, limit: nat)
    requires limit <= |s|
    ensures var n := ValidLength(s[..limit]); Valid(s[..n]) && forall m :: n < m <= limit ==> !Valid(s[..m])
  {
    var cut := s[..limit];
    var n := ValidLength(cut);
    ValidLengthIsLongest(cut, n);
    assert s[..n] == cut[..n];
    forall m | n < m <= limit ensures !Valid(s[..m]) {
      ValidLengthIsLongest(cut, m);
      assert s[..m] == cut[..m];
    }
  }

  // ----- trace events

  const SUFFIX: Bytes := "...[truncated]"

  function TrimRightNuls(s: Bytes): (t: Bytes)
    ensures |t| <= |s|
    ensures t == s[..|t|] && (forall i :: |t| <= i < |s| ==> s[i] as int == 0)
    ensures t != [] ==> t[|t| - 1] as int != 0
  {
    if s != [] && s[|s| - 1] as int == 0 then TrimRightNuls(s[..|s| - 1]) else s
  }

  /** The loop shrinks the text byte by byte until it is well-formed. */
  method Truncate(s: Bytes, maxBytes: nat) returns (r: Bytes)
    ensures |r| <= maxBytes
    ensures |s| <= maxBytes ==> r == s
    ensures |s| > maxBytes && maxBytes <= |SUFFIX| ==> r == SUFFIX[..maxBytes]
    ensures |s| > maxBytes > |SUFFIX| ==>
              var cut := s[..maxBytes - |SUFFIX|];
              r == TrimRightNuls(cut[..ValidLength(cut)]) + SUFFIX
  {
    if |s| <= maxBytes {
      return s;
    }
    if maxBytes <= |SUFFIX| {
      return SUFFIX[..maxBytes];
    }
    var cut := s[..maxBytes - |SUFFIX|];
    var truncated := cut;
    ValidLengthIsLongest(cut, 0);
    assert cut == cut[..|cut|];
    while !Valid(truncated)
      invariant ValidLength(cut) <= |truncated| <= |cut| && truncated == cut[..|truncated|]
      decreases |truncated|
    {
      assert |truncated| != ValidLength(cut);
      truncated := truncated[..|truncated| - 1];
    }
    ValidLengthIsLongest(cut, |truncated|);
    r := TrimRightNuls(truncated) + SUFFIX;
  }

  lemma NoNulInRune(s: Bytes, n: nat)
    ensures 0 < n < RuneWidth(s) ==> s[n] as int != 0
  {}

  /** Removing trailing NULs keeps text well-formed. */
  lemma {:induction false} TrimmedStaysValid(s: Bytes, n: nat)
    requires Valid(s) && n <= |s| && forall i :: n <= i < |s| ==> s[i] as int == 0
    ensures Valid(s[..n])
    decreases |s|
  {
    if s != [] && n > 0 {
      var w := RuneWidth(s);
      NoNulInRune(s, n);
      var t := s[w..];
      forall i | n - w <= i < |t| && i >= 0 ensures t[i] as int == 0 {
        assert t[i] == s[w + i];
      }
      TrimmedStaysValid(t, n - w);
      StepInPrefix(s, n);
      ValidAfterRune(s[..n]);
    }
  }

  /** What is left of an event is well-formed whatever came in. */
  lemma EventIsValid(cut: Bytes)
    ensures Valid(TrimRightNuls(cut[..ValidLength(cut)]) + SUFFIX)
  {
    ValidLengthIsLongest(cut, 0);
    var kept := cut[..ValidLength(cut)];
    TrimmedStaysValid(kept, |TrimRightNuls(kept)|);
    AsciiIsValid(SUFFIX);
    ValidConcat(TrimRightNuls(kept), SUFFIX);
  }

  // ----- counting steps of a decoder

  /** A decoder by the width of its next step: steps are not empty, and a step
      does not look beyond its own end. */
  ghost predicate Steady(width: Bytes -> nat) {
    && (forall s :: s != [] ==> 0 < width(s) <= |s|)
    && (forall s, k: nat :: s != [] && width(s) <= k <= |s| ==> width(s[..k]) == width(s))
  }

  function CountBy(width: Bytes -> nat, s: Bytes): (n: nat)
    ensures n == 0 ==> s == [] || width(s) == 0 || width(s) > |s|
    decreases |s|
  {
    if s == [] || width(s) == 0 || width(s) > |s| then 0 else 1 + CountBy(width, s[width(s)..])
  }

  /** How far the first `n` steps reach. */
  function ReachBy(width: Bytes -> nat, s: Bytes, n: int): (k: nat)
    ensures k <= |s|
    decreases |s|
  {
    if s == [] || n <= 0 || width(s) == 0 || width(s) > |s| then 0
    else width(s) + ReachBy(width, s[width(s)..], n - 1)
  }

  /** The first steps of `s` start with its first step and go on with the first
      steps of the rest. */
  lemma FirstSteps(width: Bytes -> nat, s: Bytes, n: int) returns (cut: Bytes, rest: Bytes)
    requires Steady(width) && s != [] && n > 0
    ensures cut == s[..ReachBy(width, s, n)] && cut != [] && width(cut) == width(s) && width(s) <= |cut|
    ensures rest == s[width(s)..] && |rest| < |s|
    ensures cut[width(s)..] == rest[..ReachBy(width, rest, n - 1)]
  {
    cut, rest := s[..ReachBy(width, s, n)], s[width(s)..];
  }

  /** Exactly the first min(n, count) steps. */
  lemma {:induction false} FirstStepsCount(width: Bytes -> nat, s: Bytes, n: int)
    requires Steady(width)
    ensures CountBy(width, s[..ReachBy(width, s, n)]) == Min(Max(n, 0), CountBy(width, s))
    ensures n >= CountBy(width, s) ==> ReachBy(width, s, n) == |s|
    decreases |s|
  {
    if s != [] && n > 0 {
      var cut, rest := FirstSteps(width, s, n);
      FirstStepsCount(width, rest, n - 1);
    }
  }

  /** Cutting twice is cutting to the smaller number. */
  lemma {:induction false} CutStepsTwice(width: Bytes -> nat, s: Bytes, m: int, n: int)
    requires Steady(width)
    ensures ReachBy(width, s[..ReachBy(width, s, m)], n) == ReachBy(width, s, Min(m, n))
    decreases |s|
  {
    if s != [] && m > 0 && n > 0 {
      var cut, rest := FirstSteps(width, s, m);
      CutStepsTwice(width, rest, m - 1, n - 1);
    }
  }

  /** The cut lies `left` steps after position `i`. */
  ghost predicate StepsFrom(width: Bytes -> nat, s: Bytes, n: int, i: int, left: int) {
    0 <= i <= |s| && ReachBy(width, s, n) == i + ReachBy(width, s[i..], left)
  }

  lemma NextStep(width: Bytes -> nat, s: Bytes, n: int, i: nat, left: int)
    requires Steady(width) && StepsFrom(width, s, n, i, left) && i < |s| && left > 0
    ensures i < i + width(s[i..]) <= |s| && StepsFrom(width, s, n, i + width(s[i..]), left - 1)
  {
    var t := s[i..];
    assert t[width(t)..] == s[i + width(t)..];
  }

  /** The loop of `truncateRunes`, for any decoder. */
  method TruncateSteps(width: Bytes -> nat, s: Bytes, n: int) returns (r: Bytes)
    requires Steady(width)
    ensures r == s[..ReachBy(width, s, n)]
  {
    var runes, i := 0, 0;
    assert s[0..] == s;
    while i < |s|
      invariant 0 <= i <= |s| && StepsFrom(width, s, n, i, n - runes)
    {
      if runes >= n {
        return s[..i];
      }
      NextStep(width, s, n, i, n - runes);
      i, runes := i + width(s[i..]), runes + 1;
    }
    assert s[i..] == [] && s[..i] == s;
    r := s;
  }

  // ----- counting runes

  /** A range over a string decodes a code point, or one malformed byte. */
  function RuneStep(s: Bytes): nat { if s == [] then 0 else StepWidth(s) }

  /** The number of decoding steps, malformed bytes counting one each. */
  function RuneCount(s: Bytes): nat { CountBy(RuneStep, s) }

  /** How far the first `n` decoding steps reach. */
  function StepsLength(s: Bytes, n: int): (k: nat)
    ensures k <= |s|
  {
    ReachBy(RuneStep, s, n)
  }

  lemma RunesAreSteady()
    ensures Steady(RuneStep)
  {
    forall s, k: nat | s != [] && RuneStep(s) <= k <= |s| ensures RuneStep(s[..k]) == RuneStep(s) {
      StepInPrefix(s, k);
    }
  }

  method TruncateRunes(s: Bytes, n: int) returns (r: Bytes)
    ensures r == s[..StepsLength(s, n)]
  {
    RunesAreSteady();
    r := TruncateSteps(RuneStep, s, n);
  }

  /** Exactly the first min(n, count) runes. */
  lemma FirstRunes(s: Bytes, n: int)
    ensures RuneCount(s[..StepsLength(s, n)]) == Min(Max(n, 0), RuneCount(s))
    ensures n >= RuneCount(s) ==> StepsLength(s, n) == |s|
  {
    RunesAreSteady();
    FirstStepsCount(RuneStep, s, n);
  }

  lemma {:induction false} FirstRunesAreWhole(s: Bytes, n: int)
    requires Valid(s)
    ensures Valid(s[..StepsLength(s, n)])
    decreases |s|
  {
    if s != [] && n > 0 {
      var w, k := RuneWidth(s), StepsLength(s, n);
      FirstRunesAreWhole(s[w..], n - 1);
      StepInPrefix(s, k);
    }
  }

  /** Cutting twice is cutting to the smaller number. */
  lemma CutTwice(s: Bytes, m: int, n: int)
    ensures StepsLength(s[..StepsLength(s, m)], n) == StepsLength(s, Min(m, n))
  {
    RunesAreSteady();
    CutStepsTwice(RuneStep, s, m, n);
  }
}
