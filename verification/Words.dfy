/** Splitting and trimming at white space. */
module Words {
  import opened Common

  /** The characters Unicode calls white space. */
  predicate IsSpace(c: char) {
    var n := c as int;
    || 9 <= n <= 13 || n == 0x20 || n == 0x85 || n == 0xA0 || n == 0x1680 || 0x2000 <= n <= 0x200A
    || n == 0x2028 || n == 0x2029 || n == 0x202F || n == 0x205F || n == 0x3000
  }

  /** Among ASCII characters: space, and tab to carriage return. */
  lemma AsciiSpaces(c: char)
    requires c as int < 0x80
    ensures IsSpace(c) <==> c in {' ', '\t', '\n', 11 as char, 12 as char, '\r'}
  {}

  predicate Blank(s: string) { forall i :: 0 <= i < |s| ==> IsSpace(s[i]) }

  predicate Word(s: string) { s != [] && forall i :: 0 <= i < |s| ==> !IsSpace(s[i]) }

  /** Not empty, and no white space at either end. */
  predicate Trimmed(s: string) { s != [] && !IsSpace(s[0]) && !IsSpace(s[|s| - 1]) }

  function TrimLeft(s: string): (t: string)
    ensures |t| <= |s|
  {
    if s != [] && IsSpace(s[0]) then TrimLeft(s[1..]) else s
  }

  function TrimRight(s: string): (t: string)
    ensures |t| <= |s|
  {
    if s != [] && IsSpace(s[|s| - 1]) then TrimRight(s[..|s| - 1]) else s
  }

  function TrimSpace(s: string): string { TrimRight(TrimLeft(s)) }

  lemma {:induction false} TrimLeftOf(a: string, s: string)
    requires Blank(a) && (s == [] || !IsSpace(s[0]))
    ensures TrimLeft(a + s) == s
  {
    if a == [] {
      assert a + s == s;
    } else {
      assert (a + s)[1..] == a[1..] + s;
      TrimLeftOf(a[1..], s);
    }
  }

  lemma {:induction false} TrimRightOf(s: string, b: string)
    requires Blank(b) && (s == [] || !IsSpace(s[|s| - 1]))
    ensures TrimRight(s + b) == s
  {
    if b == [] {
      assert s + b == s;
    } else {
      assert (s + b)[..|s + b| - 1] == s + b[..|b| - 1];
      TrimRightOf(s, b[..|b| - 1]);
    }
  }

  /** Trimming finds what lies between blanks, whatever the blanks are. */
  lemma TrimBetween(a: string, s: string, b: string)
    requires Blank(a) && Blank(b) && (s == [] || Trimmed(s))
    ensures TrimSpace(a + s + b) == s
  {
    if s == [] {
      TrimLeftOf(a + b, s);
      assert a + s + b == a + b + s;
    } else {
      TrimLeftOf(a, s + b);
      assert a + s + b == a + (s + b);
      TrimRightOf(s, b);
    }
  }

  lemma {:induction false} TrimLeftSplits(s: string) returns (a: string)
    ensures s == a + TrimLeft(s) && Blank(a)
    ensures TrimLeft(s) != [] ==> !IsSpace(TrimLeft(s)[0])
  {
    a := [];
    if s != [] && IsSpace(s[0]) {
      var rest := TrimLeftSplits(s[1..]);
      a := [s[0]] + rest;
    }
  }

  lemma {:induction false} TrimRightSplits(s: string) returns (b: string)
    ensures s == TrimRight(s) + b && Blank(b)
    ensures TrimRight(s) != [] ==> !IsSpace(TrimRight(s)[|TrimRight(s)| - 1])
  {
    b := [];
    if s != [] && IsSpace(s[|s| - 1]) {
      var front := TrimRightSplits(s[..|s| - 1]);
      b := front + [s[|s| - 1]];
    }
  }

  /** What is trimmed away is blank, and what is left is trimmed. */
  lemma TrimSplits(s: string) returns (a: string, b: string)
    ensures s == a + TrimSpace(s) + b && Blank(a) && Blank(b)
    ensures TrimSpace(s) == [] || Trimmed(TrimSpace(s))
  {
    a := TrimLeftSplits(s);
    b := TrimRightSplits(TrimLeft(s));
    Regroup(a, TrimSpace(s), b);
  }

  /** The length of the word at the front of `s`. */
  function WordLength(s: string): (n: nat)
    ensures n <= |s| && (n > 0 ==> Word(s[..n])) && (n < |s| ==> IsSpace(s[n]))
  {
    if s != [] && !IsSpace(s[0]) then 1 + WordLength(s[1..]) else 0
  }

  function Fields(s: string): seq<string>
    decreases |s|
  {
    var t := TrimLeft(s);
    if t == [] then [] else [t[..WordLength(t)]] + Fields(t[WordLength(t)..])
  }

  lemma {:induction false} FieldsAreWords(s: string)
    ensures forall w :: w in Fields(s) ==> Word(w)
    decreases |s|
  {
    var t := TrimLeft(s);
    var a := TrimLeftSplits(s);
    if t != [] {
      assert WordLength(t) > 0;
      FieldsAreWords(t[WordLength(t)..]);
    }
  }

  // ----- what the fields of a text are

  /** Words with white space before, between and after them. */
  function Laid(words: seq<string>, gaps: seq<string>): string
    requires |gaps| == |words| + 1
  {
    if words == [] then gaps[0] else gaps[0] + (words[0] + Laid(words[1..], gaps[1..]))
  }

  /** The gaps are white space, and only the outer two may be empty. */
  predicate Gaps(gaps: seq<string>) {
    && (forall k :: 0 <= k < |gaps| ==> Blank(gaps[k]))
    && (forall k :: 0 < k < |gaps| - 1 ==> gaps[k] != "")
  }

  ghost predicate Layout(s: string, words: seq<string>, gaps: seq<string>) {
    && |gaps| == |words| + 1 && Gaps(gaps)
    && (forall k :: 0 <= k < |words| ==> Word(words[k]))
    && s == Laid(words, gaps)
  }

  lemma {:induction false} WordLengthOf(w: string, rest: string)
    requires Word(w) && (rest != [] ==> IsSpace(rest[0]))
    ensures WordLength(w + rest) == |w|
  {
    assert (w + rest)[1..] == w[1..] + rest;
    if |w| > 1 {
      WordLengthOf(w[1..], rest);
    } else {
      assert w[1..] + rest == rest;
    }
  }

  lemma FirstField(a: string, w: string, rest: string)
    requires Blank(a) && Word(w) && (rest != [] ==> IsSpace(rest[0]))
    ensures Fields(a + (w + rest)) == [w] + Fields(rest)
  {
    var t := w + rest;
    TrimLeftOf(a, t);
    WordLengthOf(w, rest);
    assert t[..|w|] == w && t[|w|..] == rest;
  }

  /** Words read back from any layout of them. */
  lemma {:induction false} LaidReads(words: seq<string>, gaps: seq<string>)
    requires |gaps| == |words| + 1 && Gaps(gaps) && forall k :: 0 <= k < |words| ==> Word(words[k])
    ensures Fields(Laid(words, gaps)) == words
  {
    if words == [] {
      TrimLeftOf(gaps[0], []);
      assert gaps[0] + [] == gaps[0];
    } else {
      var rest := Laid(words[1..], gaps[1..]);
      assert gaps[1..][0] == gaps[1] && Blank(gaps[1]);
      assert |words| > 1 ==> gaps[1] != "";
      FirstField(gaps[0], words[0], rest);
      LaidReads(words[1..], gaps[1..]);
    }
  }

  lemma OneMoreWord(a: string, t: string, n: nat, words: seq<string>, gaps: seq<string>)
    requires Blank(a) && n <= |t| && Word(t[..n]) && Layout(t[n..], words, gaps) && (n < |t| ==> IsSpace(t[n]))
    ensures Layout(a + t, [t[..n]] + words, [a] + gaps)
  {
    var w, rest := t[..n], t[n..];
    assert t == w + rest;
    assert ([w] + words)[1..] == words && ([a] + gaps)[1..] == gaps;
    if words != [] {
      var more := Laid(words[1..], gaps[1..]);
      assert rest == gaps[0] + (words[0] + more);
      assert (gaps[0] + (words[0] + more))[|gaps[0]|] == words[0][0];
    }
  }

  /** And any text is a layout of its fields. */
  lemma {:induction false} FieldsAreLaid(s: string) returns (gaps: seq<string>)
    ensures Layout(s, Fields(s), gaps)
    decreases |s|
  {
    var a := TrimLeftSplits(s);
    var t := TrimLeft(s);
    if t == [] {
      gaps := [a];
      BlankIsLaid(a);
      assert s == a;
    } else {
      var n := WordLength(t);
      var more := FieldsAreLaid(t[n..]);
      OneMoreWord(a, t, n, Fields(t[n..]), more);
      gaps := [a] + more;
    }
  }

  lemma BlankIsLaid(a: string)
    requires Blank(a)
    ensures Layout(a, [], [a])
  {}

  /** The fields of a text are the words of its layout, whatever the white space. */
  lemma FieldsAreExactly(s: string, words: seq<string>)
    ensures Fields(s) == words <==> exists gaps :: Layout(s, words, gaps)
  {
    var own := FieldsAreLaid(s);
    assert Layout(s, Fields(s), own);
    if exists gaps :: Layout(s, words, gaps) {
      var gaps :| Layout(s, words, gaps);
      LaidReads(words, gaps);
    }
  }

  /** One space between words and none around them. */
  function Joined(words: seq<string>): string {
    if words == [] then [] else if |words| == 1 then words[0] else words[0] + (" " + Joined(words[1..]))
  }

  /** A space-separated list of words reads back as those words. */
  lemma {:induction false} JoinedRoundTrip(words: seq<string>)
    requires forall w :: w in words ==> Word(w)
    ensures Fields(Joined(words)) == words
  {
    if words != [] {
      var rest := if |words| == 1 then "" else " " + Joined(words[1..]);
      assert words[0] in words && Joined(words) == words[0] + rest;
      FirstField([], words[0], rest);
      assert [] + (words[0] + rest) == words[0] + rest;
      if |words| == 1 {
        assert Fields(rest) == [];
      } else {
        FieldsSkipsSpace(Joined(words[1..]));
        JoinedRoundTrip(words[1..]);
      }
    }
  }

  lemma FieldsSkipsSpace(s: string)
    ensures Fields(" " + s) == Fields(s)
  {
    assert (" " + s)[1..] == s;
    assert TrimLeft(" " + s) == TrimLeft(s);
  }

  /** A maximal stretch of `s` without white space. */
  ghost predicate RunAt(s: string, i: int, j: int) {
    && 0 <= i < j <= |s| && Word(s[i..j])
    && (i > 0 ==> IsSpace(s[i - 1])) && (j < |s| ==> IsSpace(s[j]))
  }

  ghost predicate HasRun(s: string, w: string) { exists i, j :: RunAt(s, i, j) && s[i..j] == w }

  lemma RunInTail(s: string, k: nat, i: int, j: int)
    requires k < i && k <= |s|
    ensures RunAt(s, i, j) <==> RunAt(s[k..], i - k, j - k)
    ensures i <= j <= |s| ==> s[i..j] == s[k..][i - k..j - k]
  {
    var t := s[k..];
    if i <= j <= |s| {
      assert s[i..j] == t[i - k..j - k];
      assert s[i - 1] == t[i - k - 1];
      assert j < |s| ==> s[j] == t[j - k];
    }
  }

  lemma RunIsDark(s: string, i: int, j: int)
    ensures RunAt(s, i, j) ==> forall m :: i <= m < j ==> !IsSpace(s[m])
  {
    if RunAt(s, i, j) {
      var w := s[i..j];
      assert forall m :: i <= m < j ==> s[m] == w[m - i];
    }
  }

  /** A run of `s` is its first one, or lies beyond it. */
  lemma RunsInOrder(s: string, k: nat, n: nat, i: int, j: int)
    requires k < n <= |s| && (forall m :: 0 <= m < k ==> IsSpace(s[m])) && RunAt(s, k, n) && RunAt(s, i, j)
    ensures (i == k && j == n) || i > n
  {
    RunIsDark(s, k, n);
    RunIsDark(s, i, j);
    assert !IsSpace(s[i]) && !IsSpace(s[j - 1]);
  }

  lemma NoRunAtSpace(s: string, j: int)
    requires s != [] ==> IsSpace(s[0])
    ensures !RunAt(s, 0, j)
  {
    RunIsDark(s, 0, j);
  }

  lemma BlankHasNoRun(s: string, i: int, j: int)
    requires Blank(s)
    ensures !RunAt(s, i, j)
  {
    RunIsDark(s, i, j);
    if 0 <= i < |s| {
      assert IsSpace(s[i]);
    }
  }

  lemma FirstOrLater(s: string, k: nat, n: nat, w: string)
    requires k < n <= |s| && (forall m :: 0 <= m < k ==> IsSpace(s[m])) && RunAt(s, k, n)
    ensures HasRun(s, w) <==> w == s[k..n] || HasRun(s[n..], w)
  {
    if HasRun(s, w) {
      var i, j :| RunAt(s, i, j) && s[i..j] == w;
      RunsInOrder(s, k, n, i, j);
      if i > n {
        RunInTail(s, n, i, j);
      }
    }
    if HasRun(s[n..], w) {
      var i, j :| RunAt(s[n..], i, j) && s[n..][i..j] == w;
      NoRunAtSpace(s[n..], j);
      RunInTail(s, n, i + n, j + n);
    }
  }

  /** A word is among the fields exactly when it is a maximal stretch of the text
      without white space. */
  lemma {:induction false} FieldsAreRuns(s: string, w: string)
    ensures w in Fields(s) <==> HasRun(s, w)
    decreases |s|
  {
    var a := TrimLeftSplits(s);
    var t := TrimLeft(s);
    var k := |a|;
    assert forall m :: 0 <= m < k ==> s[m] == a[m];
    if t == [] {
      assert s == a;
      forall i, j ensures !RunAt(s, i, j) {
        BlankHasNoRun(s, i, j);
      }
    } else {
      var n := WordLength(t);
      FirstWordAt(a, t, n);
      FirstOrLater(s, k, k + n, w);
      FieldsAreRuns(t[n..], w);
    }
  }

  lemma FirstWordAt(a: string, t: string, n: nat)
    requires Blank(a) && t != [] && !IsSpace(t[0]) && n == WordLength(t)
    ensures var s := a + t; RunAt(s, |a|, |a| + n) && s[|a|..|a| + n] == t[..n] && s[|a| + n..] == t[n..]
  {
    var s := a + t;
    assert s[|a|..|a| + n] == t[..n];
    assert n < |t| ==> s[|a| + n] == t[n];
    assert a != [] ==> s[|a| - 1] == a[|a| - 1];
  }
}
