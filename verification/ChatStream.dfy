/** The server side of a streamed chat completion: content is split into
    tokens and each token is printed as one server-sent event. */
module ChatStream {
  import opened Common
  import opened Utf8
  import opened JsonText

  predicate IsBlank(c: Byte) { c == ' ' || c == '\t' || c == '\n' || c == '\r' }

  /** The length of the longest prefix whose bytes are all blank, or all not. */
  function RunLength(s: Bytes, blank: bool): (n: nat)
    ensures n <= |s|
    ensures forall i :: 0 <= i < n ==> IsBlank(s[i]) == blank
    ensures n < |s| ==> IsBlank(s[n]) != blank
  {
    if s != [] && IsBlank(s[0]) == blank then 1 + RunLength(s[1..], blank) else 0
  }

  /** The maximal runs of blank and non-blank bytes, in order. */
  function Tokens(s: Bytes): seq<Bytes>
    decreases |s|
  {
    if s == [] then []
    else
      var n := RunLength(s, IsBlank(s[0]));
      [s[..n]] + Tokens(s[n..])
  }

  /** The tokens of the first `i` bytes have been taken. */
  ghost predicate Taken(s: Bytes, i: nat, tokens: seq<Bytes>) {
    i <= |s| && tokens + Tokens(s[i..]) == Tokens(s)
  }

  lemma NothingTaken(s: Bytes)
    ensures Taken(s, 0, [])
  {
    assert s[0..] == s;
  }

  lemma AllTaken(s: Bytes, tokens: seq<Bytes>)
    requires Taken(s, |s|, tokens)
    ensures tokens == Tokens(s)
  {
    assert s[|s|..] == [] && tokens + [] == tokens;
  }

  lemma OneMoreTaken(s: Bytes, i: nat, j: nat, tokens: seq<Bytes>)
    requires Taken(s, i, tokens) && i < j <= |s| && forall k :: i <= k < j ==> IsBlank(s[k]) == IsBlank(s[i])
    requires j < |s| ==> IsBlank(s[j]) != IsBlank(s[i])
    ensures Taken(s, j, tokens + [s[i..j]])
  {
    TokensFrom(s, i, j);
    Regroup(tokens, [s[i..j]], Tokens(s[j..]));
  }

  method Tokenize(s: Bytes) returns (tokens: seq<Bytes>)
    ensures tokens == Tokens(s)
  {
    tokens := [];
    var i := 0;
    NothingTaken(s);
    while i < |s|
      invariant 0 <= i <= |s| && Taken(s, i, tokens)
    {
      var j := i;
      if IsBlank(s[i]) {
        while j < |s| && IsBlank(s[j])
          invariant i <= j <= |s|
          invariant forall k :: i <= k < j ==> IsBlank(s[k])
        {
          j := j + 1;
        }
      } else {
        while j < |s| && !IsBlank(s[j])
          invariant i <= j <= |s|
          invariant forall k :: i <= k < j ==> !IsBlank(s[k])
        {
          j := j + 1;
        }
      }
      OneMoreTaken(s, i, j, tokens);
      tokens := tokens + [s[i..j]];
      i := j;
    }
    AllTaken(s, tokens);
  }

  lemma {:induction false} RunLengthIs(s: Bytes, blank: bool, i: nat, j: nat)
    requires i <= j <= |s| && forall k :: i <= k < j ==> IsBlank(s[k]) == blank
    requires j < |s| ==> IsBlank(s[j]) != blank
    ensures RunLength(s[i..], blank) == j - i
    decreases j - i
  {
    if i < j {
      RunLengthIs(s, blank, i + 1, j);
      assert s[i..][1..] == s[i + 1..];
    }
  }

  lemma SlicesAt(s: Bytes, i: nat, j: nat)
    requires i <= j <= |s|
    ensures s[i..][..j - i] == s[i..j] && s[i..][j - i..] == s[j..]
  {}

  lemma TokensStart(t: Bytes, n: nat, first: Bytes, rest: Bytes)
    requires t != [] && n == RunLength(t, IsBlank(t[0])) && first == t[..n] && rest == t[n..]
    ensures Tokens(t) == [first] + Tokens(rest)
  {}

  lemma TokensFrom(s: Bytes, i: nat, j: nat)
    requires i < j <= |s| && forall k :: i <= k < j ==> IsBlank(s[k]) == IsBlank(s[i])
    requires j < |s| ==> IsBlank(s[j]) != IsBlank(s[i])
    ensures Tokens(s[i..]) == [s[i..j]] + Tokens(s[j..])
  {
    RunLengthIs(s, IsBlank(s[i]), i, j);
    SlicesAt(s, i, j);
    TokensStart(s[i..], j - i, s[i..j], s[j..]);
  }

  function Concat(parts: seq<Bytes>): Bytes {
    if parts == [] then [] else parts[0] + Concat(parts[1..])
  }

  ghost predicate Uniform(t: Bytes) { t != [] && forall i :: 0 <= i < |t| ==> IsBlank(t[i]) == IsBlank(t[0]) }

  predicate BlankRun(t: Bytes) { t != [] && IsBlank(t[0]) }

  lemma {:induction false} TokensJoin(s: Bytes)
    ensures Concat(Tokens(s)) == s
    decreases |s|
  {
    if s != [] {
      var n := RunLength(s, IsBlank(s[0]));
      var rest := Tokens(s[n..]);
      TokensJoin(s[n..]);
      assert ([s[..n]] + rest)[1..] == rest;
      assert s[..n] + s[n..] == s;
    }
  }

  /** Non-empty runs of one kind, alternating, the first of the kind the text starts with. */
  ghost predicate Runs(tokens: seq<Bytes>, s: Bytes) {
    && (forall k :: 0 <= k < |tokens| ==> Uniform(tokens[k]))
    && (s != [] ==> tokens != [] && BlankRun(tokens[0]) == IsBlank(s[0]))
    && (s == [] ==> tokens == [])
    && (forall k :: 0 <= k < |tokens| - 1 ==> BlankRun(tokens[k]) != BlankRun(tokens[k + 1]))
  }

  lemma OneMoreRun(first: Bytes, rest: seq<Bytes>, t: Bytes)
    requires Uniform(first) && Runs(rest, t) && (t != [] ==> IsBlank(t[0]) != IsBlank(first[0]))
    ensures Runs([first] + rest, first + t)
  {
    var all := [first] + rest;
    forall k | 0 < k < |all| ensures all[k] == rest[k - 1] {}
  }

  lemma {:induction false} TokensAreRuns(s: Bytes)
    ensures Runs(Tokens(s), s)
    decreases |s|
  {
    if s != [] {
      var n := RunLength(s, IsBlank(s[0]));
      TokensAreRuns(s[n..]);
      assert s[n..] != [] ==> s[n..][0] == s[n];
      OneMoreRun(s[..n], Tokens(s[n..]), s[n..]);
      assert s[..n] + s[n..] == s;
    }
  }

  /** Tokens concatenate to the input, are non-empty, hold only blanks or only
      non-blanks, and alternate between the two. */
  lemma BlanksAre(c: Byte)
    ensures IsBlank(c) <==> c in {' ', '\t', '\n', '\r'}
  {}

  lemma TokensShape(s: Bytes)
    ensures Concat(Tokens(s)) == s
    ensures forall k :: 0 <= k < |Tokens(s)| ==> Uniform(Tokens(s)[k])
    ensures s != [] ==> Tokens(s) != [] && BlankRun(Tokens(s)[0]) == IsBlank(s[0])
    ensures forall k :: 0 <= k < |Tokens(s)| - 1 ==> BlankRun(Tokens(s)[k]) != BlankRun(Tokens(s)[k + 1])
  {
    TokensJoin(s);
    TokensAreRuns(s);
  }

  lemma RuneWithinRun(s: Bytes, blank: bool)
    requires RuneWidth(s) > 0 && RunLength(s, blank) > 0
    ensures RuneWidth(s) <= RunLength(s, blank)
  {
    assert RuneWidth(s) > 1 ==> forall i :: 0 <= i < RuneWidth(s) ==> !IsBlank(s[i]);
  }

  /** A token boundary never falls inside a code point. */
  lemma {:induction false} RunSplitsBetweenRunes(s: Bytes, blank: bool)
    requires Valid(s)
    ensures Valid(s[..RunLength(s, blank)]) && Valid(s[RunLength(s, blank)..])
    decreases |s|
  {
    var n := RunLength(s, blank);
    if n > 0 {
      var w := RuneWidth(s);
      var t := s[w..];
      RuneWithinRun(s, blank);
      RunLengthFrom(s, blank, w);
      RunSplitsBetweenRunes(t, blank);
      assert RunLength(t, blank) == n - w;
      SplitAfterRune(s, n);
    }
  }

  lemma SplitAfterRune(s: Bytes, n: nat)
    requires 0 < RuneWidth(s) <= n <= |s|
    requires Valid(s[RuneWidth(s)..][..n - RuneWidth(s)]) && Valid(s[RuneWidth(s)..][n - RuneWidth(s)..])
    ensures Valid(s[..n]) && Valid(s[n..])
  {
    var w := RuneWidth(s);
    StepInPrefix(s, n);
    ValidAfterRune(s[..n]);
    assert s[n..] == s[w..][n - w..];
  }

  lemma {:induction false} RunLengthFrom(s: Bytes, blank: bool, w: nat)
    requires w <= RunLength(s, blank)
    ensures RunLength(s[w..], blank) == RunLength(s, blank) - w
  {
    if w > 0 {
      RunLengthFrom(s[1..], blank, w - 1);
      assert s[1..][w - 1..] == s[w..];
    }
  }

  lemma {:induction false} TokensKeepRunes(s: Bytes)
    requires Valid(s)
    ensures forall k :: 0 <= k < |Tokens(s)| ==> Valid(Tokens(s)[k])
    decreases |s|
  {
    if s != [] {
      var n := RunLength(s, IsBlank(s[0]));
      RunSplitsBetweenRunes(s, IsBlank(s[0]));
      TokensKeepRunes(s[n..]);
    }
  }

  // ----- the events

  /** The JSON of one chunk, its fields in the order the server declares them. */
  function ChunkJson(id: Bytes, created: int, model: Bytes, delta: seq<Member>, finish: Json): Json {
    Obj(ChunkMembers(id, created, model, Obj(ChoiceMembers(delta, finish))))
  }

  function ChunkMembers(id: Bytes, created: int, model: Bytes, choice: Json): seq<Member> {
    [Member("id", Str(id)), Member("object", Str("chat.completion.chunk")), Member("created", Int(created)),
     Member("model", Str(model)), Member("choices", Arr([choice]))]
  }

  function ChoiceMembers(delta: seq<Member>, finish: Json): seq<Member> {
    [Member("index", Int(0)), Member("delta", Obj(delta)), Member("finish_reason", finish)]
  }

  function RoleChunk(id: Bytes, created: int, model: Bytes): Json {
    ChunkJson(id, created, model, [Member("role", Str("assistant"))], Null)
  }

  /** Empty fields of a delta are left out. */
  function TokenChunk(id: Bytes, created: int, model: Bytes, token: Bytes): Json {
    ChunkJson(id, created, model, if token == [] then [] else [Member("content", Str(token))], Null)
  }

  function StopChunk(id: Bytes, created: int, model: Bytes): Json {
    ChunkJson(id, created, model, [], Str("stop"))
  }

  function EventLine(chunk: Json): Bytes { "data: " + Print(chunk) }

  function TokenChunks(id: Bytes, created: int, model: Bytes, tokens: seq<Bytes>): seq<Json> {
    seq(|tokens|, i requires 0 <= i < |tokens| => TokenChunk(id, created, model, tokens[i]))
  }

  function Chunks(id: Bytes, created: int, model: Bytes, content: Bytes): seq<Json> {
    [RoleChunk(id, created, model)] + TokenChunks(id, created, model, Tokens(content)) + [StopChunk(id, created, model)]
  }

  /** Every event is a line followed by an empty line. */
  function Events(chunks: seq<Json>): Bytes {
    if chunks == [] then [] else EventLine(chunks[0]) + "\n\n" + Events(chunks[1..])
  }

  const END_MARK: Bytes := "data: [DONE]\n\n"

  function StreamText(id: Bytes, created: int, model: Bytes, content: Bytes): Bytes {
    Events(Chunks(id, created, model, content)) + END_MARK
  }

  lemma {:induction false} EventsAppend(chunks: seq<Json>, c: Json)
    ensures Events(chunks + [c]) == Events(chunks) + (EventLine(c) + "\n\n")
  {
    if chunks == [] {
      assert (chunks + [c])[1..] == [];
    } else {
      assert (chunks + [c])[1..] == chunks[1..] + [c];
      EventsAppend(chunks[1..], c);
    }
  }

  method StreamResponse(id: Bytes, created: int, model: Bytes, content: Bytes) returns (out: Bytes)
    ensures out == StreamText(id, created, model, content)
  {
    ghost var sent := [RoleChunk(id, created, model)];
    EventsAppend([], sent[0]);
    assert [] + sent == sent;
    out := EventLine(RoleChunk(id, created, model)) + "\n\n";
    if content != [] {
      var tokens := Tokenize(content);
      ghost var all := TokenChunks(id, created, model, tokens);
      for k := 0 to |tokens|
        invariant sent == [RoleChunk(id, created, model)] + all[..k]
        invariant out == Events(sent)
      {
        var chunk := TokenChunk(id, created, model, tokens[k]);
        EventsAppend(sent, chunk);
        sent := sent + [chunk];
        out := out + (EventLine(chunk) + "\n\n");
      }
    }
    var stop := StopChunk(id, created, model);
    EventsAppend(sent, stop);
    assert sent + [stop] == Chunks(id, created, model, content);
    out := out + (EventLine(stop) + "\n\n");
    out := out + END_MARK;
  }
}
