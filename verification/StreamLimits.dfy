/** Which contents a served stream carries over: the length of every event line
    in closed form, and contents on which the round trip fails. */
module StreamLimits {
  import opened Common
  import opened Utf8
  import opened JsonText
  import opened ChatStream
  import opened ToolCallDeltas
  import opened ChatReceiver

  // ----- how long printed strings are

  /** A byte that a JSON string holds as it is. */
  predicate PlainByte(c: Byte) { In(c, 0x20, 0x7F) && c != '"' && c != '\\' && c != '<' && c != '>' && c != '&' }

  predicate Plain(s: Bytes) { forall i :: 0 <= i < |s| ==> PlainByte(s[i]) }

  lemma {:induction false} PlainIsKept(s: Bytes)
    requires Plain(s)
    ensures EncodeString(s) == s
    decreases |s|
  {
    if s != [] {
      PlainIsKept(s[1..]);
      assert s == s[..1] + s[1..];
    }
  }

  lemma FirstGrows(s: Bytes)
    requires s != []
    ensures StepWidth(s) <= |EncodeFirst(s)|
  {}

  /** Printing never makes a string shorter. */
  lemma {:induction false} EncodingGrows(s: Bytes)
    ensures |s| <= |EncodeString(s)|
    decreases |s|
  {
    if s != [] {
      FirstGrows(s);
      EncodingGrows(s[StepWidth(s)..]);
    }
  }

  // ----- how long event lines are

  lemma MemberLength(m: Member)
    requires Plain(m.key)
    ensures |PrintMember(m)| == |m.key| + 3 + |Print(m.value)|
  {
    PlainIsKept(m.key);
  }

  lemma TextLength(s: Bytes)
    ensures |Print(Str(s))| == |EncodeString(s)| + 2
    ensures Plain(s) ==> |Print(Str(s))| == |s| + 2
  {
    if Plain(s) {
      PlainIsKept(s);
    }
  }

  /** The bytes of the keys and of the printed values. */
  function Bulk(ms: seq<Member>): nat {
    if ms == [] then 0 else |ms[0].key| + |Print(ms[0].value)| + Bulk(ms[1..])
  }

  ghost predicate PlainKeys(ms: seq<Member>) { forall i :: 0 <= i < |ms| ==> Plain(ms[i].key) }

  /** Two quotes and a colon to a member, commas between them. */
  lemma {:induction false} MembersLength(ms: seq<Member>)
    requires PlainKeys(ms) && ms != []
    ensures |PrintMembers(ms)| == Bulk(ms) + 4 * |ms| - 1
  {
    MemberLength(ms[0]);
    if |ms| > 1 {
      MembersLength(ms[1..]);
    }
  }

  lemma BulkOfThree(ms: seq<Member>)
    requires |ms| == 3
    ensures Bulk(ms) == |ms[0].key| + |ms[1].key| + |ms[2].key|
                        + |Print(ms[0].value)| + |Print(ms[1].value)| + |Print(ms[2].value)|
  {
    assert ms[1..][1..] == ms[2..] && ms[2..][1..] == [];
    assert Bulk(ms[2..]) == |ms[2].key| + |Print(ms[2].value)|;
  }

  lemma BulkOfFive(ms: seq<Member>)
    requires |ms| == 5
    ensures Bulk(ms) == |ms[0].key| + |Print(ms[0].value)| + |ms[1].key| + |Print(ms[1].value)| + Bulk(ms[2..])
  {
    assert ms[1..][1..] == ms[2..];
  }

  // The members of a choice and of a chunk, with the lengths of their keys.

  ghost predicate ChoiceLike(ms: seq<Member>, delta: Json, finish: Json) {
    && |ms| == 3 && PlainKeys(ms) && |ms[0].key| == 5 && |ms[1].key| == 5 && |ms[2].key| == 13
    && ms[0].value == Int(0) && ms[1].value == delta && ms[2].value == finish
  }

  ghost predicate ChunkLike(ms: seq<Member>, id: Bytes, kind: Bytes, created: int, model: Bytes, choice: Json) {
    && |ms| == 5 && PlainKeys(ms) && |ms[0].key| == 2 && |ms[1].key| == 6 && |ms[2].key| == 7
    && |ms[3].key| == 5 && |ms[4].key| == 7
    && ms[0].value == Str(id) && ms[1].value == Str(kind) && ms[2].value == Int(created)
    && ms[3].value == Str(model) && ms[4].value == Arr([choice])
  }

  lemma ChoiceLikeLength(ms: seq<Member>, delta: Json, finish: Json)
    requires ChoiceLike(ms, delta, finish)
    ensures |Print(Obj(ms))| == |Print(delta)| + |Print(finish)| + 37
  {
    MembersLength(ms);
    BulkOfThree(ms);
    assert |Print(Int(0))| == 1;
  }

  /** What the identity of a completion adds to each of its lines. */
  function Fixed(id: Bytes, created: int, model: Bytes): nat {
    |EncodeString(id)| + |Print(Int(created))| + |EncodeString(model)|
  }

  lemma ArrayOfOne(v: Json)
    ensures |Print(Arr([v]))| == |Print(v)| + 2
  {}

  lemma ChunkLikeLength(ms: seq<Member>, id: Bytes, kind: Bytes, created: int, model: Bytes, choice: Json)
    requires ChunkLike(ms, id, kind, created, model, choice) && Plain(kind)
    ensures |Print(Obj(ms))| == Fixed(id, created, model) + |kind| + |Print(choice)| + 56
  {
    MembersLength(ms);
    BulkOfFive(ms);
    BulkOfThree(ms[2..]);
    TextLength(id);
    TextLength(kind);
    TextLength(model);
    ArrayOfOne(choice);
  }

  lemma ChoiceMembersAre(delta: seq<Member>, finish: Json)
    ensures ChoiceLike(ChoiceMembers(delta, finish), Obj(delta), finish)
  {}

  lemma KindIsPlain() returns (kind: Bytes)
    ensures kind == "chat.completion.chunk" && Plain(kind) && |kind| == 21
  {
    kind := "chat.completion.chunk";
  }

  lemma ChunkKeysArePlain()
    ensures Plain("id") && Plain("object") && Plain("created") && Plain("model") && Plain("choices")
  {}

  lemma ChunkMembersAre(id: Bytes, created: int, model: Bytes, choice: Json, kind: Bytes)
    requires kind == "chat.completion.chunk"
    ensures ChunkLike(ChunkMembers(id, created, model, choice), id, kind, created, model, choice)
  {
    ChunkKeysArePlain();
  }

  lemma LineLength(id: Bytes, created: int, model: Bytes, delta: seq<Member>, finish: Json)
    ensures |EventLine(ChunkJson(id, created, model, delta, finish))| ==
            Fixed(id, created, model) + |Print(Obj(delta))| + |Print(finish)| + 120
  {
    var choice := Obj(ChoiceMembers(delta, finish));
    ChoiceMembersAre(delta, finish);
    ChoiceLikeLength(ChoiceMembers(delta, finish), Obj(delta), finish);
    var kind := KindIsPlain();
    ChunkMembersAre(id, created, model, choice, kind);
    ChunkLikeLength(ChunkMembers(id, created, model, choice), id, kind, created, model, choice);
  }

  lemma OneDelta(delta: seq<Member>, text: Bytes)
    requires |delta| == 1 && Plain(delta[0].key) && delta[0].value == Str(text)
    ensures |Print(Obj(delta))| == |delta[0].key| + |EncodeString(text)| + 7
  {
    MembersLength(delta);
    TextLength(text);
  }

  lemma TokenLine(id: Bytes, created: int, model: Bytes, token: Bytes)
    requires token != []
    ensures |EventLine(TokenChunk(id, created, model, token))| ==
            Fixed(id, created, model) + |EncodeString(token)| + 138
  {
    LineLength(id, created, model, [Member("content", Str(token))], Null);
    OneDelta([Member("content", Str(token))], token);
  }

  lemma RoleDelta() returns (delta: seq<Member>)
    ensures delta == [Member("role", Str("assistant"))]
    ensures |delta| == 1 && Plain(delta[0].key) && |delta[0].key| == 4 && delta[0].value.Str?
    ensures Plain(delta[0].value.s) && |delta[0].value.s| == 9
  {
    delta := [Member("role", Str("assistant"))];
  }

  lemma RoleLine(id: Bytes, created: int, model: Bytes)
    ensures |EventLine(RoleChunk(id, created, model))| == Fixed(id, created, model) + 144
  {
    var delta := RoleDelta();
    PlainIsKept(delta[0].value.s);
    OneDelta(delta, delta[0].value.s);
    LineLength(id, created, model, delta, Null);
  }

  lemma StopFinish() returns (finish: Json)
    ensures finish == Str("stop") && Plain(finish.s) && |finish.s| == 4
  {
    finish := Str("stop");
  }

  lemma StopLine(id: Bytes, created: int, model: Bytes)
    ensures |EventLine(StopChunk(id, created, model))| == Fixed(id, created, model) + 128
  {
    var finish := StopFinish();
    TextLength(finish.s);
    LineLength(id, created, model, [], finish);
  }

  // ----- what a stream can carry

  /** Whether a token still fits a line, once printed. */
  ghost predicate TokenFits(fixed: nat, token: Bytes) { fixed + |EncodeString(token)| + 138 < 65536 }

  ghost predicate TokensFit(fixed: nat, tokens: seq<Bytes>) {
    forall k :: 0 <= k < |tokens| ==> TokenFits(fixed, tokens[k])
  }

  lemma LineOfChunk(id: Bytes, created: int, model: Bytes, content: Bytes, k: nat)
    requires k < |Tokens(content)| + 2
    ensures k < |Chunks(id, created, model, content)|
    ensures |EventLine(Chunks(id, created, model, content)[k])| == Fixed(id, created, model) +
            (if k == 0 then 144
             else if k <= |Tokens(content)| then |EncodeString(Tokens(content)[k - 1])| + 138
             else 128)
  {
    ChunkCount(id, created, model, content);
    ChunkAt(id, created, model, content, k);
    if k == 0 {
      RoleLine(id, created, model);
    } else if k <= |Tokens(content)| {
      TokenIsText(content, k - 1);
      TokenLine(id, created, model, Tokens(content)[k - 1]);
    } else {
      StopLine(id, created, model);
    }
  }

  lemma FitsExactly(id: Bytes, created: int, model: Bytes, content: Bytes)
    ensures Fits(Chunks(id, created, model, content)) <==>
            Fixed(id, created, model) + 144 < 65536 && TokensFit(Fixed(id, created, model), Tokens(content))
  {
    var vs, tokens, fixed := Chunks(id, created, model, content), Tokens(content), Fixed(id, created, model);
    ChunkCount(id, created, model, content);
    LineOfChunk(id, created, model, content, 0);
    if Fits(vs) {
      forall k | 0 <= k < |tokens| ensures TokenFits(fixed, tokens[k]) {
        LineOfChunk(id, created, model, content, k + 1);
      }
    }
    if fixed + 144 < 65536 && TokensFit(fixed, tokens) {
      forall k | 0 <= k < |vs| ensures |EventLine(vs[k])| < 65536 {
        LineOfChunk(id, created, model, content, k);
        assert 1 <= k <= |tokens| ==> TokenFits(fixed, tokens[k - 1]);
      }
    }
  }

  /** The client reads a served stream to its end exactly when the printed ID,
      time and model leave room for the role, and every token, once escaped, fits
      what they leave. */
  lemma CompleteExactly(id: Bytes, created: int, model: Bytes, content: Bytes)
    ensures Receive(StreamText(id, created, model, content), NOTHING).1 <==>
            Fixed(id, created, model) + 144 < 65536 && TokensFit(Fixed(id, created, model), Tokens(content))
  {
    FitsExactly(id, created, model, content);
    StreamIsTaken(id, created, model, content);
  }

  // ----- where the round trip fails

  /** One run of the content that is longer than the limit is enough. */
  lemma LongTokenFails(id: Bytes, created: int, model: Bytes, content: Bytes, k: nat)
    requires k < |Tokens(content)| && |Tokens(content)[k]| + 138 >= 65536
    ensures !Receive(StreamText(id, created, model, content), NOTHING).1
  {
    EncodingGrows(Tokens(content)[k]);
    assert !TokenFits(Fixed(id, created, model), Tokens(content)[k]);
    CompleteExactly(id, created, model, content);
  }

  lemma OneToken(s: Bytes)
    requires s != [] && forall i :: 0 <= i < |s| ==> IsBlank(s[i]) == IsBlank(s[0])
    ensures Tokens(s) == [s]
  {
    TokensFrom(s, 0, |s|);
    assert s[0..] == s && s[0..|s|] == s && s[|s|..] == [];
  }

  /** A well-formed content that no client can read: one long word. */
  lemma LongWordFails(id: Bytes, created: int, model: Bytes) returns (word: Bytes)
    ensures Valid(word) && |word| == 65536
    ensures !Receive(StreamText(id, created, model, word), NOTHING).1
  {
    word := seq(65536, _ => 'a');
    AsciiIsValid(word);
    OneToken(word);
    LongTokenFails(id, created, model, word, 0);
  }

  /** A content that arrives changed: one malformed byte is read as U+FFFD. */
  lemma BadByteIsReplaced<A>(id: Bytes, created: int, model: Bytes, parseArgs: Bytes -> Option<A>)
    requires Fixed(id, created, model) + 144 < 65536
    ensures var content: Bytes := [0xFF as char];
            var (g, complete) := Receive(StreamText(id, created, model, content), NOTHING);
            && !Valid(content) && complete
            && Respond(g, parseArgs).content == REPLACEMENT != content
  {
    var content: Bytes := [0xFF as char];
    OneToken(content);
    assert EncodeString(content[1..]) == [] && Sanitize(content[1..]) == [];
    assert |EncodeString(content)| == 6 && TokenFits(Fixed(id, created, model), content);
    CompleteExactly(id, created, model, content);
    StreamIsTaken(id, created, model, content);
    ServedStreamGathers([content]);
    assert SanitizeAll([content])[1..] == [];
    assert Concat(SanitizeAll([content])) == REPLACEMENT;
  }
}
