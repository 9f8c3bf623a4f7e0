/** Reading back what any server of the protocol may send: chunks with text, tool
    calls, finish reasons and usage, printed as JSON and sent as events. */
module StreamWire {
  import opened Common
  import opened Utf8
  import opened JsonText
  import opened ChatStream
  import opened ToolCallDeltas
  import opened ChatReceiver

  // ----- chunks as the protocol writes them

  /** What a chunk carries besides: its ID, and the role and call type it names. */
  datatype Frame = Frame(id: Bytes, role: Bytes, kind: Bytes)

  function WireDelta(w: Frame, d: ToolDelta): Json {
    Obj([Member("index", Int(d.index)), Member("id", Str(d.id)), Member("type", Str(w.kind)),
         Member("function", Obj([Member("name", Str(d.name)), Member("arguments", Str(d.args))]))])
  }

  function WireDeltas(w: Frame, ds: seq<ToolDelta>): seq<Json> {
    seq(|ds|, i requires 0 <= i < |ds| => WireDelta(w, ds[i]))
  }

  function WireFinish(finish: Option<Bytes>): Json { match finish case None => Null case Some(f) => Str(f) }

  function WireChoice(w: Frame, c: Choice): Json {
    Obj([Member("index", Int(0)),
         Member("delta", Obj([Member("role", Str(w.role)), Member("content", Str(c.content)),
                              Member("tool_calls", Arr(WireDeltas(w, c.tools)))])),
         Member("finish_reason", WireFinish(c.finish))])
  }

  function WireChoices(w: Frame, cs: seq<Choice>): seq<Json> {
    seq(|cs|, i requires 0 <= i < |cs| => WireChoice(w, cs[i]))
  }

  function WireUsage(u: Option<Usage>): Json {
    match u
    case None => Null
    case Some(u) =>
      Obj([Member("prompt_tokens", Int(u.prompt)), Member("completion_tokens", Int(u.completion)),
           Member("total_tokens", Int(u.total))])
  }

  function WireChunk(w: Frame, c: Chunk): Json {
    Obj([Member("id", Str(w.id)), Member("choices", Arr(WireChoices(w, c.choices))),
         Member("usage", WireUsage(c.usage))])
  }

  // ----- values that printing leaves alone

  predicate Tidy(v: Json) {
    match v
    case Str(s) => Valid(s)
    case Arr(elems) => forall i :: 0 <= i < |elems| ==> Tidy(elems[i])
    case Obj(members) => forall i :: 0 <= i < |members| ==> Ascii(members[i].key) && Tidy(members[i].value)
    case _ => true
  }

  lemma {:induction false} TidyIsClean(v: Json)
    requires Tidy(v)
    ensures Clean(v) == v
  {
    match v {
      case Str(s) => SanitizeFixesValid(s);
      case Arr(elems) =>
        forall i | 0 <= i < |elems| ensures Clean(elems[i]) == elems[i] {
          TidyIsClean(elems[i]);
        }
        assert CleanElems(elems) == elems;
      case Obj(members) =>
        forall i | 0 <= i < |members|
          ensures Sanitize(members[i].key) == members[i].key && Clean(members[i].value) == members[i].value
        {
          AsciiIsValid(members[i].key);
          TidyIsClean(members[i].value);
        }
        assert CleanMembers(members) == members;
      case _ =>
    }
  }

  // ----- reading fields

  lemma FieldOfTwo(ms: seq<Member>)
    requires |ms| == 2 && ms[0].key != ms[1].key
    ensures Field(ms, ms[0].key) == ms[0].value && Field(ms, ms[1].key) == ms[1].value
  {
    FieldAt(ms, ms[0].key, 0);
    FieldAt(ms, ms[1].key, 1);
  }

  lemma FieldOfThree(ms: seq<Member>)
    requires |ms| == 3 && ms[0].key != ms[1].key && ms[0].key != ms[2].key && ms[1].key != ms[2].key
    ensures forall k :: 0 <= k < 3 ==> Field(ms, ms[k].key) == ms[k].value
  {
    forall k | 0 <= k < 3 ensures Field(ms, ms[k].key) == ms[k].value {
      FieldAt(ms, ms[k].key, k);
    }
  }

  lemma FieldOfFour(ms: seq<Member>)
    requires |ms| == 4 && forall i, j :: 0 <= i < j < 4 ==> ms[i].key != ms[j].key
    ensures forall k :: 0 <= k < 4 ==> Field(ms, ms[k].key) == ms[k].value
  {
    forall k | 0 <= k < 4 ensures Field(ms, ms[k].key) == ms[k].value {
      FieldAt(ms, ms[k].key, k);
    }
  }

  // Each shape: its fields by name, all names valid.

  ghost predicate DeltaLike(ms: seq<Member>, f: seq<Member>, d: ToolDelta) {
    && |ms| == 4 && ms[0] == Member("index", Int(d.index)) && ms[1] == Member("id", Str(d.id))
    && ms[2].key == "type" && ms[2].value.Str? && ms[3] == Member("function", Obj(f))
    && |f| == 2 && f[0] == Member("name", Str(d.name)) && f[1] == Member("arguments", Str(d.args))
  }

  lemma DeltaLikeReads(ms: seq<Member>, f: seq<Member>, d: ToolDelta)
    requires DeltaLike(ms, f, d)
    ensures ReadDelta(Obj(ms)) == Some(d)
  {
    FieldOfFour(ms);
    FieldOfTwo(f);
  }

  lemma DeltaReadsBack(w: Frame, d: ToolDelta)
    ensures ReadDelta(WireDelta(w, d)) == Some(d)
  {
    var v := WireDelta(w, d);
    DeltaLikeReads(v.members, v.members[3].value.members, d);
  }

  /** A delta that goes on with a call leaves out the ID and the name. */
  lemma ShortDeltaReads(ms: seq<Member>, f: seq<Member>, index: int, args: Bytes)
    requires |ms| == 2 && ms[0] == Member("index", Int(index)) && ms[1] == Member("function", Obj(f))
    requires |f| == 1 && f[0] == Member("arguments", Str(args))
    ensures ReadDelta(Obj(ms)) == Some(ToolDelta(index, [], [], args))
  {
    FieldOfTwo(ms);
    FieldAt(f, f[0].key, 0);
    NoField(ms, "id");
    NoField(ms, "type");
    NoField(f, "name");
  }

  lemma {:induction false} DeltasReadBack(w: Frame, ds: seq<ToolDelta>)
    ensures ReadDeltas(WireDeltas(w, ds)) == Some(ds)
  {
    if ds != [] {
      DeltaReadsBack(w, ds[0]);
      DeltasReadBack(w, ds[1..]);
      assert WireDeltas(w, ds)[1..] == WireDeltas(w, ds[1..]);
      assert [ds[0]] + ds[1..] == ds;
    }
  }

  ghost predicate ChoiceReadable(w: Frame, ms: seq<Member>, d: seq<Member>, c: Choice) {
    && |ms| == 3 && ms[0] == Member("index", Int(0)) && ms[1] == Member("delta", Obj(d))
    && ms[2] == Member("finish_reason", WireFinish(c.finish))
    && |d| == 3 && d[0].key == "role" && d[0].value.Str? && d[1] == Member("content", Str(c.content))
    && d[2] == Member("tool_calls", Arr(WireDeltas(w, c.tools)))
  }

  lemma ChoiceReadableReads(w: Frame, ms: seq<Member>, d: seq<Member>, c: Choice)
    requires ChoiceReadable(w, ms, d, c)
    ensures ReadChoice(Obj(ms)) == Some(c)
  {
    FieldOfThree(ms);
    FieldOfThree(d);
    DeltasReadBack(w, c.tools);
    assert Field(ms, "index") == ms[0].value && Field(ms, "delta") == ms[1].value;
    assert Field(ms, "finish_reason") == ms[2].value;
    assert Field(d, "role") == d[0].value && Field(d, "content") == d[1].value && Field(d, "tool_calls") == d[2].value;
  }

  lemma ChoiceReadsBack(w: Frame, c: Choice)
    ensures ReadChoice(WireChoice(w, c)) == Some(c)
  {
    var v := WireChoice(w, c);
    ChoiceReadableReads(w, v.members, v.members[1].value.members, c);
  }

  lemma {:induction false} ChoicesReadBack(w: Frame, cs: seq<Choice>)
    ensures ReadChoices(WireChoices(w, cs)) == Some(cs)
  {
    if cs != [] {
      ChoiceReadsBack(w, cs[0]);
      ChoicesReadBack(w, cs[1..]);
      assert WireChoices(w, cs)[1..] == WireChoices(w, cs[1..]);
      assert [cs[0]] + cs[1..] == cs;
    }
  }

  lemma UsageReadsBack(u: Option<Usage>)
    ensures ReadUsage(WireUsage(u)) == Some(u)
  {
    if u.Some? {
      var ms := WireUsage(u).members;
      FieldOfThree(ms);
      assert Field(ms, "prompt_tokens") == ms[0].value && Field(ms, "completion_tokens") == ms[1].value;
      assert Field(ms, "total_tokens") == ms[2].value;
    }
  }

  lemma ChunkReadsBack(w: Frame, c: Chunk)
    ensures ReadChunkValue(WireChunk(w, c)) == Some(c)
  {
    var ms := WireChunk(w, c).members;
    FieldOfThree(ms);
    ChoicesReadBack(w, c.choices);
    UsageReadsBack(c.usage);
    assert Field(ms, "id") == ms[0].value && Field(ms, "choices") == ms[1].value && Field(ms, "usage") == ms[2].value;
  }

  // ----- well-formed chunks

  ghost predicate ValidFrame(w: Frame) { Valid(w.id) && Valid(w.role) && Valid(w.kind) }

  ghost predicate ValidDelta(d: ToolDelta) { Valid(d.id) && Valid(d.name) && Valid(d.args) }

  ghost predicate ValidChoice(c: Choice) {
    && Valid(c.content) && (c.finish.Some? ==> Valid(c.finish.value))
    && forall i :: 0 <= i < |c.tools| ==> ValidDelta(c.tools[i])
  }

  /** Every text of the chunk is well-formed UTF-8. */
  ghost predicate ValidChunk(c: Chunk) { forall i :: 0 <= i < |c.choices| ==> ValidChoice(c.choices[i]) }

  lemma DeltaIsTidy(w: Frame, d: ToolDelta)
    requires ValidFrame(w) && ValidDelta(d)
    ensures Tidy(WireDelta(w, d))
  {
  }

  lemma ChoiceIsTidy(w: Frame, c: Choice)
    requires ValidFrame(w) && ValidChoice(c)
    ensures Tidy(WireChoice(w, c))
  {
    forall i | 0 <= i < |c.tools| ensures Tidy(WireDeltas(w, c.tools)[i]) {
      DeltaIsTidy(w, c.tools[i]);
    }
  }

  lemma UsageIsTidy(u: Option<Usage>)
    ensures Tidy(WireUsage(u))
  {
  }

  lemma ChunkIsTidy(w: Frame, c: Chunk)
    requires ValidFrame(w) && ValidChunk(c)
    ensures Tidy(WireChunk(w, c))
  {
    forall i | 0 <= i < |c.choices| ensures Tidy(WireChoices(w, c.choices)[i]) {
      ChoiceIsTidy(w, c.choices[i]);
    }
    UsageIsTidy(c.usage);
  }

  /** A printed chunk reads back as that chunk, every field in its place. */
  lemma WireRoundTrip(w: Frame, c: Chunk)
    requires ValidFrame(w) && ValidChunk(c)
    ensures ReadChunk(Print(WireChunk(w, c))) == Some(c)
  {
    ChunkIsTidy(w, c);
    TidyIsClean(WireChunk(w, c));
    RoundTrip(WireChunk(w, c));
    ChunkReadsBack(w, c);
  }

  // ----- whole streams

  function WireChunks(w: Frame, cs: seq<Chunk>): seq<Json> {
    seq(|cs|, i requires 0 <= i < |cs| => WireChunk(w, cs[i]))
  }

  /** Any sequence of well-formed chunks whose lines fit the scanner is gathered
      chunk by chunk, so the answer is the one they call for. */
  lemma AnyStreamIsRead<A(!new)>(w: Frame, cs: seq<Chunk>, parseArgs: Bytes -> Option<A>)
    requires ValidFrame(w) && (forall i :: 0 <= i < |cs| ==> ValidChunk(cs[i])) && Fits(WireChunks(w, cs))
    ensures var (g, complete) := Receive(Events(WireChunks(w, cs)) + END_MARK, NOTHING);
            complete && IsResponse(Respond(g, parseArgs), cs, parseArgs)
  {
    var vs := WireChunks(w, cs);
    forall i | 0 <= i < |vs| ensures vs[i].Obj? && ReadChunk(Print(vs[i])) == Some(cs[i]) {
      WireRoundTrip(w, cs[i]);
    }
    WholeStream(vs, cs);
    ResponseIs(cs, parseArgs);
  }
}
