/** The client side of a streamed chat completion: scanning lines, decoding
    chunks, gathering a response; and the round trip with the server side. */
module ChatReceiver {
  import opened Common
  import opened Utf8
  import opened JsonText
  import opened ChatStream
  import opened ToolCallDeltas

  // ----- decoding a chunk

  /** The last member named `key`, or null. */
  function Field(ms: seq<Member>, key: Bytes): Json {
    if ms == [] then Null
    else if ms[|ms| - 1].key == key then ms[|ms| - 1].value
    else Field(ms[..|ms| - 1], key)
  }

  /** Absent and null fields keep their zero value; any other type is an error. */
  function AsText(v: Json): Option<Bytes> {
    match v case Null => Some([]) case Str(s) => Some(s) case _ => None
  }

  function AsInt(v: Json): Option<int> {
    match v case Null => Some(0) case Int(n) => Some(n) case _ => None
  }

  function AsMembers(v: Json): Option<seq<Member>> {
    match v case Null => Some([]) case Obj(ms) => Some(ms) case _ => None
  }

  function AsElems(v: Json): Option<seq<Json>> {
    match v case Null => Some([]) case Arr(vs) => Some(vs) case _ => None
  }

  function ReadDelta(v: Json): Option<ToolDelta> {
    match AsMembers(v)
    case None => None
    case Some(ms) =>
      match AsMembers(Field(ms, "function"))
      case None => None
      case Some(f) =>
        match (AsInt(Field(ms, "index")), AsText(Field(ms, "id")), AsText(Field(ms, "type")),
               AsText(Field(f, "name")), AsText(Field(f, "arguments")))
        case (Some(index), Some(id), Some(_), Some(name), Some(args)) => Some(ToolDelta(index, id, name, args))
        case _ => None
  }

  function ReadDeltas(vs: seq<Json>): Option<seq<ToolDelta>> {
    if vs == [] then Some([])
    else
      match (ReadDelta(vs[0]), ReadDeltas(vs[1..]))
      case (Some(d), Some(ds)) => Some([d] + ds)
      case _ => None
  }

  function ReadChoice(v: Json): Option<Choice> {
    match AsMembers(v)
    case None => None
    case Some(ms) => ReadChoiceFields(Field(ms, "index"), Field(ms, "delta"), Field(ms, "finish_reason"))
  }

  function ReadChoiceFields(index: Json, delta: Json, finish: Json): Option<Choice> {
    if AsInt(index) == None || AsMembers(delta) == None || AsText(finish) == None then None
    else
      var d := AsMembers(delta).value;
      ReadDeltaFields(Field(d, "role"), Field(d, "content"), Field(d, "tool_calls"),
                      if finish.Null? then None else AsText(finish))
  }

  function ReadDeltaFields(role: Json, content: Json, calls: Json, finish: Option<Bytes>): Option<Choice> {
    if AsText(role) == None || AsText(content) == None || AsElems(calls) == None then None
    else
      match ReadDeltas(AsElems(calls).value)
      case None => None
      case Some(ds) => Some(Choice(AsText(content).value, ds, finish))
  }

  function ReadChoices(vs: seq<Json>): Option<seq<Choice>> {
    if vs == [] then Some([])
    else
      match (ReadChoice(vs[0]), ReadChoices(vs[1..]))
      case (Some(c), Some(cs)) => Some([c] + cs)
      case _ => None
  }

  function ReadUsage(v: Json): Option<Option<Usage>> {
    match v
    case Null => Some(None)
    case Obj(ms) =>
      (match (AsInt(Field(ms, "prompt_tokens")), AsInt(Field(ms, "completion_tokens")),
              AsInt(Field(ms, "total_tokens")))
       case (Some(p), Some(c), Some(t)) => Some(Some(Usage(p, c, t)))
       case _ => None)
    case _ => None
  }

  function ReadChunkValue(v: Json): Option<Chunk> {
    match AsMembers(v)
    case None => None
    case Some(ms) => ReadChunkFields(Field(ms, "id"), Field(ms, "choices"), Field(ms, "usage"))
  }

  function ReadChunkFields(id: Json, choices: Json, usage: Json): Option<Chunk> {
    if AsText(id) == None || AsElems(choices) == None || ReadUsage(usage) == None then None
    else
      match ReadChoices(AsElems(choices).value)
      case None => None
      case Some(cs) => Some(Chunk(cs, ReadUsage(usage).value))
  }

  function ReadChunk(data: Bytes): Option<Chunk> {
    match Parse(data) case Bad => None case Good(v, _) => ReadChunkValue(v)
  }

  // ----- scanning

  /** The line scanner gives up on a line that does not fit its buffer. */
  const MAX_LINE: nat := 65536

  datatype Scan = End | TooLong | Line(text: Bytes, rest: Bytes)

  function LineLength(t: Bytes): (n: nat)
    ensures n <= |t|
    ensures forall i :: 0 <= i < n ==> t[i] != '\n'
    ensures n < |t| ==> t[n] == '\n'
  {
    if t == [] || t[0] == '\n' then 0 else 1 + LineLength(t[1..])
  }

  function DropReturn(t: Bytes): Bytes {
    if t != [] && t[|t| - 1] == '\r' then t[..|t| - 1] else t
  }

  function NextLine(t: Bytes): (s: Scan)
    ensures s.Line? ==> |s.rest| < |t|
  {
    if t == [] then End
    else
      var n := LineLength(t);
      if n >= MAX_LINE then TooLong
      else Line(DropReturn(t[..n]), if n < |t| then t[n + 1..] else [])
  }

  /** What one line adds: lines without the data prefix and malformed chunks are skipped. */
  function Take(g: Gathered, line: Bytes): Gathered {
    if !StartsWith(line, "data: ") then g
    else
      match ReadChunk(line[6..])
      case None => g
      case Some(c) => Absorb(g, c)
  }

  /** The whole scan: what was gathered, and whether it ended without a read error. */
  function Receive(t: Bytes, g: Gathered): (Gathered, bool)
    decreases |t|, g
  {
    match NextLine(t)
    case End => (g, true)
    case TooLong => (g, false)
    case Line(line, rest) =>
      if line == [] then Receive(rest, g)
      else if line == "data: [DONE]" then (g, true)
      else Receive(rest, Take(g, line))
  }

  // ----- what a response says, in terms of the chunks

  /** The chunks on the data lines of a stream, up to its end mark. */
  function ChunksOf(t: Bytes): seq<Chunk>
    decreases |t|
  {
    match NextLine(t)
    case Line(line, rest) =>
      if line == "data: [DONE]" then []
      else
        (if StartsWith(line, "data: ") && ReadChunk(line[6..]).Some? then [ReadChunk(line[6..]).value] else [])
        + ChunksOf(rest)
    case _ => []
  }

  /** The stream ends, by its end mark or altogether, before any line too long. */
  predicate Ends(t: Bytes)
    decreases |t|
  {
    match NextLine(t)
    case End => true
    case TooLong => false
    case Line(line, rest) => line == "data: [DONE]" || Ends(rest)
  }

  lemma {:induction false} ReceiveAbsorbs(t: Bytes, g: Gathered)
    ensures Receive(t, g) == (AbsorbAll(g, ChunksOf(t)), true) || !Ends(t)
    ensures Receive(t, g).1 == Ends(t)
    decreases |t|
  {
    match NextLine(t) {
      case Line(line, rest) =>
        if line != "data: [DONE]" {
          ReceiveAbsorbs(rest, if line == [] then g else Take(g, line));
          TakesOne(line, rest, g);
        }
      case _ =>
    }
  }

  lemma TakesOne(line: Bytes, rest: Bytes, g: Gathered)
    ensures var cs :=
              if StartsWith(line, "data: ") && ReadChunk(line[6..]).Some? then [ReadChunk(line[6..]).value] else [];
            AbsorbAll(if line == [] then g else Take(g, line), ChunksOf(rest)) == AbsorbAll(g, cs + ChunksOf(rest))
  {
    if StartsWith(line, "data: ") && ReadChunk(line[6..]).Some? {
      var c := ReadChunk(line[6..]).value;
      assert ([c] + ChunksOf(rest))[1..] == ChunksOf(rest);
    } else {
      assert [] + ChunksOf(rest) == ChunksOf(rest);
    }
  }

  /** The indices that tool-call deltas name. */
  function Indices(ds: seq<ToolDelta>): set<int> { set d | d in ds :: d.index }

  /** The call that the deltas of one index amount to: their last non-empty ID,
      their last non-empty name, and what all their argument fragments parse to,
      or the raw text. */
  ghost predicate IsCall<A(!new)>(call: ToolCall<A>, ds: seq<ToolDelta>, parseArgs: Bytes -> Option<A>) {
    var text := ToolCallDeltas.Joined(ArgTexts(ds));
    && call.id == LastText(Ids(ds)) && call.name == LastText(ToolCallDeltas.Names(ds))
    && (parseArgs(text).Some? ==> call.args == Parsed(parseArgs(text).value))
    && (parseArgs(text).None? ==> call.args == Raw(text))
  }

  /** The response that the chunks call for. */
  ghost predicate IsResponse<A(!new)>(r: Response<A>, cs: seq<Chunk>, parseArgs: Bytes -> Option<A>) {
    var ds := DeltasOf(cs);
    var kept := KeptFrom(Indices(ds), |Indices(ds)|, 0);
    && r.content == TextOf(cs)
    && (r.stop == ToolUse <==> FinishOf(cs, []) == "tool_calls")
    && r.usage == (match LastUsage(cs, None) case Some(u) => u case None => Usage(0, 0, 0))
    && |r.calls| == |kept|
    && forall k :: 0 <= k < |kept| ==> IsCall(r.calls[k], Of(ds, kept[k]), parseArgs)
  }

  lemma IndicesAre(ds: seq<ToolDelta>)
    ensures AddAll(map[], ds).Keys == Indices(ds)
  {
    AddAllDescribes(ds);
    var m := AddAll(map[], ds);
    forall i ensures i in m <==> i in Indices(ds) {
      OfNonEmpty(ds, i);
      assert i in m <==> Of(ds, i) != [];
    }
  }

  lemma {:induction false} OfNonEmpty(ds: seq<ToolDelta>, i: int)
    ensures Of(ds, i) != [] <==> i in Indices(ds)
  {
    if ds != [] {
      OfNonEmpty(ds[1..], i);
      assert Indices(ds) == {ds[0].index} + Indices(ds[1..]);
    }
  }

  lemma CallIs<A(!new)>(p: Pending, ds: seq<ToolDelta>, parseArgs: Bytes -> Option<A>)
    requires p == Described(ds)
    ensures IsCall(CallOf(p, parseArgs), ds, parseArgs)
  {}

  /** What is answered on a stream that has delivered these chunks. */
  lemma ResponseIs<A(!new)>(cs: seq<Chunk>, parseArgs: Bytes -> Option<A>)
    ensures IsResponse(Respond(AbsorbAll(NOTHING, cs), parseArgs), cs, parseArgs)
  {
    var ds, m := DeltasOf(cs), AddAll(map[], DeltasOf(cs));
    AbsorbAllParts(NOTHING, cs);
    AbsorbAllPending(NOTHING, cs);
    IndicesAre(ds);
    AddAllDescribes(ds);
    CallsAreKept(m, 0, parseArgs);
    var kept := KeptFrom(m.Keys, |m|, 0);
    forall k | 0 <= k < |kept| ensures IsCall(CallsFrom(m, 0, parseArgs)[k], Of(ds, kept[k]), parseArgs) {
      assert kept[k] in m && m[kept[k]] == Described(Of(ds, kept[k]));
      CallIs(m[kept[k]], Of(ds, kept[k]), parseArgs);
    }
  }

  /** The scan loop: what the lines gather, and whether they could all be read. */
  method ScanLines(input: Bytes) returns (gathered: Gathered, complete: bool)
    ensures (gathered, complete) == Receive(input, NOTHING)
  {
    var content: Bytes, finish: Bytes, usage: Option<Usage> := [], [], None;
    var pending: map<int, Pending> := map[];
    var events: seq<Event> := [];
    var t := input;
    var failed, done := false, false;
    ghost var whole := Receive(input, NOTHING);
    while !done
      invariant !done ==> whole == Receive(t, Gathered(content, finish, usage, pending, events))
      invariant done ==> whole.0 == Gathered(content, finish, usage, pending, events)
      invariant done ==> whole.1 == !failed
      invariant !done ==> !failed
      decreases !done, |t|
    {
      var scan := NextLine(t);
      match scan {
        case End => done := true;
        case TooLong => done, failed := true, true;
        case Line(line, rest) =>
          ghost var g := Gathered(content, finish, usage, pending, events);
          t := rest;
          if line == [] {
            continue;
          }
          if line == "data: [DONE]" {
            done := true;
            continue;
          }
          if !StartsWith(line, "data: ") {
            continue;
          }
          var chunk := ReadChunk(line[6..]);
          if chunk == None {
            continue;
          }
          if chunk.value.choices != [] {
            var choice := chunk.value.choices[0];
            if choice.content != [] {
              content := content + choice.content;
              events := events + [TextDelta(choice.content)];
            }
            pending := AccumulateDeltas(pending, choice.tools);
            if choice.finish.Some? {
              finish := choice.finish.value;
            }
          }
          if chunk.value.usage.Some? {
            usage := chunk.value.usage;
          }
          assert g.content + [] == g.content;
          assert Gathered(content, finish, usage, pending, events) == Absorb(g, chunk.value);
      }
    }
    gathered, complete := Gathered(content, finish, usage, pending, events), !failed;
  }

  method StreamWithTools<A(!new)>(input: Bytes, parseArgs: Bytes -> Option<A>)
      returns (r: Result<Response<A>, Bytes>, events: seq<Event>)
    ensures var (g, complete) := Receive(input, NOTHING);
            && (complete ==> r == Success(Respond(g, parseArgs)) && events == g.events + [Done(UsageOf(g))])
            && (!complete ==> r.Failure? && events == g.events + [StreamError])
    ensures r.Success? <==> Ends(input)
    ensures r.Success? ==> IsResponse(r.value, ChunksOf(input), parseArgs)
  {
    var g, complete := ScanLines(input);
    ReceiveAbsorbs(input, NOTHING);
    if !complete {
      return Failure("stream read error"), g.events + [StreamError];
    }
    ResponseIs(ChunksOf(input), parseArgs);
    var response := BuildResponse(g, parseArgs);
    r, events := Success(response), g.events + [Done(response.usage)];
  }

  method BuildResponse<A>(g: Gathered, parseArgs: Bytes -> Option<A>) returns (r: Response<A>)
    ensures r == Respond(g, parseArgs)
  {
    var calls := BuildCalls(g.pending, parseArgs);
    var total := if g.usage.Some? then g.usage.value else Usage(0, 0, 0);
    r := Response(if g.finish == "tool_calls" then ToolUse else EndTurn, g.content, calls, total);
  }

  method AccumulateDeltas(start: map<int, Pending>, ds: seq<ToolDelta>) returns (m: map<int, Pending>)
    ensures m == AddAll(start, ds)
  {
    m := start;
    for k := 0 to |ds|
      invariant AddAll(m, ds[k..]) == AddAll(start, ds)
    {
      var d := ds[k];
      assert ds[k..][0] == d && ds[k..][1..] == ds[k + 1..];
      var p := if d.index in m then m[d.index] else Pending([], [], []);
      if d.id != [] {
        p := p.(id := d.id);
      }
      if d.name != [] {
        p := p.(name := d.name);
      }
      if d.args != [] {
        p := p.(args := p.args + d.args);
      }
      assert p.args + [] == p.args;
      m := m[d.index := p];
    }
  }

  method BuildCalls<A>(m: map<int, Pending>, parseArgs: Bytes -> Option<A>) returns (calls: seq<ToolCall<A>>)
    ensures calls == CallsFrom(m, 0, parseArgs)
  {
    calls := [];
    for i := 0 to |m|
      invariant calls + CallsFrom(m, i, parseArgs) == CallsFrom(m, 0, parseArgs)
    {
      if i in m {
        assert calls + ([CallOf(m[i], parseArgs)] + CallsFrom(m, i + 1, parseArgs)) ==
               calls + [CallOf(m[i], parseArgs)] + CallsFrom(m, i + 1, parseArgs);
        calls := calls + [CallOf(m[i], parseArgs)];
      }
    }
  }

  /** On success the text events join to the content and exactly one event, the
      last, says the stream is done. */
  lemma EventsMatchContent(t: Bytes)
    ensures var g := Receive(t, NOTHING).0;
            EventText(g.events) == g.content && forall e :: e in g.events ==> e.TextDelta?
  {
    EventsGather(t, NOTHING);
  }

  lemma {:induction false} EventsGather(t: Bytes, g: Gathered)
    requires EventText(g.events) == g.content && forall e :: e in g.events ==> e.TextDelta?
    ensures var h := Receive(t, g).0;
            EventText(h.events) == h.content && forall e :: e in h.events ==> e.TextDelta?
    decreases |t|
  {
    match NextLine(t) {
      case Line(line, rest) =>
        if line != [] && line != "data: [DONE]" {
          var h := Take(g, line);
          if h != g {
            var c := ReadChunk(line[6..]).value;
            AbsorbAllEvents(g, [c]);
            AbsorbAllParts(g, [c]);
            assert AbsorbAll(g, [c]) == AbsorbAll(h, []) == h;
          }
          EventsGather(rest, h);
        } else if line == [] {
          EventsGather(rest, g);
        }
      case _ =>
    }
  }

  // ----- the round trip

  lemma {:induction false} FieldAt(ms: seq<Member>, key: Bytes, k: nat)
    requires k < |ms| && ms[k].key == key && forall j :: k < j < |ms| ==> ms[j].key != key
    ensures Field(ms, key) == ms[k].value
  {
    if k < |ms| - 1 {
      FieldAt(ms[..|ms| - 1], key, k);
    }
  }

  lemma {:induction false} NoField(ms: seq<Member>, key: Bytes)
    requires forall j :: 0 <= j < |ms| ==> ms[j].key != key
    ensures Field(ms, key) == Null
  {
    if ms != [] {
      NoField(ms[..|ms| - 1], key);
    }
  }

  predicate Ascii(s: Bytes) { forall i :: 0 <= i < |s| ==> s[i] as int < 0x80 }

  lemma CleanMembersAt(ms: seq<Member>)
    ensures |CleanMembers(ms)| == |ms|
    ensures forall k :: 0 <= k < |ms| ==> CleanMembers(ms)[k].value == Clean(ms[k].value)
    ensures forall k :: 0 <= k < |ms| && Ascii(ms[k].key) ==> CleanMembers(ms)[k].key == ms[k].key
  {
    forall k | 0 <= k < |ms| && Ascii(ms[k].key) ensures CleanMembers(ms)[k].key == ms[k].key {
      AsciiIsValid(ms[k].key);
    }
  }

  lemma ChoiceReads(c: seq<Member>, text: Bytes, end: Option<Bytes>)
    requires |c| == 3 && c[0].key == "index" && c[1].key == "delta" && c[2].key == "finish_reason"
    requires c[0].value.Int? && c[1].value.Obj? && ReadsAs(c[1].value.members, text)
    requires (c[2].value == Null && end == None) || (c[2].value.Str? && end == Some(c[2].value.s))
    ensures ReadChoice(Obj(c)) == Some(Choice(text, [], end))
  {
    FieldAt(c, "index", 0);
    FieldAt(c, "delta", 1);
    FieldAt(c, "finish_reason", 2);
  }

  ghost predicate TopKeys(top: seq<Member>) {
    && |top| == 5 && top[0].key == "id" && top[1].key == "object" && top[2].key == "created"
    && top[3].key == "model" && top[4].key == "choices"
  }

  lemma TopFields(top: seq<Member>)
    requires TopKeys(top)
    ensures ReadChunkValue(Obj(top)) == ReadChunkFields(top[0].value, top[4].value, Null)
  {
    FieldAt(top, "id", 0);
    FieldAt(top, "choices", 4);
    NoField(top, "usage");
  }

  lemma CleanTopKeys(ms: seq<Member>)
    requires TopKeys(ms)
    ensures TopKeys(CleanMembers(ms))
    ensures CleanMembers(ms)[0].value == Clean(ms[0].value) && CleanMembers(ms)[4].value == Clean(ms[4].value)
  {
    KeysAreAscii();
    CleanMembersAt(ms);
  }

  lemma OneChoice(choice: Json, c: Choice)
    requires ReadChoice(choice) == Some(c)
    ensures ReadChoices([choice]) == Some([c])
  {
    assert [choice][1..] == [] && ReadChoices([]) == Some([]);
    assert [c] + [] == [c];
  }

  function TextOnly(c: Choice): Chunk { Chunk([c], None) }

  /** A delta that carries the text and no tool calls. */
  ghost predicate ReadsAs(d: seq<Member>, text: Bytes) {
    && AsText(Field(d, "role")).Some?
    && AsText(Field(d, "content")) == Some(text)
    && Field(d, "tool_calls") == Null
  }

  // The shapes of the chunks the server prints.

  ghost predicate ChunkShape(v: Json, choice: Json) {
    v.Obj? && TopKeys(v.members) && v.members[0].value.Str? && v.members[4].value == Arr([choice])
  }

  ghost predicate ChoiceShape(v: Json, delta: seq<Member>, finish: Json) {
    && v.Obj? && |v.members| == 3 && v.members[0].key == "index" && v.members[1].key == "delta"
    && v.members[2].key == "finish_reason" && v.members[0].value.Int?
    && v.members[1].value == Obj(delta) && v.members[2].value == finish
  }

  ghost predicate DeltaShape(delta: seq<Member>, text: Bytes) {
    || (delta == [] && text == [])
    || (|delta| == 1 && delta[0].key == "role" && delta[0].value.Str? && text == [])
    || (|delta| == 1 && delta[0].key == "content" && delta[0].value.Str? && text == Sanitize(delta[0].value.s))
  }

  ghost predicate FinishShape(finish: Json, end: Option<Bytes>) {
    (finish == Null && end == None) || (finish.Str? && end == Some(Sanitize(finish.s)))
  }

  /** `v` is a chunk the server prints; a reader gets `text` and `end` from it. */
  ghost predicate Served(v: Json, text: Bytes, end: Option<Bytes>) {
    exists choice, delta, finish ::
      ChunkShape(v, choice) && ChoiceShape(choice, delta, finish) && DeltaShape(delta, text) && FinishShape(finish, end)
  }

  lemma OneFieldReads(d: seq<Member>, text: Bytes)
    requires |d| == 1
    requires (d[0].key == "role" && d[0].value.Str? && text == []) || (d[0].key == "content" && d[0].value == Str(text))
    ensures ReadsAs(d, text)
  {
    FieldAt(d, d[0].key, 0);
    NoField(d, "tool_calls");
    if d[0].key == "role" {
      NoField(d, "content");
    } else {
      NoField(d, "role");
    }
  }

  lemma NothingReads()
    ensures CleanMembers([]) == [] && ReadsAs([], [])
  {}

  lemma DeltaReads(delta: seq<Member>, text: Bytes)
    requires DeltaShape(delta, text)
    ensures ReadsAs(CleanMembers(delta), text)
  {
    var d := CleanMembers(delta);
    if delta == [] {
      NothingReads();
    } else {
      CleanMembersAt(delta);
      OneFieldReads(d, text);
    }
  }

  lemma KeysAreAscii()
    ensures Ascii("index") && Ascii("delta") && Ascii("finish_reason")
    ensures Ascii("id") && Ascii("object") && Ascii("created") && Ascii("model") && Ascii("choices")
  {}

  lemma CleanChoice(choice: Json, delta: seq<Member>, finish: Json)
    requires ChoiceShape(choice, delta, finish)
    ensures Clean(choice).Obj? && ChoiceShape(Clean(choice), CleanMembers(delta), Clean(finish))
  {
    var ms := choice.members;
    KeysAreAscii();
    CleanMemberAt(ms, 0);
    CleanMemberAt(ms, 1);
    CleanMemberAt(ms, 2);
    CleanObj(ms);
    CleanObj(delta);
  }

  lemma CleanMemberAt(ms: seq<Member>, k: nat)
    requires k < |ms| && Ascii(ms[k].key)
    ensures |CleanMembers(ms)| == |ms| && CleanMembers(ms)[k] == Member(ms[k].key, Clean(ms[k].value))
  {
    AsciiIsValid(ms[k].key);
  }

  lemma CleanObj(members: seq<Member>)
    ensures Clean(Obj(members)) == Obj(CleanMembers(members))
  {}

  lemma ServedChoiceReads(choice: Json, delta: seq<Member>, finish: Json, text: Bytes, end: Option<Bytes>)
    requires ChoiceShape(choice, delta, finish) && DeltaShape(delta, text) && FinishShape(finish, end)
    ensures ReadChoice(Clean(choice)) == Some(Choice(text, [], end))
  {
    CleanChoice(choice, delta, finish);
    DeltaReads(delta, text);
    ChoiceReads(Clean(choice).members, text, end);
  }

  lemma FieldsRead(id: Json, choice: Json, c: Choice)
    requires id.Str? && ReadChoice(choice) == Some(c)
    ensures ReadChunkFields(id, Arr([choice]), Null) == Some(TextOnly(c))
  {
    OneChoice(choice, c);
  }

  lemma ServedTopReads(v: Json, choice: Json, c: Choice)
    requires ChunkShape(v, choice) && ReadChoice(Clean(choice)) == Some(c)
    ensures ReadChunkValue(Clean(v)) == Some(TextOnly(c))
  {
    var top := CleanMembers(v.members);
    CleanTopKeys(v.members);
    CleanObj(v.members);
    CleanOne(choice);
    TopFields(top);
    FieldsRead(top[0].value, Clean(choice), c);
  }

  lemma CleanOne(v: Json)
    ensures Clean(Arr([v])) == Arr([Clean(v)])
  {
    assert CleanElems([v]) == [Clean(v)];
  }

  /** What the client reads out of a chunk the server printed. */
  lemma ServedReads(v: Json, text: Bytes, end: Option<Bytes>)
    requires Served(v, text, end)
    ensures v.Obj? && ReadChunk(Print(v)) == Some(TextOnly(Choice(text, [], end)))
  {
    var choice, delta, finish :|
      && ChunkShape(v, choice) && ChoiceShape(choice, delta, finish)
      && DeltaShape(delta, text) && FinishShape(finish, end);
    ServedChoiceReads(choice, delta, finish, text, end);
    ServedTopReads(v, choice, Choice(text, [], end));
    RoundTrip(v);
  }

  lemma {:induction false} LineLengthIs(line: Bytes, rest: Bytes)
    requires NoControls(line)
    ensures LineLength(line + "\n" + rest) == |line|
  {
    var t := line + "\n" + rest;
    if line != [] {
      assert t[1..] == line[1..] + "\n" + rest;
      LineLengthIs(line[1..], rest);
    }
  }

  lemma NextLineIs(line: Bytes, rest: Bytes)
    requires NoControls(line)
    ensures NextLine(line + "\n" + rest) == if |line| < MAX_LINE then Line(line, rest) else TooLong
  {
    LineLengthIs(line, rest);
    var t := line + "\n" + rest;
    assert t[..|line|] == line && t[|line| + 1..] == rest;
  }

  /** A line may end in a carriage return and a line feed, or with the stream. */
  lemma LineEnds(line: Bytes, rest: Bytes)
    requires NoControls(line) && |line| + 1 < MAX_LINE
    ensures NextLine(line + "\r" + "\n" + rest) == Line(line, rest)
    ensures line != [] ==> NextLine(line) == Line(line, [])
  {
    LineWithReturn(line, rest);
    var t := line + "\r" + "\n" + rest;
    assert t[..|line| + 1] == line + "\r" && t[|line| + 2..] == rest;
    assert (line + "\r")[..|line|] == line;
    NoLineFeed(line);
    assert line[..|line|] == line;
  }

  lemma {:induction false} LineWithReturn(line: Bytes, rest: Bytes)
    requires NoControls(line)
    ensures LineLength(line + "\r" + "\n" + rest) == |line| + 1
  {
    var t := line + "\r" + "\n" + rest;
    if line == [] {
      assert t[1..] == "\n" + rest;
    } else {
      assert t[1..] == line[1..] + "\r" + "\n" + rest;
      LineWithReturn(line[1..], rest);
    }
  }

  lemma {:induction false} NoLineFeed(line: Bytes)
    requires NoControls(line)
    ensures LineLength(line) == |line|
  {
    if line != [] {
      NoLineFeed(line[1..]);
    }
  }

  lemma ReceiveStep(t: Bytes, line: Bytes, rest: Bytes, g: Gathered)
    requires NextLine(t) == Line(line, rest)
    ensures line == [] ==> Receive(t, g) == Receive(rest, g)
    ensures line != [] && line != "data: [DONE]" ==> Receive(t, g) == Receive(rest, Take(g, line))
  {}

  lemma EventLineIs(v: Json)
    requires v.Obj?
    ensures NoControls(EventLine(v)) && EventLine(v) != "data: [DONE]"
    ensures StartsWith(EventLine(v), "data: ") && EventLine(v)[6..] == Print(v)
  {
    PrintHasNoControls(v);
    assert EventLine(v)[6] == '{' && "data: [DONE]"[6] == '[';
  }

  lemma TakesLine(line: Bytes, rest: Bytes, g: Gathered)
    requires NoControls(line) && line != [] && line != "data: [DONE]"
    ensures Receive(line + "\n\n" + rest, g) == if |line| < MAX_LINE then Receive(rest, Take(g, line)) else (g, false)
  {
    var blank := "\n" + rest;
    NextLineIs(line, blank);
    NextLineIs([], rest);
    BlankLineAfter(line, rest);
    if |line| < MAX_LINE {
      TakesTwoLines(line + "\n" + blank, line, blank, rest, g);
    }
  }

  lemma BlankLineAfter(line: Bytes, rest: Bytes)
    ensures line + "\n\n" + rest == line + "\n" + ("\n" + rest)
    ensures [] + "\n" + rest == "\n" + rest
  {}

  lemma TakesTwoLines(t: Bytes, line: Bytes, blank: Bytes, rest: Bytes, g: Gathered)
    requires NextLine(t) == Line(line, blank) && NextLine(blank) == Line([], rest)
    requires line != [] && line != "data: [DONE]"
    ensures Receive(t, g) == Receive(rest, Take(g, line))
  {
    ReceiveStep(t, line, blank, g);
    ReceiveStep(blank, [], rest, Take(g, line));
  }

  /** The client takes one event: the scanner either gives up on its line or
      hands over exactly that line. */
  lemma TakesEvent(v: Json, c: Chunk, rest: Bytes, g: Gathered)
    requires v.Obj? && ReadChunk(Print(v)) == Some(c)
    ensures Receive(EventLine(v) + "\n\n" + rest, g) ==
            if |EventLine(v)| < MAX_LINE then Receive(rest, Absorb(g, c)) else (g, false)
  {
    EventLineIs(v);
    TakesLine(EventLine(v), rest, g);
  }

  ghost predicate Fits(vs: seq<Json>) { forall k :: 0 <= k < |vs| ==> |EventLine(vs[k])| < MAX_LINE }

  /** Each printed value reads as the corresponding chunk. */
  ghost predicate ReadBack(vs: seq<Json>, cs: seq<Chunk>) {
    |cs| == |vs| && forall k :: 0 <= k < |vs| ==> vs[k].Obj? && ReadChunk(Print(vs[k])) == Some(cs[k])
  }

  lemma {:induction false} TakesEvents(vs: seq<Json>, cs: seq<Chunk>, rest: Bytes, g: Gathered)
    requires ReadBack(vs, cs)
    ensures Fits(vs) ==> Receive(Events(vs) + rest, g) == Receive(rest, AbsorbAll(g, cs))
    ensures !Fits(vs) ==> !Receive(Events(vs) + rest, g).1
    decreases |vs|
  {
    if vs == [] {
      assert Events(vs) + rest == rest;
    } else {
      var more := Events(vs[1..]) + rest;
      assert Events(vs) + rest == EventLine(vs[0]) + "\n\n" + more;
      TakesEvent(vs[0], cs[0], more, g);
      TakesEvents(vs[1..], cs[1..], rest, Absorb(g, cs[0]));
      assert Fits(vs) <==> |EventLine(vs[0])| < MAX_LINE && Fits(vs[1..]) by {
        assert forall k :: 0 < k < |vs| ==> vs[k] == vs[1..][k - 1];
      }
    }
  }

  // ----- the whole stream

  /** What a reader gets out of the k-th chunk of a served stream. */
  function ServedText(tokens: seq<Bytes>, k: nat): Bytes {
    if 1 <= k <= |tokens| then Sanitize(tokens[k - 1]) else []
  }

  function ServedEnd(tokens: seq<Bytes>, k: nat): Option<Bytes> {
    if k == |tokens| + 1 then Some("stop") else None
  }

  function ServedChunks(tokens: seq<Bytes>): seq<Chunk> {
    seq(|tokens| + 2, k requires 0 <= k < |tokens| + 2 =>
      TextOnly(Choice(ServedText(tokens, k), [], ServedEnd(tokens, k))))
  }

  lemma ChunkIsServed(id: Bytes, created: int, model: Bytes, delta: seq<Member>, finish: Json, text: Bytes,
      end: Option<Bytes>)
    requires DeltaShape(delta, text) && FinishShape(finish, end)
    ensures Served(ChunkJson(id, created, model, delta, finish), text, end)
  {
    var v := ChunkJson(id, created, model, delta, finish);
    var choice := Obj(ChoiceMembers(delta, finish));
    assert ChunkShape(v, choice) && ChoiceShape(choice, delta, finish);
  }

  lemma EndChunksAreServed(id: Bytes, created: int, model: Bytes)
    ensures Served(RoleChunk(id, created, model), [], None)
    ensures Served(StopChunk(id, created, model), [], Some("stop"))
  {
    ChunkIsServed(id, created, model, [Member("role", Str("assistant"))], Null, [], None);
    AsciiIsValid("stop");
    ChunkIsServed(id, created, model, [], Str("stop"), [], Some("stop"));
  }

  lemma TokenChunkIsServed(id: Bytes, created: int, model: Bytes, token: Bytes)
    requires token != []
    ensures Served(TokenChunk(id, created, model, token), Sanitize(token), None)
  {
    ChunkIsServed(id, created, model, [Member("content", Str(token))], Null, Sanitize(token), None);
  }

  ghost predicate AllServed(vs: seq<Json>, tokens: seq<Bytes>) {
    && |vs| == |tokens| + 2
    && forall k :: 0 <= k < |vs| ==> Served(vs[k], ServedText(tokens, k), ServedEnd(tokens, k))
  }

  lemma ChunksAreServed(id: Bytes, created: int, model: Bytes, content: Bytes)
    ensures AllServed(Chunks(id, created, model, content), Tokens(content))
  {
    var vs, tokens := Chunks(id, created, model, content), Tokens(content);
    ChunkCount(id, created, model, content);
    forall k | 0 <= k < |vs| ensures Served(vs[k], ServedText(tokens, k), ServedEnd(tokens, k)) {
      ChunkAtIsServed(id, created, model, content, k);
    }
  }

  lemma ChunkCount(id: Bytes, created: int, model: Bytes, content: Bytes)
    ensures |Chunks(id, created, model, content)| == |Tokens(content)| + 2
  {}

  lemma ChunkAt(id: Bytes, created: int, model: Bytes, content: Bytes, k: nat)
    requires k < |Chunks(id, created, model, content)|
    ensures Chunks(id, created, model, content)[k] ==
            if k == 0 then RoleChunk(id, created, model)
            else if k <= |Tokens(content)| then TokenChunk(id, created, model, Tokens(content)[k - 1])
            else StopChunk(id, created, model)
  {}

  lemma TokenIsText(content: Bytes, k: nat)
    requires k < |Tokens(content)|
    ensures Tokens(content)[k] != []
  {
    TokensAreRuns(content);
    assert Uniform(Tokens(content)[k]);
  }

  lemma ChunkAtIsServed(id: Bytes, created: int, model: Bytes, content: Bytes, k: nat)
    requires k < |Chunks(id, created, model, content)|
    ensures var tokens := Tokens(content);
            Served(Chunks(id, created, model, content)[k], ServedText(tokens, k), ServedEnd(tokens, k))
  {
    ChunkAt(id, created, model, content, k);
    if 1 <= k <= |Tokens(content)| {
      TokenIsText(content, k - 1);
      TokenChunkIsServed(id, created, model, Tokens(content)[k - 1]);
    } else {
      ChunkCount(id, created, model, content);
      EndChunksAreServed(id, created, model);
    }
  }

  /** What an event says of the completion it belongs to. */
  ghost predicate Identifies(v: Json, id: Bytes, created: int, model: Bytes) {
    && v.Obj? && Field(v.members, "id") == Str(id) && Field(v.members, "model") == Str(model)
    && Field(v.members, "created") == Int(created) && Field(v.members, "object") == Str("chat.completion.chunk")
  }

  lemma TopFieldsAre(top: seq<Member>)
    requires TopKeys(top)
    ensures Field(top, "id") == top[0].value && Field(top, "object") == top[1].value
    ensures Field(top, "created") == top[2].value && Field(top, "model") == top[3].value
  {
    FieldAt(top, top[0].key, 0);
    FieldAt(top, top[1].key, 1);
    FieldAt(top, top[2].key, 2);
    FieldAt(top, top[3].key, 3);
  }

  /** Every event of a served stream parses to an object that carries the
      completion's own ID, time and model. */
  lemma EventsIdentify(id: Bytes, created: int, model: Bytes, content: Bytes, k: nat)
    requires k < |Chunks(id, created, model, content)|
    ensures var v := Chunks(id, created, model, content)[k];
            Parse(Print(v)).Good? && Identifies(Parse(Print(v)).value, Sanitize(id), created, Sanitize(model))
  {
    var v := Chunks(id, created, model, content)[k];
    ChunkAt(id, created, model, content, k);
    RoundTrip(v);
    ChunkHead(id, created, model, v.members);
    HeadIdentifies(id, created, model, v.members);
  }

  /** The first event names the role, and only it does. */
  lemma FirstEventIsRole(id: Bytes, created: int, model: Bytes, content: Bytes)
    ensures Chunks(id, created, model, content)[0] ==
            ChunkJson(id, created, model, [Member("role", Str("assistant"))], Null)
    ensures forall k :: 1 <= k <= |Tokens(content)| ==>
              Chunks(id, created, model, content)[k] ==
              ChunkJson(id, created, model, [Member("content", Str(Tokens(content)[k - 1]))], Null)
    ensures Chunks(id, created, model, content)[|Tokens(content)| + 1] ==
            ChunkJson(id, created, model, [], Str("stop"))
  {
    ChunkCount(id, created, model, content);
    ChunkAt(id, created, model, content, 0);
    forall k: nat | 1 <= k <= |Tokens(content)|
      ensures Chunks(id, created, model, content)[k] ==
              ChunkJson(id, created, model, [Member("content", Str(Tokens(content)[k - 1]))], Null)
    {
      ChunkAt(id, created, model, content, k);
      TokenIsText(content, k - 1);
    }
    ChunkAt(id, created, model, content, |Tokens(content)| + 1);
  }

  /** The members that every chunk starts with. */
  ghost predicate Head(id: Bytes, created: int, model: Bytes, ms: seq<Member>) {
    && TopKeys(ms) && ms[0].value == Str(id) && ms[1].value == Str("chat.completion.chunk")
    && ms[2].value == Int(created) && ms[3].value == Str(model)
  }

  lemma ChunkHead(id: Bytes, created: int, model: Bytes, ms: seq<Member>)
    requires exists choice :: ms == ChunkMembers(id, created, model, choice)
    ensures Head(id, created, model, ms)
  {}

  lemma HeadIdentifies(id: Bytes, created: int, model: Bytes, ms: seq<Member>)
    requires Head(id, created, model, ms)
    ensures Identifies(Clean(Obj(ms)), Sanitize(id), created, Sanitize(model))
  {
    CleanTopKeys(ms);
    KindIsClean(ms[1].value);
    TopFieldsAre(CleanMembers(ms));
  }

  lemma KindIsClean(v: Json)
    requires v == Str("chat.completion.chunk")
    ensures Clean(v) == v
  {
    AsciiIsValid(v.s);
  }

  function SanitizeAll(tokens: seq<Bytes>): seq<Bytes> {
    seq(|tokens|, k requires 0 <= k < |tokens| => Sanitize(tokens[k]))
  }

  lemma TextFrom(cs: seq<Chunk>, k: nat)
    requires k < |cs|
    ensures TextOf(cs[k..]) == ContentOf(cs[k]) + TextOf(cs[k + 1..])
  {
    assert cs[k..][1..] == cs[k + 1..];
  }

  lemma ConcatFrom(texts: seq<Bytes>, k: nat)
    requires k < |texts|
    ensures Concat(texts[k..]) == texts[k] + Concat(texts[k + 1..])
  {
    assert texts[k..][1..] == texts[k + 1..];
  }

  lemma {:induction false} SuffixText(tokens: seq<Bytes>, k: nat)
    requires k <= |tokens| + 2
    ensures TextOf(ServedChunks(tokens)[k..]) ==
            if k > |tokens| then [] else Concat(SanitizeAll(tokens)[if k == 0 then 0 else k - 1..])
    decreases |tokens| + 2 - k
  {
    if k < |tokens| + 2 {
      SuffixText(tokens, k + 1);
      TextFrom(ServedChunks(tokens), k);
      if 1 <= k <= |tokens| {
        ConcatFrom(SanitizeAll(tokens), k - 1);
      }
    }
  }

  lemma {:induction false} SuffixEnd(tokens: seq<Bytes>, k: nat)
    requires k <= |tokens| + 2
    ensures DeltasOf(ServedChunks(tokens)[k..]) == []
    ensures k < |tokens| + 2 ==> FinishOf(ServedChunks(tokens)[k..], []) == "stop"
    ensures LastUsage(ServedChunks(tokens)[k..], None) == None
    decreases |tokens| + 2 - k
  {
    var cs := ServedChunks(tokens);
    if k < |tokens| + 2 {
      SuffixEnd(tokens, k + 1);
      assert cs[k..][0] == cs[k] && cs[k..][1..] == cs[k + 1..];
      if k == |tokens| + 1 {
        assert cs[k + 1..] == [];
      }
    } else {
      assert cs[k..] == [];
    }
  }

  lemma {:induction false} SanitizedJoin(content: Bytes)
    ensures Valid(Concat(SanitizeAll(Tokens(content))))
    ensures Valid(content) ==> Concat(SanitizeAll(Tokens(content))) == content
  {
    JoinIsValid(Tokens(content));
    TokensShape(content);
    if Valid(content) {
      TokensKeepRunes(content);
      forall k | 0 <= k < |Tokens(content)| ensures Sanitize(Tokens(content)[k]) == Tokens(content)[k] {
        SanitizeFixesValid(Tokens(content)[k]);
      }
      assert SanitizeAll(Tokens(content)) == Tokens(content);
    }
  }

  lemma {:induction false} JoinIsValid(tokens: seq<Bytes>)
    ensures Valid(Concat(SanitizeAll(tokens)))
  {
    if tokens != [] {
      assert SanitizeAll(tokens)[1..] == SanitizeAll(tokens[1..]);
      JoinIsValid(tokens[1..]);
      SanitizeIsValid(tokens[0]);
      ValidConcat(Sanitize(tokens[0]), Concat(SanitizeAll(tokens[1..])));
    }
  }

  lemma EndOfStream(g: Gathered)
    ensures Receive(END_MARK, g) == (g, true)
  {
    var line := EndLine();
    NextLineIs(line, "\n");
  }

  lemma EndLine() returns (line: Bytes)
    ensures line == "data: [DONE]" && NoControls(line) && line + "\n" + "\n" == END_MARK
  {
    line := "data: [DONE]";
  }

  lemma ServedStreamGathers(tokens: seq<Bytes>)
    ensures var g := AbsorbAll(NOTHING, ServedChunks(tokens));
            && g.content == Concat(SanitizeAll(tokens)) && g.finish == "stop" && g.usage == None && g.pending == map[]
  {
    var cs := ServedChunks(tokens);
    AbsorbAllParts(NOTHING, cs);
    AbsorbAllPending(NOTHING, cs);
    SuffixText(tokens, 0);
    SuffixEnd(tokens, 0);
    assert cs[0..] == cs;
    assert SanitizeAll(tokens)[0..] == SanitizeAll(tokens);
  }

  lemma StreamIsTaken(id: Bytes, created: int, model: Bytes, content: Bytes)
    ensures var vs := Chunks(id, created, model, content);
            var got := Receive(StreamText(id, created, model, content), NOTHING);
            && (Fits(vs) ==> got == (AbsorbAll(NOTHING, ServedChunks(Tokens(content))), true))
            && (!Fits(vs) ==> !got.1)
  {
    var vs := Chunks(id, created, model, content);
    ChunksAreServed(id, created, model, content);
    AllRead(vs, Tokens(content));
    WholeStream(vs, ServedChunks(Tokens(content)));
  }

  lemma EndsAfterEvents(vs: seq<Json>, cs: seq<Chunk>, tail: Bytes)
    requires ReadBack(vs, cs) && Receive(tail, AbsorbAll(NOTHING, cs)) == (AbsorbAll(NOTHING, cs), true)
    ensures var got := Receive(Events(vs) + tail, NOTHING);
            (Fits(vs) ==> got == (AbsorbAll(NOTHING, cs), true)) && (!Fits(vs) ==> !got.1)
  {
    TakesEvents(vs, cs, tail, NOTHING);
  }

  lemma WholeStream(vs: seq<Json>, cs: seq<Chunk>)
    requires ReadBack(vs, cs)
    ensures var got := Receive(Events(vs) + END_MARK, NOTHING);
            (Fits(vs) ==> got == (AbsorbAll(NOTHING, cs), true)) && (!Fits(vs) ==> !got.1)
  {
    EndOfStream(AbsorbAll(NOTHING, cs));
    EndsAfterEvents(vs, cs, END_MARK);
  }

  lemma AllRead(vs: seq<Json>, tokens: seq<Bytes>)
    requires AllServed(vs, tokens)
    ensures ReadBack(vs, ServedChunks(tokens))
  {
    forall k | 0 <= k < |vs| ensures vs[k].Obj? && ReadChunk(Print(vs[k])) == Some(ServedChunks(tokens)[k]) {
      ServedReads(vs[k], ServedText(tokens, k), ServedEnd(tokens, k));
    }
  }

  /** The stream ends without error exactly when every event line fits the
      scanner; then the client gets end-of-turn, no tool calls, and exactly the
      served content if and only if that content was well-formed UTF-8. */
  lemma StreamRoundTrip<A>(id: Bytes, created: int, model: Bytes, content: Bytes, parseArgs: Bytes -> Option<A>)
    ensures var (g, complete) := Receive(StreamText(id, created, model, content), NOTHING);
            && complete == Fits(Chunks(id, created, model, content))
            && (complete ==>
                  var r := Respond(g, parseArgs);
                  && r.stop == EndTurn && r.calls == [] && r.usage == Usage(0, 0, 0)
                  && (r.content == content <==> Valid(content)))
  {
    StreamIsTaken(id, created, model, content);
    ServedStreamGathers(Tokens(content));
    SanitizedJoin(content);
    assert "stop" != "tool_calls";
  }
}
