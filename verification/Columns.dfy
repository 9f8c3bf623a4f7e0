/** A codec for the text columns of the session tables that meets everything the
    store asks of one: tool lists as JSON arrays of character codes, timestamps
    as RFC3339Nano. */
module Columns {
  import opened Common
  import opened JsonText
  import Llm
  import opened Sessions
  import opened SqliteSessions
  import opened Stamps

  predicate IsCode(n: int) { 0 <= n < 0xD800 || 0xE000 <= n < 0x110000 }

  function Codes(s: string): Json { Arr(seq(|s|, i requires 0 <= i < |s| => Int(s[i] as int))) }

  predicate AreCodes(v: Json) {
    v.Arr? && forall i :: 0 <= i < |v.elems| ==> v.elems[i].Int? && IsCode(v.elems[i].n)
  }

  function Chars(v: Json): string
    requires AreCodes(v)
  {
    seq(|v.elems|, i requires 0 <= i < |v.elems| => v.elems[i].n as char)
  }

  function CallJson(t: ToolCall): Json { Arr([Codes(t.id), Codes(t.name), Codes(t.args)]) }

  function ResultJson(t: ToolResult): Json { Arr([Codes(t.toolUseID), Codes(t.output), Bool(t.isError)]) }

  predicate IsCall(v: Json) {
    v.Arr? && |v.elems| == 3 && AreCodes(v.elems[0]) && AreCodes(v.elems[1]) && AreCodes(v.elems[2])
  }

  predicate IsResult(v: Json) {
    v.Arr? && |v.elems| == 3 && AreCodes(v.elems[0]) && AreCodes(v.elems[1]) && v.elems[2].Bool?
  }

  function ReadCall(v: Json): ToolCall
    requires IsCall(v)
  {
    Llm.ToolCall(Chars(v.elems[0]), Chars(v.elems[1]), Chars(v.elems[2]))
  }

  function ReadResult(v: Json): ToolResult
    requires IsResult(v)
  {
    Llm.ToolResultContent(Chars(v.elems[0]), Chars(v.elems[1]), v.elems[2].b)
  }

  predicate AreCalls(vs: seq<Json>) { forall i :: 0 <= i < |vs| ==> IsCall(vs[i]) }

  predicate AreResults(vs: seq<Json>) { forall i :: 0 <= i < |vs| ==> IsResult(vs[i]) }

  function ReadCalls(vs: seq<Json>): seq<ToolCall>
    requires AreCalls(vs)
  {
    seq(|vs|, i requires 0 <= i < |vs| => ReadCall(vs[i]))
  }

  function ReadResults(vs: seq<Json>): seq<ToolResult>
    requires AreResults(vs)
  {
    seq(|vs|, i requires 0 <= i < |vs| => ReadResult(vs[i]))
  }

  function CallsJson(x: seq<ToolCall>): seq<Json> { seq(|x|, i requires 0 <= i < |x| => CallJson(x[i])) }

  function ResultsJson(x: seq<ToolResult>): seq<Json> { seq(|x|, i requires 0 <= i < |x| => ResultJson(x[i])) }

  function EncodeCalls(x: seq<ToolCall>): string { Print(Arr(CallsJson(x))) }

  function EncodeResults(x: seq<ToolResult>): string { Print(Arr(ResultsJson(x))) }

  /** The elements of the JSON array a text spells, if it spells one. */
  function ReadArray(s: string): Option<seq<Json>> {
    if forall i :: 0 <= i < |s| ==> s[i] as int < 256 then
      match JsonText.Parse(s)
      case Good(Arr(elems), _) => Some(elems)
      case _ => None
    else None
  }

  function DecodeCalls(s: string): Option<seq<ToolCall>> {
    match ReadArray(s)
    case None => None
    case Some(vs) =>
      if AreCalls(vs) then Some(ReadCalls(vs)) else None
  }

  function DecodeResults(s: string): Option<seq<ToolResult>> {
    match ReadArray(s)
    case None => None
    case Some(vs) =>
      if AreResults(vs) then Some(ReadResults(vs)) else None
  }

  lemma CodesRoundTrip(s: string)
    ensures AreCodes(Codes(s)) && Chars(Codes(s)) == s && Clean(Codes(s)) == Codes(s)
  {
    var v := Codes(s);
    forall i | 0 <= i < |v.elems| ensures v.elems[i].Int? && IsCode(v.elems[i].n) && v.elems[i].n as char == s[i] {}
    assert CleanElems(v.elems) == v.elems;
  }

  lemma TripleIsClean(a: Json, b: Json, c: Json)
    requires Clean(a) == a && Clean(b) == b && Clean(c) == c
    ensures Clean(Arr([a, b, c])) == Arr([a, b, c])
  {
    assert CleanElems([a, b, c]) == [a, b, c];
  }

  lemma CallReadsBack(t: ToolCall)
    ensures IsCall(CallJson(t)) && ReadCall(CallJson(t)) == t && Clean(CallJson(t)) == CallJson(t)
  {
    CodesRoundTrip(t.id);
    CodesRoundTrip(t.name);
    CodesRoundTrip(t.args);
    TripleIsClean(Codes(t.id), Codes(t.name), Codes(t.args));
  }

  lemma ResultReadsBack(t: ToolResult)
    ensures IsResult(ResultJson(t)) && ReadResult(ResultJson(t)) == t && Clean(ResultJson(t)) == ResultJson(t)
  {
    CodesRoundTrip(t.toolUseID);
    CodesRoundTrip(t.output);
    TripleIsClean(Codes(t.toolUseID), Codes(t.output), Bool(t.isError));
  }

  lemma ArrayReadsBack(vs: seq<Json>)
    requires forall i :: 0 <= i < |vs| ==> Clean(vs[i]) == vs[i]
    ensures ReadArray(Print(Arr(vs))) == Some(vs) && Print(Arr(vs)) != ""
  {
    RoundTrip(Arr(vs));
    assert CleanElems(vs) == vs;
  }

  lemma CallsRoundTrip(x: seq<ToolCall>)
    ensures EncodeCalls(x) != "" && DecodeCalls(EncodeCalls(x)) == Some(x)
  {
    var vs := CallsJson(x);
    forall i | 0 <= i < |x| ensures IsCall(vs[i]) && ReadCall(vs[i]) == x[i] && Clean(vs[i]) == vs[i] {
      CallReadsBack(x[i]);
    }
    assert AreCalls(vs) && ReadCalls(vs) == x;
    ArrayReadsBack(vs);
  }

  lemma ResultsRoundTrip(x: seq<ToolResult>)
    ensures EncodeResults(x) != "" && DecodeResults(EncodeResults(x)) == Some(x)
  {
    var vs := ResultsJson(x);
    forall i | 0 <= i < |x| ensures IsResult(vs[i]) && ReadResult(vs[i]) == x[i] && Clean(vs[i]) == vs[i] {
      ResultReadsBack(x[i]);
    }
    assert AreResults(vs) && ReadResults(vs) == x;
    ArrayReadsBack(vs);
  }

  function ColumnCodec(z: Zone): Codec {
    Codec(x => EncodeCalls(x), s => DecodeCalls(s), x => EncodeResults(x), s => DecodeResults(s),
          (t: nat) => FourDigitYear(t), (t: nat) => Stamps.Format(t, z), s => Stamps.Parse(s, z))
  }

  /** What the table store assumes of its columns can be met, in every zone. */
  lemma ColumnsAreFaithful(z: Zone)
    ensures Faithful(ColumnCodec(z)) && WritesRfc3339(ColumnCodec(z), z)
  {
    var c := ColumnCodec(z);
    forall x ensures c.encodeCalls(x) != "" && c.decodeCalls(c.encodeCalls(x)) == Some(x) {
      CallsRoundTrip(x);
    }
    forall x ensures c.encodeResults(x) != "" && c.decodeResults(c.encodeResults(x)) == Some(x) {
      ResultsRoundTrip(x);
    }
    TimestampsAreFaithful(c, z);
  }
}
