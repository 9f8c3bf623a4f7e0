/** Reassembly of a streamed response: how the fragments of chunk deltas add
    up, and why neither their chunking nor their interleaving matters. */
module ToolCallDeltas {
  import opened Common
  import opened Utf8
  import Llm

  datatype ToolDelta = ToolDelta(index: int, id: Bytes, name: Bytes, args: Bytes)

  datatype Usage = Usage(prompt: int, completion: int, total: int)

  datatype Choice = Choice(content: Bytes, tools: seq<ToolDelta>, finish: Option<Bytes>)

  datatype Chunk = Chunk(choices: seq<Choice>, usage: Option<Usage>)

  datatype Pending = Pending(id: Bytes, name: Bytes, args: Bytes)

  datatype StopReason = EndTurn | ToolUse

  datatype Args<A> = Parsed(value: A) | Raw(text: Bytes)

  type ToolCall<A> = Llm.ToolCall<Bytes, Args<A>>

  datatype Response<A> = Response(stop: StopReason, content: Bytes, calls: seq<ToolCall<A>>, usage: Usage)

  datatype Event = TextDelta(text: Bytes) | Done(usage: Usage) | StreamError

  /** What the scan loop has gathered so far. */
  datatype Gathered = Gathered(content: Bytes, finish: Bytes, usage: Option<Usage>,
                               pending: map<int, Pending>, events: seq<Event>)

  const NOTHING: Gathered := Gathered([], [], None, map[], [])

  // ----- one delta, one chunk

  function Newer(old_: Bytes, new_: Bytes): Bytes { if new_ != [] then new_ else old_ }

  function Add(m: map<int, Pending>, d: ToolDelta): map<int, Pending> {
    var p := if d.index in m then m[d.index] else Pending([], [], []);
    m[d.index := Pending(Newer(p.id, d.id), Newer(p.name, d.name), p.args + d.args)]
  }

  function AddAll(m: map<int, Pending>, ds: seq<ToolDelta>): map<int, Pending>
    decreases |ds|
  {
    if ds == [] then m else AddAll(Add(m, ds[0]), ds[1..])
  }

  /** Only the first choice of a chunk is used; a chunk without choices can
      only carry usage. */
  function Absorb(g: Gathered, c: Chunk): Gathered {
    var usage := if c.usage.Some? then c.usage else g.usage;
    if c.choices == [] then g.(usage := usage)
    else
      var choice := c.choices[0];
      Gathered(g.content + choice.content,
               if choice.finish.Some? then choice.finish.value else g.finish,
               usage,
               AddAll(g.pending, choice.tools),
               if choice.content == [] then g.events else g.events + [TextDelta(choice.content)])
  }

  function AbsorbAll(g: Gathered, cs: seq<Chunk>): Gathered
    decreases |cs|
  {
    if cs == [] then g else AbsorbAll(Absorb(g, cs[0]), cs[1..])
  }

  // ----- the response

  function CallOf<A>(p: Pending, parseArgs: Bytes -> Option<A>): ToolCall<A> {
    Llm.ToolCall(p.id, p.name, match parseArgs(p.args) case Some(v) => Parsed(v) case None => Raw(p.args))
  }

  /** The calls at indices from `i` up to the number of distinct indices. */
  function CallsFrom<A>(m: map<int, Pending>, i: nat, parseArgs: Bytes -> Option<A>): seq<ToolCall<A>>
    decreases |m| - i
  {
    if i >= |m| then []
    else (if i in m then [CallOf(m[i], parseArgs)] else []) + CallsFrom(m, i + 1, parseArgs)
  }

  function UsageOf(g: Gathered): Usage { if g.usage.Some? then g.usage.value else Usage(0, 0, 0) }

  function Respond<A>(g: Gathered, parseArgs: Bytes -> Option<A>): Response<A> {
    Response(if g.finish == "tool_calls" then ToolUse else EndTurn, g.content,
             CallsFrom(g.pending, 0, parseArgs), UsageOf(g))
  }

  // ----- what reassembly means, index by index

  /** The deltas of one index, in order. */
  function Of(ds: seq<ToolDelta>, i: int): seq<ToolDelta> {
    if ds == [] then [] else (if ds[0].index == i then [ds[0]] else []) + Of(ds[1..], i)
  }

  /** The last non-empty text, or the empty text. */
  function LastText(texts: seq<Bytes>): Bytes {
    if texts == [] then []
    else if texts[|texts| - 1] != [] then texts[|texts| - 1]
    else LastText(texts[..|texts| - 1])
  }

  function Joined(texts: seq<Bytes>): Bytes {
    if texts == [] then [] else Joined(texts[..|texts| - 1]) + texts[|texts| - 1]
  }

  function Ids(ds: seq<ToolDelta>): seq<Bytes> { seq(|ds|, k requires 0 <= k < |ds| => ds[k].id) }

  function Names(ds: seq<ToolDelta>): seq<Bytes> { seq(|ds|, k requires 0 <= k < |ds| => ds[k].name) }

  function ArgTexts(ds: seq<ToolDelta>): seq<Bytes> { seq(|ds|, k requires 0 <= k < |ds| => ds[k].args) }

  /** The call that the deltas of one index describe: last non-empty id and
      name, all argument fragments joined. */
  function Described(ds: seq<ToolDelta>): Pending {
    Pending(LastText(Ids(ds)), LastText(Names(ds)), Joined(ArgTexts(ds)))
  }

  lemma {:induction false} AddAllAppend(m: map<int, Pending>, ds: seq<ToolDelta>, d: ToolDelta)
    ensures AddAll(m, ds + [d]) == Add(AddAll(m, ds), d)
    decreases |ds|
  {
    if ds == [] {
      assert AddAll(m, [d]) == AddAll(Add(m, d), []);
      assert ds + [d] == [d];
    } else {
      assert (ds + [d])[1..] == ds[1..] + [d];
      AddAllAppend(Add(m, ds[0]), ds[1..], d);
    }
  }

  lemma {:induction false} OfConcat(a: seq<ToolDelta>, b: seq<ToolDelta>, i: int)
    ensures Of(a + b, i) == Of(a, i) + Of(b, i)
  {
    if a == [] {
      assert a + b == b && Of(a, i) + Of(b, i) == Of(b, i);
    } else {
      var head := if a[0].index == i then [a[0]] else [];
      assert (a + b)[1..] == a[1..] + b;
      OfConcat(a[1..], b, i);
      assert head + (Of(a[1..], i) + Of(b, i)) == head + Of(a[1..], i) + Of(b, i);
    }
  }

  lemma OfAppend(ds: seq<ToolDelta>, d: ToolDelta, i: int)
    ensures Of(ds + [d], i) == Of(ds, i) + (if d.index == i then [d] else [])
  {
    OfConcat(ds, [d], i);
    assert [d][1..] == [];
  }

  lemma DescribedAppend(ds: seq<ToolDelta>, d: ToolDelta)
    ensures var p := Described(ds);
            Described(ds + [d]) == Pending(Newer(p.id, d.id), Newer(p.name, d.name), p.args + d.args)
  {
    assert Ids(ds + [d]) == Ids(ds) + [d.id] && (Ids(ds) + [d.id])[..|ds|] == Ids(ds);
    assert Names(ds + [d]) == Names(ds) + [d.name] && (Names(ds) + [d.name])[..|ds|] == Names(ds);
    assert ArgTexts(ds + [d]) == ArgTexts(ds) + [d.args] && (ArgTexts(ds) + [d.args])[..|ds|] == ArgTexts(ds);
  }

  /** `m` holds, for each index seen, what its own deltas describe. */
  ghost predicate Describes(m: map<int, Pending>, ds: seq<ToolDelta>) {
    forall i :: (i in m <==> Of(ds, i) != []) && (i in m ==> m[i] == Described(Of(ds, i)))
  }

  lemma {:induction false} AddAllDescribes(ds: seq<ToolDelta>)
    ensures Describes(AddAll(map[], ds), ds)
    decreases |ds|
  {
    if ds != [] {
      var front, d := ds[..|ds| - 1], ds[|ds| - 1];
      assert ds == front + [d];
      AddAllDescribes(front);
      AddAllAppend(map[], front, d);
      var before, after := AddAll(map[], front), AddAll(map[], ds);
      DescribedAppend(Of(front, d.index), d);
      assert Described([]) == Pending([], [], []);
      forall i ensures (i in after <==> Of(ds, i) != []) && (i in after ==> after[i] == Described(Of(ds, i))) {
        OfAppend(front, d, i);
        assert i in before <==> Of(front, i) != [];
        if i != d.index {
          assert Of(ds, i) == Of(front, i);
        }
      }
    }
  }

  /** Two delta streams describe the same calls. */
  ghost predicate SamePerIndex(a: seq<ToolDelta>, b: seq<ToolDelta>) {
    forall i :: (Of(a, i) == [] <==> Of(b, i) == []) && Described(Of(a, i)) == Described(Of(b, i))
  }

  lemma SameCalls(a: seq<ToolDelta>, b: seq<ToolDelta>)
    requires SamePerIndex(a, b)
    ensures AddAll(map[], a) == AddAll(map[], b)
  {
    var m, n := AddAll(map[], a), AddAll(map[], b);
    AddAllDescribes(a);
    AddAllDescribes(b);
    forall i ensures i in m.Keys <==> i in n.Keys {
      assert i in m <==> Of(a, i) != [];
      assert i in n <==> Of(b, i) != [];
    }
    assert m.Keys == n.Keys;
    forall i | i in m ensures m[i] == n[i] {
      assert Described(Of(a, i)) == Described(Of(b, i));
    }
  }

  lemma OfInside(a: seq<ToolDelta>, m: seq<ToolDelta>, b: seq<ToolDelta>, i: int)
    ensures Of(a + m + b, i) == Of(a, i) + Of(m, i) + Of(b, i)
  {
    OfConcat(a + m, b, i);
    OfConcat(a, m, i);
  }

  lemma OfPair(x: ToolDelta, y: ToolDelta, i: int)
    ensures Of([x, y], i) == (if x.index == i then [x] else []) + (if y.index == i then [y] else [])
  {
    OfAppend([x], y, i);
    OfAppend([], x, i);
    assert [x] + [y] == [x, y] && [] + [x] == [x];
  }

  /** Neighbouring deltas of distinct indices may trade places. */
  lemma InterleavingIsIrrelevant(a: seq<ToolDelta>, x: ToolDelta, y: ToolDelta, b: seq<ToolDelta>)
    requires x.index != y.index
    ensures SamePerIndex(a + [x, y] + b, a + [y, x] + b)
  {
    forall i ensures Of(a + [x, y] + b, i) == Of(a + [y, x] + b, i) {
      TradePlaces(a, x, y, b, i);
    }
    SameParts(a + [x, y] + b, a + [y, x] + b);
  }

  lemma TradePlaces(a: seq<ToolDelta>, x: ToolDelta, y: ToolDelta, b: seq<ToolDelta>, i: int)
    requires x.index != y.index
    ensures Of(a + [x, y] + b, i) == Of(a + [y, x] + b, i)
  {
    OfInside(a, [x, y], b, i);
    OfInside(a, [y, x], b, i);
    OfPair(x, y, i);
    OfPair(y, x, i);
  }

  lemma SameParts(a: seq<ToolDelta>, b: seq<ToolDelta>)
    requires forall i :: Of(a, i) == Of(b, i)
    ensures SamePerIndex(a, b)
  {}

  /** An argument fragment may be cut in two anywhere; the second piece may
      leave out the id and the name. */
  lemma SplittingIsIrrelevant(a: seq<ToolDelta>, d: ToolDelta, u: Bytes, v: Bytes, b: seq<ToolDelta>)
    requires d.args == u + v
    ensures AddAll(map[], a + [d] + b) ==
            AddAll(map[], a + [d.(args := u), ToolDelta(d.index, [], [], v)] + b)
  {
    var d1, d2 := d.(args := u), ToolDelta(d.index, [], [], v);
    AddAllConcat(map[], a + [d], b);
    AddAllAppend(map[], a, d);
    AddAllConcat(map[], a + [d1, d2], b);
    AddAllAppend(map[], a + [d1], d2);
    AddAllAppend(map[], a, d1);
    assert a + [d1] + [d2] == a + [d1, d2];
    var m := AddAll(map[], a);
    var args := if d.index in m then m[d.index].args else [];
    assert args + u + v == args + (u + v);
    assert Add(m, d) == Add(Add(m, d1), d2);
  }

  lemma {:induction false} AddAllConcat(m: map<int, Pending>, a: seq<ToolDelta>, b: seq<ToolDelta>)
    ensures AddAll(m, a + b) == AddAll(AddAll(m, a), b)
    decreases |a|
  {
    if a == [] {
      assert a + b == b;
    } else {
      assert (a + b)[1..] == a[1..] + b;
      AddAllConcat(Add(m, a[0]), a[1..], b);
    }
  }

  // ----- chunks: only the concatenations matter

  function DeltasOf(cs: seq<Chunk>): seq<ToolDelta> {
    if cs == [] then [] else (if cs[0].choices == [] then [] else cs[0].choices[0].tools) + DeltasOf(cs[1..])
  }

  function ContentOf(c: Chunk): Bytes { if c.choices == [] then [] else c.choices[0].content }

  function TextOf(cs: seq<Chunk>): Bytes {
    if cs == [] then [] else ContentOf(cs[0]) + TextOf(cs[1..])
  }

  function FinishOf(cs: seq<Chunk>, start: Bytes): Bytes {
    if cs == [] then start
    else
      var finish := if cs[0].choices == [] then None else cs[0].choices[0].finish;
      FinishOf(cs[1..], if finish.Some? then finish.value else start)
  }

  function LastUsage(cs: seq<Chunk>, start: Option<Usage>): Option<Usage> {
    if cs == [] then start else LastUsage(cs[1..], if cs[0].usage.Some? then cs[0].usage else start)
  }

  function EventText(events: seq<Event>): Bytes {
    if events == [] then []
    else EventText(events[..|events| - 1]) + (match events[|events| - 1] case TextDelta(t) => t case _ => [])
  }

  lemma AbsorbTakesContent(g: Gathered, c: Chunk)
    ensures Absorb(g, c).content == g.content + ContentOf(c)
    ensures EventText(Absorb(g, c).events) == EventText(g.events) + ContentOf(c)
    ensures (forall e :: e in g.events ==> e.TextDelta?) ==> forall e :: e in Absorb(g, c).events ==> e.TextDelta?
  {
    var h := Absorb(g, c);
    if h.events != g.events {
      assert h.events[..|h.events| - 1] == g.events;
    }
  }

  lemma {:induction false} AbsorbAllParts(g: Gathered, cs: seq<Chunk>)
    ensures AbsorbAll(g, cs).content == g.content + TextOf(cs)
    ensures AbsorbAll(g, cs).finish == FinishOf(cs, g.finish)
    ensures AbsorbAll(g, cs).usage == LastUsage(cs, g.usage)
    decreases |cs|
  {
    if cs != [] {
      AbsorbTakesContent(g, cs[0]);
      AbsorbAllParts(Absorb(g, cs[0]), cs[1..]);
      Regroup(g.content, ContentOf(cs[0]), TextOf(cs[1..]));
    }
  }

  lemma {:induction false} AbsorbAllPending(g: Gathered, cs: seq<Chunk>)
    ensures AbsorbAll(g, cs).pending == AddAll(g.pending, DeltasOf(cs))
    decreases |cs|
  {
    if cs != [] {
      AbsorbAllPending(Absorb(g, cs[0]), cs[1..]);
      if cs[0].choices != [] {
        AddAllConcat(g.pending, cs[0].choices[0].tools, DeltasOf(cs[1..]));
      } else {
        assert [] + DeltasOf(cs[1..]) == DeltasOf(cs[1..]);
      }
    }
  }

  /** The text deltas handed to the callback join to the content. */
  lemma {:induction false} AbsorbAllEvents(g: Gathered, cs: seq<Chunk>)
    ensures EventText(AbsorbAll(g, cs).events) == EventText(g.events) + TextOf(cs)
    ensures (forall e :: e in g.events ==> e.TextDelta?) ==> forall e :: e in AbsorbAll(g, cs).events ==> e.TextDelta?
    decreases |cs|
  {
    if cs != [] {
      AbsorbTakesContent(g, cs[0]);
      AbsorbAllEvents(Absorb(g, cs[0]), cs[1..]);
      Regroup(EventText(g.events), ContentOf(cs[0]), TextOf(cs[1..]));
    }
  }

  /** Chunking independence: streams with the same text, finish reason, usage
      and, per index, the same described calls give the same response. */
  lemma ChunkingIsIrrelevant<A>(cs: seq<Chunk>, ds: seq<Chunk>, parseArgs: Bytes -> Option<A>)
    requires TextOf(cs) == TextOf(ds) && SamePerIndex(DeltasOf(cs), DeltasOf(ds))
    requires FinishOf(cs, []) == FinishOf(ds, []) && LastUsage(cs, None) == LastUsage(ds, None)
    ensures Respond(AbsorbAll(NOTHING, cs), parseArgs) == Respond(AbsorbAll(NOTHING, ds), parseArgs)
  {
    AbsorbAllParts(NOTHING, cs);
    AbsorbAllParts(NOTHING, ds);
    AbsorbAllPending(NOTHING, cs);
    AbsorbAllPending(NOTHING, ds);
    SameCalls(DeltasOf(cs), DeltasOf(ds));
  }

  // ----- which calls survive

  /** The indices that reach the response, in order. */
  function KeptFrom(keys: set<int>, n: nat, i: nat): seq<int>
    decreases n - i
  {
    if i >= n then [] else (if i in keys then [i as int] else []) + KeptFrom(keys, n, i + 1)
  }

  lemma {:induction false} CallsAreKept<A>(m: map<int, Pending>, i: nat, parseArgs: Bytes -> Option<A>)
    ensures var kept := KeptFrom(m.Keys, |m|, i);
            && |CallsFrom(m, i, parseArgs)| == |kept|
            && (forall k :: 0 <= k < |kept| ==>
                  kept[k] in m && CallsFrom(m, i, parseArgs)[k] == CallOf(m[kept[k]], parseArgs))
            && (forall k :: 0 <= k < |kept| - 1 ==> kept[k] < kept[k + 1])
            && (forall j :: j in kept <==> j in m && i <= j < |m|)
    decreases |m| - i
  {
    if i < |m| {
      CallsAreKept(m, i + 1, parseArgs);
    }
  }

  lemma {:induction false} BelowCount(keys: set<int>, n: nat)
    requires forall j :: j in keys ==> 0 <= j < n
    ensures |keys| <= n
    ensures |keys| == n ==> forall j :: 0 <= j < n ==> j in keys
  {
    if n == 0 {
      assert forall j :: j !in keys;
    } else {
      var smaller := keys - {n - 1};
      BelowCount(smaller, n - 1);
      assert keys == smaller + (if n - 1 in keys then {n - 1 as int} else {});
    }
  }

  lemma SubsetOfSameSize(a: set<int>, b: set<int>)
    requires a <= b
    ensures |a| <= |b| && (|a| == |b| ==> a == b)
  {
    assert b == a + (b - a);
  }

  /** A call reaches the response exactly when its index is below the number
      of distinct indices; none is lost exactly when the indices are 0..n-1. */
  lemma CallSurvives<A>(m: map<int, Pending>, parseArgs: Bytes -> Option<A>)
    ensures forall j :: j in KeptFrom(m.Keys, |m|, 0) <==> j in m && 0 <= j < |m|
    ensures |CallsFrom(m, 0, parseArgs)| == |m| <==> forall j :: j in m <==> 0 <= j < |m|
  {
    CallsAreKept(m, 0, parseArgs);
    KeptCount(m.Keys, |m|, 0);
    var held := set j | j in m.Keys && 0 <= j < |m|;
    SubsetOfSameSize(held, m.Keys);
    if held == m.Keys {
      BelowCount(m.Keys, |m|);
    } else {
      var j :| j in m.Keys && j !in held;
      assert !(0 <= j < |m|);
    }
  }

  lemma {:induction false} KeptCount(keys: set<int>, n: nat, i: nat)
    ensures |KeptFrom(keys, n, i)| == |set j | j in keys && i <= j < n|
    decreases n - i
  {
    var here := set j | j in keys && i <= j < n;
    if i < n {
      KeptCount(keys, n, i + 1);
      var later := set j | j in keys && i + 1 <= j < n;
      assert here == later + (if i in keys then {i as int} else {});
    } else {
      assert here == {};
    }
  }
}
