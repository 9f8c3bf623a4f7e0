/** The agentic tool loop: a bounded conversation with the model in which the
    calls of one turn run in parallel. */
module ToolLoop {
  import opened Common
  import opened Utf8
  import Llm
  import Registry
  import Truncation

  type ToolCall = Llm.ToolCall<Bytes, Bytes>

  type ToolResultContent = Llm.ToolResultContent<Bytes>

  type Message = Llm.Message<Bytes, Bytes>

  datatype ToolResult = ToolResult(output: Bytes, error: bool)

  datatype Response = Response(content: Bytes, toolCalls: seq<ToolCall>)

  /** What a run meets: the model's answer to its k-th conversation, the hook's
      refusal of the j-th call of a turn, what the tool of that call returns, and
      whether the context is cancelled after the turn. */
  datatype World = World(
    answer: (nat, seq<Message>) -> Option<Response>,
    denial: (nat, nat, ToolCall) -> Option<Bytes>,
    outcome: (nat, nat, ToolCall) -> ToolResult,
    cancelled: nat -> bool)

  datatype Config = Config(maxIterations: int, maxResultBytes: int)

  datatype LoopError = ModelFailed | Cancelled | MaxIterations

  type Tools = map<string, Registry.Tool>

  /** The call is neither denied nor unknown. */
  predicate Runs(w: World, offered: Tools, k: nat, j: nat, call: ToolCall) {
    w.denial(k, j, call) == None && call.name in offered
  }

  function ResultOf(w: World, offered: Tools, k: nat, j: nat, call: ToolCall): ToolResult {
    match w.denial(k, j, call)
    case Some(reason) => ToolResult("Tool call denied: " + reason, true)
    case None => if call.name in offered then w.outcome(k, j, call) else ToolResult("Unknown tool: " + call.name, true)
  }

  function Slot(w: World, offered: Tools, c: Config, k: nat, j: nat, call: ToolCall): ToolResultContent {
    var result := ResultOf(w, offered, k, j, call);
    Llm.ToolResultContent(call.id, Truncation.TruncateResult(result.output, c.maxResultBytes), result.error)
  }

  function Asking(r: Response): Message { Llm.Message("assistant", r.content, r.toolCalls, []) }

  function Answering(results: seq<ToolResultContent>): Message { Llm.Message("tool", "", [], results) }

  // ----- one turn

  predicate InRange(order: seq<nat>, n: nat) { forall i :: 0 <= i < |order| ==> order[i] < n }

  /** An order in which `n` goroutines finish: each of them once. */
  ghost predicate Complete(order: seq<nat>, n: nat) {
    && InRange(order, n)
    && (forall j: nat :: j < n ==> j in order)
    && (forall i, j :: 0 <= i < j < |order| ==> order[i] != order[j])
  }

  /** The result slots after the goroutines in `order` have written theirs. */
  function Written(w: World, offered: Tools, c: Config, k: nat, calls: seq<ToolCall>, order: seq<nat>)
      : (slots: seq<Option<ToolResultContent>>)
    requires InRange(order, |calls|)
    ensures |slots| == |calls|
  {
    if order == [] then seq(|calls|, _ => None)
    else
      var j := order[|order| - 1];
      Written(w, offered, c, k, calls, order[..|order| - 1])[j := Some(Slot(w, offered, c, k, j, calls[j]))]
  }

  /** A slot depends on whether its goroutine has finished, not on when. */
  lemma {:induction false} WrittenAt(w: World, offered: Tools, c: Config, k: nat, calls: seq<ToolCall>, order: seq<nat>,
      j: nat)
    requires InRange(order, |calls|) && j < |calls|
    ensures Written(w, offered, c, k, calls, order)[j]
            == if j in order then Some(Slot(w, offered, c, k, j, calls[j])) else None
  {
    if order != [] {
      var front := order[..|order| - 1];
      WrittenAt(w, offered, c, k, calls, front, j);
      assert order == front + [order[|order| - 1]];
    }
  }

  /** Any two completion orders leave the same slots, each with its own result. */
  lemma OrdersAgree(w: World, offered: Tools, c: Config, k: nat, calls: seq<ToolCall>, a: seq<nat>, b: seq<nat>)
    requires Complete(a, |calls|) && Complete(b, |calls|)
    ensures Written(w, offered, c, k, calls, a) == Written(w, offered, c, k, calls, b)
  {
    forall j: nat | j < |calls|
      ensures Written(w, offered, c, k, calls, a)[j] == Written(w, offered, c, k, calls, b)[j]
    {
      WrittenAt(w, offered, c, k, calls, a, j);
      WrittenAt(w, offered, c, k, calls, b, j);
    }
  }

  /** The conversation after a turn whose calls finished in `order`. */
  ghost predicate IsTurn(w: World, offered: Tools, c: Config, k: nat, before: seq<Message>, order: seq<nat>,
      after: seq<Message>)
  {
    var answer := w.answer(k, before);
    && answer.Some? && answer.value.toolCalls != [] && Complete(order, |answer.value.toolCalls|)
    && exists results ::
         && IsCollected(Written(w, offered, c, k, answer.value.toolCalls, order), results)
         && after == before + [Asking(answer.value), Answering(results)]
  }

  ghost predicate IsCollected(slots: seq<Option<ToolResultContent>>, results: seq<ToolResultContent>) {
    |results| == |slots| && forall j :: 0 <= j < |slots| ==> slots[j] == Some(results[j])
  }

  method ExecuteTool(w: World, k: nat, j: nat, registry: Registry.Registry, call: ToolCall)
      returns (result: ToolResult, ran: bool)
    ensures result == ResultOf(w, registry.Offered(), k, j, call)
    ensures ran == Runs(w, registry.Offered(), k, j, call)
  {
    match w.denial(k, j, call) {
      case Some(reason) => return ToolResult("Tool call denied: " + reason, true), false;
      case None =>
    }
    var tool := registry.Get(call.name);
    if tool == None {
      return ToolResult("Unknown tool: " + call.name, true), false;
    }
    return w.outcome(k, j, call), true;
  }

  ghost predicate RanIn(w: World, offered: Tools, k: nat, calls: seq<ToolCall>, ran: set<nat>) {
    forall j :: j in ran <==> 0 <= j < |calls| && Runs(w, offered, k, j, calls[j])
  }

  /** The goroutines in `order` have finished and those in `running` have not. */
  ghost predicate Underway(order: seq<nat>, running: set<nat>, n: nat) {
    && InRange(order, n)
    && (forall i, j :: 0 <= i < j < |order| ==> order[i] != order[j])
    && (forall j: nat :: j in running <==> j < n && j !in order)
  }

  lemma OneFinishes(w: World, offered: Tools, c: Config, k: nat, calls: seq<ToolCall>, order: seq<nat>,
      running: set<nat>, j: nat)
    requires Underway(order, running, |calls|) && j in running
    ensures Underway(order + [j], running - {j}, |calls|)
    ensures Written(w, offered, c, k, calls, order + [j])
            == Written(w, offered, c, k, calls, order)[j := Some(Slot(w, offered, c, k, j, calls[j]))]
  {
    assert (order + [j])[..|order|] == order;
  }

  lemma AllWritten(w: World, offered: Tools, c: Config, k: nat, calls: seq<ToolCall>, order: seq<nat>)
    requires Complete(order, |calls|)
    ensures forall j: nat :: j < |calls| ==> Written(w, offered, c, k, calls, order)[j].Some?
  {
    forall j: nat | j < |calls| ensures Written(w, offered, c, k, calls, order)[j].Some? {
      WrittenAt(w, offered, c, k, calls, order, j);
    }
  }

  /** The parallel calls of one turn: they finish in an arbitrary order, each
      writing its own slot. */
  method RunCalls(w: World, k: nat, registry: Registry.Registry, c: Config, calls: seq<ToolCall>)
      returns (results: seq<ToolResultContent>, ran: set<nat>, ghost order: seq<nat>)
    ensures Complete(order, |calls|)
    ensures IsCollected(Written(w, registry.Offered(), c, k, calls, order), results)
    ensures RanIn(w, registry.Offered(), k, calls, ran)
  {
    ghost var offered := registry.Offered();
    var slots := new Option<ToolResultContent>[|calls|](_ => None);
    var running: set<nat> := {};
    for i := 0 to |calls|
      invariant forall j :: j in running <==> 0 <= j < i
    {
      running := running + {i};
    }
    ran, order := {}, [];
    while running != {}
      invariant Underway(order, running, |calls|)
      invariant slots[..] == Written(w, offered, c, k, calls, order)
      invariant forall j :: j in ran <==> 0 <= j < |calls| && j !in running && Runs(w, offered, k, j, calls[j])
      decreases running
    {
      var j :| j in running;
      var result, executed := ExecuteTool(w, k, j, registry, calls[j]);
      var output := Truncation.TruncateResult(result.output, c.maxResultBytes);
      slots[j] := Some(Llm.ToolResultContent(calls[j].id, output, result.error));
      OneFinishes(w, offered, c, k, calls, order, running, j);
      order, running := order + [j], running - {j};
      if executed {
        ran := ran + {j};
      }
    }
    AllWritten(w, offered, c, k, calls, order);
    ghost var written := slots[..];
    assert forall j :: 0 <= j < |calls| ==> slots[j] == written[j];
    results := seq(|calls|, j requires 0 <= j < |calls| && slots[j].Some? reads slots => slots[j].value);
  }

  // ----- the loop

  /** The first conversation is the initial one and each further one is that after
      a turn that was not cancelled. */
  ghost predicate Converses(w: World, offered: Tools, c: Config, initial: seq<Message>, asked: seq<seq<Message>>,
      orders: seq<seq<nat>>)
  {
    && (asked != [] ==> asked[0] == initial)
    && |asked| <= |orders| + 1
    && forall k: nat :: k + 1 < |asked| ==>
         IsTurn(w, offered, c, k, asked[k], orders[k], asked[k + 1]) && !w.cancelled(k)
  }

  /** How a run comes out that has made these model calls and turns. */
  ghost predicate EndsWith(w: World, c: Config, asked: seq<seq<Message>>, orders: seq<seq<nat>>,
      outcome: Result<Bytes, LoopError>)
  {
    var n := |asked|;
    if n == 0 then orders == [] && c.maxIterations <= 0 && outcome == Failure(MaxIterations)
    else
      n <= c.maxIterations &&
      match w.answer(n - 1, asked[n - 1])
      case None => |orders| == n - 1 && outcome == Failure(ModelFailed)
      case Some(r) =>
        if r.toolCalls == [] then |orders| == n - 1 && outcome == Success(r.content)
        else
          && |orders| == n && Complete(orders[n - 1], |r.toolCalls|)
          && if w.cancelled(n - 1) then outcome == Failure(Cancelled)
             else n == c.maxIterations && outcome == Failure(MaxIterations)
  }

  /** A whole run: its conversations, the completion orders of its turns, its outcome. */
  ghost predicate IsLoop(w: World, offered: Tools, c: Config, initial: seq<Message>, asked: seq<seq<Message>>,
      orders: seq<seq<nat>>, outcome: Result<Bytes, LoopError>)
  {
    Converses(w, offered, c, initial, asked, orders) && EndsWith(w, c, asked, orders, outcome)
  }

  /** The recorded sets hold exactly the calls of each turn whose tool ran. */
  ghost predicate RanExactly(w: World, offered: Tools, asked: seq<seq<Message>>, executed: seq<set<nat>>) {
    && |executed| <= |asked|
    && forall k: nat :: k < |executed| ==>
         var answer := w.answer(k, asked[k]);
         answer.Some? && RanIn(w, offered, k, answer.value.toolCalls, executed[k])
  }

  lemma RanOneMore(w: World, offered: Tools, asked: seq<seq<Message>>, more: seq<Message>, executed: seq<set<nat>>,
      ran: set<nat>)
    requires RanExactly(w, offered, asked, executed) && |executed| == |asked|
    ensures RanExactly(w, offered, asked + [more], executed)
    ensures var answer := w.answer(|asked|, more);
            answer.Some? && RanIn(w, offered, |asked|, answer.value.toolCalls, ran) ==>
              RanExactly(w, offered, asked + [more], executed + [ran])
  {}

  /** The state of the loop before its next model call. */
  ghost predicate Before(w: World, offered: Tools, c: Config, initial: seq<Message>, asked: seq<seq<Message>>,
      orders: seq<seq<nat>>, messages: seq<Message>)
  {
    |orders| == |asked| && Converses(w, offered, c, initial, asked + [messages], orders)
  }

  lemma AfterTurn(w: World, offered: Tools, c: Config, initial: seq<Message>, asked: seq<seq<Message>>,
      orders: seq<seq<nat>>, messages: seq<Message>, order: seq<nat>, after: seq<Message>)
    requires Before(w, offered, c, initial, asked, orders, messages)
    requires IsTurn(w, offered, c, |asked|, messages, order, after) && !w.cancelled(|asked|)
    ensures Before(w, offered, c, initial, asked + [messages], orders + [order], after)
  {
    var more, next, orders' := asked + [messages], asked + [messages] + [after], orders + [order];
    forall k: nat | k + 1 < |next|
      ensures IsTurn(w, offered, c, k, next[k], orders'[k], next[k + 1]) && !w.cancelled(k)
    {
      if k + 1 < |more| {
        assert next[k] == more[k] && next[k + 1] == more[k + 1] && orders'[k] == orders[k];
      }
    }
  }

  /** The last model call so far asked for tools, and they all finished. */
  ghost predicate Turned(w: World, asked: seq<seq<Message>>, orders: seq<seq<nat>>) {
    && |asked| == |orders| > 0
    && var n := |asked| - 1;
       var answer := w.answer(n, asked[n]);
       answer.Some? && answer.value.toolCalls != [] && Complete(orders[n], |answer.value.toolCalls|) && !w.cancelled(n)
  }

  /** The exits in the middle of an iteration. */
  lemma Exits(w: World, offered: Tools, c: Config, initial: seq<Message>, asked: seq<seq<Message>>,
      orders: seq<seq<nat>>, messages: seq<Message>, order: seq<nat>)
    requires Before(w, offered, c, initial, asked, orders, messages) && |asked| < c.maxIterations
    ensures var answer := w.answer(|asked|, messages);
            var more := asked + [messages];
            && (answer == None ==> IsLoop(w, offered, c, initial, more, orders, Failure(ModelFailed)))
            && (answer.Some? && answer.value.toolCalls == [] ==>
                  IsLoop(w, offered, c, initial, more, orders, Success(answer.value.content)))
            && (answer.Some? && answer.value.toolCalls != [] && Complete(order, |answer.value.toolCalls|)
                && w.cancelled(|asked|) ==>
                  IsLoop(w, offered, c, initial, more, orders + [order], Failure(Cancelled)))
  {
    var more, orders' := asked + [messages], orders + [order];
    assert forall k: nat :: k + 1 < |more| ==> orders'[k] == orders[k];
    assert Converses(w, offered, c, initial, more, orders');
  }

  /** The exit when the iterations are used up. */
  lemma RunsOut(w: World, offered: Tools, c: Config, initial: seq<Message>, asked: seq<seq<Message>>,
      orders: seq<seq<nat>>, messages: seq<Message>)
    requires Before(w, offered, c, initial, asked, orders, messages) && |asked| == Max(0, c.maxIterations)
    requires asked != [] ==> Turned(w, asked, orders)
    ensures IsLoop(w, offered, c, initial, asked, orders, Failure(MaxIterations))
  {
    var more := asked + [messages];
    assert forall k :: 0 <= k < |asked| ==> more[k] == asked[k];
  }

  /** `asked` records the conversation of each model call, `orders` how the calls
      of each turn finished, `executed` those whose tool ran. */
  method RunToolLoop(w: World, initial: seq<Message>, registry: Registry.Registry, c: Config)
      returns (outcome: Result<Bytes, LoopError>, defs: seq<Registry.Tool>, asked: seq<seq<Message>>,
               executed: seq<set<nat>>, ghost orders: seq<seq<nat>>)
    requires registry.Valid()
    ensures Registry.Lists(defs, registry.Offered())
    ensures IsLoop(w, registry.Offered(), c, initial, asked, orders, outcome)
    ensures RanExactly(w, registry.Offered(), asked, executed) && |executed| == |orders|
  {
    defs := registry.Definitions();
    var messages := initial;
    asked, executed, orders := [], [], [];
    ghost var offered := registry.Offered();
    var i := 0;
    while i < c.maxIterations
      invariant 0 <= i <= Max(0, c.maxIterations) && |asked| == |orders| == |executed| == i
      invariant Before(w, offered, c, initial, asked, orders, messages)
      invariant RanExactly(w, offered, asked, executed)
      invariant i > 0 ==> Turned(w, asked, orders)
    {
      var answer := w.answer(i, messages);
      if answer == None {
        Exits(w, offered, c, initial, asked, orders, messages, []);
        RanOneMore(w, offered, asked, messages, executed, {});
        asked := asked + [messages];
        outcome := Failure(ModelFailed);
        return;
      }
      var resp := answer.value;
      if |resp.toolCalls| == 0 {
        Exits(w, offered, c, initial, asked, orders, messages, []);
        RanOneMore(w, offered, asked, messages, executed, {});
        asked := asked + [messages];
        outcome := Success(resp.content);
        return;
      }
      var results, ran, order := RunCalls(w, i, registry, c, resp.toolCalls);
      Exits(w, offered, c, initial, asked, orders, messages, order);
      RanOneMore(w, offered, asked, messages, executed, ran);
      var after := messages + [Asking(resp), Answering(results)];
      assert IsTurn(w, offered, c, i, messages, order, after);
      if w.cancelled(i) {
        asked, orders, executed := asked + [messages], orders + [order], executed + [ran];
        outcome := Failure(Cancelled);
        return;
      }
      AfterTurn(w, offered, c, initial, asked, orders, messages, order, after);
      asked, orders, executed := asked + [messages], orders + [order], executed + [ran];
      messages := after;
      i := i + 1;
    }
    RunsOut(w, offered, c, initial, asked, orders, messages);
    outcome := Failure(MaxIterations);
  }

  // ----- what the conversation looks like

  /** What the model is to see of a call: the tool's own output and error flag,
      the hook's reason or the unknown name as an error, cut to the limit. */
  ghost predicate IsOutcome(w: World, offered: Tools, c: Config, k: nat, j: nat, call: ToolCall,
      res: ToolResultContent)
  {
    var denial := w.denial(k, j, call);
    var text := if denial.Some? then "Tool call denied: " + denial.value
                else if call.name in offered then w.outcome(k, j, call).output
                else "Unknown tool: " + call.name;
    && res.toolUseID == call.id
    && (res.isError <==> denial.Some? || call.name !in offered || w.outcome(k, j, call).error)
    && (c.maxResultBytes <= 0 || |text| <= c.maxResultBytes ==> res.output == text)
    && (0 < c.maxResultBytes < |text| ==>
          exists kept: Bytes :: |kept| <= c.maxResultBytes && Valid(kept)
                                && res.output == kept + Truncation.Note(|kept|, |text|)
                                && (Valid(text) ==> kept <= text && |kept| >= c.maxResultBytes - 3))
  }

  lemma SlotIsOutcome(w: World, offered: Tools, c: Config, k: nat, j: nat, call: ToolCall)
    ensures IsOutcome(w, offered, c, k, j, call, Slot(w, offered, c, k, j, call))
  {
    Truncation.FittingIsKept(ResultOf(w, offered, k, j, call).output, c.maxResultBytes);
  }

  /** A turn adds exactly two messages: the assistant's calls, and a tool message
      whose i-th result is what the model is to see of the i-th call. */
  lemma TurnIsAPair(w: World, offered: Tools, c: Config, k: nat, before: seq<Message>, order: seq<nat>,
      after: seq<Message>) returns (r: Response, results: seq<ToolResultContent>)
    requires IsTurn(w, offered, c, k, before, order, after)
    ensures w.answer(k, before) == Some(r)
    ensures after == before + [Llm.Message("assistant", r.content, r.toolCalls, []),
                               Llm.Message("tool", "", [], results)]
    ensures |results| == |r.toolCalls|
    ensures forall j :: 0 <= j < |results| ==> IsOutcome(w, offered, c, k, j, r.toolCalls[j], results[j])
    ensures forall j :: 0 <= j < |results| ==>
              results[j].toolUseID == r.toolCalls[j].id && results[j] == Slot(w, offered, c, k, j, r.toolCalls[j])
  {
    r := w.answer(k, before).value;
    var slots := Written(w, offered, c, k, r.toolCalls, order);
    results :| IsCollected(slots, results) && after == before + [Asking(r), Answering(results)];
    forall j | 0 <= j < |results|
      ensures results[j] == Slot(w, offered, c, k, j, r.toolCalls[j])
              && IsOutcome(w, offered, c, k, j, r.toolCalls[j], results[j])
    {
      WrittenAt(w, offered, c, k, r.toolCalls, order, j);
      SlotIsOutcome(w, offered, c, k, j, r.toolCalls[j]);
    }
  }

  /** Each conversation extends the one before it by two messages. */
  ghost predicate Growing(asked: seq<seq<Message>>) {
    forall k: nat :: k + 1 < |asked| ==> |asked[k + 1]| == |asked[k]| + 2 && asked[k] <= asked[k + 1]
  }

  lemma {:induction false} GrowingExtends(asked: seq<seq<Message>>, k: nat, n: nat)
    requires Growing(asked) && k <= n < |asked|
    ensures |asked[n]| == |asked[k]| + 2 * (n - k) && asked[k] <= asked[n]
  {
    if k < n {
      GrowingExtends(asked, k, n - 1);
    }
  }

  /** The k-th model call sees the initial messages and k pairs, and every later
      conversation extends it. */
  lemma ConversationsGrow(w: World, offered: Tools, c: Config, initial: seq<Message>,
      asked: seq<seq<Message>>, orders: seq<seq<nat>>, k: nat, n: nat)
    requires Converses(w, offered, c, initial, asked, orders) && k <= n < |asked|
    ensures |asked[n]| == |initial| + 2 * n
    ensures asked[k] <= asked[n] && initial <= asked[n]
  {
    forall i: nat | i + 1 < |asked| ensures |asked[i + 1]| == |asked[i]| + 2 && asked[i] <= asked[i + 1] {
      TurnAt(w, offered, c, initial, asked, orders, i);
      var r, results := TurnIsAPair(w, offered, c, i, asked[i], orders[i], asked[i + 1]);
    }
    GrowingExtends(asked, k, n);
    GrowingExtends(asked, 0, n);
  }

  // ----- the schedule does not matter

  lemma TurnIsDetermined(w: World, offered: Tools, c: Config, k: nat, before: seq<Message>, a: seq<nat>, b: seq<nat>,
      after: seq<Message>, after': seq<Message>)
    requires IsTurn(w, offered, c, k, before, a, after) && IsTurn(w, offered, c, k, before, b, after')
    ensures after == after'
  {
    var r, results := TurnIsAPair(w, offered, c, k, before, a, after);
    var r', results' := TurnIsAPair(w, offered, c, k, before, b, after');
    assert results == results';
  }

  lemma TurnAt(w: World, offered: Tools, c: Config, initial: seq<Message>, asked: seq<seq<Message>>,
      orders: seq<seq<nat>>, k: nat)
    requires Converses(w, offered, c, initial, asked, orders) && k + 1 < |asked|
    ensures IsTurn(w, offered, c, k, asked[k], orders[k], asked[k + 1]) && !w.cancelled(k)
  {}

  lemma {:induction false} SameConversation(w: World, offered: Tools, c: Config, initial: seq<Message>,
      asked: seq<seq<Message>>, orders: seq<seq<nat>>, asked': seq<seq<Message>>, orders': seq<seq<nat>>, k: nat)
    requires Converses(w, offered, c, initial, asked, orders) && Converses(w, offered, c, initial, asked', orders')
    requires k < |asked| && k < |asked'|
    ensures asked[k] == asked'[k]
  {
    if k > 0 {
      SameConversation(w, offered, c, initial, asked, orders, asked', orders', k - 1);
      TurnAt(w, offered, c, initial, asked, orders, k - 1);
      TurnAt(w, offered, c, initial, asked', orders', k - 1);
      TurnIsDetermined(w, offered, c, k - 1, asked[k - 1], orders[k - 1], orders'[k - 1], asked[k], asked'[k]);
    }
  }

  /** The loop stops at the k-th model call exactly when the run ends there. */
  lemma NotLonger(w: World, offered: Tools, c: Config, initial: seq<Message>, asked: seq<seq<Message>>,
      orders: seq<seq<nat>>, outcome: Result<Bytes, LoopError>, asked': seq<seq<Message>>, orders': seq<seq<nat>>,
      outcome': Result<Bytes, LoopError>)
    requires IsLoop(w, offered, c, initial, asked, orders, outcome)
    requires IsLoop(w, offered, c, initial, asked', orders', outcome')
    ensures |asked'| <= |asked|
  {
    var n := |asked|;
    if 0 < n < |asked'| {
      TurnAt(w, offered, c, initial, asked', orders', n - 1);
      SameConversation(w, offered, c, initial, asked, orders, asked', orders', n - 1);
    }
  }

  /** Two runs in the same world make the same model calls with the same
      conversations and have the same outcome, in whatever orders the calls of
      their turns finish. */
  lemma ScheduleIsIrrelevant(w: World, offered: Tools, c: Config, initial: seq<Message>, asked: seq<seq<Message>>,
      orders: seq<seq<nat>>, outcome: Result<Bytes, LoopError>, asked': seq<seq<Message>>, orders': seq<seq<nat>>,
      outcome': Result<Bytes, LoopError>)
    requires IsLoop(w, offered, c, initial, asked, orders, outcome)
    requires IsLoop(w, offered, c, initial, asked', orders', outcome')
    ensures asked == asked' && outcome == outcome'
  {
    NotLonger(w, offered, c, initial, asked, orders, outcome, asked', orders', outcome');
    NotLonger(w, offered, c, initial, asked', orders', outcome', asked, orders, outcome);
    forall k | 0 <= k < |asked| ensures asked[k] == asked'[k] {
      SameConversation(w, offered, c, initial, asked, orders, asked', orders', k);
    }
  }

  /** A tool that ran was among the definitions the model was offered, and the
      hook had not denied it. */
  lemma RanWasOffered(w: World, offered: Tools, defs: seq<Registry.Tool>, asked: seq<seq<Message>>,
      executed: seq<set<nat>>, k: nat, j: nat)
    requires Registry.Lists(defs, offered) && (forall name :: name in offered ==> offered[name].name == name)
    requires RanExactly(w, offered, asked, executed) && k < |executed| && j in executed[k]
    ensures w.answer(k, asked[k]).Some? && j < |w.answer(k, asked[k]).value.toolCalls|
    ensures var call := w.answer(k, asked[k]).value.toolCalls[j];
            w.denial(k, j, call) == None && exists d :: d in defs && d.name == call.name
  {
    var call := w.answer(k, asked[k]).value.toolCalls[j];
    assert offered[call.name] in defs;
  }
}
