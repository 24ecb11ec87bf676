/** The callback handler `CustomTokenHandler`: every callback puts fixed, formatted strings on
    the token queue, and an LLM error also puts the end marker. Nothing is ever taken off or
    rewritten. The request path does not register this handler: pro mode starts the crew without
    callbacks. */
module StreamHandler {
  import opened Values
  import opened TokenQueue

  /** An agent's decision to call a tool: the tool's name, its input and the agent's log. */
  datatype AgentAction = AgentAction(tool: string, toolInput: string, log: string)

  /** What `on_agent_action` puts, in order. */
  function ActionLines(action: AgentAction): (r: seq<string>)
    ensures |r| == 3
    ensures "\n\nAgent Action: " <= r[0] && "Input: " <= r[1] && "Log: " <= r[2]
  {
    ["\n\nAgent Action: " + action.tool + "\n", "Input: " + action.toolInput + "\n", "Log: " + action.log + "\n"]
  }

  /** What `on_tool_start` puts: the tool's name (`None` when the description has none) and its
      input. */
  function ToolStartLines(serialized: map<string, Value>, inputStr: string): (r: seq<string>)
    ensures |r| == 2
    ensures "name" !in serialized ==> r[0] == "\nTool Start: None\n"
    ensures r[1] == "Input: " + inputStr + "\n"
  {
    ["\nTool Start: " + ToStr(Get(serialized, "name")) + "\n", "Input: " + inputStr + "\n"]
  }

  function ToolEndLine(output: string): string {
    "\nTool Output: " + output + "\n"
  }

  function ErrorLine(error: string): string {
    "Error: " + error + "\n"
  }

  class CustomTokenHandler {
    const queue: Queue

    constructor (queue: Queue)
      ensures this.queue == queue
    {
      this.queue := queue;
    }

    method OnLlmNewToken(token: string)
      modifies queue
      ensures queue.items == old(queue.items) + [Token(token)]
    {
      queue.Put(Token(token));
    }

    method OnAgentAction(action: AgentAction)
      modifies queue
      ensures queue.items == old(queue.items) + Tokens(ActionLines(action))
    {
      var lines := ActionLines(action);
      queue.Put(Token(lines[0]));
      queue.Put(Token(lines[1]));
      queue.Put(Token(lines[2]));
    }

    method OnToolStart(serialized: map<string, Value>, inputStr: string)
      modifies queue
      ensures queue.items == old(queue.items) + Tokens(ToolStartLines(serialized, inputStr))
    {
      var lines := ToolStartLines(serialized, inputStr);
      queue.Put(Token(lines[0]));
      queue.Put(Token(lines[1]));
    }

    method OnToolEnd(output: string)
      modifies queue
      ensures queue.items == old(queue.items) + [Token(ToolEndLine(output))]
    {
      queue.Put(Token(ToolEndLine(output)));
    }

    /** Several LLM calls may make up one answer, so the end of one does not end the stream. */
    method OnLlmEnd()
      ensures queue.items == old(queue.items)
    {
    }

    method OnChainEnd(outputs: map<string, Value>)
      ensures queue.items == old(queue.items)
    {
    }

    method OnLlmError(error: string)
      modifies queue
      ensures queue.items == old(queue.items) + [Token(ErrorLine(error)), Sentinel]
    {
      queue.Put(Token(ErrorLine(error)));
      queue.Put(Sentinel);
    }
  }

  /** A callback of this handler. */
  datatype Callback =
    | NewToken(token: string)
    | Action(action: AgentAction)
    | ToolStart(serialized: map<string, Value>, inputStr: string)
    | ToolEnd(output: string)
    | LlmEnd
    | ChainEnd(outputs: map<string, Value>)
    | LlmError(error: string)

  /** The items one callback puts. */
  function Emitted(c: Callback): (r: seq<Item>)
    ensures c.LlmEnd? || c.ChainEnd? <==> r == []
    ensures Sentinel in r <==> c.LlmError?
  {
    match c
    case NewToken(t) => [Token(t)]
    case Action(a) => Tokens(ActionLines(a))
    case ToolStart(s, i) => Tokens(ToolStartLines(s, i))
    case ToolEnd(o) => [Token(ToolEndLine(o))]
    case LlmEnd => []
    case ChainEnd(_) => []
    case LlmError(e) => [Token(ErrorLine(e)), Sentinel]
  }

  /** The items a run of callbacks puts, callback after callback. */
  function EmittedAll(cs: seq<Callback>): seq<Item>
    decreases |cs|
  {
    if cs == [] then [] else EmittedAll(cs[..|cs| - 1]) + Emitted(cs[|cs| - 1])
  }

  /** Callbacks only append: what a run puts begins with what any earlier part of the run put. */
  lemma EmittedAllExtends(cs: seq<Callback>, k: nat)
    requires k <= |cs|
    ensures EmittedAll(cs[..k]) <= EmittedAll(cs)
  {
    assert cs == cs[..k] + cs[k..];
    EmittedAllAppend(cs[..k], cs[k..]);
  }

  /** The items of two runs one after the other are the first run's followed by the second's. */
  lemma {:induction false} EmittedAllAppend(a: seq<Callback>, b: seq<Callback>)
    ensures EmittedAll(a + b) == EmittedAll(a) + EmittedAll(b)
    decreases |b|
  {
    if b == [] {
      assert a + b == a;
    } else {
      var n := |b| - 1;
      SnocPrefix(a, b);
      assert EmittedAll(a + b) == EmittedAll(a + b[..n]) + Emitted(b[n]);
      assert EmittedAll(b) == EmittedAll(b[..n]) + Emitted(b[n]);
      EmittedAllAppend(a, b[..n]);
      Regroup(EmittedAll(a), EmittedAll(b[..n]), Emitted(b[n]));
    }
  }

  /** Before the first LLM error no end marker is put. */
  lemma {:induction false} NoSentinelBefore(cs: seq<Callback>)
    requires forall j :: 0 <= j < |cs| ==> !cs[j].LlmError?
    ensures Sentinel !in EmittedAll(cs)
    decreases |cs|
  {
    if cs != [] {
      NoSentinelBefore(cs[..|cs| - 1]);
    }
  }

  /** Reading past a prefix without an end marker reads the prefix's texts first. */
  lemma {:induction false} StreamAppendTokens(a: seq<Item>, b: seq<Item>)
    requires Sentinel !in a
    ensures Stream(a + b) == Stream(a) + Stream(b)
    decreases |a|
  {
    if a == [] {
      assert a + b == b;
    } else {
      assert (a + b)[1..] == a[1..] + b;
      StreamAppendTokens(a[1..], b);
    }
  }

  /** The items of a run with one callback singled out. */
  lemma EmittedAround(a: seq<Callback>, c: Callback, b: seq<Callback>)
    ensures EmittedAll(a + [c] + b) == EmittedAll(a) + Emitted(c) + EmittedAll(b)
  {
    EmittedAllAppend(a + [c], b);
    assert (a + [c])[..|a|] == a;
  }

  /** A consumer reading a run's items stops at the first LLM error: everything the callbacks
      before it put is read, then that error's text, and nothing after. */
  lemma StreamStopsAtFirstError(cs: seq<Callback>, k: nat)
    requires k < |cs| && cs[k].LlmError?
    requires forall j :: 0 <= j < k ==> !cs[j].LlmError?
    ensures Stream(EmittedAll(cs)) == Stream(EmittedAll(cs[..k])) + [ErrorLine(cs[k].error)]
  {
    SplitAt(cs, k);
    StreamAroundError(cs[..k], cs[k], cs[k + 1..]);
  }

  lemma StreamAroundError(a: seq<Callback>, c: Callback, b: seq<Callback>)
    requires c.LlmError?
    requires forall j :: 0 <= j < |a| ==> !a[j].LlmError?
    ensures Stream(EmittedAll(a + [c] + b)) == Stream(EmittedAll(a)) + [ErrorLine(c.error)]
  {
    EmittedAround(a, c, b);
    var err := ErrorLine(c.error);
    assert Emitted(c) == [Token(err), Sentinel];
    NoSentinelBefore(a);
    SentinelAfter(EmittedAll(a), err, EmittedAll(b));
  }

  lemma SentinelAfter(before: seq<Item>, err: string, rest: seq<Item>)
    requires Sentinel !in before
    ensures Stream(before + [Token(err), Sentinel] + rest) == Stream(before) + [err]
  {
    assert before + [Token(err), Sentinel] + rest == before + ([Token(err), Sentinel] + rest);
    StreamAppendTokens(before, [Token(err), Sentinel] + rest);
    assert ([Token(err), Sentinel] + rest)[1..] == [Sentinel] + rest;
  }
}
