/** Lite mode of the tutor: the four retriever tools are asked in a fixed order, the useful
    answers become the context of a system prompt, and one streaming LLM call answers the
    question; the LLM's tokens, any error, and the final `None` go onto the token queue. */
module LiteHarness {
  import opened Values
  import opened Text
  import opened TokenQueue

  /** What running one tool gives: its answer, or the message of the exception it raised. */
  datatype Outcome = Ok(text: string) | Err(message: string)

  type Tool = string -> Outcome

  /** The tools, in the order they are asked. */
  const ToolNames: seq<string> := ["Year 4 Retriever", "Year 2 Retriever", "General Retriever 1", "General Retriever 2"]

  const PartSeparator := "\n---\n"
  const NoDocuments := "No specific documents found. Use your general knowledge."

  /** A tool answer is kept when it is non-empty and more than 50 characters remain after
      stripping white space. */
  predicate Useful(text: string) {
    text != "" && |Strip(text)| > 50
  }

  /** The emptiness test adds nothing: an answer is kept exactly when its stripped form is
      longer than 50 characters, and such an answer is itself longer than 50 characters. */
  lemma UsefulMeansLongStripped(text: string)
    ensures Useful(text) <==> |Strip(text)| > 50
    ensures Useful(text) ==> |text| > 50
  {
    var i, j := StripIsTrimmedInfix(text);
  }

  /** How a kept answer enters the context. */
  function Tagged(name: string, text: string): string {
    "From " + name + ":\n" + text + "\n"
  }

  /** Whether `tool.run` gave an answer that `keep` keeps; a tool that raised contributes
      nothing. */
  predicate KeptBy(keep: string -> bool, o: Outcome) {
    o.Ok? && keep(o.text)
  }

  /** The context parts collected from the outcomes of the named tools, in tool order, under
      the rule `keep` for which answers are kept. */
  function Collect(names: seq<string>, outcomes: seq<Outcome>, keep: string -> bool): seq<string>
    requires |names| == |outcomes|
    decreases |names|
  {
    if names == [] then []
    else
      var n := |names| - 1;
      Collect(names[..n], outcomes[..n], keep) +
        (if KeptBy(keep, outcomes[n]) then [Tagged(names[n], outcomes[n].text)] else [])
  }

  /** The parts `run_lite_mode` collects. */
  function KeptParts(names: seq<string>, outcomes: seq<Outcome>): seq<string>
    requires |names| == |outcomes|
  {
    Collect(names, outcomes, Useful)
  }

  /** One tool on its own contributes its tagged answer when that answer is kept, and nothing
      otherwise. */
  lemma CollectOne(name: string, o: Outcome, keep: string -> bool)
    ensures Collect([name], [o], keep) == if KeptBy(keep, o) then [Tagged(name, o.text)] else []
  {
    assert [name][..0] == [];
  }

  /** Tools contribute independently and in order: the parts for two runs of tools one after
      the other are the parts of the first run followed by those of the second. */
  lemma {:induction false} CollectAppend(n1: seq<string>, o1: seq<Outcome>, n2: seq<string>, o2: seq<Outcome>,
                                         keep: string -> bool)
    requires |n1| == |o1| && |n2| == |o2|
    ensures Collect(n1 + n2, o1 + o2, keep) == Collect(n1, o1, keep) + Collect(n2, o2, keep)
    decreases |n2|
  {
    if n2 == [] {
      assert n1 + n2 == n1 && o1 + o2 == o1;
    } else {
      var k := |n2| - 1;
      var m := |n1 + n2| - 1;
      assert (n1 + n2)[..m] == n1 + n2[..k];
      assert (o1 + o2)[..m] == o1 + o2[..k];
      assert (n1 + n2)[m] == n2[k] && (o1 + o2)[m] == o2[k];
      var last := if KeptBy(keep, o2[k]) then [Tagged(n2[k], o2[k].text)] else [];
      assert Collect(n1 + n2, o1 + o2, keep) == Collect(n1 + n2[..k], o1 + o2[..k], keep) + last;
      assert Collect(n2, o2, keep) == Collect(n2[..k], o2[..k], keep) + last;
      CollectAppend(n1, o1, n2[..k], o2[..k], keep);
      Regroup(Collect(n1, o1, keep), Collect(n2[..k], o2[..k], keep), last);
    }
  }

  /** A part is collected exactly when some tool's answer is kept and the part is that answer,
      tagged with that tool's name. */
  lemma {:induction false} CollectMembers(names: seq<string>, outcomes: seq<Outcome>, keep: string -> bool, p: string)
    requires |names| == |outcomes|
    ensures p in Collect(names, outcomes, keep) <==>
      exists i :: 0 <= i < |outcomes| && KeptBy(keep, outcomes[i]) && p == Tagged(names[i], outcomes[i].text)
    decreases |names|
  {
    if names != [] {
      var n := |names| - 1;
      var earlier := Collect(names[..n], outcomes[..n], keep);
      var last := if KeptBy(keep, outcomes[n]) then [Tagged(names[n], outcomes[n].text)] else [];
      assert Collect(names, outcomes, keep) == earlier + last;
      assert p in earlier + last <==> p in earlier || p in last;
      CollectMembers(names[..n], outcomes[..n], keep, p);
      if exists i :: 0 <= i < |outcomes| && KeptBy(keep, outcomes[i]) && p == Tagged(names[i], outcomes[i].text) {
        var i :| 0 <= i < |outcomes| && KeptBy(keep, outcomes[i]) && p == Tagged(names[i], outcomes[i].text);
        if i < n {
          assert outcomes[..n][i] == outcomes[i] && names[..n][i] == names[i];
        }
      }
      if p in Collect(names[..n], outcomes[..n], keep) {
        var i :| 0 <= i < n && KeptBy(keep, outcomes[..n][i]) && p == Tagged(names[..n][i], outcomes[..n][i].text);
        assert outcomes[..n][i] == outcomes[i] && names[..n][i] == names[i];
      }
    }
  }

  lemma TaggedStartsWithFrom(name: string, text: string)
    ensures |Tagged(name, text)| > 0 && Tagged(name, text)[0] == 'F'
  {
    assert Tagged(name, text) == "From " + (name + ":\n" + text + "\n");
  }

  /** Every collected part starts with `F`, the first letter of `From `. */
  lemma CollectTagged(names: seq<string>, outcomes: seq<Outcome>, keep: string -> bool)
    requires |names| == |outcomes|
    ensures forall p :: p in Collect(names, outcomes, keep) ==> |p| > 0 && p[0] == 'F'
  {
    forall p | p in Collect(names, outcomes, keep) ensures |p| > 0 && p[0] == 'F' {
      CollectMembers(names, outcomes, keep, p);
      var i :| 0 <= i < |outcomes| && KeptBy(keep, outcomes[i]) && p == Tagged(names[i], outcomes[i].text);
      TaggedStartsWithFrom(names[i], outcomes[i].text);
    }
  }

  /** There are parts exactly when some tool's answer is kept. */
  lemma CollectEmptyIff(names: seq<string>, outcomes: seq<Outcome>, keep: string -> bool)
    requires |names| == |outcomes|
    ensures Collect(names, outcomes, keep) == [] <==> forall i :: 0 <= i < |outcomes| ==> !KeptBy(keep, outcomes[i])
  {
    if exists i :: 0 <= i < |outcomes| && KeptBy(keep, outcomes[i]) {
      var i :| 0 <= i < |outcomes| && KeptBy(keep, outcomes[i]);
      CollectMembers(names, outcomes, keep, Tagged(names[i], outcomes[i].text));
    }
    if Collect(names, outcomes, keep) != [] {
      CollectMembers(names, outcomes, keep, Collect(names, outcomes, keep)[0]);
    }
  }

  /** `context`: the parts joined by `\n---\n`, or the fallback text when there are none. */
  function Context(parts: seq<string>): string {
    if parts == [] then NoDocuments else Join(PartSeparator, parts)
  }

  /** For parts that all start with `F`, the fallback is used exactly when there are no
      parts: a joined context starts with its first part, the fallback with `N`. */
  lemma ContextFallbackIff(parts: seq<string>)
    requires forall p :: p in parts ==> |p| > 0 && p[0] == 'F'
    ensures Context(parts) == NoDocuments <==> parts == []
  {
    if parts != [] {
      JoinAt(PartSeparator, parts, 0);
      var c := Join(PartSeparator, parts);
      assert parts[0] in parts;
      assert c[0..|parts[0]|] == parts[0];
      assert c[0] == parts[0][0];
      assert NoDocuments[0] == 'N';
    }
  }

  /** The fallback is used exactly when no tool answer was kept. */
  lemma ContextFallbackIffNothingKept(names: seq<string>, outcomes: seq<Outcome>, keep: string -> bool)
    requires |names| == |outcomes|
    ensures Context(Collect(names, outcomes, keep)) == NoDocuments <==>
      forall i :: 0 <= i < |outcomes| ==> !KeptBy(keep, outcomes[i])
  {
    CollectTagged(names, outcomes, keep);
    ContextFallbackIff(Collect(names, outcomes, keep));
    CollectEmptyIff(names, outcomes, keep);
  }

  /** The outcome of asking every tool the same query. */
  function Outcomes(query: string, tools: seq<Tool>): (r: seq<Outcome>)
    ensures |r| == |tools|
    ensures forall i :: 0 <= i < |tools| ==> r[i] == tools[i](query)
  {
    seq(|tools|, i requires 0 <= i < |tools| => tools[i](query))
  }

  /** The loop over the tools: each is asked the query in turn, an exception is swallowed and
      the loop goes on, and a useful answer is appended, tagged with the tool's name. */
  method CollectContext(query: string, tools: seq<Tool>) returns (parts: seq<string>)
    requires |tools| == |ToolNames|
    ensures parts == KeptParts(ToolNames, Outcomes(query, tools))
  {
    ghost var outcomes := Outcomes(query, tools);
    parts := [];
    var i := 0;
    while i < |tools|
      invariant 0 <= i <= |tools|
      invariant parts == KeptParts(ToolNames[..i], outcomes[..i])
    {
      var result := tools[i](query);
      assert ToolNames[..i + 1][..i] == ToolNames[..i];
      assert outcomes[..i + 1][..i] == outcomes[..i];
      if result.Ok? && Useful(result.text) {
        parts := parts + [Tagged(ToolNames[i], result.text)];
      }
      i := i + 1;
    }
    assert ToolNames[..i] == ToolNames;
    assert outcomes[..i] == outcomes;
  }

  /** What reading and parsing the agents file gives: the agents' settings, or a failure
      (missing or unreadable file, malformed YAML, a document that is not a mapping). */
  datatype ConfigFile = Unreadable | Parsed(agents: map<string, map<string, string>>)

  datatype Persona = Persona(role: string, goal: string, backstory: string)

  const PrimaryConfigPath := "src/teachers/config/agents.yaml"
  const FallbackConfigPath := "teachers/src/teachers/config/agents.yaml"

  /** The agents file read: the primary path when it exists, the fallback path otherwise. */
  function ConfigPath(primaryExists: bool): string {
    if primaryExists then PrimaryConfigPath else FallbackConfigPath
  }

  /** The tutor's settings from the agents file: each key present in the `tutor` entry is used
      as it is and each missing one takes its default; when the file cannot be used at all, a
      second, shorter set of defaults is used. */
  function TutorPersona(config: ConfigFile): (p: Persona)
    ensures config.Unreadable? ==> p == Persona("Tutor", "Help student", "Helpful AI")
    ensures config.Parsed? && "tutor" !in config.agents ==>
      p == Persona("Tutor", "Help the student.", "You are a helpful tutor.")
    ensures config.Parsed? && "tutor" in config.agents ==>
      var t := config.agents["tutor"];
      ("role" in t ==> p.role == t["role"]) && ("role" !in t ==> p.role == "Tutor") &&
      ("goal" in t ==> p.goal == t["goal"]) && ("goal" !in t ==> p.goal == "Help the student.") &&
      ("backstory" in t ==> p.backstory == t["backstory"]) &&
      ("backstory" !in t ==> p.backstory == "You are a helpful tutor.")
  {
    match config
    case Unreadable => Persona("Tutor", "Help student", "Helpful AI")
    case Parsed(agents) =>
      var t := GetOr(agents, "tutor", map[]);
      Persona(GetOr(t, "role", "Tutor"), GetOr(t, "goal", "Help the student."),
        GetOr(t, "backstory", "You are a helpful tutor."))
  }

  /** The part of the system prompt before the retrieved context. */
  function PromptHead(p: Persona, year: string): string {
    "You are a " + p.role + ".\nGoal: " + p.goal + "\nBackstory: " + p.backstory +
    "\n\nCurrent Year Context: " + year + "\n\nRETRIEVED INFORMATION:\n"
  }

  const PromptInstructions :=
    "\n\nInstructions:\n1. Use the retrieved information above as your PRIMARY source\n" +
    "2. If the retrieved info is incomplete, supplement with your knowledge\n" +
    "3. Be concise and accurate\n4. Format your answer clearly"

  function SystemPrompt(p: Persona, year: string, context: string): string {
    PromptHead(p, year) + context + PromptInstructions
  }

  /** The context sits verbatim between the fixed head, which names the role first, and the
      fixed instructions, which end the prompt. */
  lemma PromptEmbedsContext(p: Persona, year: string, context: string)
    ensures |PromptHead(p, year)| + |context| + |PromptInstructions| == |SystemPrompt(p, year, context)|
    ensures SystemPrompt(p, year, context)[..|PromptHead(p, year)|] == PromptHead(p, year)
    ensures SystemPrompt(p, year, context)[|PromptHead(p, year)|..|PromptHead(p, year)| + |context|] == context
    ensures SystemPrompt(p, year, context)[|PromptHead(p, year)| + |context|..] == PromptInstructions
    ensures SystemPrompt(p, year, context)[10..10 + |p.role|] == p.role
  {
    var s := SystemPrompt(p, year, context);
    var h := PromptHead(p, year);
    assert s == h + (context + PromptInstructions);
    SliceShift(h, context + PromptInstructions, 0, |context|);
    assert h[10..10 + |p.role|] == p.role;
  }

  function HumanMessage(query: string): string {
    "Question: " + query
  }

  /** The text put on the queue for an error. */
  function ErrorLine(error: string): string {
    "\n\U{274C} Error: " + error + "\n"
  }

  /** What the streaming LLM call does: it streams some tokens and then either returns or
      raises an error. */
  datatype Invocation = Completed(tokens: seq<string>) | Raised(tokens: seq<string>, error: string)

  /** Everything outside this module that lite mode depends on. */
  datatype Environment = Environment(
    primaryConfigExists: bool,
    readConfig: string -> ConfigFile,
    llmSetupError: Option<string>,
    tools: seq<Tool>,
    llm: (string, string) -> Invocation)

  /** The callback handler given to the LLM: it forwards each token to the queue, and on an
      error puts the error and then the end marker. */
  class QueueCallbackHandler {
    const queue: Queue

    constructor (queue: Queue)
      ensures this.queue == queue
    {
      this.queue := queue;
    }

    method OnLlmNewToken(token: string)
      modifies queue
      ensures queue.items == old(queue.items) + [Token(token)]
    {
      queue.Put(Token(token));
    }

    method OnLlmEnd()
      ensures queue.items == old(queue.items)
    {
    }

    method OnLlmError(error: string)
      modifies queue
      ensures queue.items == old(queue.items) + [Token(ErrorLine(error)), Sentinel]
    {
      queue.Put(Token(ErrorLine(error)));
      queue.Put(Sentinel);
    }
  }

  /** The system prompt lite mode sends for `inputs`. */
  function LitePrompt(inputs: map<string, string>, env: Environment): string
    requires |env.tools| == |ToolNames|
  {
    var persona := TutorPersona(env.readConfig(ConfigPath(env.primaryConfigExists)));
    var query := GetOr(inputs, "topic", "");
    var year := GetOr(inputs, "current_year", "2026");
    SystemPrompt(persona, year, Context(KeptParts(ToolNames, Outcomes(query, env.tools))))
  }

  /** What reaches the queue once the LLM is invoked: every streamed token, then the end
      marker. An LLM call that raises reaches the handler's error callback and then the guard
      around the whole run, so the error and the end marker are put twice. */
  function Answer(outcome: Invocation): seq<Item> {
    match outcome
    case Completed(tokens) => Tokens(tokens) + [Sentinel]
    case Raised(tokens, e) =>
      Tokens(tokens) + [Token(ErrorLine(e)), Sentinel] + [Token(ErrorLine(e)), Sentinel]
  }

  /** Everything `run_lite_mode` puts on the queue: on a failure while setting up the LLM, the
      error and the end marker; otherwise the answer to the prompt built from the context. */
  function LiteTrace(inputs: map<string, string>, env: Environment): seq<Item>
    requires |env.tools| == |ToolNames|
  {
    match env.llmSetupError
    case Some(e) => [Token(ErrorLine(e)), Sentinel]
    case None => Answer(env.llm(LitePrompt(inputs, env), HumanMessage(GetOr(inputs, "topic", ""))))
  }

  /** `run_lite_mode(inputs, queue)`. */
  method RunLiteMode(inputs: map<string, string>, queue: Queue, env: Environment)
    requires |env.tools| == |ToolNames|
    modifies queue
    ensures queue.items == old(queue.items) + LiteTrace(inputs, env)
  {
    var config := env.readConfig(ConfigPath(env.primaryConfigExists));
    var persona := TutorPersona(config);
    var handler := new QueueCallbackHandler(queue);
    if env.llmSetupError.Some? {
      queue.Put(Token(ErrorLine(env.llmSetupError.value)));
      queue.Put(Sentinel);
      return;
    }
    var query := GetOr(inputs, "topic", "");
    var year := GetOr(inputs, "current_year", "2026");
    var parts := CollectContext(query, env.tools);
    var prompt := SystemPrompt(persona, year, Context(parts));
    Relay(handler, env.llm(prompt, HumanMessage(query)));
  }

  /** The streaming LLM call driving the handler: each token goes to the token callback; a
      raised error goes to the error callback and then to the guard around the run, which puts
      the error and the end marker once more; a normal end puts the end marker. */
  method Relay(handler: QueueCallbackHandler, outcome: Invocation)
    modifies handler.queue
    ensures handler.queue.items == old(handler.queue.items) + Answer(outcome)
  {
    var queue := handler.queue;
    ghost var q0 := queue.items;
    var i := 0;
    while i < |outcome.tokens|
      invariant 0 <= i <= |outcome.tokens|
      invariant queue.items == q0 + Tokens(outcome.tokens[..i])
    {
      handler.OnLlmNewToken(outcome.tokens[i]);
      assert outcome.tokens[..i + 1] == outcome.tokens[..i] + [outcome.tokens[i]];
      TokensSnoc(outcome.tokens[..i], outcome.tokens[i]);
      Regroup(q0, Tokens(outcome.tokens[..i]), [Token(outcome.tokens[i])]);
      i := i + 1;
    }
    assert outcome.tokens[..i] == outcome.tokens;
    ghost var streamed := Tokens(outcome.tokens);
    if outcome.Raised? {
      var tail := [Token(ErrorLine(outcome.error)), Sentinel];
      handler.OnLlmError(outcome.error);
      Regroup(q0, streamed, tail);
      queue.Put(Token(ErrorLine(outcome.error)));
      queue.Put(Sentinel);
      assert queue.items == (q0 + (streamed + tail)) + tail;
      Regroup(q0, streamed + tail, tail);
    } else {
      handler.OnLlmEnd();
      queue.Put(Sentinel);
      Regroup(q0, streamed, [Sentinel]);
    }
  }

  /** The answer ends with the end marker, and a consumer reads the LLM's tokens in order,
      followed by the error text when the call failed, and nothing after that. */
  lemma AnswerStream(outcome: Invocation)
    ensures Answer(outcome) != [] && Answer(outcome)[|Answer(outcome)| - 1] == Sentinel
    ensures Stream(Answer(outcome)) ==
      outcome.tokens + (if outcome.Raised? then [ErrorLine(outcome.error)] else [])
  {
    if outcome.Raised? {
      var texts := outcome.tokens + [ErrorLine(outcome.error)];
      TokensSnoc(outcome.tokens, ErrorLine(outcome.error));
      assert Answer(outcome) == Tokens(texts) + [Sentinel] + [Token(ErrorLine(outcome.error)), Sentinel];
      StreamOfTokens(texts, [Token(ErrorLine(outcome.error)), Sentinel]);
    } else {
      assert Answer(outcome) == Tokens(outcome.tokens) + [Sentinel] + [];
      StreamOfTokens(outcome.tokens, []);
    }
  }

  /** On every path the run ends with the end marker, and a consumer reads the setup error, or
      the LLM's tokens followed by the error text when the call failed, and nothing after. */
  lemma LiteTraceStream(inputs: map<string, string>, env: Environment)
    requires |env.tools| == |ToolNames|
    ensures LiteTrace(inputs, env) != [] && LiteTrace(inputs, env)[|LiteTrace(inputs, env)| - 1] == Sentinel
    ensures env.llmSetupError.Some? ==>
      Stream(LiteTrace(inputs, env)) == [ErrorLine(env.llmSetupError.value)]
    ensures env.llmSetupError.None? ==>
      var outcome := env.llm(LitePrompt(inputs, env), HumanMessage(GetOr(inputs, "topic", "")));
      Stream(LiteTrace(inputs, env)) ==
        outcome.tokens + (if outcome.Raised? then [ErrorLine(outcome.error)] else [])
  {
    if env.llmSetupError.Some? {
      StreamOfTokens([ErrorLine(env.llmSetupError.value)], []);
    } else {
      AnswerStream(env.llm(LitePrompt(inputs, env), HumanMessage(GetOr(inputs, "topic", ""))));
    }
  }
}
