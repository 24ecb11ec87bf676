/** The request handler: it checks a request taken from Redis, routes it to lite or pro mode,
    and publishes the answer on the chat's response channel as a sequence of messages, each
    with `done: false`, closed by one message with `done: true`. */
module RequestHandler {
  import opened Values
  import opened Text
  import opened TokenQueue
  import opened Broker
  import LiteHarness

  const MissingFields := "Missing chatId or question"

  /** Every message about a chat goes to this channel. */
  function ResponseChannel(chatId: Value): string {
    "aiml:responses:" + ToStr(chatId)
  }

  /** Where a request goes: rejected for a missing field, failed with the text of an exception
      raised while it is checked, or on to one of the two modes with the crew's inputs. */
  datatype Route =
    | Rejected(chatId: Value)
    | Failed(chatId: Value, error: string)
    | LiteRoute(chatId: Value, inputs: map<string, string>)
    | ProRoute(chatId: Value, inputs: map<string, string>)

  function Inputs(question: string, year: Value): map<string, string> {
    map["topic" := question, "current_year" := ToStr(year)]
  }

  /** `process_aiml_request` up to the call of a mode. A question that is not a string fails
      where it is sliced for the log line, and a mode that is not a string where it is
      lower-cased; both raise inside the handler's guard. */
  function RouteRequest(request: map<string, Value>): (r: Route)
    ensures r.chatId == Get(request, "chatId")
    ensures r.Rejected? <==> !Truthy(Get(request, "chatId")) || !Truthy(Get(request, "question"))
    ensures r.LiteRoute? || r.ProRoute? ==>
      Get(request, "question").Str? &&
      r.inputs == Inputs(Get(request, "question").s, GetOr(request, "current_year", Int(2026)))
    ensures r.LiteRoute? <==>
      !r.Rejected? && Get(request, "question").Str? && GetOr(request, "mode", Str("lite")).Str? &&
      Lower(GetOr(request, "mode", Str("lite")).s) == "lite"
    ensures r.ProRoute? <==>
      !r.Rejected? && Get(request, "question").Str? && GetOr(request, "mode", Str("lite")).Str? &&
      Lower(GetOr(request, "mode", Str("lite")).s) != "lite"
    ensures r.Failed? <==>
      !r.Rejected? && (!Get(request, "question").Str? || !GetOr(request, "mode", Str("lite")).Str?)
    // The question is sliced for logging before the mode is lowered, so a bad question is
    // reported first.
    ensures r.Failed? && !Get(request, "question").Str? ==>
      r.error == "'" + TypeName(Get(request, "question")) + "' object is not subscriptable"
    ensures r.Failed? && Get(request, "question").Str? ==>
      r.error == "'" + TypeName(GetOr(request, "mode", Str("lite"))) + "' object has no attribute 'lower'"
  {
    var chatId := Get(request, "chatId");
    var question := Get(request, "question");
    var mode := GetOr(request, "mode", Str("lite"));
    var year := GetOr(request, "current_year", Int(2026));
    if !Truthy(chatId) || !Truthy(question) then Rejected(chatId)
    else if !question.Str? then Failed(chatId, "'" + TypeName(question) + "' object is not subscriptable")
    else if !mode.Str? then Failed(chatId, "'" + TypeName(mode) + "' object has no attribute 'lower'")
    else if Lower(mode.s) == "lite" then LiteRoute(chatId, Inputs(question.s, year))
    else ProRoute(chatId, Inputs(question.s, year))
  }

  /** The mode is compared without regard to ASCII case: two spellings that lower-case alike
      route a request the same way. */
  lemma RouteIgnoresCase(request: map<string, Value>, m1: string, m2: string)
    requires Lower(m1) == Lower(m2)
    ensures RouteRequest(request["mode" := Str(m1)]) == RouteRequest(request["mode" := Str(m2)])
  {
    assert Get(request["mode" := Str(m1)], "chatId") == Get(request["mode" := Str(m2)], "chatId");
    assert Get(request["mode" := Str(m1)], "question") == Get(request["mode" := Str(m2)], "question");
    assert GetOr(request["mode" := Str(m1)], "current_year", Int(2026)) ==
      GetOr(request["mode" := Str(m2)], "current_year", Int(2026));
  }

  /** Without a `current_year`, the crew's inputs carry the year as the text `2026`. */
  lemma DefaultYearInput(request: map<string, Value>)
    requires "current_year" !in request
    requires RouteRequest(request).LiteRoute? || RouteRequest(request).ProRoute?
    ensures RouteRequest(request).inputs["current_year"] == "2026"
  {
    DefaultYearText();
  }

  /** A well-formed request without a mode goes to lite mode, and one whose mode is `LITE`
      does too; a mode such as `pro` goes to pro mode. */
  lemma DefaultAndSpelledModes(request: map<string, Value>)
    requires Truthy(Get(request, "chatId")) && Get(request, "question").Str? && Get(request, "question").s != ""
    ensures "mode" !in request ==> RouteRequest(request).LiteRoute?
    ensures RouteRequest(request["mode" := Str("LITE")]).LiteRoute?
    ensures RouteRequest(request["mode" := Str("pro")]).ProRoute?
  {
    RouteIgnoresCase(request, "LITE", "lite");
    assert Lower("pro") != "lite" by {
      assert Lower("pro")[0] == 'p';
    }
  }

  function Done(chatId: Value): Message {
    Message(chatId, "", true, None)
  }

  function ErrorMessage(chatId: Value, error: string): Message {
    Message(chatId, "", true, Some(error))
  }

  function TokenMessages(chatId: Value, texts: seq<string>): (r: seq<Message>)
    ensures |r| == |texts|
    ensures forall i :: 0 <= i < |texts| ==> r[i] == Message(chatId, texts[i], false, None)
  {
    seq(|texts|, i requires 0 <= i < |texts| => Message(chatId, texts[i], false, None))
  }

  /** What lite mode publishes for the items the producer put: one message per text read
      before the first end marker, then the closing message. */
  function LiteMessages(chatId: Value, items: seq<Item>): seq<Message> {
    TokenMessages(chatId, Stream(items)) + [Done(chatId)]
  }

  /** What running the crew gives: its raw answer, or the text of the exception it raised. */
  datatype CrewOutcome = Finished(raw: string) | CrewFailed(error: string)

  type Crew = map<string, string> -> CrewOutcome

  function ProMessages(chatId: Value, outcome: CrewOutcome): seq<Message> {
    match outcome
    case Finished(raw) => [Message(chatId, raw, false, None), Done(chatId)]
    case CrewFailed(e) => [ErrorMessage(chatId, e)]
  }

  /** Every message published for `request`. */
  function Reply(request: map<string, Value>, env: LiteHarness.Environment, crew: Crew): seq<Message>
    requires |env.tools| == |LiteHarness.ToolNames|
  {
    match RouteRequest(request)
    case Rejected(c) => [ErrorMessage(c, MissingFields)]
    case Failed(c, e) => [ErrorMessage(c, e)]
    case LiteRoute(c, inputs) => LiteMessages(c, LiteHarness.LiteTrace(inputs, env))
    case ProRoute(c, inputs) => ProMessages(c, crew(inputs))
  }

  function Publications(channel: string, ms: seq<Message>): (r: seq<Publication>)
    ensures |r| == |ms|
    ensures forall i :: 0 <= i < |ms| ==> r[i] == Publication(channel, ms[i])
  {
    seq(|ms|, i requires 0 <= i < |ms| => Publication(channel, ms[i]))
  }

  lemma PublicationsAppend(channel: string, a: seq<Message>, b: seq<Message>)
    ensures Publications(channel, a + b) == Publications(channel, a) + Publications(channel, b)
  {
  }

  /** The publications of the token messages of `texts`, built up one text at a time as the
      consumer loop publishes them. */
  function TokenLog(channel: string, chatId: Value, texts: seq<string>): seq<Publication>
    decreases |texts|
  {
    if texts == [] then []
    else TokenLog(channel, chatId, texts[..|texts| - 1]) + [Publication(channel, Message(chatId, texts[|texts| - 1], false, None))]
  }

  /** Built up one text at a time, the log is the publications of the token messages. */
  lemma {:induction false} TokenLogPublishes(channel: string, chatId: Value, texts: seq<string>)
    ensures TokenLog(channel, chatId, texts) == Publications(channel, TokenMessages(chatId, texts))
    decreases |texts|
  {
    if texts != [] {
      var init := texts[..|texts| - 1];
      TokenLogPublishes(channel, chatId, init);
      assert TokenMessages(chatId, texts) == TokenMessages(chatId, init) + [Message(chatId, texts[|texts| - 1], false, None)];
      PublicationsAppend(channel, TokenMessages(chatId, init), [Message(chatId, texts[|texts| - 1], false, None)]);
    }
  }

  /** One more token adds exactly its publication to the log. */
  lemma PublishedSnoc(log: seq<Publication>, channel: string, chatId: Value, texts: seq<string>, t: string)
    ensures (log + TokenLog(channel, chatId, texts)) + [Publication(channel, Message(chatId, t, false, None))] ==
      log + TokenLog(channel, chatId, texts + [t])
  {
    assert (texts + [t])[..|texts|] == texts;
  }

  /** The closing message after the tokens completes the log of the whole lite reply. */
  lemma PublishedClose(log: seq<Publication>, channel: string, chatId: Value, texts: seq<string>)
    ensures (log + TokenLog(channel, chatId, texts)) + [Publication(channel, Done(chatId))] ==
      log + Publications(channel, TokenMessages(chatId, texts) + [Done(chatId)])
  {
    TokenLogPublishes(channel, chatId, texts);
    PublicationsAppend(channel, TokenMessages(chatId, texts), [Done(chatId)]);
  }

  /** The protocol: at least one message; all but the last with `done: false` and no error;
      the last with `done: true` and an empty token; and an error only on a reply of one. */
  ghost predicate WellFormedReply(ms: seq<Message>) {
    |ms| >= 1 &&
    ms[|ms| - 1].done && ms[|ms| - 1].token == "" &&
    (forall i :: 0 <= i < |ms| - 1 ==> !ms[i].done && ms[i].error.None?) &&
    (ms[|ms| - 1].error.Some? ==> |ms| == 1)
  }

  /** Every request, whatever it holds and however its processing goes, gets a well-formed
      reply, all of it about the request's chat. */
  lemma ReplyWellFormed(request: map<string, Value>, env: LiteHarness.Environment, crew: Crew)
    requires |env.tools| == |LiteHarness.ToolNames|
    ensures WellFormedReply(Reply(request, env, crew))
    ensures forall i :: 0 <= i < |Reply(request, env, crew)| ==>
      Reply(request, env, crew)[i].chatId == Get(request, "chatId")
  {
    var r := RouteRequest(request);
    if r.LiteRoute? {
      LiteMessagesWellFormed(r.chatId, LiteHarness.LiteTrace(r.inputs, env));
    }
  }

  /** Whatever the producer put, the lite reply is well formed and about the given chat. */
  lemma LiteMessagesWellFormed(chatId: Value, items: seq<Item>)
    ensures WellFormedReply(LiteMessages(chatId, items))
    ensures forall i :: 0 <= i < |LiteMessages(chatId, items)| ==> LiteMessages(chatId, items)[i].chatId == chatId
  {
    var texts := Stream(items);
    var ms := LiteMessages(chatId, items);
    assert ms[|texts|] == Done(chatId);
    forall i | 0 <= i < |texts| ensures ms[i] == Message(chatId, texts[i], false, None) {
      assert ms[i] == TokenMessages(chatId, texts)[i];
    }
  }

  /** A request without a truthy `chatId` or `question` gets exactly one message, the error. */
  lemma MissingFieldsReply(request: map<string, Value>, env: LiteHarness.Environment, crew: Crew)
    requires |env.tools| == |LiteHarness.ToolNames|
    requires !Truthy(Get(request, "chatId")) || !Truthy(Get(request, "question"))
    ensures Reply(request, env, crew) == [Message(Get(request, "chatId"), "", true, Some(MissingFields))]
  {
  }

  /** In lite mode the LLM's tokens are published in order, and a failure of the LLM call is
      not reported in the `error` field: its text is published as one more token before the
      closing message. */
  lemma LiteReply(request: map<string, Value>, env: LiteHarness.Environment, crew: Crew)
    requires |env.tools| == |LiteHarness.ToolNames|
    requires RouteRequest(request).LiteRoute? && env.llmSetupError.None?
    ensures var inputs := RouteRequest(request).inputs;
      var outcome := env.llm(LiteHarness.LitePrompt(inputs, env), LiteHarness.HumanMessage(GetOr(inputs, "topic", "")));
      var texts := outcome.tokens + (if outcome.Raised? then [LiteHarness.ErrorLine(outcome.error)] else []);
      Reply(request, env, crew) == TokenMessages(Get(request, "chatId"), texts) + [Done(Get(request, "chatId"))]
    ensures forall i :: 0 <= i < |Reply(request, env, crew)| ==> Reply(request, env, crew)[i].error.None?
  {
    LiteHarness.LiteTraceStream(RouteRequest(request).inputs, env);
  }

  /** When the LLM cannot even be built, lite mode publishes the setup error as one token and
      then closes, like any other failure of the LLM. */
  lemma LiteSetupErrorReply(request: map<string, Value>, env: LiteHarness.Environment, crew: Crew)
    requires |env.tools| == |LiteHarness.ToolNames|
    requires RouteRequest(request).LiteRoute? && env.llmSetupError.Some?
    ensures var c := Get(request, "chatId");
      Reply(request, env, crew) ==
        [Message(c, LiteHarness.ErrorLine(env.llmSetupError.value), false, None), Done(c)]
  {
    LiteHarness.LiteTraceStream(RouteRequest(request).inputs, env);
  }

  /** Pro mode publishes the crew's answer and the closing message, or the one error message. */
  lemma ProReply(request: map<string, Value>, env: LiteHarness.Environment, crew: Crew)
    requires |env.tools| == |LiteHarness.ToolNames|
    requires RouteRequest(request).ProRoute?
    ensures var outcome := crew(RouteRequest(request).inputs);
      var c := Get(request, "chatId");
      (outcome.Finished? ==> Reply(request, env, crew) == [Message(c, outcome.raw, false, None), Done(c)]) &&
      (outcome.CrewFailed? ==> Reply(request, env, crew) == [Message(c, "", true, Some(outcome.error))])
  {
  }

  /** `process_lite_mode`: the producer fills a fresh queue, then the consumer takes items
      until the first end marker, publishing each text with `done: false` and then the closing
      message. */
  method ProcessLiteMode(chatId: Value, inputs: map<string, string>, channel: string, broker: Broker,
                         env: LiteHarness.Environment)
    requires broker.connected && |env.tools| == |LiteHarness.ToolNames|
    modifies broker
    ensures broker.connected
    ensures broker.log == old(broker.log) + Publications(channel, LiteMessages(chatId, LiteHarness.LiteTrace(inputs, env)))
  {
    var queue := new Queue();
    LiteHarness.RunLiteMode(inputs, queue, env);
    ghost var trace := LiteHarness.LiteTrace(inputs, env);
    assert queue.items == trace;
    LiteHarness.LiteTraceStream(inputs, env);
    assert trace[|trace| - 1] == Sentinel;
    Consume(chatId, channel, queue, broker);
    assert broker.log == old(broker.log) + Publications(channel, LiteMessages(chatId, trace));
  }

  /** The consumer loop: items are taken until the first end marker; each text is published
      with `done: false`, and the marker turns into the closing message. What follows the
      marker stays on the queue. */
  method Consume(chatId: Value, channel: string, queue: Queue, broker: Broker)
    requires broker.connected && Sentinel in queue.items
    modifies queue, broker
    ensures broker.connected
    ensures broker.log == old(broker.log) + Publications(channel, LiteMessages(chatId, old(queue.items)))
    ensures queue.items == old(queue.items)[FirstSentinel(old(queue.items)) + 1..]
  {
    ghost var trace, log0 := queue.items, broker.log;
    ghost var consumed: seq<string> := [];
    ghost var taken: nat := 0;
    while true
      invariant broker.connected
      invariant taken <= FirstSentinel(trace) && queue.items == trace[taken..]
      invariant Stream(trace) == consumed + Stream(queue.items)
      invariant broker.log == log0 + TokenLog(channel, chatId, consumed)
      decreases |queue.items|
    {
      ghost var before := queue.items;
      var item := queue.Get();
      assert before == [item] + queue.items;
      assert item == trace[taken] && queue.items == trace[taken + 1..];
      StreamStep(item, queue.items);
      if item.Sentinel? {
        assert taken == FirstSentinel(trace);
        assert consumed + [] == consumed;
        PublishedClose(log0, channel, chatId, consumed);
        broker.Publish(channel, Done(chatId));
        break;
      }
      PublishedSnoc(log0, channel, chatId, consumed, item.text);
      broker.Publish(channel, Message(chatId, item.text, false, None));
      Regroup(consumed, [item.text], Stream(queue.items));
      consumed := consumed + [item.text];
      taken := taken + 1;
    }
  }

  /** `process_pro_mode`: the crew runs once; its answer and the closing message are published,
      or, when it raises, one error message. */
  method ProcessProMode(chatId: Value, inputs: map<string, string>, channel: string, broker: Broker, crew: Crew)
    requires broker.connected
    modifies broker
    ensures broker.connected
    ensures broker.log == old(broker.log) + Publications(channel, ProMessages(chatId, crew(inputs)))
  {
    var outcome := crew(inputs);
    if outcome.CrewFailed? {
      broker.Publish(channel, ErrorMessage(chatId, outcome.error));
    } else {
      broker.Publish(channel, Message(chatId, outcome.raw, false, None));
      broker.Publish(channel, Done(chatId));
    }
  }

  /** `process_aiml_request`: every message goes to the chat's channel, and the messages are
      the reply computed for the request. */
  method ProcessAimlRequest(request: map<string, Value>, broker: Broker, env: LiteHarness.Environment, crew: Crew)
    requires broker.connected && |env.tools| == |LiteHarness.ToolNames|
    modifies broker
    ensures broker.connected
    ensures broker.log == old(broker.log) +
      Publications(ResponseChannel(Get(request, "chatId")), Reply(request, env, crew))
  {
    var route := RouteRequest(request);
    var channel := ResponseChannel(route.chatId);
    match route
    case Rejected(c) =>
      broker.Publish(channel, ErrorMessage(c, MissingFields));
    case Failed(c, e) =>
      broker.Publish(channel, ErrorMessage(c, e));
    case LiteRoute(c, inputs) =>
      ProcessLiteMode(c, inputs, channel, broker, env);
    case ProRoute(c, inputs) =>
      ProcessProMode(c, inputs, channel, broker, crew);
  }
}
