/** The tool-calling agent of local_agent.py: a bounded-retry wrapper around
    the chat-completion endpoint, the multi-round tool-calling loop of
    process_message with its repeated-call stall detection, and the
    diagnostics every failure is reported with.

    The endpoint is a finite script of replies that each call consumes; the
    requests sent, the back-off delays requested and the calls that reached
    the tool gateway are recorded in a World. The loops are first defined as
    functions on a World (Attempts, Round, Rounds, Turn), and the class
    LocalContentAgent runs them step by step and is proved to compute
    exactly those functions. */
module LocalAgent {
  import opened Wrappers
  import opened Text
  import opened Chat

  /** The injected environment: which backend is used, the endpoint's URL
      and the model name sent with every request. */
  datatype Config = Config(usingOpenai: bool, endpoint: string, model: string)

  // ---------------------------------------------------------------------
  // Diagnostics

  /** The RuntimeErrors the loop raises, by kind: a non-transient endpoint
      error, transient errors until the attempts ran out, a response without
      a usable choice, a choice without a message. Their text is rendered by
      DiagnosticText. */
  datatype Diagnostic =
    | RequestFailed(error: string)
    | Unreachable(error: string, attempts: nat)
    | NoChoices(raw: string)
    | NoMessagePayload(raw: string)

  // The fixed openings of the diagnostics and of their hints.
  const ErrorPrefix := "Error: "
  const RequestFailedOpening := "LLM request failed: "
  const UnreachableOpening := "Unable to reach the LLM endpoint at "
  const NoChoicesOpening := "LLM returned no choices. Raw response: "
  const NoMessageOpening := "LLM returned a choice without a message payload. Raw response: "
  const LocalServerHint := "Ensure a local LLM server is running at "

  function NonRetryableHint(cfg: Config): string
  {
    if cfg.usingOpenai then "Recheck your OpenAI API key, selected model, or request parameters."
    else "Verify the local model name in LOCAL_LLM_MODEL or set USE_OPENAI=true to use the OpenAI API instead."
  }

  function NonRetryableError(cfg: Config, error: string): string
  {
    RequestFailedOpening + error + ". " + NonRetryableHint(cfg)
  }

  function ConnectionHint(cfg: Config): string
  {
    if cfg.usingOpenai then "Confirm network access to OpenAI and that your API key is valid."
    else LocalServerHint + cfg.endpoint
         + ", or set USE_OPENAI=true to fall back to the OpenAI API."
  }

  function ConnectionFailure(cfg: Config, error: string, attempts: nat): string
  {
    UnreachableOpening + cfg.endpoint + " after "
    + (NatToString(attempts) + " attempts. " + ("Original error: " + error + ". " + ConnectionHint(cfg)))
  }

  function MissingChoicesHint(cfg: Config): string
  {
    if cfg.usingOpenai then "Validate the requested OpenAI model and inspect platform logs for errors."
    else "Check the local LLM server logs and confirm it supports the Chat Completions API."
  }

  function MissingChoicesError(cfg: Config, raw: string): string
  {
    NoChoicesOpening + raw + ". " + MissingChoicesHint(cfg)
  }

  function MissingMessageHint(cfg: Config): string
  {
    if cfg.usingOpenai then "Inspect the response on the OpenAI dashboard; the model may not support tools."
    else "Verify the local server's response schema matches OpenAI's Chat Completions format."
  }

  function MissingMessageError(cfg: Config, raw: string): string
  {
    NoMessageOpening + raw + ". " + MissingMessageHint(cfg)
  }

  function DiagnosticText(cfg: Config, d: Diagnostic): string
  {
    match d
    case RequestFailed(e) => NonRetryableError(cfg, e)
    case Unreachable(e, n) => ConnectionFailure(cfg, e, n)
    case NoChoices(raw) => MissingChoicesError(cfg, raw)
    case NoMessagePayload(raw) => MissingMessageError(cfg, raw)
  }

  // Each diagnostic opens with its fixed sentence, quotes the error or the
  // raw response, and closes with the hint of the configured backend.

  lemma NonRetryableErrorText(cfg: Config, error: string)
    ensures IsPrefix(RequestFailedOpening + error + ". ", NonRetryableError(cfg, error))
    ensures IsSuffix(NonRetryableHint(cfg), NonRetryableError(cfg, error))
  {
    PrefixOfConcat(RequestFailedOpening + error + ". ", NonRetryableHint(cfg));
    SuffixOfConcat(RequestFailedOpening + error + ". ", NonRetryableHint(cfg));
  }

  lemma ConnectionFailureText(cfg: Config, error: string, attempts: nat)
    ensures IsPrefix(UnreachableOpening + cfg.endpoint + " after ", ConnectionFailure(cfg, error, attempts))
    ensures IsSuffix("Original error: " + error + ". " + ConnectionHint(cfg), ConnectionFailure(cfg, error, attempts))
  {
    var p := UnreachableOpening + cfg.endpoint + " after ";
    var q := NatToString(attempts) + " attempts. ";
    var t := "Original error: " + error + ". " + ConnectionHint(cfg);
    PrefixOfConcat(p, q + t);
    SuffixOfNestedConcat(p, q, t);
  }

  lemma MissingChoicesErrorText(cfg: Config, raw: string)
    ensures IsPrefix(NoChoicesOpening + raw + ". ", MissingChoicesError(cfg, raw))
    ensures IsSuffix(MissingChoicesHint(cfg), MissingChoicesError(cfg, raw))
  {
    PrefixOfConcat(NoChoicesOpening + raw + ". ", MissingChoicesHint(cfg));
    SuffixOfConcat(NoChoicesOpening + raw + ". ", MissingChoicesHint(cfg));
  }

  lemma MissingMessageErrorText(cfg: Config, raw: string)
    ensures IsPrefix(NoMessageOpening + raw + ". ", MissingMessageError(cfg, raw))
    ensures IsSuffix(MissingMessageHint(cfg), MissingMessageError(cfg, raw))
  {
    PrefixOfConcat(NoMessageOpening + raw + ". ", MissingMessageHint(cfg));
    SuffixOfConcat(NoMessageOpening + raw + ". ", MissingMessageHint(cfg));
  }

  /** _select_first_choice: the first entry of a non-empty `choices` list,
      unless it is None; otherwise the "no choices" diagnostic. */
  function SelectFirstChoice(response: Response): (r: Result<Choice, Diagnostic>)
    ensures r.Err? <==> response.choices.None? || |response.choices.value| == 0 || response.choices.value[0].None?
    ensures r.Err? ==> r.error == NoChoices(response.raw)
    ensures r.Ok? ==> Some(r.value) == response.choices.value[0]
  {
    if response.choices.None? || |response.choices.value| == 0 then Err(NoChoices(response.raw))
    else
      match response.choices.value[0]
      case None => Err(NoChoices(response.raw))
      case Some(c) => Ok(c)
  }

  // ---------------------------------------------------------------------
  // The retry wrapper

  const MaxAttempts: nat := 3

  /** An error is treated as transient iff its lower-cased text mentions a
      connection, a timeout, something temporary or a reset. */
  predicate IsRetryable(error: string)
  {
    var m := Lower(error);
    Contains(m, "connection") || Contains(m, "timeout") || Contains(m, "temporar") || Contains(m, "reset")
  }

  /** The pause requested after failed attempt `attempt`: min(2, attempt). */
  function Backoff(attempt: nat): nat
  {
    if attempt < 2 then attempt else 2
  }

  /** Everything outside the agent the loop interacts with: the endpoint's
      remaining replies, the requests sent so far, the back-off delays
      requested so far and the calls that reached the tool gateway. */
  datatype World = World(script: seq<Reply>, requests: seq<Request>, delays: seq<nat>, invocations: seq<Invocation>)

  /** The outcome of _create_chat_completion: a response, or the
      RuntimeError it raises. */
  datatype Completion = Answered(response: Response) | Failed(diagnostic: Diagnostic)

  /** The World after one request that the endpoint answered or refused. */
  function Sent(w: World, payload: Request): World
    requires w.script != []
  {
    w.(script := w.script[1..], requests := w.requests + [payload])
  }

  /** The World after attempt `attempt` failed transiently: one reply used,
      one request sent, one pause requested. */
  function Retried(w: World, payload: Request, attempt: nat): World
    requires w.script != []
  {
    Sent(w, payload).(delays := w.delays + [Backoff(attempt)])
  }

  /** The retry loop from attempt `attempt` on. */
  function Attempts(payload: Request, w: World, attempt: nat): (c: (Completion, World))
    requires 1 <= attempt <= MaxAttempts
    ensures c.1.invocations == w.invocations
    ensures |c.1.script| <= |w.script|
    ensures c.0.Answered? ==> |c.1.script| < |w.script|
    decreases MaxAttempts - attempt
  {
    if w.script == [] then (Failed(RequestFailed(ScriptExhausted)), w.(requests := w.requests + [payload]))
    else
      match w.script[0]
      case Respond(response) => (Answered(response), Sent(w, payload))
      case Raise(e) =>
        if !IsRetryable(e) then (Failed(RequestFailed(e)), Sent(w, payload))
        else if attempt == MaxAttempts then (Failed(Unreachable(e, MaxAttempts)), Sent(w, payload))
        else Attempts(payload, Retried(w, payload, attempt), attempt + 1)
  }

  /** _create_chat_completion. */
  function Complete(payload: Request, w: World): (Completion, World)
  {
    Attempts(payload, w, 1)
  }

  /** Every attempt sends the same payload, and after each transient
      failure but the last the pause min(2, k) is requested: a call sends
      between one and three requests and requests one pause fewer. */
  lemma {:induction false} AttemptsLog(payload: Request, w: World, attempt: nat)
    requires 1 <= attempt <= MaxAttempts
    ensures Logged(payload, w, Attempts(payload, w, attempt).1, attempt)
    decreases MaxAttempts - attempt
  {
    if w.script != [] && w.script[0].Raise? && IsRetryable(w.script[0].error) && attempt < MaxAttempts {
      var r := Retried(w, payload, attempt);
      AttemptsLog(payload, r, attempt + 1);
      LoggedAfterRetry(payload, w, Attempts(payload, r, attempt + 1).1, attempt);
    }
  }

  /** From attempt `attempt` on, w1 records n requests, all of the payload,
      and the n - 1 pauses min(2, k) for the attempts k that failed, with
      1 <= n <= MaxAttempts + 1 - attempt. */
  predicate Logged(payload: Request, w: World, w1: World, attempt: nat)
  {
    var n := |w1.requests| - |w.requests|;
    1 <= n <= MaxAttempts + 1 - attempt
    && w1.requests == w.requests + seq(n, _ => payload)
    && w1.delays == w.delays + seq(n - 1, k requires 0 <= k => Backoff(attempt + k))
  }

  /** A transient failure adds one request and one pause in front of what
      the later attempts record. */
  lemma LoggedAfterRetry(payload: Request, w: World, w1: World, attempt: nat)
    requires w.script != [] && Logged(payload, Retried(w, payload, attempt), w1, attempt + 1)
    ensures Logged(payload, w, w1, attempt)
  {
    var r := Retried(w, payload, attempt);
    var m := |w1.requests| - |r.requests|;
    var sent := seq(m, _ => payload);
    var paused := seq(m - 1, k requires 0 <= k => Backoff(attempt + 1 + k));
    assert [payload] + sent == seq(m + 1, _ => payload);
    assert w1.requests == w.requests + ([payload] + sent);
    assert [Backoff(attempt)] + paused == seq(m, k requires 0 <= k => Backoff(attempt + k));
    assert w1.delays == w.delays + ([Backoff(attempt)] + paused);
  }

  /** A transient failure before the last attempt leads to the next attempt. */
  lemma TransientFailureRetries(payload: Request, w: World, attempt: nat)
    requires 1 <= attempt < MaxAttempts && w.script != [] && w.script[0].Raise? && IsRetryable(w.script[0].error)
    ensures Attempts(payload, w, attempt) == Attempts(payload, Retried(w, payload, attempt), attempt + 1)
  {
  }

  /** A transient failure followed by a response: the response is returned
      after a second request and one pause of one second. */
  lemma RetryRecovers(payload: Request, w: World, e: string, response: Response)
    requires |w.script| >= 2 && w.script[0] == Raise(e) && IsRetryable(e) && w.script[1] == Respond(response)
    ensures Complete(payload, w) ==
      (Answered(response), w.(script := w.script[2..], requests := w.requests + [payload, payload], delays := w.delays + [1]))
  {
    TransientFailureRetries(payload, w, 1);
    var w1 := Retried(w, payload, 1);
    assert w1.script[0] == w.script[1];
    assert w1.script[1..] == w.script[2..];
    assert w1.requests + [payload] == w.requests + [payload, payload];
  }

  /** A non-transient error aborts at once with the "LLM request failed"
      diagnostic, even after earlier transient failures. */
  lemma PermanentErrorAborts(payload: Request, w: World, k: nat)
    requires k < MaxAttempts && k < |w.script|
    requires forall j :: 0 <= j < k ==> w.script[j].Raise? && IsRetryable(w.script[j].error)
    requires w.script[k].Raise? && !IsRetryable(w.script[k].error)
    ensures Complete(payload, w).0 == Failed(RequestFailed(w.script[k].error))
    ensures |Complete(payload, w).1.requests| == |w.requests| + k + 1
  {
    if k > 0 {
      TransientFailureRetries(payload, w, 1);
      var w1 := Retried(w, payload, 1);
      assert w1.script[0] == w.script[1];
      if k > 1 {
        TransientFailureRetries(payload, w1, 2);
        var w2 := Retried(w1, payload, 2);
        assert w2.script[0] == w.script[2];
      }
    }
  }

  /** Three transient failures in a row exhaust the attempts: three requests,
      pauses of 1 and 2 seconds, and the "unable to reach" diagnostic quoting
      the last error. */
  lemma RetriesExhausted(payload: Request, w: World)
    requires |w.script| >= 3
    requires forall j :: 0 <= j < 3 ==> w.script[j].Raise? && IsRetryable(w.script[j].error)
    ensures Complete(payload, w) ==
      (Failed(Unreachable(w.script[2].error, 3)),
       w.(script := w.script[3..], requests := w.requests + [payload, payload, payload], delays := w.delays + [1, 2]))
  {
    TransientFailureRetries(payload, w, 1);
    var w1 := Retried(w, payload, 1);
    assert w1.script[0] == w.script[1];
    TransientFailureRetries(payload, w1, 2);
    var w2 := Retried(w1, payload, 2);
    assert w2.script[0] == w.script[2];
    assert w2.script[1..] == w.script[3..];
    assert w2.requests + [payload] == w.requests + [payload, payload, payload];
    assert w2.delays == w.delays + [1, 2];
  }

  /** A completion answers iff, within the first three replies, a response
      comes before any non-transient error. */
  lemma AnsweredIff(payload: Request, w: World)
    ensures Complete(payload, w).0.Answered? <==>
      exists k :: 0 <= k < MaxAttempts && k < |w.script| && w.script[k].Respond?
        && forall j :: 0 <= j < k ==> w.script[j].Raise? && IsRetryable(w.script[j].error)
  {
    var s := w.script;
    if s != [] && s[0].Raise? && IsRetryable(s[0].error) {
      TransientFailureRetries(payload, w, 1);
      var w1 := Retried(w, payload, 1);
      assert w1.script == s[1..];
      if |s| > 1 && s[1].Raise? && IsRetryable(s[1].error) {
        TransientFailureRetries(payload, w1, 2);
        var w2 := Retried(w1, payload, 2);
        assert w2.script == s[2..];
        if Complete(payload, w).0.Answered? {
          assert forall j :: 0 <= j < 2 ==> s[j].Raise? && IsRetryable(s[j].error);
          assert s[2].Respond?;
        }
      } else if Complete(payload, w).0.Answered? {
        assert forall j :: 0 <= j < 1 ==> s[j].Raise? && IsRetryable(s[j].error);
        assert s[1].Respond?;
      }
    } else if Complete(payload, w).0.Answered? {
      assert s[0].Respond?;
    }
  }

  // ---------------------------------------------------------------------
  // One round of the tool-calling loop

  /** The request payload of every round: tools and tool_choice "auto"
      are present iff the tool list is non-empty. */
  function BuildPayload(cfg: Config, messages: seq<Message>, tools: seq<FunctionTool>): (r: Request)
    ensures r.model == cfg.model && r.messages == messages
    ensures r.temperature == 0.3 && r.maxTokens == 2000
    ensures r.tools.Some? <==> |tools| > 0
    ensures r.toolChoice.Some? <==> |tools| > 0
    ensures r.tools.Some? ==> r.tools.value == tools && r.toolChoice == Some("auto")
  {
    if |tools| > 0 then Request(cfg.model, messages, 0.3, 2000, Some(tools), Some("auto"))
    else Request(cfg.model, messages, 0.3, 2000, None, None)
  }

  /** The arguments a tool receives: the parsed payload (an empty payload
      read as "{}"), or {} when it does not parse. */
  function ParseArgs(codec: JsonCodec, raw: string): Json
  {
    var parsed := codec.parse(if raw == "" then "{}" else raw);
    if parsed.Some? then parsed.value else EmptyObject
  }

  /** The signature a call is compared by: name(raw arguments). */
  function Signature(c: ToolCall): string
  {
    c.name + "(" + c.arguments + ")"
  }

  function Signatures(calls: seq<ToolCall>): seq<string>
    decreases |calls|
  {
    if calls == [] then [] else Signatures(calls[..|calls| - 1]) + [Signature(calls[|calls| - 1])]
  }

  function Serialize(codec: JsonCodec, c: ToolCall): SerializedCall
  {
    SerializedCall(c.id, c.name, codec.dump(ParseArgs(codec, c.arguments)))
  }

  function SerializedCalls(codec: JsonCodec, calls: seq<ToolCall>): seq<SerializedCall>
    decreases |calls|
  {
    if calls == [] then [] else SerializedCalls(codec, calls[..|calls| - 1]) + [Serialize(codec, calls[|calls| - 1])]
  }

  /** The tool message answering call c. */
  function ToolMessage(codec: JsonCodec, session: Option<Host>, c: ToolCall): Message
  {
    Tool(c.id, c.name, GatewayResult(session, c.name, ParseArgs(codec, c.arguments)))
  }

  function ToolMessages(codec: JsonCodec, session: Option<Host>, calls: seq<ToolCall>): seq<Message>
    decreases |calls|
  {
    if calls == [] then []
    else ToolMessages(codec, session, calls[..|calls| - 1]) + [ToolMessage(codec, session, calls[|calls| - 1])]
  }

  function InvocationOf(codec: JsonCodec, c: ToolCall): Invocation
  {
    Invocation(c.name, ParseArgs(codec, c.arguments))
  }

  function CallInvocations(codec: JsonCodec, calls: seq<ToolCall>): seq<Invocation>
    decreases |calls|
  {
    if calls == [] then [] else CallInvocations(codec, calls[..|calls| - 1]) + [InvocationOf(codec, calls[|calls| - 1])]
  }

  /** The per-call sequences of a tool round line up with the calls, one
      entry per call and in the calls' order. */
  lemma {:induction false} ToolRoundPointwise(codec: JsonCodec, session: Option<Host>, calls: seq<ToolCall>)
    ensures |Signatures(calls)| == |SerializedCalls(codec, calls)| == |ToolMessages(codec, session, calls)|
            == |CallInvocations(codec, calls)| == |calls|
    ensures forall i :: 0 <= i < |calls| ==>
      Signatures(calls)[i] == Signature(calls[i])
      && SerializedCalls(codec, calls)[i] == Serialize(codec, calls[i])
      && ToolMessages(codec, session, calls)[i] == ToolMessage(codec, session, calls[i])
      && CallInvocations(codec, calls)[i] == InvocationOf(codec, calls[i])
    decreases |calls|
  {
    if calls != [] {
      ToolRoundPointwise(codec, session, calls[..|calls| - 1]);
    }
  }

  const StallFallback := "I was able to fetch the information but encountered an issue processing it. Please try a different approach or rephrase your request."

  /** The answer of a stalled round: its content, or the fallback sentence. */
  function StallAnswer(text: string): string
  {
    if text != "" then text else StallFallback
  }

  /** How a turn ends: the final answer, or the RuntimeError that ended it. */
  datatype TurnResult = Answer(text: string) | Failure(diagnostic: Diagnostic)

  /** The outcome of one round: the turn is over, or it goes on with the
      extended message list and this round's signatures. */
  datatype Step =
    | Done(result: TurnResult, world: World)
    | Next(messages: seq<Message>, recent: seq<string>, world: World)

  /** What a round does with the assistant's message `turn`. */
  function Act(codec: JsonCodec, session: Option<Host>, tools: seq<FunctionTool>,
               messages: seq<Message>, recent: seq<string>, turn: AssistantTurn, w: World): (s: Step)
    ensures s.world.script == w.script && s.world.requests == w.requests && s.world.delays == w.delays
  {
    var text := OrEmpty(turn.content);
    var calls := turn.toolCalls;
    if |calls| > 0 && |tools| > 0 then
      if Signatures(calls) == recent then Done(Answer(StallAnswer(text)), w)
      else
        Next(messages + [AssistantCalls(text, SerializedCalls(codec, calls))] + ToolMessages(codec, session, calls),
             Signatures(calls),
             w.(invocations := w.invocations + CallInvocations(codec, calls)))
    else Done(Answer(text), w)
  }

  /** What a round does with the endpoint's response. */
  function Interpret(codec: JsonCodec, session: Option<Host>, tools: seq<FunctionTool>,
                     messages: seq<Message>, recent: seq<string>, response: Response, w: World): (s: Step)
    ensures s.world.script == w.script && s.world.requests == w.requests && s.world.delays == w.delays
  {
    match SelectFirstChoice(response)
    case Err(d) => Done(Failure(d), w)
    case Ok(choice) =>
      match choice.message
      case None => Done(Failure(NoMessagePayload(response.raw)), w)
      case Some(turn) => Act(codec, session, tools, messages, recent, turn, w)
  }

  /** One iteration of the while-loop of process_message. */
  function Round(cfg: Config, codec: JsonCodec, session: Option<Host>, tools: seq<FunctionTool>,
                 messages: seq<Message>, recent: seq<string>, w: World): (s: Step)
    ensures s.Next? ==> |s.world.script| < |w.script|
  {
    var c := Complete(BuildPayload(cfg, messages, tools), w);
    match c.0
    case Failed(d) => Done(Failure(d), c.1)
    case Answered(response) => Interpret(codec, session, tools, messages, recent, response, c.1)
  }

  /** The rounds of the loop until one ends the turn. */
  function Rounds(cfg: Config, codec: JsonCodec, session: Option<Host>, tools: seq<FunctionTool>,
                  messages: seq<Message>, recent: seq<string>, w: World): (TurnResult, World)
    decreases |w.script|
  {
    match Round(cfg, codec, session, tools, messages, recent, w)
    case Done(r, w1) => (r, w1)
    case Next(m, rc, w1) => Rounds(cfg, codec, session, tools, m, rc, w1)
  }

  /** The system message opens the list only when the instructions are non-empty. */
  function SystemPrefix(system: string): seq<Message>
  {
    if system != "" then [System(system)] else []
  }

  datatype TurnOutcome = TurnOutcome(result: TurnResult, world: World, history: seq<Message>)

  /** process_message on a history and a World. */
  function Turn(cfg: Config, codec: JsonCodec, session: Option<Host>, system: string,
                history: seq<Message>, userInput: string, w: World): TurnOutcome
  {
    var h := history + [User(userInput)];
    var r := Rounds(cfg, codec, session, AvailableTools(session, Some(userInput)), SystemPrefix(system) + h, [], w);
    TurnOutcome(r.0, r.1, if r.0.Answer? then h + [Assistant(r.0.text)] else h)
  }

  /** The string process_message returns. */
  function ReplyText(cfg: Config, r: TurnResult): string
  {
    match r
    case Answer(text) => text
    case Failure(d) => ErrorPrefix + DiagnosticText(cfg, d)
  }

  // ---------------------------------------------------------------------
  // Properties of the loop

  /** The first round of a turn never stalls: if tools are offered and the
      model requests calls, they are run. */
  lemma FirstRoundNeverStalls(codec: JsonCodec, session: Option<Host>, tools: seq<FunctionTool>,
                              messages: seq<Message>, turn: AssistantTurn, w: World)
    requires |turn.toolCalls| > 0 && |tools| > 0
    ensures Act(codec, session, tools, messages, [], turn, w).Next?
  {
    ToolRoundPointwise(codec, session, turn.toolCalls);
  }

  /** A round that repeats the previous round's calls exactly ends the
      turn without invoking any tool, answering with the content or, when
      that is empty, the fixed fallback sentence. */
  lemma StallInvokesNothing(codec: JsonCodec, session: Option<Host>, tools: seq<FunctionTool>,
                            messages: seq<Message>, recent: seq<string>, turn: AssistantTurn, w: World)
    requires |turn.toolCalls| > 0 && |tools| > 0 && Signatures(turn.toolCalls) == recent
    ensures var s := Act(codec, session, tools, messages, recent, turn, w);
      s.Done? && s.world == w
      && s.result == Answer(if OrEmpty(turn.content) != "" then OrEmpty(turn.content) else StallFallback)
  {
  }

  /** Without tools, requested calls are ignored and the content is the
      final answer; nothing is invoked. */
  lemma NoToolsAnswersDirectly(codec: JsonCodec, session: Option<Host>,
                               messages: seq<Message>, recent: seq<string>, turn: AssistantTurn, w: World)
    ensures var s := Act(codec, session, [], messages, recent, turn, w);
      s.Done? && s.result == Answer(OrEmpty(turn.content)) && s.world == w
  {
  }

  /** A tool round that does not stall runs every requested call once, in
      order: it appends one assistant message echoing the calls in order
      and then exactly one tool message per call, answering the call's id
      with the gateway's result for the parsed arguments. */
  lemma ToolRoundAppends(codec: JsonCodec, session: Option<Host>, tools: seq<FunctionTool>,
                         messages: seq<Message>, recent: seq<string>, turn: AssistantTurn, w: World)
    requires |turn.toolCalls| > 0 && |tools| > 0 && Signatures(turn.toolCalls) != recent
    ensures var s := Act(codec, session, tools, messages, recent, turn, w);
      var calls := turn.toolCalls;
      var n := |messages|;
      var inv := w.invocations;
      s.Next? && s.recent == Signatures(calls)
      && |s.messages| == n + 1 + |calls| && s.messages[..n] == messages
      && s.messages[n].AssistantCalls? && s.messages[n].content == OrEmpty(turn.content)
      && |s.messages[n].toolCalls| == |calls|
      && (forall i :: 0 <= i < |calls| ==>
            s.messages[n].toolCalls[i].id == calls[i].id && s.messages[n].toolCalls[i].name == calls[i].name
            && s.messages[n + 1 + i] == Tool(calls[i].id, calls[i].name,
                                            GatewayResult(session, calls[i].name, ParseArgs(codec, calls[i].arguments))))
      && |s.world.invocations| == |inv| + |calls| && s.world.invocations[..|inv|] == inv
      && (forall i :: 0 <= i < |calls| ==>
            s.world.invocations[|inv| + i] == Invocation(calls[i].name, ParseArgs(codec, calls[i].arguments)))
  {
    var calls := turn.toolCalls;
    ToolRoundPointwise(codec, session, calls);
    var s := Act(codec, session, tools, messages, recent, turn, w);
    var n := |messages|;
    var a := AssistantCalls(OrEmpty(turn.content), SerializedCalls(codec, calls));
    var tm := ToolMessages(codec, session, calls);
    assert s.messages == messages + [a] + tm;
    forall i | 0 <= i < |calls|
      ensures s.messages[n + 1 + i] == tm[i]
    {
    }
  }

  /** Arguments that do not parse reach the tool as the empty object. */
  lemma UnparsableArgumentsBecomeEmpty(codec: JsonCodec, raw: string)
    requires codec.parse(if raw == "" then "{}" else raw).None?
    ensures ParseArgs(codec, raw) == EmptyObject
  {
  }

  /** Two different calls can share their signature: a name ending in "("
      cannot be told apart from a shorter name whose arguments start with
      "(", so such a round counts as a repeat and stalls. */
  lemma SignaturesCanCollide()
    ensures Signature(ToolCall("1", "a(", "(b)")) == Signature(ToolCall("2", "a", "((b)"))
  {
  }

  /** On return, the history has gained the user turn and, only when the
      turn answered, an assistant entry holding the returned text; a failed
      turn returns "Error: " and its diagnostic. Tool requests and tool
      results never enter the history. */
  lemma TurnHistory(cfg: Config, codec: JsonCodec, session: Option<Host>, system: string,
                    history: seq<Message>, userInput: string, w: World)
    ensures var t := Turn(cfg, codec, session, system, history, userInput, w);
      var n := |history|;
      t.history[..n] == history && |t.history| > n && t.history[n] == User(userInput)
      && (t.result.Answer? ==> |t.history| == n + 2 && t.history[n + 1] == Assistant(ReplyText(cfg, t.result)))
      && (t.result.Failure? ==>
            |t.history| == n + 1 && ReplyText(cfg, t.result) == ErrorPrefix + DiagnosticText(cfg, t.result.diagnostic))
  {
  }

  /** The first request of a turn carries the system message (when the
      instructions are non-empty), the history and the new user turn. */
  lemma FirstRequest(cfg: Config, codec: JsonCodec, session: Option<Host>, system: string,
                     history: seq<Message>, userInput: string, w: World)
    ensures var t := Turn(cfg, codec, session, system, history, userInput, w);
      var tools := AvailableTools(session, Some(userInput));
      |t.world.requests| > |w.requests| && t.world.requests[..|w.requests|] == w.requests
      && t.world.requests[|w.requests|] == BuildPayload(cfg, SystemPrefix(system) + history + [User(userInput)], tools)
  {
    var tools := AvailableTools(session, Some(userInput));
    assert SystemPrefix(system) + (history + [User(userInput)]) == SystemPrefix(system) + history + [User(userInput)];
    RoundsKeepsFirstRequest(cfg, codec, session, tools, SystemPrefix(system) + (history + [User(userInput)]), [], w);
  }

  /** The first request of a round carries the round's messages. */
  lemma RoundSendsMessages(cfg: Config, codec: JsonCodec, session: Option<Host>,
      tools: seq<FunctionTool>, messages: seq<Message>, recent: seq<string>, w: World)
    ensures var w1 := Round(cfg, codec, session, tools, messages, recent, w).world;
      |w1.requests| > |w.requests| && w1.requests[..|w.requests|] == w.requests
      && w1.requests[|w.requests|] == BuildPayload(cfg, messages, tools)
  {
    var payload := BuildPayload(cfg, messages, tools);
    AttemptsLog(payload, w, 1);
    var w1 := Complete(payload, w).1;
    var n := |w1.requests| - |w.requests|;
    assert w1.requests == w.requests + seq(n, _ => payload);
    assert w1.requests[|w.requests|] == payload;
  }

  lemma {:induction false} RoundsKeepsFirstRequest(cfg: Config, codec: JsonCodec, session: Option<Host>,
      tools: seq<FunctionTool>, messages: seq<Message>, recent: seq<string>, w: World)
    ensures var r := Rounds(cfg, codec, session, tools, messages, recent, w);
      |r.1.requests| > |w.requests| && r.1.requests[..|w.requests|] == w.requests
      && r.1.requests[|w.requests|] == BuildPayload(cfg, messages, tools)
    decreases |w.script|
  {
    var s := Round(cfg, codec, session, tools, messages, recent, w);
    RoundSendsMessages(cfg, codec, session, tools, messages, recent, w);
    if s.Next? {
      RoundsKeepsFirstRequest(cfg, codec, session, tools, s.messages, s.recent, s.world);
      var w1 := s.world;
      var r := Rounds(cfg, codec, session, tools, s.messages, s.recent, w1);
      assert r == Rounds(cfg, codec, session, tools, messages, recent, w);
      assert r.1.requests[..|w.requests|] == r.1.requests[..|w1.requests|][..|w.requests|];
      assert r.1.requests[|w.requests|] == r.1.requests[..|w1.requests|][|w.requests|];
    }
  }

  // ---------------------------------------------------------------------
  // Scenarios

  function FinalReply(content: string): Reply
  {
    Respond(Response(Some([Some(Choice(Some(AssistantTurn(Some(content), []))))]), "final"))
  }

  function CallReply(c: ToolCall): Reply
  {
    Respond(Response(Some([Some(Choice(Some(AssistantTurn(Some(""), [c]))))]), "call"))
  }

  lemma ConnectionErrorIsRetryable()
    ensures IsRetryable("Connection error")
  {
    assert Lower("Connection error")[0..10] == "connection";
    assert OccursAt(Lower("Connection error"), "connection", 0);
  }

  /** A round whose reply is the final answer ends the turn with it. */
  lemma FinalRound(cfg: Config, codec: JsonCodec, session: Option<Host>, tools: seq<FunctionTool>,
                   messages: seq<Message>, recent: seq<string>, w: World, answer: string)
    requires w.script != [] && w.script[0] == FinalReply(answer)
    ensures Round(cfg, codec, session, tools, messages, recent, w)
            == Done(Answer(answer), Sent(w, BuildPayload(cfg, messages, tools)))
  {
  }

  /** A round whose reply requests one new call runs it. */
  lemma CallRound(cfg: Config, codec: JsonCodec, session: Option<Host>, tools: seq<FunctionTool>,
                  messages: seq<Message>, recent: seq<string>, w: World, c: ToolCall)
    requires |tools| > 0 && recent != [Signature(c)]
    requires w.script != [] && w.script[0] == CallReply(c)
    ensures var s := Round(cfg, codec, session, tools, messages, recent, w);
      s.Next? && s.recent == [Signature(c)]
      && s.world == Sent(w, BuildPayload(cfg, messages, tools)).(invocations := w.invocations + [InvocationOf(codec, c)])
  {
    assert [c][..0] == [];
    assert Signatures([c]) == [Signature(c)];
    assert CallInvocations(codec, [c]) == [InvocationOf(codec, c)];
  }

  /** A two-stage plan: the model asks for one tool, then another, then
      answers; both tools are invoked once, in that order, and the answer is
      returned after three requests. */
  lemma TwoStagePlan(cfg: Config, codec: JsonCodec, session: Option<Host>, tools: seq<FunctionTool>,
                     messages: seq<Message>, w: World, c1: ToolCall, c2: ToolCall, answer: string)
    requires |tools| > 0 && Signature(c1) != Signature(c2)
    requires w.script == [CallReply(c1), CallReply(c2), FinalReply(answer)]
    ensures var r := Rounds(cfg, codec, session, tools, messages, [], w);
      r.0 == Answer(answer) && |r.1.requests| == |w.requests| + 3 && r.1.script == []
      && r.1.invocations == w.invocations + [InvocationOf(codec, c1), InvocationOf(codec, c2)]
  {
    CallRound(cfg, codec, session, tools, messages, [], w, c1);
    var s1 := Round(cfg, codec, session, tools, messages, [], w);
    assert s1.world.script == [CallReply(c2), FinalReply(answer)];
    CallRound(cfg, codec, session, tools, s1.messages, s1.recent, s1.world, c2);
    var s2 := Round(cfg, codec, session, tools, s1.messages, s1.recent, s1.world);
    assert s2.world.script == [FinalReply(answer)];
    FinalRound(cfg, codec, session, tools, s2.messages, s2.recent, s2.world, answer);
    var s3 := Round(cfg, codec, session, tools, s2.messages, s2.recent, s2.world);
    assert Rounds(cfg, codec, session, tools, s2.messages, s2.recent, s2.world) == (s3.result, s3.world);
    assert Rounds(cfg, codec, session, tools, messages, [], w) == (s3.result, s3.world);
  }

  /** A connection error between two replies is absorbed by the retry: the
      turn still answers, and the tool is invoked only once. */
  lemma RecoversFromConnectionError(cfg: Config, codec: JsonCodec, session: Option<Host>, tools: seq<FunctionTool>,
                                    messages: seq<Message>, w: World, c: ToolCall, answer: string)
    requires |tools| > 0
    requires w.script == [CallReply(c), Raise("Connection error"), FinalReply(answer)]
    ensures var r := Rounds(cfg, codec, session, tools, messages, [], w);
      r.0 == Answer(answer) && r.1.invocations == w.invocations + [InvocationOf(codec, c)]
      && |r.1.requests| == |w.requests| + 3 && r.1.delays == w.delays + [1]
  {
    ConnectionErrorIsRetryable();
    CallRound(cfg, codec, session, tools, messages, [], w, c);
    var s1 := Round(cfg, codec, session, tools, messages, [], w);
    var w1 := s1.world;
    assert w1.script == [Raise("Connection error"), FinalReply(answer)];
    var payload := BuildPayload(cfg, s1.messages, tools);
    RetryRecovers(payload, w1, "Connection error", FinalReply(answer).response);
    var s2 := Round(cfg, codec, session, tools, s1.messages, s1.recent, w1);
    assert s2 == Done(Answer(answer), w1.(script := [], requests := w1.requests + [payload, payload], delays := w1.delays + [1]));
    assert Rounds(cfg, codec, session, tools, messages, [], w) == (s2.result, s2.world);
  }

  /** Three connection errors in a row end the first round, and so the
      turn, with the "unable to reach" diagnostic. */
  lemma ConnectionErrorsEndTurn(cfg: Config, codec: JsonCodec, session: Option<Host>,
                                system: string, history: seq<Message>, userInput: string, w: World)
    requires |w.script| >= 3
    requires w.script[0] == w.script[1] == w.script[2] == Raise("Connection error")
    ensures Turn(cfg, codec, session, system, history, userInput, w).result == Failure(Unreachable("Connection error", 3))
  {
    ConnectionErrorIsRetryable();
    var tools := AvailableTools(session, Some(userInput));
    var messages := SystemPrefix(system) + (history + [User(userInput)]);
    RetriesExhausted(BuildPayload(cfg, messages, tools), w);
    assert Round(cfg, codec, session, tools, messages, [], w).Done?;
  }

  /** On the local backend the "unable to reach" diagnostic carries the
      hint to start a local server. */
  lemma UnreachableLocalText(cfg: Config, error: string, attempts: nat)
    requires !cfg.usingOpenai
    ensures var reply := ReplyText(cfg, Failure(Unreachable(error, attempts)));
      IsPrefix(ErrorPrefix + UnreachableOpening, reply) && Contains(reply, LocalServerHint)
  {
    var head := UnreachableOpening + cfg.endpoint + " after ";
    var count := NatToString(attempts) + " attempts. ";
    var quoted := "Original error: " + error + ". ";
    var hint := ConnectionHint(cfg);
    var m := ConnectionFailure(cfg, error, attempts);
    assert m == head + (count + (quoted + hint));
    PrefixOfConcat(UnreachableOpening, cfg.endpoint);
    PrefixExtends(UnreachableOpening, UnreachableOpening + cfg.endpoint, " after ");
    PrefixExtends(UnreachableOpening, head, count + (quoted + hint));
    PrefixAfterCommon(ErrorPrefix, UnreachableOpening, m);
    PrefixOfConcat(LocalServerHint, cfg.endpoint);
    PrefixExtends(LocalServerHint, LocalServerHint + cfg.endpoint, ", or set USE_OPENAI=true to fall back to the OpenAI API.");
    ContainsPrefix(hint, LocalServerHint);
    ContainsExtended(quoted, hint, "", LocalServerHint);
    ContainsExtended(count, quoted + hint, "", LocalServerHint);
    ContainsExtended(head, count + (quoted + hint), "", LocalServerHint);
    ContainsExtended(ErrorPrefix, m, "", LocalServerHint);
  }

  /** When every call fails with a connection error, a local-backend turn
      reports the unreachable endpoint with the hint to start a local
      server. */
  lemma UnreachableEndpointReported(cfg: Config, codec: JsonCodec, session: Option<Host>,
                                    system: string, history: seq<Message>, userInput: string, w: World)
    requires !cfg.usingOpenai
    requires |w.script| >= 3
    requires w.script[0] == w.script[1] == w.script[2] == Raise("Connection error")
    ensures var reply := ReplyText(cfg, Turn(cfg, codec, session, system, history, userInput, w).result);
      IsPrefix(ErrorPrefix + UnreachableOpening, reply) && Contains(reply, LocalServerHint)
  {
    ConnectionErrorsEndTurn(cfg, codec, session, system, history, userInput, w);
    UnreachableLocalText(cfg, "Connection error", 3);
  }

  /** A response without choices ends the first round, and so the turn. */
  lemma NoChoicesEndTurn(cfg: Config, codec: JsonCodec, session: Option<Host>,
                         system: string, history: seq<Message>, userInput: string, w: World, raw: string)
    requires |w.script| > 0 && w.script[0] == Respond(Response(None, raw))
    ensures Turn(cfg, codec, session, system, history, userInput, w).result == Failure(NoChoices(raw))
  {
    var tools := AvailableTools(session, Some(userInput));
    var messages := SystemPrefix(system) + (history + [User(userInput)]);
    assert Round(cfg, codec, session, tools, messages, [], w).Done?;
  }

  lemma NoChoicesText(cfg: Config, raw: string)
    ensures IsPrefix(ErrorPrefix + NoChoicesOpening, ReplyText(cfg, Failure(NoChoices(raw))))
  {
    var m := MissingChoicesError(cfg, raw);
    PrefixOfConcat(NoChoicesOpening, raw);
    PrefixExtends(NoChoicesOpening, NoChoicesOpening + raw, ". ");
    PrefixExtends(NoChoicesOpening, NoChoicesOpening + raw + ". ", MissingChoicesHint(cfg));
    PrefixAfterCommon(ErrorPrefix, NoChoicesOpening, m);
  }

  /** A response without choices ends the turn with the "no choices" diagnostic. */
  lemma NoChoicesReported(cfg: Config, codec: JsonCodec, session: Option<Host>,
                          system: string, history: seq<Message>, userInput: string, w: World, raw: string)
    requires |w.script| > 0 && w.script[0] == Respond(Response(None, raw))
    ensures IsPrefix(ErrorPrefix + NoChoicesOpening,
                     ReplyText(cfg, Turn(cfg, codec, session, system, history, userInput, w).result))
  {
    NoChoicesEndTurn(cfg, codec, session, system, history, userInput, w, raw);
    NoChoicesText(cfg, raw);
  }

  // ---------------------------------------------------------------------
  // The agent

  class LocalContentAgent {
    const cfg: Config
    const codec: JsonCodec
    /** The tool-host session and the system instructions obtained when the
        agent starts. */
    const session: Option<Host>
    const systemInstructions: string
    var history: seq<Message>
    /** The endpoint and the logs of what left the agent. */
    var script: seq<Reply>
    var requests: seq<Request>
    var delays: seq<nat>
    var invocations: seq<Invocation>

    function Env(): World
      reads this
    {
      World(script, requests, delays, invocations)
    }

    constructor(cfg: Config, codec: JsonCodec, session: Option<Host>, systemInstructions: string, script: seq<Reply>)
      ensures this.cfg == cfg && this.codec == codec && this.session == session
      ensures this.systemInstructions == systemInstructions
      ensures history == [] && Env() == World(script, [], [], [])
    {
      this.cfg := cfg;
      this.codec := codec;
      this.session := session;
      this.systemInstructions := systemInstructions;
      this.history := [];
      this.script := script;
      this.requests := [];
      this.delays := [];
      this.invocations := [];
    }

    /** reset_conversation. */
    method ResetConversation()
      modifies this
      ensures history == [] && Env() == old(Env())
    {
      history := [];
    }

    /** call_mcp_tool: never fails; the call is recorded. */
    method CallMcpTool(name: string, arguments: Json) returns (r: string)
      modifies this
      ensures r == GatewayResult(session, name, arguments)
      ensures invocations == old(invocations) + [Invocation(name, arguments)]
      ensures history == old(history) && script == old(script) && requests == old(requests) && delays == old(delays)
    {
      invocations := invocations + [Invocation(name, arguments)];
      if session.None? {
        return NoSessionText;
      }
      match session.value.call(name, arguments) {
        case CallRaised(e) =>
          r := "Error calling tool " + name + ": " + e;
        case CallReturned(items) =>
          if |items| == 0 {
            r := NoContentText;
          } else if items[0].text.Some? {
            r := items[0].text.value;
          } else {
            r := items[0].repr;
          }
      }
    }

    /** get_available_tools_for_function_calling: the converted catalogue
        with the transcript filter; nothing without a session or when
        listing raises. */
    method GetAvailableTools(hint: Option<string>) returns (tools: seq<FunctionTool>)
      ensures tools == AvailableTools(session, hint)
      ensures session.None? || session.value.listing.ListRaised? ==> tools == []
    {
      if session.None? {
        return [];
      }
      match session.value.listing {
        case ListRaised(_) =>
          return [];
        case Listed(ts) =>
          var hasYoutube := if hint.Some? then ContainsYoutubeUrl(hint.value) else true;
          tools := [];
          for i := 0 to |ts|
            invariant tools == ConvertListed(ts[..i], hint)
          {
            assert ts[..i + 1][..i] == ts[..i];
            var t := ts[i];
            if t.name == TranscriptTool && hint.Some? && !hasYoutube {
              continue;
            }
            tools := tools + [FunctionTool(t.name, t.description, Parameters(t))];
          }
          assert ts[..|ts|] == ts;
      }
    }

    /** _create_chat_completion: up to three attempts, pausing min(2, k)
        seconds after a transient failure of attempt k. */
    method CreateChatCompletion(payload: Request) returns (c: Completion)
      modifies this
      ensures (c, Env()) == Complete(payload, old(Env()))
      ensures history == old(history)
    {
      var attempt := 1;
      while true
        invariant 1 <= attempt <= MaxAttempts
        invariant Attempts(payload, Env(), attempt) == Complete(payload, old(Env()))
        invariant history == old(history)
        decreases MaxAttempts - attempt
      {
        if script == [] {
          requests := requests + [payload];
          return Failed(RequestFailed(ScriptExhausted));
        }
        var reply := script[0];
        script := script[1..];
        requests := requests + [payload];
        match reply {
          case Respond(response) =>
            return Answered(response);
          case Raise(e) =>
            if !IsRetryable(e) {
              return Failed(RequestFailed(e));
            }
            if attempt == MaxAttempts {
              return Failed(Unreachable(e, MaxAttempts));
            }
            delays := delays + [Backoff(attempt)];
            attempt := attempt + 1;
        }
      }
    }

    /** The signatures of a round's calls, in order. */
    method CallSignatures(calls: seq<ToolCall>) returns (current: seq<string>)
      ensures current == Signatures(calls)
    {
      current := [];
      for i := 0 to |calls|
        invariant current == Signatures(calls[..i])
      {
        assert calls[..i + 1][..i] == calls[..i];
        current := current + [Signature(calls[i])];
      }
      assert calls[..|calls|] == calls;
    }

    /** The inner loop of a tool round: every call is run through the
        gateway, in order, and echoed and answered. */
    method RunToolCalls(calls: seq<ToolCall>) returns (serialized: seq<SerializedCall>, results: seq<Message>)
      modifies this
      ensures serialized == SerializedCalls(codec, calls)
      ensures results == ToolMessages(codec, session, calls)
      ensures invocations == old(invocations) + CallInvocations(codec, calls)
      ensures history == old(history) && script == old(script) && requests == old(requests) && delays == old(delays)
    {
      serialized := [];
      results := [];
      for i := 0 to |calls|
        invariant serialized == SerializedCalls(codec, calls[..i])
        invariant results == ToolMessages(codec, session, calls[..i])
        invariant invocations == old(invocations) + CallInvocations(codec, calls[..i])
        invariant history == old(history) && script == old(script) && requests == old(requests) && delays == old(delays)
      {
        assert calls[..i + 1][..i] == calls[..i];
        var call := calls[i];
        var arguments := ParseArgs(codec, call.arguments);
        var output := CallMcpTool(call.name, arguments);
        serialized := serialized + [SerializedCall(call.id, call.name, codec.dump(arguments))];
        results := results + [Tool(call.id, call.name, output)];
      }
      assert calls[..|calls|] == calls;
    }

    /** process_message. */
    method ProcessMessage(userInput: string) returns (reply: string)
      modifies this
      ensures var t := Turn(cfg, codec, session, systemInstructions, old(history), userInput, old(Env()));
        reply == ReplyText(cfg, t.result) && history == t.history && Env() == t.world
    {
      history := history + [User(userInput)];
      var messages := SystemPrefix(systemInstructions) + history;
      var tools := GetAvailableTools(Some(userInput));
      ghost var m0 := messages;
      ghost var w0 := Env();
      var recent: seq<string> := [];
      var result: TurnResult;
      while true
        invariant Rounds(cfg, codec, session, tools, messages, recent, Env())
                  == Rounds(cfg, codec, session, tools, m0, [], w0)
        invariant history == old(history) + [User(userInput)]
        decreases |script|
      {
        ghost var wb := Env();
        var completion := CreateChatCompletion(BuildPayload(cfg, messages, tools));
        if completion.Failed? {
          result := Failure(completion.diagnostic);
          break;
        }
        var response := completion.response;
        var first := SelectFirstChoice(response);
        if first.Err? {
          result := Failure(first.error);
          break;
        }
        if first.value.message.None? {
          result := Failure(NoMessagePayload(response.raw));
          break;
        }
        var turn := first.value.message.value;
        ghost var step := Act(codec, session, tools, messages, recent, turn, Env());
        assert Round(cfg, codec, session, tools, messages, recent, wb) == step;
        var text := OrEmpty(turn.content);
        var calls := turn.toolCalls;
        if |calls| > 0 && |tools| > 0 {
          var current := CallSignatures(calls);
          if current == recent {
            result := Answer(if text != "" then text else StallFallback);
            break;
          }
          recent := current;
          var serialized, results := RunToolCalls(calls);
          messages := messages + [AssistantCalls(text, serialized)] + results;
          assert Env() == step.world;
        } else {
          result := Answer(text);
          break;
        }
      }
      if result.Answer? {
        history := history + [Assistant(result.text)];
        reply := result.text;
      } else {
        reply := ErrorPrefix + DiagnosticText(cfg, result.diagnostic);
      }
    }
  }
}
