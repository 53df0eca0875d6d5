/** The single-shot agent of main_local.py: one "decide tools" completion,
    every parsed call run once through the tool gateway, the results folded
    into one "Tool execution results" user message, and one final
    completion, with no retry anywhere.

    As in LocalAgent, the endpoint is a finite script of replies and a World
    records the requests sent and the calls that reached the gateway; the
    turn is first defined as a function (Decide, Turn) and the class
    LocalYouTubeAgent is proved to compute it. */
module MainLocal {
  import opened Wrappers
  import opened Text
  import opened Chat

  /** The endpoint's remaining replies, the requests sent so far and the
      calls that reached the tool gateway. */
  datatype World = World(script: seq<Reply>, requests: seq<Request>, invocations: seq<Invocation>)

  /** One chat-completion call without retry: the response, or the text of
      what the call raised. */
  function Call(payload: Request, w: World): (c: (Result<Response, string>, World))
    ensures c.1.requests == w.requests + [payload] && c.1.invocations == w.invocations
    ensures c.1.script == if w.script == [] then [] else w.script[1..]
    ensures c.0.Err? <==> w.script == [] || w.script[0].Raise?
  {
    var w1 := w.(script := if w.script == [] then [] else w.script[1..], requests := w.requests + [payload]);
    if w.script == [] then (Err(ScriptExhausted), w1)
    else
      match w.script[0]
      case Raise(e) => (Err(e), w1)
      case Respond(r) => (Ok(r), w1)
  }

  // The texts CPython gives the exceptions `response.choices[0].message`
  // raises when a part of the response is missing.
  const NotSubscriptable := "'NoneType' object is not subscriptable"
  const IndexOutOfRange := "list index out of range"
  const NoMessageAttribute := "'NoneType' object has no attribute 'message'"
  const NoContentAttribute := "'NoneType' object has no attribute 'content'"

  /** `response.choices[0].message`: the assistant's turn, or the text of
      the exception the access raises. */
  function FirstTurn(response: Response): (r: Result<AssistantTurn, string>)
    ensures r.Ok? <==> response.choices.Some? && |response.choices.value| > 0
                       && response.choices.value[0].Some? && response.choices.value[0].value.message.Some?
    ensures r.Ok? ==> r.value == response.choices.value[0].value.message.value
  {
    if response.choices.None? then Err(NotSubscriptable)
    else if |response.choices.value| == 0 then Err(IndexOutOfRange)
    else
      match response.choices.value[0]
      case None => Err(NoMessageAttribute)
      case Some(choice) =>
        match choice.message
        case None => Err(NoContentAttribute)
        case Some(turn) => Ok(turn)
  }

  // ---------------------------------------------------------------------
  // decide_tools_needed

  const DecidePrompt := "You are a helpful assistant that can call functions to help users. Analyze the user's request and call appropriate functions if needed."

  const ReasonOpening := "Model decided to call "

  /** The request that asks the model which tools to call. */
  function DecidePayload(model: string, userInput: string, tools: seq<FunctionTool>): (r: Request)
    ensures r.messages == [System(DecidePrompt), User(userInput)]
    ensures r.tools == Some(tools) && r.toolChoice == Some("auto")
    ensures r.model == model && r.temperature == 0.1 && r.maxTokens == 500
  {
    Request(model, [System(DecidePrompt), User(userInput)], 0.1, 500, Some(tools), Some("auto"))
  }

  /** One entry of `tools_needed`. */
  datatype NeededTool = NeededTool(name: string, arguments: Json, reason: string)

  /** A call is kept iff its raw arguments parse (here json.loads gets the
      payload as it is: an empty payload does not parse). */
  predicate Parsable(codec: JsonCodec, c: ToolCall)
  {
    codec.parse(c.arguments).Some?
  }

  function NeededOf(codec: JsonCodec, c: ToolCall): NeededTool
    requires Parsable(codec, c)
  {
    NeededTool(c.name, codec.parse(c.arguments).value, ReasonOpening + c.name)
  }

  /** The parsed calls, in the model's order, unparsable ones skipped. */
  function ParsedCalls(codec: JsonCodec, calls: seq<ToolCall>): seq<NeededTool>
    decreases |calls|
  {
    if calls == [] then []
    else
      var last := calls[|calls| - 1];
      ParsedCalls(codec, calls[..|calls| - 1]) + (if Parsable(codec, last) then [NeededOf(codec, last)] else [])
  }

  /** decide_tools_needed: nothing (and no request) without tools; one
      request otherwise, and nothing when it raises or the response has no
      message. */
  function Decide(model: string, codec: JsonCodec, session: Option<Host>, userInput: string, w: World)
    : (d: (seq<NeededTool>, World))
    ensures d.1.invocations == w.invocations
  {
    var tools := AvailableTools(session, None);
    if tools == [] then ([], w)
    else
      var c := Call(DecidePayload(model, userInput, tools), w);
      if c.0.Err? then ([], c.1)
      else
        match FirstTurn(c.0.value)
        case Err(_) => ([], c.1)
        case Ok(turn) => (ParsedCalls(codec, turn.toolCalls), c.1)
  }

  /** The parsed calls keep the model's order and skip exactly the calls
      whose arguments do not parse: there is a strictly increasing choice
      idx of call positions, holding every parsable position and only
      those, such that the j-th entry comes from call idx[j], with its
      parsed arguments and the reason "Model decided to call {name}". */
  lemma {:induction false} ParsedCallsOrder(codec: JsonCodec, calls: seq<ToolCall>) returns (idx: seq<nat>)
    ensures var r := ParsedCalls(codec, calls);
      |idx| == |r|
      && (forall j :: 0 <= j < |idx| ==> idx[j] < |calls| && Parsable(codec, calls[idx[j]]))
      && (forall j :: 0 <= j < |idx| ==>
            r[j] == NeededTool(calls[idx[j]].name, codec.parse(calls[idx[j]].arguments).value,
                               ReasonOpening + calls[idx[j]].name))
      && (forall j, k :: 0 <= j < k < |idx| ==> idx[j] < idx[k])
      && (forall i :: 0 <= i < |calls| && Parsable(codec, calls[i]) ==> i in idx)
    decreases |calls|
  {
    if calls == [] {
      idx := [];
    } else {
      var init := calls[..|calls| - 1];
      var last := calls[|calls| - 1];
      var prev := ParsedCallsOrder(codec, init);
      assert forall j :: 0 <= j < |prev| ==> calls[prev[j]] == init[prev[j]];
      if Parsable(codec, last) {
        idx := prev + [|calls| - 1];
      } else {
        idx := prev;
      }
      forall i | 0 <= i < |calls| && Parsable(codec, calls[i])
        ensures i in idx
      {
        if i < |calls| - 1 {
          assert calls[i] == init[i];
          assert i in prev;
        }
      }
    }
  }

  /** Without tools no request is sent and nothing is needed. */
  lemma DecideWithoutTools(model: string, codec: JsonCodec, session: Option<Host>, userInput: string, w: World)
    requires AvailableTools(session, None) == []
    ensures Decide(model, codec, session, userInput, w) == ([], w)
  {
  }

  /** With tools, exactly one request is sent, the decide payload, and a
      call that raises or a response without a message gives nothing. */
  lemma DecideSendsOneRequest(model: string, codec: JsonCodec, session: Option<Host>, userInput: string, w: World)
    requires AvailableTools(session, None) != []
    ensures var d := Decide(model, codec, session, userInput, w);
      d.1.requests == w.requests + [DecidePayload(model, userInput, AvailableTools(session, None))]
      && d.1.script == (if w.script == [] then [] else w.script[1..])
      && (w.script == [] || w.script[0].Raise? || FirstTurn(w.script[0].response).Err? ==> d.0 == [])
  {
  }

  // ---------------------------------------------------------------------
  // process_message

  /** One entry of `tool_results`. */
  datatype ToolResult = ToolResult(tool: string, result: string)

  /** The `tool_results` list: each needed tool called in order, paired
      with the text it returned. */
  function ToolResults(session: Option<Host>, needed: seq<NeededTool>): seq<ToolResult>
    decreases |needed|
  {
    if needed == [] then []
    else
      var n := needed[|needed| - 1];
      ToolResults(session, needed[..|needed| - 1]) + [ToolResult(n.name, GatewayResult(session, n.name, n.arguments))]
  }

  function NeededInvocations(needed: seq<NeededTool>): seq<Invocation>
    decreases |needed|
  {
    if needed == [] then []
    else
      var n := needed[|needed| - 1];
      NeededInvocations(needed[..|needed| - 1]) + [Invocation(n.name, n.arguments)]
  }

  /** Every needed tool is run once, in order, and its gateway result is
      recorded under its name. */
  lemma {:induction false} ToolResultsPointwise(session: Option<Host>, needed: seq<NeededTool>)
    ensures |ToolResults(session, needed)| == |NeededInvocations(needed)| == |needed|
    ensures forall i :: 0 <= i < |needed| ==>
      ToolResults(session, needed)[i] == ToolResult(needed[i].name, GatewayResult(session, needed[i].name, needed[i].arguments))
      && NeededInvocations(needed)[i] == Invocation(needed[i].name, needed[i].arguments)
    decreases |needed|
  {
    if needed != [] {
      ToolResultsPointwise(session, needed[..|needed| - 1]);
    }
  }

  const ResultsHeader := "Tool execution results:\n\n"

  function ResultEntry(tr: ToolResult): string
  {
    "Tool: " + tr.tool + "\nResult: " + tr.result + "\n\n"
  }

  function ResultEntries(results: seq<ToolResult>): string
    decreases |results|
  {
    if results == [] then "" else ResultEntries(results[..|results| - 1]) + ResultEntry(results[|results| - 1])
  }

  /** The text of the tool-context message. */
  function ToolContext(results: seq<ToolResult>): string
  {
    ResultsHeader + ResultEntries(results)
  }

  /** The entries of consecutive result lists follow each other. */
  lemma {:induction false} ResultEntriesAppend(a: seq<ToolResult>, b: seq<ToolResult>)
    ensures ResultEntries(a + b) == ResultEntries(a) + ResultEntries(b)
    decreases |b|
  {
    if b == [] {
      assert a + b == a;
    } else {
      var b0 := b[..|b| - 1];
      var y := b[|b| - 1];
      assert (a + b)[..|a + b| - 1] == a + b0;
      assert (a + b)[|a + b| - 1] == y;
      assert ResultEntries(a + b) == ResultEntries(a + b0) + ResultEntry(y);
      ResultEntriesAppend(a, b0);
      assert ResultEntries(b) == ResultEntries(b0) + ResultEntry(y);
      ConcatAssociates(ResultEntries(a), ResultEntries(b0), ResultEntry(y));
    }
  }

  lemma ConcatAssociates(x: string, y: string, z: string)
    ensures (x + y) + z == x + (y + z)
  {
  }

  lemma SingleResultEntries(x: ToolResult)
    ensures ResultEntries([x]) == ResultEntry(x)
  {
    assert [x][..0] == [];
  }

  lemma EntriesAround(pre: seq<ToolResult>, x: ToolResult, post: seq<ToolResult>)
    ensures ResultEntries(pre + [x] + post) == ResultEntries(pre) + ResultEntry(x) + ResultEntries(post)
  {
    assert pre + [x] + post == pre + ([x] + post);
    ResultEntriesAppend(pre, [x] + post);
    ResultEntriesAppend([x], post);
    SingleResultEntries(x);
  }

  /** The context opens with the header and then lists every result, as
      "Tool: {t}\nResult: {r}\n\n", in order: result i is followed directly
      by the entries of the results after it. */
  lemma ToolContextLayout(results: seq<ToolResult>, i: nat)
    requires i < |results|
    ensures IsPrefix(ResultsHeader, ToolContext(results))
    ensures ToolContext(results)
            == ResultsHeader + ResultEntries(results[..i]) + ResultEntry(results[i]) + ResultEntries(results[i + 1..])
  {
    var pre := results[..i];
    var x := results[i];
    var post := results[i + 1..];
    assert results == pre + [x] + post;
    EntriesAround(pre, x, post);
    PrefixOfConcat(ResultsHeader, ResultEntries(results));
  }

  /** The messages of the final request: always a system message, even
      with empty instructions, then the history, then the tool context
      when any tool ran. */
  function FinalMessages(system: string, history: seq<Message>, results: seq<ToolResult>): seq<Message>
  {
    [System(system)] + history + (if results != [] then [User(ToolContext(results))] else [])
  }

  function FinalPayload(model: string, messages: seq<Message>): (r: Request)
    ensures r.model == model && r.messages == messages
    ensures r.temperature == 0.7 && r.maxTokens == 2000 && r.tools.None? && r.toolChoice.None?
  {
    Request(model, messages, 0.7, 2000, None, None)
  }

  /** How a turn ends: the returned content (None allowed), or the text of
      the exception the final call raised. */
  function FinalOutcome(c: Result<Response, string>): (r: Result<Option<string>, string>)
    ensures r.Ok? <==> c.Ok? && FirstTurn(c.value).Ok?
    ensures r.Ok? ==> r.value == FirstTurn(c.value).value.content
    ensures c.Err? ==> r == Err(c.error)
  {
    if c.Err? then Err(c.error)
    else
      match FirstTurn(c.value)
      case Err(e) => Err(e)
      case Ok(turn) => Ok(turn.content)
  }

  datatype TurnOutcome = TurnOutcome(reply: Option<string>, world: World, history: seq<Message>)

  /** The assistant entry recorded for a returned content. */
  function AssistantEntry(content: Option<string>): Message
  {
    if content.Some? then Assistant(content.value) else AssistantNull
  }

  /** process_message on a history and a World. */
  function Turn(model: string, codec: JsonCodec, session: Option<Host>, system: string,
                history: seq<Message>, userInput: string, w: World): TurnOutcome
  {
    var h := history + [User(userInput)];
    var d := Decide(model, codec, session, userInput, w);
    var results := ToolResults(session, d.0);
    var w1 := d.1.(invocations := d.1.invocations + NeededInvocations(d.0));
    var c := Call(FinalPayload(model, FinalMessages(system, h, results)), w1);
    match FinalOutcome(c.0)
    case Ok(content) => TurnOutcome(content, c.1, h + [AssistantEntry(content)])
    case Err(e) => TurnOutcome(Some("Error: " + e), c.1, h)
  }

  // ---------------------------------------------------------------------
  // Properties of a turn

  /** The history gains the user turn and, only on success, an entry
      holding the returned content; a failure returns "Error: " and the
      exception's text. */
  lemma TurnHistory(model: string, codec: JsonCodec, session: Option<Host>, system: string,
                    history: seq<Message>, userInput: string, w: World)
    ensures var t := Turn(model, codec, session, system, history, userInput, w);
      var n := |history|;
      t.history[..n] == history && |t.history| > n && t.history[n] == User(userInput)
      && (|t.history| == n + 2 ==> t.history[n + 1] == AssistantEntry(t.reply))
      && (|t.history| == n + 1 ==> exists e :: t.reply == Some("Error: " + e))
      && (n + 1 <= |t.history| <= n + 2)
    ensures var h := history + [User(userInput)];
      var d := Decide(model, codec, session, userInput, w);
      var w1 := d.1.(invocations := d.1.invocations + NeededInvocations(d.0));
      var c := Call(FinalPayload(model, FinalMessages(system, h, ToolResults(session, d.0))), w1);
      var t := Turn(model, codec, session, system, history, userInput, w);
      (FinalOutcome(c.0).Ok? <==> t.history == h + [AssistantEntry(t.reply)])
      && (FinalOutcome(c.0).Ok? ==> t.reply == FinalOutcome(c.0).value)
      && (FinalOutcome(c.0).Err? ==> t.history == h && t.reply == Some("Error: " + FinalOutcome(c.0).error))
  {
    var t := Turn(model, codec, session, system, history, userInput, w);
    var h := history + [User(userInput)];
    var d := Decide(model, codec, session, userInput, w);
    var results := ToolResults(session, d.0);
    var w1 := d.1.(invocations := d.1.invocations + NeededInvocations(d.0));
    var c := Call(FinalPayload(model, FinalMessages(system, h, results)), w1);
    if FinalOutcome(c.0).Err? {
      assert t.reply == Some("Error: " + FinalOutcome(c.0).error);
    }
  }

  /** Every needed tool reaches the gateway once, in order, and nothing
      else does; the final request is the last one sent and carries the
      system message, the history with the user turn, and the tool
      context exactly when a tool ran. */
  lemma TurnRequests(model: string, codec: JsonCodec, session: Option<Host>, system: string,
                     history: seq<Message>, userInput: string, w: World)
    ensures var t := Turn(model, codec, session, system, history, userInput, w);
      var needed := Decide(model, codec, session, userInput, w).0;
      var results := ToolResults(session, needed);
      var h := history + [User(userInput)];
      var m := FinalMessages(system, h, results);
      |t.world.requests| > 0
      && t.world.requests[|t.world.requests| - 1].messages == m
      && t.world.requests[|t.world.requests| - 1].temperature == 0.7
      && t.world.requests[|t.world.requests| - 1].tools.None?
      && t.world.invocations == w.invocations + NeededInvocations(needed)
      && |m| >= |h| + 1 && m[0] == System(system) && m[1..|h| + 1] == h
      && (|needed| > 0 <==> |m| == |h| + 2)
      && (|needed| > 0 ==> m[|h| + 1] == User(ToolContext(results)))
  {
    var needed := Decide(model, codec, session, userInput, w).0;
    ToolResultsPointwise(session, needed);
    var results := ToolResults(session, needed);
    var h := history + [User(userInput)];
    var m := FinalMessages(system, h, results);
    assert m[1..|h| + 1] == h;
  }

  /** Without a session nothing is decided or run, and an endpoint error on
      the final call is returned at once: there is no retry. */
  lemma NoRetry(model: string, codec: JsonCodec, system: string,
                history: seq<Message>, userInput: string, w: World, e: string)
    requires w.script != [] && w.script[0] == Raise(e)
    ensures var t := Turn(model, codec, None, system, history, userInput, w);
      t.reply == Some("Error: " + e) && t.history == history + [User(userInput)]
      && t.world == w.(script := w.script[1..], requests := w.requests + [t.world.requests[|w.requests|]])
      && |t.world.requests| == |w.requests| + 1
  {
  }

  /** A reply with one call (single result) folds that result into the
      context as "Tool: {name}\nResult: {r}\n\n" after the header. */
  lemma SingleResultContext(tool: string, result: string)
    ensures ToolContext([ToolResult(tool, result)])
            == ResultsHeader + ("Tool: " + tool + "\nResult: " + result + "\n\n")
  {
    var rs := [ToolResult(tool, result)];
    assert rs[..0] == [];
    assert ResultEntries(rs) == "" + ResultEntry(rs[0]);
    assert "" + ResultEntry(rs[0]) == ResultEntry(rs[0]);
  }

  // ---------------------------------------------------------------------
  // The agent

  class LocalYouTubeAgent {
    const model: string
    const codec: JsonCodec
    const session: Option<Host>
    const systemInstructions: string
    var history: seq<Message>
    var script: seq<Reply>
    var requests: seq<Request>
    var invocations: seq<Invocation>

    function Env(): World
      reads this
    {
      World(script, requests, invocations)
    }

    constructor(model: string, codec: JsonCodec, session: Option<Host>, systemInstructions: string, script: seq<Reply>)
      ensures this.model == model && this.codec == codec && this.session == session
      ensures this.systemInstructions == systemInstructions
      ensures history == [] && Env() == World(script, [], [])
    {
      this.model := model;
      this.codec := codec;
      this.session := session;
      this.systemInstructions := systemInstructions;
      this.history := [];
      this.script := script;
      this.requests := [];
      this.invocations := [];
    }

    /** call_mcp_tool: never fails; the call is recorded. */
    method CallMcpTool(name: string, arguments: Json) returns (r: string)
      modifies this
      ensures r == GatewayResult(session, name, arguments)
      ensures invocations == old(invocations) + [Invocation(name, arguments)]
      ensures history == old(history) && script == old(script) && requests == old(requests)
    {
      invocations := invocations + [Invocation(name, arguments)];
      if session.None? {
        return NoSessionText;
      }
      match session.value.call(name, arguments) {
        case CallRaised(e) =>
          r := "Error calling tool " + name + ": " + e;
        case CallReturned(items) =>
          if |items| == 0 {
            r := NoContentText;
          } else if items[0].text.Some? {
            r := items[0].text.value;
          } else {
            r := items[0].repr;
          }
      }
    }

    /** get_available_tools_for_function_calling: every listed tool,
        converted, in order; nothing without a session or when listing
        raises. */
    method GetAvailableTools() returns (tools: seq<FunctionTool>)
      ensures tools == AvailableTools(session, None)
      ensures session.None? || session.value.listing.ListRaised? ==> tools == []
      ensures session.Some? && session.value.listing.Listed? ==>
        var ts := session.value.listing.tools;
        |tools| == |ts| && forall i :: 0 <= i < |ts| ==> tools[i] == ToFunctionTool(ts[i])
    {
      if session.None? {
        return [];
      }
      match session.value.listing {
        case ListRaised(_) =>
          return [];
        case Listed(ts) =>
          tools := [];
          for i := 0 to |ts|
            invariant tools == ConvertListed(ts[..i], None)
          {
            assert ts[..i + 1][..i] == ts[..i];
            var t := ts[i];
            tools := tools + [FunctionTool(t.name, t.description, Parameters(t))];
          }
          assert ts[..|ts|] == ts;
          NothingDroppedWithoutHintOrWithYoutube(ts, None);
      }
    }

    /** One call of the endpoint. */
    method CreateCompletion(payload: Request) returns (c: Result<Response, string>)
      modifies this
      ensures (c, Env()) == Call(payload, old(Env()))
      ensures history == old(history)
    {
      requests := requests + [payload];
      if script == [] {
        return Err(ScriptExhausted);
      }
      var reply := script[0];
      script := script[1..];
      match reply {
        case Raise(e) => c := Err(e);
        case Respond(r) => c := Ok(r);
      }
    }

    /** decide_tools_needed. */
    method DecideToolsNeeded(userInput: string) returns (needed: seq<NeededTool>)
      modifies this
      ensures (needed, Env()) == Decide(model, codec, session, userInput, old(Env()))
      ensures history == old(history)
    {
      var tools := GetAvailableTools();
      if tools == [] {
        return [];
      }
      var c := CreateCompletion(DecidePayload(model, userInput, tools));
      if c.Err? {
        return [];
      }
      var first := FirstTurn(c.value);
      if first.Err? {
        return [];
      }
      var calls := first.value.toolCalls;
      needed := [];
      for i := 0 to |calls|
        invariant needed == ParsedCalls(codec, calls[..i])
      {
        assert calls[..i + 1][..i] == calls[..i];
        var parsed := codec.parse(calls[i].arguments);
        if parsed.None? {
          continue;
        }
        needed := needed + [NeededTool(calls[i].name, parsed.value, ReasonOpening + calls[i].name)];
      }
      assert calls[..|calls|] == calls;
    }

    /** The tool-context message text, built entry by entry. */
    method BuildToolContext(results: seq<ToolResult>) returns (context: string)
      ensures context == ToolContext(results)
    {
      context := ResultsHeader;
      for i := 0 to |results|
        invariant context == ResultsHeader + ResultEntries(results[..i])
      {
        assert results[..i + 1][..i] == results[..i];
        context := context + ("Tool: " + results[i].tool + "\nResult: " + results[i].result + "\n\n");
      }
      assert results[..|results|] == results;
    }

    /** The tool loop of process_message: every needed tool is run once,
        in order, and its result recorded under its name. */
    method RunNeededTools(needed: seq<NeededTool>) returns (results: seq<ToolResult>)
      modifies this
      ensures results == ToolResults(session, needed)
      ensures invocations == old(invocations) + NeededInvocations(needed)
      ensures history == old(history) && script == old(script) && requests == old(requests)
    {
      results := [];
      for i := 0 to |needed|
        invariant results == ToolResults(session, needed[..i])
        invariant invocations == old(invocations) + NeededInvocations(needed[..i])
        invariant history == old(history) && script == old(script) && requests == old(requests)
      {
        assert needed[..i + 1][..i] == needed[..i];
        var output := CallMcpTool(needed[i].name, needed[i].arguments);
        results := results + [ToolResult(needed[i].name, output)];
      }
      assert needed[..|needed|] == needed;
    }

    /** process_message. */
    method ProcessMessage(userInput: string) returns (reply: Option<string>)
      modifies this
      ensures var t := Turn(model, codec, session, systemInstructions, old(history), userInput, old(Env()));
        reply == t.reply && history == t.history && Env() == t.world
    {
      history := history + [User(userInput)];
      var needed := DecideToolsNeeded(userInput);
      var results := RunNeededTools(needed);
      var messages := [System(systemInstructions)] + history;
      if results != [] {
        var context := BuildToolContext(results);
        messages := messages + [User(context)];
      }
      assert messages == FinalMessages(systemInstructions, history, results);
      var c := CreateCompletion(FinalPayload(model, messages));
      match FinalOutcome(c) {
        case Ok(content) =>
          history := history + [AssistantEntry(content)];
          reply := content;
        case Err(e) =>
          reply := Some("Error: " + e);
      }
    }
  }
}
