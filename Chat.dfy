/** The data both agents exchange with the chat-completion endpoint and with
    the tool host (local_agent.py and main_local.py), the tool gateway's
    result contract, and the conversion of the tool host's catalogue into
    function-calling tool definitions. */
module Chat {
  import opened Wrappers
  import opened Text

  /** Structured data as json.loads produces it. */
  datatype Json =
    | JNull
    | JBool(b: bool)
    | JInt(i: int)
    | JStr(s: string)
    | JArr(items: seq<Json>)
    | JObj(members: seq<(string, Json)>)

  /** json.loads (None when it raises JSONDecodeError) and json.dumps; their
      grammar is not part of this model. */
  datatype JsonCodec = JsonCodec(parse: string -> Option<Json>, dump: Json -> string)

  /** The empty object `{}`. */
  const EmptyObject: Json := JObj([])

  /** One tool call requested by the model: its correlation id, the tool's
      name and the raw, still-encoded argument payload. */
  datatype ToolCall = ToolCall(id: string, name: string, arguments: string)

  /** The assistant's message in a completion choice: its content (None
      allowed) and its tool calls (a missing list reads as empty). */
  datatype AssistantTurn = AssistantTurn(content: Option<string>, toolCalls: seq<ToolCall>)

  /** One completion choice; its message may be missing. */
  datatype Choice = Choice(message: Option<AssistantTurn>)

  /** What a successful chat-completion call returns: its `choices`
      attribute (missing, or a list whose entries may be None) and `raw`,
      the response's printed form, echoed in diagnostics. */
  datatype Response = Response(choices: Option<seq<Option<Choice>>>, raw: string)

  /** One step of the endpoint's script: the call raises with this text, or
      it returns a response. */
  datatype Reply = Raise(error: string) | Respond(response: Response)

  /** What calling the endpoint raises once its script is used up. */
  const ScriptExhausted := "No responses left for fake completions"

  /** A tool call as the agent echoes it back in the conversation trace
      (`{"id", "type": "function", "function": {"name", "arguments"}}`). */
  datatype SerializedCall = SerializedCall(id: string, name: string, arguments: string)

  /** A role-tagged chat message. AssistantNull is the assistant entry whose
      content is None. */
  datatype Message =
    | System(content: string)
    | User(content: string)
    | Assistant(content: string)
    | AssistantNull
    | AssistantCalls(content: string, toolCalls: seq<SerializedCall>)
    | Tool(toolCallId: string, name: string, content: string)

  /** A tool definition in the function-calling format. */
  datatype FunctionTool = FunctionTool(name: string, description: string, parameters: Json)

  /** A chat-completion request; `tools` and `toolChoice` are None when the
      keys are absent from the payload. */
  datatype Request = Request(
    model: string,
    messages: seq<Message>,
    temperature: real,
    maxTokens: int,
    tools: Option<seq<FunctionTool>>,
    toolChoice: Option<string>)

  /** One item of a tool result's content list: its `text` attribute when
      that is a string, and its printed form. */
  datatype ContentItem = ContentItem(text: Option<string>, repr: string)

  /** What the tool host's call_tool does: raise with a text, or return a
      (possibly empty) content list. */
  datatype CallOutcome = CallRaised(error: string) | CallReturned(content: seq<ContentItem>)

  /** A tool as the tool host lists it. */
  datatype ToolDescriptor = ToolDescriptor(name: string, description: string, inputSchema: Option<Json>)

  /** What the tool host's list_tools does. */
  datatype Listing = ListRaised(error: string) | Listed(tools: seq<ToolDescriptor>)

  /** An open session with the tool host: its catalogue and its tools. */
  datatype Host = Host(listing: Listing, call: (string, Json) -> CallOutcome)

  /** One call that reached the gateway. */
  datatype Invocation = Invocation(name: string, arguments: Json)

  const NoSessionText := "Error: MCP server not available"
  const NoContentText := "Tool executed but returned no content"

  /** The text call_mcp_tool returns. It never raises: no session gives a
      fixed error text, a raising tool gives "Error calling tool {name}: {e}",
      and a result gives its first item's text, or that item printed, or a
      fixed "no content" text. */
  function GatewayResult(session: Option<Host>, name: string, arguments: Json): (r: string)
    ensures session.None? ==> r == NoSessionText
    ensures session.Some? && session.value.call(name, arguments).CallRaised? ==>
      r == "Error calling tool " + name + ": " + session.value.call(name, arguments).error
    ensures session.Some? && session.value.call(name, arguments) == CallReturned([]) ==>
      r == NoContentText
    ensures session.Some? && session.value.call(name, arguments).CallReturned?
            && |session.value.call(name, arguments).content| > 0 ==>
      var first := session.value.call(name, arguments).content[0];
      r == if first.text.Some? then first.text.value else first.repr
  {
    if session.None? then NoSessionText
    else
      match session.value.call(name, arguments)
      case CallRaised(e) => "Error calling tool " + name + ": " + e
      case CallReturned(items) =>
        if |items| == 0 then NoContentText
        else if items[0].text.Some? then items[0].text.value
        else items[0].repr
  }

  // ---------------------------------------------------------------------
  // Tool listing

  const TranscriptTool := "fetch_video_transcript"

  /** The schema substituted when a tool has no (or an empty) inputSchema:
      {"type": "object", "properties": {}, "required": []}. */
  const DefaultSchema: Json :=
    JObj([("type", JStr("object")), ("properties", JObj([])), ("required", JArr([]))])

  /** Python truthiness of a JSON value. */
  predicate Truthy(j: Json)
  {
    match j
    case JNull => false
    case JBool(b) => b
    case JInt(i) => i != 0
    case JStr(s) => s != ""
    case JArr(items) => items != []
    case JObj(members) => members != []
  }

  function Parameters(t: ToolDescriptor): (p: Json)
    ensures Truthy(p)
    ensures t.inputSchema.Some? && Truthy(t.inputSchema.value) ==> p == t.inputSchema.value
  {
    if t.inputSchema.Some? && Truthy(t.inputSchema.value) then t.inputSchema.value else DefaultSchema
  }

  function ToFunctionTool(t: ToolDescriptor): FunctionTool
  {
    FunctionTool(t.name, t.description, Parameters(t))
  }

  /** The eight prefixes the pattern https?://(?:www\.)?(?:youtube\.com|youtu\.be)/ matches. */
  const YoutubePrefixes: seq<string> := [
    "http://youtube.com/", "http://www.youtube.com/", "http://youtu.be/", "http://www.youtu.be/",
    "https://youtube.com/", "https://www.youtube.com/", "https://youtu.be/", "https://www.youtu.be/"]

  /** The YouTube URL pattern matches at index i of text. */
  predicate YoutubeAt(text: string, i: nat)
  {
    exists k :: 0 <= k < |YoutubePrefixes| && OccursAt(text, YoutubePrefixes[k], i)
  }

  /** re.search for the YouTube URL pattern, scanning from index `from`. */
  function YoutubeFrom(text: string, from: nat): (b: bool)
    requires from <= |text|
    ensures b <==> exists i :: from <= i <= |text| && YoutubeAt(text, i)
    decreases |text| - from
  {
    if YoutubeAt(text, from)
    then true
    else if from == |text| then false
    else YoutubeFrom(text, from + 1)
  }

  /** _contains_youtube_url: the text contains, anywhere, an http or https
      link to youtube.com or youtu.be, with or without "www.". */
  function ContainsYoutubeUrl(text: string): (b: bool)
    ensures b <==> exists i :: 0 <= i <= |text| && YoutubeAt(text, i)
  {
    YoutubeFrom(text, 0)
  }

  /** The transcript tool is offered unless a hint is given that holds no
      YouTube URL; every other tool is always offered. */
  predicate Offered(t: ToolDescriptor, hint: Option<string>)
  {
    !(t.name == TranscriptTool && hint.Some? && !ContainsYoutubeUrl(hint.value))
  }

  /** The converted, filtered catalogue, in catalogue order. */
  function ConvertListed(ts: seq<ToolDescriptor>, hint: Option<string>): (r: seq<FunctionTool>)
    decreases |ts|
  {
    if ts == [] then []
    else
      var last := ts[|ts| - 1];
      ConvertListed(ts[..|ts| - 1], hint) + (if Offered(last, hint) then [ToFunctionTool(last)] else [])
  }

  /** get_available_tools_for_function_calling: nothing without a session or
      when listing raises, else the converted, filtered catalogue. */
  function AvailableTools(session: Option<Host>, hint: Option<string>): seq<FunctionTool>
  {
    if session.None? then []
    else
      match session.value.listing
      case ListRaised(_) => []
      case Listed(ts) => ConvertListed(ts, hint)
  }

  /** The i-th tool of the catalogue is offered and converts to f. */
  predicate SelectedAt(ts: seq<ToolDescriptor>, hint: Option<string>, i: int, f: FunctionTool)
  {
    0 <= i < |ts| && Offered(ts[i], hint) && f == ToFunctionTool(ts[i])
  }

  /** f is the conversion of some offered tool of the catalogue. */
  ghost predicate Selected(ts: seq<ToolDescriptor>, hint: Option<string>, f: FunctionTool)
  {
    exists i :: SelectedAt(ts, hint, i, f)
  }

  /** Every result of the conversion comes from an offered tool of the
      catalogue, and there are never more results than tools. */
  lemma {:induction false} ConvertListedSelects(ts: seq<ToolDescriptor>, hint: Option<string>)
    ensures |ConvertListed(ts, hint)| <= |ts|
    ensures forall j :: 0 <= j < |ConvertListed(ts, hint)| ==> Selected(ts, hint, ConvertListed(ts, hint)[j])
    decreases |ts|
  {
    if ts != [] {
      var init := ts[..|ts| - 1];
      var last := ts[|ts| - 1];
      var prev := ConvertListed(init, hint);
      ConvertListedSelects(init, hint);
      var r := ConvertListed(ts, hint);
      assert r == prev + (if Offered(last, hint) then [ToFunctionTool(last)] else []);
      forall j | 0 <= j < |r|
        ensures Selected(ts, hint, r[j])
      {
        if j < |prev| {
          var i :| SelectedAt(init, hint, i, prev[j]);
          assert ts[i] == init[i] && r[j] == prev[j];
          assert SelectedAt(ts, hint, i, r[j]);
        } else {
          assert SelectedAt(ts, hint, |ts| - 1, r[j]);
        }
      }
    }
  }

  /** The conversion is the conversion of the catalogue's offered tools:
      it keeps them all, in catalogue order. */
  lemma {:induction false} ConvertListedKeepsOffered(ts: seq<ToolDescriptor>, hint: Option<string>)
    ensures ConvertListed(ts, hint) == ConvertListed(FilterOffered(ts, hint), hint)
    decreases |ts|
  {
    if ts != [] {
      var init := ts[..|ts| - 1];
      var last := ts[|ts| - 1];
      ConvertListedKeepsOffered(init, hint);
      var fi := FilterOffered(init, hint);
      if Offered(last, hint) {
        assert FilterOffered(ts, hint) == fi + [last];
        assert (fi + [last])[..|fi|] == fi;
      } else {
        assert FilterOffered(ts, hint) == fi;
      }
    }
  }

  /** The offered tools of a catalogue, in order. */
  function FilterOffered(ts: seq<ToolDescriptor>, hint: Option<string>): (r: seq<ToolDescriptor>)
    ensures forall i :: 0 <= i < |r| ==> Offered(r[i], hint)
    decreases |ts|
  {
    if ts == [] then []
    else
      var last := ts[|ts| - 1];
      FilterOffered(ts[..|ts| - 1], hint) + (if Offered(last, hint) then [last] else [])
  }

  /** When every tool is offered, the conversion keeps all of them, one to one and in order. */
  lemma {:induction false} OfferedAllKept(ts: seq<ToolDescriptor>, hint: Option<string>)
    requires forall i :: 0 <= i < |ts| ==> Offered(ts[i], hint)
    ensures |ConvertListed(ts, hint)| == |ts|
    ensures forall i :: 0 <= i < |ts| ==> ConvertListed(ts, hint)[i] == ToFunctionTool(ts[i])
    decreases |ts|
  {
    if ts != [] {
      OfferedAllKept(ts[..|ts| - 1], hint);
    }
  }

  /** Without a hint, or with a hint that holds a YouTube URL, nothing is dropped. */
  lemma NothingDroppedWithoutHintOrWithYoutube(ts: seq<ToolDescriptor>, hint: Option<string>)
    requires hint.None? || ContainsYoutubeUrl(hint.value)
    ensures |ConvertListed(ts, hint)| == |ts|
    ensures forall i :: 0 <= i < |ts| ==> ConvertListed(ts, hint)[i] == ToFunctionTool(ts[i])
  {
    OfferedAllKept(ts, hint);
  }

  /** A hint without a YouTube URL drops the transcript tool and only it. */
  lemma {:induction false} TranscriptDroppedWithoutYoutube(ts: seq<ToolDescriptor>, hint: string)
    requires !ContainsYoutubeUrl(hint)
    ensures forall j :: 0 <= j < |ConvertListed(ts, Some(hint))| ==>
      ConvertListed(ts, Some(hint))[j].name != TranscriptTool
    ensures (forall i :: 0 <= i < |ts| ==> ts[i].name != TranscriptTool) ==>
      ConvertListed(ts, Some(hint)) == ConvertListed(ts, None)
    decreases |ts|
  {
    if ts != [] {
      TranscriptDroppedWithoutYoutube(ts[..|ts| - 1], hint);
    }
  }

  /** The regex does not depend on text outside a match: a link to
      youtu.be anywhere in the text is found. */
  lemma YoutubeFoundInside(before: string, after: string)
    ensures ContainsYoutubeUrl(before + "https://youtu.be/" + after)
  {
    var t := before + "https://youtu.be/" + after;
    assert t[|before|..|before| + |YoutubePrefixes[6]|] == YoutubePrefixes[6];
    assert YoutubeAt(t, |before|);
  }
}
