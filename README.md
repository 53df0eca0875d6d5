# Content agent: a verified model of the tool-calling loop and the content server

The repository is a small chat agent with two parts. One part talks to an OpenAI-compatible chat-completion endpoint, either local or OpenAI's. The other is a tool server that offers tools over MCP (the Model Context Protocol). This project models three parts of it in Dafny and proves properties of each model.

1. The multi-round tool-calling loop of `LocalContentAgent` (local_agent.py). It covers:
   - `process_message`, together with its repeated-call stall detection;
   - the bounded retry wrapper `_create_chat_completion`;
   - the error formatters and `_select_first_choice`;
   - the tool gateway `call_mcp_tool`;
   - the tool listing, with its YouTube-URL filter of the transcript tool;
   - `reset_conversation`.
2. The earlier single-shot agent `LocalYouTubeAgent` (main_local.py). It makes one "decide tools" request, runs every parsed call in order, folds the results into one `Tool execution results:` message, and makes one final request.
3. The text helpers of the tool server (mcp-server/content_mcp.py). These are:
   - `_normalise_text`;
   - the `_HTMLTextExtractor` state machine and its `get_text`;
   - the clamping, truncation and suffix dispatch of `read_file`;
   - the scheme check, timeout clamp and truncation of `fetch_web_content`;
   - the order in which `_read_doc_file` tries its extractors;
   - the deduplicating `.doc` fallback `_extract_doc_basic`.

Where the source updates state step by step, the model is imperative: a class with fields, `modifies` clauses and loops with invariants. This covers:
- the agents' histories and their logs of requests, pauses and tool calls;
- the extractor's token buffer and skip depth;
- the `get_text` loop;
- the deduplication loop of the `.doc` fallback;
- the list-building loops of the agents.

Each such method is proved equal to a specification function. The lemmas then prove the source's promises about that function. Pure code (the formatters, `_normalise_text`, the clamps) is modelled as functions.

The outside world becomes values:
- **The chat endpoint** is a finite script of replies. A reply is a response or a raised error, and each call consumes one. An empty script raises a non-retryable error, as the repository's test fakes do. Termination of both loops follows from the shrinking script.
- **The requests sent, the pauses requested and the calls that reached the gateway** are recorded in a `World`.
- **The MCP session** is an optional host. The host maps a tool call to its content items or to the error it raises, and holds a tool listing or the error the listing raises.
- **`json.loads` and `json.dumps`** are an injected codec: a partial parse and a dump.
- **HTML** arrives as the event stream html.parser reports: start tags, end tags and data.
- **A file** is a resolved path, or "missing", or "not a file", together with the text each reader would return.
- **A page download** is a function from URL and timeout to one of four outcomes: the page's events, a socket timeout, another URL error, or an exception that is not a URLError. The last one escapes `fetch_web_content` unchanged.

Files:
- `Wrappers.dfy`: Option and Result.
- `Text.dfy`: the Python string operations the source relies on. These are `str.strip`, `rstrip` and `lstrip` over the `str.isspace` set, `join`, ASCII `lower`, `in`, slicing with negative bounds, and `str(n)`.
- `Chat.dfy`: the shared data model (messages, requests, responses, tool calls, the host), the gateway's result, and the tool conversion and filter.
- `LocalAgent.dfy`: the retry wrapper, the rounds of `process_message`, and the class `LocalContentAgent`.
- `MainLocal.dfy`: decide, run, fold, and the class `LocalYouTubeAgent`.
- `HtmlExtractor.dfy`: the extractor's handlers, `feed`, `get_text`, and the class `HtmlTextExtractor`.
- `ContentServer.dfy`: `_normalise_text`, `read_file`, the `.doc` readers and `fetch_web_content`.

Where the code and the repository's own tests disagree, the model follows the code. The test at tests/test_read_file_tool.py:166 expects a `ValueError` for an unsupported suffix. In the code, that `ValueError` is raised inside the `try` of `read_file` (mcp-server/content_mcp.py:330-347), so it is re-raised as `RuntimeError("Failed to read file ...")`. `ContentServer.ReadFileErrors` states the code's behaviour.

## Model

| member | source | states |
|---|---|---|
| Chat.GatewayResult | local_agent.py:104-121 | call_mcp_tool never raises. With no session it returns "Error: MCP server not available". A raising call gives "Error calling tool {name}: {e}". An empty result gives the fixed "no content" text. Otherwise it gives the first item's text when that is a string, else the printed item. |
| Chat.Parameters | local_agent.py:352-356 | The parameters of a converted tool are its inputSchema when that is present and truthy, otherwise the empty object schema. They are never falsy. |
| Chat.YoutubeFrom | local_agent.py:448-451 | Scanning from an index finds the pattern iff one of the eight URL prefixes occurs at or after that index. |
| Chat.ContainsYoutubeUrl | local_agent.py:448-451 | `_contains_youtube_url` is true iff an http(s) link to youtube.com or youtu.be, with or without "www.", occurs anywhere in the text. |
| Chat.YoutubeFoundInside | local_agent.py:448-451 | A youtu.be link is found whatever text surrounds it. |
| Chat.ConvertListedSelects | local_agent.py:338-359 | Every converted tool is the conversion of an offered tool of the catalogue, and there are never more results than tools. |
| Chat.ConvertListedKeepsOffered | local_agent.py:338-359 | The conversion keeps every offered tool: it equals the conversion of the offered tools, in catalogue order. |
| Chat.FilterOffered | local_agent.py:341-344 | Only offered tools remain after the filter. |
| Chat.OfferedAllKept | local_agent.py:341-359 | When every tool is offered, the conversion is one-to-one and keeps catalogue order. |
| Chat.NothingDroppedWithoutHintOrWithYoutube | local_agent.py:339-344 | Without a hint, or with a hint holding a YouTube URL, no tool is dropped. |
| Chat.TranscriptDroppedWithoutYoutube | local_agent.py:339-344 | A hint without a YouTube URL drops fetch_video_transcript and nothing else. |
| LocalAgent.NonRetryableErrorText | local_agent.py:389-398 | The message opens with "LLM request failed: {error}. " and ends with the configured backend's hint. |
| LocalAgent.ConnectionFailureText | local_agent.py:400-412 | The message opens with "Unable to reach the LLM endpoint at {endpoint} after ". It ends with "Original error: {error}. " and the backend's hint. |
| LocalAgent.MissingChoicesErrorText | local_agent.py:424-435 | The message opens with "LLM returned no choices. Raw response: {raw}. " and ends with the backend's hint. |
| LocalAgent.MissingMessageErrorText | local_agent.py:437-446 | The message opens with "LLM returned a choice without a message payload. Raw response: {raw}. " and ends with the backend's hint. |
| LocalAgent.SelectFirstChoice | local_agent.py:414-422 | It fails iff `choices` is missing or empty, or its first entry is None. The failure carries the "no choices" diagnostic. Otherwise it returns the first choice. |
| LocalAgent.Attempts | local_agent.py:370-387 | The retry loop never touches the tool log and never grows the script. An answered call consumes a reply. |
| LocalAgent.AttemptsLog | local_agent.py:373-384 | Every attempt sends the same payload, and there are at most three attempts. After each transient failure except the last, a pause of min(2, k) is requested. So there is one pause fewer than there are requests. |
| LocalAgent.LoggedAfterRetry | local_agent.py:380-384 | A transient failure adds one request and one pause in front of what the later attempts record. |
| LocalAgent.TransientFailureRetries | local_agent.py:378-384 | A transient failure before the last attempt leads to the next attempt. |
| LocalAgent.RetryRecovers | local_agent.py:373-384 | A transient failure followed by a response returns that response. It takes two requests and one pause of one second. |
| LocalAgent.PermanentErrorAborts | local_agent.py:378-381 | A non-transient error aborts at once with "LLM request failed", even after earlier transient failures. |
| LocalAgent.RetriesExhausted | local_agent.py:382-387 | Three transient failures in a row give the "unable to reach" diagnostic with the last error and 3 attempts. That takes three requests and pauses of 1 and 2 seconds. |
| LocalAgent.AnsweredIff | local_agent.py:370-387 | A completion answers iff a response comes within the first three replies, and every reply before it is a transient failure. |
| LocalAgent.ConnectionErrorIsRetryable | local_agent.py:379 | "Connection error" counts as transient. |
| LocalAgent.BuildPayload | local_agent.py:141-149 | The payload carries the model, the messages, temperature 0.3 and max_tokens 2000. It carries `tools` and `tool_choice` "auto" iff the tool list is non-empty. |
| LocalAgent.ToolRoundPointwise | local_agent.py:163-221 | The signatures, the serialized calls, the tool messages and the gateway calls of a round have one entry per requested call, each in the call's position. |
| LocalAgent.Act | local_agent.py:157-238 | Acting on a message never sends a request and never consumes a reply. |
| LocalAgent.Interpret | local_agent.py:152-155 | Interpreting a response never sends a request and never consumes a reply. |
| LocalAgent.Round | local_agent.py:140-232 | A round that continues the loop has consumed at least one reply, so the loop terminates. |
| LocalAgent.FirstRoundNeverStalls | local_agent.py:137-180 | The first round never stalls. If tools are offered and calls are requested, the calls run. |
| LocalAgent.StallInvokesNothing | local_agent.py:163-180 | A round repeating the previous round's signatures ends the turn and invokes no tool. The answer is the content, or the fixed fallback sentence when the content is empty. |
| LocalAgent.NoToolsAnswersDirectly | local_agent.py:161-238 | Without tools, requested calls are ignored and the content is the final answer. No tool is invoked. |
| LocalAgent.ToolRoundAppends | local_agent.py:182-225 | A non-stalled tool round first appends one assistant message echoing the calls in order. Then it appends one tool message per call, answering the call's id with the gateway's result for the parsed arguments. Each call is invoked once, in request order. |
| LocalAgent.UnparsableArgumentsBecomeEmpty | local_agent.py:198-201 | Arguments that do not parse reach the tool as `{}`. |
| LocalAgent.SignaturesCanCollide | local_agent.py:173-177 | Two different calls can share a signature: "a(" with "(b)" and "a" with "((b)". Such a round counts as a repeat. |
| LocalAgent.TurnHistory | local_agent.py:126-246 | The history gains the user turn. Only when the turn answered does it also gain an assistant entry holding the returned text. A failure returns "Error: " and the diagnostic. Tool messages never enter the history. |
| LocalAgent.FirstRequest | local_agent.py:126-151 | The first request carries the system message (only when the instructions are non-empty), then the history, then the user turn, with the filtered tools. |
| LocalAgent.RoundSendsMessages | local_agent.py:141-151 | The first request of a round carries that round's messages. |
| LocalAgent.RoundsKeepsFirstRequest | local_agent.py:140-151 | Later rounds leave the first request of the loop unchanged. |
| LocalAgent.FinalRound | local_agent.py:234-238 | A reply without calls ends the turn with its content after one request. |
| LocalAgent.CallRound | local_agent.py:182-232 | A reply with one new call runs it and continues with that call's signature as the previous round. |
| LocalAgent.TwoStagePlan | tests/test_agent_multistep.py:155-168 | One tool, then another, then an answer: both tools are invoked once, in order, and the answer comes after three requests. |
| LocalAgent.RecoversFromConnectionError | tests/test_agent_multistep.py:241-276 | A connection error between two replies is absorbed by a retry with a one-second pause. The turn still answers, and the tool runs once. |
| LocalAgent.ConnectionErrorsEndTurn | local_agent.py:382-387 | Three connection errors end the turn with the "unable to reach" diagnostic. |
| LocalAgent.UnreachableLocalText | local_agent.py:400-412 | On the local backend the reply starts "Error: Unable to reach the LLM endpoint at" and contains the hint to start a local server. |
| LocalAgent.UnreachableEndpointReported | tests/test_agent_multistep.py:306-307 | A local-backend turn whose calls all fail with connection errors replies with the "unable to reach" text and the local-server hint. |
| LocalAgent.NoChoicesEndTurn | local_agent.py:414-418 | A response without choices ends the turn with the "no choices" diagnostic. |
| LocalAgent.NoChoicesText | local_agent.py:424-435 | The reply for a missing choice starts "Error: LLM returned no choices.". |
| LocalAgent.NoChoicesReported | tests/test_agent_multistep.py:337 | A turn whose response has no choices replies with text starting "Error: LLM returned no choices.". |
| LocalAgent.LocalContentAgent.constructor | local_agent.py:47-49 | A new agent has an empty history, the given session and instructions, and empty logs. |
| LocalAgent.LocalContentAgent.ResetConversation | local_agent.py:51-53 | The history is emptied and nothing else changes. |
| LocalAgent.LocalContentAgent.CallMcpTool | local_agent.py:104-121 | The gateway's result. The call is appended to the tool log and nothing else changes. |
| LocalAgent.LocalContentAgent.GetAvailableTools | local_agent.py:327-366 | The converted, filtered catalogue. It is empty without a session or when listing raises. |
| LocalAgent.LocalContentAgent.CreateChatCompletion | local_agent.py:368-387 | The for-loop of attempts computes the retry specification: the same completion and the same requests, pauses and remaining replies. |
| LocalAgent.LocalContentAgent.CallSignatures | local_agent.py:163-174 | The signature list of a round, in call order. |
| LocalAgent.LocalContentAgent.RunToolCalls | local_agent.py:185-221 | The serialized calls and the tool messages of the round. Exactly the round's calls are appended to the tool log. |
| LocalAgent.LocalContentAgent.ProcessMessage | local_agent.py:123-246 | The while-loop computes the turn specification: the same reply, the same new history and the same logs. |
| MainLocal.Call | main_local.py:141-146 | One request without retry: the call sends the payload, consumes one reply, and fails iff that reply raises or no reply is left. |
| MainLocal.FinalOutcome | main_local.py:141-148 | The final call ends well iff the endpoint answered and the answer has a first choice with a message. It then yields that message's content. A raising call gives the call's own error text. |
| MainLocal.FirstTurn | main_local.py:148 | Accessing `choices[0].message` succeeds iff there is a first choice with a message, and then yields that message. |
| MainLocal.DecidePayload | main_local.py:172-188 | The decide request carries the fixed system prompt and the user input, all tools with "auto", temperature 0.1 and max_tokens 500. |
| MainLocal.Decide | main_local.py:158-230 | Deciding invokes no tool. |
| MainLocal.ParsedCallsOrder | main_local.py:195-222 | The needed tools are the parsable calls in model order, no others. Each carries the call's name, its parsed arguments and the reason "Model decided to call {name}". |
| MainLocal.DecideWithoutTools | main_local.py:164-165 | Without tools, nothing is needed and no request is sent. |
| MainLocal.DecideSendsOneRequest | main_local.py:167-230 | With tools, exactly the decide request is sent. A raising call, or a response without a message, gives nothing. |
| MainLocal.ToolResultsPointwise | main_local.py:115-126 | Every needed tool is run once, in order, and its result is recorded under its name. |
| MainLocal.ResultEntriesAppend | main_local.py:134-136 | The context entries of two consecutive result lists follow each other. |
| MainLocal.ToolContextLayout | main_local.py:133-137 | The context opens with "Tool execution results:\n\n". Result i's entry "Tool: {t}\nResult: {r}\n\n" sits between the entries before it and those after it. |
| MainLocal.SingleResultContext | main_local.py:133-137 | One result gives the header followed by its single entry. |
| MainLocal.FinalPayload | main_local.py:141-146 | The final request carries the messages, temperature 0.7, max_tokens 2000 and no tools. |
| MainLocal.TurnHistory | main_local.py:109-156 | The history gains the user entry. It gains an assistant entry iff the final call ends well, and then the reply is the returned content. When the final call fails, the history holds only the user entry, and the reply is "Error: " followed by that failure's text. |
| MainLocal.TurnRequests | main_local.py:106-146 | Exactly the needed tools reach the gateway, once each, in order. The last request opens with a system message, even for empty instructions. Then come the history and the user turn, plus the tool context exactly when a tool ran. |
| MainLocal.NoRetry | main_local.py:139-156 | Without a session nothing is decided, and an error on the final call is returned at once: one request, no retry. |
| MainLocal.LocalYouTubeAgent.constructor | main_local.py:22-45 | A new agent has an empty history and empty logs. |
| MainLocal.LocalYouTubeAgent.CallMcpTool | main_local.py:88-104 | The gateway's result. The call is appended to the tool log and nothing else changes. |
| MainLocal.LocalYouTubeAgent.GetAvailableTools | main_local.py:232-266 | Every listed tool, converted, in order, with no filter. The list is empty without a session or when listing raises. |
| MainLocal.LocalYouTubeAgent.CreateCompletion | main_local.py:141-146 | One endpoint call, as Call specifies. |
| MainLocal.LocalYouTubeAgent.DecideToolsNeeded | main_local.py:158-230 | The loop over the model's calls computes Decide. |
| MainLocal.LocalYouTubeAgent.BuildToolContext | main_local.py:133-136 | The `+=` loop builds the tool context. |
| MainLocal.LocalYouTubeAgent.RunNeededTools | main_local.py:115-126 | The tool results, with exactly the needed calls appended to the tool log. |
| MainLocal.LocalYouTubeAgent.ProcessMessage | main_local.py:106-156 | The method computes the turn specification: the same reply, the same history and the same logs. |
| Text.RStrip | mcp-server/content_mcp.py:281 | `rstrip` keeps the longest prefix not ending in whitespace, and everything it cuts is whitespace. |
| Text.StripIsSlice | mcp-server/content_mcp.py:283 | `strip` keeps a slice and cuts only whitespace. The slice neither starts nor ends with whitespace. |
| Text.Lower | mcp-server/content_mcp.py:329 | `lower` maps each character, keeping the length. |
| Text.Contains | local_agent.py:379 | `sub in s` is true iff sub occurs at some position. |
| Text.PyPrefix | mcp-server/content_mcp.py:452 | `s[:n]` is the prefix of length min(n, len(s)), counting from the end for a negative n. |
| Text.NatToStringRoundTrip | mcp-server/content_mcp.py:432 | The decimal text of a number reads back as that number. |
| ContentServer.NoCarriageReturnUnchanged | mcp-server/content_mcp.py:280 | Text without '\r' passes both replacements unchanged. |
| ContentServer.ReplaceCr | mcp-server/content_mcp.py:280 | Every '\r' becomes '\n' and nothing else changes. |
| ContentServer.SplitLines | mcp-server/content_mcp.py:281 | No line that `splitlines` yields contains a line break. |
| ContentServer.KeptLines | mcp-server/content_mcp.py:281-282 | The right-stripped, non-empty lines. Each is solid: non-empty and not ending in whitespace. |
| ContentServer.NormaliseTidy | mcp-server/content_mcp.py:279-283 | The normalised text has no '\r' and no empty line. No line has trailing whitespace, and the whole text has none at either end. |
| ContentServer.NormaliseOfTidy | mcp-server/content_mcp.py:279-283 | Text that is already normalised comes back unchanged, e.g. "Line 1\nLine 2" (tests/test_read_file_tool.py:113-119). |
| ContentServer.NormaliseIdempotent | mcp-server/content_mcp.py:279-283 | Normalising twice is normalising once. |
| ContentServer.TidyPieces | mcp-server/content_mcp.py:281-283 | Normalised text splits into solid lines that join back to it. |
| ContentServer.CollapseSpaces | mcp-server/content_mcp.py:244 | Every run of whitespace becomes one space. |
| ContentServer.RemoveNul | mcp-server/content_mcp.py:247 | No NUL remains. |
| ContentServer.ChunkTexts | mcp-server/content_mcp.py:243-247 | One cleaned text per chunk, in chunk order. |
| ContentServer.FirstOccurrences | mcp-server/content_mcp.py:241-251 | A text is kept iff it is non-empty and occurs among the chunk texts. No text is kept twice. |
| ContentServer.FirstOccurrenceOrder | mcp-server/content_mcp.py:243-251 | The kept texts come in the order of their first occurrence. |
| ContentServer.DocFallbackPrefersChunks | mcp-server/content_mcp.py:236-255 | When some chunk has text, the fallback is the distinct chunk texts one per line, and the UTF-16 reading is unused. An empty file gives nothing. |
| ContentServer.DocFallbackWithoutChunks | mcp-server/content_mcp.py:236-258 | An empty file gives nothing. Without chunk text, the fallback is the stripped UTF-16 reading with NULs removed, or nothing when that is empty. |
| ContentServer.DocFallbackTrimmed | mcp-server/content_mcp.py:253-258 | Whatever the fallback returns is non-empty and trimmed. |
| ContentServer.TextractText | mcp-server/content_mcp.py:217-231 | textract's output, stripped, when that is non-empty. Nothing when textract is missing, fails or yields only whitespace. |
| ContentServer.ReadDoc | mcp-server/content_mcp.py:201-214 | textract first, then the fallback. The read fails, with the install hint, iff both give nothing. |
| ContentServer.ReadDocTrimmed | mcp-server/content_mcp.py:201-214 | A readable .doc file gives non-empty, trimmed text. |
| ContentServer.FirstOccurrencesStep | mcp-server/content_mcp.py:248-251 | One more chunk text is appended unless it is empty or already kept. |
| ContentServer.DecodeChunks | mcp-server/content_mcp.py:241-251 | The loop with its `seen` set computes the distinct texts in first-occurrence order. |
| ContentServer.ExtractDocBasic | mcp-server/content_mcp.py:234-258 | The method computes the fallback's result. |
| ContentServer.ReadDocFile | mcp-server/content_mcp.py:201-214 | The method computes ReadDoc, calling the fallback only when textract gives nothing. |
| ContentServer.FinalComponent | mcp-server/content_mcp.py:329 | The final path component is a suffix of the path without '/'. |
| ContentServer.PathSuffix | mcp-server/content_mcp.py:329 | `Path.suffix` is empty, or it is a dot followed by at least one character with no dot or '/', ending the path. |
| ContentServer.SuffixOfExtension | mcp-server/content_mcp.py:329 | stem.ext has the suffix ".ext". |
| ContentServer.ReaderForSupported | mcp-server/content_mcp.py:330-344 | Exactly .txt, .md, .markdown, .docx, .doc and .pdf have a reader. The three text suffixes share one reader. |
| ContentServer.ReadLimit | mcp-server/content_mcp.py:326 | The limit is max_chars clamped to [1, 200000]. |
| ContentServer.DeliverShape | mcp-server/content_mcp.py:349-362 | Empty normalised text gives the fixed sentence. Longer text gives its first `limit` characters and the marker, exactly limit + 16 characters. Any non-empty reply is at most limit + 16 long. |
| ContentServer.DeliverWholeExactlyWhenFits | mcp-server/content_mcp.py:355-362 | For normalised text, the reply is the text itself iff the text fits in the limit. |
| ContentServer.ReadFileErrors | mcp-server/content_mcp.py:308-347 | A missing path raises FileNotFoundError. A non-file raises "Path does not point to a file". An unsupported suffix raises RuntimeError ending in the unsupported-type text. Success needs a file with a supported suffix. |
| ContentServer.ReadFileDispatches | mcp-server/content_mcp.py:329-347 | A file with a supported suffix goes to its reader. |
| ContentServer.ReadFileReadable | mcp-server/content_mcp.py:329-362 | A readable file gives its delivered normalised text. |
| ContentServer.ReadFileDelivers | mcp-server/content_mcp.py:321-362 | A readable file gives its whole normalised text iff it fits the clamped limit, the fixed sentence when it has none, and otherwise a cut text ending in the marker. Never more than limit + 16 characters (tests/test_read_file_tool.py:127-128). |
| ContentServer.ReadFileDocFallbackOrder | mcp-server/content_mcp.py:335-336 | A .doc file fails, as "Failed to read file {path}: " plus the install hint, iff neither textract nor the fallback finds text. |
| ContentServer.LStripC0 | mcp-server/content_mcp.py:419 | urlparse's leading strip keeps a suffix of the URL that does not start with a C0 control or space. |
| ContentServer.RemoveUnsafe | mcp-server/content_mcp.py:419 | No tab, carriage return or line feed is left in the URL. |
| ContentServer.FindColon | mcp-server/content_mcp.py:419 | The first colon, or -1. |
| ContentServer.SchemeOfUrl | mcp-server/content_mcp.py:419 | A URL starting with a well-formed scheme and a colon has that scheme, lower-cased. |
| ContentServer.SchemeCheck | mcp-server/content_mcp.py:419-421 | A URL starting with a well-formed scheme and a colon passes the check iff the scheme, lower-cased, is "http" or "https". |
| ContentServer.WebSchemesAccepted | mcp-server/content_mcp.py:419-421 | "http:", "https:" and "HTTPS:" URLs pass the scheme check, since the scheme is lower-cased. |
| ContentServer.FtpRefused | mcp-server/content_mcp.py:419-421 | "ftp:" URLs are refused (tests/test_fetch_web_content.py:102-104). |
| ContentServer.NoColonNoScheme | mcp-server/content_mcp.py:419-421 | A URL without a colon has no scheme and is refused. |
| ContentServer.FetchTimeout | mcp-server/content_mcp.py:423 | The timeout is clamped to [1, 120]. |
| ContentServer.FetchRefusesOtherSchemes | mcp-server/content_mcp.py:419-421 | Another scheme raises "Only http and https URLs are supported" before any request: the network is not consulted. |
| ContentServer.FetchErrorsReported | mcp-server/content_mcp.py:425-437 | A socket timeout raises exactly "Timed out after {timeout} seconds while fetching the URL", with the clamped timeout. Any other URL error raises exactly "Error fetching URL: {reason}". An exception that is not a URLError passes through with its own text. The fetch succeeds iff the request gives a page. |
| ContentServer.PageReplyTruncation | mcp-server/content_mcp.py:448-458 | No page text gives the fixed sentence. Text within max_chars is returned whole. Longer text is cut to max_chars and marked, so the reply is at most max_chars + 16 long (tests/test_fetch_web_content.py:67-68). |
| ContentServer.ExtractText | mcp-server/content_mcp.py:444-446 | A fresh extractor fed the page's events yields the page text. |
| ContentServer.FetchWebContent | mcp-server/content_mcp.py:406-458 | The method, run with the extractor object, computes the fetch specification. |
| HtmlExtractor.HandleAppends | mcp-server/content_mcp.py:371-388 | A handler appends at most one token, leaves the rest of the buffer alone, and appends only markers or non-empty trimmed text. |
| HtmlExtractor.FeedConcat | mcp-server/content_mcp.py:445 | Feeding two event streams in turn is feeding them joined. |
| HtmlExtractor.FeedRecordsOnlyVisibleData | mcp-server/content_mcp.py:383-388 | A feed only appends. Every text token it adds is the stripped text of a data event that arrived while no script, style or noscript element was open. |
| HtmlExtractor.SkippedDataIgnored | mcp-server/content_mcp.py:384-385 | Data inside a skipped element changes nothing. |
| HtmlExtractor.UnmatchedSkipEndIgnored | mcp-server/content_mcp.py:378-379 | A skipped element's end tag with none open is ignored, so the depth never goes below zero. |
| HtmlExtractor.SkippedElementLeavesNoTrace | mcp-server/content_mcp.py:371-388 | A script, style or noscript element holding only text leaves the extractor as it was. |
| HtmlExtractor.ParagraphTokens | mcp-server/content_mcp.py:374-381 | A paragraph of trimmed text adds a marker, the text and a marker. |
| HtmlExtractor.HeadingTokens | mcp-server/content_mcp.py:374-381 | A top-level heading adds a marker and its text: its end tag adds no marker. |
| HtmlExtractor.NonEmpty | mcp-server/content_mcp.py:402 | Empty lines are dropped. |
| HtmlExtractor.ScanTrimmed | mcp-server/content_mcp.py:393-401 | Every assembled line has no whitespace at either end. |
| HtmlExtractor.TextTrimmed | mcp-server/content_mcp.py:390-402 | get_text's result has no whitespace at either end, for any buffer. |
| HtmlExtractor.ScanRun | mcp-server/content_mcp.py:393-399 | A run of text tokens only extends the open line. |
| HtmlExtractor.MarkerClosesLine | mcp-server/content_mcp.py:394-397 | A marker closes the open line, if there is one. |
| HtmlExtractor.RunAfterMarker | mcp-server/content_mcp.py:393-401 | A run of text tokens after a marker becomes one line, its tokens joined by single spaces. |
| HtmlExtractor.MarkerAddsNoLine | mcp-server/content_mcp.py:394-395 | A marker after a closed line adds no empty line. |
| HtmlExtractor.ParagraphAddsLine | mcp-server/content_mcp.py:393-401 | A paragraph's tokens add its text as one line. |
| HtmlExtractor.HeadingAndParagraphsText | mcp-server/content_mcp.py:390-402 | The buffer of a heading and two paragraphs reads as the three texts on three lines. |
| HtmlExtractor.PageTokens | tests/test_fetch_web_content.py:41-45 | The page's buffer holds the heading opening a line and each paragraph between markers. The style sheet and the script leave nothing. |
| HtmlExtractor.PageText | tests/test_fetch_web_content.py:41-55 | The page reads as "Title\nParagraph 1\nParagraph 2", with any texts in place of those three. |
| HtmlExtractor.HtmlTextExtractor.constructor | mcp-server/content_mcp.py:366-369 | A new extractor has an empty buffer and depth 0. |
| HtmlExtractor.HtmlTextExtractor.HandleStartTag | mcp-server/content_mcp.py:371-375 | The new state is the start-tag step. |
| HtmlExtractor.HtmlTextExtractor.HandleEndTag | mcp-server/content_mcp.py:377-381 | The new state is the end-tag step. |
| HtmlExtractor.HtmlTextExtractor.HandleData | mcp-server/content_mcp.py:383-388 | The new state is the data step. |
| HtmlExtractor.HtmlTextExtractor.FeedEvents | mcp-server/content_mcp.py:445 | Each event goes to its handler, in order. |
| HtmlExtractor.HtmlTextExtractor.GetText | mcp-server/content_mcp.py:390-402 | The loop computes the text of the buffer. |

## Left out

- Process setup and I/O are not modelled: MCP stdio session setup, `start_mcp_server`, `run_conversation_loop`, `print` output, `.env` loading, logging, and the SSL patch. They do no computation the agents depend on.
- `get_model_name` and all environment lookups are left out. The model name, endpoint and backend mode are given as a `Config` value.
- `decide_tools_needed` in local_agent.py (lines 248-325) is left out: `process_message` never calls it.
- `extract_urls_from_text` is left out: nothing in either agent calls it.
- openai_agent.py, mcp-server/yt-mcp.py, `fetch_video_transcript`, `system_prompt`, `fetch_instructions`, and the web and YouTube search tools are not part of this model.
- The chat endpoint is a finite script of replies. The model does not cover concurrency, real timing, or exceptions raised by an endpoint outside the script.
- `asyncio.sleep` is recorded as the requested delay, not as time passing.
- JSON grammar is not modelled: `json.loads` and `json.dumps` are an injected codec. The conversion of tool schemas to the request's JSON is kept as structured values.
- Python's `str(exc)` of an exception and `str(response)` of a raw response are given as strings.
- When `response.choices[0].message` fails at main_local.py:148, the reply uses CPython's usual message for each case. A missing `choices` gives the TypeError "'NoneType' object is not subscriptable". An empty list gives the IndexError "list index out of range". A None choice or a None message gives the AttributeError "'NoneType' object has no attribute 'message'" or "... 'content'". The exact wording of these texts depends on the interpreter version, which this model does not capture.
- html.parser's tokenisation is not modelled; the extractor receives the events it would report.
- The byte regex of `_extract_doc_basic` (content_mcp.py:240) is not modelled; the chunks it finds are given.
- Charset decoding and the UTF-16 decoding of the `.doc` fallback are not modelled; the decoded text is given.
- The readers of text, Word, PDF and textract output are given as the text they return or the error they raise. python-docx and pdfminer are not part of this model.
- Path expansion and resolution are given as a "missing / not a file / regular file at path" value.
- Text.Lower: lower-cases ASCII letters only, not the full Unicode case mapping of `str.lower`.
- Text.IsSpace: `str.isspace` is modelled by an explicit list of whitespace characters, without Unicode normalisation.
- ContentServer.UrlScheme: follows `urlparse`'s scheme rule only. Leading C0 controls and spaces are stripped, tab, CR and LF are removed, and the scheme is the lower-cased text before the first colon when it starts with a letter and uses only letters, digits, "+", "-" and ".". Netloc and path parsing are not modelled, so the `ValueError` that `urlparse` raises for a malformed bracketed netloc (content_mcp.py:419) is not produced.
- ContentServer.ReadLimit: `max_chars` is typed as an integer, so the `ValueError` for a non-integer (content_mcp.py:322-324) does not arise.
- ContentServer.FetchTimeout: `timeout_seconds` is typed as an integer, so the `int()` conversion of a float or string is not modelled.
- MainLocal.LocalYouTubeAgent.CallMcpTool: a content item's `text` attribute is an optional string, so `hasattr(content, 'text')` (main_local.py:98) is the option being present.
- `reset_conversation`'s printed banner is left out.
