# Chat loop of the Twitter AI agent, modelled in Dafny

The agent is a command-line client that connects a Gemini language model to
an MCP tool server. The user types a line; the model either answers in text or
asks for a tool; the tool runs on the server and its result goes back to the
model, which may ask for another tool before the user speaks again. For the
one tool `createPost`, the client first asks the model, in a separate
one-question request, to write the post text, and puts that text in the call's
`status` argument.

This project models the core of that client: the turn-taking loop `chatLoop`
in `client/index.js`, with its conversation history, and the projection of the
server's tool list into the model's function declarations.

- `wire.dfy` (module `Wire`): the fields the loop reads from a model reply
  (candidates, parts, `functionCall`, `text`) and from a tool result (content
  items and their text), with JavaScript truthiness of an optional string.
- `registry.dfy` (module `Registry`): the tool descriptor projection.
- `chat_loop.dfy` (module `ChatLoop`): the loop as a state machine. A `Phase`
  says what the loop waits for: a typed line (`AwaitingUser`), the model's
  reply to the whole history (`AwaitingModel`), the written post for a
  `createPost` call (`Synthesizing(call)`), or a tool's result
  (`CallingTool(call)`). `Pending` is the request sent in a phase, `Step` the
  next phase and history once the answer arrives, `Run` and `Requests` a whole
  run over a script of answers. The one-transition properties are lemmas here.
- `chat_runs.dfy` (module `ChatRuns`): properties of whole runs: a plain
  conversation, a chain of tool calls, and a `createPost` request end to end.
- `session.dfy` (module `Session`): the class `ChatSession` holding the
  history and the phase, whose methods update them in place as the loop does,
  each proved equal to `Step`; `Drive` is the loop, proved equal to `Run`.

The source loops by calling itself (`chatLoop()` and `chatLoop(functionCall)`);
the model replaces those calls by the phase: calling `chatLoop()` is moving to
`AwaitingUser`, calling `chatLoop(functionCall)` is moving to `Synthesizing`
or `CallingTool`. The three collaborators (the terminal, the model and the
tool server) are not modelled; what they answer is an `Observation` given to
the model, and what the loop sends them is a `Request` it computes.

Two behaviours of the code to note:
- The user's line is appended before the model is asked. A reply with neither
  a function call nor a text adds nothing after it, so the line stays in the
  history unanswered (`ChatRuns.SilentReplyKeepsQuestion`). A conversation
  alternates user and model entries only while every reply is a text
  (`ChatRuns.Conversation`).
- `callTool` and `generateContent` have no handler around them, so a failure
  of either leaves the loop. That path is not modelled (see below).
- For `createPost`, the post request follows the function-call reply directly,
  with nothing appended in between: two model requests in a row, the second a
  fresh one-question transcript (`ChatLoop.SynthesizingOrigin`,
  `ChatLoop.SynthesisIsFresh`). Only the conversation request is always
  preceded by a new entry (`ChatLoop.ModelCallFollowsAppend`).

## Model

| member | source | states |
|---|---|---|
| `Registry.Declarations` | client/index.js:30-40 | one declaration per listed tool, in the listed order, each copying the tool's name, description and the input schema's type, properties and required list |
| `Registry.Declare` | client/index.js:31-39 | the declaration of one tool copies its name, description and the input schema's type, properties and required list |
| `Registry.DeclaredNames` | client/index.js:30-40 | the model is offered exactly the listed tool names, in order |
| `Registry.DeclarationsAppend` | client/index.js:30-40 | the projection works tool by tool: projecting two lists one after the other gives the two projections one after the other |
| `Wire.FirstPart` | client/index.js:140 | the part read is the first part of the first candidate, and there is none exactly when there is no candidate, no parts list or an empty one |
| `Wire.FirstText` | client/index.js:73 | the post text is the text of the first part of the first candidate, absent whenever any link of that chain is missing |
| `ChatLoop.Topic` | client/index.js:53 | the topic is never empty: it is the call's `status` when that is present and non-empty, and `"a topic"` otherwise |
| `ChatLoop.PostPrompt` | client/index.js:65 | the post question is the topic, whole and unchanged, between the fixed opening and closing text |
| `ChatLoop.PostPromptTopic` | client/index.js:65 | the topic can be read back from the post question: different topics give different questions |
| `ChatLoop.SynthesisRequest` | client/index.js:58-71 | the post request is a reply request with no configuration whose transcript is one user entry asking for a post about the topic |
| `ChatLoop.ResultText` | client/index.js:91 | the result text is never empty: the first content item's text when present and non-empty, `"No result text"` otherwise |
| `ChatLoop.ToolResultEntry` | client/index.js:95-103 | a tool result becomes a user-role entry whose text is `"Tool result: "` followed by the result text |
| `ChatLoop.Interpret` | client/index.js:140-161 | a function call in the first part is used whether or not a text is present; otherwise a non-empty text is said; otherwise (no part, no text, empty text) nothing is |
| `ChatLoop.Dispatch` | client/index.js:52 | a requested call goes to the post writer if and only if its name is `createPost`, otherwise straight to the tool server, unchanged |
| `ChatLoop.Pending` | client/index.js:47-138 | the request outstanding in each phase: the `"You: "` prompt exactly at the prompt (106); a `gemini-2.0-flash` request exactly when waiting on the model, carrying the history, the registry and the system instruction for the conversation (119-138) and only the post question with no configuration for a post (58-71); the tool call with the call's name and arguments exactly when calling a tool (86-89); pinned case by case by `UserTurn`, `SynthesisGate`, `SynthesisIsFresh` and `ToolResultTurn` |
| `ChatLoop.AnswersPending` | client/index.js:47-138 | `Fits` takes a typed line only at the prompt, a model reply only for a model request and a tool result only for a tool call |
| `ChatLoop.ConversationReplyRead` | client/index.js:140 | `Fits` and `Wire.HasParts` take a conversation reply exactly when reading its first candidate's parts list does not fail; the first part is then missing only when that list is empty |
| `ChatLoop.Step` | client/index.js:47-164 | every transition keeps the whole history as a prefix and appends at most one entry |
| `ChatLoop.Run` | client/index.js:47-164 | over any run, the history only grows, by at most one entry per answer |
| `ChatLoop.Requests` | client/index.js:47-164 | a run sends exactly one request per answer it consumes |
| `ChatLoop.RequestsPending` | client/index.js:47-164 | the i-th request of a run is the one outstanding after the first i answers, the i-th answer answers it, and the rest of the run continues from there |
| `ChatLoop.UserTurn` | client/index.js:105-119 | at the prompt a line is read, exactly one user entry with that line is appended, and the next request is the model call whose transcript ends with it |
| `ChatLoop.FunctionCallWins` | client/index.js:140-147 | a reply whose first part has a function call appends nothing and leads to handling that call, never to the prompt, even when the part also has a text |
| `ChatLoop.TextReply` | client/index.js:149-163 | a text reply with no function call appends exactly one model entry with that text and returns to the prompt |
| `ChatLoop.SilentReply` | client/index.js:140-163 | a reply with no part, or with neither a function call nor a non-empty text, appends nothing and returns to the prompt |
| `ChatLoop.SynthesisGate` | client/index.js:52-89 | a post is requested if and only if the call is `createPost`; any other call is sent to the tool server with its own name and arguments |
| `ChatLoop.SynthesisIsFresh` | client/index.js:58-71 | the post request does not depend on the conversation history or the registry: it is a one-entry transcript built from the topic |
| `ChatLoop.SynthesisSucceeds` | client/index.js:73-89 | with a post text, the call's `status` becomes that text, every other argument is kept, the history is unchanged, and the tool server is called next with the same name and the new arguments |
| `ChatLoop.SynthesisFails` | client/index.js:73-77 | without a post text, the tool is not called, the history is unchanged and the loop returns to the prompt |
| `ChatLoop.ToolResultTurn` | client/index.js:91-119 | a tool result appends exactly one `"Tool result: "` user entry, and the next request is a model call with the grown history, not a prompt |
| `ChatLoop.CallingToolOrigin` | client/index.js:52-147 | a tool is called only from a conversation reply that asked for that call, or from a written post, which keeps the call's name and appends nothing; together with `ChatLoop.SynthesizingOrigin` a tool result entry always follows the model's request for that tool |
| `ChatLoop.SynthesizingOrigin` | client/index.js:52-58 | a post is written only for a `createPost` call that a conversation reply asked for, and asking appends nothing |
| `ChatLoop.ModelCallFollowsAppend` | client/index.js:105-119 | the conversation request is only sent after a typed line or a tool result, each of which appended exactly one entry, so two conversation requests never come back to back on the same history |
| `ChatRuns.Conversation` | client/index.js:105-163 | after N exchanges answered by texts, the history has grown by exactly 2N entries, alternating the typed line and the reply, in order, and the loop is at the prompt |
| `ChatRuns.SilentReplyKeepsQuestion` | client/index.js:105-163 | any reply whose first part is missing, or has neither a function call nor a non-empty text, leaves the typed line in the history with no model entry after it, back at the prompt |
| `ChatRuns.ToolChain` | client/index.js:86-147 | tool calls chain to any depth without a prompt: each result adds one marked user entry, in order, and the loop keeps calling tools |
| `ChatRuns.ToolChainReadsNoLine` | client/index.js:86-147 | in such a chain no request is a terminal read: every request goes to the model or the tool server |
| `ChatRuns.PostScenario` | client/index.js:47-138 | a `createPost` request end to end: the tool receives the written text as `status`, the history gains the typed line and one result entry, and the model is asked next |
| `Session.ChatSession.constructor` | client/index.js:9-42 | a new session holds the projected declarations of the listed tools, an empty history, and waits at the prompt |
| `Session.ChatSession.Outstanding` | client/index.js:47-138 | the request the session waits on is the one the state machine says, and nothing changes |
| `Session.ChatSession.Advance` | client/index.js:47-164 | one pass of the loop's body: returns the request answered and updates the history and phase in place exactly as `Step` says |
| `Session.ChatSession.TakeLine` | client/index.js:105-116 | the typed line is pushed as one user entry and the model is asked next |
| `Session.ChatSession.TakeReply` | client/index.js:140-163 | the reply either appends nothing or pushes one model entry, as `Step` says |
| `Session.ChatSession.TakePost` | client/index.js:52-83 | the history is untouched; the call's `status` is overwritten with the post text, or the loop returns to the prompt |
| `Session.ChatSession.TakeResult` | client/index.js:86-103 | the tool result is pushed as one marked user entry and the model is asked next |
| `Session.ChatSession.Drive` | client/index.js:47-164 | the loop over a script of answers returns the requests `Requests` gives and ends in the state `Run` gives, with the old history a prefix of the new |

## Left out

- Terminal input and all console output: the typed line is an input, nothing printed is modelled.
- Credential loading, the SSE transport, `connect` and `listTools`: the listed tools are a parameter of the session's constructor.
- The Gemini client and the tool server: their answers are inputs (`Observation`), what the loop sends them is computed (`Request`). What the model writes, including the length and tone asked for in the prompts, is not modelled.
- A rejected `callTool` or `generateContent`: the source has no handler, the rejection leaves the loop, and the model has no such path.
- A conversation reply with no candidate, or whose first candidate has no content or no parts list: the source reads `candidates[0].content.parts` without a check and would throw, leaving the loop; a reply to the conversation is required to have a first candidate with a parts list (`Wire.HasParts`, checked by `Fits`). An empty parts list does not throw and is modelled (a silent reply).
- Argument values are strings; a non-string `status` and its JavaScript truthiness are not modelled. A function call without an arguments object is modelled as one with no arguments (for `createPost` the source would throw).
- The in-place write to the function call's `args` object is modelled as building the rewritten call; nothing else holds that object afterwards, so no other observer sees the difference.
- Call-stack growth from the self-calls: the loop is a phase plus an explicit `while` loop.
- `ChatRuns.ToolChain`: covers chains of tools other than `createPost`; a `createPost` inside a chain is covered step by step by the `Synthesis*` lemmas and end to end by `ChatRuns.PostScenario`.
- `ChatLoop.Requests`: its own contract only counts the requests; which request each one is, is stated by `ChatLoop.RequestsPending`.
