/**
 * The turn-taking state machine of the agent's chat loop, as pure functions.
 *
 * The loop waits on one collaborator at a time: the terminal (a typed line),
 * the language model (a generated reply), or the tool server (a tool
 * result). A `Phase` names which one it is waiting on, `Pending` gives the
 * request it has sent, and `Step` gives the next phase and conversation
 * history once the answer, an `Observation`, has arrived. What the
 * collaborators answer is an input to the model, never computed by it.
 */
module ChatLoop {
  import opened Wire
  import opened Registry

  /** The name of the one tool whose arguments are written by the model before the call. */
  const CreatePost: string := "createPost"
  /** The topic used when a `createPost` call carries no status. */
  const DefaultTopic: string := "a topic"
  /** The marker that turns a tool's result into a user-role history entry. */
  const ToolResultPrefix: string := "Tool result: "
  /** The text used when a tool's result has no text. */
  const NoResultText: string := "No result text"
  const UserPrompt: string := "You: "
  const ModelName: string := "gemini-2.0-flash"
  const SystemInstruction: string :=
    "When using the \"createPost\" tool, always generate a full tweet with informative and engaging content. Do not use just a topic or sentence."

  /** The text around the topic in the request that asks for a post. */
  const PromptHead: string := "Write a Twitter post about: \""
  const PromptTail: string :=
    "\". Include key facts, names, prices, features. Keep it within 280 characters and engaging."

  datatype Role = User | Model

  /** One entry of the conversation history: a role and its single text part. */
  datatype Entry = Entry(role: Role, text: string)

  /** What the loop is waiting for. */
  datatype Phase =
    | AwaitingUser                   // a line typed at the prompt
    | AwaitingModel                  // the model's reply to the whole history
    | Synthesizing(call: FunctionCall) // the post text for a `createPost` call
    | CallingTool(call: FunctionCall)  // the tool server's result for `call`

  datatype Config = Config(phase: Phase, history: seq<Entry>)

  /** The function-calling configuration sent with every reply request of the conversation. */
  datatype GenerateConfig = GenerateConfig(tools: seq<FunctionDeclaration>, systemInstruction: string)

  /** A request the loop sends to a collaborator. */
  datatype Request =
    | ReadLine(prompt: string)
    | Generate(model: string, contents: seq<Entry>, config: Option<GenerateConfig>)
    | InvokeTool(name: string, arguments: Args)

  /** A collaborator's answer. */
  datatype Observation =
    | Line(question: string)
    | Reply(response: Response)
    | Returned(result: ToolResult)

  /** The topic of a `createPost` call: its status, or the default topic when the status is missing or empty. */
  function Topic(args: Args): (topic: string)
    ensures topic != ""
    ensures topic == DefaultTopic || ("status" in args && topic == args["status"])
    ensures "status" in args && args["status"] != "" ==> topic == args["status"]
  {
    if "status" in args && args["status"] != "" then args["status"] else DefaultTopic
  }

  /** The single question asked to write a post about `topic`: the topic, whole, between fixed text. */
  function PostPrompt(topic: string): (prompt: string)
    ensures |prompt| == |PromptHead| + |topic| + |PromptTail|
    ensures prompt[..|PromptHead|] == PromptHead
    ensures prompt[|PromptHead|..|PromptHead| + |topic|] == topic
    ensures prompt[|PromptHead| + |topic|..] == PromptTail
  {
    PromptHead + topic + PromptTail
  }

  /** The request that asks for a post about `topic`: a fresh one-entry transcript, no tools, no instruction. */
  function SynthesisRequest(topic: string): (r: Request)
    ensures r.Generate? && r.config.None? && r.contents == [Entry(User, PostPrompt(topic))]
  {
    Generate(ModelName, [Entry(User, PostPrompt(topic))], None)
  }

  /** The text a tool result contributes: its first item's text, or a placeholder when that is missing or empty. */
  function ResultText(result: ToolResult): (text: string)
    ensures text != ""
    ensures text == NoResultText || (|result.content| > 0 && result.content[0].text == Some(text))
    ensures |result.content| > 0 && Truthy(result.content[0].text) ==> text == result.content[0].text.value
  {
    if |result.content| > 0 && Truthy(result.content[0].text) then result.content[0].text.value else NoResultText
  }

  /** The history entry that carries a tool's result back to the model. */
  function ToolResultEntry(result: ToolResult): (e: Entry)
    ensures e.role == User && e.text == ToolResultPrefix + ResultText(result)
  {
    Entry(User, ToolResultPrefix + ResultText(result))
  }

  /** What the model's reply asks of the loop. */
  datatype Verdict = UseTool(call: FunctionCall) | Say(text: string) | Silent

  /** How the loop reads the first part of a reply: a function call wins over a text; an empty text counts as none. */
  function Interpret(part: Option<Part>): (v: Verdict)
    ensures part.Some? && part.value.functionCall.Some? ==> v == UseTool(part.value.functionCall.value)
    ensures v.UseTool? ==> part.Some? && part.value.functionCall == Some(v.call)
    ensures v.Say? ==> part.Some? && part.value.functionCall.None? && part.value.text == Some(v.text) && v.text != ""
    ensures v.Silent? ==> part.None? || !Truthy(part.value.text)
  {
    match part
    case None => Silent
    case Some(p) =>
      if p.functionCall.Some? then UseTool(p.functionCall.value)
      else if Truthy(p.text) then Say(p.text.value)
      else Silent
  }

  /** Where a requested function call goes: to the post writer for `createPost`, straight to the tool server otherwise. */
  function Dispatch(call: FunctionCall): (p: Phase)
    ensures p.Synthesizing? <==> call.name == CreatePost
    ensures p.Synthesizing? || p.CallingTool?
    ensures p.call == call
  {
    if call.name == CreatePost then Synthesizing(call) else CallingTool(call)
  }

  /**
   * The request outstanding in `c`, given the registry `tools`: the prompt,
   * the conversation request carrying the history, the registry and the
   * instruction, the post request that carries neither, or the tool call.
   */
  function Pending(tools: seq<FunctionDeclaration>, c: Config): (r: Request)
    ensures r.ReadLine? <==> c.phase.AwaitingUser?
    ensures r.ReadLine? ==> r.prompt == UserPrompt
    ensures r.Generate? <==> c.phase.AwaitingModel? || c.phase.Synthesizing?
    ensures r.Generate? ==> r.model == ModelName
    ensures r.Generate? ==> (r.config.Some? <==> c.phase.AwaitingModel?)
    ensures c.phase.AwaitingModel? ==> r.contents == c.history && r.config == Some(GenerateConfig(tools, SystemInstruction))
    ensures c.phase.Synthesizing? ==> r.contents == [Entry(User, PostPrompt(Topic(c.phase.call.args)))]
    ensures r.InvokeTool? <==> c.phase.CallingTool?
    ensures r.InvokeTool? ==> r.name == c.phase.call.name && r.arguments == c.phase.call.args
  {
    match c.phase
    case AwaitingUser => ReadLine(UserPrompt)
    case AwaitingModel => Generate(ModelName, c.history, Some(GenerateConfig(tools, SystemInstruction)))
    case Synthesizing(call) => SynthesisRequest(Topic(call.args))
    case CallingTool(call) => InvokeTool(call.name, call.args)
  }

  /**
   * `obs` answers the request outstanding in `c`. The reply to the
   * conversation must have a first candidate with a parts list: the loop
   * reads that list without a check.
   */
  predicate Fits(c: Config, obs: Observation)
  {
    match c.phase
    case AwaitingUser => obs.Line?
    case AwaitingModel => obs.Reply? && HasParts(obs.response)
    case Synthesizing(_) => obs.Reply?
    case CallingTool(_) => obs.Returned?
  }

  /** One transition of the loop. Each one keeps the history and appends at most one entry. */
  function Step(c: Config, obs: Observation): (next: Config)
    requires Fits(c, obs)
    ensures c.history <= next.history
    ensures |next.history| <= |c.history| + 1
  {
    match c.phase
    case AwaitingUser =>
      Config(AwaitingModel, c.history + [Entry(User, obs.question)])
    case AwaitingModel =>
      (match Interpret(FirstPart(obs.response))
       case UseTool(call) => Config(Dispatch(call), c.history)
       case Say(text) => Config(AwaitingUser, c.history + [Entry(Model, text)])
       case Silent => Config(AwaitingUser, c.history))
    case Synthesizing(call) =>
      var post := FirstText(obs.response);
      if Truthy(post) then Config(CallingTool(call.(args := call.args["status" := post.value])), c.history)
      else Config(AwaitingUser, c.history)
    case CallingTool(call) =>
      Config(AwaitingModel, c.history + [ToolResultEntry(obs.result)])
  }

  /** Every observation of `script` answers the request outstanding when it arrives. */
  predicate Admissible(c: Config, script: seq<Observation>)
    decreases |script|
  {
    script == [] || (Fits(c, script[0]) && Admissible(Step(c, script[0]), script[1..]))
  }

  /** The configuration after the loop has consumed `script`. History only grows, by at most one entry per step. */
  function Run(c: Config, script: seq<Observation>): (last: Config)
    requires Admissible(c, script)
    ensures c.history <= last.history
    ensures |last.history| <= |c.history| + |script|
    decreases |script|
  {
    if script == [] then c else Run(Step(c, script[0]), script[1..])
  }

  /** The requests the loop sends while it consumes `script`, one per observation. */
  function Requests(tools: seq<FunctionDeclaration>, c: Config, script: seq<Observation>): (rs: seq<Request>)
    requires Admissible(c, script)
    ensures |rs| == |script|
    decreases |script|
  {
    if script == [] then [] else [Pending(tools, c)] + Requests(tools, Step(c, script[0]), script[1..])
  }

  /** The configuration after the first `i` observations of `script`. */
  function At(c: Config, script: seq<Observation>, i: nat): Config
    requires Admissible(c, script) && i <= |script|
    decreases i
  {
    if i == 0 then c else At(Step(c, script[0]), script[1..], i - 1)
  }

  /**
   * The i-th request a run sends is the one outstanding after the first i
   * observations, that observation answers it, and the run ends where the
   * last observation leaves the loop.
   */
  lemma {:induction false} RequestsPending(tools: seq<FunctionDeclaration>, c: Config, script: seq<Observation>, i: nat)
    requires Admissible(c, script) && i < |script|
    ensures Requests(tools, c, script)[i] == Pending(tools, At(c, script, i))
    ensures Fits(At(c, script, i), script[i])
    ensures Admissible(At(c, script, i), script[i..])
    ensures Run(c, script) == Run(At(c, script, i), script[i..])
    decreases i
  {
    if i > 0 {
      RequestsPending(tools, Step(c, script[0]), script[1..], i - 1);
      assert script[1..][i - 1] == script[i] && script[1..][i - 1..] == script[i..];
    }
  }

  // ---------------------------------------------------------------------
  // One transition at a time

  /** A typed line is appended as one user entry, and the next request is the model call that carries it. */
  lemma UserTurn(tools: seq<FunctionDeclaration>, h: seq<Entry>, question: string)
    ensures Pending(tools, Config(AwaitingUser, h)) == ReadLine(UserPrompt)
    ensures Step(Config(AwaitingUser, h), Line(question)) == Config(AwaitingModel, h + [Entry(User, question)])
    ensures Pending(tools, Step(Config(AwaitingUser, h), Line(question)))
         == Generate(ModelName, h + [Entry(User, question)], Some(GenerateConfig(tools, SystemInstruction)))
  {
  }

  /** A function call in the first part wins, even next to a text: nothing is appended and the call is handled next. */
  lemma FunctionCallWins(h: seq<Entry>, r: Response, call: FunctionCall)
    requires HasParts(r) && |r.candidates[0].parts.value| > 0
    requires r.candidates[0].parts.value[0].functionCall == Some(call)
    ensures Step(Config(AwaitingModel, h), Reply(r)) == Config(Dispatch(call), h)
    ensures !Step(Config(AwaitingModel, h), Reply(r)).phase.AwaitingUser?
  {
  }

  /** A text reply without a function call appends exactly one model entry and returns to the prompt. */
  lemma TextReply(h: seq<Entry>, r: Response, text: string)
    requires HasParts(r) && |r.candidates[0].parts.value| > 0
    requires r.candidates[0].parts.value[0] == Part(None, Some(text)) && text != ""
    ensures Step(Config(AwaitingModel, h), Reply(r)) == Config(AwaitingUser, h + [Entry(Model, text)])
  {
  }

  /** A reply with neither a function call nor a text appends nothing and returns to the prompt. */
  lemma SilentReply(h: seq<Entry>, r: Response)
    requires HasParts(r)
    requires FirstPart(r).Some? ==> FirstPart(r).value.functionCall.None? && !Truthy(FirstPart(r).value.text)
    ensures Step(Config(AwaitingModel, h), Reply(r)) == Config(AwaitingUser, h)
  {
  }

  /** Only `createPost` goes through the post writer; any other call goes to the tool server with its name and arguments. */
  lemma SynthesisGate(tools: seq<FunctionDeclaration>, h: seq<Entry>, call: FunctionCall)
    ensures Pending(tools, Config(Dispatch(call), h)).Generate? <==> call.name == CreatePost
    ensures call.name != CreatePost ==> Pending(tools, Config(Dispatch(call), h)) == InvokeTool(call.name, call.args)
  {
  }

  /** The post request does not carry the conversation: it is the same whatever the history and the registry. */
  lemma SynthesisIsFresh(tools1: seq<FunctionDeclaration>, tools2: seq<FunctionDeclaration>,
                         h1: seq<Entry>, h2: seq<Entry>, call: FunctionCall)
    ensures Pending(tools1, Config(Synthesizing(call), h1)) == Pending(tools2, Config(Synthesizing(call), h2))
    ensures Pending(tools1, Config(Synthesizing(call), h1)) == SynthesisRequest(Topic(call.args))
    ensures |Pending(tools1, Config(Synthesizing(call), h1)).contents| == 1
  {
  }

  /** A written post replaces the status argument, keeps every other argument, and is sent to the tool server next. */
  lemma SynthesisSucceeds(tools: seq<FunctionDeclaration>, h: seq<Entry>, call: FunctionCall, r: Response)
    requires Truthy(FirstText(r))
    ensures var next := Step(Config(Synthesizing(call), h), Reply(r));
      && next.history == h
      && next.phase.CallingTool?
      && next.phase.call.name == call.name
      && next.phase.call.args.Keys == call.args.Keys + {"status"}
      && next.phase.call.args["status"] == FirstText(r).value
      && (forall k :: k in call.args && k != "status" ==> next.phase.call.args[k] == call.args[k])
      && Pending(tools, next) == InvokeTool(call.name, next.phase.call.args)
  {
  }

  /** Without a post text the tool is not called, the history is unchanged and the loop returns to the prompt. */
  lemma SynthesisFails(h: seq<Entry>, call: FunctionCall, r: Response)
    requires !Truthy(FirstText(r))
    ensures Step(Config(Synthesizing(call), h), Reply(r)) == Config(AwaitingUser, h)
  {
  }

  /** A tool result appends exactly one marked user entry, and the next request is a model call, not a prompt. */
  lemma ToolResultTurn(tools: seq<FunctionDeclaration>, h: seq<Entry>, call: FunctionCall, result: ToolResult)
    ensures Step(Config(CallingTool(call), h), Returned(result))
         == Config(AwaitingModel, h + [Entry(User, ToolResultPrefix + ResultText(result))])
    ensures Pending(tools, Step(Config(CallingTool(call), h), Returned(result)))
         == Generate(ModelName, h + [ToolResultEntry(result)], Some(GenerateConfig(tools, SystemInstruction)))
  {
  }

  /**
   * The conversation request is never sent twice on the same history: every
   * step that leads to it appends an entry first. (The post request is not
   * covered: it follows a function-call reply with nothing appended.)
   */
  lemma ModelCallFollowsAppend(c: Config, obs: Observation)
    requires Fits(c, obs)
    requires Step(c, obs).phase == AwaitingModel
    ensures c.phase.AwaitingUser? || c.phase.CallingTool?
    ensures |Step(c, obs).history| == |c.history| + 1
  {
  }

  /**
   * A tool is called only for a function call the model asked for, directly
   * or after a post was written for it, and getting there appends nothing:
   * the tool's result entry follows the model's request for it.
   */
  lemma CallingToolOrigin(c: Config, obs: Observation)
    requires Fits(c, obs)
    requires Step(c, obs).phase.CallingTool?
    ensures c.phase.AwaitingModel? || c.phase.Synthesizing?
    ensures c.phase.AwaitingModel? ==>
      && Interpret(FirstPart(obs.response)) == UseTool(Step(c, obs).phase.call)
      && Step(c, obs).history == c.history
    ensures c.phase.Synthesizing? ==>
      && Truthy(FirstText(obs.response))
      && Step(c, obs).phase.call.name == c.phase.call.name
      && Step(c, obs).history == c.history
  {
  }

  /** A post is written only for a `createPost` call the model's conversation reply asked for, and asking appends nothing. */
  lemma SynthesizingOrigin(c: Config, obs: Observation)
    requires Fits(c, obs)
    requires Step(c, obs).phase.Synthesizing?
    ensures c.phase.AwaitingModel?
    ensures Interpret(FirstPart(obs.response)) == UseTool(Step(c, obs).phase.call)
    ensures Step(c, obs).phase.call.name == CreatePost
    ensures Step(c, obs).history == c.history
  {
  }

  /** An answer fits only the kind of request outstanding: a line the prompt, a reply a model request, a result a tool call. */
  lemma AnswersPending(tools: seq<FunctionDeclaration>, c: Config, obs: Observation)
    requires Fits(c, obs)
    ensures obs.Line? <==> Pending(tools, c).ReadLine?
    ensures obs.Reply? <==> Pending(tools, c).Generate?
    ensures obs.Returned? <==> Pending(tools, c).InvokeTool?
  {
  }

  /**
   * A conversation reply is taken exactly when reading its first candidate's
   * parts list does not fail; its first part is then missing only when that
   * list is empty.
   */
  lemma ConversationReplyRead(c: Config, r: Response)
    requires c.phase.AwaitingModel?
    ensures Fits(c, Reply(r)) <==> |r.candidates| > 0 && r.candidates[0].parts.Some?
    ensures Fits(c, Reply(r)) && FirstPart(r).None? ==> r.candidates[0].parts == Some([])
  {
  }

  /** The topic can be read back from the post request: different topics give different prompts. */
  lemma PostPromptTopic(a: string, b: string)
    requires PostPrompt(a) == PostPrompt(b)
    ensures a == b
  {
    assert a == PostPrompt(a)[|PromptHead|..|PromptHead| + |a|];
  }
}
