/**
 * The chat session as the program keeps it: one conversation history that
 * only ever grows, the tool registry fetched at start-up, and the phase the
 * loop is in. `Advance` is one pass through the loop's body; `Drive` is the
 * loop itself, run over the answers the collaborators give.
 */
module Session {
  import opened Wire
  import opened Registry
  import opened ChatLoop

  class ChatSession {
    /** The declarations offered to the model, fixed once the tools have been listed. */
    const tools: seq<FunctionDeclaration>
    /** The conversation history, replayed to the model on every reply request. */
    var history: seq<Entry>
    /** What the loop is waiting for. */
    var phase: Phase

    /** The session's state as the state machine sees it. */
    function State(): Config
      reads this
    {
      Config(phase, history)
    }

    /** A session over the tools the server listed, with an empty history, at the prompt. */
    constructor (listed: seq<Tool>)
      ensures tools == Declarations(listed)
      ensures history == [] && phase == AwaitingUser
    {
      tools := Declarations(listed);
      history := [];
      phase := AwaitingUser;
    }

    /** The request the session has sent and is waiting on. Changes nothing. */
    method Outstanding() returns (request: Request)
      ensures request == Pending(tools, State())
    {
      match phase {
        case AwaitingUser =>
          request := ReadLine(UserPrompt);
        case AwaitingModel =>
          request := Generate(ModelName, history, Some(GenerateConfig(tools, SystemInstruction)));
        case Synthesizing(call) =>
          request := SynthesisRequest(Topic(call.args));
        case CallingTool(call) =>
          request := InvokeTool(call.name, call.args);
      }
    }

    /**
     * Takes the answer to the outstanding request, returns that request, and
     * moves to the next phase, appending to the history as the loop does.
     */
    method Advance(obs: Observation) returns (issued: Request)
      requires Fits(State(), obs)
      modifies this
      ensures issued == Pending(tools, old(State()))
      ensures State() == Step(old(State()), obs)
      ensures old(history) <= history
    {
      issued := Outstanding();
      match phase {
        case AwaitingUser => TakeLine(obs.question);
        case AwaitingModel => TakeReply(obs.response);
        case Synthesizing(call) => TakePost(call, obs.response);
        case CallingTool(call) => TakeResult(call, obs.result);
      }
    }

    /** The typed line becomes one user entry; the model is asked next. */
    method TakeLine(question: string)
      requires phase == AwaitingUser
      modifies this
      ensures State() == Step(old(State()), Line(question))
      ensures history == old(history) + [Entry(User, question)] && phase == AwaitingModel
    {
      history := history + [Entry(User, question)];
      phase := AwaitingModel;
    }

    /** A function call in the reply's first part is handled next; otherwise a non-empty text becomes one model entry. */
    method TakeReply(response: Response)
      requires phase == AwaitingModel && HasParts(response)
      modifies this
      ensures State() == Step(old(State()), Reply(response))
      ensures old(history) <= history && |history| <= |old(history)| + 1
    {
      var parts := response.candidates[0].parts.value;
      var part := if |parts| > 0 then Some(parts[0]) else None;
      if part.Some? && part.value.functionCall.Some? {
        var call := part.value.functionCall.value;
        phase := if call.name == CreatePost then Synthesizing(call) else CallingTool(call);
      } else {
        if part.Some? && part.value.text.Some? && part.value.text.value != "" {
          history := history + [Entry(Model, part.value.text.value)];
        }
        phase := AwaitingUser;
      }
    }

    /** The written post replaces the call's status; without one, the call is dropped and the prompt comes back. */
    method TakePost(call: FunctionCall, response: Response)
      requires phase == Synthesizing(call)
      modifies this
      ensures State() == Step(old(State()), Reply(response))
      ensures history == old(history)
      ensures phase == AwaitingUser || phase == CallingTool(call.(args := call.args["status" := FirstText(response).value]))
    {
      var post := FirstText(response);
      if post.None? || post.value == "" {
        phase := AwaitingUser;
      } else {
        var args := call.args["status" := post.value];
        phase := CallingTool(FunctionCall(call.name, args));
      }
    }

    /** The tool's result becomes one marked user entry; the model is asked next. */
    method TakeResult(call: FunctionCall, result: ToolResult)
      requires phase == CallingTool(call)
      modifies this
      ensures State() == Step(old(State()), Returned(result))
      ensures history == old(history) + [ToolResultEntry(result)] && phase == AwaitingModel
    {
      history := history + [ToolResultEntry(result)];
      phase := AwaitingModel;
    }

    /**
     * Runs the loop over `script`, the collaborators' answers in the order
     * they arrive, and returns the requests sent, one per answer.
     */
    method Drive(script: seq<Observation>) returns (issued: seq<Request>)
      requires Admissible(State(), script)
      modifies this
      ensures issued == Requests(tools, old(State()), script)
      ensures State() == Run(old(State()), script)
      ensures old(history) <= history
    {
      issued := [];
      var i := 0;
      while i < |script|
        invariant 0 <= i <= |script|
        invariant Admissible(State(), script[i..])
        invariant Run(old(State()), script) == Run(State(), script[i..])
        invariant Requests(tools, old(State()), script) == issued + Requests(tools, State(), script[i..])
        decreases |script| - i
      {
        assert script[i..][0] == script[i] && script[i..][1..] == script[i + 1..];
        var request := Advance(script[i]);
        issued := issued + [request];
        i := i + 1;
      }
      assert script[i..] == [];
    }
  }
}
