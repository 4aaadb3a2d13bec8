/**
 * Properties of whole runs of the chat loop: what the history looks like
 * after a plain conversation, and how a chain of tool calls proceeds
 * without a single prompt.
 */
module ChatRuns {
  import opened Wire
  import opened Registry
  import opened ChatLoop

  /** Unfolding a run by its first two observations. */
  lemma TwoSteps(tools: seq<FunctionDeclaration>, c: Config, o1: Observation, o2: Observation, rest: seq<Observation>)
    requires Fits(c, o1) && Fits(Step(c, o1), o2)
    requires Admissible(Step(Step(c, o1), o2), rest)
    ensures Admissible(c, [o1, o2] + rest)
    ensures Run(c, [o1, o2] + rest) == Run(Step(Step(c, o1), o2), rest)
    ensures Requests(tools, c, [o1, o2] + rest)
         == [Pending(tools, c), Pending(tools, Step(c, o1))] + Requests(tools, Step(Step(c, o1), o2), rest)
  {
    var script := [o1, o2] + rest;
    assert script[0] == o1;
    assert script[1..] == [o2] + rest;
    assert script[1..][0] == o2;
    assert script[1..][1..] == rest;
  }

  // ---------------------------------------------------------------------
  // Conversations without tool calls

  /** The model's reply is a text and asks for no tool. */
  predicate IsTextReply(r: Response)
  {
    HasParts(r) && Interpret(FirstPart(r)).Say?
  }

  /** The text a text reply contributes. */
  function Said(r: Response): string
    requires IsTextReply(r)
  {
    Interpret(FirstPart(r)).text
  }

  /** Typed lines `questions`, each answered by the reply at the same position. */
  function Dialogue(questions: seq<string>, replies: seq<Response>): seq<Observation>
    requires |questions| == |replies|
  {
    if questions == [] then []
    else [Line(questions[0]), Reply(replies[0])] + Dialogue(questions[1..], replies[1..])
  }

  /**
   * After N exchanges answered by text replies, the history has grown by
   * exactly 2N entries, alternating a user entry holding the typed line and a
   * model entry holding the reply, in order; the loop is back at the prompt.
   */
  lemma {:induction false} Conversation(h: seq<Entry>, questions: seq<string>, replies: seq<Response>)
    requires |questions| == |replies|
    requires forall i :: 0 <= i < |replies| ==> IsTextReply(replies[i])
    ensures Admissible(Config(AwaitingUser, h), Dialogue(questions, replies))
    ensures var last := Run(Config(AwaitingUser, h), Dialogue(questions, replies));
      last.phase == AwaitingUser && Alternates(last.history, h, questions, replies)
    decreases |questions|
  {
    if questions != [] {
      var h2 := h + [Entry(User, questions[0]), Entry(Model, Said(replies[0]))];
      var c, c2 := Config(AwaitingUser, h), Config(AwaitingUser, h2);
      var script, rest := Dialogue(questions, replies), Dialogue(questions[1..], replies[1..]);
      DialogueTail(questions, replies);
      Conversation(h2, questions[1..], replies[1..]);
      assert Admissible(c, script) && Run(c, script) == Run(c2, rest) by {
        ExchangeRound(h, questions[0], replies[0]);
        TwoSteps([], c, Line(questions[0]), Reply(replies[0]), rest);
      }
      AlternatesCons(Run(c2, rest).history, h, questions, replies);
    }
  }

  /**
   * `history` is `h` followed by one typed line and one said reply per
   * exchange, in order.
   */
  predicate Alternates(history: seq<Entry>, h: seq<Entry>, questions: seq<string>, replies: seq<Response>)
  {
    && |questions| == |replies|
    && |history| == |h| + 2 * |questions|
    && history[..|h|] == h
    && (forall i :: 0 <= i < |questions| ==>
          && IsTextReply(replies[i])
          && history[|h| + 2 * i] == Entry(User, questions[i])
          && history[|h| + 2 * i + 1] == Entry(Model, Said(replies[i])))
  }

  /** Alternation after the first exchange extends to alternation from before it. */
  lemma AlternatesCons(history: seq<Entry>, h: seq<Entry>, questions: seq<string>, replies: seq<Response>)
    requires |questions| == |replies| && questions != [] && IsTextReply(replies[0])
    requires Alternates(history, h + [Entry(User, questions[0]), Entry(Model, Said(replies[0]))],
                        questions[1..], replies[1..])
    ensures Alternates(history, h, questions, replies)
  {
    var h2 := h + [Entry(User, questions[0]), Entry(Model, Said(replies[0]))];
    forall i | 0 <= i < |questions|
      ensures IsTextReply(replies[i])
      ensures history[|h| + 2 * i] == Entry(User, questions[i])
      ensures history[|h| + 2 * i + 1] == Entry(Model, Said(replies[i]))
    {
      if i == 0 {
        assert history[|h|] == h2[|h|];
        assert history[|h| + 1] == h2[|h| + 1];
      } else {
        assert |h| + 2 * i == |h2| + 2 * (i - 1);
        assert questions[1..][i - 1] == questions[i] && replies[1..][i - 1] == replies[i];
      }
    }
    assert history[..|h|] == h2[..|h|];
  }

  /** One exchange: the typed line is appended, then the reply's text. */
  lemma ExchangeRound(h: seq<Entry>, question: string, reply: Response)
    requires IsTextReply(reply)
    ensures Fits(Config(AwaitingUser, h), Line(question))
    ensures Fits(Step(Config(AwaitingUser, h), Line(question)), Reply(reply))
    ensures Step(Step(Config(AwaitingUser, h), Line(question)), Reply(reply))
         == Config(AwaitingUser, h + [Entry(User, question), Entry(Model, Said(reply))])
  {
    assert h + [Entry(User, question)] + [Entry(Model, Said(reply))]
        == h + [Entry(User, question), Entry(Model, Said(reply))];
  }

  /** A non-empty dialogue is its first exchange followed by the dialogue of the rest, whose replies are still texts. */
  lemma DialogueTail(questions: seq<string>, replies: seq<Response>)
    requires |questions| == |replies| && questions != []
    requires forall i :: 0 <= i < |replies| ==> IsTextReply(replies[i])
    ensures Dialogue(questions, replies)
         == [Line(questions[0]), Reply(replies[0])] + Dialogue(questions[1..], replies[1..])
    ensures forall i :: 0 <= i < |replies[1..]| ==> IsTextReply(replies[1..][i])
  {
    forall i | 0 <= i < |replies[1..]| ensures IsTextReply(replies[1..][i]) {
      assert replies[1..][i] == replies[i + 1];
    }
  }

  /** A reply with neither a function call nor a text leaves the typed line in the history, unanswered. */
  lemma SilentReplyKeepsQuestion(h: seq<Entry>, question: string, r: Response)
    requires HasParts(r) && Interpret(FirstPart(r)).Silent?
    ensures Admissible(Config(AwaitingUser, h), [Line(question), Reply(r)])
    ensures Run(Config(AwaitingUser, h), [Line(question), Reply(r)])
         == Config(AwaitingUser, h + [Entry(User, question)])
  {
    var script := [Line(question), Reply(r)];
    var c1 := Step(Config(AwaitingUser, h), script[0]);
    assert c1 == Config(AwaitingModel, h + [Entry(User, question)]);
    assert script[1..] == [Reply(r)];
    assert script[1..][1..] == [];
    assert Run(c1, script[1..]) == Step(c1, script[1]);
  }

  // ---------------------------------------------------------------------
  // Chains of tool calls

  /** The model's reply asks for a tool other than `createPost`. */
  predicate ChainsTool(r: Response)
  {
    && HasParts(r)
    && Interpret(FirstPart(r)).UseTool?
    && Interpret(FirstPart(r)).call.name != CreatePost
  }

  /** Tool results, each followed by the model's reply to it. */
  function Chain(results: seq<ToolResult>, replies: seq<Response>): seq<Observation>
    requires |results| == |replies|
  {
    if results == [] then []
    else [Returned(results[0]), Reply(replies[0])] + Chain(results[1..], replies[1..])
  }

  /** The history entries the results of a chain contribute. */
  function ToolEntries(results: seq<ToolResult>): seq<Entry>
  {
    if results == [] then [] else [ToolResultEntry(results[0])] + ToolEntries(results[1..])
  }

  /**
   * Tool calls chain to any depth with no prompt in between: while each
   * reply asks for another tool, every result is appended as one marked
   * user entry and the loop keeps calling tools.
   */
  lemma {:induction false} ToolChain(call: FunctionCall, h: seq<Entry>,
                                     results: seq<ToolResult>, replies: seq<Response>)
    requires |results| == |replies|
    requires forall i :: 0 <= i < |replies| ==> ChainsTool(replies[i])
    ensures Admissible(Config(CallingTool(call), h), Chain(results, replies))
    ensures Run(Config(CallingTool(call), h), Chain(results, replies)).phase.CallingTool?
    ensures Run(Config(CallingTool(call), h), Chain(results, replies)).history == h + ToolEntries(results)
    decreases |results|
  {
    if results == [] {
      assert h + ToolEntries(results) == h;
    } else {
      var h1 := h + [ToolResultEntry(results[0])];
      var next := Interpret(FirstPart(replies[0])).call;
      var c, c2 := Config(CallingTool(call), h), Config(CallingTool(next), h1);
      var script, rest := Chain(results, replies), Chain(results[1..], replies[1..]);
      ChainTail(results, replies);
      ToolChain(next, h1, results[1..], replies[1..]);
      assert Admissible(c, script) && Run(c, script) == Run(c2, rest) by {
        ChainRound([], call, h, results[0], replies[0]);
        TwoSteps([], c, Returned(results[0]), Reply(replies[0]), rest);
      }
      EntriesTail(h, results);
    }
  }

  /** No line is read anywhere in such a chain: every request goes to the model or the tool server. */
  lemma {:induction false} ToolChainReadsNoLine(tools: seq<FunctionDeclaration>, call: FunctionCall, h: seq<Entry>,
                                                results: seq<ToolResult>, replies: seq<Response>)
    requires |results| == |replies|
    requires forall i :: 0 <= i < |replies| ==> ChainsTool(replies[i])
    ensures Admissible(Config(CallingTool(call), h), Chain(results, replies))
    ensures forall r :: r in Requests(tools, Config(CallingTool(call), h), Chain(results, replies)) ==> !r.ReadLine?
    decreases |results|
  {
    ToolChain(call, h, results, replies);
    if results != [] {
      var h1 := h + [ToolResultEntry(results[0])];
      var next := Interpret(FirstPart(replies[0])).call;
      ChainTail(results, replies);
      ToolChainReadsNoLine(tools, next, h1, results[1..], replies[1..]);
      ChainRound(tools, call, h, results[0], replies[0]);
      TwoSteps(tools, Config(CallingTool(call), h), Returned(results[0]), Reply(replies[0]), Chain(results[1..], replies[1..]));
    }
  }

  /** The entries of a chain's results are the first result's entry followed by the entries of the rest. */
  lemma EntriesTail(h: seq<Entry>, results: seq<ToolResult>)
    requires results != []
    ensures h + [ToolResultEntry(results[0])] + ToolEntries(results[1..]) == h + ToolEntries(results)
  {
    assert ToolEntries(results) == [ToolResultEntry(results[0])] + ToolEntries(results[1..]);
  }

  /** A non-empty chain is its first round followed by the chain of the rest, whose replies still ask for tools. */
  lemma ChainTail(results: seq<ToolResult>, replies: seq<Response>)
    requires |results| == |replies| && results != []
    requires forall i :: 0 <= i < |replies| ==> ChainsTool(replies[i])
    ensures Chain(results, replies) == [Returned(results[0]), Reply(replies[0])] + Chain(results[1..], replies[1..])
    ensures forall i :: 0 <= i < |replies[1..]| ==> ChainsTool(replies[1..][i])
  {
    forall i | 0 <= i < |replies[1..]| ensures ChainsTool(replies[1..][i]) {
      assert replies[1..][i] == replies[i + 1];
    }
  }

  /** One round of a chain: the result is appended, the model is asked, and the next tool is called. */
  lemma ChainRound(tools: seq<FunctionDeclaration>, call: FunctionCall, h: seq<Entry>, result: ToolResult, reply: Response)
    requires ChainsTool(reply)
    ensures var c := Config(CallingTool(call), h);
      && Fits(c, Returned(result))
      && Step(c, Returned(result)) == Config(AwaitingModel, h + [ToolResultEntry(result)])
      && Fits(Step(c, Returned(result)), Reply(reply))
      && Step(Step(c, Returned(result)), Reply(reply))
         == Config(CallingTool(Interpret(FirstPart(reply)).call), h + [ToolResultEntry(result)])
      && !Pending(tools, c).ReadLine?
      && !Pending(tools, Step(c, Returned(result))).ReadLine?
  {
  }

  // ---------------------------------------------------------------------
  // A post, end to end

  /**
   * The user asks for a post; the model calls `createPost` with a topic; the
   * post writer answers with a text; the tool server answers with a result.
   * The tool receives the written text as its status, the history gains the
   * typed line and one marked result entry, and the model is asked next.
   */
  lemma PostScenario(tools: seq<FunctionDeclaration>, h: seq<Entry>, question: string, topic: string,
                     post: string, result: ToolResult)
    requires post != ""
    ensures var call := FunctionCall(CreatePost, map["status" := topic]);
      var script := [Line(question),
                     Reply(Response([Candidate(Some([Part(Some(call), None)]))])),
                     Reply(Response([Candidate(Some([Part(None, Some(post))]))])),
                     Returned(result)];
      && Admissible(Config(AwaitingUser, h), script)
      && Run(Config(AwaitingUser, h), script)
         == Config(AwaitingModel, h + [Entry(User, question), ToolResultEntry(result)])
      && Requests(tools, Config(AwaitingUser, h), script)
         == [ReadLine(UserPrompt),
             Generate(ModelName, h + [Entry(User, question)], Some(GenerateConfig(tools, SystemInstruction))),
             SynthesisRequest(Topic(map["status" := topic])),
             InvokeTool(CreatePost, map["status" := post])]
  {
    var call := FunctionCall(CreatePost, map["status" := topic]);
    var o1, o2 := Line(question), Reply(Response([Candidate(Some([Part(Some(call), None)]))]));
    var o3, o4 := Reply(Response([Candidate(Some([Part(None, Some(post))]))])), Returned(result);
    var c0 := Config(AwaitingUser, h);
    var h1 := h + [Entry(User, question)];
    var c2 := Config(Synthesizing(call), h1);
    var c3 := Config(CallingTool(FunctionCall(CreatePost, map["status" := post])), h1);
    var c4 := Config(AwaitingModel, h1 + [ToolResultEntry(result)]);
    assert Step(Step(c0, o1), o2) == c2 && Pending(tools, Step(c0, o1)) == Generate(ModelName, h1, Some(GenerateConfig(tools, SystemInstruction)));
    assert Step(c2, o3) == c3 && Step(c3, o4) == c4 by {
      assert call.args["status" := post] == map["status" := post];
    }
    assert Pending(tools, c2) == SynthesisRequest(Topic(map["status" := topic]));
    assert Pending(tools, c3) == InvokeTool(CreatePost, map["status" := post]);
    assert Admissible(c4, []) && Run(c4, []) == c4 && Requests(tools, c4, []) == [];
    TwoSteps(tools, c2, o3, o4, []);
    assert [o3, o4] + [] == [o3, o4];
    TwoSteps(tools, c0, o1, o2, [o3, o4]);
    assert [o1, o2] + [o3, o4] == [o1, o2, o3, o4];
    assert h1 + [ToolResultEntry(result)] == h + [Entry(User, question), ToolResultEntry(result)];
  }
}
