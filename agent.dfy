/** The agent: a registry of tools, a transcript that only grows, and the
    loop that answers one user message by calling the model until it stops
    asking for tools. `Converse` is the loop as a function of the state it
    starts from; `Agent.SendMessage` is proved to follow it. */
module AgentLoop {
  import opened Wrappers
  import opened Files
  import opened Tools
  import opened Transcript
  import opened Client

  const DefaultModel := "claude-3-5-sonnet-20241022"
  const MaxTokens := 4096

  /** The model to use: the given one, or the default when none is given. */
  function ResolveModel(model: string): (m: string)
    ensures m != ""
    ensures model != "" ==> m == model
    ensures model == "" ==> m == DefaultModel
  {
    if model == "" then DefaultModel else model
  }

  /** The tools in the form sent with every request, in registry order. */
  function ApiTools(tools: seq<ToolDefinition>): (params: seq<ToolParam>)
    ensures |params| == |tools|
    ensures forall i :: 0 <= i < |tools| ==>
      && params[i].name == tools[i].name
      && params[i].description == Some(tools[i].description)
      && params[i].inputSchema == tools[i].inputSchema
  {
    seq(|tools|, i requires 0 <= i < |tools| => ToAnthropicTool(tools[i]))
  }

  /** The first registered tool with the given name, if any. */
  function Lookup(tools: seq<ToolDefinition>, name: string): (found: Option<ToolDefinition>)
    ensures found.None? <==> forall i :: 0 <= i < |tools| ==> tools[i].name != name
    ensures found.Some? ==> found.value.name == name && found.value in tools
  {
    if tools == [] then None
    else if tools[0].name == name then Some(tools[0])
    else
      var rest := Lookup(tools[1..], name);
      assert forall i :: 1 <= i < |tools| ==> tools[i] == tools[1..][i - 1];
      rest
  }

  /** The tool found is the one at the first index carrying the name. */
  lemma {:induction false} LookupFirst(tools: seq<ToolDefinition>, name: string, k: nat)
    requires k < |tools| && tools[k].name == name
    requires forall j :: 0 <= j < k ==> tools[j].name != name
    ensures Lookup(tools, name) == Some(tools[k])
  {
    if k > 0 {
      LookupFirst(tools[1..], name, k - 1);
    }
  }

  /** In the built-in registry every tool is found under its own name. */
  lemma RegistryLookup()
    ensures Lookup(GetAllTools(), "read_file") == Some(ReadFileTool())
    ensures Lookup(GetAllTools(), "list_files") == Some(ListFilesTool())
    ensures Lookup(GetAllTools(), "edit_file") == Some(EditFileTool())
  {
    var tools := GetAllTools();
    LookupFirst(tools, "read_file", 0);
    LookupFirst(tools, "list_files", 1);
    LookupFirst(tools, "edit_file", 2);
  }

  /** One tool call: lookup by name, re-encoding of the input, then the
      tool's executor. */
  function ExecuteOutcome(tools: seq<ToolDefinition>, name: string, input: ToolInput, d: Disk): (r: (Result<string>, Disk))
    ensures Lookup(tools, name).None? ==> r == (Err("tool not found: " + name), d)
    ensures r.1 != d ==> Lookup(tools, name).Some? && Lookup(tools, name).value.executor == EditFileFn
  {
    match Lookup(tools, name)
    case None => (Err("tool not found: " + name), d)
    case Some(tool) =>
      match input
      case Unmarshalable(reason) => (Err("failed to marshal input: " + reason), d)
      case Input(payload) => RunExecutor(tool.executor, d, payload)
  }

  /** The content of a tool result: the tool's output, or its error as text. */
  function ResultText(r: Result<string>): (text: string)
    ensures r.Ok? ==> text == r.value
    ensures r.Err? ==> text == "Error: " + r.error
  {
    match r
    case Ok(output) => output
    case Err(e) => "Error: " + e
  }

  /** Runs every tool_use block of a response in order, threading the disk;
      each yields one tool_result block with the request's ID and the error
      flag cleared. */
  function RunTools(tools: seq<ToolDefinition>, blocks: seq<ContentBlock>, d: Disk): (r: (seq<ContentBlock>, Disk))
    ensures |r.0| == |ToolUses(blocks)|
    ensures forall i :: 0 <= i < |r.0| ==> r.0[i].ToolResultBlock? && !r.0[i].isError
  {
    if blocks == [] then ([], d)
    else
      var before := RunTools(tools, blocks[..|blocks| - 1], d);
      var b := blocks[|blocks| - 1];
      if b.ToolUseBlock? then
        var run := ExecuteOutcome(tools, b.name, b.input, before.1);
        (before.0 + [ToolResultBlock(b.id, ResultText(run.0), false)], run.1)
      else before
  }

  /** The results answer the tool uses one to one: same number, same IDs in
      the same order, none flagged as an error. */
  predicate Answers(results: seq<ContentBlock>, blocks: seq<ContentBlock>)
  {
    var uses := ToolUses(blocks);
    && |results| == |uses|
    && forall i :: 0 <= i < |results| ==>
         results[i].ToolResultBlock? && results[i].toolUseId == uses[i].id && !results[i].isError
  }

  lemma {:induction false} RunToolsAnswers(tools: seq<ToolDefinition>, blocks: seq<ContentBlock>, d: Disk)
    ensures Answers(RunTools(tools, blocks, d).0, blocks)
  {
    if blocks != [] {
      RunToolsAnswers(tools, blocks[..|blocks| - 1], d);
    }
  }

  /** One more block: a tool use is run on the disk the earlier blocks left
      and its result appended; any other block changes nothing. */
  lemma RunToolsSnoc(tools: seq<ToolDefinition>, blocks: seq<ContentBlock>, b: ContentBlock, d: Disk)
    ensures var before := RunTools(tools, blocks, d);
      RunTools(tools, blocks + [b], d)
        == if b.ToolUseBlock? then
             var run := ExecuteOutcome(tools, b.name, b.input, before.1);
             (before.0 + [ToolResultBlock(b.id, ResultText(run.0), false)], run.1)
           else before
  {
    assert (blocks + [b])[..|blocks|] == blocks;
  }

  /** Running a reply in two parts is running the first part, then the
      second on the disk the first left: each tool call sees the effects of
      the calls before it, and the results are joined in order. */
  lemma {:induction false} RunToolsAppend(tools: seq<ToolDefinition>, a: seq<ContentBlock>, b: seq<ContentBlock>, d: Disk)
    ensures var first := RunTools(tools, a, d);
      var second := RunTools(tools, b, first.1);
      RunTools(tools, a + b, d) == (first.0 + second.0, second.1)
    decreases |b|
  {
    if b == [] {
      assert a + b == a;
      var first := RunTools(tools, a, d);
      assert RunTools(tools, b, first.1) == ([], first.1);
      assert first.0 + [] == first.0;
    } else {
      var front := b[..|b| - 1];
      var last := b[|b| - 1];
      RunToolsAppend(tools, a, front, d);
      assert (a + b)[..|a + b| - 1] == a + front;
      assert (a + b)[|a + b| - 1] == last;
      var first := RunTools(tools, a, d);
      var mid := RunTools(tools, front, first.1);
      if last.ToolUseBlock? {
        var run := ExecuteOutcome(tools, last.name, last.input, mid.1);
        var res := [ToolResultBlock(last.id, ResultText(run.0), false)];
        assert RunTools(tools, b, first.1) == (mid.0 + res, run.1);
        assert RunTools(tools, a + b, d) == ((first.0 + mid.0) + res, run.1);
        assert (first.0 + mid.0) + res == first.0 + (mid.0 + res);
      } else {
        assert RunTools(tools, b, first.1) == mid;
      }
    }
  }

  /** The result for the tool use at index `p` of a reply: it follows the
      results of the blocks before it, and holds the tool's output, or
      "Error: " and its error, from a run on the disk those blocks left. */
  lemma RunToolsResultAt(tools: seq<ToolDefinition>, blocks: seq<ContentBlock>, d: Disk, p: nat)
    requires p < |blocks| && blocks[p].ToolUseBlock?
    ensures var before := RunTools(tools, blocks[..p], d);
      var run := ExecuteOutcome(tools, blocks[p].name, blocks[p].input, before.1);
      && |RunTools(tools, blocks, d).0| > |before.0|
      && RunTools(tools, blocks, d).0[|before.0|] == ToolResultBlock(blocks[p].id, ResultText(run.0), false)
  {
    var head := blocks[..p + 1];
    assert head[..|head| - 1] == blocks[..p];
    assert blocks == head + blocks[p + 1..];
    RunToolsAppend(tools, head, blocks[p + 1..], d);
  }

  /** Without tool_use blocks nothing runs and the disk is untouched. */
  lemma {:induction false} RunToolsNone(tools: seq<ToolDefinition>, blocks: seq<ContentBlock>, d: Disk)
    requires !HasToolUse(blocks)
    ensures RunTools(tools, blocks, d) == ([], d)
  {
    if blocks != [] {
      var front := blocks[..|blocks| - 1];
      assert !HasToolUse(front) by {
        forall i | 0 <= i < |front| ensures !front[i].ToolUseBlock? {
          assert front[i] == blocks[i];
        }
      }
      RunToolsNone(tools, front, d);
    }
  }

  /** A reply with a single tool use yields a single result for it. */
  lemma RunToolsSingle(tools: seq<ToolDefinition>, id: string, name: string, input: ToolInput, d: Disk)
    ensures var run := ExecuteOutcome(tools, name, input, d);
      RunTools(tools, [ToolUseBlock(id, name, input)], d) == ([ToolResultBlock(id, ResultText(run.0), false)], run.1)
  {
    var blocks := [ToolUseBlock(id, name, input)];
    assert blocks[..|blocks| - 1] == [];
    assert RunTools(tools, blocks[..|blocks| - 1], d) == ([], d);
    var run := ExecuteOutcome(tools, name, input, d);
    assert RunTools(tools, blocks, d) == ([] + [ToolResultBlock(id, ResultText(run.0), false)], run.1);
    assert [] + [ToolResultBlock(id, ResultText(run.0), false)] == [ToolResultBlock(id, ResultText(run.0), false)];
  }

  /** A request for an unregistered tool is answered in band, without
      touching the disk. */
  lemma UnknownToolAnswered(tools: seq<ToolDefinition>, id: string, name: string, input: ToolInput, d: Disk)
    requires forall i :: 0 <= i < |tools| ==> tools[i].name != name
    ensures RunTools(tools, [ToolUseBlock(id, name, input)], d).0
         == [ToolResultBlock(id, "Error: tool not found: " + name, false)]
    ensures RunTools(tools, [ToolUseBlock(id, name, input)], d).1 == d
  {
    var blocks := [ToolUseBlock(id, name, input)];
    assert blocks[..0] == [];
    var run := ExecuteOutcome(tools, name, input, d);
    assert run == (Err("tool not found: " + name), d);
    assert ResultText(run.0) == "Error: tool not found: " + name by {
      assert "Error: " + ("tool not found: " + name) == ("Error: " + "tool not found: ") + name;
      assert "Error: " + "tool not found: " == "Error: tool not found: ";
    }
  }

  /** Everything the loop reads and changes: the transcript, the requests the
      model received, the replies it has yet to give, and the disk. */
  datatype World = World(messages: seq<Message>, requests: seq<Request>, script: seq<Reply>, disk: Disk)

  /** The request of the next call: the model, the token limit, the whole
      transcript and every tool. */
  function CallOf(model: string, tools: seq<ToolDefinition>, w: World): (r: Request)
    ensures r.model == model && r.maxTokens == 4096
    ensures r.messages == w.messages && |r.tools| == |tools|
  {
    Request(model, MaxTokens, w.messages, ApiTools(tools))
  }

  /** The state after a call whose reply asked for tools: the reply and the
      tools' results appended, the call recorded, the reply used up. The
      transcript grows by one round trip. */
  function Continue(model: string, tools: seq<ToolDefinition>, w: World, content: seq<ContentBlock>): (r: World)
    requires w.script != []
    ensures HasToolUse(content) ==> RoundTrip(w.messages, r.messages, Ok(content))
  {
    var ran := RunTools(tools, content, w.disk);
    RunToolsAnswers(tools, content, w.disk);
    World(w.messages + [Message(Assistant, content), Message(User, ran.0)],
          w.requests + [CallOf(model, tools, w)], w.script[1..], ran.1)
  }

  /** The loop from a given state: call the model with the whole transcript;
      on failure stop with "API call failed"; otherwise append the reply as
      one assistant message; with no tool use stop with its text; else run
      the tools, append their results as one user message and call again. */
  function Converse(model: string, tools: seq<ToolDefinition>, w: World): (r: (Result<string>, World))
    ensures |r.1.requests| > |w.requests|
    ensures w.messages <= r.1.messages
    decreases |w.script|
  {
    var reply := NextReply(w.script).0;
    var called := w.(requests := w.requests + [CallOf(model, tools, w)], script := NextReply(w.script).1);
    if reply.Err? then (Err("API call failed: " + reply.error), called)
    else if !HasToolUse(reply.value) then
      (Ok(TextOf(reply.value)), called.(messages := w.messages + [Message(Assistant, reply.value)]))
    else Converse(model, tools, Continue(model, tools, w, reply.value))
  }

  /** One user turn: the user's text appended, then the loop. */
  function SendOutcome(model: string, tools: seq<ToolDefinition>, userMessage: string, w: World): (r: (Result<string>, World))
    ensures |r.1.requests| > |w.requests|
    ensures w.messages + [UserText(userMessage)] <= r.1.messages
  {
    Converse(model, tools, w.(messages := w.messages + [UserText(userMessage)]))
  }

  /** Every loop makes at least one call; the first call carries the
      transcript as it was, and nothing earlier is lost. */
  lemma {:induction false} ConverseFirstCall(model: string, tools: seq<ToolDefinition>, w: World)
    ensures var w' := Converse(model, tools, w).1;
      && |w'.requests| > |w.requests|
      && w'.requests[..|w.requests|] == w.requests
      && w'.requests[|w.requests|] == CallOf(model, tools, w)
      && w.messages <= w'.messages
    decreases |w.script|
  {
    if w.script != [] && w.script[0].Ok? && HasToolUse(w.script[0].value) {
      var next := Continue(model, tools, w, w.script[0].value);
      ConverseFirstCall(model, tools, next);
      var w' := Converse(model, tools, next).1;
      assert w'.requests[..|next.requests|][..|w.requests|] == w'.requests[..|w.requests|];
      assert w'.requests[..|next.requests|][|w.requests|] == w'.requests[|w.requests|];
      assert w.messages <= next.messages;
    }
  }

  /** Two calls in a row: between them exactly two messages were appended,
      the reply to the earlier call as one assistant message with its blocks
      unchanged, then one user message answering its tool uses. */
  predicate RoundTrip(before: seq<Message>, after: seq<Message>, reply: Reply)
  {
    && reply.Ok? && HasToolUse(reply.value)
    && |after| == |before| + 2 && before <= after
    && after[|before|] == Message(Assistant, reply.value)
    && after[|before| + 1].role == User
    && Answers(after[|before| + 1].content, reply.value)
  }

  /** The messages of the request at index `j`, or none. */
  function SentAt(requests: seq<Request>, j: int): seq<Message>
  {
    if 0 <= j < |requests| then requests[j].messages else []
  }

  /** The reply the loop got to the `k`-th call it made, if the script had
      one. */
  function ReplyAt(script: seq<Reply>, k: int): Reply
  {
    if 0 <= k < |script| then script[k] else Err(NoReplyLeft)
  }

  /** The call at index `j` of `requests`, counted from `first`, was
      answered with `script`'s reply for it, and that reply made the round
      trip to the next call. */
  predicate Chained(requests: seq<Request>, script: seq<Reply>, first: int, j: int)
  {
    RoundTrip(SentAt(requests, j), SentAt(requests, j + 1), ReplyAt(script, j - first))
  }

  /** A chain of round trips from index `n0 + 1` on, against the replies
      after the first, extends to index `n0` when the first reply made the
      round trip from request `n0` to request `n0 + 1`. */
  lemma ChainShift(requests: seq<Request>, script: seq<Reply>, n0: nat, rest: seq<Reply>, n1: nat)
    requires script != [] && rest == script[1..] && n1 == n0 + 1
    requires Chained(requests, script, n0, n0)
    requires forall j :: n1 <= j < |requests| - 1 ==> Chained(requests, rest, n1, j)
    ensures forall j :: n0 <= j < |requests| - 1 ==> Chained(requests, script, n0, j)
  {
    forall j | n1 <= j < |requests| - 1
      ensures Chained(requests, script, n0, j)
    {
      assert Chained(requests, rest, n1, j);
      assert ReplyAt(script, j - n0) == ReplyAt(rest, j - n1);
    }
  }

  /** Each call but the last was answered with tool uses, and the next call
      saw the transcript grown by exactly that round trip. */
  lemma {:induction false} ConverseChain(model: string, tools: seq<ToolDefinition>, w: World)
    ensures var w' := Converse(model, tools, w).1;
      forall j :: |w.requests| <= j < |w'.requests| - 1 ==> Chained(w'.requests, w.script, |w.requests|, j)
    decreases |w.script|
  {
    ConverseFirstCall(model, tools, w);
    if w.script != [] && w.script[0].Ok? && HasToolUse(w.script[0].value) {
      var content := w.script[0].value;
      var next := Continue(model, tools, w, content);
      ConverseChain(model, tools, next);
      ConverseFirstCall(model, tools, next);
      var w' := Converse(model, tools, next).1;
      var n0 := |w.requests|;
      assert w'.requests[n0] == CallOf(model, tools, w) by {
        assert w'.requests[..|next.requests|][n0] == next.requests[n0];
      }
      assert SentAt(w'.requests, n0) == w.messages;
      assert SentAt(w'.requests, n0 + 1) == next.messages;
      assert Chained(w'.requests, w.script, n0, n0);
      ChainShift(w'.requests, w.script, n0, next.script, |next.requests|);
    }
  }

  /** Every call of the loop sends the model, the token limit and every
      tool, with the transcript as it stood at that call. */
  lemma {:induction false} ConverseRequests(model: string, tools: seq<ToolDefinition>, w: World)
    ensures var w' := Converse(model, tools, w).1;
      forall j :: |w.requests| <= j < |w'.requests| ==>
        w'.requests[j] == Request(model, MaxTokens, SentAt(w'.requests, j), ApiTools(tools))
    decreases |w.script|
  {
    ConverseFirstCall(model, tools, w);
    if w.script != [] && w.script[0].Ok? && HasToolUse(w.script[0].value) {
      var next := Continue(model, tools, w, w.script[0].value);
      ConverseRequests(model, tools, next);
      ConverseFirstCall(model, tools, next);
      var w' := Converse(model, tools, next).1;
      assert w'.requests[|w.requests|] == CallOf(model, tools, w) by {
        assert w'.requests[..|next.requests|][|w.requests|] == next.requests[|w.requests|];
      }
    }
  }

  /** The disk after the tool runs of a sequence of replies, each run on the
      disk the previous one left. */
  function DiskAfterRounds(tools: seq<ToolDefinition>, replies: seq<Reply>, d: Disk): Disk
  {
    if replies == [] then d
    else
      var after := if replies[0].Ok? then RunTools(tools, replies[0].value, d).1 else d;
      DiskAfterRounds(tools, replies[1..], after)
  }

  /** The disk after a turn: the tools of every reply but the last were run
      in order, each reply's on the disk the previous ones left, and nothing
      else touched the disk. */
  lemma {:induction false} ConverseDisk(model: string, tools: seq<ToolDefinition>, w: World)
    ensures var w' := Converse(model, tools, w).1;
      var rounds := |w'.requests| - |w.requests| - 1;
      && 0 <= rounds <= |w.script|
      && w'.disk == DiskAfterRounds(tools, w.script[..rounds], w.disk)
    decreases |w.script|
  {
    if w.script != [] && w.script[0].Ok? && HasToolUse(w.script[0].value) {
      var next := Continue(model, tools, w, w.script[0].value);
      ConverseDisk(model, tools, next);
      var w' := Converse(model, tools, next).1;
      var rounds := |w'.requests| - |next.requests| - 1;
      assert w.script[..rounds + 1][0] == w.script[0];
      assert w.script[..rounds + 1][1..] == next.script[..rounds];
    } else {
      assert w.script[..0] == [];
    }
  }

  /** The results message of the call at index `j`, counted from `first`:
      the tool results of the reply to that call, run on the disk the replies
      before it left, starting from `d`. */
  predicate RanAt(tools: seq<ToolDefinition>, requests: seq<Request>, script: seq<Reply>, d: Disk, first: int, j: int)
  {
    var before := SentAt(requests, j);
    var after := SentAt(requests, j + 1);
    var reply := ReplyAt(script, j - first);
    && 0 <= j - first <= |script|
    && reply.Ok? && |after| > |before| + 1
    && after[|before| + 1].content == RunTools(tools, reply.value, DiskAfterRounds(tools, script[..j - first], d)).0
  }

  /** Results that hold from index `n1` on, against the replies after the
      first and the disk the first left, extend to index `n0`. */
  lemma RanShift(tools: seq<ToolDefinition>, requests: seq<Request>, script: seq<Reply>, d: Disk, n0: nat,
                 rest: seq<Reply>, d1: Disk, n1: nat)
    requires script != [] && script[0].Ok? && rest == script[1..] && n1 == n0 + 1
    requires d1 == RunTools(tools, script[0].value, d).1
    requires RanAt(tools, requests, script, d, n0, n0)
    requires forall j :: n1 <= j < |requests| - 1 ==> RanAt(tools, requests, rest, d1, n1, j)
    ensures forall j :: n0 <= j < |requests| - 1 ==> RanAt(tools, requests, script, d, n0, j)
  {
    forall j | n1 <= j < |requests| - 1
      ensures RanAt(tools, requests, script, d, n0, j)
    {
      assert RanAt(tools, requests, rest, d1, n1, j);
      var k := j - n1;
      assert ReplyAt(script, j - n0) == ReplyAt(rest, k);
      assert script[..k + 1][0] == script[0];
      assert script[..k + 1][1..] == rest[..k];
      assert DiskAfterRounds(tools, script[..k + 1], d) == DiskAfterRounds(tools, rest[..k], d1);
    }
  }

  /** The user message that follows each reply asking for tools holds
      exactly the results of running that reply's tools, on the disk the
      earlier replies of the turn left. */
  lemma {:induction false} ConverseResults(model: string, tools: seq<ToolDefinition>, w: World)
    ensures var w' := Converse(model, tools, w).1;
      forall j :: |w.requests| <= j < |w'.requests| - 1 ==> RanAt(tools, w'.requests, w.script, w.disk, |w.requests|, j)
    decreases |w.script|
  {
    ConverseFirstCall(model, tools, w);
    if w.script != [] && w.script[0].Ok? && HasToolUse(w.script[0].value) {
      var content := w.script[0].value;
      var next := Continue(model, tools, w, content);
      ConverseResults(model, tools, next);
      ConverseFirstCall(model, tools, next);
      var w' := Converse(model, tools, next).1;
      var n0 := |w.requests|;
      assert w'.requests[n0] == CallOf(model, tools, w) by {
        assert w'.requests[..|next.requests|][n0] == next.requests[n0];
      }
      assert SentAt(w'.requests, n0) == w.messages;
      assert SentAt(w'.requests, n0 + 1) == next.messages;
      assert w.script[..0] == [];
      assert RanAt(tools, w'.requests, w.script, w.disk, n0, n0);
      RanShift(tools, w'.requests, w.script, w.disk, n0, next.script, next.disk, |next.requests|);
    }
  }

  /** How the loop ends, read off the reply to its last call: a failed call
      (or none left) appends nothing and reports "API call failed"; a reply
      without tool uses is appended and its text returned. The replies used
      are exactly one per call. */
  lemma {:induction false} ConverseLast(model: string, tools: seq<ToolDefinition>, w: World)
    ensures |Converse(model, tools, w).1.requests| > |w.requests|
    ensures var answer := Converse(model, tools, w).0;
      var w' := Converse(model, tools, w).1;
      var k := |w'.requests| - 1 - |w.requests|;
      var last := SentAt(w'.requests, |w'.requests| - 1);
      && 0 <= k <= |w.script|
      && (k == |w.script| ==>
            w'.script == [] && answer == Err("API call failed: " + NoReplyLeft) && w'.messages == last)
      && (k < |w.script| ==> w'.script == w.script[k + 1..])
      && (ReplyAt(w.script, k).Err? ==>
            answer == Err("API call failed: " + ReplyAt(w.script, k).error) && w'.messages == last)
      && (ReplyAt(w.script, k).Ok? ==>
            && !HasToolUse(ReplyAt(w.script, k).value)
            && answer == Ok(TextOf(ReplyAt(w.script, k).value))
            && w'.messages == last + [Message(Assistant, ReplyAt(w.script, k).value)])
    decreases |w.script|
  {
    ConverseFirstCall(model, tools, w);
    if w.script != [] && w.script[0].Ok? && HasToolUse(w.script[0].value) {
      var next := Continue(model, tools, w, w.script[0].value);
      ConverseLast(model, tools, next);
      var k := |Converse(model, tools, next).1.requests| - 1 - |next.requests|;
      assert ReplyAt(next.script, k) == ReplyAt(w.script, k + 1);
      if k < |next.script| {
        assert next.script[k + 1..] == w.script[k + 2..];
      }
    }
  }

  /** The user's text is the first thing appended and is in every request
      of the turn. */
  lemma SendStartsWithUser(model: string, tools: seq<ToolDefinition>, userMessage: string, w: World)
    ensures var w' := SendOutcome(model, tools, userMessage, w).1;
      && |w'.requests| > |w.requests|
      && w'.requests[|w.requests|].messages == w.messages + [UserText(userMessage)]
      && w.messages + [UserText(userMessage)] <= w'.messages
  {
    ConverseFirstCall(model, tools, w.(messages := w.messages + [UserText(userMessage)]));
  }

  /** A reply with text only ends the turn at once: its text is returned and
      the reply is the only message appended. */
  lemma ImmediateAnswer(model: string, tools: seq<ToolDefinition>, w: World, content: seq<ContentBlock>)
    requires w.script != [] && w.script[0] == Ok(content) && !HasToolUse(content)
    ensures Converse(model, tools, w)
         == (Ok(TextOf(content)),
             w.(messages := w.messages + [Message(Assistant, content)],
                requests := w.requests + [CallOf(model, tools, w)],
                script := w.script[1..]))
  {
  }

  /** A model failure after one completed round trip: the error is reported
      and the transcript keeps the round trip and nothing of the failed
      call. */
  lemma FailureAfterToolUse(model: string, tools: seq<ToolDefinition>, w: World,
                            id: string, name: string, input: ToolInput, e: string)
    requires |w.script| >= 2
    requires w.script[0] == Ok([ToolUseBlock(id, name, input)]) && w.script[1] == Err(e)
    ensures var o := Converse(model, tools, w);
      && o.0 == Err("API call failed: " + e)
      && o.1.messages
         == w.messages + [Message(Assistant, [ToolUseBlock(id, name, input)]),
                          Message(User, [ToolResultBlock(id, ResultText(ExecuteOutcome(tools, name, input, w.disk).0), false)])]
  {
    var use := ToolUseBlock(id, name, input);
    assert [use][0].ToolUseBlock?;
    RunToolsSingle(tools, id, name, input, w.disk);
    var next := Continue(model, tools, w, [use]);
    assert next.script[0] == Err(e);
  }

  /** A request for an unknown tool does not end the turn: the model is
      called again with the error as the tool's result. */
  lemma UnknownToolContinues(model: string, tools: seq<ToolDefinition>, w: World,
                             id: string, name: string, input: ToolInput)
    requires forall i :: 0 <= i < |tools| ==> tools[i].name != name
    requires w.script != [] && w.script[0] == Ok([ToolUseBlock(id, name, input)])
    ensures var w' := Converse(model, tools, w).1;
      && |w'.requests| >= |w.requests| + 2
      && w'.requests[|w.requests| + 1].messages
         == w.messages + [Message(Assistant, [ToolUseBlock(id, name, input)]),
                          Message(User, [ToolResultBlock(id, "Error: tool not found: " + name, false)])]
  {
    var use := ToolUseBlock(id, name, input);
    assert [use][0].ToolUseBlock?;
    UnknownToolAnswered(tools, id, name, input, w.disk);
    var next := Continue(model, tools, w, [use]);
    ConverseFirstCall(model, tools, next);
  }

  /** Scans the tools for the first whose name matches. */
  method FindTool(tools: seq<ToolDefinition>, name: string) returns (found: Option<ToolDefinition>)
    ensures found == Lookup(tools, name)
  {
    found := None;
    var i := 0;
    while i < |tools|
      invariant 0 <= i <= |tools|
      invariant found == None
      invariant forall j :: 0 <= j < i ==> tools[j].name != name
    {
      if tools[i].name == name {
        found := Some(tools[i]);
        LookupFirst(tools, name, i);
        break;
      }
      i := i + 1;
    }
  }

  /** Concatenates the text blocks of a response in order. */
  method ConcatText(content: seq<ContentBlock>) returns (text: string)
    ensures text == TextOf(content)
  {
    text := "";
    var i := 0;
    while i < |content|
      invariant 0 <= i <= |content|
      invariant text == TextOf(content[..i])
    {
      assert content[..i + 1][..i] == content[..i];
      if content[i].TextBlock? {
        text := text + content[i].text;
      }
      i := i + 1;
    }
    assert content[..i] == content;
  }

  /** Converts every tool to its API form, filling a buffer of the same
      length. */
  method ConvertTools(tools: seq<ToolDefinition>) returns (params: seq<ToolParam>)
    ensures params == ApiTools(tools)
  {
    var buffer := new ToolParam[|tools|];
    for i := 0 to |tools|
      invariant forall j :: 0 <= j < i ==> buffer[j] == ToAnthropicTool(tools[j])
    {
      buffer[i] := ToAnthropicTool(tools[i]);
    }
    params := buffer[..];
  }

  class Agent {
    const client: ScriptedClient
    const tools: seq<ToolDefinition>
    var messages: seq<Message>
    const model: string

    /** The state `Converse` reads and changes. */
    function Snapshot(fs: FileSystem): World
      reads this, client, fs
    {
      World(messages, client.requests, client.script, fs.State())
    }

    /** A new agent: the built-in tools, an empty transcript, the model or
        its default, and a client configured with the key and, when given,
        the base URL. */
    constructor (apiKey: string, baseURL: string, model: string, script: seq<Reply>)
      ensures this.model == ResolveModel(model)
      ensures tools == GetAllTools() && messages == []
      ensures fresh(client)
      ensures client.options == ClientOptions(apiKey, baseURL) && client.script == script && client.requests == []
    {
      var opts := [WithAPIKey(apiKey)];
      if baseURL != "" {
        opts := opts + [WithBaseURL(baseURL)];
      }
      var m := model;
      if m == "" {
        m := DefaultModel;
      }
      client := new ScriptedClient(opts, script);
      tools := GetAllTools();
      messages := [];
      this.model := m;
    }

    /** Runs one tool call; lookup and input failures become errors. */
    method ExecuteTool(toolID: string, toolName: string, input: ToolInput, fs: FileSystem) returns (r: Result<string>)
      modifies fs`files
      ensures (r, fs.State()) == ExecuteOutcome(tools, toolName, input, old(fs.State()))
    {
      var tool := FindTool(tools, toolName);
      if tool.None? {
        return Err("tool not found: " + toolName);
      }
      if input.Unmarshalable? {
        return Err("failed to marshal input: " + input.reason);
      }
      match tool.value.executor
      case ReadFileFn => r := RunReadFile(fs, input.payload);
      case ListFilesFn => r := RunListFiles(fs, input.payload);
      case EditFileFn => r := RunEditFile(fs, input.payload);
    }

    /** Runs the tool_use blocks of one response in order and collects one
        result per block; says whether there was any. */
    method RunToolUses(content: seq<ContentBlock>, fs: FileSystem) returns (needsToolExecution: bool, toolResults: seq<ContentBlock>)
      modifies fs`files
      ensures needsToolExecution == HasToolUse(content)
      ensures (toolResults, fs.State()) == RunTools(tools, content, old(fs.State()))
    {
      needsToolExecution := false;
      toolResults := [];
      var i := 0;
      while i < |content|
        invariant 0 <= i <= |content|
        invariant needsToolExecution == HasToolUse(content[..i])
        invariant (toolResults, fs.State()) == RunTools(tools, content[..i], old(fs.State()))
      {
        ghost var prefix := content[..i];
        assert content[..i + 1] == prefix + [content[i]];
        HasToolUseSnoc(prefix, content[i]);
        RunToolsSnoc(tools, prefix, content[i], old(fs.State()));
        if content[i].ToolUseBlock? {
          needsToolExecution := true;
          var result := ExecuteTool(content[i].id, content[i].name, content[i].input, fs);
          toolResults := toolResults + [ToolResultBlock(content[i].id, ResultText(result), false)];
        }
        i := i + 1;
      }
      assert content[..i] == content;
    }

    /** Answers one user message, following `SendOutcome` exactly. */
    method SendMessage(userMessage: string, fs: FileSystem) returns (r: Result<string>)
      modifies this`messages, client, fs`files
      ensures (r, Snapshot(fs)) == SendOutcome(model, tools, userMessage, old(Snapshot(fs)))
    {
      messages := messages + [UserText(userMessage)];
      var apiTools := ConvertTools(tools);
      ghost var goal := Converse(model, tools, Snapshot(fs));
      while true
        invariant Converse(model, tools, Snapshot(fs)) == goal
        decreases |client.script|
      {
        ghost var before := Snapshot(fs);
        var response := client.New(Request(model, MaxTokens, messages, apiTools));
        if response.Err? {
          return Err("API call failed: " + response.error);
        }
        var content := response.value;
        messages := messages + [Message(Assistant, content)];
        var needsToolExecution, toolResults := RunToolUses(content, fs);
        if !needsToolExecution {
          RunToolsNone(tools, content, before.disk);
          var textResponse := ConcatText(content);
          return Ok(textResponse);
        }
        messages := messages + [Message(User, toolResults)];
        assert Snapshot(fs) == Continue(model, tools, before, content);
      }
    }
  }
}
