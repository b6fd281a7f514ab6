/** A Claude message streamed and translated chunk by chunk, against translating it whole. */
module ClaudeToChatSquare {
  import opened Text
  import opened Responses
  import opened Claude
  import opened Chat
  import opened ChatMessage
  import opened ClaudeToChat

  /** A content block of a whole Claude message; `input` is the tool's JSON object. */
  datatype Block<J> =
    | Said(text: string)
    | Thought(thinking: string, signature: string)
    | Hidden(data: string)
    | Used(id: string, altId: string, name: string, input: J)
    | Unknown

  datatype WholeClaude<J> = WholeClaude(
    id: string, model: string, content: seq<Block<J>>, stop: StopReason, inputTokens: Field, outputTokens: Field)

  /** `claudeResponseToOpenAI`: what a block adds. */
  function BlockShare<J>(c: Codec<J>, b: Block<J>): Share {
    match b
    case Said(t) => NO_SHARE.(content := t)
    case Thought(t, _) => NO_SHARE.(reasoning := t)
    case Used(id, altId, name, input) => NO_SHARE.(calls := [ToolCall(FirstOf(id, altId), Trim(name), c.encode(input))])
    case _ => NO_SHARE
  }

  function BlocksShare<J>(c: Codec<J>, blocks: seq<Block<J>>): Share {
    if blocks == [] then NO_SHARE else Plus(BlockShare(c, blocks[0]), BlocksShare(c, blocks[1..]))
  }

  function WholeCompletion<J>(c: Codec<J>, model: string, m: WholeClaude<J>): Completion {
    var share := BlocksShare(c, m.content);
    Completion(
      FirstOf(m.id, "chatcmpl-copilot"), FirstOf(m.model, model), 0,
      if share.content == "" && share.calls != [] then None else Some(share.content),
      "", share.reasoning, share.calls,
      ClaudeFinish(m.stop, share.calls != []), ClaudeUsage(m.inputTokens, m.outputTokens))
  }

  lemma {:induction false} BlocksShareMore<J>(c: Codec<J>, blocks: seq<Block<J>>, i: nat)
    requires i < |blocks|
    ensures BlocksShare(c, blocks[..i + 1]) == Plus(BlocksShare(c, blocks[..i]), BlockShare(c, blocks[i]))
  {
    var x := blocks[..i + 1];
    if i == 0 {
      assert x[1..] == [] && blocks[..0] == [];
      PlusLaws(BlockShare(c, blocks[0]), NO_SHARE, NO_SHARE);
    } else {
      assert x[1..] == blocks[1..][..i] && blocks[..i][1..] == blocks[1..][..i - 1];
      BlocksShareMore(c, blocks[1..], i - 1);
      PlusLaws(BlockShare(c, blocks[0]), BlocksShare(c, blocks[1..][..i - 1]), BlockShare(c, blocks[i]));
    }
  }

  /** `claudeResponseToOpenAI`, as the source writes it. */
  method MessageToChat<J>(c: Codec<J>, model: string, m: WholeClaude<J>) returns (result: Completion)
    ensures result == WholeCompletion(c, model, m)
    ensures ClaudeFinishTells(m.stop, result.calls != [], result.finish)
    ensures ClaudeUsageTells(m.inputTokens, m.outputTokens, result.usage)
    ensures (result.content == None ==> result.calls != []) && (result.content == Some("") ==> result.calls == [])
  {
    var text, reasoning, toolCalls := "", "", [];
    for i := 0 to |m.content|
      invariant BlocksShare(c, m.content[..i]) == Share(text, "", reasoning, toolCalls)
    {
      BlocksShareMore(c, m.content, i);
      match m.content[i] {
        case Said(t) => text := text + t;
        case Thought(t, _) => reasoning := reasoning + t;
        case Used(id, altId, name, input) =>
          toolCalls := toolCalls + [ToolCall(FirstOf(id, altId), Trim(name), c.encode(input))];
        case _ =>
      }
    }
    assert m.content[..|m.content|] == m.content;
    var content := if text == "" && |toolCalls| > 0 then None else Some(text);
    result := Completion(
      FirstOf(m.id, "chatcmpl-copilot"), FirstOf(m.model, model), 0, content, "", reasoning, toolCalls,
      ClaudeFinish(m.stop, |toolCalls| > 0), ClaudeUsage(m.inputTokens, m.outputTokens));
  }

  // ---- The stream of a message, with its text cut anywhere ----

  datatype BlockPlan<J> = BlockPlan(block: Block<J>, initial: string, chunks: seq<string>)

  /** The deltas spell out the block; no deltas stand for a tool's empty input. */
  predicate Fits<J(==)>(c: Codec<J>, p: BlockPlan<J>) {
    match p.block
    case Said(t) => p.initial + Concat(p.chunks) == t
    case Thought(t, _) => p.initial + Concat(p.chunks) == t
    case Used(_, _, _, input) => ReadArguments(c, Concat(p.chunks)) == Some(input)
    case _ => true
  }

  /** How a client reads a call's arguments: the empty text is the empty object. */
  function ReadArguments<J>(c: Codec<J>, text: string): Option<J> {
    if text == "" then Some(c.empty) else c.decode(text)
  }

  function Opening<J>(p: BlockPlan<J>): ContentBlock {
    match p.block
    case Said(_) => TextBlock(p.initial)
    case Thought(_, _) => ThinkingBlock(p.initial)
    case Hidden(data) => RedactedBlock(data)
    case Used(id, altId, name, _) => ToolUseBlock(id, altId, name)
    case Unknown => UnknownBlock
  }

  function ChunkFor<J>(b: Block<J>, text: string): BlockDelta {
    match b
    case Said(_) => TextChunk(text)
    case Thought(_, _) => ThinkingChunk(text)
    case Used(_, _, _, _) => InputChunk(text)
    case _ => UnknownChunk
  }

  function ChunkEvents<J>(i: nat, b: Block<J>, chunks: seq<string>): seq<Arrival> {
    if chunks == [] then [] else [Arrived(BlockChunk(i, ChunkFor(b, chunks[0])), true)] + ChunkEvents(i, b, chunks[1..])
  }

  function Signature<J>(b: Block<J>): string {
    if b.Thought? then b.signature else ""
  }

  function BlockEvents<J>(i: nat, p: BlockPlan<J>): seq<Arrival> {
    [Arrived(BlockStart(i, Opening(p)), true)] + ChunkEvents(i, p.block, p.chunks)
    + [Arrived(BlockChunk(i, SignatureChunk(Signature(p.block))), true), Arrived(BlockStop(i), true)]
  }

  function BlocksEvents<J>(i: nat, plans: seq<BlockPlan<J>>): seq<Arrival>
    decreases |plans|
  {
    if plans == [] then [] else BlockEvents(i, plans[0]) + BlocksEvents(i + 1, plans[1..])
  }

  function MessageEvents<J>(m: WholeClaude<J>, plans: seq<BlockPlan<J>>): seq<Arrival> {
    [Arrived(MessageStart(m.id, m.model, m.inputTokens), true)] + BlocksEvents(0, plans)
    + [Arrived(MessageDelta(m.stop, m.outputTokens), true), Arrived(MessageStop, true)]
  }

  // ---- What each block adds when it is streamed ----

  function StreamShare<J>(p: BlockPlan<J>): Share {
    match p.block
    case Said(t) => NO_SHARE.(content := t)
    case Thought(t, _) => NO_SHARE.(reasoning := t)
    case Used(id, altId, name, _) => NO_SHARE.(calls := [ToolCall(FirstOf(id, altId), Trim(name), Concat(p.chunks))])
    case _ => NO_SHARE
  }

  /** The client has heard every call, and no block has index `i` or more. */
  ghost predicate Ready(s: State, a: ChatDraft, i: nat) {
    && s.started && !s.stopped && |a.calls| == s.nextTool && (s.hasToolCalls <==> a.calls != [])
    && forall k :: k in s.blocks ==> k.At? && k.index < i
  }

  /** The whole-message fields are as they were. */
  predicate SameMessage(s: State, t: State) {
    t == s.(nextTool := t.nextTool, hasToolCalls := t.hasToolCalls, blocks := t.blocks)
  }

  ghost predicate Gained(s: State, a: ChatDraft, o: Outcome, i: nat, share: Share) {
    && o.error.None? && SameMessage(s, o.state)
    && HearAll(a, o.out) == Gain(a, share)
    && Ready(o.state, Gain(a, share), i)
  }

  lemma GainedTwice(s: State, a: ChatDraft, o: Outcome, q: Outcome, i: nat, j: nat, x: Share, y: Share)
    requires Gained(s, a, o, i, x) && Gained(o.state, Gain(a, x), q, j, y)
    ensures Gained(s, a, Outcome(q.state, o.out + q.out, None), j, Plus(x, y))
  {
    HearAppend(a, o.out, q.out);
    GainTwice(a, x, y);
  }

  lemma NothingGained(s: State, a: ChatDraft, i: nat)
    requires Ready(s, a, i)
    ensures Gained(s, a, Outcome(s, [], None), i, NO_SHARE)
  {
    GainTwice(a, NO_SHARE, NO_SHARE);
  }

  function Voice<J>(b: Block<J>, text: string): Share {
    match b
    case Said(_) => NO_SHARE.(content := text)
    case Thought(_, _) => NO_SHARE.(reasoning := text)
    case _ => NO_SHARE
  }

  lemma SpokenGains<J>(s: State, a: ChatDraft, i: nat, b: Block<J>, text: string)
    requires Ready(s, a, i) && (b.Said? || b.Thought?)
    ensures var d := if b.Said? then Say(text) else Reason(text);
            Gained(s, a, Outcome(s, Spoken(s, d, text), None), i, Voice(b, text))
  {
    GainTwice(a, NO_SHARE, NO_SHARE);
    EmptyEnds(a.calls);
    EmptyEnds(a.content);
    EmptyEnds(a.refusal);
    EmptyEnds(a.reasoning);
    HearOne(a, ChunkOf(s, if b.Said? then Say(text) else Reason(text)));
  }

  lemma {:induction false} TextGains<J>(s: State, a: ChatDraft, i: nat, k: nat, b: Block<J>, chunks: seq<string>)
    requires Ready(s, a, i) && !b.Used?
    ensures Gained(s, a, Run(s, ChunkEvents(k, b, chunks)), i, Voice(b, Concat(chunks)))
    decreases |chunks|
  {
    if chunks == [] {
      NothingGained(s, a, i);
    } else {
      var f := Arrived(BlockChunk(k, ChunkFor(b, chunks[0])), true);
      var first := Step(s, f);
      if b.Said? || b.Thought? {
        SpokenGains(s, a, i, b, chunks[0]);
      } else {
        NothingGained(s, a, i);
      }
      EmptyEnds(Extend(s, k, true, ChunkFor(b, chunks[0])).out);
      TextGains(s, Gain(a, Voice(b, chunks[0])), i, k, b, chunks[1..]);
      GainedTwice(s, a, first, Run(s, ChunkEvents(k, b, chunks[1..])), i, i, Voice(b, chunks[0]),
                  Voice(b, Concat(chunks[1..])));
      RunOne(s, f);
      RunAppend(s, [f], ChunkEvents(k, b, chunks[1..]));
      assert Plus(Voice(b, chunks[0]), Voice(b, Concat(chunks[1..]))) == Voice(b, Concat(chunks));
    }
  }

  /** The events that close a block say nothing to a Chat client. */
  lemma {:induction false} TailGains<J>(s: State, a: ChatDraft, i: nat, b: Block<J>)
    requires Ready(s, a, i + 1)
    ensures Gained(s, a,
                   Run(s, [Arrived(BlockChunk(i, SignatureChunk(Signature(b))), true), Arrived(BlockStop(i), true)]),
                   i + 1, NO_SHARE)
  {
    var f, l := Arrived(BlockChunk(i, SignatureChunk(Signature(b))), true), Arrived(BlockStop(i), true);
    assert Step(s, f) == Outcome(s, [], None) && Step(s, l) == Outcome(s, [], None);
    RunOne(s, f);
    RunOne(s, l);
    RunAppend(s, [f], [l]);
    assert [f] + [l] == [f, l];
    NothingGained(s, a, i + 1);
  }

  lemma StartedStep(s: State, i: nat, block: ContentBlock)
    requires s.started
    ensures var e := OpenBlock(s, i, true, block);
            Step(s, Arrived(BlockStart(i, block), true)) == Outcome(e.state, e.out, None)
  {
    EmptyEnds(OpenBlock(s, i, true, block).out);
  }

  lemma QuietOpens<J>(s: State, a: ChatDraft, i: nat, p: BlockPlan<J>)
    requires Ready(s, a, i) && !p.block.Used?
    ensures Gained(s, a, Step(s, Arrived(BlockStart(i, Opening(p)), true)), i + 1, Voice(p.block, p.initial))
  {
    StartedStep(s, i, Opening(p));
    var t := OpenBlock(s, i, true, Opening(p)).state;
    assert Ready(t, a, i + 1);
    if p.block.Said? || p.block.Thought? {
      SpokenGains(t, a, i + 1, p.block, p.initial);
    } else {
      NothingGained(t, a, i + 1);
    }
  }

  /** A tool block is open, its call announced, and these arguments heard. */
  ghost predicate ToolAt(s: State, a: ChatDraft, o: Outcome, i: nat, call: ToolCall) {
    && o.error.None? && SameMessage(s, o.state)
    && HearAll(a, o.out) == a.(calls := a.calls + [call])
    && Ready(o.state, a.(calls := a.calls + [call]), i + 1)
    && At(i) in o.state.blocks && o.state.blocks[At(i)].toolIndex == |a.calls|
  }

  lemma ToolOpens<J>(s: State, a: ChatDraft, i: nat, p: BlockPlan<J>)
    requires Ready(s, a, i) && p.block.Used?
    ensures ToolAt(s, a, Step(s, Arrived(BlockStart(i, Opening(p)), true)), i,
                   ToolCall(FirstOf(p.block.id, p.block.altId), Trim(p.block.name), ""))
  {
    StartedStep(s, i, Opening(p));
    assert At(i) !in s.blocks;
    HearOne(a, OpenBlock(s, i, true, Opening(p)).out[0]);
  }

  lemma ToolChunk<J>(s: State, a: ChatDraft, o: Outcome, i: nat, call: ToolCall, c: string)
    requires Ready(s, a, i) && ToolAt(s, a, o, i, call)
    ensures var l := Step(o.state, Arrived(BlockChunk(i, InputChunk(c)), true));
            && l.error.None?
            && ToolAt(s, a, Outcome(l.state, o.out + l.out, None), i, call.(arguments := call.arguments + c))
  {
    var e := Extend(o.state, i, true, InputChunk(c));
    EmptyEnds(e.out);
    HearAppend(a, o.out, e.out);
    var b := HearAll(a, o.out);
    if c == "" {
      assert o.out + e.out == o.out && call.arguments + c == call.arguments;
    } else {
      HearOne(b, e.out[0]);
      var n := |a.calls|;
      assert b.calls[n := b.calls[n].(arguments := call.arguments + c)]
              == a.calls + [call.(arguments := call.arguments + c)];
    }
  }

  lemma {:induction false} ToolChunks<J>(s: State, a: ChatDraft, o: Outcome, i: nat, call: ToolCall, b: Block<J>,
                                         chunks: seq<string>)
    requires Ready(s, a, i) && ToolAt(s, a, o, i, call) && b.Used?
    ensures var q := Run(o.state, ChunkEvents(i, b, chunks));
            && q.error.None?
            && ToolAt(s, a, Outcome(q.state, o.out + q.out, None), i,
                call.(arguments := call.arguments + Concat(chunks)))
    decreases |chunks|
  {
    if chunks == [] {
      EmptyEnds(o.out);
      EmptyEnds(call.arguments);
    } else {
      var f := Arrived(BlockChunk(i, InputChunk(chunks[0])), true);
      ToolChunk<J>(s, a, o, i, call, chunks[0]);
      var l := Step(o.state, f);
      var n := Outcome(l.state, o.out + l.out, None);
      var more := call.(arguments := call.arguments + chunks[0]);
      ToolChunks(s, a, n, i, more, b, chunks[1..]);
      RunOne(o.state, f);
      RunAppend(o.state, [f], ChunkEvents(i, b, chunks[1..]));
      Regroup(o.out, l.out, Run(l.state, ChunkEvents(i, b, chunks[1..])).out);
      Regroup(call.arguments, chunks[0], Concat(chunks[1..]));
    }
  }

  lemma {:induction false} Prefixes<J>(s: State, i: nat, p: BlockPlan<J>)
    requires Step(s, Arrived(BlockStart(i, Opening(p)), true)).error.None?
    ensures var o := Step(s, Arrived(BlockStart(i, Opening(p)), true));
            var q := Run(o.state, ChunkEvents(i, p.block, p.chunks));
            Run(s, [Arrived(BlockStart(i, Opening(p)), true)] + ChunkEvents(i, p.block, p.chunks))
            == Outcome(q.state, o.out + q.out, q.error)
  {
    RunOne(s, Arrived(BlockStart(i, Opening(p)), true));
    RunAppend(s, [Arrived(BlockStart(i, Opening(p)), true)], ChunkEvents(i, p.block, p.chunks));
  }

  lemma {:induction false} FilledBlock<J>(c: Codec<J>, s: State, a: ChatDraft, i: nat, p: BlockPlan<J>)
    requires Ready(s, a, i) && Fits(c, p)
    ensures Gained(s, a, Run(s, [Arrived(BlockStart(i, Opening(p)), true)] + ChunkEvents(i, p.block, p.chunks)),
             i + 1, StreamShare(p))
  {
    var o := Step(s, Arrived(BlockStart(i, Opening(p)), true));
    if p.block.Used? {
      var call := ToolCall(FirstOf(p.block.id, p.block.altId), Trim(p.block.name), "");
      ToolOpens(s, a, i, p);
      Prefixes(s, i, p);
      ToolChunks(s, a, o, i, call, p.block, p.chunks);
      EmptyEnds(Concat(p.chunks));
      EmptyEnds(a.content);
      EmptyEnds(a.refusal);
      EmptyEnds(a.reasoning);
    } else {
      QuietOpens(s, a, i, p);
      Prefixes(s, i, p);
      var x, y := Voice(p.block, p.initial), Voice(p.block, Concat(p.chunks));
      TextGains(o.state, Gain(a, x), i + 1, i, p.block, p.chunks);
      GainedTwice(s, a, o, Run(o.state, ChunkEvents(i, p.block, p.chunks)), i + 1, i + 1, x, y);
      assert Plus(x, y) == StreamShare(p);
    }
  }

  lemma {:induction false} OneBlock<J>(c: Codec<J>, s: State, a: ChatDraft, i: nat, p: BlockPlan<J>)
    requires Ready(s, a, i) && Fits(c, p)
    ensures Gained(s, a, Run(s, BlockEvents(i, p)), i + 1, StreamShare(p))
  {
    var head := [Arrived(BlockStart(i, Opening(p)), true)] + ChunkEvents(i, p.block, p.chunks);
    var tail := [Arrived(BlockChunk(i, SignatureChunk(Signature(p.block))), true), Arrived(BlockStop(i), true)];
    FilledBlock(c, s, a, i, p);
    var o := Run(s, head);
    TailGains(o.state, Gain(a, StreamShare(p)), i, p.block);
    GainedTwice(s, a, o, Run(o.state, tail), i + 1, i + 1, StreamShare(p), NO_SHARE);
    RunAppend(s, head, tail);
    PlusLaws(StreamShare(p), NO_SHARE, NO_SHARE);
  }

  function StreamShares<J>(plans: seq<BlockPlan<J>>): Share {
    if plans == [] then NO_SHARE else Plus(StreamShare(plans[0]), StreamShares(plans[1..]))
  }

  lemma {:induction false} AllBlocks<J>(c: Codec<J>, s: State, a: ChatDraft, i: nat, plans: seq<BlockPlan<J>>)
    requires Ready(s, a, i) && forall k :: 0 <= k < |plans| ==> Fits(c, plans[k])
    ensures Gained(s, a, Run(s, BlocksEvents(i, plans)), i + |plans|, StreamShares(plans))
    decreases |plans|
  {
    if plans == [] {
      NothingGained(s, a, i);
    } else {
      OneBlock(c, s, a, i, plans[0]);
      var o := Run(s, BlockEvents(i, plans[0]));
      AllBlocks(c, o.state, Gain(a, StreamShare(plans[0])), i + 1, plans[1..]);
      RunAppend(s, BlockEvents(i, plans[0]), BlocksEvents(i + 1, plans[1..]));
      GainedTwice(s, a, o, Run(o.state, BlocksEvents(i + 1, plans[1..])), i + 1, i + |plans|,
                  StreamShare(plans[0]), StreamShares(plans[1..]));
    }
  }

  // ---- The whole stream ----

  function BlocksOf<J>(plans: seq<BlockPlan<J>>): seq<Block<J>> {
    if plans == [] then [] else [plans[0].block] + BlocksOf(plans[1..])
  }

  /** Two calls with the same identifier and name, and arguments that read as the same object. */
  ghost predicate SameCall<J>(c: Codec<J>, x: ToolCall, y: ToolCall) {
    && x.id == y.id && x.name == y.name
    && ReadArguments(c, x.arguments) == ReadArguments(c, y.arguments) && ReadArguments(c, x.arguments).Some?
  }

  ghost predicate SameCalls<J>(c: Codec<J>, x: seq<ToolCall>, y: seq<ToolCall>) {
    |x| == |y| && forall k :: 0 <= k < |x| ==> SameCall(c, x[k], y[k])
  }

  lemma SameCallsAppend<J>(c: Codec<J>, x: seq<ToolCall>, y: seq<ToolCall>, u: seq<ToolCall>, v: seq<ToolCall>)
    requires SameCalls(c, x, y) && SameCalls(c, u, v)
    ensures SameCalls(c, x + u, y + v)
  {
    forall k | 0 <= k < |x + u| ensures SameCall(c, (x + u)[k], (y + v)[k]) {
      if k >= |x| {
        assert SameCall(c, u[k - |x|], v[k - |x|]);
      }
    }
  }

  lemma ShareAgrees<J(!new)>(c: Codec<J>, p: BlockPlan<J>) returns (x: Share, y: Share)
    requires RoundTrips(c) && Fits(c, p)
    ensures x == StreamShare(p) && y == BlockShare(c, p.block)
    ensures x.content == y.content && x.refusal == y.refusal == "" && x.reasoning == y.reasoning
             && SameCalls(c, x.calls, y.calls)
  {
    x, y := StreamShare(p), BlockShare(c, p.block);
    if p.block.Used? {
      assert c.encode(p.block.input) != "" && c.decode(c.encode(p.block.input)) == Some(p.block.input);
      assert SameCall(c, x.calls[0], y.calls[0]);
    }
  }

  lemma {:induction false} SharesAgree<J(!new)>(c: Codec<J>, plans: seq<BlockPlan<J>>)
    requires RoundTrips(c) && forall k :: 0 <= k < |plans| ==> Fits(c, plans[k])
    ensures var x, y := StreamShares(plans), BlocksShare(c, BlocksOf(plans));
            x.content == y.content && x.refusal == "" && x.reasoning == y.reasoning && SameCalls(c, x.calls, y.calls)
  {
    if plans != [] {
      var x, y := ShareAgrees(c, plans[0]);
      SharesAgree(c, plans[1..]);
      assert BlocksOf(plans)[1..] == BlocksOf(plans[1..]);
      SameCallsAppend(c, x.calls, y.calls, StreamShares(plans[1..]).calls, BlocksShare(c, BlocksOf(plans[1..])).calls);
    }
  }

  lemma {:induction false} StreamOpens<J>(model: string, m: WholeClaude<J>) returns (o: Outcome)
    ensures o == Step(Init(model), Arrived(MessageStart(m.id, m.model, m.inputTokens), true))
    ensures o.error.None? && HearAll(NO_CHAT, o.out) == NO_CHAT.(roles := 1) && Ready(o.state, NO_CHAT.(roles := 1), 0)
    ensures o.state.id == FirstOf(m.id, "chatcmpl-copilot") && o.state.model == FirstOf(m.model, model)
    ensures o.state.inputTokens == m.inputTokens && o.state.outputTokens == Absent
  {
    o := Step(Init(model), Arrived(MessageStart(m.id, m.model, m.inputTokens), true));
    HearOne(NO_CHAT, o.out[0]);
  }

  /** message_delta finishes the message, and message_stop adds no second finish chunk. */
  lemma {:induction false} StreamCloses(s: State, a: ChatDraft, i: nat, stop: StopReason, output: Field)
    requires Ready(s, a, i) && s.outputTokens == Absent
    ensures var x := Step(s, Arrived(MessageDelta(stop, output), true));
            && x.error.None? && Step(x.state, Arrived(MessageStop, true)) == Outcome(x.state, [], None)
            && HearAll(a, x.out) == a.(finish := Some(ClaudeFinish(stop, a.calls != [])),
                                       usage := Some(ClaudeUsage(s.inputTokens, output)))
            && x.state.id == s.id && x.state.model == s.model
  {
    var x := Step(s, Arrived(MessageDelta(stop, output), true));
    assert |x.out| == 1 && x.out == [x.out[0]];
    HearOne(a, x.out[0]);
  }

  lemma {:induction false} StreamTail(s: State, a: ChatDraft, i: nat, stop: StopReason, output: Field)
    returns (o: Outcome)
    requires Ready(s, a, i) && s.outputTokens == Absent
    ensures o == Run(s, [Arrived(MessageDelta(stop, output), true), Arrived(MessageStop, true)]) && o.error.None?
    ensures HearAll(a, o.out) == a.(finish := Some(ClaudeFinish(stop, a.calls != [])),
                                    usage := Some(ClaudeUsage(s.inputTokens, output)))
    ensures o.state.id == s.id && o.state.model == s.model
  {
    var x, y := Arrived(MessageDelta(stop, output), true), Arrived(MessageStop, true);
    StreamCloses(s, a, i, stop, output);
    o := Step(s, x);
    RunOne(o.state, y);
    RunCons(s, x, [y]);
    assert [x] + [y] == [x, y];
    EmptyEnds(o.out);
  }

  lemma Greeted(share: Share)
    ensures Gain(NO_CHAT.(roles := 1), share) == ChatDraft(1, share.content, share.refusal, share.reasoning,
             share.calls, None, None)
  {
    EmptyEnds(share.content);
    EmptyEnds(share.refusal);
    EmptyEnds(share.reasoning);
    EmptyEnds(share.calls);
  }

  lemma {:induction false} StreamHeard<J>(c: Codec<J>, model: string, m: WholeClaude<J>, plans: seq<BlockPlan<J>>)
    requires forall k :: 0 <= k < |plans| ==> Fits(c, plans[k])
    ensures var o := Run(Init(model), MessageEvents(m, plans));
            var share := StreamShares(plans);
            && o.error.None? && o.state.id == FirstOf(m.id, "chatcmpl-copilot")
                && o.state.model == FirstOf(m.model, model)
            && HearAll(NO_CHAT, o.out)
               == ChatDraft(1, share.content, share.refusal, share.reasoning, share.calls,
                            Some(ClaudeFinish(m.stop, share.calls != [])),
                                    Some(ClaudeUsage(m.inputTokens, m.outputTokens)))
  {
    var f := Arrived(MessageStart(m.id, m.model, m.inputTokens), true);
    var o := StreamOpens(model, m);
    var share := StreamShares(plans);
    AllBlocks(c, o.state, NO_CHAT.(roles := 1), 0, plans);
    Greeted(share);
    var q := Run(o.state, BlocksEvents(0, plans));
    var l := StreamTail(q.state, Gain(NO_CHAT.(roles := 1), share), |plans|, m.stop, m.outputTokens);
    RunBetween(Init(model), f, BlocksEvents(0, plans),
               [Arrived(MessageDelta(m.stop, m.outputTokens), true), Arrived(MessageStop, true)]);
    HearAppend(NO_CHAT, o.out, q.out);
    HearAppend(NO_CHAT, o.out + q.out, l.out);
  }

  /** The commuting square for a Claude upstream: text, reasoning, tool calls (arguments as JSON
      objects), finish reason, usage and header of the streamed message are those of the whole
      translation, with a single role chunk. */
  lemma {:induction false} StreamSquare<J(!new)>(c: Codec<J>, model: string, m: WholeClaude<J>,
                                                 plans: seq<BlockPlan<J>>)
    requires RoundTrips(c) && m.content == BlocksOf(plans)
    requires forall k :: 0 <= k < |plans| ==> Fits(c, plans[k])
    ensures var o := Run(Init(model), MessageEvents(m, plans));
            var a, w := HearAll(NO_CHAT, o.out), WholeCompletion(c, model, m);
            && o.error.None? && a.roles == 1
            && a.content == OrEmpty(w.content) && a.refusal == w.refusal && a.reasoning == w.reasoning
            && SameCalls(c, a.calls, w.calls)
            && a.finish == Some(w.finish) && a.usage == Some(w.usage)
            && ClaudeFinishTells(m.stop, w.calls != [], w.finish)
            && ClaudeUsageTells(m.inputTokens, m.outputTokens, w.usage)
            && o.state.id == w.id && o.state.model == w.model
  {
    StreamHeard(c, model, m, plans);
    SharesAgree(c, plans);
    NoRefusal(c, m.content);
  }

  lemma {:induction false} NoRefusal<J>(c: Codec<J>, blocks: seq<Block<J>>)
    ensures BlocksShare(c, blocks).refusal == ""
  {
    if blocks != [] {
      NoRefusal(c, blocks[1..]);
    }
  }
}
