/** internal/translate/claude_openai_stream.go as a function of state and event. */
module ClaudeToChat {
  import opened Text
  import opened Responses
  import opened Claude
  import opened Chat

  datatype BlockKind = Prose | Thinking | ToolUse

  datatype Block = Block(kind: BlockKind, toolIndex: nat)

  /** The key of a block: its index, or a made-up key when the event carries none. */
  datatype BlockRef = At(index: nat) | MadeUp(kind: BlockKind, count: nat)

  datatype State = State(
    started: bool, stopped: bool, id: string, model: string, inputTokens: Field, outputTokens: Field,
    nextTool: nat, hasToolCalls: bool, blocks: map<BlockRef, Block>)

  function Init(model: string): State {
    State(false, false, "chatcmpl-copilot", model, Absent, Absent, 0, false, map[])
  }

  /** One frame: unreadable, without data (or `[DONE]`), or an event. `indexed` says whether the
      event carries a numeric block index. */
  datatype Arrival = Garbled | Quiet | Arrived(event: ClaudeEvent, indexed: bool)

  datatype Emit = Emit(state: State, out: seq<Chunk>)

  datatype Outcome = Outcome(state: State, out: seq<Chunk>, error: Option<Failure>)

  function ChunkOf(s: State, d: ChatDelta): Chunk {
    Chunk(s.id, s.model, 0, d, None, None)
  }

  function Spoken(s: State, d: ChatDelta, text: string): seq<Chunk> {
    if text == "" then [] else [ChunkOf(s, d)]
  }

  function Start(s: State): Emit {
    if s.started then Emit(s, []) else Emit(s.(started := true), [ChunkOf(s, Role)])
  }

  function RefOf(s: State, index: nat, indexed: bool, kind: BlockKind): BlockRef {
    if indexed then At(index) else MadeUp(kind, |s.blocks|)
  }

  /** `block`: find the block of a key, or create it; a tool block takes the next tool index. */
  function Ensure(s: State, ref: BlockRef, kind: BlockKind): (t: State)
    ensures ref in t.blocks
  {
    if ref in s.blocks then s
    else if kind == ToolUse then s.(nextTool := s.nextTool + 1, blocks := s.blocks[ref := Block(kind, s.nextTool)])
    else s.(blocks := s.blocks[ref := Block(kind, 0)])
  }

  /** `claudeFinishReason`. */
  function ClaudeFinish(stop: StopReason, hasToolCalls: bool): FinishReason {
    match stop
    case StopMaxTokens => Length
    case StopRefusal => ContentFiltered
    case StopToolUse => ToolCalls
    case _ => if hasToolCalls then ToolCalls else Stop
  }

  /** The finish reason of a Claude message is its stop reason, or else whether there was a call. */
  predicate ClaudeFinishTells(stop: StopReason, hasToolCalls: bool, finish: FinishReason) {
    && (finish == Length <==> stop == StopMaxTokens)
    && (finish == ContentFiltered <==> stop == StopRefusal)
    && (finish == ToolCalls <==> stop == StopToolUse || (stop in {StopEndTurn, StopOther} && hasToolCalls))
    && (finish == Stop <==> stop in {StopEndTurn, StopOther} && !hasToolCalls)
  }

  /** The usage of a Claude message: its two counts and their sum, and no details. */
  predicate ClaudeUsageTells(input: Field, output: Field, x: ChatUsage) {
    && Counts(input, x.prompt) && Counts(output, x.completion) && x.total == x.prompt + x.completion
    && x.cached == None && x.reasoning == None
  }

  function ClaudeUsage(input: Field, output: Field): ChatUsage {
    ChatUsage(NumberValue(input), NumberValue(output), NumberValue(input) + NumberValue(output), None, None)
  }

  function Finish(s: State, stop: StopReason): Emit {
    if s.stopped then Emit(s, [])
    else Emit(s.(stopped := true),
              [Chunk(s.id, s.model, 0, Nothing, Some(ClaudeFinish(stop, s.hasToolCalls)),
                     Some(ClaudeUsage(s.inputTokens, s.outputTokens)))])
  }

  function OpenBlock(s: State, index: nat, indexed: bool, block: ContentBlock): Emit {
    match block
    case TextBlock(t) => Emit(Ensure(s, RefOf(s, index, indexed, Prose), Prose), Spoken(s, Say(t), t))
    case ThinkingBlock(t) => Emit(Ensure(s, RefOf(s, index, indexed, Thinking), Thinking), Spoken(s, Reason(t), t))
    case RedactedBlock(_) => Emit(Ensure(s, RefOf(s, index, indexed, Thinking), Thinking), [])
    case ToolUseBlock(id, altId, name) =>
      var ref := RefOf(s, index, indexed, ToolUse);
      var t := Ensure(s, ref, ToolUse).(hasToolCalls := true);
      Emit(t, [ChunkOf(t, Call(t.blocks[ref].toolIndex, FirstOf(id, altId), Trim(name)))])
    case UnknownBlock => Emit(s, [])
  }

  function Extend(s: State, index: nat, indexed: bool, delta: BlockDelta): Emit {
    match delta
    case TextChunk(t) => Emit(s, Spoken(s, Say(t), t))
    case ThinkingChunk(t) => Emit(s, Spoken(s, Reason(t), t))
    case InputChunk(partial) =>
      if partial == "" then Emit(s, [])
      else
        var ref := RefOf(s, index, indexed, ToolUse);
        var t := Ensure(s, ref, ToolUse).(hasToolCalls := true);
        Emit(t, [ChunkOf(t, Argue(t.blocks[ref].toolIndex, partial))])
    case _ => Emit(s, [])
  }

  function Both(a: Emit, b: Emit): Emit {
    Emit(b.state, a.out + b.out)
  }

  /** `claudeStreamToOpenAI` on one event. */
  function Deliver(s: State, e: ClaudeEvent, indexed: bool): Emit {
    match e
    case MessageStart(id, model, input) =>
      Start(s.(id := FirstOf(id, s.id), model := FirstOf(model, s.model), inputTokens := input))
    case BlockStart(i, block) => Both(Start(s), OpenBlock(Start(s).state, i, indexed, block))
    case BlockChunk(i, delta) => Both(Start(s), Extend(Start(s).state, i, indexed, delta))
    case MessageDelta(stop, output) =>
      var t := if output.Absent? then Start(s).state else Start(s).state.(outputTokens := output);
      Both(Start(s), Finish(t, stop))
    case MessageStop => Both(Start(s), Finish(Start(s).state, StopOther))
    case _ => Emit(s, [])
  }

  function Step(s: State, f: Arrival): Outcome {
    match f
    case Garbled => Outcome(s, [], Some(InvalidJson))
    case Quiet => Outcome(s, [], None)
    case Arrived(e, indexed) =>
      if e.StreamError? then Outcome(s, [], Some(UpstreamFailed(FirstOf(e.message, "unknown upstream stream error"))))
      else Outcome(Deliver(s, e, indexed).state, Deliver(s, e, indexed).out, None)
  }

  function Run(s: State, frames: seq<Arrival>): Outcome
    decreases |frames|
  {
    if frames == [] then Outcome(s, [], None)
    else
      var first := Step(s, frames[0]);
      if first.error.Some? then first
      else
        var rest := Run(first.state, frames[1..]);
        Outcome(rest.state, first.out + rest.out, rest.error)
  }

  /** One outcome after another. */
  function Then(o: Outcome, q: Outcome): Outcome {
    Outcome(q.state, o.out + q.out, q.error)
  }

  lemma {:induction false} RunAppend(s: State, a: seq<Arrival>, b: seq<Arrival>)
    ensures Run(s, a).error.Some? ==> Run(s, a + b) == Run(s, a)
    ensures Run(s, a).error.None? ==> Run(s, a + b) == Then(Run(s, a), Run(Run(s, a).state, b))
    decreases |a|
  {
    if a == [] {
      EmptyEnds(b);
      EmptyEnds(Run(s, b).out);
    } else {
      AppendHead(a, b);
      var first := Step(s, a[0]);
      if first.error.None? {
        RunAppend(first.state, a[1..], b);
        var x := Run(first.state, a[1..]);
        Regroup(first.out, x.out, Run(x.state, b).out);
      }
    }
  }

  lemma {:induction false} RunOne(s: State, f: Arrival)
    ensures Run(s, [f]) == Step(s, f)
  {
    NothingAfter(f);
    EmptyEnds(Step(s, f).out);
  }

  lemma {:induction false} RunCons(s: State, f: Arrival, rest: seq<Arrival>)
    requires Step(s, f).error.None?
    ensures Run(s, [f] + rest) == Then(Step(s, f), Run(Step(s, f).state, rest))
  {
    assert ([f] + rest)[1..] == rest;
  }

  lemma {:induction false} RunBetween(s: State, f: Arrival, inner: seq<Arrival>, last: seq<Arrival>)
    requires Step(s, f).error.None? && Run(Step(s, f).state, inner).error.None?
    ensures var o := Step(s, f);
            var q := Run(o.state, inner);
            Run(s, [f] + inner + last) == Then(Then(o, q), Run(q.state, last))
  {
    RunCons(s, f, inner);
    RunAppend(s, [f] + inner, last);
  }

  /** The events of a translated stream, all of them indexed, as arrivals. */
  function Arrivals(events: seq<ClaudeEvent>): seq<Arrival> {
    if events == [] then [] else [Arrived(events[0], true)] + Arrivals(events[1..])
  }

  lemma {:induction false} ArrivalsAppend(a: seq<ClaudeEvent>, b: seq<ClaudeEvent>)
    ensures Arrivals(a + b) == Arrivals(a) + Arrivals(b)
    decreases |a|
  {
    if a == [] {
      EmptyEnds(b);
    } else {
      AppendHead(a, b);
      ArrivalsAppend(a[1..], b);
    }
  }
}
