/** What a client of a Claude stream turned chat may rely on. */
module ClaudeChatProtocol {
  import opened Text
  import opened Responses
  import opened Claude
  import opened Chat
  import opened ClaudeToChat
  import opened StreamErrors

  // For every upstream event sequence of the Claude-to-Chat translator.

  /** A client: has the role arrived, was there any call or argument, and has the message finished? */
  datatype Monitor = Monitor(started: bool, called: bool, finished: bool)

  const SILENT := Monitor(false, false, false)

  predicate Accepts(m: Monitor, c: Chunk) {
    if c.delta.Role? then !m.started && c.finish.None? && c.usage.None?
    else
      && m.started && (c.finish.Some? <==> c.delta.Nothing?) && (c.usage.Some? <==> c.delta.Nothing?)
      && match c.delta
         case Argue(_, text) => text != ""
         case Nothing => !m.finished && (c.finish.value == Stop ==> !m.called)
         case Say(t) => t != ""
         case Reason(t) => t != ""
         case Refuse(_) => false
         case _ => true
  }

  function Advance(m: Monitor, c: Chunk): Monitor {
    match c.delta
    case Role => m.(started := true)
    case Call(_, _, _) => m.(called := true)
    case Argue(_, _) => m.(called := true)
    case Nothing => m.(finished := true)
    case _ => m
  }

  function Watch(m: Monitor, out: seq<Chunk>): Option<Monitor>
    decreases |out|
  {
    if out == [] then Some(m)
    else if !Accepts(m, out[0]) then None
    else Watch(Advance(m, out[0]), out[1..])
  }

  lemma {:induction false} WatchAppend(m: Monitor, a: seq<Chunk>, b: seq<Chunk>)
    requires Watch(m, a).Some?
    ensures Watch(m, a + b) == Watch(Watch(m, a).value, b)
    decreases |a|
  {
    if a == [] {
      EmptyEnds(b);
    } else {
      AppendHead(a, b);
      WatchAppend(Advance(m, a[0]), a[1..], b);
    }
  }

  lemma {:induction false} OneChunk(m: Monitor, c: Chunk)
    ensures Watch(m, [c]) == if Accepts(m, c) then Some(Advance(m, c)) else None
  {
    NothingAfter(c);
  }

  // ---- The translator's state and the client's agree ----

  predicate Agrees(s: State, m: Monitor) {
    m == Monitor(s.started, s.hasToolCalls, s.stopped) && (s.stopped ==> s.started)
  }

  ghost predicate Sound(e: Emit, m: Monitor) {
    Watch(m, e.out).Some? && Agrees(e.state, Watch(m, e.out).value)
  }

  lemma {:induction false} SpokenSound(s: State, t: State, m: Monitor, d: ChatDelta, text: string)
    requires Agrees(s, m) && Agrees(t, m) && s.started && (d == Say(text) || d == Reason(text))
    ensures Sound(Emit(t, Spoken(s, d, text)), m)
  {
    OneChunk(m, ChunkOf(s, d));
  }

  lemma {:induction false} OpenSound(s: State, m: Monitor, index: nat, indexed: bool, block: ContentBlock)
    requires Agrees(s, m) && s.started
    ensures Sound(OpenBlock(s, index, indexed, block), m)
  {
    var e := OpenBlock(s, index, indexed, block);
    match block
    case TextBlock(t) => SpokenSound(s, e.state, m, Say(t), t);
    case ThinkingBlock(t) => SpokenSound(s, e.state, m, Reason(t), t);
    case ToolUseBlock(_, _, _) => OneChunk(m, e.out[0]);
    case _ =>
  }

  lemma {:induction false} ExtendSound(s: State, m: Monitor, index: nat, indexed: bool, delta: BlockDelta)
    requires Agrees(s, m) && s.started
    ensures Sound(Extend(s, index, indexed, delta), m)
  {
    var e := Extend(s, index, indexed, delta);
    match delta
    case TextChunk(t) => SpokenSound(s, s, m, Say(t), t);
    case ThinkingChunk(t) => SpokenSound(s, s, m, Reason(t), t);
    case InputChunk(partial) =>
      if partial != "" {
        OneChunk(m, e.out[0]);
      }
    case _ =>
  }

  lemma {:induction false} FinishSound(s: State, m: Monitor, stop: StopReason)
    requires Agrees(s, m) && s.started
    ensures Sound(Finish(s, stop), m)
  {
    if !s.stopped {
      OneChunk(m, Finish(s, stop).out[0]);
    }
  }

  lemma {:induction false} StartSound(s: State, m: Monitor)
    requires Agrees(s, m)
    ensures Sound(Start(s), m) && Start(s).state == s.(started := true)
  {
    if !s.started {
      OneChunk(m, Start(s).out[0]);
    }
  }

  lemma {:induction false} BothSound(a: Emit, b: Emit, m: Monitor)
    requires Watch(m, a.out).Some? && Sound(b, Watch(m, a.out).value)
    ensures Sound(Both(a, b), m)
  {
    WatchAppend(m, a.out, b.out);
  }

  lemma {:induction false} DeliverSound(s: State, m: Monitor, e: ClaudeEvent, indexed: bool)
    requires Agrees(s, m)
    ensures Sound(Deliver(s, e, indexed), m)
  {
    StartSound(s, m);
    var a := Start(s);
    var n := Watch(m, a.out).value;
    match e
    case MessageStart(id, model, input) =>
      StartSound(s.(id := FirstOf(id, s.id), model := FirstOf(model, s.model), inputTokens := input), m);
    case BlockStart(i, block) =>
      OpenSound(a.state, n, i, indexed, block);
      BothSound(a, OpenBlock(a.state, i, indexed, block), m);
    case BlockChunk(i, delta) =>
      ExtendSound(a.state, n, i, indexed, delta);
      BothSound(a, Extend(a.state, i, indexed, delta), m);
    case MessageDelta(stop, output) =>
      var t := if output.Absent? then a.state else a.state.(outputTokens := output);
      FinishSound(t, n, stop);
      BothSound(a, Finish(t, stop), m);
    case MessageStop =>
      FinishSound(a.state, n, StopOther);
      BothSound(a, Finish(a.state, StopOther), m);
    case _ =>
  }

  lemma {:induction false} RunProtocol(s: State, m: Monitor, frames: seq<Arrival>)
    requires Agrees(s, m)
    ensures Sound(Emit(Run(s, frames).state, Run(s, frames).out), m)
    decreases |frames|
  {
    if frames != [] {
      var first := Step(s, frames[0]);
      if frames[0].Arrived? {
        DeliverSound(s, m, frames[0].event, frames[0].indexed);
      }
      if first.error.None? {
        RunProtocol(first.state, Watch(m, first.out).value, frames[1..]);
        WatchAppend(m, first.out, Run(first.state, frames[1..]).out);
      }
    }
  }

  /** Every Claude event sequence, up to the first error: the role chunk comes first and once, the finish
      chunk once and with the usage, and it does not say `stop` after a call. */
  lemma {:induction false} StreamProtocol(model: string, frames: seq<Arrival>)
    ensures Watch(SILENT, Run(Init(model), frames).out).Some?
  {
    RunProtocol(Init(model), SILENT, frames);
  }

  // ---- The end of the message ----

  predicate Finishes(f: Arrival) {
    f.Arrived? && (f.event.MessageDelta? || f.event.MessageStop?)
  }

  predicate Greets(f: Arrival) {
    f.Arrived? && f.event.MessageStart?
  }

  /** The input tokens the last message_start brought. */
  function InputOf(frames: seq<Arrival>): Field {
    if frames == [] then Absent
    else if Greets(frames[|frames| - 1]) then frames[|frames| - 1].event.inputTokens
    else InputOf(frames[..|frames| - 1])
  }

  /** The stop reason and output tokens an event ends the message with. */
  function StopOf(f: Arrival): StopReason
    requires Finishes(f)
  {
    if f.event.MessageDelta? then f.event.stop else StopOther
  }

  function OutputOf(f: Arrival): Field
    requires Finishes(f)
  {
    if f.event.MessageDelta? then f.event.outputTokens else Absent
  }

  lemma ContentKnows(s: State, index: nat, indexed: bool, block: ContentBlock, delta: BlockDelta)
    returns (a: Emit, b: Emit)
    ensures a == OpenBlock(s, index, indexed, block) && b == Extend(s, index, indexed, delta)
    ensures a.state == s.(nextTool := a.state.nextTool, hasToolCalls := a.state.hasToolCalls, blocks := a.state.blocks)
    ensures b.state == s.(nextTool := b.state.nextTool, hasToolCalls := b.state.hasToolCalls, blocks := b.state.blocks)
  {
    a, b := OpenBlock(s, index, indexed, block), Extend(s, index, indexed, delta);
  }

  lemma StepKnows(s: State, f: Arrival)
    requires Step(s, f).error.None?
    ensures var t := Step(s, f).state;
            && (t.stopped <==> s.stopped || Finishes(f))
            && t.inputTokens == (if Greets(f) then f.event.inputTokens else s.inputTokens)
            && (!Finishes(f) ==> t.outputTokens == s.outputTokens)
  {
    if f.Arrived? && (f.event.BlockStart? || f.event.BlockChunk?) {
      var a, b := ContentKnows(Start(s).state, f.event.index, f.indexed,
                               if f.event.BlockStart? then f.event.block else UnknownBlock,
                               if f.event.BlockChunk? then f.event.delta else UnknownChunk);
    }
  }

  /** What the translator knows after a run: whether the message has ended, and its input tokens. */
  lemma {:induction false} RunKnows(model: string, frames: seq<Arrival>)
    requires Run(Init(model), frames).error.None?
    ensures var s := Run(Init(model), frames).state;
            && (s.stopped <==> exists f :: f in frames && Finishes(f))
            && s.inputTokens == InputOf(frames)
            && (!s.stopped ==> s.outputTokens == Absent)
    decreases |frames|
  {
    if frames != [] {
      var front, last := frames[..|frames| - 1], frames[|frames| - 1];
      assert frames == front + [last];
      RunAppend(Init(model), front, [last]);
      RunOne(Run(Init(model), front).state, last);
      RunKnows(model, front);
      StepKnows(Run(Init(model), front).state, last);
      assert forall f :: f in frames <==> f in front || f == last;
    }
  }

  lemma {:induction false} FinishDelivered(s: State, f: Arrival) returns (a: Emit, last: Chunk)
    requires !s.stopped && Finishes(f) && s.outputTokens == Absent
    ensures a == Start(s) && Step(s, f).out == a.out + [last]
    ensures last.delta == Nothing && last.finish.Some? && last.usage.Some?
    ensures ClaudeFinishTells(StopOf(f), s.hasToolCalls, last.finish.value)
    ensures ClaudeUsageTells(s.inputTokens, OutputOf(f), last.usage.value)
  {
    a := Start(s);
    var t := if OutputOf(f).Absent? then a.state else a.state.(outputTokens := OutputOf(f));
    last := Finish(t, StopOf(f)).out[0];
  }

  /** After any unfinished run, message_delta or message_stop ends it with one finish chunk: its reason is
      the event's or, without one, tells whether there was a call; its usage has the input tokens of the
      last message_start and the output tokens of the event. */
  lemma {:induction false} FinishReason(model: string, frames: seq<Arrival>, f: Arrival)
    requires Run(Init(model), frames).error.None? && !Run(Init(model), frames).state.stopped && Finishes(f)
    ensures var out := Step(Run(Init(model), frames).state, f).out;
            var m := Watch(SILENT, Run(Init(model), frames).out);
            && m.Some? && out != []
            && out[|out| - 1].finish.Some? && out[|out| - 1].usage.Some?
            && ClaudeFinishTells(StopOf(f), m.value.called, out[|out| - 1].finish.value)
            && ClaudeUsageTells(InputOf(frames), OutputOf(f), out[|out| - 1].usage.value)
  {
    RunProtocol(Init(model), SILENT, frames);
    RunKnows(model, frames);
    var a, last := FinishDelivered(Run(Init(model), frames).state, f);
  }

  // ---- Headers ----

  /** The header after an event: a message_start may rename the message. */
  predicate Renamed(s: State, f: Arrival, id: string, model: string) {
    if Greets(f) then
      && id == (if Trim(f.event.id) != "" then Trim(f.event.id) else Trim(s.id))
      && model == (if Trim(f.event.model) != "" then Trim(f.event.model) else Trim(s.model))
    else id == s.id && model == s.model
  }

  lemma FinishBears(s: State, stop: StopReason, c: Chunk)
    requires c in Finish(s, stop).out
    ensures c.id == s.id && c.model == s.model && c.created == 0
  {
  }

  lemma ContentBears(s: State, index: nat, indexed: bool, block: ContentBlock, delta: BlockDelta, c: Chunk)
    requires c in OpenBlock(s, index, indexed, block).out || c in Extend(s, index, indexed, delta).out
    ensures c.id == s.id && c.model == s.model && c.created == 0
  {
  }

  predicate AllBear(out: seq<Chunk>, s: State) {
    forall c :: c in out ==> c.id == s.id && c.model == s.model && c.created == 0
  }

  lemma BlockBears(s: State, f: Arrival) returns (o: Outcome)
    requires f.Arrived? && (f.event.BlockStart? || f.event.BlockChunk?)
    ensures o == Step(s, f) && o.state.id == s.id && o.state.model == s.model && AllBear(o.out, s)
  {
    var block := if f.event.BlockStart? then f.event.block else UnknownBlock;
    var delta := if f.event.BlockChunk? then f.event.delta else UnknownChunk;
    var t := Start(s).state;
    var a, b := ContentKnows(t, f.event.index, f.indexed, block, delta);
    assert AllBear(Start(s).out, s);
    forall c | c in a.out || c in b.out ensures c.id == s.id && c.model == s.model && c.created == 0 {
      ContentBears(t, f.event.index, f.indexed, block, delta, c);
    }
    o := Step(s, f);
  }

  lemma EndBears(s: State, f: Arrival) returns (o: Outcome)
    requires Finishes(f)
    ensures o == Step(s, f) && o.state.id == s.id && o.state.model == s.model && AllBear(o.out, s)
  {
    var a := Start(s);
    var t := if OutputOf(f).Absent? then a.state else a.state.(outputTokens := OutputOf(f));
    var b := Finish(t, StopOf(f));
    assert AllBear(a.out, s) && AllBear(b.out, s);
    o := Step(s, f);
    assert o.out == a.out + b.out;
  }

  /** Every chunk of a step bears the header that holds after it. */
  lemma StepBears(s: State, f: Arrival) returns (o: Outcome)
    ensures o == Step(s, f) && Renamed(s, f, o.state.id, o.state.model) && AllBear(o.out, o.state)
  {
    if f.Arrived? && (f.event.BlockStart? || f.event.BlockChunk?) {
      o := BlockBears(s, f);
      return;
    }
    if Finishes(f) {
      o := EndBears(s, f);
      return;
    }
    o := Step(s, f);
  }

  // ---- Calls ----

  /** A tool block announces one call, after the role chunk if that had not come: under the index of the
      block or a new one, its `id` or, when that is blank, its `tool_use_id`, and its name. */
  lemma ToolBlockCalls(s: State, index: nat, indexed: bool, block: ContentBlock) returns (o: Outcome, call: ChatDelta)
    requires block.ToolUseBlock?
    ensures o == Step(s, Arrived(BlockStart(index, block), indexed)) && call.Call?
    ensures |o.out| == (if s.started then 1 else 2) && o.out[|o.out| - 1].delta == call
    ensures call.index == if indexed && At(index) in s.blocks then s.blocks[At(index)].toolIndex
                          else if !indexed && MadeUp(ToolUse, |s.blocks|) in s.blocks
                          then s.blocks[MadeUp(ToolUse, |s.blocks|)].toolIndex
                          else s.nextTool
    ensures call.id == (if Trim(block.id) != "" then Trim(block.id) else Trim(block.altId))
    ensures call.name == Trim(block.name)
  {
    o := Step(s, Arrived(BlockStart(index, block), indexed));
    call := o.out[|o.out| - 1].delta;
  }

  // ---- When anything is said ----

  /** The events that begin the stream if nothing has. */
  predicate Begins(e: ClaudeEvent) {
    e.MessageStart? || e.BlockStart? || e.BlockChunk? || e.MessageDelta? || e.MessageStop?
  }

  /** An event says something: it begins the stream, ends it, opens a tool block, or brings a text that is not
      empty. */
  predicate Speaks(s: State, e: ClaudeEvent) {
    || (Begins(e) && !s.started)
    || ((e.MessageDelta? || e.MessageStop?) && !s.stopped)
    || (e.BlockStart?
        && match e.block
           case TextBlock(text) => text != ""
           case ThinkingBlock(text) => text != ""
           case ToolUseBlock(_, _, _) => true
           case _ => false)
    || (e.BlockChunk?
        && match e.delta
           case TextChunk(text) => text != ""
           case ThinkingChunk(text) => text != ""
           case InputChunk(text) => text != ""
           case _ => false)
  }

  /** In every state, an event says something exactly then: pings, block ends, signatures, redacted data and
      what is not known say nothing. */
  lemma SpeaksExactly(s: State, e: ClaudeEvent, indexed: bool) returns (o: Outcome)
    ensures o == Step(s, Arrived(e, indexed))
    ensures o.out != [] <==> Speaks(s, e)
  {
    o := Step(s, Arrived(e, indexed));
    var block := if e.BlockStart? then e.block else UnknownBlock;
    var delta := if e.BlockChunk? then e.delta else UnknownChunk;
    var a, b := ContentKnows(Start(s).state, 0, indexed, block, delta);
  }

  // ---- Tool indices, and blocks without an index ----

  /** Tool blocks have distinct indices below the next one; a made-up key holds the number of blocks
      there were when it was made up. */
  ghost predicate Numbered(s: State) {
    && (forall r :: r in s.blocks && r.MadeUp? ==> r.count < |s.blocks|)
    && (forall r :: r in s.blocks && s.blocks[r].kind == ToolUse ==> s.blocks[r].toolIndex < s.nextTool)
    && (forall r, q :: (r in s.blocks && q in s.blocks && s.blocks[r].kind == s.blocks[q].kind == ToolUse
                        && s.blocks[r].toolIndex == s.blocks[q].toolIndex) ==> r == q)
  }

  lemma NewBlockNumbers(s: State, ref: BlockRef, b: Block) returns (t: State)
    requires Numbered(s) && ref !in s.blocks && (ref.MadeUp? ==> ref.count <= |s.blocks|)
    requires b.kind == ToolUse ==> b.toolIndex == s.nextTool
    ensures t == s.(nextTool := if b.kind == ToolUse then s.nextTool + 1 else s.nextTool, blocks := s.blocks[ref := b])
    ensures Numbered(t)
  {
    t := s.(nextTool := if b.kind == ToolUse then s.nextTool + 1 else s.nextTool, blocks := s.blocks[ref := b]);
    assert |t.blocks| == |s.blocks| + 1;
  }

  lemma EnsureNumbers(s: State, index: nat, indexed: bool, kind: BlockKind)
    requires Numbered(s)
    ensures Numbered(Ensure(s, RefOf(s, index, indexed, kind), kind))
  {
    var ref := RefOf(s, index, indexed, kind);
    if ref !in s.blocks {
      var t := NewBlockNumbers(s, ref, Block(kind, if kind == ToolUse then s.nextTool else 0));
    }
  }

  lemma OpenNumbers(s: State, index: nat, indexed: bool, block: ContentBlock)
    requires Numbered(s)
    ensures Numbered(OpenBlock(s, index, indexed, block).state)
  {
    match block
    case TextBlock(_) => EnsureNumbers(s, index, indexed, Prose);
    case ThinkingBlock(_) => EnsureNumbers(s, index, indexed, Thinking);
    case RedactedBlock(_) => EnsureNumbers(s, index, indexed, Thinking);
    case ToolUseBlock(_, _, _) => EnsureNumbers(s, index, indexed, ToolUse);
    case UnknownBlock =>
  }

  lemma ExtendNumbers(s: State, index: nat, indexed: bool, delta: BlockDelta)
    requires Numbered(s)
    ensures Numbered(Extend(s, index, indexed, delta).state)
  {
    if delta.InputChunk? && delta.partial != "" {
      EnsureNumbers(s, index, indexed, ToolUse);
    }
  }

  lemma DeliverNumbers(s: State, e: ClaudeEvent, indexed: bool)
    requires Numbered(s)
    ensures Numbered(Deliver(s, e, indexed).state)
  {
    var a := Start(s).state;
    if e.BlockStart? {
      OpenNumbers(a, e.index, indexed, e.block);
      return;
    }
    if e.BlockChunk? {
      ExtendNumbers(a, e.index, indexed, e.delta);
      return;
    }
    assert Deliver(s, e, indexed).state.blocks == s.blocks && Deliver(s, e, indexed).state.nextTool == s.nextTool;
  }

  lemma {:induction false} RunNumbers(s: State, frames: seq<Arrival>)
    requires Numbered(s)
    ensures Numbered(Run(s, frames).state)
    decreases |frames|
  {
    if frames != [] {
      if frames[0].Arrived? {
        DeliverNumbers(s, frames[0].event, frames[0].indexed);
      }
      if Step(s, frames[0]).error.None? {
        RunNumbers(Step(s, frames[0]).state, frames[1..]);
      }
    }
  }

  /** After any run, arguments that come without a block index never reach a tool block made before:
      they go under a new tool index. */
  lemma {:induction false} UnindexedArgumentsAreLost(model: string, frames: seq<Arrival>, index: nat, text: string)
    requires Run(Init(model), frames).error.None? && text != ""
    ensures var s := Run(Init(model), frames).state;
            var o := Step(s, Arrived(BlockChunk(index, InputChunk(text)), false));
            && o.error.None? && o.out != [] && o.out[|o.out| - 1].delta == Argue(s.nextTool, text)
            && forall r :: r in s.blocks && s.blocks[r].kind == ToolUse ==> s.blocks[r].toolIndex < s.nextTool
  {
    RunNumbers(Init(model), frames);
    var s := Run(Init(model), frames).state;
    var a := Start(s).state;
    assert MadeUp(ToolUse, |a.blocks|) !in s.blocks;
  }
}
