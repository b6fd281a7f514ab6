/** internal/translate/claude_responses_stream.go as a function of state and frame.

    `finish` closes blocks in Go's map order, which is unspecified. Here the order is the argument
    `order`; closing a key that is absent, or twice, emits nothing, so the list may name more keys
    than the map holds and still describes one iteration of the map. */
module ResponsesToClaude {
  import opened Text
  import opened Responses
  import opened Claude

  datatype BlockKind = Prose | Thinking | ToolUse

  datatype Block = Block(
    index: nat, kind: BlockKind, open: bool, sawDelta: bool, accumulated: string,
    encrypted: string, functionId: string, functionName: string)

  datatype State = State(
    started: bool, stopped: bool, messageId: string, model: string,
    nextBlock: nat, blocks: map<Key, Block>)

  function Init(model: string): State {
    State(false, false, "", model, 0, map[])
  }

  /** A state together with what was emitted on the way to it. */
  datatype Emit = Emit(state: State, out: seq<ClaudeEvent>)

  datatype Outcome = Outcome(state: State, out: seq<ClaudeEvent>, error: Option<Failure>)

  function Start(s: State, e: Event): Emit {
    if s.started then Emit(s, [])
    else
      var r := ResponseOf(e);
      var id := FirstOf3(r.id, e.responseId, "msg_copilot");
      var model := FirstOf(r.model, s.model);
      Emit(s.(started := true, messageId := id, model := model),
           [MessageStart(id, model, Number(NumberValue(r.usage.inputTokens)))])
  }

  /** The two tests before the event switch: when does this event start the message? */
  predicate Starts(e: Event) {
    e.body.Opening? || e.response.Some? || IsResponseEvent(e.body)
  }

  function FreshBlock(index: nat, kind: BlockKind): Block {
    Block(index, kind, false, false, "", "", "", "")
  }

  /** `block`: find the block of a key, or create it with the next index. */
  function Ensure(s: State, key: Key, kind: BlockKind): (t: State)
    ensures Touches(s, t, key) && key in t.blocks
  {
    if key in s.blocks then s
    else s.(nextBlock := s.nextBlock + 1, blocks := s.blocks[key := FreshBlock(s.nextBlock, kind)])
  }

  function Update(s: State, key: Key, b: Block): State {
    s.(blocks := s.blocks[key := b])
  }

  /** Only blocks, and the counter that numbers them, may differ. */
  predicate SameMessage(s: State, t: State) {
    t == s.(nextBlock := t.nextBlock, blocks := t.blocks)
  }

  /** At most the block of `key` may differ, or be new. */
  predicate Touches(s: State, t: State, key: Key) {
    && SameMessage(s, t)
    && s.blocks.Keys <= t.blocks.Keys <= s.blocks.Keys + {key}
    && forall k :: k in s.blocks && k != key ==> t.blocks[k] == s.blocks[k]
  }

  /** Events of content blocks, as against events of the whole message. */
  predicate OfBlocks(out: seq<ClaudeEvent>) {
    forall e :: e in out ==> e.BlockStart? || e.BlockChunk? || e.BlockStop?
  }

  function Open(s: State, key: Key, content: ContentBlock): (e: Emit)
    requires key in s.blocks
    ensures Touches(s, e.state, key) && OfBlocks(e.out) && e.state.blocks[key].open
  {
    var b := s.blocks[key];
    if b.open then Emit(s, [])
    else Emit(Update(s, key, b.(open := true)), [BlockStart(b.index, content)])
  }

  function OpenText(s: State, key: Key): Emit
    requires key in s.blocks
  {
    Open(s, key, TextBlock(""))
  }

  function ThinkingContent(encrypted: string): ContentBlock {
    if HasPrefix(encrypted, REDACTED_PREFIX) then RedactedBlock(TrimPrefix(encrypted, REDACTED_PREFIX))
    else ThinkingBlock("")
  }

  function OpenThinking(s: State, key: Key): Emit
    requires key in s.blocks
  {
    Open(s, key, ThinkingContent(s.blocks[key].encrypted))
  }

  function OpenTool(s: State, key: Key): Emit
    requires key in s.blocks
  {
    Open(s, key, ToolUseBlock(s.blocks[key].functionId, "", s.blocks[key].functionName))
  }

  function DeltaText(d: BlockDelta): string {
    match d
    case TextChunk(t) => t
    case ThinkingChunk(t) => t
    case SignatureChunk(t) => t
    case InputChunk(t) => t
    case UnknownChunk => ""
  }

  function Delta(s: State, key: Key, d: BlockDelta): (e: Emit)
    requires key in s.blocks
    ensures Touches(s, e.state, key) && OfBlocks(e.out)
  {
    var b := s.blocks[key];
    if DeltaText(d) == "" then Emit(s, [])
    else Emit(Update(s, key, b.(sawDelta := true, accumulated := b.accumulated + DeltaText(d))),
              [BlockChunk(b.index, d)])
  }

  function Close(s: State, key: Key): (e: Emit)
    ensures Touches(s, e.state, key) && OfBlocks(e.out)
  {
    if key !in s.blocks || !s.blocks[key].open then Emit(s, [])
    else Emit(Update(s, key, s.blocks[key].(open := false)), [BlockStop(s.blocks[key].index)])
  }

  function CloseAll(s: State, order: seq<Key>): Emit
    decreases |order|
  {
    if order == [] then Emit(s, [])
    else
      var first := Close(s, order[0]);
      var rest := CloseAll(first.state, order[1..]);
      Emit(rest.state, first.out + rest.out)
  }

  predicate HasToolUse(s: State) {
    exists k :: k in s.blocks && s.blocks[k].kind == ToolUse
  }

  function Finish(s: State, r: Response, order: seq<Key>): Emit {
    if s.stopped then Emit(s, [])
    else
      var closed := CloseAll(s, order);
      Emit(closed.state.(stopped := true),
           closed.out + [MessageDelta(StopReasonOf(r.incomplete, HasToolUse(s)),
                                      Number(NumberValue(r.usage.outputTokens))), MessageStop])
  }

  function AddItem(s: State, ref: ItemRef, item: Item): (e: Emit)
    ensures Touches(s, e.state, ItemKey(ref)) && OfBlocks(e.out)
    ensures e.state == s || (ItemKey(ref) in e.state.blocks && e.state.blocks[ItemKey(ref)].open)
  {
    var key := ItemKey(ref);
    match item.kind
    case ReasoningItem =>
      var t := Ensure(s, key, Thinking);
      OpenThinking(Update(t, key, t.blocks[key].(encrypted := Trim(item.encrypted))), key)
    case ToolItem =>
      var t := Ensure(s, key, ToolUse);
      OpenTool(Update(t, key, t.blocks[key].(functionId := CallIdOf(item), functionName := Trim(item.name))), key)
    case _ => Emit(s, [])
  }

  function TextArrives(s: State, key: Key, text: string): (e: Emit)
    ensures Touches(s, e.state, key) && OfBlocks(e.out) && key in e.state.blocks && e.state.blocks[key].open
  {
    var a := OpenText(Ensure(s, key, Prose), key);
    var b := Delta(a.state, key, TextChunk(text));
    Emit(b.state, a.out + b.out)
  }

  function ReasoningArrives(s: State, key: Key, text: string): (e: Emit)
    ensures Touches(s, e.state, key) && OfBlocks(e.out) && key in e.state.blocks && e.state.blocks[key].open
  {
    var a := OpenThinking(Ensure(s, key, Thinking), key);
    var b := Delta(a.state, key, ThinkingChunk(text));
    Emit(b.state, a.out + b.out)
  }

  function NameTool(b: Block, callId: string, itemId: string, name: string): Block {
    b.(functionId := if b.functionId == "" then FirstOf(callId, itemId) else b.functionId,
       functionName := if b.functionName == "" then Trim(name) else b.functionName)
  }

  function ArgumentsArrive(s: State, key: Key, callId: string, itemId: string, name: string, text: string): (e: Emit)
    ensures Touches(s, e.state, key) && OfBlocks(e.out) && key in e.state.blocks && e.state.blocks[key].open
  {
    var t := Ensure(s, key, ToolUse);
    var a := OpenTool(Update(t, key, NameTool(t.blocks[key], callId, itemId, name)), key);
    var b := Delta(a.state, key, InputChunk(text));
    Emit(b.state, a.out + b.out)
  }

  /** An item that was never announced is opened when it is done. */
  function OpenLate(s: State, key: Key, item: Item): (e: Emit)
    ensures Touches(s, e.state, key) && OfBlocks(e.out)
  {
    if key in s.blocks then Emit(s, [])
    else
      match item.kind
      case ReasoningItem => OpenThinking(Ensure(s, key, Thinking), key)
      case ToolItem =>
        var t := Ensure(s, key, ToolUse);
        OpenTool(Update(t, key, t.blocks[key].(functionId := CallIdOf(item), functionName := Trim(item.name))), key)
      case _ => Emit(s, [])
  }

  /** The parts of a done thinking item that were not streamed: its text, then its signature. */
  function CompleteThinking(s: State, key: Key, item: Item): (e: Emit)
    requires key in s.blocks
    ensures Touches(s, e.state, key) && OfBlocks(e.out)
  {
    var text := ReasoningText(item);
    var a := if s.blocks[key].sawDelta then Emit(s, []) else Delta(s, key, ThinkingChunk(text));
    var encrypted := FirstOf(item.encrypted, a.state.blocks[key].encrypted);
    var t := Update(a.state, key, a.state.blocks[key].(encrypted := encrypted));
    var b := if HasPrefix(encrypted, REDACTED_PREFIX) then Emit(t, []) else Delta(t, key, SignatureChunk(encrypted));
    Emit(b.state, a.out + b.out)
  }

  function CompleteTool(s: State, key: Key, item: Item): (e: Emit)
    requires key in s.blocks
    ensures Touches(s, e.state, key) && OfBlocks(e.out)
  {
    if s.blocks[key].sawDelta then Emit(s, []) else Delta(s, key, InputChunk(RawArguments(item)))
  }

  function CompleteBlock(s: State, key: Key, item: Item): (e: Emit)
    requires key in s.blocks
    ensures Touches(s, e.state, key) && OfBlocks(e.out)
  {
    match s.blocks[key].kind
    case Thinking => CompleteThinking(s, key, item)
    case ToolUse => CompleteTool(s, key, item)
    case Prose => Emit(s, [])
  }

  function CompleteItem(s: State, ref: ItemRef, item: Item): (e: Emit)
    ensures Touches(s, e.state, ItemKey(ref)) && OfBlocks(e.out)
  {
    var key := ItemKey(ref);
    var a := OpenLate(s, key, item);
    if key !in a.state.blocks then a
    else
      var b := CompleteBlock(a.state, key, item);
      var c := Close(b.state, key);
      Emit(c.state, a.out + (b.out + c.out))
  }

  /** The event switch, for every event but a failing one and the terminal ones. */
  function Content(s: State, b: Body): (e: Emit)
    ensures SameMessage(s, e.state) && OfBlocks(e.out)
  {
    match b
    case ItemAdded(ref, item) => AddItem(s, ref, item)
    case PartAdded(ref, part, p) =>
      if p.kind.OtherPart? then Emit(s, []) else TextArrives(s, ContentKey(ref, part), RawPartText(p))
    case TextDelta(ref, part, text) => TextArrives(s, ContentKey(ref, part), text)
    case RefusalDelta(ref, part, text) => TextArrives(s, ContentKey(ref, part), text)
    case ReasoningDelta(ref, text) => ReasoningArrives(s, ItemKey(ref), text)
    case ArgumentsDelta(ref, callId, itemId, name, text) =>
      ArgumentsArrive(s, ItemKey(ref), callId, itemId, name, text)
    case PartDone(ref, part) => Close(s, ContentKey(ref, part))
    case ItemDone(ref, item) => CompleteItem(s, ref, item)
    case _ => Emit(s, [])
  }

  function Deliver(s: State, e: Event, order: seq<Key>): Outcome {
    if e.body.Failing? then
      Outcome(s, [], Some(UpstreamFailed(FirstOf(e.body.message, "unknown upstream stream error"))))
    else
      var a := if Starts(e) then Start(s, e) else Emit(s, []);
      if e.body.Completed? && FailureOf(ResponseOf(e)).Some? then Outcome(a.state, [], FailureOf(ResponseOf(e)))
      else
        var b := if IsTerminal(e.body) then Finish(a.state, ResponseOf(e), order) else Content(a.state, e.body);
        Outcome(b.state, a.out + b.out, None)
  }

  /** `responsesStreamToClaude` on one frame. */
  function Step(s: State, f: Frame, order: seq<Key>): Outcome {
    match f
    case Malformed => Outcome(s, [], Some(InvalidJson))
    case Sentinel => Outcome(s, [], if s.stopped then None else Some(EndedEarly))
    case NoData => Outcome(s, [], None)
    case Data(e) => Deliver(s, e, order)
  }

  /** Feed frames until the first error. */
  function Run(s: State, frames: seq<Frame>, order: seq<Key>): Outcome
    decreases |frames|
  {
    if frames == [] then Outcome(s, [], None)
    else
      var first := Step(s, frames[0], order);
      if first.error.Some? then first
      else
        var rest := Run(first.state, frames[1..], order);
        Outcome(rest.state, first.out + rest.out, rest.error)
  }

  /** One outcome after another. */
  function Then(o: Outcome, q: Outcome): Outcome {
    Outcome(q.state, o.out + q.out, q.error)
  }

  lemma {:induction false} RunAppend(s: State, a: seq<Frame>, b: seq<Frame>, order: seq<Key>)
    ensures Run(s, a, order).error.Some? ==> Run(s, a + b, order) == Run(s, a, order)
    ensures Run(s, a, order).error.None? ==>
              Run(s, a + b, order) == Then(Run(s, a, order), Run(Run(s, a, order).state, b, order))
    decreases |a|
  {
    if a == [] {
      EmptyEnds(b);
      EmptyEnds(Run(s, b, order).out);
    } else {
      AppendHead(a, b);
      var first := Step(s, a[0], order);
      if first.error.None? {
        RunAppend(first.state, a[1..], b, order);
        var x := Run(first.state, a[1..], order);
        Regroup(first.out, x.out, Run(x.state, b, order).out);
      }
    }
  }

  lemma {:induction false} RunCons(s: State, f: Frame, rest: seq<Frame>, order: seq<Key>)
    requires Step(s, f, order).error.None?
    ensures Run(s, [f] + rest, order) == Then(Step(s, f, order), Run(Step(s, f, order).state, rest, order))
  {
    assert ([f] + rest)[1..] == rest;
  }
}
