/** Two ways from a Responses stream to Chat Completions chunks: directly, and through Claude. */
module Triangle {
  import opened Text
  import opened Responses
  import opened Claude
  import opened Chat
  import C = ResponsesToClaude
  import D = ResponsesToChat
  import E = ClaudeToChat

  // The two translators run in lockstep. For every conforming event sequence, with items interleaved
  // in any way, each event makes both say the same content, tool calls and finish reason.

  // ---- What is compared ----

  datatype Heard = Heard(delta: ChatDelta, finish: Option<FinishReason>)

  /** Everything but reasoning, usage and the chunk header. */
  function Project(out: seq<Chunk>): seq<Heard> {
    if out == [] then []
    else (if out[0].delta.Reason? then [] else [Heard(out[0].delta, out[0].finish)]) + Project(out[1..])
  }

  lemma {:induction false} ProjectAppend(a: seq<Chunk>, b: seq<Chunk>)
    ensures Project(a + b) == Project(a) + Project(b)
    decreases |a|
  {
    if a == [] {
      EmptyEnds(b);
    } else {
      AppendHead(a, b);
      ProjectAppend(a[1..], b);
    }
  }

  lemma {:induction false} ProjectOne(c: Chunk)
    ensures Project([c]) == if c.delta.Reason? then [] else [Heard(c.delta, c.finish)]
  {
    NothingAfter(c);
  }

  /** The Claude events of one step, handed to the second translator. */
  function Relay(e: E.State, events: seq<ClaudeEvent>): E.Emit
    decreases |events|
  {
    if events == [] then E.Emit(e, [])
    else
      var first := E.Deliver(e, events[0], true);
      var rest := Relay(first.state, events[1..]);
      E.Emit(rest.state, first.out + rest.out)
  }

  lemma {:induction false} RelayAppend(e: E.State, a: seq<ClaudeEvent>, b: seq<ClaudeEvent>)
    ensures Relay(e, a + b)
            == E.Emit(Relay(Relay(e, a).state, b).state, Relay(e, a).out + Relay(Relay(e, a).state, b).out)
    decreases |a|
  {
    if a == [] {
      EmptyEnds(b);
    } else {
      AppendHead(a, b);
      var x := E.Deliver(e, a[0], true);
      RelayAppend(x.state, a[1..], b);
      var y := Relay(x.state, a[1..]);
      Regroup(x.out, y.out, Relay(y.state, b).out);
    }
  }

  lemma {:induction false} RelayOne(e: E.State, event: ClaudeEvent)
    ensures Relay(e, [event]) == E.Deliver(e, event, true)
  {
    NothingAfter(event);
    EmptyEnds(E.Deliver(e, event, true).out);
  }

  // ---- Events of text and thinking blocks ----

  predicate PlainEvent(v: ClaudeEvent, bound: nat) {
    match v
    case BlockStart(i, block) => i < bound && (block == TextBlock("") || block == ThinkingBlock("")
        || block.RedactedBlock?)
    case BlockChunk(_, delta) => !delta.InputChunk?
    case BlockStop(_) => true
    case _ => false
  }

  /** Events of blocks that are not tools; a block start has an index below `bound`. */
  predicate Plainspoken(events: seq<ClaudeEvent>, bound: nat) {
    forall v :: v in events ==> PlainEvent(v, bound)
  }

  /** The text these events add. */
  function Says(events: seq<ClaudeEvent>): seq<Heard> {
    if events == [] then []
    else
      (if events[0].BlockChunk? && events[0].delta.TextChunk? && events[0].delta.text != ""
       then [Heard(Say(events[0].delta.text), None)] else [])
      + Says(events[1..])
  }

  /** The tool calls the second translator knows are as they were; new blocks are below `bound`. */
  ghost predicate SameTools(e: E.State, f: E.State, bound: nat) {
    && f == e.(blocks := f.blocks)
    && (forall r :: r in e.blocks ==> r in f.blocks && f.blocks[r] == e.blocks[r])
    && (forall r :: r in f.blocks && r !in e.blocks ==> r.At? && r.index < bound)
  }

  lemma PlainStart(e: E.State, index: nat, block: ContentBlock, bound: nat)
    requires e.started && index < bound
    requires block == TextBlock("") || block == ThinkingBlock("") || block.RedactedBlock?
    ensures var x := E.Deliver(e, BlockStart(index, block), true);
            SameTools(e, x.state, bound) && x.out == []
  {
  }

  lemma {:induction false} PlainChunk(e: E.State, index: nat, delta: BlockDelta)
    requires e.started && !delta.InputChunk?
    ensures var x := E.Deliver(e, BlockChunk(index, delta), true);
            x.state == e && Project(x.out) == Says([BlockChunk(index, delta)])
  {
    var x := E.Deliver(e, BlockChunk(index, delta), true);
    NothingAfter(BlockChunk(index, delta));
    if x.out != [] {
      assert x.out == [x.out[0]];
      ProjectOne(x.out[0]);
    }
  }

  lemma {:induction false} OnePlain(e: E.State, v: ClaudeEvent, bound: nat)
    requires e.started && Plainspoken([v], bound)
    ensures var x := E.Deliver(e, v, true);
            SameTools(e, x.state, bound) && Project(x.out) == Says([v])
  {
    assert v in [v];
    NothingAfter(v);
    if v.BlockStart? {
      PlainStart(e, v.index, v.block, bound);
    } else if v.BlockChunk? {
      PlainChunk(e, v.index, v.delta);
    }
  }

  lemma {:induction false} RelayPlain(e: E.State, events: seq<ClaudeEvent>, bound: nat)
    requires e.started && Plainspoken(events, bound)
    ensures SameTools(e, Relay(e, events).state, bound) && Project(Relay(e, events).out) == Says(events)
    decreases |events|
  {
    if events != [] {
      var v, first := events[0], E.Deliver(e, events[0], true);
      assert events == [v] + events[1..];
      assert Plainspoken([v], bound) && Plainspoken(events[1..], bound);
      OnePlain(e, v, bound);
      RelayPlain(first.state, events[1..], bound);
      ProjectAppend(first.out, Relay(first.state, events[1..]).out);
      NothingAfter(v);
      assert Says(events) == Says([v]) + Says(events[1..]);
    }
  }

  lemma {:induction false} SaysTwo(a: seq<ClaudeEvent>, b: seq<ClaudeEvent>)
    ensures Says(a + b) == Says(a) + Says(b)
    decreases |a|
  {
    if a == [] {
      EmptyEnds(b);
    } else {
      AppendHead(a, b);
      SaysTwo(a[1..], b);
    }
  }

  lemma {:induction false} SaysOne(v: ClaudeEvent)
    ensures Says([v]) == if v.BlockChunk? && v.delta.TextChunk?
             && v.delta.text != "" then [Heard(Say(v.delta.text), None)] else []
  {
    NothingAfter(v);
  }

  // ---- The simulation ----

  /** A tool item as the three translators know it. */
  predicate ToolMatch(b: C.Block, t: D.Entry, e: E.State) {
    && b.kind == C.ToolUse && t.announced && b.sawDelta == t.sawDelta
    && E.At(b.index) in e.blocks && e.blocks[E.At(b.index)].toolIndex == t.toolIndex
  }

  ghost predicate ToolsMatch(c: C.State, d: D.State, e: E.State, tools: set<ItemRef>) {
    && (forall ref :: ref in d.items ==> ref in tools && ItemKey(ref) in c.blocks)
    && (forall ref :: ref in tools && ItemKey(ref) in c.blocks ==> ref in d.items)
    && (forall ref :: ref in d.items && ItemKey(ref) in c.blocks ==> ToolMatch(c.blocks[ItemKey(ref)], d.items[ref], e))
  }

  predicate ToolKey(key: Key, tools: set<ItemRef>) {
    key.ItemKey? && key.ref in tools
  }

  ghost predicate Sim(c: C.State, d: D.State, e: E.State, tools: set<ItemRef>, done: set<ItemRef>) {
    && c.started == d.started == e.started && c.stopped == d.stopped == e.stopped
    && d.nextTool == e.nextTool && d.hasToolCalls == e.hasToolCalls
    && (d.hasToolCalls <==> d.items != map[])
    && (forall r :: r in e.blocks ==> r.At? && r.index < c.nextBlock)
    && (forall k :: k in c.blocks ==> c.blocks[k].index < c.nextBlock)
    && (forall k :: k in c.blocks && !ToolKey(k, tools) ==> c.blocks[k].kind != C.ToolUse)
    && (forall ref :: ref in d.items && ref !in done && ItemKey(ref) in c.blocks ==> c.blocks[ItemKey(ref)].open)
    && ToolsMatch(c, d, e, tools)
  }

  /** Both ways say the same on one event, and still agree after it. */
  ghost predicate InStep(x: C.Emit, y: D.Emit, e: E.State, tools: set<ItemRef>, done: set<ItemRef>) {
    var z := Relay(e, x.out);
    Sim(x.state, y.state, z.state, tools, done) && Project(z.out) == Project(y.out)
  }

  /** One emission after another. */
  lemma {:induction false} Sequence(x: C.Emit, y: D.Emit, e: E.State, x2: C.Emit, y2: D.Emit, tools: set<ItemRef>,
                                    done: set<ItemRef>)
    requires Project(Relay(e, x.out).out) == Project(y.out)
    requires InStep(x2, y2, Relay(e, x.out).state, tools, done)
    ensures InStep(C.Emit(x2.state, x.out + x2.out), D.Emit(y2.state, y.out + y2.out), e, tools, done)
  {
    RelayAppend(e, x.out, x2.out);
    var z := Relay(e, x.out);
    ProjectAppend(z.out, Relay(z.state, x2.out).out);
    ProjectAppend(y.out, y2.out);
  }

  // ---- Events that concern no tool ----

  predicate NotTool(c: C.State, key: Key) {
    key in c.blocks ==> c.blocks[key].kind != C.ToolUse && c.blocks[key].index < c.nextBlock
  }

  /** At most one block that is not a tool was touched. */
  predicate Mild(c: C.State, x: C.Emit, key: Key) {
    && C.Touches(c, x.state, key) && c.nextBlock <= x.state.nextBlock
    && NotTool(x.state, key) && Plainspoken(x.out, x.state.nextBlock)
  }

  lemma {:induction false} MildThen(c: C.State, a: C.Emit, b: C.Emit, key: Key)
    requires Mild(c, a, key) && Mild(a.state, b, key)
    ensures Mild(c, C.Emit(b.state, a.out + b.out), key)
    ensures Says(a.out + b.out) == Says(a.out) + Says(b.out)
  {
    SaysTwo(a.out, b.out);
    forall v | v in a.out + b.out ensures PlainEvent(v, b.state.nextBlock) {
      if v in a.out {
        assert PlainEvent(v, a.state.nextBlock);
      }
    }
  }

  /** Making or updating a block emits nothing. */
  lemma EnsureMild(c: C.State, key: Key, kind: C.BlockKind)
    requires NotTool(c, key) && kind != C.ToolUse
    ensures Mild(c, C.Emit(C.Ensure(c, key, kind), []), key)
  {
  }

  lemma {:induction false} OpenMild(c: C.State, key: Key, content: ContentBlock)
    requires NotTool(c, key) && key in c.blocks
    requires content == TextBlock("") || content == ThinkingBlock("") || content.RedactedBlock?
    ensures Mild(c, C.Open(c, key, content), key) && Says(C.Open(c, key, content).out) == []
  {
    SaysOne(BlockStart(c.blocks[key].index, content));
  }

  lemma {:induction false} DeltaMild(c: C.State, key: Key, delta: BlockDelta)
    requires NotTool(c, key) && key in c.blocks && !delta.InputChunk?
    ensures Mild(c, C.Delta(c, key, delta), key)
    ensures Says(C.Delta(c, key, delta).out)
            == if delta.TextChunk? && delta.text != "" then [Heard(Say(delta.text), None)] else []
  {
    SaysOne(BlockChunk(c.blocks[key].index, delta));
  }

  lemma {:induction false} CloseMild(c: C.State, key: Key)
    requires NotTool(c, key)
    ensures Mild(c, C.Close(c, key), key) && Says(C.Close(c, key).out) == []
  {
    if key in c.blocks {
      SaysOne(BlockStop(c.blocks[key].index));
    }
  }

  lemma {:induction false} TextMild(c: C.State, key: Key, text: string)
    requires NotTool(c, key)
    ensures Mild(c, C.TextArrives(c, key, text), key)
    ensures Says(C.TextArrives(c, key, text).out) == if text == "" then [] else [Heard(Say(text), None)]
  {
    EnsureMild(c, key, C.Prose);
    var t := C.Ensure(c, key, C.Prose);
    OpenMild(t, key, TextBlock(""));
    var a := C.OpenText(t, key);
    DeltaMild(a.state, key, TextChunk(text));
    MildThen(t, a, C.Delta(a.state, key, TextChunk(text)), key);
  }

  lemma {:induction false} ReasoningMild(c: C.State, key: Key, text: string)
    requires NotTool(c, key)
    ensures Mild(c, C.ReasoningArrives(c, key, text), key) && Says(C.ReasoningArrives(c, key, text).out) == []
  {
    EnsureMild(c, key, C.Thinking);
    var t := C.Ensure(c, key, C.Thinking);
    OpenMild(t, key, C.ThinkingContent(t.blocks[key].encrypted));
    var a := C.OpenThinking(t, key);
    DeltaMild(a.state, key, ThinkingChunk(text));
    MildThen(t, a, C.Delta(a.state, key, ThinkingChunk(text)), key);
  }

  lemma {:induction false} AddMild(c: C.State, ref: ItemRef, item: Item)
    requires NotTool(c, ItemKey(ref)) && !item.kind.ToolItem?
    ensures Mild(c, C.AddItem(c, ref, item), ItemKey(ref)) && Says(C.AddItem(c, ref, item).out) == []
  {
    if item.kind.ReasoningItem? {
      var key := ItemKey(ref);
      var t := C.Ensure(c, key, C.Thinking);
      var u := C.Update(t, key, t.blocks[key].(encrypted := Trim(item.encrypted)));
      OpenMild(u, key, C.ThinkingContent(u.blocks[key].encrypted));
    }
  }

  lemma {:induction false} SignatureMild(c: C.State, key: Key, encrypted: string) returns (b: C.Emit)
    requires NotTool(c, key) && key in c.blocks
    ensures var t := C.Update(c, key, c.blocks[key].(encrypted := encrypted));
            b == if HasPrefix(encrypted, REDACTED_PREFIX) then C.Emit(t, []) else C.Delta(t, key,
                SignatureChunk(encrypted))
    ensures Mild(c, b, key) && Says(b.out) == []
  {
    var t := C.Update(c, key, c.blocks[key].(encrypted := encrypted));
    DeltaMild(t, key, SignatureChunk(encrypted));
    b := if HasPrefix(encrypted, REDACTED_PREFIX) then C.Emit(t, []) else C.Delta(t, key, SignatureChunk(encrypted));
  }

  lemma {:induction false} SummaryMild(c: C.State, key: Key, text: string) returns (a: C.Emit)
    requires NotTool(c, key) && key in c.blocks
    ensures a == if c.blocks[key].sawDelta then C.Emit(c, []) else C.Delta(c, key, ThinkingChunk(text))
    ensures Mild(c, a, key) && Says(a.out) == []
  {
    DeltaMild(c, key, ThinkingChunk(text));
    a := if c.blocks[key].sawDelta then C.Emit(c, []) else C.Delta(c, key, ThinkingChunk(text));
  }

  lemma {:induction false} ThinkingMild(c: C.State, key: Key, item: Item)
    requires NotTool(c, key) && key in c.blocks
    ensures Mild(c, C.CompleteThinking(c, key, item), key) && Says(C.CompleteThinking(c, key, item).out) == []
  {
    var a := SummaryMild(c, key, ReasoningText(item));
    var b := SignatureMild(a.state, key, FirstOf(item.encrypted, a.state.blocks[key].encrypted));
    MildThen(c, a, b, key);
  }

  lemma {:induction false} LateMild(c: C.State, key: Key, item: Item)
    requires NotTool(c, key) && !item.kind.ToolItem?
    ensures Mild(c, C.OpenLate(c, key, item), key) && Says(C.OpenLate(c, key, item).out) == []
  {
    if key !in c.blocks && item.kind.ReasoningItem? {
      var t := C.Ensure(c, key, C.Thinking);
      OpenMild(t, key, C.ThinkingContent(t.blocks[key].encrypted));
    }
  }

  lemma {:induction false} CompleteMild(c: C.State, ref: ItemRef, item: Item)
    requires NotTool(c, ItemKey(ref)) && !item.kind.ToolItem?
    ensures Mild(c, C.CompleteItem(c, ref, item), ItemKey(ref)) && Says(C.CompleteItem(c, ref, item).out) == []
  {
    var key := ItemKey(ref);
    LateMild(c, key, item);
    var a := C.OpenLate(c, key, item);
    if key in a.state.blocks {
      var b := C.CompleteBlock(a.state, key, item);
      if a.state.blocks[key].kind == C.Thinking {
        ThinkingMild(a.state, key, item);
      }
      CloseMild(b.state, key);
      var d := C.Close(b.state, key);
      MildThen(a.state, b, d, key);
      MildThen(c, a, C.Emit(d.state, b.out + d.out), key);
    }
  }

  /** An event that concerns no tool changes no tool, and through Claude it is heard as the text it adds. */
  lemma {:induction false} QuietSim(c: C.State, d: D.State, e: E.State, tools: set<ItemRef>, done: set<ItemRef>,
                                    x: C.Emit, key: Key)
    returns (z: E.Emit)
    requires Sim(c, d, e, tools, done) && c.started
    requires !ToolKey(key, tools) && Mild(c, x, key)
    ensures z == Relay(e, x.out) && Sim(x.state, d, z.state, tools, done) && Project(z.out) == Says(x.out)
  {
    RelayPlain(e, x.out, x.state.nextBlock);
    z := Relay(e, x.out);
    var t, f := x.state, z.state;
    forall ref | ref in d.items ensures ItemKey(ref) in t.blocks && t.blocks[ItemKey(ref)] == c.blocks[ItemKey(ref)] {
      assert ItemKey(ref) != key;
    }
    assert ToolsMatch(t, d, f, tools);
  }

  /** An event that concerns no tool: both ways add the same text, and no tool changes. */
  lemma {:induction false} QuietInStep(c: C.State, d: D.State, e: E.State, tools: set<ItemRef>, done: set<ItemRef>,
                                       x: C.Emit, y: D.Emit, key: Key)
    requires Sim(c, d, e, tools, done) && c.started
    requires !ToolKey(key, tools) && Mild(c, x, key)
    requires y.state == d && Project(y.out) == Says(x.out)
    ensures InStep(x, y, e, tools, done)
  {
    var z := QuietSim(c, d, e, tools, done, x, key);
  }

  lemma {:induction false} SpokenHeard(d: D.State, delta: ChatDelta, text: string)
    ensures Project(D.Spoken(d, delta, text).out) == if text == "" || delta.Reason? then [] else [Heard(delta, None)]
  {
    ProjectOne(D.ChunkOf(d, delta));
  }

  // ---- Events of tools ----

  lemma FirstOfNothing(a: string)
    ensures FirstOf(a, "") == Trim(a) && FirstOf("", a) == Trim(a)
  {
    assert Trim("") == "";
  }

  lemma NewBlock(c: C.State, key: Key, id: string, name: string) returns (x: C.Emit)
    requires key !in c.blocks
    ensures var t := C.Ensure(c, key, C.ToolUse);
            x == C.OpenTool(C.Update(t, key, t.blocks[key].(functionId := id, functionName := name)), key)
    ensures x.out == [BlockStart(c.nextBlock, ToolUseBlock(id, "", name))]
    ensures x.state == c.(nextBlock := c.nextBlock + 1,
                          blocks := c.blocks[key := C.Block(c.nextBlock, C.ToolUse, true, false, "", "", id, name)])
  {
    var t := C.Ensure(c, key, C.ToolUse);
    x := C.OpenTool(C.Update(t, key, t.blocks[key].(functionId := id, functionName := name)), key);
  }

  lemma {:induction false} NewEntry(d: D.State, ref: ItemRef, id: string, name: string) returns (y: D.Emit)
    requires ref !in d.items
    ensures y == D.Announce(D.Named(d, ref, id, name), ref)
    ensures Project(y.out) == [Heard(Call(d.nextTool, id, name), None)]
    ensures y.state == d.(nextTool := d.nextTool + 1, hasToolCalls := true,
                          items := d.items[ref := D.Entry(d.nextTool, true, false, id, name)])
  {
    y := D.Announce(D.Named(d, ref, id, name), ref);
    var t := D.Named(d, ref, id, name);
    assert y.out == [D.ChunkOf(t, Call(d.nextTool, id, name))];
    ProjectOne(y.out[0]);
  }

  lemma {:induction false} RelayCall(e: E.State, index: nat, id: string, name: string) returns (z: E.Emit)
    requires e.started && E.At(index) !in e.blocks
    ensures z == Relay(e, [BlockStart(index, ToolUseBlock(id, "", name))])
    ensures Project(z.out) == [Heard(Call(e.nextTool, Trim(id), Trim(name)), None)]
    ensures z.state == e.(nextTool := e.nextTool + 1, hasToolCalls := true,
                          blocks := e.blocks[E.At(index) := E.Block(E.ToolUse, e.nextTool)])
  {
    var v := BlockStart(index, ToolUseBlock(id, "", name));
    RelayOne(e, v);
    FirstOfNothing(id);
    z := E.Deliver(e, v, true);
    assert z.out == [E.ChunkOf(z.state, Call(e.nextTool, Trim(id), Trim(name)))];
    ProjectOne(z.out[0]);
  }

  lemma MatchWithTool(c: C.State, d: D.State, e: E.State, tools: set<ItemRef>, done: set<ItemRef>, ref: ItemRef,
                      b: C.Block, t: D.Entry, k: E.Block)
    returns (x: C.State, y: D.State, z: E.State)
    requires Sim(c, d, e, tools, done) && ref in tools && ItemKey(ref) !in c.blocks
    requires b.kind == C.ToolUse && b.index == c.nextBlock && t.announced && t.sawDelta == b.sawDelta
             && t.toolIndex == k.toolIndex
    ensures x == c.(nextBlock := c.nextBlock + 1, blocks := c.blocks[ItemKey(ref) := b])
    ensures y == d.(nextTool := d.nextTool + 1, hasToolCalls := true, items := d.items[ref := t])
    ensures z == e.(nextTool := e.nextTool + 1, hasToolCalls := true, blocks := e.blocks[E.At(c.nextBlock) := k])
    ensures ToolsMatch(x, y, z, tools) && ref in y.items
  {
    x := c.(nextBlock := c.nextBlock + 1, blocks := c.blocks[ItemKey(ref) := b]);
    y := d.(nextTool := d.nextTool + 1, hasToolCalls := true, items := d.items[ref := t]);
    z := e.(nextTool := e.nextTool + 1, hasToolCalls := true, blocks := e.blocks[E.At(c.nextBlock) := k]);
    forall r | r in y.items && ItemKey(r) in x.blocks ensures ToolMatch(x.blocks[ItemKey(r)], y.items[r], z) {
      if r != ref {
        assert ToolMatch(c.blocks[ItemKey(r)], d.items[r], e);
      }
    }
  }

  lemma SimWithTool(c: C.State, d: D.State, e: E.State, tools: set<ItemRef>, done: set<ItemRef>, ref: ItemRef,
                    b: C.Block, t: D.Entry, k: E.Block)
    requires Sim(c, d, e, tools, done) && ref in tools && ItemKey(ref) !in c.blocks
    requires b.kind == C.ToolUse && b.open && b.index == c.nextBlock && t.announced && t.sawDelta == b.sawDelta
    requires t.toolIndex == k.toolIndex
    ensures Sim(c.(nextBlock := c.nextBlock + 1, blocks := c.blocks[ItemKey(ref) := b]),
                d.(nextTool := d.nextTool + 1, hasToolCalls := true, items := d.items[ref := t]),
                e.(nextTool := e.nextTool + 1, hasToolCalls := true, blocks := e.blocks[E.At(c.nextBlock) := k]),
                    tools, done)
  {
    var x, y, z := MatchWithTool(c, d, e, tools, done, ref, b, t, k);
  }

  /** A tool seen for the first time is announced by both, under the same index. */
  lemma AnnounceInStep(c: C.State, d: D.State, e: E.State, tools: set<ItemRef>, done: set<ItemRef>, ref: ItemRef,
                       id: string, name: string)
    returns (x: C.Emit, y: D.Emit)
    requires Sim(c, d, e, tools, done) && c.started && ref in tools && ItemKey(ref) !in c.blocks
    ensures var t := C.Ensure(c, ItemKey(ref), C.ToolUse);
            x == C.OpenTool(C.Update(t, ItemKey(ref),
                                     t.blocks[ItemKey(ref)].(functionId := id, functionName := name)), ItemKey(ref))
    ensures y == D.Announce(D.Named(d, ref, Trim(id), Trim(name)), ref)
    ensures InStep(x, y, e, tools, done)
  {
    x := NewBlock(c, ItemKey(ref), id, name);
    y := NewEntry(d, ref, Trim(id), Trim(name));
    var z := RelayCall(e, c.nextBlock, id, name);
    SimWithTool(c, d, e, tools, done, ref, x.state.blocks[ItemKey(ref)], y.state.items[ref],
                E.Block(E.ToolUse, e.nextTool));
  }

  /** A known tool may change, as long as both ways agree on whether it had arguments. */
  lemma SimToolChanged(c: C.State, d: D.State, e: E.State, tools: set<ItemRef>, done: set<ItemRef>,
                       more: set<ItemRef>, ref: ItemRef, b: C.Block, t: D.Entry)
    requires Sim(c, d, e, tools, done) && done <= more && ref in d.items
    requires var was := c.blocks[ItemKey(ref)]; b.index == was.index && b.kind == was.kind && (ref !in more ==> b.open)
    requires t.announced && t.toolIndex == d.items[ref].toolIndex && t.sawDelta == b.sawDelta
    ensures Sim(c.(blocks := c.blocks[ItemKey(ref) := b]), d.(items := d.items[ref := t]), e, tools, more)
  {
    var x, y := c.(blocks := c.blocks[ItemKey(ref) := b]), d.(items := d.items[ref := t]);
    forall r | r in y.items && ItemKey(r) in x.blocks ensures ToolMatch(x.blocks[ItemKey(r)], y.items[r], e) {
      assert ToolMatch(c.blocks[ItemKey(r)], d.items[r], e);
    }
    assert ToolsMatch(x, y, e, tools);
    assert ref in y.items;
  }

  /** Nothing was said, and one tool changed. */
  lemma {:induction false} SilentToolChange(c: C.State, d: D.State, e: E.State, tools: set<ItemRef>,
                                            done: set<ItemRef>, more: set<ItemRef>, ref: ItemRef, b: C.Block,
                                            t: D.Entry, x: C.Emit, y: D.Emit)
    requires Sim(c, d, e, tools, done) && done <= more && ref in d.items
    requires var was := c.blocks[ItemKey(ref)]; b.index == was.index && b.kind == was.kind && (ref !in more ==> b.open)
    requires t.announced && t.toolIndex == d.items[ref].toolIndex && t.sawDelta == b.sawDelta
    requires x.state == c.(blocks := c.blocks[ItemKey(ref) := b]) && y.state == d.(items := d.items[ref := t])
    requires Relay(e, x.out) == E.Emit(e, []) && y.out == []
    ensures InStep(x, y, e, tools, more)
  {
    SimToolChanged(c, d, e, tools, done, more, ref, b, t);
  }

  /** What both ways know of a tool that one of them knows. */
  lemma KnownTool(c: C.State, d: D.State, e: E.State, tools: set<ItemRef>, done: set<ItemRef>, ref: ItemRef)
    requires Sim(c, d, e, tools, done) && ref in tools && ItemKey(ref) in c.blocks
    ensures ref in d.items && ToolMatch(c.blocks[ItemKey(ref)], d.items[ref], e) && d.hasToolCalls && e.hasToolCalls
    ensures ref !in done ==> c.blocks[ItemKey(ref)].open
  {
  }

  lemma NamedAlready(d: D.State, ref: ItemRef, id: string, name: string) returns (y: D.Emit)
    requires ref in d.items && d.items[ref].announced
    ensures y == D.Announce(D.Named(d, ref, id, name), ref)
    ensures y == D.Emit(d.(items := d.items[ref := d.items[ref].(callId := id, name := name)]), [])
  {
    y := D.Announce(D.Named(d, ref, id, name), ref);
  }

  /** Naming a tool that was announced already says nothing. */
  lemma RenameInStep(c: C.State, d: D.State, e: E.State, tools: set<ItemRef>, done: set<ItemRef>, ref: ItemRef,
                     id: string, name: string, callId: string, callName: string)
    returns (x: C.Emit, y: D.Emit)
    requires Sim(c, d, e, tools, done) && ref in tools && ref !in done && ItemKey(ref) in c.blocks
    ensures x == C.OpenTool(C.Update(c, ItemKey(ref),
                                     c.blocks[ItemKey(ref)].(functionId := id, functionName := name)), ItemKey(ref))
    ensures y == D.Announce(D.Named(d, ref, callId, callName), ref)
    ensures InStep(x, y, e, tools, done)
  {
    var key := ItemKey(ref);
    KnownTool(c, d, e, tools, done, ref);
    var b := c.blocks[key].(functionId := id, functionName := name);
    x := C.OpenTool(C.Update(c, key, b), key);
    y := NamedAlready(d, ref, callId, callName);
    SilentToolChange(c, d, e, tools, done, done, ref, b, y.state.items[ref], x, y);
  }

  lemma {:induction false} RelayArguments(e: E.State, index: nat, text: string) returns (z: E.Emit)
    requires e.started && e.hasToolCalls && E.At(index) in e.blocks && text != ""
    ensures z == Relay(e, [BlockChunk(index, InputChunk(text))]) && z.state == e
    ensures Project(z.out) == [Heard(Argue(e.blocks[E.At(index)].toolIndex, text), None)]
  {
    var v := BlockChunk(index, InputChunk(text));
    RelayOne(e, v);
    z := E.Deliver(e, v, true);
    assert z.out == [E.ChunkOf(e, Argue(e.blocks[E.At(index)].toolIndex, text))];
    ProjectOne(z.out[0]);
  }

  lemma {:induction false} EntryArguments(d: D.State, ref: ItemRef, text: string) returns (y: D.Emit)
    requires ref in d.items && text != ""
    ensures y == D.Arguments(d, ref, text)
    ensures y.state == d.(items := d.items[ref := d.items[ref].(sawDelta := true)])
    ensures Project(y.out) == [Heard(Argue(d.items[ref].toolIndex, text), None)]
  {
    y := D.Arguments(d, ref, text);
    ProjectOne(y.out[0]);
  }

  /** Arguments of a known tool reach the same call either way. */
  lemma ArgueInStep(c: C.State, d: D.State, e: E.State, tools: set<ItemRef>, done: set<ItemRef>, ref: ItemRef,
                    text: string)
    returns (x: C.Emit, y: D.Emit)
    requires Sim(c, d, e, tools, done) && c.started && ref in tools && ItemKey(ref) in c.blocks
    ensures x == C.Delta(c, ItemKey(ref), InputChunk(text)) && y == D.Arguments(d, ref, text)
    ensures InStep(x, y, e, tools, done)
  {
    var key := ItemKey(ref);
    KnownTool(c, d, e, tools, done, ref);
    x := C.Delta(c, key, InputChunk(text));
    if text == "" {
      y := D.Arguments(d, ref, text);
    } else {
      y := EntryArguments(d, ref, text);
      var z := RelayArguments(e, c.blocks[key].index, text);
      SimToolChanged(c, d, e, tools, done, done, ref, x.state.blocks[key], y.state.items[ref]);
    }
  }

  // ---- One event ----

  /** An event both ways treat alike: nothing is refused, tool items keep to their own references and
      have a name when they are announced, and nothing is added to a tool that is done. */
  predicate Conforms(b: Body, tools: set<ItemRef>, done: set<ItemRef>) {
    match b
    case ItemAdded(ref, item) =>
      if item.kind.ToolItem? then ref in tools && ref !in done && Trim(item.name) != "" else ref !in tools
    case PartAdded(_, _, p) =>
      && (p.kind.TextPart? ==> p.text != "" || p.refusal == "")
      && (p.kind.RefusalPart? ==> p.text == "" && p.refusal == "")
    case RefusalDelta(_, _, text) => text == ""
    case ReasoningDelta(ref, _) => ref !in tools
    case ArgumentsDelta(ref, _, _, _, _) => ref in tools && ref !in done
    case ItemDone(ref, item) => item.kind.ToolItem? <==> ref in tools
    case _ => true
  }

  /** The tools that are done after an event. */
  function DoneAfter(b: Body, tools: set<ItemRef>, done: set<ItemRef>): set<ItemRef> {
    if b.ItemDone? then done + {b.ref} else if IsTerminal(b) then done + tools else done
  }

  /** The direct way announces a new tool that has a name. */
  lemma AddedEntry(d: D.State, ref: ItemRef, item: Item)
    requires ref !in d.items && item.kind.ToolItem? && Trim(item.name) != ""
    ensures D.AddItem(d, ref, item) == D.Announce(D.Named(d, ref, Trim(CallIdOf(item)), Trim(Trim(item.name))), ref)
  {
    FirstOfNothing(item.name);
    FirstOfNothing(CallIdOf(item));
    TrimShape(item.name);
  }

  lemma AddNewTool(c: C.State, d: D.State, e: E.State, tools: set<ItemRef>, done: set<ItemRef>, ref: ItemRef,
                   item: Item)
    returns (x: C.Emit, y: D.Emit)
    requires Sim(c, d, e, tools, done) && c.started && item.kind.ToolItem?
    requires ref in tools && ItemKey(ref) !in c.blocks && Trim(item.name) != ""
    ensures x == C.AddItem(c, ref, item) && y == D.AddItem(d, ref, item) && InStep(x, y, e, tools, done)
  {
    x, y := AnnounceInStep(c, d, e, tools, done, ref, CallIdOf(item), Trim(item.name));
    AddedEntry(d, ref, item);
  }

  lemma AddKnownTool(c: C.State, d: D.State, e: E.State, tools: set<ItemRef>, done: set<ItemRef>, ref: ItemRef,
                     item: Item)
    returns (x: C.Emit, y: D.Emit)
    requires Sim(c, d, e, tools, done) && c.started && item.kind.ToolItem?
    requires ref in tools && ref !in done && ItemKey(ref) in c.blocks
    ensures x == C.AddItem(c, ref, item) && y == D.AddItem(d, ref, item) && InStep(x, y, e, tools, done)
  {
    KnownTool(c, d, e, tools, done, ref);
    x, y := RenameInStep(c, d, e, tools, done, ref, CallIdOf(item), Trim(item.name),
                         FirstOf(CallIdOf(item), d.items[ref].callId), FirstOf(item.name, d.items[ref].name));
  }

  lemma AddToolInStep(c: C.State, d: D.State, e: E.State, tools: set<ItemRef>, done: set<ItemRef>, ref: ItemRef,
                      item: Item)
    returns (x: C.Emit, y: D.Emit)
    requires Sim(c, d, e, tools, done) && c.started && item.kind.ToolItem?
    requires ref in tools && ref !in done && Trim(item.name) != ""
    ensures x == C.AddItem(c, ref, item) && y == D.AddItem(d, ref, item) && InStep(x, y, e, tools, done)
  {
    if ItemKey(ref) in c.blocks {
      x, y := AddKnownTool(c, d, e, tools, done, ref, item);
    } else {
      x, y := AddNewTool(c, d, e, tools, done, ref, item);
    }
  }

  /** The first half of an arguments delta: both have announced the tool. */
  lemma NamedByDelta(c: C.State, d: D.State, e: E.State, tools: set<ItemRef>, done: set<ItemRef>, ref: ItemRef,
                     callId: string, itemId: string, name: string)
    returns (x: C.Emit, y: D.Emit)
    requires Sim(c, d, e, tools, done) && c.started && ref in tools && ref !in done
    ensures var t := C.Ensure(c, ItemKey(ref), C.ToolUse);
            x == C.OpenTool(C.Update(t, ItemKey(ref), C.NameTool(t.blocks[ItemKey(ref)], callId, itemId, name)),
                ItemKey(ref))
    ensures var entry := D.EntryOf(d, ref);
            y == D.Announce(D.Named(d, ref, FirstOf3(entry.callId, callId, itemId), FirstOf(entry.name, name)), ref)
    ensures InStep(x, y, e, tools, done) && x.state.started && ItemKey(ref) in x.state.blocks
  {
    var key, entry := ItemKey(ref), D.EntryOf(d, ref);
    if key in c.blocks {
      var b := C.NameTool(c.blocks[key], callId, itemId, name);
      x, y := RenameInStep(c, d, e, tools, done, ref, b.functionId, b.functionName,
                           FirstOf3(entry.callId, callId, itemId), FirstOf(entry.name, name));
    } else {
      FirstOfNothing(name);
      FirstOfTrimmed(callId, itemId, "");
      TrimShape(name);
      x, y := AnnounceInStep(c, d, e, tools, done, ref, FirstOf(callId, itemId), Trim(name));
    }
  }

  lemma ArgumentsInStep(c: C.State, d: D.State, e: E.State, tools: set<ItemRef>, done: set<ItemRef>, ref: ItemRef,
                        callId: string, itemId: string, name: string, text: string)
    requires Sim(c, d, e, tools, done) && c.started && ref in tools && ref !in done
    ensures InStep(C.ArgumentsArrive(c, ItemKey(ref), callId, itemId, name, text),
                   D.ArgumentsArrive(d, ref, callId, itemId, name, text), e, tools, done)
  {
    var x, y := NamedByDelta(c, d, e, tools, done, ref, callId, itemId, name);
    var x2, y2 := ArgueInStep(x.state, y.state, Relay(e, x.out).state, tools, done, ref, text);
    Sequence(x, y, e, x2, y2, tools, done);
  }

  /** The direct way renames a tool it knows; the other says nothing at all. */
  lemma NameInStep(c: C.State, d: D.State, e: E.State, tools: set<ItemRef>, done: set<ItemRef>, ref: ItemRef,
                   callId: string, callName: string)
    returns (y: D.Emit)
    requires Sim(c, d, e, tools, done) && ref in tools && ItemKey(ref) in c.blocks
    ensures y == D.Announce(D.Named(d, ref, callId, callName), ref)
    ensures InStep(C.Emit(c, []), y, e, tools, done)
  {
    KnownTool(c, d, e, tools, done, ref);
    y := NamedAlready(d, ref, callId, callName);
    var b := c.blocks[ItemKey(ref)];
    assert c.blocks[ItemKey(ref) := b] == c.blocks;
    SilentToolChange(c, d, e, tools, done, done, ref, b, y.state.items[ref], C.Emit(c, []), y);
  }

  lemma CloseInStep(c: C.State, d: D.State, e: E.State, tools: set<ItemRef>, done: set<ItemRef>, ref: ItemRef)
    returns (x: C.Emit)
    requires Sim(c, d, e, tools, done) && ref in tools && ItemKey(ref) in c.blocks
    ensures x == C.Close(c, ItemKey(ref)) && InStep(x, D.Emit(d, []), e, tools, done + {ref})
  {
    var key := ItemKey(ref);
    KnownTool(c, d, e, tools, done, ref);
    x := C.Close(c, key);
    if x.out != [] {
      RelayOne(e, x.out[0]);
    }
    var b := c.blocks[key].(open := false);
    assert c.blocks[key := c.blocks[key]] == c.blocks && d.items[ref := d.items[ref]] == d.items;
    SilentToolChange(c, d, e, tools, done, done + {ref}, ref, b, d.items[ref], x, D.Emit(d, []));
  }

  /** The announcement, if there was none, of a tool that is done. */
  lemma LateInStep(c: C.State, d: D.State, e: E.State, tools: set<ItemRef>, done: set<ItemRef>, ref: ItemRef,
                   item: Item)
    returns (x: C.Emit, y: D.Emit)
    requires Sim(c, d, e, tools, done) && c.started && ref in tools && item.kind.ToolItem?
    ensures x == C.OpenLate(c, ItemKey(ref), item)
    ensures var entry := D.EntryOf(d, ref);
            y == D.Announce(D.Named(d, ref, FirstOf(entry.callId, CallIdOf(item)), FirstOf(entry.name, item.name)), ref)
    ensures InStep(x, y, e, tools, done) && ItemKey(ref) in x.state.blocks
  {
    var entry := D.EntryOf(d, ref);
    if ItemKey(ref) in c.blocks {
      x := C.Emit(c, []);
      y := NameInStep(c, d, e, tools, done, ref, FirstOf(entry.callId, CallIdOf(item)), FirstOf(entry.name, item.name));
    } else {
      FirstOfNothing(item.name);
      FirstOfNothing(CallIdOf(item));
      TrimShape(item.name);
      x, y := AnnounceInStep(c, d, e, tools, done, ref, CallIdOf(item), Trim(item.name));
    }
  }

  lemma SupplyInStep(c: C.State, d: D.State, e: E.State, tools: set<ItemRef>, done: set<ItemRef>, ref: ItemRef,
                     item: Item)
    returns (x: C.Emit, y: D.Emit)
    requires Sim(c, d, e, tools, done) && c.started && ref in tools && ItemKey(ref) in c.blocks
    ensures x == C.CompleteBlock(c, ItemKey(ref), item)
    ensures ref in d.items
    ensures y == if d.items[ref].sawDelta then D.Emit(d, []) else D.Arguments(d, ref, RawArguments(item))
    ensures InStep(x, y, e, tools, done)
  {
    KnownTool(c, d, e, tools, done, ref);
    if d.items[ref].sawDelta {
      x, y := C.Emit(c, []), D.Emit(d, []);
    } else {
      x, y := ArgueInStep(c, d, e, tools, done, ref, RawArguments(item));
    }
  }

  lemma CompleteToolInStep(c: C.State, d: D.State, e: E.State, tools: set<ItemRef>, done: set<ItemRef>, ref: ItemRef,
                           item: Item)
    requires Sim(c, d, e, tools, done) && c.started && ref in tools && item.kind.ToolItem?
    ensures InStep(C.CompleteItem(c, ref, item), D.CompleteItem(d, ref, item), e, tools, done + {ref})
  {
    var x, y := LateInStep(c, d, e, tools, done, ref, item);
    var f := Relay(e, x.out).state;
    var x2, y2 := SupplyInStep(x.state, y.state, f, tools, done, ref, item);
    var x3 := CloseInStep(x2.state, y2.state, Relay(f, x2.out).state, tools, done, ref);
    Sequence(x2, y2, f, x3, D.Emit(y2.state, []), tools, done + {ref});
    EmptyEnds(y2.out);
    Sequence(x, y, e, C.Emit(x3.state, x2.out + x3.out), y2, tools, done + {ref});
  }

  lemma MoreDone(x: C.Emit, y: D.Emit, e: E.State, tools: set<ItemRef>, done: set<ItemRef>, more: set<ItemRef>)
    requires InStep(x, y, e, tools, done) && done <= more
    ensures InStep(x, y, e, tools, more)
  {
  }

  lemma NotToolKey(c: C.State, d: D.State, e: E.State, tools: set<ItemRef>, done: set<ItemRef>, key: Key)
    requires Sim(c, d, e, tools, done) && !ToolKey(key, tools)
    ensures NotTool(c, key)
  {
  }

  lemma {:induction false} TextInStep(c: C.State, d: D.State, e: E.State, tools: set<ItemRef>, done: set<ItemRef>,
                                      ref: ItemRef, part: nat, text: string, y: D.Emit)
    requires Sim(c, d, e, tools, done) && c.started
    requires y.state == d && Project(y.out) == if text == "" then [] else [Heard(Say(text), None)]
    ensures InStep(C.TextArrives(c, ContentKey(ref, part), text), y, e, tools, done)
  {
    var key := ContentKey(ref, part);
    NotToolKey(c, d, e, tools, done, key);
    TextMild(c, key, text);
    QuietInStep(c, d, e, tools, done, C.TextArrives(c, key, text), y, key);
  }

  lemma PartInStep(c: C.State, d: D.State, e: E.State, tools: set<ItemRef>, done: set<ItemRef>, ref: ItemRef,
                   part: nat, p: Part)
    requires Sim(c, d, e, tools, done) && c.started && Conforms(PartAdded(ref, part, p), tools, done)
    ensures InStep(C.Content(c, PartAdded(ref, part, p)), D.AddPart(d, p), e, tools, done)
  {
    SpokenHeard(d, Say(p.text), p.text);
    SpokenHeard(d, Refuse(p.refusal), p.refusal);
    if p.kind.OtherPart? {
      NothingInStep(c, d, e, tools, done);
    } else {
      TextInStep(c, d, e, tools, done, ref, part, RawPartText(p), D.AddPart(d, p));
    }
  }

  lemma NothingInStep(c: C.State, d: D.State, e: E.State, tools: set<ItemRef>, done: set<ItemRef>)
    requires Sim(c, d, e, tools, done)
    ensures InStep(C.Emit(c, []), D.Emit(d, []), e, tools, done)
  {
  }

  lemma ThinkingInStep(c: C.State, d: D.State, e: E.State, tools: set<ItemRef>, done: set<ItemRef>, ref: ItemRef,
                       text: string)
    requires Sim(c, d, e, tools, done) && c.started && ref !in tools
    ensures InStep(C.ReasoningArrives(c, ItemKey(ref), text), D.Spoken(d, Reason(text), text), e, tools, done)
  {
    NotToolKey(c, d, e, tools, done, ItemKey(ref));
    ReasoningMild(c, ItemKey(ref), text);
    SpokenHeard(d, Reason(text), text);
    QuietInStep(c, d, e, tools, done, C.ReasoningArrives(c, ItemKey(ref), text), D.Spoken(d, Reason(text), text),
        ItemKey(ref));
  }

  lemma AddInStep(c: C.State, d: D.State, e: E.State, tools: set<ItemRef>, done: set<ItemRef>, ref: ItemRef,
                  item: Item)
    requires Sim(c, d, e, tools, done) && c.started && ref !in tools && !item.kind.ToolItem?
    ensures InStep(C.AddItem(c, ref, item), D.AddItem(d, ref, item), e, tools, done)
  {
    NotToolKey(c, d, e, tools, done, ItemKey(ref));
    AddMild(c, ref, item);
    QuietInStep(c, d, e, tools, done, C.AddItem(c, ref, item), D.Emit(d, []), ItemKey(ref));
  }

  lemma DoneInStep(c: C.State, d: D.State, e: E.State, tools: set<ItemRef>, done: set<ItemRef>, ref: ItemRef,
                   item: Item)
    requires Sim(c, d, e, tools, done) && c.started && ref !in tools && !item.kind.ToolItem?
    ensures InStep(C.CompleteItem(c, ref, item), D.CompleteItem(d, ref, item), e, tools, done + {ref})
  {
    NotToolKey(c, d, e, tools, done, ItemKey(ref));
    CompleteMild(c, ref, item);
    SpokenHeard(d, Reason(ReasoningText(item)), ReasoningText(item));
    QuietInStep(c, d, e, tools, done, C.CompleteItem(c, ref, item), D.CompleteItem(d, ref, item), ItemKey(ref));
    MoreDone(C.CompleteItem(c, ref, item), D.CompleteItem(d, ref, item), e, tools, done, done + {ref});
  }

  lemma ContentInStep(c: C.State, d: D.State, e: E.State, tools: set<ItemRef>, done: set<ItemRef>, b: Body)
    requires Sim(c, d, e, tools, done) && c.started && Conforms(b, tools, done) && !IsTerminal(b)
    ensures InStep(C.Content(c, b), D.Content(d, b), e, tools, DoneAfter(b, tools, done))
  {
    match b
    case ItemAdded(ref, item) =>
      if item.kind.ToolItem? {
        var x, y := AddToolInStep(c, d, e, tools, done, ref, item);
      } else {
        AddInStep(c, d, e, tools, done, ref, item);
      }
    case PartAdded(ref, part, p) => PartInStep(c, d, e, tools, done, ref, part, p);
    case TextDelta(ref, part, text) =>
      SpokenHeard(d, Say(text), text);
      TextInStep(c, d, e, tools, done, ref, part, text, D.Spoken(d, Say(text), text));
    case RefusalDelta(ref, part, text) => TextInStep(c, d, e, tools, done, ref, part, text, D.Emit(d, []));
    case ReasoningDelta(ref, text) => ThinkingInStep(c, d, e, tools, done, ref, text);
    case ArgumentsDelta(ref, callId, itemId, name, text) => ArgumentsInStep(c, d, e, tools, done, ref, callId,
        itemId, name, text);
    case PartDone(ref, part) =>
      NotToolKey(c, d, e, tools, done, ContentKey(ref, part));
      CloseMild(c, ContentKey(ref, part));
      QuietInStep(c, d, e, tools, done, C.Content(c, b), D.Emit(d, []), ContentKey(ref, part));
    case ItemDone(ref, item) =>
      if item.kind.ToolItem? {
        CompleteToolInStep(c, d, e, tools, done, ref, item);
      } else {
        DoneInStep(c, d, e, tools, done, ref, item);
      }
    case _ => NothingInStep(c, d, e, tools, done);
  }

  // ---- Tools the direct way has not announced yet ----

  /** The identifier and name a tool has after a delta of its arguments, or after being done. */
  function CalledBy(t: D.Entry, b: Body): (string, string)
    requires b.ArgumentsDelta? || b.ItemDone?
  {
    if b.ArgumentsDelta? then (FirstOf3(t.callId, b.callId, b.itemId), FirstOf(t.name, b.name))
    else (FirstOf(t.callId, CallIdOf(b.item)), FirstOf(t.name, b.item.name))
  }

  lemma {:induction false} NamedLater(d: D.State, ref: ItemRef, id: string, name: string) returns (y: D.Emit, w: D.Emit)
    requires ref in d.items && !d.items[ref].announced
    ensures y == D.Announce(D.Named(d, ref, id, name), ref)
    ensures w == D.Announce(D.Named(D.Announce(d, ref).state, ref, id, name), ref)
    ensures w.out == [] && y.state == w.state && ref in y.state.items
    ensures Project(y.out) == [Heard(Call(d.items[ref].toolIndex, id, name), None)]
  {
    var t, u := D.Named(d, ref, id, name), D.Announce(d, ref).state;
    y := D.Announce(t, ref);
    w := D.Announce(D.Named(u, ref, id, name), ref);
    ProjectOne(y.out[0]);
  }

  lemma {:induction false} SuppliedLater(y: D.Emit, w: D.Emit, q: D.Emit, call: Heard)
    requires w.out == [] && y.state == w.state && Project(y.out) == [call]
    ensures Project(y.out + q.out) == [call] + Project(w.out + q.out)
  {
    ProjectAppend(y.out, q.out);
    EmptyEnds(q.out);
  }

  /** The direct way makes the call now, under the name it knows by now; otherwise all is as if it had
      made the call when the tool was announced. */
  lemma {:induction false} CalledLater(d: D.State, b: Body) returns (y: D.Emit, w: D.Emit)
    requires b.ArgumentsDelta? || (b.ItemDone? && b.item.kind.ToolItem?)
    requires b.ref in d.items && !d.items[b.ref].announced
    ensures y == D.Content(d, b) && w == D.Content(D.Announce(d, b.ref).state, b) && y.state == w.state
    ensures var t := d.items[b.ref];
            Project(y.out) == [Heard(Call(t.toolIndex, CalledBy(t, b).0, CalledBy(t, b).1), None)] + Project(w.out)
  {
    var t := d.items[b.ref];
    var id, name := CalledBy(t, b).0, CalledBy(t, b).1;
    var y1, w1 := NamedLater(d, b.ref, id, name);
    var q;
    if b.ArgumentsDelta? {
      q := D.Arguments(y1.state, b.ref, b.delta);
    } else {
      q := if y1.state.items[b.ref].sawDelta then D.Emit(y1.state, [])
           else D.Arguments(y1.state, b.ref, RawArguments(b.item));
    }
    SuppliedLater(y1, w1, q, Heard(Call(t.toolIndex, id, name), None));
    y, w := D.Content(d, b), D.Content(D.Announce(d, b.ref).state, b);
  }

  // ---- The beginning and the end ----

  lemma SimStarted(c: C.State, d: D.State, e: E.State, x: C.State, y: D.State, z: E.State, tools: set<ItemRef>,
                   done: set<ItemRef>)
    requires Sim(c, d, e, tools, done)
    requires x.started && x.stopped == c.stopped && x.nextBlock == c.nextBlock && x.blocks == c.blocks
    requires y.started && y.stopped == d.stopped && y.nextTool == d.nextTool && y.hasToolCalls == d.hasToolCalls
             && y.items == d.items
    requires z.started && z.stopped == e.stopped && z.nextTool == e.nextTool && z.hasToolCalls == e.hasToolCalls
             && z.blocks == e.blocks
    ensures Sim(x, y, z, tools, done)
  {
    assert ToolsMatch(x, y, z, tools);
  }

  lemma {:induction false} RelayStart(e: E.State, id: string, model: string, input: Field) returns (z: E.Emit)
    requires !e.started
    ensures z == Relay(e, [MessageStart(id, model, input)]) && Project(z.out) == [Heard(Role, None)]
    ensures z.state == e.(started := true, id := z.state.id, model := z.state.model, inputTokens := input)
  {
    RelayOne(e, MessageStart(id, model, input));
    z := E.Deliver(e, MessageStart(id, model, input), true);
    ProjectOne(z.out[0]);
  }

  lemma StartInStep(c: C.State, d: D.State, e: E.State, tools: set<ItemRef>, done: set<ItemRef>, event: Event)
    requires Sim(c, d, e, tools, done)
    ensures InStep(C.Start(c, event), D.Start(d, event), e, tools, done)
    ensures C.Start(c, event).state.started
  {
    if !c.started {
      var x, y := C.Start(c, event), D.Start(d, event);
      var v := x.out[0];
      var z := RelayStart(e, v.id, v.model, v.inputTokens);
      ProjectOne(y.out[0]);
      SimStarted(c, d, e, x.state, y.state, z.state, tools, done);
    }
  }

  lemma {:induction false} CloseQuiet(c: C.State, e: E.State, key: Key) returns (x: C.Emit)
    ensures x == C.Close(c, key) && Relay(e, x.out) == E.Emit(e, [])
    ensures x.state == c.(blocks := x.state.blocks) && x.state.blocks.Keys == c.blocks.Keys
    ensures forall k :: k in c.blocks ==> x.state.blocks[k] == c.blocks[k].(open := x.state.blocks[k].open)
  {
    x := C.Close(c, key);
    if x.out != [] {
      RelayOne(e, x.out[0]);
    }
  }

  /** Closing blocks says nothing and changes nothing but which blocks are open. */
  lemma {:induction false} CloseAllQuiet(c: C.State, e: E.State, order: seq<Key>)
    ensures var x := C.CloseAll(c, order);
            && Relay(e, x.out) == E.Emit(e, [])
            && x.state == c.(blocks := x.state.blocks) && x.state.blocks.Keys == c.blocks.Keys
            && forall k :: k in c.blocks ==> x.state.blocks[k] == c.blocks[k].(open := x.state.blocks[k].open)
    decreases |order|
  {
    if order != [] {
      var x := CloseQuiet(c, e, order[0]);
      CloseAllQuiet(x.state, e, order[1..]);
      RelayAppend(e, x.out, C.CloseAll(x.state, order[1..]).out);
    }
  }

  /** Both ways know whether there was a tool. */
  lemma SameToolUse(c: C.State, d: D.State, e: E.State, tools: set<ItemRef>, done: set<ItemRef>)
    requires Sim(c, d, e, tools, done)
    ensures C.HasToolUse(c) == d.hasToolCalls
  {
    if C.HasToolUse(c) {
      var k :| k in c.blocks && c.blocks[k].kind == C.ToolUse;
      assert k.ref in d.items;
    }
    if d.items != map[] {
      var ref :| ref in d.items;
      assert ToolMatch(c.blocks[ItemKey(ref)], d.items[ref], e);
    }
  }

  lemma SimAfterEnd(c: C.State, d: D.State, e: E.State, x: C.State, y: D.State, z: E.State, tools: set<ItemRef>,
                    done: set<ItemRef>)
    requires Sim(c, d, e, tools, done) && x.blocks.Keys == c.blocks.Keys
    requires x == c.(stopped := true, blocks := x.blocks) && y == d.(stopped := true)
             && z == e.(stopped := true, outputTokens := z.outputTokens)
    requires forall k :: k in c.blocks ==> x.blocks[k] == c.blocks[k].(open := x.blocks[k].open)
    ensures Sim(x, y, z, tools, done + tools)
  {
    assert forall k :: k in x.blocks <==> k in c.blocks;
    assert ToolsMatch(x, y, z, tools);
  }

  /** The last two Claude events become the one finish chunk. */
  lemma {:induction false} RelayEnd(e: E.State, stop: StopReason, output: Field) returns (z: E.Emit)
    requires e.started && !e.stopped && !output.Absent?
    ensures z == Relay(e, [MessageDelta(stop, output), MessageStop])
    ensures z.state == e.(stopped := true, outputTokens := output)
    ensures Project(z.out) == [Heard(Nothing, Some(E.ClaudeFinish(stop, e.hasToolCalls)))]
  {
    var first := E.Deliver(e, MessageDelta(stop, output), true);
    var second := E.Deliver(first.state, MessageStop, true);
    assert [MessageDelta(stop, output), MessageStop] == [MessageDelta(stop, output)] + [MessageStop];
    RelayAppend(e, [MessageDelta(stop, output)], [MessageStop]);
    RelayOne(e, MessageDelta(stop, output));
    RelayOne(first.state, MessageStop);
    assert second.out == [];
    EmptyEnds(first.out);
    z := Relay(e, [MessageDelta(stop, output), MessageStop]);
    ProjectOne(first.out[0]);
  }

  /** What the second translator makes of the end of the Claude message. */
  lemma {:induction false} RelayFinish(c: C.State, e: E.State, r: Response, order: seq<Key>)
    returns (x: C.Emit, z: E.Emit)
    requires e.started && !e.stopped && !c.stopped
    ensures x == C.Finish(c, r, order) && z == Relay(e, x.out)
    ensures x.state == c.(stopped := true, blocks := x.state.blocks) && x.state.blocks.Keys == c.blocks.Keys
    ensures forall k :: k in c.blocks ==> x.state.blocks[k] == c.blocks[k].(open := x.state.blocks[k].open)
    ensures z.state == e.(stopped := true, outputTokens := z.state.outputTokens)
    ensures Project(z.out)
            == [Heard(Nothing, Some(E.ClaudeFinish(StopReasonOf(r.incomplete, C.HasToolUse(c)), e.hasToolCalls)))]
  {
    CloseAllQuiet(c, e, order);
    var closed := C.CloseAll(c, order);
    var stop, output := StopReasonOf(r.incomplete, C.HasToolUse(c)), Number(NumberValue(r.usage.outputTokens));
    RelayAppend(e, closed.out, [MessageDelta(stop, output), MessageStop]);
    z := RelayEnd(e, stop, output);
    EmptyEnds(z.out);
    x := C.Finish(c, r, order);
  }

  /** The three finish mappings agree, in whatever order the blocks are closed. */
  lemma FinishInStep(c: C.State, d: D.State, e: E.State, tools: set<ItemRef>, done: set<ItemRef>, r: Response,
                     order: seq<Key>)
    requires Sim(c, d, e, tools, done) && c.started
    ensures InStep(C.Finish(c, r, order), D.Finish(d, r), e, tools, done + tools)
  {
    if c.stopped {
      MoreDone(C.Emit(c, []), D.Emit(d, []), e, tools, done, done + tools);
    } else {
      SameToolUse(c, d, e, tools, done);
      var x, z := RelayFinish(c, e, r, order);
      var y := D.Finish(d, r);
      ProjectOne(y.out[0]);
      SimAfterEnd(c, d, e, x.state, y.state, z.state, tools, done);
    }
  }

  // ---- Whole streams ----

  predicate ConformsFrame(f: Frame, tools: set<ItemRef>, done: set<ItemRef>) {
    f.Data? ==> Conforms(f.event.body, tools, done) && (f.event.body.Foreign? ==> f.event.response.None?)
  }

  function DoneAfterFrame(f: Frame, tools: set<ItemRef>, done: set<ItemRef>): set<ItemRef> {
    if f.Data? then DoneAfter(f.event.body, tools, done) else done
  }

  predicate ConformsAll(frames: seq<Frame>, tools: set<ItemRef>, done: set<ItemRef>)
    decreases |frames|
  {
    frames == [] || (ConformsFrame(frames[0], tools, done)
        && ConformsAll(frames[1..], tools, DoneAfterFrame(frames[0], tools, done)))
  }

  function DoneAfterAll(frames: seq<Frame>, tools: set<ItemRef>, done: set<ItemRef>): set<ItemRef>
    decreases |frames|
  {
    if frames == [] then done else DoneAfterAll(frames[1..], tools, DoneAfterFrame(frames[0], tools, done))
  }

  lemma DeliverInStep(c: C.State, d: D.State, e: E.State, tools: set<ItemRef>, done: set<ItemRef>, event: Event,
                      order: seq<Key>)
    returns (x: C.Outcome, y: D.Outcome)
    requires Sim(c, d, e, tools, done) && ConformsFrame(Data(event), tools, done)
    ensures x == C.Deliver(c, event, order) && y == D.Deliver(d, event) && x.error == y.error
    ensures x.error.None? ==>
            InStep(C.Emit(x.state, x.out), D.Emit(y.state, y.out), e, tools, DoneAfter(event.body, tools, done))
    ensures x.error.Some? ==> x.out == [] && y.out == []
  {
    x, y := C.Deliver(c, event, order), D.Deliver(d, event);
    if x.error.None? {
      if event.body.Foreign? {
        NothingInStep(c, d, e, tools, done);
        assert x.out == [] && y.out == [];
      } else {
        StartInStep(c, d, e, tools, done, event);
        var a, b := C.Start(c, event), D.Start(d, event);
        var f := Relay(e, a.out).state;
        if IsTerminal(event.body) {
          FinishInStep(a.state, b.state, f, tools, done, ResponseOf(event), order);
          Sequence(a, b, e, C.Finish(a.state, ResponseOf(event), order), D.Finish(b.state, ResponseOf(event)), tools,
              done + tools);
        } else {
          ContentInStep(a.state, b.state, f, tools, done, event.body);
          Sequence(a, b, e, C.Content(a.state, event.body), D.Content(b.state, event.body), tools,
              DoneAfter(event.body, tools, done));
        }
      }
    }
  }

  lemma {:induction false} RunInStep(c: C.State, d: D.State, e: E.State, tools: set<ItemRef>, done: set<ItemRef>,
                                     frames: seq<Frame>, order: seq<Key>)
    requires Sim(c, d, e, tools, done) && ConformsAll(frames, tools, done)
    ensures var x := C.Run(c, frames, order);
            var y := D.Run(d, frames);
            && x.error == y.error && Project(Relay(e, x.out).out) == Project(y.out)
            && (x.error.None? ==>
                  Sim(x.state, y.state, Relay(e, x.out).state, tools, DoneAfterAll(frames, tools, done)))
    decreases |frames|
  {
    if frames != [] {
      var x, y := C.Step(c, frames[0], order), D.Step(d, frames[0]);
      if frames[0].Data? {
        x, y := DeliverInStep(c, d, e, tools, done, frames[0].event, order);
      }
      if x.error.None? {
        var z := Relay(e, x.out);
        RunInStep(x.state, y.state, z.state, tools, DoneAfterFrame(frames[0], tools, done), frames[1..], order);
        var x2, y2 := C.Run(x.state, frames[1..], order), D.Run(y.state, frames[1..]);
        RelayAppend(e, x.out, x2.out);
        ProjectAppend(z.out, Relay(z.state, x2.out).out);
        ProjectAppend(y.out, y2.out);
      }
    }
  }

  // ---- Tools announced without a name ----

  /** A tool that Claude's client has heard of, and the direct client perhaps not. */
  datatype Awaited = Nobody | Awaited(ref: ItemRef, id: string)

  predicate Nameless(f: Frame) {
    f.Data? && f.event.body.ItemAdded? && f.event.body.item.kind.ToolItem? && Trim(f.event.body.item.name) == ""
  }

  /** Neither way says anything on this event. */
  predicate Quiet(b: Body) {
    match b
    case ItemAdded(_, item) => !item.kind.ToolItem?
    case PartAdded(_, _, p) => p.kind.OtherPart? || (p.text == "" && p.refusal == "")
    case TextDelta(_, _, text) => text == ""
    case RefusalDelta(_, _, text) => text == ""
    case ItemDone(_, item) => !item.kind.ToolItem?
    case ArgumentsDelta(_, _, _, _, _) => false
    case Failing(_) => false
    case _ => !IsTerminal(b)
  }

  /** The awaited tool is called, under the identifier it was announced with and still without a name. */
  predicate Resolves(b: Body, w: Awaited)
    requires w.Awaited?
  {
    && (b.ArgumentsDelta? || (b.ItemDone? && b.item.kind.ToolItem?)) && b.ref == w.ref
    && CalledBy(D.Entry(0, false, false, w.id, ""), b) == (w.id, "")
  }

  predicate Patient(f: Frame, w: Awaited)
    requires w.Awaited?
  {
    f.NoData? || (f.Data? && (Quiet(f.event.body) || Resolves(f.event.body, w)))
  }

  function AwaitedAfter(f: Frame, w: Awaited): Awaited {
    if Nameless(f) then Awaited(f.event.body.ref, CallIdOf(f.event.body.item))
    else if w.Awaited? && f.Data? && Resolves(f.event.body, w) then Nobody
    else w
  }

  /** As `ConformsAll`, but a tool may be announced without a name, if nothing else is said until it is
      called, and it is called as it was announced. */
  predicate ConformsInTime(frames: seq<Frame>, tools: set<ItemRef>, done: set<ItemRef>, w: Awaited)
    decreases |frames|
  {
    if frames == [] then w.Nobody?
    else
      && (w.Awaited? ==> Patient(frames[0], w))
      && (if Nameless(frames[0]) then frames[0].event.body.ref in tools - done
          else ConformsFrame(frames[0], tools, done))
      && ConformsInTime(frames[1..], tools, DoneAfterFrame(frames[0], tools, done), AwaitedAfter(frames[0], w))
  }

  lemma {:induction false} ConformingIsInTime(frames: seq<Frame>, tools: set<ItemRef>, done: set<ItemRef>)
    requires ConformsAll(frames, tools, done)
    ensures ConformsInTime(frames, tools, done, Nobody)
    decreases |frames|
  {
    if frames != [] {
      ConformingIsInTime(frames[1..], tools, DoneAfterFrame(frames[0], tools, done));
    }
  }

  /** The direct way still owes its client this call. */
  predicate Owes(d: D.State, w: Awaited) {
    w.Awaited? && w.ref in d.items && !d.items[w.ref].announced
  }

  /** The direct state once nothing is owed. */
  function Settled(d: D.State, w: Awaited): D.State {
    if Owes(d, w) then D.Announce(d, w.ref).state else d
  }

  function Debt(d: D.State, w: Awaited): seq<Heard> {
    if Owes(d, w) then [Heard(Call(d.items[w.ref].toolIndex, w.id, ""), None)] else []
  }

  /** In simulation but for what the direct way owes. */
  ghost predicate Lags(c: C.State, d: D.State, e: E.State, tools: set<ItemRef>, done: set<ItemRef>, w: Awaited) {
    && Sim(c, Settled(d, w), e, tools, done) && (w.Awaited? ==> c.started)
    && (Owes(d, w) ==> d.items[w.ref].callId == w.id && d.items[w.ref].name == "")
  }

  /** One frame: what is said, and owed before and after, adds up. */
  ghost predicate InTime(d: D.State, e: E.State, tools: set<ItemRef>, done: set<ItemRef>, w: Awaited, v: Awaited,
                         x: C.Outcome, y: D.Outcome) {
    && x.error == y.error
    && (x.error.Some? ==> w.Nobody? && x.out == [] && y.out == [])
    && (x.error.None? ==>
          && Lags(x.state, y.state, Relay(e, x.out).state, tools, done, v)
          && Debt(d, w) + Project(Relay(e, x.out).out) == Project(y.out) + Debt(y.state, v))
  }

  /** On a quiet event the direct way does nothing that is compared. */
  lemma {:induction false} QuietDirect(d: D.State, event: Event) returns (y: D.Outcome)
    requires d.started && Quiet(event.body)
    ensures y == D.Deliver(d, event) && y.error.None? && y.state == d && Project(y.out) == []
  {
    var b := event.body;
    y := D.Deliver(d, event);
    if b.ReasoningDelta? {
      SpokenHeard(d, Reason(b.delta), b.delta);
    } else if b.ItemDone? {
      SpokenHeard(d, Reason(ReasoningText(b.item)), ReasoningText(b.item));
    }
    EmptyEnds(D.Content(d, b).out);
  }

  lemma QuietInTime(c: C.State, d: D.State, e: E.State, tools: set<ItemRef>, done: set<ItemRef>, w: Awaited,
                    event: Event, order: seq<Key>)
    returns (x: C.Outcome, y: D.Outcome)
    requires Lags(c, d, e, tools, done, w) && w.Awaited? && Quiet(event.body)
    requires ConformsFrame(Data(event), tools, done)
    ensures x == C.Deliver(c, event, order) && y == D.Deliver(d, event)
    ensures InTime(d, e, tools, DoneAfter(event.body, tools, done), w, w, x, y)
  {
    var y2;
    x, y2 := DeliverInStep(c, Settled(d, w), e, tools, done, event, order);
    y := QuietDirect(d, event);
    var y3 := QuietDirect(Settled(d, w), event);
    EmptyEnds(Debt(d, w));
  }

  lemma CalledByIndex(t: D.Entry, b: Body, w: Awaited)
    requires w.Awaited? && Resolves(b, w) && t.callId == w.id && t.name == ""
    ensures CalledBy(t, b) == (w.id, "")
  {
  }

  lemma DirectContent(d: D.State, b: Body) returns (y: D.Outcome)
    requires d.started && (b.ArgumentsDelta? || b.ItemDone?)
    ensures y == D.Deliver(d, Event(b, None, "")) && y == D.Outcome(D.Content(d, b).state, D.Content(d, b).out, None)
  {
    y := D.Deliver(d, Event(b, None, ""));
    EmptyEnds(D.Content(d, b).out);
  }

  lemma {:induction false} ResolvedDirect(d: D.State, event: Event, w: Awaited) returns (y: D.Outcome, y2: D.Outcome)
    requires d.started && Owes(d, w) && Resolves(event.body, w)
    requires d.items[w.ref].callId == w.id && d.items[w.ref].name == ""
    ensures y == D.Deliver(d, event) && y2 == D.Deliver(Settled(d, w), event) && y.error.None? && y2.error.None?
    ensures y.state == y2.state && Project(y.out) == Debt(d, w) + Project(y2.out)
  {
    var b := event.body;
    CalledByIndex(d.items[w.ref], b, w);
    var p, q := CalledLater(d, b);
    y, y2 := D.Deliver(d, event), D.Deliver(Settled(d, w), event);
    EmptyEnds(p.out);
    EmptyEnds(q.out);
  }

  lemma ResolvedInTime(c: C.State, d: D.State, e: E.State, tools: set<ItemRef>, done: set<ItemRef>, w: Awaited,
                       event: Event, order: seq<Key>)
    returns (x: C.Outcome, y: D.Outcome)
    requires Lags(c, d, e, tools, done, w) && w.Awaited? && Resolves(event.body, w)
    requires ConformsFrame(Data(event), tools, done)
    ensures x == C.Deliver(c, event, order) && y == D.Deliver(d, event)
    ensures InTime(d, e, tools, DoneAfter(event.body, tools, done), w, Nobody, x, y)
  {
    var y2;
    x, y2 := DeliverInStep(c, Settled(d, w), e, tools, done, event, order);
    y := D.Deliver(d, event);
    if Owes(d, w) {
      var y3;
      y, y3 := ResolvedDirect(d, event, w);
    }
    EmptyEnds(Project(y.out));
    EmptyEnds(Project(y2.out));
  }

  /** A new tool without a name: heard of through Claude, owed by the direct way. */
  lemma {:induction false} NewNameless(c: C.State, d: D.State, e: E.State, tools: set<ItemRef>, done: set<ItemRef>,
                                       ref: ItemRef, item: Item)
    returns (x: C.Emit, y: D.Emit)
    requires Sim(c, d, e, tools, done) && c.started && item.kind.ToolItem? && ref in tools
    requires ItemKey(ref) !in c.blocks && Trim(item.name) == ""
    ensures x == C.AddItem(c, ref, item) && y == D.AddItem(d, ref, item) && y.out == []
    ensures ref in y.state.items && y.state.items[ref] == D.Entry(d.nextTool, false, false, CallIdOf(item), "")
    ensures y.state.started && Sim(x.state, D.Announce(y.state, ref).state, Relay(e, x.out).state, tools, done)
    ensures Project(Relay(e, x.out).out) == [Heard(Call(d.nextTool, CallIdOf(item), ""), None)]
  {
    FirstOfTrimmed(item.callId, item.id, "");
    FirstOfNothing(CallIdOf(item));
    FirstOfNothing(item.name);
    var y2;
    x, y2 := AnnounceInStep(c, d, e, tools, done, ref, CallIdOf(item), "");
    var y3 := NewEntry(d, ref, CallIdOf(item), "");
    y := D.Emit(D.Named(d, ref, CallIdOf(item), ""), []);
  }

  lemma {:induction false} NamelessContent(c: C.State, d: D.State, e: E.State, tools: set<ItemRef>,
                                           done: set<ItemRef>, ref: ItemRef, item: Item)
    returns (x: C.Emit, y: D.Emit)
    requires Sim(c, d, e, tools, done) && c.started && item.kind.ToolItem? && ref in tools && ref !in done
    requires Trim(item.name) == ""
    ensures x == C.AddItem(c, ref, item) && y == D.AddItem(d, ref, item)
    ensures var w := Awaited(ref, CallIdOf(item));
            && Lags(x.state, y.state, Relay(e, x.out).state, tools, done, w)
            && Project(Relay(e, x.out).out) == Project(y.out) + Debt(y.state, w)
  {
    if ItemKey(ref) in c.blocks {
      KnownTool(c, d, e, tools, done, ref);
      x, y := AddKnownTool(c, d, e, tools, done, ref, item);
      KnownTool(x.state, y.state, Relay(e, x.out).state, tools, done, ref);
      EmptyEnds(Project(y.out));
    } else {
      x, y := NewNameless(c, d, e, tools, done, ref, item);
    }
  }

  lemma NamelessDelivered(c: C.State, d: D.State, event: Event, order: seq<Key>)
    returns (a: C.Emit, b: D.Emit, x: C.Outcome, y: D.Outcome)
    requires Nameless(Data(event))
    ensures a == C.Start(c, event) && b == D.Start(d, event)
    ensures x == C.Deliver(c, event, order) && y == D.Deliver(d, event)
    ensures var x2, y2 := C.AddItem(a.state, event.body.ref, event.body.item), D.AddItem(b.state, event.body.ref,
                event.body.item);
            x == C.Outcome(x2.state, a.out + x2.out, None) && y == D.Outcome(y2.state, b.out + y2.out, None)
  {
    a, b := C.Start(c, event), D.Start(d, event);
    x, y := C.Deliver(c, event, order), D.Deliver(d, event);
  }

  lemma NamelessInTime(c: C.State, d: D.State, e: E.State, tools: set<ItemRef>, done: set<ItemRef>, event: Event,
                       order: seq<Key>)
    returns (x: C.Outcome, y: D.Outcome)
    requires Sim(c, d, e, tools, done) && Nameless(Data(event)) && event.body.ref in tools - done
    ensures x == C.Deliver(c, event, order) && y == D.Deliver(d, event)
    ensures InTime(d, e, tools, done, Nobody, AwaitedAfter(Data(event), Nobody), x, y)
  {
    StartInStep(c, d, e, tools, done, event);
    var a, b;
    a, b, x, y := NamelessDelivered(c, d, event, order);
    var f, w := Relay(e, a.out), AwaitedAfter(Data(event), Nobody);
    var x2, y2 := NamelessContent(a.state, b.state, f.state, tools, done, event.body.ref, event.body.item);
    NamelessAddsUp(e, a.out, x2.out, b.out, y2.out, Debt(y2.state, w));
  }

  lemma {:induction false} NamelessAddsUp(e: E.State, a: seq<ClaudeEvent>, x: seq<ClaudeEvent>, b: seq<Chunk>,
                                          y: seq<Chunk>, debt: seq<Heard>)
    requires Project(Relay(e, a).out) == Project(b)
    requires Project(Relay(Relay(e, a).state, x).out) == Project(y) + debt
    ensures [] + Project(Relay(e, a + x).out) == Project(b + y) + debt
    ensures Relay(e, a + x).state == Relay(Relay(e, a).state, x).state
  {
    RelayAppend(e, a, x);
    ProjectAppend(Relay(e, a).out, Relay(Relay(e, a).state, x).out);
    ProjectAppend(b, y);
    Regroup(Project(b), Project(y), debt);
    EmptyEnds(Project(Relay(e, a + x).out));
  }

  lemma NobodyInTime(c: C.State, d: D.State, e: E.State, tools: set<ItemRef>, done: set<ItemRef>, f: Frame,
                     order: seq<Key>)
    returns (x: C.Outcome, y: D.Outcome)
    requires Sim(c, d, e, tools, done) && ConformsFrame(f, tools, done)
    ensures x == C.Step(c, f, order) && y == D.Step(d, f)
    ensures InTime(d, e, tools, DoneAfterFrame(f, tools, done), Nobody, Nobody, x, y)
  {
    if f.Data? {
      x, y := DeliverInStep(c, d, e, tools, done, f.event, order);
    } else {
      x, y := C.Step(c, f, order), D.Step(d, f);
    }
    EmptyEnds(Project(y.out));
    EmptyEnds(Project(Relay(e, x.out).out));
  }

  lemma AwaitedInTime(c: C.State, d: D.State, e: E.State, tools: set<ItemRef>, done: set<ItemRef>, w: Awaited,
                      f: Frame, order: seq<Key>)
    returns (x: C.Outcome, y: D.Outcome)
    requires Lags(c, d, e, tools, done, w) && w.Awaited? && Patient(f, w) && ConformsFrame(f, tools, done)
    ensures x == C.Step(c, f, order) && y == D.Step(d, f)
    ensures InTime(d, e, tools, DoneAfterFrame(f, tools, done), w, AwaitedAfter(f, w), x, y)
  {
    if f.NoData? {
      x, y := C.Step(c, f, order), D.Step(d, f);
      EmptyEnds(Debt(d, w));
      return;
    }
    if Quiet(f.event.body) {
      x, y := QuietInTime(c, d, e, tools, done, w, f.event, order);
      return;
    }
    x, y := ResolvedInTime(c, d, e, tools, done, w, f.event, order);
  }

  lemma {:induction false} StepInTime(c: C.State, d: D.State, e: E.State, tools: set<ItemRef>, done: set<ItemRef>,
                                      w: Awaited, frames: seq<Frame>, order: seq<Key>)
    returns (x: C.Outcome, y: D.Outcome)
    requires Lags(c, d, e, tools, done, w) && frames != [] && ConformsInTime(frames, tools, done, w)
    ensures x == C.Step(c, frames[0], order) && y == D.Step(d, frames[0])
    ensures InTime(d, e, tools, DoneAfterFrame(frames[0], tools, done), w, AwaitedAfter(frames[0], w), x, y)
  {
    if w.Awaited? {
      x, y := AwaitedInTime(c, d, e, tools, done, w, frames[0], order);
      return;
    }
    if Nameless(frames[0]) {
      x, y := NamelessInTime(c, d, e, tools, done, frames[0].event, order);
      return;
    }
    x, y := NobodyInTime(c, d, e, tools, done, frames[0], order);
  }

  /** What is owed at first is paid in the end. */
  lemma {:induction false} RunInTime(c: C.State, d: D.State, e: E.State, tools: set<ItemRef>, done: set<ItemRef>,
                                     w: Awaited, frames: seq<Frame>, order: seq<Key>)
    requires Lags(c, d, e, tools, done, w) && ConformsInTime(frames, tools, done, w)
    ensures var x := C.Run(c, frames, order);
            var y := D.Run(d, frames);
            x.error == y.error && Debt(d, w) + Project(Relay(e, x.out).out) == Project(y.out)
    decreases |frames|
  {
    if frames != [] {
      var x, y := StepInTime(c, d, e, tools, done, w, frames, order);
      if x.error.None? {
        var v, z := AwaitedAfter(frames[0], w), Relay(e, x.out);
        RunInTime(x.state, y.state, z.state, tools, DoneAfterFrame(frames[0], tools, done), v, frames[1..], order);
        var x2, y2 := C.Run(x.state, frames[1..], order), D.Run(y.state, frames[1..]);
        var z2 := Relay(z.state, x2.out);
        RelayAppend(e, x.out, x2.out);
        ProjectAppend(z.out, z2.out);
        ProjectAppend(y.out, y2.out);
        Regroup(Debt(d, w), Project(z.out), Project(z2.out));
        Regroup(Project(y.out), Debt(y.state, v), Project(z2.out));
      }
    }
  }

  predicate Calm(events: seq<ClaudeEvent>) {
    forall v :: v in events ==> !v.StreamError?
  }

  lemma {:induction false} CloseAllCalm(c: C.State, order: seq<Key>)
    ensures C.OfBlocks(C.CloseAll(c, order).out)
    decreases |order|
  {
    if order != [] {
      CloseAllCalm(C.Close(c, order[0]).state, order[1..]);
    }
  }

  lemma StepCalm(c: C.State, f: Frame, order: seq<Key>)
    ensures Calm(C.Step(c, f, order).out)
  {
    if f.Data? {
      var a := if C.Starts(f.event) then C.Start(c, f.event) else C.Emit(c, []);
      CloseAllCalm(a.state, order);
    }
  }

  lemma {:induction false} RunCalm(c: C.State, frames: seq<Frame>, order: seq<Key>)
    ensures Calm(C.Run(c, frames, order).out)
    decreases |frames|
  {
    if frames != [] {
      StepCalm(c, frames[0], order);
      RunCalm(C.Step(c, frames[0], order).state, frames[1..], order);
    }
  }

  lemma {:induction false} RelayIsRun(e: E.State, events: seq<ClaudeEvent>)
    requires Calm(events)
    ensures E.Run(e, E.Arrivals(events)) == E.Outcome(Relay(e, events).state, Relay(e, events).out, None)
    decreases |events|
  {
    if events != [] {
      assert events[0] in events;
      RelayIsRun(E.Deliver(e, events[0], true).state, events[1..]);
      assert E.Arrivals(events)[1..] == E.Arrivals(events[1..]);
    }
  }

  /** The triangle commutes: for every conforming upstream event sequence, however its items are
      interleaved and in whatever order the blocks are closed, both ways stop at the same frame with
      the same error, or neither does; and chunk by chunk they say the same role, text, refusal, tool
      calls with their indices and arguments, and finish reason. */
  lemma {:induction false} TriangleCommutes(model: string, model2: string, frames: seq<Frame>, order: seq<Key>,
                                            tools: set<ItemRef>)
    requires ConformsInTime(frames, tools, {}, Nobody)
    ensures var toClaude := C.Run(C.Init(model), frames, order);
            var direct := D.Run(D.Init(model), frames);
            var onward := E.Run(E.Init(model2), E.Arrivals(toClaude.out));
            && toClaude.error == direct.error && onward.error.None?
            && Project(onward.out) == Project(direct.out)
  {
    RunInTime(C.Init(model), D.Init(model), E.Init(model2), tools, {}, Nobody, frames, order);
    var toClaude := C.Run(C.Init(model), frames, order);
    EmptyEnds(Project(Relay(E.Init(model2), toClaude.out).out));
    RunCalm(C.Init(model), frames, order);
    RelayIsRun(E.Init(model2), toClaude.out);
  }

  // ---- What a client puts together ----

  /** The same message but for reasoning and usage. */
  predicate Alike(a: ChatDraft, b: ChatDraft) {
    a == b.(reasoning := a.reasoning, usage := a.usage)
  }

  function HearHeard(a: ChatDraft, heard: seq<Heard>): ChatDraft
    decreases |heard|
  {
    if heard == [] then a
    else
      var b := Hear(a, heard[0].delta);
      HearHeard(if heard[0].finish.Some? then b.(finish := heard[0].finish) else b, heard[1..])
  }

  lemma {:induction false} HearHeardAlike(a: ChatDraft, b: ChatDraft, heard: seq<Heard>)
    requires Alike(a, b) && (forall h :: h in heard ==> !h.delta.Reason?)
    ensures Alike(HearHeard(a, heard), HearHeard(b, heard))
    decreases |heard|
  {
    if heard != [] {
      assert heard[0] in heard;
      var x, y := Hear(a, heard[0].delta), Hear(b, heard[0].delta);
      HearHeardAlike(if heard[0].finish.Some? then x.(finish := heard[0].finish) else x,
                     if heard[0].finish.Some? then y.(finish := heard[0].finish) else y, heard[1..]);
    }
  }

  lemma {:induction false} ProjectNoReason(out: seq<Chunk>)
    ensures forall h :: h in Project(out) ==> !h.delta.Reason?
  {
    if out != [] {
      ProjectNoReason(out[1..]);
    }
  }

  /** A chunk that carries reasoning never carries the finish reason. */
  predicate ReasonApart(out: seq<Chunk>) {
    forall c :: c in out ==> (c.delta.Reason? ==> c.finish.None?)
  }

  lemma {:induction false} HearingProjected(a: ChatDraft, out: seq<Chunk>)
    requires ReasonApart(out)
    ensures Alike(HearAll(a, out), HearHeard(a, Project(out)))
    decreases |out|
  {
    if out != [] {
      var c := out[0];
      assert c in out;
      var b := HearChunk(a, c);
      HearingProjected(b, out[1..]);
      ProjectNoReason(out[1..]);
      if c.delta.Reason? {
        assert Project(out) == Project(out[1..]);
        HearHeardAlike(b, a, Project(out[1..]));
      } else {
        assert Project(out)[1..] == Project(out[1..]);
        var h := Hear(a, c.delta);
        HearHeardAlike(b, if c.finish.Some? then h.(finish := c.finish) else h, Project(out[1..]));
      }
    }
  }

  lemma ToolApart(d: D.State, ref: ItemRef, id: string, name: string, text: string)
    ensures var x := D.Announce(D.Named(d, ref, id, name), ref);
            ReasonApart(x.out) && ReasonApart(D.Arguments(x.state, ref, text).out)
  {
  }

  lemma ItemApart(d: D.State, ref: ItemRef, item: Item)
    ensures ReasonApart(D.AddItem(d, ref, item).out) && ReasonApart(D.CompleteItem(d, ref, item).out)
  {
    var e := D.EntryOf(d, ref);
    ToolApart(d, ref, FirstOf(CallIdOf(item), e.callId), FirstOf(item.name, e.name), "");
    ToolApart(d, ref, FirstOf(e.callId, CallIdOf(item)), FirstOf(e.name, item.name), RawArguments(item));
  }

  lemma ContentApart(d: D.State, b: Body)
    ensures ReasonApart(D.Content(d, b).out)
  {
    if b.ItemAdded? || b.ItemDone? {
      ItemApart(d, b.ref, b.item);
    } else if b.ArgumentsDelta? {
      var e := D.EntryOf(d, b.ref);
      ToolApart(d, b.ref, FirstOf3(e.callId, b.callId, b.itemId), FirstOf(e.name, b.name), b.delta);
    }
  }

  lemma StepApart(d: D.State, f: Frame)
    ensures ReasonApart(D.Step(d, f).out)
  {
    if f.Data? {
      var a := if IsResponseEvent(f.event.body) then D.Start(d, f.event) else D.Emit(d, []);
      assert ReasonApart(a.out);
      ContentApart(a.state, f.event.body);
      assert ReasonApart(D.Finish(a.state, ResponseOf(f.event)).out);
    }
  }

  lemma {:induction false} DirectApart(d: D.State, frames: seq<Frame>)
    ensures ReasonApart(D.Run(d, frames).out)
    decreases |frames|
  {
    if frames != [] {
      var first := StepOut(d, frames[0]);
      DirectApart(first.state, frames[1..]);
    }
  }

  lemma StepOut(d: D.State, f: Frame) returns (o: D.Outcome)
    ensures o == D.Step(d, f) && ReasonApart(o.out)
  {
    StepApart(d, f);
    o := D.Step(d, f);
  }

  lemma EventApart(e: E.State, v: ClaudeEvent) returns (x: E.Emit)
    ensures x == E.Deliver(e, v, true) && ReasonApart(x.out)
  {
    x := E.Deliver(e, v, true);
    assert ReasonApart(E.Start(e).out);
  }

  lemma {:induction false} RelayApart(e: E.State, events: seq<ClaudeEvent>)
    ensures ReasonApart(Relay(e, events).out)
    decreases |events|
  {
    if events != [] {
      var x := EventApart(e, events[0]);
      RelayApart(x.state, events[1..]);
    }
  }

  /** What is said alike is put together alike. */
  lemma {:induction false} AlikeMessages(model: string, model2: string, frames: seq<Frame>, order: seq<Key>)
    requires var toClaude := C.Run(C.Init(model), frames, order);
             Project(E.Run(E.Init(model2), E.Arrivals(toClaude.out)).out) == Project(D.Run(D.Init(model), frames).out)
    ensures var toClaude := C.Run(C.Init(model), frames, order);
            var onward := E.Run(E.Init(model2), E.Arrivals(toClaude.out));
            Alike(HearAll(NO_CHAT, onward.out), HearAll(NO_CHAT, D.Run(D.Init(model), frames).out))
  {
    var toClaude, direct := C.Run(C.Init(model), frames, order), D.Run(D.Init(model), frames);
    RunCalm(C.Init(model), frames, order);
    RelayIsRun(E.Init(model2), toClaude.out);
    RelayApart(E.Init(model2), toClaude.out);
    DirectApart(D.Init(model), frames);
    HearingProjected(NO_CHAT, Relay(E.Init(model2), toClaude.out).out);
    HearingProjected(NO_CHAT, direct.out);
  }

  /** The messages two clients put together are the same in role, content, refusal, tool calls (order,
      identifiers, names and arguments) and finish reason. */
  lemma {:induction false} TriangleAssembles(model: string, model2: string, frames: seq<Frame>, order: seq<Key>,
                                             tools: set<ItemRef>)
    requires ConformsInTime(frames, tools, {}, Nobody)
    ensures var toClaude := C.Run(C.Init(model), frames, order);
            var direct := D.Run(D.Init(model), frames);
            var onward := E.Run(E.Init(model2), E.Arrivals(toClaude.out));
            Alike(HearAll(NO_CHAT, onward.out), HearAll(NO_CHAT, direct.out))
  {
    TriangleCommutes(model, model2, frames, order, tools);
    AlikeMessages(model, model2, frames, order);
  }

  // ---- Where the two ways part ----

  lemma {:induction false} TextTold(c: C.State, d: D.State, e: E.State, tools: set<ItemRef>, done: set<ItemRef>,
                                    key: Key, text: string)
    returns (x: C.Emit, z: E.Emit)
    requires Sim(c, d, e, tools, done) && c.started && key.ContentKey?
    ensures x == C.TextArrives(c, key, text) && z == Relay(e, x.out)
    ensures Project(z.out) == if text == "" then [] else [Heard(Say(text), None)]
  {
    NotToolKey(c, d, e, tools, done, key);
    TextMild(c, key, text);
    x := C.TextArrives(c, key, text);
    RelayPlain(e, x.out, x.state.nextBlock);
    z := Relay(e, x.out);
  }

  lemma {:induction false} RefusalTold(d: D.State, text: string) returns (y: D.Emit)
    ensures y == D.Spoken(d, Refuse(text), text)
    ensures Project(y.out) == if text == "" then [] else [Heard(Refuse(text), None)]
  {
    SpokenHeard(d, Refuse(text), text);
    y := D.Spoken(d, Refuse(text), text);
  }

  lemma RefusalContents(c: C.State, d: D.State, ref: ItemRef, part: nat, text: string)
    returns (x: C.Emit, y: D.Emit)
    ensures x == C.Content(c, RefusalDelta(ref, part, text)) && x == C.TextArrives(c, ContentKey(ref, part), text)
    ensures y == D.Content(d, RefusalDelta(ref, part, text)) && y == D.Spoken(d, Refuse(text), text)
  {
    x := C.Content(c, RefusalDelta(ref, part, text));
    y := D.Content(d, RefusalDelta(ref, part, text));
  }

  /** A refusal is a refusal directly and plain text through Claude, unless it is empty. */
  lemma {:induction false} RefusalsPart(c: C.State, d: D.State, e: E.State, tools: set<ItemRef>, done: set<ItemRef>,
                                        ref: ItemRef, part: nat, text: string)
    returns (x: C.Emit, y: D.Emit)
    requires Sim(c, d, e, tools, done) && c.started
    ensures x == C.Content(c, RefusalDelta(ref, part, text)) && y == D.Content(d, RefusalDelta(ref, part, text))
    ensures Project(Relay(e, x.out).out) == Project(y.out) <==> text == ""
  {
    x, y := RefusalContents(c, d, ref, part, text);
    var x2, z := TextTold(c, d, e, tools, done, ContentKey(ref, part), text);
    var y2 := RefusalTold(d, text);
    if text != "" {
      assert Project(z.out)[0].delta != Project(y.out)[0].delta;
    }
  }

  /** A new tool without a name is announced at once through Claude, and not yet directly. */
  lemma {:induction false} NamelessToolsPart(c: C.State, d: D.State, e: E.State, tools: set<ItemRef>,
                                             done: set<ItemRef>, ref: ItemRef, item: Item)
    requires Sim(c, d, e, tools, done) && c.started && item.kind.ToolItem? && ref in tools && ref !in d.items
    ensures Project(Relay(e, C.AddItem(c, ref, item).out).out) == Project(D.AddItem(d, ref, item).out) <==>
                  Trim(item.name) != ""
  {
    FirstOfNothing(item.name);
    FirstOfNothing(CallIdOf(item));
    FirstOfTrimmed(item.callId, item.id, "");
    TrimShape(item.name);
    var x := NewBlock(c, ItemKey(ref), CallIdOf(item), Trim(item.name));
    var y := NewEntry(d, ref, Trim(CallIdOf(item)), Trim(Trim(item.name)));
    var z := RelayCall(e, c.nextBlock, CallIdOf(item), Trim(item.name));
  }
}
