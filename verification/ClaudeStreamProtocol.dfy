/** What a client of the translated Claude stream may rely on, for every upstream. */
module ClaudeStreamProtocol {
  import opened Text
  import opened Responses
  import opened Claude
  import opened ResponsesToClaude
  import opened StreamErrors

  /** A client that reads the stream and accepts or refuses each event. */
  datatype Monitor = Monitor(started: bool, next: nat, open: set<nat>, finishing: bool, stopped: bool)

  const SILENT := Monitor(false, 0, {}, false, false)

  /** message_start is first and unique; a block start takes the next index or reopens a closed one;
      a stop closes an open block; message_delta and message_stop come once, in this order, with no
      block open. A strict client also wants each delta inside its open block and nothing after
      message_stop. */
  predicate Accepts(m: Monitor, e: ClaudeEvent, strict: bool) {
    match e
    case MessageStart(_, _, _) => !m.started
    case BlockStart(i, _) => m.started && i <= m.next && i !in m.open && (strict ==> !m.stopped)
    case BlockChunk(i, _) => m.started && i < m.next && (strict ==> i in m.open && !m.stopped)
    case BlockStop(i) => m.started && i in m.open && (strict ==> !m.stopped)
    case MessageDelta(_, _) => m.started && !m.finishing && m.open == {}
    case MessageStop => m.finishing && !m.stopped && m.open == {}
    case _ => false
  }

  function Advance(m: Monitor, e: ClaudeEvent): Monitor {
    match e
    case MessageStart(_, _, _) => m.(started := true)
    case BlockStart(i, _) => m.(next := if i == m.next then i + 1 else m.next, open := m.open + {i})
    case BlockStop(i) => m.(open := m.open - {i})
    case MessageDelta(_, _) => m.(finishing := true)
    case MessageStop => m.(stopped := true)
    case _ => m
  }

  function Watch(m: Monitor, out: seq<ClaudeEvent>, strict: bool): Option<Monitor>
    decreases |out|
  {
    if out == [] then Some(m)
    else if !Accepts(m, out[0], strict) then None
    else Watch(Advance(m, out[0]), out[1..], strict)
  }

  lemma {:induction false} WatchAppend(m: Monitor, a: seq<ClaudeEvent>, b: seq<ClaudeEvent>, strict: bool)
    ensures Watch(m, a, strict).None? ==> Watch(m, a + b, strict).None?
    ensures Watch(m, a, strict).Some? ==> Watch(m, a + b, strict) == Watch(Watch(m, a, strict).value, b, strict)
    decreases |a|
  {
    if a == [] {
      EmptyEnds(b);
    } else {
      AppendHead(a, b);
      if Accepts(m, a[0], strict) {
        WatchAppend(Advance(m, a[0]), a[1..], b, strict);
      }
    }
  }

  // ---- The translator's state and the client's state agree ----

  ghost predicate Indexed(s: State) {
    && (forall k :: k in s.blocks ==> s.blocks[k].index < s.nextBlock)
    && (forall k, l :: k in s.blocks && l in s.blocks && s.blocks[k].index == s.blocks[l].index ==> k == l)
  }

  ghost predicate SameOpen(s: State, m: Monitor) {
    && (forall k :: k in s.blocks ==> (s.blocks[k].open <==> s.blocks[k].index in m.open))
    && (forall i :: i in m.open ==> exists k :: k in s.blocks && s.blocks[k].index == i)
  }

  ghost predicate Agrees(s: State, m: Monitor) {
    && m.started == s.started && m.next == s.nextBlock && m.finishing == m.stopped == s.stopped
        && (s.stopped ==> s.started)
    && Indexed(s) && SameOpen(s, m)
  }

  /** As `Agrees`, except that the block of `key` may have been created and not yet opened. */
  ghost predicate AgreesBut(s: State, m: Monitor, key: Key) {
    && key in s.blocks
    && m.started == s.started && m.finishing == m.stopped == s.stopped && (s.stopped ==> s.started)
    && Indexed(s) && SameOpen(s, m)
    && (m.next == s.nextBlock || (m.next + 1 == s.nextBlock && s.blocks[key].index == m.next && !s.blocks[key].open))
  }

  ghost predicate Sound(e: Emit, m: Monitor, strict: bool) {
    && Watch(m, e.out, strict).Some?
    && Agrees(e.state, Watch(m, e.out, strict).value)
  }

  lemma {:induction false} OneEvent(m: Monitor, e: ClaudeEvent, strict: bool)
    ensures Watch(m, [e], strict) == if Accepts(m, e, strict) then Some(Advance(m, e)) else None
  {
  }

  lemma EnsureIndexed(s: State, key: Key, kind: BlockKind, b: Block)
    requires Indexed(s) && b.index == Ensure(s, key, kind).blocks[key].index
    ensures Indexed(Update(Ensure(s, key, kind), key, b))
  {
    assert Indexed(Ensure(s, key, kind));
  }

  lemma EnsureAgrees(s: State, m: Monitor, key: Key, kind: BlockKind, b: Block)
    requires Agrees(s, m)
    requires b.index == Ensure(s, key, kind).blocks[key].index && b.open == Ensure(s, key, kind).blocks[key].open
    ensures AgreesBut(Update(Ensure(s, key, kind), key, b), m, key)
  {
    EnsureIndexed(s, key, kind, b);
    var u := Update(Ensure(s, key, kind), key, b);
    forall i | i in m.open ensures exists k :: k in u.blocks && u.blocks[k].index == i {
      var k :| k in s.blocks && s.blocks[k].index == i;
      assert u.blocks[k].index == i;
    }
  }

  lemma OpenedAgrees(s: State, m: Monitor, key: Key)
    requires AgreesBut(s, m, key) && s.started && !s.blocks[key].open
    ensures var b := s.blocks[key];
            Agrees(Update(s, key, b.(open := true)), m.(next := s.nextBlock, open := m.open + {b.index}))
  {
    var b := s.blocks[key];
    var t := Update(s, key, b.(open := true));
    forall i | i in m.open + {b.index} ensures exists k :: k in t.blocks && t.blocks[k].index == i {
      if i == b.index {
        assert t.blocks[key].index == i;
      } else {
        var k :| k in s.blocks && s.blocks[k].index == i;
        assert t.blocks[k].index == i;
      }
    }
  }

  lemma OpenSound(s: State, m: Monitor, key: Key, content: ContentBlock, strict: bool)
    requires AgreesBut(s, m, key) && s.started && (strict ==> !s.stopped)
    ensures Sound(Open(s, key, content), m, strict)
    ensures Open(s, key, content).state.blocks[key].open
  {
    var b := s.blocks[key];
    if !b.open {
      OneEvent(m, BlockStart(b.index, content), strict);
      OpenedAgrees(s, m, key);
    }
  }

  lemma UpdateAgrees(s: State, m: Monitor, key: Key, b: Block)
    requires Agrees(s, m) && key in s.blocks && b.index == s.blocks[key].index && b.open == s.blocks[key].open
    ensures Agrees(Update(s, key, b), m)
  {
    var t := Update(s, key, b);
    forall i | i in m.open ensures exists k :: k in t.blocks && t.blocks[k].index == i {
      var k :| k in s.blocks && s.blocks[k].index == i;
      assert t.blocks[k].index == i;
    }
  }

  lemma DeltaSound(s: State, m: Monitor, key: Key, d: BlockDelta, strict: bool)
    requires Agrees(s, m) && s.started && key in s.blocks
    requires strict ==> DeltaText(d) == "" || (s.blocks[key].open && !s.stopped)
    ensures Sound(Delta(s, key, d), m, strict)
  {
    if DeltaText(d) != "" {
      OneEvent(m, BlockChunk(s.blocks[key].index, d), strict);
      UpdateAgrees(s, m, key, Delta(s, key, d).state.blocks[key]);
    }
  }

  lemma CloseSound(s: State, m: Monitor, key: Key, strict: bool)
    requires Agrees(s, m) && s.started && (strict ==> !s.stopped)
    ensures Sound(Close(s, key), m, strict)
  {
    if key in s.blocks && s.blocks[key].open {
      var t := Close(s, key).state;
      var i := s.blocks[key].index;
      OneEvent(m, BlockStop(i), strict);
      var n := Advance(m, BlockStop(i));
      forall j | j in n.open ensures exists k :: k in t.blocks && t.blocks[k].index == j {
        var k :| k in s.blocks && s.blocks[k].index == j;
        assert t.blocks[k].index == j;
      }
    }
  }

  lemma {:induction false} Sequence(a: Emit, b: Emit, m: Monitor, strict: bool)
    requires Watch(m, a.out, strict).Some?
    requires Sound(b, Watch(m, a.out, strict).value, strict)
    ensures Sound(Emit(b.state, a.out + b.out), m, strict)
  {
    WatchAppend(m, a.out, b.out, strict);
  }

  // ---- Each event keeps them in agreement ----

  lemma StartSound(s: State, m: Monitor, e: Event, strict: bool)
    requires Agrees(s, m)
    ensures Sound(Start(s, e), m, strict) && Start(s, e).state.started
  {
    if !s.started {
      OneEvent(m, Start(s, e).out[0], strict);
      var t := Start(s, e).state;
      forall i | i in m.open ensures exists k :: k in t.blocks && t.blocks[k].index == i {
        var k :| k in s.blocks && s.blocks[k].index == i;
        assert t.blocks[k].index == i;
      }
    }
  }

  lemma AddItemSound(s: State, m: Monitor, ref: ItemRef, item: Item, strict: bool) returns (e: Emit)
    requires Agrees(s, m) && s.started && (strict ==> !s.stopped)
    ensures e == AddItem(s, ref, item) && Sound(e, m, strict)
  {
    var key := ItemKey(ref);
    match item.kind
    case ReasoningItem =>
      var b := Ensure(s, key, Thinking).blocks[key].(encrypted := Trim(item.encrypted));
      EnsureAgrees(s, m, key, Thinking, b);
      OpenSound(Update(Ensure(s, key, Thinking), key, b), m, key, ThinkingContent(b.encrypted), strict);
      e := Open(Update(Ensure(s, key, Thinking), key, b), key, ThinkingContent(b.encrypted));
    case ToolItem =>
      var b := Ensure(s, key, ToolUse).blocks[key].(functionId := CallIdOf(item), functionName := Trim(item.name));
      EnsureAgrees(s, m, key, ToolUse, b);
      OpenSound(Update(Ensure(s, key, ToolUse), key, b), m, key, ToolUseBlock(b.functionId, "", b.functionName),
          strict);
      e := Open(Update(Ensure(s, key, ToolUse), key, b), key, ToolUseBlock(b.functionId, "", b.functionName));
    case _ =>
      e := Emit(s, []);
  }

  /** Make sure of a block, open it, and add to it. */
  lemma ArrivalSound(s: State, m: Monitor, key: Key, kind: BlockKind, b: Block, content: ContentBlock, d: BlockDelta,
                     strict: bool)
    requires Agrees(s, m) && s.started && (strict ==> !s.stopped)
    requires b.index == Ensure(s, key, kind).blocks[key].index && b.open == Ensure(s, key, kind).blocks[key].open
    ensures var a := Open(Update(Ensure(s, key, kind), key, b), key, content);
            var c := Delta(a.state, key, d);
            Sound(Emit(c.state, a.out + c.out), m, strict)
  {
    EnsureAgrees(s, m, key, kind, b);
    var u := Update(Ensure(s, key, kind), key, b);
    OpenSound(u, m, key, content, strict);
    var a := Open(u, key, content);
    DeltaSound(a.state, Watch(m, a.out, strict).value, key, d, strict);
    Sequence(a, Delta(a.state, key, d), m, strict);
  }

  lemma UpdateSame(s: State, key: Key)
    requires key in s.blocks
    ensures Update(s, key, s.blocks[key]) == s
  {
    assert s.blocks[key := s.blocks[key]] == s.blocks;
  }

  lemma OpenLateSound(s: State, m: Monitor, key: Key, item: Item, strict: bool)
    requires Agrees(s, m) && s.started && (strict ==> !s.stopped)
    ensures Sound(OpenLate(s, key, item), m, strict)
    ensures key !in s.blocks && key in OpenLate(s, key, item).state.blocks ==>
                  OpenLate(s, key, item).state.blocks[key].open
  {
    if key !in s.blocks {
      match item.kind
      case ReasoningItem =>
        var t := Ensure(s, key, Thinking);
        EnsureAgrees(s, m, key, Thinking, t.blocks[key]);
        UpdateSame(t, key);
        OpenSound(t, m, key, ThinkingContent(t.blocks[key].encrypted), strict);
      case ToolItem =>
        var b := Ensure(s, key, ToolUse).blocks[key].(functionId := CallIdOf(item), functionName := Trim(item.name));
        EnsureAgrees(s, m, key, ToolUse, b);
        OpenSound(Update(Ensure(s, key, ToolUse), key, b), m, key, ToolUseBlock(b.functionId, "", b.functionName),
            strict);
      case _ =>
    }
  }

  lemma CompleteThinkingSound(s: State, m: Monitor, key: Key, item: Item, strict: bool)
    requires Agrees(s, m) && s.started && key in s.blocks
    requires strict ==> !s.stopped && (s.blocks[key].open || CompleteThinking(s, key, item).out == [])
    ensures Sound(CompleteThinking(s, key, item), m, strict)
  {
    var text := ReasoningText(item);
    var a := if s.blocks[key].sawDelta then Emit(s, []) else Delta(s, key, ThinkingChunk(text));
    if !s.blocks[key].sawDelta {
      DeltaSound(s, m, key, ThinkingChunk(text), strict);
    }
    var n := Watch(m, a.out, strict).value;
    var encrypted := FirstOf(item.encrypted, a.state.blocks[key].encrypted);
    var t := Update(a.state, key, a.state.blocks[key].(encrypted := encrypted));
    UpdateAgrees(a.state, n, key, t.blocks[key]);
    var b := if HasPrefix(encrypted, REDACTED_PREFIX) then Emit(t, []) else Delta(t, key, SignatureChunk(encrypted));
    if !HasPrefix(encrypted, REDACTED_PREFIX) {
      DeltaSound(t, n, key, SignatureChunk(encrypted), strict);
    }
    Sequence(a, b, m, strict);
  }

  lemma CompleteBlockSound(s: State, m: Monitor, key: Key, item: Item, strict: bool)
    requires Agrees(s, m) && s.started && key in s.blocks
    requires strict ==> !s.stopped && (s.blocks[key].open || CompleteBlock(s, key, item).out == [])
    ensures Sound(CompleteBlock(s, key, item), m, strict)
  {
    match s.blocks[key].kind
    case Thinking => CompleteThinkingSound(s, m, key, item, strict);
    case ToolUse =>
      if !s.blocks[key].sawDelta {
        DeltaSound(s, m, key, InputChunk(RawArguments(item)), strict);
      }
    case Prose =>
  }

  // ---- When does an event emit something? ----

  /** What decides how a done item completes its block. */
  datatype Track = Track(kind: BlockKind, open: bool, streamed: bool, encrypted: string)

  function TrackOf(b: Block): Track {
    Track(b.kind, b.open, b.sawDelta, b.encrypted)
  }

  /** The done item brings text or arguments that were not streamed, or a signature. */
  predicate Completes(t: Track, item: Item) {
    match t.kind
    case Thinking =>
      var signature := FirstOf(item.encrypted, t.encrypted);
      (!t.streamed && ReasoningText(item) != "") || (signature != "" && !HasPrefix(signature, REDACTED_PREFIX))
    case ToolUse => !t.streamed && RawArguments(item) != ""
    case Prose => false
  }

  function Completed(t: Track, item: Item): Track {
    t.(streamed := t.streamed || Completes(t, item),
       encrypted := if t.kind.Thinking? then FirstOf(item.encrypted, t.encrypted) else t.encrypted)
  }

  lemma DeltaTracked(s: State, key: Key, d: BlockDelta) returns (e: Emit)
    requires key in s.blocks
    ensures e == Delta(s, key, d) && key in e.state.blocks
    ensures e.out != [] <==> DeltaText(d) != ""
    ensures TrackOf(e.state.blocks[key])
            == TrackOf(s.blocks[key]).(streamed := s.blocks[key].sawDelta || DeltaText(d) != "")
  {
    e := Delta(s, key, d);
  }

  lemma CompletedThinking(s: State, key: Key, item: Item) returns (e: Emit)
    requires key in s.blocks && s.blocks[key].kind == Thinking
    ensures e == CompleteThinking(s, key, item) && key in e.state.blocks
    ensures e.out != [] <==> Completes(TrackOf(s.blocks[key]), item)
    ensures TrackOf(e.state.blocks[key]) == Completed(TrackOf(s.blocks[key]), item)
  {
    var x := DeltaTracked(s, key, ThinkingChunk(ReasoningText(item)));
    var a := if s.blocks[key].sawDelta then Emit(s, []) else x;
    var signature := FirstOf(item.encrypted, a.state.blocks[key].encrypted);
    var t := Update(a.state, key, a.state.blocks[key].(encrypted := signature));
    var y := DeltaTracked(t, key, SignatureChunk(signature));
    e := CompleteThinking(s, key, item);
  }

  /** Completing a block leaves it open or closed, and notes what was added. */
  lemma CompletedBlock(s: State, key: Key, item: Item) returns (b: Emit)
    requires key in s.blocks
    ensures b == CompleteBlock(s, key, item) && key in b.state.blocks
    ensures b.out != [] <==> Completes(TrackOf(s.blocks[key]), item)
    ensures TrackOf(b.state.blocks[key]) == Completed(TrackOf(s.blocks[key]), item)
  {
    match s.blocks[key].kind
    case Thinking => b := CompletedThinking(s, key, item);
    case ToolUse =>
      b := DeltaTracked(s, key, InputChunk(RawArguments(item)));
      b := CompleteBlock(s, key, item);
    case Prose => b := Emit(s, []);
  }

  /** Items of these kinds have a block of their own. */
  predicate HasBlock(item: Item) {
    item.kind.ReasoningItem? || item.kind.ToolItem?
  }

  predicate IsOpen(s: State, key: Key) {
    key in s.blocks && s.blocks[key].open
  }

  /** The events that open, extend or close a block. */
  predicate Speaks(s: State, b: Body) {
    match b
    case ItemAdded(ref, item) => HasBlock(item) && !IsOpen(s, ItemKey(ref))
    case PartAdded(ref, part, p) =>
      !p.kind.OtherPart? && (!IsOpen(s, ContentKey(ref, part)) || RawPartText(p) != "")
    case TextDelta(ref, part, text) => !IsOpen(s, ContentKey(ref, part)) || text != ""
    case RefusalDelta(ref, part, text) => !IsOpen(s, ContentKey(ref, part)) || text != ""
    case ReasoningDelta(ref, text) => !IsOpen(s, ItemKey(ref)) || text != ""
    case ArgumentsDelta(ref, _, _, _, text) => !IsOpen(s, ItemKey(ref)) || text != ""
    case PartDone(ref, part) => IsOpen(s, ContentKey(ref, part))
    case ItemDone(ref, item) =>
      if ItemKey(ref) !in s.blocks then HasBlock(item)
      else IsOpen(s, ItemKey(ref)) || Completes(TrackOf(s.blocks[ItemKey(ref)]), item)
    case _ => false
  }

  lemma LateSpeaks(s: State, key: Key, item: Item) returns (a: Emit)
    requires key !in s.blocks
    ensures a == OpenLate(s, key, item)
    ensures a.out != [] <==> HasBlock(item)
    ensures key in a.state.blocks <==> HasBlock(item)
  {
    a := OpenLate(s, key, item);
  }

  lemma KnownSpeaks(s: State, key: Key, item: Item) returns (b: Emit, c: Emit)
    requires key in s.blocks
    ensures b == CompleteBlock(s, key, item) && c == Close(b.state, key)
    ensures b.out + c.out != [] <==> IsOpen(s, key) || Completes(TrackOf(s.blocks[key]), item)
  {
    b := CompletedBlock(s, key, item);
    c := Close(b.state, key);
  }

  lemma DoneSpeaks(s: State, ref: ItemRef, item: Item) returns (e: Emit)
    ensures e == CompleteItem(s, ref, item)
    ensures e.out != [] <==> Speaks(s, ItemDone(ref, item))
  {
    var key := ItemKey(ref);
    if key in s.blocks {
      var b, c := KnownSpeaks(s, key, item);
      e := CompleteItem(s, ref, item);
      EmptyEnds(b.out + c.out);
      return;
    }
    var a := LateSpeaks(s, key, item);
    if HasBlock(item) {
      var b, c := KnownSpeaks(a.state, key, item);
    }
    e := CompleteItem(s, ref, item);
  }

  /** In every state: an event emits something exactly when it opens, extends or closes a block. */
  lemma SpeaksExactly(s: State, b: Body)
    ensures Content(s, b).out != [] <==> Speaks(s, b)
  {
    if b.ItemDone? {
      var e := DoneSpeaks(s, b.ref, b.item);
    }
  }

  /** An item is done while its block is closed, and something of it is still to be emitted. */
  predicate StrayDone(s: State, ref: ItemRef, item: Item) {
    var key := ItemKey(ref);
    key in s.blocks && !s.blocks[key].open && Completes(TrackOf(s.blocks[key]), item)
  }

  lemma CloseAfter(b: Emit, m: Monitor, key: Key, strict: bool)
    requires Sound(b, m, strict) && b.state.started && (strict ==> !b.state.stopped)
    ensures Sound(Emit(Close(b.state, key).state, b.out + Close(b.state, key).out), m, strict)
  {
    CloseSound(b.state, Watch(m, b.out, strict).value, key, strict);
    Sequence(b, Close(b.state, key), m, strict);
  }

  lemma CompleteItemSound(s: State, m: Monitor, ref: ItemRef, item: Item, strict: bool)
    returns (e: Emit)
    requires Agrees(s, m) && s.started
    requires strict ==> !s.stopped && !StrayDone(s, ref, item)
    ensures e == CompleteItem(s, ref, item) && Sound(e, m, strict)
  {
    var key := ItemKey(ref);
    var a := OpenLate(s, key, item);
    OpenLateSound(s, m, key, item, strict);
    e := a;
    if key in a.state.blocks {
      var n := Watch(m, a.out, strict).value;
      var b := CompleteBlock(a.state, key, item);
      CompleteBlockSound(a.state, n, key, item, strict);
      CloseAfter(b, n, key, strict);
      var c := Close(b.state, key);
      e := Emit(c.state, a.out + (b.out + c.out));
      Sequence(a, Emit(c.state, b.out + c.out), m, strict);
    }
  }

  lemma TextSound(s: State, m: Monitor, key: Key, text: string, strict: bool) returns (e: Emit)
    requires Agrees(s, m) && s.started && (strict ==> !s.stopped)
    ensures e == TextArrives(s, key, text) && Sound(e, m, strict)
  {
    var t := Ensure(s, key, Prose);
    UpdateSame(t, key);
    ArrivalSound(s, m, key, Prose, t.blocks[key], TextBlock(""), TextChunk(text), strict);
    e := TextArrives(s, key, text);
  }

  lemma ReasoningSound(s: State, m: Monitor, key: Key, text: string, strict: bool) returns (e: Emit)
    requires Agrees(s, m) && s.started && (strict ==> !s.stopped)
    ensures e == ReasoningArrives(s, key, text) && Sound(e, m, strict)
  {
    var t := Ensure(s, key, Thinking);
    UpdateSame(t, key);
    ArrivalSound(s, m, key, Thinking, t.blocks[key], ThinkingContent(t.blocks[key].encrypted), ThinkingChunk(text),
        strict);
    e := ReasoningArrives(s, key, text);
  }

  lemma ArgumentsSound(s: State, m: Monitor, key: Key, callId: string, itemId: string, name: string, text: string,
                       strict: bool)
    returns (e: Emit)
    requires Agrees(s, m) && s.started && (strict ==> !s.stopped)
    ensures e == ArgumentsArrive(s, key, callId, itemId, name, text) && Sound(e, m, strict)
  {
    var b := NameTool(Ensure(s, key, ToolUse).blocks[key], callId, itemId, name);
    ArrivalSound(s, m, key, ToolUse, b, ToolUseBlock(b.functionId, "", b.functionName), InputChunk(text), strict);
    e := ArgumentsArrive(s, key, callId, itemId, name, text);
  }

  lemma PartDoneSound(s: State, m: Monitor, key: Key, strict: bool) returns (e: Emit)
    requires Agrees(s, m) && s.started && (strict ==> !s.stopped)
    ensures e == Close(s, key) && Sound(e, m, strict)
  {
    CloseSound(s, m, key, strict);
    e := Close(s, key);
  }

  /** Events that announce or end something. */
  lemma EdgeSound(s: State, m: Monitor, b: Body, strict: bool) returns (e: Emit)
    requires Agrees(s, m) && s.started && (b.ItemAdded? || b.PartDone? || b.ItemDone?)
    requires strict ==> !s.stopped && (b.ItemDone? ==> !StrayDone(s, b.ref, b.item))
    ensures e == Content(s, b) && Sound(e, m, strict)
  {
    if b.ItemAdded? {
      e := AddItemSound(s, m, b.ref, b.item, strict);
      return;
    }
    if b.PartDone? {
      e := PartDoneSound(s, m, ContentKey(b.ref, b.part), strict);
      return;
    }
    e := CompleteItemSound(s, m, b.ref, b.item, strict);
  }

  /** Events that bring something. */
  lemma ArrivingSound(s: State, m: Monitor, b: Body, strict: bool) returns (e: Emit)
    requires Agrees(s, m) && s.started && (strict ==> !s.stopped)
    requires b.TextDelta? || b.RefusalDelta? || b.ReasoningDelta? || b.ArgumentsDelta?
    ensures e == Content(s, b) && Sound(e, m, strict)
  {
    if b.TextDelta? || b.RefusalDelta? {
      e := TextSound(s, m, ContentKey(b.ref, b.part), b.delta, strict);
      return;
    }
    if b.ReasoningDelta? {
      e := ReasoningSound(s, m, ItemKey(b.ref), b.delta, strict);
      return;
    }
    e := ArgumentsSound(s, m, ItemKey(b.ref), b.callId, b.itemId, b.name, b.delta, strict);
  }

  lemma ContentSound(s: State, m: Monitor, b: Body, strict: bool) returns (e: Emit)
    requires Agrees(s, m) && s.started
    requires strict ==> !s.stopped && (b.ItemDone? ==> !StrayDone(s, b.ref, b.item))
    ensures e == Content(s, b) && Sound(e, m, strict)
  {
    if b.ItemAdded? || b.PartDone? || b.ItemDone? {
      e := EdgeSound(s, m, b, strict);
      return;
    }
    if b.TextDelta? || b.RefusalDelta? || b.ReasoningDelta? || b.ArgumentsDelta? {
      e := ArrivingSound(s, m, b, strict);
      return;
    }
    if b.PartAdded? && !b.content.kind.OtherPart? {
      e := TextSound(s, m, ContentKey(b.ref, b.part), RawPartText(b.content), strict);
      return;
    }
    e := Emit(s, []);
  }

  // ---- Finishing, in whatever order the map is walked ----

  lemma {:induction false} CloseAllSound(s: State, m: Monitor, order: seq<Key>, strict: bool)
    requires Agrees(s, m) && s.started && !s.stopped
    ensures Sound(CloseAll(s, order), m, strict)
    decreases |order|
  {
    if order != [] {
      var first := Close(s, order[0]);
      CloseSound(s, m, order[0], strict);
      CloseAllSound(first.state, Watch(m, first.out, strict).value, order[1..], strict);
      Sequence(first, CloseAll(first.state, order[1..]), m, strict);
    }
  }

  lemma {:induction false} CloseAllShape(s: State, order: seq<Key>)
    ensures CloseAll(s, order).state == s.(blocks := CloseAll(s, order).state.blocks)
    ensures CloseAll(s, order).state.blocks.Keys == s.blocks.Keys
    ensures forall k :: k in s.blocks && CloseAll(s, order).state.blocks[k].open ==> s.blocks[k].open && k !in order
    decreases |order|
  {
    if order != [] {
      var first := Close(s, order[0]);
      CloseAllShape(first.state, order[1..]);
      assert first.state.blocks.Keys == s.blocks.Keys;
    }
  }

  lemma FinishSound(s: State, m: Monitor, r: Response, order: seq<Key>, strict: bool)
    requires Agrees(s, m) && s.started
    requires forall k :: k in s.blocks ==> k in order
    ensures Sound(Finish(s, r, order), m, strict)
    ensures Finish(s, r, order).state.stopped
  {
    if !s.stopped {
      CloseAllSound(s, m, order, strict);
      CloseAllShape(s, order);
      var closed := CloseAll(s, order);
      var n := Watch(m, closed.out, strict).value;
      assert n.open == {};
      var delta := MessageDelta(StopReasonOf(r.incomplete, HasToolUse(s)), Number(NumberValue(r.usage.outputTokens)));
      OneEvent(n, delta, strict);
      OneEvent(Advance(n, delta), MessageStop, strict);
      WatchAppend(n, [delta], [MessageStop], strict);
      assert [delta] + [MessageStop] == [delta, MessageStop];
      WatchAppend(m, closed.out, [delta, MessageStop], strict);
      assert SameOpen(Finish(s, r, order).state, n);
    }
  }

  /** The steps a strict client refuses: content after message_stop, or an item done while its
      block is closed, with some of it still to be emitted. */
  predicate Stray(s: State, f: Frame) {
    f.Data? && !IsTerminal(f.event.body) && StrayBody(s, f.event.body)
  }

  predicate StrayBody(s: State, b: Body) {
    if s.stopped then Speaks(s, b) else b.ItemDone? && StrayDone(s, b.ref, b.item)
  }

  /** The keys a frame can bring into the block map. */
  function KeysOf(f: Frame): set<Key> {
    if !f.Data? then {}
    else
      match f.event.body
      case ItemAdded(ref, _) => {ItemKey(ref)}
      case PartAdded(ref, part, _) => {ContentKey(ref, part)}
      case TextDelta(ref, part, _) => {ContentKey(ref, part)}
      case RefusalDelta(ref, part, _) => {ContentKey(ref, part)}
      case ReasoningDelta(ref, _) => {ItemKey(ref)}
      case ArgumentsDelta(ref, _, _, _, _) => {ItemKey(ref)}
      case ItemDone(ref, _) => {ItemKey(ref)}
      case _ => {}
  }

  ghost predicate Covers(order: seq<Key>, s: State) {
    forall k :: k in s.blocks ==> k in order
  }

  /** The map order names every key the frames mention. */
  ghost predicate Lists(order: seq<Key>, frames: seq<Frame>) {
    forall i, k :: 0 <= i < |frames| && k in KeysOf(frames[i]) ==> k in order
  }

  lemma KeysGrow(s: State, b: Body)
    ensures Content(s, b).state.blocks.Keys <= s.blocks.Keys + KeysOf(Data(Event(b, None, "")))
  {
  }

  /** With nothing emitted, strictness makes no difference. */
  lemma SilentSound(e: Emit, m: Monitor)
    requires Sound(e, m, false) && e.out == []
    ensures Sound(e, m, true)
  {
  }

  /** After the end of the message, content that is not stray emits nothing. */
  lemma CalmSound(s: State, m: Monitor, e: Event, strict: bool) returns (c: Emit)
    requires Agrees(s, m) && s.started && (strict ==> !Stray(s, Data(e)) && !IsTerminal(e.body))
    ensures c == Content(s, e.body) && Sound(c, m, strict)
  {
    c := ContentSound(s, m, e.body, strict && !s.stopped);
    if strict && s.stopped {
      SpeaksExactly(s, e.body);
      SilentSound(c, m);
    }
  }

  lemma StillCalm(s: State, a: State, e: Event)
    requires a.blocks == s.blocks && a.stopped == s.stopped && (s.started ==> a == s) && (s.stopped ==> s.started)
    requires !Stray(s, Data(e))
    ensures !Stray(a, Data(e))
  {
  }

  lemma SwitchSound(s: State, m: Monitor, e: Event, order: seq<Key>, strict: bool)
    returns (o: Outcome)
    requires Agrees(s, m) && !e.body.Failing? && !IsTerminal(e.body)
    requires strict ==> !Stray(s, Data(e))
    ensures o == Deliver(s, e, order) && Sound(Emit(o.state, o.out), m, strict)
  {
    var a, n := Begun(s, m, e, strict);
    var b, c;
    o, b, c := Delivered(s, e, order);
    if IsResponseEvent(e.body) {
      if strict {
        StillCalm(s, a.state, e);
      }
      var d := CalmSound(a.state, n, e, strict);
    }
    Sequence(a, c, m, strict);
  }

  lemma DeliverSound(s: State, m: Monitor, e: Event, order: seq<Key>, strict: bool)
    requires Agrees(s, m) && Covers(order, s)
    requires Deliver(s, e, order).error.None?
    requires strict ==> !Stray(s, Data(e))
    ensures var o := Deliver(s, e, order); Sound(Emit(o.state, o.out), m, strict)
  {
    if IsTerminal(e.body) {
      var a, n := Begun(s, m, e, strict);
      FinishSound(a.state, n, ResponseOf(e), order, strict);
      Sequence(a, Finish(a.state, ResponseOf(e), order), m, strict);
    } else {
      var o := SwitchSound(s, m, e, order, strict);
    }
  }

  /** After message_stop a strict client refuses any event of a block. */
  lemma {:induction false} LateRefused(m: Monitor, out: seq<ClaudeEvent>)
    requires m.stopped && OfBlocks(out) && out != []
    ensures Watch(m, out, true).None?
  {
    assert out[0] in out;
  }

  /** A chunk of a closed block is refused. */
  lemma {:induction false} ClosedRefused(s: State, m: Monitor, ref: ItemRef, item: Item)
    requires Agrees(s, m) && StrayDone(s, ref, item)
    ensures Watch(m, CompleteItem(s, ref, item).out, true).None?
  {
    var key := ItemKey(ref);
    var b := CompleteBlock(s, key, item);
    ChunkFirst(s, key, item);
    assert CompleteItem(s, ref, item).out[0] == b.out[0];
  }

  /** An event that is neither failing nor terminal emits the beginning, if due, and its content. */
  lemma Delivered(s: State, e: Event, order: seq<Key>) returns (o: Outcome, a: Emit, c: Emit)
    requires !e.body.Failing? && !IsTerminal(e.body)
    ensures o == Deliver(s, e, order) && a == (if Starts(e) then Start(s, e) else Emit(s, []))
             && c == Content(a.state, e.body)
    ensures o == Outcome(c.state, a.out + c.out, None)
  {
    o := Deliver(s, e, order);
    a := if Starts(e) then Start(s, e) else Emit(s, []);
    c := Content(a.state, e.body);
  }

  /** The beginning, if due, is sound and leaves the blocks alone. */
  lemma {:induction false} Begun(s: State, m: Monitor, e: Event, strict: bool) returns (a: Emit, n: Monitor)
    requires Agrees(s, m)
    ensures a == (if Starts(e) then Start(s, e) else Emit(s, []))
    ensures Watch(m, a.out, strict) == Some(n) && Agrees(a.state, n)
    ensures a.state.blocks == s.blocks && a.state.stopped == s.stopped && (s.started ==> a == Emit(s, []))
    ensures Starts(e) ==> a.state.started
  {
    StartSound(s, m, e, strict);
    a := if Starts(e) then Start(s, e) else Emit(s, []);
    n := Watch(m, a.out, strict).value;
  }

  lemma StrayKind(s: State, e: Event)
    requires Stray(s, Data(e))
    ensures !e.body.Failing? && !IsTerminal(e.body)
  {
  }

  lemma StrayCarries(s: State, t: State, ref: ItemRef, item: Item)
    requires StrayDone(s, ref, item) && t.blocks == s.blocks
    ensures StrayDone(t, ref, item)
  {
  }

  /** What a stray event adds is refused. */
  lemma {:induction false} StrayContent(s: State, m: Monitor, b: Body) returns (c: Emit)
    requires Agrees(s, m) && StrayBody(s, b)
    ensures c == Content(s, b) && Watch(m, c.out, true).None?
  {
    c := Content(s, b);
    if s.stopped {
      SpeaksExactly(s, b);
      LateRefused(m, c.out);
    } else {
      ClosedRefused(s, m, b.ref, b.item);
    }
  }

  lemma {:induction false} StrayRefused(s: State, m: Monitor, e: Event, order: seq<Key>)
    requires Agrees(s, m) && Stray(s, Data(e))
    ensures Deliver(s, e, order).error.None?
    ensures Watch(m, Deliver(s, e, order).out, true).None?
  {
    StrayKind(s, e);
    var o, a, c := Delivered(s, e, order);
    var b, n := Begun(s, m, e, true);
    var d := StrayContent(a.state, n, e.body);
    WatchAppend(m, a.out, c.out, true);
  }

  lemma ChunkFirst(s: State, key: Key, item: Item)
    requires key in s.blocks && CompleteBlock(s, key, item).out != []
    ensures CompleteBlock(s, key, item).out[0].BlockChunk?
    ensures CompleteBlock(s, key, item).out[0].index == s.blocks[key].index
  {
  }

  /** No frame before the first error is a stray one. */
  predicate NeverStray(s: State, frames: seq<Frame>, order: seq<Key>)
    decreases |frames|
  {
    frames != [] && Step(s, frames[0], order).error.None? ==>
      !Stray(s, frames[0]) && NeverStray(Step(s, frames[0], order).state, frames[1..], order)
  }

  lemma StepSound(s: State, m: Monitor, f: Frame, order: seq<Key>, strict: bool)
    requires Agrees(s, m) && Covers(order, s)
    requires forall k :: k in KeysOf(f) ==> k in order
    requires Step(s, f, order).error.None?
    requires strict ==> !Stray(s, f)
    ensures var o := Step(s, f, order); Sound(Emit(o.state, o.out), m, strict) && Covers(order, o.state)
  {
    if f.Data? {
      DeliverSound(s, m, f.event, order, strict);
      var a := if Starts(f.event) then Start(s, f.event) else Emit(s, []);
      if IsTerminal(f.event.body) {
        CloseAllShape(a.state, order);
      } else {
        KeysGrow(a.state, f.event.body);
      }
    }
  }

  lemma {:induction false} RunProtocol(s: State, m: Monitor, frames: seq<Frame>, order: seq<Key>, strict: bool)
    requires Agrees(s, m) && Covers(order, s) && Lists(order, frames)
    ensures Watch(m, Run(s, frames, order).out, strict).Some? <==> (strict ==> NeverStray(s, frames, order))
    decreases |frames|
  {
    if frames != [] {
      var first := Step(s, frames[0], order);
      if first.error.None? {
        if strict && Stray(s, frames[0]) {
          StrayRefused(s, m, frames[0].event, order);
          WatchAppend(m, first.out, Run(first.state, frames[1..], order).out, strict);
        } else {
          StepSound(s, m, frames[0], order, strict);
          RunProtocol(first.state, Watch(m, first.out, strict).value, frames[1..], order, strict);
          WatchAppend(m, first.out, Run(first.state, frames[1..], order).out, strict);
        }
      } else {
        FailingStepEmitsNothing(s, frames[0], order);
      }
    }
  }

  lemma FailingStepEmitsNothing(s: State, f: Frame, order: seq<Key>)
    requires Step(s, f, order).error.Some?
    ensures Step(s, f, order).out == []
  {
  }

  /** Every upstream event sequence, up to the first error, and every map order: the client's
      protocol holds, and the strict form of it exactly when no frame is a stray one. */
  lemma {:induction false} StreamProtocol(model: string, frames: seq<Frame>, order: seq<Key>)
    requires Lists(order, frames)
    ensures Watch(SILENT, Run(Init(model), frames, order).out, false).Some?
    ensures Watch(SILENT, Run(Init(model), frames, order).out, true).Some? <==> NeverStray(Init(model), frames, order)
  {
    RunProtocol(Init(model), SILENT, frames, order, false);
    RunProtocol(Init(model), SILENT, frames, order, true);
  }

  // ---- The same condition, read off the upstream frames alone ----

  /** What the frames so far say of each item, and whether the message has ended. */
  datatype Ledger = Ledger(items: map<ItemRef, Track>, ended: bool)

  const EMPTY_LEDGER := Ledger(map[], false)

  /** Before the end: a closed item is done again with something to add. After the end: an event that
      would open a block, or such an item. */
  predicate Intrudes(l: Ledger, b: Body) {
    match b
    case ItemDone(ref, item) =>
      if ref in l.items then (l.ended || !l.items[ref].open) && Completes(l.items[ref], item)
      else l.ended && HasBlock(item)
    case ItemAdded(_, item) => l.ended && HasBlock(item)
    case PartAdded(_, _, p) => l.ended && !p.kind.OtherPart?
    case TextDelta(_, _, _) => l.ended
    case RefusalDelta(_, _, _) => l.ended
    case ReasoningDelta(_, _) => l.ended
    case ArgumentsDelta(_, _, _, _, _) => l.ended
    case _ => false
  }

  function KnownTrack(l: Ledger, ref: ItemRef, kind: BlockKind): Track {
    if ref in l.items then l.items[ref] else Track(kind, false, false, "")
  }

  function KindFor(item: Item): BlockKind {
    if item.kind.ReasoningItem? then Thinking else ToolUse
  }

  function Record(l: Ledger, b: Body): Ledger {
    match b
    case ItemAdded(ref, item) =>
      if !HasBlock(item) then l
      else
        var t := KnownTrack(l, ref, KindFor(item)).(open := true);
        l.(items := l.items[ref := if item.kind.ReasoningItem? then t.(encrypted := Trim(item.encrypted)) else t])
    case ReasoningDelta(ref, text) =>
      var t := KnownTrack(l, ref, Thinking);
      l.(items := l.items[ref := t.(open := true, streamed := t.streamed || text != "")])
    case ArgumentsDelta(ref, _, _, _, text) =>
      var t := KnownTrack(l, ref, ToolUse);
      l.(items := l.items[ref := t.(open := true, streamed := t.streamed || text != "")])
    case ItemDone(ref, item) =>
      if ref !in l.items && !HasBlock(item) then l
      else l.(items := l.items[ref := Completed(KnownTrack(l, ref, KindFor(item)), item).(open := false)])
    case Completed => l.(ended := true)
    case Incomplete => l.(ended := true)
    case _ => l
  }

  /** Up to the first frame the translator fails on, no frame intrudes. */
  predicate Orderly(frames: seq<Frame>, l: Ledger) {
    frames == [] || Fatal(frames[0], l.ended).Some?
    || if frames[0].Data?
       then !Intrudes(l, frames[0].event.body) && Orderly(frames[1..], Record(l, frames[0].event.body))
       else Orderly(frames[1..], l)
  }

  /** The ledger says of every item what the translator's state says. */
  ghost predicate Follows(s: State, l: Ledger) {
    && s.stopped == l.ended
    && (forall ref :: ref in l.items <==> ItemKey(ref) in s.blocks)
    && (forall ref :: ref in l.items && ItemKey(ref) in s.blocks ==> SameTrack(s, l, ref))
    && (s.stopped ==> forall k :: k in s.blocks ==> !s.blocks[k].open)
  }

  predicate SameTrack(s: State, l: Ledger, ref: ItemRef)
    requires ref in l.items && ItemKey(ref) in s.blocks
  {
    l.items[ref].(open := l.items[ref].open && !l.ended) == TrackOf(s.blocks[ItemKey(ref)])
  }

  lemma IntrudesExactly(s: State, l: Ledger, b: Body)
    requires Follows(s, l)
    ensures Intrudes(l, b) <==> StrayBody(s, b)
  {
    if b.ItemDone? && b.ref in l.items {
      assert SameTrack(s, l, b.ref);
    }
  }

  /** The item of `ref` now has this record, and no other item's changed. */
  lemma FollowsOne(s: State, l: Ledger, t: State, ref: ItemRef, track: Track)
    requires Follows(s, l) && Touches(s, t, ItemKey(ref)) && (s.stopped ==> !track.open)
    requires ItemKey(ref) in t.blocks && TrackOf(t.blocks[ItemKey(ref)]) == track
    ensures Follows(t, l.(items := l.items[ref := track]))
  {
    var m := l.(items := l.items[ref := track]);
    forall r | r in m.items && ItemKey(r) in t.blocks ensures SameTrack(t, m, r) {
      if r != ref {
        assert SameTrack(s, l, r);
      }
    }
  }

  /** A block of a content part is nobody's item. */
  lemma FollowsPart(s: State, l: Ledger, t: State, key: Key)
    requires Follows(s, l) && Touches(s, t, key) && key.ContentKey? && !s.stopped
    ensures Follows(t, l)
  {
    forall r | r in l.items && ItemKey(r) in t.blocks ensures SameTrack(t, l, r) {
      assert SameTrack(s, l, r);
    }
  }

  lemma KnownTracks(s: State, l: Ledger, ref: ItemRef, kind: BlockKind) returns (t: State)
    requires Follows(s, l) && !s.stopped
    ensures t == Ensure(s, ItemKey(ref), kind) && ItemKey(ref) in t.blocks
    ensures TrackOf(t.blocks[ItemKey(ref)]) == KnownTrack(l, ref, kind)
  {
    t := Ensure(s, ItemKey(ref), kind);
    if ref in l.items {
      assert SameTrack(s, l, ref);
    }
  }

  lemma AddedFollows(s: State, l: Ledger, ref: ItemRef, item: Item)
    requires Follows(s, l) && !s.stopped
    ensures Follows(AddItem(s, ref, item).state, Record(l, ItemAdded(ref, item)))
  {
    if HasBlock(item) {
      var key := ItemKey(ref);
      var t := KnownTracks(s, l, ref, KindFor(item));
      var u := AddItem(s, ref, item).state;
      FollowsOne(s, l, u, ref, TrackOf(u.blocks[key]));
    }
  }

  lemma DeltaFollows(s: State, l: Ledger, b: Body)
    requires Follows(s, l) && !s.stopped && (b.ReasoningDelta? || b.ArgumentsDelta?)
    ensures Follows(Content(s, b).state, Record(l, b))
  {
    var key := ItemKey(b.ref);
    var t := KnownTracks(s, l, b.ref, if b.ReasoningDelta? then Thinking else ToolUse);
    var u := Content(s, b).state;
    FollowsOne(s, l, u, b.ref, TrackOf(u.blocks[key]));
  }

  lemma CompletedCloses(s: State, key: Key, item: Item) returns (b: Emit, c: Emit)
    requires key in s.blocks
    ensures b == CompleteBlock(s, key, item) && c == Close(b.state, key) && key in c.state.blocks
    ensures TrackOf(c.state.blocks[key]) == Completed(TrackOf(s.blocks[key]), item).(open := false)
  {
    b := CompletedBlock(s, key, item);
    c := Close(b.state, key);
  }

  lemma DoneTracked(s: State, l: Ledger, ref: ItemRef, item: Item) returns (t: State)
    requires Follows(s, l) && (ItemKey(ref) in s.blocks || HasBlock(item))
    ensures t == CompleteItem(s, ref, item).state && ItemKey(ref) in t.blocks
    ensures TrackOf(t.blocks[ItemKey(ref)]) == Completed(KnownTrack(l, ref, KindFor(item)), item).(open := false)
  {
    var key := ItemKey(ref);
    if key in s.blocks {
      assert SameTrack(s, l, ref);
      var b, c := CompletedCloses(s, key, item);
      t := c.state;
      return;
    }
    var a := OpenLate(s, key, item);
    assert TrackOf(a.state.blocks[key]) == Track(KindFor(item), true, false, "");
    var b, c := CompletedCloses(a.state, key, item);
    t := c.state;
  }

  lemma DoneFollows(s: State, l: Ledger, ref: ItemRef, item: Item)
    requires Follows(s, l)
    ensures Follows(CompleteItem(s, ref, item).state, Record(l, ItemDone(ref, item)))
  {
    if ItemKey(ref) in s.blocks || HasBlock(item) {
      var t := DoneTracked(s, l, ref, item);
      FollowsOne(s, l, t, ref, TrackOf(t.blocks[ItemKey(ref)]));
    }
  }

  lemma ContentFollows(s: State, l: Ledger, b: Body)
    requires Follows(s, l) && !s.stopped && !IsTerminal(b)
    ensures Follows(Content(s, b).state, Record(l, b))
  {
    match b
    case ItemAdded(ref, item) => AddedFollows(s, l, ref, item);
    case PartAdded(ref, part, _) => FollowsPart(s, l, Content(s, b).state, ContentKey(ref, part));
    case TextDelta(ref, part, _) => FollowsPart(s, l, Content(s, b).state, ContentKey(ref, part));
    case RefusalDelta(ref, part, _) => FollowsPart(s, l, Content(s, b).state, ContentKey(ref, part));
    case ReasoningDelta(_, _) => DeltaFollows(s, l, b);
    case ArgumentsDelta(_, _, _, _, _) => DeltaFollows(s, l, b);
    case PartDone(ref, part) => FollowsPart(s, l, Content(s, b).state, ContentKey(ref, part));
    case ItemDone(ref, item) => DoneFollows(s, l, ref, item);
    case _ =>
  }

  /** After the end only an item's signature may still be replaced. */
  lemma CalmFollows(s: State, l: Ledger, b: Body)
    requires Follows(s, l) && s.stopped && !Intrudes(l, b) && !IsTerminal(b)
    ensures Follows(Content(s, b).state, Record(l, b))
  {
    if b.ItemDone? {
      DoneFollows(s, l, b.ref, b.item);
    }
  }

  /** At the end every block is closed, in whatever order. */
  lemma EndFollows(s: State, l: Ledger, r: Response, order: seq<Key>)
    requires Follows(s, l) && Covers(order, s)
    ensures Follows(Finish(s, r, order).state, l.(ended := true))
  {
    if !s.stopped {
      CloseAllShape(s, order);
      CloseAllTracks(s, order);
      var t, m := Finish(s, r, order).state, l.(ended := true);
      forall ref | ref in m.items && ItemKey(ref) in t.blocks ensures SameTrack(t, m, ref) {
        assert SameTrack(s, l, ref);
      }
    }
  }

  lemma {:induction false} CloseAllTracks(s: State, order: seq<Key>)
    ensures forall k :: k in s.blocks && k in CloseAll(s, order).state.blocks ==>
              var b := CloseAll(s, order).state.blocks[k]; b == s.blocks[k].(open := b.open)
    decreases |order|
  {
    if order != [] {
      CloseAllTracks(Close(s, order[0]).state, order[1..]);
    }
  }

  lemma StartFollows(s: State, l: Ledger, e: Event) returns (a: Emit)
    requires Follows(s, l)
    ensures a == (if Starts(e) then Start(s, e) else Emit(s, []))
    ensures Follows(a.state, l) && a.state.blocks == s.blocks && a.state.stopped == s.stopped
  {
    a := if Starts(e) then Start(s, e) else Emit(s, []);
    forall ref | ref in l.items && ItemKey(ref) in a.state.blocks ensures SameTrack(a.state, l, ref) {
      assert SameTrack(s, l, ref);
    }
  }

  lemma DeliverFollows(s: State, l: Ledger, e: Event, order: seq<Key>)
    requires Follows(s, l) && Covers(order, s)
    requires Fatal(Data(e), s.stopped).None? && !Intrudes(l, e.body)
    ensures Follows(Deliver(s, e, order).state, Record(l, e.body))
  {
    var a := StartFollows(s, l, e);
    if IsTerminal(e.body) {
      EndFollows(a.state, l, ResponseOf(e), order);
    } else if s.stopped {
      CalmFollows(a.state, l, e.body);
    } else {
      ContentFollows(a.state, l, e.body);
    }
  }

  lemma {:induction false} OrderlyExactly(s: State, l: Ledger, m: Monitor, frames: seq<Frame>, order: seq<Key>)
    requires Follows(s, l) && Agrees(s, m) && Covers(order, s) && Lists(order, frames)
    ensures NeverStray(s, frames, order) <==> Orderly(frames, l)
    decreases |frames|
  {
    if frames != [] {
      var f, first := frames[0], Step(s, frames[0], order);
      ClaudeStepFails(s, f, order);
      if f.Data? {
        IntrudesExactly(s, l, f.event.body);
      }
      if first.error.None? && !Stray(s, f) {
        StepSound(s, m, f, order, true);
        if f.Data? {
          DeliverFollows(s, l, f.event, order);
        }
        var more := if f.Data? then Record(l, f.event.body) else l;
        OrderlyExactly(first.state, more, Watch(m, first.out, true).value, frames[1..], order);
      }
    }
  }

  /** For every upstream, up to the first failing frame, and every map order: each delta lies inside
      its open block and nothing follows message_stop exactly when the frames are orderly. */
  lemma {:induction false} OrderlyStreamProtocol(model: string, frames: seq<Frame>, order: seq<Key>)
    requires Lists(order, frames)
    ensures Watch(SILENT, Run(Init(model), frames, order).out, true).Some? <==> Orderly(frames, EMPTY_LEDGER)
  {
    StreamProtocol(model, frames, order);
    OrderlyExactly(Init(model), EMPTY_LEDGER, SILENT, frames, order);
  }

  /** The usual upstream: no item is done twice and no content follows the terminal event. */
  predicate Sequential(frames: seq<Frame>, done: set<ItemRef>, ended: bool) {
    frames == []
    || if !frames[0].Data? then Sequential(frames[1..], done, ended)
       else
         var b := frames[0].event.body;
         && (ended ==> KeysOf(frames[0]) == {})
         && (b.ItemDone? ==> b.ref !in done)
         && Sequential(frames[1..], if b.ItemDone? then done + {b.ref} else done, ended || IsTerminal(b))
  }

  lemma {:induction false} SequentialIsOrderly(frames: seq<Frame>, l: Ledger, done: set<ItemRef>)
    requires Sequential(frames, done, l.ended)
    requires forall ref :: ref in l.items && !l.items[ref].open ==> ref in done
    ensures Orderly(frames, l)
    decreases |frames|
  {
    if frames != [] && Fatal(frames[0], l.ended).None? {
      if frames[0].Data? {
        var b := frames[0].event.body;
        SequentialIsOrderly(frames[1..], Record(l, b), if b.ItemDone? then done + {b.ref} else done);
      } else {
        SequentialIsOrderly(frames[1..], l, done);
      }
    }
  }

  // ---- Otherwise the strict protocol does fail ----

  ghost predicate Signed(item: Item) {
    item.kind.ReasoningItem? && Trim(item.encrypted) != "" && !HasPrefix(Trim(item.encrypted), REDACTED_PREFIX)
  }

  lemma SignatureRepeats(s: State, ref: ItemRef, item: Item)
    requires Signed(item) && ItemKey(ref) in s.blocks && s.blocks[ItemKey(ref)].kind == Thinking
    ensures CompleteBlock(s, ItemKey(ref), item).out != []
  {
  }

  lemma DoneLeavesClosed(s: State, ref: ItemRef, item: Item) returns (e: Emit)
    requires item.kind.ReasoningItem? && ItemKey(ref) !in s.blocks
    ensures e == CompleteItem(s, ref, item) && e.state.stopped == s.stopped
    ensures var t := e.state;
            ItemKey(ref) in t.blocks && t.blocks[ItemKey(ref)].kind == Thinking && !t.blocks[ItemKey(ref)].open
  {
    var a := OpenLate(s, ItemKey(ref), item);
    assert a.state.blocks[ItemKey(ref)].kind == Thinking;
    assert CompleteThinking(a.state, ItemKey(ref), item).state.blocks[ItemKey(ref)].kind == Thinking;
    e := CompleteItem(s, ref, item);
  }

  lemma {:induction false} StrayTwice(s: State, f: Frame, order: seq<Key>)
    requires Step(s, f, order).error.None? && Stray(Step(s, f, order).state, f)
    ensures !NeverStray(s, [f, f], order)
  {
    assert [f, f][1..] == [f];
    StrayEnds(Step(s, f, order).state, f, order);
  }

  lemma {:induction false} StrayEnds(s: State, f: Frame, order: seq<Key>)
    requires Stray(s, f)
    ensures Step(s, f, order).error.None? && !NeverStray(s, [f], order)
  {
  }

  lemma ClosedIsStray(s: State, ref: ItemRef, item: Item)
    requires !s.stopped && Signed(item) && ItemKey(ref) in s.blocks
    requires s.blocks[ItemKey(ref)].kind == Thinking && !s.blocks[ItemKey(ref)].open
    ensures Stray(s, Plain(ItemDone(ref, item)))
  {
    SignatureRepeats(s, ref, item);
  }

  lemma DoneStep(s: State, ref: ItemRef, item: Item, order: seq<Key>)
    requires s.started
    ensures Step(s, Plain(ItemDone(ref, item)), order)
            == Outcome(CompleteItem(s, ref, item).state, CompleteItem(s, ref, item).out, None)
  {
    EmptyEnds(CompleteItem(s, ref, item).out);
  }

  lemma DoneOnce(s: State, ref: ItemRef, item: Item, order: seq<Key>) returns (o: Outcome)
    requires s.started && !s.stopped && Signed(item) && ItemKey(ref) !in s.blocks
    ensures o == Step(s, Plain(ItemDone(ref, item)), order)
    ensures o.error.None? && Stray(o.state, Plain(ItemDone(ref, item)))
  {
    var e := DoneLeavesClosed(s, ref, item);
    DoneStep(s, ref, item, order);
    o := Outcome(e.state, e.out, None);
    ClosedIsStray(o.state, ref, item);
  }

  /** At any point of a stream, a signed reasoning item done twice: the second signature lands
      outside any open block. */
  lemma {:induction false} DoneTwiceIsStray(s: State, m: Monitor, ref: ItemRef, item: Item, order: seq<Key>)
    requires Agrees(s, m) && Covers(order, s) && s.started && !s.stopped
    requires Signed(item) && ItemKey(ref) !in s.blocks && ItemKey(ref) in order
    ensures var done := Plain(ItemDone(ref, item));
            Watch(m, Run(s, [done, done], order).out, true).None?
  {
    var o := DoneOnce(s, ref, item, order);
    StrayTwice(s, Plain(ItemDone(ref, item)), order);
    RunProtocol(s, m, [Plain(ItemDone(ref, item)), Plain(ItemDone(ref, item))], order, true);
  }
}
