/** What is said in streams of any shape. */
module StreamContents {
  import opened Text
  import opened Responses
  import opened Claude
  import opened Chat
  import opened StreamErrors
  import C = ResponsesToClaude
  import D = ResponsesToChat
  import P = ChatStreamProtocol

  // Headers, signatures, names and endings, in the streams of the two Responses translators.

  /** The first of three texts that is not blank, trimmed. */
  predicate IsFirstOf(a: string, b: string, c: string, x: string) {
    x == if Trim(a) != "" then Trim(a) else if Trim(b) != "" then Trim(b) else Trim(c)
  }

  // ---- The header ----

  /** A Claude message begins with the first event that is a response event or carries a response. */
  predicate BeginsMessage(f: Frame) {
    f.Data? && !f.event.body.Failing? && (f.event.response.Some? || IsResponseEvent(f.event.body))
  }

  /** A chat completion begins with the first response event. */
  predicate BeginsCompletion(f: Frame) {
    f.Data? && IsResponseEvent(f.event.body)
  }

  /** Identifier, model and input tokens of the event that begins the message, or defaults. */
  predicate MessageHeader(e: Event, model: string, start: ClaudeEvent) {
    && start.MessageStart?
    && IsFirstOf(ResponseOf(e).id, e.responseId, "msg_copilot", start.id)
    && IsFirstOf(ResponseOf(e).model, model, "", start.model)
    && start.inputTokens.Number? && Counts(ResponseOf(e).usage.inputTokens, start.inputTokens.n)
  }

  /** Identifier, model and time of the event that begins the completion, or defaults. */
  predicate CompletionHeader(e: Event, model: string, c: Chunk) {
    && IsFirstOf(ResponseOf(e).id, e.responseId, "chatcmpl-copilot", c.id)
    && IsFirstOf(ResponseOf(e).model, model, "", c.model)
    && Counts(ResponseOf(e).createdAt, c.created)
  }

  lemma {:induction false} NoMessageYet(s: C.State, frames: seq<Frame>, order: seq<Key>)
    requires !s.started && FirstFatal(frames, s.stopped).None? && forall f :: f in frames ==> !BeginsMessage(f)
    ensures C.Run(s, frames, order) == C.Outcome(s, [], None)
    decreases |frames|
  {
    if frames != [] {
      assert frames[0] in frames;
      ClaudeStepFails(s, frames[0], order);
      NoMessageYet(s, frames[1..], order);
    }
  }

  lemma {:induction false} MessageBegun(s: C.State, e: Event, order: seq<Key>)
    requires !s.started && BeginsMessage(Data(e)) && Fatal(Data(e), s.stopped).None?
    ensures C.Step(s, Data(e), order).out != [] && MessageHeader(e, s.model, C.Step(s, Data(e), order).out[0])
  {
    ClaudeStepFails(s, Data(e), order);
    TrimShape("msg_copilot");
    assert Trim("") == "";
  }

  /** A Claude stream says nothing before the first frame that begins the message, and then that event's
      header. */
  lemma {:induction false} MessageBegins(model: string, frames: seq<Frame>, i: nat, order: seq<Key>)
    requires i < |frames| && BeginsMessage(frames[i]) && FirstFatal(frames[..i + 1], false).None?
    requires forall j :: 0 <= j < i ==> !BeginsMessage(frames[j])
    ensures C.Run(C.Init(model), frames[..i], order).out == []
    ensures var out := C.Run(C.Init(model), frames, order).out;
            out != [] && MessageHeader(frames[i].event, model, out[0])
  {
    var s := C.Init(model);
    assert frames[..i + 1] == frames[..i] + [frames[i]];
    FatalFront(frames[..i], frames[i], false);
    assert frames == frames[..i] + ([frames[i]] + frames[i + 1..]);
    NoMessageYet(s, frames[..i], order);
    C.RunAppend(s, frames[..i], [frames[i]] + frames[i + 1..], order);
    assert forall j :: 0 <= j < i ==> !Ends(frames[j]) by {
      forall j | 0 <= j < i ensures !Ends(frames[j]) { assert !BeginsMessage(frames[j]); }
    }
    ClaudeStepFails(s, frames[i], order);
    C.RunCons(s, frames[i], frames[i + 1..], order);
    MessageBegun(s, frames[i].event, order);
  }

  lemma {:induction false} FatalFront(a: seq<Frame>, f: Frame, ended: bool)
    requires FirstFatal(a + [f], ended).None?
    ensures FirstFatal(a, ended).None? && Fatal(f, Ended(a, ended)).None?
    decreases |a|
  {
    if a == [] {
      EmptyEnds([f]);
    } else {
      AppendHead(a, [f]);
      FatalFront(a[1..], f, ended || Ends(a[0]));
      assert a == [a[0]] + a[1..];
      EndedCons(a[0], a[1..], ended);
    }
  }

  lemma {:induction false} NoCompletionYet(s: D.State, frames: seq<Frame>)
    requires !s.started && FirstFatal(frames, s.stopped).None? && forall f :: f in frames ==> !BeginsCompletion(f)
    ensures D.Run(s, frames) == D.Outcome(s, [], None)
    decreases |frames|
  {
    if frames != [] {
      assert frames[0] in frames;
      ChatStepFails(s, frames[0]);
      NoCompletionYet(s, frames[1..]);
    }
  }

  predicate Bears(c: Chunk, id: string, model: string, created: int) {
    c.id == id && c.model == model && c.created == created
  }

  /** All that a client accepts once the role has come bears one header. */
  lemma {:induction false} AcceptedBears(m: P.Monitor, out: seq<Chunk>)
    requires m.started && P.Watch(m, out).Some?
    ensures forall c :: c in out ==> Bears(c, m.id, m.model, m.created)
    decreases |out|
  {
    if out != [] {
      AcceptedBears(P.Advance(m, out[0]), out[1..]);
    }
  }

  lemma CompletionBegun(s: D.State, e: Event)
    requires !s.started && BeginsCompletion(Data(e)) && Fatal(Data(e), s.stopped).None?
    ensures var out := D.Step(s, Data(e)).out; out != [] && out[0].delta.Role? && CompletionHeader(e, s.model, out[0])
  {
    ChatStepFails(s, Data(e));
    TrimShape("chatcmpl-copilot");
    assert Trim("") == "";
  }

  /** Every chunk of a chat stream bears the header of the first response event. */
  lemma {:induction false} CompletionBegins(model: string, frames: seq<Frame>, i: nat)
    requires i < |frames| && BeginsCompletion(frames[i]) && FirstFatal(frames[..i + 1], false).None?
    requires forall j :: 0 <= j < i ==> !BeginsCompletion(frames[j])
    ensures D.Run(D.Init(model), frames[..i]).out == []
    ensures var out := D.Run(D.Init(model), frames).out;
            out != [] && forall c :: c in out ==> CompletionHeader(frames[i].event, model, c)
  {
    var s := D.Init(model);
    assert frames[..i + 1] == frames[..i] + [frames[i]];
    FatalFront(frames[..i], frames[i], false);
    assert frames == frames[..i] + ([frames[i]] + frames[i + 1..]);
    NoCompletionYet(s, frames[..i]);
    D.RunAppend(s, frames[..i], [frames[i]] + frames[i + 1..]);
    assert forall j :: 0 <= j < i ==> !Ends(frames[j]) by {
      forall j | 0 <= j < i ensures !Ends(frames[j]) { assert !BeginsCompletion(frames[j]); }
    }
    ChatStepFails(s, frames[i]);
    D.RunCons(s, frames[i], frames[i + 1..]);
    CompletionBegun(s, frames[i].event);
    P.StreamProtocol(model, frames);
    var out := D.Run(s, frames).out;
    assert P.Watch(P.SILENT, out).Some?;
    AcceptedBears(P.Advance(P.SILENT, out[0]), out[1..]);
    assert forall c :: c in out ==> c == out[0] || c in out[1..];
  }

  // ---- Signatures ----

  /** What is known of an item's signature before it is done: the announced one. */
  function AnnouncedSignature(s: C.State, ref: ItemRef): string {
    if ItemKey(ref) in s.blocks then s.blocks[ItemKey(ref)].encrypted else ""
  }

  /** Does the item have, or get, a thinking block? */
  predicate IsThinking(s: C.State, ref: ItemRef, item: Item) {
    if ItemKey(ref) in s.blocks then s.blocks[ItemKey(ref)].kind == C.Thinking else item.kind.ReasoningItem?
  }

  /** The signatures these events bring. */
  function Signatures(out: seq<ClaudeEvent>): seq<string> {
    if out == [] then []
    else (if out[0].BlockChunk? && out[0].delta.SignatureChunk? then [out[0].delta.signature] else [])
         + Signatures(out[1..])
  }

  lemma {:induction false} SignaturesAppend(a: seq<ClaudeEvent>, b: seq<ClaudeEvent>)
    ensures Signatures(a + b) == Signatures(a) + Signatures(b)
    decreases |a|
  {
    if a == [] {
      EmptyEnds(b);
    } else {
      AppendHead(a, b);
      SignaturesAppend(a[1..], b);
      Regroup(if a[0].BlockChunk? && a[0].delta.SignatureChunk? then [a[0].delta.signature] else [],
              Signatures(a[1..]), Signatures(b));
    }
  }

  lemma {:induction false} DeltaSignatures(s: C.State, key: Key, d: BlockDelta) returns (e: C.Emit)
    requires key in s.blocks
    ensures e == C.Delta(s, key, d) && key in e.state.blocks
    ensures e.state.blocks[key].encrypted == s.blocks[key].encrypted
    ensures Signatures(e.out) == if d.SignatureChunk? && d.signature != "" then [d.signature] else []
  {
    e := C.Delta(s, key, d);
    NothingAfter(BlockChunk(s.blocks[key].index, d));
  }

  lemma {:induction false} SignatureCompletes(s: C.State, key: Key, item: Item) returns (e: C.Emit, last: string)
    requires key in s.blocks
    ensures e == C.CompleteThinking(s, key, item) && key in e.state.blocks
    ensures IsFirstOf(item.encrypted, s.blocks[key].encrypted, "", last) && e.state.blocks[key].encrypted == last
    ensures Signatures(e.out) == if last != "" && !HasPrefix(last, REDACTED_PREFIX) then [last] else []
  {
    assert Trim("") == "";
    var x := DeltaSignatures(s, key, ThinkingChunk(ReasoningText(item)));
    var a := if s.blocks[key].sawDelta then C.Emit(s, []) else x;
    last := FirstOf(item.encrypted, a.state.blocks[key].encrypted);
    var t := C.Update(a.state, key, a.state.blocks[key].(encrypted := last));
    var y := DeltaSignatures(t, key, SignatureChunk(last));
    var b := if HasPrefix(last, REDACTED_PREFIX) then C.Emit(t, []) else y;
    SignaturesAppend(a.out, b.out);
    e := C.CompleteThinking(s, key, item);
  }

  lemma {:induction false} NoSignatures(out: seq<ClaudeEvent>)
    requires forall c :: c in out ==> !c.BlockChunk? || !c.delta.SignatureChunk?
    ensures Signatures(out) == []
  {
    if out != [] {
      assert out[0] in out;
      NoSignatures(out[1..]);
    }
  }

  lemma {:induction false} LateSignatures(s: C.State, ref: ItemRef, item: Item) returns (a: C.Emit)
    ensures a == C.OpenLate(s, ItemKey(ref), item) && Signatures(a.out) == []
    ensures ItemKey(ref) in a.state.blocks
            <==> ItemKey(ref) in s.blocks || item.kind.ReasoningItem? || item.kind.ToolItem?
    ensures AnnouncedSignature(a.state, ref) == AnnouncedSignature(s, ref)
    ensures ItemKey(ref) in a.state.blocks ==>
              (a.state.blocks[ItemKey(ref)].kind == C.Thinking <==> IsThinking(s, ref, item))
  {
    a := C.OpenLate(s, ItemKey(ref), item);
    NoSignatures(a.out);
  }

  lemma {:induction false} CompletedSignatures(s: C.State, key: Key, item: Item)
    returns (b: C.Emit, c: C.Emit, last: string)
    requires key in s.blocks
    ensures b == C.CompleteBlock(s, key, item) && c == C.Close(b.state, key) && key in c.state.blocks
    ensures IsFirstOf(item.encrypted, s.blocks[key].encrypted, "", last)
    ensures s.blocks[key].kind == C.Thinking ==> c.state.blocks[key].encrypted == last
    ensures Signatures(b.out + c.out)
            == if s.blocks[key].kind == C.Thinking && last != "" && !HasPrefix(last, REDACTED_PREFIX) then [last]
               else []
  {
    var e;
    e, last := SignatureCompletes(s, key, item);
    var x := DeltaSignatures(s, key, InputChunk(RawArguments(item)));
    b := C.CompleteBlock(s, key, item);
    assert Signatures([]) == [];
    c := C.Close(b.state, key);
    NoSignatures(c.out);
    SignaturesAppend(b.out, c.out);
    EmptyEnds(Signatures(b.out));
  }

  /** In every state, a done item with a thinking block keeps its own signature if it has one, and the
      announced one otherwise; it says it, once, exactly if there is one that is no redacted data.
      Other items say none. */
  lemma {:induction false} DoneSignature(s: C.State, ref: ItemRef, item: Item) returns (e: C.Emit, last: string)
    ensures e == C.Content(s, ItemDone(ref, item))
    ensures IsFirstOf(item.encrypted, AnnouncedSignature(s, ref), "", last)
    ensures Signatures(e.out)
            == if IsThinking(s, ref, item) && last != "" && !HasPrefix(last, REDACTED_PREFIX) then [last] else []
    ensures IsThinking(s, ref, item) ==> AnnouncedSignature(e.state, ref) == last
  {
    var a := LateSignatures(s, ref, item);
    last := FirstOf(item.encrypted, AnnouncedSignature(s, ref));
    assert Trim("") == "";
    if ItemKey(ref) in a.state.blocks {
      var b, c, l := CompletedSignatures(a.state, ItemKey(ref), item);
      last := l;
      SignaturesAppend(a.out, b.out + c.out);
      EmptyEnds(Signatures(b.out + c.out));
      e := C.Emit(c.state, a.out + (b.out + c.out));
      return;
    }
    e := a;
  }

  // ---- Names ----

  /** The events that announce, extend or end a tool. */
  predicate OfTool(b: Body) {
    (b.ItemAdded? && b.item.kind.ToolItem?) || b.ArgumentsDelta? || (b.ItemDone? && b.item.kind.ToolItem?)
  }

  /** The identifier and name a call bears: an announcement's own before those known, and those known
      before what a delta or a done item brings. */
  predicate NamedBy(t: D.Entry, b: Body, id: string, name: string)
    requires OfTool(b)
  {
    match b
    case ItemAdded(_, item) =>
      && (if CallIdOf(item) != "" then IsFirstOf(item.callId, item.id, "", id) else id == Trim(t.callId))
      && IsFirstOf(item.name, t.name, "", name)
    case ArgumentsDelta(_, callId, itemId, known, _) =>
      IsFirstOf(t.callId, callId, itemId, id) && IsFirstOf(t.name, known, "", name)
    case ItemDone(_, item) => IsFirstOf(t.callId, item.callId, item.id, id) && IsFirstOf(t.name, item.name, "", name)
  }

  /** The calls these chunks announce. */
  function Calls(out: seq<Chunk>): seq<ChatDelta> {
    if out == [] then [] else (if out[0].delta.Call? then [out[0].delta] else []) + Calls(out[1..])
  }

  lemma {:induction false} CallsAppend(a: seq<Chunk>, b: seq<Chunk>)
    ensures Calls(a + b) == Calls(a) + Calls(b)
    decreases |a|
  {
    if a == [] {
      EmptyEnds(b);
    } else {
      AppendHead(a, b);
      CallsAppend(a[1..], b);
      Regroup(if a[0].delta.Call? then [a[0].delta] else [], Calls(a[1..]), Calls(b));
    }
  }

  lemma {:induction false} AnnouncedCalls(d: D.State, ref: ItemRef, id: string, name: string) returns (a: D.Emit)
    ensures a == D.Announce(D.Named(d, ref, id, name), ref) && ref in a.state.items
    ensures Calls(a.out) == if D.EntryOf(d, ref).announced then [] else [Call(D.EntryOf(d, ref).toolIndex, id, name)]
  {
    a := D.Announce(D.Named(d, ref, id, name), ref);
    NothingAfter(D.ChunkOf(D.Named(d, ref, id, name), Call(D.EntryOf(d, ref).toolIndex, id, name)));
  }

  lemma {:induction false} ArgumentsCallNothing(d: D.State, ref: ItemRef, text: string)
    requires ref in d.items
    ensures Calls(D.Arguments(d, ref, text).out) == []
  {
    NothingAfter(D.ChunkOf(d, Argue(d.items[ref].toolIndex, text)));
  }

  lemma BlankTrims()
    ensures Trim("") == ""
  {
  }

  lemma {:induction false} AddedCalls(d: D.State, ref: ItemRef, item: Item)
    returns (e: D.Emit, id: string, name: string)
    requires item.kind.ToolItem?
    ensures e == D.Content(d, ItemAdded(ref, item)) && NamedBy(D.EntryOf(d, ref), ItemAdded(ref, item), id, name)
    ensures Calls(e.out)
            == if D.EntryOf(d, ref).announced || name == "" then [] else [Call(D.EntryOf(d, ref).toolIndex, id, name)]
  {
    BlankTrims();
    FirstOfTrimmed(item.callId, item.id, "");
    id, name := FirstOf(CallIdOf(item), D.EntryOf(d, ref).callId), FirstOf(item.name, D.EntryOf(d, ref).name);
    var a := AnnouncedCalls(d, ref, id, name);
    e := D.AddItem(d, ref, item);
  }

  lemma {:induction false} DeltaCalls(d: D.State, b: Body) returns (e: D.Emit, id: string, name: string)
    requires b.ArgumentsDelta?
    ensures e == D.Content(d, b) && NamedBy(D.EntryOf(d, b.ref), b, id, name)
    ensures Calls(e.out)
            == if D.EntryOf(d, b.ref).announced then [] else [Call(D.EntryOf(d, b.ref).toolIndex, id, name)]
  {
    BlankTrims();
    var t := D.EntryOf(d, b.ref);
    id, name := FirstOf3(t.callId, b.callId, b.itemId), FirstOf(t.name, b.name);
    var a := AnnouncedCalls(d, b.ref, id, name);
    ArgumentsCallNothing(a.state, b.ref, b.delta);
    CallsAppend(a.out, D.Arguments(a.state, b.ref, b.delta).out);
    EmptyEnds(Calls(a.out));
    e := D.Content(d, b);
    assert e.out == a.out + D.Arguments(a.state, b.ref, b.delta).out;
  }

  lemma DoneNamed(t: D.Entry, ref: ItemRef, item: Item) returns (id: string, name: string)
    requires item.kind.ToolItem?
    ensures id == FirstOf(t.callId, CallIdOf(item)) && name == FirstOf(t.name, item.name)
    ensures NamedBy(t, ItemDone(ref, item), id, name)
  {
    BlankTrims();
    FirstOfTrimmed(item.callId, item.id, "");
    id, name := FirstOf(t.callId, CallIdOf(item)), FirstOf(t.name, item.name);
  }

  lemma {:induction false} SuppliedCallNothing(d: D.State, ref: ItemRef, item: Item) returns (b: D.Emit)
    requires ref in d.items
    ensures b == if d.items[ref].sawDelta then D.Emit(d, []) else D.Arguments(d, ref, RawArguments(item))
    ensures Calls(b.out) == []
  {
    ArgumentsCallNothing(d, ref, RawArguments(item));
    b := if d.items[ref].sawDelta then D.Emit(d, []) else D.Arguments(d, ref, RawArguments(item));
  }

  lemma DoneInParts(d: D.State, ref: ItemRef, item: Item, id: string, name: string) returns (a: D.Emit, b: D.Emit)
    requires item.kind.ToolItem?
    requires id == FirstOf(D.EntryOf(d, ref).callId, CallIdOf(item))
    requires name == FirstOf(D.EntryOf(d, ref).name, item.name)
    ensures a == D.Announce(D.Named(d, ref, id, name), ref) && ref in a.state.items
    ensures b == if a.state.items[ref].sawDelta then D.Emit(a.state, [])
                 else D.Arguments(a.state, ref, RawArguments(item))
    ensures D.Content(d, ItemDone(ref, item)) == D.Emit(b.state, a.out + b.out)
  {
    a := D.Announce(D.Named(d, ref, id, name), ref);
    b := if a.state.items[ref].sawDelta then D.Emit(a.state, [])
         else D.Arguments(a.state, ref, RawArguments(item));
  }

  lemma {:induction false} DoneCalls(d: D.State, ref: ItemRef, item: Item)
    returns (e: D.Emit, id: string, name: string)
    requires item.kind.ToolItem?
    ensures e == D.Content(d, ItemDone(ref, item)) && NamedBy(D.EntryOf(d, ref), ItemDone(ref, item), id, name)
    ensures Calls(e.out) == if D.EntryOf(d, ref).announced then [] else [Call(D.EntryOf(d, ref).toolIndex, id, name)]
  {
    id, name := DoneNamed(D.EntryOf(d, ref), ref, item);
    var a, b := DoneInParts(d, ref, item, id, name);
    var x := AnnouncedCalls(d, ref, id, name);
    var y := SuppliedCallNothing(a.state, ref, item);
    CallsAppend(a.out, b.out);
    EmptyEnds(Calls(a.out));
    e := D.Emit(b.state, a.out + b.out);
  }

  /** In every state, an event of a tool announces its call unless that was done before, or it is an
      announcement that leaves the tool nameless; and under which identifier and name. */
  lemma {:induction false} CallNames(d: D.State, b: Body) returns (e: D.Emit, id: string, name: string)
    requires OfTool(b)
    ensures e == D.Content(d, b) && NamedBy(D.EntryOf(d, b.ref), b, id, name)
    ensures var t := D.EntryOf(d, b.ref);
            Calls(e.out)
            == if t.announced || (b.ItemAdded? && name == "") then [] else [Call(t.toolIndex, id, name)]
  {
    if b.ItemAdded? {
      e, id, name := AddedCalls(d, b.ref, b.item);
      return;
    }
    if b.ArgumentsDelta? {
      e, id, name := DeltaCalls(d, b);
      return;
    }
    e, id, name := DoneCalls(d, b.ref, b.item);
  }

  /** What is known of a tool's names when its block is opened through Claude: an announcement's or a new
      done item's own; for a delta, the record's before the delta's. */
  predicate OpenedAs(s: C.State, b: Body, block: ContentBlock)
    requires OfTool(b)
  {
    && block.ToolUseBlock? && block.altId == ""
    && match b
       case ItemAdded(_, item) => IsFirstOf(item.callId, item.id, "", block.id) && block.name == Trim(item.name)
       case ArgumentsDelta(ref, callId, itemId, name, _) =>
         var known := if ItemKey(ref) in s.blocks then s.blocks[ItemKey(ref)] else C.FreshBlock(0, C.ToolUse);
         && (if known.functionId != "" then block.id == known.functionId else IsFirstOf(callId, itemId, "", block.id))
         && block.name == if known.functionName != "" then known.functionName else Trim(name)
       case ItemDone(_, item) => IsFirstOf(item.callId, item.id, "", block.id) && block.name == Trim(item.name)
  }

  /** Every block these events open bears the index of the event's item and these names. */
  ghost predicate OpensWell(s: C.State, b: Body, out: seq<ClaudeEvent>)
    requires OfTool(b)
  {
    forall c :: c in out && c.BlockStart? ==>
      && OpenedAs(s, b, c.block)
      && c.index == if ItemKey(b.ref) in s.blocks then s.blocks[ItemKey(b.ref)].index else s.nextBlock
  }

  lemma AddedOpensWell(s: C.State, ref: ItemRef, item: Item)
    requires item.kind.ToolItem?
    ensures OpensWell(s, ItemAdded(ref, item), C.AddItem(s, ref, item).out)
  {
    BlankTrims();
  }

  lemma DeltaOpensWell(s: C.State, b: Body)
    requires b.ArgumentsDelta?
    ensures OpensWell(s, b, C.ArgumentsArrive(s, ItemKey(b.ref), b.callId, b.itemId, b.name, b.delta).out)
  {
    BlankTrims();
    var key := ItemKey(b.ref);
    var t := C.Ensure(s, key, C.ToolUse);
    var a := C.OpenTool(C.Update(t, key, C.NameTool(t.blocks[key], b.callId, b.itemId, b.name)), key);
    assert forall c :: c in C.Delta(a.state, key, InputChunk(b.delta)).out ==> c.BlockChunk?;
    assert OpensWell(s, b, a.out);
  }

  lemma LateOpensWell(s: C.State, ref: ItemRef, item: Item) returns (a: C.Emit)
    requires item.kind.ToolItem?
    ensures a == C.OpenLate(s, ItemKey(ref), item) && OpensWell(s, ItemDone(ref, item), a.out)
    ensures ItemKey(ref) in a.state.blocks
  {
    BlankTrims();
    a := C.OpenLate(s, ItemKey(ref), item);
  }

  lemma CompletingOpensNothing(s: C.State, key: Key, item: Item) returns (b: C.Emit, c: C.Emit)
    requires key in s.blocks
    ensures b == C.CompleteBlock(s, key, item) && c == C.Close(b.state, key)
    ensures forall v :: v in b.out + c.out ==> !v.BlockStart?
  {
    b := C.CompleteBlock(s, key, item);
    c := C.Close(b.state, key);
  }

  lemma DoneOpensWell(s: C.State, ref: ItemRef, item: Item)
    requires item.kind.ToolItem?
    ensures OpensWell(s, ItemDone(ref, item), C.CompleteItem(s, ref, item).out)
  {
    var a := LateOpensWell(s, ref, item);
    var b, c := CompletingOpensNothing(a.state, ItemKey(ref), item);
  }

  /** In every state: a block that an event of a tool opens bears its index and these names. */
  lemma OpeningNames(s: C.State, b: Body)
    requires OfTool(b)
    ensures OpensWell(s, b, C.Content(s, b).out)
  {
    if b.ItemAdded? {
      AddedOpensWell(s, b.ref, b.item);
      return;
    }
    if b.ArgumentsDelta? {
      DeltaOpensWell(s, b);
      return;
    }
    DoneOpensWell(s, b.ref, b.item);
  }

  // ---- The end of a Claude message ----

  predicate HasTool(s: C.State) {
    exists k :: k in s.blocks && s.blocks[k].kind == C.ToolUse
  }

  /** The two last events, whatever was closed before. */
  predicate EndsWith(out: seq<ClaudeEvent>, r: Response, tools: bool) {
    && |out| >= 2 && out[|out| - 1] == MessageStop && out[|out| - 2].MessageDelta?
    && StopTells(r.incomplete, tools, out[|out| - 2].stop)
    && out[|out| - 2].outputTokens.Number? && Counts(r.usage.outputTokens, out[|out| - 2].outputTokens.n)
  }

  lemma {:induction false} FinishEnds(s: C.State, r: Response, order: seq<Key>) returns (b: C.Emit)
    requires !s.stopped
    ensures b == C.Finish(s, r, order) && EndsWith(b.out, r, HasTool(s))
  {
    b := C.Finish(s, r, order);
  }

  lemma EndsLater(a: seq<ClaudeEvent>, out: seq<ClaudeEvent>, r: Response, tools: bool)
    requires EndsWith(out, r, tools)
    ensures EndsWith(a + out, r, tools)
  {
  }

  /** In every unfinished state, a terminal event that is no failure ends the message with message_delta
      and message_stop: the reason its response gives or, without one, whether there was a tool block,
      and its output tokens. */
  lemma {:induction false} MessageEnds(s: C.State, e: Event, order: seq<Key>)
    requires !s.stopped && IsTerminal(e.body) && Fatal(Data(e), s.stopped).None?
    ensures EndsWith(C.Step(s, Data(e), order).out, ResponseOf(e), HasTool(s))
  {
    ClaudeStepFails(s, Data(e), order);
    var a := C.Start(s, e);
    var b := FinishEnds(a.state, ResponseOf(e), order);
    EndsLater(a.out, b.out, ResponseOf(e), HasTool(s));
  }
}
