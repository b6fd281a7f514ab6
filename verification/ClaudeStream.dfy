/** The Responses-to-Claude translator in its own form: an object with flags and a map of block
    records, updated frame by frame. Every method is proved against `ResponsesToClaude`. */
module ClaudeStream {
  import opened Text
  import opened Responses
  import opened Claude
  import opened ResponsesToClaude

  class BlockCell {
    const index: nat
    const kind: BlockKind
    var open: bool
    var sawDelta: bool
    var accumulated: string
    var encrypted: string
    var functionId: string
    var functionName: string

    constructor (index: nat, kind: BlockKind)
      ensures View() == FreshBlock(index, kind)
    {
      this.index, this.kind := index, kind;
      open, sawDelta := false, false;
      accumulated, encrypted, functionId, functionName := "", "", "", "";
    }

    ghost function View(): Block
      reads this
    {
      Block(index, kind, open, sawDelta, accumulated, encrypted, functionId, functionName)
    }
  }

  class ResponsesClaudeStream {
    var started: bool
    var stopped: bool
    var messageId: string
    var model: string
    var nextBlock: nat
    var blocks: map<Key, BlockCell>

    /** No two keys share a record. */
    ghost predicate Valid()
      reads this
    {
      forall k, l :: k in blocks && l in blocks && blocks[k] == blocks[l] ==> k == l
    }

    ghost function View(): State
      reads this, blocks.Values
    {
      State(started, stopped, messageId, model, nextBlock, map k | k in blocks :: blocks[k].View())
    }

    constructor (model: string)
      ensures Valid() && View() == Init(model)
    {
      started, stopped, messageId, this.model, nextBlock, blocks := false, false, "", model, 0, map[];
    }

    method Begin(e: Event) returns (out: seq<ClaudeEvent>)
      requires Valid()
      modifies this
      ensures Valid() && blocks == old(blocks)
      ensures View() == Start(old(View()), e).state && out == Start(old(View()), e).out
    {
      if started {
        return [];
      }
      started := true;
      messageId := FirstOf3(ResponseOf(e).id, e.responseId, "msg_copilot");
      model := FirstOf(ResponseOf(e).model, model);
      out := [MessageStart(messageId, model, Number(NumberValue(ResponseOf(e).usage.inputTokens)))];
    }

    method BlockFor(key: Key, kind: BlockKind) returns (b: BlockCell)
      requires Valid()
      modifies this
      ensures Valid() && View() == Ensure(old(View()), key, kind)
      ensures key in blocks && blocks[key] == b
      ensures b in old(blocks.Values) || fresh(b)
      ensures blocks == old(blocks)[key := b]
    {
      if key in blocks {
        b := blocks[key];
        assert blocks[key := b] == blocks;
        return;
      }
      b := new BlockCell(nextBlock, kind);
      nextBlock := nextBlock + 1;
      blocks := blocks[key := b];
      assert View().blocks == old(View()).blocks[key := FreshBlock(old(nextBlock), kind)];
    }

    /** Writing to the record of one key changes that key's block and no other. */
    twostate lemma {:induction false} CellWritten(key: Key)
      requires old(Valid()) && key in old(blocks)
      requires unchanged(this)
      requires forall k :: k in blocks && k != key ==> unchanged(blocks[k])
      ensures Valid() && View() == Update(old(View()), key, blocks[key].View())
    {
      assert View().blocks == old(View()).blocks[key := blocks[key].View()];
    }

    method OpenBlock(ghost key: Key, b: BlockCell, content: ContentBlock) returns (out: seq<ClaudeEvent>)
      requires Valid() && key in blocks && blocks[key] == b
      modifies b
      ensures Valid() && View() == Open(old(View()), key, content).state
      ensures out == Open(old(View()), key, content).out
    {
      if b.open {
        return [];
      }
      b.open := true;
      CellWritten(key);
      out := [BlockStart(b.index, content)];
    }

    method DeltaTo(ghost key: Key, b: BlockCell, d: BlockDelta) returns (out: seq<ClaudeEvent>)
      requires Valid() && key in blocks && blocks[key] == b
      modifies b
      ensures Valid() && View() == Delta(old(View()), key, d).state
      ensures out == Delta(old(View()), key, d).out
    {
      if DeltaText(d) == "" {
        return [];
      }
      b.sawDelta := true;
      b.accumulated := b.accumulated + DeltaText(d);
      CellWritten(key);
      out := [BlockChunk(b.index, d)];
    }

    method CloseBlock(key: Key) returns (out: seq<ClaudeEvent>)
      requires Valid()
      modifies blocks.Values
      ensures Valid() && View() == Close(old(View()), key).state
      ensures out == Close(old(View()), key).out
    {
      if key !in blocks || !blocks[key].open {
        return [];
      }
      blocks[key].open := false;
      CellWritten(key);
      out := [BlockStop(blocks[key].index)];
    }

    method SetEncrypted(ghost key: Key, b: BlockCell, encrypted: string)
      requires Valid() && key in blocks && blocks[key] == b
      modifies b
      ensures Valid()
      ensures View() == Update(old(View()), key, old(View()).blocks[key].(encrypted := encrypted))
    {
      b.encrypted := encrypted;
      CellWritten(key);
    }

    method SetFunction(ghost key: Key, b: BlockCell, id: string, name: string)
      requires Valid() && key in blocks && blocks[key] == b
      modifies b
      ensures Valid()
      ensures View() == Update(old(View()), key, old(View()).blocks[key].(functionId := id, functionName := name))
    {
      b.functionId, b.functionName := id, name;
      CellWritten(key);
    }

    /** The loop of `finish`: the map is walked in whatever order, which `order` records. */
    method CloseEvery() returns (out: seq<ClaudeEvent>, hasToolUse: bool, ghost order: seq<Key>)
      requires Valid()
      modifies blocks.Values
      ensures Valid()
      ensures forall k :: k in order <==> k in blocks
      ensures View() == CloseAll(old(View()), order).state && out == CloseAll(old(View()), order).out
      ensures hasToolUse <==> HasToolUse(old(View()))
    {
      out, hasToolUse, order := [], false, [];
      var remaining := blocks.Keys;
      while remaining != {}
        invariant Valid() && remaining <= blocks.Keys
        invariant forall k :: k in order <==> k in blocks && k !in remaining
        invariant View() == CloseAll(old(View()), order).state && out == CloseAll(old(View()), order).out
        invariant hasToolUse <==> exists k :: k in blocks && k !in remaining && blocks[k].kind == ToolUse
        decreases remaining
      {
        var key :| key in remaining;
        remaining := remaining - {key};
        CloseAllMore(old(View()), order, key);
        hasToolUse := hasToolUse || blocks[key].kind == ToolUse;
        var stops := CloseBlock(key);
        out := out + stops;
        order := order + [key];
      }
      assert forall k :: k in blocks ==> old(View()).blocks[k].kind == blocks[k].kind;
    }

    /** `finish`. */
    method FinishMessage(r: Response) returns (out: seq<ClaudeEvent>, ghost order: seq<Key>)
      requires Valid()
      modifies this, blocks.Values
      ensures Valid() && blocks == old(blocks)
      ensures !old(stopped) ==> forall k :: k in order <==> k in old(blocks)
      ensures View() == Finish(old(View()), r, order).state && out == Finish(old(View()), r, order).out
    {
      out, order := [], [];
      if stopped {
        return;
      }
      var hasToolUse: bool;
      out, hasToolUse, order := CloseEvery();
      out := out + [MessageDelta(StopReasonOf(r.incomplete, hasToolUse), Number(NumberValue(r.usage.outputTokens))),
                    MessageStop];
      stopped := true;
    }

    method TextEvent(key: Key, text: string) returns (out: seq<ClaudeEvent>)
      requires Valid()
      modifies this, blocks.Values
      ensures Valid() && View() == TextArrives(old(View()), key, text).state
      ensures out == TextArrives(old(View()), key, text).out
    {
      var block := BlockFor(key, Prose);
      out := OpenBlock(key, block, TextBlock(""));
      var more := DeltaTo(key, block, TextChunk(text));
      out := out + more;
    }

    method ReasoningEvent(key: Key, text: string) returns (out: seq<ClaudeEvent>)
      requires Valid()
      modifies this, blocks.Values
      ensures Valid() && View() == ReasoningArrives(old(View()), key, text).state
      ensures out == ReasoningArrives(old(View()), key, text).out
    {
      var block := BlockFor(key, Thinking);
      out := OpenBlock(key, block, ThinkingContent(block.encrypted));
      var more := DeltaTo(key, block, ThinkingChunk(text));
      out := out + more;
    }

    method ArgumentsEvent(key: Key, callId: string, itemId: string, name: string, text: string)
      returns (out: seq<ClaudeEvent>)
      requires Valid()
      modifies this, blocks.Values
      ensures Valid() && View() == ArgumentsArrive(old(View()), key, callId, itemId, name, text).state
      ensures out == ArgumentsArrive(old(View()), key, callId, itemId, name, text).out
    {
      var block := BlockFor(key, ToolUse);
      SetFunction(key, block,
                  if block.functionId == "" then FirstOf(callId, itemId) else block.functionId,
                  if block.functionName == "" then Trim(name) else block.functionName);
      out := OpenBlock(key, block, ToolUseBlock(block.functionId, "", block.functionName));
      var more := DeltaTo(key, block, InputChunk(text));
      out := out + more;
    }

    method AddItemEvent(ref: ItemRef, item: Item) returns (out: seq<ClaudeEvent>)
      requires Valid()
      modifies this, blocks.Values
      ensures Valid() && View() == AddItem(old(View()), ref, item).state
      ensures out == AddItem(old(View()), ref, item).out
    {
      out := [];
      var key := ItemKey(ref);
      match item.kind {
        case ReasoningItem =>
          var block := BlockFor(key, Thinking);
          SetEncrypted(key, block, Trim(item.encrypted));
          out := OpenBlock(key, block, ThinkingContent(block.encrypted));
        case ToolItem =>
          var block := BlockFor(key, ToolUse);
          SetFunction(key, block, CallIdOf(item), Trim(item.name));
          out := OpenBlock(key, block, ToolUseBlock(block.functionId, "", block.functionName));
        case _ =>
      }
    }

    /** Records in the map are the ones there before, or new. */
    twostate predicate NoForeignCells()
      reads this
    {
      forall k :: k in blocks ==> blocks[k] in old(blocks.Values) || fresh(blocks[k])
    }

    method LateReasoning(key: Key) returns (out: seq<ClaudeEvent>)
      requires Valid()
      modifies this, blocks.Values
      ensures Valid() && NoForeignCells()
      ensures View() == OpenThinking(Ensure(old(View()), key, Thinking), key).state
      ensures out == OpenThinking(Ensure(old(View()), key, Thinking), key).out
    {
      var block := BlockFor(key, Thinking);
      out := OpenBlock(key, block, ThinkingContent(block.encrypted));
    }

    method LateTool(key: Key, item: Item) returns (out: seq<ClaudeEvent>)
      requires Valid() && key !in blocks && item.kind.ToolItem?
      modifies this, blocks.Values
      ensures Valid() && NoForeignCells()
      ensures View() == OpenLate(old(View()), key, item).state
      ensures out == OpenLate(old(View()), key, item).out
    {
      var block := BlockFor(key, ToolUse);
      SetFunction(key, block, CallIdOf(item), Trim(item.name));
      out := OpenBlock(key, block, ToolUseBlock(block.functionId, "", block.functionName));
    }

    method LateItem(key: Key, item: Item) returns (out: seq<ClaudeEvent>)
      requires Valid()
      modifies this, blocks.Values
      ensures Valid() && NoForeignCells()
      ensures View() == OpenLate(old(View()), key, item).state
      ensures out == OpenLate(old(View()), key, item).out
    {
      out := [];
      if key in blocks {
        return;
      }
      match item.kind {
        case ReasoningItem => out := LateReasoning(key);
        case ToolItem => out := LateTool(key, item);
        case _ =>
      }
    }

    method CompleteCell(ghost key: Key, block: BlockCell, item: Item) returns (out: seq<ClaudeEvent>)
      requires Valid() && key in blocks && blocks[key] == block
      modifies block
      ensures Valid() && View() == CompleteBlock(old(View()), key, item).state
      ensures out == CompleteBlock(old(View()), key, item).out
    {
      out := [];
      match block.kind {
        case Thinking =>
          if !block.sawDelta {
            out := DeltaTo(key, block, ThinkingChunk(ReasoningText(item)));
          }
          SetEncrypted(key, block, FirstOf(item.encrypted, block.encrypted));
          if !HasPrefix(block.encrypted, REDACTED_PREFIX) {
            var signature := DeltaTo(key, block, SignatureChunk(block.encrypted));
            out := out + signature;
          }
        case ToolUse =>
          if !block.sawDelta {
            out := DeltaTo(key, block, InputChunk(RawArguments(item)));
          }
        case Prose =>
      }
    }

    method DoneEvent(ref: ItemRef, item: Item) returns (out: seq<ClaudeEvent>)
      requires Valid()
      modifies this, blocks.Values
      ensures Valid() && View() == CompleteItem(old(View()), ref, item).state
      ensures out == CompleteItem(old(View()), ref, item).out
    {
      var key := ItemKey(ref);
      out := LateItem(key, item);
      if key in blocks {
        var more := CompleteCell(key, blocks[key], item);
        var stops := CloseBlock(key);
        out := out + (more + stops);
      }
    }

    /** The events that bring reasoning or arguments. */
    method DeltaEvent(b: Body) returns (out: seq<ClaudeEvent>)
      requires Valid() && (b.ReasoningDelta? || b.ArgumentsDelta?)
      modifies this, blocks.Values
      ensures Valid() && View() == Content(old(View()), b).state && out == Content(old(View()), b).out
    {
      if b.ReasoningDelta? {
        out := ReasoningEvent(ItemKey(b.ref), b.delta);
        return;
      }
      out := ArgumentsEvent(ItemKey(b.ref), b.callId, b.itemId, b.name, b.delta);
    }

    /** The event switch. */
    method ContentEvent(b: Body) returns (out: seq<ClaudeEvent>)
      requires Valid()
      modifies this, blocks.Values
      ensures Valid() && View() == Content(old(View()), b).state && out == Content(old(View()), b).out
    {
      if b.ReasoningDelta? || b.ArgumentsDelta? {
        out := DeltaEvent(b);
        return;
      }
      if b.TextDelta? || b.RefusalDelta? {
        out := TextEvent(ContentKey(b.ref, b.part), b.delta);
        return;
      }
      out := EdgeEvent(b);
    }

    /** The events that begin or end an item or a part. */
    method EdgeEvent(b: Body) returns (out: seq<ClaudeEvent>)
      requires Valid() && !(b.TextDelta? || b.RefusalDelta? || b.ReasoningDelta? || b.ArgumentsDelta?)
      modifies this, blocks.Values
      ensures Valid() && View() == Content(old(View()), b).state && out == Content(old(View()), b).out
    {
      match b {
        case ItemAdded(ref, item) =>
          out := AddItemEvent(ref, item);
        case PartAdded(ref, part, p) =>
          if p.kind.OtherPart? {
            return [];
          }
          out := TextEvent(ContentKey(ref, part), RawPartText(p));
        case PartDone(ref, part) =>
          out := CloseBlock(ContentKey(ref, part));
        case ItemDone(ref, item) =>
          out := DoneEvent(ref, item);
        case _ =>
          out := [];
      }
    }

    /** `responsesStreamToClaude`: one frame. When it ends the message, `order` is the order in which
        the block map was walked. */
    method Translate(f: Frame) returns (out: seq<ClaudeEvent>, error: Option<Failure>, ghost order: seq<Key>)
      requires Valid()
      modifies this, blocks.Values
      ensures Valid()
      ensures Outcome(View(), out, error) == Step(old(View()), f, order)
      ensures f.Data? && IsTerminal(f.event.body) && error.None? && !old(stopped) ==>
                forall k :: k in order <==> k in old(blocks)
    {
      out, error, order := [], None, [];
      match f {
        case Malformed => error := Some(InvalidJson);
        case Sentinel => error := if stopped then None else Some(EndedEarly);
        case NoData =>
        case Data(e) =>
          if e.body.Failing? {
            error := Some(UpstreamFailed(FirstOf(e.body.message, "unknown upstream stream error")));
            return;
          }
          if Starts(e) {
            out := Begin(e);
          }
          if e.body.Completed? && FailureOf(ResponseOf(e)).Some? {
            out, error := [], FailureOf(ResponseOf(e));
            return;
          }
          var more: seq<ClaudeEvent>;
          if IsTerminal(e.body) {
            more, order := FinishMessage(ResponseOf(e));
          } else {
            more := ContentEvent(e.body);
          }
          out := out + more;
      }
    }
  }

  lemma {:induction false} CloseAllMore(s: State, order: seq<Key>, key: Key)
    ensures var before := CloseAll(s, order);
            var last := Close(before.state, key);
            CloseAll(s, order + [key]) == Emit(last.state, before.out + last.out)
    decreases |order|
  {
    if order == [] {
      NothingAfter(key);
      EmptyEnds([key]);
    } else {
      assert (order + [key])[0] == order[0] && (order + [key])[1..] == order[1..] + [key];
      CloseAllMore(Close(s, order[0]).state, order[1..], key);
    }
  }
}
