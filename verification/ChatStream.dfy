/** The Responses-to-Chat translator in its own form, proved against `ResponsesToChat`. */
module ChatStream {
  import opened Text
  import opened Responses
  import opened Chat
  import opened ResponsesToChat

  class ToolCell {
    const toolIndex: nat
    var announced: bool
    var sawDelta: bool
    var callId: string
    var name: string

    constructor (toolIndex: nat)
      ensures View() == Entry(toolIndex, false, false, "", "")
    {
      this.toolIndex := toolIndex;
      announced, sawDelta, callId, name := false, false, "", "";
    }

    ghost function View(): Entry
      reads this
    {
      Entry(toolIndex, announced, sawDelta, callId, name)
    }
  }

  class ResponsesChatStream {
    var started: bool
    var stopped: bool
    var id: string
    var model: string
    var created: int
    var nextTool: nat
    var hasToolCalls: bool
    var items: map<ItemRef, ToolCell>

    /** No two items share a record. */
    ghost predicate Valid()
      reads this
    {
      forall r, q :: r in items && q in items && items[r] == items[q] ==> r == q
    }

    ghost function View(): State
      reads this, items.Values
    {
      State(started, stopped, id, model, created, nextTool, hasToolCalls, map r | r in items :: items[r].View())
    }

    constructor (model: string)
      ensures Valid() && View() == Init(model)
    {
      started, stopped, id, this.model, created := false, false, "chatcmpl-copilot", model, 0;
      nextTool, hasToolCalls, items := 0, false, map[];
    }

    function ChunkNow(d: ChatDelta): Chunk
      reads this
    {
      Chunk(id, model, created, d, None, None)
    }

    method Begin(e: Event) returns (out: seq<Chunk>)
      requires Valid()
      modifies this
      ensures Valid() && items == old(items)
      ensures View() == Start(old(View()), e).state && out == Start(old(View()), e).out
    {
      if started {
        return [];
      }
      started := true;
      id := FirstOf3(ResponseOf(e).id, e.responseId, "chatcmpl-copilot");
      model := FirstOf(ResponseOf(e).model, model);
      created := NumberValue(ResponseOf(e).createdAt);
      out := [ChunkNow(Role)];
    }

    method ItemFor(ref: ItemRef) returns (c: ToolCell)
      requires Valid()
      modifies this
      ensures Valid() && View() == Ensure(old(View()), ref)
      ensures ref in items && items[ref] == c && items == old(items)[ref := c]
      ensures c in old(items.Values) || fresh(c)
      ensures c.View() == EntryOf(old(View()), ref)
    {
      if ref in items {
        c := items[ref];
        assert items[ref := c] == items;
        return;
      }
      c := new ToolCell(nextTool);
      nextTool := nextTool + 1;
      items := items[ref := c];
      assert View().items == old(View()).items[ref := Entry(old(nextTool), false, false, "", "")];
    }

    /** Writing to the record of one item changes that item's entry and no other. */
    twostate lemma {:induction false} CellWritten(ref: ItemRef)
      requires old(Valid()) && ref in old(items)
      requires items == old(items)
      requires forall r :: r in items && r != ref ==> unchanged(items[r])
      ensures Valid() && View().items == old(View()).items[ref := items[ref].View()]
    {
    }

    method Name(ref: ItemRef, callId: string, name: string) returns (c: ToolCell)
      requires Valid()
      modifies this, items.Values
      ensures Valid() && View() == Named(old(View()), ref, callId, name)
      ensures ref in items && items[ref] == c && items == old(items)[ref := c]
      ensures c in old(items.Values) || fresh(c)
    {
      c := ItemFor(ref);
      label found:
      c.callId, c.name := callId, name;
      CellWritten@found(ref);
    }

    method AnnounceTool(ghost ref: ItemRef, c: ToolCell) returns (out: seq<Chunk>)
      requires Valid() && ref in items && items[ref] == c
      modifies this, c
      ensures Valid() && items == old(items)
      ensures View() == Announce(old(View()), ref).state && out == Announce(old(View()), ref).out
    {
      if c.announced {
        return [];
      }
      c.announced := true;
      hasToolCalls := true;
      CellWritten(ref);
      out := [ChunkNow(Call(c.toolIndex, c.callId, c.name))];
    }

    method EmitArguments(ghost ref: ItemRef, c: ToolCell, text: string) returns (out: seq<Chunk>)
      requires Valid() && ref in items && items[ref] == c
      modifies c
      ensures Valid()
      ensures View() == Arguments(old(View()), ref, text).state && out == Arguments(old(View()), ref, text).out
    {
      if text == "" {
        return [];
      }
      c.sawDelta := true;
      CellWritten(ref);
      out := [ChunkNow(Argue(c.toolIndex, text))];
    }

    method EmitText(d: ChatDelta, text: string) returns (out: seq<Chunk>)
      requires Valid()
      ensures out == Spoken(View(), d, text).out
    {
      out := if text == "" then [] else [ChunkNow(d)];
    }

    method AddToolEvent(ref: ItemRef, item: Item) returns (out: seq<Chunk>)
      requires Valid() && item.kind.ToolItem?
      modifies this, items.Values
      ensures Valid() && View() == AddItem(old(View()), ref, item).state && out == AddItem(old(View()), ref, item).out
    {
      out := [];
      var seen := ItemFor(ref);
      var c := Name(ref, FirstOf(CallIdOf(item), seen.callId), FirstOf(item.name, seen.name));
      if c.name != "" {
        out := AnnounceTool(ref, c);
      }
    }

    method ArgumentsEvent(ref: ItemRef, callId: string, itemId: string, name: string, text: string)
      returns (out: seq<Chunk>)
      requires Valid()
      modifies this, items.Values
      ensures Valid() && View() == ArgumentsArrive(old(View()), ref, callId, itemId, name, text).state
      ensures out == ArgumentsArrive(old(View()), ref, callId, itemId, name, text).out
    {
      var seen := ItemFor(ref);
      var c := Name(ref, FirstOf3(seen.callId, callId, itemId), FirstOf(seen.name, name));
      out := AnnounceTool(ref, c);
      var more := EmitArguments(ref, c, text);
      out := out + more;
    }

    method ToolDoneEvent(ref: ItemRef, item: Item) returns (out: seq<Chunk>)
      requires Valid()
      modifies this, items.Values
      ensures Valid() && View() == CompleteTool(old(View()), ref, item).state
      ensures out == CompleteTool(old(View()), ref, item).out
    {
      var seen := ItemFor(ref);
      var c := Name(ref, FirstOf(seen.callId, CallIdOf(item)), FirstOf(seen.name, item.name));
      out := AnnounceTool(ref, c);
      if !c.sawDelta {
        var more := EmitArguments(ref, c, RawArguments(item));
        out := out + more;
      }
    }

    method PartEvent(p: Part) returns (out: seq<Chunk>)
      requires Valid()
      ensures out == AddPart(View(), p).out
    {
      match p.kind {
        case TextPart => out := EmitText(Say(p.text), p.text);
        case RefusalPart => out := EmitText(Refuse(p.refusal), p.refusal);
        case OtherPart => out := [];
      }
    }

    method DoneEvent(ref: ItemRef, item: Item) returns (out: seq<Chunk>)
      requires Valid()
      modifies this, items.Values
      ensures Valid() && View() == CompleteItem(old(View()), ref, item).state
      ensures out == CompleteItem(old(View()), ref, item).out
    {
      match item.kind {
        case ReasoningItem =>
          if ref in items && items[ref].sawDelta {
            return [];
          }
          out := EmitText(Reason(ReasoningText(item)), ReasoningText(item));
        case ToolItem =>
          out := ToolDoneEvent(ref, item);
        case _ =>
          out := [];
      }
    }

    /** The events of a whole item, and the arguments of a tool. */
    method ItemEvent(b: Body) returns (out: seq<Chunk>)
      requires Valid() && (b.ItemAdded? || b.ArgumentsDelta? || b.ItemDone?)
      modifies this, items.Values
      ensures Valid() && View() == Content(old(View()), b).state && out == Content(old(View()), b).out
    {
      if b.ArgumentsDelta? {
        out := ArgumentsEvent(b.ref, b.callId, b.itemId, b.name, b.delta);
        return;
      }
      if b.ItemDone? {
        out := DoneEvent(b.ref, b.item);
        return;
      }
      if !b.item.kind.ToolItem? {
        return [];
      }
      out := AddToolEvent(b.ref, b.item);
    }

    /** The event switch. */
    method ContentEvent(b: Body) returns (out: seq<Chunk>)
      requires Valid()
      modifies this, items.Values
      ensures Valid() && View() == Content(old(View()), b).state && out == Content(old(View()), b).out
    {
      if b.ItemAdded? || b.ArgumentsDelta? || b.ItemDone? {
        out := ItemEvent(b);
      } else {
        out := TextEvent(b);
      }
    }

    /** The events that only carry text; all others say nothing. */
    method TextEvent(b: Body) returns (out: seq<Chunk>)
      requires Valid() && !b.ItemAdded? && !b.ArgumentsDelta? && !b.ItemDone?
      ensures Emit(View(), out) == Content(View(), b)
    {
      match b {
        case PartAdded(_, _, p) => out := PartEvent(p);
        case TextDelta(_, _, text) => out := EmitText(Say(text), text);
        case RefusalDelta(_, _, text) => out := EmitText(Refuse(text), text);
        case ReasoningDelta(_, text) => out := EmitText(Reason(text), text);
        case _ => out := [];
      }
    }

    method FinishMessage(r: Response) returns (out: seq<Chunk>)
      requires Valid()
      modifies this
      ensures Valid() && items == old(items)
      ensures View() == Finish(old(View()), r).state && out == Finish(old(View()), r).out
    {
      if stopped {
        return [];
      }
      stopped := true;
      out := [Chunk(id, model, created, Nothing, Some(FinishOf(r.incomplete, hasToolCalls)), Some(UsageOf(r.usage)))];
    }

    /** `responsesStreamToOpenAI`: one frame. */
    method Translate(f: Frame) returns (out: seq<Chunk>, error: Option<Failure>)
      requires Valid()
      modifies this, items.Values
      ensures Valid() && Outcome(View(), out, error) == Step(old(View()), f)
    {
      out, error := [], None;
      match f {
        case Malformed => error := Some(InvalidJson);
        case Sentinel => error := if stopped then None else Some(EndedEarly);
        case NoData =>
        case Data(e) =>
          if e.body.Failing? {
            error := Some(UpstreamFailed(FirstOf(e.body.message, "unknown upstream stream error")));
            return;
          }
          if IsResponseEvent(e.body) {
            out := Begin(e);
          }
          if e.body.Completed? && FailureOf(ResponseOf(e)).Some? {
            out, error := [], FailureOf(ResponseOf(e));
            return;
          }
          var more: seq<Chunk>;
          if IsTerminal(e.body) {
            more := FinishMessage(ResponseOf(e));
          } else {
            more := ContentEvent(e.body);
          }
          out := out + more;
      }
    }
  }
}
