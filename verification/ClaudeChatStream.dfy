/** The Claude-to-Chat translator in its own form, proved against `ClaudeToChat`. */
module ClaudeChatStream {
  import opened Text
  import opened Responses
  import opened Claude
  import opened Chat
  import opened ClaudeToChat

  class ClaudeChatTranslator {
    var started: bool
    var stopped: bool
    var id: string
    var model: string
    var inputTokens: Field
    var outputTokens: Field
    var nextTool: nat
    var hasToolCalls: bool
    var blocks: map<BlockRef, Block>

    ghost function View(): State
      reads this
    {
      State(started, stopped, id, model, inputTokens, outputTokens, nextTool, hasToolCalls, blocks)
    }

    constructor (model: string)
      ensures View() == Init(model)
    {
      started, stopped, id, this.model := false, false, "chatcmpl-copilot", model;
      inputTokens, outputTokens, nextTool, hasToolCalls, blocks := Absent, Absent, 0, false, map[];
    }

    function ChunkNow(d: ChatDelta): Chunk
      reads this
    {
      Chunk(id, model, 0, d, None, None)
    }

    method Begin() returns (out: seq<Chunk>)
      modifies this
      ensures View() == Start(old(View())).state && out == Start(old(View())).out
    {
      out := [];
      if !started {
        started := true;
        out := [ChunkNow(Role)];
      }
    }

    /** `block`. */
    method BlockFor(index: nat, indexed: bool, kind: BlockKind) returns (b: Block)
      modifies this
      ensures var ref := RefOf(old(View()), index, indexed, kind);
              View() == Ensure(old(View()), ref, kind) && b == View().blocks[ref]
    {
      var key := if indexed then At(index) else MadeUp(kind, |blocks|);
      if key in blocks {
        return blocks[key];
      }
      b := Block(kind, 0);
      if kind == ToolUse {
        b := b.(toolIndex := nextTool);
        nextTool := nextTool + 1;
      }
      blocks := blocks[key := b];
    }

    method FinishWith(stop: StopReason) returns (out: seq<Chunk>)
      modifies this
      ensures View() == Finish(old(View()), stop).state && out == Finish(old(View()), stop).out
    {
      if stopped {
        return [];
      }
      stopped := true;
      var usage := ChatUsage(NumberValue(inputTokens), NumberValue(outputTokens),
                             NumberValue(inputTokens) + NumberValue(outputTokens), None, None);
      out := [Chunk(id, model, 0, Nothing, Some(ClaudeFinish(stop, hasToolCalls)), Some(usage))];
    }

    method EmitText(d: ChatDelta, text: string) returns (out: seq<Chunk>)
      ensures out == Spoken(View(), d, text)
    {
      out := if text == "" then [] else [ChunkNow(d)];
    }

    method OpenEvent(index: nat, indexed: bool, block: ContentBlock) returns (out: seq<Chunk>)
      modifies this
      ensures View() == OpenBlock(old(View()), index, indexed, block).state
      ensures out == OpenBlock(old(View()), index, indexed, block).out
    {
      out := [];
      match block {
        case TextBlock(t) =>
          var _ := BlockFor(index, indexed, Prose);
          out := EmitText(Say(t), t);
        case ThinkingBlock(t) =>
          var _ := BlockFor(index, indexed, Thinking);
          out := EmitText(Reason(t), t);
        case RedactedBlock(_) =>
          var _ := BlockFor(index, indexed, Thinking);
        case ToolUseBlock(toolId, altId, name) =>
          var b := BlockFor(index, indexed, ToolUse);
          hasToolCalls := true;
          out := [ChunkNow(Call(b.toolIndex, FirstOf(toolId, altId), Trim(name)))];
        case UnknownBlock =>
      }
    }

    method ExtendEvent(index: nat, indexed: bool, delta: BlockDelta) returns (out: seq<Chunk>)
      modifies this
      ensures View() == Extend(old(View()), index, indexed, delta).state
      ensures out == Extend(old(View()), index, indexed, delta).out
    {
      out := [];
      match delta {
        case TextChunk(t) => out := EmitText(Say(t), t);
        case ThinkingChunk(t) => out := EmitText(Reason(t), t);
        case InputChunk(partial) =>
          if partial != "" {
            var b := BlockFor(index, indexed, ToolUse);
            hasToolCalls := true;
            out := [ChunkNow(Argue(b.toolIndex, partial))];
          }
        case _ =>
      }
    }

    /** `claudeStreamToOpenAI`: one frame. */
    method Translate(f: Arrival) returns (out: seq<Chunk>, error: Option<Failure>)
      modifies this
      ensures Outcome(View(), out, error) == Step(old(View()), f)
    {
      out, error := [], None;
      match f {
        case Garbled => error := Some(InvalidJson);
        case Quiet =>
        case Arrived(e, indexed) =>
          var more: seq<Chunk>;
          match e {
            case StreamError(message) =>
              error := Some(UpstreamFailed(FirstOf(message, "unknown upstream stream error")));
            case MessageStart(newId, newModel, input) =>
              id, model, inputTokens := FirstOf(newId, id), FirstOf(newModel, model), input;
              out := Begin();
            case BlockStart(i, block) =>
              out := Begin();
              more := OpenEvent(i, indexed, block);
              out := out + more;
            case BlockChunk(i, delta) =>
              out := Begin();
              more := ExtendEvent(i, indexed, delta);
              out := out + more;
            case MessageDelta(stop, output) =>
              out := Begin();
              if !output.Absent? {
                outputTokens := output;
              }
              more := FinishWith(stop);
              out := out + more;
            case MessageStop =>
              out := Begin();
              more := FinishWith(StopOther);
              out := out + more;
            case _ =>
          }
      }
    }
  }
}
