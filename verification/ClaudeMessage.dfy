/** A Claude message put together in two ways. */
module ClaudeMessage {
  import opened Text
  import opened Responses
  import opened Claude

  // By a client from the stream's events, and by `responsesResponseToClaude` from the whole response.

  /** A finished content block; a tool's arguments are the text its JSON is parsed from. */
  datatype FinalBlock =
    | TextFinal(text: string)
    | ThinkingFinal(thinking: string, signature: string)
    | RedactedFinal(data: string)
    | ToolFinal(id: string, name: string, arguments: string)
    | UnknownFinal

  // ---- A client of the stream ----

  datatype Draft = Draft(block: ContentBlock, text: string, thinking: string, signature: string, partial: string)

  function NewDraft(block: ContentBlock): Draft {
    Draft(block, "", "", "", "")
  }

  datatype Assembly = Assembly(
    id: string, model: string, inputTokens: Field, drafts: seq<Draft>,
    stop: Option<StopReason>, outputTokens: Field, stopped: bool)

  const BLANK := Assembly("", "", Absent, [], None, Absent, false)

  function Extend(d: Draft, delta: BlockDelta): Draft {
    match delta
    case TextChunk(t) => d.(text := d.text + t)
    case ThinkingChunk(t) => d.(thinking := d.thinking + t)
    case SignatureChunk(t) => d.(signature := t)
    case InputChunk(t) => d.(partial := d.partial + t)
    case UnknownChunk => d
  }

  function Add(a: Assembly, e: ClaudeEvent): Assembly {
    match e
    case MessageStart(id, model, input) => a.(id := id, model := model, inputTokens := input)
    case BlockStart(i, block) => if i == |a.drafts| then a.(drafts := a.drafts + [NewDraft(block)]) else a
    case BlockChunk(i, delta) =>
      if i < |a.drafts| then a.(drafts := a.drafts[i := Extend(a.drafts[i], delta)]) else a
    case MessageDelta(stop, output) => a.(stop := Some(stop), outputTokens := output)
    case MessageStop => a.(stopped := true)
    case _ => a
  }

  function Assemble(a: Assembly, out: seq<ClaudeEvent>): Assembly
    decreases |out|
  {
    if out == [] then a else Assemble(Add(a, out[0]), out[1..])
  }

  lemma {:induction false} AssembleAppend(a: Assembly, x: seq<ClaudeEvent>, y: seq<ClaudeEvent>)
    ensures Assemble(a, x + y) == Assemble(Assemble(a, x), y)
    decreases |x|
  {
    if x == [] {
      EmptyEnds(y);
    } else {
      AppendHead(x, y);
      AssembleAppend(Add(a, x[0]), x[1..], y);
    }
  }

  function FinalOf(d: Draft): FinalBlock {
    match d.block
    case TextBlock(t) => TextFinal(t + d.text)
    case ThinkingBlock(t) => ThinkingFinal(t + d.thinking, d.signature)
    case RedactedBlock(data) => RedactedFinal(data)
    case ToolUseBlock(id, _, name) => ToolFinal(id, name, Trim(d.partial))
    case UnknownBlock => UnknownFinal
  }

  /** A draft as the whole translation would have written it: text trimmed, an empty unsigned
      thinking block left out. */
  function Settle(d: Draft): seq<FinalBlock> {
    match FinalOf(d)
    case TextFinal(t) => [TextFinal(Trim(t))]
    case ThinkingFinal(t, sig) => if t == "" && sig == "" then [] else [ThinkingFinal(t, sig)]
    case other => [other]
  }

  function SettleAll(drafts: seq<Draft>): seq<FinalBlock> {
    if drafts == [] then [] else Settle(drafts[0]) + SettleAll(drafts[1..])
  }

  lemma {:induction false} SettleAppend(x: seq<Draft>, y: seq<Draft>)
    ensures SettleAll(x + y) == SettleAll(x) + SettleAll(y)
    decreases |x|
  {
    if x == [] {
      EmptyEnds(y);
    } else {
      AppendHead(x, y);
      SettleAppend(x[1..], y);
    }
  }

  // ---- The whole response ----

  function WholeParts(parts: seq<Part>): seq<FinalBlock> {
    if parts == [] then []
    else
      (if parts[0].kind.OtherPart? then [] else [TextFinal(FirstOf(parts[0].text, parts[0].refusal))])
      + WholeParts(parts[1..])
  }

  function WholeItem(item: Item): seq<FinalBlock> {
    match item.kind
    case MessageItem => WholeParts(item.parts)
    case ReasoningItem =>
      var thinking, encrypted := ReasoningText(item), Trim(item.encrypted);
      if HasPrefix(encrypted, REDACTED_PREFIX) then [RedactedFinal(TrimPrefix(encrypted, REDACTED_PREFIX))]
      else if thinking != "" || encrypted != "" then [ThinkingFinal(thinking, encrypted)]
      else []
    case ToolItem => [ToolFinal(CallIdOf(item), Trim(item.name), FirstOf(item.arguments, item.input))]
    case OtherItem => []
  }

  function WholeBlocks(items: seq<Item>): seq<FinalBlock> {
    if items == [] then [] else WholeItem(items[0]) + WholeBlocks(items[1..])
  }

  predicate AnyTool(items: seq<Item>) {
    exists i :: 0 <= i < |items| && items[i].kind == ToolItem
  }

  // ---- Tool arguments as JSON ----

  datatype MessageContent<+J> =
    | SaidText(text: string)
    | SaidThinking(thinking: string, signature: string)
    | SaidRedacted(data: string)
    | SaidTool(id: string, name: string, input: J)

  function ParseInput<J>(json: Codec<J>, arguments: string): Result<J> {
    if arguments == "" then Ok(json.empty)
    else
      match json.decode(arguments)
      case None => Err(BadArguments)
      case Some(input) => Ok(input)
  }

  function DecodeOne<J>(json: Codec<J>, b: FinalBlock): Result<seq<MessageContent<J>>> {
    match b
    case TextFinal(t) => Ok([SaidText(t)])
    case ThinkingFinal(t, sig) => Ok([SaidThinking(t, sig)])
    case RedactedFinal(data) => Ok([SaidRedacted(data)])
    case ToolFinal(id, name, arguments) =>
      (match ParseInput(json, arguments)
       case Err(e) => Err(e)
       case Ok(input) => Ok([SaidTool(id, name, input)]))
    case UnknownFinal => Ok([])
  }

  function Decode<J>(json: Codec<J>, blocks: seq<FinalBlock>): Result<seq<MessageContent<J>>> {
    if blocks == [] then Ok([])
    else
      match DecodeOne(json, blocks[0])
      case Err(e) => Err(e)
      case Ok(first) =>
        match Decode(json, blocks[1..])
        case Err(e) => Err(e)
        case Ok(rest) => Ok(first + rest)
  }

  function Both<J>(x: Result<seq<MessageContent<J>>>,
                   y: Result<seq<MessageContent<J>>>): Result<seq<MessageContent<J>>> {
    if x.Err? then x else if y.Err? then y else Ok(x.value + y.value)
  }

  lemma {:induction false} DecodeAppend<J>(json: Codec<J>, x: seq<FinalBlock>, y: seq<FinalBlock>)
    ensures Decode(json, x + y) == Both(Decode(json, x), Decode(json, y))
    decreases |x|
  {
    if x == [] {
      EmptyEnds(y);
      assert Decode(json, y).Ok? ==> [] + Decode(json, y).value == Decode(json, y).value;
    } else {
      AppendHead(x, y);
      DecodeAppend(json, x[1..], y);
      var first, rest, last := DecodeOne(json, x[0]), Decode(json, x[1..]), Decode(json, y);
      if first.Ok? && rest.Ok? && last.Ok? {
        Regroup(first.value, rest.value, last.value);
      }
    }
  }

  datatype Message<+J> = Message(
    id: string, model: string, content: seq<MessageContent<J>>, stop: StopReason,
    inputTokens: int, outputTokens: int, cacheRead: int)

  /** `responsesResponseToClaude`. */
  function WholeMessage<J>(model: string, r: Response, json: Codec<J>): Result<Message<J>> {
    if FailureOf(r).Some? then Err(FailureOf(r).value)
    else
      match Decode(json, WholeBlocks(r.output))
      case Err(e) => Err(e)
      case Ok(content) =>
        Ok(Message(Trim(r.id), FirstOf(r.model, model), content, StopReasonOf(r.incomplete, AnyTool(r.output)),
                   NumberValue(r.usage.inputTokens), NumberValue(r.usage.outputTokens),
                   NumberValue(r.usage.cachedTokens)))
  }

  lemma {:induction false} WholePartsAppend(x: seq<Part>, y: seq<Part>)
    ensures WholeParts(x + y) == WholeParts(x) + WholeParts(y)
    decreases |x|
  {
    if x == [] {
      EmptyEnds(y);
    } else {
      AppendHead(x, y);
      WholePartsAppend(x[1..], y);
    }
  }

  lemma {:induction false} WholeAppend(x: seq<Item>, y: seq<Item>)
    ensures WholeBlocks(x + y) == WholeBlocks(x) + WholeBlocks(y)
    decreases |x|
  {
    if x == [] {
      EmptyEnds(y);
    } else {
      AppendHead(x, y);
      WholeAppend(x[1..], y);
    }
  }

  lemma {:induction false} TextsDecode<J>(json: Codec<J>, parts: seq<Part>)
    ensures Decode(json, WholeParts(parts)).Ok?
  {
    if parts != [] {
      TextsDecode(json, parts[1..]);
      if parts[0].kind.OtherPart? {
        assert WholeParts(parts) == WholeParts(parts[1..]);
      } else {
        assert WholeParts(parts)[1..] == WholeParts(parts[1..]);
      }
    }
  }

  lemma {:induction false} DecodeSingle<J>(json: Codec<J>, b: FinalBlock)
    ensures Decode(json, [b]) == DecodeOne(json, b)
  {
    NothingAfter(b);
    if DecodeOne(json, b).Ok? {
      EmptyEnds(DecodeOne(json, b).value);
    }
  }

  function PartContent<J>(part: Part): seq<MessageContent<J>> {
    if part.kind.OtherPart? then [] else [SaidText(FirstOf(part.text, part.refusal))]
  }

  lemma {:induction false} OnePart<J>(json: Codec<J>, part: Part)
    ensures Decode(json, WholeParts([part])) == Ok(PartContent<J>(part))
  {
    NothingAfter(part);
    if !part.kind.OtherPart? {
      DecodeSingle(json, TextFinal(FirstOf(part.text, part.refusal)));
      assert WholeParts([part]) == [TextFinal(FirstOf(part.text, part.refusal))];
    }
  }

  /** The texts of a message item, collected in a loop. */
  method MessageTexts<J>(parts: seq<Part>, json: Codec<J>) returns (content: seq<MessageContent<J>>)
    ensures Decode(json, WholeParts(parts)) == Ok(content)
  {
    content := [];
    for i := 0 to |parts|
      invariant Decode(json, WholeParts(parts[..i])) == Ok(content)
    {
      var part := parts[i];
      assert parts[..i + 1] == parts[..i] + [part];
      WholePartsAppend(parts[..i], [part]);
      DecodeAppend(json, WholeParts(parts[..i]), WholeParts([part]));
      OnePart(json, part);
      assert content + PartContent<J>(part) == if part.kind.OtherPart? then content else content + PartContent<J>(part);
      if !part.kind.OtherPart? {
        content := content + [SaidText(FirstOf(part.text, part.refusal))];
      }
    }
    assert parts[..|parts|] == parts;
  }

  /** The content one output item stands for. */
  method ItemContent<J>(item: Item, json: Codec<J>) returns (result: Result<seq<MessageContent<J>>>)
    ensures result == Decode(json, WholeItem(item))
  {
    match item.kind {
      case MessageItem =>
        var texts := MessageTexts(item.parts, json);
        return Ok(texts);
      case ReasoningItem =>
        var thinking, encrypted := ReasoningText(item), Trim(item.encrypted);
        if HasPrefix(encrypted, REDACTED_PREFIX) {
          DecodeSingle(json, RedactedFinal(TrimPrefix(encrypted, REDACTED_PREFIX)));
          return Ok([SaidRedacted(TrimPrefix(encrypted, REDACTED_PREFIX))]);
        } else if thinking != "" || encrypted != "" {
          DecodeSingle(json, ThinkingFinal(thinking, encrypted));
          return Ok([SaidThinking(thinking, encrypted)]);
        }
        return Ok([]);
      case ToolItem =>
        var arguments := FirstOf(item.arguments, item.input);
        var input := json.empty;
        DecodeSingle(json, ToolFinal(CallIdOf(item), Trim(item.name), arguments));
        if arguments != "" {
          match json.decode(arguments) {
            case None => return Err(BadArguments);
            case Some(parsed) => input := parsed;
          }
        }
        return Ok([SaidTool(CallIdOf(item), Trim(item.name), input)]);
      case OtherItem =>
        return Ok([]);
    }
  }

  /** One more item: what the prefix decodes to, and what it means for the whole list. */
  lemma {:induction false} DecodeStep<J>(json: Codec<J>, items: seq<Item>, i: nat)
    requires i < |items|
    ensures Decode(json, WholeBlocks(items[..i + 1]))
            == Both(Decode(json, WholeBlocks(items[..i])), Decode(json, WholeItem(items[i])))
    ensures Decode(json, WholeBlocks(items[..i + 1])).Err? ==>
              Decode(json, WholeBlocks(items)) == Decode(json, WholeBlocks(items[..i + 1]))
  {
    assert items[..i + 1] == items[..i] + [items[i]];
    assert items == items[..i + 1] + items[i + 1..];
    WholeAppend(items[..i + 1], items[i + 1..]);
    WholeAppend(items[..i], [items[i]]);
    assert [items[i]][1..] == [] && WholeBlocks([items[i]]) == WholeItem(items[i]);
    DecodeAppend(json, WholeBlocks(items[..i]), WholeItem(items[i]));
    DecodeAppend(json, WholeBlocks(items[..i + 1]), WholeBlocks(items[i + 1..]));
  }

  method ResponseToClaude<J>(model: string, r: Response, json: Codec<J>) returns (result: Result<Message<J>>)
    ensures result == WholeMessage(model, r, json)
    ensures result.Ok? ==>
              && StopTells(r.incomplete, AnyTool(r.output), result.value.stop)
              && Counts(r.usage.inputTokens, result.value.inputTokens)
              && Counts(r.usage.outputTokens, result.value.outputTokens)
              && Counts(r.usage.cachedTokens, result.value.cacheRead)
  {
    if FailureOf(r).Some? {
      return Err(FailureOf(r).value);
    }
    var content: seq<MessageContent<J>> := [];
    var hasToolUse := false;
    for i := 0 to |r.output|
      invariant Decode(json, WholeBlocks(r.output[..i])) == Ok(content)
      invariant hasToolUse == AnyTool(r.output[..i])
    {
      DecodeStep(json, r.output, i);
      AnyToolGrows(r.output, i);
      var more := ItemContent(r.output[i], json);
      if more.Err? {
        return Err(more.error);
      }
      content := content + more.value;
      hasToolUse := hasToolUse || r.output[i].kind.ToolItem?;
    }
    assert r.output[..|r.output|] == r.output;
    result := Ok(Message(Trim(r.id), FirstOf(r.model, model), content, StopReasonOf(r.incomplete, hasToolUse),
                         NumberValue(r.usage.inputTokens), NumberValue(r.usage.outputTokens),
                         NumberValue(r.usage.cachedTokens)));
  }

  lemma AnyToolGrows(items: seq<Item>, i: nat)
    requires i < |items|
    ensures AnyTool(items[..i + 1]) <==> AnyTool(items[..i]) || items[i].kind == ToolItem
  {
    if AnyTool(items[..i]) {
      var j :| 0 <= j < i && items[..i][j].kind == ToolItem;
      assert items[..i + 1][j].kind == ToolItem;
    }
    if items[i].kind == ToolItem {
      assert items[..i + 1][i].kind == ToolItem;
    }
    if AnyTool(items[..i + 1]) && items[i].kind != ToolItem {
      var j :| 0 <= j < i + 1 && items[..i + 1][j].kind == ToolItem;
      assert items[..i][j].kind == ToolItem;
    }
  }
}
