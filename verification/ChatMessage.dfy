/** `responsesResponseToOpenAI`: a whole response as a Chat Completions object. */
module ChatMessage {
  import opened Text
  import opened Responses
  import opened Chat

  /** What one item, or a list of items, adds to the message. */
  datatype Share = Share(content: string, refusal: string, reasoning: string, calls: seq<ToolCall>)

  const NO_SHARE := Share("", "", "", [])

  function Plus(x: Share, y: Share): Share {
    Share(x.content + y.content, x.refusal + y.refusal, x.reasoning + y.reasoning, x.calls + y.calls)
  }

  lemma PlusLaws(x: Share, y: Share, z: Share)
    ensures Plus(Plus(x, y), z) == Plus(x, Plus(y, z))
    ensures Plus(NO_SHARE, x) == x == Plus(x, NO_SHARE)
  {
    Regroup(x.content, y.content, z.content);
    Regroup(x.refusal, y.refusal, z.refusal);
    Regroup(x.reasoning, y.reasoning, z.reasoning);
    Regroup(x.calls, y.calls, z.calls);
    EmptyEnds(x.content);
    EmptyEnds(x.refusal);
    EmptyEnds(x.reasoning);
    EmptyEnds(x.calls);
  }

  /** A draft with a share more. */
  function Gain(a: ChatDraft, s: Share): ChatDraft {
    a.(content := a.content + s.content, refusal := a.refusal + s.refusal,
       reasoning := a.reasoning + s.reasoning, calls := a.calls + s.calls)
  }

  lemma GainTwice(a: ChatDraft, x: Share, y: Share)
    ensures Gain(Gain(a, x), y) == Gain(a, Plus(x, y))
    ensures Gain(a, NO_SHARE) == a
  {
    Regroup(a.content, x.content, y.content);
    Regroup(a.refusal, x.refusal, y.refusal);
    Regroup(a.reasoning, x.reasoning, y.reasoning);
    Regroup(a.calls, x.calls, y.calls);
    EmptyEnds(a.content);
    EmptyEnds(a.refusal);
    EmptyEnds(a.reasoning);
    EmptyEnds(a.calls);
  }

  function PartShare(p: Part): Share {
    match p.kind
    case TextPart => NO_SHARE.(content := p.text)
    case RefusalPart => NO_SHARE.(refusal := p.refusal)
    case OtherPart => NO_SHARE
  }

  function PartsShare(parts: seq<Part>): Share {
    if parts == [] then NO_SHARE else Plus(PartShare(parts[0]), PartsShare(parts[1..]))
  }

  function ItemShare(item: Item): Share {
    match item.kind
    case MessageItem => PartsShare(item.parts)
    case ReasoningItem => NO_SHARE.(reasoning := ReasoningText(item))
    case ToolItem => NO_SHARE.(calls := [ToolCall(CallIdOf(item), Trim(item.name), RawArguments(item))])
    case OtherItem => NO_SHARE
  }

  function ItemsShare(items: seq<Item>): Share {
    if items == [] then NO_SHARE else Plus(ItemShare(items[0]), ItemsShare(items[1..]))
  }

  function WholeCompletion(model: string, r: Response): Result<Completion> {
    if FailureOf(r).Some? then Err(FailureOf(r).value)
    else
      var share := ItemsShare(r.output);
      Ok(Completion(
        FirstOf(r.id, "chatcmpl-copilot"), FirstOf(r.model, model), NumberValue(r.createdAt),
        if share.content == "" && share.calls != [] then None else Some(share.content),
        share.refusal, share.reasoning, share.calls,
        FinishOf(r.incomplete, share.calls != []), UsageOf(r.usage)))
  }

  lemma {:induction false} PartsShareMore(parts: seq<Part>, i: nat)
    requires i < |parts|
    ensures PartsShare(parts[..i + 1]) == Plus(PartsShare(parts[..i]), PartShare(parts[i]))
  {
    var x := parts[..i + 1];
    if i == 0 {
      assert x[1..] == [] && parts[..0] == [];
      PlusLaws(PartShare(parts[0]), NO_SHARE, NO_SHARE);
    } else {
      assert x[1..] == parts[1..][..i] && parts[..i][1..] == parts[1..][..i - 1];
      PartsShareMore(parts[1..], i - 1);
      PlusLaws(PartShare(parts[0]), PartsShare(parts[1..][..i - 1]), PartShare(parts[i]));
    }
  }

  lemma {:induction false} ItemsShareMore(items: seq<Item>, i: nat)
    requires i < |items|
    ensures ItemsShare(items[..i + 1]) == Plus(ItemsShare(items[..i]), ItemShare(items[i]))
  {
    var x := items[..i + 1];
    if i == 0 {
      assert x[1..] == [] && items[..0] == [];
      PlusLaws(ItemShare(items[0]), NO_SHARE, NO_SHARE);
    } else {
      assert x[1..] == items[1..][..i] && items[..i][1..] == items[1..][..i - 1];
      ItemsShareMore(items[1..], i - 1);
      PlusLaws(ItemShare(items[0]), ItemsShare(items[1..][..i - 1]), ItemShare(items[i]));
    }
  }

  method WriteParts(parts: seq<Part>) returns (text: string, refusal: string)
    ensures PartsShare(parts) == Share(text, refusal, "", [])
  {
    text, refusal := "", "";
    for i := 0 to |parts|
      invariant PartsShare(parts[..i]) == Share(text, refusal, "", [])
    {
      PartsShareMore(parts, i);
      match parts[i].kind {
        case TextPart => text := text + parts[i].text;
        case RefusalPart => refusal := refusal + parts[i].refusal;
        case OtherPart =>
      }
    }
    assert parts[..|parts|] == parts;
  }

  method ResponseToChat(model: string, r: Response) returns (result: Result<Completion>)
    ensures result == WholeCompletion(model, r)
    ensures result.Ok? ==>
              && UsageTells(r.usage, result.value.usage)
              && (result.value.content == None ==> result.value.calls != [])
              && (result.value.content == Some("") ==> result.value.calls == [])
              && FinishTells(r.incomplete, result.value.calls != [], result.value.finish)
  {
    if FailureOf(r).Some? {
      return Err(FailureOf(r).value);
    }
    var text, refusal, reasoning, toolCalls := "", "", "", [];
    for i := 0 to |r.output|
      invariant ItemsShare(r.output[..i]) == Share(text, refusal, reasoning, toolCalls)
    {
      var item := r.output[i];
      ItemsShareMore(r.output, i);
      match item.kind {
        case MessageItem =>
          var t, f := WriteParts(item.parts);
          text, refusal := text + t, refusal + f;
        case ReasoningItem => reasoning := reasoning + ReasoningText(item);
        case ToolItem => toolCalls := toolCalls + [ToolCall(CallIdOf(item), Trim(item.name), RawArguments(item))];
        case OtherItem =>
      }
    }
    assert r.output[..|r.output|] == r.output;
    var content := if text == "" && |toolCalls| > 0 then None else Some(text);
    result := Ok(Completion(
      FirstOf(r.id, "chatcmpl-copilot"), FirstOf(r.model, model), NumberValue(r.createdAt), content, refusal, reasoning,
      toolCalls, FinishOf(r.incomplete, |toolCalls| > 0), UsageOf(r.usage)));
  }
}
