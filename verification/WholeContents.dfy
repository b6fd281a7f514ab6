/** What a whole response becomes, item by item. */
module WholeContents {
  import opened Text
  import opened Responses
  import opened Claude
  import opened Chat
  import opened ClaudeMessage
  import opened StreamContents
  import opened StreamErrors
  import M = ChatMessage
  import Q = ClaudeToChatSquare

  /** The parts of a message that are recognised. */
  function Known(parts: seq<Part>): seq<Part> {
    if parts == [] then []
    else (if parts[0].kind.OtherPart? then [] else [parts[0]]) + Known(parts[1..])
  }

  predicate IsText<J>(part: Part, said: MessageContent<J>) {
    said.SaidText? && IsFirstOf(part.text, part.refusal, "", said.text)
  }

  /** A tool's arguments, or its input when it has none: the empty object when blank, and else as parsed. */
  ghost predicate IsInput<J>(json: Codec<J>, item: Item, input: J) {
    exists text :: IsFirstOf(item.arguments, item.input, "", text)
                   && (if text == "" then input == json.empty else json.decode(text) == Some(input))
  }

  /** What an item says in the Claude message: a text for each recognised part; one thinking block with its
      signature, or the redacted data, or nothing; a tool call. */
  ghost predicate Says<J>(json: Codec<J>, item: Item, said: seq<MessageContent<J>>) {
    match item.kind
    case MessageItem =>
      |said| == |Known(item.parts)| && forall i :: 0 <= i < |said| ==> IsText(Known(item.parts)[i], said[i])
    case ReasoningItem =>
      var signature := Trim(item.encrypted);
      if HasPrefix(signature, "claude-redacted-thinking:") then said == [SaidRedacted(signature[25..])]
      else if ReasoningText(item) == "" && signature == "" then said == []
      else said == [SaidThinking(ReasoningText(item), signature)]
    case ToolItem =>
      && |said| == 1 && said[0].SaidTool?
      && IsFirstOf(item.callId, item.id, "", said[0].id) && said[0].name == Trim(item.name)
      && IsInput(json, item, said[0].input)
    case OtherItem => said == []
  }

  /** Arguments that are no JSON object. */
  ghost predicate Unparsable<J>(json: Codec<J>, item: Item) {
    item.kind.ToolItem?
    && exists text :: IsFirstOf(item.arguments, item.input, "", text) && text != "" && json.decode(text).None?
  }

  lemma BlankTrimmed()
    ensures Trim("") == ""
  {
  }

  lemma {:induction false} PartsSay<J>(json: Codec<J>, parts: seq<Part>) returns (said: seq<MessageContent<J>>)
    ensures Decode(json, WholeParts(parts)) == Ok(said)
    ensures |said| == |Known(parts)| && forall i :: 0 <= i < |said| ==> IsText(Known(parts)[i], said[i])
    decreases |parts|
  {
    said := [];
    if parts != [] {
      var rest := PartsSay(json, parts[1..]);
      var first := PartContent<J>(parts[0]);
      BlankTrimmed();
      assert parts == [parts[0]] + parts[1..];
      WholePartsAppend([parts[0]], parts[1..]);
      OnePart(json, parts[0]);
      DecodeAppend(json, WholeParts([parts[0]]), WholeParts(parts[1..]));
      said := first + rest;
    }
  }

  lemma {:induction false} ToolSays<J>(json: Codec<J>, item: Item) returns (result: Result<seq<MessageContent<J>>>)
    requires item.kind.ToolItem?
    ensures result == Decode(json, WholeItem(item))
    ensures result.Err? <==> Unparsable(json, item)
    ensures result.Err? ==> result.error == BadArguments
    ensures result.Ok? ==> Says(json, item, result.value)
  {
    var text := FirstOf(item.arguments, item.input);
    BlankTrimmed();
    assert IsFirstOf(item.arguments, item.input, "", text);
    DecodeSingle(json, ToolFinal(CallIdOf(item), Trim(item.name), text));
    result := Decode(json, WholeItem(item));
  }

  lemma {:induction false} ItemSays<J>(json: Codec<J>, item: Item) returns (result: Result<seq<MessageContent<J>>>)
    ensures result == Decode(json, WholeItem(item))
    ensures result.Err? <==> Unparsable(json, item)
    ensures result.Err? ==> result.error == BadArguments
    ensures result.Ok? ==> Says(json, item, result.value)
  {
    match item.kind
    case MessageItem => {
      var said := PartsSay(json, item.parts);
      result := Ok(said);
    }
    case ReasoningItem => {
      assert |REDACTED_PREFIX| == 25;
      if WholeItem(item) != [] {
        assert WholeItem(item) == [WholeItem(item)[0]];
        DecodeSingle(json, WholeItem(item)[0]);
      }
      result := Decode(json, WholeItem(item));
    }
    case ToolItem => result := ToolSays(json, item);
    case OtherItem => result := Ok([]);
  }

  /** The items say these things, one each. */
  ghost predicate AllSay<J>(json: Codec<J>, items: seq<Item>, saids: seq<seq<MessageContent<J>>>) {
    |saids| == |items| && forall i :: 0 <= i < |items| ==> Says(json, items[i], saids[i])
  }

  lemma {:induction false} ItemsSay<J>(json: Codec<J>, items: seq<Item>)
    returns (result: Result<seq<MessageContent<J>>>, saids: seq<seq<MessageContent<J>>>)
    ensures result == Decode(json, WholeBlocks(items))
    ensures result.Err? <==> exists i :: 0 <= i < |items| && Unparsable(json, items[i])
    ensures result.Err? ==> result.error == BadArguments
    ensures result.Ok? ==> AllSay(json, items, saids) && result.value == Concat(saids)
    decreases |items|
  {
    saids := [];
    if items == [] {
      result := Ok([]);
      return;
    }
    var first := ItemSays(json, items[0]);
    var rest, later := ItemsSay(json, items[1..]);
    DecodeAppend(json, WholeItem(items[0]), WholeBlocks(items[1..]));
    assert forall i :: 0 < i < |items| ==> items[i] == items[1..][i - 1];
    if rest.Err? {
      var i :| 0 <= i < |items[1..]| && Unparsable(json, items[1..][i]);
      assert Unparsable(json, items[i + 1]);
    }
    result := Both(first, rest);
    if result.Ok? {
      saids := [first.value] + later;
      assert saids[1..] == later;
    }
  }

  /** A whole response translated to Claude: it fails exactly when the response says that it failed or was
      cancelled, and else when some tool's arguments do not parse; otherwise its content is what its items
      say, in their order. */
  lemma {:induction false} WholeMessageSays<J>(model: string, r: Response, json: Codec<J>)
    returns (saids: seq<seq<MessageContent<J>>>)
    ensures var result := WholeMessage(model, r, json);
            if r.status != OtherStatus then
              result == Err(ResponseFailed(r.status, WordsOr(r.error, "unknown upstream error")))
            else if exists i :: 0 <= i < |r.output| && Unparsable(json, r.output[i]) then result == Err(BadArguments)
            else
              && result.Ok? && AllSay(json, r.output, saids) && result.value.content == Concat(saids)
              && result.value.id == Trim(r.id) && IsFirstOf(r.model, model, "", result.value.model)
  {
    WordsAre(r.error);
    BlankTrimmed();
    var result;
    result, saids := ItemsSay(json, r.output);
  }

  // ---- The same response as a chat completion ----

  /** The texts and the refusals of a message, in their order. */
  function TextsOf(parts: seq<Part>, kind: PartKind): seq<string> {
    if parts == [] then []
    else (if parts[0].kind != kind then []
          else if kind == TextPart then [parts[0].text]
          else [parts[0].refusal])
         + TextsOf(parts[1..], kind)
  }

  /** What an item adds to the completion: texts and refusals as they are, reasoning, or a call. */
  ghost predicate Adds(item: Item, share: M.Share) {
    match item.kind
    case MessageItem =>
      && share.content == Concat(TextsOf(item.parts, TextPart))
      && share.refusal == Concat(TextsOf(item.parts, RefusalPart)) && share.reasoning == "" && share.calls == []
    case ReasoningItem => share == M.Share("", "", ReasoningText(item), [])
    case ToolItem =>
      && share.content == share.refusal == share.reasoning == "" && |share.calls| == 1
      && IsFirstOf(item.callId, item.id, "", share.calls[0].id) && share.calls[0].name == Trim(item.name)
      && share.calls[0].arguments == (if item.arguments != "" then item.arguments else item.input)
    case OtherItem => share == M.NO_SHARE
  }

  lemma {:induction false} TextsCons(parts: seq<Part>, kind: PartKind) returns (x: string)
    requires parts != []
    ensures x == if parts[0].kind != kind then "" else if kind == TextPart then parts[0].text else parts[0].refusal
    ensures Concat(TextsOf(parts, kind)) == x + Concat(TextsOf(parts[1..], kind))
  {
    x := if parts[0].kind != kind then "" else if kind == TextPart then parts[0].text else parts[0].refusal;
    ConcatOne(x, TextsOf(parts[1..], kind));
    EmptyEnds(Concat(TextsOf(parts[1..], kind)));
  }

  lemma {:induction false} PartsAdd(parts: seq<Part>)
    ensures M.PartsShare(parts)
            == M.Share(Concat(TextsOf(parts, TextPart)), Concat(TextsOf(parts, RefusalPart)), "", [])
    decreases |parts|
  {
    if parts != [] {
      PartsAdd(parts[1..]);
      var text := TextsCons(parts, TextPart);
      var refusal := TextsCons(parts, RefusalPart);
    }
  }

  lemma {:induction false} ConcatOne<T>(x: seq<T>, rest: seq<seq<T>>)
    ensures Concat([x] + rest) == x + Concat(rest) && [] + rest == rest
  {
    assert ([x] + rest)[1..] == rest;
  }

  lemma {:induction false} ItemAdds(item: Item)
    ensures Adds(item, M.ItemShare(item))
  {
    BlankTrimmed();
    if item.kind.MessageItem? {
      PartsAdd(item.parts);
    }
  }

  /** What shares add up to: text after text, and call after call. */
  function Total(shares: seq<M.Share>): M.Share {
    M.Share(Concat(seq(|shares|, i requires 0 <= i < |shares| => shares[i].content)),
            Concat(seq(|shares|, i requires 0 <= i < |shares| => shares[i].refusal)),
            Concat(seq(|shares|, i requires 0 <= i < |shares| => shares[i].reasoning)),
            Concat(seq(|shares|, i requires 0 <= i < |shares| => shares[i].calls)))
  }

  lemma {:induction false} TotalCons(first: M.Share, rest: seq<M.Share>)
    ensures Total([first] + rest) == M.Plus(first, Total(rest))
  {
    var all := [first] + rest;
    assert seq(|all|, i requires 0 <= i < |all| => all[i].content)
        == [first.content] + seq(|rest|, i requires 0 <= i < |rest| => rest[i].content);
    assert seq(|all|, i requires 0 <= i < |all| => all[i].refusal)
        == [first.refusal] + seq(|rest|, i requires 0 <= i < |rest| => rest[i].refusal);
    assert seq(|all|, i requires 0 <= i < |all| => all[i].reasoning)
        == [first.reasoning] + seq(|rest|, i requires 0 <= i < |rest| => rest[i].reasoning);
    assert seq(|all|, i requires 0 <= i < |all| => all[i].calls)
        == [first.calls] + seq(|rest|, i requires 0 <= i < |rest| => rest[i].calls);
    ConcatOne(first.content, seq(|rest|, i requires 0 <= i < |rest| => rest[i].content));
    ConcatOne(first.refusal, seq(|rest|, i requires 0 <= i < |rest| => rest[i].refusal));
    ConcatOne(first.reasoning, seq(|rest|, i requires 0 <= i < |rest| => rest[i].reasoning));
    ConcatOne(first.calls, seq(|rest|, i requires 0 <= i < |rest| => rest[i].calls));
  }

  ghost predicate AllAdd(items: seq<Item>, shares: seq<M.Share>) {
    |shares| == |items| && forall i :: 0 <= i < |items| ==> Adds(items[i], shares[i])
  }

  lemma {:induction false} ItemsAdd(items: seq<Item>) returns (shares: seq<M.Share>)
    ensures AllAdd(items, shares) && M.ItemsShare(items) == Total(shares)
    decreases |items|
  {
    shares := [];
    if items != [] {
      var rest := ItemsAdd(items[1..]);
      ItemAdds(items[0]);
      TotalCons(M.ItemShare(items[0]), rest);
      shares := [M.ItemShare(items[0])] + rest;
      assert forall i :: 0 < i < |items| ==> items[i] == items[1..][i - 1];
    }
  }

  /** A whole response translated to a chat completion: it fails exactly when the response says that it
      failed or was cancelled; otherwise it is the sum of what its items add, under the response's header,
      and its content is null exactly when there are calls and no text. */
  lemma {:induction false} WholeCompletionSays(model: string, r: Response) returns (shares: seq<M.Share>)
    ensures var result := M.WholeCompletion(model, r);
            if r.status != OtherStatus then
              result == Err(ResponseFailed(r.status, WordsOr(r.error, "unknown upstream error")))
            else
              && result.Ok? && AllAdd(r.output, shares)
              && Total(shares)
                 == M.Share(OrEmpty(result.value.content), result.value.refusal, result.value.reasoning,
                            result.value.calls)
              && (result.value.content == None
                  <==> Total(shares).content == "" && exists i :: 0 <= i < |r.output| && r.output[i].kind.ToolItem?)
              && IsFirstOf(r.id, "chatcmpl-copilot", "", result.value.id)
              && IsFirstOf(r.model, model, "", result.value.model) && Counts(r.createdAt, result.value.created)
  {
    WordsAre(r.error);
    BlankTrimmed();
    TrimShape("chatcmpl-copilot");
    shares := ItemsAdd(r.output);
    CallsIffTool(r.output);
  }

  lemma {:induction false} CallsIffTool(items: seq<Item>)
    ensures M.ItemsShare(items).calls != [] <==> exists i :: 0 <= i < |items| && items[i].kind.ToolItem?
    decreases |items|
  {
    if items != [] {
      CallsIffTool(items[1..]);
      assert forall i :: 0 < i < |items| ==> items[i] == items[1..][i - 1];
      PartsAdd(items[0].parts);
      if M.ItemsShare(items[1..]).calls != [] {
        var i :| 0 <= i < |items[1..]| && items[1..][i].kind.ToolItem?;
        assert items[i + 1].kind.ToolItem?;
      }
    }
  }

  // ---- A Claude message as a chat completion ----

  /** What a block adds: its text, its thinking, or a call under its `id` or, when that is blank, its
      `tool_use_id`; redacted data adds nothing. */
  ghost predicate BlockAdds<J>(json: Codec<J>, b: Q.Block<J>, share: M.Share) {
    match b
    case Said(text) => share == M.Share(text, "", "", [])
    case Thought(thinking, _) => share == M.Share("", "", thinking, [])
    case Used(id, altId, name, input) =>
      && share.content == share.refusal == share.reasoning == "" && |share.calls| == 1
      && IsFirstOf(id, altId, "", share.calls[0].id) && share.calls[0].name == Trim(name)
      && share.calls[0].arguments == json.encode(input)
    case _ => share == M.NO_SHARE
  }

  ghost predicate AllBlocksAdd<J>(json: Codec<J>, blocks: seq<Q.Block<J>>, shares: seq<M.Share>) {
    |shares| == |blocks| && forall i :: 0 <= i < |blocks| ==> BlockAdds(json, blocks[i], shares[i])
  }

  lemma {:induction false} BlocksAdd<J>(json: Codec<J>, blocks: seq<Q.Block<J>>) returns (shares: seq<M.Share>)
    ensures AllBlocksAdd(json, blocks, shares) && Q.BlocksShare(json, blocks) == Total(shares)
    ensures Total(shares).calls != [] <==> exists i :: 0 <= i < |blocks| && blocks[i].Used?
    ensures Total(shares).refusal == ""
    decreases |blocks|
  {
    shares := [];
    if blocks != [] {
      var rest := BlocksAdd(json, blocks[1..]);
      BlankTrimmed();
      TotalCons(Q.BlockShare(json, blocks[0]), rest);
      shares := [Q.BlockShare(json, blocks[0])] + rest;
      assert forall i :: 0 < i < |blocks| ==> blocks[i] == blocks[1..][i - 1];
      if Total(rest).calls != [] {
        var i :| 0 <= i < |blocks[1..]| && blocks[1..][i].Used?;
        assert blocks[i + 1].Used?;
      }
    }
  }

  /** A whole Claude message translated to a chat completion is the sum of what its blocks add, under the
      message's header, and its content is null exactly when there are calls and no text. */
  lemma {:induction false} ClaudeCompletionSays<J>(json: Codec<J>, model: string, m: Q.WholeClaude<J>)
    returns (shares: seq<M.Share>)
    ensures var result := Q.WholeCompletion(json, model, m);
            && AllBlocksAdd(json, m.content, shares)
            && Total(shares) == M.Share(OrEmpty(result.content), "", result.reasoning, result.calls)
            && result.refusal == "" && result.created == 0
            && (result.content == None
                <==> Total(shares).content == "" && exists i :: 0 <= i < |m.content| && m.content[i].Used?)
            && IsFirstOf(m.id, "chatcmpl-copilot", "", result.id) && IsFirstOf(m.model, model, "", result.model)
  {
    BlankTrimmed();
    TrimShape("chatcmpl-copilot");
    shares := BlocksAdd(json, m.content);
  }
}
