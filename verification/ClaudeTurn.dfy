/** How a Claude turn is grouped, and what survives. */
module ClaudeTurn {
  import opened Text
  import opened Responses
  import opened ClaudeMessage
  import opened ClaudeRequest

  // ---- Are groups maximal? ----

  predicate IsPiece<J>(part: InPart<J>) {
    part.TextIn? || part.ImageIn? || part.DocumentIn?
  }

  predicate BlankRedacted<J>(part: InPart<J>) {
    part.RedactedIn? && Trim(part.data) == ""
  }

  /** Leaving out parts that are not recognised: what comes last? `AfterCut` is a piece followed by
      blank redacted parts only. */
  datatype Last = Nothing | AfterPiece | AfterCut | AfterItem

  function LastOf<J>(parts: seq<InPart<J>>): Last {
    if parts == [] then Nothing
    else
      var last, before := parts[|parts| - 1], LastOf(parts[..|parts| - 1]);
      if last.OtherIn? then before
      else if IsPiece(last) then AfterPiece
      else if BlankRedacted(last) then if before.AfterPiece? then AfterCut else before
      else AfterItem
  }

  /** Somewhere two pieces have nothing but blank redacted parts between them, and at least one. */
  predicate Severed<J>(parts: seq<InPart<J>>) {
    exists i :: 0 <= i < |parts| && IsPiece(parts[i]) && LastOf(parts[..i]).AfterCut?
  }

  predicate Adjacent(items: seq<InputItem>) {
    exists i :: 0 <= i < |items| - 1 && items[i].MessageInput? && items[i + 1].MessageInput?
  }

  predicate EndsInMessage(items: seq<InputItem>) {
    items != [] && items[|items| - 1].MessageInput?
  }

  lemma AdjacentSnoc(items: seq<InputItem>, item: InputItem)
    ensures Adjacent(items + [item]) <==> Adjacent(items) || (EndsInMessage(items) && item.MessageInput?)
  {
    var all := items + [item];
    if Adjacent(items) {
      var i :| 0 <= i < |items| - 1 && items[i].MessageInput? && items[i + 1].MessageInput?;
      assert all[i].MessageInput? && all[i + 1].MessageInput?;
    }
    if EndsInMessage(items) && item.MessageInput? {
      assert all[|items| - 1].MessageInput? && all[|items| - 1 + 1].MessageInput?;
    }
    if Adjacent(all) {
      var i :| 0 <= i < |all| - 1 && all[i].MessageInput? && all[i + 1].MessageInput?;
      assert i < |items| - 1 ==> items[i].MessageInput? && items[i + 1].MessageInput?;
    }
  }

  lemma {:induction false} SeveredSnoc<J>(parts: seq<InPart<J>>, part: InPart<J>)
    ensures Severed(parts + [part]) <==> Severed(parts) || (IsPiece(part) && LastOf(parts).AfterCut?)
  {
    var all := parts + [part];
    assert forall i :: 0 <= i <= |parts| ==> all[..i] == parts[..i];
    assert parts[..|parts|] == parts && all[|parts|] == part;
    if Severed(parts) {
      var i :| 0 <= i < |parts| && IsPiece(parts[i]) && LastOf(parts[..i]).AfterCut?;
      assert IsPiece(all[i]) && LastOf(all[..i]).AfterCut?;
    }
    if Severed(all) {
      var i :| 0 <= i < |all| && IsPiece(all[i]) && LastOf(all[..i]).AfterCut?;
      assert i < |parts| ==> IsPiece(parts[i]) && LastOf(parts[..i]).AfterCut?;
    }
  }

  /** The state of the accumulate-and-flush loop, against the parts it has seen. */
  ghost predicate Tracks<J>(g: Groups, role: Role, parts: seq<InPart<J>>) {
    && (g.pending != [] <==> LastOf(parts).AfterPiece?)
    && (g.pending == [] && EndsInMessage(g.input) <==> LastOf(parts).AfterCut?)
    && (Adjacent(Flushed(g, role).input) <==> Severed(parts))
  }

  lemma {:induction false} LastSnoc<J>(parts: seq<InPart<J>>, part: InPart<J>)
    ensures LastOf(parts + [part])
            == if part.OtherIn? then LastOf(parts)
               else if IsPiece(part) then AfterPiece
               else if BlankRedacted(part) then if LastOf(parts).AfterPiece? then AfterCut else LastOf(parts)
               else AfterItem
  {
    assert (parts + [part])[..|parts|] == parts;
  }

  /** A piece joins the unfinished group or begins one. */
  lemma PieceTracks<J>(g: Groups, role: Role, parts: seq<InPart<J>>, part: InPart<J>, p: OutPart)
    requires Tracks(g, role, parts) && IsPiece(part)
    ensures Tracks(g.(pending := g.pending + [p]), role, parts + [part])
  {
    LastSnoc(parts, part);
    SeveredSnoc(parts, part);
    AdjacentSnoc(g.input, MessageInput(role, g.pending));
    AdjacentSnoc(g.input, MessageInput(role, g.pending + [p]));
  }

  /** Anything else that is recognised ends the group. */
  lemma {:induction false} FlushTracks<J>(g: Groups, role: Role, parts: seq<InPart<J>>) returns (f: Groups)
    requires Tracks(g, role, parts)
    ensures f == Flushed(g, role) && f.pending == []
    ensures Adjacent(f.input) <==> Severed(parts)
    ensures EndsInMessage(f.input) <==> LastOf(parts).AfterPiece? || LastOf(parts).AfterCut?
  {
    f := Flushed(g, role);
  }

  lemma SingleTracks<J>(g: Groups, role: Role, parts: seq<InPart<J>>, part: InPart<J>, item: InputItem)
    returns (f: Groups)
    requires Tracks(g, role, parts) && !IsPiece(part) && !part.OtherIn? && !BlankRedacted(part) && !item.MessageInput?
    ensures f == Flushed(g, role) && Tracks(f.(input := f.input + [item]), role, parts + [part])
  {
    LastSnoc(parts, part);
    SeveredSnoc(parts, part);
    f := FlushTracks(g, role, parts);
    AdjacentSnoc(f.input, item);
  }

  lemma BlankTracks<J>(g: Groups, role: Role, parts: seq<InPart<J>>, part: InPart<J>)
    returns (f: Groups)
    requires Tracks(g, role, parts) && BlankRedacted(part)
    ensures f == Flushed(g, role) && Tracks(f, role, parts + [part])
  {
    LastSnoc(parts, part);
    SeveredSnoc(parts, part);
    f := FlushTracks(g, role, parts);
  }

  lemma TakeTracks<J>(g: Groups, role: Role, parts: seq<InPart<J>>, part: InPart<J>, json: Codec<J>)
    requires Tracks(g, role, parts) && PartAtoms(role, part, json).Fine?
    ensures Tracks(Take(g, role, part, PartAtoms(role, part, json).value), role, parts + [part])
  {
    var atoms := AtMostOne(role, part, json);
    if part.OtherIn? {
      LastSnoc(parts, part);
      SeveredSnoc(parts, part);
    } else if atoms == [] {
      var f := BlankTracks(g, role, parts, part);
    } else if atoms[0].Piece? {
      PieceTracks(g, role, parts, part, atoms[0].part);
    } else {
      var f := SingleTracks(g, role, parts, part, atoms[0].item);
    }
  }

  lemma {:induction false} TakeAllTracks<J>(role: Role, parts: seq<InPart<J>>, json: Codec<J>)
    requires PartsAtoms(role, parts, json).Fine?
    ensures Tracks(TakeAll(Groups([], []), role, parts, json), role, parts)
    decreases |parts|
  {
    if parts != [] {
      var front, last := parts[..|parts| - 1], parts[|parts| - 1];
      TakeAllTracks(role, front, json);
      TakeTracks(TakeAll(Groups([], []), role, front, json), role, front, last, json);
      assert front + [last] == parts;
    }
  }

  /** Neighbouring pieces share a group, except exactly where blank redacted parts alone separate them. */
  lemma GroupsMaximal<J>(m: InMessage<J>, json: Codec<J>)
    requires MessageAtoms(m, json).Fine? && m.role != OtherRole
    ensures Adjacent(MessageItems(m, json)) <==> Severed(ContentParts(m))
  {
    TakeAllTracks(m.role, ContentParts(m), json);
  }

  // ---- The round trip of an assistant turn ----

  /** A content block as a client sends it back. */
  function Resent<J>(b: MessageContent<J>): InPart<J> {
    match b
    case SaidText(text) => TextIn(text)
    case SaidThinking(thinking, signature) => ThinkingIn(thinking, signature)
    case SaidRedacted(data) => RedactedIn(data)
    case SaidTool(id, name, input) => ToolUseIn(id, "", name, input)
  }

  function ResentAll<J>(blocks: seq<MessageContent<J>>): seq<InPart<J>> {
    if blocks == [] then [] else ResentAll(blocks[..|blocks| - 1]) + [Resent(blocks[|blocks| - 1])]
  }

  const NO_ITEM := Item(OtherItem, "", "", "", "", "", "", [], [], [])

  function PartFrom(p: OutPart): Part {
    if p.OutputText? then Part(TextPart, p.text, "") else Part(OtherPart, "", "")
  }

  function PartsFrom(content: seq<OutPart>): seq<Part> {
    if content == [] then [] else [PartFrom(content[0])] + PartsFrom(content[1..])
  }

  function SummaryFrom(texts: seq<string>): seq<ReasoningPart> {
    if texts == [] then [] else [Tagged(texts[0])] + SummaryFrom(texts[1..])
  }

  /** An input item read as an output item. */
  function ItemFrom(item: InputItem): Item {
    match item
    case MessageInput(_, content) => NO_ITEM.(kind := MessageItem, parts := PartsFrom(content))
    case ReasoningInput(summary, encrypted) => NO_ITEM.(kind := ReasoningItem, summary := SummaryFrom(summary),
        encrypted := encrypted)
    case CallInput(callId, name, arguments) => NO_ITEM.(kind := ToolItem, callId := callId, name := name,
        arguments := arguments)
    case ResultInput(_, _) => NO_ITEM
  }

  function ItemsFrom(items: seq<InputItem>): seq<Item> {
    if items == [] then [] else [ItemFrom(items[0])] + ItemsFrom(items[1..])
  }

  /** The blocks an atom of an assistant turn comes back as. */
  function BlocksOf(a: Atom): seq<FinalBlock> {
    match a
    case Piece(_, part) => WholeParts([PartFrom(part)])
    case Single(item) => WholeItem(ItemFrom(item))
  }

  function AllBlocks(atoms: seq<Atom>): seq<FinalBlock> {
    if atoms == [] then [] else BlocksOf(atoms[0]) + AllBlocks(atoms[1..])
  }

  lemma {:induction false} AllBlocksAppend(a: seq<Atom>, b: seq<Atom>)
    ensures AllBlocks(a + b) == AllBlocks(a) + AllBlocks(b)
    decreases |a|
  {
    if a == [] {
      EmptyEnds(b);
    } else {
      AppendHead(a, b);
      AllBlocksAppend(a[1..], b);
    }
  }

  /** Grouping texts into one message item makes no difference to the way back. */
  lemma {:induction false} PiecesBlocks(role: Role, content: seq<OutPart>)
    ensures AllBlocks(Pieces(role, content)) == WholeParts(PartsFrom(content))
    decreases |content|
  {
    if content != [] {
      PiecesBlocks(role, content[1..]);
      var pieces := Pieces(role, content);
      assert pieces[1..] == Pieces(role, content[1..]);
      WholePartsAppend([PartFrom(content[0])], PartsFrom(content[1..]));
    }
  }

  lemma {:induction false} FlattenBlocks(items: seq<InputItem>)
    ensures AllBlocks(Flatten(items)) == WholeBlocks(ItemsFrom(items))
    decreases |items|
  {
    if items != [] {
      var item := items[0];
      FlattenBlocks(items[1..]);
      AllBlocksAppend(AtomsOf(item), Flatten(items[1..]));
      if item.MessageInput? {
        PiecesBlocks(item.role, item.content);
      } else {
        assert AtomsOf(item)[1..] == [];
        EmptyEnds(WholeItem(ItemFrom(item)));
      }
      assert ItemsFrom(items)[1..] == ItemsFrom(items[1..]);
    }
  }

  /** Printing objects as JSON leaves nothing to trim. */
  ghost predicate PrintsTrimmed<J(!new)>(json: Codec<J>) {
    RoundTrips(json) && forall j :: Trimmed(json.encode(j))
  }

  /** Exactly the blocks that survive: trimmed, not empty where empty ones are dropped, and with no
      signature that would be taken for redacted data. */
  predicate Stable<J>(b: MessageContent<J>) {
    match b
    case SaidText(text) => Trimmed(text)
    case SaidThinking(thinking, signature) =>
      Trimmed(thinking) && Trimmed(signature) && !HasPrefix(signature, REDACTED_PREFIX) && (thinking != ""
          || signature != "")
    case SaidRedacted(data) => Trimmed(data) && data != ""
    case SaidTool(id, name, _) => Trimmed(id) && Trimmed(name)
  }

  /** What one block comes back as. */
  function Returned<J>(b: MessageContent<J>): seq<MessageContent<J>> {
    match b
    case SaidText(text) => [SaidText(Trim(text))]
    case SaidThinking(thinking, signature) =>
      if HasPrefix(Trim(signature), REDACTED_PREFIX) then [SaidRedacted(TrimPrefix(Trim(signature), REDACTED_PREFIX))]
      else if Trim(thinking) == "" && Trim(signature) == "" then []
      else [SaidThinking(Trim(thinking), Trim(signature))]
    case SaidRedacted(data) => if Trim(data) == "" then [] else [SaidRedacted(Trim(data))]
    case SaidTool(id, name, input) => [SaidTool(Trim(id), Trim(name), input)]
  }

  lemma FirstOfOne(a: string)
    ensures FirstOf(a, "") == Trim(a)
  {
    assert Trim("") == "";
  }

  lemma PrefixTrimmed(data: string)
    requires Trimmed(data) && data != ""
    ensures Trim(REDACTED_PREFIX + data) == REDACTED_PREFIX + data
    ensures HasPrefix(REDACTED_PREFIX + data, REDACTED_PREFIX)
             && TrimPrefix(REDACTED_PREFIX + data, REDACTED_PREFIX) == data
  {
    var s := REDACTED_PREFIX + data;
    assert s[0] == 'c' && s[|s| - 1] == data[|data| - 1];
    TrimShape(s);
  }

  lemma {:induction false} AllBlocksOne(a: Atom)
    ensures AllBlocks([a]) == BlocksOf(a)
  {
    NothingAfter(a);
    EmptyEnds(BlocksOf(a));
  }

  lemma OneSummary(text: string, encrypted: string)
    requires Trimmed(text)
    ensures ReasoningText(ItemFrom(ReasoningInput([text], encrypted))) == text
  {
    NothingAfter(text);
    assert SummaryFrom([text]) == [Tagged(text)];
    NothingAfter(Tagged(text));
    TrimShape(text);
    assert JoinReasoning([Tagged(text)]) == text + JoinReasoning([]);
    EmptyEnds(text);
  }

  lemma {:induction false} ThinkingReturns<J>(thinking: string, signature: string, json: Codec<J>)
    ensures Decode(json, WholeItem(ItemFrom(ReasoningInput([Trim(thinking)], Trim(signature)))))
            == Ok(Returned(SaidThinking(thinking, signature)))
  {
    var item := ItemFrom(ReasoningInput([Trim(thinking)], Trim(signature)));
    TrimShape(thinking);
    TrimShape(signature);
    OneSummary(Trim(thinking), Trim(signature));
    if WholeItem(item) != [] {
      DecodeSingle(json, WholeItem(item)[0]);
      assert WholeItem(item) == [WholeItem(item)[0]];
    }
  }

  lemma {:induction false} RedactedReturns<J>(data: string, json: Codec<J>)
    requires Trim(data) != ""
    ensures Decode(json, WholeItem(ItemFrom(ReasoningInput([], REDACTED_PREFIX + Trim(data)))))
            == Ok([SaidRedacted(Trim(data))])
  {
    TrimShape(data);
    PrefixTrimmed(Trim(data));
    DecodeSingle(json, RedactedFinal(Trim(data)));
  }

  lemma {:induction false} ToolReturns<J(!new)>(id: string, name: string, input: J, json: Codec<J>)
    requires PrintsTrimmed(json)
    ensures Decode(json, WholeItem(ItemFrom(CallInput(FirstOf(id, ""), Trim(name), json.encode(input)))))
            == Ok([SaidTool(Trim(id), Trim(name), input)])
  {
    FirstOfOne(id);
    TrimShape(id);
    FirstOfOne(Trim(id));
    TrimShape(name);
    FirstOfOne(json.encode(input));
    TrimShape(json.encode(input));
    DecodeSingle(json, ToolFinal(Trim(id), Trim(name), json.encode(input)));
  }

  /** A tool call is known by its `id` or, when that is blank, by its `tool_use_id`. */
  lemma CallKnownBy<J>(role: Role, id: string, toolUseId: string, name: string, input: J, json: Codec<J>)
    ensures PartAtoms(role, ToolUseIn(id, toolUseId, name, input), json)
            == PartAtoms(role, ToolUseIn(if Trim(id) != "" then id else toolUseId, "", name, input), json)
  {
    assert Trim("") == "";
  }

  lemma {:induction false} TextReturns<J>(text: string, json: Codec<J>)
    ensures Decode(json, WholeParts([PartFrom(OutputText(Trim(text)))])) == Ok([SaidText(Trim(text))])
  {
    OnePart(json, PartFrom(OutputText(Trim(text))));
    FirstOfOne(Trim(text));
    TrimShape(text);
  }

  lemma {:induction false} BlockReturns<J(!new)>(b: MessageContent<J>, json: Codec<J>)
    requires PrintsTrimmed(json)
    ensures PartAtoms(Assistant, Resent(b), json).Fine?
    ensures Decode(json, AllBlocks(PartAtoms(Assistant, Resent(b), json).value)) == Ok(Returned(b))
  {
    var atoms := PartAtoms(Assistant, Resent(b), json).value;
    if atoms != [] {
      AllBlocksOne(atoms[0]);
      assert atoms == [atoms[0]];
    }
    match b
    case SaidText(text) => TextReturns(text, json);
    case SaidThinking(thinking, signature) => ThinkingReturns(thinking, signature, json);
    case SaidRedacted(data) =>
      if Trim(data) != "" {
        RedactedReturns(data, json);
      }
    case SaidTool(id, name, input) => ToolReturns(id, name, input, json);
  }

  lemma ReturnedStable<J>(b: MessageContent<J>)
    ensures |Returned(b)| <= 1 && (Returned(b) == [b] <==> Stable(b))
  {
    match b
    case SaidText(text) => TrimShape(text);
    case SaidThinking(thinking, signature) => {
      TrimShape(thinking);
      TrimShape(signature);
    }
    case SaidRedacted(data) => TrimShape(data);
    case SaidTool(id, name, _) => {
      TrimShape(id);
      TrimShape(name);
    }
  }

  function ReturnedAll<J>(blocks: seq<MessageContent<J>>): seq<MessageContent<J>> {
    if blocks == [] then [] else ReturnedAll(blocks[..|blocks| - 1]) + Returned(blocks[|blocks| - 1])
  }

  lemma {:induction false} TurnReturns<J(!new)>(blocks: seq<MessageContent<J>>, json: Codec<J>)
    requires PrintsTrimmed(json)
    ensures var atoms := PartsAtoms(Assistant, ResentAll(blocks), json);
            atoms.Fine? && Decode(json, AllBlocks(atoms.value)) == Ok(ReturnedAll(blocks))
    decreases |blocks|
  {
    if blocks != [] {
      var front, last := blocks[..|blocks| - 1], blocks[|blocks| - 1];
      TurnReturns(front, json);
      BlockReturns(last, json);
      var parts := ResentAll(blocks);
      assert parts[..|parts| - 1] == ResentAll(front);
      var a, b := PartsAtoms(Assistant, ResentAll(front), json).value, PartAtoms(Assistant, Resent(last), json).value;
      AllBlocksAppend(a, b);
      DecodeAppend(json, AllBlocks(a), AllBlocks(b));
    }
  }

  /** Shorter front, at most one more: both must be full for the whole to be. */
  lemma SplitEqual<T>(r: seq<T>, s: seq<T>, front: seq<T>, last: T)
    requires |r| <= |front| && |s| <= 1
    ensures r + s == front + [last] <==> r == front && s == [last]
  {
    if r + s == front + [last] {
      assert r == (r + s)[..|front|] == front;
      assert s == (r + s)[|front|..] == [last];
    }
  }

  lemma {:induction false} AllStable<J>(blocks: seq<MessageContent<J>>)
    ensures |ReturnedAll(blocks)| <= |blocks|
    ensures ReturnedAll(blocks) == blocks <==> StableAll(blocks)
    decreases |blocks|
  {
    if blocks != [] {
      var front, last := blocks[..|blocks| - 1], blocks[|blocks| - 1];
      AllStable(front);
      ReturnedStable(last);
      StableSnoc(front, last);
      assert blocks == front + [last];
      SplitEqual(ReturnedAll(front), Returned(last), front, last);
    }
  }

  predicate StableAll<J>(blocks: seq<MessageContent<J>>) {
    forall i :: 0 <= i < |blocks| ==> Stable(blocks[i])
  }

  lemma StableSnoc<J>(front: seq<MessageContent<J>>, last: MessageContent<J>)
    ensures StableAll(front + [last]) <==> StableAll(front) && Stable(last)
  {
    var all := front + [last];
    assert forall i :: 0 <= i < |front| ==> all[i] == front[i];
    assert all[|front|] == last;
  }

  /** An assistant turn, sent to the Responses API and translated back, is what it was if and only if
      every block is stable, although texts are merged into message items on the way. */
  lemma {:induction false} AssistantTurnRoundTrip<J(!new)>(blocks: seq<MessageContent<J>>, json: Codec<J>)
    requires PrintsTrimmed(json)
    ensures var turn := PartsMessage(Assistant, ResentAll(blocks));
            && MessageAtoms(turn, json).Fine?
            && (Decode(json, WholeBlocks(ItemsFrom(MessageItems(turn, json)))) == Ok(blocks)
                <==> StableAll(blocks))
  {
    var turn := PartsMessage(Assistant, ResentAll(blocks));
    TurnReturns(blocks, json);
    MessageFlattens(turn, json);
    FlattenBlocks(MessageItems(turn, json));
    AllStable(blocks);
  }
}
