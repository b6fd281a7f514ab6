/** internal/translate/claude_responses.go: a request's messages. */
module ClaudeRequest {
  import opened Text
  import opened Responses

  // The messages of a Claude request as Responses input items.

  datatype Role = User | Assistant | OtherRole

  /** Where an image or a document comes from. */
  datatype Source = NoSource | Base64(mediaType: string,
      data: string) | Url(url: string) | Literal(data: string) | OtherSource

  datatype ResultPart = ResultText(text: string) | ResultImage(source: Source) | OtherResult

  datatype ResultContent = PlainResult(text: string) | PartsResult(parts: seq<ResultPart>)

  /** One content part of a Claude message. */
  datatype InPart<+J> =
    | TextIn(text: string)
    | ImageIn(source: Source)
    | DocumentIn(source: Source, title: string)
    | ThinkingIn(thinking: string, signature: string)
    | RedactedIn(data: string)
    | ToolUseIn(id: string, toolUseId: string, name: string, input: J)
    | ToolResultIn(toolUseId: string, content: ResultContent)
    | OtherIn

  datatype InMessage<+J> = PlainMessage(role: Role, text: string) | PartsMessage(role: Role, parts: seq<InPart<J>>)

  /** `claudeContentParts`. */
  function ContentParts<J>(m: InMessage<J>): seq<InPart<J>> {
    if m.PlainMessage? then [TextIn(m.text)] else m.parts
  }

  datatype OutPart =
    | InputText(text: string)
    | OutputText(text: string)
    | InputImage(imageUrl: string)
    | InputFile(fileData: Option<string>, fileUrl: Option<string>, filename: string)

  datatype ResultOutput = TextOutput(text: string) | PartsOutput(parts: seq<OutPart>)

  datatype InputItem =
    | MessageInput(role: Role, content: seq<OutPart>)
    | ReasoningInput(summary: seq<string>, encrypted: string)
    | CallInput(callId: string, name: string, arguments: string)
    | ResultInput(callId: string, output: ResultOutput)

  datatype BadPart = SourceMissing | SourceUnsupported

  datatype Translated<+T> = Fine(value: T) | Bad(error: BadPart)

  function DataUrl(mediaType: string, data: string): string {
    "data:" + FirstOf(mediaType, "application/octet-stream") + ";base64," + Trim(data)
  }

  /** `claudeImageToResponses`. */
  function ImageOut(source: Source): Translated<OutPart> {
    match source
    case NoSource => Bad(SourceMissing)
    case Base64(mediaType, data) => Fine(InputImage(DataUrl(mediaType, data)))
    case Url(url) => Fine(InputImage(Trim(url)))
    case _ => Bad(SourceUnsupported)
  }

  /** `claudeDocumentToResponses`. */
  function DocumentOut(source: Source, title: string): Translated<OutPart> {
    match source
    case NoSource => Bad(SourceMissing)
    case Base64(mediaType, data) => Fine(InputFile(Some(DataUrl(mediaType, data)), None, Trim(title)))
    case Url(url) => Fine(InputFile(None, Some(Trim(url)), Trim(title)))
    case Literal(data) => Fine(InputFile(Some(Trim(data)), None, Trim(title)))
    case OtherSource => Bad(SourceUnsupported)
  }

  function ResultParts(parts: seq<ResultPart>): Translated<seq<OutPart>> {
    if parts == [] then Fine([])
    else
      var last, front := parts[|parts| - 1], ResultParts(parts[..|parts| - 1]);
      if front.Bad? then front
      else
        match last
        case ResultText(text) => Fine(front.value + [InputText(Trim(text))])
        case ResultImage(source) =>
          if ImageOut(source).Bad? then Bad(ImageOut(source).error) else Fine(front.value + [ImageOut(source).value])
        case OtherResult => front
  }

  /** `claudeToolResultOutput`. */
  function ResultOut(content: ResultContent): Translated<ResultOutput> {
    match content
    case PlainResult(text) => Fine(TextOutput(text))
    case PartsResult(parts) =>
      match ResultParts(parts)
      case Bad(e) => Bad(e)
      case Fine(out) => Fine(if out == [] then TextOutput("") else PartsOutput(out))
  }

  // ---- What each part contributes ----

  /** A piece of a message of the given role, or a whole item. */
  datatype Atom = Piece(role: Role, part: OutPart) | Single(item: InputItem)

  /** The translation of one part by itself; a part that is not recognised contributes nothing, and
      neither does an empty redacted one. */
  function PartAtoms<J>(role: Role, part: InPart<J>, json: Codec<J>): Translated<seq<Atom>> {
    match part
    case TextIn(text) => Fine([Piece(role, if role.Assistant? then OutputText(Trim(text)) else InputText(Trim(text)))])
    case ImageIn(source) =>
      if ImageOut(source).Bad? then Bad(ImageOut(source).error) else Fine([Piece(role, ImageOut(source).value)])
    case DocumentIn(source, title) =>
      if DocumentOut(source, title).Bad? then Bad(DocumentOut(source, title).error)
      else Fine([Piece(role, DocumentOut(source, title).value)])
    case ThinkingIn(thinking, signature) => Fine([Single(ReasoningInput([Trim(thinking)], Trim(signature)))])
    case RedactedIn(data) =>
      Fine(if Trim(data) == "" then [] else [Single(ReasoningInput([], REDACTED_PREFIX + Trim(data)))])
    case ToolUseIn(id, toolUseId, name, input) =>
      Fine([Single(CallInput(FirstOf(id, toolUseId), Trim(name), json.encode(input)))])
    case ToolResultIn(toolUseId, content) =>
      if ResultOut(content).Bad? then Bad(ResultOut(content).error)
      else Fine([Single(ResultInput(Trim(toolUseId), ResultOut(content).value))])
    case OtherIn => Fine([])
  }

  function PartsAtoms<J>(role: Role, parts: seq<InPart<J>>, json: Codec<J>): Translated<seq<Atom>> {
    if parts == [] then Fine([])
    else
      var front, last := PartsAtoms(role, parts[..|parts| - 1], json), PartAtoms(role, parts[|parts| - 1], json);
      if front.Bad? then front else if last.Bad? then last else Fine(front.value + last.value)
  }

  /** What a whole message contributes: nothing unless it is the user's or the assistant's. */
  function MessageAtoms<J>(m: InMessage<J>, json: Codec<J>): Translated<seq<Atom>> {
    if m.role.OtherRole? then Fine([]) else PartsAtoms(m.role, ContentParts(m), json)
  }

  function RequestAtoms<J>(messages: seq<InMessage<J>>, json: Codec<J>): Translated<seq<Atom>> {
    if messages == [] then Fine([])
    else
      var front, last := RequestAtoms(messages[..|messages| - 1], json), MessageAtoms(messages[|messages| - 1], json);
      if front.Bad? then front else if last.Bad? then last else Fine(front.value + last.value)
  }

  // ---- Reading the result back ----

  function Pieces(role: Role, parts: seq<OutPart>): seq<Atom> {
    if parts == [] then [] else [Piece(role, parts[0])] + Pieces(role, parts[1..])
  }

  function AtomsOf(item: InputItem): seq<Atom> {
    if item.MessageInput? then Pieces(item.role, item.content) else [Single(item)]
  }

  /** Take the message groups apart again. */
  function Flatten(items: seq<InputItem>): seq<Atom> {
    if items == [] then [] else AtomsOf(items[0]) + Flatten(items[1..])
  }

  lemma {:induction false} PiecesAppend(role: Role, a: seq<OutPart>, b: seq<OutPart>)
    ensures Pieces(role, a + b) == Pieces(role, a) + Pieces(role, b)
    decreases |a|
  {
    if a == [] {
      EmptyEnds(b);
    } else {
      AppendHead(a, b);
      PiecesAppend(role, a[1..], b);
    }
  }

  lemma {:induction false} FlattenAppend(a: seq<InputItem>, b: seq<InputItem>)
    ensures Flatten(a + b) == Flatten(a) + Flatten(b)
    decreases |a|
  {
    if a == [] {
      EmptyEnds(b);
    } else {
      AppendHead(a, b);
      FlattenAppend(a[1..], b);
    }
  }

  lemma {:induction false} FlattenOne(item: InputItem)
    ensures Flatten([item]) == AtomsOf(item)
  {
    NothingAfter(item);
    EmptyEnds(AtomsOf(item));
  }

  // ---- Accumulate and flush ----

  /** The loop's two lists. */
  datatype Groups = Groups(input: seq<InputItem>, pending: seq<OutPart>)

  /** Everything said so far, the unfinished group included. */
  function Told(g: Groups, role: Role): seq<Atom> {
    Flatten(g.input) + Pieces(role, g.pending)
  }

  function Flushed(g: Groups, role: Role): Groups {
    if g.pending == [] then g else Groups(g.input + [MessageInput(role, g.pending)], [])
  }

  /** Pieces wait in the unfinished group; everything else ends it. */
  function Take<J>(g: Groups, role: Role, part: InPart<J>, atoms: seq<Atom>): Groups {
    if part.OtherIn? then g
    else if atoms == [] then Flushed(g, role)
    else if atoms[0].Piece? then g.(pending := g.pending + [atoms[0].part])
    else
      var f := Flushed(g, role);
      f.(input := f.input + [atoms[0].item])
  }

  lemma FlushedTells(g: Groups, role: Role)
    ensures Told(Flushed(g, role), role) == Told(g, role) && Flushed(g, role).pending == []
  {
    if g.pending != [] {
      FlattenAppend(g.input, [MessageInput(role, g.pending)]);
      FlattenOne(MessageInput(role, g.pending));
      assert Told(Flushed(g, role), role) == Flatten(Flushed(g, role).input) + [];
    }
  }

  lemma PieceTells(g: Groups, role: Role, p: OutPart)
    ensures Told(g.(pending := g.pending + [p]), role) == Told(g, role) + [Piece(role, p)]
  {
    PiecesAppend(role, g.pending, [p]);
    NothingAfter(p);
    assert Pieces(role, [p]) == [Piece(role, p)];
    assert Flatten(g.input) + (Pieces(role, g.pending) + [Piece(role, p)]) == Told(g, role) + [Piece(role, p)];
  }

  lemma SingleTells(g: Groups, role: Role, item: InputItem)
    requires !item.MessageInput?
    ensures var f := Flushed(g, role);
            Told(f.(input := f.input + [item]), role) == Told(g, role) + [Single(item)]
  {
    FlushedTells(g, role);
    var f := Flushed(g, role);
    FlattenAppend(f.input, [item]);
    FlattenOne(item);
    EmptyEnds(Flatten(f.input));
    EmptyEnds(Flatten(f.input + [item]));
  }

  /** A part contributes one atom at most. */
  lemma AtMostOne<J>(role: Role, part: InPart<J>, json: Codec<J>) returns (atoms: seq<Atom>)
    requires PartAtoms(role, part, json).Fine?
    ensures atoms == PartAtoms(role, part, json).value
    ensures atoms == [] || (exists p :: atoms == [Piece(role, p)])
             || (exists item: InputItem :: !item.MessageInput? && atoms == [Single(item)])
    ensures part.OtherIn? ==> atoms == []
  {
    atoms := PartAtoms(role, part, json).value;
    if atoms != [] {
      assert atoms == [atoms[0]];
      if atoms[0].Piece? {
        assert atoms == [Piece(role, atoms[0].part)];
      } else {
        assert atoms == [Single(atoms[0].item)];
      }
    }
  }

  lemma TakeTells<J>(g: Groups, role: Role, part: InPart<J>, json: Codec<J>)
    requires PartAtoms(role, part, json).Fine?
    ensures var atoms := PartAtoms(role, part, json).value;
            Told(Take(g, role, part, atoms), role) == Told(g, role) + atoms
  {
    var atoms := AtMostOne(role, part, json);
    if atoms == [] {
      FlushedTells(g, role);
      EmptyEnds(Told(g, role));
    } else if atoms[0].Piece? {
      PieceTells(g, role, atoms[0].part);
    } else {
      SingleTells(g, role, atoms[0].item);
    }
  }

  predicate GroupsFilled(items: seq<InputItem>) {
    forall i :: 0 <= i < |items| ==> (items[i].MessageInput? ==> items[i].content != [])
  }

  /** The groups after a message's parts. */
  function TakeAll<J>(g: Groups, role: Role, parts: seq<InPart<J>>, json: Codec<J>): Groups
    requires PartsAtoms(role, parts, json).Fine?
    decreases |parts|
  {
    if parts == [] then g
    else
      var last := parts[|parts| - 1];
      Take(TakeAll(g, role, parts[..|parts| - 1], json), role, last, PartAtoms(role, last, json).value)
  }

  /** The items of one message. */
  function MessageItems<J>(m: InMessage<J>, json: Codec<J>): seq<InputItem>
    requires MessageAtoms(m, json).Fine?
  {
    if m.role.OtherRole? then [] else Flushed(TakeAll(Groups([], []), m.role, ContentParts(m), json), m.role).input
  }

  /** The items of all messages: no group spans two of them. */
  function RequestItems<J>(messages: seq<InMessage<J>>, json: Codec<J>): seq<InputItem>
    requires RequestAtoms(messages, json).Fine?
  {
    if messages == [] then []
    else RequestItems(messages[..|messages| - 1], json) + MessageItems(messages[|messages| - 1], json)
  }

  lemma {:induction false} TakeAllTells<J>(g: Groups, role: Role, parts: seq<InPart<J>>, json: Codec<J>)
    requires PartsAtoms(role, parts, json).Fine?
    ensures Told(TakeAll(g, role, parts, json), role) == Told(g, role) + PartsAtoms(role, parts, json).value
    decreases |parts|
  {
    if parts == [] {
      EmptyEnds(Told(g, role));
    } else {
      var front, last := parts[..|parts| - 1], parts[|parts| - 1];
      TakeAllTells(g, role, front, json);
      TakeTells(TakeAll(g, role, front, json), role, last, json);
      assert Told(g, role) + PartsAtoms(role, front, json).value + PartAtoms(role, last, json).value
          == Told(g, role) + (PartsAtoms(role, front, json).value + PartAtoms(role, last, json).value);
    }
  }

  lemma {:induction false} TakeAllFilled<J>(role: Role, parts: seq<InPart<J>>, json: Codec<J>)
    requires PartsAtoms(role, parts, json).Fine? && role != OtherRole
    ensures var g := TakeAll(Groups([], []), role, parts, json);
            GroupsFilled(g.input) && GroupsOf(g.input, role)
    decreases |parts|
  {
    if parts != [] {
      TakeAllFilled(role, parts[..|parts| - 1], json);
    }
  }

  /** Every message group is of this role. */
  predicate GroupsOf(items: seq<InputItem>, role: Role) {
    forall i :: 0 <= i < |items| ==> (items[i].MessageInput? ==> items[i].role == role)
  }

  lemma {:induction false} MessageFlattens<J>(m: InMessage<J>, json: Codec<J>)
    requires MessageAtoms(m, json).Fine?
    ensures Flatten(MessageItems(m, json)) == MessageAtoms(m, json).value
    ensures GroupsFilled(MessageItems(m, json)) && GroupsOf(MessageItems(m, json), m.role)
  {
    if !m.role.OtherRole? {
      TakeAllTells(Groups([], []), m.role, ContentParts(m), json);
      TakeAllFilled(m.role, ContentParts(m), json);
      var g := TakeAll(Groups([], []), m.role, ContentParts(m), json);
      FlushedTells(g, m.role);
      assert Told(Groups([], []), m.role) == [];
      EmptyEnds(Flatten(Flushed(g, m.role).input));
      EmptyEnds(MessageAtoms(m, json).value);
    }
  }

  /** Taken apart again, the input items are the translated parts of the user's and the assistant's
      messages, in their order, each exactly once; and no group is empty. A call that precedes its
      result therefore still does. */
  lemma {:induction false} RequestFlattens<J>(messages: seq<InMessage<J>>, json: Codec<J>)
    requires RequestAtoms(messages, json).Fine?
    ensures Flatten(RequestItems(messages, json)) == RequestAtoms(messages, json).value
    ensures GroupsFilled(RequestItems(messages, json))
    decreases |messages|
  {
    if messages != [] {
      var front, last := messages[..|messages| - 1], messages[|messages| - 1];
      RequestFlattens(front, json);
      MessageFlattens(last, json);
      FlattenAppend(RequestItems(front, json), MessageItems(last, json));
    }
  }

  // ---- The loops ----

  method ToolResultOutput(content: ResultContent) returns (out: Translated<ResultOutput>)
    ensures out == ResultOut(content)
  {
    if content.PlainResult? {
      return Fine(TextOutput(content.text));
    }
    var parts: seq<OutPart> := [];
    for i := 0 to |content.parts|
      invariant ResultParts(content.parts[..i]) == Fine(parts)
    {
      assert content.parts[..i + 1][..i] == content.parts[..i];
      match content.parts[i] {
        case ResultText(text) => parts := parts + [InputText(Trim(text))];
        case ResultImage(source) =>
          var image := ImageOut(source);
          if image.Bad? {
            ResultPartsFail(content.parts, i + 1);
            return Bad(image.error);
          }
          parts := parts + [image.value];
        case OtherResult =>
      }
    }
    assert content.parts[..|content.parts|] == content.parts;
    return Fine(if |parts| == 0 then TextOutput("") else PartsOutput(parts));
  }

  lemma {:induction false} ResultPartsFail(parts: seq<ResultPart>, i: nat)
    requires i <= |parts| && ResultParts(parts[..i]).Bad?
    ensures ResultParts(parts) == ResultParts(parts[..i])
    decreases |parts|
  {
    if i == |parts| {
      assert parts[..i] == parts;
    } else {
      assert parts[..|parts| - 1][..i] == parts[..i];
      ResultPartsFail(parts[..|parts| - 1], i);
    }
  }

  lemma {:induction false} PartsFail<J>(role: Role, parts: seq<InPart<J>>, json: Codec<J>, i: nat)
    requires i <= |parts| && PartsAtoms(role, parts[..i], json).Bad?
    ensures PartsAtoms(role, parts, json) == PartsAtoms(role, parts[..i], json)
    decreases |parts|
  {
    if i == |parts| {
      assert parts[..i] == parts;
    } else {
      assert parts[..|parts| - 1][..i] == parts[..i];
      PartsFail(role, parts[..|parts| - 1], json, i);
    }
  }

  lemma {:induction false} RequestFails<J>(messages: seq<InMessage<J>>, json: Codec<J>, i: nat)
    requires i <= |messages| && RequestAtoms(messages[..i], json).Bad?
    ensures RequestAtoms(messages, json) == RequestAtoms(messages[..i], json)
    decreases |messages|
  {
    if i == |messages| {
      assert messages[..i] == messages;
    } else {
      assert messages[..|messages| - 1][..i] == messages[..i];
      RequestFails(messages[..|messages| - 1], json, i);
    }
  }

  /** One part, as the switch of `claudeRequestToResponses` treats it. */
  method TakePart<J>(g: Groups, role: Role, part: InPart<J>, json: Codec<J>) returns (out: Translated<Groups>)
    ensures out == match PartAtoms(role, part, json)
                   case Bad(e) => Bad(e)
                   case Fine(atoms) => Fine(Take(g, role, part, atoms))
  {
    var input, pending := g.input, g.pending;
    if part.ThinkingIn? || part.RedactedIn? || part.ToolUseIn? || part.ToolResultIn? {
      if |pending| > 0 {
        input, pending := input + [MessageInput(role, pending)], [];
      }
    }
    match part {
      case TextIn(text) =>
        pending := pending + [if role.Assistant? then OutputText(Trim(text)) else InputText(Trim(text))];
      case ImageIn(source) =>
        var image := ImageOut(source);
        if image.Bad? {
          return Bad(image.error);
        }
        pending := pending + [image.value];
      case DocumentIn(source, title) =>
        var document := DocumentOut(source, title);
        if document.Bad? {
          return Bad(document.error);
        }
        pending := pending + [document.value];
      case ThinkingIn(thinking, signature) =>
        input := input + [ReasoningInput([Trim(thinking)], Trim(signature))];
      case RedactedIn(data) =>
        if Trim(data) != "" {
          input := input + [ReasoningInput([], REDACTED_PREFIX + Trim(data))];
        }
      case ToolUseIn(id, toolUseId, name, arguments) =>
        input := input + [CallInput(FirstOf(id, toolUseId), Trim(name), json.encode(arguments))];
      case ToolResultIn(toolUseId, content) =>
        var output := ToolResultOutput(content);
        if output.Bad? {
          return Bad(output.error);
        }
        input := input + [ResultInput(Trim(toolUseId), output.value)];
      case OtherIn =>
    }
    return Fine(Groups(input, pending));
  }

  method MessageInputs<J>(m: InMessage<J>, json: Codec<J>) returns (out: Translated<seq<InputItem>>)
    requires !m.role.OtherRole?
    ensures out.Bad? ==> MessageAtoms(m, json) == Bad(out.error)
    ensures out.Fine? ==> MessageAtoms(m, json).Fine? && out.value == MessageItems(m, json)
  {
    var parts := ContentParts(m);
    var g := Groups([], []);
    for i := 0 to |parts|
      invariant PartsAtoms(m.role, parts[..i], json).Fine?
      invariant g == TakeAll(Groups([], []), m.role, parts[..i], json)
    {
      assert parts[..i + 1][..i] == parts[..i];
      var next := TakePart(g, m.role, parts[i], json);
      if next.Bad? {
        PartsFail(m.role, parts, json, i + 1);
        return Bad(next.error);
      }
      g := next.value;
    }
    assert parts[..|parts|] == parts;
    if |g.pending| > 0 {
      g := Groups(g.input + [MessageInput(m.role, g.pending)], []);
    }
    return Fine(g.input);
  }

  /** The `input` of `claudeRequestToResponses`: the first bad part stops the translation. */
  method RequestInput<J>(messages: seq<InMessage<J>>, json: Codec<J>) returns (out: Translated<seq<InputItem>>)
    ensures out.Bad? ==> RequestAtoms(messages, json) == Bad(out.error)
    ensures out.Fine? ==> RequestAtoms(messages, json).Fine? && out.value == RequestItems(messages, json)
  {
    var input: seq<InputItem> := [];
    for i := 0 to |messages|
      invariant RequestAtoms(messages[..i], json).Fine?
      invariant input == RequestItems(messages[..i], json)
    {
      assert messages[..i + 1][..i] == messages[..i];
      if messages[i].role.OtherRole? {
        EmptyEnds(input);
        continue;
      }
      var items := MessageInputs(messages[i], json);
      if items.Bad? {
        RequestFails(messages, json, i + 1);
        return Bad(items.error);
      }
      input := input + items.value;
    }
    assert messages[..|messages|] == messages;
    return Fine(input);
  }
}
