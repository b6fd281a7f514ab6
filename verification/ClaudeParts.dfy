/** Which parts of a Claude message can be read back. */
module ClaudeParts {
  import opened Text
  import opened Responses
  import opened ClaudeRequest
  import opened ClaudeTurn
  import opened SseDecoder

  // Texts, images, documents and tool results; and which requests are refused.

  // ---- Data URLs ----

  const SCHEME := "data:"
  const MARK := ";base64,"

  /** Is this a data URL? Its media type ends where the mark first occurs. */
  predicate IsDataUrl(url: string) {
    HasPrefix(url, SCHEME) && Index(url[|SCHEME|..], MARK) >= 0
  }

  function MediaTypeOf(url: string): string
    requires IsDataUrl(url)
  {
    var rest := url[|SCHEME|..];
    rest[..Index(rest, MARK)]
  }

  function DataOf(url: string): string
    requires IsDataUrl(url)
  {
    var rest := url[|SCHEME|..];
    rest[Index(rest, MARK) + |MARK|..]
  }

  /** The mark does not occur before it is put after this media type. */
  ghost predicate Markless(mediaType: string) {
    forall i :: OccursAt(mediaType + MARK, MARK, i) ==> i >= |mediaType|
  }

  lemma MarkAt(mediaType: string, data: string, i: int)
    requires i <= |mediaType|
    ensures OccursAt(mediaType + MARK + data, MARK, i) <==> OccursAt(mediaType + MARK, MARK, i)
  {
    var whole, front := mediaType + MARK + data, mediaType + MARK;
    if 0 <= i {
      assert i + |MARK| <= |front|;
      assert whole[..|front|] == front;
      assert whole[i..i + |MARK|] == front[i..i + |MARK|];
    }
  }

  /** A printed data URL reads as its media type and data, exactly if the media type does not contain the
      mark. */
  lemma DataUrlReads(mediaType: string, data: string)
    ensures var url := SCHEME + (mediaType + MARK + data);
            && IsDataUrl(url)
            && (MediaTypeOf(url) == mediaType && DataOf(url) == data <==> Markless(mediaType))
  {
    var rest := mediaType + MARK + data;
    var url := SCHEME + rest;
    assert url[|SCHEME|..] == rest;
    assert rest[|mediaType|..|mediaType| + |MARK|] == MARK;
    assert OccursAt(rest, MARK, |mediaType|);
    var k := Index(rest, MARK);
    assert 0 <= k <= |mediaType|;
    forall i | i <= |mediaType| ensures OccursAt(rest, MARK, i) <==> OccursAt(mediaType + MARK, MARK, i) {
      MarkAt(mediaType, data, i);
    }
    if k == |mediaType| {
      assert rest[..k] == mediaType && rest[k + |MARK|..] == data;
    } else {
      assert OccursAt(mediaType + MARK, MARK, k);
      assert |rest[..k]| < |mediaType|;
    }
  }

  /** Whatever is read, its media type does not contain the mark. */
  lemma DataUrlBounds(m: string, d: string, url: string)
    requires url == SCHEME + (m + MARK + d) && IsDataUrl(url)
    ensures Markless(MediaTypeOf(url)) && |MediaTypeOf(url)| <= |m|
    ensures |MediaTypeOf(url)| + |DataOf(url)| == |m| + |d|
    ensures MediaTypeOf(url) == m[..|MediaTypeOf(url)|]
  {
    var rest := m + MARK + d;
    assert url[|SCHEME|..] == rest;
    assert rest[|m|..|m| + |MARK|] == MARK;
    assert OccursAt(rest, MARK, |m|);
    var k := Index(rest, MARK);
    var t := MediaTypeOf(url);
    assert t == rest[..k] == m[..k];
    assert t + MARK == rest[..k + |MARK|];
    forall i | OccursAt(t + MARK, MARK, i) ensures i >= |t| {
      assert rest[i..i + |MARK|] == (t + MARK)[i..i + |MARK|];
      assert OccursAt(rest, MARK, i);
    }
  }

  /** A media type with no semicolon does not contain the mark. */
  lemma NoSemicolon(mediaType: string)
    requires ';' !in mediaType
    ensures Markless(mediaType)
  {
    assert forall k :: 0 <= k < |mediaType| ==> mediaType[k] in mediaType && (mediaType + MARK)[k] == mediaType[k];
    forall i | OccursAt(mediaType + MARK, MARK, i) ensures i >= |mediaType| {
      assert (mediaType + MARK)[i..i + |MARK|][0] == ';';
    }
  }

  // ---- Reading parts back ----

  /** An image's URL as a source. */
  function ImageSource(url: string): Source {
    if IsDataUrl(url) then Base64(MediaTypeOf(url), DataOf(url)) else Url(url)
  }

  /** An item's file as a source: its URL, a data URL, or plain text. */
  function FileSource(fileData: Option<string>, fileUrl: Option<string>): Source {
    match (fileData, fileUrl)
    case (Some(data), None) => if IsDataUrl(data) then Base64(MediaTypeOf(data), DataOf(data)) else Literal(data)
    case (None, Some(url)) => Url(url)
    case _ => NoSource
  }

  function ResultPartOf(p: OutPart): ResultPart {
    match p
    case InputText(text) => ResultText(text)
    case InputImage(url) => ResultImage(ImageSource(url))
    case _ => OtherResult
  }

  function ResultPartsOf(parts: seq<OutPart>): (out: seq<ResultPart>)
    ensures |out| == |parts|
  {
    if parts == [] then [] else ResultPartsOf(parts[..|parts| - 1]) + [ResultPartOf(parts[|parts| - 1])]
  }

  function ResultOf(out: ResultOutput): ResultContent {
    match out
    case TextOutput(text) => PlainResult(text)
    case PartsOutput(parts) => PartsResult(ResultPartsOf(parts))
  }

  /** The part of a message of the given role that an atom stands for: only an assistant's text is
      output text, and only in its own message does a piece stand for anything. */
  function PartOf<J>(role: Role, a: Atom): InPart<J> {
    match a
    case Single(ResultInput(callId, output)) => ToolResultIn(callId, ResultOf(output))
    case Piece(r, p) => if r == role then PieceOf(role, p) else OtherIn
    case _ => OtherIn
  }

  function PieceOf<J>(role: Role, p: OutPart): InPart<J> {
    match p
    case InputText(text) => if role.Assistant? then OtherIn else TextIn(text)
    case OutputText(text) => if role.Assistant? then TextIn(text) else OtherIn
    case InputImage(url) => ImageIn(ImageSource(url))
    case InputFile(fileData, fileUrl, filename) => DocumentIn(FileSource(fileData, fileUrl), filename)
  }

  function PartsOf<J>(role: Role, atoms: seq<Atom>): (out: seq<InPart<J>>)
    ensures |out| == |atoms|
  {
    if atoms == [] then [] else PartsOf(role, atoms[..|atoms| - 1]) + [PartOf(role, atoms[|atoms| - 1])]
  }

  // ---- Which parts survive ----

  /** Texts, images, documents and tool results. */
  predicate Sendable<J>(part: InPart<J>) {
    part.TextIn? || part.ImageIn? || part.DocumentIn? || part.ToolResultIn?
  }

  predicate PlainUrl(url: string) {
    Trimmed(url) && !IsDataUrl(url)
  }

  ghost predicate StableData(mediaType: string, data: string) {
    Trimmed(mediaType) && mediaType != "" && Markless(mediaType) && Trimmed(data)
  }

  ghost predicate StableImage(source: Source) {
    match source
    case Base64(mediaType, data) => StableData(mediaType, data)
    case Url(url) => PlainUrl(url)
    case _ => false
  }

  ghost predicate StableFile(source: Source) {
    match source
    case Base64(mediaType, data) => StableData(mediaType, data)
    case Url(url) => Trimmed(url)
    case Literal(data) => PlainUrl(data)
    case _ => false
  }

  ghost predicate StableResult(p: ResultPart) {
    match p
    case ResultText(text) => Trimmed(text)
    case ResultImage(source) => StableImage(source)
    case OtherResult => false
  }

  ghost predicate StableResults(parts: seq<ResultPart>) {
    forall i :: 0 <= i < |parts| ==> StableResult(parts[i])
  }

  /** A tool result that is one text is sent as it is, even untrimmed. */
  ghost predicate StableContent(content: ResultContent) {
    match content
    case PlainResult(_) => true
    case PartsResult(parts) => parts != [] && StableResults(parts)
  }

  /** Exactly the parts that survive: trimmed, and with no text or type that reads as something else. */
  ghost predicate StablePart<J>(part: InPart<J>) {
    match part
    case TextIn(text) => Trimmed(text)
    case ImageIn(source) => StableImage(source)
    case DocumentIn(source, title) => StableFile(source) && Trimmed(title)
    case ToolResultIn(callId, content) => Trimmed(callId) && StableContent(content)
    case _ => false
  }

  ghost predicate StableParts<J>(parts: seq<InPart<J>>) {
    forall i :: 0 <= i < |parts| ==> StablePart(parts[i])
  }

  lemma BlankIsSpace(s: string)
    requires Trim(s) == ""
    ensures AllSpace(s)
  {
    var a, b := TrimCuts(s);
    assert s == a + b;
  }

  /** What a base64 source reads back as when its media type is blank: the default one. */
  lemma DefaultMediaType(mediaType: string, data: string) returns (url: string)
    requires Trim(mediaType) == ""
    ensures url == DataUrl(mediaType, data) && IsDataUrl(url)
    ensures MediaTypeOf(url) == "application/octet-stream" && DataOf(url) == Trim(data)
    ensures MediaTypeOf(url) != mediaType
  {
    var m := "application/octet-stream";
    assert Trimmed(m);
    TrimShape(m);
    url := DataUrl(mediaType, data);
    assert url == SCHEME + (m + MARK + Trim(data));
    NoSemicolon(m);
    DataUrlReads(m, Trim(data));
    BlankIsSpace(mediaType);
    assert m[0] == 'a';
  }

  /** A base64 source comes back as it was exactly if it is stable. */
  lemma DataSurvives(mediaType: string, data: string) returns (url: string)
    ensures url == DataUrl(mediaType, data) && IsDataUrl(url)
    ensures Base64(MediaTypeOf(url), DataOf(url)) == Base64(mediaType, data) <==> StableData(mediaType, data)
  {
    if Trim(mediaType) == "" {
      url := DefaultMediaType(mediaType, data);
      TrimShape(mediaType);
      return;
    }
    var m, d := Trim(mediaType), Trim(data);
    TrimShape(mediaType);
    TrimShape(data);
    url := DataUrl(mediaType, data);
    assert url == SCHEME + (m + MARK + d);
    DataUrlReads(m, d);
    DataUrlBounds(m, d, url);
  }

  lemma ImageSurvives(source: Source)
    ensures ImageOut(source).Fine? ==>
              && ImageOut(source).value.InputImage?
              && (ImageSource(ImageOut(source).value.imageUrl) == source <==> StableImage(source))
  {
    match source
    case Base64(mediaType, data) => var _ := DataSurvives(mediaType, data);
    case Url(url) => TrimShape(url);
    case _ =>
  }

  lemma FileSurvives(source: Source, title: string)
    ensures var out := DocumentOut(source, title);
            out.Fine? ==>
              && out.value.InputFile?
              && (FileSource(out.value.fileData, out.value.fileUrl) == source && out.value.filename == title
                  <==> StableFile(source) && Trimmed(title))
  {
    TrimShape(title);
    match source
    case Base64(mediaType, data) => var _ := DataSurvives(mediaType, data);
    case Url(url) => TrimShape(url);
    case Literal(data) => TrimShape(data);
    case _ =>
  }

  lemma {:induction false} ResultPartsOfSnoc(front: seq<OutPart>, last: OutPart)
    ensures ResultPartsOf(front + [last]) == ResultPartsOf(front) + [ResultPartOf(last)]
  {
    assert (front + [last])[..|front|] == front;
  }

  /** What one part of a tool result contributes comes back as it exactly if it is stable. */
  lemma ResultSurvives(front: seq<OutPart>, p: ResultPart) returns (read: seq<ResultPart>)
    requires p.ResultImage? ==> ImageOut(p.source).Fine?
    ensures |read| <= 1 && (read == [p] <==> StableResult(p))
    ensures var out := match p
                       case ResultText(text) => front + [InputText(Trim(text))]
                       case ResultImage(source) => front + [ImageOut(source).value]
                       case OtherResult => front;
            ResultPartsOf(out) == ResultPartsOf(front) + read
  {
    match p
    case ResultText(text) => {
      TrimShape(text);
      ResultPartsOfSnoc(front, InputText(Trim(text)));
      read := [ResultText(Trim(text))];
    }
    case ResultImage(source) => {
      ImageSurvives(source);
      ResultPartsOfSnoc(front, ImageOut(source).value);
      read := [ResultPartOf(ImageOut(source).value)];
    }
    case OtherResult => {
      read := [];
      EmptyEnds(ResultPartsOf(front));
    }
  }

  lemma StableResultsSnoc(front: seq<ResultPart>, last: ResultPart)
    ensures StableResults(front + [last]) <==> StableResults(front) && StableResult(last)
  {
    var all := front + [last];
    assert forall i :: 0 <= i < |front| ==> all[i] == front[i];
    assert all[|front|] == last;
  }

  lemma {:induction false} ResultsSurvive(parts: seq<ResultPart>)
    requires ResultParts(parts).Fine?
    ensures var read := ResultPartsOf(ResultParts(parts).value);
            |read| <= |parts| && (read == parts <==> StableResults(parts))
    decreases |parts|
  {
    if parts != [] {
      var front, last := parts[..|parts| - 1], parts[|parts| - 1];
      ResultsSurvive(front);
      var out := ResultParts(front).value;
      var read := ResultSurvives(out, last);
      assert parts == front + [last];
      StableResultsSnoc(front, last);
      SplitEqual(ResultPartsOf(out), read, front, last);
    }
  }

  lemma {:induction false} ContentSurvives(content: ResultContent)
    requires ResultOut(content).Fine?
    ensures ResultOf(ResultOut(content).value) == content <==> StableContent(content)
  {
    if content.PartsResult? {
      ResultsSurvive(content.parts);
    }
  }

  /** A part that is sent contributes one atom, which reads back as the part exactly if it is stable. */
  lemma PartSurvives<J>(role: Role, part: InPart<J>, json: Codec<J>) returns (atom: Atom)
    requires Sendable(part) && PartAtoms(role, part, json).Fine?
    ensures PartAtoms(role, part, json).value == [atom]
    ensures PartOf(role, atom) == part <==> StablePart(part)
  {
    atom := PartAtoms(role, part, json).value[0];
    match part
    case TextIn(text) => TrimShape(text);
    case ImageIn(source) => ImageSurvives(source);
    case DocumentIn(source, title) => FileSurvives(source, title);
    case ToolResultIn(callId, content) => {
      TrimShape(callId);
      ContentSurvives(content);
    }
  }

  predicate AllSendable<J>(parts: seq<InPart<J>>) {
    forall i :: 0 <= i < |parts| ==> Sendable(parts[i])
  }

  lemma StablePartsLast<J>(parts: seq<InPart<J>>)
    requires parts != []
    ensures StableParts(parts) <==> StableParts(parts[..|parts| - 1]) && StablePart(parts[|parts| - 1])
  {
    assert forall i :: 0 <= i < |parts| - 1 ==> parts[..|parts| - 1][i] == parts[i];
  }

  lemma {:induction false} LastSurvives<J>(role: Role, parts: seq<InPart<J>>, json: Codec<J>)
    returns (atoms: seq<Atom>, atom: Atom)
    requires parts != [] && PartsAtoms(role, parts, json).Fine? && Sendable(parts[|parts| - 1])
    ensures PartsAtoms(role, parts[..|parts| - 1], json) == Fine(atoms)
    ensures PartsAtoms(role, parts, json) == Fine(atoms + [atom])
    ensures PartOf(role, atom) == parts[|parts| - 1] <==> StablePart(parts[|parts| - 1])
  {
    atoms := PartsAtoms(role, parts[..|parts| - 1], json).value;
    atom := PartSurvives(role, parts[|parts| - 1], json);
  }

  lemma {:induction false} PartsReadSnoc<J>(role: Role, atoms: seq<Atom>, atom: Atom, parts: seq<InPart<J>>)
    requires |atoms| + 1 == |parts|
    requires PartsOf(role, atoms) == parts[..|atoms|] <==> StableParts(parts[..|atoms|])
    requires PartOf(role, atom) == parts[|atoms|] <==> StablePart(parts[|atoms|])
    ensures PartsOf(role, atoms + [atom]) == parts <==> StableParts(parts)
  {
    assert (atoms + [atom])[..|atoms|] == atoms;
    StablePartsLast(parts);
    assert parts == parts[..|atoms|] + [parts[|atoms|]];
    SplitEqual(PartsOf(role, atoms), [PartOf(role, atom)], parts[..|atoms|], parts[|atoms|]);
  }

  lemma {:induction false} PartsSurvive<J>(role: Role, parts: seq<InPart<J>>, json: Codec<J>)
    requires PartsAtoms(role, parts, json).Fine? && AllSendable(parts)
    ensures var atoms := PartsAtoms(role, parts, json).value;
            |atoms| == |parts| && (PartsOf(role, atoms) == parts <==> StableParts(parts))
    decreases |parts|
  {
    if parts != [] {
      var atoms, atom := LastSurvives(role, parts, json);
      PartsSurvive(role, parts[..|parts| - 1], json);
      PartsReadSnoc(role, atoms, atom, parts);
    }
  }

  /** The texts, images, documents and tool results of a message, read back from its input items,
      are what they were if and only if every one is stable, although texts, images and documents
      travel in groups that tool results cut apart. */
  lemma TurnRoundTrip<J>(m: InMessage<J>, json: Codec<J>)
    requires !m.role.OtherRole? && MessageAtoms(m, json).Fine?
    requires AllSendable(ContentParts(m))
    ensures PartsOf(m.role, Flatten(MessageItems(m, json))) == ContentParts(m) <==> StableParts(ContentParts(m))
  {
    MessageFlattens(m, json);
    PartsSurvive(m.role, ContentParts(m), json);
  }

  // ---- What is refused ----

  /** The element that is refused first is refused for this reason. */
  ghost predicate FirstBad<T>(s: seq<T>, bad: (T, BadPart) -> bool, e: BadPart) {
    exists i :: 0 <= i < |s| && bad(s[i], e) && NoneBad(s[..i], bad)
  }

  ghost predicate NoneBad<T>(s: seq<T>, bad: (T, BadPart) -> bool) {
    forall i :: 0 <= i < |s| ==> !bad(s[i], SourceMissing) && !bad(s[i], SourceUnsupported)
  }

  lemma FirstBadLast<T>(s: seq<T>, bad: (T, BadPart) -> bool, e: BadPart)
    requires s != []
    ensures var front, last := s[..|s| - 1], s[|s| - 1];
            && (FirstBad(s, bad, e) <==> FirstBad(front, bad, e) || (NoneBad(front, bad) && bad(last, e)))
            && (NoneBad(s, bad)
                <==> NoneBad(front, bad) && !bad(last, SourceMissing) && !bad(last, SourceUnsupported))
  {
    var n := |s| - 1;
    var front := s[..n];
    assert forall i :: 0 <= i <= n ==> front[..i] == s[..i];
    if FirstBad(s, bad, e) {
      var i :| 0 <= i < |s| && bad(s[i], e) && NoneBad(s[..i], bad);
      assert i < n ==> bad(front[i], e) && NoneBad(front[..i], bad);
    }
    if FirstBad(front, bad, e) {
      var i :| 0 <= i < n && bad(front[i], e) && NoneBad(front[..i], bad);
      assert bad(s[i], e) && NoneBad(s[..i], bad);
    }
    assert NoneBad(front, bad) && bad(s[n], e) ==> bad(s[n], e) && NoneBad(s[..n], bad);
    assert forall i :: 0 <= i < n ==> s[i] == front[i];
  }

  /** A source is refused when there is none, or when it is of a kind that is not known; plain text is
      known for documents only. */
  predicate BadSource(source: Source, textToo: bool, e: BadPart) {
    match source
    case NoSource => e.SourceMissing?
    case Literal(_) => !textToo && e.SourceUnsupported?
    case OtherSource => e.SourceUnsupported?
    case _ => false
  }

  predicate BadResult(p: ResultPart, e: BadPart) {
    p.ResultImage? && BadSource(p.source, false, e)
  }

  ghost predicate Rejected<J>(part: InPart<J>, e: BadPart) {
    match part
    case ImageIn(source) => BadSource(source, false, e)
    case DocumentIn(source, _) => BadSource(source, true, e)
    case ToolResultIn(_, PartsResult(parts)) => FirstBad(parts, BadResult, e)
    case _ => false
  }

  /** Only the user's and the assistant's messages are looked at. */
  ghost predicate RejectedMessage<J>(m: InMessage<J>, e: BadPart) {
    !m.role.OtherRole? && FirstBad(ContentParts(m), Rejected, e)
  }

  lemma {:induction false} ResultsRefused(parts: seq<ResultPart>, e: BadPart)
    ensures ResultParts(parts) == Bad(e) <==> FirstBad(parts, BadResult, e)
    ensures ResultParts(parts).Fine? <==> NoneBad(parts, BadResult)
    decreases |parts|
  {
    if parts != [] {
      var front, last := parts[..|parts| - 1], parts[|parts| - 1];
      ResultsRefused(front, e);
      FirstBadLast(parts, BadResult, e);
    }
  }

  lemma {:induction false} PartRefused<J>(role: Role, part: InPart<J>, json: Codec<J>, e: BadPart)
    ensures PartAtoms(role, part, json) == Bad(e) <==> Rejected(part, e)
  {
    if part.ToolResultIn? && part.content.PartsResult? {
      ResultsRefused(part.content.parts, e);
    }
  }

  lemma {:induction false} PartsRefused<J>(role: Role, parts: seq<InPart<J>>, json: Codec<J>, e: BadPart)
    ensures PartsAtoms(role, parts, json) == Bad(e) <==> FirstBad(parts, Rejected, e)
    ensures PartsAtoms(role, parts, json).Fine? <==> NoneBad(parts, Rejected)
    decreases |parts|
  {
    if parts != [] {
      var front, last := parts[..|parts| - 1], parts[|parts| - 1];
      PartsRefused(role, front, json, e);
      PartRefused(role, last, json, SourceMissing);
      PartRefused(role, last, json, SourceUnsupported);
      FirstBadLast(parts, Rejected, e);
    }
  }

  lemma {:induction false} MessageRefused<J>(m: InMessage<J>, json: Codec<J>, e: BadPart)
    ensures MessageAtoms(m, json) == Bad(e) <==> RejectedMessage(m, e)
  {
    if !m.role.OtherRole? {
      PartsRefused(m.role, ContentParts(m), json, e);
    }
  }

  /** A request is refused exactly for its first bad source, wherever it occurs: in an image, a
      document, or an image of a tool result, of a user's or an assistant's message. */
  lemma {:induction false} RequestRefused<J>(messages: seq<InMessage<J>>, json: Codec<J>, e: BadPart)
    ensures RequestAtoms(messages, json) == Bad(e) <==> FirstBad(messages, RejectedMessage, e)
    ensures RequestAtoms(messages, json).Fine? <==> NoneBad(messages, RejectedMessage)
    decreases |messages|
  {
    if messages != [] {
      var front, last := messages[..|messages| - 1], messages[|messages| - 1];
      RequestRefused(front, json, e);
      LastRefused(messages, json, e);
      FirstBadLast(messages, RejectedMessage, e);
    }
  }

  lemma {:induction false} LastRefused<J>(messages: seq<InMessage<J>>, json: Codec<J>, e: BadPart)
    requires messages != []
    ensures var front, last := RequestAtoms(messages[..|messages| - 1], json), messages[|messages| - 1];
            && (RequestAtoms(messages, json) == Bad(e)
                <==> front == Bad(e) || (front.Fine? && RejectedMessage(last, e)))
            && (RequestAtoms(messages, json).Fine?
                <==> front.Fine? && !RejectedMessage(last, SourceMissing) && !RejectedMessage(last, SourceUnsupported))
  {
    var last := messages[|messages| - 1];
    MessageRefused(last, json, SourceMissing);
    MessageRefused(last, json, SourceUnsupported);
    var now := LastAtoms(messages, json);
    assert now.Bad? ==> now == Bad(SourceMissing) || now == Bad(SourceUnsupported);
  }

  lemma {:induction false} LastAtoms<J>(messages: seq<InMessage<J>>, json: Codec<J>)
    returns (last: Translated<seq<Atom>>)
    requires messages != []
    ensures last == MessageAtoms(messages[|messages| - 1], json)
    ensures var front, all := RequestAtoms(messages[..|messages| - 1], json), RequestAtoms(messages, json);
            && (forall e :: all == Bad(e) <==> front == Bad(e) || (front.Fine? && last == Bad(e)))
            && (all.Fine? <==> front.Fine? && last.Fine?)
  {
    last := MessageAtoms(messages[|messages| - 1], json);
  }

  // ---- What is left out ----

  /** The messages of the user and the assistant. */
  function Spoken<J>(messages: seq<InMessage<J>>): seq<InMessage<J>> {
    if messages == [] then []
    else Spoken(messages[..|messages| - 1])
         + if messages[|messages| - 1].role.OtherRole? then [] else [messages[|messages| - 1]]
  }

  lemma {:induction false} LastSpoken<J>(front: seq<InMessage<J>>, last: InMessage<J>, json: Codec<J>)
    ensures RequestAtoms(front + [last], json)
            == var a, b := RequestAtoms(front, json), MessageAtoms(last, json);
               if a.Bad? then a else if b.Bad? then b else Fine(a.value + b.value)
    ensures RequestAtoms(front + [last], json).Fine? ==>
              RequestItems(front + [last], json) == RequestItems(front, json) + MessageItems(last, json)
  {
    assert (front + [last])[..|front|] == front;
  }

  /** Messages of other roles might as well not be there. */
  lemma {:induction false} OtherRolesIgnored<J>(messages: seq<InMessage<J>>, json: Codec<J>)
    ensures RequestAtoms(Spoken(messages), json) == RequestAtoms(messages, json)
    ensures RequestAtoms(messages, json).Fine? ==> RequestItems(Spoken(messages), json) == RequestItems(messages, json)
    decreases |messages|
  {
    if messages != [] {
      var front, last := messages[..|messages| - 1], messages[|messages| - 1];
      OtherRolesIgnored(front, json);
      LastSpoken(front, last, json);
      assert messages == front + [last];
      if last.role.OtherRole? {
        EmptyEnds(Spoken(front));
        if RequestAtoms(front, json).Fine? {
          EmptyEnds(RequestAtoms(front, json).value);
          EmptyEnds(RequestItems(front, json));
        }
      } else {
        LastSpoken(Spoken(front), last, json);
      }
    }
  }

  lemma {:induction false} OneText<J>(role: Role, text: string, json: Codec<J>) returns (atom: Atom)
    ensures PartsAtoms<J>(role, [TextIn(text)], json) == Fine([atom])
    ensures role != OtherRole ==> PartOf<J>(role, atom) == TextIn(Trim(text))
  {
    var part: InPart<J> := TextIn(text);
    assert [part][..0] == [];
    atom := Piece(role, if role.Assistant? then OutputText(Trim(text)) else InputText(Trim(text)));
    EmptyEnds([atom]);
  }

  lemma {:induction false} OneAtomRead<J>(role: Role, atom: Atom)
    ensures PartsOf<J>(role, [atom]) == [PartOf<J>(role, atom)]
  {
    assert [atom][..0] == [];
    EmptyEnds([PartOf<J>(role, atom)]);
  }

  /** A message that is a plain text is read back as that text, trimmed. */
  lemma {:induction false} PlainTurn<J>(role: Role, text: string, json: Codec<J>)
    requires !role.OtherRole?
    ensures MessageAtoms<J>(PlainMessage(role, text), json).Fine?
    ensures PartsOf<J>(role, Flatten(MessageItems(PlainMessage(role, text), json))) == [TextIn(Trim(text))]
  {
    var atom := OneText(role, text, json);
    OneAtomRead<J>(role, atom);
    MessageFlattens<J>(PlainMessage(role, text), json);
  }
}
