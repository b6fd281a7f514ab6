/** The upstream Responses API: responses and events. */
module Responses {
  import opened Text

  // A JSON object is decoded to the fields the translators look at, with every string kept as it
  // arrived; the words of `type`, `status` and `reason` are decoded to enumerations.

  /** A JSON value in a place where the translators expect a number. */
  datatype Field = Absent | NotNumber | Number(n: int)

  function NumberValue(f: Field): int {
    if f.Number? then f.n else 0
  }

  /** The count a field stands for: its number, or zero. */
  predicate Counts(f: Field, n: int) {
    if f.Number? then n == f.n else n == 0
  }

  datatype Usage = Usage(
    inputTokens: Field, outputTokens: Field, totalTokens: Field,
    cachedTokens: Field, reasoningTokens: Field)

  const NO_USAGE := Usage(Absent, Absent, Absent, Absent, Absent)

  datatype PartKind = TextPart | RefusalPart | OtherPart

  datatype Part = Part(kind: PartKind, text: string, refusal: string)

  /** An element of a reasoning item's `summary` or `content`: a bare string or an object. */
  datatype ReasoningPart = Bare(text: string) | Tagged(text: string)

  datatype ItemKind = MessageItem | ReasoningItem | ToolItem | OtherItem

  datatype Item = Item(
    kind: ItemKind,
    callId: string, id: string, name: string, arguments: string, input: string,
    encrypted: string,
    parts: seq<Part>,
    summary: seq<ReasoningPart>, content: seq<ReasoningPart>)

  datatype Status = Failed | Cancelled | OtherStatus

  datatype IncompleteReason = MaxTokens | ContentFilter | OtherReason

  datatype Response = Response(
    id: string, model: string, createdAt: Field, status: Status, error: string,
    incomplete: IncompleteReason, output: seq<Item>, usage: Usage)

  const NO_RESPONSE := Response("", "", Absent, OtherStatus, "", OtherReason, [], NO_USAGE)

  /** Why a translation stops. */
  datatype Failure =
    | InvalidJson
    | EndedEarly
    | UpstreamFailed(message: string)
    | ResponseFailed(status: Status, message: string)
    | BadArguments

  datatype Result<+T> = Ok(value: T) | Err(error: Failure)

  /** `itemKey`: the output index when it is a number, otherwise the item's identifier. */
  datatype ItemRef = ByIndex(index: nat) | ById(id: string)

  datatype Key = ItemKey(ref: ItemRef) | ContentKey(ref: ItemRef, part: nat)

  datatype Body =
    | Failing(message: string)                 // error, response.failed
    | Opening                                  // response.created, response.in_progress
    | ItemAdded(ref: ItemRef, item: Item)
    | PartAdded(ref: ItemRef, part: nat, content: Part)
    | TextDelta(ref: ItemRef, part: nat, delta: string)
    | RefusalDelta(ref: ItemRef, part: nat, delta: string)
    | ReasoningDelta(ref: ItemRef, delta: string)
    | ArgumentsDelta(ref: ItemRef, callId: string, itemId: string, name: string, delta: string)
    | PartDone(ref: ItemRef, part: nat)
    | ItemDone(ref: ItemRef, item: Item)
    | Completed
    | Incomplete
    | OtherResponseEvent                       // any other response.* event
    | Foreign                                  // anything else

  datatype Event = Event(body: Body, response: Option<Response>, responseId: string)

  function ResponseOf(e: Event): Response {
    if e.response.Some? then e.response.value else NO_RESPONSE
  }

  /** Does the event's name start with `response.`? */
  predicate IsResponseEvent(b: Body) {
    !b.Foreign? && !b.Failing?
  }

  predicate IsTerminal(b: Body) {
    b.Completed? || b.Incomplete?
  }

  /** What `parseSSEFrame` and `decodeObject` make of one frame. */
  datatype Frame = Malformed | NoData | Sentinel | Data(event: Event)

  /** A frame whose event carries no response object. */
  function Plain(b: Body): Frame {
    Data(Event(b, None, ""))
  }

  function PartText(p: ReasoningPart): string {
    match p
    case Bare(text) => text
    case Tagged(text) => Trim(text)
  }

  function JoinReasoning(parts: seq<ReasoningPart>): string {
    if parts == [] then "" else PartText(parts[0]) + JoinReasoning(parts[1..])
  }

  /** `responsesReasoningText`: the summary, or the content when the summary is empty. */
  function ReasoningText(item: Item): string {
    if JoinReasoning(item.summary) != "" then JoinReasoning(item.summary) else JoinReasoning(item.content)
  }

  /** The texts of these elements, one each: a bare string as it is, an object's text trimmed. */
  predicate AreTexts(parts: seq<ReasoningPart>, texts: seq<string>) {
    && |texts| == |parts|
    && forall i :: 0 <= i < |parts| ==>
         (parts[i].Bare? ==> texts[i] == parts[i].text) && (parts[i].Tagged? ==> texts[i] == Trim(parts[i].text))
  }

  lemma {:induction false} PartsRead(parts: seq<ReasoningPart>) returns (texts: seq<string>)
    ensures AreTexts(parts, texts) && JoinReasoning(parts) == Concat(texts)
  {
    texts := [];
    if parts != [] {
      var rest := PartsRead(parts[1..]);
      texts := [PartText(parts[0])] + rest;
      assert texts[1..] == rest;
    }
  }

  /** The reasoning text of an item: the texts of its summary one after another or, when they are all
      empty, those of its content. */
  lemma {:induction false} ReasoningReads(item: Item) returns (summary: seq<string>, content: seq<string>)
    ensures AreTexts(item.summary, summary) && AreTexts(item.content, content)
    ensures Concat(summary) != "" ==> ReasoningText(item) == Concat(summary)
    ensures Concat(summary) == "" ==> ReasoningText(item) == Concat(content)
  {
    summary := PartsRead(item.summary);
    content := PartsRead(item.content);
  }

  /** `responsesFailure`. */
  function FailureOf(r: Response): Option<Failure> {
    if r.status.OtherStatus? then None else Some(ResponseFailed(r.status, FirstOf(r.error, "unknown upstream error")))
  }

  const REDACTED_PREFIX := "claude-redacted-thinking:"

  /** The raw text a content part carries, whichever field holds it. */
  function RawPartText(p: Part): string {
    FirstRaw(p.text, p.refusal)
  }

  function RawArguments(item: Item): string {
    FirstRaw(item.arguments, item.input)
  }

  function CallIdOf(item: Item): string {
    FirstOf(item.callId, item.id)
  }
}
