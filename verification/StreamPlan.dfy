/** The canonical event stream of a response, with its text cut into deltas anywhere. */
module StreamPlan {
  import opened Text
  import opened Responses

  /** One content part: what arrived with `content_part.added`, then the deltas. */
  datatype PartPlan = PartPlan(part: Part, initial: string, chunks: seq<string>)

  /** One output item: whether and how it was announced, its parts or deltas, and how it ended. */
  datatype ItemPlan = ItemPlan(
    ref: ItemRef, announced: bool, added: Item, item: Item, parts: seq<PartPlan>, chunks: seq<string>,
    callId: string, itemId: string, name: string)

  datatype Flavor = Prosaic | Refusing | Reasoned | Argued(callId: string, itemId: string, name: string)

  function ChunkBody(fl: Flavor, ref: ItemRef, part: nat, c: string): Body {
    match fl
    case Prosaic => TextDelta(ref, part, c)
    case Refusing => RefusalDelta(ref, part, c)
    case Reasoned => ReasoningDelta(ref, c)
    case Argued(callId, itemId, name) => ArgumentsDelta(ref, callId, itemId, name, c)
  }

  function ChunkFrames(fl: Flavor, ref: ItemRef, part: nat, chunks: seq<string>): seq<Frame> {
    if chunks == [] then [] else [Plain(ChunkBody(fl, ref, part, chunks[0]))] + ChunkFrames(fl, ref, part, chunks[1..])
  }

  function InitialPart(p: PartPlan): Part {
    if p.part.kind.RefusalPart? then Part(RefusalPart, "", p.initial) else Part(p.part.kind, p.initial, "")
  }

  function PartFrames(ref: ItemRef, j: nat, p: PartPlan): seq<Frame> {
    [Plain(PartAdded(ref, j, InitialPart(p)))]
    + (match p.part.kind
       case TextPart => ChunkFrames(Prosaic, ref, j, p.chunks)
       case RefusalPart => ChunkFrames(Refusing, ref, j, p.chunks)
       case OtherPart => [])
    + [Plain(PartDone(ref, j))]
  }

  function PartsFrames(ref: ItemRef, j: nat, parts: seq<PartPlan>): seq<Frame>
    decreases |parts|
  {
    if parts == [] then [] else PartFrames(ref, j, parts[0]) + PartsFrames(ref, j + 1, parts[1..])
  }

  function InnerFrames(p: ItemPlan): seq<Frame> {
    match p.item.kind
    case MessageItem => PartsFrames(p.ref, 0, p.parts)
    case ReasoningItem => ChunkFrames(Reasoned, p.ref, 0, p.chunks)
    case ToolItem => ChunkFrames(Argued(p.callId, p.itemId, p.name), p.ref, 0, p.chunks)
    case OtherItem => []
  }

  function ItemFrames(p: ItemPlan): seq<Frame> {
    (if p.announced then [Plain(ItemAdded(p.ref, p.added))] else [])
    + InnerFrames(p) + [Plain(ItemDone(p.ref, p.item))]
  }

  function ItemsFrames(plans: seq<ItemPlan>): seq<Frame> {
    if plans == [] then [] else ItemFrames(plans[0]) + ItemsFrames(plans[1..])
  }

  function StreamFrames(opening: Response, plans: seq<ItemPlan>, closing: Body, final: Response): seq<Frame> {
    [Data(Event(Opening, Some(opening), ""))] + ItemsFrames(plans) + [Data(Event(closing, Some(final), ""))]
  }

  // ---- When does a stream carry a given item? ----

  function JoinRaw(parts: seq<ReasoningPart>): string {
    if parts == [] then "" else parts[0].text + JoinRaw(parts[1..])
  }

  /** The parts `ReasoningText` reads. */
  function ChosenParts(item: Item): seq<ReasoningPart> {
    if JoinReasoning(item.summary) != "" then item.summary else item.content
  }

  /** The reasoning text before any trimming. */
  function RawReasoning(item: Item): string {
    JoinRaw(ChosenParts(item))
  }

  predicate Redacted(item: Item) {
    HasPrefix(Trim(item.encrypted), REDACTED_PREFIX)
  }

  /** What is known of an item when it is first heard of. An item nobody announced is opened by its
      first delta, which may name a tool, or by being done. */
  function Announcement(p: ItemPlan): Item {
    if p.announced then p.added
    else
      match p.item.kind
      case ReasoningItem => p.item.(encrypted := "")
      case ToolItem =>
        if p.chunks == [] then p.item else p.item.(callId := p.callId, id := p.itemId, name := p.name)
      case _ => p.item
  }

  function AsAnnounced(p: ItemPlan): ItemPlan {
    p.(announced := true, added := Announcement(p))
  }

  predicate PartFits(p: PartPlan, part: Part) {
    p.part == part && (!part.kind.OtherPart? ==> p.initial + Concat(p.chunks) == RawPartText(part))
  }

  /** The deltas spell out the whole item, or there are none and the done item supplies it. The deltas
      of a reasoning item are those of the text that counts, or of its summary and its content; its
      signature may change until it is done, but redacted data may not. */
  predicate Fits(p: ItemPlan) {
    && Announcement(p).kind == p.item.kind
    && match p.item.kind
       case MessageItem =>
         |p.parts| == |p.item.parts| && forall j :: 0 <= j < |p.parts| ==> PartFits(p.parts[j], p.item.parts[j])
       case ReasoningItem =>
         && Concat(p.chunks) in {"", RawReasoning(p.item), JoinRaw(p.item.summary) + JoinRaw(p.item.content)}
         && (Redacted(Announcement(p)) ==> Trim(Announcement(p).encrypted) == Trim(p.item.encrypted))
       case ToolItem =>
         && Concat(p.chunks) in {"", RawArguments(p.item)}
         && CallIdOf(Announcement(p)) == CallIdOf(p.item) && Trim(Announcement(p).name) == Trim(p.item.name)
       case OtherItem => true
  }

  // ---- When do the stream and the whole translation agree on an item? ----

  predicate PartTidy(p: ReasoningPart) {
    p.Bare? || Trimmed(p.text)
  }

  predicate AllTidy(parts: seq<ReasoningPart>) {
    forall j :: 0 <= j < |parts| ==> PartTidy(parts[j])
  }

  /** Of two texts, the first that is not empty is also the first that is not blank, or both are blank. */
  predicate Picks(a: string, b: string) {
    a == "" || Trim(a) != "" || Trim(b) == ""
  }

  predicate PartPicks(p: Part) {
    p.kind.OtherPart? || Picks(p.text, p.refusal)
  }

  /** Redacted data was there when the block was opened. */
  predicate Kept(p: ItemPlan) {
    p.item.kind.ReasoningItem? && Redacted(p.item) ==> Redacted(Announcement(p))
  }

  /** Redacted data comes with the announcement; reasoning that was streamed is the text that counts and
      is trimmed already; a signature that was announced is not dropped; no blank text hides another. */
  predicate Tidy(p: ItemPlan) {
    match p.item.kind
    case MessageItem => forall j :: 0 <= j < |p.item.parts| ==> PartPicks(p.item.parts[j])
    case ReasoningItem =>
      if Redacted(p.item) then Redacted(Announcement(p))
      else
        && (Trim(Announcement(p).encrypted) != "" ==> Trim(p.item.encrypted) != "")
        && (Concat(p.chunks) != "" ==> Concat(p.chunks) == RawReasoning(p.item) && AllTidy(ChosenParts(p.item)))
    case ToolItem => Picks(p.item.arguments, p.item.input)
    case OtherItem => true
  }

  function ItemsOf(plans: seq<ItemPlan>): seq<Item> {
    if plans == [] then [] else [plans[0].item] + ItemsOf(plans[1..])
  }

  ghost predicate Carries(plans: seq<ItemPlan>) {
    && (forall i :: 0 <= i < |plans| ==> Fits(plans[i]))
    && (forall i, j :: 0 <= i < j < |plans| ==> plans[i].ref != plans[j].ref)
  }

  lemma {:induction false} JoinLengths(parts: seq<ReasoningPart>)
    ensures |JoinReasoning(parts)| <= |JoinRaw(parts)|
    ensures JoinReasoning(parts) == JoinRaw(parts) <==> AllTidy(parts)
    ensures |JoinReasoning(parts)| == |JoinRaw(parts)| ==> JoinReasoning(parts) == JoinRaw(parts)
  {
    if parts != [] {
      JoinLengths(parts[1..]);
      TrimShape(parts[0].text);
      assert forall j :: 0 <= j < |parts| - 1 ==> parts[1..][j] == parts[j + 1];
      if !AllTidy(parts) && PartTidy(parts[0]) {
        var j :| 0 <= j < |parts| && !PartTidy(parts[j]);
        assert !PartTidy(parts[1..][j - 1]);
      }
    }
  }
}
