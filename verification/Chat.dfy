/** The Chat Completions API: the chunks of a stream and the message they add up to. */
module Chat {
  import opened Text
  import opened Responses

  datatype FinishReason = Length | ContentFiltered | ToolCalls | Stop

  datatype ChatUsage = ChatUsage(
    prompt: int, completion: int, total: int, cached: Option<int>, reasoning: Option<int>)

  datatype ChatDelta =
    | Role
    | Say(text: string)
    | Refuse(text: string)
    | Reason(text: string)
    | Call(index: nat, id: string, name: string)
    | Argue(index: nat, text: string)
    | Nothing

  datatype Chunk = Chunk(
    id: string, model: string, created: int, delta: ChatDelta,
    finish: Option<FinishReason>, usage: Option<ChatUsage>)

  datatype ToolCall = ToolCall(id: string, name: string, arguments: string)

  /** What a client has put together from the chunks so far. */
  datatype ChatDraft = ChatDraft(
    roles: nat, content: string, refusal: string, reasoning: string, calls: seq<ToolCall>,
    finish: Option<FinishReason>, usage: Option<ChatUsage>)

  const NO_CHAT := ChatDraft(0, "", "", "", [], None, None)

  function Hear(a: ChatDraft, d: ChatDelta): ChatDraft {
    match d
    case Role => a.(roles := a.roles + 1)
    case Say(t) => a.(content := a.content + t)
    case Refuse(t) => a.(refusal := a.refusal + t)
    case Reason(t) => a.(reasoning := a.reasoning + t)
    case Call(i, id, name) => if i == |a.calls| then a.(calls := a.calls + [ToolCall(id, name, "")]) else a
    case Argue(i, t) =>
      if i < |a.calls| then a.(calls := a.calls[i := a.calls[i].(arguments := a.calls[i].arguments + t)]) else a
    case Nothing => a
  }

  function HearChunk(a: ChatDraft, c: Chunk): ChatDraft {
    var b := Hear(a, c.delta);
    if c.finish.Some? then b.(finish := c.finish, usage := c.usage) else b
  }

  function HearAll(a: ChatDraft, out: seq<Chunk>): ChatDraft
    decreases |out|
  {
    if out == [] then a else HearAll(HearChunk(a, out[0]), out[1..])
  }

  lemma {:induction false} HearAppend(a: ChatDraft, x: seq<Chunk>, y: seq<Chunk>)
    ensures HearAll(a, x + y) == HearAll(HearAll(a, x), y)
    decreases |x|
  {
    if x == [] {
      EmptyEnds(y);
    } else {
      AppendHead(x, y);
      HearAppend(HearChunk(a, x[0]), x[1..], y);
    }
  }

  lemma {:induction false} HearOne(a: ChatDraft, c: Chunk)
    ensures HearAll(a, [c]) == HearChunk(a, c)
  {
    NothingAfter(c);
  }

  /** A whole Chat Completions response; `content` is None for the JSON null. */
  datatype Completion = Completion(
    id: string, model: string, created: int, content: Option<string>, refusal: string, reasoning: string,
    calls: seq<ToolCall>, finish: FinishReason, usage: ChatUsage)

  function OrEmpty(s: Option<string>): string {
    if s.Some? then s.value else ""
  }

  /** The finish reason says why the response is incomplete or, if it is not, whether there was a call. */
  predicate FinishTells(incomplete: IncompleteReason, hasToolCalls: bool, finish: FinishReason) {
    && (finish == Length <==> incomplete == MaxTokens)
    && (finish == ContentFiltered <==> incomplete == ContentFilter)
    && (finish == ToolCalls <==> incomplete == OtherReason && hasToolCalls)
    && (finish == Stop <==> incomplete == OtherReason && !hasToolCalls)
  }

  /** An optional count is there exactly when the response has it. */
  predicate CountsIfThere(f: Field, n: Option<int>) {
    if f.Absent? then n == None else n.Some? && Counts(f, n.value)
  }

  /** The usage a client is told, against the response's, field by field. */
  predicate UsageTells(u: Usage, x: ChatUsage) {
    && Counts(u.inputTokens, x.prompt) && Counts(u.outputTokens, x.completion)
    && (if u.totalTokens.Absent? then x.total == x.prompt + x.completion else Counts(u.totalTokens, x.total))
    && CountsIfThere(u.cachedTokens, x.cached) && CountsIfThere(u.reasoningTokens, x.reasoning)
  }

  /** `responsesFinishReason`. */
  function FinishOf(incomplete: IncompleteReason, hasToolCalls: bool): FinishReason {
    match incomplete
    case MaxTokens => Length
    case ContentFilter => ContentFiltered
    case OtherReason => if hasToolCalls then ToolCalls else Stop
  }

  function OptionalNumber(f: Field): Option<int> {
    if f.Absent? then None else Some(NumberValue(f))
  }

  /** `responsesUsageToOpenAI`. */
  function UsageOf(u: Usage): ChatUsage {
    ChatUsage(NumberValue(u.inputTokens), NumberValue(u.outputTokens),
              if u.totalTokens.Absent? then NumberValue(u.inputTokens) + NumberValue(u.outputTokens)
              else NumberValue(u.totalTokens),
              OptionalNumber(u.cachedTokens), OptionalNumber(u.reasoningTokens))
  }
}
