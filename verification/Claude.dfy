/** The Claude Messages API: the events of a stream and the message they add up to. */
module Claude {
  import opened Text
  import opened Responses

  datatype StopReason = StopMaxTokens | StopRefusal | StopToolUse | StopEndTurn | StopOther

  /** The `content_block` of a `content_block_start` event. */
  datatype ContentBlock =
    | TextBlock(text: string)
    | ThinkingBlock(thinking: string)
    | RedactedBlock(data: string)
    | ToolUseBlock(id: string, altId: string, name: string)
    | UnknownBlock

  datatype BlockDelta =
    | TextChunk(text: string)
    | ThinkingChunk(thinking: string)
    | SignatureChunk(signature: string)
    | InputChunk(partial: string)
    | UnknownChunk

  datatype ClaudeEvent =
    | MessageStart(id: string, model: string, inputTokens: Field)
    | BlockStart(index: nat, block: ContentBlock)
    | BlockChunk(index: nat, delta: BlockDelta)
    | BlockStop(index: nat)
    | MessageDelta(stop: StopReason, outputTokens: Field)
    | MessageStop
    | Ping
    | StreamError(message: string)
    | UnknownEvent

  /** The stop reason says why the response is incomplete or, if it is not, whether there was a tool. */
  predicate StopTells(incomplete: IncompleteReason, hasToolUse: bool, stop: StopReason) {
    && (stop == StopMaxTokens <==> incomplete == MaxTokens)
    && (stop == StopRefusal <==> incomplete == ContentFilter)
    && (stop == StopToolUse <==> incomplete == OtherReason && hasToolUse)
    && (stop == StopEndTurn <==> incomplete == OtherReason && !hasToolUse)
  }

  /** `responsesStopReason`. */
  function StopReasonOf(incomplete: IncompleteReason, hasToolUse: bool): StopReason {
    match incomplete
    case MaxTokens => StopMaxTokens
    case ContentFilter => StopRefusal
    case OtherReason => if hasToolUse then StopToolUse else StopEndTurn
  }
}
