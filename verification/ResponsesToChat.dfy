/** internal/translate/openai_responses_stream.go as a function of state and frame. */
module ResponsesToChat {
  import opened Text
  import opened Responses
  import opened Chat

  datatype Entry = Entry(toolIndex: nat, announced: bool, sawDelta: bool, callId: string, name: string)

  datatype State = State(
    started: bool, stopped: bool, id: string, model: string, created: int,
    nextTool: nat, hasToolCalls: bool, items: map<ItemRef, Entry>)

  function Init(model: string): State {
    State(false, false, "chatcmpl-copilot", model, 0, 0, false, map[])
  }

  datatype Emit = Emit(state: State, out: seq<Chunk>)

  datatype Outcome = Outcome(state: State, out: seq<Chunk>, error: Option<Failure>)

  function ChunkOf(s: State, d: ChatDelta): Chunk {
    Chunk(s.id, s.model, s.created, d, None, None)
  }

  function Start(s: State, e: Event): Emit {
    if s.started then Emit(s, [])
    else
      var r := ResponseOf(e);
      var t := s.(started := true, id := FirstOf3(r.id, e.responseId, "chatcmpl-copilot"),
                  model := FirstOf(r.model, s.model), created := NumberValue(r.createdAt));
      Emit(t, [ChunkOf(t, Role)])
  }

  /** `item`: find the entry of an item, or create it with the next tool index. */
  function Ensure(s: State, ref: ItemRef): State {
    if ref in s.items then s
    else s.(nextTool := s.nextTool + 1, items := s.items[ref := Entry(s.nextTool, false, false, "", "")])
  }

  function Update(s: State, ref: ItemRef, e: Entry): State {
    s.(items := s.items[ref := e])
  }

  /** Fill in an entry's identifier and name. */
  function Named(s: State, ref: ItemRef, callId: string, name: string): State {
    var t := Ensure(s, ref);
    Update(t, ref, t.items[ref].(callId := callId, name := name))
  }

  function Announce(s: State, ref: ItemRef): Emit
    requires ref in s.items
  {
    var e := s.items[ref];
    if e.announced then Emit(s, [])
    else Emit(Update(s, ref, e.(announced := true)).(hasToolCalls := true),
              [ChunkOf(s, Call(e.toolIndex, e.callId, e.name))])
  }

  function Arguments(s: State, ref: ItemRef, text: string): Emit
    requires ref in s.items
  {
    if text == "" then Emit(s, [])
    else Emit(Update(s, ref, s.items[ref].(sawDelta := true)), [ChunkOf(s, Argue(s.items[ref].toolIndex, text))])
  }

  function Spoken(s: State, d: ChatDelta, text: string): Emit {
    Emit(s, if text == "" then [] else [ChunkOf(s, d)])
  }

  function EntryOf(s: State, ref: ItemRef): Entry {
    if ref in s.items then s.items[ref] else Entry(s.nextTool, false, false, "", "")
  }

  function AddItem(s: State, ref: ItemRef, item: Item): Emit {
    if !item.kind.ToolItem? then Emit(s, [])
    else
      var e := EntryOf(s, ref);
      var t := Named(s, ref, FirstOf(CallIdOf(item), e.callId), FirstOf(item.name, e.name));
      if t.items[ref].name != "" then Announce(t, ref) else Emit(t, [])
  }

  function AddPart(s: State, p: Part): Emit {
    match p.kind
    case TextPart => Spoken(s, Say(p.text), p.text)
    case RefusalPart => Spoken(s, Refuse(p.refusal), p.refusal)
    case OtherPart => Emit(s, [])
  }

  function ArgumentsArrive(s: State, ref: ItemRef, callId: string, itemId: string, name: string, text: string): Emit {
    var e := EntryOf(s, ref);
    var t := Named(s, ref, FirstOf3(e.callId, callId, itemId), FirstOf(e.name, name));
    var a := Announce(t, ref);
    var b := Arguments(a.state, ref, text);
    Emit(b.state, a.out + b.out)
  }

  function CompleteTool(s: State, ref: ItemRef, item: Item): Emit {
    var e := EntryOf(s, ref);
    var t := Named(s, ref, FirstOf(e.callId, CallIdOf(item)), FirstOf(e.name, item.name));
    var a := Announce(t, ref);
    var b := if a.state.items[ref].sawDelta then Emit(a.state, []) else Arguments(a.state, ref, RawArguments(item));
    Emit(b.state, a.out + b.out)
  }

  function CompleteItem(s: State, ref: ItemRef, item: Item): Emit {
    match item.kind
    case ReasoningItem =>
      if ref in s.items && s.items[ref].sawDelta then Emit(s, [])
      else Spoken(s, Reason(ReasoningText(item)), ReasoningText(item))
    case ToolItem => CompleteTool(s, ref, item)
    case _ => Emit(s, [])
  }

  function Content(s: State, b: Body): Emit {
    match b
    case ItemAdded(ref, item) => AddItem(s, ref, item)
    case PartAdded(_, _, p) => AddPart(s, p)
    case TextDelta(_, _, text) => Spoken(s, Say(text), text)
    case RefusalDelta(_, _, text) => Spoken(s, Refuse(text), text)
    case ReasoningDelta(_, text) => Spoken(s, Reason(text), text)
    case ArgumentsDelta(ref, callId, itemId, name, text) => ArgumentsArrive(s, ref, callId, itemId, name, text)
    case ItemDone(ref, item) => CompleteItem(s, ref, item)
    case _ => Emit(s, [])
  }

  function Finish(s: State, r: Response): Emit {
    if s.stopped then Emit(s, [])
    else Emit(s.(stopped := true),
              [Chunk(s.id, s.model, s.created, Nothing, Some(FinishOf(r.incomplete, s.hasToolCalls)),
                     Some(UsageOf(r.usage)))])
  }

  function Deliver(s: State, e: Event): Outcome {
    if e.body.Failing? then
      Outcome(s, [], Some(UpstreamFailed(FirstOf(e.body.message, "unknown upstream stream error"))))
    else
      var a := if IsResponseEvent(e.body) then Start(s, e) else Emit(s, []);
      if e.body.Completed? && FailureOf(ResponseOf(e)).Some? then Outcome(a.state, [], FailureOf(ResponseOf(e)))
      else
        var b := if IsTerminal(e.body) then Finish(a.state, ResponseOf(e)) else Content(a.state, e.body);
        Outcome(b.state, a.out + b.out, None)
  }

  /** `responsesStreamToOpenAI` on one frame. */
  function Step(s: State, f: Frame): Outcome {
    match f
    case Malformed => Outcome(s, [], Some(InvalidJson))
    case Sentinel => Outcome(s, [], if s.stopped then None else Some(EndedEarly))
    case NoData => Outcome(s, [], None)
    case Data(e) => Deliver(s, e)
  }

  function Run(s: State, frames: seq<Frame>): Outcome
    decreases |frames|
  {
    if frames == [] then Outcome(s, [], None)
    else
      var first := Step(s, frames[0]);
      if first.error.Some? then first
      else
        var rest := Run(first.state, frames[1..]);
        Outcome(rest.state, first.out + rest.out, rest.error)
  }

  /** One outcome after another. */
  function Then(o: Outcome, q: Outcome): Outcome {
    Outcome(q.state, o.out + q.out, q.error)
  }

  lemma {:induction false} RunAppend(s: State, a: seq<Frame>, b: seq<Frame>)
    ensures Run(s, a).error.Some? ==> Run(s, a + b) == Run(s, a)
    ensures Run(s, a).error.None? ==> Run(s, a + b) == Then(Run(s, a), Run(Run(s, a).state, b))
    decreases |a|
  {
    if a == [] {
      EmptyEnds(b);
      EmptyEnds(Run(s, b).out);
    } else {
      AppendHead(a, b);
      var first := Step(s, a[0]);
      if first.error.None? {
        RunAppend(first.state, a[1..], b);
        var x := Run(first.state, a[1..]);
        Regroup(first.out, x.out, Run(x.state, b).out);
      }
    }
  }

  lemma {:induction false} RunOne(s: State, f: Frame)
    ensures Run(s, [f]) == Step(s, f)
  {
    NothingAfter(f);
    EmptyEnds(Step(s, f).out);
  }

  lemma ThenThen(o: Outcome, q: Outcome, r: Outcome)
    ensures Then(Then(o, q), r) == Then(o, Then(q, r))
  {
    Regroup(o.out, q.out, r.out);
  }

  lemma {:induction false} RunCons(s: State, f: Frame, rest: seq<Frame>)
    requires Step(s, f).error.None?
    ensures Run(s, [f] + rest) == Then(Step(s, f), Run(Step(s, f).state, rest))
  {
    assert ([f] + rest)[1..] == rest;
  }

  lemma {:induction false} RunBetween(s: State, f: Frame, inner: seq<Frame>, l: Frame)
    requires Step(s, f).error.None? && Run(Step(s, f).state, inner).error.None?
    ensures var o := Step(s, f);
            var q := Run(o.state, inner);
            Run(s, [f] + inner + [l]) == Then(Then(o, q), Step(q.state, l))
  {
    RunCons(s, f, inner);
    RunAppend(s, [f] + inner, [l]);
    RunOne(Run(Step(s, f).state, inner).state, l);
  }
}
