/** What a client of the chat stream may rely on. */
module ChatStreamProtocol {
  import opened Text
  import opened Responses
  import opened Chat
  import opened ResponsesToChat

  // For every upstream event sequence of the Responses-to-Chat translator.

  /** A client: has the role arrived, under which header, which calls were announced, which of them
      had arguments, and has the message finished? */
  datatype Monitor = Monitor(
    started: bool, id: string, model: string, created: int,
    announced: set<nat>, argued: set<nat>, finished: bool)

  const SILENT := Monitor(false, "", "", 0, {}, {}, false)

  predicate Accepts(m: Monitor, c: Chunk) {
    if c.delta.Role? then !m.started && c.finish.None?
    else
      && m.started && c.id == m.id && c.model == m.model && c.created == m.created
      && (c.finish.Some? <==> c.delta.Nothing?) && (c.usage.Some? <==> c.delta.Nothing?)
      && match c.delta
         case Call(i, _, _) => i !in m.announced
         case Argue(i, text) => i in m.announced && text != ""
         case Nothing => !m.finished && (c.finish.value == ToolCalls ==> m.announced != {})
                         && (c.finish.value == Stop ==> m.announced == {})
         case Say(t) => t != ""
         case Refuse(t) => t != ""
         case Reason(t) => t != ""
         case Role => true
  }

  function Advance(m: Monitor, c: Chunk): Monitor {
    match c.delta
    case Role => m.(started := true, id := c.id, model := c.model, created := c.created)
    case Call(i, _, _) => m.(announced := m.announced + {i})
    case Argue(i, _) => m.(argued := m.argued + {i})
    case Nothing => m.(finished := true)
    case _ => m
  }

  function Watch(m: Monitor, out: seq<Chunk>): Option<Monitor>
    decreases |out|
  {
    if out == [] then Some(m)
    else if !Accepts(m, out[0]) then None
    else Watch(Advance(m, out[0]), out[1..])
  }

  lemma {:induction false} WatchAppend(m: Monitor, a: seq<Chunk>, b: seq<Chunk>)
    requires Watch(m, a).Some?
    ensures Watch(m, a + b) == Watch(Watch(m, a).value, b)
    decreases |a|
  {
    if a == [] {
      EmptyEnds(b);
    } else {
      AppendHead(a, b);
      WatchAppend(Advance(m, a[0]), a[1..], b);
    }
  }

  lemma {:induction false} OneChunk(m: Monitor, c: Chunk)
    ensures Watch(m, [c]) == if Accepts(m, c) then Some(Advance(m, c)) else None
  {
    NothingAfter(c);
  }

  /** Distinct items have distinct indices, all of them given out. */
  ghost predicate Indexed(s: State) {
    && (forall r :: r in s.items ==> s.items[r].toolIndex < s.nextTool)
    && (forall r, q :: r in s.items && q in s.items && s.items[r].toolIndex == s.items[q].toolIndex ==> r == q)
  }

  ghost predicate Agrees(s: State, m: Monitor) {
    && m.started == s.started && m.finished == s.stopped && (s.stopped ==> s.started)
    && (s.started ==> m.id == s.id && m.model == s.model && m.created == s.created)
    && Indexed(s)
    && (forall r :: r in s.items ==> (s.items[r].announced <==> s.items[r].toolIndex in m.announced))
    && (forall r :: r in s.items ==> (s.items[r].sawDelta <==> s.items[r].toolIndex in m.argued))
    && (forall i :: i in m.announced ==> i < s.nextTool)
    && m.argued <= m.announced
    && (s.hasToolCalls <==> m.announced != {})
  }

  ghost predicate Sound(e: Emit, m: Monitor) {
    && Watch(m, e.out).Some?
    && Agrees(e.state, Watch(m, e.out).value)
  }

  lemma {:induction false} Sequence(a: Emit, b: Emit, m: Monitor)
    requires Watch(m, a.out).Some? && Sound(b, Watch(m, a.out).value)
    ensures Sound(Emit(b.state, a.out + b.out), m)
  {
    WatchAppend(m, a.out, b.out);
  }

  lemma StartSound(s: State, m: Monitor, e: Event)
    requires Agrees(s, m)
    ensures Sound(Start(s, e), m) && Start(s, e).state.started
  {
    if !s.started {
      OneChunk(m, Start(s, e).out[0]);
    }
  }

  lemma NamedAgrees(s: State, m: Monitor, ref: ItemRef, callId: string, name: string)
    requires Agrees(s, m)
    ensures Agrees(Named(s, ref, callId, name), m) && ref in Named(s, ref, callId, name).items
  {
    assert Agrees(Ensure(s, ref), m);
  }

  lemma AnnounceSound(s: State, m: Monitor, ref: ItemRef)
    requires Agrees(s, m) && s.started && ref in s.items
    ensures Sound(Announce(s, ref), m)
    ensures ref in Announce(s, ref).state.items && Announce(s, ref).state.items[ref].announced
    ensures Announce(s, ref).state.started
  {
    if !s.items[ref].announced {
      OneChunk(m, Announce(s, ref).out[0]);
    }
  }

  lemma ArgumentsSound(s: State, m: Monitor, ref: ItemRef, text: string)
    requires Agrees(s, m) && s.started && ref in s.items && s.items[ref].announced
    ensures Sound(Arguments(s, ref, text), m)
  {
    if text != "" {
      OneChunk(m, Arguments(s, ref, text).out[0]);
    }
  }

  lemma SpokenSound(s: State, m: Monitor, d: ChatDelta, text: string)
    requires Agrees(s, m) && s.started
    requires d == Say(text) || d == Refuse(text) || d == Reason(text)
    ensures Sound(Spoken(s, d, text), m)
  {
    OneChunk(m, ChunkOf(s, d));
  }

  lemma ArrivalSound(s: State, m: Monitor, ref: ItemRef, callId: string, name: string, text: string)
    requires Agrees(s, m) && s.started
    ensures var a := Announce(Named(s, ref, callId, name), ref);
            var b := Arguments(a.state, ref, text);
            Sound(a, m) && Sound(Emit(b.state, a.out + b.out), m)
  {
    var t := Named(s, ref, callId, name);
    NamedAgrees(s, m, ref, callId, name);
    AnnounceSound(t, m, ref);
    var a := Announce(t, ref);
    ArgumentsSound(a.state, Watch(m, a.out).value, ref, text);
    Sequence(a, Arguments(a.state, ref, text), m);
  }

  lemma CompleteToolSound(s: State, m: Monitor, ref: ItemRef, item: Item)
    requires Agrees(s, m) && s.started
    ensures Sound(CompleteTool(s, ref, item), m)
  {
    var e := EntryOf(s, ref);
    var callId, name := FirstOf(e.callId, CallIdOf(item)), FirstOf(e.name, item.name);
    ArrivalSound(s, m, ref, callId, name, RawArguments(item));
    var a := Announce(Named(s, ref, callId, name), ref);
    EmptyEnds(a.out);
  }

  lemma AddItemSound(s: State, m: Monitor, ref: ItemRef, item: Item)
    requires Agrees(s, m) && s.started
    ensures Sound(AddItem(s, ref, item), m)
  {
    if item.kind.ToolItem? {
      var e := EntryOf(s, ref);
      var callId, name := FirstOf(CallIdOf(item), e.callId), FirstOf(item.name, e.name);
      NamedAgrees(s, m, ref, callId, name);
      AnnounceSound(Named(s, ref, callId, name), m, ref);
    }
  }

  lemma CompleteItemSound(s: State, m: Monitor, ref: ItemRef, item: Item)
    requires Agrees(s, m) && s.started
    ensures Sound(CompleteItem(s, ref, item), m)
  {
    match item.kind
    case ReasoningItem => SpokenSound(s, m, Reason(ReasoningText(item)), ReasoningText(item));
    case ToolItem => CompleteToolSound(s, m, ref, item);
    case _ =>
  }

  lemma AddPartSound(s: State, m: Monitor, p: Part)
    requires Agrees(s, m) && s.started
    ensures Sound(AddPart(s, p), m)
  {
    SpokenSound(s, m, Say(p.text), p.text);
    SpokenSound(s, m, Refuse(p.refusal), p.refusal);
  }

  /** Events that only carry text. */
  lemma TextSound(s: State, m: Monitor, b: Body)
    requires Agrees(s, m) && s.started && (b.TextDelta? || b.RefusalDelta? || b.ReasoningDelta? || b.PartAdded?)
    ensures Sound(Content(s, b), m)
  {
    match b
    case PartAdded(_, _, p) => AddPartSound(s, m, p);
    case TextDelta(_, _, text) => SpokenSound(s, m, Say(text), text);
    case RefusalDelta(_, _, text) => SpokenSound(s, m, Refuse(text), text);
    case ReasoningDelta(_, text) => SpokenSound(s, m, Reason(text), text);
  }

  lemma ContentSound(s: State, m: Monitor, b: Body)
    requires Agrees(s, m) && s.started
    ensures Sound(Content(s, b), m)
  {
    match b
    case ItemAdded(ref, item) => AddItemSound(s, m, ref, item);
    case ArgumentsDelta(ref, callId, itemId, name, text) =>
      var e := EntryOf(s, ref);
      ArrivalSound(s, m, ref, FirstOf3(e.callId, callId, itemId), FirstOf(e.name, name), text);
    case ItemDone(ref, item) => CompleteItemSound(s, m, ref, item);
    case _ =>
      if b.TextDelta? || b.RefusalDelta? || b.ReasoningDelta? || b.PartAdded? {
        TextSound(s, m, b);
      }
  }

  lemma DeliverSound(s: State, m: Monitor, e: Event)
    requires Agrees(s, m) && Deliver(s, e).error.None?
    ensures var o := Deliver(s, e); Sound(Emit(o.state, o.out), m)
  {
    if IsResponseEvent(e.body) {
      StartSound(s, m, e);
      var a := Start(s, e);
      var n := Watch(m, a.out).value;
      if IsTerminal(e.body) {
        if !a.state.stopped {
          OneChunk(n, Finish(a.state, ResponseOf(e)).out[0]);
        }
        Sequence(a, Finish(a.state, ResponseOf(e)), m);
      } else {
        ContentSound(a.state, n, e.body);
        Sequence(a, Content(a.state, e.body), m);
      }
    }
  }

  lemma FailingStepEmitsNothing(s: State, f: Frame)
    requires Step(s, f).error.Some?
    ensures Step(s, f).out == []
  {
  }

  lemma {:induction false} RunProtocol(s: State, m: Monitor, frames: seq<Frame>)
    requires Agrees(s, m)
    ensures var o := Run(s, frames);
            Watch(m, o.out).Some? && (o.error.None? ==> Agrees(o.state, Watch(m, o.out).value))
    decreases |frames|
  {
    if frames != [] {
      var first := Step(s, frames[0]);
      if first.error.None? {
        if frames[0].Data? {
          DeliverSound(s, m, frames[0].event);
        }
        RunProtocol(first.state, Watch(m, first.out).value, frames[1..]);
        WatchAppend(m, first.out, Run(first.state, frames[1..]).out);
      } else {
        FailingStepEmitsNothing(s, frames[0]);
      }
    }
  }

  /** Every upstream event sequence, up to the first error: the role chunk comes first and once, all
      chunks bear one header, every call is announced once and before its arguments, and the one
      finish chunk says `tool_calls` or `stop` truthfully. */
  lemma {:induction false} StreamProtocol(model: string, frames: seq<Frame>)
    ensures Watch(SILENT, Run(Init(model), frames).out).Some?
  {
    RunProtocol(Init(model), SILENT, frames);
  }

  /** Wherever an unfinished stream has got to, a terminal event that is no failure ends it with one
      finish chunk, whose reason is the incomplete reason of that event's response or, without one,
      `tool_calls` exactly when some tool was announced. */
  lemma {:induction false} FinishReason(model: string, frames: seq<Frame>, e: Event)
    requires Run(Init(model), frames).error.None? && !Run(Init(model), frames).state.stopped
    requires IsTerminal(e.body) && !(e.body.Completed? && FailureOf(ResponseOf(e)).Some?)
    ensures var out := Step(Run(Init(model), frames).state, Data(e)).out;
            var m := Watch(SILENT, Run(Init(model), frames).out);
            && m.Some? && out != []
            && out[|out| - 1].finish == Some(FinishOf(ResponseOf(e).incomplete, m.value.announced != {}))
            && FinishTells(ResponseOf(e).incomplete, m.value.announced != {}, out[|out| - 1].finish.value)
            && out[|out| - 1].usage.Some? && UsageTells(ResponseOf(e).usage, out[|out| - 1].usage.value)
            && forall c :: c in out[..|out| - 1] ==> c.finish.None?
  {
    RunProtocol(Init(model), SILENT, frames);
  }

  /** Wherever a stream has got to, a done tool item supplies its arguments exactly when it has some
      and no delta supplied any before. */
  lemma {:induction false} DoneArguments(model: string, frames: seq<Frame>, ref: ItemRef, item: Item)
    requires Run(Init(model), frames).error.None? && item.kind.ToolItem?
    ensures var s := Run(Init(model), frames).state;
            var m := Watch(SILENT, Run(Init(model), frames).out);
            && m.Some?
            && (Argues(Step(s, Plain(ItemDone(ref, item))).out)
                <==> RawArguments(item) != "" && !(ref in s.items && s.items[ref].toolIndex in m.value.argued))
  {
    RunProtocol(Init(model), SILENT, frames);
    var s := Run(Init(model), frames).state;
    DoneSupplies(s, ref, item);
  }

  lemma SuppliedArguments(s: State, ref: ItemRef, item: Item)
    requires item.kind.ToolItem?
    ensures Argues(Content(s, ItemDone(ref, item)).out)
            <==> RawArguments(item) != "" && !(ref in s.items && s.items[ref].sawDelta)
  {
    var e := EntryOf(s, ref);
    var t := Named(s, ref, FirstOf(e.callId, CallIdOf(item)), FirstOf(e.name, item.name));
    var a := Announce(t, ref);
    assert a.state.items[ref].sawDelta == e.sawDelta;
    if RawArguments(item) != "" && !e.sawDelta {
      var b := Arguments(a.state, ref, RawArguments(item));
      assert b.out[0] in CompleteTool(s, ref, item).out;
    }
  }

  predicate Argues(out: seq<Chunk>) {
    exists c :: c in out && c.delta.Argue?
  }

  lemma ArguesAppend(x: seq<Chunk>, y: seq<Chunk>)
    requires !Argues(x)
    ensures Argues(x + y) <==> Argues(y)
  {
    assert forall c :: c in x + y <==> c in x || c in y;
  }

  /** An event that does not end the message begins it if it must, and is then the switch alone. */
  lemma BegunFirst(s: State, e: Event) returns (a: Emit, c: Emit)
    requires IsResponseEvent(e.body) && !IsTerminal(e.body)
    ensures a == Start(s, e) && c == Content(a.state, e.body)
    ensures Deliver(s, e) == Outcome(c.state, a.out + c.out, None)
  {
    a := Start(s, e);
    c := Content(a.state, e.body);
  }

  lemma StartArgues(s: State, e: Event)
    ensures !Argues(Start(s, e).out) && !Reasons(Start(s, e).out) && Start(s, e).state.items == s.items
  {
  }

  /** A done item, in any state: the stream begins if it had not, and the item says what it has to say. */
  lemma DoneStep(s: State, ref: ItemRef, item: Item) returns (a: Emit, c: Emit)
    ensures !Argues(a.out) && !Reasons(a.out) && a.state.items == s.items
    ensures c == Content(a.state, ItemDone(ref, item))
    ensures Step(s, Plain(ItemDone(ref, item))).out == a.out + c.out
  {
    var e := Event(ItemDone(ref, item), None, "");
    a, c := BegunFirst(s, e);
    StartArgues(s, e);
  }

  lemma DoneSupplies(s: State, ref: ItemRef, item: Item)
    requires item.kind.ToolItem?
    ensures Argues(Step(s, Plain(ItemDone(ref, item))).out) <==>
                  RawArguments(item) != "" && !(ref in s.items && s.items[ref].sawDelta)
  {
    var a, c := DoneStep(s, ref, item);
    SuppliedArguments(a.state, ref, item);
    ArguesAppend(a.out, c.out);
  }

  predicate Reasons(out: seq<Chunk>) {
    exists c :: c in out && c.delta.Reason?
  }

  lemma DoneReasons(s: State, ref: ItemRef, item: Item)
    requires item.kind.ReasoningItem?
    ensures Reasons(Content(s, ItemDone(ref, item)).out)
            <==> ReasoningText(item) != "" && !(ref in s.items && s.items[ref].sawDelta)
  {
    var c := Content(s, ItemDone(ref, item));
    if ReasoningText(item) != "" && !(ref in s.items && s.items[ref].sawDelta) {
      assert c.out[0].delta == Reason(ReasoningText(item)) && c.out[0] in c.out;
    }
  }

  lemma ReasonsAppend(x: seq<Chunk>, y: seq<Chunk>)
    requires !Reasons(x)
    ensures Reasons(x + y) <==> Reasons(y)
  {
    assert forall c :: c in x + y <==> c in x || c in y;
  }

  /** Wherever a stream has got to, a done reasoning item brings its text exactly when it has some and no
      arguments came under its key. */
  lemma {:induction false} DoneReasoning(model: string, frames: seq<Frame>, ref: ItemRef, item: Item)
    requires Run(Init(model), frames).error.None? && item.kind.ReasoningItem?
    ensures var s := Run(Init(model), frames).state;
            var m := Watch(SILENT, Run(Init(model), frames).out);
            && m.Some?
            && (Reasons(Step(s, Plain(ItemDone(ref, item))).out)
                <==> ReasoningText(item) != "" && !(ref in s.items && s.items[ref].toolIndex in m.value.argued))
  {
    RunProtocol(Init(model), SILENT, frames);
    var s := Run(Init(model), frames).state;
    var a, c := DoneStep(s, ref, item);
    DoneReasons(a.state, ref, item);
    ReasonsAppend(a.out, c.out);
  }

  // ---- When anything is said ----

  /** The event switch says something: a call not announced yet that has a name, or whose arguments or end have
      come; a text that is not empty; arguments that are not empty and had not come before. */
  predicate Speaks(s: State, b: Body) {
    match b
    case ItemAdded(ref, item) =>
      && item.kind.ToolItem? && !EntryOf(s, ref).announced
      && (Trim(item.name) != "" || Trim(EntryOf(s, ref).name) != "")
    case PartAdded(_, _, p) => (p.kind.TextPart? && p.text != "") || (p.kind.RefusalPart? && p.refusal != "")
    case TextDelta(_, _, text) => text != ""
    case RefusalDelta(_, _, text) => text != ""
    case ReasoningDelta(_, text) => text != ""
    case ArgumentsDelta(ref, _, _, _, text) => !EntryOf(s, ref).announced || text != ""
    case ItemDone(ref, item) =>
      var t := EntryOf(s, ref);
      || (item.kind.ReasoningItem? && ReasoningText(item) != "" && !t.sawDelta)
      || (item.kind.ToolItem? && (!t.announced || (RawArguments(item) != "" && !t.sawDelta)))
    case _ => false
  }

  lemma ToolSpeaks(s: State, b: Body) returns (e: Emit)
    requires b.ArgumentsDelta? || (b.ItemDone? && b.item.kind.ToolItem?)
    ensures e == Content(s, b) && (e.out != [] <==> Speaks(s, b))
  {
    e := Content(s, b);
  }

  lemma ContentSpeaks(s: State, b: Body) returns (e: Emit)
    ensures e == Content(s, b) && (e.out != [] <==> Speaks(s, b))
  {
    if b.ArgumentsDelta? || (b.ItemDone? && b.item.kind.ToolItem?) {
      e := ToolSpeaks(s, b);
      return;
    }
    e := Content(s, b);
  }

  /** In every state: an event that does not fail says something exactly when it begins the stream, ends it, or
      has something to say. */
  lemma SpeaksExactly(s: State, e: Event)
    requires Deliver(s, e).error.None?
    ensures Deliver(s, e).out != []
            <==> (IsResponseEvent(e.body) && !s.started) || (IsTerminal(e.body) && !s.stopped) || Speaks(s, e.body)
  {
    var a := if IsResponseEvent(e.body) then Start(s, e) else Emit(s, []);
    var c := ContentSpeaks(a.state, e.body);
  }
}
