/** Streaming a response as Chat Completions chunks and reassembling it, against translating it as a whole. */
module ChatStreamSquare {
  import opened Text
  import opened Responses
  import opened Chat
  import opened ChatMessage
  import opened ResponsesToChat
  import opened StreamPlan

  /** A part's text is in the field its kind names. */
  predicate PartInPlace(p: Part) {
    (p.kind.TextPart? ==> p.refusal == "") && (p.kind.RefusalPart? ==> p.text == "")
  }

  /** Beyond `Fits`: text in its place, and deltas that invent no identifier or name. */
  predicate ChatFits(p: ItemPlan) {
    && Fits(p)
    && (p.item.kind.MessageItem? ==> forall j :: 0 <= j < |p.item.parts| ==> PartInPlace(p.item.parts[j]))
    && (p.item.kind.ToolItem? && CallIdOf(p.item) == "" ==> FirstOf(p.callId, p.itemId) == "")
    && (p.item.kind.ToolItem? && Trim(p.item.name) == "" ==> Trim(p.name) == "")
  }

  predicate Ready(s: State, a: ChatDraft) {
    s.started && !s.stopped && |a.calls| == s.nextTool && (s.hasToolCalls <==> a.calls != [])
  }

  predicate SameHeader(s: State, t: State) {
    s.id == t.id && s.model == t.model && s.created == t.created
  }

  /** From a ready state to a ready state, with this share more and entries for `ref` only. */
  ghost predicate Gained(s: State, a: ChatDraft, o: Outcome, ref: ItemRef, share: Share) {
    && o.error.None? && SameHeader(s, o.state)
    && HearAll(a, o.out) == Gain(a, share)
    && Ready(o.state, Gain(a, share))
    && s.items.Keys <= o.state.items.Keys <= s.items.Keys + {ref}
  }

  lemma GainedTwice(s: State, a: ChatDraft, o: Outcome, q: Outcome, ref: ItemRef, x: Share, y: Share)
    requires Gained(s, a, o, ref, x) && Gained(o.state, Gain(a, x), q, ref, y)
    ensures Gained(s, a, Outcome(q.state, o.out + q.out, None), ref, Plus(x, y))
  {
    HearAppend(a, o.out, q.out);
    GainTwice(a, x, y);
  }

  lemma NothingGained(s: State, a: ChatDraft, ref: ItemRef)
    requires Ready(s, a)
    ensures Gained(s, a, Outcome(s, [], None), ref, NO_SHARE)
  {
    GainTwice(a, NO_SHARE, NO_SHARE);
  }

  /** An event that neither starts nor ends the message is the switch alone. */
  lemma PlainStep(s: State, b: Body)
    requires s.started && IsResponseEvent(b) && !IsTerminal(b)
    ensures Step(s, Plain(b)) == Outcome(Content(s, b).state, Content(s, b).out, None)
  {
    EmptyEnds(Content(s, b).out);
  }

  // ---- Text and reasoning ----

  function Voice(fl: Flavor, text: string): Share {
    match fl
    case Prosaic => NO_SHARE.(content := text)
    case Refusing => NO_SHARE.(refusal := text)
    case _ => NO_SHARE.(reasoning := text)
  }

  function VoiceDelta(fl: Flavor, text: string): ChatDelta {
    match fl
    case Prosaic => Say(text)
    case Refusing => Refuse(text)
    case _ => Reason(text)
  }

  lemma SpokenGains(s: State, a: ChatDraft, fl: Flavor, text: string, ref: ItemRef)
    requires Ready(s, a)
    ensures var e := Spoken(s, VoiceDelta(fl, text), text);
            Gained(s, a, Outcome(e.state, e.out, None), ref, Voice(fl, text))
  {
    var e := Spoken(s, VoiceDelta(fl, text), text);
    GainTwice(a, NO_SHARE, NO_SHARE);
    EmptyEnds(a.calls);
    EmptyEnds(a.content);
    EmptyEnds(a.refusal);
    EmptyEnds(a.reasoning);
    if text != "" {
      HearOne(a, e.out[0]);
    }
  }

  lemma {:induction false} ChunksGain(s: State, a: ChatDraft, fl: Flavor, ref: ItemRef, part: nat, chunks: seq<string>)
    requires Ready(s, a) && !fl.Argued?
    ensures Gained(s, a, Run(s, ChunkFrames(fl, ref, part, chunks)), ref, Voice(fl, Concat(chunks)))
    decreases |chunks|
  {
    if chunks == [] {
      NothingGained(s, a, ref);
    } else {
      var b := ChunkBody(fl, ref, part, chunks[0]);
      SpokenGains(s, a, fl, chunks[0], ref);
      PlainStep(s, b);
      var first := Step(s, Plain(b));
      ChunksGain(first.state, Gain(a, Voice(fl, chunks[0])), fl, ref, part, chunks[1..]);
      GainedTwice(s, a, first, Run(first.state, ChunkFrames(fl, ref, part, chunks[1..])), ref,
                  Voice(fl, chunks[0]), Voice(fl, Concat(chunks[1..])));
      RunOne(s, Plain(b));
      RunAppend(s, [Plain(b)], ChunkFrames(fl, ref, part, chunks[1..]));
      assert Plus(Voice(fl, chunks[0]), Voice(fl, Concat(chunks[1..]))) == Voice(fl, Concat(chunks));
    }
  }

  // ---- Message items ----

  lemma QuietStep(s: State, a: ChatDraft, b: Body, ref: ItemRef)
    requires Ready(s, a) && IsResponseEvent(b) && !IsTerminal(b) && Content(s, b) == Emit(s, [])
    ensures Gained(s, a, Step(s, Plain(b)), ref, NO_SHARE)
  {
    PlainStep(s, b);
    NothingGained(s, a, ref);
  }

  /** Three runs in a row. */
  lemma {:induction false} RunThree(s: State, a: ChatDraft, x: seq<Frame>, y: seq<Frame>, z: seq<Frame>, ref: ItemRef,
                                    p: Share, q: Share, r: Share)
    requires Gained(s, a, Run(s, x), ref, p)
    requires Gained(Run(s, x).state, Gain(a, p), Run(Run(s, x).state, y), ref, q)
    requires Gained(Run(Run(s, x).state, y).state, Gain(Gain(a, p), q), Run(Run(Run(s, x).state, y).state, z), ref, r)
    ensures Gained(s, a, Run(s, x + y + z), ref, Plus(Plus(p, q), r))
  {
    RunAppend(s, x, y);
    GainedTwice(s, a, Run(s, x), Run(Run(s, x).state, y), ref, p, q);
    RunAppend(s, x + y, z);
    GainTwice(a, p, q);
    GainedTwice(s, a, Run(s, x + y), Run(Run(s, x + y).state, z), ref, Plus(p, q), r);
  }

  lemma {:induction false} IgnoredPart(s: State, a: ChatDraft, ref: ItemRef, j: nat, p: PartPlan)
    requires Ready(s, a) && p.part.kind.OtherPart?
    ensures Gained(s, a, Run(s, PartFrames(ref, j, p)), ref, PartShare(p.part))
  {
    var f, l := Plain(PartAdded(ref, j, InitialPart(p))), Plain(PartDone(ref, j));
    RunOne(s, f);
    QuietStep(s, a, f.event.body, ref);
    NothingGained(s, a, ref);
    QuietStep(s, a, l.event.body, ref);
    RunOne(s, l);
    GainTwice(a, NO_SHARE, NO_SHARE);
    RunThree(s, a, [f], [], [l], ref, NO_SHARE, NO_SHARE, NO_SHARE);
    PlusLaws(NO_SHARE, NO_SHARE, NO_SHARE);
  }

  lemma {:induction false} PartOpens(s: State, a: ChatDraft, ref: ItemRef, j: nat, p: PartPlan, fl: Flavor)
    returns (o: Outcome)
    requires Ready(s, a) && !p.part.kind.OtherPart? && fl == if p.part.kind.TextPart? then Prosaic else Refusing
    ensures o == Run(s, [Plain(PartAdded(ref, j, InitialPart(p)))]) && Gained(s, a, o, ref, Voice(fl, p.initial))
  {
    var f := Plain(PartAdded(ref, j, InitialPart(p)));
    RunOne(s, f);
    PlainStep(s, f.event.body);
    SpokenGains(s, a, fl, p.initial, ref);
    o := Run(s, [f]);
  }

  lemma {:induction false} PartCloses(s: State, a: ChatDraft, ref: ItemRef, j: nat) returns (o: Outcome)
    requires Ready(s, a)
    ensures o == Run(s, [Plain(PartDone(ref, j))]) && Gained(s, a, o, ref, NO_SHARE)
  {
    var l := Plain(PartDone(ref, j));
    QuietStep(s, a, l.event.body, ref);
    RunOne(s, l);
    o := Run(s, [l]);
  }

  lemma {:induction false} OnePart(s: State, a: ChatDraft, ref: ItemRef, j: nat, p: PartPlan)
    requires Ready(s, a) && PartFits(p, p.part) && PartInPlace(p.part)
    ensures Gained(s, a, Run(s, PartFrames(ref, j, p)), ref, PartShare(p.part))
  {
    if p.part.kind.OtherPart? {
      IgnoredPart(s, a, ref, j, p);
    } else {
      var fl := if p.part.kind.TextPart? then Prosaic else Refusing;
      var o := PartOpens(s, a, ref, j, p, fl);
      var b := Gain(a, Voice(fl, p.initial));
      ChunksGain(o.state, b, fl, ref, j, p.chunks);
      var q := Run(o.state, ChunkFrames(fl, ref, j, p.chunks));
      var l := PartCloses(q.state, Gain(b, Voice(fl, Concat(p.chunks))), ref, j);
      RunThree(s, a, [Plain(PartAdded(ref, j, InitialPart(p)))], ChunkFrames(fl, ref, j, p.chunks),
          [Plain(PartDone(ref, j))],
               ref, Voice(fl, p.initial), Voice(fl, Concat(p.chunks)), NO_SHARE);
      PartSum(fl, p);
    }
  }

  lemma {:induction false} PartSum(fl: Flavor, p: PartPlan)
    requires PartFits(p, p.part) && PartInPlace(p.part) && !p.part.kind.OtherPart?
    requires fl == if p.part.kind.TextPart? then Prosaic else Refusing
    ensures Plus(Plus(Voice(fl, p.initial), Voice(fl, Concat(p.chunks))), NO_SHARE) == PartShare(p.part)
  {
    PlusLaws(Plus(Voice(fl, p.initial), Voice(fl, Concat(p.chunks))), NO_SHARE, NO_SHARE);
  }

  function PlannedParts(parts: seq<PartPlan>): seq<Part> {
    if parts == [] then [] else [parts[0].part] + PlannedParts(parts[1..])
  }

  lemma {:induction false} AllParts(s: State, a: ChatDraft, ref: ItemRef, j: nat, parts: seq<PartPlan>)
    requires Ready(s, a)
    requires forall i :: 0 <= i < |parts| ==> PartFits(parts[i], parts[i].part) && PartInPlace(parts[i].part)
    ensures Gained(s, a, Run(s, PartsFrames(ref, j, parts)), ref, PartsShare(PlannedParts(parts)))
    decreases |parts|
  {
    if parts == [] {
      NothingGained(s, a, ref);
    } else {
      OnePart(s, a, ref, j, parts[0]);
      var o := Run(s, PartFrames(ref, j, parts[0]));
      AllParts(o.state, Gain(a, PartShare(parts[0].part)), ref, j + 1, parts[1..]);
      RunAppend(s, PartFrames(ref, j, parts[0]), PartsFrames(ref, j + 1, parts[1..]));
      GainedTwice(s, a, o, Run(o.state, PartsFrames(ref, j + 1, parts[1..])), ref,
                  PartShare(parts[0].part), PartsShare(PlannedParts(parts[1..])));
      assert PlannedParts(parts)[1..] == PlannedParts(parts[1..]);
    }
  }

  lemma {:induction false} PlannedAre(parts: seq<PartPlan>, whole: seq<Part>)
    requires |parts| == |whole| && forall j :: 0 <= j < |parts| ==> parts[j].part == whole[j]
    ensures PlannedParts(parts) == whole
  {
    if parts != [] {
      PlannedAre(parts[1..], whole[1..]);
    }
  }

  // ---- What each item adds when it is streamed ----

  /** As `ItemShare`, but a reasoning item's deltas come before its whole text. */
  function StreamShare(p: ItemPlan): Share {
    if p.item.kind.ReasoningItem? then NO_SHARE.(reasoning := Concat(p.chunks) + ReasoningText(p.item))
    else ItemShare(p.item)
  }

  lemma {:induction false} RunItem(s: State, a: ChatDraft, p: ItemPlan, x: Share, y: Share, z: Share)
    requires p.announced
    requires var f, l := Plain(ItemAdded(p.ref, p.added)), Plain(ItemDone(p.ref, p.item));
             && Gained(s, a, Step(s, f), p.ref, x)
             && Gained(Step(s, f).state, Gain(a, x), Run(Step(s, f).state, InnerFrames(p)), p.ref, y)
             && Gained(Run(Step(s, f).state, InnerFrames(p)).state, Gain(Gain(a, x), y),
                       Step(Run(Step(s, f).state, InnerFrames(p)).state, l), p.ref, z)
    ensures Gained(s, a, Run(s, ItemFrames(p)), p.ref, Plus(Plus(x, y), z))
  {
    var f, l := Plain(ItemAdded(p.ref, p.added)), Plain(ItemDone(p.ref, p.item));
    RunOne(s, f);
    RunOne(Run(Step(s, f).state, InnerFrames(p)).state, l);
    RunThree(s, a, [f], InnerFrames(p), [l], p.ref, x, y, z);
  }

  /** The events that announce and end a message or an unknown item say nothing. */
  lemma {:induction false} QuietEdges(s: State, a: ChatDraft, p: ItemPlan, y: Share)
    requires Ready(s, a) && p.announced && Fits(p) && (p.item.kind.MessageItem? || p.item.kind.OtherItem?)
    requires Gained(s, a, Run(s, InnerFrames(p)), p.ref, y)
    ensures Gained(s, a, Run(s, ItemFrames(p)), p.ref, y)
  {
    QuietStep(s, a, ItemAdded(p.ref, p.added), p.ref);
    PlainStep(s, ItemAdded(p.ref, p.added));
    GainTwice(a, NO_SHARE, NO_SHARE);
    var q := Run(s, InnerFrames(p));
    QuietStep(q.state, Gain(a, y), ItemDone(p.ref, p.item), p.ref);
    RunItem(s, a, p, NO_SHARE, y, NO_SHARE);
    PlusLaws(y, NO_SHARE, NO_SHARE);
  }

  lemma {:induction false} MessageGains(s: State, a: ChatDraft, p: ItemPlan)
    requires Ready(s, a) && p.announced && ChatFits(p) && p.item.kind.MessageItem?
    ensures Gained(s, a, Run(s, ItemFrames(p)), p.ref, StreamShare(p))
  {
    assert forall j :: 0 <= j < |p.parts| ==> PartFits(p.parts[j], p.item.parts[j]) && PartInPlace(p.item.parts[j]);
    PlannedAre(p.parts, p.item.parts);
    AllParts(s, a, p.ref, 0, p.parts);
    QuietEdges(s, a, p, StreamShare(p));
  }

  lemma {:induction false} OtherGains(s: State, a: ChatDraft, p: ItemPlan)
    requires Ready(s, a) && p.announced && ChatFits(p) && p.item.kind.OtherItem?
    ensures Gained(s, a, Run(s, ItemFrames(p)), p.ref, StreamShare(p))
  {
    NothingGained(s, a, p.ref);
    QuietEdges(s, a, p, NO_SHARE);
  }

  lemma {:induction false} ReasoningGains(s: State, a: ChatDraft, p: ItemPlan)
    requires Ready(s, a) && p.announced && ChatFits(p) && p.item.kind.ReasoningItem? && p.ref !in s.items
    ensures Gained(s, a, Run(s, ItemFrames(p)), p.ref, StreamShare(p))
  {
    var x, y := Voice(Reasoned, Concat(p.chunks)), Voice(Reasoned, ReasoningText(p.item));
    QuietStep(s, a, ItemAdded(p.ref, p.added), p.ref);
    PlainStep(s, ItemAdded(p.ref, p.added));
    GainTwice(a, NO_SHARE, NO_SHARE);
    ChunksGain(s, a, Reasoned, p.ref, 0, p.chunks);
    ChunksKeepItems(s, Reasoned, p.ref, 0, p.chunks);
    var q := Run(s, InnerFrames(p));
    PlainStep(q.state, ItemDone(p.ref, p.item));
    SpokenGains(q.state, Gain(a, x), Reasoned, ReasoningText(p.item), p.ref);
    RunItem(s, a, p, NO_SHARE, x, y);
    PlusLaws(x, y, NO_SHARE);
    assert Plus(x, y) == StreamShare(p);
  }

  lemma {:induction false} ChunksKeepItems(s: State, fl: Flavor, ref: ItemRef, part: nat, chunks: seq<string>)
    requires s.started && !fl.Argued?
    ensures Run(s, ChunkFrames(fl, ref, part, chunks)).state == s
    decreases |chunks|
  {
    if chunks != [] {
      var b := ChunkBody(fl, ref, part, chunks[0]);
      PlainStep(s, b);
      RunOne(s, Plain(b));
      RunAppend(s, [Plain(b)], ChunkFrames(fl, ref, part, chunks[1..]));
      ChunksKeepItems(s, fl, ref, part, chunks[1..]);
    }
  }

  // ---- Tool items ----

  function CallsSoFar(calls: seq<ToolCall>, announced: bool, id: string, name: string,
                      arguments: string): seq<ToolCall> {
    if announced then calls + [ToolCall(id, name, arguments)] else calls
  }

  /** From state `s`, the tool call of `ref` has got this far. */
  ghost predicate ToolAt(s: State, a: ChatDraft, o: Outcome, ref: ItemRef, id: string, name: string, announced: bool,
                         arguments: string) {
    && o.error.None?
    && o.state == s.(nextTool := s.nextTool + 1, hasToolCalls := s.hasToolCalls || announced,
                     items := s.items[ref := Entry(s.nextTool, announced, arguments != "", id, name)])
    && HearAll(a, o.out) == a.(calls := CallsSoFar(a.calls, announced, id, name, arguments))
    && (arguments != "" ==> announced)
  }

  lemma TrimmedFallback(id: string, x: string, y: string)
    requires Trim(id) == id
    ensures FirstOf(id, x) == if id != "" then id else Trim(x)
    ensures FirstOf3(id, x, y) == if id != "" then id else FirstOf(x, y)
    ensures FirstOf(x, "") == Trim(x)
  {
    assert Trim("") == "";
  }

  lemma NamedTool(s: State, a: ChatDraft, ref: ItemRef, id: string, name: string)
    requires Ready(s, a) && ref !in s.items
    ensures var t := Named(s, ref, id, name);
            && ref in t.items && t.items[ref].name == name
            && ToolAt(s, a, Outcome(t, [], None), ref, id, name, false, "")
  {
    var t := Named(s, ref, id, name);
    assert t.items == s.items[ref := Entry(s.nextTool, false, false, id, name)];
  }

  lemma AddedName(p: ItemPlan)
    requires p.announced && Fits(p) && p.item.kind.ToolItem?
    ensures FirstOf(CallIdOf(p.added), "") == CallIdOf(p.item) && FirstOf(p.added.name, "") == Trim(p.item.name)
  {
    FirstOfTrimmed(p.added.callId, p.added.id, "");
    TrimmedFallback("", CallIdOf(p.added), "");
    TrimmedFallback("", p.added.name, "");
  }

  lemma ToolAdded(s: State, a: ChatDraft, p: ItemPlan)
    requires Ready(s, a) && p.announced && p.ref !in s.items && Fits(p) && p.item.kind.ToolItem?
    ensures ToolAt(s, a, Step(s, Plain(ItemAdded(p.ref, p.added))), p.ref, CallIdOf(p.item), Trim(p.item.name),
                   Trim(p.item.name) != "", "")
  {
    var id, name := CallIdOf(p.item), Trim(p.item.name);
    AddedName(p);
    PlainStep(s, ItemAdded(p.ref, p.added));
    NamedTool(s, a, p.ref, id, name);
    var t := Outcome(Named(s, p.ref, id, name), [], None);
    if name != "" {
      ToolAnnounced(s, a, t, p.ref, id, name, false, "");
      EmptyEnds(Announce(t.state, p.ref).out);
    }
  }

  lemma ToolAnnounced(s: State, a: ChatDraft, o: Outcome, ref: ItemRef, id: string, name: string, announced: bool,
                      arguments: string)
    requires Ready(s, a) && ToolAt(s, a, o, ref, id, name, announced, arguments)
    ensures var x := Announce(o.state, ref);
            && x.state.items[ref] == o.state.items[ref].(announced := true)
            && ToolAt(s, a, Outcome(x.state, o.out + x.out, None), ref, id, name, true, arguments)
  {
    var x := Announce(o.state, ref);
    HearAppend(a, o.out, x.out);
    if !announced {
      HearOne(HearAll(a, o.out), x.out[0]);
    } else {
      assert o.out + x.out == o.out;
    }
    assert x.state.items == s.items[ref := Entry(s.nextTool, true, arguments != "", id, name)];
  }

  /** More arguments for a tool call: announce it if need be, and append. */
  lemma ToolGrows(s: State, a: ChatDraft, o: Outcome, ref: ItemRef, id: string, name: string, announced: bool,
                  arguments: string, c: string)
    requires Ready(s, a) && ToolAt(s, a, o, ref, id, name, announced, arguments)
    ensures var x := Announce(o.state, ref);
            var y := Arguments(x.state, ref, c);
            && x.state.items[ref] == o.state.items[ref].(announced := true)
            && ToolAt(s, a, Outcome(x.state, o.out + x.out, None), ref, id, name, true, arguments)
            && ToolAt(s, a, Outcome(y.state, o.out + (x.out + y.out), None), ref, id, name, true, arguments + c)
  {
    ToolAnnounced(s, a, o, ref, id, name, announced, arguments);
    var x := Announce(o.state, ref);
    ToolSupplied(s, a, Outcome(x.state, o.out + x.out, None), ref, id, name, arguments, c);
    var y := Arguments(x.state, ref, c);
    Regroup(o.out, x.out, y.out);
  }

  lemma ToolSupplied(s: State, a: ChatDraft, o: Outcome, ref: ItemRef, id: string, name: string, arguments: string,
                     c: string)
    requires Ready(s, a) && ToolAt(s, a, o, ref, id, name, true, arguments)
    ensures var y := Arguments(o.state, ref, c);
            ToolAt(s, a, Outcome(y.state, o.out + y.out, None), ref, id, name, true, arguments + c)
  {
    var y := Arguments(o.state, ref, c);
    HearAppend(a, o.out, y.out);
    var b := HearAll(a, o.out);
    if c != "" {
      HearOne(b, y.out[0]);
      assert b.calls[s.nextTool := ToolCall(id, name, arguments + c)] == a.calls + [ToolCall(id, name, arguments + c)];
      assert y.state.items == s.items[ref := Entry(s.nextTool, true, true, id, name)];
    } else {
      assert o.out + y.out == o.out && arguments + c == arguments;
    }
  }

  /** Giving an entry the identifier and name it has already changes nothing. */
  lemma SameName(s: State, ref: ItemRef, id: string, name: string)
    requires ref in s.items && s.items[ref].callId == id && s.items[ref].name == name
    ensures Named(s, ref, id, name) == s
  {
    assert s.items[ref := s.items[ref]] == s.items;
  }

  /** Neither a delta nor the done event of a tool renames it. */
  lemma NameStays(p: ItemPlan) returns (id: string, name: string)
    requires ChatFits(p) && p.item.kind.ToolItem?
    ensures id == CallIdOf(p.item) && name == Trim(p.item.name)
    ensures FirstOf3(id, p.callId, p.itemId) == id && FirstOf(name, p.name) == name
    ensures FirstOf(id, id) == id && FirstOf(name, p.item.name) == name
  {
    id, name := CallIdOf(p.item), Trim(p.item.name);
    FirstOfTrimmed(p.item.callId, p.item.id, "");
    TrimShape(p.item.name);
    TrimmedFallback(id, p.callId, p.itemId);
    TrimmedFallback(name, p.name, "");
    TrimmedFallback(id, id, "");
    TrimmedFallback(name, p.item.name, "");
  }

  lemma ToolDelta(s: State, a: ChatDraft, o: Outcome, p: ItemPlan, announced: bool, arguments: string, c: string)
    requires Ready(s, a) && ChatFits(p) && p.item.kind.ToolItem?
    requires ToolAt(s, a, o, p.ref, CallIdOf(p.item), Trim(p.item.name), announced, arguments)
    ensures var l := Step(o.state, Plain(ArgumentsDelta(p.ref, p.callId, p.itemId, p.name, c)));
            && l.error.None?
            && ToolAt(s, a, Then(o, l), p.ref, CallIdOf(p.item), Trim(p.item.name), true, arguments + c)
  {
    var id, name := NameStays(p);
    PlainStep(o.state, ArgumentsDelta(p.ref, p.callId, p.itemId, p.name, c));
    SameName(o.state, p.ref, id, name);
    ToolGrows(s, a, o, p.ref, id, name, announced, arguments, c);
  }

  lemma {:induction false} ToolDeltas(s: State, a: ChatDraft, o: Outcome, p: ItemPlan, announced: bool,
                                      arguments: string, chunks: seq<string>)
    requires Ready(s, a) && ChatFits(p) && p.item.kind.ToolItem?
    requires ToolAt(s, a, o, p.ref, CallIdOf(p.item), Trim(p.item.name), announced, arguments)
    ensures var q := Run(o.state, ChunkFrames(Argued(p.callId, p.itemId, p.name), p.ref, 0, chunks));
            && q.error.None?
            && ToolAt(s, a, Then(o, q), p.ref, CallIdOf(p.item), Trim(p.item.name),
                      announced || chunks != [], arguments + Concat(chunks))
    decreases |chunks|
  {
    if chunks == [] {
      EmptyEnds(o.out);
      EmptyEnds(arguments);
    } else {
      var fl := Argued(p.callId, p.itemId, p.name);
      var f, frames := Plain(ChunkBody(fl, p.ref, 0, chunks[0])), ChunkFrames(fl, p.ref, 0, chunks[1..]);
      ToolDelta(s, a, o, p, announced, arguments, chunks[0]);
      var l := Step(o.state, f);
      ToolDeltas(s, a, Then(o, l), p, true, arguments + chunks[0], chunks[1..]);
      RunCons(o.state, f, frames);
      ThenThen(o, l, Run(l.state, frames));
      Regroup(arguments, chunks[0], Concat(chunks[1..]));
    }
  }

  lemma ToolDone(s: State, a: ChatDraft, o: Outcome, p: ItemPlan, announced: bool, arguments: string)
    requires Ready(s, a) && ChatFits(p) && p.item.kind.ToolItem?
    requires ToolAt(s, a, o, p.ref, CallIdOf(p.item), Trim(p.item.name), announced, arguments)
    ensures var l := Step(o.state, Plain(ItemDone(p.ref, p.item)));
            && l.error.None?
            && ToolAt(s, a, Then(o, l), p.ref, CallIdOf(p.item), Trim(p.item.name), true,
                      if arguments != "" then arguments else RawArguments(p.item))
  {
    var id, name := NameStays(p);
    PlainStep(o.state, ItemDone(p.ref, p.item));
    SameName(o.state, p.ref, id, name);
    ToolGrows(s, a, o, p.ref, id, name, announced, arguments, RawArguments(p.item));
    EmptyEnds(Announce(o.state, p.ref).out);
    EmptyEnds(RawArguments(p.item));
  }

  lemma {:induction false} ToolStreamed(s: State, a: ChatDraft, p: ItemPlan)
    returns (o: Outcome, q: Outcome, announced: bool)
    requires Ready(s, a) && p.announced && ChatFits(p) && p.item.kind.ToolItem? && p.ref !in s.items
    ensures o == Step(s, Plain(ItemAdded(p.ref, p.added))) && o.error.None?
    ensures q == Run(o.state, InnerFrames(p)) && q.error.None?
    ensures ToolAt(s, a, Then(o, q), p.ref, CallIdOf(p.item), Trim(p.item.name), announced, Concat(p.chunks))
  {
    ToolAdded(s, a, p);
    o := Step(s, Plain(ItemAdded(p.ref, p.added)));
    ToolDeltas(s, a, o, p, Trim(p.item.name) != "", "", p.chunks);
    q := Run(o.state, InnerFrames(p));
    announced := Trim(p.item.name) != "" || p.chunks != [];
    EmptyEnds(Concat(p.chunks));
  }

  lemma {:induction false} ToolRun(s: State, a: ChatDraft, p: ItemPlan)
    requires Ready(s, a) && p.announced && ChatFits(p) && p.item.kind.ToolItem? && p.ref !in s.items
    ensures ToolAt(s, a, Run(s, ItemFrames(p)), p.ref, CallIdOf(p.item), Trim(p.item.name), true, RawArguments(p.item))
  {
    var o, q, announced := ToolStreamed(s, a, p);
    ToolDone(s, a, Then(o, q), p, announced, Concat(p.chunks));
    RunBetween(s, Plain(ItemAdded(p.ref, p.added)), InnerFrames(p), Plain(ItemDone(p.ref, p.item)));
  }

  lemma {:induction false} ToolGains(s: State, a: ChatDraft, p: ItemPlan)
    requires Ready(s, a) && p.announced && ChatFits(p) && p.item.kind.ToolItem? && p.ref !in s.items
    ensures Gained(s, a, Run(s, ItemFrames(p)), p.ref, StreamShare(p))
  {
    ToolRun(s, a, p);
    EmptyEnds(a.content);
    EmptyEnds(a.refusal);
    EmptyEnds(a.reasoning);
  }

  lemma {:induction false} AnnouncedItem(s: State, a: ChatDraft, p: ItemPlan)
    requires Ready(s, a) && p.announced && ChatFits(p) && p.ref !in s.items
    ensures Gained(s, a, Run(s, ItemFrames(p)), p.ref, StreamShare(p))
  {
    match p.item.kind
    case ReasoningItem => ReasoningGains(s, a, p);
    case ToolItem => ToolGains(s, a, p);
    case MessageItem => MessageGains(s, a, p);
    case OtherItem => OtherGains(s, a, p);
  }

  // ---- Items nobody announced ----

  /** If a frame does what `a` and it would do together, `a` may come before it. */
  lemma {:induction false} RunAhead(s: State, a: Frame, f: Frame, rest: seq<Frame>)
    requires Step(s, a).error.None? && Step(s, f).error.None?
    requires Step(s, f) == Then(Step(s, a), Step(Step(s, a).state, f))
    ensures Run(s, [a] + ([f] + rest)) == Run(s, [f] + rest)
  {
    RunCons(s, a, [f] + rest);
    RunCons(Step(s, a).state, f, rest);
    RunCons(s, f, rest);
    var o, q := Step(s, a), Step(Step(s, a).state, f);
    ThenThen(o, q, Run(q.state, rest));
  }

  /** Naming a new tool and announcing it if it has a name, and then naming it so again and announcing
      it in any case. */
  lemma ToldTwice(s: State, ref: ItemRef, id: string, name: string) returns (x: Emit, y: Emit)
    requires ref !in s.items
    ensures x == if name != "" then Announce(Named(s, ref, id, name), ref) else Emit(Named(s, ref, id, name), [])
    ensures ref in x.state.items && x.state.items[ref].callId == id && x.state.items[ref].name == name
    ensures x.state.started == s.started
    ensures y == Announce(Named(x.state, ref, id, name), ref)
    ensures Announce(Named(s, ref, id, name), ref) == Emit(y.state, x.out + y.out)
  {
    var t := Named(s, ref, id, name);
    x := if name != "" then Announce(t, ref) else Emit(t, []);
    SameName(x.state, ref, id, name);
    y := Announce(x.state, ref);
    EmptyEnds(x.out);
    EmptyEnds(y.out);
  }

  /** What a tool is called when nobody announced it. */
  lemma LateName(p: ItemPlan) returns (id: string, name: string)
    requires !p.announced && p.item.kind.ToolItem?
    ensures id == FirstOf(CallIdOf(Announcement(p)), "") == CallIdOf(Announcement(p))
    ensures name == FirstOf(Announcement(p).name, "") == Trim(Announcement(p).name) && Trim(name) == name
    ensures FirstOf(id, id) == id && FirstOf(name, Announcement(p).name) == name
  {
    var item := Announcement(p);
    id, name := CallIdOf(item), Trim(item.name);
    FirstOfTrimmed(item.callId, item.id, "");
    TrimShape(item.name);
    TrimmedFallback(id, id, "");
    TrimmedFallback(name, item.name, "");
    TrimmedFallback("", id, "");
    TrimmedFallback("", item.name, "");
  }

  lemma DoneAhead(s: State, p: ItemPlan) returns (e: Emit, c: Emit)
    requires !p.announced && p.item.kind.ToolItem? && p.chunks == [] && p.ref !in s.items
    ensures e == AddItem(s, p.ref, Announcement(p)) && c == Content(e.state, ItemDone(p.ref, p.item))
    ensures Content(s, ItemDone(p.ref, p.item)) == Emit(c.state, e.out + c.out) && e.state.started == s.started
  {
    var id, name := LateName(p);
    TrimmedFallback("", CallIdOf(p.item), "");
    TrimmedFallback("", p.item.name, "");
    var y;
    e, y := ToldTwice(s, p.ref, id, name);
    c := CompleteTool(e.state, p.ref, p.item);
    var z := if y.state.items[p.ref].sawDelta then Emit(y.state, []) else Arguments(y.state, p.ref,
        RawArguments(p.item));
    Regroup(e.out, y.out, z.out);
  }

  lemma ArgumentsAhead(s: State, p: ItemPlan, text: string) returns (e: Emit, c: Emit)
    requires !p.announced && p.item.kind.ToolItem? && p.chunks != [] && p.ref !in s.items
    ensures e == AddItem(s, p.ref, Announcement(p))
    ensures c == Content(e.state, ArgumentsDelta(p.ref, p.callId, p.itemId, p.name, text))
    ensures Content(s, ArgumentsDelta(p.ref, p.callId, p.itemId, p.name, text)) == Emit(c.state, e.out + c.out)
    ensures e.state.started == s.started
  {
    var id, name := LateName(p);
    TrimmedFallback("", p.callId, p.itemId);
    TrimmedFallback(id, p.callId, p.itemId);
    TrimmedFallback("", p.name, "");
    var y;
    e, y := ToldTwice(s, p.ref, id, name);
    c := ArgumentsArrive(e.state, p.ref, p.callId, p.itemId, p.name, text);
    Regroup(e.out, y.out, Arguments(y.state, p.ref, text).out);
  }

  lemma {:induction false} BodyAhead(s: State, ref: ItemRef, item: Item, b: Body, e: Emit, c: Emit, rest: seq<Frame>)
    requires s.started && e.state.started && IsResponseEvent(b) && !IsTerminal(b)
    requires e == AddItem(s, ref, item) && c == Content(e.state, b) && Content(s, b) == Emit(c.state, e.out + c.out)
    ensures Run(s, [Plain(ItemAdded(ref, item))] + ([Plain(b)] + rest)) == Run(s, [Plain(b)] + rest)
  {
    PlainStep(s, ItemAdded(ref, item));
    PlainStep(s, b);
    PlainStep(e.state, b);
    RunAhead(s, Plain(ItemAdded(ref, item)), Plain(b), rest);
  }

  /** The frames after the announcement of a tool: one that names it, and the rest. */
  lemma ToolFrames(p: ItemPlan) returns (b: Body, rest: seq<Frame>)
    requires p.item.kind.ToolItem?
    ensures b == if p.chunks == [] then ItemDone(p.ref, p.item)
                 else ArgumentsDelta(p.ref, p.callId, p.itemId, p.name, p.chunks[0])
    ensures InnerFrames(p) + [Plain(ItemDone(p.ref, p.item))] == [Plain(b)] + rest
  {
    var last := [Plain(ItemDone(p.ref, p.item))];
    if p.chunks == [] {
      b, rest := ItemDone(p.ref, p.item), [];
      EmptyEnds(last);
      return;
    }
    b := ArgumentsDelta(p.ref, p.callId, p.itemId, p.name, p.chunks[0]);
    var more := ChunkFrames(Argued(p.callId, p.itemId, p.name), p.ref, 0, p.chunks[1..]);
    rest := more + last;
    Regroup([Plain(b)], more, last);
  }

  lemma ToolAhead(s: State, p: ItemPlan, b: Body) returns (e: Emit, c: Emit)
    requires !p.announced && p.item.kind.ToolItem? && p.ref !in s.items
    requires b == if p.chunks == [] then ItemDone(p.ref, p.item)
                  else ArgumentsDelta(p.ref, p.callId, p.itemId, p.name, p.chunks[0])
    ensures e == AddItem(s, p.ref, Announcement(p)) && c == Content(e.state, b)
    ensures Content(s, b) == Emit(c.state, e.out + c.out) && e.state.started == s.started
  {
    if p.chunks == [] {
      e, c := DoneAhead(s, p);
      return;
    }
    e, c := ArgumentsAhead(s, p, p.chunks[0]);
  }

  lemma {:induction false} ToolRunsAsAnnounced(s: State, p: ItemPlan)
    requires s.started && !p.announced && p.item.kind.ToolItem? && p.ref !in s.items
    ensures var a := Plain(ItemAdded(p.ref, Announcement(p)));
            var frames := InnerFrames(p) + [Plain(ItemDone(p.ref, p.item))];
            Run(s, [a] + frames) == Run(s, frames)
  {
    var b, rest := ToolFrames(p);
    var e, c := ToolAhead(s, p, b);
    BodyAhead(s, p.ref, Announcement(p), b, e, c, rest);
  }

  /** An item nobody announced runs as if it had been announced with what is first known of it. */
  lemma {:induction false} RunsAsAnnounced(s: State, p: ItemPlan)
    requires s.started && !p.announced && p.ref !in s.items
    ensures Run(s, ItemFrames(p)) == Run(s, ItemFrames(AsAnnounced(p)))
  {
    var a, last := Plain(ItemAdded(p.ref, Announcement(p))), [Plain(ItemDone(p.ref, p.item))];
    EmptyEnds(InnerFrames(p));
    Regroup([a], InnerFrames(p), last);
    assert InnerFrames(AsAnnounced(p)) == InnerFrames(p);
    if p.item.kind.ToolItem? {
      ToolRunsAsAnnounced(s, p);
    } else {
      PlainStep(s, a.event.body);
      RunCons(s, a, InnerFrames(p) + last);
      EmptyEnds(Run(s, InnerFrames(p) + last).out);
    }
  }

  lemma {:induction false} OneItem(s: State, a: ChatDraft, p: ItemPlan)
    requires Ready(s, a) && ChatFits(p) && p.ref !in s.items
    ensures Gained(s, a, Run(s, ItemFrames(p)), p.ref, StreamShare(p))
  {
    if p.announced {
      AnnouncedItem(s, a, p);
    } else {
      RunsAsAnnounced(s, p);
      AnnouncedItem(s, a, AsAnnounced(p));
    }
  }

  // ---- All items, and the whole stream ----

  function StreamShares(plans: seq<ItemPlan>): Share {
    if plans == [] then NO_SHARE else Plus(StreamShare(plans[0]), StreamShares(plans[1..]))
  }

  ghost predicate ChatCarries(plans: seq<ItemPlan>) {
    && (forall i :: 0 <= i < |plans| ==> ChatFits(plans[i]))
    && (forall i, j :: 0 <= i < j < |plans| ==> plans[i].ref != plans[j].ref)
  }

  ghost predicate Grew(s: State, a: ChatDraft, o: Outcome, share: Share) {
    o.error.None? && SameHeader(s, o.state) && HearAll(a, o.out) == Gain(a, share) && Ready(o.state, Gain(a, share))
  }

  lemma {:induction false} AllItems(s: State, a: ChatDraft, plans: seq<ItemPlan>)
    requires Ready(s, a) && ChatCarries(plans)
    requires forall i :: 0 <= i < |plans| ==> plans[i].ref !in s.items
    ensures Grew(s, a, Run(s, ItemsFrames(plans)), StreamShares(plans))
    decreases |plans|
  {
    if plans == [] {
      NothingGained(s, a, ByIndex(0));
    } else {
      var p, rest := plans[0], plans[1..];
      OneItem(s, a, p);
      var o := Run(s, ItemFrames(p));
      forall i | 0 <= i < |rest| ensures rest[i].ref !in o.state.items {
        assert rest[i] == plans[i + 1];
      }
      AllItems(o.state, Gain(a, StreamShare(p)), rest);
      RunAppend(s, ItemFrames(p), ItemsFrames(rest));
      HearAppend(a, o.out, Run(o.state, ItemsFrames(rest)).out);
      GainTwice(a, StreamShare(p), StreamShares(rest));
    }
  }

  /** The item's reasoning, if any, came only with the done event. */
  predicate NoReasoningDeltas(p: ItemPlan) {
    p.item.kind.ReasoningItem? ==> Concat(p.chunks) == ""
  }

  predicate NoneStreamed(plans: seq<ItemPlan>) {
    forall i :: 0 <= i < |plans| ==> NoReasoningDeltas(plans[i])
  }

  lemma NoneStreamedCons(plans: seq<ItemPlan>)
    requires plans != []
    ensures NoneStreamed(plans) <==> NoReasoningDeltas(plans[0]) && NoneStreamed(plans[1..])
  {
    if NoneStreamed(plans) {
      assert forall i :: 0 <= i < |plans| - 1 ==> plans[1..][i] == plans[i + 1];
    }
    if NoReasoningDeltas(plans[0]) && NoneStreamed(plans[1..]) {
      assert forall i :: 0 < i < |plans| ==> plans[i] == plans[1..][i - 1];
    }
  }

  /** The streamed share is the whole one, with this much reasoning in front. */
  lemma ShareAgrees(p: ItemPlan) returns (x: Share, y: Share, extra: string)
    ensures x == StreamShare(p) && y == ItemShare(p.item)
    ensures x == y.(reasoning := extra + y.reasoning) && (extra == "" <==> NoReasoningDeltas(p))
  {
    x, y := StreamShare(p), ItemShare(p.item);
    extra := if p.item.kind.ReasoningItem? then Concat(p.chunks) else "";
    assert extra + y.reasoning == x.reasoning;
  }

  lemma {:induction false} SharesAgree(plans: seq<ItemPlan>)
    ensures var x, y := StreamShares(plans), ItemsShare(ItemsOf(plans));
            && x.content == y.content && x.refusal == y.refusal && x.calls == y.calls
            && |x.reasoning| >= |y.reasoning|
            && (x.reasoning == y.reasoning <==> NoneStreamed(plans))
            && (|x.reasoning| == |y.reasoning| ==> x.reasoning == y.reasoning)
  {
    if plans != [] {
      var x, y, extra := ShareAgrees(plans[0]);
      SharesAgree(plans[1..]);
      NoneStreamedCons(plans);
      assert ItemsOf(plans)[1..] == ItemsOf(plans[1..]);
      LongerReasoning(extra, y.reasoning, StreamShares(plans[1..]).reasoning,
          ItemsShare(ItemsOf(plans[1..])).reasoning);
    }
  }

  lemma LongerReasoning(extra: string, first: string, x: string, y: string)
    requires |x| >= |y| && (|x| == |y| ==> x == y)
    ensures |extra + first + x| >= |first + y|
    ensures extra + first + x == first + y <==> extra == "" && x == y
    ensures |extra + first + x| == |first + y| ==> extra + first + x == first + y
  {
    if extra == "" {
      EmptyEnds(first);
    }
  }

  function Greeting(): ChatDraft {
    NO_CHAT.(roles := 1)
  }

  lemma {:induction false} StreamOpens(model: string, opening: Response) returns (o: Outcome)
    ensures o == Step(Init(model), Data(Event(Opening, Some(opening), "")))
    ensures o.error.None? && HearAll(NO_CHAT, o.out) == Greeting() && Ready(o.state, Greeting())
             && o.state.items == map[]
    ensures o.state.id == FirstOf3(opening.id, "", "chatcmpl-copilot") && o.state.model == FirstOf(opening.model, model)
    ensures o.state.created == NumberValue(opening.createdAt)
  {
    var a := Start(Init(model), Event(Opening, Some(opening), ""));
    EmptyEnds(a.out);
    HearOne(NO_CHAT, a.out[0]);
    o := Step(Init(model), Data(Event(Opening, Some(opening), "")));
  }

  lemma {:induction false} StreamCloses(s: State, a: ChatDraft, closing: Body, r: Response)
    requires Ready(s, a) && IsTerminal(closing)
    ensures var o := Step(s, Data(Event(closing, Some(r), "")));
            if closing.Completed? && FailureOf(r).Some? then o.error == FailureOf(r) && o.out == []
            else o.error.None?
                 && HearAll(a, o.out) == a.(finish := Some(FinishOf(r.incomplete, a.calls != [])),
                     usage := Some(UsageOf(r.usage)))
  {
    var b := Finish(s, r);
    EmptyEnds(b.out);
    HearOne(a, b.out[0]);
  }

  /** What a client puts together from the stream of a response. */
  lemma {:induction false} StreamHeard(model: string, opening: Response, plans: seq<ItemPlan>, closing: Body,
                                       r: Response)
    requires ChatCarries(plans) && IsTerminal(closing)
    ensures var o := Run(Init(model), StreamFrames(opening, plans, closing, r));
            var share := StreamShares(plans);
            if closing.Completed? && FailureOf(r).Some? then o.error == FailureOf(r)
            else o.error.None?
                 && HearAll(NO_CHAT, o.out)
                    == ChatDraft(1, share.content, share.refusal, share.reasoning, share.calls,
                                 Some(FinishOf(r.incomplete, share.calls != [])), Some(UsageOf(r.usage)))
  {
    var f, l := Data(Event(Opening, Some(opening), "")), Data(Event(closing, Some(r), ""));
    var o := StreamOpens(model, opening);
    AllItems(o.state, Greeting(), plans);
    var q, share := Run(o.state, ItemsFrames(plans)), StreamShares(plans);
    RunBetween(Init(model), f, ItemsFrames(plans), l);
    HearAppend(NO_CHAT, o.out, q.out);
    GreetingGains(share);
    StreamCloses(q.state, Gain(Greeting(), share), closing, r);
    HearAppend(NO_CHAT, o.out + q.out, Step(q.state, l).out);
  }

  lemma GreetingGains(share: Share)
    ensures Gain(Greeting(), share) == ChatDraft(1, share.content, share.refusal, share.reasoning, share.calls, None,
             None)
  {
    EmptyEnds(share.content);
    EmptyEnds(share.refusal);
    EmptyEnds(share.reasoning);
    EmptyEnds(share.calls);
  }

  /** The commuting square: content, refusal, tool calls, finish reason and usage of the streamed
      message are those of the whole translation. The streamed reasoning is each item's deltas and
      then its whole text again, so it agrees exactly when no reasoning delta was sent. */
  lemma {:induction false} StreamSquare(model: string, opening: Response, plans: seq<ItemPlan>, closing: Body,
                                        r: Response)
    requires ChatCarries(plans) && IsTerminal(closing) && r.output == ItemsOf(plans)
    requires closing.Incomplete? ==> FailureOf(r).None?
    ensures var o := Run(Init(model), StreamFrames(opening, plans, closing, r));
            var a := HearAll(NO_CHAT, o.out);
            match WholeCompletion(model, r)
            case Err(e) => o.error == Some(e)
            case Ok(m) =>
              && o.error.None? && a.roles == 1
              && a.content == OrEmpty(m.content) && a.refusal == m.refusal && a.calls == m.calls
              && a.finish == Some(m.finish) && a.usage == Some(m.usage)
              && a.reasoning == StreamShares(plans).reasoning
              && (a.reasoning == m.reasoning <==> NoneStreamed(plans))
  {
    StreamHeard(model, opening, plans, closing, r);
    SharesAgree(plans);
  }

  lemma {:induction false} HeaderStays(model: string, opening: Response, plans: seq<ItemPlan>, closing: Body,
                                       r: Response)
    returns (s: State)
    requires ChatCarries(plans) && IsTerminal(closing) && FailureOf(r).None?
    ensures s == Run(Init(model), StreamFrames(opening, plans, closing, r)).state
    ensures s.id == FirstOf3(opening.id, "", "chatcmpl-copilot") && s.model == FirstOf(opening.model, model)
    ensures s.created == NumberValue(opening.createdAt)
  {
    var o := StreamOpens(model, opening);
    AllItems(o.state, Greeting(), plans);
    RunBetween(Init(model), Data(Event(Opening, Some(opening), "")), ItemsFrames(plans),
               Data(Event(closing, Some(r), "")));
    s := Run(Init(model), StreamFrames(opening, plans, closing, r)).state;
  }

  /** Every chunk of the stream bears the header of the opening response, which is the whole
      translation's when the two responses agree on it. */
  lemma {:induction false} StreamHeader(model: string, opening: Response, plans: seq<ItemPlan>, closing: Body,
                                        r: Response)
    requires ChatCarries(plans) && IsTerminal(closing) && FailureOf(r).None?
    requires opening.id == r.id && opening.model == r.model && opening.createdAt == r.createdAt
    ensures var s := Run(Init(model), StreamFrames(opening, plans, closing, r)).state;
            var m := WholeCompletion(model, r).value;
            s.id == m.id && s.model == m.model && s.created == m.created
  {
    var s := HeaderStays(model, opening, plans, closing, r);
    assert Trim("") == "";
    FirstOfTrimmed(r.id, "chatcmpl-copilot", "");
    LiteralTrims();
  }

  lemma LiteralTrims()
    ensures FirstOf("", "chatcmpl-copilot") == Trim("chatcmpl-copilot")
  {
    assert Trim("") == "";
  }
}
