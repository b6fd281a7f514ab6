/** The canonical streams: exactly when do the two ways of the triangle agree, and what do two clients then get? */
module TriangleCanonical {
  import opened Text
  import opened Responses
  import opened Claude
  import opened Chat
  import opened StreamPlan
  import opened Triangle
  import C = ResponsesToClaude
  import D = ResponsesToChat
  import E = ClaudeToChat

  // On every canonical stream the two ways say equally many things, and stay in simulation. So they
  // agree on the stream exactly when they agree on each of its items.

  lemma {:induction false} ConformsAppend(a: seq<Frame>, b: seq<Frame>, tools: set<ItemRef>, done: set<ItemRef>)
    ensures ConformsAll(a + b, tools, done) <==>
                  ConformsAll(a, tools, done) && ConformsAll(b, tools, DoneAfterAll(a, tools, done))
    ensures DoneAfterAll(a + b, tools, done) == DoneAfterAll(b, tools, DoneAfterAll(a, tools, done))
    decreases |a|
  {
    if a == [] {
      EmptyEnds(b);
    } else {
      AppendHead(a, b);
      ConformsAppend(a[1..], b, tools, DoneAfterFrame(a[0], tools, done));
    }
  }

  lemma {:induction false} ConformsOne(f: Frame, tools: set<ItemRef>, done: set<ItemRef>)
    ensures ConformsAll([f], tools, done) <==> ConformsFrame(f, tools, done)
    ensures DoneAfterAll([f], tools, done) == DoneAfterFrame(f, tools, done)
  {
    NothingAfter(f);
  }

  // ---- Two runs abreast ----

  /** Both runs go through, stay in simulation, and say equally many things: the same ones exactly if
      `alike`. */
  ghost predicate Abreast(c: C.State, d: D.State, e: E.State, tools: set<ItemRef>, after: set<ItemRef>,
                          x: C.Outcome, y: D.Outcome, alike: bool) {
    var z := Relay(e, x.out);
    && x.error.None? && y.error.None? && x.state.started
    && Sim(x.state, y.state, z.state, tools, after)
    && |Project(z.out)| == |Project(y.out)|
    && (Project(z.out) == Project(y.out) <==> alike)
  }

  /** Of two pairs of equally long lists, the concatenations agree exactly when both pairs do. */
  lemma EqualPieces<T>(x: seq<T>, xs: seq<T>, y: seq<T>, ys: seq<T>)
    requires |x| == |y| && |xs| == |ys|
    ensures x + xs == y + ys <==> x == y && xs == ys
  {
    if x + xs == y + ys {
      assert x == (x + xs)[..|x|] && y == (y + ys)[..|y|];
      assert xs == (x + xs)[|x|..] && ys == (y + ys)[|y|..];
    }
  }

  lemma {:induction false} AbreastThen(c: C.State, d: D.State, e: E.State, tools: set<ItemRef>, after: set<ItemRef>,
                                       last: set<ItemRef>, x: C.Outcome, y: D.Outcome, p: bool, x2: C.Outcome,
                                       y2: D.Outcome, q: bool)
    requires Abreast(c, d, e, tools, after, x, y, p)
    requires Abreast(x.state, y.state, Relay(e, x.out).state, tools, last, x2, y2, q)
    ensures Abreast(c, d, e, tools, last, C.Then(x, x2), D.Then(y, y2), p && q)
  {
    RelayAppend(e, x.out, x2.out);
    var z := Relay(e, x.out);
    var z2 := Relay(z.state, x2.out);
    ProjectAppend(z.out, z2.out);
    ProjectAppend(y.out, y2.out);
    EqualPieces(Project(z.out), Project(z2.out), Project(y.out), Project(y2.out));
  }

  /** Two runs of frames, one after the other. */
  lemma {:induction false} AbreastTwice(c: C.State, d: D.State, e: E.State, tools: set<ItemRef>, after: set<ItemRef>,
                                        last: set<ItemRef>, a: seq<Frame>, b: seq<Frame>, order: seq<Key>, p: bool,
                                        q: bool)
    requires Abreast(c, d, e, tools, after, C.Run(c, a, order), D.Run(d, a), p)
    requires var x, y := C.Run(c, a, order), D.Run(d, a);
             Abreast(x.state, y.state, Relay(e, x.out).state, tools, last, C.Run(x.state, b, order),
                     D.Run(y.state, b), q)
    ensures Abreast(c, d, e, tools, last, C.Run(c, a + b, order), D.Run(d, a + b), p && q)
  {
    var x, y := C.Run(c, a, order), D.Run(d, a);
    AbreastThen(c, d, e, tools, after, last, x, y, p, C.Run(x.state, b, order), D.Run(y.state, b), q);
    C.RunAppend(c, a, b, order);
    D.RunAppend(d, a, b);
  }

  // ---- The frames of one item ----

  function RefOf(b: Body): Option<ItemRef> {
    match b
    case ItemAdded(ref, _) => Some(ref)
    case PartAdded(ref, _, _) => Some(ref)
    case TextDelta(ref, _, _) => Some(ref)
    case RefusalDelta(ref, _, _) => Some(ref)
    case ReasoningDelta(ref, _) => Some(ref)
    case ArgumentsDelta(ref, _, _, _, _) => Some(ref)
    case PartDone(ref, _) => Some(ref)
    case ItemDone(ref, _) => Some(ref)
    case _ => None
  }

  predicate OfItem(f: Frame, ref: ItemRef) {
    f.Data? && RefOf(f.event.body) == Some(ref)
  }

  /** Frames of an item, with no refusal and no nameless tool among them. */
  ghost predicate Smooth(frames: seq<Frame>, ref: ItemRef, tools: set<ItemRef>, done: set<ItemRef>) {
    ConformsAll(frames, tools, done) && forall f :: f in frames ==> OfItem(f, ref)
  }

  /** An event that neither starts nor ends the message is the switch alone. */
  lemma PlainSteps(c: C.State, d: D.State, b: Body, order: seq<Key>) returns (x: C.Outcome, y: D.Outcome)
    requires c.started && d.started && IsResponseEvent(b) && !IsTerminal(b)
    ensures x == C.Step(c, Plain(b), order) == C.Outcome(C.Content(c, b).state, C.Content(c, b).out, None)
    ensures y == D.Step(d, Plain(b)) == D.Outcome(D.Content(d, b).state, D.Content(d, b).out, None)
  {
    EmptyEnds(C.Content(c, b).out);
    EmptyEnds(D.Content(d, b).out);
    x, y := C.Step(c, Plain(b), order), D.Step(d, Plain(b));
  }

  lemma ItemGoesThrough(c: C.State, f: Frame, ref: ItemRef, order: seq<Key>)
    requires c.started && OfItem(f, ref)
    ensures C.Step(c, f, order).error.None? && C.Step(c, f, order).state.started
  {
  }

  lemma ToolKeys(d: D.State, ref: ItemRef, id: string, name: string) returns (a: D.Emit)
    ensures a == D.Announce(D.Named(d, ref, id, name), ref) && a.state.items.Keys <= d.items.Keys + {ref}
    ensures ref in a.state.items
  {
    a := D.Announce(D.Named(d, ref, id, name), ref);
  }

  lemma ItemKeys(d: D.State, b: Body, ref: ItemRef)
    requires RefOf(b) == Some(ref)
    ensures D.Content(d, b).state.items.Keys <= d.items.Keys + {ref}
  {
    var entry := D.EntryOf(d, ref);
    if b.ArgumentsDelta? {
      var a := ToolKeys(d, ref, FirstOf3(entry.callId, b.callId, b.itemId), FirstOf(entry.name, b.name));
    } else if b.ItemDone? {
      var a := ToolKeys(d, ref, FirstOf(entry.callId, CallIdOf(b.item)), FirstOf(entry.name, b.item.name));
    } else if b.ItemAdded? {
      var a := ToolKeys(d, ref, FirstOf(CallIdOf(b.item), entry.callId), FirstOf(b.item.name, entry.name));
    }
  }

  lemma DirectGoesThrough(d: D.State, f: Frame, ref: ItemRef)
    requires OfItem(f, ref)
    ensures D.Step(d, f).error.None? && D.Step(d, f).state.items.Keys <= d.items.Keys + {ref}
  {
    var a := D.Start(d, f.event);
    ItemKeys(a.state, f.event.body, ref);
  }

  lemma {:induction false} ItemRuns(c: C.State, d: D.State, frames: seq<Frame>, ref: ItemRef, order: seq<Key>)
    requires c.started && forall f :: f in frames ==> OfItem(f, ref)
    ensures C.Run(c, frames, order).error.None? && D.Run(d, frames).error.None?
    ensures C.Run(c, frames, order).state.started
    ensures D.Run(d, frames).state.items.Keys <= d.items.Keys + {ref}
    decreases |frames|
  {
    if frames != [] {
      assert frames[0] in frames;
      ItemGoesThrough(c, frames[0], ref, order);
      DirectGoesThrough(d, frames[0], ref);
      ItemRuns(C.Step(c, frames[0], order).state, D.Step(d, frames[0]).state, frames[1..], ref, order);
    }
  }

  lemma {:induction false} SmoothAbreast(c: C.State, d: D.State, e: E.State, tools: set<ItemRef>, done: set<ItemRef>,
                                         frames: seq<Frame>, ref: ItemRef, order: seq<Key>)
    requires Sim(c, d, e, tools, done) && c.started && Smooth(frames, ref, tools, done)
    ensures Abreast(c, d, e, tools, DoneAfterAll(frames, tools, done), C.Run(c, frames, order), D.Run(d, frames), true)
  {
    RunInStep(c, d, e, tools, done, frames, order);
    ItemRuns(c, d, frames, ref, order);
  }

  lemma {:induction false} ChunksOfItem(fl: Flavor, ref: ItemRef, part: nat, chunks: seq<string>)
    ensures forall f :: f in ChunkFrames(fl, ref, part, chunks) ==> OfItem(f, ref)
  {
    if chunks != [] {
      ChunksOfItem(fl, ref, part, chunks[1..]);
    }
  }

  lemma PartOfItem(ref: ItemRef, j: nat, p: PartPlan)
    ensures forall f :: f in PartFrames(ref, j, p) ==> OfItem(f, ref)
  {
    ChunksOfItem(Prosaic, ref, j, p.chunks);
    ChunksOfItem(Refusing, ref, j, p.chunks);
  }

  lemma {:induction false} PartsOfItem(ref: ItemRef, j: nat, parts: seq<PartPlan>)
    ensures forall f :: f in PartsFrames(ref, j, parts) ==> OfItem(f, ref)
    decreases |parts|
  {
    if parts != [] {
      PartOfItem(ref, j, parts[0]);
      PartsOfItem(ref, j + 1, parts[1..]);
    }
  }

  lemma FramesOfItem(p: ItemPlan)
    ensures forall f :: f in ItemFrames(p) ==> OfItem(f, p.ref)
  {
    PartsOfItem(p.ref, 0, p.parts);
    ChunksOfItem(Reasoned, p.ref, 0, p.chunks);
    ChunksOfItem(Argued(p.callId, p.itemId, p.name), p.ref, 0, p.chunks);
  }

  /** Deltas of an item conform, and end nothing. */
  lemma {:induction false} ChunksConform(fl: Flavor, ref: ItemRef, part: nat, chunks: seq<string>,
                                         tools: set<ItemRef>, done: set<ItemRef>)
    requires !fl.Refusing? && (fl.Reasoned? ==> ref !in tools) && (fl.Argued? ==> ref in tools && ref !in done)
    ensures Smooth(ChunkFrames(fl, ref, part, chunks), ref, tools, done)
    ensures DoneAfterAll(ChunkFrames(fl, ref, part, chunks), tools, done) == done
  {
    ChunksOfItem(fl, ref, part, chunks);
    if chunks != [] {
      ChunksConform(fl, ref, part, chunks[1..], tools, done);
    }
  }

  // ---- Refusals ----

  lemma {:induction false} RefusalHeard(c: C.State, d: D.State, e: E.State, tools: set<ItemRef>, done: set<ItemRef>,
                                        key: Key, text: string)
    returns (x: C.Emit, y: D.Emit, z: E.Emit)
    requires Sim(c, d, e, tools, done) && c.started && key.ContentKey?
    ensures x == C.TextArrives(c, key, text) && y == D.Spoken(d, Refuse(text), text) && z == Relay(e, x.out)
    ensures Sim(x.state, y.state, z.state, tools, done) && |Project(z.out)| == |Project(y.out)|
    ensures Project(z.out) == Project(y.out) <==> text == ""
  {
    NotToolKey(c, d, e, tools, done, key);
    TextMild(c, key, text);
    x := C.TextArrives(c, key, text);
    z := QuietSim(c, d, e, tools, done, x, key);
    y := RefusalTold(d, text);
    if text != "" {
      assert Project(z.out)[0].delta != Project(y.out)[0].delta;
    }
  }

  /** The directly refused text is plain text through Claude: equally many things, alike if empty. */
  lemma RefusalAbreast(c: C.State, d: D.State, e: E.State, tools: set<ItemRef>, done: set<ItemRef>, b: Body, key: Key,
                       text: string, order: seq<Key>)
    requires Sim(c, d, e, tools, done) && c.started && key.ContentKey?
    requires IsResponseEvent(b) && !IsTerminal(b)
    requires C.Content(c, b) == C.TextArrives(c, key, text) && D.Content(d, b) == D.Spoken(d, Refuse(text), text)
    ensures Abreast(c, d, e, tools, done, C.Step(c, Plain(b), order), D.Step(d, Plain(b)), text == "")
  {
    var x, y := PlainSteps(c, d, b, order);
    var x2, y2, z := RefusalHeard(c, d, e, tools, done, key, text);
  }

  lemma {:induction false} RunSingle(c: C.State, d: D.State, f: Frame, order: seq<Key>)
    ensures C.Run(c, [f], order) == C.Step(c, f, order) && D.Run(d, [f]) == D.Step(d, f)
  {
    NothingAfter(f);
    EmptyEnds(C.Step(c, f, order).out);
    EmptyEnds(D.Step(d, f).out);
  }

  lemma {:induction false} RefusingAbreast(c: C.State, d: D.State, e: E.State, tools: set<ItemRef>,
                                           done: set<ItemRef>, ref: ItemRef, part: nat, chunks: seq<string>,
                                           order: seq<Key>)
    requires Sim(c, d, e, tools, done) && c.started
    ensures var frames := ChunkFrames(Refusing, ref, part, chunks);
            Abreast(c, d, e, tools, done, C.Run(c, frames, order), D.Run(d, frames), Concat(chunks) == "")
    decreases |chunks|
  {
    if chunks != [] {
      var f := Plain(RefusalDelta(ref, part, chunks[0]));
      RefusalAbreast(c, d, e, tools, done, f.event.body, ContentKey(ref, part), chunks[0], order);
      RunSingle(c, d, f, order);
      var x, y := C.Run(c, [f], order), D.Run(d, [f]);
      RefusingAbreast(x.state, y.state, Relay(e, x.out).state, tools, done, ref, part, chunks[1..], order);
      AbreastTwice(c, d, e, tools, done, done, [f], ChunkFrames(Refusing, ref, part, chunks[1..]), order,
                   chunks[0] == "", Concat(chunks[1..]) == "");
    }
  }

  /** No refusal text. */
  predicate PartCandid(p: Part) {
    p.kind.RefusalPart? ==> RawPartText(p) == ""
  }

  /** The frames of a part before its last one. */
  function PartBeginning(ref: ItemRef, j: nat, p: PartPlan): seq<Frame> {
    [Plain(PartAdded(ref, j, InitialPart(p)))]
    + (match p.part.kind
       case TextPart => ChunkFrames(Prosaic, ref, j, p.chunks)
       case RefusalPart => ChunkFrames(Refusing, ref, j, p.chunks)
       case OtherPart => [])
  }

  lemma {:induction false} RefusalBegins(c: C.State, d: D.State, e: E.State, tools: set<ItemRef>, done: set<ItemRef>,
                                         ref: ItemRef, j: nat, p: PartPlan, order: seq<Key>)
    requires Sim(c, d, e, tools, done) && c.started && p.part.kind.RefusalPart? && PartFits(p, p.part)
    ensures var frames := PartBeginning(ref, j, p);
            Abreast(c, d, e, tools, done, C.Run(c, frames, order), D.Run(d, frames), PartCandid(p.part))
  {
    var f := Plain(PartAdded(ref, j, InitialPart(p)));
    RefusalAbreast(c, d, e, tools, done, f.event.body, ContentKey(ref, j), p.initial, order);
    RunSingle(c, d, f, order);
    var x, y := C.Run(c, [f], order), D.Run(d, [f]);
    RefusingAbreast(x.state, y.state, Relay(e, x.out).state, tools, done, ref, j, p.chunks, order);
    AbreastTwice(c, d, e, tools, done, done, [f], ChunkFrames(Refusing, ref, j, p.chunks), order,
                 p.initial == "", Concat(p.chunks) == "");
  }

  lemma {:induction false} PartBegins(c: C.State, d: D.State, e: E.State, tools: set<ItemRef>, done: set<ItemRef>,
                                      ref: ItemRef, j: nat, p: PartPlan, order: seq<Key>)
    requires Sim(c, d, e, tools, done) && c.started && PartFits(p, p.part)
    ensures var frames := PartBeginning(ref, j, p);
            Abreast(c, d, e, tools, done, C.Run(c, frames, order), D.Run(d, frames), PartCandid(p.part))
  {
    if p.part.kind.RefusalPart? {
      RefusalBegins(c, d, e, tools, done, ref, j, p, order);
      return;
    }
    var f := Plain(PartAdded(ref, j, InitialPart(p)));
    var more := if p.part.kind.TextPart? then ChunkFrames(Prosaic, ref, j, p.chunks) else [];
    ChunksConform(Prosaic, ref, j, p.chunks, tools, done);
    ConformsOne(f, tools, done);
    ConformsAppend([f], more, tools, done);
    SmoothAbreast(c, d, e, tools, done, [f] + more, ref, order);
  }

  lemma {:induction false} PartEnds(c: C.State, d: D.State, e: E.State, tools: set<ItemRef>, done: set<ItemRef>,
                                    ref: ItemRef, j: nat, order: seq<Key>)
    requires Sim(c, d, e, tools, done) && c.started
    ensures var last := [Plain(PartDone(ref, j))];
            Abreast(c, d, e, tools, done, C.Run(c, last, order), D.Run(d, last), true)
  {
    ConformsOne(Plain(PartDone(ref, j)), tools, done);
    SmoothAbreast(c, d, e, tools, done, [Plain(PartDone(ref, j))], ref, order);
  }

  lemma {:induction false} PartAbreast(c: C.State, d: D.State, e: E.State, tools: set<ItemRef>, done: set<ItemRef>,
                                       ref: ItemRef, j: nat, p: PartPlan, order: seq<Key>)
    requires Sim(c, d, e, tools, done) && c.started && PartFits(p, p.part)
    ensures var frames := PartFrames(ref, j, p);
            Abreast(c, d, e, tools, done, C.Run(c, frames, order), D.Run(d, frames), PartCandid(p.part))
  {
    var begin, last := PartBeginning(ref, j, p), [Plain(PartDone(ref, j))];
    PartBegins(c, d, e, tools, done, ref, j, p, order);
    var x, y := C.Run(c, begin, order), D.Run(d, begin);
    PartEnds(x.state, y.state, Relay(e, x.out).state, tools, done, ref, j, order);
    AbreastTwice(c, d, e, tools, done, done, begin, last, order, PartCandid(p.part), true);
    assert PartFrames(ref, j, p) == begin + last;
  }

  predicate PartsCandid(parts: seq<Part>) {
    forall j :: 0 <= j < |parts| ==> PartCandid(parts[j])
  }

  lemma CandidCons(parts: seq<Part>)
    requires parts != []
    ensures PartsCandid(parts) <==> PartCandid(parts[0]) && PartsCandid(parts[1..])
  {
    if PartsCandid(parts[1..]) {
      assert forall j :: 0 < j < |parts| ==> parts[j] == parts[1..][j - 1];
    }
  }

  lemma {:induction false} PartsAbreast(c: C.State, d: D.State, e: E.State, tools: set<ItemRef>, done: set<ItemRef>,
                                        ref: ItemRef, j: nat, parts: seq<PartPlan>, whole: seq<Part>, order: seq<Key>)
    requires Sim(c, d, e, tools, done) && c.started
    requires |parts| == |whole| && forall i :: 0 <= i < |parts| ==> PartFits(parts[i], whole[i])
    ensures var frames := PartsFrames(ref, j, parts);
            Abreast(c, d, e, tools, done, C.Run(c, frames, order), D.Run(d, frames), PartsCandid(whole))
    decreases |parts|
  {
    if parts != [] {
      PartAbreast(c, d, e, tools, done, ref, j, parts[0], order);
      var first := PartFrames(ref, j, parts[0]);
      var x, y := C.Run(c, first, order), D.Run(d, first);
      PartsAbreast(x.state, y.state, Relay(e, x.out).state, tools, done, ref, j + 1, parts[1..], whole[1..], order);
      AbreastTwice(c, d, e, tools, done, done, first, PartsFrames(ref, j + 1, parts[1..]), order,
                   PartCandid(whole[0]), PartsCandid(whole[1..]));
      CandidCons(whole);
    }
  }

  // ---- Tools ----

  /** A tool announced without a name must not get one, nor its first identifier, from its deltas. */
  predicate ToolCandid(p: ItemPlan) {
    p.announced && Trim(p.item.name) == "" && p.chunks != [] ==>
      Trim(p.name) == "" && (CallIdOf(p.item) != "" || FirstOf(p.callId, p.itemId) == "")
  }

  /** The first event after the announcement of a tool. */
  function SecondBody(p: ItemPlan): Body {
    if p.chunks == [] then ItemDone(p.ref, p.item)
    else ArgumentsDelta(p.ref, p.callId, p.itemId, p.name, p.chunks[0])
  }

  function AfterAnnouncement(p: ItemPlan): seq<Frame> {
    InnerFrames(p) + [Plain(ItemDone(p.ref, p.item))]
  }

  lemma SecondFrame(p: ItemPlan) returns (rest: seq<Frame>)
    requires p.item.kind.ToolItem?
    ensures AfterAnnouncement(p) == [Plain(SecondBody(p))] + rest
  {
    var last := [Plain(ItemDone(p.ref, p.item))];
    if p.chunks == [] {
      rest := [];
      EmptyEnds(last);
      return;
    }
    var more := ChunkFrames(Argued(p.callId, p.itemId, p.name), p.ref, 0, p.chunks[1..]);
    rest := more + last;
    Regroup([Plain(SecondBody(p))], more, last);
  }

  lemma {:induction false} RestConforms(p: ItemPlan, tools: set<ItemRef>, done: set<ItemRef>)
    requires p.item.kind.ToolItem? && p.ref in tools && p.ref !in done
    ensures Smooth(AfterAnnouncement(p), p.ref, tools, done)
    ensures DoneAfterAll(AfterAnnouncement(p), tools, done) == done + {p.ref}
  {
    ChunksConform(Argued(p.callId, p.itemId, p.name), p.ref, 0, p.chunks, tools, done);
    ConformsOne(Plain(ItemDone(p.ref, p.item)), tools, done);
    ConformsAppend(InnerFrames(p), [Plain(ItemDone(p.ref, p.item))], tools, done);
  }

  /** A nameless tool is heard of at once through Claude. The direct way notes it. */
  lemma {:induction false} NamelessAdded(c: C.State, d: D.State, e: E.State, tools: set<ItemRef>, done: set<ItemRef>,
                                         p: ItemPlan, order: seq<Key>)
    returns (x: C.Outcome, y: D.Outcome, now: D.State)
    requires Sim(c, d, e, tools, done) && c.started && p.ref in tools && p.ref !in d.items
    requires p.announced && p.item.kind.ToolItem? && Fits(p) && Trim(p.item.name) == ""
    ensures var f := Plain(ItemAdded(p.ref, p.added)); x == C.Step(c, f, order) && y == D.Step(d, f)
    ensures x.error.None? && y.error.None? && x.state.started && y.out == []
    ensures p.ref in y.state.items && y.state.items[p.ref] == D.Entry(d.nextTool, false, false, CallIdOf(p.item), "")
    ensures now == D.Announce(y.state, p.ref).state && y.state.started
    ensures var z := Relay(e, x.out);
            && Sim(x.state, now, z.state, tools, done)
            && Project(z.out) == [Heard(Call(d.nextTool, CallIdOf(p.item), ""), None)]
  {
    x, y := PlainSteps(c, d, ItemAdded(p.ref, p.added), order);
    var x2, y2 := NewNameless(c, d, e, tools, done, p.ref, p.added);
    now := D.Announce(y.state, p.ref).state;
  }

  /** What the direct way says from an unannounced tool's first event on. */
  lemma {:induction false} RunsLater(d: D.State, p: ItemPlan) returns (y: D.Outcome, w: D.Outcome)
    requires d.started && p.item.kind.ToolItem? && p.ref in d.items && !d.items[p.ref].announced
    ensures y == D.Run(d, AfterAnnouncement(p)) && w == D.Run(D.Announce(d, p.ref).state, AfterAnnouncement(p))
    ensures y.state == w.state && y.error == w.error
    ensures var t := d.items[p.ref];
            var called := CalledBy(t, SecondBody(p));
            Project(y.out) == [Heard(Call(t.toolIndex, called.0, called.1), None)] + Project(w.out)
  {
    var b, now := SecondBody(p), D.Announce(d, p.ref).state;
    var rest := SecondFrame(p);
    var y1, w1 := CalledLater(d, b);
    D.RunCons(d, Plain(b), rest);
    D.RunCons(now, Plain(b), rest);
    EmptyEnds(y1.out);
    EmptyEnds(w1.out);
    var q := D.Run(y1.state, rest);
    ProjectAppend(y1.out, q.out);
    ProjectAppend(w1.out, q.out);
    y, w := D.Run(d, AfterAnnouncement(p)), D.Run(now, AfterAnnouncement(p));
    Regroup(Project(y1.out)[..1], Project(w1.out), Project(q.out));
  }

  lemma CalledAlike(p: ItemPlan, toolIndex: nat)
    requires p.item.kind.ToolItem? && p.announced && Trim(p.item.name) == ""
    ensures CalledBy(D.Entry(toolIndex, false, false, CallIdOf(p.item), ""), SecondBody(p)) == (CallIdOf(p.item), "")
            <==> ToolCandid(p)
  {
    FirstOfTrimmed(p.item.callId, p.item.id, "");
    FirstOfNothing(CallIdOf(p.item));
    FirstOfNothing(p.name);
    FirstOfNothing(p.item.name);
  }

  lemma {:induction false} NamelessAbreast(c: C.State, d: D.State, e: E.State, tools: set<ItemRef>,
                                           done: set<ItemRef>, p: ItemPlan, order: seq<Key>)
    requires Sim(c, d, e, tools, done) && c.started && p.ref in tools && p.ref !in done && p.ref !in d.items
    requires p.announced && p.item.kind.ToolItem? && Fits(p) && Trim(p.item.name) == ""
    ensures Abreast(c, d, e, tools, done + {p.ref}, C.Run(c, ItemFrames(p), order), D.Run(d, ItemFrames(p)),
                    ToolCandid(p))
  {
    var f, rest := Plain(ItemAdded(p.ref, p.added)), AfterAnnouncement(p);
    var x, y, now := NamelessAdded(c, d, e, tools, done, p, order);
    RestConforms(p, tools, done);
    var z := Relay(e, x.out);
    SmoothAbreast(x.state, now, z.state, tools, done, rest, p.ref, order);
    var x2 := C.Run(x.state, rest, order);
    var y2, w := RunsLater(y.state, p);
    CalledAlike(p, d.nextTool);
    NamelessTold(c, d, e, tools, done + {p.ref}, x, y, x2, y2, w, now, p);
    C.RunCons(c, f, rest, order);
    D.RunCons(d, f, rest);
    Regroup([f], InnerFrames(p), [Plain(ItemDone(p.ref, p.item))]);
  }

  /** Both ways make the call and go on alike, so they differ at most in the call. */
  lemma {:induction false} NamelessTold(c: C.State, d: D.State, e: E.State, tools: set<ItemRef>, after: set<ItemRef>,
                                        x: C.Outcome, y: D.Outcome, x2: C.Outcome, y2: D.Outcome, w: D.Outcome,
                                        now: D.State, p: ItemPlan)
    requires Abreast(x.state, now, Relay(e, x.out).state, tools, after, x2, w, true)
    requires y.out == [] && y2.state == w.state && y2.error == w.error
    requires p.item.kind.ToolItem? && p.announced && Trim(p.item.name) == ""
    requires Project(Relay(e, x.out).out) == [Heard(Call(d.nextTool, CallIdOf(p.item), ""), None)]
    requires var called := CalledBy(D.Entry(d.nextTool, false, false, CallIdOf(p.item), ""), SecondBody(p));
             Project(y2.out) == [Heard(Call(d.nextTool, called.0, called.1), None)] + Project(w.out)
    ensures Abreast(c, d, e, tools, after, C.Then(x, x2), D.Then(y, y2), ToolCandid(p))
  {
    CalledAlike(p, d.nextTool);
    RelayAppend(e, x.out, x2.out);
    var z := Relay(e, x.out);
    var z2 := Relay(z.state, x2.out);
    ProjectAppend(z.out, z2.out);
    EmptyEnds(y2.out);
    EqualPieces(Project(z.out), Project(z2.out), Project(y2.out)[..1], Project(w.out));
    assert Project(y2.out) == Project(y2.out)[..1] + Project(w.out);
  }

  function Announcing(p: ItemPlan): seq<Frame> {
    if p.announced then [Plain(ItemAdded(p.ref, p.added))] else []
  }

  lemma {:induction false} ToolAbreast(c: C.State, d: D.State, e: E.State, tools: set<ItemRef>, done: set<ItemRef>,
                                       p: ItemPlan, order: seq<Key>)
    requires Sim(c, d, e, tools, done) && c.started && p.ref in tools && p.ref !in done && p.ref !in d.items
    requires p.item.kind.ToolItem? && Fits(p)
    ensures Abreast(c, d, e, tools, done + {p.ref}, C.Run(c, ItemFrames(p), order), D.Run(d, ItemFrames(p)),
                    ToolCandid(p))
  {
    if p.announced && Trim(p.item.name) == "" {
      NamelessAbreast(c, d, e, tools, done, p, order);
      return;
    }
    RestConforms(p, tools, done);
    ConformsOne(Plain(ItemAdded(p.ref, p.added)), tools, done);
    ConformsAppend(Announcing(p), AfterAnnouncement(p), tools, done);
    Regroup(Announcing(p), InnerFrames(p), [Plain(ItemDone(p.ref, p.item))]);
    FramesOfItem(p);
    SmoothAbreast(c, d, e, tools, done, ItemFrames(p), p.ref, order);
  }

  // ---- Other items ----

  /** No refusal text; and no tool announced without a name that its deltas name or identify. */
  predicate Candid(p: ItemPlan) {
    match p.item.kind
    case MessageItem => PartsCandid(p.item.parts)
    case ToolItem => ToolCandid(p)
    case _ => true
  }

  lemma {:induction false} InnerAbreast(c: C.State, d: D.State, e: E.State, tools: set<ItemRef>, done: set<ItemRef>,
                                        p: ItemPlan, order: seq<Key>)
    requires Sim(c, d, e, tools, done) && c.started && p.ref !in tools && !p.item.kind.ToolItem? && Fits(p)
    ensures Abreast(c, d, e, tools, done, C.Run(c, InnerFrames(p), order), D.Run(d, InnerFrames(p)), Candid(p))
  {
    if p.item.kind.MessageItem? {
      PartsAbreast(c, d, e, tools, done, p.ref, 0, p.parts, p.item.parts, order);
      return;
    }
    ChunksConform(Reasoned, p.ref, 0, p.chunks, tools, done);
    SmoothAbreast(c, d, e, tools, done, InnerFrames(p), p.ref, order);
  }

  lemma {:induction false} AnnouncingAbreast(c: C.State, d: D.State, e: E.State, tools: set<ItemRef>,
                                             done: set<ItemRef>, p: ItemPlan, order: seq<Key>)
    requires Sim(c, d, e, tools, done) && c.started && p.ref !in tools && !p.item.kind.ToolItem? && Fits(p)
    ensures Abreast(c, d, e, tools, done, C.Run(c, Announcing(p), order), D.Run(d, Announcing(p)), true)
  {
    ConformsOne(Plain(ItemAdded(p.ref, p.added)), tools, done);
    SmoothAbreast(c, d, e, tools, done, Announcing(p), p.ref, order);
  }

  lemma {:induction false} QuietBegins(c: C.State, d: D.State, e: E.State, tools: set<ItemRef>, done: set<ItemRef>,
                                       p: ItemPlan, order: seq<Key>)
    requires Sim(c, d, e, tools, done) && c.started && p.ref !in tools && !p.item.kind.ToolItem? && Fits(p)
    ensures var frames := Announcing(p) + InnerFrames(p);
            Abreast(c, d, e, tools, done, C.Run(c, frames, order), D.Run(d, frames), Candid(p))
  {
    AnnouncingAbreast(c, d, e, tools, done, p, order);
    var x, y := C.Run(c, Announcing(p), order), D.Run(d, Announcing(p));
    InnerAbreast(x.state, y.state, Relay(e, x.out).state, tools, done, p, order);
    AbreastTwice(c, d, e, tools, done, done, Announcing(p), InnerFrames(p), order, true, Candid(p));
  }

  lemma {:induction false} QuietAbreast(c: C.State, d: D.State, e: E.State, tools: set<ItemRef>, done: set<ItemRef>,
                                        p: ItemPlan, order: seq<Key>)
    requires Sim(c, d, e, tools, done) && c.started && p.ref !in tools && !p.item.kind.ToolItem? && Fits(p)
    ensures Abreast(c, d, e, tools, done + {p.ref}, C.Run(c, ItemFrames(p), order), D.Run(d, ItemFrames(p)), Candid(p))
  {
    var begin, last := Announcing(p) + InnerFrames(p), [Plain(ItemDone(p.ref, p.item))];
    QuietBegins(c, d, e, tools, done, p, order);
    ConformsOne(last[0], tools, done);
    var x, y := C.Run(c, begin, order), D.Run(d, begin);
    SmoothAbreast(x.state, y.state, Relay(e, x.out).state, tools, done, last, p.ref, order);
    AbreastTwice(c, d, e, tools, done, done + {p.ref}, begin, last, order, Candid(p), true);
  }

  lemma {:induction false} ItemAbreast(c: C.State, d: D.State, e: E.State, tools: set<ItemRef>, done: set<ItemRef>,
                                       p: ItemPlan, order: seq<Key>)
    requires Sim(c, d, e, tools, done) && c.started && Fits(p)
    requires p.ref !in done && p.ref !in d.items && (p.ref in tools <==> p.item.kind.ToolItem?)
    ensures Abreast(c, d, e, tools, done + {p.ref}, C.Run(c, ItemFrames(p), order), D.Run(d, ItemFrames(p)), Candid(p))
  {
    if p.item.kind.ToolItem? {
      ToolAbreast(c, d, e, tools, done, p, order);
      return;
    }
    QuietAbreast(c, d, e, tools, done, p, order);
  }

  // ---- Whole streams ----

  ghost predicate AllCandid(plans: seq<ItemPlan>) {
    forall i :: 0 <= i < |plans| ==> Candid(plans[i])
  }

  lemma AllCandidCons(plans: seq<ItemPlan>)
    requires plans != []
    ensures AllCandid(plans) <==> Candid(plans[0]) && AllCandid(plans[1..])
  {
    if AllCandid(plans[1..]) {
      assert forall i :: 0 < i < |plans| ==> plans[i] == plans[1..][i - 1];
    }
  }

  lemma {:induction false} ItemsAbreast(c: C.State, d: D.State, e: E.State, tools: set<ItemRef>, done: set<ItemRef>,
                                        plans: seq<ItemPlan>, order: seq<Key>)
    returns (after: set<ItemRef>)
    requires Sim(c, d, e, tools, done) && c.started && Carries(plans)
    requires forall i :: 0 <= i < |plans| ==> plans[i].ref !in done && plans[i].ref !in d.items
    requires forall i :: 0 <= i < |plans| ==> (plans[i].ref in tools <==> plans[i].item.kind.ToolItem?)
    ensures Abreast(c, d, e, tools, after, C.Run(c, ItemsFrames(plans), order), D.Run(d, ItemsFrames(plans)),
                    AllCandid(plans))
    decreases |plans|
  {
    if plans == [] {
      return done;
    }
    var p, rest := plans[0], plans[1..];
    ItemAbreast(c, d, e, tools, done, p, order);
    FramesOfItem(p);
    ItemRuns(c, d, ItemFrames(p), p.ref, order);
    var x, y := C.Run(c, ItemFrames(p), order), D.Run(d, ItemFrames(p));
    forall i | 0 <= i < |rest| ensures rest[i].ref !in done + {p.ref} && rest[i].ref !in y.state.items {
      assert rest[i] == plans[i + 1];
    }
    after := ItemsAbreast(x.state, y.state, Relay(e, x.out).state, tools, done + {p.ref}, rest, order);
    AbreastTwice(c, d, e, tools, done + {p.ref}, after, ItemFrames(p), ItemsFrames(rest), order,
                 Candid(p), AllCandid(rest));
    AllCandidCons(plans);
  }

  function ToolRefs(plans: seq<ItemPlan>): set<ItemRef> {
    if plans == [] then {}
    else (if plans[0].item.kind.ToolItem? then {plans[0].ref} else {}) + ToolRefs(plans[1..])
  }

  lemma {:induction false} ToolRefsAre(plans: seq<ItemPlan>, ref: ItemRef)
    ensures ref in ToolRefs(plans) <==>
                  exists i :: 0 <= i < |plans| && plans[i].ref == ref && plans[i].item.kind.ToolItem?
  {
    if plans != [] {
      ToolRefsAre(plans[1..], ref);
      if ref in ToolRefs(plans[1..]) {
        var i :| 0 <= i < |plans| - 1 && plans[1..][i].ref == ref && plans[1..][i].item.kind.ToolItem?;
        assert plans[i + 1].ref == ref;
      }
      if i :| 0 < i < |plans| && plans[i].ref == ref && plans[i].item.kind.ToolItem? {
        assert plans[1..][i - 1].ref == ref;
      }
    }
  }


  /** The end of the message, or its failure, is told alike. */
  lemma {:induction false} EndAlike(c: C.State, d: D.State, e: E.State, tools: set<ItemRef>, done: set<ItemRef>,
                                    event: Event, order: seq<Key>)
    returns (x: C.Outcome, y: D.Outcome)
    requires Sim(c, d, e, tools, done) && IsTerminal(event.body)
    ensures x == C.Run(c, [Data(event)], order) && y == D.Run(d, [Data(event)])
    ensures x.error == y.error && Project(Relay(e, x.out).out) == Project(y.out)
  {
    RunSingle(c, d, Data(event), order);
    x, y := DeliverInStep(c, d, e, tools, done, event, order);
  }

  lemma InitialSim(model: string, model2: string, tools: set<ItemRef>)
    ensures Sim(C.Init(model), D.Init(model), E.Init(model2), tools, {})
  {
  }

  lemma {:induction false} Begins(model: string, model2: string, opening: Response, tools: set<ItemRef>,
                                  order: seq<Key>)
    ensures var f := Data(Event(Opening, Some(opening), ""));
            Abreast(C.Init(model), D.Init(model), E.Init(model2), tools, {}, C.Run(C.Init(model), [f], order),
                    D.Run(D.Init(model), [f]), true)
  {
    var event := Event(Opening, Some(opening), "");
    InitialSim(model, model2, tools);
    RunSingle(C.Init(model), D.Init(model), Data(event), order);
    var x, y := DeliverInStep(C.Init(model), D.Init(model), E.Init(model2), tools, {}, event, order);
    assert x.state.started;
  }

  lemma {:induction false} BeginsEmpty(model: string, opening: Response)
    ensures D.Run(D.Init(model), [Data(Event(Opening, Some(opening), ""))]).state.items == map[]
  {
    D.RunOne(D.Init(model), Data(Event(Opening, Some(opening), "")));
  }

  /** Both ways say the same role, text, refusal, calls and finish reason, in the same order. */
  predicate SaidAlike(model: string, model2: string, frames: seq<Frame>, order: seq<Key>) {
    Project(E.Run(E.Init(model2), E.Arrivals(C.Run(C.Init(model), frames, order).out)).out)
    == Project(D.Run(D.Init(model), frames).out)
  }

  lemma {:induction false} StreamAbreast(model: string, model2: string, opening: Response, plans: seq<ItemPlan>,
                                         order: seq<Key>)
    returns (tools: set<ItemRef>, after: set<ItemRef>)
    requires Carries(plans)
    ensures var frames := [Data(Event(Opening, Some(opening), ""))] + ItemsFrames(plans);
            Abreast(C.Init(model), D.Init(model), E.Init(model2), tools, after, C.Run(C.Init(model), frames, order),
                    D.Run(D.Init(model), frames), AllCandid(plans))
  {
    tools := ToolRefs(plans);
    forall i | 0 <= i < |plans| ensures plans[i].ref in tools <==> plans[i].item.kind.ToolItem? {
      ToolRefsAre(plans, plans[i].ref);
    }
    var f := [Data(Event(Opening, Some(opening), ""))];
    Begins(model, model2, opening, tools, order);
    BeginsEmpty(model, opening);
    var x, y := C.Run(C.Init(model), f, order), D.Run(D.Init(model), f);
    after := ItemsAbreast(x.state, y.state, Relay(E.Init(model2), x.out).state, tools, {}, plans, order);
    AbreastTwice(C.Init(model), D.Init(model), E.Init(model2), tools, {}, after, f, ItemsFrames(plans), order,
                 true, AllCandid(plans));
  }

  /** For every response, and every way of cutting its text and arguments into deltas: both ways fail
      together, say equally many things, and say the same exactly when there is no refusal text and no
      tool announced without a name gets a name or its first identifier from its deltas. */
  lemma {:induction false} CanonicalTriangle(model: string, model2: string, opening: Response, plans: seq<ItemPlan>,
                                             closing: Body, final: Response, order: seq<Key>)
    requires Carries(plans) && IsTerminal(closing)
    ensures var frames := StreamFrames(opening, plans, closing, final);
            var toClaude := C.Run(C.Init(model), frames, order);
            var direct := D.Run(D.Init(model), frames);
            var onward := E.Run(E.Init(model2), E.Arrivals(toClaude.out));
            && toClaude.error == direct.error && onward.error.None?
            && |Project(onward.out)| == |Project(direct.out)|
            && (SaidAlike(model, model2, frames, order) <==> AllCandid(plans))
  {
    var frames := [Data(Event(Opening, Some(opening), ""))] + ItemsFrames(plans);
    var event := Event(closing, Some(final), "");
    var tools, after := StreamAbreast(model, model2, opening, plans, order);
    var x, y := C.Run(C.Init(model), frames, order), D.Run(D.Init(model), frames);
    var z := Relay(E.Init(model2), x.out);
    var x2, y2 := EndAlike(x.state, y.state, z.state, tools, after, event, order);
    C.RunAppend(C.Init(model), frames, [Data(event)], order);
    D.RunAppend(D.Init(model), frames, [Data(event)]);
    RelayAppend(E.Init(model2), x.out, x2.out);
    var z2 := Relay(z.state, x2.out);
    ProjectAppend(z.out, z2.out);
    ProjectAppend(y.out, y2.out);
    EqualPieces(Project(z.out), Project(z2.out), Project(y.out), Project(y2.out));
    RunCalm(C.Init(model), frames + [Data(event)], order);
    RelayIsRun(E.Init(model2), C.Then(x, x2).out);
  }

  /** Then two clients put the same message together. */
  lemma {:induction false} CanonicalAssembles(model: string, model2: string, opening: Response, plans: seq<ItemPlan>,
                                              closing: Body, final: Response, order: seq<Key>)
    requires Carries(plans) && IsTerminal(closing) && AllCandid(plans)
    ensures var frames := StreamFrames(opening, plans, closing, final);
            var direct := D.Run(D.Init(model), frames);
            var onward := E.Run(E.Init(model2), E.Arrivals(C.Run(C.Init(model), frames, order).out));
            Alike(HearAll(NO_CHAT, onward.out), HearAll(NO_CHAT, direct.out))
  {
    CanonicalTriangle(model, model2, opening, plans, closing, final, order);
    AlikeMessages(model, model2, StreamFrames(opening, plans, closing, final), order);
  }

  // ---- Two streams with a nameless tool ----

  const NAMELESS := Item(ToolItem, "c", "", "", "x", "", "", [], [], [])

  /** Its arguments come with the done event. */
  const NAMELESS_DONE := ItemPlan(ByIndex(0), true, NAMELESS, NAMELESS, [], [], "", "", "")

  /** Its arguments come with a delta that names it. */
  const NAMED_LATE := NAMELESS_DONE.(chunks := ["x"], name := "f")

  lemma NamelessFits()
    ensures Carries([NAMELESS_DONE]) && AllCandid([NAMELESS_DONE])
    ensures Carries([NAMED_LATE]) && !AllCandid([NAMED_LATE])
  {
    assert Trim("") == "";
    TrimShape("f");
    NothingAfter("x");
    assert Concat(["x"]) == "x" == RawArguments(NAMELESS);
    assert Fits(NAMED_LATE);
    assert !Candid([NAMED_LATE][0]);
  }

  /** The first is told alike by both ways, the second is not. */
  lemma NamedLateDiffers(model: string, model2: string, opening: Response, closing: Body, final: Response,
                         order: seq<Key>)
    requires IsTerminal(closing)
    ensures SaidAlike(model, model2, StreamFrames(opening, [NAMELESS_DONE], closing, final), order)
    ensures !SaidAlike(model, model2, StreamFrames(opening, [NAMED_LATE], closing, final), order)
  {
    NamelessFits();
    CanonicalTriangle(model, model2, opening, [NAMELESS_DONE], closing, final, order);
    CanonicalTriangle(model, model2, opening, [NAMED_LATE], closing, final, order);
  }
}
