/** Streaming a response to Claude and reassembling it on the client's side, against translating it whole. */
module ClaudeStreamSquare {
  import opened Text
  import opened Responses
  import opened Claude
  import opened ClaudeMessage
  import opened ResponsesToClaude
  import opened StreamPlan

  function ChunkKey(fl: Flavor, ref: ItemRef, part: nat): Key {
    if fl.Prosaic? || fl.Refusing? then ContentKey(ref, part) else ItemKey(ref)
  }

  function ChunkDelta(fl: Flavor, c: string): BlockDelta {
    match fl
    case Reasoned => ThinkingChunk(c)
    case Argued(_, _, _) => InputChunk(c)
    case _ => TextChunk(c)
  }

  // ---- One delta, and a run of deltas, on an open block ----

  predicate OpenAt(s: State, key: Key, i: nat) {
    s.started && !s.stopped && key in s.blocks && s.blocks[key].open && s.blocks[key].index == i
  }

  /** The same block, with at most its text and names changed. */
  predicate SameBlock(s: State, t: State, key: Key)
    requires key in s.blocks
  {
    && Touches(s, t, key) && key in t.blocks && t.nextBlock == s.nextBlock
    && t.blocks[key].kind == s.blocks[key].kind && t.blocks[key].encrypted == s.blocks[key].encrypted
  }

  /** A block was added to, by some text or by none. */
  predicate Added(s: State, o: Outcome, key: Key, i: nat, some: bool)
    requires key in s.blocks
  {
    && o.error.None? && OpenAt(o.state, key, i) && SameBlock(s, o.state, key)
    && o.state.blocks[key].sawDelta == (s.blocks[key].sawDelta || some)
  }

  /** An event that neither starts nor ends the message is the switch alone. */
  lemma PlainStep(s: State, b: Body, order: seq<Key>)
    requires s.started && IsResponseEvent(b) && !IsTerminal(b)
    ensures Step(s, Plain(b), order) == Outcome(Content(s, b).state, Content(s, b).out, None)
  {
    EmptyEnds(Content(s, b).out);
  }

  lemma DeltaAdded(s: State, key: Key, delta: BlockDelta, i: nat)
    requires OpenAt(s, key, i)
    ensures var e := Delta(s, key, delta);
            && Added(s, Outcome(e.state, e.out, None), key, i, DeltaText(delta) != "")
            && e.out == if DeltaText(delta) == "" then [] else [BlockChunk(i, delta)]
  {
  }

  /** A delta for an open block is added to it, after at most renaming it. */
  lemma ChunkContent(s: State, fl: Flavor, ref: ItemRef, part: nat, c: string, i: nat)
    returns (t: State)
    requires OpenAt(s, ChunkKey(fl, ref, part), i)
    ensures var key := ChunkKey(fl, ref, part);
            && OpenAt(t, key, i) && SameBlock(s, t, key) && t.blocks[key].sawDelta == s.blocks[key].sawDelta
            && Content(s, ChunkBody(fl, ref, part, c)) == Delta(t, key, ChunkDelta(fl, c))
  {
    var key := ChunkKey(fl, ref, part);
    t := if fl.Argued? then Update(s, key, NameTool(s.blocks[key], fl.callId, fl.itemId, fl.name)) else s;
    EmptyEnds(Delta(t, key, ChunkDelta(fl, c)).out);
  }

  lemma OneChunk(s: State, fl: Flavor, ref: ItemRef, part: nat, c: string, i: nat, order: seq<Key>)
    requires OpenAt(s, ChunkKey(fl, ref, part), i)
    ensures var o := Step(s, Plain(ChunkBody(fl, ref, part, c)), order);
            && Added(s, o, ChunkKey(fl, ref, part), i, c != "")
            && o.out == if c == "" then [] else [BlockChunk(i, ChunkDelta(fl, c))]
  {
    var t := ChunkContent(s, fl, ref, part, c, i);
    DeltaAdded(t, ChunkKey(fl, ref, part), ChunkDelta(fl, c), i);
    PlainStep(s, ChunkBody(fl, ref, part, c), order);
  }

  lemma AddedTwice(s: State, o: Outcome, q: Outcome, key: Key, i: nat, x: bool, y: bool)
    requires OpenAt(s, key, i) && Added(s, o, key, i, x) && Added(o.state, q, key, i, y)
    ensures Added(s, q, key, i, x || y)
  {
  }

  lemma {:induction false} ChunksAdded(s: State, fl: Flavor, ref: ItemRef, part: nat, chunks: seq<string>, i: nat,
                                       order: seq<Key>)
    requires OpenAt(s, ChunkKey(fl, ref, part), i)
    ensures Added(s, Run(s, ChunkFrames(fl, ref, part, chunks), order), ChunkKey(fl, ref, part), i,
             Concat(chunks) != "")
    decreases |chunks|
  {
    if chunks != [] {
      var key, f := ChunkKey(fl, ref, part), Plain(ChunkBody(fl, ref, part, chunks[0]));
      OneChunk(s, fl, ref, part, chunks[0], i, order);
      var first := Step(s, f, order);
      ChunksAdded(first.state, fl, ref, part, chunks[1..], i, order);
      var rest := Run(first.state, ChunkFrames(fl, ref, part, chunks[1..]), order);
      AddedTwice(s, first, rest, key, i, chunks[0] != "", Concat(chunks[1..]) != "");
      RunCons(s, f, ChunkFrames(fl, ref, part, chunks[1..]), order);
    }
  }

  lemma ExtendTwice(d: Draft, fl: Flavor, c: string, rest: string)
    ensures Extend(Extend(d, ChunkDelta(fl, c)), ChunkDelta(fl, rest)) == Extend(d, ChunkDelta(fl, c + rest))
    ensures Extend(d, ChunkDelta(fl, "")) == d
  {
    Regroup(d.text, c, rest);
    Regroup(d.thinking, c, rest);
    Regroup(d.partial, c, rest);
    EmptyEnds(d.text);
    EmptyEnds(d.thinking);
    EmptyEnds(d.partial);
  }

  function Grow(a: Assembly, i: nat, delta: BlockDelta): Assembly
    requires i < |a.drafts|
  {
    a.(drafts := a.drafts[i := Extend(a.drafts[i], delta)])
  }

  lemma {:induction false} OneAssembled(a: Assembly, i: nat, fl: Flavor, c: string)
    requires i < |a.drafts|
    ensures Assemble(a, if c == "" then [] else [BlockChunk(i, ChunkDelta(fl, c))]) == Grow(a, i, ChunkDelta(fl, c))
  {
    ExtendTwice(a.drafts[i], fl, "", "");
    assert a.drafts[i := a.drafts[i]] == a.drafts;
    NothingAfter(BlockChunk(i, ChunkDelta(fl, c)));
  }

  lemma {:induction false} ChunksAssembled(s: State, fl: Flavor, ref: ItemRef, part: nat, chunks: seq<string>, i: nat,
                                           order: seq<Key>, a: Assembly)
    requires OpenAt(s, ChunkKey(fl, ref, part), i) && i < |a.drafts|
    ensures Assemble(a, Run(s, ChunkFrames(fl, ref, part, chunks), order).out)
            == Grow(a, i, ChunkDelta(fl, Concat(chunks)))
    decreases |chunks|
  {
    if chunks == [] {
      OneAssembled(a, i, fl, "");
    } else {
      var c, f := chunks[0], Plain(ChunkBody(fl, ref, part, chunks[0]));
      OneChunk(s, fl, ref, part, c, i, order);
      OneAssembled(a, i, fl, c);
      var first := Step(s, f, order);
      var b := Grow(a, i, ChunkDelta(fl, c));
      ChunksAssembled(first.state, fl, ref, part, chunks[1..], i, order, b);
      RunCons(s, f, ChunkFrames(fl, ref, part, chunks[1..]), order);
      AssembleAppend(a, first.out, Run(first.state, ChunkFrames(fl, ref, part, chunks[1..]), order).out);
      ExtendTwice(a.drafts[i], fl, c, Concat(chunks[1..]));
    }
  }

  // ---- One block: opened by one event, filled by deltas, closed by another ----

  predicate AllClosed(s: State) {
    forall k :: k in s.blocks ==> !s.blocks[k].open
  }

  /** Between items: nothing is open and the client has seen every block. */
  predicate Ready(s: State, a: Assembly) {
    s.started && !s.stopped && AllClosed(s) && |a.drafts| == s.nextBlock
  }

  /** From a ready state, the block of `key` was opened with the next index and holds `d`. */
  predicate Opened(s: State, a: Assembly, o: Outcome, key: Key, kind: BlockKind, d: Draft, some: bool) {
    && o.error.None? && OpenAt(o.state, key, s.nextBlock) && Touches(s, o.state, key)
    && o.state.nextBlock == s.nextBlock + 1
    && o.state.blocks[key].kind == kind && o.state.blocks[key].sawDelta == some
    && Assemble(a, o.out) == a.(drafts := a.drafts + [d])
  }

  lemma OpensFresh(s: State, a: Assembly, key: Key, kind: BlockKind, b: Block, content: ContentBlock)
    requires Ready(s, a) && key !in s.blocks
    requires b.index == s.nextBlock && !b.open && b.kind == kind && !b.sawDelta
    ensures var e := Open(Update(Ensure(s, key, kind), key, b), key, content);
            && Opened(s, a, Outcome(e.state, e.out, None), key, kind, NewDraft(content), false)
            && e.state.blocks[key].encrypted == b.encrypted
  {
    NothingAfter(BlockStart(s.nextBlock, content));
  }

  lemma {:induction false} FilledBy(s: State, a: Assembly, o: Outcome, key: Key, kind: BlockKind, d: Draft,
                                    some: bool, fl: Flavor, ref: ItemRef, part: nat, chunks: seq<string>,
                                    order: seq<Key>)
    requires Ready(s, a) && Opened(s, a, o, key, kind, d, some) && key == ChunkKey(fl, ref, part)
    ensures var rest := Run(o.state, ChunkFrames(fl, ref, part, chunks), order);
            && Opened(s, a, Outcome(rest.state, o.out + rest.out, rest.error), key, kind,
                      Extend(d, ChunkDelta(fl, Concat(chunks))), some || Concat(chunks) != "")
            && rest.state.blocks[key].encrypted == o.state.blocks[key].encrypted
  {
    var n := s.nextBlock;
    var b := Assemble(a, o.out);
    var rest := Run(o.state, ChunkFrames(fl, ref, part, chunks), order);
    ChunksAdded(o.state, fl, ref, part, chunks, n, order);
    ChunksAssembled(o.state, fl, ref, part, chunks, n, order, b);
    AssembleAppend(a, o.out, rest.out);
    assert b.drafts[n := Extend(d, ChunkDelta(fl, Concat(chunks)))]
           == a.drafts + [Extend(d, ChunkDelta(fl, Concat(chunks)))];
  }

  /** From a ready state to a ready state, with these drafts more. */
  ghost predicate Grew(s: State, a: Assembly, o: Outcome, drafts: seq<Draft>) {
    && o.error.None? && SameMessage(s, o.state)
    && Assemble(a, o.out) == a.(drafts := a.drafts + drafts)
    && Ready(o.state, Assemble(a, o.out))
    && (HasToolUse(o.state) <==> HasToolUse(s) || exists d :: d in drafts && d.block.ToolUseBlock?)
  }

  /** As `Grew`, and the new blocks all belong to `ref`. */
  ghost predicate Gained(s: State, a: Assembly, o: Outcome, ref: ItemRef, drafts: seq<Draft>) {
    && Grew(s, a, o, drafts)
    && (forall k :: k in s.blocks ==> k in o.state.blocks)
    && (forall k :: k in o.state.blocks && k !in s.blocks ==> k.ref == ref)
  }

  lemma ClosesOpened(s: State, a: Assembly, o: Outcome, key: Key, kind: BlockKind, d: Draft, some: bool)
    requires Ready(s, a) && Opened(s, a, o, key, kind, d, some) && key !in s.blocks
    requires kind == ToolUse <==> d.block.ToolUseBlock?
    ensures var c := Close(o.state, key);
            Gained(s, a, Outcome(c.state, o.out + c.out, None), key.ref, [d])
  {
    var c := Close(o.state, key);
    AssembleAppend(a, o.out, c.out);
    assert c.out[1..] == [];
    assert Assemble(Assemble(a, o.out), c.out) == Assemble(a, o.out);
    ToolUseAfter(s, c.state, key);
    assert d in [d];
  }

  lemma ToolUseAfter(s: State, t: State, key: Key)
    requires key !in s.blocks && key in t.blocks && Touches(s, t, key)
    ensures HasToolUse(t) <==> HasToolUse(s) || t.blocks[key].kind == ToolUse
  {
    if HasToolUse(s) {
      var k :| k in s.blocks && s.blocks[k].kind == ToolUse;
      assert t.blocks[k].kind == ToolUse;
    }
  }

  lemma {:induction false} GrewTwice(s: State, a: Assembly, o: Outcome, q: Outcome, x: seq<Draft>, y: seq<Draft>)
    requires Grew(s, a, o, x) && Grew(o.state, Assemble(a, o.out), q, y)
    ensures Grew(s, a, Outcome(q.state, o.out + q.out, None), x + y)
  {
    AssembleAppend(a, o.out, q.out);
    Regroup(a.drafts, x, y);
    forall d ensures d in x + y <==> d in x || d in y {}
  }

  lemma NothingGained(s: State, a: Assembly, ref: ItemRef)
    requires Ready(s, a)
    ensures Gained(s, a, Outcome(s, [], None), ref, [])
  {
    EmptyEnds(a.drafts);
  }

  // ---- Message items ----

  function PartDrafts(p: PartPlan): seq<Draft> {
    if p.part.kind.OtherPart? then [] else [NewDraft(TextBlock("")).(text := RawPartText(p.part))]
  }

  function PartsDrafts(parts: seq<PartPlan>): seq<Draft> {
    if parts == [] then [] else PartDrafts(parts[0]) + PartsDrafts(parts[1..])
  }

  /** Content part j of `ref` is the only block that may be new. */
  ghost predicate OnlyPart(s: State, t: State, ref: ItemRef, j: nat) {
    forall k :: k in t.blocks && k !in s.blocks ==> k == ContentKey(ref, j)
  }

  lemma DeltaAfterOpen(s: State, a: Assembly, o: Outcome, key: Key, kind: BlockKind, d: Draft, some: bool,
                       delta: BlockDelta)
    requires Ready(s, a) && Opened(s, a, o, key, kind, d, some)
    requires DeltaText(delta) == "" ==> Extend(d, delta) == d
    ensures var e := Delta(o.state, key, delta);
            && Opened(s, a, Outcome(e.state, o.out + e.out, None), key, kind, Extend(d, delta), some
                || DeltaText(delta) != "")
            && e.state.blocks[key].encrypted == o.state.blocks[key].encrypted
  {
    var e, n, b := Delta(o.state, key, delta), s.nextBlock, Assemble(a, o.out);
    AssembleAppend(a, o.out, e.out);
    assert e.out != [] ==> e.out == [BlockChunk(n, delta)] && e.out[1..] == [];
    assert b.drafts[n := Extend(d, delta)] == a.drafts + [Extend(d, delta)];
    assert b.drafts == a.drafts + [d];
  }

  lemma TextPartOpens(s: State, a: Assembly, ref: ItemRef, j: nat, p: PartPlan, order: seq<Key>) returns (o: Outcome)
    requires Ready(s, a) && ContentKey(ref, j) !in s.blocks && !p.part.kind.OtherPart?
    ensures o == Step(s, Plain(PartAdded(ref, j, InitialPart(p))), order)
    ensures Opened(s, a, o, ContentKey(ref, j), Prose, Extend(NewDraft(TextBlock("")), TextChunk(p.initial)),
             p.initial != "")
  {
    var key := ContentKey(ref, j);
    var t := Ensure(s, key, Prose);
    OpensFresh(s, a, key, Prose, t.blocks[key], TextBlock(""));
    assert t.blocks[key := t.blocks[key]] == t.blocks;
    var e := Open(t, key, TextBlock(""));
    ExtendTwice(NewDraft(TextBlock("")), Prosaic, "", "");
    DeltaAfterOpen(s, a, Outcome(e.state, e.out, None), key, Prose, NewDraft(TextBlock("")), false,
        TextChunk(p.initial));
    PlainStep(s, PartAdded(ref, j, InitialPart(p)), order);
    o := Step(s, Plain(PartAdded(ref, j, InitialPart(p))), order);
  }

  lemma {:induction false} IgnoredPart(s: State, a: Assembly, ref: ItemRef, j: nat, p: PartPlan, order: seq<Key>)
    requires Ready(s, a) && p.part.kind.OtherPart?
    requires ContentKey(ref, j) !in s.blocks
    ensures Run(s, PartFrames(ref, j, p), order) == Outcome(s, [], None)
  {
    var f, l := Plain(PartAdded(ref, j, InitialPart(p))), Plain(PartDone(ref, j));
    PlainStep(s, f.event.body, order);
    PlainStep(s, l.event.body, order);
    RunCons(s, f, [l], order);
    RunOne(s, l, order);
    assert PartFrames(ref, j, p) == [f] + [l];
  }

  lemma {:induction false} FilledPart(s: State, a: Assembly, ref: ItemRef, j: nat, p: PartPlan, fl: Flavor,
                                      order: seq<Key>)
    returns (q: Outcome, some: bool)
    requires Ready(s, a) && ContentKey(ref, j) !in s.blocks && !p.part.kind.OtherPart?
    requires fl == if p.part.kind.TextPart? then Prosaic else Refusing
    ensures q == Run(s, [Plain(PartAdded(ref, j, InitialPart(p)))] + ChunkFrames(fl, ref, j, p.chunks), order)
    ensures Opened(s, a, q, ContentKey(ref, j), Prose,
             NewDraft(TextBlock("")).(text := p.initial + Concat(p.chunks)), some)
  {
    var f, chunks := Plain(PartAdded(ref, j, InitialPart(p))), ChunkFrames(fl, ref, j, p.chunks);
    var o := TextPartOpens(s, a, ref, j, p, order);
    var d := Extend(NewDraft(TextBlock("")), TextChunk(p.initial));
    FilledBy(s, a, o, ContentKey(ref, j), Prose, d, p.initial != "", fl, ref, j, p.chunks, order);
    RunCons(s, f, chunks, order);
    EmptyEnds(p.initial);
    q := Run(s, [f] + chunks, order);
    some := p.initial != "" || Concat(p.chunks) != "";
  }

  lemma {:induction false} PartCloses(s: State, a: Assembly, q: Outcome, ref: ItemRef, j: nat, d: Draft, some: bool,
                                      order: seq<Key>)
    returns (l: Outcome)
    requires Ready(s, a) && ContentKey(ref, j) !in s.blocks && Opened(s, a, q, ContentKey(ref, j), Prose, d, some)
    requires !d.block.ToolUseBlock?
    ensures l == Run(q.state, [Plain(PartDone(ref, j))], order) && l.error.None?
    ensures Gained(s, a, Outcome(l.state, q.out + l.out, None), ref, [d]) && OnlyPart(s, l.state, ref, j)
  {
    ClosesOpened(s, a, q, ContentKey(ref, j), Prose, d, some);
    RunOne(q.state, Plain(PartDone(ref, j)), order);
    PlainStep(q.state, PartDone(ref, j), order);
    l := Run(q.state, [Plain(PartDone(ref, j))], order);
  }

  lemma {:induction false} OnePart(s: State, a: Assembly, ref: ItemRef, j: nat, p: PartPlan, order: seq<Key>)
    requires Ready(s, a) && ContentKey(ref, j) !in s.blocks && PartFits(p, p.part)
    ensures var o := Run(s, PartFrames(ref, j, p), order);
            Gained(s, a, o, ref, PartDrafts(p)) && OnlyPart(s, o.state, ref, j)
  {
    if p.part.kind.OtherPart? {
      NothingGained(s, a, ref);
      IgnoredPart(s, a, ref, j, p, order);
    } else {
      var fl := if p.part.kind.TextPart? then Prosaic else Refusing;
      var frames := [Plain(PartAdded(ref, j, InitialPart(p)))] + ChunkFrames(fl, ref, j, p.chunks);
      var q, some := FilledPart(s, a, ref, j, p, fl, order);
      var l := PartCloses(s, a, q, ref, j, NewDraft(TextBlock("")).(text := RawPartText(p.part)), some, order);
      RunAppend(s, frames, [Plain(PartDone(ref, j))], order);
      assert PartFrames(ref, j, p) == frames + [Plain(PartDone(ref, j))];
    }
  }

  lemma {:induction false} RunOne(s: State, f: Frame, order: seq<Key>)
    ensures Run(s, [f], order) == Step(s, f, order)
  {
    NothingAfter(f);
    EmptyEnds(Step(s, f, order).out);
  }

  lemma {:induction false} AllParts(s: State, a: Assembly, ref: ItemRef, j: nat, parts: seq<PartPlan>, order: seq<Key>)
    requires Ready(s, a) && forall i :: i >= j ==> ContentKey(ref, i) !in s.blocks
    requires forall i :: 0 <= i < |parts| ==> PartFits(parts[i], parts[i].part)
    ensures Gained(s, a, Run(s, PartsFrames(ref, j, parts), order), ref, PartsDrafts(parts))
    ensures ItemKey(ref) !in s.blocks ==> ItemKey(ref) !in Run(s, PartsFrames(ref, j, parts), order).state.blocks
    decreases |parts|
  {
    if parts == [] {
      NothingGained(s, a, ref);
    } else {
      OnePart(s, a, ref, j, parts[0], order);
      var o := Run(s, PartFrames(ref, j, parts[0]), order);
      AllParts(o.state, Assemble(a, o.out), ref, j + 1, parts[1..], order);
      RunAppend(s, PartFrames(ref, j, parts[0]), PartsFrames(ref, j + 1, parts[1..]), order);
      GrewTwice(s, a, o, Run(o.state, PartsFrames(ref, j + 1, parts[1..]), order),
                PartDrafts(parts[0]), PartsDrafts(parts[1..]));
    }
  }

  // ---- Reasoning items ----

  function StreamedReasoning(p: ItemPlan): string {
    if Concat(p.chunks) != "" then Concat(p.chunks) else ReasoningText(p.item)
  }

  /** The done item's signature, or the announced one if it has none. */
  function LastSignature(p: ItemPlan): string {
    if Trim(p.item.encrypted) != "" then Trim(p.item.encrypted) else Trim(Announcement(p).encrypted)
  }

  function ReasoningDraft(p: ItemPlan): Draft {
    NewDraft(ThinkingContent(Trim(Announcement(p).encrypted))).(
      thinking := StreamedReasoning(p), signature := if Redacted(p.item) then "" else LastSignature(p))
  }

  lemma ReasoningOpens(s: State, a: Assembly, p: ItemPlan, order: seq<Key>) returns (o: Outcome)
    requires Ready(s, a) && ItemKey(p.ref) !in s.blocks && p.added.kind.ReasoningItem?
    ensures o == Step(s, Plain(ItemAdded(p.ref, p.added)), order)
    ensures Opened(s, a, o, ItemKey(p.ref), Thinking, NewDraft(ThinkingContent(Trim(p.added.encrypted))), false)
    ensures o.state.blocks[ItemKey(p.ref)].encrypted == Trim(p.added.encrypted)
  {
    var key := ItemKey(p.ref);
    var b := Ensure(s, key, Thinking).blocks[key].(encrypted := Trim(p.added.encrypted));
    OpensFresh(s, a, key, Thinking, b, ThinkingContent(b.encrypted));
    PlainStep(s, ItemAdded(p.ref, p.added), order);
    o := Step(s, Plain(ItemAdded(p.ref, p.added)), order);
  }

  /** What `output_item.done` adds to an open thinking block: the text if none was streamed, ... */
  function Spoken(d: Draft, some: bool, p: ItemPlan): Draft {
    if some then d else Extend(d, ThinkingChunk(ReasoningText(p.item)))
  }

  /** ... and the signature, unless the block is redacted. */
  function Sealed(d: Draft, p: ItemPlan): Draft {
    if Redacted(p.item) then d else Extend(d, SignatureChunk(LastSignature(p)))
  }

  lemma Speaks(s: State, a: Assembly, o: Outcome, d: Draft, some: bool, p: ItemPlan)
    returns (q: Outcome, more: bool)
    requires Ready(s, a) && Opened(s, a, o, ItemKey(p.ref), Thinking, d, some)
    ensures var x := if some then Emit(o.state, []) else Delta(o.state, ItemKey(p.ref),
             ThinkingChunk(ReasoningText(p.item)));
            q == Outcome(x.state, o.out + x.out, None)
    ensures Opened(s, a, q, ItemKey(p.ref), Thinking, Spoken(d, some, p), more)
    ensures q.state.blocks[ItemKey(p.ref)].encrypted == o.state.blocks[ItemKey(p.ref)].encrypted
  {
    if some {
      EmptyEnds(o.out);
      q, more := o, some;
    } else {
      ExtendTwice(d, Reasoned, "", "");
      DeltaAfterOpen(s, a, o, ItemKey(p.ref), Thinking, d, some, ThinkingChunk(ReasoningText(p.item)));
      var x := Delta(o.state, ItemKey(p.ref), ThinkingChunk(ReasoningText(p.item)));
      q, more := Outcome(x.state, o.out + x.out, None), some || ReasoningText(p.item) != "";
    }
  }

  lemma Seals(s: State, a: Assembly, o: Outcome, d: Draft, some: bool, p: ItemPlan)
    returns (q: Outcome, more: bool)
    requires Ready(s, a) && Opened(s, a, o, ItemKey(p.ref), Thinking, d, some) && d.signature == ""
    requires Fits(p) && p.item.kind.ReasoningItem?
    ensures var key, encrypted := ItemKey(p.ref), LastSignature(p);
            var t := Update(o.state, key, o.state.blocks[key].(encrypted := encrypted));
            var y := if HasPrefix(encrypted, REDACTED_PREFIX) then Emit(t, [])
                     else Delta(t, key, SignatureChunk(encrypted));
            q == Outcome(y.state, o.out + y.out, None)
    ensures Opened(s, a, q, ItemKey(p.ref), Thinking, Sealed(d, p), more)
  {
    var key, encrypted := ItemKey(p.ref), LastSignature(p);
    var t := Outcome(Update(o.state, key, o.state.blocks[key].(encrypted := encrypted)), o.out, None);
    assert Opened(s, a, t, key, Thinking, d, some);
    FinalSignature(p);
    if HasPrefix(encrypted, REDACTED_PREFIX) {
      EmptyEnds(o.out);
      q, more := t, some;
    } else {
      DeltaAfterOpen(s, a, t, key, Thinking, d, some, SignatureChunk(encrypted));
      var y := Delta(t.state, key, SignatureChunk(encrypted));
      q, more := Outcome(y.state, o.out + y.out, None), some || encrypted != "";
    }
  }

  lemma FinalSignature(p: ItemPlan)
    requires Fits(p) && p.item.kind.ReasoningItem?
    ensures FirstOf(p.item.encrypted, Trim(Announcement(p).encrypted)) == LastSignature(p)
    ensures HasPrefix(LastSignature(p), REDACTED_PREFIX) <==> Redacted(p.item)
  {
    TrimShape(Announcement(p).encrypted);
    NoPrefix(Trim(p.item.encrypted));
  }

  lemma ReasoningCompletes(s: State, a: Assembly, o: Outcome, d: Draft, some: bool, p: ItemPlan)
    returns (q: Outcome, more: bool)
    requires Ready(s, a) && Opened(s, a, o, ItemKey(p.ref), Thinking, d, some)
    requires p.announced && Fits(p) && p.item.kind.ReasoningItem?
    requires o.state.blocks[ItemKey(p.ref)].encrypted == Trim(p.added.encrypted) && d.signature == ""
    ensures q == Outcome(CompleteThinking(o.state, ItemKey(p.ref), p.item).state,
                         o.out + CompleteThinking(o.state, ItemKey(p.ref), p.item).out, None)
    ensures Opened(s, a, q, ItemKey(p.ref), Thinking, Sealed(Spoken(d, some, p), p), more)
  {
    FinalSignature(p);
    var x, m := Speaks(s, a, o, d, some, p);
    q, more := Seals(s, a, x, Spoken(d, some, p), m, p);
    Regroup(o.out, x.out[|o.out|..], q.out[|x.out|..]);
  }

  lemma DoneStep(s: State, ref: ItemRef, item: Item, order: seq<Key>)
    requires s.started && ItemKey(ref) in s.blocks
    ensures var b := CompleteBlock(s, ItemKey(ref), item);
            var c := Close(b.state, ItemKey(ref));
            Step(s, Plain(ItemDone(ref, item)), order) == Outcome(c.state, b.out + c.out, None)
  {
    PlainStep(s, ItemDone(ref, item), order);
    var b := CompleteBlock(s, ItemKey(ref), item);
    assert [] + (b.out + Close(b.state, ItemKey(ref)).out) == b.out + Close(b.state, ItemKey(ref)).out;
  }

  /** The announcement, the deltas and the done event of an item, in one run. */
  lemma {:induction false} RunItem(s: State, p: ItemPlan, order: seq<Key>, o: Outcome, q: Outcome)
    requires p.announced && o == Step(s, Plain(ItemAdded(p.ref, p.added)), order) && o.error.None?
    requires q == Run(o.state, InnerFrames(p), order) && q.error.None?
    ensures var l := Step(q.state, Plain(ItemDone(p.ref, p.item)), order);
            Run(s, ItemFrames(p), order) == Outcome(l.state, o.out + q.out + l.out, l.error)
  {
    var f, l := Plain(ItemAdded(p.ref, p.added)), Plain(ItemDone(p.ref, p.item));
    RunCons(s, f, InnerFrames(p), order);
    RunAppend(s, [f] + InnerFrames(p), [l], order);
    RunOne(q.state, l, order);
  }

  /** Once the done item has completed the block, closing it ends the item. */
  lemma {:induction false} ItemCloses(s: State, a: Assembly, p: ItemPlan, order: seq<Key>, o: Outcome, q: Outcome,
                                      x: Outcome, kind: BlockKind, d: Draft, more: bool)
    requires Ready(s, a) && ItemKey(p.ref) !in s.blocks
    requires p.announced && o == Step(s, Plain(ItemAdded(p.ref, p.added)), order) && o.error.None?
    requires q == Run(o.state, InnerFrames(p), order) && q.error.None?
    requires q.state.started && ItemKey(p.ref) in q.state.blocks
    requires x.state == CompleteBlock(q.state, ItemKey(p.ref), p.item).state
    requires x.out == o.out + q.out + CompleteBlock(q.state, ItemKey(p.ref), p.item).out
    requires Opened(s, a, x, ItemKey(p.ref), kind, d, more)
    requires kind == ToolUse <==> d.block.ToolUseBlock?
    ensures Gained(s, a, Run(s, ItemFrames(p), order), p.ref, [d])
  {
    var key := ItemKey(p.ref);
    ClosesOpened(s, a, x, key, kind, d, more);
    DoneStep(q.state, p.ref, p.item, order);
    RunItem(s, p, order, o, q);
    Regroup(o.out + q.out, CompleteBlock(q.state, key, p.item).out, Close(x.state, key).out);
  }

  lemma {:induction false} ReasoningFilled(s: State, a: Assembly, p: ItemPlan, order: seq<Key>)
    returns (o: Outcome, q: Outcome)
    requires Ready(s, a) && ItemKey(p.ref) !in s.blocks && p.added.kind.ReasoningItem? && p.item.kind.ReasoningItem?
    ensures o == Step(s, Plain(ItemAdded(p.ref, p.added)), order) && o.error.None?
    ensures q == Run(o.state, InnerFrames(p), order) && q.error.None?
    ensures Opened(s, a, Outcome(q.state, o.out + q.out, None), ItemKey(p.ref), Thinking,
                   Extend(NewDraft(ThinkingContent(Trim(p.added.encrypted))), ChunkDelta(Reasoned, Concat(p.chunks))),
                   Concat(p.chunks) != "")
    ensures q.state.blocks[ItemKey(p.ref)].encrypted == Trim(p.added.encrypted)
  {
    var d := NewDraft(ThinkingContent(Trim(p.added.encrypted)));
    o := ReasoningOpens(s, a, p, order);
    FilledBy(s, a, o, ItemKey(p.ref), Thinking, d, false, Reasoned, p.ref, 0, p.chunks, order);
    q := Run(o.state, InnerFrames(p), order);
  }

  lemma {:induction false} WholeReasoning(s: State, a: Assembly, p: ItemPlan, order: seq<Key>)
    requires Ready(s, a) && ItemKey(p.ref) !in s.blocks && p.announced && Fits(p) && p.item.kind.ReasoningItem?
    ensures Gained(s, a, Run(s, ItemFrames(p), order), p.ref, [ReasoningDraft(p)])
  {
    var d := Extend(NewDraft(ThinkingContent(Trim(p.added.encrypted))), ChunkDelta(Reasoned, Concat(p.chunks)));
    var some := Concat(p.chunks) != "";
    var o, q := ReasoningFilled(s, a, p, order);
    var done, more := ReasoningCompletes(s, a, Outcome(q.state, o.out + q.out, None), d, some, p);
    DraftsAgree(p);
    ItemCloses(s, a, p, order, o, q, done, Thinking, ReasoningDraft(p), more);
  }

  lemma {:induction false} DraftsAgree(p: ItemPlan)
    requires p.announced
    ensures var d := NewDraft(ThinkingContent(Trim(p.added.encrypted)));
            Sealed(Spoken(Extend(d, ChunkDelta(Reasoned, Concat(p.chunks))), Concat(p.chunks) != "", p), p)
            == ReasoningDraft(p)
  {
    EmptyEnds(Concat(p.chunks));
    assert Concat(p.chunks) == "" ==> "" + Concat(p.chunks) + ReasoningText(p.item) == ReasoningText(p.item);
  }

  // ---- Tool items ----

  function ToolDraft(p: ItemPlan): Draft {
    NewDraft(ToolUseBlock(CallIdOf(Announcement(p)), "", Trim(Announcement(p).name))).(
      partial := if Concat(p.chunks) != "" then Concat(p.chunks) else RawArguments(p.item))
  }

  lemma ToolOpens(s: State, a: Assembly, p: ItemPlan, order: seq<Key>) returns (o: Outcome)
    requires Ready(s, a) && ItemKey(p.ref) !in s.blocks && p.added.kind.ToolItem?
    ensures o == Step(s, Plain(ItemAdded(p.ref, p.added)), order)
    ensures Opened(s, a, o, ItemKey(p.ref), ToolUse,
                   NewDraft(ToolUseBlock(CallIdOf(p.added), "", Trim(p.added.name))), false)
  {
    var key := ItemKey(p.ref);
    var b := Ensure(s, key, ToolUse).blocks[key].(functionId := CallIdOf(p.added), functionName := Trim(p.added.name));
    OpensFresh(s, a, key, ToolUse, b, ToolUseBlock(b.functionId, "", b.functionName));
    PlainStep(s, ItemAdded(p.ref, p.added), order);
    o := Step(s, Plain(ItemAdded(p.ref, p.added)), order);
  }

  /** What `output_item.done` adds to an open tool block: the arguments, if none were streamed. */
  function Supplied(d: Draft, some: bool, p: ItemPlan): Draft {
    if some then d else Extend(d, InputChunk(RawArguments(p.item)))
  }

  lemma ToolCompletes(s: State, a: Assembly, o: Outcome, d: Draft, some: bool, p: ItemPlan)
    returns (q: Outcome, more: bool)
    requires Ready(s, a) && Opened(s, a, o, ItemKey(p.ref), ToolUse, d, some)
    ensures var x := CompleteBlock(o.state, ItemKey(p.ref), p.item);
            q == Outcome(x.state, o.out + x.out, None)
    ensures Opened(s, a, q, ItemKey(p.ref), ToolUse, Supplied(d, some, p), more)
  {
    if some {
      EmptyEnds(o.out);
      q, more := o, some;
    } else {
      ExtendTwice(d, Argued("", "", ""), "", "");
      DeltaAfterOpen(s, a, o, ItemKey(p.ref), ToolUse, d, some, InputChunk(RawArguments(p.item)));
      var x := Delta(o.state, ItemKey(p.ref), InputChunk(RawArguments(p.item)));
      q, more := Outcome(x.state, o.out + x.out, None), RawArguments(p.item) != "";
    }
  }

  lemma {:induction false} ToolFilled(s: State, a: Assembly, p: ItemPlan, order: seq<Key>)
    returns (o: Outcome, q: Outcome)
    requires Ready(s, a) && ItemKey(p.ref) !in s.blocks && p.added.kind.ToolItem? && p.item.kind.ToolItem?
    ensures o == Step(s, Plain(ItemAdded(p.ref, p.added)), order) && o.error.None?
    ensures q == Run(o.state, InnerFrames(p), order) && q.error.None?
    ensures Opened(s, a, Outcome(q.state, o.out + q.out, None), ItemKey(p.ref), ToolUse,
                   Extend(NewDraft(ToolUseBlock(CallIdOf(p.added), "", Trim(p.added.name))),
                          ChunkDelta(Argued(p.callId, p.itemId, p.name), Concat(p.chunks))),
                   Concat(p.chunks) != "")
  {
    var fl := Argued(p.callId, p.itemId, p.name);
    var d := NewDraft(ToolUseBlock(CallIdOf(p.added), "", Trim(p.added.name)));
    o := ToolOpens(s, a, p, order);
    FilledBy(s, a, o, ItemKey(p.ref), ToolUse, d, false, fl, p.ref, 0, p.chunks, order);
    q := Run(o.state, InnerFrames(p), order);
  }

  lemma {:induction false} WholeTool(s: State, a: Assembly, p: ItemPlan, order: seq<Key>)
    requires Ready(s, a) && ItemKey(p.ref) !in s.blocks && p.announced && Fits(p) && p.item.kind.ToolItem?
    ensures Gained(s, a, Run(s, ItemFrames(p), order), p.ref, [ToolDraft(p)])
  {
    var fl := Argued(p.callId, p.itemId, p.name);
    var d := Extend(NewDraft(ToolUseBlock(CallIdOf(p.added), "", Trim(p.added.name))),
                    ChunkDelta(fl, Concat(p.chunks)));
    var some := Concat(p.chunks) != "";
    var o, q := ToolFilled(s, a, p, order);
    var done, more := ToolCompletes(s, a, Outcome(q.state, o.out + q.out, None), d, some, p);
    ToolDraftsAgree(p, fl);
    ItemCloses(s, a, p, order, o, q, done, ToolUse, ToolDraft(p), more);
  }

  lemma {:induction false} ToolDraftsAgree(p: ItemPlan, fl: Flavor)
    requires p.announced && fl.Argued?
    ensures var d := NewDraft(ToolUseBlock(CallIdOf(p.added), "", Trim(p.added.name)));
            Supplied(Extend(d, ChunkDelta(fl, Concat(p.chunks))), Concat(p.chunks) != "", p) == ToolDraft(p)
  {
    EmptyEnds(Concat(p.chunks));
    assert Concat(p.chunks) == "" ==> "" + Concat(p.chunks) + RawArguments(p.item) == RawArguments(p.item);
  }

  // ---- Any item ----

  function ItemDrafts(p: ItemPlan): seq<Draft> {
    match p.item.kind
    case MessageItem => PartsDrafts(p.parts)
    case ReasoningItem => [ReasoningDraft(p)]
    case ToolItem => [ToolDraft(p)]
    case OtherItem => []
  }

  ghost predicate Untouched(s: State, ref: ItemRef) {
    forall k :: k in s.blocks ==> k.ref != ref
  }

  lemma QuietAdded(s: State, p: ItemPlan, order: seq<Key>)
    requires s.started && p.announced && Fits(p) && (p.item.kind.MessageItem? || p.item.kind.OtherItem?)
    ensures Step(s, Plain(ItemAdded(p.ref, p.added)), order) == Outcome(s, [], None)
  {
    PlainStep(s, ItemAdded(p.ref, p.added), order);
  }

  lemma QuietDone(s: State, p: ItemPlan, order: seq<Key>)
    requires s.started && ItemKey(p.ref) !in s.blocks && (p.item.kind.MessageItem? || p.item.kind.OtherItem?)
    ensures Step(s, Plain(ItemDone(p.ref, p.item)), order) == Outcome(s, [], None)
  {
    PlainStep(s, ItemDone(p.ref, p.item), order);
  }

  /** The events that announce and end such an item do nothing. */
  lemma {:induction false} QuietEdges(s: State, p: ItemPlan, order: seq<Key>, q: Outcome)
    requires s.started && p.announced && Fits(p) && (p.item.kind.MessageItem? || p.item.kind.OtherItem?)
    requires q == Run(s, InnerFrames(p), order) && q.error.None? && q.state.started && ItemKey(p.ref) !in q.state.blocks
    ensures Run(s, ItemFrames(p), order) == q
  {
    QuietAdded(s, p, order);
    QuietDone(q.state, p, order);
    RunItem(s, p, order, Outcome(s, [], None), q);
    EmptyEnds(q.out);
  }

  lemma {:induction false} WholeMessageItem(s: State, a: Assembly, p: ItemPlan, order: seq<Key>)
    requires Ready(s, a) && Untouched(s, p.ref) && p.announced && Fits(p) && p.item.kind.MessageItem?
    ensures Gained(s, a, Run(s, ItemFrames(p), order), p.ref, ItemDrafts(p))
  {
    assert forall j :: 0 <= j < |p.parts| ==> PartFits(p.parts[j], p.item.parts[j]);
    AllParts(s, a, p.ref, 0, p.parts, order);
    QuietEdges(s, p, order, Run(s, InnerFrames(p), order));
  }

  lemma {:induction false} WholeQuiet(s: State, a: Assembly, p: ItemPlan, order: seq<Key>)
    requires Ready(s, a) && Untouched(s, p.ref) && p.announced && Fits(p) && p.item.kind.OtherItem?
    ensures Gained(s, a, Run(s, ItemFrames(p), order), p.ref, ItemDrafts(p))
  {
    NothingGained(s, a, p.ref);
    QuietEdges(s, p, order, Outcome(s, [], None));
  }

  lemma {:induction false} AnnouncedItem(s: State, a: Assembly, p: ItemPlan, order: seq<Key>)
    requires Ready(s, a) && Untouched(s, p.ref) && p.announced && Fits(p)
    ensures Gained(s, a, Run(s, ItemFrames(p), order), p.ref, ItemDrafts(p))
  {
    match p.item.kind
    case ReasoningItem => WholeReasoning(s, a, p, order);
    case ToolItem => WholeTool(s, a, p, order);
    case MessageItem => WholeMessageItem(s, a, p, order);
    case OtherItem => WholeQuiet(s, a, p, order);
  }

  // ---- Items nobody announced ----

  /** If a frame does what `a` and it would do together, `a` may come before it. */
  lemma {:induction false} RunAhead(s: State, a: Frame, f: Frame, rest: seq<Frame>, order: seq<Key>)
    requires Step(s, a, order).error.None? && Step(s, f, order).error.None?
    requires Step(s, f, order) == Then(Step(s, a, order), Step(Step(s, a, order).state, f, order))
    ensures Run(s, [a] + ([f] + rest), order) == Run(s, [f] + rest, order)
  {
    RunCons(s, a, [f] + rest, order);
    RunCons(Step(s, a, order).state, f, rest, order);
    RunCons(s, f, rest, order);
    var o, q := Step(s, a, order), Step(Step(s, a, order).state, f, order);
    Regroup(o.out, q.out, Run(q.state, rest, order).out);
  }

  /** The block an announcement would open is the one the item is opened with. */
  lemma OpenedLate(s: State, p: ItemPlan) returns (e: Emit)
    requires !p.announced && p.chunks == [] && ItemKey(p.ref) !in s.blocks
    requires p.item.kind.ReasoningItem? || p.item.kind.ToolItem?
    ensures e == AddItem(s, p.ref, Announcement(p)) && e == OpenLate(s, ItemKey(p.ref), p.item)
    ensures ItemKey(p.ref) in e.state.blocks
  {
    var key := ItemKey(p.ref);
    assert Trim("") == "";
    e := OpenLate(s, key, p.item);
    var t := Ensure(s, key, Thinking);
    assert t.blocks[key := t.blocks[key]] == t.blocks;
  }

  lemma DoneAhead(s: State, p: ItemPlan) returns (e: Emit, c: Emit)
    requires !p.announced && p.chunks == [] && ItemKey(p.ref) !in s.blocks
    requires p.item.kind.ReasoningItem? || p.item.kind.ToolItem?
    ensures e == AddItem(s, p.ref, Announcement(p)) && c == Content(e.state, ItemDone(p.ref, p.item))
    ensures Content(s, ItemDone(p.ref, p.item)) == Emit(c.state, e.out + c.out)
  {
    e := OpenedLate(s, p);
    c := CompleteItem(e.state, p.ref, p.item);
    var b := CompleteBlock(e.state, ItemKey(p.ref), p.item);
    EmptyEnds(b.out + Close(b.state, ItemKey(p.ref)).out);
  }

  lemma ThinkingAhead(s: State, p: ItemPlan, text: string) returns (e: Emit, c: Emit)
    requires !p.announced && p.item.kind.ReasoningItem? && ItemKey(p.ref) !in s.blocks
    ensures e == AddItem(s, p.ref, Announcement(p)) && c == Content(e.state, ReasoningDelta(p.ref, text))
    ensures Content(s, ReasoningDelta(p.ref, text)) == Emit(c.state, e.out + c.out)
  {
    var key := ItemKey(p.ref);
    assert Trim("") == "";
    var t := Ensure(s, key, Thinking);
    assert t.blocks[key := t.blocks[key]] == t.blocks;
    e := OpenThinking(t, key);
    c := ReasoningArrives(e.state, key, text);
    EmptyEnds(c.out);
  }

  lemma ArgumentsAhead(s: State, p: ItemPlan, text: string) returns (e: Emit, c: Emit)
    requires !p.announced && p.item.kind.ToolItem? && p.chunks != [] && ItemKey(p.ref) !in s.blocks
    ensures e == AddItem(s, p.ref, Announcement(p))
    ensures c == Content(e.state, ArgumentsDelta(p.ref, p.callId, p.itemId, p.name, text))
    ensures Content(s, ArgumentsDelta(p.ref, p.callId, p.itemId, p.name, text)) == Emit(c.state, e.out + c.out)
  {
    var key := ItemKey(p.ref);
    var t := Ensure(s, key, ToolUse);
    e := OpenTool(Update(t, key, NameTool(t.blocks[key], p.callId, p.itemId, p.name)), key);
    assert NameTool(e.state.blocks[key], p.callId, p.itemId, p.name) == e.state.blocks[key];
    assert e.state.blocks[key := e.state.blocks[key]] == e.state.blocks;
    c := ArgumentsArrive(e.state, key, p.callId, p.itemId, p.name, text);
    EmptyEnds(c.out);
  }

  /** The first event of an item that has a block but no announcement. */
  function FirstBody(p: ItemPlan): Body {
    if p.chunks == [] then ItemDone(p.ref, p.item)
    else if p.item.kind.ReasoningItem? then ReasoningDelta(p.ref, p.chunks[0])
    else ArgumentsDelta(p.ref, p.callId, p.itemId, p.name, p.chunks[0])
  }

  lemma FirstAhead(s: State, p: ItemPlan) returns (e: Emit, c: Emit)
    requires !p.announced && ItemKey(p.ref) !in s.blocks && (p.item.kind.ReasoningItem? || p.item.kind.ToolItem?)
    ensures e == AddItem(s, p.ref, Announcement(p)) && c == Content(e.state, FirstBody(p))
    ensures Content(s, FirstBody(p)) == Emit(c.state, e.out + c.out)
  {
    if p.chunks == [] {
      e, c := DoneAhead(s, p);
      return;
    }
    if p.item.kind.ReasoningItem? {
      e, c := ThinkingAhead(s, p, p.chunks[0]);
      return;
    }
    e, c := ArgumentsAhead(s, p, p.chunks[0]);
  }

  lemma FirstFrame(p: ItemPlan) returns (rest: seq<Frame>)
    requires p.item.kind.ReasoningItem? || p.item.kind.ToolItem?
    ensures InnerFrames(p) + [Plain(ItemDone(p.ref, p.item))] == [Plain(FirstBody(p))] + rest
  {
    var last := [Plain(ItemDone(p.ref, p.item))];
    if p.chunks == [] {
      rest := [];
      EmptyEnds(last);
      return;
    }
    var fl := if p.item.kind.ReasoningItem? then Reasoned else Argued(p.callId, p.itemId, p.name);
    rest := ChunkFrames(fl, p.ref, 0, p.chunks[1..]) + last;
    Regroup([Plain(FirstBody(p))], ChunkFrames(fl, p.ref, 0, p.chunks[1..]), last);
  }

  /** An item nobody announced runs as if it had been announced with what is first known of it. */
  lemma {:induction false} RunsAsAnnounced(s: State, p: ItemPlan, order: seq<Key>)
    requires s.started && !p.announced && ItemKey(p.ref) !in s.blocks
    ensures Run(s, ItemFrames(p), order) == Run(s, ItemFrames(AsAnnounced(p)), order)
  {
    var a, last := Plain(ItemAdded(p.ref, Announcement(p))), [Plain(ItemDone(p.ref, p.item))];
    PlainStep(s, a.event.body, order);
    EmptyEnds(InnerFrames(p));
    Regroup([a], InnerFrames(p), last);
    assert InnerFrames(AsAnnounced(p)) == InnerFrames(p);
    if p.item.kind.ReasoningItem? || p.item.kind.ToolItem? {
      var rest := FirstFrame(p);
      var e, c := FirstAhead(s, p);
      PlainStep(s, FirstBody(p), order);
      PlainStep(e.state, FirstBody(p), order);
      RunAhead(s, a, Plain(FirstBody(p)), rest, order);
    } else {
      RunCons(s, a, InnerFrames(p) + last, order);
      EmptyEnds(Run(s, InnerFrames(p) + last, order).out);
    }
  }

  lemma {:induction false} OneItem(s: State, a: Assembly, p: ItemPlan, order: seq<Key>)
    requires Ready(s, a) && Untouched(s, p.ref) && Fits(p)
    ensures Gained(s, a, Run(s, ItemFrames(p), order), p.ref, ItemDrafts(p))
  {
    if p.announced {
      AnnouncedItem(s, a, p, order);
    } else {
      RunsAsAnnounced(s, p, order);
      AnnouncedItem(s, a, AsAnnounced(p), order);
    }
  }

  // ---- All items ----

  function AllDrafts(plans: seq<ItemPlan>): seq<Draft> {
    if plans == [] then [] else ItemDrafts(plans[0]) + AllDrafts(plans[1..])
  }

  lemma {:induction false} AllItems(s: State, a: Assembly, plans: seq<ItemPlan>, order: seq<Key>)
    requires Ready(s, a) && Carries(plans)
    requires forall i :: 0 <= i < |plans| ==> Untouched(s, plans[i].ref)
    ensures Grew(s, a, Run(s, ItemsFrames(plans), order), AllDrafts(plans))
    decreases |plans|
  {
    if plans == [] {
      NothingGained(s, a, ByIndex(0));
    } else {
      var p, rest := plans[0], plans[1..];
      OneItem(s, a, p, order);
      var o := Run(s, ItemFrames(p), order);
      forall i | 0 <= i < |rest| ensures Untouched(o.state, rest[i].ref) {
        assert rest[i] == plans[i + 1];
      }
      AllItems(o.state, Assemble(a, o.out), rest, order);
      RunAppend(s, ItemFrames(p), ItemsFrames(rest), order);
      GrewTwice(s, a, o, Run(o.state, ItemsFrames(rest), order), ItemDrafts(p), AllDrafts(rest));
    }
  }

  lemma {:induction false} PartsHoldNoTool(parts: seq<PartPlan>)
    ensures forall d :: d in PartsDrafts(parts) ==> !d.block.ToolUseBlock?
  {
    if parts != [] {
      PartsHoldNoTool(parts[1..]);
    }
  }

  lemma {:induction false} ToolDrafts(plans: seq<ItemPlan>)
    ensures (exists d :: d in AllDrafts(plans) && d.block.ToolUseBlock?) <==> AnyTool(ItemsOf(plans))
  {
    if plans != [] {
      var p, rest := plans[0], plans[1..];
      ToolDrafts(rest);
      PartsHoldNoTool(p.parts);
      var items := ItemsOf(plans);
      assert items[0] == p.item && items[1..] == ItemsOf(rest);
      if AnyTool(ItemsOf(rest)) {
        var i :| 0 <= i < |ItemsOf(rest)| && ItemsOf(rest)[i].kind == ToolItem;
        assert items[i + 1].kind == ToolItem;
      }
      if p.item.kind.ToolItem? {
        assert ToolDraft(p) in AllDrafts(plans);
      }
      if AnyTool(items) && !p.item.kind.ToolItem? {
        var i :| 0 <= i < |items| && items[i].kind == ToolItem;
        assert ItemsOf(rest)[i - 1].kind == ToolItem;
      }
    }
  }

  // ---- What the drafts settle to, against the whole translation ----

  /** Streamed and whole reasoning text agree exactly when none was streamed, or when what was streamed
      is the text that counts and is trimmed already. */
  lemma {:induction false} ReasoningAgrees(p: ItemPlan)
    requires Fits(p) && p.item.kind.ReasoningItem?
    ensures StreamedReasoning(p) == ReasoningText(p.item) <==>
                  (Concat(p.chunks) != "" ==> Concat(p.chunks) == RawReasoning(p.item) && AllTidy(ChosenParts(p.item)))
    ensures StreamedReasoning(p) == "" ==> ReasoningText(p.item) == ""
  {
    JoinLengths(ChosenParts(p.item));
    assert ReasoningText(p.item) == JoinReasoning(ChosenParts(p.item));
    assert Concat(p.chunks) != "" ==> |Concat(p.chunks)| >= |RawReasoning(p.item)|;
  }

  /** A plain reasoning item settles to the whole translation's block exactly when it is tidy. */
  lemma {:induction false} PlainSettles(p: ItemPlan)
    requires Fits(p) && p.item.kind.ReasoningItem? && !Redacted(p.item)
    ensures Settle(ReasoningDraft(p)) == WholeItem(p.item) <==> Tidy(p)
    ensures |Settle(ReasoningDraft(p))| >= |WholeItem(p.item)|
    ensures RedactedCount(Settle(ReasoningDraft(p))) == 0 == RedactedCount(WholeItem(p.item))
  {
    ReasoningAgrees(p);
    var d := PlainDraft(p);
    EmptyEnds(d.thinking);
  }

  lemma PlainDraft(p: ItemPlan) returns (d: Draft)
    requires Fits(p) && p.item.kind.ReasoningItem? && !Redacted(p.item)
    ensures d == ReasoningDraft(p)
    ensures d == NewDraft(ThinkingBlock("")).(thinking := StreamedReasoning(p), signature := LastSignature(p))
  {
    NoPrefix(Trim(Announcement(p).encrypted));
    d := ReasoningDraft(p);
  }

  lemma NoPrefix(s: string)
    ensures s == "" ==> !HasPrefix(s, REDACTED_PREFIX)
  {
  }

  /** Redacted data reaches the client exactly when it came with the announcement. */
  lemma {:induction false} RedactedSurvives(p: ItemPlan)
    requires Fits(p) && p.item.kind.ReasoningItem? && Redacted(p.item)
    ensures Settle(ReasoningDraft(p)) == WholeItem(p.item) <==> Redacted(Announcement(p))
    ensures RedactedCount(Settle(ReasoningDraft(p))) == if Redacted(Announcement(p)) then 1 else 0
    ensures RedactedCount(WholeItem(p.item)) == 1
  {
    NoPrefix(Trim(Announcement(p).encrypted));
  }

  lemma {:induction false} ReasoningSettles(p: ItemPlan)
    requires Fits(p) && p.item.kind.ReasoningItem?
    ensures SettleAll([ReasoningDraft(p)]) == WholeItem(p.item) <==> Tidy(p)
    ensures Kept(p) ==> |SettleAll([ReasoningDraft(p)])| >= |WholeItem(p.item)|
    ensures RedactedCount(SettleAll([ReasoningDraft(p)])) <= RedactedCount(WholeItem(p.item))
    ensures RedactedCount(SettleAll([ReasoningDraft(p)])) == RedactedCount(WholeItem(p.item)) <==> Kept(p)
  {
    NothingAfter(ReasoningDraft(p));
    EmptyEnds(Settle(ReasoningDraft(p)));
    if Redacted(p.item) {
      RedactedSurvives(p);
    } else {
      PlainSettles(p);
    }
  }

  function RedactedCount(blocks: seq<FinalBlock>): nat {
    if blocks == [] then 0 else (if blocks[0].RedactedFinal? then 1 else 0) + RedactedCount(blocks[1..])
  }

  lemma {:induction false} CountAppend(x: seq<FinalBlock>, y: seq<FinalBlock>)
    ensures RedactedCount(x + y) == RedactedCount(x) + RedactedCount(y)
    decreases |x|
  {
    if x == [] {
      EmptyEnds(y);
    } else {
      AppendHead(x, y);
      CountAppend(x[1..], y);
    }
  }

  /** The stream trims the first text that is not empty, the whole translation takes the first that is
      not blank. */
  lemma PickTrims(a: string, b: string)
    ensures Trim(FirstRaw(a, b)) == FirstOf(a, b) <==> Picks(a, b)
  {
    assert Trim("") == "";
  }

  lemma {:induction false} PartSettles(p: PartPlan)
    requires PartFits(p, p.part)
    ensures SettleAll(PartDrafts(p)) == WholeParts([p.part]) <==> PartPicks(p.part)
    ensures |SettleAll(PartDrafts(p))| == |WholeParts([p.part])|
    ensures RedactedCount(SettleAll(PartDrafts(p))) == 0 == RedactedCount(WholeParts([p.part]))
  {
    NothingAfter(p.part);
    PickTrims(p.part.text, p.part.refusal);
    if !p.part.kind.OtherPart? {
      NothingAfter(PartDrafts(p)[0]);
      EmptyEnds(RawPartText(p.part));
      EmptyEnds(Settle(PartDrafts(p)[0]));
      NothingAfter(TextFinal(Trim(RawPartText(p.part))));
      NothingAfter(TextFinal(FirstOf(p.part.text, p.part.refusal)));
    }
  }

  lemma {:induction false} PartsSettle(parts: seq<PartPlan>, whole: seq<Part>)
    requires |parts| == |whole| && forall j :: 0 <= j < |parts| ==> PartFits(parts[j], whole[j])
    ensures SettleAll(PartsDrafts(parts)) == WholeParts(whole) <==> forall j :: 0 <= j < |whole| ==> PartPicks(whole[j])
    ensures |SettleAll(PartsDrafts(parts))| == |WholeParts(whole)|
    ensures RedactedCount(SettleAll(PartsDrafts(parts))) == 0 == RedactedCount(WholeParts(whole))
  {
    if parts != [] {
      PartsSettle(parts[1..], whole[1..]);
      PartSettles(parts[0]);
      SettleAppend(PartDrafts(parts[0]), PartsDrafts(parts[1..]));
      assert whole == [whole[0]] + whole[1..];
      WholePartsAppend([whole[0]], whole[1..]);
      var x, xs := SettleAll(PartDrafts(parts[0])), SettleAll(PartsDrafts(parts[1..]));
      CountAppend(x, xs);
      CountAppend(WholeParts([whole[0]]), WholeParts(whole[1..]));
      if x + xs == WholeParts(whole) {
        Align(x, xs, WholeParts([whole[0]]), WholeParts(whole[1..]));
      }
      PicksCons(whole);
    }
  }

  lemma PicksCons(whole: seq<Part>)
    requires whole != []
    ensures (forall j :: 0 <= j < |whole| ==> PartPicks(whole[j])) <==>
                  PartPicks(whole[0]) && forall j :: 0 <= j < |whole[1..]| ==> PartPicks(whole[1..][j])
  {
    if forall j :: 0 <= j < |whole[1..]| ==> PartPicks(whole[1..][j]) {
      assert forall j :: 0 < j < |whole| ==> whole[j] == whole[1..][j - 1];
    }
  }

  lemma {:induction false} ToolSettles(p: ItemPlan)
    requires Fits(p) && p.item.kind.ToolItem?
    ensures SettleAll([ToolDraft(p)]) == WholeItem(p.item) <==> Tidy(p)
    ensures |SettleAll([ToolDraft(p)])| == |WholeItem(p.item)|
    ensures RedactedCount(SettleAll([ToolDraft(p)])) == 0 == RedactedCount(WholeItem(p.item))
  {
    PickTrims(p.item.arguments, p.item.input);
    NothingAfter(ToolDraft(p));
    EmptyEnds(Settle(ToolDraft(p)));
  }

  /** What one item's drafts settle to, against its whole translation. */
  lemma {:induction false} ItemSettles(p: ItemPlan)
    requires Fits(p)
    ensures SettleAll(ItemDrafts(p)) == WholeItem(p.item) <==> Tidy(p)
    ensures Kept(p) ==> |SettleAll(ItemDrafts(p))| >= |WholeItem(p.item)|
    ensures RedactedCount(SettleAll(ItemDrafts(p))) <= RedactedCount(WholeItem(p.item))
    ensures RedactedCount(SettleAll(ItemDrafts(p))) == RedactedCount(WholeItem(p.item)) <==> Kept(p)
  {
    match p.item.kind
    case MessageItem => PartsSettle(p.parts, p.item.parts);
    case ReasoningItem => ReasoningSettles(p);
    case ToolItem => ToolSettles(p);
    case OtherItem =>
  }

  /** Equal concatenations of pieces, none shorter on one side, have equal first pieces. */
  lemma Align<T>(x: seq<T>, xs: seq<T>, y: seq<T>, ys: seq<T>)
    requires x + xs == y + ys && |x| >= |y| && |xs| >= |ys|
    ensures x == y && xs == ys
  {
    assert |x| == |y|;
    assert x == (x + xs)[..|x|] && y == (y + ys)[..|y|];
    assert xs == (x + xs)[|x|..] && ys == (y + ys)[|y|..];
  }

  /** No redacted block is gained, and none is lost exactly when all of them came with their announcements. */
  lemma {:induction false} AllKept(plans: seq<ItemPlan>)
    requires Carries(plans)
    ensures RedactedCount(SettleAll(AllDrafts(plans))) <= RedactedCount(WholeBlocks(ItemsOf(plans)))
    ensures RedactedCount(SettleAll(AllDrafts(plans))) == RedactedCount(WholeBlocks(ItemsOf(plans))) <==>
                  forall i :: 0 <= i < |plans| ==> Kept(plans[i])
  {
    if plans != [] {
      var p, rest := plans[0], plans[1..];
      ItemSettles(p);
      AllKept(rest);
      SettleAppend(ItemDrafts(p), AllDrafts(rest));
      CountAppend(SettleAll(ItemDrafts(p)), SettleAll(AllDrafts(rest)));
      NothingAfter(p.item);
      AppendHead([p.item], ItemsOf(rest));
      CountAppend(WholeItem(p.item), WholeBlocks(ItemsOf(rest)));
      EachCons(plans, Kept);
    }
  }

  lemma EachCons(plans: seq<ItemPlan>, holds: ItemPlan -> bool)
    requires plans != []
    ensures (forall i :: 0 <= i < |plans| ==> holds(plans[i])) <==>
                  holds(plans[0]) && forall i :: 0 <= i < |plans[1..]| ==> holds(plans[1..][i])
  {
    if forall i :: 0 <= i < |plans[1..]| ==> holds(plans[1..][i]) {
      assert forall i :: 0 < i < |plans| ==> plans[i] == plans[1..][i - 1];
    }
  }

  lemma {:induction false} KeptSettle(plans: seq<ItemPlan>)
    requires Carries(plans) && forall i :: 0 <= i < |plans| ==> Kept(plans[i])
    ensures SettleAll(AllDrafts(plans)) == WholeBlocks(ItemsOf(plans)) <==> forall i :: 0 <= i < |plans| ==>
            Tidy(plans[i])
    ensures |SettleAll(AllDrafts(plans))| >= |WholeBlocks(ItemsOf(plans))|
  {
    if plans != [] {
      var p, rest := plans[0], plans[1..];
      ItemSettles(p);
      KeptSettle(rest);
      SettleAppend(ItemDrafts(p), AllDrafts(rest));
      NothingAfter(p.item);
      AppendHead([p.item], ItemsOf(rest));
      if SettleAll(AllDrafts(plans)) == WholeBlocks(ItemsOf(plans)) {
        Align(SettleAll(ItemDrafts(p)), SettleAll(AllDrafts(rest)), WholeItem(p.item), WholeBlocks(ItemsOf(rest)));
      }
      EachCons(plans, Tidy);
    }
  }

  /** The reassembled blocks are the whole translation's exactly when every item is tidy. */
  lemma {:induction false} AllSettle(plans: seq<ItemPlan>)
    requires Carries(plans)
    ensures SettleAll(AllDrafts(plans)) == WholeBlocks(ItemsOf(plans)) <==> forall i :: 0 <= i < |plans| ==>
            Tidy(plans[i])
  {
    AllKept(plans);
    assert forall i :: 0 <= i < |plans| ==> (Tidy(plans[i]) ==> Kept(plans[i]));
    if forall i :: 0 <= i < |plans| ==> Kept(plans[i]) {
      KeptSettle(plans);
    }
  }

  // ---- The whole stream ----

  lemma {:induction false} NothingToClose(s: State, order: seq<Key>)
    requires AllClosed(s)
    ensures CloseAll(s, order) == Emit(s, [])
    decreases |order|
  {
    if order != [] {
      NothingToClose(s, order[1..]);
    }
  }

  function Greeting(model: string, opening: Response): Assembly {
    BLANK.(id := FirstOf3(opening.id, "", "msg_copilot"), model := FirstOf(opening.model, model),
           inputTokens := Number(NumberValue(opening.usage.inputTokens)))
  }

  lemma {:induction false} StreamOpens(model: string, opening: Response, order: seq<Key>) returns (o: Outcome)
    ensures o == Step(Init(model), Data(Event(Opening, Some(opening), "")), order)
    ensures o.error.None? && Assemble(BLANK, o.out) == Greeting(model, opening)
    ensures Ready(o.state, Greeting(model, opening)) && o.state.blocks == map[]
  {
    var e := Event(Opening, Some(opening), "");
    var a := Start(Init(model), e);
    EmptyEnds(a.out);
    assert a.out[1..] == [];
    o := Step(Init(model), Data(e), order);
  }

  function Ended(a: Assembly, r: Response, tools: bool): Assembly {
    a.(stop := Some(StopReasonOf(r.incomplete, tools)),
       outputTokens := Number(NumberValue(r.usage.outputTokens)), stopped := true)
  }

  lemma {:induction false} StreamCloses(s: State, a: Assembly, closing: Body, r: Response, order: seq<Key>)
    requires Ready(s, a) && IsTerminal(closing)
    ensures var o := Step(s, Data(Event(closing, Some(r), "")), order);
            if closing.Completed? && FailureOf(r).Some? then o.error == FailureOf(r) && o.out == []
            else o.error.None? && Assemble(a, o.out) == Ended(a, r, HasToolUse(s))
  {
    NothingToClose(s, order);
    var delta := MessageDelta(StopReasonOf(r.incomplete, HasToolUse(s)), Number(NumberValue(r.usage.outputTokens)));
    assert [delta, MessageStop][1..] == [MessageStop] && [MessageStop][1..] == [];
    assert Assemble(a, [delta, MessageStop]) == Ended(a, r, HasToolUse(s));
    assert [] + ([] + [delta, MessageStop]) == [delta, MessageStop];
  }

  /** What a client assembles from the stream of a response. */
  lemma {:induction false} StreamAssembles(model: string, opening: Response, plans: seq<ItemPlan>, closing: Body,
                                           r: Response, order: seq<Key>)
    requires Carries(plans) && IsTerminal(closing)
    ensures var o := Run(Init(model), StreamFrames(opening, plans, closing, r), order);
            if closing.Completed? && FailureOf(r).Some? then o.error == FailureOf(r)
            else o.error.None?
                 && Assemble(BLANK, o.out)
                    == Ended(Greeting(model, opening).(drafts := AllDrafts(plans)), r, AnyTool(ItemsOf(plans)))
  {
    var f, l := Data(Event(Opening, Some(opening), "")), Data(Event(closing, Some(r), ""));
    var g := Greeting(model, opening);
    var o := StreamOpens(model, opening, order);
    AllItems(o.state, g, plans, order);
    ToolDrafts(plans);
    var q := Run(o.state, ItemsFrames(plans), order);
    RunCons(Init(model), f, ItemsFrames(plans), order);
    AssembleAppend(BLANK, o.out, q.out);
    assert g.drafts + AllDrafts(plans) == AllDrafts(plans);
    RunAppend(Init(model), [f] + ItemsFrames(plans), [l], order);
    RunOne(q.state, l, order);
    StreamCloses(q.state, Assemble(g, q.out), closing, r, order);
    AssembleAppend(BLANK, o.out + q.out, Step(q.state, l, order).out);
  }

  /** Streaming, reassembling and settling gives the whole translation's blocks exactly when every item
      is tidy; stop reason and output tokens always agree. */
  lemma {:induction false} StreamSquareExact(model: string, opening: Response, plans: seq<ItemPlan>, closing: Body,
                                             r: Response, order: seq<Key>)
    requires Carries(plans) && IsTerminal(closing)
    requires r.output == ItemsOf(plans) && FailureOf(r).None?
    ensures var a := Assemble(BLANK, Run(Init(model), StreamFrames(opening, plans, closing, r), order).out);
            && a.stopped && a.stop == Some(StopReasonOf(r.incomplete, AnyTool(r.output)))
            && StopTells(r.incomplete, AnyTool(r.output), a.stop.value)
            && a.inputTokens == Number(NumberValue(opening.usage.inputTokens))
            && a.outputTokens.Number? && Counts(r.usage.outputTokens, a.outputTokens.n)
            && NumberValue(a.outputTokens) == NumberValue(r.usage.outputTokens)
            && (SettleAll(a.drafts) == WholeBlocks(r.output) <==> forall i :: 0 <= i < |plans| ==> Tidy(plans[i]))
  {
    StreamAssembles(model, opening, plans, closing, r, order);
    AllSettle(plans);
  }

  const LATE_ITEM :=
    Item(ReasoningItem, "", "", "", "", "", "claude-redacted-thinking:abc", [], [], [])

  /** A redacted item whose data comes only with the done event. */
  const LATE_REDACTION :=
    ItemPlan(ByIndex(0), true, LATE_ITEM.(encrypted := ""), LATE_ITEM, [], [], "", "", "")

  lemma LateRedactionSettles()
    ensures Fits(LATE_REDACTION)
    ensures Settle(ReasoningDraft(LATE_REDACTION)) == [] && WholeItem(LATE_ITEM) == [RedactedFinal("abc")]
  {
    assert Trim("") == "";
    TrimShape(LATE_ITEM.encrypted);
    assert LATE_ITEM.encrypted == REDACTED_PREFIX + "abc";
    assert LATE_ITEM.encrypted[|REDACTED_PREFIX|..] == "abc";
  }

  /** Its block is opened as plain thinking, and the client is left with nothing. */
  lemma {:induction false} LateRedactionIsLost(model: string, opening: Response, closing: Body, r: Response,
                                               order: seq<Key>)
    requires IsTerminal(closing) && FailureOf(r).None? && r.output == [LATE_ITEM]
    ensures Carries([LATE_REDACTION]) && ItemsOf([LATE_REDACTION]) == r.output
    ensures var o := Run(Init(model), StreamFrames(opening, [LATE_REDACTION], closing, r), order);
            && o.error.None? && SettleAll(Assemble(BLANK, o.out).drafts) == []
            && WholeBlocks(r.output) == [RedactedFinal("abc")]
  {
    var p := LATE_REDACTION;
    LateRedactionSettles();
    NothingAfter(p);
    NothingAfter(LATE_ITEM);
    StreamAssembles(model, opening, [p], closing, r, order);
    NothingAfter(ReasoningDraft(p));
    EmptyEnds([ReasoningDraft(p)]);
    EmptyEnds(WholeItem(LATE_ITEM));
  }

  /** The opening event and the final response describe the same message. */
  predicate SameHeader(opening: Response, r: Response) {
    opening.id == r.id && opening.model == r.model && opening.usage.inputTokens == r.usage.inputTokens
  }

  /** The commuting square, errors included: a tidy stream, reassembled, is the whole translation. */
  lemma {:induction false} StreamSquare<J>(model: string, opening: Response, plans: seq<ItemPlan>, closing: Body,
                                           r: Response, order: seq<Key>, json: Codec<J>)
    requires Carries(plans) && IsTerminal(closing) && (closing.Incomplete? ==> FailureOf(r).None?)
    requires r.output == ItemsOf(plans) && SameHeader(opening, r)
    requires forall i :: 0 <= i < |plans| ==> Tidy(plans[i])
    ensures var o := Run(Init(model), StreamFrames(opening, plans, closing, r), order);
            var a := Assemble(BLANK, o.out);
            match WholeMessage(model, r, json)
            case Err(e) => o.error == Some(e) || (o.error.None? && Decode(json, SettleAll(a.drafts)) == Err(e))
            case Ok(m) =>
              && o.error.None? && a.stopped
              && Decode(json, SettleAll(a.drafts)) == Ok(m.content)
              && a.stop == Some(m.stop) && a.model == m.model && (m.id != "" ==> a.id == m.id)
              && NumberValue(a.inputTokens) == m.inputTokens && NumberValue(a.outputTokens) == m.outputTokens
  {
    StreamAssembles(model, opening, plans, closing, r, order);
    if FailureOf(r).None? {
      StreamSquareExact(model, opening, plans, closing, r, order);
    }
  }
}
