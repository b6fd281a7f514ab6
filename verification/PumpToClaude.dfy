/** The pump driving the Responses-to-Claude translator. */
module PumpToClaude {
  import opened Text
  import opened Responses
  import opened Claude
  import opened SseDecoder
  import opened Pump
  import opened StreamErrors
  import C = ResponsesToClaude

  // From upstream bytes to emitted outputs.

  function ShowEach(events: seq<ClaudeEvent>, show: ClaudeEvent -> string): seq<string> {
    if events == [] then [] else [show(events[0])] + ShowEach(events[1..], show)
  }

  function DecodeEach(frames: seq<string>, decode: string -> Frame): seq<Frame> {
    if frames == [] then [] else [decode(frames[0])] + DecodeEach(frames[1..], decode)
  }

  /** `responsesStreamToClaude` as the pump sees it: frame text in, output texts out. */
  function ClaudeTranslator(decode: string -> Frame, show: ClaudeEvent -> string,
                            order: seq<Key>): Translator<C.State, Failure> {
    (s: C.State, frame: string) =>
      Translated(C.Step(s, decode(frame), order).state, ShowEach(C.Step(s, decode(frame), order).out, show),
                 C.Step(s, decode(frame), order).error)
  }

  ghost predicate Shows(show: ClaudeEvent -> string) {
    forall e :: show(e) != ""
  }

  lemma {:induction false} ShowAppend(a: seq<ClaudeEvent>, b: seq<ClaudeEvent>, show: ClaudeEvent -> string)
    ensures ShowEach(a + b, show) == ShowEach(a, show) + ShowEach(b, show)
    decreases |a|
  {
    if a == [] {
      EmptyEnds(b);
    } else {
      AppendHead(a, b);
      ShowAppend(a[1..], b, show);
    }
  }

  lemma {:induction false} NoneEmpty(events: seq<ClaudeEvent>, show: ClaudeEvent -> string)
    requires Shows(show)
    ensures NonEmpty(ShowEach(events, show)) == ShowEach(events, show)
    decreases |events|
  {
    if events != [] {
      NoneEmpty(events[1..], show);
    }
  }

  /** Frame by frame the translator does what one run of it over the decoded frames does. */
  lemma {:induction false} TranslatorRuns(s: C.State, frames: seq<string>, decode: string -> Frame,
                                          show: ClaudeEvent -> string, order: seq<Key>)
    requires Shows(show)
    ensures var run := C.Run(s, DecodeEach(frames, decode), order);
            TranslateAll(s, frames, ClaudeTranslator(decode, show, order))
            == Translated(run.state, ShowEach(run.out, show), run.error)
    decreases |frames|
  {
    if frames != [] {
      var o := C.Step(s, decode(frames[0]), order);
      assert DecodeEach(frames, decode)[1..] == DecodeEach(frames[1..], decode);
      if o.error.None? {
        TranslatorRuns(o.state, frames[1..], decode, show, order);
        NoneEmpty(o.out, show);
        ShowAppend(o.out, C.Run(o.state, DecodeEach(frames[1..], decode), order).out, show);
      }
    }
  }

  /** From bytes to outputs, for every upstream and every host: the pump emits what one run of the
      translator over all frames says, or what comes before the output that is refused; and when
      nothing is refused it ends as the upstream does exactly when that run meets no error. */
  lemma {:induction false} PumpRunsTranslator(model: string, answers: seq<ReadResult>, n: nat, decode: string -> Frame,
                                              show: ClaudeEvent -> string, order: seq<Key>, accepts: nat -> bool)
    requires Shows(show) && StopsAt(answers, n)
    ensures var stop := StopOf(answers, n);
            var run := C.Run(C.Init(model), DecodeEach(FramesIn(BytesRead(answers, n), stop), decode), order);
            var shown := ShowEach(run.out, show);
            var f := Drained(Progress(C.Init(model), [], None), "", answers, ClaudeTranslator(decode, show, order),
                accepts);
            && (AcceptsNext(accepts, 0, |shown|) ==>
                  && f.progress.state == run.state && f.progress.outputs == shown
                  && match run.error
                     case None => f.ending == Closing(stop)
                     case Some(e) => f.ending in {FrameFailed(Translation(e)), LastFrameFailed(Translation(e))})
            && (forall k: nat :: k < |shown| && RefusesAt(accepts, 0, k) ==>
                  && f.progress.outputs == shown[..k]
                  && f.ending in {FrameFailed(Emission), LastFrameFailed(Emission)})
  {
    var bytes, stop := BytesRead(answers, n), StopOf(answers, n);
    PumpEnds(answers, n, C.Init(model), ClaudeTranslator(decode, show, order), accepts);
    TranslatorRuns(C.Init(model), FramesIn(bytes, stop), decode, show, order);
  }

  lemma {:induction false} StopsAtTerminal(s: C.State, frames: seq<Frame>, order: seq<Key>)
    requires C.Run(s, frames, order).error.None?
    ensures C.Run(s, frames, order).state.stopped <==> s.stopped || exists f :: f in frames && Ends(f)
    decreases |frames|
  {
    if frames != [] {
      var o := C.Step(s, frames[0], order);
      ClaudeStepFails(s, frames[0], order);
      StopsAtTerminal(o.state, frames[1..], order);
      assert forall f :: f in frames <==> f == frames[0] || f in frames[1..];
    }
  }

  /** A clean close does not mean the message was finished: of the streams that close cleanly,
      exactly those with a terminal event have a finished Claude message. */
  lemma {:induction false} CleanCloseFinished(model: string, answers: seq<ReadResult>, n: nat, decode: string -> Frame,
                                              show: ClaudeEvent -> string, order: seq<Key>, accepts: nat -> bool)
    requires Shows(show) && StopsAt(answers, n)
    ensures var frames := DecodeEach(FramesIn(BytesRead(answers, n), StopOf(answers, n)), decode);
            var f := Drained(Progress(C.Init(model), [], None), "", answers, ClaudeTranslator(decode, show, order),
                accepts);
            f.ending.Clean? ==>
              StopOf(answers, n).Finished? && (f.progress.state.stopped <==> exists x :: x in frames && Ends(x))
  {
    PumpRunsTranslator(model, answers, n, decode, show, order, accepts);
    var frames := DecodeEach(FramesIn(BytesRead(answers, n), StopOf(answers, n)), decode);
    var run := C.Run(C.Init(model), frames, order);
    var k := FirstRefused(accepts, 0, |ShowEach(run.out, show)|);
    if run.error.None? {
      StopsAtTerminal(C.Init(model), frames, order);
    }
  }

  /** An upstream that says nothing at all closes cleanly, without a message. */
  lemma {:induction false} SilenceClosesCleanly(model: string, decode: string -> Frame, show: ClaudeEvent -> string,
                                                order: seq<Key>)
    ensures Drained(Progress(C.Init(model), [], None), "", [Chunk("", "", true)],
                    ClaudeTranslator(decode, show, order), _ => true)
            == Final(Progress(C.Init(model), [], None), Clean)
  {
    var k := SplitStep("");
    EmptyEnds("");
    assert Trim("") == "";
  }
}
