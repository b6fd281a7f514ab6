/** When a stream fails, and with what. */
module StreamErrors {
  import opened Text
  import opened Responses
  import opened Claude
  import C = ResponsesToClaude
  import D = ResponsesToChat
  import E = ClaudeToChat

  /** An error's own words, trimmed, or these when it has none. */
  function WordsOr(words: string, otherwise: string): string {
    if Trim(words) != "" then Trim(words) else otherwise
  }

  lemma WordsAre(words: string)
    ensures FirstOf(words, "unknown upstream stream error") == WordsOr(words, "unknown upstream stream error")
    ensures FirstOf(words, "unknown upstream error") == WordsOr(words, "unknown upstream error")
  {
    TrimShape("unknown upstream stream error");
    TrimShape("unknown upstream error");
  }

  // ---- A Responses upstream ----

  /** What a frame fails with: data that is no JSON object, `[DONE]` before the end, an error event, or
      a completed response that has failed or was cancelled. */
  function Fatal(f: Frame, ended: bool): Option<Failure> {
    match f
    case Malformed => Some(InvalidJson)
    case NoData => None
    case Sentinel => if ended then None else Some(EndedEarly)
    case Data(e) =>
      if e.body.Failing? then Some(UpstreamFailed(WordsOr(e.body.message, "unknown upstream stream error")))
      else if e.body.Completed? && e.response.Some? && !e.response.value.status.OtherStatus? then
        Some(ResponseFailed(e.response.value.status, WordsOr(e.response.value.error, "unknown upstream error")))
      else None
  }

  predicate Ends(f: Frame) {
    f.Data? && IsTerminal(f.event.body)
  }

  /** The first frame that fails, if any. */
  function FirstFatal(frames: seq<Frame>, ended: bool): Option<nat> {
    if frames == [] then None
    else if Fatal(frames[0], ended).Some? then Some(0)
    else
      match FirstFatal(frames[1..], ended || Ends(frames[0]))
      case None => None
      case Some(i) => Some(i + 1)
  }

  /** Is there a terminal event among these? */
  predicate Ended(frames: seq<Frame>, ended: bool) {
    ended || exists f :: f in frames && Ends(f)
  }

  lemma {:induction false} FirstFatalIs(frames: seq<Frame>, ended: bool)
    ensures FirstFatal(frames, ended).Some? ==>
              var i := FirstFatal(frames, ended).value;
              i < |frames| && Fatal(frames[i], Ended(frames[..i], ended)).Some?
    ensures forall i :: 0 <= i < |frames|
                        && (FirstFatal(frames, ended).None? || i < FirstFatal(frames, ended).value) ==>
              Fatal(frames[i], Ended(frames[..i], ended)).None?
    decreases |frames|
  {
    if frames != [] && Fatal(frames[0], ended).None? {
      var more := ended || Ends(frames[0]);
      FirstFatalIs(frames[1..], more);
      forall i | 0 < i <= |frames| ensures Ended(frames[..i], ended) == Ended(frames[1..][..i - 1], more) {
        assert frames[..i] == [frames[0]] + frames[1..][..i - 1];
        assert forall f :: f in frames[..i] <==> f == frames[0] || f in frames[1..][..i - 1];
      }
    }
  }

  lemma {:induction false} ClosesNothing(s: C.State, order: seq<Key>)
    ensures C.SameMessage(s, C.CloseAll(s, order).state)
    decreases |order|
  {
    if order != [] {
      ClosesNothing(C.Close(s, order[0]).state, order[1..]);
    }
  }

  lemma {:induction false} ClaudeDelivers(s: C.State, e: Event, order: seq<Key>) returns (a: C.Emit, b: C.Emit)
    requires Fatal(Data(e), s.stopped).None?
    ensures a == if C.Starts(e) then C.Start(s, e) else C.Emit(s, [])
    ensures b == if IsTerminal(e.body) then C.Finish(a.state, ResponseOf(e), order) else C.Content(a.state, e.body)
    ensures C.Deliver(s, e, order) == C.Outcome(b.state, a.out + b.out, None)
    ensures b.state.stopped == (s.stopped || Ends(Data(e)))
  {
    a := if C.Starts(e) then C.Start(s, e) else C.Emit(s, []);
    b := if IsTerminal(e.body) then C.Finish(a.state, ResponseOf(e), order) else C.Content(a.state, e.body);
    ClosesNothing(a.state, order);
  }

  lemma {:induction false} ClaudeStepFails(s: C.State, f: Frame, order: seq<Key>)
    ensures C.Step(s, f, order).error == Fatal(f, s.stopped)
    ensures C.Step(s, f, order).error.Some? ==> C.Step(s, f, order).out == []
    ensures C.Step(s, f, order).error.None? ==> C.Step(s, f, order).state.stopped == (s.stopped || Ends(f))
  {
    if f.Data? {
      WordsAre(if f.event.body.Failing? then f.event.body.message else "");
      WordsAre(ResponseOf(f.event).error);
      if Fatal(f, s.stopped).None? {
        var a, b := ClaudeDelivers(s, f.event, order);
      }
    }
  }

  lemma ChatContentGoesOn(s: D.State, b: Body) returns (c: D.Emit)
    ensures c == D.Content(s, b) && c.state.stopped == s.stopped
  {
    c := D.Content(s, b);
  }

  lemma ChatDelivers(s: D.State, e: Event) returns (a: D.Emit, b: D.Emit)
    requires Fatal(Data(e), s.stopped).None?
    ensures a == if IsResponseEvent(e.body) then D.Start(s, e) else D.Emit(s, [])
    ensures b == if IsTerminal(e.body) then D.Finish(a.state, ResponseOf(e)) else D.Content(a.state, e.body)
    ensures D.Deliver(s, e) == D.Outcome(b.state, a.out + b.out, None)
    ensures b.state.stopped == (s.stopped || Ends(Data(e)))
  {
    a := if IsResponseEvent(e.body) then D.Start(s, e) else D.Emit(s, []);
    b := ChatContentGoesOn(a.state, e.body);
    b := if IsTerminal(e.body) then D.Finish(a.state, ResponseOf(e)) else b;
  }

  lemma ChatStepFails(s: D.State, f: Frame)
    ensures D.Step(s, f).error == Fatal(f, s.stopped)
    ensures D.Step(s, f).error.Some? ==> D.Step(s, f).out == []
    ensures D.Step(s, f).error.None? ==> D.Step(s, f).state.stopped == (s.stopped || Ends(f))
  {
    if f.Data? {
      WordsAre(if f.event.body.Failing? then f.event.body.message else "");
      WordsAre(ResponseOf(f.event).error);
      if Fatal(f, s.stopped).None? {
        var a, b := ChatDelivers(s, f.event);
      }
    }
  }

  lemma {:induction false} EndedCons(f: Frame, rest: seq<Frame>, ended: bool)
    ensures Ended([f] + rest, ended) == Ended(rest, ended || Ends(f))
  {
    assert forall g :: g in [f] + rest <==> g == f || g in rest;
  }

  /** The first fatal frame is found behind a frame that is not fatal. */
  lemma {:induction false} FatalTail(frames: seq<Frame>, ended: bool) returns (i: nat)
    requires frames != [] && Fatal(frames[0], ended).None?
    requires FirstFatal(frames[1..], ended || Ends(frames[0])).Some?
    ensures FirstFatal(frames[1..], ended || Ends(frames[0])) == Some(i) && FirstFatal(frames, ended) == Some(i + 1)
    ensures i + 1 < |frames| && frames[i + 1] == frames[1..][i] && frames[..i + 1] == [frames[0]] + frames[1..][..i]
    ensures Ended(frames[..i + 1], ended) == Ended(frames[1..][..i], ended || Ends(frames[0]))
  {
    var rest := frames[1..];
    FirstFatalIs(rest, ended || Ends(frames[0]));
    i := FirstFatal(rest, ended || Ends(frames[0])).value;
    assert frames[..i + 1] == [frames[0]] + rest[..i];
    EndedCons(frames[0], rest[..i], ended);
  }

  /** One run of the Responses-to-Claude translator: it fails exactly if some frame is fatal, with the
      reason of the first such frame, and has said what the frames before it say. */
  lemma {:induction false} ClaudeRunFails(s: C.State, frames: seq<Frame>, order: seq<Key>)
    ensures var o := C.Run(s, frames, order);
            match FirstFatal(frames, s.stopped)
            case None => o.error.None?
            case Some(i) =>
              i < |frames| && o.error.Some? && o.error == Fatal(frames[i], Ended(frames[..i], s.stopped))
              && C.Run(s, frames[..i], order).error.None? && o.out == C.Run(s, frames[..i], order).out
    decreases |frames|
  {
    if frames != [] {
      ClaudeStepFails(s, frames[0], order);
      var first := C.Step(s, frames[0], order);
      if first.error.None? {
        ClaudeRunFails(first.state, frames[1..], order);
        if FirstFatal(frames[1..], first.state.stopped).Some? {
          var i := FatalTail(frames, s.stopped);
          C.RunCons(s, frames[0], frames[1..][..i], order);
        }
      } else {
        assert frames[..0] == [];
      }
    }
  }

  /** The same of the Responses-to-Chat translator: both fail at the same frame, for the same reason. */
  lemma {:induction false} ChatRunFails(s: D.State, frames: seq<Frame>)
    ensures var o := D.Run(s, frames);
            match FirstFatal(frames, s.stopped)
            case None => o.error.None?
            case Some(i) =>
              i < |frames| && o.error.Some? && o.error == Fatal(frames[i], Ended(frames[..i], s.stopped))
              && D.Run(s, frames[..i]).error.None? && o.out == D.Run(s, frames[..i]).out
    decreases |frames|
  {
    if frames != [] {
      ChatStepFails(s, frames[0]);
      var first := D.Step(s, frames[0]);
      if first.error.None? {
        ChatRunFails(first.state, frames[1..]);
        if FirstFatal(frames[1..], first.state.stopped).Some? {
          var i := FatalTail(frames, s.stopped);
          D.RunCons(s, frames[0], frames[1..][..i]);
        }
      } else {
        assert frames[..0] == [];
      }
    }
  }

  // ---- A Claude upstream ----

  /** Data that is no JSON object, or an error event. */
  function Broken(f: E.Arrival): Option<Failure> {
    match f
    case Garbled => Some(InvalidJson)
    case Quiet => None
    case Arrived(e, _) =>
      if e.StreamError? then Some(UpstreamFailed(WordsOr(e.message, "unknown upstream stream error"))) else None
  }

  predicate FirstBroken(frames: seq<E.Arrival>, i: nat) {
    i < |frames| && Broken(frames[i]).Some? && forall j :: 0 <= j < i ==> Broken(frames[j]).None?
  }

  lemma BrokenStep(s: E.State, f: E.Arrival)
    ensures E.Step(s, f).error == Broken(f)
  {
    if f.Arrived? && f.event.StreamError? {
      WordsAre(f.event.message);
    }
  }

  /** One run of the Claude-to-Chat translator: it fails exactly if some frame is unreadable or an error
      event, with the words of the first such frame, and has said what the frames before it say. */
  lemma {:induction false} ClaudeToChatRunFails(s: E.State, frames: seq<E.Arrival>)
    ensures E.Run(s, frames).error.Some? <==> exists i :: 0 <= i < |frames| && Broken(frames[i]).Some?
    ensures forall i: nat :: FirstBroken(frames, i) ==>
              && E.Run(s, frames).error == Broken(frames[i])
              && E.Run(s, frames[..i]).error.None? && E.Run(s, frames).out == E.Run(s, frames[..i]).out
    decreases |frames|
  {
    if frames != [] {
      var f, rest := frames[0], frames[1..];
      BrokenStep(s, f);
      assert forall i :: 0 < i < |frames| ==> frames[i] == rest[i - 1];
      if Broken(f).Some? {
        assert frames[..0] == [];
        return;
      }
      var first := E.Step(s, f);
      ClaudeToChatRunFails(first.state, rest);
      forall i: nat | FirstBroken(frames, i)
        ensures E.Run(s, frames).error == Broken(frames[i]) && E.Run(s, frames[..i]).error.None?
        ensures E.Run(s, frames).out == E.Run(s, frames[..i]).out
      {
        assert forall j :: 0 <= j < i - 1 ==> rest[j] == frames[j + 1];
        assert FirstBroken(rest, i - 1);
        assert frames[..i] == [f] + rest[..i - 1];
        E.RunCons(s, f, rest[..i - 1]);
      }
    }
  }
}
