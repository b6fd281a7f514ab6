/** internal/provider/executor.go, `pumpStream`. */
module Pump {
  import opened Text
  import opened SseDecoder

  // Read chunks, cut frames, translate, emit. The translator is any deterministic function of its state
  // and a frame.

  /** One answer of the upstream: the read failed, or a chunk with an error text and a last mark. */
  datatype ReadResult = Failed | Chunk(payload: string, error: string, done: bool)

  datatype Translated<S, E> = Translated(state: S, outputs: seq<string>, error: Option<E>)

  type Translator<!S, !E> = (S, string) -> Translated<S, E>

  datatype Cause<E> = Translation(error: E) | Emission

  datatype Ending<E> =
    | Clean
    | ReadFailed
    | StreamFailed(message: string)
    | FrameFailed(cause: Cause<E>)
    | LastFrameFailed(cause: Cause<E>)

  datatype Progress<S, E> = Progress(state: S, outputs: seq<string>, failure: Option<Cause<E>>)

  /** What the host does: it hands out chunks, and accepts the n-th output or not. */
  class Host<E> {
    const answers: seq<ReadResult>
    const accepts: nat -> bool
    var next: nat
    var outputs: seq<string>
    var upstreamCloses: nat
    var endings: seq<Ending<E>>

    constructor (answers: seq<ReadResult>, accepts: nat -> bool)
      ensures this.answers == answers && this.accepts == accepts
      ensures next == 0 && outputs == [] && upstreamCloses == 0 && endings == []
    {
      this.answers, this.accepts := answers, accepts;
      next, outputs, upstreamCloses, endings := 0, [], 0, [];
    }

    method ReadStream() returns (r: ReadResult)
      requires next <= |answers|
      modifies `next
      ensures r == if old(next) < |answers| then answers[old(next)] else Failed
      ensures next == if old(next) < |answers| then old(next) + 1 else old(next)
    {
      if next == |answers| {
        return Failed;
      }
      r := answers[next];
      next := next + 1;
    }

    method Emit(output: string) returns (ok: bool)
      modifies `outputs
      ensures ok == accepts(|old(outputs)|)
      ensures outputs == if ok then old(outputs) + [output] else old(outputs)
    {
      ok := accepts(|outputs|);
      if ok {
        outputs := outputs + [output];
      }
    }

    method CloseStream()
      modifies `upstreamCloses
      ensures upstreamCloses == old(upstreamCloses) + 1
    {
      upstreamCloses := upstreamCloses + 1;
    }

    method CloseOutput(ending: Ending<E>)
      modifies `endings
      ensures endings == old(endings) + [ending]
    {
      endings := endings + [ending];
    }
  }

  // ---- What is emitted, as a function ----

  /** Emit outputs in order, leaving out empty ones, until one is refused. */
  function EmitAll<S, E>(p: Progress<S, E>, outputs: seq<string>, accepts: nat -> bool): Progress<S, E>
    decreases |outputs|
  {
    if outputs == [] || p.failure.Some? then p
    else if outputs[0] == "" then EmitAll(p, outputs[1..], accepts)
    else if accepts(|p.outputs|) then EmitAll(p.(outputs := p.outputs + [outputs[0]]), outputs[1..], accepts)
    else p.(failure := Some(Emission))
  }

  /** Translate one frame and emit what comes of it. */
  function Forward<S, E>(p: Progress<S, E>, frame: string, translate: Translator<S, E>,
                         accepts: nat -> bool): Progress<S, E> {
    if p.failure.Some? then p
    else
      var t := translate(p.state, frame);
      if t.error.Some? then Progress(t.state, p.outputs, Some(Translation(t.error.value)))
      else EmitAll(Progress(t.state, p.outputs, None), t.outputs, accepts)
  }

  function ForwardAll<S, E>(p: Progress<S, E>, frames: seq<string>, translate: Translator<S, E>,
                            accepts: nat -> bool): Progress<S, E>
    decreases |frames|
  {
    if frames == [] then p else ForwardAll(Forward(p, frames[0], translate, accepts), frames[1..], translate, accepts)
  }

  datatype Final<S, E> = Final(progress: Progress<S, E>, ending: Ending<E>)

  function Flushed(rest: string): string {
    if Trim(rest) == "" then "" else rest
  }

  /** The end of the stream: an unfinished frame that is not blank is forwarded as it is. */
  function LastFrame<S, E>(p: Progress<S, E>, rest: string, translate: Translator<S, E>,
                           accepts: nat -> bool): Final<S, E> {
    if Flushed(rest) == "" then Final(p, Clean)
    else
      var q := Forward(p, rest, translate, accepts);
      Final(q, if q.failure.Some? then LastFrameFailed(q.failure.value) else Clean)
  }

  /** One chunk after another. */
  function Drained<S, E>(p: Progress<S, E>, buffer: string, answers: seq<ReadResult>, translate: Translator<S, E>,
                         accepts: nat -> bool): Final<S, E>
    decreases |answers|
  {
    if answers == [] || answers[0].Failed? then Final(p, ReadFailed)
    else if answers[0].error != "" then Final(p, StreamFailed(answers[0].error))
    else
      var d := Split(buffer + answers[0].payload);
      var q := ForwardAll(p, d.frames, translate, accepts);
      if q.failure.Some? then Final(q, FrameFailed(q.failure.value))
      else if answers[0].done then LastFrame(q, d.rest, translate, accepts)
      else Drained(q, d.rest, answers[1..], translate, accepts)
  }

  /** How the upstream stops: it fails or runs dry, reports an error, or marks its last chunk. */
  datatype Stop = Broken | Reported(message: string) | Finished

  /** The ending that goes with it when no frame fails. */
  function Closing<E>(stop: Stop): Ending<E> {
    match stop
    case Broken => ReadFailed
    case Reported(message) => StreamFailed(message)
    case Finished => Clean
  }

  predicate Continues(a: ReadResult) {
    a.Chunk? && a.error == "" && !a.done
  }

  /** The first answer after which nothing more is read, or their number if there is none. */
  predicate StopsAt(answers: seq<ReadResult>, n: nat) {
    && n <= |answers|
    && (forall i :: 0 <= i < n ==> Continues(answers[i]))
    && (n < |answers| ==> !Continues(answers[n]))
  }

  function StopOf(answers: seq<ReadResult>, n: nat): Stop {
    if n >= |answers| || answers[n].Failed? then Broken
    else if answers[n].error != "" then Reported(answers[n].error)
    else Finished
  }

  /** The bytes that are read: a chunk that comes with an error is not. */
  function BytesRead(answers: seq<ReadResult>, n: nat): string {
    if answers == [] || answers[0].Failed? || answers[0].error != "" then ""
    else if n == 0 then answers[0].payload
    else answers[0].payload + BytesRead(answers[1..], n - 1)
  }

  /** The whole stream at once: every frame of it, then what is left if it was finished. */
  function Whole<S, E>(p: Progress<S, E>, bytes: string, stop: Stop, translate: Translator<S, E>,
                       accepts: nat -> bool): Final<S, E> {
    var d := Split(bytes);
    var q := ForwardAll(p, d.frames, translate, accepts);
    if q.failure.Some? then Final(q, FrameFailed(q.failure.value))
    else if stop.Finished? then LastFrame(q, d.rest, translate, accepts)
    else Final(q, Closing(stop))
  }

  // ---- The pump ----

  method EmitOutputs<S, E>(host: Host<E>, ghost p: Progress<S, E>, outputs: seq<string>) returns (ok: bool)
    requires p.failure.None? && p.outputs == host.outputs
    modifies host`outputs
    ensures var q := EmitAll(p, outputs, host.accepts);
            host.outputs == q.outputs && q.state == p.state && q.failure == if ok then None else Some(Emission)
  {
    ok := true;
    ghost var now := p;
    for i := 0 to |outputs|
      invariant now.failure.None? && now.outputs == host.outputs && now.state == p.state
      invariant EmitAll(p, outputs, host.accepts) == EmitAll(now, outputs[i..], host.accepts)
    {
      if |outputs[i]| == 0 {
        continue;
      }
      ok := host.Emit(outputs[i]);
      if !ok {
        return;
      }
      now := now.(outputs := host.outputs);
    }
  }

  method EmitFrame<S, E>(host: Host<E>, translate: Translator<S, E>, state: S, frame: string)
    returns (state': S, failure: Option<Cause<E>>)
    modifies host`outputs
    ensures Progress(state', host.outputs, failure) == Forward(Progress(state, old(host.outputs), None), frame,
             translate, host.accepts)
  {
    var t := translate(state, frame);
    if t.error.Some? {
      return t.state, Some(Translation(t.error.value));
    }
    var ok := EmitOutputs(host, Progress(t.state, host.outputs, None), t.outputs);
    return t.state, if ok then None else Some(Emission);
  }

  method EmitFrames<S, E>(host: Host<E>, translate: Translator<S, E>, state: S, frames: seq<string>)
    returns (state': S, failure: Option<Cause<E>>)
    modifies host`outputs
    ensures Progress(state', host.outputs, failure) == ForwardAll(Progress(state, old(host.outputs), None), frames,
             translate, host.accepts)
  {
    state', failure := state, None;
    for i := 0 to |frames|
      invariant failure.None?
      invariant ForwardAll(Progress(state, old(host.outputs), None), frames, translate, host.accepts)
                == ForwardAll(Progress(state', host.outputs, None), frames[i..], translate, host.accepts)
    {
      state', failure := EmitFrame(host, translate, state', frames[i]);
      assert frames[i..][1..] == frames[i + 1..];
      if failure.Some? {
        FailedStays(Progress(state', host.outputs, failure), frames[i + 1..], translate, host.accepts);
        return;
      }
    }
  }

  method Drain<S, E>(host: Host<E>, translate: Translator<S, E>, init: S) returns (ending: Ending<E>, ghost state: S)
    requires host.next == 0
    modifies host`next, host`outputs
    ensures var f := Drained(Progress(init, old(host.outputs), None), "", host.answers, translate, host.accepts);
            host.outputs == f.progress.outputs && state == f.progress.state && ending == f.ending
  {
    var decoder := new Decoder();
    var now := init;
    ghost var all := Drained(Progress(init, host.outputs, None), "", host.answers, translate, host.accepts);
    assert host.answers[0..] == host.answers;
    while true
      invariant host.next <= |host.answers| && decoder.Valid()
      invariant all == Drained(Progress(now, host.outputs, None), decoder.buffer, host.answers[host.next..],
          translate, host.accepts)
      decreases |host.answers| - host.next
    {
      ghost var left := host.answers[host.next..];
      var chunk := host.ReadStream();
      assert left != [] ==> left[0] == chunk && left[1..] == host.answers[host.next..];
      if chunk.Failed? {
        return ReadFailed, now;
      }
      if chunk.error != "" {
        return StreamFailed(chunk.error), now;
      }
      var frames := decoder.Feed(chunk.payload);
      var failure;
      now, failure := EmitFrames(host, translate, now, frames);
      if failure.Some? {
        return FrameFailed(failure.value), now;
      }
      if chunk.done {
        var trailing := decoder.Flush();
        if |trailing| > 0 {
          now, failure := EmitFrame(host, translate, now, trailing);
          if failure.Some? {
            return LastFrameFailed(failure.value), now;
          }
        }
        return Clean, now;
      }
    }
  }

  /** `pumpStream`: whatever happens, the upstream and the output are closed exactly once. */
  method PumpStream<S, E>(host: Host<E>, translate: Translator<S, E>, init: S)
    requires host.next == 0
    modifies host
    ensures var f := Drained(Progress(init, old(host.outputs), None), "", host.answers, translate, host.accepts);
            && host.outputs == f.progress.outputs
            && host.endings == old(host.endings) + [f.ending]
    ensures host.upstreamCloses == old(host.upstreamCloses) + 1
  {
    var ending, _ := Drain(host, translate, init);
    host.CloseStream();
    host.CloseOutput(ending);
  }

  // ---- Chunking is immaterial ----

  lemma {:induction false} FailedStays<S, E>(p: Progress<S, E>, frames: seq<string>, translate: Translator<S, E>,
                                             accepts: nat -> bool)
    requires p.failure.Some?
    ensures ForwardAll(p, frames, translate, accepts) == p
    decreases |frames|
  {
    if frames != [] {
      FailedStays(p, frames[1..], translate, accepts);
    }
  }

  lemma {:induction false} ForwardAppend<S, E>(p: Progress<S, E>, a: seq<string>, b: seq<string>,
                                               translate: Translator<S, E>, accepts: nat -> bool)
    ensures ForwardAll(p, a + b, translate, accepts) == ForwardAll(ForwardAll(p, a, translate, accepts), b,
             translate, accepts)
    decreases |a|
  {
    if a == [] {
      EmptyEnds(b);
    } else {
      AppendHead(a, b);
      ForwardAppend(Forward(p, a[0], translate, accepts), a[1..], b, translate, accepts);
    }
  }

  /** What comes first can be forwarded first. */
  lemma WholeStep<S, E>(p: Progress<S, E>, chunk: string, later: string, stop: Stop, translate: Translator<S, E>,
                        accepts: nat -> bool) returns (q: Progress<S, E>, rest: string)
    requires p.failure.None?
    ensures q == ForwardAll(p, Split(chunk).frames, translate, accepts) && rest == Split(chunk).rest && Unended(rest)
    ensures Whole(p, chunk + later, stop, translate, accepts)
            == if q.failure.Some? then Final(q, FrameFailed(q.failure.value))
               else Whole(q, rest + later, stop, translate, accepts)
  {
    var d := Decode(chunk);
    q := ForwardAll(p, d.frames, translate, accepts);
    SplitAppend(chunk, later);
    var e := Split(d.rest + later);
    ForwardAppend(p, d.frames, e.frames, translate, accepts);
    rest := d.rest;
    if q.failure.Some? {
      FailedStays(q, e.frames, translate, accepts);
    }
  }

  lemma {:induction false} TailStops(answers: seq<ReadResult>, n: nat) returns (tail: seq<ReadResult>, later: string)
    requires StopsAt(answers, n) && n > 0
    ensures Continues(answers[0]) && tail == answers[1..] && StopsAt(tail, n - 1)
    ensures later == BytesRead(tail, n - 1) && BytesRead(answers, n) == answers[0].payload + later
    ensures StopOf(answers, n) == StopOf(tail, n - 1)
  {
    tail, later := answers[1..], BytesRead(answers[1..], n - 1);
    assert n < |answers| ==> tail[n - 1] == answers[n];
  }

  /** Where nothing more is read. */
  lemma DrainedLast<S, E>(p: Progress<S, E>, buffer: string, answers: seq<ReadResult>, translate: Translator<S, E>,
                          accepts: nat -> bool)
    requires StopsAt(answers, 0) && p.failure.None? && Unended(buffer)
    ensures Drained(p, buffer, answers, translate, accepts)
            == Whole(p, buffer + BytesRead(answers, 0), StopOf(answers, 0), translate, accepts)
  {
    if answers == [] || answers[0].Failed? || answers[0].error != "" {
      EmptyEnds(buffer);
      var k := SplitStep(buffer);
    }
  }

  lemma {:induction false} DrainedStep<S, E>(p: Progress<S, E>, buffer: string, answers: seq<ReadResult>,
                                             translate: Translator<S, E>, accepts: nat -> bool)
    requires answers != [] && Continues(answers[0])
    ensures var d := Split(buffer + answers[0].payload);
            var q := ForwardAll(p, d.frames, translate, accepts);
            Drained(p, buffer, answers, translate, accepts)
            == if q.failure.Some? then Final(q, FrameFailed(q.failure.value))
               else Drained(q, d.rest, answers[1..], translate, accepts)
  {
  }

  lemma {:induction false} DrainedWhole<S, E>(p: Progress<S, E>, buffer: string, answers: seq<ReadResult>, n: nat,
                                              translate: Translator<S, E>, accepts: nat -> bool)
    requires StopsAt(answers, n) && p.failure.None? && Unended(buffer)
    ensures Drained(p, buffer, answers, translate, accepts)
            == Whole(p, buffer + BytesRead(answers, n), StopOf(answers, n), translate, accepts)
    decreases n
  {
    if n == 0 {
      DrainedLast(p, buffer, answers, translate, accepts);
    } else {
      var tail, later := TailStops(answers, n);
      Regroup(buffer, answers[0].payload, later);
      var q, rest := WholeStep(p, buffer + answers[0].payload, later, StopOf(tail, n - 1), translate, accepts);
      DrainedStep(p, buffer, answers, translate, accepts);
      if q.failure.None? {
        DrainedWhole(q, rest, tail, n - 1, translate, accepts);
      }
    }
  }

  /** Two upstreams that hand out the same bytes and stop alike go through the same frames and
      translator states, emit the same outputs and end the same way, however the bytes are cut into
      chunks and whatever the host refuses. */
  lemma PumpIgnoresChunking<S, E>(answers: seq<ReadResult>, n: nat, answers2: seq<ReadResult>, n2: nat, init: S,
                                  translate: Translator<S, E>, accepts: nat -> bool)
    requires StopsAt(answers, n) && StopsAt(answers2, n2)
    requires BytesRead(answers, n) == BytesRead(answers2, n2) && StopOf(answers, n) == StopOf(answers2, n2)
    ensures Drained(Progress(init, [], None), "", answers, translate, accepts)
            == Drained(Progress(init, [], None), "", answers2, translate, accepts)
            == Whole(Progress(init, [], None), BytesRead(answers, n), StopOf(answers, n), translate, accepts)
  {
    FrameEndIsFirst("");
    EmptyEnds(BytesRead(answers, n));
    DrainedWhole(Progress(init, [], None), "", answers, n, translate, accepts);
    DrainedWhole(Progress(init, [], None), "", answers2, n2, translate, accepts);
  }

  /** Every upstream stops somewhere. */
  lemma StopsSomewhere(answers: seq<ReadResult>) returns (n: nat)
    ensures StopsAt(answers, n)
  {
    n := 0;
    while n < |answers| && Continues(answers[n])
      invariant n <= |answers| && forall i :: 0 <= i < n ==> Continues(answers[i])
    {
      n := n + 1;
    }
  }

  // ---- What every host gets ----

  function NonEmpty(outputs: seq<string>): seq<string> {
    if outputs == [] then []
    else if outputs[0] == "" then NonEmpty(outputs[1..])
    else [outputs[0]] + NonEmpty(outputs[1..])
  }

  /** The translator by itself: its outputs that are not empty, up to the first frame that fails. */
  function TranslateAll<S, E>(s: S, frames: seq<string>, translate: Translator<S, E>): Translated<S, E>
    decreases |frames|
  {
    if frames == [] then Translated(s, [], None)
    else
      var t := translate(s, frames[0]);
      if t.error.Some? then Translated(t.state, [], t.error)
      else
        var rest := TranslateAll(t.state, frames[1..], translate);
        Translated(rest.state, NonEmpty(t.outputs) + rest.outputs, rest.error)
  }

  predicate AcceptsNext(accepts: nat -> bool, from: nat, n: nat) {
    forall i: nat :: from <= i < from + n ==> accepts(i)
  }

  /** The host accepts k more outputs and refuses the next one. */
  predicate RefusesAt(accepts: nat -> bool, from: nat, k: nat) {
    AcceptsNext(accepts, from, k) && !accepts(from + k)
  }

  lemma FirstRefused(accepts: nat -> bool, from: nat, n: nat) returns (k: nat)
    ensures k <= n && if k == n then AcceptsNext(accepts, from, n) else RefusesAt(accepts, from, k)
  {
    k := 0;
    while k < n && accepts(from + k)
      invariant k <= n && AcceptsNext(accepts, from, k)
    {
      k := k + 1;
    }
  }

  /** The host gets everything; or it gets what comes before the output it refuses, and that is the
      failure. */
  ghost predicate Emitted<S, E>(p: Progress<S, E>, q: Progress<S, E>, t: Translated<S, E>, accepts: nat -> bool) {
    && (AcceptsNext(accepts, |p.outputs|, |t.outputs|) ==>
          q == Progress(t.state, p.outputs + t.outputs,
                        if t.error.None? then None else Some(Translation(t.error.value))))
    && forall k: nat :: k < |t.outputs| && RefusesAt(accepts, |p.outputs|, k) ==>
         q.outputs == p.outputs + t.outputs[..k] && q.failure == Some(Emission)
  }

  lemma EmittedNothing<S, E>(p: Progress<S, E>, accepts: nat -> bool)
    requires p.failure.None?
    ensures Emitted(p, p, Translated(p.state, [], None), accepts)
  {
    EmptyEnds(p.outputs);
  }

  lemma AcceptsSum(accepts: nat -> bool, from: nat, n: nat, m: nat)
    ensures AcceptsNext(accepts, from, n + m) <==> AcceptsNext(accepts, from, n) && AcceptsNext(accepts, from + n, m)
  {
  }

  /** One thing after another; nothing comes after a failure. */
  lemma EmittedThen<S, E>(p: Progress<S, E>, q: Progress<S, E>, r: Progress<S, E>, t: Translated<S, E>,
                          u: Translated<S, E>, accepts: nat -> bool)
    requires t.error.None? && Emitted(p, q, t, accepts)
    requires if q.failure.None? then Emitted(q, r, u, accepts) else r == q
    ensures Emitted(p, r, Translated(u.state, t.outputs + u.outputs, u.error), accepts)
  {
    var from, n, all := |p.outputs|, |t.outputs|, t.outputs + u.outputs;
    var k := FirstRefused(accepts, from, n);
    if k < n {
      assert all[..k] == t.outputs[..k];
      assert !AcceptsNext(accepts, from, |all|);
      assert forall j: nat :: RefusesAt(accepts, from, j) ==> j == k;
    } else {
      Regroup(p.outputs, t.outputs, u.outputs);
      AcceptsSum(accepts, from, n, |u.outputs|);
      forall j: nat | j < |all| && RefusesAt(accepts, from, j)
        ensures r.outputs == p.outputs + all[..j] && r.failure == Some(Emission)
      {
        assert j >= n;
        AcceptsSum(accepts, from, n, j - n);
        assert RefusesAt(accepts, from + n, j - n);
        assert all[..j] == t.outputs + u.outputs[..j - n];
        Regroup(p.outputs, t.outputs, u.outputs[..j - n]);
      }
    }
  }

  lemma EmittedOne<S, E>(p: Progress<S, E>, output: string, accepts: nat -> bool) returns (q: Progress<S, E>)
    requires p.failure.None?
    ensures q == if accepts(|p.outputs|) then p.(outputs := p.outputs + [output]) else p.(failure := Some(Emission))
    ensures Emitted(p, q, Translated(p.state, [output], None), accepts)
  {
    q := if accepts(|p.outputs|) then p.(outputs := p.outputs + [output]) else p.(failure := Some(Emission));
    EmptyEnds(p.outputs);
    assert [output][..0] == [];
  }

  lemma {:induction false} EmitAllEmits<S, E>(p: Progress<S, E>, outputs: seq<string>, accepts: nat -> bool)
    requires p.failure.None?
    ensures Emitted(p, EmitAll(p, outputs, accepts), Translated(p.state, NonEmpty(outputs), None), accepts)
    decreases |outputs|
  {
    if outputs == [] {
      EmittedNothing(p, accepts);
    } else if outputs[0] == "" {
      EmitAllEmits(p, outputs[1..], accepts);
    } else {
      var q := EmittedOne(p, outputs[0], accepts);
      var r := EmitAll(p, outputs, accepts);
      if q.failure.None? {
        EmitAllEmits(q, outputs[1..], accepts);
      }
      EmittedThen(p, q, r, Translated(p.state, [outputs[0]], None), Translated(p.state, NonEmpty(outputs[1..]), None),
                  accepts);
    }
  }

  lemma {:induction false} ForwardAllEmits<S, E>(p: Progress<S, E>, frames: seq<string>, translate: Translator<S, E>,
                                                 accepts: nat -> bool)
    requires p.failure.None?
    ensures Emitted(p, ForwardAll(p, frames, translate, accepts), TranslateAll(p.state, frames, translate), accepts)
    decreases |frames|
  {
    if frames == [] {
      EmittedNothing(p, accepts);
    } else {
      var t := translate(p.state, frames[0]);
      var q := Forward(p, frames[0], translate, accepts);
      if q.failure.Some? {
        FailedStays(q, frames[1..], translate, accepts);
      }
      if t.error.Some? {
        EmptyEnds(p.outputs);
      } else {
        var now := Progress<S, E>.Progress(t.state, p.outputs, None);
        EmitAllEmits(now, t.outputs, accepts);
        if q.failure.None? {
          FirstEmitted(now, q, t.outputs, accepts);
          ForwardAllEmits(q, frames[1..], translate, accepts);
        }
        EmittedThen(p, q, ForwardAll(q, frames[1..], translate, accepts),
                    Translated(t.state, NonEmpty(t.outputs), None), TranslateAll(t.state, frames[1..], translate),
                    accepts);
      }
    }
  }

  lemma FirstEmitted<S, E>(p: Progress<S, E>, q: Progress<S, E>, outputs: seq<string>, accepts: nat -> bool)
    requires Emitted(p, q, Translated(p.state, NonEmpty(outputs), None), accepts) && q.failure.None?
    ensures q.state == p.state
  {
    var k := FirstRefused(accepts, |p.outputs|, |NonEmpty(outputs)|);
  }

  /** Every frame that is forwarded: a last unfinished one only if the stream was finished. */
  function FramesIn(bytes: string, stop: Stop): seq<string> {
    var d := Split(bytes);
    if stop.Finished? && Trim(d.rest) != "" then d.frames + [d.rest] else d.frames
  }

  lemma {:induction false} TranslateAppend<S, E>(s: S, a: seq<string>, b: seq<string>, translate: Translator<S, E>)
    ensures var t := TranslateAll(s, a, translate);
            TranslateAll(s, a + b, translate)
            == if t.error.Some? then t
               else
                 var u := TranslateAll(t.state, b, translate);
                 Translated(u.state, t.outputs + u.outputs, u.error)
    decreases |a|
  {
    if a == [] {
      EmptyEnds(b);
      EmptyEnds(TranslateAll(s, b, translate).outputs);
    } else {
      AppendHead(a, b);
      var t := translate(s, a[0]);
      TranslateAppend(t.state, a[1..], b, translate);
      var u := TranslateAll(t.state, a[1..], translate);
      Regroup(NonEmpty(t.outputs), u.outputs, TranslateAll(u.state, b, translate).outputs);
    }
  }

  /** The failure of a progress that was reached from the start. */
  lemma FailureOf<S, E>(p: Progress<S, E>, q: Progress<S, E>, t: Translated<S, E>, accepts: nat -> bool)
    returns (k: nat)
    requires Emitted(p, q, t, accepts)
    ensures k <= |t.outputs| && (forall j: nat :: RefusesAt(accepts, |p.outputs|, j) && j <= |t.outputs| ==> j == k)
    ensures if k == |t.outputs| then AcceptsNext(accepts, |p.outputs|, k) else RefusesAt(accepts, |p.outputs|, k)
    ensures q.failure == if k < |t.outputs| then Some(Emission)
                         else if t.error.None? then None else Some(Translation(t.error.value))
    ensures k == |t.outputs| ==> q.state == t.state
    ensures q.outputs == p.outputs + t.outputs[..k]
  {
    k := FirstRefused(accepts, |p.outputs|, |t.outputs|);
    assert t.outputs[..|t.outputs|] == t.outputs;
  }

  /** What a host gets from any upstream, refusing what it likes: the outputs of the translator over the
      frames of the bytes, up to the one it refuses; and the ending tells which of a refusal, a
      translation error, a failed read, a reported error and the end of the stream came first. */
  lemma {:induction false} PumpEnds<S, E>(answers: seq<ReadResult>, n: nat, init: S, translate: Translator<S, E>,
                                          accepts: nat -> bool)
    requires StopsAt(answers, n)
    ensures var bytes, stop := BytesRead(answers, n), StopOf(answers, n);
            var first := TranslateAll(init, Split(bytes).frames, translate);
            var all := TranslateAll(init, FramesIn(bytes, stop), translate);
            var f := Drained(Progress(init, [], None), "", answers, translate, accepts);
            && (AcceptsNext(accepts, 0, |all.outputs|) ==>
                  && f.progress.state == all.state && f.progress.outputs == all.outputs
                  && f.ending == if all.error.None? then Closing(stop)
                                 else if first.error.Some? then FrameFailed(Translation(all.error.value))
                                 else LastFrameFailed(Translation(all.error.value)))
            && (forall k: nat :: k < |all.outputs| && RefusesAt(accepts, 0, k) ==>
                  && f.progress.outputs == all.outputs[..k]
                  && f.ending == if k < |first.outputs| then FrameFailed(Emission) else LastFrameFailed(Emission))
  {
    PumpIgnoresChunking(answers, n, answers, n, init, translate, accepts);
    WholeEnds(init, BytesRead(answers, n), StopOf(answers, n), translate, accepts);
  }

  lemma {:induction false} WholeEnds<S, E>(init: S, bytes: string, stop: Stop, translate: Translator<S, E>,
                                           accepts: nat -> bool)
    ensures var first := TranslateAll(init, Split(bytes).frames, translate);
            var all := TranslateAll(init, FramesIn(bytes, stop), translate);
            var f := Whole(Progress(init, [], None), bytes, stop, translate, accepts);
            && (AcceptsNext(accepts, 0, |all.outputs|) ==>
                  && f.progress.state == all.state && f.progress.outputs == all.outputs
                  && f.ending == if all.error.None? then Closing(stop)
                                 else if first.error.Some? then FrameFailed(Translation(all.error.value))
                                 else LastFrameFailed(Translation(all.error.value)))
            && (forall k: nat :: k < |all.outputs| && RefusesAt(accepts, 0, k) ==>
                  && f.progress.outputs == all.outputs[..k]
                  && f.ending == if k < |first.outputs| then FrameFailed(Emission) else LastFrameFailed(Emission))
  {
    var d := Split(bytes);
    var p := Progress<S, E>.Progress(init, [], None);
    var q := ForwardAll(p, d.frames, translate, accepts);
    var first := TranslateAll(init, d.frames, translate);
    ForwardAllEmits(p, d.frames, translate, accepts);
    var k := FailureOf(p, q, first, accepts);
    if FramesIn(bytes, stop) != d.frames {
      TranslateAppend(init, d.frames, [d.rest], translate);
      if q.failure.None? {
        var r := Forward(q, d.rest, translate, accepts);
        var u := TranslateAll(q.state, [d.rest], translate);
        assert r == ForwardAll(q, [d.rest], translate, accepts) by { NothingAfter(d.rest); }
        ForwardAllEmits(q, [d.rest], translate, accepts);
        EmittedThen(p, q, r, first, u, accepts);
        var all := Translated(u.state, first.outputs + u.outputs, u.error);
        var m := FailureOf(p, r, all, accepts);
      }
    }
  }
}
