/** Whole runs of one device login under concurrent callers. */
module DevicePolling {
  import opened Text
  import opened DeviceLogin

  // The client side of section 3.5 of RFC 8628. A caller reads the clock before it takes the lock, so
  // it may come with an old reading. The clock never goes back, and the session's name is not used twice.

  /** How a polling request ended, and when `finishPoll` recorded it. */
  datatype Ending = Ending(at: int, reply: Reply, userKnown: bool)

  /** A polling request: who made it, on which clock reading, when, and at which interval. */
  datatype Request = Request(caller: nat, reading: int, began: int, interval: int, ending: Option<Ending>)

  datatype Caller = Arrived(reading: int) | Asking(request: nat) | Returned(result: Result)

  datatype World = World(clock: int, session: Option<Session>, callers: map<nat, Caller>, requests: seq<Request>)

  datatype Action =
    | Tick(elapsed: nat)
    | Arrive(p: nat)                                  // read the clock
    | Enter(p: nat)                                   // the first lock region
    | Answer(p: nat, reply: Reply, userKnown: bool)   // the reply arrives; finishPoll
    | Shutdown

  /** What `StartLogin` is told. */
  datatype Login = Login(now: int, expiresIn: int, interval: int, timeout: int)

  /** The session is stored some time after the clock was read. */
  function Start(l: Login, delay: nat): World {
    World(l.now + delay, Some(NewSession(l.now, l.expiresIn, l.interval, l.timeout)), map[], [])
  }

  function ResultOf(v: Verdict): Result {
    if v.Waiting? then StillPending else LoginError
  }

  function Entered(w: World, p: nat, reading: int): World {
    var (s, v) := Begin(w.session, reading);
    if v.Poll? then
      w.(session := s, callers := w.callers[p := Asking(|w.requests|)],
         requests := w.requests + [Request(p, reading, w.clock, v.interval, None)])
    else w.(session := s, callers := w.callers[p := Returned(ResultOf(v))])
  }

  function Answered(w: World, p: nat, i: nat, reply: Reply, userKnown: bool): World
    requires i < |w.requests|
  {
    var o := OutcomeOf(reply, w.requests[i].interval, userKnown);
    w.(session := DeviceLogin.Finish(w.session, o.next, o.terminal, w.clock),
        callers := w.callers[p := Returned(o.result)],
       requests := w.requests[i := w.requests[i].(ending := Some(Ending(w.clock, reply, userKnown)))])
  }

  /** One atomic step; an action that does not apply does nothing. */
  function Step(w: World, a: Action): World {
    match a
    case Tick(elapsed) => w.(clock := w.clock + elapsed)
    case Arrive(p) => if p in w.callers then w else w.(callers := w.callers[p := Arrived(w.clock)])
    case Enter(p) => if p in w.callers && w.callers[p].Arrived? then Entered(w, p, w.callers[p].reading) else w
    case Answer(p, reply, userKnown) =>
      if p in w.callers && w.callers[p].Asking? && w.callers[p].request < |w.requests|
      then Answered(w, p, w.callers[p].request, reply, userKnown) else w
    case Shutdown => w.(session := None)
  }

  function Run(w: World, actions: seq<Action>): World
    decreases |actions|
  {
    if actions == [] then w else Run(Step(w, actions[0]), actions[1..])
  }

  // ---- What every reachable state satisfies ----

  function OutcomeAt(r: Request): Outcome
    requires r.ending.Some?
  {
    OutcomeOf(r.ending.value.reply, r.interval, r.ending.value.userKnown)
  }

  predicate Succeeded(r: Request) {
    r.ending.Some? && OutcomeAt(r).result == Success
  }

  predicate Sane(r: Request, expiresAt: int) {
    r.reading < expiresAt && r.reading <= r.began && (r.ending.Some? ==> r.began <= r.ending.value.at)
  }

  /** One request after another: the first had ended, left the session alive, and the interval it
      settled on has passed. */
  predicate Follows(r: Request, next: Request) {
    && r.ending.Some? && !EndsLogin(r.ending.value.reply)
    && Paces(r.ending.value.reply, r.interval, next.interval) && next.reading >= r.ending.value.at + next.interval
  }

  ghost predicate Chained(requests: seq<Request>, l: Login) {
    var s := NewSession(l.now, l.expiresIn, l.interval, l.timeout);
    && (forall i :: 0 <= i < |requests| ==> Sane(requests[i], s.expiresAt))
    && (forall i :: 0 <= i && i + 1 < |requests| ==> Follows(requests[i], requests[i + 1]))
    && (requests != [] ==> requests[0].interval == s.interval && requests[0].reading >= l.now)
  }

  /** The session in the map, against the last request. */
  predicate SessionOk(s: Session, requests: seq<Request>, l: Login) {
    var init := NewSession(l.now, l.expiresIn, l.interval, l.timeout);
    && s.expiresAt == init.expiresAt
    && (requests == [] ==> s == init)
    && (requests != [] ==>
          var last := requests[|requests| - 1];
          && (last.ending.None? <==> s.polling)
          && (last.ending.None? ==> s.interval == last.interval)
          && (last.ending.Some? ==> !OutcomeAt(last).terminal && s.interval == OutcomeAt(last).next
                                    && s.nextPoll == last.ending.value.at + s.interval))
  }

  predicate CallerOk(w: World, p: nat, c: Caller) {
    match c
    case Arrived(reading) => reading <= w.clock
    case Asking(i) => i == |w.requests| - 1 && w.requests[i].caller == p && w.requests[i].ending.None?
    case Returned(result) =>
      result == Success ==>
        w.requests != [] && w.requests[|w.requests| - 1].caller == p && Succeeded(w.requests[|w.requests| - 1])
  }

  ghost predicate Inv(w: World, l: Login) {
    && Chained(w.requests, l)
    && (forall i :: 0 <= i < |w.requests| ==> w.requests[i].began <= w.clock)
    && (w.session.Some? ==> SessionOk(w.session.value, w.requests, l))
    && (forall p :: p in w.callers ==> CallerOk(w, p, w.callers[p]))
  }

  lemma EnterKeeps(w: World, l: Login, p: nat, reading: int)
    requires Inv(w, l) && p in w.callers && w.callers[p] == Arrived(reading)
    ensures Inv(Entered(w, p, reading), l)
  {
    var t := Entered(w, p, reading);
    var v := Begin(w.session, reading).1;
    assert CallerOk(w, p, w.callers[p]);
    if v.Poll? {
      var n := |w.requests|;
      assert forall i :: 0 <= i < n ==> t.requests[i] == w.requests[i];
      if n > 0 {
        assert Follows(t.requests[n - 1], t.requests[n]);
      }
      forall q | q in t.callers ensures CallerOk(t, q, t.callers[q]) {
        assert q == p || CallerOk(w, q, w.callers[q]);
      }
    } else {
      forall q | q in t.callers ensures CallerOk(t, q, t.callers[q]) {
        assert q == p || CallerOk(w, q, w.callers[q]);
      }
    }
  }

  lemma AnswerKeeps(w: World, l: Login, p: nat, i: nat, reply: Reply, userKnown: bool)
    requires Inv(w, l) && p in w.callers && w.callers[p] == Asking(i)
    ensures i < |w.requests| && Inv(Answered(w, p, i, reply, userKnown), l)
  {
    assert CallerOk(w, p, w.callers[p]);
    var t := Answered(w, p, i, reply, userKnown);
    forall j | 0 <= j && j + 1 < |t.requests| ensures Follows(t.requests[j], t.requests[j + 1]) {
      assert Follows(w.requests[j], w.requests[j + 1]);
    }
    forall q | q in t.callers ensures CallerOk(t, q, t.callers[q]) {
      assert q == p || CallerOk(w, q, w.callers[q]);
    }
  }

  lemma StepKeeps(w: World, l: Login, a: Action)
    requires Inv(w, l)
    ensures Inv(Step(w, a), l)
  {
    match a
    case Enter(p) =>
      if p in w.callers && w.callers[p].Arrived? {
        EnterKeeps(w, l, p, w.callers[p].reading);
      }
    case Answer(p, reply, userKnown) =>
      if p in w.callers && w.callers[p].Asking? {
        AnswerKeeps(w, l, p, w.callers[p].request, reply, userKnown);
      }
    case _ =>
      var t := Step(w, a);
      forall q | q in t.callers ensures CallerOk(t, q, t.callers[q]) {
        assert q !in w.callers || CallerOk(w, q, w.callers[q]);
      }
  }

  lemma {:induction false} RunKeeps(w: World, l: Login, actions: seq<Action>)
    requires Inv(w, l)
    ensures Inv(Run(w, actions), l)
    decreases |actions|
  {
    if actions != [] {
      StepKeeps(w, l, actions[0]);
      RunKeeps(Step(w, actions[0]), l, actions[1..]);
    }
  }

  // ---- The protocol, whatever the interval ----

  /** For every run with concurrent callers: at most one request is outstanding; each request begins,
      by its own reading, before expiry and no sooner than the interval in force after the one before
      it ended; none follows an answer that ends the login, which ends the session; and at most one caller
      is told of success. */
  lemma {:induction false} PollingProtocol(l: Login, delay: nat, actions: seq<Action>)
    ensures var w := Run(Start(l, delay), actions);
            && (forall i, j ::
                  (0 <= i < |w.requests| && 0 <= j < |w.requests|
                   && w.requests[i].ending.None? && w.requests[j].ending.None?) ==> i == j)
            && (forall p :: p in w.callers && w.callers[p].Asking? ==>
                  w.callers[p].request == |w.requests| - 1 && w.requests[|w.requests| - 1].ending.None?)
            && (forall i :: 0 <= i < |w.requests| ==>
                  w.requests[i].reading < NewSession(l.now, l.expiresIn, l.interval, l.timeout).expiresAt)
            && (forall i :: 0 <= i < |w.requests| ==> w.requests[i].began >= w.requests[i].reading)
            && (forall i :: 0 <= i && i + 1 < |w.requests| ==> Follows(w.requests[i], w.requests[i + 1]))
            && (forall i ::
                  (0 <= i < |w.requests| && w.requests[i].ending.Some?
                   && EndsLogin(w.requests[i].ending.value.reply)) ==> i == |w.requests| - 1 && w.session.None?)
            && (forall p, q ::
                  p in w.callers && q in w.callers && w.callers[p] == w.callers[q] == Returned(Success) ==> p == q)
  {
    RunKeeps(Start(l, delay), l, actions);
    var w := Run(Start(l, delay), actions);
    forall i | 0 <= i < |w.requests| - 1
      ensures w.requests[i].ending.Some? && !EndsLogin(w.requests[i].ending.value.reply)
    {
      assert Follows(w.requests[i], w.requests[i + 1]);
    }
    forall p | p in w.callers ensures CallerOk(w, p, w.callers[p]) {
    }
  }

  // ---- The bounds ----

  /** The device's interval, as stored, is at least five seconds and can take one more slow_down. */
  predicate Moderate(interval: int) {
    5 * SECOND <= InitialInterval(interval) <= MAX_INT64 - 5 * SECOND
  }

  function SlowDowns(requests: seq<Request>): nat {
    if requests == [] then 0
    else SlowDowns(requests[..|requests| - 1])
         + if requests[|requests| - 1].ending.Some?
             && AsksToSlowDown(requests[|requests| - 1].ending.value.reply) then 1 else 0
  }

  /** A settled interval never shrinks, and slow_down adds at least five seconds, unless it overflows. */
  lemma IntervalGrows(reply: Reply, current: int, next: int)
    requires 0 <= current <= MAX_INT64 - 5 * SECOND && Paces(reply, current, next)
    ensures next >= current + if AsksToSlowDown(reply) then 5 * SECOND else 0
    ensures !AsksToSlowDown(reply) ==> next == current
  {
  }

  /** Twice the seconds between the first request and one before which there were this many slow_downs. */
  function Slowness(slow: nat): nat {
    5 * slow * (slow + 3)
  }

  lemma OneSlower(slow: nat)
    ensures Slowness(slow + 1) == Slowness(slow) + 10 * (slow + 2)
  {
  }

  /** What is known of the last request: its interval and its reading, against the slow_downs before. */
  predicate Paced(last: Request, slow: nat, count: nat, l: Login) {
    && 5 * (slow + 1) * SECOND <= last.interval <= MAX_INT64 - 5 * SECOND
    && last.reading - l.now >= 5 * (count - 1) * SECOND
    && 2 * (last.reading - l.now) >= Slowness(slow) * SECOND
  }

  lemma PacedNext(r: Request, next: Request, slow: nat, count: nat, l: Login)
    requires Paced(r, slow, count, l) && Follows(r, next) && count >= 1
    requires r.reading <= r.began <= r.ending.value.at
    requires l.now <= r.reading && next.reading - l.now < 1800 * SECOND
    ensures Paced(next, slow + if AsksToSlowDown(r.ending.value.reply) then 1 else 0, count + 1, l)
  {
    IntervalGrows(r.ending.value.reply, r.interval, next.interval);
    OneSlower(slow);
    var wait := next.interval;
    var more := if AsksToSlowDown(r.ending.value.reply) then 1 else 0;
    assert next.reading >= r.reading + wait;
    assert wait >= 5 * (slow + 1 + more) * SECOND;
    assert wait < 1800 * SECOND;
    var (reading, was, before, after) := (next.reading - l.now, r.reading - l.now, Slowness(slow),
        Slowness(slow + more));
    Pacing(was, reading, wait, before, after, slow + more);
  }

  lemma Pacing(was: int, reading: int, wait: int, before: int, after: int, slow: nat)
    requires reading >= was + wait && 2 * was >= before * SECOND && wait >= 5 * (slow + 1) * SECOND
    requires after == before || after == before + 10 * (slow + 1)
    requires before >= 0
    ensures 2 * reading >= after * SECOND
  {
  }

  lemma ChainedFront(requests: seq<Request>, l: Login)
    requires |requests| > 1 && Chained(requests, l)
    ensures Chained(requests[..|requests| - 1], l)
  {
    var front := requests[..|requests| - 1];
    forall i | 0 <= i && i + 1 < |front| ensures Follows(front[i], front[i + 1]) {
      assert Follows(requests[i], requests[i + 1]);
    }
  }

  lemma {:induction false} AllPaced(requests: seq<Request>, l: Login)
    requires requests != [] && Chained(requests, l) && Moderate(l.interval) && 60 <= l.timeout <= 1800
    ensures Paced(requests[|requests| - 1], SlowDowns(requests[..|requests| - 1]), |requests|, l)
    decreases |requests|
  {
    LifetimeBounds(l.expiresIn, l.timeout);
    var n := |requests|;
    if n > 1 {
      var front := requests[..n - 1];
      ChainedFront(requests, l);
      AllPaced(front, l);
      assert Follows(requests[n - 2], requests[n - 1]);
      assert Sane(requests[n - 2], NewSession(l.now, l.expiresIn, l.interval, l.timeout).expiresAt);
      assert Sane(requests[n - 1], NewSession(l.now, l.expiresIn, l.interval, l.timeout).expiresAt);
      PacedNext(requests[n - 2], requests[n - 1], SlowDowns(front[..n - 2]), n - 1, l);
    }
  }

  lemma {:induction false} PacedAt(requests: seq<Request>, l: Login, i: nat)
    requires i < |requests| && Chained(requests, l) && Moderate(l.interval) && 60 <= l.timeout <= 1800
    ensures 5 * SECOND <= requests[i].interval <= MAX_INT64 - 5 * SECOND
    decreases |requests|
  {
    AllPaced(requests, l);
    if i < |requests| - 1 {
      ChainedFront(requests, l);
      PacedAt(requests[..|requests| - 1], l, i);
    }
  }

  /** For every run of a login of L seconds: at most ceil(L/5) requests; s slow_down answers satisfy
      5(s-1)(s+2) < 2L; so never more than 360 requests or 26 slow_downs. */
  lemma {:induction false} PollingBounds(l: Login, delay: nat, actions: seq<Action>)
    requires Moderate(l.interval) && 60 <= l.timeout <= 1800
    ensures var lifetime := Lifetime(l.expiresIn, l.timeout);
            var n, s := |Run(Start(l, delay), actions).requests|, SlowDowns(Run(Start(l, delay), actions).requests);
            && n <= (lifetime + 4) / 5 && n <= 360
            && 5 * (s - 1) * (s + 2) < 2 * lifetime && s <= 26
  {
    RunKeeps(Start(l, delay), l, actions);
    LifetimeBounds(l.expiresIn, l.timeout);
    var requests := Run(Start(l, delay), actions).requests;
    if requests != [] {
      var last := requests[|requests| - 1];
      var slow := SlowDowns(requests[..|requests| - 1]);
      AllPaced(requests, l);
      assert Sane(last, NewSession(l.now, l.expiresIn, l.interval, l.timeout).expiresAt);
      SlownessBound(slow, SlowDowns(requests), Lifetime(l.expiresIn, l.timeout));
    }
  }

  lemma SlownessBound(slow: nat, s: nat, lifetime: int)
    requires s == slow || s == slow + 1
    requires Slowness(slow) < 2 * lifetime <= 3600
    ensures 5 * (s - 1) * (s + 2) < 2 * lifetime && s <= 26
  {
    assert s == slow + 1 ==> 5 * (s - 1) * (s + 2) == Slowness(slow);
    assert s == slow ==> 5 * (s - 1) * (s + 2) == Slowness(slow) - 10 * slow - 10;
    assert s >= 27 ==> (s - 1) * (s + 2) >= 26 * 29;
  }

  /** No interval in force is below five seconds. */
  ghost predicate Steady(w: World) {
    && (w.session.Some? ==> w.session.value.interval >= 5 * SECOND)
    && forall i :: 0 <= i < |w.requests| ==> w.requests[i].interval >= 5 * SECOND
  }

  lemma {:induction false} ModerateIsSteady(l: Login, delay: nat, actions: seq<Action>)
    requires Moderate(l.interval) && 60 <= l.timeout <= 1800
    ensures var w := Run(Start(l, delay), actions);
            && Steady(w)
            && forall i :: 0 <= i && i + 1 < |w.requests| ==> Lengthens(w.requests[i], w.requests[i + 1])
  {
    RunKeeps(Start(l, delay), l, actions);
    var w := Run(Start(l, delay), actions);
    forall i | 0 <= i < |w.requests| ensures 5 * SECOND <= w.requests[i].interval <= MAX_INT64 - 5 * SECOND {
      PacedAt(w.requests, l, i);
    }
    forall i | 0 <= i && i + 1 < |w.requests| ensures Lengthens(w.requests[i], w.requests[i + 1]) {
      assert Follows(w.requests[i], w.requests[i + 1]);
      IntervalGrows(w.requests[i].ending.value.reply, w.requests[i].interval, w.requests[i + 1].interval);
    }
    if w.requests != [] && w.requests[|w.requests| - 1].ending.Some? {
      var last := w.requests[|w.requests| - 1];
      IntervalGrows(last.ending.value.reply, last.interval, OutcomeAt(last).next);
    }
  }

  /** The interval never shrinks from one request to the next, and a slow_down adds five seconds. */
  predicate Lengthens(r: Request, next: Request) {
    r.ending.Some? && next.interval >= r.interval + if AsksToSlowDown(r.ending.value.reply) then 5 * SECOND else 0
  }

  /** The run that breaks it: the first request is answered with slow_down. */
  const SLOWED_ONCE: seq<Action> := [Arrive(0), Enter(0), Answer(0, Reply(200, false, SlowDown, 0), true)]

  lemma {:induction false} ImmoderateIsUnsteady(l: Login)
    requires !Moderate(l.interval) && 60 <= l.timeout <= 1800
    ensures !Steady(Run(Start(l, 0), [])) || !Steady(Run(Start(l, 0), SLOWED_ONCE))
  {
    LifetimeBounds(l.expiresIn, l.timeout);
    var w := Start(l, 0);
    if Steady(w) {
      var a := SLOWED_ONCE;
      assert a[1..] == [a[1], a[2]] && a[1..][1..] == [a[2]] && a[1..][1..][1..] == [];
      var w2 := Step(Step(w, a[0]), a[1]);
      assert w2.requests == [Request(0, l.now, l.now, InitialInterval(l.interval), None)];
      assert w2.callers[0] == Asking(0);
      var w3 := Step(w2, a[2]);
      assert w3.session.value.interval == Wrap64(InitialInterval(l.interval) + 5 * SECOND);
      assert Run(w, a) == w3;
    }
  }

  /** Five seconds between requests is guaranteed exactly for a moderate device interval: seconds are
      turned into 64-bit nanoseconds without a check, and slow_down adds to them without one. */
  lemma {:induction false} SteadyIffModerate(l: Login)
    requires 60 <= l.timeout <= 1800
    ensures (forall delay: nat, actions: seq<Action> :: Steady(Run(Start(l, delay), actions))) <==> Moderate(l.interval)
  {
    if Moderate(l.interval) {
      forall delay: nat, actions: seq<Action> ensures Steady(Run(Start(l, delay), actions)) {
        ModerateIsSteady(l, delay, actions);
      }
    } else {
      ImmoderateIsUnsteady(l);
    }
  }

  // ---- Beyond that, there is no bound at all ----

  /** The session can be polled at once, and will be again. */
  ghost predicate Loose(w: World, k: nat) {
    && w.session.Some? && !w.session.value.polling && w.session.value.interval <= 0
    && w.session.value.nextPoll <= w.clock < w.session.value.expiresAt
    && forall p :: p in w.callers ==> p < k
  }

  /** One caller's request, answered at once. */
  function Round(k: nat, word: Word): seq<Action> {
    [Arrive(k), Enter(k), Answer(k, Reply(200, false, word, 0), true)]
  }

  lemma {:induction false} RunRound(w: World, k: nat, word: Word, rest: seq<Action>) returns (t: World)
    requires w.session.Some? && !w.session.value.polling && k !in w.callers
    requires w.session.value.nextPoll <= w.clock < w.session.value.expiresAt
    ensures t == Step(Step(Step(w, Round(k, word)[0]), Round(k, word)[1]), Round(k, word)[2])
    ensures Run(w, Round(k, word) + rest) == Run(t, rest)
    ensures t.clock == w.clock && t.callers.Keys == w.callers.Keys + {k} && |t.requests| == |w.requests| + 1
    ensures var next := OutcomeOf(Reply(200, false, word, 0), w.session.value.interval, true);
            t.session == DeviceLogin.Finish(Some(w.session.value.(polling := true)), next.next, next.terminal, w.clock)
  {
    var a, b, c := Arrive(k), Enter(k), Answer(k, Reply(200, false, word, 0), true);
    var x := Step(w, a);
    var y := Step(x, b);
    assert y.requests == w.requests + [Request(k, w.clock, w.clock, w.session.value.interval, None)];
    assert y.callers[k] == Asking(|w.requests|);
    t := Step(y, c);
    RunFirst(w, a, [b, c] + rest);
    RunFirst(x, b, [c] + rest);
    RunFirst(y, c, rest);
    assert [a] + ([b, c] + rest) == Round(k, word) + rest;
    assert [b] + ([c] + rest) == [b, c] + rest;
  }

  lemma {:induction false} RunFirst(w: World, a: Action, rest: seq<Action>)
    ensures Run(w, [a] + rest) == Run(Step(w, a), rest)
  {
    assert ([a] + rest)[1..] == rest;
  }

  lemma {:induction false} LooseRounds(w: World, k: nat, n: nat) returns (actions: seq<Action>)
    requires Loose(w, k)
    ensures |Run(w, actions).requests| == |w.requests| + n
    decreases n
  {
    if n == 0 {
      actions := [];
    } else {
      var t := RunRound(w, k, AuthorizationPending, []);
      var rest := LooseRounds(t, k + 1, n - 1);
      actions := Round(k, AuthorizationPending) + rest;
      t := RunRound(w, k, AuthorizationPending, rest);
    }
  }

  /** Once a stored interval is zero or negative, which overflow makes it, there are runs with any
      number of requests in one second. */
  lemma {:induction false} OverflowUnbounded(l: Login, n: nat) returns (actions: seq<Action>)
    requires InitialInterval(l.interval) <= 0 || InitialInterval(l.interval) > MAX_INT64 - 5 * SECOND
    requires 60 <= l.timeout <= 1800
    ensures |Run(Start(l, 0), actions).requests| >= n
  {
    LifetimeBounds(l.expiresIn, l.timeout);
    var w := Start(l, 0);
    if InitialInterval(l.interval) <= 0 {
      actions := LooseRounds(w, 0, n);
    } else {
      var t := RunRound(w, 0, SlowDown, []);
      var rest := LooseRounds(t, 1, n);
      actions := Round(0, SlowDown) + rest;
      t := RunRound(w, 0, SlowDown, rest);
    }
  }

  // ---- The exact bounds ----

  /** What is known of the n-th request: its interval, and its reading after n - 1 of the initial ones. */
  predicate Spaced(last: Request, n: nat, step: int, l: Login) {
    step <= last.interval <= MAX_INT64 - 5 * SECOND && last.reading - l.now >= (n - 1) * step
  }

  lemma SpacedNext(r: Request, next: Request, n: nat, step: int, l: Login)
    requires Spaced(r, n, step, l) && step > 0 && Follows(r, next)
    requires r.reading <= r.began <= r.ending.value.at && l.now <= r.reading && next.reading - l.now < 1800 * SECOND
    ensures Spaced(next, n + 1, step, l)
  {
    IntervalGrows(r.ending.value.reply, r.interval, next.interval);
    OneMore(n - 1, step, r.reading - l.now, next.reading - l.now);
  }

  /** Until overflow, requests are at least the initial interval apart. */
  lemma {:induction false} AllSpaced(requests: seq<Request>, l: Login)
    requires requests != [] && Chained(requests, l) && 60 <= l.timeout <= 1800
    requires 0 < InitialInterval(l.interval) <= MAX_INT64 - 5 * SECOND
    ensures Spaced(requests[|requests| - 1], |requests|, InitialInterval(l.interval), l)
    decreases |requests|
  {
    LifetimeBounds(l.expiresIn, l.timeout);
    var n := |requests|;
    if n > 1 {
      ChainedFront(requests, l);
      AllSpaced(requests[..n - 1], l);
      var r, next := requests[n - 2], requests[n - 1];
      var expiresAt := NewSession(l.now, l.expiresIn, l.interval, l.timeout).expiresAt;
      assert Follows(r, next) && Sane(r, expiresAt) && Sane(next, expiresAt);
      NotNegative(n - 2, InitialInterval(l.interval));
      SpacedNext(r, next, n - 1, InitialInterval(l.interval), l);
    }
  }

  lemma NotNegative(n: nat, step: int)
    requires step > 0
    ensures n * step >= 0
  {
  }

  lemma OneMore(n: int, step: int, was: int, now: int)
    requires was >= n * step && now >= was + step
    ensures now >= (n + 1) * step
  {
  }

  /** A run of one request per interval: n of them, the last after n - 1 intervals. */
  lemma {:induction false} SteadyRounds(w: World, k: nat, n: nat, step: nat) returns (actions: seq<Action>)
    requires w.session.Some? && !w.session.value.polling && w.session.value.interval == step
    requires w.session.value.nextPoll <= w.clock && forall p :: p in w.callers ==> p < k
    requires n > 0 && w.clock + (n - 1) * step < w.session.value.expiresAt
    ensures |Run(w, actions).requests| == |w.requests| + n
    decreases n
  {
    assert (n - 1) * step >= 0;
    var t := RunRound(w, k, AuthorizationPending, []);
    if n == 1 {
      actions := Round(k, AuthorizationPending);
      EmptyEnds(actions);
    } else {
      assert (n - 1) * step == (n - 2) * step + step;
      var u := Step(t, Tick(step));
      var rest := SteadyRounds(u, k + 1, n - 1, step);
      RunFirst(t, Tick(step), rest);
      actions := Round(k, AuthorizationPending) + ([Tick(step)] + rest);
      t := RunRound(w, k, AuthorizationPending, [Tick(step)] + rest);
    }
  }

  /** Exactly how many requests one login can make: n bounds all its runs if and only if the stored
      interval is positive, leaves room for a slow_down, and n intervals cover the lifetime. */
  lemma {:induction false} ExactRequestBound(l: Login, n: nat)
    requires 60 <= l.timeout <= 1800
    ensures (forall delay: nat, actions: seq<Action> :: |Run(Start(l, delay), actions).requests| <= n)
            <==> 0 < InitialInterval(l.interval) <= MAX_INT64 - 5 * SECOND
                 && n * InitialInterval(l.interval) >= Lifetime(l.expiresIn, l.timeout) * SECOND
  {
    LifetimeBounds(l.expiresIn, l.timeout);
    var step := InitialInterval(l.interval);
    if !(0 < step <= MAX_INT64 - 5 * SECOND) {
      var actions := OverflowUnbounded(l, n + 1);
      assert |Run(Start(l, 0), actions).requests| > n;
    } else if n * step < Lifetime(l.expiresIn, l.timeout) * SECOND {
      var actions := SteadyRounds(Start(l, 0), 0, n + 1, step);
      assert |Run(Start(l, 0), actions).requests| > n;
    } else {
      forall delay: nat, actions: seq<Action> ensures |Run(Start(l, delay), actions).requests| <= n {
        CoveredBound(l, n, delay, actions);
      }
    }
  }

  lemma {:induction false} CoveredBound(l: Login, n: nat, delay: nat, actions: seq<Action>)
    requires 60 <= l.timeout <= 1800 && 0 < InitialInterval(l.interval) <= MAX_INT64 - 5 * SECOND
    requires n * InitialInterval(l.interval) >= Lifetime(l.expiresIn, l.timeout) * SECOND
    ensures |Run(Start(l, delay), actions).requests| <= n
  {
    RunKeeps(Start(l, delay), l, actions);
    LifetimeBounds(l.expiresIn, l.timeout);
    var requests := Run(Start(l, delay), actions).requests;
    if requests != [] {
      AllSpaced(requests, l);
      assert Sane(requests[|requests| - 1], NewSession(l.now, l.expiresIn, l.interval, l.timeout).expiresAt);
      Fewer(|requests| - 1, n, InitialInterval(l.interval));
    }
  }

  lemma Fewer(a: int, b: int, step: int)
    requires step > 0 && a * step < b * step
    ensures a < b
  {
  }

  /** A login's request count stays within ceil(L/5), whatever lifetime L the device grants, exactly for
      a moderate device interval. */
  lemma {:induction false} RequestBoundIffModerate(now: int, interval: int, timeout: int)
    requires 60 <= timeout <= 1800
    ensures (forall expiresIn: int, delay: nat, actions: seq<Action> ::
               |Run(Start(Login(now, expiresIn, interval, timeout), delay), actions).requests|
               <= (Lifetime(expiresIn, timeout) + 4) / 5)
            <==> Moderate(interval)
  {
    if Moderate(interval) {
      forall expiresIn: int, delay: nat, actions: seq<Action>
        ensures |Run(Start(Login(now, expiresIn, interval, timeout), delay), actions).requests|
                <= (Lifetime(expiresIn, timeout) + 4) / 5
      {
        PollingBounds(Login(now, expiresIn, interval, timeout), delay, actions);
      }
    } else {
      // Five seconds hold two requests.
      var l := Login(now, 5, interval, timeout);
      ExactRequestBound(l, 1);
      var delay, actions :| |Run(Start(l, delay), actions).requests| > 1;
      assert |Run(Start(Login(now, 5, interval, timeout), delay), actions).requests| > (Lifetime(5, timeout) + 4) / 5;
    }
  }

  lemma {:induction false} TwoSlowDowns(l: Login) returns (actions: seq<Action>)
    requires l.expiresIn == 10 && 60 <= l.timeout <= 1800 && !Moderate(l.interval)
    ensures SlowDowns(Run(Start(l, 0), actions).requests) >= 2
  {
    var w := Start(l, 0);
    var next := Wrap64(InitialInterval(l.interval) + 5 * SECOND);
    var wait := if next > 0 then next else 0;
    var t := RunRound(w, 0, SlowDown, []);
    var u := Step(t, Tick(wait));
    var v := RunRound(u, 1, SlowDown, []);
    actions := Round(0, SlowDown) + ([Tick(wait)] + Round(1, SlowDown));
    t := RunRound(w, 0, SlowDown, [Tick(wait)] + Round(1, SlowDown));
    RunFirst(t, Tick(wait), Round(1, SlowDown));
    EmptyEnds(Round(1, SlowDown));
    assert Run(v, []) == v;
    assert v.requests[..2] == v.requests && v.requests[..1][..0] == [];
    assert SlowDowns(v.requests[..1]) == 1;
  }

  /** And so do the slow_down answers within 5(s-1)(s+2) < 2L. */
  lemma {:induction false} SlowDownBoundIffModerate(now: int, interval: int, timeout: int)
    requires 60 <= timeout <= 1800
    ensures (forall expiresIn: int, delay: nat, actions: seq<Action> ::
               SlowDownsFit(Run(Start(Login(now, expiresIn, interval, timeout), delay), actions).requests,
                            Lifetime(expiresIn, timeout)))
            <==> Moderate(interval)
  {
    if Moderate(interval) {
      forall expiresIn: int, delay: nat, actions: seq<Action>
        ensures SlowDownsFit(Run(Start(Login(now, expiresIn, interval, timeout), delay), actions).requests,
                             Lifetime(expiresIn, timeout))
      {
        PollingBounds(Login(now, expiresIn, interval, timeout), delay, actions);
      }
    } else {
      // Ten seconds hold two slow_downs.
      var l := Login(now, 10, interval, timeout);
      var actions := TwoSlowDowns(l);
      var s := SlowDowns(Run(Start(l, 0), actions).requests);
      assert (s - 1) * (s + 2) >= 4;
      assert !SlowDownsFit(Run(Start(Login(now, 10, interval, timeout), 0), actions).requests, Lifetime(10, timeout));
    }
  }

  predicate SlowDownsFit(requests: seq<Request>, lifetime: int) {
    5 * (SlowDowns(requests) - 1) * (SlowDowns(requests) + 2) < 2 * lifetime
  }

  /** Every device interval that a 64-bit count of nanoseconds can hold, with room for one slow_down. */
  lemma OrdinaryIntervalsAreModerate(interval: int)
    requires interval <= 9_223_372_031
    ensures Moderate(interval)
  {
  }
}
