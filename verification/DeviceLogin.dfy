/** internal/provider/oauth.go: one GitHub device login. Times and durations are nanoseconds. */
module DeviceLogin {
  import opened Text

  const SECOND := 1_000_000_000
  const MAX_INT64 := 0x7fff_ffff_ffff_ffff

  /** What a 64-bit signed integer keeps of a result. */
  function Wrap64(n: int): (w: int)
    ensures -MAX_INT64 - 1 <= w <= MAX_INT64
    ensures -MAX_INT64 - 1 <= n <= MAX_INT64 ==> w == n
  {
    (n + MAX_INT64 + 1) % (2 * (MAX_INT64 + 1)) - MAX_INT64 - 1
  }

  /** `time.Duration(n) * time.Second`. */
  function Seconds(n: int): int {
    Wrap64(n * SECOND)
  }

  datatype Session = Session(expiresAt: int, interval: int, nextPoll: int, polling: bool)

  /** `StartLogin`: the lifetime in seconds, from the device response and the configured timeout. */
  function Lifetime(expiresIn: int, timeout: int): int {
    var wanted := if expiresIn <= 0 then timeout else expiresIn;
    if wanted > timeout then timeout else wanted
  }

  function InitialInterval(interval: int): int {
    Seconds(if interval < 5 then 5 else interval)
  }

  function NewSession(now: int, expiresIn: int, interval: int, timeout: int): Session {
    Session(now + Seconds(Lifetime(expiresIn, timeout)), InitialInterval(interval), now, false)
  }

  // ---- Polling ----

  datatype Verdict = Unknown | Expired | Waiting | Poll(interval: int)

  /** The first lock region of `PollLogin`; None is a session that is not in the map. */
  function Begin(s: Option<Session>, now: int): (Option<Session>, Verdict) {
    if s.None? then (None, Unknown)
    else if now >= s.value.expiresAt then (None, Expired)
    else if s.value.polling || now < s.value.nextPoll then (s, Waiting)
    else (Some(s.value.(polling := true)), Poll(s.value.interval))
  }

  /** `finishPoll`. */
  function Finish(s: Option<Session>, interval: int, terminal: bool, now: int): Option<Session> {
    if s.None? || terminal then None
    else Some(s.value.(polling := false, interval := interval, nextPoll := now + interval))
  }

  /** GitHub's error words: `Fatal` stands for the six that end the flow. */
  datatype Word = AuthorizationPending | SlowDown | Fatal | OtherWord

  /** The token endpoint's answer, or none that can be read. */
  datatype Reply = Broken | Reply(status: int, hasToken: bool, word: Word, interval: int)

  datatype Decision = Pending(next: int) | Failing(terminal: bool) | Succeeded

  /** `classifyDeviceToken`. */
  function Classify(status: int, hasToken: bool, word: Word, interval: int, current: int): Decision {
    if hasToken && 200 <= status < 300 then Succeeded
    else
      match word
      case AuthorizationPending => Pending(current)
      case SlowDown =>
        var next := Wrap64(current + 5 * SECOND);
        Pending(if interval > 0 && Seconds(interval) > next then Seconds(interval) else next)
      case Fatal => Failing(true)
      case OtherWord => Failing(400 <= status < 500)
  }

  datatype Result = Failed | StillPending | LoginError | Success

  /** How a polling request ends: what `finishPoll` is given, and what the caller gets. */
  datatype Outcome = Outcome(next: int, terminal: bool, result: Result)

  /** The user has authorised the login: a token came with a 2xx status. */
  predicate Authorised(reply: Reply) {
    reply.Reply? && reply.hasToken && 200 <= reply.status < 300
  }

  /** Otherwise the reply's word counts. */
  predicate Says(reply: Reply, word: Word) {
    reply.Reply? && !Authorised(reply) && reply.word == word
  }

  /** The replies that end the login: authorised, one of the six fatal words, or any word but the two
      pending ones with a 4xx status. */
  predicate EndsLogin(reply: Reply) {
    Authorised(reply) || Says(reply, Fatal) || (Says(reply, OtherWord) && 400 <= reply.status < 500)
  }

  /** What the caller is told. */
  predicate Tells(reply: Reply, userKnown: bool, result: Result) {
    && (result == Success <==> Authorised(reply) && userKnown)
    && (result == Failed <==> reply.Broken? || (Authorised(reply) && !userKnown))
    && (result == StillPending <==> Says(reply, AuthorizationPending) || Says(reply, SlowDown))
    && (result == LoginError <==> Says(reply, Fatal) || Says(reply, OtherWord))
  }

  /** The interval after a reply: five seconds more, or what the device asks for if that is longer, after
      slow_down; the same after any other. */
  predicate Paces(reply: Reply, current: int, next: int) {
    if !Says(reply, SlowDown) then next == current
    else
      var slower := Wrap64(current + 5 * SECOND);
      next == if reply.interval > 0 && Seconds(reply.interval) > slower then Seconds(reply.interval) else slower
  }

  /** The rest of `PollLogin`; `userKnown` says whether the GitHub user and the auth data came through. */
  function OutcomeOf(reply: Reply, current: int, userKnown: bool): (o: Outcome)
    ensures Tells(reply, userKnown, o.result) && Paces(reply, current, o.next)
    ensures o.terminal <==> EndsLogin(reply)
  {
    match reply
    case Broken => Outcome(current, false, Failed)
    case Reply(status, hasToken, word, interval) =>
      match Classify(status, hasToken, word, interval, current)
      case Pending(next) => Outcome(next, false, StillPending)
      case Failing(terminal) => Outcome(current, terminal, LoginError)
      case Succeeded => Outcome(current, true, if userKnown then Success else Failed)
  }

  /** The answer that asks for slower polling. */
  predicate AsksToSlowDown(reply: Reply) {
    Says(reply, SlowDown)
  }

  /** A login lives between one second and the configured timeout: as long as the device said, or the timeout
      if the device said nothing or more. */
  lemma LifetimeBounds(expiresIn: int, timeout: int)
    requires 60 <= timeout <= 1800
    ensures 1 <= Lifetime(expiresIn, timeout) <= timeout
    ensures Lifetime(expiresIn, timeout) == timeout <==> expiresIn <= 0 || timeout <= expiresIn
    ensures Lifetime(expiresIn, timeout) < timeout ==> Lifetime(expiresIn, timeout) == expiresIn
    ensures Seconds(Lifetime(expiresIn, timeout)) == Lifetime(expiresIn, timeout) * SECOND
  {
  }

  /** A new session may be polled at once, and then every five seconds, or as seldom as the device asks if that
      is longer and its nanoseconds fit into 64 bits. */
  lemma FirstInterval(now: int, expiresIn: int, interval: int, timeout: int)
    requires interval <= 9223372036
    ensures var s := NewSession(now, expiresIn, interval, timeout);
            && s.nextPoll == now && !s.polling
            && 5 * SECOND <= s.interval && interval * SECOND <= s.interval
            && (s.interval == 5 * SECOND || s.interval == interval * SECOND)
  {
  }

  // ---- The session map ----

  class DeviceSession {
    var expiresAt: int
    var interval: int
    var nextPoll: int
    var polling: bool

    constructor (s: Session)
      ensures Value() == s
    {
      expiresAt, interval, nextPoll, polling := s.expiresAt, s.interval, s.nextPoll, s.polling;
    }

    function Value(): Session
      reads this
    {
      Session(expiresAt, interval, nextPoll, polling)
    }
  }

  class LoginSessions {
    var sessions: map<string, DeviceSession>

    ghost predicate Valid()
      reads this
    {
      forall a, b :: a in sessions && b in sessions && sessions[a] == sessions[b] ==> a == b
    }

    ghost function Footprint(): set<object>
      reads this
    {
      set k | k in sessions :: sessions[k]
    }

    function At(state: string): Option<Session>
      reads this, if state in sessions then {sessions[state]} else {}
    {
      if state in sessions then Some(sessions[state].Value()) else None
    }

    constructor ()
      ensures Valid() && sessions == map[]
    {
      sessions := map[];
    }

    /** The end of `StartLogin`, under a name not used before. */
    method Add(state: string, now: int, expiresIn: int, interval: int, timeout: int)
      requires Valid() && state !in sessions
      modifies this
      ensures Valid() && At(state) == Some(NewSession(now, expiresIn, interval, timeout))
      ensures forall other :: other != state ==> At(other) == old(At(other))
    {
      var s := new DeviceSession(NewSession(now, expiresIn, interval, timeout));
      sessions := sessions[state := s];
    }

    method BeginPoll(state: string, now: int) returns (v: Verdict)
      requires Valid()
      modifies this, Footprint()
      ensures Valid() && (At(state), v) == Begin(old(At(state)), now)
      ensures forall other :: other != state ==> At(other) == old(At(other))
    {
      if state !in sessions {
        return Unknown;
      }
      var session := sessions[state];
      if now >= session.expiresAt {
        sessions := sessions - {state};
        return Expired;
      }
      if session.polling || now < session.nextPoll {
        return Waiting;
      }
      session.polling := true;
      return Poll(session.interval);
    }

    method FinishPoll(state: string, interval: int, terminal: bool, now: int)
      requires Valid()
      modifies this, Footprint()
      ensures Valid() && At(state) == Finish(old(At(state)), interval, terminal, now)
      ensures forall other :: other != state ==> At(other) == old(At(other))
    {
      if state !in sessions {
        return;
      }
      if terminal {
        sessions := sessions - {state};
        return;
      }
      var session := sessions[state];
      session.polling := false;
      session.interval := interval;
      session.nextPoll := now + interval;
    }

    /** `Shutdown`. */
    method Clear()
      modifies this
      ensures Valid() && forall state :: At(state) == None
    {
      sessions := map[];
    }
  }
}
