/** Every interleaving of requests over the token cache. */
module TokenProtocol {
  import opened Text
  import opened TokenCache

  // internal/provider/token.go, with the 401 retries of executor.go and `Shutdown` of service.go. A
  // request reads the clock and the configuration before it takes the lock, so the values it brings
  // are arbitrary; exchanges end when and how they like; a follower may give up at any time.

  /** How a request came by its answer. */
  datatype Via = FromCache(now: int, buffer: int) | Followed(flight: nat) | Led(flight: nat) | GaveUp

  datatype Phase =
    | Ready
    | Looking(now: int, buffer: int)
    | Following(flight: nat)
    | Leading(flight: nat)
    | Answered(answer: Answer, via: Via)
    | Unauthorized(entry: Entry)

  /** A request, with the tokens that already drew a 401. */
  datatype Request = Request(authId: string, fingerprint: string, phase: Phase, rejected: seq<Entry>)

  /** `leaders[f]` is the request that began exchange f. */
  datatype Service = Service(cache: Cache, leaders: seq<nat>, requests: map<nat, Request>)

  const IDLE := Service(EMPTY_CACHE, [], map[])

  /** What an exchange brings back: an entry without its number, or an error. */
  datatype Issued = Issued(token: string, apiBase: string, expiresAt: int) | Refused(reason: string)

  datatype Action =
    | Arrive(r: nat, authId: string, fingerprint: string)
    | Look(r: nat, now: int, buffer: int)        // read the configuration and the clock
    | TakeLock(r: nat)                           // the first lock region
    | Finish(r: nat, issued: Issued)             // the exchange returns; the second lock region
    | Wake(r: nat)                               // the flight's channel is closed
    | GiveUp(r: nat)                             // the follower's context is cancelled
    | Reject(r: nat)                             // the model endpoint answers 401
    | Retry(r: nat)                              // invalidateAuth, then copilotToken again
    | Logout(authId: string)                     // invalidateAuth from elsewhere
    | Stop                                       // Shutdown

  function KeyOf(q: Request): string {
    KeyFor(q.authId, q.fingerprint)
  }

  function Become(s: Service, r: nat, p: Phase): Service
    requires r in s.requests
  {
    s.(requests := s.requests[r := s.requests[r].(phase := p)])
  }

  function AnswerFor(q: Request, f: nat, issued: Issued): Answer {
    match issued
    case Issued(token, base, expiresAt) => Token(Entry(token, base, expiresAt, q.fingerprint, f))
    case Refused(reason) => Error(reason)
  }

  /** After the first lock region. */
  function Entered(s: Service, r: nat, now: int, buffer: int): Service
    requires r in s.requests
  {
    var q := s.requests[r];
    var (c, v) := Enter(s.cache, KeyOf(q), q.fingerprint, now, buffer);
    match v
    case Hit(e) => Become(s, r, Answered(Token(e), FromCache(now, buffer)))
    case Join(f) => Become(s, r, Following(f))
    case Lead(f) => Become(s.(cache := c, leaders := s.leaders + [r]), r, Leading(f))
  }

  /** After the second lock region. */
  function Published(s: Service, r: nat, f: nat, issued: Issued): Service
    requires r in s.requests && f < |s.cache.flights|
  {
    var a := AnswerFor(s.requests[r], f, issued);
    Become(s.(cache := Publish(s.cache, KeyOf(s.requests[r]), f, a)), r, Answered(a, Led(f)))
  }

  function Retried(s: Service, r: nat, e: Entry): Service
    requires r in s.requests
  {
    var q := s.requests[r];
    s.(cache := Invalidate(s.cache, q.authId),
       requests := s.requests[r := q.(phase := Ready, rejected := q.rejected + [e])])
  }

  /** One atomic step; an action whose request is not in the right phase does nothing. */
  function Step(s: Service, a: Action): Service {
    match a
    case Arrive(r, authId, fingerprint) =>
      if r in s.requests then s else s.(requests := s.requests[r := Request(authId, fingerprint, Ready, [])])
    case Logout(authId) => s.(cache := Invalidate(s.cache, authId))
    case Stop => s.(cache := Clear(s.cache))
    case _ => if a.r in s.requests then RequestStep(s, a) else s
  }

  function RequestStep(s: Service, a: Action): Service
    requires !a.Arrive? && !a.Logout? && !a.Stop? && a.r in s.requests
  {
    var r, p := a.r, s.requests[a.r].phase;
    match a
    case Look(_, now, buffer) => if p.Ready? then Become(s, r, Looking(now, buffer)) else s
    case TakeLock(_) => if p.Looking? then Entered(s, r, p.now, p.buffer) else s
    case Finish(_, issued) => if p.Leading?
        && p.flight < |s.cache.flights| then Published(s, r, p.flight, issued) else s
    case Wake(_) =>
      if p.Following? && p.flight < |s.cache.flights| && s.cache.flights[p.flight].answer.Some?
      then Become(s, r, Answered(s.cache.flights[p.flight].answer.value, Followed(p.flight))) else s
    case GiveUp(_) => if p.Following? then Become(s, r, Answered(Cancelled, GaveUp)) else s
    case Reject(_) => if p.Answered? && p.answer.Token? then Become(s, r, Unauthorized(p.answer.entry)) else s
    case Retry(_) => if p.Unauthorized? then Retried(s, r, p.entry) else s
  }

  function Run(s: Service, actions: seq<Action>): Service
    decreases |actions|
  {
    if actions == [] then s else Run(Step(s, actions[0]), actions[1..])
  }

  // ---- What every reachable state satisfies ----

  predicate Running(s: Service, f: nat) {
    f < |s.cache.flights| && s.cache.flights[f].answer.None?
  }

  /** An entry is the recorded result of its exchange. */
  predicate Genuine(s: Service, e: Entry) {
    && e.source < |s.cache.flights| == |s.leaders|
    && s.cache.flights[e.source].answer == Some(Token(e))
    && e.fingerprint == s.cache.flights[e.source].fingerprint
  }

  predicate GenuineFor(s: Service, e: Entry, key: string) {
    Genuine(s, e) && s.cache.flights[e.source].key == key
  }

  /** The token an exchange brought bears its number and its leader's fingerprint. */
  predicate SignedBy(flight: Flight, f: nat) {
    match flight.answer
    case Some(Token(e)) => e.source == f && e.fingerprint == flight.fingerprint
    case _ => true
  }

  /** The flight of a key is in the map exactly while its leader runs, and its channel closes once. */
  ghost predicate FlightsOk(s: Service) {
    && |s.leaders| == |s.cache.flights|
    && (forall k :: k in s.cache.inflight ==>
          Running(s, s.cache.inflight[k]) && s.cache.flights[s.cache.inflight[k]].key == k)
    && (forall f: nat :: Running(s, f) ==>
          s.cache.flights[f].key in s.cache.inflight && s.cache.inflight[s.cache.flights[f].key] == f)
    && (forall f :: 0 <= f < |s.cache.flights| ==>
          s.cache.flights[f].closes == if s.cache.flights[f].answer.None? then 0 else 1)
    && (forall f :: 0 <= f < |s.cache.flights| ==> SignedBy(s.cache.flights[f], f))
    && (forall f: nat :: Running(s, f) ==> s.leaders[f] in s.requests && s.requests[s.leaders[f]].phase == Leading(f))
  }

  /** The running flight of a key is its latest. */
  ghost predicate LatestRuns(s: Service) {
    forall k, f :: k in s.cache.inflight && 0 <= f < |s.cache.flights| && s.cache.flights[f].key == k ==>
          f <= s.cache.inflight[k]
  }

  ghost predicate EntriesOk(s: Service) {
    forall k :: k in s.cache.entries ==> GenuineFor(s, s.cache.entries[k], k)
  }

  predicate PhaseOk(s: Service, r: nat, q: Request) {
    match q.phase
    case Following(f) => f < |s.cache.flights| && s.cache.flights[f].key == KeyOf(q)
    case Leading(f) =>
      Running(s, f) && |s.leaders| == |s.cache.flights| && s.leaders[f] == r
      && s.cache.flights[f].key == KeyOf(q) && s.cache.flights[f].fingerprint == q.fingerprint
    case Answered(a, via) =>
      && (a.Token? ==> GenuineFor(s, a.entry, KeyOf(q)))
      && (match via
          case FromCache(now, buffer) => a.Token? && Usable(a.entry, q.fingerprint, now, buffer)
          case Followed(f) => f < |s.cache.flights| && s.cache.flights[f].answer == Some(a)
              && s.cache.flights[f].key == KeyOf(q)
          case Led(f) =>
            f < |s.cache.flights| == |s.leaders| && s.cache.flights[f].answer == Some(a) && s.leaders[f] == r
            && s.cache.flights[f].key == KeyOf(q) && s.cache.flights[f].fingerprint == q.fingerprint
          case GaveUp => a == Cancelled)
    case Unauthorized(e) => GenuineFor(s, e, KeyOf(q))
    case _ => true
  }

  /** A request with an auth ID will not meet a token it has seen rejected. */
  predicate Avoids(s: Service, q: Request, e: Entry) {
    && GenuineFor(s, e, KeyOf(q))
    && (Trim(q.authId) != "" ==>
          && (KeyOf(q) in s.cache.entries ==> s.cache.entries[KeyOf(q)].source > e.source)
          && (q.phase.Following? ==> q.phase.flight > e.source)
          && (q.phase.Answered? && q.phase.answer.Token? ==> q.phase.answer.entry.source > e.source)
          && (q.phase.Unauthorized? ==> q.phase.entry.source > e.source))
  }

  ghost predicate RequestsOk(s: Service) {
    forall r :: r in s.requests ==>
      PhaseOk(s, r, s.requests[r]) && forall e :: e in s.requests[r].rejected ==> Avoids(s, s.requests[r], e)
  }

  ghost predicate Inv(s: Service) {
    FlightsOk(s) && LatestRuns(s) && EntriesOk(s) && RequestsOk(s)
  }

  // ---- One step ----

  /** Exchanges that have ended are never touched again. */
  ghost predicate Grows(s: Service, t: Service) {
    && |s.cache.flights| <= |t.cache.flights| && |s.leaders| <= |t.leaders|
    && |s.leaders| == |s.cache.flights| && |t.leaders| == |t.cache.flights|
    && (forall f :: 0 <= f < |s.leaders| ==> t.leaders[f] == s.leaders[f])
    && (forall f :: 0 <= f < |s.cache.flights| ==>
          && t.cache.flights[f].key == s.cache.flights[f].key
              && t.cache.flights[f].fingerprint == s.cache.flights[f].fingerprint
          && (s.cache.flights[f].answer.Some? ==> t.cache.flights[f] == s.cache.flights[f]))
  }

  /** Only the phase of one request differs. */
  lemma BecomeKeeps(s: Service, r: nat, p: Phase)
    requires Inv(s) && r in s.requests && !s.requests[r].phase.Leading? && !p.Leading?
    requires PhaseOk(s, r, s.requests[r].(phase := p))
    requires forall e :: e in s.requests[r].rejected ==> Avoids(s, s.requests[r].(phase := p), e)
    ensures Inv(Become(s, r, p))
  {
    var t := Become(s, r, p);
    forall q | q in t.requests
      ensures PhaseOk(t, q, t.requests[q]) && forall e :: e in t.requests[q].rejected ==> Avoids(t, t.requests[q], e)
    {
      if q != r {
        assert PhaseOk(s, q, s.requests[q]);
      } else {
        assert PhaseOk(s, r, s.requests[r].(phase := p));
      }
      forall e | e in t.requests[q].rejected ensures Avoids(t, t.requests[q], e) {
        assert Avoids(s, s.requests[q].(phase := t.requests[q].phase), e);
      }
    }
  }

  /** Requests other than one see no difference when tokens disappear or exchanges are added or end. */
  lemma OthersKeep(s: Service, t: Service, r: nat, q: Request)
    requires Inv(s) && Grows(s, t) && q == (if r in s.requests then s.requests[r] else q)
    requires PhaseOk(s, r, q)
    requires q.phase.Leading? ==> Running(t, q.phase.flight)
    ensures PhaseOk(t, r, q)
  {
  }

  lemma AvoidsStays(s: Service, t: Service, q: Request, e: Entry)
    requires Grows(s, t) && Avoids(s, q, e)
    requires KeyOf(q) in t.cache.entries ==>
               (KeyOf(q) in s.cache.entries && t.cache.entries[KeyOf(q)] == s.cache.entries[KeyOf(q)])
               || t.cache.entries[KeyOf(q)].source > e.source
    ensures Avoids(t, q, e)
  {
  }

  /** Forgetting tokens breaks nothing. */
  lemma ForgetKeeps(s: Service, kept: map<string, Entry>)
    requires Inv(s) && forall k :: k in kept ==> k in s.cache.entries && kept[k] == s.cache.entries[k]
    ensures Inv(s.(cache := s.cache.(entries := kept)))
  {
    var t := s.(cache := s.cache.(entries := kept));
    forall q | q in t.requests
      ensures PhaseOk(t, q, t.requests[q]) && forall e :: e in t.requests[q].rejected ==> Avoids(t, t.requests[q], e)
    {
      OthersKeep(s, t, q, s.requests[q]);
      forall e | e in t.requests[q].rejected ensures Avoids(t, t.requests[q], e) {
        AvoidsStays(s, t, s.requests[q], e);
      }
    }
  }

  lemma EnterWithoutLeadKeeps(s: Service, r: nat, now: int, buffer: int)
    requires Inv(s) && r in s.requests && s.requests[r].phase == Looking(now, buffer)
    requires !Enter(s.cache, KeyOf(s.requests[r]), s.requests[r].fingerprint, now, buffer).1.Lead?
    ensures Inv(Entered(s, r, now, buffer))
  {
    var q := s.requests[r];
    var v := Enter(s.cache, KeyOf(q), q.fingerprint, now, buffer).1;
    var p := if v.Hit? then Answered(Token(v.entry), FromCache(now, buffer)) else Following(v.flight);
    forall e | e in q.rejected ensures Avoids(s, q.(phase := p), e) {
      assert Avoids(s, q, e);
    }
    BecomeKeeps(s, r, p);
  }

  /** The state after a request has begun an exchange. */
  lemma LedShape(s: Service, r: nat, now: int, buffer: int) returns (t: Service)
    requires r in s.requests && |s.leaders| == |s.cache.flights|
    requires Enter(s.cache, KeyOf(s.requests[r]), s.requests[r].fingerprint, now, buffer).1.Lead?
    ensures t == Entered(s, r, now, buffer) && Grows(s, t)
    ensures var q, f := s.requests[r], |s.cache.flights|;
            && KeyOf(q) !in s.cache.inflight
            && t.cache == s.cache.(inflight := s.cache.inflight[KeyOf(q) := f],
                flights := s.cache.flights + [Flight(KeyOf(q), q.fingerprint, 0, None)])
            && t.leaders == s.leaders + [r] && t.requests == s.requests[r := q.(phase := Leading(f))]
  {
    t := Entered(s, r, now, buffer);
  }

  lemma LedFlights(s: Service, r: nat, now: int, buffer: int) returns (t: Service)
    requires Inv(s) && r in s.requests && s.requests[r].phase == Looking(now, buffer)
    requires Enter(s.cache, KeyOf(s.requests[r]), s.requests[r].fingerprint, now, buffer).1.Lead?
    ensures t == Entered(s, r, now, buffer) && FlightsOk(t)
    ensures forall f: nat :: Running(s, f) ==> Running(t, f)
  {
    t := LedShape(s, r, now, buffer);
    var n := |s.cache.flights|;
    forall f: nat | Running(t, f)
      ensures t.cache.inflight[t.cache.flights[f].key] == f && t.requests[t.leaders[f]].phase == Leading(f)
    {
      if f != n {
        assert Running(s, f);
        assert s.leaders[f] != r;
      }
    }
    forall k | k in t.cache.inflight ensures Running(t, t.cache.inflight[k])
        && t.cache.flights[t.cache.inflight[k]].key == k {
      assert k in s.cache.inflight ==> Running(s, s.cache.inflight[k]);
    }
  }

  /** A new exchange is the latest, and the only one of its key. */
  lemma LedLatest(s: Service, r: nat, now: int, buffer: int) returns (t: Service)
    requires Inv(s) && r in s.requests && s.requests[r].phase == Looking(now, buffer)
    requires Enter(s.cache, KeyOf(s.requests[r]), s.requests[r].fingerprint, now, buffer).1.Lead?
    ensures t == Entered(s, r, now, buffer) && Grows(s, t)
    ensures LatestRuns(t) && PhaseOk(t, r, t.requests[r])
    ensures t.cache.entries == s.cache.entries
             && t.requests == s.requests[r := s.requests[r].(phase := Leading(|s.cache.flights|))]
  {
    t := LedShape(s, r, now, buffer);
  }

  lemma LeadKeeps(s: Service, r: nat, now: int, buffer: int)
    requires Inv(s) && r in s.requests && s.requests[r].phase == Looking(now, buffer)
    requires Enter(s.cache, KeyOf(s.requests[r]), s.requests[r].fingerprint, now, buffer).1.Lead?
    ensures Inv(Entered(s, r, now, buffer))
  {
    var t := LedLatest(s, r, now, buffer);
    var u := LedFlights(s, r, now, buffer);
    forall k | k in t.cache.entries ensures GenuineFor(t, t.cache.entries[k], k) {
      assert GenuineFor(s, s.cache.entries[k], k);
    }
    forall x | x in t.requests
      ensures PhaseOk(t, x, t.requests[x]) && forall e :: e in t.requests[x].rejected ==> Avoids(t, t.requests[x], e)
    {
      if x != r {
        OthersKeep(s, t, x, s.requests[x]);
      }
      forall e | e in t.requests[x].rejected ensures Avoids(t, t.requests[x], e) {
        assert Avoids(s, s.requests[x], e);
        AvoidsStays(s, t, s.requests[x], e);
      }
    }
  }

  lemma WakeKeeps(s: Service, r: nat, f: nat)
    requires Inv(s) && r in s.requests && s.requests[r].phase == Following(f) && s.cache.flights[f].answer.Some?
    ensures Inv(Become(s, r, Answered(s.cache.flights[f].answer.value, Followed(f))))
  {
    var q := s.requests[r];
    var p := Answered(s.cache.flights[f].answer.value, Followed(f));
    assert SignedBy(s.cache.flights[f], f);
    forall e | e in q.rejected ensures Avoids(s, q.(phase := p), e) {
      assert Avoids(s, q, e);
    }
    BecomeKeeps(s, r, p);
  }

  lemma QuietKeeps(s: Service, r: nat, p: Phase)
    requires Inv(s) && r in s.requests
    requires (s.requests[r].phase.Ready? && p.Looking?)
             || (s.requests[r].phase.Following? && p == Answered(Cancelled, GaveUp))
             || (s.requests[r].phase.Answered? && s.requests[r].phase.answer.Token?
                 && p == Unauthorized(s.requests[r].phase.answer.entry))
    ensures Inv(Become(s, r, p))
  {
    var q := s.requests[r];
    forall e | e in q.rejected ensures Avoids(s, q.(phase := p), e) {
      assert Avoids(s, q, e);
    }
    BecomeKeeps(s, r, p);
  }

  lemma ArriveKeeps(s: Service, r: nat, authId: string, fingerprint: string)
    requires Inv(s) && r !in s.requests
    ensures Inv(Step(s, Arrive(r, authId, fingerprint)))
  {
    var t := Step(s, Arrive(r, authId, fingerprint));
    forall x | x in t.requests
      ensures PhaseOk(t, x, t.requests[x]) && forall e :: e in t.requests[x].rejected ==> Avoids(t, t.requests[x], e)
    {
      if x != r {
        OthersKeep(s, t, x, s.requests[x]);
        forall e | e in t.requests[x].rejected ensures Avoids(t, t.requests[x], e) {
          AvoidsStays(s, t, s.requests[x], e);
        }
      }
    }
  }

  /** A 401 forgets the token first, so nothing that is cached afterwards is as old. */
  lemma RetryKeeps(s: Service, r: nat, e: Entry)
    requires Inv(s) && r in s.requests && s.requests[r].phase == Unauthorized(e)
    ensures Inv(Retried(s, r, e))
  {
    var q := s.requests[r];
    var u := s.(cache := Invalidate(s.cache, q.authId));
    ForgetKeeps(s, u.cache.entries);
    var t := Retried(s, r, e);
    forall x | x in t.requests
      ensures PhaseOk(t, x, t.requests[x]) && forall d :: d in t.requests[x].rejected ==> Avoids(t, t.requests[x], d)
    {
      if x != r {
        OthersKeep(u, t, x, u.requests[x]);
        forall d | d in t.requests[x].rejected ensures Avoids(t, t.requests[x], d) {
          AvoidsStays(u, t, u.requests[x], d);
        }
      } else {
        assert PhaseOk(u, r, q);
        forall d | d in t.requests[r].rejected ensures Avoids(t, t.requests[r], d) {
          assert d == e || Avoids(u, q, d);
        }
      }
    }
  }

  /** The running exchange of a key is newer than every token already issued for it. */
  lemma RunningIsNewer(s: Service, f: nat, e: Entry)
    requires Inv(s) && Running(s, f) && GenuineFor(s, e, s.cache.flights[f].key)
    ensures e.source < f
  {
    assert s.cache.inflight[s.cache.flights[f].key] == f;
  }

  /** Only the published flight stops running. */
  lemma PublishedShape(s: Service, r: nat, f: nat, issued: Issued) returns (t: Service)
    requires Inv(s) && r in s.requests && s.requests[r].phase == Leading(f)
    ensures Running(s, f) && s.cache.flights[f].key == KeyOf(s.requests[r])
    ensures t == Published(s, r, f, issued) && Grows(s, t)
    ensures SignedBy(t.cache.flights[f], f)
    ensures forall g: nat :: Running(t, g) <==> Running(s, g) && g != f
    ensures forall g: nat :: Running(t, g) ==> s.cache.flights[g].key != KeyOf(s.requests[r]) && s.leaders[g] != r
  {
    var q := s.requests[r];
    assert PhaseOk(s, r, q);
    t := Published(s, r, f, issued);
    forall g: nat | Running(t, g) ensures s.cache.flights[g].key != KeyOf(q) && s.leaders[g] != r {
      assert Running(s, g);
      assert s.cache.inflight[s.cache.flights[g].key] == g;
    }
  }

  lemma PublishedFlights(s: Service, r: nat, f: nat, issued: Issued)
    requires Inv(s) && r in s.requests && s.requests[r].phase == Leading(f)
    ensures Running(s, f) && s.cache.flights[f].key == KeyOf(s.requests[r])
    ensures Grows(s, Published(s, r, f, issued))
    ensures FlightsOk(Published(s, r, f, issued)) && LatestRuns(Published(s, r, f, issued))
  {
    var t := PublishedShape(s, r, f, issued);
    forall k | k in t.cache.inflight ensures Running(t, t.cache.inflight[k])
        && t.cache.flights[t.cache.inflight[k]].key == k {
      assert Running(s, s.cache.inflight[k]);
    }
  }

  lemma PublishedEntries(s: Service, r: nat, f: nat, issued: Issued)
    requires Inv(s) && r in s.requests && s.requests[r].phase == Leading(f)
    ensures EntriesOk(Published(s, r, f, issued))
  {
    var t := PublishedShape(s, r, f, issued);
    assert PhaseOk(s, r, s.requests[r]);
    forall k | k in t.cache.entries ensures GenuineFor(t, t.cache.entries[k], k) {
      assert k == KeyOf(s.requests[r]) || GenuineFor(s, s.cache.entries[k], k);
    }
  }

  /** What the published token means for requests that have seen tokens rejected. */
  lemma PublishedAvoids(s: Service, r: nat, f: nat, issued: Issued, x: nat, e: Entry)
    requires Inv(s) && r in s.requests && s.requests[r].phase == Leading(f)
    requires x in s.requests && e in s.requests[x].rejected
    ensures var t := Published(s, r, f, issued); x in t.requests && Avoids(t, t.requests[x], e)
  {
    var t := PublishedShape(s, r, f, issued);
    assert Avoids(s, s.requests[x], e);
    if KeyOf(s.requests[x]) == KeyOf(s.requests[r]) {
      RunningIsNewer(s, f, e);
    }
    AvoidsStays(s, t, s.requests[x], e);
  }

  lemma PublishKeeps(s: Service, r: nat, f: nat, issued: Issued)
    requires Inv(s) && r in s.requests && s.requests[r].phase == Leading(f)
    ensures Inv(Published(s, r, f, issued))
  {
    var t := Published(s, r, f, issued);
    PublishedFlights(s, r, f, issued);
    PublishedEntries(s, r, f, issued);
    forall x | x in t.requests
      ensures PhaseOk(t, x, t.requests[x]) && forall e :: e in t.requests[x].rejected ==> Avoids(t, t.requests[x], e)
    {
      assert PhaseOk(s, x, s.requests[x]);
      if x != r {
        OthersKeep(s, t, x, s.requests[x]);
      }
      forall e | e in t.requests[x].rejected ensures Avoids(t, t.requests[x], e) {
        PublishedAvoids(s, r, f, issued, x, e);
      }
    }
  }

  lemma StepKeeps(s: Service, a: Action)
    requires Inv(s)
    ensures Inv(Step(s, a))
  {
    match a
    case Arrive(r, authId, fingerprint) =>
      if r !in s.requests {
        ArriveKeeps(s, r, authId, fingerprint);
      }
    case Logout(authId) => ForgetKeeps(s, Invalidate(s.cache, authId).entries);
    case Stop => ForgetKeeps(s, map[]);
    case _ =>
      if a.r in s.requests {
        RequestStepKeeps(s, a);
      }
  }

  lemma RequestStepKeeps(s: Service, a: Action)
    requires Inv(s) && !a.Arrive? && !a.Logout? && !a.Stop? && a.r in s.requests
    ensures Inv(RequestStep(s, a))
  {
    var r, q := a.r, s.requests[a.r];
    assert PhaseOk(s, r, q);
    match a
    case Look(_, now, buffer) =>
      if q.phase.Ready? {
        QuietKeeps(s, r, Looking(now, buffer));
      }
    case TakeLock(_) =>
      if q.phase.Looking? {
        if Enter(s.cache, KeyOf(q), q.fingerprint, q.phase.now, q.phase.buffer).1.Lead? {
          LeadKeeps(s, r, q.phase.now, q.phase.buffer);
        } else {
          EnterWithoutLeadKeeps(s, r, q.phase.now, q.phase.buffer);
        }
      }
    case Finish(_, issued) =>
      if q.phase.Leading? {
        PublishKeeps(s, r, q.phase.flight, issued);
      }
    case Wake(_) =>
      if q.phase.Following? && s.cache.flights[q.phase.flight].answer.Some? {
        WakeKeeps(s, r, q.phase.flight);
      }
    case GiveUp(_) =>
      if q.phase.Following? {
        QuietKeeps(s, r, Answered(Cancelled, GaveUp));
      }
    case Reject(_) =>
      if q.phase.Answered? && q.phase.answer.Token? {
        QuietKeeps(s, r, Unauthorized(q.phase.answer.entry));
      }
    case Retry(_) =>
      if q.phase.Unauthorized? {
        RetryKeeps(s, r, q.phase.entry);
      }
  }

  lemma {:induction false} RunKeeps(s: Service, actions: seq<Action>)
    requires Inv(s)
    ensures Inv(Run(s, actions))
    decreases |actions|
  {
    if actions != [] {
      StepKeeps(s, actions[0]);
      RunKeeps(Step(s, actions[0]), actions[1..]);
    }
  }

  // ---- What it means for requests ----

  /** In every interleaving: at most one exchange per key runs; a flight is in the map exactly while
      some request leads it; its channel closes once, when its result is recorded. */
  lemma {:induction false} SingleFlight(actions: seq<Action>)
    ensures var s := Run(IDLE, actions);
            && (forall r, q ::
                  (r in s.requests && q in s.requests && s.requests[r].phase.Leading? && s.requests[q].phase.Leading?
                   && KeyOf(s.requests[r]) == KeyOf(s.requests[q])) ==> r == q)
            && (forall k, f :: k in s.cache.inflight && s.cache.inflight[k] == f ==>
                  exists r :: r in s.requests && s.requests[r].phase == Leading(f) && KeyOf(s.requests[r]) == k)
            && (forall r :: r in s.requests && s.requests[r].phase.Leading? ==>
                  KeyOf(s.requests[r]) in s.cache.inflight
                      && s.cache.inflight[KeyOf(s.requests[r])] == s.requests[r].phase.flight)
            && (forall f :: 0 <= f < |s.cache.flights| ==>
                  s.cache.flights[f].closes == if s.cache.flights[f].answer.Some? then 1 else 0)
  {
    RunKeeps(IDLE, actions);
    var s := Run(IDLE, actions);
    forall r | r in s.requests && s.requests[r].phase.Leading?
      ensures var k := KeyOf(s.requests[r]);
              k in s.cache.inflight && s.cache.inflight[k] == s.requests[r].phase.flight
                  && s.leaders[s.cache.inflight[k]] == r
    {
      assert PhaseOk(s, r, s.requests[r]);
    }
    forall k, f | k in s.cache.inflight && s.cache.inflight[k] == f
      ensures exists r :: r in s.requests && s.requests[r].phase == Leading(f) && KeyOf(s.requests[r]) == k
    {
      assert Running(s, f);
      assert PhaseOk(s, s.leaders[f], s.requests[s.leaders[f]]);
    }
  }

  /** Every request that has an answer has the right one: a cached token belongs to the caller's GitHub
      token and outlives the buffer; a follower that did not give up has its leader's exact answer. */
  lemma {:induction false} AnswersRight(actions: seq<Action>, r: nat)
    requires r in Run(IDLE, actions).requests && Run(IDLE, actions).requests[r].phase.Answered?
    ensures var s := Run(IDLE, actions);
            var q := s.requests[r];
            match q.phase.via
            case FromCache(now, buffer) =>
              q.phase.answer.Token? && q.phase.answer.entry.fingerprint == q.fingerprint
                  && q.phase.answer.entry.expiresAt > now + buffer
            case Followed(f) =>
              f < |s.cache.flights| && s.cache.flights[f].key == KeyOf(q)
                  && s.cache.flights[f].answer == Some(q.phase.answer)
              && (q.phase.answer.Token? ==>
                    (q.phase.answer.entry.fingerprint == q.fingerprint <==>
                      s.cache.flights[f].fingerprint == q.fingerprint))
            case Led(f) =>
              f < |s.cache.flights| && s.cache.flights[f].answer == Some(q.phase.answer)
              && (q.phase.answer.Token? ==> q.phase.answer.entry.fingerprint == q.fingerprint)
            case GaveUp => q.phase.answer == Cancelled
  {
    RunKeeps(IDLE, actions);
    var s := Run(IDLE, actions);
    assert PhaseOk(s, r, s.requests[r]);
  }

  /** A request with an auth ID that drew a 401 on a token never gets that token again, nor an older
      one: whatever answers its retry comes from an exchange begun later. */
  lemma {:induction false} RetryGetsNewerToken(actions: seq<Action>, r: nat, e: Entry)
    requires r in Run(IDLE, actions).requests
    requires var q := Run(IDLE, actions).requests[r];
             Trim(q.authId) != "" && e in q.rejected && q.phase.Answered? && q.phase.answer.Token?
    ensures Run(IDLE, actions).requests[r].phase.answer.entry.source > e.source
  {
    RunKeeps(IDLE, actions);
    var s := Run(IDLE, actions);
    assert Avoids(s, s.requests[r], e);
  }

  // ---- Where the obvious claims fail ----

  /** The actions of one request up to its answer, as the leader of an exchange. */
  function Leads(r: nat, authId: string, fingerprint: string, issued: Issued): seq<Action> {
    [Arrive(r, authId, fingerprint), Look(r, 0, 0), TakeLock(r), Finish(r, issued)]
  }

  lemma {:induction false} RunFour(s: Service, a: Action, b: Action, c: Action, d: Action, rest: seq<Action>)
    ensures Run(s, [a, b, c, d] + rest) == Run(Step(Step(Step(Step(s, a), b), c), d), rest)
  {
    RunOne(s, a, [b, c, d] + rest);
    RunOne(Step(s, a), b, [c, d] + rest);
    RunOne(Step(Step(s, a), b), c, [d] + rest);
    RunOne(Step(Step(Step(s, a), b), c), d, rest);
    assert [a] + ([b, c, d] + rest) == [a, b, c, d] + rest;
    assert [b] + ([c, d] + rest) == [b, c, d] + rest;
    assert [c] + ([d] + rest) == [c, d] + rest;
  }

  lemma {:induction false} RunOne(s: Service, a: Action, rest: seq<Action>)
    ensures Run(s, [a] + rest) == Run(Step(s, a), rest)
  {
    assert ([a] + rest)[1..] == rest;
  }

  /** A request that draws a 401 and retries while its token is still fresh. */
  function RejectedOnce(authId: string, fingerprint: string, issued: Issued): seq<Action> {
    Leads(0, authId, fingerprint, issued) + [Reject(0), Retry(0), Look(0, 1, 60), TakeLock(0)]
  }

  /** Without an auth ID a 401 forgets nothing: the retry is answered with the rejected token. */
  lemma {:induction false} BlankAuthIdRetriesSameToken(authId: string, fingerprint: string, token: string, base: string)
    requires Trim(authId) == ""
    ensures var e := Entry(token, base, 100, fingerprint, 0);
            var s := Run(IDLE, RejectedOnce(authId, fingerprint, Issued(token, base, 100)));
            && 0 in s.requests && s.requests[0].authId == authId && s.requests[0].rejected == [e]
            && s.requests[0].phase == Answered(Token(e), FromCache(1, 60))
  {
    var rest := [Reject(0), Retry(0), Look(0, 1, 60), TakeLock(0)];
    var a := Leads(0, authId, fingerprint, Issued(token, base, 100));
    RunFour(IDLE, a[0], a[1], a[2], a[3], rest);
    var s1 := Step(Step(Step(Step(IDLE, a[0]), a[1]), a[2]), a[3]);
    EmptyEnds(rest);
    RunFour(s1, rest[0], rest[1], rest[2], rest[3], []);
    var e := Entry(token, base, 100, fingerprint, 0);
    assert s1.cache.entries == map[fingerprint := e];
    assert s1.requests[0] == Request(authId, fingerprint, Answered(Token(e), Led(0)), []);
  }

  /** No request with this auth ID holds a token that it has seen rejected. */
  ghost predicate NeverRepeats(s: Service, authId: string) {
    forall r, e :: (r in s.requests && s.requests[r].authId == authId && e in s.requests[r].rejected
                    && s.requests[r].phase.Answered?) ==> s.requests[r].phase.answer != Token(e)
  }

  /** In every interleaving a retry brings another token than the rejected ones: guaranteed exactly for
      the auth IDs that are not blank. */
  lemma {:induction false} RetryIsFreshIffAuthId(authId: string)
    ensures (forall actions: seq<Action> :: NeverRepeats(Run(IDLE, actions), authId)) <==> Trim(authId) != ""
  {
    if Trim(authId) != "" {
      forall actions: seq<Action> ensures NeverRepeats(Run(IDLE, actions), authId) {
        RunKeeps(IDLE, actions);
        var s := Run(IDLE, actions);
        forall r, e | r in s.requests && s.requests[r].authId == authId && e in s.requests[r].rejected
                      && s.requests[r].phase.Answered?
          ensures s.requests[r].phase.answer != Token(e)
        {
          assert Avoids(s, s.requests[r], e);
        }
      }
    } else {
      BlankAuthIdRetriesSameToken(authId, "", "", "");
      var s := Run(IDLE, RejectedOnce(authId, "", Issued("", "", 100)));
      assert Entry("", "", 100, "", 0) in s.requests[0].rejected;
      assert !NeverRepeats(s, authId);
    }
  }

  /** Two requests of one key: the first runs an exchange, the second follows it. */
  lemma {:induction false} LeaderAndFollower(authId: string, mine: string, leader: string, theirs: string)
    returns (s: Service)
    requires KeyFor(authId, mine) == KeyFor(leader, theirs)
    ensures s == Run(IDLE, [Arrive(0, leader, theirs), Look(0, 0, 0), TakeLock(0), Arrive(1, authId, mine)]
                           + [Look(1, 0, 0), TakeLock(1)])
    ensures s.requests
            == map[0 := Request(leader, theirs, Leading(0), []), 1 := Request(authId, mine, Following(0), [])]
    ensures s.cache.flights == [Flight(KeyFor(leader, theirs), theirs, 0, None)]
  {
    var rest := [Look(1, 0, 0), TakeLock(1)];
    RunFour(IDLE, Arrive(0, leader, theirs), Look(0, 0, 0), TakeLock(0), Arrive(1, authId, mine), rest);
    var s1 := Step(Step(Step(Step(IDLE, Arrive(0, leader, theirs)), Look(0, 0, 0)), TakeLock(0)),
                   Arrive(1, authId, mine));
    assert s1.cache.inflight == map[KeyFor(leader, theirs) := 0];
    assert s1.requests == map[0 := Request(leader, theirs, Leading(0), []), 1 := Request(authId, mine, Ready, [])];
    RunOne(s1, Look(1, 0, 0), [TakeLock(1)]);
    RunOne(Step(s1, Look(1, 0, 0)), TakeLock(1), []);
    EmptyEnds([TakeLock(1)]);
    assert [Look(1, 0, 0)] + [TakeLock(1)] == rest;
    s := Step(Step(s1, Look(1, 0, 0)), TakeLock(1));
  }

  /** The actions of a leader, of a follower of its exchange, and of the exchange's end. */
  function FollowedRun(authId: string, mine: string, leader: string, theirs: string, issued: Issued): seq<Action> {
    [Arrive(0, leader, theirs), Look(0, 0, 0), TakeLock(0), Arrive(1, authId, mine)]
    + [Look(1, 0, 0), TakeLock(1)] + [Finish(0, issued), Wake(1)]
  }

  /** A follower is not asked for its GitHub token: it gets the leader's, whoever the leader is. */
  lemma {:induction false} FollowerGetsForeignToken(authId: string, mine: string, leader: string, theirs: string,
                                                    token: string, base: string)
    requires KeyFor(authId, mine) == KeyFor(leader, theirs)
    ensures var s := Run(IDLE, FollowedRun(authId, mine, leader, theirs, Issued(token, base, 100)));
            && s.requests.Keys == {0, 1}
            && s.requests[0].authId == leader && s.requests[0].fingerprint == theirs
            && s.requests[1]
               == Request(authId, mine, Answered(Token(Entry(token, base, 100, theirs, 0)), Followed(0)), [])
  {
    var first := [Arrive(0, leader, theirs), Look(0, 0, 0), TakeLock(0), Arrive(1, authId, mine)]
                 + [Look(1, 0, 0), TakeLock(1)];
    var last := [Finish(0, Issued(token, base, 100)), Wake(1)];
    var s := LeaderAndFollower(authId, mine, leader, theirs);
    RunAppend(IDLE, first, last);
    RunOne(s, Finish(0, Issued(token, base, 100)), [Wake(1)]);
    assert [Finish(0, Issued(token, base, 100))] + [Wake(1)] == last;
    var t := Step(s, Finish(0, Issued(token, base, 100)));
    RunOne(t, Wake(1), []);
    EmptyEnds([Wake(1)]);
    assert t.cache.flights[0].answer == Some(Token(Entry(token, base, 100, theirs, 0)));
    assert t.requests[1] == Request(authId, mine, Following(0), []);
  }

  lemma {:induction false} RunAppend(s: Service, a: seq<Action>, b: seq<Action>)
    ensures Run(s, a + b) == Run(Run(s, a), b)
    decreases |a|
  {
    if a == [] {
      EmptyEnds(b);
    } else {
      AppendHead(a, b);
      RunAppend(Step(s, a[0]), a[1..], b);
    }
  }
}
