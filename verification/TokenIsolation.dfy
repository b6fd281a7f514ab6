/** Whose tokens a request can get, and for how long. */
module TokenIsolation {
  import opened Text
  import opened TokenCache
  import opened TokenProtocol

  /** Two requests share a cache entry and an exchange: they have the same auth ID or, without one, the same
      GitHub token; or one has no auth ID and the other's is spelled like its fingerprint. */
  predicate Shares(authId: string, mine: string, other: string, theirs: string) {
    if Trim(authId) != "" && Trim(other) != "" then Trim(authId) == Trim(other)
    else if Trim(authId) != "" then Trim(authId) == theirs
    else if Trim(other) != "" then Trim(other) == mine
    else mine == theirs
  }

  lemma SharesIsKey(authId: string, mine: string, other: string, theirs: string)
    ensures KeyFor(authId, mine) == KeyFor(other, theirs) <==> Shares(authId, mine, other, theirs)
  {
  }

  /** Every exchange was begun by a request with its key and its fingerprint. */
  ghost predicate Led(s: Service) {
    && |s.leaders| == |s.cache.flights|
    && forall f :: 0 <= f < |s.leaders| ==>
         && s.leaders[f] in s.requests
         && s.requests[s.leaders[f]].fingerprint == s.cache.flights[f].fingerprint
         && KeyOf(s.requests[s.leaders[f]]) == s.cache.flights[f].key
  }

  /** Requests stay, and stay who they are. */
  ghost predicate SameRequests(s: Service, t: Service) {
    forall r :: r in s.requests ==>
      r in t.requests && t.requests[r].authId == s.requests[r].authId
      && t.requests[r].fingerprint == s.requests[r].fingerprint
  }

  /** Exchanges that were there keep their keys, fingerprints and leaders. */
  ghost predicate SameExchanges(s: Service, t: Service) {
    && |t.leaders| == |s.leaders| && |t.cache.flights| == |s.cache.flights| && t.leaders == s.leaders
    && forall f :: 0 <= f < |s.cache.flights| ==>
         t.cache.flights[f].key == s.cache.flights[f].key
         && t.cache.flights[f].fingerprint == s.cache.flights[f].fingerprint
  }

  lemma LedStays(s: Service, t: Service)
    requires Led(s) && SameRequests(s, t) && SameExchanges(s, t)
    ensures Led(t)
  {
  }

  lemma EnteredLed(s: Service, r: nat, now: int, buffer: int)
    requires Led(s) && r in s.requests
    ensures Led(Entered(s, r, now, buffer)) && SameRequests(s, Entered(s, r, now, buffer))
  {
    var t := Entered(s, r, now, buffer);
    if Enter(s.cache, KeyOf(s.requests[r]), s.requests[r].fingerprint, now, buffer).1.Lead? {
      assert t.leaders == s.leaders + [r];
    } else {
      LedStays(s, t);
    }
  }

  lemma StepLed(s: Service, a: Action)
    requires Led(s)
    ensures Led(Step(s, a)) && SameRequests(s, Step(s, a))
  {
    if a.TakeLock? && a.r in s.requests && s.requests[a.r].phase.Looking? {
      EnteredLed(s, a.r, s.requests[a.r].phase.now, s.requests[a.r].phase.buffer);
    } else {
      LedStays(s, Step(s, a));
    }
  }

  lemma {:induction false} RunLed(s: Service, actions: seq<Action>)
    requires Led(s)
    ensures Led(Run(s, actions)) && SameRequests(s, Run(s, actions))
    decreases |actions|
  {
    if actions != [] {
      StepLed(s, actions[0]);
      RunLed(Step(s, actions[0]), actions[1..]);
    }
  }

  /** In every interleaving, the token that answers a request was made for a request it shares with. */
  lemma {:induction false} AnswerIsShared(actions: seq<Action>, r: nat) returns (p: nat)
    requires r in Run(IDLE, actions).requests
    requires Run(IDLE, actions).requests[r].phase.Answered? && Run(IDLE, actions).requests[r].phase.answer.Token?
    ensures var s := Run(IDLE, actions);
            var q := s.requests[r];
            && p in s.requests && s.requests[p].fingerprint == q.phase.answer.entry.fingerprint
            && Shares(q.authId, q.fingerprint, s.requests[p].authId, s.requests[p].fingerprint)
  {
    RunKeeps(IDLE, actions);
    RunLed(IDLE, actions);
    var s := Run(IDLE, actions);
    var q := s.requests[r];
    assert PhaseOk(s, r, q);
    p := s.leaders[q.phase.answer.entry.source];
    SharesIsKey(q.authId, q.fingerprint, s.requests[p].authId, s.requests[p].fingerprint);
  }

  /** Without an auth ID, and with none spelled like its fingerprint around, a request gets its own GitHub
      token's answers and follows its own GitHub token's exchanges only. */
  lemma {:induction false} BlankAuthIdIsolated(actions: seq<Action>, r: nat)
    requires r in Run(IDLE, actions).requests && Trim(Run(IDLE, actions).requests[r].authId) == ""
    requires var s := Run(IDLE, actions);
             forall p :: p in s.requests && Trim(s.requests[p].authId) != "" ==>
               Trim(s.requests[p].authId) != s.requests[r].fingerprint
    ensures var s := Run(IDLE, actions);
            var q := s.requests[r];
            && (q.phase.Answered? && q.phase.answer.Token? ==> q.phase.answer.entry.fingerprint == q.fingerprint)
            && (q.phase.Following? ==>
                  q.phase.flight < |s.cache.flights| && s.cache.flights[q.phase.flight].fingerprint == q.fingerprint)
  {
    RunKeeps(IDLE, actions);
    RunLed(IDLE, actions);
    var s := Run(IDLE, actions);
    var q := s.requests[r];
    assert PhaseOk(s, r, q);
    if q.phase.Answered? && q.phase.answer.Token? {
      var p := AnswerIsShared(actions, r);
    }
    if q.phase.Following? {
      var p := s.leaders[q.phase.flight];
      SharesIsKey(q.authId, q.fingerprint, s.requests[p].authId, s.requests[p].fingerprint);
    }
  }

  /** A run in which only two identities make requests. */
  ghost predicate OnlyThese(s: Service, authId: string, mine: string, other: string, theirs: string) {
    forall r :: r in s.requests ==>
      (s.requests[r].authId == authId && s.requests[r].fingerprint == mine)
      || (s.requests[r].authId == other && s.requests[r].fingerprint == theirs)
  }

  /** A request of this identity holds a token of that GitHub token. */
  ghost predicate Receives(s: Service, authId: string, mine: string, theirs: string) {
    exists r :: r in s.requests && s.requests[r].authId == authId && s.requests[r].fingerprint == mine
      && s.requests[r].phase.Answered? && s.requests[r].phase.answer.Token?
      && s.requests[r].phase.answer.entry.fingerprint == theirs
  }

  /** Exactly when one GitHub account can be given another's token: some run of the two does it if and only
      if they share a key. */
  lemma {:induction false} ForeignTokenIffShared(authId: string, mine: string, other: string, theirs: string)
    requires mine != theirs
    ensures (exists actions: seq<Action> ::
               OnlyThese(Run(IDLE, actions), authId, mine, other, theirs)
               && Receives(Run(IDLE, actions), authId, mine, theirs))
            <==> Shares(authId, mine, other, theirs)
  {
    if Shares(authId, mine, other, theirs) {
      SharesIsKey(authId, mine, other, theirs);
      FollowerGetsForeignToken(authId, mine, other, theirs, "t", "");
      var actions := FollowedRun(authId, mine, other, theirs, Issued("t", "", 100));
      var s := Run(IDLE, actions);
      assert 1 in s.requests && s.requests[1].phase.answer.entry.fingerprint == theirs;
      assert OnlyThese(s, authId, mine, other, theirs) && Receives(s, authId, mine, theirs);
    }
    if actions: seq<Action> :| OnlyThese(Run(IDLE, actions), authId, mine, other, theirs)
                               && Receives(Run(IDLE, actions), authId, mine, theirs) {
      var s := Run(IDLE, actions);
      var r :| r in s.requests && s.requests[r].authId == authId && s.requests[r].fingerprint == mine
               && s.requests[r].phase.Answered? && s.requests[r].phase.answer.Token?
               && s.requests[r].phase.answer.entry.fingerprint == theirs;
      var p := AnswerIsShared(actions, r);
    }
  }

  // ---- Tokens that were forgotten ----

  /** The exchange had already ended in this state. */
  predicate EndedIn(o: Service, f: nat) {
    f < |o.cache.flights| && o.cache.flights[f].answer.Some?
  }

  /** A request has nothing of an exchange that had ended. */
  predicate Untainted(o: Service, q: Request) {
    match q.phase
    case Following(f) => !EndedIn(o, f)
    case Leading(f) => !EndedIn(o, f)
    case Answered(a, _) => a.Token? ==> !EndedIn(o, a.entry.source)
    case Unauthorized(e) => !EndedIn(o, e.source)
    case _ => true
  }

  /** Since state `o`, in which nothing was cached for the key. */
  ghost predicate Renewed(o: Service, t: Service, key: string) {
    && Inv(t) && Grows(o, t)
    && (key in t.cache.entries ==> !EndedIn(o, t.cache.entries[key].source))
    && forall r :: r in t.requests && r !in o.requests && KeyOf(t.requests[r]) == key ==> Untainted(o, t.requests[r])
  }

  /** What runs now had not ended then. */
  lemma RunningIsNew(o: Service, t: Service, f: nat)
    requires Grows(o, t) && Running(t, f)
    ensures !EndedIn(o, f)
  {
  }

  lemma EnteredRenewed(o: Service, t: Service, key: string, r: nat, now: int, buffer: int)
    requires Renewed(o, t, key) && r in t.requests && t.requests[r].phase == Looking(now, buffer)
    ensures var u := Entered(t, r, now, buffer);
            && Grows(o, u) && u.cache.entries == t.cache.entries
            && (KeyOf(t.requests[r]) == key ==> Untainted(o, u.requests[r]))
  {
    var q := t.requests[r];
    var v := Enter(t.cache, KeyOf(q), q.fingerprint, now, buffer).1;
    if v.Join? {
      RunningIsNew(o, t, v.flight);
    }
  }

  lemma PublishedRenewed(o: Service, t: Service, key: string, r: nat, f: nat, issued: Issued)
    requires Renewed(o, t, key) && r in t.requests && t.requests[r].phase == Leading(f)
    ensures f < |t.cache.flights|
    ensures var u := Published(t, r, f, issued);
            && Grows(o, u) && Untainted(o, u.requests[r])
            && (key in u.cache.entries ==> !EndedIn(o, u.cache.entries[key].source))
  {
    assert PhaseOk(t, r, t.requests[r]);
    RunningIsNew(o, t, f);
  }

  /** Actions other than the two lock regions and waking up leave the exchanges alone, and add no token. */
  lemma QuietStep(t: Service, a: Action) returns (u: Service)
    requires !a.Arrive? && !a.Logout? && !a.Stop? && a.r in t.requests
    requires a.TakeLock? ==> !t.requests[a.r].phase.Looking?
    requires a.Finish? ==> !t.requests[a.r].phase.Leading?
    requires a.Wake? ==> !t.requests[a.r].phase.Following?
    ensures u == RequestStep(t, a) && u.cache.flights == t.cache.flights && u.leaders == t.leaders
    ensures forall k :: k in u.cache.entries ==> k in t.cache.entries && u.cache.entries[k] == t.cache.entries[k]
    ensures u.requests.Keys == t.requests.Keys && KeyOf(u.requests[a.r]) == KeyOf(t.requests[a.r])
    ensures forall q :: q in t.requests && q != a.r ==> u.requests[q] == t.requests[q]
    ensures forall o :: Untainted(o, t.requests[a.r]) ==> Untainted(o, u.requests[a.r])
  {
    u := RequestStep(t, a);
  }

  /** After a step of request r: nothing of an exchange that had ended, and only r may differ. */
  ghost predicate StaysRenewed(o: Service, t: Service, u: Service, key: string, r: nat) {
    && r in t.requests && Grows(o, u) && u.requests.Keys == t.requests.Keys
    && (key in u.cache.entries ==> !EndedIn(o, u.cache.entries[key].source))
    && (r !in o.requests && KeyOf(t.requests[r]) == key ==> Untainted(o, u.requests[r]))
    && KeyOf(u.requests[r]) == KeyOf(t.requests[r])
    && forall q :: q in t.requests && q != r ==> u.requests[q] == t.requests[q]
  }

  lemma LockRenewed(o: Service, t: Service, key: string, r: nat) returns (u: Service)
    requires Renewed(o, t, key) && r in t.requests && t.requests[r].phase.Looking?
    ensures u == RequestStep(t, TakeLock(r)) && StaysRenewed(o, t, u, key, r)
  {
    EnteredRenewed(o, t, key, r, t.requests[r].phase.now, t.requests[r].phase.buffer);
    u := RequestStep(t, TakeLock(r));
  }

  lemma FinishRenewed(o: Service, t: Service, key: string, r: nat, issued: Issued) returns (u: Service)
    requires Renewed(o, t, key) && r in t.requests && t.requests[r].phase.Leading?
    ensures u == RequestStep(t, Finish(r, issued)) && StaysRenewed(o, t, u, key, r)
  {
    PublishedRenewed(o, t, key, r, t.requests[r].phase.flight, issued);
    u := RequestStep(t, Finish(r, issued));
  }

  lemma WakeRenewed(o: Service, t: Service, key: string, r: nat) returns (u: Service)
    requires Renewed(o, t, key) && r in t.requests && t.requests[r].phase.Following?
    ensures u == RequestStep(t, Wake(r)) && StaysRenewed(o, t, u, key, r)
  {
    assert PhaseOk(t, r, t.requests[r]);
    var f := t.requests[r].phase.flight;
    assert SignedBy(t.cache.flights[f], f);
    u := RequestStep(t, Wake(r));
  }

  lemma RequestStepRenewed(o: Service, t: Service, key: string, a: Action) returns (u: Service)
    requires Renewed(o, t, key) && !a.Arrive? && !a.Logout? && !a.Stop? && a.r in t.requests
    ensures u == RequestStep(t, a) && StaysRenewed(o, t, u, key, a.r)
  {
    var q := t.requests[a.r];
    if a.TakeLock? && q.phase.Looking? {
      u := LockRenewed(o, t, key, a.r);
      return;
    }
    if a.Finish? && q.phase.Leading? {
      u := FinishRenewed(o, t, key, a.r, a.issued);
      return;
    }
    if a.Wake? && q.phase.Following? {
      u := WakeRenewed(o, t, key, a.r);
      return;
    }
    u := QuietStep(t, a);
  }

  lemma StepRenewed(o: Service, t: Service, key: string, a: Action)
    requires Renewed(o, t, key)
    ensures Renewed(o, Step(t, a), key)
  {
    StepKeeps(t, a);
    if !a.Arrive? && !a.Logout? && !a.Stop? && a.r in t.requests {
      var u := RequestStepRenewed(o, t, key, a);
    }
  }

  lemma {:induction false} RunRenewed(o: Service, t: Service, key: string, actions: seq<Action>)
    requires Renewed(o, t, key)
    ensures Renewed(o, Run(t, actions), key)
    decreases |actions|
  {
    if actions != [] {
      StepRenewed(o, t, key, actions[0]);
      RunRenewed(o, Step(t, actions[0]), key, actions[1..]);
    }
  }

  /** After a logout, for the requests of its auth ID, and after a shutdown, for all: a request that arrives
      later gets no token of an exchange that had ended by then. */
  lemma {:induction false} ForgottenForGood(before: seq<Action>, forget: Action, after: seq<Action>, r: nat)
    requires forget.Stop? || (forget.Logout? && Trim(forget.authId) != "")
    requires var o := Step(Run(IDLE, before), forget);
             var t := Run(o, after);
             && r !in o.requests && r in t.requests
             && (forget.Logout? ==> Trim(t.requests[r].authId) == Trim(forget.authId))
             && t.requests[r].phase.Answered? && t.requests[r].phase.answer.Token?
    ensures var o := Step(Run(IDLE, before), forget);
            !EndedIn(o, Run(o, after).requests[r].phase.answer.entry.source)
  {
    RunKeeps(IDLE, before);
    StepKeeps(Run(IDLE, before), forget);
    var o := Step(Run(IDLE, before), forget);
    var t := Run(o, after);
    RunRenewed(o, o, KeyOf(t.requests[r]), after);
  }
}
