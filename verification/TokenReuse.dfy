/** Which token the cache holds after a run. */
module TokenReuse {
  import opened Text
  import opened TokenCache
  import opened TokenProtocol

  /** In this state the action makes the service forget the tokens of a key: a shutdown, a logout of its auth
      ID, or a retry after a 401 under its auth ID. */
  predicate Forgets(s: Service, a: Action, key: string) {
    match a
    case Stop => true
    case Logout(authId) => Trim(authId) != "" && Trim(authId) == key
    case Retry(r) =>
      && r in s.requests && s.requests[r].phase.Unauthorized?
      && Trim(s.requests[r].authId) != "" && Trim(s.requests[r].authId) == key
    case _ => false
  }

  /** In this state the action ends an exchange for a key with a token. */
  predicate Issues(s: Service, a: Action, key: string) {
    && a.Finish? && a.issued.Issued? && a.r in s.requests
    && s.requests[a.r].phase.Leading? && KeyOf(s.requests[a.r]) == key
  }

  /** The token last issued for a key and not forgotten since. */
  function Remembered(actions: seq<Action>, key: string): Option<Entry> {
    if actions == [] then None
    else
      var front, a := actions[..|actions| - 1], actions[|actions| - 1];
      var s := Run(IDLE, front);
      if Forgets(s, a, key) then None
      else if Issues(s, a, key) then
        Some(Entry(a.issued.token, a.issued.apiBase, a.issued.expiresAt, s.requests[a.r].fingerprint,
                   s.requests[a.r].phase.flight))
      else Remembered(front, key)
  }

  predicate Holds(s: Service, key: string, e: Option<Entry>) {
    if e.Some? then key in s.cache.entries && s.cache.entries[key] == e.value else key !in s.cache.entries
  }

  lemma StepHolds(s: Service, a: Action, key: string, e: Option<Entry>)
    requires Inv(s) && Holds(s, key, e)
    ensures Holds(Step(s, a), key,
                  if Forgets(s, a, key) then None
                  else if Issues(s, a, key) then
                    Some(Entry(a.issued.token, a.issued.apiBase, a.issued.expiresAt, s.requests[a.r].fingerprint,
                               s.requests[a.r].phase.flight))
                  else e)
  {
    if a.Finish? && a.r in s.requests && s.requests[a.r].phase.Leading? {
      Publishes(s, a.r, s.requests[a.r].phase.flight, a.issued);
      return;
    }
    if a.Logout? || a.Stop? || a.Retry? {
      return;
    }
    LeavesEntries(s, a);
  }

  lemma LeavesEntries(s: Service, a: Action)
    requires !a.Logout? && !a.Stop? && !a.Retry?
    requires a.Finish? ==> a.r !in s.requests || !s.requests[a.r].phase.Leading?
    ensures Step(s, a).cache.entries == s.cache.entries
  {
  }

  /** After every run the cache holds, for every key, exactly the token last issued for it and not forgotten
      since. */
  lemma {:induction false} CacheHolds(actions: seq<Action>, key: string)
    ensures Holds(Run(IDLE, actions), key, Remembered(actions, key))
    decreases |actions|
  {
    if actions != [] {
      var front, a := actions[..|actions| - 1], actions[|actions| - 1];
      CacheHolds(front, key);
      RunKeeps(IDLE, front);
      StepHolds(Run(IDLE, front), a, key, Remembered(front, key));
      assert actions == front + [a];
      RunAppend(IDLE, front, [a]);
      RunOne(Run(IDLE, front), a, []);
    }
  }

  /** What a request does with the lock, after every run: it is answered with the token held for its key if
      that is for its own GitHub token and outlives the buffer; else it follows the exchange that runs for its
      key, if one does; and only else it begins one, for its own GitHub token. */
  lemma {:induction false} LockDecides(actions: seq<Action>, r: nat, now: int, buffer: int)
    requires var s := Run(IDLE, actions);
             r in s.requests && s.requests[r].phase == Looking(now, buffer)
    ensures var s := Run(IDLE, actions);
            var q := s.requests[r];
            var key := if Trim(q.authId) != "" then Trim(q.authId) else q.fingerprint;
            var held := Remembered(actions, key);
            var t := Step(s, TakeLock(r));
            && t.requests == s.requests[r := q.(phase := t.requests[r].phase)]
            && (if held.Some? && held.value.fingerprint == q.fingerprint && held.value.expiresAt > now + buffer then
                  t.cache == s.cache && t.requests[r].phase == Answered(Token(held.value), FromCache(now, buffer))
                else if exists f: nat :: Running(s, f) && s.cache.flights[f].key == key then
                  t.cache == s.cache && t.requests[r].phase.Following?
                  && Running(s, t.requests[r].phase.flight) && s.cache.flights[t.requests[r].phase.flight].key == key
                else
                  && t.requests[r].phase == Leading(|s.cache.flights|)
                  && t.cache.flights == s.cache.flights + [Flight(key, q.fingerprint, 0, None)])
  {
    var s := Run(IDLE, actions);
    RunKeeps(IDLE, actions);
    CacheHolds(actions, KeyOf(s.requests[r]));
  }

  /** How an exchange ends, after every run: its leader is answered with the token under its own fingerprint, or
      with the error; that is recorded; its channel is closed for the first time; and none runs for its key. */
  lemma {:induction false} FinishDecides(actions: seq<Action>, r: nat, f: nat, issued: Issued)
    requires var s := Run(IDLE, actions);
             r in s.requests && s.requests[r].phase == Leading(f)
    ensures var s := Run(IDLE, actions);
            var q := s.requests[r];
            var t := Step(s, Finish(r, issued));
            && f < |s.cache.flights| && t.requests == s.requests[r := q.(phase := t.requests[r].phase)]
            && t.requests[r].phase.Answered? && t.requests[r].phase.via == Led(f)
            && t.cache.flights
               == s.cache.flights[f := Flight(KeyOf(q), q.fingerprint, 1, Some(t.requests[r].phase.answer))]
            && (forall g: nat :: Running(t, g) ==> t.cache.flights[g].key != KeyOf(q))
            && match issued
               case Issued(token, base, expiresAt) =>
                 t.requests[r].phase.answer == Token(Entry(token, base, expiresAt, q.fingerprint, f))
               case Refused(reason) => t.requests[r].phase.answer == Error(reason)
  {
    RunKeeps(IDLE, actions);
    Publishes(Run(IDLE, actions), r, f, issued);
  }

  lemma Publishes(s: Service, r: nat, f: nat, issued: Issued)
    requires Inv(s) && r in s.requests && s.requests[r].phase == Leading(f)
    ensures var q := s.requests[r];
            var t := Step(s, Finish(r, issued));
            && f < |s.cache.flights| && s.cache.flights[f] == Flight(KeyOf(q), q.fingerprint, 0, None)
            && t == Published(s, r, f, issued)
            && forall g: nat :: Running(t, g) ==> t.cache.flights[g].key != KeyOf(q)
  {
    assert PhaseOk(s, r, s.requests[r]);
    assert forall g: nat :: Running(s, g) && s.cache.flights[g].key == KeyOf(s.requests[r]) ==> g == f;
  }
}
