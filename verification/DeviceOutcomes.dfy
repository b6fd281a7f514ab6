/** What the callers of a device login are told. */
module DeviceOutcomes {
  import opened Text
  import opened DeviceLogin
  import opened DevicePolling

  /** A caller made this request. */
  predicate Made(w: World, p: nat, i: nat) {
    i < |w.requests| && w.requests[i].caller == p
  }

  /** A request is its caller's only one; while it lasts the caller waits, and when it ends the caller is told
      what the reply says. A caller that made none is told that it is too early, or that there is no login. */
  ghost predicate Books(w: World) {
    && (forall i: nat, j: nat, p :: Made(w, p, i) && Made(w, p, j) ==> i == j)
    && (forall i: nat, p :: Made(w, p, i) ==>
          && p in w.callers
          && if w.requests[i].ending.None? then w.callers[p] == Asking(i)
             else w.callers[p].Returned?
                  && Tells(w.requests[i].ending.value.reply, w.requests[i].ending.value.userKnown, w.callers[p].result))
    && (forall p :: p in w.callers && w.callers[p].Asking? ==> Made(w, p, w.callers[p].request))
    && (forall p :: p in w.callers && w.callers[p].Returned? && (forall i: nat :: !Made(w, p, i)) ==>
          w.callers[p].result in {StillPending, LoginError})
  }

  /** What the first lock region decides, in every state. */
  lemma EnterDecides(w: World, p: nat, reading: int)
    ensures var t := Entered(w, p, reading);
            var s := w.session;
            && p in t.callers
            && (t.callers[p].Asking? <==>
                  s.Some? && reading < s.value.expiresAt && !s.value.polling && reading >= s.value.nextPoll)
            && (t.callers[p] == Returned(StillPending) <==>
                  s.Some? && reading < s.value.expiresAt && (s.value.polling || reading < s.value.nextPoll))
            && (t.callers[p] == Returned(LoginError) <==> s.None? || reading >= s.value.expiresAt)
            && (t.session.None? <==> s.None? || reading >= s.value.expiresAt)
            && t.requests == (if t.callers[p].Asking?
                              then w.requests + [Request(p, reading, w.clock, s.value.interval, None)]
                              else w.requests)
            && t.callers == w.callers[p := t.callers[p]]
            && (t.callers[p].Asking? ==> t.callers[p].request == |w.requests|)
  {
  }

  lemma EnterBooks(w: World, p: nat)
    requires Books(w) && p in w.callers && w.callers[p].Arrived?
    ensures Books(Entered(w, p, w.callers[p].reading))
  {
    var t := Entered(w, p, w.callers[p].reading);
    EnterDecides(w, p, w.callers[p].reading);
    assert forall i: nat :: !Made(w, p, i);
    forall i: nat, q | Made(t, q, i) ensures Made(w, q, i) || (q == p && i == |w.requests|) {
    }
    forall i: nat, q | Made(w, q, i) ensures Made(t, q, i) {
    }
  }

  /** A reply ends the session exactly if it ends the login, and the caller is told what it says. */
  lemma AnswerDecides(w: World, p: nat, i: nat, reply: Reply, userKnown: bool)
    requires i < |w.requests|
    ensures var t := Answered(w, p, i, reply, userKnown);
            && (t.session.None? <==> w.session.None? || EndsLogin(reply))
            && (t.session.Some? ==> Paces(reply, w.requests[i].interval, t.session.value.interval)
                                    && t.session.value.nextPoll == w.clock + t.session.value.interval)
            && p in t.callers && t.callers[p].Returned? && Tells(reply, userKnown, t.callers[p].result)
            && t.callers == w.callers[p := t.callers[p]]
            && t.requests == w.requests[i := w.requests[i].(ending := Some(Ending(w.clock, reply, userKnown)))]
  {
  }

  lemma AnswerBooks(w: World, p: nat, reply: Reply, userKnown: bool)
    requires Books(w) && p in w.callers && w.callers[p].Asking?
    ensures w.callers[p].request < |w.requests| && Books(Answered(w, p, w.callers[p].request, reply, userKnown))
  {
    var k := w.callers[p].request;
    assert Made(w, p, k);
    var t := Answered(w, p, k, reply, userKnown);
    AnswerDecides(w, p, k, reply, userKnown);
    forall i: nat, q ensures Made(t, q, i) <==> Made(w, q, i) {
    }
  }

  lemma StepBooks(w: World, a: Action)
    requires Books(w)
    ensures Books(Step(w, a))
  {
    if a.Enter? && a.p in w.callers && w.callers[a.p].Arrived? {
      EnterBooks(w, a.p);
      return;
    }
    if a.Answer? && a.p in w.callers && w.callers[a.p].Asking? {
      AnswerBooks(w, a.p, a.reply, a.userKnown);
      return;
    }
    var t := Step(w, a);
    forall i: nat, q ensures Made(t, q, i) <==> Made(w, q, i) {
    }
  }

  lemma {:induction false} RunBooks(w: World, actions: seq<Action>)
    requires Books(w)
    ensures Books(Run(w, actions))
    decreases |actions|
  {
    if actions != [] {
      StepBooks(w, actions[0]);
      RunBooks(Step(w, actions[0]), actions[1..]);
    }
  }

  /** A caller's request ended with such a reply. */
  ghost predicate Heard(w: World, p: nat, says: (Reply, bool) -> bool) {
    exists i: nat :: Made(w, p, i) && w.requests[i].ending.Some?
                     && says(w.requests[i].ending.value.reply, w.requests[i].ending.value.userKnown)
  }

  /** In every run, a caller is told of success if and only if its request ended with a token on a 2xx status
      and the user was known; it gets an error of its own if the reply was unreadable or the user unknown;
      and a caller whose request was answered with a pending word, or that made none, is told to wait or that
      there is no such login. */
  lemma {:induction false} CallersAreTold(l: Login, delay: nat, actions: seq<Action>, p: nat)
    requires p in Run(Start(l, delay), actions).callers && Run(Start(l, delay), actions).callers[p].Returned?
    ensures var w := Run(Start(l, delay), actions);
            var result := w.callers[p].result;
            && (result == Success <==> Heard(w, p, (r, known) => Authorised(r) && known))
            && (result == Failed <==> Heard(w, p, (r: Reply, known: bool) => r.Broken? || (Authorised(r) && !known)))
            && (Heard(w, p, (r, _) => Says(r, AuthorizationPending) || Says(r, SlowDown)) ==> result == StillPending)
            && (Heard(w, p, (r, _) => Says(r, Fatal) || Says(r, OtherWord)) ==> result == LoginError)
            && ((forall i: nat :: !Made(w, p, i)) ==> result in {StillPending, LoginError})
  {
    RunBooks(Start(l, delay), actions);
    var w := Run(Start(l, delay), actions);
    if i: nat :| Made(w, p, i) {
      assert w.requests[i].ending.Some?;
      var e := w.requests[i].ending.value;
      assert Tells(e.reply, e.userKnown, w.callers[p].result);
    }
  }
}
