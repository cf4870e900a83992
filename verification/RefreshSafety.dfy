/** A refresh token the provider has retired is presented again only after a request that had
    it retired has failed, and a revoked session gets no token. */
module RefreshSafety {
  import opened Wrappers
  import opened Stamps
  import opened OAuthTables
  import opened UpstreamRefresh

  // ---------- the invariant ----------

  ghost predicate Owned(s: State, token: Option<nat>, id: Secret) {
    token.Some? ==> token.value in s.issuedTo && s.issuedTo[token.value] == id
  }

  // A request that holds the session's stripe and has had this token retired.
  ghost predicate Presented(s: State, req: nat, id: Secret, token: nat) {
    req in s.requests && s.requests[req].Exchanged? && s.requests[req].session == id && s.requests[req].presented == token
  }

  // The row's token is one the provider honours, unless its replacement is being written or
  // was lost.
  ghost predicate SessionOk(s: State, id: Secret) {
    id in s.sessions ==>
      && id in s.everOpened && Owned(s, s.sessions[id].token.refresh, id)
      && (s.sessions[id].token.refresh.Some? && s.sessions[id].token.refresh.value in s.retired ==>
        || s.sessions[id].token.refresh.value in s.lost
        || exists req :: Presented(s, req, id, s.sessions[id].token.refresh.value))
  }

  ghost predicate RequestOk(s: State, req: nat) {
    req in s.requests ==>
      var r := s.requests[req];
      && (HasStripe(r) ==> STRIPE(r.session) in s.locks && s.locks[STRIPE(r.session)] == req)
      && (r.Reread? ==>
        && Owned(s, r.token.refresh, r.session)
        && (r.token.refresh.Some? && r.token.refresh.value in s.retired ==> r.token.refresh.value in s.lost))
      && (r.Exchanged? ==>
        && Owned(s, Some(r.presented), r.session) && Owned(s, r.refreshed.refresh, r.session)
        && r.refreshed.refresh.Some? && r.refreshed.refresh.value !in s.retired)
  }

  ghost predicate LostOk(s: State, token: nat) {
    token in s.lost ==>
      && token in s.issuedTo && token in s.retired && s.lost[token] in s.requests
      && s.requests[s.lost[token]] == Failed(s.issuedTo[token], Some(token))
  }

  ghost predicate Inv(s: State) {
    && (forall id :: SessionOk(s, id))
    && (forall req :: RequestOk(s, req))
    && (forall token :: LostOk(s, token))
    && s.retired <= s.issuedTo.Keys
  }

  // ---------- each step keeps it ----------

  lemma EnvironmentKeeps(s: State, step: Step)
    requires Inv(s) && Enabled(s, step) && (step.Tick? || step.OpenSession? || step.Revoke? || step.SetLive? || step.Start? || step.Lock?)
    ensures Inv(Next(s, step))
  {
    var s' := Next(s, step);
    forall id ensures SessionOk(s', id) {
      assert SessionOk(s, id);
      if id in s.sessions && s.sessions[id].token.refresh.Some? {
        if req :| Presented(s, req, id, s.sessions[id].token.refresh.value) {
          assert Presented(s', req, id, s.sessions[id].token.refresh.value);
        }
      }
    }
    forall req ensures RequestOk(s', req) { assert RequestOk(s, req); }
    forall token ensures LostOk(s', token) { assert LostOk(s, token); }
  }

  lemma StepKeeps(s: State, step: Step)
    requires Inv(s) && Enabled(s, step)
    ensures Inv(Next(s, step))
  {
    match step
    case Read(req) => ReadKeeps(s, req);
    case Exchange(req, outcome) => ExchangeKeeps(s, req, outcome);
    case Persist(req, report) => PersistKeeps(s, req, report);
    case Cancel(req) => GivenUpKeeps(s, req);
    case _ => EnvironmentKeeps(s, step);
  }

  // The stripe makes the requests on one session take turns.
  lemma OneAtATime(s: State, req: nat, other: nat)
    requires Inv(s) && req in s.requests && other in s.requests
    requires HasStripe(s.requests[req]) && HasStripe(s.requests[other])
    requires s.requests[req].session == s.requests[other].session
    ensures req == other
  {
    assert RequestOk(s, req) && RequestOk(s, other);
  }

  // A request that changes what it is, and lets go of its stripe if it is finished.
  ghost predicate Moves(s: State, s': State, req: nat) {
    && req in s.requests && HasStripe(s.requests[req])
    && s' == s.(requests := s'.requests, locks := s'.locks)
    && req in s'.requests && s'.requests == s.requests[req := s'.requests[req]]
    && s'.requests[req].session == s.requests[req].session
    && (s'.locks == s.locks || (s'.locks == s.locks - {STRIPE(s.requests[req].session)} && !HasStripe(s'.requests[req])))
  }

  lemma MoveKeeps(s: State, s': State, req: nat)
    requires Inv(s) && Moves(s, s', req) && !s.requests[req].Exchanged? && RequestOk(s', req)
    ensures Inv(s')
  {
    assert RequestOk(s, req);
    forall id ensures SessionOk(s', id) {
      assert SessionOk(s, id);
      if id in s.sessions && s.sessions[id].token.refresh.Some? {
        if r :| Presented(s, r, id, s.sessions[id].token.refresh.value) {
          assert Presented(s', r, id, s.sessions[id].token.refresh.value);
        }
      }
    }
    forall r ensures RequestOk(s', r) { assert RequestOk(s, r); }
    forall token ensures LostOk(s', token) { assert LostOk(s, token); }
  }

  lemma ReadKeeps(s: State, req: nat)
    requires Inv(s) && Enabled(s, Read(req))
    ensures Inv(Next(s, Read(req)))
  {
    var id := s.requests[req].session;
    assert RequestOk(s, req) && SessionOk(s, id);
    if id in s.sessions && s.sessions[id].token.refresh.Some? {
      if r :| Presented(s, r, id, s.sessions[id].token.refresh.value) { OneAtATime(s, req, r); }
    }
    MoveKeeps(s, Next(s, Read(req)), req);
  }

  lemma ExchangeKeeps(s: State, req: nat, outcome: Outcome)
    requires Inv(s) && Enabled(s, Exchange(req, outcome))
    ensures Inv(Next(s, Exchange(req, outcome)))
  {
    var s', token := Next(s, Exchange(req, outcome)), s.requests[req].token.refresh.value;
    assert RequestOk(s, req);
    if outcome.Refused? || outcome.Kept? {
      MoveKeeps(s, s', req);
    } else {
      forall r ensures RequestOk(s', r) {
        assert RequestOk(s, r);
        if r in s.requests && r != req && HasStripe(s.requests[r]) && s.requests[r].session == s.requests[req].session {
          OneAtATime(s, req, r);
        }
      }
      forall id ensures SessionOk(s', id) { RetirementKeepsSession(s, req, outcome, id); }
      forall t ensures LostOk(s', t) { assert LostOk(s, t); }
    }
  }

  lemma RetirementKeepsSession(s: State, req: nat, outcome: Outcome, id: Secret)
    requires Inv(s) && Enabled(s, Exchange(req, outcome)) && (outcome.Rotated? || outcome.AnswerLost?)
    ensures SessionOk(Next(s, Exchange(req, outcome)), id)
  {
    var s', token := Next(s, Exchange(req, outcome)), s.requests[req].token.refresh.value;
    assert SessionOk(s, id) && RequestOk(s, req);
    if id in s.sessions && s.sessions[id].token.refresh.Some? {
      var held := s.sessions[id].token.refresh.value;
      if held == token {
        assert outcome.Rotated? ==> Presented(s', req, id, token);
      } else if r :| Presented(s, r, id, held) {
        assert Presented(s', r, id, held);
      }
    }
  }

  // Writing the new token back, whether or not the write is reported.
  lemma StoresKeeps(s: State, req: nat)
    requires Inv(s) && req in s.requests && s.requests[req].Exchanged? && s.requests[req].session in s.sessions
    ensures Inv(Stores(s, s.requests[req]))
  {
    var r, s' := s.requests[req], Stores(s, s.requests[req]);
    assert RequestOk(s, req);
    forall id ensures SessionOk(s', id) {
      assert SessionOk(s, id);
      if id in s.sessions && s.sessions[id].token.refresh.Some? {
        if q :| Presented(s, q, id, s.sessions[id].token.refresh.value) {
          assert Presented(s', q, id, s.sessions[id].token.refresh.value);
        }
      }
    }
    forall q ensures RequestOk(s', q) { assert RequestOk(s, q); }
    forall token ensures LostOk(s', token) { assert LostOk(s, token); }
  }

  // Once the row no longer holds what was presented, the request may go.
  lemma FinishedKeeps(s: State, req: nat, done: Request)
    requires Inv(s) && req in s.requests && s.requests[req].Exchanged?
    requires done.session == s.requests[req].session && (done.Returned? || done == Failed(done.session, None))
    requires done.session in s.sessions ==>
      s.sessions[done.session].token.refresh != Some(s.requests[req].presented)
      || s.requests[req].presented !in s.retired
    ensures Inv(Unlocked(s, req, done))
  {
    var s' := Unlocked(s, req, done);
    assert RequestOk(s, req);
    forall id ensures SessionOk(s', id) {
      assert SessionOk(s, id);
      if id in s.sessions && s.sessions[id].token.refresh.Some? {
        if q :| Presented(s, q, id, s.sessions[id].token.refresh.value) {
          assert q != req ==> Presented(s', q, id, s.sessions[id].token.refresh.value);
        }
      }
    }
    forall q ensures RequestOk(s', q) { assert RequestOk(s, q); }
    forall token ensures LostOk(s', token) { assert LostOk(s, token); }
  }

  lemma GivenUpKeeps(s: State, req: nat)
    requires Inv(s) && req in s.requests && s.requests[req].Exchanged?
    ensures Inv(GivenUp(s, req))
  {
    var r := s.requests[req];
    var s' := GivenUp(s, req);
    if r.presented !in s.retired {
      FinishedKeeps(s, req, Failed(r.session, None));
    } else {
      assert RequestOk(s, req);
      forall id ensures SessionOk(s', id) {
        assert SessionOk(s, id);
        if id in s.sessions && s.sessions[id].token.refresh.Some? {
          if q :| Presented(s, q, id, s.sessions[id].token.refresh.value) {
            assert q != req ==> Presented(s', q, id, s.sessions[id].token.refresh.value);
          }
        }
      }
      forall q ensures RequestOk(s', q) { assert RequestOk(s, q); }
      forall token ensures LostOk(s', token) { assert LostOk(s, token); }
    }
  }

  lemma RetriedKeeps(s: State, req: nat)
    requires Inv(s) && req in s.requests && s.requests[req].Exchanged?
    ensures Inv(Retried(s, req))
  {
    var r, s' := s.requests[req], Retried(s, req);
    if r.attempts + 1 < ATTEMPTS {
      assert RequestOk(s, req);
      forall id ensures SessionOk(s', id) {
        assert SessionOk(s, id);
        if id in s.sessions && s.sessions[id].token.refresh.Some? {
          if q :| Presented(s, q, id, s.sessions[id].token.refresh.value) {
            assert Presented(s', q, id, s.sessions[id].token.refresh.value);
          }
        }
      }
      forall q ensures RequestOk(s', q) { assert RequestOk(s, q); }
      forall token ensures LostOk(s', token) { assert LostOk(s, token); }
    } else {
      GivenUpKeeps(s, req);
    }
  }

  lemma PersistKeeps(s: State, req: nat, report: Report)
    requires Inv(s) && Enabled(s, Persist(req, report))
    ensures Inv(Next(s, Persist(req, report)))
  {
    var r := s.requests[req];
    match report
    case Stored =>
      StoresKeeps(s, req);
      assert RequestOk(s, req);
      FinishedKeeps(Stores(s, r), req, Returned(r.session, r.refreshed, true));
    case FailedStored => StoresKeeps(s, req); RetriedKeeps(Stores(s, r), req);
    case FailedUnstored => RetriedKeeps(s, req);
    case _ => GivenUpKeeps(s, req);
  }

  // ---------- runs ----------

  ghost predicate Reaches(a: State, steps: seq<Step>, b: State)
    decreases |steps|
  {
    if steps == [] then a == b
    else Enabled(a, steps[0]) && Reaches(Next(a, steps[0]), steps[1..], b)
  }

  lemma {:induction false} ReachesKeepsInv(a: State, steps: seq<Step>, b: State)
    requires Inv(a) && Reaches(a, steps, b)
    ensures Inv(b)
    decreases |steps|
  {
    if steps != [] {
      StepKeeps(a, steps[0]);
      ReachesKeepsInv(Next(a, steps[0]), steps[1..], b);
    }
  }

  lemma InitialInv()
    ensures Inv(INITIAL)
  {
    forall id ensures SessionOk(INITIAL, id) {}
    forall req ensures RequestOk(INITIAL, req) {}
    forall token ensures LostOk(INITIAL, token) {}
  }

  /** For any number of concurrent requests: what a request is about to present has been
      retired exactly when an earlier request had it retired, could not record what replaced
      it, and failed. */
  lemma RetiredIsPresentedOnlyAfterALoss(steps: seq<Step>, s: State, req: nat, outcome: Outcome)
    requires Reaches(INITIAL, steps, s) && Enabled(s, Exchange(req, outcome))
    ensures var token := s.requests[req].token.refresh.value;
            && (token in s.retired <==> token in s.lost)
            && (token in s.lost ==>
              && s.lost[token] in s.requests && s.lost[token] != req
              && s.requests[s.lost[token]] == Failed(s.requests[req].session, Some(token)))
  {
    InitialInv();
    ReachesKeepsInv(INITIAL, steps, s);
    assert RequestOk(s, req);
    assert LostOk(s, s.requests[req].token.refresh.value);
  }

  const SOMEWHERE: Stamp := Stamp(Config, Core([], [], [], [], []))

  const STALE: Held := Held(SOMEWHERE, UpstreamToken(1, Some(1), Some(0)))

  const AFTER_LOSS: State :=
    State(map[1 := STALE], {}, 0, map[1 := Failed(1, Some(1))], map[], {1}, map[1 := 1], {1}, map[1 := 1])

  const ABOUT_TO_PRESENT: State := AFTER_LOSS.(
    requests := AFTER_LOSS.requests[2 := Reread(1, SOMEWHERE, STALE.token)],
    locks := map[STRIPE(1) := 2])

  lemma OneMore(a: State, step: Step, m: State, more: seq<Step>, b: State)
    requires Enabled(a, step) && Next(a, step) == m && Reaches(m, more, b)
    ensures Reaches(a, [step] + more, b)
  {
    assert ([step] + more)[1..] == more;
  }

  // A token past its expiry is presented, retired, and nothing comes back.
  lemma TheAnswerIsLost()
    ensures Reaches(INITIAL, [OpenSession(1, STALE)] + ([Start(1, 1, SOMEWHERE)] +
              ([Lock(1)] + ([Read(1)] + ([Exchange(1, AnswerLost)] + [])))), AFTER_LOSS)
  {
    var s1 := Next(INITIAL, OpenSession(1, STALE));
    var s2 := s1.(requests := map[1 := Waiting(1, SOMEWHERE)]);
    var s3 := s1.(requests := map[1 := Holding(1, SOMEWHERE)], locks := map[STRIPE(1) := 1]);
    var s4 := s3.(requests := map[1 := Reread(1, SOMEWHERE, STALE.token)]);
    assert map[STRIPE(1) := 1] - {STRIPE(1)} == map[];
    OneMore(s4, Exchange(1, AnswerLost), AFTER_LOSS, [], AFTER_LOSS);
    OneMore(s3, Read(1), s4, [Exchange(1, AnswerLost)] + [], AFTER_LOSS);
    OneMore(s2, Lock(1), s3, [Read(1)] + ([Exchange(1, AnswerLost)] + []), AFTER_LOSS);
    OneMore(s1, Start(1, 1, SOMEWHERE), s2, [Lock(1)] + ([Read(1)] + ([Exchange(1, AnswerLost)] + [])), AFTER_LOSS);
    OneMore(INITIAL, OpenSession(1, STALE), s1,
            [Start(1, 1, SOMEWHERE)] + ([Lock(1)] + ([Read(1)] + ([Exchange(1, AnswerLost)] + []))), AFTER_LOSS);
  }

  /** And it need not have been a write that failed: when the provider has rotated the token
      and its answer is lost there is nothing to write, and the next request presents the
      retired token. */
  lemma ALostAnswerIsEnough()
    ensures Reaches(AFTER_LOSS, [Start(2, 1, SOMEWHERE)] + ([Lock(2)] + ([Read(2)] + [])), ABOUT_TO_PRESENT)
    ensures Enabled(ABOUT_TO_PRESENT, Exchange(2, Refused))
    ensures ABOUT_TO_PRESENT.requests[2].token.refresh.value in ABOUT_TO_PRESENT.retired
  {
    var s1 := AFTER_LOSS.(requests := AFTER_LOSS.requests[2 := Waiting(1, SOMEWHERE)]);
    var s2 := ABOUT_TO_PRESENT.(requests := AFTER_LOSS.requests[2 := Holding(1, SOMEWHERE)]);
    OneMore(s2, Read(2), ABOUT_TO_PRESENT, [], ABOUT_TO_PRESENT);
    OneMore(s1, Lock(2), s2, [Read(2)] + [], ABOUT_TO_PRESENT);
    OneMore(AFTER_LOSS, Start(2, 1, SOMEWHERE), s1, [Lock(2)] + ([Read(2)] + []), ABOUT_TO_PRESENT);
  }

  /** No two requests on one session are between their re-read and their answer, so no two
      present a token of it at once. */
  lemma OneRefreshToASession(steps: seq<Step>, s: State, req: nat, other: nat)
    requires Reaches(INITIAL, steps, s) && req in s.requests && other in s.requests
    requires HasStripe(s.requests[req]) && HasStripe(s.requests[other])
    requires s.requests[req].session == s.requests[other].session
    ensures req == other
  {
    InitialInv();
    ReachesKeepsInv(INITIAL, steps, s);
    OneAtATime(s, req, other);
  }

  ghost predicate HasReturned(s: State, req: nat) { req in s.requests && s.requests[req].Returned? }

  // A step that answers a request reads or writes the session's row, under the stamp asked for.
  ghost predicate Answers(s: State, step: Step, req: nat, token: UpstreamToken) {
    match step
    case Start(q, id, stamp) => q == req && Reads(s, id, stamp) && token == s.sessions[id].token && !IsExpired(token, s.clock)
    case Read(q) => q == req && Enabled(s, step) && s.requests[q].session in s.sessions
      && Reads(s, s.requests[q].session, s.requests[q].stamp)
      && token == s.sessions[s.requests[q].session].token && !IsExpired(token, s.clock)
    case Persist(q, report) => q == req && Enabled(s, step) && report == Stored && token == s.requests[q].refreshed
      && CanStore(s, s.requests[q].session, s.requests[q].stamp)
      && s.requests[q].session in Next(s, step).sessions && Next(s, step).sessions[s.requests[q].session].token == token
    case _ => false
  }

  lemma OthersReturnNothing(s: State, step: Step, req: nat)
    requires Enabled(s, step) && !HasReturned(s, req) && !step.Start? && !step.Read? && !step.Persist?
    ensures !HasReturned(Next(s, step), req)
  {
  }

  lemma PersistAnswers(s: State, q: nat, report: Report, req: nat)
    requires Enabled(s, Persist(q, report)) && !HasReturned(s, req) && HasReturned(Next(s, Persist(q, report)), req)
    ensures report == Stored && q == req && Next(s, Persist(q, report)).requests[req].anew
    ensures Answers(s, Persist(q, report), req, Next(s, Persist(q, report)).requests[req].token)
  {
  }

  lemma OnlyAnswersReturn(s: State, step: Step, req: nat)
    requires Enabled(s, step) && !HasReturned(s, req) && HasReturned(Next(s, step), req)
    ensures Answers(s, step, req, Next(s, step).requests[req].token)
    ensures Next(s, step).requests[req].anew <==> step.Persist?
  {
    match step
    case Start(_, _, _) =>
    case Read(_) =>
    case Persist(q, report) => PersistAnswers(s, q, report, req);
    case _ => OthersReturnNothing(s, step, req);
  }

  ghost predicate AnsweredIn(a: State, steps: seq<Step>, req: nat, token: UpstreamToken, anew: bool)
    decreases |steps|
  {
    steps != [] && Enabled(a, steps[0]) &&
    ((Answers(a, steps[0], req, token) && (anew <==> steps[0].Persist?))
     || AnsweredIn(Next(a, steps[0]), steps[1..], req, token, anew))
  }

  lemma ReturnedStays(s: State, step: Step, req: nat)
    requires Enabled(s, step) && HasReturned(s, req)
    ensures HasReturned(Next(s, step), req) && Next(s, step).requests[req] == s.requests[req]
  {
  }

  /** Every token a request returns was, in one step, either read unexpired from the session's
      row or written to it; a refreshed one only by a write that found the row, and for an
      admin stamp found the stamp live. */
  lemma {:induction false} ReturnsOnlyWhatTheRowHolds(a: State, steps: seq<Step>, b: State, req: nat)
    requires Reaches(a, steps, b) && !HasReturned(a, req) && HasReturned(b, req)
    ensures AnsweredIn(a, steps, req, b.requests[req].token, b.requests[req].anew)
    decreases |steps|
  {
    var m := Next(a, steps[0]);
    if HasReturned(m, req) {
      OnlyAnswersReturn(a, steps[0], req);
      ReturnedStaysToTheEnd(m, steps[1..], b, req);
    } else {
      ReturnsOnlyWhatTheRowHolds(m, steps[1..], b, req);
    }
  }

  lemma {:induction false} ReturnedStaysToTheEnd(a: State, steps: seq<Step>, b: State, req: nat)
    requires Reaches(a, steps, b) && HasReturned(a, req)
    ensures HasReturned(b, req) && b.requests[req] == a.requests[req]
    decreases |steps|
  {
    if steps != [] {
      ReturnedStays(a, steps[0], req);
      ReturnedStaysToTheEnd(Next(a, steps[0]), steps[1..], b, req);
    }
  }

  /** Once a session is revoked, no request for it that has not returned ever returns a token,
      however far it had got, even one holding a refreshed pair. */
  lemma {:induction false} NothingReturnsAfterRevocation(a: State, steps: seq<Step>, b: State, id: Secret, req: nat)
    requires Reaches(a, steps, b) && id in a.everOpened && id !in a.sessions
    requires req in b.requests && b.requests[req].session == id && !HasReturned(a, req)
    ensures !HasReturned(b, req)
    decreases |steps|
  {
    if steps != [] {
      var m := Next(a, steps[0]);
      if HasReturned(m, req) {
        OnlyAnswersReturn(a, steps[0], req);
        ReturnedStaysToTheEnd(m, steps[1..], b, req);
      } else {
        NothingReturnsAfterRevocation(m, steps[1..], b, id, req);
      }
    }
  }
}
