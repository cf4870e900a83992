/** A run in which /token refuses a session whose stamp is current. A config target serves a
    session; an administrator saves a row under its name that the policy rejects; a replica
    rebuilds, and serves nothing under the name; the row is removed, so the config target is
    the definition again; and the replica, still behind, judges a refresh of the session. On the
    way there the session's access token has a request forwarded. */
module LaggingReplica {
  import opened Wrappers
  import opened Bytes
  import opened Stamps
  import opened Sealing
  import opened OAuthTables
  import opened Disk
  import opened Registries
  import opened RegistrySafety
  import opened World
  import opened Confinement
  import opened TokenVerdicts
  import opened Runs
  import Targets
  import Replicas
  import Grants

  const SERVED: Target := Target(NAME, NAME, [0x75], PROVIDER_TOKEN, map[], [], [], [0x72], Source.Config, [])

  // A policy that allows no administrator's target.
  function Cautious(): Config { Config.Config([SERVED], [], true, row => false) }

  // ---------- the replica ----------

  lemma MergedAlone()
    ensures Merged(Cautious(), []) == [SERVED]
  {
    assert Unheld([SERVED][..0], {}) == [];
  }

  lemma MergedBehindTheRow()
    ensures Merged(Cautious(), [ROW]) == []
  {
    var held := Names([ROW]);
    assert NAME in held by { assert ROW in [ROW] && ROW.target.name == NAME; }
    assert [SERVED][..0] == [] && [ROW][..0] == [];
    assert Unheld([SERVED], held) == Unheld([SERVED][..0], held) + [];
    assert Usable(Cautious(), ROW) == None;
    assert UsableTargets(Cautious(), [ROW]) == UsableTargets(Cautious(), [ROW][..0]);
  }

  // The snapshot that serves the config target, and the one that serves nothing.
  const FIRST: Entry := Entry(SERVED, StampOf(SERVED), Proxy(0, SERVED.url, Shared, []))

  const SERVING: Snapshot := Snapshot([FIRST], map[NAME := FIRST], map[SERVED.resource := FIRST], true, 0, [])

  lemma FirstSnapshot()
    ensures Rebuilt(Cautious(), None, [], 0, 0) == SERVING
  {
    MergedAlone();
    assert EntriesFor(Cautious(), None, [SERVED], 0) == [FIRST];
    assert [FIRST][..0] == [];
    assert ByName([FIRST][..0]) == map[] && ByResource([FIRST][..0]) == map[];
    assert Outranked([SERVED][..0], {}) == [] && Names([]) == {};
  }

  lemma NothingServed(id: nat)
    ensures Rebuilt(Cautious(), Some(SERVING), [ROW], 1, id).byName == map[]
    ensures Rebuilt(Cautious(), Some(SERVING), [ROW], 1, id).version == 1
  {
    MergedBehindTheRow();
    assert EntriesFor(Cautious(), Some(SERVING), [], id) == [];
  }

  // ---------- the session ----------

  function FirstAsked(): Asked { Asked(SERVED, SERVED.resource, NAME, NAME, S256([1]), 7) }

  function TheFlow(): Flow { Granted(FirstAsked()) }

  function TheSession(): Session { SessionOf(TheFlow(), SERVED, [], TOKEN, 0) }

  lemma SessionReaches(w: State) returns (w': State)
    requires Reachable(Cautious(), LONG, w) && w.grants == Grants.INITIAL
    requires 1 in w.callbacks && w.callbacks[1] == Answered(TheFlow(), SERVED, TOKEN)
    ensures Reachable(Cautious(), LONG, w') && w'.served == w.served && w'.calls == w.calls && w'.taken == w.taken
    ensures w'.grants == Grants.Next(LONG, Grants.INITIAL, Opened(TheSession()))
  {
    var step := OpenPlain(1, 2, [], []);
    assert WriteFor(w, step) == InsertSession(1, 2, TheSession(), OwedOf(TheFlow()), []);
    assert CanWrite(LONG, w, step);
    OneStepFurther(Cautious(), LONG, w, Writing(step));
    w' := Wrote(Cautious(), LONG, w, step);
  }

  // ---------- the run ----------

  lemma ReplicaServes() returns (w: State)
    ensures Reachable(Cautious(), LONG, w)
    ensures w == INITIAL.(served := Replicas.State(Targets.INITIAL, map[0 := Replicas.Replica(Some(SERVING), 1, Replicas.Idle)]))
  {
    Boots(Cautious());
    var booted := INITIAL.(served := Replicas.State(Targets.INITIAL, map[0 := Replicas.BOOTING]));
    Rebuilds(Cautious(), booted, []);
    MergedAlone();
    FirstSnapshot();
    w := INITIAL.(served := Replicas.State(Targets.INITIAL, map[0 := Replicas.Replica(Some(SERVING), 1, Replicas.Idle)]));
    assert booted.served.replicas[0 := Replicas.Replica(Some(SERVING), 1, Replicas.Idle)] == w.served.replicas;
  }

  // The session, with access token 5 and refresh token 4.
  ghost predicate HasSession(w: State) {
    && w.grants.clock == 0 && w.grants.db.sessions == map[2 := TheSession()] && w.grants.grants == map[]
    && LiveRefresh(w.grants.db, LONG, 4, NAME, 0) == Some(Refresh(2, NAME, false, 0))
    && LookupAccess(w.grants.db, LONG, 5, 0) == Some((2, TheSession())) && w.grants.db.access[5].client == NAME
    && w.calls == map[] && w.taken == map[]
  }

  lemma CallbackAnswers() returns (w: State)
    ensures Reachable(Cautious(), LONG, w) && w.grants == Grants.INITIAL && w.calls == map[] && w.taken == map[]
    ensures w.served == Replicas.State(Targets.INITIAL, map[0 := Replicas.Replica(Some(SERVING), 1, Replicas.Idle)])
    ensures 1 in w.callbacks && w.callbacks[1] == Answered(TheFlow(), SERVED, TOKEN)
  {
    var w1 := ReplicaServes();
    var w2 := ApprovalReaches(Cautious(), w1, FirstAsked());
    w := CallbackReaches(Cautious(), w2, TheFlow(), SERVED);
  }

  lemma SessionIsOpen() returns (w: State)
    ensures Reachable(Cautious(), LONG, w) && HasSession(w)
    ensures w.served == Replicas.State(Targets.INITIAL, map[0 := Replicas.Replica(Some(SERVING), 1, Replicas.Idle)])
  {
    var w1 := CallbackAnswers();
    var w2 := SessionReaches(w1);
    w := PairIsThere(Cautious(), w2, TheSession());
  }

  // ---------- a request is forwarded ----------

  lemma LetIn(w: State)
    requires HasSession(w) && SnapAt(w, 0) && Snap(w, 0) == SERVING && Rows(w) == map[]
    ensures VerdictOn(LONG, w, Holding(FIRST, true), 5) == Enter(2)
    ensures PayloadNow(LONG, w, Entered(FIRST, 2, NAME)) == Some(ProviderToken(TOKEN))
  {
    assert |PROVIDER_TOKEN| == 14 && |STATIC| == 6 && |PER_USER| == 8;
  }

  /** It happens: there is a reachable state in which a request has been forwarded. */
  lemma ARequestIsForwarded()
    ensures exists w :: Reachable(Cautious(), LONG, w) && Sent(SERVED.url, 2, NAME, ProviderToken(TOKEN)) in w.history.sent
  {
    var w := SessionIsOpen();
    LetIn(w);
    CallOn(Cautious(), w, LoadEntry(0, 0, NAME));
    var w1 := w.(calls := w.calls[0 := Holding(FIRST, true)]);
    assert w1 == Called(LONG, w, LoadEntry(0, 0, NAME));
    LetIn(w.(calls := map[]));
    CallOn(Cautious(), w1, LookUp(0, 5));
    var w2 := w.(calls := map[0 := Entered(FIRST, 2, NAME)]);
    assert VerdictOn(LONG, w1, Holding(FIRST, true), 5) == VerdictOn(LONG, w, Holding(FIRST, true), 5);
    assert w2.calls == CallsAfter(LONG, w1, 0, 5);
    ReadAndForwarded(w2);
  }

  lemma ReadAndForwarded(w: State)
    requires Reachable(Cautious(), LONG, w) && w.calls == map[0 := Entered(FIRST, 2, NAME)]
    requires PayloadNow(LONG, w, Entered(FIRST, 2, NAME)) == Some(ProviderToken(TOKEN))
    ensures exists v :: Reachable(Cautious(), LONG, v) && Sent(SERVED.url, 2, NAME, ProviderToken(TOKEN)) in v.history.sent
  {
    CallOn(Cautious(), w, Read(0));
    var w1 := Called(LONG, w, Read(0));
    assert w1.calls[0] == Ready(FIRST, 2, NAME, ProviderToken(TOKEN));
    CallOn(Cautious(), w1, CallStep.Forward(0));
    assert Sent(SERVED.url, 2, NAME, ProviderToken(TOKEN)) in Called(LONG, w1, CallStep.Forward(0)).history.sent;
  }

  // ---------- a refresh is refused ----------

  // A refresh has taken a live token of this session, at the version there is now, and been told
  // for good that its target is gone, though the session's stamp is the current one.
  ghost predicate RefusedTheCurrent(cfg: Config, w: State, tx: Grants.Tx, id: Secret) {
    && Told(w, tx) && w.taken[tx].verdict == Some(TargetGone) && w.taken[tx].at == w.served.targets.version
    && w.grants.grants[tx].took.Session() == id && id in w.grants.db.sessions
    && w.taken[tx].stamp == w.grants.db.sessions[id].stamp
    && Replicas.IsCurrent(cfg, Rows(w), w.grants.db.sessions[id].target, w.grants.db.sessions[id].stamp)
  }

  ghost predicate EmptiedAgain(w: State) {
    var s := w.served.targets;
    s.version == 2 && s.rows == map[] && |s.tables| == 3 && s.tables[2] == map[]
  }

  // The replica serves nothing, and the row that made it so is gone.
  lemma ReplicaLags() returns (w: State)
    ensures Reachable(Cautious(), LONG, w) && HasSession(w) && EmptiedAgain(w)
    ensures SnapAt(w, 0) && Snap(w, 0).byName == map[]
  {
    var w1 := SessionIsOpen();
    var w2 := RowReaches(Cautious(), w1);
    assert Lists([ROW], Rows(w2));
    Rebuilds(Cautious(), w2, [ROW]);
    var snap := Rebuilt(Cautious(), Some(SERVING), [ROW], 1, 1);
    var after := Replicas.Replica(Some(snap), 1 + |Merged(Cautious(), [ROW])|, Replicas.Idle);
    var w3 := w2.(served := w2.served.(replicas := w2.served.replicas[0 := after]));
    w := RemovalReaches(Cautious(), w3, [map[], map[NAME := ROW]]);
    NothingServed(1);
  }

  lemma TokenTaken(w: State) returns (w': State)
    requires Reachable(Cautious(), LONG, w) && HasSession(w) && EmptiedAgain(w)
    ensures Reachable(Cautious(), LONG, w') && w'.served == w.served && w'.grants.db == w.grants.db
    ensures w'.taken == map[0 := Taken(4, NAME, StampOf(SERVED), None, 2, None)]
    ensures Refreshes(w', 0) && w'.grants.grants[0].pair.None? && w'.grants.grants[0].took.Session() == 2
  {
    GrantOn(Cautious(), w, Grants.Begin(0));
    var w1 := w.(grants := Grants.Next(LONG, w.grants, Grants.Begin(0)));
    JudgeOn(Cautious(), w1, TakeToken(0, 4, NAME, 2));
    w' := Judged(LONG, w1, TakeToken(0, 4, NAME, 2));
  }

  /** It happens: there is a reachable state in which a refresh of a session of the current
      definition, its token live when it was taken, has been refused for good. */
  lemma ACurrentStampIsRefused()
    ensures exists w :: Reachable(Cautious(), LONG, w) && RefusedTheCurrent(Cautious(), w, 0, 2)
  {
    var w1 := ReplicaLags();
    var w2 := TokenTaken(w1);
    assert VerdictAt(w2, w2.taken[0], 0) == TargetGone;
    JudgeOn(Cautious(), w2, Judge(0, 0));
    var w3 := Judged(LONG, w2, Judge(0, 0));
    assert Replicas.IsCurrent(Cautious(), Rows(w3), NAME, StampOf(SERVED)) by { assert SERVED in Cautious().targets; }
    assert RefusedTheCurrent(Cautious(), w3, 0, 2);
  }
}
