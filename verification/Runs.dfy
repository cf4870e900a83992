/** Pieces of concrete runs of the whole, put together where a reachable state is shown. */
module Runs {
  import opened Wrappers
  import opened Bytes
  import opened Stamps
  import opened Sealing
  import opened OAuthTables
  import opened Disk
  import opened Registries
  import opened RegistrySafety
  import opened World
  import opened Confinement
  import Targets
  import Replicas
  import Grants

  const NAME: Text := [0x61]

  const SAVED: Target := Target(NAME, NAME, [0x76], PROVIDER_TOKEN, map[], [], [], [], Admin, [])

  const ROW: Targets.Row := Targets.Row(SAVED.(generation := [2]), [1], 1, StampOf(SAVED.(generation := [2])), None)

  const LONG: Lifetimes := Lifetimes(DAY, DAY)

  const TOKEN: UpstreamToken := UpstreamToken(1, None, None)

  // ---------- steps of the whole ----------

  lemma ServeOn(cfg: Config, w: State, serve: Replicas.Step)
    requires Reachable(cfg, LONG, w) && !Locking(serve) && Replicas.Enabled(w.served, serve)
    ensures Reachable(cfg, LONG, w.(served := Replicas.Next(cfg, w.served, serve)))
  {
    OneStepFurther(cfg, LONG, w, Serve(serve));
  }

  lemma GrantOn(cfg: Config, w: State, grant: Grants.Step)
    requires Reachable(cfg, LONG, w) && CanGrant(LONG, w, grant)
    ensures Reachable(cfg, LONG, w.(grants := Grants.Next(LONG, w.grants, grant)))
  {
    OneStepFurther(cfg, LONG, w, Grant(grant));
  }

  lemma FlowOn(cfg: Config, w: State, flow: FlowStep)
    requires Reachable(cfg, LONG, w) && CanFlow(w, flow)
    ensures Reachable(cfg, LONG, Flowed(w, flow))
  {
    OneStepFurther(cfg, LONG, w, Flowing(flow));
  }

  lemma CallOn(cfg: Config, w: State, call: CallStep)
    requires Reachable(cfg, LONG, w) && CanCall(LONG, w, call)
    ensures Reachable(cfg, LONG, Called(LONG, w, call))
  {
    OneStepFurther(cfg, LONG, w, Calling(call));
  }

  lemma JudgeOn(cfg: Config, w: State, judge: JudgeStep)
    requires Reachable(cfg, LONG, w) && CanJudge(LONG, w, judge)
    ensures Reachable(cfg, LONG, Judged(LONG, w, judge))
  {
    OneStepFurther(cfg, LONG, w, Judging(judge));
  }

  lemma EditOn(cfg: Config, w: State, edit: Targets.Step)
    requires Reachable(cfg, LONG, w) && !edit.LockShare? && !edit.ReleaseShare? && Targets.Enabled(w.served.targets, edit)
    ensures Reachable(cfg, LONG, w.(served := w.served.(targets := Targets.Next(w.served.targets, edit))))
  {
    ServeOn(cfg, w, Replicas.Edit(edit));
  }

  // ---------- a replica ----------

  lemma Boots(cfg: Config)
    requires ConfigOk(cfg)
    ensures Reachable(cfg, LONG, INITIAL.(served := Replicas.State(Targets.INITIAL, map[0 := Replicas.BOOTING])))
  {
    assert Reachable(cfg, LONG, INITIAL) by { assert Reaches(cfg, LONG, INITIAL, [], INITIAL); }
    ServeOn(cfg, INITIAL, Replicas.Boot(0));
    assert Replicas.Next(cfg, INITIAL.served, Replicas.Boot(0)).replicas == map[0 := Replicas.BOOTING];
  }

  // One step of the replica's rebuild, which changes the replica alone.
  ghost predicate Moves(cfg: Config, s: Replicas.State, serve: Replicas.Step, r: Replicas.Replica) {
    Replicas.Enabled(s, serve) && !Locking(serve)
    && Replicas.Next(cfg, s, serve) == s.(replicas := s.replicas[0 := r])
  }

  lemma MoveOn(cfg: Config, w: State, serve: Replicas.Step, r: Replicas.Replica)
    requires Reachable(cfg, LONG, w) && Moves(cfg, w.served, serve, r)
    ensures Reachable(cfg, LONG, w.(served := w.served.(replicas := w.served.replicas[0 := r])))
  {
    ServeOn(cfg, w, serve);
  }

  lemma RebuildMoves(cfg: Config, s: Replicas.State, list: seq<Targets.Row>)
    requires 0 in s.replicas && s.replicas[0].building.Idle? && Lists(list, s.targets.rows)
    ensures var r := s.replicas[0];
            var r1, r2 := r.(building := Replicas.Loading), r.(building := Replicas.Loaded(list, s.targets.version));
            && Moves(cfg, s, Replicas.LockBuild(0), r1)
            && Moves(cfg, s.(replicas := s.replicas[0 := r1]), Replicas.Load(0, list), r2)
            && Moves(cfg, s.(replicas := s.replicas[0 := r2]), Replicas.Publish(0), Replicas.Published(cfg, r2))
  {
    var r := s.replicas[0];
    var r1, r2 := r.(building := Replicas.Loading), r.(building := Replicas.Loaded(list, s.targets.version));
    assert s.replicas[0 := r1][0 := r2] == s.replicas[0 := r2];
  }

  // A rebuild from these rows, at this version.
  lemma Rebuilds(cfg: Config, w: State, list: seq<Targets.Row>)
    requires Reachable(cfg, LONG, w) && 0 in w.served.replicas && w.served.replicas[0].building.Idle?
    requires Lists(list, Rows(w))
    ensures var r2 := w.served.replicas[0].(building := Replicas.Loaded(list, w.served.targets.version));
            Reachable(cfg, LONG, w.(served := w.served.(replicas := w.served.replicas[0 := Replicas.Published(cfg, r2)])))
  {
    var s, r := w.served, w.served.replicas[0];
    var r1, r2 := r.(building := Replicas.Loading), r.(building := Replicas.Loaded(list, s.targets.version));
    var w1, w2 := w.(served := s.(replicas := s.replicas[0 := r1])), w.(served := s.(replicas := s.replicas[0 := r2]));
    RebuildMoves(cfg, s, list);
    MoveOn(cfg, w, Replicas.LockBuild(0), r1);
    MoveOn(cfg, w1, Replicas.Load(0, list), r2);
    assert s.replicas[0 := r1][0 := r2] == s.replicas[0 := r2];
    assert w1.(served := w1.served.(replicas := w1.served.replicas[0 := r2])) == w2;
    MoveOn(cfg, w2, Replicas.Publish(0), Replicas.Published(cfg, r2));
    assert w2.served.replicas[0 := Replicas.Published(cfg, r2)] == s.replicas[0 := Replicas.Published(cfg, r2)];
  }

  // ---------- a flow ----------

  // A flow that somebody approved.
  function Granted(a: Asked): Flow { FlowOf(a, 0).(approved := true) }

  lemma ApprovalReaches(cfg: Config, w: State, a: Asked) returns (w': State)
    requires Reachable(cfg, LONG, w) && SnapAt(w, 0) && ResolveResource(Snap(w, 0), a.resource) == Some(a.target)
    requires 1 !in w.history.asked && w.grants.clock == 0 && 1 !in w.flows
    ensures Reachable(cfg, LONG, w') && w'.served == w.served && w'.grants == w.grants && w'.callbacks == w.callbacks
    ensures w'.calls == w.calls && w'.taken == w.taken && w'.writes == w.writes && w'.history.origins == w.history.origins
    ensures 1 in w'.flows && w'.flows[1] == Granted(a)
  {
    FlowOn(cfg, w, Authorize(1, 0, a));
    var w1 := Flowed(w, Authorize(1, 0, a));
    FlowOn(cfg, w1, StoreFlow(1));
    var w2 := Flowed(w1, StoreFlow(1));
    assert w2.flows[1] == FlowOf(a, 0);
    FlowOn(cfg, w2, Approve(1, a.secret));
    w' := Flowed(w2, Approve(1, a.secret));
  }

  // The callback has the provider's token.
  lemma CallbackReaches(cfg: Config, w: State, flow: Flow, t: Target) returns (w': State)
    requires Reachable(cfg, LONG, w) && SnapAt(w, 0) && TargetForFlow(Snap(w, 0), flow) == Some(t)
    requires w.grants.clock == 0 && 1 in w.flows && w.flows[1] == flow && flow.approved && flow.createdAt == 0
    ensures Reachable(cfg, LONG, w') && w'.served == w.served && w'.grants == w.grants
    ensures w'.calls == w.calls && w'.taken == w.taken && w'.writes == w.writes && w'.history.origins == w.history.origins
    ensures 1 in w'.callbacks && w'.callbacks[1] == Answered(flow, t, TOKEN)
  {
    FlowOn(cfg, w, Redeem(1));
    var w1 := Flowed(w, Redeem(1));
    assert w1.callbacks[1] == Redeemed(flow);
    FlowOn(cfg, w1, Resolve(1, 0));
    var w2 := Flowed(w1, Resolve(1, 0));
    assert w2.callbacks[1] == Resolved(flow, t);
    FlowOn(cfg, w2, Obtain(1, TOKEN));
    w' := Flowed(w2, Obtain(1, TOKEN));
  }

  // ---------- a grant ----------

  // What a session of client and redirect NAME owes a code for.
  function Owing(): Grants.Owed { Grants.Owed(NAME, NAME, S256([1])) }

  function Opened(session: Session): Grants.Step { Grants.OpenSession(2, session, Owing()) }

  function TheRequest(): CodeRequest { CodeRequest(3, NAME, NAME, [1]) }

  function TheCode(): AuthCode { AuthCode(2, NAME, NAME, S256([1]), 0) }

  function Took(): Grants.Grant { Grants.Grant(0, Grants.TookCode(TheRequest(), TheCode()), None) }

  lemma CodeIsIssued(cfg: Config, w: State, session: Session) returns (w': State)
    requires Reachable(cfg, LONG, w) && session.createdAt == 0
    requires w.grants == Grants.Next(LONG, Grants.INITIAL, Opened(session))
    ensures Reachable(cfg, LONG, w') && w' == w.(grants := w'.grants)
    ensures var g := w'.grants;
            && g.clock == 0 && g.drawn == {2, 3} && g.grants == map[]
            && g.db == Tables(map[2 := session], map[3 := TheCode()], map[], map[])
  {
    GrantOn(cfg, w, Grants.IssueCode(2, 3, 0));
    w' := w.(grants := Grants.Next(LONG, w.grants, Grants.IssueCode(2, 3, 0)));
  }

  lemma CodeReaches(cfg: Config, w: State, session: Session) returns (w': State)
    requires Reachable(cfg, LONG, w) && session.createdAt == 0
    requires w.grants == Grants.Next(LONG, Grants.INITIAL, Opened(session))
    ensures Reachable(cfg, LONG, w') && w' == w.(grants := w'.grants)
    ensures var g := w'.grants;
            && g.clock == 0 && g.drawn == {2, 3} && g.grants == map[0 := Took()]
            && g.db == Tables(map[2 := session], map[3 := TheCode()], map[], map[])
  {
    var w1 := CodeIsIssued(cfg, w, session);
    GrantOn(cfg, w1, Grants.Begin(0));
    var w2 := w1.(grants := Grants.Next(LONG, w1.grants, Grants.Begin(0)));
    GrantOn(cfg, w2, Grants.TakeCode(0, TheRequest()));
    w' := w2.(grants := Grants.Next(LONG, w2.grants, Grants.TakeCode(0, TheRequest())));
  }

  function ThePair(): Pair { Pair(5, 4, 2, NAME) }

  lemma PairReaches(cfg: Config, w: State, session: Session) returns (w': State)
    requires Reachable(cfg, LONG, w)
    requires var g := w.grants;
             && g.clock == 0 && g.drawn == {2, 3} && g.grants == map[0 := Took()]
             && g.db == Tables(map[2 := session], map[3 := TheCode()], map[], map[])
    ensures Reachable(cfg, LONG, w') && w' == w.(grants := w'.grants) && w'.grants.clock == 0
    ensures w'.grants.drawn == {2, 3, 4, 5}
    ensures w'.grants.grants == map[0 := Took().(pair := Some(ThePair()))] && w'.grants.db == w.grants.db
  {
    GrantOn(cfg, w, Grants.CreatePair(0, 5, 4));
    w' := w.(grants := Grants.Next(LONG, w.grants, Grants.CreatePair(0, 5, 4)));
  }

  // The session's access token is 5 and its refresh token 4.
  lemma GrantReaches(cfg: Config, w: State, session: Session) returns (w': State)
    requires Reachable(cfg, LONG, w) && w.grants.clock == 0 && session.createdAt == 0
    requires w.grants.grants == map[0 := Took().(pair := Some(ThePair()))]
    requires w.grants.db == Tables(map[2 := session], map[3 := TheCode()], map[], map[])
    ensures Reachable(cfg, LONG, w') && w' == w.(grants := w'.grants) && w'.grants.clock == 0
    ensures w'.grants.db.sessions == map[2 := session] && w'.grants.grants == map[]
    ensures LiveRefresh(w'.grants.db, LONG, 4, NAME, 0) == Some(Refresh(2, NAME, false, 0))
    ensures LookupAccess(w'.grants.db, LONG, 5, 0) == Some((2, session)) && w'.grants.db.access[5].client == NAME
    ensures w'.grants.drawn == w.grants.drawn
  {
    GrantOn(cfg, w, Grants.Commit(0));
    w' := w.(grants := Grants.Next(LONG, w.grants, Grants.Commit(0)));
  }

  // From a session just opened to its first pair.
  lemma PairIsThere(cfg: Config, w: State, session: Session) returns (w': State)
    requires Reachable(cfg, LONG, w) && session.createdAt == 0
    requires w.grants == Grants.Next(LONG, Grants.INITIAL, Opened(session))
    ensures Reachable(cfg, LONG, w') && w' == w.(grants := w'.grants) && w'.grants.clock == 0
    ensures w'.grants.db.sessions == map[2 := session] && w'.grants.grants == map[]
    ensures LiveRefresh(w'.grants.db, LONG, 4, NAME, 0) == Some(Refresh(2, NAME, false, 0))
    ensures LookupAccess(w'.grants.db, LONG, 5, 0) == Some((2, session)) && w'.grants.db.access[5].client == NAME
    ensures w'.grants.drawn == {2, 3, 4, 5}
  {
    var w1 := CodeReaches(cfg, w, session);
    var w2 := PairReaches(cfg, w1, session);
    w' := GrantReaches(cfg, w2, session);
  }

  // ---------- the row ----------

  lemma RowIsWhatIsSaved()
    ensures Targets.CreatedRow(SAVED, [1], [2]) == Ok(ROW)
  {
    assert |PROVIDER_TOKEN| == 14 && |STATIC| == 6 && |PER_USER| == 8;
    assert |Ascii("admin")| == 5 && |Ascii("settings")| == 8;
  }

  // The table holds the row, or nothing, and nobody is at work on it.
  ghost predicate Quiet(s: Targets.State, rows: Targets.Rows, version: nat, tables: seq<Targets.Rows>) {
    s.rows == rows && s.version == version && s.edits == map[] && s.fences == map[] && s.tables == tables
  }

  lemma RowReaches(cfg: Config, w: State) returns (w': State)
    requires Reachable(cfg, LONG, w) && w.served.targets == Targets.INITIAL
    ensures Reachable(cfg, LONG, w') && w' == w.(served := w.served.(targets := w'.served.targets))
    ensures Quiet(w'.served.targets, map[NAME := ROW], 1, [map[], map[NAME := ROW]])
  {
    RowIsWhatIsSaved();
    EditOn(cfg, w, Targets.BeginCreate(0, SAVED, [1], [2]));
    var s1 := Targets.Next(w.served.targets, Targets.BeginCreate(0, SAVED, [1], [2]));
    var w1 := w.(served := w.served.(targets := s1));
    w' := EditReaches(cfg, w1, Targets.Edit(None, Targets.Put(ROW), None));
    assert w1.served.(targets := w'.served.targets) == w.served.(targets := w'.served.targets);
  }

  lemma BumpReaches(cfg: Config, w: State, e: Targets.Edit) returns (w': State)
    requires Reachable(cfg, LONG, w) && w.served.targets.edits == map[0 := e] && e.bumped.None?
    ensures Reachable(cfg, LONG, w')
    ensures w' == w.(served := w.served.(targets :=
      w.served.targets.(edits := map[0 := e.(bumped := Some(w.served.targets.version + 1))])))
  {
    EditOn(cfg, w, Targets.Bump(0));
    var s1 := Targets.Next(w.served.targets, Targets.Bump(0));
    assert s1.edits == map[0 := e.(bumped := Some(w.served.targets.version + 1))];
    w' := w.(served := w.served.(targets := s1));
  }

  // An open edit bumps the version and commits.
  lemma EditReaches(cfg: Config, w: State, e: Targets.Edit) returns (w': State)
    requires Reachable(cfg, LONG, w) && w.served.targets.edits == map[0 := e] && e.bumped.None?
    ensures Reachable(cfg, LONG, w') && w' == w.(served := w.served.(targets := w'.served.targets))
    ensures var (s, s') := (w.served.targets, w'.served.targets);
            && s'.rows == Targets.Applied(s.rows, e.change) && s'.version == s.version + 1
            && s'.edits == map[] && s'.fences == s.fences && s'.tables == s.tables + [s'.rows]
  {
    var w1 := BumpReaches(cfg, w, e);
    var s1 := w1.served.targets;
    EditOn(cfg, w1, Targets.CommitEdit(0));
    w' := w.(served := w.served.(targets := Targets.Next(s1, Targets.CommitEdit(0))));
    assert map[0 := s1.edits[0]] - {0} == map[];
  }

  lemma RemovalReaches(cfg: Config, w: State, tables: seq<Targets.Rows>) returns (w': State)
    requires Reachable(cfg, LONG, w) && Quiet(w.served.targets, map[NAME := ROW], 1, tables)
    ensures Reachable(cfg, LONG, w') && w' == w.(served := w.served.(targets := w'.served.targets))
    ensures Quiet(w'.served.targets, map[], 2, tables + [map[]])
  {
    var key := Targets.KeyOf(ROW);
    EditOn(cfg, w, Targets.BeginDelete(0, key));
    var s1 := Targets.Next(w.served.targets, Targets.BeginDelete(0, key));
    var w1 := w.(served := w.served.(targets := s1));
    w' := EditReaches(cfg, w1, Targets.Edit(Some(ROW), Targets.Remove(NAME), None));
    assert map[NAME := ROW] - {NAME} == map[];
    assert w1.served.(targets := w'.served.targets) == w.served.(targets := w'.served.targets);
  }
}
