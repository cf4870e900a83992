/** What tokenFromRefresh decides, over the three instants it goes through: the statement that
    takes the token and reads its target's stamp, the load of the snapshot it judges that
    against, and the commit. */
module TokenVerdicts {
  import opened Wrappers
  import opened Bytes
  import opened Stamps
  import opened OAuthTables
  import opened Registries
  import opened RegistrySafety
  import opened World
  import opened Confinement
  import opened FenceSafety
  import Targets
  import TargetSafety
  import Replicas
  import ReplicaSafety
  import Grants
  import GrantSafety

  // ---------- the invariant ----------

  // What was read was so at that version, and an issue was judged for the stamp current then.
  ghost predicate TakenOk(cfg: Config, tables: seq<Targets.Rows>, r: Taken) {
    && r.at < |tables| && r.current == Targets.CurrentStamp(tables[r.at], r.target)
    && (r.verdict == Some(Issue) ==> Replicas.IsCurrent(cfg, tables[r.at], r.target, r.stamp))
  }

  // A grant that took a refresh token is of what was read with it, and has a pair only by leave.
  ghost predicate GrantTaken(w: State, tx: Grants.Tx) {
    tx in w.grants.grants && w.grants.grants[tx].took.TookRefresh? ==>
      var g := w.grants.grants[tx];
      && tx in w.taken && w.taken[tx].token == g.took.token
      && (g.took.Session() in w.grants.db.sessions ==>
           w.grants.db.sessions[g.took.Session()].stamp == w.taken[tx].stamp
           && w.grants.db.sessions[g.took.Session()].target == w.taken[tx].target)
      && (g.pair.Some? ==> w.taken[tx].verdict == Some(Issue))
  }

  ghost predicate AllTaken(cfg: Config, w: State) {
    && (forall tx :: tx in w.taken ==> TakenOk(cfg, w.served.targets.tables, w.taken[tx]))
    && (forall tx :: GrantTaken(w, tx))
  }

  lemma TakenStays(cfg: Config, tables: seq<Targets.Rows>, more: seq<Targets.Rows>, r: Taken)
    requires TakenOk(cfg, tables, r) && tables <= more
    ensures TakenOk(cfg, more, r)
  {
    assert more[r.at] == tables[r.at];
  }

  // ---------- one step of the grant store ----------

  // Only TakeRefresh makes a grant hold a refresh token, and only CreatePair gives it a pair.
  lemma TooksStay(ttl: Lifetimes, s: Grants.State, step: Grants.Step, tx: Grants.Tx)
    requires Grants.Enabled(ttl, s, step) && GrantSafety.GrantsOk(s)
    requires var s' := Grants.Next(ttl, s, step); tx in s'.grants && s'.grants[tx].took.TookRefresh?
    ensures var g := Grants.Next(ttl, s, step).grants[tx];
            || (step.TakeRefresh? && step.tx == tx && g.pair.None?)
            || (tx in s.grants && s.grants[tx].took == g.took
                && (s.grants[tx].pair == g.pair || (step.CreatePair? && step.tx == tx)))
  {
    if tx in s.grants { assert GrantSafety.GrantOk(s, s.grants[tx]); }
  }

  // A session that stays keeps its stamp and target.
  lemma SessionsStay(ttl: Lifetimes, s: Grants.State, step: Grants.Step, id: Secret)
    requires Grants.Enabled(ttl, s, step) && id in s.drawn && id in s.db.sessions
    ensures var sessions := Grants.Next(ttl, s, step).db.sessions;
            id in sessions ==> sessions[id].stamp == s.db.sessions[id].stamp && sessions[id].target == s.db.sessions[id].target
  {
  }

  lemma HeldSession(s: Grants.State, tx: Grants.Tx)
    requires GrantSafety.RowsOk(s) && GrantSafety.GrantsOk(s) && tx in s.grants && s.grants[tx].took.TookRefresh?
    ensures var g := s.grants[tx]; g.took.Session() in s.db.sessions && g.took.Session() in s.drawn
  {
    assert GrantSafety.GrantOk(s, s.grants[tx]);
  }

  // ---------- each step keeps it ----------

  // The taken are as they were, and the grant store took this step, or none.
  ghost predicate GrantMoves(ttl: Lifetimes, w: State, w': State, step: Option<Grants.Step>) {
    && w'.taken == w.taken
    && match step
       case Some(grant) =>
         && Grants.Enabled(ttl, w.grants, grant) && w'.grants == Grants.Next(ttl, w.grants, grant)
         && !grant.TakeRefresh? && (grant.CreatePair? ==> MayIssue(w, grant.tx))
       case None => w'.grants == w.grants
  }

  lemma GrantMovesKeep(ttl: Lifetimes, w: State, w': State, step: Option<Grants.Step>, tx: Grants.Tx)
    requires GrantMoves(ttl, w, w', step) && GrantTaken(w, tx)
    requires GrantSafety.RowsOk(w.grants) && GrantSafety.GrantsOk(w.grants)
    ensures GrantTaken(w', tx)
  {
    if tx in w'.grants.grants && w'.grants.grants[tx].took.TookRefresh? && step.Some? {
      TooksStay(ttl, w.grants, step.value, tx);
      HeldSession(w.grants, tx);
      SessionsStay(ttl, w.grants, step.value, w.grants.grants[tx].took.Session());
    }
  }

  lemma TakeTokenKeeps(ttl: Lifetimes, w: State, tx: Grants.Tx, token: Secret, client: Text, at: nat, ty: Grants.Tx)
    requires GrantSafety.GrantsOk(w.grants)
    requires CanJudge(ttl, w, TakeToken(tx, token, client, at)) && GrantTaken(w, ty)
    ensures GrantTaken(Judged(ttl, w, TakeToken(tx, token, client, at)), ty)
  {
    assert GrantSafety.GrantOk(w.grants, w.grants.grants[tx]);
  }

  lemma ServedUnder(cfg: Config, s: Replicas.State, rid: Replicas.Rid, name: Text)
    requires ReplicaSafety.Inv(cfg, s) && ReplicaSafety.Serving(s, rid) && name in s.replicas[rid].snap.value.byName
    ensures var e := s.replicas[rid].snap.value.byName[name];
            e.target.name == name && ReplicaSafety.EntryOk(cfg, s.targets.tables, e)
  {
    assert ReplicaSafety.ReplicaOk(cfg, s.targets.tables, s.replicas[rid]);
    ReplicaSafety.ServedEntryOk(cfg, s, rid, s.replicas[rid].snap.value.byName[name]);
  }

  // A snapshot loaded after the read issues only for what was current at the read.
  lemma IssueIsForTheCurrent(cfg: Config, s: Replicas.State, rid: Replicas.Rid, r: Taken)
    requires ConfigOk(cfg) && ReplicaSafety.Inv(cfg, s) && ReplicaSafety.Serving(s, rid) && TakenOk(cfg, s.targets.tables, r)
    ensures var e := Find(Some(s.replicas[rid].snap.value), r.target);
            var verdict := JudgeRefresh(e, r.stamp, r.current);
            && (verdict.Issue? ==> Replicas.IsCurrent(cfg, s.targets.tables[r.at], r.target, r.stamp))
            && (e.Some? ==>
              && (verdict.TryLater? <==> !Replicas.IsCurrent(cfg, s.targets.tables[r.at], r.target, e.value.stamp))
              && (verdict.TargetGone? ==> !Replicas.IsCurrent(cfg, s.targets.tables[r.at], r.target, r.stamp)))
  {
    var snap := s.replicas[rid].snap.value;
    if r.target in snap.byName {
      var e := snap.byName[r.target];
      ServedUnder(cfg, s, rid, r.target);
      ReplicaSafety.HeldEntryIsFreshAt(cfg, s.targets, e, r.at);
      var rows := s.targets.tables[r.at];
      if Replicas.IsCurrent(cfg, rows, r.target, e.stamp) && Replicas.IsCurrent(cfg, rows, r.target, r.stamp) {
        OneStampIsCurrent(cfg, rows, r.target, e.stamp, r.stamp);
      }
    }
  }

  lemma JudgedOk(cfg: Config, w: State, tx: Grants.Tx, rid: Replicas.Rid)
    requires ConfigOk(cfg) && ReplicaSafety.Inv(cfg, w.served) && SnapAt(w, rid)
    requires tx in w.taken && TakenOk(cfg, w.served.targets.tables, w.taken[tx])
    ensures TakenOk(cfg, w.served.targets.tables, w.taken[tx].(verdict := Some(VerdictAt(w, w.taken[tx], rid))))
  {
    IssueIsForTheCurrent(cfg, w.served, rid, w.taken[tx]);
  }

  lemma JudgeStepKeeps(cfg: Config, ttl: Lifetimes, w: State, judge: JudgeStep)
    requires ConfigOk(cfg) && ReplicaSafety.Inv(cfg, w.served) && GrantSafety.GrantsOk(w.grants)
    requires AllTaken(cfg, w) && CanJudge(ttl, w, judge)
    ensures AllTaken(cfg, Judged(ttl, w, judge))
  {
    var w' := Judged(ttl, w, judge);
    match judge
    case TakeToken(tx, token, client, at) =>
      forall ty ensures GrantTaken(w', ty) { TakeTokenKeeps(ttl, w, tx, token, client, at, ty); }
    case Judge(tx, rid) =>
      JudgedOk(cfg, w, tx, rid);
      forall ty ensures GrantTaken(w', ty) { assert GrantTaken(w, ty); }
  }

  lemma OtherStepMoves(cfg: Config, ttl: Lifetimes, w: State, step: Step)
    requires Enabled(ttl, w, step) && !step.Judging?
    ensures GrantMoves(ttl, w, Next(cfg, ttl, w, step), GrantPart(ttl, w, step))
  {
    StepGrants(cfg, ttl, w, step);
    match step
    case Serve(_) =>
    case Grant(_) =>
    case Flowing(flow) => FlowLeavesTheRest(w, flow);
    case Writing(write) => WritesLeaveTheRest(cfg, ttl, w, write);
    case Calling(call) => CallLeavesRows(ttl, w, call);
    case Purging(purge) => PurgeLeavesTheRest(ttl, w, purge);
  }

  lemma WritesLeaveTheRest(cfg: Config, ttl: Lifetimes, w: State, write: WriteStep)
    requires CanWrite(ttl, w, write)
    ensures var w' := Wrote(cfg, ttl, w, write); w'.taken == w.taken && w'.history.asked == w.history.asked
  {
    match write
    case OpenPlain(_, _, _, _) => LandingLeavesTheRest(ttl, w, WriteFor(w, write));
    case RewritePlain(_) => LandingLeavesTheRest(ttl, w, WriteFor(w, write));
    case CommitWrite(tx) => LandingLeavesTheRest(ttl, w, w.writes[tx]);
    case PutPlain(pid) => LandingLeavesTheRest(ttl, w, PutCredential(w.saves[pid].key, w.saves[pid].box));
    case _ =>
  }

  lemma OtherStepKeeps(cfg: Config, ttl: Lifetimes, w: State, step: Step)
    requires GrantSafety.RowsOk(w.grants) && GrantSafety.GrantsOk(w.grants) && AllTaken(cfg, w)
    requires Enabled(ttl, w, step) && !step.Judging?
    ensures AllTaken(cfg, Next(cfg, ttl, w, step))
  {
    var w' := Next(cfg, ttl, w, step);
    TablesGrow(cfg, ttl, w, step);
    OtherStepMoves(cfg, ttl, w, step);
    forall tx | tx in w'.taken ensures TakenOk(cfg, w'.served.targets.tables, w'.taken[tx]) {
      TakenStays(cfg, w.served.targets.tables, w'.served.targets.tables, w.taken[tx]);
    }
    forall tx ensures GrantTaken(w', tx) { GrantMovesKeep(ttl, w, w', GrantPart(ttl, w, step), tx); }
  }

  lemma Pieces(cfg: Config, ttl: Lifetimes, w: State)
    requires Reachable(cfg, ttl, w)
    ensures ConfigOk(cfg) && ReplicaSafety.Inv(cfg, w.served)
    ensures GrantSafety.RowsOk(w.grants) && GrantSafety.GrantsOk(w.grants)
  {
    ReachableInv(cfg, ttl, w);
  }

  lemma {:induction false} RunsKeepTaken(cfg: Config, ttl: Lifetimes, a: State, steps: seq<Step>, b: State)
    requires Reachable(cfg, ttl, a) && AllTaken(cfg, a) && Reaches(cfg, ttl, a, steps, b)
    ensures AllTaken(cfg, b)
    decreases |steps|
  {
    if steps != [] {
      Pieces(cfg, ttl, a);
      if steps[0].Judging? { JudgeStepKeeps(cfg, ttl, a, steps[0].judge); } else { OtherStepKeeps(cfg, ttl, a, steps[0]); }
      OneStepFurther(cfg, ttl, a, steps[0]);
      RunsKeepTaken(cfg, ttl, Next(cfg, ttl, a, steps[0]), steps[1..], b);
    }
  }

  lemma ReachableTaken(cfg: Config, ttl: Lifetimes, w: State)
    requires Reachable(cfg, ttl, w)
    ensures AllTaken(cfg, w)
  {
    var steps :| Reaches(cfg, ttl, INITIAL, steps, w);
    assert Reaches(cfg, ttl, INITIAL, [], INITIAL);
    RunsKeepTaken(cfg, ttl, INITIAL, steps, w);
  }

  // ---------- what a refresh buys ----------

  predicate Refreshes(w: State, tx: Grants.Tx) { tx in w.grants.grants && w.grants.grants[tx].took.TookRefresh? }

  /** Every refresh that commits a pair is of a session whose stamp was current in the snapshot of
      the statement that took its token, whatever edits have committed since. */
  lemma RefreshesBuyForTheCurrent(cfg: Config, ttl: Lifetimes, w: State, tx: Grants.Tx)
    requires Reachable(cfg, ttl, w) && Refreshes(w, tx) && Enabled(ttl, w, Grant(Grants.Commit(tx)))
    ensures var id := w.grants.grants[tx].took.Session();
            && id in w.grants.db.sessions && tx in w.taken && w.taken[tx].at < |w.served.targets.tables|
            && w.taken[tx].stamp == w.grants.db.sessions[id].stamp && w.taken[tx].token == w.grants.grants[tx].took.token
            && Replicas.IsCurrent(cfg, w.served.targets.tables[w.taken[tx].at], w.grants.db.sessions[id].target, w.grants.db.sessions[id].stamp)
  {
    ReachableTaken(cfg, ttl, w);
    Pieces(cfg, ttl, w);
    BoughtForTheCurrent(cfg, w, tx);
  }

  lemma BoughtForTheCurrent(cfg: Config, w: State, tx: Grants.Tx)
    requires AllTaken(cfg, w) && GrantSafety.RowsOk(w.grants) && GrantSafety.GrantsOk(w.grants)
    requires Refreshes(w, tx) && w.grants.grants[tx].pair.Some?
    ensures var id := w.grants.grants[tx].took.Session();
            && id in w.grants.db.sessions && tx in w.taken && w.taken[tx].at < |w.served.targets.tables|
            && w.taken[tx].stamp == w.grants.db.sessions[id].stamp && w.taken[tx].token == w.grants.grants[tx].took.token
            && Replicas.IsCurrent(cfg, w.served.targets.tables[w.taken[tx].at], w.grants.db.sessions[id].target, w.grants.db.sessions[id].stamp)
  {
    HeldSession(w.grants, tx);
    assert GrantTaken(w, tx) && TakenOk(cfg, w.served.targets.tables, w.taken[tx]);
  }

  // A stamp that one version carried and a later one did not, no version after it carries.
  lemma LeftForGood(s: Targets.State, name: Text, stamp: Stamp, i: nat, j: nat, k: nat)
    requires TargetSafety.Inv(s) && i <= j < |s.tables| && k < |s.tables|
    requires Carried(s.tables, i, name, stamp) && !Carried(s.tables, j, name, stamp) && Carried(s.tables, k, name, stamp)
    ensures k < j
  {
    assert TargetSafety.StampStays(s.tables, i, j, if j <= k then k else j, name, name);
  }

  /** No take begun once a stamp is retired ever buys a pair for it: a refresh that commits one
      took its token in a snapshot of a version older than the one that retired it. */
  lemma NoneTakenAfterRetirementBuys(cfg: Config, ttl: Lifetimes, w: State, tx: Grants.Tx, i: nat, j: nat)
    requires Reachable(cfg, ttl, w) && Refreshes(w, tx) && Enabled(ttl, w, Grant(Grants.Commit(tx))) && tx in w.taken
    requires var (tables, r) := (w.served.targets.tables, w.taken[tx]);
             && r.stamp.IsAdmin() && i <= j < |tables|
             && Carried(tables, i, r.target, r.stamp) && !Carried(tables, j, r.target, r.stamp)
    ensures w.taken[tx].at < j
  {
    RefreshesBuyForTheCurrent(cfg, ttl, w, tx);
    ReachableTaken(cfg, ttl, w);
    Pieces(cfg, ttl, w);
    assert GrantTaken(w, tx) && TakenOk(cfg, w.served.targets.tables, w.taken[tx]);
    var r := w.taken[tx];
    LeftForGood(w.served.targets, r.target, r.stamp, i, j, r.at);
  }

  // ---------- what is refused ----------

  // Judged, and not to be issued.
  ghost predicate Told(w: State, tx: Grants.Tx) {
    Refreshes(w, tx) && w.grants.grants[tx].pair.None?
    && tx in w.taken && w.taken[tx].verdict.Some? && w.taken[tx].verdict != Some(Issue)
  }

  lemma ToldWhileMoving(ttl: Lifetimes, w: State, w': State, step: Option<Grants.Step>, tx: Grants.Tx)
    requires GrantMoves(ttl, w, w', step) && Told(w, tx) && step != Some(Grants.Rollback(tx))
    ensures Told(w', tx)
  {
    if step.Some? { HeldByOneOf(ttl, w.grants, step.value, tx); }
  }

  lemma ToldWhileJudging(ttl: Lifetimes, w: State, judge: JudgeStep, tx: Grants.Tx)
    requires CanJudge(ttl, w, judge) && Told(w, tx)
    ensures Told(Judged(ttl, w, judge), tx)
  {
  }

  // The verdict stands, whatever else happens, until the grant rolls back.
  lemma ToldStays(cfg: Config, ttl: Lifetimes, w: State, step: Step, tx: Grants.Tx)
    requires Enabled(ttl, w, step) && Told(w, tx) && step != Grant(Grants.Rollback(tx))
    ensures step != Grant(Grants.Commit(tx)) && Told(Next(cfg, ttl, w, step), tx)
  {
    if step.Judging? {
      ToldWhileJudging(ttl, w, step.judge, tx);
    } else {
      OtherStepMoves(cfg, ttl, w, step);
      ToldWhileMoving(ttl, w, Next(cfg, ttl, w, step), GrantPart(ttl, w, step), tx);
      if step.Grant? { HeldByOneOf(ttl, w.grants, step.grant, tx); }
    }
  }

  lemma HeldByOneOf(ttl: Lifetimes, s: Grants.State, step: Grants.Step, tx: Grants.Tx)
    requires Grants.Enabled(ttl, s, step) && tx in s.grants && s.grants[tx].took.TookRefresh? && s.grants[tx].pair.None?
    ensures step != Grants.Commit(tx) && step != Grants.SpendMismatched(tx)
    ensures step != Grants.Rollback(tx) && !(step.CreatePair? && step.tx == tx) ==>
      tx in Grants.Next(ttl, s, step).grants && Grants.Next(ttl, s, step).grants[tx] == s.grants[tx]
  {
  }

  ghost predicate HoldsItUnused(ttl: Lifetimes, w: State, tx: Grants.Tx) {
    && Refreshes(w, tx) && !Enabled(ttl, w, Grant(Grants.Commit(tx)))
    && w.grants.grants[tx].took.token in w.grants.db.refresh && !w.grants.db.refresh[w.grants.grants[tx].took.token].used
    && Grants.Next(ttl, w.grants, Grants.Rollback(tx)).db == w.grants.db
  }

  lemma HeldUnused(ttl: Lifetimes, w: State, tx: Grants.Tx)
    requires GrantSafety.GrantsOk(w.grants) && Told(w, tx)
    ensures HoldsItUnused(ttl, w, tx)
  {
    assert GrantSafety.GrantOk(w.grants, w.grants.grants[tx]);
  }

  predicate Without(steps: seq<Step>, step: Step) { forall i :: 0 <= i < |steps| ==> steps[i] != step }

  lemma {:induction false} ToldToTheEnd(cfg: Config, ttl: Lifetimes, w: State, steps: seq<Step>, later: State, tx: Grants.Tx)
    requires Told(w, tx) && Reaches(cfg, ttl, w, steps, later) && Without(steps, Grant(Grants.Rollback(tx)))
    ensures Told(later, tx) && Without(steps, Grant(Grants.Commit(tx)))
    decreases |steps|
  {
    if steps != [] {
      ToldStays(cfg, ttl, w, steps[0], tx);
      assert forall i :: 0 <= i < |steps[1..]| ==> steps[1..][i] == steps[i + 1];
      assert Without(steps[1..], Grant(Grants.Rollback(tx)));
      ToldToTheEnd(cfg, ttl, Next(cfg, ttl, w, steps[0]), steps[1..], later, tx);
      assert forall i :: 0 < i < |steps| ==> steps[i] == steps[1..][i - 1];
    }
  }

  /** A refresh told to try later, or that its target is gone, never commits: whatever runs after,
      until it rolls back it holds its token unused, and its rollback changes no row. */
  lemma RefusedRefreshesNeverCommit(cfg: Config, ttl: Lifetimes, w: State, steps: seq<Step>, later: State, tx: Grants.Tx)
    requires Reachable(cfg, ttl, w) && Told(w, tx) && Reaches(cfg, ttl, w, steps, later)
    requires Without(steps, Grant(Grants.Rollback(tx)))
    ensures Without(steps, Grant(Grants.Commit(tx))) && HoldsItUnused(ttl, later, tx)
  {
    ToldToTheEnd(cfg, ttl, w, steps, later, tx);
    StillReachable(cfg, ttl, w, steps, later);
    Pieces(cfg, ttl, later);
    HeldUnused(ttl, later, tx);
  }

  // ---------- the grant store by itself ----------

  // What the run of the whole does in the grant store.
  ghost function GrantSteps(cfg: Config, ttl: Lifetimes, a: State, steps: seq<Step>): seq<Grants.Step>
    decreases |steps|
  {
    if steps == [] || !Enabled(ttl, a, steps[0]) then []
    else
      var rest := GrantSteps(cfg, ttl, Next(cfg, ttl, a, steps[0]), steps[1..]);
      match GrantPart(ttl, a, steps[0]) case Some(grant) => [grant] + rest case None => rest
  }

  /** A run of the whole is a run of the grant store, so all that is proved of its runs holds here,
      and with it that a grant which does not commit leaves nothing behind. */
  lemma {:induction false} WholeRunsAreGrantRuns(cfg: Config, ttl: Lifetimes, a: State, steps: seq<Step>, b: State)
    requires Reaches(cfg, ttl, a, steps, b)
    ensures GrantSafety.Reaches(ttl, a.grants, GrantSteps(cfg, ttl, a, steps), b.grants)
    decreases |steps|
  {
    if steps != [] {
      var m := Next(cfg, ttl, a, steps[0]);
      var rest := GrantSteps(cfg, ttl, m, steps[1..]);
      StepGrants(cfg, ttl, a, steps[0]);
      WholeRunsAreGrantRuns(cfg, ttl, m, steps[1..], b);
      if GrantPart(ttl, a, steps[0]).Some? { assert ([GrantPart(ttl, a, steps[0]).value] + rest)[1..] == rest; }
    }
  }

  // ---------- the verdicts ----------

  /** For a target the replica serves: told to try later exactly when the entry it has is not what
      was current in the take's snapshot, be the entry older or newer; issued only for a stamp
      current then, and refused only for one that was not. */
  lemma RefreshVerdictsAreExact(cfg: Config, ttl: Lifetimes, w: State, tx: Grants.Tx, rid: Replicas.Rid)
    requires Reachable(cfg, ttl, w) && CanJudge(ttl, w, Judge(tx, rid)) && w.taken[tx].target in Snap(w, rid).byName
    ensures w.taken[tx].at < |w.served.targets.tables|
    ensures var (r, verdict) := (w.taken[tx], VerdictAt(w, w.taken[tx], rid));
            var (rows, e) := (w.served.targets.tables[r.at], Snap(w, rid).byName[r.target]);
            && (verdict.TryLater? <==> !Replicas.IsCurrent(cfg, rows, r.target, e.stamp))
            && (verdict.Issue? ==> Replicas.IsCurrent(cfg, rows, r.target, r.stamp))
            && (verdict.TargetGone? ==> !Replicas.IsCurrent(cfg, rows, r.target, r.stamp))
  {
    ReachableTaken(cfg, ttl, w);
    Pieces(cfg, ttl, w);
    IssueIsForTheCurrent(cfg, w.served, rid, w.taken[tx]);
  }

  // At this version an unusable row held the name.
  ghost predicate HeldUnusable(cfg: Config, tables: seq<Targets.Rows>, v: nat, name: Text) {
    v < |tables| && name in tables[v] && Usable(cfg, tables[v][name]).None?
  }

  // A config target of that name and stamp.
  ghost predicate ConfigGives(cfg: Config, name: Text, stamp: Stamp) {
    exists t :: t in cfg.targets && t.name == name && StampOf(t) == stamp
  }

  lemma DefinedUnlessUnusable(cfg: Config, rows: Targets.Rows, name: Text, stamp: Stamp)
    requires ConfigGives(cfg, name, stamp)
    ensures (exists t :: Defines(cfg, rows, name, t)) <==> !(name in rows && Usable(cfg, rows[name]).None?)
  {
    if name !in rows {
      var t :| t in cfg.targets && t.name == name && StampOf(t) == stamp;
      assert Defines(cfg, rows, name, t);
    } else if Usable(cfg, rows[name]).Some? {
      assert Defines(cfg, rows, name, Usable(cfg, rows[name]).value);
    }
  }

  lemma UnservedVerdict(cfg: Config, s: Replicas.State, rid: Replicas.Rid, r: Taken)
    requires ReplicaSafety.Inv(cfg, s) && ReplicaSafety.Serving(s, rid) && TakenOk(cfg, s.targets.tables, r)
    requires r.target !in s.replicas[rid].snap.value.byName
    ensures var (rows, v) := (s.targets.tables[r.at], s.replicas[rid].snap.value.version);
            var verdict := JudgeRefresh(None, r.stamp, r.current);
            && (verdict.TryLater? <==> r.target in rows) && !verdict.Issue?
            && (verdict.TargetGone? && Replicas.IsCurrent(cfg, rows, r.target, r.stamp) <==>
              r.target !in rows && ConfigGives(cfg, r.target, r.stamp) && HeldUnusable(cfg, s.targets.tables, v, r.target))
  {
    var (rows, v) := (s.targets.tables[r.at], s.replicas[rid].snap.value.version);
    if r.target !in rows && ConfigGives(cfg, r.target, r.stamp) {
      assert ReplicaSafety.ReplicaOk(cfg, s.targets.tables, s.replicas[rid]);
      DefinedUnlessUnusable(cfg, s.targets.tables[v], r.target, r.stamp);
    }
  }

  /** For a name the replica does not serve: never issued; told to try later exactly when a row had
      the name in the take's snapshot; and refused a stamp current then exactly when no row had
      it, a config target of that name has that stamp, and the snapshot is of a version, older or
      newer, at which an unusable row holds the name. */
  lemma UnservedNamesAreRefused(cfg: Config, ttl: Lifetimes, w: State, tx: Grants.Tx, rid: Replicas.Rid)
    requires Reachable(cfg, ttl, w) && CanJudge(ttl, w, Judge(tx, rid)) && w.taken[tx].target !in Snap(w, rid).byName
    ensures w.taken[tx].at < |w.served.targets.tables|
    ensures var (r, verdict) := (w.taken[tx], VerdictAt(w, w.taken[tx], rid));
            var rows := w.served.targets.tables[r.at];
            && (verdict.TryLater? <==> r.target in rows) && !verdict.Issue?
            && (verdict.TargetGone? && Replicas.IsCurrent(cfg, rows, r.target, r.stamp) <==>
              && r.target !in rows && ConfigGives(cfg, r.target, r.stamp)
              && HeldUnusable(cfg, w.served.targets.tables, Snap(w, rid).version, r.target))
  {
    ReachableTaken(cfg, ttl, w);
    Pieces(cfg, ttl, w);
    UnservedVerdict(cfg, w.served, rid, w.taken[tx]);
  }
}
