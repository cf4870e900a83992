/** The purge of retired stamps is hygiene: what it deletes could never again have been let in,
    unsealed or redeemed to a session, nor refreshed by a take begun since. */
module PurgeSafety {
  import opened Wrappers
  import opened Bytes
  import opened Stamps
  import opened OAuthTables
  import opened Disk
  import opened Registries
  import opened RegistrySafety
  import opened World
  import opened Confinement
  import opened FenceSafety
  import opened TokenVerdicts
  import Targets
  import TargetSafety
  import Replicas
  import ReplicaSafety
  import Grants

  // ---------- admin stamps come from the table ----------

  // An admin stamp was a row's at some version.
  ghost predicate Born(tables: seq<Targets.Rows>, name: Text, stamp: Stamp) {
    stamp.IsAdmin() ==> exists i :: Carried(tables, i, name, stamp)
  }

  // Some version had the definition, and it was asked for by its own resource, or by none where
  // none is named.
  ghost predicate WasServed(cfg: Config, tables: seq<Targets.Rows>, t: Target, resource: Text) {
    && (resource == t.resource || (resource == [] && !cfg.named))
    && exists v: nat :: v < |tables| && Defines(cfg, tables[v], t.name, t)
  }

  ghost predicate FlowsBorn(cfg: Config, tables: seq<Targets.Rows>, h: History) {
    forall id :: id in h.asked ==>
      && Born(tables, h.asked[id].target.name, StampOf(h.asked[id].target))
      && WasServed(cfg, tables, h.asked[id].target, h.asked[id].resource)
  }

  ghost predicate CredsBorn(tables: seq<Targets.Rows>, creds: Creds) {
    forall k :: k in creds ==> Born(tables, k.target, k.stamp)
  }

  ghost predicate AllBorn(cfg: Config, w: State) {
    FlowsBorn(cfg, w.served.targets.tables, w.history) && CredsBorn(w.served.targets.tables, w.creds)
  }

  lemma BornStays(tables: seq<Targets.Rows>, more: seq<Targets.Rows>, name: Text, stamp: Stamp)
    requires Born(tables, name, stamp) && tables <= more
    ensures Born(more, name, stamp)
  {
    if stamp.IsAdmin() {
      var i :| Carried(tables, i, name, stamp);
      assert Carried(more, i, name, stamp);
    }
  }

  // What /authorize resolves is some replica's entry, and an entry is a row's or the config's.
  lemma ResolvedIsBorn(cfg: Config, s: Replicas.State, rid: Replicas.Rid, resource: Text)
    requires ConfigOk(cfg) && ReplicaSafety.Inv(cfg, s) && ReplicaSafety.Serving(s, rid)
    ensures var t := ResolveResource(s.replicas[rid].snap.value, resource);
            t.Some? ==> Born(s.targets.tables, t.value.name, StampOf(t.value)) && WasServed(cfg, s.targets.tables, t.value, resource)
  {
    var snap := s.replicas[rid].snap.value;
    var t := ResolveResource(snap, resource);
    assert ReplicaSafety.ReplicaOk(cfg, s.targets.tables, s.replicas[rid]);
    if t.Some? {
      var e := if resource == [] then snap.entries[0] else snap.byResource[resource];
      if resource != [] {
        ByResourceIsTheIndex(snap.entries);
        var i :| IsLast(snap.entries, (e: Entry) => e.target.resource, i, resource);
      }
      assert e in snap.entries && e.target == t.value;
      ReplicaSafety.ServedEntryOk(cfg, s, rid, e);
      EntryIsBorn(cfg, s.targets, e);
    }
  }

  lemma EntryIsBorn(cfg: Config, s: Targets.State, e: Entry)
    requires ConfigOk(cfg) && TargetSafety.Inv(s) && ReplicaSafety.EntryOk(cfg, s.tables, e)
    ensures Born(s.tables, e.target.name, StampOf(e.target))
  {
    var v: nat :| v < |s.tables| && Defines(cfg, s.tables[v], e.target.name, e.target);
    if e.target.name in s.tables[v] {
      ReplicaSafety.AdminRowsDefineAdminTargets(cfg, s, v, e.target.name, e.target);
      assert Carried(s.tables, v, e.target.name, StampOf(e.target));
    }
  }

  lemma OthersAskNothing(cfg: Config, ttl: Lifetimes, w: State, step: Step)
    requires Enabled(ttl, w, step) && !step.Flowing?
    ensures Next(cfg, ttl, w, step).history.asked == w.history.asked
  {
    match step
    case Serve(_) =>
    case Grant(_) =>
    case Judging(judge) => JudgeLeavesTheRest(ttl, w, judge);
    case Writing(write) => WritesLeaveTheRest(cfg, ttl, w, write);
    case Calling(call) => CallLeavesRows(ttl, w, call);
    case Purging(purge) => PurgeLeavesTheRest(ttl, w, purge);
  }

  // Only /authorize adds to what was asked.
  lemma NewFlowsAreResolved(cfg: Config, ttl: Lifetimes, w: State, step: Step, id: Secret)
    requires Enabled(ttl, w, step) && id in Next(cfg, ttl, w, step).history.asked
    ensures var h' := Next(cfg, ttl, w, step).history;
            || (id in w.history.asked && h'.asked[id] == w.history.asked[id])
            || (step.Flowing? && step.flow.Authorize? && h'.asked[id] == step.flow.asked)
  {
    if !step.Flowing? { OthersAskNothing(cfg, ttl, w, step); }
    else if !step.flow.Authorize? { FlowLeavesTheRest(w, step.flow); }
  }

  lemma FlowsStayBorn(cfg: Config, ttl: Lifetimes, w: State, step: Step)
    requires ConfigOk(cfg) && ReplicaSafety.Inv(cfg, w.served) && FlowsBorn(cfg, w.served.targets.tables, w.history)
    requires Enabled(ttl, w, step)
    ensures var w' := Next(cfg, ttl, w, step); FlowsBorn(cfg, w'.served.targets.tables, w'.history)
  {
    var w' := Next(cfg, ttl, w, step);
    var tables, more := w.served.targets.tables, w'.served.targets.tables;
    TablesGrow(cfg, ttl, w, step);
    forall id | id in w'.history.asked
      ensures Born(more, w'.history.asked[id].target.name, StampOf(w'.history.asked[id].target))
      ensures WasServed(cfg, more, w'.history.asked[id].target, w'.history.asked[id].resource)
    {
      NewFlowsAreResolved(cfg, ttl, w, step, id);
      var t := w'.history.asked[id].target;
      if step.Flowing? && step.flow.Authorize? && w'.history.asked[id] == step.flow.asked {
        ResolvedIsBorn(cfg, w.served, step.flow.rid, step.flow.asked.resource);
      }
      BornStays(tables, more, t.name, StampOf(t));
      ServedStays(cfg, tables, more, t, w'.history.asked[id].resource);
    }
  }

  lemma ServedStays(cfg: Config, tables: seq<Targets.Rows>, more: seq<Targets.Rows>, t: Target, resource: Text)
    requires WasServed(cfg, tables, t, resource) && tables <= more
    ensures WasServed(cfg, more, t, resource)
  {
    var v: nat :| v < |tables| && Defines(cfg, tables[v], t.name, t);
    assert Defines(cfg, more[v], t.name, t);
  }

  lemma RowsAreCarried(s: Targets.State, name: Text)
    requires TargetSafety.Inv(s) && name in s.rows
    ensures s.rows[name].stamp.core.name == name && |s.tables| > 0
    ensures Carried(s.tables, |s.tables| - 1, name, s.rows[name].stamp)
  {
    assert s.tables[s.version] == s.rows;
    assert TargetSafety.RowOk(s.rows[name], name, s.drawn, s.supplied);
  }

  // Whatever fenced write may commit, the table of now carries its stamp.
  ghost predicate CommitsCarried(ttl: Lifetimes, w: State) {
    forall tx :: CanWrite(ttl, w, CommitWrite(tx)) ==>
      var (tables, stamp) := (w.served.targets.tables, StampFor(w.writes[tx]));
      Carried(tables, |tables| - 1, stamp.core.name, stamp)
  }

  lemma CommitsAreCarried(ttl: Lifetimes, w: State)
    requires TargetSafety.Inv(w.served.targets) && WritesOk(w.history, w.served.targets.fences, w.writes)
    ensures CommitsCarried(ttl, w)
  {
    forall tx | CanWrite(ttl, w, CommitWrite(tx))
      ensures var (tables, stamp) := (w.served.targets.tables, StampFor(w.writes[tx]));
              Carried(tables, |tables| - 1, stamp.core.name, stamp)
    {
      CommitFindsItsStamp(ttl, w, tx);
      RowsAreCarried(w.served.targets, Name(w.writes[tx]));
    }
  }

  // A credential lands under a stamp the row carries, and is kept under that row's name.
  lemma CredIsBorn(cfg: Config, ttl: Lifetimes, w: State, step: Step, k: CredKey)
    requires CommitsCarried(ttl, w) && CredsBorn(w.served.targets.tables, w.creds) && Enabled(ttl, w, step)
    requires k in Next(cfg, ttl, w, step).creds && k.target == k.stamp.core.name
    ensures Born(w.served.targets.tables, k.target, k.stamp)
  {
    if k !in w.creds && k.stamp.IsAdmin() {
      NewCredentialsLanded(cfg, ttl, w, step, k);
      assert CanWrite(ttl, w, CommitWrite(step.write.tx));
    }
  }

  lemma CredsStayBorn(cfg: Config, ttl: Lifetimes, w: State, step: Step)
    requires CommitsCarried(ttl, w) && CredsBorn(w.served.targets.tables, w.creds) && Enabled(ttl, w, step)
    requires CredsOk(Next(cfg, ttl, w, step).history, Next(cfg, ttl, w, step).creds)
    ensures var w' := Next(cfg, ttl, w, step); CredsBorn(w'.served.targets.tables, w'.creds)
  {
    var w' := Next(cfg, ttl, w, step);
    var tables, more := w.served.targets.tables, w'.served.targets.tables;
    TablesGrow(cfg, ttl, w, step);
    forall k | k in w'.creds ensures Born(more, k.target, k.stamp) {
      assert CredOk(w'.history, k, w'.creds[k].box);
      CredIsBorn(cfg, ttl, w, step, k);
      BornStays(tables, more, k.target, k.stamp);
    }
  }

  lemma {:induction false} RunsAreBorn(cfg: Config, ttl: Lifetimes, a: State, steps: seq<Step>, b: State)
    requires Reachable(cfg, ttl, a) && AllBorn(cfg, a) && Reaches(cfg, ttl, a, steps, b)
    ensures AllBorn(cfg, b)
    decreases |steps|
  {
    if steps != [] {
      OneStepFurther(cfg, ttl, a, steps[0]);
      ServedInv(cfg, ttl, a);
      ServedInv(cfg, ttl, Next(cfg, ttl, a, steps[0]));
      FlowsStayBorn(cfg, ttl, a, steps[0]);
      CredsStayBorn(cfg, ttl, a, steps[0]);
      RunsAreBorn(cfg, ttl, Next(cfg, ttl, a, steps[0]), steps[1..], b);
    }
  }

  lemma ServedInv(cfg: Config, ttl: Lifetimes, w: State)
    requires Reachable(cfg, ttl, w)
    ensures ConfigOk(cfg) && ReplicaSafety.Inv(cfg, w.served)
    ensures CommitsCarried(ttl, w) && CredsOk(w.history, w.creds)
  {
    ReachableInv(cfg, ttl, w);
    CommitsAreCarried(ttl, w);
  }

  lemma ReachableBorn(cfg: Config, ttl: Lifetimes, w: State)
    requires Reachable(cfg, ttl, w)
    ensures AllBorn(cfg, w)
  {
    var steps :| Reaches(cfg, ttl, INITIAL, steps, w);
    assert Reaches(cfg, ttl, INITIAL, [], INITIAL);
    RunsAreBorn(cfg, ttl, INITIAL, steps, w);
  }

  // ---------- what is stale is retired ----------

  lemma StaleIsRetired(s: Targets.State, only: Text, name: Text, stamp: Stamp)
    requires TargetSafety.Inv(s) && Born(s.tables, name, stamp) && Stale(s.rows, only, name, stamp)
    ensures Retired(s.tables, name, stamp)
  {
    var i :| Carried(s.tables, i, name, stamp);
    assert s.tables[s.version] == s.rows;
    assert !Carried(s.tables, s.version, name, stamp);
  }

  /** Everything the purge deletes carries a stamp that an edit has retired: of each session, flow
      and credential it takes, the stamp was once its target's and never will be again. */
  lemma ThePurgeTakesOnlyTheRetired(cfg: Config, ttl: Lifetimes, w: State, only: Text)
    requires Reachable(cfg, ttl, w)
    ensures var (s, rows) := (w.served.targets, Rows(w));
            && (forall id :: id in w.grants.db.sessions && id in StaleSessions(w.grants.db, rows, only) ==>
                 Retired(s.tables, w.grants.db.sessions[id].target, w.grants.db.sessions[id].stamp))
            && (forall f :: f in w.flows && f !in FreshFlows(w.flows, rows, only) ==>
                 Retired(s.tables, w.flows[f].target, w.flows[f].stamp))
            && (forall k :: k in w.creds && k !in FreshCreds(w.creds, rows, only) ==> Retired(s.tables, k.target, k.stamp))
  {
    ReachableBorn(cfg, ttl, w);
    ReachableInv(cfg, ttl, w);
    StaleRowsAreRetired(cfg, w, only);
  }

  lemma StaleRowsAreRetired(cfg: Config, w: State, only: Text)
    requires TargetSafety.Inv(w.served.targets) && AllBorn(cfg, w)
    requires SessionsOk(w.history, w.grants.db.sessions) && FlowsOk(w.history, w.flows)
    ensures var (s, rows) := (w.served.targets, Rows(w));
            && (forall id :: id in w.grants.db.sessions && id in StaleSessions(w.grants.db, rows, only) ==>
                 Retired(s.tables, w.grants.db.sessions[id].target, w.grants.db.sessions[id].stamp))
            && (forall f :: f in w.flows && f !in FreshFlows(w.flows, rows, only) ==>
                 Retired(s.tables, w.flows[f].target, w.flows[f].stamp))
            && (forall k :: k in w.creds && k !in FreshCreds(w.creds, rows, only) ==> Retired(s.tables, k.target, k.stamp))
  {
    var s, rows := w.served.targets, Rows(w);
    forall id | id in w.grants.db.sessions && id in StaleSessions(w.grants.db, rows, only)
      ensures Retired(s.tables, w.grants.db.sessions[id].target, w.grants.db.sessions[id].stamp)
    {
      assert SessionOk(w.history, id, w.grants.db.sessions[id]);
      StaleIsRetired(s, only, w.grants.db.sessions[id].target, w.grants.db.sessions[id].stamp);
    }
    forall f | f in w.flows && f !in FreshFlows(w.flows, rows, only) ensures Retired(s.tables, w.flows[f].target, w.flows[f].stamp) {
      assert FlowOk(w.history, f, w.flows[f]);
      StaleIsRetired(s, only, w.flows[f].target, w.flows[f].stamp);
    }
    forall k | k in w.creds && k !in FreshCreds(w.creds, rows, only) ensures Retired(s.tables, k.target, k.stamp) {
      StaleIsRetired(s, only, k.target, k.stamp);
    }
  }

  // ---------- what is retired is dead ----------

  lemma RetiredIsNotCurrent(cfg: Config, s: Targets.State, name: Text, stamp: Stamp, n: Text)
    requires ConfigOk(cfg) && TargetSafety.Inv(s) && Retired(s.tables, name, stamp)
    ensures !Replicas.IsCurrent(cfg, s.rows, n, stamp)
  {
    RetiredIsNowhere(s, name, stamp);
  }

  ghost predicate FindsUnder(ttl: Lifetimes, w: State, token: Secret, stamp: Stamp) {
    Found(ttl, w, token).Some? && Found(ttl, w, token).value.1.stamp == stamp
  }

  // No request is let in by a session of this stamp, and none unseals a credential of it.
  ghost predicate LetsNobodyIn(ttl: Lifetimes, w: State, stamp: Stamp) {
    && (forall pid, token :: CanCall(ttl, w, LookUp(pid, token)) && FindsUnder(ttl, w, token, stamp) ==>
         !VerdictOn(ttl, w, w.calls[pid], token).Enter?)
    && (forall pid :: CanCall(ttl, w, Read(pid)) && w.calls[pid].entry.target.mode == PER_USER ==>
         w.calls[pid].entry.stamp != stamp)
  }

  // The refresh is of a session under this stamp.
  ghost predicate RefreshesUnder(w: State, tx: Grants.Tx, stamp: Stamp) {
    && Refreshes(w, tx) && w.grants.grants[tx].took.Session() in w.grants.db.sessions
    && w.grants.db.sessions[w.grants.grants[tx].took.Session()].stamp == stamp
  }

  // A refresh that may commit a pair for a session of this stamp took its token before version v.
  ghost predicate BuysOnlyWhatWasTakenBefore(ttl: Lifetimes, w: State, stamp: Stamp, v: nat) {
    forall tx :: RefreshesUnder(w, tx, stamp) && Enabled(ttl, w, Grant(Grants.Commit(tx))) ==>
      tx in w.taken && w.taken[tx].at < v
  }

  // No callback inserts a session of this stamp.
  ghost predicate OpensNothing(ttl: Lifetimes, w: State, stamp: Stamp) {
    && (forall tx :: CanWrite(ttl, w, CommitWrite(tx)) ==> StampFor(w.writes[tx]) != stamp)
    && (forall flow, id, subject, groups :: CanWrite(ttl, w, OpenPlain(flow, id, subject, groups)) ==>
         StampOf(w.callbacks[flow].target) != stamp)
  }

  lemma NoCallUnderIt(cfg: Config, ttl: Lifetimes, w: State, name: Text, stamp: Stamp)
    requires Reachable(cfg, ttl, w) && Retired(w.served.targets.tables, name, stamp)
    ensures LetsNobodyIn(ttl, w, stamp)
  {
    ServedInv(cfg, ttl, w);
    forall pid, token | CanCall(ttl, w, LookUp(pid, token)) && FindsUnder(ttl, w, token, stamp)
      ensures !VerdictOn(ttl, w, w.calls[pid], token).Enter?
    {
      CallVerdictsAreExact(cfg, ttl, w, pid, token);
      RetiredIsNotCurrent(cfg, w.served.targets, name, stamp, Found(ttl, w, token).value.1.target);
    }
    forall pid | CanCall(ttl, w, Read(pid)) && w.calls[pid].entry.target.mode == PER_USER
      ensures w.calls[pid].entry.stamp != stamp
    {
      CredentialsAreReadFresh(cfg, ttl, w, pid);
      RetiredIsNotCurrent(cfg, w.served.targets, name, stamp, w.calls[pid].entry.target.name);
    }
  }

  lemma NoIssueUnderIt(cfg: Config, ttl: Lifetimes, w: State, name: Text, stamp: Stamp, i: nat, j: nat)
    requires Reachable(cfg, ttl, w) && stamp.IsAdmin() && i <= j < |w.served.targets.tables|
    requires Carried(w.served.targets.tables, i, name, stamp) && !Carried(w.served.targets.tables, j, name, stamp)
    ensures BuysOnlyWhatWasTakenBefore(ttl, w, stamp, j)
  {
    ReachableInv(cfg, ttl, w);
    ReachableTaken(cfg, ttl, w);
    forall tx | RefreshesUnder(w, tx, stamp) && Enabled(ttl, w, Grant(Grants.Commit(tx)))
      ensures tx in w.taken && w.taken[tx].at < j
    {
      RefreshesBuyForTheCurrent(cfg, ttl, w, tx);
      assert GrantTaken(w, tx);
      TakenUnderItsName(w, tx, i, name);
      NoneTakenAfterRetirementBuys(cfg, ttl, w, tx, i, j);
    }
  }

  // A stamp names its target, in the row that carried it and in the session taken.
  lemma TakenUnderItsName(w: State, tx: Grants.Tx, i: nat, name: Text)
    requires TargetSafety.Inv(w.served.targets) && SessionsOk(w.history, w.grants.db.sessions) && GrantTaken(w, tx)
    requires Refreshes(w, tx) && w.grants.grants[tx].took.Session() in w.grants.db.sessions
    requires Carried(w.served.targets.tables, i, name, w.taken[tx].stamp)
    ensures w.taken[tx].target == name
  {
    var s, id := w.served.targets, w.grants.grants[tx].took.Session();
    assert TargetSafety.RowOk(s.tables[i][name], name, s.drawn, s.supplied);
    assert SessionOk(w.history, id, w.grants.db.sessions[id]);
  }

  lemma NoSessionUnderIt(cfg: Config, ttl: Lifetimes, w: State, name: Text, stamp: Stamp)
    requires Reachable(cfg, ttl, w) && Retired(w.served.targets.tables, name, stamp)
    ensures OpensNothing(ttl, w, stamp)
  {
    forall tx | CanWrite(ttl, w, CommitWrite(tx)) ensures StampFor(w.writes[tx]) != stamp {
      NoCommitUnderIt(cfg, ttl, w, tx, name, stamp);
    }
  }

  /** From the edit that retires a stamp on, with or without a purge: no request is let in or
      unseals a credential under it, no flow becomes a session of it, and no refresh whose take
      begins from then on buys a pair. What the purge deletes could only have been refused. */
  lemma WhatIsRetiredIsDead(cfg: Config, ttl: Lifetimes, w: State, after: seq<Step>, later: State, name: Text, stamp: Stamp)
    requires Reachable(cfg, ttl, w) && Retired(w.served.targets.tables, name, stamp) && Reaches(cfg, ttl, w, after, later)
    ensures LetsNobodyIn(ttl, later, stamp) && OpensNothing(ttl, later, stamp)
    ensures BuysOnlyWhatWasTakenBefore(ttl, later, stamp, w.served.targets.version)
  {
    StillReachable(cfg, ttl, w, after, later);
    RetiredToTheEnd(cfg, ttl, w, after, later, name, stamp);
    NoCallUnderIt(cfg, ttl, later, name, stamp);
    NoSessionUnderIt(cfg, ttl, later, name, stamp);
    ServedInv(cfg, ttl, w);
    var i := GoneByNow(w.served.targets, name, stamp);
    LaterTables(cfg, ttl, w, after, later);
    NoIssueUnderIt(cfg, ttl, later, name, stamp, i, w.served.targets.version);
  }

  lemma GoneByNow(s: Targets.State, name: Text, stamp: Stamp) returns (i: nat)
    requires TargetSafety.Inv(s) && Retired(s.tables, name, stamp)
    ensures i <= s.version && |s.tables| == s.version + 1
    ensures Carried(s.tables, i, name, stamp) && !Carried(s.tables, s.version, name, stamp)
  {
    RetiredIsNowhere(s, name, stamp);
    var j: nat;
    i, j :| i <= j < |s.tables| && Carried(s.tables, i, name, stamp) && !Carried(s.tables, j, name, stamp);
    assert s.tables[s.version] == s.rows;
  }

  lemma {:induction false} LaterTables(cfg: Config, ttl: Lifetimes, a: State, steps: seq<Step>, b: State)
    requires Reaches(cfg, ttl, a, steps, b)
    ensures a.served.targets.tables <= b.served.targets.tables
    decreases |steps|
  {
    if steps != [] {
      TablesGrow(cfg, ttl, a, steps[0]);
      LaterTables(cfg, ttl, Next(cfg, ttl, a, steps[0]), steps[1..], b);
    }
  }
}
