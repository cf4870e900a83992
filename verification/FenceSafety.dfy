/** Fenced writes, retired stamps and freshness, in every run of the whole service. */
module FenceSafety {
  import opened Wrappers
  import opened Bytes
  import opened Stamps
  import opened OAuthTables
  import opened Disk
  import opened Registries
  import opened RegistrySafety
  import opened World
  import opened Confinement
  import Targets
  import TargetSafety
  import Replicas
  import ReplicaSafety
  import Grants
  import GrantSafety

  // ---------- fences ----------

  /** Fence safety: in every interleaving, when a fenced write commits, the row it locked
      carries its stamp, and a session is admitted by the groups the row allows then. */
  lemma FencedWritesLandOnTheirStamp(cfg: Config, ttl: Lifetimes, w: State, tx: Tx)
    requires Reachable(cfg, ttl, w) && Enabled(ttl, w, Writing(CommitWrite(tx)))
    ensures var write := w.writes[tx];
            && Name(write) in Rows(w) && Rows(w)[Name(write)].stamp == StampFor(write)
            && (write.InsertSession? ==>
                  var allowed := Rows(w)[Name(write)].target.allowedGroups;
                  allowed == [] || (set g | g in write.groups) * (set g | g in allowed) != {})
  {
    ReachableInv(cfg, ttl, w);
    CommitFindsItsStamp(ttl, w, tx);
    if w.writes[tx].InsertSession? { GroupsInCommon(Rows(w)[Name(w.writes[tx])].target.allowedGroups, w.writes[tx].groups); }
  }

  lemma CommitFindsItsStamp(ttl: Lifetimes, w: State, tx: Tx)
    requires TargetSafety.Inv(w.served.targets) && WritesOk(w.history, w.served.targets.fences, w.writes)
    requires CanWrite(ttl, w, CommitWrite(tx))
    ensures var write := w.writes[tx];
            && Name(write) in Rows(w) && Rows(w)[Name(write)].stamp == StampFor(write)
            && (write.InsertSession? ==> Rows(w)[Name(write)].target.Admits(write.groups))
  {
    assert WriteOk(w.history, w.served.targets.fences, tx, w.writes[tx]);
    assert TargetSafety.FenceOk(w.served.targets, w.served.targets.fences[tx]);
  }

  // A fence holds the groups of the row as they are.
  lemma HeldGroups(cfg: Config, ttl: Lifetimes, w: State, tx: Tx)
    requires Reachable(cfg, ttl, w) && tx in w.writes
    ensures tx in w.served.targets.fences && Name(w.writes[tx]) in Rows(w)
    ensures w.served.targets.fences[tx].allowed == Rows(w)[Name(w.writes[tx])].target.allowedGroups
  {
    ReachableInv(cfg, ttl, w);
    assert WriteOk(w.history, w.served.targets.fences, tx, w.writes[tx]);
    assert TargetSafety.FenceOk(w.served.targets, w.served.targets.fences[tx]);
  }

  lemma CommitsWhoSharesAGroup(ttl: Lifetimes, w: State, tx: Tx)
    requires tx in w.writes && w.writes[tx].InsertSession? && Grants.Enabled(ttl, w.grants, Opening(w.writes[tx]))
    requires tx in w.served.targets.fences
    ensures CanWrite(ttl, w, CommitWrite(tx)) <==> GroupsAdmit(w.served.targets.fences[tx].allowed, w.writes[tx].groups)
  {
  }

  /** And whoever shares a group with the row, or anyone if it lists none, can commit. */
  lemma TheAdmittedCommit(cfg: Config, ttl: Lifetimes, w: State, tx: Tx)
    requires Reachable(cfg, ttl, w) && tx in w.writes && w.writes[tx].InsertSession?
    requires Grants.Enabled(ttl, w.grants, Opening(w.writes[tx]))
    ensures Name(w.writes[tx]) in Rows(w)
    ensures var allowed := Rows(w)[Name(w.writes[tx])].target.allowedGroups;
            Enabled(ttl, w, Writing(CommitWrite(tx))) <==>
              allowed == [] || (set g | g in w.writes[tx].groups) * (set g | g in allowed) != {}
  {
    HeldGroups(cfg, ttl, w, tx);
    CommitsWhoSharesAGroup(ttl, w, tx);
    GroupsInCommon(Rows(w)[Name(w.writes[tx])].target.allowedGroups, w.writes[tx].groups);
  }

  /** A callback for a config target inserts its session exactly when it shares a group with the
      definition it resolved, or that lists none. */
  lemma PlainSessionsAreAdmitted(ttl: Lifetimes, w: State, flow: Secret, id: Secret, subject: Text, groups: seq<Text>)
    requires flow in w.callbacks && w.callbacks[flow].Answered? && w.callbacks[flow].target.source.Config?
    requires id !in w.grants.drawn
    ensures var allowed := w.callbacks[flow].target.allowedGroups;
            Enabled(ttl, w, Writing(OpenPlain(flow, id, subject, groups))) <==>
              allowed == [] || (set g | g in groups) * (set g | g in allowed) != {}
  {
    GroupsInCommon(w.callbacks[flow].target.allowedGroups, groups);
  }

  ghost predicate Carried(tables: seq<Targets.Rows>, i: int, name: Text, stamp: Stamp) {
    0 <= i < |tables| && name in tables[i] && tables[i][name].stamp == stamp
  }

  // Some committed edit left the stamp behind.
  ghost predicate Retired(tables: seq<Targets.Rows>, name: Text, stamp: Stamp) {
    stamp.IsAdmin() && exists i: nat, j: nat ::
      i <= j < |tables| && Carried(tables, i, name, stamp) && !Carried(tables, j, name, stamp)
  }

  lemma RetiredStays(tables: seq<Targets.Rows>, more: seq<Targets.Rows>, name: Text, stamp: Stamp)
    requires Retired(tables, name, stamp) && tables <= more
    ensures Retired(more, name, stamp)
  {
    var i: nat, j: nat :| i <= j < |tables| && Carried(tables, i, name, stamp) && !Carried(tables, j, name, stamp);
    assert Carried(more, i, name, stamp) && !Carried(more, j, name, stamp);
  }

  lemma RetiredIsNowhere(s: Targets.State, name: Text, stamp: Stamp)
    requires TargetSafety.Inv(s) && Retired(s.tables, name, stamp)
    ensures forall n :: n in s.rows ==> s.rows[n].stamp != stamp
    ensures stamp.core.name == name
  {
    var i: nat, j: nat :| i <= j < |s.tables| && Carried(s.tables, i, name, stamp) && !Carried(s.tables, j, name, stamp);
    assert TargetSafety.RowOk(s.tables[i][name], name, s.drawn, s.supplied);
    assert s.tables[s.version] == s.rows;
    forall n | n in s.rows ensures s.rows[n].stamp != stamp {
      assert TargetSafety.StampStays(s.tables, i, j, s.version, name, n);
    }
  }

  lemma TablesGrow(cfg: Config, ttl: Lifetimes, w: State, step: Step)
    requires Enabled(ttl, w, step)
    ensures w.served.targets.tables <= Next(cfg, ttl, w, step).served.targets.tables
  {
    StepServes(cfg, ttl, w, step);
    if ServePart(ttl, w, step).Some? { ServeGrows(cfg, w.served, ServePart(ttl, w, step).value); }
  }

  lemma {:induction false} RetiredToTheEnd(cfg: Config, ttl: Lifetimes, a: State, steps: seq<Step>, b: State, name: Text, stamp: Stamp)
    requires Reaches(cfg, ttl, a, steps, b) && Retired(a.served.targets.tables, name, stamp)
    ensures Retired(b.served.targets.tables, name, stamp)
    decreases |steps|
  {
    if steps != [] {
      var m := Next(cfg, ttl, a, steps[0]);
      TablesGrow(cfg, ttl, a, steps[0]);
      RetiredStays(a.served.targets.tables, m.served.targets.tables, name, stamp);
      RetiredToTheEnd(cfg, ttl, m, steps[1..], b, name, stamp);
    }
  }

  // A step cannot commit a fenced write under a stamp that is retired.
  lemma NoCommitUnderIt(cfg: Config, ttl: Lifetimes, w: State, tx: Tx, name: Text, stamp: Stamp)
    requires Reachable(cfg, ttl, w) && Retired(w.served.targets.tables, name, stamp)
    requires CanWrite(ttl, w, CommitWrite(tx))
    ensures StampFor(w.writes[tx]) != stamp
  {
    ReachableInv(cfg, ttl, w);
    RetiredIsNowhere(w.served.targets, name, stamp);
    CommitFindsItsStamp(ttl, w, tx);
  }

  /** Once the edit that retires a stamp has committed, no session, session token or
      credential under it is ever committed again. */
  lemma NothingLandsUnderARetiredStamp(cfg: Config, ttl: Lifetimes, w: State, after: seq<Step>, later: State, name: Text, stamp: Stamp)
    requires Reachable(cfg, ttl, w) && Reaches(cfg, ttl, w, after, later)
    requires Retired(w.served.targets.tables, name, stamp)
    ensures forall tx :: Enabled(ttl, later, Writing(CommitWrite(tx))) ==> StampFor(later.writes[tx]) != stamp
  {
    StillReachable(cfg, ttl, w, after, later);
    RetiredToTheEnd(cfg, ttl, w, after, later, name, stamp);
    forall tx | Enabled(ttl, later, Writing(CommitWrite(tx))) ensures StampFor(later.writes[tx]) != stamp {
      NoCommitUnderIt(cfg, ttl, later, tx, name, stamp);
    }
  }

  // ---------- gone ----------

  ghost predicate NoSessionUnder(w: State, stamp: Stamp) {
    forall id :: id in w.grants.db.sessions ==> w.grants.db.sessions[id].stamp != stamp
  }

  ghost predicate NoCredentialUnder(w: State, stamp: Stamp) { forall k :: k in w.creds ==> k.stamp != stamp }

  // The stamp of whatever a step newly writes.
  ghost predicate Lands(ttl: Lifetimes, w: State, step: Step, stamp: Stamp) {
    || (step.Writing? && step.write.CommitWrite? && step.write.tx in w.writes && StampFor(w.writes[step.write.tx]) == stamp)
    || !stamp.IsAdmin()
  }

  // In the grant store only an insert makes a session, and nothing changes one's stamp.
  lemma GrantStepSessions(ttl: Lifetimes, s: Grants.State, step: Grants.Step, id: Secret)
    requires Grants.Enabled(ttl, s, step)
    ensures var sessions := Grants.Next(ttl, s, step).db.sessions;
            id in sessions ==>
              || (id in s.db.sessions && sessions[id].stamp == s.db.sessions[id].stamp)
              || (step.OpenSession? && step.session.stamp == sessions[id].stamp)
  {
  }

  lemma NewSessionsLanded(cfg: Config, ttl: Lifetimes, w: State, step: Step, id: Secret)
    requires Enabled(ttl, w, step)
    ensures var sessions := Next(cfg, ttl, w, step).grants.db.sessions;
            id in sessions ==>
              || (id in w.grants.db.sessions && sessions[id].stamp == w.grants.db.sessions[id].stamp)
              || Lands(ttl, w, step, sessions[id].stamp)
  {
    StepGrants(cfg, ttl, w, step);
    if GrantPart(ttl, w, step).Some? {
      GrantStepSessions(ttl, w.grants, GrantPart(ttl, w, step).value, id);
    }
  }

  // Only a committed put adds a credential, under its own key.
  lemma LandedCreds(ttl: Lifetimes, w: State, write: Write, k: CredKey)
    requires write.InsertSession? ==> Grants.Enabled(ttl, w.grants, Opening(write))
    requires k in Landed(ttl, w, write).creds
    ensures k in w.creds || k.stamp == StampFor(write)
  {
  }

  lemma OtherWritesLeaveCreds(cfg: Config, ttl: Lifetimes, w: State, write: WriteStep)
    requires CanWrite(ttl, w, write) && !write.CommitWrite? && !write.PutPlain?
    ensures Wrote(cfg, ttl, w, write).creds == w.creds
  {
    if write.OpenPlain? || write.RewritePlain? { assert Landed(ttl, w, WriteFor(w, write)).creds == w.creds; }
  }

  lemma LandedCredentials(cfg: Config, ttl: Lifetimes, w: State, write: WriteStep, k: CredKey)
    requires CanWrite(ttl, w, write) && k in Wrote(cfg, ttl, w, write).creds
    ensures k in w.creds || Lands(ttl, w, Writing(write), k.stamp)
  {
    match write
    case CommitWrite(tx) => LandedCreds(ttl, w, w.writes[tx], k);
    case PutPlain(pid) =>
    case _ => OtherWritesLeaveCreds(cfg, ttl, w, write);
  }

  lemma NewCredentialsLanded(cfg: Config, ttl: Lifetimes, w: State, step: Step, k: CredKey)
    requires Enabled(ttl, w, step) && k in Next(cfg, ttl, w, step).creds
    ensures k in w.creds || Lands(ttl, w, step, k.stamp)
  {
    match step
    case Serve(_) =>
    case Grant(_) =>
    case Judging(judge) => JudgeLeavesTheRest(ttl, w, judge);
    case Flowing(flow) => FlowLeavesTheRest(w, flow);
    case Writing(write) => LandedCredentials(cfg, ttl, w, write, k);
    case Calling(call) => CallLeavesRows(ttl, w, call);
    case Purging(purge) => PurgeLeavesTheRest(ttl, w, purge);
  }

  lemma RetiredStampLandsNothing(cfg: Config, ttl: Lifetimes, w: State, step: Step, name: Text, stamp: Stamp)
    requires Reachable(cfg, ttl, w) && Enabled(ttl, w, step) && Retired(w.served.targets.tables, name, stamp)
    ensures !Lands(ttl, w, step, stamp)
  {
    if step.Writing? && step.write.CommitWrite? { NoCommitUnderIt(cfg, ttl, w, step.write.tx, name, stamp); }
  }

  lemma NoNewSession(cfg: Config, ttl: Lifetimes, w: State, step: Step, name: Text, stamp: Stamp)
    requires Reachable(cfg, ttl, w) && Enabled(ttl, w, step)
    requires Retired(w.served.targets.tables, name, stamp) && NoSessionUnder(w, stamp)
    ensures NoSessionUnder(Next(cfg, ttl, w, step), stamp)
  {
    var m := Next(cfg, ttl, w, step);
    RetiredStampLandsNothing(cfg, ttl, w, step, name, stamp);
    forall id | id in m.grants.db.sessions ensures m.grants.db.sessions[id].stamp != stamp {
      NewSessionsLanded(cfg, ttl, w, step, id);
    }
  }

  lemma NoNewCredential(cfg: Config, ttl: Lifetimes, w: State, step: Step, name: Text, stamp: Stamp)
    requires Reachable(cfg, ttl, w) && Enabled(ttl, w, step)
    requires Retired(w.served.targets.tables, name, stamp) && NoCredentialUnder(w, stamp)
    ensures NoCredentialUnder(Next(cfg, ttl, w, step), stamp)
  {
    var m := Next(cfg, ttl, w, step);
    RetiredStampLandsNothing(cfg, ttl, w, step, name, stamp);
    forall k | k in m.creds ensures k.stamp != stamp { NewCredentialsLanded(cfg, ttl, w, step, k); }
  }

  lemma RetiredNext(cfg: Config, ttl: Lifetimes, w: State, step: Step, name: Text, stamp: Stamp)
    requires Reachable(cfg, ttl, w) && Enabled(ttl, w, step) && Retired(w.served.targets.tables, name, stamp)
    ensures Reachable(cfg, ttl, Next(cfg, ttl, w, step))
    ensures Retired(Next(cfg, ttl, w, step).served.targets.tables, name, stamp)
  {
    OneStepFurther(cfg, ttl, w, step);
    TablesGrow(cfg, ttl, w, step);
    RetiredStays(w.served.targets.tables, Next(cfg, ttl, w, step).served.targets.tables, name, stamp);
  }

  lemma {:induction false} NothingComesBack(cfg: Config, ttl: Lifetimes, a: State, steps: seq<Step>, b: State, name: Text, stamp: Stamp)
    requires Reachable(cfg, ttl, a) && Reaches(cfg, ttl, a, steps, b) && Retired(a.served.targets.tables, name, stamp)
    ensures NoSessionUnder(a, stamp) ==> NoSessionUnder(b, stamp)
    ensures NoCredentialUnder(a, stamp) ==> NoCredentialUnder(b, stamp)
    decreases |steps|
  {
    if steps != [] {
      if NoSessionUnder(a, stamp) { NoNewSession(cfg, ttl, a, steps[0], name, stamp); }
      if NoCredentialUnder(a, stamp) { NoNewCredential(cfg, ttl, a, steps[0], name, stamp); }
      RetiredNext(cfg, ttl, a, steps[0], name, stamp);
      NothingComesBack(cfg, ttl, Next(cfg, ttl, a, steps[0]), steps[1..], b, name, stamp);
    }
  }

  // No row carries the stamp, so every session under it is stale for its name.
  lemma StaleSessionsGo(h: History, db: Tables, rows: Targets.Rows, only: Text, stamp: Stamp)
    requires SessionsOk(h, db.sessions) && stamp.IsAdmin() && (only == [] || only == stamp.core.name)
    requires forall n :: n in rows ==> rows[n].stamp != stamp
    ensures var kept := WithoutSessions(db, StaleSessions(db, rows, only)).sessions;
            forall id :: id in kept ==> kept[id].stamp != stamp
  {
    var kept := WithoutSessions(db, StaleSessions(db, rows, only)).sessions;
    forall id | id in kept ensures kept[id].stamp != stamp { assert SessionOk(h, id, db.sessions[id]); }
  }

  lemma StaleCredentialsGo(h: History, creds: Creds, rows: Targets.Rows, only: Text, stamp: Stamp)
    requires CredsOk(h, creds) && stamp.IsAdmin() && (only == [] || only == stamp.core.name)
    requires forall n :: n in rows ==> rows[n].stamp != stamp
    ensures forall k :: k in FreshCreds(creds, rows, only) ==> k.stamp != stamp
  {
    forall k | k in FreshCreds(creds, rows, only) ensures k.stamp != stamp { assert CredOk(h, k, creds[k].box); }
  }

  lemma PurgedRows(ttl: Lifetimes, w: State, only: Text)
    ensures CanPurge(ttl, w, PurgeSessions(only)) ==>
      AfterPurge(ttl, w, PurgeSessions(only)).grants.db
        == WithoutSessions(w.grants.db, StaleSessions(w.grants.db, Rows(w), only))
    ensures AfterPurge(ttl, w, PurgeCredentials(only)).creds == FreshCreds(w.creds, Rows(w), only)
  {
  }

  lemma RetiredByNow(cfg: Config, ttl: Lifetimes, w: State, name: Text, stamp: Stamp)
    requires Reachable(cfg, ttl, w) && Retired(w.served.targets.tables, name, stamp)
    ensures SessionsOk(w.history, w.grants.db.sessions) && CredsOk(w.history, w.creds)
    ensures stamp.core.name == name && forall n :: n in Rows(w) ==> Rows(w)[n].stamp != stamp
  {
    ReachableInv(cfg, ttl, w);
    RetiredIsNowhere(w.served.targets, name, stamp);
  }

  /** Retired means gone: after the first purge of sessions that succeeds once a stamp is
      retired, for its name or for every name, no session under it exists in any later state,
      whatever flow was still on its way. */
  lemma RetiredSessionsAreGone(cfg: Config, ttl: Lifetimes, w: State, only: Text, after: seq<Step>, later: State, name: Text, stamp: Stamp)
    requires Reachable(cfg, ttl, w) && Retired(w.served.targets.tables, name, stamp) && (only == [] || only == name)
    requires Enabled(ttl, w, Purging(PurgeSessions(only)))
    requires Reaches(cfg, ttl, Next(cfg, ttl, w, Purging(PurgeSessions(only))), after, later)
    ensures NoSessionUnder(later, stamp)
  {
    RetiredByNow(cfg, ttl, w, name, stamp);
    StaleSessionsGo(w.history, w.grants.db, Rows(w), only, stamp);
    PurgedRows(ttl, w, only);
    RetiredNext(cfg, ttl, w, Purging(PurgeSessions(only)), name, stamp);
    NothingComesBack(cfg, ttl, Next(cfg, ttl, w, Purging(PurgeSessions(only))), after, later, name, stamp);
  }

  /** And likewise no credential. */
  lemma RetiredCredentialsAreGone(cfg: Config, ttl: Lifetimes, w: State, only: Text, after: seq<Step>, later: State, name: Text, stamp: Stamp)
    requires Reachable(cfg, ttl, w) && Retired(w.served.targets.tables, name, stamp) && (only == [] || only == name)
    requires Reaches(cfg, ttl, Next(cfg, ttl, w, Purging(PurgeCredentials(only))), after, later)
    ensures NoCredentialUnder(later, stamp)
  {
    RetiredByNow(cfg, ttl, w, name, stamp);
    StaleCredentialsGo(w.history, w.creds, Rows(w), only, stamp);
    PurgedRows(ttl, w, only);
    RetiredNext(cfg, ttl, w, Purging(PurgeCredentials(only)), name, stamp);
    NothingComesBack(cfg, ttl, Next(cfg, ttl, w, Purging(PurgeCredentials(only))), after, later, name, stamp);
  }

  // ---------- freshness ----------

  lemma OneStampIsCurrent(cfg: Config, rows: Targets.Rows, name: Text, a: Stamp, b: Stamp)
    requires ConfigOk(cfg) && Replicas.IsCurrent(cfg, rows, name, a) && Replicas.IsCurrent(cfg, rows, name, b)
    ensures a == b
  {
    if name !in rows {
      var t :| t in cfg.targets && t.name == name && StampOf(t) == a;
      var u :| u in cfg.targets && u.name == name && StampOf(u) == b;
      ConfigNamesOnce(cfg, t, u);
    }
  }

  lemma VerdictCore(cfg: Config, s: Replicas.State, e: Entry, multi: bool, found: (Secret, Session))
    requires ConfigOk(cfg) && TargetSafety.Inv(s.targets) && ReplicaSafety.EntryOk(cfg, s.targets.tables, e)
    requires found.1.target == found.1.stamp.core.name
    ensures var (rows, session) := (s.targets.rows, found.1);
            var verdict := JudgeCall(e, multi, Some(found), Targets.CurrentStamp(rows, session.target));
            && (verdict.Enter? ==> session.target == e.target.name && Replicas.IsCurrent(cfg, rows, session.target, session.stamp))
            && (session.target == e.target.name ==>
              && (verdict.Lagging? <==> !Replicas.IsCurrent(cfg, rows, e.target.name, e.stamp))
              && (verdict.WrongDefinition? ==> !Replicas.IsCurrent(cfg, rows, session.target, session.stamp)))
            && verdict ==
                 if session.target == e.target.name && !Replicas.IsCurrent(cfg, rows, e.target.name, e.stamp) then Lagging
                 else if session.stamp != e.stamp then WrongDefinition
                 else if session.resource == e.target.resource || (session.resource == [] && !multi) then Enter(found.0)
                 else WrongAudience
  {
    var rows, name := s.targets.rows, e.target.name;
    ReplicaSafety.HeldEntryIsFresh(cfg, s, e);
    if Replicas.IsCurrent(cfg, rows, name, e.stamp) && Replicas.IsCurrent(cfg, rows, name, found.1.stamp) {
      OneStampIsCurrent(cfg, rows, name, e.stamp, found.1.stamp);
    }
  }

  /** handleMCP's checks are exact. A request is told to retry exactly when its session is of the
      target and the replica is behind; refused for its stamp exactly when that is not the entry's,
      and for a session of the target only when it is not current; and let in, with the stamp
      current, exactly when its session is for the target's resource, or for none in a deployment
      that names none. */
  lemma CallVerdictsAreExact(cfg: Config, ttl: Lifetimes, w: State, pid: Pid, token: Secret)
    requires Reachable(cfg, ttl, w) && CanCall(ttl, w, LookUp(pid, token)) && Found(ttl, w, token).Some?
    ensures var (e, s) := (w.calls[pid].entry, Found(ttl, w, token).value.1);
            var verdict := VerdictOn(ttl, w, w.calls[pid], token);
            && (verdict.Enter? ==> s.target == e.target.name && Replicas.IsCurrent(cfg, Rows(w), s.target, s.stamp))
            && (s.target == e.target.name ==>
              && (verdict.Lagging? <==> !Replicas.IsCurrent(cfg, Rows(w), e.target.name, e.stamp))
              && (verdict.WrongDefinition? ==> !Replicas.IsCurrent(cfg, Rows(w), s.target, s.stamp)))
            && verdict ==
                 if s.target == e.target.name && !Replicas.IsCurrent(cfg, Rows(w), e.target.name, e.stamp) then Lagging
                 else if s.stamp != e.stamp then WrongDefinition
                 else if s.resource == e.target.resource || (s.resource == [] && !cfg.named) then Enter(Found(ttl, w, token).value.0)
                 else WrongAudience
  {
    ReachableInv(cfg, ttl, w);
    var found := Found(ttl, w, token).value;
    assert CallOk(cfg, w.served.targets, w.history, w.calls[pid]);
    assert SessionOk(w.history, found.0, w.grants.db.sessions[found.0]);
    VerdictCore(cfg, w.served, w.calls[pid].entry, w.calls[pid].multi, found);
  }

  /** A per-user credential is unsealed only while the definition it was saved under is the
      current one, at the very read that fetched it. */
  lemma CredentialsAreReadFresh(cfg: Config, ttl: Lifetimes, w: State, pid: Pid)
    requires Reachable(cfg, ttl, w) && CanCall(ttl, w, Read(pid)) && w.calls[pid].entry.target.mode == PER_USER
    ensures var e := w.calls[pid].entry; Replicas.IsCurrent(cfg, Rows(w), e.target.name, e.stamp)
  {
    ReachableInv(cfg, ttl, w);
    var c := w.calls[pid];
    assert CallOk(cfg, w.served.targets, w.history, c);
    assert SessionOk(w.history, c.id, w.grants.db.sessions[c.id]);
    ReplicaSafety.HeldEntryIsFresh(cfg, w.served, c.entry);
  }
}
