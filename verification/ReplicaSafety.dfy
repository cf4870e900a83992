/** What replicas serve, however the edits and the rebuilds interleave. */
module ReplicaSafety {
  import opened Wrappers
  import opened Bytes
  import opened Stamps
  import opened Sealing
  import opened Registries
  import opened RegistrySafety
  import opened Replicas
  import Stores
  import Targets
  import TargetSafety

  // A published snapshot serves the table of its version, and a loaded one is no older.
  ghost predicate ReplicaOk(cfg: Config, tables: seq<Targets.Rows>, r: Replica) {
    && (r.snap.Some? ==>
      && r.snap.value.version < |tables|
      && Serves(cfg, r.snap.value, tables[r.snap.value.version])
      && SnapshotOk(cfg, r.snap.value, r.nextId))
    && (r.building.Loaded? ==>
      && r.building.version < |tables|
      && Lists(r.building.list, tables[r.building.version])
      && (r.snap.Some? ==> r.snap.value.version <= r.building.version))
  }

  ghost predicate Inv(cfg: Config, s: State) {
    && TargetSafety.Inv(s.targets)
    && forall rid :: rid in s.replicas ==> ReplicaOk(cfg, s.targets.tables, s.replicas[rid])
  }

  lemma PublishKeeps(cfg: Config, tables: seq<Targets.Rows>, r: Replica)
    requires ConfigOk(cfg) && ReplicaOk(cfg, tables, r) && r.building.Loaded?
    ensures ReplicaOk(cfg, tables, Published(cfg, r))
  {
    var b := r.building;
    RebuildServesTheDefinitions(cfg, r.snap, b.list, tables[b.version], b.version, r.nextId);
    ReuseRefinesAFreshBuild(cfg, r.snap, b.list, b.version, r.nextId);
  }

  lemma MoreTables(cfg: Config, tables: seq<Targets.Rows>, more: seq<Targets.Rows>, r: Replica)
    requires ReplicaOk(cfg, tables, r) && tables <= more
    ensures ReplicaOk(cfg, more, r)
  {
  }

  lemma StepKeeps(cfg: Config, s: State, step: Step)
    requires ConfigOk(cfg) && Inv(cfg, s) && Enabled(s, step)
    ensures Inv(cfg, Next(cfg, s, step))
    ensures s.targets.tables <= Next(cfg, s, step).targets.tables
  {
    match step
    case Edit(edit) =>
      TargetSafety.StepKeeps(s.targets, edit);
      forall rid | rid in s.replicas ensures ReplicaOk(cfg, Next(cfg, s, step).targets.tables, s.replicas[rid]) {
        MoreTables(cfg, s.targets.tables, Next(cfg, s, step).targets.tables, s.replicas[rid]);
      }
    case Load(rid, list) => assert s.targets.tables[s.targets.version] == s.targets.rows;
    case Publish(rid) => PublishKeeps(cfg, s.targets.tables, s.replicas[rid]);
    case _ =>
  }

  ghost predicate Reaches(cfg: Config, a: State, steps: seq<Step>, b: State)
    decreases |steps|
  {
    if steps == [] then a == b
    else Enabled(a, steps[0]) && Reaches(cfg, Next(cfg, a, steps[0]), steps[1..], b)
  }

  lemma {:induction false} ReachesKeepsInv(cfg: Config, a: State, steps: seq<Step>, b: State)
    requires ConfigOk(cfg) && Inv(cfg, a) && Reaches(cfg, a, steps, b)
    ensures Inv(cfg, b) && a.targets.tables <= b.targets.tables
    decreases |steps|
  {
    if steps != [] {
      StepKeeps(cfg, a, steps[0]);
      ReachesKeepsInv(cfg, Next(cfg, a, steps[0]), steps[1..], b);
    }
  }

  lemma InitialInv(cfg: Config)
    ensures Inv(cfg, INITIAL)
  {
    TargetSafety.InitialInv();
  }

  // ---------- versions ----------

  ghost predicate Serving(s: State, rid: Rid) { rid in s.replicas && s.replicas[rid].snap.Some? }

  ghost function Version(s: State, rid: Rid): nat
    requires Serving(s, rid)
  {
    s.replicas[rid].snap.value.version
  }

  /** Published versions never go backwards: a slow rebuild cannot publish over a newer one. */
  lemma {:induction false} VersionsNeverGoBack(cfg: Config, a: State, steps: seq<Step>, b: State, rid: Rid)
    requires ConfigOk(cfg) && Inv(cfg, a) && Reaches(cfg, a, steps, b) && Serving(a, rid)
    ensures Serving(b, rid) && Version(a, rid) <= Version(b, rid) <= b.targets.version
    decreases |steps|
  {
    if steps != [] {
      var m := Next(cfg, a, steps[0]);
      StepKeeps(cfg, a, steps[0]);
      assert ReplicaOk(cfg, a.targets.tables, a.replicas[rid]);
      VersionsNeverGoBack(cfg, m, steps[1..], b, rid);
    } else {
      assert ReplicaOk(cfg, a.targets.tables, a.replicas[rid]);
    }
  }

  // A poll by `rid` that ends well: its check lets the lock go again, or it publishes.
  ghost predicate EndsPoll(cfg: Config, s: State, step: Step, rid: Rid) {
    && Enabled(s, step)
    && ((step == Check(rid) && Next(cfg, s, step).replicas[rid].building.Idle?)
        || (step == Publish(rid) && (cfg.named || Merged(cfg, s.replicas[rid].building.list) != [])))
  }

  ghost predicate PollsIn(cfg: Config, a: State, steps: seq<Step>, rid: Rid)
    decreases |steps|
  {
    steps != [] && Enabled(a, steps[0])
    && (EndsPoll(cfg, a, steps[0], rid) || PollsIn(cfg, Next(cfg, a, steps[0]), steps[1..], rid))
  }

  // Nothing the replica has in hand was read before this version.
  ghost predicate NothingOld(s: State, rid: Rid) {
    rid in s.replicas && (s.replicas[rid].building.Loaded? ==> s.replicas[rid].building.version == s.targets.version)
  }

  lemma AtVersionStays(cfg: Config, a: State, steps: seq<Step>, b: State, rid: Rid)
    requires ConfigOk(cfg) && Inv(cfg, a) && Reaches(cfg, a, steps, b)
    requires Serving(a, rid) && Version(a, rid) == a.targets.version == b.targets.version
    ensures Serving(b, rid) && Version(b, rid) == b.targets.version
  {
    VersionsNeverGoBack(cfg, a, steps, b, rid);
  }

  lemma VersionsGrow(cfg: Config, a: State, steps: seq<Step>, b: State)
    requires ConfigOk(cfg) && Inv(cfg, a) && Reaches(cfg, a, steps, b)
    ensures a.targets.version <= b.targets.version
  {
    ReachesKeepsInv(cfg, a, steps, b);
  }

  lemma {:induction false} NothingOldCatchesUp(cfg: Config, a: State, steps: seq<Step>, b: State, rid: Rid)
    requires ConfigOk(cfg) && Inv(cfg, a) && Reaches(cfg, a, steps, b)
    requires a.targets.version == b.targets.version
    requires NothingOld(a, rid) && PollsIn(cfg, a, steps, rid)
    ensures Serving(b, rid) && Version(b, rid) == b.targets.version
    decreases |steps|
  {
    var m := Next(cfg, a, steps[0]);
    StepKeeps(cfg, a, steps[0]);
    VersionsGrow(cfg, m, steps[1..], b);
    if EndsPoll(cfg, a, steps[0], rid) {
      AtVersionStays(cfg, m, steps[1..], b, rid);
    } else {
      NothingOldCatchesUp(cfg, m, steps[1..], b, rid);
    }
  }

  // The replica takes its build lock, and then a poll by it ends well.
  ghost predicate LocksThenPolls(cfg: Config, a: State, steps: seq<Step>, rid: Rid)
    decreases |steps|
  {
    steps != [] && Enabled(a, steps[0])
    && (((steps[0] == LockBuild(rid) || steps[0] == LockCheck(rid)) && PollsIn(cfg, Next(cfg, a, steps[0]), steps[1..], rid))
        || LocksThenPolls(cfg, Next(cfg, a, steps[0]), steps[1..], rid))
  }

  /** After the last edit, one poll that starts and ends well brings a replica to the current
      version, whatever rebuild it was in the middle of. */
  lemma {:induction false} APollCatchesUp(cfg: Config, a: State, steps: seq<Step>, b: State, rid: Rid)
    requires ConfigOk(cfg) && Inv(cfg, a) && Reaches(cfg, a, steps, b)
    requires a.targets.version == b.targets.version && LocksThenPolls(cfg, a, steps, rid)
    ensures Serving(b, rid) && Version(b, rid) == b.targets.version
    decreases |steps|
  {
    var m := Next(cfg, a, steps[0]);
    StepKeeps(cfg, a, steps[0]);
    VersionsGrow(cfg, m, steps[1..], b);
    if (steps[0] == LockBuild(rid) || steps[0] == LockCheck(rid)) && PollsIn(cfg, m, steps[1..], rid) {
      NothingOldCatchesUp(cfg, m, steps[1..], b, rid);
    } else {
      APollCatchesUp(cfg, m, steps[1..], b, rid);
    }
  }

  /** A replica at the current version, whether it rebuilt or skipped the rebuild, serves
      exactly the definitions the rows and the config give now. */
  lemma AtTheVersionServesTheRows(cfg: Config, steps: seq<Step>, s: State, rid: Rid)
    requires ConfigOk(cfg) && Reaches(cfg, INITIAL, steps, s)
    requires Serving(s, rid) && Version(s, rid) == s.targets.version
    ensures Serves(cfg, s.replicas[rid].snap.value, s.targets.rows)
  {
    InitialInv(cfg);
    ReachesKeepsInv(cfg, INITIAL, steps, s);
  }

  ghost predicate SameDefinitions(a: Snapshot, b: Snapshot) {
    a.byName.Keys == b.byName.Keys
    && forall n :: n in a.byName ==> a.byName[n].target == b.byName[n].target && a.byName[n].stamp == b.byName[n].stamp
  }

  /** So once the last edit has been followed by a poll on each, all replicas agree. */
  lemma ReplicasAgree(cfg: Config, before: seq<Step>, a: State, steps: seq<Step>, b: State, r1: Rid, r2: Rid)
    requires ConfigOk(cfg) && Reaches(cfg, INITIAL, before, a) && Reaches(cfg, a, steps, b)
    requires a.targets.version == b.targets.version
    requires LocksThenPolls(cfg, a, steps, r1) && LocksThenPolls(cfg, a, steps, r2)
    ensures Serving(b, r1) && Serving(b, r2)
    ensures SameDefinitions(b.replicas[r1].snap.value, b.replicas[r2].snap.value)
  {
    InitialInv(cfg);
    ReachesKeepsInv(cfg, INITIAL, before, a);
    ReachesKeepsInv(cfg, a, steps, b);
    APollCatchesUp(cfg, a, steps, b, r1);
    APollCatchesUp(cfg, a, steps, b, r2);
    SameRowsSameDefinitions(cfg, b.replicas[r1].snap.value, b.replicas[r2].snap.value, b.targets.rows,
                            b.replicas[r1].nextId, b.replicas[r2].nextId);
  }

  lemma SameRowsSameDefinitions(cfg: Config, p: Snapshot, q: Snapshot, rows: Targets.Rows, i: nat, j: nat)
    requires Serves(cfg, p, rows) && Serves(cfg, q, rows) && SnapshotOk(cfg, p, i) && SnapshotOk(cfg, q, j)
    ensures SameDefinitions(p, q)
  {
    forall n | n in p.byName ensures n in q.byName && p.byName[n].target == q.byName[n].target {
      assert Defines(cfg, rows, n, p.byName[n].target);
    }
    forall n | n in q.byName ensures n in p.byName {
      assert Defines(cfg, rows, n, q.byName[n].target);
    }
    forall n | n in p.byName ensures p.byName[n].stamp == q.byName[n].stamp {
      assert p.byName[n] in p.entries && q.byName[n] in q.entries;
    }
  }

  // ---------- freshness ----------

  lemma AdminRowsDefineAdminTargets(cfg: Config, s: Targets.State, v: nat, name: Text, t: Target)
    requires TargetSafety.Inv(s) && v < |s.tables| && name in s.tables[v] && Usable(cfg, s.tables[v][name]) == Some(t)
    ensures t.FromAdmin() && t.name == name && StampOf(t) == s.tables[v][name].stamp
  {
    var row := s.tables[v][name];
    assert TargetSafety.RowOk(row, name, s.drawn, s.supplied);
    StampsAgreeExactly(t, row.target);
  }

  /** Freshness is exact: for every entry a replica serves, `Behind` is false exactly when the
      stamp current under that name is the entry's own. */
  lemma FreshnessIsExact(cfg: Config, steps: seq<Step>, s: State, rid: Rid, name: Text)
    requires ConfigOk(cfg) && Reaches(cfg, INITIAL, steps, s)
    requires Serving(s, rid) && name in s.replicas[rid].snap.value.byName
    ensures var e := s.replicas[rid].snap.value.byName[name];
            !Behind(Some(e), Targets.CurrentStamp(s.targets.rows, name)) <==> IsCurrent(cfg, s.targets.rows, name, e.stamp)
  {
    InitialInv(cfg);
    ReachesKeepsInv(cfg, INITIAL, steps, s);
    var e := s.replicas[rid].snap.value.byName[name];
    assert ReplicaOk(cfg, s.targets.tables, s.replicas[rid]);
    ServedEntryOk(cfg, s, rid, e);
    HeldEntryIsFresh(cfg, s, e);
  }

  // An entry some replica served at some time, which a request may still hold.
  ghost predicate EntryOk(cfg: Config, tables: seq<Targets.Rows>, e: Entry) {
    && AsIfNew(cfg, e)
    && exists v: nat :: v < |tables| && Defines(cfg, tables[v], e.target.name, e.target)
  }

  lemma ServedEntryOk(cfg: Config, s: State, rid: Rid, e: Entry)
    requires Inv(cfg, s) && Serving(s, rid) && e in s.replicas[rid].snap.value.entries
    ensures EntryOk(cfg, s.targets.tables, e)
  {
    var snap := s.replicas[rid].snap.value;
    assert ReplicaOk(cfg, s.targets.tables, s.replicas[rid]);
    assert Defines(cfg, s.targets.tables[snap.version], e.target.name, e.target);
  }

  // At any version, older than the entry or newer.
  lemma HeldEntryIsFreshAt(cfg: Config, s: Targets.State, e: Entry, at: nat)
    requires ConfigOk(cfg) && TargetSafety.Inv(s) && EntryOk(cfg, s.tables, e) && at < |s.tables|
    ensures !Behind(Some(e), Targets.CurrentStamp(s.tables[at], e.target.name))
       <==> IsCurrent(cfg, s.tables[at], e.target.name, e.stamp)
  {
    var rows, name := s.tables[at], e.target.name;
    EntryIsDefined(cfg, s, e);
    if name in rows { assert TargetSafety.RowOk(rows[name], name, s.drawn, s.supplied); }
  }

  // An entry is a config target's, or an admin one's under its own stamp.
  lemma EntryIsDefined(cfg: Config, s: Targets.State, e: Entry)
    requires ConfigOk(cfg) && TargetSafety.Inv(s) && EntryOk(cfg, s.tables, e)
    ensures e.stamp == StampOf(e.target) && (!e.target.FromAdmin() ==> e.target in cfg.targets)
  {
    var v: nat :| v < |s.tables| && Defines(cfg, s.tables[v], e.target.name, e.target);
    if e.target.name in s.tables[v] { AdminRowsDefineAdminTargets(cfg, s, v, e.target.name, e.target); }
  }

  lemma HeldEntryIsFresh(cfg: Config, s: State, e: Entry)
    requires ConfigOk(cfg) && TargetSafety.Inv(s.targets) && EntryOk(cfg, s.targets.tables, e)
    ensures !Behind(Some(e), Targets.CurrentStamp(s.targets.rows, e.target.name))
       <==> IsCurrent(cfg, s.targets.rows, e.target.name, e.stamp)
  {
    assert s.targets.tables[s.targets.version] == s.targets.rows;
    HeldEntryIsFreshAt(cfg, s.targets, e, s.targets.version);
  }

  /** A refusal for a stamp mismatch is final. A replica that is not behind refuses an admin
      stamp only if it is not current, and one that ever was current never will be again. */
  lemma MismatchIsFinal(cfg: Config, before: seq<Step>, s: State, after: seq<Step>, later: State, e: Entry, was: nat, stamp: Stamp)
    requires ConfigOk(cfg) && Reaches(cfg, INITIAL, before, s) && Reaches(cfg, s, after, later)
    requires EntryOk(cfg, s.targets.tables, e)
    requires !Behind(Some(e), Targets.CurrentStamp(s.targets.rows, e.target.name)) && stamp != e.stamp
    requires stamp.IsAdmin() && was < |s.targets.tables|
    requires e.target.name in s.targets.tables[was] && s.targets.tables[was][e.target.name].stamp == stamp
    ensures !IsCurrent(cfg, s.targets.rows, e.target.name, stamp)
    ensures forall n :: n in later.targets.rows ==> later.targets.rows[n].stamp != stamp
  {
    InitialInv(cfg);
    ReachesKeepsInv(cfg, INITIAL, before, s);
    ReachesKeepsInv(cfg, s, after, later);
    HeldEntryIsFresh(cfg, s, e);
    var name, t := e.target.name, later.targets;
    assert t.tables[was] == s.targets.tables[was] && t.tables[s.targets.version] == s.targets.rows;
    forall n | n in t.rows ensures t.rows[n].stamp != stamp {
      assert TargetSafety.StampStays(t.tables, was, s.targets.version, t.version, name, n);
    }
  }

  // ---------- what an entry is ----------

  /** Whatever snapshots came before, every admin entry served dials through the guard, which
      insists on a listed address exactly over plain http; no config entry does; all dial their
      own URL; and just the per_user ones send people to the settings page. */
  lemma ServedProxiesSuit(cfg: Config, s: State, rid: Rid, e: Entry)
    requires Inv(cfg, s) && Serving(s, rid) && e in s.replicas[rid].snap.value.entries
    ensures e.proxy.url == e.target.url
    ensures e.proxy.transport == if e.target.source == Admin then Guarded(SchemeIsHTTP(e.target.url)) else Shared
    ensures e.proxy.enrolURL == if e.target.mode == Ascii("per_user") then cfg.publicURL + Ascii("/settings") else []
  {
    assert ReplicaOk(cfg, s.targets.tables, s.replicas[rid]);
    assert AsIfNew(cfg, e);
    PlainHTTPIsTheScheme(e.target.url);
  }

  /** A row of the table is served exactly when today's policy accepts it: as it was saved, under
      its own path, with the static headers that were stored for it. */
  lemma RowsAreServedUnlessRefused(cfg: Config, s: State, rid: Rid, name: Text)
    requires ConfigOk(cfg) && Inv(cfg, s) && Serving(s, rid)
    requires var v := s.replicas[rid].snap.value.version; v < |s.targets.tables| && name in s.targets.tables[v]
    ensures var (snap, row) := (s.replicas[rid].snap.value, s.targets.tables[s.replicas[rid].snap.value.version][name]);
            && (name in snap.byName <==> cfg.accepts(row))
            && (name in snap.byName ==>
                  var headers := if row.box.Some? then row.box.value.payload else map[];
                  var path := cfg.publicURL + Ascii("/") + name + Ascii("/mcp");
                  snap.byName[name].target == row.target.(resource := path, staticHeaders := headers))
  {
    var snap := s.replicas[rid].snap.value;
    assert ReplicaOk(cfg, s.targets.tables, s.replicas[rid]);
    var row := s.targets.tables[snap.version][name];
    assert TargetSafety.RowOk(row, name, s.targets.drawn, s.targets.supplied);
    SoundRowsAreUsable(cfg, row);
    if name in snap.byName { assert Defines(cfg, s.targets.tables[snap.version], name, snap.byName[name].target); }
    if cfg.accepts(row) { assert Defines(cfg, s.targets.tables[snap.version], name, Usable(cfg, row).value); }
  }

  /** Any row at all, written by whatever code, key or policy, is served exactly when today's policy
      accepts it, its stamp is that of its definition, a static value it needs opens for it, and it
      may be saved as it is. */
  lemma WhatIsLeftOut(cfg: Config, row: Targets.Row)
    ensures Usable(cfg, row).Some? <==>
      && cfg.accepts(row) && row.stamp == StampOf(row.target)
      && (row.target.mode == Ascii("static") ==>
           row.box.Some? && row.box.value.purpose == AdminStaticFor(row.target.name, row.rowId))
      && Stores.MayBeSaved(row.target, if row.target.mode == Ascii("static") then row.box.value.payload else row.target.staticHeaders)
  {
  }

  lemma SoundRowsAreUsable(cfg: Config, row: Targets.Row)
    requires row.stamp == StampOf(row.target) && Targets.WellFormed(TargetSafety.Opened(row))
    requires row.target.mode == STATIC <==> row.box.Some?
    requires row.box.Some? ==> row.box.value.purpose == AdminStaticFor(row.target.name, row.rowId)
    requires row.target.staticHeaders == map[]
    ensures Usable(cfg, row) ==
      if !cfg.accepts(row) then None
      else Some(TargetSafety.Opened(row).(resource := cfg.publicURL + Ascii("/") + row.target.name + Ascii("/mcp")))
  {
  }
}
