/** Any number of replicas, each serving a snapshot that may lag behind the targets table,
    beside the edits of that table (registry.go, store.go). */
module Replicas {
  import opened Wrappers
  import opened Bytes
  import opened Stamps
  import opened Registries
  import opened RegistrySafety
  import Targets

  type Rid = nat

  // Where a rebuild has got to. All but `Idle` hold the replica's build lock. `Loaded` is
  // what one REPEATABLE READ transaction read.
  datatype Building = Idle | Checking | Loading | Loaded(list: seq<Targets.Row>, version: nat)

  datatype Replica = Replica(snap: Option<Snapshot>, nextId: nat, building: Building)

  const BOOTING: Replica := Replica(None, 0, Idle)

  datatype State = State(targets: Targets.State, replicas: map<Rid, Replica>)

  const INITIAL: State := State(Targets.INITIAL, map[])

  datatype Step =
    | Edit(step: Targets.Step)
    | Boot(rid: Rid)
    | LockBuild(rid: Rid)
    | LockCheck(rid: Rid)
    | Check(rid: Rid)
    | Load(rid: Rid, list: seq<Targets.Row>)
    | Publish(rid: Rid)
    | Fail(rid: Rid)

  ghost predicate Enabled(s: State, step: Step) {
    match step
    case Edit(edit) => Targets.Enabled(s.targets, edit)
    case Boot(rid) => rid !in s.replicas
    case LockBuild(rid) => rid in s.replicas && s.replicas[rid].building.Idle?
    case LockCheck(rid) => rid in s.replicas && s.replicas[rid].building.Idle? && s.replicas[rid].snap.Some?
    case Check(rid) => rid in s.replicas && s.replicas[rid].building.Checking? && s.replicas[rid].snap.Some?
    case Load(rid, list) => rid in s.replicas && s.replicas[rid].building.Loading? && Lists(list, s.targets.rows)
    case Publish(rid) => rid in s.replicas && s.replicas[rid].building.Loaded?
    case Fail(rid) => rid in s.replicas && !s.replicas[rid].building.Idle?
  }

  function Published(cfg: Config, r: Replica): Replica
    requires r.building.Loaded?
  {
    var ts := Merged(cfg, r.building.list);
    if ts == [] && !cfg.named then r.(building := Idle)
    else Replica(Some(Rebuilt(cfg, r.snap, r.building.list, r.building.version, r.nextId)), r.nextId + |ts|, Idle)
  }

  ghost function Next(cfg: Config, s: State, step: Step): State
    requires Enabled(s, step)
  {
    match step
    case Edit(edit) => s.(targets := Targets.Next(s.targets, edit))
    case Boot(rid) => s.(replicas := s.replicas[rid := BOOTING])
    case LockBuild(rid) => s.(replicas := s.replicas[rid := s.replicas[rid].(building := Loading)])
    case LockCheck(rid) => s.(replicas := s.replicas[rid := s.replicas[rid].(building := Checking)])
    case Check(rid) =>
      var r := s.replicas[rid];
      s.(replicas := s.replicas[rid :=
        r.(building := if s.targets.version == r.snap.value.version then Idle else Loading)])
    case Load(rid, list) =>
      s.(replicas := s.replicas[rid := s.replicas[rid].(building := Loaded(list, s.targets.version))])
    case Publish(rid) => s.(replicas := s.replicas[rid := Published(cfg, s.replicas[rid])])
    case Fail(rid) => s.(replicas := s.replicas[rid := s.replicas[rid].(building := Idle)])
  }

  // The stamp the database and the config together give a name: the row's if there is one.
  ghost predicate IsCurrent(cfg: Config, rows: Targets.Rows, name: Text, stamp: Stamp) {
    if name in rows then rows[name].stamp == stamp
    else exists t :: t in cfg.targets && t.name == name && StampOf(t) == stamp
  }
}
