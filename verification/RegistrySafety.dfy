/** What a rebuild keeps: the definitions it serves, the proxies it reuses, and the bound on
    requests in flight that reuse is for. */
module RegistrySafety {
  import opened Wrappers
  import opened Bytes
  import opened Stamps
  import opened Targets
  import opened Registries

  predicate ConfigOk(cfg: Config) {
    && (forall t :: t in cfg.targets ==> t.source == Source.Config)
    && forall i, j :: 0 <= i < j < |cfg.targets| ==> cfg.targets[i].name != cfg.targets[j].name
  }

  // The rows as a query returns them.
  ghost predicate Lists(list: seq<Row>, rows: Rows) {
    && (forall r :: r in list ==> r.target.name in rows && rows[r.target.name] == r)
    && (forall n :: n in rows ==> rows[n].target.name == n && rows[n] in list)
  }

  /** The database's definition of a name: the row that holds it, if that is usable, and
      otherwise, where no row does, the config target. */
  ghost predicate Defines(cfg: Config, rows: Rows, n: Text, t: Target) {
    if n in rows then Usable(cfg, rows[n]) == Some(t) else t in cfg.targets && t.name == n
  }

  // ---------- what is served ----------

  lemma {:induction false} UnheldMembers(ts: seq<Target>, held: set<Text>, t: Target)
    ensures t in Unheld(ts, held) <==> t in ts && t.name !in held
  {
    if ts != [] {
      var before := ts[..|ts| - 1];
      UnheldMembers(before, held, t);
      assert ts == before + [ts[|ts| - 1]];
    }
  }

  lemma {:induction false} UsableMembers(cfg: Config, rows: seq<Row>, t: Target)
    ensures t in UsableTargets(cfg, rows) <==> exists r :: r in rows && Usable(cfg, r) == Some(t)
  {
    if rows != [] {
      var before, last := rows[..|rows| - 1], rows[|rows| - 1];
      UsableMembers(cfg, before, t);
      assert rows == before + [last];
    }
  }

  lemma {:induction false} ByNameMembers(es: seq<Entry>)
    ensures forall n :: n in ByName(es) ==> ByName(es)[n] in es && ByName(es)[n].target.name == n
    ensures forall e :: e in es ==> e.target.name in ByName(es)
  {
    if es != [] {
      var before := es[..|es| - 1];
      ByNameMembers(before);
      assert es == before + [es[|es| - 1]];
    }
  }

  lemma {:induction false} ByResourceMembers(es: seq<Entry>)
    ensures forall r :: r in ByResource(es) ==> ByResource(es)[r] in es
  {
    if es != [] {
      var before := es[..|es| - 1];
      ByResourceMembers(before);
      assert es == before + [es[|es| - 1]];
    }
  }

  // A target is merged exactly when the database or the config defines its name as it.
  lemma MergedMembers(cfg: Config, list: seq<Row>, rows: Rows, t: Target)
    requires Lists(list, rows)
    ensures t in Merged(cfg, list) <==> Defines(cfg, rows, t.name, t)
  {
    UnheldMembers(cfg.targets, Names(list), t);
    UsableMembers(cfg, list, t);
    assert Names(list) == rows.Keys;
  }

  lemma ConfigNamesOnce(cfg: Config, t: Target, u: Target)
    requires ConfigOk(cfg) && t in cfg.targets && u in cfg.targets && t.name == u.name
    ensures t == u
  {
    var i, j :| 0 <= i < |cfg.targets| && 0 <= j < |cfg.targets| && cfg.targets[i] == t && cfg.targets[j] == u;
    assert i == j;
  }

  // Every entry is the one made from some target of the list.
  lemma EntryIsFrom(cfg: Config, prev: Option<Snapshot>, ts: seq<Target>, id: nat, e: Entry) returns (i: nat)
    requires e in EntriesFor(cfg, prev, ts, id)
    ensures i < |ts| && e == EntryFor(cfg, prev, ts[i], id + i)
  {
    var es := EntriesFor(cfg, prev, ts, id);
    i :| 0 <= i < |es| && es[i] == e;
  }

  lemma EntriesServe(cfg: Config, prev: Option<Snapshot>, ts: seq<Target>, id: nat)
    ensures var byName := ByName(EntriesFor(cfg, prev, ts, id));
            && (forall n :: n in byName ==> byName[n].target in ts && byName[n].target.name == n)
            && (forall t :: t in ts ==> t.name in byName)
  {
    var es := EntriesFor(cfg, prev, ts, id);
    ByNameMembers(es);
    forall n | n in ByName(es) ensures ByName(es)[n].target in ts {
      var i := EntryIsFrom(cfg, prev, ts, id, ByName(es)[n]);
    }
    forall t | t in ts ensures t.name in ByName(es) {
      var i :| 0 <= i < |ts| && ts[i] == t;
      assert es[i].target == t && es[i] in es;
    }
  }

  /** A rebuild from the rows of a version serves, under each name, exactly the definition
      those rows and the config give it, and nothing else. */
  lemma RebuildServesTheDefinitions(cfg: Config, prev: Option<Snapshot>, list: seq<Row>, rows: Rows, version: nat, id: nat)
    requires ConfigOk(cfg) && Lists(list, rows)
    ensures Serves(cfg, Rebuilt(cfg, prev, list, version, id), rows)
  {
    var ts := Merged(cfg, list);
    var es := EntriesFor(cfg, prev, ts, id);
    var byName := ByName(es);
    EntriesServe(cfg, prev, ts, id);
    forall e | e in es ensures Defines(cfg, rows, e.target.name, e.target) {
      var i := EntryIsFrom(cfg, prev, ts, id, e);
      MergedMembers(cfg, list, rows, e.target);
    }
    forall n | n in byName ensures Defines(cfg, rows, n, byName[n].target) {
      MergedMembers(cfg, list, rows, byName[n].target);
    }
    forall n, t | Defines(cfg, rows, n, t) ensures n in byName && byName[n].target == t {
      DefinedByOne(cfg, list, rows, ts, byName, n, t);
    }
  }

  lemma DefinedByOne(cfg: Config, list: seq<Row>, rows: Rows, ts: seq<Target>, byName: map<Text, Entry>, n: Text, t: Target)
    requires ConfigOk(cfg) && Lists(list, rows) && ts == Merged(cfg, list) && Defines(cfg, rows, n, t)
    requires forall u :: u in ts ==> u.name in byName
    requires forall m :: m in byName ==> byName[m].target in ts && byName[m].target.name == m
    ensures n in byName && byName[n].target == t
  {
    MergedMembers(cfg, list, rows, t);
    MergedMembers(cfg, list, rows, byName[n].target);
    if n !in rows { ConfigNamesOnce(cfg, t, byName[n].target); }
  }

  ghost predicate Serves(cfg: Config, s: Snapshot, rows: Rows) {
    && (forall e :: e in s.entries ==> Defines(cfg, rows, e.target.name, e.target))
    && (forall n :: n in s.byName ==> Defines(cfg, rows, n, s.byName[n].target))
    && (forall n, t :: Defines(cfg, rows, n, t) ==> n in s.byName && s.byName[n].target == t)
  }

  // ---------- reuse ----------

  // An entry is what a build from nothing would make, up to the identity of its proxy.
  ghost predicate AsIfNew(cfg: Config, e: Entry) {
    e.stamp == StampOf(e.target) && e.proxy == NewProxy(cfg, e.target, e.proxy.id)
  }

  ghost predicate SnapshotOk(cfg: Config, s: Snapshot, nextId: nat) {
    && (forall e :: e in s.entries ==> AsIfNew(cfg, e) && e.proxy.id < nextId)
    && (forall n :: n in s.byName ==> s.byName[n] in s.entries && s.byName[n].target.name == n)
    && (forall r :: r in s.byResource ==> s.byResource[r] in s.entries)
    && (forall e, f :: e in s.entries && f in s.entries && e.proxy.id == f.proxy.id ==> e.target.name == f.target.name)
    && s.multi == cfg.named && s.byName == ByName(s.entries) && s.byResource == ByResource(s.entries)
  }

  // One stamp means one URL, transport and enrolment advice, because the stamp encodes all
  // that they are made from.
  lemma ReusedIsAsIfNew(cfg: Config, prev: Option<Snapshot>, t: Target, id: nat)
    requires prev.Some? ==> forall n :: n in prev.value.byName ==> AsIfNew(cfg, prev.value.byName[n])
    ensures AsIfNew(cfg, EntryFor(cfg, prev, t, id))
  {
    if Reusable(prev, t) {
      StampsAgreeExactly(Find(prev, t.name).value.target, t);
    }
  }

  lemma EntriesAsIfNew(cfg: Config, prev: Option<Snapshot>, ts: seq<Target>, id: nat)
    requires prev.Some? ==> SnapshotOk(cfg, prev.value, id)
    ensures forall e :: e in EntriesFor(cfg, prev, ts, id) ==> AsIfNew(cfg, e) && e.proxy.id < id + |ts|
  {
    forall e | e in EntriesFor(cfg, prev, ts, id) ensures AsIfNew(cfg, e) && e.proxy.id < id + |ts| {
      var i := EntryIsFrom(cfg, prev, ts, id, e);
      ReusedIsAsIfNew(cfg, prev, ts[i], id + i);
    }
  }

  // No two names served share a proxy, and none has one yet to be made.
  ghost predicate ProxiesOfTheirOwn(s: Snapshot, nextId: nat) {
    && (forall n :: n in s.byName ==> s.byName[n].proxy.id < nextId)
    && (forall n, m :: n in s.byName && m in s.byName && s.byName[n].proxy.id == s.byName[m].proxy.id ==> n == m)
  }

  lemma ServedProxiesAreTheirOwn(cfg: Config, s: Snapshot, nextId: nat)
    requires SnapshotOk(cfg, s, nextId)
    ensures ProxiesOfTheirOwn(s, nextId)
  {
    forall n, m | n in s.byName && m in s.byName && s.byName[n].proxy.id == s.byName[m].proxy.id ensures n == m {
      assert s.byName[n] in s.entries && s.byName[m] in s.entries;
    }
  }

  lemma EntriesApart(cfg: Config, prev: Option<Snapshot>, ts: seq<Target>, id: nat)
    requires prev.Some? ==> ProxiesOfTheirOwn(prev.value, id)
    ensures var es := EntriesFor(cfg, prev, ts, id);
            forall e, f :: e in es && f in es && e.proxy.id == f.proxy.id ==> e.target.name == f.target.name
  {
    var es := EntriesFor(cfg, prev, ts, id);
    forall e, f | e in es && f in es && e.proxy.id == f.proxy.id ensures e.target.name == f.target.name {
      var i := EntryIsFrom(cfg, prev, ts, id, e);
      var j := EntryIsFrom(cfg, prev, ts, id, f);
      ProxiesApart(cfg, prev, ts, id, i, j);
    }
  }

  /** Reusing proxies refines building them anew: whatever snapshot came before, every entry
      has the URL, transport policy and enrolment advice a fresh build would give it, and no
      two names share a proxy. */
  lemma ReuseRefinesAFreshBuild(cfg: Config, prev: Option<Snapshot>, list: seq<Row>, version: nat, id: nat)
    requires prev.Some? ==> SnapshotOk(cfg, prev.value, id)
    ensures SnapshotOk(cfg, Rebuilt(cfg, prev, list, version, id), id + |Merged(cfg, list)|)
  {
    var ts := Merged(cfg, list);
    EntriesAsIfNew(cfg, prev, ts, id);
    if prev.Some? { ServedProxiesAreTheirOwn(cfg, prev.value, id); }
    EntriesApart(cfg, prev, ts, id);
    ByNameMembers(EntriesFor(cfg, prev, ts, id));
    ByResourceMembers(EntriesFor(cfg, prev, ts, id));
  }

  lemma ProxiesApart(cfg: Config, prev: Option<Snapshot>, ts: seq<Target>, id: nat, i: nat, j: nat)
    requires prev.Some? ==> ProxiesOfTheirOwn(prev.value, id)
    requires i < |ts| && j < |ts|
    requires EntryFor(cfg, prev, ts[i], id + i).proxy.id == EntryFor(cfg, prev, ts[j], id + j).proxy.id
    ensures ts[i].name == ts[j].name
  {
  }

  // ---------- in flight ----------

  const MAX_IN_FLIGHT: nat := 64

  // Requests that hold an entry from the snapshot they loaded, and those being forwarded
  // through its proxy.
  datatype Traffic = Traffic(snap: Snapshot, nextId: nat, loaded: map<nat, Entry>, flying: map<nat, Entry>)

  datatype Move =
    | Rebuild(list: seq<Row>, version: nat)
    | Load(req: nat, name: Text)
    | Forward(req: nat)
    | Finish(req: nat)

  // boundHandler's slots: the requests in flight through one proxy.
  function Through(flying: map<nat, Entry>, proxy: nat): set<nat> {
    set r | r in flying && flying[r].proxy.id == proxy
  }

  ghost predicate Bounded(flying: map<nat, Entry>) {
    forall p :: |Through(flying, p)| <= MAX_IN_FLIGHT
  }

  function InFlightTo(flying: map<nat, Entry>, stamp: Stamp): set<nat> {
    set r | r in flying && flying[r].stamp == stamp
  }

  predicate CanMove(t: Traffic, m: Move) {
    match m
    case Rebuild(_, _) => true
    case Load(req, name) => req !in t.loaded && req !in t.flying && name in t.snap.byName
    case Forward(req) => req in t.loaded && |Through(t.flying, t.loaded[req].proxy.id)| < MAX_IN_FLIGHT
    case Finish(req) => req in t.flying
  }

  function Moved(cfg: Config, t: Traffic, m: Move): Traffic
    requires CanMove(t, m)
  {
    match m
    case Rebuild(list, version) =>
      t.(snap := Rebuilt(cfg, Some(t.snap), list, version, t.nextId), nextId := t.nextId + |Merged(cfg, list)|)
    case Load(req, name) => t.(loaded := t.loaded[req := t.snap.byName[name]])
    case Forward(req) => t.(loaded := t.loaded - {req}, flying := t.flying[req := t.loaded[req]])
    case Finish(req) => t.(flying := t.flying - {req})
  }

  predicate ServesStamp(s: Snapshot, stamp: Stamp) {
    stamp.core.name in s.byName && s.byName[stamp.core.name].stamp == stamp
  }

  // Everyone who has this stamp has it through the proxy that is served now.
  ghost predicate OneProxy(t: Traffic, stamp: Stamp) {
    && ServesStamp(t.snap, stamp)
    && (forall r :: r in t.loaded && t.loaded[r].stamp == stamp ==>
         t.loaded[r].proxy.id == t.snap.byName[stamp.core.name].proxy.id)
    && (forall r :: r in t.flying && t.flying[r].stamp == stamp ==>
         t.flying[r].proxy.id == t.snap.byName[stamp.core.name].proxy.id)
    && Bounded(t.flying)
  }

  ghost predicate TrafficOk(cfg: Config, t: Traffic) { SnapshotOk(cfg, t.snap, t.nextId) }

  // A rebuild that keeps serving a stamp keeps its proxy.
  lemma RebuildKeepsTheProxy(cfg: Config, prev: Snapshot, list: seq<Row>, version: nat, id: nat, stamp: Stamp)
    requires ServesStamp(prev, stamp)
    requires ServesStamp(Rebuilt(cfg, Some(prev), list, version, id), stamp)
    ensures Rebuilt(cfg, Some(prev), list, version, id).byName[stamp.core.name].proxy.id
         == prev.byName[stamp.core.name].proxy.id
  {
    var ts := Merged(cfg, list);
    var es := EntriesFor(cfg, Some(prev), ts, id);
    ByNameMembers(es);
    var i := EntryIsFrom(cfg, Some(prev), ts, id, ByName(es)[stamp.core.name]);
    assert Reusable(Some(prev), ts[i]);
  }

  lemma MoveKeepsOneProxy(cfg: Config, t: Traffic, m: Move, stamp: Stamp)
    requires TrafficOk(cfg, t) && OneProxy(t, stamp) && CanMove(t, m)
    requires ServesStamp(Moved(cfg, t, m).snap, stamp)
    ensures TrafficOk(cfg, Moved(cfg, t, m)) && OneProxy(Moved(cfg, t, m), stamp)
  {
    var t' := Moved(cfg, t, m);
    match m
    case Rebuild(list, version) =>
      ReuseRefinesAFreshBuild(cfg, Some(t.snap), list, version, t.nextId);
      RebuildKeepsTheProxy(cfg, t.snap, list, version, t.nextId, stamp);
    case Load(req, name) =>
      assert StampOf(t.snap.byName[name].target) == t.snap.byName[name].stamp;
    case Forward(req) =>
      ForwardKeepsTheBound(t, req);
    case Finish(req) =>
      forall p ensures |Through(t'.flying, p)| <= MAX_IN_FLIGHT {
        SubsetSize(Through(t'.flying, p), Through(t.flying, p));
      }
  }

  lemma ForwardKeepsTheBound(t: Traffic, req: nat)
    requires CanMove(t, Forward(req)) && Bounded(t.flying)
    ensures Bounded(t.flying[req := t.loaded[req]])
  {
    var flying := t.flying[req := t.loaded[req]];
    forall p ensures |Through(flying, p)| <= MAX_IN_FLIGHT {
      if p == t.loaded[req].proxy.id {
        SubsetSize(Through(flying, p), Through(t.flying, p) + {req});
      } else {
        SubsetSize(Through(flying, p), Through(t.flying, p));
      }
    }
  }

  // Every move can be made, and every snapshot along the way serves the stamp.
  ghost predicate KeepsServing(cfg: Config, t: Traffic, moves: seq<Move>, stamp: Stamp)
    decreases |moves|
  {
    && ServesStamp(t.snap, stamp)
    && (moves != [] ==> CanMove(t, moves[0]) && KeepsServing(cfg, Moved(cfg, t, moves[0]), moves[1..], stamp))
  }

  ghost function AfterMoves(cfg: Config, t: Traffic, moves: seq<Move>, stamp: Stamp): Traffic
    requires KeepsServing(cfg, t, moves, stamp)
    decreases |moves|
  {
    if moves == [] then t else AfterMoves(cfg, Moved(cfg, t, moves[0]), moves[1..], stamp)
  }

  /** However often the snapshot is rebuilt, at most 64 requests are in flight to a stamp for
      as long as every rebuild keeps serving it. */
  lemma {:induction false} InFlightIsBounded(cfg: Config, t: Traffic, moves: seq<Move>, stamp: Stamp)
    requires TrafficOk(cfg, t) && OneProxy(t, stamp) && KeepsServing(cfg, t, moves, stamp)
    ensures |InFlightTo(AfterMoves(cfg, t, moves, stamp).flying, stamp)| <= MAX_IN_FLIGHT
    decreases |moves|
  {
    if moves == [] {
      var p := t.snap.byName[stamp.core.name].proxy.id;
      assert |Through(t.flying, p)| <= MAX_IN_FLIGHT;
      SubsetSize(InFlightTo(t.flying, stamp), Through(t.flying, p));
    } else {
      MoveKeepsOneProxy(cfg, t, moves[0], stamp);
      InFlightIsBounded(cfg, Moved(cfg, t, moves[0]), moves[1..], stamp);
    }
  }

  // ---------- from nothing ----------

  ghost predicate NobodyHolds(t: Traffic, stamp: Stamp) {
    && (forall r :: r in t.loaded ==> t.loaded[r].stamp != stamp)
    && (forall r :: r in t.flying ==> t.flying[r].stamp != stamp)
  }

  // When a stamp that nobody holds is served, whoever comes to hold it has it through one proxy.
  lemma FirstServedHasOneProxy(t: Traffic, stamp: Stamp)
    requires Bounded(t.flying) && ServesStamp(t.snap, stamp) && NobodyHolds(t, stamp)
    ensures OneProxy(t, stamp)
  {
  }

  lemma MoveKeepsTheBound(cfg: Config, t: Traffic, m: Move)
    requires CanMove(t, m) && Bounded(t.flying)
    ensures Bounded(Moved(cfg, t, m).flying)
  {
    match m
    case Forward(req) => ForwardKeepsTheBound(t, req);
    case Finish(req) =>
      forall p ensures |Through(t.flying - {req}, p)| <= MAX_IN_FLIGHT {
        SubsetSize(Through(t.flying - {req}, p), Through(t.flying, p));
      }
    case _ =>
  }

  ghost predicate Leads(cfg: Config, t: Traffic, moves: seq<Move>, later: Traffic)
    decreases |moves|
  {
    if moves == [] then t == later else CanMove(t, moves[0]) && Leads(cfg, Moved(cfg, t, moves[0]), moves[1..], later)
  }

  lemma {:induction false} MovesKeepTheBound(cfg: Config, t: Traffic, moves: seq<Move>, later: Traffic)
    requires TrafficOk(cfg, t) && Bounded(t.flying) && Leads(cfg, t, moves, later)
    ensures TrafficOk(cfg, later) && Bounded(later.flying)
    decreases |moves|
  {
    if moves != [] {
      MoveKeepsTheBound(cfg, t, moves[0]);
      if moves[0].Rebuild? { ReuseRefinesAFreshBuild(cfg, Some(t.snap), moves[0].list, moves[0].version, t.nextId); }
      MovesKeepTheBound(cfg, Moved(cfg, t, moves[0]), moves[1..], later);
    }
  }

  /** So from no traffic at all, whatever was served and rebuilt before: once a stamp nobody holds
      is served, at most 64 requests are in flight to it for as long as every rebuild serves it. */
  lemma InFlightIsBoundedFromNothing(cfg: Config, t: Traffic, before: seq<Move>, m: Traffic, moves: seq<Move>, stamp: Stamp)
    requires TrafficOk(cfg, t) && t.loaded == map[] && t.flying == map[] && Leads(cfg, t, before, m)
    requires ServesStamp(m.snap, stamp) && NobodyHolds(m, stamp) && KeepsServing(cfg, m, moves, stamp)
    ensures |InFlightTo(AfterMoves(cfg, m, moves, stamp).flying, stamp)| <= MAX_IN_FLIGHT
  {
    assert Bounded(t.flying) by {
      forall p ensures |Through(t.flying, p)| <= MAX_IN_FLIGHT { assert Through(t.flying, p) == {}; }
    }
    MovesKeepTheBound(cfg, t, before, m);
    FirstServedHasOneProxy(m, stamp);
    InFlightIsBounded(cfg, m, moves, stamp);
  }
}
