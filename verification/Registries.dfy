/** Snapshots of the served targets, and the registry that rebuilds them (registry.go). */
module Registries {
  import opened Wrappers
  import opened Bytes
  import opened Stamps
  import opened Targets

  // `accepts` stands for what `usable` checks of a row beyond its stamp, its static value
  // and its shape: that its columns decode and that today's upstream policy allows it.
  datatype Config = Config(targets: seq<Target>, publicURL: Text, named: bool, accepts: Row -> bool)

  // Config targets share one transport. An admin target has its own, whose dial guard
  // insists on a listed address for plain http.
  datatype Transport = Shared | Guarded(requireListed: bool)

  // `id` is the identity of the handler, and with it of its slots and connections.
  datatype Proxy = Proxy(id: nat, url: Text, transport: Transport, enrolURL: Text)

  datatype Entry = Entry(target: Target, stamp: Stamp, proxy: Proxy)

  datatype Snapshot = Snapshot(
    entries: seq<Entry>,
    byName: map<Text, Entry>,
    byResource: map<Text, Entry>,
    multi: bool,
    version: nat,
    ignored: seq<Text>)

  // ---------- newSnapshot ----------

  function Lower(b: Byte): Byte { if 0x41 <= b <= 0x5a then b + 0x20 else b }

  predicate IsPlainHTTP(url: Text) {
    |url| >= 5 && forall i :: 0 <= i < 5 ==> Lower(url[i]) == Ascii("http:")[i]
  }

  // The proxy a build from nothing gives a target.
  function NewProxy(cfg: Config, t: Target, id: nat): Proxy {
    Proxy(id, t.url,
          if t.FromAdmin() then Guarded(IsPlainHTTP(t.url)) else Shared,
          if t.mode == PER_USER then cfg.publicURL + Ascii("/settings") else [])
  }

  function Find(prev: Option<Snapshot>, name: Text): Option<Entry> {
    if prev.Some? && name in prev.value.byName then Some(prev.value.byName[name]) else None
  }

  predicate Reusable(prev: Option<Snapshot>, t: Target) {
    Find(prev, t.name).Some? && Find(prev, t.name).value.stamp == StampOf(t)
  }

  function EntryFor(cfg: Config, prev: Option<Snapshot>, t: Target, id: nat): Entry {
    Entry(t, StampOf(t), if Reusable(prev, t) then Find(prev, t.name).value.proxy else NewProxy(cfg, t, id))
  }

  function EntriesFor(cfg: Config, prev: Option<Snapshot>, ts: seq<Target>, id: nat): (es: seq<Entry>)
    ensures |es| == |ts|
  {
    seq(|ts|, i requires 0 <= i < |ts| => EntryFor(cfg, prev, ts[i], id + i))
  }

  function ByName(es: seq<Entry>): map<Text, Entry> {
    if es == [] then map[] else ByName(es[..|es| - 1])[es[|es| - 1].target.name := es[|es| - 1]]
  }

  function ByResource(es: seq<Entry>): map<Text, Entry> {
    if es == [] then map[] else ByResource(es[..|es| - 1])[es[|es| - 1].target.resource := es[|es| - 1]]
  }

  function SnapshotOf(cfg: Config, es: seq<Entry>, version: nat, ignored: seq<Text>): Snapshot {
    Snapshot(es, ByName(es), ByResource(es), cfg.named, version, ignored)
  }

  // The scheme of a URL that was parsed is what stands before its colon, in either case.
  predicate SchemeIsHTTP(url: Text) {
    && |url| >= 5 && url[0] in {0x68, 0x48} && url[1] in {0x74, 0x54} && url[2] in {0x74, 0x54} && url[3] in {0x70, 0x50}
    && url[4] == 0x3a
  }

  // Everything dialled for an admin target goes through the guard, which over plain http insists
  // on a listed address. Only a per_user target has advice to give.
  predicate Suits(cfg: Config, t: Target, p: Proxy) {
    && p.url == t.url
    && (p.transport.Guarded? <==> t.source == Admin)
    && (p.transport.Guarded? ==> (p.transport.requireListed <==> SchemeIsHTTP(t.url)))
    && p.enrolURL == if t.mode == Ascii("per_user") then cfg.publicURL + Ascii("/settings") else []
  }

  predicate HasEntry(prev: Option<Snapshot>, t: Target) {
    prev.Some? && t.name in prev.value.byName && prev.value.byName[t.name].stamp == StampOf(t)
  }

  // An entry for each target in turn. The proxy is the one there was under the name and stamp,
  // or else a new one that suits the target.
  predicate HasEntries(cfg: Config, prev: Option<Snapshot>, ts: seq<Target>, id: nat, es: seq<Entry>) {
    && |es| == |ts|
    && forall i :: 0 <= i < |ts| ==>
         && es[i].target == ts[i] && es[i].stamp == StampOf(ts[i])
         && if HasEntry(prev, ts[i]) then es[i].proxy == prev.value.byName[ts[i].name].proxy
            else es[i].proxy.id == id + i && Suits(cfg, ts[i], es[i].proxy)
  }

  // The last entry with this key.
  predicate IsLast(es: seq<Entry>, key: Entry -> Text, i: int, k: Text) {
    0 <= i < |es| && key(es[i]) == k && forall j :: i < j < |es| ==> key(es[j]) != k
  }

  // Under each key, and no other, the last entry that has it.
  ghost predicate IsIndex(es: seq<Entry>, key: Entry -> Text, index: map<Text, Entry>) {
    && (forall i, k :: IsLast(es, key, i, k) ==> k in index && index[k] == es[i])
    && (forall k :: k in index ==> exists i :: IsLast(es, key, i, k))
  }

  ghost predicate IsBuild(cfg: Config, prev: Option<Snapshot>, ts: seq<Target>, id: nat, s: Snapshot) {
    && HasEntries(cfg, prev, ts, id, s.entries) && s.multi == cfg.named
    && IsIndex(s.entries, (e: Entry) => e.target.name, s.byName)
    && IsIndex(s.entries, (e: Entry) => e.target.resource, s.byResource)
  }

  lemma PlainHTTPIsTheScheme(url: Text)
    ensures IsPlainHTTP(url) <==> SchemeIsHTTP(url)
  {
    var http := Ascii("http:");
    assert http == [0x68, 0x74, 0x74, 0x70, 0x3a];
    if |url| >= 5 {
      assert IsPlainHTTP(url) <==> forall i :: 0 <= i < 5 ==> Lower(url[i]) == http[i];
    }
  }

  // One more entry takes its key over, and leaves the others.
  lemma IndexGrows(es: seq<Entry>, key: Entry -> Text, index: map<Text, Entry>, e: Entry)
    requires IsIndex(es, key, index)
    ensures IsIndex(es + [e], key, index[key(e) := e])
  {
    var more, anew := es + [e], index[key(e) := e];
    assert more[|es|] == e && forall i :: 0 <= i < |es| ==> more[i] == es[i];
    forall i, k | IsLast(more, key, i, k) ensures k in anew && anew[k] == more[i] {
      if i < |es| {
        assert forall j :: i < j < |es| ==> key(more[j]) != k;
        assert IsLast(es, key, i, k);
      }
    }
    forall k | k in anew ensures exists i :: IsLast(more, key, i, k) {
      if k == key(e) {
        assert IsLast(more, key, |es|, k);
      } else {
        var i :| IsLast(es, key, i, k);
        assert IsLast(more, key, i, k);
      }
    }
  }

  lemma {:induction false} ByNameIsTheIndex(es: seq<Entry>)
    ensures IsIndex(es, (e: Entry) => e.target.name, ByName(es))
  {
    if es != [] {
      var n := |es| - 1;
      ByNameIsTheIndex(es[..n]);
      IndexGrows(es[..n], (e: Entry) => e.target.name, ByName(es[..n]), es[n]);
      assert es[..n] + [es[n]] == es;
    }
  }

  lemma {:induction false} ByResourceIsTheIndex(es: seq<Entry>)
    ensures IsIndex(es, (e: Entry) => e.target.resource, ByResource(es))
  {
    if es != [] {
      var n := |es| - 1;
      ByResourceIsTheIndex(es[..n]);
      IndexGrows(es[..n], (e: Entry) => e.target.resource, ByResource(es[..n]), es[n]);
      assert es[..n] + [es[n]] == es;
    }
  }

  lemma EntriesAreBuilt(cfg: Config, prev: Option<Snapshot>, ts: seq<Target>, id: nat)
    ensures HasEntries(cfg, prev, ts, id, EntriesFor(cfg, prev, ts, id))
  {
    forall t | t in ts ensures IsPlainHTTP(t.url) <==> SchemeIsHTTP(t.url) { PlainHTTPIsTheScheme(t.url); }
  }

  lemma SnapshotIsABuild(cfg: Config, prev: Option<Snapshot>, ts: seq<Target>, id: nat, version: nat, ignored: seq<Text>)
    ensures IsBuild(cfg, prev, ts, id, SnapshotOf(cfg, EntriesFor(cfg, prev, ts, id), version, ignored))
  {
    var es := EntriesFor(cfg, prev, ts, id);
    EntriesAreBuilt(cfg, prev, ts, id);
    ByNameIsTheIndex(es);
    ByResourceIsTheIndex(es);
  }

  datatype BuildError = NoTargets | Unreadable

  // Fills the slice and the two maps in one pass. Proxy ids run on from `id`.
  method NewSnapshot(cfg: Config, prev: Option<Snapshot>, ts: seq<Target>, id: nat) returns (r: Result<Snapshot, BuildError>)
    ensures r == if ts == [] && !cfg.named then Err(NoTargets)
                 else Ok(SnapshotOf(cfg, EntriesFor(cfg, prev, ts, id), 0, []))
    ensures r.Ok? ==> IsBuild(cfg, prev, ts, id, r.value)
  {
    if |ts| == 0 && !cfg.named {
      return Err(NoTargets);
    }
    ghost var all := EntriesFor(cfg, prev, ts, id);
    var entries, byName, byResource := [], map[], map[];
    for i := 0 to |ts|
      invariant entries == all[..i] && byName == ByName(entries) && byResource == ByResource(entries)
    {
      var t := ts[i];
      var stamp := StampOf(t);
      var prior := Find(prev, t.name);
      var proxy: Proxy;
      if prior.Some? && prior.value.stamp == stamp {
        proxy := prior.value.proxy;
      } else {
        var enrolURL: Text := [];
        if t.mode == PER_USER {
          enrolURL := cfg.publicURL + Ascii("/settings");
        }
        var transport := Shared;
        if t.FromAdmin() {
          transport := Guarded(IsPlainHTTP(t.url));
        }
        proxy := Proxy(id + i, t.url, transport, enrolURL);
      }
      var e := Entry(t, stamp, proxy);
      assert e == all[i];
      assert all[..i] + [e] == all[..i + 1];
      assert (entries + [e])[..|entries|] == entries;
      entries := entries + [e];
      byName := byName[t.name := e];
      byResource := byResource[t.resource := e];
    }
    assert all[..|ts|] == all;
    SnapshotIsABuild(cfg, prev, ts, id, 0, []);
    return Ok(Snapshot(entries, byName, byResource, cfg.named, 0, []));
  }

  // ---------- merge ----------

  function Usable(cfg: Config, row: Row): Option<Target> {
    if !cfg.accepts(row) || StampOf(row.target) != row.stamp then None
    else if row.target.mode == STATIC && OpenStatic(row).None? then None
    else
      var t := row.target.(
        resource := cfg.publicURL + Ascii("/") + row.target.name + Ascii("/mcp"),
        staticHeaders := if row.target.mode == STATIC then OpenStatic(row).value else row.target.staticHeaders);
      if WellFormed(t) then Some(t) else None
  }

  function Names(rows: seq<Row>): set<Text> { set r | r in rows :: r.target.name }

  function UsableTargets(cfg: Config, rows: seq<Row>): seq<Target> {
    if rows == [] then []
    else
      var rest := UsableTargets(cfg, rows[..|rows| - 1]);
      match Usable(cfg, rows[|rows| - 1]) case Some(t) => rest + [t] case None => rest
  }

  function Unheld(ts: seq<Target>, held: set<Text>): seq<Target> {
    if ts == [] then []
    else
      var t := ts[|ts| - 1];
      Unheld(ts[..|ts| - 1], held) + if t.name in held then [] else [t]
  }

  function Outranked(ts: seq<Target>, held: set<Text>): seq<Text> {
    if ts == [] then []
    else
      var t := ts[|ts| - 1];
      Outranked(ts[..|ts| - 1], held) + if t.name in held then [t.name] else []
  }

  lemma {:induction false} OutrankedNames(ts: seq<Target>, held: set<Text>)
    ensures forall n :: n in Outranked(ts, held) <==> n in held && exists t :: t in ts && t.name == n
  {
    if ts != [] {
      var k := |ts| - 1;
      OutrankedNames(ts[..k], held);
      assert ts[..k] + [ts[k]] == ts;
      assert forall t :: t in ts <==> t in ts[..k] || t == ts[k];
    }
  }

  method Merge(cfg: Config, rows: seq<Row>) returns (targets: seq<Target>, ignored: seq<Text>)
    ensures targets == Unheld(cfg.targets, Names(rows)) + UsableTargets(cfg, rows)
    ensures ignored == Outranked(cfg.targets, Names(rows))
    ensures forall n :: n in ignored <==>
      (exists t :: t in cfg.targets && t.name == n) && (exists r :: r in rows && r.target.name == n)
  {
    OutrankedNames(cfg.targets, Names(rows));
    var held: set<Text> := {};
    for i := 0 to |rows|
      invariant held == Names(rows[..i])
    {
      assert forall r :: r in rows[..i + 1] <==> r in rows[..i] || r == rows[i];
      held := held + {rows[i].target.name};
    }
    assert rows[..|rows|] == rows;
    targets, ignored := [], [];
    for i := 0 to |cfg.targets|
      invariant targets == Unheld(cfg.targets[..i], held)
      invariant ignored == Outranked(cfg.targets[..i], held)
    {
      assert cfg.targets[..i + 1][..i] == cfg.targets[..i];
      var t := cfg.targets[i];
      if t.name in held {
        ignored := ignored + [t.name];
      } else {
        targets := targets + [t];
      }
    }
    assert cfg.targets[..|cfg.targets|] == cfg.targets;
    ghost var fromConfig := targets;
    for i := 0 to |rows|
      invariant targets == fromConfig + UsableTargets(cfg, rows[..i])
    {
      assert rows[..i + 1][..i] == rows[..i];
      var t := Usable(cfg, rows[i]);
      if t.Some? {
        targets := targets + [t.value];
      }
    }
  }

  function Merged(cfg: Config, rows: seq<Row>): seq<Target> {
    Unheld(cfg.targets, Names(rows)) + UsableTargets(cfg, rows)
  }

  // The snapshot a rebuild publishes over `prev`.
  function Rebuilt(cfg: Config, prev: Option<Snapshot>, rows: seq<Row>, version: nat, id: nat): Snapshot {
    SnapshotOf(cfg, EntriesFor(cfg, prev, Merged(cfg, rows), id), version, Outranked(cfg.targets, Names(rows)))
  }

  // An unnamed deployment must have a target to serve.
  predicate Buildable(cfg: Config, loaded: Result<(seq<Row>, nat), BuildError>) {
    loaded.Ok? && (cfg.named || Merged(cfg, loaded.value.0) != [])
  }

  // ---------- the registry ----------

  class Registry {
    const cfg: Config
    var cur: Option<Snapshot>
    var nextId: nat

    constructor (cfg: Config)
      ensures this.cfg == cfg && cur == None && nextId == 0
    {
      this.cfg := cfg;
      cur := None;
      nextId := 0;
    }

    // rebuildLocked, given what LoadAdminTargets returned. An error leaves the snapshot.
    method Rebuild(loaded: Result<(seq<Row>, nat), BuildError>) returns (r: Result<(), BuildError>)
      modifies this
      ensures Buildable(cfg, loaded) ==>
        && r == Ok(()) && cur == Some(Rebuilt(cfg, old(cur), loaded.value.0, loaded.value.1, old(nextId)))
        && IsBuild(cfg, old(cur), Merged(cfg, loaded.value.0), old(nextId), cur.value)
        && cur.value.version == loaded.value.1 && nextId == old(nextId) + |Merged(cfg, loaded.value.0)|
      ensures !Buildable(cfg, loaded) ==>
        cur == old(cur) && nextId == old(nextId) && r == Err(if loaded.Err? then loaded.error else NoTargets)
    {
      if loaded.Err? {
        return Err(loaded.error);
      }
      var (rows, version) := loaded.value;
      var targets, ignored := Merge(cfg, rows);
      var snap := NewSnapshot(cfg, cur, targets, nextId);
      if snap.Err? {
        return Err(snap.error);
      }
      cur := Some(snap.value.(version := version, ignored := ignored));
      nextId := nextId + |targets|;
      return Ok(());
    }

    // The version is read first, so a caller that finds nothing new pays one cheap read.
    method RebuildIfBehind(version: Result<nat, BuildError>, loaded: Result<(seq<Row>, nat), BuildError>)
      returns (rebuilt: bool, r: Result<(), BuildError>)
      requires cur.Some?
      modifies this
      ensures rebuilt <==> version.Ok? && version.value != old(cur).value.version
      ensures !rebuilt ==>
        cur == old(cur) && nextId == old(nextId) && r == if version.Ok? then Ok(()) else Err(version.error)
      ensures rebuilt && Buildable(cfg, loaded) ==>
        && r == Ok(()) && cur == Some(Rebuilt(cfg, old(cur), loaded.value.0, loaded.value.1, old(nextId)))
        && IsBuild(cfg, old(cur), Merged(cfg, loaded.value.0), old(nextId), cur.value)
        && cur.value.version == loaded.value.1 && nextId == old(nextId) + |Merged(cfg, loaded.value.0)|
      ensures rebuilt && !Buildable(cfg, loaded) ==> r.Err? && cur == old(cur) && nextId == old(nextId)
    {
      if version.Err? {
        return false, Err(version.error);
      }
      if version.value == cur.value.version {
        return false, Ok(());
      }
      r := Rebuild(loaded);
      return true, r;
    }
  }

  // Whether this replica may hold an older definition than the database, given the stamp
  // the database has under the name.
  predicate Behind(e: Option<Entry>, current: Option<Stamp>) {
    if e.Some? && e.value.target.FromAdmin() then current != Some(e.value.stamp)
    else current.Some?
  }
}
