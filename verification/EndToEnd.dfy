/** What somebody who signed in gets: which target, whether a request is let in, and what is sent
    for it. The other modules say what can never happen; this one says what does. */
module EndToEnd {
  import opened Wrappers
  import opened Bytes
  import opened Stamps
  import opened Sealing
  import opened OAuthTables
  import opened Disk
  import opened Registries
  import opened RegistrySafety
  import opened World
  import opened Confinement
  import opened FenceSafety
  import opened PurgeSafety
  import Targets
  import TargetSafety
  import Replicas
  import ReplicaSafety

  // ---------- /authorize ----------

  /** With a resource named, /authorize resolves a target served at just that resource, and refuses
      exactly when there is none. With none named it resolves the first, and refuses exactly in a
      deployment that names its targets, or where nothing is served. */
  lemma AuthorizeResolvesExactly(cfg: Config, s: Replicas.State, rid: Replicas.Rid, resource: Text)
    requires ReplicaSafety.Inv(cfg, s) && ReplicaSafety.Serving(s, rid)
    ensures var (snap, t) := (s.replicas[rid].snap.value, ResolveResource(s.replicas[rid].snap.value, resource));
            && (resource == [] ==> t == if cfg.named || snap.entries == [] then None else Some(snap.entries[0].target))
            && (resource != [] ==>
                 && (t.Some? <==> exists e :: e in snap.entries && e.target.resource == resource)
                 && (t.Some? ==> t.value.resource == resource && exists e :: e in snap.entries && e.target == t.value))
  {
    var snap := s.replicas[rid].snap.value;
    assert ReplicaSafety.ReplicaOk(cfg, s.targets.tables, s.replicas[rid]);
    ByResourceMembers(snap.entries);
    ByResourceIsTheIndex(snap.entries);
    if resource != [] && resource in snap.byResource {
      var i :| IsLast(snap.entries, (e: Entry) => e.target.resource, i, resource);
      assert snap.entries[i] in snap.entries;
    }
    forall e | e in snap.entries ensures e.target.resource in snap.byResource {
      var i :| 0 <= i < |snap.entries| && snap.entries[i] == e;
      SomeEntryIsLast(snap.entries, i);
    }
  }

  // Of the entries with the resource of this one, one is the last.
  lemma SomeEntryIsLast(es: seq<Entry>, i: nat)
    requires i < |es|
    ensures es[i].target.resource in ByResource(es)
    decreases |es|
  {
    var n := |es| - 1;
    if i < n { SomeEntryIsLast(es[..n], i); }
  }

  // ---------- the call ----------

  // Two definitions of one stamp are served at one resource.
  lemma SameStampSameResource(cfg: Config, s: Targets.State, a: Target, b: Target)
    requires ConfigOk(cfg) && TargetSafety.Inv(s) && StampOf(a) == StampOf(b)
    requires exists v: nat :: v < |s.tables| && Defines(cfg, s.tables[v], a.name, a)
    requires exists v: nat :: v < |s.tables| && Defines(cfg, s.tables[v], b.name, b)
    ensures a.resource == b.resource
  {
    StampsAgreeExactly(a, b);
    var v: nat :| v < |s.tables| && Defines(cfg, s.tables[v], a.name, a);
    var u: nat :| u < |s.tables| && Defines(cfg, s.tables[u], b.name, b);
    DefinedAtItsResource(cfg, s, v, a);
    DefinedAtItsResource(cfg, s, u, b);
    if a.source.Config? { ConfigNamesOnce(cfg, a, b); }
  }

  lemma DefinedAtItsResource(cfg: Config, s: Targets.State, v: nat, t: Target)
    requires ConfigOk(cfg) && TargetSafety.Inv(s) && v < |s.tables| && Defines(cfg, s.tables[v], t.name, t)
    ensures if t.source.Config? then t in cfg.targets else t.resource == cfg.publicURL + Ascii("/") + t.name + Ascii("/mcp")
  {
    if t.name in s.tables[v] { ReplicaSafety.AdminRowsDefineAdminTargets(cfg, s, v, t.name, t); }
  }

  // The resource a session of the entry's own stamp is for is the entry's, or none.
  lemma ForItsOwnResource(cfg: Config, ttl: Lifetimes, w: State, pid: Pid, id: Secret)
    requires Reachable(cfg, ttl, w) && pid in w.calls && id in w.grants.db.sessions
    requires w.grants.db.sessions[id].stamp == w.calls[pid].entry.stamp
    ensures var (e, s) := (w.calls[pid].entry, w.grants.db.sessions[id]);
            s.target == e.target.name && (s.resource == e.target.resource || (s.resource == [] && !cfg.named))
  {
    ReachableInv(cfg, ttl, w);
    ReachableBorn(cfg, ttl, w);
    assert CallOk(cfg, w.served.targets, w.history, w.calls[pid]);
    assert SessionOk(w.history, id, w.grants.db.sessions[id]);
    SameStampSameResource(cfg, w.served.targets, w.calls[pid].entry.target, w.history.asked[w.history.origins[id].flow].target);
  }

  // The token has not expired, and its session has not ended.
  predicate IsLive(w: State, ttl: Lifetimes, token: Secret) {
    && token in w.grants.db.access && w.grants.clock < w.grants.db.access[token].expiresAt
    && w.grants.db.access[token].session in w.grants.db.sessions
    && w.grants.clock < w.grants.db.sessions[w.grants.db.access[token].session].createdAt + ttl.session
  }

  /** In every run, a request is let in exactly when its token is live, its session was opened under
      the definition the request found, and that definition is the current one. Whatever resource
      the session was asked for, /authorize saw to it that it is this one. */
  lemma LetInExactly(cfg: Config, ttl: Lifetimes, w: State, pid: Pid, token: Secret)
    requires Reachable(cfg, ttl, w) && CanCall(ttl, w, LookUp(pid, token))
    ensures var (e, db) := (w.calls[pid].entry, w.grants.db);
            var verdict := VerdictOn(ttl, w, w.calls[pid], token);
            && (verdict.Enter? <==>
                  && IsLive(w, ttl, token) && db.sessions[db.access[token].session].stamp == e.stamp
                  && Replicas.IsCurrent(cfg, Rows(w), e.target.name, e.stamp))
            && (verdict.Enter? ==> verdict.id == db.access[token].session)
            && (verdict.Unknown? <==> !IsLive(w, ttl, token))
            && !(verdict.WrongAudience? && db.sessions[db.access[token].session].stamp == e.stamp)
  {
    if IsLive(w, ttl, token) {
      CallVerdictsAreExact(cfg, ttl, w, pid, token);
      var id := w.grants.db.access[token].session;
      if w.grants.db.sessions[id].stamp == w.calls[pid].entry.stamp { ForItsOwnResource(cfg, ttl, w, pid, id); }
    }
  }

  // ---------- what is sent ----------

  // The credential of a session's own subject for the entry, where there is one.
  predicate Enrolled(w: State, s: Session, e: Entry) {
    && s.subject != [] && CredKey(s.subject, e.target.name, e.stamp) in w.creds
    && w.creds[CredKey(s.subject, e.target.name, e.stamp)].box.payload != map[]
  }

  lemma OwnHeadersExactly(cfg: Config, w: State, c: Call, s: Session)
    requires c.Entered? && c.id in w.grants.db.sessions && s == w.grants.db.sessions[c.id]
    requires s.stamp == c.entry.stamp && s.target == c.entry.target.name
    requires !Behind(Some(c.entry), Targets.CurrentStamp(Rows(w), s.target)) <==>
             Replicas.IsCurrent(cfg, Rows(w), c.entry.target.name, c.entry.stamp)
    requires var key := CredKey(s.subject, c.entry.target.name, c.entry.stamp);
             key in w.creds ==> w.creds[key].box.purpose == UserCredentialFor(c.entry.stamp)
    ensures OwnHeaders(w, c) ==
      if Enrolled(w, s, c.entry) && Replicas.IsCurrent(cfg, Rows(w), c.entry.target.name, c.entry.stamp)
      then Some((s.subject, w.creds[CredKey(s.subject, c.entry.target.name, c.entry.stamp)].box.payload))
      else None
  {
  }

  lemma OwnTokenExactly(ttl: Lifetimes, w: State, c: Call, s: Session)
    requires c.Entered? && c.id in w.grants.db.sessions && s == w.grants.db.sessions[c.id]
    requires s.stamp == c.entry.stamp && s.token.purpose == UpstreamTokenFor(s.stamp)
    ensures OwnToken(ttl, w, c) == if w.grants.clock < s.createdAt + ttl.session then Some(s.token.payload) else None
  {
  }

  // What a request that is let in knows of its session.
  lemma EnteredKnows(cfg: Config, ttl: Lifetimes, w: State, pid: Pid)
    requires Reachable(cfg, ttl, w) && pid in w.calls && w.calls[pid].Entered? && w.calls[pid].id in w.grants.db.sessions
    ensures var (c, e) := (w.calls[pid], w.calls[pid].entry);
            var s := w.grants.db.sessions[c.id];
            && s.stamp == e.stamp && s.target == e.target.name && s.token.purpose == UpstreamTokenFor(s.stamp)
            && (!Behind(Some(e), Targets.CurrentStamp(Rows(w), s.target)) <==>
                 Replicas.IsCurrent(cfg, Rows(w), e.target.name, e.stamp))
            && (var key := CredKey(s.subject, e.target.name, e.stamp);
                key in w.creds ==> w.creds[key].box.purpose == UserCredentialFor(e.stamp))
  {
    ReachableInv(cfg, ttl, w);
    var c := w.calls[pid];
    var s := w.grants.db.sessions[c.id];
    assert CallOk(cfg, w.served.targets, w.history, c);
    assert SessionOk(w.history, c.id, s);
    ReplicaSafety.HeldEntryIsFresh(cfg, w.served, c.entry);
    var key := CredKey(s.subject, c.entry.target.name, c.entry.stamp);
    if key in w.creds { assert CredOk(w.history, key, w.creds[key].box); }
  }

  /** And then it gets just what its target's mode says, or nothing. In per_user mode, what its
      subject stored under that definition, if that is still the current one; the static headers
      there are; or the token its own session holds, while the session lasts. */
  lemma WhatIsSentExactly(cfg: Config, ttl: Lifetimes, w: State, pid: Pid)
    requires Reachable(cfg, ttl, w) && pid in w.calls && w.calls[pid].Entered? && w.calls[pid].id in w.grants.db.sessions
    ensures var (c, e, mode) := (w.calls[pid], w.calls[pid].entry, w.calls[pid].entry.target.mode);
            var s := w.grants.db.sessions[c.id];
            && s.stamp == e.stamp
            && PayloadNow(ttl, w, c) ==
                 if mode == Ascii("per_user") then
                   if Enrolled(w, s, e) && Replicas.IsCurrent(cfg, Rows(w), e.target.name, e.stamp)
                   then Some(OwnCredential(s.subject, w.creds[CredKey(s.subject, e.target.name, e.stamp)].box.payload))
                   else None
                 else if mode == Ascii("static") then
                   if e.target.staticHeaders != map[] then Some(StaticValues(e.target.staticHeaders)) else None
                 else if mode == Ascii("provider_token") then
                   if w.grants.clock < s.createdAt + ttl.session then Some(ProviderToken(s.token.payload)) else None
                 else None
  {
    EnteredKnows(cfg, ttl, w, pid);
    var c := w.calls[pid];
    OwnHeadersExactly(cfg, w, c, w.grants.db.sessions[c.id]);
    OwnTokenExactly(ttl, w, c, w.grants.db.sessions[c.id]);
    assert |PROVIDER_TOKEN| == 14 && |STATIC| == 6 && |PER_USER| == 8;
  }

  // ---------- through what ----------

  /** Whatever a request holds was dialled for as its target says: an admin one through the guard,
      and over plain http only to a listed address. */
  lemma CallsAreDialledAsTheySay(cfg: Config, ttl: Lifetimes, w: State, pid: Pid)
    requires Reachable(cfg, ttl, w) && pid in w.calls
    ensures var e := w.calls[pid].entry;
            && e.proxy.url == e.target.url
            && e.proxy.transport == if e.target.source == Admin then Guarded(SchemeIsHTTP(e.target.url)) else Shared
  {
    ReachableInv(cfg, ttl, w);
    assert CallOk(cfg, w.served.targets, w.history, w.calls[pid]);
    PlainHTTPIsTheScheme(w.calls[pid].entry.target.url);
  }
}
