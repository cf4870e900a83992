/** The store as the program calls it: one object over the tables, one method for each of its
    statements, and a `Grant` for the transaction that may take back what it took (store.go).
    A method here runs alone; how methods of several processes interleave is what the
    protocol modules are about. */
module Stores {
  import opened Wrappers
  import opened Bytes
  import opened Stamps
  import opened Sealing
  import opened OAuthTables
  import opened Disk
  import opened Targets

  datatype StoreError =
    | NotFound
    | StaleTarget
    | NotAdmitted
    | TokenReused(session: Secret)
    | Refused(why: EditError)
    | Unavailable

  // What a reader learns of the session behind a token, with the stamp the targets table has
  // under its target's name.
  datatype SessionRef = SessionRef(id: Secret, session: Session, current: Option<Stamp>)

  // What the first n of them leave.
  function RanUpTo(d: Disk, ttl: Lifetimes, now: int, n: nat): Disk
    requires n <= |SWEEP|
  {
    if n == 0 then d else Ran(RanUpTo(d, ttl, now, n - 1), ttl, now, SWEEP[n - 1])
  }

  lemma RanOneMore(d: Disk, ttl: Lifetimes, now: int, i: nat)
    requires i < |SWEEP|
    ensures RanUpTo(d, ttl, now, i + 1) == Ran(RanUpTo(d, ttl, now, i), ttl, now, SWEEP[i])
  {
  }

  /** Run to the end, the listed statements are the expiry whose invisibility is proved. */
  lemma TheSweepIsTheExpiry(d: Disk, ttl: Lifetimes, now: int)
    ensures RanUpTo(d, ttl, now, |SWEEP|) == WithoutUnusedClients(Expiry(d, ttl, now), now)
  {
    var d9, d10 := RanUpTo(d, ttl, now, 9), RanUpTo(d, ttl, now, 10);
    RowsByAge(d, ttl, now, d9);
    RanOneMore(d, ttl, now, 9);
    assert d10 == Ran(d9, ttl, now, ExpiredSessions);
    RanOneMore(d, ttl, now, 10);
    assert RanUpTo(d, ttl, now, 11) == Ran(d10, ttl, now, AbandonedSessions);
    RanOneMore(d, ttl, now, 11);
    LastThree(d, ttl, now, d9);
  }

  lemma LastThree(d: Disk, ttl: Lifetimes, now: int, d9: Disk)
    requires d9 == d.(flows := YoungFlows(d.flows, now), logins := YoungLogins(d.logins, now),
                      seen := KeptSeen(d.seen, now), oauth := Aged(d.oauth, ttl, now))
    ensures Ran(Ran(Ran(d9, ttl, now, ExpiredSessions), ttl, now, AbandonedSessions), ttl, now, UnusedClients)
         == WithoutUnusedClients(Expiry(d, ttl, now), now)
  {
  }

  ghost predicate Spares(d: Disk, after: Disk, now: int) {
    && after.creds == d.creds
    && forall p :: p in d.seen && d.seen[p] >= now - 30 * DAY ==> p in after.seen && after.seen[p] == d.seen[p]
  }

  lemma RanSpares(d: Disk, ttl: Lifetimes, now: int, st: Statement)
    ensures Spares(d, Ran(d, ttl, now, st), now)
  {
  }

  // The listed statements leave the credentials alone, and what was lately seen.
  lemma {:induction false} RanUpToSpares(d: Disk, ttl: Lifetimes, now: int, n: nat)
    requires n <= |SWEEP|
    ensures Spares(d, RanUpTo(d, ttl, now, n), now)
  {
    if n > 0 {
      RanUpToSpares(d, ttl, now, n - 1);
      RanSpares(RanUpTo(d, ttl, now, n - 1), ttl, now, SWEEP[n - 1]);
    }
  }

  lemma FirstFour(d: Disk, ttl: Lifetimes, now: int)
    ensures RanUpTo(d, ttl, now, 4)
         == d.(flows := YoungFlows(d.flows, now), logins := YoungLogins(d.logins, now),
               oauth := d.oauth.(codes := KeptCodes(d.oauth.codes, now), access := KeptAccess(d.oauth.access, now)))
  {
    RanOneMore(d, ttl, now, 0);
    RanOneMore(d, ttl, now, 1);
    var d2 := d.(flows := YoungFlows(d.flows, now), logins := YoungLogins(d.logins, now));
    assert RanUpTo(d, ttl, now, 2) == d2;
    RanOneMore(d, ttl, now, 2);
    RanOneMore(d, ttl, now, 3);
  }

  lemma NothingUnstamped(d: Disk, ttl: Lifetimes, now: int)
    ensures RanUpTo(d, ttl, now, 7) == RanUpTo(d, ttl, now, 4)
  {
    RanOneMore(d, ttl, now, 4);
    RanOneMore(d, ttl, now, 5);
    RanOneMore(d, ttl, now, 6);
  }

  lemma RowsByAge(d: Disk, ttl: Lifetimes, now: int, after: Disk)
    requires after == RanUpTo(d, ttl, now, 9)
    ensures after == d.(flows := YoungFlows(d.flows, now), logins := YoungLogins(d.logins, now),
                        seen := KeptSeen(d.seen, now), oauth := Aged(d.oauth, ttl, now))
  {
    FirstFour(d, ttl, now);
    NothingUnstamped(d, ttl, now);
    RanOneMore(d, ttl, now, 7);
    RanOneMore(d, ttl, now, 8);
  }

  // The tables purgeStaleAdminRows goes through.
  datatype Table = FlowTable | SessionTable | CredentialTable

  const PURGED_TABLES: seq<Table> := [FlowTable, SessionTable, CredentialTable]

  function PurgedTable(d: Disk, rows: Rows, only: Text, table: Table): Disk {
    match table
    case FlowTable => d.(flows := FreshFlows(d.flows, rows, only))
    case SessionTable => d.(oauth := WithoutSessions(d.oauth, StaleSessions(d.oauth, rows, only)))
    case CredentialTable => d.(creds := FreshCreds(d.creds, rows, only))
  }

  // Every other key is as it was.
  ghost predicate OnlyDiffersAt<K, V>(a: map<K, V>, b: map<K, V>, at: K) {
    (forall k :: k in a && k != at ==> k in b && b[k] == a[k]) && (forall k :: k in b && k != at ==> k in a)
  }

  // b is what is left of a once the rows of one session are gone.
  ghost predicate LosesSession<V>(a: map<Secret, V>, b: map<Secret, V>, session: V -> Secret, id: Secret) {
    (forall k :: k in b <==> k in a && session(a[k]) != id) && forall k :: k in b ==> b[k] == a[k]
  }

  // Nobody can do anything more with the flow, whatever secret they hold and whenever.
  ghost predicate IsSpent(flows: Flows, id: Secret) {
    && (forall k, t :: FlowToApprove(flows, id, k, t) == None)
    && (forall k, t :: FlowToDecline(flows, id, k, t) == None)
    && (forall t :: FlowToRedeem(flows, id, t) == None)
  }

  lemma NothingToTake(flows: Flows, id: Secret)
    requires id !in flows
    ensures IsSpent(flows, id)
  {
  }

  lemma NothingOfTheRevoked(db: Tables, id: Secret)
    ensures var after := WithoutSessions(db, {id});
            && id !in after.sessions && OnlyDiffersAt(db.sessions, after.sessions, id)
            && LosesSession(db.codes, after.codes, (c: AuthCode) => c.session, id)
            && LosesSession(db.access, after.access, (t: Access) => t.session, id)
            && LosesSession(db.refresh, after.refresh, (t: Refresh) => t.session, id)
            && forall token :: SessionForToken(after, token) != Some(id)
  {
  }

  // What is checked of a definition with these static headers before it is stored.
  predicate MayBeSaved(t: Target, headers: Headers) {
    && t.name != [] && t.name != Ascii("admin") && t.name != Ascii("settings") && t.displayName != []
    && (t.mode == Ascii("provider_token") || t.mode == Ascii("static") || t.mode == Ascii("per_user"))
    && (headers != map[] <==> t.mode == Ascii("static"))
    && (t.userFields != [] <==> t.mode == Ascii("per_user"))
    && forall g :: g in t.allowedGroups ==> g != []
  }

  // The row is still the one the key was read from.
  predicate IsHeld(rows: Rows, key: Key) {
    key.name in rows && rows[key.name].rowId == key.rowId && rows[key.name].revision == key.revision
  }

  // The row that a definition is stored as: the stamp is its own, and a static target's headers
  // are sealed for the row and kept nowhere else.
  predicate IsRowOf(r: Row, t: Target, rowId: Text, revision: nat, headers: Headers) {
    && r.rowId == rowId && r.revision == revision
    && r.target == t.(source := Admin, staticHeaders := map[], resource := [])
    && r.stamp == StampOf(r.target)
    && r.box == if t.mode == Ascii("static") then Some(Sealed(AdminStaticFor(t.name, rowId), headers)) else Option.None
  }

  class Store {
    const ttl: Lifetimes
    var sessions: map<Secret, Session>
    var codes: map<Secret, AuthCode>
    var access: map<Secret, Access>
    var refresh: map<Secret, Refresh>
    var flows: Flows
    var logins: map<Secret, SettingsFlow>
    var creds: Creds
    var seen: map<Served, int>
    var clients: map<Text, int>
    var targets: Rows
    var version: nat

    constructor (ttl: Lifetimes)
      ensures this.ttl == ttl && Db() == EMPTY && targets == map[] && version == 0
      ensures All() == Disk(EMPTY, map[], map[], map[], map[], map[])
    {
      this.ttl := ttl;
      sessions, codes, access, refresh := map[], map[], map[], map[];
      flows, logins, creds, seen, clients, targets, version := map[], map[], map[], map[], map[], map[], 0;
    }

    function Db(): Tables
      reads this`sessions, this`codes, this`access, this`refresh
    {
      Tables(sessions, codes, access, refresh)
    }

    function All(): Disk
      reads this
    {
      Disk(Db(), flows, logins, creds, seen, clients)
    }

    // ---------- flows ----------

    // Until it is approved nobody redeems it, and only the secret's holder may approve it.
    method CreateFlow(id: Secret, flow: Flow, now: int)
      requires id !in flows
      modifies this`flows
      ensures forall t :: FlowToRedeem(flows, id, t) == None
      ensures forall secret, t :: FlowToApprove(flows, id, secret, t).Some? <==> secret == flow.secret && t < now + 600
      ensures id in flows && flows[id] == flow.(approved := false, createdAt := now)
      ensures OnlyDiffersAt(old(flows), flows, id)
    {
      flows := flows[id := flow.(approved := false, createdAt := now)];
    }

    // The secret is checked in the statement that approves, and a second approval finds
    // nothing.
    method ApproveFlow(id: Secret, secret: Secret, now: int) returns (r: Option<Flow>)
      modifies this`flows
      ensures r.Some? <==> id in old(flows) && old(flows)[id].secret == secret
                           && !old(flows)[id].approved && now < old(flows)[id].createdAt + 600
      ensures r.Some? ==> r.value == old(flows)[id].(approved := true) && flows == old(flows)[id := r.value]
      ensures r.None? ==> flows == old(flows)
      ensures FlowToApprove(flows, id, secret, now) == None
    {
      if FlowToApprove(flows, id, secret, now).None? {
        return None;
      }
      var flow := flows[id].(approved := true);
      flows := flows[id := flow];
      return Some(flow);
    }

    // Approved or not, to the secret's holder alone and in time; and then nobody approves,
    // declines or redeems it again.
    method TakeFlow(id: Secret, secret: Secret, now: int) returns (r: Option<Flow>)
      modifies this`flows
      ensures r.Some? <==> id in old(flows) && old(flows)[id].secret == secret && now < old(flows)[id].createdAt + 600
      ensures r.Some? ==> r.value == old(flows)[id]
      ensures r.Some? ==> IsSpent(flows, id)
      ensures OnlyDiffersAt(old(flows), flows, id) && (r.None? ==> flows == old(flows))
    {
      r := FlowToDecline(flows, id, secret, now);
      if r.Some? {
        flows := flows - {id};
        NothingToTake(flows, id);
      }
    }

    // Only an approved flow can be redeemed, and only once.
    method TakeApprovedFlow(id: Secret, now: int) returns (r: Option<Flow>)
      modifies this`flows
      ensures r == FlowToRedeem(old(flows), id, now)
      ensures r.Some? <==> id in old(flows) && old(flows)[id].approved && now < old(flows)[id].createdAt + 600
      ensures r.Some? ==> r.value == old(flows)[id]
      ensures flows == if r.Some? then old(flows) - {id} else old(flows)
      ensures r.Some? ==> IsSpent(flows, id)
    {
      r := FlowToRedeem(flows, id, now);
      if r.Some? {
        flows := flows - {id};
        NothingToTake(flows, id);
      }
    }

    // ---------- logins ----------

    method CreateSettingsFlow(id: Secret, verifier: Secret, secret: Secret, kind: Kind, now: int)
      requires id !in logins
      modifies this`logins
      ensures id in logins && logins[id] == SettingsFlow(verifier, secret, kind, now)
      ensures OnlyDiffersAt(old(logins), logins, id)
    {
      logins := logins[id := SettingsFlow(verifier, secret, kind, now)];
    }

    // A login of another kind, or from another browser, is left for its own callback.
    method TakeSettingsFlow(id: Secret, secret: Secret, kind: Kind, now: int) returns (r: Option<Secret>)
      modifies this`logins
      ensures r.Some? <==>
        && id in old(logins) && old(logins)[id].secret == secret && old(logins)[id].kind == kind
        && now < old(logins)[id].createdAt + 600
      ensures r.Some? ==> r.value == old(logins)[id].verifier
      ensures logins == if r.Some? then old(logins) - {id} else old(logins)
    {
      r := LoginToTake(logins, id, secret, kind, now);
      if r.Some? {
        logins := logins - {id};
      }
    }

    // ---------- fenced writes ----------

    // The allowed groups of the row, if it still carries the stamp.
    function Fenced(name: Text, stamp: Stamp): Option<seq<Text>>
      reads this`targets
    {
      if name in targets && targets[name].stamp == stamp then Some(targets[name].target.allowedGroups) else None
    }

    method CreateSession(id: Secret, s: Session, groups: seq<Text>) returns (r: Result<(), StoreError>)
      requires id !in sessions
      modifies this`sessions
      ensures r == Err(StaleTarget) <==>
        s.stamp.source == Admin && !(s.target in targets && targets[s.target].stamp == s.stamp)
      ensures r == Err(NotAdmitted) <==>
        && s.stamp.source == Admin && s.target in targets && targets[s.target].stamp == s.stamp
        && var allowed := targets[s.target].target.allowedGroups;
           allowed != [] && (set g | g in groups) * (set g | g in allowed) == {}
      ensures r.Ok? || r == Err(StaleTarget) || r == Err(NotAdmitted)
      ensures sessions == if r.Ok? then old(sessions)[id := s] else old(sessions)
    {
      if s.stamp.IsAdmin() {
        var allowed := Fenced(s.target, s.stamp);
        if allowed.None? {
          return Err(StaleTarget);
        }
        GroupsInCommon(allowed.value, groups);
        if !GroupsAdmit(allowed.value, groups) {
          return Err(NotAdmitted);
        }
      }
      sessions := sessions[id := s];
      return Ok(());
    }

    // The session keeps its old stamp after a replacement, so matching that alone would let
    // the write land. An admin stamp must also be the row's now.
    method UpdateSessionToken(id: Secret, stamp: Stamp, box: Sealed<UpstreamToken>) returns (r: Result<(), StoreError>)
      modifies this`sessions
      ensures r == Err(NotFound) <==> !(id in old(sessions) && old(sessions)[id].stamp == stamp)
      ensures r == Err(StaleTarget) <==>
        (id in old(sessions) && old(sessions)[id].stamp == stamp
         && stamp.source == Admin
         && !(old(sessions)[id].target in targets && targets[old(sessions)[id].target].stamp == stamp))
      ensures r.Ok? || r == Err(NotFound) || r == Err(StaleTarget)
      ensures sessions == if r.Ok? then old(sessions)[id := old(sessions)[id].(token := box)] else old(sessions)
      ensures Db() == if r.Ok? then WithToken(old(Db()), id, stamp, box) else old(Db())
    {
      if !(id in sessions && sessions[id].stamp == stamp) {
        return Err(NotFound);
      }
      if stamp.IsAdmin() && Fenced(sessions[id].target, stamp).None? {
        return Err(StaleTarget);
      }
      sessions := sessions[id := sessions[id].(token := box)];
      return Ok(());
    }

    method PutUserCredential(key: CredKey, box: Sealed<Headers>, now: int) returns (r: Result<(), StoreError>)
      modifies this`creds
      ensures r.Ok? <==> (key.stamp.source == Admin ==> key.target in targets && targets[key.target].stamp == key.stamp)
      ensures r.Err? ==> r == Err(StaleTarget)
      ensures creds == if r.Ok? then old(creds)[key := Cred(box, now)] else old(creds)
    {
      if key.stamp.IsAdmin() && Fenced(key.target, key.stamp).None? {
        return Err(StaleTarget);
      }
      creds := creds[key := Cred(box, now)];
      return Ok(());
    }

    // What the same person saved for other targets, or for this one under other stamps, stays.
    method DeleteUserCredential(key: CredKey)
      modifies this`creds
      ensures key !in creds && OnlyDiffersAt(old(creds), creds, key)
    {
      creds := creds - {key};
    }

    // ---------- sessions and tokens ----------

    // Only to a caller that names the stamp the session was created under, and while it lasts.
    method ReadSessionToken(id: Secret, stamp: Stamp, now: int) returns (r: Option<Sealed<UpstreamToken>>)
      ensures r.Some? <==> id in sessions && sessions[id].stamp == stamp && now < sessions[id].createdAt + ttl.session
      ensures r.Some? ==> r.value == sessions[id].token
      ensures r == SessionToken(Db(), ttl, id, stamp, now)
    {
      if id !in sessions || sessions[id].stamp != stamp || sessions[id].createdAt <= now - ttl.session {
        return None;
      }
      return Some(sessions[id].token);
    }

    // The row goes, and by cascade every code and token issued against it; nothing else does.
    method RevokeSession(id: Secret)
      modifies this`sessions, this`codes, this`access, this`refresh
      ensures id !in sessions && OnlyDiffersAt(old(sessions), sessions, id)
      ensures LosesSession(old(codes), codes, (c: AuthCode) => c.session, id)
      ensures LosesSession(old(access), access, (t: Access) => t.session, id)
      ensures LosesSession(old(refresh), refresh, (t: Refresh) => t.session, id)
      ensures forall token :: SessionForToken(Db(), token) != Some(id)
      ensures Db() == WithoutSessions(old(Db()), {id})
    {
      NothingOfTheRevoked(Db(), id);
      var left := WithoutSessions(Db(), {id});
      sessions, codes, access, refresh := left.sessions, left.codes, left.access, left.refresh;
    }

    method CreateAuthCode(code: Secret, rec: AuthCode) returns (r: Result<(), StoreError>)
      requires code !in codes
      modifies this`codes
      ensures r.Ok? <==> rec.session in sessions
      ensures codes == if r.Ok? then old(codes)[code := rec] else old(codes)
    {
      if rec.session !in sessions {
        return Err(Unavailable);
      }
      codes := codes[code := rec];
      return Ok(());
    }

    method LookupAccessToken(token: Secret, now: int) returns (r: Result<SessionRef, StoreError>)
      ensures r.Ok? <==>
        && token in access && now < access[token].expiresAt && access[token].session in sessions
        && now < sessions[access[token].session].createdAt + ttl.session
      ensures r.Ok? ==> r.value.id == access[token].session && r.value.session == sessions[r.value.id]
      ensures r.Ok? ==>
        r.value.current ==
          if r.value.session.target in targets then Some(targets[r.value.session.target].stamp) else Option.None
      ensures r.Ok? <==> LookupAccess(Db(), ttl, token, now).Some?
      ensures r.Ok? ==> LookupAccess(Db(), ttl, token, now) == Some((r.value.id, r.value.session))
                        && r.value.current == CurrentStamp(targets, r.value.session.target)
      ensures r.Err? ==> r == Err(NotFound)
    {
      match LookupAccess(Db(), ttl, token, now) {
        case None => return Err(NotFound);
        case Some((id, s)) => return Ok(SessionRef(id, s, CurrentStamp(targets, s.target)));
      }
    }

    // Either kind of token, whether or not it has expired or been used.
    method FindSession(token: Secret) returns (r: Option<Secret>)
      ensures r.Some? <==> token in access || token in refresh
      ensures r.Some? ==>
        (token in access && access[token].session == r.value) || (token in refresh && refresh[token].session == r.value)
      ensures r == SessionForToken(Db(), token)
    {
      if token in access {
        return Some(access[token].session);
      }
      if token in refresh {
        return Some(refresh[token].session);
      }
      return None;
    }

    // ---------- targets ----------

    method CreateTarget(t: Target, rowId: Text, generation: Text) returns (r: Result<Row, StoreError>)
      modifies this`targets, this`version
      ensures r == Err(Refused(InvalidTarget)) <==> !MayBeSaved(t, t.staticHeaders)
      ensures r == Err(Refused(TargetExists)) <==> r != Err(Refused(InvalidTarget)) && t.name in old(targets)
      ensures r.Err? ==> r == Err(Refused(InvalidTarget)) || r == Err(Refused(TargetExists))
      ensures r.Ok? ==> IsRowOf(r.value, t.(generation := generation), rowId, 1, t.staticHeaders)
      ensures r.Ok? ==> targets == old(targets)[t.name := r.value]
      ensures r.Ok? <==> CreatedRow(t, rowId, generation).Ok? && t.name !in old(targets)
      ensures r.Ok? ==>
        && CreatedRow(t, rowId, generation) == Result.Ok(r.value)
        && targets == Applied(old(targets), Put(r.value)) && version == old(version) + 1
      ensures r.Err? ==> targets == old(targets) && version == old(version)
      ensures r.Err? ==> r == Err(Refused(
        if CreatedRow(t, rowId, generation).Err? then CreatedRow(t, rowId, generation).error else TargetExists))
    {
      var row := CreatedRow(t, rowId, generation);
      if row.Err? {
        return Err(Refused(row.error));
      }
      if t.name in targets {
        return Err(Refused(TargetExists));
      }
      targets := targets[t.name := row.value];
      version := version + 1;
      return Ok(row.value);
    }

    // The version moves with the change, and only a change of stamp purges what was issued
    // under the old one. A purge that fails is left to the sweep: the edit stands.
    method UpdateTarget(key: Key, t: Target, rerolled: Text, failing: set<Table>) returns (r: Result<Row, StoreError>)
      modifies this`targets, this`version, this`flows, this`sessions, this`codes, this`access, this`refresh, this`creds
      ensures r == Err(Refused(Renamed)) <==> t.name != key.name
      ensures r == Err(Refused(TargetChanged)) <==> t.name == key.name && !IsHeld(old(targets), key)
      ensures r == Err(Refused(StaticValueRequired)) <==>
        && t.name == key.name && IsHeld(old(targets), key) && t.mode == Ascii("static") && t.staticHeaders == map[]
        && !(old(targets)[key.name].target.mode == Ascii("static") && old(targets)[key.name].target.url == t.url)
      // What keeps a stamp, and with it all that was issued under it.
      ensures r.Ok? && IsSound(old(targets)[key.name], key.name) ==>
        var cur := old(targets)[key.name];
        && (r.value.stamp == cur.stamp <==> SameDestination(cur.target, t))
        && (SameDestination(cur.target, t) ==> r.value.target.generation == cur.target.generation && All() == old(All()))
        && (!SameDestination(cur.target, t) ==> r.value.target.generation == rerolled)
      // What the row then is. A value that was stored is kept when none is supplied.
      ensures t.name == key.name && IsHeld(old(targets), key) ==>
        var cur := old(targets)[key.name];
        var kept := t.mode == Ascii("static") && t.staticHeaders == map[];
        r == Err(Refused(InvalidTarget)) <==>
          && r != Err(Refused(StaticValueRequired))
          && ((kept && !(cur.box.Some? && cur.box.value.purpose == AdminStaticFor(cur.target.name, cur.rowId)))
              || !MayBeSaved(t, if kept then cur.box.value.payload else t.staticHeaders))
      ensures r.Ok? ==>
        var cur := old(targets)[key.name];
        && (t.mode == Ascii("static") && t.staticHeaders == map[] ==> cur.box.Some?)
        && IsRowOf(r.value, t.(generation := r.value.target.generation), cur.rowId, cur.revision + 1,
                   if t.mode == Ascii("static") && t.staticHeaders == map[] then cur.box.value.payload else t.staticHeaders)
      ensures t.name != key.name ==> r == Err(Refused(Renamed))
      ensures t.name == key.name && !Matches(old(targets), key) ==> r == Err(Refused(TargetChanged))
      ensures t.name == key.name && Matches(old(targets), key) && UpdatedRow(old(targets)[key.name], t, rerolled).Err? ==>
        r == Err(Refused(UpdatedRow(old(targets)[key.name], t, rerolled).error))
      ensures r.Err? ==> targets == old(targets) && version == old(version) && All() == old(All())
      ensures t.name == key.name && Matches(old(targets), key) && UpdatedRow(old(targets)[key.name], t, rerolled).Ok? ==>
        && r.Ok? && UpdatedRow(old(targets)[key.name], t, rerolled) == Result.Ok(r.value)
        && targets == old(targets)[key.name := r.value] && version == old(version) + 1
        && All() == if r.value.stamp != old(targets)[key.name].stamp then PurgedBut(old(All()), targets, key.name, failing)
                    else old(All())
    {
      if t.name != key.name {
        return Err(Refused(Renamed));
      }
      if !Matches(targets, key) {
        return Err(Refused(TargetChanged));
      }
      var cur := targets[key.name];
      var row := UpdatedRow(cur, t, rerolled);
      if row.Err? {
        return Err(Refused(row.error));
      }
      if IsSound(cur, key.name) {
        StampsFollowDestinations(cur, t.(source := Admin), cur.target.generation);
        StampsFollowDestinations(cur, t.(source := Admin), rerolled);
      }
      targets := targets[key.name := row.value];
      version := version + 1;
      if row.value.stamp != cur.stamp {
        var failed := PurgeStaleAdminRows(key.name, failing);
      }
      return Ok(row.value);
    }

    method DeleteTarget(key: Key, failing: set<Table>) returns (r: Result<(), StoreError>)
      modifies this`targets, this`version, this`flows, this`sessions, this`codes, this`access, this`refresh, this`creds
      ensures r.Ok? <==> IsHeld(old(targets), key)
      ensures r.Ok? ==> targets == old(targets) - {key.name}
      ensures r.Ok? ==>
        && targets == Applied(old(targets), Remove(key.name)) && version == old(version) + 1
        && All() == PurgedBut(old(All()), targets, key.name, failing)
      ensures r.Err? ==>
        r == Err(Refused(TargetChanged)) && targets == old(targets) && version == old(version) && All() == old(All())
    {
      if !Matches(targets, key) {
        return Err(Refused(TargetChanged));
      }
      targets := targets - {key.name};
      version := version + 1;
      var failed := PurgeStaleAdminRows(key.name, failing);
      return Ok(());
    }

    // Rows and version come from one snapshot of the database.
    method LoadAdminTargets() returns (rows: seq<Row>, v: nat)
      ensures v == version
      ensures |rows| == |targets|
      ensures forall r :: r in rows <==> exists n :: n in targets && targets[n] == r
    {
      v, rows := version, [];
      var left := targets.Keys;
      while left != {}
        invariant left <= targets.Keys && |rows| + |left| == |targets|
        invariant forall r :: r in rows ==> exists n :: n in targets && targets[n] == r
        invariant forall n :: n in targets && n !in left ==> targets[n] in rows
      {
        var n :| n in left;
        left := left - {n};
        rows := rows + [targets[n]];
      }
    }

    // ---------- sweeps ----------

    method Exec(st: Statement, now: int)
      modifies this`flows, this`logins, this`sessions, this`codes, this`access, this`refresh, this`seen, this`clients
      ensures All() == Ran(old(All()), ttl, now, st)
    {
      var d := Ran(All(), ttl, now, st);
      flows, logins, seen, clients := d.flows, d.logins, d.seen, d.clients;
      sessions, codes, access, refresh := d.oauth.sessions, d.oauth.codes, d.oauth.access, d.oauth.refresh;
    }

    method PurgeTable(only: Text, table: Table)
      modifies this`flows, this`sessions, this`codes, this`access, this`refresh, this`creds
      ensures All() == PurgedTable(old(All()), targets, only, table)
    {
      var d := PurgedTable(All(), targets, only, table);
      flows, creds := d.flows, d.creds;
      sessions, codes, access, refresh := d.oauth.sessions, d.oauth.codes, d.oauth.access, d.oauth.refresh;
    }

    // Every table is tried, even if another fails.
    method PurgeStaleAdminRows(only: Text, failing: set<Table>) returns (failed: bool)
      modifies this`flows, this`sessions, this`codes, this`access, this`refresh, this`creds
      ensures failed <==> failing != {}
      ensures All() == PurgedBut(old(All()), targets, only, failing)
      ensures FlowTable !in failing ==> forall id :: id in flows <==>
        && id in old(flows)
        && var f := old(flows)[id];
           !(f.stamp.source == Admin && (only == [] || f.target == only)
             && (f.target !in targets || targets[f.target].stamp != f.stamp))
      ensures SessionTable !in failing ==> forall id :: id in sessions <==>
        && id in old(sessions)
        && var s := old(sessions)[id];
           !(s.stamp.source == Admin && (only == [] || s.target == only)
             && (s.target !in targets || targets[s.target].stamp != s.stamp))
      ensures CredentialTable !in failing ==> forall k :: k in creds <==>
        && k in old(creds)
        && !(k.stamp.source == Admin && (only == [] || k.target == only)
             && (k.target !in targets || targets[k.target].stamp != k.stamp))
    {
      failed := false;
      ghost var start := All();
      for i := 0 to |PURGED_TABLES|
        invariant All() == PurgedUpTo(start, targets, only, failing, i)
        invariant failed <==> exists j :: 0 <= j < i && PURGED_TABLES[j] in failing
      {
        if PURGED_TABLES[i] in failing {
          failed := true;
        } else {
          PurgeTable(only, PURGED_TABLES[i]);
        }
      }
      PurgedInTheEnd(start, targets, only, failing);
      assert forall t :: t in failing ==> t == PURGED_TABLES[0] || t == PURGED_TABLES[1] || t == PURGED_TABLES[2];
    }

    method ExecNext(i: nat, now: int, ghost start: Disk)
      requires i < |SWEEP| && All() == RanUpTo(start, ttl, now, i)
      modifies this`flows, this`logins, this`sessions, this`codes, this`access, this`refresh, this`seen, this`clients
      ensures All() == RanUpTo(start, ttl, now, i + 1)
    {
      RanOneMore(start, ttl, now, i);
      Exec(SWEEP[i], now);
    }

    // An error ends the run where it stands.
    method RunStatements(now: int, failsAt: Option<nat>) returns (r: Result<(), StoreError>)
      modifies this`flows, this`logins, this`sessions, this`codes, this`access, this`refresh, this`seen, this`clients
      ensures r.Ok? <==> RunsOut(failsAt)
      ensures All() == RanUpTo(old(All()), ttl, now, if r.Ok? then |SWEEP| else failsAt.value)
    {
      ghost var start := All();
      r := Ok(());
      for i := 0 to |SWEEP|
        invariant r.Ok? && i <= Reached(failsAt) && IsRunUpTo(start, All(), ttl, now, i)
      {
        if failsAt == Some(i) {
          r := Err(Unavailable);
          break;
        }
        ExecNext(i, now, start);
      }
    }

    // The purge of retired stamps comes last, after every statement has run, and its failure
    // is the sweep's.
    method Sweep(now: int, failsAt: Option<nat>, failing: set<Table>) returns (r: Result<(), StoreError>)
      modifies this`flows, this`logins, this`sessions, this`codes, this`access, this`refresh, this`seen, this`clients, this`creds
      ensures r.Ok? <==> RunsOut(failsAt) && failing == {}
      ensures r.Ok? ==> All() == Swept(old(All()), ttl, targets, now)
      ensures All() == SweptUpTo(old(All()), ttl, targets, now, failsAt, failing)
      ensures creds == if RunsOut(failsAt) && CredentialTable !in failing then FreshCreds(old(creds), targets, []) else old(creds)
      ensures forall p :: p in old(seen) && old(seen)[p] >= now - 30 * DAY ==> p in seen && seen[p] == old(seen)[p]
    {
      ghost var start := All();
      r := RunStatements(now, failsAt);
      RanUpToSpares(start, ttl, now, if r.Ok? then |SWEEP| else failsAt.value);
      if r.Err? {
        return;
      }
      TheSweepIsTheExpiry(start, ttl, now);
      var failed := PurgeStaleAdminRows([], failing);
      if failed {
        r := Err(Unavailable);
      }
    }

    // No credential of a served pair is a stray for a week.
    method RecordServedStamps(served: seq<Served>, now: int)
      modifies this`seen
      ensures forall p :: p in seen <==> p in old(seen) || p in served
      ensures forall p :: p in seen ==> seen[p] == if p in served then now else old(seen)[p]
      ensures forall k: CredKey, t :: (k.target, k.stamp) in served && t < now + STRAY_AGE ==> !Stray(creds, seen, k, t)
      ensures seen == Recorded(old(seen), (set p | p in served), now)
    {
      seen := Recorded(seen, (set p | p in served), now);
    }

    // A credential goes exactly when it is a config one, saved over a week ago, whose definition
    // has not been seen within the week. The others stay as they are.
    method SweepStrayCredentials(now: int)
      modifies this`creds
      ensures forall k :: k in creds <==>
        k in old(creds) && (k.stamp.IsAdmin() || old(creds)[k].updatedAt >= now - STRAY_AGE || SeenSince(seen, k, now - STRAY_AGE))
      ensures forall k :: k in creds ==> creds[k] == old(creds)[k]
      ensures creds == WithoutStrays(old(creds), seen, now)
    {
      creds := WithoutStrays(creds, seen, now);
    }
  }

  predicate SeenSince(seen: map<Served, int>, k: CredKey, t: int) {
    (k.target, k.stamp) in seen && seen[(k.target, k.stamp)] > t
  }

  ghost predicate IsRunUpTo(d: Disk, after: Disk, ttl: Lifetimes, now: int, n: int) {
    0 <= n <= |SWEEP| && after == RanUpTo(d, ttl, now, n)
  }

  // How many statements run.
  function Reached(failsAt: Option<nat>): (n: nat)
    ensures n <= |SWEEP|
  {
    if RunsOut(failsAt) then |SWEEP| else failsAt.value
  }

  predicate RunsOut(failsAt: Option<nat>) { failsAt.None? || failsAt.value >= |SWEEP| }

  // What a sweep leaves when a statement fails, or some table of the purge.
  function SweptUpTo(d: Disk, ttl: Lifetimes, rows: Rows, now: int, failsAt: Option<nat>, failing: set<Table>): Disk {
    if RunsOut(failsAt) then PurgedBut(WithoutUnusedClients(Expiry(d, ttl, now), now), rows, [], failing)
    else RanUpTo(d, ttl, now, failsAt.value)
  }

  function PurgedUpTo(d: Disk, rows: Rows, only: Text, failing: set<Table>, n: nat): Disk
    requires n <= |PURGED_TABLES|
  {
    if n == 0 then d
    else
      var before := PurgedUpTo(d, rows, only, failing, n - 1);
      if PURGED_TABLES[n - 1] in failing then before else PurgedTable(before, rows, only, PURGED_TABLES[n - 1])
  }

  // Each table is purged or left alone, whatever befell the others.
  function PurgedBut(d: Disk, rows: Rows, only: Text, failing: set<Table>): Disk {
    d.(flows := if FlowTable in failing then d.flows else FreshFlows(d.flows, rows, only),
       oauth := if SessionTable in failing then d.oauth else WithoutSessions(d.oauth, StaleSessions(d.oauth, rows, only)),
       creds := if CredentialTable in failing then d.creds else FreshCreds(d.creds, rows, only))
  }

  lemma PurgedOneMore(d: Disk, rows: Rows, only: Text, failing: set<Table>, n: nat)
    requires n < |PURGED_TABLES|
    ensures var before := PurgedUpTo(d, rows, only, failing, n);
            PurgedUpTo(d, rows, only, failing, n + 1) ==
              if PURGED_TABLES[n] in failing then before else PurgedTable(before, rows, only, PURGED_TABLES[n])
  {
  }

  lemma PurgedInTheEnd(d: Disk, rows: Rows, only: Text, failing: set<Table>)
    ensures PurgedUpTo(d, rows, only, failing, 3) == PurgedBut(d, rows, only, failing)
  {
    var p := PurgedBut(d, rows, only, failing);
    PurgedOneMore(d, rows, only, failing, 0);
    assert PurgedUpTo(d, rows, only, failing, 1) == d.(flows := p.flows);
    PurgedOneMore(d, rows, only, failing, 1);
    assert PurgedUpTo(d, rows, only, failing, 2) == d.(flows := p.flows, oauth := p.oauth);
    PurgedOneMore(d, rows, only, failing, 2);
  }

  // ---------- grants ----------

  // What a transaction has done, so that it can be undone.
  datatype Taken = NothingYet | Code(code: Secret, rec: AuthCode) | Token(token: Secret)

  function Undone(db: Tables, taken: Taken, wrote: Option<Pair>): Tables {
    var db1 := if wrote.None? then db
               else db.(access := db.access - {wrote.value.access}, refresh := db.refresh - {wrote.value.refresh});
    match taken
    case NothingYet => db1
    case Code(code, rec) => db1.(codes := db1.codes[code := rec])
    case Token(token) =>
      if token in db1.refresh then db1.(refresh := db1.refresh[token := db1.refresh[token].(used := false)]) else db1
  }

  /** One transaction. What it takes and writes shows at once here, and is undone, whatever
      else was done meanwhile, if it rolls back before it commits. */
  class Grant {
    const store: Store
    var taken: Taken
    var wrote: Option<Pair>
    var open: bool

    constructor (store: Store)
      ensures this.store == store && open && taken == NothingYet && wrote == None && Outcome() == store.Db()
    {
      this.store := store;
      open, taken, wrote := true, NothingYet, None;
    }

    // What the handler's deferred rollback would leave if it returned now.
    function Outcome(): Tables
      reads this, store
    {
      if open then Undone(store.Db(), taken, wrote) else store.Db()
    }

    method TakeAuthCode(code: Secret, now: int) returns (r: Option<AuthCode>)
      requires open && taken == NothingYet && wrote == None
      modifies store`codes, this`taken
      ensures r == LiveCode(old(store.Db()), code, now)
      ensures r.Some? <==> code in old(store.codes) && now < old(store.codes)[code].createdAt + 60
      ensures r.Some? ==> r.value == old(store.codes)[code]
      ensures store.codes == if r.Some? then old(store.codes) - {code} else old(store.codes)
      ensures store.Db() == if r.Some? then WithoutCode(old(store.Db()), code) else old(store.Db())
      ensures taken == (if r.Some? then Code(code, r.value) else NothingYet) && Outcome() == old(store.Db())
    {
      r := LiveCode(store.Db(), code, now);
      if r.Some? {
        store.codes := store.codes - {code};
        taken := Code(code, r.value);
        assert (old(store.codes) - {code})[code := r.value] == old(store.codes);
      }
    }

    // Two statements. The first names the client, so a wrong one leaves the token unused; the
    // second, which only looks for a replay, does not.
    method TakeRefreshToken(token: Secret, client: Text, now: int) returns (r: Result<SessionRef, StoreError>)
      requires open && taken == NothingYet && wrote == None
      modifies store`refresh, this`taken
      ensures r.Ok? <==> LiveRefresh(old(store.Db()), store.ttl, token, client, now).Some?
      ensures r.Ok? <==>
        && token in old(store.refresh) && !old(store.refresh)[token].used && old(store.refresh)[token].client == client
        && now < old(store.refresh)[token].createdAt + store.ttl.refresh
        && old(store.refresh)[token].session in store.sessions
        && now < store.sessions[old(store.refresh)[token].session].createdAt + store.ttl.session
      ensures r.Ok? ==> store.refresh == old(store.refresh)[token := old(store.refresh)[token].(used := true)]
      ensures r.Err? && token in old(store.refresh) && old(store.refresh)[token].used ==>
        r == Err(TokenReused(old(store.refresh)[token].session))
      ensures r.Err? && !(token in old(store.refresh) && old(store.refresh)[token].used) ==> r == Err(NotFound)
      ensures r.Ok? ==>
        && store.Db() == MarkedUsed(old(store.Db()), token)
        && r.value.id == old(store.refresh)[token].session && r.value.id in store.sessions
        && r.value == SessionRef(r.value.id, store.sessions[r.value.id],
                                 CurrentStamp(store.targets, store.sessions[r.value.id].target))
      ensures r.Err? ==> store.Db() == old(store.Db())
      ensures r.Err? ==>
        r.error == match ReuseProbe(old(store.Db()), token) case Some(id) => TokenReused(id) case None => NotFound
      ensures taken == (if r.Ok? then Token(token) else NothingYet) && Outcome() == old(store.Db())
    {
      var row := LiveRefresh(store.Db(), store.ttl, token, client, now);
      if row.Some? {
        var id := row.value.session;
        store.refresh := store.refresh[token := store.refresh[token].(used := true)];
        taken := Token(token);
        assert store.refresh[token := store.refresh[token].(used := false)] == old(store.refresh);
        return Ok(SessionRef(id, store.sessions[id], CurrentStamp(store.targets, store.sessions[id].target)));
      }
      var reused := ReuseProbe(store.Db(), token);
      if reused.Some? {
        return Err(TokenReused(reused.value));
      }
      return Err(NotFound);
    }

    // The access token then finds the session for its lifetime, the refresh token is live for
    // its client alone, and no other token changes.
    method CreateTokenPair(p: Pair, now: int)
      requires open && wrote == None && p.access !in store.access && p.refresh !in store.refresh
      requires taken.Token? ==> taken.token != p.refresh
      modifies store`access, store`refresh, this`wrote
      ensures p.session in store.sessions ==> forall t ::
        LookupAccess(store.Db(), store.ttl, p.access, t) ==
          if t < now + 43200 && t < store.sessions[p.session].createdAt + store.ttl.session
          then Some((p.session, store.sessions[p.session])) else None
      ensures p.session in store.sessions ==> forall client, t ::
        LiveRefresh(store.Db(), store.ttl, p.refresh, client, t).Some? <==>
          client == p.client && t < now + store.ttl.refresh && t < store.sessions[p.session].createdAt + store.ttl.session
      ensures OnlyDiffersAt(old(store.access), store.access, p.access) && OnlyDiffersAt(old(store.refresh), store.refresh, p.refresh)
      ensures store.Db() == WithPair(old(store.Db()), p, now)
      ensures wrote == Some(p) && Outcome() == old(Outcome())
    {
      store.access := store.access[p.access := Access(p.session, p.client, now + ACCESS_TTL)];
      store.refresh := store.refresh[p.refresh := Refresh(p.session, p.client, false, now)];
      wrote := Some(p);
      assert store.access - {p.access} == old(store.access) && store.refresh - {p.refresh} == old(store.refresh);
    }

    // What was taken and written becomes the outcome.
    method Commit()
      modifies this`open
      ensures Outcome() == store.Db() && !open
    {
      open := false;
    }

    // The outcome becomes what there is. After a commit that is what there was.
    method Rollback()
      modifies this`open, store`codes, store`access, store`refresh
      ensures store.Db() == old(Outcome()) && Outcome() == old(Outcome()) && !open
    {
      if open {
        var db := Undone(store.Db(), taken, wrote);
        store.codes, store.access, store.refresh := db.codes, db.access, db.refresh;
      }
      open := false;
    }
  }
}
