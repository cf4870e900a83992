/** The tables beside the OAuth ones, and the sweep over all of them (store.go). */
module Disk {
  import opened Wrappers
  import opened Bytes
  import opened Stamps
  import opened Sealing
  import opened OAuthTables
  import Targets

  // `secret` is what the browser that was shown the page holds; its hash is stored.
  datatype Flow = Flow(
    client: Text,
    redirect: Text,
    challenge: Text,
    resource: Text,
    target: Text,
    stamp: Stamp,
    secret: Secret,
    approved: bool,
    createdAt: int)

  datatype Kind = SettingsPage | AdminPage

  datatype SettingsFlow = SettingsFlow(verifier: Secret, secret: Secret, kind: Kind, createdAt: int)

  datatype CredKey = CredKey(subject: Text, target: Text, stamp: Stamp)

  datatype Cred = Cred(box: Sealed<Targets.Headers>, updatedAt: int)

  type Creds = map<CredKey, Cred>

  type Flows = map<Secret, Flow>

  // A target name with a stamp it was served or saved under.
  type Served = (Text, Stamp)

  datatype Disk = Disk(
    oauth: Tables,
    flows: Flows,
    logins: map<Secret, SettingsFlow>,
    creds: Creds,
    seen: map<Served, int>,
    clients: map<Text, int>)

  // ---------- flows ----------

  // Only the browser that was shown the consent page, once, and in time.
  function FlowToApprove(flows: Flows, id: Secret, secret: Secret, now: int): Option<Flow> {
    if id in flows && !flows[id].approved && flows[id].createdAt > now - FLOW_TTL && flows[id].secret == secret
    then Some(flows[id]) else None
  }

  function FlowToDecline(flows: Flows, id: Secret, secret: Secret, now: int): Option<Flow> {
    if id in flows && flows[id].createdAt > now - FLOW_TTL && flows[id].secret == secret then Some(flows[id]) else None
  }

  function FlowToRedeem(flows: Flows, id: Secret, now: int): Option<Flow> {
    if id in flows && flows[id].approved && flows[id].createdAt > now - FLOW_TTL then Some(flows[id]) else None
  }

  function LoginToTake(logins: map<Secret, SettingsFlow>, id: Secret, secret: Secret, kind: Kind, now: int): Option<Secret> {
    if id in logins && logins[id].createdAt > now - FLOW_TTL && logins[id].secret == secret && logins[id].kind == kind
    then Some(logins[id].verifier) else None
  }

  // ---------- the sweep ----------

  function YoungFlows(flows: Flows, now: int): Flows {
    map f | f in flows && flows[f].createdAt >= now - HOUR :: flows[f]
  }

  function YoungLogins(logins: map<Secret, SettingsFlow>, now: int): map<Secret, SettingsFlow> {
    map f | f in logins && logins[f].createdAt >= now - HOUR :: logins[f]
  }

  function KeptCodes(codes: map<Secret, AuthCode>, now: int): map<Secret, AuthCode> {
    map c | c in codes && codes[c].createdAt >= now - HOUR :: codes[c]
  }

  function KeptAccess(access: map<Secret, Access>, now: int): map<Secret, Access> {
    map t | t in access && access[t].expiresAt >= now - DAY :: access[t]
  }

  // A refresh token, used or not, is kept for its lifetime and a day.
  function KeptRefresh(refresh: map<Secret, Refresh>, ttl: Lifetimes, now: int): map<Secret, Refresh> {
    map t | t in refresh && refresh[t].createdAt >= now - ttl.refresh - DAY :: refresh[t]
  }

  function KeptSeen(seen: map<Served, int>, now: int): map<Served, int> {
    map p | p in seen && seen[p] >= now - 30 * DAY :: seen[p]
  }

  function Expired(db: Tables, ttl: Lifetimes, now: int): set<Secret> {
    set id | id in db.sessions && db.sessions[id].createdAt < now - ttl.session
  }

  predicate Referenced(db: Tables, id: Secret) {
    || (exists t :: t in db.access && db.access[t].session == id)
    || (exists t :: t in db.refresh && db.refresh[t].session == id)
    || (exists c :: c in db.codes && db.codes[c].session == id)
  }

  function Abandoned(db: Tables, now: int): set<Secret> {
    set id | id in db.sessions && db.sessions[id].createdAt < now - HOUR && !Referenced(db, id)
  }

  predicate ClientUsed(d: Disk, client: Text) {
    || (exists t :: t in d.oauth.access && d.oauth.access[t].client == client)
    || (exists t :: t in d.oauth.refresh && d.oauth.refresh[t].client == client)
    || (exists f :: f in d.flows && d.flows[f].client == client)
    || (exists c :: c in d.oauth.codes && d.oauth.codes[c].client == client)
  }

  // What the row-by-row statements leave of the OAuth tables.
  function Aged(db: Tables, ttl: Lifetimes, now: int): Tables {
    Tables(db.sessions, KeptCodes(db.codes, now), KeptAccess(db.access, now), KeptRefresh(db.refresh, ttl, now))
  }

  function WithinLifetime(db: Tables, ttl: Lifetimes, now: int): Tables { WithoutSessions(db, Expired(db, ttl, now)) }

  function NotAbandoned(db: Tables, now: int): Tables { WithoutSessions(db, Abandoned(db, now)) }

  // The statements of Sweep up to the clients, in order.
  function Expiry(d: Disk, ttl: Lifetimes, now: int): Disk {
    d.(oauth := NotAbandoned(WithinLifetime(Aged(d.oauth, ttl, now), ttl, now), now),
       flows := YoungFlows(d.flows, now),
       logins := YoungLogins(d.logins, now),
       seen := KeptSeen(d.seen, now))
  }

  function WithoutUnusedClients(d: Disk, now: int): Disk {
    d.(clients := map c | c in d.clients && (d.clients[c] >= now - DAY || ClientUsed(d, c)) :: d.clients[c])
  }

  // The delete statements of Sweep, in the order they are listed.
  datatype Statement =
    | OldFlows
    | OldLogins
    | OldCodes
    | OldAccess
    | UnstampedFlows
    | UnstampedSessions
    | UnstampedCreds
    | OldSeen
    | OldRefresh
    | ExpiredSessions
    | AbandonedSessions
    | UnusedClients

  const SWEEP: seq<Statement> :=
    [OldFlows, OldLogins, OldCodes, OldAccess, UnstampedFlows, UnstampedSessions, UnstampedCreds,
     OldSeen, OldRefresh, ExpiredSessions, AbandonedSessions, UnusedClients]

  // Every row here has a stamp, so the three that look for rows without one find nothing.
  function Ran(d: Disk, ttl: Lifetimes, now: int, st: Statement): Disk {
    match st
    case OldFlows => d.(flows := YoungFlows(d.flows, now))
    case OldLogins => d.(logins := YoungLogins(d.logins, now))
    case OldCodes => d.(oauth := d.oauth.(codes := KeptCodes(d.oauth.codes, now)))
    case OldAccess => d.(oauth := d.oauth.(access := KeptAccess(d.oauth.access, now)))
    case UnstampedFlows => d
    case UnstampedSessions => d
    case UnstampedCreds => d
    case OldSeen => d.(seen := KeptSeen(d.seen, now))
    case OldRefresh => d.(oauth := d.oauth.(refresh := KeptRefresh(d.oauth.refresh, ttl, now)))
    case ExpiredSessions => d.(oauth := WithinLifetime(d.oauth, ttl, now))
    case AbandonedSessions => d.(oauth := NotAbandoned(d.oauth, now))
    case UnusedClients => WithoutUnusedClients(d, now)
  }

  // ---------- purgeStaleAdminRows ----------

  // An admin stamp that no row of the targets table carries under its name. An empty `only`
  // means every name.
  predicate Stale(rows: Targets.Rows, only: Text, target: Text, stamp: Stamp) {
    stamp.IsAdmin() && (only == [] || target == only) && !(target in rows && rows[target].stamp == stamp)
  }

  function StaleSessions(db: Tables, rows: Targets.Rows, only: Text): set<Secret> {
    set id | id in db.sessions && Stale(rows, only, db.sessions[id].target, db.sessions[id].stamp)
  }

  function FreshFlows(flows: Flows, rows: Targets.Rows, only: Text): Flows {
    map f | f in flows && !Stale(rows, only, flows[f].target, flows[f].stamp) :: flows[f]
  }

  function FreshCreds(creds: Creds, rows: Targets.Rows, only: Text): Creds {
    map k | k in creds && !Stale(rows, only, k.target, k.stamp) :: creds[k]
  }

  function Purged(d: Disk, rows: Targets.Rows, only: Text): Disk {
    d.(flows := FreshFlows(d.flows, rows, only),
       oauth := WithoutSessions(d.oauth, StaleSessions(d.oauth, rows, only)),
       creds := FreshCreds(d.creds, rows, only))
  }

  function Swept(d: Disk, ttl: Lifetimes, rows: Targets.Rows, now: int): Disk {
    Purged(WithoutUnusedClients(Expiry(d, ttl, now), now), rows, [])
  }

  // ---------- stray credentials ----------

  const STRAY_AGE: int := 7 * DAY

  function Recorded(seen: map<Served, int>, served: set<Served>, now: int): map<Served, int> {
    map p | p in seen.Keys + served :: if p in served then now else seen[p]
  }

  // A config credential neither saved nor, by any process, served for a week.
  predicate Stray(creds: Creds, seen: map<Served, int>, k: CredKey, now: int) {
    && k in creds && !k.stamp.IsAdmin()
    && creds[k].updatedAt < now - STRAY_AGE
    && !((k.target, k.stamp) in seen && seen[(k.target, k.stamp)] > now - STRAY_AGE)
  }

  function WithoutStrays(creds: Creds, seen: map<Served, int>, now: int): Creds {
    map k | k in creds && !Stray(creds, seen, k, now) :: creds[k]
  }
}
