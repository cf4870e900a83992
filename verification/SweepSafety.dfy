/** What the sweep deletes by age could not have changed an answer, to any call that goes by a
    flow, a live code or token, or a row that is still kept. */
module SweepSafety {
  import opened Wrappers
  import opened Bytes
  import opened Stamps
  import opened Sealing
  import opened OAuthTables
  import opened Disk
  import Targets

  // ---------- what callers ask ----------

  // The calls of the serving path, each one statement or, for a grant, one committed
  // transaction. `Enter` looks a token up and reads the session behind it. `Probe` is the second
  // half of reuse detection, and the two finds are the halves of SessionForToken: these ask
  // nothing of a token's age. `IssueCode` and the last three go by the id of a session opened or
  // entered earlier, and of them only `ReadToken` asks its age. What a fence would say to a write
  // is `live`.
  datatype Op =
    | CreateFlow(id: Secret, flow: Flow)
    | ApproveFlow(id: Secret, secret: Secret)
    | TakeFlow(id: Secret, secret: Secret)
    | TakeApprovedFlow(id: Secret)
    | CreateLogin(id: Secret, login: SettingsFlow)
    | TakeLogin(id: Secret, secret: Secret, kind: Kind)
    | OpenSession(id: Secret, session: Session)
    | IssueCode(id: Secret, code: Secret, rec: AuthCode)
    | SpendCode(code: Secret)
    | ExchangeCode(code: Secret, access: Secret, refresh: Secret)
    | RefreshGrant(token: Secret, client: Text, access: Secret, refresh: Secret)
    | Enter(token: Secret, stamp: Stamp)
    | Revoke(ids: set<Secret>)
    | Probe(token: Secret)
    | FindByAccess(token: Secret)
    | FindByRefresh(token: Secret)
    | Register(client: Text)
    | FindClient(client: Text)
    | ReadToken(id: Secret, stamp: Stamp)
    | ReadCredential(id: Secret)
    | WriteToken(id: Secret, stamp: Stamp, anew: Sealed<UpstreamToken>, live: bool)

  predicate ById(op: Op) { op.IssueCode? || op.ReadToken? || op.ReadCredential? || op.WriteToken? }

  predicate OfAnyAge(op: Op) { op.Probe? || op.FindByAccess? || op.FindByRefresh? }

  datatype WriteAnswer = NotFound | StaleTarget | Written

  datatype Answer =
    | Done
    | AFlow(flow: Option<Flow>)
    | AVerifier(verifier: Option<Secret>)
    | ACode(rec: Option<AuthCode>)
    | AGrant(session: Option<(Secret, Session)>)
    | ASession(found: Option<(Secret, Session)>, box: Option<Sealed<UpstreamToken>>)
    | AToken(box: Option<Sealed<UpstreamToken>>)
    | ACredential(sealed: Option<Sealed<Targets.Headers>>)
    | AWrite(answer: WriteAnswer)
    | ACodeStored(stored: bool)
    | AnOwner(owner: Option<Secret>)
    | AClient(known: bool)

  // The join of UserCredentialForSession: the session's own subject, target and stamp.
  function CredentialOf(d: Disk, id: Secret): Option<Sealed<Targets.Headers>> {
    if id !in d.oauth.sessions then None
    else
      var s := d.oauth.sessions[id];
      var key := CredKey(s.subject, s.target, s.stamp);
      if s.subject != [] && key in d.creds then Some(d.creds[key].box) else None
  }

  // The session of a token, whatever its age.
  function OwnerOf(db: Tables, op: Op): Option<Secret>
    requires OfAnyAge(op)
  {
    match op
    case Probe(token) => ReuseProbe(db, token)
    case FindByAccess(token) => if token in db.access then Some(db.access[token].session) else None
    case FindByRefresh(token) => if token in db.refresh then Some(db.refresh[token].session) else None
  }

  predicate HasRow(db: Tables, id: Secret, stamp: Stamp) { id in db.sessions && db.sessions[id].stamp == stamp }

  // A plain insert and a delete tell nothing of what the disk holds.
  function Ask(d: Disk, ttl: Lifetimes, op: Op, now: int): Answer {
    match op
    case ApproveFlow(id, secret) => AFlow(FlowToApprove(d.flows, id, secret, now))
    case TakeFlow(id, secret) => AFlow(FlowToDecline(d.flows, id, secret, now))
    case TakeApprovedFlow(id) => AFlow(FlowToRedeem(d.flows, id, now))
    case TakeLogin(id, secret, kind) => AVerifier(LoginToTake(d.logins, id, secret, kind, now))
    case SpendCode(code) => ACode(LiveCode(d.oauth, code, now))
    case ExchangeCode(code, _, _) => ACode(LiveCode(d.oauth, code, now))
    case RefreshGrant(token, client, _, _) =>
      (match LiveRefresh(d.oauth, ttl, token, client, now)
       case Some(r) => AGrant(Some((r.session, d.oauth.sessions[r.session])))
       case None => AGrant(None))
    case Enter(token, stamp) =>
      (match LookupAccess(d.oauth, ttl, token, now)
       case Some((id, session)) => ASession(Some((id, session)), SessionToken(d.oauth, ttl, id, stamp, now))
       case None => ASession(None, None))
    case Probe(_) => AnOwner(OwnerOf(d.oauth, op))
    case FindByAccess(_) => AnOwner(OwnerOf(d.oauth, op))
    case FindByRefresh(_) => AnOwner(OwnerOf(d.oauth, op))
    case FindClient(client) => AClient(client in d.clients)
    case IssueCode(id, _, _) => ACodeStored(id in d.oauth.sessions)
    case ReadToken(id, stamp) => AToken(SessionToken(d.oauth, ttl, id, stamp, now))
    case ReadCredential(id) => ACredential(CredentialOf(d, id))
    case WriteToken(id, stamp, _, live) =>
      AWrite(if !HasRow(d.oauth, id, stamp) then NotFound else if live then Written else StaleTarget)
    case _ => Done
  }

  function Do(d: Disk, ttl: Lifetimes, op: Op, now: int): Disk {
    match op
    case CreateFlow(id, flow) => d.(flows := d.flows[id := flow])
    case ApproveFlow(id, secret) =>
      (match FlowToApprove(d.flows, id, secret, now)
       case Some(f) => d.(flows := d.flows[id := f.(approved := true)])
       case None => d)
    case TakeFlow(id, secret) => if FlowToDecline(d.flows, id, secret, now).Some? then d.(flows := d.flows - {id}) else d
    case TakeApprovedFlow(id) => if FlowToRedeem(d.flows, id, now).Some? then d.(flows := d.flows - {id}) else d
    case CreateLogin(id, login) => d.(logins := d.logins[id := login])
    case TakeLogin(id, secret, kind) =>
      if LoginToTake(d.logins, id, secret, kind, now).Some? then d.(logins := d.logins - {id}) else d
    case OpenSession(id, session) => d.(oauth := d.oauth.(sessions := d.oauth.sessions[id := session]))
    case IssueCode(id, code, rec) =>
      if id in d.oauth.sessions then d.(oauth := d.oauth.(codes := d.oauth.codes[code := rec.(session := id)])) else d
    case SpendCode(code) => if LiveCode(d.oauth, code, now).Some? then d.(oauth := WithoutCode(d.oauth, code)) else d
    case ExchangeCode(code, access, refresh) =>
      (match LiveCode(d.oauth, code, now)
       case Some(c) => d.(oauth := WithPair(WithoutCode(d.oauth, code), Pair(access, refresh, c.session, c.client), now))
       case None => d)
    case RefreshGrant(token, client, access, refresh) =>
      (match LiveRefresh(d.oauth, ttl, token, client, now)
       case Some(r) => d.(oauth := WithPair(MarkedUsed(d.oauth, token), Pair(access, refresh, r.session, client), now))
       case None => d)
    case Revoke(ids) => d.(oauth := WithoutSessions(d.oauth, ids))
    case Register(client) => d.(clients := d.clients[client := now])
    case WriteToken(id, stamp, anew, live) => if live then d.(oauth := WithToken(d.oauth, id, stamp, anew)) else d
    case _ => d
  }

  // Values drawn for an insert are new; a callback writes its code within the hour, while its
  // session lasts; and a call that goes by a session's id, a token of any age or a client asks of
  // what is still kept, or of nothing.
  predicate Proper(d: Disk, ttl: Lifetimes, op: Op, now: int) {
    match op
    case CreateFlow(id, _) => id !in d.flows
    case CreateLogin(id, _) => id !in d.logins
    case OpenSession(id, _) =>
      && id !in d.oauth.sessions
      && (forall c :: c in d.oauth.codes ==> d.oauth.codes[c].session != id)
    case IssueCode(id, code, _) =>
      && code !in d.oauth.codes
      && (id in d.oauth.sessions ==> Prompt(d.oauth.sessions[id], ttl, now))
    case ExchangeCode(_, access, refresh) => access !in d.oauth.access && refresh !in d.oauth.refresh
    case RefreshGrant(_, _, access, refresh) => access !in d.oauth.access && refresh !in d.oauth.refresh
    case ReadToken(id, _) => id in d.oauth.sessions ==> Standing(d.oauth, id, ttl, now)
    case ReadCredential(id) => id in d.oauth.sessions ==> Standing(d.oauth, id, ttl, now)
    case WriteToken(id, _, _, _) => id in d.oauth.sessions ==> Standing(d.oauth, id, ttl, now)
    case Register(client) => client !in d.clients
    case FindClient(client) => client in d.clients ==> d.clients[client] >= now - DAY
    case _ => OfAnyAge(op) && OwnerOf(d.oauth, op).Some? ==> OwnerKept(d.oauth, ttl, op, now)
  }

  // Rows no delete by age has taken by now.
  predicate HasKept(db: Tables, id: Secret, ttl: Lifetimes, now: int) {
    || (exists t :: t in db.access && db.access[t].session == id && db.access[t].expiresAt >= now - DAY)
    || (exists t :: t in db.refresh && db.refresh[t].session == id && db.refresh[t].createdAt >= now - ttl.refresh - DAY)
    || (exists c :: c in db.codes && db.codes[c].session == id && db.codes[c].createdAt >= now - HOUR)
  }

  // Within its lifetime, and young or with a row that is kept.
  predicate Standing(db: Tables, id: Secret, ttl: Lifetimes, now: int)
    requires id in db.sessions
  {
    db.sessions[id].createdAt >= now - ttl.session && (db.sessions[id].createdAt >= now - HOUR || HasKept(db, id, ttl, now))
  }

  predicate Prompt(s: Session, ttl: Lifetimes, now: int) {
    s.createdAt >= now - HOUR && s.createdAt >= now - ttl.session
  }

  // ---------- two disks that answer alike from s on ----------

  ghost predicate ForeignKeys(db: Tables) {
    && (forall c :: c in db.codes ==> db.codes[c].session in db.sessions)
    && (forall t :: t in db.access ==> db.access[t].session in db.sessions)
    && (forall t :: t in db.refresh ==> db.refresh[t].session in db.sessions)
  }

  ghost predicate Part<K, V>(a: map<K, V>, b: map<K, V>) {
    forall k :: k in b ==> k in a && b[k] == a[k]
  }

  predicate Within(db: Tables, id: Secret, ttl: Lifetimes, s: int)
    requires id in db.sessions
  {
    db.sessions[id].createdAt >= s - ttl.session
  }

  predicate KeptCode(db: Tables, c: Secret, ttl: Lifetimes, s: int)
    requires c in db.codes && db.codes[c].session in db.sessions
  {
    db.codes[c].createdAt >= s - HOUR && Within(db, db.codes[c].session, ttl, s)
  }

  predicate AccessKept(db: Tables, t: Secret, ttl: Lifetimes, s: int)
    requires t in db.access && db.access[t].session in db.sessions
  {
    db.access[t].expiresAt >= s - DAY && Within(db, db.access[t].session, ttl, s)
  }

  predicate TokenKept(db: Tables, t: Secret, ttl: Lifetimes, s: int)
    requires t in db.refresh && db.refresh[t].session in db.sessions
  {
    db.refresh[t].createdAt >= s - ttl.refresh - DAY && Within(db, db.refresh[t].session, ttl, s)
  }

  predicate OwnerKept(db: Tables, ttl: Lifetimes, op: Op, s: int)
    requires OfAnyAge(op)
  {
    if op.FindByAccess? then
      op.token in db.access && db.access[op.token].session in db.sessions && AccessKept(db, op.token, ttl, s)
    else
      op.token in db.refresh && db.refresh[op.token].session in db.sessions && TokenKept(db, op.token, ttl, s)
  }

  // b lacks only rows the deletes by age may have taken by s.
  ghost predicate AlikeRows(a: Tables, b: Tables, ttl: Lifetimes, s: int) {
    && ForeignKeys(a) && ForeignKeys(b)
    && Part(a.sessions, b.sessions) && Part(a.codes, b.codes) && Part(a.access, b.access) && Part(a.refresh, b.refresh)
    && (forall c :: c in a.codes && KeptCode(a, c, ttl, s) ==> c in b.codes)
    && (forall t :: t in a.access && AccessKept(a, t, ttl, s) ==> t in b.access)
    && (forall t :: t in a.refresh && TokenKept(a, t, ttl, s) ==> t in b.refresh)
    && (forall id :: id in a.sessions && Prompt(a.sessions[id], ttl, s) ==> id in b.sessions)
  }

  // Nor any code that can still be exchanged.
  ghost predicate AlikeCodes(a: Tables, b: Tables, s: int) {
    forall c :: c in a.codes && a.codes[c].createdAt > s - CODE_TTL ==> c in b.codes
  }

  ghost predicate Alike(a: Tables, b: Tables, ttl: Lifetimes, s: int) { AlikeRows(a, b, ttl, s) && AlikeCodes(a, b, s) }

  ghost predicate AlikeFlows(a: Flows, b: Flows, s: int) {
    Part(a, b) && forall f :: f in a && a[f].createdAt > s - FLOW_TTL ==> f in b
  }

  ghost predicate AlikeLogins(a: map<Secret, SettingsFlow>, b: map<Secret, SettingsFlow>, s: int) {
    Part(a, b) && forall f :: f in a && a[f].createdAt > s - FLOW_TTL ==> f in b
  }

  ghost predicate AlikeClients(a: map<Text, int>, b: map<Text, int>, s: int) {
    Part(a, b) && forall c :: c in a && a[c] >= s - DAY ==> c in b
  }

  ghost predicate AlikeRest(a: Disk, b: Disk, s: int) {
    && AlikeFlows(a.flows, b.flows, s) && AlikeLogins(a.logins, b.logins, s) && a.creds == b.creds
    && AlikeClients(a.clients, b.clients, s)
  }

  ghost predicate AlikeDisks(a: Disk, b: Disk, ttl: Lifetimes, s: int) {
    Alike(a.oauth, b.oauth, ttl, s) && AlikeRest(a, b, s)
  }

  // A session that stands is on both.
  lemma StandingIsOnBoth(a: Tables, b: Tables, ttl: Lifetimes, s: int, id: Secret, now: int)
    requires AlikeRows(a, b, ttl, s) && s <= now && id in a.sessions && Standing(a, id, ttl, now)
    ensures id in b.sessions
  {
    if a.sessions[id].createdAt >= now - HOUR {
      assert Prompt(a.sessions[id], ttl, s);
    } else if t :| t in a.access && a.access[t].session == id && a.access[t].expiresAt >= now - DAY {
      assert AccessKept(a, t, ttl, s);
    } else if t :| t in a.refresh && a.refresh[t].session == id && a.refresh[t].createdAt >= now - ttl.refresh - DAY {
      assert TokenKept(a, t, ttl, s);
    } else {
      var c :| c in a.codes && a.codes[c].session == id && a.codes[c].createdAt >= now - HOUR;
      assert KeptCode(a, c, ttl, s);
    }
  }

  // What a proper call by an id goes by is on both, if it is on the first.
  lemma IdIsOnBoth(a: Disk, b: Disk, ttl: Lifetimes, s: int, op: Op, now: int)
    requires AlikeRows(a.oauth, b.oauth, ttl, s) && s <= now && ById(op) && Proper(a, ttl, op, now)
    ensures op.id in a.oauth.sessions ==> op.id in b.oauth.sessions
  {
    if op.id in a.oauth.sessions {
      if op.IssueCode? {
        assert Prompt(a.oauth.sessions[op.id], ttl, s);
      } else {
        StandingIsOnBoth(a.oauth, b.oauth, ttl, s, op.id, now);
      }
    }
  }

  lemma OwnerIsOnBoth(a: Tables, b: Tables, ttl: Lifetimes, s: int, op: Op)
    requires AlikeRows(a, b, ttl, s) && OfAnyAge(op) && (OwnerOf(a, op).Some? ==> OwnerKept(a, ttl, op, s))
    ensures OwnerOf(b, op) == OwnerOf(a, op)
  {
  }

  predicate ByCode(op: Op) { op.SpendCode? || op.ExchangeCode? }

  // These may go by a row that the deletes by age take.
  predicate ByOldRows(op: Op) { ByCode(op) || ById(op) || OfAnyAge(op) || op.FindClient? }

  predicate FlowOp(op: Op) { op.CreateFlow? || op.ApproveFlow? || op.TakeFlow? || op.TakeApprovedFlow? }

  predicate LoginOp(op: Op) { op.CreateLogin? || op.TakeLogin? }

  lemma FlowsAnswerAlike(a: Disk, b: Disk, ttl: Lifetimes, s: int, op: Op, now: int)
    requires AlikeRest(a, b, s) && s <= now && (FlowOp(op) || LoginOp(op))
    ensures Ask(a, ttl, op, now) == Ask(b, ttl, op, now)
  {
  }

  // What goes by no such row is answered alike, whatever codes are lost.
  lemma AlikeButForCodes(a: Disk, b: Disk, ttl: Lifetimes, s: int, op: Op, now: int)
    requires AlikeRows(a.oauth, b.oauth, ttl, s) && AlikeRest(a, b, s) && s <= now && !ByOldRows(op)
    ensures Ask(a, ttl, op, now) == Ask(b, ttl, op, now)
  {
    if FlowOp(op) || LoginOp(op) {
      FlowsAnswerAlike(a, b, ttl, s, op, now);
    } else if op.RefreshGrant? {
      LiveRefreshIsOnBoth(a.oauth, b.oauth, ttl, s, op.token, op.client, now);
    } else if op.Enter? && LookupAccess(a.oauth, ttl, op.token, now).Some? {
      assert AccessKept(a.oauth, op.token, ttl, s);
    }
  }

  lemma ByIdAlike(a: Disk, b: Disk, ttl: Lifetimes, op: Op, now: int)
    requires Part(a.oauth.sessions, b.oauth.sessions) && a.creds == b.creds && ById(op)
    requires op.id in a.oauth.sessions ==> op.id in b.oauth.sessions
    ensures Ask(a, ttl, op, now) == Ask(b, ttl, op, now)
  {
  }

  lemma LiveCodeOrClientAlike(a: Disk, b: Disk, ttl: Lifetimes, s: int, op: Op, now: int)
    requires AlikeDisks(a, b, ttl, s) && s <= now && (ByCode(op) || op.FindClient?)
    requires op.FindClient? && op.client in a.clients ==> a.clients[op.client] >= now - DAY
    ensures Ask(a, ttl, op, now) == Ask(b, ttl, op, now)
  {
  }

  lemma AlikeAnswer(a: Disk, b: Disk, ttl: Lifetimes, s: int, op: Op, now: int)
    requires AlikeDisks(a, b, ttl, s) && s <= now && Proper(a, ttl, op, now)
    ensures Ask(a, ttl, op, now) == Ask(b, ttl, op, now)
  {
    if ById(op) {
      IdIsOnBoth(a, b, ttl, s, op, now);
      ByIdAlike(a, b, ttl, op, now);
    } else if OfAnyAge(op) {
      OwnerIsOnBoth(a.oauth, b.oauth, ttl, s, op);
    } else if ByOldRows(op) {
      LiveCodeOrClientAlike(a, b, ttl, s, op, now);
    } else {
      AlikeButForCodes(a, b, ttl, s, op, now);
    }
  }

  // Nothing the relation turns on has changed of the rows that stay.
  ghost predicate SameKeeping(a: Tables, a': Tables, ttl: Lifetimes, s: int) {
    && ForeignKeys(a) && ForeignKeys(a')
    && (forall c :: c in a'.codes && c in a.codes ==> KeptCode(a', c, ttl, s) == KeptCode(a, c, ttl, s))
    && (forall t :: t in a'.access && t in a.access ==> AccessKept(a', t, ttl, s) == AccessKept(a, t, ttl, s))
    && (forall t :: t in a'.refresh && t in a.refresh ==> TokenKept(a', t, ttl, s) == TokenKept(a, t, ttl, s))
  }

  lemma WithAccessStaysAlike(a: Tables, b: Tables, ttl: Lifetimes, s: int, token: Secret, rec: Access)
    requires Alike(a, b, ttl, s) && rec.session in b.sessions && token !in a.access
    ensures Alike(a.(access := a.access[token := rec]), b.(access := b.access[token := rec]), ttl, s)
  {
    assert SameKeeping(a, a.(access := a.access[token := rec]), ttl, s);
  }

  lemma WithRefreshKeepsKeeping(a: Tables, ttl: Lifetimes, s: int, token: Secret, rec: Refresh)
    requires ForeignKeys(a) && rec.session in a.sessions && token !in a.refresh
    ensures SameKeeping(a, a.(refresh := a.refresh[token := rec]), ttl, s)
  {
  }

  lemma WithRefreshStaysAlike(a: Tables, b: Tables, ttl: Lifetimes, s: int, token: Secret, rec: Refresh)
    requires Alike(a, b, ttl, s) && rec.session in b.sessions && token !in a.refresh
    ensures Alike(a.(refresh := a.refresh[token := rec]), b.(refresh := b.refresh[token := rec]), ttl, s)
  {
    WithRefreshKeepsKeeping(a, ttl, s, token, rec);
  }

  lemma WithPairStaysAlike(a: Tables, b: Tables, ttl: Lifetimes, s: int, p: Pair, now: int)
    requires Alike(a, b, ttl, s) && p.session in b.sessions
    requires p.access !in a.access && p.refresh !in a.refresh
    ensures Alike(WithPair(a, p, now), WithPair(b, p, now), ttl, s)
  {
    var access := Access(p.session, p.client, now + ACCESS_TTL);
    WithAccessStaysAlike(a, b, ttl, s, p.access, access);
    var a', b' := a.(access := a.access[p.access := access]), b.(access := b.access[p.access := access]);
    WithRefreshStaysAlike(a', b', ttl, s, p.refresh, Refresh(p.session, p.client, false, now));
  }

  lemma WithoutCodeStaysAlike(a: Tables, b: Tables, ttl: Lifetimes, s: int, code: Secret)
    requires Alike(a, b, ttl, s)
    ensures Alike(WithoutCode(a, code), WithoutCode(b, code), ttl, s)
  {
    assert SameKeeping(a, WithoutCode(a, code), ttl, s);
  }

  lemma MarkedUsedStaysAlike(a: Tables, b: Tables, ttl: Lifetimes, s: int, token: Secret)
    requires Alike(a, b, ttl, s) && token in b.refresh
    ensures Alike(MarkedUsed(a, token), MarkedUsed(b, token), ttl, s)
  {
    assert SameKeeping(a, MarkedUsed(a, token), ttl, s);
  }

  lemma WithoutSessionsKeepsKeeping(a: Tables, ttl: Lifetimes, s: int, ids: set<Secret>)
    requires ForeignKeys(a)
    ensures SameKeeping(a, WithoutSessions(a, ids), ttl, s)
  {
  }

  lemma WithoutSessionsStaysAlike(a: Tables, b: Tables, ttl: Lifetimes, s: int, ids: set<Secret>)
    requires Alike(a, b, ttl, s)
    ensures Alike(WithoutSessions(a, ids), WithoutSessions(b, ids), ttl, s)
  {
    WithoutSessionsKeepsKeeping(a, ttl, s, ids);
    WithoutSessionsKeepsKeeping(b, ttl, s, ids);
    var a', b' := WithoutSessions(a, ids), WithoutSessions(b, ids);
    assert Part(a'.sessions, b'.sessions) && Part(a'.codes, b'.codes);
    assert Part(a'.access, b'.access) && Part(a'.refresh, b'.refresh);
  }

  lemma OpenSessionStaysAlike(a: Tables, b: Tables, ttl: Lifetimes, s: int, id: Secret, session: Session)
    requires Alike(a, b, ttl, s) && id !in a.sessions
    ensures Alike(a.(sessions := a.sessions[id := session]), b.(sessions := b.sessions[id := session]), ttl, s)
  {
    assert SameKeeping(a, a.(sessions := a.sessions[id := session]), ttl, s);
  }

  lemma IssueCodeStaysAlike(a: Tables, b: Tables, ttl: Lifetimes, s: int, code: Secret, rec: AuthCode)
    requires Alike(a, b, ttl, s) && rec.session in b.sessions && code !in a.codes
    ensures Alike(a.(codes := a.codes[code := rec]), b.(codes := b.codes[code := rec]), ttl, s)
  {
    assert SameKeeping(a, a.(codes := a.codes[code := rec]), ttl, s);
  }

  // The same rows, of sessions as old as they were.
  ghost predicate SameAges(a: Tables, a': Tables) {
    && a' == a.(sessions := a'.sessions) && a'.sessions.Keys == a.sessions.Keys
    && forall id :: id in a.sessions ==> a'.sessions[id].createdAt == a.sessions[id].createdAt
  }

  lemma SameAgesSameKeeping(a: Tables, a': Tables, ttl: Lifetimes, s: int)
    requires ForeignKeys(a) && SameAges(a, a')
    ensures SameKeeping(a, a', ttl, s)
    ensures forall id :: id in a.sessions ==> Prompt(a'.sessions[id], ttl, s) == Prompt(a.sessions[id], ttl, s)
  {
  }

  lemma SameAgesKeep(a: Tables, b: Tables, a': Tables, b': Tables, ttl: Lifetimes, s: int)
    requires Alike(a, b, ttl, s) && SameAges(a, a') && SameAges(b, b') && Part(a'.sessions, b'.sessions)
    ensures Alike(a', b', ttl, s)
  {
    SameAgesSameKeeping(a, a', ttl, s);
    assert a'.codes == a.codes && a'.access == a.access && a'.refresh == a.refresh;
    assert b'.codes == b.codes && b'.access == b.access && b'.refresh == b.refresh;
  }

  lemma WithTokenSameAges(a: Tables, id: Secret, stamp: Stamp, anew: Sealed<UpstreamToken>)
    ensures SameAges(a, WithToken(a, id, stamp, anew))
  {
    assert WithToken(a, id, stamp, anew).sessions.Keys == a.sessions.Keys;
  }

  lemma WithTokenParts(a: Tables, b: Tables, id: Secret, stamp: Stamp, anew: Sealed<UpstreamToken>)
    requires Part(a.sessions, b.sessions) && (id in a.sessions ==> id in b.sessions)
    ensures Part(WithToken(a, id, stamp, anew).sessions, WithToken(b, id, stamp, anew).sessions)
  {
  }

  lemma WithTokenStaysAlike(a: Tables, b: Tables, ttl: Lifetimes, s: int, id: Secret, stamp: Stamp, anew: Sealed<UpstreamToken>)
    requires Alike(a, b, ttl, s) && (id in a.sessions ==> id in b.sessions)
    ensures Alike(WithToken(a, id, stamp, anew), WithToken(b, id, stamp, anew), ttl, s)
  {
    var a', b' := WithToken(a, id, stamp, anew), WithToken(b, id, stamp, anew);
    WithTokenSameAges(a, id, stamp, anew);
    WithTokenSameAges(b, id, stamp, anew);
    WithTokenParts(a, b, id, stamp, anew);
    SameAgesKeep(a, b, a', b', ttl, s);
  }

  // A refresh that succeeds on either disk finds its row, and its session, on both.
  lemma LiveRefreshIsOnBoth(a: Tables, b: Tables, ttl: Lifetimes, s: int, token: Secret, client: Text, now: int)
    requires AlikeRows(a, b, ttl, s) && s <= now
    ensures LiveRefresh(a, ttl, token, client, now) == LiveRefresh(b, ttl, token, client, now)
    ensures LiveRefresh(a, ttl, token, client, now).Some? ==> token in b.refresh && b.refresh[token].session in b.sessions
  {
    if LiveRefresh(a, ttl, token, client, now).Some? { assert TokenKept(a, token, ttl, s); }
  }

  lemma GrantStaysAlike(a: Disk, b: Disk, ttl: Lifetimes, s: int, op: Op, now: int)
    requires AlikeDisks(a, b, ttl, s) && s <= now && Proper(a, ttl, op, now)
    requires op.ExchangeCode? || op.RefreshGrant?
    ensures AlikeDisks(Do(a, ttl, op, now), Do(b, ttl, op, now), ttl, s)
  {
    match op
    case ExchangeCode(code, access, refresh) =>
      if LiveCode(a.oauth, code, now).Some? {
        var c := a.oauth.codes[code];
        WithoutCodeStaysAlike(a.oauth, b.oauth, ttl, s, code);
        WithPairStaysAlike(WithoutCode(a.oauth, code), WithoutCode(b.oauth, code), ttl, s,
                           Pair(access, refresh, c.session, c.client), now);
      }
    case RefreshGrant(token, client, access, refresh) =>
      LiveRefreshIsOnBoth(a.oauth, b.oauth, ttl, s, token, client, now);
      if LiveRefresh(a.oauth, ttl, token, client, now).Some? {
        MarkedUsedStaysAlike(a.oauth, b.oauth, ttl, s, token);
        WithPairStaysAlike(MarkedUsed(a.oauth, token), MarkedUsed(b.oauth, token), ttl, s,
                           Pair(access, refresh, a.oauth.refresh[token].session, client), now);
      }
  }

  lemma FlowsSetAlike(a: Flows, b: Flows, s: int, id: Secret, flow: Flow)
    requires AlikeFlows(a, b, s) && (id in a ==> id in b)
    ensures AlikeFlows(a[id := flow], b[id := flow], s)
  {
  }

  lemma FlowsDropAlike(a: Flows, b: Flows, s: int, id: Secret)
    requires AlikeFlows(a, b, s)
    ensures AlikeFlows(a - {id}, b - {id}, s)
  {
  }

  lemma FlowStaysAlike(a: Disk, b: Disk, ttl: Lifetimes, s: int, op: Op, now: int)
    requires AlikeFlows(a.flows, b.flows, s) && s <= now && Proper(a, ttl, op, now) && FlowOp(op)
    ensures AlikeFlows(Do(a, ttl, op, now).flows, Do(b, ttl, op, now).flows, s)
  {
    match op
    case CreateFlow(id, flow) => FlowsSetAlike(a.flows, b.flows, s, id, flow);
    case ApproveFlow(id, secret) =>
      if FlowToApprove(a.flows, id, secret, now).Some? {
        FlowsSetAlike(a.flows, b.flows, s, id, a.flows[id].(approved := true));
      }
    case TakeFlow(id, _) => FlowsDropAlike(a.flows, b.flows, s, id);
    case TakeApprovedFlow(id) => FlowsDropAlike(a.flows, b.flows, s, id);
  }

  lemma LoginStaysAlike(a: Disk, b: Disk, ttl: Lifetimes, s: int, op: Op, now: int)
    requires AlikeLogins(a.logins, b.logins, s) && s <= now && Proper(a, ttl, op, now) && LoginOp(op)
    ensures AlikeLogins(Do(a, ttl, op, now).logins, Do(b, ttl, op, now).logins, s)
  {
  }

  lemma OtherStaysAlike(a: Disk, b: Disk, ttl: Lifetimes, s: int, op: Op, now: int)
    requires AlikeDisks(a, b, ttl, s) && s <= now && Proper(a, ttl, op, now)
    requires op.OpenSession? || op.SpendCode? || op.Revoke?
    ensures AlikeDisks(Do(a, ttl, op, now), Do(b, ttl, op, now), ttl, s)
  {
    match op
    case OpenSession(id, session) => OpenSessionStaysAlike(a.oauth, b.oauth, ttl, s, id, session);
    case SpendCode(code) =>
      if LiveCode(a.oauth, code, now).Some? { WithoutCodeStaysAlike(a.oauth, b.oauth, ttl, s, code); }
    case Revoke(ids) => WithoutSessionsStaysAlike(a.oauth, b.oauth, ttl, s, ids);
  }

  predicate Looks(op: Op) { op.Enter? || op.FindClient? || OfAnyAge(op) }

  lemma LooksDoNothing(d: Disk, ttl: Lifetimes, op: Op, now: int)
    requires Looks(op)
    ensures Do(d, ttl, op, now) == d
  {
  }

  lemma RegisterStaysAlike(a: Disk, b: Disk, ttl: Lifetimes, s: int, op: Op, now: int)
    requires AlikeRest(a, b, s) && op.Register?
    ensures AlikeRest(Do(a, ttl, op, now), Do(b, ttl, op, now), s)
  {
  }

  // Calls that leave the OAuth tables as they are.
  predicate BesideOAuth(op: Op) { FlowOp(op) || LoginOp(op) || op.Register? || Looks(op) }

  lemma BesideOAuthLeavesIt(d: Disk, ttl: Lifetimes, op: Op, now: int)
    requires BesideOAuth(op)
    ensures var e := Do(d, ttl, op, now);
            e.oauth == d.oauth && (FlowOp(op) ==> e == d.(flows := e.flows)) && (LoginOp(op) ==> e == d.(logins := e.logins))
  {
  }

  lemma BesideOAuthStaysAlike(a: Disk, b: Disk, ttl: Lifetimes, s: int, op: Op, now: int)
    requires AlikeRest(a, b, s) && s <= now && Proper(a, ttl, op, now) && BesideOAuth(op)
    ensures AlikeRest(Do(a, ttl, op, now), Do(b, ttl, op, now), s)
  {
    BesideOAuthLeavesIt(a, ttl, op, now);
    BesideOAuthLeavesIt(b, ttl, op, now);
    if FlowOp(op) {
      FlowStaysAlike(a, b, ttl, s, op, now);
    } else if LoginOp(op) {
      LoginStaysAlike(a, b, ttl, s, op, now);
    } else if op.Register? {
      RegisterStaysAlike(a, b, ttl, s, op, now);
    } else {
      LooksDoNothing(a, ttl, op, now);
      LooksDoNothing(b, ttl, op, now);
    }
  }

  lemma IssuedStaysAlike(a: Disk, b: Disk, ttl: Lifetimes, s: int, op: Op, now: int)
    requires AlikeDisks(a, b, ttl, s) && op.IssueCode? && (op.id in a.oauth.sessions ==> op.id in b.oauth.sessions)
    requires op.code !in a.oauth.codes
    ensures AlikeDisks(Do(a, ttl, op, now), Do(b, ttl, op, now), ttl, s)
  {
    if op.id in a.oauth.sessions { IssueCodeStaysAlike(a.oauth, b.oauth, ttl, s, op.code, op.rec.(session := op.id)); }
  }

  lemma ByIdStaysAlike(a: Disk, b: Disk, ttl: Lifetimes, s: int, op: Op, now: int)
    requires AlikeDisks(a, b, ttl, s) && ById(op) && (op.id in a.oauth.sessions ==> op.id in b.oauth.sessions)
    requires op.IssueCode? ==> op.code !in a.oauth.codes
    ensures AlikeDisks(Do(a, ttl, op, now), Do(b, ttl, op, now), ttl, s)
  {
    if op.IssueCode? { IssuedStaysAlike(a, b, ttl, s, op, now); }
    else if op.WriteToken? { WithTokenStaysAlike(a.oauth, b.oauth, ttl, s, op.id, op.stamp, op.anew); }
  }

  // ---------- whole continuations ----------

  type Timed = (Op, int)

  predicate AllFrom(ops: seq<Timed>, s: int) { forall i :: 0 <= i < |ops| ==> s <= ops[i].1 }

  predicate AllProper(d: Disk, ttl: Lifetimes, ops: seq<Timed>)
    decreases |ops|
  {
    ops != [] ==> Proper(d, ttl, ops[0].0, ops[0].1) && AllProper(Do(d, ttl, ops[0].0, ops[0].1), ttl, ops[1..])
  }

  function Answers(d: Disk, ttl: Lifetimes, ops: seq<Timed>): seq<Answer>
    decreases |ops|
  {
    if ops == [] then []
    else [Ask(d, ttl, ops[0].0, ops[0].1)] + Answers(Do(d, ttl, ops[0].0, ops[0].1), ttl, ops[1..])
  }

  lemma {:induction false} AlikeAnswersAlike(a: Disk, b: Disk, ttl: Lifetimes, s: int, ops: seq<Timed>)
    requires AlikeDisks(a, b, ttl, s) && AllFrom(ops, s) && AllProper(a, ttl, ops)
    ensures Answers(a, ttl, ops) == Answers(b, ttl, ops)
    decreases |ops|
  {
    if ops != [] {
      var (op, now) := ops[0];
      assert s <= ops[0].1;
      StepStaysAlike(a, b, ttl, s, op, now);
      AlikeAnswersAlike(Do(a, ttl, op, now), Do(b, ttl, op, now), ttl, s, ops[1..]);
    }
  }

  lemma StepStaysAlike(a: Disk, b: Disk, ttl: Lifetimes, s: int, op: Op, now: int)
    requires AlikeDisks(a, b, ttl, s) && s <= now && Proper(a, ttl, op, now)
    ensures Ask(a, ttl, op, now) == Ask(b, ttl, op, now)
    ensures AlikeDisks(Do(a, ttl, op, now), Do(b, ttl, op, now), ttl, s)
  {
    AlikeAnswer(a, b, ttl, s, op, now);
    DoStaysAlike(a, b, ttl, s, op, now);
  }

  lemma DoStaysAlike(a: Disk, b: Disk, ttl: Lifetimes, s: int, op: Op, now: int)
    requires AlikeDisks(a, b, ttl, s) && s <= now && Proper(a, ttl, op, now)
    ensures AlikeDisks(Do(a, ttl, op, now), Do(b, ttl, op, now), ttl, s)
  {
    if BesideOAuth(op) {
      BesideOAuthLeavesIt(a, ttl, op, now);
      BesideOAuthLeavesIt(b, ttl, op, now);
      BesideOAuthStaysAlike(a, b, ttl, s, op, now);
    } else if op.ExchangeCode? || op.RefreshGrant? {
      GrantStaysAlike(a, b, ttl, s, op, now);
    } else if ById(op) {
      IdIsOnBoth(a, b, ttl, s, op, now);
      ByIdStaysAlike(a, b, ttl, s, op, now);
    } else {
      OtherStaysAlike(a, b, ttl, s, op, now);
    }
  }

  // ---------- the sweep makes such a disk ----------

  // No code that can still be exchanged belongs to a session past its lifetime.
  predicate NoLateCode(db: Tables, ttl: Lifetimes, s: int) {
    forall c :: c in db.codes ==> !LateCode(db, ttl, s, c)
  }

  lemma AgedIsAlike(db: Tables, ttl: Lifetimes, s: int)
    requires ForeignKeys(db)
    ensures Alike(db, Aged(db, ttl, s), ttl, s)
  {
  }

  // Rows of a session past its lifetime answer nothing, except a code.
  lemma LifetimeIsAlike(db: Tables, d: Tables, ttl: Lifetimes, s: int)
    requires AlikeRows(db, d, ttl, s)
    ensures AlikeRows(db, WithinLifetime(d, ttl, s), ttl, s)
    ensures AlikeCodes(db, d, s) && NoLateCode(db, ttl, s) ==> AlikeCodes(db, WithinLifetime(d, ttl, s), s)
  {
    var d', gone := WithinLifetime(d, ttl, s), Expired(d, ttl, s);
    forall c | c in db.codes && KeptCode(db, c, ttl, s) ensures c in d'.codes { assert d.codes[c].session !in gone; }
    forall t | t in db.access && AccessKept(db, t, ttl, s) ensures t in d'.access { assert d.access[t].session !in gone; }
    forall t | t in db.refresh && TokenKept(db, t, ttl, s) ensures t in d'.refresh { assert d.refresh[t].session !in gone; }
    forall id | id in db.sessions && Prompt(db.sessions[id], ttl, s) ensures id in d'.sessions { assert id !in gone; }
    if AlikeCodes(db, d, s) && NoLateCode(db, ttl, s) { LateCodesAside(db, d, ttl, s); }
  }

  lemma LateCodesAside(db: Tables, d: Tables, ttl: Lifetimes, s: int)
    requires AlikeRows(db, d, ttl, s) && AlikeCodes(db, d, s) && NoLateCode(db, ttl, s)
    ensures AlikeCodes(db, WithinLifetime(d, ttl, s), s)
  {
    var d', gone := WithinLifetime(d, ttl, s), Expired(d, ttl, s);
    forall c | c in db.codes && db.codes[c].createdAt > s - CODE_TTL ensures c in d'.codes {
      assert !LateCode(db, ttl, s, c);
      assert d.codes[c].session !in gone;
    }
  }

  // The abandoned have no row left to lose.
  lemma AbandonedIsAlike(db: Tables, d: Tables, ttl: Lifetimes, s: int)
    requires AlikeRows(db, d, ttl, s)
    ensures AlikeRows(db, NotAbandoned(d, s), ttl, s)
    ensures AlikeCodes(db, d, s) ==> AlikeCodes(db, NotAbandoned(d, s), s)
  {
    var d' := NotAbandoned(d, s);
    forall c | c in d.codes ensures c in d'.codes { assert Referenced(d, d.codes[c].session); }
    forall t | t in d.access ensures t in d'.access { assert Referenced(d, d.access[t].session); }
    forall t | t in d.refresh ensures t in d'.refresh { assert Referenced(d, d.refresh[t].session); }
  }

  lemma ExpiryIsAlike(d: Disk, ttl: Lifetimes, s: int)
    requires ForeignKeys(d.oauth)
    ensures var e := WithoutUnusedClients(Expiry(d, ttl, s), s);
            && AlikeRows(d.oauth, e.oauth, ttl, s) && AlikeRest(d, e, s)
            && (NoLateCode(d.oauth, ttl, s) ==> AlikeDisks(d, e, ttl, s))
  {
    AgedIsAlike(d.oauth, ttl, s);
    LifetimeIsAlike(d.oauth, Aged(d.oauth, ttl, s), ttl, s);
    AbandonedIsAlike(d.oauth, WithinLifetime(Aged(d.oauth, ttl, s), ttl, s), ttl, s);
  }

  /** After the age-based statements at s, every later sequence of proper calls, however long,
      gets the answers it would have had without them. */
  lemma ExpiryIsInvisible(d: Disk, ttl: Lifetimes, s: int, ops: seq<Timed>)
    requires ForeignKeys(d.oauth) && NoLateCode(d.oauth, ttl, s)
    requires AllFrom(ops, s) && AllProper(d, ttl, ops)
    ensures Answers(WithoutUnusedClients(Expiry(d, ttl, s), s), ttl, ops) == Answers(d, ttl, ops)
  {
    ExpiryIsAlike(d, ttl, s);
    AlikeAnswersAlike(d, WithoutUnusedClients(Expiry(d, ttl, s), s), ttl, s, ops);
  }

  predicate LateCode(db: Tables, ttl: Lifetimes, s: int, c: Secret) {
    && c in db.codes && db.codes[c].createdAt > s - CODE_TTL && db.codes[c].session in db.sessions
    && db.sessions[db.codes[c].session].createdAt < s - ttl.session
  }

  // ---------- statement by statement ----------

  // Calls fall where they may between the statements of any number of sweeps.
  datatype Event = Call(op: Op, now: int) | Delete(st: Statement, now: int)

  predicate InTime(events: seq<Event>, s: int)
    decreases |events|
  {
    events != [] ==> s <= events[0].now && InTime(events[1..], events[0].now)
  }

  function Calls(events: seq<Event>): seq<Timed>
    decreases |events|
  {
    if events == [] then []
    else (if events[0].Call? then [(events[0].op, events[0].now)] else []) + Calls(events[1..])
  }

  // What the calls are told, with the deletes run among them.
  function Told(d: Disk, ttl: Lifetimes, events: seq<Event>): seq<Answer>
    decreases |events|
  {
    if events == [] then []
    else
      match events[0]
      case Call(op, now) => [Ask(d, ttl, op, now)] + Told(Do(d, ttl, op, now), ttl, events[1..])
      case Delete(st, now) => Told(Ran(d, ttl, now, st), ttl, events[1..])
  }

  // Had nothing been deleted, every call would be proper, and no late code would be about
  // whenever sessions past their lifetime go.
  predicate Untroubled(d: Disk, ttl: Lifetimes, events: seq<Event>)
    decreases |events|
  {
    events != [] ==>
      match events[0]
      case Call(op, now) => Proper(d, ttl, op, now) && Untroubled(Do(d, ttl, op, now), ttl, events[1..])
      case Delete(st, now) => (st.ExpiredSessions? ==> NoLateCode(d.oauth, ttl, now)) && Untroubled(d, ttl, events[1..])
  }

  lemma LaterAlike(a: Disk, b: Disk, ttl: Lifetimes, s: int, now: int)
    requires AlikeDisks(a, b, ttl, s) && s <= now
    ensures AlikeDisks(a, b, ttl, now)
  {
    assert forall c :: c in a.oauth.codes && KeptCode(a.oauth, c, ttl, now) ==> KeptCode(a.oauth, c, ttl, s);
    assert forall t :: t in a.oauth.access && AccessKept(a.oauth, t, ttl, now) ==> AccessKept(a.oauth, t, ttl, s);
    assert forall t :: t in a.oauth.refresh && TokenKept(a.oauth, t, ttl, now) ==> TokenKept(a.oauth, t, ttl, s);
  }

  lemma AgedCodesAreAlike(a: Tables, b: Tables, ttl: Lifetimes, s: int)
    requires Alike(a, b, ttl, s)
    ensures Alike(a, b.(codes := KeptCodes(b.codes, s)), ttl, s)
  {
  }

  lemma AgedAccessIsAlike(a: Tables, b: Tables, ttl: Lifetimes, s: int)
    requires Alike(a, b, ttl, s)
    ensures Alike(a, b.(access := KeptAccess(b.access, s)), ttl, s)
  {
  }

  lemma AgedRefreshIsAlike(a: Tables, b: Tables, ttl: Lifetimes, s: int)
    requires Alike(a, b, ttl, s)
    ensures Alike(a, b.(refresh := KeptRefresh(b.refresh, ttl, s)), ttl, s)
  {
  }

  // Each statement takes only what could answer nothing from then on.
  lemma StatementStaysAlike(a: Disk, b: Disk, ttl: Lifetimes, now: int, st: Statement)
    requires AlikeDisks(a, b, ttl, now) && (st.ExpiredSessions? ==> NoLateCode(a.oauth, ttl, now))
    ensures AlikeDisks(a, Ran(b, ttl, now, st), ttl, now)
  {
    match st
    case OldCodes => AgedCodesAreAlike(a.oauth, b.oauth, ttl, now);
    case OldAccess => AgedAccessIsAlike(a.oauth, b.oauth, ttl, now);
    case OldRefresh => AgedRefreshIsAlike(a.oauth, b.oauth, ttl, now);
    case ExpiredSessions => LifetimeIsAlike(a.oauth, b.oauth, ttl, now);
    case AbandonedSessions => AbandonedIsAlike(a.oauth, b.oauth, ttl, now);
    case _ =>
  }

  lemma {:induction false} AlikeAreTold(a: Disk, b: Disk, ttl: Lifetimes, s: int, events: seq<Event>)
    requires AlikeDisks(a, b, ttl, s) && InTime(events, s) && Untroubled(a, ttl, events)
    ensures Told(b, ttl, events) == Answers(a, ttl, Calls(events))
    decreases |events|
  {
    if events != [] {
      LaterAlike(a, b, ttl, s, events[0].now);
      match events[0]
      case Call(op, now) =>
        StepStaysAlike(a, b, ttl, now, op, now);
        AlikeAreTold(Do(a, ttl, op, now), Do(b, ttl, op, now), ttl, now, events[1..]);
        assert ([(op, now)] + Calls(events[1..]))[1..] == Calls(events[1..]);
      case Delete(st, now) =>
        StatementStaysAlike(a, b, ttl, now, st);
        AlikeAreTold(a, Ran(b, ttl, now, st), ttl, now, events[1..]);
        assert [] + Calls(events[1..]) == Calls(events[1..]);
    }
  }

  /** However the delete statements of however many sweeps fall among the calls, each in its own
      transaction at its own time, every proper call is told what it would have been told had
      nothing been deleted. */
  lemma StatementsAreInvisible(d: Disk, ttl: Lifetimes, s: int, events: seq<Event>)
    requires ForeignKeys(d.oauth) && InTime(events, s) && Untroubled(d, ttl, events)
    ensures Told(d, ttl, events) == Answers(d, ttl, Calls(events))
  {
    AlikeAreTold(d, d, ttl, s, events);
  }

  // A disk that lacks rows has the same stale sessions among those it has.
  lemma StaleOfBoth(a: Tables, b: Tables, rows: Targets.Rows, only: Text)
    requires Part(a.sessions, b.sessions) && ForeignKeys(b)
    ensures WithoutSessions(b, StaleSessions(b, rows, only)) == WithoutSessions(b, StaleSessions(a, rows, only))
  {
    var p, q := StaleSessions(b, rows, only), StaleSessions(a, rows, only);
    assert forall id :: id in b.sessions ==> (id in p <==> id in q);
    var x, y := WithoutSessions(b, p), WithoutSessions(b, q);
    assert x.sessions == y.sessions;
    assert x.codes == y.codes;
    assert x.access == y.access;
    assert x.refresh == y.refresh;
  }

  lemma PurgedFlowsAlike(a: Flows, b: Flows, s: int, rows: Targets.Rows, only: Text)
    requires AlikeFlows(a, b, s)
    ensures AlikeFlows(FreshFlows(a, rows, only), FreshFlows(b, rows, only), s)
  {
  }

  lemma PurgedStaysAlike(a: Disk, b: Disk, ttl: Lifetimes, s: int, rows: Targets.Rows, only: Text)
    requires AlikeDisks(a, b, ttl, s)
    ensures AlikeDisks(Purged(a, rows, only), Purged(b, rows, only), ttl, s)
  {
    WithoutSessionsStaysAlike(a.oauth, b.oauth, ttl, s, StaleSessions(a.oauth, rows, only));
    StaleOfBoth(a.oauth, b.oauth, rows, only);
    PurgedFlowsAlike(a.flows, b.flows, s, rows, only);
  }

  /** So what a whole sweep shows is what its last part, the purge of retired admin stamps,
      would show alone. */
  lemma SweepShowsOnlyThePurge(d: Disk, ttl: Lifetimes, rows: Targets.Rows, s: int, ops: seq<Timed>)
    requires ForeignKeys(d.oauth) && NoLateCode(d.oauth, ttl, s)
    requires AllFrom(ops, s) && AllProper(Purged(d, rows, []), ttl, ops)
    ensures Answers(Swept(d, ttl, rows, s), ttl, ops) == Answers(Purged(d, rows, []), ttl, ops)
  {
    ExpiryIsAlike(d, ttl, s);
    PurgedStaysAlike(d, WithoutUnusedClients(Expiry(d, ttl, s), s), ttl, s, rows, []);
    AlikeAnswersAlike(Purged(d, rows, []), Swept(d, ttl, rows, s), ttl, s, ops);
  }
}
