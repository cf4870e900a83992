/** The whole service: any number of replicas over one database, with every handler broken
    into the statements it runs (oauth.go, proxy.go, settings.go over store.go). */
module World {
  import opened Wrappers
  import opened Bytes
  import opened Stamps
  import opened Sealing
  import opened OAuthTables
  import opened Disk
  import opened Registries
  import opened Settings
  import Targets
  import Replicas
  import Grants

  // ---------- what handlers decide ----------

  function ByResourceAt(snap: Snapshot, resource: Text): Option<Target> {
    if resource in snap.byResource then Some(snap.byResource[resource].target) else None
  }

  // The target /authorize names on the consent page.
  function ResolveResource(snap: Snapshot, resource: Text): Option<Target> {
    if snap.entries == [] || (resource == [] && snap.multi) then None
    else if resource == [] then Some(snap.entries[0].target)
    else ByResourceAt(snap, resource)
  }

  // targetForFlow: by resource, never a fallback, and only under the flow's own stamp.
  function TargetForFlow(snap: Snapshot, flow: Flow): Option<Target> {
    var t := if flow.resource != [] then ByResourceAt(snap, flow.resource)
             else if snap.multi || snap.entries == [] then None
             else Some(snap.entries[0].target);
    if t.Some? && StampOf(t.value) == flow.stamp then t else None
  }

  datatype Verdict = Unknown | Lagging | WrongDefinition | WrongAudience | Enter(id: Secret)

  // handleMCP's checks, in its order. `current` is the stamp the lookup read beside the
  // session.
  function JudgeCall(e: Entry, multi: bool, found: Option<(Secret, Session)>, current: Option<Stamp>): Verdict {
    match found
    case None => Unknown
    case Some((id, s)) =>
      if s.target == e.target.name && Behind(Some(e), current) then Lagging
      else if s.stamp != e.stamp then WrongDefinition
      else if s.resource != e.target.resource && (s.resource != [] || multi) then WrongAudience
      else Enter(id)
  }

  datatype RefreshVerdict = TryLater | TargetGone | Issue

  // tokenFromRefresh's checks between taking the token and issuing the pair.
  function JudgeRefresh(e: Option<Entry>, stamp: Stamp, current: Option<Stamp>): RefreshVerdict {
    if Behind(e, current) then TryLater
    else if e.None? || stamp != e.value.stamp then TargetGone
    else Issue
  }

  // ---------- the state ----------

  datatype Asked = Asked(target: Target, resource: Text, client: Text, redirect: Text, challenge: Text, secret: Secret)

  function FlowOf(a: Asked, at: int): Flow {
    Flow(a.client, a.redirect, a.challenge, a.resource, a.target.name, StampOf(a.target), a.secret, false, at)
  }

  // A callback that has taken its flow, then resolved the target, then been given a token.
  datatype Callback =
    | Redeemed(flow: Flow)
    | Resolved(flow: Flow, target: Target)
    | Answered(flow: Flow, target: Target, token: UpstreamToken)

  // What a provider token was obtained for: a flow's callback, or a refresh of a session.
  datatype Obtained = ForFlow(flow: Secret) | ForSession(id: Secret)

  // A refreshed token, and the session row it was refreshed from.
  datatype Renewal = Renewal(id: Secret, session: Session, token: UpstreamToken)

  function SessionOf(flow: Flow, t: Target, subject: Text, token: UpstreamToken, at: int): Session {
    Session(subject, flow.resource, t.name, StampOf(t), Sealed(UpstreamTokenFor(StampOf(t)), token), at)
  }

  function OwedOf(flow: Flow): Grants.Owed { Grants.Owed(flow.client, flow.redirect, flow.challenge) }

  // What an open fenced transaction will write. Its fence is held in the targets state.
  datatype Write =
    | InsertSession(flow: Secret, id: Secret, session: Session, owed: Grants.Owed, groups: seq<Text>)
    | RewriteToken(id: Secret, session: Session, anew: Sealed<UpstreamToken>)
    | PutCredential(key: CredKey, box: Sealed<Targets.Headers>)

  // What someone posted, and the stamp the form they posted it in was rendered under.
  datatype Typed = Typed(subject: Text, target: Text, stamp: Stamp, values: Values)

  datatype Save = Save(key: CredKey, box: Sealed<Targets.Headers>)

  datatype Payload =
    | ProviderToken(token: UpstreamToken)
    | StaticValues(headers: Targets.Headers)
    | OwnCredential(subject: Text, headers: Targets.Headers)

  // A request holds the entry it loaded to the end, and once it has read what it is to send,
  // that.
  datatype Call =
    | Holding(entry: Entry, multi: bool)
    | Entered(entry: Entry, id: Secret, client: Text)
    | Ready(entry: Entry, id: Secret, client: Text, payload: Payload)

  datatype Sent = Sent(url: Text, id: Secret, client: Text, payload: Payload)

  datatype Origin = Origin(flow: Secret, subject: Text)

  // What has happened: flows asked for, the secret each was approved with, the flow behind
  // each session, what each provider token was obtained for, what was typed, and what was
  // forwarded.
  datatype History = History(
    asked: map<Secret, Asked>,
    approvals: map<Secret, Secret>,
    origins: map<Secret, Origin>,
    provided: set<(Obtained, UpstreamToken)>,
    typed: set<Typed>,
    sent: set<Sent>)

  // A refresh between the statement that took its token, which read the stamp its target had
  // then, and the commit. `at`, history, is the version of that statement's snapshot.
  datatype Taken = Taken(
    token: Secret,
    target: Text,
    stamp: Stamp,
    current: Option<Stamp>,
    at: nat,
    verdict: Option<RefreshVerdict>)

  type Tx = Targets.Tx
  type Pid = nat

  datatype State = State(
    served: Replicas.State,
    grants: Grants.State,
    flows: Flows,
    creds: Creds,
    pending: set<Secret>,
    callbacks: map<Secret, Callback>,
    writes: map<Tx, Write>,
    saves: map<Pid, Save>,
    renewals: map<Pid, Renewal>,
    taken: map<Grants.Tx, Taken>,
    calls: map<Pid, Call>,
    history: History)

  const INITIAL: State :=
    State(Replicas.INITIAL, Grants.INITIAL, map[], map[], {}, map[], map[], map[], map[], map[], map[],
          History(map[], map[], map[], {}, {}, {}))

  function Rows(w: State): Targets.Rows { w.served.targets.rows }

  // ---------- the steps ----------

  datatype Step =
    | Serve(serve: Replicas.Step)
    | Grant(grant: Grants.Step)
    | Judging(judge: JudgeStep)
    | Flowing(flow: FlowStep)
    | Writing(write: WriteStep)
    | Calling(call: CallStep)
    | Purging(purge: PurgeStep)

  // tokenFromRefresh takes its token, and judges what it took against a snapshot it loads then.
  // The take locks the token's row as it is, but it may have waited for that lock, and the
  // targets it joins are as they were when it began: at the version `at`.
  datatype JudgeStep =
    | TakeToken(tx: Grants.Tx, token: Secret, client: Text, at: nat)
    | Judge(tx: Grants.Tx, rid: Replicas.Rid)

  datatype FlowStep =
    | Authorize(id: Secret, rid: Replicas.Rid, asked: Asked)
    | StoreFlow(id: Secret)
    | Approve(id: Secret, secret: Secret)
    | Decline(id: Secret, secret: Secret)
    | Redeem(id: Secret)
    | Resolve(id: Secret, rid: Replicas.Rid)
    | Obtain(id: Secret, token: UpstreamToken)
    | Abandon(id: Secret)

  datatype WriteStep =
    | OpenPlain(flow: Secret, id: Secret, subject: Text, groups: seq<Text>)
    | LockInsert(tx: Tx, flow: Secret, id: Secret, subject: Text, groups: seq<Text>)
    | Renew(pid: Pid, id: Secret, token: UpstreamToken)
    | RewritePlain(pid: Pid)
    | LockRewrite(tx: Tx, pid: Pid)
    | PostForm(pid: Pid, rid: Replicas.Rid, typed: Typed)
    | PutPlain(pid: Pid)
    | LockPut(tx: Tx, pid: Pid)
    | CommitWrite(tx: Tx)
    | AbortWrite(tx: Tx)

  // A request that has refreshed its token sends what it got, and does not read the row again.
  // That it has written it there first is not asked here, so these runs are more than there are.
  datatype CallStep =
    | LoadEntry(pid: Pid, rid: Replicas.Rid, name: Text)
    | LookUp(pid: Pid, token: Secret)
    | Read(pid: Pid)
    | TakeRenewed(pid: Pid, from: Pid)
    | Forward(pid: Pid)
    | DropCall(pid: Pid)

  // The three deletes of purgeStaleAdminRows, each its own statement, and the deletes of the
  // sweeps and of a cleared credential.
  datatype PurgeStep =
    | PurgeFlows(only: Text)
    | PurgeSessions(only: Text)
    | PurgeCredentials(only: Text)
    | DeleteFlows(ids: set<Secret>)
    | DeleteCredentials(keys: set<CredKey>)

  // ---------- flows ----------

  predicate SnapAt(w: State, rid: Replicas.Rid) { rid in w.served.replicas && w.served.replicas[rid].snap.Some? }

  function Snap(w: State, rid: Replicas.Rid): Snapshot
    requires SnapAt(w, rid)
  {
    w.served.replicas[rid].snap.value
  }

  predicate CanFlow(w: State, step: FlowStep) {
    match step
    case Authorize(id, rid, a) =>
      id !in w.history.asked && SnapAt(w, rid) && ResolveResource(Snap(w, rid), a.resource) == Some(a.target)
    case StoreFlow(id) => id in w.pending && id in w.history.asked
    case Approve(id, secret) => FlowToApprove(w.flows, id, secret, w.grants.clock).Some?
    case Decline(id, secret) => FlowToDecline(w.flows, id, secret, w.grants.clock).Some?
    case Redeem(id) => FlowToRedeem(w.flows, id, w.grants.clock).Some?
    case Resolve(id, rid) => id in w.callbacks && w.callbacks[id].Redeemed? && SnapAt(w, rid)
    case Obtain(id, token) => id in w.callbacks && w.callbacks[id].Resolved?
    case Abandon(id) => id in w.callbacks
  }

  function Flowed(w: State, step: FlowStep): State
    requires CanFlow(w, step)
  {
    match step
    case Authorize(id, rid, a) =>
      w.(pending := w.pending + {id}, history := w.history.(asked := w.history.asked[id := a]))
    case StoreFlow(id) =>
      w.(pending := w.pending - {id}, flows := w.flows[id := FlowOf(w.history.asked[id], w.grants.clock)])
    case Approve(id, secret) =>
      w.(flows := w.flows[id := w.flows[id].(approved := true)],
         history := w.history.(approvals := w.history.approvals[id := secret]))
    case Decline(id, secret) => w.(flows := w.flows - {id})
    case Redeem(id) => w.(flows := w.flows - {id}, callbacks := w.callbacks[id := Redeemed(w.flows[id])])
    case Resolve(id, rid) =>
      var flow := w.callbacks[id].flow;
      (match TargetForFlow(Snap(w, rid), flow)
       case Some(t) => w.(callbacks := w.callbacks[id := Resolved(flow, t)])
       case None => w.(callbacks := w.callbacks - {id}))
    case Obtain(id, token) =>
      w.(callbacks := w.callbacks[id := Answered(w.callbacks[id].flow, w.callbacks[id].target, token)],
         history := w.history.(provided := w.history.provided + {(ForFlow(id), token)}))
    case Abandon(id) => w.(callbacks := w.callbacks - {id})
  }

  // ---------- writes ----------

  predicate ReadyToOpen(w: State, flow: Secret, admin: bool) {
    flow in w.callbacks && w.callbacks[flow].Answered? && w.callbacks[flow].target.FromAdmin() == admin
  }

  function Insert(w: State, flow: Secret, id: Secret, subject: Text, groups: seq<Text>): Write
    requires flow in w.callbacks && w.callbacks[flow].Answered?
  {
    var c := w.callbacks[flow];
    InsertSession(flow, id, SessionOf(c.flow, c.target, subject, c.token, w.grants.clock), OwedOf(c.flow), groups)
  }

  function Opening(write: Write): Grants.Step
    requires write.InsertSession?
  {
    Grants.OpenSession(write.id, write.session, write.owed)
  }

  function Rewriting(write: Write): Grants.Step
    requires write.RewriteToken?
  {
    Grants.RewriteToken(write.id, write.session.stamp, write.anew)
  }

  // The name and stamp a fenced write locks.
  function Name(write: Write): Text {
    match write
    case InsertSession(_, _, s, _, _) => s.target
    case RewriteToken(_, s, _) => s.target
    case PutCredential(key, _) => key.target
  }

  function StampFor(write: Write): Stamp {
    match write
    case InsertSession(_, _, s, _, _) => s.stamp
    case RewriteToken(_, s, _) => s.stamp
    case PutCredential(key, _) => key.stamp
  }

  function LockOf(tx: Tx, write: Write): Replicas.Step { Replicas.Edit(Targets.LockShare(tx, Name(write), StampFor(write))) }

  function UnlockOf(tx: Tx): Replicas.Step { Replicas.Edit(Targets.ReleaseShare(tx)) }

  ghost predicate CanLock(w: State, tx: Tx, write: Write) {
    StampFor(write).IsAdmin() && Replicas.Enabled(w.served, LockOf(tx, write))
  }

  function Rewrite(r: Renewal): Write { RewriteToken(r.id, r.session, Sealed(UpstreamTokenFor(r.session.stamp), r.token)) }

  function WriteFor(w: State, step: WriteStep): Write
    requires (step.OpenPlain? || step.LockInsert?) ==> step.flow in w.callbacks && w.callbacks[step.flow].Answered?
    requires (step.RewritePlain? || step.LockRewrite?) ==> step.pid in w.renewals
    requires step.LockPut? ==> step.pid in w.saves
    requires step.OpenPlain? || step.LockInsert? || step.RewritePlain? || step.LockRewrite? || step.LockPut?
  {
    match step
    case OpenPlain(flow, id, subject, groups) => Insert(w, flow, id, subject, groups)
    case LockInsert(_, flow, id, subject, groups) => Insert(w, flow, id, subject, groups)
    case RewritePlain(pid) => Rewrite(w.renewals[pid])
    case LockRewrite(_, pid) => Rewrite(w.renewals[pid])
    case LockPut(_, pid) => PutCredential(w.saves[pid].key, w.saves[pid].box)
  }

  // The form names a served per_user target, and was rendered under that target's stamp.
  predicate FormMatches(snap: Snapshot, typed: Typed) {
    && typed.subject != [] && typed.target != []
    && PerUserTarget(snap.entries, typed.target).Some?
    && StampOf(PerUserTarget(snap.entries, typed.target).value) == typed.stamp
  }

  function CredentialFrom(typed: Typed): Result<Targets.Headers, FieldError> {
    Filled(typed.stamp.core.fields, typed.values)
  }

  ghost predicate CanWrite(ttl: Lifetimes, w: State, step: WriteStep) {
    match step
    case OpenPlain(flow, id, subject, groups) =>
      && ReadyToOpen(w, flow, false) && w.callbacks[flow].target.Admits(groups)
      && Grants.Enabled(ttl, w.grants, Opening(WriteFor(w, step)))
    case LockInsert(tx, flow, id, subject, groups) =>
      ReadyToOpen(w, flow, true) && CanLock(w, tx, WriteFor(w, step))
    case Renew(pid, id, token) => pid !in w.renewals && id in w.grants.db.sessions
    case RewritePlain(pid) => pid in w.renewals && !w.renewals[pid].session.stamp.IsAdmin()
    case LockRewrite(tx, pid) => pid in w.renewals && CanLock(w, tx, WriteFor(w, step))
    case PostForm(pid, rid, typed) => pid !in w.saves && SnapAt(w, rid)
    case PutPlain(pid) => pid in w.saves && !w.saves[pid].key.stamp.IsAdmin()
    case LockPut(tx, pid) => pid in w.saves && CanLock(w, tx, WriteFor(w, step))
    case CommitWrite(tx) =>
      && tx in w.writes && Replicas.Enabled(w.served, UnlockOf(tx))
      && (w.writes[tx].InsertSession? ==>
        && GroupsAdmit(w.served.targets.fences[tx].allowed, w.writes[tx].groups)
        && Grants.Enabled(ttl, w.grants, Opening(w.writes[tx])))
    case AbortWrite(tx) => tx in w.writes && Replicas.Enabled(w.served, UnlockOf(tx))
  }

  function Begot(w: State, write: Write): History
    requires write.InsertSession?
  {
    w.history.(origins := w.history.origins[write.id := Origin(write.flow, write.session.subject)])
  }

  ghost function Locked(cfg: Config, w: State, tx: Tx, write: Write): State
    requires CanLock(w, tx, write)
  {
    w.(served := Replicas.Next(cfg, w.served, LockOf(tx, write)), writes := w.writes[tx := write])
  }

  // What a fenced transaction's commit writes, beside releasing its lock.
  ghost function Landed(ttl: Lifetimes, w: State, write: Write): State
    requires write.InsertSession? ==> Grants.Enabled(ttl, w.grants, Opening(write))
  {
    match write
    case InsertSession(_, _, _, _, _) =>
      w.(grants := Grants.Next(ttl, w.grants, Opening(write)), history := Begot(w, write))
    case RewriteToken(_, _, _) => w.(grants := Grants.Next(ttl, w.grants, Rewriting(write)))
    case PutCredential(key, box) => w.(creds := w.creds[key := Cred(box, w.grants.clock)])
  }

  // A form that matches, with every field filled, becomes a credential to save.
  function SavesAfter(w: State, pid: Pid, snap: Snapshot, typed: Typed): map<Pid, Save> {
    if FormMatches(snap, typed) && CredentialFrom(typed).Ok? then
      w.saves[pid := Save(CredKey(typed.subject, typed.target, typed.stamp),
                          Sealed(UserCredentialFor(typed.stamp), CredentialFrom(typed).value))]
    else w.saves
  }

  // The end of a fenced transaction.
  ghost function Released(cfg: Config, w: State, tx: Tx): State
    requires Replicas.Enabled(w.served, UnlockOf(tx))
  {
    w.(served := Replicas.Next(cfg, w.served, UnlockOf(tx)), writes := w.writes - {tx})
  }

  ghost function Wrote(cfg: Config, ttl: Lifetimes, w: State, step: WriteStep): State
    requires CanWrite(ttl, w, step)
  {
    match step
    case OpenPlain(flow, _, _, _) =>
      Landed(ttl, w, WriteFor(w, step)).(callbacks := w.callbacks - {flow})
    case LockInsert(tx, flow, _, _, _) =>
      Locked(cfg, w, tx, WriteFor(w, step)).(callbacks := w.callbacks - {flow})
    case Renew(pid, id, token) =>
      w.(renewals := w.renewals[pid := Renewal(id, w.grants.db.sessions[id], token)],
         history := w.history.(provided := w.history.provided + {(ForSession(id), token)}))
    case RewritePlain(_) => Landed(ttl, w, WriteFor(w, step))
    case LockRewrite(tx, _) => Locked(cfg, w, tx, WriteFor(w, step))
    case PostForm(pid, rid, typed) =>
      w.(saves := SavesAfter(w, pid, Snap(w, rid), typed),
         history := w.history.(typed := w.history.typed + {typed}))
    case PutPlain(pid) =>
      Landed(ttl, w, PutCredential(w.saves[pid].key, w.saves[pid].box)).(saves := w.saves - {pid})
    case LockPut(tx, pid) => Locked(cfg, w, tx, WriteFor(w, step)).(saves := w.saves - {pid})
    case CommitWrite(tx) => Released(cfg, Landed(ttl, w, w.writes[tx]), tx)
    case AbortWrite(tx) => Released(cfg, w, tx)
  }

  // ---------- calls ----------

  function Found(ttl: Lifetimes, w: State, token: Secret): Option<(Secret, Session)> {
    LookupAccess(w.grants.db, ttl, token, w.grants.clock)
  }

  function VerdictOn(ttl: Lifetimes, w: State, call: Call, token: Secret): Verdict
    requires call.Holding?
  {
    var found := Found(ttl, w, token);
    var current := if found.Some? then Targets.CurrentStamp(Rows(w), found.value.1.target) else None;
    JudgeCall(call.entry, call.multi, found, current)
  }

  // The credential userHeadersFor unseals, after its own freshness check. An empty one is a
  // fault.
  function OwnHeaders(w: State, call: Call): Option<(Text, Targets.Headers)>
    requires call.Entered?
  {
    if call.id !in w.grants.db.sessions then None
    else
      var s := w.grants.db.sessions[call.id];
      var key := CredKey(s.subject, call.entry.target.name, s.stamp);
      if s.subject == [] || key !in w.creds then None
      else if Behind(Some(call.entry), Targets.CurrentStamp(Rows(w), s.target)) then None
      else
        match Open(UserCredentialFor(call.entry.stamp), w.creds[key].box)
        case Some(headers) => if headers == map[] then None else Some((s.subject, headers))
        case None => None
  }

  function OwnToken(ttl: Lifetimes, w: State, call: Call): Option<UpstreamToken>
    requires call.Entered?
  {
    match SessionToken(w.grants.db, ttl, call.id, call.entry.stamp, w.grants.clock)
    case Some(box) => Open(UpstreamTokenFor(call.entry.stamp), box)
    case None => None
  }

  // What the entry's mode gives the request to send. A mode it does not know gives nothing, nor
  // does a static target with nothing to send.
  function PayloadNow(ttl: Lifetimes, w: State, call: Call): Option<Payload>
    requires call.Entered?
  {
    var t := call.entry.target;
    if t.mode == PER_USER then
      match OwnHeaders(w, call)
      case Some((subject, headers)) => Some(OwnCredential(subject, headers))
      case None => None
    else if t.mode == STATIC then (if t.staticHeaders == map[] then None else Some(StaticValues(t.staticHeaders)))
    else if t.mode == PROVIDER_TOKEN then
      match OwnToken(ttl, w, call)
      case Some(token) => Some(ProviderToken(token))
      case None => None
    else None
  }

  predicate CanCall(ttl: Lifetimes, w: State, step: CallStep) {
    match step
    case LoadEntry(pid, rid, name) => pid !in w.calls && SnapAt(w, rid) && name in Snap(w, rid).byName
    case LookUp(pid, token) => pid in w.calls && w.calls[pid].Holding?
    case Read(pid) => pid in w.calls && w.calls[pid].Entered? && PayloadNow(ttl, w, w.calls[pid]).Some?
    case TakeRenewed(pid, from) =>
      && pid in w.calls && w.calls[pid].Entered? && w.calls[pid].entry.target.mode == PROVIDER_TOKEN
      && from in w.renewals && w.renewals[from].id == w.calls[pid].id
    case Forward(pid) => pid in w.calls && w.calls[pid].Ready?
    case DropCall(pid) => pid in w.calls
  }

  function Forwarded(w: State, pid: Pid): State
    requires pid in w.calls && w.calls[pid].Ready?
  {
    var c := w.calls[pid];
    w.(calls := w.calls - {pid},
       history := w.history.(sent := w.history.sent + {Sent(c.entry.proxy.url, c.id, c.client, c.payload)}))
  }

  // A request that is let in goes on; any other has its answer.
  function CallsAfter(ttl: Lifetimes, w: State, pid: Pid, token: Secret): map<Pid, Call>
    requires pid in w.calls && w.calls[pid].Holding?
  {
    match VerdictOn(ttl, w, w.calls[pid], token)
    case Enter(id) => w.calls[pid := Entered(w.calls[pid].entry, id, w.grants.db.access[token].client)]
    case _ => w.calls - {pid}
  }

  function Called(ttl: Lifetimes, w: State, step: CallStep): State
    requires CanCall(ttl, w, step)
  {
    match step
    case LoadEntry(pid, rid, name) =>
      w.(calls := w.calls[pid := Holding(Snap(w, rid).byName[name], Snap(w, rid).multi)])
    case LookUp(pid, token) => w.(calls := CallsAfter(ttl, w, pid, token))
    case Read(pid) =>
      var c := w.calls[pid];
      w.(calls := w.calls[pid := Ready(c.entry, c.id, c.client, PayloadNow(ttl, w, c).value)])
    case TakeRenewed(pid, from) =>
      var c := w.calls[pid];
      w.(calls := w.calls[pid := Ready(c.entry, c.id, c.client, ProviderToken(w.renewals[from].token))])
    case Forward(pid) => Forwarded(w, pid)
    case DropCall(pid) => w.(calls := w.calls - {pid})
  }

  // ---------- deletes ----------

  function StaleStep(w: State, only: Text): Grants.Step {
    Grants.DeleteSessions(StaleSessions(w.grants.db, Rows(w), only))
  }

  predicate CanPurge(ttl: Lifetimes, w: State, step: PurgeStep) {
    step.PurgeSessions? ==> Grants.Enabled(ttl, w.grants, StaleStep(w, step.only))
  }

  function AfterPurge(ttl: Lifetimes, w: State, step: PurgeStep): State
    requires CanPurge(ttl, w, step)
  {
    match step
    case PurgeFlows(only) => w.(flows := FreshFlows(w.flows, Rows(w), only))
    case PurgeSessions(only) => w.(grants := Grants.Next(ttl, w.grants, StaleStep(w, only)))
    case PurgeCredentials(only) => w.(creds := FreshCreds(w.creds, Rows(w), only))
    case DeleteFlows(ids) => w.(flows := w.flows - ids)
    case DeleteCredentials(keys) => w.(creds := w.creds - keys)
  }

  // ---------- refreshes ----------

  predicate CanJudge(ttl: Lifetimes, w: State, step: JudgeStep) {
    match step
    case TakeToken(tx, token, client, at) =>
      Grants.Enabled(ttl, w.grants, Grants.TakeRefresh(tx, token, client)) && at < |w.served.targets.tables|
    case Judge(tx, rid) => tx in w.taken && w.taken[tx].verdict.None? && SnapAt(w, rid)
  }

  function TakenAt(w: State, token: Secret, at: nat): Taken
    requires at < |w.served.targets.tables|
    requires token in w.grants.db.refresh && w.grants.db.refresh[token].session in w.grants.db.sessions
  {
    var s := w.grants.db.sessions[w.grants.db.refresh[token].session];
    Taken(token, s.target, s.stamp, Targets.CurrentStamp(w.served.targets.tables[at], s.target), at, None)
  }

  function VerdictAt(w: State, taken: Taken, rid: Replicas.Rid): RefreshVerdict
    requires SnapAt(w, rid)
  {
    JudgeRefresh(Find(Some(Snap(w, rid)), taken.target), taken.stamp, taken.current)
  }

  function Judged(ttl: Lifetimes, w: State, step: JudgeStep): State
    requires CanJudge(ttl, w, step)
  {
    match step
    case TakeToken(tx, token, client, at) =>
      w.(grants := Grants.Next(ttl, w.grants, Grants.TakeRefresh(tx, token, client)),
         taken := w.taken[tx := TakenAt(w, token, at)])
    case Judge(tx, rid) =>
      w.(taken := w.taken[tx := w.taken[tx].(verdict := Some(VerdictAt(w, w.taken[tx], rid)))])
  }

  // A pair is issued for a refresh only once the refresh has been judged, and for it.
  predicate MayIssue(w: State, tx: Grants.Tx) {
    tx in w.grants.grants && w.grants.grants[tx].took.TookRefresh? ==>
      tx in w.taken && w.taken[tx].verdict == Some(Issue)
  }

  predicate CanGrant(ttl: Lifetimes, w: State, grant: Grants.Step) {
    && !grant.OpenSession? && !grant.RewriteToken? && !grant.TakeRefresh?
    && (grant.CreatePair? ==> MayIssue(w, grant.tx))
    && Grants.Enabled(ttl, w.grants, grant)
  }

  // ---------- the whole ----------

  // Locks for share are taken and released by the writes above, sessions are written by them,
  // and refresh tokens are taken by a refresh that is to be judged.
  ghost predicate Enabled(ttl: Lifetimes, w: State, step: Step) {
    match step
    case Serve(serve) =>
      && !(serve.Edit? && (serve.step.LockShare? || serve.step.ReleaseShare?))
      && Replicas.Enabled(w.served, serve)
    case Grant(grant) => CanGrant(ttl, w, grant)
    case Judging(judge) => CanJudge(ttl, w, judge)
    case Flowing(flow) => CanFlow(w, flow)
    case Writing(write) => CanWrite(ttl, w, write)
    case Calling(call) => CanCall(ttl, w, call)
    case Purging(purge) => CanPurge(ttl, w, purge)
  }

  ghost function Next(cfg: Config, ttl: Lifetimes, w: State, step: Step): State
    requires Enabled(ttl, w, step)
  {
    match step
    case Serve(serve) => w.(served := Replicas.Next(cfg, w.served, serve))
    case Grant(grant) => w.(grants := Grants.Next(ttl, w.grants, grant))
    case Judging(judge) => Judged(ttl, w, judge)
    case Flowing(flow) => Flowed(w, flow)
    case Writing(write) => Wrote(cfg, ttl, w, write)
    case Calling(call) => Called(ttl, w, call)
    case Purging(purge) => AfterPurge(ttl, w, purge)
  }
}
