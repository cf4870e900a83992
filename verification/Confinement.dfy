/** Where anything forwarded ends up: what every run of the whole service keeps, joining the
    targets, the replicas, the flows, the sessions and the credentials. */
module Confinement {
  import opened Wrappers
  import opened Bytes
  import opened Stamps
  import opened Sealing
  import opened OAuthTables
  import opened Disk
  import opened Registries
  import opened RegistrySafety
  import opened Settings
  import opened World
  import Targets
  import TargetSafety
  import Replicas
  import ReplicaSafety
  import Grants
  import GrantSafety

  // ---------- what is confined ----------

  // Approved by whoever holds the secret /authorize gave the browser it showed the page to.
  ghost predicate Approved(h: History, flow: Secret) {
    flow in h.asked && flow in h.approvals && h.approvals[flow] == h.asked[flow].secret
  }

  // Version v had a row under this definition's stamp, whose box held these headers, and they
  // were supplied in a save naming that very row and this URL.
  ghost predicate SuppliedFor(s: Targets.State, v: int, t: Target, headers: Targets.Headers) {
    && 0 <= v < |s.tables| && t.name in s.tables[v] && s.tables[v][t.name].stamp == StampOf(t)
    && Targets.OpenStatic(s.tables[v][t.name]) == Some(headers)
    && Targets.Supply(t.name, s.tables[v][t.name].rowId, t.url, headers) in s.supplied
  }

  // Static values come from the row under this stamp, or from the config target itself.
  ghost predicate EnteredFor(cfg: Config, s: Targets.State, t: Target, headers: Targets.Headers) {
    if t.FromAdmin() then exists v :: SuppliedFor(s, v, t, headers)
    else exists c :: c in cfg.targets && StampOf(c) == StampOf(t) && c.staticHeaders == headers
  }

  // The provider gave this token to the flow's own callback, or to a refresh of the session.
  ghost predicate ObtainedFor(h: History, flow: Secret, id: Secret, token: UpstreamToken) {
    (ForFlow(flow), token) in h.provided || (ForSession(id), token) in h.provided
  }

  ghost predicate TypedFor(h: History, key: CredKey, headers: Targets.Headers) {
    exists values ::
      Typed(key.subject, key.target, key.stamp, values) in h.typed
      && Filled(key.stamp.core.fields, values) == Ok(headers)
  }

  /** What was forwarded went to the URL of the definition /authorize resolved for the flow
      behind its session; the flow was approved with its own browser secret; the token's
      client is the flow's; and what was sent belongs to that definition. */
  ghost predicate Confined(cfg: Config, ts: Targets.State, h: History, s: Sent) {
    && s.id in h.origins
    && var flow := h.origins[s.id].flow;
       && Approved(h, flow)
       && var t := h.asked[flow].target;
          && s.url == t.url && s.client == h.asked[flow].client
          && Belongs(cfg, ts, h, t, s.id, s.payload)
  }

  ghost predicate Belongs(cfg: Config, ts: Targets.State, h: History, t: Target, id: Secret, p: Payload)
    requires id in h.origins
  {
    match p
    case ProviderToken(token) => t.mode == PROVIDER_TOKEN && ObtainedFor(h, h.origins[id].flow, id, token)
    case StaticValues(headers) => t.mode == STATIC && EnteredFor(cfg, ts, t, headers)
    case OwnCredential(who, headers) =>
      t.mode == PER_USER && who == h.origins[id].subject && TypedFor(h, CredKey(who, t.name, StampOf(t)), headers)
  }

  // ---------- the invariant ----------

  ghost predicate FlowOk(h: History, id: Secret, flow: Flow) {
    && id in h.asked && flow == FlowOf(h.asked[id], flow.createdAt).(approved := flow.approved)
    && (flow.approved ==> Approved(h, id))
  }

  ghost predicate CallbackOk(h: History, id: Secret, c: Callback) {
    && FlowOk(h, id, c.flow) && c.flow.approved
    && (!c.Redeemed? ==> StampOf(c.target) == c.flow.stamp)
    && (c.Answered? ==> (ForFlow(id), c.token) in h.provided)
  }

  // A session of this flow.
  ghost predicate SessionFrom(h: History, flow: Secret, s: Session) {
    && Approved(h, flow)
    && s.stamp == StampOf(h.asked[flow].target) && s.target == h.asked[flow].target.name
    && s.resource == h.asked[flow].resource
    && s.token.purpose == UpstreamTokenFor(s.stamp)
  }

  ghost predicate SessionOk(h: History, id: Secret, s: Session) {
    && id in h.origins && s.subject == h.origins[id].subject && SessionFrom(h, h.origins[id].flow, s)
    && ObtainedFor(h, h.origins[id].flow, id, s.token.payload)
  }

  // What the code of a flow's session will demand.
  function OwedFor(a: Asked): Grants.Owed { Grants.Owed(a.client, a.redirect, a.challenge) }

  ghost predicate CredOk(h: History, key: CredKey, box: Sealed<Targets.Headers>) {
    box.purpose == UserCredentialFor(key.stamp) && key.target == key.stamp.core.name && TypedFor(h, key, box.payload)
  }

  // What a write will leave is as it should be.
  ghost predicate Sound(h: History, write: Write) {
    match write
    case InsertSession(flow, _, session, owed, _) =>
      && SessionFrom(h, flow, session) && owed == OwedFor(h.asked[flow])
      && (ForFlow(flow), session.token.payload) in h.provided
    case RewriteToken(id, session, anew) =>
      anew.purpose == UpstreamTokenFor(session.stamp) && (ForSession(id), anew.payload) in h.provided
    case PutCredential(key, box) => CredOk(h, key, box)
  }

  // An open write holds its fence.
  ghost predicate WriteOk(h: History, fences: map<Tx, Targets.Fence>, tx: Tx, write: Write) {
    && tx in fences && fences[tx].name == Name(write) && fences[tx].stamp == StampFor(write)
    && Sound(h, write)
  }

  ghost predicate CallOk(cfg: Config, ts: Targets.State, h: History, c: Call) {
    && ReplicaSafety.EntryOk(cfg, ts.tables, c.entry)
    && (c.Holding? ==> c.multi == cfg.named)
    && (!c.Holding? ==>
      && c.id in h.origins && Approved(h, h.origins[c.id].flow)
      && c.entry.stamp == StampOf(h.asked[h.origins[c.id].flow].target)
      && c.client == h.asked[h.origins[c.id].flow].client)
    && (c.Ready? ==> Belongs(cfg, ts, h, h.asked[h.origins[c.id].flow].target, c.id, c.payload))
  }

  // What a session's code was to demand is what the flow asked with, and ids are drawn once.
  ghost predicate OwnersOk(h: History, drawn: set<Secret>, owner: map<Secret, Grants.Owed>) {
    forall id :: id in h.origins ==>
      && id in drawn && id in owner && h.origins[id].flow in h.asked
      && owner[id] == OwedFor(h.asked[h.origins[id].flow])
  }

  ghost predicate FlowsOk(h: History, flows: Flows) { forall id :: id in flows ==> FlowOk(h, id, flows[id]) }

  ghost predicate CallbacksOk(h: History, callbacks: map<Secret, Callback>) {
    forall id :: id in callbacks ==> CallbackOk(h, id, callbacks[id])
  }

  ghost predicate SessionsOk(h: History, sessions: map<Secret, Session>) {
    forall id :: id in sessions ==> SessionOk(h, id, sessions[id])
  }

  ghost predicate CredsOk(h: History, creds: Creds) { forall k :: k in creds ==> CredOk(h, k, creds[k].box) }

  ghost predicate SavesOk(h: History, saves: map<Pid, Save>) {
    forall pid :: pid in saves ==> CredOk(h, saves[pid].key, saves[pid].box)
  }

  ghost predicate RenewalsOk(h: History, renewals: map<Pid, Renewal>) {
    forall pid :: pid in renewals ==> (ForSession(renewals[pid].id), renewals[pid].token) in h.provided
  }

  ghost predicate WritesOk(h: History, fences: map<Tx, Targets.Fence>, writes: map<Tx, Write>) {
    forall tx :: tx in writes ==> WriteOk(h, fences, tx, writes[tx])
  }

  ghost predicate CallsOk(cfg: Config, ts: Targets.State, h: History, calls: map<Pid, Call>) {
    forall pid :: pid in calls ==> CallOk(cfg, ts, h, calls[pid])
  }

  ghost predicate SentOk(cfg: Config, ts: Targets.State, h: History) {
    forall s :: s in h.sent ==> Confined(cfg, ts, h, s)
  }

  ghost predicate Rooted(cfg: Config, w: State) {
    && FlowsOk(w.history, w.flows) && CallbacksOk(w.history, w.callbacks)
    && SessionsOk(w.history, w.grants.db.sessions) && OwnersOk(w.history, w.grants.drawn, w.grants.owner)
    && CredsOk(w.history, w.creds) && SavesOk(w.history, w.saves) && RenewalsOk(w.history, w.renewals)
    && WritesOk(w.history, w.served.targets.fences, w.writes)
    && CallsOk(cfg, w.served.targets, w.history, w.calls)
    && SentOk(cfg, w.served.targets, w.history)
  }

  ghost predicate Inv(cfg: Config, w: State) {
    ReplicaSafety.Inv(cfg, w.served) && GrantSafety.Inv(w.grants) && Rooted(cfg, w)
  }

  // ---------- history only grows ----------

  ghost predicate Grows(h: History, h': History) {
    && (forall id :: id in h.asked ==> id in h'.asked && h'.asked[id] == h.asked[id])
    && (forall id :: Approved(h, id) ==> Approved(h', id))
    && (forall id :: id in h.origins ==> id in h'.origins && h'.origins[id] == h.origins[id])
    && h.provided <= h'.provided && h.typed <= h'.typed
  }

  lemma StillTyped(h: History, h': History, key: CredKey, headers: Targets.Headers)
    requires h.typed <= h'.typed && TypedFor(h, key, headers)
    ensures TypedFor(h', key, headers)
  {
    var values :|
      Typed(key.subject, key.target, key.stamp, values) in h.typed && Filled(key.stamp.core.fields, values) == Ok(headers);
    assert Typed(key.subject, key.target, key.stamp, values) in h'.typed;
  }

  lemma StillCredOk(h: History, h': History, key: CredKey, box: Sealed<Targets.Headers>)
    requires h.typed <= h'.typed && CredOk(h, key, box)
    ensures CredOk(h', key, box)
  {
    StillTyped(h, h', key, box.payload);
  }

  lemma StillCreds(h: History, h': History, creds: Creds, saves: map<Pid, Save>)
    requires h.typed <= h'.typed && CredsOk(h, creds) && SavesOk(h, saves)
    ensures CredsOk(h', creds) && SavesOk(h', saves)
  {
    forall k | k in creds ensures CredOk(h', k, creds[k].box) { StillCredOk(h, h', k, creds[k].box); }
    forall pid | pid in saves ensures CredOk(h', saves[pid].key, saves[pid].box) {
      StillCredOk(h, h', saves[pid].key, saves[pid].box);
    }
  }

  lemma StillWriteOk(h: History, h': History, fences: map<Tx, Targets.Fence>, tx: Tx, write: Write)
    requires Grows(h, h') && WriteOk(h, fences, tx, write)
    ensures WriteOk(h', fences, tx, write)
  {
    if write.PutCredential? { StillCredOk(h, h', write.key, write.box); }
  }

  ghost predicate Older(s: Targets.State, s': Targets.State) { s.tables <= s'.tables && s.supplied <= s'.supplied }

  lemma StillBelongs(cfg: Config, ts: Targets.State, ts': Targets.State, h: History, h': History, t: Target, id: Secret, p: Payload)
    requires id in h.origins && Belongs(cfg, ts, h, t, id, p) && Grows(h, h') && Older(ts, ts')
    ensures Belongs(cfg, ts', h', t, id, p)
  {
    match p
    case ProviderToken(_) =>
    case StaticValues(headers) =>
      if t.FromAdmin() {
        var v :| SuppliedFor(ts, v, t, headers);
        assert SuppliedFor(ts', v, t, headers);
      }
    case OwnCredential(who, headers) => StillTyped(h, h', CredKey(who, t.name, StampOf(t)), headers);
  }

  lemma StillConfined(cfg: Config, ts: Targets.State, ts': Targets.State, h: History, h': History, s: Sent)
    requires Confined(cfg, ts, h, s) && Grows(h, h') && Older(ts, ts')
    ensures Confined(cfg, ts', h', s)
  {
    StillBelongs(cfg, ts, ts', h, h', h.asked[h.origins[s.id].flow].target, s.id, s.payload);
  }

  lemma StillEntryOk(cfg: Config, tables: seq<Targets.Rows>, more: seq<Targets.Rows>, e: Entry)
    requires ReplicaSafety.EntryOk(cfg, tables, e) && tables <= more
    ensures ReplicaSafety.EntryOk(cfg, more, e)
  {
    var v: nat :| v < |tables| && Defines(cfg, tables[v], e.target.name, e.target);
    assert more[v] == tables[v];
  }

  lemma StillCalls(cfg: Config, ts: Targets.State, ts': Targets.State, h: History, h': History, calls: map<Pid, Call>)
    requires CallsOk(cfg, ts, h, calls) && Older(ts, ts') && Grows(h, h')
    ensures CallsOk(cfg, ts', h', calls)
  {
    forall pid | pid in calls ensures CallOk(cfg, ts', h', calls[pid]) {
      assert CallOk(cfg, ts, h, calls[pid]);
      StillCallOk(cfg, ts, ts', h, h', calls[pid]);
    }
  }

  lemma StillCallOk(cfg: Config, ts: Targets.State, ts': Targets.State, h: History, h': History, c: Call)
    requires CallOk(cfg, ts, h, c) && Older(ts, ts') && Grows(h, h')
    ensures CallOk(cfg, ts', h', c)
  {
    StillEntryOk(cfg, ts.tables, ts'.tables, c.entry);
    if c.Ready? { StillBelongs(cfg, ts, ts', h, h', h.asked[h.origins[c.id].flow].target, c.id, c.payload); }
  }

  lemma StillSent(cfg: Config, ts: Targets.State, ts': Targets.State, h: History, h': History)
    requires SentOk(cfg, ts, h) && Older(ts, ts') && Grows(h, h') && h'.sent == h.sent
    ensures SentOk(cfg, ts', h')
  {
    forall s | s in h'.sent ensures Confined(cfg, ts', h', s) { StillConfined(cfg, ts, ts', h, h', s); }
  }

  lemma StillFlows(h: History, h': History, flows: Flows, callbacks: map<Secret, Callback>, sessions: map<Secret, Session>)
    requires Grows(h, h') && FlowsOk(h, flows) && CallbacksOk(h, callbacks) && SessionsOk(h, sessions)
    ensures FlowsOk(h', flows) && CallbacksOk(h', callbacks) && SessionsOk(h', sessions)
  {
    forall id | id in flows ensures FlowOk(h', id, flows[id]) { assert FlowOk(h, id, flows[id]); }
    forall id | id in callbacks ensures CallbackOk(h', id, callbacks[id]) { assert CallbackOk(h, id, callbacks[id]); }
    forall id | id in sessions ensures SessionOk(h', id, sessions[id]) { assert SessionOk(h, id, sessions[id]); }
  }

  lemma StillWrites(h: History, h': History, fences: map<Tx, Targets.Fence>, writes: map<Tx, Write>)
    requires Grows(h, h') && WritesOk(h, fences, writes)
    ensures WritesOk(h', fences, writes)
  {
    forall tx | tx in writes ensures WriteOk(h', fences, tx, writes[tx]) { StillWriteOk(h, h', fences, tx, writes[tx]); }
  }

  // History has grown, with no new session and nothing new forwarded.
  lemma StillRooted(cfg: Config, w: State, h': History)
    requires Rooted(cfg, w) && Grows(w.history, h') && h'.sent == w.history.sent && h'.origins == w.history.origins
    ensures Rooted(cfg, w.(history := h'))
  {
    StillFlows(w.history, h', w.flows, w.callbacks, w.grants.db.sessions);
    StillCreds(w.history, h', w.creds, w.saves);
    StillWrites(w.history, h', w.served.targets.fences, w.writes);
    StillCalls(cfg, w.served.targets, w.served.targets, w.history, h', w.calls);
    StillSent(cfg, w.served.targets, w.served.targets, w.history, h');
  }

  // ---------- serving and granting ----------

  ghost predicate Locking(step: Replicas.Step) { step.Edit? && (step.step.LockShare? || step.step.ReleaseShare?) }

  ghost predicate Served(s: Replicas.State, s': Replicas.State) { Older(s.targets, s'.targets) }

  lemma ServeGrows(cfg: Config, s: Replicas.State, step: Replicas.Step)
    requires Replicas.Enabled(s, step)
    ensures Served(s, Replicas.Next(cfg, s, step))
    ensures !Locking(step) ==> Replicas.Next(cfg, s, step).targets.fences == s.targets.fences
  {
  }

  lemma ServedKeeps(cfg: Config, w: State, s': Replicas.State, writes': map<Tx, Write>)
    requires Rooted(cfg, w) && Served(w.served, s') && WritesOk(w.history, s'.targets.fences, writes')
    ensures Rooted(cfg, w.(served := s', writes := writes'))
  {
    StillCalls(cfg, w.served.targets, s'.targets, w.history, w.history, w.calls);
    StillSent(cfg, w.served.targets, s'.targets, w.history, w.history);
  }

  lemma ServeKeeps(cfg: Config, w: State, serve: Replicas.Step)
    requires Rooted(cfg, w) && Replicas.Enabled(w.served, serve) && !Locking(serve)
    ensures Rooted(cfg, w.(served := Replicas.Next(cfg, w.served, serve)))
  {
    ServeGrows(cfg, w.served, serve);
    ServedKeeps(cfg, w, Replicas.Next(cfg, w.served, serve), w.writes);
    assert w.(served := Replicas.Next(cfg, w.served, serve), writes := w.writes)
        == w.(served := Replicas.Next(cfg, w.served, serve));
  }

  // What a grant step leaves of the sessions is as it was.
  lemma GrantKeepsSessions(ttl: Lifetimes, s: Grants.State, step: Grants.Step)
    requires Grants.Enabled(ttl, s, step) && !step.OpenSession? && !step.RewriteToken?
    ensures var s' := Grants.Next(ttl, s, step);
            && (forall id :: id in s'.db.sessions ==> id in s.db.sessions && s'.db.sessions[id] == s.db.sessions[id])
            && s'.owner == s.owner && s.drawn <= s'.drawn
  {
  }

  lemma GrantedKeeps(cfg: Config, w: State, s': Grants.State)
    requires Rooted(cfg, w) && SessionsOk(w.history, s'.db.sessions) && OwnersOk(w.history, s'.drawn, s'.owner)
    ensures Rooted(cfg, w.(grants := s'))
  {
  }

  lemma GrantKeeps(cfg: Config, ttl: Lifetimes, w: State, grant: Grants.Step)
    requires Rooted(cfg, w) && Grants.Enabled(ttl, w.grants, grant) && !grant.OpenSession? && !grant.RewriteToken?
    ensures Rooted(cfg, w.(grants := Grants.Next(ttl, w.grants, grant)))
  {
    GrantKeepsSessions(ttl, w.grants, grant);
    GrantedKeeps(cfg, w, Grants.Next(ttl, w.grants, grant));
  }

  // What has been taken to be judged is no part of the invariant.
  lemma TakenAside(cfg: Config, w: State, taken: map<Grants.Tx, Taken>)
    requires Rooted(cfg, w)
    ensures Rooted(cfg, w.(taken := taken))
  {
  }

  lemma JudgeKeeps(cfg: Config, ttl: Lifetimes, w: State, judge: JudgeStep)
    requires Rooted(cfg, w) && CanJudge(ttl, w, judge)
    ensures Rooted(cfg, Judged(ttl, w, judge))
  {
    match judge
    case TakeToken(tx, token, client, at) =>
      var taking := Grants.TakeRefresh(tx, token, client);
      GrantKeeps(cfg, ttl, w, taking);
      TakenAside(cfg, w.(grants := Grants.Next(ttl, w.grants, taking)), w.taken[tx := TakenAt(w, token, at)]);
    case Judge(tx, rid) => TakenAside(cfg, w, Judged(ttl, w, judge).taken);
  }

  // ---------- flows ----------

  lemma FlowRowsKeep(cfg: Config, w: State, flows: Flows, callbacks: map<Secret, Callback>, pending: set<Secret>)
    requires Rooted(cfg, w) && FlowsOk(w.history, flows) && CallbacksOk(w.history, callbacks)
    ensures Rooted(cfg, w.(flows := flows, callbacks := callbacks, pending := pending))
  {
  }

  lemma ApprovalGrows(h: History, id: Secret, flow: Flow)
    requires FlowOk(h, id, flow)
    ensures var h' := h.(approvals := h.approvals[id := flow.secret]);
            Grows(h, h') && FlowOk(h', id, flow.(approved := true))
  {
  }

  lemma FlowsSet(h: History, flows: Flows, id: Secret, flow: Flow)
    requires FlowsOk(h, flows) && FlowOk(h, id, flow)
    ensures FlowsOk(h, flows[id := flow])
  {
  }

  lemma ApproveKeeps(cfg: Config, w: State, id: Secret, secret: Secret)
    requires Rooted(cfg, w) && CanFlow(w, Approve(id, secret))
    ensures Rooted(cfg, Flowed(w, Approve(id, secret)))
  {
    var w' := Flowed(w, Approve(id, secret));
    ApprovalGrows(w.history, id, w.flows[id]);
    StillRooted(cfg, w, w'.history);
    FlowsSet(w'.history, w.flows, id, w'.flows[id]);
    FlowRowsKeep(cfg, w.(history := w'.history), w'.flows, w.callbacks, w.pending);
  }

  lemma AuthorizeKeeps(cfg: Config, w: State, id: Secret, rid: Replicas.Rid, a: Asked)
    requires Rooted(cfg, w) && CanFlow(w, Authorize(id, rid, a))
    ensures Rooted(cfg, Flowed(w, Authorize(id, rid, a)))
  {
    var w' := Flowed(w, Authorize(id, rid, a));
    StillRooted(cfg, w, w'.history);
    FlowRowsKeep(cfg, w.(history := w'.history), w.flows, w.callbacks, w'.pending);
  }

  lemma RedeemedIsOk(w: State, id: Secret)
    requires FlowsOk(w.history, w.flows) && CallbacksOk(w.history, w.callbacks) && CanFlow(w, Redeem(id))
    ensures CallbacksOk(w.history, w.callbacks[id := Redeemed(w.flows[id])])
  {
    assert FlowOk(w.history, id, w.flows[id]);
  }

  lemma ResolvedIsOk(w: State, id: Secret, t: Target)
    requires CallbacksOk(w.history, w.callbacks) && id in w.callbacks && StampOf(t) == w.callbacks[id].flow.stamp
    ensures CallbacksOk(w.history, w.callbacks[id := Resolved(w.callbacks[id].flow, t)])
  {
    assert CallbackOk(w.history, id, w.callbacks[id]);
  }

  lemma StoredIsOk(w: State, id: Secret)
    requires FlowsOk(w.history, w.flows) && CanFlow(w, StoreFlow(id))
    ensures FlowsOk(w.history, w.flows[id := FlowOf(w.history.asked[id], w.grants.clock)])
  {
  }

  lemma FlowKeeps(cfg: Config, w: State, step: FlowStep)
    requires Rooted(cfg, w) && CanFlow(w, step)
    ensures Rooted(cfg, Flowed(w, step))
  {
    match step
    case Authorize(id, rid, a) => AuthorizeKeeps(cfg, w, id, rid, a);
    case Approve(id, secret) => ApproveKeeps(cfg, w, id, secret);
    case StoreFlow(id) =>
      StoredIsOk(w, id);
      FlowRowsKeep(cfg, w, w.flows[id := FlowOf(w.history.asked[id], w.grants.clock)], w.callbacks, w.pending - {id});
    case Decline(id, _) => FlowsShrink(cfg, w, w.flows - {id});
    case Redeem(id) =>
      RedeemedIsOk(w, id);
      FlowsShrink(cfg, w, w.flows - {id});
      CallbacksKeep(cfg, w.(flows := w.flows - {id}), w.callbacks[id := Redeemed(w.flows[id])]);
    case Resolve(id, rid) =>
      var t := TargetForFlow(Snap(w, rid), w.callbacks[id].flow);
      if t.Some? {
        ResolvedIsOk(w, id, t.value);
        CallbacksKeep(cfg, w, w.callbacks[id := Resolved(w.callbacks[id].flow, t.value)]);
      } else {
        DropCallback(cfg, w, id);
      }
    case Obtain(id, token) => ObtainKeeps(cfg, w, id, token);
    case Abandon(id) => DropCallback(cfg, w, id);
  }

  lemma ProvidedGrows(cfg: Config, w: State, got: (Obtained, UpstreamToken))
    requires Rooted(cfg, w)
    ensures Rooted(cfg, w.(history := w.history.(provided := w.history.provided + {got})))
  {
    StillRooted(cfg, w, w.history.(provided := w.history.provided + {got}));
  }

  lemma AnsweredIsOk(h: History, callbacks: map<Secret, Callback>, id: Secret, token: UpstreamToken)
    requires CallbacksOk(h, callbacks) && id in callbacks && callbacks[id].Resolved? && (ForFlow(id), token) in h.provided
    ensures CallbacksOk(h, callbacks[id := Answered(callbacks[id].flow, callbacks[id].target, token)])
  {
    assert CallbackOk(h, id, callbacks[id]);
  }

  lemma ObtainKeeps(cfg: Config, w: State, id: Secret, token: UpstreamToken)
    requires Rooted(cfg, w) && CanFlow(w, Obtain(id, token))
    ensures Rooted(cfg, Flowed(w, Obtain(id, token)))
  {
    var m := w.(history := w.history.(provided := w.history.provided + {(ForFlow(id), token)}));
    ProvidedGrows(cfg, w, (ForFlow(id), token));
    AnsweredIsOk(m.history, m.callbacks, id, token);
    CallbacksKeep(cfg, m, Flowed(w, Obtain(id, token)).callbacks);
  }

  lemma CallbacksKeep(cfg: Config, w: State, callbacks: map<Secret, Callback>)
    requires Rooted(cfg, w) && CallbacksOk(w.history, callbacks)
    ensures Rooted(cfg, w.(callbacks := callbacks))
  {
  }

  // ---------- writes ----------

  lemma InsertIsFromItsFlow(w: State, flow: Secret, id: Secret, subject: Text, groups: seq<Text>)
    requires CallbacksOk(w.history, w.callbacks) && flow in w.callbacks && w.callbacks[flow].Answered?
    ensures var write := Insert(w, flow, id, subject, groups);
            && SessionFrom(w.history, flow, write.session) && write.owed == OwedFor(w.history.asked[flow])
            && (ForFlow(flow), write.session.token.payload) in w.history.provided
  {
    assert CallbackOk(w.history, flow, w.callbacks[flow]);
  }

  // Taking the fence and taking on the write it is for.
  lemma LockKeeps(cfg: Config, w: State, tx: Tx, write: Write)
    requires Rooted(cfg, w) && CanLock(w, tx, write) && Sound(w.history, write)
    ensures Rooted(cfg, Locked(cfg, w, tx, write))
  {
    var s' := Replicas.Next(cfg, w.served, LockOf(tx, write));
    var writes' := w.writes[tx := write];
    ServeGrows(cfg, w.served, LockOf(tx, write));
    forall ty | ty in writes' ensures WriteOk(w.history, s'.targets.fences, ty, writes'[ty]) {
      if ty != tx { assert WriteOk(w.history, w.served.targets.fences, ty, w.writes[ty]); }
    }
    ServedKeeps(cfg, w, s', writes');
  }

  lemma UnlockedWritesOk(h: History, fences: map<Tx, Targets.Fence>, writes: map<Tx, Write>, tx: Tx)
    requires WritesOk(h, fences, writes)
    ensures WritesOk(h, fences - {tx}, writes - {tx})
  {
    forall ty | ty in writes - {tx} ensures WriteOk(h, fences - {tx}, ty, writes[ty]) {
      assert WriteOk(h, fences, ty, writes[ty]);
    }
  }

  lemma UnlockKeeps(cfg: Config, w: State, tx: Tx)
    requires Rooted(cfg, w) && Replicas.Enabled(w.served, UnlockOf(tx))
    ensures Rooted(cfg, Released(cfg, w, tx))
  {
    var s' := Replicas.Next(cfg, w.served, UnlockOf(tx));
    var writes' := w.writes - {tx};
    ServeGrows(cfg, w.served, UnlockOf(tx));
    assert s'.targets.fences == w.served.targets.fences - {tx};
    UnlockedWritesOk(w.history, w.served.targets.fences, w.writes, tx);
    ServedKeeps(cfg, w, s', writes');
  }

  lemma NewOrigin(cfg: Config, w: State, write: Write)
    requires Rooted(cfg, w) && write.InsertSession? && write.id !in w.history.origins
    ensures var m := w.(history := Begot(w, write));
            && FlowsOk(m.history, m.flows) && CallbacksOk(m.history, m.callbacks)
            && SessionsOk(m.history, m.grants.db.sessions)
            && CredsOk(m.history, m.creds) && SavesOk(m.history, m.saves) && RenewalsOk(m.history, m.renewals)
            && WritesOk(m.history, m.served.targets.fences, m.writes)
            && CallsOk(cfg, m.served.targets, m.history, m.calls)
            && SentOk(cfg, m.served.targets, m.history)
  {
    var h' := Begot(w, write);
    assert Grows(w.history, h');
    StillFlows(w.history, h', w.flows, w.callbacks, w.grants.db.sessions);
    StillCreds(w.history, h', w.creds, w.saves);
    StillWrites(w.history, h', w.served.targets.fences, w.writes);
    StillCalls(cfg, w.served.targets, w.served.targets, w.history, h', w.calls);
    StillSent(cfg, w.served.targets, w.served.targets, w.history, h');
  }

  lemma OpenLands(cfg: Config, ttl: Lifetimes, w: State, write: Write)
    requires Rooted(cfg, w) && write.InsertSession? && Grants.Enabled(ttl, w.grants, Opening(write))
    requires Sound(w.history, write)
    ensures Rooted(cfg, Landed(ttl, w, write))
  {
    var w' := Landed(ttl, w, write);
    assert write.id !in w.history.origins;
    NewOrigin(cfg, w, write);
    var sessions := w'.grants.db.sessions;
    forall id | id in sessions ensures SessionOk(w'.history, id, sessions[id]) {
      if id != write.id { assert SessionOk(w'.history, id, w.grants.db.sessions[id]); }
    }
    assert OwnersOk(w'.history, w'.grants.drawn, w'.grants.owner);
  }

  lemma RewriteLands(cfg: Config, ttl: Lifetimes, w: State, id: Secret, stamp: Stamp, anew: Sealed<UpstreamToken>)
    requires Rooted(cfg, w) && anew.purpose == UpstreamTokenFor(stamp) && (ForSession(id), anew.payload) in w.history.provided
    ensures Rooted(cfg, w.(grants := Grants.Next(ttl, w.grants, Grants.RewriteToken(id, stamp, anew))))
  {
    var s' := Grants.Next(ttl, w.grants, Grants.RewriteToken(id, stamp, anew));
    forall i | i in s'.db.sessions ensures SessionOk(w.history, i, s'.db.sessions[i]) {
      assert SessionOk(w.history, i, w.grants.db.sessions[i]);
    }
    GrantedKeeps(cfg, w, s');
  }

  lemma PutLands(cfg: Config, w: State, key: CredKey, cred: Cred)
    requires Rooted(cfg, w) && CredOk(w.history, key, cred.box)
    ensures Rooted(cfg, w.(creds := w.creds[key := cred]))
  {
  }

  lemma WriteLands(cfg: Config, ttl: Lifetimes, w: State, write: Write)
    requires Rooted(cfg, w) && Sound(w.history, write)
    requires write.InsertSession? ==> Grants.Enabled(ttl, w.grants, Opening(write))
    ensures Rooted(cfg, Landed(ttl, w, write))
  {
    match write
    case InsertSession(_, _, _, _, _) => OpenLands(cfg, ttl, w, write);
    case RewriteToken(id, s, anew) => RewriteLands(cfg, ttl, w, id, s.stamp, anew);
    case PutCredential(key, box) => PutLands(cfg, w, key, Cred(box, w.grants.clock));
  }

  // A finished callback or save is dropped.
  lemma DropCallback(cfg: Config, w: State, flow: Secret)
    requires Rooted(cfg, w)
    ensures Rooted(cfg, w.(callbacks := w.callbacks - {flow}))
  {
  }

  lemma DropSave(cfg: Config, w: State, pid: Pid)
    requires Rooted(cfg, w)
    ensures Rooted(cfg, w.(saves := w.saves - {pid}))
  {
  }

  lemma SavesKeep(cfg: Config, w: State, saves: map<Pid, Save>)
    requires Rooted(cfg, w) && SavesOk(w.history, saves)
    ensures Rooted(cfg, w.(saves := saves))
  {
  }

  lemma PostedIsOk(h: History, w: State, pid: Pid, snap: Snapshot, typed: Typed)
    requires SavesOk(h, w.saves) && typed in h.typed
    ensures SavesOk(h, SavesAfter(w, pid, snap, typed))
  {
    if FormMatches(snap, typed) && CredentialFrom(typed).Ok? {
      assert TypedFor(h, CredKey(typed.subject, typed.target, typed.stamp), CredentialFrom(typed).value);
    }
  }

  lemma TypedGrows(cfg: Config, w: State, typed: Typed)
    requires Rooted(cfg, w)
    ensures Rooted(cfg, w.(history := w.history.(typed := w.history.typed + {typed})))
  {
    StillRooted(cfg, w, w.history.(typed := w.history.typed + {typed}));
  }

  lemma PostKeeps(cfg: Config, ttl: Lifetimes, w: State, pid: Pid, rid: Replicas.Rid, typed: Typed)
    requires Rooted(cfg, w) && CanWrite(ttl, w, PostForm(pid, rid, typed))
    ensures Rooted(cfg, Wrote(cfg, ttl, w, PostForm(pid, rid, typed)))
  {
    TypedGrows(cfg, w, typed);
    var told := w.(history := w.history.(typed := w.history.typed + {typed}));
    PostedIsOk(told.history, w, pid, Snap(w, rid), typed);
    SavesKeep(cfg, told, SavesAfter(w, pid, Snap(w, rid), typed));
  }

  lemma RewriteIsSound(h: History, renewals: map<Pid, Renewal>, pid: Pid)
    requires RenewalsOk(h, renewals) && pid in renewals
    ensures Sound(h, Rewrite(renewals[pid]))
  {
  }

  lemma RenewKeeps(cfg: Config, ttl: Lifetimes, w: State, pid: Pid, id: Secret, token: UpstreamToken)
    requires Rooted(cfg, w) && CanWrite(ttl, w, Renew(pid, id, token))
    ensures Rooted(cfg, Wrote(cfg, ttl, w, Renew(pid, id, token)))
  {
    ProvidedGrows(cfg, w, (ForSession(id), token));
  }

  lemma WriteForIsSound(cfg: Config, ttl: Lifetimes, w: State, step: WriteStep)
    requires Rooted(cfg, w) && CanWrite(ttl, w, step)
    requires step.OpenPlain? || step.LockInsert? || step.RewritePlain? || step.LockRewrite? || step.LockPut?
    ensures Sound(w.history, WriteFor(w, step))
  {
    if step.OpenPlain? || step.LockInsert? { InsertIsFromItsFlow(w, step.flow, step.id, step.subject, step.groups); }
    if step.RewritePlain? || step.LockRewrite? { RewriteIsSound(w.history, w.renewals, step.pid); }
  }

  lemma LockStepKeeps(cfg: Config, ttl: Lifetimes, w: State, step: WriteStep)
    requires Rooted(cfg, w) && CanWrite(ttl, w, step) && (step.LockInsert? || step.LockRewrite? || step.LockPut?)
    ensures Rooted(cfg, Wrote(cfg, ttl, w, step))
  {
    var write := WriteFor(w, step);
    WriteForIsSound(cfg, ttl, w, step);
    LockKeeps(cfg, w, step.tx, write);
    if step.LockInsert? { DropCallback(cfg, Locked(cfg, w, step.tx, write), step.flow); }
    if step.LockPut? { DropSave(cfg, Locked(cfg, w, step.tx, write), step.pid); }
  }

  lemma OpenPlainKeeps(cfg: Config, ttl: Lifetimes, w: State, step: WriteStep)
    requires Rooted(cfg, w) && CanWrite(ttl, w, step) && step.OpenPlain?
    ensures Rooted(cfg, Wrote(cfg, ttl, w, step))
  {
    WriteForIsSound(cfg, ttl, w, step);
    OpenLands(cfg, ttl, w, WriteFor(w, step));
    DropCallback(cfg, Landed(ttl, w, WriteFor(w, step)), step.flow);
  }

  lemma PlainStepKeeps(cfg: Config, ttl: Lifetimes, w: State, step: WriteStep)
    requires Rooted(cfg, w) && CanWrite(ttl, w, step) && (step.RewritePlain? || step.PutPlain?)
    ensures Rooted(cfg, Wrote(cfg, ttl, w, step))
  {
    match step
    case RewritePlain(_) =>
      WriteForIsSound(cfg, ttl, w, step);
      WriteLands(cfg, ttl, w, WriteFor(w, step));
    case PutPlain(pid) =>
      PutLands(cfg, w, w.saves[pid].key, Cred(w.saves[pid].box, w.grants.clock));
      DropSave(cfg, Landed(ttl, w, PutCredential(w.saves[pid].key, w.saves[pid].box)), pid);
  }

  lemma HeldWriteIsSound(h: History, fences: map<Tx, Targets.Fence>, writes: map<Tx, Write>, tx: Tx)
    requires WritesOk(h, fences, writes) && tx in writes
    ensures Sound(h, writes[tx])
  {
    assert WriteOk(h, fences, tx, writes[tx]);
  }

  lemma LandingLeavesTheRest(ttl: Lifetimes, w: State, write: Write)
    requires write.InsertSession? ==> Grants.Enabled(ttl, w.grants, Opening(write))
    ensures var w' := Landed(ttl, w, write);
            w'.served == w.served && w'.taken == w.taken && w'.history.asked == w.history.asked
  {
  }

  lemma WriteKeeps(cfg: Config, ttl: Lifetimes, w: State, step: WriteStep)
    requires Rooted(cfg, w) && CanWrite(ttl, w, step)
    ensures Rooted(cfg, Wrote(cfg, ttl, w, step))
  {
    if step.OpenPlain? { OpenPlainKeeps(cfg, ttl, w, step); }
    else if step.RewritePlain? || step.PutPlain? { PlainStepKeeps(cfg, ttl, w, step); }
    else if step.LockInsert? || step.LockRewrite? || step.LockPut? { LockStepKeeps(cfg, ttl, w, step); }
    else if step.PostForm? { PostKeeps(cfg, ttl, w, step.pid, step.rid, step.typed); }
    else if step.Renew? { RenewKeeps(cfg, ttl, w, step.pid, step.id, step.token); }
    else if step.CommitWrite? {
      HeldWriteIsSound(w.history, w.served.targets.fences, w.writes, step.tx);
      LandingLeavesTheRest(ttl, w, w.writes[step.tx]);
      WriteLands(cfg, ttl, w, w.writes[step.tx]);
      UnlockKeeps(cfg, Landed(ttl, w, w.writes[step.tx]), step.tx);
    }
    else { UnlockKeeps(cfg, w, step.tx); }
  }

  // ---------- calls ----------

  lemma CallsKeep(cfg: Config, w: State, calls: map<Pid, Call>)
    requires Rooted(cfg, w) && CallsOk(cfg, w.served.targets, w.history, calls)
    ensures Rooted(cfg, w.(calls := calls))
  {
  }

  // A lookup that lets the request in found a session of the entry's own definition, under a
  // token of the flow's client.
  lemma EnteredIsOk(cfg: Config, ttl: Lifetimes, w: State, call: Call, token: Secret)
    requires SessionsOk(w.history, w.grants.db.sessions) && OwnersOk(w.history, w.grants.drawn, w.grants.owner)
    requires GrantSafety.RowsOk(w.grants) && CallOk(cfg, w.served.targets, w.history, call)
    requires call.Holding? && VerdictOn(ttl, w, call, token).Enter?
    ensures token in w.grants.db.access
    ensures CallOk(cfg, w.served.targets, w.history,
              Entered(call.entry, VerdictOn(ttl, w, call, token).id, w.grants.db.access[token].client))
  {
    var id := VerdictOn(ttl, w, call, token).id;
    assert SessionOk(w.history, id, w.grants.db.sessions[id]);
    assert w.grants.db.access[token].client == w.grants.owner[id].client;
  }

  lemma EitherWay(ttl: Lifetimes, w: State, pid: Pid, token: Secret)
    requires pid in w.calls && w.calls[pid].Holding?
    ensures var verdict := VerdictOn(ttl, w, w.calls[pid], token);
            if verdict.Enter? then
              token in w.grants.db.access
              && CallsAfter(ttl, w, pid, token)
              == w.calls[pid := Entered(w.calls[pid].entry, verdict.id, w.grants.db.access[token].client)]
            else CallsAfter(ttl, w, pid, token) == w.calls - {pid}
  {
  }

  lemma LookedUp(cfg: Config, ttl: Lifetimes, w: State, pid: Pid, token: Secret)
    requires SessionsOk(w.history, w.grants.db.sessions) && OwnersOk(w.history, w.grants.drawn, w.grants.owner)
    requires CallsOk(cfg, w.served.targets, w.history, w.calls) && GrantSafety.RowsOk(w.grants)
    requires pid in w.calls && w.calls[pid].Holding?
    ensures CallsOk(cfg, w.served.targets, w.history, CallsAfter(ttl, w, pid, token))
  {
    var ts, call := w.served.targets, w.calls[pid];
    assert CallOk(cfg, ts, w.history, call);
    EitherWay(ttl, w, pid, token);
    if VerdictOn(ttl, w, call, token).Enter? {
      EnteredIsOk(cfg, ttl, w, call, token);
      CallsSet(cfg, ts, w.history, w.calls, pid,
               Entered(call.entry, VerdictOn(ttl, w, call, token).id, w.grants.db.access[token].client));
    } else {
      CallsDrop(cfg, ts, w.history, w.calls, pid);
    }
  }

  lemma LookUpKeeps(cfg: Config, ttl: Lifetimes, w: State, pid: Pid, token: Secret)
    requires Rooted(cfg, w) && GrantSafety.RowsOk(w.grants) && CanCall(ttl, w, LookUp(pid, token))
    ensures Rooted(cfg, Called(ttl, w, LookUp(pid, token)))
  {
    LookedUp(cfg, ttl, w, pid, token);
    CallsKeep(cfg, w, CallsAfter(ttl, w, pid, token));
  }

  lemma CallsSet(cfg: Config, ts: Targets.State, h: History, calls: map<Pid, Call>, pid: Pid, c: Call)
    requires CallsOk(cfg, ts, h, calls) && CallOk(cfg, ts, h, c)
    ensures CallsOk(cfg, ts, h, calls[pid := c])
  {
  }

  lemma LoadKeeps(cfg: Config, ttl: Lifetimes, w: State, pid: Pid, rid: Replicas.Rid, name: Text)
    requires Rooted(cfg, w) && CanCall(ttl, w, LoadEntry(pid, rid, name))
    requires ReplicaSafety.EntryOk(cfg, w.served.targets.tables, Snap(w, rid).byName[name]) && Snap(w, rid).multi == cfg.named
    ensures Rooted(cfg, Called(ttl, w, LoadEntry(pid, rid, name)))
  {
    CallsKeep(cfg, w, Called(ttl, w, LoadEntry(pid, rid, name)).calls);
  }

  // The headers a static entry carries were entered for its URL.
  lemma StaticHeadersAreItsOwn(cfg: Config, s: Targets.State, e: Entry)
    requires ConfigOk(cfg) && TargetSafety.Inv(s) && ReplicaSafety.EntryOk(cfg, s.tables, e) && e.target.mode == STATIC
    ensures EnteredFor(cfg, s, e.target, e.target.staticHeaders)
  {
    var v: nat :| v < |s.tables| && Defines(cfg, s.tables[v], e.target.name, e.target);
    if e.target.name in s.tables[v] {
      var row := s.tables[v][e.target.name];
      assert TargetSafety.RowOk(row, e.target.name, s.drawn, s.supplied);
      assert SuppliedFor(s, v, e.target, e.target.staticHeaders);
    } else {
      assert e.target in cfg.targets;
    }
  }

  // An entry under a definition's stamp dials its URL in its mode.
  lemma SameStampSameDefinition(cfg: Config, tables: seq<Targets.Rows>, e: Entry, t: Target)
    requires ReplicaSafety.EntryOk(cfg, tables, e) && e.stamp == StampOf(t)
    ensures e.proxy.url == t.url && e.target.mode == t.mode && e.target.name == t.name && e.target.source == t.source
    ensures e.target.url == t.url && StampOf(e.target) == StampOf(t)
  {
    StampsAgreeExactly(e.target, t);
  }

  lemma TokenIsItsOwn(ttl: Lifetimes, w: State, c: Call)
    requires SessionsOk(w.history, w.grants.db.sessions) && c.Entered? && OwnToken(ttl, w, c).Some?
    ensures c.id in w.history.origins
    ensures ObtainedFor(w.history, w.history.origins[c.id].flow, c.id, OwnToken(ttl, w, c).value)
  {
    assert SessionOk(w.history, c.id, w.grants.db.sessions[c.id]);
  }

  lemma CredentialIsItsOwn(w: State, c: Call)
    requires SessionsOk(w.history, w.grants.db.sessions) && CredsOk(w.history, w.creds)
    requires c.Entered? && OwnHeaders(w, c).Some?
    ensures c.id in w.history.origins && OwnHeaders(w, c).value.0 == w.history.origins[c.id].subject
    ensures TypedFor(w.history, CredKey(OwnHeaders(w, c).value.0, c.entry.target.name, c.entry.stamp), OwnHeaders(w, c).value.1)
  {
    var session := w.grants.db.sessions[c.id];
    assert SessionOk(w.history, c.id, session);
    var key := CredKey(session.subject, c.entry.target.name, session.stamp);
    assert CredOk(w.history, key, w.creds[key].box);
  }

  lemma EnteredForOneStamp(cfg: Config, s: Targets.State, e: Target, t: Target)
    requires StampOf(e) == StampOf(t) && e.name == t.name && e.url == t.url && e.source == t.source
    requires EnteredFor(cfg, s, e, e.staticHeaders)
    ensures EnteredFor(cfg, s, t, e.staticHeaders)
  {
    if e.FromAdmin() {
      var v :| SuppliedFor(s, v, e, e.staticHeaders);
      assert SuppliedFor(s, v, t, e.staticHeaders);
    }
  }

  // What a request reads to send belongs to its session and the definition its flow asked for.
  lemma PayloadBelongs(cfg: Config, ttl: Lifetimes, w: State, c: Call, t: Target)
    requires ConfigOk(cfg) && TargetSafety.Inv(w.served.targets)
    requires SessionsOk(w.history, w.grants.db.sessions) && CredsOk(w.history, w.creds)
    requires c.Entered? && CallOk(cfg, w.served.targets, w.history, c) && c.entry.stamp == StampOf(t)
    requires PayloadNow(ttl, w, c).Some?
    ensures Belongs(cfg, w.served.targets, w.history, t, c.id, PayloadNow(ttl, w, c).value)
  {
    SameStampSameDefinition(cfg, w.served.targets.tables, c.entry, t);
    match PayloadNow(ttl, w, c).value
    case ProviderToken(_) => TokenIsItsOwn(ttl, w, c);
    case StaticValues(_) =>
      StaticHeadersAreItsOwn(cfg, w.served.targets, c.entry);
      EnteredForOneStamp(cfg, w.served.targets, c.entry.target, t);
    case OwnCredential(_, _) => CredentialIsItsOwn(w, c);
  }

  lemma ReadKeeps(cfg: Config, ttl: Lifetimes, w: State, pid: Pid)
    requires ConfigOk(cfg) && TargetSafety.Inv(w.served.targets) && Rooted(cfg, w) && CanCall(ttl, w, Read(pid))
    ensures Rooted(cfg, Called(ttl, w, Read(pid)))
  {
    var c := w.calls[pid];
    assert CallOk(cfg, w.served.targets, w.history, c);
    PayloadBelongs(cfg, ttl, w, c, w.history.asked[w.history.origins[c.id].flow].target);
    var ready := Ready(c.entry, c.id, c.client, PayloadNow(ttl, w, c).value);
    CallsSet(cfg, w.served.targets, w.history, w.calls, pid, ready);
    CallsKeep(cfg, w, w.calls[pid := ready]);
  }

  lemma TakeRenewedKeeps(cfg: Config, ttl: Lifetimes, w: State, pid: Pid, from: Pid)
    requires Rooted(cfg, w) && CanCall(ttl, w, TakeRenewed(pid, from))
    ensures Rooted(cfg, Called(ttl, w, TakeRenewed(pid, from)))
  {
    var c := w.calls[pid];
    assert CallOk(cfg, w.served.targets, w.history, c);
    SameStampSameDefinition(cfg, w.served.targets.tables, c.entry, w.history.asked[w.history.origins[c.id].flow].target);
    var ready := Ready(c.entry, c.id, c.client, ProviderToken(w.renewals[from].token));
    CallsSet(cfg, w.served.targets, w.history, w.calls, pid, ready);
    CallsKeep(cfg, w, w.calls[pid := ready]);
  }

  lemma ForwardIsConfined(cfg: Config, ts: Targets.State, h: History, c: Call)
    requires c.Ready? && CallOk(cfg, ts, h, c)
    ensures Confined(cfg, ts, h, Sent(c.entry.proxy.url, c.id, c.client, c.payload))
  {
    SameStampSameDefinition(cfg, ts.tables, c.entry, h.asked[h.origins[c.id].flow].target);
  }

  lemma SentStays(cfg: Config, ts: Targets.State, h: History, h': History, s: Sent)
    requires SentOk(cfg, ts, h) && Confined(cfg, ts, h, s) && Grows(h, h') && h'.sent == h.sent + {s}
    ensures SentOk(cfg, ts, h')
  {
    forall r | r in h'.sent ensures Confined(cfg, ts, h', r) { StillConfined(cfg, ts, ts, h, h', r); }
  }

  lemma SentKeeps(cfg: Config, w: State, s: Sent)
    requires Rooted(cfg, w) && Confined(cfg, w.served.targets, w.history, s)
    ensures Rooted(cfg, w.(history := w.history.(sent := w.history.sent + {s})))
  {
    var ts, h, h' := w.served.targets, w.history, w.history.(sent := w.history.sent + {s});
    assert Grows(h, h');
    StillFlows(h, h', w.flows, w.callbacks, w.grants.db.sessions);
    StillCreds(h, h', w.creds, w.saves);
    StillWrites(h, h', w.served.targets.fences, w.writes);
    StillCalls(cfg, ts, ts, h, h', w.calls);
    SentStays(cfg, ts, h, h', s);
  }

  lemma ForwardKeeps(cfg: Config, w: State, pid: Pid)
    requires Rooted(cfg, w) && pid in w.calls && w.calls[pid].Ready?
    ensures Rooted(cfg, Forwarded(w, pid))
  {
    var c := w.calls[pid];
    var sent := Sent(c.entry.proxy.url, c.id, c.client, c.payload);
    assert CallOk(cfg, w.served.targets, w.history, c);
    ForwardIsConfined(cfg, w.served.targets, w.history, c);
    SentKeeps(cfg, w, sent);
    var m := w.(history := w.history.(sent := w.history.sent + {sent}));
    CallsDrop(cfg, m.served.targets, m.history, m.calls, pid);
    CallsKeep(cfg, m, m.calls - {pid});
  }

  lemma CallsDrop(cfg: Config, ts: Targets.State, h: History, calls: map<Pid, Call>, pid: Pid)
    requires CallsOk(cfg, ts, h, calls)
    ensures CallsOk(cfg, ts, h, calls - {pid})
  {
  }

  lemma CallKeeps(cfg: Config, ttl: Lifetimes, w: State, step: CallStep)
    requires ConfigOk(cfg) && ReplicaSafety.Inv(cfg, w.served) && GrantSafety.RowsOk(w.grants) && Rooted(cfg, w)
    requires CanCall(ttl, w, step)
    ensures Rooted(cfg, Called(ttl, w, step))
  {
    match step
    case LoadEntry(pid, rid, name) =>
      ReplicaSafety.ServedEntryOk(cfg, w.served, rid, Snap(w, rid).byName[name]);
      LoadKeeps(cfg, ttl, w, pid, rid, name);
    case LookUp(pid, token) => LookUpKeeps(cfg, ttl, w, pid, token);
    case Read(pid) => ReadKeeps(cfg, ttl, w, pid);
    case TakeRenewed(pid, from) => TakeRenewedKeeps(cfg, ttl, w, pid, from);
    case Forward(pid) => ForwardKeeps(cfg, w, pid);
    case DropCall(pid) =>
      CallsDrop(cfg, w.served.targets, w.history, w.calls, pid);
      CallsKeep(cfg, w, w.calls - {pid});
  }

  // ---------- deletes ----------

  lemma CredsShrink(cfg: Config, w: State, creds: Creds)
    requires Rooted(cfg, w) && forall k :: k in creds ==> k in w.creds && creds[k] == w.creds[k]
    ensures Rooted(cfg, w.(creds := creds))
  {
  }

  lemma FlowsShrink(cfg: Config, w: State, flows: Flows)
    requires Rooted(cfg, w) && forall id :: id in flows ==> id in w.flows && flows[id] == w.flows[id]
    ensures Rooted(cfg, w.(flows := flows))
  {
  }

  lemma PurgeKeeps(cfg: Config, ttl: Lifetimes, w: State, step: PurgeStep)
    requires Rooted(cfg, w) && CanPurge(ttl, w, step)
    ensures Rooted(cfg, AfterPurge(ttl, w, step))
  {
    var w' := AfterPurge(ttl, w, step);
    match step
    case PurgeSessions(only) => GrantKeeps(cfg, ttl, w, StaleStep(w, only));
    case PurgeFlows(_) => FlowsShrink(cfg, w, w'.flows);
    case DeleteFlows(_) => FlowsShrink(cfg, w, w'.flows);
    case PurgeCredentials(_) => CredsShrink(cfg, w, w'.creds);
    case DeleteCredentials(_) => CredsShrink(cfg, w, w'.creds);
  }

  // ---------- runs ----------

  lemma StepKeepsRooted(cfg: Config, ttl: Lifetimes, w: State, step: Step)
    requires ConfigOk(cfg) && ReplicaSafety.Inv(cfg, w.served) && GrantSafety.RowsOk(w.grants) && Rooted(cfg, w)
    requires Enabled(ttl, w, step)
    ensures Rooted(cfg, Next(cfg, ttl, w, step))
  {
    match step
    case Serve(serve) => ServeKeeps(cfg, w, serve);
    case Grant(grant) => GrantKeeps(cfg, ttl, w, grant);
    case Judging(judge) => JudgeKeeps(cfg, ttl, w, judge);
    case Flowing(flow) => FlowKeeps(cfg, w, flow);
    case Writing(write) => WriteKeeps(cfg, ttl, w, write);
    case Calling(call) => CallKeeps(cfg, ttl, w, call);
    case Purging(purge) => PurgeKeeps(cfg, ttl, w, purge);
  }

  // The step, if any, that a step of the whole takes among the replicas and in the grant
  // store.
  ghost function ServePart(ttl: Lifetimes, w: State, step: Step): Option<Replicas.Step>
    requires Enabled(ttl, w, step)
  {
    match step
    case Serve(serve) => Some(serve)
    case Writing(write) =>
      if write.LockInsert? || write.LockRewrite? || write.LockPut? then Some(LockOf(write.tx, WriteFor(w, write)))
      else if write.CommitWrite? || write.AbortWrite? then Some(UnlockOf(write.tx))
      else None
    case _ => None
  }

  ghost function LandingPart(write: Write): Option<Grants.Step> {
    match write
    case InsertSession(_, _, _, _, _) => Some(Opening(write))
    case RewriteToken(_, _, _) => Some(Rewriting(write))
    case PutCredential(_, _) => None
  }

  ghost function GrantPart(ttl: Lifetimes, w: State, step: Step): Option<Grants.Step>
    requires Enabled(ttl, w, step)
  {
    match step
    case Grant(grant) => Some(grant)
    case Judging(judge) =>
      if judge.TakeToken? then Some(Grants.TakeRefresh(judge.tx, judge.token, judge.client)) else None
    case Writing(write) =>
      if write.OpenPlain? then Some(Opening(WriteFor(w, write)))
      else if write.RewritePlain? then Some(Rewriting(WriteFor(w, write)))
      else if write.CommitWrite? then LandingPart(w.writes[write.tx])
      else None
    case Purging(purge) => if purge.PurgeSessions? then Some(StaleStep(w, purge.only)) else None
    case _ => None
  }

  ghost predicate TakesServePart(cfg: Config, ttl: Lifetimes, w: State, step: Step, s': Replicas.State)
    requires Enabled(ttl, w, step)
  {
    match ServePart(ttl, w, step)
    case Some(serve) => Replicas.Enabled(w.served, serve) && s' == Replicas.Next(cfg, w.served, serve)
    case None => s' == w.served
  }

  ghost predicate TakesGrantPart(ttl: Lifetimes, w: State, step: Step, s': Grants.State)
    requires Enabled(ttl, w, step)
  {
    match GrantPart(ttl, w, step)
    case Some(grant) => Grants.Enabled(ttl, w.grants, grant) && s' == Grants.Next(ttl, w.grants, grant)
    case None => s' == w.grants
  }

  lemma LandingGrants(ttl: Lifetimes, w: State, write: Write)
    requires write.InsertSession? ==> Grants.Enabled(ttl, w.grants, Opening(write))
    ensures match LandingPart(write)
            case Some(grant) =>
              Grants.Enabled(ttl, w.grants, grant) && Landed(ttl, w, write).grants == Grants.Next(ttl, w.grants, grant)
            case None => Landed(ttl, w, write).grants == w.grants
  {
  }

  lemma WriteGrants(cfg: Config, ttl: Lifetimes, w: State, write: WriteStep)
    requires CanWrite(ttl, w, write)
    ensures TakesGrantPart(ttl, w, Writing(write), Wrote(cfg, ttl, w, write).grants)
  {
    if write.OpenPlain? || write.RewritePlain? { LandingGrants(ttl, w, WriteFor(w, write)); }
    else if write.CommitWrite? { LandingGrants(ttl, w, w.writes[write.tx]); }
  }

  lemma ResolveLeavesTheRest(w: State, id: Secret, rid: Replicas.Rid)
    requires CanFlow(w, Resolve(id, rid))
    ensures var w' := Flowed(w, Resolve(id, rid)); w' == w.(callbacks := w'.callbacks)
  {
  }

  lemma FlowLeavesTheRest(w: State, step: FlowStep)
    requires CanFlow(w, step)
    ensures var w' := Flowed(w, step);
            && w'.served == w.served && w'.grants == w.grants && w'.creds == w.creds && w'.taken == w.taken
            && (!step.Authorize? ==> w'.history.asked == w.history.asked)
  {
    match step
    case Authorize(_, _, _) =>
    case StoreFlow(_) =>
    case Approve(_, _) =>
    case Decline(_, _) =>
    case Redeem(_) =>
    case Resolve(id, rid) => ResolveLeavesTheRest(w, id, rid);
    case Obtain(_, _) =>
    case Abandon(_) =>
  }

  lemma CallLeavesRows(ttl: Lifetimes, w: State, step: CallStep)
    requires CanCall(ttl, w, step)
    ensures Called(ttl, w, step).grants == w.grants && Called(ttl, w, step).creds == w.creds
    ensures Called(ttl, w, step).served == w.served && Called(ttl, w, step).taken == w.taken
    ensures Called(ttl, w, step).history.asked == w.history.asked
  {
  }

  lemma WriteServes(cfg: Config, ttl: Lifetimes, w: State, write: WriteStep)
    requires CanWrite(ttl, w, write)
    ensures TakesServePart(cfg, ttl, w, Writing(write), Wrote(cfg, ttl, w, write).served)
  {
    if write.OpenPlain? || write.RewritePlain? { LandingLeavesTheRest(ttl, w, WriteFor(w, write)); }
    else if write.CommitWrite? { LandingLeavesTheRest(ttl, w, w.writes[write.tx]); }
  }

  lemma JudgeLeavesTheRest(ttl: Lifetimes, w: State, judge: JudgeStep)
    requires CanJudge(ttl, w, judge)
    ensures var w' := Judged(ttl, w, judge);
            w'.served == w.served && w'.history == w.history && w'.creds == w.creds
  {
  }

  lemma PurgeLeavesTheRest(ttl: Lifetimes, w: State, purge: PurgeStep)
    requires CanPurge(ttl, w, purge)
    ensures var w' := AfterPurge(ttl, w, purge);
            w'.served == w.served && w'.taken == w.taken && w'.history == w.history && w'.creds.Keys <= w.creds.Keys
  {
  }

  lemma StepServes(cfg: Config, ttl: Lifetimes, w: State, step: Step)
    requires Enabled(ttl, w, step)
    ensures TakesServePart(cfg, ttl, w, step, Next(cfg, ttl, w, step).served)
  {
    match step
    case Serve(_) =>
    case Grant(_) =>
    case Judging(judge) => JudgeLeavesTheRest(ttl, w, judge);
    case Flowing(flow) => FlowLeavesTheRest(w, flow);
    case Writing(write) => WriteServes(cfg, ttl, w, write);
    case Calling(call) => CallLeavesRows(ttl, w, call);
    case Purging(purge) => PurgeLeavesTheRest(ttl, w, purge);
  }

  lemma PurgeGrants(ttl: Lifetimes, w: State, step: PurgeStep)
    requires CanPurge(ttl, w, step)
    ensures TakesGrantPart(ttl, w, Purging(step), AfterPurge(ttl, w, step).grants)
  {
  }

  lemma StepGrants(cfg: Config, ttl: Lifetimes, w: State, step: Step)
    requires Enabled(ttl, w, step)
    ensures TakesGrantPart(ttl, w, step, Next(cfg, ttl, w, step).grants)
  {
    match step
    case Serve(_) =>
    case Grant(_) =>
    case Judging(_) =>
    case Flowing(flow) => FlowLeavesTheRest(w, flow);
    case Writing(write) => WriteGrants(cfg, ttl, w, write);
    case Calling(call) => CallLeavesRows(ttl, w, call);
    case Purging(purge) => PurgeGrants(ttl, w, purge);
  }

  lemma ServedInvStays(cfg: Config, ttl: Lifetimes, w: State, step: Step)
    requires ConfigOk(cfg) && ReplicaSafety.Inv(cfg, w.served) && Enabled(ttl, w, step)
    ensures ReplicaSafety.Inv(cfg, Next(cfg, ttl, w, step).served)
  {
    StepServes(cfg, ttl, w, step);
    var part := ServePart(ttl, w, step);
    if part.Some? { ReplicaSafety.StepKeeps(cfg, w.served, part.value); }
  }

  lemma GrantsInvStays(cfg: Config, ttl: Lifetimes, w: State, step: Step)
    requires GrantSafety.Inv(w.grants) && Enabled(ttl, w, step)
    ensures GrantSafety.Inv(Next(cfg, ttl, w, step).grants)
  {
    StepGrants(cfg, ttl, w, step);
    var part := GrantPart(ttl, w, step);
    if part.Some? { GrantSafety.StepKeeps(ttl, w.grants, part.value); }
  }

  lemma StepKeeps(cfg: Config, ttl: Lifetimes, w: State, step: Step)
    requires ConfigOk(cfg) && Inv(cfg, w) && Enabled(ttl, w, step)
    ensures Inv(cfg, Next(cfg, ttl, w, step))
  {
    StepKeepsRooted(cfg, ttl, w, step);
    ServedInvStays(cfg, ttl, w, step);
    GrantsInvStays(cfg, ttl, w, step);
  }

  ghost predicate Reaches(cfg: Config, ttl: Lifetimes, a: State, steps: seq<Step>, b: State)
    decreases |steps|
  {
    if steps == [] then a == b
    else Enabled(ttl, a, steps[0]) && Reaches(cfg, ttl, Next(cfg, ttl, a, steps[0]), steps[1..], b)
  }

  lemma {:induction false} ReachesKeepsInv(cfg: Config, ttl: Lifetimes, a: State, steps: seq<Step>, b: State)
    requires ConfigOk(cfg) && Inv(cfg, a) && Reaches(cfg, ttl, a, steps, b)
    ensures Inv(cfg, b)
    decreases |steps|
  {
    if steps != [] {
      StepKeeps(cfg, ttl, a, steps[0]);
      ReachesKeepsInv(cfg, ttl, Next(cfg, ttl, a, steps[0]), steps[1..], b);
    }
  }

  lemma InitialInv(cfg: Config)
    ensures Inv(cfg, INITIAL)
  {
    ReplicaSafety.InitialInv(cfg);
  }

  ghost predicate Reachable(cfg: Config, ttl: Lifetimes, w: State) {
    ConfigOk(cfg) && exists steps :: Reaches(cfg, ttl, INITIAL, steps, w)
  }

  lemma ReachableInv(cfg: Config, ttl: Lifetimes, w: State)
    requires Reachable(cfg, ttl, w)
    ensures Inv(cfg, w)
  {
    var steps :| Reaches(cfg, ttl, INITIAL, steps, w);
    InitialInv(cfg);
    ReachesKeepsInv(cfg, ttl, INITIAL, steps, w);
  }

  lemma {:induction false} ReachesFurther(cfg: Config, ttl: Lifetimes, a: State, steps: seq<Step>, m: State, more: seq<Step>, b: State)
    requires Reaches(cfg, ttl, a, steps, m) && Reaches(cfg, ttl, m, more, b)
    ensures Reaches(cfg, ttl, a, steps + more, b)
    decreases |steps|
  {
    if steps == [] {
      assert steps + more == more;
    } else {
      assert (steps + more)[1..] == steps[1..] + more;
      ReachesFurther(cfg, ttl, Next(cfg, ttl, a, steps[0]), steps[1..], m, more, b);
    }
  }

  lemma StillReachable(cfg: Config, ttl: Lifetimes, w: State, more: seq<Step>, later: State)
    requires Reachable(cfg, ttl, w) && Reaches(cfg, ttl, w, more, later)
    ensures Reachable(cfg, ttl, later)
  {
    var steps :| Reaches(cfg, ttl, INITIAL, steps, w);
    ReachesFurther(cfg, ttl, INITIAL, steps, w, more, later);
  }

  lemma OneStepFurther(cfg: Config, ttl: Lifetimes, w: State, step: Step)
    requires Reachable(cfg, ttl, w) && Enabled(ttl, w, step)
    ensures Reachable(cfg, ttl, Next(cfg, ttl, w, step))
  {
    assert Reaches(cfg, ttl, w, [step], Next(cfg, ttl, w, step)) by {
      assert [step][1..] == [];
    }
    StillReachable(cfg, ttl, w, [step], Next(cfg, ttl, w, step));
  }

  /** End-to-end confinement: in every run of any number of replicas, edits, rebuilds, flows,
      grants, refreshes, saves and purges, all that was ever forwarded is confined. */
  lemma EverythingForwardedIsConfined(cfg: Config, ttl: Lifetimes, w: State, s: Sent)
    requires Reachable(cfg, ttl, w) && s in w.history.sent
    ensures Confined(cfg, w.served.targets, w.history, s)
  {
    ReachableInv(cfg, ttl, w);
  }

  /** The grant store keeps its promise inside the whole: a session has at most one code or
      unused refresh token, whatever else goes on. */
  lemma OneSpendableGrantToASession(cfg: Config, ttl: Lifetimes, w: State, id: Secret)
    requires Reachable(cfg, ttl, w)
    ensures |GrantSafety.CodesOf(w.grants.db, id)| + |GrantSafety.UnusedOf(w.grants.db, id)| <= 1
  {
    ReachableInv(cfg, ttl, w);
    GrantSafety.OneKindOnly(w.grants, id);
  }

  /** The authorization code grant is bound end to end: in every run, no grant commits for a
      code unless its exchange named the client and the redirect that /authorize was given,
      and its verifier hashes to the challenge /authorize was given. */
  lemma CodesAreBoundToTheirFlow(cfg: Config, ttl: Lifetimes, w: State, tx: Tx)
    requires Reachable(cfg, ttl, w) && tx in w.grants.grants && w.grants.grants[tx].took.TookCode?
    requires Enabled(ttl, w, Grant(Grants.Commit(tx)))
    ensures var (x, rec) := (w.grants.grants[tx].took.x, w.grants.grants[tx].took.rec);
            && rec.session in w.history.origins && w.history.origins[rec.session].flow in w.history.asked
            && var asked := w.history.asked[w.history.origins[rec.session].flow];
               x.client == asked.client && x.redirect == asked.redirect && S256(x.verifier) == asked.challenge
  {
    ReachableInv(cfg, ttl, w);
    GrantSafety.HeldCodeIsProved(ttl, w.grants, tx);
    HeldCodeIsOfItsFlow(w, w.grants.grants[tx].took.rec.session);
  }

  lemma HeldCodeIsOfItsFlow(w: State, id: Secret)
    requires SessionsOk(w.history, w.grants.db.sessions) && OwnersOk(w.history, w.grants.drawn, w.grants.owner)
    requires id in w.grants.db.sessions
    ensures id in w.history.origins && id in w.grants.owner && w.history.origins[id].flow in w.history.asked
    ensures w.grants.owner[id] == OwedFor(w.history.asked[w.history.origins[id].flow])
  {
    assert SessionOk(w.history, id, w.grants.db.sessions[id]);
  }
}
