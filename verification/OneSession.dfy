/** An approval is good for one session: in every run of the whole, at most one session ever comes
    of a flow, however callbacks, fences and replicas interleave. */
module OneSession {
  import opened Wrappers
  import opened Bytes
  import opened OAuthTables
  import opened Disk
  import opened Registries
  import opened World
  import opened Confinement
  import opened FenceSafety
  import Targets
  import Replicas
  import Grants

  // ---------- where a flow is ----------

  // What has been asked for, and where it has got to: not stored yet, stored, at a callback,
  // in a transaction that will insert its session, or behind a session.
  datatype Track = Track(
    asked: set<Secret>,
    pending: set<Secret>,
    flows: set<Secret>,
    callbacks: set<Secret>,
    inserts: map<Tx, Secret>,
    sessions: map<Secret, Secret>)

  function InsertsOf(writes: map<Tx, Write>): map<Tx, Secret> {
    map tx | tx in writes && writes[tx].InsertSession? :: writes[tx].flow
  }

  function OpenedOf(origins: map<Secret, Origin>): map<Secret, Secret> { map id | id in origins :: origins[id].flow }

  function TrackOf(w: State): Track {
    Track(w.history.asked.Keys, w.pending, w.flows.Keys, w.callbacks.Keys, InsertsOf(w.writes), OpenedOf(w.history.origins))
  }

  // Each flow is in one place at most.
  ghost predicate InOnePlace(t: Track) {
    && t.pending <= t.asked && t.flows <= t.asked && t.callbacks <= t.asked
    && t.inserts.Values <= t.asked && t.sessions.Values <= t.asked
    && t.pending !! t.flows && t.pending !! t.callbacks && t.flows !! t.callbacks
    && (t.pending + t.flows + t.callbacks) !! t.inserts.Values
    && (t.pending + t.flows + t.callbacks + t.inserts.Values) !! t.sessions.Values
    && (forall tx, ty :: tx in t.inserts && ty in t.inserts && t.inserts[tx] == t.inserts[ty] ==> tx == ty)
    && (forall a, b :: a in t.sessions && b in t.sessions && t.sessions[a] == t.sessions[b] ==> a == b)
  }

  // ---------- how it moves ----------

  datatype Move =
    | Stay(flows: set<Secret>)
    | Ask(f: Secret)
    | Store(f: Secret)
    | Take(f: Secret)
    | Drop(f: Secret)
    | Lock(tx: Tx, f: Secret)
    | Unlock(tx: Tx)
    | Open(f: Secret, id: Secret)
    | Land(tx: Tx, id: Secret)

  ghost predicate CanMove(t: Track, m: Move) {
    match m
    case Stay(flows) => flows <= t.flows
    case Ask(f) => f !in t.asked
    case Store(f) => f in t.pending
    case Take(f) => f in t.flows
    case Drop(f) => f in t.callbacks
    case Lock(tx, f) => f in t.callbacks && tx !in t.inserts
    case Unlock(tx) => true
    case Open(f, id) => f in t.callbacks && id !in t.sessions
    case Land(tx, id) => tx in t.inserts && id !in t.sessions
  }

  ghost function Moved(t: Track, m: Move): Track
    requires CanMove(t, m)
  {
    match m
    case Stay(flows) => t.(flows := flows)
    case Ask(f) => t.(asked := t.asked + {f}, pending := t.pending + {f})
    case Store(f) => t.(pending := t.pending - {f}, flows := t.flows + {f})
    case Take(f) => t.(flows := t.flows - {f}, callbacks := t.callbacks + {f})
    case Drop(f) => t.(callbacks := t.callbacks - {f})
    case Lock(tx, f) => t.(callbacks := t.callbacks - {f}, inserts := t.inserts[tx := f])
    case Unlock(tx) => t.(inserts := t.inserts - {tx})
    case Open(f, id) => t.(callbacks := t.callbacks - {f}, sessions := t.sessions[id := f])
    case Land(tx, id) => t.(inserts := t.inserts - {tx}, sessions := t.sessions[id := t.inserts[tx]])
  }

  lemma MovesKeep(t: Track, m: Move)
    requires InOnePlace(t) && CanMove(t, m)
    ensures InOnePlace(Moved(t, m))
  {
    match m
    case Lock(tx, f) => assert Moved(t, m).inserts.Values <= t.inserts.Values + {f};
    case Unlock(tx) => assert Moved(t, m).inserts.Values <= t.inserts.Values;
    case Open(f, id) => assert Moved(t, m).sessions.Values <= t.sessions.Values + {f};
    case Land(tx, id) =>
      assert Moved(t, m).inserts.Values <= t.inserts.Values - {t.inserts[tx]};
      assert Moved(t, m).sessions.Values <= t.sessions.Values + {t.inserts[tx]};
    case _ =>
  }

  // ---------- the steps of the whole ----------

  ghost predicate Follows(w: State, w': State) {
    exists m :: CanMove(TrackOf(w), m) && TrackOf(w') == Moved(TrackOf(w), m)
  }

  lemma FollowsBy(w: State, w': State, m: Move)
    requires CanMove(TrackOf(w), m) && TrackOf(w') == Moved(TrackOf(w), m)
    ensures Follows(w, w')
  {
  }

  lemma CallbackFollows(w: State, flow: FlowStep)
    requires CanFlow(w, flow) && (flow.Redeem? || flow.Obtain? || flow.Abandon?)
    ensures Follows(w, Flowed(w, flow))
  {
    var w' := Flowed(w, flow);
    match flow
    case Redeem(id) => FollowsBy(w, w', Take(id));
    case Obtain(id, _) => FollowsBy(w, w', Stay(w.flows.Keys));
    case Abandon(id) => FollowsBy(w, w', Drop(id));
  }

  lemma AnswerFollows(w: State, id: Secret, callback: Callback)
    requires id in w.callbacks
    ensures Follows(w, w.(callbacks := w.callbacks[id := callback]))
  {
    FollowsBy(w, w.(callbacks := w.callbacks[id := callback]), Stay(w.flows.Keys));
  }

  lemma DropFollows(w: State, id: Secret)
    requires id in w.callbacks
    ensures Follows(w, w.(callbacks := w.callbacks - {id}))
  {
    FollowsBy(w, w.(callbacks := w.callbacks - {id}), Drop(id));
  }

  lemma ResolveFollows(w: State, id: Secret, rid: Replicas.Rid)
    requires CanFlow(w, Resolve(id, rid))
    ensures Follows(w, Flowed(w, Resolve(id, rid)))
  {
    var flow := w.callbacks[id].flow;
    match TargetForFlow(Snap(w, rid), flow)
    case Some(t) => AnswerFollows(w, id, Resolved(flow, t));
    case None => DropFollows(w, id);
  }

  lemma FlowFollows(w: State, flow: FlowStep)
    requires CanFlow(w, flow)
    ensures Follows(w, Flowed(w, flow))
  {
    if flow.Resolve? { ResolveFollows(w, flow.id, flow.rid); }
    else if flow.Redeem? || flow.Obtain? || flow.Abandon? { CallbackFollows(w, flow); }
    else { ConsentFollows(w, flow); }
  }

  lemma ConsentFollows(w: State, flow: FlowStep)
    requires CanFlow(w, flow) && (flow.Authorize? || flow.StoreFlow? || flow.Approve? || flow.Decline?)
    ensures Follows(w, Flowed(w, flow))
  {
    var w' := Flowed(w, flow);
    match flow
    case Authorize(id, _, _) => FollowsBy(w, w', Ask(id));
    case StoreFlow(id) => FollowsBy(w, w', Store(id));
    case Approve(id, _) => FollowsBy(w, w', Stay(w.flows.Keys));
    case Decline(id, _) => FollowsBy(w, w', Stay(w.flows.Keys - {id}));
  }

  // A transaction that is new holds nothing, and an id that is new no session.
  lemma InsertsSet(writes: map<Tx, Write>, tx: Tx, write: Write)
    requires write.InsertSession?
    ensures InsertsOf(writes[tx := write]) == InsertsOf(writes)[tx := write.flow]
  {
  }

  lemma InsertsKept(writes: map<Tx, Write>, tx: Tx, write: Write)
    requires !write.InsertSession? && tx !in writes
    ensures InsertsOf(writes[tx := write]) == InsertsOf(writes)
  {
  }

  lemma InsertsDropped(writes: map<Tx, Write>, tx: Tx)
    ensures InsertsOf(writes - {tx}) == InsertsOf(writes) - {tx}
  {
  }

  lemma OpenedSet(origins: map<Secret, Origin>, id: Secret, o: Origin)
    ensures OpenedOf(origins[id := o]) == OpenedOf(origins)[id := o.flow]
  {
  }

  // A transaction has its fence, and an id behind a session has been drawn.
  ghost predicate Held(w: State) {
    && (forall tx :: tx in w.writes ==> tx in w.served.targets.fences)
    && (forall id :: id in w.history.origins ==> id in w.grants.drawn)
  }

  lemma OpenFollows(cfg: Config, ttl: Lifetimes, w: State, write: WriteStep)
    requires Held(w) && CanWrite(ttl, w, write) && (write.OpenPlain? || write.LockInsert?)
    ensures Follows(w, Wrote(cfg, ttl, w, write))
  {
    var w' := Wrote(cfg, ttl, w, write);
    if write.OpenPlain? {
      OpenedSet(w.history.origins, write.id, Origin(write.flow, write.subject));
      FollowsBy(w, w', Open(write.flow, write.id));
    } else {
      InsertsSet(w.writes, write.tx, WriteFor(w, write));
      FollowsBy(w, w', Lock(write.tx, write.flow));
    }
  }

  lemma CommitFollows(cfg: Config, ttl: Lifetimes, w: State, tx: Tx)
    requires Held(w) && CanWrite(ttl, w, CommitWrite(tx)) && w.writes[tx].InsertSession?
    ensures Follows(w, Wrote(cfg, ttl, w, CommitWrite(tx)))
  {
    var write := w.writes[tx];
    InsertsDropped(w.writes, tx);
    OpenedSet(w.history.origins, write.id, Origin(write.flow, write.session.subject));
    FollowsBy(w, Wrote(cfg, ttl, w, CommitWrite(tx)), Land(tx, write.id));
  }

  lemma LandedInPlace(ttl: Lifetimes, w: State, write: Write)
    requires !write.InsertSession?
    ensures TrackOf(Landed(ttl, w, write)) == TrackOf(w)
  {
  }

  lemma ReleasedUnlocks(cfg: Config, w: State, tx: Tx)
    requires Replicas.Enabled(w.served, UnlockOf(tx))
    ensures TrackOf(Released(cfg, w, tx)) == Moved(TrackOf(w), Unlock(tx))
  {
    InsertsDropped(w.writes, tx);
  }

  lemma WriteFollows(cfg: Config, ttl: Lifetimes, w: State, write: WriteStep)
    requires Held(w) && CanWrite(ttl, w, write)
    ensures Follows(w, Wrote(cfg, ttl, w, write))
  {
    var w' := Wrote(cfg, ttl, w, write);
    if write.OpenPlain? || write.LockInsert? {
      OpenFollows(cfg, ttl, w, write);
    } else if write.CommitWrite? && w.writes[write.tx].InsertSession? {
      CommitFollows(cfg, ttl, w, write.tx);
    } else if write.CommitWrite? {
      LandedInPlace(ttl, w, w.writes[write.tx]);
      LandingLeavesTheRest(ttl, w, w.writes[write.tx]);
      ReleasedUnlocks(cfg, Landed(ttl, w, w.writes[write.tx]), write.tx);
      FollowsBy(w, w', Unlock(write.tx));
    } else if write.AbortWrite? {
      ReleasedUnlocks(cfg, w, write.tx);
      FollowsBy(w, w', Unlock(write.tx));
    } else {
      if write.LockRewrite? || write.LockPut? { InsertsKept(w.writes, write.tx, WriteFor(w, write)); }
      FollowsBy(w, w', Stay(w.flows.Keys));
    }
  }

  lemma CallFollows(ttl: Lifetimes, w: State, call: CallStep)
    requires CanCall(ttl, w, call)
    ensures Follows(w, Called(ttl, w, call))
  {
    FollowsBy(w, Called(ttl, w, call), Stay(w.flows.Keys));
  }

  lemma PurgeFollows(ttl: Lifetimes, w: State, purge: PurgeStep)
    requires CanPurge(ttl, w, purge)
    ensures Follows(w, AfterPurge(ttl, w, purge))
  {
    FollowsBy(w, AfterPurge(ttl, w, purge), Stay(AfterPurge(ttl, w, purge).flows.Keys));
  }

  lemma JudgeFollows(ttl: Lifetimes, w: State, judge: JudgeStep)
    requires CanJudge(ttl, w, judge)
    ensures Follows(w, Judged(ttl, w, judge))
  {
    FollowsBy(w, Judged(ttl, w, judge), Stay(w.flows.Keys));
  }

  lemma ServeFollows(w: State, served: Replicas.State, grants: Grants.State)
    ensures Follows(w, w.(served := served)) && Follows(w, w.(grants := grants))
  {
    FollowsBy(w, w.(served := served), Stay(w.flows.Keys));
    FollowsBy(w, w.(grants := grants), Stay(w.flows.Keys));
  }

  lemma StepFollows(cfg: Config, ttl: Lifetimes, w: State, step: Step)
    requires Held(w) && Enabled(ttl, w, step)
    ensures Follows(w, Next(cfg, ttl, w, step))
  {
    match step
    case Serve(serve) => ServeFollows(w, Replicas.Next(cfg, w.served, serve), w.grants);
    case Grant(grant) => ServeFollows(w, w.served, Grants.Next(ttl, w.grants, grant));
    case Judging(judge) => JudgeFollows(ttl, w, judge);
    case Flowing(flow) => FlowFollows(w, flow);
    case Writing(write) => WriteFollows(cfg, ttl, w, write);
    case Calling(call) => CallFollows(ttl, w, call);
    case Purging(purge) => PurgeFollows(ttl, w, purge);
  }

  // ---------- whole runs ----------

  lemma ReachableHeld(cfg: Config, ttl: Lifetimes, w: State)
    requires Reachable(cfg, ttl, w)
    ensures Held(w)
  {
    ReachableInv(cfg, ttl, w);
    forall tx | tx in w.writes ensures tx in w.served.targets.fences {
      assert WriteOk(w.history, w.served.targets.fences, tx, w.writes[tx]);
    }
  }

  lemma {:induction false} RunsKeepOnePlace(cfg: Config, ttl: Lifetimes, a: State, steps: seq<Step>, b: State)
    requires Reachable(cfg, ttl, a) && InOnePlace(TrackOf(a)) && Reaches(cfg, ttl, a, steps, b)
    ensures InOnePlace(TrackOf(b))
    decreases |steps|
  {
    if steps != [] {
      var m := Next(cfg, ttl, a, steps[0]);
      ReachableHeld(cfg, ttl, a);
      StepFollows(cfg, ttl, a, steps[0]);
      var move :| CanMove(TrackOf(a), move) && TrackOf(m) == Moved(TrackOf(a), move);
      MovesKeep(TrackOf(a), move);
      OneStepFurther(cfg, ttl, a, steps[0]);
      RunsKeepOnePlace(cfg, ttl, m, steps[1..], b);
    }
  }

  /** No two sessions there have ever been came of one flow; and a flow one came of is not waiting to
      be approved or redeemed, at a callback, or in a transaction that will insert another. */
  lemma OneSessionToAnApproval(cfg: Config, ttl: Lifetimes, w: State, a: Secret)
    requires Reachable(cfg, ttl, w) && a in w.history.origins
    ensures var flow := w.history.origins[a].flow;
            && (forall b :: b in w.history.origins && w.history.origins[b].flow == flow ==> b == a)
            && flow !in w.pending && flow !in w.flows && flow !in w.callbacks
            && (forall tx :: tx in w.writes && w.writes[tx].InsertSession? ==> w.writes[tx].flow != flow)
  {
    var steps :| Reaches(cfg, ttl, INITIAL, steps, w);
    assert Reaches(cfg, ttl, INITIAL, [], INITIAL);
    RunsKeepOnePlace(cfg, ttl, INITIAL, steps, w);
    var t := TrackOf(w);
    assert t.sessions[a] in t.sessions.Values;
    forall tx | tx in w.writes && w.writes[tx].InsertSession? ensures w.writes[tx].flow != w.history.origins[a].flow {
      assert t.inserts[tx] in t.inserts.Values;
    }
    forall b | b in w.history.origins && w.history.origins[b].flow == w.history.origins[a].flow ensures b == a {
      assert t.sessions[b] == t.sessions[a];
    }
  }
}
