/** Refreshing the provider's token in one process: any number of concurrent requests, each
    through currentUpstreamToken and persistRefreshed (proxy.go), against a provider that
    rotates its refresh tokens, while sessions are revoked and stamps retired. */
module UpstreamRefresh {
  import opened Wrappers
  import opened Stamps
  import opened OAuthTables

  datatype Held = Held(stamp: Stamp, token: UpstreamToken)

  // Where a request has got to. From `Holding` to the answer it has the session's stripe.
  // `gaveUp` is the token a failed request had presented and the provider had retired.
  datatype Request =
    | Waiting(session: Secret, stamp: Stamp)
    | Holding(session: Secret, stamp: Stamp)
    | Reread(session: Secret, stamp: Stamp, token: UpstreamToken)
    | Exchanged(session: Secret, stamp: Stamp, presented: nat, refreshed: UpstreamToken, attempts: nat)
    | Returned(session: Secret, token: UpstreamToken, anew: bool)
    | Failed(session: Secret, gaveUp: Option<nat>)

  predicate HasStripe(r: Request) { r.Holding? || r.Reread? || r.Exchanged? }

  // Which of the mutexes a session hashes to. Sharing one is allowed, so nothing depends on
  // which.
  const STRIPE: Secret -> nat

  const ATTEMPTS: nat := 3

  // `sessions` holds what the rows do. `retired` is the provider's side: the refresh tokens
  // it will not honour again. History: which session each refresh token was issued to, every
  // session there has been, and the requests that failed after the provider had retired the
  // token they presented.
  datatype State = State(
    sessions: map<Secret, Held>,
    live: set<Stamp>,
    clock: int,
    requests: map<nat, Request>,
    locks: map<nat, nat>,
    retired: set<nat>,
    issuedTo: map<nat, Secret>,
    everOpened: set<Secret>,
    lost: map<nat, nat>)

  const INITIAL: State := State(map[], {}, 0, map[], map[], {}, map[], {}, map[])

  // Within a minute of expiry counts as expired.
  predicate IsExpired(t: UpstreamToken, now: int) { t.expiresAt.Some? && now + 60 > t.expiresAt.value }

  datatype Outcome =
    | Refused
    | Rotated(access: nat, refresh: nat, expiresAt: Option<int>)
    | Kept(access: nat, expiresAt: Option<int>)
    | AnswerLost

  // What UpdateSessionToken reports. A commit may succeed and its report be lost.
  datatype Report = Stored | NotFound | StaleTarget | FailedUnstored | FailedStored

  datatype Step =
    | Tick(now: int)
    | OpenSession(id: Secret, held: Held)
    | Revoke(id: Secret)
    | SetLive(live: set<Stamp>)
    | Start(req: nat, session: Secret, stamp: Stamp)
    | Lock(req: nat)
    | Read(req: nat)
    | Exchange(req: nat, outcome: Outcome)
    | Persist(req: nat, report: Report)
    | Cancel(req: nat)

  predicate Reads(s: State, id: Secret, stamp: Stamp) { id in s.sessions && s.sessions[id].stamp == stamp }

  // The update finds the row, and for an admin stamp the fence finds it current.
  predicate CanStore(s: State, id: Secret, stamp: Stamp) {
    Reads(s, id, stamp) && (stamp.IsAdmin() ==> stamp in s.live)
  }

  predicate CanReport(s: State, r: Request, report: Report)
    requires r.Exchanged?
  {
    match report
    case Stored => CanStore(s, r.session, r.stamp)
    case FailedStored => CanStore(s, r.session, r.stamp)
    case NotFound => !Reads(s, r.session, r.stamp)
    case StaleTarget => r.stamp.IsAdmin() && r.stamp !in s.live
    case FailedUnstored => true
  }

  predicate Enabled(s: State, step: Step) {
    match step
    case Tick(now) => s.clock <= now
    case OpenSession(id, held) =>
      id !in s.everOpened && (held.token.refresh.Some? ==> held.token.refresh.value !in s.issuedTo)
    case Revoke(id) => true
    case SetLive(live) => true
    case Start(req, session, stamp) => req !in s.requests
    case Lock(req) => req in s.requests && s.requests[req].Waiting? && STRIPE(s.requests[req].session) !in s.locks
    case Read(req) => req in s.requests && s.requests[req].Holding?
    case Exchange(req, outcome) =>
      && req in s.requests && s.requests[req].Reread? && s.requests[req].token.refresh.Some?
      && (outcome.Rotated? ==> outcome.refresh !in s.issuedTo)
      && (s.requests[req].token.refresh.value in s.retired ==> outcome.Refused?)
    case Persist(req, report) =>
      && req in s.requests && s.requests[req].Exchanged?
      && CanReport(s, s.requests[req], report)
    case Cancel(req) => req in s.requests && s.requests[req].Exchanged? && s.requests[req].attempts > 0
  }

  function Unlocked(s: State, req: nat, r: Request): State
    requires req in s.requests
  {
    s.(requests := s.requests[req := r], locks := s.locks - {STRIPE(s.requests[req].session)})
  }

  // A request that gives up after the provider retired what it presented.
  function GivenUp(s: State, req: nat): State
    requires req in s.requests && s.requests[req].Exchanged?
  {
    var r := s.requests[req];
    if r.presented in s.retired then
      Unlocked(s, req, Failed(r.session, Some(r.presented))).(lost := s.lost[r.presented := req])
    else Unlocked(s, req, Failed(r.session, None))
  }

  function Stores(s: State, r: Request): State
    requires r.Exchanged? && r.session in s.sessions
  {
    s.(sessions := s.sessions[r.session := s.sessions[r.session].(token := r.refreshed)])
  }

  // After an error that may clear: another attempt, or the last one was it.
  function Retried(s: State, req: nat): State
    requires req in s.requests && s.requests[req].Exchanged?
  {
    var r := s.requests[req];
    if r.attempts + 1 < ATTEMPTS then s.(requests := s.requests[req := r.(attempts := r.attempts + 1)])
    else GivenUp(s, req)
  }

  function Next(s: State, step: Step): State
    requires Enabled(s, step)
  {
    match step
    case Tick(now) => s.(clock := now)
    case OpenSession(id, held) =>
      s.(sessions := s.sessions[id := held], everOpened := s.everOpened + {id},
         issuedTo := if held.token.refresh.Some? then s.issuedTo[held.token.refresh.value := id] else s.issuedTo)
    case Revoke(id) => s.(sessions := s.sessions - {id})
    case SetLive(live) => s.(live := live)
    case Start(req, session, stamp) =>
      s.(requests := s.requests[req :=
        if !Reads(s, session, stamp) then Failed(session, None)
        else if !IsExpired(s.sessions[session].token, s.clock) then Returned(session, s.sessions[session].token, false)
        else if s.sessions[session].token.refresh.None? then Failed(session, None)
        else Waiting(session, stamp)])
    case Lock(req) =>
      var r := s.requests[req];
      s.(requests := s.requests[req := Holding(r.session, r.stamp)], locks := s.locks[STRIPE(r.session) := req])
    case Read(req) =>
      var r := s.requests[req];
      if !Reads(s, r.session, r.stamp) then Unlocked(s, req, Failed(r.session, None))
      else
        var token := s.sessions[r.session].token;
        if !IsExpired(token, s.clock) then Unlocked(s, req, Returned(r.session, token, false))
        else if token.refresh.None? then Unlocked(s, req, Failed(r.session, None))
        else s.(requests := s.requests[req := Reread(r.session, r.stamp, token)])
    case Exchange(req, outcome) => ExchangeNext(s, req, outcome)
    case Persist(req, report) =>
      var r := s.requests[req];
      (match report
       case Stored => Unlocked(Stores(s, r), req, Returned(r.session, r.refreshed, true))
       case NotFound => GivenUp(s, req)
       case StaleTarget => GivenUp(s, req)
       case FailedUnstored => Retried(s, req)
       case FailedStored => Retried(Stores(s, r), req))
    case Cancel(req) => GivenUp(s, req)
  }

  function ExchangeNext(s: State, req: nat, outcome: Outcome): State
    requires Enabled(s, Exchange(req, outcome))
  {
    var r := s.requests[req];
    var presented := r.token.refresh.value;
    match outcome
    case Refused => Unlocked(s, req, Failed(r.session, None))
    case Rotated(access, refresh, expiresAt) =>
      s.(requests := s.requests[req := Exchanged(r.session, r.stamp, presented, UpstreamToken(access, Some(refresh), expiresAt), 0)],
         retired := s.retired + {presented}, issuedTo := s.issuedTo[refresh := r.session])
    case Kept(access, expiresAt) =>
      s.(requests := s.requests[req := Exchanged(r.session, r.stamp, presented, UpstreamToken(access, Some(presented), expiresAt), 0)])
    case AnswerLost =>
      Unlocked(s, req, Failed(r.session, Some(presented))).(
        retired := s.retired + {presented}, lost := s.lost[presented := req])
  }
}
