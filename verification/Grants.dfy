/** The grant store as a transition system: callbacks, code exchanges, refreshes, revocations
    and sweeps, interleaved statement by statement (store.go, oauth.go).

    A `Grant` is a transaction. What it took it holds locked and unchanged until it commits,
    so an open one is its locks and what its commit will write. */
module Grants {
  import opened Wrappers
  import opened Bytes
  import opened OAuthTables
  import opened Stamps
  import opened Sealing

  datatype Took = Nothing | TookCode(x: CodeRequest, rec: AuthCode) | TookRefresh(token: Secret, row: Refresh)
  {
    predicate Any() { !Nothing? }

    function Session(): Secret
      requires Any()
    {
      if TookCode? then rec.session else row.session
    }

    function Client(): Text
      requires Any()
    {
      if TookCode? then rec.client else row.client
    }
  }

  // `began` is what now() gives every statement of the transaction.
  datatype Grant = Grant(began: int, took: Took, pair: Option<Pair>)

  // What a callback between its two inserts will write in the code it owes.
  datatype Owed = Owed(client: Text, redirect: Text, challenge: Text)

  // A handler between the probe that saw reuse and the revocation.
  datatype Reuse = Reuse(token: Secret, session: Secret)

  type Tx = nat

  // The last three are history: every secret drawn, what the code of each session was to
  // demand, and the refresh tokens that grants which committed had consumed.
  datatype State = State(
    db: Tables,
    clock: int,
    grants: map<Tx, Grant>,
    owing: map<Secret, Owed>,
    reuses: map<Tx, Reuse>,
    drawn: set<Secret>,
    owner: map<Secret, Owed>,
    consumed: set<Secret>)

  const INITIAL: State := State(EMPTY, 0, map[], map[], map[], {}, map[], {})

  datatype Step =
    | Tick(now: int)
    | OpenSession(id: Secret, session: Session, owed: Owed)
    | IssueCode(id: Secret, code: Secret, at: int)
    | DropOwed(id: Secret)
    | RewriteToken(id: Secret, stamp: Stamp, box: Sealed<UpstreamToken>)
    | Begin(tx: Tx)
    | TakeCode(tx: Tx, x: CodeRequest)
    | SpendMismatched(tx: Tx)
    | TakeRefresh(tx: Tx, token: Secret, client: Text)
    | CreatePair(tx: Tx, access: Secret, refresh: Secret)
    | Commit(tx: Tx)
    | Rollback(tx: Tx)
    | Probe(tx: Tx, token: Secret)
    | RevokeReused(tx: Tx)
    | DeleteSessions(ids: set<Secret>)
    | DeleteCodes(codes: set<Secret>)
    | DeleteAccess(tokens: set<Secret>)
    | DeleteRefresh(tokens: set<Secret>)

  predicate CodeLocked(s: State, code: Secret) {
    exists tx :: tx in s.grants && s.grants[tx].took.TookCode? && s.grants[tx].took.x.code == code
  }

  predicate RefreshLocked(s: State, token: Secret) {
    exists tx :: tx in s.grants && s.grants[tx].took.TookRefresh? && s.grants[tx].took.token == token
  }

  // Deleting a session takes its row and, by cascade, those of its codes and tokens. A grant
  // holds the row it took, and the session's once it has inserted against it.
  predicate SessionLocked(s: State, id: Secret) {
    exists tx :: tx in s.grants && s.grants[tx].took.Any() && s.grants[tx].took.Session() == id
  }

  predicate Enabled(ttl: Lifetimes, s: State, step: Step) {
    match step
    case Tick(now) => s.clock <= now
    case OpenSession(id, session, owed) => id !in s.drawn && session.createdAt <= s.clock
    case IssueCode(id, code, at) => id in s.owing && id in s.db.sessions && code !in s.drawn && at <= s.clock
    case DropOwed(id) => id in s.owing
    case RewriteToken(_, _, _) => true
    case Begin(tx) => tx !in s.grants
    case TakeCode(tx, x) =>
      && tx in s.grants && s.grants[tx].took.Nothing?
      && LiveCode(s.db, x.code, s.grants[tx].began).Some? && !CodeLocked(s, x.code)
    case SpendMismatched(tx) =>
      && tx in s.grants && s.grants[tx].took.TookCode? && s.grants[tx].pair.None?
      && !Proves(s.grants[tx].took.rec, s.grants[tx].took.x)
    case TakeRefresh(tx, token, client) =>
      && tx in s.grants && s.grants[tx].took.Nothing?
      && LiveRefresh(s.db, ttl, token, client, s.grants[tx].began).Some? && !RefreshLocked(s, token)
    case CreatePair(tx, access, refresh) =>
      && tx in s.grants && s.grants[tx].took.Any() && s.grants[tx].pair.None?
      && (s.grants[tx].took.TookCode? ==> Proves(s.grants[tx].took.rec, s.grants[tx].took.x))
      && s.grants[tx].took.Session() in s.db.sessions
      && access !in s.drawn && refresh !in s.drawn && access != refresh
    case Commit(tx) => tx in s.grants && s.grants[tx].pair.Some?
    case Rollback(tx) => tx in s.grants
    case Probe(tx, token) => tx !in s.reuses && ReuseProbe(s.db, token).Some?
    case RevokeReused(tx) => tx in s.reuses && !SessionLocked(s, s.reuses[tx].session)
    case DeleteSessions(ids) => forall id :: id in ids ==> !SessionLocked(s, id)
    case DeleteCodes(codes) => forall c :: c in codes ==> !CodeLocked(s, c)
    case DeleteAccess(tokens) => true
    case DeleteRefresh(tokens) => forall t :: t in tokens ==> !RefreshLocked(s, t)
  }

  // What a grant's commit writes for the thing it took.
  function Consumed(db: Tables, took: Took): Tables {
    match took
    case Nothing => db
    case TookCode(x, _) => WithoutCode(db, x.code)
    case TookRefresh(token, _) => if token in db.refresh then MarkedUsed(db, token) else db
  }

  function Next(ttl: Lifetimes, s: State, step: Step): State
    requires Enabled(ttl, s, step)
  {
    match step
    case Tick(now) => s.(clock := now)
    case OpenSession(id, session, owed) =>
      s.(db := s.db.(sessions := s.db.sessions[id := session]),
         owing := s.owing[id := owed],
         owner := s.owner[id := owed],
         drawn := s.drawn + {id})
    case IssueCode(id, code, at) =>
      var o := s.owing[id];
      s.(db := s.db.(codes := s.db.codes[code := AuthCode(id, o.client, o.redirect, o.challenge, at)]),
         owing := s.owing - {id},
         drawn := s.drawn + {code})
    case DropOwed(id) => s.(owing := s.owing - {id})
    case RewriteToken(id, stamp, box) => s.(db := WithToken(s.db, id, stamp, box))
    case Begin(tx) => s.(grants := s.grants[tx := Grant(s.clock, Nothing, None)])
    case TakeCode(tx, x) =>
      s.(grants := s.grants[tx := s.grants[tx].(took := TookCode(x, s.db.codes[x.code]))])
    case SpendMismatched(tx) =>
      s.(db := Consumed(s.db, s.grants[tx].took), grants := s.grants - {tx})
    case TakeRefresh(tx, token, client) =>
      s.(grants := s.grants[tx := s.grants[tx].(took := TookRefresh(token, s.db.refresh[token]))])
    case CreatePair(tx, access, refresh) =>
      var g := s.grants[tx];
      s.(grants := s.grants[tx := g.(pair := Some(Pair(access, refresh, g.took.Session(), g.took.Client())))],
         drawn := s.drawn + {access, refresh})
    case Commit(tx) =>
      var g := s.grants[tx];
      s.(db := WithPair(Consumed(s.db, g.took), g.pair.value, g.began),
         grants := s.grants - {tx},
         consumed := if g.took.TookRefresh? then s.consumed + {g.took.token} else s.consumed)
    case Rollback(tx) => s.(grants := s.grants - {tx})
    case Probe(tx, token) =>
      s.(reuses := s.reuses[tx := Reuse(token, ReuseProbe(s.db, token).value)])
    case RevokeReused(tx) =>
      s.(db := WithoutSessions(s.db, {s.reuses[tx].session}), reuses := s.reuses - {tx})
    case DeleteSessions(ids) => s.(db := WithoutSessions(s.db, ids))
    case DeleteCodes(codes) => s.(db := s.db.(codes := s.db.codes - codes))
    case DeleteAccess(tokens) => s.(db := s.db.(access := s.db.access - tokens))
    case DeleteRefresh(tokens) => s.(db := s.db.(refresh := s.db.refresh - tokens))
  }
}
