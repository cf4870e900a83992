/** The tables of the OAuth side and what each statement on them reads or writes (store.go).
    Bearer values are stored hashed; the hash is taken to be injective, so a row is keyed
    here by the value itself. Times are in seconds. */
module OAuthTables {
  import opened Wrappers
  import opened Bytes
  import opened Stamps
  import opened Sealing

  // What newSecret returns: session and flow ids, codes, tokens.
  type Secret = nat

  datatype UpstreamToken = UpstreamToken(access: nat, refresh: Option<nat>, expiresAt: Option<int>)

  datatype Session = Session(
    subject: Text,
    resource: Text,
    target: Text,
    stamp: Stamp,
    token: Sealed<UpstreamToken>,
    createdAt: int)

  datatype AuthCode = AuthCode(session: Secret, client: Text, redirect: Text, challenge: Text, createdAt: int)

  datatype Access = Access(session: Secret, client: Text, expiresAt: int)

  datatype Refresh = Refresh(session: Secret, client: Text, used: bool, createdAt: int)

  datatype Tables = Tables(
    sessions: map<Secret, Session>,
    codes: map<Secret, AuthCode>,
    access: map<Secret, Access>,
    refresh: map<Secret, Refresh>)

  const EMPTY: Tables := Tables(map[], map[], map[], map[])

  const HOUR: int := 3600
  const DAY: int := 86400
  const FLOW_TTL: int := 600
  const CODE_TTL: int := 60
  const ACCESS_TTL: int := 12 * HOUR

  // REFRESH_TOKEN_TTL and SESSION_TTL.
  datatype Lifetimes = Lifetimes(refresh: int, session: int)

  // The S256 challenge of a verifier. Which function it is plays no part here.
  const S256: Text -> Text

  // ---------- statements ----------

  // The row TakeAuthCode deletes.
  function LiveCode(db: Tables, code: Secret, now: int): Option<AuthCode> {
    if code in db.codes && db.codes[code].createdAt > now - CODE_TTL then Some(db.codes[code]) else None
  }

  function WithoutCode(db: Tables, code: Secret): Tables { db.(codes := db.codes - {code}) }

  // The row takeRefreshToken marks used. The client is matched in the same statement.
  function LiveRefresh(db: Tables, ttl: Lifetimes, token: Secret, client: Text, now: int): Option<Refresh> {
    if token in db.refresh
      && !db.refresh[token].used
      && db.refresh[token].client == client
      && db.refresh[token].createdAt > now - ttl.refresh
      && db.refresh[token].session in db.sessions
      && db.sessions[db.refresh[token].session].createdAt > now - ttl.session
    then Some(db.refresh[token]) else None
  }

  function MarkedUsed(db: Tables, token: Secret): Tables
    requires token in db.refresh
  {
    db.(refresh := db.refresh[token := db.refresh[token].(used := true)])
  }

  // The second statement of takeRefreshToken, which names no client.
  function ReuseProbe(db: Tables, token: Secret): Option<Secret> {
    if token in db.refresh && db.refresh[token].used then Some(db.refresh[token].session) else None
  }

  datatype Pair = Pair(access: Secret, refresh: Secret, session: Secret, client: Text)

  function WithPair(db: Tables, p: Pair, now: int): Tables {
    db.(access := db.access[p.access := Access(p.session, p.client, now + ACCESS_TTL)],
        refresh := db.refresh[p.refresh := Refresh(p.session, p.client, false, now)])
  }

  // DELETE FROM sessions, with the cascade to everything issued against them.
  function WithoutSessions(db: Tables, ids: set<Secret>): Tables {
    Tables(
      map id | id in db.sessions && id !in ids :: db.sessions[id],
      map c | c in db.codes && db.codes[c].session !in ids :: db.codes[c],
      map t | t in db.access && db.access[t].session !in ids :: db.access[t],
      map t | t in db.refresh && db.refresh[t].session !in ids :: db.refresh[t])
  }

  // SessionForToken: either kind of token, expired or not.
  function SessionForToken(db: Tables, token: Secret): Option<Secret> {
    if token in db.access then Some(db.access[token].session)
    else if token in db.refresh then Some(db.refresh[token].session)
    else None
  }

  // LookupAccessToken, without the join that reads the current stamp.
  function LookupAccess(db: Tables, ttl: Lifetimes, token: Secret, now: int): Option<(Secret, Session)> {
    if token in db.access
      && db.access[token].expiresAt > now
      && db.access[token].session in db.sessions
      && db.sessions[db.access[token].session].createdAt > now - ttl.session
    then Some((db.access[token].session, db.sessions[db.access[token].session])) else None
  }

  function SessionToken(db: Tables, ttl: Lifetimes, id: Secret, stamp: Stamp, now: int): Option<Sealed<UpstreamToken>> {
    if id in db.sessions && db.sessions[id].stamp == stamp && db.sessions[id].createdAt > now - ttl.session
    then Some(db.sessions[id].token) else None
  }

  // The UPDATE of UpdateSessionToken. No row of that id and stamp is ErrNotFound.
  function WithToken(db: Tables, id: Secret, stamp: Stamp, token: Sealed<UpstreamToken>): Tables {
    if id in db.sessions && db.sessions[id].stamp == stamp
    then db.(sessions := db.sessions[id := db.sessions[id].(token := token)]) else db
  }

  // What a request for tokens says of the code it presents.
  datatype CodeRequest = CodeRequest(code: Secret, client: Text, redirect: Text, verifier: Text)

  // What a stored code demands of its exchange (RFC 7636 section 4.6).
  predicate Proves(rec: AuthCode, x: CodeRequest) {
    rec.client == x.client && rec.redirect == x.redirect && x.verifier != [] && S256(x.verifier) == rec.challenge
  }

  datatype Mismatch = WrongClient | WrongRedirect | PKCEFailed

  // codeExchangeMismatch: nothing exactly when the exchange proves what the code demands.
  function CodeExchangeMismatch(rec: AuthCode, x: CodeRequest): (m: Option<Mismatch>)
    ensures m.None? <==> Proves(rec, x)
  {
    if rec.client != x.client then Some(WrongClient)
    else if rec.redirect != x.redirect then Some(WrongRedirect)
    else if x.verifier == [] || S256(x.verifier) != rec.challenge then Some(PKCEFailed)
    else None
  }
}
