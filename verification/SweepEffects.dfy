/** Exactly which answers a sweep changes. */
module SweepEffects {
  import opened Wrappers
  import opened Bytes
  import opened Stamps
  import opened Sealing
  import opened OAuthTables
  import opened Disk
  import opened SweepSafety
  import Targets

  // ---------- what the deletes by age change ----------

  // The deletes by age take this session: it is past its lifetime, or over an hour old with no
  // row that is kept.
  predicate Taken(db: Tables, id: Secret, ttl: Lifetimes, s: int)
    requires id in db.sessions
  {
    db.sessions[id].createdAt < s - ttl.session || (db.sessions[id].createdAt < s - HOUR && !HasKept(db, id, ttl, s))
  }

  lemma ReferencedIsKept(db: Tables, ttl: Lifetimes, s: int, id: Secret)
    requires id in db.sessions && db.sessions[id].createdAt >= s - ttl.session
    ensures Referenced(WithinLifetime(Aged(db, ttl, s), ttl, s), id) <==> HasKept(db, id, ttl, s)
  {
    var aged := Aged(db, ttl, s);
    var living := WithinLifetime(aged, ttl, s);
    assert id !in Expired(aged, ttl, s);
    if t :| t in db.access && db.access[t].session == id && db.access[t].expiresAt >= s - DAY {
      assert t in living.access;
    }
    if t :| t in db.refresh && db.refresh[t].session == id && db.refresh[t].createdAt >= s - ttl.refresh - DAY {
      assert t in living.refresh;
    }
    if c :| c in db.codes && db.codes[c].session == id && db.codes[c].createdAt >= s - HOUR { assert c in living.codes; }
  }

  lemma TakenSessionsGo(d: Disk, ttl: Lifetimes, s: int, id: Secret)
    ensures var (before, after) := (d.oauth.sessions, Expiry(d, ttl, s).oauth.sessions);
            && (id in after <==> id in before && !Taken(d.oauth, id, ttl, s))
            && (id in after ==> after[id] == before[id])
  {
    if id in d.oauth.sessions && d.oauth.sessions[id].createdAt >= s - ttl.session { ReferencedIsKept(d.oauth, ttl, s, id); }
  }

  // All that the sweep deletes by age.
  function AgedDisk(d: Disk, ttl: Lifetimes, s: int): Disk { WithoutUnusedClients(Expiry(d, ttl, s), s) }

  // The call finds what it asks of by the session's id.
  predicate FindsById(d: Disk, ttl: Lifetimes, op: Op, now: int) {
    match op
    case IssueCode(id, _, _) => id in d.oauth.sessions
    case ReadToken(id, stamp) => SessionToken(d.oauth, ttl, id, stamp, now).Some?
    case ReadCredential(id) => CredentialOf(d, id).Some?
    case WriteToken(id, stamp, _, _) => HasRow(d.oauth, id, stamp)
    case _ => false
  }

  // What the deletes by age at s change, at any time from then on.
  predicate Changes(d: Disk, ttl: Lifetimes, s: int, op: Op, now: int) {
    || (ByCode(op) && LiveCode(d.oauth, op.code, now).Some? && LateCode(d.oauth, ttl, s, op.code))
    || (ById(op) && FindsById(d, ttl, op, now) && Taken(d.oauth, op.id, ttl, s))
    || (OfAnyAge(op) && OwnerOf(d.oauth, op).Some? && !OwnerKept(d.oauth, ttl, op, s))
    || (op.FindClient? && ClientGoes(d, ttl, s, op.client))
  }

  // A registration a day old, with no row that is kept of it.
  predicate ClientGoes(d: Disk, ttl: Lifetimes, s: int, client: Text) {
    client in d.clients && d.clients[client] < s - DAY && !ClientUsed(Expiry(d, ttl, s), client)
  }

  lemma ByIdChanges(d: Disk, ttl: Lifetimes, s: int, op: Op, now: int)
    requires ForeignKeys(d.oauth) && ById(op)
    ensures Ask(AgedDisk(d, ttl, s), ttl, op, now) != Ask(d, ttl, op, now) <==> Changes(d, ttl, s, op, now)
  {
    var e := AgedDisk(d, ttl, s);
    TakenSessionsGo(d, ttl, s, op.id);
    if op.id in e.oauth.sessions { ByIdOfTheSame(d, e, ttl, op, now); } else { ByIdOfNone(d, e, ttl, op, now); }
  }

  // An hour's codes are kept by age, and keep their session, unless that is past its lifetime.
  lemma LiveCodesStay(d: Disk, ttl: Lifetimes, s: int, code: Secret, now: int)
    requires ForeignKeys(d.oauth) && LiveCode(d.oauth, code, now).Some? && s <= now
    ensures LateCode(d.oauth, ttl, s, code) || LiveCode(Expiry(d, ttl, s).oauth, code, now) == LiveCode(d.oauth, code, now)
  {
    ExpiryIsAlike(d, ttl, s);
    if !LateCode(d.oauth, ttl, s, code) { assert KeptCode(d.oauth, code, ttl, s); }
  }

  lemma NoCodeAppears(d: Disk, ttl: Lifetimes, s: int, code: Secret, now: int)
    requires ForeignKeys(d.oauth) && LiveCode(d.oauth, code, now).None?
    ensures LiveCode(Expiry(d, ttl, s).oauth, code, now).None?
  {
    ExpiryIsAlike(d, ttl, s);
  }

  lemma ByCodeChanges(d: Disk, ttl: Lifetimes, s: int, op: Op, now: int)
    requires ForeignKeys(d.oauth) && ByCode(op) && s <= now
    ensures Ask(AgedDisk(d, ttl, s), ttl, op, now) != Ask(d, ttl, op, now) <==> Changes(d, ttl, s, op, now)
  {
    if LiveCode(d.oauth, op.code, now).None? { NoCodeAppears(d, ttl, s, op.code, now); }
    else if LateCode(d.oauth, ttl, s, op.code) { LateCodeGoes(d, ttl, s, op.code); }
    else { LiveCodesStay(d, ttl, s, op.code, now); }
  }

  // Tokens of any age are as they were, or gone.
  lemma AccessGoes(d: Disk, ttl: Lifetimes, s: int, token: Secret)
    requires ForeignKeys(d.oauth)
    ensures var (before, after) := (d.oauth.access, Expiry(d, ttl, s).oauth.access);
            && (token in after <==> token in before && AccessKept(d.oauth, token, ttl, s))
            && (token in after ==> after[token] == before[token])
  {
    ExpiryIsAlike(d, ttl, s);
  }

  lemma RefreshGoes(d: Disk, ttl: Lifetimes, s: int, token: Secret)
    requires ForeignKeys(d.oauth)
    ensures var (before, after) := (d.oauth.refresh, Expiry(d, ttl, s).oauth.refresh);
            && (token in after <==> token in before && TokenKept(d.oauth, token, ttl, s))
            && (token in after ==> after[token] == before[token])
  {
    ExpiryIsAlike(d, ttl, s);
  }

  lemma OwnersGo(d: Disk, ttl: Lifetimes, s: int, op: Op)
    requires ForeignKeys(d.oauth) && OfAnyAge(op)
    ensures OwnerOf(Expiry(d, ttl, s).oauth, op) == if OwnerKept(d.oauth, ttl, op, s) then OwnerOf(d.oauth, op) else None
  {
    if op.FindByAccess? { AccessGoes(d, ttl, s, op.token); } else { RefreshGoes(d, ttl, s, op.token); }
  }

  lemma OfAnyAgeChanges(d: Disk, ttl: Lifetimes, s: int, op: Op, now: int)
    requires ForeignKeys(d.oauth) && OfAnyAge(op)
    ensures Ask(AgedDisk(d, ttl, s), ttl, op, now) != Ask(d, ttl, op, now) <==> Changes(d, ttl, s, op, now)
  {
    OwnersGo(d, ttl, s, op);
  }

  lemma FindClientChanges(d: Disk, ttl: Lifetimes, s: int, op: Op, now: int)
    requires op.FindClient?
    ensures Ask(AgedDisk(d, ttl, s), ttl, op, now) != Ask(d, ttl, op, now) <==> Changes(d, ttl, s, op, now)
  {
  }

  /** Exactly what the deletes by age change. From s on, a call is told other than it would have
      been if and only if it goes by a code that can still be exchanged, of a session that was past
      SESSION_TTL at s; by the id of a session that it would have found, and that was past
      SESSION_TTL at s, or abandoned; by a token of any age whose row was not kept at s; or by a
      registration that was a day old with no row kept of it. */
  lemma ExpiryChangesExactly(d: Disk, ttl: Lifetimes, s: int, op: Op, now: int)
    requires ForeignKeys(d.oauth) && s <= now
    ensures Ask(AgedDisk(d, ttl, s), ttl, op, now) != Ask(d, ttl, op, now) <==> Changes(d, ttl, s, op, now)
  {
    if ById(op) { ByIdChanges(d, ttl, s, op, now); }
    else if ByCode(op) { ByCodeChanges(d, ttl, s, op, now); }
    else if OfAnyAge(op) { OfAnyAgeChanges(d, ttl, s, op, now); }
    else if op.FindClient? { FindClientChanges(d, ttl, s, op, now); }
    else {
      ExpiryIsAlike(d, ttl, s);
      AlikeButForCodes(d, AgedDisk(d, ttl, s), ttl, s, op, now);
    }
  }

  predicate ByLiveRows(op: Op) { ByCode(op) || !ByOldRows(op) }

  /** So for the calls that go by a flow, a login, or a code or token that lives, nothing changes
      exactly when no code that can still be exchanged is of a session past its lifetime. */
  lemma LateCodesAreLost(d: Disk, ttl: Lifetimes, s: int)
    requires ForeignKeys(d.oauth)
    ensures NoLateCode(d.oauth, ttl, s) <==>
      forall op :: ByLiveRows(op) ==> Ask(AgedDisk(d, ttl, s), ttl, op, s) == Ask(d, ttl, op, s)
  {
    forall op | ByLiveRows(op) ensures Ask(AgedDisk(d, ttl, s), ttl, op, s) == Ask(d, ttl, op, s) <==> !Changes(d, ttl, s, op, s) {
      ExpiryChangesExactly(d, ttl, s, op, s);
    }
    if c :| c in d.oauth.codes && LateCode(d.oauth, ttl, s, c) { assert Changes(d, ttl, s, SpendCode(c), s); }
  }

  lemma LateCodeGoes(d: Disk, ttl: Lifetimes, s: int, c: Secret)
    requires LateCode(d.oauth, ttl, s, c)
    ensures c !in Expiry(d, ttl, s).oauth.codes
  {
    assert d.oauth.codes[c].session in Expired(Aged(d.oauth, ttl, s), ttl, s);
    assert c !in WithinLifetime(Aged(d.oauth, ttl, s), ttl, s).codes;
  }

  const HALF_MINUTE: Lifetimes := Lifetimes(30, 30)

  const SOMEWHERE: Stamp := Stamp(Config, Core([], [], [], [], []))

  const A_SESSION: Session := Session([], [], [], SOMEWHERE, Sealed(UpstreamTokenFor(SOMEWHERE), UpstreamToken(1, None, None)), 0)

  const LATE: Disk :=
    Disk(Tables(map[1 := A_SESSION], map[2 := AuthCode(1, [], [], [], 1)], map[], map[]), map[], map[], map[], map[], map[])

  /** As when sessions last half a minute: a code written with its session can be exchanged for
      a minute, but a sweep at 40 seconds takes the session, and the code with it. */
  lemma ALateCode()
    ensures ForeignKeys(LATE.oauth) && !NoLateCode(LATE.oauth, HALF_MINUTE, 40)
    ensures Ask(LATE, HALF_MINUTE, SpendCode(2), 40).rec.Some?
    ensures Ask(AgedDisk(LATE, HALF_MINUTE, 40), HALF_MINUTE, SpendCode(2), 40).rec.None?
  {
    assert LateCode(LATE.oauth, HALF_MINUTE, 40, 2);
    LateCodeGoes(LATE, HALF_MINUTE, 40, 2);
  }

  // A session of half a minute with an access token and no code.
  const ENTERED: Disk :=
    Disk(Tables(map[1 := A_SESSION], map[], map[3 := Access(1, [], DAY)], map[]), map[], map[], map[], map[], map[])

  const A_WRITE: Op := WriteToken(1, SOMEWHERE, A_SESSION.token, true)

  const A_CODE: Op := IssueCode(1, 4, AuthCode(1, [], [], [], 40))

  // The deletes by age change what this call is told, and no late code is about.
  ghost predicate FailsLate(d: Disk, ttl: Lifetimes, op: Op, now: int) {
    ForeignKeys(d.oauth) && NoLateCode(d.oauth, ttl, now) && Ask(AgedDisk(d, ttl, now), ttl, op, now) != Ask(d, ttl, op, now)
  }

  lemma OldSessionsFail(d: Disk, ttl: Lifetimes, op: Op, now: int)
    requires ForeignKeys(d.oauth) && d.oauth.codes == map[] && ById(op) && FindsById(d, ttl, op, now)
    requires Taken(d.oauth, op.id, ttl, now)
    ensures FailsLate(d, ttl, op, now)
  {
    ExpiryChangesExactly(d, ttl, now, op, now);
  }

  /** And as when a request enters just before its session ends, or a callback has just opened one:
      it would have written its refreshed token back at 40 seconds, or its code, and after a sweep
      then finds no session to write to. */
  lemma ALateWrite()
    ensures LookupAccess(ENTERED.oauth, HALF_MINUTE, 3, 29).Some?
    ensures FailsLate(ENTERED, HALF_MINUTE, A_WRITE, 40) && Ask(ENTERED, HALF_MINUTE, A_WRITE, 40) == AWrite(Written)
    ensures FailsLate(ENTERED, HALF_MINUTE, A_CODE, 40) && Ask(ENTERED, HALF_MINUTE, A_CODE, 40) == ACodeStored(true)
  {
    OldSessionsFail(ENTERED, HALF_MINUTE, A_WRITE, 40);
    OldSessionsFail(ENTERED, HALF_MINUTE, A_CODE, 40);
  }

  /** SESSION_TTL of an hour and a minute is enough for that, codes being written within the
      hour of their session. */
  lemma LongSessionsHaveNoLateCode(db: Tables, ttl: Lifetimes, s: int)
    requires ttl.session >= HOUR + CODE_TTL
    requires forall c :: c in db.codes && db.codes[c].session in db.sessions ==>
      db.codes[c].createdAt <= db.sessions[db.codes[c].session].createdAt + HOUR
    ensures NoLateCode(db, ttl, s)
  {
  }

  // ---------- retention ----------

  /** A sweep forgets that a token was used exactly when the token is a day past its lifetime or
      its session is past its own. Until then a replay is seen. */
  lemma ReplaysAreForgottenLate(d: Disk, ttl: Lifetimes, s: int, token: Secret)
    requires ForeignKeys(d.oauth) && ReuseProbe(d.oauth, token).Some?
    ensures var probe := ReuseProbe(Expiry(d, ttl, s).oauth, token);
            && (probe.None? <==>
              || d.oauth.refresh[token].createdAt < s - ttl.refresh - DAY
              || d.oauth.sessions[d.oauth.refresh[token].session].createdAt < s - ttl.session)
            && (probe.Some? ==> probe == ReuseProbe(d.oauth, token))
  {
    RefreshGoes(d, ttl, s, token);
  }

  // A token of a month, used, of a session of three.
  const USED: Disk :=
    Disk(Tables(map[1 := A_SESSION], map[], map[], map[2 := Refresh(1, [], true, 0)]), map[], map[], map[], map[], map[])

  /** So the further lifetime the source's comment promises is not kept: 32 days on, a month and
      more before that would end, the replay is no longer seen. */
  lemma AReplayIsForgotten()
    ensures var (ttl, s) := (Lifetimes(30 * DAY, 90 * DAY), 32 * DAY);
            && s <= USED.oauth.refresh[2].createdAt + 2 * ttl.refresh
            && ReuseProbe(USED.oauth, 2) == Some(1) && ReuseProbe(Expiry(USED, ttl, s).oauth, 2) == None
  {
    ReplaysAreForgottenLate(USED, Lifetimes(30 * DAY, 90 * DAY), 32 * DAY, 2);
  }

  // A sweep within the further lifetime, and within the session's.
  predicate SweptWithin(made: int, ends: int, ttl: Lifetimes, s: int) { s <= made + 2 * ttl.refresh && s <= ends }

  ghost predicate KeptAFurtherLifetime(d: Disk, ttl: Lifetimes, token: Secret, made: int, ends: int) {
    forall s :: SweptWithin(made, ends, ttl, s) ==> ReuseProbe(Expiry(d, ttl, s).oauth, token).Some?
  }

  /** It is kept exactly when tokens last no more than a day, or this one's session ends within
      a day of it. */
  lemma AFurtherLifetimeIsKept(d: Disk, ttl: Lifetimes, token: Secret)
    requires ForeignKeys(d.oauth) && ReuseProbe(d.oauth, token).Some?
    ensures var made := d.oauth.refresh[token].createdAt;
            var ends := d.oauth.sessions[d.oauth.refresh[token].session].createdAt + ttl.session;
            KeptAFurtherLifetime(d, ttl, token, made, ends) <==> ttl.refresh <= DAY || ends <= made + ttl.refresh + DAY
  {
    var made := d.oauth.refresh[token].createdAt;
    var ends := d.oauth.sessions[d.oauth.refresh[token].session].createdAt + ttl.session;
    forall s ensures ReuseProbe(Expiry(d, ttl, s).oauth, token).None? <==> made < s - ttl.refresh - DAY || ends < s {
      ReplaysAreForgottenLate(d, ttl, s, token);
    }
    if ttl.refresh > DAY && ends > made + ttl.refresh + DAY {
      assert SweptWithin(made, ends, ttl, made + ttl.refresh + DAY + 1);
    }
  }

  // ---------- what the purge shows ----------

  // The target and stamp of the row a call turns on, when it finds one.
  ghost function FoundUnder(d: Disk, ttl: Lifetimes, op: Op, now: int): Option<(Text, Stamp)>
    requires ForeignKeys(d.oauth)
  {
    if ById(op) then
      if FindsById(d, ttl, op, now) then Some(StampOfSession(d.oauth.sessions[op.id])) else None
    else if ByCode(op) then
      if LiveCode(d.oauth, op.code, now).Some? then
        Some(StampOfSession(d.oauth.sessions[d.oauth.codes[op.code].session]))
      else None
    else if OfAnyAge(op) then
      match OwnerOf(d.oauth, op)
      case Some(id) => Some(StampOfSession(d.oauth.sessions[id]))
      case None => None
    else
      match Ask(d, ttl, op, now)
      case AFlow(Some(f)) => Some((f.target, f.stamp))
      case AGrant(Some((_, s))) => Some(StampOfSession(s))
      case ASession(Some((_, s)), _) => Some(StampOfSession(s))
      case _ => None
  }

  function StampOfSession(s: Session): (Text, Stamp) { (s.target, s.stamp) }

  ghost predicate FoundStale(d: Disk, ttl: Lifetimes, op: Op, now: int, rows: Targets.Rows, only: Text)
    requires ForeignKeys(d.oauth)
  {
    FoundUnder(d, ttl, op, now).Some?
    && Stale(rows, only, FoundUnder(d, ttl, op, now).value.0, FoundUnder(d, ttl, op, now).value.1)
  }

  lemma PurgedFlowAnswers(d: Disk, ttl: Lifetimes, rows: Targets.Rows, only: Text, op: Op, now: int)
    requires ForeignKeys(d.oauth) && (FlowOp(op) || LoginOp(op))
    ensures Ask(Purged(d, rows, only), ttl, op, now) != Ask(d, ttl, op, now) <==> FoundStale(d, ttl, op, now, rows, only)
  {
  }

  lemma PurgedCodes(db: Tables, gone: set<Secret>, code: Secret, now: int)
    ensures var rec := LiveCode(db, code, now);
            LiveCode(WithoutSessions(db, gone), code, now) ==
              if rec.Some? && rec.value.session in gone then None else rec
  {
  }

  lemma AskOfACode(d: Disk, ttl: Lifetimes, op: Op, now: int)
    requires ByCode(op)
    ensures Ask(d, ttl, op, now) == ACode(LiveCode(d.oauth, op.code, now))
  {
  }

  lemma PurgedCodeAnswers(d: Disk, ttl: Lifetimes, rows: Targets.Rows, only: Text, op: Op, now: int)
    requires ForeignKeys(d.oauth) && ByCode(op)
    ensures Ask(Purged(d, rows, only), ttl, op, now) != Ask(d, ttl, op, now) <==> FoundStale(d, ttl, op, now, rows, only)
  {
    AskOfACode(d, ttl, op, now);
    AskOfACode(Purged(d, rows, only), ttl, op, now);
    PurgedCodes(d.oauth, StaleSessions(d.oauth, rows, only), op.code, now);
  }

  lemma PurgedRefreshAnswers(d: Disk, ttl: Lifetimes, rows: Targets.Rows, only: Text, op: Op, now: int)
    requires ForeignKeys(d.oauth) && op.RefreshGrant?
    ensures Ask(Purged(d, rows, only), ttl, op, now) != Ask(d, ttl, op, now) <==> FoundStale(d, ttl, op, now, rows, only)
  {
    var gone := StaleSessions(d.oauth, rows, only);
    PurgedRefreshes(d.oauth, ttl, gone, op.token, op.client, now);
  }

  lemma PurgedRefreshes(db: Tables, ttl: Lifetimes, gone: set<Secret>, token: Secret, client: Text, now: int)
    ensures var row := LiveRefresh(db, ttl, token, client, now);
            LiveRefresh(WithoutSessions(db, gone), ttl, token, client, now) ==
              if row.Some? && row.value.session in gone then None else row
  {
  }

  lemma PurgedLookups(db: Tables, ttl: Lifetimes, gone: set<Secret>, token: Secret, now: int)
    ensures var found := LookupAccess(db, ttl, token, now);
            LookupAccess(WithoutSessions(db, gone), ttl, token, now) ==
              if found.Some? && found.value.0 in gone then None else found
  {
  }

  lemma PurgedEntryAnswers(d: Disk, ttl: Lifetimes, rows: Targets.Rows, only: Text, op: Op, now: int)
    requires ForeignKeys(d.oauth) && op.Enter?
    ensures Ask(Purged(d, rows, only), ttl, op, now) != Ask(d, ttl, op, now) <==> FoundStale(d, ttl, op, now, rows, only)
  {
    PurgedLookups(d.oauth, ttl, StaleSessions(d.oauth, rows, only), op.token, now);
  }

  lemma PurgedOwners(db: Tables, gone: set<Secret>, op: Op)
    requires OfAnyAge(op)
    ensures var owner := OwnerOf(db, op);
            OwnerOf(WithoutSessions(db, gone), op) == if owner.Some? && owner.value in gone then None else owner
  {
  }

  lemma PurgedOwnerAnswers(d: Disk, ttl: Lifetimes, rows: Targets.Rows, only: Text, op: Op, now: int)
    requires ForeignKeys(d.oauth) && OfAnyAge(op)
    ensures Ask(Purged(d, rows, only), ttl, op, now) != Ask(d, ttl, op, now) <==> FoundStale(d, ttl, op, now, rows, only)
  {
    PurgedOwners(d.oauth, StaleSessions(d.oauth, rows, only), op);
  }

  lemma PurgedSession(d: Disk, rows: Targets.Rows, only: Text, id: Secret)
    ensures var (before, after) := (d.oauth.sessions, Purged(d, rows, only).oauth.sessions);
            && (id in after <==> id in before && !Stale(rows, only, before[id].target, before[id].stamp))
            && (id in after ==> after[id] == before[id])
  {
  }

  // A credential that the purge takes is under its session's own target and stamp.
  lemma PurgedCredential(d: Disk, rows: Targets.Rows, only: Text, id: Secret)
    requires id in Purged(d, rows, only).oauth.sessions
    ensures CredentialOf(Purged(d, rows, only), id) == CredentialOf(d, id)
  {
    PurgedSession(d, rows, only, id);
  }

  lemma ByIdOfTheSame(d: Disk, e: Disk, ttl: Lifetimes, op: Op, now: int)
    requires ById(op) && op.id in d.oauth.sessions && op.id in e.oauth.sessions
    requires e.oauth.sessions[op.id] == d.oauth.sessions[op.id] && CredentialOf(e, op.id) == CredentialOf(d, op.id)
    ensures Ask(e, ttl, op, now) == Ask(d, ttl, op, now)
  {
  }

  // With no session to find, the answer differs exactly from one that found it.
  lemma ByIdOfNone(d: Disk, e: Disk, ttl: Lifetimes, op: Op, now: int)
    requires ById(op) && op.id !in e.oauth.sessions
    ensures Ask(e, ttl, op, now) != Ask(d, ttl, op, now) <==> FindsById(d, ttl, op, now)
  {
  }

  lemma PurgedByIdAnswers(d: Disk, ttl: Lifetimes, rows: Targets.Rows, only: Text, op: Op, now: int)
    requires ForeignKeys(d.oauth) && ById(op)
    ensures Ask(Purged(d, rows, only), ttl, op, now) != Ask(d, ttl, op, now) <==> FoundStale(d, ttl, op, now, rows, only)
  {
    var e := Purged(d, rows, only);
    PurgedSession(d, rows, only, op.id);
    if op.id in e.oauth.sessions {
      PurgedCredential(d, rows, only, op.id);
      ByIdOfTheSame(d, e, ttl, op, now);
    } else {
      ByIdOfNone(d, e, ttl, op, now);
    }
  }

  /** The purge changes an answer exactly when what the call would have found is stamped for an
      admin definition that no row carries any more. */
  lemma PurgeChangesExactlyTheStale(d: Disk, ttl: Lifetimes, rows: Targets.Rows, only: Text, op: Op, now: int)
    requires ForeignKeys(d.oauth)
    ensures Ask(Purged(d, rows, only), ttl, op, now) != Ask(d, ttl, op, now) <==> FoundStale(d, ttl, op, now, rows, only)
  {
    if FlowOp(op) || LoginOp(op) { PurgedFlowAnswers(d, ttl, rows, only, op, now); }
    else if op.SpendCode? || op.ExchangeCode? { PurgedCodeAnswers(d, ttl, rows, only, op, now); }
    else if op.RefreshGrant? { PurgedRefreshAnswers(d, ttl, rows, only, op, now); }
    else if op.Enter? { PurgedEntryAnswers(d, ttl, rows, only, op, now); }
    else if ById(op) { PurgedByIdAnswers(d, ttl, rows, only, op, now); }
    else if OfAnyAge(op) { PurgedOwnerAnswers(d, ttl, rows, only, op, now); }
  }

  // What the deletes by age leave the same, the purge goes by the same row of.
  lemma FoundUnderTheSame(d: Disk, e: Disk, ttl: Lifetimes, op: Op, now: int)
    requires ForeignKeys(d.oauth) && ForeignKeys(e.oauth)
    requires Part(d.oauth.sessions, e.oauth.sessions) && Part(d.oauth.codes, e.oauth.codes)
    requires Ask(e, ttl, op, now) == Ask(d, ttl, op, now)
    ensures FoundUnder(e, ttl, op, now) == FoundUnder(d, ttl, op, now)
  {
    if ById(op) { SameFindsById(d, e, ttl, op, now); }
  }

  lemma SameFindsById(d: Disk, e: Disk, ttl: Lifetimes, op: Op, now: int)
    requires Part(d.oauth.sessions, e.oauth.sessions) && ById(op) && Ask(e, ttl, op, now) == Ask(d, ttl, op, now)
    ensures FindsById(e, ttl, op, now) == FindsById(d, ttl, op, now)
    ensures FindsById(e, ttl, op, now) ==> op.id in d.oauth.sessions && e.oauth.sessions[op.id] == d.oauth.sessions[op.id]
  {
  }

  // A call that the deletes by age have left with nothing finds nothing for the purge to take.
  lemma NothingFoundUnder(d: Disk, ttl: Lifetimes, s: int, op: Op, now: int)
    requires ForeignKeys(d.oauth) && ForeignKeys(AgedDisk(d, ttl, s).oauth) && Changes(d, ttl, s, op, now)
    ensures FoundUnder(AgedDisk(d, ttl, s), ttl, op, now) == None
  {
    if ById(op) {
      TakenSessionsGo(d, ttl, s, op.id);
      AbsentIsNotFound(AgedDisk(d, ttl, s), ttl, op, now);
    } else if ByCode(op) {
      LateCodeGoes(d, ttl, s, op.code);
      AbsentCodeIsNotFound(AgedDisk(d, ttl, s), ttl, op, now);
    } else if OfAnyAge(op) {
      OwnersGo(d, ttl, s, op);
    }
  }

  lemma AbsentCodeIsNotFound(e: Disk, ttl: Lifetimes, op: Op, now: int)
    requires ForeignKeys(e.oauth) && ByCode(op) && op.code !in e.oauth.codes
    ensures FoundUnder(e, ttl, op, now) == None
  {
  }

  lemma AbsentIsNotFound(e: Disk, ttl: Lifetimes, op: Op, now: int)
    requires ForeignKeys(e.oauth) && ById(op) && op.id !in e.oauth.sessions
    ensures FoundUnder(e, ttl, op, now) == None
  {
  }

  /** And exactly what a whole sweep changes, to any call at any later time: what its deletes by
      age change, and what would have come from a row of a retired stamp. */
  lemma SweepChangesExactly(d: Disk, ttl: Lifetimes, rows: Targets.Rows, s: int, op: Op, now: int)
    requires ForeignKeys(d.oauth) && s <= now
    ensures Ask(Swept(d, ttl, rows, s), ttl, op, now) != Ask(d, ttl, op, now)
       <==> Changes(d, ttl, s, op, now) || FoundStale(d, ttl, op, now, rows, [])
  {
    var e := AgedDisk(d, ttl, s);
    ExpiryIsAlike(d, ttl, s);
    ExpiryChangesExactly(d, ttl, s, op, now);
    ThenThePurge(d, e, ttl, rows, op, now);
    if Changes(d, ttl, s, op, now) { NothingFoundUnder(d, ttl, s, op, now); }
  }

  lemma ThenThePurge(d: Disk, e: Disk, ttl: Lifetimes, rows: Targets.Rows, op: Op, now: int)
    requires ForeignKeys(d.oauth) && ForeignKeys(e.oauth)
    requires Part(d.oauth.sessions, e.oauth.sessions) && Part(d.oauth.codes, e.oauth.codes)
    ensures Ask(e, ttl, op, now) == Ask(d, ttl, op, now) ==>
      (Ask(Purged(e, rows, []), ttl, op, now) != Ask(d, ttl, op, now) <==> FoundStale(d, ttl, op, now, rows, []))
    ensures FoundUnder(e, ttl, op, now) == None ==> Ask(Purged(e, rows, []), ttl, op, now) == Ask(e, ttl, op, now)
  {
    PurgeChangesExactlyTheStale(e, ttl, rows, [], op, now);
    if Ask(e, ttl, op, now) == Ask(d, ttl, op, now) { FoundUnderTheSame(d, e, ttl, op, now); }
  }

  const GONE: Stamp := Stamp(Admin, Core([], [], [], [], []))

  // A session of a target that was removed.
  const OUTLIVED: Disk :=
    Disk(Tables(map[1 := A_SESSION.(stamp := GONE, token := Sealed(UpstreamTokenFor(GONE), UpstreamToken(1, None, None)))],
                map[], map[3 := Access(1, [], DAY)], map[]), map[], map[], map[], map[], map[])

  /** As when a target is removed: the lookup that found its session no longer does. */
  lemma APurgeShows()
    ensures FoundStale(OUTLIVED, Lifetimes(DAY, DAY), Enter(3, GONE), 0, map[], [])
    ensures Ask(OUTLIVED, Lifetimes(DAY, DAY), Enter(3, GONE), 0).found.Some?
    ensures Ask(Purged(OUTLIVED, map[], []), Lifetimes(DAY, DAY), Enter(3, GONE), 0).found.None?
  {
    assert 1 in StaleSessions(OUTLIVED.oauth, map[], []);
  }

  // ---------- what a sweep leaves ----------

  // Of a session: it has not ended, and is young or has a row that was kept.
  predicate Lasts(db: Tables, ttl: Lifetimes, s: int, id: Secret)
    requires id in db.sessions
  {
    && db.sessions[id].createdAt + ttl.session >= s
    && (|| db.sessions[id].createdAt + 3600 >= s
        || (exists t :: t in db.access && db.access[t].session == id && db.access[t].expiresAt + 86400 >= s)
        || (exists t :: t in db.refresh && db.refresh[t].session == id && db.refresh[t].createdAt + ttl.refresh + 86400 >= s)
        || (exists c :: c in db.codes && db.codes[c].session == id && db.codes[c].createdAt + 3600 >= s))
  }

  // No row of the name carries the admin stamp.
  predicate IsLeft(rows: Targets.Rows, target: Text, stamp: Stamp) {
    stamp.source == Admin && !(target in rows && rows[target].stamp == stamp)
  }

  lemma SessionsLeft(d: Disk, ttl: Lifetimes, rows: Targets.Rows, s: int)
    ensures forall id :: id in Swept(d, ttl, rows, s).oauth.sessions <==>
      && id in d.oauth.sessions && Lasts(d.oauth, ttl, s, id)
      && !IsLeft(rows, d.oauth.sessions[id].target, d.oauth.sessions[id].stamp)
  {
    forall id ensures id in Swept(d, ttl, rows, s).oauth.sessions <==>
      && id in d.oauth.sessions && Lasts(d.oauth, ttl, s, id)
      && !IsLeft(rows, d.oauth.sessions[id].target, d.oauth.sessions[id].stamp)
    {
      TakenSessionsGo(d, ttl, s, id);
      PurgedSession(AgedDisk(d, ttl, s), rows, [], id);
    }
  }

  // b is what a has when some sessions are gone, and with them all that was theirs.
  ghost predicate Cascaded(a: Tables, b: Tables) {
    && ForeignKeys(b) && b.sessions.Keys <= a.sessions.Keys
    && (forall c :: c in b.codes <==> c in a.codes && a.codes[c].session in b.sessions)
    && (forall t :: t in b.access <==> t in a.access && a.access[t].session in b.sessions)
    && (forall t :: t in b.refresh <==> t in a.refresh && a.refresh[t].session in b.sessions)
    && Part(a.codes, b.codes) && Part(a.access, b.access) && Part(a.refresh, b.refresh)
  }

  lemma GoneIsCascaded(db: Tables, ids: set<Secret>)
    requires ForeignKeys(db)
    ensures Cascaded(db, WithoutSessions(db, ids))
  {
  }

  lemma CascadedTwice(a: Tables, b: Tables, c: Tables)
    requires Cascaded(a, b) && Cascaded(b, c)
    ensures Cascaded(a, c)
  {
  }

  lemma TokensLeft(d: Disk, ttl: Lifetimes, rows: Targets.Rows, s: int)
    requires ForeignKeys(d.oauth)
    ensures Cascaded(Aged(d.oauth, ttl, s), Swept(d, ttl, rows, s).oauth)
  {
    var a := Aged(d.oauth, ttl, s);
    var b := WithinLifetime(a, ttl, s);
    var c := NotAbandoned(b, s);
    GoneIsCascaded(a, Expired(a, ttl, s));
    GoneIsCascaded(b, Abandoned(b, s));
    GoneIsCascaded(c, StaleSessions(c, rows, []));
    CascadedTwice(a, b, c);
    CascadedTwice(a, c, WithoutSessions(c, StaleSessions(c, rows, [])));
  }

  /** A whole sweep leaves exactly this of every table: flows and logins of the last hour; sessions
      that last, and what is kept of theirs; registrations of the last day or in use; what was seen
      within thirty days; and of all that is stamped for admin targets, what a row still carries. */
  lemma ASweepLeavesExactly(d: Disk, ttl: Lifetimes, rows: Targets.Rows, s: int)
    requires ForeignKeys(d.oauth)
    ensures var after := Swept(d, ttl, rows, s);
            && (forall f :: f in after.flows <==>
                 f in d.flows && d.flows[f].createdAt + 3600 >= s && !IsLeft(rows, d.flows[f].target, d.flows[f].stamp))
            && (forall f :: f in after.logins <==> f in d.logins && d.logins[f].createdAt + 3600 >= s)
            && (forall k :: k in after.creds <==> k in d.creds && !IsLeft(rows, k.target, k.stamp))
            && (forall p :: p in after.seen <==> p in d.seen && d.seen[p] + 2592000 >= s)
            && (forall id :: id in after.oauth.sessions <==>
                 && id in d.oauth.sessions && Lasts(d.oauth, ttl, s, id)
                 && !IsLeft(rows, d.oauth.sessions[id].target, d.oauth.sessions[id].stamp))
            && (forall c :: c in after.oauth.codes <==>
                 c in d.oauth.codes && d.oauth.codes[c].createdAt + 3600 >= s && d.oauth.codes[c].session in after.oauth.sessions)
            && (forall t :: t in after.oauth.access <==>
                 && t in d.oauth.access && d.oauth.access[t].expiresAt + 86400 >= s
                 && d.oauth.access[t].session in after.oauth.sessions)
            && (forall t :: t in after.oauth.refresh <==>
                 && t in d.oauth.refresh && d.oauth.refresh[t].createdAt + ttl.refresh + 86400 >= s
                 && d.oauth.refresh[t].session in after.oauth.sessions)
  {
    SessionsLeft(d, ttl, rows, s);
    TokensLeft(d, ttl, rows, s);
  }

  /** And a registration goes exactly when it is a day old and nothing that is left by age is its
      own: no token, no flow, no code. */
  lemma RegistrationsLeft(d: Disk, ttl: Lifetimes, rows: Targets.Rows, s: int, client: Text)
    ensures var e := Expiry(d, ttl, s);
            client in Swept(d, ttl, rows, s).clients <==>
              && client in d.clients
              && (|| d.clients[client] + 86400 >= s
                  || (exists t :: t in e.oauth.access && e.oauth.access[t].client == client)
                  || (exists t :: t in e.oauth.refresh && e.oauth.refresh[t].client == client)
                  || (exists f :: f in e.flows && e.flows[f].client == client)
                  || (exists c :: c in e.oauth.codes && e.oauth.codes[c].client == client))
  {
  }
}
