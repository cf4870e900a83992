/** The handlers that change what the store holds, each a run of store calls with early exits
    and a deferred rollback (oauth.go, proxy.go, main.go). */
module Servers {
  import opened Wrappers
  import opened Bytes
  import opened Stamps
  import opened Sealing
  import opened OAuthTables
  import opened Disk
  import opened Registries
  import opened Stores
  import opened World
  import opened Settings
  import Targets
  import UpstreamRefresh

  datatype TokenAnswer = Issued(access: Secret, refresh: Secret) | InvalidGrant | ServerError | Retry

  // The store call that fails, if one does.
  datatype Fault = NoFault | AtBegin | AtPair | AtCommit | AfterCommit | AtRevoke | AtCode

  // What the provider says of whoever came back from it, when it says anything.
  datatype Identity = Identity(subject: Text, groups: seq<Text>)

  datatype CallbackAnswer =
    | FlowExpired
    | TargetChanged
    | ProviderFailed
    | NoIdentity
    | Denied
    | CodeIssued(code: Secret)
    | CodeLost

  datatype SaveAnswer = LoginFirst | UnknownTarget | FormStale | BadField(why: FieldError) | Saved | Cleared

  // How a call to the store goes: it may fail before or after it has taken effect.
  datatype Weather = Works | FailsBefore | FailsAfter

  const ATTEMPTS: nat := UpstreamRefresh.ATTEMPTS

  // The attempts a run of retries makes: every one before it failed, and the caller waited.
  predicate Tries(weather: seq<Weather>, patience: nat, i: int)
    requires |weather| == ATTEMPTS
  {
    0 <= i < ATTEMPTS && (i == 0 || i < patience) && forall j :: 0 <= j < i ==> !weather[j].Works?
  }

  predicate Stands(weather: seq<Weather>, patience: nat)
    requires |weather| == ATTEMPTS
  {
    exists i :: 0 <= i < ATTEMPTS && Tries(weather, patience, i) && weather[i].Works?
  }

  // Some attempt takes effect, reported or not.
  predicate Lands(weather: seq<Weather>, patience: nat)
    requires |weather| == ATTEMPTS
  {
    exists i :: 0 <= i < ATTEMPTS && Tries(weather, patience, i) && !weather[i].FailsBefore?
  }

  lemma LandsAtOneOfThree(weather: seq<Weather>, patience: nat)
    requires |weather| == ATTEMPTS
    ensures Lands(weather, patience) <==>
      !weather[0].FailsBefore? || (patience > 1 && !weather[1].FailsBefore?) || (patience > 2 && !weather[2].FailsBefore?)
  {
    assert Tries(weather, patience, 0);
    if !weather[0].Works? && patience > 1 {
      assert Tries(weather, patience, 1);
      if !weather[1].Works? && patience > 2 { assert Tries(weather, patience, 2); }
    }
  }

  // While a request waits for the session's stripe: nothing, another's refresh, or the end.
  datatype Meanwhile = Quiet | Renewed(token: UpstreamToken) | Ended

  // What the session's row holds for a caller that names its stamp.
  function HeldIn(db: Tables, ttl: Lifetimes, id: Secret, stamp: Stamp, now: int): Option<UpstreamToken> {
    match SessionToken(db, ttl, id, stamp, now)
    case Some(box) => Open(UpstreamTokenFor(stamp), box)
    case None => None
  }

  // A token may be written back to the row there is, and for an admin stamp only while the
  // target carries it.
  predicate StorableIn(db: Tables, rows: Targets.Rows, id: Secret, stamp: Stamp) {
    && id in db.sessions && db.sessions[id].stamp == stamp
    && (stamp.IsAdmin() ==> Targets.CurrentStamp(rows, db.sessions[id].target) == Some(stamp))
  }

  function Rewritten(db: Tables, id: Secret, stamp: Stamp, token: UpstreamToken): Tables {
    WithToken(db, id, stamp, Sealed(UpstreamTokenFor(stamp), token))
  }

  function Waited(db: Tables, rows: Targets.Rows, id: Secret, stamp: Stamp, meanwhile: Meanwhile): Tables {
    match meanwhile
    case Quiet => db
    case Renewed(token) => if StorableIn(db, rows, id, stamp) then Rewritten(db, id, stamp, token) else db
    case Ended => WithoutSessions(db, {id})
  }

  predicate Refreshable(held: Option<UpstreamToken>, now: int) {
    held.Some? && UpstreamRefresh.IsExpired(held.value, now) && held.value.refresh.Some?
  }

  function Unexpired(held: Option<UpstreamToken>, now: int): Option<UpstreamToken> {
    if held.Some? && !UpstreamRefresh.IsExpired(held.value, now) then held else None
  }

  // The provider may leave out a refresh token, and then the old one still holds.
  function Refreshed(before: UpstreamToken, answer: UpstreamToken): UpstreamToken {
    if answer.refresh.Some? then answer else answer.(refresh := before.refresh)
  }

  function ServedBy(snap: Snapshot): set<Served> { set e | e in snap.entries :: (e.target.name, e.stamp) }

  // What one sweep pass leaves: what is served is seen, the sweep runs as far as it gets, and
  // strays go only if the recording worked.
  function AfterPass(d: Disk, ttl: Lifetimes, rows: Targets.Rows, snap: Snapshot, now: int,
                     recordFails: bool, failsAt: Option<nat>, failing: set<Table>): Disk
  {
    var d1 := if recordFails then d else d.(seen := Recorded(d.seen, ServedBy(snap), now));
    var d2 := SweptUpTo(d1, ttl, rows, now, failsAt, failing);
    if recordFails then d2 else d2.(creds := WithoutStrays(d2.creds, d2.seen, now))
  }

  // What an exchange leaves: a code that is live and proved buys its pair, one that is not
  // proved is spent, and what did not commit is as it was.
  function ExchangeLeaves(db: Tables, x: CodeRequest, access: Secret, refresh: Secret, now: int, fault: Fault): Tables {
    match LiveCode(db, x.code, now)
    case None => db
    case Some(rec) =>
      if fault == AtBegin || fault == AtCommit then db
      else if !Proves(rec, x) then WithoutCode(db, x.code)
      else if fault == AtPair then db
      else WithPair(WithoutCode(db, x.code), Pair(access, refresh, rec.session, rec.client), now)
  }

  // The error a failed call is reported as, if it is one this request comes to.
  predicate Fails(fault: Fault) { fault in {AtBegin, AtPair, AtCommit, AfterCommit} }

  class Server {
    const store: Store

    constructor (store: Store)
      ensures this.store == store
    {
      this.store := store;
    }

    // ---------- the token endpoint ----------

    // The pair and the commit together, or a transaction still open for the rollback. A commit
    // whose report is lost has landed all the same.
    method Issue(g: Grant, session: Secret, client: Text, access: Secret, refresh: Secret, now: int, fault: Fault)
      returns (answer: TokenAnswer)
      requires g.store == store && g.open && g.wrote == None && access !in store.access && refresh !in store.refresh
      requires g.taken.Token? ==> g.taken.token != refresh
      modifies store`access, store`refresh, g`open, g`wrote
      ensures answer == if Fails(fault) && fault != AtBegin then ServerError else Issued(access, refresh)
      ensures g.Outcome() == if fault == AtPair || fault == AtCommit then old(g.Outcome())
                             else WithPair(old(store.Db()), Pair(access, refresh, session, client), now)
    {
      if fault == AtPair {
        return ServerError;
      }
      g.CreateTokenPair(Pair(access, refresh, session, client), now);
      if fault == AtCommit {
        return ServerError;
      }
      g.Commit();
      return if fault == AfterCommit then ServerError else Issued(access, refresh);
    }

    /** A code buys tokens exactly when it is live and the exchange proves it is the one it was
        issued to. A proof that fails spends the code; a failure before the commit lands gives
        it back. */
    method TokenFromCode(x: CodeRequest, access: Secret, refresh: Secret, now: int, fault: Fault) returns (answer: TokenAnswer)
      requires access !in store.access && refresh !in store.refresh
      modifies store`codes, store`access, store`refresh
      ensures var code := LiveCode(old(store.Db()), x.code, now);
              answer == if fault == AtBegin then ServerError
                        else if code.None? || !Proves(code.value, x) then InvalidGrant
                        else if Fails(fault) then ServerError
                        else Issued(access, refresh)
      ensures store.Db() == ExchangeLeaves(old(store.Db()), x, access, refresh, now, fault)
      ensures fault == NoFault ==>
        answer == if x.code in old(store.codes) && now < old(store.codes)[x.code].createdAt + 60
                     && x.client == old(store.codes)[x.code].client && x.redirect == old(store.codes)[x.code].redirect
                     && x.verifier != [] && S256(x.verifier) == old(store.codes)[x.code].challenge
                  then Issued(access, refresh) else InvalidGrant
      ensures fault == NoFault && x.code in old(store.codes) && now < old(store.codes)[x.code].createdAt + 60 ==>
        store.codes == old(store.codes) - {x.code}
      ensures fault == AtBegin || fault == AtCommit ==> store.Db() == old(store.Db())
      ensures fault == AtPair && x.code in old(store.codes)
              && x.client == old(store.codes)[x.code].client && x.redirect == old(store.codes)[x.code].redirect
              && x.verifier != [] && S256(x.verifier) == old(store.codes)[x.code].challenge ==>
        store.Db() == old(store.Db())
      ensures answer.Issued? ==>
        var rec := old(store.codes)[x.code];
        && store.codes == old(store.codes) - {x.code}
        && store.access == old(store.access)[access := Access(rec.session, x.client, now + 43200)]
        && store.refresh == old(store.refresh)[refresh := Refresh(rec.session, x.client, false, now)]
    {
      if fault == AtBegin {
        return ServerError;
      }
      var g := new Grant(store);
      var rec := g.TakeAuthCode(x.code, now);
      if rec.None? {
        g.Rollback();
        return InvalidGrant;
      }
      if CodeExchangeMismatch(rec.value, x).Some? {
        if fault != AtCommit {
          g.Commit();
        }
        g.Rollback();
        return InvalidGrant;
      }
      answer := Issue(g, rec.value.session, rec.value.client, access, refresh, now, fault);
      g.Rollback();
    }

    /** A refresh token buys a new pair exactly when it is live for this client and the replica
        is sure of its session's target. Short of a commit that lands it is left unused, unless
        it was used before, which ends its session. */
    method TokenFromRefresh(snap: Snapshot, token: Secret, client: Text, access: Secret, refresh: Secret, now: int, fault: Fault)
      returns (answer: TokenAnswer)
      requires access !in store.access && refresh !in store.refresh
      modifies store`sessions, store`codes, store`access, store`refresh
      ensures fault == NoFault && old(IsLive(token, client, now)) ==>
        var s := old(store.sessions)[old(store.refresh)[token].session];
        answer == if IsUnsure(snap, s, store.targets) then Retry
                  else if s.target in snap.byName && s.stamp == snap.byName[s.target].stamp then Issued(access, refresh)
                  else InvalidGrant
      ensures fault == AtBegin ==> answer == ServerError && store.Db() == old(store.Db())
      ensures fault != AtBegin && LiveRefresh(old(store.Db()), store.ttl, token, client, now).Some? ==>
        var id := old(store.refresh)[token].session;
        var verdict := VerdictFor(snap, old(store.sessions)[id], store.targets);
        && answer == (if verdict.TryLater? then Retry else if verdict.TargetGone? then InvalidGrant
                      else if Fails(fault) then ServerError else Issued(access, refresh))
        && store.Db() == if verdict.Issue? && fault != AtPair && fault != AtCommit
                         then WithPair(MarkedUsed(old(store.Db()), token), Pair(access, refresh, id, client), now)
                         else old(store.Db())
      ensures fault != AtBegin && LiveRefresh(old(store.Db()), store.ttl, token, client, now).None? ==>
        var reused := ReuseProbe(old(store.Db()), token);
        && answer == InvalidGrant
        && store.Db() == if reused.Some? && fault != AtRevoke then WithoutSessions(old(store.Db()), {reused.value})
                         else old(store.Db())
    {
      if fault == AtBegin {
        return ServerError;
      }
      var g := new Grant(store);
      var ref := g.TakeRefreshToken(token, client, now);
      if ref.Err? {
        if ref.error.TokenReused? && fault != AtRevoke {
          store.RevokeSession(ref.error.session);
        }
        g.Rollback();
        return InvalidGrant;
      }
      var e := Find(Some(snap), ref.value.session.target);
      SureOfTheSession(snap, ref.value.session, store.targets);
      match JudgeRefresh(e, ref.value.session.stamp, ref.value.current) {
        case TryLater => g.Rollback(); return Retry;
        case TargetGone => g.Rollback(); return InvalidGrant;
        case Issue =>
          answer := Issue(g, ref.value.id, client, access, refresh, now, fault);
          g.Rollback();
      }
    }

    // The token is unused, this client's, and within its lifetime and its session's.
    predicate IsLive(token: Secret, client: Text, now: int)
      reads store
    {
      && token in store.refresh && !store.refresh[token].used && store.refresh[token].client == client
      && now < store.refresh[token].createdAt + store.ttl.refresh && store.refresh[token].session in store.sessions
      && now < store.sessions[store.refresh[token].session].createdAt + store.ttl.session
    }

    // RFC 7009: an unknown token is not an error, and either kind ends the whole session.
    method HandleRevoke(token: Secret, fault: Fault) returns (ok: bool)
      modifies store`sessions, store`codes, store`access, store`refresh
      ensures var found := SessionForToken(old(store.Db()), token);
              && (ok <==> found.None? || fault != AtRevoke)
              && store.Db() == if ok && found.Some? then WithoutSessions(old(store.Db()), {found.value}) else old(store.Db())
    {
      var id := store.FindSession(token);
      if id.None? {
        return true;
      }
      if fault == AtRevoke {
        return false;
      }
      store.RevokeSession(id.value);
      return true;
    }

    // ---------- the provider's token ----------

    // Three attempts, with a wait the caller may not sit out. A session that is gone or a
    // stamp that is retired ends them at once.
    method PersistRefreshed(id: Secret, stamp: Stamp, token: UpstreamToken, weather: seq<Weather>, patience: nat)
      returns (r: Result<(), StoreError>)
      requires |weather| == ATTEMPTS
      modifies store`sessions
      ensures r.Ok? <==>
        && id in old(store.sessions) && old(store.sessions)[id].stamp == stamp
        && (stamp.source == Admin ==>
             var name := old(store.sessions)[id].target; name in store.targets && store.targets[name].stamp == stamp)
        && (weather[0].Works? || (patience > 1 && weather[1].Works?) || (patience > 2 && weather[2].Works?))
      // An attempt whose report is lost has written all the same.
      ensures store.sessions ==
        if id in old(store.sessions) && old(store.sessions)[id].stamp == stamp
           && (stamp.source == Admin ==>
                var name := old(store.sessions)[id].target; name in store.targets && store.targets[name].stamp == stamp)
           && (!weather[0].FailsBefore? || (patience > 1 && !weather[1].FailsBefore?) || (patience > 2 && !weather[2].FailsBefore?))
        then old(store.sessions)[id := old(store.sessions)[id].(token := Sealed(UpstreamTokenFor(stamp), token))]
        else old(store.sessions)
      ensures r.Ok? ==> id in store.sessions && store.sessions[id].token == Sealed(UpstreamTokenFor(stamp), token)
      ensures var storable := StorableIn(old(store.Db()), store.targets, id, stamp);
              && (r.Ok? <==> storable && Stands(weather, patience))
              && store.Db() == (if storable && Lands(weather, patience) then Rewritten(old(store.Db()), id, stamp, token)
                                else old(store.Db()))
              && (r == Err(NotFound) ==> !(id in old(store.sessions) && old(store.sessions)[id].stamp == stamp))
              && (r == Err(StaleTarget) ==> stamp.IsAdmin() && !storable)
    {
      LandsAtOneOfThree(weather, patience);
      var box := Sealed(UpstreamTokenFor(stamp), token);
      ghost var before, after := store.Db(), Rewritten(store.Db(), id, stamp, token);
      ghost var storable, landed := StorableIn(store.Db(), store.targets, id, stamp), false;
      r := Err(Unavailable);
      for i := 0 to ATTEMPTS
        invariant r == Err(Unavailable)
        invariant forall j :: 0 <= j < i ==> Tries(weather, patience, j)
        invariant forall j :: 0 <= j < i ==> !weather[j].Works?
        invariant landed <==> storable && exists j :: 0 <= j < i && !weather[j].FailsBefore?
        invariant forall j :: 0 <= j < i && !weather[j].FailsBefore? ==> storable
        invariant store.Db() == if landed then after else before
        invariant StorableIn(store.Db(), store.targets, id, stamp) == storable
      {
        if i > 0 && i >= patience {
          assert forall k :: Tries(weather, patience, k) ==> k < i;
          return Err(Unavailable);
        }
        assert Tries(weather, patience, i);
        if !weather[i].FailsBefore? {
          r := store.UpdateSessionToken(id, stamp, box);
          if r.Err? {
            return;
          }
          landed := true;
          assert store.Db() == after;
          if weather[i].Works? {
            return;
          }
          r := Err(Unavailable);
        }
      }
    }

    method LoadToken(id: Secret, stamp: Stamp, now: int) returns (r: Option<UpstreamToken>)
      ensures r == HeldIn(store.Db(), store.ttl, id, stamp, now)
      ensures r.Some? <==>
        id in store.sessions && store.sessions[id].stamp == stamp && now < store.sessions[id].createdAt + store.ttl.session
        && store.sessions[id].token.purpose == UpstreamTokenFor(stamp)
      ensures r.Some? ==>
        id in store.sessions && store.sessions[id].stamp == stamp && now < store.sessions[id].createdAt + store.ttl.session
        && store.sessions[id].token == Sealed(UpstreamTokenFor(stamp), r.value)
    {
      var box := store.ReadSessionToken(id, stamp, now);
      match box {
        case None => return None;
        case Some(b) => return Open(UpstreamTokenFor(stamp), b);
      }
    }

    // The session lasts, under this stamp, and holds a token sealed for it.
    predicate HasToken(id: Secret, stamp: Stamp, now: int)
      reads store
    {
      && id in store.sessions && store.sessions[id].stamp == stamp
      && now < store.sessions[id].createdAt + store.ttl.session && store.sessions[id].token.purpose == UpstreamTokenFor(stamp)
    }

    // What others do to the session while a request waits for its stripe.
    method Wait(id: Secret, stamp: Stamp, meanwhile: Meanwhile)
      modifies store`sessions, store`codes, store`access, store`refresh
      ensures store.Db() == Waited(old(store.Db()), store.targets, id, stamp, meanwhile)
    {
      match meanwhile {
        case Quiet =>
        case Renewed(token) => var r := store.UpdateSessionToken(id, stamp, Sealed(UpstreamTokenFor(stamp), token));
        case Ended => store.RevokeSession(id);
      }
    }

    /** Whatever the provider, the store and other requests do, a token is returned only if at
        that moment the session's row holds it under the stamp asked for. That is the one first
        read, if it has not expired; or the one read again once the stripe is had; or the one the
        provider then gave, with the old refresh token where it gave none, if that could be
        written back. `exchanged` is the provider's answer. */
    method CurrentUpstreamToken(id: Secret, stamp: Stamp, now: int, meanwhile: Meanwhile,
                                exchanged: Option<UpstreamToken>, weather: seq<Weather>, patience: nat)
      returns (r: Option<UpstreamToken>)
      requires |weather| == ATTEMPTS
      modifies store`sessions, store`codes, store`access, store`refresh
      // A token with a minute and more to go is returned as it is, and nothing else happens.
      ensures old(HasToken(id, stamp, now)) ==>
        var held := old(store.sessions)[id].token.payload;
        && (held.expiresAt.None? || now + 60 <= held.expiresAt.value ==> r == Some(held) && store.Db() == old(store.Db()))
        && (held.expiresAt.Some? && now + 60 > held.expiresAt.value && held.refresh.None? ==> r == None)
      ensures !old(HasToken(id, stamp, now)) ==> r == None
      // One that comes of no exchange has a minute to go.
      ensures exchanged.None? && r.Some? ==> r.value.expiresAt.None? || now + 60 <= r.value.expiresAt.value
      // Undisturbed, an expired one is exchanged, and what comes of it is returned once written.
      ensures old(HasToken(id, stamp, now)) && meanwhile.Quiet? && exchanged.Some? && weather[0].Works?
              && (stamp.source == Admin ==>
                   var name := old(store.sessions)[id].target; name in store.targets && store.targets[name].stamp == stamp) ==>
        var held := old(store.sessions)[id].token.payload;
        held.expiresAt.Some? && now + 60 > held.expiresAt.value && held.refresh.Some? ==>
          r == Some(if exchanged.value.refresh.Some? then exchanged.value else exchanged.value.(refresh := held.refresh))
      ensures r.Some? ==>
        id in store.sessions && store.sessions[id].stamp == stamp
        && store.sessions[id].token == Sealed(UpstreamTokenFor(stamp), r.value)
      ensures var first := HeldIn(old(store.Db()), store.ttl, id, stamp, now);
              if !Refreshable(first, now) then r == Unexpired(first, now) && store.Db() == old(store.Db())
              else
                var waited := Waited(old(store.Db()), store.targets, id, stamp, meanwhile);
                var again := HeldIn(waited, store.ttl, id, stamp, now);
                if !Refreshable(again, now) || exchanged.None? then r == Unexpired(again, now) && store.Db() == waited
                else
                  var token := Refreshed(again.value, exchanged.value);
                  var storable := StorableIn(waited, store.targets, id, stamp);
                  && r == (if storable && Stands(weather, patience) then Some(token) else None)
                  && store.Db() == if storable && Lands(weather, patience) then Rewritten(waited, id, stamp, token) else waited
    {
      var first := LoadToken(id, stamp, now);
      if first.None? || !UpstreamRefresh.IsExpired(first.value, now) {
        return first;
      }
      if first.value.refresh.None? {
        return None;
      }
      Wait(id, stamp, meanwhile);
      var again := LoadToken(id, stamp, now);
      if again.None? || !UpstreamRefresh.IsExpired(again.value, now) {
        return again;
      }
      if again.value.refresh.None? || exchanged.None? {
        return None;
      }
      var token := exchanged.value;
      if token.refresh.None? {
        token := token.(refresh := again.value.refresh);
      }
      var stored := PersistRefreshed(id, stamp, token, weather, patience);
      return if stored.Ok? then Some(token) else None;
    }

    // ---------- the callback and the settings page ----------

    // The groups that count for a target: the row's for an admin target, while the row carries
    // its stamp, and otherwise the definition's own.
    function AllowedFor(t: Target): Option<seq<Text>>
      reads store
    {
      if t.source.Config? then Some(t.allowedGroups)
      else if t.name in store.targets && store.targets[t.name].stamp == StampOf(t) then
        Some(store.targets[t.name].target.allowedGroups)
      else None
    }

    // Nobody is shut out of a target with no list, and everyone of one without a shared group.
    predicate Shares(allowed: seq<Text>, who: Option<Identity>) {
      allowed == []
      || (who.Some? && (set g | g in who.value.groups) * (set g | g in allowed) != {})
    }

    /** The flow is spent whatever follows. A session and its code come of it exactly when its
        own target is still served under its stamp, the provider answered, and the target
        admits whoever it is; and they carry what the flow was approved for. */
    method HandleCallback(flowId: Secret, snap: Snapshot, token: Option<UpstreamToken>, who: Option<Identity>,
                          id: Secret, code: Secret, now: int, fault: Fault)
      returns (answer: CallbackAnswer)
      requires id !in store.sessions && code !in store.codes
      modifies store`flows, store`sessions, store`codes
      // Only an approved flow is redeemed, in time, and it is gone then.
      ensures var usable := flowId in old(store.flows) && old(store.flows)[flowId].approved
                            && now < old(store.flows)[flowId].createdAt + 600;
              && (answer.FlowExpired? <==> !usable)
              && store.flows == if usable then old(store.flows) - {flowId} else old(store.flows)
      ensures !answer.FlowExpired? ==>
        var flow := old(store.flows)[flowId];
        var t := if flow.resource != [] && flow.resource in snap.byResource then Some(snap.byResource[flow.resource].target)
                 else if flow.resource == [] && !snap.multi && snap.entries != [] then Some(snap.entries[0].target)
                 else None;
        if t.None? || StampOf(t.value) != flow.stamp then answer == TargetChanged
        else if token.None? then answer == ProviderFailed
        else if who.None? && t.value.mode == Ascii("per_user") then answer == NoIdentity
        else
          var allowed := old(AllowedFor(t.value));
          if allowed.None? then answer == TargetChanged
          else if !Shares(allowed.value, who) then answer == Denied
          else
            var subject := if who.Some? then who.value.subject else [];
            var session := Session(subject, flow.resource, t.value.name, flow.stamp,
                                   Sealed(UpstreamTokenFor(flow.stamp), token.value), now);
            && answer == (if fault == AtCode then CodeLost else CodeIssued(code))
            && store.sessions == old(store.sessions)[id := session]
            && store.codes == if fault == AtCode then old(store.codes)
                              else old(store.codes)[code := AuthCode(id, flow.client, flow.redirect, flow.challenge, now)]
      ensures !answer.CodeIssued? && !answer.CodeLost? ==>
        store.sessions == old(store.sessions) && store.codes == old(store.codes)
    {
      var redeemed := store.TakeApprovedFlow(flowId, now);
      if redeemed.None? {
        return FlowExpired;
      }
      var flow := redeemed.value;
      var target := TargetForFlow(snap, flow);
      if target.None? {
        return TargetChanged;
      }
      var t := target.value;
      if token.None? {
        return ProviderFailed;
      }
      var subject: Text, groups: seq<Text> := [], [];
      if who.Some? {
        subject, groups := who.value.subject, who.value.groups;
      } else if t.mode == PER_USER {
        return NoIdentity;
      }
      GroupsInCommon(t.allowedGroups, groups);
      if !t.FromAdmin() && !t.Admits(groups) {
        return Denied;
      }
      var inserted := store.CreateSession(id, SessionOf(flow, t, subject, token.value, now), groups);
      if inserted.Err? {
        return if inserted.error.NotAdmitted? then Denied else TargetChanged;
      }
      if fault == AtCode {
        return CodeLost;
      }
      var issued := store.CreateAuthCode(code, CodeOf(flow, id, now));
      return CodeIssued(code);
    }

    /** A credential is stored exactly when the form names a served per_user target, was
        rendered under the stamp that target still has, here and for an admin target in the
        database, and every field holds a value. It is sealed for that stamp alone. */
    method HandleSettingsSave(snap: Snapshot, typed: Typed, clear: bool, now: int) returns (answer: SaveAnswer)
      modifies store`creds
      ensures typed.subject == [] ==> answer == LoginFirst
      ensures typed.subject != [] && (typed.target == [] || forall i :: !IsPerUser(snap.entries, i, typed.target)) ==>
        answer == UnknownTarget
      ensures typed.subject != [] && typed.target != [] ==>
        forall i :: IsLastPerUser(snap.entries, i, typed.target) ==>
          var fields := typed.stamp.core.fields;
          if StampOf(snap.entries[i].target) != typed.stamp then answer == FormStale
          else if clear then answer == Cleared
          else if exists j :: 0 <= j < |fields| && !Fits(fields[j], typed.values) then answer.BadField?
          else if typed.stamp.source == Admin
                  && !(typed.target in store.targets && store.targets[typed.target].stamp == typed.stamp) then answer == FormStale
          else answer == Saved
      ensures var key := CredKey(typed.subject, typed.target, typed.stamp);
              && (answer.Saved? <==>
                && FormMatches(snap, typed) && !clear && CredentialFrom(typed).Ok?
                && (typed.stamp.IsAdmin() ==> store.Fenced(typed.target, typed.stamp).Some?))
              && (answer.Cleared? <==> FormMatches(snap, typed) && clear)
              && store.creds ==
                 if answer.Saved? then
                   old(store.creds)[key := Cred(Sealed(UserCredentialFor(typed.stamp), CredentialFrom(typed).value), now)]
                 else if answer.Cleared? then old(store.creds) - {key}
                 else old(store.creds)
    {
      if typed.subject == [] {
        return LoginFirst;
      }
      PerUserTargetIsTheLast(snap.entries, typed.target);
      FilledExactlyWhenAllFit(typed.stamp.core.fields, typed.values);
      var target := FindPerUserTarget(snap.entries, typed.target);
      if target.None? || typed.target == [] {
        return UnknownTarget;
      }
      if StampOf(target.value) != typed.stamp {
        return FormStale;
      }
      var key := CredKey(typed.subject, typed.target, typed.stamp);
      if clear {
        store.DeleteUserCredential(key);
        return Cleared;
      }
      var headers := FillHeaders(FieldPairs(target.value.userFields), typed.values);
      if headers.Err? {
        return BadField(headers.error);
      }
      var put := store.PutUserCredential(key, Sealed(UserCredentialFor(typed.stamp), headers.value), now);
      return if put.Ok? then Saved else FormStale;
    }

    // ---------- the sweep ----------

    /** A pass records what this process serves before it deletes anything, and does not judge
        strays when the recording failed: it never deletes a config credential of a definition
        it serves. */
    method SweepOnce(snap: Snapshot, now: int, recordFails: bool, failsAt: Option<nat>, failing: set<Table>)
      modifies store`flows, store`logins, store`sessions, store`codes, store`access, store`refresh
      modifies store`seen, store`clients, store`creds
      ensures store.All() == AfterPass(old(store.All()), store.ttl, store.targets, snap, now, recordFails, failsAt, failing)
      ensures failsAt.None? ==>
        IsAPass(old(store.All()), store.All(), store.ttl, store.targets, snap, now, recordFails, failing)
      ensures forall k :: k in old(store.creds) && !k.stamp.IsAdmin() && (recordFails || (k.target, k.stamp) in ServedBy(snap)) ==>
        k in store.creds && store.creds[k] == old(store.creds)[k]
    {
      ghost var start := store.All();
      var served: seq<Served> := [];
      for i := 0 to |snap.entries|
        invariant |served| == i
        invariant forall j :: 0 <= j < i ==> served[j] == (snap.entries[j].target.name, snap.entries[j].stamp)
      {
        served := served + [(snap.entries[i].target.name, snap.entries[i].stamp)];
      }
      SameServed(snap, served);
      if !recordFails {
        store.RecordServedStamps(served, now);
      }
      var swept := store.Sweep(now, failsAt, failing);
      if !recordFails {
        store.SweepStrayCredentials(now);
      }
      assert store.All() == AfterPass(start, store.ttl, store.targets, snap, now, recordFails, failsAt, failing);
      if failsAt.None? {
        APassRecordsAndSpares(start, store.ttl, store.targets, snap, now, recordFails, failing);
      }
    }
  }

  lemma SameServed(snap: Snapshot, served: seq<Served>)
    requires |served| == |snap.entries|
    requires forall j :: 0 <= j < |served| ==> served[j] == (snap.entries[j].target.name, snap.entries[j].stamp)
    ensures (set p | p in served) == ServedBy(snap)
  {
    forall p | p in ServedBy(snap) ensures p in served {
      var j :| 0 <= j < |snap.entries| && p == (snap.entries[j].target.name, snap.entries[j].stamp);
      assert served[j] == p;
    }
  }

  // What is recorded as seen plays no part in what the statements and the purge delete.
  lemma SeenAside(d: Disk, seen: map<Served, int>, ttl: Lifetimes, rows: Targets.Rows, now: int, failing: set<Table>)
    ensures SweptUpTo(d.(seen := seen), ttl, rows, now, None, failing)
         == SweptUpTo(d, ttl, rows, now, None, failing).(seen := KeptSeen(seen, now))
  {
    assert Expiry(d.(seen := seen), ttl, now) == Expiry(d, ttl, now).(seen := KeptSeen(seen, now));
    var e := Expiry(d, ttl, now);
    assert forall c :: ClientUsed(e.(seen := KeptSeen(seen, now)), c) <==> ClientUsed(e, c);
    assert WithoutUnusedClients(e.(seen := KeptSeen(seen, now)), now)
        == WithoutUnusedClients(e, now).(seen := KeptSeen(seen, now));
  }

  lemma SweptWhenNothingFails(d: Disk, ttl: Lifetimes, rows: Targets.Rows, now: int)
    ensures SweptUpTo(d, ttl, rows, now, None, {}) == Swept(d, ttl, rows, now)
  {
  }

  // A pass whose statements all run.
  lemma APass(d: Disk, ttl: Lifetimes, rows: Targets.Rows, snap: Snapshot, now: int, recordFails: bool, failing: set<Table>)
    ensures var after := AfterPass(d, ttl, rows, snap, now, recordFails, None, failing);
            var seen := if recordFails then d.seen else Recorded(d.seen, ServedBy(snap), now);
            var swept := SweptUpTo(d, ttl, rows, now, None, failing).(seen := KeptSeen(seen, now));
            after == if recordFails then swept else swept.(creds := WithoutStrays(swept.creds, swept.seen, now))
  {
    SeenAside(d, d.seen, ttl, rows, now, failing);
    SeenAside(d, Recorded(d.seen, ServedBy(snap), now), ttl, rows, now, failing);
  }

  lemma CredsAfterThePurge(d: Disk, ttl: Lifetimes, rows: Targets.Rows, now: int, failing: set<Table>, k: CredKey)
    requires k.stamp.source.Config?
    ensures var after := SweptUpTo(d, ttl, rows, now, None, failing);
            (k in after.creds <==> k in d.creds) && (k in after.creds ==> after.creds[k] == d.creds[k])
  {
  }

  lemma APassRecordsAndSpares(d: Disk, ttl: Lifetimes, rows: Targets.Rows, snap: Snapshot, now: int,
                              recordFails: bool, failing: set<Table>)
    ensures IsAPass(d, AfterPass(d, ttl, rows, snap, now, recordFails, None, failing), ttl, rows, snap, now, recordFails, failing)
  {
    APass(d, ttl, rows, snap, now, recordFails, failing);
    SweptWhenNothingFails(d, ttl, rows, now);
    if !recordFails {
      forall k | k in d.creds && k.stamp.source.Config?
        ensures k in AfterPass(d, ttl, rows, snap, now, recordFails, None, failing).creds <==> IsSpared(d, snap, k, now)
      {
        CredsAfterThePurge(d, ttl, rows, now, failing, k);
        StrayOrSpared(d, snap, k, now);
      }
    }
  }

  lemma StrayOrSpared(d: Disk, snap: Snapshot, k: CredKey, now: int)
    requires k in d.creds && k.stamp.source.Config?
    ensures var seen := KeptSeen(Recorded(d.seen, ServedBy(snap), now), now);
            forall creds: Creds :: k in creds && creds[k] == d.creds[k] ==> (!Stray(creds, seen, k, now) <==> IsSpared(d, snap, k, now))
  {
    assert (k.target, k.stamp) in ServedBy(snap) <==>
      exists e :: e in snap.entries && e.target.name == k.target && e.stamp == k.stamp;
  }

  // What a pass leaves whose statements all run. Unless the recording failed, every entry served
  // is seen now, and of the config targets' credentials just the spared stay.
  ghost predicate IsAPass(d: Disk, after: Disk, ttl: Lifetimes, rows: Targets.Rows, snap: Snapshot, now: int,
                          recordFails: bool, failing: set<Table>)
  {
    && (failing == {} ==> PassesTheSweep(after, Swept(d, ttl, rows, now)))
    && (!recordFails ==> forall e :: e in snap.entries ==>
         (e.target.name, e.stamp) in after.seen && after.seen[(e.target.name, e.stamp)] == now)
    && (!recordFails ==>
         forall k :: k in d.creds && k.stamp.source.Config? ==> (k in after.creds <==> IsSpared(d, snap, k, now)))
  }

  // But for what is recorded and the strays, a pass leaves what the sweep does.
  predicate PassesTheSweep(after: Disk, swept: Disk) {
    && after.oauth == swept.oauth && after.flows == swept.flows && after.logins == swept.logins && after.clients == swept.clients
  }

  // Served here, or saved within the week, or served by anybody within it.
  predicate IsSpared(d: Disk, snap: Snapshot, k: CredKey, now: int) {
    || (exists e :: e in snap.entries && e.target.name == k.target && e.stamp == k.stamp)
    || (k in d.creds && d.creds[k].updatedAt + 604800 >= now)
    || ((k.target, k.stamp) in d.seen && d.seen[(k.target, k.stamp)] + 604800 > now)
  }

  function CodeOf(flow: Flow, id: Secret, now: int): AuthCode {
    AuthCode(id, flow.client, flow.redirect, flow.challenge, now)
  }

  // The snapshot does not serve, under the session's target, what the table has: an admin entry
  // whose stamp is not the row's, or anything else while there is a row.
  predicate IsUnsure(snap: Snapshot, s: Session, rows: Targets.Rows) {
    if s.target in snap.byName && snap.byName[s.target].target.source == Admin then
      !(s.target in rows && rows[s.target].stamp == snap.byName[s.target].stamp)
    else s.target in rows
  }

  lemma SureOfTheSession(snap: Snapshot, s: Session, rows: Targets.Rows)
    ensures VerdictFor(snap, s, rows) ==
      if IsUnsure(snap, s, rows) then TryLater
      else if s.target in snap.byName && s.stamp == snap.byName[s.target].stamp then Issue
      else TargetGone
  {
  }

  function VerdictFor(snap: Snapshot, s: Session, rows: Targets.Rows): RefreshVerdict {
    JudgeRefresh(Find(Some(snap), s.target), s.stamp, Targets.CurrentStamp(rows, s.target))
  }
}
