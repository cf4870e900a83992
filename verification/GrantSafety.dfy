/** What every interleaving of grants keeps: one spendable grant to a session, and reuse that
    is caught when, and only when, it is reuse. */
module GrantSafety {
  import opened Wrappers
  import opened Bytes
  import opened OAuthTables
  import opened Grants

  // ---------- the invariant ----------

  // A code demands what its callback owed.
  ghost predicate Demands(rec: AuthCode, owed: Owed) {
    rec.client == owed.client && rec.redirect == owed.redirect && rec.challenge == owed.challenge
  }

  // The foreign keys, and one client to a session.
  ghost predicate RowsOk(s: State) {
    && (forall id :: id in s.db.sessions ==> id in s.owner && id in s.drawn)
    && (forall c :: c in s.db.codes ==>
         c in s.drawn && s.db.codes[c].session in s.db.sessions && Demands(s.db.codes[c], s.owner[s.db.codes[c].session]))
    && (forall t :: t in s.db.access ==>
         t in s.drawn && s.db.access[t].session in s.db.sessions && s.db.access[t].client == s.owner[s.db.access[t].session].client)
    && (forall t :: t in s.db.refresh ==>
         t in s.drawn && s.db.refresh[t].session in s.db.sessions && s.db.refresh[t].client == s.owner[s.db.refresh[t].session].client)
    && (forall id :: id in s.owing ==> id in s.drawn && id in s.owner && s.owing[id] == s.owner[id])
  }

  // A grant's lock keeps what it took as it was.
  ghost predicate GrantOk(s: State, g: Grant) {
    && (g.took.TookCode? ==> g.took.x.code in s.db.codes && s.db.codes[g.took.x.code] == g.took.rec)
    && (g.took.TookRefresh? ==>
         g.took.token in s.db.refresh && s.db.refresh[g.took.token] == g.took.row && !g.took.row.used)
    && (g.pair.Some? ==>
         && g.took.Any() && (g.took.TookCode? ==> Proves(g.took.rec, g.took.x))
         && g.pair.value.session == g.took.Session() && g.pair.value.client == g.took.Client()
         && g.pair.value.session in s.db.sessions
         && g.pair.value.refresh in s.drawn && g.pair.value.access in s.drawn
         && g.pair.value.refresh !in s.db.refresh && g.pair.value.refresh !in s.consumed
         && g.pair.value.access !in s.db.access)
  }

  ghost predicate Apart(g: Grant, h: Grant) {
    && (g.took.TookCode? && h.took.TookCode? ==> g.took.x.code != h.took.x.code)
    && (g.took.TookRefresh? && h.took.TookRefresh? ==> g.took.token != h.took.token)
    && (g.pair.Some? && h.pair.Some? ==>
         g.pair.value.refresh != h.pair.value.refresh && g.pair.value.access != h.pair.value.access)
  }

  ghost predicate GrantsOk(s: State) {
    && (forall tx :: tx in s.grants ==> GrantOk(s, s.grants[tx]))
    && forall tx, ty :: tx in s.grants && ty in s.grants && tx != ty ==> Apart(s.grants[tx], s.grants[ty])
  }

  // What could still buy a session tokens: a code, an unused refresh token, or the code a
  // callback has yet to insert.
  datatype Spendable = ACode(code: Secret) | AToken(token: Secret) | AnOwedCode

  ghost predicate Spends(s: State, x: Spendable, id: Secret) {
    match x
    case ACode(c) => c in s.db.codes && s.db.codes[c].session == id
    case AToken(t) => t in s.db.refresh && s.db.refresh[t].session == id && !s.db.refresh[t].used
    case AnOwedCode => id in s.owing
  }

  ghost predicate OneSpendable(s: State) {
    forall id, x, y :: Spends(s, x, id) && Spends(s, y, id) ==> x == y
  }

  // A token is marked used exactly when a grant that consumed it has committed.
  ghost predicate UsedMeansConsumed(s: State) {
    && (forall t :: t in s.db.refresh ==> (s.db.refresh[t].used <==> t in s.consumed))
    && (forall t :: t in s.consumed ==> t in s.drawn)
    && (forall tx :: tx in s.reuses ==> s.reuses[tx].token in s.consumed && s.reuses[tx].session in s.drawn)
  }

  ghost predicate Inv(s: State) {
    RowsOk(s) && GrantsOk(s) && OneSpendable(s) && UsedMeansConsumed(s)
  }

  // ---------- each step keeps it ----------

  // A step that only removes rows, none of them locked.
  ghost predicate Removes(s: State, s': State) {
    && s'.db.sessions.Keys <= s.db.sessions.Keys
    && (forall c :: c in s'.db.codes ==> c in s.db.codes && s'.db.codes[c] == s.db.codes[c])
    && (forall t :: t in s'.db.access ==> t in s.db.access && s'.db.access[t] == s.db.access[t])
    && (forall t :: t in s'.db.refresh ==> t in s.db.refresh && s'.db.refresh[t] == s.db.refresh[t])
    && s'.grants == s.grants && s'.owing == s.owing && s'.drawn == s.drawn && s'.owner == s.owner
    && s'.consumed == s.consumed
    && (forall tx :: tx in s'.reuses ==> tx in s.reuses && s'.reuses[tx] == s.reuses[tx])
  }

  lemma RemovalKeeps(s: State, s': State)
    requires Inv(s) && Removes(s, s')
    requires forall c :: c in s'.db.codes ==> s'.db.codes[c].session in s'.db.sessions
    requires forall t :: t in s'.db.access ==> s'.db.access[t].session in s'.db.sessions
    requires forall t :: t in s'.db.refresh ==> s'.db.refresh[t].session in s'.db.sessions
    requires forall tx :: tx in s.grants ==> GrantOk(s', s.grants[tx])
    ensures Inv(s')
  {
    forall id, x, y | Spends(s', x, id) && Spends(s', y, id) ensures x == y {
      assert Spends(s, x, id) && Spends(s, y, id);
    }
  }

  lemma DeleteSessionsKeeps(ttl: Lifetimes, s: State, s': State, ids: set<Secret>)
    requires Inv(s) && (forall id :: id in ids ==> !SessionLocked(s, id))
    requires s'.db == WithoutSessions(s.db, ids)
    requires s' == s.(db := s'.db, reuses := s'.reuses)
    requires forall tx :: tx in s'.reuses ==> tx in s.reuses && s'.reuses[tx] == s.reuses[tx]
    ensures Inv(s')
  {
    forall tx | tx in s.grants ensures GrantOk(s', s.grants[tx]) {
      assert GrantOk(s, s.grants[tx]);
      if s.grants[tx].took.Any() { assert SessionLocked(s, s.grants[tx].took.Session()); }
    }
    RemovalKeeps(s, s');
  }

  lemma DeleteRowsKeeps(ttl: Lifetimes, s: State, step: Step)
    requires Inv(s) && Enabled(ttl, s, step)
    requires step.DeleteCodes? || step.DeleteAccess? || step.DeleteRefresh?
    ensures Inv(Next(ttl, s, step))
  {
    var s' := Next(ttl, s, step);
    forall tx | tx in s.grants ensures GrantOk(s', s.grants[tx]) {
      assert GrantOk(s, s.grants[tx]);
      if s.grants[tx].took.TookCode? { assert CodeLocked(s, s.grants[tx].took.x.code); }
      if s.grants[tx].took.TookRefresh? { assert RefreshLocked(s, s.grants[tx].took.token); }
    }
    RemovalKeeps(s, s');
  }

  lemma OpenSessionKeeps(ttl: Lifetimes, s: State, id: Secret, session: Session, owed: Owed)
    requires Inv(s) && Enabled(ttl, s, OpenSession(id, session, owed))
    ensures Inv(Next(ttl, s, OpenSession(id, session, owed)))
  {
    var s' := Next(ttl, s, OpenSession(id, session, owed));
    forall tx | tx in s'.grants ensures GrantOk(s', s'.grants[tx]) {
      assert GrantOk(s, s.grants[tx]);
    }
    forall i, x, y | Spends(s', x, i) && Spends(s', y, i) ensures x == y {
      if i != id { assert Spends(s, x, i) && Spends(s, y, i); }
    }
  }

  lemma IssueCodeKeeps(ttl: Lifetimes, s: State, id: Secret, code: Secret, at: int)
    requires Inv(s) && Enabled(ttl, s, IssueCode(id, code, at))
    ensures Inv(Next(ttl, s, IssueCode(id, code, at)))
  {
    var s' := Next(ttl, s, IssueCode(id, code, at));
    forall tx | tx in s'.grants ensures GrantOk(s', s'.grants[tx]) {
      assert GrantOk(s, s.grants[tx]);
    }
    assert Spends(s, AnOwedCode, id);
    forall i, x, y | Spends(s', x, i) && Spends(s', y, i) ensures x == y {
      // The code stands for what the callback owed.
      var before := (z: Spendable) => if i == id && z == ACode(code) then AnOwedCode else z;
      assert Spends(s, before(x), i) && Spends(s, before(y), i);
    }
  }

  lemma DropOwedKeeps(ttl: Lifetimes, s: State, id: Secret)
    requires Inv(s) && Enabled(ttl, s, DropOwed(id))
    ensures Inv(Next(ttl, s, DropOwed(id)))
  {
    var s' := Next(ttl, s, DropOwed(id));
    forall tx | tx in s'.grants ensures GrantOk(s', s'.grants[tx]) {
      assert GrantOk(s, s.grants[tx]);
    }
    forall i, x, y | Spends(s', x, i) && Spends(s', y, i) ensures x == y {
      assert Spends(s, x, i) && Spends(s, y, i);
    }
  }

  lemma RewriteTokenKeeps(ttl: Lifetimes, s: State, step: Step)
    requires Inv(s) && Enabled(ttl, s, step) && step.RewriteToken?
    ensures Inv(Next(ttl, s, step))
  {
    var s' := Next(ttl, s, step);
    assert s'.db.sessions.Keys == s.db.sessions.Keys;
    forall tx | tx in s'.grants ensures GrantOk(s', s'.grants[tx]) {
      assert GrantOk(s, s.grants[tx]);
    }
    forall i, x, y | Spends(s', x, i) && Spends(s', y, i) ensures x == y {
      assert Spends(s, x, i) && Spends(s, y, i);
    }
  }

  // Beginning, taking and pairing change one grant and no table.
  lemma OneGrantChanges(s: State, s': State, tx: Tx, g: Grant)
    requires Inv(s) && s' == s.(grants := s.grants[tx := g], drawn := s'.drawn) && s.drawn <= s'.drawn
    requires GrantOk(s', g)
    requires forall ty :: ty in s.grants && ty != tx ==> Apart(g, s.grants[ty]) && Apart(s.grants[ty], g)
    ensures Inv(s')
  {
    forall ty | ty in s'.grants ensures GrantOk(s', s'.grants[ty]) {
      if ty != tx { assert GrantOk(s, s.grants[ty]); }
    }
    forall ty, tz | ty in s'.grants && tz in s'.grants && ty != tz ensures Apart(s'.grants[ty], s'.grants[tz]) {
      if ty != tx && tz != tx { assert Apart(s.grants[ty], s.grants[tz]); }
    }
    SameSpends(s, s');
  }

  lemma SameSpends(s: State, s': State)
    requires OneSpendable(s) && s'.db == s.db && s'.owing == s.owing
    ensures OneSpendable(s')
  {
    forall i, x, y | Spends(s', x, i) && Spends(s', y, i) ensures x == y {
      assert Spends(s, x, i) && Spends(s, y, i);
    }
  }

  lemma TakeKeeps(ttl: Lifetimes, s: State, step: Step)
    requires Inv(s) && Enabled(ttl, s, step) && (step.Begin? || step.TakeCode? || step.TakeRefresh?)
    ensures Inv(Next(ttl, s, step))
  {
    var s' := Next(ttl, s, step);
    var g := s'.grants[step.tx];
    if step.tx in s.grants { assert GrantOk(s, s.grants[step.tx]); }
    assert GrantOk(s', g);
    forall ty | ty in s.grants && ty != step.tx ensures Apart(g, s.grants[ty]) && Apart(s.grants[ty], g) {
      if step.TakeCode? && s.grants[ty].took.TookCode? { assert s.grants[ty].took.x.code != step.x.code; }
      if step.TakeRefresh? && s.grants[ty].took.TookRefresh? { assert s.grants[ty].took.token != step.token; }
    }
    OneGrantChanges(s, s', step.tx, g);
  }

  lemma CreatePairKeeps(ttl: Lifetimes, s: State, tx: Tx, access: Secret, refresh: Secret)
    requires Inv(s) && Enabled(ttl, s, CreatePair(tx, access, refresh))
    ensures Inv(Next(ttl, s, CreatePair(tx, access, refresh)))
  {
    var s' := Next(ttl, s, CreatePair(tx, access, refresh));
    var g := s'.grants[tx];
    assert GrantOk(s, s.grants[tx]);
    assert GrantOk(s', g);
    forall ty | ty in s.grants && ty != tx ensures Apart(g, s.grants[ty]) && Apart(s.grants[ty], g) {
      assert GrantOk(s, s.grants[ty]) && Apart(s.grants[tx], s.grants[ty]);
    }
    OneGrantChanges(s, s', tx, g);
  }

  lemma RollbackKeeps(ttl: Lifetimes, s: State, tx: Tx)
    requires Inv(s) && Enabled(ttl, s, Rollback(tx))
    ensures Inv(Next(ttl, s, Rollback(tx)))
  {
    var s' := Next(ttl, s, Rollback(tx));
    forall ty | ty in s'.grants ensures GrantOk(s', s'.grants[ty]) {
      assert GrantOk(s, s.grants[ty]);
    }
    SameSpends(s, s');
  }

  // What a commit consumes no other grant holds.
  lemma OtherGrantsKeep(s: State, s': State, tx: Tx)
    requires Inv(s) && tx in s.grants && s.grants[tx].took.Any() && s'.grants == s.grants - {tx}
    requires s'.drawn == s.drawn
    requires forall t :: t in s'.consumed ==> t in s.consumed || t in s.db.refresh
    requires s'.db == Consumed(s.db, s.grants[tx].took)
          || (s.grants[tx].pair.Some? &&
              s'.db == WithPair(Consumed(s.db, s.grants[tx].took), s.grants[tx].pair.value, s.grants[tx].began))
    ensures GrantsOk(s')
  {
    assert GrantOk(s, s.grants[tx]);
    forall ty | ty in s'.grants ensures GrantOk(s', s'.grants[ty]) {
      assert GrantOk(s, s.grants[ty]) && Apart(s.grants[tx], s.grants[ty]);
    }
    forall ty, tz | ty in s'.grants && tz in s'.grants && ty != tz ensures Apart(s'.grants[ty], s'.grants[tz]) {
      assert Apart(s.grants[ty], s.grants[tz]);
    }
  }

  lemma SpendMismatchedKeeps(ttl: Lifetimes, s: State, tx: Tx)
    requires Inv(s) && Enabled(ttl, s, SpendMismatched(tx))
    ensures Inv(Next(ttl, s, SpendMismatched(tx)))
  {
    var s' := Next(ttl, s, SpendMismatched(tx));
    OtherGrantsKeep(s, s', tx);
    forall i, x, y | Spends(s', x, i) && Spends(s', y, i) ensures x == y {
      assert Spends(s, x, i) && Spends(s, y, i);
    }
  }

  // What is spendable after a commit was spendable before it, once the new refresh token is
  // read as what it was bought with.
  lemma SpentBefore(s: State, g: Grant, x: Spendable, id: Secret)
    requires g.took.Any() && GrantOk(s, g) && g.pair.Some?
    requires Spends(s.(db := WithPair(Consumed(s.db, g.took), g.pair.value, g.began)), x, id)
    ensures Spends(s, if x == AToken(g.pair.value.refresh) then Bought(g.took) else x, id)
    ensures x != Bought(g.took)
  {
  }

  function Bought(took: Took): Spendable
    requires took.Any()
  {
    if took.TookCode? then ACode(took.x.code) else AToken(took.token)
  }

  lemma CommitKeepsOneSpendable(s: State, s': State, g: Grant)
    requires OneSpendable(s) && g.took.Any() && GrantOk(s, g) && g.pair.Some?
    requires s'.db == WithPair(Consumed(s.db, g.took), g.pair.value, g.began) && s'.owing == s.owing
    ensures OneSpendable(s')
  {
    var m, refresh := s.(db := s'.db), AToken(g.pair.value.refresh);
    forall i, x, y | Spends(s', x, i) && Spends(s', y, i) ensures x == y {
      assert Spends(m, x, i) && Spends(m, y, i);
      SpentBefore(s, g, x, i);
      SpentBefore(s, g, y, i);
    }
  }

  lemma PairedRows(s: State, s': State, g: Grant)
    requires RowsOk(s) && GrantOk(s, g) && g.pair.Some?
    requires s'.db == WithPair(Consumed(s.db, g.took), g.pair.value, g.began)
    requires s'.owing == s.owing && s'.owner == s.owner && s'.drawn == s.drawn
    ensures RowsOk(s')
  {
    var client := g.took.Client();
    assert g.pair.value.session in s.db.sessions && client == s.owner[g.pair.value.session].client;
  }

  lemma CommitKeepsRows(ttl: Lifetimes, s: State, tx: Tx)
    requires RowsOk(s) && Enabled(ttl, s, Commit(tx)) && GrantOk(s, s.grants[tx])
    ensures RowsOk(Next(ttl, s, Commit(tx)))
  {
    PairedRows(s, Next(ttl, s, Commit(tx)), s.grants[tx]);
  }

  lemma CommitKeepsUsed(ttl: Lifetimes, s: State, tx: Tx)
    requires UsedMeansConsumed(s) && GrantsOk(s) && RowsOk(s) && Enabled(ttl, s, Commit(tx))
    ensures UsedMeansConsumed(Next(ttl, s, Commit(tx)))
  {
    assert GrantOk(s, s.grants[tx]);
  }

  lemma CommitKeeps(ttl: Lifetimes, s: State, tx: Tx)
    requires Inv(s) && Enabled(ttl, s, Commit(tx))
    ensures Inv(Next(ttl, s, Commit(tx)))
  {
    assert GrantOk(s, s.grants[tx]);
    CommitKeepsRows(ttl, s, tx);
    CommitKeepsUsed(ttl, s, tx);
    CommitKeepsOneSpendable(s, Next(ttl, s, Commit(tx)), s.grants[tx]);
    OtherGrantsKeep(s, Next(ttl, s, Commit(tx)), tx);
  }

  lemma ProbeKeeps(ttl: Lifetimes, s: State, tx: Tx, token: Secret)
    requires Inv(s) && Enabled(ttl, s, Probe(tx, token))
    ensures Inv(Next(ttl, s, Probe(tx, token)))
  {
    var s' := Next(ttl, s, Probe(tx, token));
    forall ty | ty in s'.grants ensures GrantOk(s', s'.grants[ty]) {
      assert GrantOk(s, s.grants[ty]);
    }
    forall i, x, y | Spends(s', x, i) && Spends(s', y, i) ensures x == y {
      assert Spends(s, x, i) && Spends(s, y, i);
    }
  }

  lemma TickKeeps(ttl: Lifetimes, s: State, now: int)
    requires Inv(s) && Enabled(ttl, s, Tick(now))
    ensures Inv(Next(ttl, s, Tick(now)))
  {
    var s' := Next(ttl, s, Tick(now));
    forall ty | ty in s'.grants ensures GrantOk(s', s'.grants[ty]) {
      assert GrantOk(s, s.grants[ty]);
    }
    forall i, x, y | Spends(s', x, i) && Spends(s', y, i) ensures x == y {
      assert Spends(s, x, i) && Spends(s, y, i);
    }
  }

  lemma StepKeeps(ttl: Lifetimes, s: State, step: Step)
    requires Inv(s) && Enabled(ttl, s, step)
    ensures Inv(Next(ttl, s, step))
  {
    match step
    case Tick(now) => TickKeeps(ttl, s, now);
    case OpenSession(id, session, owed) => OpenSessionKeeps(ttl, s, id, session, owed);
    case IssueCode(id, code, at) => IssueCodeKeeps(ttl, s, id, code, at);
    case DropOwed(id) => DropOwedKeeps(ttl, s, id);
    case SpendMismatched(tx) => SpendMismatchedKeeps(ttl, s, tx);
    case RewriteToken(_, _, _) => RewriteTokenKeeps(ttl, s, step);
    case Commit(tx) => CommitKeeps(ttl, s, tx);
    case Probe(tx, token) => ProbeKeeps(ttl, s, tx, token);
    case RevokeReused(tx) =>
      DeleteSessionsKeeps(ttl, s, Next(ttl, s, step), {s.reuses[tx].session});
    case DeleteSessions(ids) => DeleteSessionsKeeps(ttl, s, Next(ttl, s, step), ids);
    case DeleteCodes(_) => DeleteRowsKeeps(ttl, s, step);
    case DeleteAccess(_) => DeleteRowsKeeps(ttl, s, step);
    case DeleteRefresh(_) => DeleteRowsKeeps(ttl, s, step);
    case CreatePair(tx, access, refresh) => CreatePairKeeps(ttl, s, tx, access, refresh);
    case Rollback(tx) => RollbackKeeps(ttl, s, tx);
    case _ => TakeKeeps(ttl, s, step);
  }

  // ---------- runs ----------

  ghost predicate Reaches(ttl: Lifetimes, a: State, steps: seq<Step>, b: State)
    decreases |steps|
  {
    if steps == [] then a == b
    else Enabled(ttl, a, steps[0]) && Reaches(ttl, Next(ttl, a, steps[0]), steps[1..], b)
  }

  lemma {:induction false} ReachesKeepsInv(ttl: Lifetimes, a: State, steps: seq<Step>, b: State)
    requires Inv(a) && Reaches(ttl, a, steps, b)
    ensures Inv(b) && a.drawn <= b.drawn && a.consumed <= b.consumed
    decreases |steps|
  {
    if steps != [] {
      StepKeeps(ttl, a, steps[0]);
      ReachesKeepsInv(ttl, Next(ttl, a, steps[0]), steps[1..], b);
    }
  }

  function CodesOf(db: Tables, id: Secret): set<Secret> {
    set c | c in db.codes && db.codes[c].session == id
  }

  function UnusedOf(db: Tables, id: Secret): set<Secret> {
    set t | t in db.refresh && db.refresh[t].session == id && !db.refresh[t].used
  }

  lemma AtMostOne(a: set<Secret>)
    requires forall x, y :: x in a && y in a ==> x == y
    ensures |a| <= 1
  {
    if a != {} {
      var x :| x in a;
      assert a == {x};
    }
  }

  lemma OneKindOnly(s: State, id: Secret)
    requires OneSpendable(s)
    ensures |CodesOf(s.db, id)| <= 1 && |UnusedOf(s.db, id)| <= 1
    ensures CodesOf(s.db, id) == {} || UnusedOf(s.db, id) == {}
    ensures id in s.owing ==> CodesOf(s.db, id) == {} && UnusedOf(s.db, id) == {}
  {
    var codes, tokens := CodesOf(s.db, id), UnusedOf(s.db, id);
    forall c | c in codes ensures Spends(s, ACode(c), id) {}
    forall t | t in tokens ensures Spends(s, AToken(t), id) {}
    assert id in s.owing ==> Spends(s, AnOwedCode, id);
    AtMostOne(codes);
    AtMostOne(tokens);
    assert forall c, t :: c in codes && t in tokens ==> ACode(c) == AToken(t);
  }

  /** One spendable grant: in every interleaving of code exchanges, refreshes, commits,
      rollbacks, revocations and sweeps, a session's committed codes and unused refresh tokens
      together number at most one, and none while its callback still owes the code. */
  lemma OneSpendableGrant(ttl: Lifetimes, steps: seq<Step>, s: State, id: Secret)
    requires Reaches(ttl, INITIAL, steps, s)
    ensures |CodesOf(s.db, id)| + |UnusedOf(s.db, id)| <= if id in s.owing then 0 else 1
  {
    ReachesKeepsInv(ttl, INITIAL, steps, s);
    OneKindOnly(s, id);
  }

  // ---------- rolling back ----------

  // What a transaction does short of committing.
  ghost predicate Own(step: Step, tx: Tx) {
    match step
    case Begin(ty) => ty == tx
    case TakeCode(ty, _) => ty == tx
    case TakeRefresh(ty, _, _) => ty == tx
    case CreatePair(ty, _, _) => ty == tx
    case Rollback(ty) => ty == tx
    case _ => false
  }

  ghost predicate NeverCommits(steps: seq<Step>, tx: Tx) {
    forall i :: 0 <= i < |steps| ==> steps[i] != Commit(tx) && steps[i] != SpendMismatched(tx)
  }

  // The same run, had the transaction never been.
  ghost function Erased(steps: seq<Step>, tx: Tx): seq<Step> {
    if steps == [] then []
    else (if Own(steps[0], tx) then [] else [steps[0]]) + Erased(steps[1..], tx)
  }

  // `bare` is s but for this transaction, and for secrets it drew.
  ghost predicate SameBut(s: State, bare: State, tx: Tx) {
    bare == s.(grants := s.grants - {tx}, drawn := bare.drawn) && bare.drawn <= s.drawn
  }

  lemma OwnStepsLeaveNoTrace(ttl: Lifetimes, s: State, bare: State, step: Step, tx: Tx)
    requires SameBut(s, bare, tx) && Enabled(ttl, s, step) && Own(step, tx)
    ensures SameBut(Next(ttl, s, step), bare, tx)
  {
    assert Next(ttl, s, step).grants - {tx} == s.grants - {tx};
  }

  // Locks it held only stood in the way of others.
  lemma OthersStayEnabled(ttl: Lifetimes, s: State, bare: State, step: Step, tx: Tx)
    requires SameBut(s, bare, tx) && Enabled(ttl, s, step) && !Own(step, tx)
    requires step != Commit(tx) && step != SpendMismatched(tx)
    ensures Enabled(ttl, bare, step)
  {
    assert forall ty :: ty in bare.grants ==> ty in s.grants && bare.grants[ty] == s.grants[ty];
    assert forall c :: CodeLocked(bare, c) ==> CodeLocked(s, c);
    assert forall t :: RefreshLocked(bare, t) ==> RefreshLocked(s, t);
    assert forall id :: SessionLocked(bare, id) ==> SessionLocked(s, id);
  }

  lemma OthersDoTheSame(ttl: Lifetimes, s: State, bare: State, step: Step, tx: Tx)
    requires SameBut(s, bare, tx) && Enabled(ttl, s, step) && !Own(step, tx) && Enabled(ttl, bare, step)
    requires step != Commit(tx) && step != SpendMismatched(tx)
    ensures SameBut(Next(ttl, s, step), Next(ttl, bare, step), tx)
  {
    var s', bare' := Next(ttl, s, step), Next(ttl, bare, step);
    assert s'.grants - {tx} == bare'.grants;
  }

  lemma {:induction false} ErasedFrom(ttl: Lifetimes, a: State, bare: State, steps: seq<Step>, b: State, tx: Tx)
    requires Reaches(ttl, a, steps, b) && NeverCommits(steps, tx) && SameBut(a, bare, tx)
    ensures exists end :: Reaches(ttl, bare, Erased(steps, tx), end) && SameBut(b, end, tx)
    decreases |steps|
  {
    if steps == [] {
      assert Reaches(ttl, bare, [], bare);
    } else {
      var m := Next(ttl, a, steps[0]);
      assert NeverCommits(steps[1..], tx) by {
        assert forall i :: 0 <= i < |steps[1..]| ==> steps[1..][i] == steps[i + 1];
      }
      assert steps[0] != Commit(tx) && steps[0] != SpendMismatched(tx);
      if Own(steps[0], tx) {
        OwnStepsLeaveNoTrace(ttl, a, bare, steps[0], tx);
        ErasedFrom(ttl, m, bare, steps[1..], b, tx);
        assert Erased(steps, tx) == Erased(steps[1..], tx);
      } else {
        OthersStayEnabled(ttl, a, bare, steps[0], tx);
        OthersDoTheSame(ttl, a, bare, steps[0], tx);
        ErasedFrom(ttl, m, Next(ttl, bare, steps[0]), steps[1..], b, tx);
        var end :| Reaches(ttl, Next(ttl, bare, steps[0]), Erased(steps[1..], tx), end) && SameBut(b, end, tx);
        assert ([steps[0]] + Erased(steps[1..], tx))[1..] == Erased(steps[1..], tx);
        assert Reaches(ttl, bare, Erased(steps, tx), end);
      }
    }
  }

  ghost predicate EndsAlike(ttl: Lifetimes, a: State, steps: seq<Step>, b: State, tx: Tx) {
    exists end ::
      && Reaches(ttl, a, Erased(steps, tx), end) && SameBut(b, end, tx)
      && (tx !in b.grants ==> end == b.(drawn := end.drawn))
  }

  /** A grant that does not commit takes back exactly what it took. Whatever exchanges,
      refreshes, commits, revocations and sweeps come between, the same run without it is
      possible and ends with the same tables, clock and probes, and the same other grants; and
      once it has rolled back there is nothing of it left at all. */
  lemma RollbackRestores(ttl: Lifetimes, a: State, steps: seq<Step>, b: State, tx: Tx)
    requires Reaches(ttl, a, steps, b) && tx !in a.grants && NeverCommits(steps, tx)
    ensures EndsAlike(ttl, a, steps, b, tx)
  {
    assert SameBut(a, a, tx) by { assert a.grants - {tx} == a.grants; }
    ErasedFrom(ttl, a, a, steps, b, tx);
    var end :| Reaches(ttl, a, Erased(steps, tx), end) && SameBut(b, end, tx);
    assert tx !in b.grants ==> b.grants - {tx} == b.grants;
  }

  // ---------- what a code's grant proves ----------

  /** No grant commits for a code unless its exchange named the code's client and redirect,
      and its verifier hashes to the challenge the session was opened with, whatever ran
      between taking the code and issuing the pair; and none spends a code as mismatched if it
      did. */
  lemma CodesAreSpentOnProof(ttl: Lifetimes, steps: seq<Step>, s: State, tx: Tx)
    requires Reaches(ttl, INITIAL, steps, s) && tx in s.grants && s.grants[tx].took.TookCode?
    ensures var (x, rec) := (s.grants[tx].took.x, s.grants[tx].took.rec);
            && rec.session in s.owner && Demands(rec, s.owner[rec.session])
            && (Enabled(ttl, s, Commit(tx)) ==>
              && x.client == s.owner[rec.session].client && x.redirect == s.owner[rec.session].redirect
              && x.verifier != [] && S256(x.verifier) == s.owner[rec.session].challenge)
            && (Enabled(ttl, s, SpendMismatched(tx)) ==> !Proves(rec, x))
  {
    ReachesKeepsInv(ttl, INITIAL, steps, s);
    HeldCodeIsProved(ttl, s, tx);
  }

  lemma HeldCodeIsProved(ttl: Lifetimes, s: State, tx: Tx)
    requires RowsOk(s) && GrantsOk(s) && tx in s.grants && s.grants[tx].took.TookCode?
    ensures var (x, rec) := (s.grants[tx].took.x, s.grants[tx].took.rec);
            && rec.session in s.db.sessions && rec.session in s.owner && Demands(rec, s.owner[rec.session])
            && (Enabled(ttl, s, Commit(tx)) ==> Proves(rec, x))
            && (Enabled(ttl, s, SpendMismatched(tx)) ==> !Proves(rec, x))
  {
    assert GrantOk(s, s.grants[tx]);
  }

  /** Undisturbed, the four statements of an exchange leave what one committed grant should:
      the code, which the exchange proved, gone, and one pair for its session and client. */
  lemma AnUndisturbedExchange(ttl: Lifetimes, s: State, tx: Tx, x: CodeRequest, access: Secret, refresh: Secret, b: State)
    requires Reaches(ttl, s, [Begin(tx), TakeCode(tx, x), CreatePair(tx, access, refresh), Commit(tx)], b)
    ensures LiveCode(s.db, x.code, s.clock).Some? && Proves(s.db.codes[x.code], x)
    ensures var rec := s.db.codes[x.code];
            b.db == WithPair(WithoutCode(s.db, x.code), Pair(access, refresh, rec.session, rec.client), s.clock)
  {
    var s1 := Next(ttl, s, Begin(tx));
    var s2 := Next(ttl, s1, TakeCode(tx, x));
    FourSteps(ttl, s, Begin(tx), TakeCode(tx, x), CreatePair(tx, access, refresh), Commit(tx), b);
    assert Enabled(ttl, s1, TakeCode(tx, x)) && Enabled(ttl, s2, CreatePair(tx, access, refresh));
  }

  /** And of a refresh: the token used, and one pair. */
  lemma AnUndisturbedRefresh(ttl: Lifetimes, s: State, tx: Tx, token: Secret, client: Text, access: Secret, refresh: Secret, b: State)
    requires Reaches(ttl, s, [Begin(tx), TakeRefresh(tx, token, client), CreatePair(tx, access, refresh), Commit(tx)], b)
    ensures LiveRefresh(s.db, ttl, token, client, s.clock).Some?
    ensures b.db == WithPair(MarkedUsed(s.db, token), Pair(access, refresh, s.db.refresh[token].session, client), s.clock)
  {
    var s1 := Next(ttl, s, Begin(tx));
    var s2 := Next(ttl, s1, TakeRefresh(tx, token, client));
    FourSteps(ttl, s, Begin(tx), TakeRefresh(tx, token, client), CreatePair(tx, access, refresh), Commit(tx), b);
    assert Enabled(ttl, s1, TakeRefresh(tx, token, client)) && Enabled(ttl, s2, CreatePair(tx, access, refresh));
  }

  ghost predicate EnabledInTurn(ttl: Lifetimes, s: State, p: Step, q: Step, r: Step, t: Step) {
    && Enabled(ttl, s, p) && Enabled(ttl, Next(ttl, s, p), q)
    && Enabled(ttl, Next(ttl, Next(ttl, s, p), q), r)
    && Enabled(ttl, Next(ttl, Next(ttl, Next(ttl, s, p), q), r), t)
  }

  lemma FirstStep(ttl: Lifetimes, s: State, step: Step, more: seq<Step>, b: State)
    requires Reaches(ttl, s, [step] + more, b)
    ensures Enabled(ttl, s, step) && Reaches(ttl, Next(ttl, s, step), more, b)
  {
    assert ([step] + more)[1..] == more;
  }

  lemma FourSteps(ttl: Lifetimes, s: State, p: Step, q: Step, r: Step, t: Step, b: State)
    requires Reaches(ttl, s, [p, q, r, t], b)
    ensures EnabledInTurn(ttl, s, p, q, r, t)
    ensures b == Next(ttl, Next(ttl, Next(ttl, Next(ttl, s, p), q), r), t)
  {
    assert [p, q, r, t] == [p] + [q, r, t] && [q, r, t] == [q] + [r, t] && [r, t] == [r] + [t] && [t] == [t] + [];
    FirstStep(ttl, s, p, [q, r, t], b);
    var s1 := Next(ttl, s, p);
    FirstStep(ttl, s1, q, [r, t], b);
    var s2 := Next(ttl, s1, q);
    FirstStep(ttl, s2, r, [t], b);
    FirstStep(ttl, Next(ttl, s2, r), t, [], b);
  }

  // ---------- reuse ----------

  /** A token that a committed grant consumed is never spent again, whichever client presents
      it, and for as long as its row is kept the probe names its session. An unused one is
      never taken for reuse, whatever client is named. */
  lemma ReplayIsAlwaysSeen(ttl: Lifetimes, steps: seq<Step>, s: State, token: Secret)
    requires Reaches(ttl, INITIAL, steps, s) && token in s.db.refresh
    ensures ReuseProbe(s.db, token).Some? <==> token in s.consumed
    ensures token in s.consumed ==>
      && (forall tx, client :: !Enabled(ttl, s, TakeRefresh(tx, token, client)))
      && ReuseProbe(s.db, token) == Some(s.db.refresh[token].session)
  {
    ReachesKeepsInv(ttl, INITIAL, steps, s);
  }

  ghost predicate Dead(s: State, id: Secret) { id in s.drawn && id !in s.db.sessions }

  lemma NothingOfTheDead(s: State, id: Secret)
    requires Inv(s) && Dead(s, id)
    ensures CodesOf(s.db, id) == {} && UnusedOf(s.db, id) == {}
    ensures forall t :: t in s.db.access ==> s.db.access[t].session != id
    ensures forall t :: t in s.db.refresh ==> s.db.refresh[t].session != id
  {
  }

  lemma {:induction false} DeadStaysDead(ttl: Lifetimes, a: State, steps: seq<Step>, b: State, id: Secret)
    requires Inv(a) && Reaches(ttl, a, steps, b) && Dead(a, id)
    ensures Dead(b, id)
    decreases |steps|
  {
    if steps != [] {
      StepKeeps(ttl, a, steps[0]);
      DeadStaysDead(ttl, Next(ttl, a, steps[0]), steps[1..], b, id);
    }
  }

  /** Reuse ends the session: once the revocation a replay leads to has committed, neither the
      session nor any code or token of it exists in any later state. */
  lemma ReuseEndsTheSession(ttl: Lifetimes, steps: seq<Step>, s: State, tx: Tx, later: seq<Step>, b: State)
    requires Reaches(ttl, INITIAL, steps, s) && Enabled(ttl, s, RevokeReused(tx))
    requires Reaches(ttl, Next(ttl, s, RevokeReused(tx)), later, b)
    ensures var id := s.reuses[tx].session;
            && id !in b.db.sessions && CodesOf(b.db, id) == {}
            && (forall t :: t in b.db.access ==> b.db.access[t].session != id)
            && (forall t :: t in b.db.refresh ==> b.db.refresh[t].session != id)
  {
    ReachesKeepsInv(ttl, INITIAL, steps, s);
    StepKeeps(ttl, s, RevokeReused(tx));
    var m := Next(ttl, s, RevokeReused(tx));
    DeadStaysDead(ttl, m, later, b, s.reuses[tx].session);
    ReachesKeepsInv(ttl, m, later, b);
    NothingOfTheDead(b, s.reuses[tx].session);
  }

  ghost predicate CommittedConsuming(ttl: Lifetimes, a: State, steps: seq<Step>, token: Secret)
    decreases |steps|
  {
    steps != [] && Enabled(ttl, a, steps[0]) &&
    ((steps[0].Commit? && a.grants[steps[0].tx].took.TookRefresh? && a.grants[steps[0].tx].took.token == token)
     || CommittedConsuming(ttl, Next(ttl, a, steps[0]), steps[1..], token))
  }

  lemma {:induction false} ConsumedByACommit(ttl: Lifetimes, a: State, steps: seq<Step>, b: State, token: Secret)
    requires Reaches(ttl, a, steps, b) && token in b.consumed && token !in a.consumed
    ensures CommittedConsuming(ttl, a, steps, token)
    decreases |steps|
  {
    var m := Next(ttl, a, steps[0]);
    if token !in m.consumed {
      ConsumedByACommit(ttl, m, steps[1..], b, token);
    }
  }

  /** Only reuse: whenever the probe condemns a session, a grant that consumed that token had
      committed earlier in the run. */
  lemma OnlyReuseIsRevoked(ttl: Lifetimes, steps: seq<Step>, s: State, tx: Tx, token: Secret)
    requires Reaches(ttl, INITIAL, steps, s) && Enabled(ttl, s, Probe(tx, token))
    ensures CommittedConsuming(ttl, INITIAL, steps, token)
  {
    ReachesKeepsInv(ttl, INITIAL, steps, s);
    ConsumedByACommit(ttl, INITIAL, steps, s, token);
  }
}
