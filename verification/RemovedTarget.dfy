/** A run in which a target is removed under a session of it: an administrator saves a target, a
    replica serves it, somebody signs in to it, and it is removed, so that the session's stamp is
    retired and the purge has the session to take; and one in which a refresh has its token by
    then, and may still commit what it buys. */
module RemovedTarget {
  import opened Wrappers
  import opened Bytes
  import opened Stamps
  import opened Sealing
  import opened OAuthTables
  import opened Disk
  import opened Registries
  import opened RegistrySafety
  import opened World
  import opened Confinement
  import opened FenceSafety
  import opened PurgeSafety
  import opened Runs
  import Targets
  import Replicas
  import Grants

  // No config targets, and a policy that allows every row.
  function Trusting(): Config { Config.Config([], [], true, row => true) }

  function Served(): Target { ROW.target.(resource := Ascii("/") + NAME + Ascii("/mcp")) }

  function TheEntry(): Entry { Entry(Served(), ROW.stamp, NewProxy(Trusting(), Served(), 0)) }

  function TheSnapshot(): Snapshot {
    Snapshot([TheEntry()], map[NAME := TheEntry()], map[Served().resource := TheEntry()], true, 1, [])
  }

  // ---------- the replica ----------

  lemma RowIsUsable()
    ensures Usable(Trusting(), ROW) == Some(Served())
  {
    assert |PROVIDER_TOKEN| == 14 && |STATIC| == 6 && |PER_USER| == 8;
    assert |Ascii("admin")| == 5 && |Ascii("settings")| == 8;
    assert [] + Ascii("/") + NAME + Ascii("/mcp") == Served().resource;
  }

  lemma MergedRow()
    ensures Merged(Trusting(), [ROW]) == [Served()]
  {
    RowIsUsable();
    assert [ROW][..0] == [];
    assert UsableTargets(Trusting(), [ROW]) == UsableTargets(Trusting(), [ROW][..0]) + [Served()];
  }

  lemma RowSnapshot()
    ensures Rebuilt(Trusting(), None, [ROW], 1, 0) == TheSnapshot()
  {
    MergedRow();
    assert EntriesFor(Trusting(), None, [Served()], 0) == [TheEntry()];
    assert [TheEntry()][..0] == [];
    assert ByName([TheEntry()][..0]) == map[] && ByResource([TheEntry()][..0]) == map[];
  }

  function Serving(): Replicas.Replica { Replicas.Replica(Some(TheSnapshot()), 1, Replicas.Idle) }

  lemma RowIsServed() returns (w: State)
    ensures Reachable(Trusting(), LONG, w) && w == INITIAL.(served := w.served)
    ensures w.served.replicas == map[0 := Serving()]
    ensures Quiet(w.served.targets, map[NAME := ROW], 1, [map[], map[NAME := ROW]])
  {
    Boots(Trusting());
    var booted := INITIAL.(served := Replicas.State(Targets.INITIAL, map[0 := Replicas.BOOTING]));
    var w1 := RowReaches(Trusting(), booted);
    assert Lists([ROW], Rows(w1));
    Rebuilds(Trusting(), w1, [ROW]);
    MergedRow();
    RowSnapshot();
    w := w1.(served := w1.served.(replicas := w1.served.replicas[0 := Serving()]));
    assert w1.served.replicas[0 := Serving()] == map[0 := Serving()];
  }

  // ---------- the session ----------

  function FirstAsked(): Asked { Asked(Served(), Served().resource, NAME, NAME, S256([1]), 7) }

  function TheSession(): Session { SessionOf(Granted(FirstAsked()), Served(), [], TOKEN, 0) }

  lemma SignedIn() returns (w: State)
    ensures Reachable(Trusting(), LONG, w) && w.grants == Grants.INITIAL && w.writes == map[]
    ensures w.served.replicas == map[0 := Serving()]
    ensures Quiet(w.served.targets, map[NAME := ROW], 1, [map[], map[NAME := ROW]])
    ensures 1 in w.callbacks && w.callbacks[1] == Answered(Granted(FirstAsked()), Served(), TOKEN)
  {
    var w1 := RowIsServed();
    var w2 := ApprovalReaches(Trusting(), w1, FirstAsked());
    w := CallbackReaches(Trusting(), w2, Granted(FirstAsked()), Served());
  }

  function TheInsert(): Write { InsertSession(1, 2, TheSession(), OwedOf(Granted(FirstAsked())), []) }

  // The insert has its fence.
  lemma InsertIsFenced() returns (w: State)
    ensures Reachable(Trusting(), LONG, w) && w.grants == Grants.INITIAL && w.writes == map[0 := TheInsert()]
    ensures w.served.replicas == map[0 := Serving()]
    ensures w.served.targets.fences == map[0 := Targets.Fence(NAME, ROW.stamp, [])]
    ensures var s := w.served.targets;
            s.rows == map[NAME := ROW] && s.version == 1 && s.edits == map[] && s.tables == [map[], map[NAME := ROW]]
  {
    var w1 := SignedIn();
    var step := LockInsert(0, 1, 2, [], []);
    assert WriteFor(w1, step) == TheInsert();
    assert Name(TheInsert()) == NAME && StampFor(TheInsert()) == ROW.stamp;
    assert CanLock(w1, 0, TheInsert());
    OneStepFurther(Trusting(), LONG, w1, Writing(step));
    w := Wrote(Trusting(), LONG, w1, step);
  }

  lemma InsertMayCommit(w: State)
    requires w.grants == Grants.INITIAL && w.writes == map[0 := TheInsert()]
    requires w.served.targets.fences == map[0 := Targets.Fence(NAME, ROW.stamp, [])]
    ensures CanWrite(LONG, w, CommitWrite(0))
  {
    assert GroupsAdmit([], []);
  }

  lemma FenceIsReleased(s: Replicas.State)
    requires s.targets.fences == map[0 := Targets.Fence(NAME, ROW.stamp, [])]
    ensures var (s', done) := (s.targets, Replicas.Next(Trusting(), s, UnlockOf(0)).targets);
            done == s'.(fences := map[])
  {
    assert s.targets.fences - {0} == map[];
  }

  lemma SessionIsThere() returns (w: State)
    ensures Reachable(Trusting(), LONG, w) && w.grants == Grants.Next(LONG, Grants.INITIAL, Opened(TheSession()))
    ensures Quiet(w.served.targets, map[NAME := ROW], 1, [map[], map[NAME := ROW]])
    ensures w.served.replicas == map[0 := Serving()]
  {
    var w1 := InsertIsFenced();
    FenceIsReleased(w1.served);
    InsertMayCommit(w1);
    OneStepFurther(Trusting(), LONG, w1, Writing(CommitWrite(0)));
    w := Wrote(Trusting(), LONG, w1, CommitWrite(0));
  }

  lemma TargetIsRemoved() returns (w: State)
    ensures Reachable(Trusting(), LONG, w) && w.grants.db.sessions == map[2 := TheSession()] && w.grants.grants == map[]
    ensures w.served.targets.tables == [map[], map[NAME := ROW], map[]]
  {
    var w1 := SessionIsThere();
    w := RemovalReaches(Trusting(), w1, [map[], map[NAME := ROW]]);
    assert [map[], map[NAME := ROW]] + [map[]] == [map[], map[NAME := ROW], map[]];
  }

  lemma StampIsRetired(tables: seq<Targets.Rows>)
    requires tables == [map[], map[NAME := ROW], map[]]
    ensures Retired(tables, NAME, ROW.stamp)
  {
    assert Carried(tables, 1, NAME, ROW.stamp) && !Carried(tables, 2, NAME, ROW.stamp);
  }

  // A retired stamp, a session under it, and a purge that can run.
  ghost predicate AwaitsThePurge(cfg: Config, ttl: Lifetimes, w: State, name: Text, stamp: Stamp) {
    && Reachable(cfg, ttl, w) && Retired(w.served.targets.tables, name, stamp) && !NoSessionUnder(w, stamp)
    && Enabled(ttl, w, Purging(PurgeSessions([])))
  }

  lemma SessionAwaits(w: State)
    requires w.grants.db.sessions == map[2 := TheSession()] && w.grants.grants == map[]
    ensures !NoSessionUnder(w, ROW.stamp) && Enabled(LONG, w, Purging(PurgeSessions([])))
  {
    assert w.grants.db.sessions[2].stamp == ROW.stamp;
  }

  /** It happens: there is a reachable state in which a stamp is retired, a session under it is
      still there, and the purge that will take it can run. */
  lemma ASessionIsThereToPurge()
    ensures exists w :: AwaitsThePurge(Trusting(), LONG, w, NAME, ROW.stamp)
  {
    var w := TargetIsRemoved();
    StampIsRetired(w.served.targets.tables);
    SessionAwaits(w);
    assert AwaitsThePurge(Trusting(), LONG, w, NAME, ROW.stamp);
  }

  // ---------- a refresh crosses the removal ----------

  // The session has its tokens, and a grant has begun.
  lemma GrantIsBegun() returns (w: State)
    ensures Reachable(Trusting(), LONG, w) && SnapAt(w, 0) && Snap(w, 0) == TheSnapshot()
    ensures Quiet(w.served.targets, map[NAME := ROW], 1, [map[], map[NAME := ROW]])
    ensures w.grants.grants == map[0 := Grants.Grant(0, Grants.Nothing, None)] && w.grants.drawn == {2, 3, 4, 5}
    ensures w.grants.clock == 0 && w.grants.db.sessions == map[2 := TheSession()]
    ensures LiveRefresh(w.grants.db, LONG, 4, NAME, 0) == Some(Refresh(2, NAME, false, 0))
  {
    var w1 := SessionIsThere();
    var w2 := PairIsThere(Trusting(), w1, TheSession());
    GrantOn(Trusting(), w2, Grants.Begin(0));
    w := w2.(grants := Grants.Next(LONG, w2.grants, Grants.Begin(0)));
  }

  // The session is served, and a refresh has taken its token.
  lemma TokenIsTaken() returns (w: State)
    ensures Reachable(Trusting(), LONG, w) && SnapAt(w, 0) && Snap(w, 0) == TheSnapshot()
    ensures Quiet(w.served.targets, map[NAME := ROW], 1, [map[], map[NAME := ROW]])
    ensures 0 in w.taken && w.taken[0] == Taken(4, NAME, ROW.stamp, Some(ROW.stamp), 1, None)
    ensures w.grants.drawn == {2, 3, 4, 5} && AwaitsItsPair(w, None)
  {
    var w1 := GrantIsBegun();
    JudgeOn(Trusting(), w1, TakeToken(0, 4, NAME, 1));
    w := Judged(LONG, w1, TakeToken(0, 4, NAME, 1));
  }

  // The grant that has token 4 of the session, with this pair.
  ghost predicate AwaitsItsPair(w: State, pair: Option<Pair>) {
    && w.grants.clock == 0 && w.grants.db.sessions == map[2 := TheSession()]
    && w.grants.grants == map[0 := Grants.Grant(0, Grants.TookRefresh(4, Refresh(2, NAME, false, 0)), pair)]
    && 4 in w.grants.db.refresh && w.grants.db.refresh[4] == Refresh(2, NAME, false, 0)
  }

  lemma RefreshIsJudged() returns (w: State)
    ensures Reachable(Trusting(), LONG, w) && AwaitsItsPair(w, None) && w.grants.drawn == {2, 3, 4, 5}
    ensures 0 in w.taken && w.taken[0].verdict == Some(Issue)
    ensures Quiet(w.served.targets, map[NAME := ROW], 1, [map[], map[NAME := ROW]])
  {
    var w1 := TokenIsTaken();
    JudgeOn(Trusting(), w1, Judge(0, 0));
    w := Judged(LONG, w1, Judge(0, 0));
  }

  lemma PairIsWritten() returns (w: State)
    ensures Reachable(Trusting(), LONG, w) && AwaitsItsPair(w, Some(Pair(7, 6, 2, NAME)))
    ensures Quiet(w.served.targets, map[NAME := ROW], 1, [map[], map[NAME := ROW]])
  {
    var w1 := RefreshIsJudged();
    GrantOn(Trusting(), w1, Grants.CreatePair(0, 7, 6));
    w := w1.(grants := Grants.Next(LONG, w1.grants, Grants.CreatePair(0, 7, 6)));
  }

  // A refresh of a session under a retired stamp may commit its pair.
  ghost predicate MayStillBuy(cfg: Config, ttl: Lifetimes, w: State, tx: Grants.Tx, name: Text, stamp: Stamp) {
    && Reachable(cfg, ttl, w) && Retired(w.served.targets.tables, name, stamp)
    && RefreshesUnder(w, tx, stamp) && Enabled(ttl, w, Grant(Grants.Commit(tx)))
  }

  /** It happens: there is a reachable state in which a stamp is retired and a refresh that took its
      token before may commit a pair under it. */
  lemma ARefreshCrossesTheRemoval()
    ensures exists w :: MayStillBuy(Trusting(), LONG, w, 0, NAME, ROW.stamp)
  {
    var w1 := PairIsWritten();
    var w := RemovalReaches(Trusting(), w1, [map[], map[NAME := ROW]]);
    assert [map[], map[NAME := ROW]] + [map[]] == [map[], map[NAME := ROW], map[]];
    StampIsRetired(w.served.targets.tables);
    assert MayStillBuy(Trusting(), LONG, w, 0, NAME, ROW.stamp);
  }
}
