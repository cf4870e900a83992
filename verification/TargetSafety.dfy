/** What every interleaving of edits and fenced writes keeps, and what it means for the
    history of the targets table. */
module TargetSafety {
  import opened Wrappers
  import opened Bytes
  import opened Stamps
  import opened Sealing
  import opened Targets

  // ---------- the invariant ----------

  // The definition with the static headers that are stored for it.
  function Opened(r: Row): Target {
    r.target.(staticHeaders := if r.box.Some? then r.box.value.payload else map[])
  }

  ghost predicate RowOk(r: Row, name: Text, drawn: set<Text>, supplied: set<Supply>) {
    && r.target.name == name && r.target.source == Admin && r.revision >= 1
    && r.rowId in drawn && r.target.generation in drawn
    && r.stamp == StampOf(r.target)
    && WellFormed(Opened(r)) && r.target.staticHeaders == map[]
    && (r.target.mode == STATIC <==> r.box.Some?)
    && (r.box.Some? ==>
      && r.box.value.purpose == AdminStaticFor(name, r.rowId)
      && Supply(name, r.rowId, r.target.url, r.box.value.payload) in supplied)
  }

  ghost predicate RowsOk(rows: Rows, drawn: set<Text>, supplied: set<Supply>) {
    forall n :: n in rows ==> RowOk(rows[n], n, drawn, supplied)
  }

  // The version counts the committed changes and `tables` holds the rows after each.
  ghost predicate TablesOk(s: State) {
    && |s.tables| == s.version + 1 && s.tables[s.version] == s.rows
    && forall i :: 0 <= i < |s.tables| ==> RowsOk(s.tables[i], s.drawn, s.supplied)
  }

  ghost predicate NewGeneration(tables: seq<Rows>, g: Text) {
    forall i, n :: 0 <= i < |tables| && n in tables[i] ==> tables[i][n].target.generation != g
  }

  ghost predicate NewRowId(tables: seq<Rows>, id: Text) {
    forall i, n :: 0 <= i < |tables| && n in tables[i] ==> tables[i][n].rowId != id
  }

  // An edit that keeps the stamp of the row it locked.
  ghost predicate Keeps(e: Edit) {
    e.change.Put? && e.base.Some? && e.change.row.stamp == e.base.value.stamp
  }

  ghost predicate EditOk(s: State, e: Edit) {
    var n := ChangedName(e.change);
    && (if e.base.Some? then n in s.rows && s.rows[n] == e.base.value else n !in s.rows && e.change.Put?)
    && (e.change.Put? ==>
      && RowOk(e.change.row, n, s.drawn, s.supplied)
      && (!Keeps(e) ==> NewGeneration(s.tables, e.change.row.target.generation))
      && (if e.base.Some? then
            e.change.row.rowId == e.base.value.rowId && e.change.row.revision == e.base.value.revision + 1
          else NewRowId(s.tables, e.change.row.rowId)))
    && (e.bumped.Some? ==> e.bumped.value == s.version + 1)
  }

  // Two open edits hold different rows, never both the version row, and drew different ids.
  ghost predicate Apart(e: Edit, f: Edit) {
    && ChangedName(e.change) != ChangedName(f.change)
    && !(e.bumped.Some? && f.bumped.Some?)
    && (e.change.Put? && f.change.Put? && !Keeps(e) && !Keeps(f) ==>
      e.change.row.target.generation != f.change.row.target.generation)
    && (e.change.Put? && f.change.Put? && e.base.None? && f.base.None? ==>
      e.change.row.rowId != f.change.row.rowId)
  }

  ghost predicate EditsOk(s: State) {
    && (forall tx :: tx in s.edits ==> EditOk(s, s.edits[tx]))
    && forall tx, ty :: tx in s.edits && ty in s.edits && tx != ty ==> Apart(s.edits[tx], s.edits[ty])
  }

  // A held fence: the row is there, under that stamp, with those groups, and no edit has it.
  ghost predicate FenceOk(s: State, f: Fence) {
    && f.name in s.rows && s.rows[f.name].stamp == f.stamp
    && s.rows[f.name].target.allowedGroups == f.allowed
    && !Editing(s, f.name)
  }

  ghost predicate FencesOk(s: State) {
    forall tx :: tx in s.fences ==> FenceOk(s, s.fences[tx])
  }

  // If a stamp stands at two versions then it stands, under one name, at all between.
  ghost predicate StampStays(tables: seq<Rows>, i: nat, j: nat, k: nat, n: Text, m: Text) {
    i <= j <= k < |tables| && n in tables[i] && m in tables[k] && tables[i][n].stamp == tables[k][m].stamp ==>
      n == m && n in tables[j] && tables[j][n].stamp == tables[i][n].stamp
  }

  ghost predicate NeverRevived(tables: seq<Rows>) {
    forall i: nat, j: nat, k: nat, n, m :: StampStays(tables, i, j, k, n, m)
  }

  ghost predicate RevisionGrows(tables: seq<Rows>, i: nat, k: nat, n: Text) {
    i <= k < |tables| && n in tables[i] && n in tables[k] && tables[i][n].rowId == tables[k][n].rowId ==>
      tables[i][n].revision <= tables[k][n].revision
  }

  // A key that matches at two versions stands for one row, unchanged at all between.
  ghost predicate KeyStays(tables: seq<Rows>, i: nat, j: nat, k: nat, n: Text) {
    i <= j <= k < |tables| && n in tables[i] && Matches(tables[k], KeyOf(tables[i][n])) && tables[i][n].target.name == n ==>
      n in tables[j] && tables[j][n] == tables[i][n]
  }

  ghost predicate RowIdStays(tables: seq<Rows>, i: nat, j: nat, k: nat, n: Text) {
    i <= j <= k < |tables| && n in tables[i] && n in tables[k] && tables[i][n].rowId == tables[k][n].rowId ==>
      n in tables[j] && tables[j][n].rowId == tables[i][n].rowId
  }

  ghost predicate KeysNeverAlias(tables: seq<Rows>) {
    && (forall i: nat, k: nat, n :: RevisionGrows(tables, i, k, n))
    && (forall i: nat, j: nat, k: nat, n :: RowIdStays(tables, i, j, k, n))
    && (forall i: nat, j: nat, k: nat, n :: KeyStays(tables, i, j, k, n))
  }

  ghost predicate Inv(s: State) {
    TablesOk(s) && EditsOk(s) && FencesOk(s) && NeverRevived(s.tables) && KeysNeverAlias(s.tables)
  }

  // ---------- appending one committed change to the history ----------

  ghost predicate NewStamp(tables: seq<Rows>, stamp: Stamp) {
    forall i, n :: 0 <= i < |tables| && n in tables[i] ==> tables[i][n].stamp != stamp
  }

  // What a change puts carries the stamp of the row it replaces, or one never seen.
  ghost predicate PutsNewOrKept(rows: Rows, tables: seq<Rows>, c: Change) {
    c.Put? ==>
      var n := c.row.target.name;
      (n in rows && rows[n].stamp == c.row.stamp) || NewStamp(tables, c.row.stamp)
  }

  lemma AppendNeverRevived(tables: seq<Rows>, c: Change)
    requires NeverRevived(tables) && tables != []
    requires PutsNewOrKept(tables[|tables| - 1], tables, c)
    ensures NeverRevived(tables + [Applied(tables[|tables| - 1], c)])
  {
    var v := |tables| - 1;
    var after := tables + [Applied(tables[v], c)];
    forall i: nat, j: nat, k: nat, n, m ensures StampStays(after, i, j, k, n, m) {
      if i <= j <= k < |after| && n in after[i] && m in after[k] && after[i][n].stamp == after[k][m].stamp {
        if k <= v {
          assert StampStays(tables, i, j, k, n, m);
        } else if i <= v {
          if m in tables[v] && tables[v][m].stamp == after[k][m].stamp {
            assert StampStays(tables, i, if j <= v then j else v, v, n, m);
          }
        } else {
          // Two rows of the new table: one of them, or neither, is the changed one.
          NewTableStampsDiffer(tables, c, n, m);
        }
      }
    }
  }

  lemma NewTableStampsDiffer(tables: seq<Rows>, c: Change, n: Text, m: Text)
    requires NeverRevived(tables) && tables != []
    requires PutsNewOrKept(tables[|tables| - 1], tables, c)
    requires n in Applied(tables[|tables| - 1], c) && m in Applied(tables[|tables| - 1], c)
    requires Applied(tables[|tables| - 1], c)[n].stamp == Applied(tables[|tables| - 1], c)[m].stamp
    ensures n == m
  {
    var v := |tables| - 1;
    assert StampStays(tables, v, v, v, n, m);
  }

  lemma AppendKeys(tables: seq<Rows>, c: Change)
    requires KeysNeverAlias(tables) && tables != []
    requires c.Put? ==>
      var last := tables[|tables| - 1];
      var n := c.row.target.name;
      if n in last then c.row.rowId == last[n].rowId && c.row.revision == last[n].revision + 1
      else NewRowId(tables, c.row.rowId)
    ensures KeysNeverAlias(tables + [Applied(tables[|tables| - 1], c)])
  {
    var v := |tables| - 1;
    var after := tables + [Applied(tables[v], c)];
    forall i: nat, k: nat, n ensures RevisionGrows(after, i, k, n) {
      assert RevisionGrows(tables, i, if k <= v then k else v, n);
    }
    forall i: nat, j: nat, k: nat, n ensures RowIdStays(after, i, j, k, n) {
      assert RowIdStays(tables, i, if j <= v then j else v, if k <= v then k else v, n);
    }
    forall i: nat, j: nat, k: nat, n ensures KeyStays(after, i, j, k, n) {
      assert KeyStays(tables, i, if j <= v then j else v, if k <= v then k else v, n);
      assert RevisionGrows(tables, i, v, n);
    }
  }

  // ---------- each step keeps it ----------

  lemma NewRowOk(t: Target, rowId: Text, revision: nat, drawn: set<Text>, supplied: set<Supply>)
    requires WellFormed(t) && t.source == Admin && revision >= 1
    requires rowId in drawn && t.generation in drawn
    requires t.mode == STATIC ==> Supply(t.name, rowId, t.url, t.staticHeaders) in supplied
    ensures RowOk(NewRow(t, rowId, revision), t.name, drawn, supplied)
  {
  }

  lemma GrownRowsOk(rows: Rows, d: set<Text>, d': set<Text>, p: set<Supply>, p': set<Supply>)
    requires RowsOk(rows, d, p) && d <= d' && p <= p'
    ensures RowsOk(rows, d', p')
  {
    forall n | n in rows ensures RowOk(rows[n], n, d', p') {
      assert RowOk(rows[n], n, d, p);
    }
  }

  // Rows in the history hold drawn ids, so an id not drawn yet is in none of them.
  lemma UndrawnIsNew(s: State, id: Text)
    requires TablesOk(s) && id !in s.drawn
    ensures NewGeneration(s.tables, id) && NewRowId(s.tables, id)
  {
    forall i, n | 0 <= i < |s.tables| && n in s.tables[i]
      ensures s.tables[i][n].target.generation != id && s.tables[i][n].rowId != id
    {
      assert RowOk(s.tables[i][n], n, s.drawn, s.supplied);
    }
  }

  lemma OthersDrewDrawn(s: State, tx: Tx, id: Text)
    requires EditsOk(s) && tx in s.edits && id !in s.drawn && s.edits[tx].change.Put?
    ensures s.edits[tx].change.row.target.generation != id && s.edits[tx].change.row.rowId != id
  {
    assert EditOk(s, s.edits[tx]);
  }

  // Opening an edit leaves the tables alone.
  lemma OpenEdit(s: State, s': State, tx: Tx, e: Edit)
    requires Inv(s) && NewTx(s, tx) && !Editing(s, ChangedName(e.change))
    requires s' == s.(edits := s.edits[tx := e], drawn := s'.drawn, supplied := s'.supplied)
    requires s.drawn <= s'.drawn && s.supplied <= s'.supplied
    requires EditOk(s', e) && e.bumped.None?
    requires forall ty :: ty in s.edits ==> Apart(e, s.edits[ty]) && Apart(s.edits[ty], e)
    requires !Fenced(s, ChangedName(e.change))
    ensures Inv(s')
  {
    forall i | 0 <= i < |s'.tables| ensures RowsOk(s'.tables[i], s'.drawn, s'.supplied) {
      GrownRowsOk(s.tables[i], s.drawn, s'.drawn, s.supplied, s'.supplied);
    }
    forall ty | ty in s'.edits ensures EditOk(s', s'.edits[ty]) {
      if ty != tx { assert EditOk(s, s.edits[ty]); }
    }
    forall ty | ty in s'.fences ensures FenceOk(s', s'.fences[ty]) {
      assert FenceOk(s, s.fences[ty]);
    }
  }

  lemma BeginCreateKeeps(s: State, tx: Tx, t: Target, rowId: Text, generation: Text)
    requires Inv(s) && Enabled(s, BeginCreate(tx, t, rowId, generation))
    ensures Inv(Next(s, BeginCreate(tx, t, rowId, generation)))
  {
    var s' := Next(s, BeginCreate(tx, t, rowId, generation));
    var e := s'.edits[tx];
    NewRowOk(t.(source := Admin, generation := generation), rowId, 1, s'.drawn, s'.supplied);
    UndrawnIsNew(s, generation);
    UndrawnIsNew(s, rowId);
    forall ty | ty in s.edits ensures Apart(e, s.edits[ty]) && Apart(s.edits[ty], e) {
      if s.edits[ty].change.Put? {
        OthersDrewDrawn(s, ty, generation);
        OthersDrewDrawn(s, ty, rowId);
      }
    }
    forall tf | tf in s.fences ensures s.fences[tf].name != t.name {
      assert FenceOk(s, s.fences[tf]);
    }
    OpenEdit(s, s', tx, e);
  }

  // What an update writes is a good row: a kept static value was supplied for this URL.
  lemma UpdatedRowOk(cur: Row, t: Target, rerolled: Text, drawn: set<Text>, supplied: set<Supply>)
    requires RowOk(cur, t.name, drawn, supplied) && UpdatedRow(cur, t, rerolled).Ok?
    ensures RowOk(UpdatedRow(cur, t, rerolled).value, t.name, drawn + {rerolled}, supplied + SupplyOf(t, cur.rowId))
    ensures UpdatedRow(cur, t, rerolled).value.rowId == cur.rowId
    ensures UpdatedRow(cur, t, rerolled).value.revision == cur.revision + 1
    ensures var row := UpdatedRow(cur, t, rerolled).value;
            && (row.stamp == cur.stamp <==> SameDestination(cur.target, t))
            && row.target.generation == if SameDestination(cur.target, t) then cur.target.generation else rerolled
  {
    StampsFollowDestinations(cur, t.(source := Admin), cur.target.generation);
    StampsFollowDestinations(cur, t.(source := Admin), rerolled);
    var h := EffectiveHeaders(cur, t).value;
    var t1 := t.(source := Admin, staticHeaders := h);
    var t2 := t1.(generation := NextGeneration(cur, t1, rerolled));
    NewRowOk(t2, cur.rowId, cur.revision + 1, drawn + {rerolled}, supplied + SupplyOf(t, cur.rowId));
    assert StampOf(t2) == StampOf(t1.(generation := t2.generation));
  }

  /** In every run, what an update will write keeps the stamp of the row it locked exactly when
      URL, mode and the list of headers and prefixes are that row's; and then the generation too,
      which is otherwise the one just drawn. */
  lemma UpdatesFollowDestinations(s: State, tx: Tx, key: Key, t: Target, rerolled: Text)
    requires Inv(s) && Enabled(s, BeginUpdate(tx, key, t, rerolled))
    ensures var (cur, change) := (s.rows[key.name], Next(s, BeginUpdate(tx, key, t, rerolled)).edits[tx].change);
            && change.Put?
            && (change.row.stamp == cur.stamp <==>
                  && t.url == cur.target.url && t.mode == cur.target.mode && |t.userFields| == |cur.target.userFields|
                  && forall i :: 0 <= i < |t.userFields| ==>
                       && t.userFields[i].header == cur.target.userFields[i].header
                       && t.userFields[i].prefix == cur.target.userFields[i].prefix)
            && (change.row.target.generation == if change.row.stamp == cur.stamp then cur.target.generation else rerolled)
  {
    assert s.tables[s.version] == s.rows;
    assert RowOk(s.rows[key.name], key.name, s.drawn, s.supplied);
    UpdatedRowOk(s.rows[key.name], t, rerolled, s.drawn, s.supplied);
  }

  lemma BeginUpdateKeeps(s: State, tx: Tx, key: Key, t: Target, rerolled: Text)
    requires Inv(s) && Enabled(s, BeginUpdate(tx, key, t, rerolled))
    ensures Inv(Next(s, BeginUpdate(tx, key, t, rerolled)))
  {
    var s' := Next(s, BeginUpdate(tx, key, t, rerolled));
    var e := s'.edits[tx];
    assert s.tables[s.version] == s.rows;
    assert RowOk(s.rows[key.name], key.name, s.drawn, s.supplied);
    UpdatedRowOk(s.rows[key.name], t, rerolled, s.drawn, s.supplied);
    UndrawnIsNew(s, rerolled);
    forall ty | ty in s.edits ensures Apart(e, s.edits[ty]) && Apart(s.edits[ty], e) {
      if s.edits[ty].change.Put? { OthersDrewDrawn(s, ty, rerolled); }
    }
    OpenEdit(s, s', tx, e);
  }

  lemma BeginDeleteKeeps(s: State, tx: Tx, key: Key)
    requires Inv(s) && Enabled(s, BeginDelete(tx, key))
    ensures Inv(Next(s, BeginDelete(tx, key)))
  {
    var s' := Next(s, BeginDelete(tx, key));
    OpenEdit(s, s', tx, s'.edits[tx]);
  }

  lemma BumpOneEdit(s: State, tx: Tx, ty: Tx)
    requires EditsOk(s) && Enabled(s, Bump(tx)) && ty in s.edits
    ensures EditOk(Next(s, Bump(tx)), Next(s, Bump(tx)).edits[ty])
    ensures s.edits[ty].bumped.None?
  {
    assert EditOk(s, s.edits[ty]);
  }

  lemma BumpEdits(s: State, tx: Tx)
    requires EditsOk(s) && Enabled(s, Bump(tx))
    ensures EditsOk(Next(s, Bump(tx)))
  {
    var s' := Next(s, Bump(tx));
    forall ty | ty in s'.edits ensures EditOk(s', s'.edits[ty]) { BumpOneEdit(s, tx, ty); }
    forall ty, tz | ty in s'.edits && tz in s'.edits && ty != tz ensures Apart(s'.edits[ty], s'.edits[tz]) {
      assert Apart(s.edits[ty], s.edits[tz]);
      BumpOneEdit(s, tx, ty);
      BumpOneEdit(s, tx, tz);
    }
  }

  lemma BumpFences(s: State, tx: Tx)
    requires FencesOk(s) && Enabled(s, Bump(tx))
    ensures FencesOk(Next(s, Bump(tx)))
  {
    var s' := Next(s, Bump(tx));
    forall ty | ty in s'.fences ensures FenceOk(s', s'.fences[ty]) {
      assert FenceOk(s, s.fences[ty]);
      SameNames(s, s', s.fences[ty].name);
    }
  }

  lemma BumpKeeps(s: State, tx: Tx)
    requires Inv(s) && Enabled(s, Bump(tx))
    ensures Inv(Next(s, Bump(tx)))
  {
    BumpEdits(s, tx);
    BumpFences(s, tx);
  }

  // Whether a name is held depends on what the open edits change, not on their progress.
  lemma SameNames(s: State, s': State, name: Text)
    requires s'.edits.Keys == s.edits.Keys
    requires forall tx :: tx in s.edits ==> s'.edits[tx].change == s.edits[tx].change
    ensures Editing(s', name) <==> Editing(s, name)
  {
    assert forall tx :: tx in s.edits ==> ChangedName(s'.edits[tx].change) == ChangedName(s.edits[tx].change);
  }

  // A new generation makes a new stamp, because the stamp encodes it.
  lemma NewGenerationNewStamp(s: State, r: Row)
    requires TablesOk(s) && RowOk(r, r.target.name, s.drawn, s.supplied)
    requires NewGeneration(s.tables, r.target.generation)
    ensures NewStamp(s.tables, r.stamp)
  {
    forall i, n | 0 <= i < |s.tables| && n in s.tables[i] ensures s.tables[i][n].stamp != r.stamp {
      var q := s.tables[i][n];
      assert RowOk(q, n, s.drawn, s.supplied);
      StampsAgreeExactly(q.target, r.target);
    }
  }

  lemma AppliedRowsOk(rows: Rows, c: Change, drawn: set<Text>, supplied: set<Supply>)
    requires RowsOk(rows, drawn, supplied)
    requires c.Put? ==> RowOk(c.row, c.row.target.name, drawn, supplied)
    ensures RowsOk(Applied(rows, c), drawn, supplied)
  {
    forall n | n in Applied(rows, c) ensures RowOk(Applied(rows, c)[n], n, drawn, supplied) {
      if n in rows { assert RowOk(rows[n], n, drawn, supplied); }
    }
  }

  lemma CommitTables(s: State, e: Edit)
    requires TablesOk(s) && EditOk(s, e)
    ensures forall i :: 0 <= i <= |s.tables| ==> RowsOk((s.tables + [Applied(s.rows, e.change)])[i], s.drawn, s.supplied)
  {
    assert RowsOk(s.tables[s.version], s.drawn, s.supplied);
    AppliedRowsOk(s.rows, e.change, s.drawn, s.supplied);
  }

  lemma CommitStamps(tables: seq<Rows>, rows: Rows, c: Change)
    requires NeverRevived(tables) && tables != [] && tables[|tables| - 1] == rows && PutsNewOrKept(rows, tables, c)
    ensures NeverRevived(tables + [Applied(rows, c)])
  {
    AppendNeverRevived(tables, c);
  }

  lemma NewOrKept(s: State, e: Edit)
    requires TablesOk(s) && EditOk(s, e)
    ensures PutsNewOrKept(s.rows, s.tables, e.change)
  {
    if e.change.Put? && !Keeps(e) { NewGenerationNewStamp(s, e.change.row); }
  }

  lemma CommitKeys(s: State, e: Edit)
    requires TablesOk(s) && EditOk(s, e) && KeysNeverAlias(s.tables)
    ensures KeysNeverAlias(s.tables + [Applied(s.rows, e.change)])
  {
    AppendKeys(s.tables, e.change);
  }

  // The ids another open edit drew are still new once this one has committed.
  lemma OtherGenerationStaysNew(s: State, e: Edit, f: Edit)
    requires Inv(s) && EditOk(s, e) && EditOk(s, f) && Apart(e, f) && f.change.Put? && !Keeps(f)
    ensures NewGeneration(s.tables + [Applied(s.rows, e.change)], f.change.row.target.generation)
  {
    var g := f.change.row.target.generation;
    var after: seq<Rows> := s.tables + [Applied(s.rows, e.change)];
    if e.change.Put? && Keeps(e) { SameStampSameGeneration(s, e); }
    assert s.tables[s.version] == s.rows;
    assert forall n :: n in s.rows ==> s.tables[s.version][n].target.generation != g;
    forall i, n | 0 <= i < |after| && n in after[i] ensures after[i][n].target.generation != g {
      if i <= s.version { assert after[i] == s.tables[i]; }
    }
  }

  lemma OtherRowIdStaysNew(s: State, e: Edit, f: Edit)
    requires TablesOk(s) && EditOk(s, e) && EditOk(s, f) && Apart(e, f) && f.change.Put? && f.base.None?
    ensures NewRowId(s.tables + [Applied(s.rows, e.change)], f.change.row.rowId)
  {
    var id := f.change.row.rowId;
    var after: seq<Rows> := s.tables + [Applied(s.rows, e.change)];
    assert s.tables[s.version] == s.rows;
    assert forall n :: n in s.rows ==> s.tables[s.version][n].rowId != id;
    forall i, n | 0 <= i < |after| && n in after[i] ensures after[i][n].rowId != id {
      if i <= s.version { assert after[i] == s.tables[i]; }
    }
  }

  lemma OtherEditStaysOk(s: State, tx: Tx, ty: Tx)
    requires Inv(s) && Enabled(s, CommitEdit(tx)) && ty in s.edits && ty != tx
    ensures EditOk(Next(s, CommitEdit(tx)), s.edits[ty])
  {
    var e, f := s.edits[tx], s.edits[ty];
    assert EditOk(s, e) && EditOk(s, f) && Apart(e, f);
    if f.change.Put? && !Keeps(f) { OtherGenerationStaysNew(s, e, f); }
    if f.change.Put? && f.base.None? { OtherRowIdStaysNew(s, e, f); }
  }

  lemma SameStampSameGeneration(s: State, e: Edit)
    requires Inv(s) && EditOk(s, e) && Keeps(e)
    ensures e.change.row.target.generation == s.rows[ChangedName(e.change)].target.generation
  {
    var n := ChangedName(e.change);
    assert RowsOk(s.tables[s.version], s.drawn, s.supplied);
    assert RowOk(s.rows[n], n, s.drawn, s.supplied);
    StampsAgreeExactly(s.rows[n].target, e.change.row.target);
  }

  lemma CommitEdits(s: State, tx: Tx)
    requires Inv(s) && Enabled(s, CommitEdit(tx))
    ensures EditsOk(Next(s, CommitEdit(tx)))
  {
    var s' := Next(s, CommitEdit(tx));
    forall ty | ty in s'.edits ensures EditOk(s', s'.edits[ty]) {
      OtherEditStaysOk(s, tx, ty);
    }
    forall ty, tz | ty in s'.edits && tz in s'.edits && ty != tz ensures Apart(s'.edits[ty], s'.edits[tz]) {
      assert Apart(s.edits[ty], s.edits[tz]);
    }
  }

  lemma CommitFences(s: State, tx: Tx)
    requires FencesOk(s) && Enabled(s, CommitEdit(tx))
    ensures FencesOk(Next(s, CommitEdit(tx)))
  {
    var s' := Next(s, CommitEdit(tx));
    forall ty | ty in s'.fences ensures FenceOk(s', s'.fences[ty]) {
      assert FenceOk(s, s.fences[ty]);
      assert ChangedName(s.edits[tx].change) != s.fences[ty].name;
    }
  }

  lemma CommitHistory(s: State, tx: Tx)
    requires TablesOk(s) && NeverRevived(s.tables) && KeysNeverAlias(s.tables)
    requires Enabled(s, CommitEdit(tx)) && EditOk(s, s.edits[tx])
    ensures var s' := Next(s, CommitEdit(tx)); TablesOk(s') && NeverRevived(s'.tables) && KeysNeverAlias(s'.tables)
  {
    CommitTables(s, s.edits[tx]);
    NewOrKept(s, s.edits[tx]);
    CommitStamps(s.tables, s.rows, s.edits[tx].change);
    CommitKeys(s, s.edits[tx]);
  }

  lemma CommitKeeps(s: State, tx: Tx)
    requires Inv(s) && Enabled(s, CommitEdit(tx))
    ensures Inv(Next(s, CommitEdit(tx)))
  {
    assert EditOk(s, s.edits[tx]);
    CommitHistory(s, tx);
    CommitEdits(s, tx);
    CommitFences(s, tx);
  }

  lemma QuietStepKeeps(s: State, step: Step)
    requires Inv(s) && Enabled(s, step) && (step.RollbackEdit? || step.LockShare? || step.ReleaseShare?)
    ensures Inv(Next(s, step))
  {
    var s' := Next(s, step);
    forall ty | ty in s'.edits ensures EditOk(s', s'.edits[ty]) {
      assert EditOk(s, s.edits[ty]);
    }
    forall ty, tz | ty in s'.edits && tz in s'.edits && ty != tz ensures Apart(s'.edits[ty], s'.edits[tz]) {
      assert Apart(s.edits[ty], s.edits[tz]);
    }
    forall ty | ty in s'.fences ensures FenceOk(s', s'.fences[ty]) {
      if ty in s.fences { assert FenceOk(s, s.fences[ty]); }
    }
  }

  lemma StepKeeps(s: State, step: Step)
    requires Inv(s) && Enabled(s, step)
    ensures Inv(Next(s, step))
  {
    match step
    case BeginCreate(tx, t, rowId, generation) => BeginCreateKeeps(s, tx, t, rowId, generation);
    case BeginUpdate(tx, key, t, rerolled) => BeginUpdateKeeps(s, tx, key, t, rerolled);
    case BeginDelete(tx, key) => BeginDeleteKeeps(s, tx, key);
    case Bump(tx) => BumpKeeps(s, tx);
    case CommitEdit(tx) => CommitKeeps(s, tx);
    case _ => QuietStepKeeps(s, step);
  }

  lemma InitialInv()
    ensures Inv(INITIAL)
  {
    forall i: nat, j: nat, k: nat, n, m ensures StampStays(INITIAL.tables, i, j, k, n, m) {}
    forall i: nat, k: nat, n ensures RevisionGrows(INITIAL.tables, i, k, n) {}
    forall i: nat, j: nat, k: nat, n ensures RowIdStays(INITIAL.tables, i, j, k, n) {}
    forall i: nat, j: nat, k: nat, n ensures KeyStays(INITIAL.tables, i, j, k, n) {}
  }

  // ---------- runs ----------

  ghost predicate Reaches(a: State, steps: seq<Step>, b: State)
    decreases |steps|
  {
    if steps == [] then a == b
    else Enabled(a, steps[0]) && Reaches(Next(a, steps[0]), steps[1..], b)
  }

  lemma {:induction false} ReachesKeepsInv(a: State, steps: seq<Step>, b: State)
    requires Inv(a) && Reaches(a, steps, b)
    ensures Inv(b) && a.tables <= b.tables
    decreases |steps|
  {
    if steps != [] {
      StepKeeps(a, steps[0]);
      ReachesKeepsInv(Next(a, steps[0]), steps[1..], b);
    }
  }

  // The changes the run commits, in the order it commits them.
  ghost function Committed(a: State, steps: seq<Step>): seq<Change>
    decreases |steps|
  {
    if steps == [] || !Enabled(a, steps[0]) then []
    else if steps[0].CommitEdit? then [a.edits[steps[0].tx].change] + Committed(Next(a, steps[0]), steps[1..])
    else Committed(Next(a, steps[0]), steps[1..])
  }

  ghost function Replayed(rows: Rows, changes: seq<Change>): Rows
    decreases |changes|
  {
    if changes == [] then rows else Replayed(Applied(rows, changes[0]), changes[1..])
  }

  // The table after each change in turn.
  ghost function History(rows: Rows, changes: seq<Change>): (h: seq<Rows>)
    ensures |h| == |changes|
    decreases |changes|
  {
    if changes == [] then [] else [Applied(rows, changes[0])] + History(Applied(rows, changes[0]), changes[1..])
  }

  lemma {:induction false} HistoryReplays(rows: Rows, changes: seq<Change>, i: nat)
    requires i < |changes|
    ensures History(rows, changes)[i] == Replayed(rows, changes[..i + 1])
    decreases |changes|
  {
    assert changes[..i + 1][1..] == changes[1..][..i];
    if i > 0 { HistoryReplays(Applied(rows, changes[0]), changes[1..], i - 1); }
  }

  lemma HistoryCons(rows: Rows, c: Change, later: seq<Change>)
    ensures History(rows, [c] + later) == [Applied(rows, c)] + History(Applied(rows, c), later)
  {
    assert ([c] + later)[1..] == later;
  }

  lemma StepHistory(s: State, step: Step)
    requires Enabled(s, step)
    ensures !step.CommitEdit? ==> Next(s, step).tables == s.tables && Next(s, step).rows == s.rows
    ensures step.CommitEdit? ==>
      var rows := Applied(s.rows, s.edits[step.tx].change);
      Next(s, step).tables == s.tables + [rows] && Next(s, step).rows == rows
  {
  }

  lemma {:induction false} TablesAreTheHistory(a: State, steps: seq<Step>, b: State)
    requires Reaches(a, steps, b)
    ensures b.tables == a.tables + History(a.rows, Committed(a, steps))
    decreases |steps|
  {
    if steps != [] {
      var m := Next(a, steps[0]);
      var later := Committed(m, steps[1..]);
      StepHistory(a, steps[0]);
      TablesAreTheHistory(m, steps[1..], b);
      if steps[0].CommitEdit? { HistoryCons(a.rows, a.edits[steps[0].tx].change, later); }
    }
  }

  /** Version exactness: whatever edits overlap, the version counts the committed changes,
      and version v is the table after exactly the first v of them. */
  lemma VersionsReplayTheChanges(steps: seq<Step>, s: State, v: nat)
    requires Reaches(INITIAL, steps, s) && v <= s.version
    ensures s.version == |Committed(INITIAL, steps)| && |s.tables| == s.version + 1
    ensures s.tables[s.version] == s.rows
    ensures s.tables[v] == Replayed(map[], Committed(INITIAL, steps)[..v])
  {
    InitialInv();
    ReachesKeepsInv(INITIAL, steps, s);
    TablesAreTheHistory(INITIAL, steps, s);
    if v > 0 { HistoryReplays(map[], Committed(INITIAL, steps), v - 1); }
  }

  /** A stamp that has been left never returns under any name, even when the very same
      definition is put back. */
  lemma StampsAreNeverRevived(steps: seq<Step>, s: State, i: nat, j: nat, k: nat, n: Text, m: Text)
    requires Reaches(INITIAL, steps, s) && i <= j <= k < |s.tables|
    requires n in s.tables[i] && !(n in s.tables[j] && s.tables[j][n].stamp == s.tables[i][n].stamp)
    requires m in s.tables[k]
    ensures s.tables[k][m].stamp != s.tables[i][n].stamp
  {
    InitialInv();
    ReachesKeepsInv(INITIAL, steps, s);
    assert StampStays(s.tables, i, j, k, n, m);
  }

  /** A key read at one version matches at a later one only if the row never changed in
      between, so an edit checked against it overwrites nothing it did not see. */
  lemma KeysMatchOnlyUnchangedRows(steps: seq<Step>, s: State, i: nat, j: nat, k: nat, n: Text)
    requires Reaches(INITIAL, steps, s) && i <= j <= k < |s.tables|
    requires n in s.tables[i]
    ensures Matches(s.tables[k], KeyOf(s.tables[i][n])) ==> n in s.tables[j] && s.tables[j][n] == s.tables[i][n]
  {
    InitialInv();
    ReachesKeepsInv(INITIAL, steps, s);
    assert RowOk(s.tables[i][n], n, s.drawn, s.supplied);
    assert KeyStays(s.tables, i, j, k, n);
  }

  /** What an edit commits replaces exactly the row it locked: nothing changed under it. */
  lemma NoUpdateIsLost(steps: seq<Step>, s: State, tx: Tx)
    requires Reaches(INITIAL, steps, s) && Enabled(s, CommitEdit(tx))
    ensures var e := s.edits[tx];
            var n := ChangedName(e.change);
            && (if e.base.Some? then n in s.rows && s.rows[n] == e.base.value else n !in s.rows)
            && Next(s, CommitEdit(tx)).version == s.version + 1
  {
    InitialInv();
    ReachesKeepsInv(INITIAL, steps, s);
    assert EditOk(s, s.edits[tx]);
  }

  /** Static values stay home: in any table there has ever been, what a row's box holds opens
      for that row and was entered in a save naming that row and the URL it has. */
  lemma StaticValuesStayHome(steps: seq<Step>, s: State, v: nat, n: Text)
    requires Reaches(INITIAL, steps, s) && v < |s.tables| && n in s.tables[v]
    ensures var r := s.tables[v][n];
            && (OpenStatic(r).Some? <==> r.target.mode == STATIC)
            && (OpenStatic(r).Some? ==> Supply(n, r.rowId, r.target.url, OpenStatic(r).value) in s.supplied)
  {
    InitialInv();
    ReachesKeepsInv(INITIAL, steps, s);
    assert RowOk(s.tables[v][n], n, s.drawn, s.supplied);
  }

  /** Every static value on record came in a save in static mode that carried it. */
  lemma {:induction false} SuppliesWereEntered(a: State, steps: seq<Step>, b: State, p: Supply)
    requires Reaches(a, steps, b) && p in b.supplied && p !in a.supplied
    ensures exists i :: 0 <= i < |steps| && Enters(steps[i], p)
    decreases |steps|
  {
    var m := Next(a, steps[0]);
    if p in m.supplied {
      assert Enters(steps[0], p);
    } else {
      SuppliesWereEntered(m, steps[1..], b, p);
      var i :| 0 <= i < |steps[1..]| && Enters(steps[1..][i], p);
      assert Enters(steps[i + 1], p);
    }
  }

  ghost predicate Enters(step: Step, p: Supply) {
    (step.BeginCreate? || step.BeginUpdate?) && step.t.mode == STATIC
    && step.t.name == p.name && step.t.url == p.url && step.t.staticHeaders == p.headers
    && (step.BeginCreate? ==> step.rowId == p.rowId) && (step.BeginUpdate? ==> step.key.rowId == p.rowId)
  }
}
