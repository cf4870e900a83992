/** The targets table, its version row and the locks edits and fenced writes take on them
    (store.go). A transaction's writes are invisible until it commits, so an open one is
    its locks and what it will do. */
module Targets {
  import opened Wrappers
  import opened Bytes
  import opened Stamps
  import opened Sealing

  type Headers = map<Text, Text>

  // A row. The static headers stay sealed, so the stored target carries none.
  datatype Row = Row(target: Target, rowId: Text, revision: nat, stamp: Stamp, box: Option<Sealed<Headers>>)

  type Rows = map<Text, Row>

  // The stamp the table has under a name, as the joins of the session readers give it.
  function CurrentStamp(rows: Rows, name: Text): Option<Stamp> {
    if name in rows then Some(rows[name].stamp) else None
  }

  // What a change is checked against.
  datatype Key = Key(name: Text, rowId: Text, revision: nat)

  function KeyOf(r: Row): Key { Key(r.target.name, r.rowId, r.revision) }

  predicate Matches(rows: Rows, key: Key) {
    key.name in rows && rows[key.name].rowId == key.rowId && rows[key.name].revision == key.revision
  }

  datatype EditError = InvalidTarget | StaticValueRequired | TargetChanged | TargetExists | Renamed

  const RESERVED_NAMES: set<Text> := {Ascii("admin"), Ascii("settings")}

  // The rules that tie the mode to what the target carries. The syntax of names and headers
  // and the upstream policy are not among them; a rebuild's `Config.accepts` stands for those.
  predicate WellFormed(t: Target) {
    && t.name != [] && t.name !in RESERVED_NAMES
    && t.displayName != []
    && t.mode in {PROVIDER_TOKEN, STATIC, PER_USER}
    && (t.mode == STATIC <==> t.staticHeaders != map[])
    && (t.mode == PER_USER <==> t.userFields != [])
    && [] !in t.allowedGroups
  }

  function BoxFor(t: Target, rowId: Text): Option<Sealed<Headers>> {
    if t.mode == STATIC then Some(Sealed(AdminStaticFor(t.name, rowId), t.staticHeaders)) else None
  }

  function OpenStatic(r: Row): Option<Headers> {
    if r.box.None? then None else Open(AdminStaticFor(r.target.name, r.rowId), r.box.value)
  }

  function NewRow(t: Target, rowId: Text, revision: nat): Row {
    Row(t.(staticHeaders := map[], resource := []), rowId, revision, StampOf(t), BoxFor(t, rowId))
  }

  function CreatedRow(t: Target, rowId: Text, generation: Text): Result<Row, EditError> {
    if !WellFormed(t) then Err(InvalidTarget)
    else Ok(NewRow(t.(source := Admin, generation := generation), rowId, 1))
  }

  // A static target that supplies no value keeps the stored one, and only while the URL
  // and the mode stay.
  function EffectiveHeaders(cur: Row, t: Target): Result<Headers, EditError> {
    if t.mode != STATIC || t.staticHeaders != map[] then Ok(t.staticHeaders)
    else if cur.target.mode != STATIC || cur.target.url != t.url then Err(StaticValueRequired)
    else match OpenStatic(cur) case Some(h) => Ok(h) case None => Err(InvalidTarget)
  }

  // The generation is kept while the stamp would be, and otherwise re-rolled to `rerolled`.
  function NextGeneration(cur: Row, t: Target, rerolled: Text): Text {
    if StampOf(t.(generation := cur.target.generation)) == cur.stamp then cur.target.generation else rerolled
  }

  function UpdatedRow(cur: Row, t: Target, rerolled: Text): Result<Row, EditError> {
    match EffectiveHeaders(cur, t)
    case Err(e) => Err(e)
    case Ok(headers) => Replacement(cur, t.(source := Admin, staticHeaders := headers), rerolled)
  }

  function Replacement(cur: Row, t: Target, rerolled: Text): Result<Row, EditError> {
    if !WellFormed(t) then Err(InvalidTarget)
    else Ok(NewRow(t.(generation := NextGeneration(cur, t, rerolled)), cur.rowId, cur.revision + 1))
  }

  // ---------- what an update keeps ----------

  // As every row in reach is: under its own name, and with the stamp of its definition.
  predicate IsSound(r: Row, name: Text) {
    r.target.name == name && r.target.source == Admin && r.stamp == StampOf(r.target)
  }

  // Whatever is sent to one would be sent to the other, in the same headers behind the same
  // prefixes. Captions, display names, allowed groups and static values play no part.
  predicate SameDestination(a: Target, b: Target) {
    a.url == b.url && a.mode == b.mode && SameFields(a.userFields, b.userFields)
  }

  // Two lists of fields that give the same headers behind the same prefixes.
  predicate SameFields(a: seq<UserField>, b: seq<UserField>) {
    |a| == |b| && forall i :: 0 <= i < |a| ==> a[i].header == b[i].header && a[i].prefix == b[i].prefix
  }

  lemma SamePairs(a: seq<UserField>, b: seq<UserField>)
    ensures FieldPairs(a) == FieldPairs(b) <==> SameFields(a, b)
  {
    if FieldPairs(a) == FieldPairs(b) {
      forall i | 0 <= i < |a| ensures a[i].header == b[i].header && a[i].prefix == b[i].prefix {
        assert FieldPairs(a)[i] == FieldPairs(b)[i];
      }
    }
  }

  lemma StampsFollowDestinations(cur: Row, t: Target, g: Text)
    requires IsSound(cur, t.name) && t.source == Admin
    ensures StampOf(t.(generation := g)) == cur.stamp <==> SameDestination(cur.target, t) && g == cur.target.generation
  {
    SamePairs(t.userFields, cur.target.userFields);
  }

  // ---------- the protocol ----------

  datatype Change = Put(row: Row) | Remove(name: Text)

  function ChangedName(c: Change): Text {
    match c case Put(r) => r.target.name case Remove(n) => n
  }

  function Applied(rows: Rows, c: Change): Rows {
    match c case Put(r) => rows[r.target.name := r] case Remove(n) => rows - {n}
  }

  // An open edit holds its row, or its name when it inserts, and once bumped the version
  // row too. `base` is the row it locked.
  datatype Edit = Edit(base: Option<Row>, change: Change, bumped: Option<nat>)

  // An open fenced write holds its row for share. `allowed` is what the lock query read.
  datatype Fence = Fence(name: Text, stamp: Stamp, allowed: seq<Text>)

  // Static headers as an admin entered them, and the save that carried them.
  datatype Supply = Supply(name: Text, rowId: Text, url: Text, headers: Headers)

  type Tx = nat

  // The last three are history: every uuid drawn, the table after each committed change,
  // and every static value entered.
  datatype State = State(
    rows: Rows,
    version: nat,
    edits: map<Tx, Edit>,
    fences: map<Tx, Fence>,
    drawn: set<Text>,
    tables: seq<Rows>,
    supplied: set<Supply>)

  const INITIAL: State := State(map[], 0, map[], map[], {}, [map[]], {})

  datatype Step =
    | BeginCreate(tx: Tx, t: Target, rowId: Text, generation: Text)
    | BeginUpdate(tx: Tx, key: Key, t: Target, rerolled: Text)
    | BeginDelete(tx: Tx, key: Key)
    | Bump(tx: Tx)
    | CommitEdit(tx: Tx)
    | RollbackEdit(tx: Tx)
    | LockShare(tx: Tx, name: Text, stamp: Stamp)
    | ReleaseShare(tx: Tx)

  predicate Editing(s: State, name: Text) {
    exists tx :: tx in s.edits && ChangedName(s.edits[tx].change) == name
  }

  predicate Fenced(s: State, name: Text) {
    exists tx :: tx in s.fences && s.fences[tx].name == name
  }

  predicate VersionLocked(s: State) {
    exists tx :: tx in s.edits && s.edits[tx].bumped.Some?
  }

  predicate NewTx(s: State, tx: Tx) { tx !in s.edits && tx !in s.fences }

  // A step is enabled when the locks it takes are free, and then what its statement says
  // is judged on the rows as they are.
  predicate Enabled(s: State, step: Step) {
    match step
    case BeginCreate(tx, t, rowId, generation) =>
      && NewTx(s, tx) && rowId !in s.drawn && generation !in s.drawn && rowId != generation
      && t.name !in s.rows && !Editing(s, t.name) && CreatedRow(t, rowId, generation).Ok?
    case BeginUpdate(tx, key, t, rerolled) =>
      && NewTx(s, tx) && rerolled !in s.drawn && t.name == key.name
      && !Editing(s, key.name) && !Fenced(s, key.name)
      && Matches(s.rows, key) && UpdatedRow(s.rows[key.name], t, rerolled).Ok?
    case BeginDelete(tx, key) =>
      NewTx(s, tx) && !Editing(s, key.name) && !Fenced(s, key.name) && Matches(s.rows, key)
    case Bump(tx) => tx in s.edits && s.edits[tx].bumped.None? && !VersionLocked(s)
    case CommitEdit(tx) => tx in s.edits && s.edits[tx].bumped.Some?
    case RollbackEdit(tx) => tx in s.edits
    case LockShare(tx, name, stamp) =>
      NewTx(s, tx) && !Editing(s, name) && name in s.rows && s.rows[name].stamp == stamp
    case ReleaseShare(tx) => tx in s.fences
  }

  function SupplyOf(t: Target, rowId: Text): set<Supply> {
    if t.mode == STATIC && t.staticHeaders != map[] then {Supply(t.name, rowId, t.url, t.staticHeaders)} else {}
  }

  function Next(s: State, step: Step): State
    requires Enabled(s, step)
  {
    match step
    case BeginCreate(tx, t, rowId, generation) =>
      s.(edits := s.edits[tx := Edit(None, Put(CreatedRow(t, rowId, generation).value), None)],
         drawn := s.drawn + {rowId, generation},
         supplied := s.supplied + SupplyOf(t, rowId))
    case BeginUpdate(tx, key, t, rerolled) =>
      var cur := s.rows[key.name];
      s.(edits := s.edits[tx := Edit(Some(cur), Put(UpdatedRow(cur, t, rerolled).value), None)],
         drawn := s.drawn + {rerolled},
         supplied := s.supplied + SupplyOf(t, cur.rowId))
    case BeginDelete(tx, key) =>
      s.(edits := s.edits[tx := Edit(Some(s.rows[key.name]), Remove(key.name), None)])
    case Bump(tx) =>
      s.(edits := s.edits[tx := s.edits[tx].(bumped := Some(s.version + 1))])
    case CommitEdit(tx) =>
      var e := s.edits[tx];
      var rows := Applied(s.rows, e.change);
      s.(rows := rows, version := e.bumped.value, edits := s.edits - {tx}, tables := s.tables + [rows])
    case RollbackEdit(tx) => s.(edits := s.edits - {tx})
    case LockShare(tx, name, stamp) =>
      s.(fences := s.fences[tx := Fence(name, stamp, s.rows[name].target.allowedGroups)])
    case ReleaseShare(tx) => s.(fences := s.fences - {tx})
  }
}
