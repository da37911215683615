// Queries as values, and what eager loading means: the naive forest that looks up the
// neighbours of every node by a query of its own.
module QueryModel {
  import opened Common
  import opened AccountSchema
  import opened AccountEntity
  import opened Relational

  // A query on one of the other tables. `joins` lists the account ids of each join with
  // account_groups that a groups loader added to it.
  datatype EdgeTree = EdgeTree(table: Table, fields: seq<Column>, preds: seq<Pred>, order: seq<OrderOption>, joins: seq<seq<int>>)

  // A query on accounts together with the queries of the edges to load.
  datatype QueryTree = QueryTree(
    fields: seq<Column>, preds: seq<Pred>, order: seq<OrderOption>,
    groups: Option<EdgeTree>, proxy: Option<EdgeTree>, parent: Option<QueryTree>,
    children: Option<QueryTree>, usageLogs: Option<EdgeTree>, accountGroups: Option<EdgeTree>)

  function Bit<T>(o: Option<T>): nat { if o.Some? then 1 else 0 }

  // The number of queries in the tree.
  ghost function Size(q: QueryTree): nat {
    1 + Bit(q.groups) + Bit(q.proxy) + Bit(q.usageLogs) + Bit(q.accountGroups)
    + (if q.parent.Some? then Size(q.parent.value) else 0)
    + (if q.children.Some? then Size(q.children.value) else 0)
  }

  // AddColumnOnce and AppendFieldOnce.
  function AppendOnce(columns: seq<Column>, c: Column): seq<Column> {
    if c in columns then columns else columns + [c]
  }

  // The columns that querySpec selects for an account query: all, or the id first, then
  // the fields asked for, then the foreign keys that the requested edges need.
  function SelectedColumns(fields: seq<Column>, withProxy: bool, withParent: bool): seq<Column> {
    if fields == [] then Columns
    else
      var base := [FieldID] + WithoutID(fields);
      var base' := if withProxy then AppendOnce(base, FieldProxyID) else base;
      if withParent then AppendOnce(base', FieldParentAccountID) else base'
  }

  // The columns that a query asks for: all of the table, or the selected ones; always the id.
  predicate AsksFor(fields: seq<Column>, c: Column) {
    !c.Other? && (fields == [] || c in fields || c == FieldID)
  }

  function WithoutID(fields: seq<Column>): (out: seq<Column>)
    ensures forall c :: c in out <==> c in fields && c != FieldID
  {
    if fields == [] then []
    else
      var init := WithoutID(fields[..|fields| - 1]);
      var last := fields[|fields| - 1];
      if last == FieldID then init else init + [last]
  }

  function HasID(t: Table): bool { t != AccountGroups }

  // The entity read from a row of another table.
  function ProjectOther(q: EdgeTree, row: Row): Row {
    if q.fields == [] then row
    else map c | c in row && (c in q.fields || (HasID(q.table) && c == FieldID)) :: row[c]
  }

  function ProjectAll(q: EdgeTree, rows: seq<Row>): (out: seq<Row>)
    ensures |out| == |rows|
    ensures forall i :: 0 <= i < |rows| ==> out[i] == ProjectOther(q, rows[i])
  {
    seq(|rows|, i requires 0 <= i < |rows| => ProjectOther(q, rows[i]))
  }

  function Rows(q: QueryTree, db: DB): seq<Row> {
    Select(db.accounts(q.order), q.preds)
  }

  function OtherRows(q: EdgeTree, db: DB): seq<Row> {
    Select(db.others(q.table, q.order), q.preds)
  }

  // A query narrowed by one more predicate.
  function Narrow(q: QueryTree, p: Pred): QueryTree { q.(preds := q.preds + [p]) }
  function NarrowOther(q: EdgeTree, p: Pred): EdgeTree { q.(preds := q.preds + [p]) }

  // A query with a projection is made to select the foreign key as well.
  function NeedKey(q: QueryTree, key: Column): QueryTree {
    if q.fields == [] then q else q.(fields := AppendOnce(q.fields, key))
  }
  function NeedKeyOther(q: EdgeTree, key: Column): EdgeTree {
    if q.fields == [] then q else q.(fields := AppendOnce(q.fields, key))
  }

  function IntCell(v: SqlValue): Option<int> { if v.Int? then Some(v.i) else None }

  function First<T>(s: seq<T>): Option<T> { if s == [] then None else Some(s[0]) }

  // ---- the naive meaning -----------------------------------------------------------

  datatype AccountTree = AccountTree(
    f: AccountFields, loaded: LoadedTypes,
    groups: seq<Row>, proxy: Option<Row>, parent: Option<AccountTree>,
    children: seq<AccountTree>, usageLogs: seq<Row>, accountGroups: seq<Row>)

  function Loaded(q: QueryTree): LoadedTypes {
    LoadedTypes(q.groups.Some?, q.proxy.Some?, q.parent.Some?, q.children.Some?, q.usageLogs.Some?, q.accountGroups.Some?)
  }

  // The result of a query: one tree per selected row.
  ghost function Forest(q: QueryTree, db: DB): (trees: seq<AccountTree>)
    requires WellFormed(db)
    ensures |trees| == |Rows(q, db)|
    decreases Size(q), 1
  {
    var rows := Rows(q, db);
    seq(|rows|, i requires 0 <= i < |rows| => assert rows[i] in rows; TreeOf(q, rows[i], db))
  }

  // One node: its own fields, and for every edge asked for the answer to a lookup of
  // this node's neighbours alone.
  ghost function TreeOf(q: QueryTree, r: Row, db: DB): AccountTree
    requires WellFormed(db) && Typed(db.codec, r) && Col(r, FieldID).Int?
    decreases Size(q), 0
  {
    var id := Col(r, FieldID).i;
    AccountTree(
      Project(db.codec, r, SelectedColumns(q.fields, q.proxy.Some?, q.parent.Some?)),
      Loaded(q),
      if q.groups.Some? then GroupsOf(q.groups.value, id, db) else [],
      if q.proxy.Some? then ProxyOf(q.proxy.value, IntCell(Col(r, FieldProxyID)), db) else None,
      if q.parent.Some? then ParentOf(q.parent.value, IntCell(Col(r, FieldParentAccountID)), db) else None,
      if q.children.Some? then ChildrenOf(q.children.value, id, db) else [],
      if q.usageLogs.Some? then OwnedRows(q.usageLogs.value, id, db) else [],
      if q.accountGroups.Some? then OwnedRows(q.accountGroups.value, id, db) else [])
  }

  // The groups linked to the account, each once.
  ghost function GroupsOf(q: EdgeTree, id: int, db: DB): seq<Row> {
    ProjectAll(q, OtherRows(NarrowOther(q, LinkedTo(db.others(AccountGroups, []), [id])), db))
  }

  ghost function ProxyOf(q: EdgeTree, fk: Option<int>, db: DB): Option<Row> {
    if fk.None? then None else First(ProjectAll(q, OtherRows(NarrowOther(q, In(FieldID, [fk.value])), db)))
  }

  ghost function ParentOf(q: QueryTree, fk: Option<int>, db: DB): Option<AccountTree>
    requires WellFormed(db)
    decreases Size(q), 2
  {
    if fk.None? then None
    else
      var one := Narrow(q, In(FieldID, [fk.value]));
      assert Size(one) == Size(q);
      First(Forest(one, db))
  }

  // The child query as the loader runs it, before it is narrowed.
  function ChildQuery(q: QueryTree): QueryTree { NeedKey(q, FieldParentAccountID) }

  ghost function ChildrenOf(q: QueryTree, id: int, db: DB): seq<AccountTree>
    requires WellFormed(db)
    decreases Size(q), 2
  {
    var own := Narrow(ChildQuery(q), In(FieldParentAccountID, [id]));
    assert Size(own) == Size(q);
    Forest(own, db)
  }

  // The usage logs, or the join rows, of the account.
  ghost function OwnedRows(q: EdgeTree, id: int, db: DB): seq<Row> {
    var q' := NeedKeyOther(q, AccountIDColumn);
    ProjectAll(q', OtherRows(NarrowOther(q', In(AccountIDColumn, [id])), db))
  }

  // ---- the batched queries ---------------------------------------------------------

  // The ids among the cells, each once, in order of first occurrence.
  function Distinct(keys: seq<Option<int>>): (ids: seq<int>)
    ensures forall k :: k in ids <==> Some(k) in keys
    ensures forall i, j :: 0 <= i < j < |ids| ==> ids[i] != ids[j]
  {
    if keys == [] then []
    else
      var init := Distinct(keys[..|keys| - 1]);
      var last := keys[|keys| - 1];
      if last.None? || last.value in init then init else init + [last.value]
  }

  function IntCells(rows: seq<Row>, col: Column): seq<Option<int>> {
    seq(|rows|, i requires 0 <= i < |rows| => IntCell(Col(rows[i], col)))
  }

  function IntOrZero(v: SqlValue): int { if v.Int? then v.i else 0 }

  function IDs(rows: seq<Row>): seq<int> {
    seq(|rows|, i requires 0 <= i < |rows| => IntOrZero(Col(rows[i], FieldID)))
  }

  // The narrowed queries that a run over nodes with these keys sends.
  function ParentBatch(q: QueryTree, fks: seq<Option<int>>): QueryTree { Narrow(q, In(FieldID, Distinct(fks))) }
  function ChildBatch(q: QueryTree, ids: seq<int>): QueryTree { Narrow(ChildQuery(q), In(FieldParentAccountID, ids)) }
  function ProxyBatch(q: EdgeTree, fks: seq<Option<int>>): EdgeTree { NarrowOther(q, In(FieldID, Distinct(fks))) }
  function OwnedBatch(q: EdgeTree, ids: seq<int>): EdgeTree {
    NarrowOther(NeedKeyOther(q, AccountIDColumn), In(AccountIDColumn, ids))
  }

  predicate InvalidOther(q: EdgeTree, db: DB) {
    exists i :: 0 <= i < |q.fields| && !db.validOther(q.table, q.fields[i])
  }

  predicate Invalid(q: QueryTree) {
    exists i :: 0 <= i < |q.fields| && !ValidColumn(q.fields[i])
  }

  // A run fails exactly when a query that it gets to send has an invalid field.
  ghost predicate Fails(q: QueryTree, db: DB)
    requires WellFormed(db)
    decreases Size(q), 0, 1
  {
    Invalid(q) || (Rows(q, db) != [] && EdgeFails(q, Rows(q, db), db))
  }

  ghost predicate EdgeFails(q: QueryTree, rows: seq<Row>, db: DB)
    requires WellFormed(db)
    decreases Size(q), 0, 0
  {
    || GroupsFail(q.groups, db)
    || ProxyFails(q.proxy, IntCells(rows, FieldProxyID), db)
    || (q.parent.Some? && ParentFails(q.parent.value, IntCells(rows, FieldParentAccountID), db))
    || (q.children.Some? && ChildrenFail(q.children.value, IDs(rows), db))
    || OwnedFail(q.usageLogs, db)
    || OwnedFail(q.accountGroups, db)
  }

  predicate GroupsFail(q: Option<EdgeTree>, db: DB) { q.Some? && InvalidOther(q.value, db) }
  predicate ProxyFails(q: Option<EdgeTree>, fks: seq<Option<int>>, db: DB) {
    q.Some? && Distinct(fks) != [] && InvalidOther(q.value, db)
  }
  predicate OwnedFail(q: Option<EdgeTree>, db: DB) { q.Some? && InvalidOther(NeedKeyOther(q.value,
      AccountIDColumn), db) }

  ghost predicate ParentFails(q: QueryTree, fks: seq<Option<int>>, db: DB)
    requires WellFormed(db)
    decreases Size(q), 1
  {
    assert Size(ParentBatch(q, fks)) == Size(q);
    Distinct(fks) != [] && Fails(ParentBatch(q, fks), db)
  }

  ghost predicate ChildrenFail(q: QueryTree, ids: seq<int>, db: DB)
    requires WellFormed(db)
    decreases Size(q), 1
  {
    assert Size(ChildBatch(q, ids)) == Size(q);
    Fails(ChildBatch(q, ids), db)
  }

  // The query tree that a successful run leaves behind: every loader narrowed the query
  // of its edge to the keys of the batch, and that query ran in turn.
  ghost function AfterRun(q: QueryTree, db: DB): (out: QueryTree)
    decreases Size(q), 0, 1
  {
    if Rows(q, db) == [] then q else AfterEdges(q, Rows(q, db), db)
  }

  ghost function AfterEdges(q: QueryTree, rows: seq<Row>, db: DB): (out: QueryTree)
    decreases Size(q), 0, 0
  {
    q.(groups := AfterGroups(q.groups, IDs(rows)),
       proxy := AfterProxy(q.proxy, IntCells(rows, FieldProxyID)),
       parent := if q.parent.Some? then Some(AfterParent(q.parent.value, IntCells(rows, FieldParentAccountID), db)) else None,
       children := if q.children.Some? then Some(AfterChildren(q.children.value, IDs(rows), db)) else None,
       usageLogs := AfterOwned(q.usageLogs, IDs(rows)),
       accountGroups := AfterOwned(q.accountGroups, IDs(rows)))
  }

  function AfterGroups(q: Option<EdgeTree>, ids: seq<int>): Option<EdgeTree> {
    if q.Some? then Some(Joined(q.value, ids)) else None
  }
  function AfterProxy(q: Option<EdgeTree>, fks: seq<Option<int>>): Option<EdgeTree> {
    if q.Some? && Distinct(fks) != [] then Some(ProxyBatch(q.value, fks)) else q
  }
  function AfterOwned(q: Option<EdgeTree>, ids: seq<int>): Option<EdgeTree> {
    if q.Some? then Some(OwnedBatch(q.value, ids)) else None
  }
  ghost function AfterParent(q: QueryTree, fks: seq<Option<int>>, db: DB): QueryTree
    decreases Size(q), 1
  {
    assert Size(ParentBatch(q, fks)) == Size(q);
    if Distinct(fks) != [] then AfterRun(ParentBatch(q, fks), db) else q
  }
  ghost function AfterChildren(q: QueryTree, ids: seq<int>, db: DB): QueryTree
    decreases Size(q), 1
  {
    assert Size(ChildBatch(q, ids)) == Size(q);
    AfterRun(ChildBatch(q, ids), db)
  }

  function Joined(q: EdgeTree, ids: seq<int>): EdgeTree { q.(joins := q.joins + [ids]) }

  // No groups query of the tree was run before.
  ghost predicate Unjoined(q: QueryTree) {
    && (q.groups.Some? ==> q.groups.value.joins == [])
    && (q.parent.Some? ==> Unjoined(q.parent.value))
    && (q.children.Some? ==> Unjoined(q.children.value))
  }
}
