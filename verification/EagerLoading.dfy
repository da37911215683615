// The eager-loading engine on the heap: one query for the nodes, one batched query per
// requested edge, recursively for the edges back to accounts.
module EagerLoading {
  import opened Common
  import opened AccountSchema
  import opened AccountEntity
  import opened Relational
  import opened QueryModel
  import opened QueryBuilder
  import opened EdgeLoading
  import opened GroupLoading
  import opened ForestLemmas

  // The node object n, with everything reachable inside fp, is the tree t.
  ghost predicate Represents(n: Account, t: AccountTree, fp: set<Account>)
    reads fp
    decreases t
  {
    && n in fp
    && n.f == t.f && n.loaded == t.loaded
    && n.groups == t.groups && n.proxy == t.proxy && n.usageLogs == t.usageLogs && n.accountGroups == t.accountGroups
    && (n.parent == null <==> t.parent == None)
    && (n.parent != null ==> Represents(n.parent, t.parent.value, fp))
    && |n.children| == |t.children|
    && (forall i :: 0 <= i < |n.children| ==> Represents(n.children[i], t.children[i], fp))
  }

  ghost predicate RepresentsAll(nodes: seq<Account>, trees: seq<AccountTree>, fp: set<Account>)
    reads fp
  {
    |nodes| == |trees| && forall i :: 0 <= i < |nodes| ==> Represents(nodes[i], trees[i], fp)
  }

  ghost predicate RepresentsOption(n: Account?, t: Option<AccountTree>, fp: set<Account>)
    reads fp
  {
    (n == null <==> t == None) && (n != null ==> Represents(n, t.value, fp))
  }

  lemma {:induction false} RepresentsWider(n: Account, t: AccountTree, fp: set<Account>, wider: set<Account>)
    requires fp <= wider && Represents(n, t, fp)
    ensures Represents(n, t, wider)
    decreases t
  {
    if n.parent != null { RepresentsWider(n.parent, t.parent.value, fp, wider); }
    forall i | 0 <= i < |n.children| ensures Represents(n.children[i], t.children[i], wider) {
      RepresentsWider(n.children[i], t.children[i], fp, wider);
    }
  }

  // ---- the parent edge -------------------------------------------------------------

  ghost function NodeAt(neighbors: seq<Account>, at: Option<nat>): Account?
    requires at.Some? ==> at.value < |neighbors|
  {
    if at.Some? then neighbors[at.value] else null
  }

  ghost predicate NamedParent(parent: Account?, neighbors: seq<Account>, keys: seq<SqlValue>, j: nat, fk: Option<int>)
    requires |keys| == |neighbors| && j <= |keys|
  {
    LatestBound(keys, j, fk);
    parent == NodeAt(neighbors, Latest(keys, j, fk))
  }

  lemma NamedParentNone(neighbors: seq<Account>, keys: seq<SqlValue>, fk: Option<int>)
    requires |keys| == |neighbors|
    ensures NamedParent(null, neighbors, keys, 0, fk)
  {
  }

  lemma NamedParentStep(parent: Account?, neighbors: seq<Account>, keys: seq<SqlValue>, j: nat, fk: Option<int>)
    requires |keys| == |neighbors| && j < |keys| && NamedParent(parent, neighbors, keys, j, fk)
    ensures NamedParent(if fk.Some? && keys[j] == Int(fk.value) then neighbors[j] else parent, neighbors, keys, j + 1, fk)
  {
  }

  method AssignParent(owners: seq<Account>, n: Account, ghost objs: set<Account>)
    requires forall m :: 0 <= m < |owners| ==> owners[m] in objs
    modifies objs`parent
    ensures forall o :: o in objs ==> o.parent == if o in owners then n else old(o.parent)
  {
    for m := 0 to |owners|
      invariant forall o :: o in objs ==> o.parent == if o in owners[..m] then n else old(o.parent)
    {
      owners[m].parent := n;
      assert owners[..m + 1] == owners[..m] + [owners[m]];
    }
    assert owners[..|owners|] == owners;
  }

  method DistributeParents(nodes: seq<Account>, nodeids: map<int, seq<Account>>, neighbors: seq<Account>,
                           ghost objs: set<Account>, ghost fks: seq<Option<int>>, ghost keys: seq<SqlValue>)
    returns (failed: bool)
    requires ForeignKeys(nodes, objs, fks)
    requires forall i :: 0 <= i < |nodes| ==> nodes[i].parent == null
    requires forall k :: KeyIndexed(nodeids, nodes, fks, |nodes|, k)
    requires |keys| == |neighbors|
    requires forall j :: 0 <= j < |neighbors| ==> keys[j] == Int(neighbors[j].f.id) && Some(neighbors[j].f.id) in fks
    modifies objs`parent
    ensures !failed
    ensures forall i :: 0 <= i < |nodes| ==> NamedParent(nodes[i].parent, neighbors, keys, |neighbors|, fks[i])
  {
    hide NamedParent;
    forall i | 0 <= i < |nodes| ensures NamedParent(nodes[i].parent, neighbors, keys, 0, fks[i]) {
      NamedParentNone(neighbors, keys, fks[i]);
    }
    for j := 0 to |neighbors|
      invariant forall i :: 0 <= i < |nodes| ==> NamedParent(nodes[i].parent, neighbors, keys, j, fks[i])
    {
      label Before:
      var n := neighbors[j];
      assert KeyIndexed(nodeids, nodes, fks, |nodes|, n.f.id);
      assert fks[..|fks|] == fks;
      if n.f.id !in nodeids { return true; }
      AssignParent(nodeids[n.f.id], n, objs);
      forall i | 0 <= i < |nodes| ensures NamedParent(nodes[i].parent, neighbors, keys, j + 1, fks[i]) {
        NamedParentStep(old@Before(nodes[i].parent), neighbors, keys, j, fks[i]);
        OwnersAre(nodeids, nodes, objs, fks, n.f.id, i);
      }
    }
    failed := false;
  }

  // ---- the children edge -----------------------------------------------------------

  ghost predicate ChildrenSoFar(list: seq<Account>, neighbors: seq<Account>, keys: seq<SqlValue>, j: nat, id: int)
    requires |keys| == |neighbors| && j <= |keys|
  {
    list == At(neighbors, Positions(keys[..j], Int(id)))
  }

  lemma ChildrenNone(neighbors: seq<Account>, keys: seq<SqlValue>, id: int)
    requires |keys| == |neighbors|
    ensures ChildrenSoFar([], neighbors, keys, 0, id)
  {
  }

  lemma ChildrenGrow(list: seq<Account>, neighbors: seq<Account>, keys: seq<SqlValue>, j: nat, id: int)
    requires |keys| == |neighbors| && j < |keys| && ChildrenSoFar(list, neighbors, keys, j, id)
    ensures ChildrenSoFar(if keys[j] == Int(id) then list + [neighbors[j]] else list, neighbors, keys, j + 1, id)
  {
    PositionsStep(keys, j, Int(id));
  }

  method DistributeChildren(nodes: seq<Account>, nodeids: map<int, Account>, neighbors: seq<Account>,
                            ghost objs: set<Account>, ghost ids: seq<int>, ghost keys: seq<SqlValue>)
    returns (failed: bool)
    requires NodeSet(nodes, objs, ids) && Indexed(nodeids, nodes, ids)
    requires forall i :: 0 <= i < |nodes| ==> nodes[i].children == []
    requires |keys| == |neighbors|
    requires forall j :: 0 <= j < |neighbors| ==>
      var fk := neighbors[j].f.parentAccountID; fk.Some? && keys[j] == Int(fk.value) && fk.value in ids
    modifies objs`children
    ensures !failed
    ensures forall i :: 0 <= i < |nodes| ==> ChildrenSoFar(nodes[i].children, neighbors, keys, |neighbors|, ids[i])
  {
    hide ChildrenSoFar;
    forall i | 0 <= i < |nodes| ensures ChildrenSoFar([], neighbors, keys, 0, ids[i]) { ChildrenNone(neighbors, keys, ids[i]); }
    for j := 0 to |neighbors|
      invariant forall i :: 0 <= i < |nodes| ==> ChildrenSoFar(nodes[i].children, neighbors, keys, j, ids[i])
    {
      label Before:
      var n := neighbors[j];
      var fk := n.f.parentAccountID;
      if fk == None { return true; }
      if fk.value !in nodeids { return true; }
      nodeids[fk.value].children := nodeids[fk.value].children + [n];
      forall i | 0 <= i < |nodes| ensures ChildrenSoFar(nodes[i].children, neighbors, keys, j + 1, ids[i]) {
        ChildrenGrow(old@Before(nodes[i].children), neighbors, keys, j, ids[i]);
      }
    }
    failed := false;
  }

  // ---- reading the nodes -----------------------------------------------------------

  // rows.Scan: the driver fills the allocated containers.
  method ScanInto(codec: Codec, columns: seq<Column>, empties: seq<Container>,
      row: Row) returns (values: seq<Container>)
    requires Typed(codec, row) && |empties| == |columns|
    requires forall i :: 0 <= i < |columns| ==> empties[i] == Allocate(KindOf(columns[i]))
    ensures values == ScanRow(codec, columns, row)
  {
    values := [];
    for i := 0 to |columns|
      invariant values == ScanRow(codec, columns, row)[..i]
    {
      assert Holds(codec, columns[i], Col(row, columns[i]));
      values := values + [Scan(empties[i], Col(row, columns[i])).value];
    }
  }

  // A node as read: the projected fields and no neighbours yet.
  ghost predicate JustRead(n: Account, row: Row, codec: Codec, columns: seq<Column>, loaded: LoadedTypes)
    requires Typed(codec, row)
    reads n
  {
    && n.f == Project(codec, row, columns) && n.loaded == loaded
    && n.groups == [] && n.proxy == None && n.parent == null
    && n.children == [] && n.usageLogs == [] && n.accountGroups == []
  }

  method ReadNode(codec: Codec, row: Row, columns: seq<Column>, loaded: LoadedTypes) returns (node: Account)
    requires Typed(codec, row)
    ensures fresh(node) && JustRead(node, row, codec, columns, loaded)
  {
    hide Project, Assign;
    node := new Account();
    node.loaded := loaded;
    var empties := Account.ScanValues(columns);
    var values := ScanInto(codec, columns, empties, row);
    var err := node.AssignValues(codec, columns, values);
    ColumnCallbacksAgree(codec, columns, row, FieldID);
  }

  method ReadNodes(codec: Codec, rows: seq<Row>, columns: seq<Column>, loaded: LoadedTypes)
    returns (nodes: seq<Account>, ghost objs: set<Account>)
    requires forall i :: 0 <= i < |rows| ==> Typed(codec, rows[i])
    ensures fresh(objs) && |nodes| == |rows|
    ensures forall i :: 0 <= i < |nodes| ==> nodes[i] in objs && JustRead(nodes[i], rows[i], codec, columns, loaded)
    ensures forall i, j :: 0 <= i < j < |nodes| ==> nodes[i] != nodes[j]
  {
    hide JustRead;
    nodes, objs := [], {};
    for i := 0 to |rows|
      invariant fresh(objs) && |nodes| == i
      invariant forall k :: 0 <= k < i ==> nodes[k] in objs && JustRead(nodes[k], rows[k], codec, columns, loaded)
      invariant forall k, m :: 0 <= k < m < i ==> nodes[k] != nodes[m]
    {
      var node := ReadNode(codec, rows[i], columns, loaded);
      nodes, objs := nodes + [node], objs + {node};
    }
  }

  // ---- the edges to other tables, when requested -----------------------------------

  method GroupsStep(driver: Driver, query: EdgeQuery?, nodes: seq<Account>, ghost objs: set<Account>,
      ghost ids: seq<int>)
    returns (failed: bool)
    requires WellFormed(driver.db) && NodeSet(nodes, objs, ids)
    requires query != null ==> query.table == Groups && query.joins == []
    requires forall i :: 0 <= i < |nodes| ==> nodes[i].groups == []
    modifies driver`queries, Single(query)`joins, objs`groups
    ensures driver.queries <= old(driver.queries) + Bit(old(EdgeView(query)))
    ensures failed <==> GroupsFail(old(EdgeView(query)), driver.db)
    ensures !failed ==> EdgeView(query) == AfterGroups(old(EdgeView(query)), ids)
    ensures !failed ==> forall i :: 0 <= i < |nodes| ==>
      nodes[i].groups == if query != null then GroupsOf(old(EdgeView(query)).value, ids[i], driver.db) else []
  {
    failed := false;
    if query != null { failed := LoadGroups(driver, query, nodes, objs, ids); }
  }

  method ProxyStep(driver: Driver, query: EdgeQuery?, nodes: seq<Account>, ghost objs: set<Account>,
      ghost fks: seq<Option<int>>)
    returns (failed: bool)
    requires WellFormed(driver.db) && ForeignKeys(nodes, objs, fks)
    requires query != null ==> query.table == Proxies && forall i :: 0 <= i < |nodes| ==> nodes[i].f.proxyID == fks[i]
    requires forall i :: 0 <= i < |nodes| ==> nodes[i].proxy == None
    modifies driver`queries, Single(query)`predicates, objs`proxy
    ensures driver.queries <= old(driver.queries) + Bit(old(EdgeView(query)))
    ensures failed <==> ProxyFails(old(EdgeView(query)), fks, driver.db)
    ensures !failed ==> EdgeView(query) == AfterProxy(old(EdgeView(query)), fks)
    ensures !failed ==> forall i :: 0 <= i < |nodes| ==>
      nodes[i].proxy == if query != null then ProxyOf(old(EdgeView(query)).value, fks[i], driver.db) else None
  {
    failed := false;
    if query != null { failed := LoadProxy(driver, query, nodes, objs, fks); }
  }

  method UsageLogsStep(driver: Driver, query: EdgeQuery?, nodes: seq<Account>, ghost objs: set<Account>,
      ghost ids: seq<int>)
    returns (failed: bool)
    requires NodeSet(nodes, objs, ids)
    requires forall i :: 0 <= i < |nodes| ==> nodes[i].usageLogs == []
    modifies driver`queries, Single(query)`predicates, Single(query)`fields, objs`usageLogs
    ensures driver.queries <= old(driver.queries) + Bit(old(EdgeView(query)))
    ensures failed <==> OwnedFail(old(EdgeView(query)), driver.db)
    ensures !failed ==> EdgeView(query) == AfterOwned(old(EdgeView(query)), ids)
    ensures !failed ==> forall i :: 0 <= i < |nodes| ==>
      nodes[i].usageLogs == if query != null then OwnedRows(old(EdgeView(query)).value, ids[i], driver.db) else []
  {
    failed := false;
    if query != null { failed := LoadUsageLogs(driver, query, nodes, objs, ids); }
  }

  method AccountGroupsStep(driver: Driver, query: EdgeQuery?, nodes: seq<Account>, ghost objs: set<Account>,
      ghost ids: seq<int>)
    returns (failed: bool)
    requires NodeSet(nodes, objs, ids)
    requires forall i :: 0 <= i < |nodes| ==> nodes[i].accountGroups == []
    modifies driver`queries, Single(query)`predicates, Single(query)`fields, objs`accountGroups
    ensures driver.queries <= old(driver.queries) + Bit(old(EdgeView(query)))
    ensures failed <==> OwnedFail(old(EdgeView(query)), driver.db)
    ensures !failed ==> EdgeView(query) == AfterOwned(old(EdgeView(query)), ids)
    ensures !failed ==> forall i :: 0 <= i < |nodes| ==>
      nodes[i].accountGroups == if query != null then OwnedRows(old(EdgeView(query)).value, ids[i], driver.db) else []
  {
    failed := false;
    if query != null { failed := LoadAccountGroups(driver, query, nodes, objs, ids); }
  }

  // ---- the edges back to accounts, and the query itself ----------------------------

  // The neighbours of a batch by primary key: their ids are keys of the batch.
  lemma {:induction false} ParentBatchKeys(q: QueryTree, fks: seq<Option<int>>, j: nat, db: DB)
    requires WellFormed(db) && j < |Rows(ParentBatch(q, fks), db)|
    ensures var batch := ParentBatch(q, fks);
      var id := Forest(batch, db)[j].f.id;
      Cells(Rows(batch, db), FieldID)[j] == Int(id) && Some(id) in fks
  {
    var batch := ParentBatch(q, fks);
    var row := Rows(batch, db)[j];
    RowsTyped(batch, db);
    SelectedKeys(batch.fields, batch.proxy.Some?, batch.parent.Some?);
    NodeKeys(db.codec, row, SelectedColumns(batch.fields, batch.proxy.Some?, batch.parent.Some?));
    assert row in Rows(batch, db);
    ExtendAll(q.preds, In(FieldID, Distinct(fks)), row);
  }

  // The neighbours of a batch of children: their foreign keys are ids of the batch.
  // The foreign key is selected by every child query.
  lemma ParentKeySelected(q: QueryTree, withProxy: bool, withParent: bool)
    ensures FieldParentAccountID in SelectedColumns(ChildQuery(q).fields, withProxy, withParent)
  {
    SelectedKeys(ChildQuery(q).fields, withProxy, withParent);
    assert Columns[30] == FieldParentAccountID;
  }

  lemma {:induction false} ChildBatchKeys(q: QueryTree, ids: seq<int>, j: nat, db: DB)
    requires WellFormed(db) && j < |Rows(ChildBatch(q, ids), db)|
    ensures var batch := ChildBatch(q, ids);
      var fk := Forest(batch, db)[j].f.parentAccountID;
      fk.Some? && Cells(Rows(batch, db), FieldParentAccountID)[j] == Int(fk.value) && fk.value in ids
  {
    var batch := ChildBatch(q, ids);
    var row := Rows(batch, db)[j];
    RowsTyped(batch, db);
    SelectedKeys(batch.fields, batch.proxy.Some?, batch.parent.Some?);
    NodeKeys(db.codec, row, SelectedColumns(batch.fields, batch.proxy.Some?, batch.parent.Some?));
    ParentKeySelected(q, batch.proxy.Some?, batch.parent.Some?);
    assert row in Rows(batch, db);
    ExtendAll(ChildQuery(q).preds, In(FieldParentAccountID, ids), row);
    hide SelectedColumns, NeedKey, AppendOnce;
  }

  lemma {:induction false} BatchSize(q: QueryTree, fks: seq<Option<int>>, ids: seq<int>)
    ensures Size(ParentBatch(q, fks)) == Size(q) && Size(ChildBatch(q, ids)) == Size(q)
    ensures Unjoined(q) ==> Unjoined(ParentBatch(q, fks)) && Unjoined(ChildBatch(q, ids))
  {
  }

  method ParentKeysOf(nodes: seq<Account>) returns (fks: seq<Option<int>>)
    ensures |fks| == |nodes| && forall i :: 0 <= i < |nodes| ==> fks[i] == nodes[i].f.parentAccountID
  {
    fks := [];
    for i := 0 to |nodes|
      invariant |fks| == i && forall k :: 0 <= k < i ==> fks[k] == nodes[k].f.parentAccountID
    {
      fks := fks + [nodes[i].f.parentAccountID];
    }
  }

  lemma InOwnRepr(q: AccountQuery)
    requires q.Valid()
    ensures q in q.Repr
  {
  }

  method NarrowParents(query: AccountQuery, ids: seq<int>, ghost fks: seq<Option<int>>)
    requires query.Valid() && ids == Distinct(fks)
    modifies query`predicates
    ensures query.View() == ParentBatch(old(query.View()), fks)
  {
    query.Where(In(FieldID, ids));
  }

  method NarrowChildren(query: AccountQuery, fks: seq<int>)
    requires query.Valid()
    modifies query`predicates, query`fields
    ensures query.View() == ChildBatch(old(query.View()), fks)
  {
    if |query.fields| > 0 {
      query.AppendFieldOnce(FieldParentAccountID);
    }
    query.Where(In(FieldParentAccountID, fks));
  }

  method InitChildren(nodes: seq<Account>, ghost objs: set<Account>)
    requires forall i :: 0 <= i < |nodes| ==> nodes[i] in objs
    modifies objs`children
    ensures forall i :: 0 <= i < |nodes| ==> nodes[i].children == []
  {
    for i := 0 to |nodes|
      invariant forall k :: 0 <= k < i ==> nodes[k].children == []
    {
      nodes[i].children := [];
    }
  }

  method LoadParent(driver: Driver, query: AccountQuery, nodes: seq<Account>, ghost objs: set<Account>,
      ghost fks: seq<Option<int>>)
    returns (failed: bool, ghost fp: set<Account>)
    requires WellFormed(driver.db) && query.Valid() && Unjoined(query.View())
    requires ForeignKeys(nodes, objs, fks)
    requires forall i :: 0 <= i < |nodes| ==> nodes[i].parent == null && nodes[i].f.parentAccountID == fks[i]
    modifies driver`queries, query.Repr, query.Edges, objs`parent
    ensures driver.queries <= old(driver.queries) + Size(old(query.View()))
    ensures failed <==> ParentFails(old(query.View()), fks, driver.db)
    ensures !failed ==> fresh(fp) && query.View() == AfterParent(old(query.View()), fks, driver.db)
    ensures !failed ==> forall i :: 0 <= i < |nodes| ==>
      RepresentsOption(nodes[i].parent, ParentOf(old(query.View()), fks[i], driver.db), fp)
    decreases query.Repr, 2
  {
    hide AfterRun, Forest, Fails, Size, KeyIndexed, ParentOf, Distinct, RepresentsOption, RepresentsAll, Unjoined;
    hide AccountQuery.View, AccountQuery.Valid;
    ghost var q := query.View();
    fp := {};
    BatchSize(q, fks, []);
    var keys := ParentKeysOf(nodes);
    assert keys == fks;
    var ids, nodeids := IndexForeignKeys(nodes, keys);
    if |ids| == 0 {
      forall i | 0 <= i < |nodes| ensures RepresentsOption(nodes[i].parent, ParentOf(q, fks[i], driver.db), {}) {
        KeyIsListed(fks, i);
        NoParent(q, driver.db);
      }
      return false, {};
    }
    InOwnRepr(query);
    NarrowParents(query, ids, fks);
    var neighbors: seq<Account>;
    failed, neighbors, fp := All(driver, query);
    if failed { return; }
    failed := GiveParents(driver.db, q, nodes, nodeids, neighbors, objs, fks, fp);
  }

  lemma NoParent(q: QueryTree, db: DB)
    requires WellFormed(db)
    ensures RepresentsOption(null, ParentOf(q, None, db), {})
  {
  }

  // The distribution after the batched query, and what it amounts to.
  method GiveParents(ghost db: DB, ghost q: QueryTree, nodes: seq<Account>, nodeids: map<int, seq<Account>>,
                     neighbors: seq<Account>, ghost objs: set<Account>, ghost fks: seq<Option<int>>, ghost fp: set<Account>)
    returns (failed: bool)
    requires WellFormed(db) && ForeignKeys(nodes, objs, fks) && fp !! objs
    requires forall i :: 0 <= i < |nodes| ==> nodes[i].parent == null
    requires forall k :: KeyIndexed(nodeids, nodes, fks, |nodes|, k)
    requires RepresentsAll(neighbors, Forest(ParentBatch(q, fks), db), fp)
    modifies objs`parent
    ensures !failed
    ensures forall i :: 0 <= i < |nodes| ==> RepresentsOption(nodes[i].parent, ParentOf(q, fks[i], db), fp)
  {
    hide Forest, ParentOf, KeyIndexed;
    ghost var keys := Cells(Rows(ParentBatch(q, fks), db), FieldID);
    forall j | 0 <= j < |neighbors| ensures keys[j] == Int(neighbors[j].f.id) && Some(neighbors[j].f.id) in fks {
      ParentBatchKeys(q, fks, j, db);
    }
    failed := DistributeParents(nodes, nodeids, neighbors, objs, fks, keys);
    forall i | 0 <= i < |nodes| ensures RepresentsOption(nodes[i].parent, ParentOf(q, fks[i], db), fp) {
      ParentShare(q, fks, fks[i], db);
    }
  }

  method LoadChildren(driver: Driver, query: AccountQuery, nodes: seq<Account>, ghost objs: set<Account>,
      ghost ids: seq<int>)
    returns (failed: bool, ghost fp: set<Account>)
    requires WellFormed(driver.db) && query.Valid() && Unjoined(query.View())
    requires NodeSet(nodes, objs, ids)
    modifies driver`queries, query.Repr, query.Edges, objs`children
    ensures driver.queries <= old(driver.queries) + Size(old(query.View()))
    ensures failed <==> ChildrenFail(old(query.View()), ids, driver.db)
    ensures !failed ==> fresh(fp) && query.View() == AfterChildren(old(query.View()), ids, driver.db)
    ensures !failed ==> forall i :: 0 <= i < |nodes| ==>
      RepresentsAll(nodes[i].children, ChildrenOf(old(query.View()), ids[i], driver.db), fp)
    decreases query.Repr, 2
  {
    hide AfterRun, Forest, Fails, Size, ChildrenOf, RepresentsAll, Unjoined, AccountQuery.View, AccountQuery.Valid, WellFormed;
    ghost var q := query.View();
    BatchSize(q, [], ids);
    var fks, nodeids := IndexNodes(nodes, objs, ids);
    InitChildren(nodes, objs);
    InOwnRepr(query);
    NarrowChildren(query, fks);
    var neighbors: seq<Account>;
    failed, neighbors, fp := All(driver, query);
    if failed { return; }
    failed := GiveChildren(driver.db, q, nodes, nodeids, neighbors, objs, ids, fp);
  }

  method GiveChildren(ghost db: DB, ghost q: QueryTree, nodes: seq<Account>, nodeids: map<int, Account>,
                      neighbors: seq<Account>, ghost objs: set<Account>, ghost ids: seq<int>, ghost fp: set<Account>)
    returns (failed: bool)
    requires WellFormed(db) && NodeSet(nodes, objs, ids) && Indexed(nodeids, nodes, ids) && fp !! objs
    requires forall i :: 0 <= i < |nodes| ==> nodes[i].children == []
    requires RepresentsAll(neighbors, Forest(ChildBatch(q, ids), db), fp)
    modifies objs`children
    ensures !failed
    ensures forall i :: 0 <= i < |nodes| ==> RepresentsAll(nodes[i].children, ChildrenOf(q, ids[i], db), fp)
  {
    hide Forest, ChildrenOf;
    ghost var keys := Cells(Rows(ChildBatch(q, ids), db), FieldParentAccountID);
    forall j | 0 <= j < |neighbors|
      ensures var fk := neighbors[j].f.parentAccountID; fk.Some? && keys[j] == Int(fk.value) && fk.value in ids
    {
      ChildBatchKeys(q, ids, j, db);
    }
    failed := DistributeChildren(nodes, nodeids, neighbors, objs, ids, keys);
    forall i | 0 <= i < |nodes| ensures RepresentsAll(nodes[i].children, ChildrenOf(q, ids[i], db), fp) {
      ChildShare(q, ids, ids[i], db);
      assert keys[..|keys|] == keys;
    }
  }

  // All: the fields are validated, then the query runs.
  method All(driver: Driver, q: AccountQuery) returns (failed: bool, nodes: seq<Account>, ghost fp: set<Account>)
    requires WellFormed(driver.db) && q.Valid() && Unjoined(q.View())
    modifies driver`queries, q.Repr, q.Edges
    ensures driver.queries <= old(driver.queries) + Size(old(q.View()))
    ensures failed <==> Fails(old(q.View()), driver.db)
    ensures !failed ==> fresh(fp) && q.View() == AfterRun(old(q.View()), driver.db)
    ensures !failed ==> RepresentsAll(nodes, Forest(old(q.View()), driver.db), fp)
    decreases q.Repr, 1
  {
    hide AfterRun, Forest, EdgeFails, Represents, RepresentsAll, ValidColumn, Size, Unjoined;
    for i := 0 to |q.fields|
      modifies {}
      invariant forall k :: 0 <= k < i ==> ValidColumn(q.fields[k])
    {
      if !ValidColumn(q.fields[i]) { return true, [], {}; }
    }
    failed, nodes, fp := SqlAll(driver, q);
  }

  method SqlAll(driver: Driver, q: AccountQuery) returns (failed: bool, nodes: seq<Account>, ghost fp: set<Account>)
    requires WellFormed(driver.db) && q.Valid() && Unjoined(q.View())
    modifies driver`queries, q.Repr, q.Edges
    ensures driver.queries <= old(driver.queries) + Size(old(q.View()))
    ensures failed <==> Rows(old(q.View()), driver.db) != [] && EdgeFails(old(q.View()), Rows(old(q.View()), driver.db), driver.db)
    ensures !failed ==> fresh(fp) && q.View() == AfterRun(old(q.View()), driver.db)
    ensures !failed ==> RepresentsAll(nodes, Forest(old(q.View()), driver.db), fp)
    decreases q.Repr, 0, 3
  {
    hide AfterEdges, EdgeFails, TreeOf, Size, Unjoined, AccountQuery.View, AccountQuery.Valid, JustRead, SelectedColumns, Keyed,
      Represents, FieldsPart, OuterPart, ParentPart, ChildrenPart, OwnedPart, Typed;
    ghost var v := q.View();
    ViewParts(q);
    var columns := SelectedColumns(q.fields, q.withProxy != null, q.withParent != null);
    var loaded := LoadedTypes(q.withGroups != null, q.withProxy != null, q.withParent != null,
                              q.withChildren != null, q.withUsageLogs != null, q.withAccountGroups != null);
    var rows := driver.QueryAccounts(q.predicates, q.order);
    RowsTyped(v, driver.db);
    ghost var objs;
    nodes, objs := ReadNodes(driver.db.codec, rows, columns, loaded);
    if |nodes| == 0 {
      SizePositive(v);
      return false, nodes, {};
    }
    ReadReady(nodes, objs, rows, v, driver.db.codec);
    ghost var fpP, fpC;
    failed, fpP, fpC := LoadEdges(driver, q, rows, nodes, objs);
    fp := objs + fpP + fpC;
    if failed { return; }
    forall i | 0 <= i < |nodes| ensures Represents(nodes[i], TreeOf(v, rows[i], driver.db), fp) {
      Assemble(nodes[i], v, rows[i], driver.db, fpP, fpC, fp);
    }
  }

  lemma {:induction false} SizePositive(q: QueryTree)
    ensures Size(q) >= 1
  {
  }

  // The parts of the view of a builder.
  lemma {:induction false} ViewParts(q: AccountQuery)
    requires q.Valid()
    ensures var v := q.View();
      && v.fields == q.fields && v.preds == q.predicates && v.order == q.order
      && v.groups == EdgeView(q.withGroups) && v.proxy == EdgeView(q.withProxy)
      && (q.withParent != null ==> q.withParent.Valid()) && v.parent == TreeView(q.withParent)
      && (q.withChildren != null ==> q.withChildren.Valid()) && v.children == TreeView(q.withChildren)
      && v.usageLogs == EdgeView(q.withUsageLogs) && v.accountGroups == EdgeView(q.withAccountGroups)
  {
  }

  // A run of one edge touches no builder of another edge.
  lemma {:induction false} BuildersApart(q: AccountQuery)
    requires q.Valid()
    ensures Owns(q.withGroups, Groups, q.Edges) && Owns(q.withProxy, Proxies, q.Edges)
    ensures Owns(q.withUsageLogs, UsageLogs, q.Edges) && Owns(q.withAccountGroups, AccountGroups, q.Edges)
    ensures q.withParent != null ==> (
      && q.withParent.Repr < q.Repr && q !in q.withParent.Repr && q.withParent.Edges <= q.Edges
      && q.Apart(q.withParent.Edges) && q.withParent.Valid())
    ensures q.withChildren != null ==> (
      && q.withChildren.Repr < q.Repr && q !in q.withChildren.Repr && q.withChildren.Edges <= q.Edges
      && q.Apart(q.withChildren.Edges) && q.withChildren.Valid())
    ensures q.withParent != null && q.withChildren != null ==> (
      q.withParent.Repr !! q.withChildren.Repr && q.withParent.Edges !! q.withChildren.Edges)
  {
  }

  ghost function ReprOf(q: AccountQuery?): set<AccountQuery> { if q != null then q.Repr else {} }
  ghost function EdgesOf(q: AccountQuery?): set<EdgeQuery> { if q != null then q.Edges else {} }

  method ParentStep(driver: Driver, query: AccountQuery?, nodes: seq<Account>, ghost objs: set<Account>,
      ghost fks: seq<Option<int>>)
    returns (failed: bool, ghost fp: set<Account>)
    requires WellFormed(driver.db) && ForeignKeys(nodes, objs, fks)
    requires query != null ==> query.Valid() && Unjoined(query.View())
    requires query != null ==> forall i :: 0 <= i < |nodes| ==> nodes[i].f.parentAccountID == fks[i]
    requires forall i :: 0 <= i < |nodes| ==> nodes[i].parent == null
    modifies driver`queries, ReprOf(query), EdgesOf(query), objs`parent
    ensures driver.queries <= old(driver.queries) + if query != null then Size(old(query.View())) else 0
    ensures failed <==> query != null && ParentFails(old(query.View()), fks, driver.db)
    ensures !failed ==> fresh(fp)
    ensures !failed && query != null ==> query.View() == AfterParent(old(query.View()), fks, driver.db)
    ensures !failed ==> forall i :: 0 <= i < |nodes| ==>
      RepresentsOption(nodes[i].parent, if query != null then ParentOf(old(query.View()), fks[i], driver.db) else None, fp)
    decreases if query != null then query.Repr else {}, 3
  {
    hide AccountQuery.View, AccountQuery.Valid, ParentOf, ParentFails, AfterParent, Size;
    failed, fp := false, {};
    if query != null { failed, fp := LoadParent(driver, query, nodes, objs, fks); }
  }

  method ChildrenStep(driver: Driver, query: AccountQuery?, nodes: seq<Account>, ghost objs: set<Account>,
      ghost ids: seq<int>)
    returns (failed: bool, ghost fp: set<Account>)
    requires WellFormed(driver.db) && NodeSet(nodes, objs, ids)
    requires query != null ==> query.Valid() && Unjoined(query.View())
    requires forall i :: 0 <= i < |nodes| ==> nodes[i].children == []
    modifies driver`queries, ReprOf(query), EdgesOf(query), objs`children
    ensures driver.queries <= old(driver.queries) + if query != null then Size(old(query.View())) else 0
    ensures failed <==> query != null && ChildrenFail(old(query.View()), ids, driver.db)
    ensures !failed ==> fresh(fp)
    ensures !failed && query != null ==> query.View() == AfterChildren(old(query.View()), ids, driver.db)
    ensures !failed ==> forall i :: 0 <= i < |nodes| ==>
      RepresentsAll(nodes[i].children, if query != null then ChildrenOf(old(query.View()), ids[i], driver.db) else [], fp)
    decreases if query != null then query.Repr else {}, 3
  {
    hide AccountQuery.View, AccountQuery.Valid, ChildrenOf, ChildrenFail, AfterChildren, Size;
    failed, fp := false, {};
    if query != null { failed, fp := LoadChildren(driver, query, nodes, objs, ids); }
  }

  // The parts of a node, against the naive answers for its row.
  ghost predicate OuterPart(n: Account, v: QueryTree, row: Row, db: DB)
    reads n`groups, n`proxy
  {
    && n.groups == (if v.groups.Some? then GroupsOf(v.groups.value, IntOrZero(Col(row, FieldID)), db) else [])
    && n.proxy == (if v.proxy.Some? then ProxyOf(v.proxy.value, IntCell(Col(row, FieldProxyID)), db) else None)
  }

  ghost predicate ParentPart(n: Account, v: QueryTree, row: Row, db: DB, fp: set<Account>)
    requires WellFormed(db)
    reads n`parent, fp
  {
    RepresentsOption(n.parent,
      if v.parent.Some? then ParentOf(v.parent.value, IntCell(Col(row, FieldParentAccountID)), db) else None, fp)
  }

  ghost predicate ChildrenPart(n: Account, v: QueryTree, row: Row, db: DB, fp: set<Account>)
    requires WellFormed(db)
    reads n`children, fp
  {
    RepresentsAll(n.children, if v.children.Some? then ChildrenOf(v.children.value, IntOrZero(Col(row, FieldID)), db) else [], fp)
  }

  ghost predicate OwnedPart(n: Account, v: QueryTree, row: Row, db: DB)
    reads n`usageLogs, n`accountGroups
  {
    && n.usageLogs == (if v.usageLogs.Some? then OwnedRows(v.usageLogs.value, IntOrZero(Col(row, FieldID)), db) else [])
    && n.accountGroups == (if v.accountGroups.Some? then OwnedRows(v.accountGroups.value, IntOrZero(Col(row, FieldID)), db) else [])
  }

  ghost predicate FieldsPart(n: Account, v: QueryTree, row: Row, codec: Codec)
    requires Typed(codec, row)
    reads n`f, n`loaded
  {
    n.f == Project(codec, row, SelectedColumns(v.fields, v.proxy.Some?, v.parent.Some?)) && n.loaded == Loaded(v)
  }

  // A node whose parts are the naive answers is the naive tree.
  lemma {:induction false} Assemble(n: Account, v: QueryTree, row: Row, db: DB, fpP: set<Account>,
      fpC: set<Account>, fp: set<Account>)
    requires WellFormed(db) && Typed(db.codec, row) && Col(row, FieldID).Int?
    requires n in fp && fpP <= fp && fpC <= fp
    requires FieldsPart(n, v, row, db.codec) && OwnedPart(n, v, row, db) && OuterPart(n, v, row, db)
    requires ParentPart(n, v, row, db, fpP) && ChildrenPart(n, v, row, db, fpC)
    ensures Represents(n, TreeOf(v, row, db), fp)
  {
    hide GroupsOf, ProxyOf, ParentOf, ChildrenOf, OwnedRows, Project;
    Wider(n, fpP, fpC, fp);
  }

  // What the loaders need to know about freshly read nodes.
  lemma {:induction false} ReadFacts(n: Account, row: Row, codec: Codec, v: QueryTree)
    requires Typed(codec, row) && Col(row, FieldID).Int?
    requires JustRead(n, row, codec, SelectedColumns(v.fields, v.proxy.Some?, v.parent.Some?), Loaded(v))
    ensures n.f.id == Col(row, FieldID).i
    ensures v.proxy.Some? ==> n.f.proxyID == IntCell(Col(row, FieldProxyID))
    ensures v.parent.Some? ==> n.f.parentAccountID == IntCell(Col(row, FieldParentAccountID))
    ensures n.groups == [] && n.proxy == None && n.parent == null
    ensures n.children == [] && n.usageLogs == [] && n.accountGroups == []
    ensures n.f == Project(codec, row, SelectedColumns(v.fields, v.proxy.Some?, v.parent.Some?)) && n.loaded == Loaded(v)
  {
    hide Project, SelectedColumns;
    SelectedKeys(v.fields, v.proxy.Some?, v.parent.Some?);
    NodeKeys(codec, row, SelectedColumns(v.fields, v.proxy.Some?, v.parent.Some?));
  }

  // The nodes' ids and foreign keys are those of their rows.
  ghost predicate Keyed(nodes: seq<Account>, objs: set<Account>, rows: seq<Row>, v: QueryTree)
    reads objs`f
  {
    && |nodes| == |rows| && NodeSet(nodes, objs, IDs(rows))
    && ForeignKeys(nodes, objs, IntCells(rows, FieldProxyID)) && ForeignKeys(nodes, objs, IntCells(rows, FieldParentAccountID))
    && (v.proxy.Some? ==> forall i :: 0 <= i < |nodes| ==> nodes[i].f.proxyID == IntCells(rows, FieldProxyID)[i])
    && (v.parent.Some? ==> forall i :: 0 <= i < |nodes| ==> nodes[i].f.parentAccountID == IntCells(rows, FieldParentAccountID)[i])
  }

  // Nothing is loaded yet.
  ghost predicate OuterEmpty(nodes: seq<Account>, objs: set<Account>)
    reads objs`groups, objs`proxy
  {
    forall i :: 0 <= i < |nodes| ==> nodes[i] in objs && nodes[i].groups == [] && nodes[i].proxy == None
  }

  ghost predicate AccountsEmpty(nodes: seq<Account>, objs: set<Account>)
    reads objs`parent, objs`children
  {
    forall i :: 0 <= i < |nodes| ==> nodes[i] in objs && nodes[i].parent == null && nodes[i].children == []
  }

  lemma {:induction false} ReadReady(nodes: seq<Account>, objs: set<Account>, rows: seq<Row>, v: QueryTree,
      codec: Codec)
    requires |nodes| == |rows| && KeyedByID(rows)
    requires forall i :: 0 <= i < |rows| ==> Typed(codec, rows[i])
    requires forall i :: 0 <= i < |nodes| ==> (
      && nodes[i] in objs
      && JustRead(nodes[i], rows[i], codec, SelectedColumns(v.fields, v.proxy.Some?, v.parent.Some?), Loaded(v)))
    requires forall i, j :: 0 <= i < j < |nodes| ==> nodes[i] != nodes[j]
    ensures Keyed(nodes, objs, rows, v)
    ensures OuterEmpty(nodes, objs) && AccountsEmpty(nodes, objs)
    ensures forall i :: 0 <= i < |nodes| ==> nodes[i].usageLogs == [] && nodes[i].accountGroups == []
    ensures forall i :: 0 <= i < |nodes| ==> FieldsPart(nodes[i], v, rows[i], codec)
  {
    hide JustRead, SelectedColumns, Project, Typed, Loaded;
    forall i | 0 <= i < |nodes|
      ensures nodes[i].f.id == IDs(rows)[i]
      ensures v.proxy.Some? ==> nodes[i].f.proxyID == IntCells(rows, FieldProxyID)[i]
      ensures v.parent.Some? ==> nodes[i].f.parentAccountID == IntCells(rows, FieldParentAccountID)[i]
      ensures nodes[i].groups == [] && nodes[i].proxy == None && nodes[i].parent == null
      ensures nodes[i].children == [] && nodes[i].usageLogs == [] && nodes[i].accountGroups == []
      ensures FieldsPart(nodes[i], v, rows[i], codec)
    {
      ReadFacts(nodes[i], rows[i], codec, v);
    }
  }

  method LoadOuter(driver: Driver, groups: EdgeQuery?, proxy: EdgeQuery?, nodes: seq<Account>, ghost objs: set<Account>,
                   ghost rows: seq<Row>, ghost v: QueryTree)
    returns (failed: bool)
    requires WellFormed(driver.db) && |nodes| == |rows| && Keyed(nodes, objs, rows, v)
    requires v.groups == EdgeView(groups) && v.proxy == EdgeView(proxy)
    requires groups != null ==> groups.table == Groups && groups.joins == []
    requires proxy != null ==> proxy.table == Proxies
    requires OuterEmpty(nodes, objs)
    modifies driver`queries, Single(groups), Single(proxy), objs`groups, objs`proxy
    ensures driver.queries <= old(driver.queries) + Bit(v.groups) + Bit(v.proxy)
    ensures failed <==> GroupsFail(v.groups, driver.db) || ProxyFails(v.proxy, IntCells(rows, FieldProxyID), driver.db)
    ensures !failed ==> EdgeView(groups) == AfterGroups(v.groups, IDs(rows))
    ensures !failed ==> EdgeView(proxy) == AfterProxy(v.proxy, IntCells(rows, FieldProxyID))
    ensures !failed ==> OuterParts(nodes, objs, v, rows, driver.db)
  {
    hide GroupsOf, ProxyOf;
    failed := GroupsStep(driver, groups, nodes, objs, IDs(rows));
    if failed { return; }
    failed := ProxyStep(driver, proxy, nodes, objs, IntCells(rows, FieldProxyID));
  }

  method LoadOwned(driver: Driver, usageLogs: EdgeQuery?, accountGroups: EdgeQuery?, nodes: seq<Account>,
      ghost objs: set<Account>,
                   ghost rows: seq<Row>, ghost v: QueryTree)
    returns (failed: bool)
    requires Keyed(nodes, objs, rows, v)
    requires v.usageLogs == EdgeView(usageLogs) && v.accountGroups == EdgeView(accountGroups)
    requires usageLogs != null && accountGroups != null ==> usageLogs != accountGroups
    requires forall i :: 0 <= i < |nodes| ==> nodes[i].usageLogs == [] && nodes[i].accountGroups == []
    modifies driver`queries, Single(usageLogs)`fields, Single(usageLogs)`predicates,
             Single(accountGroups)`fields, Single(accountGroups)`predicates, objs`usageLogs, objs`accountGroups
    ensures driver.queries <= old(driver.queries) + Bit(v.usageLogs) + Bit(v.accountGroups)
    ensures failed <==> OwnedFail(v.usageLogs, driver.db) || OwnedFail(v.accountGroups, driver.db)
    ensures !failed ==> EdgeView(usageLogs) == AfterOwned(v.usageLogs, IDs(rows))
    ensures !failed ==> EdgeView(accountGroups) == AfterOwned(v.accountGroups, IDs(rows))
    ensures !failed ==> forall i :: 0 <= i < |nodes| ==> OwnedPart(nodes[i], v, rows[i], driver.db)
  {
    hide OwnedRows;
    failed := UsageLogsStep(driver, usageLogs, nodes, objs, IDs(rows));
    if failed { return; }
    failed := AccountGroupsStep(driver, accountGroups, nodes, objs, IDs(rows));
  }

  method LoadAccounts(driver: Driver, parent: AccountQuery?, children: AccountQuery?, nodes: seq<Account>,
      ghost objs: set<Account>,
                      ghost rows: seq<Row>, ghost v: QueryTree, ghost above: set<AccountQuery>)
    returns (failed: bool, ghost fpP: set<Account>, ghost fpC: set<Account>)
    requires WellFormed(driver.db) && |nodes| == |rows| && Keyed(nodes, objs, rows, v)
    requires parent != null ==> parent.Valid() && Unjoined(parent.View()) && parent.Repr < above
    requires children != null ==> children.Valid() && Unjoined(children.View()) && children.Repr < above
    requires v.parent == TreeView(parent) && v.children == TreeView(children)
    requires above != {}
    requires ReprOf(parent) !! ReprOf(children) && EdgesOf(parent) !! EdgesOf(children)
    requires AccountsEmpty(nodes, objs)
    modifies driver`queries, ReprOf(parent), EdgesOf(parent), ReprOf(children), EdgesOf(children), objs`parent, objs`children
    ensures driver.queries <= old(driver.queries)
      + (if v.parent.Some? then Size(v.parent.value) else 0) + (if v.children.Some? then Size(v.children.value) else 0)
    ensures failed <==>
      || (v.parent.Some? && ParentFails(v.parent.value, IntCells(rows, FieldParentAccountID), driver.db))
      || (v.children.Some? && ChildrenFail(v.children.value, IDs(rows), driver.db))
    ensures !failed ==> fresh(fpP) && fresh(fpC)
    ensures !failed && parent != null ==> parent.View() == AfterParent(v.parent.value, IntCells(rows, FieldParentAccountID), driver.db)
    ensures !failed && children != null ==> children.View() == AfterChildren(v.children.value, IDs(rows), driver.db)
    ensures !failed ==> AccountParts(nodes, objs, v, rows, driver.db, fpP, fpC)
    decreases above, 0, 0
  {
    hide AccountQuery.View, AccountQuery.Valid, ParentOf, ChildrenOf, ParentFails, ChildrenFail, AfterParent, AfterChildren, Size,
      RepresentsOption, RepresentsAll, Unjoined, WellFormed;
    fpC := {};
    failed, fpP := ParentStep(driver, parent, nodes, objs, IntCells(rows, FieldParentAccountID));
    if failed { return; }
    failed, fpC := ChildrenStep(driver, children, nodes, objs, IDs(rows));
  }

  // The builders that the first four loaders may change.
  ghost function FourBuilders(q: AccountQuery): set<AccountQuery> { ReprOf(q.withParent) + ReprOf(q.withChildren) }
  ghost function FourEdges(q: AccountQuery): set<EdgeQuery> {
    Single(q.withGroups) + Single(q.withProxy) + EdgesOf(q.withParent) + EdgesOf(q.withChildren)
  }

  lemma {:induction false} FourApart(q: AccountQuery)
    requires q.Valid()
    ensures FourBuilders(q) <= q.Repr && q !in FourBuilders(q) && FourEdges(q) <= q.Edges
    ensures FourEdges(q) !! Single(q.withUsageLogs) && FourEdges(q) !! Single(q.withAccountGroups)
  {
  }

  // The builders of the first four edges after their loaders ran.
  ghost predicate FourNarrowed(q: AccountQuery, v: QueryTree, rows: seq<Row>, db: DB)
    requires q.withParent != null ==> q.withParent.Valid()
    requires q.withChildren != null ==> q.withChildren.Valid()
    reads FourBuilders(q), FourEdges(q)
  {
    && (v.parent.Some? <==> q.withParent != null) && (v.children.Some? <==> q.withChildren != null)
    && EdgeView(q.withGroups) == AfterGroups(v.groups, IDs(rows))
    && EdgeView(q.withProxy) == AfterProxy(v.proxy, IntCells(rows, FieldProxyID))
    && (q.withParent != null ==> q.withParent.View() == AfterParent(v.parent.value, IntCells(rows, FieldParentAccountID), db))
    && (q.withChildren != null ==> q.withChildren.View() == AfterChildren(v.children.value, IDs(rows), db))
  }

  ghost predicate FourFail(v: QueryTree, rows: seq<Row>, db: DB)
    requires WellFormed(db)
  {
    || (GroupsFail(v.groups, db) || ProxyFails(v.proxy, IntCells(rows, FieldProxyID), db))
    || ((v.parent.Some? && ParentFails(v.parent.value, IntCells(rows, FieldParentAccountID), db))
        || (v.children.Some? && ChildrenFail(v.children.value, IDs(rows), db)))
  }

  ghost function FourSize(v: QueryTree): nat {
    Bit(v.groups) + Bit(v.proxy)
    + (if v.parent.Some? then Size(v.parent.value) else 0) + (if v.children.Some? then Size(v.children.value) else 0)
  }

  // What the first four loaders need to know about their builders.
  lemma {:induction false} FourFacts(q: AccountQuery)
    requires q.Valid() && Unjoined(q.View())
    ensures q.Repr != {}
    ensures FourBuilders(q) == ReprOf(q.withParent) + ReprOf(q.withChildren)
    ensures FourEdges(q) == Single(q.withGroups) + Single(q.withProxy) + EdgesOf(q.withParent) + EdgesOf(q.withChildren)
    ensures q.withGroups != null ==> q.withGroups.table == Groups && q.withGroups.joins == []
    ensures q.withProxy != null ==> q.withProxy.table == Proxies
    ensures q.withParent != null ==> q.withParent.Valid() && Unjoined(q.withParent.View()) && q.withParent.Repr < q.Repr
    ensures q.withChildren != null ==> q.withChildren.Valid() && Unjoined(q.withChildren.View()) && q.withChildren.Repr < q.Repr
    ensures q.View().groups == EdgeView(q.withGroups) && q.View().proxy == EdgeView(q.withProxy)
    ensures q.View().parent == TreeView(q.withParent) && q.View().children == TreeView(q.withChildren)
    ensures ReprOf(q.withParent) !! ReprOf(q.withChildren) && EdgesOf(q.withParent) !! EdgesOf(q.withChildren)
    ensures Single(q.withGroups) + Single(q.withProxy) !! EdgesOf(q.withParent) + EdgesOf(q.withChildren)
  {
    hide Unjoined;
    UnjoinedParts(q.View());
  }

  ghost predicate AccountParts(nodes: seq<Account>, objs: set<Account>, v: QueryTree, rows: seq<Row>, db: DB,
      fpP: set<Account>, fpC: set<Account>)
    requires WellFormed(db) && |nodes| == |rows|
    reads objs`parent, objs`children, fpP, fpC
  {
    forall i :: 0 <= i < |nodes| ==>
      nodes[i] in objs && ParentPart(nodes[i], v, rows[i], db, fpP) && ChildrenPart(nodes[i], v, rows[i], db, fpC)
  }

  ghost predicate OuterParts(nodes: seq<Account>, objs: set<Account>, v: QueryTree, rows: seq<Row>, db: DB)
    requires |nodes| == |rows|
    reads objs`groups, objs`proxy
  {
    forall i :: 0 <= i < |nodes| ==> nodes[i] in objs && OuterPart(nodes[i], v, rows[i], db)
  }

  // The first four loaders.
  method LoadFour(driver: Driver, q: AccountQuery, ghost rows: seq<Row>, nodes: seq<Account>,
      ghost objs: set<Account>, ghost v: QueryTree)
    returns (failed: bool, ghost fpP: set<Account>, ghost fpC: set<Account>)
    requires WellFormed(driver.db) && q.Valid() && v == q.View() && Unjoined(v)
    requires |nodes| == |rows| && Keyed(nodes, objs, rows, v)
    requires q.withParent != null ==> q.withParent.Valid()
    requires q.withChildren != null ==> q.withChildren.Valid()
    requires OuterEmpty(nodes, objs)
    requires AccountsEmpty(nodes, objs)
    modifies driver`queries, FourBuilders(q), FourEdges(q), objs`groups, objs`proxy, objs`parent, objs`children
    ensures driver.queries <= old(driver.queries) + FourSize(v)
    ensures failed <==> FourFail(v, rows, driver.db)
    ensures !failed ==> fresh(fpP) && fresh(fpC) && FourNarrowed(q, v, rows, driver.db)
    ensures !failed ==> OuterParts(nodes, objs, v, rows, driver.db) && AccountParts(nodes, objs, v, rows, driver.db, fpP, fpC)
    decreases q.Repr, 0, 1
  {
    hide AccountQuery.View, AccountQuery.Valid, Keyed, OuterParts, AccountParts, Unjoined,
      ParentFails, ChildrenFail, AfterParent, AfterChildren, Size, GroupsFail, ProxyFails, AfterGroups, AfterProxy,
      FourNarrowed, FourBuilders, FourEdges, FourFail, FourSize, OuterEmpty, AccountsEmpty, WellFormed, OuterPart,
      ParentPart, ChildrenPart, Distinct, EdgeView, Select;
    FourFacts(q);
    FourCases(v, rows, driver.db);
    fpP, fpC := {}, {};
    failed := LoadOuter(driver, q.withGroups, q.withProxy, nodes, objs, rows, v);
    if failed { return; }
    failed, fpP, fpC := LoadAccounts(driver, q.withParent, q.withChildren, nodes, objs, rows, v, q.Repr);
    if failed { return; }
    FourDone(q, v, rows, driver.db);
  }

  lemma FourCases(v: QueryTree, rows: seq<Row>, db: DB)
    requires WellFormed(db)
    ensures GroupsFail(v.groups, db) || ProxyFails(v.proxy, IntCells(rows, FieldProxyID), db) ==> FourFail(v, rows, db)
    ensures !(GroupsFail(v.groups, db) || ProxyFails(v.proxy, IntCells(rows, FieldProxyID), db)) ==>
      (FourFail(v, rows, db) <==>
        || (v.parent.Some? && ParentFails(v.parent.value, IntCells(rows, FieldParentAccountID), db))
        || (v.children.Some? && ChildrenFail(v.children.value, IDs(rows), db)))
    ensures FourSize(v) == Bit(v.groups) + Bit(v.proxy)
      + (if v.parent.Some? then Size(v.parent.value) else 0) + (if v.children.Some? then Size(v.children.value) else 0)
  {
  }

  lemma FourDone(q: AccountQuery, v: QueryTree, rows: seq<Row>, db: DB)
    requires q.withParent != null ==> q.withParent.Valid()
    requires q.withChildren != null ==> q.withChildren.Valid()
    requires (v.parent.Some? <==> q.withParent != null) && (v.children.Some? <==> q.withChildren != null)
    requires EdgeView(q.withGroups) == AfterGroups(v.groups, IDs(rows))
    requires EdgeView(q.withProxy) == AfterProxy(v.proxy, IntCells(rows, FieldProxyID))
    requires q.withParent != null ==> q.withParent.View() == AfterParent(v.parent.value, IntCells(rows, FieldParentAccountID), db)
    requires q.withChildren != null ==> q.withChildren.View() == AfterChildren(v.children.value, IDs(rows), db)
    ensures FourNarrowed(q, v, rows, db)
  {
  }

  // The six loaders, in the order of the source.
  method LoadEdges(driver: Driver, q: AccountQuery, ghost rows: seq<Row>, nodes: seq<Account>, ghost objs: set<Account>)
    returns (failed: bool, ghost fpP: set<Account>, ghost fpC: set<Account>)
    requires WellFormed(driver.db) && q.Valid() && Unjoined(q.View())
    requires |nodes| == |rows| && Keyed(nodes, objs, rows, q.View())
    requires OuterEmpty(nodes, objs)
    requires AccountsEmpty(nodes, objs)
    requires forall i :: 0 <= i < |nodes| ==> nodes[i].usageLogs == [] && nodes[i].accountGroups == []
    modifies driver`queries, q.Repr, q.Edges,
             objs`groups, objs`proxy, objs`parent, objs`children, objs`usageLogs, objs`accountGroups
    ensures driver.queries < old(driver.queries) + Size(old(q.View()))
    ensures failed <==> EdgeFails(old(q.View()), rows, driver.db)
    ensures !failed ==> fresh(fpP) && fresh(fpC) && q.View() == AfterEdges(old(q.View()), rows, driver.db)
    ensures !failed ==> OuterParts(nodes, objs, old(q.View()), rows, driver.db)
    ensures !failed ==> AccountParts(nodes, objs, old(q.View()), rows, driver.db, fpP, fpC)
    ensures !failed ==> forall i :: 0 <= i < |nodes| ==> OwnedPart(nodes[i], old(q.View()), rows[i], driver.db)
    decreases q.Repr, 0, 2
  {
    hide AccountQuery.View, AccountQuery.Valid, Keyed, OwnedPart, OuterParts, AccountParts, FourNarrowed, FourFail, FourSize, Unjoined,
      EdgeFails, AfterEdges, Size, OwnedFail, AfterOwned, FourBuilders, FourEdges, OuterEmpty, AccountsEmpty;
    FourApart(q);
    ghost var v := q.View();
    FailParts(v, rows, driver.db);
    InOwnRepr(q);
    ViewParts(q);
    BuildersApart(q);
    failed, fpP, fpC := LoadFour(driver, q, rows, nodes, objs, v);
    if failed { return; }
    failed := LoadOwned(driver, q.withUsageLogs, q.withAccountGroups, nodes, objs, rows, v);
    if failed { return; }
    AfterParts(q, v, rows, driver.db);
  }

  lemma {:induction false} FailParts(v: QueryTree, rows: seq<Row>, db: DB)
    requires WellFormed(db)
    ensures EdgeFails(v, rows, db) <==> FourFail(v, rows, db) || OwnedFail(v.usageLogs, db) || OwnedFail(v.accountGroups, db)
    ensures Size(v) == 1 + FourSize(v) + Bit(v.usageLogs) + Bit(v.accountGroups)
  {
    hide ParentFails, ChildrenFail, GroupsFail, ProxyFails, OwnedFail;
  }

  lemma {:induction false} AfterParts(q: AccountQuery, v: QueryTree, rows: seq<Row>, db: DB)
    requires q.Valid()
    requires q.withParent != null ==> q.withParent.Valid()
    requires q.withChildren != null ==> q.withChildren.Valid()
    requires q.fields == v.fields && q.predicates == v.preds && q.order == v.order
    requires FourNarrowed(q, v, rows, db)
    requires EdgeView(q.withUsageLogs) == AfterOwned(v.usageLogs, IDs(rows))
    requires EdgeView(q.withAccountGroups) == AfterOwned(v.accountGroups, IDs(rows))
    ensures q.View() == AfterEdges(v, rows, db)
  {
    hide AfterParent, AfterChildren, AfterGroups, AfterProxy, AfterOwned, AccountQuery.View, AccountQuery.Valid;
    ViewParts(q);
  }

  lemma {:induction false} UnjoinedParts(q: QueryTree)
    requires Unjoined(q)
    ensures q.groups.Some? ==> q.groups.value.joins == []
    ensures q.parent.Some? ==> Unjoined(q.parent.value)
    ensures q.children.Some? ==> Unjoined(q.children.value)
  {
  }

  // The neighbours keep their trees inside a wider set.
  lemma {:induction false} Wider(n: Account, fpP: set<Account>, fpC: set<Account>, fp: set<Account>)
    requires fpP <= fp && fpC <= fp
    ensures forall t :: RepresentsOption(n.parent, t, fpP) ==> RepresentsOption(n.parent, t, fp)
    ensures forall ts :: RepresentsAll(n.children, ts, fpC) ==> RepresentsAll(n.children, ts, fp)
  {
    forall t | RepresentsOption(n.parent, t, fpP) ensures RepresentsOption(n.parent, t, fp) {
      if n.parent != null { RepresentsWider(n.parent, t.value, fpP, fp); }
    }
    forall ts | RepresentsAll(n.children, ts, fpC) ensures RepresentsAll(n.children, ts, fp) {
      forall i | 0 <= i < |n.children| ensures Represents(n.children[i], ts[i], fp) {
        RepresentsWider(n.children[i], ts[i], fpC, fp);
      }
    }
  }
}
