// The loaders of the edges to other tables: one batched query per edge, whose rows are
// distributed over the nodes.
module EdgeLoading {
  import opened Common
  import opened AccountSchema
  import opened AccountEntity
  import opened Relational
  import opened QueryModel
  import opened QueryBuilder

  // The connection: an unchanging database and a count of the queries sent to it.
  class Driver {
    const db: DB
    var queries: nat

    constructor (db: DB)
      ensures this.db == db && queries == 0
    {
      this.db, queries := db, 0;
    }

    method QueryAccounts(preds: seq<Pred>, order: seq<OrderOption>) returns (rows: seq<Row>)
      modifies this`queries
      ensures rows == Select(db.accounts(order), preds) && queries == old(queries) + 1
    {
      queries := queries + 1;
      rows := Select(db.accounts(order), preds);
    }

    method QueryOthers(table: Table, preds: seq<Pred>, order: seq<OrderOption>) returns (rows: seq<Row>)
      modifies this`queries
      ensures rows == Select(db.others(table, order), preds) && queries == old(queries) + 1
    {
      queries := queries + 1;
      rows := Select(db.others(table, order), preds);
    }
  }

  // The nodes of one query result: different objects with different ids. `objs` is the
  // set of them and `ids` lists their ids.
  ghost predicate NodeSet(nodes: seq<Account>, objs: set<Account>, ids: seq<int>)
    reads objs`f
  {
    && |ids| == |nodes|
    && (forall i :: 0 <= i < |nodes| ==> nodes[i] in objs && nodes[i].f.id == ids[i])
    && (forall i, j :: 0 <= i < j < |nodes| ==> ids[i] != ids[j])
  }

  // ---- edges to another table, by its account_id -----------------------------------

  // A projection that selects column c keeps its cells.
  lemma ProjectKeeps(q: EdgeTree, c: Column, row: Row)
    requires q.fields == [] || c in q.fields || (HasID(q.table) && c == FieldID)
    ensures Col(ProjectOther(q, row), c) == Col(row, c)
  {
  }

  // The entities that the batched query returns.
  ghost function OwnedNeighbors(q: EdgeTree, ids: seq<int>, db: DB): seq<Row> {
    ProjectAll(OwnedBatch(q, ids), OtherRows(OwnedBatch(q, ids), db))
  }

  // Every neighbour names one of the batch's accounts, also under a projection.
  lemma OwnedKeys(q: EdgeTree, ids: seq<int>, db: DB)
    ensures KeysAmong(OwnedNeighbors(q, ids, db), ids)
    ensures Cells(OwnedNeighbors(q, ids, db), AccountIDColumn) == Cells(OtherRows(OwnedBatch(q, ids), db), AccountIDColumn)
  {
    var rows := OtherRows(OwnedBatch(q, ids), db);
    forall j | 0 <= j < |rows|
      ensures var key := Col(rows[j], AccountIDColumn); key.Int? && key.i in ids
      ensures Col(OwnedNeighbors(q, ids, db)[j], AccountIDColumn) == Col(rows[j], AccountIDColumn)
    {
      assert rows[j] in rows;
      ExtendAll(NeedKeyOther(q, AccountIDColumn).preds, In(AccountIDColumn, ids), rows[j]);
      ProjectKeeps(OwnedBatch(q, ids), AccountIDColumn, rows[j]);
    }
  }

  // An account's share of the batch is the answer to its own lookup.
  lemma OwnedShare(q: EdgeTree, ids: seq<int>, id: int, db: DB)
    requires id in ids
    ensures At(OwnedNeighbors(q, ids, db), Positions(Cells(OwnedNeighbors(q, ids, db), AccountIDColumn), Int(id)))
      == OwnedRows(q, id, db)
  {
    var q' := NeedKeyOther(q, AccountIDColumn);
    OwnedKeys(q, ids, db);
    PickSelect(db.others(q'.table, q'.order), q'.preds, AccountIDColumn, ids, id);
  }

  // The neighbours among the first j that belong to the account.
  ghost predicate Share(list: seq<Row>, neighbors: seq<Row>, j: nat, id: int)
    requires j <= |neighbors|
  {
    list == At(neighbors, Positions(Cells(neighbors, AccountIDColumn)[..j], Int(id)))
  }

  lemma ShareStep(list: seq<Row>, neighbors: seq<Row>, j: nat, id: int)
    requires j < |neighbors| && Share(list, neighbors, j, id)
    ensures Share(if Col(neighbors[j], AccountIDColumn) == Int(id) then list + [neighbors[j]] else list, neighbors, j + 1, id)
  {
    PositionsStep(Cells(neighbors, AccountIDColumn), j, Int(id));
  }

  // The list of the nodes' ids and the index from an id to its node.
  method IndexNodes(nodes: seq<Account>, ghost objs: set<Account>, ghost ids: seq<int>)
    returns (fks: seq<int>, nodeids: map<int, Account>)
    requires NodeSet(nodes, objs, ids)
    ensures fks == ids && Indexed(nodeids, nodes, ids)
  {
    fks, nodeids := [], map[];
    for i := 0 to |nodes|
      invariant fks == ids[..i]
      invariant forall k :: 0 <= k < i ==> ids[k] in nodeids && nodeids[ids[k]] == nodes[k]
    {
      fks := fks + [nodes[i].f.id];
      nodeids := nodeids[nodes[i].f.id := nodes[i]];
    }
  }

  ghost predicate Indexed(nodeids: map<int, Account>, nodes: seq<Account>, ids: seq<int>) {
    |ids| == |nodes| && forall k :: 0 <= k < |nodes| ==> ids[k] in nodeids && nodeids[ids[k]] == nodes[k]
  }

  ghost predicate KeysAmong(neighbors: seq<Row>, ids: seq<int>) {
    forall j :: 0 <= j < |neighbors| ==>
      var key := Col(neighbors[j], AccountIDColumn); key.Int? && key.i in ids
  }

  // Appends every neighbour to the node that its foreign key names.
  method DistributeUsageLogs(nodes: seq<Account>, nodeids: map<int, Account>, neighbors: seq<Row>,
                             ghost objs: set<Account>, ghost ids: seq<int>)
    returns (failed: bool)
    requires NodeSet(nodes, objs, ids) && Indexed(nodeids, nodes, ids) && KeysAmong(neighbors, ids)
    modifies objs`usageLogs
    ensures !failed
    ensures forall i :: 0 <= i < |nodes| ==> Share(nodes[i].usageLogs, neighbors, |neighbors|, ids[i])
  {
    hide Share;
    for i := 0 to |nodes|
      invariant forall k :: 0 <= k < i ==> nodes[k].usageLogs == []
    {
      nodes[i].usageLogs := [];
    }
    forall i | 0 <= i < |nodes| ensures Share([], neighbors, 0, ids[i]) { ShareEmpty(neighbors, ids[i]); }
    for j := 0 to |neighbors|
      invariant forall i :: 0 <= i < |nodes| ==> Share(nodes[i].usageLogs, neighbors, j, ids[i])
    {
      label Before:
      var n := neighbors[j];
      var fk := IntOrZero(Col(n, AccountIDColumn));
      if fk !in nodeids { return true; }
      nodeids[fk].usageLogs := nodeids[fk].usageLogs + [n];
      forall i | 0 <= i < |nodes| ensures Share(nodes[i].usageLogs, neighbors, j + 1, ids[i]) {
        ShareStep(old@Before(nodes[i].usageLogs), neighbors, j, ids[i]);
      }
    }
    failed := false;
  }

  lemma ShareEmpty(neighbors: seq<Row>, id: int)
    ensures Share([], neighbors, 0, id)
  {
  }

  // The whole share of an account is the answer to its own lookup.
  lemma ShareIsOwned(list: seq<Row>, q: EdgeTree, ids: seq<int>, id: int, db: DB)
    requires id in ids
    requires Share(list, OwnedNeighbors(q, ids, db), |OwnedNeighbors(q, ids, db)|, id)
    ensures list == OwnedRows(q, id, db)
  {
    OwnedShare(q, ids, id, db);
    var keys := Cells(OwnedNeighbors(q, ids, db), AccountIDColumn);
    assert keys[..|keys|] == keys;
  }

  // The first half of both loaders: the nodes are indexed and the narrowed query runs.
  method QueryOwned(driver: Driver, query: EdgeQuery, nodes: seq<Account>, ghost objs: set<Account>, ghost ids: seq<int>)
    returns (invalid: bool, nodeids: map<int, Account>, neighbors: seq<Row>)
    requires NodeSet(nodes, objs, ids)
    modifies driver`queries, query`fields, query`predicates
    ensures driver.queries <= old(driver.queries) + 1
    ensures invalid <==> InvalidOther(NeedKeyOther(old(query.View()), AccountIDColumn), driver.db)
    ensures query.View() == OwnedBatch(old(query.View()), ids) && Indexed(nodeids, nodes, ids)
    ensures !invalid ==> neighbors == OwnedNeighbors(old(query.View()), ids, driver.db) && KeysAmong(neighbors, ids)
  {
    ghost var q := query.View();
    var fks;
    fks, nodeids := IndexNodes(nodes, objs, ids);
    if |query.fields| > 0 {
      query.AppendFieldOnce(AccountIDColumn);
    }
    query.Where(In(AccountIDColumn, fks));
    neighbors, invalid := AllOthers(driver, query);
    OwnedKeys(q, fks, driver.db);
  }

  method LoadUsageLogs(driver: Driver, query: EdgeQuery, nodes: seq<Account>, ghost objs: set<Account>,
      ghost ids: seq<int>)
    returns (failed: bool)
    requires NodeSet(nodes, objs, ids)
    modifies driver`queries, query`fields, query`predicates, objs`usageLogs
    ensures driver.queries <= old(driver.queries) + 1
    ensures failed <==> InvalidOther(NeedKeyOther(old(query.View()), AccountIDColumn), driver.db)
    ensures !failed ==> query.View() == OwnedBatch(old(query.View()), ids)
    ensures !failed ==> forall i :: 0 <= i < |nodes| ==>
      nodes[i].usageLogs == OwnedRows(old(query.View()), ids[i], driver.db)
  {
    ghost var q := query.View();
    var invalid, nodeids, neighbors := QueryOwned(driver, query, nodes, objs, ids);
    if invalid { return true; }
    failed := DistributeUsageLogs(nodes, nodeids, neighbors, objs, ids);
    forall i | 0 <= i < |nodes| ensures nodes[i].usageLogs == OwnedRows(q, ids[i], driver.db) {
      ShareIsOwned(nodes[i].usageLogs, q, ids, ids[i], driver.db);
    }
  }

  method DistributeAccountGroups(nodes: seq<Account>, nodeids: map<int, Account>, neighbors: seq<Row>,
                             ghost objs: set<Account>, ghost ids: seq<int>)
    returns (failed: bool)
    requires NodeSet(nodes, objs, ids) && Indexed(nodeids, nodes, ids) && KeysAmong(neighbors, ids)
    modifies objs`accountGroups
    ensures !failed
    ensures forall i :: 0 <= i < |nodes| ==> Share(nodes[i].accountGroups, neighbors, |neighbors|, ids[i])
  {
    hide Share;
    for i := 0 to |nodes|
      invariant forall k :: 0 <= k < i ==> nodes[k].accountGroups == []
    {
      nodes[i].accountGroups := [];
    }
    forall i | 0 <= i < |nodes| ensures Share([], neighbors, 0, ids[i]) { ShareEmpty(neighbors, ids[i]); }
    for j := 0 to |neighbors|
      invariant forall i :: 0 <= i < |nodes| ==> Share(nodes[i].accountGroups, neighbors, j, ids[i])
    {
      label Before:
      var n := neighbors[j];
      var fk := IntOrZero(Col(n, AccountIDColumn));
      if fk !in nodeids { return true; }
      nodeids[fk].accountGroups := nodeids[fk].accountGroups + [n];
      forall i | 0 <= i < |nodes| ensures Share(nodes[i].accountGroups, neighbors, j + 1, ids[i]) {
        ShareStep(old@Before(nodes[i].accountGroups), neighbors, j, ids[i]);
      }
    }
    failed := false;
  }

  method LoadAccountGroups(driver: Driver, query: EdgeQuery, nodes: seq<Account>, ghost objs: set<Account>,
      ghost ids: seq<int>)
    returns (failed: bool)
    requires NodeSet(nodes, objs, ids)
    modifies driver`queries, query`fields, query`predicates, objs`accountGroups
    ensures driver.queries <= old(driver.queries) + 1
    ensures failed <==> InvalidOther(NeedKeyOther(old(query.View()), AccountIDColumn), driver.db)
    ensures !failed ==> query.View() == OwnedBatch(old(query.View()), ids)
    ensures !failed ==> forall i :: 0 <= i < |nodes| ==>
      nodes[i].accountGroups == OwnedRows(old(query.View()), ids[i], driver.db)
  {
    ghost var q := query.View();
    var invalid, nodeids, neighbors := QueryOwned(driver, query, nodes, objs, ids);
    if invalid { return true; }
    failed := DistributeAccountGroups(nodes, nodeids, neighbors, objs, ids);
    forall i | 0 <= i < |nodes| ensures nodes[i].accountGroups == OwnedRows(q, ids[i], driver.db) {
      ShareIsOwned(nodes[i].accountGroups, q, ids, ids[i], driver.db);
    }
  }

  // prepareQuery: the fields of the projection must be columns of the table.
  method InvalidFields(driver: Driver, query: EdgeQuery) returns (invalid: bool)
    ensures invalid <==> InvalidOther(query.View(), driver.db)
  {
    for i := 0 to |query.fields|
      invariant forall k :: 0 <= k < i ==> driver.db.validOther(query.table, query.fields[k])
    {
      if !driver.db.validOther(query.table, query.fields[i]) { return true; }
    }
    invalid := false;
  }

  // All of a query on another table: the fields are validated, then one query is sent.
  method AllOthers(driver: Driver, query: EdgeQuery) returns (neighbors: seq<Row>, invalid: bool)
    modifies driver`queries
    ensures driver.queries <= old(driver.queries) + 1
    ensures invalid <==> InvalidOther(query.View(), driver.db)
    ensures !invalid ==> neighbors == ProjectAll(query.View(), OtherRows(query.View(), driver.db))
  {
    neighbors := [];
    invalid := InvalidFields(driver, query);
    if invalid { return; }
    var rows := driver.QueryOthers(query.table, query.predicates, query.order);
    ghost var q := query.View();
    for i := 0 to |rows|
      invariant neighbors == ProjectAll(q, rows)[..i]
    {
      neighbors := neighbors + [ProjectRow(query, rows[i])];
    }
  }

  function ProjectRow(query: EdgeQuery, row: Row): (out: Row)
    reads query
    ensures out == ProjectOther(query.View(), row)
  {
    ProjectOther(EdgeTree(query.table, query.fields, query.predicates, query.order, query.joins), row)
  }

  // ---- many-to-one edges: proxy ----------------------------------------------------

  // The index of the last neighbour, among the first j, that the foreign key names.
  ghost function Latest(keys: seq<SqlValue>, j: nat, fk: Option<int>): Option<nat>
    requires j <= |keys|
  {
    if fk.None? || j == 0 then None
    else if keys[j - 1] == Int(fk.value) then Some(j - 1)
    else Latest(keys, j - 1, fk)
  }

  lemma {:induction false} LatestFound(keys: seq<SqlValue>, j: nat, k: int)
    requires j <= |keys|
    ensures match Latest(keys, j, Some(k))
            case None => forall i :: 0 <= i < j ==> keys[i] != Int(k)
            case Some(at) => at < j && keys[at] == Int(k)
  {
    if j > 0 { LatestFound(keys, j - 1, k); }
  }

  // With a primary key the last neighbour named is the only one.
  lemma {:induction false} LatestIsOnly(keys: seq<SqlValue>, k: int)
    requires forall i, j :: 0 <= i < j < |keys| ==> keys[i] != keys[j]
    ensures Positions(keys, Int(k)) == match Latest(keys, |keys|, Some(k)) case None => [] case Some(at) => [at]
  {
    LatestFound(keys, |keys|, k);
    var latest := Latest(keys, |keys|, Some(k));
    AtMostOnePosition(keys, Int(k));
    if latest.Some? {
      assert latest.value in Positions(keys, Int(k));
    } else {
      NoPositions(keys, Int(k));
    }
  }

  lemma {:induction false} AtMostOnePosition(keys: seq<SqlValue>, key: SqlValue)
    requires forall i, j :: 0 <= i < j < |keys| ==> keys[i] != keys[j]
    ensures |Positions(keys, key)| <= 1
  {
    if keys != [] {
      var init := keys[..|keys| - 1];
      AtMostOnePosition(init, key);
      if keys[|keys| - 1] == key { NoPositions(init, key); }
    }
  }

  lemma CellsDistinct(rows: seq<Row>)
    requires KeyedByID(rows)
    ensures forall i, j :: 0 <= i < j < |Cells(rows, FieldID)| ==> Cells(rows, FieldID)[i] != Cells(rows, FieldID)[j]
  {
  }

  ghost function NeighborAt(neighbors: seq<Row>, at: Option<nat>): Option<Row>
    requires at.Some? ==> at.value < |neighbors|
  {
    if at.Some? then Some(neighbors[at.value]) else None
  }

  ghost function ProxyNeighbors(q: EdgeTree, fks: seq<Option<int>>, db: DB): seq<Row> {
    ProjectAll(ProxyBatch(q, fks), OtherRows(ProxyBatch(q, fks), db))
  }

  // The neighbours' ids are those of the batch, each once.
  lemma ProxyKeys(q: EdgeTree, fks: seq<Option<int>>, db: DB)
    requires WellFormed(db) && q.table == Proxies
    ensures var keys := Cells(ProxyNeighbors(q, fks, db), FieldID);
      && keys == Cells(OtherRows(ProxyBatch(q, fks), db), FieldID)
      && (forall j :: 0 <= j < |keys| ==> keys[j].Int? && Some(keys[j].i) in fks)
      && (forall i, j :: 0 <= i < j < |keys| ==> keys[i] != keys[j])
  {
    var batch := ProxyBatch(q, fks);
    var rows := OtherRows(batch, db);
    SelectKeyed(db.others(batch.table, batch.order), batch.preds);
    forall j | 0 <= j < |rows|
      ensures Col(rows[j], FieldID).Int? && Some(Col(rows[j], FieldID).i) in fks
      ensures Col(ProxyNeighbors(q, fks, db)[j], FieldID) == Col(rows[j], FieldID)
    {
      assert rows[j] in rows;
      ExtendAll(q.preds, In(FieldID, Distinct(fks)), rows[j]);
      ProjectKeeps(batch, FieldID, rows[j]);
    }
    CellsDistinct(rows);
  }

  lemma {:induction false} ProxyLookup(q: EdgeTree, fks: seq<Option<int>>, k: int, db: DB)
    requires WellFormed(db) && q.table == Proxies && Some(k) in fks
    ensures OtherRows(NarrowOther(q, In(FieldID, [k])), db)
      == Pick(OtherRows(ProxyBatch(q, fks), db), FieldID, k)
  {
    PickSelect(db.others(q.table, q.order), q.preds, FieldID, Distinct(fks), k);
  }

  // What the batch gives a node is the answer to the node's own lookup.
  lemma {:induction false} ProxyShare(q: EdgeTree, fks: seq<Option<int>>, fk: Option<int>, db: DB)
    requires WellFormed(db) && q.table == Proxies && fk in fks
    ensures NamedProxy(ProxyOf(q, fk, db), ProxyNeighbors(q, fks, db), |ProxyNeighbors(q, fks, db)|, fk)
  {
    var n := ProxyNeighbors(q, fks, db);
    ProxyKeys(q, fks, db);
    match fk {
      case None =>
      case Some(k) =>
        ProxyLookup(q, fks, k, db);
        LatestIsOnly(Cells(n, FieldID), k);
        var own := NarrowOther(q, In(FieldID, [k]));
        assert ProjectAll(own, OtherRows(own, db)) == At(n, Positions(Cells(n, FieldID), Int(k)));
    }
  }

  // The nodes whose foreign key is k, in order, or no entry when there is none.
  ghost predicate KeyIndexed(nodeids: map<int, seq<Account>>, nodes: seq<Account>, fks: seq<Option<int>>,
      n: nat, k: int)
    requires |fks| == |nodes| && n <= |nodes|
  {
    && (k in nodeids <==> Some(k) in fks[..n])
    && (k in nodeids ==> nodeids[k] == At(nodes, Positions(fks[..n], Some(k))))
  }

  lemma IndexStep(nodeids: map<int, seq<Account>>, nodes: seq<Account>, fks: seq<Option<int>>, n: nat, k: int)
    requires |fks| == |nodes| && n < |nodes| && KeyIndexed(nodeids, nodes, fks, n, k)
    ensures fks[n] != Some(k) ==> KeyIndexed(nodeids, nodes, fks, n + 1, k)
    ensures fks[n] == Some(k) ==>
      KeyIndexed(nodeids[k := (if k in nodeids then nodeids[k] else []) + [nodes[n]]], nodes, fks, n + 1, k)
  {
    PositionsStep(fks, n, Some(k));
    assert fks[..n + 1] == fks[..n] + [fks[n]];
    if k !in nodeids {
      assert Positions(fks[..n], Some(k)) == [] by { NoPositions(fks[..n], Some(k)); }
    }
  }

  lemma NoPositions<K>(keys: seq<K>, k: K)
    requires k !in keys
    ensures Positions(keys, k) == []
  {
  }

  // Lists the foreign keys that are set, each once, and indexes the nodes by them.
  method IndexForeignKeys(nodes: seq<Account>, fks: seq<Option<int>>) returns (ids: seq<int>,
      nodeids: map<int, seq<Account>>)
    requires |fks| == |nodes|
    ensures ids == Distinct(fks)
    ensures forall k :: KeyIndexed(nodeids, nodes, fks, |nodes|, k)
  {
    hide KeyIndexed;
    ids, nodeids := [], map[];
    forall k ensures KeyIndexed(nodeids, nodes, fks, 0, k) { IndexEmpty(nodes, fks, k); }
    for i := 0 to |nodes|
      invariant ids == Distinct(fks[..i])
      invariant forall k :: k in nodeids <==> k in ids
      invariant forall k :: KeyIndexed(nodeids, nodes, fks, i, k)
    {
      assert fks[..i + 1][..i] == fks[..i];
      ghost var before := nodeids;
      if fks[i].Some? {
        var fk := fks[i].value;
        if fk !in nodeids {
          ids := ids + [fk];
        }
        nodeids := nodeids[fk := (if fk in nodeids then nodeids[fk] else []) + [nodes[i]]];
      }
      ghost var next := i + 1;
      forall k ensures KeyIndexed(nodeids, nodes, fks, next, k) {
        IndexStep(before, nodes, fks, i, k);
        if fks[i] != Some(k) { IndexFrame(before, nodeids, nodes, fks, i + 1, k); }
      }
    }
    assert fks[..|fks|] == fks;
  }

  lemma IndexEmpty(nodes: seq<Account>, fks: seq<Option<int>>, k: int)
    requires |fks| == |nodes|
    ensures KeyIndexed(map[], nodes, fks, 0, k)
  {
  }

  lemma IndexFrame(a: map<int, seq<Account>>, b: map<int, seq<Account>>, nodes: seq<Account>,
      fks: seq<Option<int>>, n: nat, k: int)
    requires |fks| == |nodes| && n <= |nodes| && KeyIndexed(a, nodes, fks, n, k)
    requires (k in a <==> k in b) && (k in a ==> a[k] == b[k])
    ensures KeyIndexed(b, nodes, fks, n, k)
  {
  }

  // Gives every node the last neighbour that its foreign key names.
  method DistributeProxies(nodes: seq<Account>, nodeids: map<int, seq<Account>>, neighbors: seq<Row>,
                           ghost objs: set<Account>, fks: seq<Option<int>>)
    returns (failed: bool)
    requires ForeignKeys(nodes, objs, fks)
    requires forall i :: 0 <= i < |nodes| ==> nodes[i].proxy == None
    requires forall k :: KeyIndexed(nodeids, nodes, fks, |nodes|, k)
    requires forall j :: 0 <= j < |neighbors| ==>
      var key := Col(neighbors[j], FieldID); key.Int? && Some(key.i) in fks
    modifies objs`proxy
    ensures !failed
    ensures forall i :: 0 <= i < |nodes| ==>
      NamedProxy(nodes[i].proxy, neighbors, |neighbors|, fks[i])
  {
    hide NamedProxy;
    forall i | 0 <= i < |nodes| ensures NamedProxy(nodes[i].proxy, neighbors, 0, fks[i]) { NamedNone(neighbors, fks[i]); }
    for j := 0 to |neighbors|
      invariant forall i :: 0 <= i < |nodes| ==> NamedProxy(nodes[i].proxy, neighbors, j, fks[i])
    {
      label Before:
      var n := neighbors[j];
      var id := IntOrZero(Col(n, FieldID));
      assert KeyIndexed(nodeids, nodes, fks, |nodes|, id);
      assert fks[..|fks|] == fks;
      if id !in nodeids { return true; }
      AssignProxy(nodeids[id], n, objs);
      forall i | 0 <= i < |nodes| ensures NamedProxy(nodes[i].proxy, neighbors, j + 1, fks[i]) {
        NamedStep(old@Before(nodes[i].proxy), neighbors, j, fks[i]);
        OwnersAre(nodeids, nodes, objs, fks, id, i);
      }
    }
    failed := false;
  }

  // The innermost loop: the neighbour is assigned to each of its owners.
  method AssignProxy(owners: seq<Account>, n: Row, ghost objs: set<Account>)
    requires forall m :: 0 <= m < |owners| ==> owners[m] in objs
    modifies objs`proxy
    ensures forall o :: o in objs ==> o.proxy == if o in owners then Some(n) else old(o.proxy)
  {
    for m := 0 to |owners|
      invariant forall o :: o in objs ==> o.proxy == if o in owners[..m] then Some(n) else old(o.proxy)
    {
      owners[m].proxy := Some(n);
      assert owners[..m + 1] == owners[..m] + [owners[m]];
    }
    assert owners[..|owners|] == owners;
  }

  // The owners indexed under id are the nodes whose foreign key is id.
  lemma OwnersAre(nodeids: map<int, seq<Account>>, nodes: seq<Account>, objs: set<Account>,
      fks: seq<Option<int>>, id: int, i: nat)
    requires ForeignKeys(nodes, objs, fks) && i < |nodes| && KeyIndexed(nodeids, nodes, fks, |nodes|, id)
    ensures id in nodeids ==>
      (nodes[i] in nodeids[id] <==> fks[i] == Some(id)) && forall m :: 0 <= m < |nodeids[id]| ==> nodeids[id][m] in objs
  {
    assert fks[..|fks|] == fks;
    if id in nodeids {
      var ps := Positions(fks, Some(id));
      if fks[i] == Some(id) {
        var p :| 0 <= p < |ps| && ps[p] == i;
        assert nodeids[id][p] == nodes[i];
      }
    }
  }

  ghost predicate ForeignKeys(nodes: seq<Account>, objs: set<Account>, fks: seq<Option<int>>) {
    && |fks| == |nodes|
    && (forall i :: 0 <= i < |nodes| ==> nodes[i] in objs)
    && (forall i, j :: 0 <= i < |nodes| && 0 <= j < |nodes| && nodes[i] == nodes[j] ==> fks[i] == fks[j])
  }

  ghost predicate NamedProxy(proxy: Option<Row>, neighbors: seq<Row>, j: nat, fk: Option<int>)
    requires j <= |neighbors|
  {
    LatestBound(Cells(neighbors, FieldID), j, fk);
    proxy == NeighborAt(neighbors, Latest(Cells(neighbors, FieldID), j, fk))
  }

  lemma NamedNone(neighbors: seq<Row>, fk: Option<int>)
    ensures NamedProxy(None, neighbors, 0, fk)
  {
  }

  lemma NamedStep(proxy: Option<Row>, neighbors: seq<Row>, j: nat, fk: Option<int>)
    requires j < |neighbors| && NamedProxy(proxy, neighbors, j, fk)
    ensures NamedProxy(if fk.Some? && Col(neighbors[j], FieldID) == Int(fk.value) then Some(neighbors[j]) else proxy,
                       neighbors, j + 1, fk)
  {
  }

  lemma LatestBound(keys: seq<SqlValue>, j: nat, fk: Option<int>)
    requires j <= |keys|
    ensures Latest(keys, j, fk).Some? ==> Latest(keys, j, fk).value < j
  {
  }

  // The proxy ids of the nodes.
  method ProxyKeysOf(nodes: seq<Account>) returns (fks: seq<Option<int>>)
    ensures |fks| == |nodes| && forall i :: 0 <= i < |nodes| ==> fks[i] == nodes[i].f.proxyID
  {
    fks := [];
    for i := 0 to |nodes|
      invariant |fks| == i && forall k :: 0 <= k < i ==> fks[k] == nodes[k].f.proxyID
    {
      fks := fks + [nodes[i].f.proxyID];
    }
  }

  method LoadProxy(driver: Driver, query: EdgeQuery, nodes: seq<Account>, ghost objs: set<Account>,
      ghost fks: seq<Option<int>>)
    returns (failed: bool)
    requires WellFormed(driver.db) && query.table == Proxies && ForeignKeys(nodes, objs, fks)
    requires forall i :: 0 <= i < |nodes| ==> nodes[i].proxy == None && nodes[i].f.proxyID == fks[i]
    modifies driver`queries, query`predicates, objs`proxy
    ensures driver.queries <= old(driver.queries) + 1
    ensures failed <==> Distinct(fks) != [] && InvalidOther(old(query.View()), driver.db)
    ensures !failed ==> query.View() == if Distinct(fks) == [] then old(query.View()) else ProxyBatch(old(query.View()), fks)
    ensures !failed ==> forall i :: 0 <= i < |nodes| ==>
      nodes[i].proxy == ProxyOf(old(query.View()), fks[i], driver.db)
  {
    ghost var q := query.View();
    var keys := ProxyKeysOf(nodes);
    assert keys == fks;
    var ids, nodeids := IndexForeignKeys(nodes, keys);
    if |ids| == 0 {
      forall i | 0 <= i < |nodes| ensures fks[i] == None { KeyIsListed(fks, i); }
      return false;
    }
    query.Where(In(FieldID, ids));
    var neighbors, invalid := AllOthers(driver, query);
    if invalid { return true; }
    ProxyKeys(q, fks, driver.db);
    failed := DistributeProxies(nodes, nodeids, neighbors, objs, keys);
    forall i | 0 <= i < |nodes| ensures nodes[i].proxy == ProxyOf(q, fks[i], driver.db) {
      ProxyShare(q, fks, fks[i], driver.db);
    }
  }

  lemma KeyIsListed(fks: seq<Option<int>>, i: nat)
    requires i < |fks|
    ensures fks[i].Some? ==> fks[i].value in Distinct(fks)
  {
    assert fks[i] in fks;
  }
}
