// Properties of eager loading as a whole: running one query object again, projections,
// and conservation of the neighbours.
module EagerTheorems {
  import opened Common
  import opened AccountSchema
  import opened AccountEntity
  import opened Relational
  import opened QueryModel
  import opened QueryBuilder
  import opened EdgeLoading
  import opened ForestLemmas
  import opened EagerLoading

  // ---- running a query object again ------------------------------------------------

  ghost predicate NoGroups(q: QueryTree) {
    && q.groups.None?
    && (q.parent.Some? ==> NoGroups(q.parent.value))
    && (q.children.Some? ==> NoGroups(q.children.value))
  }

  // A membership predicate of an earlier run changes nothing for keys that it contains.
  lemma {:induction false} SelectAbsorbs(rows: seq<Row>, preds: seq<Pred>, col: Column, ids: seq<int>, key: int)
    requires key in ids
    ensures Select(rows, preds + [In(col, ids)] + [In(col, [key])]) == Select(rows, preds + [In(col, [key])])
  {
    if rows != [] {
      var last := rows[|rows| - 1];
      SelectAbsorbs(rows[..|rows| - 1], preds, col, ids, key);
      ExtendAll(preds + [In(col, ids)], In(col, [key]), last);
      ExtendAll(preds, In(col, ids), last);
      ExtendAll(preds, In(col, [key]), last);
    }
  }

  lemma {:induction false} SelectTwice(rows: seq<Row>, preds: seq<Pred>, p: Pred)
    ensures Select(rows, preds + [p] + [p]) == Select(rows, preds + [p])
  {
    if rows != [] {
      SelectTwice(rows[..|rows| - 1], preds, p);
      ExtendAll(preds + [p], p, rows[|rows| - 1]);
      ExtendAll(preds, p, rows[|rows| - 1]);
    }
  }

  lemma {:induction false} ProxyAgain(q: EdgeTree, fks: seq<Option<int>>, fk: Option<int>, db: DB)
    requires fk in fks
    ensures ProxyOf(ProxyBatch(q, fks), fk, db) == ProxyOf(q, fk, db)
  {
    if fk.Some? {
      SelectAbsorbs(db.others(q.table, q.order), q.preds, FieldID, Distinct(fks), fk.value);
      var own, again := NarrowOther(q, In(FieldID, [fk.value])), NarrowOther(ProxyBatch(q, fks), In(FieldID, [fk.value]));
      assert ProjectAll(own, OtherRows(own, db)) == ProjectAll(again, OtherRows(again, db));
    }
  }

  lemma {:induction false} OwnedAgain(q: EdgeTree, ids: seq<int>, id: int, db: DB)
    requires id in ids
    ensures OwnedRows(OwnedBatch(q, ids), id, db) == OwnedRows(q, id, db)
  {
    var k := NeedKeyOther(q, AccountIDColumn);
    SelectAbsorbs(db.others(k.table, k.order), k.preds, AccountIDColumn, ids, id);
    var own, again := NarrowOther(k, In(AccountIDColumn, [id])), NarrowOther(OwnedBatch(q, ids), In(AccountIDColumn, [id]));
    assert ProjectAll(k, OtherRows(own, db)) == ProjectAll(OwnedBatch(q, ids), OtherRows(again, db));
  }

  // A run changes no clause of the query itself.
  lemma {:induction false} AfterSameTop(q: QueryTree, db: DB)
    ensures var a := AfterRun(q, db); a.fields == q.fields && a.preds == q.preds && a.order == q.order
    ensures Rows(AfterRun(q, db), db) == Rows(q, db)
  {
  }

  // What a run leaves behind answers lookups inside the batch as before.
  lemma {:induction false} LookupAgain(b: QueryTree, base: QueryTree, ids: seq<int>, col: Column, key: int, db: DB)
    requires WellFormed(db) && key in ids && NoGroups(base)
    requires b == Narrow(base, In(col, ids))
    ensures Forest(Narrow(AfterRun(b, db), In(col, [key])), db) == Forest(Narrow(base, In(col, [key])), db)
    decreases Size(base), 1, 0
  {
    var after := AfterRun(b, db);
    var again, own := Narrow(after, In(col, [key])), Narrow(base, In(col, [key]));
    AfterSameTop(b, db);
    SelectAbsorbs(db.accounts(base.order), base.preds, col, ids, key);
    assert Rows(again, db) == Rows(own, db);
    forall i | 0 <= i < |Rows(own, db)| ensures Forest(again, db)[i] == Forest(own, db)[i] {
      var r := Rows(own, db)[i];
      ForestAt(base, own.preds, i, db);
      ForestAt(after, again.preds, i, db);
      assert r in Rows(own, db);
      SameTree(b, base, ids, col, key, r, db);
    }
  }

  lemma {:induction false} SameTree(b: QueryTree, base: QueryTree, ids: seq<int>, col: Column, key: int, r: Row, db: DB)
    requires WellFormed(db) && key in ids && NoGroups(base)
    requires b == Narrow(base, In(col, ids)) && r in Rows(Narrow(base, In(col, [key])), db)
    requires Typed(db.codec, r) && Col(r, FieldID).Int?
    ensures TreeOf(AfterRun(b, db), r, db) == TreeOf(base, r, db)
    decreases Size(base), 0, 1
  {
    hide AfterEdges, TreeOf, NoGroups, Size;
    ExtendAll(base.preds, In(col, [key]), r);
    ExtendAll(base.preds, In(col, ids), r);
    assert r in Rows(b, db);
    TreeIgnoresPreds(base, b.preds, r, db);
    NarrowSame(base, In(col, ids));
    TreeAgain(b, Rows(b, db), r, db);
  }

  lemma NarrowSame(q: QueryTree, p: Pred)
    ensures Size(Narrow(q, p)) == Size(q) && (NoGroups(q) <==> NoGroups(Narrow(q, p)))
    ensures Size(ChildQuery(q)) == Size(q) && (NoGroups(q) <==> NoGroups(ChildQuery(q)))
  {
  }

  lemma KeyListed(rows: seq<Row>, r: Row, col: Column)
    requires r in rows
    ensures IntCell(Col(r, col)) in IntCells(rows, col)
    ensures Col(r, FieldID).Int? ==> Col(r, FieldID).i in IDs(rows)
  {
    var i :| 0 <= i < |rows| && rows[i] == r;
    assert IntCells(rows, col)[i] == IntCell(Col(r, col));
    assert IDs(rows)[i] == IntOrZero(Col(r, FieldID));
  }

  lemma {:induction false} ParentAgain(q: QueryTree, fks: seq<Option<int>>, fk: Option<int>, db: DB)
    requires WellFormed(db) && fk in fks && NoGroups(q)
    ensures ParentOf(AfterParent(q, fks, db), fk, db) == ParentOf(q, fk, db)
    decreases Size(q), 2, 0
  {
    if fk.Some? {
      LookupAgain(ParentBatch(q, fks), q, Distinct(fks), FieldID, fk.value, db);
    }
  }

  lemma {:induction false} ChildrenAgain(q: QueryTree, ids: seq<int>, id: int, db: DB)
    requires WellFormed(db) && id in ids && NoGroups(q)
    ensures ChildrenOf(AfterChildren(q, ids, db), id, db) == ChildrenOf(q, id, db)
    decreases Size(q), 2, 0
  {
    NarrowSame(q, In(FieldParentAccountID, ids));
    LookupAgain(ChildBatch(q, ids), ChildQuery(q), ids, FieldParentAccountID, id, db);
    assert ChildQuery(AfterChildren(q, ids, db)) == AfterChildren(q, ids, db);
  }

  // A node of the first run gets the same tree from the query that the run left behind.
  lemma {:induction false} TreeAgain(q: QueryTree, rows: seq<Row>, r: Row, db: DB)
    requires WellFormed(db) && Typed(db.codec, r) && Col(r, FieldID).Int? && r in rows && NoGroups(q)
    ensures TreeOf(AfterEdges(q, rows, db), r, db) == TreeOf(q, r, db)
    decreases Size(q), 0, 0
  {
    hide ProxyOf, ParentOf, ChildrenOf, OwnedRows, AfterParent, AfterChildren, Project, Distinct;
    KeyListed(rows, r, FieldProxyID);
    KeyListed(rows, r, FieldParentAccountID);
    var id := Col(r, FieldID).i;
    if q.proxy.Some? && Distinct(IntCells(rows, FieldProxyID)) != [] {
      ProxyAgain(q.proxy.value, IntCells(rows, FieldProxyID), IntCell(Col(r, FieldProxyID)), db);
    }
    if q.parent.Some? {
      ParentAgain(q.parent.value, IntCells(rows, FieldParentAccountID), IntCell(Col(r, FieldParentAccountID)), db);
    }
    if q.children.Some? { ChildrenAgain(q.children.value, IDs(rows), id, db); }
    if q.usageLogs.Some? { OwnedAgain(q.usageLogs.value, IDs(rows), id, db); }
    if q.accountGroups.Some? { OwnedAgain(q.accountGroups.value, IDs(rows), id, db); }
  }

  // Running the same query object again gives the same forest, although every run
  // appended a membership predicate to the query of each edge.
  lemma {:induction false} RunAgain(q: QueryTree, db: DB)
    requires WellFormed(db) && NoGroups(q)
    ensures Forest(AfterRun(q, db), db) == Forest(q, db)
  {
    var after := AfterRun(q, db);
    AfterSameTop(q, db);
    RowsTyped(q, db);
    forall i | 0 <= i < |Rows(q, db)| ensures Forest(after, db)[i] == Forest(q, db)[i] {
      TreeAgain(q, Rows(q, db), Rows(q, db)[i], db);
    }
  }

  // ---- failing again ---------------------------------------------------------------

  lemma {:induction false} EdgeFailsIgnoresPreds(q: QueryTree, preds: seq<Pred>, rows: seq<Row>, db: DB)
    requires WellFormed(db)
    ensures EdgeFails(q.(preds := preds), rows, db) <==> EdgeFails(q, rows, db)
  {
    hide GroupsFail, ProxyFails, ParentFails, ChildrenFail, OwnedFail;
  }

  // A query narrowed by the same predicate once more, after a run.
  lemma {:induction false} NarrowedFailsAgain(b: QueryTree, base: QueryTree, p: Pred, db: DB)
    requires WellFormed(db) && NoGroups(base) && b == Narrow(base, p)
    ensures Fails(Narrow(AfterRun(b, db), p), db) <==> Fails(b, db)
    decreases Size(base), 1
  {
    hide EdgeFails, AfterEdges, NoGroups, Size;
    var after := AfterRun(b, db);
    AfterSameTop(b, db);
    NarrowSame(base, p);
    SelectTwice(db.accounts(base.order), base.preds, p);
    assert Rows(Narrow(after, p), db) == Rows(b, db);
    EdgeFailsIgnoresPreds(after, after.preds + [p], Rows(b, db), db);
    if Rows(b, db) != [] {
      EdgeFailsAgain(b, Rows(b, db), db);
    }
  }

  lemma OthersFailAgain(q: QueryTree, rows: seq<Row>, db: DB)
    requires q.groups.None?
    ensures GroupsFail(AfterGroups(q.groups, IDs(rows)), db) <==> GroupsFail(q.groups, db)
    ensures var fks := IntCells(rows, FieldProxyID);
      ProxyFails(AfterProxy(q.proxy, fks), fks, db) <==> ProxyFails(q.proxy, fks, db)
    ensures OwnedFail(AfterOwned(q.usageLogs, IDs(rows)), db) <==> OwnedFail(q.usageLogs, db)
    ensures OwnedFail(AfterOwned(q.accountGroups, IDs(rows)), db) <==> OwnedFail(q.accountGroups, db)
  {
    hide Distinct;
  }

  lemma {:induction false} EdgeFailsAgain(q: QueryTree, rows: seq<Row>, db: DB)
    requires WellFormed(db) && NoGroups(q)
    ensures EdgeFails(AfterEdges(q, rows, db), rows, db) <==> EdgeFails(q, rows, db)
    decreases Size(q), 0
  {
    OthersFailAgain(q, rows, db);
    hide Fails, AfterRun, Distinct, GroupsFail, ProxyFails, OwnedFail, AfterProxy, AfterOwned;
    if q.parent.Some? {
      var fks := IntCells(rows, FieldParentAccountID);
      NarrowedFailsAgain(ParentBatch(q.parent.value, fks), q.parent.value, In(FieldID, Distinct(fks)), db);
    }
    if q.children.Some? {
      var c := q.children.value;
      NarrowSame(c, In(FieldParentAccountID, IDs(rows)));
      AfterSameTop(ChildBatch(c, IDs(rows)), db);
      NarrowedFailsAgain(ChildBatch(c, IDs(rows)), ChildQuery(c), In(FieldParentAccountID, IDs(rows)), db);
    }
  }

  lemma {:induction false} FailsAgain(q: QueryTree, db: DB)
    requires WellFormed(db) && NoGroups(q)
    ensures Fails(AfterRun(q, db), db) <==> Fails(q, db)
  {
    hide EdgeFails, AfterEdges, NoGroups;
    AfterSameTop(q, db);
    if Rows(q, db) != [] { EdgeFailsAgain(q, Rows(q, db), db); }
  }

  lemma {:induction false} NoGroupsAgain(q: QueryTree, db: DB)
    requires NoGroups(q)
    ensures NoGroups(AfterRun(q, db)) && Unjoined(q)
    decreases Size(q)
  {
    var rows := Rows(q, db);
    if q.parent.Some? {
      var fks := IntCells(rows, FieldParentAccountID);
      NarrowSame(q.parent.value, In(FieldID, Distinct(fks)));
      NoGroupsAgain(q.parent.value, db);
      NoGroupsAgain(ParentBatch(q.parent.value, fks), db);
      assert NoGroups(AfterParent(q.parent.value, fks, db));
    }
    if q.children.Some? {
      var c := q.children.value;
      NarrowSame(c, In(FieldParentAccountID, IDs(rows)));
      NarrowSame(ChildQuery(c), In(FieldParentAccountID, IDs(rows)));
      NoGroupsAgain(c, db);
      NoGroupsAgain(ChildBatch(c, IDs(rows)), db);
      assert NoGroups(AfterChildren(c, IDs(rows), db));
    }
  }

  ghost function Runs(q: QueryTree, n: nat, db: DB): QueryTree {
    if n == 0 then q else AfterRun(Runs(q, n - 1, db), db)
  }

  // Any number of runs: the same outcome and the same forest every time.
  lemma {:induction false} RunsAgain(q: QueryTree, n: nat, db: DB)
    requires WellFormed(db) && NoGroups(q)
    ensures NoGroups(Runs(q, n, db)) && Unjoined(Runs(q, n, db))
    ensures Fails(Runs(q, n, db), db) <==> Fails(q, db)
    ensures Forest(Runs(q, n, db), db) == Forest(q, db)
  {
    hide NoGroups, Forest, Fails, AfterRun;
    if n == 0 {
      NoGroupsAgain(q, db);
    } else {
      var before := Runs(q, n - 1, db);
      RunsAgain(q, n - 1, db);
      NoGroupsAgain(before, db);
      NoGroupsAgain(AfterRun(before, db), db);
      FailsAgain(before, db);
      RunAgain(before, db);
    }
  }

  // Two runs of one query object over the same database: both fail or neither does, and
  // the nodes of both stand for the forest of the query as it was first written.
  method LoadTwice(driver: Driver, q: AccountQuery)
    returns (failed: bool, first: seq<Account>, second: seq<Account>, ghost fp1: set<Account>, ghost fp2: set<Account>)
    requires WellFormed(driver.db) && q.Valid() && NoGroups(q.View())
    modifies driver`queries, q.Repr, q.Edges
    ensures failed <==> Fails(old(q.View()), driver.db)
    ensures !failed ==> RepresentsAll(first, Forest(old(q.View()), driver.db), fp1)
    ensures !failed ==> RepresentsAll(second, Forest(old(q.View()), driver.db), fp2)
  {
    hide NoGroups, Forest, Fails, AfterRun, AccountQuery.View, AccountQuery.Valid, RepresentsAll, Unjoined;
    ghost var v := q.View();
    NoGroupsAgain(v, driver.db);
    second, fp2 := [], {};
    failed, first, fp1 := All(driver, q);
    if failed { return; }
    NoGroupsAgain(AfterRun(v, driver.db), driver.db);
    FailsAgain(v, driver.db);
    RunAgain(v, driver.db);
    failed, second, fp2 := All(driver, q);
  }

  // ---- the fields of a node --------------------------------------------------------

  // Every field asked for holds the value of the node's row. A field not asked for is zero,
  // unless it is the foreign key of an edge to load.
  lemma NodeFields(q: QueryTree, r: Row, db: DB, c: Column)
    requires WellFormed(db) && Typed(db.codec, r) && Col(r, FieldID).Int?
    ensures AsksFor(q.fields, c) ==> FieldOf(TreeOf(q, r, db).f, c) == Decoded(db.codec, c, Col(r, c))
    ensures !AsksFor(q.fields, c) && c !in q.fields && c != FieldProxyID && c != FieldParentAccountID ==>
      FieldOf(TreeOf(q, r, db).f, c) == FieldOf(ZeroFields, c)
  {
    hide SelectedColumns, Decoded, FieldOf, Project;
    var columns := SelectedColumns(q.fields, q.proxy.Some?, q.parent.Some?);
    SelectedAre(q.fields, q.proxy.Some?, q.parent.Some?, c);
    SelectedKeys(q.fields, q.proxy.Some?, q.parent.Some?);
    ColumnCallbacksAgree(db.codec, columns, r, c);
  }

  // All, with what it reads: the i-th node has, in every field asked for, the value of the
  // i-th selected row.
  method AllFields(driver: Driver, q: AccountQuery) returns (failed: bool, nodes: seq<Account>, ghost fp: set<Account>)
    requires WellFormed(driver.db) && q.Valid() && Unjoined(q.View())
    modifies driver`queries, q.Repr, q.Edges
    ensures !failed ==> RepresentsAll(nodes, Forest(old(q.View()), driver.db), fp)
    ensures !failed ==> |nodes| == |Rows(old(q.View()), driver.db)|
    ensures !failed ==> forall i, c :: 0 <= i < |nodes| && AsksFor(old(q.fields), c) ==>
      FieldOf(nodes[i].f, c) == Decoded(driver.db.codec, c, Col(Rows(old(q.View()), driver.db)[i], c))
  {
    ghost var v := q.View();
    ViewParts(q);
    hide AccountQuery.View, AccountQuery.Valid, Fails, AfterRun, Unjoined, Decoded, FieldOf, AsksFor;
    failed, nodes, fp := All(driver, q);
    if failed { return; }
    RowsTyped(v, driver.db);
    forall i, c | 0 <= i < |nodes| && AsksFor(v.fields, c)
      ensures FieldOf(nodes[i].f, c) == Decoded(driver.db.codec, c, Col(Rows(v, driver.db)[i], c))
    {
      var r := Rows(v, driver.db)[i];
      assert Represents(nodes[i], Forest(v, driver.db)[i], fp);
      NodeFields(v, r, driver.db, c);
    }
  }

  // ---- the accessors of a loaded node ----------------------------------------------

  // On a node of the result, the accessors of an edge that was asked for give what the
  // lookup of that node gives, or NotFound; they say NotLoaded for other edges only.
  method Access(n: Account, q: QueryTree, r: Row, db: DB, ghost fp: set<Account>)
    returns (groups: Result<seq<Row>, EdgeError>, proxy: Result<Row, EdgeError>, parent: Result<Account, EdgeError>)
    requires WellFormed(db) && Typed(db.codec, r) && Col(r, FieldID).Int?
    requires Represents(n, TreeOf(q, r, db), fp)
    ensures groups == if q.groups.None? then Err(NotLoaded("groups"))
      else Ok(GroupsOf(q.groups.value, Col(r, FieldID).i, db))
    ensures proxy == if q.proxy.None? then Err(NotLoaded("proxy"))
      else match ProxyOf(q.proxy.value, IntCell(Col(r, FieldProxyID)), db)
        case None => Err(NotFound("proxy"))
        case Some(row) => Ok(row)
    ensures if q.parent.None? then parent == Err(NotLoaded("parent"))
      else match ParentOf(q.parent.value, IntCell(Col(r, FieldParentAccountID)), db)
        case None => parent == Err(NotFound("account"))
        case Some(t) => parent.Ok? && Represents(parent.value, t, fp)
  {
    groups := n.GroupsOrErr();
    proxy := n.ProxyOrErr();
    parent := n.ParentOrErr();
  }

  // The same for the other edges to many.
  method AccessLists(n: Account, q: QueryTree, r: Row, db: DB, ghost fp: set<Account>)
    returns (children: Result<seq<Account>, EdgeError>, usageLogs: Result<seq<Row>, EdgeError>,
      accountGroups: Result<seq<Row>, EdgeError>)
    requires WellFormed(db) && Typed(db.codec, r) && Col(r, FieldID).Int?
    requires Represents(n, TreeOf(q, r, db), fp)
    ensures if q.children.None? then children == Err(NotLoaded("children"))
      else children.Ok? && RepresentsAll(children.value, ChildrenOf(q.children.value, Col(r, FieldID).i, db), fp)
    ensures usageLogs == if q.usageLogs.None? then Err(NotLoaded("usage_logs"))
      else Ok(OwnedRows(q.usageLogs.value, Col(r, FieldID).i, db))
    ensures accountGroups == if q.accountGroups.None? then Err(NotLoaded("account_groups"))
      else Ok(OwnedRows(q.accountGroups.value, Col(r, FieldID).i, db))
  {
    children := n.ChildrenOrErr();
    usageLogs := n.UsageLogsOrErr();
    accountGroups := n.AccountGroupsOrErr();
  }
}
