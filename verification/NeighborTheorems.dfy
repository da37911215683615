// Which neighbours a loaded edge holds: independent of the projection, and conserved.
module NeighborTheorems {
  import opened Common
  import opened AccountSchema
  import opened AccountEntity
  import opened Relational
  import opened QueryModel
  import opened EdgeLoading
  import opened ForestLemmas

  // ---- projections -----------------------------------------------------------------

  // The ids in a tree: its own and those of all neighbours at all levels. A row of
  // account_groups has no id of its own and is known by its account.
  datatype Shape = Shape(
    id: int, groups: seq<SqlValue>, proxy: Option<SqlValue>, parent: Option<Shape>,
    children: seq<Shape>, usageLogs: seq<SqlValue>, accountGroups: seq<SqlValue>)

  ghost function ShapeOf(t: AccountTree): Shape {
    Shape(
      t.f.id, Cells(t.groups, FieldID),
      if t.proxy.Some? then Some(Col(t.proxy.value, FieldID)) else None,
      if t.parent.Some? then Some(ShapeOf(t.parent.value)) else None,
      seq(|t.children|, i requires 0 <= i < |t.children| => ShapeOf(t.children[i])),
      Cells(t.usageLogs, FieldID), Cells(t.accountGroups, AccountIDColumn))
  }

  // The same query tree without any Select.
  function Plain(q: Option<EdgeTree>): Option<EdgeTree> {
    if q.Some? then Some(q.value.(fields := [])) else None
  }

  function Unprojected(q: QueryTree): QueryTree {
    q.(fields := [], groups := Plain(q.groups), proxy := Plain(q.proxy),
       parent := if q.parent.Some? then Some(Unprojected(q.parent.value)) else None,
       children := if q.children.Some? then Some(Unprojected(q.children.value)) else None,
       usageLogs := Plain(q.usageLogs), accountGroups := Plain(q.accountGroups))
  }

  // The edge queries stand on the right tables.
  ghost predicate Tables(q: QueryTree) {
    && (q.groups.Some? ==> q.groups.value.table == Groups)
    && (q.proxy.Some? ==> q.proxy.value.table == Proxies)
    && (q.usageLogs.Some? ==> q.usageLogs.value.table == UsageLogs)
    && (q.accountGroups.Some? ==> q.accountGroups.value.table == AccountGroups)
    && (q.parent.Some? ==> Tables(q.parent.value))
    && (q.children.Some? ==> Tables(q.children.value))
  }

  lemma {:induction false} ProjectedCells(q: EdgeTree, rows: seq<Row>, c: Column)
    requires q.fields == [] || c in q.fields || (HasID(q.table) && c == FieldID)
    ensures Cells(ProjectAll(q, rows), c) == Cells(rows, c)
  {
    forall i | 0 <= i < |rows| ensures Col(ProjectAll(q, rows)[i], c) == Col(rows[i], c) {
      ProjectKeeps(q, c, rows[i]);
    }
  }

  lemma {:induction false} GroupsCells(q: EdgeTree, id: int, db: DB)
    requires q.table == Groups
    ensures Cells(GroupsOf(q, id, db), FieldID) == Cells(GroupsOf(q.(fields := []), id, db), FieldID)
  {
    var link := LinkedTo(db.others(AccountGroups, []), [id]);
    var rows := OtherRows(NarrowOther(q, link), db);
    assert rows == OtherRows(NarrowOther(q.(fields := []), link), db);
    ProjectedCells(q, rows, FieldID);
    ProjectedCells(q.(fields := []), rows, FieldID);
  }

  lemma {:induction false} OwnedCells(q: EdgeTree, id: int, c: Column, db: DB)
    requires c == AccountIDColumn || (HasID(q.table) && c == FieldID)
    ensures Cells(OwnedRows(q, id, db), c) == Cells(OwnedRows(q.(fields := []), id, db), c)
  {
    var k, k0 := NeedKeyOther(q, AccountIDColumn), NeedKeyOther(q.(fields := []), AccountIDColumn);
    var rows := OtherRows(NarrowOther(k, In(AccountIDColumn, [id])), db);
    assert rows == OtherRows(NarrowOther(k0, In(AccountIDColumn, [id])), db);
    ProjectedCells(k, rows, c);
    ProjectedCells(k0, rows, c);
  }

  lemma {:induction false} ProxyCell(q: EdgeTree, fk: Option<int>, db: DB)
    requires q.table == Proxies
    ensures var a, b := ProxyOf(q, fk, db), ProxyOf(q.(fields := []), fk, db);
      (a.Some? <==> b.Some?) && (a.Some? ==> Col(a.value, FieldID) == Col(b.value, FieldID))
  {
    if fk.Some? {
      var p := In(FieldID, [fk.value]);
      var rows := OtherRows(NarrowOther(q, p), db);
      assert rows == OtherRows(NarrowOther(q.(fields := []), p), db);
      if rows != [] {
        ProjectKeeps(q, FieldID, rows[0]);
      }
    }
  }

  lemma {:induction false} UnprojectedNarrow(q: QueryTree, p: Pred)
    ensures Unprojected(Narrow(q, p)) == Narrow(Unprojected(q), p)
    ensures Unprojected(ChildQuery(q)) == Unprojected(q) == ChildQuery(Unprojected(q))
    ensures Size(Narrow(q, p)) == Size(q) == Size(ChildQuery(q))
    ensures Tables(q) ==> Tables(Narrow(q, p)) && Tables(ChildQuery(q))
  {
    TablesNarrow(q, p);
    SizeNarrow(q, p);
    hide Tables, Size;
  }

  lemma {:induction false} TablesNarrow(q: QueryTree, p: Pred)
    ensures Tables(q) ==> Tables(Narrow(q, p)) && Tables(ChildQuery(q))
  {
  }

  lemma {:induction false} SizeNarrow(q: QueryTree, p: Pred)
    ensures Size(Narrow(q, p)) == Size(q) == Size(ChildQuery(q))
  {
  }

  lemma UnprojectedTop(q: QueryTree, db: DB)
    ensures Rows(Unprojected(q), db) == Rows(q, db)
  {
  }

  lemma TableParts(q: QueryTree)
    requires Tables(q)
    ensures q.groups.Some? ==> q.groups.value.table == Groups
    ensures q.proxy.Some? ==> q.proxy.value.table == Proxies
    ensures q.usageLogs.Some? ==> q.usageLogs.value.table == UsageLogs
    ensures q.parent.Some? ==> Tables(q.parent.value)
    ensures q.children.Some? ==> Tables(q.children.value)
  {
  }

  lemma {:induction false} OwnID(q: QueryTree, r: Row, db: DB)
    requires WellFormed(db) && Typed(db.codec, r) && Col(r, FieldID).Int?
    ensures TreeOf(q, r, db).f.id == Col(r, FieldID).i
  {
    var columns := SelectedColumns(q.fields, q.proxy.Some?, q.parent.Some?);
    SelectedKeys(q.fields, q.proxy.Some?, q.parent.Some?);
    NodeKeys(db.codec, r, columns);
  }

  // A Select never changes which neighbours the requested edges hold.
  lemma {:induction false} ForestShape(q: QueryTree, db: DB)
    requires WellFormed(db) && Tables(q)
    ensures |Forest(q, db)| == |Forest(Unprojected(q), db)|
    ensures forall i :: 0 <= i < |Forest(q, db)| ==> ShapeOf(Forest(q, db)[i]) == ShapeOf(Forest(Unprojected(q), db)[i])
    decreases Size(q), 1
  {
    hide ShapeOf, TreeOf, Tables, Unprojected, Size;
    UnprojectedTop(q, db);
    RowsTyped(q, db);
    forall i | 0 <= i < |Rows(q, db)| ensures ShapeOf(Forest(q, db)[i]) == ShapeOf(Forest(Unprojected(q), db)[i]) {
      TreeShape(q, Rows(q, db)[i], db);
    }
  }

  lemma {:induction false} TreeShape(q: QueryTree, r: Row, db: DB)
    requires WellFormed(db) && Tables(q) && Typed(db.codec, r) && Col(r, FieldID).Int?
    ensures ShapeOf(TreeOf(q, r, db)) == ShapeOf(TreeOf(Unprojected(q), r, db))
    decreases Size(q), 0
  {
    hide GroupsOf, ProxyOf, OwnedRows, ParentOf, ChildrenOf, Project, SelectedColumns, Tables, ShapeOf, Cells;
    TableParts(q);
    var id := Col(r, FieldID).i;
    OwnID(q, r, db);
    OwnID(Unprojected(q), r, db);
    if q.groups.Some? { GroupsCells(q.groups.value, id, db); }
    if q.proxy.Some? { ProxyCell(q.proxy.value, IntCell(Col(r, FieldProxyID)), db); }
    if q.usageLogs.Some? { OwnedCells(q.usageLogs.value, id, FieldID, db); }
    if q.accountGroups.Some? { OwnedCells(q.accountGroups.value, id, AccountIDColumn, db); }
    if q.parent.Some? { ParentShape(q.parent.value, IntCell(Col(r, FieldParentAccountID)), db); }
    if q.children.Some? { ChildrenShape(q.children.value, id, db); }
    SameShape(TreeOf(q, r, db), TreeOf(Unprojected(q), r, db));
  }

  lemma {:induction false} SameShape(a: AccountTree, b: AccountTree)
    requires a.f.id == b.f.id && Cells(a.groups, FieldID) == Cells(b.groups, FieldID)
    requires (a.proxy.Some? <==> b.proxy.Some?) && (a.proxy.Some? ==> Col(a.proxy.value, FieldID) == Col(b.proxy.value, FieldID))
    requires (a.parent.Some? <==> b.parent.Some?) && (a.parent.Some? ==> ShapeOf(a.parent.value) == ShapeOf(b.parent.value))
    requires |a.children| == |b.children| && forall i :: 0 <= i < |a.children| ==> ShapeOf(a.children[i]) == ShapeOf(b.children[i])
    requires Cells(a.usageLogs, FieldID) == Cells(b.usageLogs, FieldID)
    requires Cells(a.accountGroups, AccountIDColumn) == Cells(b.accountGroups, AccountIDColumn)
    ensures ShapeOf(a) == ShapeOf(b)
  {
  }

  lemma {:induction false} ParentShape(q: QueryTree, fk: Option<int>, db: DB)
    requires WellFormed(db) && Tables(q)
    ensures var a, b := ParentOf(q, fk, db), ParentOf(Unprojected(q), fk, db);
      (a.Some? <==> b.Some?) && (a.Some? ==> ShapeOf(a.value) == ShapeOf(b.value))
    decreases Size(q), 2
  {
    hide ShapeOf, Tables;
    if fk.Some? {
      UnprojectedNarrow(q, In(FieldID, [fk.value]));
      ForestShape(Narrow(q, In(FieldID, [fk.value])), db);
    }
  }

  lemma {:induction false} ChildrenShape(q: QueryTree, id: int, db: DB)
    requires WellFormed(db) && Tables(q)
    ensures var a, b := ChildrenOf(q, id, db), ChildrenOf(Unprojected(q), id, db);
      |a| == |b| && forall i :: 0 <= i < |a| ==> ShapeOf(a[i]) == ShapeOf(b[i])
    decreases Size(q), 2
  {
    hide ShapeOf, Tables;
    var p := In(FieldParentAccountID, [id]);
    UnprojectedNarrow(q, p);
    UnprojectedNarrow(ChildQuery(q), p);
    ForestShape(Narrow(ChildQuery(q), p), db);
  }

  // ---- conservation ----------------------------------------------------------------

  // The shares of several keys, put together.
  ghost function Shares<T>(xs: seq<T>, keys: seq<SqlValue>, n: nat, ids: seq<int>): multiset<T>
    requires |keys| == |xs| && n <= |xs|
  {
    if ids == [] then multiset{}
    else Shares(xs, keys, n, ids[..|ids| - 1]) + OneShare(xs, keys, n, ids[|ids| - 1])
  }

  ghost function OneShare<T>(xs: seq<T>, keys: seq<SqlValue>, n: nat, id: int): multiset<T>
    requires |keys| == |xs| && n <= |xs|
  {
    multiset(At(xs, Positions(keys[..n], Int(id))))
  }

  lemma {:induction false} SharesStep<T>(xs: seq<T>, keys: seq<SqlValue>, n: nat, ids: seq<int>)
    requires |keys| == |xs| && n < |xs|
    requires forall i, j :: 0 <= i < j < |ids| ==> ids[i] != ids[j]
    ensures Shares(xs, keys, n + 1, ids)
      == Shares(xs, keys, n, ids) + if keys[n].Int? && keys[n].i in ids then multiset{xs[n]} else multiset{}
  {
    hide OneShare;
    if ids != [] {
      var init, last := ids[..|ids| - 1], ids[|ids| - 1];
      SharesStep(xs, keys, n, init);
      OneShareStep(xs, keys, n, last);
      assert ids == init + [last];
      assert keys[n] == Int(last) ==> last !in init;
    }
  }

  lemma OneShareStep<T>(xs: seq<T>, keys: seq<SqlValue>, n: nat, id: int)
    requires |keys| == |xs| && n < |xs|
    ensures OneShare(xs, keys, n + 1, id) == OneShare(xs, keys, n, id) + if keys[n] == Int(id) then multiset{xs[n]} else multiset{}
  {
    PositionsStep(keys, n, Int(id));
    var before, after := Positions(keys[..n], Int(id)), Positions(keys[..n + 1], Int(id));
    assert At(xs, after) == At(xs, before) + if keys[n] == Int(id) then [xs[n]] else [];
  }

  // The lists of all keys together are a permutation of the elements, when every
  // element's key is among them.
  lemma {:induction false} SharesAll<T>(xs: seq<T>, keys: seq<SqlValue>, n: nat, ids: seq<int>)
    requires |keys| == |xs| && n <= |xs|
    requires forall i, j :: 0 <= i < j < |ids| ==> ids[i] != ids[j]
    requires forall j :: 0 <= j < n ==> keys[j].Int? && keys[j].i in ids
    ensures Shares(xs, keys, n, ids) == multiset(xs[..n])
  {
    hide Shares;
    if n == 0 {
      SharesNone(xs, keys, ids);
    } else {
      SharesAll(xs, keys, n - 1, ids);
      SharesStep(xs, keys, n - 1, ids);
      assert xs[..n] == xs[..n - 1] + [xs[n - 1]];
    }
  }

  lemma {:induction false} SharesNone<T>(xs: seq<T>, keys: seq<SqlValue>, ids: seq<int>)
    requires |keys| == |xs|
    ensures Shares(xs, keys, 0, ids) == multiset{}
  {
    if ids != [] { SharesNone(xs, keys, ids[..|ids| - 1]); }
  }

  // The children lists of the accounts, together.
  ghost function ChildrenTogether(q: QueryTree, ids: seq<int>, db: DB): multiset<AccountTree>
    requires WellFormed(db)
  {
    if ids == [] then multiset{}
    else ChildrenTogether(q, ids[..|ids| - 1], db) + multiset(ChildrenOf(q, ids[|ids| - 1], db))
  }

  // Conservation: every child that the batched query returns ends up under exactly one
  // node, and nothing else does.
  lemma {:induction false} ChildrenConserved(q: QueryTree, ids: seq<int>, db: DB)
    requires WellFormed(db)
    requires forall i, j :: 0 <= i < j < |ids| ==> ids[i] != ids[j]
    ensures ChildrenTogether(q, ids, db) == multiset(Forest(ChildBatch(q, ids), db))
  {
    var batch := ChildBatch(q, ids);
    var trees, keys := Forest(batch, db), Cells(Rows(batch, db), FieldParentAccountID);
    forall j | 0 <= j < |keys| ensures keys[j].Int? && keys[j].i in ids {
      assert Rows(batch, db)[j] in Rows(batch, db);
      ExtendAll(ChildQuery(q).preds, In(FieldParentAccountID, ids), Rows(batch, db)[j]);
    }
    TogetherIsShares(q, ids, |ids|, db);
    SharesAll(trees, keys, |trees|, ids);
    assert trees[..|trees|] == trees && ids[..|ids|] == ids;
  }

  lemma {:induction false} TogetherIsShares(q: QueryTree, ids: seq<int>, m: nat, db: DB)
    requires WellFormed(db) && m <= |ids|
    ensures
      var batch := ChildBatch(q, ids);
      var trees, keys := Forest(batch, db), Cells(Rows(batch, db), FieldParentAccountID);
      ChildrenTogether(q, ids[..m], db) == Shares(trees, keys, |trees|, ids[..m])
  {
    if m > 0 {
      TogetherIsShares(q, ids, m - 1, db);
      assert ids[..m][..m - 1] == ids[..m - 1];
      ChildShare(q, ids, ids[m - 1], db);
      var keys := Cells(Rows(ChildBatch(q, ids), db), FieldParentAccountID);
      assert keys[..|keys|] == keys;
    }
  }
}
