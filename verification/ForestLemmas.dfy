// What a batched run over accounts has to hand out: the naive answers, found inside the
// forest of the batch.
module ForestLemmas {
  import opened Common
  import opened AccountSchema
  import opened AccountEntity
  import opened Relational
  import opened QueryModel
  import opened EdgeLoading

  // A node's tree does not depend on which predicates selected its row.
  lemma {:induction false} TreeIgnoresPreds(q: QueryTree, preds: seq<Pred>, r: Row, db: DB)
    requires WellFormed(db) && Typed(db.codec, r) && Col(r, FieldID).Int?
    ensures TreeOf(q.(preds := preds), r, db) == TreeOf(q, r, db)
  {
  }

  // Every row that a query on accounts selects is a well-formed row with an id.
  lemma {:induction false} RowsTyped(q: QueryTree, db: DB)
    requires WellFormed(db)
    ensures KeyedByID(Rows(q, db))
    ensures forall i :: 0 <= i < |Rows(q, db)| ==> Typed(db.codec, Rows(q, db)[i]) && Col(Rows(q, db)[i], FieldID).Int?
  {
    SelectKeyed(db.accounts(q.order), q.preds);
    forall i | 0 <= i < |Rows(q, db)| ensures Typed(db.codec, Rows(q, db)[i]) {
      assert Rows(q, db)[i] in Rows(q, db);
    }
  }

  lemma {:induction false} ForestAt(q: QueryTree, preds: seq<Pred>, i: nat, db: DB)
    requires WellFormed(db) && i < |Rows(q.(preds := preds), db)|
    ensures Typed(db.codec, Rows(q.(preds := preds), db)[i]) && Col(Rows(q.(preds := preds), db)[i], FieldID).Int?
    ensures Forest(q.(preds := preds), db)[i] == TreeOf(q, Rows(q.(preds := preds), db)[i], db)
  {
    RowsTyped(q.(preds := preds), db);
    TreeIgnoresPreds(q, preds, Rows(q.(preds := preds), db)[i], db);
  }

  // The share of an account in the batch of children is its own lookup's forest.
  lemma {:induction false} ChildShare(q: QueryTree, ids: seq<int>, id: int, db: DB)
    requires WellFormed(db) && id in ids
    ensures var batch := ChildBatch(q, ids);
      At(Forest(batch, db), Positions(Cells(Rows(batch, db), FieldParentAccountID), Int(id))) == ChildrenOf(q, id, db)
  {
    var c := ChildQuery(q);
    var batch, own := ChildBatch(q, ids), Narrow(c, In(FieldParentAccountID, [id]));
    var ps := Positions(Cells(Rows(batch, db), FieldParentAccountID), Int(id));
    PickSelect(db.accounts(c.order), c.preds, FieldParentAccountID, ids, id);
    assert Rows(own, db) == At(Rows(batch, db), ps);
    forall m | 0 <= m < |ps| ensures Forest(own, db)[m] == Forest(batch, db)[ps[m]] {
      ForestAt(c, own.preds, m, db);
      ForestAt(c, batch.preds, ps[m], db);
    }
  }

  // The parent that the batch holds for a foreign key is its own lookup's answer.
  lemma {:induction false} ParentShare(q: QueryTree, fks: seq<Option<int>>, fk: Option<int>, db: DB)
    requires WellFormed(db) && fk in fks
    ensures var batch := ParentBatch(q, fks);
      var keys := Cells(Rows(batch, db), FieldID);
      match Latest(keys, |keys|, fk)
      case None => ParentOf(q, fk, db) == None
      case Some(at) => at < |keys| && ParentOf(q, fk, db) == Some(Forest(batch, db)[at])
  {
    var batch := ParentBatch(q, fks);
    var keys := Cells(Rows(batch, db), FieldID);
    match fk {
      case None =>
      case Some(k) =>
        var own := Narrow(q, In(FieldID, [k]));
        RowsTyped(batch, db);
        CellsDistinct(Rows(batch, db));
        LatestIsOnly(keys, k);
        PickSelect(db.accounts(q.order), q.preds, FieldID, Distinct(fks), k);
        var ps := Positions(keys, Int(k));
        assert Rows(own, db) == At(Rows(batch, db), ps);
        if ps != [] {
          ForestAt(q, own.preds, 0, db);
          ForestAt(q, batch.preds, ps[0], db);
        }
    }
  }

  // Projection is safe: the columns start with the id and contain the foreign keys that
  // the requested edges need, whatever fields were asked for.
  lemma {:induction false} SelectedKeys(fields: seq<Column>, withProxy: bool, withParent: bool)
    ensures var columns := SelectedColumns(fields, withProxy, withParent);
      && columns != [] && columns[0] == FieldID
      && (withProxy ==> FieldProxyID in columns)
      && (withParent ==> FieldParentAccountID in columns)
      && (forall c :: c in fields ==> c in columns)
  {
    assert Columns[0] == FieldID && Columns[10] == FieldProxyID && Columns[30] == FieldParentAccountID;
  }

  // Without a projection all columns are selected; with one, those of the fields asked for,
  // the id, and the foreign keys that the requested edges need.
  lemma SelectedAre(fields: seq<Column>, withProxy: bool, withParent: bool, c: Column)
    ensures c in SelectedColumns(fields, withProxy, withParent) <==>
      if fields == [] then !c.Other?
      else c in fields || c == FieldID || (withProxy && c == FieldProxyID) || (withParent && c == FieldParentAccountID)
  {
    hide AppendOnce;
    if fields == [] {
      ColumnsComplete(c);
    } else {
      var base := [FieldID] + WithoutID(fields);
      var base' := if withProxy then AppendOnce(base, FieldProxyID) else base;
      assert c in base <==> c == FieldID || c in fields;
      InAppendOnce(base, FieldProxyID, c);
      InAppendOnce(base', FieldParentAccountID, c);
    }
  }

  lemma InAppendOnce(columns: seq<Column>, d: Column, c: Column)
    ensures c in AppendOnce(columns, d) <==> c in columns || c == d
  {
  }

  // A node read from a row has the row's id, and its foreign keys where they are selected.
  lemma {:induction false} NodeKeys(codec: Codec, row: Row, columns: seq<Column>)
    requires Typed(codec, row) && Col(row, FieldID).Int?
    ensures FieldID in columns ==> Project(codec, row, columns).id == Col(row, FieldID).i
    ensures FieldProxyID in columns ==> Project(codec, row, columns).proxyID == IntCell(Col(row, FieldProxyID))
    ensures FieldParentAccountID in columns ==>
      Project(codec, row, columns).parentAccountID == IntCell(Col(row, FieldParentAccountID))
  {
    ColumnCallbacksAgree(codec, columns, row, FieldID);
    ColumnCallbacksAgree(codec, columns, row, FieldProxyID);
    ColumnCallbacksAgree(codec, columns, row, FieldParentAccountID);
    assert Holds(codec, FieldProxyID, Col(row, FieldProxyID));
    assert Holds(codec, FieldParentAccountID, Col(row, FieldParentAccountID));
  }
}
