// The database as an environment: tables, predicates and the rows a query returns.
module Relational {
  import opened AccountSchema
  import opened AccountEntity

  // A query predicate: a user's Where, a column IN (ids), or "a row of `links` connects
  // this group to one of the accounts". NULL is in no list.
  datatype Pred = Where(p: Row -> bool) | In(col: Column, ids: seq<int>) | LinkedTo(links: seq<Row>, accounts: seq<int>)

  predicate Satisfies(pred: Pred, row: Row) {
    match pred
    case Where(p) => p(row)
    case In(col, ids) => Col(row, col).Int? && Col(row, col).i in ids
    case LinkedTo(links, accounts) => exists k :: 0 <= k < |links| && LinksOne(links[k], accounts, row)
  }

  // `link`, a row of account_groups, connects one of the accounts to the group row.
  predicate LinksOne(link: Row, accounts: seq<int>, group: Row) {
    && Col(link, AccountIDColumn).Int? && Col(link, AccountIDColumn).i in accounts
    && Col(link, GroupIDColumn).Int? && Col(link, GroupIDColumn) == Col(group, FieldID)
  }

  predicate SatisfiesAll(preds: seq<Pred>, row: Row) {
    forall i :: 0 <= i < |preds| ==> Satisfies(preds[i], row)
  }

  // WHERE: the rows that satisfy every predicate, in table order.
  function Select(rows: seq<Row>, preds: seq<Pred>): (out: seq<Row>)
    ensures forall r :: r in out <==> r in rows && SatisfiesAll(preds, r)
  {
    if rows == [] then []
    else
      var init := Select(rows[..|rows| - 1], preds);
      var last := rows[|rows| - 1];
      if SatisfiesAll(preds, last) then init + [last] else init
  }

  type OrderOption = string

  datatype Table = Groups | Proxies | UsageLogs | AccountGroups

  // The database during a read. `accounts(o)` and `others(t, o)` list a table's rows in
  // the order that the ORDER BY terms `o` give; filtering keeps that order.
  // `validOther` says which columns the query builders of the other tables accept, and
  // `groupColumns` are the columns of groups, in the order in which they are selected.
  datatype DB = DB(
    codec: Codec,
    accounts: seq<OrderOption> -> seq<Row>,
    others: (Table, seq<OrderOption>) -> seq<Row>,
    validOther: (Table, Column) -> bool,
    groupColumns: seq<Column>)

  // `id` is a primary key of the rows.
  ghost predicate KeyedByID(rows: seq<Row>) {
    && (forall i :: 0 <= i < |rows| ==> Col(rows[i], FieldID).Int?)
    && (forall i, j :: 0 <= i < j < |rows| ==> Col(rows[i], FieldID) != Col(rows[j], FieldID))
  }

  // What the database schema guarantees.
  ghost predicate WellFormed(db: DB) {
    && (forall o :: KeyedByID(db.accounts(o)))
    && (forall o, r :: r in db.accounts(o) ==> Typed(db.codec, r))
    && (forall o :: KeyedByID(db.others(Proxies, o)))
    && (forall o :: KeyedByID(db.others(Groups, o)))
    && db.groupColumns != [] && db.groupColumns[0] == FieldID
  }

  // The cells of one column.
  function Cells(rows: seq<Row>, col: Column): (cells: seq<SqlValue>)
    ensures |cells| == |rows|
    ensures forall i :: 0 <= i < |rows| ==> cells[i] == Col(rows[i], col)
  {
    seq(|rows|, i requires 0 <= i < |rows| => Col(rows[i], col))
  }

  // The positions at which `key` occurs, in order.
  function Positions<K(==)>(keys: seq<K>, key: K): (ps: seq<nat>)
    ensures forall m :: 0 <= m < |ps| ==> ps[m] < |keys| && keys[ps[m]] == key
    ensures forall m, n :: 0 <= m < n < |ps| ==> ps[m] < ps[n]
    ensures forall i :: 0 <= i < |keys| && keys[i] == key ==> i in ps
  {
    if keys == [] then []
    else
      var n := |keys| - 1;
      var init := Positions(keys[..n], key);
      if keys[n] == key then init + [n] else init
  }

  // The elements of xs at the given positions.
  function At<T>(xs: seq<T>, ps: seq<nat>): (out: seq<T>)
    requires forall m :: 0 <= m < |ps| ==> ps[m] < |xs|
    ensures |out| == |ps|
    ensures forall m :: 0 <= m < |ps| ==> out[m] == xs[ps[m]]
  {
    seq(|ps|, m requires 0 <= m < |ps| => xs[ps[m]])
  }

  // One more key extends the positions by at most that index.
  lemma PositionsStep<K>(keys: seq<K>, j: nat, key: K)
    requires j < |keys|
    ensures Positions(keys[..j + 1], key) == Positions(keys[..j], key) + if keys[j] == key then [j] else []
  {
    assert keys[..j + 1][..j] == keys[..j];
  }

  // The rows whose cell in `col` is `key`, in order.
  function Pick(rows: seq<Row>, col: Column, key: int): seq<Row> {
    At(rows, Positions(Cells(rows, col), Int(key)))
  }

  lemma PickStep(rows: seq<Row>, last: Row, col: Column, key: int)
    ensures Pick(rows + [last], col, key) == Pick(rows, col, key) + if Col(last, col) == Int(key) then [last] else []
  {
    var cells := Cells(rows + [last], col);
    PositionsStep(cells, |rows|, Int(key));
    assert cells[..|rows|] == Cells(rows, col);
    assert cells[..|rows| + 1] == cells;
  }

  lemma PickEmpty(col: Column, key: int)
    ensures Pick([], col, key) == []
  {
  }

  // A batched query split by key gives, for every key of the batch, what a query for
  // that key alone gives.
  lemma {:induction false} PickSelect(rows: seq<Row>, preds: seq<Pred>, col: Column, ids: seq<int>, key: int)
    requires key in ids
    ensures Pick(Select(rows, preds + [In(col, ids)]), col, key) == Select(rows, preds + [In(col, [key])])
  {
    hide Pick;
    if rows == [] {
      PickEmpty(col, key);
    } else {
      var init, last := rows[..|rows| - 1], rows[|rows| - 1];
      PickSelect(init, preds, col, ids, key);
      ExtendAll(preds, In(col, ids), last);
      ExtendAll(preds, In(col, [key]), last);
      PickStep(Select(init, preds + [In(col, ids)]), last, col, key);
    }
  }

  lemma ExtendAll(preds: seq<Pred>, p: Pred, row: Row)
    ensures SatisfiesAll(preds + [p], row) <==> SatisfiesAll(preds, row) && Satisfies(p, row)
  {
    assert (preds + [p])[|preds|] == p;
    assert forall i :: 0 <= i < |preds| ==> (preds + [p])[i] == preds[i];
  }

  // A key column selects at most one row.
  lemma {:induction false} SelectKeyed(rows: seq<Row>, preds: seq<Pred>)
    requires KeyedByID(rows)
    ensures KeyedByID(Select(rows, preds))
  {
    if rows != [] {
      SelectKeyed(rows[..|rows| - 1], preds);
      forall r | r in Select(rows[..|rows| - 1], preds)
        ensures Col(r, FieldID) != Col(rows[|rows| - 1], FieldID)
      {
        assert r in rows[..|rows| - 1];
      }
    }
  }
}
