// The Account entity object: scanning a database row, assigning it to the entity in
// place, and the accessors of its eager-loaded edges.
module AccountEntity {
  import opened Common
  import opened AccountSchema

  // A database row. A column without a value is NULL.
  type Row = map<Column, SqlValue>

  function Col(row: Row, c: Column): SqlValue {
    if c in row then row[c] else Null
  }

  // The schema's promise about a row of accounts: every column holds a value of its kind.
  ghost predicate Typed(codec: Codec, row: Row) {
    forall c :: Holds(codec, c, Col(row, c))
  }

  // The containers after the driver scanned the row into what scanValues allocated.
  ghost function ScanRow(codec: Codec, columns: seq<Column>, row: Row): (values: seq<Container>)
    requires Typed(codec, row)
  {
    seq(|columns|, i requires 0 <= i < |columns| =>
      assert Holds(codec, columns[i], Col(row, columns[i]));
      Scan(Allocate(KindOf(columns[i])), Col(row, columns[i])).value)
  }

  // The entity fields read from `row` when `columns` are selected.
  ghost function Project(codec: Codec, row: Row, columns: seq<Column>): AccountFields
    requires Typed(codec, row)
  {
    Assign(codec, ZeroFields, columns, ScanRow(codec, columns, row)).0
  }

  // Assigning column c leaves the field of column `other` alone.
  ghost predicate LeavesAlone(codec: Codec, f: AccountFields, c: Column, v: Container, other: Column) {
    FieldOf(AssignOne(codec, f, c, v).0, other) == FieldOf(f, other)
  }

  lemma TimeFrame(codec: Codec, f: AccountFields, c: Column, v: Container, other: Column)
    requires c != other && KindOf(c).KTime?
    ensures LeavesAlone(codec, f, c, v, other)
  {
  }

  lemma TextFrame(codec: Codec, f: AccountFields, c: Column, v: Container, other: Column)
    requires c != other && KindOf(c).KString?
    ensures LeavesAlone(codec, f, c, v, other)
  {
  }

  lemma IntFrame(codec: Codec, f: AccountFields, c: Column, v: Container, other: Column)
    requires c != other && KindOf(c).KInt64?
    ensures LeavesAlone(codec, f, c, v, other)
  {
  }

  lemma OtherFrame(codec: Codec, f: AccountFields, c: Column, v: Container, other: Column)
    requires c != other && !KindOf(c).KTime? && !KindOf(c).KString? && !KindOf(c).KInt64?
    ensures LeavesAlone(codec, f, c, v, other)
  {
  }

  // Assigning column c leaves the field of every other column alone.
  lemma AssignOneFrame(codec: Codec, f: AccountFields, c: Column, v: Container, other: Column)
    requires c != other
    ensures LeavesAlone(codec, f, c, v, other)
  {
    hide LeavesAlone;
    match KindOf(c) {
      case KTime => TimeFrame(codec, f, c, v, other);
      case KString => TextFrame(codec, f, c, v, other);
      case KInt64 => IntFrame(codec, f, c, v, other);
      case _ => OtherFrame(codec, f, c, v, other);
    }
  }

  // Assigning the scanned value v of column c succeeds and leaves the decoded value.
  ghost predicate AssignsDecoded(codec: Codec, f: AccountFields, c: Column, v: SqlValue)
    requires Scan(Allocate(KindOf(c)), v).Some?
  {
    var (g, e) := AssignOne(codec, f, c, Scan(Allocate(KindOf(c)), v).value);
    e == None && FieldOf(g, c) == Decoded(codec, c, v)
  }

  ghost predicate Assignable(codec: Codec, f: AccountFields, c: Column, v: SqlValue) {
    && Holds(codec, c, v)
    && (FieldOf(f, c) == FieldOf(ZeroFields, c) || FieldOf(f, c) == Decoded(codec, c, v))
  }

  lemma AssignTime(codec: Codec, f: AccountFields, c: Column, v: SqlValue)
    requires Assignable(codec, f, c, v) && KindOf(c).KTime?
    ensures AssignsDecoded(codec, f, c, v)
  {
  }

  lemma AssignText(codec: Codec, f: AccountFields, c: Column, v: SqlValue)
    requires Assignable(codec, f, c, v) && KindOf(c).KString?
    ensures AssignsDecoded(codec, f, c, v)
  {
  }

  lemma AssignInt(codec: Codec, f: AccountFields, c: Column, v: SqlValue)
    requires Assignable(codec, f, c, v) && KindOf(c).KInt64?
    ensures AssignsDecoded(codec, f, c, v)
  {
  }

  lemma AssignOther(codec: Codec, f: AccountFields, c: Column, v: SqlValue)
    requires Assignable(codec, f, c, v) && !KindOf(c).KTime? && !KindOf(c).KString? && !KindOf(c).KInt64?
    ensures AssignsDecoded(codec, f, c, v)
  {
  }

  // A container that scanValues allocated for c, once filled by the driver, is never
  // rejected by assignValues; the field of c becomes the decoded database value,
  // whether it was untouched or already assigned from the same value.
  lemma AssignOneScanned(codec: Codec, f: AccountFields, c: Column, v: SqlValue)
    requires Assignable(codec, f, c, v)
    ensures AssignsDecoded(codec, f, c, v)
  {
    hide Assignable, AssignsDecoded;
    match KindOf(c) {
      case KTime => AssignTime(codec, f, c, v);
      case KString => AssignText(codec, f, c, v);
      case KInt64 => AssignInt(codec, f, c, v);
      case _ => AssignOther(codec, f, c, v);
    }
  }

  // What the field of column c must hold after reading the columns `columns` of `row`.
  ghost function ReadField(codec: Codec, columns: seq<Column>, row: Row, c: Column): FieldValue {
    if c in columns then Decoded(codec, c, Col(row, c)) else FieldOf(ZeroFields, c)
  }

  lemma {:induction false} AssignScannedPrefix(codec: Codec, columns: seq<Column>, row: Row, n: nat, c: Column)
    requires Typed(codec, row) && n <= |columns|
    ensures var (f, e) := AssignPrefix(codec, ZeroFields, columns, ScanRow(codec, columns, row), n);
      e == None && FieldOf(f, c) == ReadField(codec, columns[..n], row, c)
  {
    hide AssignOne, FieldOf, Decoded;
    if n > 0 {
      var last := columns[n - 1];
      var values := ScanRow(codec, columns, row);
      AssignScannedPrefix(codec, columns, row, n - 1, c);
      AssignScannedPrefix(codec, columns, row, n - 1, last);
      var (g, _) := AssignPrefix(codec, ZeroFields, columns, values, n - 1);
      assert Holds(codec, last, Col(row, last));
      AssignOneScanned(codec, g, last, Col(row, last));
      if c != last {
        AssignOneFrame(codec, g, last, values[n - 1], c);
      }
      assert columns[..n] == columns[..n - 1] + [last];
    }
  }

  // The column callbacks agree on every column sequence, repeats and unknown columns
  // included: assignValues never fails on what scanValues allocated, a selected column's
  // field holds the decoded database value and an unselected one its zero value.
  lemma ColumnCallbacksAgree(codec: Codec, columns: seq<Column>, row: Row, c: Column)
    requires Typed(codec, row)
    ensures Assign(codec, ZeroFields, columns, ScanRow(codec, columns, row)) == (Project(codec, row, columns), None)
    ensures FieldOf(Project(codec, row, columns), c) == ReadField(codec, columns, row, c)
  {
    AssignScannedPrefix(codec, columns, row, |columns|, c);
    assert columns[..|columns|] == columns;
  }

  // A column of another kind is rejected: the switches of scanValues and assignValues
  // cover the same columns with the same kinds.
  lemma MismatchRejected(codec: Codec, f: AccountFields, c: Column, k: Kind)
    requires k != KindOf(c) && !c.Other?
    ensures AssignOne(codec, f, c, Allocate(k)) == (f, Some(UnexpectedType(c)))
  {
  }

  // Which edges the query asked to load, in the order of the struct's array.
  datatype LoadedTypes = LoadedTypes(
    groups: bool, proxy: bool, parent: bool, children: bool, usageLogs: bool, accountGroups: bool)

  const NothingLoaded: LoadedTypes := LoadedTypes(false, false, false, false, false, false)

  datatype EdgeError = NotLoaded(edge: string) | NotFound(edge: string)

  // Account is the model entity. Its scalar fields form one record; the neighbours of
  // the other tables are kept as the rows they were read from.
  class Account {
    var f: AccountFields
    var groups: seq<Row>
    var proxy: Option<Row>
    var parent: Account?
    var children: seq<Account>
    var usageLogs: seq<Row>
    var accountGroups: seq<Row>
    var loaded: LoadedTypes

    constructor ()
      ensures f == ZeroFields && loaded == NothingLoaded
      ensures groups == [] && proxy == None && parent == null && children == [] && usageLogs == [] && accountGroups == []
    {
      f, loaded := ZeroFields, NothingLoaded;
      groups, proxy, parent, children, usageLogs, accountGroups := [], None, null, [], [], [];
    }

    // Allocates one container per column.
    static method ScanValues(columns: seq<Column>) returns (values: seq<Container>)
      ensures |values| == |columns|
      ensures forall i :: 0 <= i < |columns| ==> values[i] == Allocate(KindOf(columns[i]))
    {
      values := [];
      for i := 0 to |columns|
        invariant |values| == i
        invariant forall k :: 0 <= k < i ==> values[k] == Allocate(KindOf(columns[k]))
      {
        values := values + [Allocate(KindOf(columns[i]))];
      }
    }

    // Assigns the scanned values to the fields, column by column, up to the first error.
    method AssignValues(codec: Codec, columns: seq<Column>, values: seq<Container>) returns (err: Option<AssignError>)
      modifies this`f
      ensures (f, err) == Assign(codec, old(f), columns, values)
    {
      if |values| < |columns| {
        return Some(CountMismatch(|values|, |columns|));
      }
      for i := 0 to |columns|
        invariant (f, None) == AssignPrefix(codec, old(f), columns, values, i)
      {
        var (g, e) := AssignOne(codec, f, columns[i], values[i]);
        f := g;
        if e.Some? {
          AssignErrorStays(codec, old(f), columns, values, i + 1, |columns|);
          return e;
        }
      }
      err := None;
    }

    method GroupsOrErr() returns (r: Result<seq<Row>, EdgeError>)
      ensures r == if loaded.groups then Ok(groups) else Err(NotLoaded("groups"))
    {
      if loaded.groups { return Ok(groups); }
      r := Err(NotLoaded("groups"));
    }

    method ProxyOrErr() returns (r: Result<Row, EdgeError>)
      ensures r.Ok? <==> proxy.Some?
      ensures r.Ok? ==> r.value == proxy.value
      ensures r.Err? ==> r.error == if loaded.proxy then NotFound("proxy") else NotLoaded("proxy")
    {
      if proxy.Some? {
        return Ok(proxy.value);
      } else if loaded.proxy {
        return Err(NotFound("proxy"));
      }
      r := Err(NotLoaded("proxy"));
    }

    method ParentOrErr() returns (r: Result<Account, EdgeError>)
      ensures r.Ok? <==> parent != null
      ensures r.Ok? ==> r.value == parent
      ensures r.Err? ==> r.error == if loaded.parent then NotFound("account") else NotLoaded("parent")
    {
      if parent != null {
        return Ok(parent);
      } else if loaded.parent {
        return Err(NotFound("account"));
      }
      r := Err(NotLoaded("parent"));
    }

    method ChildrenOrErr() returns (r: Result<seq<Account>, EdgeError>)
      ensures r == if loaded.children then Ok(children) else Err(NotLoaded("children"))
    {
      if loaded.children { return Ok(children); }
      r := Err(NotLoaded("children"));
    }

    method UsageLogsOrErr() returns (r: Result<seq<Row>, EdgeError>)
      ensures r == if loaded.usageLogs then Ok(usageLogs) else Err(NotLoaded("usage_logs"))
    {
      if loaded.usageLogs { return Ok(usageLogs); }
      r := Err(NotLoaded("usage_logs"));
    }

    method AccountGroupsOrErr() returns (r: Result<seq<Row>, EdgeError>)
      ensures r == if loaded.accountGroups then Ok(accountGroups) else Err(NotLoaded("account_groups"))
    {
      if loaded.accountGroups { return Ok(accountGroups); }
      r := Err(NotLoaded("account_groups"));
    }
  }

  lemma {:induction false} AssignErrorStays(codec: Codec, f: AccountFields, columns: seq<Column>,
      values: seq<Container>, m: nat, n: nat)
    requires m <= n <= |columns| <= |values|
    requires AssignPrefix(codec, f, columns, values, m).1.Some?
    ensures AssignPrefix(codec, f, columns, values, n) == AssignPrefix(codec, f, columns, values, m)
    decreases n
  {
    if m < n {
      AssignErrorStays(codec, f, columns, values, m, n - 1);
    }
  }
}
