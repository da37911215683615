// The builders of updates, of many rows and of one: their calls on fields and edges, the
// spec that each emits, and what executing it does.
module AccountUpdates {
  import opened Common
  import opened AccountSchema
  import opened AccountMutations
  import opened CreateSpecs
  import opened UpdateFields
  import opened UpdateEdges
  import opened QueryModel
  import opened AccountEntity
  import ForestLemmas

  datatype UpdateCall = OnField(c: Column, field: FieldCall) | OnMany(k: EdgeKind, many: Call) | OnKey(k: EdgeKind, key: KeyCall)

  // The calls that the builders offer.
  predicate IsOffered(call: UpdateCall) {
    match call
    case OnField(c, f) => IsUpdatable(c) && (f.AddBy? ==> IsNumeric(c)) && (f.ClearIt? ==> IsNillable(c))
    case OnMany(k, _) => !RelationOf(k).M2O?
    case OnKey(k, _) => RelationOf(k).M2O?
  }

  // The calls on one column or edge, in order.
  function FieldCalls(calls: seq<UpdateCall>, c: Column): seq<FieldCall> {
    if calls == [] then []
    else
      var last := calls[|calls| - 1];
      FieldCalls(calls[..|calls| - 1], c) + if last.OnField? && last.c == c then [last.field] else []
  }

  function ManyCalls(calls: seq<UpdateCall>, k: EdgeKind): seq<Call> {
    if calls == [] then []
    else
      var last := calls[|calls| - 1];
      ManyCalls(calls[..|calls| - 1], k) + if last.OnMany? && last.k == k then [last.many] else []
  }

  function KeyCalls(calls: seq<UpdateCall>, k: EdgeKind): seq<KeyCall> {
    if calls == [] then []
    else
      var last := calls[|calls| - 1];
      KeyCalls(calls[..|calls| - 1], k) + if last.OnKey? && last.k == k then [last.key] else []
  }

  // The mutation of an update.
  class UpdateMutation {
    const fields: FieldChanges
    const groups: EdgeChanges
    const children: EdgeChanges
    const usageLogs: EdgeChanges
    const proxy: KeyFields
    const parent: KeyFields

    constructor ()
      ensures fresh(fields) && fresh(groups) && fresh(children) && fresh(usageLogs) && fresh(proxy) && fresh(parent)
      ensures Separate() && Holds([])
    {
      fields := new FieldChanges();
      groups := new EdgeChanges();
      children := new EdgeChanges();
      usageLogs := new EdgeChanges();
      proxy := new KeyFields();
      parent := new KeyFields();
    }

    ghost predicate Separate() {
      groups != children && groups != usageLogs && children != usageLogs && proxy != parent
    }

    // The mutation holds what the calls record.
    ghost predicate Holds(calls: seq<UpdateCall>)
      reads fields, groups, children, usageLogs, proxy, parent
    {
      FieldsHold(calls) && EdgesHold(calls)
    }

    ghost predicate FieldsHold(calls: seq<UpdateCall>)
      reads fields
    {
      forall c :: fields.At(c) == Recorded(IsNumeric(c), FieldCalls(calls, c))
    }

    ghost predicate EdgesHold(calls: seq<UpdateCall>)
      reads groups, children, usageLogs, proxy, parent
    {
      && groups.Now() == After(ManyCalls(calls, GroupsEdge)) && children.Now() == After(ManyCalls(calls, ChildrenEdge))
      && usageLogs.Now() == After(ManyCalls(calls, UsageLogsEdge))
      && proxy.Now() == KeyAfter(KeyCalls(calls, ProxyEdge)) && parent.Now() == KeyAfter(KeyCalls(calls, ParentEdge))
    }

    function ChangesOf(k: EdgeKind): Changes
      reads groups, children, usageLogs, proxy, parent
    {
      match k
      case GroupsEdge => groups.Now()
      case ProxyEdge => AsChanges(proxy.Now())
      case ParentEdge => AsChanges(parent.Now())
      case ChildrenEdge => children.Now()
      case UsageLogsEdge => usageLogs.Now()
    }

    method Do(call: UpdateCall, ghost calls: seq<UpdateCall>)
      requires Separate() && IsOffered(call) && Holds(calls)
      modifies fields, groups, children, usageLogs, proxy, parent
      ensures Holds(calls + [call])
    {
      CallsAppend(calls, call);
      hide EdgesHold, FieldsHold;
      if call.OnField? {
        DoField(call, calls);
        OtherCall(calls, call);
      } else {
        DoEdge(call, calls);
        OtherCall(calls, call);
      }
    }

    // All calls, on a new mutation.
    method DoAll(calls: seq<UpdateCall>)
      requires Separate() && Holds([]) && forall call <- calls :: IsOffered(call)
      modifies fields, groups, children, usageLogs, proxy, parent
      ensures Holds(calls)
    {
      hide Holds;
      for i := 0 to |calls|
        invariant Holds(calls[..i])
      {
        Do(calls[i], calls[..i]);
        assert calls[..i + 1] == calls[..i] + [calls[i]];
      }
      assert calls[..|calls|] == calls;
    }

    // A call on a field changes no edge, and the other way round.
    lemma OtherCall(calls: seq<UpdateCall>, call: UpdateCall)
      ensures !call.OnField? ==> (FieldsHold(calls + [call]) <==> FieldsHold(calls))
      ensures call.OnField? ==> (EdgesHold(calls + [call]) <==> EdgesHold(calls))
    {
      CallsAppend(calls, call);
      assert EdgesAppend(calls, call, GroupsEdge) && EdgesAppend(calls, call, ChildrenEdge);
      assert EdgesAppend(calls, call, UsageLogsEdge);
      assert EdgesAppend(calls, call, ProxyEdge) && EdgesAppend(calls, call, ParentEdge);
      hide Recorded, After, KeyAfter, FieldCalls, ManyCalls, KeyCalls;
      if !call.OnField? {
        forall c ensures Recorded(IsNumeric(c), FieldCalls(calls + [call], c)) == Recorded(IsNumeric(c), FieldCalls(calls, c)) {
          assert FieldsAppend(calls, call, c);
        }
      }
    }

    method DoField(call: UpdateCall, ghost calls: seq<UpdateCall>)
      requires call.OnField? && FieldsHold(calls)
      modifies fields
      ensures FieldsHold(calls + [call])
    {
      CallsAppend(calls, call);
      hide Recorded, Record, FieldCalls;
      fields.Do(call.c, call.field);
      forall c ensures fields.At(c) == Recorded(IsNumeric(c), FieldCalls(calls + [call], c)) {
        assert FieldsAppend(calls, call, c);
      }
    }

    method DoEdge(call: UpdateCall, ghost calls: seq<UpdateCall>)
      requires Separate() && !call.OnField? && IsOffered(call) && EdgesHold(calls)
      modifies groups, children, usageLogs, proxy, parent
      ensures EdgesHold(calls + [call])
    {
      CallsAppend(calls, call);
      assert EdgesAppend(calls, call, GroupsEdge) && EdgesAppend(calls, call, ChildrenEdge);
      assert EdgesAppend(calls, call, UsageLogsEdge);
      assert EdgesAppend(calls, call, ProxyEdge) && EdgesAppend(calls, call, ParentEdge);
      hide After, KeyAfter, Step, KeyStep, ManyCalls, KeyCalls;
      if call.OnMany? {
        var edge := if call.k.GroupsEdge? then groups else if call.k.ChildrenEdge? then children else usageLogs;
        edge.Do(call.many);
      } else {
        var edge := if call.k.ProxyEdge? then proxy else parent;
        edge.Do(call.key);
      }
    }
  }

  // One more call is one more step for its column or edge.
  lemma CallsAppend(calls: seq<UpdateCall>, call: UpdateCall)
    ensures forall c :: FieldsAppend(calls, call, c)
    ensures forall k :: EdgesAppend(calls, call, k)
  {
    forall c ensures FieldsAppend(calls, call, c) {
      assert (calls + [call])[..|calls|] == calls;
      var fs := FieldCalls(calls, c);
      assert fs + [] == fs;
      if call.OnField? && call.c == c { assert (fs + [call.field])[..|fs|] == fs; }
    }
    forall k ensures EdgesAppend(calls, call, k) {
      assert (calls + [call])[..|calls|] == calls;
      var many, keys := ManyCalls(calls, k), KeyCalls(calls, k);
      assert many + [] == many && keys + [] == keys;
      if call.OnMany? && call.k == k { assert (many + [call.many])[..|many|] == many; }
      if call.OnKey? && call.k == k { assert (keys + [call.key])[..|keys|] == keys; }
    }
  }

  ghost predicate FieldsAppend(calls: seq<UpdateCall>, call: UpdateCall, c: Column) {
    var before := Recorded(IsNumeric(c), FieldCalls(calls, c));
    Recorded(IsNumeric(c), FieldCalls(calls + [call], c))
      == if call.OnField? && call.c == c then Record(IsNumeric(c), before, call.field) else before
  }

  ghost predicate EdgesAppend(calls: seq<UpdateCall>, call: UpdateCall, k: EdgeKind) {
    var many, key := After(ManyCalls(calls, k)), KeyAfter(KeyCalls(calls, k));
    && After(ManyCalls(calls + [call], k)) == (if call.OnMany? && call.k == k then Step(many, call.many) else many)
    && KeyAfter(KeyCalls(calls + [call], k)) == (if call.OnKey? && call.k == k then KeyStep(key, call.key) else key)
  }

  // What an update hands to the database: the fields, the edges to clear and to add, and
  // for an update of one row the columns to return.
  datatype UpdateSpec = UpdateSpec(fields: FieldSpec, clear: seq<EdgeSpec>, add: seq<EdgeSpec>, columns: seq<Column>)

  // The spec emits the changes of the mutation.
  ghost predicate Emits(spec: UpdateSpec, m: UpdateMutation, rt: Runtime)
    reads m.fields, m.groups, m.children, m.usageLogs, m.proxy, m.parent
  {
    && spec.fields == m.fields.EmitAll(UpdateColumns)
    && forall k :: EmittedFor(spec.clear, spec.add, k, m.ChangesOf(k), rt)
  }

  // The field part of a spec, column by column: every updatable column is changed as the
  // mutation says, as far as Add and Clear are offered for it, and no other column is.
  ghost predicate ChangesFields(spec: FieldSpec, f: FieldChanges)
    reads f
  {
    forall c :: ChangeIn(spec, c) == if IsUpdatable(c) then Offered(f.At(c), c) else NoChange
  }

  lemma EmittedFields(f: FieldChanges)
    ensures ChangesFields(f.EmitAll(UpdateColumns), f)
  {
    forall c ensures ChangeIn(f.EmitAll(UpdateColumns), c) == if IsUpdatable(c) then Offered(f.At(c), c) else NoChange {
      ChangeOfColumn(f, UpdateColumns, c);
      UpdateColumnsAre(c);
      hide Offered, IsUpdatable;
    }
  }

  // The update of many rows.
  class AccountUpdate {
    const mutation: UpdateMutation

    constructor (mutation: UpdateMutation)
      ensures this.mutation == mutation
    {
      this.mutation := mutation;
    }

    method Edges(rt: Runtime) returns (clear: seq<EdgeSpec>, add: seq<EdgeSpec>)
      ensures forall k :: EmittedFor(clear, add, k, mutation.ChangesOf(k), rt)
    {
      hide Emitted;
      clear, add := [], [];
      clear, add := EmitMany(rt, GroupsEdge, mutation.groups, clear, add);
      clear, add := EmitKey(rt, ProxyEdge, mutation.proxy, clear, add);
      clear, add := EmitKey(rt, ParentEdge, mutation.parent, clear, add);
      clear, add := EmitMany(rt, ChildrenEdge, mutation.children, clear, add);
      clear, add := EmitMany(rt, UsageLogsEdge, mutation.usageLogs, clear, add);
    }

    // The spec of sqlSave, whose columns are all.
    method Spec(rt: Runtime) returns (spec: UpdateSpec)
      ensures Emits(spec, mutation, rt) && ChangesFields(spec.fields, mutation.fields)
      ensures spec.columns == Columns
    {
      hide EmittedFor, ChangesFields;
      EmittedFields(mutation.fields);
      var fields := mutation.fields.EmitFields();
      var clear, add := Edges(rt);
      spec := UpdateSpec(fields, clear, add, Columns);
    }
  }

  // The update of one row.
  class AccountUpdateOne {
    const mutation: UpdateMutation
    var id: Option<int>
    var selected: seq<Column>

    constructor (mutation: UpdateMutation, id: Option<int>, selected: seq<Column>)
      ensures this.mutation == mutation && this.id == id && this.selected == selected
    {
      this.mutation, this.id, this.selected := mutation, id, selected;
    }

    method Edges(rt: Runtime) returns (clear: seq<EdgeSpec>, add: seq<EdgeSpec>)
      ensures forall k :: EmittedFor(clear, add, k, mutation.ChangesOf(k), rt)
    {
      hide Emitted;
      clear, add := [], [];
      clear, add := EmitMany(rt, GroupsEdge, mutation.groups, clear, add);
      clear, add := EmitKey(rt, ProxyEdge, mutation.proxy, clear, add);
      clear, add := EmitKey(rt, ParentEdge, mutation.parent, clear, add);
      clear, add := EmitMany(rt, ChildrenEdge, mutation.children, clear, add);
      clear, add := EmitMany(rt, UsageLogsEdge, mutation.usageLogs, clear, add);
    }

    // The columns to return: all, or the id first and then the selected ones. An invalid
    // one is an error.
    method SelectColumns() returns (r: Result<seq<Column>, Column>)
      ensures r.Err? ==> r.error in selected && !ValidColumn(r.error)
      ensures r.Ok? <==> forall c <- selected :: ValidColumn(c)
      ensures r.Ok? ==> r.value == SelectedColumns(selected, false, false)
      ensures r.Ok? ==> r.value != [] && r.value[0] == FieldID && forall c :: c in r.value <==> AsksFor(selected, c)
    {
      SelectedAsked(selected);
      hide ValidColumn, AsksFor;
      if |selected| == 0 {
        return Ok(Columns);
      }
      var columns := [FieldID];
      for i := 0 to |selected|
        invariant forall k :: 0 <= k < i ==> ValidColumn(selected[k])
        invariant columns == [FieldID] + WithoutID(selected[..i])
      {
        assert selected[..i + 1][..i] == selected[..i];
        if !ValidColumn(selected[i]) {
          return Err(selected[i]);
        }
        if selected[i] != FieldID {
          columns := columns + [selected[i]];
        }
      }
      assert selected[..|selected|] == selected;
      r := Ok(columns);
    }

    // The spec of sqlSave: an id is needed, and the selected fields must be valid.
    method Spec(rt: Runtime) returns (r: Result<UpdateSpec, Option<Column>>)
      ensures r.Ok? <==> id.Some? && forall c <- selected :: ValidColumn(c)
      ensures r.Ok? ==> Emits(r.value, mutation, rt) && ChangesFields(r.value.fields, mutation.fields)
      ensures r.Ok? ==> r.value.columns != [] && r.value.columns[0] == FieldID
      ensures r.Ok? ==> forall c :: c in r.value.columns <==> AsksFor(selected, c)
    {
      hide EmittedFor, ValidColumn, SelectedColumns, AsksFor, ChangesFields;
      EmittedFields(mutation.fields);
      if id.None? {
        return Err(None);
      }
      var columns := SelectColumns();
      if columns.Err? {
        return Err(Some(columns.error));
      }
      var fields := mutation.fields.EmitFields();
      var clear, add := Edges(rt);
      r := Ok(UpdateSpec(fields, clear, add, columns.value));
    }
  }

  lemma SelectedAsked(selected: seq<Column>)
    ensures SelectedColumns(selected, false, false) != [] && SelectedColumns(selected, false, false)[0] == FieldID
    ensures (forall c <- selected :: ValidColumn(c)) ==>
      forall c :: c in SelectedColumns(selected, false, false) <==> AsksFor(selected, c)
  {
    ForestLemmas.SelectedKeys(selected, false, false);
    ValidIsSchema();
    hide SelectedColumns, ValidColumn;
    if forall c <- selected :: ValidColumn(c) {
      forall c ensures c in SelectedColumns(selected, false, false) <==> AsksFor(selected, c) {
        ForestLemmas.SelectedAre(selected, false, false, c);
        assert c in selected ==> ValidColumn(c);
      }
    }
  }

  lemma ValidIsSchema()
    ensures forall c :: ValidColumn(c) <==> !c.Other?
  {
    forall c ensures ValidColumn(c) <==> !c.Other? { ColumnsComplete(c); }
  }

  // The account that the update of one row returns, read from the updated row, has the
  // row's value in every field asked for.
  lemma ReturnedFields(codec: Codec, selected: seq<Column>, columns: seq<Column>, row: Row, c: Column)
    requires Typed(codec, row) && (forall d :: d in columns <==> AsksFor(selected, d)) && AsksFor(selected, c)
    ensures FieldOf(Project(codec, row, columns), c) == Decoded(codec, c, Col(row, c))
  {
    ColumnCallbacksAgree(codec, columns, row, c);
  }

  // Two specs for one mutation - of an update of many rows and of one, say - change the
  // same fields, and the same neighbours over every edge.
  lemma SameChanges(a: UpdateSpec, b: UpdateSpec, m: UpdateMutation, rt: Runtime, k: EdgeKind, nb: set<Int64>)
    requires Emits(a, m, rt) && Emits(b, m, rt)
    ensures a.fields == b.fields
    ensures Executed(a.clear, a.add, k, nb) == Executed(b.clear, b.add, k, nb)
  {
    hide EmittedFor, Executed;
    ExecutedIsSaved(a.clear, a.add, k, m.ChangesOf(k), rt, nb);
    ExecutedIsSaved(b.clear, b.add, k, m.ChangesOf(k), rt, nb);
  }

  // From the builder's calls to the database. On every edge, and on every column with
  // numbers of its type, the executed update does what the calls say exactly when no added
  // id is overtaken by a clear, no key is left behind by a clear of its edge, and the calls
  // on the column do not contradict each other.
  ghost predicate Faithful(spec: UpdateSpec, calls: seq<UpdateCall>) {
    && (forall k, nb :: !RelationOf(k).M2O? ==> ManyFaithful(spec, calls, k, nb))
    && (forall k, key :: RelationOf(k).M2O? ==> OneFaithful(spec, calls, k, key))
    && (forall c, before :: IsUpdatable(c) && Suits(IsNumeric(c), FieldCalls(calls, c), before) ==>
      ColumnFaithful(spec, calls, c, before))
  }

  ghost predicate ManyFaithful(spec: UpdateSpec, calls: seq<UpdateCall>, k: EdgeKind, nb: set<Int64>) {
    Executed(spec.clear, spec.add, k, nb) == Meaning(ManyCalls(calls, k), nb) <==> Overtaken(ManyCalls(calls, k)) == {}
  }

  ghost predicate OneFaithful(spec: UpdateSpec, calls: seq<UpdateCall>, k: EdgeKind, key: Option<Int64>) {
    var keys := KeyCalls(calls, k);
    (Executed(spec.clear, spec.add, k, AsSet(key)) == AsSet(KeyMeaning(keys, key)))
    <==> !(keys != [] && keys[|keys| - 1].ClearEdge? && KeyAfter(keys).id.Some?)
  }

  ghost predicate ColumnFaithful(spec: UpdateSpec, calls: seq<UpdateCall>, c: Column, before: FieldValue) {
    var fs := FieldCalls(calls, c);
    FieldSaved(ChangeIn(spec.fields, c), before) == Some(FieldMeaning(fs, before)) <==> !Contradicts(IsNumeric(c), fs)
  }

  // A whole update: the calls, and the spec that they end in.
  method Update(rt: Runtime, calls: seq<UpdateCall>) returns (spec: UpdateSpec)
    requires forall call <- calls :: IsOffered(call)
    ensures Faithful(spec, calls)
  {
    var m := new UpdateMutation();
    m.DoAll(calls);
    var update := new AccountUpdate(m);
    spec := update.Spec(rt);
    EmittedIsFaithful(spec, m, rt, calls);
  }

  lemma EmittedIsFaithful(spec: UpdateSpec, m: UpdateMutation, rt: Runtime, calls: seq<UpdateCall>)
    requires Emits(spec, m, rt) && m.Holds(calls) && forall call <- calls :: IsOffered(call)
    ensures Faithful(spec, calls)
  {
    hide EmittedFor, ManyFaithful, OneFaithful, ColumnFaithful, Suits, UpdateMutation.Holds;
    forall k, nb: set<Int64> | !RelationOf(k).M2O? ensures ManyFaithful(spec, calls, k, nb) {
      EdgeChangesAre(m, calls, k);
      ManyIsFaithful(spec, calls, k, rt, nb);
    }
    forall k, key: Option<Int64> | RelationOf(k).M2O? ensures OneFaithful(spec, calls, k, key) {
      EdgeChangesAre(m, calls, k);
      OneIsFaithful(spec, calls, k, rt, key);
    }
    forall c, before | IsUpdatable(c) && Suits(IsNumeric(c), FieldCalls(calls, c), before)
      ensures ColumnFaithful(spec, calls, c, before)
    {
      ColumnIsFaithful(spec, m, calls, c, before);
    }
  }

  lemma EdgeChangesAre(m: UpdateMutation, calls: seq<UpdateCall>, k: EdgeKind)
    requires m.Holds(calls)
    ensures m.ChangesOf(k) ==
      if RelationOf(k).M2O? then AsChanges(KeyAfter(KeyCalls(calls, k))) else After(ManyCalls(calls, k))
  {
    hide After, KeyAfter, ManyCalls, KeyCalls;
  }

  lemma ManyIsFaithful(spec: UpdateSpec, calls: seq<UpdateCall>, k: EdgeKind, rt: Runtime, nb: set<Int64>)
    requires !RelationOf(k).M2O? && EmittedFor(spec.clear, spec.add, k, After(ManyCalls(calls, k)), rt)
    ensures ManyFaithful(spec, calls, k, nb)
  {
    hide EmittedFor, Executed, Meaning, After, Overtaken;
    ManyCallsExecuted(spec.clear, spec.add, k, ManyCalls(calls, k), rt, nb);
  }

  lemma OneIsFaithful(spec: UpdateSpec, calls: seq<UpdateCall>, k: EdgeKind, rt: Runtime, key: Option<Int64>)
    requires RelationOf(k).M2O? && EmittedFor(spec.clear, spec.add, k, AsChanges(KeyAfter(KeyCalls(calls, k))), rt)
    ensures OneFaithful(spec, calls, k, key)
  {
    hide EmittedFor, Executed, KeyMeaning, KeyAfter, KeyCalls;
    KeyCallsExecuted(spec.clear, spec.add, k, KeyCalls(calls, k), rt, key);
  }

  lemma ColumnIsFaithful(spec: UpdateSpec, m: UpdateMutation, calls: seq<UpdateCall>, c: Column, before: FieldValue)
    requires spec.fields == m.fields.EmitAll(UpdateColumns) && m.Holds(calls) && forall call <- calls :: IsOffered(call)
    requires IsUpdatable(c) && Suits(IsNumeric(c), FieldCalls(calls, c), before)
    ensures ColumnFaithful(spec, calls, c, before)
  {
    assert m.fields.At(c) == Recorded(IsNumeric(c), FieldCalls(calls, c));
    hide Recorded, FieldCalls, FieldChanges.EmitAll, UpdateMutation.Holds, Suits;
    ChangeOfColumn(m.fields, UpdateColumns, c);
    UpdateColumnsAre(c);
    OfferedCalls(calls, c);
    OfferedRecord(FieldCalls(calls, c), c);
    FieldFaithful(IsNumeric(c), FieldCalls(calls, c), before);
  }

  ghost predicate AllOffered(fs: seq<FieldCall>, c: Column) {
    forall f <- fs :: (f.AddBy? ==> IsNumeric(c)) && (f.ClearIt? ==> IsNillable(c))
  }

  lemma {:induction false} OfferedCalls(calls: seq<UpdateCall>, c: Column)
    requires forall call <- calls :: IsOffered(call)
    ensures AllOffered(FieldCalls(calls, c), c)
    decreases |calls|
  {
    if calls != [] {
      var init, last := calls[..|calls| - 1], calls[|calls| - 1];
      assert calls == init + [last] && last in calls && forall call <- init :: call in calls;
      OfferedCalls(init, c);
    }
  }

  lemma {:induction false} OfferedRecord(fs: seq<FieldCall>, c: Column)
    requires AllOffered(fs, c)
    ensures Offered(Recorded(IsNumeric(c), fs), c) == Recorded(IsNumeric(c), fs)
    decreases |fs|
  {
    if fs != [] {
      var init, last := fs[..|fs| - 1], fs[|fs| - 1];
      assert fs == init + [last] && last in fs && forall f <- init :: f in fs;
      OfferedRecord(init, c);
    }
  }
}
