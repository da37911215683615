// The fields of an update: what the builder's Set, Add and Clear calls record, the field
// changes that the update emits, and when those say what the calls say.
module UpdateFields {
  import opened Common
  import opened AccountSchema

  // ---- one column ------------------------------------------------------------------

  // What the mutation holds for a column: a value to set, a number to add, and whether the
  // column is among the cleared fields.
  datatype Change = Change(set_: Option<FieldValue>, added: Option<SqlValue>, cleared: bool)

  const NoChange: Change := Change(None, None, false)

  datatype FieldCall = SetTo(v: FieldValue) | AddBy(d: SqlValue) | ClearIt

  predicate IsNumeric(c: Column) {
    c.FieldProxyFallbackOriginID? || c.FieldConcurrency? || c.FieldLoadFactor? || c.FieldPriority? || c.FieldRateMultiplier?
  }

  function Plus(a: SqlValue, b: SqlValue): SqlValue {
    match (a, b)
    case (Int(i), Int(j)) => Int(i + j)
    case (Float(x), Float(y)) => Float(x + y)
    case (Null, _) => b
    case _ => a
  }

  // What a call records. Setting a numeric column first resets it; setting another column
  // leaves it among the cleared fields if it is there.
  function Record(numeric: bool, ch: Change, call: FieldCall): Change {
    match call
    case SetTo(v) => if numeric then Change(Some(v), None, false) else ch.(set_ := Some(v))
    case AddBy(d) => ch.(added := Some(if ch.added.Some? then Plus(ch.added.value, d) else d))
    case ClearIt => Change(None, None, true)
  }

  function Recorded(numeric: bool, calls: seq<FieldCall>): Change {
    if calls == [] then NoChange
    else Record(numeric, Recorded(numeric, calls[..|calls| - 1]), calls[|calls| - 1])
  }

  function AddTo(v: FieldValue, d: SqlValue): FieldValue {
    if v.Scalar? then Scalar(Plus(v.v, d)) else v
  }

  // The calls read as commands, one after the other, on the column's value.
  function FieldMeaning(calls: seq<FieldCall>, before: FieldValue): FieldValue {
    if calls == [] then before
    else
      match calls[|calls| - 1]
      case SetTo(v) => v
      case AddBy(d) => AddTo(FieldMeaning(calls[..|calls| - 1], before), d)
      case ClearIt => Scalar(Null)
  }

  // In how many of the spec's lists - set, add, clear - the column is named.
  function Mentioned(ch: Change): nat {
    (if ch.set_.Some? then 1 else 0) + (if ch.added.Some? then 1 else 0) + (if ch.cleared then 1 else 0)
  }

  // The column's value after the update. Which change wins for a column that is named in
  // two lists is up to the database, so that is None.
  function FieldSaved(ch: Change, before: FieldValue): Option<FieldValue> {
    if Mentioned(ch) > 1 then None
    else if ch.set_.Some? then ch.set_
    else if ch.added.Some? then Some(AddTo(before, ch.added.value))
    else if ch.cleared then Some(Scalar(Null))
    else Some(before)
  }

  // The calls leave the column in two lists: a plain column that was once cleared and last
  // set, or a numeric column that was last added to and set or cleared before.
  predicate Contradicts(numeric: bool, calls: seq<FieldCall>) {
    calls != [] &&
    var last := calls[|calls| - 1];
    var init := calls[..|calls| - 1];
    if numeric then last.AddBy? && AnyNonAdd(init) else last.SetTo? && AnyClear(init)
  }

  predicate SameNumber(a: SqlValue, b: SqlValue) { (a.Int? && b.Int?) || (a.Float? && b.Float?) }

  // The calls that the builder offers for a column with the value `before`: Add on numeric
  // columns only, with numbers of the column's type.
  ghost predicate Suits(numeric: bool, calls: seq<FieldCall>, before: FieldValue) {
    forall call <- calls :: call.AddBy? ==>
      && numeric && before.Scalar? && (before.v.Null? || SameNumber(before.v, call.d))
      && forall other <- calls :: other.AddBy? ==> SameNumber(call.d, other.d)
  }

  predicate AnyNonAdd(calls: seq<FieldCall>) { exists call <- calls :: !call.AddBy? }
  predicate AnyClear(calls: seq<FieldCall>) { exists call <- calls :: call.ClearIt? }

  lemma AnyOfMore(init: seq<FieldCall>, last: FieldCall)
    ensures AnyNonAdd(init + [last]) <==> AnyNonAdd(init) || !last.AddBy?
    ensures AnyClear(init + [last]) <==> AnyClear(init) || last.ClearIt?
  {
    var calls := init + [last];
    assert forall call <- calls :: call in init || call == last;
    assert forall call <- init :: call in calls;
    assert last in calls;
  }

  // What the record of a column holds: for a numeric one, an amount if the last call is an
  // Add, and a value or the clear if any call is not; for a plain one, a value if the last
  // call is a Set, and the clear if any call is one.
  lemma {:induction false} RecordedShape(numeric: bool, calls: seq<FieldCall>)
    requires !numeric ==> forall call <- calls :: !call.AddBy?
    ensures
      var ch := Recorded(numeric, calls);
      if numeric then
        && (ch.added.Some? <==> calls != [] && calls[|calls| - 1].AddBy?)
        && (ch.set_.Some? || ch.cleared <==> AnyNonAdd(calls)) && !(ch.set_.Some? && ch.cleared)
      else
        && ch.added.None? && (ch.set_.Some? <==> calls != [] && calls[|calls| - 1].SetTo?)
        && (ch.cleared <==> AnyClear(calls))
    decreases |calls|
  {
    if calls != [] {
      var init, last := calls[..|calls| - 1], calls[|calls| - 1];
      assert calls == init + [last] && forall call <- init :: call in calls;
      assert last in calls;
      AnyOfMore(init, last);
      hide AnyNonAdd, AnyClear;
      RecordedShape(numeric, init);
    }
  }

  lemma {:induction false} SuitsLess(numeric: bool, calls: seq<FieldCall>, before: FieldValue)
    requires calls != [] && Suits(numeric, calls, before)
    ensures Suits(numeric, calls[..|calls| - 1], before)
  {
    var init := calls[..|calls| - 1];
    assert calls == init + [calls[|calls| - 1]] && forall call <- init :: call in calls;
  }

  // The amount that is recorded is a number of the same type as those of the calls.
  lemma {:induction false} RecordedAmount(numeric: bool, calls: seq<FieldCall>, before: FieldValue)
    requires Suits(numeric, calls, before)
    ensures Recorded(numeric, calls).added.Some? ==>
      exists call <- calls :: call.AddBy? && SameNumber(call.d, Recorded(numeric, calls).added.value)
    decreases |calls|
  {
    if calls != [] {
      var init, last := calls[..|calls| - 1], calls[|calls| - 1];
      assert calls == init + [last] && forall call <- init :: call in calls;
      assert last in calls;
      SuitsLess(numeric, calls, before);
      RecordedAmount(numeric, init, before);
    }
  }

  // A column that the record names once is saved as the calls say.
  lemma {:induction false} SavedAsMeant(numeric: bool, calls: seq<FieldCall>, before: FieldValue)
    requires Suits(numeric, calls, before) && Mentioned(Recorded(numeric, calls)) <= 1
    ensures FieldSaved(Recorded(numeric, calls), before) == Some(FieldMeaning(calls, before))
    decreases |calls|
  {
    if calls != [] {
      var init, last := calls[..|calls| - 1], calls[|calls| - 1];
      assert last in calls && forall call <- init :: call in calls;
      SuitsLess(numeric, calls, before);
      if last.AddBy? {
        RecordedAmount(numeric, init, before);
        SavedAsMeant(numeric, init, before);
      }
    }
  }

  function Sum(ns: seq<int>): int { if ns == [] then 0 else Sum(ns[..|ns| - 1]) + ns[|ns| - 1] }

  // Adding numbers to a column that holds one, in any number of calls, saves their sum with
  // it; a column without a number gets the sum.
  lemma {:induction false} AddedSum(ns: seq<int>, calls: seq<FieldCall>, before: SqlValue)
    requires |calls| == |ns| && ns != [] && forall i :: 0 <= i < |ns| ==> calls[i] == AddBy(Int(ns[i]))
    requires before.Int? || before.Null?
    ensures Recorded(true, calls) == Change(None, Some(Int(Sum(ns))), false)
    ensures FieldSaved(Recorded(true, calls), Scalar(before))
      == Some(Scalar(Int(Sum(ns) + if before.Int? then before.i else 0)))
    decreases |ns|
  {
    var n := |ns| - 1;
    if n > 0 {
      AddedSum(ns[..n], calls[..n], before);
    } else {
      assert ns[..0] == [] && calls[..0] == [];
    }
  }

  function SumOf(xs: seq<real>): real { if xs == [] then 0.0 else SumOf(xs[..|xs| - 1]) + xs[|xs| - 1] }

  lemma {:induction false} AddedSumOf(xs: seq<real>, calls: seq<FieldCall>, before: SqlValue)
    requires |calls| == |xs| && xs != [] && forall i :: 0 <= i < |xs| ==> calls[i] == AddBy(Float(xs[i]))
    requires before.Float? || before.Null?
    ensures Recorded(true, calls) == Change(None, Some(Float(SumOf(xs))), false)
    ensures FieldSaved(Recorded(true, calls), Scalar(before))
      == Some(Scalar(Float(SumOf(xs) + if before.Float? then before.r else 0.0)))
    decreases |xs|
  {
    var n := |xs| - 1;
    if n > 0 {
      AddedSumOf(xs[..n], calls[..n], before);
    } else {
      assert xs[..0] == [] && calls[..0] == [];
    }
  }

  // An update of a column does what its calls say exactly when they do not contradict
  // each other.
  lemma FieldFaithful(numeric: bool, calls: seq<FieldCall>, before: FieldValue)
    requires Suits(numeric, calls, before)
    ensures FieldSaved(Recorded(numeric, calls), before) == Some(FieldMeaning(calls, before))
      <==> !Contradicts(numeric, calls)
  {
    assert !numeric ==> forall call <- calls :: !call.AddBy?;
    RecordedShape(numeric, calls);
    if calls != [] {
      var init, last := calls[..|calls| - 1], calls[|calls| - 1];
      assert calls == init + [last];
      AnyOfMore(init, last);
    }
    if Mentioned(Recorded(numeric, calls)) <= 1 { SavedAsMeant(numeric, calls, before); }
    hide Recorded, FieldMeaning, Suits;
  }

  // For example: Clear and then Set of a plain column leave both in the update, while Set
  // of a numeric column undoes the Clear.
  lemma SetAfterClear(v: FieldValue, before: FieldValue)
    ensures Recorded(false, [ClearIt, SetTo(v)]) == Change(Some(v), None, true)
    ensures FieldSaved(Recorded(false, [ClearIt, SetTo(v)]), before) == None
    ensures FieldSaved(Recorded(true, [ClearIt, SetTo(v)]), before) == Some(v)
  {
    var calls := [ClearIt, SetTo(v)];
    assert calls[..1] == [ClearIt] && [ClearIt][..0] == [];
    assert forall numeric :: Recorded(numeric, [ClearIt]) == Change(None, None, true);
  }

  // ---- the update spec -------------------------------------------------------------

  // The columns of an update, in the order in which it looks at them. Only some can be
  // cleared.
  const UpdateColumns: seq<Column> := UpdateColumns1 + UpdateColumns2 + UpdateColumns3 + UpdateColumns4

  const UpdateColumns1: seq<Column> := [
    FieldUpdatedAt, FieldDeletedAt, FieldName, FieldNotes,
    FieldPlatform, FieldType, FieldCredentials
  ]

  const UpdateColumns2: seq<Column> := [
    FieldExtra, FieldProxyFallbackOriginID, FieldConcurrency, FieldLoadFactor,
    FieldPriority, FieldRateMultiplier, FieldStatus
  ]

  const UpdateColumns3: seq<Column> := [
    FieldErrorMessage, FieldLastUsedAt, FieldExpiresAt, FieldAutoPauseOnExpired,
    FieldSchedulable, FieldRateLimitedAt, FieldRateLimitResetAt
  ]

  const UpdateColumns4: seq<Column> := [
    FieldOverloadUntil, FieldTempUnschedulableUntil, FieldTempUnschedulableReason, FieldSessionWindowStart,
    FieldSessionWindowEnd, FieldSessionWindowStatus, FieldQuotaDimension
  ]

  predicate IsNillable(c: Column) {
    match c
    case FieldDeletedAt | FieldNotes | FieldProxyFallbackOriginID | FieldLoadFactor | FieldErrorMessage |
      FieldLastUsedAt | FieldExpiresAt | FieldRateLimitedAt | FieldRateLimitResetAt | FieldOverloadUntil |
      FieldTempUnschedulableUntil | FieldTempUnschedulableReason | FieldSessionWindowStart |
      FieldSessionWindowEnd | FieldSessionWindowStatus => true
    case _ => false
  }

  // An update can change every column of the table except the id, the time of creation and
  // the two foreign keys, which are changed over their edges.
  predicate IsUpdatable(c: Column) {
    !c.Other? && c !in {FieldID, FieldCreatedAt, FieldProxyID, FieldParentAccountID}
  }

  lemma UpdateColumnsAre(c: Column)
    ensures c in UpdateColumns <==> IsUpdatable(c)
  {
    assert c in UpdateColumns <==> c in UpdateColumns1 || c in UpdateColumns2 || c in UpdateColumns3 || c in UpdateColumns4;
  }

  // A column can be cleared exactly when the entity holds it by pointer, and added to
  // exactly when it is a number.
  lemma OfferedCallsAre(c: Column)
    ensures IsNillable(c) <==> IsUpdatable(c) && FieldOf(ZeroFields, c) == Scalar(Null)
    ensures IsNumeric(c) <==> IsUpdatable(c) && (KindOf(c).KInt64? || KindOf(c).KFloat64?)
  {
  }

  datatype SetTerm = SetTerm(c: Column, v: FieldValue)
  datatype AddTerm = AddTerm(c: Column, d: SqlValue)

  // _spec.Fields: its lists Set, Add and Clear.
  datatype FieldSpec = FieldSpec(set_: seq<SetTerm>, add: seq<AddTerm>, clear: seq<Column>)

  const NoTerms: FieldSpec := FieldSpec([], [], [])

  function Both(a: FieldSpec, b: FieldSpec): FieldSpec {
    FieldSpec(a.set_ + b.set_, a.add + b.add, a.clear + b.clear)
  }

  // The part of the mutation that holds the fields.
  class FieldChanges {
    var changes: map<Column, Change>

    constructor ()
      ensures changes == map[]
    {
      changes := map[];
    }

    function At(c: Column): Change
      reads this
    {
      if c in changes then changes[c] else NoChange
    }

    method Do(c: Column, call: FieldCall)
      modifies this
      ensures At(c) == Record(IsNumeric(c), old(At(c)), call)
      ensures forall d :: d != c ==> At(d) == old(At(d))
    {
      match call {
        case SetTo(v) =>
          if IsNumeric(c) {
            changes := changes - {c};
            changes := changes[c := Change(Some(v), None, false)];
          } else {
            changes := changes[c := At(c).(set_ := Some(v))];
          }
        case AddBy(d) =>
          if At(c).added.Some? {
            changes := changes[c := At(c).(added := Some(Plus(At(c).added.value, d)))];
          } else {
            changes := changes[c := At(c).(added := Some(d))];
          }
        case ClearIt =>
          changes := changes[c := Change(None, None, true)];
      }
    }

    // What the columns look at adds for one column.
    function Emit(c: Column): FieldSpec
      reads this
    {
      var ch := At(c);
      FieldSpec(
        if ch.set_.Some? then [SetTerm(c, ch.set_.value)] else [],
        if IsNumeric(c) && ch.added.Some? then [AddTerm(c, ch.added.value)] else [],
        if IsNillable(c) && ch.cleared then [c] else [])
    }

    function EmitAll(cs: seq<Column>): FieldSpec
      reads this
    {
      if cs == [] then NoTerms
      else
        Both(EmitAll(cs[..|cs| - 1]), Emit(cs[|cs| - 1]))
    }

    // The statements of the update for one column.
    method EmitField(c: Column, spec: FieldSpec, ghost cs: seq<Column>) returns (spec': FieldSpec, ghost cs': seq<Column>)
      requires spec == EmitAll(cs)
      ensures cs' == cs + [c] && spec' == EmitAll(cs')
    {
      assert (cs + [c])[..|cs|] == cs;
      spec', cs' := spec, cs + [c];
      var ch := At(c);
      if ch.set_.Some? {
        spec' := spec'.(set_ := spec'.set_ + [SetTerm(c, ch.set_.value)]);
      }
      if IsNumeric(c) && ch.added.Some? {
        spec' := spec'.(add := spec'.add + [AddTerm(c, ch.added.value)]);
      }
      if IsNillable(c) && ch.cleared {
        spec' := spec'.(clear := spec'.clear + [c]);
      }
    }

    // The field part of both updates.
    method EmitFields() returns (spec: FieldSpec)
      ensures spec == EmitAll(UpdateColumns)
    {
      assert [] + UpdateColumns1 == UpdateColumns1;
      spec := EmitFields1(NoTerms, []);
      spec := EmitFields2(spec, UpdateColumns1);
      spec := EmitFields3(spec, UpdateColumns1 + UpdateColumns2);
      spec := EmitFields4(spec, UpdateColumns1 + UpdateColumns2 + UpdateColumns3);
    }

    method EmitFields1(spec: FieldSpec, ghost cs: seq<Column>) returns (spec': FieldSpec)
      requires spec == EmitAll(cs)
      ensures spec' == EmitAll(cs + UpdateColumns1)
    {
      hide EmitAll;
      ghost var cs' := cs;
      spec' := spec;
      spec', cs' := EmitField(FieldUpdatedAt, spec', cs');
      spec', cs' := EmitField(FieldDeletedAt, spec', cs');
      spec', cs' := EmitField(FieldName, spec', cs');
      spec', cs' := EmitField(FieldNotes, spec', cs');
      spec', cs' := EmitField(FieldPlatform, spec', cs');
      spec', cs' := EmitField(FieldType, spec', cs');
      spec', cs' := EmitField(FieldCredentials, spec', cs');
      assert cs' == cs + UpdateColumns1;
    }

    method EmitFields2(spec: FieldSpec, ghost cs: seq<Column>) returns (spec': FieldSpec)
      requires spec == EmitAll(cs)
      ensures spec' == EmitAll(cs + UpdateColumns2)
    {
      hide EmitAll;
      ghost var cs' := cs;
      spec' := spec;
      spec', cs' := EmitField(FieldExtra, spec', cs');
      spec', cs' := EmitField(FieldProxyFallbackOriginID, spec', cs');
      spec', cs' := EmitField(FieldConcurrency, spec', cs');
      spec', cs' := EmitField(FieldLoadFactor, spec', cs');
      spec', cs' := EmitField(FieldPriority, spec', cs');
      spec', cs' := EmitField(FieldRateMultiplier, spec', cs');
      spec', cs' := EmitField(FieldStatus, spec', cs');
      assert cs' == cs + UpdateColumns2;
    }

    method EmitFields3(spec: FieldSpec, ghost cs: seq<Column>) returns (spec': FieldSpec)
      requires spec == EmitAll(cs)
      ensures spec' == EmitAll(cs + UpdateColumns3)
    {
      hide EmitAll;
      ghost var cs' := cs;
      spec' := spec;
      spec', cs' := EmitField(FieldErrorMessage, spec', cs');
      spec', cs' := EmitField(FieldLastUsedAt, spec', cs');
      spec', cs' := EmitField(FieldExpiresAt, spec', cs');
      spec', cs' := EmitField(FieldAutoPauseOnExpired, spec', cs');
      spec', cs' := EmitField(FieldSchedulable, spec', cs');
      spec', cs' := EmitField(FieldRateLimitedAt, spec', cs');
      spec', cs' := EmitField(FieldRateLimitResetAt, spec', cs');
      assert cs' == cs + UpdateColumns3;
    }

    method EmitFields4(spec: FieldSpec, ghost cs: seq<Column>) returns (spec': FieldSpec)
      requires spec == EmitAll(cs)
      ensures spec' == EmitAll(cs + UpdateColumns4)
    {
      hide EmitAll;
      ghost var cs' := cs;
      spec' := spec;
      spec', cs' := EmitField(FieldOverloadUntil, spec', cs');
      spec', cs' := EmitField(FieldTempUnschedulableUntil, spec', cs');
      spec', cs' := EmitField(FieldTempUnschedulableReason, spec', cs');
      spec', cs' := EmitField(FieldSessionWindowStart, spec', cs');
      spec', cs' := EmitField(FieldSessionWindowEnd, spec', cs');
      spec', cs' := EmitField(FieldSessionWindowStatus, spec', cs');
      spec', cs' := EmitField(FieldQuotaDimension, spec', cs');
      assert cs' == cs + UpdateColumns4;
    }
  }

  // ---- what the spec does to a column ----------------------------------------------

  function FindSet(terms: seq<SetTerm>, c: Column): Option<FieldValue> {
    if terms == [] then None
    else if terms[|terms| - 1].c == c then Some(terms[|terms| - 1].v)
    else FindSet(terms[..|terms| - 1], c)
  }

  function FindAdd(terms: seq<AddTerm>, c: Column): Option<SqlValue> {
    if terms == [] then None
    else if terms[|terms| - 1].c == c then Some(terms[|terms| - 1].d)
    else FindAdd(terms[..|terms| - 1], c)
  }

  // How the spec changes the column.
  function ChangeIn(spec: FieldSpec, c: Column): Change {
    Change(FindSet(spec.set_, c), FindAdd(spec.add, c), c in spec.clear)
  }

  lemma MoreSet(sets: seq<SetTerm>, more: seq<SetTerm>, c: Column, d: Column)
    requires |more| <= 1 && (more != [] ==> more[0].c == d)
    ensures FindSet(sets + more, c) == if c == d && more != [] then Some(more[0].v) else FindSet(sets, c)
  {
    if more == [] {
      assert sets + more == sets;
    } else {
      assert (sets + more)[..|sets|] == sets;
    }
  }

  lemma MoreAdd(adds: seq<AddTerm>, more: seq<AddTerm>, c: Column, d: Column)
    requires |more| <= 1 && (more != [] ==> more[0].c == d)
    ensures FindAdd(adds + more, c) == if c == d && more != [] then Some(more[0].d) else FindAdd(adds, c)
  {
    if more == [] {
      assert adds + more == adds;
    } else {
      assert (adds + more)[..|adds|] == adds;
    }
  }

  // The spec changes the columns that were looked at as recorded, as far as Add and Clear
  // are offered for them, and no other column.
  lemma {:induction false} ChangeOfColumn(m: FieldChanges, cs: seq<Column>, c: Column)
    ensures ChangeIn(m.EmitAll(cs), c) == if c in cs then Offered(m.At(c), c) else NoChange
    decreases |cs|
  {
    hide IsNumeric, IsNillable, ChangeIn, Both, Offered, FieldChanges.At, FieldChanges.Emit;
    if cs == [] {
      NoTermsNoChange(c);
    } else {
      var init, d := cs[..|cs| - 1], cs[|cs| - 1];
      ChangeOfColumn(m, init, c);
      assert cs == init + [d];
      ChangeOfBoth(m, m.EmitAll(init), c, d);
    }
  }

  lemma NoTermsNoChange(c: Column)
    ensures ChangeIn(NoTerms, c) == NoChange
  {
  }

  lemma ChangeOfBoth(m: FieldChanges, spec: FieldSpec, c: Column, d: Column)
    ensures
      var before, after, ch := ChangeIn(spec, c), ChangeIn(Both(spec, m.Emit(d)), c), Offered(m.At(d), d);
      after == if c != d then before
        else Change(if ch.set_.Some? then ch.set_ else before.set_, if ch.added.Some? then ch.added else before.added,
          ch.cleared || before.cleared)
  {
    hide IsNumeric, IsNillable, FindSet, FindAdd;
    MoreSet(spec.set_, m.Emit(d).set_, c, d);
    MoreAdd(spec.add, m.Emit(d).add, c, d);
  }

  // The part of a change that the builder offers for the column.
  function Offered(ch: Change, c: Column): Change {
    Change(ch.set_, if IsNumeric(c) then ch.added else None, IsNillable(c) && ch.cleared)
  }
}
