// Creating and reading back: the row that the database stores for a spec, read through
// scanValues and assignValues, is the node that createSpec returned.
module CreateReading {
  import opened Common
  import opened AccountSchema
  import opened AccountEntity
  import opened AccountMutations
  import opened CreateSpecs
  import opened GroupLinks

  // ---- the stored row --------------------------------------------------------------

  // The edge of a kind in the spec.
  function FindEdge(edges: seq<EdgeSpec>, k: EdgeKind): Option<EdgeSpec> {
    if edges == [] then None
    else if edges[|edges| - 1].kind == k then Some(edges[|edges| - 1])
    else FindEdge(edges[..|edges| - 1], k)
  }

  // The foreign key that a many-to-one edge stores in the row: its first node.
  function StoredKey(edges: seq<EdgeSpec>, k: EdgeKind): SqlValue {
    match FindEdge(edges, k)
    case None => Null
    case Some(e) => if e.nodes == [] then Null else Int(e.nodes[0])
  }

  // What the insert stores in column c of the row with the generated id.
  function Stored(codec: Codec, spec: Spec, id: int, c: Column): SqlValue {
    if c.FieldID? then Int(id)
    else if c.FieldProxyID? then StoredKey(spec.edges, ProxyEdge)
    else if c.FieldParentAccountID? then StoredKey(spec.edges, ParentEdge)
    else
      match FieldIn(spec.fields, c)
      case Some(Scalar(v)) => v
      case Some(Document(d)) => Text(codec.marshal(d))
      case _ => Null
  }

  function RowOf(codec: Codec, spec: Spec, id: int): Row {
    map c | c in Columns :: Stored(codec, spec, id, c)
  }

  // ---- the edges of the spec -------------------------------------------------------

  function KindIndex(k: EdgeKind): nat {
    match k
    case GroupsEdge => 0
    case ProxyEdge => 1
    case ParentEdge => 2
    case ChildrenEdge => 3
    case UsageLogsEdge => 4
  }

  // The spec has an edge of each kind exactly when the mutation has ids for it, and it
  // lists those ids.
  lemma {:induction false} EdgeOfKind(rt: Runtime, m: Mutation, edges: seq<EdgeSpec>, n: nat, k: EdgeKind)
    requires n <= |EdgeKinds| && EdgesFor(edges, m, rt, n)
    ensures FindEdge(edges, k).Some? <==> KindIndex(k) < n && EdgeIDs(m, k) != {}
    ensures FindEdge(edges, k).Some? ==> Lists(FindEdge(edges, k).value.nodes, EdgeIDs(m, k))
    ensures FindEdge(edges, k).Some? && k.GroupsEdge? ==>
      FindEdge(edges, k).value.join == Some(JoinFields(rt.joinPriority, rt.joinCreatedAt))
    decreases n
  {
    hide Lists, EdgeIDs;
    if n > 0 {
      assert EdgeKinds[n - 1] == k <==> KindIndex(k) == n - 1;
      if EdgeIDs(m, EdgeKinds[n - 1]) == {} {
        EdgeOfKind(rt, m, edges, n - 1, k);
      } else {
        EdgeOfKind(rt, m, edges[..|edges| - 1], n - 1, k);
      }
    }
  }

  // So the spec of a mutation has an edge for its groups, its proxy, its parent, its
  // children and its usage logs, exactly when it has any, with exactly those ids; and the
  // groups edge has the two defaults of its join rows.
  lemma EdgesOfSpec(rt: Runtime, m: Mutation, node: AccountFields, spec: Spec)
    requires IsSpecOf(rt, m, node, spec)
    ensures EdgeLists(spec.edges, GroupsEdge, m.groups)
    ensures EdgeLists(spec.edges, ProxyEdge, if m.proxy.Some? then {m.proxy.value} else {})
    ensures EdgeLists(spec.edges, ParentEdge, if m.parent.Some? then {m.parent.value} else {})
    ensures EdgeLists(spec.edges, ChildrenEdge, m.children) && EdgeLists(spec.edges, UsageLogsEdge, m.usageLogs)
    ensures m.groups != {} ==>
      FindEdge(spec.edges, GroupsEdge).value.join == Some(JoinFields(rt.joinPriority, rt.joinCreatedAt))
  {
    EdgeOfKind(rt, m, spec.edges, |EdgeKinds|, GroupsEdge);
    EdgeOfKind(rt, m, spec.edges, |EdgeKinds|, ProxyEdge);
    EdgeOfKind(rt, m, spec.edges, |EdgeKinds|, ParentEdge);
    EdgeOfKind(rt, m, spec.edges, |EdgeKinds|, ChildrenEdge);
    EdgeOfKind(rt, m, spec.edges, |EdgeKinds|, UsageLogsEdge);
    hide Lists, EdgesFor;
  }

  ghost predicate EdgeLists(edges: seq<EdgeSpec>, k: EdgeKind, ids: set<Int64>) {
    && (FindEdge(edges, k).Some? <==> ids != {})
    && (ids != {} ==> Lists(FindEdge(edges, k).value.nodes, ids))
  }

  lemma KeyStored(rt: Runtime, m: Mutation, spec: Spec, node: AccountFields)
    requires IsSpecOf(rt, m, node, spec)
    ensures Scalar(StoredKey(spec.edges, ProxyEdge)) == OptInt(m.proxy)
    ensures Scalar(StoredKey(spec.edges, ParentEdge)) == OptInt(m.parent)
  {
    EdgeOfKind(rt, m, spec.edges, |EdgeKinds|, ProxyEdge);
    EdgeOfKind(rt, m, spec.edges, |EdgeKinds|, ParentEdge);
    ListsOne(spec.edges, m, ProxyEdge);
    ListsOne(spec.edges, m, ParentEdge);
  }

  lemma ListsOne(edges: seq<EdgeSpec>, m: Mutation, k: EdgeKind)
    requires k.ProxyEdge? || k.ParentEdge?
    requires FindEdge(edges, k).Some? ==> Lists(FindEdge(edges, k).value.nodes, EdgeIDs(m, k))
    ensures FindEdge(edges, k).Some? && EdgeIDs(m, k) != {} ==>
      FindEdge(edges, k).value.nodes != [] && EdgeIDs(m, k) == {FindEdge(edges, k).value.nodes[0]}
  {
    if FindEdge(edges, k).Some? && EdgeIDs(m, k) != {} {
      var nodes := FindEdge(edges, k).value.nodes;
      var id := if k.ProxyEdge? then m.proxy.value else m.parent.value;
      assert id in EdgeIDs(m, k);
      assert id in nodes;
      assert nodes[0] in nodes;
    }
  }

  // ---- the round trip --------------------------------------------------------------

  // What the insert stores for a field that is no key.
  function StoredField(codec: Codec, v: Option<FieldValue>): SqlValue {
    match v
    case Some(Scalar(v)) => v
    case Some(Document(d)) => Text(codec.marshal(d))
    case _ => Null
  }

  ghost predicate Survives(codec: Codec, m: Mutation, c: Column) {
    var stored := StoredField(codec, Written(m, c));
    && Holds(codec, c, stored)
    && Decoded(codec, c, stored) == if Written(m, c).Some? then Written(m, c).value else FieldOf(ZeroFields, c)
  }

  lemma TimeSurvives(codec: Codec, m: Mutation, c: Column)
    requires KindOf(c).KTime?
    ensures Survives(codec, m, c)
  {
  }

  lemma TextSurvives(codec: Codec, m: Mutation, c: Column)
    requires KindOf(c).KString?
    ensures Survives(codec, m, c)
  {
  }

  lemma IntSurvives(codec: Codec, m: Mutation, c: Column)
    requires KindOf(c).KInt64?
    ensures Survives(codec, m, c)
  {
  }

  lemma OtherSurvives(codec: Codec, m: Mutation, c: Column)
    requires Invertible(codec) && (KindOf(c).KJSON? || KindOf(c).KBool? || KindOf(c).KFloat64?)
    ensures Survives(codec, m, c)
  {
  }

  // Every field value survives being stored and decoded.
  lemma FieldSurvives(codec: Codec, m: Mutation, c: Column)
    requires Invertible(codec) && !c.Other?
    ensures Survives(codec, m, c)
  {
    hide Survives;
    match KindOf(c) {
      case KTime => TimeSurvives(codec, m, c);
      case KString => TextSurvives(codec, m, c);
      case KInt64 => IntSurvives(codec, m, c);
      case _ => OtherSurvives(codec, m, c);
    }
  }

  // Every stored cell fits its column, and decodes to the node's field.
  lemma CellRoundTrip(codec: Codec, rt: Runtime, m: Mutation, node: AccountFields, spec: Spec, id: int, c: Column)
    requires Invertible(codec) && IsSpecOf(rt, m, node, spec) && !c.Other?
    ensures Holds(codec, c, Stored(codec, spec, id, c))
    ensures Decoded(codec, c, Stored(codec, spec, id, c)) == FieldOf(node.(id := id), c)
  {
    KeyStored(rt, m, spec, node);
    NodeOfField(m, c);
    FieldSurvives(codec, m, c);
    IDField(node, id, c);
    if c.FieldID? || c.FieldProxyID? || c.FieldParentAccountID? {
      hide EdgesFor, NodeOf, FindEdge, StoredKey, Survives, Written;
    } else {
      hide EdgesFor, NodeOf, FindEdge, StoredKey, Holds, Decoded, Written, FieldOf;
    }
  }

  // Setting the id changes no other field.
  lemma IDField(node: AccountFields, id: int, c: Column)
    ensures FieldOf(node.(id := id), c) == if c.FieldID? then Scalar(Int(id)) else FieldOf(node, c)
  {
  }

  // Reading only columns of the schema collects no extra values.
  lemma {:induction false} NothingSelected(codec: Codec, columns: seq<Column>, values: seq<Container>, n: nat)
    requires n <= |columns| <= |values| && forall i :: 0 <= i < n ==> !columns[i].Other?
    ensures AssignPrefix(codec, ZeroFields, columns, values, n).0.selected == map[]
  {
    if n > 0 { NothingSelected(codec, columns, values, n - 1); }
  }

  lemma SameFields1(f: AccountFields, g: AccountFields)
    requires FieldOf(f, FieldID) == FieldOf(g, FieldID)
    requires FieldOf(f, FieldCreatedAt) == FieldOf(g, FieldCreatedAt)
    requires FieldOf(f, FieldUpdatedAt) == FieldOf(g, FieldUpdatedAt)
    requires FieldOf(f, FieldDeletedAt) == FieldOf(g, FieldDeletedAt)
    requires FieldOf(f, FieldName) == FieldOf(g, FieldName)
    requires FieldOf(f, FieldNotes) == FieldOf(g, FieldNotes)
    requires FieldOf(f, FieldPlatform) == FieldOf(g, FieldPlatform)
    requires FieldOf(f, FieldType) == FieldOf(g, FieldType)
    requires FieldOf(f, FieldCredentials) == FieldOf(g, FieldCredentials)
    requires FieldOf(f, FieldExtra) == FieldOf(g, FieldExtra)
    requires FieldOf(f, FieldProxyID) == FieldOf(g, FieldProxyID)
    requires FieldOf(f, FieldProxyFallbackOriginID) == FieldOf(g, FieldProxyFallbackOriginID)
    requires FieldOf(f, FieldConcurrency) == FieldOf(g, FieldConcurrency)
    requires FieldOf(f, FieldLoadFactor) == FieldOf(g, FieldLoadFactor)
    requires FieldOf(f, FieldPriority) == FieldOf(g, FieldPriority)
    requires FieldOf(f, FieldRateMultiplier) == FieldOf(g, FieldRateMultiplier)
    ensures f.id == g.id
    ensures f.createdAt == g.createdAt
    ensures f.updatedAt == g.updatedAt
    ensures f.deletedAt == g.deletedAt
    ensures f.name == g.name
    ensures f.notes == g.notes
    ensures f.platform == g.platform
    ensures f.accountType == g.accountType
    ensures f.credentials == g.credentials
    ensures f.extra == g.extra
    ensures f.proxyID == g.proxyID
    ensures f.proxyFallbackOriginID == g.proxyFallbackOriginID
    ensures f.concurrency == g.concurrency
    ensures f.loadFactor == g.loadFactor
    ensures f.priority == g.priority
    ensures f.rateMultiplier == g.rateMultiplier
  {
  }

  lemma SameFields2(f: AccountFields, g: AccountFields)
    requires FieldOf(f, FieldStatus) == FieldOf(g, FieldStatus)
    requires FieldOf(f, FieldErrorMessage) == FieldOf(g, FieldErrorMessage)
    requires FieldOf(f, FieldLastUsedAt) == FieldOf(g, FieldLastUsedAt)
    requires FieldOf(f, FieldExpiresAt) == FieldOf(g, FieldExpiresAt)
    requires FieldOf(f, FieldAutoPauseOnExpired) == FieldOf(g, FieldAutoPauseOnExpired)
    requires FieldOf(f, FieldSchedulable) == FieldOf(g, FieldSchedulable)
    ensures f.status == g.status
    ensures f.errorMessage == g.errorMessage
    ensures f.lastUsedAt == g.lastUsedAt
    ensures f.expiresAt == g.expiresAt
    ensures f.autoPauseOnExpired == g.autoPauseOnExpired
    ensures f.schedulable == g.schedulable
  {
  }

  lemma SameFields3(f: AccountFields, g: AccountFields)
    requires FieldOf(f, FieldRateLimitedAt) == FieldOf(g, FieldRateLimitedAt)
    requires FieldOf(f, FieldRateLimitResetAt) == FieldOf(g, FieldRateLimitResetAt)
    requires FieldOf(f, FieldOverloadUntil) == FieldOf(g, FieldOverloadUntil)
    requires FieldOf(f, FieldTempUnschedulableUntil) == FieldOf(g, FieldTempUnschedulableUntil)
    requires FieldOf(f, FieldTempUnschedulableReason) == FieldOf(g, FieldTempUnschedulableReason)
    ensures f.rateLimitedAt == g.rateLimitedAt
    ensures f.rateLimitResetAt == g.rateLimitResetAt
    ensures f.overloadUntil == g.overloadUntil
    ensures f.tempUnschedulableUntil == g.tempUnschedulableUntil
    ensures f.tempUnschedulableReason == g.tempUnschedulableReason
  {
  }

  lemma SameFields4(f: AccountFields, g: AccountFields)
    requires FieldOf(f, FieldSessionWindowStart) == FieldOf(g, FieldSessionWindowStart)
    requires FieldOf(f, FieldSessionWindowEnd) == FieldOf(g, FieldSessionWindowEnd)
    requires FieldOf(f, FieldSessionWindowStatus) == FieldOf(g, FieldSessionWindowStatus)
    requires FieldOf(f, FieldParentAccountID) == FieldOf(g, FieldParentAccountID)
    requires FieldOf(f, FieldQuotaDimension) == FieldOf(g, FieldQuotaDimension)
    ensures f.sessionWindowStart == g.sessionWindowStart
    ensures f.sessionWindowEnd == g.sessionWindowEnd
    ensures f.sessionWindowStatus == g.sessionWindowStatus
    ensures f.parentAccountID == g.parentAccountID
    ensures f.quotaDimension == g.quotaDimension
  {
  }

  // The fields, column by column, are the whole record.
  lemma SameFields(f: AccountFields, g: AccountFields)
    requires f.selected == g.selected && forall c :: FieldOf(f, c) == FieldOf(g, c)
    ensures f == g
  {
    hide FieldOf;
    SameFields1(f, g);
    SameFields2(f, g);
    SameFields3(f, g);
    SameFields4(f, g);
  }

  // For every mutation: the row stored for its spec fits the schema, and reading all its
  // columns rebuilds the returned node, now with the generated id.
  lemma CreateThenRead(codec: Codec, rt: Runtime, m: Mutation, node: AccountFields, spec: Spec, id: int)
    requires Invertible(codec) && IsSpecOf(rt, m, node, spec)
    ensures Typed(codec, RowOf(codec, spec, id))
    ensures Project(codec, RowOf(codec, spec, id), Columns) == node.(id := id)
  {
    hide IsSpecOf, Stored, Holds, Decoded, FieldOf, AssignPrefix;
    var row := RowOf(codec, spec, id);
    forall c ensures Holds(codec, c, Col(row, c)) {
      ColumnsComplete(c);
      if c.Other? { OtherHolds(codec, c); } else { CellRoundTrip(codec, rt, m, node, spec, id, c); }
    }
    var read, written := Project(codec, row, Columns), node.(id := id);
    forall c ensures FieldOf(read, c) == FieldOf(written, c) {
      ColumnsComplete(c);
      ColumnCallbacksAgree(codec, Columns, row, c);
      if c.Other? { OtherHasNoField(read, written, c); } else { CellRoundTrip(codec, rt, m, node, spec, id, c); }
    }
    NodeSelectsNothing(rt, m, node, spec);
    forall i | 0 <= i < |Columns| ensures !Columns[i].Other? { ColumnsComplete(Columns[i]); }
    NothingSelected(codec, Columns, ScanRow(codec, Columns, row), |Columns|);
    SameFields(read, written);
  }

  lemma OtherHolds(codec: Codec, c: Column)
    requires c.Other?
    ensures Holds(codec, c, Null)
  {
  }

  lemma OtherHasNoField(f: AccountFields, g: AccountFields, c: Column)
    requires c.Other?
    ensures FieldOf(f, c) == FieldOf(g, c)
  {
  }

  lemma NodeSelectsNothing(rt: Runtime, m: Mutation, node: AccountFields, spec: Spec)
    requires IsSpecOf(rt, m, node, spec)
    ensures node.selected == map[]
  {
    hide EdgesFor;
  }
}
