// createSpec: the fields and edges of an insert, the node that is returned, and the row
// that the database stores.
module CreateSpecs {
  import opened Common
  import opened AccountSchema
  import opened AccountMutations
  import opened GroupLinks

  // The edges that a create can set, in the order in which createSpec emits them.
  datatype EdgeKind = GroupsEdge | ProxyEdge | ParentEdge | ChildrenEdge | UsageLogsEdge

  const EdgeKinds: seq<EdgeKind> := [GroupsEdge, ProxyEdge, ParentEdge, ChildrenEdge, UsageLogsEdge]

  datatype Relation = M2M | M2O | O2M

  function RelationOf(k: EdgeKind): Relation {
    match k
    case GroupsEdge => M2M
    case ProxyEdge | ParentEdge => M2O
    case ChildrenEdge | UsageLogsEdge => O2M
  }

  // An edge to insert. Only the join rows of groups have fields of their own.
  datatype EdgeSpec = EdgeSpec(kind: EdgeKind, nodes: seq<Int64>, join: Option<JoinFields>)

  datatype Spec = Spec(fields: map<Column, FieldValue>, edges: seq<EdgeSpec>)

  // The neighbour ids that the mutation sets for an edge.
  function EdgeIDs(m: Mutation, k: EdgeKind): set<Int64> {
    match k
    case GroupsEdge => m.groups
    case ProxyEdge => if m.proxy.Some? then {m.proxy.value} else {}
    case ParentEdge => if m.parent.Some? then {m.parent.value} else {}
    case ChildrenEdge => m.children
    case UsageLogsEdge => m.usageLogs
  }

  // The ids of a set in some order, each once.
  ghost predicate Lists(nodes: seq<Int64>, ids: set<Int64>) {
    && (forall x :: x in nodes <==> x in ids)
    && (forall i, j :: 0 <= i < j < |nodes| ==> nodes[i] != nodes[j])
  }

  // The range over a set of ids, in whatever order it yields them.
  method ListIDs(ids: set<Int64>) returns (nodes: seq<Int64>)
    ensures Lists(nodes, ids)
  {
    nodes := [];
    var todo := ids;
    while todo != {}
      invariant todo <= ids && Lists(nodes, ids - todo)
      decreases todo
    {
      var k :| k in todo;
      nodes, todo := nodes + [k], todo - {k};
    }
  }

  function FieldIn(fields: map<Column, FieldValue>, c: Column): Option<FieldValue> {
    if c in fields then Some(fields[c]) else None
  }

  // The field of column c in the node that createSpec returns.
  function NodeField(m: Mutation, c: Column): FieldValue {
    if c.FieldProxyID? then OptInt(m.proxy)
    else if c.FieldParentAccountID? then OptInt(m.parent)
    else if Written(m, c).Some? then Written(m, c).value
    else FieldOf(ZeroFields, c)
  }

  // _spec.SetField, when the mutation has the field.
  function SetField(fields: map<Column, FieldValue>, c: Column, v: Option<FieldValue>): (out: map<Column, FieldValue>)
    ensures forall d :: FieldIn(out, d) == if d == c && v.Some? then v else FieldIn(fields, d)
  {
    if v.Some? then fields[c := v.value] else fields
  }

  // The node that createSpec returns, as one record.
  function NodeOf(m: Mutation): AccountFields {
    AccountFields(
      id := 0, createdAt := Get(m.createdAt, 0), updatedAt := Get(m.updatedAt, 0), deletedAt := m.deletedAt,
      name := Get(m.name, ""), notes := m.notes, platform := Get(m.platform, ""),
      accountType := Get(m.accountType, ""), credentials := Get(m.credentials, NilMap),
      extra := Get(m.extra, NilMap), proxyID := m.proxy, proxyFallbackOriginID := m.proxyFallbackOriginID,
      concurrency := Get(m.concurrency, 0), loadFactor := m.loadFactor, priority := Get(m.priority, 0),
      rateMultiplier := Get(m.rateMultiplier, 0.0), status := Get(m.status, ""),
      errorMessage := m.errorMessage, lastUsedAt := m.lastUsedAt, expiresAt := m.expiresAt,
      autoPauseOnExpired := Get(m.autoPauseOnExpired, false), schedulable := Get(m.schedulable, false),
      rateLimitedAt := m.rateLimitedAt, rateLimitResetAt := m.rateLimitResetAt,
      overloadUntil := m.overloadUntil, tempUnschedulableUntil := m.tempUnschedulableUntil,
      tempUnschedulableReason := m.tempUnschedulableReason, sessionWindowStart := m.sessionWindowStart,
      sessionWindowEnd := m.sessionWindowEnd, sessionWindowStatus := m.sessionWindowStatus,
      parentAccountID := m.parent, quotaDimension := Get(m.quotaDimension, ""), selected := map[])
  }

  lemma NodeOfField(m: Mutation, c: Column)
    ensures FieldOf(NodeOf(m), c) == NodeField(m, c)
  {
  }

  // ---- the whole spec --------------------------------------------------------------

  // The edges: one for each kind with ids, in order, listing exactly those ids.
  ghost predicate EdgesFor(edges: seq<EdgeSpec>, m: Mutation, rt: Runtime, n: nat)
    requires n <= |EdgeKinds|
  {
    if n == 0 then edges == []
    else if EdgeIDs(m, EdgeKinds[n - 1]) == {} then EdgesFor(edges, m, rt, n - 1)
    else
      && edges != []
      && EdgesFor(edges[..|edges| - 1], m, rt, n - 1)
      && (var e := edges[|edges| - 1];
          && e.kind == EdgeKinds[n - 1] && Lists(e.nodes, EdgeIDs(m, EdgeKinds[n - 1]))
          && e.join == if e.kind.GroupsEdge? then Some(JoinFields(rt.joinPriority, rt.joinCreatedAt)) else None)
  }

  // What createSpec promises: the spec has the fields and edges of the mutation, and the
  // node has the same values.
  ghost predicate IsSpecOf(rt: Runtime, m: Mutation, node: AccountFields, spec: Spec) {
    && (forall c :: FieldIn(spec.fields, c) == Written(m, c))
    && node == NodeOf(m)
    && EdgesFor(spec.edges, m, rt, |EdgeKinds|)
  }

  // Appends the edge of a kind when the mutation has ids for it.
  method AddEdge(rt: Runtime, m: Mutation, edges: seq<EdgeSpec>, ghost n: nat,
      k: EdgeKind) returns (edges': seq<EdgeSpec>)
    requires n < |EdgeKinds| && k == EdgeKinds[n] && EdgesFor(edges, m, rt, n)
    ensures EdgesFor(edges', m, rt, n + 1)
    ensures EdgeIDs(m, k) == {} ==> edges' == edges
  {
    edges' := edges;
    var ids := EdgeIDs(m, k);
    if |ids| > 0 {
      var nodes := ListIDs(ids);
      var join := None;
      if k.GroupsEdge? {
        var fields := JoinRowFields(rt);
        join := Some(fields);
      }
      edges' := edges + [EdgeSpec(k, nodes, join)];
      assert edges'[..|edges|] == edges;
    }
  }

  // What the mutation sets for the columns cs was carried over to the fields.
  ghost predicate Carried(before: map<Column, FieldValue>, after: map<Column, FieldValue>, m: Mutation, cs: seq<Column>) {
    forall c :: FieldIn(after, c) == if c in cs && Written(m, c).Some? then Written(m, c) else FieldIn(before, c)
  }

  // One field of createSpec, when the mutation has it.
  method Carry(m: Mutation, c: Column, fields: map<Column, FieldValue>,
      ghost start: map<Column, FieldValue>, ghost cs: seq<Column>)
    returns (fields': map<Column, FieldValue>, ghost cs': seq<Column>)
    requires Carried(start, fields, m, cs)
    ensures cs' == cs + [c] && Carried(start, fields', m, cs')
  {
    hide Written;
    fields' := SetField(fields, c, Written(m, c));
    cs' := cs + [c];
  }

  method Stretch1(m: Mutation, node: AccountFields, fields: map<Column, FieldValue>)
    returns (node': AccountFields, fields': map<Column, FieldValue>)
    ensures Carried(fields, fields', m, [
      FieldCreatedAt, FieldUpdatedAt, FieldDeletedAt, FieldName, FieldNotes, FieldPlatform, FieldType,
      FieldCredentials, FieldExtra, FieldProxyFallbackOriginID])
    ensures node' == node.(
      createdAt := Get(m.createdAt, node.createdAt), updatedAt := Get(m.updatedAt, node.updatedAt),
      deletedAt := m.deletedAt, name := Get(m.name, node.name), notes := m.notes,
      platform := Get(m.platform, node.platform), accountType := Get(m.accountType, node.accountType),
      credentials := Get(m.credentials, node.credentials), extra := Get(m.extra, node.extra),
      proxyFallbackOriginID := m.proxyFallbackOriginID)
  {
    node', fields' := node, fields;
    ghost var cs: seq<Column> := [];
    assert Carried(fields, fields', m, cs);
    hide Carried;
    fields', cs := Carry(m, FieldCreatedAt, fields', fields, cs);
    node' := node'.(createdAt := Get(m.createdAt, node'.createdAt));
    fields', cs := Carry(m, FieldUpdatedAt, fields', fields, cs);
    node' := node'.(updatedAt := Get(m.updatedAt, node'.updatedAt));
    fields', cs := Carry(m, FieldDeletedAt, fields', fields, cs);
    node' := node'.(deletedAt := m.deletedAt);
    fields', cs := Carry(m, FieldName, fields', fields, cs);
    node' := node'.(name := Get(m.name, node'.name));
    fields', cs := Carry(m, FieldNotes, fields', fields, cs);
    node' := node'.(notes := m.notes);
    fields', cs := Carry(m, FieldPlatform, fields', fields, cs);
    node' := node'.(platform := Get(m.platform, node'.platform));
    fields', cs := Carry(m, FieldType, fields', fields, cs);
    node' := node'.(accountType := Get(m.accountType, node'.accountType));
    fields', cs := Carry(m, FieldCredentials, fields', fields, cs);
    node' := node'.(credentials := Get(m.credentials, node'.credentials));
    fields', cs := Carry(m, FieldExtra, fields', fields, cs);
    node' := node'.(extra := Get(m.extra, node'.extra));
    fields', cs := Carry(m, FieldProxyFallbackOriginID, fields', fields, cs);
    node' := node'.(proxyFallbackOriginID := m.proxyFallbackOriginID);
    assert cs == [
      FieldCreatedAt, FieldUpdatedAt, FieldDeletedAt, FieldName, FieldNotes, FieldPlatform, FieldType,
      FieldCredentials, FieldExtra, FieldProxyFallbackOriginID];
  }

  method Stretch2(m: Mutation, node: AccountFields, fields: map<Column, FieldValue>)
    returns (node': AccountFields, fields': map<Column, FieldValue>)
    ensures Carried(fields, fields', m, [
      FieldConcurrency, FieldLoadFactor, FieldPriority, FieldRateMultiplier, FieldStatus, FieldErrorMessage,
      FieldLastUsedAt, FieldExpiresAt, FieldAutoPauseOnExpired, FieldSchedulable])
    ensures node' == node.(
      concurrency := Get(m.concurrency, node.concurrency), loadFactor := m.loadFactor,
      priority := Get(m.priority, node.priority), rateMultiplier := Get(m.rateMultiplier, node.rateMultiplier),
      status := Get(m.status, node.status), errorMessage := m.errorMessage, lastUsedAt := m.lastUsedAt,
      expiresAt := m.expiresAt, autoPauseOnExpired := Get(m.autoPauseOnExpired, node.autoPauseOnExpired),
      schedulable := Get(m.schedulable, node.schedulable))
  {
    node', fields' := node, fields;
    ghost var cs: seq<Column> := [];
    assert Carried(fields, fields', m, cs);
    hide Carried;
    fields', cs := Carry(m, FieldConcurrency, fields', fields, cs);
    node' := node'.(concurrency := Get(m.concurrency, node'.concurrency));
    fields', cs := Carry(m, FieldLoadFactor, fields', fields, cs);
    node' := node'.(loadFactor := m.loadFactor);
    fields', cs := Carry(m, FieldPriority, fields', fields, cs);
    node' := node'.(priority := Get(m.priority, node'.priority));
    fields', cs := Carry(m, FieldRateMultiplier, fields', fields, cs);
    node' := node'.(rateMultiplier := Get(m.rateMultiplier, node'.rateMultiplier));
    fields', cs := Carry(m, FieldStatus, fields', fields, cs);
    node' := node'.(status := Get(m.status, node'.status));
    fields', cs := Carry(m, FieldErrorMessage, fields', fields, cs);
    node' := node'.(errorMessage := m.errorMessage);
    fields', cs := Carry(m, FieldLastUsedAt, fields', fields, cs);
    node' := node'.(lastUsedAt := m.lastUsedAt);
    fields', cs := Carry(m, FieldExpiresAt, fields', fields, cs);
    node' := node'.(expiresAt := m.expiresAt);
    fields', cs := Carry(m, FieldAutoPauseOnExpired, fields', fields, cs);
    node' := node'.(autoPauseOnExpired := Get(m.autoPauseOnExpired, node'.autoPauseOnExpired));
    fields', cs := Carry(m, FieldSchedulable, fields', fields, cs);
    node' := node'.(schedulable := Get(m.schedulable, node'.schedulable));
    assert cs == [
      FieldConcurrency, FieldLoadFactor, FieldPriority, FieldRateMultiplier, FieldStatus, FieldErrorMessage,
      FieldLastUsedAt, FieldExpiresAt, FieldAutoPauseOnExpired, FieldSchedulable];
  }

  method Stretch3(m: Mutation, node: AccountFields, fields: map<Column, FieldValue>)
    returns (node': AccountFields, fields': map<Column, FieldValue>)
    ensures Carried(fields, fields', m, [
      FieldRateLimitedAt, FieldRateLimitResetAt, FieldOverloadUntil, FieldTempUnschedulableUntil,
      FieldTempUnschedulableReason, FieldSessionWindowStart, FieldSessionWindowEnd, FieldSessionWindowStatus,
      FieldQuotaDimension])
    ensures node' == node.(
      rateLimitedAt := m.rateLimitedAt, rateLimitResetAt := m.rateLimitResetAt, overloadUntil := m.overloadUntil,
      tempUnschedulableUntil := m.tempUnschedulableUntil, tempUnschedulableReason := m.tempUnschedulableReason,
      sessionWindowStart := m.sessionWindowStart, sessionWindowEnd := m.sessionWindowEnd,
      sessionWindowStatus := m.sessionWindowStatus, quotaDimension := Get(m.quotaDimension, node.quotaDimension))
  {
    node', fields' := node, fields;
    ghost var cs: seq<Column> := [];
    assert Carried(fields, fields', m, cs);
    hide Carried;
    fields', cs := Carry(m, FieldRateLimitedAt, fields', fields, cs);
    node' := node'.(rateLimitedAt := m.rateLimitedAt);
    fields', cs := Carry(m, FieldRateLimitResetAt, fields', fields, cs);
    node' := node'.(rateLimitResetAt := m.rateLimitResetAt);
    fields', cs := Carry(m, FieldOverloadUntil, fields', fields, cs);
    node' := node'.(overloadUntil := m.overloadUntil);
    fields', cs := Carry(m, FieldTempUnschedulableUntil, fields', fields, cs);
    node' := node'.(tempUnschedulableUntil := m.tempUnschedulableUntil);
    fields', cs := Carry(m, FieldTempUnschedulableReason, fields', fields, cs);
    node' := node'.(tempUnschedulableReason := m.tempUnschedulableReason);
    fields', cs := Carry(m, FieldSessionWindowStart, fields', fields, cs);
    node' := node'.(sessionWindowStart := m.sessionWindowStart);
    fields', cs := Carry(m, FieldSessionWindowEnd, fields', fields, cs);
    node' := node'.(sessionWindowEnd := m.sessionWindowEnd);
    fields', cs := Carry(m, FieldSessionWindowStatus, fields', fields, cs);
    node' := node'.(sessionWindowStatus := m.sessionWindowStatus);
    fields', cs := Carry(m, FieldQuotaDimension, fields', fields, cs);
    node' := node'.(quotaDimension := Get(m.quotaDimension, node'.quotaDimension));
    assert cs == [
      FieldRateLimitedAt, FieldRateLimitResetAt, FieldOverloadUntil, FieldTempUnschedulableUntil,
      FieldTempUnschedulableReason, FieldSessionWindowStart, FieldSessionWindowEnd, FieldSessionWindowStatus,
      FieldQuotaDimension];
  }

  // All fields of the mutation.
  method CarryFields(m: Mutation) returns (node: AccountFields, fields: map<Column, FieldValue>)
    ensures forall c :: FieldIn(fields, c) == Written(m, c)
    ensures node == NodeOf(m.(proxy := None, parent := None))
  {
    hide FieldIn, Written;
    WrittenColumns(m);
    NoFields();
    fields := map[];
    node := ZeroFields;
    node, fields := Stretch1(m, node, fields);
    node, fields := Stretch2(m, node, fields);
    node, fields := Stretch3(m, node, fields);
  }

  method CreateSpec(rt: Runtime, m: Mutation) returns (node: AccountFields, spec: Spec)
    ensures IsSpecOf(rt, m, node, spec)
  {
    hide EdgesFor, FieldIn, Written, EdgeIDs;
    var fields;
    node, fields := CarryFields(m);
    NoEdges(rt, m);
    var edges := AddEdge(rt, m, [], 0, GroupsEdge);
    edges := AddEdge(rt, m, edges, 1, ProxyEdge);
    if m.proxy.Some? { node := node.(proxyID := m.proxy); }
    edges := AddEdge(rt, m, edges, 2, ParentEdge);
    if m.parent.Some? { node := node.(parentAccountID := m.parent); }
    edges := AddEdge(rt, m, edges, 3, ChildrenEdge);
    edges := AddEdge(rt, m, edges, 4, UsageLogsEdge);
    spec := Spec(fields, edges);
  }

  lemma WrittenColumns(m: Mutation)
    ensures forall c :: Written(m, c).Some? ==> c in [
      FieldCreatedAt, FieldUpdatedAt, FieldDeletedAt, FieldName, FieldNotes,
      FieldPlatform, FieldType, FieldCredentials, FieldExtra, FieldProxyFallbackOriginID,
      FieldConcurrency, FieldLoadFactor, FieldPriority, FieldRateMultiplier, FieldStatus,
      FieldErrorMessage, FieldLastUsedAt, FieldExpiresAt, FieldAutoPauseOnExpired, FieldSchedulable,
      FieldRateLimitedAt, FieldRateLimitResetAt, FieldOverloadUntil, FieldTempUnschedulableUntil, FieldTempUnschedulableReason,
      FieldSessionWindowStart, FieldSessionWindowEnd, FieldSessionWindowStatus, FieldQuotaDimension]
  {
  }

  lemma NoFields()
    ensures forall c :: FieldIn(map[], c) == None
  {
  }

  lemma NoEdges(rt: Runtime, m: Mutation)
    ensures EdgesFor([], m, rt, 0)
  {
  }
}
