// The edges of an update: what the builder's Add, Remove and Clear calls record, the edge
// specs that the update emits, and what applying those does to the account's neighbours.
module UpdateEdges {
  import opened Common
  import opened AccountSchema
  import opened AccountMutations
  import opened CreateSpecs
  import opened GroupLinks

  // ---- edges to many ---------------------------------------------------------------

  datatype Changes = Changes(added: set<Int64>, removed: set<Int64>, cleared: bool)

  datatype Call = AddIDs(ids: seq<Int64>) | RemoveIDs(ids: seq<Int64>) | ClearAll

  function Elements(ids: seq<Int64>): set<Int64> { set x | x in ids }

  // What one call records.
  function Step(c: Changes, call: Call): Changes {
    match call
    case AddIDs(ids) => c.(added := c.added + Elements(ids))
    case RemoveIDs(ids) => c.(added := c.added - Elements(ids), removed := c.removed + Elements(ids))
    case ClearAll => c.(cleared := true)
  }

  function After(calls: seq<Call>): Changes {
    if calls == [] then Changes({}, {}, false)
    else Step(After(calls[..|calls| - 1]), calls[|calls| - 1])
  }

  // The calls read as commands, one after the other, on the neighbours.
  function Meaning(calls: seq<Call>, prior: set<Int64>): set<Int64> {
    if calls == [] then prior
    else
      var before := Meaning(calls[..|calls| - 1], prior);
      match calls[|calls| - 1]
      case AddIDs(ids) => before + Elements(ids)
      case RemoveIDs(ids) => before - Elements(ids)
      case ClearAll => {}
  }

  // The neighbours after the recorded changes have been saved.
  function Saved(c: Changes, prior: set<Int64>): set<Int64> {
    (if c.cleared then {} else prior - c.removed) + c.added
  }

  // The ids that were added before a ClearAll and not mentioned again since.
  function Overtaken(calls: seq<Call>): set<Int64> {
    if calls == [] then {}
    else
      var init := calls[..|calls| - 1];
      match calls[|calls| - 1]
      case AddIDs(ids) => Overtaken(init) - Elements(ids)
      case RemoveIDs(ids) => Overtaken(init) - Elements(ids)
      case ClearAll => After(init).added
  }

  // Saving adds exactly the overtaken ids to what the calls say.
  lemma {:induction false} SavedIsMeaning(calls: seq<Call>, prior: set<Int64>)
    ensures Saved(After(calls), prior) == Meaning(calls, prior) + Overtaken(calls)
    ensures Meaning(calls, prior) !! Overtaken(calls) && Overtaken(calls) <= After(calls).added
    decreases |calls|
  {
    if calls != [] {
      SavedIsMeaning(calls[..|calls| - 1], prior);
    }
  }

  // So an update does what its calls say exactly when none of them is overtaken.
  lemma UpdateFaithful(calls: seq<Call>, prior: set<Int64>)
    ensures Saved(After(calls), prior) == Meaning(calls, prior) <==> Overtaken(calls) == {}
  {
    SavedIsMeaning(calls, prior);
    if x :| x in Overtaken(calls) { assert x in Saved(After(calls), prior) && x !in Meaning(calls, prior); }
  }

  predicate Mentions(call: Call, x: Int64) {
    !call.ClearAll? && x in call.ids
  }

  // The i-th call is a ClearAll that finds x added, and no later call mentions x.
  predicate OvertakenBy(calls: seq<Call>, i: nat, x: Int64)
    requires i < |calls|
  {
    && calls[i].ClearAll? && x in After(calls[..i]).added
    && forall k :: i < k < |calls| ==> !Mentions(calls[k], x)
  }

  lemma OneMoreCall(calls: seq<Call>, i: nat, x: Int64)
    requires i + 1 < |calls|
    ensures OvertakenBy(calls, i, x)
      <==> OvertakenBy(calls[..|calls| - 1], i, x) && !Mentions(calls[|calls| - 1], x)
  {
    var init := calls[..|calls| - 1];
    assert init[..i] == calls[..i];
    assert forall k :: 0 <= k < |init| ==> init[k] == calls[k];
    assert OvertakenBy(calls, i, x) ==> !Mentions(calls[|calls| - 1], x);
  }

  // An id is overtaken when some call overtakes it.
  lemma {:induction false} OvertakenAt(calls: seq<Call>, x: Int64)
    ensures x in Overtaken(calls) <==> exists i :: 0 <= i < |calls| && OvertakenBy(calls, i, x)
    decreases |calls|
  {
    if calls != [] {
      var n := |calls| - 1;
      var init := calls[..n];
      hide OvertakenBy;
      OvertakenAt(init, x);
      LastCall(calls, x);
      SavedIsMeaning(init, {});
      forall i | 0 <= i < n ensures OvertakenBy(calls, i, x) <==> OvertakenBy(init, i, x) && !Mentions(calls[n], x) {
        OneMoreCall(calls, i, x);
      }
      if i :| 0 <= i < n && OvertakenBy(init, i, x) && !Mentions(calls[n], x) { assert OvertakenBy(calls, i, x); }
      if i :| 0 <= i < n && OvertakenBy(calls, i, x) { assert OvertakenBy(init, i, x); }
    }
  }

  lemma LastCall(calls: seq<Call>, x: Int64)
    requires calls != []
    ensures OvertakenBy(calls, |calls| - 1, x)
      <==> calls[|calls| - 1].ClearAll? && x in After(calls[..|calls| - 1]).added
  {
  }

  // Adding and then clearing: the calls say empty, the update saves the added id.
  lemma ClearAfterAdd(x: Int64, prior: set<Int64>)
    ensures Meaning([AddIDs([x]), ClearAll], prior) == {}
    ensures Saved(After([AddIDs([x]), ClearAll]), prior) == {x}
  {
    var calls := [AddIDs([x]), ClearAll];
    assert calls[..1] == [AddIDs([x])] && calls[..1][..0] == [];
    assert After(calls[..1]) == Changes({x}, {}, false);
  }

  // The part of the mutation that belongs to one edge.
  class EdgeChanges {
    var added: set<Int64>
    var removed: set<Int64>
    var cleared: bool

    constructor ()
      ensures Now() == After([])
    {
      added, removed, cleared := {}, {}, false;
    }

    function Now(): Changes
      reads this
    {
      Changes(added, removed, cleared)
    }

    method Add(ids: seq<Int64>)
      modifies this
      ensures Now() == Step(old(Now()), AddIDs(ids))
    {
      for i := 0 to |ids|
        invariant Now() == Step(old(Now()), AddIDs(ids[..i]))
      {
        added := added + {ids[i]};
        assert ids[..i + 1] == ids[..i] + [ids[i]];
      }
      assert ids[..|ids|] == ids;
    }

    method Remove(ids: seq<Int64>)
      modifies this
      ensures Now() == Step(old(Now()), RemoveIDs(ids))
    {
      for i := 0 to |ids|
        invariant Now() == Step(old(Now()), RemoveIDs(ids[..i]))
      {
        added := added - {ids[i]};
        removed := removed + {ids[i]};
        assert ids[..i + 1] == ids[..i] + [ids[i]];
      }
      assert ids[..|ids|] == ids;
    }

    method Clear()
      modifies this
      ensures Now() == Step(old(Now()), ClearAll)
    {
      cleared := true;
    }

    method Do(call: Call)
      modifies this
      ensures Now() == Step(old(Now()), call)
    {
      match call {
        case AddIDs(ids) => Add(ids);
        case RemoveIDs(ids) => Remove(ids);
        case ClearAll => Clear();
      }
    }
  }

  // ---- edges to one ----------------------------------------------------------------

  datatype KeyChanges = KeyChanges(id: Option<Int64>, cleared: bool)

  // SetProxyID, ClearProxy (the edge) and ClearProxyID (the field); likewise for parent.
  datatype KeyCall = SetKey(id: Int64) | ClearEdge | ClearField

  function KeyStep(c: KeyChanges, call: KeyCall): KeyChanges {
    match call
    case SetKey(id) => c.(id := Some(id))
    case ClearEdge => c.(cleared := true)
    case ClearField => KeyChanges(None, true)
  }

  function KeyAfter(calls: seq<KeyCall>): KeyChanges {
    if calls == [] then KeyChanges(None, false)
    else KeyStep(KeyAfter(calls[..|calls| - 1]), calls[|calls| - 1])
  }

  // The last call decides.
  function KeyMeaning(calls: seq<KeyCall>, prior: Option<Int64>): Option<Int64> {
    if calls == [] then prior
    else if calls[|calls| - 1].SetKey? then Some(calls[|calls| - 1].id)
    else None
  }

  function KeySaved(c: KeyChanges, prior: Option<Int64>): Option<Int64> {
    if c.id.Some? then c.id else if c.cleared then None else prior
  }

  // An update of a key does what its calls say exactly when it is not the case that a set
  // key was last followed by clears of the edge only.
  lemma {:induction false} KeyFaithful(calls: seq<KeyCall>, prior: Option<Int64>)
    ensures KeySaved(KeyAfter(calls), prior) == KeyMeaning(calls, prior)
      <==> !(calls != [] && calls[|calls| - 1].ClearEdge? && KeyAfter(calls).id.Some?)
    ensures KeyAfter(calls).cleared <==> exists i :: 0 <= i < |calls| && !calls[i].SetKey?
    decreases |calls|
  {
    if calls != [] {
      var n := |calls| - 1;
      KeyFaithful(calls[..n], prior);
      if i :| 0 <= i < n && !calls[i].SetKey? { assert !calls[..n][i].SetKey?; }
      if i :| 0 <= i < n && !calls[..n][i].SetKey? { assert !calls[i].SetKey?; }
    }
  }

  // Setting a key and then clearing the edge: the calls say none, the key is saved.
  lemma ClearEdgeAfterSet(id: Int64, before: Option<Int64>)
    ensures KeyMeaning([SetKey(id), ClearEdge], before) == None
    ensures KeySaved(KeyAfter([SetKey(id), ClearEdge]), before) == Some(id)
  {
    var calls := [SetKey(id), ClearEdge];
    assert calls[..1] == [SetKey(id)] && calls[..1][..0] == [];
    assert KeyAfter(calls[..1]) == KeyChanges(Some(id), false);
  }

  class KeyFields {
    var id: Option<Int64>
    var cleared: bool

    constructor ()
      ensures Now() == KeyAfter([])
    {
      id, cleared := None, false;
    }

    function Now(): KeyChanges
      reads this
    {
      KeyChanges(id, cleared)
    }

    method Set(v: Int64)
      modifies this
      ensures Now() == KeyStep(old(Now()), SetKey(v))
    {
      id := Some(v);
    }

    method ClearTheEdge()
      modifies this
      ensures Now() == KeyStep(old(Now()), ClearEdge)
    {
      cleared := true;
    }

    method ClearTheField()
      modifies this
      ensures Now() == KeyStep(old(Now()), ClearField)
    {
      id, cleared := None, true;
    }

    method Do(call: KeyCall)
      modifies this
      ensures Now() == KeyStep(old(Now()), call)
    {
      match call {
        case SetKey(v) => Set(v);
        case ClearEdge => ClearTheEdge();
        case ClearField => ClearTheField();
      }
    }
  }

  // ---- the emitted edges -----------------------------------------------------------

  // The fields of the join rows of an edge.
  function JoinOf(rt: Runtime, k: EdgeKind): Option<JoinFields> {
    if k.GroupsEdge? then Some(JoinFields(rt.joinPriority, rt.joinCreatedAt)) else None
  }

  function OfKind(edges: seq<EdgeSpec>, k: EdgeKind): seq<EdgeSpec> {
    if edges == [] then []
    else OfKind(edges[..|edges| - 1], k) + if edges[|edges| - 1].kind == k then [edges[|edges| - 1]] else []
  }

  lemma OfKindAppend(edges: seq<EdgeSpec>, e: EdgeSpec, k: EdgeKind)
    ensures OfKind(edges + [e], k) == OfKind(edges, k) + if e.kind == k then [e] else []
  {
    assert (edges + [e])[..|edges|] == edges;
  }

  // One edge that lists the ids, or none when there are no ids.
  ghost predicate ListedEdge(edges: seq<EdgeSpec>, k: EdgeKind, ids: set<Int64>, rt: Runtime) {
    if ids == {} then edges == []
    else |edges| == 1 && edges[0].kind == k && Lists(edges[0].nodes, ids) && edges[0].join == JoinOf(rt, k)
  }

  // The edges of kind k are emitted for the changes c: a clear of everything, or of the
  // removed ids, and an add of the added ids.
  ghost predicate EmittedFor(clear: seq<EdgeSpec>, add: seq<EdgeSpec>, k: EdgeKind, c: Changes, rt: Runtime) {
    Emitted(OfKind(clear, k), OfKind(add, k), k, c, rt)
  }

  ghost predicate Emitted(clear: seq<EdgeSpec>, add: seq<EdgeSpec>, k: EdgeKind, c: Changes, rt: Runtime) {
    && (if c.cleared then clear == [EdgeSpec(k, [], JoinOf(rt, k))] else ListedEdge(clear, k, c.removed, rt))
    && ListedEdge(add, k, c.added, rt)
  }

  // What emitting the edges of kind k leaves alone.
  ghost predicate OthersKept(before: seq<EdgeSpec>, after: seq<EdgeSpec>, k: EdgeKind) {
    forall k' :: k' != k ==> OfKind(after, k') == OfKind(before, k')
  }

  function AsChanges(c: KeyChanges): Changes {
    Changes(if c.id.Some? then {c.id.value} else {}, {}, c.cleared)
  }

  method EmitMany(rt: Runtime, k: EdgeKind, c: EdgeChanges, clear: seq<EdgeSpec>, add: seq<EdgeSpec>)
    returns (clear': seq<EdgeSpec>, add': seq<EdgeSpec>)
    requires OfKind(clear, k) == OfKind(add, k) == []
    ensures EmittedFor(clear', add', k, c.Now(), rt)
    ensures OthersKept(clear, clear', k) && OthersKept(add, add', k)
  {
    hide OfKind, Lists;
    clear', add' := clear, add;
    var join := None;
    if k.GroupsEdge? {
      var fields := JoinRowFields(rt);
      join := Some(fields);
    }
    if c.cleared {
      clear' := Append(clear', EdgeSpec(k, [], join));
    }
    if |c.removed| > 0 && !c.cleared {
      var nodes := ListIDs(c.removed);
      clear' := Append(clear', EdgeSpec(k, nodes, join));
    }
    if |c.added| > 0 {
      var nodes := ListIDs(c.added);
      add' := Append(add', EdgeSpec(k, nodes, join));
    }
  }

  method EmitKey(rt: Runtime, k: EdgeKind, c: KeyFields, clear: seq<EdgeSpec>, add: seq<EdgeSpec>)
    returns (clear': seq<EdgeSpec>, add': seq<EdgeSpec>)
    requires OfKind(clear, k) == OfKind(add, k) == [] && !k.GroupsEdge?
    ensures EmittedFor(clear', add', k, AsChanges(c.Now()), rt)
    ensures OthersKept(clear, clear', k) && OthersKept(add, add', k)
  {
    hide OfKind;
    clear', add' := clear, add;
    if c.cleared {
      clear' := Append(clear', EdgeSpec(k, [], None));
    }
    if c.id.Some? {
      add' := Append(add', EdgeSpec(k, [c.id.value], None));
    }
  }

  method Append(edges: seq<EdgeSpec>, e: EdgeSpec) returns (edges': seq<EdgeSpec>)
    ensures edges' == edges + [e]
    ensures OfKind(edges', e.kind) == OfKind(edges, e.kind) + [e] && OthersKept(edges, edges', e.kind)
  {
    edges' := edges + [e];
    forall k { OfKindAppend(edges, e, k); }
  }

  // ---- saving ----------------------------------------------------------------------

  // The database's part: all clears, then all adds. An edge to one holds a single key, so
  // adding replaces it.
  function ClearedBy(edges: seq<EdgeSpec>, nb: set<Int64>): set<Int64> {
    if edges == [] then nb
    else
      var e := edges[|edges| - 1];
      if e.nodes == [] then {} else ClearedBy(edges[..|edges| - 1], nb) - Elements(e.nodes)
  }

  function AddedBy(edges: seq<EdgeSpec>, nb: set<Int64>): set<Int64> {
    if edges == [] then nb
    else
      var e := edges[|edges| - 1];
      if RelationOf(e.kind).M2O? then Elements(e.nodes)
      else AddedBy(edges[..|edges| - 1], nb) + Elements(e.nodes)
  }

  // The neighbours over edge k once the update has been executed.
  function Executed(clear: seq<EdgeSpec>, add: seq<EdgeSpec>, k: EdgeKind, nb: set<Int64>): set<Int64> {
    AddedBy(OfKind(add, k), ClearedBy(OfKind(clear, k), nb))
  }

  // Executing the emitted edges turns the old neighbours into the saved ones, for any order
  // in which the ids are listed.
  lemma ExecutedIsSaved(clear: seq<EdgeSpec>, add: seq<EdgeSpec>, k: EdgeKind, c: Changes, rt: Runtime, nb: set<Int64>)
    requires EmittedFor(clear, add, k, c, rt)
    ensures Executed(clear, add, k, nb)
      == if RelationOf(k).M2O? && c.added != {} then c.added else Saved(c, nb)
  {
    AddListed(OfKind(add, k), k, c.added, rt, ClearedBy(OfKind(clear, k), nb));
    if !c.cleared { ClearListed(OfKind(clear, k), k, c.removed, rt, nb); }
  }

  lemma AddListed(edges: seq<EdgeSpec>, k: EdgeKind, ids: set<Int64>, rt: Runtime, nb: set<Int64>)
    requires ListedEdge(edges, k, ids, rt)
    ensures AddedBy(edges, nb) == if RelationOf(k).M2O? && ids != {} then ids else nb + ids
  {
    if ids != {} {
      assert Elements(edges[0].nodes) == ids;
      assert edges[..0] == [];
    }
  }

  lemma ClearListed(edges: seq<EdgeSpec>, k: EdgeKind, ids: set<Int64>, rt: Runtime, nb: set<Int64>)
    requires ListedEdge(edges, k, ids, rt)
    ensures ClearedBy(edges, nb) == nb - ids
  {
    if ids != {} {
      assert Elements(edges[0].nodes) == ids;
      assert edges[..0] == [];
      var x: Int64 :| x in ids;
      assert x in edges[0].nodes;
    }
  }

  // Groups that an update adds get the two defaults of their join rows; edges to one and to
  // children or usage logs have no join rows.
  lemma JoinsOfAdded(clear: seq<EdgeSpec>, add: seq<EdgeSpec>, k: EdgeKind, c: Changes, rt: Runtime)
    requires EmittedFor(clear, add, k, c, rt) && c.added != {}
    ensures |OfKind(add, k)| == 1
    ensures OfKind(add, k)[0].join == if k == GroupsEdge then Some(JoinFields(rt.joinPriority, rt.joinCreatedAt)) else None
  {
  }

  // From the calls to the database: on an edge to many, the executed update has the effect
  // of the calls exactly when none of them is overtaken by a clear.
  lemma ManyCallsExecuted(clear: seq<EdgeSpec>, add: seq<EdgeSpec>, k: EdgeKind, calls: seq<Call>, rt: Runtime,
      nb: set<Int64>)
    requires !RelationOf(k).M2O? && EmittedFor(clear, add, k, After(calls), rt)
    ensures Executed(clear, add, k, nb) == Meaning(calls, nb) <==> Overtaken(calls) == {}
  {
    ExecutedIsSaved(clear, add, k, After(calls), rt, nb);
    UpdateFaithful(calls, nb);
  }

  function AsSet(key: Option<Int64>): set<Int64> { if key.Some? then {key.value} else {} }

  lemma KeyCallsExecuted(clear: seq<EdgeSpec>, add: seq<EdgeSpec>, k: EdgeKind, calls: seq<KeyCall>,
      rt: Runtime, key: Option<Int64>)
    requires RelationOf(k).M2O? && EmittedFor(clear, add, k, AsChanges(KeyAfter(calls)), rt)
    ensures Executed(clear, add, k, AsSet(key)) == AsSet(KeyMeaning(calls, key))
      <==> !(calls != [] && calls[|calls| - 1].ClearEdge? && KeyAfter(calls).id.Some?)
  {
    ExecutedIsSaved(clear, add, k, AsChanges(KeyAfter(calls)), rt, AsSet(key));
    KeyFaithful(calls, key);
    var saved, meant := KeySaved(KeyAfter(calls), key), KeyMeaning(calls, key);
    assert Executed(clear, add, k, AsSet(key)) == AsSet(saved);
    if saved.Some? { assert saved.value in AsSet(saved); }
    if meant.Some? { assert meant.value in AsSet(meant); }
  }
}
