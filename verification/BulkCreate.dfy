// AccountCreateBulk.Save on mutable builders: defaults, the chain of mutators, the batch,
// and the unwinding that marks mutations done. Proved to record and return what
// BulkChain.Run says.
module BulkCreate {
  import opened Common
  import opened AccountSchema
  import opened AccountEntity
  import opened AccountMutations
  import opened CreateSpecs
  import opened CreateReading
  import opened BulkChain
  import BulkTheorems

  type Error = Failure<CheckError>
  type AccountHook = Hook<Mutation, CheckError>
  type AccountSetup = Setup<Mutation, CheckError>
  type AccountEvent = Event<Mutation, CheckError>

  lemma StoppedRun(s: AccountSetup, i: nat, j: nat, v: View<Mutation>, e: Option<Error>)
    requires i < |s.builders| && j < |s.builders[i].hooks| && Before(s.builders[i].hooks[j], v) == Stop(e)
    ensures Run(s, i, j, v, None) == Outcome(e, [Entered(i, j), Left(i, j, e)])
  {
  }

  lemma MutatorRun(s: AccountSetup, i: nat, v: View<Mutation>, b: Option<DriverError>)
    requires i < |s.builders|
    ensures
      var r := Run(s, i, |s.builders[i].hooks|, v, b);
      if v.passed.OtherType? then r == Outcome(Some(UnexpectedMutationType), [])
      else if s.check(v.own).Some? then
        r == Outcome(Some(ValidationError(s.check(v.own).value)), [CheckFailed(i, s.check(v.own).value)])
      else
        var inner := Onward(s, i, b);
        r == Outcome(inner.error,
          if inner.error.None? then [Built(i, v.Seen().value)] + inner.log + [Done(i)]
          else [Built(i, v.Seen().value)] + inner.log)
  {
  }

  // What builder i's mutator calls.
  function Onward(s: AccountSetup, i: nat, b: Option<DriverError>): Outcome<Mutation, CheckError>
    requires i < |s.builders|
  {
    if i + 1 < |s.builders| then Run(s, i + 1, 0, First(s, i + 1), b) else Outcome(Wrap(b), [Batch(b)])
  }

  lemma OnwardIsLater(s: AccountSetup, i: nat, b: Option<DriverError>)
    requires i < |s.builders|
    ensures forall ev <- Onward(s, i, b).log :: ev.Batch? || ev.i >= i + 1
  {
    if i + 1 < |s.builders| { BulkTheorems.LaterOnly(s, i + 1, 0, First(s, i + 1), b); }
  }

  lemma HookRun(s: AccountSetup, i: nat, j: nat, v: View<Mutation>, b: Option<DriverError>)
    requires i < |s.builders| && j < |s.builders[i].hooks| && Before(s.builders[i].hooks[j], v).Go?
    ensures
      var h := s.builders[i].hooks[j];
      var inner := Run(s, i, j + 1, Before(h, v).v, b);
      var e := h.after(inner.error);
      && Run(s, i, j, v, b) == Outcome(e, [Entered(i, j)] + inner.log + [Left(i, j, e)])
      && SameSteps(inner.log, Run(s, i, j, v, b).log)
  {
  }

  // The two logs differ in entries of hooks only.
  ghost predicate SameSteps(a: seq<AccountEvent>, b: seq<AccountEvent>) {
    forall ev: AccountEvent :: !ev.Entered? && !ev.Left? ==> (ev in a <==> ev in b)
  }

  // BatchCreate of the database: it fails, or gives each spec an id (or no id value).
  datatype BatchDriver = BatchDriver(create: seq<Spec> -> Option<DriverError>, generated: (seq<Spec>, nat) -> Option<int>)

  datatype Snapshot = Snapshot(
    specs: seq<Option<Spec>>, nodes: seq<Account?>, mutations: seq<AccountMutation>, done: seq<bool>)

  // The mutation object of a builder. `id` points to the node whose ID it shows.
  class AccountMutation {
    var data: Mutation
    var id: Account?
    var done: bool

    constructor (data: Mutation)
      ensures this.data == data && id == null && !done
    {
      this.data, id, done := data, null, false;
    }
  }

  class AccountCreate {
    var mutation: AccountMutation
    const hooks: seq<AccountHook>

    constructor (mutation: AccountMutation, hooks: seq<AccountHook>)
      ensures this.mutation == mutation && this.hooks == hooks
    {
      this.mutation, this.hooks := mutation, hooks;
    }

    // Fills the unset fields that have a default, up to the first missing default.
    method Defaults(rt: Runtime) returns (missing: Option<Column>)
      modifies mutation`data
      ensures missing == MissingDefault(rt, old(mutation.data))
      ensures mutation.data == AfterDefaults(rt, old(mutation.data))
      ensures missing.None? ==> forall c :: Written(mutation.data, c) == WithDefault(rt, old(mutation.data), c)
    {
      var m := mutation.data;
      if m.createdAt.None? {
        if rt.defaultCreatedAt.None? { return Some(FieldCreatedAt); }
        mutation.data := mutation.data.(createdAt := rt.defaultCreatedAt);
      }
      if m.updatedAt.None? {
        if rt.defaultUpdatedAt.None? { return Some(FieldUpdatedAt); }
        mutation.data := mutation.data.(updatedAt := rt.defaultUpdatedAt);
      }
      if m.credentials.None? {
        if rt.defaultCredentials.None? { return Some(FieldCredentials); }
        mutation.data := mutation.data.(credentials := rt.defaultCredentials);
      }
      if m.extra.None? {
        if rt.defaultExtra.None? { return Some(FieldExtra); }
        mutation.data := mutation.data.(extra := rt.defaultExtra);
      }
      ConstantDefaults(rt);
      missing := None;
      hide Written, DefaultOf;
      forall c ensures Written(AfterDefaults(rt, m), c) == WithDefault(rt, m, c) { DefaultsFill(rt, m, c); }
    }

    // The part of defaults that cannot fail.
    method ConstantDefaults(rt: Runtime)
      modifies mutation`data
      ensures mutation.data == ConstantsFilled(rt, old(mutation.data))
    {
      var m := mutation.data;
      if m.concurrency.None? { mutation.data := mutation.data.(concurrency := Some(rt.defaultConcurrency)); }
      if m.priority.None? { mutation.data := mutation.data.(priority := Some(rt.defaultPriority)); }
      if m.rateMultiplier.None? { mutation.data := mutation.data.(rateMultiplier := Some(rt.defaultRateMultiplier)); }
      if m.status.None? { mutation.data := mutation.data.(status := Some(rt.defaultStatus)); }
      FlagDefaults(rt);
    }

    method FlagDefaults(rt: Runtime)
      modifies mutation`data
      ensures mutation.data == old(mutation.data).(
        autoPauseOnExpired := Or(old(mutation.data).autoPauseOnExpired, rt.defaultAutoPauseOnExpired),
        schedulable := Or(old(mutation.data).schedulable, rt.defaultSchedulable),
        quotaDimension := Or(old(mutation.data).quotaDimension, DefaultQuotaDimension))
    {
      var m := mutation.data;
      if m.autoPauseOnExpired.None? {
        mutation.data := mutation.data.(autoPauseOnExpired := Some(rt.defaultAutoPauseOnExpired));
      }
      if m.schedulable.None? { mutation.data := mutation.data.(schedulable := Some(rt.defaultSchedulable)); }
      if m.quotaDimension.None? { mutation.data := mutation.data.(quotaDimension := Some(DefaultQuotaDimension)); }
    }
  }

  // The slices that the mutators of the chain share.
  class BulkRun {
    const rt: Runtime
    const driver: BatchDriver
    const builders: seq<AccountCreate>
    const specs: array<Option<Spec>>
    const ids: array<Option<int>>
    const nodes: array<Account?>
  
    constructor (rt: Runtime, driver: BatchDriver, builders: seq<AccountCreate>)
      ensures this.rt == rt && this.driver == driver && this.builders == builders
      ensures fresh(specs) && fresh(ids) && fresh(nodes) && Valid()
      ensures forall k :: 0 <= k < nodes.Length ==> nodes[k] == null
    {
      this.rt, this.driver, this.builders := rt, driver, builders;
      specs := new Option<Spec>[|builders|](_ => None);
      ids := new Option<int>[|builders|](_ => None);
      nodes := new Account?[|builders|](_ => null);
    }

    ghost predicate Valid() {
      specs.Length == |builders| && ids.Length == |builders| && nodes.Length == |builders|
    }

    // Builders are different objects, and so are their mutations.
    ghost predicate Separate()
      reads builders
    {
      forall k, l :: 0 <= k < l < |builders| ==>
        builders[k] != builders[l] && builders[k].mutation != builders[l].mutation
    }

    ghost predicate NodesDiffer()
      reads nodes
    {
      forall k, l :: 0 <= k < l < nodes.Length && nodes[k] != null ==> nodes[k] != nodes[l]
    }

    // s describes the builders, from the k-th on with the mutations that they have now.
    ghost predicate Describes(s: AccountSetup, k: nat)
      reads builders, set l | 0 <= l < |builders| :: builders[l].mutation
    {
      && |s.builders| == |builders|
      && (forall m :: s.check(m) == Check(rt, m))
      && (forall l :: 0 <= l < |builders| ==> s.builders[l].hooks == builders[l].hooks)
      && (forall l :: k <= l < |builders| ==> s.builders[l].mutation == builders[l].mutation.data)
    }

    // The object m is what the mutators of builder i see as v.
    ghost predicate Shows(i: nat, m: AccountMutation?, v: View<Mutation>)
      requires i < |builders|
      reads builders, set l | 0 <= l < |builders| :: builders[l].mutation, m
    {
      && v.own == builders[i].mutation.data
      && match v.passed
         case Own => m == builders[i].mutation
         case Another(d) => m != null && m.data == d && !m.done && forall l :: 0 <= l < |builders| ==> m != builders[l].mutation
         case OtherType => m == null
    }

    ghost function From(i: nat): set<AccountCreate> {
      set k | i <= k < |builders| :: builders[k]
    }

    ghost function MutationsFrom(i: nat): set<AccountMutation>
      reads builders
    {
      set k | i <= k < |builders| :: builders[k].mutation
    }

    // Builder i can be called with m, which its mutators see as v: all builders before it
    // have filled their specs, and s describes the builders behind it.
    ghost predicate Ready(i: nat, m: AccountMutation?, s: AccountSetup, v: View<Mutation>)
      reads builders, MutationsFrom(0), m, specs, nodes
    {
      && Valid() && Separate() && NodesDiffer() && i < |builders|
      && Describes(s, i + 1) && Shows(i, m, v)
      && (forall k :: 0 <= k < i ==> specs[k].Some?)
    }

    ghost predicate AllFilled()
      reads specs
    {
      forall k :: 0 <= k < specs.Length ==> specs[k].Some?
    }

    ghost function AllSpecs(): seq<Spec>
      reads specs
      requires AllFilled()
    {
      seq(specs.Length, k requires 0 <= k < specs.Length reads specs requires specs[k].Some? => specs[k].value)
    }

    // What a call must not lose: the slots filled so far, and which objects were done.
    ghost function State(): Snapshot
      reads builders, MutationsFrom(0), specs, nodes
    {
      Snapshot(specs[..], nodes[..],
        seq(|builders|, k requires 0 <= k < |builders| reads builders => builders[k].mutation),
        seq(|builders|, k requires 0 <= k < |builders| reads builders, MutationsFrom(0) => builders[k].mutation.done))
    }

    // The state of builder k after a call that logged the entries: what was built is in
    // its slot, and its mutation is done if the entries say so, or if it was done before.
    ghost predicate Recorded(k: nat, entries: seq<AccountEvent>, before: Snapshot)
      requires k < |builders| && Valid() && |before.mutations| == |before.done| == |builders|
      reads builders, MutationsFrom(0), specs, ids, nodes, set l | 0 <= l < nodes.Length :: nodes[l]
    {
      && (forall d :: Built(k, d) in entries ==>
        && builders[k].mutation.data == d
        && specs[k].Some? && IsSpecOf(rt, d, NodeOf(d), specs[k].value)
        && nodes[k] != null && nodes[k].f == NodeOf(d).(id := nodes[k].f.id))
      && (Done(k) in entries ==>
        && builders[k].mutation.id == nodes[k] && nodes[k] != null
        && nodes[k].f.id == if ids[k].Some? then ids[k].value else 0)
      && (builders[k].mutation.done <==>
        Done(k) in entries || (builders[k].mutation == before.mutations[k] && before.done[k]))
    }

    // The effect of a call of builder i.
    ghost predicate Ran(i: nat, entries: seq<AccountEvent>, before: Snapshot)
      reads builders, MutationsFrom(0), specs, ids, nodes, set l | 0 <= l < nodes.Length :: nodes[l]
    {
      && Valid() && Separate() && i <= |builders| && NodesDiffer() && |before.mutations| == |before.done| == |builders|
      && |before.specs| == |before.nodes| == |builders|
      && specs[..i] == before.specs[..i] && nodes[..i] == before.nodes[..i]
      && (forall k :: i <= k < |builders| ==> Recorded(k, entries, before))
      && (forall r :: Batch(r) in entries ==> Answered(r))
    }

    // The database was given all specs, answered r, and gave out the ids.
    ghost predicate Answered(r: Option<DriverError>)
      reads specs, ids
    {
      && AllFilled() && r == driver.create(AllSpecs())
      && (r.None? ==> forall k :: 0 <= k < ids.Length ==> ids[k] == driver.generated(AllSpecs(), k))
    }

    // Entries of hooks do not matter.
    lemma RanSame(i: nat, a: seq<AccountEvent>, b: seq<AccountEvent>, before: Snapshot)
      requires Ran(i, a, before)
      requires SameSteps(a, b)
      ensures Ran(i, b, before)
    {
      hide IsSpecOf, Answered;
      forall k | i <= k < |builders| ensures Recorded(k, b, before) {
        assert Recorded(k, a, before);
        assert Done(k) in a <==> Done(k) in b;
        forall d | Built(k, d) in b ensures Built(k, d) in a {}
      }
      forall r | Batch(r) in b ensures Answered(r) { assert Batch(r) in a; }
    }

    // A call that only logged hooks has the effect of no call.
    lemma NothingRan(i: nat, entries: seq<AccountEvent>)
      requires Valid() && Separate() && NodesDiffer() && i <= |builders|
      requires forall ev <- entries :: ev.Entered? || ev.Left? || ev.CheckFailed?
      ensures Ran(i, entries, State())
    {
    }

    ghost function Specs(): seq<Spec>
      reads specs
    {
      if AllFilled() then AllSpecs() else []
    }

    // The call of BatchCreate: every builder has filled its spec by now.
    method BatchCreate() returns (err: Option<DriverError>)
      requires Valid() && AllFilled()
      modifies ids
      ensures err == driver.create(AllSpecs())
      ensures err.None? ==> forall k :: 0 <= k < ids.Length ==> ids[k] == driver.generated(AllSpecs(), k)
      ensures err.Some? ==> ids[..] == old(ids[..])
    {
      var all := [];
      for i := 0 to specs.Length
        invariant |all| == i && forall k :: 0 <= k < i ==> all[k] == specs[k].value
      {
        all := all + [specs[i].value];
      }
      assert all == AllSpecs();
      err := driver.create(all);
      if err.None? {
        for i := 0 to ids.Length
          modifies ids
          invariant forall k :: 0 <= k < i ==> ids[k] == driver.generated(all, k)
        {
          ids[i] := driver.generated(all, i);
        }
      }
    }

    // Hook j of builder i and what is behind it; m is the mutation it is called with.
    method Mutate(i: nat, j: nat, m: AccountMutation?, ghost s: AccountSetup, ghost v: View<Mutation>)
      returns (error: Option<Error>, ghost log: seq<AccountEvent>, ghost b: Option<DriverError>)
      requires Ready(i, m, s, v) && j <= |builders[i].hooks|
      modifies specs, ids, nodes, From(i)`mutation, MutationsFrom(i), if m == null then {} else {m}
      ensures Outcome(error, log) == Run(s, i, j, v, b)
      ensures Ran(i, log, old(State()))
      decreases |builders| - i, |builders[i].hooks| - j, 4
    {
      if j < |builders[i].hooks| {
        error, log, b := CallHook(i, j, m, s, v);
      } else {
        error, log, b := Create(i, m, s, v);
      }
    }

    // What hook j does before it calls next, if it does.
    method BeforeNext(i: nat, j: nat, m: AccountMutation?, ghost s: AccountSetup, ghost v: View<Mutation>)
      returns (next: AccountMutation?, stopped: bool, error: Option<Error>)
      requires Ready(i, m, s, v) && j < |builders[i].hooks|
      modifies if m == null then {} else {m}`data
      ensures var step := Before(builders[i].hooks[j], v);
        if stopped then step == Stop(error) else step.Go? && Ready(i, next, s, step.v)
      ensures State() == old(State())
      ensures next == null || next == m || fresh(next)
    {
      next, stopped, error := m, false, None;
      match builders[i].hooks[j].before(if m == null then None else Some(m.data)) {
        case Reject(e) =>
          stopped, error := true, Some(e);
        case Answer =>
          stopped := true;
        case Forward(edited) =>
          if m != null { m.data := edited; }
        case Substitute(other) =>
          next := new AccountMutation(other);
        case Foreign =>
          next := null;
      }
    }

    method CallHook(i: nat, j: nat, m: AccountMutation?, ghost s: AccountSetup, ghost v: View<Mutation>)
      returns (error: Option<Error>, ghost log: seq<AccountEvent>, ghost b: Option<DriverError>)
      requires Ready(i, m, s, v) && j < |builders[i].hooks|
      modifies specs, ids, nodes, From(i)`mutation, MutationsFrom(i), if m == null then {} else {m}
      ensures Outcome(error, log) == Run(s, i, j, v, b)
      ensures Ran(i, log, old(State()))
      decreases |builders| - i, |builders[i].hooks| - j, 3
    {
      assert |s.builders| == |builders| && s.builders[i].hooks == builders[i].hooks;
      assert Valid() && Separate() && NodesDiffer();
      hide Run, Ran, Recorded, Describes, Shows, Ready, State, Valid, Separate, Before, Around, AllFilled, Answered, SameSteps;
      var next, stopped, e := BeforeNext(i, j, m, s, v);
      if stopped {
        StoppedRun(s, i, j, v, e);
        log := [Entered(i, j), Left(i, j, e)];
        NothingRan(i, log);
        return e, log, None;
      }
      ghost var v' := Before(builders[i].hooks[j], v).v;
      ghost var inner: seq<AccountEvent>;
      error, inner, b := Mutate(i, j + 1, next, s, v');
      HookRun(s, i, j, v, b);
      error := builders[i].hooks[j].after(error);
      log := [Entered(i, j)] + inner + [Left(i, j, error)];
      RanSame(i, inner, log, old(State()));
    }

    // The builder's own mutator, behind its hooks.
    method Create(i: nat, m: AccountMutation?, ghost s: AccountSetup, ghost v: View<Mutation>)
      returns (error: Option<Error>, ghost log: seq<AccountEvent>, ghost b: Option<DriverError>)
      requires Ready(i, m, s, v)
      modifies specs, ids, nodes, From(i)`mutation, MutationsFrom(i), if m == null then {} else {m}
      ensures Outcome(error, log) == Run(s, i, |builders[i].hooks|, v, b)
      ensures Ran(i, log, old(State()))
      decreases |builders| - i, 0, 2
    {
      assert |s.builders| == |builders| && s.builders[i].hooks == builders[i].hooks;
      MutatorRun(s, i, v, None);
      if m == null {
        log := [];
        NothingRan(i, log);
        return Some(UnexpectedMutationType), log, None;
      }
      var failed := Check(rt, builders[i].mutation.data);
      if failed.Some? {
        log := [CheckFailed(i, failed.value)];
        NothingRan(i, log);
        return Some(ValidationError(failed.value)), log, None;
      }
      hide Run, Onward, IsSpecOf, NodeOf, Check, Ran, Answered, AllFilled, Pending;
      ghost var before, wasDone := State(), m.done;
      assert m != before.mutations[i] ==> !wasDone;
      Fill(i, m, s, v);
      ghost var inner: seq<AccountEvent>;
      error, inner, b := Continue(i, m, s, before);
      MutatorRun(s, i, v, b);
      OnwardIsLater(s, i, b);
      if error.Some? {
        log := [Built(i, m.data)] + inner;
        CreatedRan(i, m, inner, before, false, wasDone);
        return;
      }
      MarkDone(i, m, inner, before, wasDone);
      log := [Built(i, m.data)] + inner + [Done(i)];
      CreatedRan(i, m, inner, before, true, wasDone);
    }

    // Builder i was filled from m, and then what is behind it ran.
    ghost predicate Pending(i: nat, m: AccountMutation, inner: seq<AccountEvent>, before: Snapshot, wasDone: bool)
      reads builders, MutationsFrom(0), specs, ids, nodes, m, set l | 0 <= l < nodes.Length :: nodes[l]
    {
      && Valid() && i < |builders| && |before.specs| == |before.nodes| == |before.mutations| == |before.done| == |builders|
      && builders[i].mutation == m
      && specs[i].Some? && IsSpecOf(rt, m.data, NodeOf(m.data), specs[i].value)
      && nodes[i] != null && nodes[i].f == NodeOf(m.data).(id := nodes[i].f.id)
      && Ran(i + 1, inner, Snapshot(before.specs[i := specs[i]], before.nodes[i := nodes[i]],
        before.mutations[i := m], before.done[i := wasDone]))
    }

    lemma CreatedRan(i: nat, m: AccountMutation, inner: seq<AccountEvent>, before: Snapshot, finished: bool,
        wasDone: bool)
      requires Pending(i, m, inner, before, wasDone) && forall ev <- inner :: ev.Batch? || ev.i >= i + 1
      requires if before.mutations[i] == m then wasDone == before.done[i] else !wasDone
      requires if finished then m.done && m.id == nodes[i] && nodes[i].f.id == (if ids[i].Some? then ids[i].value else 0)
        else m.done == wasDone
      ensures Ran(i, [Built(i, m.data)] + inner + (if finished then [Done(i)] else []), before)
    {
      hide IsSpecOf, Answered;
      var filled := Snapshot(before.specs[i := specs[i]], before.nodes[i := nodes[i]],
        before.mutations[i := m], before.done[i := wasDone]);
      var log := [Built(i, m.data)] + inner + (if finished then [Done(i)] else []);
      assert specs[..i] == specs[..i + 1][..i] && nodes[..i] == nodes[..i + 1][..i];
      forall k | i < k < |builders| ensures Recorded(k, log, before) {
        assert Recorded(k, inner, filled);
        assert Done(k) in log <==> Done(k) in inner;
        forall d | Built(k, d) in log ensures Built(k, d) in inner {}
      }
      assert Recorded(i, log, before);
      forall r | Batch(r) in log ensures Answered(r) { assert Batch(r) in inner; }
    }

    static method NodeAndSpec(rt: Runtime, m: Mutation) returns (node: Account, spec: Spec)
      ensures fresh(node) && node.f == NodeOf(m) && node.f.id == 0 && IsSpecOf(rt, m, NodeOf(m), spec)
    {
      hide EdgesFor;
      var fields;
      fields, spec := CreateSpec(rt, m);
      node := new Account();
      node.f := fields;
    }

    // builder.mutation = mutation, and the slots of builder i.
    method Fill(i: nat, m: AccountMutation, ghost s: AccountSetup, ghost v: View<Mutation>)
      requires Ready(i, m, s, v)
      modifies specs, nodes, {builders[i]}`mutation
      ensures SlotsFilled(i, m, old(State())) && nodes[i].f.id == 0 && fresh(nodes[i]) && builders[i].mutation == m
      ensures Describes(s, i + 1) && Separate() && NodesDiffer()
    {
      hide IsSpecOf, NodeOf;
      builders[i].mutation := m;
      var node, spec := NodeAndSpec(rt, m.data);
      nodes[i], specs[i] := node, Some(spec);
    }

    // The slots of builder i are filled from m; nothing else has changed.
    ghost predicate SlotsFilled(i: nat, m: AccountMutation, before: Snapshot)
      reads builders, MutationsFrom(0), specs, nodes, m, set l | 0 <= l < nodes.Length :: nodes[l]
    {
      && Valid() && i < |builders| && |before.specs| == |before.nodes| == |before.mutations| == |before.done| == |builders|
      && specs[i].Some? && IsSpecOf(rt, m.data, NodeOf(m.data), specs[i].value)
      && nodes[i] != null && nodes[i].f == NodeOf(m.data).(id := nodes[i].f.id)
      && State() == Snapshot(before.specs[i := specs[i]], before.nodes[i := nodes[i]],
        before.mutations[i := m], before.done[i := m.done])
    }

    // What builder i, once filled, calls.
    method Continue(i: nat, m: AccountMutation, ghost s: AccountSetup, ghost before: Snapshot)
      returns (error: Option<Error>, ghost log: seq<AccountEvent>, ghost b: Option<DriverError>)
      requires SlotsFilled(i, m, before) && builders[i].mutation == m && Separate() && NodesDiffer() && Describes(s, i + 1)
      requires forall k :: 0 <= k <= i ==> specs[k].Some?
      modifies specs, ids, nodes, From(i + 1)`mutation, MutationsFrom(i + 1)
      ensures Outcome(error, log) == Onward(s, i, b)
      ensures Pending(i, m, log, before, m.done)
      ensures m.done == old(m.done) && m.data == old(m.data) && nodes[i] == old(nodes[i]) && nodes[i].f == old(nodes[i].f)
      decreases |builders| - i, 0, 1
    {
      hide IsSpecOf, NodeOf, Answered, AllFilled, Onward, Recorded;
      ghost var filled := State();
      error, log, b := Next(i, s);
      assert specs[..i + 1][i] == filled.specs[..i + 1][i];
      assert nodes[..i + 1][i] == filled.nodes[..i + 1][i];
    }

    // The next builder, or the batch.
    method Next(i: nat, ghost s: AccountSetup)
      returns (error: Option<Error>, ghost log: seq<AccountEvent>, ghost b: Option<DriverError>)
      requires Valid() && Separate() && NodesDiffer() && i < |builders| && Describes(s, i + 1)
      requires forall k :: 0 <= k <= i ==> specs[k].Some?
      modifies specs, ids, nodes, From(i + 1)`mutation, MutationsFrom(i + 1)
      ensures Outcome(error, log) == Onward(s, i, b)
      ensures Ran(i + 1, log, old(State()))
      decreases |builders| - i, 0, 0
    {
      if i < |builders| - 1 {
        error, log, b := Mutate(i + 1, 0, builders[i + 1].mutation, s, First(s, i + 1));
      } else {
        var err := BatchCreate();
        error, log, b := Wrap(err), [Batch(err)], err;
      }
    }

    method MarkDone(i: nat, m: AccountMutation, ghost inner: seq<AccountEvent>, ghost before: Snapshot,
        ghost wasDone: bool)
      requires Pending(i, m, inner, before, wasDone)
      modifies m, {nodes[i]}`f
      ensures Pending(i, m, inner, before, wasDone) && m.data == old(m.data)
      ensures m.done && m.id == nodes[i]
      ensures nodes[i].f.id == if ids[i].Some? then ids[i].value else old(nodes[i].f.id)
    {
      hide IsSpecOf, Answered, NodeOf;
      m.id := nodes[i];
      if ids[i].Some? {
        nodes[i].f := nodes[i].f.(id := ids[i].value);
      }
      m.done := true;
      ghost var filled := Snapshot(before.specs[i := specs[i]], before.nodes[i := nodes[i]],
        before.mutations[i := m], before.done[i := wasDone]);
      forall k | i + 1 <= k < |builders| ensures Recorded(k, inner, filled) {
        assert old(Recorded(k, inner, filled));
        assert builders[k].mutation != m && (nodes[k] != null ==> nodes[k] != nodes[i]);
      }
    }
  }

  class AccountCreateBulk {
    var err: Option<string>
    var builders: seq<AccountCreate>

    constructor (builders: seq<AccountCreate>)
      ensures this.builders == builders && err == None
    {
      this.builders, err := builders, None;
    }

    ghost predicate Separate()
      reads this, builders
    {
      forall k, l :: 0 <= k < l < |builders| ==>
        builders[k] != builders[l] && builders[k].mutation != builders[l].mutation
    }

    ghost function Mutations(): set<AccountMutation>
      reads this, builders
    {
      set k | 0 <= k < |builders| :: builders[k].mutation
    }

    // The builders as the chain finds them, after defaults.
    ghost function Plans(rt: Runtime): AccountSetup
      reads this, builders, Mutations()
    {
      Setup((m: Mutation) => Check(rt, m),
        seq(|builders|, k requires 0 <= k < |builders| reads this, builders, Mutations() =>
          Plan(AfterDefaults(rt, builders[k].mutation.data), builders[k].hooks)))
    }

    method AllDefaults(rt: Runtime)
      requires Separate()
      modifies Mutations()`data
      ensures forall k :: 0 <= k < |builders| ==>
        builders[k].mutation.data == AfterDefaults(rt, old(builders[k].mutation.data))
    {
      hide AfterDefaults, MissingDefault;
      for i := 0 to |builders|
        invariant forall k :: 0 <= k < i ==> builders[k].mutation.data == AfterDefaults(rt, old(builders[k].mutation.data))
        invariant forall k :: i <= k < |builders| ==> builders[k].mutation.data == old(builders[k].mutation.data)
      {
        var missing := builders[i].Defaults(rt);
      }
    }

    // The batch, if any, got one spec for each builder, made from what the builder built.
    static ghost predicate SpecsFit(rt: Runtime, driver: BatchDriver, n: nat, log: seq<AccountEvent>,
        b: Option<DriverError>, specs: seq<Spec>) {
      forall res :: Batch(res) in log ==>
        && res == b == driver.create(specs) && |specs| == n
        && forall k: nat, d :: k < n && Built(k, d) in log ==> IsSpecOf(rt, d, NodeOf(d), specs[k])
    }

    // The nodes are made from what was built, and show the ids that the database gave out.
    static ghost predicate NodesFit(driver: BatchDriver, nodes: seq<Account?>, log: seq<AccountEvent>, specs: seq<Spec>)
      reads set k | 0 <= k < |nodes| :: nodes[k]
    {
      && (forall k: nat, d :: k < |nodes| && Built(k, d) in log ==>
        nodes[k] != null && nodes[k].f == NodeOf(d).(id := nodes[k].f.id))
      && (Batch(None) in log ==> forall k: nat :: k < |nodes| && Done(k) in log && nodes[k] != null ==>
        nodes[k].f.id == Get(driver.generated(specs, k), 0))
    }

    ghost function Objects(): seq<AccountMutation>
      reads this, builders
    {
      seq(|builders|, k requires 0 <= k < |builders| reads this, builders => builders[k].mutation)
    }

    ghost function DoneFlags(): seq<bool>
      reads this, builders, Mutations()
    {
      seq(|builders|, k requires 0 <= k < |builders| reads this, builders, Mutations() => builders[k].mutation.done)
    }

    // The builders' mutations, as the log has them: done ones point to their node, and the
    // others are as done as they were.
    static ghost predicate Marked(builders: seq<AccountCreate>, log: seq<AccountEvent>, nodes: seq<Account?>,
        objects: seq<AccountMutation>, done: seq<bool>)
      reads builders, set k | 0 <= k < |builders| :: builders[k].mutation
    {
      && |nodes| == |builders| == |objects| == |done|
      && forall k :: 0 <= k < |builders| ==>
        && (forall d :: Built(k, d) in log ==> builders[k].mutation.data == d)
        && (Done(k) in log ==> builders[k].mutation.id == nodes[k])
        && (builders[k].mutation.done <==> Done(k) in log || (builders[k].mutation == objects[k] && done[k]))
    }

    // Defaults, whose errors are discarded, and then the chain. The nodes are returned
    // only if the whole chain reports success.
    method Save(rt: Runtime, driver: BatchDriver)
      returns (r: Result<seq<Account?>, Error>, ghost log: seq<AccountEvent>, ghost b: Option<DriverError>,
        ghost specs: seq<Spec>, ghost nodes: seq<Account?>)
      requires Separate()
      modifies builders`mutation, Mutations()
      ensures err.Some? ==>
        r == Err(BuilderError(err.value)) && log == [] && unchanged(builders) && unchanged(old(Mutations()))
      ensures err.None? && builders == [] ==> r == Ok([]) && log == []
      ensures err.None? && builders != [] ==>
        BulkTheorems.Whole(old(Plans(rt)), b) == Outcome(if r.Ok? then None else Some(r.error), log)
      ensures err.None? ==> SpecsFit(rt, driver, |builders|, log, b, specs)
      ensures err.None? ==> NodesFit(driver, nodes, log, specs) && Marked(builders, log, nodes, old(Objects()), old(DoneFlags()))
      ensures r.Ok? ==> r.value == nodes
    {
      log, b, specs, nodes := [], None, [], [];
      if err.Some? {
        return Err(BuilderError(err.value)), log, b, specs, nodes;
      }
      var created, error;
      if |builders| == 0 {
        return Ok([]), log, b, specs, nodes;
      }
      hide Run, NodesFit, SpecsFit, Marked, AfterDefaults, MissingDefault;
      AllDefaults(rt);
      assert Objects() == old(Objects()) && DoneFlags() == old(DoneFlags());
      created, error, log, b, specs := RunChain(rt, driver, old(Plans(rt)));
      nodes := created;
      r := if error.None? then Ok(created) else Err(error.value);
    }

    method RunChain(rt: Runtime, driver: BatchDriver, ghost s: AccountSetup)
      returns (nodes: seq<Account?>, error: Option<Error>, ghost log: seq<AccountEvent>, ghost b: Option<DriverError>, ghost specs: seq<Spec>)
      requires Separate() && |builders| > 0 && |s.builders| == |builders| && forall m :: s.check(m) == Check(rt, m)
      requires forall k :: 0 <= k < |builders| ==> s.builders[k] == Plan(builders[k].mutation.data, builders[k].hooks)
      modifies builders`mutation, Mutations()
      ensures BulkTheorems.Whole(s, b) == Outcome(error, log)
      ensures SpecsFit(rt, driver, |builders|, log, b, specs)
      ensures NodesFit(driver, nodes, log, specs) && Marked(builders, log, nodes, old(Objects()), old(DoneFlags()))
    {
      hide Run, IsSpecOf, NodeOf;
      var run := new BulkRun(rt, driver, builders);
      ghost var before := run.State();
      assert before.mutations == Objects() && before.done == DoneFlags();
      assert run.Ready(0, builders[0].mutation, s, First(s, 0));
      hide BulkRun.Ready, BulkRun.Ran, BulkRun.Recorded, BulkRun.State, BulkRun.Answered, First, Check, Marked, NodesFit, SpecsFit;
      error, log, b := run.Mutate(0, 0, builders[0].mutation, s, First(s, 0));
      specs := run.Specs();
      nodes := run.nodes[..];
      BulkTheorems.BatchResult(s, 0, 0, First(s, 0), b);
      Summary(run, log, before, b);
      MarkedBy(run, log, before);
    }

    static lemma MarkedBy(run: BulkRun, log: seq<AccountEvent>, before: Snapshot)
      requires run.Ran(0, log, before)
      ensures Marked(run.builders, log, run.nodes[..], before.mutations, before.done)
    {
      hide IsSpecOf, NodeOf;
      forall k | 0 <= k < |run.builders|
        ensures forall d :: Built(k, d) in log ==> run.builders[k].mutation.data == d
        ensures Done(k) in log ==> run.builders[k].mutation.id == run.nodes[k]
        ensures run.builders[k].mutation.done <==>
          Done(k) in log || (run.builders[k].mutation == before.mutations[k] && before.done[k])
      {
        assert run.Recorded(k, log, before);
      }
    }

    static lemma Summary(run: BulkRun, log: seq<AccountEvent>, before: Snapshot, b: Option<DriverError>)
      requires run.Ran(0, log, before)
      requires forall ev <- log :: ev.Batch? ==> ev.result == b
      ensures SpecsFit(run.rt, run.driver, |run.builders|, log, b, run.Specs())
      ensures NodesFit(run.driver, run.nodes[..], log, run.Specs())
    {
      hide IsSpecOf, NodeOf;
      forall res | Batch(res) in log
        ensures res == b && run.AllFilled() && b == run.driver.create(run.AllSpecs())
        ensures b.None? ==> forall k :: 0 <= k < run.ids.Length ==> run.ids[k] == run.driver.generated(run.AllSpecs(), k)
      {
        var ev: AccountEvent := Batch(res);
        assert ev in log && run.Answered(res);
      }
      forall k: nat, d | k < |run.builders| && Built(k, d) in log
        ensures run.specs[k].Some? && IsSpecOf(run.rt, d, NodeOf(d), run.specs[k].value)
        ensures run.nodes[k] != null && run.nodes[k].f == NodeOf(d).(id := run.nodes[k].f.id)
      {
        assert run.Recorded(k, log, before);
      }
      forall k: nat | k < |run.builders| && Done(k) in log
        ensures run.nodes[k] != null && run.nodes[k].f.id == Get(run.ids[k], 0)
      {
        assert run.Recorded(k, log, before);
      }
    }
  }

  // ---- rows that reach the batch ---------------------------------------------------

  // A mutation with every required field, all accepted by their validators.
  ghost predicate CompleteRow(rt: Runtime, m: Mutation) {
    (forall c :: IsRequired(c) ==> Written(m, c).Some?) && (forall c :: Accepts(rt, m, c))
  }

  // Whatever the hooks do, the rows that builders contribute to the batch are complete,
  // exactly when those are that reach their builder unchecked.
  lemma RowsAreComplete(rt: Runtime, s: AccountSetup, b: Option<DriverError>)
    requires s.builders != [] && forall m :: s.check(m) == Check(rt, m)
    ensures (forall k, m :: Built(k, m) in BulkTheorems.Whole(s, b).log ==> CompleteRow(rt, m))
      <==> forall k :: 0 <= k < |s.builders| && BulkTheorems.Unchecked(s, k).Some? ==>
        CompleteRow(rt, BulkTheorems.Unchecked(s, k).value)
  {
    hide Check, CompleteRow;
    forall m ensures CompleteRow(rt, m) <==> s.check(m).None? { CompleteIsChecked(rt, m); }
    BulkTheorems.BuiltPassesCheck(s, b);
  }

  lemma CompleteIsChecked(rt: Runtime, m: Mutation)
    ensures CompleteRow(rt, m) <==> Check(rt, m).None?
  {
    hide Check, Written, Accepts;
    CheckPasses(rt, m);
  }

  // A hook that substitutes a mutation: the check looks at the builder's own, and the
  // other one is inserted, whatever is wrong with it.
  lemma SubstituteIsNotChecked(rt: Runtime, own: Mutation, other: Mutation) returns (s: AccountSetup)
    requires Check(rt, own).None? && Check(rt, other).Some?
    ensures |s.builders| == 1 && s.builders[0].mutation == own && forall m :: s.check(m) == Check(rt, m)
    ensures BulkTheorems.Unchecked(s, 0) == Some(other)
    ensures var log := BulkTheorems.Whole(s, None).log;
      Built(0, other) in log && Batch(None) in log && Done(0) in log
  {
    hide Check;
    var swap := Hook((m: Option<Mutation>) => Substitute(other), (e: Option<Error>) => e);
    s := Setup((m: Mutation) => Check(rt, m), [Plan(own, [swap])]);
    var v := View(own, Another(other));
    assert BulkTheorems.Descend([swap], 1, v) == Some(v) && BulkTheorems.Reaching(s, 0) == Some(v);
    assert Run(s, 0, 1, v, None).log == [Built(0, other), Batch(None), Done(0)];
    assert BulkTheorems.Whole(s, None).log == [Entered(0, 0), Built(0, other), Batch(None), Done(0), Left(0, 0, None)];
  }

  const NothingSet: Mutation := Mutation(
    None, None, None, None, None, None, None, None, None, None, None, None, None, None, None, None, None, None,
    None, None, None, None, None, None, None, None, None, None, None, None, None, {}, {}, {})

  // For example, a mutation with nothing set in place of one with a name, a platform and a
  // type, under validators that accept everything.
  lemma SubstituteExample() returns (rt: Runtime, own: Mutation)
    ensures Check(rt, own).None? && Check(rt, NothingSet) == Some(Missing(FieldCreatedAt))
  {
    var any := (v: string) => true;
    rt := Runtime(Some(0), Some(0), Some(NilMap), Some(NilMap), 0, 0, 1.0, "active", true, true, any, any, any, any, any, 0, 0);
    own := AfterDefaults(rt, NothingSet.(name := Some("a"), platform := Some("p"), accountType := Some("t")));
  }

  // The value of a column after defaults: what was set, or else the column's own default.
  function WithDefault(rt: Runtime, m: Mutation, c: Column): Option<FieldValue> {
    if Written(m, c).Some? then Written(m, c) else DefaultOf(rt, c)
  }

  // A builder without hooks is built from its mutation as it was set up, with the columns
  // that were left unset holding their defaults, and with the same edges.
  lemma BuiltWithDefaults(rt: Runtime, s: AccountSetup, b: Option<DriverError>, k: nat, m: Mutation, built: Mutation)
    requires k < |s.builders| && forall m :: s.check(m) == Check(rt, m)
    requires s.builders[k] == Plan(AfterDefaults(rt, m), []) && Built(k, built) in BulkTheorems.Whole(s, b).log
    ensures SameEdges(built, m) && forall c :: Written(built, c) == WithDefault(rt, m, c)
  {
    hide Check, Written, DefaultOf, AfterDefaults;
    BulkTheorems.BuiltInWhole(s, b, k, built);
    if MissingDefault(rt, m).Some? { DefaultsFailThenCheckFails(rt, rt, m); }
    forall c ensures Written(built, c) == WithDefault(rt, m, c) { DefaultsFill(rt, m, c); }
    DefaultsKeepEdges(rt, m);
  }

  // A hook that does not touch the mutation, though it may reject it.
  ghost predicate Transparent(h: AccountHook) {
    forall m :: h.before(Some(m)) == Forward(m) || h.before(Some(m)).Reject? || h.before(Some(m)).Answer?
  }

  lemma {:induction false} TransparentDescend(hooks: seq<AccountHook>, j: nat, v: View<Mutation>)
    requires j <= |hooks| && v.passed.Own? && forall h <- hooks :: Transparent(h)
    ensures var at := BulkTheorems.Descend(hooks, j, v); at.Some? ==> at.value == v
    decreases |hooks| - j
  {
    if j < |hooks| {
      assert Transparent(hooks[j]) && hooks[j].before(Some(v.own)) == hooks[j].before(v.Seen());
      match Before(hooks[j], v)
      case Stop(_) =>
      case Go(v') =>
        assert v' == v;
        TransparentDescend(hooks, j + 1, v');
    }
  }

  // The discarded error of defaults: if the defaults of one builder fail, and its hooks do
  // not touch its mutation, there is no batch and nothing is marked done from there on.
  lemma DiscardedErrorStopsBatch(rt: Runtime, s: AccountSetup, b: Option<DriverError>, k: nat, m: Mutation)
    requires k < |s.builders| && forall m :: s.check(m) == Check(rt, m)
    requires s.builders[k].mutation == AfterDefaults(rt, m) && MissingDefault(rt, m).Some?
    requires forall h <- s.builders[k].hooks :: Transparent(h)
    ensures BulkTheorems.Batches(BulkTheorems.Whole(s, b).log) == 0
    ensures forall l :: k <= l < |s.builders| ==> Done(l) !in BulkTheorems.Whole(s, b).log
  {
    hide AfterDefaults, Check, MissingDefault;
    DefaultsFailThenCheckFails(rt, rt, m);
    TransparentDescend(s.builders[k].hooks, 0, First(s, k));
    assert !BulkTheorems.Builds(s, BulkTheorems.Reaching(s, k));
    BulkTheorems.BatchInWhole(s, b);
    forall l | k <= l < |s.builders| ensures Done(l) !in BulkTheorems.Whole(s, b).log {
      BulkTheorems.DoneInWhole(s, b, l);
    }
  }

  // What a successful bulk returns is what the database now holds: reading the row of the
  // k-th spec gives the k-th node, with the generated id.
  lemma CreatedThenRead(codec: Codec, rt: Runtime, driver: BatchDriver, n: nat, log: seq<AccountEvent>,
      specs: seq<Spec>,
    nodes: seq<Account?>, k: nat, m: Mutation, id: int)
    requires Invertible(codec) && k < n == |nodes|
    requires AccountCreateBulk.SpecsFit(rt, driver, n, log, None, specs) && Batch(None) in log
    requires AccountCreateBulk.NodesFit(driver, nodes, log, specs)
    requires Built(k, m) in log && Done(k) in log && driver.generated(specs, k) == Some(id)
    ensures |specs| == n && nodes[k] != null
    ensures Typed(codec, RowOf(codec, specs[k], id)) && Project(codec, RowOf(codec, specs[k], id), Columns) == nodes[k].f
  {
    hide IsSpecOf, NodeOf, RowOf, Typed, Project;
    CreateThenRead(codec, rt, m, NodeOf(m), specs[k], id);
  }
}
