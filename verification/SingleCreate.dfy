// AccountCreate.Save: the hooks around one insert. Unlike the bulk, it reports the error
// of defaults, and it copies the mutation that reaches it before it checks.
module SingleCreate {
  import opened Common
  import opened AccountMutations
  import opened CreateSpecs
  import opened BulkChain
  import BulkTheorems
  import opened BulkCreate

  // ---- the run over values ---------------------------------------------------------

  // withHooks from hook j on; behind the last hook is sqlSave. `b` is what the database
  // answers to the insert, which is logged as a batch of one.
  function RunOne(check: Mutation -> Option<CheckError>, hooks: seq<AccountHook>, j: nat, v: View<Mutation>,
      b: Option<DriverError>)
    : Outcome<Mutation, CheckError>
    requires j <= |hooks|
    decreases |hooks| - j
  {
    if j < |hooks| then
      match Before(hooks[j], v)
      case Stop(e) => Outcome(e, [Entered(0, j), Left(0, j, e)])
      case Go(v') => Around(hooks[j], 0, j, RunOne(check, hooks, j + 1, v', b))
    else if v.passed.OtherType? then
      Outcome(Some(UnexpectedMutationType), [])
    else if check(v.Seen().value).Some? then
      var cause := check(v.Seen().value).value;
      Outcome(Some(ValidationError(cause)), [CheckFailed(0, cause)])
    else
      Finish(0, v.Seen().value, Outcome(Wrap(b), [Batch(b)]))
  }

  // Whatever the hooks do, what is inserted has passed the check, and a mutation is marked
  // done exactly when the insert succeeded.
  lemma {:induction false} InsertedIsChecked(check: Mutation -> Option<CheckError>, hooks: seq<AccountHook>,
      j: nat, v: View<Mutation>, b: Option<DriverError>)
    requires j <= |hooks|
    ensures forall i, m :: Built(i, m) in RunOne(check, hooks, j, v, b).log ==> check(m).None?
    ensures Done(0) in RunOne(check, hooks, j, v, b).log <==> Batch(None) in RunOne(check, hooks, j, v, b).log
    decreases |hooks| - j
  {
    if j < |hooks| {
      match Before(hooks[j], v)
      case Stop(_) =>
      case Go(v') =>
        InsertedIsChecked(check, hooks, j + 1, v', b);
        AroundKeeps(hooks[j], j, RunOne(check, hooks, j + 1, v', b));
    }
  }

  lemma AroundKeeps(h: AccountHook, j: nat, inner: Outcome<Mutation, CheckError>)
    ensures SameSteps(inner.log, Around(h, 0, j, inner).log)
  {
  }

  // What is inserted is what reaches the save through the hooks, exactly when it passes the
  // check.
  lemma {:induction false} InsertedReaches(check: Mutation -> Option<CheckError>, hooks: seq<AccountHook>, j: nat,
      v: View<Mutation>, b: Option<DriverError>, m: Mutation)
    requires j <= |hooks|
    ensures Built(0, m) in RunOne(check, hooks, j, v, b).log <==>
      var at := BulkTheorems.Descend(hooks, j, v);
      at.Some? && at.value.Seen() == Some(m) && check(m).None?
    decreases |hooks| - j
  {
    if j < |hooks| {
      match Before(hooks[j], v)
      case Stop(_) =>
      case Go(v') =>
        InsertedReaches(check, hooks, j + 1, v', b, m);
        AroundKeeps(hooks[j], j, RunOne(check, hooks, j + 1, v', b));
    }
  }

  // With honest hooks, success means that the row was inserted.
  lemma {:induction false} HonestSuccess(check: Mutation -> Option<CheckError>, hooks: seq<AccountHook>,
      j: nat, v: View<Mutation>, b: Option<DriverError>)
    requires j <= |hooks| && forall h <- hooks :: BulkTheorems.Honest(h)
    ensures RunOne(check, hooks, j, v, b).error.None? ==> Batch(None) in RunOne(check, hooks, j, v, b).log
    decreases |hooks| - j
  {
    if j < |hooks| {
      assert BulkTheorems.Honest(hooks[j]);
      match Before(hooks[j], v)
      case Stop(_) =>
      case Go(v') => HonestSuccess(check, hooks, j + 1, v', b);
    }
  }

  // ---- the builder -----------------------------------------------------------------

  // CreateNode: it fails, or returns the generated id.
  datatype InsertDriver = InsertDriver(insert: Spec -> Option<DriverError>, generated: Spec -> int)

  // What the builder's mutation and the returned node are after the logged run.
  ghost predicate Inserted(rt: Runtime, driver: InsertDriver, mutation: AccountMutation,
      log: seq<AccountEvent>, b: Option<DriverError>, spec: Spec)
    reads mutation, mutation.id
  {
    && (forall m :: Built(0, m) in log ==> mutation.data == m && IsSpecOf(rt, m, NodeOf(m), spec) && b == driver.insert(spec))
    && (forall m :: Built(0, m) in log && Done(0) in log ==>
      mutation.done && mutation.id != null && mutation.id.f == NodeOf(m).(id := driver.generated(spec)))
  }

  method SqlSave(rt: Runtime, driver: InsertDriver, builder: AccountCreate)
    returns (error: Option<Error>, ghost log: seq<AccountEvent>, ghost b: Option<DriverError>, ghost spec: Spec)
    modifies builder.mutation
    ensures builder.mutation.data == old(builder.mutation.data)
    ensures Outcome(error, log) == RunOne(m => Check(rt, m), [], 0, View(builder.mutation.data, Own), b)
    ensures Inserted(rt, driver, builder.mutation, log, b, spec)
  {
    hide IsSpecOf, NodeOf;
    b, spec, log := None, Spec(map[], []), [];
    var failed := Check(rt, builder.mutation.data);
    if failed.Some? {
      log := [CheckFailed(0, failed.value)];
      return Some(ValidationError(failed.value)), log, b, spec;
    }
    hide Check;
    var node, made := BulkRun.NodeAndSpec(rt, builder.mutation.data);
    var err := driver.insert(made);
    b, spec, log := err, made, [Built(0, builder.mutation.data), Batch(err)];
    if err.Some? {
      return Wrap(err), log, b, spec;
    }
    node.f := node.f.(id := driver.generated(made));
    builder.mutation.id := node;
    builder.mutation.done := true;
    log := log + [Done(0)];
    error := None;
  }

  // The object m is what the mutators see as v.
  ghost predicate ShowsOne(builder: AccountCreate, m: AccountMutation?, v: View<Mutation>)
    reads builder, builder.mutation, m
  {
    && v.own == builder.mutation.data
    && match v.passed
       case Own => m == builder.mutation
       case Another(d) => m != null && m != builder.mutation && m.data == d
       case OtherType => m == null
  }

  method WithHooks(rt: Runtime, driver: InsertDriver, builder: AccountCreate, j: nat, m: AccountMutation?,
      ghost v: View<Mutation>)
    returns (error: Option<Error>, ghost log: seq<AccountEvent>, ghost b: Option<DriverError>, ghost spec: Spec)
    requires j <= |builder.hooks| && ShowsOne(builder, m, v)
    modifies builder.mutation, if m == null then {} else {m}
    ensures Outcome(error, log) == RunOne(m => Check(rt, m), builder.hooks, j, v, b)
    ensures Inserted(rt, driver, builder.mutation, log, b, spec)
    decreases |builder.hooks| - j
  {
    hide IsSpecOf, NodeOf, Check, Inserted;
    if j == |builder.hooks| {
      error, log, b, spec := TakeOver(rt, driver, builder, m, v);
      return;
    }
    var hook, next := builder.hooks[j], m;
    match hook.before(if m == null then None else Some(m.data)) {
      case Reject(e) =>
        NothingInserted(rt, driver, builder.mutation, [Entered(0, j), Left(0, j, Some(e))]);
        return Some(e), [Entered(0, j), Left(0, j, Some(e))], None, Spec(map[], []);
      case Answer =>
        NothingInserted(rt, driver, builder.mutation, [Entered(0, j), Left(0, j, None)]);
        return None, [Entered(0, j), Left(0, j, None)], None, Spec(map[], []);
      case Forward(edited) =>
        if m != null { m.data := edited; }
      case Substitute(other) =>
        next := new AccountMutation(other);
      case Foreign =>
        next := null;
    }
    ghost var inner: seq<AccountEvent>;
    error, inner, b, spec := WithHooks(rt, driver, builder, j + 1, next, Before(hook, v).v);
    AroundKeeps(hook, j, Outcome(error, inner));
    error := hook.after(error);
    log := [Entered(0, j)] + inner + [Left(0, j, error)];
    InsertedSame(rt, driver, builder.mutation, inner, log, b, spec);
  }

  // Entries of hooks do not matter.
  lemma InsertedSame(rt: Runtime, driver: InsertDriver, mutation: AccountMutation, a: seq<AccountEvent>, c: seq<AccountEvent>,
      b: Option<DriverError>, spec: Spec)
    requires Inserted(rt, driver, mutation, a, b, spec) && SameSteps(a, c)
    ensures Inserted(rt, driver, mutation, c, b, spec)
  {
    assert Done(0) in a <==> Done(0) in c;
    assert forall m :: Built(0, m) in c ==> Built(0, m) in a;
    hide IsSpecOf, NodeOf, SameSteps;
  }

  lemma NothingInserted(rt: Runtime, driver: InsertDriver, mutation: AccountMutation, log: seq<AccountEvent>)
    requires forall ev <- log :: ev.Entered? || ev.Left?
    ensures Inserted(rt, driver, mutation, log, None, Spec(map[], []))
  {
  }

  // Behind the last hook: the mutation that arrives is copied into the builder's and saved.
  method TakeOver(rt: Runtime, driver: InsertDriver, builder: AccountCreate, m: AccountMutation?, ghost v: View<Mutation>)
    returns (error: Option<Error>, ghost log: seq<AccountEvent>, ghost b: Option<DriverError>, ghost spec: Spec)
    requires ShowsOne(builder, m, v)
    modifies builder.mutation
    ensures Outcome(error, log) == RunOne(m => Check(rt, m), builder.hooks, |builder.hooks|, v, b)
    ensures Inserted(rt, driver, builder.mutation, log, b, spec)
  {
    hide IsSpecOf, NodeOf, Check;
    if m == null {
      return Some(UnexpectedMutationType), [], None, Spec(map[], []);
    }
    builder.mutation.data, builder.mutation.id, builder.mutation.done := m.data, m.id, m.done;
    error, log, b, spec := SqlSave(rt, driver, builder);
  }

  // The error of defaults is reported, and then nothing runs.
  method Save(rt: Runtime, driver: InsertDriver, builder: AccountCreate)
    returns (error: Option<Error>, ghost log: seq<AccountEvent>, ghost b: Option<DriverError>, ghost spec: Spec)
    modifies builder.mutation
    ensures MissingDefault(rt, old(builder.mutation.data)).Some? ==> error.Some? && log == []
    ensures MissingDefault(rt, old(builder.mutation.data)).None? ==>
      Outcome(error, log) == RunOne(m => Check(rt, m), builder.hooks, 0, View(AfterDefaults(rt, old(builder.mutation.data)), Own), b)
    ensures Inserted(rt, driver, builder.mutation, log, b, spec)
    ensures builder.hooks == [] ==> forall m, c :: Built(0, m) in log ==>
      Written(m, c) == WithDefault(rt, old(builder.mutation.data), c)
  {
    hide IsSpecOf, NodeOf, Check, MissingDefault, AfterDefaults, Written, WithDefault;
    log, b, spec := [], None, Spec(map[], []);
    var missing := builder.Defaults(rt);
    if missing.Some? {
      return Some(BuilderError("uninitialized default")), log, b, spec;
    }
    ghost var filled := builder.mutation.data;
    error, log, b, spec := WithHooks(rt, driver, builder, 0, builder.mutation, View(builder.mutation.data, Own));
    if builder.hooks == [] {
      forall m | Built(0, m) in log ensures m == filled { OnlyOwn(m => Check(rt, m), filled, b, m); }
    }
  }

  // Without hooks, the builder's own mutation is built.
  lemma OnlyOwn(check: Mutation -> Option<CheckError>, own: Mutation, b: Option<DriverError>, m: Mutation)
    requires Built(0, m) in RunOne(check, [], 0, View(own, Own), b).log
    ensures m == own
  {
  }
}
