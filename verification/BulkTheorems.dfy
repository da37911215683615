// What every bulk create run keeps, whatever the hooks and the database do.
module BulkTheorems {
  import opened Common
  import opened BulkChain

  // ---- the order of the steps ------------------------------------------------------

  // The steps of the mutators themselves, without the hooks.
  ghost function Steps<M, E>(log: seq<Event<M, E>>): seq<Event<M, E>> {
    if log == [] then []
    else if log[0].Entered? || log[0].Left? then Steps(log[1..])
    else [log[0]] + Steps(log[1..])
  }

  lemma {:induction false} StepsConcat<M, E>(a: seq<Event<M, E>>, b: seq<Event<M, E>>)
    ensures Steps(a + b) == Steps(a) + Steps(b)
  {
    if a == [] {
      assert a + b == b;
    } else {
      assert (a + b)[1..] == a[1..] + b;
      StepsConcat(a[1..], b);
    }
  }

  ghost function BuiltFrom<M, E>(i: nat, ms: seq<M>): seq<Event<M, E>>
    decreases ms
  {
    if ms == [] then [] else [Built(i, ms[0])] + BuiltFrom(i + 1, ms[1..])
  }

  ghost function DoneAll<M, E>(ds: seq<nat>): seq<Event<M, E>> {
    if ds == [] then [] else DoneAll(ds[..|ds| - 1]) + [Done(ds[|ds| - 1])]
  }

  predicate Descending(ds: seq<nat>, low: nat, high: nat) {
    && (forall x :: 0 <= x < |ds| ==> low <= ds[x] < high)
    && (forall x, y :: 0 <= x < y < |ds| ==> ds[x] > ds[y])
  }

  // The deepest step of a run that got through k builders: a failed check of builder k,
  // the batch when all have been built, or none when a hook of builder k stopped the run.
  ghost predicate Turn<M, E>(n: nat, k: nat, b: Option<DriverError>, turn: seq<Event<M, E>>) {
    || (k < n && turn == [])
    || (k < n && |turn| == 1 && turn[0].CheckFailed? && turn[0].i == k)
    || (k == n && turn == [Batch(b)])
  }

  // A log of mutators i and up: builders are built in order up to some k; builder k fails
  // its check, or the batch of all is created; and then mutations are marked done in the
  // opposite order.
  ghost predicate InOrder<M, E>(log: seq<Event<M, E>>, n: nat, i: nat, b: Option<DriverError>, ms: seq<M>,
      turn: seq<Event<M, E>>, ds: seq<nat>) {
    && Steps(log) == BuiltFrom(i, ms) + turn + DoneAll(ds)
    && i + |ms| <= n && Turn(n, i + |ms|, b, turn)
    && Descending(ds, i, i + |ms|)
  }

  lemma {:induction false} StepOrder<M(!new), E(!new)>(s: Setup<M, E>, i: nat, j: nat, v: View<M>,
      b: Option<DriverError>)
    returns (ms: seq<M>, turn: seq<Event<M, E>>, ds: seq<nat>)
    requires i < |s.builders| && j <= |s.builders[i].hooks|
    ensures InOrder(Run(s, i, j, v, b).log, |s.builders|, i, b, ms, turn, ds)
    decreases |s.builders| - i, |s.builders[i].hooks| - j
  {
    hide InOrder, Around, Finish;
    var n := |s.builders|;
    ms, turn, ds := [], [], [];
    if j < |s.builders[i].hooks| {
      var h := s.builders[i].hooks[j];
      match Before(h, v)
      case Stop(e) =>
        HookStopped<M, E>(n, i, j, e, b);
      case Go(v') =>
        ms, turn, ds := StepOrder(s, i, j + 1, v', b);
        OrderOfHook(h, i, j, Run(s, i, j + 1, v', b), n, b, ms, turn, ds);
    } else if v.passed.OtherType? {
      NothingDone<M, E>(n, i, b);
    } else if s.check(v.own).Some? {
      turn := [CheckFailed(i, s.check(v.own).value)];
      CheckStopped<M, E>(n, i, s.check(v.own).value, b);
    } else {
      var inner: Outcome<M, E>;
      if i + 1 < n {
        ms, turn, ds := StepOrder(s, i + 1, 0, First(s, i + 1), b);
        inner := Run(s, i + 1, 0, First(s, i + 1), b);
      } else {
        turn := [Batch(b)];
        inner := Outcome(Wrap(b), [Batch(b)]);
        BatchDone<M, E>(n, b);
      }
      OrderOfMutator(i, v.Seen().value, inner, n, b, ms, turn, ds);
      ms, ds := [v.Seen().value] + ms, if inner.error.None? then ds + [i] else ds;
    }
  }

  lemma HookStopped<M, E>(n: nat, i: nat, j: nat, e: Option<Failure<E>>, b: Option<DriverError>)
    requires i < n
    ensures InOrder<M, E>([Entered(i, j), Left(i, j, e)], n, i, b, [], [], [])
  {
    NothingDone<M, E>(n, i, b);
    var entered: seq<Event<M, E>>, left: seq<Event<M, E>> := [Entered(i, j)], [Left(i, j, e)];
    assert [Entered(i, j), Left(i, j, e)] == entered + left;
    StepsConcat(entered, left);
  }

  lemma NothingDone<M, E>(n: nat, i: nat, b: Option<DriverError>)
    requires i < n
    ensures InOrder<M, E>([], n, i, b, [], [], [])
  {
  }

  lemma CheckStopped<M, E>(n: nat, i: nat, e: E, b: Option<DriverError>)
    requires i < n
    ensures InOrder<M, E>([CheckFailed(i, e)], n, i, b, [], [CheckFailed(i, e)], [])
  {
  }

  lemma BatchDone<M, E>(n: nat, b: Option<DriverError>)
    ensures InOrder<M, E>([Batch(b)], n, n, b, [], [Batch(b)], [])
  {
  }

  lemma OrderOfHook<M(!new), E(!new)>(h: Hook<M, E>, i: nat, j: nat, inner: Outcome<M, E>,
    n: nat, b: Option<DriverError>, ms: seq<M>, turn: seq<Event<M, E>>, ds: seq<nat>)
    requires InOrder(inner.log, n, i, b, ms, turn, ds)
    ensures InOrder(Around(h, i, j, inner).log, n, i, b, ms, turn, ds)
  {
    var e := h.after(inner.error);
    StepsConcat([Entered(i, j)] + inner.log, [Left(i, j, e)]);
    StepsConcat([Entered(i, j)], inner.log);
  }

  lemma OrderOfMutator<M, E>(i: nat, m: M, inner: Outcome<M, E>,
    n: nat, b: Option<DriverError>, ms: seq<M>, turn: seq<Event<M, E>>, ds: seq<nat>)
    requires InOrder(inner.log, n, i + 1, b, ms, turn, ds)
    ensures InOrder(Finish(i, m, inner).log, n, i, b, [m] + ms, turn, if inner.error.None? then ds + [i] else ds)
  {
    hide Steps, DoneAll, BuiltFrom, Turn, Descending, Finish;
    var last: seq<Event<M, E>> := if inner.error.None? then [Done(i)] else [];
    FinishSteps(i, m, inner);
    DoneMore<M, E>(ds, i, inner.error.None?);
    BuiltMore<M, E>(i, m, ms);
    MoreDone(ds, i, |ms|);
    Reassociate([Built(i, m)], BuiltFrom(i + 1, ms), turn, DoneAll(ds), last);
    assert i + |[m] + ms| == i + 1 + |ms|;
  }

  lemma FinishSteps<M, E>(i: nat, m: M, inner: Outcome<M, E>)
    ensures Steps(Finish(i, m, inner).log) == [Built(i, m)] + Steps(inner.log) + if inner.error.None? then [Done(i)] else []
  {
    var built: seq<Event<M, E>>, last: seq<Event<M, E>> := [Built(i, m)], if inner.error.None? then [Done(i)] else [];
    StepsConcat(built + inner.log, last);
    StepsConcat(built, inner.log);
    OneStep(built[0], last);
    hide Steps;
  }

  lemma OneStep<M, E>(e: Event<M, E>, last: seq<Event<M, E>>)
    requires e.Built? && (last == [] || (|last| == 1 && last[0].Done?))
    ensures Steps([e]) == [e] && Steps(last) == last
  {
  }

  lemma DoneMore<M, E>(ds: seq<nat>, i: nat, finished: bool)
    ensures DoneAll<M, E>(if finished then ds + [i] else ds) == DoneAll<M, E>(ds) + if finished then [Done(i)] else []
  {
    if finished { assert (ds + [i])[..|ds|] == ds; }
  }

  lemma BuiltMore<M, E>(i: nat, m: M, ms: seq<M>)
    ensures BuiltFrom<M, E>(i, [m] + ms) == [Built(i, m)] + BuiltFrom(i + 1, ms)
  {
    assert ([m] + ms)[1..] == ms;
  }

  lemma MoreDone(ds: seq<nat>, i: nat, k: nat)
    requires Descending(ds, i + 1, i + 1 + k)
    ensures Descending(ds, i, i + 1 + k) && Descending(ds + [i], i, i + 1 + k)
  {
  }

  lemma Reassociate<T>(a: seq<T>, b: seq<T>, c: seq<T>, d: seq<T>, e: seq<T>)
    ensures a + (b + c + d) + e == (a + b) + c + (d + e)
  {
  }

  // ---- the nesting of the hooks ----------------------------------------------------

  ghost function HookEvents<M, E>(log: seq<Event<M, E>>): seq<Event<M, E>> {
    if log == [] then []
    else if log[0].Entered? || log[0].Left? then [log[0]] + HookEvents(log[1..])
    else HookEvents(log[1..])
  }

  lemma {:induction false} HookEventsConcat<M, E>(a: seq<Event<M, E>>, b: seq<Event<M, E>>)
    ensures HookEvents(a + b) == HookEvents(a) + HookEvents(b)
  {
    if a == [] {
      assert a + b == b;
    } else {
      assert (a + b)[1..] == a[1..] + b;
      HookEventsConcat(a[1..], b);
    }
  }

  datatype Position = Position(i: nat, j: nat)

  // All hooks from hook j of builder i on: builder by builder, the outermost hook first.
  ghost function Positions<M, E>(s: Setup<M, E>, i: nat, j: nat): seq<Position>
    requires i < |s.builders| && j <= |s.builders[i].hooks|
    decreases |s.builders| - i, |s.builders[i].hooks| - j
  {
    if j < |s.builders[i].hooks| then [Position(i, j)] + Positions(s, i, j + 1)
    else if i + 1 < |s.builders| then Positions(s, i + 1, 0)
    else []
  }

  // The hooks at ps are entered one inside the other, and then left in the opposite order.
  ghost function Nest<M, E>(ps: seq<Position>, errors: seq<Option<Failure<E>>>): seq<Event<M, E>>
    requires |errors| == |ps|
  {
    if ps == [] then []
    else [Entered(ps[0].i, ps[0].j)] + Nest(ps[1..], errors[1..]) + [Left(ps[0].i, ps[0].j, errors[0])]
  }

  lemma NestOne<M, E>(p: Position, e: Option<Failure<E>>, ps: seq<Position>, errors: seq<Option<Failure<E>>>)
    requires |errors| == |ps|
    ensures Nest<M, E>([p] + ps, [e] + errors) == [Entered(p.i, p.j)] + Nest(ps, errors) + [Left(p.i, p.j, e)]
  {
    assert ([p] + ps)[1..] == ps && ([e] + errors)[1..] == errors;
  }

  // In every run the hooks entered are the first ones in the order of Positions, each
  // inside the one before: hooks[0] of builder 0 is outermost.
  lemma {:induction false} HooksNested<M(!new), E(!new)>(s: Setup<M, E>, i: nat, j: nat, v: View<M>,
      b: Option<DriverError>)
    returns (ps: seq<Position>, errors: seq<Option<Failure<E>>>)
    requires i < |s.builders| && j <= |s.builders[i].hooks|
    ensures |errors| == |ps| && HookEvents(Run(s, i, j, v, b).log) == Nest(ps, errors)
    ensures ps <= Positions(s, i, j)
    decreases |s.builders| - i, |s.builders[i].hooks| - j
  {
    hide HookEvents, Nest, Around, Finish;
    ps, errors := [], [];
    NoHooks<M, E>(i);
    if j < |s.builders[i].hooks| {
      var h := s.builders[i].hooks[j];
      match Before(h, v)
      case Stop(e) =>
        ps, errors := [Position(i, j)], [e];
        StoppedHook<M, E>(i, j, e);
      case Go(v') =>
        var inner := Run(s, i, j + 1, v', b);
        var ps', errors' := HooksNested(s, i, j + 1, v', b);
        ps, errors := [Position(i, j)] + ps', [h.after(inner.error)] + errors';
        HooksOfAround(h, i, j, inner, ps', errors');
    } else if v.passed.OtherType? || s.check(v.own).Some? {
      if !v.passed.OtherType? { NoHookEvent<M, E>(CheckFailed(i, s.check(v.own).value)); }
    } else if i + 1 < |s.builders| {
      ps, errors := HooksNested(s, i + 1, 0, First(s, i + 1), b);
      HooksOfFinish(i, v.Seen().value, Run(s, i + 1, 0, First(s, i + 1), b));
    } else {
      NoHookEvent<M, E>(Batch(b));
      HooksOfFinish<M, E>(i, v.Seen().value, Outcome(Wrap(b), [Batch(b)]));
    }
  }

  lemma NoHooks<M, E>(i: nat)
    ensures HookEvents<M, E>([]) == [] && Nest<M, E>([], []) == []
  {
  }

  lemma NoHookEvent<M, E>(e: Event<M, E>)
    requires !e.Entered? && !e.Left?
    ensures HookEvents([e]) == []
  {
  }

  lemma StoppedHook<M, E>(i: nat, j: nat, e: Option<Failure<E>>)
    ensures HookEvents<M, E>([Entered(i, j), Left(i, j, e)]) == Nest([Position(i, j)], [e])
  {
    var entered: seq<Event<M, E>>, left: seq<Event<M, E>> := [Entered(i, j)], [Left(i, j, e)];
    assert [Entered(i, j), Left(i, j, e)] == entered + left;
    HookEventsConcat(entered, left);
    NestOne<M, E>(Position(i, j), e, [], []);
    assert [Position(i, j)] == [Position(i, j)] + [] && [e] == [e] + [];
  }

  lemma HooksOfAround<M(!new), E(!new)>(h: Hook<M, E>, i: nat, j: nat, inner: Outcome<M, E>, ps: seq<Position>,
      errors: seq<Option<Failure<E>>>)
    requires |errors| == |ps| && HookEvents(inner.log) == Nest(ps, errors)
    ensures HookEvents(Around(h, i, j, inner).log) == Nest([Position(i, j)] + ps, [h.after(inner.error)] + errors)
  {
    var entered: seq<Event<M, E>>, left: seq<Event<M, E>> := [Entered(i, j)], [Left(i, j, h.after(inner.error))];
    HookEventsConcat(entered + inner.log, left);
    HookEventsConcat(entered, inner.log);
    NestOne<M, E>(Position(i, j), h.after(inner.error), ps, errors);
  }

  lemma HooksOfFinish<M, E>(i: nat, m: M, inner: Outcome<M, E>)
    ensures HookEvents(Finish(i, m, inner).log) == HookEvents(inner.log)
  {
    var last: seq<Event<M, E>> := if inner.error.None? then [Done(i)] else [];
    HookEventsConcat([Built(i, m)] + inner.log, last);
    HookEventsConcat([Built(i, m)], inner.log);
  }

  // ---- what happens, builder by builder --------------------------------------------

  // What reaches the builder's mutator through the hooks from j on; None when one of
  // them does not call next.
  function Descend<M(!new), E(!new)>(hooks: seq<Hook<M, E>>, j: nat, v: View<M>): Option<View<M>>
    requires j <= |hooks|
    decreases |hooks| - j
  {
    if j == |hooks| then Some(v)
    else match Before(hooks[j], v)
      case Stop(_) => None
      case Go(v') => Descend(hooks, j + 1, v')
  }

  // What the hooks from j on return when the builder's mutator, if they call it, returns e.
  function Unwind<M(!new), E(!new)>(hooks: seq<Hook<M, E>>, j: nat, v: View<M>,
      e: Option<Failure<E>>): Option<Failure<E>>
    requires j <= |hooks|
    decreases |hooks| - j
  {
    if j == |hooks| then e
    else match Before(hooks[j], v)
      case Stop(e') => e'
      case Go(v') => hooks[j].after(Unwind(hooks, j + 1, v', e))
  }

  // A mutator that is called on v builds its node and spec.
  predicate Builds<M(!new), E(!new)>(s: Setup<M, E>, v: Option<View<M>>) {
    v.Some? && !v.value.passed.OtherType? && s.check(v.value.own).None?
  }

  function Reaching<M(!new), E(!new)>(s: Setup<M, E>, i: nat): Option<View<M>>
    requires i < |s.builders|
  {
    Descend(s.builders[i].hooks, 0, First(s, i))
  }

  // The error of builder i's mutator when it is called on v.
  function MutatorError<M(!new), E(!new)>(s: Setup<M, E>, i: nat, v: Option<View<M>>,
      b: Option<DriverError>): Option<Failure<E>>
    requires i < |s.builders|
    decreases |s.builders| - i, 0
  {
    if v.None? then None
    else if v.value.passed.OtherType? then Some(UnexpectedMutationType)
    else if s.check(v.value.own).Some? then Some(ValidationError(s.check(v.value.own).value))
    else Rest(s, i, b)
  }

  // The error of what builder i's mutator calls: the next builder, or the batch.
  function Rest<M(!new), E(!new)>(s: Setup<M, E>, i: nat, b: Option<DriverError>): Option<Failure<E>>
    requires i < |s.builders|
    decreases |s.builders| - i - 1, 2
  {
    if i + 1 == |s.builders| then Wrap(b)
    else Returned(s, i + 1, b)
  }

  // The error that builder i, with its hooks, returns.
  function Returned<M(!new), E(!new)>(s: Setup<M, E>, i: nat, b: Option<DriverError>): Option<Failure<E>>
    requires i < |s.builders|
    decreases |s.builders| - i, 1
  {
    Unwind(s.builders[i].hooks, 0, First(s, i), MutatorError(s, i, Reaching(s, i), b))
  }

  lemma {:induction false} ErrorOfRun<M(!new), E(!new)>(s: Setup<M, E>, i: nat, j: nat, v: View<M>,
      b: Option<DriverError>)
    requires i < |s.builders| && j <= |s.builders[i].hooks|
    ensures Run(s, i, j, v, b).error
      == Unwind(s.builders[i].hooks, j, v, MutatorError(s, i, Descend(s.builders[i].hooks, j, v), b))
    decreases |s.builders| - i, |s.builders[i].hooks| - j
  {
    if j < |s.builders[i].hooks| {
      match Before(s.builders[i].hooks[j], v)
      case Stop(_) =>
      case Go(v') => ErrorOfRun(s, i, j + 1, v', b);
    } else if !v.passed.OtherType? && s.check(v.own).None? && i + 1 < |s.builders| {
      ErrorOfRun(s, i + 1, 0, First(s, i + 1), b);
      assert Rest(s, i, b) == Returned(s, i + 1, b);
    }
  }

  // Builders from i + 1 to k build.
  predicate AllBuild<M(!new), E(!new)>(s: Setup<M, E>, i: nat, k: nat)
    requires k < |s.builders|
  {
    forall l :: i < l <= k ==> Builds(s, Reaching(s, l))
  }

  // Builder k finishes in the part of the run that starts where builder i's mutators see v.
  predicate FinishesFrom<M(!new), E(!new)>(s: Setup<M, E>, i: nat, v: Option<View<M>>, b: Option<DriverError>, k: nat)
    requires i < |s.builders| && k < |s.builders|
  {
    i <= k && Builds(s, v) && AllBuild(s, i, k) && Rest(s, k, b).None?
  }

  lemma {:induction false} DoneInRun<M(!new), E(!new)>(s: Setup<M, E>, i: nat, j: nat, v: View<M>,
      b: Option<DriverError>, k: nat)
    requires i < |s.builders| && j <= |s.builders[i].hooks| && k < |s.builders|
    ensures Done(k) in Run(s, i, j, v, b).log <==> FinishesFrom(s, i, Descend(s.builders[i].hooks, j, v), b, k)
    decreases |s.builders| - i, |s.builders[i].hooks| - j
  {
    hide Around, Finish;
    if j < |s.builders[i].hooks| {
      var h := s.builders[i].hooks[j];
      match Before(h, v)
      case Stop(_) =>
      case Go(v') =>
        DoneInRun(s, i, j + 1, v', b, k);
        DoneAround(h, i, j, Run(s, i, j + 1, v', b), k);
    } else if !v.passed.OtherType? && s.check(v.own).None? {
      var inner: Outcome<M, E>;
      if i + 1 < |s.builders| {
        inner := Run(s, i + 1, 0, First(s, i + 1), b);
        DoneInRun(s, i + 1, 0, First(s, i + 1), b, k);
        ErrorOfRun(s, i + 1, 0, First(s, i + 1), b);
        assert Rest(s, i, b) == Returned(s, i + 1, b);
        assert AllBuild(s, i, k) <==> k <= i || (Builds(s, Reaching(s, i + 1)) && AllBuild(s, i + 1, k));
      } else {
        inner := Outcome(Wrap(b), [Batch(b)]);
      }
      DoneFinish(i, v.Seen().value, inner, k);
    }
  }

  lemma DoneAround<M(!new), E(!new)>(h: Hook<M, E>, i: nat, j: nat, inner: Outcome<M, E>, k: nat)
    ensures Done(k) in Around(h, i, j, inner).log <==> Done(k) in inner.log
  {
  }

  lemma DoneFinish<M, E>(i: nat, m: M, inner: Outcome<M, E>, k: nat)
    ensures Done(k) in Finish(i, m, inner).log <==> Done(k) in inner.log || (k == i && inner.error.None?)
  {
  }

  // ---- the batch -------------------------------------------------------------------

  ghost function Batches<M, E>(log: seq<Event<M, E>>): nat {
    if log == [] then 0 else (if log[0].Batch? then 1 else 0) + Batches(log[1..])
  }

  lemma {:induction false} BatchesConcat<M, E>(a: seq<Event<M, E>>, b: seq<Event<M, E>>)
    ensures Batches(a + b) == Batches(a) + Batches(b)
  {
    if a == [] {
      assert a + b == b;
    } else {
      assert (a + b)[1..] == a[1..] + b;
      BatchesConcat(a[1..], b);
    }
  }

  lemma NoBatch<M, E>(e: Event<M, E>)
    ensures Batches<M, E>([]) == 0 && Batches([e]) == if e.Batch? then 1 else 0
  {
  }

  lemma BatchesWithin<M, E>(e: Event<M, E>, inner: seq<Event<M, E>>, e': seq<Event<M, E>>)
    requires !e.Batch? && Batches(e') == 0
    ensures Batches([e] + inner + e') == Batches(inner)
  {
    BatchesConcat([e] + inner, e');
    BatchesConcat([e], inner);
  }

  // The batch is created once if every builder gets to build, and otherwise not at all.
  lemma {:induction false} BatchesInRun<M(!new), E(!new)>(s: Setup<M, E>, i: nat, j: nat, v: View<M>,
      b: Option<DriverError>)
    requires i < |s.builders| && j <= |s.builders[i].hooks|
    ensures Batches(Run(s, i, j, v, b).log)
      == if Builds(s, Descend(s.builders[i].hooks, j, v)) && AllBuild(s, i, |s.builders| - 1) then 1 else 0
    decreases |s.builders| - i, |s.builders[i].hooks| - j
  {
    hide Batches;
    NoBatch<M, E>(Batch(b));
    if j < |s.builders[i].hooks| {
      var h := s.builders[i].hooks[j];
      match Before(h, v)
      case Stop(e) =>
        NoBatch<M, E>(Left(i, j, e));
        BatchesWithin<M, E>(Entered(i, j), [], [Left(i, j, e)]);
        assert Run(s, i, j, v, b).log == [Entered(i, j)] + [] + [Left(i, j, e)];
      case Go(v') =>
        BatchesInRun(s, i, j + 1, v', b);
        var inner := Run(s, i, j + 1, v', b);
        NoBatch<M, E>(Left(i, j, h.after(inner.error)));
        BatchesWithin(Entered(i, j), inner.log, [Left(i, j, h.after(inner.error))]);
    } else if v.passed.OtherType? {
    } else if s.check(v.own).Some? {
      NoBatch<M, E>(CheckFailed(i, s.check(v.own).value));
    } else {
      NoBatch<M, E>(Done(i));
      var inner: Outcome<M, E>;
      if i + 1 < |s.builders| {
        inner := Run(s, i + 1, 0, First(s, i + 1), b);
        BatchesInRun(s, i + 1, 0, First(s, i + 1), b);
        var n := |s.builders|;
        assert AllBuild(s, i, n - 1) <==> Builds(s, Reaching(s, i + 1)) && AllBuild(s, i + 1, n - 1);
      } else {
        inner := Outcome(Wrap(b), [Batch(b)]);
      }
      BatchesWithin(Built(i, v.Seen().value), inner.log, if inner.error.None? then [Done(i)] else []);
    }
  }

  ghost predicate NothingAfter<M, E>(log: seq<Event<M, E>>, k: nat) {
    forall ev <- log :: !ev.Batch? && ev.i <= k
  }

  // A check that fails at builder k ends the run: no batch, and no step of a builder after k.
  lemma {:induction false} FailedCheckStops<M(!new), E(!new)>(s: Setup<M, E>, i: nat, j: nat, v: View<M>,
      b: Option<DriverError>,
    k: nat, e: E)
    requires i < |s.builders| && j <= |s.builders[i].hooks|
    requires CheckFailed(k, e) in Run(s, i, j, v, b).log
    ensures NothingAfter(Run(s, i, j, v, b).log, k)
    decreases |s.builders| - i, |s.builders[i].hooks| - j
  {
    hide Around, Finish, NothingAfter;
    FailedCheckAt(s, i, j, v, b, k, e);
    if j < |s.builders[i].hooks| {
      var h := s.builders[i].hooks[j];
      match Before(h, v)
      case Stop(_) =>
      case Go(v') =>
        var inner := Run(s, i, j + 1, v', b);
        NothingAfterAround(h, i, j, inner, k, e);
        FailedCheckStops(s, i, j + 1, v', b, k, e);
    } else if !v.passed.OtherType? {
      if s.check(v.own).Some? {
        OneFailedCheck(Run(s, i, j, v, b).log, i, s.check(v.own).value);
      } else if i + 1 < |s.builders| {
        var inner := Run(s, i + 1, 0, First(s, i + 1), b);
        NothingAfterFinish(i, v.Seen().value, inner, k, e);
        FailedCheckStops(s, i + 1, 0, First(s, i + 1), b, k, e);
      } else {
        NothingAfterFinish(i, v.Seen().value, Outcome(Wrap(b), [Batch(b)]), k, e);
      }
    }
  }

  lemma OneFailedCheck<M, E>(log: seq<Event<M, E>>, i: nat, cause: E)
    requires log == [CheckFailed(i, cause)]
    ensures NothingAfter(log, i)
  {
  }

  lemma NothingAfterAround<M(!new), E(!new)>(h: Hook<M, E>, i: nat, j: nat, inner: Outcome<M, E>, k: nat, e: E)
    ensures CheckFailed(k, e) in Around(h, i, j, inner).log <==> CheckFailed(k, e) in inner.log
    ensures i <= k && NothingAfter(inner.log, k) ==> NothingAfter(Around(h, i, j, inner).log, k)
  {
  }

  lemma NothingAfterFinish<M, E>(i: nat, m: M, inner: Outcome<M, E>, k: nat, e: E)
    ensures CheckFailed(k, e) in Finish(i, m, inner).log <==> CheckFailed(k, e) in inner.log
    ensures i <= k && NothingAfter(inner.log, k) ==> NothingAfter(Finish(i, m, inner).log, k)
  {
  }

  lemma {:induction false} FailedCheckAt<M(!new), E(!new)>(s: Setup<M, E>, i: nat, j: nat, v: View<M>,
      b: Option<DriverError>, k: nat, e: E)
    requires i < |s.builders| && j <= |s.builders[i].hooks|
    requires CheckFailed(k, e) in Run(s, i, j, v, b).log
    ensures i <= k < |s.builders|
    decreases |s.builders| - i, |s.builders[i].hooks| - j
  {
    if j < |s.builders[i].hooks| {
      match Before(s.builders[i].hooks[j], v)
      case Stop(_) =>
      case Go(v') => FailedCheckAt(s, i, j + 1, v', b, k, e);
    } else if !v.passed.OtherType? && s.check(v.own).None? && i + 1 < |s.builders| {
      FailedCheckAt(s, i + 1, 0, First(s, i + 1), b, k, e);
    }
  }

  // ---- whole runs ------------------------------------------------------------------

  function Whole<M(!new), E(!new)>(s: Setup<M, E>, b: Option<DriverError>): Outcome<M, E>
    requires s.builders != []
  {
    Run(s, 0, 0, First(s, 0), b)
  }

  // Builder k reports success although its mutator failed or was never called.
  predicate Conceals<M(!new), E(!new)>(s: Setup<M, E>, b: Option<DriverError>, k: nat)
    requires k < |s.builders|
  {
    && (forall l :: 0 <= l < k ==> Builds(s, Reaching(s, l)))
    && Returned(s, k, b).None?
    && (Reaching(s, k).None? || MutatorError(s, k, Reaching(s, k), b).Some?)
  }

  // The mutations marked done are those of the last builders, and there are none unless
  // the batch succeeded.
  predicate DoneIsSuffix<M(!new, ==), E(!new, ==)>(s: Setup<M, E>, b: Option<DriverError>)
    requires s.builders != []
  {
    && (forall k, l :: 0 <= k < l < |s.builders| && Done(k) in Whole(s, b).log ==> Done(l) in Whole(s, b).log)
    && (forall k :: 0 <= k < |s.builders| && Done(k) in Whole(s, b).log ==> Batch(None) in Whole(s, b).log)
  }

  lemma DoneInWhole<M(!new), E(!new)>(s: Setup<M, E>, b: Option<DriverError>, k: nat)
    requires k < |s.builders|
    ensures Done(k) in Whole(s, b).log <==>
      (forall l :: 0 <= l <= k ==> Builds(s, Reaching(s, l))) && Rest(s, k, b).None?
  {
    DoneInRun(s, 0, 0, First(s, 0), b, k);
    assert Builds(s, Reaching(s, 0)) && AllBuild(s, 0, k) <==> forall l :: 0 <= l <= k ==> Builds(s, Reaching(s, l));
  }

  lemma BatchInWhole<M(!new), E(!new)>(s: Setup<M, E>, b: Option<DriverError>)
    requires s.builders != []
    ensures Batches(Whole(s, b).log)
      == if forall l :: 0 <= l < |s.builders| ==> Builds(s, Reaching(s, l)) then 1 else 0
  {
    BatchesInRun(s, 0, 0, First(s, 0), b);
    assert (forall l :: 0 <= l < |s.builders| ==> Builds(s, Reaching(s, l))) <==>
      Builds(s, Reaching(s, 0)) && AllBuild(s, 0, |s.builders| - 1);
  }

  // The only batch in a log has the database's answer as its result.
  lemma {:induction false} BatchResult<M(!new), E(!new)>(s: Setup<M, E>, i: nat, j: nat, v: View<M>,
      b: Option<DriverError>)
    requires i < |s.builders| && j <= |s.builders[i].hooks|
    ensures forall ev <- Run(s, i, j, v, b).log :: ev.Batch? ==> ev.result == b
    ensures Batches(Run(s, i, j, v, b).log) > 0 ==> Batch(b) in Run(s, i, j, v, b).log
    decreases |s.builders| - i, |s.builders[i].hooks| - j
  {
    hide Batches;
    SomeBatch(Run(s, i, j, v, b).log);
    if j < |s.builders[i].hooks| {
      match Before(s.builders[i].hooks[j], v)
      case Stop(_) =>
      case Go(v') => BatchResult(s, i, j + 1, v', b);
    } else if !v.passed.OtherType? && s.check(v.own).None? && i + 1 < |s.builders| {
      BatchResult(s, i + 1, 0, First(s, i + 1), b);
    }
  }

  lemma {:induction false} SomeBatch<M, E>(log: seq<Event<M, E>>)
    ensures Batches(log) > 0 <==> exists r :: Batch(r) in log
  {
    if log != [] {
      SomeBatch(log[1..]);
      assert log == [log[0]] + log[1..];
      if log[0].Batch? { assert Batch(log[0].result) in log; }
    }
  }

  // The mutations marked done are those of the last builders, and only after a successful
  // batch, exactly when no builder but the first conceals that its mutator did not succeed.
  lemma DoneSuffix<M(!new), E(!new)>(s: Setup<M, E>, b: Option<DriverError>)
    requires s.builders != []
    ensures DoneIsSuffix(s, b) <==> forall k :: 1 <= k < |s.builders| ==> !Conceals(s, b, k)
  {
    var n := |s.builders|;
    forall k | 0 <= k < n ensures Done(k) in Whole(s, b).log <==>
      (forall l :: 0 <= l <= k ==> Builds(s, Reaching(s, l))) && Rest(s, k, b).None?
    {
      DoneInWhole(s, b, k);
    }
    BatchInWhole(s, b);
    BatchResult(s, 0, 0, First(s, 0), b);
    forall k | 1 <= k < n && Conceals(s, b, k) ensures !DoneIsSuffix(s, b) {
      assert Done(k - 1) in Whole(s, b).log && Done(k) !in Whole(s, b).log;
    }
    if forall k :: 1 <= k < n ==> !Conceals(s, b, k) {
      forall k | 0 <= k < n && Done(k) in Whole(s, b).log
        ensures Batch(None) in Whole(s, b).log && forall l :: k < l < n ==> Done(l) in Whole(s, b).log
      {
        DoneDownwards(s, b, k);
      }
    }
  }

  // Without concealment, success of builder k's mutator comes from the batch, through
  // every builder behind it.
  lemma {:induction false} DoneDownwards<M(!new), E(!new)>(s: Setup<M, E>, b: Option<DriverError>, k: nat)
    requires k < |s.builders| && Done(k) in Whole(s, b).log
    requires forall l :: k < l < |s.builders| ==> !Conceals(s, b, l)
    ensures forall l :: k <= l < |s.builders| ==> Done(l) in Whole(s, b).log
    ensures b.None? && Batch(None) in Whole(s, b).log
    decreases |s.builders| - k
  {
    DoneInWhole(s, b, k);
    if k + 1 < |s.builders| {
      assert Rest(s, k, b) == Returned(s, k + 1, b);
      assert !Conceals(s, b, k + 1);
      DoneInWhole(s, b, k + 1);
      DoneDownwards(s, b, k + 1);
    } else {
      BatchInWhole(s, b);
      BatchResult(s, 0, 0, First(s, 0), b);
    }
  }

  // A bulk that reports success has created everything - one successful batch, every
  // mutation done - exactly when no builder concealed anything.
  lemma SuccessMeansCreated<M(!new), E(!new)>(s: Setup<M, E>, b: Option<DriverError>)
    requires s.builders != [] && Whole(s, b).error.None?
    ensures (Batches(Whole(s, b).log) == 1 && Batch(None) in Whole(s, b).log
        && forall k :: 0 <= k < |s.builders| ==> Done(k) in Whole(s, b).log)
      <==> forall k :: 0 <= k < |s.builders| ==> !Conceals(s, b, k)
  {
    ErrorOfRun(s, 0, 0, First(s, 0), b);
    BatchInWhole(s, b);
    forall k | 0 <= k < |s.builders| && Done(k) in Whole(s, b).log ensures !Conceals(s, b, k) { DoneInWhole(s, b, k); }
    if !Conceals(s, b, 0) {
      DoneInWhole(s, b, 0);
      if forall k :: 0 <= k < |s.builders| ==> !Conceals(s, b, k) {
        DoneDownwards(s, b, 0);
        forall k | 0 <= k < |s.builders| ensures Builds(s, Reaching(s, k)) { DoneInWhole(s, b, k); }
      }
    }
  }

  // A hook that always calls next or fails, and never drops an error.
  ghost predicate Honest<M(!new), E(!new)>(h: Hook<M, E>) {
    && (forall m :: !h.before(m).Answer?)
    && (forall e: Option<Failure<E>> :: e.Some? ==> h.after(e).Some?)
  }

  lemma {:induction false} HonestUnwind<M(!new), E(!new)>(hooks: seq<Hook<M, E>>, j: nat, v: View<M>,
      e: Option<Failure<E>>)
    requires j <= |hooks| && forall h <- hooks :: Honest(h)
    requires Descend(hooks, j, v).None? || e.Some?
    ensures Unwind(hooks, j, v, e).Some?
    decreases |hooks| - j
  {
    if j < |hooks| {
      assert Honest(hooks[j]);
      match Before(hooks[j], v)
      case Stop(_) =>
      case Go(v') => HonestUnwind(hooks, j + 1, v', e);
    }
  }

  // Builders with honest hooks conceal nothing.
  lemma HonestHooks<M(!new), E(!new)>(s: Setup<M, E>, b: Option<DriverError>, k: nat)
    requires k < |s.builders| && forall h <- s.builders[k].hooks :: Honest(h)
    ensures !Conceals(s, b, k)
  {
    if Reaching(s, k).None? || MutatorError(s, k, Reaching(s, k), b).Some? {
      HonestUnwind(s.builders[k].hooks, 0, First(s, k), MutatorError(s, k, Reaching(s, k), b));
    }
  }

  // One hook that drops the database's error: the bulk reports success, and a mutation is
  // done, although nothing was created.
  lemma DroppedErrorBreaksDone(cause: DriverError)
    returns (s: Setup<int, int>)
    ensures s.builders != [] && Whole(s, Some(cause)).error.None?
    ensures Done(0) in Whole(s, Some(cause)).log && Done(1) !in Whole(s, Some(cause)).log
    ensures Batch(Some(cause)) in Whole(s, Some(cause)).log && !DoneIsSuffix(s, Some(cause))
  {
    var drop := Hook((m: Option<int>) => Forward(0), (e: Option<Failure<int>>) => None);
    s := Setup((m: int) => None, [Plan(0, []), Plan(0, [drop])]);
    var b := Some(cause);
    assert Run(s, 1, 1, View(0, Own), b) == Finish(1, 0, Outcome(Wrap(b), [Batch(b)]));
    assert Run(s, 1, 0, First(s, 1), b).log == [Entered(1, 0), Built(1, 0), Batch(b), Left(1, 0, None)];
    assert Whole(s, b).log == [Built(0, 0), Entered(1, 0), Built(1, 0), Batch(b), Left(1, 0, None), Done(0)];
  }

  // ---- what is built ---------------------------------------------------------------

  // What builder k is built from in the part of the run that starts where builder i's
  // mutators see v: the mutation that reaches it, if all builders from i to k build.
  function BuiltOf<M(!new), E(!new)>(s: Setup<M, E>, i: nat, v: Option<View<M>>, k: nat): Option<M>
    requires i < |s.builders| && k < |s.builders|
  {
    if i <= k && Builds(s, v) && AllBuild(s, i, k) then (if k == i then v else Reaching(s, k)).value.Seen() else None
  }

  // Builder k's node and spec are built, and from m, exactly when all builders up to it
  // build and m is the mutation that reaches it through its hooks.
  lemma {:induction false} BuiltInRun<M(!new), E(!new)>(s: Setup<M, E>, i: nat, j: nat, v: View<M>,
      b: Option<DriverError>, k: nat, m: M)
    requires i < |s.builders| && j <= |s.builders[i].hooks| && k < |s.builders|
    ensures Built(k, m) in Run(s, i, j, v, b).log
      <==> BuiltOf(s, i, Descend(s.builders[i].hooks, j, v), k) == Some(m)
    decreases |s.builders| - i, |s.builders[i].hooks| - j
  {
    hide Around, Finish;
    if j < |s.builders[i].hooks| {
      var h := s.builders[i].hooks[j];
      match Before(h, v)
      case Stop(_) =>
      case Go(v') =>
        BuiltInRun(s, i, j + 1, v', b, k, m);
        BuiltAround(h, i, j, Run(s, i, j + 1, v', b), k, m);
    } else if !v.passed.OtherType? && s.check(v.own).None? {
      var inner: Outcome<M, E>;
      if i + 1 < |s.builders| {
        inner := Run(s, i + 1, 0, First(s, i + 1), b);
        BuiltInRun(s, i + 1, 0, First(s, i + 1), b, k, m);
        assert AllBuild(s, i, k) <==> k <= i || (Builds(s, Reaching(s, i + 1)) && AllBuild(s, i + 1, k));
      } else {
        inner := Outcome(Wrap(b), [Batch(b)]);
      }
      BuiltFinish(i, v.Seen().value, inner, k, m);
    }
  }

  lemma BuiltAround<M(!new), E(!new)>(h: Hook<M, E>, i: nat, j: nat, inner: Outcome<M, E>, k: nat, m: M)
    ensures Built(k, m) in Around(h, i, j, inner).log <==> Built(k, m) in inner.log
  {
  }

  lemma BuiltFinish<M, E>(i: nat, m: M, inner: Outcome<M, E>, k: nat, m': M)
    ensures Built(k, m') in Finish(i, m, inner).log <==> (k == i && m' == m) || Built(k, m') in inner.log
  {
  }

  // The chain from builder i on concerns the builders from i on.
  lemma {:induction false} LaterOnly<M(!new), E(!new)>(s: Setup<M, E>, i: nat, j: nat, v: View<M>,
      b: Option<DriverError>)
    requires i < |s.builders| && j <= |s.builders[i].hooks|
    ensures forall ev <- Run(s, i, j, v, b).log :: ev.Batch? || i <= ev.i < |s.builders|
    decreases |s.builders| - i, |s.builders[i].hooks| - j
  {
    if j < |s.builders[i].hooks| {
      match Before(s.builders[i].hooks[j], v)
      case Stop(_) =>
      case Go(v') => LaterOnly(s, i, j + 1, v', b);
    } else if !v.passed.OtherType? && s.check(v.own).None? && i + 1 < |s.builders| {
      LaterOnly(s, i + 1, 0, First(s, i + 1), b);
    }
  }

  ghost predicate Substitutes<M(!new), E(!new)>(h: Hook<M, E>) {
    exists m :: h.before(m).Substitute?
  }

  lemma {:induction false} OwnStaysOwn<M(!new), E(!new)>(hooks: seq<Hook<M, E>>, j: nat, v: View<M>)
    requires j <= |hooks| && !v.passed.Another? && forall h <- hooks :: !Substitutes(h)
    ensures Descend(hooks, j, v).Some? ==> !Descend(hooks, j, v).value.passed.Another?
    decreases |hooks| - j
  {
    if j < |hooks| {
      assert !Substitutes(hooks[j]);
      match Before(hooks[j], v)
      case Stop(_) =>
      case Go(v') => OwnStaysOwn(hooks, j + 1, v');
    }
  }

  // All builders up to k get to build.
  predicate Reached<M(!new), E(!new)>(s: Setup<M, E>, k: nat)
    requires k < |s.builders|
  {
    forall l :: 0 <= l <= k ==> Builds(s, Reaching(s, l))
  }

  lemma BuiltInWhole<M(!new), E(!new)>(s: Setup<M, E>, b: Option<DriverError>, k: nat, m: M)
    requires k < |s.builders|
    ensures Built(k, m) in Whole(s, b).log <==> Reached(s, k) && Reaching(s, k).value.Seen() == Some(m)
  {
    BuiltInRun(s, 0, 0, First(s, 0), b, k, m);
    assert Reached(s, k) <==> Builds(s, Reaching(s, 0)) && AllBuild(s, 0, k);
  }

  // The mutation that builder k is built from although it is not the one that was checked:
  // it reaches the builder in place of the builder's own.
  function Unchecked<M(!new), E(!new)>(s: Setup<M, E>, k: nat): Option<M>
    requires k < |s.builders|
  {
    if Reached(s, k) && Reaching(s, k).value.passed.Another? then Some(Reaching(s, k).value.passed.m) else None
  }

  // Builder k is built from mutations that have a property, which the check implies,
  // exactly when the unchecked mutation that reaches it, if any, has the property.
  lemma BuiltHas<M(!new), E(!new)>(s: Setup<M, E>, b: Option<DriverError>, k: nat, good: M -> bool)
    requires k < |s.builders| && forall m :: s.check(m).None? ==> good(m)
    ensures (forall m :: Built(k, m) in Whole(s, b).log ==> good(m))
      <==> (Unchecked(s, k).Some? ==> good(Unchecked(s, k).value))
  {
    forall m ensures Built(k, m) in Whole(s, b).log <==> Reached(s, k) && Reaching(s, k).value.Seen() == Some(m) {
      BuiltInWhole(s, b, k, m);
    }
    if Reached(s, k) {
      assert Built(k, Reaching(s, k).value.Seen().value) in Whole(s, b).log;
    }
  }

  // Only mutations that pass the check are built exactly when no unchecked mutation fails
  // it: a condition on the mutations and on what the hooks do before next, whatever the
  // database answers.
  lemma BuiltPassesCheck<M(!new), E(!new)>(s: Setup<M, E>, b: Option<DriverError>)
    requires s.builders != []
    ensures (forall k, m :: Built(k, m) in Whole(s, b).log ==> s.check(m).None?)
      <==> forall k :: 0 <= k < |s.builders| && Unchecked(s, k).Some? ==> s.check(Unchecked(s, k).value).None?
  {
    hide Unchecked, Run;
    var good := (m: M) => s.check(m).None?;
    forall k: nat | k < |s.builders|
      ensures (forall m :: Built(k, m) in Whole(s, b).log ==> good(m))
        <==> (Unchecked(s, k).Some? ==> good(Unchecked(s, k).value))
    {
      BuiltHas(s, b, k, good);
    }
    forall k: nat, m | Built(k, m) in Whole(s, b).log ensures k < |s.builders| {
      KnownBuilder(s, b, k, m);
    }
    if forall k: nat, m :: Built(k, m) in Whole(s, b).log ==> s.check(m).None? {
      forall k: nat | k < |s.builders| && Unchecked(s, k).Some? ensures good(Unchecked(s, k).value) {
        assert forall m :: Built(k, m) in Whole(s, b).log ==> good(m);
      }
    }
    if forall k :: 0 <= k < |s.builders| && Unchecked(s, k).Some? ==> s.check(Unchecked(s, k).value).None? {
      forall k: nat, m | Built(k, m) in Whole(s, b).log ensures good(m) {
        assert Unchecked(s, k).Some? ==> good(Unchecked(s, k).value);
      }
    }
  }

  lemma KnownBuilder<M(!new), E(!new)>(s: Setup<M, E>, b: Option<DriverError>, k: nat, m: M)
    requires s.builders != [] && Built(k, m) in Whole(s, b).log
    ensures k < |s.builders|
  {
    var ev: Event<M, E> := Built(k, m);
    LaterOnly(s, 0, 0, First(s, 0), b);
    assert ev in Whole(s, b).log;
  }

  // In particular when no hook substitutes a mutation.
  lemma NothingUnchecked<M(!new), E(!new)>(s: Setup<M, E>, k: nat)
    requires k < |s.builders| && forall h <- s.builders[k].hooks :: !Substitutes(h)
    ensures Unchecked(s, k).None?
  {
    OwnStaysOwn(s.builders[k].hooks, 0, First(s, k));
  }

  // ---- what hooks and the database do to a run -------------------------------------

  // The mutation after all hooks from j on have edited it.
  function Edited<M(!new), E(!new)>(hooks: seq<Hook<M, E>>, j: nat, m: M): M
    requires j <= |hooks| && forall h <- hooks :: Forwards(h)
    decreases |hooks| - j
  {
    if j == |hooks| then m
    else
      assert Forwards(hooks[j]);
      Edited(hooks, j + 1, hooks[j].before(Some(m)).edited)
  }

  ghost predicate Forwards<M(!new), E(!new)>(h: Hook<M, E>) {
    forall m :: h.before(Some(m)).Forward?
  }

  // Hooks that call next with the mutation they are given hand on each other's edits: the
  // builder checks and builds its own mutation as they leave it.
  lemma {:induction false} EditsReach<M(!new), E(!new)>(hooks: seq<Hook<M, E>>, j: nat, m: M)
    requires j <= |hooks| && forall h <- hooks :: Forwards(h)
    ensures Descend(hooks, j, View(m, Own)) == Some(View(Edited(hooks, j, m), Own))
    decreases |hooks| - j
  {
    if j < |hooks| {
      assert Forwards(hooks[j]);
      EditsReach(hooks, j + 1, hooks[j].before(Some(m)).edited);
    }
  }

  // A bulk of one builder with one hook, whose own mutation passes the check as the hook
  // leaves it: what is built, and the error, for each thing that the hook can do.
  lemma OneHook<M(!new), E(!new)>(s: Setup<M, E>, h: Hook<M, E>, own: M, b: Option<DriverError>)
    requires s.builders == [Plan(own, [h])] && s.check(own).None?
    requires h.before(Some(own)).Forward? ==> s.check(h.before(Some(own)).edited).None?
    ensures
      var r := Whole(s, b);
      match h.before(Some(own))
      case Reject(e) => r.error == Some(e) && forall m :: Built(0, m) !in r.log
      case Answer => r.error.None? && forall m :: Built(0, m) !in r.log
      case Forward(edited) => r.error == h.after(Wrap(b)) && forall m :: Built(0, m) in r.log <==> m == edited
      case Substitute(other) => r.error == h.after(Wrap(b)) && forall m :: Built(0, m) in r.log <==> m == other
      case Foreign => r.error == h.after(Some(UnexpectedMutationType)) && forall m :: Built(0, m) !in r.log
  {
    ErrorOfRun(s, 0, 0, First(s, 0), b);
    forall m ensures Built(0, m) in Whole(s, b).log <==> Reached(s, 0) && Reaching(s, 0).value.Seen() == Some(m) {
      BuiltInWhole(s, b, 0, m);
    }
    assert [h][0] == h;
  }

  // Without hooks, when all mutations pass the check, the bulk returns the database's
  // answer: a constraint violation as a ConstraintError, another error as it is.
  lemma {:induction false} PlainRun<M(!new), E(!new)>(s: Setup<M, E>, i: nat, b: Option<DriverError>)
    requires i < |s.builders| && forall p <- s.builders :: p.hooks == [] && s.check(p.mutation).None?
    ensures Run(s, i, 0, First(s, i), b).error ==
      match b
      case None => None
      case Some(DriverError(true, _)) => Some(ConstraintError(b.value))
      case Some(DriverError(false, _)) => Some(OtherDriverError(b.value))
    decreases |s.builders| - i
  {
    assert s.builders[i] in s.builders;
    if i + 1 < |s.builders| { PlainRun(s, i + 1, b); }
  }
}
