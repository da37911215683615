// The mutator chain of a bulk create, as a recursion over values: what one run records
// and returns, for any hooks. It is the specification of the chain that BulkCreate runs
// on mutable builders, and the subject of the theorems in BulkTheorems.
module BulkChain {
  import opened Common

  datatype DriverError = DriverError(constraint: bool, text: string)

  datatype Failure<E> =
    | BuilderError(text: string)            // recorded by the builder before Save
    | HookError(text: string)
    | UnexpectedMutationType
    | ValidationError(cause: E)
    | ConstraintError(cause_: DriverError)  // a driver error, wrapped
    | OtherDriverError(cause_: DriverError)

  // What a hook does before the next mutator: return an error, return a value without
  // calling next, or call next with the mutation it was given (perhaps edited), with
  // another mutation of the same type, or with a mutation of another type.
  datatype Move<M, E> = Reject(error: Failure<E>) | Answer | Forward(edited: M) | Substitute(other: M) | Foreign

  // A hook. Once next has returned it may pass the outcome on, fail, or drop an error;
  // the value it returns is ignored by the chain. It sees the mutation it is given, if
  // that has the right type. Each hook runs at most once in a run.
  datatype Hook<!M, !E> = Hook(before: Option<M> -> Move<M, E>, after: Option<Failure<E>> -> Option<Failure<E>>)

  // One builder of the bulk: its mutation after defaults, and its hooks.
  datatype Plan<!M, !E> = Plan(mutation: M, hooks: seq<Hook<M, E>>)

  datatype Setup<!M, !E> = Setup(check: M -> Option<E>, builders: seq<Plan<M, E>>)

  // The mutation a mutator is called with: the builder's own, another one, or one of
  // another type.
  datatype Passed<M> = Own | Another(m: M) | OtherType

  // What the mutators of one builder work on.
  datatype View<M> = View(own: M, passed: Passed<M>) {
    function Seen(): Option<M> {
      match passed
      case Own => Some(own)
      case Another(m) => Some(m)
      case OtherType => None
    }
  }

  datatype Step<M, E> = Stop(error: Option<Failure<E>>) | Go(v: View<M>)

  // The part of a hook before next.
  function Before<M(!new), E(!new)>(h: Hook<M, E>, v: View<M>): Step<M, E> {
    match h.before(v.Seen())
    case Reject(e) => Stop(Some(e))
    case Answer => Stop(None)
    case Forward(m) =>
      if v.passed.Own? then Go(v.(own := m))
      else if v.passed.Another? then Go(v.(passed := Another(m)))
      else Go(v)
    case Substitute(m) => Go(v.(passed := Another(m)))
    case Foreign => Go(v.(passed := OtherType))
  }

  datatype Event<M, E> =
    | Entered(i: nat, j: nat)                                // hook j of builder i was called
    | Left(i: nat, j: nat, error: Option<Failure<E>>)        // and returned
    | CheckFailed(i: nat, cause: E)
    | Built(i: nat, m: M)                                    // nodes[i], specs[i] were filled from m
    | Batch(result: Option<DriverError>)                     // BatchCreate was called
    | Done(i: nat)                                           // builder i's mutation was marked done

  datatype Outcome<M, E> = Outcome(error: Option<Failure<E>>, log: seq<Event<M, E>>)

  function Wrap<E>(e: Option<DriverError>): Option<Failure<E>> {
    if e.None? then None
    else if e.value.constraint then Some(ConstraintError(e.value))
    else Some(OtherDriverError(e.value))
  }

  function First<M, E>(s: Setup<M, E>, i: nat): View<M>
    requires i < |s.builders|
  {
    View(s.builders[i].mutation, Own)
  }

  // A hook around the outcome of next.
  function Around<M, E>(h: Hook<M, E>, i: nat, j: nat, inner: Outcome<M, E>): Outcome<M, E> {
    var e := h.after(inner.error);
    Outcome(e, [Entered(i, j)] + inner.log + [Left(i, j, e)])
  }

  // A builder's mutator, once it has checked and built, given the outcome of the rest of
  // the chain.
  function Finish<M, E>(i: nat, m: M, inner: Outcome<M, E>): Outcome<M, E> {
    Outcome(inner.error, [Built(i, m)] + inner.log + if inner.error.None? then [Done(i)] else [])
  }

  // Hook j of builder i and everything behind it; behind the last hook is the mutator of
  // the builder itself. `b` is what the database answers to the batch.
  function Run<M(!new), E(!new)>(s: Setup<M, E>, i: nat, j: nat, v: View<M>, b: Option<DriverError>): Outcome<M, E>
    requires i < |s.builders| && j <= |s.builders[i].hooks|
    decreases |s.builders| - i, |s.builders[i].hooks| - j
  {
    if j < |s.builders[i].hooks| then
      match Before(s.builders[i].hooks[j], v)
      case Stop(e) => Outcome(e, [Entered(i, j), Left(i, j, e)])
      case Go(v') => Around(s.builders[i].hooks[j], i, j, Run(s, i, j + 1, v', b))
    else if v.passed.OtherType? then
      Outcome(Some(UnexpectedMutationType), [])
    else if s.check(v.own).Some? then
      Outcome(Some(ValidationError(s.check(v.own).value)), [CheckFailed(i, s.check(v.own).value)])
    else
      Finish(i, v.Seen().value,
        if i + 1 < |s.builders| then Run(s, i + 1, 0, First(s, i + 1), b) else Outcome(Wrap(b), [Batch(b)]))
  }
}
