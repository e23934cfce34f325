/** The earliest single-file transition of the older crate (crates/sems_core/src/transition.rs):
    a boxed procedure without a requirement set, converted from functions of zero, one or two
    parameters. Two parameters are taken one after the other rather than as a pair. */
module SemsEarly {
  import opened Facts
  import opened SemsParams
  import opened SemsResults
  import P = PssmParams
  import T = SemsTransition

  /** A convertible function of zero, one or two parameters. */
  datatype Function =
    | Nullary(f0: () -> Returned)
    | Unary(a: Param, f1: P.Arg -> Returned)
    | Binary(a: Param, b: Param, f2: (P.Arg, P.Arg) -> Returned)

  /** What the procedure `into_transition` builds does to a state: take the parameters (the
      first and then the second, each from what the previous take left), call the function,
      insert its result. */
  function Exec(f: Function, s: State): Outcome<State>
  {
    match f
    case Nullary(f0) => Done(Inserted(f0(), s))
    case Unary(a, f1) =>
      (match Take(a, s)
       case Panicked(m) => Panicked(m)
       case Done((x, s1)) => Done(Inserted(f1(x), s1)))
    case Binary(a, b, f2) =>
      match Take(a, s)
      case Panicked(m) => Panicked(m)
      case Done((x, s1)) =>
        match Take(b, s1)
        case Panicked(m) => Panicked(m)
        case Done((y, s2)) => Done(Inserted(f2(x, y), s2))
  }

  /** The record `new` builds from a converted function; `run` applies its procedure. */
  datatype Transition = Transition(f: Function)
  {
    method Run(state: Store) returns (r: Outcome<()>)
      modifies state
      ensures r.Panicked? <==> Exec(f, old(state.facts)).Panicked?
      ensures r.Done? ==> Exec(f, old(state.facts)) == Done(state.facts)
    {
      match f
      case Nullary(f0) =>
        InsertInto(f0(), state);
        r := Done(());
      case Unary(a, f1) =>
        var x := TakeFrom(a, state);
        if x.Panicked? {
          return Panicked(x.message);
        }
        InsertInto(f1(x.value), state);
        r := Done(());
      case Binary(a, b, f2) =>
        var x := TakeFrom(a, state);
        if x.Panicked? {
          return Panicked(x.message);
        }
        var y := TakeFrom(b, state);
        if y.Panicked? {
          return Panicked(y.message);
        }
        InsertInto(f2(x.value, y.value), state);
        r := Done(());
    }
  }

  /** The same function as the later conversions see it: no parameters is the `()` shape, and
      two parameters are their pair, handed to the function component by component. */
  function AsProcedure(f: Function): T.Procedure
  {
    match f
    case Nullary(f0) => T.Procedure(PUnit, (_: P.Arg) => f0())
    case Unary(a, f1) => T.Procedure(a, f1)
    case Binary(a, b, f2) =>
      T.Procedure(PPair(a, b), (x: P.Arg) => if x.TupleArg? && |x.items| == 2 then f2(x.items[0], x.items[1]) else RUnit)
  }

  /** The earliest transition behaves as the later conversion of the same function: taking the
      two parameters one after the other is taking their pair. */
  lemma SameAsLater(f: Function, s: State)
    ensures Exec(f, s) == T.Exec(AsProcedure(f), s)
  {
    match f
    case Nullary(_) =>
    case Unary(_, _) =>
    case Binary(a, b, f2) =>
      match Take(a, s)
      case Panicked(_) =>
      case Done((x, s1)) =>
        match Take(b, s1)
        case Panicked(_) =>
        case Done((y, s2)) =>
          assert Take(PPair(a, b), s) == Done((P.TupleArg([x, y]), s2));
  }
}
