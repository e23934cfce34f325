/** The transition records of the older crate (crates/sems_core/src/transition/mod.rs) and
    their conversions (into.rs, intomut.rs, intoonce.rs): a boxed procedure on the state
    together with the facts it requires. Conversion never fails in this crate. */
module SemsTransition {
  import opened Facts
  import opened SemsParams
  import opened SemsResults
  import P = PssmParams

  /** `Transition` (a shared `Fn`), `TransitionMut` (an `FnMut`) or `TransitionOnce` (an
      `FnOnce`, consumed by running it). */
  datatype Kind = Repeatable | Mutating | SingleUse

  /** The boxed procedure every conversion builds: take the parameters, call the wrapped
      function on them, insert its result. A function without parameters takes `()`, which
      takes nothing. A function of two parameters takes their pair. */
  datatype Procedure = Procedure(params: Param, body: P.Arg -> Returned)

  /** What running a procedure does to a state. */
  function Exec(p: Procedure, s: State): Outcome<State>
  {
    match Take(p.params, s)
    case Panicked(m) => Panicked(m)
    case Done((a, s1)) => Done(Inserted(p.body(a), s1))
  }

  /** Running a procedure in place. */
  method RunProcedure(p: Procedure, state: Store) returns (r: Outcome<()>)
    modifies state
    ensures r.Panicked? <==> Exec(p, old(state.facts)).Panicked?
    ensures r.Done? ==> Exec(p, old(state.facts)) == Done(state.facts)
  {
    var a := TakeFrom(p.params, state);
    if a.Panicked? {
      return Panicked(a.message);
    }
    InsertInto(p.body(a.value), state);
    r := Done(());
  }

  /** A transition: `new` stores the procedure and the requirement set as given, and
      `requires()` is the `required` field. */
  datatype Transition = Transition(kind: Kind, proc: Procedure, required: set<Id>)
  {
    /** `Transition::run` and `TransitionMut::run`. */
    method Run(state: Store) returns (r: Outcome<()>)
      requires kind != SingleUse
      modifies state
      ensures r.Panicked? <==> Exec(proc, old(state.facts)).Panicked?
      ensures r.Done? ==> Exec(proc, old(state.facts)) == Done(state.facts)
    {
      r := RunProcedure(proc, state);
    }
  }

  /** An owned `TransitionOnce`: `run` takes `self` by value, so it can happen once. */
  class TransitionOnce {
    const transition: Transition
    var spent: bool

    constructor (t: Transition)
      requires t.kind == SingleUse
      ensures transition == t && !spent
    {
      transition := t;
      spent := false;
    }

    method Run(state: Store) returns (r: Outcome<()>)
      requires !spent
      modifies this, state
      ensures spent
      ensures r.Panicked? <==> Exec(transition.proc, old(state.facts)).Panicked?
      ensures r.Done? ==> Exec(transition.proc, old(state.facts)) == Done(state.facts)
    {
      spent := true;
      r := RunProcedure(transition.proc, state);
    }
  }

  // ---------------------------------------------------------------------------------------
  // Conversions

  /** What can be converted: an existing record, or a function with its parameter shape. */
  datatype Convertible = FromTransition(t: Transition) | FromFunction(params: Param, body: P.Arg -> Returned)

  /** The parameter shape a conversion is typed by: a record's own, or the function's. */
  function ParamsOf(c: Convertible): Param
  {
    match c
    case FromTransition(t) => t.proc.params
    case FromFunction(params, _) => params
  }

  /** Wrapping a function: its procedure takes the parameters, calls it and inserts the
      result; the record requires the identifiers `ids()` reports for the parameters. */
  function Wrap(kind: Kind, params: Param, body: P.Arg -> Returned): (r: Transition)
    ensures r.kind == kind
    ensures r.required == SeqSet(CollectIds(params))
    ensures r.proc.params == params && r.proc.body == body
  {
    Transition(kind, Procedure(params, body), SeqSet(CollectIds(params)))
  }

  /** `into_transition`: a `Transition` is returned as it is; a function is wrapped. */
  function IntoTransition(c: Convertible): (r: Transition)
    requires c.FromTransition? ==> c.t.kind == Repeatable
    ensures c.FromTransition? ==> r == c.t
    ensures c.FromFunction? ==> r == Wrap(Repeatable, c.params, c.body)
    ensures r.kind == Repeatable && r.proc.params == ParamsOf(c)
  {
    match c
    case FromTransition(t) => t
    case FromFunction(params, body) => Wrap(Repeatable, params, body)
  }

  /** `into_transition_mut`: a `Transition` becomes a `TransitionMut` that runs the original
      procedure, a `TransitionMut` is returned as it is, and a function is wrapped. */
  function IntoTransitionMut(c: Convertible): (r: Transition)
    requires c.FromTransition? ==> c.t.kind != SingleUse
    ensures c.FromTransition? ==> r == c.t.(kind := Mutating)
    ensures c.FromTransition? && c.t.kind == Mutating ==> r == c.t
    ensures c.FromFunction? ==> r == Wrap(Mutating, c.params, c.body)
    ensures r.kind == Mutating && r.proc.params == ParamsOf(c)
  {
    match c
    case FromTransition(t) => t.(kind := Mutating)
    case FromFunction(params, body) => Wrap(Mutating, params, body)
  }

  /** `into_transition_once`: any record becomes a `TransitionOnce` running the original
      procedure, a `TransitionOnce` is returned as it is, and a function is wrapped. */
  function IntoTransitionOnce(c: Convertible): (r: Transition)
    ensures c.FromTransition? ==> r == c.t.(kind := SingleUse)
    ensures c.FromTransition? && c.t.kind == SingleUse ==> r == c.t
    ensures c.FromFunction? ==> r == Wrap(SingleUse, c.params, c.body)
    ensures r.kind == SingleUse && r.proc.params == ParamsOf(c)
  {
    match c
    case FromTransition(t) => t.(kind := SingleUse)
    case FromFunction(params, body) => Wrap(SingleUse, params, body)
  }

  /** Running a converted function: a parameterless one extracts nothing and only inserts its
      result; otherwise it fails exactly when taking the parameters fails, and the new keys are
      the old ones minus every parameter taken, plus every fact the result stores. */
  lemma RunConverted(t: Transition, s: State)
    ensures t.proc.params == PUnit ==> Exec(t.proc, s) == Done(Inserted(t.proc.body(P.UnitArg), s))
    ensures Exec(t.proc, s).Panicked? <==> Take(t.proc.params, s).Panicked?
    ensures Exec(t.proc, s).Done? ==>
      var (a, _) := Take(t.proc.params, s).value;
      Exec(t.proc, s).value.Keys == (s.Keys - P.MentionedSet(ToShape(t.proc.params))) + Written(t.proc.body(a))
  {
    var params, body := t.proc.params, t.proc.body;
    match Take(params, s)
    case Panicked(_) =>
    case Done((a, s1)) =>
      TakeRemoves(params, s);
      InsertedKeys(body(a), s1);
  }

  /** A fact a plain parameter names and the state lacks makes the take fail: taking never
      adds a key, so the fact is still missing when its turn comes. */
  lemma {:induction false} TakeMissingPanics(p: Param, s: State)
    requires !(SeqSet(CollectIds(p)) <= s.Keys)
    ensures Take(p, s).Panicked?
  {
    match p
    case PUnit =>
    case PFact(id) =>
      assert SeqSet(CollectIds(p)) == {id};
    case POpt(_) =>
    case PPair(a, b) =>
      SeqSetAppend(CollectIds(a), CollectIds(b));
      if !(SeqSet(CollectIds(a)) <= s.Keys) {
        TakeMissingPanics(a, s);
      } else if Take(a, s).Done? {
        var s1 := Take(a, s).value.1;
        TakeRemoves(a, s);
        TakeMissingPanics(b, s1);
      }
  }
}
