/** Conversion into transitions in the newer crate (crates/pssm_core/src/transition/intomut.rs
    and intoonce.rs): an existing record changes variant; a function is wrapped into a procedure
    that takes its parameters, calls it and inserts its result, and its requirement set is
    computed once by `required()`. */
module PssmConvert {
  import opened Facts
  import opened PssmParams
  import opened PssmResults
  import opened PssmTransition

  /** What can be converted: an existing transition record, or a function with its parameter
      shape. The crate never derives the produced set from the result type, so it is supplied
      with the function. */
  datatype Convertible =
    | FromTransition(t: Transition)
    | FromFunction(params: Shape, body: Arg -> Output, produced: set<Id>)

  /** Wrapping a function into a record of the given variant: fails with `required()`'s error,
      otherwise stores `required()`'s set. */
  function WrapFunction(variant: Variant, params: Shape, body: Arg -> Output, produced: set<Id>): (r: Result<Transition>)
    ensures r.Err? <==> !Distinct(Collected(params))
    ensures r.Err? ==> r.error == DuplicateRequirement
    ensures r.Ok? ==> r.value == Transition(variant, Call(params, body), SeqSet(Collected(params)), produced)
  {
    RequiredOfMeaning(params);
    match RequiredOf(params)
    case Err(e) => Err(e)
    case Ok(required) => Ok(Transition(variant, Call(params, body), required, produced))
  }

  /** `into_transition_mut`: a `Transition` keeps its procedure and sets, a `TransitionMut` is
      returned as it is, and a function is wrapped. There is no conversion from a
      `TransitionOnce`. */
  function IntoTransitionMut(c: Convertible): (r: Result<Transition>)
    requires c.FromTransition? ==> c.t.variant != SingleUse
    ensures c.FromTransition? ==> r == Ok(c.t.(variant := Mutating))
    ensures c.FromTransition? && c.t.variant == Mutating ==> r == Ok(c.t)
    ensures c.FromFunction? ==> r == WrapFunction(Mutating, c.params, c.body, c.produced)
  {
    match c
    case FromTransition(t) => Ok(t.(variant := Mutating))
    case FromFunction(params, body, produced) => WrapFunction(Mutating, params, body, produced)
  }

  /** `into_transition_once`: any record keeps its procedure and sets, a `TransitionOnce` is
      returned as it is, and a function is wrapped. */
  function IntoTransitionOnce(c: Convertible): (r: Result<Transition>)
    ensures c.FromTransition? ==> r == Ok(c.t.(variant := SingleUse))
    ensures c.FromTransition? && c.t.variant == SingleUse ==> r == Ok(c.t)
    ensures c.FromFunction? ==> r == WrapFunction(SingleUse, c.params, c.body, c.produced)
  {
    match c
    case FromTransition(t) => Ok(t.(variant := SingleUse))
    case FromFunction(params, body, produced) => WrapFunction(SingleUse, params, body, produced)
  }

  /** Conversion fails only for a function whose parameter shape names a plain fact twice; a
      parameterless function always converts, with nothing required. */
  lemma ConversionErrors(c: Convertible)
    ensures IntoTransitionOnce(c).Err? <==> c.FromFunction? && !Distinct(Collected(c.params))
    ensures c.FromTransition? ==> c.t.variant == SingleUse || IntoTransitionMut(c).Ok?
    ensures c.FromFunction? && c.params == Unit ==> IntoTransitionOnce(c).Ok? && IntoTransitionOnce(c).value.required == {}
    ensures c.FromFunction? && c.params == Unit ==> IntoTransitionMut(c).Ok? && IntoTransitionMut(c).value.required == {}
  {
    if c.FromFunction? && c.params == Unit {
      assert SeqSet([]) == {};
    }
  }

  /** Running a converted function takes its parameters, calls it on them, then inserts the
      result: it fails exactly when a plain parameter is missing, and otherwise the new keys
      are the old ones minus every parameter taken, plus every fact the result stores. */
  lemma RunConverted(t: Transition, s: State)
    requires t.proc.Call?
    ensures Exec(t.proc, s).Panicked? <==> Take(t.proc.params, s).Panicked?
    ensures Exec(t.proc, s).Done? ==>
      var (a, _) := Take(t.proc.params, s).value;
      Exec(t.proc, s).value.Keys == (s.Keys - MentionedSet(t.proc.params)) + Present(t.proc.body(a))
  {
    var params, body := t.proc.params, t.proc.body;
    match Take(params, s)
    case Panicked(_) =>
    case Done((a, s1)) =>
      TakeRemovesMentioned(params, s);
      InsertedKeys(body(a), s1);
  }
}
