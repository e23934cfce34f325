/** Sequential composition in the newer crate (crates/pssm_core/src/transition/andthen.rs):
    `combine_requirements` merges the two transitions' sets, and the three `and_then`s build a
    transition that runs the first procedure and then the second on the same state. */
module PssmAndThen {
  import opened Facts
  import opened PssmParams
  import opened PssmResults
  import opened PssmTransition
  import opened PssmConvert

  /** The error `combine_requirements` reports. */
  const UnproducedSharedRequirement := "Both transitions require the same parameter, but the first transition does not produce it."

  /** The merged (requires, produces) pair, as a value. */
  function Combined(required1: set<Id>, produced1: set<Id>, required2: set<Id>, produced2: set<Id>): Result<(set<Id>, set<Id>)>
  {
    if required1 * required2 <= produced1 then
      Ok((required1 + (required2 - produced1), produced2 + (produced1 - required2)))
    else
      Err(UnproducedSharedRequirement)
  }

  /** `combine_requirements`: every fact both transitions require must be produced by the
      first; the merged requirements are the first's plus those of the second the first does
      not produce, and the merged products are the second's plus those of the first the second
      does not consume. */
  method CombineRequirements(required1: set<Id>, produced1: set<Id>, required2: set<Id>, produced2: set<Id>)
    returns (r: Result<(set<Id>, set<Id>)>)
    ensures r.Err? <==> exists id :: id in required1 && id in required2 && id !in produced1
    ensures r.Err? ==> r.error == UnproducedSharedRequirement
    ensures r.Ok? ==> r.value.0 == required1 + (required2 - produced1)
    ensures r.Ok? ==> r.value.1 == produced2 + (produced1 - required2)
    ensures r == Combined(required1, produced1, required2, produced2)
  {
    var pending := required1 * required2;
    while pending != {}
      invariant pending <= required1 * required2
      invariant forall id :: id in required1 * required2 && id !in pending ==> id in produced1
      decreases pending
    {
      var id :| id in pending;
      if id !in produced1 {
        return Err(UnproducedSharedRequirement);
      }
      pending := pending - {id};
    }
    var required := required1;
    required := required + (required2 - produced1);
    var produced := produced2;
    produced := produced + (produced1 - required2);
    r := Ok((required, produced));
  }

  /** Laws of the merge: disjoint requirements never fail; the merged requirements include the
      first's and the merged products include the second's; and every fact the composite
      requires is required by one of the two. */
  lemma CombinedLaws(required1: set<Id>, produced1: set<Id>, required2: set<Id>, produced2: set<Id>)
    ensures required1 !! required2 ==> Combined(required1, produced1, required2, produced2).Ok?
    ensures Combined(required1, produced1, required2, produced2).Ok? ==>
      var (required, produced) := Combined(required1, produced1, required2, produced2).value;
      && required1 <= required && produced2 <= produced
      && required <= required1 + required2
      && produced <= produced1 + produced2
  {
  }

  /** The composite of two converted operands: a conversion error of the first operand, then of
      the second, is returned before the sets are combined; otherwise the composite runs the
      first procedure and then the second, with the merged sets. */
  function Compose(variant: Variant, c1: Result<Transition>, c2: Result<Transition>): (r: Result<Transition>)
    ensures c1.Err? ==> r == Err(c1.error)
    ensures c1.Ok? && c2.Err? ==> r == Err(c2.error)
    ensures c1.Ok? && c2.Ok? ==>
      (r.Err? <==> !(c1.value.required * c2.value.required <= c1.value.produced))
    ensures c1.Ok? && c2.Ok? && r.Err? ==> r.error == UnproducedSharedRequirement
    ensures c1.Ok? && c2.Ok? && r.Ok? ==>
      && r.value.variant == variant
      && r.value.proc == Then(c1.value.proc, c2.value.proc)
      && r.value.required == c1.value.required + (c2.value.required - c1.value.produced)
      && r.value.produced == c2.value.produced + (c1.value.produced - c2.value.required)
  {
    match c1
    case Err(e) => Err(e)
    case Ok(t1) =>
      match c2
      case Err(e) => Err(e)
      case Ok(t2) =>
        match Combined(t1.required, t1.produced, t2.required, t2.produced)
        case Err(e) => Err(e)
        case Ok((required, produced)) => Ok(Transition(variant, Then(t1.proc, t2.proc), required, produced))
  }

  /** `AndThen::and_then`. Its operands' `into_transition` is not part of this model, so it
      takes the two conversion results; the composite is a `Transition`. */
  function AndThen(c1: Result<Transition>, c2: Result<Transition>): (r: Result<Transition>)
    ensures c1.Err? ==> r == c1
    ensures c1.Ok? && c2.Err? ==> r == c2
    ensures r.Ok? ==> c1.Ok? && c2.Ok? && r.value.variant == Repeatable
    ensures r.Ok? ==> r.value.proc == Then(c1.value.proc, c2.value.proc)
  {
    Compose(Repeatable, c1, c2)
  }

  /** `AndThenMut::and_then`: both operands go through `into_transition_mut`. */
  function AndThenMut(a: Convertible, b: Convertible): (r: Result<Transition>)
    requires a.FromTransition? ==> a.t.variant != SingleUse
    requires b.FromTransition? ==> b.t.variant != SingleUse
    ensures IntoTransitionMut(a).Err? ==> r == IntoTransitionMut(a)
    ensures IntoTransitionMut(a).Ok? && IntoTransitionMut(b).Err? ==> r == IntoTransitionMut(b)
    ensures r.Ok? ==> IntoTransitionMut(a).Ok? && IntoTransitionMut(b).Ok? && r.value.variant == Mutating
    ensures r.Ok? ==> r.value.proc == Then(IntoTransitionMut(a).value.proc, IntoTransitionMut(b).value.proc)
  {
    Compose(Mutating, IntoTransitionMut(a), IntoTransitionMut(b))
  }

  /** `AndThenOnce::and_then`: both operands go through `into_transition_once`. */
  function AndThenOnce(a: Convertible, b: Convertible): (r: Result<Transition>)
    ensures IntoTransitionOnce(a).Err? ==> r == IntoTransitionOnce(a)
    ensures IntoTransitionOnce(a).Ok? && IntoTransitionOnce(b).Err? ==> r == IntoTransitionOnce(b)
    ensures r.Ok? ==> IntoTransitionOnce(a).Ok? && IntoTransitionOnce(b).Ok? && r.value.variant == SingleUse
    ensures r.Ok? ==> r.value.proc == Then(IntoTransitionOnce(a).value.proc, IntoTransitionOnce(b).value.proc)
  {
    Compose(SingleUse, IntoTransitionOnce(a), IntoTransitionOnce(b))
  }

  /** The composite's procedure runs the first procedure and then the second on the state the
      first left; a panic in the first stops it. */
  lemma ComposedRunsInOrder(variant: Variant, t1: Transition, t2: Transition, s: State)
    requires Compose(variant, Ok(t1), Ok(t2)).Ok?
    ensures Exec(t1.proc, s).Panicked? ==> Exec(Compose(variant, Ok(t1), Ok(t2)).value.proc, s).Panicked?
    ensures Exec(t1.proc, s).Done? ==>
      Exec(Compose(variant, Ok(t1), Ok(t2)).value.proc, s) == Exec(t2.proc, Exec(t1.proc, s).value)
  {
  }

  // ---------------------------------------------------------------------------------------
  // The crate's own examples

  /** `insert_a`: no parameters, returns the fact `A`. */
  function InsertA(): Convertible
  {
    FromFunction(Unit, (_: Arg) => OFact("A", 0), {"A"})
  }

  /** `consume_a`: takes the fact `A`, returns `()`. */
  function ConsumeA(): Convertible
  {
    FromFunction(Fact("A"), (_: Arg) => OUnit, {})
  }

  /** `insert_a.and_then(consume_a)` succeeds with nothing required and nothing produced, and
      running it on the empty state leaves the empty state. */
  lemma InsertThenConsume()
    ensures AndThenMut(InsertA(), ConsumeA()).Ok?
    ensures AndThenMut(InsertA(), ConsumeA()).value.required == {}
    ensures AndThenMut(InsertA(), ConsumeA()).value.produced == {}
    ensures Exec(AndThenMut(InsertA(), ConsumeA()).value.proc, map[]) == Done(map[])
  {
    assert SeqSet([]) == {};
    assert ["A"][0] == "A";
    assert SeqSet(["A"]) == {"A"};
    var s1 := Inserted(OFact("A", 0), map[]);
    assert Take(Fact("A"), s1) == Done((FactArg(0), map[]));
  }

  /** A producer of `A` followed by a consumer of `A` that returns `B`: the composite needs
      nothing and produces `B`. Two consumers of `A` where the first does not produce it are
      rejected. */
  lemma ChainExamples()
    ensures Combined({}, {"A"}, {"A"}, {"B"}) == Ok(({}, {"B"}))
    ensures Combined({"A"}, {"B"}, {"A"}, {"C"}) == Err(UnproducedSharedRequirement)
    ensures Combined({}, {"A"}, {"A"}, {"A"}) == Ok(({}, {"A"}))
  {
    assert !({"A"} * {"A"} <= {"B"}) by { assert "A" in {"A"} * {"A"}; }
    assert {"A"} - {"A"} == {};
    assert {} + ({"A"} - {"A"}) == {};
    assert {"B"} + ({"A"} - {"A"}) == {"B"};
    assert {"A"} + ({"A"} - {"A"}) == {"A"};
  }
}
