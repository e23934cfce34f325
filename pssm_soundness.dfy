/** What a transition's sets promise about running it, and where the newer crate keeps or breaks
    that promise. A transition honours its sets when, on every state holding all it requires,
    it runs without panicking, leaves every fact it produces, and removes nothing it does not
    touch. Conversion of a function whose parameters name every fact once honours its sets,
    and so does the composite of two honouring transitions under a corrected merge; the merge
    as written, and `required()` as written, each admit a transition that panics on a state
    holding everything it requires. */
module PssmSoundness {
  import opened Facts
  import opened PssmParams
  import opened PssmResults
  import opened PssmTransition
  import opened PssmConvert
  import opened PssmAndThen

  /** The facts a procedure may remove: every fact its parameter shapes name, plain or
      optional. */
  function Touched(p: Proc): set<Id>
  {
    match p
    case Call(params, _) => MentionedSet(params)
    case Then(first, second) => Touched(first) + Touched(second)
  }

  /** On state `s` the transition runs without panicking, leaves every fact it produces, and
      keeps every fact it does not touch. */
  ghost predicate FulfilsOn(t: Transition, s: State)
  {
    && Exec(t.proc, s).Done?
    && t.produced <= Exec(t.proc, s).value.Keys
    && s.Keys - Touched(t.proc) <= Exec(t.proc, s).value.Keys
  }

  /** The transition keeps its promise on every state that holds all it requires. */
  ghost predicate Honours(t: Transition)
  {
    forall s: State :: t.required <= s.Keys ==> FulfilsOn(t, s)
  }

  /** Whatever its argument, the function returns a result that stores every listed fact. */
  ghost predicate Delivers(body: Arg -> Output, produced: set<Id>)
  {
    forall a :: produced <= Present(body(a))
  }

  // ---------------------------------------------------------------------------------------
  // Taking parameters succeeds when every fact is named once and every plain one is present

  lemma {:induction false} CollectedInMentioned(sh: Shape)
    ensures SeqSet(Collected(sh)) <= MentionedSet(sh)
    decreases sh
  {
    match sh
    case Fact(id) =>
    case Opt(_) =>
    case Unit =>
    case Tuple(items) => CollectedAllInMentionedAll(items);
  }

  lemma {:induction false} CollectedAllInMentionedAll(items: seq<Shape>)
    ensures SeqSet(CollectedAll(items)) <= SeqSet(MentionedAll(items))
    decreases items
  {
    if items == [] {
      assert SeqSet([]) == {};
    } else {
      var front, last := items[..|items| - 1], items[|items| - 1];
      CollectedAllInMentionedAll(front);
      CollectedInMentioned(last);
      SeqSetAppend(CollectedAll(front), Collected(last));
      SeqSetAppend(MentionedAll(front), Mentioned(last));
    }
  }

  /** If a shape names every fact once, it collects every plain fact once. */
  lemma {:induction false} DistinctMentionedCollected(sh: Shape)
    requires Distinct(Mentioned(sh))
    ensures Distinct(Collected(sh))
    decreases sh
  {
    match sh
    case Fact(id) =>
    case Opt(_) =>
    case Unit =>
    case Tuple(items) => DistinctMentionedAllCollectedAll(items);
  }

  lemma {:induction false} DistinctMentionedAllCollectedAll(items: seq<Shape>)
    requires Distinct(MentionedAll(items))
    ensures Distinct(CollectedAll(items))
    decreases items
  {
    if items != [] {
      var front, last := items[..|items| - 1], items[|items| - 1];
      DistinctAppend(MentionedAll(front), Mentioned(last));
      DistinctMentionedAllCollectedAll(front);
      DistinctMentionedCollected(last);
      CollectedAllInMentionedAll(front);
      CollectedInMentioned(last);
      DistinctAppend(CollectedAll(front), Collected(last));
    }
  }

  /** Taking never panics when the shape names every fact once and every plain fact it names
      is in the state. */
  lemma {:induction false} TakeSucceeds(sh: Shape, s: State)
    requires Distinct(Mentioned(sh))
    requires SeqSet(Collected(sh)) <= s.Keys
    ensures Take(sh, s).Done?
    decreases sh
  {
    match sh
    case Fact(id) => assert Collected(sh)[0] == id;
    case Opt(_) =>
    case Unit =>
    case Tuple(items) => TakeAllSucceeds(items, s);
  }

  lemma {:induction false} TakeAllSucceeds(items: seq<Shape>, s: State)
    requires Distinct(MentionedAll(items))
    requires SeqSet(CollectedAll(items)) <= s.Keys
    ensures TakeAll(items, s).Done?
    decreases items
  {
    if items != [] {
      var front, last := items[..|items| - 1], items[|items| - 1];
      DistinctAppend(MentionedAll(front), Mentioned(last));
      SeqSetAppend(CollectedAll(front), Collected(last));
      TakeAllSucceeds(front, s);
      TakeAllRemovesMentioned(front, s);
      CollectedInMentioned(last);
      TakeSucceeds(last, TakeAll(front, s).value.1);
    }
  }

  // ---------------------------------------------------------------------------------------
  // Finding: `required()` ignores optional parameters

  /** A corrected `required()`: optional parameters are recorded in the duplicate check too,
      but only plain facts are required. */
  function RequiredChecked(sh: Shape): Result<set<Id>>
  {
    match Feed(Mentioned(sh), RecordNew, {})
    case Err(e) => Err(e)
    case Ok(_) => Ok(SeqSet(Collected(sh)))
  }

  /** The corrected check fails exactly when the shape names some fact twice, plain or
      optional; it rejects everything the original rejects; and on shapes without optional
      parameters the two agree. */
  lemma RequiredCheckedMeaning(sh: Shape)
    ensures RequiredChecked(sh).Err? <==> !Distinct(Mentioned(sh))
    ensures RequiredChecked(sh).Ok? ==> RequiredChecked(sh).value == SeqSet(Collected(sh))
    ensures RequiredOf(sh).Err? ==> RequiredChecked(sh).Err?
    ensures RequiredChecked(sh).Ok? ==> RequiredOf(sh) == RequiredChecked(sh)
  {
    FeedRecordNew(Mentioned(sh), {});
    RequiredOfMeaning(sh);
    if Distinct(Mentioned(sh)) {
      DistinctMentionedCollected(sh);
    }
  }

  /** Wrapping a function with the corrected check. */
  function WrapChecked(variant: Variant, params: Shape, body: Arg -> Output, produced: set<Id>): Result<Transition>
  {
    match RequiredChecked(params)
    case Err(e) => Err(e)
    case Ok(required) => Ok(Transition(variant, Call(params, body), required, produced))
  }

  /** A function wrapped with the corrected check honours its sets whenever its result always
      stores what it claims to produce. */
  lemma FunctionHonours(variant: Variant, params: Shape, body: Arg -> Output, produced: set<Id>)
    requires Delivers(body, produced)
    requires WrapChecked(variant, params, body, produced).Ok?
    ensures Honours(WrapChecked(variant, params, body, produced).value)
  {
    RequiredCheckedMeaning(params);
    var t := WrapChecked(variant, params, body, produced).value;
    forall s: State | t.required <= s.Keys ensures FulfilsOn(t, s) {
      TakeSucceeds(params, s);
      var (a, s1) := Take(params, s).value;
      TakeRemovesMentioned(params, s);
      InsertedKeys(body(a), s1);
    }
  }

  /** The function `(Option<A>, A) -> ()`. */
  function OptionalThenPlain(): Shape
  {
    Tuple([Opt("A"), Fact("A")])
  }

  lemma OptionalThenPlainLists()
    ensures Collected(OptionalThenPlain()) == ["A"]
    ensures Mentioned(OptionalThenPlain()) == ["A", "A"]
  {
    var items := OptionalThenPlain().items;
    assert items[..1] == [Opt("A")] && items[..1][..0] == [];
  }

  lemma OptionalThenPlainPanics()
    ensures Take(OptionalThenPlain(), map["A" := 0]).Panicked?
  {
    var items := OptionalThenPlain().items;
    var s: State := map["A" := 0];
    assert items[..1] == [Opt("A")] && items[..1][..0] == [];
    assert s - {"A"} == map[];
    assert Take(Opt("A"), s) == Done((OptArg(Some(0)), map[]));
    var front := items[..1];
    assert front[..|front| - 1] == [] && front[|front| - 1] == Opt("A");
    assert TakeAll([], s) == Done(([], s));
    assert [] + [OptArg(Some(0))] == [OptArg(Some(0))];
    assert TakeAll(front, s) == Done(([OptArg(Some(0))], map[]));
    assert items[..|items| - 1] == front && items[|items| - 1] == Fact("A");
  }

  /** As written, `required()` accepts `(Option<A>, A)` and requires only `A`; on a state
      holding `A` the optional parameter takes it and the plain one then panics. The corrected
      check rejects the shape. */
  lemma RequiredAdmitsPanic()
    ensures WrapFunction(Mutating, OptionalThenPlain(), (_: Arg) => OUnit, {}).Ok?
    ensures WrapFunction(Mutating, OptionalThenPlain(), (_: Arg) => OUnit, {}).value.required == {"A"}
    ensures Exec(WrapFunction(Mutating, OptionalThenPlain(), (_: Arg) => OUnit, {}).value.proc, map["A" := 0]).Panicked?
    ensures RequiredChecked(OptionalThenPlain()) == Err(DuplicateRequirement)
  {
    var sh := OptionalThenPlain();
    OptionalThenPlainLists();
    OptionalThenPlainPanics();
    assert ["A"][0] == "A";
    assert SeqSet(["A"]) == {"A"};
    assert !Distinct(Mentioned(sh)) by { assert Mentioned(sh)[0] == Mentioned(sh)[1]; }
    RequiredCheckedMeaning(sh);
    FeedRecordNew(Mentioned(sh), {});
  }

  // ---------------------------------------------------------------------------------------
  // Finding: the merge ignores what the first transition consumes optionally

  /** A corrected merge: any fact the second requires that the first requires or may take must
      be produced by the first, and a product of the first survives only if the second
      neither requires nor may take it. */
  function ComposeChecked(variant: Variant, c1: Result<Transition>, c2: Result<Transition>): Result<Transition>
  {
    match c1
    case Err(e) => Err(e)
    case Ok(t1) =>
      match c2
      case Err(e) => Err(e)
      case Ok(t2) =>
        if (t1.required + Touched(t1.proc)) * t2.required <= t1.produced then
          Ok(Transition(variant, Then(t1.proc, t2.proc),
                        t1.required + (t2.required - t1.produced),
                        t2.produced + (t1.produced - t2.required - Touched(t2.proc))))
        else
          Err(UnproducedSharedRequirement)
  }

  /** The composite under the corrected merge honours its sets when both parts do. */
  lemma ComposeHonours(variant: Variant, t1: Transition, t2: Transition)
    requires Honours(t1) && Honours(t2)
    requires ComposeChecked(variant, Ok(t1), Ok(t2)).Ok?
    ensures Honours(ComposeChecked(variant, Ok(t1), Ok(t2)).value)
  {
    var t := ComposeChecked(variant, Ok(t1), Ok(t2)).value;
    forall s: State | t.required <= s.Keys ensures FulfilsOn(t, s) {
      assert t1.required <= s.Keys;
      assert FulfilsOn(t1, s);
      var s1 := Exec(t1.proc, s).value;
      forall id | id in t2.required ensures id in s1 {
        if id !in t1.produced {
          assert id in s.Keys && id !in Touched(t1.proc);
        }
      }
      assert FulfilsOn(t2, s1);
    }
  }

  /** The corrected merge rejects everything the original rejects and otherwise builds the
      same procedure with the same requirements and a subset of the products; when neither
      part may take a fact it does not require, the two merges agree. */
  lemma ComposeCheckedRefines(variant: Variant, c1: Result<Transition>, c2: Result<Transition>)
    ensures Compose(variant, c1, c2).Err? ==> ComposeChecked(variant, c1, c2).Err?
    ensures ComposeChecked(variant, c1, c2).Ok? ==>
      && Compose(variant, c1, c2).Ok?
      && ComposeChecked(variant, c1, c2).value.proc == Compose(variant, c1, c2).value.proc
      && ComposeChecked(variant, c1, c2).value.required == Compose(variant, c1, c2).value.required
      && ComposeChecked(variant, c1, c2).value.produced <= Compose(variant, c1, c2).value.produced
    ensures c1.Ok? && c2.Ok? && Touched(c1.value.proc) <= c1.value.required && Touched(c2.value.proc) <= c2.value.required ==>
      ComposeChecked(variant, c1, c2) == Compose(variant, c1, c2)
  {
    if c1.Ok? && c2.Ok? && Touched(c1.value.proc) <= c1.value.required && Touched(c2.value.proc) <= c2.value.required {
      var t1, t2 := c1.value, c2.value;
      assert (t1.required + Touched(t1.proc)) * t2.required == t1.required * t2.required;
      assert t1.produced - t2.required - Touched(t2.proc) == t1.produced - t2.required;
    }
  }

  /** `f(Option<A>)` followed by `g(A)`, both returning `()`. */
  function TakesOptionalA(): Transition
  {
    Transition(Mutating, Call(Opt("A"), (_: Arg) => OUnit), {}, {})
  }

  function TakesA(): Transition
  {
    Transition(Mutating, Call(Fact("A"), (_: Arg) => OUnit), {"A"}, {})
  }

  /** As written, the merge accepts `f(Option<A>).and_then(g(A))` although each part honours
      its sets: the composite requires only `A`, and on a state holding `A` the first part
      takes it and the second panics. The corrected merge rejects the pair. */
  lemma ComposeAdmitsPanic()
    ensures TakesOptionalA() == WrapFunction(Mutating, Opt("A"), (_: Arg) => OUnit, {}).value
    ensures TakesA() == WrapFunction(Mutating, Fact("A"), (_: Arg) => OUnit, {}).value
    ensures Honours(TakesOptionalA()) && Honours(TakesA())
    ensures Compose(Mutating, Ok(TakesOptionalA()), Ok(TakesA())).Ok?
    ensures Compose(Mutating, Ok(TakesOptionalA()), Ok(TakesA())).value.required == {"A"}
    ensures Exec(Compose(Mutating, Ok(TakesOptionalA()), Ok(TakesA())).value.proc, map["A" := 0]).Panicked?
    ensures ComposeChecked(Mutating, Ok(TakesOptionalA()), Ok(TakesA())).Err?
  {
    assert SeqSet([]) == {};
    assert ["A"][0] == "A";
    assert SeqSet(["A"]) == {"A"};
    assert [Opt("A")] == [Opt("A")];
    RequiredCheckedMeaning(Opt("A"));
    RequiredCheckedMeaning(Fact("A"));
    FunctionHonours(Mutating, Opt("A"), (_: Arg) => OUnit, {});
    FunctionHonours(Mutating, Fact("A"), (_: Arg) => OUnit, {});
    assert WrapChecked(Mutating, Opt("A"), (_: Arg) => OUnit, {}).value == TakesOptionalA();
    assert WrapChecked(Mutating, Fact("A"), (_: Arg) => OUnit, {}).value == TakesA();
    assert {} + ({"A"} - {}) == {"A"};
    assert "A" in Touched(TakesOptionalA().proc);
  }
}
