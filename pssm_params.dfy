/** Parameter binding of the newer crate (crates/pssm_core/src/transition/params.rs): how a
    parameter list takes its facts out of the state, and which facts it requires. The nine
    arity-specific tuple implementations are one recursive shape here. */
module PssmParams {
  import opened Facts

  /** The shape of a parameter list: a plain fact, `Option<fact>`, `()`, or a tuple of shapes. */
  datatype Shape = Fact(id: Id) | Opt(id: Id) | Unit | Tuple(items: seq<Shape>)

  /** The value extracted for a shape, handed to the wrapped function. */
  datatype Arg = FactArg(v: Value) | OptArg(o: Option<Value>) | UnitArg | TupleArg(items: seq<Arg>)

  /** The message of the error `required()` reports for a fact collected twice. */
  const DuplicateRequirement := "Transition requires the same truth multiple times"

  // ---------------------------------------------------------------------------------------
  // take_from

  /** What `take_from` does to a state: a plain fact is removed and returned (its absence is
      fatal), `Option<fact>` is removed when present, `()` takes nothing, and a tuple takes its
      components left to right, each from the state the previous one left. */
  function Take(sh: Shape, s: State): Outcome<(Arg, State)>
    decreases sh
  {
    match sh
    case Fact(id) =>
      if id in s then Done((FactArg(s[id]), s - {id})) else Panicked(MissingTruth)
    case Opt(id) =>
      if id in s then Done((OptArg(Some(s[id])), s - {id})) else Done((OptArg(None), s))
    case Unit => Done((UnitArg, s))
    case Tuple(items) =>
      match TakeAll(items, s)
      case Panicked(m) => Panicked(m)
      case Done((args, s')) => Done((TupleArg(args), s'))
  }

  /** The components of a tuple, taken left to right. */
  function TakeAll(items: seq<Shape>, s: State): Outcome<(seq<Arg>, State)>
    decreases items
  {
    if items == [] then Done(([], s))
    else
      match TakeAll(items[..|items| - 1], s)
      case Panicked(m) => Panicked(m)
      case Done((args, s1)) =>
        match Take(items[|items| - 1], s1)
        case Panicked(m) => Panicked(m)
        case Done((a, s2)) => Done((args + [a], s2))
  }

  /** Once a prefix of the components panics, the whole tuple panics. */
  lemma {:induction false} TakeAllPanicExtends(items: seq<Shape>, k: nat, s: State)
    requires k <= |items|
    requires TakeAll(items[..k], s).Panicked?
    ensures TakeAll(items, s).Panicked?
    decreases |items| - k
  {
    if k < |items| {
      var next := items[..k + 1];
      assert next[..k] == items[..k];
      assert TakeAll(next, s).Panicked?;
      TakeAllPanicExtends(items, k + 1, s);
    } else {
      assert items[..k] == items;
    }
  }

  /** `take_from`, in place: the facts the shape needs are removed from `state` and returned. */
  method TakeFrom(sh: Shape, state: Store) returns (r: Outcome<Arg>)
    modifies state
    decreases sh
    ensures r.Panicked? <==> Take(sh, old(state.facts)).Panicked?
    ensures r.Done? ==> Take(sh, old(state.facts)) == Done((r.value, state.facts))
  {
    match sh
    case Fact(id) =>
      if id !in state.facts {
        return Panicked(MissingTruth);
      }
      r := Done(FactArg(state.facts[id]));
      state.facts := state.facts - {id};
    case Opt(id) =>
      if id in state.facts {
        r := Done(OptArg(Some(state.facts[id])));
        state.facts := state.facts - {id};
      } else {
        r := Done(OptArg(None));
      }
    case Unit =>
      r := Done(UnitArg);
    case Tuple(items) =>
      var args: seq<Arg> := [];
      var i := 0;
      while i < |items|
        invariant 0 <= i <= |items|
        invariant TakeAll(items[..i], old(state.facts)) == Done((args, state.facts))
      {
        var a := TakeFrom(items[i], state);
        assert items[..i + 1][..i] == items[..i] && items[..i + 1][i] == items[i];
        if a.Panicked? {
          TakeAllPanicExtends(items, i + 1, old(state.facts));
          return Panicked(a.message);
        }
        args := args + [a.value];
        i := i + 1;
      }
      assert items[..i] == items;
      r := Done(TupleArg(args));
  }

  // ---------------------------------------------------------------------------------------
  // collect_required and required()

  /** The identifiers `collect_required` hands to its collector, in order: one per plain
      fact, none for `Option<fact>` or `()`, and a tuple's components left to right. */
  function Collected(sh: Shape): seq<Id>
    decreases sh
  {
    match sh
    case Fact(id) => [id]
    case Opt(_) => []
    case Unit => []
    case Tuple(items) => CollectedAll(items)
  }

  function CollectedAll(items: seq<Shape>): seq<Id>
    decreases items
  {
    if items == [] then [] else CollectedAll(items[..|items| - 1]) + Collected(items[|items| - 1])
  }

  /** Every identifier a shape names, plain or optional: the facts `take_from` may remove. */
  function Mentioned(sh: Shape): seq<Id>
    decreases sh
  {
    match sh
    case Fact(id) => [id]
    case Opt(id) => [id]
    case Unit => []
    case Tuple(items) => MentionedAll(items)
  }

  function MentionedAll(items: seq<Shape>): seq<Id>
    decreases items
  {
    if items == [] then [] else MentionedAll(items[..|items| - 1]) + Mentioned(items[|items| - 1])
  }

  /** Feeding a sequence of identifiers to a collector, stopping at its first error: the
      reference against which the shape walk is checked. */
  function Feed<A>(ids: seq<Id>, step: (A, Id) -> Result<A>, acc: A): Result<A>
  {
    if ids == [] then Ok(acc)
    else
      match Feed(ids[..|ids| - 1], step, acc)
      case Err(e) => Err(e)
      case Ok(a) => step(a, ids[|ids| - 1])
  }

  /** Feeding a concatenation is feeding the first part, then (unless it failed) the second. */
  lemma {:induction false} FeedAppend<A>(xs: seq<Id>, ys: seq<Id>, step: (A, Id) -> Result<A>, acc: A)
    ensures Feed(xs + ys, step, acc)
         == match Feed(xs, step, acc) case Err(e) => Err(e) case Ok(a) => Feed(ys, step, a)
    decreases |ys|
  {
    if ys == [] {
      assert xs + ys == xs;
      match Feed(xs, step, acc)
      case Err(e) =>
      case Ok(a) =>
    } else {
      var ys' := ys[..|ys| - 1];
      assert (xs + ys)[..|xs + ys| - 1] == xs + ys';
      FeedAppend(xs, ys', step, acc);
    }
  }

  /** `collect_required` with an arbitrary collector: `step` is called with each collected
      identifier and an accumulator, and the walk stops at the collector's first error. The
      walk calls the collector on exactly `Collected(sh)`, left to right. */
  function CollectRequired<A>(sh: Shape, step: (A, Id) -> Result<A>, acc: A): (r: Result<A>)
    ensures r == Feed(Collected(sh), step, acc)
    decreases sh
  {
    match sh
    case Fact(id) =>
      assert [id][..0] == [];
      step(acc, id)
    case Opt(_) => Ok(acc)
    case Unit => Ok(acc)
    case Tuple(items) => CollectRequiredAll(items, step, acc)
  }

  /** A tuple's walk: its components left to right, stopping at the first error. */
  function CollectRequiredAll<A>(items: seq<Shape>, step: (A, Id) -> Result<A>, acc: A): (r: Result<A>)
    ensures r == Feed(CollectedAll(items), step, acc)
    decreases items
  {
    if items == [] then Ok(acc)
    else
      var front, last := items[..|items| - 1], items[|items| - 1];
      FeedAppend(CollectedAll(front), Collected(last), step, acc);
      match CollectRequiredAll(front, step, acc)
      case Err(e) => Err(e)
      case Ok(a) => CollectRequired(last, step, a)
  }

  /** The collector `required()` passes: it records an identifier, or fails when it has
      already been recorded. */
  function RecordNew(seen: set<Id>, id: Id): Result<set<Id>>
  {
    if id in seen then Err(DuplicateRequirement) else Ok(seen + {id})
  }

  /** Feeding `RecordNew` fails exactly on a repeated identifier, and otherwise adds them all. */
  lemma {:induction false} FeedRecordNew(ids: seq<Id>, seen: set<Id>)
    ensures Feed(ids, RecordNew, seen)
         == if Distinct(ids) && SeqSet(ids) !! seen then Ok(seen + SeqSet(ids))
            else Err(DuplicateRequirement)
  {
    if ids == [] {
      assert SeqSet(ids) == {};
      assert Distinct(ids) && seen + SeqSet(ids) == seen;
    } else {
      var front, last := ids[..|ids| - 1], ids[|ids| - 1];
      assert ids == front + [last];
      FeedRecordNew(front, seen);
      DistinctSnoc(front, last);
      SeqSetAppend(front, [last]);
      assert SeqSet([last]) == {last};
      if Distinct(front) && SeqSet(front) !! seen {
        var seen' := seen + SeqSet(front);
        assert Feed(ids, RecordNew, seen) == RecordNew(seen', last);
        assert SeqSet(ids) == SeqSet(front) + {last};
        if last in seen {
          assert last in SeqSet(ids) * seen;
        } else if last in SeqSet(front) {
          assert !Distinct(ids);
        } else {
          assert Distinct(ids);
          assert SeqSet(ids) !! seen;
          assert seen' + {last} == seen + SeqSet(ids);
        }
      }
    }
  }

  /** The value of `required()`: the set of collected identifiers, or the duplicate error. */
  function RequiredOf(sh: Shape): Result<set<Id>>
  {
    CollectRequired(sh, RecordNew, {})
  }

  /** `required()` fails exactly when some identifier is collected twice; otherwise it is the
      set of collected identifiers (plain facts only). */
  lemma RequiredOfMeaning(sh: Shape)
    ensures RequiredOf(sh).Err? <==> !Distinct(Collected(sh))
    ensures RequiredOf(sh).Err? ==> RequiredOf(sh).error == DuplicateRequirement
    ensures RequiredOf(sh).Ok? ==> RequiredOf(sh).value == SeqSet(Collected(sh))
  {
    FeedRecordNew(Collected(sh), {});
  }

  /** `required()`: collected identifiers go into a set one by one, and the first one already
      there ends the walk with the duplicate error. */
  method Required(sh: Shape) returns (r: Result<set<Id>>)
    ensures r.Err? <==> !Distinct(Collected(sh))
    ensures r.Err? ==> r.error == DuplicateRequirement
    ensures r.Ok? ==> r.value == SeqSet(Collected(sh))
    ensures r == RequiredOf(sh)
  {
    RequiredOfMeaning(sh);
    var ids := Collected(sh);
    var seen: set<Id> := {};
    var i := 0;
    while i < |ids|
      invariant 0 <= i <= |ids|
      invariant Distinct(ids[..i]) && seen == SeqSet(ids[..i])
    {
      assert ids[..i + 1] == ids[..i] + [ids[i]];
      DistinctSnoc(ids[..i], ids[i]);
      if ids[i] in seen {
        DistinctAppend(ids[..i + 1], ids[i + 1..]);
        assert ids[..i + 1] + ids[i + 1..] == ids;
        return Err(DuplicateRequirement);
      }
      SeqSetAppend(ids[..i], [ids[i]]);
      assert SeqSet([ids[i]]) == {ids[i]};
      seen := seen + {ids[i]};
      i := i + 1;
    }
    assert ids[..i] == ids;
    return Ok(seen);
  }

  // ---------------------------------------------------------------------------------------
  // Properties of take_from

  /** The set of identifiers a shape names. */
  function MentionedSet(sh: Shape): set<Id>
  {
    SeqSet(Mentioned(sh))
  }

  /** A successful take removes exactly the identifiers the shape names (those that were
      present) and leaves every other entry as it was. */
  lemma {:induction false} TakeRemovesMentioned(sh: Shape, s: State)
    requires Take(sh, s).Done?
    ensures Take(sh, s).value.1 == s - MentionedSet(sh)
    decreases sh
  {
    match sh
    case Fact(id) => assert MentionedSet(sh) == {id} by { assert Mentioned(sh)[0] == id; }
    case Opt(id) => assert MentionedSet(sh) == {id} by { assert Mentioned(sh)[0] == id; }
    case Unit =>
    case Tuple(items) => TakeAllRemovesMentioned(items, s);
  }

  lemma {:induction false} TakeAllRemovesMentioned(items: seq<Shape>, s: State)
    requires TakeAll(items, s).Done?
    ensures TakeAll(items, s).value.1 == s - SeqSet(MentionedAll(items))
    decreases items
  {
    if items != [] {
      var front, last := items[..|items| - 1], items[|items| - 1];
      TakeAllRemovesMentioned(front, s);
      var s1 := TakeAll(front, s).value.1;
      TakeRemovesMentioned(last, s1);
      SeqSetAppend(MentionedAll(front), Mentioned(last));
    }
  }
}
