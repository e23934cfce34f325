/** The guarded state machine of the older crate (crates/sems_core/src/statemachine.rs): it owns
    the state, runs a converted function only when every fact its parameters name is present,
    and sets, queries and removes single facts. */
module SemsStateMachine {
  import opened Facts
  import opened SemsParams
  import opened SemsTransition
  import P = PssmParams
  import S = PssmSoundness

  /** The error `run` returns when the guard fails. */
  const CannotRun := "Cannot run transition on current state"

  /** The guard: every identifier `ids()` reports for the parameters is a key of the state. */
  predicate Runnable(params: Param, s: State)
  {
    SeqSet(CollectIds(params)) <= s.Keys
  }

  class StateMachine {
    const store: Store

    /** `new`: an empty state. */
    constructor ()
      ensures fresh(store)
      ensures store.facts == map[]
    {
      store := new Store(map[]);
    }

    /** `can_run`: walks the reported identifiers and answers whether all are present. */
    method CanRun(c: Convertible) returns (b: bool)
      ensures b <==> Runnable(ParamsOf(c), store.facts)
    {
      var ids := Ids(ParamsOf(c));
      var i := 0;
      while i < |ids|
        invariant 0 <= i <= |ids|
        invariant forall k :: 0 <= k < i ==> ids[k] in store.facts
      {
        if ids[i] !in store.facts {
          return false;
        }
        i := i + 1;
      }
      b := true;
    }

    /** `run_unchecked`: convert and run, whatever the state holds. */
    method RunUnchecked(c: Convertible) returns (r: Outcome<()>)
      requires c.FromTransition? ==> c.t.kind == Repeatable
      modifies store
      ensures r.Panicked? <==> Exec(IntoTransition(c).proc, old(store.facts)).Panicked?
      ensures r.Done? ==> Exec(IntoTransition(c).proc, old(store.facts)) == Done(store.facts)
    {
      var t := IntoTransition(c);
      r := t.Run(store);
    }

    /** `run`: only a copyable function can be passed, and so never a record. When the guard
        fails the state is left as it was and the error is returned; otherwise the function
        runs and `Ok` is returned. */
    method Run(c: Convertible) returns (r: Outcome<Result<()>>)
      requires c.FromFunction?
      modifies store
      ensures !Runnable(c.params, old(store.facts)) ==>
        r == Done(Err(CannotRun)) && store.facts == old(store.facts)
      ensures Runnable(c.params, old(store.facts)) ==>
        && (r.Panicked? <==> Exec(Procedure(c.params, c.body), old(store.facts)).Panicked?)
        && (r.Done? ==> r.value == Ok(()) && Exec(Procedure(c.params, c.body), old(store.facts)) == Done(store.facts))
    {
      var ok := CanRun(c);
      if !ok {
        return Done(Err(CannotRun));
      }
      var o := RunUnchecked(c);
      if o.Panicked? {
        return Panicked(o.message);
      }
      r := Done(Ok(()));
    }

    /** `set_truth`: store the value under its identifier, overwriting. */
    method SetTruth(id: Id, v: Value)
      modifies store
      ensures store.facts == old(store.facts)[id := v]
    {
      store.facts := store.facts[id := v];
    }

    /** `has_truth`. */
    function HasTruth(id: Id): (b: bool)
      reads this, store
      ensures b <==> id in store.facts.Keys
    {
      id in store.facts
    }

    /** `unset_truth`: take the fact as an optional parameter, so a present fact is removed and
        returned and an absent one leaves the state as it was. */
    method UnsetTruth(id: Id) returns (o: Option<Value>)
      modifies store
      ensures id in old(store.facts) ==> o == Some(old(store.facts)[id]) && store.facts == old(store.facts) - {id}
      ensures id !in old(store.facts) ==> o == None && store.facts == old(store.facts)
    {
      var r := TakeFrom(POpt(id), store);
      if r.Done? && r.value.OptArg? {
        o := r.value.o;
      } else {
        assert false;
      }
    }

    /** Setting a fact and then unsetting it returns the value set, leaves the fact absent, and
        leaves every other fact as it was. */
    method SetThenUnset(id: Id, v: Value) returns (o: Option<Value>, present: bool)
      modifies store
      ensures o == Some(v) && !present
      ensures store.facts == old(store.facts) - {id}
    {
      SetTruth(id, v);
      var had := HasTruth(id);
      assert had;
      o := UnsetTruth(id);
      present := HasTruth(id);
      assert store.facts == old(store.facts) - {id};
    }
  }

  // ---------------------------------------------------------------------------------------
  // What the guard guarantees

  /** The guard refuses only functions that would fail: a function whose plain parameters are
      not all present panics when run. */
  lemma GuardRefusesOnlyFailures(c: Convertible, s: State)
    requires c.FromFunction?
    requires !Runnable(c.params, s)
    ensures Exec(Procedure(c.params, c.body), s).Panicked?
  {
    TakeMissingPanics(c.params, s);
  }

  /** When the parameters name every fact at most once, plain or optional, the guard is
      enough: a function it admits runs to completion. */
  lemma GuardSufficient(c: Convertible, s: State)
    requires c.FromFunction?
    requires Distinct(P.Mentioned(ToShape(c.params)))
    requires Runnable(c.params, s)
    ensures Exec(Procedure(c.params, c.body), s).Done?
  {
    IdsAgree(c.params);
    TakeAgrees(c.params, s);
    S.TakeSucceeds(ToShape(c.params), s);
  }

  /** The older `ids()` keeps duplicates, so the guard admits a function taking the same fact
      twice on a state that holds it once, and that function panics. */
  lemma GuardAdmitsPanic()
    ensures Runnable(PPair(PFact("A"), PFact("A")), map["A" := 0])
    ensures Take(PPair(PFact("A"), PFact("A")), map["A" := 0]).Panicked?
  {
    var s := map["A" := 0];
    assert CollectIds(PPair(PFact("A"), PFact("A"))) == ["A", "A"];
    assert Take(PFact("A"), s) == Done((P.FactArg(0), s - {"A"}));
    assert "A" !in s - {"A"};
  }
}
