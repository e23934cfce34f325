/** Parameter binding of the older crate (crates/sems_core/src/params.rs): `()`, a fact,
    `Option<fact>` and pairs. Identifiers are listed by `ids()` with no duplicate check. */
module SemsParams {
  import opened Facts
  import P = PssmParams

  /** The shape of an older-crate parameter. */
  datatype Param = PUnit | PFact(id: Id) | POpt(id: Id) | PPair(a: Param, b: Param)

  /** What `take_from` does: `()` takes nothing, a fact is removed and returned (its absence is
      fatal), `Option<fact>` is removed when present, and a pair takes its first component and
      then its second from what the first left. Values are those of the newer crate. */
  function Take(p: Param, s: State): Outcome<(P.Arg, State)>
  {
    match p
    case PUnit => Done((P.UnitArg, s))
    case PFact(id) =>
      if id in s then Done((P.FactArg(s[id]), s - {id})) else Panicked(MissingTruth)
    case POpt(id) =>
      if id in s then Done((P.OptArg(Some(s[id])), s - {id})) else Done((P.OptArg(None), s))
    case PPair(a, b) =>
      match Take(a, s)
      case Panicked(m) => Panicked(m)
      case Done((x, s1)) =>
        match Take(b, s1)
        case Panicked(m) => Panicked(m)
        case Done((y, s2)) => Done((P.TupleArg([x, y]), s2))
  }

  /** `take_from`, in place. */
  method TakeFrom(p: Param, state: Store) returns (r: Outcome<P.Arg>)
    modifies state
    ensures r.Panicked? <==> Take(p, old(state.facts)).Panicked?
    ensures r.Done? ==> Take(p, old(state.facts)) == Done((r.value, state.facts))
  {
    match p
    case PUnit =>
      r := Done(P.UnitArg);
    case PFact(id) =>
      if id !in state.facts {
        return Panicked(MissingTruth);
      }
      r := Done(P.FactArg(state.facts[id]));
      state.facts := state.facts - {id};
    case POpt(id) =>
      if id in state.facts {
        r := Done(P.OptArg(Some(state.facts[id])));
        state.facts := state.facts - {id};
      } else {
        r := Done(P.OptArg(None));
      }
    case PPair(a, b) =>
      var x := TakeFrom(a, state);
      if x.Panicked? {
        return Panicked(x.message);
      }
      var y := TakeFrom(b, state);
      if y.Panicked? {
        return Panicked(y.message);
      }
      r := Done(P.TupleArg([x.value, y.value]));
  }

  /** The identifiers `collect_ids` reports, in order: a fact's own, none for `()` or
      `Option<fact>`, and a pair's first then second. */
  function CollectIds(p: Param): seq<Id>
  {
    match p
    case PUnit => []
    case PFact(id) => [id]
    case POpt(_) => []
    case PPair(a, b) => CollectIds(a) + CollectIds(b)
  }

  /** The vector `ids()` pushes into. */
  class IdList {
    var ids: seq<Id>

    constructor ()
      ensures ids == []
    {
      ids := [];
    }
  }

  /** `collect_ids` with the pushing collector of `ids()`. */
  method CollectIdsInto(p: Param, list: IdList)
    modifies list
    ensures list.ids == old(list.ids) + CollectIds(p)
  {
    match p
    case PUnit =>
    case PFact(id) =>
      list.ids := list.ids + [id];
    case POpt(_) =>
    case PPair(a, b) =>
      CollectIdsInto(a, list);
      CollectIdsInto(b, list);
  }

  /** `ids()`: the reported identifiers, duplicates kept. */
  method Ids(p: Param) returns (ids: seq<Id>)
    ensures ids == CollectIds(p)
  {
    var list := new IdList();
    CollectIdsInto(p, list);
    ids := list.ids;
  }

  // ---------------------------------------------------------------------------------------
  // The older shapes are the newer crate's shapes restricted to pairs

  function ToShape(p: Param): P.Shape
  {
    match p
    case PUnit => P.Unit
    case PFact(id) => P.Fact(id)
    case POpt(id) => P.Opt(id)
    case PPair(a, b) => P.Tuple([ToShape(a), ToShape(b)])
  }

  /** Taking a pair is taking the two-component tuple of the newer crate. */
  lemma {:induction false} TakeAgrees(p: Param, s: State)
    ensures Take(p, s) == P.Take(ToShape(p), s)
  {
    match p
    case PUnit =>
    case PFact(_) =>
    case POpt(_) =>
    case PPair(a, b) =>
      var sa, sb := ToShape(a), ToShape(b);
      assert [sa, sb][..1] == [sa];
      assert [sa][..0] == [];
      TakeAgrees(a, s);
      match Take(a, s)
      case Panicked(_) =>
        assert P.TakeAll([sa], s).Panicked?;
      case Done((x, s1)) =>
        assert P.TakeAll([sa][..0], s) == Done(([], s));
        assert [] + [x] == [x];
        assert P.TakeAll([sa], s) == Done(([x], s1));
        TakeAgrees(b, s1);
        match Take(b, s1)
        case Panicked(_) =>
        case Done((y, s2)) =>
          assert [x] + [y] == [x, y];
          assert P.TakeAll([sa, sb], s) == Done(([x, y], s2));
  }

  /** `ids()` reports what the newer crate's `collect_required` reports. */
  lemma {:induction false} IdsAgree(p: Param)
    ensures CollectIds(p) == P.Collected(ToShape(p))
  {
    match p
    case PUnit =>
    case PFact(_) =>
    case POpt(_) =>
    case PPair(a, b) =>
      var sa, sb := ToShape(a), ToShape(b);
      assert [sa, sb][..1] == [sa];
      assert [sa][..0] == [];
      IdsAgree(a);
      IdsAgree(b);
      assert P.CollectedAll([sa]) == P.Collected(sa);
  }

  /** A successful take removes the identifiers of every fact and option in the shape, present
      ones, and nothing else. */
  lemma TakeRemoves(p: Param, s: State)
    requires Take(p, s).Done?
    ensures Take(p, s).value.1 == s - P.MentionedSet(ToShape(p))
  {
    TakeAgrees(p, s);
    P.TakeRemovesMentioned(ToShape(p), s);
  }

  /** The older `ids()` keeps duplicates: a pair of the same fact reports it twice. */
  lemma IdsKeepDuplicates(id: Id)
    ensures CollectIds(PPair(PFact(id), PFact(id))) == [id, id]
    ensures !Distinct(CollectIds(PPair(PFact(id), PFact(id))))
  {
    var ids := CollectIds(PPair(PFact(id), PFact(id)));
    assert CollectIds(PFact(id)) == [id];
    assert ids == [id, id];
    assert ids[0] == ids[1];
  }
}
