/** The deconstruct/request pairing of the older crate (crates/sems_core/src/truth.rs): a value
    built of facts is flattened into (identifier, value) pairs, and a requested shape is rebuilt
    by taking values one by one from an iterator. */
module SemsTruth {
  import opened Facts
  import SemsParams

  /** A deconstructable value: a fact, `()`, a pair or a triple of such values. */
  datatype Truth = TFact(id: Id, v: Value) | TUnit | TPair(a: Truth, b: Truth) | TTriple(a: Truth, b: Truth, c: Truth)

  /** A requestable shape: a fact, `()`, a pair or a triple of shapes. */
  datatype Request = QFact(id: Id) | QUnit | QPair(a: Request, b: Request) | QTriple(a: Request, b: Request, c: Request)

  /** The panic message of `take_from` on an exhausted iterator. */
  const ExhaustedIterator := "Expected a value in iter"

  /** What `collect_deconstructed` hands to its collector, in order: a fact's own pair, nothing
      for `()`, and the components' pairs left to right. */
  function Deconstructed(t: Truth): seq<(Id, Value)>
  {
    match t
    case TFact(id, v) => [(id, v)]
    case TUnit => []
    case TPair(a, b) => Deconstructed(a) + Deconstructed(b)
    case TTriple(a, b, c) => Deconstructed(a) + Deconstructed(b) + Deconstructed(c)
  }

  /** The vector `deconstruct` pushes into. */
  class PairList {
    var items: seq<(Id, Value)>

    constructor ()
      ensures items == []
    {
      items := [];
    }
  }

  /** `collect_deconstructed` with the pushing collector of `deconstruct`. */
  method CollectDeconstructed(t: Truth, list: PairList)
    modifies list
    ensures list.items == old(list.items) + Deconstructed(t)
  {
    match t
    case TFact(id, v) =>
      list.items := list.items + [(id, v)];
    case TUnit =>
    case TPair(a, b) =>
      CollectDeconstructed(a, list);
      CollectDeconstructed(b, list);
    case TTriple(a, b, c) =>
      CollectDeconstructed(a, list);
      CollectDeconstructed(b, list);
      CollectDeconstructed(c, list);
  }

  /** `deconstruct`. */
  method Deconstruct(t: Truth) returns (items: seq<(Id, Value)>)
    ensures items == Deconstructed(t)
  {
    var list := new PairList();
    CollectDeconstructed(t, list);
    items := list.items;
  }

  /** What `collect_ids` reports for a requested shape, in order. */
  function RequestIds(q: Request): seq<Id>
  {
    match q
    case QFact(id) => [id]
    case QUnit => []
    case QPair(a, b) => RequestIds(a) + RequestIds(b)
    case QTriple(a, b, c) => RequestIds(a) + RequestIds(b) + RequestIds(c)
  }

  /** `collect_ids` with the pushing collector of `ids()`. */
  method CollectIds(q: Request, list: SemsParams.IdList)
    modifies list
    ensures list.ids == old(list.ids) + RequestIds(q)
  {
    match q
    case QFact(id) =>
      list.ids := list.ids + [id];
    case QUnit =>
    case QPair(a, b) =>
      CollectIds(a, list);
      CollectIds(b, list);
    case QTriple(a, b, c) =>
      CollectIds(a, list);
      CollectIds(b, list);
      CollectIds(c, list);
  }

  /** `ids()`. */
  method Ids(q: Request) returns (ids: seq<Id>)
    ensures ids == RequestIds(q)
  {
    var list := new SemsParams.IdList();
    CollectIds(q, list);
    ids := list.ids;
  }

  /** The shape a value has. */
  function ShapeOf(t: Truth): Request
  {
    match t
    case TFact(id, _) => QFact(id)
    case TUnit => QUnit
    case TPair(a, b) => QPair(ShapeOf(a), ShapeOf(b))
    case TTriple(a, b, c) => QTriple(ShapeOf(a), ShapeOf(b), ShapeOf(c))
  }

  function Keys(items: seq<(Id, Value)>): seq<Id>
  {
    seq(|items|, i requires 0 <= i < |items| => items[i].0)
  }

  function Values(items: seq<(Id, Value)>): seq<Value>
  {
    seq(|items|, i requires 0 <= i < |items| => items[i].1)
  }

  /** What `take_from` does to the remaining iterator items: a fact takes the next one (an
      exhausted iterator is fatal), `()` takes none, and tuples take their components left to
      right. */
  function TakeSeq(q: Request, vals: seq<Value>): Outcome<(Truth, seq<Value>)>
  {
    match q
    case QFact(id) =>
      if vals == [] then Panicked(ExhaustedIterator) else Done((TFact(id, vals[0]), vals[1..]))
    case QUnit => Done((TUnit, vals))
    case QPair(a, b) =>
      (match TakeSeq(a, vals)
       case Panicked(m) => Panicked(m)
       case Done((x, r1)) =>
         match TakeSeq(b, r1)
         case Panicked(m) => Panicked(m)
         case Done((y, r2)) => Done((TPair(x, y), r2)))
    case QTriple(a, b, c) =>
      match TakeSeq(a, vals)
      case Panicked(m) => Panicked(m)
      case Done((x, r1)) =>
        match TakeSeq(b, r1)
        case Panicked(m) => Panicked(m)
        case Done((y, r2)) =>
          match TakeSeq(c, r2)
          case Panicked(m) => Panicked(m)
          case Done((z, r3)) => Done((TTriple(x, y, z), r3))
  }

  /** The iterator `take_from` advances. */
  class ValueIterator {
    var rest: seq<Value>

    constructor (vals: seq<Value>)
      ensures rest == vals
    {
      rest := vals;
    }

    method Next() returns (o: Option<Value>)
      modifies this
      ensures old(rest) == [] ==> o == None && rest == []
      ensures old(rest) != [] ==> o == Some(old(rest)[0]) && rest == old(rest)[1..]
    {
      if rest == [] {
        o := None;
      } else {
        o := Some(rest[0]);
        rest := rest[1..];
      }
    }
  }

  /** `take_from`, advancing the iterator. */
  method TakeFrom(q: Request, iter: ValueIterator) returns (r: Outcome<Truth>)
    modifies iter
    ensures r.Panicked? <==> TakeSeq(q, old(iter.rest)).Panicked?
    ensures r.Done? ==> TakeSeq(q, old(iter.rest)) == Done((r.value, iter.rest))
  {
    match q
    case QFact(id) =>
      var o := iter.Next();
      if o.None? {
        return Panicked(ExhaustedIterator);
      }
      r := Done(TFact(id, o.value));
    case QUnit =>
      r := Done(TUnit);
    case QPair(a, b) =>
      var x := TakeFrom(a, iter);
      if x.Panicked? {
        return Panicked(x.message);
      }
      var y := TakeFrom(b, iter);
      if y.Panicked? {
        return Panicked(y.message);
      }
      r := Done(TPair(x.value, y.value));
    case QTriple(a, b, c) =>
      var x := TakeFrom(a, iter);
      if x.Panicked? {
        return Panicked(x.message);
      }
      var y := TakeFrom(b, iter);
      if y.Panicked? {
        return Panicked(y.message);
      }
      var z := TakeFrom(c, iter);
      if z.Panicked? {
        return Panicked(z.message);
      }
      r := Done(TTriple(x.value, y.value, z.value));
  }

  // ---------------------------------------------------------------------------------------
  // How the two halves fit together

  /** The identifiers `deconstruct` pairs a value with are the `ids()` of its shape. */
  lemma {:induction false} DeconstructIds(t: Truth)
    ensures Keys(Deconstructed(t)) == RequestIds(ShapeOf(t))
  {
    match t
    case TFact(_, _) =>
    case TUnit =>
    case TPair(a, b) =>
      DeconstructIds(a);
      DeconstructIds(b);
      KeysAppend(Deconstructed(a), Deconstructed(b));
    case TTriple(a, b, c) =>
      DeconstructIds(a);
      DeconstructIds(b);
      DeconstructIds(c);
      KeysAppend(Deconstructed(a), Deconstructed(b));
      KeysAppend(Deconstructed(a) + Deconstructed(b), Deconstructed(c));
  }

  lemma KeysAppend(xs: seq<(Id, Value)>, ys: seq<(Id, Value)>)
    ensures Keys(xs + ys) == Keys(xs) + Keys(ys)
  {
  }

  lemma ValuesAppend(xs: seq<(Id, Value)>, ys: seq<(Id, Value)>)
    ensures Values(xs + ys) == Values(xs) + Values(ys)
  {
  }

  /** `take_from` consumes exactly one item per fact in the shape, left to right: it is fatal
      exactly when fewer items remain, and otherwise leaves the items after those and returns
      a value of the requested shape. */
  lemma {:induction false} TakeSeqCounts(q: Request, vals: seq<Value>)
    ensures TakeSeq(q, vals).Panicked? <==> |vals| < |RequestIds(q)|
    ensures TakeSeq(q, vals).Done? ==>
      && TakeSeq(q, vals).value.1 == vals[|RequestIds(q)|..]
      && ShapeOf(TakeSeq(q, vals).value.0) == q
  {
    match q
    case QFact(_) =>
    case QUnit =>
    case QPair(a, b) =>
      TakeSeqCounts(a, vals);
      if TakeSeq(a, vals).Done? {
        var r1 := TakeSeq(a, vals).value.1;
        TakeSeqCounts(b, r1);
        if TakeSeq(b, r1).Done? {
          assert TakeSeq(b, r1).value.1 == vals[|RequestIds(a)| + |RequestIds(b)|..];
        }
      }
    case QTriple(a, b, c) =>
      var na, nb, nc := |RequestIds(a)|, |RequestIds(b)|, |RequestIds(c)|;
      TakeSeqCounts(a, vals);
      if TakeSeq(a, vals).Done? {
        var r1 := TakeSeq(a, vals).value.1;
        TakeSeqCounts(b, r1);
        if TakeSeq(b, r1).Done? {
          var r2 := TakeSeq(b, r1).value.1;
          assert r2 == vals[na + nb..];
          TakeSeqCounts(c, r2);
          if TakeSeq(c, r2).Done? {
            assert TakeSeq(c, r2).value.1 == vals[na + nb + nc..];
          }
        }
      }
  }

  /** Rebuilding a value from its deconstructed values: requesting its shape from an iterator
      that yields them, followed by anything, returns the value and leaves the rest. */
  lemma {:induction false} RequestDeconstructed(t: Truth, rest: seq<Value>)
    ensures TakeSeq(ShapeOf(t), Values(Deconstructed(t)) + rest) == Done((t, rest))
  {
    match t
    case TFact(_, _) =>
      assert (Values(Deconstructed(t)) + rest)[1..] == rest;
    case TUnit =>
      assert Values(Deconstructed(t)) + rest == rest;
    case TPair(a, b) =>
      var da, db := Deconstructed(a), Deconstructed(b);
      ValuesAppend(da, db);
      assert Values(da + db) + rest == Values(da) + (Values(db) + rest);
      RequestDeconstructed(a, Values(db) + rest);
      RequestDeconstructed(b, rest);
    case TTriple(a, b, c) =>
      var da, db, dc := Deconstructed(a), Deconstructed(b), Deconstructed(c);
      ValuesAppend(da, db);
      ValuesAppend(da + db, dc);
      assert Values(da + db + dc) + rest == Values(da) + (Values(db) + (Values(dc) + rest));
      RequestDeconstructed(a, Values(db) + (Values(dc) + rest));
      RequestDeconstructed(b, Values(dc) + rest);
      RequestDeconstructed(c, rest);
  }
}
