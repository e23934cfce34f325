/** Facts, the state store, and the outcome types every crate of the fact machine shares
    (the `State` and `Id` aliases of crates/sems_core/src/lib.rs). */
module Facts {

  /** A fact identifier. The source uses the fact type's `TypeId`; the demo program uses
      string names, which is what the model uses too. */
  type Id = string

  /** The payload of a fact. The source stores `Box<dyn Any>` and downcasts on every read;
      the model keeps one value per identifier and does not model the downcast. */
  type Value = int

  /** The state: a finite map from fact identifier to the one value stored for it. */
  type State = map<Id, Value>

  datatype Option<T> = None | Some(value: T)

  /** The source's `Result<_, &'static str>`. */
  datatype Result<T> = Ok(value: T) | Err(error: string)

  /** What code that may hit a fatal `expect` produces: a value, or a panic with its message.
      After a panic the source aborts, so nothing is promised about the state left behind. */
  datatype Outcome<T> = Done(value: T) | Panicked(message: string)

  /** The message of the `expect` that fires when a required fact is missing. */
  const MissingTruth := "State does not contain a required truth"

  /** The identifiers of a sequence, as a set. */
  function SeqSet(ids: seq<Id>): (r: set<Id>)
    ensures forall i :: 0 <= i < |ids| ==> ids[i] in r
    ensures forall id :: id in r ==> exists i :: 0 <= i < |ids| && ids[i] == id
  {
    set i | 0 <= i < |ids| :: ids[i]
  }

  /** No identifier occurs twice in the sequence. */
  predicate Distinct(ids: seq<Id>)
  {
    forall i, j :: 0 <= i < j < |ids| ==> ids[i] != ids[j]
  }

  lemma {:induction false} SeqSetAppend(xs: seq<Id>, ys: seq<Id>)
    ensures SeqSet(xs + ys) == SeqSet(xs) + SeqSet(ys)
  {
    var l, r := SeqSet(xs + ys), SeqSet(xs) + SeqSet(ys);
    forall id | id in l ensures id in r {
      var i :| 0 <= i < |xs + ys| && (xs + ys)[i] == id;
      if i >= |xs| { assert ys[i - |xs|] == id; }
    }
    forall id | id in r ensures id in l {
      if id in SeqSet(xs) {
        var i :| 0 <= i < |xs| && xs[i] == id;
        assert (xs + ys)[i] == id;
      } else {
        var i :| 0 <= i < |ys| && ys[i] == id;
        assert (xs + ys)[|xs| + i] == id;
      }
    }
  }

  /** Appending one identifier keeps the sequence duplicate-free exactly when it is new. */
  lemma DistinctSnoc(ids: seq<Id>, id: Id)
    ensures Distinct(ids + [id]) <==> Distinct(ids) && id !in SeqSet(ids)
  {
    var t := ids + [id];
    assert forall i :: 0 <= i < |ids| ==> t[i] == ids[i];
    if Distinct(t) {
      forall i | 0 <= i < |ids| ensures ids[i] != id {
        assert t[i] == ids[i] && t[|ids|] == id;
      }
    }
  }

  /** A concatenation is duplicate-free exactly when both parts are and they share nothing. */
  lemma {:induction false} DistinctAppend(xs: seq<Id>, ys: seq<Id>)
    ensures Distinct(xs + ys) <==> Distinct(xs) && Distinct(ys) && SeqSet(xs) !! SeqSet(ys)
  {
    var t := xs + ys;
    if Distinct(t) {
      assert forall i :: 0 <= i < |xs| ==> t[i] == xs[i];
      assert forall i :: 0 <= i < |ys| ==> t[|xs| + i] == ys[i];
      forall i, j | 0 <= i < |xs| && 0 <= j < |ys| ensures xs[i] != ys[j] {
        assert t[i] == xs[i] && t[|xs| + j] == ys[j];
      }
    }
    if Distinct(xs) && Distinct(ys) && SeqSet(xs) !! SeqSet(ys) {
      forall i, j | 0 <= i < j < |t| ensures t[i] != t[j] {
        if j < |xs| {
        } else if i >= |xs| {
          assert t[i] == ys[i - |xs|] && t[j] == ys[j - |xs|];
        } else {
          assert t[i] == xs[i] && xs[i] in SeqSet(xs);
          assert t[j] == ys[j - |xs|] && ys[j - |xs|] in SeqSet(ys);
        }
      }
    }
  }

  /** The state a transition receives as `&mut State`: the methods that take facts out of it
      or put facts into it reassign `facts`. */
  class Store {
    var facts: State

    constructor (initial: State)
      ensures facts == initial
    {
      facts := initial;
    }
  }
}
