/** Result insertion of the older crate (crates/sems_core/src/results.rs): `()`, a fact, and a
    pair of results. */
module SemsResults {
  import opened Facts
  import R = PssmResults

  /** What a wrapped function of the older crate returns. */
  datatype Returned = RUnit | RFact(id: Id, v: Value) | RPair(a: Returned, b: Returned)

  /** What `insert_into` does: `()` stores nothing, a fact is stored under its identifier and a
      pair inserts its first component and then its second. */
  function Inserted(out: Returned, s: State): State
  {
    match out
    case RUnit => s
    case RFact(id, v) => s[id := v]
    case RPair(a, b) => Inserted(b, Inserted(a, s))
  }

  /** `insert_into`, in place. */
  method InsertInto(out: Returned, state: Store)
    modifies state
    ensures state.facts == Inserted(out, old(state.facts))
  {
    match out
    case RUnit =>
    case RFact(id, v) =>
      state.facts := state.facts[id := v];
    case RPair(a, b) =>
      InsertInto(a, state);
      InsertInto(b, state);
  }

  /** The same result in the newer crate's terms: a pair is a two-component tuple. */
  function ToOutput(out: Returned): R.Output
  {
    match out
    case RUnit => R.OUnit
    case RFact(id, v) => R.OFact(id, v)
    case RPair(a, b) => R.OTuple([ToOutput(a), ToOutput(b)])
  }

  /** The older insertion is the newer one on the corresponding result. */
  lemma {:induction false} InsertedAgrees(out: Returned, s: State)
    ensures Inserted(out, s) == R.Inserted(ToOutput(out), s)
  {
    match out
    case RUnit =>
    case RFact(_, _) =>
    case RPair(a, b) =>
      var oa, ob := ToOutput(a), ToOutput(b);
      assert [oa, ob][..1] == [oa];
      assert [oa][..0] == [];
      InsertedAgrees(a, s);
      InsertedAgrees(b, Inserted(a, s));
      assert R.InsertedAll([oa], s) == R.Inserted(oa, s);
  }

  /** The identifiers a result stores. */
  function Written(out: Returned): set<Id>
  {
    match out
    case RUnit => {}
    case RFact(id, _) => {id}
    case RPair(a, b) => Written(a) + Written(b)
  }

  /** Insertion never removes a key: the new keys are the old ones plus those written. */
  lemma {:induction false} InsertedKeys(out: Returned, s: State)
    ensures Inserted(out, s).Keys == s.Keys + Written(out)
  {
    match out
    case RUnit =>
    case RFact(_, _) =>
    case RPair(a, b) =>
      InsertedKeys(a, s);
      InsertedKeys(b, Inserted(a, s));
  }

  /** An identifier the result does not write keeps its presence and its value. */
  lemma {:induction false} InsertedFrame(out: Returned, s: State, id: Id)
    requires id !in Written(out)
    ensures id in Inserted(out, s) <==> id in s
    ensures id in s ==> Inserted(out, s)[id] == s[id]
  {
    match out
    case RUnit =>
    case RFact(_, _) =>
    case RPair(a, b) =>
      InsertedFrame(a, s, id);
      InsertedFrame(b, Inserted(a, s), id);
  }

  /** A pair whose components store the same identifier keeps the second value. */
  lemma PairLaterWins(id: Id, v: Value, w: Value, s: State)
    ensures Inserted(RPair(RFact(id, v), RFact(id, w)), s) == s[id := w]
  {
  }
}
