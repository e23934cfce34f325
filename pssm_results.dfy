/** Result insertion of the newer crate (crates/pssm_core/src/transition/results.rs): how the
    value a transition's function returns is written back into the state. */
module PssmResults {
  import opened Facts

  /** A returned value: a fact, `None`/`Some` of any result, `()`, or a tuple of results. */
  datatype Output = OFact(id: Id, v: Value) | ONone | OSome(inner: Output) | OUnit | OTuple(items: seq<Output>)

  /** What `insert_into` does to a state: a fact is stored under its identifier, overwriting
      what was there; `Some(a)` inserts `a`; `None` and `()` insert nothing; a tuple inserts its
      components left to right. */
  function Inserted(out: Output, s: State): State
    decreases out
  {
    match out
    case OFact(id, v) => s[id := v]
    case ONone => s
    case OSome(inner) => Inserted(inner, s)
    case OUnit => s
    case OTuple(items) => InsertedAll(items, s)
  }

  function InsertedAll(items: seq<Output>, s: State): State
    decreases items
  {
    if items == [] then s else Inserted(items[|items| - 1], InsertedAll(items[..|items| - 1], s))
  }

  // ---------------------------------------------------------------------------------------
  // An independent description: the sequence of writes a result performs

  /** The (identifier, value) writes a result performs, in the order it performs them. */
  function Writes(out: Output): seq<(Id, Value)>
    decreases out
  {
    match out
    case OFact(id, v) => [(id, v)]
    case ONone => []
    case OSome(inner) => Writes(inner)
    case OUnit => []
    case OTuple(items) => WritesAll(items)
  }

  function WritesAll(items: seq<Output>): seq<(Id, Value)>
    decreases items
  {
    if items == [] then [] else WritesAll(items[..|items| - 1]) + Writes(items[|items| - 1])
  }

  /** The identifiers a result stores: those of its present fact components. */
  function Present(out: Output): set<Id>
  {
    set i | 0 <= i < |Writes(out)| :: Writes(out)[i].0
  }

  /** The value a sequence of writes leaves for `id`: its last write to `id`. */
  function LastWrite(ws: seq<(Id, Value)>, id: Id): Option<Value>
  {
    if ws == [] then None
    else if ws[|ws| - 1].0 == id then Some(ws[|ws| - 1].1)
    else LastWrite(ws[..|ws| - 1], id)
  }

  /** The state after a sequence of writes, described entry by entry: an identifier holds its
      last written value if it was written, and its old value otherwise. */
  ghost predicate Overwrites(s: State, ws: seq<(Id, Value)>, t: State)
  {
    && (forall id :: id in t <==> id in s || LastWrite(ws, id).Some?)
    && (forall id :: id in t ==> t[id] == if LastWrite(ws, id).Some? then LastWrite(ws, id).value else s[id])
  }

  lemma {:induction false} LastWriteAppend(xs: seq<(Id, Value)>, ys: seq<(Id, Value)>, id: Id)
    ensures LastWrite(xs + ys, id) == if LastWrite(ys, id).Some? then LastWrite(ys, id) else LastWrite(xs, id)
    decreases |ys|
  {
    if ys == [] {
      assert xs + ys == xs;
    } else {
      assert (xs + ys)[..|xs + ys| - 1] == xs + ys[..|ys| - 1];
      LastWriteAppend(xs, ys[..|ys| - 1], id);
    }
  }

  /** Writes compose: overwriting with `xs` and then with `ys` is overwriting with `xs + ys`. */
  lemma OverwritesAppend(s: State, xs: seq<(Id, Value)>, m: State, ys: seq<(Id, Value)>, t: State)
    requires Overwrites(s, xs, m) && Overwrites(m, ys, t)
    ensures Overwrites(s, xs + ys, t)
  {
    forall id ensures LastWrite(xs + ys, id) == if LastWrite(ys, id).Some? then LastWrite(ys, id) else LastWrite(xs, id) {
      LastWriteAppend(xs, ys, id);
    }
  }

  /** Insertion performs exactly the writes of `Writes`, in order. */
  lemma {:induction false} InsertedOverwrites(out: Output, s: State)
    ensures Overwrites(s, Writes(out), Inserted(out, s))
    decreases out
  {
    match out
    case OFact(id, v) =>
      forall k ensures LastWrite([(id, v)], k) == if k == id then Some(v) else None {
        assert [(id, v)][..0] == [];
      }
    case ONone =>
    case OSome(inner) => InsertedOverwrites(inner, s);
    case OUnit =>
    case OTuple(items) => InsertedAllOverwrites(items, s);
  }

  lemma {:induction false} InsertedAllOverwrites(items: seq<Output>, s: State)
    ensures Overwrites(s, WritesAll(items), InsertedAll(items, s))
    decreases items
  {
    if items != [] {
      var front, last := items[..|items| - 1], items[|items| - 1];
      InsertedAllOverwrites(front, s);
      var m := InsertedAll(front, s);
      InsertedOverwrites(last, m);
      OverwritesAppend(s, WritesAll(front), m, Writes(last), Inserted(last, m));
    }
  }

  lemma LastWriteSomeIffWritten(ws: seq<(Id, Value)>, id: Id)
    ensures LastWrite(ws, id).Some? <==> exists i :: 0 <= i < |ws| && ws[i].0 == id
  {
    if ws != [] {
      var front := ws[..|ws| - 1];
      LastWriteSomeIffWritten(front, id);
      if LastWrite(front, id).Some? {
        var i :| 0 <= i < |front| && front[i].0 == id;
        assert ws[i].0 == id;
      }
      if ws[|ws| - 1].0 != id && exists i :: 0 <= i < |ws| && ws[i].0 == id {
        var i :| 0 <= i < |ws| && ws[i].0 == id;
        assert front[i].0 == id;
      }
    }
  }

  /** Insertion never removes a key: the new keys are the old keys and the present ones. */
  lemma InsertedKeys(out: Output, s: State)
    ensures Inserted(out, s).Keys == s.Keys + Present(out)
  {
    InsertedOverwrites(out, s);
    forall id ensures LastWrite(Writes(out), id).Some? <==> id in Present(out) {
      LastWriteSomeIffWritten(Writes(out), id);
    }
  }

  /** Insertion leaves every identifier it does not store untouched. */
  lemma InsertedFrame(out: Output, s: State, id: Id)
    requires id !in Present(out)
    ensures id in Inserted(out, s) <==> id in s
    ensures id in s ==> Inserted(out, s)[id] == s[id]
  {
    InsertedOverwrites(out, s);
    LastWriteSomeIffWritten(Writes(out), id);
  }

  /** When several components of a tuple share an identifier, the value written last remains;
      in particular a fact result is stored under its identifier, overwriting. */
  lemma LaterWins(out: Output, s: State, i: nat)
    requires i < |Writes(out)|
    requires forall j :: i < j < |Writes(out)| ==> Writes(out)[j].0 != Writes(out)[i].0
    ensures Writes(out)[i].0 in Inserted(out, s)
    ensures Inserted(out, s)[Writes(out)[i].0] == Writes(out)[i].1
  {
    InsertedOverwrites(out, s);
    LastWriteAt(Writes(out), i);
  }

  lemma LastWriteAt(ws: seq<(Id, Value)>, i: nat)
    requires i < |ws|
    requires forall j :: i < j < |ws| ==> ws[j].0 != ws[i].0
    ensures LastWrite(ws, ws[i].0) == Some(ws[i].1)
  {
    if i < |ws| - 1 {
      LastWriteAt(ws[..|ws| - 1], i);
    }
  }

  /** `insert_into`, in place: the result's facts are written into `state`, left to right. */
  method InsertInto(out: Output, state: Store)
    modifies state
    decreases out
    ensures state.facts == Inserted(out, old(state.facts))
  {
    match out
    case OFact(id, v) =>
      state.facts := state.facts[id := v];
    case ONone =>
    case OSome(inner) =>
      InsertInto(inner, state);
    case OUnit =>
    case OTuple(items) =>
      var i := 0;
      while i < |items|
        invariant 0 <= i <= |items|
        invariant state.facts == InsertedAll(items[..i], old(state.facts))
      {
        assert items[..i + 1][..i] == items[..i] && items[..i + 1][i] == items[i];
        InsertInto(items[i], state);
        i := i + 1;
      }
      assert items[..i] == items;
  }
}
