/** Dictionaries of transitions (crates/sems_dictionary/src/lib.rs and
    crates/pssm_dictionary/src/lib.rs, which share this code): the sub-dictionary of the
    transitions runnable on a state, adding a converted transition, and running one entry. */
module TransitionDictionaries {
  import opened Facts
  import opened Dictionaries
  import opened PssmTransition
  import opened PssmConvert
  import PssmAndThen

  /** A transition can run on a state that holds every fact it requires: the rule `can_run`
      of the older state machine applies to a record's requirement set. */
  function CanRun(t: Transition, s: State): (b: bool)
    ensures b <==> forall id :: id in t.required ==> id in s
  {
    t.required <= s.Keys
  }

  predicate IsEmpty<K, V>(d: Dict<K, V>)
  {
    d.entries == map[] && d.folders == map[]
  }

  /** The entries that can run, under the same keys. */
  function RunnableEntries<K>(entries: map<K, Transition>, s: State): map<K, Transition>
  {
    map k | k in entries && CanRun(entries[k], s) :: entries[k]
  }

  /** The runnable part of a dictionary: its runnable entries, and the runnable parts of its
      folders, under the same keys, except those with nothing in them. */
  function Runnable<K>(d: Dict<K, Transition>, s: State): Dict<K, Transition>
    decreases d, 1
  {
    Dict(RunnableEntries(d.entries, s), RunnableFolders(d, s))
  }

  function RunnableFolders<K>(d: Dict<K, Transition>, s: State): map<K, Dict<K, Transition>>
    decreases d, 0
  {
    map k | k in d.folders && !IsEmpty(Runnable(d.folders[k], s)) :: Runnable(d.folders[k], s)
  }

  /** The loop over the entries of `runnable_transitions`. */
  method FilterEntries<K>(entries: map<K, Transition>, s: State) returns (r: map<K, Transition>)
    ensures r == RunnableEntries(entries, s)
  {
    r := map[];
    var pending := entries.Keys;
    while pending != {}
      invariant pending <= entries.Keys
      invariant r == map k | k in entries && k !in pending && CanRun(entries[k], s) :: entries[k]
      decreases pending
    {
      var key :| key in pending;
      if CanRun(entries[key], s) {
        r := r[key := entries[key]];
      }
      pending := pending - {key};
    }
  }

  /** The filtered folders among the given keys. */
  function FoldersAmong<K>(d: Dict<K, Transition>, s: State, keys: set<K>): map<K, Dict<K, Transition>>
  {
    map k | k in keys && k in d.folders && !IsEmpty(Runnable(d.folders[k], s)) :: Runnable(d.folders[k], s)
  }

  /** Filtering one more folder adds its result, unless that result is empty. */
  lemma FoldersAmongAdd<K>(d: Dict<K, Transition>, s: State, keys: set<K>, key: K)
    requires key in d.folders && key !in keys
    ensures FoldersAmong(d, s, keys + {key}) ==
      if IsEmpty(Runnable(d.folders[key], s)) then FoldersAmong(d, s, keys)
      else FoldersAmong(d, s, keys)[key := Runnable(d.folders[key], s)]
  {
  }

  /** The loop over the folders of `runnable_transitions`: each folder is filtered, and an
      empty result is skipped. */
  method FilterFolders<K>(d: Dict<K, Transition>, s: State) returns (r: map<K, Dict<K, Transition>>)
    ensures r == RunnableFolders(d, s)
    decreases d, 0
  {
    r := map[];
    var pending := d.folders.Keys;
    while pending != {}
      invariant pending <= d.folders.Keys
      invariant r == FoldersAmong(d, s, d.folders.Keys - pending)
      decreases pending
    {
      var key :| key in pending;
      var filtered := RunnableTransitions(d.folders[key], s);
      FoldersAmongAdd(d, s, d.folders.Keys - pending, key);
      if !(filtered.entries == map[] && filtered.folders == map[]) {
        r := r[key := filtered];
      }
      assert d.folders.Keys - (pending - {key}) == (d.folders.Keys - pending) + {key};
      pending := pending - {key};
    }
    assert d.folders.Keys - pending == d.folders.Keys;
    assert FoldersAmong(d, s, d.folders.Keys) == RunnableFolders(d, s);
  }

  /** `runnable_transitions` on a dictionary value. */
  method RunnableTransitions<K>(d: Dict<K, Transition>, s: State) returns (r: Dict<K, Transition>)
    ensures r == Runnable(d, s)
    decreases d, 1
  {
    var entries := FilterEntries(d.entries, s);
    var folders := FilterFolders(d, s);
    r := Dict(entries, folders);
  }

  /** `runnable_transitions` on the top-level dictionary, against the machine's state. */
  method RunnableOf<K>(dict: Dictionary<K, Transition>, state: Store) returns (r: Dict<K, Transition>)
    ensures r == Runnable(dict.Contents(), state.facts)
  {
    r := RunnableTransitions(dict.Contents(), state.facts);
  }

  // ---------------------------------------------------------------------------------------
  // What the filter keeps

  lemma {:induction false} GetDeepEmpty<K, V>(d: Dict<K, V>, path: seq<K>)
    requires IsEmpty(d) && |path| > 0
    ensures GetDeep(d, path).None?
  {
  }

  /** Folders are filtered by the same rule at every depth: along any path the runnable part
      holds exactly the transitions of the dictionary that can run. */
  lemma {:induction false} RunnableDeep<K>(d: Dict<K, Transition>, s: State, path: seq<K>)
    requires |path| > 0
    ensures GetDeep(Runnable(d, s), path) ==
      if GetDeep(d, path).Some? && CanRun(GetDeep(d, path).value, s) then GetDeep(d, path) else None
    decreases |path|
  {
    if |path| > 1 && path[0] in d.folders {
      var f := d.folders[path[0]];
      RunnableDeep(f, s, path[1..]);
      if IsEmpty(Runnable(f, s)) {
        GetDeepEmpty(Runnable(f, s), path[1..]);
      }
    }
  }

  /** No folder of the result, at any depth, is empty. */
  ghost predicate NoEmptyFolders<K, V>(d: Dict<K, V>)
    decreases d
  {
    forall k :: k in d.folders ==> !IsEmpty(d.folders[k]) && NoEmptyFolders(d.folders[k])
  }

  lemma {:induction false} RunnableNoEmptyFolders<K>(d: Dict<K, Transition>, s: State)
    ensures NoEmptyFolders(Runnable(d, s))
    decreases d
  {
    forall k | k in Runnable(d, s).folders
      ensures NoEmptyFolders(Runnable(d, s).folders[k])
    {
      RunnableNoEmptyFolders(d.folders[k], s);
    }
  }

  /** Filtering the runnable part again changes nothing. */
  lemma {:induction false} RunnableIdempotent<K>(d: Dict<K, Transition>, s: State)
    ensures Runnable(Runnable(d, s), s) == Runnable(d, s)
    decreases d
  {
    var r := Runnable(d, s);
    assert r.folders == RunnableFolders(d, s);
    forall k | k in r.folders
      ensures Runnable(r.folders[k], s) == r.folders[k] && !IsEmpty(r.folders[k])
    {
      assert k in d.folders && r.folders[k] == Runnable(d.folders[k], s);
      RunnableIdempotent(d.folders[k], s);
    }
    assert RunnableEntries(r.entries, s) == r.entries;
    assert RunnableFolders(r, s).Keys == r.folders.Keys;
    assert RunnableFolders(r, s) == r.folders;
  }

  // ---------------------------------------------------------------------------------------
  // Adding and running

  /** `add_transition`: the argument goes through `into_transition_mut`; its error is
      returned with the dictionary unchanged, and otherwise the transition is inserted and the
      previous entry under the key returned. */
  method AddTransition<K>(dict: Dictionary<K, Transition>, key: K, c: Convertible) returns (r: Result<Option<Transition>>)
    requires c.FromTransition? ==> c.t.variant != SingleUse
    modifies dict
    ensures IntoTransitionMut(c).Err? ==>
      r == Err(IntoTransitionMut(c).error) && dict.entries == old(dict.entries) && dict.folders == old(dict.folders)
    ensures IntoTransitionMut(c).Ok? ==>
      && r == Ok(old(dict.Get(key)))
      && dict.entries == old(dict.entries)[key := IntoTransitionMut(c).value]
      && dict.folders == old(dict.folders)
  {
    var t := IntoTransitionMut(c);
    if t.Err? {
      return Err(t.error);
    }
    var previous := dict.Insert(key, t.value);
    r := Ok(previous);
  }

  /** `run` on a filtered dictionary: a key that names no top-level entry gives `None` and
      leaves the state alone; otherwise that transition runs, unguarded, and `Some(())` is
      returned. */
  method Run<K>(d: Dict<K, Transition>, key: K, state: Store) returns (r: Outcome<Option<()>>)
    requires key in d.entries ==> d.entries[key].variant != SingleUse
    modifies state
    ensures key !in d.entries ==> r == Done(None) && state.facts == old(state.facts)
    ensures key in d.entries ==>
      && (r.Panicked? <==> Exec(d.entries[key].proc, old(state.facts)).Panicked?)
      && (r.Done? ==> r.value == Some(()) && Exec(d.entries[key].proc, old(state.facts)) == Done(state.facts))
  {
    if key !in d.entries {
      return Done(None);
    }
    var o := d.entries[key].Run(state);
    if o.Panicked? {
      return Panicked(o.message);
    }
    r := Done(Some(()));
  }

  /** On the empty state, `insert_a` (no parameters) is runnable and `use_a` (takes `A`) is
      not. */
  lemma EmptyStateRunnable()
    ensures IntoTransitionMut(PssmAndThen.InsertA()).Ok? && IntoTransitionMut(PssmAndThen.ConsumeA()).Ok?
    ensures
      var d := Dict(map["insert_a" := IntoTransitionMut(PssmAndThen.InsertA()).value,
                        "use_a" := IntoTransitionMut(PssmAndThen.ConsumeA()).value], map[]);
      "insert_a" in Runnable(d, map[]).entries && "use_a" !in Runnable(d, map[]).entries
  {
    assert SeqSet([]) == {};
    assert ["A"][0] == "A";
    assert SeqSet(["A"]) == {"A"};
  }
}
