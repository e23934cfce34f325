# Fact machine in Dafny

This project models the core of a small in-process "fact machine" written in Rust. The
machine's state maps fact identifiers to values. Ordinary functions are converted into
*transitions*:

- the function's parameter list names the facts a transition takes out of the state;
- its return value names the facts it puts back;
- each transition records the set of facts it requires, and in the newer crate also the set
  it produces.

The model covers both drafts of the core crate.

- **`pssm_core`** (the newer draft):
  - parameter binding and requirement collection with duplicate detection;
  - result insertion;
  - the three transition records and their `Debug` summary;
  - conversion of records and functions;
  - sequential composition (`and_then`).
- **`sems_core`** (the older draft):
  - parameter binding without duplicate detection;
  - result insertion;
  - the deconstruct/request pairing of `truth.rs`;
  - the transition records and their conversions;
  - the earliest single-file transition;
  - the guarded `StateMachine`.

It also covers the hierarchical `Dictionary` of `sems_dictionary` and the runnable filter that
`sems_dictionary` and `pssm_dictionary` share. Both dictionary `lib.rs` files convert with a
`Result`-returning `into_transition_mut` and `?`. That matches `pssm_core`'s conversions and not
`sems_core`'s, whose `into_transition_mut` cannot fail. Both files are therefore modelled
against `pssm_core`'s transitions and conversions.

The layout follows the crates:

| file | module | models |
|---|---|---|
| `facts.dfy` | `Facts` | identifiers, values, the state, and a `Store` class that owns the state |
| `pssm_params.dfy` | `PssmParams` | `params.rs` |
| `pssm_results.dfy` | `PssmResults` | `results.rs` |
| `pssm_transition.dfy` | `PssmTransition` | `transition/mod.rs` (with `decimal.dfy` for the counts in the `Debug` text) |
| `pssm_convert.dfy` | `PssmConvert` | `intomut.rs` and `intoonce.rs` |
| `pssm_andthen.dfy` | `PssmAndThen` | `andthen.rs` |
| `pssm_soundness.dfy` | `PssmSoundness` | what a transition's two sets promise about running it |
| `sems_params.dfy`, `sems_results.dfy`, `sems_truth.dfy`, `sems_transition.dfy`, `sems_early.dfy`, `sems_statemachine.dfy` | `Sems*` | the older crate, file by file |
| `dictionary.dfy` | `Dictionaries` | `dict.rs` |
| `transition_dictionary.dfy` | `TransitionDictionaries` | the two dictionary `lib.rs` files, over `pssm_core`'s records and conversions (`PssmTransition`, `PssmConvert`) |

Modelling choices:

- **Parameter shapes.** The source repeats its parameter implementations for tuples of arity 1 to
  8. The model uses one recursive shape instead: `Fact(id) | Opt(id) | Unit | Tuple(items)` in
  the newer crate and `PFact | POpt | PUnit | PPair` in the older one.
- **Result shapes** are recursive in the same way.
- **Wrapped functions.** The user's function is a Dafny function value from the extracted
  argument to the returned value.
- **Panics.** A panic of the fact machine itself (a missing plain fact, an exhausted iterator)
  is an `Outcome` that is `Panicked`, not a precondition. The one exception is the
  dictionary's path operations. They index the first key, so an empty path panics, and the
  model makes a non-empty path a precondition (see "Left out").
- **State updated in place.** Where the source updates state in place, the model uses methods
  on classes with `modifies` clauses, proved against the pure functions that specify them:
  - `take_from` and `insert_into` on a `Store`;
  - `run`;
  - `required()`'s collecting loop;
  - `can_run`, `set_truth` and `unset_truth`;
  - the iterator of `truth.rs`;
  - the dictionary's `insert`/`remove`;
  - the runnable filter's loops.
- **Where the crates' code does not say what it means, the model uses its evident
  intent:**
  - `sems_core`'s `into.rs` calls a one-argument `new` on a record whose `new` takes the
    requirement set too. The model fills that set with the identifiers `ids()` reports.
  - `pssm_core`'s conversions of existing records call `new` with fewer arguments than it
    takes. The model keeps the record's procedure and both sets.
  - `can_run_transition_mut` and `run_ref_mut_unchecked`, which the dictionaries call, are
    not part of this model. Runnability is "every required fact is a key of the state", as in
    `sems_core`'s `can_run`, and running is unguarded.

## Model

| member | source | states |
|---|---|---|
| PssmParams.TakeFrom | crates/pssm_core/src/transition/params.rs:101-182 | `take_from` in place, for plain facts, `Option`, `()` and tuples. It panics exactly when the specification `Take` panics: a plain fact is absent when its turn comes. Otherwise it returns the extracted argument, and the state afterwards is the one `Take` gives. |
| PssmParams.TakeRemovesMentioned | crates/pssm_core/src/transition/params.rs:105-110 | A successful take leaves the state minus exactly the identifiers the shape names. Every other entry stays as it was. |
| PssmParams.TakeAllPanicExtends | crates/pssm_core/src/transition/params.rs:166-182 | Tuple components are taken left to right. Once a prefix of them panics, the whole tuple panics. |
| PssmParams.CollectRequired | crates/pssm_core/src/transition/params.rs:112-147 | `collect_required` calls the collector once per plain fact, and never for `Option` or `()`. It calls it left to right and stops at the collector's first error. The result equals feeding the independently defined list `Collected(sh)` to the collector. |
| PssmParams.CollectRequiredAll | crates/pssm_core/src/transition/params.rs:175-181 | A tuple's collection visits its components left to right and stops at the first collector error. The result equals feeding the concatenation of the components' collected identifiers. |
| PssmParams.FeedRecordNew | crates/pssm_core/src/transition/params.rs:88-98 | The collector `required()` passes fails exactly on a repeated identifier. Otherwise it adds all the identifiers to the set. |
| PssmParams.RequiredOfMeaning | crates/pssm_core/src/transition/params.rs:84-98 | `required()` is `Err` exactly when some identifier is collected twice, with the duplicate error. Otherwise it is the set of collected identifiers. |
| PssmParams.Required | crates/pssm_core/src/transition/params.rs:88-98 | The imperative `required()`: a loop that fills a set and returns on the first duplicate. Its result has the meaning `RequiredOfMeaning` states. |
| PssmResults.InsertInto | crates/pssm_core/src/transition/results.rs:36-189 | `insert_into` in place: the state afterwards is `Inserted(out, old state)`. |
| PssmResults.InsertedOverwrites | crates/pssm_core/src/transition/results.rs:36-77 | Insertion performs exactly the writes of the result, left to right. An identifier ends with its last write, or else its old value. `None` and `()` write nothing. `Some(a)` writes what `a` writes. |
| PssmResults.InsertedAllOverwrites | crates/pssm_core/src/transition/results.rs:180-189 | A tuple result performs its components' writes in order. |
| PssmResults.InsertedKeys | crates/pssm_core/src/transition/results.rs:36-40 | Insertion never removes a key. The new keys are the old keys plus the identifiers of the present fact components. |
| PssmResults.InsertedFrame | crates/pssm_core/src/transition/results.rs:36-40 | An identifier the result does not store keeps its presence and its value. |
| PssmResults.LaterWins | crates/pssm_core/src/transition/results.rs:67-77 | When tuple components share an identifier, the value written last remains. |
| PssmTransition.RunProc | crates/pssm_core/src/transition/mod.rs:76-78 | Running a boxed procedure in place panics exactly when its specification `Exec` does. Otherwise it leaves the state `Exec` computes. |
| PssmTransition.Transition.Run | crates/pssm_core/src/transition/mod.rs:76-99 | `Transition::run` and `TransitionMut::run` apply the stored procedure. The record, including its requires and produces sets, is unchanged. |
| PssmTransition.TransitionOnce.constructor | crates/pssm_core/src/transition/mod.rs:107-116 | `new` stores the procedure and both sets as given, and the record is not yet spent. |
| PssmTransition.TransitionOnce.Run | crates/pssm_core/src/transition/mod.rs:118-120 | It requires an unspent record and leaves it spent, so it runs at most once. It applies the stored procedure. |
| PssmTransition.DebugText | crates/pssm_core/src/transition/mod.rs:127-142 | The `Debug` text, as in `TransitionMut(2->1)`, reads back through an independent parser as exactly the record's name, the number of required facts and the number of produced facts. |
| PssmConvert.WrapFunction | crates/pssm_core/src/transition/intomut.rs:53-69 | Converting a function fails exactly when its parameter shape collects a fact twice, with `required()`'s error. Otherwise the record carries the procedure "take, call, insert" and exactly `required()`'s set. |
| PssmConvert.IntoTransitionMut | crates/pssm_core/src/transition/intomut.rs:20-69 | A `Transition` keeps its procedure and sets and becomes a `TransitionMut`. A `TransitionMut` is returned unchanged. A function is wrapped. |
| PssmConvert.IntoTransitionOnce | crates/pssm_core/src/transition/intoonce.rs:21-80 | Any record keeps its procedure and sets and becomes a `TransitionOnce`. A `TransitionOnce` is returned unchanged. A function is wrapped. |
| PssmConvert.ConversionErrors | crates/pssm_core/src/transition/intoonce.rs:21-62 | Conversion fails only for a function whose shape collects a fact twice. A record converts without error. A parameterless function converts with an empty requirement set. |
| PssmConvert.RunConverted | crates/pssm_core/src/transition/intomut.rs:59-65 | A converted function panics exactly when taking its parameters panics. Otherwise the new keys are the old keys minus the taken facts plus the stored ones. |
| PssmAndThen.CombineRequirements | crates/pssm_core/src/transition/andthen.rs:7-23 | The merge fails exactly when some fact both transitions require is not produced by the first. Otherwise requires = R1 ∪ (R2 \ P1) and produces = P2 ∪ (P1 \ R2). |
| PssmAndThen.CombinedLaws | crates/pssm_core/src/transition/andthen.rs:13-20 | Disjoint requirement sets never fail to merge. The merged requires include R1 and the merged produces include P2. Neither set holds anything outside the two transitions' own sets. |
| PssmAndThen.Compose | crates/pssm_core/src/transition/andthen.rs:199-219 | A conversion error of the first operand is returned first, then one of the second. The merge fails, with `combine_requirements`' message, exactly when a shared requirement is not produced by the first. Otherwise the composite runs the first procedure and then the second, with the merged sets. |
| PssmAndThen.AndThen | crates/pssm_core/src/transition/andthen.rs:199-219 | `AndThen::and_then` on already-converted operands: errors first, then a `Transition` running both procedures in order. |
| PssmAndThen.AndThenMut | crates/pssm_core/src/transition/andthen.rs:221-241 | `AndThenMut::and_then`: both operands go through `into_transition_mut`, their errors are returned in order, and a successful result is a `TransitionMut` running both procedures in order. |
| PssmAndThen.AndThenOnce | crates/pssm_core/src/transition/andthen.rs:243-262 | `AndThenOnce::and_then`: the same as `AndThenMut`, through `into_transition_once`, giving a `TransitionOnce`. |
| PssmAndThen.ComposedRunsInOrder | crates/pssm_core/src/transition/andthen.rs:211-214 | The composite panics if the first procedure panics. Otherwise it behaves as the second procedure run on the state the first leaves. |
| PssmAndThen.InsertThenConsume | crates/pssm_core/src/transition/andthen.rs:39-48 | `insert_a.and_then(consume_a)` succeeds with empty requires and produces. On the empty state it runs to the empty state. |
| PssmAndThen.ChainExamples | crates/pssm_core/src/transition/andthen.rs:7-23 | Worked merges: a producer of A followed by a consumer of A, a shared unproduced requirement rejected, and a reproduced fact kept. |
| PssmSoundness.TakeSucceeds | crates/pssm_core/src/transition/params.rs:101-182 | Taking never panics when the shape names every fact once and every plain fact it names is present. |
| PssmSoundness.RequiredCheckedMeaning | crates/pssm_core/src/transition/params.rs:88-98 | The corrected `required()` fails exactly when the shape names a fact twice, plain or optional. It rejects everything the original rejects, and otherwise agrees with it. |
| PssmSoundness.FunctionHonours | crates/pssm_core/src/transition/intomut.rs:53-69 | A function wrapped with the corrected check keeps its promise on every state holding all it requires. It runs without panicking, leaves every produced fact present, and removes only facts its parameters name. This assumes its result always stores the produced facts. |
| PssmSoundness.RequiredAdmitsPanic | crates/pssm_core/src/transition/params.rs:88-98 | As written, `required()` accepts `(Option<A>, A)` and requires only `A`. On a state holding `A` the converted function panics. The corrected check rejects it. |
| PssmSoundness.ComposeHonours | crates/pssm_core/src/transition/andthen.rs:7-23 | Under the corrected merge, a composite of two transitions that keep their promises keeps its own. |
| PssmSoundness.ComposeCheckedRefines | crates/pssm_core/src/transition/andthen.rs:7-23 | The corrected merge rejects everything the original rejects. Otherwise it builds the same procedure and requirement set. It agrees with the original when each part requires every fact it may take. |
| PssmSoundness.ComposeAdmitsPanic | crates/pssm_core/src/transition/andthen.rs:7-23 | As written, `f(Option<A>).and_then(g(A))` is accepted with requires `{A}`, although each part keeps its promise. On a state holding `A` it panics. The corrected merge rejects it. |
| SemsParams.TakeFrom | crates/sems_core/src/params.rs:15-64 | The older `take_from` in place: a plain fact is removed or panics, `Option` takes the fact if present, `()` takes nothing, and a pair takes A then B. It is tied to the specification `Take`. |
| SemsParams.CollectIdsInto | crates/sems_core/src/params.rs:20-63 | `collect_ids` appends a plain fact's identifier and nothing for `Option` or `()`, left to right through pairs. |
| SemsParams.Ids | crates/sems_core/src/params.rs:8-12 | `ids()` returns the identifiers `collect_ids` reports, in order. |
| SemsParams.TakeAgrees | crates/sems_core/src/params.rs:51-58 | The older take is the newer crate's take on the corresponding shape, with a pair taken as a 2-tuple. |
| SemsParams.IdsAgree | crates/sems_core/src/params.rs:60-63 | The older `ids()` lists exactly the identifiers the newer crate collects for the same shape. |
| SemsParams.TakeRemoves | crates/sems_core/src/params.rs:27-32 | A successful take removes exactly the identifiers the shape names. |
| SemsParams.IdsKeepDuplicates | crates/sems_core/src/params.rs:8-12 | The older `ids()` keeps duplicates: a pair of the same fact lists it twice. |
| SemsResults.InsertInto | crates/sems_core/src/results.rs:9-28 | The older `insert_into` in place: the state afterwards is `Inserted(out, old state)`. |
| SemsResults.InsertedAgrees | crates/sems_core/src/results.rs:19-28 | The older insertion is the newer crate's on the corresponding result, with a pair written as a 2-tuple. |
| SemsResults.InsertedKeys | crates/sems_core/src/results.rs:13-17 | Insertion never removes a key. The new keys are the old keys plus the stored identifiers. |
| SemsResults.InsertedFrame | crates/sems_core/src/results.rs:13-17 | An identifier the result does not store keeps its presence and its value. |
| SemsResults.PairLaterWins | crates/sems_core/src/results.rs:19-28 | A pair inserts a, then b, so b's value remains when their identifiers coincide. |
| SemsTruth.CollectDeconstructed | crates/sems_core/src/truth.rs:32-103 | `collect_deconstructed` appends a fact's own (identifier, value) pair, nothing for `()`, and the components' pairs left to right for pairs and triples. |
| SemsTruth.Deconstruct | crates/sems_core/src/truth.rs:11-15 | `deconstruct` returns exactly those pairs. |
| SemsTruth.CollectIds | crates/sems_core/src/truth.rs:47-122 | `collect_ids` on a requested shape appends one identifier per fact, left to right. |
| SemsTruth.Ids | crates/sems_core/src/truth.rs:25-29 | `ids()` returns those identifiers. |
| SemsTruth.ValueIterator.Next | crates/sems_core/src/truth.rs:39-45 | The iterator yields its first remaining item and drops it, or yields nothing when exhausted. |
| SemsTruth.TakeFrom | crates/sems_core/src/truth.rs:38-116 | `take_from` advances the iterator as the specification `TakeSeq` says, and panics exactly when it does. |
| SemsTruth.TakeSeqCounts | crates/sems_core/src/truth.rs:39-116 | A take consumes exactly one item per fact of the shape, left to right, and `()` consumes none. It panics exactly when there are fewer items than facts. The value it builds has the requested shape. |
| SemsTruth.DeconstructIds | crates/sems_core/src/truth.rs:32-122 | The identifiers `deconstruct` pairs a value with are the `ids()` of its shape. |
| SemsTruth.RequestDeconstructed | crates/sems_core/src/truth.rs:63-122 | Round trip: requesting a value's shape from an iterator over its deconstructed values, followed by anything, rebuilds the value and leaves exactly the rest. |
| SemsTransition.RunProcedure | crates/sems_core/src/transition/mod.rs:70-72 | Running a boxed procedure in place panics exactly when `Exec` does. Otherwise it leaves the state `Exec` computes. |
| SemsTransition.Transition.Run | crates/sems_core/src/transition/mod.rs:70-92 | `run` of `Transition` and `TransitionMut` applies the stored procedure. |
| SemsTransition.TransitionOnce.constructor | crates/sems_core/src/transition/mod.rs:100-108 | `new` stores the procedure and requirement set as given, and the record is not yet spent. |
| SemsTransition.TransitionOnce.Run | crates/sems_core/src/transition/mod.rs:110-112 | It requires an unspent record, leaves it spent, and applies the procedure. |
| SemsTransition.Wrap | crates/sems_core/src/transition/into.rs:30-43 | A wrapped function's record has the requested kind, the procedure "take, call, insert", and requires exactly the identifiers `ids()` reports. |
| SemsTransition.IntoTransition | crates/sems_core/src/transition/into.rs:10-59 | A `Transition` is returned unchanged and a function is wrapped. The parameter shape is kept. |
| SemsTransition.IntoTransitionMut | crates/sems_core/src/transition/intomut.rs:10-68 | A `Transition` becomes a `TransitionMut` running the original procedure. A `TransitionMut` is returned unchanged. A function is wrapped. |
| SemsTransition.IntoTransitionOnce | crates/sems_core/src/transition/intoonce.rs:10-77 | Any record becomes a `TransitionOnce` running the original procedure. A `TransitionOnce` is returned unchanged. A function is wrapped. |
| SemsTransition.RunConverted | crates/sems_core/src/transition/into.rs:17-59 | A parameterless conversion extracts nothing and only inserts. Otherwise a run panics exactly when taking the parameters does, and the new keys are the old ones minus the taken facts plus the stored ones. |
| SemsTransition.TakeMissingPanics | crates/sems_core/src/params.rs:27-58 | A plain fact the parameters name and the state lacks makes the take panic. |
| SemsEarly.Transition.Run | crates/sems_core/src/transition.rs:10-73 | The earliest transition's `run` for zero, one or two parameters: it takes A, then B, then calls and inserts. It is tied to its `Exec`. |
| SemsEarly.SameAsLater | crates/sems_core/src/transition.rs:59-73 | Taking two parameters one after the other, as the earliest file does, behaves exactly as the later conversion that takes their pair. |
| SemsStateMachine.StateMachine.constructor | crates/sems_core/src/statemachine.rs:10-14 | A new machine has an empty state. |
| SemsStateMachine.StateMachine.CanRun | crates/sems_core/src/statemachine.rs:16-22 | `can_run` is true exactly when every identifier `ids()` reports is a key of the state. It changes nothing. |
| SemsStateMachine.StateMachine.RunUnchecked | crates/sems_core/src/statemachine.rs:37-43 | The converted transition runs whatever the state holds. |
| SemsStateMachine.StateMachine.Run | crates/sems_core/src/statemachine.rs:24-35 | When the guard fails, `run` returns the "Cannot run" error and the state is unchanged. Otherwise the function runs and `Ok` is returned. |
| SemsStateMachine.StateMachine.SetTruth | crates/sems_core/src/statemachine.rs:45-47 | The value is stored under its identifier, overwriting. Every other fact is kept. |
| SemsStateMachine.StateMachine.HasTruth | crates/sems_core/src/statemachine.rs:49-51 | True exactly when the identifier is a key of the state. |
| SemsStateMachine.StateMachine.UnsetTruth | crates/sems_core/src/statemachine.rs:53-55 | A present fact is removed and returned. An absent one gives `None` and no change. |
| SemsStateMachine.StateMachine.SetThenUnset | crates/sems_core/src/statemachine.rs:45-55 | Setting then unsetting returns the value set. The fact is absent afterwards and every other fact is as before. |
| SemsStateMachine.GuardRefusesOnlyFailures | crates/sems_core/src/statemachine.rs:24-35 | The guard refuses only functions that would panic if run. |
| SemsStateMachine.GuardSufficient | crates/sems_core/src/statemachine.rs:24-35 | When the parameters name each fact once, a function the guard admits runs to completion. |
| SemsStateMachine.GuardAdmitsPanic | crates/sems_core/src/statemachine.rs:16-22 | Because `ids()` keeps duplicates, the guard admits a function taking the same fact twice on a state holding it once, and that function panics. |
| Dictionaries.GetDeep | crates/sems_dictionary/src/dict.rs:183-193 | On a non-empty path, `get_deep` finds the value the last key names in the folder reached by following all the other keys, and nothing when a folder on the way is missing. |
| Dictionaries.HasDeep | crates/sems_dictionary/src/dict.rs:352-362 | `has_deep` holds exactly when `get_deep` finds a value. |
| Dictionaries.RemovedDeep | crates/sems_dictionary/src/dict.rs:284-294 | `remove_deep` returns exactly the value `get_deep` finds at the path. |
| Dictionaries.ReplacedDeep | crates/sems_dictionary/src/dict.rs:216-226 | Assigning through `get_deep_mut` finds something to assign to exactly when `has_deep` holds. |
| Dictionaries.RemovedDeepMeaning | crates/sems_dictionary/src/dict.rs:284-294 | After `remove_deep`, `get_deep` finds nothing at the path. A path to nothing, including one through a missing intermediate folder, changes nothing. |
| Dictionaries.RemovedDeepFrame | crates/sems_dictionary/src/dict.rs:284-294 | `remove_deep` leaves every other path's value as it was. |
| Dictionaries.ReplacedDeepMeaning | crates/sems_dictionary/src/dict.rs:216-226 | Where assigning through `get_deep_mut` succeeds, `get_deep` then finds the new value. Where it fails, nothing changes. |
| Dictionaries.ReplacedDeepFrame | crates/sems_dictionary/src/dict.rs:216-226 | Assigning through `get_deep_mut` leaves every other path's value as it was. |
| Dictionaries.Dictionary.constructor | crates/sems_dictionary/src/dict.rs:41-46 | A new dictionary is the empty one: no values and no folders, so `no_values` and `no_folders` hold. |
| Dictionaries.Dictionary.Get | crates/sems_dictionary/src/dict.rs:102-104 | `get` finds a value exactly when the key holds one, and it is the stored one. |
| Dictionaries.Dictionary.GetFolder | crates/sems_dictionary/src/dict.rs:140-142 | `get_folder` finds a folder exactly when the key holds one, and it is the stored one. |
| Dictionaries.Dictionary.Has | crates/sems_dictionary/src/dict.rs:309-311 | `has` holds exactly when `get` finds a value. |
| Dictionaries.Dictionary.HasFolder | crates/sems_dictionary/src/dict.rs:329-331 | `has_folder` holds exactly when `get_folder` finds a folder. |
| Dictionaries.Dictionary.ValueCount | crates/sems_dictionary/src/dict.rs:378-380 | The value count is the number of keys holding a value. `Insert` and `Remove` change it by exactly one when they add or remove a key. |
| Dictionaries.Dictionary.FolderCount | crates/sems_dictionary/src/dict.rs:399-401 | The folder count is the number of keys holding a folder. `InsertFolder` and `RemoveFolder` change it by exactly one when they add or remove a key. |
| Dictionaries.Dictionary.NoValues | crates/sems_dictionary/src/dict.rs:414-416 | `no_values` holds exactly when the value count is zero. |
| Dictionaries.Dictionary.NoFolders | crates/sems_dictionary/src/dict.rs:429-431 | `no_folders` holds exactly when the folder count is zero. |
| Dictionaries.Dictionary.Insert | crates/sems_dictionary/src/dict.rs:63-65 | `insert` returns the previous value, and afterwards `get` finds the new one. The count grows by one exactly when the key was new. The folders are untouched. |
| Dictionaries.Dictionary.InsertFolder | crates/sems_dictionary/src/dict.rs:85-87 | `insert_folder` returns the previous folder, and afterwards `get_folder` finds the new one. The folder count grows by one exactly when the key was new. The values are untouched. |
| Dictionaries.Dictionary.ReplaceValue | crates/sems_dictionary/src/dict.rs:122-124 | Assigning through `get_mut` succeeds exactly when the key has a value, and updates only that value. |
| Dictionaries.Dictionary.ReplaceFolder | crates/sems_dictionary/src/dict.rs:161-163 | Assigning through `get_folder_mut` succeeds exactly when the key has a folder, and updates only that folder. |
| Dictionaries.Dictionary.Remove | crates/sems_dictionary/src/dict.rs:241-243 | `remove` returns the stored value and `has` is false afterwards. The count drops by one exactly when a value was removed. A missing key changes nothing. The folders are untouched. |
| Dictionaries.Dictionary.RemoveFolder | crates/sems_dictionary/src/dict.rs:262-264 | `remove_folder` returns the stored folder and `has_folder` is false afterwards. The folder count drops by one exactly when a folder was removed. The values are untouched. |
| Dictionaries.Dictionary.RemoveDeep | crates/sems_dictionary/src/dict.rs:284-294 | In place, `remove_deep` returns what `get_deep` found, `has_deep` is false afterwards, and every other path keeps its value. |
| Dictionaries.Dictionary.ReplaceDeep | crates/sems_dictionary/src/dict.rs:216-226 | In place, assigning through `get_deep_mut` succeeds exactly where `has_deep` held. `get_deep` then finds the value, and every other path keeps its value. |
| TransitionDictionaries.CanRun | crates/sems_core/src/statemachine.rs:16-22 | The dictionaries' runnability: a record can run exactly when every fact it requires is present in the state, as in `can_run`. |
| TransitionDictionaries.FilterEntries | crates/sems_dictionary/src/lib.rs:80-84 | The top level of the result holds exactly the entries whose requirements are keys of the state, under the same keys. |
| TransitionDictionaries.FilterFolders | crates/sems_dictionary/src/lib.rs:86-93 | Each folder is filtered by the same rule, and a folder whose result is empty is left out. |
| TransitionDictionaries.RunnableTransitions | crates/sems_dictionary/src/lib.rs:77-97 | `runnable_transitions` on a dictionary value computes the specification `Runnable`. |
| TransitionDictionaries.RunnableOf | crates/pssm_dictionary/src/lib.rs:77-97 | `runnable_transitions` on the top-level dictionary computes `Runnable` of its contents against the machine's state. |
| TransitionDictionaries.RunnableDeep | crates/sems_dictionary/src/lib.rs:86-93 | Along every path, the filtered dictionary holds the original's transition exactly when it can run, and nothing else. |
| TransitionDictionaries.RunnableNoEmptyFolders | crates/pssm_dictionary/src/lib.rs:89-91 | No folder of the result, at any depth, is empty. |
| TransitionDictionaries.RunnableIdempotent | crates/sems_dictionary/src/lib.rs:77-97 | Filtering the filtered dictionary again changes nothing. |
| TransitionDictionaries.AddTransition | crates/sems_dictionary/src/lib.rs:126-132 | When conversion fails, its error is returned and the dictionary is unchanged. Otherwise the transition is inserted and the previous entry returned. |
| TransitionDictionaries.Run | crates/sems_dictionary/src/lib.rs:166-173 | A key naming no top-level entry gives `None` and no change. Otherwise that transition runs and `Some(())` is returned. |
| TransitionDictionaries.EmptyStateRunnable | crates/pssm_dictionary/src/lib.rs:66-75 | On the empty state, the parameterless `insert_a` is runnable and `use_a`, which needs `A`, is not. |

## Left out

- Derive macros (`sems_macro`) and the `transition_dictionary!` macro (crates/pssm_dictionary/src/lib.rs:135-162): they generate code and have no behaviour of their own.
- The printing demo (`main.rs`), the re-export crate `pssm`, and `sems_core/src/transition/results.rs` are not part of this model.
- Runtime typing through `Box<dyn Any>`: values are stored per identifier. The downcast panics ("Invalid type stored for truth", a wrongly typed iterator item) therefore cannot arise.
- Closure environments: the model does not capture what `Fn`, `FnMut` and `FnOnce` close over, or an `FnMut`'s private mutation. Single use is modelled as a spent flag.
- The produces set is a conversion input. The crates never compute it from a result shape.
- Integer widths: the counts in the `Debug` text and the dictionary counts are unbounded naturals, because `usize` overflow cannot occur at these sizes.
- Dictionaries.GetDeep, Dictionaries.HasDeep, Dictionaries.RemovedDeep, Dictionaries.ReplacedDeep, Dictionaries.Dictionary.RemoveDeep, Dictionaries.Dictionary.ReplaceDeep: these require a non-empty path. The source indexes the first key and panics on an empty slice, and that panic is not modelled.
- Iteration order and the iterator accessors of `dict.rs` (lines 448-522), because `HashMap` order is unspecified.
- Below the top level, a dictionary's folders are owned values. References returned by `get_mut`, `get_folder_mut` and `get_deep_mut` are modelled as assignments through them.
- TransitionDictionaries.RunnableTransitions: the source returns references into the original dictionary, and the model returns copies. Aliasing between the filtered and the original dictionary (seen only through an `FnMut`'s environment) is not captured.
- Functions of three or more parameters in `sems_core`: its `params.rs` implements parameters only for facts, `Option`, `()` and pairs, so the conversions for larger tuples have no parameter binding to model. `truth.rs` pairs and triples are modelled.
- `pssm_core`'s `into.rs` and `StateMachine` are not part of this model. `AndThen::and_then` is modelled on already-converted operands.
- PssmTransition.RunProc: the contract states whether the run panics and the state after a normal run. It does not state which panic message is raised or the partially updated state a panic leaves behind.
- SemsTransition.RunProcedure: the same restriction as `PssmTransition.RunProc` (no panic message, no state after a panic).
- SemsStateMachine.StateMachine.Run: only a function can be passed, because `run` requires a copyable argument, so a record is never run through the guard.

## Findings

| source | as written | input that shows it | evidently intended | confidence | as-written member | corrected member |
|---|---|---|---|---|---|---|
| crates/pssm_core/src/transition/params.rs:88-98 | `required()` records only plain facts in its duplicate check, so a parameter list naming a fact once as `Option` and once plain passes with requires `{A}` | a function of `(Option<A>, A)` on a state holding only `A`: the optional parameter takes `A`, and the plain one then panics although every required fact was present | the requirement set a conversion reports should guarantee that the converted function runs without panicking on any state holding every required fact; as written it does not. Rejecting a fact named twice, plain or optional (`RequiredChecked`), is one possible repair, not a reading of the documented intent, which exempts optional parameters | medium, not executed | PssmSoundness.RequiredAdmitsPanic | PssmSoundness.FunctionHonours |
| crates/pssm_core/src/transition/andthen.rs:7-23 | `combine_requirements` checks only facts both transitions require; a fact the first takes through an optional parameter (so does not require) and the second requires passes unchecked | `f(Option<A>).and_then(g(A))`: merged requires are `{A}`, `f` takes `A`, and `g` then panics on a state holding `A` | a fact the second part requires and the first may take, without producing it, is rejected, so the composite keeps the promise its parts keep | medium, not executed | PssmSoundness.ComposeAdmitsPanic | PssmSoundness.ComposeHonours |

The conversions and compositions elsewhere in the model follow the source as written, so the
dictionaries, `and_then` and the conversions behave as the Rust code does. The corrected
definitions, `RequiredChecked`, `WrapChecked` and `ComposeChecked`, sit beside them in
`PssmSoundness`. The theorems about which transitions keep their promises are stated about those
corrected definitions.
