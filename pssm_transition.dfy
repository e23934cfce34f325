/** The transition records of the newer crate (crates/pssm_core/src/transition/mod.rs): a boxed
    procedure on the state together with the facts it requires and the facts it produces. */
module PssmTransition {
  import opened Facts
  import opened PssmParams
  import opened PssmResults
  import Decimal

  /** Which of the three records a transition is: `Transition` (a shared `Fn`), `TransitionMut`
      (an `FnMut`) or `TransitionOnce` (an `FnOnce`, consumed by running it). */
  datatype Variant = Repeatable | Mutating | SingleUse

  /** The boxed procedure. Every procedure the crate builds is either a converted function —
      take the parameters, call the function, insert its result — or the composite of two
      procedures built by `and_then`. The wrapped function is an arbitrary function from
      parameter values to a result value. */
  datatype Proc = Call(params: Shape, body: Arg -> Output) | Then(first: Proc, second: Proc)

  /** What running a procedure does to a state. */
  function Exec(p: Proc, s: State): Outcome<State>
    decreases p
  {
    match p
    case Call(params, body) =>
      (match Take(params, s)
       case Panicked(m) => Panicked(m)
       case Done((a, s1)) => Done(Inserted(body(a), s1)))
    case Then(first, second) =>
      match Exec(first, s)
      case Panicked(m) => Panicked(m)
      case Done(s1) => Exec(second, s1)
  }

  /** Running a procedure in place. */
  method RunProc(p: Proc, state: Store) returns (r: Outcome<()>)
    modifies state
    decreases p
    ensures r.Panicked? <==> Exec(p, old(state.facts)).Panicked?
    ensures r.Done? ==> Exec(p, old(state.facts)) == Done(state.facts)
  {
    match p
    case Call(params, body) =>
      var a := TakeFrom(params, state);
      if a.Panicked? {
        return Panicked(a.message);
      }
      InsertInto(body(a.value), state);
      r := Done(());
    case Then(first, second) =>
      var r1 := RunProc(first, state);
      if r1.Panicked? {
        return r1;
      }
      r := RunProc(second, state);
  }

  /** A transition: built by `new` from a procedure and the two sets, which it stores as given;
      `requires()` is the `required` field. */
  datatype Transition = Transition(variant: Variant, proc: Proc, required: set<Id>, produced: set<Id>)
  {
    /** `Transition::run` and `TransitionMut::run`: apply the procedure to the state. The record
        itself is a value and is left as it was. */
    method Run(state: Store) returns (r: Outcome<()>)
      requires variant != SingleUse
      modifies state
      ensures r.Panicked? <==> Exec(proc, old(state.facts)).Panicked?
      ensures r.Done? ==> Exec(proc, old(state.facts)) == Done(state.facts)
    {
      r := RunProc(proc, state);
    }
  }

  /** An owned `TransitionOnce`: `run` takes `self` by value, so it can happen once. */
  class TransitionOnce {
    const transition: Transition
    var spent: bool

    constructor (t: Transition)
      requires t.variant == SingleUse
      ensures transition == t && !spent
    {
      transition := t;
      spent := false;
    }

    method Run(state: Store) returns (r: Outcome<()>)
      requires !spent
      modifies this, state
      ensures spent
      ensures r.Panicked? <==> Exec(transition.proc, old(state.facts)).Panicked?
      ensures r.Done? ==> Exec(transition.proc, old(state.facts)) == Done(state.facts)
    {
      spent := true;
      r := RunProc(transition.proc, state);
    }
  }

  // ---------------------------------------------------------------------------------------
  // The Debug summary

  function VariantName(v: Variant): string
  {
    match v
    case Repeatable => "Transition"
    case Mutating => "TransitionMut"
    case SingleUse => "TransitionOnce"
  }

  /** A record name holds no `(`. */
  lemma NameWithoutParen(v: Variant)
    ensures forall k :: 0 <= k < |VariantName(v)| ==> VariantName(v)[k] != '('
  {
    match v
    case Repeatable =>
    case Mutating =>
    case SingleUse =>
  }

  /** The `Debug` text: the record's name, then the number of required and of produced facts,
      as in `TransitionMut(2->1)`. It names the record and gives its two counts: it reads back
      as exactly the record name, `|required|` and `|produced|`. */
  function DebugText(t: Transition): (text: string)
    ensures ParseSummary(text) == Some((VariantName(t.variant), |t.required|, |t.produced|))
  {
    var name := VariantName(t.variant);
    var a, b := Decimal.NatToString(|t.required|), Decimal.NatToString(|t.produced|);
    NameWithoutParen(t.variant);
    ParseSummaryOf(name, a, b);
    Decimal.ParseNatToString(|t.required|);
    Decimal.ParseNatToString(|t.produced|);
    name + "(" + a + "->" + b + ")"
  }

  /** The first position of `c` in `s`, or `|s|` when it does not occur. */
  function IndexOf(s: string, c: char): (r: nat)
    ensures r <= |s|
    ensures r < |s| ==> s[r] == c
    ensures forall k :: 0 <= k < r ==> s[k] != c
  {
    if s == [] then 0 else if s[0] == c then 0 else 1 + IndexOf(s[1..], c)
  }

  /** Reading a Debug summary back: the name before the first `(`, and the two counts on either
      side of `->` up to the closing `)`. */
  function ParseSummary(text: string): Option<(string, nat, nat)>
  {
    var i := IndexOf(text, '(');
    if i == |text| then None
    else
      var rest := text[i + 1..];
      if rest == [] || rest[|rest| - 1] != ')' then None
      else
        var inner := rest[..|rest| - 1];
        var j := IndexOf(inner, '-');
        if j + 1 >= |inner| || inner[j + 1] != '>' then None
        else if Decimal.IsDigits(inner[..j]) && Decimal.IsDigits(inner[j + 2..]) then
          Some((text[..i], Decimal.ParseDigits(inner[..j]), Decimal.ParseDigits(inner[j + 2..])))
        else None
  }

  lemma IndexOfAfter(a: string, c: char, b: string)
    requires forall k :: 0 <= k < |a| ==> a[k] != c
    ensures IndexOf(a + [c] + b, c) == |a|
  {
    var s := a + [c] + b;
    var r := IndexOf(s, c);
    assert s[|a|] == c;
  }

  /** A summary built from a name without `(` and two digit runs reads back as its parts. */
  lemma ParseSummaryOf(name: string, a: string, b: string)
    requires forall k :: 0 <= k < |name| ==> name[k] != '('
    requires Decimal.IsDigits(a) && Decimal.IsDigits(b)
    ensures ParseSummary(name + "(" + a + "->" + b + ")") == Some((name, Decimal.ParseDigits(a), Decimal.ParseDigits(b)))
  {
    var text := name + "(" + a + "->" + b + ")";
    var tail := a + "->" + b + ")";
    assert text == name + ['('] + tail;
    IndexOfAfter(name, '(', tail);
    assert text[..|name|] == name;
    var rest := text[|name| + 1..];
    assert rest == tail;
    var inner := rest[..|rest| - 1];
    assert inner == a + ['-'] + (">" + b);
    forall k | 0 <= k < |a| ensures a[k] != '-' {
      assert Decimal.IsDigit(a[k]);
    }
    IndexOfAfter(a, '-', ">" + b);
    assert inner[..|a|] == a;
    assert inner[|a| + 1] == '>';
    assert inner[|a| + 2..] == b;
  }
}
