/**
 * The earliest profile evaluator (src/profile.rs:254-470): a tree walker over
 * the parsed expression with a stack of scopes. A scope maps a name to its
 * definition, unevaluated until first looked up and then replaced in place by
 * its value. A named block pushes a scope of its own definitions for the
 * duration of its body.
 *
 * A definition that refers to itself, directly or through others, makes the
 * source recurse without end. The model bounds that recursion with `fuel`,
 * spent once per evaluation of a stored definition, and reports `Diverged`
 * when it runs out.
 */
module ProfileWalker {
  import opened Options
  import opened ProfileAst

  datatype LazyValue = Evaluated(value: Value) | Unevaluated(expr: Expression)

  type Scope = map<string, LazyValue>

  /** The scope stack, global scope first. */
  type Stack = seq<Scope>

  datatype EvalError = Lookup(name: string) | UnknownBlock(name: string) | TagNotSupported

  /** How an evaluation ends: a value, an `EvalError`, a process abort, or out of fuel. */
  datatype Outcome = Done(value: Value) | Failed(error: EvalError) | Panicked(reason: string) | Diverged

  /** `Scope::get_child`: every definition unevaluated, under exactly the defined names. */
  function ChildScope(defs: seq<Def>): (s: Scope)
    ensures forall k :: k in s <==> k in DefNames(defs)
    decreases |defs|
  {
    if defs == [] then map[]
    else
      var last := defs[|defs| - 1];
      var s := ChildScope(defs[..|defs| - 1])[last.ident := Unevaluated(last.expr)];
      assert DefNames(defs) == DefNames(defs[..|defs| - 1]) + [last.ident];
      s
  }

  /** For a repeated name in `Scope::get_child`, the later definition wins. */
  lemma {:induction false} ChildScopeLaterWins(defs: seq<Def>, k: string)
    requires k in ChildScope(defs)
    ensures exists i :: 0 <= i < |defs| && defs[i].ident == k && ChildScope(defs)[k] == Unevaluated(defs[i].expr) &&
                        (forall j :: i < j < |defs| ==> defs[j].ident != k)
    decreases |defs|
  {
    var n := |defs| - 1;
    var front := defs[..n];
    assert ChildScope(defs) == ChildScope(front)[defs[n].ident := Unevaluated(defs[n].expr)];
    if defs[n].ident == k {
      assert ChildScope(defs)[k] == Unevaluated(defs[n].expr);
    } else {
      ChildScopeLaterWins(front, k);
      var i :| 0 <= i < |front| && front[i].ident == k && ChildScope(front)[k] == Unevaluated(front[i].expr) &&
               (forall j :: i < j < |front| ==> front[j].ident != k);
      assert defs[i] == front[i] && ChildScope(defs)[k] == ChildScope(front)[k];
      assert forall j :: i < j < |defs| ==> defs[j].ident != k by {
        forall j | i < j < |defs| ensures defs[j].ident != k {
          if j < n {
            assert defs[j] == front[j];
          }
        }
      }
    }
  }

  /** The index of the innermost scope that binds `key`. */
  function Innermost(st: Stack, key: string): (r: Option<nat>)
    ensures r.Some? ==> r.value < |st| && key in st[r.value] && forall j :: r.value < j < |st| ==> key !in st[j]
    ensures r.None? ==> forall j :: 0 <= j < |st| ==> key !in st[j]
    decreases |st|
  {
    if st == [] then None
    else if key in st[|st| - 1] then Some(|st| - 1)
    else Innermost(st[..|st| - 1], key)
  }

  /** Both stacks have the same scopes binding the same names, whatever the values. */
  predicate SameKeys(a: Stack, b: Stack)
  {
    |a| == |b| && forall j :: 0 <= j < |a| ==> a[j].Keys == b[j].Keys
  }

  /** `Scope::set` on the `i`-th scope: the name now holds an evaluated value. */
  function Store(st: Stack, i: nat, key: string, v: Value): (r: Stack)
    requires i < |st|
    ensures |r| == |st| && key in r[i] && r[i][key] == Evaluated(v)
    ensures forall j :: 0 <= j < |st| && j != i ==> r[j] == st[j]
    ensures forall k :: k != key ==> (k in r[i] <==> k in st[i]) && (k in st[i] ==> r[i][k] == st[i][k])
    ensures key in st[i] ==> SameKeys(st, r)
  {
    st[i := st[i][key := Evaluated(v)]]
  }

  /** `pop_scope`: the global scope is never popped; trying aborts. */
  function PopScopeF(st: Stack): (r: (Option<string>, Stack))
    requires st != []
    ensures r.0.Some? <==> |st| == 1
    ensures r.0.Some? ==> r.1 == st
    ensures r.0.None? ==> r.1 + [st[|st| - 1]] == st
  {
    if |st| == 1 then (Some("bug: trying to pop global scope"), st) else (None, st[..|st| - 1])
  }

  /** `eval_expr` with `fuel` left for evaluating stored definitions. */
  function EvalF(fuel: nat, st: Stack, e: Expression): (r: (Outcome, Stack))
    requires st != []
    ensures SameKeys(st, r.1)
    decreases fuel, e, 3
  {
    match e
    case Literal(v) => (Done(v), st)
    case Ident(name) => LookupF(fuel, st, name)
    case Tags(_) => (Panicked("not yet implemented"), st)
    case NamedBlock(_, _, _) => NamedBlockF(fuel, st, e)
    case WhenBlock(_) => WhenF(fuel, st, e, 0)
  }

  /**
   * `lookup`: the innermost binding; an unevaluated one is evaluated on the
   * whole current stack and its value stored back into the scope it came from.
   */
  function LookupF(fuel: nat, st: Stack, key: string): (r: (Outcome, Stack))
    requires st != []
    ensures SameKeys(st, r.1)
    decreases fuel, Ident(key), 2
  {
    match Innermost(st, key)
    case None => (Failed(Lookup(key)), st)
    case Some(i) =>
      match st[i][key]
      case Evaluated(v) => (Done(v), st)
      case Unevaluated(x) =>
        if fuel == 0 then (Diverged, st)
        else
          var (o, st1) := EvalF(fuel - 1, st, x);
          if o.Done? then (o, Store(st1, i, key, o.value)) else (o, st1)
  }

  /** `eval_named_block`: push the block's definitions, evaluate, pop whatever the result. */
  function NamedBlockF(fuel: nat, st: Stack, e: Expression): (r: (Outcome, Stack))
    requires st != [] && e.NamedBlock?
    ensures SameKeys(st, r.1)
    decreases fuel, e, 2
  {
    var (o, st1) := InnerF(fuel, st + [ChildScope(e.defs)], e);
    (o, st1[..|st1| - 1])
  }

  /** `eval_named_block_inner`: the five block names; any other name is an error. */
  function InnerF(fuel: nat, st: Stack, e: Expression): (r: (Outcome, Stack))
    requires st != [] && e.NamedBlock?
    ensures SameKeys(st, r.1)
    decreases fuel, e, 1
  {
    match e.name
    case "any?" => AnyF(fuel, st, e, 0)
    case "none?" =>
      var (o, st1) := AnyF(fuel, st, e, 0);
      (if o.Done? then Done(Bool(!o.value.b)) else o, st1)
    case "all?" => AllF(fuel, st, e, 0)
    case "eq?" =>
      if |e.body| == 0 then (Done(Bool(false)), st)
      else
        var (o, st1) := EvalF(fuel, st, e.body[0]);
        if !o.Done? then (o, st1) else EqF(fuel, st1, e, 1, o.value)
    case "sum" => SumF(fuel, st, e, 0, 0.0)
    case _ => (Failed(UnknownBlock(e.name)), st)
  }

  /** The `any?`/`none?` loop from the `i`-th argument on: is some argument truthy? */
  function AnyF(fuel: nat, st: Stack, e: Expression, i: nat): (r: (Outcome, Stack))
    requires st != [] && e.NamedBlock? && i <= |e.body|
    ensures SameKeys(st, r.1)
    ensures r.0.Done? ==> r.0.value.Bool?
    decreases fuel, e, 0, |e.body| - i
  {
    if i == |e.body| then (Done(Bool(false)), st)
    else
      var (o, st1) := EvalF(fuel, st, e.body[i]);
      if !o.Done? then (o, st1)
      else if IsTruthy(o.value) then (Done(Bool(true)), st1)
      else AnyF(fuel, st1, e, i + 1)
  }

  function AllF(fuel: nat, st: Stack, e: Expression, i: nat): (r: (Outcome, Stack))
    requires st != [] && e.NamedBlock? && i <= |e.body|
    ensures SameKeys(st, r.1)
    decreases fuel, e, 0, |e.body| - i
  {
    if i == |e.body| then (Done(Bool(true)), st)
    else
      var (o, st1) := EvalF(fuel, st, e.body[i]);
      if !o.Done? then (o, st1)
      else if !IsTruthy(o.value) then (Done(Bool(false)), st1)
      else AllF(fuel, st1, e, i + 1)
  }

  /** The `eq?` loop from the `i`-th argument on, comparing each value with the one before. */
  function EqF(fuel: nat, st: Stack, e: Expression, i: nat, prev: Value): (r: (Outcome, Stack))
    requires st != [] && e.NamedBlock? && i <= |e.body|
    ensures SameKeys(st, r.1)
    decreases fuel, e, 0, |e.body| - i
  {
    if i == |e.body| then (Done(Bool(true)), st)
    else
      var (o, st1) := EvalF(fuel, st, e.body[i]);
      if !o.Done? then (o, st1)
      else if o.value != prev then (Done(Bool(false)), st1)
      else EqF(fuel, st1, e, i + 1, o.value)
  }

  /** The `sum` loop: `invalid` ends it as `invalid`, any other non-number aborts. */
  function SumF(fuel: nat, st: Stack, e: Expression, i: nat, acc: real): (r: (Outcome, Stack))
    requires st != [] && e.NamedBlock? && i <= |e.body|
    ensures SameKeys(st, r.1)
    decreases fuel, e, 0, |e.body| - i
  {
    if i == |e.body| then (Done(Number(acc)), st)
    else
      var (o, st1) := EvalF(fuel, st, e.body[i]);
      if !o.Done? then (o, st1)
      else match o.value
        case Invalid => (Done(Invalid), st1)
        case Number(n) => SumF(fuel, st1, e, i + 1, acc + n)
        case _ => (Panicked("todo: expected num"), st1)
  }

  /** `eval_when_block` from the `i`-th clause on; no truthy condition gives `invalid`. */
  function WhenF(fuel: nat, st: Stack, e: Expression, i: nat): (r: (Outcome, Stack))
    requires st != [] && e.WhenBlock? && i <= |e.clauses|
    ensures SameKeys(st, r.1)
    decreases fuel, e, 0, |e.clauses| - i
  {
    if i == |e.clauses| then (Done(Invalid), st)
    else
      var cl := e.clauses[i];
      assert cl < e;
      var (o, st1) := EvalF(fuel, st, cl.condition);
      if !o.Done? then (o, st1)
      else if IsTruthy(o.value) then EvalF(fuel, st1, cl.value)
      else WhenF(fuel, st1, e, i + 1)
  }

  /** `eval_globals` from the `i`-th definition on: each value is stored into the global scope. */
  function GlobalsF(fuel: nat, st: Stack, defs: seq<Def>, i: nat): (r: (Option<Outcome>, Stack))
    requires st != [] && i <= |defs|
    ensures |r.1| == |st|
    ensures r.0.Some? ==> !r.0.value.Done?
    decreases |defs| - i
  {
    if i == |defs| then (None, st)
    else
      var (o, st1) := EvalF(fuel, st, defs[i].expr);
      if !o.Done? then (Some(o), st1)
      else GlobalsF(fuel, Store(st1, 0, defs[i].ident, o.value), defs, i + 1)
  }

  class EvaluationContext {
    /** The profile's global definitions. */
    const globalDefs: seq<Def>
    var stack: Stack

    /** `EvaluationContext::create`: a single, empty global scope. */
    constructor Create(globalDefs: seq<Def>)
      ensures this.globalDefs == globalDefs && stack == [map[]]
    {
      this.globalDefs := globalDefs;
      stack := [map[]];
    }

    method PushScope(defs: seq<Def>)
      requires stack != []
      modifies this
      ensures stack == old(stack) + [ChildScope(defs)]
    {
      stack := stack + [ChildScope(defs)];
    }

    method PopScope() returns (failure: Option<string>)
      requires stack != []
      modifies this
      ensures (failure, stack) == PopScopeF(old(stack))
    {
      if |stack| == 1 {
        return Some("bug: trying to pop global scope");
      }
      stack := stack[..|stack| - 1];
      failure := None;
    }

    method Lookup(fuel: nat, key: string) returns (r: Outcome)
      requires stack != []
      modifies this
      ensures (r, stack) == LookupF(fuel, old(stack), key)
      decreases fuel, Ident(key), 2
    {
      var found := FindInnermost(key);
      if found.None? {
        return Failed(EvalError.Lookup(key));
      }
      var idx := found.value;
      match stack[idx][key] {
        case Evaluated(v) =>
          r := Done(v);
        case Unevaluated(x) =>
          if fuel == 0 {
            return Diverged;
          }
          r := EvalExpr(fuel - 1, x);
          if r.Done? {
            stack := Store(stack, idx, key, r.value);
          }
      }
    }

    /** The scan of `Scope::get` from the innermost scope outwards. */
    method FindInnermost(key: string) returns (found: Option<nat>)
      ensures found == Innermost(stack, key)
    {
      var i := |stack|;
      while i > 0
        invariant 0 <= i <= |stack|
        invariant forall j :: i <= j < |stack| ==> key !in stack[j]
        invariant Innermost(stack, key) == Innermost(stack[..i], key)
      {
        if key in stack[i - 1] {
          break;
        }
        assert stack[..i - 1] == stack[..i][..i - 1];
        i := i - 1;
      }
      if i == 0 {
        assert stack[..0] == [];
        return None;
      }
      found := Some(i - 1);
    }

    method EvalGlobals(fuel: nat) returns (failure: Option<Outcome>)
      requires stack != []
      modifies this
      ensures (failure, stack) == GlobalsF(fuel, old(stack), globalDefs, 0)
    {
      var i := 0;
      while i < |globalDefs|
        invariant 0 <= i <= |globalDefs|
        invariant |stack| == |old(stack)|
        invariant GlobalsF(fuel, old(stack), globalDefs, 0) == GlobalsF(fuel, stack, globalDefs, i)
      {
        var value := EvalExpr(fuel, globalDefs[i].expr);
        if !value.Done? {
          return Some(value);
        }
        stack := Store(stack, 0, globalDefs[i].ident, value.value);
        i := i + 1;
      }
      failure := None;
    }

    method EvalExpr(fuel: nat, e: Expression) returns (r: Outcome)
      requires stack != []
      modifies this
      ensures (r, stack) == EvalF(fuel, old(stack), e)
      decreases fuel, e, 3
    {
      match e {
        case Literal(v) =>
          r := Done(v);
        case Ident(name) =>
          r := Lookup(fuel, name);
        case Tags(_) =>
          r := Panicked("not yet implemented");
        case NamedBlock(_, _, _) =>
          r := EvalNamedBlock(fuel, e);
        case WhenBlock(_) =>
          r := EvalWhenBlock(fuel, e);
      }
    }

    method EvalWhenBlock(fuel: nat, e: Expression) returns (r: Outcome)
      requires stack != [] && e.WhenBlock?
      modifies this
      ensures (r, stack) == WhenF(fuel, old(stack), e, 0)
      decreases fuel, e, 2
    {
      var clauses := e.clauses;
      var i := 0;
      while i < |clauses|
        invariant 0 <= i <= |clauses|
        invariant |stack| == |old(stack)|
        invariant WhenF(fuel, old(stack), e, 0) == WhenF(fuel, stack, e, i)
      {
        assert clauses[i] < e;
        var cond := EvalExpr(fuel, clauses[i].condition);
        if !cond.Done? {
          return cond;
        }
        if IsTruthy(cond.value) {
          r := EvalExpr(fuel, clauses[i].value);
          return;
        }
        i := i + 1;
      }
      r := Done(Invalid);
    }

    method EvalNamedBlockInner(fuel: nat, e: Expression) returns (r: Outcome)
      requires stack != [] && e.NamedBlock?
      modifies this
      ensures (r, stack) == InnerF(fuel, old(stack), e)
      decreases fuel, e, 1
    {
      var body := e.body;
      if e.name == "any?" || e.name == "none?" {
        var any := false;
        var invert := e.name == "none?";
        var i := 0;
        while i < |body|
          invariant 0 <= i <= |body|
          invariant |stack| == |old(stack)|
          invariant AnyF(fuel, old(stack), e, 0) == AnyF(fuel, stack, e, i)
        {
          var val := EvalExpr(fuel, body[i]);
          if !val.Done? {
            return val;
          }
          if IsTruthy(val.value) {
            any := true;
            break;
          }
          i := i + 1;
        }
        r := Done(Bool(if invert then !any else any));
      } else if e.name == "all?" {
        var i := 0;
        while i < |body|
          invariant 0 <= i <= |body|
          invariant |stack| == |old(stack)|
          invariant AllF(fuel, old(stack), e, 0) == AllF(fuel, stack, e, i)
        {
          var val := EvalExpr(fuel, body[i]);
          if !val.Done? {
            return val;
          }
          if !IsTruthy(val.value) {
            return Done(Bool(false));
          }
          i := i + 1;
        }
        r := Done(Bool(true));
      } else if e.name == "eq?" {
        if |body| == 0 {
          return Done(Bool(false));
        }
        var prev := EvalExpr(fuel, body[0]);
        if !prev.Done? {
          return prev;
        }
        var i := 1;
        while i < |body|
          invariant 1 <= i <= |body|
          invariant prev.Done? && |stack| == |old(stack)|
          invariant InnerF(fuel, old(stack), e) == EqF(fuel, stack, e, i, prev.value)
        {
          var val := EvalExpr(fuel, body[i]);
          if !val.Done? {
            return val;
          }
          if val.value != prev.value {
            return Done(Bool(false));
          }
          prev := val;
          i := i + 1;
        }
        r := Done(Bool(true));
      } else if e.name == "sum" {
        var acc := 0.0;
        var i := 0;
        while i < |body|
          invariant 0 <= i <= |body|
          invariant |stack| == |old(stack)|
          invariant SumF(fuel, old(stack), e, 0, 0.0) == SumF(fuel, stack, e, i, acc)
        {
          var val := EvalExpr(fuel, body[i]);
          if !val.Done? {
            return val;
          }
          match val.value {
            case Invalid =>
              return Done(Invalid);
            case Number(x) =>
              acc := acc + x;
            case _ =>
              return Panicked("todo: expected num");
          }
          i := i + 1;
        }
        r := Done(Number(acc));
      } else {
        r := Failed(UnknownBlock(e.name));
      }
    }

    method EvalNamedBlock(fuel: nat, e: Expression) returns (r: Outcome)
      requires stack != [] && e.NamedBlock?
      modifies this
      ensures (r, stack) == NamedBlockF(fuel, old(stack), e)
      decreases fuel, e, 2
    {
      PushScope(e.defs);
      r := EvalNamedBlockInner(fuel, e);
      var _ := PopScope();
    }
  }
}
