/**
 * The canonical engine's evaluator (projects/panamint/src/profile/runtime.rs:445-646):
 * a context holding the constant values, one memo slot per local definition,
 * an optional tag source and the global lookup, and the recursive evaluation
 * of compiled expressions against it.
 */
module PanamintEval {
  import opened Options
  import opened ProfileAst
  import opened PanamintIr

  /** The tags of the element being scored, by compact id. */
  type TagSource = map<TagId, TagId>

  /** The read-only part of an evaluation context. */
  datatype Context = Context(constants: seq<Value>, tags: Option<TagSource>, globals: map<string, real>)

  /** The memo slots: `None` until the definition is first evaluated. */
  type Slots = seq<Option<Value>>

  /** Slots filled in `s` are still filled in `s'`. */
  predicate StillFilled(s: Slots, s': Slots)
  {
    |s'| == |s| && forall i :: 0 <= i < |s| && s[i].Some? ==> s'[i].Some?
  }

  /** The block kinds that fold their arguments with an arithmetic operator. */
  predicate IsFold(ty: BlockTy)
  {
    ty == Sum || ty == Sub || ty == Mul || ty == Div
  }

  /** The operator of a folding block on f32, here on reals; a division by zero gives 0. */
  function Apply(ty: BlockTy, a: real, b: real): (r: real)
    requires IsFold(ty)
    ensures ty == Sum ==> r - b == a
    ensures ty == Sub ==> r + b == a
    ensures ty == Mul && b != 0.0 ==> r / b == a
    ensures ty == Mul && b == 0.0 ==> r == 0.0
    ensures ty == Div ==> if b == 0.0 then r == 0.0 else r * b == a
  {
    match ty
    case Sum => a + b
    case Sub => a - b
    case Mul => if b == 0.0 then a * b else Cancel(a, b); a * b
    case Div => if b == 0.0 then 0.0 else Cancel(a, b); a / b
  }

  /** Multiplying and dividing by the same non-zero number cancel out. */
  lemma Cancel(a: real, b: real)
    requires b != 0.0
    ensures (a * b) / b == a && (a / b) * b == a
  {
    var q := a / b;
    assert q * b == a;
    assert (a * b) / b == a * (b / b);
  }

  /** How one tag pattern matches a tag source; a missing key fails both value tests. */
  predicate PatternMatches(t: TagSource, p: TagPattern<TagId>): (b: bool)
    ensures b ==> (p.key in t <==> !p.NotExists?)
  {
    match p
    case Exists(k) => k in t
    case NotExists(k) => k !in t
    case OneOf(k, vs) => k in t && t[k] in vs
    case NoneOf(k, vs) => k in t && t[k] !in vs
  }

  /**
   * The patterns pair up as negations: `!k` is the negation of `k`, and
   * `k != vs` the negation of `k == vs` on an element that has the key; on
   * one without it neither value test matches.
   */
  lemma PatternDuals(t: TagSource, k: TagId, vs: seq<TagId>)
    ensures PatternMatches(t, NotExists(k)) <==> !PatternMatches(t, Exists(k))
    ensures k in t ==> (PatternMatches(t, NoneOf(k, vs)) <==> !PatternMatches(t, OneOf(k, vs)))
    ensures k !in t ==> !PatternMatches(t, OneOf(k, vs)) && !PatternMatches(t, NoneOf(k, vs))
  {
  }

  /** Tag patterns from the `i`-th on, stopping at the first that fails. */
  function MatchFrom(t: TagSource, ps: seq<TagPattern<TagId>>, i: nat): (r: bool)
    requires i <= |ps|
    ensures r <==> forall j :: i <= j < |ps| ==> PatternMatches(t, ps[j])
    decreases |ps| - i
  {
    if i == |ps| then true
    else if !PatternMatches(t, ps[i]) then false
    else MatchFrom(t, ps, i + 1)
  }

  /** `EvalContext::evaluate` on a context and the current memo slots. */
  function Eval(c: Context, s: Slots, e: Expr): (r: (Outcome, Slots))
    ensures StillFilled(s, r.1)
    decreases e, 2
  {
    match e
    case Lit(v) => (Done(v), s)
    case LookupConstant(i) =>
      if i < |c.constants| then (Done(c.constants[i]), s)
      else (Raised(Internal("bad constant reference")), s)
    case LookupGlobal(name) =>
      if name in c.globals then (Done(Number(c.globals[name])), s)
      else (Raised(Internal("bad global reference")), s)
    case LookupOrCompute(id, def) =>
      if id >= |s| then (Panicked("index out of bounds"), s)
      else if s[id].Some? then (Done(s[id].value), s)
      else
        var (o, s1) := Eval(c, s, def);
        if o.Done? then (o, s1[id := Some(o.value)]) else (o, s1)
    case Block(_, _) => EvalBlock(c, s, e)
    case When(_) => WhenFrom(c, s, e, 0)
    case Patterns(ps) =>
      match c.tags
      case None => (Panicked("no tags supported here"), s)
      case Some(t) => (Done(Bool(MatchFrom(t, ps, 0))), s)
  }

  /** `evaluate_block`. */
  function EvalBlock(c: Context, s: Slots, e: Expr): (r: (Outcome, Slots))
    requires e.Block?
    ensures StillFilled(s, r.1)
    decreases e, 1
  {
    match e.ty
    case Any => Scan(c, s, e, 0, true, true)
    case All => Scan(c, s, e, 0, false, false)
    case None => Scan(c, s, e, 0, true, false)
    case Return =>
      if |e.body| == 0 then (Panicked("index out of bounds"), s)
      else
        var (o, s1) := Eval(c, s, e.body[0]);
        if o.Done? then (Raised(EarlyReturn(o.value)), s1) else (o, s1)
    case _ => Fold(c, s, e)
  }

  /**
   * The short-circuit loops of `any?`, `all?` and `none?` from the `i`-th
   * argument on: stop with `stopValue` at the first argument whose
   * truthiness is `stopOn`, otherwise give `!stopValue`.
   */
  function Scan(c: Context, s: Slots, e: Expr, i: nat, stopOn: bool, stopValue: bool): (r: (Outcome, Slots))
    requires e.Block? && i <= |e.body|
    ensures StillFilled(s, r.1)
    decreases e, 0, |e.body| - i
  {
    if i == |e.body| then (Done(Bool(!stopValue)), s)
    else
      var (o, s1) := Eval(c, s, e.body[i]);
      if !o.Done? then (o, s1)
      else if IsTruthy(o.value) == stopOn then (Done(Bool(stopValue)), s1)
      else Scan(c, s1, e, i + 1, stopOn, stopValue)
  }

  /** `fold_block`: the first argument starts the accumulator. */
  function Fold(c: Context, s: Slots, e: Expr): (r: (Outcome, Slots))
    requires e.Block? && IsFold(e.ty)
    ensures StillFilled(s, r.1)
    decreases e, 0, |e.body| + 1
  {
    if |e.body| == 0 then (Raised(Internal("improper arity")), s)
    else
      var (o, s1) := Eval(c, s, e.body[0]);
      if !o.Done? then (o, s1)
      else match o.value
        case Invalid => (Done(Invalid), s1)
        case Number(n) => FoldFrom(c, s1, e, 1, n)
        case _ => (Raised(TypeError(o.value, "invalid|number")), s1)
  }

  /** The rest of `fold_block` from the `i`-th argument on. */
  function FoldFrom(c: Context, s: Slots, e: Expr, i: nat, acc: real): (r: (Outcome, Slots))
    requires e.Block? && IsFold(e.ty) && i <= |e.body|
    ensures StillFilled(s, r.1)
    decreases e, 0, |e.body| - i
  {
    if i == |e.body| then (Done(Number(acc)), s)
    else
      var (o, s1) := Eval(c, s, e.body[i]);
      if !o.Done? then (o, s1)
      else match o.value
        case Invalid => (Done(Invalid), s1)
        case Number(n) => FoldFrom(c, s1, e, i + 1, Apply(e.ty, acc, n))
        case _ => (Raised(TypeError(o.value, "invalid|number")), s1)
  }

  /** `evaluate_when` from the `i`-th clause on. */
  function WhenFrom(c: Context, s: Slots, e: Expr, i: nat): (r: (Outcome, Slots))
    requires e.When? && i <= |e.clauses|
    ensures StillFilled(s, r.1)
    decreases e, 0, |e.clauses| - i
  {
    if i == |e.clauses| then (Raised(WhenFallthrough), s)
    else
      var cl := e.clauses[i];
      assert cl < e;
      var (o, s1) := Eval(c, s, cl.cond);
      if !o.Done? then (o, s1)
      else if IsTruthy(o.value) then Eval(c, s1, cl.value)
      else WhenFrom(c, s1, e, i + 1)
  }

  class EvalContext {
    const constants: seq<Value>
    const variables: array<Option<Value>>
    const tagSource: Option<TagSource>
    const globals: map<string, real>

    function Ctx(): Context
    {
      Context(constants, tagSource, globals)
    }

    /** `EvalContext::constant`: no memo slots and no tag source. */
    constructor Constant(constants: seq<Value>, globals: map<string, real>)
      ensures Ctx() == Context(constants, Option.None, globals)
      ensures fresh(variables) && variables.Length == 0
    {
      this.constants := constants;
      this.globals := globals;
      tagSource := Option.None;
      variables := new Option<Value>[0];
    }

    /** `EvalContext::create`: `numVariables` empty memo slots and a tag source. */
    constructor Create(constants: seq<Value>, numVariables: nat, tags: TagSource, globals: map<string, real>)
      ensures Ctx() == Context(constants, Some(tags), globals)
      ensures fresh(variables) && variables[..] == seq(numVariables, _ => Option.None)
    {
      this.constants := constants;
      this.globals := globals;
      tagSource := Some(tags);
      variables := new Option<Value>[numVariables](_ => Option.None);
    }

    method Evaluate(e: Expr) returns (r: Outcome)
      modifies variables
      ensures (r, variables[..]) == Eval(Ctx(), old(variables[..]), e)
      decreases e, 2
    {
      match e {
        case Lit(v) =>
          r := Done(v);
        case LookupConstant(i) =>
          if i < |constants| {
            r := Done(constants[i]);
          } else {
            r := Raised(Internal("bad constant reference"));
          }
        case LookupGlobal(name) =>
          if name in globals {
            r := Done(Number(globals[name]));
          } else {
            r := Raised(Internal("bad global reference"));
          }
        case LookupOrCompute(id, def) =>
          if id >= variables.Length {
            return Panicked("index out of bounds");
          }
          match variables[id] {
            case Some(v) =>
              r := Done(v);
            case None =>
              r := Evaluate(def);
              if r.Done? {
                ghost var after := variables[..];
                variables[id] := Some(r.value);
                assert variables[..] == after[id := Some(r.value)];
              }
          }
        case Block(_, _) =>
          r := EvaluateBlock(e);
        case When(_) =>
          r := EvaluateWhen(e);
        case Patterns(ps) =>
          r := EvaluateTagPatterns(ps);
          if tagSource.Some? {
            assert MatchFrom(tagSource.value, ps, 0) <==> forall j :: 0 <= j < |ps| ==> PatternMatches(tagSource.value, ps[j]);
          }
      }
    }

    method EvaluateBlock(e: Expr) returns (r: Outcome)
      requires e.Block?
      modifies variables
      ensures (r, variables[..]) == EvalBlock(Ctx(), old(variables[..]), e)
      decreases e, 1
    {
      var body := e.body;
      match e.ty {
        case Any =>
          var i := 0;
          while i < |body|
            invariant 0 <= i <= |body|
            invariant Scan(Ctx(), old(variables[..]), e, 0, true, true) == Scan(Ctx(), variables[..], e, i, true, true)
          {
            var v := Evaluate(body[i]);
            if !v.Done? {
              return v;
            }
            if IsTruthy(v.value) {
              return Done(Bool(true));
            }
            i := i + 1;
          }
          r := Done(Bool(false));
        case All =>
          var i := 0;
          while i < |body|
            invariant 0 <= i <= |body|
            invariant Scan(Ctx(), old(variables[..]), e, 0, false, false) == Scan(Ctx(), variables[..], e, i, false, false)
          {
            var v := Evaluate(body[i]);
            if !v.Done? {
              return v;
            }
            if !IsTruthy(v.value) {
              return Done(Bool(false));
            }
            i := i + 1;
          }
          r := Done(Bool(true));
        case None =>
          var i := 0;
          while i < |body|
            invariant 0 <= i <= |body|
            invariant Scan(Ctx(), old(variables[..]), e, 0, true, false) == Scan(Ctx(), variables[..], e, i, true, false)
          {
            var v := Evaluate(body[i]);
            if !v.Done? {
              return v;
            }
            if IsTruthy(v.value) {
              return Done(Bool(false));
            }
            i := i + 1;
          }
          r := Done(Bool(true));
        case Return =>
          if |body| == 0 {
            return Panicked("index out of bounds");
          }
          var v := Evaluate(body[0]);
          if !v.Done? {
            return v;
          }
          r := Raised(EarlyReturn(v.value));
        case _ =>
          r := FoldBlock(e);
      }
    }

    method FoldBlock(e: Expr) returns (r: Outcome)
      requires e.Block? && IsFold(e.ty)
      modifies variables
      ensures (r, variables[..]) == Fold(Ctx(), old(variables[..]), e)
      decreases e, 0
    {
      var body := e.body;
      if |body| == 0 {
        return Raised(Internal("improper arity"));
      }
      var first := Evaluate(body[0]);
      if !first.Done? {
        return first;
      }
      var acc: real;
      match first.value {
        case Invalid =>
          return Done(Invalid);
        case Number(n) =>
          acc := n;
        case _ =>
          return Raised(TypeError(first.value, "invalid|number"));
      }
      ghost var start := variables[..];
      var i := 1;
      while i < |body|
        invariant 1 <= i <= |body|
        invariant FoldFrom(Ctx(), start, e, 1, first.value.n) == FoldFrom(Ctx(), variables[..], e, i, acc)
      {
        var v := Evaluate(body[i]);
        if !v.Done? {
          return v;
        }
        match v.value {
          case Invalid =>
            return Done(Invalid);
          case Number(n) =>
            acc := Apply(e.ty, acc, n);
          case _ =>
            return Raised(TypeError(v.value, "invalid|number"));
        }
        i := i + 1;
      }
      r := Done(Number(acc));
    }

    method EvaluateWhen(e: Expr) returns (r: Outcome)
      requires e.When?
      modifies variables
      ensures (r, variables[..]) == WhenFrom(Ctx(), old(variables[..]), e, 0)
      decreases e, 1
    {
      var clauses := e.clauses;
      var i := 0;
      while i < |clauses|
        invariant 0 <= i <= |clauses|
        invariant WhenFrom(Ctx(), old(variables[..]), e, 0) == WhenFrom(Ctx(), variables[..], e, i)
      {
        assert clauses[i] < e;
        var condition := Evaluate(clauses[i].cond);
        if !condition.Done? {
          return condition;
        }
        if IsTruthy(condition.value) {
          r := Evaluate(clauses[i].value);
          return;
        }
        i := i + 1;
      }
      r := Raised(WhenFallthrough);
    }

    /** `evaluate_tag_patterns`: true when every pattern matches; aborts without a tag source. */
    method EvaluateTagPatterns(ps: seq<TagPattern<TagId>>) returns (r: Outcome)
      ensures tagSource.None? ==> r == Panicked("no tags supported here")
      ensures tagSource.Some? ==>
        r == Done(Bool(forall j :: 0 <= j < |ps| ==> PatternMatches(tagSource.value, ps[j])))
    {
      if tagSource.None? {
        return Panicked("no tags supported here");
      }
      var t := tagSource.value;
      var i := 0;
      while i < |ps|
        invariant 0 <= i <= |ps|
        invariant forall j :: 0 <= j < i ==> PatternMatches(t, ps[j])
      {
        var matches;
        match ps[i] {
          case Exists(k) =>
            matches := k in t;
          case NotExists(k) =>
            matches := k !in t;
          case OneOf(k, vs) =>
            matches := k in t && t[k] in vs;
          case NoneOf(k, vs) =>
            matches := k in t && t[k] !in vs;
        }
        if !matches {
          return Done(Bool(false));
        }
        i := i + 1;
      }
      r := Done(Bool(true));
    }
  }
}
