/**
 * Properties of the canonical engine's evaluator
 * (projects/panamint/src/profile/runtime.rs:484-646), stated over the
 * evaluation of a sequence of expressions in order.
 */
module PanamintEvalFacts {
  import opened Options
  import opened ProfileAst
  import opened PanamintIr
  import opened PanamintEval

  /** Evaluating expressions in order: all values, or the first outcome that is not a value. */
  datatype Run = Ran(values: seq<Value>, slots: Slots) | Stopped(outcome: Outcome, slots: Slots)

  function RunSeq(c: Context, s: Slots, es: seq<Expr>): (r: Run)
    ensures r.Ran? ==> |r.values| == |es|
    ensures r.Stopped? ==> !r.outcome.Done?
    decreases |es|
  {
    if es == [] then Ran([], s)
    else
      var (o, s1) := Eval(c, s, es[0]);
      if !o.Done? then Stopped(o, s1)
      else match RunSeq(c, s1, es[1..])
        case Ran(vs, s2) => Ran([o.value] + vs, s2)
        case Stopped(o2, s2) => Stopped(o2, s2)
  }

  /** A run that gave values splits into its first evaluation and the run of the rest. */
  lemma RunSeqCons(c: Context, s: Slots, es: seq<Expr>)
    requires es != [] && RunSeq(c, s, es).Ran?
    ensures var (o, s1) := Eval(c, s, es[0]);
      o.Done? && RunSeq(c, s1, es[1..]).Ran? &&
      RunSeq(c, s, es).values == [o.value] + RunSeq(c, s1, es[1..]).values &&
      RunSeq(c, s, es).slots == RunSeq(c, s1, es[1..]).slots
  {
  }

  /** None of `vs` has truthiness `stopOn`. */
  predicate NoneStops(vs: seq<Value>, stopOn: bool)
  {
    forall k :: 0 <= k < |vs| ==> IsTruthy(vs[k]) != stopOn
  }

  lemma {:induction false} ScanSkips(c: Context, s: Slots, e: Expr, i: nat, j: nat, stopOn: bool, stopValue: bool)
    requires e.Block? && i <= j <= |e.body|
    requires RunSeq(c, s, e.body[i..j]).Ran? && NoneStops(RunSeq(c, s, e.body[i..j]).values, stopOn)
    ensures Scan(c, s, e, i, stopOn, stopValue) == Scan(c, RunSeq(c, s, e.body[i..j]).slots, e, j, stopOn, stopValue)
    decreases j - i
  {
    if i < j {
      var es := e.body[i..j];
      assert es[0] == e.body[i] && es[1..] == e.body[i + 1..j];
      var (o, s1) := Eval(c, s, e.body[i]);
      RunSeqCons(c, s, es);
      var tail := RunSeq(c, s1, e.body[i + 1..j]);
      var vs := RunSeq(c, s, es).values;
      assert vs == [o.value] + tail.values;
      assert IsTruthy(o.value) != stopOn by {
        assert vs[0] == o.value;
      }
      assert NoneStops(tail.values, stopOn) by {
        forall k | 0 <= k < |tail.values| ensures IsTruthy(tail.values[k]) != stopOn {
          assert tail.values[k] == vs[k + 1];
        }
      }
      ScanSkips(c, s1, e, i + 1, j, stopOn, stopValue);
      assert Scan(c, s, e, i, stopOn, stopValue) == Scan(c, s1, e, i + 1, stopOn, stopValue);
    }
  }

  /**
   * The outcome of a short-circuit block once the arguments before the
   * `j`-th gave values that do not stop it: the `j`-th argument stops it
   * when its truthiness is `stopOn`, passes on an error or abort, and the
   * block gives `!stopValue` when no argument is left.
   */
  lemma ScanAt(c: Context, s: Slots, e: Expr, j: nat, stopOn: bool, stopValue: bool)
    requires e.Block? && j <= |e.body|
    requires RunSeq(c, s, e.body[..j]).Ran? && NoneStops(RunSeq(c, s, e.body[..j]).values, stopOn)
    ensures var s1 := RunSeq(c, s, e.body[..j]).slots;
      && (j == |e.body| ==> Scan(c, s, e, 0, stopOn, stopValue) == (Done(Bool(!stopValue)), s1))
      && (j < |e.body| && Eval(c, s1, e.body[j]).0.Done? && IsTruthy(Eval(c, s1, e.body[j]).0.value) == stopOn ==>
            Scan(c, s, e, 0, stopOn, stopValue) == (Done(Bool(stopValue)), Eval(c, s1, e.body[j]).1))
      && (j < |e.body| && !Eval(c, s1, e.body[j]).0.Done? ==>
            Scan(c, s, e, 0, stopOn, stopValue) == Eval(c, s1, e.body[j]))
  {
    assert e.body[0..j] == e.body[..j];
    ScanSkips(c, s, e, 0, j, stopOn, stopValue);
  }

  /**
   * `any?` is true at the first truthy argument, false when every argument
   * is falsy, and stops at the first error, abort or early return; the
   * arguments after the deciding one are not evaluated.
   */
  lemma AnyIsFirstTruthy(c: Context, s: Slots, body: seq<Expr>, j: nat)
    requires j <= |body|
    requires RunSeq(c, s, body[..j]).Ran? && NoneStops(RunSeq(c, s, body[..j]).values, true)
    ensures var s1 := RunSeq(c, s, body[..j]).slots;
      && (j == |body| ==> Eval(c, s, Block(Any, body)) == (Done(Bool(false)), s1))
      && (j < |body| && Eval(c, s1, body[j]).0.Done? && IsTruthy(Eval(c, s1, body[j]).0.value) ==>
            Eval(c, s, Block(Any, body)) == (Done(Bool(true)), Eval(c, s1, body[j]).1))
      && (j < |body| && !Eval(c, s1, body[j]).0.Done? ==> Eval(c, s, Block(Any, body)) == Eval(c, s1, body[j]))
  {
    ScanAt(c, s, Block(Any, body), j, true, true);
  }

  /** `all?` is false at the first falsy argument and true when every argument is truthy. */
  lemma AllIsFirstFalsy(c: Context, s: Slots, body: seq<Expr>, j: nat)
    requires j <= |body|
    requires RunSeq(c, s, body[..j]).Ran? && NoneStops(RunSeq(c, s, body[..j]).values, false)
    ensures var s1 := RunSeq(c, s, body[..j]).slots;
      && (j == |body| ==> Eval(c, s, Block(All, body)) == (Done(Bool(true)), s1))
      && (j < |body| && Eval(c, s1, body[j]).0.Done? && !IsTruthy(Eval(c, s1, body[j]).0.value) ==>
            Eval(c, s, Block(All, body)) == (Done(Bool(false)), Eval(c, s1, body[j]).1))
      && (j < |body| && !Eval(c, s1, body[j]).0.Done? ==> Eval(c, s, Block(All, body)) == Eval(c, s1, body[j]))
  {
    ScanAt(c, s, Block(All, body), j, false, false);
  }

  lemma {:induction false} NoneNegatesAnyFrom(c: Context, s: Slots, body: seq<Expr>, i: nat)
    requires i <= |body|
    ensures var a := Scan(c, s, Block(Any, body), i, true, true);
      var n := Scan(c, s, Block(BlockTy.None, body), i, true, false);
      n.1 == a.1 && (a.0.Done? ==> a.0.value.Bool? && n.0 == Done(Bool(!a.0.value.b))) && (!a.0.Done? ==> n.0 == a.0)
    decreases |body| - i
  {
    if i < |body| {
      var (o, s1) := Eval(c, s, body[i]);
      if o.Done? && !IsTruthy(o.value) {
        NoneNegatesAnyFrom(c, s1, body, i + 1);
      }
    }
  }

  /** `none?` evaluates exactly what `any?` evaluates and negates its answer. */
  lemma NoneIsNotAny(c: Context, s: Slots, body: seq<Expr>)
    ensures var a := Eval(c, s, Block(Any, body));
      var n := Eval(c, s, Block(BlockTy.None, body));
      n.1 == a.1 && (a.0.Done? ==> a.0.value.Bool? && n.0 == Done(Bool(!a.0.value.b))) && (!a.0.Done? ==> n.0 == a.0)
  {
    NoneNegatesAnyFrom(c, s, body, 0);
  }

  predicate AllNumbers(vs: seq<Value>)
  {
    forall k :: 0 <= k < |vs| ==> vs[k].Number?
  }

  lemma AllNumbersCons(v: Value, vs: seq<Value>)
    requires AllNumbers([v] + vs)
    ensures v.Number? && AllNumbers(vs)
  {
    assert ([v] + vs)[0] == v;
    forall k | 0 <= k < |vs| ensures vs[k].Number? {
      assert vs[k] == ([v] + vs)[k + 1];
    }
  }

  /** A left fold of `ns` with the block's operator, starting from `acc`. */
  function FoldNums(ty: BlockTy, acc: real, ns: seq<Value>): real
    requires IsFold(ty) && AllNumbers(ns)
    decreases |ns|
  {
    if ns == [] then acc else FoldNums(ty, Apply(ty, acc, ns[0].n), ns[1..])
  }

  lemma {:induction false} FoldSkips(c: Context, s: Slots, e: Expr, i: nat, j: nat, acc: real)
    requires e.Block? && IsFold(e.ty) && i <= j <= |e.body|
    requires RunSeq(c, s, e.body[i..j]).Ran? && AllNumbers(RunSeq(c, s, e.body[i..j]).values)
    ensures FoldFrom(c, s, e, i, acc) ==
      FoldFrom(c, RunSeq(c, s, e.body[i..j]).slots, e, j, FoldNums(e.ty, acc, RunSeq(c, s, e.body[i..j]).values))
    decreases j - i
  {
    if i < j {
      var es := e.body[i..j];
      assert es[0] == e.body[i] && es[1..] == e.body[i + 1..j];
      var (o, s1) := Eval(c, s, e.body[i]);
      RunSeqCons(c, s, es);
      var tail := RunSeq(c, s1, e.body[i + 1..j]);
      var vs := RunSeq(c, s, es).values;
      assert vs == [o.value] + tail.values;
      assert o.value.Number? by {
        assert vs[0] == o.value;
      }
      assert AllNumbers(tail.values) by {
        forall k | 0 <= k < |tail.values| ensures tail.values[k].Number? {
          assert tail.values[k] == vs[k + 1];
        }
      }
      assert vs[1..] == tail.values;
      FoldSkips(c, s1, e, i + 1, j, Apply(e.ty, acc, o.value.n));
    }
  }

  /**
   * `sum`, `sub`, `mul` and `div` whose arguments all give numbers give the
   * left fold of those numbers with the block's operator.
   */
  lemma FoldOfNumbers(c: Context, s: Slots, ty: BlockTy, body: seq<Expr>)
    requires IsFold(ty) && body != []
    requires RunSeq(c, s, body).Ran? && AllNumbers(RunSeq(c, s, body).values)
    ensures var run := RunSeq(c, s, body);
      Eval(c, s, Block(ty, body)) == (Done(Number(FoldNums(ty, run.values[0].n, run.values[1..]))), run.slots)
  {
    var e := Block(ty, body);
    var (o, s1) := Eval(c, s, body[0]);
    RunSeqCons(c, s, body);
    var run := RunSeq(c, s, body);
    var tail := RunSeq(c, s1, body[1..]);
    AllNumbersCons(o.value, tail.values);
    assert run.values[0] == o.value && run.values[1..] == tail.values;
    assert body[1..] == body[1..|body|];
    FoldSkips(c, s1, e, 1, |body|, o.value.n);
    assert Eval(c, s, e) == EvalBlock(c, s, e) == Fold(c, s, e) == FoldFrom(c, s1, e, 1, o.value.n);
  }

  /** A folding block without arguments is an internal error, and evaluates nothing. */
  lemma FoldNeedsArguments(c: Context, s: Slots, ty: BlockTy)
    requires IsFold(ty)
    ensures Eval(c, s, Block(ty, [])) == (Raised(Internal("improper arity")), s)
  {
  }

  /**
   * A folding block stops at the first argument that is not a number: an
   * `invalid` argument makes the block `invalid`, any other value is a type
   * error, and errors, aborts and early returns pass through.
   */
  lemma FoldStops(c: Context, s: Slots, ty: BlockTy, body: seq<Expr>, j: nat)
    requires IsFold(ty) && j < |body|
    requires RunSeq(c, s, body[..j]).Ran? && AllNumbers(RunSeq(c, s, body[..j]).values)
    requires !Eval(c, RunSeq(c, s, body[..j]).slots, body[j]).0.Done? ||
             !Eval(c, RunSeq(c, s, body[..j]).slots, body[j]).0.value.Number?
    ensures var (o, s2) := Eval(c, RunSeq(c, s, body[..j]).slots, body[j]);
      && (!o.Done? ==> Eval(c, s, Block(ty, body)) == (o, s2))
      && (o == Done(Invalid) ==> Eval(c, s, Block(ty, body)) == (Done(Invalid), s2))
      && (o.Done? && !o.value.Invalid? ==> Eval(c, s, Block(ty, body)) == (Raised(TypeError(o.value, "invalid|number")), s2))
  {
    var e := Block(ty, body);
    if j > 0 {
      var (o, s1) := Eval(c, s, body[0]);
      assert body[..j][0] == body[0] && body[..j][1..] == body[1..j];
      RunSeqCons(c, s, body[..j]);
      var tail := RunSeq(c, s1, body[1..j]);
      AllNumbersCons(o.value, tail.values);
      FoldSkips(c, s1, e, 1, j, o.value.n);
      assert Eval(c, s, e) == EvalBlock(c, s, e) == Fold(c, s, e) == FoldFrom(c, s1, e, 1, o.value.n);
    } else {
      assert Eval(c, s, e) == EvalBlock(c, s, e) == Fold(c, s, e);
    }
  }

  /** The conditions of a list of clauses. */
  function Conds(clauses: seq<Clause>): (r: seq<Expr>)
    ensures |r| == |clauses|
    ensures forall k :: 0 <= k < |clauses| ==> r[k] == clauses[k].cond
  {
    seq(|clauses|, k requires 0 <= k < |clauses| => clauses[k].cond)
  }

  lemma {:induction false} WhenSkips(c: Context, s: Slots, e: Expr, i: nat, j: nat)
    requires e.When? && i <= j <= |e.clauses|
    requires RunSeq(c, s, Conds(e.clauses)[i..j]).Ran? && NoneStops(RunSeq(c, s, Conds(e.clauses)[i..j]).values, true)
    ensures WhenFrom(c, s, e, i) == WhenFrom(c, RunSeq(c, s, Conds(e.clauses)[i..j]).slots, e, j)
    decreases j - i
  {
    if i < j {
      var es := Conds(e.clauses)[i..j];
      assert es[0] == e.clauses[i].cond && es[1..] == Conds(e.clauses)[i + 1..j];
      var (o, s1) := Eval(c, s, e.clauses[i].cond);
      RunSeqCons(c, s, es);
      var tail := RunSeq(c, s1, Conds(e.clauses)[i + 1..j]);
      var vs := RunSeq(c, s, es).values;
      assert vs == [o.value] + tail.values;
      assert !IsTruthy(o.value) by {
        assert vs[0] == o.value;
      }
      assert NoneStops(tail.values, true) by {
        forall k | 0 <= k < |tail.values| ensures IsTruthy(tail.values[k]) != true {
          assert tail.values[k] == vs[k + 1];
        }
      }
      WhenSkips(c, s1, e, i + 1, j);
      assert WhenFrom(c, s, e, i) == WhenFrom(c, s1, e, i + 1);
    }
  }

  /**
   * A when block evaluates conditions in order: the value of the first
   * clause whose condition is truthy is the result, and when no condition
   * is truthy the block fails with `WhenFallthrough`.
   */
  lemma WhenIsFirstTruthy(c: Context, s: Slots, clauses: seq<Clause>, j: nat)
    requires j <= |clauses|
    requires RunSeq(c, s, Conds(clauses)[..j]).Ran? && NoneStops(RunSeq(c, s, Conds(clauses)[..j]).values, true)
    ensures var s1 := RunSeq(c, s, Conds(clauses)[..j]).slots;
      && (j == |clauses| ==> Eval(c, s, When(clauses)) == (Raised(WhenFallthrough), s1))
      && (j < |clauses| && Eval(c, s1, clauses[j].cond).0.Done? && IsTruthy(Eval(c, s1, clauses[j].cond).0.value) ==>
            Eval(c, s, When(clauses)) == Eval(c, Eval(c, s1, clauses[j].cond).1, clauses[j].value))
      && (j < |clauses| && !Eval(c, s1, clauses[j].cond).0.Done? ==>
            Eval(c, s, When(clauses)) == Eval(c, s1, clauses[j].cond))
  {
    assert Conds(clauses)[0..j] == Conds(clauses)[..j];
    WhenSkips(c, s, When(clauses), 0, j);
  }

  /** `return!` hands its argument's value up as an `EarlyReturn`. */
  lemma ReturnRaises(c: Context, s: Slots, x: Expr)
    ensures var (o, s1) := Eval(c, s, x);
      Eval(c, s, Block(Return, [x])) == (if o.Done? then Raised(EarlyReturn(o.value)) else o, s1)
  {
  }

  /**
   * A definition is evaluated at most once per context: after its first
   * successful lookup its slot holds the value, and every later lookup of
   * that slot gives the same value without evaluating anything.
   */
  lemma LookupMemoizes(c: Context, s: Slots, id: nat, def: Expr, other: Expr)
    requires Eval(c, s, LookupOrCompute(id, def)).0.Done?
    ensures var (o, s1) := Eval(c, s, LookupOrCompute(id, def));
      id < |s1| && s1[id] == Some(o.value) && Eval(c, s1, LookupOrCompute(id, other)) == (o, s1)
  {
  }

  lemma {:induction false} NoPanic(c: Context, s: Slots, e: Expr)
    requires c.tags.Some? && Runnable(e, |s|)
    ensures !Eval(c, s, e).0.Panicked?
    decreases e, 2
  {
    match e
    case Lit(_) =>
    case LookupConstant(_) =>
    case LookupGlobal(_) =>
    case LookupOrCompute(id, def) =>
      if s[id].None? {
        NoPanic(c, s, def);
      }
    case Block(_, _) => NoPanicBlock(c, s, e);
    case When(_) => NoPanicWhen(c, s, e, 0);
    case Patterns(_) =>
  }

  lemma {:induction false} NoPanicBlock(c: Context, s: Slots, e: Expr)
    requires c.tags.Some? && e.Block? && Runnable(e, |s|)
    ensures !EvalBlock(c, s, e).0.Panicked?
    decreases e, 1
  {
    match e.ty
    case Any => NoPanicScan(c, s, e, 0, true, true);
    case All => NoPanicScan(c, s, e, 0, false, false);
    case None => NoPanicScan(c, s, e, 0, true, false);
    case Return => NoPanic(c, s, e.body[0]);
    case _ =>
      NoPanic(c, s, e.body[0]);
      var (o, s1) := Eval(c, s, e.body[0]);
      if o.Done? && o.value.Number? {
        NoPanicFold(c, s1, e, 1, o.value.n);
      }
  }

  lemma {:induction false} NoPanicScan(c: Context, s: Slots, e: Expr, i: nat, stopOn: bool, stopValue: bool)
    requires c.tags.Some? && e.Block? && Runnable(e, |s|) && i <= |e.body|
    ensures !Scan(c, s, e, i, stopOn, stopValue).0.Panicked?
    decreases e, 0, |e.body| - i
  {
    if i < |e.body| {
      NoPanic(c, s, e.body[i]);
      var (o, s1) := Eval(c, s, e.body[i]);
      NoPanicScan(c, s1, e, i + 1, stopOn, stopValue);
    }
  }

  lemma {:induction false} NoPanicFold(c: Context, s: Slots, e: Expr, i: nat, acc: real)
    requires c.tags.Some? && e.Block? && IsFold(e.ty) && Runnable(e, |s|) && i <= |e.body|
    ensures !FoldFrom(c, s, e, i, acc).0.Panicked?
    decreases e, 0, |e.body| - i
  {
    if i < |e.body| {
      NoPanic(c, s, e.body[i]);
      var (o, s1) := Eval(c, s, e.body[i]);
      if o.Done? && o.value.Number? {
        NoPanicFold(c, s1, e, i + 1, Apply(e.ty, acc, o.value.n));
      }
    }
  }

  lemma {:induction false} NoPanicWhen(c: Context, s: Slots, e: Expr, i: nat)
    requires c.tags.Some? && e.When? && Runnable(e, |s|) && i <= |e.clauses|
    ensures !WhenFrom(c, s, e, i).0.Panicked?
    decreases e, 0, |e.clauses| - i
  {
    if i < |e.clauses| {
      var cl := e.clauses[i];
      assert cl < e;
      NoPanic(c, s, cl.cond);
      var (o, s1) := Eval(c, s, cl.cond);
      NoPanic(c, s1, cl.value);
      NoPanicWhen(c, s1, e, i + 1);
    }
  }

  /**
   * An expression that is runnable with the context's slots never aborts
   * when a tag source is present: slot indices are in range and every
   * `return!` has its argument.
   */
  lemma RunnableNeverPanics(c: Context, s: Slots, e: Expr)
    requires c.tags.Some? && Runnable(e, |s|)
    ensures !Eval(c, s, e).0.Panicked?
  {
    NoPanic(c, s, e);
  }

  /** Without a tag source (a constant's context) any tag pattern aborts. */
  lemma PatternsNeedTags(c: Context, s: Slots, ps: seq<TagPattern<TagId>>)
    requires c.tags.None?
    ensures Eval(c, s, Patterns(ps)).0.Panicked?
  {
  }

  /** A tag missing from the source satisfies only `NotExists`. */
  lemma MissingTag(t: TagSource, k: TagId, vs: seq<TagId>)
    requires k !in t
    ensures !PatternMatches(t, Exists(k)) && PatternMatches(t, NotExists(k))
    ensures !PatternMatches(t, OneOf(k, vs)) && !PatternMatches(t, NoneOf(k, vs))
  {
  }
}
