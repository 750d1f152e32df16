/**
 * Properties of the tree-walking evaluator (src/profile.rs:254-470): lookups
 * resolve to the innermost scope and are evaluated at most once, the block
 * kinds and `when` short-circuit as their names say, a self-referential
 * definition never finishes, and the globals of the source's own test
 * profile evaluate to the values its test expects.
 */
module ProfileWalkerFacts {
  import opened Options
  import opened ProfileAst
  import opened ProfileWalker

  /** Only the names bound by each scope decide which scope a lookup uses. */
  lemma {:induction false} InnermostSameKeys(a: Stack, b: Stack, key: string)
    requires SameKeys(a, b)
    ensures Innermost(a, key) == Innermost(b, key)
    decreases |a|
  {
    if a != [] {
      var n := |a| - 1;
      assert a[n].Keys == b[n].Keys;
      if key !in a[n] {
        assert SameKeys(a[..n], b[..n]) by {
          forall j | 0 <= j < n ensures a[..n][j].Keys == b[..n][j].Keys {
            assert a[j].Keys == b[j].Keys;
          }
        }
        InnermostSameKeys(a[..n], b[..n], key);
      }
    }
  }

  /**
   * A lookup that succeeds leaves its value stored in the innermost scope
   * binding the name; every later lookup of that name on the resulting
   * stack gives the same value, changes nothing and needs no fuel.
   */
  lemma LookupCaches(fuel: nat, st: Stack, key: string, laterFuel: nat)
    requires st != [] && LookupF(fuel, st, key).0.Done?
    ensures var (o, st1) := LookupF(fuel, st, key);
      && Innermost(st, key).Some?
      && st1[Innermost(st, key).value][key] == Evaluated(o.value)
      && LookupF(laterFuel, st1, key) == (o, st1)
  {
    var (o, st1) := LookupF(fuel, st, key);
    InnermostSameKeys(st, st1, key);
  }

  /** A name no scope binds is a lookup error, and the stack is untouched. */
  lemma MissingIsLookupError(fuel: nat, st: Stack, key: string)
    requires st != [] && forall j :: 0 <= j < |st| ==> key !in st[j]
    ensures LookupF(fuel, st, key) == (Failed(EvalError.Lookup(key)), st)
    ensures EvalF(fuel, st, Ident(key)) == (Failed(EvalError.Lookup(key)), st)
  {
  }

  /**
   * A definition that names itself never produces a value: whatever the
   * fuel, the lookup runs out of it, as the source recurses without end.
   */
  lemma {:induction false} SelfReferenceDiverges(fuel: nat, st: Stack, key: string)
    requires st != [] && Innermost(st, key).Some?
    requires st[Innermost(st, key).value][key] == Unevaluated(Ident(key))
    ensures LookupF(fuel, st, key) == (Diverged, st)
    decreases fuel
  {
    if fuel > 0 {
      SelfReferenceDiverges(fuel - 1, st, key);
      assert EvalF(fuel - 1, st, Ident(key)) == LookupF(fuel - 1, st, key);
    }
  }

  /**
   * A block whose name is none of the five kinds is an error, and the scope
   * it pushed is popped again.
   */
  lemma UnknownBlockIsError(fuel: nat, st: Stack, e: Expression)
    requires st != [] && e.NamedBlock? && e.name !in {"any?", "none?", "all?", "eq?", "sum"}
    ensures EvalF(fuel, st, e) == (Failed(UnknownBlock(e.name)), st)
  {
    var pushed := st + [ChildScope(e.defs)];
    assert InnerF(fuel, pushed, e) == (Failed(UnknownBlock(e.name)), pushed);
    assert pushed[..|st|] == st;
    assert EvalF(fuel, st, e) == NamedBlockF(fuel, st, e);
  }

  /** Evaluating expressions in order: all values, or the first outcome that is not a value. */
  datatype Run = Ran(values: seq<Value>, stack: Stack) | Stopped(outcome: Outcome, stack: Stack)

  function RunSeq(fuel: nat, st: Stack, es: seq<Expression>): (r: Run)
    requires st != []
    ensures r.Ran? ==> |r.values| == |es|
    ensures r.stack != []
    decreases |es|
  {
    if es == [] then Ran([], st)
    else
      var (o, st1) := EvalF(fuel, st, es[0]);
      if !o.Done? then Stopped(o, st1)
      else match RunSeq(fuel, st1, es[1..])
        case Ran(vs, st2) => Ran([o.value] + vs, st2)
        case Stopped(o2, st2) => Stopped(o2, st2)
  }

  lemma RunSeqCons(fuel: nat, st: Stack, es: seq<Expression>)
    requires st != [] && es != [] && RunSeq(fuel, st, es).Ran?
    ensures var (o, st1) := EvalF(fuel, st, es[0]);
      o.Done? && RunSeq(fuel, st1, es[1..]).Ran? &&
      RunSeq(fuel, st, es).values == [o.value] + RunSeq(fuel, st1, es[1..]).values &&
      RunSeq(fuel, st, es).stack == RunSeq(fuel, st1, es[1..]).stack
  {
  }

  predicate NoneTruthy(vs: seq<Value>)
  {
    forall k :: 0 <= k < |vs| ==> !IsTruthy(vs[k])
  }

  predicate AllTruthy(vs: seq<Value>)
  {
    forall k :: 0 <= k < |vs| ==> IsTruthy(vs[k])
  }

  lemma {:induction false} AnySkips(fuel: nat, st: Stack, e: Expression, i: nat, j: nat)
    requires st != [] && e.NamedBlock? && i <= j <= |e.body|
    requires RunSeq(fuel, st, e.body[i..j]).Ran? && NoneTruthy(RunSeq(fuel, st, e.body[i..j]).values)
    ensures AnyF(fuel, st, e, i) == AnyF(fuel, RunSeq(fuel, st, e.body[i..j]).stack, e, j)
    decreases j - i
  {
    if i < j {
      var es := e.body[i..j];
      assert es[0] == e.body[i] && es[1..] == e.body[i + 1..j];
      var (o, st1) := EvalF(fuel, st, e.body[i]);
      RunSeqCons(fuel, st, es);
      var tail := RunSeq(fuel, st1, e.body[i + 1..j]);
      var vs := RunSeq(fuel, st, es).values;
      assert vs == [o.value] + tail.values;
      assert !IsTruthy(o.value) by {
        assert vs[0] == o.value;
      }
      assert NoneTruthy(tail.values) by {
        forall k | 0 <= k < |tail.values| ensures !IsTruthy(tail.values[k]) {
          assert tail.values[k] == vs[k + 1];
        }
      }
      AnySkips(fuel, st1, e, i + 1, j);
    }
  }

  lemma {:induction false} AllSkips(fuel: nat, st: Stack, e: Expression, i: nat, j: nat)
    requires st != [] && e.NamedBlock? && i <= j <= |e.body|
    requires RunSeq(fuel, st, e.body[i..j]).Ran? && AllTruthy(RunSeq(fuel, st, e.body[i..j]).values)
    ensures AllF(fuel, st, e, i) == AllF(fuel, RunSeq(fuel, st, e.body[i..j]).stack, e, j)
    decreases j - i
  {
    if i < j {
      var es := e.body[i..j];
      assert es[0] == e.body[i] && es[1..] == e.body[i + 1..j];
      var (o, st1) := EvalF(fuel, st, e.body[i]);
      RunSeqCons(fuel, st, es);
      var tail := RunSeq(fuel, st1, e.body[i + 1..j]);
      var vs := RunSeq(fuel, st, es).values;
      assert vs == [o.value] + tail.values;
      assert IsTruthy(o.value) by {
        assert vs[0] == o.value;
      }
      assert AllTruthy(tail.values) by {
        forall k | 0 <= k < |tail.values| ensures IsTruthy(tail.values[k]) {
          assert tail.values[k] == vs[k + 1];
        }
      }
      AllSkips(fuel, st1, e, i + 1, j);
    }
  }

  /**
   * Inside its own scope, `any?` is true at the first truthy argument and
   * false when every argument is falsy; later arguments are not evaluated
   * and a failure passes through. `none?` gives the negation.
   */
  lemma AnyIsFirstTruthy(fuel: nat, st: Stack, defs: seq<Def>, name: string, body: seq<Expression>, j: nat)
    requires st != [] && name in {"any?", "none?"} && j <= |body|
    requires RunSeq(fuel, st, body[..j]).Ran? && NoneTruthy(RunSeq(fuel, st, body[..j]).values)
    ensures var st1 := RunSeq(fuel, st, body[..j]).stack;
      var inner := InnerF(fuel, st, NamedBlock(defs, name, body));
      && (j == |body| ==> inner == (Done(Bool(name == "none?")), st1))
      && (j < |body| && EvalF(fuel, st1, body[j]).0.Done? && IsTruthy(EvalF(fuel, st1, body[j]).0.value) ==>
            inner == (Done(Bool(name == "any?")), EvalF(fuel, st1, body[j]).1))
      && (j < |body| && !EvalF(fuel, st1, body[j]).0.Done? ==> inner == EvalF(fuel, st1, body[j]))
  {
    var e := NamedBlock(defs, name, body);
    assert body[0..j] == body[..j];
    AnySkips(fuel, st, e, 0, j);
  }

  /**
   * Inside its own scope, `all?` is false at the first falsy argument and
   * true when every argument is truthy; a failure passes through.
   */
  lemma AllIsFirstFalsy(fuel: nat, st: Stack, defs: seq<Def>, body: seq<Expression>, j: nat)
    requires st != [] && j <= |body|
    requires RunSeq(fuel, st, body[..j]).Ran? && AllTruthy(RunSeq(fuel, st, body[..j]).values)
    ensures var st1 := RunSeq(fuel, st, body[..j]).stack;
      var inner := InnerF(fuel, st, NamedBlock(defs, "all?", body));
      && (j == |body| ==> inner == (Done(Bool(true)), st1))
      && (j < |body| && EvalF(fuel, st1, body[j]).0.Done? && !IsTruthy(EvalF(fuel, st1, body[j]).0.value) ==>
            inner == (Done(Bool(false)), EvalF(fuel, st1, body[j]).1))
      && (j < |body| && !EvalF(fuel, st1, body[j]).0.Done? ==> inner == EvalF(fuel, st1, body[j]))
  {
    var e := NamedBlock(defs, "all?", body);
    assert body[0..j] == body[..j];
    AllSkips(fuel, st, e, 0, j);
  }

  predicate AllEqual(vs: seq<Value>, v: Value)
  {
    forall k :: 0 <= k < |vs| ==> vs[k] == v
  }

  lemma {:induction false} EqFrom(fuel: nat, st: Stack, e: Expression, i: nat, prev: Value)
    requires st != [] && e.NamedBlock? && i <= |e.body|
    requires RunSeq(fuel, st, e.body[i..]).Ran?
    ensures EqF(fuel, st, e, i, prev).0 == Done(Bool(AllEqual(RunSeq(fuel, st, e.body[i..]).values, prev)))
    decreases |e.body| - i
  {
    var vs := RunSeq(fuel, st, e.body[i..]).values;
    if i < |e.body| {
      var es := e.body[i..];
      assert es[0] == e.body[i] && es[1..] == e.body[i + 1..];
      var (o, st1) := EvalF(fuel, st, e.body[i]);
      RunSeqCons(fuel, st, es);
      var tail := RunSeq(fuel, st1, e.body[i + 1..]).values;
      assert vs == [o.value] + tail;
      if o.value == prev {
        EqFrom(fuel, st1, e, i + 1, o.value);
        assert AllEqual(vs, prev) == AllEqual(tail, prev) by {
          if AllEqual(tail, prev) {
            forall k | 0 <= k < |vs| ensures vs[k] == prev {
              if k > 0 {
                assert vs[k] == tail[k - 1];
              }
            }
          }
          if AllEqual(vs, prev) {
            forall k | 0 <= k < |tail| ensures tail[k] == prev {
              assert tail[k] == vs[k + 1];
            }
          }
        }
      } else {
        assert vs[0] != prev;
      }
    } else {
      assert vs == [];
    }
  }

  /**
   * When every argument evaluates, `eq?` is true exactly when there is at
   * least one argument and all of them equal the first.
   */
  lemma EqIsAllEqual(fuel: nat, st: Stack, defs: seq<Def>, body: seq<Expression>)
    requires st != [] && RunSeq(fuel, st, body).Ran?
    ensures var vs := RunSeq(fuel, st, body).values;
      InnerF(fuel, st, NamedBlock(defs, "eq?", body)).0 == Done(Bool(|vs| > 0 && AllEqual(vs, vs[0])))
  {
    var e := NamedBlock(defs, "eq?", body);
    var vs := RunSeq(fuel, st, body).values;
    if body != [] {
      var (o, st1) := EvalF(fuel, st, body[0]);
      RunSeqCons(fuel, st, body);
      var tail := RunSeq(fuel, st1, body[1..]).values;
      assert e.body[1..] == body[1..];
      EqFrom(fuel, st1, e, 1, o.value);
      assert vs == [o.value] + tail;
      AllEqualCons(o.value, tail);
    }
  }

  /** A sequence starting with `v` has all elements equal to its first exactly when its tail equals `v` throughout. */
  lemma AllEqualCons(v: Value, tail: seq<Value>)
    ensures AllEqual([v] + tail, v) == AllEqual(tail, v)
  {
    var vs := [v] + tail;
    if AllEqual(tail, v) {
      forall k | 0 <= k < |vs| ensures vs[k] == v {
        if k > 0 {
          assert vs[k] == tail[k - 1];
        }
      }
    }
    if AllEqual(vs, v) {
      forall k | 0 <= k < |tail| ensures tail[k] == v {
        assert tail[k] == vs[k + 1];
      }
    }
  }

  predicate AllNumbers(vs: seq<Value>)
  {
    forall k :: 0 <= k < |vs| ==> vs[k].Number?
  }

  /** The sum of a sequence of numbers, left to right. */
  function Total(vs: seq<Value>): real
    requires AllNumbers(vs)
    decreases |vs|
  {
    if vs == [] then 0.0 else vs[0].n + Total(vs[1..])
  }

  lemma {:induction false} SumSkips(fuel: nat, st: Stack, e: Expression, i: nat, j: nat, acc: real)
    requires st != [] && e.NamedBlock? && i <= j <= |e.body|
    requires RunSeq(fuel, st, e.body[i..j]).Ran? && AllNumbers(RunSeq(fuel, st, e.body[i..j]).values)
    ensures SumF(fuel, st, e, i, acc) ==
      SumF(fuel, RunSeq(fuel, st, e.body[i..j]).stack, e, j, acc + Total(RunSeq(fuel, st, e.body[i..j]).values))
    decreases j - i
  {
    var vs := RunSeq(fuel, st, e.body[i..j]).values;
    if i < j {
      var es := e.body[i..j];
      assert es[0] == e.body[i] && es[1..] == e.body[i + 1..j];
      var (o, st1) := EvalF(fuel, st, e.body[i]);
      RunSeqCons(fuel, st, es);
      var tail := RunSeq(fuel, st1, e.body[i + 1..j]);
      assert vs == [o.value] + tail.values;
      assert o.value.Number? by {
        assert vs[0] == o.value;
      }
      assert AllNumbers(tail.values) by {
        forall k | 0 <= k < |tail.values| ensures tail.values[k].Number? {
          assert tail.values[k] == vs[k + 1];
        }
      }
      assert vs[1..] == tail.values;
      SumSkips(fuel, st1, e, i + 1, j, acc + o.value.n);
      assert Total(vs) == o.value.n + Total(tail.values);
    } else {
      assert vs == [];
    }
  }

  /** Inside its own scope, a `sum` whose arguments all give numbers is their total; an empty one is 0. */
  lemma SumOfNumbers(fuel: nat, st: Stack, defs: seq<Def>, body: seq<Expression>)
    requires st != [] && RunSeq(fuel, st, body).Ran? && AllNumbers(RunSeq(fuel, st, body).values)
    ensures var run := RunSeq(fuel, st, body);
      InnerF(fuel, st, NamedBlock(defs, "sum", body)) == (Done(Number(Total(run.values))), run.stack)
  {
    assert body[0..|body|] == body;
    SumSkips(fuel, st, NamedBlock(defs, "sum", body), 0, |body|, 0.0);
  }

  /**
   * A `sum` stops at the first argument that is not a number: `invalid`
   * makes the block `invalid`, any other value aborts, and a failure passes
   * through.
   */
  lemma SumStops(fuel: nat, st: Stack, defs: seq<Def>, body: seq<Expression>, j: nat)
    requires st != [] && j < |body|
    requires RunSeq(fuel, st, body[..j]).Ran? && AllNumbers(RunSeq(fuel, st, body[..j]).values)
    requires !EvalF(fuel, RunSeq(fuel, st, body[..j]).stack, body[j]).0.Done? ||
             !EvalF(fuel, RunSeq(fuel, st, body[..j]).stack, body[j]).0.value.Number?
    ensures var (o, st2) := EvalF(fuel, RunSeq(fuel, st, body[..j]).stack, body[j]);
      var inner := InnerF(fuel, st, NamedBlock(defs, "sum", body));
      && (!o.Done? ==> inner == (o, st2))
      && (o == Done(Invalid) ==> inner == (Done(Invalid), st2))
      && (o.Done? && !o.value.Invalid? ==> inner == (Panicked("todo: expected num"), st2))
  {
    assert body[0..j] == body[..j];
    SumSkips(fuel, st, NamedBlock(defs, "sum", body), 0, j, 0.0);
  }

  function Conds(clauses: seq<WhenClause>): (r: seq<Expression>)
    ensures |r| == |clauses|
    ensures forall k :: 0 <= k < |clauses| ==> r[k] == clauses[k].condition
  {
    seq(|clauses|, k requires 0 <= k < |clauses| => clauses[k].condition)
  }

  lemma {:induction false} WhenSkips(fuel: nat, st: Stack, e: Expression, i: nat, j: nat)
    requires st != [] && e.WhenBlock? && i <= j <= |e.clauses|
    requires RunSeq(fuel, st, Conds(e.clauses)[i..j]).Ran? && NoneTruthy(RunSeq(fuel, st, Conds(e.clauses)[i..j]).values)
    ensures WhenF(fuel, st, e, i) == WhenF(fuel, RunSeq(fuel, st, Conds(e.clauses)[i..j]).stack, e, j)
    decreases j - i
  {
    if i < j {
      var es := Conds(e.clauses)[i..j];
      assert es[0] == e.clauses[i].condition && es[1..] == Conds(e.clauses)[i + 1..j];
      var (o, st1) := EvalF(fuel, st, e.clauses[i].condition);
      RunSeqCons(fuel, st, es);
      var tail := RunSeq(fuel, st1, Conds(e.clauses)[i + 1..j]);
      var vs := RunSeq(fuel, st, es).values;
      assert vs == [o.value] + tail.values;
      assert !IsTruthy(o.value) by {
        assert vs[0] == o.value;
      }
      assert NoneTruthy(tail.values) by {
        forall k | 0 <= k < |tail.values| ensures !IsTruthy(tail.values[k]) {
          assert tail.values[k] == vs[k + 1];
        }
      }
      WhenSkips(fuel, st1, e, i + 1, j);
    }
  }

  /**
   * A `when` gives the value of the first clause whose condition is truthy;
   * when no condition is truthy it gives `invalid`. A failing condition
   * passes through.
   */
  lemma WhenIsFirstTruthy(fuel: nat, st: Stack, clauses: seq<WhenClause>, j: nat)
    requires st != [] && j <= |clauses|
    requires RunSeq(fuel, st, Conds(clauses)[..j]).Ran? && NoneTruthy(RunSeq(fuel, st, Conds(clauses)[..j]).values)
    ensures var st1 := RunSeq(fuel, st, Conds(clauses)[..j]).stack;
      && (j == |clauses| ==> EvalF(fuel, st, WhenBlock(clauses)) == (Done(Invalid), st1))
      && (j < |clauses| && EvalF(fuel, st1, clauses[j].condition).0.Done? &&
          IsTruthy(EvalF(fuel, st1, clauses[j].condition).0.value) ==>
            EvalF(fuel, st, WhenBlock(clauses)) == EvalF(fuel, EvalF(fuel, st1, clauses[j].condition).1, clauses[j].value))
      && (j < |clauses| && !EvalF(fuel, st1, clauses[j].condition).0.Done? ==>
            EvalF(fuel, st, WhenBlock(clauses)) == EvalF(fuel, st1, clauses[j].condition))
  {
    assert Conds(clauses)[0..j] == Conds(clauses)[..j];
    WhenSkips(fuel, st, WhenBlock(clauses), 0, j);
  }

  /** Popping the global scope is refused with the source's abort message. */
  lemma PopGlobalPanics(global: Scope)
    ensures PopScopeF([global]) == (Some("bug: trying to pop global scope"), [global])
  {
  }

  /** Tag patterns are not evaluated by this engine: any use aborts. */
  lemma TagPatternsAbort(fuel: nat, st: Stack, ps: seq<TagPattern<string>>)
    requires st != []
    ensures EvalF(fuel, st, Tags(ps)) == (Panicked("not yet implemented"), st)
  {
  }

  const TestD: Expression := NamedBlock([], "any?", [Ident("c"), Literal(Bool(false))])
  const TestE: Expression := NamedBlock([], "any?", [Ident("c"), Literal(Bool(false)), Ident("b")])
  const TestF: Expression := WhenBlock([WhenClause(Ident("c"), Literal(Str("c"))),
                                        WhenClause(NamedBlock([], "any?", [Ident("d"), Ident("e")]), Literal(Str("d or e")))])
  const TestG: Expression := NamedBlock([], "sum", [Ident("a"), Literal(Number(2.0))])
  const TestH: Expression := NamedBlock([], "sum", [Literal(Invalid), Ident("a"), Literal(Number(2.0))])

  /** The globals of the source's evaluation test, in declaration order. */
  predicate IsTestProfile(defs: seq<Def>)
  {
    && |defs| == 8
    && defs[0] == Def("a", Literal(Number(1.0)))
    && defs[1] == Def("b", Ident("a"))
    && defs[2] == Def("c", Literal(Bool(false)))
    && defs[3] == Def("d", TestD)
    && defs[4] == Def("e", TestE)
    && defs[5] == Def("f", TestF)
    && defs[6] == Def("g", TestG)
    && defs[7] == Def("h", TestH)
  }

  /** The global scope once every test global has been evaluated. */
  const TestGlobals: Scope := map[
    "a" := Evaluated(Number(1.0)), "b" := Evaluated(Number(1.0)), "c" := Evaluated(Bool(false)),
    "d" := Evaluated(Bool(false)), "e" := Evaluated(Bool(true)), "f" := Evaluated(Str("d or e")),
    "g" := Evaluated(Number(3.0)), "h" := Evaluated(Invalid)]

  /** One global evaluates to a value without touching the global scope, and is stored there. */
  lemma GlobalStep(fuel: nat, g: Scope, defs: seq<Def>, i: nat, v: Value)
    requires i < |defs| && EvalF(fuel, [g], defs[i].expr) == (Done(v), [g])
    ensures GlobalsF(fuel, [g], defs, i) == GlobalsF(fuel, [g[defs[i].ident := Evaluated(v)]], defs, i + 1)
  {
    assert Store([g], 0, defs[i].ident, v) == [g[defs[i].ident := Evaluated(v)]];
  }

  /** Looking up an evaluated global from inside one block scope. */
  lemma GlobalFromBlock(fuel: nat, g: Scope, key: string, v: Value)
    requires key in g && g[key] == Evaluated(v)
    ensures LookupF(fuel, [g, map[]], key) == (Done(v), [g, map[]])
  {
    assert [g, map[]][..1] == [g];
    assert Innermost([g], key) == Some(0);
    assert Innermost([g, map[]], key) == Some(0);
  }

  lemma TestEvalD(g: Scope)
    requires "c" in g && g["c"] == Evaluated(Bool(false))
    ensures EvalF(0, [g], TestD) == (Done(Bool(false)), [g])
  {
    var st := [g, map[]];
    assert [g] + [ChildScope([])] == st;
    GlobalFromBlock(0, g, "c", Bool(false));
    assert AnyF(0, st, TestD, 2) == (Done(Bool(false)), st);
    assert AnyF(0, st, TestD, 0) == (Done(Bool(false)), st);
    assert st[..1] == [g];
  }

  lemma TestEvalE(g: Scope)
    requires "c" in g && g["c"] == Evaluated(Bool(false))
    requires "b" in g && g["b"] == Evaluated(Number(1.0))
    ensures EvalF(0, [g], TestE) == (Done(Bool(true)), [g])
  {
    var st := [g, map[]];
    assert [g] + [ChildScope([])] == st;
    GlobalFromBlock(0, g, "c", Bool(false));
    GlobalFromBlock(0, g, "b", Number(1.0));
    assert AnyF(0, st, TestE, 2) == (Done(Bool(true)), st);
    assert AnyF(0, st, TestE, 0) == (Done(Bool(true)), st);
    assert st[..1] == [g];
  }

  lemma TestEvalF(g: Scope)
    requires "c" in g && g["c"] == Evaluated(Bool(false))
    requires "d" in g && g["d"] == Evaluated(Bool(false))
    requires "e" in g && g["e"] == Evaluated(Bool(true))
    ensures EvalF(0, [g], TestF) == (Done(Str("d or e")), [g])
  {
    var cond := TestF.clauses[1].condition;
    var st := [g, map[]];
    assert [g] + [ChildScope([])] == st;
    GlobalFromBlock(0, g, "d", Bool(false));
    GlobalFromBlock(0, g, "e", Bool(true));
    assert AnyF(0, st, cond, 1) == (Done(Bool(true)), st);
    assert AnyF(0, st, cond, 0) == (Done(Bool(true)), st);
    assert st[..1] == [g];
    assert EvalF(0, [g], cond) == (Done(Bool(true)), [g]);
    assert Innermost([g], "c") == Some(0);
    assert WhenF(0, [g], TestF, 1) == (Done(Str("d or e")), [g]);
  }

  lemma TestEvalG(g: Scope)
    requires "a" in g && g["a"] == Evaluated(Number(1.0))
    ensures EvalF(0, [g], TestG) == (Done(Number(3.0)), [g])
  {
    var st := [g, map[]];
    assert [g] + [ChildScope([])] == st;
    GlobalFromBlock(0, g, "a", Number(1.0));
    assert SumF(0, st, TestG, 1, 1.0) == (Done(Number(3.0)), st);
    assert st[..1] == [g];
  }

  lemma TestEvalH(g: Scope)
    ensures EvalF(0, [g], TestH) == (Done(Invalid), [g])
  {
    var st := [g, map[]];
    assert [g] + [ChildScope([])] == st;
    assert st[..1] == [g];
  }

  lemma TestStepsABC(defs: seq<Def>, g0: Scope)
    requires |defs| == 8 && defs[0] == Def("a", Literal(Number(1.0))) && defs[1] == Def("b", Ident("a"))
    requires defs[2] == Def("c", Literal(Bool(false)))
    ensures GlobalsF(0, [g0], defs, 0) ==
      GlobalsF(0, [g0["a" := Evaluated(Number(1.0))]["b" := Evaluated(Number(1.0))]["c" := Evaluated(Bool(false))]], defs, 3)
  {
    var g1 := g0["a" := Evaluated(Number(1.0))];
    var g2 := g1["b" := Evaluated(Number(1.0))];
    GlobalStep(0, g0, defs, 0, Number(1.0));
    assert Innermost([g1], "a") == Some(0);
    GlobalStep(0, g1, defs, 1, Number(1.0));
    GlobalStep(0, g2, defs, 2, Bool(false));
  }

  lemma TestStepD(defs: seq<Def>, g: Scope)
    requires |defs| == 8 && defs[3] == Def("d", TestD)
    requires "c" in g && g["c"] == Evaluated(Bool(false))
    ensures GlobalsF(0, [g], defs, 3) == GlobalsF(0, [g["d" := Evaluated(Bool(false))]], defs, 4)
  {
    TestEvalD(g);
    GlobalStep(0, g, defs, 3, Bool(false));
  }

  lemma TestStepE(defs: seq<Def>, g: Scope)
    requires |defs| == 8 && defs[4] == Def("e", TestE)
    requires "c" in g && g["c"] == Evaluated(Bool(false))
    requires "b" in g && g["b"] == Evaluated(Number(1.0))
    ensures GlobalsF(0, [g], defs, 4) == GlobalsF(0, [g["e" := Evaluated(Bool(true))]], defs, 5)
  {
    TestEvalE(g);
    GlobalStep(0, g, defs, 4, Bool(true));
  }

  lemma TestStepF(defs: seq<Def>, g: Scope)
    requires |defs| == 8 && defs[5] == Def("f", TestF)
    requires "c" in g && g["c"] == Evaluated(Bool(false))
    requires "d" in g && g["d"] == Evaluated(Bool(false))
    requires "e" in g && g["e"] == Evaluated(Bool(true))
    ensures GlobalsF(0, [g], defs, 5) == GlobalsF(0, [g["f" := Evaluated(Str("d or e"))]], defs, 6)
  {
    TestEvalF(g);
    GlobalStep(0, g, defs, 5, Str("d or e"));
  }

  lemma TestStepsGH(defs: seq<Def>, g: Scope)
    requires |defs| == 8 && defs[6] == Def("g", TestG) && defs[7] == Def("h", TestH)
    requires "a" in g && g["a"] == Evaluated(Number(1.0))
    ensures GlobalsF(0, [g], defs, 6) == (Option.None, [g["g" := Evaluated(Number(3.0))]["h" := Evaluated(Invalid)]])
  {
    var g7 := g["g" := Evaluated(Number(3.0))];
    TestEvalG(g);
    GlobalStep(0, g, defs, 6, Number(3.0));
    TestEvalH(g7);
    GlobalStep(0, g7, defs, 7, Invalid);
  }

  /** The global scope after the eight test globals are stored into `g0`, one at a time. */
  function TestStored(g0: Scope): Scope
  {
    g0["a" := Evaluated(Number(1.0))]["b" := Evaluated(Number(1.0))]["c" := Evaluated(Bool(false))]
      ["d" := Evaluated(Bool(false))]["e" := Evaluated(Bool(true))]["f" := Evaluated(Str("d or e"))]
      ["g" := Evaluated(Number(3.0))]["h" := Evaluated(Invalid)]
  }

  lemma TestStoredOverrides(g0: Scope)
    ensures TestStored(g0) == g0 + TestGlobals
  {
  }

  /**
   * The source's evaluation test: the globals evaluate in order, each
   * reference finding an earlier global already evaluated, and the global
   * scope ends holding `TestGlobals` over whatever it held before.
   */
  lemma TestProfileGlobals(defs: seq<Def>, g0: Scope)
    requires IsTestProfile(defs)
    ensures GlobalsF(0, [g0], defs, 0) == (Option.None, [g0 + TestGlobals])
  {
    var g3 := g0["a" := Evaluated(Number(1.0))]["b" := Evaluated(Number(1.0))]["c" := Evaluated(Bool(false))];
    var g4 := g3["d" := Evaluated(Bool(false))];
    var g5 := g4["e" := Evaluated(Bool(true))];
    var g6 := g5["f" := Evaluated(Str("d or e"))];
    TestStepsABC(defs, g0);
    TestStepD(defs, g3);
    TestStepE(defs, g4);
    TestStepF(defs, g5);
    TestStepsGH(defs, g6);
    TestStoredOverrides(g0);
  }

  lemma EmptyThenTest(g0: Scope)
    requires g0 == map[]
    ensures g0 + TestGlobals == TestGlobals
  {
  }

  /** From the empty global scope the source starts with, the globals end as exactly `TestGlobals`. */
  lemma TestProfileFromEmpty(defs: seq<Def>, g0: Scope)
    requires IsTestProfile(defs) && g0 == map[]
    ensures GlobalsF(0, [g0], defs, 0) == (Option.None, [TestGlobals])
  {
    TestProfileGlobals(defs, g0);
    EmptyThenTest(g0);
  }

  /** After the globals, looking up `b`, `e`, `f`, `g` and `h` gives 1, true, "d or e", 3 and invalid. */
  lemma TestProfileLookups()
    ensures LookupF(0, [TestGlobals], "b").0 == Done(Number(1.0))
    ensures LookupF(0, [TestGlobals], "e").0 == Done(Bool(true))
    ensures LookupF(0, [TestGlobals], "f").0 == Done(Str("d or e"))
    ensures LookupF(0, [TestGlobals], "g").0 == Done(Number(3.0))
    ensures LookupF(0, [TestGlobals], "h").0 == Done(Invalid)
  {
    var g := TestGlobals;
    assert Innermost([g], "b") == Some(0) && Innermost([g], "e") == Some(0) && Innermost([g], "f") == Some(0);
    assert Innermost([g], "g") == Some(0) && Innermost([g], "h") == Some(0);
  }
}
