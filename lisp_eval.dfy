/**
 * The evaluator of the time-travelling Lisp (projects/git-timewarp/lisp.py):
 * scopes built from parameter lists, lookup through enclosing scopes, the
 * special forms and the application of closures.
 *
 * Evaluation in the source is unbounded recursion; here it takes a `fuel`
 * argument, the depth of evaluation it may still use, and answers
 * `Exhausted` when that runs out. `EvalMonotone` shows that any other answer
 * stays the same with more fuel, so fuel only decides whether an answer is
 * reached, never which one.
 */
module LispEval {
  import opened Options
  import opened LispValues
  import LispReader

  /** The exceptions evaluation can raise, and running out of fuel. */
  datatype EvalError =
    | LookupError(name: string)
    | TypeError(message: string)
    | ValueError(expected: nat, got: nat)
    | IndexError
    | AssertionError
    | Exhausted

  // ---------------------------------------------------------------------
  // Truth values
  // ---------------------------------------------------------------------

  /** `b` raised to the power `n`. */
  function Pow(b: nat, n: nat): nat
  {
    if n == 0 then 1 else b * Pow(b, n - 1)
  }

  /** The number spelt by the decimal digits of `s`, the decimal point skipped. */
  function DigitsNumber(s: string): nat
  {
    if s == [] then 0
    else if LispReader.IsDigit(s[|s| - 1]) then 10 * DigitsNumber(s[..|s| - 1]) + (s[|s| - 1] as int - '0' as int)
    else DigitsNumber(s[..|s| - 1])
  }

  /** The mantissa of a float literal: the text before any exponent, without the sign. */
  function Mantissa(t: string): string
  {
    var u := LispReader.Unsigned(t);
    u[..LispReader.Skip(u, 0, LispReader.NotExponent)]
  }

  /**
   * The exact value of a decimal float literal as `(digits, exponent)`, which
   * stands for digits × 10^exponent: the mantissa's digits read as one whole
   * number, and the written exponent less the number of fraction digits.
   */
  function Decimal(t: string): (nat, int)
  {
    var u := LispReader.Unsigned(t);
    var k := LispReader.Skip(u, 0, LispReader.NotExponent);
    var m := u[..k];
    var p := LispReader.Skip(m, 0, LispReader.Digit);
    var fraction := if p < |m| then |m| - p - 1 else 0;
    var written := if k < |u| && LispReader.IsIntText(u[k + 1..]) then LispReader.IntValue(u[k + 1..]) else 0;
    (DigitsNumber(m), written - fraction)
  }

  /** The literals of the infinities and of not-a-number, in any case and with either sign. */
  predicate SpecialFloat(t: string)
  {
    var u := LispReader.Unsigned(t);
    LispReader.SameIgnoringCase(u, "inf") || LispReader.SameIgnoringCase(u, "infinity") ||
    LispReader.SameIgnoringCase(u, "nan")
  }

  /** Half the smallest subnormal double is 2^-HalfTiny. */
  const HalfTiny: nat := 1075

  /** The value digits × 10^exponent is zero or at most 2^-HalfTiny. */
  predicate TinyDecimal(digits: nat, exponent: int)
  {
    digits == 0 || (exponent < 0 && digits * Pow(2, HalfTiny) <= Pow(10, -exponent))
  }

  /**
   * Conversion to the nearest double gives zero: the value is zero, or at
   * most half the smallest subnormal double, 2^-1075, where the tie goes to
   * the even neighbour, zero.
   */
  predicate RoundsToZero(t: string)
  {
    TinyDecimal(Decimal(t).0, Decimal(t).1)
  }

  /**
   * The host language's truth test: `None`, `False`, zero, the empty string
   * and the empty list are false. A float literal is false exactly when it
   * converts to a zero double, so a literal too small for a double is false
   * too; the infinities and not-a-number are true.
   */
  predicate Truthy(v: Val)
  {
    match v
    case Nil => false
    case Bool(b) => b
    case Int(i) => i != 0
    case Float(t) => SpecialFloat(t) || !RoundsToZero(t)
    case Str(s) => s != []
    case Sym(n) => n != []
    case List(xs) => xs != []
    case Closure(_, _, _) => true
  }

  lemma {:induction false} PowPositive(b: nat, n: nat)
    requires b > 0
    ensures Pow(b, n) > 0
  {
    if n > 0 {
      PowPositive(b, n - 1);
    }
  }

  lemma {:induction false} PowAdd(b: nat, m: nat, n: nat)
    ensures Pow(b, m + n) == Pow(b, m) * Pow(b, n)
  {
    if n > 0 {
      PowAdd(b, m, n - 1);
      calc {
        Pow(b, m + n);
        b * Pow(b, m + n - 1);
        b * (Pow(b, m) * Pow(b, n - 1));
        Pow(b, m) * (b * Pow(b, n - 1));
      }
    }
  }

  lemma MulGrows(x: nat, y: nat, z: nat)
    requires y <= z
    ensures x * y <= x * z
  {
  }

  lemma PowGrows(b: nat, m: nat, n: nat)
    requires b > 0 && m <= n
    ensures Pow(b, m) <= Pow(b, n)
  {
    PowAdd(b, m, n - m);
    PowPositive(b, n - m);
    MulGrows(Pow(b, m), 1, Pow(b, n - m));
  }

  lemma {:induction false} PowBase(a: nat, b: nat, n: nat)
    requires a <= b
    ensures Pow(a, n) <= Pow(b, n)
    ensures a < b && n > 0 ==> Pow(a, n) < Pow(b, n)
  {
    if n > 0 {
      PowBase(a, b, n - 1);
      if b > 0 {
        PowPositive(b, n - 1);
      }
      assert a * Pow(a, n - 1) <= a * Pow(b, n - 1);
    }
  }

  lemma {:induction false} PowOfPow(k: nat, n: nat)
    ensures Pow(2, k * n) == Pow(Pow(2, k), n)
  {
    if n > 0 {
      PowOfPow(k, n - 1);
      assert k * n == k * (n - 1) + k;
      PowAdd(2, k * (n - 1), k);
    }
  }

  /** Every character of `m` is a zero digit or the decimal point. */
  predicate ZeroDigits(m: string)
  {
    m == [] || ((m[|m| - 1] == '0' || m[|m| - 1] == '.') && ZeroDigits(m[..|m| - 1]))
  }

  lemma {:induction false} ZeroDigitsNumber(m: string)
    requires ZeroDigits(m)
    ensures DigitsNumber(m) == 0
  {
    if m != [] {
      ZeroDigitsNumber(m[..|m| - 1]);
    }
  }

  /** A float literal whose mantissa has only zero digits is false, whatever the sign or exponent. */
  lemma FloatZeroIsFalse(t: string)
    requires !SpecialFloat(t) && ZeroDigits(Mantissa(t))
    ensures !Truthy(Float(t))
  {
    ZeroDigitsNumber(Mantissa(t));
  }

  /** Powers of two against powers of ten: 8^n <= 10^n < 16^n. */
  lemma TwoAgainstTen(n: nat)
    ensures Pow(2, 3 * n) <= Pow(10, n)
    ensures n > 0 ==> Pow(10, n) < Pow(2, 4 * n)
  {
    PowOfPow(3, n);
    PowOfPow(4, n);
    PowBase(8, 10, n);
    PowBase(10, 16, n);
  }

  lemma NotTiny(d: nat, e: int)
    requires d > 0 && e >= -268
    ensures !TinyDecimal(d, e)
  {
    if e < 0 {
      var n: nat := -e;
      TwoAgainstTen(n);
      PowGrows(2, 4 * n, HalfTiny);
      MulGrows(Pow(2, HalfTiny), 1, d);
    }
  }

  lemma Tiny(d: nat, e: int, q: nat)
    requires d < Pow(10, q) && e + q <= -359
    ensures TinyDecimal(d, e)
  {
    var n: nat := 359;
    TwoAgainstTen(n);
    PowGrows(2, HalfTiny, 3 * n);
    PowAdd(10, q, n);
    PowGrows(10, q + n, -e);
    MulGrows(d, Pow(2, HalfTiny), Pow(10, n));
    MulGrows(Pow(10, n), d, Pow(10, q));
  }

  /**
   * A float literal with a non-zero digit converts to a non-zero double, and
   * so is true, when its exponent, counted past the fraction digits, is at
   * least -268.
   */
  lemma FloatNonZeroIsTrue(t: string)
    requires Decimal(t).0 > 0 && Decimal(t).1 >= -268
    ensures Truthy(Float(t))
  {
    NotTiny(Decimal(t).0, Decimal(t).1);
  }

  /**
   * A decimal float literal whose value is below 10^-359 is too small for a
   * double: it converts to zero and is false. `q` bounds its number of digits.
   */
  lemma FloatUnderflowIsFalse(t: string, q: nat)
    requires !SpecialFloat(t)
    requires Decimal(t).0 < Pow(10, q) && Decimal(t).1 + q <= -359
    ensures !Truthy(Float(t))
  {
    Tiny(Decimal(t).0, Decimal(t).1, q);
  }

  /** Zero literals are false whatever their sign or exponent. */
  lemma ZeroExamples()
    ensures !Truthy(Float("0.0")) && !Truthy(Float("-0e7"))
  {
    assert LispReader.Skip("0.0", 0, LispReader.NotExponent) == 3;
    assert Mantissa("0.0") == "0.0";
    assert ZeroDigits("0.0") by { assert "0.0"[..2] == "0." && "0."[..1] == "0" && "0"[..0] == ""; }
    FloatZeroIsFalse("0.0");
    assert LispReader.Skip("0e7", 0, LispReader.NotExponent) == 1;
    assert Mantissa("-0e7") == "0";
    assert ZeroDigits("0") by { assert "0"[..0] == ""; }
    FloatZeroIsFalse("-0e7");
  }

  /** `1e-400` is below the smallest double and is false. */
  lemma UnderflowExample(t: string)
    requires t == "1e-400"
    ensures !Truthy(Float(t))
  {
    assert LispReader.Skip(t, 0, LispReader.NotExponent) == 1;
    assert LispReader.Skip("1", 0, LispReader.Digit) == 1;
    assert LispReader.IntValue("-400") == -400 by {
      assert LispReader.Unsigned("-400") == "400";
      assert "400"[..2] == "40" && "40"[..1] == "4" && "4"[..0] == "";
    }
    assert DigitsNumber("1") == 1 by { assert "1"[..0] == ""; }
    assert Decimal(t) == (1, -400);
    FloatUnderflowIsFalse(t, 1);
  }

  /** The small non-zero literal `0.5` is true. */
  lemma HalfIsTrue(half: string)
    requires half == "0.5"
    ensures Truthy(Float(half))
  {
    assert LispReader.Unsigned(half) == "0.5";
    assert LispReader.Skip("0.5", 0, LispReader.NotExponent) == 3;
    assert "0.5"[..3] == "0.5";
    assert LispReader.Skip("0.5", 0, LispReader.Digit) == 1;
    assert DigitsNumber("0.5") == 5 by { assert "0.5"[..2] == "0." && "0."[..1] == "0" && "0"[..0] == ""; }
    assert Decimal(half) == (5, -1);
    FloatNonZeroIsTrue(half);
  }

  /** The small non-zero literal `1e-3` is true. */
  lemma MilliIsTrue(milli: string)
    requires milli == "1e-3"
    ensures Truthy(Float(milli))
  {
    assert LispReader.Unsigned(milli) == "1e-3";
    assert LispReader.Skip(milli, 0, LispReader.NotExponent) == 1;
    assert "1e-3"[..1] == "1" && "1e-3"[2..] == "-3";
    assert LispReader.Skip("1", 0, LispReader.Digit) == 1;
    assert DigitsNumber("1") == 1 by { assert "1"[..0] == ""; }
    assert LispReader.IsIntText("-3") by {
      assert LispReader.Unsigned("-3") == "3";
    }
    assert LispReader.IntValue("-3") == -3 by {
      assert LispReader.Unsigned("-3") == "3";
      assert "3"[..0] == "";
    }
    assert Decimal(milli) == (1, -3);
    FloatNonZeroIsTrue(milli);
  }

  // ---------------------------------------------------------------------
  // Scopes
  // ---------------------------------------------------------------------

  /** The one-character strings of `s`, which is what pairing a string with the arguments iterates over. */
  function CharKeys(s: string): (r: seq<Val>)
    ensures |r| == |s|
  {
    if s == [] then [] else [Str([s[0]])] + CharKeys(s[1..])
  }

  /**
   * The dictionary built by updating an empty one with the pairs of `params`
   * and `args`, in order: a later key replaces an earlier one, a list key is
   * unhashable, and a key that is not a string is stored where no symbol can
   * find it, so it is left out.
   */
  function Bindings(params: seq<Val>, args: seq<Val>): (r: Result<map<string, Val>, EvalError>)
    requires |params| == |args|
    ensures r.Err? <==> exists k :: 0 <= k < |params| && params[k].List?
    ensures r.Err? ==> r.error == TypeError("unhashable type: 'list'")
  {
    if params == [] then Ok(map[])
    else
      var n := |params| - 1;
      assert forall k :: 0 <= k < n ==> params[..n][k] == params[k];
      match Bindings(params[..n], args[..n])
      case Err(e) => Err(e)
      case Ok(m) =>
        match params[n]
        case List(_) => Err(TypeError("unhashable type: 'list'"))
        case Sym(k) => Ok(m[k := args[n]])
        case Str(k) => Ok(m[k := args[n]])
        case _ => Ok(m)
  }

  /**
   * The scope a call creates under `parent`. A symbol as parameter list binds
   * the whole argument list; otherwise the parameters and arguments must have
   * the same length and are paired up.
   */
  function NewScope(params: Val, args: seq<Val>, parent: Option<Scope>): (r: Result<Scope, EvalError>)
    ensures r.Ok? ==> r.value.parent == parent
  {
    match params
    case Sym(n) => Ok(Scope(map[n := List(args)], parent))
    case List(ps) =>
      if |ps| != |args| then Err(AssertionError)
      else
        (match Bindings(ps, args)
         case Err(e) => Err(e)
         case Ok(m) => Ok(Scope(m, parent)))
    case Str(s) =>
      if |s| != |args| then Err(AssertionError)
      else
        (match Bindings(CharKeys(s), args)
         case Err(e) => Err(e)
         case Ok(m) => Ok(Scope(m, parent)))
    case _ => Err(TypeError("object has no len()"))
  }

  /** The value bound to `name` in the innermost scope that binds it. */
  function Find(sc: Scope, name: string): (r: Result<Val, EvalError>)
    ensures r.Err? ==> r.error == LookupError(name)
    decreases sc
  {
    if name in sc.vars then Ok(sc.vars[name])
    else
      match sc.parent
      case Some(p) => Find(p, name)
      case None => Err(LookupError(name))
  }

  /** The dictionaries of a scope chain, innermost first. */
  function Frames(sc: Scope): (r: seq<map<string, Val>>)
    ensures |r| >= 1 && r[0] == sc.vars
    decreases sc
  {
    [sc.vars] + match sc.parent
                case Some(p) => Frames(p)
                case None => []
  }

  /** The binding of `name` in the first of the dictionaries `fs` that has one. */
  function FirstBinding(fs: seq<map<string, Val>>, name: string): (r: Option<Val>)
  {
    if fs == [] then None
    else if name in fs[0] then Some(fs[0][name])
    else FirstBinding(fs[1..], name)
  }

  /** A name has a first binding exactly when some dictionary binds it, and that binding comes from the first such one. */
  lemma {:induction false} FirstBindingIsFirst(fs: seq<map<string, Val>>, name: string)
    ensures FirstBinding(fs, name).Some? <==> exists k :: 0 <= k < |fs| && name in fs[k]
    ensures FirstBinding(fs, name).Some? ==>
      exists k :: 0 <= k < |fs| && name in fs[k] && fs[k][name] == FirstBinding(fs, name).value &&
        forall j :: 0 <= j < k ==> name !in fs[j]
    decreases |fs|
  {
    if fs != [] && name !in fs[0] {
      var tail := fs[1..];
      FirstBindingIsFirst(tail, name);
      if FirstBinding(tail, name).Some? {
        var k :| 0 <= k < |tail| && name in tail[k] && tail[k][name] == FirstBinding(tail, name).value &&
          forall j :: 0 <= j < k ==> name !in tail[j];
        assert fs[k + 1] == tail[k];
        forall j | 0 <= j < k + 1
          ensures name !in fs[j]
        {
          if j > 0 { assert fs[j] == tail[j - 1]; }
        }
      } else {
        forall k | 0 <= k < |fs|
          ensures name !in fs[k]
        {
          if k > 0 { assert fs[k] == tail[k - 1]; }
        }
      }
    }
  }

  /** Lookup through the scope chain is the first binding among its dictionaries, innermost first. */
  lemma {:induction false} FindFirstFrame(sc: Scope, name: string)
    ensures Find(sc, name) ==
      match FirstBinding(Frames(sc), name)
      case Some(v) => Ok(v)
      case None => Err(LookupError(name))
    decreases sc
  {
    if name !in sc.vars {
      match sc.parent
      case None =>
      case Some(p) =>
        FindFirstFrame(p, name);
        assert Frames(sc)[1..] == Frames(p);
    }
  }

  /** A symbol as parameter list binds the whole argument list, and nothing else. */
  lemma SymbolParamsBindWholeList(n: string, args: seq<Val>, parent: Option<Scope>)
    ensures NewScope(Sym(n), args, parent).Ok?
    ensures NewScope(Sym(n), args, parent).value.vars.Keys == {n}
    ensures Find(NewScope(Sym(n), args, parent).value, n) == Ok(List(args))
  {
  }

  /** Pairing distinct symbols with arguments binds each symbol to its argument. */
  lemma {:induction false} BindingsZip(ps: seq<Val>, args: seq<Val>)
    requires |ps| == |args|
    requires forall i :: 0 <= i < |ps| ==> ps[i].Sym?
    requires forall i, j :: 0 <= i < j < |ps| ==> ps[i].name != ps[j].name
    ensures Bindings(ps, args).Ok?
    ensures forall i :: 0 <= i < |ps| ==> ps[i].name in Bindings(ps, args).value && Bindings(ps, args).value[ps[i].name] == args[i]
  {
    if ps != [] {
      var n := |ps| - 1;
      var front, frontArgs := ps[..n], args[..n];
      assert forall i :: 0 <= i < n ==> front[i] == ps[i] && frontArgs[i] == args[i];
      BindingsZip(front, frontArgs);
      var m := Bindings(front, frontArgs).value;
      var last := ps[n].name;
      assert Bindings(ps, args) == Ok(m[last := args[n]]);
      forall i | 0 <= i < n
        ensures ps[i].name != last
      {
      }
    }
  }

  /** Pairing symbols with arguments binds nothing but the symbols. */
  lemma {:induction false} BindingsOnlyParams(ps: seq<Val>, args: seq<Val>)
    requires |ps| == |args|
    requires forall i :: 0 <= i < |ps| ==> ps[i].Sym?
    ensures Bindings(ps, args).Ok? ==>
      forall k :: k in Bindings(ps, args).value ==> exists i :: 0 <= i < |ps| && ps[i].name == k
  {
    if ps != [] {
      var n := |ps| - 1;
      var front, frontArgs := ps[..n], args[..n];
      BindingsOnlyParams(front, frontArgs);
      if Bindings(ps, args).Ok? {
        var m := Bindings(front, frontArgs).value;
        forall k | k in Bindings(ps, args).value
          ensures exists i :: 0 <= i < |ps| && ps[i].name == k
        {
          if k != ps[n].name {
            var i :| 0 <= i < n && front[i].name == k;
            assert ps[i].name == k;
          }
        }
      }
    }
  }

  /** A call with distinct symbol parameters binds each one to its argument in a child of the given scope. */
  lemma ZipBindsEachParam(ps: seq<Val>, args: seq<Val>, parent: Option<Scope>)
    requires |ps| == |args|
    requires forall i :: 0 <= i < |ps| ==> ps[i].Sym?
    requires forall i, j :: 0 <= i < j < |ps| ==> ps[i].name != ps[j].name
    ensures NewScope(List(ps), args, parent).Ok?
    ensures forall i :: 0 <= i < |ps| ==> Find(NewScope(List(ps), args, parent).value, ps[i].name) == Ok(args[i])
    ensures forall k :: k in NewScope(List(ps), args, parent).value.vars ==> exists i :: 0 <= i < |ps| && ps[i].name == k
  {
    BindingsZip(ps, args);
    BindingsOnlyParams(ps, args);
    var m := Bindings(ps, args).value;
    var s := NewScope(List(ps), args, parent).value;
    assert s.vars == m;
    forall i | 0 <= i < |ps|
      ensures Find(s, ps[i].name) == Ok(args[i])
    {
      assert ps[i].name in s.vars;
    }
  }

  /** A repeated parameter is bound to its last argument. */
  lemma LaterParamWins(a: string, x: Val, y: Val, parent: Option<Scope>)
    ensures NewScope(List([Sym(a), Sym(a)]), [x, y], parent) == Ok(Scope(map[a := y], parent))
  {
    assert [Sym(a), Sym(a)][..1] == [Sym(a)];
    assert [x, y][..1] == [x];
    assert [Sym(a)][..0] == [];
    assert Bindings([Sym(a)], [x]) == Ok(map[a := x]);
    assert map[a := x][a := y] == map[a := y];
  }

  /** The ways building a call scope fails: a length mismatch, a list among the parameters, or a parameter list with no length. */
  lemma NewScopeErrors(ps: seq<Val>, args: seq<Val>, parent: Option<Scope>)
    ensures |ps| != |args| ==> NewScope(List(ps), args, parent) == Err(AssertionError)
    ensures NewScope(List([List([])]), [Nil], parent) == Err(TypeError("unhashable type: 'list'"))
    ensures NewScope(Int(2), [Nil, Nil], parent).Err?
    ensures NewScope(Nil, [], parent).Err?
  {
    assert [List([])][..0] == [];
  }

  /** A string as parameter list binds each of its characters. */
  lemma StringParams(x: Val, y: Val, parent: Option<Scope>)
    ensures NewScope(Str("ab"), [x, y], parent) == Ok(Scope(map["a" := x, "b" := y], parent))
  {
    var keys := CharKeys("ab");
    assert keys == [Str("a"), Str("b")] by {
      assert "ab"[1..] == "b";
      assert "b"[1..] == [];
    }
    assert keys[..1] == [Str("a")];
    assert [x, y][..1] == [x];
    assert [Str("a")][..0] == [];
    assert Bindings([Str("a")], [x]) == Ok(map["a" := x]);
    assert Bindings(keys, [x, y]) == Ok(map["a" := x, "b" := y]);
  }

  // ---------------------------------------------------------------------
  // Evaluation
  // ---------------------------------------------------------------------

  /** The value of expression `e` in scope `sc`. */
  function EvalF(fuel: nat, e: Val, sc: Scope): (r: Result<Val, EvalError>)
    decreases fuel, 0, 0
  {
    if fuel == 0 then Err(Exhausted)
    else
      match e
      case Sym(n) => Find(sc, n)
      case List(items) => if items == [] then Err(IndexError) else FormF(fuel - 1, items, sc)
      case _ => Ok(e)
  }

  /** The value of the non-empty list `items`: a special form by its head symbol, otherwise a call. */
  function FormF(fuel: nat, items: seq<Val>, sc: Scope): (r: Result<Val, EvalError>)
    requires items != []
    decreases fuel, 2, 0
  {
    var head, args := items[0], items[1..];
    if head == Sym("if") then
      if |args| != 3 then Err(ValueError(3, |args|))
      else
        match EvalF(fuel, args[0], sc)
        case Err(e) => Err(e)
        case Ok(c) => EvalF(fuel, if Truthy(c) then args[1] else args[2], sc)
    else if head == Sym("lambda") then
      if |args| != 2 then Err(ValueError(2, |args|))
      else Ok(Closure(args[0], args[1], sc))
    else if head == Sym("quote") then
      if |args| == 1 then Ok(args[0]) else Ok(List(args))
    else if head == Sym("do") then DoF(fuel, args, sc, Nil)
    else if head == Sym("print") then
      match EvalAllF(fuel, args, sc)
      case Err(e) => Err(e)
      case Ok(vs) => Ok(List(vs))
    else if head == Sym("stash!") || head == Sym("pop!") || head == Sym("commit!") then Ok(Nil)
    else
      match EvalAllF(fuel, items, sc)
      case Err(e) => Err(e)
      case Ok(vs) => Apply(fuel, vs[0], vs[1..])
  }

  /** The forms of `args` evaluated in order; the value of the last, or `last` when there are none. */
  function DoF(fuel: nat, args: seq<Val>, sc: Scope, last: Val): (r: Result<Val, EvalError>)
    decreases fuel, 1, |args|
  {
    if args == [] then Ok(last)
    else
      match EvalF(fuel, args[0], sc)
      case Err(e) => Err(e)
      case Ok(v) => DoF(fuel, args[1..], sc, v)
  }

  /** The values of `xs`, evaluated left to right; the first error stops the evaluation. */
  function EvalAllF(fuel: nat, xs: seq<Val>, sc: Scope): (r: Result<seq<Val>, EvalError>)
    ensures r.Ok? ==> |r.value| == |xs|
    decreases fuel, 1, |xs|
  {
    if xs == [] then Ok([])
    else
      match EvalF(fuel, xs[0], sc)
      case Err(e) => Err(e)
      case Ok(v) =>
        match EvalAllF(fuel, xs[1..], sc)
        case Err(e) => Err(e)
        case Ok(vs) => Ok([v] + vs)
  }

  /** Calling `f`: a closure evaluates its body in a new scope under the scope it was created in. */
  function Apply(fuel: nat, f: Val, args: seq<Val>): (r: Result<Val, EvalError>)
    decreases fuel, 1, 0
  {
    match f
    case Closure(params, body, captured) =>
      (match NewScope(params, args, Some(captured))
       case Err(e) => Err(e)
       case Ok(callScope) => EvalF(fuel, body, callScope))
    case _ => Err(TypeError("object is not callable"))
  }

  /** The `do` form as the source runs it: a loop keeping the latest value. */
  method EvalDo(fuel: nat, args: seq<Val>, sc: Scope) returns (r: Result<Val, EvalError>)
    ensures r == DoF(fuel, args, sc, Nil)
  {
    var val := Nil;
    var i := 0;
    while i < |args|
      invariant 0 <= i <= |args|
      invariant DoF(fuel, args, sc, Nil) == DoF(fuel, args[i..], sc, val)
    {
      assert args[i..][1..] == args[i + 1..];
      var v := EvalF(fuel, args[i], sc);
      if v.Err? {
        return v;
      }
      val := v.value;
      i := i + 1;
    }
    return Ok(val);
  }

  // ---------------------------------------------------------------------
  // Properties of evaluation
  // ---------------------------------------------------------------------

  /** An answer other than running out of fuel does not change when more fuel is given. */
  lemma {:induction false} EvalMonotone(fuel: nat, e: Val, sc: Scope)
    requires EvalF(fuel, e, sc) != Err(Exhausted)
    ensures EvalF(fuel + 1, e, sc) == EvalF(fuel, e, sc)
    decreases fuel, 0, 0
  {
    match e
    case List(items) =>
      if items != [] {
        FormMonotone(fuel - 1, items, sc);
      }
    case _ =>
  }

  lemma {:induction false} FormMonotone(fuel: nat, items: seq<Val>, sc: Scope)
    requires items != []
    requires FormF(fuel, items, sc) != Err(Exhausted)
    ensures FormF(fuel + 1, items, sc) == FormF(fuel, items, sc)
    decreases fuel, 2, 0
  {
    var head, args := items[0], items[1..];
    if head == Sym("if") {
      if |args| == 3 {
        EvalMonotone(fuel, args[0], sc);
        var c := EvalF(fuel, args[0], sc);
        if c.Ok? {
          EvalMonotone(fuel, if Truthy(c.value) then args[1] else args[2], sc);
        }
      }
    } else if head == Sym("lambda") || head == Sym("quote") {
    } else if head == Sym("do") {
      DoMonotone(fuel, args, sc, Nil);
    } else if head == Sym("print") {
      EvalAllMonotone(fuel, args, sc);
    } else if head == Sym("stash!") || head == Sym("pop!") || head == Sym("commit!") {
    } else {
      EvalAllMonotone(fuel, items, sc);
      var vs := EvalAllF(fuel, items, sc);
      if vs.Ok? {
        ApplyMonotone(fuel, vs.value[0], vs.value[1..]);
      }
    }
  }

  lemma {:induction false} DoMonotone(fuel: nat, args: seq<Val>, sc: Scope, last: Val)
    requires DoF(fuel, args, sc, last) != Err(Exhausted)
    ensures DoF(fuel + 1, args, sc, last) == DoF(fuel, args, sc, last)
    decreases fuel, 1, |args|
  {
    if args != [] {
      EvalMonotone(fuel, args[0], sc);
      var v := EvalF(fuel, args[0], sc);
      if v.Ok? {
        DoMonotone(fuel, args[1..], sc, v.value);
      }
    }
  }

  lemma {:induction false} EvalAllMonotone(fuel: nat, xs: seq<Val>, sc: Scope)
    requires EvalAllF(fuel, xs, sc) != Err(Exhausted)
    ensures EvalAllF(fuel + 1, xs, sc) == EvalAllF(fuel, xs, sc)
    decreases fuel, 1, |xs|
  {
    if xs != [] {
      EvalMonotone(fuel, xs[0], sc);
      if EvalF(fuel, xs[0], sc).Ok? {
        EvalAllMonotone(fuel, xs[1..], sc);
      }
    }
  }

  lemma {:induction false} ApplyMonotone(fuel: nat, f: Val, args: seq<Val>)
    requires Apply(fuel, f, args) != Err(Exhausted)
    ensures Apply(fuel + 1, f, args) == Apply(fuel, f, args)
    decreases fuel, 1, 0
  {
    if f.Closure? {
      var s := NewScope(f.params, args, Some(f.scope));
      if s.Ok? {
        EvalMonotone(fuel, f.body, s.value);
      }
    }
  }

  /** More fuel in any amount leaves an answer unchanged once it is reached. */
  lemma {:induction false} EvalWithMoreFuel(fuel: nat, more: nat, e: Val, sc: Scope)
    requires fuel <= more
    requires EvalF(fuel, e, sc) != Err(Exhausted)
    ensures EvalF(more, e, sc) == EvalF(fuel, e, sc)
    decreases more - fuel
  {
    if fuel < more {
      EvalMonotone(fuel, e, sc);
      EvalWithMoreFuel(fuel + 1, more, e, sc);
    }
  }

  /** The values of a list of expressions are the values of its elements; an error is the first element's error. */
  lemma {:induction false} EvalAllElementwise(fuel: nat, xs: seq<Val>, sc: Scope)
    ensures EvalAllF(fuel, xs, sc).Ok? ==>
      forall i :: 0 <= i < |xs| ==> EvalF(fuel, xs[i], sc) == Ok(EvalAllF(fuel, xs, sc).value[i])
    ensures EvalAllF(fuel, xs, sc).Err? ==>
      exists k :: 0 <= k < |xs| && EvalF(fuel, xs[k], sc) == Err(EvalAllF(fuel, xs, sc).error) &&
        forall j :: 0 <= j < k ==> EvalF(fuel, xs[j], sc).Ok?
    decreases |xs|
  {
    if xs != [] {
      EvalAllElementwise(fuel, xs[1..], sc);
      var r := EvalAllF(fuel, xs, sc);
      var rest := EvalAllF(fuel, xs[1..], sc);
      if r.Ok? {
        forall i | 0 <= i < |xs|
          ensures EvalF(fuel, xs[i], sc) == Ok(r.value[i])
        {
          if i > 0 { assert xs[i] == xs[1..][i - 1]; }
        }
      } else if EvalF(fuel, xs[0], sc).Ok? {
        var k :| 0 <= k < |xs[1..]| && EvalF(fuel, xs[1..][k], sc) == Err(rest.error) &&
          forall j :: 0 <= j < k ==> EvalF(fuel, xs[1..][j], sc).Ok?;
        assert xs[k + 1] == xs[1..][k];
        forall j | 0 <= j < k + 1
          ensures EvalF(fuel, xs[j], sc).Ok?
        {
          if j > 0 { assert xs[j] == xs[1..][j - 1]; }
        }
      }
    }
  }

  /** `do` over one more form: the earlier forms' error, or the new form's value. */
  lemma {:induction false} DoAppend(fuel: nat, args: seq<Val>, x: Val, sc: Scope, last: Val)
    ensures DoF(fuel, args + [x], sc, last) ==
      match DoF(fuel, args, sc, last)
      case Err(e) => Err(e)
      case Ok(_) => EvalF(fuel, x, sc)
    decreases |args|
  {
    if args == [] {
      assert [] + [x] == [x];
    } else {
      assert (args + [x])[1..] == args[1..] + [x];
      var v := EvalF(fuel, args[0], sc);
      if v.Ok? {
        DoAppend(fuel, args[1..], x, sc, v.value);
      }
    }
  }

  /** A symbol evaluates to its binding in the scope chain; any other atom evaluates to itself. */
  lemma SymbolsLookedUpAtomsSelfEvaluate(fuel: nat, e: Val, sc: Scope)
    requires fuel > 0
    ensures e.Sym? ==> EvalF(fuel, e, sc) == Find(sc, e.name)
    ensures !e.Sym? && !e.List? ==> EvalF(fuel, e, sc) == Ok(e)
    ensures e == List([]) ==> EvalF(fuel, e, sc) == Err(IndexError)
  {
  }

  /** `(do)` is `None`; `(do a1 ... an)` is the value of `an` once the forms before it succeed. */
  lemma DoReturnsLast(fuel: nat, args: seq<Val>, x: Val, sc: Scope)
    requires fuel > 0
    ensures EvalF(fuel, List([Sym("do")]), sc) == Ok(Nil)
    ensures DoF(fuel - 1, args, sc, Nil).Ok? ==>
      EvalF(fuel, List([Sym("do")] + args + [x]), sc) == EvalF(fuel - 1, x, sc)
  {
    var items := [Sym("do")] + args + [x];
    assert items[1..] == args + [x];
    assert [Sym("do")][1..] == [];
    assert FormF(fuel - 1, [Sym("do")], sc) == DoF(fuel - 1, [], sc, Nil);
    assert EvalF(fuel, List(items), sc) == FormF(fuel - 1, items, sc) == DoF(fuel - 1, args + [x], sc, Nil);
    DoAppend(fuel - 1, args, x, sc, Nil);
  }

  /** `if` evaluates its condition, then exactly one branch: the other one may be anything. */
  lemma IfTakesOneBranch(fuel: nat, c: Val, t: Val, f: Val, other: Val, sc: Scope)
    requires fuel > 0 && EvalF(fuel - 1, c, sc).Ok?
    ensures Truthy(EvalF(fuel - 1, c, sc).value) ==>
      EvalF(fuel, List([Sym("if"), c, t, f]), sc) == EvalF(fuel - 1, t, sc) &&
      EvalF(fuel, List([Sym("if"), c, t, f]), sc) == EvalF(fuel, List([Sym("if"), c, t, other]), sc)
    ensures !Truthy(EvalF(fuel - 1, c, sc).value) ==>
      EvalF(fuel, List([Sym("if"), c, t, f]), sc) == EvalF(fuel - 1, f, sc) &&
      EvalF(fuel, List([Sym("if"), c, t, f]), sc) == EvalF(fuel, List([Sym("if"), c, other, f]), sc)
  {
    assert [Sym("if"), c, t, f][1..] == [c, t, f];
    assert [Sym("if"), c, t, other][1..] == [c, t, other];
    assert [Sym("if"), c, other, f][1..] == [c, other, f];
  }

  /** An `if` without exactly a condition and two branches fails to unpack before evaluating anything. */
  lemma IfNeedsThreeParts(fuel: nat, args: seq<Val>, sc: Scope)
    requires fuel > 0 && |args| != 3
    ensures EvalF(fuel, List([Sym("if")] + args), sc) == Err(ValueError(3, |args|))
  {
    assert ([Sym("if")] + args)[1..] == args;
  }

  /** `quote` with one argument returns it unevaluated, with any other number the argument list. */
  lemma QuoteReturnsUnevaluated(fuel: nat, args: seq<Val>, sc: Scope)
    requires fuel > 0
    ensures |args| == 1 ==> EvalF(fuel, List([Sym("quote")] + args), sc) == Ok(args[0])
    ensures |args| != 1 ==> EvalF(fuel, List([Sym("quote")] + args), sc) == Ok(List(args))
  {
    assert ([Sym("quote")] + args)[1..] == args;
  }

  /** Only closures can be called. */
  lemma OnlyClosuresCallable(fuel: nat, f: Val, args: seq<Val>)
    requires !f.Closure?
    ensures Apply(fuel, f, args) == Err(TypeError("object is not callable"))
  {
  }

  /** Each value quoted, so that evaluating it gives the value back. */
  function QuoteEach(vs: seq<Val>): (r: seq<Val>)
    ensures |r| == |vs|
  {
    if vs == [] then [] else [List([Sym("quote"), vs[0]])] + QuoteEach(vs[1..])
  }

  lemma {:induction false} EvalQuoted(fuel: nat, vs: seq<Val>, sc: Scope)
    requires fuel > 0
    ensures EvalAllF(fuel, QuoteEach(vs), sc) == Ok(vs)
    decreases |vs|
  {
    if vs != [] {
      var q := List([Sym("quote"), vs[0]]);
      QuoteReturnsUnevaluated(fuel, [vs[0]], sc);
      assert [Sym("quote")] + [vs[0]] == [Sym("quote"), vs[0]];
      assert QuoteEach(vs)[1..] == QuoteEach(vs[1..]);
      EvalQuoted(fuel, vs[1..], sc);
      assert [vs[0]] + vs[1..] == vs;
    }
  }

  /**
   * Calling a closure evaluates its body in a new scope under the scope the
   * closure captured: the scope of the call site plays no part.
   */
  lemma ClosureCallUsesCapturedScope(fuel: nat, params: Val, body: Val, captured: Scope, vs: seq<Val>, sc: Scope)
    requires fuel >= 2
    ensures EvalF(fuel, List([Closure(params, body, captured)] + QuoteEach(vs)), sc) ==
      match NewScope(params, vs, Some(captured))
      case Err(e) => Err(e)
      case Ok(callScope) => EvalF(fuel - 1, body, callScope)
  {
    var f := Closure(params, body, captured);
    var items := [f] + QuoteEach(vs);
    assert items[0] == f && items[1..] == QuoteEach(vs);
    EvalQuoted(fuel - 1, vs, sc);
    assert EvalAllF(fuel - 1, items, sc) == Ok([f] + vs);
    assert ([f] + vs)[1..] == vs;
    assert EvalF(fuel, List(items), sc) == FormF(fuel - 1, items, sc) == Apply(fuel - 1, f, vs);
  }

  /** `((lambda params body) args...)` evaluates `body` with the parameters bound in a child of the current scope. */
  lemma LambdaCall(fuel: nat, params: Val, body: Val, vs: seq<Val>, sc: Scope)
    requires fuel >= 2
    ensures EvalF(fuel, List([List([Sym("lambda"), params, body])] + QuoteEach(vs)), sc) ==
      match NewScope(params, vs, Some(sc))
      case Err(e) => Err(e)
      case Ok(callScope) => EvalF(fuel - 1, body, callScope)
  {
    var lam := List([Sym("lambda"), params, body]);
    var f := Closure(params, body, sc);
    assert [Sym("lambda"), params, body][1..] == [params, body];
    assert EvalF(fuel - 1, lam, sc) == Ok(f);
    var items := [lam] + QuoteEach(vs);
    assert items[0] == lam && items[1..] == QuoteEach(vs);
    EvalQuoted(fuel - 1, vs, sc);
    assert EvalAllF(fuel - 1, items, sc) == Ok([f] + vs);
    assert ([f] + vs)[1..] == vs;
    assert EvalF(fuel, List(items), sc) == FormF(fuel - 1, items, sc) == Apply(fuel - 1, f, vs);
  }

  /** Reading a quoted datum and evaluating it gives the datum back, in any scope. */
  lemma QuotedDatumEvaluatesToItself(v: Val, rest: seq<LispReader.Token>, fuel: nat, sc: Scope)
    requires LispReader.Datum(v) && fuel > 0
    ensures LispReader.ParseF([LispReader.Tok("'")] + LispReader.Unparse(v) + rest, 0).Ok?
    ensures EvalF(fuel, LispReader.ParseF([LispReader.Tok("'")] + LispReader.Unparse(v) + rest, 0).value.0, sc) == Ok(v)
  {
    LispReader.ParseQuoted(v, rest);
    QuoteReturnsUnevaluated(fuel, [v], sc);
    assert [Sym("quote")] + [v] == [Sym("quote"), v];
  }
}
