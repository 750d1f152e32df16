/**
 * The lint-rule framework of squabble (squabble/rules/__init__.py): rule
 * metadata read from the class docstring, the registry of known rules, and
 * the `AddColumnDisallowConstraints` rule as first written in that file.
 *
 * A rule class is a name and an optional docstring. A parsed
 * `ALTER TABLE` command is reduced to what the rule inspects: its subtype
 * and the column definition with its constraints.
 */
module SquabbleRules {
  import opened Options

  // ---------------------------------------------------------------------
  // Docstring handling
  // ---------------------------------------------------------------------

  /** The characters the string `strip` method removes (the ASCII ones). */
  predicate IsWhitespace(c: char)
  {
    c == ' ' || ('\t' <= c <= '\r') || (0x1c <= c as int <= 0x1f)
  }

  /** `s` without its leading whitespace. */
  function TrimStart(s: string): (r: string)
    ensures |r| <= |s|
  {
    if s != [] && IsWhitespace(s[0]) then TrimStart(s[1..]) else s
  }

  /** `s` without its trailing whitespace. */
  function TrimEnd(s: string): (r: string)
    ensures |r| <= |s|
  {
    if s != [] && IsWhitespace(s[|s| - 1]) then TrimEnd(s[..|s| - 1]) else s
  }

  /** Trimming the start removes a prefix made of whitespace only, up to the first other character. */
  lemma {:induction false} TrimStartSpec(s: string)
    ensures TrimStart(s) == s[|s| - |TrimStart(s)|..]
    ensures TrimStart(s) == [] || !IsWhitespace(TrimStart(s)[0])
    ensures forall k :: 0 <= k < |s| - |TrimStart(s)| ==> IsWhitespace(s[k])
  {
    if s != [] && IsWhitespace(s[0]) {
      TrimStartSpec(s[1..]);
      forall k | 0 < k < |s| - |TrimStart(s)|
        ensures IsWhitespace(s[k])
      {
        assert s[k] == s[1..][k - 1];
      }
    }
  }

  /** Trimming the end removes a suffix made of whitespace only, back to the last other character. */
  lemma {:induction false} TrimEndSpec(s: string)
    ensures TrimEnd(s) == s[..|TrimEnd(s)|]
    ensures TrimEnd(s) == [] || !IsWhitespace(TrimEnd(s)[|TrimEnd(s)| - 1])
    ensures forall k :: |TrimEnd(s)| <= k < |s| ==> IsWhitespace(s[k])
  {
    if s != [] && IsWhitespace(s[|s| - 1]) {
      var t := s[..|s| - 1];
      TrimEndSpec(t);
      assert TrimEnd(s) == t[..|TrimEnd(s)|];
      forall k | |TrimEnd(s)| <= k < |s|
        ensures IsWhitespace(s[k])
      {
        if k < |s| - 1 { assert s[k] == t[k]; }
      }
    }
  }

  /** `strip()`: never longer, and without whitespace at either end. */
  function Strip(s: string): (r: string)
    ensures |r| <= |s|
    ensures r != [] ==> !IsWhitespace(r[0]) && !IsWhitespace(r[|r| - 1])
  {
    TrimStartSpec(s);
    TrimEndSpec(TrimStart(s));
    TrimEnd(TrimStart(s))
  }

  /** Stripping keeps a middle part of the text, removes only whitespace, and leaves none at either end. */
  lemma StripKeepsMiddle(s: string)
    ensures var r, i := Strip(s), |s| - |TrimStart(s)|;
      i + |r| <= |s| && r == s[i..i + |r|] &&
      (forall k :: 0 <= k < i ==> IsWhitespace(s[k])) &&
      (forall k :: i + |r| <= k < |s| ==> IsWhitespace(s[k]))
    ensures Strip(s) == [] || (!IsWhitespace(Strip(s)[0]) && !IsWhitespace(Strip(s)[|Strip(s)| - 1]))
  {
    var t := TrimStart(s);
    var r := TrimEnd(t);
    var i := |s| - |t|;
    TrimStartSpec(s);
    TrimEndSpec(t);
    assert r == s[i..i + |r|];
    forall k | i + |r| <= k < |s|
      ensures IsWhitespace(s[k])
    {
      assert s[k] == t[k - i];
    }
    if r != [] {
      assert r[0] == t[0];
    }
  }

  /** Stripping twice is stripping once. */
  lemma StripIdempotent(s: string)
    ensures Strip(Strip(s)) == Strip(s)
  {
    StripKeepsMiddle(s);
    var r := Strip(s);
    if r != [] {
      assert TrimStart(r) == r;
      assert TrimEnd(r) == r;
    }
  }

  /** The position of the first `c` in `s`, if any. */
  function FirstIndex(s: string, c: char): (r: Option<nat>)
    ensures r.Some? ==> r.value < |s| && s[r.value] == c && c !in s[..r.value]
    ensures r.None? ==> c !in s
  {
    if s == [] then None
    else if s[0] == c then Some(0)
    else
      match FirstIndex(s[1..], c)
      case None => None
      case Some(k) =>
        assert s[..k + 1] == [s[0]] + s[1..][..k];
        Some(k + 1)
  }

  // ---------------------------------------------------------------------
  // Rule metadata and the registry
  // ---------------------------------------------------------------------

  datatype RuleClass = RuleClass(name: string, doc: Option<string>)

  datatype Meta = Meta(name: string, description: string, help: Option<string>)

  /**
   * A rule's metadata: its class name, and its stripped docstring split at
   * the first newline into a one-line description and the help text.
   */
  function MetaOf(cls: RuleClass): (m: Meta)
    ensures m.name == cls.name
  {
    var text := Strip(if cls.doc.Some? then cls.doc.value else "");
    match FirstIndex(text, '\n')
    case None => Meta(cls.name, text, None)
    case Some(k) => Meta(cls.name, text[..k], Some(text[k + 1..]))
  }

  /**
   * The description is a single line; there is help exactly when the stripped
   * docstring has a newline, and description, newline and help put back
   * together give the stripped docstring.
   */
  lemma MetaSplitsDocstring(cls: RuleClass)
    ensures var text := Strip(if cls.doc.Some? then cls.doc.value else "");
      var m := MetaOf(cls);
      '\n' !in m.description &&
      (m.help.None? <==> '\n' !in text) &&
      (m.help.None? ==> m.description == text) &&
      (m.help.Some? ==> m.description + "\n" + m.help.value == text)
  {
    var text := Strip(if cls.doc.Some? then cls.doc.value else "");
    var f := FirstIndex(text, '\n');
    if f.Some? {
      var k := f.value;
      assert text[..k] + "\n" + text[k + 1..] == text;
    }
  }

  /** A class without a docstring is described by the empty string and has no help. */
  lemma MetaWithoutDocstring(name: string)
    ensures MetaOf(RuleClass(name, None)) == Meta(name, "", None)
  {
  }

  /** What the registry keeps for a rule. */
  datatype Registration = Registration(cls: RuleClass, meta: Meta)

  function Entry(cls: RuleClass): Registration
  {
    Registration(cls, MetaOf(cls))
  }

  /** The registry after registering `classes` in order, starting from `known`. */
  function RegisterAll(known: map<string, Registration>, classes: seq<RuleClass>): (r: map<string, Registration>)
    ensures r.Keys == known.Keys + set c | c in classes :: c.name
  {
    if classes == [] then known
    else
      var n := |classes| - 1;
      RegisterAll(known, classes[..n])[classes[n].name := Entry(classes[n])]
  }

  /** The position of the last class named `name`, if any. */
  function LastNamed(classes: seq<RuleClass>, name: string): (r: Option<nat>)
    ensures r.Some? ==> r.value < |classes|
  {
    if classes == [] then None
    else if classes[|classes| - 1].name == name then Some(|classes| - 1)
    else LastNamed(classes[..|classes| - 1], name)
  }

  /** The last class with a name has that name, and no later class does; without one, no class has the name. */
  lemma {:induction false} LastNamedSpec(classes: seq<RuleClass>, name: string)
    ensures LastNamed(classes, name).Some? ==>
      var i := LastNamed(classes, name).value;
      classes[i].name == name && forall j :: i < j < |classes| ==> classes[j].name != name
    ensures LastNamed(classes, name).None? ==> forall j :: 0 <= j < |classes| ==> classes[j].name != name
  {
    if classes != [] && classes[|classes| - 1].name != name {
      var front := classes[..|classes| - 1];
      LastNamedSpec(front, name);
      assert forall j :: 0 <= j < |front| ==> front[j] == classes[j];
    }
  }

  /** The entry for `name` in a table, if any. */
  function Lookup(table: map<string, Registration>, name: string): Option<Registration>
  {
    if name in table then Some(table[name]) else None
  }

  /**
   * After a run of registrations the entry for a name is the one of the last
   * class with that name: a later registration overwrites an earlier one, and
   * names no class has keep their earlier entry.
   */
  lemma {:induction false} RegisterAllLastWins(known: map<string, Registration>, classes: seq<RuleClass>, name: string)
    ensures Lookup(RegisterAll(known, classes), name) ==
      match LastNamed(classes, name)
      case Some(i) => Some(Entry(classes[i]))
      case None => Lookup(known, name)
  {
    if classes != [] {
      var n := |classes| - 1;
      var front := classes[..n];
      RegisterAllLastWins(known, front, name);
      if classes[n].name != name {
        assert LastNamed(classes, name) == LastNamed(front, name);
        if LastNamed(front, name).Some? {
          assert front[LastNamed(front, name).value] == classes[LastNamed(front, name).value];
        }
      }
    }
  }

  /** The global table of known rules. */
  class Registry {
    var knownRules: map<string, Registration>

    constructor ()
      ensures knownRules == map[]
    {
      knownRules := map[];
    }

    /** Stores the class and its metadata under the rule's name, replacing any earlier entry. */
    method RegisterRule(cls: RuleClass)
      modifies this
      ensures knownRules == RegisterAll(old(knownRules), [cls])
    {
      assert [cls][..0] == [];
      knownRules := knownRules[cls.name := Entry(cls)];
    }

    /** Defining a subclass of `Rule` registers it. */
    method DefineSubclass(cls: RuleClass)
      modifies this
      ensures knownRules == RegisterAll(old(knownRules), [cls])
    {
      RegisterRule(cls);
    }
  }

  /** Registering one more class extends a run of registrations. */
  lemma RegisterOneMore(known: map<string, Registration>, classes: seq<RuleClass>, cls: RuleClass)
    ensures RegisterAll(known, classes + [cls]) == RegisterAll(RegisterAll(known, classes), [cls])
  {
    assert (classes + [cls])[..|classes|] == classes;
    assert [cls][..0] == [];
  }

  // ---------------------------------------------------------------------
  // The parsed command the rule inspects
  // ---------------------------------------------------------------------

  /** The constraint kinds the rule can be configured with, and every other kind. */
  datatype ConstrType = Default | Null | NotNull | Foreign | Unique | OtherConstraint(code: int)

  datatype Constraint = Constraint(contype: ConstrType, location: int)

  datatype AlterTableType = AddColumn | OtherCommand(code: int)

  /** A column definition; `None` stands for a constraint list the parser left missing. */
  datatype ColumnDef = ColumnDef(colname: string, constraints: Option<seq<Constraint>>)

  datatype AlterTableCmd = AlterTableCmd(subtype: AlterTableType, def: ColumnDef)

  // ---------------------------------------------------------------------
  // Configuration
  // ---------------------------------------------------------------------

  /** A rule's options: each option name with its list of strings. */
  type RuleOptions = map<string, seq<string>>

  datatype ConfigError = RuleConfigurationException(message: string) | KeyError(key: string) | TypeError(message: string)

  /** The configuration names of the constraint kinds. */
  const ConstraintMap: map<string, ConstrType> :=
    map["DEFAULT" := Default, "NULL" := Null, "NOT NULL" := NotNull, "FOREIGN" := Foreign, "UNIQUE" := Unique]

  function UpperChar(c: char): char
  {
    if 'a' <= c <= 'z' then (c as int - 32) as char else c
  }

  /** ASCII upper-casing. */
  function Upper(s: string): (r: string)
    ensures |r| == |s|
  {
    if s == [] then [] else [UpperChar(s[0])] + Upper(s[1..])
  }

  /** The constraint kinds of the configured names, in order; the first unknown name is a key error. */
  function MapNames(names: seq<string>): (r: Result<seq<ConstrType>, ConfigError>)
    ensures r.Ok? ==> |r.value| == |names|
    ensures r.Ok? ==> forall t :: t in r.value ==> t in ConstraintMap.Values
  {
    if names == [] then Ok([])
    else if Upper(names[0]) !in ConstraintMap then Err(KeyError(Upper(names[0])))
    else
      match MapNames(names[1..])
      case Err(e) => Err(e)
      case Ok(ts) => Ok([ConstraintMap[Upper(names[0])]] + ts)
  }

  /** The blocked constraint kinds a configuration asks for, or why it is rejected. */
  function ConfigureF(opts: RuleOptions): (r: Result<set<ConstrType>, ConfigError>)
    ensures ("disallowed" !in opts || opts["disallowed"] == []) ==>
      r == Err(RuleConfigurationException("must specify `disallowed` constraints"))
    ensures r.Ok? ==> r.value != {} && forall t :: t in r.value ==> t in ConstraintMap.Values
  {
    if "disallowed" !in opts || opts["disallowed"] == [] then
      Err(RuleConfigurationException("must specify `disallowed` constraints"))
    else
      match MapNames(opts["disallowed"])
      case Err(e) => Err(e)
      case Ok(ts) =>
        var kinds := set t | t in ts;
        assert ts[0] in kinds;
        assert forall t :: t in kinds ==> t in ts;
        Ok(kinds)
  }

  /**
   * `Rule.__init__(self, options)` reached through `super()` with `given`
   * positional arguments after the bound instance: it takes exactly one.
   */
  function RuleInit(given: nat): (r: Result<(), ConfigError>)
    ensures r.Ok? <==> given == 1
  {
    if given == 1 then Ok(())
    else Err(TypeError("__init__() takes 2 positional arguments but " + ShowCount(given + 1) + " were given"))
  }

  /** The decimal digits of a small count, as the interpreter writes it in a message. */
  function ShowCount(n: nat): string
  {
    if n < 10 then [('0' as int + n) as char] else ShowCount(n / 10) + [('0' as int + n % 10) as char]
  }

  /**
   * The constructor as written: `super().__init__(self, opts)` hands the
   * instance over again besides the options, two arguments where the base
   * class takes one, before any of the validation runs.
   */
  function ConfigureAsWritten(opts: RuleOptions): (r: Result<set<ConstrType>, ConfigError>)
    ensures r.Ok? ==> r == ConfigureF(opts)
  {
    match RuleInit(2)
    case Err(e) => Err(e)
    case Ok(_) => ConfigureF(opts)
  }

  /**
   * Every construction as written fails with the base class's arity error,
   * even for a configuration the validation accepts; with the options passed
   * on alone the base call succeeds and the validation decides.
   */
  lemma SuperInitRejectsEverything(opts: RuleOptions)
    ensures ConfigureAsWritten(opts) == Err(TypeError("__init__() takes 2 positional arguments but 3 were given"))
    ensures RuleInit(1).Ok?
    ensures ConfigureF(map["disallowed" := ["unique"]]) == Ok({Unique})
  {
    assert ShowCount(3) == "3";
    assert "__init__() takes 2 positional arguments but " + "3" + " were given"
      == "__init__() takes 2 positional arguments but 3 were given";
    var names := ["unique"];
    assert Upper("unique") == "UNIQUE" by {
      assert "unique"[1..] == "nique" && "nique"[1..] == "ique" && "ique"[1..] == "que";
      assert "que"[1..] == "ue" && "ue"[1..] == "e" && "e"[1..] == [];
    }
    assert names[1..] == [] && MapNames([]) == Ok([]);
    assert ConstraintMap["UNIQUE"] == Unique;
    assert [Unique] + [] == [Unique];
    assert MapNames(names) == Ok([Unique]);
    assert (set t | t in [Unique]) == {Unique};
  }

  /** Names are looked up in order: all known gives their kinds; otherwise the first unknown one is reported. */
  lemma {:induction false} MapNamesSpec(names: seq<string>)
    ensures MapNames(names).Ok? <==> forall i :: 0 <= i < |names| ==> Upper(names[i]) in ConstraintMap
    ensures MapNames(names).Ok? ==>
      forall i :: 0 <= i < |names| ==> MapNames(names).value[i] == ConstraintMap[Upper(names[i])]
    ensures MapNames(names).Err? ==>
      exists i :: 0 <= i < |names| && MapNames(names).error == KeyError(Upper(names[i])) &&
        Upper(names[i]) !in ConstraintMap &&
        forall j :: 0 <= j < i ==> Upper(names[j]) in ConstraintMap
  {
    if names != [] {
      var tail := names[1..];
      MapNamesSpec(tail);
      assert forall i :: 0 < i < |names| ==> names[i] == tail[i - 1];
      if MapNames(names).Ok? {
        var ts := MapNames(tail).value;
        forall i | 0 <= i < |names|
          ensures MapNames(names).value[i] == ConstraintMap[Upper(names[i])]
        {
          if i > 0 { assert MapNames(names).value[i] == ts[i - 1]; }
        }
      } else if Upper(names[0]) in ConstraintMap {
        var i :| 0 <= i < |tail| && MapNames(tail).error == KeyError(Upper(tail[i])) &&
          Upper(tail[i]) !in ConstraintMap && forall j :: 0 <= j < i ==> Upper(tail[j]) in ConstraintMap;
        assert names[i + 1] == tail[i];
        forall j | 0 <= j < i + 1
          ensures Upper(names[j]) in ConstraintMap
        {
          if j > 0 { assert names[j] == tail[j - 1]; }
        }
      }
    }
  }

  /**
   * A configuration is accepted exactly when it names at least one
   * constraint and every name is known once upper-cased; the blocked kinds
   * are then the kinds of the configured names.
   */
  lemma ConfigureAcceptsKnownNames(opts: RuleOptions)
    ensures ConfigureF(opts).Ok? <==>
      "disallowed" in opts && opts["disallowed"] != [] &&
      forall i :: 0 <= i < |opts["disallowed"]| ==> Upper(opts["disallowed"][i]) in ConstraintMap
    ensures ConfigureF(opts).Ok? ==>
      forall t :: t in ConfigureF(opts).value <==>
        exists i :: 0 <= i < |opts["disallowed"]| && t == ConstraintMap[Upper(opts["disallowed"][i])]
    ensures "disallowed" !in opts || opts["disallowed"] == [] ==>
      ConfigureF(opts) == Err(RuleConfigurationException("must specify `disallowed` constraints"))
  {
    if "disallowed" in opts && opts["disallowed"] != [] {
      var names := opts["disallowed"];
      MapNamesSpec(names);
      if MapNames(names).Ok? {
        var ts := MapNames(names).value;
        forall t
          ensures t in ConfigureF(opts).value <==>
            exists i :: 0 <= i < |names| && t == ConstraintMap[Upper(names[i])]
        {
          if t in ConfigureF(opts).value {
            var i :| 0 <= i < |ts| && ts[i] == t;
            assert t == ConstraintMap[Upper(names[i])];
          }
          if exists i :: 0 <= i < |names| && t == ConstraintMap[Upper(names[i])] {
            var i :| 0 <= i < |names| && t == ConstraintMap[Upper(names[i])];
            assert ts[i] == t;
          }
        }
      }
    }
  }

  /** Configuration is case-insensitive: names that upper-case alike configure alike, errors included. */
  lemma {:induction false} MapNamesIgnoresCase(a: seq<string>, b: seq<string>)
    requires |a| == |b| && forall i :: 0 <= i < |a| ==> Upper(a[i]) == Upper(b[i])
    ensures MapNames(a) == MapNames(b)
  {
    if a != [] {
      assert forall i :: 0 <= i < |a| - 1 ==> a[1..][i] == a[i + 1] && b[1..][i] == b[i + 1];
      MapNamesIgnoresCase(a[1..], b[1..]);
    }
  }

  lemma ConfigureIgnoresCase(opts: RuleOptions, names: seq<string>)
    requires "disallowed" in opts && |names| == |opts["disallowed"]|
    requires forall i :: 0 <= i < |names| ==> Upper(names[i]) == Upper(opts["disallowed"][i])
    ensures ConfigureF(opts["disallowed" := names]) == ConfigureF(opts)
  {
    MapNamesIgnoresCase(names, opts["disallowed"]);
  }

  lemma LowerCaseNames()
    ensures Upper("not null") == "NOT NULL" && Upper("Foreign") == "FOREIGN"
  {
    UpperNotNull();
    UpperForeign();
  }

  /** Upper-casing works character by character. */
  lemma {:induction false} UpperAt(s: string)
    ensures forall i :: 0 <= i < |s| ==> Upper(s)[i] == UpperChar(s[i])
  {
    if s != [] {
      UpperAt(s[1..]);
      assert forall i :: 1 <= i < |s| ==> Upper(s)[i] == Upper(s[1..])[i - 1];
    }
  }

  lemma UpperNotNull()
    ensures Upper("not null") == "NOT NULL"
  {
    var s := "not null";
    UpperAt(s);
    var u := Upper(s);
    assert u[0] == 'N' && u[1] == 'O' && u[2] == 'T' && u[3] == ' ';
    assert u[4] == 'N' && u[5] == 'U' && u[6] == 'L' && u[7] == 'L';
  }

  lemma UpperForeign()
    ensures Upper("Foreign") == "FOREIGN"
  {
    var s := "Foreign";
    UpperAt(s);
    var u := Upper(s);
    assert u[0] == 'F' && u[1] == 'O' && u[2] == 'R' && u[3] == 'E';
    assert u[4] == 'I' && u[5] == 'G' && u[6] == 'N';
  }

  /** The loop that turns the configured names into constraint kinds. */
  method CollectConstraints(names: seq<string>) returns (r: Result<seq<ConstrType>, ConfigError>)
    ensures r == MapNames(names)
  {
    var constraints: seq<ConstrType> := [];
    assert names[0..] == names;
    assert MapNames(names).Ok? ==> [] + MapNames(names).value == MapNames(names).value;
    for i := 0 to |names|
      invariant MapNames(names) == Prepend(constraints, MapNames(names[i..]))
    {
      assert names[i..][1..] == names[i + 1..];
      var key := Upper(names[i]);
      if key !in ConstraintMap {
        return Err(KeyError(key));
      }
      ghost var later := MapNames(names[i + 1..]);
      assert Prepend(constraints, Prepend([ConstraintMap[key]], later)) ==
        Prepend(constraints + [ConstraintMap[key]], later) by {
        if later.Ok? {
          assert constraints + ([ConstraintMap[key]] + later.value) == constraints + [ConstraintMap[key]] + later.value;
        }
      }
      constraints := constraints + [ConstraintMap[key]];
    }
    assert names[|names|..] == [];
    assert constraints + [] == constraints;
    return Ok(constraints);
  }

  function Prepend(p: seq<ConstrType>, r: Result<seq<ConstrType>, ConfigError>): Result<seq<ConstrType>, ConfigError>
  {
    match r
    case Err(e) => Err(e)
    case Ok(ts) => Ok(p + ts)
  }

  // ---------------------------------------------------------------------
  // Checking a command
  // ---------------------------------------------------------------------

  /** The constraints in `cs` whose kind is blocked, in their order. */
  function Blocked(blocked: set<ConstrType>, cs: seq<Constraint>): (r: seq<Constraint>)
    ensures |r| <= |cs|
  {
    if cs == [] then []
    else
      var n := |cs| - 1;
      Blocked(blocked, cs[..n]) + (if cs[n].contype in blocked then [cs[n]] else [])
  }

  /** Scanning one more constraint flags it when its kind is blocked. */
  lemma BlockedStep(blocked: set<ConstrType>, cs: seq<Constraint>, i: nat)
    requires i < |cs|
    ensures Blocked(blocked, cs[..i + 1]) == Blocked(blocked, cs[..i]) + (if cs[i].contype in blocked then [cs[i]] else [])
  {
    assert cs[..i + 1][..i] == cs[..i];
  }

  /** The constraints a command is flagged for: only adding a column with a constraint list is inspected. */
  function Violations(blocked: set<ConstrType>, cmd: AlterTableCmd): (r: seq<Constraint>)
    ensures forall c :: c in r <==>
      cmd.subtype == AddColumn && cmd.def.constraints.Some? && c in cmd.def.constraints.value && c.contype in blocked
  {
    if cmd.subtype != AddColumn then []
    else
      match cmd.def.constraints
      case None => []
      case Some(cs) =>
        BlockedMembers(blocked, cs);
        Blocked(blocked, cs)
  }

  /** Exactly the constraints of a blocked kind are flagged. */
  lemma {:induction false} BlockedMembers(blocked: set<ConstrType>, cs: seq<Constraint>)
    ensures forall c :: c in Blocked(blocked, cs) <==> c in cs && c.contype in blocked
  {
    if cs != [] {
      var n := |cs| - 1;
      BlockedMembers(blocked, cs[..n]);
      assert cs == cs[..n] + [cs[n]];
    }
  }

  /** Flagging keeps the list order: the flags of two lists in a row are the flags of each, in a row. */
  lemma {:induction false} BlockedAppend(blocked: set<ConstrType>, xs: seq<Constraint>, ys: seq<Constraint>)
    ensures Blocked(blocked, xs + ys) == Blocked(blocked, xs) + Blocked(blocked, ys)
    decreases |ys|
  {
    if ys == [] {
      assert xs + ys == xs;
    } else {
      var n := |ys| - 1;
      assert (xs + ys)[..|xs| + n] == xs + ys[..n];
      BlockedAppend(blocked, xs, ys[..n]);
    }
  }

  /** A command other than adding a column, or one without constraints, is never flagged. */
  lemma OnlyAddColumnInspected(blocked: set<ConstrType>, cmd: AlterTableCmd)
    ensures cmd.subtype != AddColumn ==> Violations(blocked, cmd) == []
    ensures cmd.def.constraints.None? ==> Violations(blocked, cmd) == []
    ensures cmd.def.constraints == Some([]) ==> Violations(blocked, cmd) == []
  {
  }

  /** With an accepted configuration, a new column's constraint is flagged exactly when some configured name maps to its kind. */
  lemma ConfiguredViolations(opts: RuleOptions, cmd: AlterTableCmd, c: Constraint)
    requires ConfigureF(opts).Ok?
    requires cmd.subtype == AddColumn && cmd.def.constraints.Some?
    ensures c in Violations(ConfigureF(opts).value, cmd) <==>
      c in cmd.def.constraints.value &&
      exists i :: 0 <= i < |opts["disallowed"]| && Upper(opts["disallowed"][i]) in ConstraintMap &&
        c.contype == ConstraintMap[Upper(opts["disallowed"][i])]
  {
    ConfigureAcceptsKnownNames(opts);
    BlockedMembers(ConfigureF(opts).value, cmd.def.constraints.value);
  }

  // ---------------------------------------------------------------------
  // The rule as first written
  // ---------------------------------------------------------------------

  /** A failure recorded by the linter context: message id, offending column and constraint. */
  datatype Failure = Failure(messageId: string, col: string, node: Constraint)

  /** The linter context, reduced to the failures it records. */
  class FailContext {
    var failures: seq<Failure>

    constructor ()
      ensures failures == []
    {
      failures := [];
    }

    method Fail(messageId: string, node: Constraint, col: string)
      modifies this
      ensures failures == old(failures) + [Failure(messageId, col, node)]
    {
      failures := failures + [Failure(messageId, col, node)];
    }
  }

  /** The failures for the flagged constraints of column `col`, in order. */
  function FailuresFor(col: string, cs: seq<Constraint>): (r: seq<Failure>)
    ensures |r| == |cs|
  {
    if cs == [] then []
    else FailuresFor(col, cs[..|cs| - 1]) + [Failure("constraint_not_allowed", col, cs[|cs| - 1])]
  }

  lemma FailuresForStep(col: string, cs: seq<Constraint>, c: Constraint)
    ensures FailuresFor(col, cs + [c]) == FailuresFor(col, cs) + [Failure("constraint_not_allowed", col, c)]
  {
    assert (cs + [c])[..|cs|] == cs;
  }

  /** One failure per flagged constraint, naming the column and the constraint. */
  lemma {:induction false} FailuresForSpec(col: string, cs: seq<Constraint>)
    ensures forall i :: 0 <= i < |cs| ==> FailuresFor(col, cs)[i] == Failure("constraint_not_allowed", col, cs[i])
  {
    if cs != [] {
      var front := cs[..|cs| - 1];
      FailuresForSpec(col, front);
      assert forall i :: 0 <= i < |front| ==> front[i] == cs[i];
    }
  }

  const RuleName := "AddColumnDisallowConstraints"

  class LegacyAddColumnRule {
    const blockedConstraints: set<ConstrType>

    constructor Configured(blocked: set<ConstrType>)
      ensures blockedConstraints == blocked
    {
      blockedConstraints := blocked;
    }

    /** Construction from options: rejected without disallowed names, or with an unknown one. */
    static method Create(opts: RuleOptions) returns (r: Result<LegacyAddColumnRule, ConfigError>)
      ensures r.Ok? <==> ConfigureF(opts).Ok?
      ensures r.Ok? ==> fresh(r.value) && r.value.blockedConstraints == ConfigureF(opts).value
      ensures r.Err? ==> r.error == ConfigureF(opts).error
    {
      if "disallowed" !in opts || opts["disallowed"] == [] {
        return Err(RuleConfigurationException("must specify `disallowed` constraints"));
      }
      var constraints := CollectConstraints(opts["disallowed"]);
      if constraints.Err? {
        return Err(constraints.error);
      }
      var rule := new LegacyAddColumnRule.Configured(set t | t in constraints.value);
      return Ok(rule);
    }

    /** Records one failure per blocked constraint of a column being added, in order. */
    method Check(ctx: FailContext, node: AlterTableCmd)
      modifies ctx
      ensures ctx.failures == old(ctx.failures) + FailuresFor(node.def.colname, Violations(blockedConstraints, node))
    {
      if node.subtype != AddColumn {
        return;
      }
      if node.def.constraints.None? {
        return;
      }
      FailEach(ctx, node.def.colname, node.def.constraints.value);
    }

    /** The loop over a new column's constraints, recording a failure for each one of a blocked kind. */
    method FailEach(ctx: FailContext, col: string, constraints: seq<Constraint>)
      modifies ctx
      ensures ctx.failures == old(ctx.failures) + FailuresFor(col, Blocked(blockedConstraints, constraints))
    {
      for i := 0 to |constraints|
        invariant ctx.failures == old(ctx.failures) + FailuresFor(col, Blocked(blockedConstraints, constraints[..i]))
      {
        var constraint := constraints[i];
        ghost var before := Blocked(blockedConstraints, constraints[..i]);
        BlockedStep(blockedConstraints, constraints, i);
        if constraint.contype in blockedConstraints {
          FailuresForStep(col, before, constraint);
          ghost var failure := Failure("constraint_not_allowed", col, constraint);
          ghost var earlier := ctx.failures;
          ctx.Fail("constraint_not_allowed", constraint, col);
          assert ctx.failures == earlier + [failure];
          assert earlier + [failure] == old(ctx.failures) + (FailuresFor(col, before) + [failure]);
        } else {
          assert before + [] == before;
        }
      }
      assert constraints[..|constraints|] == constraints;
    }
  }

  /** A docstring's first line describes the rule, the rest is its help, both without the outer whitespace. */
  lemma MetaExample()
    ensures MetaOf(RuleClass("R", Some(" A\n b \n"))) == Meta("R", "A", Some(" b"))
  {
    var doc := " A\n b \n";
    assert TrimStart(doc) == doc[1..];
    var t := doc[1..];
    assert TrimEnd(t) == t[..|t| - 2] by {
      assert t[..|t| - 1][..|t| - 2] == t[..|t| - 2];
    }
    var text := "A\n b";
    assert Strip(doc) == text;
    assert FirstIndex(text, '\n') == Some(1);
  }
}
