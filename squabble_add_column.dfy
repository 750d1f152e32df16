/**
 * The `AddColumnDisallowConstraints` lint rule in its own module
 * (squabble/rules/add_column_disallow_constraint.py): it keeps its options,
 * and reports each disallowed constraint of a column being added through
 * the linter context's `report`.
 */
module SquabbleAddColumn {
  import opened Options
  import opened SquabbleRules

  /** A report: the rule, the message id, the message parameters and the offending constraint. */
  datatype Issue = Issue(rule: string, messageId: string, params: seq<(string, string)>, node: Constraint)

  /** The message templates of the rule, by id. */
  const Messages: map<string, string> := map["constraint_not_allowed" := "column \"{col}\" has a disallowed constraint"]

  /** The linter context, reduced to the reports it collects. */
  class ReportContext {
    var reports: seq<Issue>

    constructor ()
      ensures reports == []
    {
      reports := [];
    }

    method Report(rule: string, messageId: string, params: seq<(string, string)>, node: Constraint)
      modifies this
      ensures reports == old(reports) + [Issue(rule, messageId, params, node)]
    {
      reports := reports + [Issue(rule, messageId, params, node)];
    }
  }

  /** The message parameters of a report about column `col`. */
  function ColParams(col: string): seq<(string, string)>
  {
    [("col", col)]
  }

  /** The report for a flagged constraint of column `col`. */
  function IssueFor(col: string, c: Constraint): Issue
  {
    Issue(RuleName, "constraint_not_allowed", ColParams(col), c)
  }

  /** The reports for the flagged constraints of column `col`, in order. */
  function IssuesFor(col: string, cs: seq<Constraint>): (r: seq<Issue>)
    ensures |r| == |cs|
  {
    if cs == [] then [] else IssuesFor(col, cs[..|cs| - 1]) + [IssueFor(col, cs[|cs| - 1])]
  }

  lemma IssuesForStep(col: string, cs: seq<Constraint>, c: Constraint)
    ensures IssuesFor(col, cs + [c]) == IssuesFor(col, cs) + [IssueFor(col, c)]
  {
    assert (cs + [c])[..|cs|] == cs;
  }

  /** One report per flagged constraint, in order, whose `col` parameter is the column and whose node is the constraint. */
  lemma {:induction false} IssuesForSpec(col: string, cs: seq<Constraint>)
    ensures forall i :: 0 <= i < |cs| ==>
      IssuesFor(col, cs)[i].node == cs[i] && IssuesFor(col, cs)[i].params == [("col", col)] &&
      IssuesFor(col, cs)[i].messageId in Messages
  {
    if cs != [] {
      var front := cs[..|cs| - 1];
      IssuesForSpec(col, front);
      assert forall i :: 0 <= i < |front| ==> front[i] == cs[i];
    }
  }

  class AddColumnRule {
    const opts: RuleOptions
    const blockedConstraints: set<ConstrType>

    constructor Configured(opts: RuleOptions, blocked: set<ConstrType>)
      ensures this.opts == opts && blockedConstraints == blocked
    {
      this.opts := opts;
      blockedConstraints := blocked;
    }

    /** Construction from options: rejected without disallowed names or with an unknown one; keeps the options otherwise. */
    static method Create(opts: RuleOptions) returns (r: Result<AddColumnRule, ConfigError>)
      ensures r.Ok? <==> ConfigureF(opts).Ok?
      ensures r.Ok? ==> fresh(r.value) && r.value.opts == opts && r.value.blockedConstraints == ConfigureF(opts).value
      ensures r.Err? ==> r.error == ConfigureF(opts).error
    {
      if "disallowed" !in opts || opts["disallowed"] == [] {
        return Err(RuleConfigurationException("must specify `disallowed` constraints"));
      }
      var constraints := CollectConstraints(opts["disallowed"]);
      if constraints.Err? {
        return Err(constraints.error);
      }
      var rule := new AddColumnRule.Configured(opts, set t | t in constraints.value);
      return Ok(rule);
    }

    /** Reports each blocked constraint of a column being added, in order. */
    method Check(ctx: ReportContext, node: AlterTableCmd)
      modifies ctx
      ensures ctx.reports == old(ctx.reports) + IssuesFor(node.def.colname, Violations(blockedConstraints, node))
    {
      if node.subtype != AddColumn {
        return;
      }
      if node.def.constraints.None? {
        return;
      }
      ReportEach(ctx, node.def.colname, node.def.constraints.value);
    }

    /** The loop over a new column's constraints, reporting each one of a blocked kind. */
    method ReportEach(ctx: ReportContext, col: string, constraints: seq<Constraint>)
      modifies ctx
      ensures ctx.reports == old(ctx.reports) + IssuesFor(col, Blocked(blockedConstraints, constraints))
    {
      for i := 0 to |constraints|
        invariant ctx.reports == old(ctx.reports) + IssuesFor(col, Blocked(blockedConstraints, constraints[..i]))
      {
        var constraint := constraints[i];
        ghost var before := Blocked(blockedConstraints, constraints[..i]);
        BlockedStep(blockedConstraints, constraints, i);
        if constraint.contype in blockedConstraints {
          IssuesForStep(col, before, constraint);
          ghost var issue := IssueFor(col, constraint);
          assert issue == Issue(RuleName, "constraint_not_allowed", ColParams(col), constraint);
          ghost var earlier := ctx.reports;
          ctx.Report(RuleName, "constraint_not_allowed", ColParams(col), constraint);
          assert ctx.reports == earlier + [issue];
          assert earlier + [issue] == old(ctx.reports) + (IssuesFor(col, before) + [issue]);
        } else {
          assert before + [] == before;
        }
      }
      assert constraints[..|constraints|] == constraints;
    }
  }

  /** Configured with DEFAULT, adding a column with a default and a unique constraint reports the default only. */
  lemma ReportsDefaultOnly(col: string, d: Constraint, u: Constraint)
    requires d.contype == Default && u.contype == Unique
    ensures var opts := map["disallowed" := ["default"]];
      ConfigureF(opts) == Ok({Default}) &&
      IssuesFor(col, Violations({Default}, AlterTableCmd(AddColumn, ColumnDef(col, Some([d, u]))))) == [IssueFor(col, d)]
  {
    ConfigureDefault();
    assert [d, u][..1] == [d];
    assert [d][..0] == [];
    assert Blocked({Default}, [d, u]) == [d];
    assert [IssueFor(col, d)][..0] == [];
  }

  /** Steps of `ReportsDefaultOnly`: `disallowed: ["default"]` configures exactly the DEFAULT kind. */
  lemma ConfigureDefault()
    ensures ConfigureF(map["disallowed" := ["default"]]) == Ok({Default})
  {
    MapDefault();
    assert (set t | t in [Default]) == {Default};
  }

  lemma MapDefault()
    ensures MapNames(["default"]) == Ok([Default])
  {
    UpperDefault();
    assert "DEFAULT" != "FOREIGN" && "DEFAULT" != "UNIQUE";
    assert ConstraintMap["DEFAULT"] == Default;
    assert ["default"][0] == "default" && ["default"][1..] == [];
    assert MapNames([]) == Ok([]);
    assert [Default] + [] == [Default];
  }

  lemma UpperDefault()
    ensures Upper("default") == "DEFAULT"
  {
    UpperFault();
    assert "default"[1..] == "efault" && "efault"[1..] == "fault";
    assert Upper("efault") == "EFAULT";
  }

  lemma UpperFault()
    ensures Upper("fault") == "FAULT"
  {
    assert "fault"[1..] == "ault" && "ault"[1..] == "ult" && "ult"[1..] == "lt" && "lt"[1..] == "t" && "t"[1..] == [];
    assert Upper("t") == "T";
    assert Upper("lt") == "LT";
    assert Upper("ult") == "ULT";
  }
}
