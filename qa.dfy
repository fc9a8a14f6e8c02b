/**
 * The QA side of the feedback loop in src/crew.py: `_check_qa_passed` (822-840), the issue
 * collectors `_get_agents_with_issues` (842-866) and its duplicate
 * `_get_agents_with_issues_from_report` (708-732), the deterministic `_get_fallback_decision`
 * (686-706) and the validation half of `_get_manager_decision` (639-684).
 */
module Qa {
  import opened Wrappers
  import opened Text
  import opened JsonValue
  import opened Records
  import opened Planner
  import opened Ladder
  import opened Executor
  import opened Context
  import Guards

  // ---------- `_check_qa_passed` ----------

  /** The test-case loop of `_check_qa_passed`: no case whose lower-cased status is "fail". */
  predicate NoFailedCase(cases: seq<TestCase>) {
    cases == [] || (Lower(cases[0].status) != "fail" && NoFailedCase(cases[1..]))
  }

  lemma {:induction false} NoFailedCaseIff(cases: seq<TestCase>)
    ensures NoFailedCase(cases) <==> forall t :: t in cases ==> Lower(t.status) != "fail"
  {
    if cases != [] {
      NoFailedCaseIff(cases[1..]);
      assert cases == [cases[0]] + cases[1..];
    }
  }

  /** The checks `_check_qa_passed` makes on the stage's data. */
  predicate Passes(data: Output) {
    var r := ReportOf(data);
    Lower(r.overallStatus) == "pass" && NoFailedCase(r.testCases)
  }

  /** `_check_qa_passed`: the QA stage succeeded, its overall status is "pass", and no test case failed. */
  function CheckQaPassed(qa: StageResult): (passed: bool)
    ensures passed <==> (qa.Succeeded? && Lower(ReportOf(qa.data).overallStatus) == "pass" &&
      forall t :: t in ReportOf(qa.data).testCases ==> Lower(t.status) != "fail")
  {
    if qa.Failed? then false
    else
      NoFailedCaseIff(ReportOf(qa.data).testCases);
      Passes(qa.data)
  }

  /** On a validated status, lower-casing changes nothing. */
  lemma LowerOfNormal(w: string)
    requires IsStatusAsWritten(w) || IsOverall(w)
    ensures Lower(w) == w
  {
    assert LowerWord(w);
    assert forall i :: 0 <= i < |w| ==> Lower(w)[i] == w[i];
  }

  /**
   * On a report the guardrail `validate_test_report` accepts, `_check_qa_passed` agrees with
   * the overall status alone: the guardrail already refuses "pass" beside a failed case.
   */
  lemma AcceptedReportPassesIffOverallPass(r: TestReport, raw: string)
    requires Normal(Report(r)) && Guards.ReportProblem(r).None?
    ensures CheckQaPassed(Succeeded(Report(r), raw)) <==> r.overallStatus == "pass"
  {
    Guards.ReportProblemIff(r);
    LowerOfNormal(r.overallStatus);
    forall t | t in r.testCases
      ensures Lower(t.status) == "fail" <==> Guards.Failed(t)
    {
      assert TestCaseNormal(t);
      LowerOfNormal(t.status);
    }
  }

  // ---------- the issue collectors ----------

  /** The agents with a non-empty issue list, plus the responsible agent of every failed test case. */
  function IssueAgents(r: TestReport): set<string> {
    (set a | a in r.issuesByAgent && r.issuesByAgent[a] != [])
    + (set t | t in r.testCases && Lower(t.status) == "fail" && t.responsibleAgent != [] :: t.responsibleAgent)
  }

  /** The two loops both collectors share: over `issues_by_agent`, then over `test_cases`. */
  method CollectIssueAgents(r: TestReport) returns (agents: set<string>)
    ensures agents == IssueAgents(r)
  {
    agents := {};
    var keys := r.issuesByAgent.Keys;
    while keys != {}
      invariant keys <= r.issuesByAgent.Keys
      invariant agents == set a | a in r.issuesByAgent.Keys - keys && r.issuesByAgent[a] != []
      decreases keys
    {
      var a :| a in keys;
      if r.issuesByAgent[a] != [] {
        agents := agents + {a};
      }
      keys := keys - {a};
    }
    ghost var listed := agents;
    for k := 0 to |r.testCases|
      invariant agents == listed +
        set t | t in r.testCases[..k] && Lower(t.status) == "fail" && t.responsibleAgent != [] :: t.responsibleAgent
    {
      var tc := r.testCases[k];
      assert r.testCases[..k + 1] == r.testCases[..k] + [tc];
      if Lower(tc.status) == "fail" && tc.responsibleAgent != [] {
        agents := agents + {tc.responsibleAgent};
      }
    }
    assert r.testCases[..|r.testCases|] == r.testCases;
  }

  /** `_get_agents_with_issues(qa_output)`: nothing when QA did not succeed. */
  method GetAgentsWithIssues(qa: StageResult) returns (agents: set<string>)
    ensures agents == if qa.Succeeded? then IssueAgents(ReportOf(qa.data)) else {}
  {
    if qa.Failed? {
      return {};
    }
    agents := CollectIssueAgents(ReportOf(qa.data));
  }

  /** `_get_agents_with_issues_from_report`: the same collection on the stored report. */
  method GetAgentsWithIssuesFromReport(ctx: ContextManager) returns (agents: set<string>)
    ensures agents == if ctx.testReport.Some? then IssueAgents(ReportOf(ctx.testReport.value)) else {}
  {
    if ctx.testReport.None? {
      return {};
    }
    agents := CollectIssueAgents(ReportOf(ctx.testReport.value));
  }

  /**
   * What the collectors return: exactly the agents with a non-empty issue list and the
   * responsible agents of failed cases; on a validated report the latter are all real agents.
   */
  lemma IssueAgentsMembers(r: TestReport)
    ensures forall a :: a in IssueAgents(r) <==>
      (a in r.issuesByAgent && r.issuesByAgent[a] != []) ||
      (exists t :: t in r.testCases && Lower(t.status) == "fail" && t.responsibleAgent == a && a != [])
    ensures Normal(Report(r)) ==> forall a :: a in IssueAgents(r) && a !in r.issuesByAgent ==> IsAgent(a)
  {
    if Normal(Report(r)) {
      forall a | a in IssueAgents(r) && a !in r.issuesByAgent
        ensures IsAgent(a)
      {
        var t :| t in r.testCases && Lower(t.status) == "fail" && t.responsibleAgent != [] && t.responsibleAgent == a;
        assert TestCaseNormal(t);
      }
    }
  }

  /**
   * On a report the guardrail accepts, every failed case leads to an agent: a failed case
   * means at least one of the four agents has issues.
   */
  lemma AcceptedFailuresNameAgents(r: TestReport, t: TestCase)
    requires Normal(Report(r)) && Guards.ReportProblem(r).None?
    requires t in r.testCases && Lower(t.status) == "fail"
    ensures t.responsibleAgent in IssueAgents(r) && IsAgent(t.responsibleAgent)
  {
    Guards.ReportProblemIff(r);
    assert TestCaseNormal(t);
    LowerOfNormal(t.status);
    assert !Guards.FailedWithoutAgent(t);
  }

  // ---------- decisions ----------

  /** `ManagerDecision`, without the free-text `reasoning` and `iteration_goal`. */
  datatype Decision = Decision(shouldContinue: bool, agentsToRerun: seq<string>)

  /** `_get_fallback_decision` on the stored report. */
  function Fallback(stored: Output): Decision {
    if Passes(stored) then Decision(false, [])
    else
      var agents := IssueAgents(ReportOf(stored));
      if agents != {} then Decision(true, ClosureOf(agents)) else Decision(false, [])
  }

  /** `list(agents_with_issues)`: the set's members, in some order. */
  method ListOf(s: set<string>) returns (xs: seq<string>)
    ensures forall x :: x in xs <==> x in s
  {
    xs := [];
    var rest := s;
    while rest != {}
      invariant rest <= s
      invariant forall x :: x in xs <==> x in s - rest
      decreases rest
    {
      var x :| x in rest;
      xs := xs + [x];
      rest := rest - {x};
    }
  }

  /** `_get_fallback_decision`: it reads the stored report, which the loop only asks for after a successful QA run. */
  method GetFallbackDecision(ctx: ContextManager) returns (d: Decision)
    requires ctx.testReport.Some?
    ensures d == Fallback(ctx.testReport.value)
  {
    var qa := Succeeded(ctx.testReport.value, "");
    if CheckQaPassed(qa) {
      return Decision(false, []);
    }
    var agents := GetAgentsWithIssuesFromReport(ctx);
    if agents != {} {
      var names := ListOf(agents);
      var plan := AddAgentDependencies(names);
      assert (set a | a in names) == agents;
      return Decision(true, plan);
    }
    d := Decision(false, []);
  }

  /**
   * The fallback stops on a passing report; otherwise it continues exactly when some agent
   * has issues, re-running every known agent with issues and everything downstream of it.
   */
  lemma FallbackOutcomes(stored: Output)
    ensures Passes(stored) ==> Fallback(stored) == Decision(false, [])
    ensures Fallback(stored).shouldContinue <==> !Passes(stored) && IssueAgents(ReportOf(stored)) != {}
    ensures !Passes(stored) ==> forall a :: a in IssueAgents(ReportOf(stored)) && a in Agents ==>
      a in Fallback(stored).agentsToRerun &&
      forall b :: b in Dependencies[a] ==> b in Fallback(stored).agentsToRerun
  {
    var agents := IssueAgents(ReportOf(stored));
    ClosureMembers(agents);
    ClosureEmpty();
    DependenciesTransitive();
  }

  /**
   * The fallback can continue with nothing to re-run: issues listed only under a name that
   * is not one of the four agents (here the manager's) make `should_continue` true while the
   * plan is empty, and the loop then ends on the empty plan.
   */
  lemma FallbackMayContinueWithEmptyPlan()
    ensures var stored := Report(TestReport("fail", [], "", [], map["manager" := ["unclear requirements"]]));
      Fallback(stored) == Decision(true, [])
  {
    var r := TestReport("fail", [], "", [], map["manager" := ["unclear requirements"]]);
    assert "manager" in IssueAgents(r);
    assert Lower("fail") == "fail";
    var s := IssueAgents(r);
    ClosureMembers(s);
    forall a | a in s ensures a == "manager" {
    }
    assert ClosureOf(s) == [] by {
      KeepInOrder(Expanded(s));
      ExpandedAgents(s);
    }
  }

  // ---------- the manager's reply ----------

  /** `[a for a in agents_to_rerun if a in valid_agents]` over a decoded list. */
  function ValidNames(items: seq<Json>): (names: seq<string>)
    ensures forall n :: n in names <==> n in Agents && JStr(n) in items
  {
    if items == [] then []
    else
      (if items[0].JStr? && items[0].s in Agents then [items[0].s] else []) + ValidNames(items[1..])
  }

  /**
   * The names the comprehension keeps from whatever `agents_to_rerun` decoded to: list
   * elements, dictionary keys (iteration order does not matter, the planner only uses the set),
   * nothing from a string's characters; `None` where iterating raises `TypeError`.
   */
  function RerunCandidates(j: Json): (names: Option<seq<string>>)
    ensures names.Some? <==> j.JArr? || j.JStr? || j.JObj?
    ensures names.Some? ==> forall n :: n in names.value ==> n in Agents
  {
    match j
    case JArr(items) => Some(ValidNames(items))
    case JStr(_) => Some([])
    case JObj(fields) =>
      KeepInOrder(fields.Keys);
      Some(KeepIn(fields.Keys, ExecutionOrder))
    case _ => None
  }

  /**
   * `_get_manager_decision` after the manager's task: `reply` is the task's raw text, `None`
   * when running the task raised; `parse` is `safe_parse_json` without a model class. A reply
   * that does not decode to a dict, or whose `agents_to_rerun` cannot be iterated, gives the
   * fallback.
   */
  function ManagerDecision(parse: string -> Outcome, reply: Option<string>, fallback: Decision): Decision {
    if reply.None? then fallback
    else
      var p := parse(reply.value);
      if p.Success? && p.value.Data? && p.value.json.JObj? then
        var fields := p.value.json.fields;
        var names := RerunCandidates(Get(fields, "agents_to_rerun", JArr([])));
        if names.None? then fallback
        else Decision(Truthy(Get(fields, "should_continue", JBool(false))), Closure(names.value))
      else fallback
  }

  /** The manager path of `_get_manager_decision`; the stored report is there because QA succeeded. */
  method GetManagerDecision(ctx: ContextManager, parse: string -> Outcome, reply: Option<string>) returns (d: Decision)
    requires ctx.testReport.Some?
    ensures d == ManagerDecision(parse, reply, Fallback(ctx.testReport.value))
  {
    if reply.None? {
      d := GetFallbackDecision(ctx);
      return;
    }
    var p := parse(reply.value);
    if p.Success? && p.value.Data? && p.value.json.JObj? {
      var fields := p.value.json.fields;
      var names := RerunCandidates(Get(fields, "agents_to_rerun", JArr([])));
      if names.Some? {
        var plan := AddAgentDependencies(names.value);
        return Decision(Truthy(Get(fields, "should_continue", JBool(false))), plan);
      }
    }
    d := GetFallbackDecision(ctx);
  }

  /** A re-run plan the loop can follow: known agents, strictly in pipeline order, closed downstream. */
  predicate IsPlan(agents: seq<string>) {
    (forall i :: 0 <= i < |agents| ==> agents[i] in Agents) &&
    (forall i, j :: 0 <= i < j < |agents| ==> Rank(agents[i]) < Rank(agents[j])) &&
    DownstreamClosed(set a | a in agents)
  }

  lemma ClosureIsPlan(s: set<string>)
    ensures IsPlan(ClosureOf(s))
  {
    ClosureOrdered(s);
    ClosureIsLeast(s, Agents);
  }

  /** Whatever the manager replies, and in the fallback, the agents to re-run form a plan. */
  lemma DecisionIsPlan(parse: string -> Outcome, reply: Option<string>, stored: Output)
    ensures IsPlan(Fallback(stored).agentsToRerun)
    ensures IsPlan(ManagerDecision(parse, reply, Fallback(stored)).agentsToRerun)
  {
    ClosureIsPlan(IssueAgents(ReportOf(stored)));
    ClosureIsPlan({});
    ClosureEmpty();
    if reply.Some? {
      var p := parse(reply.value);
      if p.Success? && p.value.Data? && p.value.json.JObj? {
        var names := RerunCandidates(Get(p.value.json.fields, "agents_to_rerun", JArr([])));
        if names.Some? {
          ClosureIsPlan(set a | a in names.value);
        }
      }
    }
  }

  /**
   * A reply listing names re-runs exactly the listed known agents and their downstream
   * agents; unknown names and non-string entries are dropped.
   */
  lemma ListedNamesPlanned(parse: string -> Outcome, reply: string, fallback: Decision, fields: map<string, Json>, items: seq<Json>)
    requires parse(reply) == Success(Data(JObj(fields)))
    requires Get(fields, "agents_to_rerun", JArr([])) == JArr(items)
    ensures var d := ManagerDecision(parse, Some(reply), fallback);
      d.shouldContinue == Truthy(Get(fields, "should_continue", JBool(false))) &&
      forall x :: x in d.agentsToRerun <==>
        x in Agents && (JStr(x) in items || exists a :: a in Agents && JStr(a) in items && x in Dependencies[a])
  {
    var s := set a | a in ValidNames(items);
    ClosureMembers(s);
  }
}
