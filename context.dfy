/**
 * `ContextManager` (src/crew.py:59-429): the last good output of every stage, kept between
 * agents. Only the state changes are modelled here (the `update_*` methods and `clear`) and the
 * selection inside `_format_qa_feedback`, which decides which issues and failed test cases an
 * agent is shown on a re-run; the wording of the summaries is presentation.
 */
module Context {
  import opened Wrappers
  import opened Text
  import opened Lists
  import opened Records
  import opened Executor

  /** The five pipeline stages, one per key of `phase_outputs`. */
  datatype Stage = UserStoriesStage | SystemDesignStage | BackendStage | FrontendStage | TestReportStage

  /** The model class a stage's task is parsed into. */
  function SchemaOf(stage: Stage): Schema {
    match stage
    case UserStoriesStage => UserStoriesSchema
    case SystemDesignStage => SystemDesignSchema
    case BackendStage => BackendSchema
    case FrontendStage => FrontendSchema
    case TestReportStage => TestReportSchema
  }

  /** What `update_*` leaves in its field: the new data when the stage succeeded, otherwise the old value. */
  function Kept(prev: Option<Output>, result: StageResult): Option<Output> {
    if result.Succeeded? then Some(result.data) else prev
  }

  /** A stage's field after a series of `update_*` calls. */
  function KeptAll(prev: Option<Output>, results: seq<StageResult>): Option<Output> {
    if results == [] then prev
    else Kept(KeptAll(prev, results[..|results| - 1]), results[|results| - 1])
  }

  /**
   * After any series of updates the field holds the data of the last successful result, or
   * its old value when none succeeded: a failed stage never erases good data.
   */
  lemma {:induction false} KeptAllIsLastSuccess(prev: Option<Output>, results: seq<StageResult>)
    ensures (forall i :: 0 <= i < |results| ==> results[i].Failed?) ==> KeptAll(prev, results) == prev
    ensures forall k :: (0 <= k < |results| && results[k].Succeeded? &&
      forall i :: k < i < |results| ==> results[i].Failed?) ==> KeptAll(prev, results) == Some(results[k].data)
    ensures prev.Some? ==> KeptAll(prev, results).Some?
  {
    if forall i :: 0 <= i < |results| ==> results[i].Failed? {
      KeptAllFailed(prev, results);
    }
    forall k | 0 <= k < |results| && results[k].Succeeded? && forall i :: k < i < |results| ==> results[i].Failed?
      ensures KeptAll(prev, results) == Some(results[k].data)
    {
      KeptAllLast(prev, results, k);
    }
    if prev.Some? {
      KeptAllKeepsSome(prev, results);
    }
  }

  /** Failed results leave the field as it was. */
  lemma {:induction false} KeptAllFailed(prev: Option<Output>, results: seq<StageResult>)
    requires forall i :: 0 <= i < |results| ==> results[i].Failed?
    ensures KeptAll(prev, results) == prev
  {
    if results != [] {
      var init := results[..|results| - 1];
      assert forall i :: 0 <= i < |init| ==> init[i] == results[i];
      KeptAllFailed(prev, init);
    }
  }

  /** The last successful result is the one kept. */
  lemma {:induction false} KeptAllLast(prev: Option<Output>, results: seq<StageResult>, k: nat)
    requires k < |results| && results[k].Succeeded?
    requires forall i :: k < i < |results| ==> results[i].Failed?
    ensures KeptAll(prev, results) == Some(results[k].data)
  {
    if k < |results| - 1 {
      var init := results[..|results| - 1];
      assert forall i :: 0 <= i < |init| ==> init[i] == results[i];
      KeptAllLast(prev, init, k);
    }
  }

  /** A stored output is never erased. */
  lemma {:induction false} KeptAllKeepsSome(prev: Option<Output>, results: seq<StageResult>)
    requires prev.Some?
    ensures KeptAll(prev, results).Some?
  {
    if results != [] {
      KeptAllKeepsSome(prev, results[..|results| - 1]);
    }
  }

  /** A stored output read as a test-report dict: `.get` with the defaults the code passes. */
  function ReportOf(o: Output): TestReport {
    if o.Report? then o.report else TestReport("", [], "", [], map[])
  }

  /** The items `_format_qa_feedback` shows an agent: its issues, its failed test cases, and every recommendation. */
  datatype Feedback = Feedback(issues: seq<string>, failedTests: seq<TestCase>, recommendations: seq<string>)

  /** `issues_by_agent.get(agent, [])`. */
  function IssuesFor(r: TestReport, agent: string): seq<string> {
    if agent in r.issuesByAgent then r.issuesByAgent[agent] else []
  }

  /** The failed-test filter of `_format_qa_feedback`. */
  function FailedTestsFor(r: TestReport, agent: string): seq<TestCase> {
    Filter((t: TestCase) => Lower(t.status) == "fail" && t.responsibleAgent == agent, r.testCases)
  }

  /** The feedback selected for `agent` from a stored report. */
  function FeedbackFor(o: Output, agent: string): Feedback {
    var r := ReportOf(o);
    Feedback(IssuesFor(r, agent), FailedTestsFor(r, agent), r.recommendations)
  }

  /**
   * An agent is shown exactly the failed test cases assigned to it, its own issue list, and
   * the report's recommendations.
   */
  lemma FeedbackSelects(o: Output, agent: string)
    ensures forall t :: t in FeedbackFor(o, agent).failedTests <==>
      t in ReportOf(o).testCases && Lower(t.status) == "fail" && t.responsibleAgent == agent
    ensures agent in ReportOf(o).issuesByAgent ==> FeedbackFor(o, agent).issues == ReportOf(o).issuesByAgent[agent]
    ensures agent !in ReportOf(o).issuesByAgent ==> FeedbackFor(o, agent).issues == []
    ensures FeedbackFor(o, agent).recommendations == ReportOf(o).recommendations
  {
    FilterMembers((t: TestCase) => Lower(t.status) == "fail" && t.responsibleAgent == agent, ReportOf(o).testCases);
  }

  /** No failed test case is shown to two different agents. */
  lemma FeedbackIsPrivate(o: Output, a1: string, a2: string, t: TestCase)
    requires t in FeedbackFor(o, a1).failedTests && t in FeedbackFor(o, a2).failedTests
    ensures a1 == a2
  {
    FeedbackSelects(o, a1);
    FeedbackSelects(o, a2);
  }

  /** `ContextManager`: the prompt and the last good output of each stage. */
  class ContextManager {
    var vibePrompt: string
    var userStories: Option<Output>
    var systemDesign: Option<Output>
    var backendCode: Option<Output>
    var frontendCode: Option<Output>
    var testReport: Option<Output>

    /** The field that holds a stage's output. */
    function Stored(stage: Stage): Option<Output>
      reads this
    {
      match stage
      case UserStoriesStage => userStories
      case SystemDesignStage => systemDesign
      case BackendStage => backendCode
      case FrontendStage => frontendCode
      case TestReportStage => testReport
    }

    /** No stage output is stored. */
    predicate Empty()
      reads this
    {
      forall stage :: Stored(stage).None?
    }

    constructor()
      ensures vibePrompt == [] && Empty()
    {
      vibePrompt := [];
      userStories := None;
      systemDesign := None;
      backendCode := None;
      frontendCode := None;
      testReport := None;
    }

    /** `update_user_stories`. */
    method UpdateUserStories(result: StageResult)
      modifies this
      ensures Stored(UserStoriesStage) == Kept(old(Stored(UserStoriesStage)), result)
      ensures forall stage :: stage != UserStoriesStage ==> Stored(stage) == old(Stored(stage))
      ensures vibePrompt == old(vibePrompt)
    {
      if result.Succeeded? {
        userStories := Some(result.data);
      }
    }

    /** `update_system_design`. */
    method UpdateSystemDesign(result: StageResult)
      modifies this
      ensures Stored(SystemDesignStage) == Kept(old(Stored(SystemDesignStage)), result)
      ensures forall stage :: stage != SystemDesignStage ==> Stored(stage) == old(Stored(stage))
      ensures vibePrompt == old(vibePrompt)
    {
      if result.Succeeded? {
        systemDesign := Some(result.data);
      }
    }

    /** `update_backend_code`. */
    method UpdateBackendCode(result: StageResult)
      modifies this
      ensures Stored(BackendStage) == Kept(old(Stored(BackendStage)), result)
      ensures forall stage :: stage != BackendStage ==> Stored(stage) == old(Stored(stage))
      ensures vibePrompt == old(vibePrompt)
    {
      if result.Succeeded? {
        backendCode := Some(result.data);
      }
    }

    /** `update_frontend_code`. */
    method UpdateFrontendCode(result: StageResult)
      modifies this
      ensures Stored(FrontendStage) == Kept(old(Stored(FrontendStage)), result)
      ensures forall stage :: stage != FrontendStage ==> Stored(stage) == old(Stored(stage))
      ensures vibePrompt == old(vibePrompt)
    {
      if result.Succeeded? {
        frontendCode := Some(result.data);
      }
    }

    /** `update_test_report`. */
    method UpdateTestReport(result: StageResult)
      modifies this
      ensures Stored(TestReportStage) == Kept(old(Stored(TestReportStage)), result)
      ensures forall stage :: stage != TestReportStage ==> Stored(stage) == old(Stored(stage))
      ensures vibePrompt == old(vibePrompt)
    {
      if result.Succeeded? {
        testReport := Some(result.data);
      }
    }

    /** `clear`: every field back to its initial value. */
    method Clear()
      modifies this
      ensures vibePrompt == [] && Empty()
    {
      vibePrompt := [];
      userStories := None;
      systemDesign := None;
      backendCode := None;
      frontendCode := None;
      testReport := None;
    }

    /** `_format_qa_feedback(agent)`, as the items it selects; nothing without a stored report. */
    function QaFeedback(agent: string): (f: Option<Feedback>)
      reads this
      ensures f.Some? <==> testReport.Some?
      ensures f.Some? ==> forall t :: t in f.value.failedTests <==>
        t in ReportOf(testReport.value).testCases && Lower(t.status) == "fail" && t.responsibleAgent == agent
    {
      if testReport.None? then None
      else
        FeedbackSelects(testReport.value, agent);
        Some(FeedbackFor(testReport.value, agent))
    }
  }
}
