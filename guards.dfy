/**
 * The `validate_*` guardrails (src/schemas.py:555-701): each parses an agent's raw output with
 * the recovery ladder for its schema, then checks that the record is usable, and answers
 * either the record or a refusal whose feedback message goes back to the agent. The ladder is
 * the parameter `parse`: any parser that conforms to the schema, `Ladder.Parser(rt, schema)`
 * being the one the source calls (`Ladder.ParserConforms`).
 * `validate_test_report` adds the cross-field checks of a test report.
 */
module Guards {
  import opened Wrappers
  import opened Text
  import opened Lists
  import opened Records
  import Salvage
  import opened Ladder

  /** Why a guardrail refused an output; `Feedback` renders the message the source returns. */
  datatype Refusal =
    | InvalidJson(schema: Schema, error: string)
    | NoStories
    | StoryMissingFields(id: string)
    | NoModels
    | NoEndpoints
    | ModelMissingFields(name: string)
    | EndpointMissingFields(path: string)
    | NoFiles(schema: Schema)
    | MissingEntryFile(schema: Schema)
    | FileMissingFields(schema: Schema, filename: string)
    | NoTestCases
    | CaseMissingFields(id: string)
    | FailuresUnassigned(ids: seq<string>)
    | InvalidCaseAgent(id: string, agent: string)
    | PassWithFailures(failures: nat)

  /** `(True, parsed.model_dump_json())` or `(False, feedback)`; the accepted record stands for its JSON dump. */
  datatype Verdict = Accept(record: Output) | Reject(reason: Refusal)

  /** `x or 'unknown'`. */
  function OrUnknown(x: string): (r: string)
    ensures r != []
    ensures x != [] ==> r == x
  {
    if x == [] then "unknown" else x
  }

  /** The message text of each refusal, as the guardrails word it. */
  function Feedback(r: Refusal): string
  {
    match r
    case InvalidJson(schema, error) =>
      "Invalid JSON format: " + error + ". " +
      (match schema
       case BackendSchema => "Please return valid JSON with smaller files (under 50 lines each)."
       case FrontendSchema => "Please return valid JSON with smaller files."
       case _ => "Please return valid JSON matching the schema.")
    case NoStories => "No user stories found. Please include at least 1 user story."
    case StoryMissingFields(id) => "User story " + OrUnknown(id) + " is missing required fields (id, title, description)."
    case NoModels => "No data models defined. Please include at least 1 data model."
    case NoEndpoints => "No API endpoints defined. Please include at least 1 endpoint."
    case ModelMissingFields(name) => "Data model " + OrUnknown(name) + " is missing required fields (name, fields)."
    case EndpointMissingFields(path) => "Endpoint " + OrUnknown(path) + " is missing required fields (method, path, description)."
    case NoFiles(schema) =>
      if schema == FrontendSchema then "No frontend files provided. Please include at least index.html."
      else "No code files provided. Please include at least main.py."
    case MissingEntryFile(schema) =>
      if schema == FrontendSchema then "Missing index.html file. Please include an index.html file."
      else "Missing main.py file. Please include a main.py file."
    case FileMissingFields(schema, filename) =>
      (if schema == FrontendSchema then "Frontend file " else "Code file ") + OrUnknown(filename) +
      " is missing required fields (filename, content)."
    case NoTestCases => "No test cases provided. Please include at least 1 test case."
    case CaseMissingFields(id) => "Test case " + OrUnknown(id) + " is missing required fields (id, description, status)."
    case FailuresUnassigned(ids) =>
      "Failed test cases missing responsible_agent: " + Join(", ", ids) +
      ". Please specify which agent (product_owner, architect, backend_engineer, frontend_engineer) is responsible for each failed test."
    case InvalidCaseAgent(id, agent) =>
      "Test case " + id + " has invalid responsible_agent: " + agent +
      ". Must be one of: product_owner, architect, backend_engineer, frontend_engineer."
    case PassWithFailures(n) =>
      "overall_status is 'pass' but there are " + NatToString(n) +
      " failed test cases. Please set overall_status to 'fail' or fix the test case statuses."
  }

  // ---------- user stories (src/schemas.py:555-574) ----------

  predicate StoryIncomplete(s: UserStory) {
    s.id == [] || s.title == [] || s.description == []
  }

  /** `validate_user_stories`. */
  function ValidateUserStories(parse: string -> Outcome, raw: string): (v: Verdict)
    requires Conforms(parse, UserStoriesSchema)
    ensures v.Accept? ==> v.record.Stories? && Normal(v.record)
  {
    var p := parse(raw);
    if p.Failure? then Reject(InvalidJson(UserStoriesSchema, p.error))
    else
      var stories := p.value.output.stories.stories;
      if stories == [] then Reject(NoStories)
      else
        var i := FirstWhere(StoryIncomplete, stories);
        if i >= 0 then Reject(StoryMissingFields(stories[i].id))
        else Accept(p.value.output)
  }

  /** Accepted exactly when the ladder yields stories, at least one, each with an id, a title and a description. */
  lemma UserStoriesAccepted(parse: string -> Outcome, raw: string)
    requires Conforms(parse, UserStoriesSchema)
    ensures ValidateUserStories(parse, raw).Accept? <==>
      var p := parse(raw);
      p.Success? && p.value.output.stories.stories != [] &&
      forall s :: s in p.value.output.stories.stories ==> !StoryIncomplete(s)
  {
    var p := parse(raw);
    if p.Success? {
      FirstWhereSpec(StoryIncomplete, p.value.output.stories.stories);
    }
  }

  // ---------- system design (src/schemas.py:577-604) ----------

  predicate ModelIncomplete(m: DataModel) {
    m.name == [] || m.fields == []
  }

  predicate EndpointIncomplete(e: ApiEndpoint) {
    e.httpMethod == [] || e.path == [] || e.description == []
  }

  /** `validate_system_design`. */
  function ValidateSystemDesign(parse: string -> Outcome, raw: string): (v: Verdict)
    requires Conforms(parse, SystemDesignSchema)
    ensures v.Accept? ==> v.record.Design? && Normal(v.record)
  {
    var p := parse(raw);
    if p.Failure? then Reject(InvalidJson(SystemDesignSchema, p.error))
    else
      var d := p.value.output.design;
      if d.models == [] then Reject(NoModels)
      else if d.endpoints == [] then Reject(NoEndpoints)
      else
        var i := FirstWhere(ModelIncomplete, d.models);
        if i >= 0 then Reject(ModelMissingFields(d.models[i].name))
        else
          var j := FirstWhere(EndpointIncomplete, d.endpoints);
          if j >= 0 then Reject(EndpointMissingFields(d.endpoints[j].path))
          else Accept(p.value.output)
  }

  /**
   * Accepted exactly when the ladder yields a design with models and endpoints, every model
   * named and with fields, and every endpoint with a path and a description. The method is
   * never the missing field: the validator always leaves one of the five verbs.
   */
  lemma SystemDesignAccepted(parse: string -> Outcome, raw: string)
    requires Conforms(parse, SystemDesignSchema)
    ensures ValidateSystemDesign(parse, raw).Accept? <==>
      var p := parse(raw);
      p.Success? && p.value.output.design.models != [] && p.value.output.design.endpoints != [] &&
      (forall m :: m in p.value.output.design.models ==> m.name != [] && m.fields != []) &&
      (forall e :: e in p.value.output.design.endpoints ==> e.path != [] && e.description != [])
  {
    var p := parse(raw);
    if p.Success? {
      var d := p.value.output.design;
      FirstWhereSpec(ModelIncomplete, d.models);
      FirstWhereSpec(EndpointIncomplete, d.endpoints);
      forall e | e in d.endpoints
        ensures e.httpMethod != []
      {
        assert IsMethod(e.httpMethod);
      }
    }
  }

  // ---------- code (src/schemas.py:607-658) ----------

  predicate FileIncomplete(f: CodeFile) {
    f.filename == [] || f.content == []
  }

  /** The file whose presence each code guardrail insists on. */
  function EntryKey(schema: Schema): string {
    if schema == FrontendSchema then "index" else "main"
  }

  /** The shared checks of the two code guardrails, in source order. */
  function CheckFiles(schema: Schema, files: seq<CodeFile>): (r: Option<Refusal>)
    ensures r.None? <==> files != [] && Salvage.HasFileNamed(files, EntryKey(schema)) && forall f :: f in files ==> !FileIncomplete(f)
  {
    FirstWhereSpec(FileIncomplete, files);
    if files == [] then Some(NoFiles(schema))
    else if !Salvage.HasFileNamed(files, EntryKey(schema)) then Some(MissingEntryFile(schema))
    else
      var i := FirstWhere(FileIncomplete, files);
      if i >= 0 then Some(FileMissingFields(schema, files[i].filename)) else None
  }

  /** `validate_backend_code`: accepted exactly when the parsed record is a complete file list that names a `main` file. */
  function ValidateBackendCode(parse: string -> Outcome, raw: string): (v: Verdict)
    requires Conforms(parse, BackendSchema)
    ensures v.Accept? <==>
      var p := parse(raw);
      p.Success? && CheckFiles(BackendSchema, p.value.output.backend.files).None?
    ensures v.Accept? ==> v.record.Backend? && var files := v.record.backend.files;
      files != [] && Salvage.HasFileNamed(files, "main") && forall f :: f in files ==> !FileIncomplete(f)
  {
    var p := parse(raw);
    if p.Failure? then Reject(InvalidJson(BackendSchema, p.error))
    else
      var problem := CheckFiles(BackendSchema, p.value.output.backend.files);
      if problem.Some? then Reject(problem.value) else Accept(p.value.output)
  }

  /** `validate_frontend_code`: accepted exactly when the parsed record is a complete file list that names an `index` file. */
  function ValidateFrontendCode(parse: string -> Outcome, raw: string): (v: Verdict)
    requires Conforms(parse, FrontendSchema)
    ensures v.Accept? <==>
      var p := parse(raw);
      p.Success? && CheckFiles(FrontendSchema, p.value.output.frontend.files).None?
    ensures v.Accept? ==> v.record.Frontend? && var files := v.record.frontend.files;
      files != [] && Salvage.HasFileNamed(files, "index") && forall f :: f in files ==> !FileIncomplete(f)
  {
    var p := parse(raw);
    if p.Failure? then Reject(InvalidJson(FrontendSchema, p.error))
    else
      var problem := CheckFiles(FrontendSchema, p.value.output.frontend.files);
      if problem.Some? then Reject(problem.value) else Accept(p.value.output)
  }

  // ---------- test report (src/schemas.py:661-701) ----------

  predicate CaseIncomplete(t: TestCase) {
    t.id == [] || t.description == [] || t.status == []
  }

  predicate Failed(t: TestCase) {
    t.status == "fail"
  }

  predicate FailedWithoutAgent(t: TestCase) {
    t.status == "fail" && t.responsibleAgent == []
  }

  predicate InvalidAgent(t: TestCase) {
    t.responsibleAgent != [] && !IsAgent(t.responsibleAgent)
  }

  function CaseId(t: TestCase): string {
    t.id
  }

  /** The cross-field checks of `validate_test_report`, in source order, on a decoded report. */
  function ReportProblem(r: TestReport): (problem: Option<Refusal>)
  {
    var cases := r.testCases;
    if cases == [] then Some(NoTestCases)
    else
      var i := FirstWhere(CaseIncomplete, cases);
      if i >= 0 then Some(CaseMissingFields(cases[i].id))
      else
        var unassigned := Filter(FailedWithoutAgent, cases);
        if unassigned != [] then Some(FailuresUnassigned(MapSeq(CaseId, unassigned)))
        else
          var j := FirstWhere(InvalidAgent, cases);
          if j >= 0 then Some(InvalidCaseAgent(cases[j].id, cases[j].responsibleAgent))
          else if r.overallStatus == "pass" && Filter(Failed, cases) != [] then Some(PassWithFailures(|Filter(Failed, cases)|))
          else None
  }

  /** `validate_test_report`. */
  function ValidateTestReport(parse: string -> Outcome, raw: string): (v: Verdict)
    requires Conforms(parse, TestReportSchema)
    ensures v.Accept? ==> v.record.Report? && Normal(v.record) && ReportProblem(v.record.report).None?
  {
    var p := parse(raw);
    if p.Failure? then Reject(InvalidJson(TestReportSchema, p.error))
    else
      var problem := ReportProblem(p.value.output.report);
      if problem.Some? then Reject(problem.value) else Accept(p.value.output)
  }

  /**
   * A report is refused exactly when it has no test cases, a case without an id or a
   * description, a failed case without a responsible agent, or an overall "pass" beside a
   * failed case. The missing-status and invalid-agent checks of the source never fire on a
   * validated report.
   */
  lemma ReportProblemIff(r: TestReport)
    requires Normal(Report(r))
    ensures ReportProblem(r).Some? <==>
      r.testCases == [] ||
      (exists t :: t in r.testCases && (t.id == [] || t.description == [])) ||
      (exists t :: t in r.testCases && FailedWithoutAgent(t)) ||
      (r.overallStatus == "pass" && exists t :: t in r.testCases && Failed(t))
  {
    var cases := r.testCases;
    FirstWhereSpec(CaseIncomplete, cases);
    FirstWhereSpec(InvalidAgent, cases);
    forall t | t in cases
      ensures t.status != [] && !InvalidAgent(t)
    {
      assert TestCaseNormal(t);
    }
    if exists t :: t in cases && FailedWithoutAgent(t) {
      var t :| t in cases && FailedWithoutAgent(t);
      var k :| 0 <= k < |cases| && cases[k] == t;
    }
    if exists t :: t in cases && Failed(t) {
      var t :| t in cases && Failed(t);
      var k :| 0 <= k < |cases| && cases[k] == t;
    }
  }

  /**
   * Which refusal the test-report guardrail gives: no cases; the ids of the failed cases that
   * have no responsible agent; the number of failed cases beside an overall "pass".
   */
  lemma ReportRefusals(r: TestReport)
    requires Normal(Report(r))
    ensures r.testCases == [] ==> ReportProblem(r) == Some(NoTestCases)
    ensures (forall t :: t in r.testCases ==> !CaseIncomplete(t)) && Filter(FailedWithoutAgent, r.testCases) != [] ==>
      ReportProblem(r) == Some(FailuresUnassigned(MapSeq(CaseId, Filter(FailedWithoutAgent, r.testCases))))
    ensures (r.testCases != [] && (forall t :: t in r.testCases ==> !CaseIncomplete(t)) &&
             Filter(FailedWithoutAgent, r.testCases) == [] && r.overallStatus == "pass" && Filter(Failed, r.testCases) != []) ==>
      ReportProblem(r) == Some(PassWithFailures(|Filter(Failed, r.testCases)|))
  {
    FirstWhereSpec(CaseIncomplete, r.testCases);
    FirstWhereSpec(InvalidAgent, r.testCases);
    forall t | t in r.testCases
      ensures !InvalidAgent(t)
    {
      assert TestCaseNormal(t);
    }
  }

  /** The refusal for the first incomplete test case names that case. */
  lemma IncompleteCaseNamed(r: TestReport, k: nat)
    requires k < |r.testCases| && CaseIncomplete(r.testCases[k])
    requires forall i :: 0 <= i < k ==> !CaseIncomplete(r.testCases[i])
    ensures ReportProblem(r) == Some(CaseMissingFields(r.testCases[k].id))
  {
    FirstWhereSpec(CaseIncomplete, r.testCases);
  }
}
