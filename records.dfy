/**
 * The output records of the five pipeline stages (src/schemas.py:420-548) and the field
 * validators Pydantic runs whenever one of them is built, whether by `model_validate` or by a
 * direct constructor call.
 */
module Records {
  import opened Text

  datatype UserStory = UserStory(id: string, title: string, description: string, priority: string)
  datatype UserStoriesOutput = UserStoriesOutput(stories: seq<UserStory>, summary: string)

  datatype ApiEndpoint = ApiEndpoint(httpMethod: string, path: string, description: string)
  datatype DataModel = DataModel(name: string, fields: seq<string>)
  datatype SystemDesign = SystemDesign(models: seq<DataModel>, endpoints: seq<ApiEndpoint>, architectureNotes: string)

  datatype CodeFile = CodeFile(filename: string, content: string, description: string)
  datatype BackendCode = BackendCode(files: seq<CodeFile>, setupInstructions: string)
  datatype FrontendCode = FrontendCode(files: seq<CodeFile>, setupInstructions: string)

  datatype TestCase = TestCase(id: string, description: string, status: string, notes: string, responsibleAgent: string)
  datatype TestReport = TestReport(
    overallStatus: string,
    testCases: seq<TestCase>,
    summary: string,
    recommendations: seq<string>,
    issuesByAgent: map<string, seq<string>>)

  /** The schema a caller asks `safe_parse_json` for. */
  datatype Schema = UserStoriesSchema | SystemDesignSchema | BackendSchema | FrontendSchema | TestReportSchema

  /** A record of one of the five schemas. */
  datatype Output =
    | Stories(stories: UserStoriesOutput)
    | Design(design: SystemDesign)
    | Backend(backend: BackendCode)
    | Frontend(frontend: FrontendCode)
    | Report(report: TestReport)

  predicate OfSchema(o: Output, schema: Schema) {
    match schema
    case UserStoriesSchema => o.Stories?
    case SystemDesignSchema => o.Design?
    case BackendSchema => o.Backend?
    case FrontendSchema => o.Frontend?
    case TestReportSchema => o.Report?
  }

  /** The four agents that produce stage outputs. */
  predicate IsAgent(a: string) {
    a == "product_owner" || a == "architect" || a == "backend_engineer" || a == "frontend_engineer"
  }

  /** `issues_by_agent`'s default: an empty list for each of the four agents. */
  const NoIssues: map<string, seq<string>> :=
    map["product_owner" := [], "architect" := [], "backend_engineer" := [], "frontend_engineer" := []]

  /** `v.lower().strip()`. */
  function Canon(v: string): string {
    Strip(Lower(v))
  }

  /** `v.upper().strip()`. */
  function CanonUpper(v: string): string {
    Strip(Upper(v))
  }

  /** Text made of lower-case ASCII letters and underscores. */
  predicate LowerWord(w: string) {
    forall i :: 0 <= i < |w| ==> 'a' <= w[i] <= 'z' || w[i] == '_'
  }

  /** Text made of upper-case ASCII letters. */
  predicate UpperWord(w: string) {
    forall i :: 0 <= i < |w| ==> 'A' <= w[i] <= 'Z'
  }

  /** A lower-case word is its own `lower().strip()`. */
  lemma CanonOfLowerWord(w: string)
    requires LowerWord(w)
    ensures Canon(w) == w
  {
    assert Lower(w) == w;
    if w != [] {
      StripOfUnspaced(w);
    }
  }

  /** An upper-case word is its own `upper().strip()`. */
  lemma CanonOfUpperWord(w: string)
    requires UpperWord(w)
    ensures CanonUpper(w) == w
  {
    assert Upper(w) == w;
    if w != [] {
      StripOfUnspaced(w);
    }
  }

  /** Lower-casing forgets ASCII case: `v` and `v.upper()` lower-case alike. */
  lemma LowerOfUpper(v: string)
    ensures Lower(Upper(v)) == Lower(v)
  {
    assert forall i :: 0 <= i < |v| ==> Lower(Upper(v))[i] == LowerChar(UpperChar(v[i]));
  }

  /** Upper-casing forgets ASCII case: `v` and `v.lower()` upper-case alike. */
  lemma UpperOfLower(v: string)
    ensures Upper(Lower(v)) == Upper(v)
  {
    assert forall i :: 0 <= i < |v| ==> Upper(Lower(v))[i] == UpperChar(LowerChar(v[i]));
  }

  // ---------- priority ----------

  predicate IsPriority(w: string) {
    w == "high" || w == "medium" || w == "low"
  }

  /** `UserStory.validate_priority`. */
  function ValidatePriority(v: string): (r: string)
    ensures IsPriority(r)
  {
    var w := Canon(v);
    if !IsPriority(w) then "medium" else w
  }

  /** A priority is kept exactly when it is recognised after `lower().strip()`; otherwise `medium`. */
  lemma PriorityRecognised(v: string)
    ensures ValidatePriority(v) == Canon(v) <==> IsPriority(Canon(v))
    ensures !IsPriority(Canon(v)) ==> ValidatePriority(v) == "medium"
  {
  }

  /** The validator leaves each value of its range as it is. */
  lemma PriorityFixes(w: string)
    requires IsPriority(w)
    ensures ValidatePriority(w) == w
  {
    if w == "high" { CanonOfLowerWord("high"); }
    else if w == "medium" { CanonOfLowerWord("medium"); }
    else { CanonOfLowerWord("low"); }
  }

  lemma PriorityIdempotent(v: string)
    ensures ValidatePriority(ValidatePriority(v)) == ValidatePriority(v)
  {
    PriorityFixes(ValidatePriority(v));
  }


  lemma PriorityIgnoresCase(v: string)
    ensures ValidatePriority(Upper(v)) == ValidatePriority(v)
  {
    LowerOfUpper(v);
  }

  // ---------- HTTP method ----------

  predicate IsMethod(w: string) {
    w == "GET" || w == "POST" || w == "PUT" || w == "DELETE" || w == "PATCH"
  }

  /** `APIEndpoint.validate_method`. */
  function ValidateMethod(v: string): (r: string)
    ensures IsMethod(r)
  {
    var w := CanonUpper(v);
    if !IsMethod(w) then "GET" else w
  }

  /** A method is kept exactly when it is recognised after `upper().strip()`; otherwise `GET`. */
  lemma MethodRecognised(v: string)
    ensures ValidateMethod(v) == CanonUpper(v) <==> IsMethod(CanonUpper(v))
    ensures !IsMethod(CanonUpper(v)) ==> ValidateMethod(v) == "GET"
  {
  }

  /** The validator leaves each value of its range as it is. */
  lemma MethodFixes(w: string)
    requires IsMethod(w)
    ensures ValidateMethod(w) == w
  {
    if w == "GET" { CanonOfUpperWord("GET"); }
    else if w == "POST" { CanonOfUpperWord("POST"); }
    else if w == "PUT" { CanonOfUpperWord("PUT"); }
    else if w == "DELETE" { CanonOfUpperWord("DELETE"); }
    else { CanonOfUpperWord("PATCH"); }
  }

  lemma MethodIdempotent(v: string)
    ensures ValidateMethod(ValidateMethod(v)) == ValidateMethod(v)
  {
    MethodFixes(ValidateMethod(v));
  }


  lemma MethodIgnoresCase(v: string)
    ensures ValidateMethod(Lower(v)) == ValidateMethod(v)
  {
    UpperOfLower(v);
  }

  // ---------- test-case status ----------

  predicate IsStatus(w: string) {
    w == "pass" || w == "fail" || w == "skip"
  }

  /** The spellings `validate_status` accepts. */
  predicate IsStatusSpelling(w: string) {
    IsStatus(w) || w == "passed" || w == "failed" || w == "skipped"
  }

  /** The values `validate_status` as written can return: the three statuses and `skipp`. */
  predicate IsStatusAsWritten(w: string) {
    IsStatus(w) || w == "skipp"
  }

  /** `TestCase.validate_status` as written: `failed` and `skipped` lose every `ed`. */
  function ValidateStatusAsWritten(v: string): (r: string)
    ensures IsStatusAsWritten(r)
    ensures !IsStatusSpelling(Canon(v)) ==> r == "skip"
    ensures Canon(v) == "failed" ==> r == "fail"
    ensures Canon(v) == "skipped" ==> r == "skipp"
  {
    var w := Canon(v);
    if !IsStatusSpelling(w) then "skip"
    else if w == "passed" then "pass"
    else if w == "failed" then FailedReplaced(); ReplaceAll(w, "ed", "")
    else if w == "skipped" then SkippedReplaced(); ReplaceAll(w, "ed", "")
    else w
  }

  /**
   * As written, every spelling of pass and fail still maps to its stem, so a failed case is
   * recognised whichever tense the agent used.
   */
  lemma StatusAsWrittenStems(v: string)
    ensures Canon(v) == "pass" || Canon(v) == "passed" ==> ValidateStatusAsWritten(v) == "pass"
    ensures Canon(v) == "fail" || Canon(v) == "failed" ==> ValidateStatusAsWritten(v) == "fail"
    ensures ValidateStatusAsWritten(v) == "fail" ==> Canon(v) == "fail" || Canon(v) == "failed"
    ensures ValidateStatusAsWritten(v) == "pass" ==> Canon(v) == "pass" || Canon(v) == "passed"
  {
    var r := ValidateStatusAsWritten(v);
    assert r[0] == 's' ==> r != "fail" && r != "pass";
  }

  /** As written, the validator is not idempotent: `skipped` gives `skipp`, which gives `skip`. */
  lemma StatusAsWrittenNotIdempotent(v: string)
    requires Canon(v) == "skipped"
    ensures ValidateStatusAsWritten(ValidateStatusAsWritten(v)) == "skip" != ValidateStatusAsWritten(v)
  {
    var u := ValidateStatusAsWritten(v);
    SkippIsNoSpelling(u);
    NoSpellingIsSkip(u);
    assert |u| == 5;
  }

  /** `skipp` is a lower-case word, and it is none of the spellings `validate_status` accepts. */
  lemma SkippIsNoSpelling(u: string)
    requires u == "skipp"
    ensures LowerWord(u) && !IsStatusSpelling(u)
  {
    assert |u| == 5 && u[0] == 's';
  }

  /** A lower-case word that is no accepted spelling validates, as written, to `skip`. */
  lemma NoSpellingIsSkip(u: string)
    requires LowerWord(u) && !IsStatusSpelling(u)
    ensures ValidateStatusAsWritten(u) == "skip"
  {
    CanonOfLowerWord(u);
  }

  /**
   * `"skipped".replace('ed', '')` is `"skipp"`, which is not a status: any spelling of
   * `skipped` (`"skipped"` itself, `" Skipped "`, ...) leaves the validator outside its range.
   */
  lemma SkippedBecomesSkipp(v: string)
    requires Canon(v) == "skipped"
    ensures ValidateStatusAsWritten(v) == "skipp" && !IsStatus(ValidateStatusAsWritten(v))
  {
    assert "skipped"[0] == 's' && "passed"[0] == 'p';
    SkippedReplaced();
    assert |"skipp"| == 5 && |"skip"| == 4 && "pass"[0] == 'p' && "fail"[0] == 'f';
  }

  /** The one `ed` of `failed` is its last two letters. */
  lemma FailedReplaced()
    ensures ReplaceAll("failed", "ed", "") == "fail"
  {
    assert ReplaceAll("ed", "ed", "") == "" by {
      assert OccursAt("ed", "ed", 0);
      assert "ed"[2..] == [];
    }
    KeepsHead("led", "ed", 'l');
    KeepsHead("iled", "led", 'i');
    KeepsHead("ailed", "iled", 'a');
    KeepsHead("failed", "ailed", 'f');
  }

  /** The one `ed` of `skipped` is its last two letters. */
  lemma SkippedReplaced()
    ensures ReplaceAll("skipped", "ed", "") == "skipp"
  {
    assert ReplaceAll("ed", "ed", "") == "" by {
      assert OccursAt("ed", "ed", 0);
      assert "ed"[2..] == [];
    }
    KeepsHead("ped", "ed", 'p');
    KeepsHead("pped", "ped", 'p');
    KeepsHead("ipped", "pped", 'i');
    KeepsHead("kipped", "ipped", 'k');
    KeepsHead("skipped", "kipped", 's');
  }

  /** One step of `SkippedReplaced`: a head that is not `e` is kept. */
  lemma KeepsHead(s: string, rest: string, c: char)
    requires |s| >= 2 && s[0] == c && c != 'e' && s[1..] == rest
    ensures ReplaceAll(s, "ed", "") == [c] + ReplaceAll(rest, "ed", "")
  {
    assert !OccursAt(s, "ed", 0);
    ReplaceAllKeepsHead(s, "ed", "");
  }

  /** `TestCase.validate_status` with the past tenses mapped as intended: `failed` and `skipped` to their stems. */
  function ValidateStatus(v: string): (r: string)
    ensures IsStatus(r)
  {
    var w := Canon(v);
    if !IsStatusSpelling(w) then "skip"
    else if w == "passed" then "pass"
    else if w == "failed" then "fail"
    else if w == "skipped" then "skip"
    else w
  }

  /** Every accepted spelling maps to its stem, and everything else to `skip`. */
  lemma StatusStems(v: string)
    ensures Canon(v) == "pass" || Canon(v) == "passed" ==> ValidateStatus(v) == "pass"
    ensures Canon(v) == "fail" || Canon(v) == "failed" ==> ValidateStatus(v) == "fail"
    ensures ValidateStatus(v) == "fail" ==> Canon(v) == "fail" || Canon(v) == "failed"
    ensures ValidateStatus(v) == "pass" ==> Canon(v) == "pass" || Canon(v) == "passed"
  {
    assert "skip"[0] == 's' && "pass"[0] == 'p' && "fail"[0] == 'f';
  }

  /** The validator leaves each value of its range as it is. */
  lemma StatusFixes(w: string)
    requires IsStatus(w)
    ensures ValidateStatus(w) == w
  {
    if w == "pass" { CanonOfLowerWord("pass"); }
    else if w == "fail" { CanonOfLowerWord("fail"); }
    else { CanonOfLowerWord("skip"); }
  }

  lemma StatusIdempotent(v: string)
    ensures ValidateStatus(ValidateStatus(v)) == ValidateStatus(v)
  {
    StatusFixes(ValidateStatus(v));
  }


  // ---------- responsible agent ----------

  /** `TestCase.validate_responsible_agent`. */
  function ValidateResponsibleAgent(v: string): (r: string)
    ensures r == [] || IsAgent(r)
  {
    var w := Canon(v);
    if !(IsAgent(w) || w == []) then [] else w
  }

  /** An agent name is kept exactly when it is recognised after `lower().strip()`. */
  lemma AgentRecognised(v: string)
    ensures IsAgent(ValidateResponsibleAgent(v)) <==> IsAgent(Canon(v))
    ensures IsAgent(Canon(v)) ==> ValidateResponsibleAgent(v) == Canon(v)
  {
  }

  /** The validator leaves each value of its range as it is. */
  lemma AgentFixes(w: string)
    requires w == [] || IsAgent(w)
    ensures ValidateResponsibleAgent(w) == w
  {
    if w == "product_owner" { CanonOfLowerWord("product_owner"); }
    else if w == "architect" { CanonOfLowerWord("architect"); }
    else if w == "backend_engineer" { CanonOfLowerWord("backend_engineer"); }
    else if w == "frontend_engineer" { CanonOfLowerWord("frontend_engineer"); }
    else { CanonOfLowerWord(""); }
  }

  lemma AgentIdempotent(v: string)
    ensures ValidateResponsibleAgent(ValidateResponsibleAgent(v)) == ValidateResponsibleAgent(v)
  {
    AgentFixes(ValidateResponsibleAgent(v));
  }


  // ---------- overall status ----------

  predicate IsOverall(w: string) {
    w == "pass" || w == "fail" || w == "needs_review"
  }

  /** `TestReport.validate_overall_status`. */
  function ValidateOverallStatus(v: string): (r: string)
    ensures IsOverall(r)
  {
    var w := Canon(v);
    if !(IsOverall(w) || w == "passed" || w == "failed") then "needs_review"
    else if w == "passed" then "pass"
    else if w == "failed" then "fail"
    else w
  }

  /** Only `pass` or `passed` (in any case, with any surrounding whitespace) gives a passing verdict. */
  lemma OverallPassOnlyFromPass(v: string)
    ensures ValidateOverallStatus(v) == "pass" <==> Canon(v) == "pass" || Canon(v) == "passed"
  {
  }

  /** The validator leaves each value of its range as it is. */
  lemma OverallFixes(w: string)
    requires IsOverall(w)
    ensures ValidateOverallStatus(w) == w
  {
    if w == "pass" { CanonOfLowerWord("pass"); }
    else if w == "fail" { CanonOfLowerWord("fail"); }
    else { CanonOfLowerWord("needs_review"); assert w != "passed" && w != "failed"; }
  }

  lemma OverallIdempotent(v: string)
    ensures ValidateOverallStatus(ValidateOverallStatus(v)) == ValidateOverallStatus(v)
  {
    OverallFixes(ValidateOverallStatus(v));
  }


  // ---------- building records: constructors run the validators ----------

  function NewUserStory(id: string, title: string, description: string, priority: string): (s: UserStory)
    ensures s.id == id && s.title == title && s.description == description
    ensures s.priority == ValidatePriority(priority)
  {
    UserStory(id, title, description, ValidatePriority(priority))
  }

  function NewApiEndpoint(httpMethod: string, path: string, description: string): (e: ApiEndpoint)
    ensures e.path == path && e.description == description && e.httpMethod == ValidateMethod(httpMethod)
  {
    ApiEndpoint(ValidateMethod(httpMethod), path, description)
  }

  function NewTestCase(id: string, description: string, status: string, notes: string, agent: string): (t: TestCase)
    ensures t.id == id && t.description == description && t.notes == notes
    ensures t.status == ValidateStatusAsWritten(status) && t.responsibleAgent == ValidateResponsibleAgent(agent)
    ensures TestCaseNormal(t)
  {
    TestCase(id, description, ValidateStatusAsWritten(status), notes, ValidateResponsibleAgent(agent))
  }

  function NewTestReport(overall: string, cases: seq<TestCase>, summary: string, recommendations: seq<string>,
                         issues: map<string, seq<string>>): (r: TestReport)
    ensures r.overallStatus == ValidateOverallStatus(overall)
    ensures r.testCases == cases && r.summary == summary && r.recommendations == recommendations
    ensures r.issuesByAgent == issues
  {
    TestReport(ValidateOverallStatus(overall), cases, summary, recommendations, issues)
  }

  /** Every enum field of a test case holds a value its validator can return. */
  predicate TestCaseNormal(t: TestCase) {
    IsStatusAsWritten(t.status) && (t.responsibleAgent == [] || IsAgent(t.responsibleAgent))
  }

  /** Every enum field of a record holds a value its validator can return. */
  predicate Normal(o: Output) {
    match o
    case Stories(u) => forall s :: s in u.stories ==> IsPriority(s.priority)
    case Design(d) => forall e :: e in d.endpoints ==> IsMethod(e.httpMethod)
    case Backend(_) => true
    case Frontend(_) => true
    case Report(r) => IsOverall(r.overallStatus) && forall t :: t in r.testCases ==> TestCaseNormal(t)
  }

  /** Two records of the same schema. */
  predicate SameKind(a: Output, b: Output) {
    a.Stories? == b.Stories? && a.Design? == b.Design? && a.Backend? == b.Backend? &&
    a.Frontend? == b.Frontend? && a.Report? == b.Report?
  }

  /** The validators Pydantic runs on a record decoded by `model_validate`. */
  function Validated(o: Output): (v: Output)
    ensures Normal(v)
    ensures SameKind(v, o)
    ensures forall schema :: OfSchema(v, schema) <==> OfSchema(o, schema)
  {
    match o
    case Stories(u) =>
      Stories(u.(stories := ValidatedStories(u.stories)))
    case Design(d) =>
      Design(d.(endpoints := ValidatedEndpoints(d.endpoints)))
    case Backend(_) => o
    case Frontend(_) => o
    case Report(r) =>
      Report(ValidatedReport(r))
  }

  /** `TestReport.validate_overall_status`, and the test cases' validators on each case. */
  function ValidatedReport(r: TestReport): (v: TestReport)
    ensures IsOverall(v.overallStatus) && forall t :: t in v.testCases ==> TestCaseNormal(t)
  {
    r.(overallStatus := ValidateOverallStatus(r.overallStatus), testCases := ValidatedCases(r.testCases))
  }

  /** `UserStory.validate_priority` run on each decoded story. */
  function ValidatedStories(ss: seq<UserStory>): (vs: seq<UserStory>)
    ensures |vs| == |ss|
    ensures forall s :: s in vs ==> IsPriority(s.priority)
  {
    seq(|ss|, i requires 0 <= i < |ss| => ss[i].(priority := ValidatePriority(ss[i].priority)))
  }

  /** `APIEndpoint.validate_method` run on each decoded endpoint. */
  function ValidatedEndpoints(es: seq<ApiEndpoint>): (vs: seq<ApiEndpoint>)
    ensures |vs| == |es|
    ensures forall e :: e in vs ==> IsMethod(e.httpMethod)
  {
    seq(|es|, i requires 0 <= i < |es| => es[i].(httpMethod := ValidateMethod(es[i].httpMethod)))
  }

  /** `TestCase`'s validators run on each decoded test case; every result is normal. */
  function ValidatedCases(cs: seq<TestCase>): (vs: seq<TestCase>)
    ensures |vs| == |cs|
    ensures forall t :: t in vs ==> TestCaseNormal(t)
  {
    seq(|cs|, i requires 0 <= i < |cs| => NewTestCase(cs[i].id, cs[i].description, cs[i].status, cs[i].notes, cs[i].responsibleAgent))
  }
}
