/**
 * `recover_truncated_output` and the `_recover_*` salvagers (src/schemas.py:188-413): when no
 * rung of the ladder parses, complete objects are picked out of the raw text one by one.
 *
 * The regular-expression searches are not modelled: `Scans` holds, for one text, the groups of
 * every match of each pattern in order (`re.finditer`), and the first match of each single-value
 * pattern (`re.search`). What the salvagers do with those groups is modelled exactly.
 */
module Salvage {
  import opened Wrappers
  import opened Text
  import opened Records
  import opened Lists

  datatype StoryMatch = StoryMatch(id: string, title: string, description: string, priority: string)
  datatype ModelMatch = ModelMatch(name: string, fields: seq<string>)
  datatype EndpointMatch = EndpointMatch(httpMethod: string, path: string, description: string)
  datatype FileMatch = FileMatch(filename: string, content: string, description: string)
  datatype SimpleFileMatch = SimpleFileMatch(filename: string, content: string)
  datatype CaseMatch = CaseMatch(id: string, description: string, status: string, notes: string, agent: string)
  datatype SimpleCaseMatch = SimpleCaseMatch(id: string, description: string, status: string)

  /** What the salvagers' patterns find in one text. */
  datatype Scans = Scans(
    stories: seq<StoryMatch>,
    summary: Option<string>,
    models: seq<ModelMatch>,
    endpoints: seq<EndpointMatch>,
    notes: Option<string>,
    files: seq<FileMatch>,
    simpleFiles: seq<SimpleFileMatch>,
    setup: Option<string>,
    cases: seq<CaseMatch>,
    simpleCases: seq<SimpleCaseMatch>,
    overallStatus: Option<string>,
    recommendations: Option<seq<string>>)

  /** `s.replace('\\"', '"')`: an escaped quote becomes a quote. */
  function UnescapeQuotes(s: string): string {
    ReplaceAll(s, "\\\"", "\"")
  }

  /** The four replacements applied to salvaged file content, in the source's order. */
  function UnescapeContent(s: string): string {
    ReplaceAll(ReplaceAll(ReplaceAll(ReplaceAll(s, "\\n", "\n"), "\\t", "\t"), "\\\"", "\""), "\\\\", "\\")
  }

  /** A pattern starting with a backslash does not occur in text without one. */
  lemma NoBackslashNoEscape(s: string, pat: string)
    requires '\\' !in s && pat != [] && pat[0] == '\\'
    ensures !Contains(s, pat)
  {
    forall k | 0 <= k <= |s|
      ensures !OccursAt(s, pat, k)
    {
      if k < |s| {
        assert s[k] != '\\';
      }
    }
    ContainsIff(s, pat);
  }

  /** Content without a backslash is salvaged as it is. */
  lemma UnescapeContentPlain(s: string)
    requires '\\' !in s
    ensures UnescapeContent(s) == s && UnescapeQuotes(s) == s
  {
    NoBackslashNoEscape(s, "\\n");
    NoBackslashNoEscape(s, "\\t");
    NoBackslashNoEscape(s, "\\\"");
    NoBackslashNoEscape(s, "\\\\");
  }

  // ---------- user stories (src/schemas.py:208-231) ----------

  function StoryOf(m: StoryMatch): UserStory {
    NewUserStory(m.id, m.title, ReplaceAll(UnescapeQuotes(m.description), "\\n", "\n"), m.priority)
  }

  /** `_recover_user_stories`: every complete story object, or nothing when there is none. */
  function RecoverUserStories(sc: Scans): (r: Option<UserStoriesOutput>)
    ensures r.None? <==> sc.stories == []
    ensures r.Some? ==> |r.value.stories| == |sc.stories| && r.value.summary == sc.summary.GetOr("")
    ensures r.Some? ==> forall i :: 0 <= i < |sc.stories| ==> r.value.stories[i].id == sc.stories[i].id
    ensures r.Some? ==> forall s :: s in r.value.stories ==> IsPriority(s.priority)
  {
    if sc.stories == [] then None
    else Some(UserStoriesOutput(MapSeq(StoryOf, sc.stories), sc.summary.GetOr("")))
  }

  method RecoverUserStoriesLoop(sc: Scans) returns (r: Option<UserStoriesOutput>)
    ensures r == RecoverUserStories(sc)
  {
    var stories := Collect(StoryOf, sc.stories);
    if stories == [] {
      return None;
    }
    return Some(UserStoriesOutput(stories, sc.summary.GetOr("")));
  }

  // ---------- system design (src/schemas.py:234-269) ----------

  function ModelOf(m: ModelMatch): DataModel {
    DataModel(m.name, m.fields)
  }

  function EndpointOf(m: EndpointMatch): ApiEndpoint {
    NewApiEndpoint(m.httpMethod, m.path, UnescapeQuotes(m.description))
  }

  /** The model put in when the text had endpoints but no model. */
  const PlaceholderModel := DataModel("Item", ["id: int", "name: str"])

  /** The endpoint put in when the text had models but no endpoint. */
  function PlaceholderEndpoint(): ApiEndpoint {
    NewApiEndpoint("GET", "/api/items", "Get all items")
  }

  /** `_recover_system_design`: found models and endpoints, each list padded with a placeholder when empty. */
  function RecoverSystemDesign(sc: Scans): (r: Option<SystemDesign>)
    ensures r.None? <==> sc.models == [] && sc.endpoints == []
    ensures r.Some? ==> r.value.models != [] && r.value.endpoints != [] && r.value.architectureNotes == sc.notes.GetOr("")
    ensures r.Some? && sc.models != [] ==> |r.value.models| == |sc.models|
    ensures r.Some? && sc.endpoints != [] ==> |r.value.endpoints| == |sc.endpoints|
    ensures r.Some? ==> forall e :: e in r.value.endpoints ==> IsMethod(e.httpMethod)
  {
    if sc.models == [] && sc.endpoints == [] then None
    else
      Some(SystemDesign(
        if sc.models != [] then MapSeq(ModelOf, sc.models) else [PlaceholderModel],
        if sc.endpoints != [] then MapSeq(EndpointOf, sc.endpoints) else [PlaceholderEndpoint()],
        sc.notes.GetOr("")))
  }

  method RecoverSystemDesignLoop(sc: Scans) returns (r: Option<SystemDesign>)
    ensures r == RecoverSystemDesign(sc)
  {
    var models := Collect(ModelOf, sc.models);
    var endpoints := Collect(EndpointOf, sc.endpoints);
    if models == [] && endpoints == [] {
      return None;
    }
    return Some(SystemDesign(
      if models != [] then models else [PlaceholderModel],
      if endpoints != [] then endpoints else [PlaceholderEndpoint()],
      sc.notes.GetOr("")));
  }

  // ---------- code files (src/schemas.py:272-353) ----------

  function FileOf(m: FileMatch): CodeFile {
    CodeFile(m.filename, UnescapeContent(m.content), m.description)
  }

  function SimpleFileOf(m: SimpleFileMatch): CodeFile {
    CodeFile(m.filename, UnescapeContent(m.content), "")
  }

  /**
   * The salvaged files: the objects with a description, or, only when there is none, the
   * objects matched without one.
   */
  function FilesOf(sc: Scans): (r: seq<CodeFile>)
    ensures r == [] <==> sc.files == [] && sc.simpleFiles == []
    ensures sc.files != [] ==> |r| == |sc.files| && forall i :: 0 <= i < |r| ==> r[i].filename == sc.files[i].filename
    ensures sc.files == [] ==> |r| == |sc.simpleFiles| && forall i :: 0 <= i < |r| ==> r[i].filename == sc.simpleFiles[i].filename
  {
    if sc.files != [] then MapSeq(FileOf, sc.files) else MapSeq(SimpleFileOf, sc.simpleFiles)
  }

  /** The file loops shared by both code salvagers, with the fallback to the simpler pattern. */
  method CollectFiles(sc: Scans) returns (files: seq<CodeFile>)
    ensures files == FilesOf(sc)
  {
    files := Collect(FileOf, sc.files);
    if files == [] {
      files := Collect(SimpleFileOf, sc.simpleFiles);
    }
  }

  /** `any(key in f['filename'].lower() for f in files)`. */
  predicate HasFileNamed(files: seq<CodeFile>, key: string) {
    exists i :: 0 <= i < |files| && Contains(Lower(files[i].filename), key)
  }

  /** The `any(...)` test, as a search over the files. */
  method FindFileNamed(files: seq<CodeFile>, key: string) returns (found: bool)
    ensures found <==> HasFileNamed(files, key)
  {
    for k := 0 to |files|
      invariant forall i :: 0 <= i < k ==> !Contains(Lower(files[i].filename), key)
    {
      if Contains(Lower(files[k].filename), key) {
        return true;
      }
    }
    return false;
  }

  const BackendSetup := "pip install fastapi uvicorn && uvicorn main:app --reload"
  const FrontendSetup := "Open index.html in browser"

  /** `_recover_backend_code`: the salvaged files, only when one of them is named like `main`. */
  function RecoverBackendCode(sc: Scans): (r: Option<BackendCode>)
    ensures r.Some? <==> HasFileNamed(FilesOf(sc), "main")
    ensures r.Some? ==> r.value.files == FilesOf(sc) && r.value.setupInstructions == sc.setup.GetOr(BackendSetup)
  {
    var files := FilesOf(sc);
    if files != [] && HasFileNamed(files, "main") then Some(BackendCode(files, sc.setup.GetOr(BackendSetup)))
    else None
  }

  /** `_recover_frontend_code`: the salvaged files, only when one of them is named like `index`. */
  function RecoverFrontendCode(sc: Scans): (r: Option<FrontendCode>)
    ensures r.Some? <==> HasFileNamed(FilesOf(sc), "index")
    ensures r.Some? ==> r.value.files == FilesOf(sc) && r.value.setupInstructions == sc.setup.GetOr(FrontendSetup)
  {
    var files := FilesOf(sc);
    if files != [] && HasFileNamed(files, "index") then Some(FrontendCode(files, sc.setup.GetOr(FrontendSetup)))
    else None
  }

  method RecoverBackendCodeLoop(sc: Scans) returns (r: Option<BackendCode>)
    ensures r == RecoverBackendCode(sc)
  {
    var files := CollectFiles(sc);
    if files != [] {
      var hasMain := FindFileNamed(files, "main");
      if hasMain {
        return Some(BackendCode(files, sc.setup.GetOr(BackendSetup)));
      }
    }
    return None;
  }

  method RecoverFrontendCodeLoop(sc: Scans) returns (r: Option<FrontendCode>)
    ensures r == RecoverFrontendCode(sc)
  {
    var files := CollectFiles(sc);
    if files != [] {
      var hasIndex := FindFileNamed(files, "index");
      if hasIndex {
        return Some(FrontendCode(files, sc.setup.GetOr(FrontendSetup)));
      }
    }
    return None;
  }

  // ---------- test report (src/schemas.py:356-413) ----------

  function CaseOf(m: CaseMatch): TestCase {
    NewTestCase(m.id, UnescapeQuotes(m.description), m.status, UnescapeQuotes(m.notes), m.agent)
  }

  function SimpleCaseOf(m: SimpleCaseMatch): TestCase {
    NewTestCase(m.id, UnescapeQuotes(m.description), m.status, "", "")
  }

  /** The salvaged test cases: complete objects, or, only when there is none, the shorter pattern's. */
  function CasesOf(sc: Scans): (r: seq<TestCase>)
    ensures r == [] <==> sc.cases == [] && sc.simpleCases == []
    ensures sc.cases != [] ==> |r| == |sc.cases| && forall i :: 0 <= i < |r| ==> r[i].id == sc.cases[i].id
    ensures sc.cases == [] ==> |r| == |sc.simpleCases| && forall i :: 0 <= i < |r| ==> r[i].id == sc.simpleCases[i].id
  {
    if sc.cases != [] then MapSeq(CaseOf, sc.cases) else MapSeq(SimpleCaseOf, sc.simpleCases)
  }

  /** The test-case loops, with the fallback to the shorter pattern. */
  method CollectCases(sc: Scans) returns (cases: seq<TestCase>)
    ensures cases == CasesOf(sc)
  {
    cases := Collect(CaseOf, sc.cases);
    if cases == [] {
      cases := Collect(SimpleCaseOf, sc.simpleCases);
    }
  }

  /** `_recover_test_report`. */
  function RecoverTestReport(sc: Scans): (r: Option<TestReport>)
    ensures r.None? <==> sc.cases == [] && sc.simpleCases == []
    ensures r.Some? ==> r.value.testCases == CasesOf(sc) && r.value.issuesByAgent == NoIssues
    ensures r.Some? ==> r.value.summary == sc.summary.GetOr("") && r.value.recommendations == sc.recommendations.GetOr([])
  {
    var cases := CasesOf(sc);
    if cases == [] then None
    else
      Some(NewTestReport(sc.overallStatus.GetOr("needs_review"), cases, sc.summary.GetOr(""),
                         sc.recommendations.GetOr([]), NoIssues))
  }

  /**
   * Salvage never makes up a passing verdict: without an `overall_status` in the text the report
   * needs review, and it passes only when the text itself says `pass` or `passed`.
   */
  lemma SalvagedVerdict(sc: Scans)
    requires RecoverTestReport(sc).Some?
    ensures sc.overallStatus.None? ==> RecoverTestReport(sc).value.overallStatus == "needs_review"
    ensures RecoverTestReport(sc).value.overallStatus == "pass" <==>
              sc.overallStatus.Some? && (Canon(sc.overallStatus.value) == "pass" || Canon(sc.overallStatus.value) == "passed")
  {
    if sc.overallStatus.None? {
      OverallFixes("needs_review");
    }
    OverallPassOnlyFromPass(sc.overallStatus.GetOr("needs_review"));
  }

  /** Every salvaged test case carries a status and an agent its validators can return. */
  lemma SalvagedCasesNormal(sc: Scans)
    requires RecoverTestReport(sc).Some?
    ensures Normal(Report(RecoverTestReport(sc).value))
  {
  }

  method RecoverTestReportLoop(sc: Scans) returns (r: Option<TestReport>)
    ensures r == RecoverTestReport(sc)
  {
    var cases := CollectCases(sc);
    if cases == [] {
      return None;
    }
    var overall := sc.overallStatus.GetOr("needs_review");
    var recommendations := sc.recommendations.GetOr([]);
    return Some(NewTestReport(overall, cases, sc.summary.GetOr(""), recommendations, NoIssues));
  }

  // ---------- dispatch (src/schemas.py:188-205) ----------

  /** `recover_truncated_output`: the salvager of the requested schema. */
  function RecoverTruncatedOutput(sc: Scans, schema: Schema): (r: Option<Output>)
    ensures r.Some? ==> OfSchema(r.value, schema) && Normal(r.value)
  {
    match schema
    case UserStoriesSchema =>
      var u := RecoverUserStories(sc);
      if u.Some? then Some(Stories(u.value)) else None
    case SystemDesignSchema =>
      var d := RecoverSystemDesign(sc);
      if d.Some? then Some(Design(d.value)) else None
    case BackendSchema =>
      var b := RecoverBackendCode(sc);
      if b.Some? then Some(Backend(b.value)) else None
    case FrontendSchema =>
      var f := RecoverFrontendCode(sc);
      if f.Some? then Some(Frontend(f.value)) else None
    case TestReportSchema =>
      var t := RecoverTestReport(sc);
      if t.Some? then Some(Report(t.value)) else None
  }
}
