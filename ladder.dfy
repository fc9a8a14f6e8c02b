/**
 * `safe_parse_json` (src/schemas.py:137-185): the recovery ladder every agent output goes
 * through. The text is trimmed to a JSON candidate, then parsed as it is, after the common
 * fixes, and after truncation repair; the first success wins. When all three fail and a
 * schema was requested, the schema's regex salvager runs on the ORIGINAL text.
 *
 * `json.loads`, Pydantic's structural decoding of each schema and the salvagers' regex
 * scans are not part of this model: they are the fields of a `Runtime`.
 */
module Ladder {
  import opened Wrappers
  import opened JsonValue
  import Extract
  import Fix
  import Repair
  import opened Records
  import Salvage

  /** The external deciders: `json.loads`, `model_validate` before field validators, regex scans. */
  datatype Runtime = Runtime(
    loads: string -> Option<Json>,
    decodeStories: Json -> Option<UserStoriesOutput>,
    decodeDesign: Json -> Option<SystemDesign>,
    decodeBackend: Json -> Option<BackendCode>,
    decodeFrontend: Json -> Option<FrontendCode>,
    decodeReport: Json -> Option<TestReport>,
    scan: string -> Salvage.Scans)

  /** A successful parse: plain JSON when no schema was requested, a validated record otherwise. */
  datatype Parsed = Data(json: Json) | Record(output: Output)

  /** The `(success, result_or_error)` pair. */
  datatype Outcome = Success(value: Parsed) | Failure(error: string)

  const EmptyInput: string := "Empty input"
  const NoJsonFound: string := "No JSON found in text"
  const AllAttemptsFailed: string := "Failed to parse JSON after all attempts"

  /** `model_class.model_validate(data)`: structural decoding, then the field validators. */
  function ModelValidate(rt: Runtime, schema: Schema, j: Json): (r: Option<Output>)
    ensures r.Some? ==> OfSchema(r.value, schema) && Normal(r.value)
  {
    var decoded :=
      match schema
      case UserStoriesSchema => (var u := rt.decodeStories(j); if u.Some? then Some(Stories(u.value)) else None)
      case SystemDesignSchema => (var d := rt.decodeDesign(j); if d.Some? then Some(Design(d.value)) else None)
      case BackendSchema => (var b := rt.decodeBackend(j); if b.Some? then Some(Backend(b.value)) else None)
      case FrontendSchema => (var f := rt.decodeFrontend(j); if f.Some? then Some(Frontend(f.value)) else None)
      case TestReportSchema => (var t := rt.decodeReport(j); if t.Some? then Some(Report(t.value)) else None);
    if decoded.Some? then Some(Validated(decoded.value)) else None
  }

  /**
   * One rung: `json.loads(candidate)`, then `model_validate` when a schema is given. Any
   * exception from either is swallowed and reported as `None`.
   */
  function Attempt(rt: Runtime, candidate: string, schema: Option<Schema>): (r: Option<Parsed>)
    ensures r.Some? ==> rt.loads(candidate).Some?
    ensures r.Some? && schema.None? ==> r.value == Data(rt.loads(candidate).value)
    ensures r.Some? && schema.Some? ==> r.value.Record? && OfSchema(r.value.output, schema.value) && Normal(r.value.output)
    ensures rt.loads(candidate).Some? && schema.None? ==> r.Some?
  {
    match rt.loads(candidate)
    case None => None
    case Some(j) =>
      if schema.None? then Some(Data(j))
      else
        var o := ModelValidate(rt, schema.value, j);
        if o.Some? then Some(Record(o.value)) else None
  }

  /** The three texts the ladder hands to `json.loads`, in order. */
  function Rungs(raw: string): (cs: seq<string>)
    ensures |cs| == 3 && cs[0] == raw
  {
    var fixed := Fix.FixCommonJsonErrors(raw);
    [raw, fixed, Repair.RepairAsWritten(fixed)]
  }

  /**
   * Steps 2 to 5 of `safe_parse_json`: try each candidate in turn, then the salvager's answer
   * (`salvaged`, computed from the original text) when a schema was requested.
   */
  function Climb(rt: Runtime, cs: seq<string>, salvaged: Option<Output>, schema: Option<Schema>): (r: Outcome)
    requires |cs| == 3
    ensures r.Success? && schema.None? ==>
      r.value.Data? && exists k :: 0 <= k < 3 && rt.loads(cs[k]) == Some(r.value.json)
    ensures r.Success? && schema.Some? ==>
      r.value.Record? && ((exists k :: 0 <= k < 3 && Attempt(rt, cs[k], schema) == Some(r.value)) || Some(r.value.output) == salvaged)
  {
    var first := Attempt(rt, cs[0], schema);
    if first.Some? then Success(first.value)
    else
      var second := Attempt(rt, cs[1], schema);
      if second.Some? then Success(second.value)
      else
        var third := Attempt(rt, cs[2], schema);
        if third.Some? then Success(third.value)
        else if schema.Some? && salvaged.Some? then Success(Record(salvaged.value))
        else Failure(AllAttemptsFailed)
  }

  /** `safe_parse_json(text, model_class)`. */
  function SafeParse(rt: Runtime, text: string, schema: Option<Schema>): (r: Outcome)
    ensures r.Success? && schema.Some? ==> r.value.Record? && OfSchema(r.value.output, schema.value) && Normal(r.value.output)
    ensures r.Success? && schema.None? ==>
      r.value.Data? && Extract.ExtractJson(text).Some? &&
      exists k :: 0 <= k < 3 && rt.loads(Rungs(Extract.ExtractJson(text).value)[k]) == Some(r.value.json)
  {
    if text == [] then Failure(EmptyInput)
    else
      match Extract.ExtractJson(text)
      case None => Failure(NoJsonFound)
      case Some(raw) =>
        Climb(rt, Rungs(raw), if schema.Some? then Salvage.RecoverTruncatedOutput(rt.scan(text), schema.value) else None, schema)
  }

  /** `safe_parse_json` with the model class bound: what a stage hands its task's raw text to. */
  function Parser(rt: Runtime, schema: Schema): string -> Outcome {
    t => SafeParse(rt, t, Some(schema))
  }

  /** A parser whose every success is a normalised record of the schema. */
  ghost predicate Conforms(parse: string -> Outcome, schema: Schema) {
    forall t :: parse(t).Success? ==>
      parse(t).value.Record? && OfSchema(parse(t).value.output, schema) && Normal(parse(t).value.output)
  }

  // ---------- properties ----------

  /** The first candidate in `cs` that parses (and validates), as a reference for the ladder. */
  function FirstAttempt(rt: Runtime, cs: seq<string>, schema: Option<Schema>): (r: Option<Parsed>)
    ensures r.Some? ==> exists k :: 0 <= k < |cs| && Attempt(rt, cs[k], schema) == r
    ensures r.None? <==> forall k :: 0 <= k < |cs| ==> Attempt(rt, cs[k], schema).None?
  {
    if cs == [] then None
    else if Attempt(rt, cs[0], schema).Some? then Attempt(rt, cs[0], schema)
    else
      var rest := FirstAttempt(rt, cs[1..], schema);
      assert forall k :: 1 <= k < |cs| ==> cs[k] == cs[1..][k - 1];
      rest
  }

  /** The climb is "the first candidate that parses, otherwise the salvaged record when a schema was requested". */
  lemma ClimbIsFirstSuccess(rt: Runtime, cs: seq<string>, salvaged: Option<Output>, schema: Option<Schema>)
    requires |cs| == 3
    ensures var a := FirstAttempt(rt, cs, schema);
      Climb(rt, cs, salvaged, schema) ==
        if a.Some? then Success(a.value)
        else if schema.Some? && salvaged.Some? then Success(Record(salvaged.value))
        else Failure(AllAttemptsFailed)
  {
    FirstAttemptCons(rt, cs, schema);
    FirstAttemptCons(rt, cs[1..], schema);
    FirstAttemptCons(rt, cs[2..], schema);
    assert cs[1..][0] == cs[1] && cs[1..][1..] == cs[2..];
    assert cs[2..][0] == cs[2] && cs[2..][1..] == [];
  }

  /** One step of the reference: the head when it parses, otherwise the rest. */
  lemma FirstAttemptCons(rt: Runtime, cs: seq<string>, schema: Option<Schema>)
    requires cs != []
    ensures FirstAttempt(rt, cs, schema) ==
      if Attempt(rt, cs[0], schema).Some? then Attempt(rt, cs[0], schema) else FirstAttempt(rt, cs[1..], schema)
  {
  }

  /**
   * The ladder is "the first of raw, fixed, repaired that parses; otherwise the salvager on
   * the original text, and only when a schema was requested".
   */
  lemma SafeParseIsFirstSuccess(rt: Runtime, text: string, schema: Option<Schema>)
    requires text != [] && Extract.ExtractJson(text).Some?
    ensures var raw := Extract.ExtractJson(text).value;
      var a := FirstAttempt(rt, Rungs(raw), schema);
      SafeParse(rt, text, schema) ==
        if a.Some? then Success(a.value)
        else if schema.Some? && Salvage.RecoverTruncatedOutput(rt.scan(text), schema.value).Some? then
          Success(Record(Salvage.RecoverTruncatedOutput(rt.scan(text), schema.value).value))
        else Failure(AllAttemptsFailed)
  {
    var salvaged := if schema.Some? then Salvage.RecoverTruncatedOutput(rt.scan(text), schema.value) else None;
    ClimbIsFirstSuccess(rt, Rungs(Extract.ExtractJson(text).value), salvaged, schema);
  }

  /** Each failure carries one of the three messages, and each message has exactly one cause. */
  lemma FailureCauses(rt: Runtime, text: string, schema: Option<Schema>)
    ensures SafeParse(rt, text, schema) == Failure(EmptyInput) <==> text == []
    ensures SafeParse(rt, text, schema) == Failure(NoJsonFound) <==> text != [] && Extract.ExtractJson(text).None?
    ensures SafeParse(rt, text, schema) == Failure(AllAttemptsFailed) <==>
      text != [] && Extract.ExtractJson(text).Some? &&
      FirstAttempt(rt, Rungs(Extract.ExtractJson(text).value), schema).None? &&
      (schema.None? || Salvage.RecoverTruncatedOutput(rt.scan(text), schema.value).None?)
  {
    if text != [] && Extract.ExtractJson(text).Some? {
      SafeParseIsFirstSuccess(rt, text, schema);
    }
  }

  /** Rungs after a successful one are never consulted: two runtimes that agree on it agree on the outcome. */
  lemma LaterRungsIgnored(rt1: Runtime, rt2: Runtime, text: string, schema: Option<Schema>, k: nat)
    requires text != [] && Extract.ExtractJson(text).Some?
    requires k < 3
    requires var cs := Rungs(Extract.ExtractJson(text).value);
      (forall i :: 0 <= i <= k ==> Attempt(rt1, cs[i], schema) == Attempt(rt2, cs[i], schema)) &&
      Attempt(rt1, cs[k], schema).Some?
    ensures SafeParse(rt1, text, schema) == SafeParse(rt2, text, schema)
  {
    var cs := Rungs(Extract.ExtractJson(text).value);
    var s1 := if schema.Some? then Salvage.RecoverTruncatedOutput(rt1.scan(text), schema.value) else None;
    var s2 := if schema.Some? then Salvage.RecoverTruncatedOutput(rt2.scan(text), schema.value) else None;
    ClimbPrefix(rt1, rt2, cs, s1, s2, schema, k);
  }

  /** The climb stops at the first candidate that parses, whatever the later ones and the salvager give. */
  lemma ClimbPrefix(rt1: Runtime, rt2: Runtime, cs: seq<string>, s1: Option<Output>, s2: Option<Output>,
                    schema: Option<Schema>, k: nat)
    requires |cs| == 3 && k < 3
    requires forall i :: 0 <= i <= k ==> Attempt(rt1, cs[i], schema) == Attempt(rt2, cs[i], schema)
    requires Attempt(rt1, cs[k], schema).Some?
    ensures Climb(rt1, cs, s1, schema) == Climb(rt2, cs, s2, schema)
  {
    assert Attempt(rt1, cs[0], schema) == Attempt(rt2, cs[0], schema);
    if k >= 1 {
      assert Attempt(rt1, cs[1], schema) == Attempt(rt2, cs[1], schema);
    }
    if k == 2 {
      assert Attempt(rt1, cs[2], schema) == Attempt(rt2, cs[2], schema);
    }
  }

  /**
   * Text that is already a JSON object once trimmed, and that `json.loads` accepts, comes back
   * as that value: no fix and no repair is applied to it.
   */
  lemma WellFormedObjectPassesThrough(rt: Runtime, text: string, j: Json)
    requires Extract.Enclosed(Text.Strip(text), '{', '}')
    requires rt.loads(Text.Strip(text)) == Some(j)
    ensures SafeParse(rt, text, None) == Success(Data(j))
  {
    Extract.EnclosedReturnedUnchanged(text);
  }

  /** A rung does not look at the regex scans. */
  lemma AttemptIgnoresScan(rt: Runtime, sc: string -> Salvage.Scans, c: string, schema: Option<Schema>)
    ensures Attempt(rt.(scan := sc), c, schema) == Attempt(rt, c, schema)
  {
    if schema.Some? && rt.loads(c).Some? {
      assert ModelValidate(rt.(scan := sc), schema.value, rt.loads(c).value) == ModelValidate(rt, schema.value, rt.loads(c).value);
    }
  }

  /**
   * The salvagers run on the original text, never on the extracted candidate: the outcome
   * depends on the scans only through the scan of `text` itself.
   */
  lemma SalvageSeesOriginal(rt: Runtime, sc: string -> Salvage.Scans, text: string, schema: Schema)
    requires sc(text) == rt.scan(text)
    ensures SafeParse(rt.(scan := sc), text, Some(schema)) == SafeParse(rt, text, Some(schema))
  {
    if text != [] && Extract.ExtractJson(text).Some? {
      var cs := Rungs(Extract.ExtractJson(text).value);
      forall k | 0 <= k < 3
        ensures Attempt(rt.(scan := sc), cs[k], Some(schema)) == Attempt(rt, cs[k], Some(schema))
      {
        AttemptIgnoresScan(rt, sc, cs[k], Some(schema));
      }
      LaterRungsAgree(rt.(scan := sc), rt, cs, Some(schema), Salvage.RecoverTruncatedOutput(sc(text), schema));
    }
  }

  /** The climb only looks at each candidate's own attempt and at the salvaged record. */
  lemma LaterRungsAgree(rt1: Runtime, rt2: Runtime, cs: seq<string>, schema: Option<Schema>, salvaged: Option<Output>)
    requires |cs| == 3
    requires forall k :: 0 <= k < 3 ==> Attempt(rt1, cs[k], schema) == Attempt(rt2, cs[k], schema)
    ensures Climb(rt1, cs, salvaged, schema) == Climb(rt2, cs, salvaged, schema)
  {
    assert Attempt(rt1, cs[0], schema) == Attempt(rt2, cs[0], schema);
    assert Attempt(rt1, cs[1], schema) == Attempt(rt2, cs[1], schema);
    assert Attempt(rt1, cs[2], schema) == Attempt(rt2, cs[2], schema);
  }

  /** The ladder bound to a schema only ever yields records of that schema. */
  lemma ParserConforms(rt: Runtime, schema: Schema)
    ensures Conforms(Parser(rt, schema), schema)
  {
    forall t ensures Parser(rt, schema)(t) == SafeParse(rt, t, Some(schema)) {
    }
  }
}
