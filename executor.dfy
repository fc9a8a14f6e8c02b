/**
 * Running one agent's task: `_extract_output` (src/crew.py:480-524) and the retry loop
 * `_execute_task_with_recovery` (src/crew.py:526-606). The generator (a fresh one-task crew
 * and its `kickoff`) is an oracle: attempt `i` either produces a task output or raises.
 */
module Executor {
  import opened Wrappers
  import opened Lists
  import opened Records
  import opened Ladder

  /** A stage's result dict: `success`, `data` (the record whose dump is stored), `raw`, `error`. */
  datatype StageResult = Succeeded(data: Output, raw: string) | Failed(raw: string, error: string)

  /** What a finished task holds: its raw text, and the record the framework decoded, if any. */
  datatype TaskOutput = TaskOutput(raw: string, structured: Option<Output>)

  /**
   * One generator attempt: it produced a task output, or it raised; after an exception the
   * task may still hold the raw text of some output.
   */
  datatype Attempt = Produced(output: TaskOutput) | Raised(error: string, leftover: Option<string>)

  /** `PentagonCrew.MAX_RETRIES`. */
  const MaxRetries: nat := 2

  /**
   * `_extract_output`: the framework's decoded record if present, otherwise the recovery ladder
   * (`parse`, `safe_parse_json` bound to the stage's model class) on the raw text.
   */
  function ExtractOutput(parse: string -> Outcome, out: TaskOutput, schema: Schema): (r: StageResult)
    requires Conforms(parse, schema)
    ensures r.raw == out.raw
    ensures out.structured.Some? ==> r == Succeeded(out.structured.value, out.raw)
    ensures out.structured.None? ==> (r.Succeeded? <==> parse(out.raw).Success?)
    ensures out.structured.None? && r.Succeeded? ==> OfSchema(r.data, schema) && Normal(r.data)
    ensures out.structured.None? && r.Failed? ==> r.error == parse(out.raw).error
  {
    if out.structured.Some? then Succeeded(out.structured.value, out.raw)
    else
      match parse(out.raw)
      case Success(p) => Succeeded(p.output, out.raw)
      case Failure(e) => Failed(out.raw, e)
  }

  /** The attempt yields a usable output. */
  predicate Succeeds(parse: string -> Outcome, schema: Schema, a: Attempt)
    requires Conforms(parse, schema)
  {
    a.Produced? && ExtractOutput(parse, a.output, schema).Succeeded?
  }

  /** `last_error` and `last_raw`. */
  datatype Memory = Memory(lastError: Option<string>, lastRaw: string)

  /** How one failed attempt updates `last_error` and `last_raw`. */
  function Step(parse: string -> Outcome, schema: Schema, m: Memory, a: Attempt): (m': Memory)
    requires Conforms(parse, schema)
    ensures m'.lastError.Some? || m' == m
  {
    match a
    case Raised(e, leftover) => Memory(Some(e), if leftover.Some? then leftover.value else m.lastRaw)
    case Produced(out) =>
      var r := ExtractOutput(parse, out, schema);
      if r.Failed? then Memory(Some(r.error), r.raw) else m
  }

  /** `last_error` and `last_raw` after the given attempts, all of which failed. */
  function Remember(parse: string -> Outcome, schema: Schema, tries: seq<Attempt>): Memory
    requires Conforms(parse, schema)
  {
    if tries == [] then Memory(None, "")
    else Step(parse, schema, Remember(parse, schema, tries[..|tries| - 1]), tries[|tries| - 1])
  }

  /** The attempts the loop can make: `range(max_retries + 1)`. */
  function Tries(generate: nat -> Attempt, maxRetries: nat): (tries: seq<Attempt>)
    ensures |tries| == maxRetries + 1
  {
    seq(maxRetries + 1, i requires 0 <= i => generate(i))
  }

  /** The error message after every attempt failed. */
  function GaveUp(n: nat, lastError: Option<string>): string {
    "Failed after " + NatToString(n) + " attempts. Last error: " + (if lastError.Some? then lastError.value else "None")
  }

  /** The last chance: one more ladder run on the last raw text, if there is any. */
  function FinalRecovery(parse: string -> Outcome, schema: Schema, m: Memory, n: nat): (r: StageResult)
    requires Conforms(parse, schema)
    ensures r.raw == m.lastRaw
    ensures r.Succeeded? <==> m.lastRaw != [] && parse(m.lastRaw).Success?
    ensures r.Succeeded? ==> OfSchema(r.data, schema) && Normal(r.data)
  {
    if m.lastRaw != [] && parse(m.lastRaw).Success? then
      Succeeded(parse(m.lastRaw).value.output, m.lastRaw)
    else Failed(m.lastRaw, GaveUp(n, m.lastError))
  }

  /**
   * The retry loop from attempt `k` on, with memory `m` of the failed attempts before it: the
   * first attempt that yields a usable output wins; after the last one, the final recovery.
   */
  function Continue(parse: string -> Outcome, schema: Schema, tries: seq<Attempt>, k: nat, m: Memory): StageResult
    requires Conforms(parse, schema)
    requires k <= |tries|
    decreases |tries| - k
  {
    if k == |tries| then FinalRecovery(parse, schema, m, |tries|)
    else if Succeeds(parse, schema, tries[k]) then ExtractOutput(parse, tries[k].output, schema)
    else Continue(parse, schema, tries, k + 1, Step(parse, schema, m, tries[k]))
  }

  /** The result of the retry loop over the given attempts. */
  function Recovery(parse: string -> Outcome, schema: Schema, tries: seq<Attempt>): StageResult
    requires Conforms(parse, schema)
  {
    Continue(parse, schema, tries, 0, Memory(None, ""))
  }

  /** `_execute_task_with_recovery`: at most `maxRetries + 1` attempts, then the final recovery. */
  method ExecuteTaskWithRecovery(parse: string -> Outcome, schema: Schema, generate: nat -> Attempt, maxRetries: nat)
    returns (r: StageResult)
    requires Conforms(parse, schema)
    ensures r == Recovery(parse, schema, Tries(generate, maxRetries))
  {
    ghost var tries := Tries(generate, maxRetries);
    var lastError: Option<string> := None;
    var lastRaw := "";
    for attempt := 0 to maxRetries + 1
      invariant Continue(parse, schema, tries, attempt, Memory(lastError, lastRaw)) == Recovery(parse, schema, tries)
    {
      assert tries[attempt] == generate(attempt);
      match generate(attempt)
      case Produced(out) =>
        var output := ExtractOutput(parse, out, schema);
        if output.Succeeded? {
          return output;
        }
        lastError := Some(output.error);
        lastRaw := output.raw;
      case Raised(e, leftover) =>
        lastError := Some(e);
        if leftover.Some? {
          lastRaw := leftover.value;
        }
    }
    if lastRaw != [] {
      var p := parse(lastRaw);
      if p.Success? {
        return Succeeded(p.value.output, lastRaw);
      }
    }
    r := Failed(lastRaw, GaveUp(maxRetries + 1, lastError));
  }

  // ---------- properties ----------

  /** One more failed attempt, folded into the memory. */
  lemma RememberStep(parse: string -> Outcome, schema: Schema, tries: seq<Attempt>, k: nat)
    requires Conforms(parse, schema)
    requires k < |tries|
    ensures Remember(parse, schema, tries[..k + 1]) == Step(parse, schema, Remember(parse, schema, tries[..k]), tries[k])
  {
    assert tries[..k + 1][..k] == tries[..k];
  }

  /** From attempt `i` on, with only failures ahead, the loop ends in the final recovery on the whole memory. */
  lemma {:induction false} ContinueThroughFailures(parse: string -> Outcome, schema: Schema, tries: seq<Attempt>, i: nat)
    requires Conforms(parse, schema)
    requires i <= |tries|
    requires forall j :: i <= j < |tries| ==> !Succeeds(parse, schema, tries[j])
    ensures Continue(parse, schema, tries, i, Remember(parse, schema, tries[..i])) ==
      FinalRecovery(parse, schema, Remember(parse, schema, tries), |tries|)
    decreases |tries| - i
  {
    if i == |tries| {
      assert tries[..i] == tries;
    } else {
      RememberStep(parse, schema, tries, i);
      ContinueThroughFailures(parse, schema, tries, i + 1);
    }
  }

  /** With no successful attempt, the result is the final recovery on `last_error` and `last_raw`. */
  lemma NoSuccess(parse: string -> Outcome, schema: Schema, tries: seq<Attempt>)
    requires Conforms(parse, schema)
    requires forall j :: 0 <= j < |tries| ==> !Succeeds(parse, schema, tries[j])
    ensures Recovery(parse, schema, tries) == FinalRecovery(parse, schema, Remember(parse, schema, tries), |tries|)
  {
    ContinueThroughFailures(parse, schema, tries, 0);
    assert tries[..0] == [];
  }

  /** From attempt `i` on, the first attempt `k` that succeeds gives the result, whatever the memory. */
  lemma {:induction false} ContinueToSuccess(parse: string -> Outcome, schema: Schema, tries: seq<Attempt>, i: nat, k: nat, m: Memory)
    requires Conforms(parse, schema)
    requires i <= k < |tries| && Succeeds(parse, schema, tries[k])
    requires forall j :: i <= j < k ==> !Succeeds(parse, schema, tries[j])
    ensures Continue(parse, schema, tries, i, m) == ExtractOutput(parse, tries[k].output, schema)
    decreases k - i
  {
    if i < k {
      ContinueToSuccess(parse, schema, tries, i + 1, k, Step(parse, schema, m, tries[i]));
    }
  }

  /** The first attempt that yields a usable output is the result. */
  lemma FirstSuccessReturned(parse: string -> Outcome, schema: Schema, tries: seq<Attempt>, k: nat)
    requires Conforms(parse, schema)
    requires k < |tries| && Succeeds(parse, schema, tries[k])
    requires forall j :: 0 <= j < k ==> !Succeeds(parse, schema, tries[j])
    ensures Recovery(parse, schema, tries) == ExtractOutput(parse, tries[k].output, schema)
  {
    ContinueToSuccess(parse, schema, tries, 0, k, Memory(None, ""));
  }

  /** A failed result from attempt `i` on means that none of those attempts succeeded. */
  lemma {:induction false} ContinueFailed(parse: string -> Outcome, schema: Schema, tries: seq<Attempt>, i: nat, m: Memory)
    requires Conforms(parse, schema)
    requires i <= |tries|
    ensures Continue(parse, schema, tries, i, m).Failed? ==> forall j :: i <= j < |tries| ==> !Succeeds(parse, schema, tries[j])
    decreases |tries| - i
  {
    if i < |tries| && !Succeeds(parse, schema, tries[i]) {
      ContinueFailed(parse, schema, tries, i + 1, Step(parse, schema, m, tries[i]));
    }
  }

  /**
   * A failure means no attempt succeeded and the final recovery found nothing in the last raw
   * text, which the failure keeps.
   */
  lemma FailureMeansNothingWorked(parse: string -> Outcome, schema: Schema, tries: seq<Attempt>)
    requires Conforms(parse, schema)
    ensures Recovery(parse, schema, tries).Failed? ==>
      (forall j :: 0 <= j < |tries| ==> !Succeeds(parse, schema, tries[j])) &&
      Recovery(parse, schema, tries).raw == Remember(parse, schema, tries).lastRaw &&
      (Remember(parse, schema, tries).lastRaw == [] || parse(Remember(parse, schema, tries).lastRaw).Failure?)
  {
    ContinueFailed(parse, schema, tries, 0, Memory(None, ""));
    if Recovery(parse, schema, tries).Failed? {
      NoSuccess(parse, schema, tries);
    }
  }

  /**
   * The final recovery only helps when the last attempt raised: when the last attempt
   * produced an output, the call succeeds exactly when some attempt succeeded.
   */
  lemma FinalRecoveryOnlyAfterException(parse: string -> Outcome, schema: Schema, tries: seq<Attempt>)
    requires Conforms(parse, schema)
    requires tries != [] && tries[|tries| - 1].Produced?
    ensures Recovery(parse, schema, tries).Succeeded? <==> exists j :: 0 <= j < |tries| && Succeeds(parse, schema, tries[j])
  {
    ContinueFailed(parse, schema, tries, 0, Memory(None, ""));
    if forall j :: 0 <= j < |tries| ==> !Succeeds(parse, schema, tries[j]) {
      NoSuccess(parse, schema, tries);
      LastRawRefused(parse, schema, tries);
    }
  }

  /** After a last attempt that produced an output the ladder refused, `last_raw` is that refused text. */
  lemma LastRawRefused(parse: string -> Outcome, schema: Schema, tries: seq<Attempt>)
    requires Conforms(parse, schema)
    requires tries != [] && tries[|tries| - 1].Produced?
    requires !Succeeds(parse, schema, tries[|tries| - 1])
    ensures var m := Remember(parse, schema, tries);
      m.lastRaw == [] || parse(m.lastRaw).Failure?
    ensures var m := Remember(parse, schema, tries);
      var out := tries[|tries| - 1].output;
      out.structured.None? && m.lastRaw == out.raw && parse(out.raw).Failure? &&
      m.lastError == Some(parse(out.raw).error)
  {
  }

  /** From attempt `i` on, a record that came out of the ladder has the stage's schema and normal fields. */
  lemma {:induction false} ContinueConforms(parse: string -> Outcome, schema: Schema, tries: seq<Attempt>, i: nat, m: Memory)
    requires Conforms(parse, schema)
    requires i <= |tries|
    requires forall j :: 0 <= j < |tries| ==> tries[j].Produced? ==> tries[j].output.structured.None?
    ensures Continue(parse, schema, tries, i, m).Succeeded? ==>
      OfSchema(Continue(parse, schema, tries, i, m).data, schema) && Normal(Continue(parse, schema, tries, i, m).data)
    decreases |tries| - i
  {
    if i < |tries| && !Succeeds(parse, schema, tries[i]) {
      ContinueConforms(parse, schema, tries, i + 1, Step(parse, schema, m, tries[i]));
    }
  }

  /**
   * When the framework decoded nothing, a record that came out of the ladder, directly or in
   * the final recovery, has the stage's schema and normal fields.
   */
  lemma ParsedRecordsConform(parse: string -> Outcome, schema: Schema, tries: seq<Attempt>)
    requires Conforms(parse, schema)
    requires forall j :: 0 <= j < |tries| ==> tries[j].Produced? ==> tries[j].output.structured.None?
    ensures Recovery(parse, schema, tries).Succeeded? ==>
      OfSchema(Recovery(parse, schema, tries).data, schema) && Normal(Recovery(parse, schema, tries).data)
  {
    ContinueConforms(parse, schema, tries, 0, Memory(None, ""));
  }

  /** Only the first `maxRetries + 1` attempts matter: the loop never asks the generator for more. */
  lemma AtMostMaxRetriesPlusOne(parse: string -> Outcome, schema: Schema, g1: nat -> Attempt, g2: nat -> Attempt, maxRetries: nat)
    requires Conforms(parse, schema)
    requires forall i :: 0 <= i <= maxRetries ==> g1(i) == g2(i)
    ensures Recovery(parse, schema, Tries(g1, maxRetries)) == Recovery(parse, schema, Tries(g2, maxRetries))
  {
    assert Tries(g1, maxRetries) == Tries(g2, maxRetries);
  }
}
