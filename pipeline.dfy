/**
 * `PentagonCrew.run` (src/crew.py:950-1362): the five stages once, then the QA feedback loop
 * (1129-1298) that asks the manager which agents to re-run, re-runs them in pipeline order,
 * re-runs QA, and stops on a passing report, a failed QA stage, a manager stop, an empty plan,
 * or after `MAX_QA_ITERATIONS` QA runs.
 */
module Pipeline {
  import opened Wrappers
  import opened Records
  import opened Ladder
  import opened Executor
  import opened Context
  import opened Planner
  import opened Qa

  /** `PentagonCrew.MAX_QA_ITERATIONS`. */
  const MaxQaIterations: nat := 5

  /**
   * What the run cannot compute: the recovery ladder for each model class, the ladder without
   * one (for the manager's reply), the generator behind every task (stage and task number to
   * attempts), and the manager's raw reply in each iteration (`None` when its task raised).
   */
  datatype World = World(
    parse: Schema -> string -> Outcome,
    parseJson: string -> Outcome,
    generate: (Stage, nat) -> nat -> Attempt,
    managerReply: nat -> Option<string>)

  /** The ladder of a world yields records of the schema it is asked for. */
  ghost predicate Sound(w: World) {
    forall schema :: Conforms(w.parse(schema), schema)
  }

  /** The world built on `safe_parse_json` is sound. */
  lemma LadderWorldSound(rt: Runtime, generate: (Stage, nat) -> nat -> Attempt, managerReply: nat -> Option<string>)
    ensures Sound(World(schema => Parser(rt, schema), text => SafeParse(rt, text, None), generate, managerReply))
  {
    forall schema
      ensures Conforms(Parser(rt, schema), schema)
    {
      ParserConforms(rt, schema);
    }
  }

  /** `results["manager_decisions"]`, without the free text. */
  datatype LoggedDecision = LoggedDecision(iteration: nat, decision: Decision)

  /** `results["errors"]`: a stage that failed in the initial run, with its error. */
  datatype StageError = StageError(stage: Stage, error: string)

  /** The part of `results` the loop computes. */
  datatype RunResult = RunResult(
    success: bool,
    phasesSucceeded: nat,
    qaPassed: bool,
    qaIterations: nat,
    decisions: seq<LoggedDecision>,
    errors: seq<StageError>)

  /** Why the loop ended. */
  datatype StopReason = QaPassed | QaFailed | ManagerStopped | NothingToRerun | IterationCap

  /** The stages of the initial run, in order. */
  const InitialStages: seq<Stage> := [UserStoriesStage, SystemDesignStage, BackendStage, FrontendStage, TestReportStage]

  /** The `if`/`elif` chain that maps an agent name to the stage it re-runs. */
  function StageOfAgent(agent: string): (stage: Option<Stage>)
    ensures stage.Some? <==> agent in Agents
  {
    if agent == ProductOwner then Some(UserStoriesStage)
    else if agent == Architect then Some(SystemDesignStage)
    else if agent == BackendEngineer then Some(BackendStage)
    else if agent == FrontendEngineer then Some(FrontendStage)
    else None
  }

  /** The stages a list of agents re-runs, in its order. */
  function StagesOf(agents: seq<string>): seq<Stage> {
    if agents == [] then []
    else
      var last := StageOfAgent(agents[|agents| - 1]);
      StagesOf(agents[..|agents| - 1]) + (if last.Some? then [last.value] else [])
  }

  /** The stages one pass of the loop runs: the plan, then QA. */
  function PassStages(agents: seq<string>): seq<Stage> {
    StagesOf(agents) + [TestReportStage]
  }

  /** The stages run so far: the initial run, then the pass of each logged decision. */
  function TraceOf(ds: seq<LoggedDecision>): seq<Stage> {
    if ds == [] then InitialStages
    else TraceOf(ds[..|ds| - 1]) + PassStages(ds[|ds| - 1].decision.agentsToRerun)
  }

  /** Position of a stage in the pipeline. */
  function StageRank(stage: Stage): nat {
    match stage
    case UserStoriesStage => 0
    case SystemDesignStage => 1
    case BackendStage => 2
    case FrontendStage => 3
    case TestReportStage => 4
  }

  /** An agent's stage sits where the agent sits in the pipeline order. */
  lemma StageRankOfAgent(a: string)
    requires a in Agents
    ensures StageRank(StageOfAgent(a).value) == Rank(a) && StageOfAgent(a).value != TestReportStage
  {
  }

  /** The stages of a list of known agents: one per agent, in the same order. */
  lemma {:induction false} StagesOfAgents(agents: seq<string>)
    requires forall i :: 0 <= i < |agents| ==> agents[i] in Agents
    ensures |StagesOf(agents)| == |agents|
    ensures forall i :: 0 <= i < |agents| ==> StagesOf(agents)[i] == StageOfAgent(agents[i]).value
  {
    if agents != [] {
      var init := agents[..|agents| - 1];
      StagesOfAgents(init);
      assert forall i :: 0 <= i < |init| ==> init[i] == agents[i];
    }
  }

  /**
   * A plan's stages run in pipeline order, one per agent, and never include QA: the pass's
   * closing QA run is the only one.
   */
  lemma PlanStagesOrdered(agents: seq<string>)
    requires IsPlan(agents)
    ensures |StagesOf(agents)| == |agents|
    ensures forall i, j :: 0 <= i < j < |agents| ==> StageRank(StagesOf(agents)[i]) < StageRank(StagesOf(agents)[j])
    ensures forall i :: 0 <= i < |agents| ==> StagesOf(agents)[i] != TestReportStage
  {
    StagesOfAgents(agents);
    forall i | 0 <= i < |agents|
      ensures StageRank(StagesOf(agents)[i]) == Rank(agents[i]) && StagesOf(agents)[i] != TestReportStage
    {
      StageRankOfAgent(agents[i]);
    }
  }

  /** How many of the five phases hold a successful result. */
  function CountSucceeded(phases: map<Stage, StageResult>, stages: seq<Stage>): (n: nat)
    ensures n <= |stages|
  {
    if stages == [] then 0
    else
      var s := stages[|stages| - 1];
      CountSucceeded(phases, stages[..|stages| - 1]) + (if s in phases && phases[s].Succeeded? then 1 else 0)
  }

  /** `results["errors"]`: the stages of the initial run that failed, in order. */
  function InitialErrors(phases: map<Stage, StageResult>, stages: seq<Stage>): seq<StageError> {
    if stages == [] then []
    else
      var s := stages[|stages| - 1];
      InitialErrors(phases, stages[..|stages| - 1]) +
        (if s in phases && phases[s].Failed? then [StageError(s, phases[s].error)] else [])
  }

  /** The result of one task of a stage: the retry loop over that task's attempts. */
  function StageRun(w: World, stage: Stage, task: nat): StageResult
    requires Sound(w)
  {
    Recovery(w.parse(SchemaOf(stage)), SchemaOf(stage), Tries(w.generate(stage, task), MaxRetries))
  }

  /** Every logged decision carries its iteration number and a plan in pipeline order. */
  predicate Logged(ds: seq<LoggedDecision>) {
    forall i :: 0 <= i < |ds| ==> ds[i].iteration == i + 1 && IsPlan(ds[i].decision.agentsToRerun)
  }

  /** Every one of these decisions said to continue with a non-empty plan. */
  predicate Continued(ds: seq<LoggedDecision>) {
    forall i :: 0 <= i < |ds| ==> ds[i].decision.shouldContinue && ds[i].decision.agentsToRerun != []
  }

  /** Logging one more decision extends the trace by its pass. */
  lemma TraceOfSnoc(ds: seq<LoggedDecision>, d: LoggedDecision)
    ensures TraceOf(ds + [d]) == TraceOf(ds) + PassStages(d.decision.agentsToRerun)
  {
    assert (ds + [d])[..|ds|] == ds;
  }

  /** The next decision in order keeps the log well formed. */
  lemma LoggedSnoc(ds: seq<LoggedDecision>, d: LoggedDecision)
    requires Logged(ds) && d.iteration == |ds| + 1 && IsPlan(d.decision.agentsToRerun)
    ensures Logged(ds + [d])
  {
  }

  /** A decision to continue with a non-empty plan keeps every decision a continuing one. */
  lemma ContinuedSnoc(ds: seq<LoggedDecision>, d: LoggedDecision)
    requires Continued(ds) && d.decision.shouldContinue && d.decision.agentsToRerun != []
    ensures Continued(ds + [d])
  {
  }

  class PentagonCrew {
    var context: ContextManager
    var phases: map<Stage, StageResult>
    var qaIterations: nat
    var decisions: seq<LoggedDecision>
    /** Tasks executed so far; the generator's index. */
    var tasks: nat
    /** The stages run so far, in order. */
    ghost var trace: seq<Stage>
    ghost var stop: StopReason

    /** The context holds the data of every successful phase. */
    predicate Consistent()
      reads this, context
    {
      forall stage :: stage in phases && phases[stage].Succeeded? ==> context.Stored(stage) == Some(phases[stage].data)
    }

    /** Every phase has a result, and the context is consistent with them. */
    predicate Valid()
      reads this, context
    {
      (forall stage :: stage in phases) && Consistent()
    }

    constructor()
      ensures fresh(context) && context.vibePrompt == [] && context.Empty()
      ensures phases == map[] && qaIterations == 0 && decisions == [] && tasks == 0 && trace == []
    {
      context := new ContextManager();
      phases := map[];
      qaIterations := 0;
      decisions := [];
      tasks := 0;
      trace := [];
      stop := IterationCap;
    }

    /** One stage: `_execute_task_with_recovery`, the stage's `update_*`, and the phase entry. */
    method RunStage(w: World, stage: Stage)
      requires Sound(w) && Consistent()
      modifies this, context
      ensures Consistent()
      ensures phases == old(phases)[stage := StageRun(w, stage, old(tasks))]
      ensures context.Stored(stage) == Kept(old(context.Stored(stage)), phases[stage])
      ensures context == old(context) && context.vibePrompt == old(context.vibePrompt)
      ensures tasks == old(tasks) + 1 && trace == old(trace) + [stage]
      ensures qaIterations == old(qaIterations) && decisions == old(decisions) && stop == old(stop)
    {
      var schema := SchemaOf(stage);
      var r := ExecuteTaskWithRecovery(w.parse(schema), schema, w.generate(stage, tasks), MaxRetries);
      phases := phases[stage := r];
      match stage {
        case UserStoriesStage => context.UpdateUserStories(r);
        case SystemDesignStage => context.UpdateSystemDesign(r);
        case BackendStage => context.UpdateBackendCode(r);
        case FrontendStage => context.UpdateFrontendCode(r);
        case TestReportStage => context.UpdateTestReport(r);
      }
      tasks := tasks + 1;
      trace := trace + [stage];
    }

    /** The initial run: the five stages once, in pipeline order. */
    method InitialRun(w: World)
      requires Sound(w) && phases == map[] && trace == []
      modifies this, context
      ensures Valid()
      ensures phases[UserStoriesStage] == StageRun(w, UserStoriesStage, old(tasks))
      ensures phases[SystemDesignStage] == StageRun(w, SystemDesignStage, old(tasks) + 1)
      ensures phases[BackendStage] == StageRun(w, BackendStage, old(tasks) + 2)
      ensures phases[FrontendStage] == StageRun(w, FrontendStage, old(tasks) + 3)
      ensures phases[TestReportStage] == StageRun(w, TestReportStage, old(tasks) + 4)
      ensures context == old(context) && context.vibePrompt == old(context.vibePrompt)
      ensures tasks == old(tasks) + 5 && trace == InitialStages
      ensures qaIterations == old(qaIterations) && decisions == old(decisions) && stop == old(stop)
    {
      RunStage(w, UserStoriesStage);
      RunStage(w, SystemDesignStage);
      RunStage(w, BackendStage);
      RunStage(w, FrontendStage);
      RunStage(w, TestReportStage);
      forall stage
        ensures stage in phases
      {
        match stage
        case UserStoriesStage =>
        case SystemDesignStage =>
        case BackendStage =>
        case FrontendStage =>
        case TestReportStage =>
      }
    }

    /** One pass after a decision to continue: the plan's agents in order (names of no stage are skipped), then QA. */
    method RunPass(w: World, agents: seq<string>)
      requires Sound(w) && Valid()
      modifies this, context
      ensures Valid() && context == old(context) && context.vibePrompt == old(context.vibePrompt)
      ensures trace == old(trace) + PassStages(agents)
      ensures tasks == old(tasks) + |StagesOf(agents)| + 1
      ensures qaIterations == old(qaIterations) && decisions == old(decisions) && stop == old(stop)
    {
      for k := 0 to |agents|
        invariant Valid() && context == old(context) && context.vibePrompt == old(context.vibePrompt)
        invariant trace == old(trace) + StagesOf(agents[..k])
        invariant tasks == old(tasks) + |StagesOf(agents[..k])|
        invariant qaIterations == old(qaIterations) && decisions == old(decisions) && stop == old(stop)
      {
        assert agents[..k + 1][..k] == agents[..k];
        var stage := StageOfAgent(agents[k]);
        if stage.Some? {
          RunStage(w, stage.value);
        }
      }
      assert agents[..|agents|] == agents;
      RunStage(w, TestReportStage);
      assert trace == old(trace) + PassStages(agents);
    }

    /** The manager's decision on the stored report, which the loop only asks for after QA succeeded. */
    method Decide(w: World) returns (d: Decision)
      requires Valid() && phases[TestReportStage].Succeeded?
      ensures IsPlan(d.agentsToRerun)
    {
      d := GetManagerDecision(context, w.parseJson, w.managerReply(qaIterations));
      DecisionIsPlan(w.parseJson, w.managerReply(qaIterations), context.testReport.value);
    }

    /**
     * Why the loop stopped, as the state shows it: a passing or failed QA stage with no
     * decision logged in that iteration, a logged decision to stop or to re-run nobody, or the
     * iteration cap.
     */
    ghost predicate Stopped()
      reads this
    {
      match stop
      case QaPassed => TestReportStage in phases && CheckQaPassed(phases[TestReportStage]) && |decisions| + 1 == qaIterations
      case QaFailed => TestReportStage in phases && phases[TestReportStage].Failed? && |decisions| + 1 == qaIterations
      case ManagerStopped => 0 < |decisions| == qaIterations && !decisions[|decisions| - 1].decision.shouldContinue
      case NothingToRerun => 0 < |decisions| == qaIterations && decisions[|decisions| - 1].decision == Decision(true, [])
      case IterationCap => |decisions| + 1 == qaIterations == MaxQaIterations
    }

    /**
     * The rest of a loop iteration once QA produced a report: log the manager's decision, stop
     * when it says so or plans nobody, otherwise run the pass.
     */
    method Consult(w: World) returns (done: bool)
      requires Sound(w) && Valid() && stop == IterationCap && phases[TestReportStage].Succeeded?
      requires 1 <= qaIterations < MaxQaIterations && |decisions| == qaIterations - 1
      requires Logged(decisions) && Continued(decisions) && trace == TraceOf(decisions)
      modifies this, context
      ensures Valid() && context == old(context) && context.vibePrompt == old(context.vibePrompt)
      ensures |decisions| == old(|decisions|) + 1 && decisions[..old(|decisions|)] == old(decisions) && Logged(decisions)
      ensures done <==>
        !decisions[|decisions| - 1].decision.shouldContinue || decisions[|decisions| - 1].decision.agentsToRerun == []
      ensures done ==> qaIterations == old(qaIterations) && trace == old(trace)
      ensures done ==> stop == if decisions[|decisions| - 1].decision.shouldContinue then NothingToRerun else ManagerStopped
      ensures !done ==> stop == IterationCap && qaIterations == old(qaIterations) + 1
      ensures !done ==> Continued(decisions) && trace == TraceOf(decisions)
    {
      var decision := Decide(w);
      ghost var before := decisions;
      var logged := LoggedDecision(qaIterations, decision);
      LoggedSnoc(decisions, logged);
      decisions := decisions + [logged];
      if !decision.shouldContinue {
        stop := ManagerStopped;
        return true;
      }
      if decision.agentsToRerun == [] {
        stop := NothingToRerun;
        return true;
      }
      ContinuedSnoc(before, logged);
      TraceOfSnoc(before, logged);
      RunPass(w, decision.agentsToRerun);
      qaIterations := qaIterations + 1;
      done := false;
    }

    /** The QA feedback loop of `run`, entered after the initial run with one QA run done. */
    method QaLoop(w: World)
      requires Sound(w) && Valid() && stop == IterationCap
      requires qaIterations == 1 && decisions == [] && trace == InitialStages
      modifies this, context
      ensures Valid() && context == old(context) && context.vibePrompt == old(context.vibePrompt)
      ensures 1 <= qaIterations <= MaxQaIterations && qaIterations - 1 <= |decisions| <= qaIterations
      ensures Stopped()
      ensures Logged(decisions) && Continued(decisions[..qaIterations - 1])
      ensures trace == TraceOf(decisions[..qaIterations - 1])
    {
      while qaIterations < MaxQaIterations
        invariant Valid() && context == old(context) && context.vibePrompt == old(context.vibePrompt)
        invariant 1 <= qaIterations <= MaxQaIterations && |decisions| == qaIterations - 1
        invariant Logged(decisions) && Continued(decisions) && trace == TraceOf(decisions)
        invariant stop == IterationCap
        decreases MaxQaIterations - qaIterations
      {
        var qa := phases[TestReportStage];
        if CheckQaPassed(qa) {
          stop := QaPassed;
          break;
        }
        if qa.Failed? {
          stop := QaFailed;
          break;
        }
        var done := Consult(w);
        if done {
          break;
        }
      }
      if |decisions| == qaIterations - 1 {
        assert decisions[..qaIterations - 1] == decisions;
      }
    }

    /** `run(vibe_prompt)`: the initial run, the QA feedback loop, and the overall verdict. */
    method Run(w: World, vibePrompt: string) returns (result: RunResult)
      requires Sound(w)
      modifies this
      ensures fresh(context) && Valid() && context.vibePrompt == vibePrompt
      ensures 1 <= qaIterations <= MaxQaIterations && qaIterations - 1 <= |decisions| <= qaIterations
      ensures Stopped()
      ensures Logged(decisions) && Continued(decisions[..qaIterations - 1])
      ensures trace == TraceOf(decisions[..qaIterations - 1])
      ensures result.qaIterations == qaIterations && result.decisions == decisions
      ensures result.phasesSucceeded == CountSucceeded(phases, InitialStages)
      ensures result.qaPassed == CheckQaPassed(phases[TestReportStage])
      ensures result.success <==> result.phasesSucceeded >= 4 && result.qaPassed
    {
      context := new ContextManager();
      context.vibePrompt := vibePrompt;
      phases := map[];
      decisions := [];
      trace := [];
      stop := IterationCap;

      InitialRun(w);
      var errors := InitialErrors(phases, InitialStages);
      qaIterations := 1;
      QaLoop(w);

      var succeeded := CountSucceeded(phases, InitialStages);
      var qaPassed := CheckQaPassed(phases[TestReportStage]);
      result := RunResult(succeeded >= 4 && qaPassed, succeeded, qaPassed, qaIterations, decisions, errors);
    }
  }
}
