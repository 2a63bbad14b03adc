/**
 * The orchestrator-worker workflow: a plan's steps are run in rounds. Each
 * round dispatches every step whose dependencies all have results, runs the
 * dispatched workers, appends one result per step to the result log, bumps
 * the round counter while steps remain, and either starts the next round or
 * hands the log to the synthesizer, which folds it into one report.
 *
 * The graph runtime's parallel fan-out is modelled as sequential dispatch
 * within a round; the worker call itself is the parameter `invoke`.
 */
module WorkflowGraph {
  import opened Wrappers
  import opened PyStr
  import opened WorkflowSchema
  import opened Llm

  // ---------------------------------------------------------------- eligibility

  /** A step may run when it has no result yet and each of its dependencies has one. */
  predicate Eligible(step: WorkflowStep, completed: set<string>)
  {
    step.id !in completed && forall d :: d in step.dependsOn ==> d in completed
  }

  /** The steps `_get_steps_for_round` selects, in plan order. */
  function EligibleSteps(steps: seq<WorkflowStep>, completed: set<string>): (r: seq<WorkflowStep>)
    ensures |r| <= |steps|
  {
    if steps == [] then []
    else
      var last := steps[|steps| - 1];
      EligibleSteps(steps[..|steps| - 1], completed) + (if Eligible(last, completed) then [last] else [])
  }

  /** Exactly the plan's eligible steps are selected. */
  lemma {:induction false} EligibleStepsMember(steps: seq<WorkflowStep>, completed: set<string>, s: WorkflowStep)
    ensures s in EligibleSteps(steps, completed) <==> s in steps && Eligible(s, completed)
  {
    if steps != [] {
      var prefix := steps[..|steps| - 1];
      EligibleStepsMember(prefix, completed, s);
      assert steps == prefix + [steps[|steps| - 1]];
    }
  }

  /** Selection keeps plan order: it distributes over concatenation. */
  lemma {:induction false} EligibleStepsAppend(a: seq<WorkflowStep>, b: seq<WorkflowStep>, completed: set<string>)
    ensures EligibleSteps(a + b, completed) == EligibleSteps(a, completed) + EligibleSteps(b, completed)
    decreases |b|
  {
    if b == [] {
      assert a + b == a;
    } else {
      var b' := b[..|b| - 1];
      assert (a + b)[..|a + b| - 1] == a + b';
      EligibleStepsAppend(a, b', completed);
    }
  }

  /** `_get_steps_for_round`: the round number plays no part in the selection. */
  method GetStepsForRound(plan: WorkflowPlan, roundNum: int, completed: set<string>) returns (eligible: seq<WorkflowStep>)
    ensures eligible == EligibleSteps(plan.steps, completed)
  {
    eligible := [];
    var i := 0;
    while i < |plan.steps|
      invariant 0 <= i <= |plan.steps|
      invariant eligible == EligibleSteps(plan.steps[..i], completed)
    {
      var step := plan.steps[i];
      assert plan.steps[..i + 1][..i] == plan.steps[..i];
      if step.id in completed {
        i := i + 1;
        continue;
      }
      if forall dep :: dep in step.dependsOn ==> dep in completed {
        eligible := eligible + [step];
      }
      i := i + 1;
    }
    assert plan.steps[..i] == plan.steps;
  }

  /** No step is dispatched in the same round as one of its dependencies. */
  lemma NoDependencyInSameRound(steps: seq<WorkflowStep>, completed: set<string>, s: WorkflowStep, t: WorkflowStep)
    requires s in EligibleSteps(steps, completed) && t in EligibleSteps(steps, completed)
    ensures t.id !in s.dependsOn
  {
    EligibleStepsMember(steps, completed, s);
    EligibleStepsMember(steps, completed, t);
  }

  /** Once every step id has a result, nothing is eligible. */
  lemma {:induction false} NothingEligibleWhenAllDone(steps: seq<WorkflowStep>, completed: set<string>)
    requires StepIds(steps) <= completed
    ensures EligibleSteps(steps, completed) == []
  {
    if steps != [] {
      var prefix := steps[..|steps| - 1];
      var last := steps[|steps| - 1];
      assert steps == prefix + [last];
      assert last.id in StepIds(steps);
      forall id | id in StepIds(prefix)
        ensures id in completed
      {
        var s :| s in prefix && s.id == id;
        assert s in steps;
        assert id in StepIds(steps);
      }
      NothingEligibleWhenAllDone(prefix, completed);
    }
  }

  /** While some step is eligible, some step id still lacks a result. */
  lemma EligibleMeansWorkLeft(steps: seq<WorkflowStep>, completed: set<string>)
    requires EligibleSteps(steps, completed) != []
    ensures !(StepIds(steps) <= completed)
  {
    var s := EligibleSteps(steps, completed)[0];
    EligibleStepsMember(steps, completed, s);
    assert s.id in StepIds(steps);
  }

  // ---------------------------------------------------------------- fan-out

  /** A `Send`: either the hand-over to the synthesizer or one worker task with its dependency context. */
  datatype Send = ToSynthesizer | ToWorker(step: WorkflowStep, contextFromDeps: string)

  /** `{r["step_id"]: r["output"] for r in completed_results}`: a later result for an id replaces an earlier one. */
  function ResultsById(results: seq<WorkerResult>): (m: map<string, string>)
    ensures m.Keys == CompletedIds(results)
  {
    if results == [] then map[]
    else
      var prefix := results[..|results| - 1];
      var last := results[|results| - 1];
      assert results == prefix + [last];
      CompletedIdsAppend(prefix, [last]);
      ResultsById(prefix)[last.stepId := last.output]
  }

  /** The output recorded for an id is that of the id's last result in the log. */
  lemma {:induction false} ResultsByIdLatest(results: seq<WorkerResult>, i: nat)
    requires i < |results|
    requires forall j :: i < j < |results| ==> results[j].stepId != results[i].stepId
    ensures results[i].stepId in ResultsById(results)
    ensures ResultsById(results)[results[i].stepId] == results[i].output
  {
    var prefix := results[..|results| - 1];
    if i < |results| - 1 {
      ResultsByIdLatest(prefix, i);
    }
  }

  function DepEntry(dep: string, output: string): string
  {
    "[Result from " + dep + "]:\n" + output
  }

  /** One entry per dependency that has a result, in `depends_on` order. */
  function DepParts(deps: seq<string>, byId: map<string, string>): (parts: seq<string>)
    ensures |parts| <= |deps|
    ensures forall p :: p in parts ==> p != ""
    ensures parts == [] <==> forall d :: d in deps ==> d !in byId
  {
    if deps == [] then []
    else
      var d := deps[|deps| - 1];
      assert forall x :: x in deps <==> x in deps[..|deps| - 1] || x == d;
      DepParts(deps[..|deps| - 1], byId) + (if d in byId then [DepEntry(d, byId[d])] else [])
  }

  /** The dependency context handed to a worker (`dep_context`). */
  function DepContext(deps: seq<string>, byId: map<string, string>): string
  {
    if deps == [] then "" else Join("\n\n", DepParts(deps, byId))
  }

  /** The context is empty exactly when none of the dependencies has a result. */
  lemma DepContextEmpty(deps: seq<string>, byId: map<string, string>)
    ensures DepContext(deps, byId) == "" <==> forall d :: d in deps ==> d !in byId
  {
    if deps != [] {
      var parts := DepParts(deps, byId);
      JoinEmpty("\n\n", parts);
      if |parts| == 1 {
        assert parts[0] in parts;
      }
    }
  }

  /** One worker send per eligible step, in order. */
  function Dispatch(eligible: seq<WorkflowStep>, byId: map<string, string>): (sends: seq<Send>)
    ensures |sends| == |eligible|
    ensures forall i :: 0 <= i < |eligible| ==> sends[i] == ToWorker(eligible[i], DepContext(eligible[i].dependsOn, byId))
  {
    seq(|eligible|, i requires 0 <= i < |eligible| => ToWorker(eligible[i], DepContext(eligible[i].dependsOn, byId)))
  }

  predicate IsFanOut(sends: seq<Send>)
  {
    |sends| > 0 && forall i :: 0 <= i < |sends| ==> sends[i].ToWorker?
  }

  /** `_assign_workers`. */
  function AssignWorkers(plan: Option<WorkflowPlan>, results: seq<WorkerResult>): seq<Send>
  {
    if plan.None? || plan.value.steps == [] then [ToSynthesizer]
    else
      var eligible := EligibleSteps(plan.value.steps, CompletedIds(results));
      if eligible == [] then [ToSynthesizer]
      else Dispatch(eligible, ResultsById(results))
  }

  /**
   * `_assign_workers` sends to the synthesizer alone exactly when there is
   * no plan or no eligible step; otherwise it sends one worker task per
   * eligible step, in plan order, with that step's dependency context.
   */
  lemma AssignWorkersSpec(plan: Option<WorkflowPlan>, results: seq<WorkerResult>)
    ensures AssignWorkers(plan, results) == [ToSynthesizer]
        <==> plan.None? || EligibleSteps(plan.value.steps, CompletedIds(results)) == []
    ensures AssignWorkers(plan, results) != [ToSynthesizer] ==>
      IsFanOut(AssignWorkers(plan, results)) &&
      AssignWorkers(plan, results) == Dispatch(EligibleSteps(plan.value.steps, CompletedIds(results)), ResultsById(results))
  {
    var sends := AssignWorkers(plan, results);
    if plan.Some? && plan.value.steps != [] {
      var eligible := EligibleSteps(plan.value.steps, CompletedIds(results));
      if eligible != [] {
        assert sends[0] == ToWorker(eligible[0], DepContext(eligible[0].dependsOn, ResultsById(results)));
      }
    }
  }

  // ---------------------------------------------------------------- one worker task

  /** The single message a worker receives. */
  function TaskPrompt(task: string, context: string): (p: string)
    ensures context == "" ==> p == task
    ensures context != "" ==> p == task + "\n\n## Context from previous steps\n" + context
  {
    if context == "" then task else task + "\n\n## Context from previous steps\n" + context
  }

  /** `_worker_task_node`: every outcome, including a missing worker, becomes exactly one result. */
  function WorkerTask(step: WorkflowStep, context: string, workers: set<string>, invoke: (string, string) -> Outcome): (r: WorkerResult)
    ensures r.stepId == step.id && r.worker == step.worker && r.task == step.task
    ensures step.worker !in workers ==> r.output == "Worker '" + step.worker + "' not found."
    ensures step.worker in workers && invoke(step.worker, TaskPrompt(step.task, context)).Responded? ==>
      r.output == invoke(step.worker, TaskPrompt(step.task, context)).content
    ensures step.worker in workers && invoke(step.worker, TaskPrompt(step.task, context)).Raised? ==>
      r.output == "Worker '" + step.worker + "' failed: " + invoke(step.worker, TaskPrompt(step.task, context)).error
  {
    if step.worker !in workers then
      WorkerResult(step.id, step.worker, step.task, "Worker '" + step.worker + "' not found.")
    else
      match invoke(step.worker, TaskPrompt(step.task, context))
      case Responded(content) => WorkerResult(step.id, step.worker, step.task, content)
      case Raised(e) => WorkerResult(step.id, step.worker, step.task, "Worker '" + step.worker + "' failed: " + e)
  }

  /** The results of one round, one per worker send, in dispatch order. */
  function RoundResults(sends: seq<Send>, workers: set<string>, invoke: (string, string) -> Outcome): (rs: seq<WorkerResult>)
    requires forall i :: 0 <= i < |sends| ==> sends[i].ToWorker?
    ensures |rs| == |sends|
    ensures forall i :: 0 <= i < |sends| ==> rs[i].stepId == sends[i].step.id
  {
    seq(|sends|, i requires 0 <= i < |sends| && sends[i].ToWorker? =>
      WorkerTask(sends[i].step, sends[i].contextFromDeps, workers, invoke))
  }

  /** Runs the dispatched workers one after the other and collects their results. */
  method ExecuteRound(sends: seq<Send>, workers: set<string>, invoke: (string, string) -> Outcome) returns (batch: seq<WorkerResult>)
    requires forall i :: 0 <= i < |sends| ==> sends[i].ToWorker?
    ensures batch == RoundResults(sends, workers, invoke)
  {
    batch := [];
    var i := 0;
    while i < |sends|
      invariant 0 <= i <= |sends|
      invariant |batch| == i
      invariant forall k :: 0 <= k < i ==> batch[k] == WorkerTask(sends[k].step, sends[k].contextFromDeps, workers, invoke)
    {
      var r := WorkerTask(sends[i].step, sends[i].contextFromDeps, workers, invoke);
      batch := batch + [r];
      i := i + 1;
    }
  }

  // ---------------------------------------------------------------- completion and routing

  /** `_check_completion_node`: the new round number when steps remain, `None` for "no update". */
  function CheckCompletion(plan: Option<WorkflowPlan>, results: seq<WorkerResult>, currentRound: int): (update: Option<int>)
    ensures update.Some? <==> plan.Some? && !(StepIds(plan.value.steps) <= CompletedIds(results))
    ensures update.Some? ==> update.value == currentRound + 1
  {
    if plan.None? then None
    else if !(StepIds(plan.value.steps) <= CompletedIds(results)) then Some(currentRound + 1)
    else None
  }

  datatype Route = GoSynthesizer | FanOut(sends: seq<Send>)

  /** `_route_after_check`. */
  function RouteAfterCheck(plan: Option<WorkflowPlan>, results: seq<WorkerResult>): (route: Route)
    ensures route.GoSynthesizer? <==> plan.None? || StepIds(plan.value.steps) <= CompletedIds(results)
    ensures route.FanOut? ==> route.sends == AssignWorkers(plan, results)
  {
    if plan.None? then GoSynthesizer
    else if StepIds(plan.value.steps) <= CompletedIds(results) then GoSynthesizer
    else FanOut(AssignWorkers(plan, results))
  }

  /** Routing starts workers exactly when some step is eligible; otherwise control reaches the synthesizer. */
  lemma RouteDispatchesIffEligible(plan: Option<WorkflowPlan>, results: seq<WorkerResult>)
    ensures (RouteAfterCheck(plan, results).FanOut? && IsFanOut(RouteAfterCheck(plan, results).sends))
        <==> plan.Some? && EligibleSteps(plan.value.steps, CompletedIds(results)) != []
  {
    assert [ToSynthesizer][0] == ToSynthesizer;
    AssignWorkersSpec(plan, results);
    if plan.Some? && StepIds(plan.value.steps) <= CompletedIds(results) {
      NothingEligibleWhenAllDone(plan.value.steps, CompletedIds(results));
    }
  }

  // ---------------------------------------------------------------- synthesis

  const NoResultsMessage := "No results to synthesize."
  const SectionSeparator := "\n\n---\n\n"

  /** One report section; a step's task is cut to its first 200 characters. */
  function Section(r: WorkerResult): string
  {
    "### Step: " + r.stepId + " (Worker: " + r.worker + ")\n**Task**: " + Take(r.task, 200) + "\n\n" + r.output
  }

  function Sections(results: seq<WorkerResult>): (ss: seq<string>)
    ensures |ss| == |results|
    ensures forall i :: 0 <= i < |results| ==> ss[i] == Section(results[i])
  {
    seq(|results|, i requires 0 <= i < |results| => Section(results[i]))
  }

  function ReportHeader(plan: Option<WorkflowPlan>, count: nat): string
  {
    "# Workflow Results: " + (if plan.Some? then plan.value.name else "unknown") + "\n*Completed " + NatToString(count) + " steps*\n\n"
  }

  /** `_synthesizer_node`'s `final_output`: a pure function of the plan and the result log. */
  function Synthesize(plan: Option<WorkflowPlan>, results: seq<WorkerResult>): string
  {
    if results == [] then NoResultsMessage
    else ReportHeader(plan, |results|) + Join(SectionSeparator, Sections(results))
  }

  /** The "no results" text appears exactly when the log is empty. */
  lemma SynthesizeEmptyIff(plan: Option<WorkflowPlan>, results: seq<WorkerResult>)
    ensures Synthesize(plan, results) == NoResultsMessage <==> results == []
  {
    if results != [] {
      var out := Synthesize(plan, results);
      assert out[0] == '#';
      assert NoResultsMessage[0] == 'N';
    }
  }

  /** Appending one result to a non-empty log appends one separated section and bumps the count. */
  lemma SynthesizeAppend(plan: Option<WorkflowPlan>, results: seq<WorkerResult>, r: WorkerResult)
    requires results != []
    ensures Synthesize(plan, results + [r])
         == ReportHeader(plan, |results| + 1) + (Join(SectionSeparator, Sections(results)) + SectionSeparator + Section(r))
  {
    assert Sections(results + [r]) == Sections(results) + [Section(r)];
    JoinAppend(SectionSeparator, Sections(results), Section(r));
  }

  /** A single result is reported as the header followed by its section alone. */
  lemma SynthesizeSingle(plan: Option<WorkflowPlan>, r: WorkerResult)
    ensures Synthesize(plan, [r]) == ReportHeader(plan, 1) + Section(r)
  {
    assert Sections([r]) == [Section(r)];
  }

  // ---------------------------------------------------------------- the run

  lemma CompletedIdsPrefix(log: seq<WorkerResult>, k: nat, m: nat)
    requires k <= m <= |log|
    ensures CompletedIds(log[..k]) <= CompletedIds(log[..m])
  {
    assert log[..m] == log[..k] + log[k..m];
    CompletedIdsAppend(log[..k], log[k..m]);
  }

  /** The number of plan steps (counted by position) whose id has no result yet. */
  function PendingCount(steps: seq<WorkflowStep>, completed: set<string>): (n: nat)
    ensures n <= |steps|
  {
    if steps == [] then 0
    else PendingCount(steps[..|steps| - 1], completed) + (if steps[|steps| - 1].id in completed then 0 else 1)
  }

  /** No step is pending exactly when every step id has a result. */
  lemma {:induction false} PendingCountZero(steps: seq<WorkflowStep>, completed: set<string>)
    ensures PendingCount(steps, completed) == 0 <==> StepIds(steps) <= completed
  {
    if steps != [] {
      var prefix := steps[..|steps| - 1];
      PendingCountZero(prefix, completed);
      assert steps == prefix + [steps[|steps| - 1]];
      assert StepIds(steps) == StepIds(prefix) + {steps[|steps| - 1].id};
    }
  }

  /** More completed ids never mean more pending steps, and strictly fewer once a pending step's id completes. */
  lemma {:induction false} PendingCountShrinks(steps: seq<WorkflowStep>, a: set<string>, b: set<string>, k: nat)
    requires a <= b
    requires k < |steps| && steps[k].id !in a && steps[k].id in b
    ensures PendingCount(steps, b) < PendingCount(steps, a)
  {
    var prefix := steps[..|steps| - 1];
    if k < |steps| - 1 {
      PendingCountShrinks(prefix, a, b, k);
    } else {
      PendingCountMono(prefix, a, b);
    }
  }

  lemma {:induction false} PendingCountMono(steps: seq<WorkflowStep>, a: set<string>, b: set<string>)
    requires a <= b
    ensures PendingCount(steps, b) <= PendingCount(steps, a)
  {
    if steps != [] {
      PendingCountMono(steps[..|steps| - 1], a, b);
    }
  }

  /**
   * `rank` orders the plan: every dependency names a step of the plan whose
   * rank is below that of the step depending on it.
   */
  ghost predicate RankedBy(steps: seq<WorkflowStep>, rank: string -> nat)
  {
    forall s, d :: s in steps && d in s.dependsOn ==> d in StepIds(steps) && rank(d) < rank(s.id)
  }

  /** The plan's dependencies name only its own steps and form no cycle. */
  ghost predicate Acyclic(steps: seq<WorkflowStep>)
  {
    exists rank: string -> nat :: RankedBy(steps, rank)
  }

  /** In a ranked plan, a step without a result has an eligible step at or below its rank. */
  lemma {:induction false} PendingReachesEligible(steps: seq<WorkflowStep>, completed: set<string>,
                                                  rank: string -> nat, s: WorkflowStep)
    requires RankedBy(steps, rank) && s in steps && s.id !in completed
    ensures exists e :: e in steps && Eligible(e, completed)
    decreases rank(s.id)
  {
    if !Eligible(s, completed) {
      var d :| d in s.dependsOn && d !in completed;
      assert d in StepIds(steps) && rank(d) < rank(s.id);
      var t :| t in steps && t.id == d;
      PendingReachesEligible(steps, completed, rank, t);
    }
  }

  /** When nothing of an acyclic plan can run, every step has a result. */
  lemma AcyclicStopMeansDone(steps: seq<WorkflowStep>, completed: set<string>)
    requires Acyclic(steps)
    ensures EligibleSteps(steps, completed) == [] ==> StepIds(steps) <= completed
  {
    if EligibleSteps(steps, completed) == [] && !(StepIds(steps) <= completed) {
      var rank :| RankedBy(steps, rank);
      var id :| id in StepIds(steps) && id !in completed;
      var s :| s in steps && s.id == id;
      PendingReachesEligible(steps, completed, rank, s);
      var e :| e in steps && Eligible(e, completed);
      EligibleStepsMember(steps, completed, e);
      assert false;
    }
  }

  /** A dispatching round completes at least one pending step. */
  lemma RoundProgress(steps: seq<WorkflowStep>, log: seq<WorkerResult>, eligible: seq<WorkflowStep>, batch: seq<WorkerResult>)
    requires eligible == EligibleSteps(steps, CompletedIds(log)) && eligible != []
    requires |batch| >= 1 && batch[0].stepId == eligible[0].id
    ensures PendingCount(steps, CompletedIds(log + batch)) < PendingCount(steps, CompletedIds(log))
  {
    CompletedIdsAppend(log, batch);
    EligibleStepsMember(steps, CompletedIds(log), eligible[0]);
    assert batch[0] in batch;
    var k :| 0 <= k < |steps| && steps[k] == eligible[0];
    PendingCountShrinks(steps, CompletedIds(log), CompletedIds(log + batch), k);
  }

  /**
   * From index `base` on, each result in the log belongs to the step beside
   * it in `executed`, a step of the plan, and each dependency of that step
   * has a result earlier in the log.
   */
  ghost predicate OrderedLog(log: seq<WorkerResult>, base: nat, executed: seq<WorkflowStep>, steps: seq<WorkflowStep>)
  {
    base + |executed| == |log| &&
    forall i :: 0 <= i < |executed| ==>
      executed[i] in steps && log[base + i].stepId == executed[i].id &&
      forall d :: d in executed[i].dependsOn ==> d in CompletedIds(log[..base + i])
  }

  /** Appending a round's results, one per eligible step in order, keeps the log ordered. */
  lemma OrderedLogExtend(log: seq<WorkerResult>, base: nat, executed: seq<WorkflowStep>, steps: seq<WorkflowStep>,
                         eligible: seq<WorkflowStep>, batch: seq<WorkerResult>)
    requires OrderedLog(log, base, executed, steps)
    requires eligible == EligibleSteps(steps, CompletedIds(log))
    requires |batch| == |eligible| && forall k :: 0 <= k < |eligible| ==> batch[k].stepId == eligible[k].id
    ensures OrderedLog(log + batch, base, executed + eligible, steps)
  {
    var log' := log + batch;
    var ex' := executed + eligible;
    forall i | 0 <= i < |ex'|
      ensures ex'[i] in steps && log'[base + i].stepId == ex'[i].id
      ensures forall d :: d in ex'[i].dependsOn ==> d in CompletedIds(log'[..base + i])
    {
      if i < |executed| {
        assert log'[..base + i] == log[..base + i];
      } else {
        var k := i - |executed|;
        assert ex'[i] == eligible[k];
        EligibleStepsMember(steps, CompletedIds(log), eligible[k]);
        assert log'[..|log|] == log;
        CompletedIdsPrefix(log', |log|, base + i);
      }
    }
  }

  /**
   * What holds of a run after `rounds` dispatching rounds: the log extends
   * `start` by one result per executed step, in dependency order, each round
   * completed a pending step, and the round counter moved once per round
   * except the one that finished the plan.
   */
  ghost predicate RunInv(steps: seq<WorkflowStep>, start: seq<WorkerResult>, log: seq<WorkerResult>,
                         executed: seq<WorkflowStep>, rounds: nat, budget: nat, round0: int, round: int)
  {
    |log| == |start| + |executed| && log[..|start|] == start &&
    rounds + PendingCount(steps, CompletedIds(log)) <= budget &&
    round == round0 + rounds - (if rounds > 0 && PendingCount(steps, CompletedIds(log)) == 0 then 1 else 0) &&
    OrderedLog(log, |start|, executed, steps)
  }

  /** One dispatching round keeps `RunInv` and strictly lowers the pending count. */
  lemma RunInvStep(steps: seq<WorkflowStep>, start: seq<WorkerResult>, before: seq<WorkerResult>, after: seq<WorkerResult>,
                   executed: seq<WorkflowStep>, eligible: seq<WorkflowStep>, rounds: nat, budget: nat,
                   round0: int, roundBefore: int, roundAfter: int)
    requires RunInv(steps, start, before, executed, rounds, budget, round0, roundBefore)
    requires eligible == EligibleSteps(steps, CompletedIds(before)) && eligible != []
    requires |after| == |before| + |eligible| && after[..|before|] == before
    requires forall k :: 0 <= k < |eligible| ==> after[|before| + k].stepId == eligible[k].id
    requires roundAfter == roundBefore + (if StepIds(steps) <= CompletedIds(after) then 0 else 1)
    ensures RunInv(steps, start, after, executed + eligible, rounds + 1, budget, round0, roundAfter)
    ensures PendingCount(steps, CompletedIds(after)) < PendingCount(steps, CompletedIds(before))
  {
    var batch := after[|before|..];
    assert after == before + batch;
    assert after[..|start|] == before[..|start|];
    EligibleMeansWorkLeft(steps, CompletedIds(before));
    PendingCountZero(steps, CompletedIds(before));
    PendingCountZero(steps, CompletedIds(after));
    RoundProgress(steps, before, eligible, batch);
    OrderedLogExtend(before, |start|, executed, steps, eligible, batch);
  }

  /** The state the workflow graph threads through its nodes. */
  /**
   * One dispatching round of the graph: run the eligible steps, append their
   * results, then `_check_completion_node` and `_route_after_check`.
   */
  method Round(p: WorkflowPlan, log: seq<WorkerResult>, round: int, sends: seq<Send>,
               workers: set<string>, invoke: (string, string) -> Outcome)
    returns (eligible: seq<WorkflowStep>, log': seq<WorkerResult>, round': int, next: seq<Send>)
    requires sends == AssignWorkers(Some(p), log) && sends != [ToSynthesizer]
    ensures eligible == EligibleSteps(p.steps, CompletedIds(log)) && eligible != []
    ensures |log'| == |log| + |eligible| && log'[..|log|] == log
    ensures forall k :: 0 <= k < |eligible| ==> log'[|log| + k].stepId == eligible[k].id
    ensures next == AssignWorkers(Some(p), log')
    ensures round' == round + (if StepIds(p.steps) <= CompletedIds(log') then 0 else 1)
  {
    AssignWorkersSpec(Some(p), log);
    eligible := EligibleSteps(p.steps, CompletedIds(log));
    // all dispatched steps finish, then their results are appended
    var batch := ExecuteRound(sends, workers, invoke);
    log' := log + batch;
    assert log'[..|log|] == log;
    // check_completion, then route
    round' := round;
    var update := CheckCompletion(Some(p), log', round);
    if update.Some? {
      round' := update.value;
    }
    var route := RouteAfterCheck(Some(p), log');
    match route {
      case GoSynthesizer =>
        NothingEligibleWhenAllDone(p.steps, CompletedIds(log'));
        AssignWorkersSpec(Some(p), log');
        next := [ToSynthesizer];
      case FanOut(s) =>
        next := s;
    }
  }

  /**
   * The rounds of a run with a plan: dispatch, execute, check and route
   * until routing reaches the synthesizer.
   */
  method RunRounds(p: WorkflowPlan, start: seq<WorkerResult>, round0: int,
                   workers: set<string>, invoke: (string, string) -> Outcome)
    returns (log: seq<WorkerResult>, round: int, rounds: nat, ghost executed: seq<WorkflowStep>)
    ensures EligibleSteps(p.steps, CompletedIds(log)) == []
    ensures Acyclic(p.steps) ==> StepIds(p.steps) <= CompletedIds(log)
    ensures RunInv(p.steps, start, log, executed, rounds, PendingCount(p.steps, CompletedIds(start)), round0, round)
  {
    log, round, rounds, executed := start, round0, 0, [];
    var sends := AssignWorkers(Some(p), log);
    ghost var budget := PendingCount(p.steps, CompletedIds(start));
    assert log[..|start|] == start;
    while sends != [ToSynthesizer]
      invariant sends == AssignWorkers(Some(p), log)
      invariant RunInv(p.steps, start, log, executed, rounds, budget, round0, round)
      decreases PendingCount(p.steps, CompletedIds(log))
    {
      var eligible, log', round';
      eligible, log', round', sends := Round(p, log, round, sends, workers, invoke);
      RunInvStep(p.steps, start, log, log', executed, eligible, rounds, budget, round0, round, round');
      log, round := log', round';
      executed := executed + eligible;
      rounds := rounds + 1;
    }
    AssignWorkersSpec(Some(p), log);
    if Acyclic(p.steps) {
      AcyclicStopMeansDone(p.steps, CompletedIds(log));
    }
  }

  class WorkflowState {
    var plan: Option<WorkflowPlan>
    var currentRound: int
    var completedResults: seq<WorkerResult>
    var finalOutput: string

    /**
     * The state the planner node leaves: its plan and round 0. The node sets
     * nothing else, so the result log and the final output are those the
     * session's checkpoint already holds (empty for a fresh session).
     */
    constructor (plan: Option<WorkflowPlan>, priorResults: seq<WorkerResult>, priorOutput: string)
      ensures this.plan == plan && currentRound == 0
      ensures completedResults == priorResults && finalOutput == priorOutput
    {
      this.plan := plan;
      currentRound := 0;
      completedResults := priorResults;
      finalOutput := priorOutput;
    }

    /**
     * Runs rounds until routing reaches the synthesizer, then synthesizes.
     * `rounds` counts the rounds that dispatched workers; `executed` lists
     * the steps run, aligned with the results they appended.
     */
    method Run(workers: set<string>, invoke: (string, string) -> Outcome) returns (rounds: nat, ghost executed: seq<WorkflowStep>)
      modifies this
      ensures plan == old(plan)
      ensures finalOutput == Synthesize(plan, completedResults)
      // without a plan nothing is dispatched
      ensures plan.None? ==> rounds == 0 && executed == [] && completedResults == old(completedResults)
                             && currentRound == old(currentRound)
      // with one, the run stops only when no step can run, after at most one round per pending step
      ensures plan.Some? ==> EligibleSteps(plan.value.steps, CompletedIds(completedResults)) == []
      // and an acyclic plan stops with every step completed
      ensures plan.Some? && Acyclic(plan.value.steps) ==> StepIds(plan.value.steps) <= CompletedIds(completedResults)
      ensures plan.Some? ==> RunInv(plan.value.steps, old(completedResults), completedResults, executed, rounds,
                                    PendingCount(plan.value.steps, CompletedIds(old(completedResults))),
                                    old(currentRound), currentRound)
    {
      rounds := 0;
      executed := [];
      var log := completedResults;
      var round := currentRound;
      if plan.Some? {
        log, round, rounds, executed := RunRounds(plan.value, log, round, workers, invoke);
      } else {
        AssignWorkersSpec(plan, log);
      }
      completedResults, currentRound := log, round;
      finalOutput := Synthesize(plan, log);
    }
  }
}
