/**
 * The workflow planner. An explicit template name that the template registry
 * knows selects that template, with the user's request appended to every
 * task. Otherwise the language model is asked for a plan as JSON; the reply
 * is cut out of its code fence, decoded, filtered to registered workers and
 * completed with defaults. Any failure on that path yields a one-step
 * fallback plan for the coder worker, so planning never fails.
 *
 * The model call, the JSON decoder and the text of Python exceptions are
 * parameters: `response` is what the call returned, `loads` decodes (its
 * error is the decoder's message) and `describe` gives the message of the
 * exception raised on an ill-typed value.
 */
module Planner {
  import opened Wrappers
  import opened PyStr
  import opened Json
  import opened Llm
  import opened WorkflowSchema
  import WorkflowGraph

  // ---------------------------------------------------------------- templates

  const UserRequestLabel: string := "\n\nUser's original request: "

  function InjectStep(step: WorkflowStep, userMessage: string): WorkflowStep
  {
    step.(task := step.task + UserRequestLabel + userMessage)
  }

  function InjectSteps(steps: seq<WorkflowStep>, userMessage: string): (r: seq<WorkflowStep>)
    ensures |r| == |steps|
    ensures forall i :: 0 <= i < |steps| ==> r[i] == InjectStep(steps[i], userMessage)
  {
    seq(|steps|, i requires 0 <= i < |steps| => InjectStep(steps[i], userMessage))
  }

  /**
   * `_inject_user_context`: the template's name, reasoning and step ids,
   * workers and dependencies are kept; each task gains the user's request.
   */
  function InjectUserContext(plan: WorkflowPlan, userMessage: string): (r: WorkflowPlan)
    ensures r.name == plan.name && r.reasoning == plan.reasoning && |r.steps| == |plan.steps|
    ensures forall i :: 0 <= i < |plan.steps| ==>
      r.steps[i].id == plan.steps[i].id && r.steps[i].worker == plan.steps[i].worker &&
      r.steps[i].dependsOn == plan.steps[i].dependsOn &&
      r.steps[i].task == plan.steps[i].task + UserRequestLabel + userMessage
  {
    WorkflowPlan(plan.name, InjectSteps(plan.steps, userMessage), plan.reasoning)
  }

  lemma InjectStepsAppend(a: seq<WorkflowStep>, b: seq<WorkflowStep>, userMessage: string)
    ensures InjectSteps(a + b, userMessage) == InjectSteps(a, userMessage) + InjectSteps(b, userMessage)
  {
  }

  /**
   * Injecting the request changes no step id and no dependency, so the
   * injected plan is scheduled exactly like the template: in every state the
   * eligible steps are the template's eligible steps, injected.
   */
  lemma {:induction false} InjectKeepsSchedule(steps: seq<WorkflowStep>, userMessage: string, completed: set<string>)
    ensures WorkflowGraph.EligibleSteps(InjectSteps(steps, userMessage), completed)
         == InjectSteps(WorkflowGraph.EligibleSteps(steps, completed), userMessage)
  {
    if steps != [] {
      var n := |steps| - 1;
      var prefix := steps[..n];
      var last := steps[n];
      var injected := InjectSteps(steps, userMessage);
      InjectKeepsSchedule(prefix, userMessage, completed);
      assert injected[..n] == InjectSteps(prefix, userMessage);
      var tail := if WorkflowGraph.Eligible(last, completed) then [last] else [];
      InjectStepsAppend(WorkflowGraph.EligibleSteps(prefix, completed), tail, userMessage);
      assert WorkflowGraph.EligibleSteps(injected, completed)
          == WorkflowGraph.EligibleSteps(injected[..n], completed) + InjectSteps(tail, userMessage);
    }
  }

  /** The injected plan has the template's step ids. */
  lemma InjectKeepsIds(steps: seq<WorkflowStep>, userMessage: string)
    ensures StepIds(InjectSteps(steps, userMessage)) == StepIds(steps)
  {
    var injected := InjectSteps(steps, userMessage);
    forall id | id in StepIds(steps)
      ensures id in StepIds(injected)
    {
      var i :| 0 <= i < |steps| && steps[i].id == id;
      assert injected[i] in injected;
    }
  }

  // ---------------------------------------------------------------- decoding the reply

  const Fence: string := "```"

  /**
   * The text `_parse_plan_json` decodes: with a code fence, the text between
   * the first two fences, a leading `json` tag dropped, stripped; otherwise
   * the whole reply, stripped.
   */
  function PlanJsonText(content: string): (r: string)
    ensures IsStripped(r)
  {
    if Contains(content, Fence) then
      SplitWhenContains(content, Fence);
      var part := Split(content, Fence)[1];
      Strip(if StartsWith(part, "json") then part[4..] else part)
    else Strip(content)
  }

  /** Why planning by the model failed. */
  datatype PlanError =
    | LlmError(msg: string)   // the model call raised
    | JsonError(msg: string)  // the decoder rejected the text
    | ShapeError(culprit: Json) // a decoded value of the wrong type made Python raise

  /** `_parse_plan_json`: a decoder failure becomes the planner's own error. */
  function ParsePlanJson(content: string, loads: string -> Result<Json, string>): (r: Result<Json, PlanError>)
    ensures loads(PlanJsonText(content)).Ok? ==> r == Ok(loads(PlanJsonText(content)).value)
    ensures loads(PlanJsonText(content)).Err? ==> r == Err(JsonError(loads(PlanJsonText(content)).error))
  {
    match loads(PlanJsonText(content))
    case Ok(v) => Ok(v)
    case Err(m) => Err(JsonError(m))
  }

  /** The text between the first two fences of a reply whose prefix and fenced part hold no backtick. */
  lemma FencedPart(pre: string, part: string, post: string)
    requires '`' !in pre && '`' !in part
    ensures Contains(pre + Fence + part + Fence + post, Fence)
    ensures |Split(pre + Fence + part + Fence + post, Fence)| >= 2
    ensures Split(pre + Fence + part + Fence + post, Fence)[1] == part
  {
    var content := pre + Fence + part + Fence + post;
    var rest := part + Fence + post;
    assert content == pre + Fence + rest;
    SplitSecondPiece(pre, Fence, rest);
    SplitSecondPiece(part, Fence, post);
    assert OccursAt(content, Fence, |pre|);
  }

  /** A reply with a `json`-tagged fence decodes the fenced body alone. */
  lemma PlanJsonTextTagged(pre: string, body: string, post: string)
    requires '`' !in pre && '`' !in body
    ensures PlanJsonText(pre + Fence + "json" + body + Fence + post) == Strip(body)
  {
    var part := "json" + body;
    FencedPart(pre, part, post);
    assert pre + Fence + "json" + body + Fence + post == pre + Fence + part + Fence + post;
    assert StartsWith(part, "json") && part[4..] == body;
  }

  /** A reply with an untagged fence decodes the fenced body alone. */
  lemma PlanJsonTextUntagged(pre: string, body: string, post: string)
    requires '`' !in pre && '`' !in body && !StartsWith(body, "json")
    ensures PlanJsonText(pre + Fence + body + Fence + post) == Strip(body)
  {
    FencedPart(pre, body, post);
  }

  // ---------------------------------------------------------------- converting the steps

  /** The outcome of one entry of the reply's `steps` list. */
  datatype StepOutcome = Skip | Keep(step: WorkflowStep) | Fail(culprit: Json)

  /** The `worker` entry of a step object, `""` when absent. */
  function WorkerField(item: Json): Json
    requires item.JObj?
  {
    Get(item.fields, "worker", JStr(""))
  }

  /** `step_{k+1}`: the id given to a step without one when `k` steps are already kept. */
  function DefaultStepId(kept: nat): string
  {
    "step_" + NatToString(kept + 1)
  }

  /** Lists and dicts cannot be looked up in a dict: Python raises `TypeError`. */
  predicate Hashable(j: Json)
  {
    !j.JArr? && !j.JObj?
  }

  /** The entry names a registered worker and is kept. */
  predicate Selected(item: Json, workers: set<string>)
  {
    item.JObj? && WorkerField(item).JStr? && WorkerField(item).s in workers
  }

  /** The typed step record rejects the entry's fields (its default id is always a string). */
  predicate BadFields(item: Json)
    requires item.JObj?
  {
    ("id" in item.fields && !item.fields["id"].JStr?) ||
    !Get(item.fields, "task", JStr("")).JStr? ||
    AsStringList(Get(item.fields, "depends_on", JArr([]))).None?
  }

  /** The entry makes the planning loop raise. */
  predicate Fails(item: Json, workers: set<string>)
  {
    !item.JObj? || !Hashable(WorkerField(item)) || (Selected(item, workers) && BadFields(item))
  }

  /** One iteration of the planning loop, `kept` being the number of steps kept so far. */
  function ConvertStep(item: Json, kept: nat, workers: set<string>): (o: StepOutcome)
    ensures o.Fail? <==> Fails(item, workers)
    ensures o.Skip? <==> !Fails(item, workers) && !Selected(item, workers)
    ensures o.Keep? ==> StepMatches(o.step, item, kept, workers)
  {
    if !item.JObj? then Fail(item)
    else
      var w := WorkerField(item);
      if !Hashable(w) then Fail(w)
      else if !(w.JStr? && w.s in workers) then Skip
      else
        var id := Get(item.fields, "id", JStr(DefaultStepId(kept)));
        var task := Get(item.fields, "task", JStr(""));
        var deps := Get(item.fields, "depends_on", JArr([]));
        if !id.JStr? then Fail(id)
        else if !task.JStr? then Fail(task)
        else match AsStringList(deps)
          case None => Fail(deps)
          case Some(ds) => Keep(WorkflowStep(id.s, w.s, task.s, ds))
  }

  /**
   * The step kept for a selected entry when `k` steps precede it: its worker,
   * id (default `step_{k+1}`), task (default `""`) and dependencies (default
   * none) are the entry's.
   */
  predicate StepMatches(step: WorkflowStep, item: Json, k: nat, workers: set<string>)
  {
    Selected(item, workers) && step.worker in workers &&
    JStr(step.worker) == WorkerField(item) &&
    JStr(step.id) == Get(item.fields, "id", JStr(DefaultStepId(k))) &&
    JStr(step.task) == Get(item.fields, "task", JStr("")) &&
    AsStringList(Get(item.fields, "depends_on", JArr([]))) == Some(step.dependsOn)
  }

  /** The planning loop over the reply's step entries; the first entry that raises ends it. */
  function ConvertSteps(items: seq<Json>, workers: set<string>): (r: Result<seq<WorkflowStep>, Json>)
    ensures r.Ok? ==> |r.value| <= |items|
  {
    if items == [] then Ok([])
    else
      match ConvertSteps(items[..|items| - 1], workers)
      case Err(j) => Err(j)
      case Ok(steps) =>
        match ConvertStep(items[|items| - 1], |steps|, workers)
        case Skip => Ok(steps)
        case Keep(s) => Ok(steps + [s])
        case Fail(j) => Err(j)
  }

  /** The entries that name a registered worker, in order. */
  function SelectedItems(items: seq<Json>, workers: set<string>): (r: seq<Json>)
    ensures |r| <= |items|
  {
    if items == [] then []
    else
      SelectedItems(items[..|items| - 1], workers) +
      (if Selected(items[|items| - 1], workers) then [items[|items| - 1]] else [])
  }

  /**
   * The loop raises exactly when some entry is malformed; otherwise it keeps
   * one step per entry naming a registered worker, in order, the k-th kept
   * step getting `step_{k+1}` when it has no id.
   */
  lemma {:induction false} ConvertStepsSpec(items: seq<Json>, workers: set<string>)
    ensures ConvertSteps(items, workers).Err? <==> exists i :: 0 <= i < |items| && Fails(items[i], workers)
    ensures ConvertSteps(items, workers).Ok? ==>
      var steps := ConvertSteps(items, workers).value;
      var sel := SelectedItems(items, workers);
      |steps| == |sel| && forall k :: 0 <= k < |steps| ==> StepMatches(steps[k], sel[k], k, workers)
  {
    if items != [] {
      var n := |items| - 1;
      var prefix := items[..n];
      ConvertStepsSpec(prefix, workers);
      assert forall i :: 0 <= i < n ==> items[i] == prefix[i];
      if ConvertSteps(prefix, workers).Ok? {
        var steps := ConvertSteps(prefix, workers).value;
        var o := ConvertStep(items[n], |steps|, workers);
        if o.Fail? {
          assert Fails(items[n], workers);
        } else {
          assert !Fails(items[n], workers);
          forall i | 0 <= i < |items|
            ensures !Fails(items[i], workers)
          {
            if i < n {
              assert items[i] == prefix[i];
            }
          }
        }
      } else {
        var i :| 0 <= i < n && Fails(prefix[i], workers);
        assert Fails(items[i], workers);
      }
    }
  }

  /**
   * Python's iteration over the reply's `steps` value: a list gives its
   * entries and a string its one-character strings (each of which then
   * fails); an empty dict gives nothing; a non-empty dict gives keys, which
   * fail like strings; anything else is not iterable and raises.
   */
  function StepItems(steps: Json): (r: Result<seq<Json>, Json>)
    ensures steps.JArr? ==> r == Ok(steps.items)
  {
    match steps
    case JArr(xs) => Ok(xs)
    case JStr(s) => Ok(seq(|s|, i requires 0 <= i < |s| => JStr([s[i]])))
    case JObj(m) => if m == map[] then Ok([]) else Err(steps)
    case _ => Err(steps)
  }

  /** The plan built from a decoded reply, `name` defaulting to `dynamic` and `reasoning` to `LLM-generated plan`. */
  function PlanFromData(data: Json, workers: set<string>): (r: Result<WorkflowPlan, PlanError>)
    ensures r.Ok? ==> data.JObj?
    ensures r.Ok? ==> JStr(r.value.name) == Get(data.fields, "name", JStr("dynamic"))
    ensures r.Ok? ==> JStr(r.value.reasoning) == Get(data.fields, "reasoning", JStr("LLM-generated plan"))
    ensures r.Ok? ==> StepItems(Get(data.fields, "steps", JArr([]))).Ok?
    ensures r.Ok? ==> ConvertSteps(StepItems(Get(data.fields, "steps", JArr([]))).value, workers) == Ok(r.value.steps)
  {
    if !data.JObj? then Err(ShapeError(data))
    else
      match StepItems(Get(data.fields, "steps", JArr([])))
      case Err(j) => Err(ShapeError(j))
      case Ok(items) =>
        match ConvertSteps(items, workers)
        case Err(j) => Err(ShapeError(j))
        case Ok(steps) =>
          var name := Get(data.fields, "name", JStr("dynamic"));
          var reasoning := Get(data.fields, "reasoning", JStr("LLM-generated plan"));
          if !name.JStr? then Err(ShapeError(name))
          else if !reasoning.JStr? then Err(ShapeError(reasoning))
          else Ok(WorkflowPlan(name.s, steps, reasoning.s))
  }

  /** The model's plan, or why there is none. */
  function LlmPlanResult(response: Outcome, loads: string -> Result<Json, string>, workers: set<string>): Result<WorkflowPlan, PlanError>
  {
    match response
    case Raised(e) => Err(LlmError(e))
    case Responded(content) =>
      match ParsePlanJson(content, loads)
      case Err(e) => Err(e)
      case Ok(data) => PlanFromData(data, workers)
  }

  /** `str(e)` for a planning failure. */
  function ErrorText(e: PlanError, describe: Json -> string): string
  {
    match e
    case LlmError(m) => m
    case JsonError(m) => "Failed to parse plan JSON: " + m
    case ShapeError(j) => describe(j)
  }

  /** The plan used when model planning fails: the whole request as one coder step. */
  function FallbackPlan(userMessage: string, e: PlanError, describe: Json -> string): (p: WorkflowPlan)
    ensures p.name == "fallback" && p.steps == [WorkflowStep("step_1", "coder", userMessage, [])]
  {
    WorkflowPlan("fallback", [WorkflowStep("step_1", "coder", userMessage, [])],
                 "Planning failed (" + ErrorText(e, describe) + "), falling back to single coder worker.")
  }

  /** What `_llm_plan` returns: the model's plan, or the fallback. */
  function LlmPlanOf(userMessage: string, response: Outcome, loads: string -> Result<Json, string>,
                     workers: set<string>, describe: Json -> string): WorkflowPlan
  {
    match LlmPlanResult(response, loads, workers)
    case Ok(p) => p
    case Err(e) => FallbackPlan(userMessage, e, describe)
  }

  /**
   * `_llm_plan`: decode the reply, then walk its step entries, keeping those
   * that name a registered worker; any exception yields the fallback plan.
   */
  method LlmPlan(userMessage: string, response: Outcome, loads: string -> Result<Json, string>,
                 workers: set<string>, describe: Json -> string) returns (plan: WorkflowPlan)
    ensures plan == LlmPlanOf(userMessage, response, loads, workers, describe)
  {
    if response.Raised? {
      return FallbackPlan(userMessage, LlmError(response.error), describe);
    }
    var parsed := ParsePlanJson(response.content, loads);
    if parsed.Err? {
      return FallbackPlan(userMessage, parsed.error, describe);
    }
    var data := parsed.value;
    if !data.JObj? {
      return FallbackPlan(userMessage, ShapeError(data), describe);
    }
    var listed := StepItems(Get(data.fields, "steps", JArr([])));
    if listed.Err? {
      return FallbackPlan(userMessage, ShapeError(listed.error), describe);
    }
    var converted := ConvertStepsLoop(listed.value, workers);
    if converted.Err? {
      return FallbackPlan(userMessage, ShapeError(converted.error), describe);
    }
    var steps := converted.value;
    var name := Get(data.fields, "name", JStr("dynamic"));
    var reasoning := Get(data.fields, "reasoning", JStr("LLM-generated plan"));
    if !name.JStr? {
      return FallbackPlan(userMessage, ShapeError(name), describe);
    }
    if !reasoning.JStr? {
      return FallbackPlan(userMessage, ShapeError(reasoning), describe);
    }
    plan := WorkflowPlan(name.s, steps, reasoning.s);
  }

  /** The loop of `_llm_plan` over the step entries: the kept steps, or the entry that raised. */
  method ConvertStepsLoop(items: seq<Json>, workers: set<string>) returns (r: Result<seq<WorkflowStep>, Json>)
    ensures r == ConvertSteps(items, workers)
  {
    var steps: seq<WorkflowStep> := [];
    var i := 0;
    while i < |items|
      invariant 0 <= i <= |items|
      invariant ConvertSteps(items[..i], workers) == Ok(steps)
    {
      assert items[..i + 1][..i] == items[..i];
      var o := ConvertStep(items[i], |steps|, workers);
      match o {
        case Fail(j) =>
          assert ConvertSteps(items[..i + 1], workers) == Err(j);
          ConvertStepsErrStays(items, i + 1, workers);
          return Err(j);
        case Skip =>
        case Keep(s) =>
          steps := steps + [s];
      }
      i := i + 1;
    }
    assert items[..i] == items;
    r := Ok(steps);
  }

  /** Once the loop has raised on a prefix, it has raised on the whole list, with the same culprit. */
  lemma {:induction false} ConvertStepsErrStays(items: seq<Json>, i: nat, workers: set<string>)
    requires i <= |items| && ConvertSteps(items[..i], workers).Err?
    ensures ConvertSteps(items, workers) == ConvertSteps(items[..i], workers)
    decreases |items| - i
  {
    if i < |items| {
      assert items[..i + 1][..i] == items[..i];
      ConvertStepsErrStays(items, i + 1, workers);
    } else {
      assert items[..i] == items;
    }
  }

  /** `plan`: a known template name (a non-empty one) wins; otherwise the model plans. */
  method Plan(userMessage: string, templateName: Option<string>, templates: map<string, WorkflowPlan>,
              response: Outcome, loads: string -> Result<Json, string>,
              workers: set<string>, describe: Json -> string) returns (plan: WorkflowPlan)
    ensures templateName.Some? && templateName.value != "" && templateName.value in templates ==>
      plan == InjectUserContext(templates[templateName.value], userMessage)
    ensures !(templateName.Some? && templateName.value != "" && templateName.value in templates) ==>
      plan == LlmPlanOf(userMessage, response, loads, workers, describe)
  {
    if templateName.Some? && templateName.value != "" {
      if templateName.value in templates {
        return InjectUserContext(templates[templateName.value], userMessage);
      }
    }
    plan := LlmPlan(userMessage, response, loads, workers, describe);
  }

  /**
   * A plan the model path produces names only registered workers, provided
   * the fallback's `coder` is one; so no step of it reaches the graph's
   * "not found" branch.
   */
  lemma LlmPlanWorkersRegistered(userMessage: string, response: Outcome, loads: string -> Result<Json, string>,
                                 workers: set<string>, describe: Json -> string)
    requires "coder" in workers
    ensures forall s :: s in LlmPlanOf(userMessage, response, loads, workers, describe).steps ==> s.worker in workers
  {
    var r := LlmPlanResult(response, loads, workers);
    if r.Ok? {
      var data := ParsePlanJson(response.content, loads).value;
      var items := StepItems(Get(data.fields, "steps", JArr([]))).value;
      ConvertStepsSpec(items, workers);
      var steps := r.value.steps;
      forall s | s in steps
        ensures s.worker in workers
      {
        var k :| 0 <= k < |steps| && steps[k] == s;
        assert StepMatches(steps[k], SelectedItems(items, workers)[k], k, workers);
      }
    }
  }
}
