/**
  The run of `execute_workflow` (backend/app/services/workflow_executor.py): the context
  map threaded through the steps in execution order, the stop at the first failed step,
  and the result reported for a workflow.
*/
module Runs {
  import opened Wrappers
  import opened Schema
  import opened ExecutionOrder
  import opened Steps

  // ---------------------------------------------------------------------------
  // The run

  /** `next(c for c in components if c.id == component_id)`: the first component with the id. */
  function FirstIndexOfId(components: seq<ComponentConfig>, id: string): (i: nat)
    requires id in Ids(components)
    ensures i < |components| && components[i].id == id
    ensures forall j :: 0 <= j < i ==> components[j].id != id
  {
    if components[0].id == id then 0 else 1 + FirstIndexOfId(components[1..], id)
  }

  /** The context a run starts from: `{"query": user_query, "workflow_id": workflow_id}`. */
  function InitialContext(userQuery: string, workflowId: Option<int>): (data: Data)
    ensures "response" !in data
  {
    map["query" := VStr(userQuery), "workflow_id" := if workflowId.Some? then VInt(workflowId.value) else VNull]
  }

  /** The steps recorded and the context reached. */
  datatype Run = Run(steps: seq<ExecutionStep>, context: Data)

  /**
    The `for component_id in execution_order` loop: each step gets a copy of the context,
    its result is merged into the context, and the run stops after a failed step.
  */
  function RunSteps(components: seq<ComponentConfig>, order: seq<string>, data: Data, handler: Handler): (run: Run)
    requires forall v :: v in order ==> v in Ids(components)
    ensures |run.steps| <= |order| && (order != [] ==> run.steps != [])
    ensures forall i :: 0 <= i < |run.steps| ==> run.steps[i].componentId == order[i]
    decreases |order|
  {
    if order == [] then Run([], data)
    else
      var c := components[FirstIndexOfId(components, order[0])];
      var out := handler(c, data);
      var step := ExecutionStep(order[0], c.ctype, data, out, Get(out, "success", VBool(true)));
      if !StepSucceeded(out) then Run([step], data + out)
      else
        var rest := RunSteps(components, order[1..], data + out, handler);
        Run([step] + rest.steps, rest.context)
  }

  /** Every step before the last one succeeded. */
  predicate EarlierStepsSucceeded(steps: seq<ExecutionStep>) {
    forall i :: 0 <= i < |steps| - 1 ==> StepSucceeded(steps[i].output)
  }

  /** A run continues only past steps that succeeded. */
  lemma {:induction false} RunContinuesOnSuccess(components: seq<ComponentConfig>, order: seq<string>, data: Data, handler: Handler)
    requires forall v :: v in order ==> v in Ids(components)
    ensures EarlierStepsSucceeded(RunSteps(components, order, data, handler).steps)
    decreases |order|
  {
    if order != [] {
      var c := components[FirstIndexOfId(components, order[0])];
      var out := handler(c, data);
      if StepSucceeded(out) {
        RunContinuesOnSuccess(components, order[1..], data + out, handler);
        var steps := RunSteps(components, order, data, handler).steps;
        var rest := RunSteps(components, order[1..], data + out, handler).steps;
        assert steps == [steps[0]] + rest;
        forall i | 0 <= i < |steps| - 1 ensures StepSucceeded(steps[i].output) {
          if i == 0 {
            assert steps[0].output == out;
          } else {
            assert steps[i] == rest[i - 1];
          }
        }
      }
    }
  }

  /** A run that ends before the order is exhausted ends with a failed step. */
  lemma {:induction false} RunStopsAtFailure(components: seq<ComponentConfig>, order: seq<string>, data: Data, handler: Handler)
    requires forall v :: v in order ==> v in Ids(components)
    ensures var steps := RunSteps(components, order, data, handler).steps;
      |steps| < |order| ==> steps != [] && !StepSucceeded(steps[|steps| - 1].output)
    decreases |order|
  {
    if order != [] {
      var c := components[FirstIndexOfId(components, order[0])];
      var out := handler(c, data);
      if StepSucceeded(out) {
        RunStopsAtFailure(components, order[1..], data + out, handler);
        var steps := RunSteps(components, order, data, handler).steps;
        var rest := RunSteps(components, order[1..], data + out, handler).steps;
        if |steps| < |order| {
          assert steps[|steps| - 1] == rest[|rest| - 1];
        }
      }
    }
  }

  /**
    Each step sees the context the previous ones built: the first step gets the initial
    context `data`, each next one the previous input with the previous result merged in,
    and the final context is the last input with the last result merged in.
  */
  predicate ContextThreaded(data: Data, run: Run) {
    && (run.steps != [] ==> run.steps[0].input == data)
    && (forall i :: 0 <= i < |run.steps| - 1 ==> run.steps[i + 1].input == run.steps[i].input + run.steps[i].output)
    && run.context == if run.steps == [] then data else run.steps[|run.steps| - 1].input + run.steps[|run.steps| - 1].output
  }

  /** The run threads the context through its steps. */
  lemma {:induction false} RunThreadsContext(components: seq<ComponentConfig>, order: seq<string>, data: Data, handler: Handler)
    requires forall v :: v in order ==> v in Ids(components)
    ensures ContextThreaded(data, RunSteps(components, order, data, handler))
    decreases |order|
  {
    if order != [] {
      var c := components[FirstIndexOfId(components, order[0])];
      var out := handler(c, data);
      if StepSucceeded(out) {
        RunThreadsContext(components, order[1..], data + out, handler);
        var run := RunSteps(components, order, data, handler);
        var rest := RunSteps(components, order[1..], data + out, handler);
        assert run.steps == [run.steps[0]] + rest.steps;
        forall i | 0 <= i < |run.steps| - 1
          ensures run.steps[i + 1].input == run.steps[i].input + run.steps[i].output
        {
          if i == 0 {
            assert run.steps[1] == rest.steps[0];
          } else {
            assert run.steps[i] == rest.steps[i - 1] && run.steps[i + 1] == rest.steps[i];
          }
        }
        if rest.steps != [] {
          assert run.steps[|run.steps| - 1] == rest.steps[|rest.steps| - 1];
        }
      }
    }
  }

  /** The message of the exception raised for an invalid workflow. */
  const InvalidMessage := "Invalid workflow configuration"

  /** What `execute_workflow` returns (its timestamps are not modelled). */
  datatype ExecutionResult =
    | Completed(finalResponse: Value, steps: seq<ExecutionStep>, totalSteps: nat)
    | Failed(error: string, steps: seq<ExecutionStep>, finalResponse: Value)

  /** The properties `_get_execution_order` guarantees of the order it returns. */
  ghost predicate IsExecutionOrder(components: seq<ComponentConfig>, connections: seq<WorkflowConnection>, order: seq<string>) {
    && Distinct(order)
    && (forall v :: v in order ==> v in Ids(components))
    && SourcesFirst(connections, order)
    && OmittedAreBlocked(components, connections, order)
    && |Roots(components, connections)| <= |order|
    && order[..|Roots(components, connections)|] == Roots(components, connections)
  }

  /** `execute_workflow` for a given execution order and step handler. */
  function Execute(
    components: seq<ComponentConfig>, connections: seq<WorkflowConnection>, order: seq<string>,
    userQuery: string, workflowId: Option<int>, handler: Handler): ExecutionResult
    requires forall v :: v in order ==> v in Ids(components)
  {
    if !ValidateWorkflow(components, connections) then
      Failed(InvalidMessage, [], VStr("Workflow execution failed: " + InvalidMessage))
    else
      var run := RunSteps(components, order, InitialContext(userQuery, workflowId), handler);
      Completed(Get(run.context, "response", VStr("No response generated")), run.steps, |run.steps|)
  }

  /** Each recorded step holds the handler's result for its component on the step's input. */
  lemma {:induction false} RunStepOutput(components: seq<ComponentConfig>, order: seq<string>, data: Data, handler: Handler, i: nat)
    requires forall v :: v in order ==> v in Ids(components)
    requires i < |RunSteps(components, order, data, handler).steps|
    ensures var s := RunSteps(components, order, data, handler).steps[i];
      var c := components[FirstIndexOfId(components, order[i])];
      s.componentType == c.ctype && s.output == handler(c, s.input)
    decreases |order|
  {
    if i > 0 {
      var c := components[FirstIndexOfId(components, order[0])];
      RunStepOutput(components, order[1..], data + handler(c, data), handler, i - 1);
      assert order[1..][i - 1] == order[i];
    }
  }

  /** No step runs after a web_search component: it has no handler, so its step fails. */
  lemma NoStepAfterWebSearch(components: seq<ComponentConfig>, order: seq<string>, data: Data, handler: Handler, i: nat)
    requires forall v :: v in order ==> v in Ids(components)
    requires RejectsWebSearch(handler)
    requires var run := RunSteps(components, order, data, handler); i < |run.steps| && run.steps[i].componentType == WebSearch
    ensures i == |RunSteps(components, order, data, handler).steps| - 1
  {
    var run := RunSteps(components, order, data, handler);
    if i < |run.steps| - 1 {
      RunStepOutput(components, order, data, handler, i);
      RunContinuesOnSuccess(components, order, data, handler);
    }
  }

  /** Without an LLM step nothing writes "response", so the context never gets one. */
  lemma {:induction false} NoLlmNoResponse(components: seq<ComponentConfig>, order: seq<string>, data: Data, handler: Handler)
    requires forall v :: v in order ==> v in Ids(components)
    requires "response" !in data && OnlyLlmResponds(handler)
    requires forall i :: 0 <= i < |components| ==> components[i].ctype != LlmEngine
    ensures "response" !in RunSteps(components, order, data, handler).context
    decreases |order|
  {
    if order != [] {
      var c := components[FirstIndexOfId(components, order[0])];
      var out := handler(c, data);
      if StepSucceeded(out) {
        NoLlmNoResponse(components, order[1..], data + out, handler);
      }
    }
  }

  /** Running from position `i` records the step of `order[i]`, then stops or runs on from `i + 1`. */
  lemma RunFrom(components: seq<ComponentConfig>, order: seq<string>, i: nat, data: Data, handler: Handler)
    requires forall v :: v in order ==> v in Ids(components)
    requires i < |order|
    ensures var c := components[FirstIndexOfId(components, order[i])];
      var out := handler(c, data);
      var step := ExecutionStep(order[i], c.ctype, data, out, Get(out, "success", VBool(true)));
      var run := RunSteps(components, order[i..], data, handler);
      if !StepSucceeded(out) then run == Run([step], data + out)
      else run == Run([step] + RunSteps(components, order[i + 1..], data + out, handler).steps,
                      RunSteps(components, order[i + 1..], data + out, handler).context)
  {
    assert order[i..][0] == order[i] && order[i..][1..] == order[i + 1..];
  }

  lemma AppendStep(done: seq<ExecutionStep>, step: ExecutionStep, rest: seq<ExecutionStep>)
    ensures done + ([step] + rest) == (done + [step]) + rest
  {
  }
  /** For a valid workflow, `execute_workflow` reports the run from the initial context. */
  lemma ExecuteValid(
    components: seq<ComponentConfig>, connections: seq<WorkflowConnection>, order: seq<string>,
    userQuery: string, workflowId: Option<int>, handler: Handler)
    requires forall v :: v in order ==> v in Ids(components)
    requires ValidateWorkflow(components, connections)
    ensures var run := RunSteps(components, order, InitialContext(userQuery, workflowId), handler);
      Execute(components, connections, order, userQuery, workflowId, handler)
        == Completed(Get(run.context, "response", VStr("No response generated")), run.steps, |run.steps|)
  {
  }
}
