/**
  What `execute_workflow` reports (backend/app/services/workflow_executor.py), stated
  about the `Execute` function of module `Runs`: the outcome of an invalid workflow, the
  shape of a valid workflow's run, and the response a run without a language model gives.
*/
module Reports {
  import opened Wrappers
  import opened Schema
  import opened ExecutionOrder
  import opened Steps
  import opened Runs

  /** An invalid workflow fails before any step, with the fixed message. */
  lemma InvalidWorkflowFails(
    components: seq<ComponentConfig>, connections: seq<WorkflowConnection>, order: seq<string>,
    userQuery: string, workflowId: Option<int>, handler: Handler)
    requires forall v :: v in order ==> v in Ids(components)
    requires !(HasType(components, UserQuery) && HasType(components, Output) && EndpointsKnown(components, connections))
    ensures var r := Execute(components, connections, order, userQuery, workflowId, handler);
      && r.Failed? && r.steps == [] && r.error == InvalidMessage
      && r.finalResponse.VStr? && r.finalResponse.s[..|"Workflow execution failed: "|] == "Workflow execution failed: "
  {
  }

  /**
    A valid workflow always reports success, even when a step failed: the run then holds
    the steps up to and including the failed one, and every earlier step succeeded.
  */
  lemma ValidWorkflowCompletes(
    components: seq<ComponentConfig>, connections: seq<WorkflowConnection>, order: seq<string>,
    userQuery: string, workflowId: Option<int>, handler: Handler)
    requires forall v :: v in order ==> v in Ids(components)
    requires ValidateWorkflow(components, connections)
    ensures var r := Execute(components, connections, order, userQuery, workflowId, handler);
      && r.Completed? && r.totalSteps == |r.steps| <= |order|
      && (forall i :: 0 <= i < |r.steps| ==> r.steps[i].componentId == order[i])
      && EarlierStepsSucceeded(r.steps)
      && (|r.steps| < |order| ==> !StepSucceeded(r.steps[|r.steps| - 1].output))
  {
    var data := InitialContext(userQuery, workflowId);
    ExecuteValid(components, connections, order, userQuery, workflowId, handler);
    var steps := RunSteps(components, order, data, handler).steps;
    assert EarlierStepsSucceeded(steps) by {
      RunContinuesOnSuccess(components, order, data, handler);
    }
    assert |steps| < |order| ==> !StepSucceeded(steps[|steps| - 1].output) by {
      RunStopsAtFailure(components, order, data, handler);
    }
  }

  /** Consequently a valid workflow without an LLM engine answers "No response generated". */
  lemma NoLlmDefaultResponse(
    components: seq<ComponentConfig>, connections: seq<WorkflowConnection>, order: seq<string>,
    userQuery: string, workflowId: Option<int>, handler: Handler)
    requires forall v :: v in order ==> v in Ids(components)
    requires ValidateWorkflow(components, connections) && OnlyLlmResponds(handler)
    requires LlmEngine !in Types(components)
    ensures Execute(components, connections, order, userQuery, workflowId, handler).finalResponse == VStr("No response generated")
  {
    NoLlmNoResponse(components, order, InitialContext(userQuery, workflowId), handler);
  }
}
