/**
  The `WorkflowExecutor` object (backend/app/services/workflow_executor.py): it records the
  steps of the latest run in a field, and its `execute_workflow` method is proved against
  the `Execute` function of module `Runs`, whose consequences are stated here.
*/
module Executor {
  import opened Wrappers
  import opened Schema
  import opened ExecutionOrder
  import opened Steps
  import opened Runs

  // ---------------------------------------------------------------------------
  // The executor object

  /** `WorkflowExecutor`: its one field records the steps of the latest run. */
  class WorkflowExecutor {
    var executionSteps: seq<ExecutionStep>

    constructor()
      ensures executionSteps == []
    {
      executionSteps := [];
    }

    /**
      `execute_workflow`: validate, compute the execution order, then run the steps,
      appending each to `executionSteps`. The order used is returned as a ghost value.
    */
    method ExecuteWorkflow(
      components: seq<ComponentConfig>, connections: seq<WorkflowConnection>,
      userQuery: string, workflowId: Option<int>, handler: Handler)
      returns (result: ExecutionResult, ghost order: seq<string>)
      modifies this
      ensures forall v :: v in order ==> v in Ids(components)
      ensures ValidateWorkflow(components, connections) ==>
        IsExecutionOrder(components, connections, order) && order == KahnOrder(components, connections)
      ensures result == Execute(components, connections, order, userQuery, workflowId, handler)
      ensures executionSteps == result.steps
    {
      executionSteps := [];
      if !ValidateWorkflow(components, connections) {
        order := [];
        result := Failed(InvalidMessage, executionSteps, VStr("Workflow execution failed: " + InvalidMessage));
        return;
      }
      result, order := RunValidWorkflow(components, connections, userQuery, workflowId, handler);
    }

    /** The part of `execute_workflow` after validation passed: order the components, then run them. */
    method RunValidWorkflow(
      components: seq<ComponentConfig>, connections: seq<WorkflowConnection>,
      userQuery: string, workflowId: Option<int>, handler: Handler)
      returns (result: ExecutionResult, ghost order: seq<string>)
      requires ValidateWorkflow(components, connections) && executionSteps == []
      modifies this
      ensures IsExecutionOrder(components, connections, order) && order == KahnOrder(components, connections)
      ensures result == Execute(components, connections, order, userQuery, workflowId, handler)
      ensures executionSteps == result.steps
    {
      var executionOrder := GetExecutionOrder(components, connections);
      order := executionOrder;
      assert IsExecutionOrder(components, connections, order);
      var context := RunOrder(components, executionOrder, InitialContext(userQuery, workflowId), handler);
      result := Completed(Get(context, "response", VStr("No response generated")), executionSteps, |executionSteps|);
    }

    /** The `for component_id in execution_order` loop, appending one step per component run. */
    method RunOrder(components: seq<ComponentConfig>, order: seq<string>, data: Data, handler: Handler)
      returns (context: Data)
      requires forall v :: v in order ==> v in Ids(components)
      modifies this
      ensures executionSteps == old(executionSteps) + RunSteps(components, order, data, handler).steps
      ensures context == RunSteps(components, order, data, handler).context
    {
      context := data;
      ghost var whole := RunSteps(components, order, data, handler);
      assert order[0..] == order;
      var i := 0;
      while i < |order|
        invariant 0 <= i <= |order|
        invariant old(executionSteps) + whole.steps == executionSteps + RunSteps(components, order[i..], context, handler).steps
        invariant whole.context == RunSteps(components, order[i..], context, handler).context
      {
        ghost var before := executionSteps;
        RunFrom(components, order, i, context, handler);
        var step, stepResult := RunComponent(components, order[i], context, handler);
        AppendStep(before, step, RunSteps(components, order[i + 1..], context + stepResult, handler).steps);
        context := context + stepResult;
        if !Truthy(Get(stepResult, "success", VBool(true))) {
          break;
        }
        i := i + 1;
      }
    }

    /** One pass of the loop body: run the component with the current data and record the step. */
    method RunComponent(components: seq<ComponentConfig>, id: string, context: Data, handler: Handler)
      returns (step: ExecutionStep, stepResult: Data)
      requires id in Ids(components)
      modifies this
      ensures var component := components[FirstIndexOfId(components, id)];
        && stepResult == handler(component, context)
        && step == ExecutionStep(id, component.ctype, context, stepResult, Get(stepResult, "success", VBool(true)))
      ensures executionSteps == old(executionSteps) + [step]
    {
      var component := components[FirstIndexOfId(components, id)];
      stepResult := handler(component, context);
      step := ExecutionStep(id, component.ctype, context, stepResult, Get(stepResult, "success", VBool(true)));
      executionSteps := executionSteps + [step];
    }
  }
}
