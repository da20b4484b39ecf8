/**
  The stored-workflow endpoints (backend/app/routers/workflows.py): creating a workflow
  computes its validity flag, a partial update merges the fields that were sent and
  recomputes the flag only when the graph changes, deletion removes the record, and
  execution is refused for a workflow flagged invalid and otherwise leaves an execution
  record whose status follows the executor's success flag. The database is a map from id
  to record plus the list of execution records.
*/
module WorkflowsRouter {
  import opened Wrappers
  import opened Schema
  import opened ExecutionOrder
  import opened Steps
  import opened Runs
  import opened Executor

  /** The 404 every endpoint raises for an unknown id. */
  const NotFound := HttpError(404, "Workflow not found")

  /** The 400 raised when executing a workflow whose stored flag is false. */
  const NotValid := HttpError(400, "Workflow is not valid")

  /** A stored workflow whose flag agrees with its graph. */
  predicate FlagMatchesGraph(w: Workflow) {
    w.isValid == ValidateWorkflow(w.components, w.connections)
  }

  /** The record `create_workflow` stores under a new id. */
  function CreatedWorkflow(id: int, req: WorkflowCreate): (w: Workflow)
    ensures w.id == id && w.name == req.name && w.description == req.description
    ensures w.components == req.components && w.connections == req.connections
    ensures FlagMatchesGraph(w)
    ensures w.isValid <==>
      (HasType(req.components, UserQuery) && HasType(req.components, Output) && EndpointsKnown(req.components, req.connections))
  {
    Workflow(id, req.name, req.description, req.components, req.connections, ValidateWorkflow(req.components, req.connections))
  }

  /**
    `update_workflow` on a found record: every field that was sent is assigned, the others
    keep their stored values, and the flag is recomputed from the new graph exactly when
    components or connections were sent (the stored one standing in for whichever is missing).
  */
  function ApplyUpdate(stored: Workflow, upd: WorkflowUpdate): (w: Workflow)
    ensures w.id == stored.id
    ensures upd.name.None? ==> w.name == stored.name
    ensures upd.name.Some? ==> w.name == upd.name.value
    ensures upd.description.None? ==> w.description == stored.description
    ensures upd.description.Some? ==> w.description == upd.description.value
    ensures upd.components.None? ==> w.components == stored.components
    ensures upd.components.Some? ==> w.components == upd.components.value
    ensures upd.connections.None? ==> w.connections == stored.connections
    ensures upd.connections.Some? ==> w.connections == upd.connections.value
    ensures upd.components.None? && upd.connections.None? ==> w.isValid == stored.isValid
    ensures upd.components.Some? || upd.connections.Some? ==> FlagMatchesGraph(w)
    ensures FlagMatchesGraph(stored) ==> FlagMatchesGraph(w)
  {
    var components := upd.components.GetOr(stored.components);
    var connections := upd.connections.GetOr(stored.connections);
    Workflow(
      stored.id, upd.name.GetOr(stored.name), upd.description.GetOr(stored.description),
      components, connections,
      if upd.components.Some? || upd.connections.Some? then ValidateWorkflow(components, connections) else stored.isValid)
  }

  /** A row of the executions table (timestamps are not modelled). */
  datatype ExecutionRecord = ExecutionRecord(
    id: int, workflowId: int, inputQuery: string, status: string,
    outputResponse: Option<Value>, executionSteps: seq<ExecutionStep>, errorMessage: Option<string>)

  /** The record as first committed, before the executor runs. */
  function RunningRecord(id: int, workflowId: int, inputQuery: string): (rec: ExecutionRecord)
    ensures rec.status == "running" && rec.errorMessage.None? && rec.outputResponse.None? && rec.executionSteps == []
  {
    ExecutionRecord(id, workflowId, inputQuery, "running", None, [], None)
  }

  /**
    The record after the executor returned: "completed" exactly when the result reports
    success; the error message is written only when it does not.
  */
  function FinishRecord(rec: ExecutionRecord, result: ExecutionResult): (r: ExecutionRecord)
    ensures r.id == rec.id && r.workflowId == rec.workflowId && r.inputQuery == rec.inputQuery
    ensures r.status == "completed" <==> result.Completed?
    ensures r.status == "failed" <==> result.Failed?
    ensures result.Failed? ==> r.errorMessage == Some(result.error)
    ensures result.Completed? ==> r.errorMessage == rec.errorMessage
    ensures r.outputResponse == Some(result.finalResponse) && r.executionSteps == result.steps
  {
    var status := if result.Completed? then "completed" else "failed";
    var withResult := rec.(status := status, outputResponse := Some(result.finalResponse), executionSteps := result.steps);
    if result.Failed? then withResult.(errorMessage := Some(result.error)) else withResult
  }

  /** The workflow and execution tables, and the executor the endpoints share. */
  class WorkflowStore {
    var workflows: map<int, Workflow>
    var nextId: int
    var executions: seq<ExecutionRecord>
    const executor: WorkflowExecutor

    /** Ids are below `nextId`, each record carries its key, and every flag agrees with its graph. */
    ghost predicate Valid()
      reads this
    {
      && 1 <= nextId
      && (forall id :: id in workflows ==> id < nextId && workflows[id].id == id)
      && (forall id :: id in workflows ==> FlagMatchesGraph(workflows[id]))
    }

    constructor(executor: WorkflowExecutor)
      ensures Valid() && workflows == map[] && executions == [] && this.executor == executor
    {
      workflows := map[];
      nextId := 1;
      executions := [];
      this.executor := executor;
    }

    /** `create_workflow`: stores the request under a fresh id with its computed flag. */
    method CreateWorkflow(req: WorkflowCreate) returns (w: Workflow)
      requires Valid()
      modifies this
      ensures Valid()
      ensures w == CreatedWorkflow(old(nextId), req) && w.id !in old(workflows)
      ensures workflows == old(workflows)[w.id := w] && executions == old(executions)
    {
      var isValid := ValidateWorkflow(req.components, req.connections);
      w := Workflow(nextId, req.name, req.description, req.components, req.connections, isValid);
      workflows := workflows[nextId := w];
      nextId := nextId + 1;
    }

    /** `update_workflow`: a 404 for an unknown id; otherwise the sent fields are merged in. */
    method UpdateWorkflow(id: int, upd: WorkflowUpdate) returns (r: Result<Workflow, HttpError>)
      requires Valid()
      modifies this
      ensures Valid()
      ensures id !in old(workflows) ==> r == Failure(NotFound) && workflows == old(workflows)
      ensures id in old(workflows) ==> r == Success(ApplyUpdate(old(workflows)[id], upd)) && workflows == old(workflows)[id := r.value]
      ensures nextId == old(nextId) && executions == old(executions)
    {
      if id !in workflows {
        return Failure(NotFound);
      }
      var w := workflows[id];
      var components := w.components;
      var connections := w.connections;
      if upd.components.Some? {
        components := upd.components.value;
      }
      if upd.connections.Some? {
        connections := upd.connections.value;
      }
      if upd.name.Some? {
        w := w.(name := upd.name.value);
      }
      if upd.description.Some? {
        w := w.(description := upd.description.value);
      }
      if upd.components.Some? || upd.connections.Some? {
        w := w.(components := components, connections := connections, isValid := ValidateWorkflow(components, connections));
      }
      assert w == ApplyUpdate(workflows[id], upd);
      workflows := workflows[id := w];
      return Success(w);
    }

    /** `delete_workflow`: a 404 for an unknown id; otherwise the record is removed. */
    method DeleteWorkflow(id: int) returns (r: Result<string, HttpError>)
      requires Valid()
      modifies this
      ensures Valid()
      ensures id !in old(workflows) ==> r == Failure(NotFound) && workflows == old(workflows)
      ensures id in old(workflows) ==> r == Success("Workflow deleted successfully") && workflows == old(workflows) - {id}
      ensures nextId == old(nextId) && executions == old(executions)
    {
      if id !in workflows {
        return Failure(NotFound);
      }
      workflows := workflows - {id};
      return Success("Workflow deleted successfully");
    }

    /**
      `execute_workflow`: a 404 for an unknown id, a 400 for a workflow flagged invalid (no
      execution record is written in either case); otherwise a "running" record is added,
      the executor runs the stored graph, and the record is finished from its result. The
      order the executor used is returned as a ghost value.
    */
    method ExecuteStored(id: int, inputQuery: string, handler: Handler) returns (r: Result<ExecutionRecord, HttpError>, ghost order: seq<string>)
      requires Valid()
      modifies this, executor
      ensures Valid() && workflows == old(workflows) && nextId == old(nextId)
      ensures id !in old(workflows) ==> r == Failure(NotFound) && executions == old(executions)
      ensures id in old(workflows) && !old(workflows)[id].isValid ==> r == Failure(NotValid) && executions == old(executions)
      ensures id in old(workflows) && old(workflows)[id].isValid ==>
        && (forall v :: v in order ==> v in Ids(old(workflows)[id].components))
        && IsExecutionOrder(old(workflows)[id].components, old(workflows)[id].connections, order)
        && order == KahnOrder(old(workflows)[id].components, old(workflows)[id].connections)
        && r == Success(FinishRecord(RunningRecord(|old(executions)| + 1, id, inputQuery),
             Execute(old(workflows)[id].components, old(workflows)[id].connections, order, inputQuery, None, handler)))
        && executions == old(executions) + [r.value]
        && r.value.status == "completed"
    {
      order := [];
      if id !in workflows {
        return Failure(NotFound), order;
      }
      var w := workflows[id];
      if !w.isValid {
        return Failure(NotValid), order;
      }
      // The "running" row is committed before the executor starts and overwritten once it
      // returns; nothing reads the table in between, so the row is written here once.
      var running := RunningRecord(|executions| + 1, id, inputQuery);
      var finished;
      finished, order := RunStored(executor, w, running, inputQuery, handler);
      executions := executions + [finished];
      return Success(finished), order;
    }
  }

  /** The `try` block of `execute_workflow`: run the stored graph and finish the record from the result. */
  method RunStored(executor: WorkflowExecutor, w: Workflow, running: ExecutionRecord, inputQuery: string, handler: Handler)
    returns (finished: ExecutionRecord, ghost order: seq<string>)
    requires FlagMatchesGraph(w) && w.isValid && running == RunningRecord(running.id, w.id, inputQuery)
    modifies executor
    ensures forall v :: v in order ==> v in Ids(w.components)
    ensures IsExecutionOrder(w.components, w.connections, order) && order == KahnOrder(w.components, w.connections)
    ensures finished == FinishRecord(running, Execute(w.components, w.connections, order, inputQuery, None, handler))
    ensures finished.status == "completed"
  {
    var result;
    result, order := executor.ExecuteWorkflow(w.components, w.connections, inputQuery, None, handler);
    StoredExecutionCompletes(w, order, running.id, inputQuery, handler);
    finished := FinishRecord(running, result);
  }

  /**
    Because the stored flag always agrees with the graph, a workflow that passes the 400
    guard is valid for the executor too, so its execution record always ends "completed".
  */
  lemma StoredExecutionCompletes(w: Workflow, order: seq<string>, recordId: int, inputQuery: string, handler: Handler)
    requires FlagMatchesGraph(w) && w.isValid
    requires forall v :: v in order ==> v in Ids(w.components)
    ensures var rec := FinishRecord(RunningRecord(recordId, w.id, inputQuery),
        Execute(w.components, w.connections, order, inputQuery, None, handler));
      rec.status == "completed" && rec.errorMessage.None?
  {
  }
}
