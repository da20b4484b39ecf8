# ai-planet workflow engine and editor — a Dafny model

ai-planet lets a user draw a workflow on a canvas and then chat with it. A workflow has a
`user_query` component, optional `knowledge_base`, `llm_engine` and `web_search` components,
and an `output` component, joined by connections. This project models the deterministic
core of the back end and the editor:

- the graph records and the validity rule;
- Kahn's topological ordering and the step loop that runs the components in that order;
- the component catalog and the structure-validation endpoint;
- the word chunker and the metadata for indexing chunks;
- the LLM prompt builder;
- the stored-workflow endpoints (create, partial update, delete, execute);
- on the front end: the workflow builder and its configuration panel, and the workflows,
  documents, workflow-documents and chat pages.

Each core file has its own module:

| module | file | models |
|---|---|---|
| `Wrappers` | wrappers.dfy | `Option`, `Result`, and the HTTP error of FastAPI |
| `Text` | text.dfy | Python `str.split()`, `" ".join`, substring search, ASCII lowercasing, decimal rendering, JavaScript `parseInt`, an order-keeping filter |
| `Schema` | schema.dfy | the records of `backend/app/schemas/workflow.py` and the JSON values the component maps hold |
| `ExecutionOrder` | execution_order.dfy | `_get_execution_order` as an imperative Kahn's algorithm |
| `Steps` | steps.dfy | `_validate_workflow`, provider detection, and the component handlers |
| `Runs` | runs.dfy | the run loop of `execute_workflow` as a function |
| `Reports` | reports.dfy | what `execute_workflow` reports |
| `Executor` | executor.dfy | the `WorkflowExecutor` class with its `execution_steps` field |
| `Catalog` | catalog.dfy | `backend/app/routers/components.py` |
| `DocumentProcessor` | document_processor.dfy | `process_file`, `chunk_text`, `index_document` |
| `LlmService` | llm_prompt.dfy | `_build_prompt` |
| `WorkflowsRouter` | workflow_store.dfy | `backend/app/routers/workflows.py`, over a store class that holds a map from id to record |
| `WorkflowBuilder` | workflow_builder.dfy | `WorkflowBuilder.jsx` |
| `ConfigPanel` | config_panel.dfy | `ComponentConfigPanel.jsx` |
| `Uploads` | uploads.dfy | what the two upload pages share |
| `WorkflowsPage` | workflows_page.dfy | `Workflows.jsx` |
| `DocumentsPage` | documents_page.dfy | `Documents.jsx` |
| `WorkflowDocumentsPanel` | workflow_documents.dfy | `WorkflowDocuments.jsx` |
| `ChatPage` | chat_page.dfy | `Chat.jsx` |

How the code is modelled:

- **Code that changes state step by step becomes methods.** Kahn's loop, the executor's step
  loop, the chunking loop, the index loop and the endpoints that write the store are methods.
  Each one is proved equal to a specification function or specification predicate, and the
  lemmas about that function carry the source's promises.
- **React components become classes.** Each state cell is a field. Each handler is a method
  that states the cell's new value and that every other cell is unchanged. An `async`
  handler is one method when nothing can be observed while it waits. Otherwise it is split
  into the synchronous start and the part after the request settles, so that a state such as
  `uploading` can be seen in between.
- **Foreign code becomes a parameter.** The LLM, the vector store, the back end as the pages
  see it, and the clock are function values or reply values passed in. Examples are
  `Handler`, `Services`, `Validator`, `reply` and `stamp`.

## Model

| member | source | states |
|---|---|---|
| `Schema.ParseComponentType` | backend/app/schemas/workflow.py:6-11 | a string parses to a component type only if it is that type's value string |
| `Schema.ComponentTypesEnumerated` | backend/app/schemas/workflow.py:6-11 | there are exactly five distinct component types, and each one's value string parses back to it |
| `Steps.Types` | backend/app/services/workflow_executor.py:67 | the list of types follows the component list position by position |
| `Steps.ConnectionsKnown` | backend/app/services/workflow_executor.py:74-78 | true exactly when every connection's source and target are component ids |
| `Steps.ValidateWorkflow` | backend/app/services/workflow_executor.py:65-80 | a graph is valid iff it has a user_query component, an output component, and no connection with an unknown endpoint |
| `Steps.DetectProvider` | backend/app/services/workflow_executor.py:176-188 | on the raw configured values: a truthy provider is kept as it is; a falsy provider with a falsy model gives "gemini"; a truthy model that is not a string raises "'<type>' object has no attribute 'lower'"; a string model gives "gemini" for gemini/bard, else "openai" for gpt/davinci/curie, else "gemini" |
| `Steps.ToLlmProvider` | backend/app/services/workflow_executor.py:190 | `LLMProvider(v)` accepts exactly the strings "openai" and "gemini", and otherwise raises "<repr of v> is not a valid LLMProvider" |
| `Steps.PyStrRepr` | backend/app/services/workflow_executor.py:190 | Python's `repr` of a string: double quotes when it holds a single quote and no double quote, single quotes otherwise |
| `Steps.DetectedProviderIsSupported` | backend/app/services/workflow_executor.py:179-190 | with no truthy provider and a model that is a string or falsy, detection names a provider `LLMProvider` accepts, and picks "openai" exactly in the gpt/davinci/curie case |
| `Steps.ConfiguredProviderIsChecked` | backend/app/services/workflow_executor.py:176-190 | a truthy provider bypasses detection; it is accepted iff it is the string "openai" or "gemini", and otherwise the step's error is the `ValueError` text |
| `Steps.UserQueryStep` | backend/app/services/workflow_executor.py:127-133 | the user_query step succeeds, passes the query through, and writes no "response" |
| `Steps.OutputStep` | backend/app/services/workflow_executor.py:218-226 | the output step succeeds and copies "response" (default "No response available") into "final_response" |
| `Steps.KnowledgeBaseStep` | backend/app/services/workflow_executor.py:135-166 | the knowledge-base step reports success or failure and never writes "response" |
| `Steps.LlmErrorStep` | backend/app/services/workflow_executor.py:211-216 | the except branch: a failed step whose "error" is "LLM engine component error: " and whose "response" is "Error: ", each followed by the exception text |
| `Steps.LlmRequestOf` | backend/app/services/workflow_executor.py:171-200 | the request reaches the model exactly when detection and `LLMProvider` both succeed; it names a supported provider, passes the configured model through unchanged, and passes the context only when it is truthy |
| `Steps.LlmEngineStep` | backend/app/services/workflow_executor.py:168-216 | an exception while preparing the request or raised by the model call gives the except-branch step with its text; otherwise the step's success and response are the reply's |
| `Steps.ExecuteComponent` | backend/app/services/workflow_executor.py:106-125 | dispatch on the type: user_query and output succeed with their outputs; web_search fails with "Unknown component type: web_search"; only the LLM step can write "response" |
| `Steps.DispatchContracts` | backend/app/services/workflow_executor.py:106-125 | the dispatching handler rejects web_search and is the only component that responds |
| `ExecutionOrder.Ids` | backend/app/services/workflow_executor.py:74 | one id per component |
| `ExecutionOrder.DistinctIds` | backend/app/services/workflow_executor.py:84-85 | the keys of the `graph`/`in_degree` dicts: the component ids without repeats |
| `ExecutionOrder.RootsAmong` | backend/app/services/workflow_executor.py:92 | the starting queue holds exactly the ids with in-degree zero, in dict order |
| `ExecutionOrder.BuildGraph` | backend/app/services/workflow_executor.py:84-89 | the built adjacency lists and in-degree counts equal the connection targets and counts of every component id |
| `ExecutionOrder.ReleaseSuccessors` | backend/app/services/workflow_executor.py:99-102 | each neighbour's count drops by its multiplicity, and exactly the neighbours that reach zero are queued, once each; the new counts and the appended suffix are those of `Release`, so the suffix lists them in `neighbors` order, each at the moment its count reaches zero |
| `ExecutionOrder.ReleaseMeaning` | backend/app/services/workflow_executor.py:99-102 | what `Release` computes: each count drops by the neighbour's multiplicity, and the queued ids are, without repeats, exactly those whose positive count reaches zero |
| `ExecutionOrder.DrainQueue` | backend/app/services/workflow_executor.py:95-102 | the while loop keeps its queue invariant, lists each node only once its predecessors are listed, and its result is `KahnFrom` of the initial tables and queue: first-in first-out, with the number of distinct ids as enough fuel |
| `ExecutionOrder.GetExecutionOrder` | backend/app/services/workflow_executor.py:82-104 | the order has no repeats, holds only component ids, puts every listed connection's source before its target, starts with exactly the zero-in-degree ids, omits only nodes that are blocked, and equals `KahnOrder`, the FIFO Kahn order over the tables `Adjacency` and `InDegrees` seeded by `Roots` |
| `ExecutionOrder.DiamondIsBreadthFirst` | backend/app/services/workflow_executor.py:95-102 | on the diamond a -> b, a -> c, b -> d, c -> d the queue gives a, b, c, d: the successors of a run in connection order, not depth-first |
| `ExecutionOrder.OmittedAreDownstreamOfCycle` | backend/app/services/workflow_executor.py:92-104 | a component left out of the order lies on a cycle or downstream of one |
| `ExecutionOrder.DownstreamOfCycleOmitted` | backend/app/services/workflow_executor.py:92-104 | conversely, nothing on or downstream of a cycle is listed |
| `ExecutionOrder.AcyclicOrderIsComplete` | backend/app/services/workflow_executor.py:92-104 | for an acyclic graph, the order lists every component id exactly once |
| `Runs.FirstIndexOfId` | backend/app/services/workflow_executor.py:29 | `next(...)` finds the first component with the id |
| `Runs.InitialContext` | backend/app/services/workflow_executor.py:26 | the starting context has no "response" |
| `Runs.RunSteps` | backend/app/services/workflow_executor.py:28-45 | the run records at most one step per listed id, in order, and at least one step when the order is not empty |
| `Runs.RunContinuesOnSuccess` | backend/app/services/workflow_executor.py:44-45 | every step before the last one succeeded |
| `Runs.RunStopsAtFailure` | backend/app/services/workflow_executor.py:44-45 | a run that ends early ends on a failed step; a failed step is the last one |
| `Runs.RunThreadsContext` | backend/app/services/workflow_executor.py:37-42 | each step's input is the previous input merged with the previous output, and the final context is the last input merged with the last output |
| `Runs.RunStepOutput` | backend/app/services/workflow_executor.py:29-39 | each recorded step holds its component's type and the handler's output on that step's input |
| `Runs.NoStepAfterWebSearch` | backend/app/services/workflow_executor.py:44-45 | a web_search step is always the last one recorded |
| `Runs.NoLlmNoResponse` | backend/app/services/workflow_executor.py:42-49 | without an llm_engine component, the context never gains a "response" |
| `Reports.InvalidWorkflowFails` | backend/app/services/workflow_executor.py:20-63 | an invalid workflow fails with no steps and a final response starting "Workflow execution failed: " |
| `Reports.ValidWorkflowCompletes` | backend/app/services/workflow_executor.py:28-55 | a valid workflow always reports success, even when a step failed; the steps follow the order up to and including the first failed one |
| `Reports.NoLlmDefaultResponse` | backend/app/services/workflow_executor.py:49 | a valid workflow without an LLM engine answers "No response generated" |
| `Executor.WorkflowExecutor.constructor` | backend/app/services/workflow_executor.py:9-10 | a new executor holds no steps |
| `Executor.WorkflowExecutor.ExecuteWorkflow` | backend/app/services/workflow_executor.py:12-63 | the result is `Execute` for the order used; for a valid workflow that order is a valid execution order and is exactly `KahnOrder`; `execution_steps` ends equal to the reported steps |
| `Executor.WorkflowExecutor.RunValidWorkflow` | backend/app/services/workflow_executor.py:25-55 | the `try` block for a valid graph: the order is a valid execution order equal to `KahnOrder`, the result is `Execute` over it, and the recorded steps are the reported ones |
| `Executor.WorkflowExecutor.RunOrder` | backend/app/services/workflow_executor.py:28-45 | the loop appends exactly the steps `RunSteps` specifies and leaves the context it specifies |
| `Executor.WorkflowExecutor.RunComponent` | backend/app/services/workflow_executor.py:29-40 | one loop body: look up the component, call the handler, append the step |
| `Catalog.UserQuerySchema` | backend/app/routers/components.py:7-25 | the user_query entry's properties are well formed |
| `Catalog.KnowledgeBaseSchema` | backend/app/routers/components.py:26-58 | numeric defaults lie within their bounds, and choice defaults are among the choices |
| `Catalog.LlmEngineSchema` | backend/app/routers/components.py:59-107 | as above, for the llm_engine entry |
| `Catalog.WebSearchSchema` | backend/app/routers/components.py:108-140 | as above, for the web_search entry |
| `Catalog.OutputSchema` | backend/app/routers/components.py:141-165 | as above, for the output entry |
| `Catalog.CatalogIsConsistent` | backend/app/routers/components.py:6-167 | one entry per component type, each keyed by its own type and well formed; user_query has no inputs and output has no outputs |
| `Catalog.EntriesKeyedByType` | backend/app/routers/components.py:6-167 | every entry's "type" equals its key |
| `Catalog.GetAvailableComponents` | backend/app/routers/components.py:169-171 | the list holds the catalog's values in table order |
| `Catalog.Values` | backend/app/routers/components.py:171 | `dict.values()` keeps the entries' order |
| `Catalog.Lookup` | backend/app/routers/components.py:176-183 | a key is found exactly when some entry has it, and the found definition is that entry's |
| `Catalog.GetComponentDefinition` | backend/app/routers/components.py:174-183 | a failure is the 404 naming the type |
| `Catalog.DefinitionOfEveryType` | backend/app/routers/components.py:174-183 | every component type has a definition, whose type is the one requested |
| `Catalog.MissingErrors` | backend/app/routers/components.py:210-215 | at most one error per required type |
| `Catalog.ValidateWorkflowStructure` | backend/app/routers/components.py:186-225 | the loop that builds the report yields the report that `StructureReportOf` specifies |
| `Catalog.TypesListed` | backend/app/routers/components.py:210-214 | a type is in the type list exactly when some component has it |
| `Catalog.ReportOfParsedWorkflow` | backend/app/routers/components.py:200-215 | `is_valid` is `_validate_workflow`; the counts are the list lengths; the errors are empty when valid, and otherwise hold one message per missing required type, user_query first |
| `Catalog.DanglingConnectionGivesNoErrors` | backend/app/routers/components.py:209-215 | a graph that fails only on a dangling connection is invalid with an empty error list |
| `Catalog.ParseFailureReport` | backend/app/routers/components.py:219-225 | a parse failure reports invalid, zero counts, and exactly one "Validation error: " message |
| `DocumentProcessor.ProcessFile` | backend/app/services/document_processor.py:17-37 | only a supported content type is accepted ("Unsupported file type: ..." otherwise); the counts are the word count and the length of the text |
| `DocumentProcessor.WordCountOfJoinedWords` | backend/app/services/document_processor.py:35 | a text of n space-separated words reports n words |
| `DocumentProcessor.ChunkText` | backend/app/services/document_processor.py:63-75 | the stepped loop gives `Chunks` when overlap < chunk_size, no chunks when overlap > chunk_size, and the `range()` error for step zero |
| `DocumentProcessor.Window` | backend/app/services/document_processor.py:69 | a window holds at most chunk_size words |
| `DocumentProcessor.JoinAll` | backend/app/services/document_processor.py:69-70 | one joined chunk per window |
| `DocumentProcessor.JoinAllAt` | backend/app/services/document_processor.py:69 | chunk k is window k joined with spaces |
| `DocumentProcessor.WindowsNonEmpty` | backend/app/services/document_processor.py:65-68 | there is a window exactly when words remain |
| `DocumentProcessor.WindowsStart` | backend/app/services/document_processor.py:68-69 | window k starts at word i + k·step |
| `DocumentProcessor.WindowsFull` | backend/app/services/document_processor.py:68-73 | every window but the last is full |
| `DocumentProcessor.WindowsReachEnd` | backend/app/services/document_processor.py:72-73 | the last window ends at the last word |
| `DocumentProcessor.WindowsOverlap` | backend/app/services/document_processor.py:68-69 | consecutive windows share exactly size − step words |
| `DocumentProcessor.WindowsCover` | backend/app/services/document_processor.py:68-73 | every word lies in some window |
| `DocumentProcessor.WindowAt` | backend/app/services/document_processor.py:68-69 | window k is the slice at its start |
| `DocumentProcessor.WindowsAreWords` | backend/app/services/document_processor.py:65-69 | windows hold only words |
| `DocumentProcessor.ChunkWords` | backend/app/services/document_processor.py:65-70 | splitting chunk k gives back window k |
| `DocumentProcessor.NoWordsNoChunks` | backend/app/services/document_processor.py:65-68 | a text yields no chunks exactly when it has no words |
| `DocumentProcessor.ChunkIsWindow` | backend/app/services/document_processor.py:68-70 | chunk k holds the words starting at k·(chunk_size − overlap), at most chunk_size of them |
| `DocumentProcessor.ChunkIsFull` | backend/app/services/document_processor.py:68-73 | every chunk but the last holds exactly chunk_size words |
| `DocumentProcessor.LastChunkReachesEnd` | backend/app/services/document_processor.py:72-73 | the last chunk ends with the text's last word |
| `DocumentProcessor.ChunksOverlap` | backend/app/services/document_processor.py:68-70 | consecutive chunks share exactly `overlap` words |
| `DocumentProcessor.EveryWordIsChunked` | backend/app/services/document_processor.py:68-73 | every word of the text lies in some chunk, at the position its start implies |
| `DocumentProcessor.ChunkMetadata` | backend/app/services/document_processor.py:87-92 | the incoming metadata plus document_id, chunk_index and chunk_count, the three overriding keys already present |
| `DocumentProcessor.IndexDocument` | backend/app/services/document_processor.py:77-103 | the chunks use the defaults 500/100; chunk i gets id `doc_{id}_chunk_{i}` and its metadata; the count returned is the number of chunks |
| `DocumentProcessor.BuildMetadatas` | backend/app/services/document_processor.py:86-93 | the loop builds metadata i for each chunk i |
| `DocumentProcessor.BuildIds` | backend/app/services/document_processor.py:86-94 | the loop builds id i for each chunk i |
| `DocumentProcessor.ChunkIdsDistinct` | backend/app/services/document_processor.py:94 | chunk ids of one document never collide |
| `LlmService.PromptParts` | backend/app/services/llm_service.py:70-78 | the base prompt (the custom one when non-empty), a context part iff the context is non-empty, the question, and "\nResponse:" |
| `LlmService.BuildPrompt` | backend/app/services/llm_service.py:68-80 | the appended parts joined with "\n" |
| `LlmService.PromptEndsWithCue` | backend/app/services/llm_service.py:78-80 | the prompt ends with "\nResponse:" |
| `LlmService.PromptContainsQuery` | backend/app/services/llm_service.py:77-80 | the prompt contains the query verbatim |
| `LlmService.PromptStartsWithBase` | backend/app/services/llm_service.py:70-80 | the prompt starts with the base prompt |
| `WorkflowsRouter.CreatedWorkflow` | backend/app/routers/workflows.py:24-35 | the stored record copies the request, and its flag is the validity of its graph |
| `WorkflowsRouter.ApplyUpdate` | backend/app/routers/workflows.py:74-99 | each sent field is assigned and the rest kept; the flag is recomputed iff the graph was sent, with the stored half standing in for the missing one; a flag that matched its graph still does |
| `WorkflowsRouter.RunningRecord` | backend/app/routers/workflows.py:142-146 | a new execution record is "running" with no output, no steps and no error |
| `WorkflowsRouter.FinishRecord` | backend/app/routers/workflows.py:165-169 | status "completed" iff the result succeeded, "failed" otherwise; the error message is set only on failure |
| `WorkflowsRouter.WorkflowStore.constructor` | backend/app/routers/workflows.py:14 | an empty store |
| `WorkflowsRouter.WorkflowStore.CreateWorkflow` | backend/app/routers/workflows.py:16-41 | the record is stored under a fresh id; every flag in the store still matches its graph |
| `WorkflowsRouter.WorkflowStore.UpdateWorkflow` | backend/app/routers/workflows.py:60-104 | an unknown id gives a 404 and changes nothing; otherwise the record becomes `ApplyUpdate` of the stored one |
| `WorkflowsRouter.WorkflowStore.DeleteWorkflow` | backend/app/routers/workflows.py:106-119 | an unknown id gives a 404 and changes nothing; otherwise exactly that record is removed |
| `WorkflowsRouter.WorkflowStore.ExecuteStored` | backend/app/routers/workflows.py:121-174 | a 404 or a 400 is returned before any execution record is written; otherwise exactly one record is added, finished from the executor's result over an order that is a valid execution order equal to `KahnOrder` of the stored graph, and it is "completed" |
| `WorkflowsRouter.RunStored` | backend/app/routers/workflows.py:151-172 | the `try` block: the executor runs the stored graph in an order that is a valid execution order equal to `KahnOrder`, the record is finished from that result, and its status is "completed" |
| `WorkflowsRouter.StoredExecutionCompletes` | backend/app/routers/workflows.py:135-169 | a stored workflow that passes the 400 guard always ends "completed", with no error message |
| `WorkflowBuilder.HandleOr` | frontend/src/pages/WorkflowBuilder.jsx:78-79 | `h \|\| fallback` for an optional handle |
| `WorkflowBuilder.NodeToWire` | frontend/src/pages/WorkflowBuilder.jsx:66-72 | a node's id, type, label and position, and its config or `{}` |
| `WorkflowBuilder.EdgeToWire` | frontend/src/pages/WorkflowBuilder.jsx:74-80 | an edge's endpoints, with the handles defaulting to "output"/"input" |
| `WorkflowBuilder.SerializeNodes` | frontend/src/pages/WorkflowBuilder.jsx:66-72 | nodes map to components one to one, in order |
| `WorkflowBuilder.SerializeEdges` | frontend/src/pages/WorkflowBuilder.jsx:74-80 | edges map to connections one to one, in order |
| `WorkflowBuilder.SerializedHandlesPresent` | frontend/src/pages/WorkflowBuilder.jsx:78-79 | a serialised connection always carries both handles |
| `WorkflowBuilder.ParseWireComponent` | backend/app/routers/components.py:197 | a posted component parses exactly when its type is a known one, keeping its id and data |
| `WorkflowBuilder.ParseWireComponents` | backend/app/routers/components.py:197 | the list parses exactly when every element does, one to one |
| `WorkflowBuilder.EditorValidity` | frontend/src/pages/WorkflowBuilder.jsx:59-92 | an empty canvas is invalid without a request; a non-empty canvas is valid iff the validator replies `is_valid` true (a thrown request counts as invalid) |
| `WorkflowBuilder.EditorAgreesWithBackend` | frontend/src/pages/WorkflowBuilder.jsx:59-92 | against the real endpoint, the editor's flag is `_validate_workflow` of the parsed, serialised canvas |
| `WorkflowBuilder.ParsedNodesKeepIds` | frontend/src/pages/WorkflowBuilder.jsx:66-72 | the back end sees each node's id and type, in order |
| `WorkflowBuilder.FindComponent` | frontend/src/pages/WorkflowBuilder.jsx:109 | `components.find`: nothing iff no entry has the type; otherwise the first such entry |
| `WorkflowBuilder.DroppedNode` | frontend/src/pages/WorkflowBuilder.jsx:119-133 | the new node's id is type-stamp, its renderer is 'workflowNode', it has an empty config, and it takes the catalog entry's type (sent as the wire type), label, icon, colour, ports and schema |
| `WorkflowBuilder.ReplaceConfig` | frontend/src/pages/WorkflowBuilder.jsx:145-158 | only the nodes with the id get the new config; the order and every other node are unchanged |
| `WorkflowBuilder.ReplaceConfigUnknownId` | frontend/src/pages/WorkflowBuilder.jsx:145-158 | an unknown id changes nothing |
| `WorkflowBuilder.ReplaceConfigKeepsIds` | frontend/src/pages/WorkflowBuilder.jsx:145-158 | node ids are unchanged |
| `WorkflowBuilder.TestAlert` | frontend/src/pages/WorkflowBuilder.jsx:208-215 | the "coming soon" alert iff the workflow is valid |
| `WorkflowBuilder.WorkflowBuilderPage.constructor` | frontend/src/pages/WorkflowBuilder.jsx:26-37 | the initial state cells |
| `WorkflowBuilder.WorkflowBuilderPage.FetchComponents` | frontend/src/pages/WorkflowBuilder.jsx:47-57 | a fetched catalog replaces the old one; a failure keeps it; every other state cell is unchanged |
| `WorkflowBuilder.WorkflowBuilderPage.SetEdges` | frontend/src/pages/WorkflowBuilder.jsx:94-97 | the canvas library's new edge list replaces the old one; every other state cell is unchanged |
| `WorkflowBuilder.WorkflowBuilderPage.ValidateWorkflow` | frontend/src/pages/WorkflowBuilder.jsx:59-92 | the flag becomes `EditorValidity` of the canvas; every other state cell is unchanged |
| `WorkflowBuilder.WorkflowBuilderPage.OnDrop` | frontend/src/pages/WorkflowBuilder.jsx:104-138 | an unknown type adds nothing; a known one appends exactly one node at the mouse position minus the canvas offset; every other state cell is unchanged |
| `WorkflowBuilder.WorkflowBuilderPage.OnNodeClick` | frontend/src/pages/WorkflowBuilder.jsx:140-143 | the node is selected and the panel opens; every other state cell is unchanged |
| `WorkflowBuilder.WorkflowBuilderPage.HandleNodeConfigUpdate` | frontend/src/pages/WorkflowBuilder.jsx:144-159 | the nodes become `ReplaceConfig` of the old ones; every other state cell is unchanged |
| `WorkflowBuilder.WorkflowBuilderPage.HandleCloseConfigPanel` | frontend/src/pages/WorkflowBuilder.jsx:161-164 | the panel closes and the selection is cleared; every other state cell is unchanged |
| `WorkflowBuilder.WorkflowBuilderPage.PressSave` | frontend/src/pages/WorkflowBuilder.jsx:225-226 | the save form opens only while the workflow is valid; every other state cell is unchanged |
| `WorkflowBuilder.WorkflowBuilderPage.PressTest` | frontend/src/pages/WorkflowBuilder.jsx:208-239 | Test does nothing while invalid, and shows the "coming soon" alert otherwise |
| `WorkflowBuilder.WorkflowBuilderPage.HandleSaveWorkflow` | frontend/src/pages/WorkflowBuilder.jsx:166-206 | a blank name only alerts; otherwise the serialised canvas is posted, and a success records the id and clears the form, while a failure alerts and keeps it; every other state cell is unchanged |
| `ConfigPanel.CurrentValue` | frontend/src/components/workflow/ComponentConfigPanel.jsx:20 | the stored value unless it is null or missing, then the default |
| `ConfigPanel.FalsyValueIsKept` | frontend/src/components/workflow/ComponentConfigPanel.jsx:20 | a stored false, 0 or "" is shown as is |
| `ConfigPanel.WidgetFor` | frontend/src/components/workflow/ComponentConfigPanel.jsx:22-96 | the widget chosen by the field's kind: choice, text, integer, number, checkbox, or text for any other kind |
| `ConfigPanel.Capitalize` | frontend/src/components/workflow/ComponentConfigPanel.jsx:136 | uppercases the first character only |
| `ConfigPanel.FieldLabel` | frontend/src/components/workflow/ComponentConfigPanel.jsx:136 | the title, or else the capitalised key |
| `ConfigPanel.ChangedValue` | frontend/src/components/workflow/ComponentConfigPanel.jsx:22-96 | text widgets store the text, the integer box stores `parseInt` of it (NaN as null), and the checkbox stores `checked` |
| `ConfigPanel.IntegerBoxIgnoresBounds` | frontend/src/components/workflow/ComponentConfigPanel.jsx:49-59 | any integer typed is stored as is, whatever the min/max |
| `ConfigPanel.MergeConfig` | frontend/src/components/workflow/ComponentConfigPanel.jsx:14 | exactly one key is set; every other key is kept |
| `ConfigPanel.RenderFields` | frontend/src/components/workflow/ComponentConfigPanel.jsx:131-143 | one field per schema property, in schema order, with its label, widget and shown value |
| `ConfigPanel.Render` | frontend/src/components/workflow/ComponentConfigPanel.jsx:131-150 | no node renders nothing; no schema renders no fields; a schema renders exactly one field per property, in order, as `RenderFields` states |
| `ConfigPanel.InitialConfig` | frontend/src/components/workflow/ComponentConfigPanel.jsx:5-8 | the node's config, or `{}` |
| `ConfigPanel.ConfigPanelState.constructor` | frontend/src/components/workflow/ComponentConfigPanel.jsx:5 | the panel starts from the node's config |
| `ConfigPanel.ConfigPanelState.NodeChanged` | frontend/src/components/workflow/ComponentConfigPanel.jsx:7-9 | a new node resets the local config |
| `ConfigPanel.ConfigPanelState.HandleConfigChange` | frontend/src/components/workflow/ComponentConfigPanel.jsx:13-17 | the local config is merged, and the same new map goes to `onUpdate` with the node id |
| `ConfigPanel.PanelUpdateReachesEditor` | frontend/src/components/workflow/ComponentConfigPanel.jsx:16 | after the editor applies the update, the node serialises with exactly the new config |
| `Uploads.FirstFile` | frontend/src/pages/Documents.jsx:42-43 | the first file, or nothing for an empty selection |
| `Uploads.DragActiveAfter` | frontend/src/pages/Documents.jsx:82-90 | enter/over switch the highlight on, leave switches it off, any other event keeps it |
| `WorkflowsPage.FilteredWorkflows` | frontend/src/pages/Workflows.jsx:56-65 | only workflows that match both the search and the status filter are shown |
| `WorkflowsPage.FilteredIsOrderedSublist` | frontend/src/pages/Workflows.jsx:56-65 | the shown list is an order-preserving sublist |
| `WorkflowsPage.FilteredMembership` | frontend/src/pages/Workflows.jsx:57-64 | a workflow is shown iff it is listed, its name or description contains the term case-insensitively, and it passes the status filter |
| `WorkflowsPage.EmptySearchMatches` | frontend/src/pages/Workflows.jsx:57-58 | the empty term matches everything |
| `WorkflowsPage.InitialFilterShowsAll` | frontend/src/pages/Workflows.jsx:57-62 | with an empty search and "all", every workflow is shown |
| `WorkflowsPage.UnknownFilterShowsNone` | frontend/src/pages/Workflows.jsx:60-62 | a filter value other than all/valid/invalid shows none |
| `Text.WithoutKey` | frontend/src/pages/Workflows.jsx:49 | `filter(x => x.id !== id)`, shared with Documents.jsx:74: no remaining entry has the id |
| `Text.WithoutKeyRemovesExactly` | frontend/src/pages/Documents.jsx:74 | exactly the entries with the id are dropped, the rest kept in order |
| `Text.WithoutAbsentKey` | frontend/src/pages/Workflows.jsx:49 | removing an absent id changes nothing |
| `WorkflowsPage.WorkflowsPageState.constructor` | frontend/src/pages/Workflows.jsx:24-27 | the initial state cells |
| `WorkflowsPage.WorkflowsPageState.FetchWorkflows` | frontend/src/pages/Workflows.jsx:33-42 | a reply replaces the list, a failure keeps it; loading ends |
| `WorkflowsPage.WorkflowsPageState.SetSearchTerm` | frontend/src/pages/Workflows.jsx:101 | only the search term changes |
| `WorkflowsPage.WorkflowsPageState.SetFilterStatus` | frontend/src/pages/Workflows.jsx:111 | only the status filter changes |
| `WorkflowsPage.WorkflowsPageState.DeleteWorkflow` | frontend/src/pages/Workflows.jsx:44-54 | a confirmed, accepted delete drops exactly that id; a cancel changes nothing; a refusal alerts and changes nothing |
| `DocumentsPage.OrElse` | frontend/src/pages/Documents.jsx:58-61 | JavaScript `a \|\| b` on an optional string |
| `DocumentsPage.ErrorText` | frontend/src/pages/Documents.jsx:58-61 | the first non-empty of detail, message and the exception message, else "Unknown error occurred"; never empty |
| `DocumentsPage.FilteredDocuments` | frontend/src/pages/Documents.jsx:110-112 | only documents whose lowercased name contains the lowercased term are shown |
| `DocumentsPage.FilteredDocumentsAreMatches` | frontend/src/pages/Documents.jsx:110-112 | a document is shown iff it is listed and matches; the list keeps its order |
| `DocumentsPage.EmptySearchShowsAll` | frontend/src/pages/Documents.jsx:110-112 | an empty term shows every document |
| `DocumentsPage.DocumentsPageState.constructor` | frontend/src/pages/Documents.jsx:18-22 | the initial state cells |
| `DocumentsPage.DocumentsPageState.FetchDocuments` | frontend/src/pages/Documents.jsx:30-39 | a reply replaces the list, a failure keeps it; loading ends |
| `DocumentsPage.DocumentsPageState.SetSearchTerm` | frontend/src/pages/Documents.jsx:194 | only the search term changes |
| `DocumentsPage.DocumentsPageState.BeginUpload` | frontend/src/pages/Documents.jsx:42-45 | no file: nothing changes; otherwise the page is busy before the request |
| `DocumentsPage.DocumentsPageState.FinishUpload` | frontend/src/pages/Documents.jsx:48-66 | success prepends exactly the returned document with the success toast; failure keeps the list and shows the error toast; busy ends either way |
| `DocumentsPage.DocumentsPageState.HandleFileUpload` | frontend/src/pages/Documents.jsx:41-67 | the whole handler: no file is a no-op; otherwise as in the two phases |
| `DocumentsPage.DocumentsPageState.DeleteDocument` | frontend/src/pages/Documents.jsx:69-80 | a confirmed, accepted delete drops exactly that id and toasts; a refusal toasts the error; a cancel changes nothing |
| `DocumentsPage.DocumentsPageState.HandleDrag` | frontend/src/pages/Documents.jsx:82-90 | the flag follows `DragActiveAfter` |
| `DocumentsPage.DocumentsPageState.HandleDrop` | frontend/src/pages/Documents.jsx:92-100 | the highlight goes off; the first dropped file, if any, is uploaded and the success or the failure toast is returned |
| `WorkflowDocumentsPanel.CallError` | frontend/src/components/workflow/WorkflowDocuments.jsx:57-59 | calling `error(...)` raises a toast iff `error` is the toast function |
| `WorkflowDocumentsPanel.UploadCatchAsWritten` | frontend/src/components/workflow/WorkflowDocuments.jsx:57-59 | the catch block as written always throws |
| `WorkflowDocumentsPanel.UploadFailureShowsNoToast` | frontend/src/components/workflow/WorkflowDocuments.jsx:57-59 | for every caught exception, the block as written ends differently from the intended one: it throws instead of raising the toast |
| `WorkflowDocumentsPanel.UploadCatch` | frontend/src/components/workflow/WorkflowDocuments.jsx:57-59 | the intended catch block raises the failure toast |
| `WorkflowDocumentsPanel.WorkflowDocumentsState.constructor` | frontend/src/components/workflow/WorkflowDocuments.jsx:6-10 | the initial props and state cells |
| `WorkflowDocumentsPanel.WorkflowDocumentsState.FetchWorkflowDocuments` | frontend/src/components/workflow/WorkflowDocuments.jsx:23-35 | a reply replaces the list and, with a listener, is handed to it unchanged; a failure keeps the list; loading ends |
| `WorkflowDocumentsPanel.WorkflowDocumentsState.WorkflowIdChanged` | frontend/src/components/workflow/WorkflowDocuments.jsx:14-21 | without an id the list empties, loading ends, and nothing is fetched; with one the documents are fetched |
| `WorkflowDocumentsPanel.WorkflowDocumentsState.BeginUpload` | frontend/src/components/workflow/WorkflowDocuments.jsx:38-46 | no file: no-op; no workflow id: the save-first toast and nothing else; otherwise busy and the file is sent |
| `WorkflowDocumentsPanel.WorkflowDocumentsState.FinishUpload` | frontend/src/components/workflow/WorkflowDocuments.jsx:47-62 | success prepends the document and the listener gets that same list; failure keeps the list and follows the corrected catch `UploadCatch` of "## Findings" (the failure toast), where the code as written throws instead; busy ends either way |
| `WorkflowDocumentsPanel.WorkflowDocumentsState.HandleDrag` | frontend/src/components/workflow/WorkflowDocuments.jsx:65-73 | the flag follows `DragActiveAfter` |
| `WorkflowDocumentsPanel.WorkflowDocumentsState.HandleDrop` | frontend/src/components/workflow/WorkflowDocuments.jsx:75-82 | the highlight goes off; with no id the save-first toast; otherwise the upload of the first dropped file starts with no toast yet |
| `ChatPage.AssistantMessage` | frontend/src/pages/Chat.jsx:83-101 | one assistant message, id one past its clock reading: the reply's text and metadata, or the apology flagged as an error |
| `ChatPage.ValidWorkflows` | frontend/src/pages/Chat.jsx:47 | only valid workflows are offered |
| `ChatPage.ValidWorkflowsAreExactlyValid` | frontend/src/pages/Chat.jsx:47 | a workflow is offered iff it was fetched and is valid; the order is kept |
| `ChatPage.FindSelected` | frontend/src/pages/Chat.jsx:119 | the first workflow whose id text is the selection (every earlier one differs), or nothing iff none matches |
| `ChatPage.SelectedIdReadsBack` | frontend/src/pages/Chat.jsx:51-75 | `parseInt` of an id's text is that id, so the selected workflow is the one sent |
| `ChatPage.ChatPageState.constructor` | frontend/src/pages/Chat.jsx:18-23 | the query parameter, if any, is the initial selection |
| `ChatPage.ChatPageState.WorkflowParamChanged` | frontend/src/pages/Chat.jsx:30-34 | a non-empty parameter becomes the selection |
| `ChatPage.ChatPageState.FetchWorkflows` | frontend/src/pages/Chat.jsx:44-56 | the valid workflows are kept; with no selection the first becomes selected, and an existing one is kept |
| `ChatPage.ChatPageState.SetInputMessage` | frontend/src/pages/Chat.jsx:316 | only the input changes |
| `ChatPage.ChatPageState.BeginSend` | frontend/src/pages/Chat.jsx:59-77 | a blank input or no selection is a no-op; otherwise the user message is appended, the input cleared, loading set, and the request carries the parsed workflow id and the session |
| `ChatPage.ChatPageState.FinishSend` | frontend/src/pages/Chat.jsx:79-104 | the session is taken from the reply only while none is held; exactly one assistant message is appended; loading ends |
| `ChatPage.ChatPageState.SendMessage` | frontend/src/pages/Chat.jsx:58-105 | the whole send: a no-op, or the request built from the input, selection and session, and exactly the user message (first clock reading) and the assistant message (second clock reading) appended, with the input cleared, loading off, and the reply's session id adopted only when none was held |
| `ChatPage.ChatPageState.ClearChat` | frontend/src/pages/Chat.jsx:114-117 | no messages and no session |
| `ChatPage.ChatPageState.SelectWorkflow` | frontend/src/pages/Chat.jsx:139-142 | a new selection also clears the chat |

Helpers shared by these rows have no row of their own, with their facts as follows:

- **`Text` module.** `Words`/`JoinWith` and `WordsOfJoin` say that splitting joined words gives them back. `JsParseInt` and `ParseIntOfIntToString` say that `parseInt` inverts decimal rendering. The `Filter` lemmas state soundness, completeness and order.
- **`ExecutionOrder` module.** Its internal lemmas are the proof of Kahn's loop. `Release`, `KahnFrom` and `KahnOrder` restate the inner loop, the `while queue` loop and the whole of `_get_execution_order` as recursive functions; the methods are proved equal to them. `KahnFrom` carries a fuel bound on the number of pops. `DrainQueue` shows that the number of distinct component ids never runs out, so the bound cuts nothing off.
- **`Runs` module.** `RunFrom` and `ExecuteValid` unfold one iteration of the run loop and the report of a valid workflow; `RunOrder` and `ValidWorkflowCompletes` use them.

## Left out

- The LLM and web-search calls, the vector store and PDF/text extraction are foreign code. The knowledge-base and LLM handlers take them as function parameters (`Steps.Services`). Their results are opaque.
- File-system access, `mimetypes.guess_type` and the database are not modelled. `ProcessFile` receives the guessed content type and the extracted text.
- `list_workflows`, `get_workflow` and `get_workflow_executions` (backend/app/routers/workflows.py:43-58,187-194) are not modelled. They only read the table.
- The exception branch of the execute endpoint (backend/app/routers/workflows.py:176-185) is not modelled. It catches errors raised while rebuilding pydantic objects from stored JSON, and the stored records here are always well-typed.
- Timestamps (`datetime.now()`, `Date.now()`, `new Date()`), database ids and the id of a dropped node are not modelled. They enter as the parameters `stamp` and `nextId`; each `Date.now()` call in a handler gets a parameter of its own (`sendStamp` and `replyStamp` in `SendMessage`).
- Asynchrony is not modelled. Each request and its reply are one step, or two phases around one await. Racing replies are out of scope: last-response-wins validation, a fetch that lands after the user picked a workflow, and concurrent uploads. So is a `sessionId` captured by the closure before an earlier reply updated it.
- `Executor.WorkflowExecutor.ExecuteWorkflow`: concurrent executions are not modelled. The back end shares one module-level `workflow_executor` (backend/app/services/workflow_executor.py:229), whose `execution_steps` is reset at line 18 and appended to across `await`s at line 33, so two overlapping runs can mix their step lists; the model runs one execution at a time.
- The canvas library's edge editing and node moves are not modelled. Edges are a plain list that `SetEdges` replaces.
- `formatFileSize` and `formatDate` are not modelled (floating point and locale).
- Pydantic's error texts are not modelled. A parse failure carries an opaque message, and `ParseFailureReport` only fixes its "Validation error: " prefix.
- `WorkflowsRouter.WorkflowStore.ExecuteStored`: the execution record is written once, already finished. The source commits a "running" row and then overwrites it. Nothing reads the table in between in this single-threaded model. The order the executor used is a ghost out-parameter.
- `WorkflowsRouter.WorkflowStore.UpdateWorkflow`: an explicit `null` for components or connections is not modelled. It would crash the list comprehension. Only the description may be sent as null.
- `DocumentProcessor.ChunkText`: requires `chunk_size > 0`. A non-positive chunk size is not modelled: depending on the overlap, `range()` raises, yields nothing, or yields empty or truncated chunks. The step-zero error is modelled.
- `DocumentProcessor.IndexDocument`: returns the batch instead of handing it to `chroma_service.add_documents`.
- `ConfigPanel.ChangedValue`: `parseFloat` is a parameter (floating point). A NaN from `parseInt` is stored as null. `parseInt`'s hexadecimal prefix and its stopping at a decimal point are covered only for decimal digit strings.
- `Text.ToLower` and `ConfigPanel.Capitalize` change only ASCII letters. JavaScript's full Unicode case mapping is not modelled, and neither is Python's `str.lower()` where `Text.ToLower` stands for it in provider detection (workflow_executor.py:181-183). For a model name such as "DAVINCİ" (ending in U+0130), Python lowers the last letter to "i" followed by U+0307, so the source finds "davinci" and picks "openai"; the model keeps "İ" and picks "gemini".
- `Steps.PyRepr`: a float or a dict configured as the provider appears in the `ValueError` text as `<float>` or `<dict>`, not as Python's repr. The shortest round-trip float text is not modelled, and a dict's repr follows its insertion order, which the model's maps do not keep. Characters other than the quote, backslash, newline, carriage return and tab are not escaped as Python's repr escapes non-printable ones.
- `Steps.LlmEngineStep`: the model call is the parameter `generate`. An exception it lets escape is any text it returns as a failure (for example, `_build_prompt` joining a custom prompt that is not a string); what that text is is not modelled.
- `WorkflowsPage.FilteredWorkflows`: a workflow's description is a required string here. At Workflows.jsx:58 a null description would throw.
- `Catalog.MissingErrors` and `Steps.ExecuteComponent` render an enum inside an f-string by its value ("user_query"), as Python 3.10 and earlier do. From Python 3.11, `format()` of a `(str, Enum)` member follows `Enum.__str__`, which gives `ComponentType.USER_QUERY`; the model keeps the value.
- `DocumentsPage.ErrorText`: `response.data.detail` is taken to be a string. A list of validation errors would be rendered by JavaScript's `toString`.

## Findings

| source | as written | input that shows it | evidently intended | confidence | as-written member | corrected member |
|---|---|---|---|---|---|---|
| frontend/src/components/workflow/WorkflowDocuments.jsx:57-59 | the `catch (error)` parameter hides the `error` toast function from line 12, so `error('Failed to upload document. Please try again.')` calls the caught exception object, throws a TypeError out of the handler, and no toast appears | any upload whose request fails (network error or non-2xx reply) | an error toast "Failed to upload document. Please try again." | not executed | `WorkflowDocumentsPanel.UploadCatchAsWritten` (with `WorkflowDocumentsPanel.UploadFailureShowsNoToast`) | `WorkflowDocumentsPanel.UploadCatch` (used by `WorkflowDocumentsPanel.WorkflowDocumentsState.FinishUpload`) |
