/**
  The workflow engine's per-component logic (backend/app/services/workflow_executor.py):
  the validity rule, the LLM provider auto-detection, and the step each component type
  performs.

  The knowledge-base search and the language-model call are services outside this model:
  they enter as the two functions of `Services`, and everything the engine does around
  them (reading the configuration, shaping the step result) is modelled.
*/
module Steps {
  import opened Wrappers
  import opened Text
  import opened Schema
  import opened ExecutionOrder

  // ---------------------------------------------------------------------------
  // Validity (`_validate_workflow`)

  /** `[c.type for c in components]`. */
  function Types(components: seq<ComponentConfig>): (r: seq<ComponentType>)
    ensures |r| == |components|
    ensures forall i :: 0 <= i < |r| ==> r[i] == components[i].ctype
  {
    if components == [] then [] else [components[0].ctype] + Types(components[1..])
  }

  /** Some component has type `t`. */
  predicate HasType(components: seq<ComponentConfig>, t: ComponentType) {
    exists i :: 0 <= i < |components| && components[i].ctype == t
  }

  /** The loop over the connections: every source and target is among `ids`. */
  function ConnectionsKnown(ids: seq<string>, connections: seq<WorkflowConnection>): (ok: bool)
    ensures ok <==> forall k :: 0 <= k < |connections| ==> connections[k].source in ids && connections[k].target in ids
  {
    if connections == [] then true
    else if connections[0].source !in ids || connections[0].target !in ids then false
    else
      var rest := ConnectionsKnown(ids, connections[1..]);
      assert forall k :: 1 <= k < |connections| ==> connections[k] == connections[1..][k - 1];
      rest
  }

  /**
    `_validate_workflow`: a user_query and an output component are required, and every
    connection must join two known component ids.
  */
  function ValidateWorkflow(components: seq<ComponentConfig>, connections: seq<WorkflowConnection>): (valid: bool)
    ensures valid <==> HasType(components, UserQuery) && HasType(components, Output) && EndpointsKnown(components, connections)
  {
    var types := Types(components);
    if UserQuery !in types then
      assert !HasType(components, UserQuery) by {
        forall i | 0 <= i < |components| ensures components[i].ctype != UserQuery {
          assert types[i] == components[i].ctype;
        }
      }
      false
    else if Output !in types then
      assert !HasType(components, Output) by {
        forall i | 0 <= i < |components| ensures components[i].ctype != Output {
          assert types[i] == components[i].ctype;
        }
      }
      false
    else
      ConnectionsKnown(Ids(components), connections)
  }

  // ---------------------------------------------------------------------------
  // Python's rendering of values in exception texts

  /** The class name Python reports for a value (`type(v).__name__`). */
  function PyTypeName(v: Value): string {
    match v
    case VNull => "NoneType"
    case VBool(_) => "bool"
    case VInt(_) => "int"
    case VReal(_) => "float"
    case VStr(_) => "str"
    case VList(_) => "list"
    case VObject(_) => "dict"
  }

  /** One character of a string literal quoted with `q`. */
  function EscapeChar(c: char, q: char): string {
    if c == q || c == '\\' then ['\\', c]
    else if c == '\n' then "\\n"
    else if c == '\r' then "\\r"
    else if c == '\t' then "\\t"
    else [c]
  }

  /** The characters of a string literal quoted with `q`. */
  function EscapeFor(s: string, q: char): string {
    if s == [] then [] else EscapeChar(s[0], q) + EscapeFor(s[1..], q)
  }

  /** `repr(s)`: double quotes when `s` holds a single quote and no double quote, single quotes otherwise. */
  function PyStrRepr(s: string): (r: string)
    ensures |r| >= 2 && r[0] == r[|r| - 1]
    ensures r[0] == (if '\'' in s && '"' !in s then '"' else '\'')
  {
    var q := if '\'' in s && '"' !in s then '"' else '\'';
    [q] + EscapeFor(s, q) + [q]
  }

  /** `repr(v)` for the values a configuration can hold (floats and dicts by their type name only). */
  function PyRepr(v: Value): string
    decreases v, 1
  {
    match v
    case VNull => "None"
    case VBool(b) => if b then "True" else "False"
    case VInt(i) => IntToString(i)
    case VStr(s) => PyStrRepr(s)
    case VList(items) => "[" + JoinWith(PyReprs(items, v), ", ") + "]"
    case VReal(_) => "<float>"
    case VObject(_) => "<dict>"
  }

  /** The reprs of a list's items. */
  function PyReprs(items: seq<Value>, whole: Value): (r: seq<string>)
    requires forall k :: 0 <= k < |items| ==> items[k] < whole
    ensures |r| == |items|
    decreases whole, 0, |items|
  {
    if items == [] then [] else [PyRepr(items[0])] + PyReprs(items[1..], whole)
  }

  /** The text of the `AttributeError` that `model.lower()` raises on a value that is not a string. */
  function NoLowerError(model: Value): string {
    "'" + PyTypeName(model) + "' object has no attribute 'lower'"
  }

  /** The text of the `ValueError` that `LLMProvider(v)` raises for a value that is not a member's value. */
  function NotAProviderError(v: Value): string {
    PyRepr(v) + " is not a valid LLMProvider"
  }

  // ---------------------------------------------------------------------------
  // LLM provider detection (lines 176-190)

  /** The model name (lower-cased) names a Gemini model. */
  predicate NamesGemini(model: string) {
    Contains(ToLower(model), "gemini") || Contains(ToLower(model), "bard")
  }

  /** The model name (lower-cased) names an OpenAI model. */
  predicate NamesOpenAi(model: string) {
    Contains(ToLower(model), "gpt") || Contains(ToLower(model), "davinci") || Contains(ToLower(model), "curie")
  }

  /**
    Lines 176-188: the configured `provider` and `model` values as they are (absent entries
    are `VNull`) give the provider name, or the text of the exception `model.lower()` raises.
  */
  function DetectProvider(provider: Value, model: Value): (r: Result<Value, string>)
    ensures Truthy(provider) ==> r == Success(provider)
    ensures !Truthy(provider) && !Truthy(model) ==> r == Success(VStr("gemini"))
    ensures !Truthy(provider) && Truthy(model) && !model.VStr? ==> r == Failure(NoLowerError(model))
    ensures !Truthy(provider) && model.VStr? && model.s != "" && NamesGemini(model.s) ==> r == Success(VStr("gemini"))
    ensures !Truthy(provider) && model.VStr? && model.s != "" && !NamesGemini(model.s) && NamesOpenAi(model.s) ==>
              r == Success(VStr("openai"))
    ensures !Truthy(provider) && model.VStr? && model.s != "" && !NamesGemini(model.s) && !NamesOpenAi(model.s) ==>
              r == Success(VStr("gemini"))
  {
    if !Truthy(provider) && Truthy(model) then
      match model
      case VStr(s) =>
        if NamesGemini(s) then Success(VStr("gemini"))
        else if NamesOpenAi(s) then Success(VStr("openai"))
        else Success(VStr("gemini"))
      case _ => Failure(NoLowerError(model))
    else if !Truthy(provider) then Success(VStr("gemini"))
    else Success(provider)
  }

  /** `LLMProvider(name)` succeeds only for the two enum values. */
  predicate IsProvider(name: string) {
    name == "openai" || name == "gemini"
  }

  /** Line 190, `LLMProvider(provider_name)`: the member's value, or the `ValueError` text. */
  function ToLlmProvider(v: Value): (r: Result<string, string>)
    ensures r.Success? <==> v.VStr? && IsProvider(v.s)
    ensures r.Success? ==> v == VStr(r.value)
    ensures r.Failure? ==> r.error == NotAProviderError(v)
  {
    match v
    case VStr(s) => if IsProvider(s) then Success(s) else Failure(NotAProviderError(v))
    case _ => Failure(NotAProviderError(v))
  }

  /**
    When no provider is configured and the model is absent or a string, detection yields a
    name `LLMProvider` accepts, and it is "openai" exactly in the gpt/davinci/curie case.
  */
  lemma DetectedProviderIsSupported(provider: Value, model: Value)
    requires !Truthy(provider) && (model.VStr? || !Truthy(model))
    ensures DetectProvider(provider, model).Success?
    ensures ToLlmProvider(DetectProvider(provider, model).value).Success?
    ensures DetectProvider(provider, model) == Success(VStr("openai")) <==>
              model.VStr? && model.s != "" && !NamesGemini(model.s) && NamesOpenAi(model.s)
  {
  }

  /** A configured provider bypasses detection: it is used if it is a member's value and raises otherwise. */
  lemma ConfiguredProviderIsChecked(provider: Value, model: Value)
    requires Truthy(provider)
    ensures DetectProvider(provider, model).Success?
    ensures ToLlmProvider(DetectProvider(provider, model).value).Success? <==> provider == VStr("openai") || provider == VStr("gemini")
    ensures !(provider == VStr("openai") || provider == VStr("gemini")) ==>
              ToLlmProvider(DetectProvider(provider, model).value) == Failure(NotAProviderError(provider))
  {
  }

  // ---------------------------------------------------------------------------
  // Services and step results

  /** What the knowledge-base step passes to the vector search. */
  datatype KbRequest = KbRequest(collection: Value, query: Value, maxResults: Value, workflowId: Value)

  /** What the LLM step passes to `llm_service.generate_response`: the provider as its enum value, the model as configured. */
  datatype LlmRequest = LlmRequest(
    query: Value, context: Value, customPrompt: Value, provider: string, model: Value, useWebSearch: Value)

  /** The parts of `generate_response`'s result the step reads: the text, `metadata["success"]` and the metadata. */
  datatype LlmReply = LlmReply(response: Value, success: bool, metadata: Data)

  /**
    The two services the engine calls: the document search (documents, or the error text)
    and the model (its reply, or the text of an exception it lets escape).
  */
  datatype Services = Services(
    retrieve: KbRequest -> Result<seq<string>, string>, generate: LlmRequest -> Result<LlmReply, string>)

  /** `step_result.get("success", True)`, read as a condition. */
  predicate StepSucceeded(out: Data) {
    Truthy(Get(out, "success", VBool(true)))
  }

  /** `str(workflow_id)` when it is set, otherwise `'all'` (the id is an integer or null). */
  function WorkflowLabel(v: Value): string {
    match v
    case VInt(i) => if i != 0 then IntToString(i) else "all"
    case _ => "all"
  }

  /** `_execute_user_query_component`. */
  function UserQueryStep(data: Data): (out: Data)
    ensures "success" in out && out["success"] == VBool(true) && "response" !in out
    ensures "query" in out && out["query"] == Get(data, "query", VStr(""))
  {
    map["success" := VBool(true), "query" := Get(data, "query", VStr("")),
        "component_output" := VStr("Query received and processed")]
  }

  /** `_execute_output_component`. */
  function OutputStep(data: Data): (out: Data)
    ensures "success" in out && out["success"] == VBool(true) && "response" !in out
    ensures "final_response" in out && out["final_response"] == Get(data, "response", VStr("No response available"))
  {
    map["success" := VBool(true), "final_response" := Get(data, "response", VStr("No response available")),
        "component_output" := VStr("Response formatted for output")]
  }

  /** `_execute_knowledge_base_component`, around the document search. */
  function KnowledgeBaseStep(c: ComponentConfig, data: Data, retrieve: KbRequest -> Result<seq<string>, string>): (out: Data)
    ensures "success" in out && "response" !in out
  {
    var request := KbRequest(
      Get(c.data, "collection_name", VStr("documents")), Get(data, "query", VStr("")),
      Get(c.data, "max_results", VInt(3)), Get(data, "workflow_id", VNull));
    match retrieve(request)
    case Success(documents) =>
      map["success" := VBool(true), "context" := VStr(JoinWith(documents, "\n\n")),
          "retrieved_documents" := VInt(|documents|),
          "component_output" := VStr("Retrieved " + NatToString(|documents|) + " relevant documents for workflow "
                                     + WorkflowLabel(request.workflowId))]
    case Failure(message) =>
      map["success" := VBool(false), "error" := VStr("Knowledge base component error: " + message),
          "context" := VStr("")]
  }

  /** The except branch of the LLM step, from the exception's text. */
  function LlmErrorStep(detail: string): (out: Data)
    ensures "success" in out && out["success"] == VBool(false) && !StepSucceeded(out)
    ensures "error" in out && out["error"] == VStr("LLM engine component error: " + detail)
    ensures "response" in out && out["response"] == VStr("Error: " + detail)
  {
    map["success" := VBool(false), "error" := VStr("LLM engine component error: " + detail),
        "response" := VStr("Error: " + detail)]
  }

  /**
    Lines 171-200 up to the model call: the request `generate_response` receives, or the
    text of the exception raised while preparing it.
  */
  function LlmRequestOf(c: ComponentConfig, data: Data): (r: Result<LlmRequest, string>)
    ensures r.Success? <==>
      DetectProvider(Get(c.data, "provider", VNull), Get(c.data, "model", VNull)).Success? &&
      ToLlmProvider(DetectProvider(Get(c.data, "provider", VNull), Get(c.data, "model", VNull)).value).Success?
    ensures r.Success? ==> IsProvider(r.value.provider)
    ensures r.Success? ==> r.value.model == Get(c.data, "model", VNull) && r.value.query == Get(data, "query", VStr(""))
    ensures r.Success? ==> (Truthy(r.value.context) <==> Truthy(Get(data, "context", VStr(""))))
  {
    var detected := DetectProvider(Get(c.data, "provider", VNull), Get(c.data, "model", VNull));
    if detected.Failure? then Failure(detected.error)
    else
      match ToLlmProvider(detected.value)
      case Failure(e) => Failure(e)
      case Success(name) =>
        var context := Get(data, "context", VStr(""));
        Success(LlmRequest(
          Get(data, "query", VStr("")), if Truthy(context) then context else VNull,
          Get(c.data, "custom_prompt", VNull), name, Get(c.data, "model", VNull),
          Get(c.data, "use_web_search", VBool(false))))
  }

  /** `_execute_llm_engine_component`: the request, the model call, and the except branch for both. */
  function LlmEngineStep(c: ComponentConfig, data: Data, generate: LlmRequest -> Result<LlmReply, string>): (out: Data)
    ensures "success" in out && "response" in out
    ensures LlmRequestOf(c, data).Failure? ==> out == LlmErrorStep(LlmRequestOf(c, data).error)
    ensures LlmRequestOf(c, data).Success? && generate(LlmRequestOf(c, data).value).Failure? ==>
              out == LlmErrorStep(generate(LlmRequestOf(c, data).value).error)
    ensures LlmRequestOf(c, data).Success? && generate(LlmRequestOf(c, data).value).Success? ==>
              var reply := generate(LlmRequestOf(c, data).value).value;
              out["success"] == VBool(reply.success) && out["response"] == reply.response
  {
    match LlmRequestOf(c, data)
    case Failure(e) => LlmErrorStep(e)
    case Success(request) =>
      match generate(request)
      case Failure(e) => LlmErrorStep(e)
      case Success(reply) =>
        map["success" := VBool(reply.success), "response" := reply.response,
            "llm_metadata" := VObject(reply.metadata), "component_output" := VStr("LLM response generated")]
  }

  /** The error of a component type without a handler. */
  const UnknownWebSearch := "Unknown component type: web_search"

  /** `_execute_component`: dispatch on the component's type. */
  function ExecuteComponent(c: ComponentConfig, data: Data, services: Services): (out: Data)
    ensures "success" in out
    ensures c.ctype == UserQuery || c.ctype == Output ==> StepSucceeded(out)
    ensures c.ctype == UserQuery ==> "query" in out && out["query"] == Get(data, "query", VStr(""))
    ensures c.ctype == Output ==> "final_response" in out && out["final_response"] == Get(data, "response", VStr("No response available"))
    ensures c.ctype == WebSearch ==> !StepSucceeded(out) && "error" in out && out["error"] == VStr(UnknownWebSearch)
    ensures c.ctype != LlmEngine ==> "response" !in out
  {
    match c.ctype
    case UserQuery => UserQueryStep(data)
    case KnowledgeBase => KnowledgeBaseStep(c, data, services.retrieve)
    case LlmEngine => LlmEngineStep(c, data, services.generate)
    case Output => OutputStep(data)
    case WebSearch => map["success" := VBool(false), "error" := VStr(UnknownWebSearch)]
  }

  /** A step handler: the component and the current context give the step's result. */
  type Handler = (ComponentConfig, Data) -> Data

  /** `self._execute_component` with the services fixed: the handler of the running system. */
  function Dispatch(services: Services): Handler {
    (c, data) => ExecuteComponent(c, data, services)
  }

  /** A web_search component's step always fails. */
  ghost predicate RejectsWebSearch(handler: Handler) {
    forall c: ComponentConfig, data: Data :: c.ctype == WebSearch ==> !StepSucceeded(handler(c, data))
  }

  /** Only an llm_engine component's step writes "response". */
  ghost predicate OnlyLlmResponds(handler: Handler) {
    forall c: ComponentConfig, data: Data :: c.ctype != LlmEngine ==> "response" !in handler(c, data)
  }

  /** The dispatcher has both properties. */
  lemma DispatchContracts(services: Services)
    ensures RejectsWebSearch(Dispatch(services))
    ensures OnlyLlmResponds(Dispatch(services))
  {
    forall c: ComponentConfig, data: Data ensures Dispatch(services)(c, data) == ExecuteComponent(c, data, services) {
    }
  }
}
