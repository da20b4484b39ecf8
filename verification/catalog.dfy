/**
  The component catalog and the structure-validation endpoint
  (backend/app/routers/components.py): the constant table of the five component kinds,
  the two lookups over it, and the report built for a workflow structure.
*/
module Catalog {
  import opened Wrappers
  import opened Schema
  import opened Steps

  // ---------------------------------------------------------------------------
  // The catalog

  /**
    One entry of a configuration schema's `properties`: its name, JSON-schema `type`,
    title, default, optional numeric bounds and optional `enum` of allowed strings.
  */
  datatype PropertySchema = PropertySchema(
    name: string, kind: string, title: string, default: Value,
    minimum: Option<Value>, maximum: Option<Value>, choices: Option<seq<string>>)

  /** A catalog entry (the `config_schema` is kept as its ordered list of properties). */
  datatype ComponentDefinition = ComponentDefinition(
    ctype: ComponentType, displayLabel: string, description: string,
    inputs: seq<string>, outputs: seq<string>, properties: seq<PropertySchema>,
    icon: string, color: string)

  function TextProperty(name: string, title: string, default: string): PropertySchema {
    PropertySchema(name, "string", title, VStr(default), None, None, None)
  }

  function ChoiceProperty(name: string, title: string, choices: seq<string>, default: string): PropertySchema {
    PropertySchema(name, "string", title, VStr(default), None, None, Some(choices))
  }

  function IntegerProperty(name: string, title: string, default: int, min: int, max: int): PropertySchema {
    PropertySchema(name, "integer", title, VInt(default), Some(VInt(min)), Some(VInt(max)), None)
  }

  function NumberProperty(name: string, title: string, default: real, min: real, max: real): PropertySchema {
    PropertySchema(name, "number", title, VReal(default), Some(VReal(min)), Some(VReal(max)), None)
  }

  function FlagProperty(name: string, title: string, default: bool): PropertySchema {
    PropertySchema(name, "boolean", title, VBool(default), None, None, None)
  }

  /** The default of the LLM engine's `custom_prompt`. */
  const DefaultCustomPrompt := "You are a helpful AI assistant. Answer the user's question based on the provided context and your knowledge."

  const UserQueryDefinition := ComponentDefinition(
    UserQuery, "User Query", "Accepts user queries and serves as the entry point for the workflow",
    [], ["query"],
    [TextProperty("placeholder", "Placeholder Text", "Enter your question...")],
    "search", "#3B82F6")

  const KnowledgeBaseDefinition := ComponentDefinition(
    KnowledgeBase, "Knowledge Base", "Retrieves relevant context from uploaded documents using vector search",
    ["query"], ["context", "retrieved_documents"],
    [TextProperty("collection_name", "Collection Name", "documents"),
     IntegerProperty("max_results", "Max Results", 3, 1, 10),
     NumberProperty("similarity_threshold", "Similarity Threshold", 0.7, 0.0, 1.0)],
    "book", "#10B981")

  const LlmEngineDefinition := ComponentDefinition(
    LlmEngine, "LLM Engine", "Generates responses using language models like OpenAI GPT or Google Gemini",
    ["query", "context"], ["response"],
    [ChoiceProperty("provider", "LLM Provider", ["openai", "gemini"], "gemini"),
     TextProperty("model", "Model", "gemini-1.5-flash"),
     TextProperty("custom_prompt", "Custom Prompt", DefaultCustomPrompt),
     FlagProperty("use_web_search", "Use Web Search", false),
     NumberProperty("temperature", "Temperature", 0.7, 0.0, 2.0),
     IntegerProperty("max_tokens", "Max Tokens", 500, 1, 1000)],
    "bot", "#8B5CF6")

  const WebSearchDefinition := ComponentDefinition(
    WebSearch, "Web Search", "Searches the web for real-time information using Google or Bing",
    ["query"], ["search_results", "context"],
    [ChoiceProperty("search_engine", "Search Engine", ["google", "bing"], "google"),
     IntegerProperty("max_results", "Max Results", 3, 1, 10),
     ChoiceProperty("search_type", "Search Type", ["general", "news", "academic"], "general")],
    "globe", "#06B6D4")

  const OutputDefinition := ComponentDefinition(
    Output, "Output", "Displays the final response in a chat interface",
    ["response"], [],
    [ChoiceProperty("format", "Output Format", ["text", "markdown", "json"], "text"),
     FlagProperty("show_metadata", "Show Metadata", false)],
    "message", "#F59E0B")

  /** `COMPONENT_DEFINITIONS`: key and entry, in insertion order. */
  const ComponentDefinitions: seq<(ComponentType, ComponentDefinition)> := [
    (UserQuery, UserQueryDefinition), (KnowledgeBase, KnowledgeBaseDefinition), (LlmEngine, LlmEngineDefinition),
    (WebSearch, WebSearchDefinition), (Output, OutputDefinition)]

  /** A number as a real, for comparing integer and floating-point bounds. */
  function NumericValue(v: Value): Option<real> {
    match v
    case VInt(i) => Some(i as real)
    case VReal(r) => Some(r)
    case _ => None
  }

  /** `lo <= v`, for two numbers. */
  predicate NumberAtLeast(v: Value, lo: Value) {
    NumericValue(v).Some? && NumericValue(lo).Some? && NumericValue(lo).value <= NumericValue(v).value
  }

  /** The default respects the bounds and, for an enumeration, is one of the choices. */
  predicate DefaultAllowed(p: PropertySchema) {
    && (p.minimum.Some? ==> NumberAtLeast(p.default, p.minimum.value))
    && (p.maximum.Some? ==> NumberAtLeast(p.maximum.value, p.default))
    && (p.choices.Some? ==> p.default.VStr? && p.default.s in p.choices.value)
  }

  /** The properties of one entry are named once each and all have allowed defaults. */
  predicate WellFormedSchema(d: ComponentDefinition) {
    && (forall j :: 0 <= j < |d.properties| ==> DefaultAllowed(d.properties[j]))
    && (forall i, j :: 0 <= i < j < |d.properties| ==> d.properties[i].name != d.properties[j].name)
  }

  /** Each entry's schema, checked one entry at a time. */
  lemma UserQuerySchema() ensures WellFormedSchema(UserQueryDefinition) {}
  lemma KnowledgeBaseSchema() ensures WellFormedSchema(KnowledgeBaseDefinition) {}
  lemma LlmEngineSchema() ensures WellFormedSchema(LlmEngineDefinition) {}
  lemma WebSearchSchema() ensures WellFormedSchema(WebSearchDefinition) {}
  lemma OutputSchema() ensures WellFormedSchema(OutputDefinition) {}

  /**
    The table's shape: its keys are the five types in declaration order, every entry's
    `type` field is its key, user_query takes no inputs, output produces no outputs, and
    every default lies within its bounds and choices.
  */
  lemma CatalogIsConsistent()
    ensures |ComponentDefinitions| == |AllComponentTypes|
    ensures forall k :: 0 <= k < |ComponentDefinitions| ==>
      ComponentDefinitions[k].0 == AllComponentTypes[k] && ComponentDefinitions[k].1.ctype == ComponentDefinitions[k].0
    ensures forall k :: 0 <= k < |ComponentDefinitions| ==> WellFormedSchema(ComponentDefinitions[k].1)
    ensures UserQueryDefinition.inputs == [] && OutputDefinition.outputs == []
  {
    UserQuerySchema();
    KnowledgeBaseSchema();
    LlmEngineSchema();
    WebSearchSchema();
    OutputSchema();
  }

  /** `get_available_components`: the entries, in the table's order. */
  function GetAvailableComponents(): (defs: seq<ComponentDefinition>)
    ensures |defs| == |ComponentDefinitions|
    ensures forall k :: 0 <= k < |defs| ==> defs[k] == ComponentDefinitions[k].1
  {
    Values(ComponentDefinitions)
  }

  function Values(entries: seq<(ComponentType, ComponentDefinition)>): (defs: seq<ComponentDefinition>)
    ensures |defs| == |entries|
    ensures forall k :: 0 <= k < |defs| ==> defs[k] == entries[k].1
  {
    if entries == [] then [] else [entries[0].1] + Values(entries[1..])
  }

  /** The entry stored under key `t`, if any (the first one). */
  function Lookup(entries: seq<(ComponentType, ComponentDefinition)>, t: ComponentType): (r: Option<ComponentDefinition>)
    ensures r.Some? <==> exists k :: 0 <= k < |entries| && entries[k].0 == t
    ensures r.Some? ==> exists k :: 0 <= k < |entries| && entries[k].0 == t && entries[k].1 == r.value
  {
    if entries == [] then None
    else if entries[0].0 == t then Some(entries[0].1)
    else
      var r := Lookup(entries[1..], t);
      assert forall k :: 1 <= k < |entries| ==> entries[k] == entries[1..][k - 1];
      assert r.Some? ==> entries[1..][0].0 == t || exists k :: 1 <= k < |entries| && entries[k].0 == t;
      r
  }

  /** `get_component_definition`: the entry for the type, or 404 when the table lacks it. */
  function GetComponentDefinition(t: ComponentType): (r: Result<ComponentDefinition, HttpError>)
    ensures r.Failure? ==> r.error == HttpError(404, "Component type '" + TypeName(t) + "' not found")
  {
    match Lookup(ComponentDefinitions, t)
    case Some(d) => Success(d)
    case None => Failure(HttpError(404, "Component type '" + TypeName(t) + "' not found"))
  }

  /** Each entry of the table is keyed by the type its definition describes. */
  lemma EntriesKeyedByType()
    ensures forall k :: 0 <= k < |ComponentDefinitions| ==> ComponentDefinitions[k].1.ctype == ComponentDefinitions[k].0
  {
    assert UserQueryDefinition.ctype == UserQuery && KnowledgeBaseDefinition.ctype == KnowledgeBase;
    assert LlmEngineDefinition.ctype == LlmEngine && WebSearchDefinition.ctype == WebSearch;
    assert OutputDefinition.ctype == Output;
  }

  /** Every type has an entry, and the entry describes that type: the 404 branch is never taken. */
  lemma DefinitionOfEveryType(t: ComponentType)
    ensures GetComponentDefinition(t).Success?
    ensures GetComponentDefinition(t).value.ctype == t
  {
    var k := match t
      case UserQuery => 0
      case KnowledgeBase => 1
      case LlmEngine => 2
      case WebSearch => 3
      case Output => 4;
    assert ComponentDefinitions[k].0 == t;
    EntriesKeyedByType();
  }

  // ---------------------------------------------------------------------------
  // `validate_workflow_structure`

  /** The endpoint's answer. */
  datatype StructureReport = StructureReport(isValid: bool, componentCount: nat, connectionCount: nat, errors: seq<string>)

  /** The types every workflow needs, in the order their absence is reported. */
  const RequiredTypes: seq<ComponentType> := [UserQuery, Output]

  function MissingMessage(t: ComponentType): string {
    "Missing required component: " + TypeName(t)
  }

  /** The error for each type of `required` that `types` lacks, in order. */
  function MissingErrors(required: seq<ComponentType>, types: seq<ComponentType>): (errors: seq<string>)
    ensures |errors| <= |required|
  {
    if required == [] then []
    else
      var last := required[|required| - 1];
      MissingErrors(required[..|required| - 1], types) + if last in types then [] else [MissingMessage(last)]
  }

  /**
    The report for an input: a parse failure of the components or connections (its
    message) gives one "Validation error" entry; otherwise validity, the two counts, and the
    missing-type errors when the workflow is invalid.
  */
  function StructureReportOf(parsed: Result<(seq<ComponentConfig>, seq<WorkflowConnection>), string>): StructureReport {
    match parsed
    case Failure(message) => StructureReport(false, 0, 0, ["Validation error: " + message])
    case Success((components, connections)) =>
      var valid := ValidateWorkflow(components, connections);
      StructureReport(valid, |components|, |connections|,
        if valid then [] else MissingErrors(RequiredTypes, Types(components)))
  }

  /** `validate_workflow_structure`: the errors are appended in a loop over the required types. */
  method ValidateWorkflowStructure(parsed: Result<(seq<ComponentConfig>, seq<WorkflowConnection>), string>)
    returns (report: StructureReport)
    ensures report == StructureReportOf(parsed)
  {
    if parsed.Failure? {
      return StructureReport(false, 0, 0, ["Validation error: " + parsed.error]);
    }
    var (components, connections) := parsed.value;
    var isValid := ValidateWorkflow(components, connections);
    var errors: seq<string> := [];
    if !isValid {
      var componentTypes := Types(components);
      for k := 0 to |RequiredTypes|
        invariant errors == MissingErrors(RequiredTypes[..k], componentTypes)
      {
        assert RequiredTypes[..k + 1][..k] == RequiredTypes[..k];
        if RequiredTypes[k] !in componentTypes {
          errors := errors + [MissingMessage(RequiredTypes[k])];
        }
      }
      assert RequiredTypes[..|RequiredTypes|] == RequiredTypes;
    }
    report := StructureReport(isValid, |components|, |connections|, errors);
  }

  /** `t in [c.type for c in components]` is "some component has type t". */
  lemma TypesListed(components: seq<ComponentConfig>, t: ComponentType)
    ensures t in Types(components) <==> HasType(components, t)
  {
    var types := Types(components);
    if t in types {
      var i :| 0 <= i < |types| && types[i] == t;
      assert components[i].ctype == t;
    }
  }

  /** The error for type `t` when no component has it. */
  function MissingFor(components: seq<ComponentConfig>, t: ComponentType): seq<string> {
    if HasType(components, t) then [] else [MissingMessage(t)]
  }

  /**
    The report of a parsed workflow: `is_valid` is the executor's rule, the counts are the
    list lengths, and the errors are empty for a valid workflow and otherwise name the
    absent required types, user_query before output.
  */
  lemma ReportOfParsedWorkflow(components: seq<ComponentConfig>, connections: seq<WorkflowConnection>)
    ensures var r := StructureReportOf(Success((components, connections)));
      && (r.isValid <==> HasType(components, UserQuery) && HasType(components, Output)
                         && ExecutionOrder.EndpointsKnown(components, connections))
      && r.componentCount == |components| && r.connectionCount == |connections|
      && (r.isValid ==> r.errors == [])
      && (!r.isValid ==> r.errors == MissingFor(components, UserQuery) + MissingFor(components, Output))
  {
    TypesListed(components, UserQuery);
    TypesListed(components, Output);
    var types := Types(components);
    assert RequiredTypes[..1] == [UserQuery];
    assert RequiredTypes[..1][..0] == [];
    assert MissingErrors(RequiredTypes[..1], types) == MissingFor(components, UserQuery);
  }

  /** A workflow whose only defect is a connection to an unknown id is invalid with no error listed. */
  lemma DanglingConnectionGivesNoErrors(components: seq<ComponentConfig>, connections: seq<WorkflowConnection>)
    requires HasType(components, UserQuery) && HasType(components, Output)
    requires !ExecutionOrder.EndpointsKnown(components, connections)
    ensures var r := StructureReportOf(Success((components, connections))); !r.isValid && r.errors == []
  {
    ReportOfParsedWorkflow(components, connections);
  }

  /** A parse failure reports an invalid workflow, zero counts and exactly one error. */
  lemma ParseFailureReport(message: string)
    ensures var r := StructureReportOf(Failure(message));
      !r.isValid && r.componentCount == 0 && r.connectionCount == 0 && |r.errors| == 1
      && r.errors[0][..|"Validation error: "|] == "Validation error: "
  {
  }
}
