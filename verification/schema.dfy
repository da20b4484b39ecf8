/**
  The workflow records exchanged by the back end (backend/app/schemas/workflow.py):
  the closed set of component types, a component placed on the canvas, a connection
  between two components, and the create / update / stored forms of a workflow.
*/
module Schema {
  import opened Wrappers

  /** `ComponentType`: exactly five kinds of building block. */
  datatype ComponentType = UserQuery | KnowledgeBase | LlmEngine | WebSearch | Output

  /** The enum member's value, as it travels in JSON. */
  function TypeName(t: ComponentType): string {
    match t
    case UserQuery => "user_query"
    case KnowledgeBase => "knowledge_base"
    case LlmEngine => "llm_engine"
    case WebSearch => "web_search"
    case Output => "output"
  }

  /** Parsing a JSON string into the enum: only the five values are accepted. */
  function ParseComponentType(s: string): (r: Option<ComponentType>)
    ensures r.Some? ==> TypeName(r.value) == s
  {
    if s == "user_query" then Some(UserQuery)
    else if s == "knowledge_base" then Some(KnowledgeBase)
    else if s == "llm_engine" then Some(LlmEngine)
    else if s == "web_search" then Some(WebSearch)
    else if s == "output" then Some(Output)
    else None
  }

  /** The members in declaration order. */
  const AllComponentTypes: seq<ComponentType> := [UserQuery, KnowledgeBase, LlmEngine, WebSearch, Output]

  /** Every type is listed once, and each one's value parses back to it. */
  lemma ComponentTypesEnumerated()
    ensures forall t: ComponentType :: t in AllComponentTypes
    ensures |AllComponentTypes| == 5
    ensures forall i, j :: 0 <= i < j < 5 ==> AllComponentTypes[i] != AllComponentTypes[j]
    ensures forall t: ComponentType :: ParseComponentType(TypeName(t)) == Some(t)
  {
    forall t: ComponentType ensures t in AllComponentTypes {
      match t
      case UserQuery => assert AllComponentTypes[0] == t;
      case KnowledgeBase => assert AllComponentTypes[1] == t;
      case LlmEngine => assert AllComponentTypes[2] == t;
      case WebSearch => assert AllComponentTypes[3] == t;
      case Output => assert AllComponentTypes[4] == t;
    }
  }

  /** A JSON value as carried in the free-form `data` maps and step results. */
  datatype Value =
    | VNull
    | VBool(b: bool)
    | VInt(i: int)
    | VReal(r: real)
    | VStr(s: string)
    | VList(items: seq<Value>)
    | VObject(fields: map<string, Value>)

  /** A JSON object (`Dict[str, Any]`). */
  type Data = map<string, Value>

  /** Python truthiness of a value (`if x:` / `not x`). */
  predicate Truthy(v: Value) {
    match v
    case VNull => false
    case VBool(b) => b
    case VInt(i) => i != 0
    case VReal(r) => r != 0.0
    case VStr(s) => s != ""
    case VList(items) => items != []
    case VObject(fields) => |fields| > 0
  }

  /** `d.get(key, default)`. */
  function Get(d: Data, key: string, default: Value): Value {
    if key in d then d[key] else default
  }

  /** Canvas coordinates of a component. */
  datatype Position = Position(x: real, y: real)

  /** `ComponentConfig`: id, type, label (`displayLabel`, as `label` is a Dafny keyword), position and a free-form configuration map. */
  datatype ComponentConfig = ComponentConfig(id: string, ctype: ComponentType, displayLabel: string, position: Position, data: Data)

  /** `WorkflowConnection`: the two handles are optional (absent unless sent). */
  datatype WorkflowConnection = WorkflowConnection(
    id: string, source: string, target: string, sourceHandle: Option<string>, targetHandle: Option<string>)

  /** `WorkflowCreate`. */
  datatype WorkflowCreate = WorkflowCreate(
    name: string, description: Option<string>, components: seq<ComponentConfig>, connections: seq<WorkflowConnection>)

  /**
    `WorkflowUpdate`: every field is optional. `None` means "not sent" (dropped by
    `exclude_unset`); the description may also be sent as an explicit null, hence the
    nested option.
  */
  datatype WorkflowUpdate = WorkflowUpdate(
    name: Option<string>,
    description: Option<Option<string>>,
    components: Option<seq<ComponentConfig>>,
    connections: Option<seq<WorkflowConnection>>)

  /** A stored `Workflow`: the graph together with the validity flag computed from it. */
  datatype Workflow = Workflow(
    id: int, name: string, description: Option<string>,
    components: seq<ComponentConfig>, connections: seq<WorkflowConnection>, isValid: bool)

  /** One entry of `execution_steps` (its timestamp is not modelled). */
  datatype ExecutionStep = ExecutionStep(
    componentId: string, componentType: ComponentType, input: Data, output: Data, success: Value)
}
