/**
  The workflow editor page (frontend/src/pages/WorkflowBuilder.jsx): its state cells (the
  canvas nodes and edges, the fetched catalog, the selection, the validity flag, the saved
  id and the save form), the handlers that replace them, and the serialisation of the
  canvas into the back end's wire format. Edges are created and deleted by the canvas
  library and are received here as a plain list.
*/
module WorkflowBuilder {
  import opened Wrappers
  import opened Text
  import opened Schema
  import opened Steps
  import opened Catalog

  // ---------------------------------------------------------------------------
  // Canvas entities

  /**
    `node.data`: what the editor keeps on a node. `config` and `configSchema` are absent
    when the node carries none (the schema is kept as its list of properties).
  */
  datatype NodeData = NodeData(
    nodeLabel: string, componentType: string, icon: string, color: string,
    inputs: seq<string>, outputs: seq<string>, config: Option<Data>, configSchema: Option<seq<PropertySchema>>)

  /** A canvas node; `kind` is the renderer name ('workflowNode'). */
  datatype Node = Node(id: string, kind: string, position: Position, data: NodeData)

  /** A canvas edge; the handles are absent when the library did not set them. */
  datatype Edge = Edge(id: string, source: string, target: string, sourceHandle: Option<string>, targetHandle: Option<string>)

  /** A component as sent to the back end: its type is still the raw string. */
  datatype WireComponent = WireComponent(id: string, ctype: string, displayLabel: string, position: Position, data: Data)

  // ---------------------------------------------------------------------------
  // Serialisation (the two `map`s of `validateWorkflow` and `handleSaveWorkflow`)

  /** `h || fallback`: an absent or empty handle is replaced. */
  function HandleOr(h: Option<string>, fallback: string): (r: string)
    ensures h.Some? && h.value != "" ==> r == h.value
    ensures h.None? || h.value == "" ==> r == fallback
  {
    if h.Some? && h.value != "" then h.value else fallback
  }

  /** One node on the wire: type from `data.componentType`, data from `config || {}`. */
  function NodeToWire(node: Node): (w: WireComponent)
    ensures w.id == node.id && w.ctype == node.data.componentType && w.displayLabel == node.data.nodeLabel
    ensures w.position == node.position
    ensures w.data == if node.data.config.Some? then node.data.config.value else map[]
  {
    WireComponent(node.id, node.data.componentType, node.data.nodeLabel, node.position, node.data.config.GetOr(map[]))
  }

  /** One edge on the wire: handles default to 'output' and 'input'. */
  function EdgeToWire(edge: Edge): (c: WorkflowConnection)
    ensures c.id == edge.id && c.source == edge.source && c.target == edge.target
    ensures c.sourceHandle == Some(HandleOr(edge.sourceHandle, "output"))
    ensures c.targetHandle == Some(HandleOr(edge.targetHandle, "input"))
  {
    WorkflowConnection(edge.id, edge.source, edge.target,
      Some(HandleOr(edge.sourceHandle, "output")), Some(HandleOr(edge.targetHandle, "input")))
  }

  /** `nodes.map(...)`: one wire component per node, in order. */
  function SerializeNodes(nodes: seq<Node>): (ws: seq<WireComponent>)
    ensures |ws| == |nodes|
    ensures forall i :: 0 <= i < |nodes| ==> ws[i] == NodeToWire(nodes[i])
  {
    if nodes == [] then [] else [NodeToWire(nodes[0])] + SerializeNodes(nodes[1..])
  }

  /** `edges.map(...)`: one wire connection per edge, in order. */
  function SerializeEdges(edges: seq<Edge>): (cs: seq<WorkflowConnection>)
    ensures |cs| == |edges|
    ensures forall i :: 0 <= i < |edges| ==> cs[i] == EdgeToWire(edges[i])
  {
    if edges == [] then [] else [EdgeToWire(edges[0])] + SerializeEdges(edges[1..])
  }

  /** Every serialised connection carries both handles, and neither is empty. */
  lemma SerializedHandlesPresent(edges: seq<Edge>, i: nat)
    requires i < |edges|
    ensures var c := SerializeEdges(edges)[i];
      c.sourceHandle.Some? && c.sourceHandle.value != "" && c.targetHandle.Some? && c.targetHandle.value != ""
  {
  }

  // ---------------------------------------------------------------------------
  // The back end's reading of the wire format

  /** Parsing one wire component into a `ComponentConfig`: the type string must name a `ComponentType`. */
  function ParseWireComponent(w: WireComponent): (r: Result<ComponentConfig, string>)
    ensures r.Success? <==> ParseComponentType(w.ctype).Some?
    ensures r.Success? ==> r.value.id == w.id && TypeName(r.value.ctype) == w.ctype && r.value.data == w.data
  {
    match ParseComponentType(w.ctype)
    case None => Failure("invalid component type: " + w.ctype)
    case Some(t) => Success(ComponentConfig(w.id, t, w.displayLabel, w.position, w.data))
  }

  /** `[ComponentConfig(**comp) for comp in components]`: fails at the first bad entry. */
  function ParseWireComponents(ws: seq<WireComponent>): (r: Result<seq<ComponentConfig>, string>)
    ensures r.Success? <==> forall i :: 0 <= i < |ws| ==> ParseWireComponent(ws[i]).Success?
    ensures r.Success? ==> |r.value| == |ws| && forall i :: 0 <= i < |ws| ==> r.value[i] == ParseWireComponent(ws[i]).value
  {
    if ws == [] then Success([])
    else
      match ParseWireComponent(ws[0])
      case Failure(e) => Failure(e)
      case Success(c) =>
        match ParseWireComponents(ws[1..])
        case Failure(e) =>
          assert exists i :: 1 <= i < |ws| && !ParseWireComponent(ws[i]).Success? by {
            var j :| 0 <= j < |ws[1..]| && !ParseWireComponent(ws[1..][j]).Success?;
            assert ws[1..][j] == ws[j + 1];
          }
          Failure(e)
        case Success(cs) =>
          assert forall i :: 1 <= i < |ws| ==> ws[i] == ws[1..][i - 1];
          Success([c] + cs)
  }

  /** The validation endpoint as the editor sees it: the `is_valid` of its report. */
  function BackendValidate(components: seq<WireComponent>, connections: seq<WorkflowConnection>): Result<bool, string> {
    var parsed := match ParseWireComponents(components)
      case Failure(e) => Failure(e)
      case Success(cs) => Success((cs, connections));
    Success(StructureReportOf(parsed).isValid)
  }

  // ---------------------------------------------------------------------------
  // Validity as the editor computes it

  /** The type of the validator the editor calls: the request payload to the reply (a failure is a thrown error). */
  type Validator = (seq<WireComponent>, seq<WorkflowConnection>) -> Result<bool, string>

  /**
    The flag `validateWorkflow` sets: false for an empty canvas without asking, otherwise
    the reply's `is_valid`, and false when the request throws.
  */
  function EditorValidity(nodes: seq<Node>, edges: seq<Edge>, validate: Validator): (valid: bool)
    ensures nodes == [] ==> !valid
    ensures nodes != [] ==> (valid <==> validate(SerializeNodes(nodes), SerializeEdges(edges)) == Success(true))
  {
    if nodes == [] then false
    else
      match validate(SerializeNodes(nodes), SerializeEdges(edges))
      case Failure(_) => false
      case Success(v) => v
  }

  /**
    Against the real endpoint, the editor's flag is the back end's `_validate_workflow` of
    the serialised canvas: every node type must be a known one, and the graph must be valid.
  */
  lemma EditorAgreesWithBackend(nodes: seq<Node>, edges: seq<Edge>)
    ensures var parsed := ParseWireComponents(SerializeNodes(nodes));
      EditorValidity(nodes, edges, BackendValidate) <==>
        (nodes != [] && parsed.Success? && ValidateWorkflow(parsed.value, SerializeEdges(edges)))
  {
  }

  /** A parsed canvas keeps each node's id and type, in order. */
  lemma ParsedNodesKeepIds(nodes: seq<Node>)
    requires ParseWireComponents(SerializeNodes(nodes)).Success?
    ensures var cs := ParseWireComponents(SerializeNodes(nodes)).value;
      |cs| == |nodes| && forall i :: 0 <= i < |nodes| ==> cs[i].id == nodes[i].id && TypeName(cs[i].ctype) == nodes[i].data.componentType
  {
    var ws := SerializeNodes(nodes);
    var cs := ParseWireComponents(ws).value;
    forall i | 0 <= i < |nodes| ensures cs[i].id == nodes[i].id && TypeName(cs[i].ctype) == nodes[i].data.componentType {
      assert cs[i] == ParseWireComponent(ws[i]).value;
    }
  }

  // ---------------------------------------------------------------------------
  // Catalog lookup and node edits

  /** Entry `k` is the first of the catalog with type `componentType`. */
  predicate FirstOfType(catalog: seq<ComponentDefinition>, componentType: string, k: int) {
    0 <= k < |catalog| && TypeName(catalog[k].ctype) == componentType
    && forall j :: 0 <= j < k ==> TypeName(catalog[j].ctype) != componentType
  }

  /** `components.find(c => c.type === componentType)`: the first entry of that type. */
  function FindComponent(catalog: seq<ComponentDefinition>, componentType: string): (r: Option<ComponentDefinition>)
    ensures r.None? <==> forall k :: 0 <= k < |catalog| ==> TypeName(catalog[k].ctype) != componentType
    ensures r.Some? ==> TypeName(r.value.ctype) == componentType
    ensures r.Some? ==> exists k :: FirstOfType(catalog, componentType, k) && catalog[k] == r.value
  {
    if catalog == [] then None
    else if TypeName(catalog[0].ctype) == componentType then Some(catalog[0])
    else
      var r := FindComponent(catalog[1..], componentType);
      assert forall k :: 1 <= k < |catalog| ==> catalog[k] == catalog[1..][k - 1];
      if r.Some? then
        assert exists k :: FirstOfType(catalog, componentType, k) && catalog[k] == r.value by {
          var k :| FirstOfType(catalog[1..], componentType, k) && catalog[1..][k] == r.value;
          assert FirstOfType(catalog, componentType, k + 1) && catalog[k + 1] == r.value;
        }
        r
      else
        r
  }

  /** The node `onDrop` creates for a catalog entry: empty config, and the entry's type, label, icon, colour, ports and schema. */
  function DroppedNode(component: ComponentDefinition, componentType: string, stamp: int, position: Position): (node: Node)
    ensures node.id == componentType + "-" + IntToString(stamp) && node.position == position
    ensures node.data.config == Some(map[]) && node.data.nodeLabel == component.displayLabel
    ensures node.data.inputs == component.inputs && node.data.outputs == component.outputs
    ensures node.data.configSchema == Some(component.properties)
    ensures node.kind == "workflowNode" && node.data.componentType == TypeName(component.ctype)
    ensures node.data.icon == component.icon && node.data.color == component.color
  {
    Node(componentType + "-" + IntToString(stamp), "workflowNode", position,
      NodeData(component.displayLabel, TypeName(component.ctype), component.icon, component.color,
        component.inputs, component.outputs, Some(map[]), Some(component.properties)))
  }

  /** `handleNodeConfigUpdate`'s `map`: the node with that id gets the new config, every other node is kept. */
  function ReplaceConfig(nodes: seq<Node>, nodeId: string, config: Data): (r: seq<Node>)
    ensures |r| == |nodes|
    ensures forall i :: 0 <= i < |nodes| && nodes[i].id == nodeId ==>
      r[i] == nodes[i].(data := nodes[i].data.(config := Some(config)))
    ensures forall i :: 0 <= i < |nodes| && nodes[i].id != nodeId ==> r[i] == nodes[i]
  {
    if nodes == [] then []
    else
      var head := if nodes[0].id == nodeId then nodes[0].(data := nodes[0].data.(config := Some(config))) else nodes[0];
      [head] + ReplaceConfig(nodes[1..], nodeId, config)
  }

  /** Replacing the config of an id no node has changes nothing. */
  lemma {:induction false} ReplaceConfigUnknownId(nodes: seq<Node>, nodeId: string, config: Data)
    requires forall i :: 0 <= i < |nodes| ==> nodes[i].id != nodeId
    ensures ReplaceConfig(nodes, nodeId, config) == nodes
  {
    var r := ReplaceConfig(nodes, nodeId, config);
    assert forall i :: 0 <= i < |nodes| ==> r[i] == nodes[i];
  }

  /** Replacing a config never changes the node ids, so the serialised components keep theirs. */
  lemma ReplaceConfigKeepsIds(nodes: seq<Node>, nodeId: string, config: Data)
    ensures var r := ReplaceConfig(nodes, nodeId, config);
      forall i :: 0 <= i < |nodes| ==> r[i].id == nodes[i].id && r[i].data.componentType == nodes[i].data.componentType
  {
  }

  const SaveAlert := "Workflow saved successfully! You can now upload documents."
  const SaveErrorAlert := "Error saving workflow. Please try again."
  const NameAlert := "Please enter a workflow name"
  const FixAlert := "Please fix workflow validation errors before testing"
  const ComingSoonAlert := "Test functionality coming soon! Save the workflow and test it in the Chat section."

  /** `handleTestWorkflow`: the alert it shows. */
  function TestAlert(isValid: bool): (alert: string)
    ensures isValid <==> alert == ComingSoonAlert
  {
    if !isValid then FixAlert else ComingSoonAlert
  }

  /** The payload `handleSaveWorkflow` posts. */
  datatype SaveRequest = SaveRequest(name: string, description: string, components: seq<WireComponent>, connections: seq<WorkflowConnection>)

  // ---------------------------------------------------------------------------
  // The page's state

  class WorkflowBuilderPage {
    var nodes: seq<Node>
    var edges: seq<Edge>
    var catalog: seq<ComponentDefinition>
    var workflowName: string
    var workflowDescription: string
    var showSaveModal: bool
    var isValid: bool
    var savedWorkflowId: Option<int>
    var selectedNode: Option<Node>
    var showConfigPanel: bool

    constructor()
      ensures nodes == [] && edges == [] && catalog == [] && workflowName == "" && workflowDescription == ""
      ensures !showSaveModal && !isValid && savedWorkflowId.None? && selectedNode.None? && !showConfigPanel
    {
      nodes := [];
      edges := [];
      catalog := [];
      workflowName := "";
      workflowDescription := "";
      showSaveModal := false;
      isValid := false;
      savedWorkflowId := None;
      selectedNode := None;
      showConfigPanel := false;
    }

    /** `fetchComponents`: a successful fetch replaces the catalog; a failed one is only logged. */
    method FetchComponents(reply: Result<seq<ComponentDefinition>, string>)
      modifies this
      ensures catalog == if reply.Success? then reply.value else old(catalog)
      ensures nodes == old(nodes) && edges == old(edges) && workflowName == old(workflowName)
      ensures workflowDescription == old(workflowDescription) && showSaveModal == old(showSaveModal) && isValid == old(isValid)
      ensures savedWorkflowId == old(savedWorkflowId) && selectedNode == old(selectedNode) && showConfigPanel == old(showConfigPanel)
    {
      if reply.Success? {
        catalog := reply.value;
      }
    }

    /** The canvas library replaced the edge list (connect or delete). */
    method SetEdges(newEdges: seq<Edge>)
      modifies this
      ensures edges == newEdges
      ensures nodes == old(nodes) && catalog == old(catalog) && workflowName == old(workflowName)
      ensures workflowDescription == old(workflowDescription) && showSaveModal == old(showSaveModal) && isValid == old(isValid)
      ensures savedWorkflowId == old(savedWorkflowId) && selectedNode == old(selectedNode) && showConfigPanel == old(showConfigPanel)
    {
      edges := newEdges;
    }

    /** `validateWorkflow`, with the request and its reply taken as one step. */
    method ValidateWorkflow(validate: Validator)
      modifies this
      ensures isValid == EditorValidity(nodes, edges, validate)
      ensures nodes == old(nodes) && edges == old(edges) && catalog == old(catalog)
      ensures workflowName == old(workflowName) && workflowDescription == old(workflowDescription) && showSaveModal == old(showSaveModal)
      ensures savedWorkflowId == old(savedWorkflowId) && selectedNode == old(selectedNode) && showConfigPanel == old(showConfigPanel)
    {
      if |nodes| == 0 {
        isValid := false;
        return;
      }
      var workflowComponents := SerializeNodes(nodes);
      var workflowConnections := SerializeEdges(edges);
      var validation := validate(workflowComponents, workflowConnections);
      if validation.Success? {
        isValid := validation.value;
      } else {
        isValid := false;
      }
    }

    /**
      `onDrop`: a type missing from the catalog is ignored; otherwise one node is appended
      at the mouse position relative to the canvas, with an id made from the type and the
      clock reading `stamp`.
    */
    method OnDrop(componentType: string, clientX: real, clientY: real, bounds: Position, stamp: int)
      modifies this
      ensures FindComponent(catalog, componentType).None? ==> nodes == old(nodes)
      ensures FindComponent(catalog, componentType).Some? ==>
        nodes == old(nodes) + [DroppedNode(FindComponent(catalog, componentType).value, componentType, stamp,
          Position(clientX - bounds.x, clientY - bounds.y))]
      ensures edges == old(edges) && catalog == old(catalog) && workflowName == old(workflowName)
      ensures workflowDescription == old(workflowDescription) && showSaveModal == old(showSaveModal) && isValid == old(isValid)
      ensures savedWorkflowId == old(savedWorkflowId) && selectedNode == old(selectedNode) && showConfigPanel == old(showConfigPanel)
    {
      var component := FindComponent(catalog, componentType);
      if component.None? {
        return;
      }
      var position := Position(clientX - bounds.x, clientY - bounds.y);
      var newNode := DroppedNode(component.value, componentType, stamp, position);
      nodes := nodes + [newNode];
    }

    /** `onNodeClick`: select the node and open the panel. */
    method OnNodeClick(node: Node)
      modifies this
      ensures selectedNode == Some(node) && showConfigPanel
      ensures nodes == old(nodes) && edges == old(edges) && catalog == old(catalog)
      ensures workflowName == old(workflowName) && workflowDescription == old(workflowDescription) && showSaveModal == old(showSaveModal)
      ensures isValid == old(isValid) && savedWorkflowId == old(savedWorkflowId)
    {
      selectedNode := Some(node);
      showConfigPanel := true;
    }

    /** `handleNodeConfigUpdate`: the config of the node with that id is replaced. */
    method HandleNodeConfigUpdate(nodeId: string, newConfig: Data)
      modifies this
      ensures nodes == ReplaceConfig(old(nodes), nodeId, newConfig)
      ensures edges == old(edges) && catalog == old(catalog) && workflowName == old(workflowName)
      ensures workflowDescription == old(workflowDescription) && showSaveModal == old(showSaveModal) && isValid == old(isValid)
      ensures savedWorkflowId == old(savedWorkflowId) && selectedNode == old(selectedNode) && showConfigPanel == old(showConfigPanel)
    {
      nodes := ReplaceConfig(nodes, nodeId, newConfig);
    }

    /** `handleCloseConfigPanel`: close the panel and clear the selection. */
    method HandleCloseConfigPanel()
      modifies this
      ensures selectedNode.None? && !showConfigPanel
      ensures nodes == old(nodes) && edges == old(edges) && catalog == old(catalog)
      ensures workflowName == old(workflowName) && workflowDescription == old(workflowDescription) && showSaveModal == old(showSaveModal)
      ensures isValid == old(isValid) && savedWorkflowId == old(savedWorkflowId)
    {
      showConfigPanel := false;
      selectedNode := None;
    }

    /** The Save button: disabled while the flag is false. */
    method PressSave()
      modifies this
      ensures showSaveModal == (old(showSaveModal) || isValid)
      ensures nodes == old(nodes) && edges == old(edges) && catalog == old(catalog)
      ensures workflowName == old(workflowName) && workflowDescription == old(workflowDescription) && isValid == old(isValid)
      ensures savedWorkflowId == old(savedWorkflowId) && selectedNode == old(selectedNode) && showConfigPanel == old(showConfigPanel)
    {
      if isValid {
        showSaveModal := true;
      }
    }

    /** The Test button: disabled while the flag is false, otherwise it runs `handleTestWorkflow`. */
    method PressTest() returns (alert: Option<string>)
      ensures !isValid ==> alert.None?
      ensures isValid ==> alert == Some(ComingSoonAlert)
    {
      if !isValid {
        return None;
      }
      alert := Some(TestAlert(isValid));
    }

    /**
      `handleSaveWorkflow`: a blank name only alerts; otherwise the canvas is posted
      (`request`), and `reply` is the created workflow's id or a failure. Success records
      the id, closes the form and clears the name and description.
    */
    method HandleSaveWorkflow(reply: Result<int, string>) returns (request: Option<SaveRequest>, alert: string)
      modifies this
      ensures IsBlank(old(workflowName)) ==>
        && request.None? && alert == NameAlert
        && savedWorkflowId == old(savedWorkflowId) && workflowName == old(workflowName)
        && workflowDescription == old(workflowDescription) && showSaveModal == old(showSaveModal)
      ensures !IsBlank(old(workflowName)) ==>
        request == Some(SaveRequest(old(workflowName), old(workflowDescription), SerializeNodes(nodes), SerializeEdges(edges)))
      ensures !IsBlank(old(workflowName)) && reply.Success? ==>
        && savedWorkflowId == Some(reply.value) && workflowName == "" && workflowDescription == "" && !showSaveModal
        && alert == SaveAlert
      ensures !IsBlank(old(workflowName)) && reply.Failure? ==>
        && savedWorkflowId == old(savedWorkflowId) && workflowName == old(workflowName)
        && workflowDescription == old(workflowDescription) && showSaveModal == old(showSaveModal)
        && alert == SaveErrorAlert
      ensures nodes == old(nodes) && edges == old(edges) && catalog == old(catalog)
      ensures isValid == old(isValid) && selectedNode == old(selectedNode) && showConfigPanel == old(showConfigPanel)
    {
      if IsBlank(workflowName) {
        return None, NameAlert;
      }
      request := Some(SaveRequest(workflowName, workflowDescription, SerializeNodes(nodes), SerializeEdges(edges)));
      if reply.Failure? {
        return request, SaveErrorAlert;
      }
      savedWorkflowId := Some(reply.value);
      alert := SaveAlert;
      showSaveModal := false;
      workflowName := "";
      workflowDescription := "";
    }
  }
}
