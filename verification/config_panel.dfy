/**
  The node configuration panel (frontend/src/components/workflow/ComponentConfigPanel.jsx):
  a local copy of the selected node's config, reset whenever the node changes; one field
  per schema property, whose shown value is the stored one unless that is null or
  missing; the widget chosen by the property's kind; and a change handler that sets one
  key and reports the whole new config to the editor.
*/
module ConfigPanel {
  import opened Wrappers
  import opened Text
  import opened Schema
  import opened Catalog
  import opened WorkflowBuilder

  // ---------------------------------------------------------------------------
  // Value resolution and widgets

  /** `config[key] ?? field.default`: only a missing key or a stored null falls back to the default. */
  function CurrentValue(config: Data, field: PropertySchema): (v: Value)
    ensures field.name in config && config[field.name] != VNull ==> v == config[field.name]
    ensures field.name !in config || config[field.name] == VNull ==> v == field.default
  {
    if field.name in config && config[field.name] != VNull then config[field.name] else field.default
  }

  /** A stored `false`, `0` or empty string is shown as stored, not replaced by the default. */
  lemma FalsyValueIsKept(config: Data, field: PropertySchema)
    requires field.name in config && config[field.name] in {VBool(false), VInt(0), VStr("")}
    ensures CurrentValue(config, field) == config[field.name]
  {
  }

  /** The input a property is edited with. */
  datatype Widget =
    | Choice(options: seq<string>)                       // `<select>` over the `enum`
    | TextBox(placeholder: Option<Value>)               // text box; a string field shows its default as placeholder
    | IntegerBox(minimum: Option<Value>, maximum: Option<Value>)
    | NumberBox(minimum: Option<Value>, maximum: Option<Value>)
    | Checkbox

  /** The `switch (field.type)` of `renderConfigField`. */
  function WidgetFor(field: PropertySchema): (w: Widget)
    ensures field.kind == "string" && field.choices.Some? ==> w == Choice(field.choices.value)
    ensures field.kind == "string" && field.choices.None? ==> w == TextBox(Some(field.default))
    ensures field.kind == "integer" ==> w == IntegerBox(field.minimum, field.maximum)
    ensures field.kind == "number" ==> w == NumberBox(field.minimum, field.maximum)
    ensures field.kind == "boolean" ==> w == Checkbox
    ensures field.kind !in {"string", "integer", "number", "boolean"} ==> w == TextBox(None)
  {
    match field.kind
    case "string" => if field.choices.Some? then Choice(field.choices.value) else TextBox(Some(field.default))
    case "integer" => IntegerBox(field.minimum, field.maximum)
    case "number" => NumberBox(field.minimum, field.maximum)
    case "boolean" => Checkbox
    case _ => TextBox(None)
  }

  /** `s.charAt(0).toUpperCase() + s.slice(1)` for ASCII letters. */
  function Capitalize(s: string): (r: string)
    ensures |r| == |s| && (|s| > 0 ==> r[1..] == s[1..])
    ensures |s| > 0 && 'a' <= s[0] <= 'z' ==> r[0] == (s[0] as int - 32) as char
  {
    if s == [] then []
    else [if 'a' <= s[0] <= 'z' then (s[0] as int - 32) as char else s[0]] + s[1..]
  }

  /** The field's label: its title, or the capitalised key when the title is empty. */
  function FieldLabel(field: PropertySchema): (caption: string)
    ensures field.title != "" ==> caption == field.title
    ensures field.title == "" ==> caption == Capitalize(field.name)
  {
    if field.title != "" then field.title else Capitalize(field.name)
  }

  // ---------------------------------------------------------------------------
  // Change events

  /** What a change event carries: `e.target.value` and `e.target.checked`. */
  datatype InputEvent = InputEvent(text: string, checked: bool)

  /**
    The value a widget's `onChange` hands to `handleConfigChange`: the text for select and
    text boxes, `parseInt` of it for integer boxes (NaN is stored as null, as it is sent),
    `parseFloat` of it (the given `parseFloat`) for number boxes, and the flag for checkboxes.
  */
  function ChangedValue(w: Widget, e: InputEvent, parseFloat: string -> Option<real>): (v: Value)
    ensures w.Choice? || w.TextBox? ==> v == VStr(e.text)
    ensures w.IntegerBox? ==> v == if JsParseInt(e.text).Some? then VInt(JsParseInt(e.text).value) else VNull
    ensures w.Checkbox? ==> v == VBool(e.checked)
  {
    match w
    case Choice(_) => VStr(e.text)
    case TextBox(_) => VStr(e.text)
    case IntegerBox(_, _) => (match JsParseInt(e.text) case Some(n) => VInt(n) case None => VNull)
    case NumberBox(_, _) => (match parseFloat(e.text) case Some(x) => VReal(x) case None => VNull)
    case Checkbox => VBool(e.checked)
  }

  /** An integer box keeps whatever number is typed: the bounds are only shown, never enforced. */
  lemma IntegerBoxIgnoresBounds(field: PropertySchema, n: int, checked: bool, parseFloat: string -> Option<real>)
    requires field.kind == "integer"
    ensures ChangedValue(WidgetFor(field), InputEvent(IntToString(n), checked), parseFloat) == VInt(n)
  {
    ParseIntOfIntToString(n);
  }

  /** `{ ...config, [key]: value }`. */
  function MergeConfig(config: Data, key: string, value: Value): (r: Data)
    ensures key in r && r[key] == value
    ensures forall k :: k in config && k != key ==> k in r && r[k] == config[k]
    ensures forall k :: k in r ==> k in config || k == key
  {
    config[key := value]
  }

  /** One rendered field: its key, label, widget and shown value. */
  datatype Field = Field(key: string, caption: string, widget: Widget, shown: Value)

  /** The fields `Object.entries(properties).map(...)` renders, one per property, in order. */
  function RenderFields(properties: seq<PropertySchema>, config: Data): (fields: seq<Field>)
    ensures |fields| == |properties|
    ensures forall i :: 0 <= i < |properties| ==>
      fields[i] == Field(properties[i].name, FieldLabel(properties[i]), WidgetFor(properties[i]), CurrentValue(config, properties[i]))
  {
    if properties == [] then []
    else
      var first := Field(properties[0].name, FieldLabel(properties[0]), WidgetFor(properties[0]), CurrentValue(config, properties[0]));
      [first] + RenderFields(properties[1..], config)
  }

  /** What the panel shows: nothing without a node, no fields without a schema. */
  function Render(node: Option<Node>, config: Data): (r: Option<seq<Field>>)
    ensures node.None? <==> r.None?
    ensures node.Some? && node.value.data.configSchema.None? ==> r == Some([])
    ensures node.Some? && node.value.data.configSchema.Some? ==>
      r.Some? && |r.value| == |node.value.data.configSchema.value|
    ensures node.Some? && node.value.data.configSchema.Some? ==>
      r == Some(RenderFields(node.value.data.configSchema.value, config))
  {
    if node.None? then None
    else if node.value.data.configSchema.None? then Some([])
    else Some(RenderFields(node.value.data.configSchema.value, config))
  }

  /** `node?.data?.config || {}`. */
  function InitialConfig(node: Option<Node>): (config: Data)
    ensures node.Some? && node.value.data.config.Some? ==> config == node.value.data.config.value
    ensures node.None? || node.value.data.config.None? ==> config == map[]
  {
    if node.Some? && node.value.data.config.Some? then node.value.data.config.value else map[]
  }

  // ---------------------------------------------------------------------------
  // The panel's state

  class ConfigPanelState {
    var node: Option<Node>
    var config: Data

    constructor(node: Option<Node>)
      ensures this.node == node && config == InitialConfig(node)
    {
      this.node := node;
      config := InitialConfig(node);
    }

    /** The effect on `[node]`: a new node resets the local config from it. */
    method NodeChanged(newNode: Option<Node>)
      modifies this
      ensures node == newNode && config == InitialConfig(newNode)
    {
      node := newNode;
      config := InitialConfig(newNode);
    }

    /**
      `handleConfigChange`: sets one key and passes the node id with the same new map to
      `onUpdate`, which is returned. The handler only exists while a node is shown.
    */
    method HandleConfigChange(key: string, value: Value) returns (nodeId: string, newConfig: Data)
      requires node.Some?
      modifies this
      ensures config == MergeConfig(old(config), key, value) && node == old(node)
      ensures nodeId == node.value.id && newConfig == config
    {
      newConfig := config[key := value];
      config := newConfig;
      nodeId := node.value.id;
    }
  }

  /**
    Handing the panel's update to the editor: the selected node's stored config becomes the
    panel's new map, so the editor's serialised data for it is that map.
  */
  lemma PanelUpdateReachesEditor(nodes: seq<Node>, i: nat, nodeId: string, newConfig: Data)
    requires i < |nodes| && nodes[i].id == nodeId
    ensures SerializeNodes(ReplaceConfig(nodes, nodeId, newConfig))[i].data == newConfig
  {
  }
}
