/**
 * The tool catalogue that the AI session advertises in its `session.update`
 * (packages/agent-config/src/tools.ts): a constant table of two function tools.
 */
module AgentTools {
  import opened Shared

  /** One JSON-schema property of a tool's parameters. */
  datatype PropertySchema = PropertySchema(
    schemaType: string,
    description: string,
    enumValues: Option<seq<string>>)

  /** The `parameters` object of a tool: an object schema with optional `required`. */
  datatype Parameters = Parameters(
    schemaType: string,
    properties: map<string, PropertySchema>,
    required: Option<seq<string>>)

  datatype ToolDefinition = ToolDefinition(
    toolType: string,
    name: string,
    description: string,
    parameters: Parameters)

  const TAKE_MESSAGE := ToolDefinition(
    "function",
    "take_message",
    "Record a message from the caller to be delivered to the owner",
    Parameters(
      "object",
      map[
        "caller_name" := PropertySchema("string", "Name of the person calling", None),
        "caller_company" := PropertySchema("string", "Company the caller represents (if any)", None),
        "callback_number" := PropertySchema("string", "Phone number to call back", None),
        "message" := PropertySchema("string", "The message content", None),
        "urgency" := PropertySchema("string", "How urgent is this message", Some(["low", "medium", "high"]))
      ],
      Some(["caller_name", "message"])))

  const END_CALL := ToolDefinition(
    "function",
    "end_call",
    "End the call politely after the conversation is complete",
    Parameters(
      "object",
      map["reason" := PropertySchema("string", "Reason for ending the call", None)],
      None))

  const TOOLS: seq<ToolDefinition> := [TAKE_MESSAGE, END_CALL]

  /** The names of a list of tools, in order. */
  function ToolNames(tools: seq<ToolDefinition>): (names: seq<string>)
    ensures |names| == |tools|
    ensures forall i :: 0 <= i < |tools| ==> names[i] == tools[i].name
  {
    if tools == [] then [] else [tools[0].name] + ToolNames(tools[1..])
  }

  /** Every name listed under `required` is one of the declared properties. */
  predicate RequiredAreDeclared(p: Parameters) {
    p.required.Some? ==> forall i :: 0 <= i < |p.required.value| ==> p.required.value[i] in p.properties
  }

  /** The catalogue holds exactly `take_message` then `end_call`, so its names are distinct. */
  lemma CatalogueNames()
    ensures ToolNames(TOOLS) == ["take_message", "end_call"]
    ensures forall i, j :: 0 <= i < j < |TOOLS| ==> TOOLS[i].name != TOOLS[j].name
  {
    assert ToolNames(TOOLS)[0] == TOOLS[0].name;
    assert ToolNames(TOOLS)[1] == TOOLS[1].name;
  }

  /** Every tool is a `function` whose parameters form an `object` schema naming only declared required fields. */
  lemma CatalogueShape()
    ensures forall t :: t in TOOLS ==>
      t.toolType == "function" && t.parameters.schemaType == "object" && RequiredAreDeclared(t.parameters)
  {
  }

  /** `take_message` requires exactly `caller_name` and `message`; `urgency` is one of low, medium, high. */
  lemma TakeMessageSchema()
    ensures TOOLS[0].name == "take_message"
    ensures TOOLS[0].parameters.required == Some(["caller_name", "message"])
    ensures TOOLS[0].parameters.properties.Keys
      == {"caller_name", "caller_company", "callback_number", "message", "urgency"}
    ensures TOOLS[0].parameters.properties["urgency"].enumValues == Some(["low", "medium", "high"])
  {
  }

  /** `end_call` takes the single optional property `reason` and has no required list. */
  lemma EndCallSchema()
    ensures TOOLS[1].name == "end_call"
    ensures TOOLS[1].parameters.properties.Keys == {"reason"}
    ensures TOOLS[1].parameters.required == None
  {
  }
}
