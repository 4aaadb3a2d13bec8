/**
 * The tool registry: the tools the tool server lists once at start-up,
 * projected into the function declarations the language model expects.
 */
module Registry {
  import opened Wire

  /**
   * The input schema a tool declares. Each property's own schema is kept as
   * its JSON text: the projection copies it without looking inside.
   */
  datatype InputSchema = InputSchema(
    schemaType: string,
    properties: Option<map<string, string>>,
    required: Option<seq<string>>)

  /** A tool as the tool server lists it. */
  datatype Tool = Tool(name: string, description: Option<string>, inputSchema: InputSchema)

  /** The parameter block of a function declaration. */
  datatype Parameters = Parameters(
    schemaType: string,
    properties: Option<map<string, string>>,
    required: Option<seq<string>>)

  /** A tool as the language model's function-calling configuration declares it. */
  datatype FunctionDeclaration = FunctionDeclaration(name: string, description: Option<string>, parameters: Parameters)

  /** `d` copies the name, the description and the schema's type, properties and required list of `t`. */
  predicate Describes(d: FunctionDeclaration, t: Tool)
  {
    && d.name == t.name
    && d.description == t.description
    && d.parameters.schemaType == t.inputSchema.schemaType
    && d.parameters.properties == t.inputSchema.properties
    && d.parameters.required == t.inputSchema.required
  }

  /** The declaration of one listed tool. */
  function Declare(t: Tool): (d: FunctionDeclaration)
    ensures Describes(d, t)
  {
    FunctionDeclaration(
      t.name,
      t.description,
      Parameters(t.inputSchema.schemaType, t.inputSchema.properties, t.inputSchema.required))
  }

  /** The registry: one declaration per listed tool, in the order the server listed them. */
  function Declarations(tools: seq<Tool>): (decls: seq<FunctionDeclaration>)
    ensures |decls| == |tools|
    ensures forall i :: 0 <= i < |tools| ==> Describes(decls[i], tools[i])
  {
    if tools == [] then [] else [Declare(tools[0])] + Declarations(tools[1..])
  }

  /** The names a registry declares. */
  function Names(decls: seq<FunctionDeclaration>): seq<string>
  {
    if decls == [] then [] else [decls[0].name] + Names(decls[1..])
  }

  /** The names of the listed tools. */
  function ToolNames(tools: seq<Tool>): seq<string>
  {
    if tools == [] then [] else [tools[0].name] + ToolNames(tools[1..])
  }

  /** The model is offered exactly the listed tool names, in the listed order. */
  lemma {:induction false} DeclaredNames(tools: seq<Tool>)
    ensures Names(Declarations(tools)) == ToolNames(tools)
  {
    if tools != [] {
      DeclaredNames(tools[1..]);
    }
  }

  /** Listing two batches of tools gives the two batches' declarations, one after the other. */
  lemma DeclarationsAppend(a: seq<Tool>, b: seq<Tool>)
    ensures Declarations(a + b) == Declarations(a) + Declarations(b)
  {
  }
}
