/** Which tools the registry knows, and how a descriptor or a call resolves against it. */
module ToolSemantics {
  import opened Values

  datatype Semantics = Semantics(
    toolName: string, exposedName: string, inputSchemaHash: string, toolClass: string, defaultAllow: bool,
    requiresSimulation: bool, requiredFields: seq<string>, requiredEvidence: seq<string>)

  datatype Class = Private | Dangerous | Plain

  /** An upstream tool; an empty hash is an absent one. */
  datatype Descriptor = Descriptor(name: string, schema: Option<Value>, snakeHash: string, camelHash: string)

  /** The registry, the unsupported names, the name patterns and the schema hash the program is built with.
      `classify` looks at the name and at the schema's property names. */
  datatype Catalog = Catalog(
    registry: map<string, Semantics>, unsupported: set<string>,
    classify: (string, Option<Value>) -> Class, schemaHash: Value -> string)

  datatype Resolution = Visible(toolName: string, semantics: Semantics) | Hidden(code: string)

  function Named(name: string): Descriptor {
    Descriptor(name, None, "", "")
  }

  function HashOf(d: Descriptor): string {
    if d.snakeHash != "" then d.snakeHash else d.camelHash
  }

  function Resolve(c: Catalog, d: Descriptor): Resolution {
    if d.name in c.unsupported then Hidden("UNSUPPORTED_TOOL")
    else
      var class_ := c.classify(d.name, d.schema);
      if class_.Private? then Hidden("PRIVATE_KEY_MANAGEMENT_BLOCKED")
      else if d.name !in c.registry then Hidden(if class_.Dangerous? then "DANGEROUS_TOOL_BLOCKED" else "UNMAPPED_TOOL")
      else if HashOf(d) == "" || HashOf(d) != c.registry[d.name].inputSchemaHash then Hidden("SCHEMA_DRIFT")
      else Visible(d.name, c.registry[d.name])
  }

  /** resolveCallByName */
  function ResolveCall(c: Catalog, name: string, inputSchemaHash: string): Resolution {
    Resolve(c, Descriptor(name, None, inputSchemaHash, ""))
  }

  /** A tool is visible exactly when the registry holds it under the very schema hash presented and neither
      the unsupported list nor the private-key patterns name it. */
  lemma VisibleIff(c: Catalog, d: Descriptor)
    ensures Resolve(c, d).Visible? <==>
              d.name !in c.unsupported && !c.classify(d.name, d.schema).Private? && d.name in c.registry &&
              HashOf(d) != "" && HashOf(d) == c.registry[d.name].inputSchemaHash
    ensures Resolve(c, d).Visible? ==> Resolve(c, d) == Visible(d.name, c.registry[d.name])
  {
  }

  /** The code of a hidden tool says why: unsupported first, then the private-key patterns, then a name the registry
      does not know, dangerous or not, then another schema hash. */
  lemma HiddenAs(c: Catalog, d: Descriptor)
    ensures var (r, class_) := (Resolve(c, d), c.classify(d.name, d.schema));
            && (r == Hidden("UNSUPPORTED_TOOL") <==> d.name in c.unsupported)
            && (r == Hidden("PRIVATE_KEY_MANAGEMENT_BLOCKED") <==> d.name !in c.unsupported && class_.Private?)
            && (r == Hidden("DANGEROUS_TOOL_BLOCKED") <==> d.name !in c.unsupported && class_.Dangerous? && d.name !in c.registry)
            && (r == Hidden("UNMAPPED_TOOL") <==> d.name !in c.unsupported && class_.Plain? && d.name !in c.registry)
            && (r == Hidden("SCHEMA_DRIFT") <==>
                  d.name !in c.unsupported && !class_.Private? && d.name in c.registry &&
                  (HashOf(d) == "" || HashOf(d) != c.registry[d.name].inputSchemaHash))
  {
    assert |"UNSUPPORTED_TOOL"| == 16 && |"PRIVATE_KEY_MANAGEMENT_BLOCKED"| == 30 && |"DANGEROUS_TOOL_BLOCKED"| == 22;
    assert |"UNMAPPED_TOOL"| == 13 && |"SCHEMA_DRIFT"| == 12;
  }

  lemma CallSemantics(c: Catalog, name: string, hash: string)
    ensures var r := ResolveCall(c, name, hash); r.Visible? ==> name in c.registry && r.semantics == c.registry[name]
  {
    VisibleIff(c, Descriptor(name, None, hash, ""));
  }

  /** The registry is keyed by tool name, and shows each tool to the host under that name. */
  predicate WellKeyed(c: Catalog) {
    forall n | n in c.registry :: c.registry[n].toolName == n && c.registry[n].exposedName == n
  }
}
