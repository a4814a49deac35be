// Why the meaning theorem asks for clean names: a definition that shares its
// name with a model under construction is never built, and references to it
// mean that model instead.
module NameCollisions {
  import opened Wrappers
  import opened JsonValues
  import opened SchemaShape
  import opened SchemaMeaning
  import opened SchemaFragment
  import opened ModelTable
  import opened Translation
  import opened ModelBuilder

  const StringNode := Obj([Member("type", Str("string"))])
  const Named := Obj([Member("properties", Obj([Member("y", StringNode)])), Member("type", Str("object"))])
  const Reference := Obj([Member("$ref", Str("#/$defs/R"))])
  const Defs := [Member("R", Named)]

  // A document loaded under the name of its own definition.
  const Document := Obj([Member("$defs", Obj(Defs)), Member("properties", Obj([Member("x", Reference)])),
                         Member("type", Str("object"))])

  lemma InDocument(key: string)
    ensures Lookup(Document.members, key)
         == if key == "$defs" then Some(Obj(Defs))
            else if key == "properties" then Some(Obj([Member("x", Reference)]))
            else if key == "type" then Some(Str("object")) else None
  {
    LookupThree(Document.members[0], Document.members[1], Document.members[2], key);
  }

  lemma InNamed(key: string)
    ensures Lookup(Named.members, key)
         == if key == "properties" then Some(Obj([Member("y", StringNode)]))
            else if key == "type" then Some(Str("object")) else None
  {
    LookupTwo(Named.members[0], Named.members[1], key);
  }

  lemma DocumentParts()
    ensures Definitions(Document) == Some(Defs)
    ensures Properties(Document) == Some([Member("x", Reference)]) && RequiredNames(Document) == Some({})
  {
    InDocument("$defs");
    InDocument("properties");
    InDocument("required");
    hide Lookup;
    assert Truthy(Obj(Defs)) && Truthy(Obj([Member("x", Reference)]));
  }

  lemma ReferenceParts()
    ensures ShapeOf(Reference) == Ref("#/$defs/R") && LocalName("#/$defs/R") == Some("R")
  {
    LookupOne(Reference.members[0], "$ref");
    assert "#/$defs/R"[..8] == "#/$defs/" && "#/$defs/R"[8..] == "R";
  }

  lemma NamedParts()
    ensures Lookup(Defs, "R") == Some(Named) && IsObjectDef(Named)
    ensures Properties(Named) == Some([Member("y", StringNode)])
  {
    LookupOne(Defs[0], "R");
    InNamed("properties");
    InNamed("type");
  }

  lemma StringParts()
    ensures ShapeOf(StringNode) == Tokens([Str("string")])
  {
    LookupOne(StringNode.members[0], "$ref");
    LookupOne(StringNode.members[0], "anyOf");
    LookupOne(StringNode.members[0], "oneOf");
    LookupOne(StringNode.members[0], "enum");
    LookupOne(StringNode.members[0], "type");
  }

  lemma Ends()
    ensures Grounded(Defs, {"R"}, 0, Document)
  {
    DocumentParts();
    ReferenceParts();
    NamedParts();
    StringParts();
    hide Lookup, Properties, LocalName, IsObjectDef, ShapeOf;
    assert Halts(Defs, {"R"}, 0, Reference);
    assert Halts(Defs, {"R"}, 0, StringNode);
    LookupOne(Defs[0], "R");
    assert forall name :: Has(Defs, name) && name in {"R"} ==> name == "R";
  }

  lemma SupportedReference()
    ensures Supported(Defs, Reference)
  {
    ReferenceParts();
    NamedParts();
  }

  lemma ObjectShape(node: Json)
    requires node == Document || node == Named
    ensures ShapeOf(node) == Tokens([Str("object")])
    ensures NoRef(node.members) && NoAlternatives(node.members) && NoEnum(node.members) && !Has(node.members, "items")
  {
    InDocument("$ref");
    InDocument("anyOf");
    InDocument("oneOf");
    InDocument("enum");
    InDocument("type");
    InDocument("items");
    InNamed("$ref");
    InNamed("anyOf");
    InNamed("oneOf");
    InNamed("enum");
    InNamed("type");
    InNamed("items");
    hide Lookup;
  }

  // Apart from its name the document is one the builder is meant for.
  lemma CollisionIsSupported()
    ensures SupportedDocument(Defs, {"R"}, Document)
  {
    ObjectShape(Document);
    ObjectShape(Named);
    NamedKeywords();
    DocumentKeywords();
    ObjectSupported(Document);
    ObjectSupported(Named);
    NamedParts();
    LookupOne(Defs[0], "R");
    hide ShapeOf, Properties, ObjectKeywords, Supported, IsObjectDef;
    assert SupportedDef(Defs, Named);
  }

  lemma ObjectSupported(node: Json)
    requires node.Obj? && ShapeOf(node) == Tokens([Str("object")]) && ObjectKeywords(Defs, node)
    requires NoRef(node.members) && NoAlternatives(node.members) && NoEnum(node.members)
    ensures Supported(Defs, node)
  {
    assert Str("object") in [Str("object")] && Str("array") !in [Str("object")];
    hide ShapeOf, Lookup;
  }

  lemma SupportedString()
    ensures Supported(Defs, StringNode)
  {
    StringParts();
    LookupOne(StringNode.members[0], "properties");
    LookupOne(StringNode.members[0], "required");
    LookupOne(StringNode.members[0], "items");
    LookupOne(StringNode.members[0], "$ref");
    LookupOne(StringNode.members[0], "anyOf");
    LookupOne(StringNode.members[0], "oneOf");
    LookupOne(StringNode.members[0], "enum");
    assert Str("string") in [Str("string")];
    hide Lookup, ShapeOf;
  }

  lemma NamedKeywords()
    ensures ObjectKeywords(Defs, Named)
  {
    SupportedString();
    NamedParts();
    InNamed("properties");
    InNamed("required");
    assert Properties(Named).value[0].key == "y";
    hide Lookup, Supported, Properties;
  }

  lemma DocumentKeywords()
    ensures ObjectKeywords(Defs, Document)
  {
    SupportedReference();
    InDocument("properties");
    InDocument("required");
    hide Lookup, Supported, Properties;
  }

  // An object the definition refuses, and one that has it as its "x".
  const Inner := Obj([Member("y", Num(1.0))])
  const Outer := Obj([Member("x", Inner)])

  lemma InnerIsNotNamed()
    ensures !Valid(Defs, Named, Inner, {"R"})
  {
    InNamed("properties");
    LookupOne(Member("y", Num(1.0)), "y");
    LookupOne(StringNode.members[0], "type");
    assert !TypeHolds(Str("string"), Num(1.0));
    assert !Valid(Defs, StringNode, Num(1.0), {});
    assert [Member("y", StringNode)][0].value == StringNode;
    assert !PropertiesHold(Defs, Named.members, Inner);
  }

  lemma InnerIsNotReferred()
    ensures !Valid(Defs, Reference, Inner, {})
  {
    InnerIsNotNamed();
    NamedParts();
    ReferenceParts();
    LookupOne(Reference.members[0], "$ref");
    assert {} + {"R"} == {"R"};
    assert !RefHolds(Defs, "#/$defs/R", Inner, {});
  }

  lemma OuterIsNotDocument()
    ensures !Valid(Defs, Document, Outer, {})
  {
    LookupOne(Member("x", Inner), "x");
    InnerIsNotReferred();
    InDocument("properties");
    assert [Member("x", Reference)][0].value == Reference;
    assert !PropertiesHold(Defs, Document.members, Outer);
  }

  // Whatever table is built, its "x" is the root itself, so it accepts a value
  // the document does not allow.
  lemma CollisionChangesMeaning(c: Context, table: Table, origin: map<string, Json>)
    requires c.defs == Defs && c.document == Document && c.root == "R" && c.depth == 0
    requires "R" in table && TranslatesDocument(c, table, origin) && origin["R"] == Document
    ensures TypeAccepts(table, ModelType("R"), Outer) && !Valid(Defs, Document, Outer, {})
  {
    DocumentParts();
    ReferenceParts();
    OuterIsNotDocument();
    assert ModelTranslates(c, 0, Document, table["R"], origin);
    hide Lookup, Valid, ShapeOf, Properties, RequiredNames, LocalName;
    var x := table["R"][0];
    assert [Member("x", Reference)][0] == Member("x", Reference);
    assert x.name == "x" && !x.required && Translates(c, 0, Reference, x.typ, origin);
    assert x.typ == ModelType("R") || x.typ == ForwardRef("R");
    OuterAccepted(table);
  }

  lemma OuterAccepted(table: Table)
    requires "R" in table && |table["R"]| == 1
    requires var x := table["R"][0];
             x.name == "x" && !x.required && (x.typ == ModelType("R") || x.typ == ForwardRef("R"))
    ensures TypeAccepts(table, ModelType("R"), Outer)
  {
    LookupOne(Member("x", Inner), "x");
    LookupOne(Member("y", Num(1.0)), "x");
    assert ModelAccepts(table, table["R"], Inner);
    assert TypeAccepts(table, table["R"][0].typ, Inner);
  }

  // The document loaded under the name of its definition: the root reserves
  // the name, so the definition is never built.
  method BuildDocument(capitalize: string -> string) returns (table: Table)
    ensures TypeAccepts(table, ModelType("R"), Outer) && !Valid(Defs, Document, Outer, {})
  {
    Ends();
    DocumentParts();
    OneChoice(Document, Defs, {"R"}, 0);
    CollisionIsSupported();
    assert Document.Obj?;
    hide *;
    var res, order;
    ghost var c, origin;
    res, order, c, origin := BuildModelFromSchema(Document, "R", capitalize, {"R"}, 0);
    Supports(c);
    table := res.value;
    CollisionChangesMeaning(c, table, origin);
  }

  lemma Supports(c: Context)
    requires c.defs == Defs && c.document == Document && c.live == {"R"}
    ensures IsSupported(c)
  {
    CollisionIsSupported();
  }
}
