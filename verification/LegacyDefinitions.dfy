// A document that keeps its definitions under "definitions", as drafts before
// 2019-09 did: the builder resolves its references and reads it faithfully.
module LegacyDefinitions {
  import opened Wrappers
  import opened JsonValues
  import opened SchemaShape
  import opened SchemaMeaning
  import opened SchemaFragment
  import opened ModelTable
  import opened Translation
  import opened ModelNames
  import opened ModelBuilder
  import NC = NameCollisions

  const Reference := Obj([Member("$ref", Str("#/definitions/R"))])
  const Legacy := Obj([Member("definitions", Obj(NC.Defs)), Member("properties", Obj([Member("x", Reference)])),
                       Member("type", Str("object"))])

  const Inner := Obj([Member("y", Str("s"))])
  const Right := Obj([Member("x", Inner)])

  lemma InLegacy(key: string)
    ensures Lookup(Legacy.members, key)
         == if key == "definitions" then Some(Obj(NC.Defs))
            else if key == "properties" then Some(Obj([Member("x", Reference)]))
            else if key == "type" then Some(Str("object")) else None
  {
    LookupThree(Legacy.members[0], Legacy.members[1], Legacy.members[2], key);
  }

  lemma LegacyParts()
    ensures Definitions(Legacy) == Some(NC.Defs)
    ensures Properties(Legacy) == Some([Member("x", Reference)])
  {
    InLegacy("$defs");
    InLegacy("definitions");
    InLegacy("properties");
    hide Lookup;
    assert Truthy(Obj(NC.Defs)) && Truthy(Obj([Member("x", Reference)]));
  }

  lemma ReferenceParts()
    ensures ShapeOf(Reference) == Ref("#/definitions/R") && LocalName("#/definitions/R") == Some("R")
  {
    LookupOne(Reference.members[0], "$ref");
    assert "#/definitions/R"[2] == 'd' && "#/$defs/"[2] == '$';
    assert "#/definitions/R"[..14] == "#/definitions/" && "#/definitions/R"[14..] == "R";
  }

  lemma Ends()
    ensures Grounded(NC.Defs, {"R"}, 0, Legacy)
  {
    LegacyParts();
    ReferenceParts();
    NC.NamedParts();
    NC.StringParts();
    hide Lookup, Properties, LocalName, IsObjectDef, ShapeOf;
    assert Halts(NC.Defs, {"R"}, 0, Reference);
    assert Halts(NC.Defs, {"R"}, 0, NC.StringNode);
    LookupOne(NC.Defs[0], "R");
    assert forall name :: Has(NC.Defs, name) && name in {"R"} ==> name == "R";
  }

  lemma LegacyShape()
    ensures ShapeOf(Legacy) == Tokens([Str("object")])
    ensures NoRef(Legacy.members) && NoAlternatives(Legacy.members) && NoEnum(Legacy.members)
    ensures !Has(Legacy.members, "items")
  {
    InLegacy("$ref");
    InLegacy("anyOf");
    InLegacy("oneOf");
    InLegacy("enum");
    InLegacy("type");
    InLegacy("items");
    hide Lookup;
  }

  lemma SupportedReference()
    ensures Supported(NC.Defs, Reference)
  {
    ReferenceParts();
    NC.NamedParts();
  }

  lemma LegacyKeywords()
    ensures ObjectKeywords(NC.Defs, Legacy)
  {
    SupportedReference();
    InLegacy("properties");
    InLegacy("required");
    hide Lookup, Supported, Properties;
  }

  lemma LegacyIsSupported()
    ensures SupportedDocument(NC.Defs, {"R"}, Legacy)
  {
    LegacyShape();
    NC.ObjectShape(NC.Named);
    NC.NamedKeywords();
    LegacyKeywords();
    NC.ObjectSupported(Legacy);
    NC.ObjectSupported(NC.Named);
    NC.NamedParts();
    LookupOne(NC.Defs[0], "R");
    hide ShapeOf, Properties, ObjectKeywords, Supported, IsObjectDef;
    assert SupportedDef(NC.Defs, NC.Named);
  }

  lemma Loads(c: Context)
    requires c.defs == NC.Defs && c.document == Legacy && c.live == {"R"} && c.root == "M"
    ensures IsSupported(c) && CleanNames(c)
  {
    LegacyIsSupported();
    hide SupportedDocument;
    LookupOne(NC.Defs[0], "R");
    forall d | d in Keys(NC.Defs) ensures d == "R" { assert d == NC.Defs[0].key; }
    KeysAreLookups(NC.Defs, "R");
    assert Keys(NC.Defs) == {"R"};
    forall d | d in Keys(c.defs)
      ensures !IsInlineName(c.capitalize, c.document, c.root, Keys(c.defs), d)
    {
      assert d[..0] == "";
      assert !IsInlineName(c.capitalize, c.document, c.root, Keys(c.defs), "");
      assert !IsParentName(c.capitalize, c.document, c.root, Keys(c.defs), "");
    }
  }

  lemma StringAllowed()
    ensures Valid(NC.Defs, NC.StringNode, Str("s"), {})
  {
    var m := NC.StringNode.members[0];
    LookupOne(m, "$ref");
    LookupOne(m, "anyOf");
    LookupOne(m, "oneOf");
    LookupOne(m, "enum");
    LookupOne(m, "type");
    LookupOne(m, "properties");
    LookupOne(m, "required");
    LookupOne(m, "items");
    hide Lookup;
    assert TypeHolds(Str("string"), Str("s"));
  }

  lemma InnerHolds()
    ensures PropertiesHold(NC.Defs, NC.Named.members, Inner)
  {
    StringAllowed();
    NC.InNamed("properties");
    LookupOne(Member("y", Str("s")), "y");
    hide Lookup, Valid;
  }

  lemma InnerAllowed()
    ensures Valid(NC.Defs, NC.Named, Inner, {"R"})
  {
    InnerHolds();
    NC.ObjectShape(NC.Named);
    NC.InNamed("type");
    NC.InNamed("required");
    hide Lookup, ShapeOf, PropertiesHold;
    assert TypeHolds(Str("object"), Inner);
  }

  lemma ReferenceAllows()
    ensures Valid(NC.Defs, Reference, Inner, {})
  {
    InnerAllowed();
    NC.NamedParts();
    ReferenceParts();
    var m := Reference.members[0];
    LookupOne(m, "$ref");
    LookupOne(m, "anyOf");
    LookupOne(m, "oneOf");
    LookupOne(m, "enum");
    LookupOne(m, "type");
    LookupOne(m, "properties");
    LookupOne(m, "required");
    LookupOne(m, "items");
    hide Lookup, LocalName, ShapeOf, IsObjectDef, Properties;
    assert {} + {"R"} == {"R"};
    assert RefHolds(NC.Defs, "#/definitions/R", Inner, {}) by { hide PropertiesHold; }
  }

  lemma RightHolds()
    ensures PropertiesHold(NC.Defs, Legacy.members, Right)
  {
    ReferenceAllows();
    InLegacy("properties");
    LookupOne(Member("x", Inner), "x");
    hide Lookup, Valid;
  }

  lemma RightIsAllowed()
    ensures Valid(NC.Defs, Legacy, Right, {})
  {
    RightHolds();
    LegacyShape();
    InLegacy("type");
    InLegacy("required");
    hide Lookup, ShapeOf, PropertiesHold;
    assert TypeHolds(Str("object"), Right);
  }

  lemma ReferenceRefuses()
    ensures !Valid(NC.Defs, Reference, NC.Inner, {})
  {
    NC.InnerIsNotNamed();
    NC.NamedParts();
    ReferenceParts();
    LookupOne(Reference.members[0], "$ref");
    assert {} + {"R"} == {"R"};
    assert !RefHolds(NC.Defs, "#/definitions/R", NC.Inner, {});
  }

  lemma OuterIsNotAllowed()
    ensures !Valid(NC.Defs, Legacy, NC.Outer, {})
  {
    ReferenceRefuses();
    LookupOne(Member("x", NC.Inner), "x");
    InLegacy("properties");
    assert [Member("x", Reference)][0].value == Reference;
    assert !PropertiesHold(NC.Defs, Legacy.members, NC.Outer);
  }

  method BuildLegacy(capitalize: string -> string) returns (table: Table)
    ensures "M" in table && TypeAccepts(table, ModelType("M"), Right) && !TypeAccepts(table, ModelType("M"), NC.Outer)
  {
    Ends();
    LegacyParts();
    OneChoice(Legacy, NC.Defs, {"R"}, 0);
    RightIsAllowed();
    OuterIsNotAllowed();
    assert Legacy.Obj?;
    hide *;
    var res, order;
    ghost var c, origin;
    res, order, c, origin := BuildModelFromSchema(Legacy, "M", capitalize, {"R"}, 0);
    Loads(c);
    table := res.value;
  }
}
