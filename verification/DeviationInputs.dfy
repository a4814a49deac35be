// Two documents the builder accepts, each with a value that its model accepts
// although the schema does not allow it.
module DeviationInputs {
  import opened Wrappers
  import opened JsonValues
  import opened SchemaShape
  import opened SchemaMeaning
  import opened SchemaFragment
  import opened ModelTable
  import opened Translation
  import opened ModelBuilder

  lemma NoDefinitions(document: Json)
    requires document.Obj? && !Has(document.members, "$defs") && !Has(document.members, "definitions")
    ensures Definitions(document) == Some([])
  {
  }

  // ---- a required name that no property declares --------------------------------

  const Undeclared := Obj([Member("required", Arr([Str("y")])), Member("type", Str("object"))])

  lemma InUndeclared(key: string)
    ensures Lookup(Undeclared.members, key)
         == if key == "required" then Some(Arr([Str("y")])) else if key == "type" then Some(Str("object")) else None
  {
    LookupTwo(Undeclared.members[0], Undeclared.members[1], key);
  }

  lemma UndeclaredParts()
    ensures Definitions(Undeclared) == Some([]) && Properties(Undeclared) == Some([])
    ensures RequiredNames(Undeclared).Some?
    ensures Grounded([], {}, 0, Undeclared) && BuildableDocument([], {}, Undeclared)
  {
    InUndeclared("$defs");
    InUndeclared("definitions");
    InUndeclared("properties");
    InUndeclared("required");
    NoDefinitions(Undeclared);
    hide Lookup;
  }

  lemma EmptyIsNotValid()
    ensures !Valid([], Undeclared, Obj([]), {})
  {
    InUndeclared("required");
    assert [Str("y")][0] == Str("y");
    assert !RequiredHolds(Undeclared.members, Obj([]));
  }

  lemma EmptyIsAccepted(c: Context, table: Table, origin: map<string, Json>, name: string)
    requires name in table && TranslatesDocument(c, table, origin) && origin[name] == Undeclared
    ensures TypeAccepts(table, ModelType(name), Obj([]))
  {
    UndeclaredParts();
    assert ModelTranslates(c, c.depth, Undeclared, table[name], origin);
    assert |table[name]| == 0;
    assert ModelAccepts(table, table[name], Obj([]));
  }

  method BuildUndeclared(name: string, capitalize: string -> string) returns (table: Table)
    ensures TypeAccepts(table, ModelType(name), Obj([])) && !Valid([], Undeclared, Obj([]), {})
  {
    UndeclaredParts();
    OneChoice(Undeclared, [], {}, 0);
    EmptyIsNotValid();
    assert Undeclared.Obj?;
    hide *;
    var res, order;
    ghost var c, origin;
    res, order, c, origin := BuildModelFromSchema(Undeclared, name, capitalize, {}, 0);
    Builds(c);
    table := res.value;
    EmptyIsAccepted(c, table, origin, name);
  }

  lemma Builds(c: Context)
    requires BuildableDocument(c.defs, c.live, c.document)
    ensures IsBuildable(c)
  {
  }

  // ---- "oneOf" whose alternatives overlap ----------------------------------------

  const NumberNode := Obj([Member("type", Str("number"))])
  const IntegerNode := Obj([Member("type", Str("integer"))])
  const Choice := Obj([Member("oneOf", Arr([NumberNode, IntegerNode]))])
  const Overlapping := Obj([Member("properties", Obj([Member("x", Choice)])), Member("type", Str("object"))])

  // An integer is a number too.
  const One := Obj([Member("x", Num(1.0))])

  lemma InOverlapping(key: string)
    ensures Lookup(Overlapping.members, key)
         == if key == "properties" then Some(Obj([Member("x", Choice)]))
            else if key == "type" then Some(Str("object")) else None
  {
    LookupTwo(Overlapping.members[0], Overlapping.members[1], key);
  }

  lemma TypeOnly(token: string)
    requires token in PRIMITIVES
    ensures ShapeOf(Obj([Member("type", Str(token))])) == Tokens([Str(token)])
  {
    var m := Member("type", Str(token));
    LookupOne(m, "$ref");
    LookupOne(m, "anyOf");
    LookupOne(m, "oneOf");
    LookupOne(m, "enum");
    LookupOne(m, "type");
  }

  lemma ChoiceShape()
    ensures ShapeOf(Choice) == Union([NumberNode, IntegerNode])
  {
    LookupOne(Choice.members[0], "$ref");
    LookupOne(Choice.members[0], "anyOf");
    LookupOne(Choice.members[0], "oneOf");
  }

  lemma PrimitiveParts(token: string)
    requires token in PRIMITIVES
    ensures var node := Obj([Member("type", Str(token))]);
            Halts([], {}, 0, node) && Buildable([], node)
  {
    TypeOnly(token);
    hide ShapeOf;
  }

  lemma OverlappingParts()
    ensures Definitions(Overlapping) == Some([]) && Properties(Overlapping) == Some([Member("x", Choice)])
    ensures RequiredNames(Overlapping) == Some({})
    ensures Grounded([], {}, 0, Overlapping) && BuildableDocument([], {}, Overlapping)
  {
    InOverlapping("$defs");
    InOverlapping("definitions");
    InOverlapping("properties");
    InOverlapping("required");
    NoDefinitions(Overlapping);
    ChoiceParts();
    assert Truthy(Obj([Member("x", Choice)]));
    hide Lookup, ShapeOf, IntegerNode, NumberNode, Choice;
    assert [Member("x", Choice)][0].value == Choice;
  }

  lemma ChoiceParts()
    ensures Halts([], {}, 0, Choice) && Buildable([], Choice)
  {
    ChoiceShape();
    PrimitiveParts("number");
    PrimitiveParts("integer");
    hide ShapeOf;
  }

  lemma PrimitiveHolds(token: string, v: Json)
    requires token in PRIMITIVES && HasType(token, v)
    ensures Valid([], Obj([Member("type", Str(token))]), v, {})
  {
    var m := Member("type", Str(token));
    LookupOne(m, "$ref");
    LookupOne(m, "anyOf");
    LookupOne(m, "oneOf");
    LookupOne(m, "enum");
    LookupOne(m, "type");
    LookupOne(m, "properties");
    LookupOne(m, "required");
    LookupOne(m, "items");
    hide Lookup;
  }

  lemma BothHold()
    ensures !Valid([], Choice, Num(1.0), {})
  {
    PrimitiveHolds("number", Num(1.0));
    PrimitiveHolds("integer", Num(1.0));
    LookupOne(Choice.members[0], "oneOf");
    var alts := [NumberNode, IntegerNode];
    assert alts[0] == NumberNode && alts[1] == IntegerNode;
    hide HasType, Lookup;
  }

  lemma OneIsNotValid()
    ensures !Valid([], Overlapping, One, {})
  {
    BothHold();
    LookupOne(One.members[0], "x");
    InOverlapping("properties");
    assert [Member("x", Choice)][0].value == Choice;
    hide HasType, Lookup, Choice;
    assert !PropertiesHold([], Overlapping.members, One);
  }

  lemma ChoiceIsUnion(c: Context, n: nat, t: PyType, origin: map<string, Json>)
    requires Translates(c, n, Choice, t, origin)
    ensures t.UnionOf? && |t.options| == 2 && t.options[0] == Primitive("number")
  {
    ChoiceShape();
    TypeOnly("number");
    hide ShapeOf;
    assert [NumberNode, IntegerNode][0] == NumberNode;
    assert Translates(c, n, NumberNode, t.options[0], origin);
    assert [Str("number")][0] == Str("number");
  }

  lemma OneIsAccepted(c: Context, table: Table, origin: map<string, Json>, name: string)
    requires name in table && TranslatesDocument(c, table, origin) && origin[name] == Overlapping
    ensures TypeAccepts(table, ModelType(name), One)
  {
    OverlappingParts();
    assert ModelTranslates(c, c.depth, Overlapping, table[name], origin);
    hide Lookup, Properties, RequiredNames, Translates, Overlapping, Choice;
    var x := table[name][0];
    assert [Member("x", Choice)][0] == Member("x", Choice);
    ChoiceIsUnion(c, c.depth, x.typ, origin);
    UnionOfNumber(table, x.typ);
    OneField(table, table[name]);
  }

  lemma UnionOfNumber(table: Table, t: PyType)
    requires t.UnionOf? && |t.options| == 2 && t.options[0] == Primitive("number")
    ensures TypeAccepts(table, t, Num(1.0))
  {
    assert TypeAccepts(table, t.options[0], Num(1.0));
  }

  lemma OneField(table: Table, fields: seq<Field>)
    requires |fields| == 1 && fields[0].name == "x" && TypeAccepts(table, fields[0].typ, Num(1.0))
    ensures ModelAccepts(table, fields, One)
  {
    LookupOne(One.members[0], "x");
  }

  method BuildOverlapping(name: string, capitalize: string -> string) returns (table: Table)
    ensures TypeAccepts(table, ModelType(name), One) && !Valid([], Overlapping, One, {})
  {
    OverlappingParts();
    OneChoice(Overlapping, [], {}, 0);
    OneIsNotValid();
    assert Overlapping.Obj?;
    hide *;
    var res, order;
    ghost var c, origin;
    res, order, c, origin := BuildModelFromSchema(Overlapping, name, capitalize, {}, 0);
    Builds(c);
    table := res.value;
    OneIsAccepted(c, table, origin, name);
  }
}
