// Where the builder departs from the meaning of a schema, and exactly when
// that shows.
module SchemaDeviations {
  import opened Wrappers
  import opened JsonValues
  import opened SchemaShape
  import opened SchemaMeaning
  import opened SchemaFragment
  import opened ModelTable
  import opened Translation
  import opened TranslationMeaning

  // A node whose only keyword group is "oneOf".
  ghost predicate OnlyOneOf(defs: seq<Member>, schema: Json) {
    && schema.Obj? && ShapeOf(schema).Union?
    && NoRef(schema.members) && !Has(schema.members, "anyOf")
    && NoEnum(schema.members) && NoType(schema.members) && NoParts(schema.members)
    && forall i :: 0 <= i < |ShapeOf(schema).alternatives| ==> Supported(defs, ShapeOf(schema).alternatives[i])
  }

  ghost predicate TwoHold(defs: seq<Member>, alts: seq<Json>, v: Json, seen: set<string>) {
    exists i, j :: 0 <= i < j < |alts| && Valid(defs, alts[i], v, seen) && Valid(defs, alts[j], v, seen)
  }

  lemma NoPartsHold(defs: seq<Member>, ms: seq<Member>, v: Json)
    requires NoParts(ms)
    ensures PropertiesHold(defs, ms, v) && RequiredHolds(ms, v) && ItemsHold(defs, ms, v)
  {
  }

  ghost predicate ExactlyOne(defs: seq<Member>, alts: seq<Json>, v: Json, seen: set<string>) {
    exists i :: 0 <= i < |alts| && Valid(defs, alts[i], v, seen)
             && forall j :: 0 <= j < |alts| && j != i ==> !Valid(defs, alts[j], v, seen)
  }

  lemma OneOfMeans(defs: seq<Member>, schema: Json, v: Json, seen: set<string>)
    requires OnlyOneOf(defs, schema)
    ensures Valid(defs, schema, v, seen) <==> ExactlyOne(defs, ShapeOf(schema).alternatives, v, seen)
  {
    NoPartsHold(defs, schema.members, v);
    assert Lookup(schema.members, "oneOf") == Some(Arr(ShapeOf(schema).alternatives));
    hide PropertiesHold, RequiredHolds, ItemsHold, RefHolds, Supported;
  }

  lemma ExactlyOneExactly(defs: seq<Member>, alts: seq<Json>, v: Json, seen: set<string>)
    ensures (ExactlyOne(defs, alts, v, seen) <==> exists i :: 0 <= i < |alts| && Valid(defs, alts[i], v, seen))
       <==> !TwoHold(defs, alts, v, seen)
  {
    hide Valid;
    forall i, j | 0 <= i < |alts| && 0 <= j < |alts| && i != j
                  && Valid(defs, alts[i], v, seen) && Valid(defs, alts[j], v, seen)
      ensures TwoHold(defs, alts, v, seen)
    {
      if i < j { assert Valid(defs, alts[i], v, seen); } else { assert Valid(defs, alts[j], v, seen); }
    }
  }

  lemma AlternativesAgree(c: Context, table: Table, origin: map<string, Json>, schema: Json, t: PyType,
                          n: nat, h: nat, v: Json, seen: set<string>)
    requires Ready(c, table, origin)
    requires OnlyOneOf(c.defs, schema) && Translates(c, n, schema, t, origin)
    requires Halts(c.defs, c.live, h, schema) && SeenOk(c, h, seen)
    ensures t.UnionOf? && |t.options| == |ShapeOf(schema).alternatives|
    ensures forall i :: 0 <= i < |t.options| ==>
              (Valid(c.defs, ShapeOf(schema).alternatives[i], v, seen) <==> TypeAccepts(table, t.options[i], v))
  {
    UnionParts(c, schema, t, n, h, origin);
    var alts := ShapeOf(schema).alternatives;
    assert forall i :: 0 <= i < |alts| ==> Supported(c.defs, alts[i]);
    hide *;
    forall i | 0 <= i < |alts| ensures Valid(c.defs, alts[i], v, seen) <==> TypeAccepts(table, t.options[i], v) {
      TypeAgrees(c, table, origin, alts[i], t.options[i], n, h, v, seen);
    }
  }

  lemma OneOfIsUnion(defs: seq<Member>, schema: Json)
    requires OnlyOneOf(defs, schema)
    ensures ShapeOf(schema).Union?
  {
    hide ShapeOf;
  }

  // "oneOf" is built as a plain union: the built type accepts what any
  // alternative allows, and is right about a value exactly when no two
  // alternatives allow it.
  lemma OneOfAgreesExactly(c: Context, table: Table, origin: map<string, Json>, schema: Json, t: PyType,
                           n: nat, h: nat, v: Json, seen: set<string>)
    requires Ready(c, table, origin)
    requires OnlyOneOf(c.defs, schema) && Translates(c, n, schema, t, origin)
    requires Halts(c.defs, c.live, h, schema) && SeenOk(c, h, seen)
    ensures (TypeAccepts(table, t, v) <==> Valid(c.defs, schema, v, seen)) <==>
              !TwoHold(c.defs, ShapeOf(schema).alternatives, v, seen)
  {
    hide *;
    OneOfIsUnion(c.defs, schema);
    AlternativesAgree(c, table, origin, schema, t, n, h, v, seen);
    OneOfMeans(c.defs, schema, v, seen);
    ExactlyOneExactly(c.defs, ShapeOf(schema).alternatives, v, seen);
    UnionAccepts(table, t, v);
  }

  lemma UnionParts(c: Context, schema: Json, t: PyType, n: nat, h: nat, origin: map<string, Json>)
    requires ShapeOf(schema).Union? && Translates(c, n, schema, t, origin) && Halts(c.defs, c.live, h, schema)
    ensures var alts := ShapeOf(schema).alternatives;
            && t.UnionOf? && |t.options| == |alts|
            && forall i :: 0 <= i < |alts| ==>
                 Translates(c, n, alts[i], t.options[i], origin) && Halts(c.defs, c.live, h, alts[i])
  {
  }

  lemma UnionAccepts(table: Table, t: PyType, v: Json)
    requires t.UnionOf?
    ensures TypeAccepts(table, t, v) <==> exists i :: 0 <= i < |t.options| && TypeAccepts(table, t.options[i], v)
  {
  }

  // The required names that some property declares, and those none does.
  ghost predicate DeclaredHold(node: Json, v: Json)
    requires Properties(node).Some? && RequiredNames(node).Some? && v.Obj?
  {
    forall name :: name in RequiredNames(node).value * Keys(Properties(node).value) ==> Has(v.members, name)
  }

  ghost predicate UndeclaredHold(node: Json, v: Json)
    requires Properties(node).Some? && RequiredNames(node).Some? && v.Obj?
  {
    forall name :: name in RequiredNames(node).value - Keys(Properties(node).value) ==> Has(v.members, name)
  }

  lemma RequiredSplits(node: Json, v: Json)
    requires Properties(node).Some? && RequiredNames(node).Some? && v.Obj?
    requires Has(node.members, "required") ==> Lookup(node.members, "required").value.Arr?
    ensures RequiredHolds(node.members, v) <==> DeclaredHold(node, v) && UndeclaredHold(node, v)
  {
    var props, required := Properties(node).value, RequiredNames(node).value;
    assert forall name :: name in required ==> name in required * Keys(props) || name in required - Keys(props);
    if Has(node.members, "required") {
      var names := Lookup(node.members, "required").value.items;
      assert forall i :: 0 <= i < |names| && names[i].Str? ==> names[i].s in required;
    }
  }

  // Required names become flags of the declared fields, so of the required
  // names a value it accepts can miss exactly those that no property declares.
  lemma RequiredExactly(c: Context, table: Table, origin: map<string, Json>, node: Json, fields: seq<Field>, v: Json)
    requires ModelTranslates(c, c.depth, node, fields, origin) && ModelAccepts(table, fields, v)
    requires Has(node.members, "required") ==> Lookup(node.members, "required").value.Arr?
    ensures RequiredHolds(node.members, v) <==> UndeclaredHold(node, v)
  {
    RequiredSplits(node, v);
    FlagsExactly(c, table, origin, node, fields, v);
  }

  // The fields flagged as required are there, exactly when the declared names are.
  lemma FlagsExactly(c: Context, table: Table, origin: map<string, Json>, node: Json, fields: seq<Field>, v: Json)
    requires ModelTranslates(c, c.depth, node, fields, origin) && v.Obj?
    ensures DeclaredHold(node, v) <==>
              forall i :: 0 <= i < |fields| && fields[i].required ==> Has(v.members, fields[i].name)
  {
    hide Translates, TypeAccepts;
    var props, required := Properties(node).value, RequiredNames(node).value;
    forall name | name in required * Keys(props)
      ensures exists i :: 0 <= i < |fields| && fields[i].name == name && fields[i].required {
      var i :| 0 <= i < |props| && props[i].key == name;
      assert fields[i].name == name;
    }
  }

  ghost predicate PropertiesSupported(c: Context, node: Json)
    requires Properties(node).Some?
  {
    forall i :: 0 <= i < |Properties(node).value| ==>
      Supported(c.defs, Properties(node).value[i].value)
      && Halts(c.defs, c.live, c.depth, Properties(node).value[i].value)
  }

  lemma FieldsExactly(c: Context, table: Table, origin: map<string, Json>, node: Json, fields: seq<Field>, v: Json)
    requires Ready(c, table, origin) && ModelTranslates(c, c.depth, node, fields, origin)
    requires PropertiesSupported(c, node) && v.Obj?
    ensures PropertiesHold(c.defs, node.members, v) <==>
              forall i :: 0 <= i < |fields| && Has(v.members, fields[i].name) ==>
                TypeAccepts(table, fields[i].typ, Lookup(v.members, fields[i].name).value)
  {
    var props := Properties(node).value;
    forall i | 0 <= i < |props| && Has(v.members, props[i].key)
      ensures Valid(c.defs, props[i].value, Lookup(v.members, props[i].key).value, {})
         <==> TypeAccepts(table, fields[i].typ, Lookup(v.members, fields[i].name).value)
    {
      assert fields[i].name == props[i].key && Translates(c, c.depth, props[i].value, fields[i].typ, origin);
      assert SeenOk(c, c.depth, {});
      hide Ready, Supported, Halts, Translates, Valid, TypeAccepts;
      TypeAgrees(c, table, origin, props[i].value, fields[i].typ, c.depth, c.depth,
                 Lookup(v.members, props[i].key).value, {});
    }
    hide Ready, Supported, Halts, Translates, Valid, TypeAccepts, Lookup;
  }

  ghost predicate ObjectHolds(c: Context, node: Json, v: Json)
    requires node.Obj?
  {
    v.Obj? && PropertiesHold(c.defs, node.members, v) && RequiredHolds(node.members, v)
  }

  // The model of an object node is right about a value exactly when it does
  // not accept it without an undeclared required name.
  lemma ModelAgreesExactly(c: Context, table: Table, origin: map<string, Json>, node: Json, fields: seq<Field>, v: Json)
    requires Ready(c, table, origin) && ModelTranslates(c, c.depth, node, fields, origin)
             && PropertiesSupported(c, node)
    requires Has(node.members, "required") ==> Lookup(node.members, "required").value.Arr?
    ensures (ModelAccepts(table, fields, v) <==> ObjectHolds(c, node, v)) <==>
              (ModelAccepts(table, fields, v) ==> UndeclaredHold(node, v))
  {
    if v.Obj? {
      RequiredSplits(node, v);
      FlagsExactly(c, table, origin, node, fields, v);
      FieldsExactly(c, table, origin, node, fields, v);
      hide Ready, ModelTranslates, PropertiesSupported, PropertiesHold, RequiredHolds, DeclaredHold, UndeclaredHold,
           TypeAccepts, Lookup;
    }
  }
}
