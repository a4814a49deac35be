// A translation means what the schema means: the table accepts a value
// exactly when the value is valid.
module TranslationMeaning {
  import opened Wrappers
  import opened JsonValues
  import opened SchemaShape
  import opened SchemaMeaning
  import opened SchemaFragment
  import opened ModelTable
  import opened Translation

  // An object node of the supported fragment, and what is known of it.
  ghost predicate SupportedModel(c: Context, node: Json) {
    && Supported(c.defs, node)
    && ShapeOf(node).Tokens?
    && Str("object") in ShapeOf(node).tokens
  }

  // A finished table: every model translates its origin.
  ghost predicate TableOk(c: Context, table: Table, origin: map<string, Json>) {
    && table.Keys == origin.Keys
    && forall m :: m in table ==>
         && ModelTranslates(c, c.depth, origin[m], table[m], origin)
         && SupportedModel(c, origin[m])
         && PropertiesHalt(c.defs, c.live, c.depth, origin[m])
  }

  ghost predicate Ready(c: Context, table: Table, origin: map<string, Json>) {
    IsSupported(c) && CleanNames(c) && TableOk(c, table, origin)
  }

  ghost predicate AliasHalts(c: Context, n: nat, name: string) {
    Has(c.defs, name) && Halts(c.defs, c.live, n, Lookup(c.defs, name).value)
  }

  // The aliases entered at this value need at least h steps, so one that
  // ends in fewer has not been entered yet.
  ghost predicate SeenOk(c: Context, h: nat, seen: set<string>) {
    forall s :: s in seen ==>
      && Has(c.defs, s)
      && !IsObjectDef(Lookup(c.defs, s).value)
      && (h > 0 ==> !AliasHalts(c, h - 1, s))
  }

  // The fewest steps in which an alias ends.
  ghost function Height(c: Context, n: nat, name: string): (h: nat)
    requires AliasHalts(c, n, name)
    ensures h <= n && AliasHalts(c, h, name)
    ensures h > 0 ==> !AliasHalts(c, h - 1, name)
  {
    if n == 0 || !AliasHalts(c, n - 1, name) then n else Height(c, n - 1, name)
  }

  lemma AliasHaltsGrows(c: Context, n: nat, m: nat, name: string)
    requires n <= m && AliasHalts(c, n, name)
    ensures AliasHalts(c, m, name)
  {
    HaltsGrows(c.defs, c.live, n, m, Lookup(c.defs, name).value);
  }

  lemma SeenGrows(c: Context, h: nat, seen: set<string>, name: string, h': nat)
    requires SeenOk(c, h, seen) && h' < h
    requires Has(c.defs, name) && !IsObjectDef(Lookup(c.defs, name).value)
    requires h' > 0 ==> !AliasHalts(c, h' - 1, name)
    ensures SeenOk(c, h', seen + {name})
  {
    hide AliasHalts, IsObjectDef;
    forall s | s in seen && h' > 0 ensures !AliasHalts(c, h' - 1, s) {
      if AliasHalts(c, h' - 1, s) { AliasHaltsGrows(c, h' - 1, h - 1, s); }
    }
  }

  // With the unrecognised keywords absent, only one group decides.
  lemma OnlyRef(defs: seq<Member>, schema: Json, v: Json, seen: set<string>)
    requires Supported(defs, schema) && ShapeOf(schema).Ref?
    ensures Valid(defs, schema, v, seen) <==> RefHolds(defs, ShapeOf(schema).ref, v, seen)
  {
  }

  lemma OnlyUnion(defs: seq<Member>, schema: Json, v: Json, seen: set<string>)
    requires Supported(defs, schema) && ShapeOf(schema).Union?
    ensures Valid(defs, schema, v, seen) <==>
              var alts := ShapeOf(schema).alternatives;
              exists i :: 0 <= i < |alts| && Valid(defs, alts[i], v, seen)
  {
  }

  lemma OnlyEnum(defs: seq<Member>, schema: Json, v: Json, seen: set<string>)
    requires Supported(defs, schema) && ShapeOf(schema).Enum?
    ensures Valid(defs, schema, v, seen) <==> v in ShapeOf(schema).values
  {
  }

  lemma Anything(defs: seq<Member>, schema: Json, v: Json, seen: set<string>)
    requires Supported(defs, schema) && ShapeOf(schema).Permissive?
    ensures Valid(defs, schema, v, seen)
  {
  }

  lemma OnlyTokens(defs: seq<Member>, schema: Json, v: Json, seen: set<string>)
    requires Supported(defs, schema) && ShapeOf(schema).Tokens?
    ensures Valid(defs, schema, v, seen) <==>
              && (exists i :: 0 <= i < |ShapeOf(schema).tokens| && ShapeOf(schema).tokens[i].Str?
                                && HasType(ShapeOf(schema).tokens[i].s, v))
              && PropertiesHold(defs, schema.members, v) && RequiredHolds(schema.members, v)
              && ItemsHold(defs, schema.members, v)
  {
    var t := Lookup(schema.members, "type").value;
    if t.Str? { assert ShapeOf(schema).tokens[0] == t; }
  }

  // The theorem, by induction on the value, then on the aliases still to be
  // followed at this value, then on the schema.
  lemma {:induction false} TypeAgrees(c: Context, table: Table, origin: map<string, Json>, schema: Json, t: PyType,
                                      n: nat, h: nat, v: Json, seen: set<string>)
    requires Ready(c, table, origin)
    requires Supported(c.defs, schema) && Translates(c, n, schema, t, origin)
    requires Halts(c.defs, c.live, h, schema) && SeenOk(c, h, seen)
    ensures Valid(c.defs, schema, v, seen) <==> TypeAccepts(table, t, v)
    decreases v, h, 3, schema, 2
  {
    hide Ready, SeenOk, Valid, Supported, TypeAccepts, Halts, Translates, TokenTranslates, ShapeOf;
    match ShapeOf(schema)
    case Permissive => Anything(c.defs, schema, v, seen); AnyTranslation(c, n, schema, t, table, origin, v);
    case Ref(ref) => RefAgrees(c, table, origin, schema, t, n, h, v, seen);
    case Union(alts) => UnionAgrees(c, table, origin, schema, t, n, h, v, seen);
    case Enum(values) => OnlyEnum(c.defs, schema, v, seen); EnumTranslation(c, n, schema, t, table, origin, v);
    case Tokens(ts) => TokensAgree(c, table, origin, schema, t, n, h, v, seen);
    case Invalid => Unsupported(c.defs, schema);
    case BadUnion => Unsupported(c.defs, schema);
  }

  lemma Unsupported(defs: seq<Member>, schema: Json)
    requires Supported(defs, schema)
    ensures !ShapeOf(schema).Invalid? && !ShapeOf(schema).BadUnion?
  {
  }

  lemma AnyTranslation(c: Context, n: nat, schema: Json, t: PyType, table: Table, origin: map<string, Json>, v: Json)
    requires ShapeOf(schema).Permissive? && Translates(c, n, schema, t, origin)
    ensures TypeAccepts(table, t, v)
  {
  }

  lemma EnumTranslation(c: Context, n: nat, schema: Json, t: PyType, table: Table, origin: map<string, Json>, v: Json)
    requires ShapeOf(schema).Enum? && Translates(c, n, schema, t, origin)
    ensures TypeAccepts(table, t, v) <==> v in ShapeOf(schema).values
  {
  }

  lemma {:induction false} UnionAgrees(c: Context, table: Table, origin: map<string, Json>, schema: Json, t: PyType,
                                       n: nat, h: nat, v: Json, seen: set<string>)
    requires Ready(c, table, origin)
    requires Supported(c.defs, schema) && Translates(c, n, schema, t, origin)
    requires Halts(c.defs, c.live, h, schema) && SeenOk(c, h, seen)
    requires ShapeOf(schema).Union?
    ensures Valid(c.defs, schema, v, seen) <==> TypeAccepts(table, t, v)
    decreases v, h, 3, schema, 1
  {
    hide Ready, SeenOk, Valid;
    var alts := ShapeOf(schema).alternatives;
    OnlyUnion(c.defs, schema, v, seen);
    forall i | 0 <= i < |alts| ensures Valid(c.defs, alts[i], v, seen) <==> TypeAccepts(table, t.options[i], v) {
      TypeAgrees(c, table, origin, alts[i], t.options[i], n, h, v, seen);
    }
  }

  lemma {:induction false} TokensAgree(c: Context, table: Table, origin: map<string, Json>, schema: Json, t: PyType,
                                       n: nat, h: nat, v: Json, seen: set<string>)
    requires Ready(c, table, origin)
    requires Supported(c.defs, schema) && Translates(c, n, schema, t, origin)
    requires Halts(c.defs, c.live, h, schema)
    requires ShapeOf(schema).Tokens?
    ensures Valid(c.defs, schema, v, seen) <==> TypeAccepts(table, t, v)
    decreases v, h, 3, schema, 1
  {
    hide Ready, Valid, Halts, TokenTranslates;
    var ts := ShapeOf(schema).tokens;
    OnlyTokens(c.defs, schema, v, seen);
    if |ts| == 1 {
      TokenAgrees(c, table, origin, ts[0], schema, t, n, h, v);
    } else {
      forall i | 0 <= i < |ts|
        ensures TypeAccepts(table, t.options[i], v) <==>
                  (HasType(ts[i].s, v) && PropertiesHold(c.defs, schema.members, v)
                   && RequiredHolds(schema.members, v) && ItemsHold(c.defs, schema.members, v))
      {
        TokenAgrees(c, table, origin, ts[i], schema, t.options[i], n, h, v);
      }
    }
  }

  lemma {:induction false} TokenAgrees(c: Context, table: Table, origin: map<string, Json>, token: Json, schema: Json,
                                       t: PyType,
                                       n: nat, h: nat, v: Json)
    requires Ready(c, table, origin)
    requires Supported(c.defs, schema) && TokenTranslates(c, n, token, schema, t, origin)
    requires Halts(c.defs, c.live, h, schema)
    requires ShapeOf(schema).Tokens? && token in ShapeOf(schema).tokens
    ensures token.Str?
    ensures TypeAccepts(table, t, v) <==>
              (HasType(token.s, v) && PropertiesHold(c.defs, schema.members, v)
               && RequiredHolds(schema.members, v) && ItemsHold(c.defs, schema.members, v))
    decreases v, h, 3, schema, 0
  {
    hide *;
    TokenFacts(c, n, token, schema, t, origin);
    NotAnArray(c.defs, schema.members, v);
    ObjectType(v);
    if token == Str("object") {
      ModelFacts(c, table, origin, t.name);
      ModelAgrees(c, table, origin, schema, table[t.name], v);
      ModelTypeAccepts(table, t.name, t, v);
    } else if token == Str("array") {
      ArrayAgrees(c, table, origin, schema, t, n, h, v);
    } else {
      PrimitiveAccepts(table, token.s, v);
    }
  }

  lemma TokenFacts(c: Context, n: nat, token: Json, schema: Json, t: PyType, origin: map<string, Json>)
    requires TokenTranslates(c, n, token, schema, t, origin)
    ensures token.Str?
    ensures token.s in PRIMITIVES ==> t == Primitive(token.s)
    ensures token.s !in PRIMITIVES ==> token.s == "array" || token.s == "object"
    ensures token.s == "object" ==> t.ModelType? && t.name in origin && origin[t.name] == schema
  {
  }

  // Items and members are smaller values, where nothing has been entered yet.
  lemma {:induction false} ArrayAgrees(c: Context, table: Table, origin: map<string, Json>, schema: Json, t: PyType,
                                       n: nat, h: nat, v: Json)
    requires Ready(c, table, origin)
    requires Supported(c.defs, schema) && TokenTranslates(c, n, Str("array"), schema, t, origin)
    requires Halts(c.defs, c.live, h, schema)
    requires ShapeOf(schema).Tokens? && Str("array") in ShapeOf(schema).tokens
    ensures TypeAccepts(table, t, v) <==> v.Arr? && ItemsHold(c.defs, schema.members, v)
    decreases v, 0, 0
  {
    hide Ready, Valid;
    var items := ItemsOf(schema);
    if v.Arr? && items.Some? {
      assert Supported(c.defs, items.value) && Translates(c, n, items.value, t.element, origin);
      assert Halts(c.defs, c.live, h, items.value);
      hide Supported, Translates, TokenTranslates, Halts, ShapeOf;
      forall i | 0 <= i < |v.items|
        ensures Valid(c.defs, items.value, v.items[i], {}) <==> TypeAccepts(table, t.element, v.items[i])
      {
        TypeAgrees(c, table, origin, items.value, t.element, n, h, v.items[i], {});
      }
    }
  }

  lemma {:induction false} ModelAgrees(c: Context, table: Table, origin: map<string, Json>, node: Json,
                                       fields: seq<Field>, v: Json)
    requires Ready(c, table, origin)
    requires ModelTranslates(c, c.depth, node, fields, origin)
    requires SupportedModel(c, node) && PropertiesHalt(c.defs, c.live, c.depth, node)
    ensures ModelAccepts(table, fields, v) <==>
              v.Obj? && PropertiesHold(c.defs, node.members, v) && RequiredHolds(node.members, v)
    decreases v, 0, 1
  {
    hide Ready, Valid, Translates;
    var props := Properties(node).value;
    if v.Obj? {
      forall i | 0 <= i < |props| && Has(v.members, props[i].key)
        ensures Valid(c.defs, props[i].value, Lookup(v.members, props[i].key).value, {})
           <==> TypeAccepts(table, fields[i].typ, Lookup(v.members, props[i].key).value)
      {
        FieldAgrees(c, table, origin, node, fields, i, v);
      }
      RequiredAgree(c.defs, node, v);
    }
  }

  lemma {:induction false} FieldAgrees(c: Context, table: Table, origin: map<string, Json>, node: Json,
                                       fields: seq<Field>, i: nat, v: Json)
    requires Ready(c, table, origin)
    requires ModelTranslates(c, c.depth, node, fields, origin)
    requires SupportedModel(c, node) && PropertiesHalt(c.defs, c.live, c.depth, node)
    requires i < |Properties(node).value| && v.Obj? && Has(v.members, Properties(node).value[i].key)
    ensures var x := Lookup(v.members, Properties(node).value[i].key).value;
            Valid(c.defs, Properties(node).value[i].value, x, {}) <==> TypeAccepts(table, fields[i].typ, x)
    decreases v, 0, 0
  {
    var p := Properties(node).value[i];
    var x := Lookup(v.members, p.key).value;
    SupportedModelKeywords(c, node);
    SupportedProperty(c.defs, node, i);
    TypeAgrees(c, table, origin, p.value, fields[i].typ, c.depth, c.depth, x, {});
  }

  lemma SupportedModelKeywords(c: Context, node: Json)
    requires SupportedModel(c, node)
    ensures node.Obj? && ObjectKeywords(c.defs, node)
  {
  }

  lemma SupportedProperty(defs: seq<Member>, node: Json, i: nat)
    requires node.Obj? && ObjectKeywords(defs, node)
    requires Properties(node).Some? && i < |Properties(node).value|
    ensures Supported(defs, Properties(node).value[i].value)
  {
    var props := Lookup(node.members, "properties").value;
    assert props.Obj?;
  }

  // Every required name belongs to a property, so checking the properties'
  // own flags is enough.
  lemma RequiredAgree(defs: seq<Member>, node: Json, v: Json)
    requires node.Obj? && ObjectKeywords(defs, node) && v.Obj?
    requires Properties(node).Some? && RequiredNames(node).Some?
    ensures RequiredHolds(node.members, v) <==>
              var props := Properties(node).value;
              forall i :: 0 <= i < |props| && props[i].key in RequiredNames(node).value ==> Has(v.members, props[i].key)
  {
  }

  lemma {:induction false} RefAgrees(c: Context, table: Table, origin: map<string, Json>, schema: Json, t: PyType,
                                     n: nat, h: nat, v: Json, seen: set<string>)
    requires Ready(c, table, origin)
    requires Supported(c.defs, schema) && Translates(c, n, schema, t, origin)
    requires Halts(c.defs, c.live, h, schema) && SeenOk(c, h, seen)
    requires ShapeOf(schema).Ref?
    ensures Valid(c.defs, schema, v, seen) <==> TypeAccepts(table, t, v)
    decreases v, h, 3, schema, 1
  {
    hide TableOk, IsSupported, CleanNames, Valid, Halts, SeenOk, TypeAccepts, Translates, Supported;
    OnlyRef(c.defs, schema, v, seen);
    var name := ReferenceFacts(c, schema, t, n, h, origin, seen);
    var d := Lookup(c.defs, name).value;
    if ModelFor(c, name, t, origin) {
      DefinitionAgrees(c, table, origin, d, name, v, seen + {name});
      ModelTypeAccepts(table, name, t, v);
    } else {
      var h' := Height(c, h - 1, name);
      SeenGrows(c, h, seen, name, h');
      TypeAgrees(c, table, origin, d, t, n - 1, h', v, seen + {name});
    }
  }

  lemma ReferenceFacts(c: Context, schema: Json, t: PyType, n: nat, h: nat, origin: map<string, Json>,
                       seen: set<string>)
      returns (name: string)
    requires IsSupported(c) && CleanNames(c)
    requires Supported(c.defs, schema) && Translates(c, n, schema, t, origin)
    requires Halts(c.defs, c.live, h, schema) && SeenOk(c, h, seen)
    requires ShapeOf(schema).Ref?
    ensures LocalName(ShapeOf(schema).ref) == Some(name) && Has(c.defs, name) && name in c.live
    ensures SupportedDef(c.defs, Lookup(c.defs, name).value)
    ensures IsObjectDef(Lookup(c.defs, name).value) <==> ModelFor(c, name, t, origin)
    ensures name !in seen
    ensures !ModelFor(c, name, t, origin) ==>
              n > 0 && h > 0 && AliasHalts(c, h - 1, name)
              && Translates(c, n - 1, Lookup(c.defs, name).value, t, origin)
  {
    name := LocalName(ShapeOf(schema).ref).value;
  }

  // An object definition is decided by its members alone.
  lemma {:induction false} DefinitionAgrees(c: Context, table: Table, origin: map<string, Json>, d: Json, name: string,
                                            v: Json, seen: set<string>)
    requires Ready(c, table, origin)
    requires name in origin && origin[name] == d && ShapeOf(d) == Tokens([Str("object")])
    ensures name in table
    ensures Valid(c.defs, d, v, seen) <==> ModelAccepts(table, table[name], v)
    decreases v, 0, 2
  {
    hide *;
    ModelFacts(c, table, origin, name);
    ObjectType(v);
    OnlyTokens(c.defs, d, v, seen);
    ModelAgrees(c, table, origin, d, table[name], v);
    NotAnArray(c.defs, d.members, v);
  }

  lemma NotAnArray(defs: seq<Member>, ms: seq<Member>, v: Json)
    ensures !v.Arr? ==> ItemsHold(defs, ms, v)
    ensures !v.Obj? ==> PropertiesHold(defs, ms, v) && RequiredHolds(ms, v)
  {
  }

  lemma ObjectType(v: Json)
    ensures HasType("object", v) <==> v.Obj?
    ensures HasType("array", v) <==> v.Arr?
  {
  }

  lemma PrimitiveAccepts(table: Table, token: string, v: Json)
    requires token in PRIMITIVES
    ensures TypeAccepts(table, Primitive(token), v) <==> HasType(token, v)
    ensures HasType(token, v) ==> !v.Arr? && !v.Obj?
  {
  }

  lemma ModelFacts(c: Context, table: Table, origin: map<string, Json>, name: string)
    requires Ready(c, table, origin) && name in origin
    ensures name in table && ModelTranslates(c, c.depth, origin[name], table[name], origin)
    ensures SupportedModel(c, origin[name]) && origin[name].Obj?
    ensures PropertiesHalt(c.defs, c.live, c.depth, origin[name])
  {
  }

  lemma ModelTypeAccepts(table: Table, name: string, t: PyType, v: Json)
    requires (t == ModelType(name) || t == ForwardRef(name)) && name in table
    ensures TypeAccepts(table, t, v) <==> ModelAccepts(table, table[name], v)
  {
  }
}
