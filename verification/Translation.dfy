// The relation between a schema node and the field type built for it. It
// does not mention the order in which the builder works: "origin" gives, for
// every model name, the object node that model is built from.
module Translation {
  import opened Wrappers
  import opened JsonValues
  import opened SchemaShape
  import opened SchemaFragment
  import opened ModelTable
  import opened ModelNames

  // What stays fixed during one build.
  datatype Context = Context(
    defs: seq<Member>,
    document: Json,
    root: string,
    capitalize: string -> string,
    live: set<string>,
    depth: nat)

  ghost predicate IsSupported(c: Context) {
    SupportedDocument(c.defs, c.live, c.document)
  }

  ghost predicate IsBuildable(c: Context) {
    BuildableDocument(c.defs, c.live, c.document)
  }

  // No definition shares its name with the root or a possible inline model.
  ghost predicate CleanNames(c: Context) {
    c.root !in Keys(c.defs)
    && forall d :: d in Keys(c.defs) ==>
         !IsInlineName(c.capitalize, c.document, c.root, Keys(c.defs), d)
  }

  ghost predicate Translates(c: Context, n: nat, schema: Json, t: PyType, origin: map<string, Json>)
    decreases n, 1, schema, 1
  {
    match ShapeOf(schema)
    case Permissive => t == AnyType
    case Ref(ref) =>
      (match LocalName(ref)
       case None => false
       case Some(name) => ModelFor(c, name, t, origin) || AliasFor(c, n, name, t, origin))
    case Union(alts) =>
      t.UnionOf? && |t.options| == |alts|
      && forall i :: 0 <= i < |alts| ==> Translates(c, n, alts[i], t.options[i], origin)
    case Enum(values) => t == Literal(values)
    case Tokens(ts) =>
      if |ts| == 1 then TokenTranslates(c, n, ts[0], schema, t, origin)
      else
        ts != [] && t.UnionOf? && |t.options| == |ts|
        && forall i :: 0 <= i < |ts| ==> TokenTranslates(c, n, ts[i], schema, t.options[i], origin)
    case _ => false
  }

  ghost predicate TokenTranslates(c: Context, n: nat, token: Json, schema: Json, t: PyType, origin: map<string, Json>)
    decreases n, 1, schema, 0
  {
    if !token.Str? then false
    else if token.s in PRIMITIVES then t == Primitive(token.s)
    else if token.s == "array" then
      t.ListOf?
      && (match ItemsOf(schema)
          case None => t.element == AnyType
          case Some(items) => Translates(c, n, items, t.element, origin))
    else
      token.s == "object" && t.ModelType? && t.name in origin && origin[t.name] == schema
  }

  // A reference to a model, finished or not.
  ghost predicate ModelFor(c: Context, name: string, t: PyType, origin: map<string, Json>) {
    && (t == ModelType(name) || t == ForwardRef(name))
    && name in origin
    && (CleanNames(c) && Has(c.defs, name) ==>
          IsObjectDef(Lookup(c.defs, name).value) && origin[name] == Lookup(c.defs, name).value)
  }

  // A reference to a definition that is not an object model: its own type.
  ghost predicate AliasFor(c: Context, n: nat, name: string, t: PyType, origin: map<string, Json>)
    decreases n, 0
  {
    && Has(c.defs, name)
    && Lookup(c.defs, name).value.Obj?
    && !IsObjectDef(Lookup(c.defs, name).value)
    && n > 0
    && Translates(c, n - 1, Lookup(c.defs, name).value, t, origin)
  }

  // One field per property, in order.
  ghost predicate FieldsTranslate(c: Context, n: nat, props: seq<Member>, required: set<string>,
                                  fields: seq<Field>, origin: map<string, Json>) {
    |fields| == |props|
    && forall i :: 0 <= i < |props| ==>
         && fields[i].name == props[i].key
         && fields[i].required == (props[i].key in required)
         && Translates(c, n, props[i].value, fields[i].typ, origin)
  }

  ghost predicate ModelTranslates(c: Context, n: nat, node: Json, fields: seq<Field>, origin: map<string, Json>) {
    && Properties(node).Some?
    && RequiredNames(node).Some?
    && FieldsTranslate(c, n, Properties(node).value, RequiredNames(node).value, fields, origin)
  }

  // How a translation is put together from those of the parts.
  lemma PlainTranslates(c: Context, n: nat, schema: Json, origin: map<string, Json>)
    ensures ShapeOf(schema).Permissive? ==> Translates(c, n, schema, AnyType, origin)
    ensures ShapeOf(schema).Enum? ==> Translates(c, n, schema, Literal(ShapeOf(schema).values), origin)
  {
  }

  lemma UnionTranslates(c: Context, n: nat, schema: Json, types: seq<PyType>, origin: map<string, Json>)
    requires ShapeOf(schema).Union? && |types| == |ShapeOf(schema).alternatives|
    requires forall i :: 0 <= i < |types| ==> Translates(c, n, ShapeOf(schema).alternatives[i], types[i], origin)
    ensures Translates(c, n, schema, UnionOf(types), origin)
  {
  }

  lemma TokensTranslate(c: Context, n: nat, schema: Json, types: seq<PyType>, origin: map<string, Json>)
    requires ShapeOf(schema).Tokens? && |types| == |ShapeOf(schema).tokens| > 0
    requires forall i :: 0 <= i < |types| ==> TokenTranslates(c, n, ShapeOf(schema).tokens[i], schema, types[i], origin)
    ensures Translates(c, n, schema, if |types| == 1 then types[0] else UnionOf(types), origin)
  {
  }

  lemma TokenTranslation(c: Context, n: nat, token: Json, schema: Json, t: PyType, origin: map<string, Json>)
    requires
      || (token.Str? && token.s in PRIMITIVES && t == Primitive(token.s))
      || (token == Str("array") && ItemsOf(schema).None? && t == ListOf(AnyType))
      || (token == Str("array") && ItemsOf(schema).Some? && t.ListOf?
          && Translates(c, n, ItemsOf(schema).value, t.element, origin))
      || (token == Str("object") && t.ModelType? && t.name in origin && origin[t.name] == schema)
    ensures TokenTranslates(c, n, token, schema, t, origin)
  {
  }

  lemma ModelReference(c: Context, n: nat, schema: Json, t: PyType, origin: map<string, Json>)
    requires ShapeOf(schema).Ref? && LocalName(ShapeOf(schema).ref).Some?
    requires ModelFor(c, LocalName(ShapeOf(schema).ref).value, t, origin)
    ensures Translates(c, n, schema, t, origin)
  {
  }

  lemma AliasReference(c: Context, n: nat, schema: Json, t: PyType, origin: map<string, Json>)
    requires ShapeOf(schema).Ref? && LocalName(ShapeOf(schema).ref).Some?
    requires AliasFor(c, n, LocalName(ShapeOf(schema).ref).value, t, origin)
    ensures Translates(c, n, schema, t, origin)
  {
  }

  lemma NoFieldsTranslate(c: Context, n: nat, props: seq<Member>, required: set<string>, origin: map<string, Json>)
    ensures FieldsTranslate(c, n, props[..0], required, [], origin)
  {
  }

  lemma OneMoreField(c: Context, n: nat, props: seq<Member>, i: nat, required: set<string>, fields: seq<Field>,
                     field: Field, before: map<string, Json>, origin: map<string, Json>)
    requires i < |props|
    requires MapExtends(origin, before)
    requires FieldsTranslate(c, n, props[..i], required, fields, before)
    requires field.name == props[i].key && field.required == (props[i].key in required)
    requires Translates(c, n, props[i].value, field.typ, origin)
    ensures FieldsTranslate(c, n, props[..i + 1], required, fields + [field], origin)
  {
    FieldsGrow(c, n, n, props[..i], required, fields, before, origin);
  }

  // A translation survives more models and more alias steps.
  lemma {:induction false} TranslatesGrows(c: Context, n: nat, m: nat, schema: Json, t: PyType,
                                           origin: map<string, Json>, larger: map<string, Json>)
    requires n <= m
    requires MapExtends(larger, origin)
    requires Translates(c, n, schema, t, origin)
    ensures Translates(c, m, schema, t, larger)
    decreases n, schema, 1
  {
    match ShapeOf(schema)
    case Ref(ref) =>
      var name := LocalName(ref).value;
      if !ModelFor(c, name, t, origin) {
        TranslatesGrows(c, n - 1, m - 1, Lookup(c.defs, name).value, t, origin, larger);
      }
    case Union(alts) =>
      forall i | 0 <= i < |alts| ensures Translates(c, m, alts[i], t.options[i], larger) {
        TranslatesGrows(c, n, m, alts[i], t.options[i], origin, larger);
      }
    case Tokens(ts) =>
      if |ts| == 1 {
        TokenTranslatesGrows(c, n, m, ts[0], schema, t, origin, larger);
      } else {
        forall i | 0 <= i < |ts| ensures TokenTranslates(c, m, ts[i], schema, t.options[i], larger) {
          TokenTranslatesGrows(c, n, m, ts[i], schema, t.options[i], origin, larger);
        }
      }
    case _ =>
  }

  lemma {:induction false} TokenTranslatesGrows(c: Context, n: nat, m: nat, token: Json, schema: Json, t: PyType,
                                                origin: map<string, Json>, larger: map<string, Json>)
    requires n <= m
    requires MapExtends(larger, origin)
    requires TokenTranslates(c, n, token, schema, t, origin)
    ensures TokenTranslates(c, m, token, schema, t, larger)
    decreases n, schema, 0
  {
    if token.s == "array" && ItemsOf(schema).Some? {
      TranslatesGrows(c, n, m, ItemsOf(schema).value, t.element, origin, larger);
    }
  }

  lemma FieldsGrow(c: Context, n: nat, m: nat, props: seq<Member>, required: set<string>, fields: seq<Field>,
                   origin: map<string, Json>, larger: map<string, Json>)
    requires n <= m
    requires MapExtends(larger, origin)
    requires FieldsTranslate(c, n, props, required, fields, origin)
    ensures FieldsTranslate(c, m, props, required, fields, larger)
  {
    forall i | 0 <= i < |props| ensures Translates(c, m, props[i].value, fields[i].typ, larger) {
      TranslatesGrows(c, n, m, props[i].value, fields[i].typ, origin, larger);
    }
  }

  lemma FinishedModel(c: Context, n: nat, node: Json, fields: seq<Field>, origin: map<string, Json>)
    requires n <= c.depth && Properties(node).Some? && RequiredNames(node).Some?
    requires FieldsTranslate(c, n, Properties(node).value, RequiredNames(node).value, fields, origin)
    ensures ModelTranslates(c, c.depth, node, fields, origin)
  {
    FieldsGrow(c, n, c.depth, Properties(node).value, RequiredNames(node).value, fields, origin, origin);
  }

  // A translation only mentions models that have an origin.
  lemma {:induction false} TranslationMentions(c: Context, n: nat, schema: Json, t: PyType, origin: map<string, Json>)
    requires Translates(c, n, schema, t, origin)
    ensures Mentions(t) <= origin.Keys
    decreases n, schema, 1
  {
    match ShapeOf(schema)
    case Ref(ref) =>
      var name := LocalName(ref).value;
      if !ModelFor(c, name, t, origin) {
        TranslationMentions(c, n - 1, Lookup(c.defs, name).value, t, origin);
      }
    case Union(alts) =>
      forall i | 0 <= i < |alts| ensures Mentions(t.options[i]) <= origin.Keys {
        TranslationMentions(c, n, alts[i], t.options[i], origin);
      }
    case Tokens(ts) =>
      if |ts| == 1 {
        TokenMentions(c, n, ts[0], schema, t, origin);
      } else {
        forall i | 0 <= i < |ts| ensures Mentions(t.options[i]) <= origin.Keys {
          TokenMentions(c, n, ts[i], schema, t.options[i], origin);
        }
      }
    case _ =>
  }

  lemma {:induction false} TokenMentions(c: Context, n: nat, token: Json, schema: Json, t: PyType,
                                         origin: map<string, Json>)
    requires TokenTranslates(c, n, token, schema, t, origin)
    ensures Mentions(t) <= origin.Keys
    decreases n, schema, 0
  {
    if token.s == "array" && ItemsOf(schema).Some? {
      TranslationMentions(c, n, ItemsOf(schema).value, t.element, origin);
    }
  }
}
