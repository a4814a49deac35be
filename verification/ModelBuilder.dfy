// _ModelBuilder: the recursive translator from a JSON Schema document to a
// table of model classes, with its memo, its in-progress set and its fresh
// names.
module ModelBuilder {
  import opened Wrappers
  import opened JsonValues
  import opened SchemaShape
  import opened SchemaMeaning
  import opened SchemaFragment
  import opened ModelTable
  import opened ModelNames
  import opened Translation
  import opened TranslationMeaning

  datatype LoadError =
    | InvalidSchema(prop: string)
    | InvalidUnion(prop: string)
    | UnsupportedType(token: Json)
    | InvalidDefinitions
    | NonLocalRef(ref: string)
    | UnknownRef(ref: string)
    | DefinitionNotObject(name: string)
    | PythonTypeError               // Union of nothing, items() or set() of the wrong thing

  // A node the builder may be asked to translate inside this document.
  ghost predicate NodeOf(c: Context, node: Json) {
    WalkRefs(node) <= WalkRefs(c.document) && AllKeys(node) <= AllKeys(c.document)
  }

  ghost predicate SchemaOk(c: Context, n: nat, schema: Json) {
    && n <= c.depth
    && NodeOf(c, schema)
    && Halts(c.defs, c.live, n, schema)
    && (IsSupported(c) ==> Supported(c.defs, schema))
    && (IsBuildable(c) ==> Buildable(c.defs, schema))
  }

  ghost predicate ObjectOk(c: Context, n: nat, node: Json) {
    && n <= c.depth
    && node.Obj?
    && NodeOf(c, node)
    && PropertiesHalt(c.defs, c.live, n, node)
    && (IsSupported(c) ==> SupportedModel(c, node))
    && (IsBuildable(c) ==> ObjectBuildable(c.defs, node))
  }

  ghost predicate IsParent(c: Context, name: string) {
    IsParentName(c.capitalize, c.document, c.root, Keys(c.defs), name)
  }

  // The definitions are part of the document, and its references end.
  ghost predicate ContextOk(c: Context) {
    && c.document.Obj?
    && Grounded(c.defs, c.live, c.depth, c.document)
    && forall i :: 0 <= i < |c.defs| ==> NodeOf(c, c.defs[i].value) && c.defs[i].key in AllKeys(c.document)
  }

  ghost predicate ErrorOk(c: Context, e: LoadError) {
    && !IsBuildable(c)
    && (e.NonLocalRef? ==> e.ref in WalkRefs(c.document) && !IsLocalRef(e.ref))
  }

  // The model recorded under a name was built from its own definition, if the
  // name is a definition's.
  ghost predicate OriginOk(c: Context, name: string, node: Json) {
    && IsParent(c, name)
    && PropertiesHalt(c.defs, c.live, c.depth, node)
    && (CleanNames(c) && Has(c.defs, name) ==>
          IsObjectDef(Lookup(c.defs, name).value) && node == Lookup(c.defs, name).value)
    && (IsSupported(c) ==> SupportedModel(c, node))
  }

  ghost predicate Distinct(names: seq<string>) {
    forall i, j :: 0 <= i < j < |names| ==> names[i] != names[j]
  }

  lemma SubsetNotLarger<T>(a: set<T>, b: set<T>)
    requires a <= b
    ensures |a| <= |b|
  {
    assert b == a + (b - a);
  }

  // Children of a node are nodes of the document.
  lemma MemberNode(c: Context, node: Json, key: string)
    requires NodeOf(c, node) && node.Obj? && Has(node.members, key)
    ensures NodeOf(c, Lookup(node.members, key).value)
  {
    var i :| 0 <= i < |node.members| && node.members[i].value == Lookup(node.members, key).value;
    assert forall r :: r in WalkRefs(node.members[i].value) ==> r in WalkRefs(node);
    assert forall k :: k in AllKeys(node.members[i].value) ==> k in AllKeys(node);
  }

  lemma ElementNode(c: Context, list: Json, i: nat)
    requires NodeOf(c, list) && list.Arr? && i < |list.items|
    ensures NodeOf(c, list.items[i])
  {
    assert forall r :: r in WalkRefs(list.items[i]) ==> r in WalkRefs(list);
    assert forall k :: k in AllKeys(list.items[i]) ==> k in AllKeys(list);
  }

  lemma AlternativeOk(c: Context, n: nat, schema: Json, i: nat)
    requires SchemaOk(c, n, schema) && ShapeOf(schema).Union? && i < |ShapeOf(schema).alternatives|
    ensures SchemaOk(c, n, ShapeOf(schema).alternatives[i])
  {
    var key := if Has(schema.members, "anyOf") then "anyOf" else "oneOf";
    MemberNode(c, schema, key);
    ElementNode(c, Lookup(schema.members, key).value, i);
  }

  lemma ItemsOk(c: Context, n: nat, schema: Json)
    requires SchemaOk(c, n, schema) && ShapeOf(schema).Tokens? && Str("array") in ShapeOf(schema).tokens
    requires ItemsOf(schema).Some?
    ensures SchemaOk(c, n, ItemsOf(schema).value)
  {
    MemberNode(c, schema, "items");
  }

  lemma InlineOk(c: Context, n: nat, schema: Json, parent: string, prop: string)
    requires SchemaOk(c, n, schema) && ShapeOf(schema).Tokens? && Str("object") in ShapeOf(schema).tokens
    requires IsParent(c, parent) && IsLabel(c.document, prop)
    ensures ObjectOk(c, n, schema)
    ensures NameFits(c, Inline(parent, prop), schema, InlineName(c.capitalize, parent, prop))
  {
  }

  lemma PropertyNode(c: Context, node: Json, i: nat)
    requires NodeOf(c, node) && Properties(node).Some? && i < |Properties(node).value|
    ensures NodeOf(c, Properties(node).value[i].value)
    ensures IsLabel(c.document, Properties(node).value[i].key)
  {
    MemberNode(c, node, "properties");
    var props := Lookup(node.members, "properties").value;
    assert forall r :: r in WalkRefs(props.members[i].value) ==> r in WalkRefs(props);
    assert forall k :: k in AllKeys(props.members[i].value) ==> k in AllKeys(props);
    assert props.members[i].key in Keys(props.members);
  }

  lemma PropertyOk(c: Context, n: nat, node: Json, i: nat)
    requires ObjectOk(c, n, node) && Properties(node).Some? && i < |Properties(node).value|
    ensures SchemaOk(c, n, Properties(node).value[i].value)
    ensures IsLabel(c.document, Properties(node).value[i].key)
  {
    PropertyNode(c, node, i);
    if IsSupported(c) {
      SupportedModelKeywords(c, node);
      SupportedProperty(c.defs, node, i);
    }
  }

  lemma DefinitionOk(c: Context, n: nat, name: string)
    requires ContextOk(c) && Has(c.defs, name) && name in c.live && n <= c.depth
    ensures IsLabel(c.document, name) && IsParent(c, name)
    ensures NodeOf(c, Lookup(c.defs, name).value)
    ensures IsBuildable(c) ==> Lookup(c.defs, name).value.Obj?
    ensures IsObjectDef(Lookup(c.defs, name).value) ==> ObjectOk(c, c.depth, Lookup(c.defs, name).value)
    ensures IsSupported(c) ==> Supported(c.defs, Lookup(c.defs, name).value)
    ensures IsBuildable(c) && !IsObjectDef(Lookup(c.defs, name).value) ==> Buildable(c.defs, Lookup(c.defs, name).value)
  {
    KeysAreLookups(c.defs, name);
  }

  lemma NoTokensFail(c: Context, n: nat, schema: Json)
    requires SchemaOk(c, n, schema) && ShapeOf(schema) == Tokens([])
    ensures ErrorOk(c, PythonTypeError)
  {
  }

  lemma UnknownTokenFails(c: Context, n: nat, schema: Json, token: Json)
    requires SchemaOk(c, n, schema) && ShapeOf(schema).Tokens? && token in ShapeOf(schema).tokens
    requires !(token.Str? && token.s in PRIMITIVES + {"array", "object"})
    ensures ErrorOk(c, UnsupportedType(token))
  {
  }

  lemma BadShapeFails(c: Context, n: nat, schema: Json, prop: string)
    requires SchemaOk(c, n, schema)
    ensures ShapeOf(schema).Invalid? ==> ErrorOk(c, InvalidSchema(prop))
    ensures ShapeOf(schema).BadUnion? ==> ErrorOk(c, InvalidUnion(prop))
  {
  }

  lemma BadReference(c: Context, n: nat, schema: Json, ref: string)
    requires SchemaOk(c, n, schema) && ShapeOf(schema) == Ref(ref)
    ensures !IsLocalRef(ref) ==> ErrorOk(c, NonLocalRef(ref))
    ensures IsLocalRef(ref) && !Has(c.defs, LocalName(ref).value) ==> ErrorOk(c, UnknownRef(ref))
  {
    assert ref in WalkRefs(schema);
  }

  lemma GoodReference(c: Context, n: nat, schema: Json, name: string)
    requires ContextOk(c) && SchemaOk(c, n, schema) && ShapeOf(schema).Ref?
    requires LocalName(ShapeOf(schema).ref) == Some(name) && Has(c.defs, name)
    ensures name in Keys(c.defs) && IsLabel(c.document, name) && IsParent(c, name)
    ensures var d := Lookup(c.defs, name).value;
            && (!d.Obj? ==> ErrorOk(c, DefinitionNotObject(name)))
            && (IsObjectDef(d) ==> ObjectOk(c, c.depth, d) && NameFits(c, Definition, d, name))
            && (d.Obj? && !IsObjectDef(d) ==> n > 0 && SchemaOk(c, n - 1, d))
  {
    KeysAreLookups(c.defs, name);
    DefinitionOk(c, n, name);
  }

  lemma KnownModel(c: Context, n: nat, schema: Json, name: string, t: PyType, origin: map<string, Json>)
    requires ShapeOf(schema).Ref? && LocalName(ShapeOf(schema).ref) == Some(name)
    requires name in origin && OriginOk(c, name, origin[name])
    requires t == ModelType(name) || t == ForwardRef(name)
    ensures Translates(c, n, schema, t, origin)
  {
    ModelReference(c, n, schema, t, origin);
  }

  lemma BadKeywordsFail(c: Context, n: nat, node: Json)
    requires ObjectOk(c, n, node) && (Properties(node).None? || RequiredNames(node).None?)
    ensures ErrorOk(c, PythonTypeError)
  {
  }

  // Why a model is built, which fixes the name asked for.
  datatype Purpose = Root | Definition | Inline(parent: string, prop: string)

  ghost predicate NameFits(c: Context, why: Purpose, node: Json, modelName: string) {
    match why
    case Root => modelName == c.root
    case Definition =>
      Has(c.defs, modelName) && IsObjectDef(Lookup(c.defs, modelName).value) && node == Lookup(c.defs, modelName).value
    case Inline(parent, prop) =>
      IsParent(c, parent) && IsLabel(c.document, prop) && modelName == InlineName(c.capitalize, parent, prop)
  }

  lemma NameGivesOrigin(c: Context, why: Purpose, n: nat, node: Json, modelName: string, taken: set<string>,
                        name: string)
    requires NameFits(c, why, node, modelName) && ObjectOk(c, n, node)
    requires FirstFree(taken, modelName, name) && (!why.Inline? ==> modelName !in taken)
    ensures OriginOk(c, name, node) && IsParent(c, name) && n <= c.depth
  {
    KeysAreLookups(c.defs, name);
    PropertiesHaltGrows(c.defs, c.live, n, c.depth, node);
    match why
    case Inline(parent, prop) =>
      FreshNameIsInline(c.capitalize, c.document, c.root, Keys(c.defs), parent, prop, name);
    case _ =>
  }

  lemma AddThenRemove<T>(s: set<T>, x: T)
    requires x !in s
    ensures s + {x} - {x} == s
  {
  }

  lemma ModelsGrow(c: Context, models: Table, origin: map<string, Json>, larger: map<string, Json>)
    requires models.Keys <= origin.Keys
    requires MapExtends(larger, origin)
    requires forall m :: m in models ==> ModelTranslates(c, c.depth, origin[m], models[m], origin)
    ensures forall m :: m in models ==> ModelTranslates(c, c.depth, larger[m], models[m], larger)
  {
    forall m | m in models ensures ModelTranslates(c, c.depth, larger[m], models[m], larger) {
      FieldsGrow(c, c.depth, c.depth, Properties(origin[m]).value, RequiredNames(origin[m]).value, models[m], origin,
                 larger);
    }
  }

  // Declared an object, or with properties.
  predicate IsObjectNode(d: Json) {
    d.Obj? && (Lookup(d.members, "type") == Some(Str("object")) || Has(d.members, "properties"))
  }

  lemma ObjectNodeIsBuilt(d: Json)
    ensures IsObjectNode(d) <==> IsObjectDef(d)
  {
  }

  class Builder {
    const defs: seq<Member>
    const capitalize: string -> string
    ghost const c: Context

    var models: Table              // finished models, by name
    var inProgress: set<string>    // names reserved by models being built
    var allModels: seq<string>     // finished models, in completion order
    ghost var origin: map<string, Json>

    constructor (defs: seq<Member>, capitalize: string -> string, ghost c: Context)
      requires ContextOk(c) && c.defs == defs && c.capitalize == capitalize
      ensures Valid() && this.c == c && origin == map[] && models == map[] && inProgress == {}
    {
      this.defs := defs;
      this.capitalize := capitalize;
      this.c := c;
      models := map[];
      inProgress := {};
      allModels := [];
      origin := map[];
    }

    ghost predicate Valid()
      reads this
    {
      && ContextOk(c) && c.defs == defs && c.capitalize == capitalize
      && models.Keys !! inProgress
      && origin.Keys == models.Keys + inProgress
      && (forall m :: m in models ==> ModelTranslates(c, c.depth, origin[m], models[m], origin))
      && (forall m :: m in origin ==> OriginOk(c, m, origin[m]))
      && Distinct(allModels)
      && (forall m :: m in allModels <==> m in models)
    }

    // Definitions whose name is still free, not counting one about to be taken.
    ghost function Unbuilt(taking: set<string>): nat
      reads this
    {
      |Keys(defs) - models.Keys - inProgress - taking|
    }

    // Nothing that was taken becomes free again.
    twostate lemma UnbuiltShrinks(taking: set<string>)
      requires MapExtends(models, old(models)) && old(inProgress) <= inProgress
      ensures Unbuilt(taking) <= old(Unbuilt(taking))
    {
      SubsetNotLarger(Keys(defs) - models.Keys - inProgress - taking,
                      old(Keys(defs) - models.Keys - inProgress - taking));
    }

    twostate lemma ReservedShrinks(modelName: string)
      requires MapExtends(models, old(models)) && old(inProgress) <= inProgress
      requires modelName in models || modelName in inProgress
      ensures Unbuilt({}) <= old(Unbuilt({modelName}))
    {
      SubsetNotLarger(Keys(defs) - models.Keys - inProgress - {},
                      old(Keys(defs) - models.Keys - inProgress - {modelName}));
    }

    lemma NamesPartitioned()
      requires Valid()
      ensures models.Keys !! inProgress && origin.Keys == models.Keys + inProgress
    {
    }

    // What is left when every model has been finished.
    lemma Finished()
      requires Valid() && inProgress == {}
      ensures Distinct(allModels) && forall m :: m in allModels <==> m in models
      ensures TranslatesDocument(c, models, origin)
      ensures IsSupported(c) && CleanNames(c) ==> Ready(c, models, origin)
    {
    }

    lemma UnbuiltBy(taking: set<string>)
      ensures Unbuilt(taking) <= Unbuilt({})
      ensures forall name :: name in taking && name in Keys(defs) && name !in models && name !in inProgress ==>
                Unbuilt(taking) < Unbuilt({})
    {
      var free, rest := Keys(defs) - models.Keys - inProgress - {}, Keys(defs) - models.Keys - inProgress - taking;
      SubsetNotLarger(rest, free);
      if exists name :: name in taking && name in Keys(defs) && name !in models && name !in inProgress {
        var name :| name in taking && name in Keys(defs) && name !in models && name !in inProgress;
        assert name in free && name !in rest;
        StrictSubsetSmaller(rest, free);
      }
    }

    twostate predicate Grown()
      reads this
    {
      && Valid()
      && MapExtends(origin, old(origin))
      && MapExtends(models, old(models))
      && inProgress == old(inProgress)
    }

    // _dedupe_name
    method DedupeName(candidate: string) returns (name: string)
      ensures name !in models && name !in inProgress
      ensures FirstFree(models.Keys + inProgress, candidate, name)
    {
      if candidate !in models && candidate !in inProgress { return candidate; }
      ghost var taken := models.Keys + inProgress;
      var i := 2;
      while Numbered(candidate, i) in models || Numbered(candidate, i) in inProgress
        invariant i >= 2
        invariant forall j :: 2 <= j < i ==> Numbered(candidate, j) in taken
        decreases |taken| + 1 - i
      {
        NumbersTaken(candidate, i + 1, taken);
        i := i + 1;
      }
      name := Numbered(candidate, i);
    }

    // Reserve a name: references to it resolve before the model is finished.
    method Reserve(name: string, ghost node: Json)
      requires Valid() && name !in models && name !in inProgress && OriginOk(c, name, node)
      modifies this`inProgress, this`origin
      ensures Valid() && models == old(models) && allModels == old(allModels)
      ensures inProgress == old(inProgress) + {name} && origin == old(origin)[name := node]
    {
      ModelsGrow(c, models, origin, origin[name := node]);
      inProgress := inProgress + {name};
      origin := origin[name := node];
    }

    method Finish(name: string, fields: seq<Field>)
      requires Valid() && name in inProgress
      requires ModelTranslates(c, c.depth, origin[name], fields, origin)
      modifies this`inProgress, this`models, this`allModels
      ensures Valid() && origin == old(origin)
      ensures inProgress == old(inProgress) - {name} && models == old(models)[name := fields]
      ensures allModels == old(allModels) + [name]
    {
      inProgress := inProgress - {name};
      models := models[name := fields];
      allModels := allModels + [name];
    }

    // build_object
    method BuildObject(node: Json, modelName: string, isRoot: bool, ghost why: Purpose, ghost n: nat)
        returns (res: Result<PyType, LoadError>)
      requires Valid() && ObjectOk(c, n, node) && NameFits(c, why, node, modelName)
      requires isRoot || !why.Inline? ==> modelName !in models && modelName !in inProgress
      requires isRoot <==> why.Root?
      modifies this
      ensures inProgress == old(inProgress)
      ensures res.Ok? ==> Grown() && res.value.ModelType? && res.value.name in models && origin[res.value.name] == node
      ensures res.Ok? && !why.Inline? ==> res.value.name == modelName
      ensures res.Ok? ==> res.value.name !in old(models) && res.value.name !in old(inProgress)
      ensures res.Ok? ==> |allModels| > 0 && allModels[|allModels| - 1] == res.value.name
      ensures res.Err? ==> ErrorOk(c, res.error)
      decreases Unbuilt({modelName}), n, 1, node, 1
    {
      hide Valid, Unbuilt, ObjectOk, NameFits, OriginOk, FieldsTranslate, ModelTranslates, ErrorOk, IsParent,
           Properties, RequiredNames, FirstFree, MapExtends;
      ghost var origin0, models0 := origin, models;
      var name := TakeName(node, modelName, isRoot, why, n);
      ghost var origin1 := origin;
      ExtendsByKey(origin0, name, node);
      AddThenRemove(old(inProgress), name);
      var fields := BuildFields(node, name, n);
      if fields.Err? {
        inProgress := inProgress - {name};
        return Err(fields.error);
      }
      NamesPartitioned();
      FinishedModel(c, n, node, fields.value, origin);
      ExtendsTransitively(origin, origin1, origin0);
      ExtendsByKey(models, name, fields.value);
      ExtendsTransitively(models[name := fields.value], models, models0);
      ExtendsAt(origin, origin1, name);
      Finish(name, fields.value);
      return Ok(ModelType(name));
    }

    // The head of build_object: choose a name and reserve it.
    method TakeName(node: Json, modelName: string, isRoot: bool, ghost why: Purpose, ghost n: nat)
        returns (name: string)
      requires Valid() && ObjectOk(c, n, node) && NameFits(c, why, node, modelName)
      requires isRoot || !why.Inline? ==> modelName !in models && modelName !in inProgress
      requires isRoot <==> why.Root?
      modifies this`inProgress, this`origin
      ensures Valid() && name !in old(models) && name !in old(inProgress) && name !in old(origin)
      ensures inProgress == old(inProgress) + {name} && origin == old(origin)[name := node]
      ensures !why.Inline? ==> name == modelName
      ensures IsParent(c, name) && n <= c.depth && Unbuilt({}) <= old(Unbuilt({modelName}))
    {
      assert n <= c.depth;
      hide Valid, Unbuilt, ObjectOk, NameFits, OriginOk, IsParent;
      name := modelName;
      if !isRoot { name := DedupeName(modelName); }
      NameGivesOrigin(c, why, n, node, modelName, models.Keys + inProgress, name);
      NamesPartitioned();
      SameExtends(models);
      Reserve(name, node);
      ReservedShrinks(modelName);
    }

    // The field loop of build_object, between reserving the name and
    // releasing it.
    method BuildFields(node: Json, name: string, ghost n: nat) returns (res: Result<seq<Field>, LoadError>)
      requires Valid() && ObjectOk(c, n, node) && IsParent(c, name)
      modifies this
      ensures inProgress == old(inProgress)
      ensures res.Ok? ==> Grown() && Properties(node).Some? && RequiredNames(node).Some?
      ensures res.Ok? ==> FieldsTranslate(c, n, Properties(node).value, RequiredNames(node).value, res.value, origin)
      ensures res.Err? ==> ErrorOk(c, res.error)
      decreases Unbuilt({}), n, 1, node, 0
    {
      hide Valid, Unbuilt, SchemaOk, ObjectOk, Translates, FieldsTranslate, ErrorOk, IsParent, IsLabel, Properties,
           RequiredNames;
      var props, required := Properties(node), RequiredNames(node);
      if required.None? || props.None? {
        BadKeywordsFail(c, n, node);
        return Err(PythonTypeError);
      }
      var fields: seq<Field> := [];
      var i := 0;
      NoFieldsTranslate(c, n, props.value, required.value, origin);
      while i < |props.value|
        invariant 0 <= i <= |props.value|
        invariant Grown()
        invariant FieldsTranslate(c, n, props.value[..i], required.value, fields, origin)
      {
        PropertyOk(c, n, node, i);
        UnbuiltShrinks({});
        ghost var before := origin;
        var field := FieldFor(props.value[i].value, props.value[i].key, name, n);
        if field.Err? { return Err(field.error); }
        // The default _field_for returns is always None, so a field is
        // required exactly when "required" lists it.
        var f := Field(props.value[i].key, field.value, props.value[i].key in required.value);
        OneMoreField(c, n, props.value, i, required.value, fields, f, before, origin);
        fields := fields + [f];
        i := i + 1;
      }
      assert props.value[..i] == props.value;
      return Ok(fields);
    }

    // _field_for; the default it also returns is always None
    method FieldFor(schema: Json, prop: string, parent: string, ghost n: nat)
        returns (res: Result<PyType, LoadError>)
      requires Valid() && SchemaOk(c, n, schema) && IsLabel(c.document, prop) && IsParent(c, parent)
      modifies this
      ensures inProgress == old(inProgress)
      ensures res.Ok? ==> Grown() && Translates(c, n, schema, res.value, origin)
      ensures res.Err? ==> ErrorOk(c, res.error)
      decreases Unbuilt({}), n, 1, schema, 4
    {
      hide Valid, Unbuilt, SchemaOk, Translates, TokenTranslates, ErrorOk, IsParent, IsLabel, ShapeOf;
      PlainTranslates(c, n, schema, origin);
      BadShapeFails(c, n, schema, prop);
      match ShapeOf(schema)
      case Permissive => return Ok(AnyType);
      case Invalid => return Err(InvalidSchema(prop));
      case Ref(ref) => res := ResolveRef(ref, schema, n);
      case BadUnion => return Err(InvalidUnion(prop));
      case Union(alts) => res := UnionTypes(schema, prop, parent, n);
      case Enum(values) => return Ok(Literal(values));
      case Tokens(ts) => res := TokenTypes(schema, prop, parent, n);
    }

    method UnionTypes(schema: Json, prop: string, parent: string, ghost n: nat)
        returns (res: Result<PyType, LoadError>)
      requires Valid() && SchemaOk(c, n, schema) && IsLabel(c.document, prop) && IsParent(c, parent)
      requires ShapeOf(schema).Union?
      modifies this
      ensures inProgress == old(inProgress)
      ensures res.Ok? ==> Grown() && Translates(c, n, schema, res.value, origin)
      ensures res.Err? ==> ErrorOk(c, res.error)
      decreases Unbuilt({}), n, 1, schema, 3
    {
      hide Valid, Unbuilt, SchemaOk, Translates, TokenTranslates, ErrorOk, IsParent, IsLabel, ShapeOf;
      var alts := ShapeOf(schema).alternatives;
      var types: seq<PyType> := [];
      var i := 0;
      while i < |alts|
        invariant 0 <= i <= |alts| && |types| == i
        invariant Grown()
        invariant forall j :: 0 <= j < i ==> Translates(c, n, alts[j], types[j], origin)
      {
        AlternativeOk(c, n, schema, i);
        UnbuiltShrinks({});
        ghost var before := origin;
        var t := FieldFor(alts[i], prop, parent, n);
        if t.Err? { return t; }
        forall j | 0 <= j < i ensures Translates(c, n, alts[j], types[j], origin) {
          TranslatesGrows(c, n, n, alts[j], types[j], before, origin);
        }
        types := types + [t.value];
        i := i + 1;
      }
      UnionTranslates(c, n, schema, types, origin);
      return Ok(UnionOf(types));
    }

    method TokenTypes(schema: Json, prop: string, parent: string, ghost n: nat)
        returns (res: Result<PyType, LoadError>)
      requires Valid() && SchemaOk(c, n, schema) && IsLabel(c.document, prop) && IsParent(c, parent)
      requires ShapeOf(schema).Tokens?
      modifies this
      ensures inProgress == old(inProgress)
      ensures res.Ok? ==> Grown() && Translates(c, n, schema, res.value, origin)
      ensures res.Err? ==> ErrorOk(c, res.error)
      decreases Unbuilt({}), n, 1, schema, 3
    {
      hide Valid, Unbuilt, SchemaOk, Translates, TokenTranslates, ErrorOk, IsParent, IsLabel, ShapeOf;
      var ts := ShapeOf(schema).tokens;
      var types: seq<PyType> := [];
      var i := 0;
      while i < |ts|
        invariant 0 <= i <= |ts| && |types| == i
        invariant Grown()
        invariant forall j :: 0 <= j < i ==> TokenTranslates(c, n, ts[j], schema, types[j], origin)
      {
        UnbuiltShrinks({});
        ghost var before := origin;
        var t := TypeForSimple(ts[i], schema, prop, parent, n);
        if t.Err? { return t; }
        forall j | 0 <= j < i ensures TokenTranslates(c, n, ts[j], schema, types[j], origin) {
          TokenTranslatesGrows(c, n, n, ts[j], schema, types[j], before, origin);
        }
        types := types + [t.value];
        i := i + 1;
      }
      if types == [] { NoTokensFail(c, n, schema); return Err(PythonTypeError); }
      TokensTranslate(c, n, schema, types, origin);
      if |types| == 1 { return Ok(types[0]); }
      return Ok(UnionOf(types));
    }

    // _type_for_simple
    method TypeForSimple(token: Json, schema: Json, prop: string, parent: string, ghost n: nat)
        returns (res: Result<PyType, LoadError>)
      requires Valid() && SchemaOk(c, n, schema) && IsLabel(c.document, prop) && IsParent(c, parent)
      requires ShapeOf(schema).Tokens? && token in ShapeOf(schema).tokens
      modifies this
      ensures inProgress == old(inProgress)
      ensures res.Ok? ==> Grown() && TokenTranslates(c, n, token, schema, res.value, origin)
      ensures res.Err? ==> ErrorOk(c, res.error)
      decreases Unbuilt({}), n, 1, schema, 2
    {
      hide Unbuilt, SchemaOk, ObjectOk, NameFits, Translates, TokenTranslates, ErrorOk, IsParent, IsLabel, ShapeOf,
           ItemsOf, InlineName, ContextOk, OriginOk, ModelTranslates;
      if token.Str? && token.s in PRIMITIVES {
        res := Ok(Primitive(token.s));
        TokenTranslation(c, n, token, schema, res.value, origin);
      } else if token == Str("array") {
        var items := ItemsOf(schema);
        var element := Ok(AnyType);
        if items.Some? {
          ItemsOk(c, n, schema);
          ItemLabel(c.document, prop);
          element := FieldFor(items.value, prop + "_item", parent, n);
          if element.Err? { return element; }
        }
        res := Ok(ListOf(element.value));
        TokenTranslation(c, n, token, schema, res.value, origin);
      } else if token == Str("object") {
        var name := InlineName(capitalize, parent, prop);
        InlineOk(c, n, schema, parent, prop);
        UnbuiltBy({name});
        res := BuildObject(schema, name, false, Inline(parent, prop), n);
        if res.Ok? { TokenTranslation(c, n, token, schema, res.value, origin); }
      } else {
        UnknownTokenFails(c, n, schema, token);
        res := Err(UnsupportedType(token));
      }
    }

    // _resolve_ref
    method ResolveRef(ref: string, ghost schema: Json, ghost n: nat) returns (res: Result<PyType, LoadError>)
      requires Valid() && SchemaOk(c, n, schema) && ShapeOf(schema) == Ref(ref)
      modifies this
      ensures inProgress == old(inProgress)
      ensures res.Ok? ==> Grown() && Translates(c, n, schema, res.value, origin)
      ensures res.Err? ==> ErrorOk(c, res.error)
      ensures LocalName(ref).Some? && LocalName(ref).value in old(models) ==>
                res == Ok(ModelType(LocalName(ref).value)) && models == old(models)
      ensures LocalName(ref).Some? && LocalName(ref).value in old(inProgress) ==>
                res == Ok(ForwardRef(LocalName(ref).value)) && models == old(models)
      ensures LocalName(ref).Some? && LocalName(ref).value !in old(models) && LocalName(ref).value !in old(inProgress)
              && Has(defs, LocalName(ref).value) && IsObjectNode(Lookup(defs, LocalName(ref).value).value)
              && res.Ok? ==>
                res.value == ModelType(LocalName(ref).value)
      decreases Unbuilt({}), n, 0
    {
      hide Unbuilt, SchemaOk, ObjectOk, NameFits, Translates, TokenTranslates, ErrorOk, IsParent, IsLabel, ShapeOf,
           ContextOk, OriginOk, ModelTranslates, IsObjectDef, IsObjectNode, LocalName, IsLocalRef;
      BadReference(c, n, schema, ref);
      var local := LocalName(ref);
      if local.None? { return Err(NonLocalRef(ref)); }
      var name := local.value;
      if name in models {
        KnownModel(c, n, schema, name, ModelType(name), origin);
        return Ok(ModelType(name));
      }
      if name in inProgress {
        KnownModel(c, n, schema, name, ForwardRef(name), origin);
        return Ok(ForwardRef(name));
      }
      var d := Lookup(defs, name);
      if d.None? { return Err(UnknownRef(ref)); }
      GoodReference(c, n, schema, name);
      ObjectNodeIsBuilt(d.value);
      if !d.value.Obj? { return Err(DefinitionNotObject(name)); }
      if IsObjectDef(d.value) {
        UnbuiltBy({name});
        res := BuildObject(d.value, name, false, Definition, c.depth);
        if res.Ok? { KnownModel(c, n, schema, name, res.value, origin); }
      } else {
        res := FieldFor(d.value, name, name, n - 1);
        if res.Ok? { AliasReference(c, n, schema, res.value, origin); }
      }
    }
  }

  // document.get("$defs") or document.get("definitions") or {}; None when the
  // chosen value is not an object.
  function Definitions(document: Json): Option<seq<Member>> {
    if !document.Obj? then None
    else
      var chosen :=
        if Has(document.members, "$defs") && Truthy(Lookup(document.members, "$defs").value) then
          Lookup(document.members, "$defs").value
        else if Has(document.members, "definitions") && Truthy(Lookup(document.members, "definitions").value) then
          Lookup(document.members, "definitions").value
        else Obj([]);
      if chosen.Obj? then Some(chosen.members) else None
  }

  // The key is absent or its value counts as nothing.
  predicate Unset(ms: seq<Member>, key: string) {
    match Lookup(ms, key)
    case None => true
    case Some(j) =>
      j == Null || j == Bool(false) || j == Num(0.0) || j == Str("") || j == Arr([]) || j == Obj([])
  }

  // The document's definitions: a non-empty object under "$defs"; failing
  // any "$defs", one under "definitions"; failing both, none.
  predicate Defines(document: Json, defs: seq<Member>) {
    document.Obj? &&
    if defs == [] then Unset(document.members, "$defs") && Unset(document.members, "definitions")
    else
      || Lookup(document.members, "$defs") == Some(Obj(defs))
      || (Unset(document.members, "$defs") && Lookup(document.members, "definitions") == Some(Obj(defs)))
  }

  lemma DefinitionsExactly(document: Json, defs: seq<Member>)
    ensures Defines(document, defs) <==> Definitions(document) == Some(defs)
  {
  }

  // Following aliases ends whatever the document's definitions are.
  ghost predicate GroundedDocument(document: Json, live: set<string>, depth: nat) {
    forall defs :: Defines(document, defs) ==> Grounded(defs, live, depth, document)
  }

  // These are the document's definitions, if it has any.
  ghost predicate Chosen(document: Json, defs: seq<Member>) {
    forall ds :: Defines(document, ds) ==> ds == defs
  }

  lemma OneChoice(document: Json, defs: seq<Member>, live: set<string>, depth: nat)
    requires Definitions(document) == Some(defs) && Grounded(defs, live, depth, document)
    ensures Defines(document, defs) && GroundedDocument(document, live, depth)
    ensures forall ds :: Chosen(document, ds) ==> ds == defs
  {
    hide Grounded;
    forall ds ensures Defines(document, ds) <==> ds == defs { DefinitionsExactly(document, ds); }
  }

  lemma TheChoice(document: Json, live: set<string>, depth: nat)
    requires GroundedDocument(document, live, depth)
    ensures match Definitions(document)
            case Some(defs) =>
              Defines(document, defs) && Chosen(document, defs) && Grounded(defs, live, depth, document)
            case None => Chosen(document, []) && !Defines(document, [])
  {
    hide Grounded, Definitions, Defines;
    forall ds ensures Defines(document, ds) <==> Definitions(document) == Some(ds) { DefinitionsExactly(document, ds); }
  }

  // Every model translates its origin, and a definition's model its own node.
  ghost predicate TranslatesDocument(c: Context, table: Table, origin: map<string, Json>) {
    && table.Keys == origin.Keys
    && (forall m :: m in table ==> ModelTranslates(c, c.depth, origin[m], table[m], origin))
    && (CleanNames(c) ==> forall m :: m in table && Has(c.defs, m) ==> origin[m] == Lookup(c.defs, m).value)
  }

  lemma TranslatedIsClosed(c: Context, table: Table, origin: map<string, Json>)
    requires TranslatesDocument(c, table, origin)
    ensures Closed(table)
  {
    forall m, i | m in table && 0 <= i < |table[m]| ensures Mentions(table[m][i].typ) <= table.Keys {
      assert ModelTranslates(c, c.depth, origin[m], table[m], origin);
      TranslationMentions(c, c.depth, Properties(origin[m]).value[i].value, table[m][i].typ, origin);
    }
  }

  // The root model accepts what the document's schema allows.
  lemma RootAgrees(c: Context, table: Table, origin: map<string, Json>)
    requires Ready(c, table, origin)
    requires c.root in origin && origin[c.root] == c.document
    ensures forall v :: TypeAccepts(table, ModelType(c.root), v) <==> Valid(c.defs, c.document, v, {})
  {
    forall v ensures TypeAccepts(table, ModelType(c.root), v) <==> Valid(c.defs, c.document, v, {}) {
      DefinitionAgrees(c, table, origin, c.document, c.root, v, {});
      ModelTypeAccepts(table, c.root, ModelType(c.root), v);
    }
  }

  lemma DocumentContext(c: Context)
    requires Definitions(c.document) == Some(c.defs)
    requires Grounded(c.defs, c.live, c.depth, c.document)
    ensures ContextOk(c) && ObjectOk(c, c.depth, c.document)
  {
    forall i | 0 <= i < |c.defs| ensures NodeOf(c, c.defs[i].value) && c.defs[i].key in AllKeys(c.document) {
      var key := if Has(c.document.members, "$defs") && Truthy(Lookup(c.document.members, "$defs").value)
                 then "$defs" else "definitions";
      MemberNode(c, c.document, key);
      var d := Lookup(c.document.members, key).value;
      assert c.defs == d.members;
      assert forall r :: r in WalkRefs(d.members[i].value) ==> r in WalkRefs(d);
      assert forall k :: k in AllKeys(d.members[i].value) ==> k in AllKeys(d);
      assert d.members[i].key in Keys(d.members);
    }
  }

  lemma SupportedIsBuildable(c: Context)
    requires IsSupported(c)
    ensures IsBuildable(c)
  {
    SupportedDocumentBuilds(c.defs, c.live, c.document);
  }

  lemma ErrorMeans(c: Context, e: LoadError)
    requires ErrorOk(c, e)
    ensures !IsBuildable(c)
    ensures e.NonLocalRef? ==> e.ref in WalkRefs(c.document) && !IsLocalRef(e.ref)
  {
  }

  // The builder over the document's definitions: _ModelBuilder(defs), then
  // build_object on the root.
  method BuildWith(defs: seq<Member>, document: Json, modelName: string, capitalize: string -> string, ghost c: Context)
      returns (res: Result<Table, LoadError>, order: seq<string>, ghost origin: map<string, Json>)
    requires c == Context(defs, document, modelName, capitalize, c.live, c.depth)
    requires Definitions(c.document) == Some(c.defs) && Grounded(c.defs, c.live, c.depth, c.document)
    ensures res.Ok? ==> c.root in res.value && Closed(res.value)
    ensures res.Ok? ==> Distinct(order) && (forall m :: m in order <==> m in res.value)
    ensures res.Ok? ==> |order| > 0 && order[|order| - 1] == c.root
    ensures res.Ok? ==> TranslatesDocument(c, res.value, origin) && origin[c.root] == c.document
    ensures res.Err? && res.error.NonLocalRef? ==> res.error.ref in WalkRefs(c.document) && !IsLocalRef(res.error.ref)
    ensures IsBuildable(c) ==> res.Ok?
    ensures IsSupported(c) ==> res.Ok?
    ensures IsSupported(c) && CleanNames(c) ==>
              forall v :: TypeAccepts(res.value, ModelType(c.root), v) <==> Valid(c.defs, c.document, v, {})
  {
    hide Builder.Valid, ObjectOk, Grounded, Definitions, WalkRefs, IsLocalRef, ErrorOk, Valid, TypeAccepts,
         ContextOk, TranslatesDocument, IsSupported, IsBuildable, CleanNames, Ready, Closed, Distinct, OriginOk,
         ModelTranslates;
    DocumentContext(c);
    var builder := new Builder(defs, capitalize, c);
    var model := builder.BuildObject(document, modelName, true, Root, c.depth);
    origin := builder.origin;
    if model.Err? {
      ErrorMeans(c, model.error);
      if IsSupported(c) { SupportedIsBuildable(c); }
      return Err(model.error), [], origin;
    }
    builder.Finished();
    order := builder.allModels;
    res := Ok(builder.models);
    TranslatedIsClosed(c, builder.models, origin);
    if IsSupported(c) && CleanNames(c) { RootAgrees(c, builder.models, origin); }
  }

  // build_model_from_schema
  method BuildModelFromSchema(document: Json, modelName: string, capitalize: string -> string,
                              ghost live: set<string>, ghost depth: nat)
      returns (res: Result<Table, LoadError>, order: seq<string>, ghost c: Context, ghost origin: map<string, Json>)
    requires document.Obj?
    requires GroundedDocument(document, live, depth)
    ensures c == Context(c.defs, document, modelName, capitalize, live, depth)
    ensures Chosen(document, c.defs)
    ensures !Defines(document, c.defs) ==> res.Err?
    ensures res.Ok? ==> modelName in res.value && Closed(res.value)
    ensures res.Ok? ==> Distinct(order) && (forall m :: m in order <==> m in res.value)
    ensures res.Ok? ==> |order| > 0 && order[|order| - 1] == modelName
    ensures res.Ok? ==> TranslatesDocument(c, res.value, origin) && origin[modelName] == document
    ensures res.Err? && res.error.NonLocalRef? ==> res.error.ref in WalkRefs(document) && !IsLocalRef(res.error.ref)
    ensures Defines(document, c.defs) && IsBuildable(c) ==> res.Ok?
    ensures Defines(document, c.defs) && IsSupported(c) ==> res.Ok?
    ensures Defines(document, c.defs) && IsSupported(c) && CleanNames(c) ==>
              forall v :: TypeAccepts(res.value, ModelType(modelName), v) <==> Valid(c.defs, document, v, {})
  {
    TheChoice(document, live, depth);
    hide *;
    var defs := Definitions(document);
    c := Context(if defs.Some? then defs.value else [], document, modelName, capitalize, live, depth);
    origin := map[];
    if defs.None? { return Err(InvalidDefinitions), [], c, origin; }
    res, order, origin := BuildWith(defs.value, document, modelName, capitalize, c);
  }
}
