// The schemas for which the builder is meant to be faithful, and the two
// conditions on references under which it can run at all.
module SchemaFragment {
  import opened Wrappers
  import opened JsonValues
  import opened SchemaShape
  import opened SchemaMeaning

  predicate NoRef(ms: seq<Member>) { !Has(ms, "$ref") }

  predicate NoAlternatives(ms: seq<Member>) { !Has(ms, "anyOf") && !Has(ms, "oneOf") }

  predicate NoEnum(ms: seq<Member>) { !Has(ms, "enum") }

  predicate NoType(ms: seq<Member>) { !Has(ms, "type") }

  predicate NoParts(ms: seq<Member>) { !Has(ms, "properties") && !Has(ms, "required") && !Has(ms, "items") }

  // Each node uses one group of keywords, so that reading the first group the
  // builder recognises loses nothing. Annotations are free everywhere.
  ghost predicate Supported(defs: seq<Member>, schema: Json)
    decreases schema, 1
  {
    || schema == Bool(true)
    || (schema.Obj? &&
        match ShapeOf(schema)
        case Permissive => NoRef(schema.members) && NoEnum(schema.members) && NoType(schema.members)
                           && NoParts(schema.members)
        case Ref(ref) =>
          && NoAlternatives(schema.members) && NoEnum(schema.members) && NoType(schema.members)
          && NoParts(schema.members)
          && LocalName(ref).Some? && Has(defs, LocalName(ref).value)
        case Union(alts) =>
          && NoRef(schema.members) && !Has(schema.members, "oneOf")
          && NoEnum(schema.members) && NoType(schema.members) && NoParts(schema.members)
          && forall i :: 0 <= i < |alts| ==> Supported(defs, alts[i])
        case Enum(values) =>
          && NoRef(schema.members) && NoAlternatives(schema.members) && NoParts(schema.members)
          && (Has(schema.members, "type") ==>
                forall i :: 0 <= i < |values| ==> TypeHolds(Lookup(schema.members, "type").value, values[i]))
        case Tokens(ts) =>
          && NoRef(schema.members) && NoAlternatives(schema.members) && NoEnum(schema.members)
          && ts != []
          && (forall i :: 0 <= i < |ts| ==> ts[i].Str? && ts[i].s in PRIMITIVES + {"array", "object"})
          && (Str("object") in ts ==> ObjectKeywords(defs, schema))
          && (Str("array") in ts && Has(schema.members, "items") ==>
                Supported(defs, Lookup(schema.members, "items").value))
        case _ => false)
  }

  // "properties" and "required" of an object node: every required name has a
  // property of its own.
  ghost predicate ObjectKeywords(defs: seq<Member>, node: Json)
    requires node.Obj?
    decreases node, 0
  {
    && (match Lookup(node.members, "properties")
        case Some(Obj(props)) => forall i :: 0 <= i < |props| ==> Supported(defs, props[i].value)
        case Some(_) => false
        case None => true)
    && (match Lookup(node.members, "required")
        case Some(Arr(names)) =>
          forall i :: 0 <= i < |names| ==>
            names[i].Str? && Properties(node).Some? && names[i].s in Keys(Properties(node).value)
        case Some(_) => false
        case None => true)
  }

  ghost predicate SupportedDef(defs: seq<Member>, d: Json) {
    && d.Obj?
    && Supported(defs, d)
    && (IsObjectDef(d) ==> ShapeOf(d) == Tokens([Str("object")]))
  }

  ghost predicate SupportedDocument(defs: seq<Member>, live: set<string>, document: Json) {
    && ShapeOf(document) == Tokens([Str("object")])
    && Supported(defs, document)
    && forall name :: name in live && Has(defs, name) ==> SupportedDef(defs, Lookup(defs, name).value)
  }

  // The schemas nothing in the builder raises an error for.
  ghost predicate Buildable(defs: seq<Member>, schema: Json)
    decreases schema, 1
  {
    match ShapeOf(schema)
    case Permissive => true
    case Ref(ref) => LocalName(ref).Some? && Has(defs, LocalName(ref).value)
    case Union(alts) => forall i :: 0 <= i < |alts| ==> Buildable(defs, alts[i])
    case Enum(_) => true
    case Tokens(ts) =>
      && ts != []
      && (forall i :: 0 <= i < |ts| ==> ts[i].Str? && ts[i].s in PRIMITIVES + {"array", "object"})
      && (Str("object") in ts ==> ObjectBuildable(defs, schema))
      && (Str("array") in ts && ItemsOf(schema).Some? ==> Buildable(defs, ItemsOf(schema).value))
    case _ => false
  }

  ghost predicate ObjectBuildable(defs: seq<Member>, node: Json)
    decreases node, 0
  {
    && Properties(node).Some? && RequiredNames(node).Some?
    && forall i :: 0 <= i < |Properties(node).value| ==> Buildable(defs, Properties(node).value[i].value)
  }

  ghost predicate BuildableDocument(defs: seq<Member>, live: set<string>, document: Json) {
    && ObjectBuildable(defs, document)
    && forall name :: name in live && Has(defs, name) ==>
         var d := Lookup(defs, name).value;
         d.Obj? && if IsObjectDef(d) then ObjectBuildable(defs, d) else Buildable(defs, d)
  }

  lemma {:induction false} SupportedBuilds(defs: seq<Member>, schema: Json)
    requires Supported(defs, schema)
    ensures Buildable(defs, schema)
    decreases schema, 1
  {
    match ShapeOf(schema)
    case Union(alts) =>
      forall i | 0 <= i < |alts| ensures Buildable(defs, alts[i]) { SupportedBuilds(defs, alts[i]); }
    case Tokens(ts) =>
      if Str("object") in ts { SupportedObjectBuilds(defs, schema); }
      if Str("array") in ts && ItemsOf(schema).Some? { SupportedBuilds(defs, ItemsOf(schema).value); }
    case _ =>
  }

  lemma {:induction false} SupportedObjectBuilds(defs: seq<Member>, node: Json)
    requires node.Obj? && ObjectKeywords(defs, node)
    ensures ObjectBuildable(defs, node)
    decreases node, 0
  {
    forall i | 0 <= i < |Properties(node).value| ensures Buildable(defs, Properties(node).value[i].value) {
      SupportedBuilds(defs, Properties(node).value[i].value);
    }
  }

  lemma SupportedDocumentBuilds(defs: seq<Member>, live: set<string>, document: Json)
    requires SupportedDocument(defs, live, document)
    ensures BuildableDocument(defs, live, document)
  {
    assert Str("object") in [Str("object")];
    SupportedBuilds(defs, document);
    forall name | name in live && Has(defs, name)
      ensures var d := Lookup(defs, name).value;
              d.Obj? && if IsObjectDef(d) then ObjectBuildable(defs, d) else Buildable(defs, d)
    {
      SupportedBuilds(defs, Lookup(defs, name).value);
    }
  }

  // Following the aliases below this node (definitions that are not object
  // models) ends within n steps, and every definition met is in "live".
  // Object definitions are not followed: each is built only once.
  ghost predicate Halts(defs: seq<Member>, live: set<string>, n: nat, schema: Json)
    decreases n, schema, 1
  {
    match ShapeOf(schema)
    case Ref(ref) =>
      (match LocalName(ref)
       case None => true
       case Some(name) =>
         match Lookup(defs, name)
         case None => true
         case Some(d) => name in live && (d.Obj? && !IsObjectDef(d) ==> n > 0 && Halts(defs, live, n - 1, d)))
    case Union(alts) => forall i :: 0 <= i < |alts| ==> Halts(defs, live, n, alts[i])
    case Tokens(ts) =>
      && (Str("array") in ts && ItemsOf(schema).Some? ==> Halts(defs, live, n, ItemsOf(schema).value))
      && (Str("object") in ts ==> PropertiesHalt(defs, live, n, schema))
    case _ => true
  }

  ghost predicate PropertiesHalt(defs: seq<Member>, live: set<string>, n: nat, node: Json)
    decreases n, node, 0
  {
    Properties(node).Some? ==>
      forall i :: 0 <= i < |Properties(node).value| ==> Halts(defs, live, n, Properties(node).value[i].value)
  }

  // The builder's own recursion bottoms out: from the document, and from
  // every object definition it can reach, aliases end within "depth" steps.
  ghost predicate Grounded(defs: seq<Member>, live: set<string>, depth: nat, document: Json) {
    && PropertiesHalt(defs, live, depth, document)
    && forall name :: name in live && Has(defs, name) && IsObjectDef(Lookup(defs, name).value) ==>
         PropertiesHalt(defs, live, depth, Lookup(defs, name).value)
  }

  lemma {:induction false} HaltsGrows(defs: seq<Member>, live: set<string>, n: nat, m: nat, schema: Json)
    requires n <= m && Halts(defs, live, n, schema)
    ensures Halts(defs, live, m, schema)
    decreases n, schema, 1
  {
    match ShapeOf(schema)
    case Ref(ref) =>
      if LocalName(ref).Some? && Has(defs, LocalName(ref).value) {
        var d := Lookup(defs, LocalName(ref).value).value;
        if d.Obj? && !IsObjectDef(d) { HaltsGrows(defs, live, n - 1, m - 1, d); }
      }
    case Union(alts) =>
      forall i | 0 <= i < |alts| ensures Halts(defs, live, m, alts[i]) {
        HaltsGrows(defs, live, n, m, alts[i]);
      }
    case Tokens(ts) =>
      if Str("array") in ts && ItemsOf(schema).Some? { HaltsGrows(defs, live, n, m, ItemsOf(schema).value); }
      if Str("object") in ts { PropertiesHaltGrows(defs, live, n, m, schema); }
    case _ =>
  }

  lemma {:induction false} PropertiesHaltGrows(defs: seq<Member>, live: set<string>, n: nat, m: nat, node: Json)
    requires n <= m && PropertiesHalt(defs, live, n, node)
    ensures PropertiesHalt(defs, live, m, node)
    decreases n, node, 0
  {
    if Properties(node).Some? {
      forall i | 0 <= i < |Properties(node).value| ensures Halts(defs, live, m, Properties(node).value[i].value) {
        HaltsGrows(defs, live, n, m, Properties(node).value[i].value);
      }
    }
  }
}
