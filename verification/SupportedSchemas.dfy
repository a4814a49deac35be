// The supported schemas by their keywords alone, without the builder's reading
// of a node: they are the same.
module SupportedSchemas {
  import opened Wrappers
  import opened JsonValues
  import opened SchemaShape
  import opened SchemaMeaning
  import opened SchemaFragment

  // None of these keys is there.
  predicate Lacks(ms: seq<Member>, keys: set<string>) {
    forall k :: k in keys ==> !Has(ms, k)
  }

  predicate IsToken(t: Json) {
    t == Str("string") || t == Str("integer") || t == Str("number") || t == Str("boolean") || t == Str("null")
    || t == Str("array") || t == Str("object")
  }

  // A reference to a definition that is there.
  predicate RefersTo(defs: seq<Member>, ref: string) {
    || (|ref| >= 8 && ref[..8] == "#/$defs/" && Has(defs, ref[8..]))
    || (|ref| >= 14 && ref[..14] == "#/definitions/" && Has(defs, ref[14..]))
  }

  // Annotations apart, a node has one of these five forms.
  predicate Bare(ms: seq<Member>) {
    Lacks(ms, {"$ref", "anyOf", "oneOf", "enum", "type", "properties", "required", "items"})
  }

  predicate Referring(defs: seq<Member>, ms: seq<Member>) {
    && Lacks(ms, {"anyOf", "oneOf", "enum", "type", "properties", "required", "items"})
    && match Lookup(ms, "$ref") case Some(Str(ref)) => RefersTo(defs, ref) case _ => false
  }

  function Alternatives(ms: seq<Member>): (alts: seq<Json>)
    ensures forall i :: 0 <= i < |alts| ==> alts[i] < Obj(ms)
  {
    match Lookup(ms, "anyOf") case Some(Arr(alts)) => alts case _ => []
  }

  predicate Choosing(ms: seq<Member>) {
    && Lacks(ms, {"$ref", "oneOf", "enum", "type", "properties", "required", "items"})
    && Alternatives(ms) != []
  }

  predicate Listing(ms: seq<Member>) {
    && Lacks(ms, {"$ref", "anyOf", "oneOf", "properties", "required", "items"})
    && match Lookup(ms, "enum")
       case Some(Arr(values)) =>
         values != []
         && (Has(ms, "type") ==> forall i :: 0 <= i < |values| ==> TypeHolds(Lookup(ms, "type").value, values[i]))
       case _ => false
  }

  // The value of "type", one token or a list of them.
  predicate Names(ms: seq<Member>, t: Json) {
    match Lookup(ms, "type")
    case Some(Arr(ts)) => t in ts
    case Some(Str(s)) => t == Str(s)
    case _ => false
  }

  predicate Typed(ms: seq<Member>) {
    && Lacks(ms, {"$ref", "anyOf", "oneOf", "enum"})
    && match Lookup(ms, "type")
       case Some(Arr(ts)) => ts != [] && forall t :: t in ts ==> IsToken(t)
       case Some(Str(s)) => IsToken(Str(s))
       case _ => false
  }

  ghost predicate Written(defs: seq<Member>, schema: Json)
    decreases schema, 1
  {
    || schema == Bool(true)
    || (schema.Obj? &&
        var ms := schema.members;
        || Bare(ms)
        || Referring(defs, ms)
        || (Choosing(ms) && forall i :: 0 <= i < |Alternatives(ms)| ==> Written(defs, Alternatives(ms)[i]))
        || Listing(ms)
        || (Typed(ms)
            && (Names(ms, Str("object")) ==> WrittenObject(defs, schema))
            && (Names(ms, Str("array")) && Has(ms, "items") ==> Written(defs, Lookup(ms, "items").value))))
  }

  // "properties" is an object of such schemas, and "required" lists its keys.
  ghost predicate WrittenObject(defs: seq<Member>, node: Json)
    requires node.Obj?
    decreases node, 0
  {
    && (match Lookup(node.members, "properties")
        case Some(Obj(props)) => forall i :: 0 <= i < |props| ==> Written(defs, props[i].value)
        case Some(_) => false
        case None => true)
    && RequiredIsListed(node.members)
  }

  predicate RequiredIsListed(ms: seq<Member>) {
    match Lookup(ms, "required")
    case Some(Arr(names)) =>
      forall i :: 0 <= i < |names| ==>
        && names[i].Str?
        && (match Lookup(ms, "properties") case Some(Obj(props)) => names[i].s in Keys(props) case _ => false)
    case Some(_) => false
    case None => true
  }

  lemma RefersExactly(defs: seq<Member>, ref: string)
    ensures RefersTo(defs, ref) <==> LocalName(ref).Some? && Has(defs, LocalName(ref).value)
  {
    if |ref| >= 14 && ref[..14] == "#/definitions/" {
      assert ref[2] == "#/definitions/"[2] == 'd';
    }
    if |ref| >= 8 && ref[..8] == "#/$defs/" {
      assert ref[2] == "#/$defs/"[2] == '$';
    }
  }

  lemma BareExactly(ms: seq<Member>)
    ensures Bare(ms) <==> ShapeOf(Obj(ms)).Permissive? && NoRef(ms) && NoEnum(ms) && NoType(ms) && NoParts(ms)
  {
  }

  lemma ReferringExactly(defs: seq<Member>, ms: seq<Member>)
    ensures Referring(defs, ms) <==>
            ShapeOf(Obj(ms)).Ref? && NoAlternatives(ms) && NoEnum(ms) && NoType(ms) && NoParts(ms)
            && var ref := ShapeOf(Obj(ms)).ref; LocalName(ref).Some? && Has(defs, LocalName(ref).value)
  {
    hide LocalName, RefersTo, Lookup;
    match Lookup(ms, "$ref") { case Some(Str(ref)) => RefersExactly(defs, ref); case _ => }
  }

  lemma ChoosingExactly(ms: seq<Member>)
    ensures Choosing(ms) <==>
            ShapeOf(Obj(ms)).Union? && NoRef(ms) && !Has(ms, "oneOf") && NoEnum(ms) && NoType(ms) && NoParts(ms)
    ensures Choosing(ms) ==> ShapeOf(Obj(ms)) == Union(Alternatives(ms))
  {
  }

  lemma EnumExactly(ms: seq<Member>)
    requires NoRef(ms) && NoAlternatives(ms)
    ensures ShapeOf(Obj(ms)).Enum? <==>
            match Lookup(ms, "enum") case Some(Arr(values)) => values != [] case _ => false
    ensures ShapeOf(Obj(ms)).Enum? ==> ShapeOf(Obj(ms)).values == Lookup(ms, "enum").value.items
  {
  }

  lemma ListingExactly(ms: seq<Member>)
    ensures Listing(ms) <==>
            ShapeOf(Obj(ms)).Enum? && NoRef(ms) && NoAlternatives(ms) && NoParts(ms)
            && (Has(ms, "type") ==>
                  forall i :: 0 <= i < |ShapeOf(Obj(ms)).values| ==>
                    TypeHolds(Lookup(ms, "type").value, ShapeOf(Obj(ms)).values[i]))
  {
    hide TypeHolds, ShapeOf;
    if NoRef(ms) && NoAlternatives(ms) { EnumExactly(ms); }
  }

  lemma TokenExactly(t: Json)
    ensures IsToken(t) <==> t.Str? && t.s in PRIMITIVES + {"array", "object"}
  {
  }

  lemma TypedExactly(ms: seq<Member>)
    ensures Typed(ms) <==>
            ShapeOf(Obj(ms)).Tokens? && NoRef(ms) && NoAlternatives(ms) && NoEnum(ms)
            && ShapeOf(Obj(ms)).tokens != []
            && forall i :: 0 <= i < |ShapeOf(Obj(ms)).tokens| ==>
                 ShapeOf(Obj(ms)).tokens[i].Str?
                 && ShapeOf(Obj(ms)).tokens[i].s in PRIMITIVES + {"array", "object"}
    ensures Typed(ms) ==> forall t :: t in ShapeOf(Obj(ms)).tokens <==> Names(ms, t)
  {
    forall t: Json ensures IsToken(t) <==> t.Str? && t.s in PRIMITIVES + {"array", "object"} { TokenExactly(t); }
    hide IsToken, PRIMITIVES;
    match Lookup(ms, "type") { case Some(Str(s)) => assert [Str(s)][0] == Str(s); case _ => }
  }

  lemma OthersAgree(defs: seq<Member>, ms: seq<Member>)
    requires !ShapeOf(Obj(ms)).Union? && !ShapeOf(Obj(ms)).Tokens?
    ensures Written(defs, Obj(ms)) <==> Supported(defs, Obj(ms))
  {
    BareExactly(ms);
    ReferringExactly(defs, ms);
    ChoosingExactly(ms);
    ListingExactly(ms);
    TypedExactly(ms);
    hide ShapeOf, Bare, Referring, Choosing, Listing, Typed, Names, Alternatives, LocalName, TypeHolds, Lookup,
         WrittenObject, ObjectKeywords;
  }

  lemma UnionAgrees(defs: seq<Member>, ms: seq<Member>)
    requires ShapeOf(Obj(ms)).Union?
    requires forall i :: 0 <= i < |Alternatives(ms)| ==>
               (Written(defs, Alternatives(ms)[i]) <==> Supported(defs, Alternatives(ms)[i]))
    ensures Written(defs, Obj(ms)) <==> Supported(defs, Obj(ms))
  {
    BareExactly(ms);
    ReferringExactly(defs, ms);
    ChoosingExactly(ms);
    ListingExactly(ms);
    TypedExactly(ms);
    hide ShapeOf, Bare, Referring, Choosing, Listing, Typed, Names, Alternatives, LocalName, TypeHolds, Lookup,
         WrittenObject, ObjectKeywords;
  }

  lemma TokensAgree(defs: seq<Member>, ms: seq<Member>)
    requires ShapeOf(Obj(ms)).Tokens?
    requires WrittenObject(defs, Obj(ms)) <==> ObjectKeywords(defs, Obj(ms))
    requires Has(ms, "items") ==>
               (Written(defs, Lookup(ms, "items").value) <==> Supported(defs, Lookup(ms, "items").value))
    ensures Written(defs, Obj(ms)) <==> Supported(defs, Obj(ms))
  {
    BareExactly(ms);
    ReferringExactly(defs, ms);
    ChoosingExactly(ms);
    ListingExactly(ms);
    TypedExactly(ms);
    hide ShapeOf, Bare, Referring, Choosing, Listing, Typed, Names, Alternatives, LocalName, TypeHolds, Lookup,
         WrittenObject, ObjectKeywords;
  }

  lemma {:induction false} WrittenExactly(defs: seq<Member>, schema: Json)
    ensures Written(defs, schema) <==> Supported(defs, schema)
    decreases schema, 1
  {
    if schema.Obj? {
      var ms := schema.members;
      assert schema == Obj(ms);
      hide Written, Supported, ShapeOf, Alternatives, Lookup, WrittenObject, ObjectKeywords;
      match ShapeOf(schema) {
        case Union(_) =>
          forall i | 0 <= i < |Alternatives(ms)|
            ensures Written(defs, Alternatives(ms)[i]) <==> Supported(defs, Alternatives(ms)[i])
          {
            WrittenExactly(defs, Alternatives(ms)[i]);
          }
          UnionAgrees(defs, ms);
        case Tokens(_) =>
          if Has(ms, "items") { WrittenExactly(defs, Lookup(ms, "items").value); }
          WrittenObjectExactly(defs, schema);
          TokensAgree(defs, ms);
        case _ => OthersAgree(defs, ms);
      }
    }
  }

  lemma PropertiesMembers(ms: seq<Member>)
    requires !Has(ms, "properties") || Lookup(ms, "properties").value.Obj?
    ensures Properties(Obj(ms))
         == Some(match Lookup(ms, "properties") case Some(Obj(props)) => props case _ => [])
  {
  }

  lemma RequiredListed(ms: seq<Member>)
    requires !Has(ms, "properties") || Lookup(ms, "properties").value.Obj?
    ensures RequiredIsListed(ms) <==>
            match Lookup(ms, "required")
            case Some(Arr(names)) =>
              forall i :: 0 <= i < |names| ==>
                names[i].Str? && Properties(Obj(ms)).Some? && names[i].s in Keys(Properties(Obj(ms)).value)
            case Some(_) => false
            case None => true
  {
    PropertiesMembers(ms);
    hide Properties;
    assert Keys([]) == {};
  }

  lemma {:induction false} WrittenObjectExactly(defs: seq<Member>, node: Json)
    requires node.Obj?
    ensures WrittenObject(defs, node) <==> ObjectKeywords(defs, node)
    decreases node, 0
  {
    hide Properties, RequiredIsListed, Lookup, Written, Supported, Keys;
    var ms := node.members;
    assert node == Obj(ms);
    match Lookup(ms, "properties") {
      case Some(Obj(props)) =>
        forall i | 0 <= i < |props| ensures Written(defs, props[i].value) <==> Supported(defs, props[i].value) {
          WrittenExactly(defs, props[i].value);
        }
        RequiredListed(ms);
      case Some(_) =>
      case None =>
        RequiredListed(ms);
        assert node.members == ms;
    }
  }
}
