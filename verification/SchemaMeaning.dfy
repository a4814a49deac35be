// What a schema means, independently of how the builder reads it: the
// conjunctive reading of JSON Schema draft 2020-12, where every keyword of a
// node must hold (Core sections 8.2.3.1, 10.2.1, 10.3.1.2, 10.3.2.1;
// Validation sections 6.1.1, 6.1.2, 6.5.3).
module SchemaMeaning {
  import opened Wrappers
  import opened JsonValues
  import opened SchemaShape

  // Validation section 6.1.1, one type token. An integer is a number with a
  // zero fractional part.
  predicate HasType(token: string, v: Json) {
    match token
    case "null" => v.Null?
    case "boolean" => v.Bool?
    case "string" => v.Str?
    case "number" => v.Num?
    case "integer" => v.Num? && v.r == v.r.Floor as real
    case "array" => v.Arr?
    case "object" => v.Obj?
    case _ => false
  }

  predicate TypeHolds(typ: Json, v: Json) {
    match typ
    case Str(t) => HasType(t, v)
    case Arr(ts) => exists i :: 0 <= i < |ts| && ts[i].Str? && HasType(ts[i].s, v)
    case _ => true
  }

  // The value satisfies the schema. "seen" holds the definitions already
  // entered at this same value: entering one again makes no progress, so the
  // least reading of the recursion rejects.
  ghost predicate Valid(defs: seq<Member>, schema: Json, v: Json, seen: set<string>)
    decreases v, |Keys(defs) - seen|, 1, schema
  {
    match schema
    case Bool(b) => b
    case Obj(ms) =>
      && (match Lookup(ms, "$ref")
          case Some(Str(ref)) => RefHolds(defs, ref, v, seen)
          case _ => true)
      && (match Lookup(ms, "anyOf")
          case Some(Arr(alts)) => exists i :: 0 <= i < |alts| && Valid(defs, alts[i], v, seen)
          case _ => true)
      && (match Lookup(ms, "oneOf")
          case Some(Arr(alts)) =>
            exists i :: 0 <= i < |alts| && Valid(defs, alts[i], v, seen)
              && forall j :: 0 <= j < |alts| && j != i ==> !Valid(defs, alts[j], v, seen)
          case _ => true)
      && (match Lookup(ms, "enum")
          case Some(Arr(values)) => v in values
          case _ => true)
      && (match Lookup(ms, "type")
          case Some(t) => TypeHolds(t, v)
          case _ => true)
      && PropertiesHold(defs, ms, v)
      && RequiredHolds(ms, v)
      && ItemsHold(defs, ms, v)
    case _ => false
  }

  // "properties" says nothing about a value that is not an object.
  ghost predicate PropertiesHold(defs: seq<Member>, ms: seq<Member>, v: Json)
    decreases v, 0, 0
  {
    match Lookup(ms, "properties")
    case Some(Obj(props)) => v.Obj? ==>
      forall i :: 0 <= i < |props| ==>
        Has(v.members, props[i].key) ==> Valid(defs, props[i].value, Lookup(v.members, props[i].key).value, {})
    case _ => true
  }

  ghost predicate RequiredHolds(ms: seq<Member>, v: Json) {
    match Lookup(ms, "required")
    case Some(Arr(names)) => v.Obj? ==>
      forall i :: 0 <= i < |names| && names[i].Str? ==> Has(v.members, names[i].s)
    case _ => true
  }

  ghost predicate ItemsHold(defs: seq<Member>, ms: seq<Member>, v: Json)
    decreases v, 0, 0
  {
    match Lookup(ms, "items")
    case Some(s) => v.Arr? ==> forall i :: 0 <= i < |v.items| ==> Valid(defs, s, v.items[i], {})
    case _ => true
  }

  ghost predicate RefHolds(defs: seq<Member>, ref: string, v: Json, seen: set<string>)
    decreases v, |Keys(defs) - seen|, 0
  {
    match LocalName(ref)
    case None => false
    case Some(name) =>
      match Lookup(defs, name)
      case None => false
      case Some(d) =>
        KeysAreLookups(defs, name);
        && name !in seen
        && (assert Keys(defs) - (seen + {name}) < Keys(defs) - seen by {
              assert name in Keys(defs) - seen;
            }
            StrictSubsetSmaller(Keys(defs) - (seen + {name}), Keys(defs) - seen);
            Valid(defs, d, v, seen + {name}))
  }

  lemma StrictSubsetSmaller<T>(a: set<T>, b: set<T>)
    requires a < b
    ensures |a| < |b|
  {
    assert b == a + (b - a);
    assert |b| == |a| + |b - a|;
    assert b - a != {};
  }
}
