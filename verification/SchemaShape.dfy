// How one schema node is read: the branch order of _ModelBuilder._field_for,
// the local references it may follow, and the reference walker of the
// upload validator.
module SchemaShape {
  import opened Wrappers
  import opened JsonValues

  datatype Shape =
    | Permissive                      // true, null, {}, or nothing recognised
    | Invalid                         // not a schema at all
    | Ref(ref: string)
    | BadUnion                        // anyOf/oneOf that is not a non-empty list
    | Union(alternatives: seq<Json>)
    | Enum(values: seq<Json>)
    | Tokens(tokens: seq<Json>)       // "type": one token, or a list of tokens

  function UnionShape(j: Json): (s: Shape)
    ensures s.Union? ==> j == Arr(s.alternatives)
  {
    if j.Arr? && j.items != [] then Union(j.items) else BadUnion
  }

  function ShapeOf(schema: Json): (s: Shape)
    ensures s.Union? ==> forall i :: 0 <= i < |s.alternatives| ==> s.alternatives[i] < schema
    ensures s.Tokens? || s.Ref? || s.Union? || s.Enum? ==> schema.Obj?
  {
    if schema == Bool(true) || schema == Null || schema == Obj([]) then Permissive
    else if !schema.Obj? then Invalid
    else
      var ms := schema.members;
      var ref := Lookup(ms, "$ref");
      if ref.Some? && ref.value.Str? then Ref(ref.value.s)
      else if Has(ms, "anyOf") then UnionShape(Lookup(ms, "anyOf").value)
      else if Has(ms, "oneOf") then UnionShape(Lookup(ms, "oneOf").value)
      else
        var enum := Lookup(ms, "enum");
        if enum.Some? && enum.value.Arr? && enum.value.items != [] then Enum(enum.value.items)
        else
          match Lookup(ms, "type")
          case Some(Arr(ts)) => Tokens(ts)
          case Some(Str(t)) => Tokens([Str(t)])
          case _ => Permissive
  }

  const DEFS_PREFIX := "#/$defs/"
  const DEFINITIONS_PREFIX := "#/definitions/"

  predicate StartsWith(s: string, prefix: string) {
    |prefix| <= |s| && s[..|prefix|] == prefix
  }

  // The two local forms a reference may take.
  predicate IsLocalRef(ref: string) {
    StartsWith(ref, DEFS_PREFIX) || StartsWith(ref, DEFINITIONS_PREFIX)
  }

  function LocalName(ref: string): (r: Option<string>)
    ensures r.Some? <==> IsLocalRef(ref)
  {
    if StartsWith(ref, DEFS_PREFIX) then Some(ref[|DEFS_PREFIX|..])
    else if StartsWith(ref, DEFINITIONS_PREFIX) then Some(ref[|DEFINITIONS_PREFIX|..])
    else None
  }

  // Whether a $defs entry is built as a model of its own.
  predicate IsObjectDef(d: Json) {
    && d.Obj?
    && (Lookup(d.members, "type") == Some(Str("object")) || Has(d.members, "properties"))
  }

  const PRIMITIVES: set<string> := {"string", "integer", "number", "boolean", "null"}

  // The properties an object node declares; empty when absent or falsy, and
  // None when "properties" is something .items() cannot be called on.
  function Properties(node: Json): (r: Option<seq<Member>>)
    ensures r.Some? ==> forall i :: 0 <= i < |r.value| ==> r.value[i].value < node
  {
    if !node.Obj? then None
    else
      match Lookup(node.members, "properties")
      case None => Some([])
      case Some(p) =>
        if !Truthy(p) then Some([])
        else if p.Obj? then Some(p.members)
        else None
  }

  // set(node.get("required") or []); None when Python would raise TypeError.
  function RequiredNames(node: Json): Option<set<string>> {
    if !node.Obj? then None
    else
      match Lookup(node.members, "required")
      case None => Some({})
      case Some(r) =>
        if !Truthy(r) then Some({})
        else
          match r
          case Arr(items) =>
            if exists i :: 0 <= i < |items| && (items[i].Arr? || items[i].Obj?) then None
            else Some(set i | 0 <= i < |items| && items[i].Str? :: items[i].s)
          case Str(s) => Some(set i | 0 <= i < |s| :: [s[i]])
          case Obj(members) => Some(Keys(members))
          case _ => None
  }

  // "items" of an array node; absent or null means any element.
  function ItemsOf(node: Json): (r: Option<Json>)
    ensures r.Some? ==> r.value < node
  {
    if !node.Obj? then None
    else
      match Lookup(node.members, "items")
      case None => None
      case Some(j) => if j == Null then None else Some(j)
  }

  // schema_validator._walk_refs: every string under a "$ref" key, at any depth.
  function WalkRefs(j: Json): set<string> {
    match j
    case Obj(members) =>
      (match Lookup(members, "$ref") case Some(Str(r)) => {r} case _ => {})
      + (set i, r | 0 <= i < |members| && r in WalkRefs(members[i].value) :: r)
    case Arr(items) => set i, r | 0 <= i < |items| && r in WalkRefs(items[i]) :: r
    case _ => {}
  }

  // Every key that occurs anywhere in the document.
  function AllKeys(j: Json): set<string> {
    match j
    case Obj(members) =>
      Keys(members) + (set i, k | 0 <= i < |members| && k in AllKeys(members[i].value) :: k)
    case Arr(items) => set i, k | 0 <= i < |items| && k in AllKeys(items[i]) :: k
    case _ => {}
  }
}
