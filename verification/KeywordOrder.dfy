// Which keyword of a node decides its type when several are there, and what
// odd values of "properties" and "required" count as.
module KeywordOrder {
  import opened Wrappers
  import opened JsonValues
  import opened SchemaShape
  import opened ModelTable
  import opened ModelNames
  import opened Translation

  // A reference comes first, then anyOf, then oneOf, which is read as anyOf,
  // then a list of allowed values.
  function Deciding(ms: seq<Member>): Option<Member> {
    match (Lookup(ms, "$ref"), Lookup(ms, "anyOf"), Lookup(ms, "oneOf"), Lookup(ms, "enum"))
    case (Some(Str(ref)), _, _, _) => Some(Member("$ref", Str(ref)))
    case (_, Some(alts), _, _) => Some(Member("anyOf", alts))
    case (_, None, Some(alts), _) => Some(Member("anyOf", alts))
    case (_, None, None, Some(Arr(values))) => if values == [] then None else Some(Member("enum", Arr(values)))
    case _ => None
  }

  lemma ShapeOfOne(m: Member)
    requires m.key == "$ref" ==> m.value.Str?
    requires m.key == "enum" ==> m.value.Arr? && m.value.items != []
    ensures m.key == "$ref" ==> ShapeOf(Obj([m])) == Ref(m.value.s)
    ensures m.key == "anyOf" ==> ShapeOf(Obj([m])) == UnionShape(m.value)
    ensures m.key == "enum" ==> ShapeOf(Obj([m])) == Enum(m.value.items)
  {
    LookupOne(m, "$ref");
    LookupOne(m, "anyOf");
    LookupOne(m, "oneOf");
    LookupOne(m, "enum");
    hide Lookup;
  }

  lemma DecidingShape(ms: seq<Member>)
    requires Deciding(ms).Some?
    ensures ShapeOf(Obj(ms)) == ShapeOf(Obj([Deciding(ms).value]))
  {
    assert ms != [];
    ShapeOfOne(Deciding(ms).value);
    assert ShapeOf(Obj(ms)) == ShapeOf(Obj([Deciding(ms).value])) by { hide Lookup, UnionShape; }
  }

  // The type of a node with such a keyword is that of the keyword alone.
  lemma FirstKeywordWins(c: Context, n: nat, ms: seq<Member>, t: PyType, origin: map<string, Json>)
    requires Deciding(ms).Some?
    ensures Translates(c, n, Obj(ms), t, origin) <==> Translates(c, n, Obj([Deciding(ms).value]), t, origin)
  {
    DecidingShape(ms);
    hide ShapeOf, Deciding, Lookup;
  }

  // Otherwise "type" decides: nothing is known unless it is a string or a list.
  ghost predicate TypedBy(c: Context, n: nat, ms: seq<Member>, t: PyType, origin: map<string, Json>) {
    match Lookup(ms, "type")
    case Some(Str(s)) => TokenTranslates(c, n, Str(s), Obj(ms), t, origin)
    case Some(Arr(ts)) => AllTyped(c, n, ms, ts, t, origin)
    case _ => t == AnyType
  }

  ghost predicate AllTyped(c: Context, n: nat, ms: seq<Member>, ts: seq<Json>, t: PyType, origin: map<string, Json>) {
    if |ts| == 1 then TokenTranslates(c, n, ts[0], Obj(ms), t, origin)
    else
      ts != [] && t.UnionOf? && |t.options| == |ts|
      && forall i :: 0 <= i < |ts| ==> TokenTranslates(c, n, ts[i], Obj(ms), t.options[i], origin)
  }

  lemma ThenType(c: Context, n: nat, ms: seq<Member>, t: PyType, origin: map<string, Json>)
    requires Deciding(ms).None?
    ensures Translates(c, n, Obj(ms), t, origin) <==> TypedBy(c, n, ms, t, origin)
  {
    TypeShape(ms);
    hide ShapeOf, Deciding, Lookup, TokenTranslates;
  }

  lemma TypeShape(ms: seq<Member>)
    requires Deciding(ms).None?
    ensures match Lookup(ms, "type")
            case Some(Str(s)) => ShapeOf(Obj(ms)) == Tokens([Str(s)])
            case Some(Arr(ts)) => ShapeOf(Obj(ms)) == Tokens(ts)
            case _ => ShapeOf(Obj(ms)) == Permissive
  {
    if ms == [] { assert Lookup(ms, "type").None?; }
    hide Lookup;
  }

  // The names "required" counts as: list entries, or the parts of a string or
  // an object.
  lemma RequiredExactly(ms: seq<Member>, key: string)
    requires RequiredNames(Obj(ms)).Some?
    ensures key in RequiredNames(Obj(ms)).value <==>
              match Lookup(ms, "required")
              case Some(Arr(items)) => Str(key) in items
              case Some(Str(s)) => |key| == 1 && key[0] in s
              case Some(Obj(members)) => Has(members, key)
              case _ => false
  {
    match Lookup(ms, "required")
    case Some(Obj(members)) => KeysAreLookups(members, key);
    case Some(Str(s)) => if |key| == 1 { assert key == [key[0]]; }
    case _ =>
  }

  // "properties" that is empty or counts as nothing declares none.
  lemma PropertiesExactly(ms: seq<Member>)
    ensures match Lookup(ms, "properties")
            case Some(Obj(props)) => Properties(Obj(ms)) == Some(props)
            case Some(p) =>
              var falsy := p == Null || p == Bool(false) || p == Num(0.0) || p == Str("") || p == Arr([]);
              Properties(Obj(ms)) == if falsy then Some([]) else None
            case None => Properties(Obj(ms)) == Some([])
  {
  }

  // ---- inline names ----------------------------------------------------------------

  // The parts between underscores.
  function Joined(parts: seq<string>): string {
    if parts == [] then "" else if |parts| == 1 then parts[0] else parts[0] + "_" + Joined(parts[1..])
  }

  function Capitalized(capitalize: string -> string, parts: seq<string>): string {
    if parts == [] then ""
    else (if parts[0] == "" then "" else capitalize(parts[0])) + Capitalized(capitalize, parts[1..])
  }

  lemma {:induction false} CamelPart(capitalize: string -> string, part: string, more: string, rest: string)
    requires '_' !in more
    ensures Camel(capitalize, part, more + rest) == Camel(capitalize, part + more, rest)
    decreases |more|
  {
    if more == "" {
      assert more + rest == rest && part + more == part;
    } else {
      assert (more + rest)[0] == more[0] && (more + rest)[1..] == more[1..] + rest;
      assert more[0] != '_' && '_' !in more[1..];
      CamelPart(capitalize, part + [more[0]], more[1..], rest);
      assert part + [more[0]] + more[1..] == part + more;
    }
  }

  lemma {:induction false} CamelIs(capitalize: string -> string, parts: seq<string>)
    requires parts != [] && forall i :: 0 <= i < |parts| ==> '_' !in parts[i]
    ensures Camel(capitalize, "", Joined(parts)) == Capitalized(capitalize, parts)
    decreases |parts|
  {
    var p := parts[0];
    var rest := if |parts| == 1 then "" else "_" + Joined(parts[1..]);
    assert Joined(parts) == p + rest;
    CamelPart(capitalize, "", p, rest);
    assert "" + p == p;
    if |parts| > 1 {
      assert rest[0] == '_' && rest[1..] == Joined(parts[1..]);
      CamelIs(capitalize, parts[1..]);
    } else {
      assert parts[1..] == [];
      assert Capitalized(capitalize, parts[1..]) == "";
    }
  }

  // An inline object is named after its parent and the capitalised parts of
  // its property.
  lemma InlineNameIs(capitalize: string -> string, parent: string, parts: seq<string>)
    requires parts != [] && forall i :: 0 <= i < |parts| ==> '_' !in parts[i]
    ensures var camel := Capitalized(capitalize, parts);
            InlineName(capitalize, parent, Joined(parts)) == parent + "_" + (if camel == "" then "Inline" else camel)
  {
    CamelIs(capitalize, parts);
  }
}
