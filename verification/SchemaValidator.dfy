// schema_validator.py: what an uploaded schema document is checked for. The
// walkers list findings with the text of their path; the theorems say which
// places of the document those are, and that a document that passes never
// makes the model builder meet a reference it refuses.
module SchemaValidator {
  import opened Wrappers
  import opened Decimals
  import opened JsonValues
  import opened SchemaShape
  import ModelBuilder
  import ModelTable
  import opened SchemaFragment

  datatype Finding = Finding(path: string, text: string)

  // A place in a document: which member or item to take, level by level.
  type Place = seq<nat>

  function Children(j: Json): (cs: seq<Json>)
    ensures forall i :: 0 <= i < |cs| ==> cs[i] < j
  {
    match j
    case Obj(members) => seq(|members|, i requires 0 <= i < |members| => members[i].value)
    case Arr(items) => items
    case _ => []
  }

  function At(j: Json, place: Place): Option<Json>
    decreases |place|
  {
    if place == [] then Some(j)
    else if place[0] < |Children(j)| then At(Children(j)[place[0]], place[1..])
    else None
  }

  // child_path
  function ChildPath(j: Json, path: string, i: nat): string
    requires i < |Children(j)|
  {
    if j.Obj? then (if path != "" then path + "." + j.members[i].key else j.members[i].key)
    else path + "[" + Dec(i) + "]"
  }

  function PathText(j: Json, place: Place, path: string): string
    requires At(j, place).Some?
    decreases |place|
  {
    if place == [] then path
    else PathText(Children(j)[place[0]], place[1..], ChildPath(j, path, place[0]))
  }

  // ---- what one node itself reports ----------------------------------------

  function OwnRefs(j: Json): seq<string> {
    if j.Obj? then
      match Lookup(j.members, "$ref") case Some(Str(r)) => [r] case _ => []
    else []
  }

  predicate IsExtension(key: string) { StartsWith(key, "x-") }

  // ---- the walkers -----------------------------------------------------------

  // _walk_refs
  function ListRefs(j: Json, path: string): seq<Finding>
    decreases j, 1, 0
  {
    (if OwnRefs(j) == [] then [] else [Finding(path, OwnRefs(j)[0])]) + ListRefsIn(j, path, 0)
  }

  function ListRefsIn(j: Json, path: string, i: nat): seq<Finding>
    requires i <= |Children(j)|
    decreases j, 0, |Children(j)| - i
  {
    if i == |Children(j)| then []
    else ListRefs(Children(j)[i], ChildPath(j, path, i)) + ListRefsIn(j, path, i + 1)
  }

  // _walk_extension_keywords: a key is reported just before its value is walked
  function ListExtensions(j: Json, path: string): seq<Finding>
    decreases j, 1, 0
  {
    ListExtensionsIn(j, path, 0)
  }

  function ListExtensionsIn(j: Json, path: string, i: nat): seq<Finding>
    requires i <= |Children(j)|
    decreases j, 0, |Children(j)| - i
  {
    if i == |Children(j)| then []
    else
      (if j.Obj? && IsExtension(j.members[i].key) then [Finding(path, j.members[i].key)] else [])
      + ListExtensions(Children(j)[i], ChildPath(j, path, i))
      + ListExtensionsIn(j, path, i + 1)
  }

  // ---- what they list --------------------------------------------------------

  // A string "$ref" sits at this place.
  predicate RefAt(j: Json, place: Place, ref: string) {
    At(j, place).Some? && OwnRefs(At(j, place).value) == [ref]
  }

  predicate ExtensionAt(j: Json, place: Place, key: string) {
    At(j, place).Some? && At(j, place).value.Obj? && Has(At(j, place).value.members, key)
    && |key| >= 2 && key[0] == 'x' && key[1] == '-'
  }

  // Every string "$ref" of the document is listed with its path, whatever its
  // depth, and nothing else is.
  lemma {:induction false} RefsAreListed(j: Json, path: string, f: Finding)
    ensures f in ListRefs(j, path) <==> exists place :: RefAt(j, place, f.text) && PathText(j, place, path) == f.path
    decreases j, 1, 0
  {
    if OwnRefs(j) == [f.text] && f.path == path {
      assert RefAt(j, [], f.text) && PathText(j, [], path) == f.path;
    }
    RefsInAreListed(j, path, 0, f);
    if f in ListRefsIn(j, path, 0) {
      var place :| RefAt(j, place, f.text) && place != [] && PathText(j, place, path) == f.path;
    }
    forall place | RefAt(j, place, f.text) && PathText(j, place, path) == f.path ensures f in ListRefs(j, path) {
      if place != [] { assert 0 <= place[0]; }
    }
  }

  // A string "$ref" sits below child i or a later one; below this child.
  ghost predicate RefBelow(j: Json, path: string, i: nat, f: Finding) {
    exists place :: RefAt(j, place, f.text) && place != [] && i <= place[0] && PathText(j, place, path) == f.path
  }

  ghost predicate RefIn(j: Json, path: string, i: nat, f: Finding)
    requires i < |Children(j)|
  {
    exists place :: RefAt(Children(j)[i], place, f.text)
                    && PathText(Children(j)[i], place, ChildPath(j, path, i)) == f.path
  }

  lemma RefBelowSplits(j: Json, path: string, i: nat, f: Finding)
    requires i < |Children(j)|
    ensures RefBelow(j, path, i, f) <==> RefIn(j, path, i, f) || RefBelow(j, path, i + 1, f)
  {
    hide At, PathText, OwnRefs, ChildPath;
    if RefIn(j, path, i, f) {
      var place :| RefAt(Children(j)[i], place, f.text)
                   && PathText(Children(j)[i], place, ChildPath(j, path, i)) == f.path;
      assert ([i] + place)[1..] == place;
      OneUp(j, [i] + place, path);
      assert RefAt(j, [i] + place, f.text) && PathText(j, [i] + place, path) == f.path;
    }
    if RefBelow(j, path, i, f) {
      var place :| RefAt(j, place, f.text) && place != [] && i <= place[0] && PathText(j, place, path) == f.path;
      OneDown(j, place, path);
      if place[0] == i {
        assert RefAt(Children(j)[i], place[1..], f.text);
      }
    }
  }

  lemma NoRefBelow(j: Json, path: string, f: Finding)
    ensures !RefBelow(j, path, |Children(j)|, f)
  {
  }

  lemma {:induction false} RefsInAreListed(j: Json, path: string, i: nat, f: Finding)
    requires i <= |Children(j)|
    ensures f in ListRefsIn(j, path, i) <==> RefBelow(j, path, i, f)
    decreases j, 0, |Children(j)| - i
  {
    if i < |Children(j)| {
      RefsAreListed(Children(j)[i], ChildPath(j, path, i), f);
      RefsInAreListed(j, path, i + 1, f);
      RefBelowSplits(j, path, i, f);
      hide ListRefs, RefBelow, RefAt, PathText, ChildPath;
    } else {
      NoRefBelow(j, path, f);
    }
  }

  lemma {:induction false} ExtensionsAreListed(j: Json, path: string, f: Finding)
    ensures f in ListExtensions(j, path) <==>
              exists place :: ExtensionAt(j, place, f.text) && PathText(j, place, path) == f.path
    decreases j, 1, 0
  {
    ExtensionsInAreListed(j, path, 0, f);
    ExtensionHereOrBelow(j, path, f);
    hide ExtensionBelow, At, PathText, OwnExtension, ExtensionAt, ListExtensionsIn;
  }

  lemma ExtensionHereOrBelow(j: Json, path: string, f: Finding)
    ensures (exists place :: ExtensionAt(j, place, f.text) && PathText(j, place, path) == f.path) <==>
              (OwnExtension(j, 0, f.text) && f.path == path) || ExtensionBelow(j, path, 0, f)
  {
    if j.Obj? { OwnKey(j, f.text); }
    assert At(j, []) == Some(j);
    hide IsExtension;
    if OwnExtension(j, 0, f.text) && f.path == path {
      assert ExtensionAt(j, [], f.text) && PathText(j, [], path) == f.path;
    }
    hide At, OwnExtension;
    forall place | ExtensionAt(j, place, f.text) && PathText(j, place, path) == f.path
      ensures (OwnExtension(j, 0, f.text) && f.path == path) || ExtensionBelow(j, path, 0, f)
    {
      if place != [] { assert 0 <= place[0]; }
    }
  }

  predicate OwnExtension(j: Json, i: nat, key: string) {
    j.Obj? && IsExtension(key) && exists k :: i <= k < |j.members| && j.members[k].key == key
  }

  lemma OwnExtensionSplits(j: Json, i: nat, key: string)
    requires i < |Children(j)|
    ensures OwnExtension(j, i, key) <==>
              (j.Obj? && j.members[i].key == key && IsExtension(key)) || OwnExtension(j, i + 1, key)
    ensures !OwnExtension(j, |Children(j)|, key)
  {
  }

  lemma OwnKey(j: Json, key: string)
    requires j.Obj?
    ensures OwnExtension(j, 0, key) <==> IsExtension(key) && Has(j.members, key)
    ensures IsExtension(key) <==> |key| >= 2 && key[0] == 'x' && key[1] == '-'
  {
    assert |key| >= 2 ==> key[..2] == [key[0], key[1]];
  }

  ghost predicate ExtensionBelow(j: Json, path: string, i: nat, f: Finding) {
    exists place :: ExtensionAt(j, place, f.text) && place != [] && i <= place[0] && PathText(j, place, path) == f.path
  }

  // The extension key sits below this child.
  ghost predicate ExtensionIn(j: Json, path: string, i: nat, f: Finding)
    requires i < |Children(j)|
  {
    exists place :: ExtensionAt(Children(j)[i], place, f.text)
                    && PathText(Children(j)[i], place, ChildPath(j, path, i)) == f.path
  }

  lemma ExtensionBelowSplits(j: Json, path: string, i: nat, f: Finding)
    requires i < |Children(j)|
    ensures ExtensionBelow(j, path, i, f) <==> ExtensionIn(j, path, i, f) || ExtensionBelow(j, path, i + 1, f)
  {
    hide At, PathText, Has, IsExtension, ChildPath;
    if ExtensionIn(j, path, i, f) {
      var place :| ExtensionAt(Children(j)[i], place, f.text)
                   && PathText(Children(j)[i], place, ChildPath(j, path, i)) == f.path;
      assert ([i] + place)[1..] == place;
      OneUp(j, [i] + place, path);
      assert ExtensionAt(j, [i] + place, f.text) && PathText(j, [i] + place, path) == f.path;
    }
    if ExtensionBelow(j, path, i, f) {
      var place :| ExtensionAt(j, place, f.text) && place != [] && i <= place[0] && PathText(j, place, path) == f.path;
      OneDown(j, place, path);
      if place[0] == i {
        assert ExtensionAt(Children(j)[i], place[1..], f.text);
      }
    }
  }

  lemma OneUp(j: Json, place: Place, path: string)
    requires place != [] && place[0] < |Children(j)| && At(Children(j)[place[0]], place[1..]).Some?
    ensures At(j, place) == At(Children(j)[place[0]], place[1..])
    ensures PathText(j, place, path) == PathText(Children(j)[place[0]], place[1..], ChildPath(j, path, place[0]))
  {
  }

  lemma OneDown(j: Json, place: Place, path: string)
    requires place != [] && At(j, place).Some?
    ensures place[0] < |Children(j)| && At(j, place) == At(Children(j)[place[0]], place[1..])
    ensures PathText(j, place, path) == PathText(Children(j)[place[0]], place[1..], ChildPath(j, path, place[0]))
  {
  }

  lemma {:induction false} ExtensionsInAreListed(j: Json, path: string, i: nat, f: Finding)
    requires i <= |Children(j)|
    ensures f in ListExtensionsIn(j, path, i) <==>
              (OwnExtension(j, i, f.text) && f.path == path) || ExtensionBelow(j, path, i, f)
    decreases j, 0, |Children(j)| - i
  {
    ExtensionsFrom(j, path, i, f);
    if i < |Children(j)| {
      ExtensionsAreListed(Children(j)[i], ChildPath(j, path, i), f);
      ExtensionsInAreListed(j, path, i + 1, f);
      ExtensionBelowSplits(j, path, i, f);
      OwnExtensionSplits(j, i, f.text);
      hide *;
    } else {
      NoExtensionBelow(j, path, f);
      hide ListExtensionsIn, At, PathText;
    }
  }

  lemma NoExtensionBelow(j: Json, path: string, f: Finding)
    ensures !ExtensionBelow(j, path, |Children(j)|, f)
  {
    hide PathText;
  }

  lemma ExtensionsFrom(j: Json, path: string, i: nat, f: Finding)
    requires i <= |Children(j)|
    ensures f in ListExtensionsIn(j, path, i) <==>
              i < |Children(j)|
              && ((j.Obj? && IsExtension(j.members[i].key) && f == Finding(path, j.members[i].key))
                  || f in ListExtensions(Children(j)[i], ChildPath(j, path, i))
                  || f in ListExtensionsIn(j, path, i + 1))
  {
    hide ListExtensions, IsExtension, ChildPath;
  }

  // The references listed are the ones the model builder can come across.
  lemma {:induction false} ListedAreWalked(j: Json, path: string, ref: string)
    ensures ref in WalkRefs(j) <==> exists f :: f in ListRefs(j, path) && f.text == ref
    decreases j, 1, 0
  {
    ListedInAreWalked(j, path, 0, ref);
    if OwnRefs(j) == [ref] { assert Finding(path, ref) in ListRefs(j, path); }
    WalkedHereOrBelow(j, ref);
    hide WalkRefs, OwnRefs, Children;
  }

  lemma WalkedHereOrBelow(j: Json, ref: string)
    ensures ref in WalkRefs(j) <==>
              OwnRefs(j) == [ref] || exists k :: 0 <= k < |Children(j)| && ref in WalkRefs(Children(j)[k])
  {
    match j
    case Obj(members) =>
      assert forall k :: 0 <= k < |members| ==> Children(j)[k] == members[k].value;
    case Arr(items) =>
      assert forall k :: 0 <= k < |items| ==> Children(j)[k] == items[k];
    case _ =>
  }

  lemma {:induction false} ListedInAreWalked(j: Json, path: string, i: nat, ref: string)
    requires i <= |Children(j)|
    ensures (exists f :: f in ListRefsIn(j, path, i) && f.text == ref) <==>
            (exists k :: i <= k < |Children(j)| && ref in WalkRefs(Children(j)[k]))
    decreases j, 0, |Children(j)| - i
  {
    if i < |Children(j)| {
      ListedAreWalked(Children(j)[i], ChildPath(j, path, i), ref);
      ListedInAreWalked(j, path, i + 1, ref);
    }
  }

  // ---- validate_json_schema --------------------------------------------------

  datatype Violation =
    | EmptyUpload
    | TooLarge(size: nat)
    | NotJson                                  // not UTF-8, or not JSON
    | RootNotObject
    | RootType                                 // "type" is not "object"
    | RootProperties                           // no "properties" object
    | MetaSchema                               // refused by the 2020-12 meta-schema
    | UnsupportedKeyword(path: string, key: string)
    | UnsupportedRef(path: string, ref: string)

  const MAX_SCHEMA_BYTES: nat := 1024 * 1024

  const ALLOWED_CPS_KEYWORDS: set<string> := {}

  // What is wrong with a document, in terms of its places.
  ghost predicate Violates(document: Json, conforms: Json -> bool, e: Violation)
    requires document.Obj?
  {
    match e
    case RootType => Lookup(document.members, "type") != Some(Str("object"))
    case RootProperties => !(exists ms :: Lookup(document.members, "properties") == Some(Obj(ms)))
    case MetaSchema => !conforms(document)
    case UnsupportedKeyword(path, key) =>
      exists place :: ExtensionAt(document, place, key) && PathText(document, place, "") == path
    case UnsupportedRef(path, ref) =>
      !IsLocalRef(ref) && exists place :: RefAt(document, place, ref) && PathText(document, place, "") == path
    case _ => false
  }

  // A document the rest of the system may rely on.
  ghost predicate Acceptable(document: Json, conforms: Json -> bool) {
    && document.Obj?
    && Lookup(document.members, "type") == Some(Str("object"))
    && (exists ms :: Lookup(document.members, "properties") == Some(Obj(ms)))
    && conforms(document)
    && (forall place, key :: !ExtensionAt(document, place, key))
    && forall place, ref :: RefAt(document, place, ref) ==> IsLocalRef(ref)
  }

  lemma ExtensionViolates(document: Json, conforms: Json -> bool, place: Place, key: string)
    requires document.Obj? && ExtensionAt(document, place, key)
    ensures exists e :: Violates(document, conforms, e)
  {
    hide At, PathText, Has;
    assert Violates(document, conforms, UnsupportedKeyword(PathText(document, place, ""), key));
  }

  lemma AcceptableExactly(document: Json, conforms: Json -> bool)
    requires document.Obj?
    ensures Acceptable(document, conforms) <==> forall e :: !Violates(document, conforms, e)
  {
    hide At, PathText, Has, OwnRefs, IsLocalRef, IsExtension;
    if forall e :: !Violates(document, conforms, e) {
      assert !Violates(document, conforms, RootType) && !Violates(document, conforms, RootProperties);
      assert !Violates(document, conforms, MetaSchema);
      forall place, key ensures !ExtensionAt(document, place, key) {
        if ExtensionAt(document, place, key) { ExtensionViolates(document, conforms, place, key); }
      }
      forall place, ref | RefAt(document, place, ref) ensures IsLocalRef(ref) {
        assert !Violates(document, conforms, UnsupportedRef(PathText(document, place, ""), ref));
      }
    }
  }

  // The checks before the walks.
  method CheckRoot(document: Json, conforms: Json -> bool) returns (errors: seq<Violation>)
    requires document.Obj?
    ensures forall e :: e in errors <==>
              (e.RootType? || e.RootProperties? || e.MetaSchema?) && Violates(document, conforms, e)
  {
    errors := [];
    if Lookup(document.members, "type") != Some(Str("object")) { errors := errors + [RootType]; }
    var properties := Lookup(document.members, "properties");
    if properties.None? || !properties.value.Obj? { errors := errors + [RootProperties]; }
    if !conforms(document) { errors := errors + [MetaSchema]; }
  }

  method CheckKeywords(document: Json, conforms: Json -> bool, before: seq<Violation>) returns (errors: seq<Violation>)
    requires document.Obj?
    ensures forall e :: e in errors <==> e in before || (e.UnsupportedKeyword? && Violates(document, conforms, e))
  {
    errors := before;
    var findings := ListExtensions(document, "");
    for i := 0 to |findings|
      invariant forall e :: e in errors <==>
                  e in before
                  || (e.UnsupportedKeyword? && e.key !in ALLOWED_CPS_KEYWORDS
                      && Finding(e.path, e.key) in findings[..i])
    {
      if findings[i].text !in ALLOWED_CPS_KEYWORDS {
        errors := errors + [UnsupportedKeyword(findings[i].path, findings[i].text)];
      }
    }
    forall e: Violation | e.UnsupportedKeyword?
      ensures Finding(e.path, e.key) in findings <==> Violates(document, conforms, e)
    {
      ExtensionsAreListed(document, "", Finding(e.path, e.key));
    }
  }

  method CheckRefs(document: Json, conforms: Json -> bool, before: seq<Violation>) returns (errors: seq<Violation>)
    requires document.Obj?
    ensures forall e :: e in errors <==> e in before || (e.UnsupportedRef? && Violates(document, conforms, e))
  {
    hide ListRefs, RefAt, PathText, IsLocalRef, At;
    errors := before;
    var findings := ListRefs(document, "");
    for i := 0 to |findings|
      invariant forall e :: e in errors <==>
                  e in before || (e.UnsupportedRef? && !IsLocalRef(e.ref) && Finding(e.path, e.ref) in findings[..i])
    {
      if !IsLocalRef(findings[i].text) {
        errors := errors + [UnsupportedRef(findings[i].path, findings[i].text)];
      }
    }
    forall e: Violation | e.UnsupportedRef?
      ensures !IsLocalRef(e.ref) && Finding(e.path, e.ref) in findings <==> Violates(document, conforms, e)
    {
      RefsAreListed(document, "", Finding(e.path, e.ref));
    }
  }

  // json.loads(raw.decode("utf-8")) and the meta-schema check are parameters.
  method ValidateJsonSchema(raw: Option<seq<bv8>>, parse: seq<bv8> -> Option<Json>, conforms: Json -> bool)
      returns (res: Result<Json, seq<Violation>>)
    ensures raw.None? ==> res == Err([EmptyUpload])
    ensures raw.Some? && |raw.value| > 1_048_576 ==> res == Err([TooLarge(|raw.value|)])
    ensures raw.Some? && |raw.value| <= 1_048_576 ==>
              match parse(raw.value)
              case None => res == Err([NotJson])
              case Some(document) =>
                if !document.Obj? then res == Err([RootNotObject])
                else if Acceptable(document, conforms) then res == Ok(document)
                else res.Err? && forall e :: e in res.error <==> Violates(document, conforms, e)
  {
    if raw.None? { return Err([EmptyUpload]); }
    if |raw.value| > MAX_SCHEMA_BYTES { return Err([TooLarge(|raw.value|)]); }
    var parsed := parse(raw.value);
    if parsed.None? { return Err([NotJson]); }
    var document := parsed.value;
    if !document.Obj? { return Err([RootNotObject]); }
    var errors := CheckRoot(document, conforms);
    errors := CheckKeywords(document, conforms, errors);
    errors := CheckRefs(document, conforms, errors);
    AcceptableExactly(document, conforms);
    hide Acceptable;
    assert forall e :: e in errors <==> Violates(document, conforms, e);
    if errors != [] {
      assert Violates(document, conforms, errors[0]);
      return Err(errors);
    }
    res := Ok(document);
  }

  // Every reference an accepted document contains is one the builder resolves.
  lemma AcceptedRefsAreLocal(document: Json, conforms: Json -> bool, ref: string)
    requires Acceptable(document, conforms) && ref in WalkRefs(document)
    ensures IsLocalRef(ref)
  {
    ListedAreWalked(document, "", ref);
    var f :| f in ListRefs(document, "") && f.text == ref;
    RefsAreListed(document, "", f);
  }

  // An upload that passes, loaded later: the builder may fail for other
  // reasons, never because of a reference that is not local.
  method LoadUploaded(document: Json, conforms: Json -> bool, modelName: string, capitalize: string -> string,
                      ghost live: set<string>, ghost depth: nat)
      returns (res: Result<ModelTable.Table, ModelBuilder.LoadError>)
    requires Acceptable(document, conforms)
    requires ModelBuilder.GroundedDocument(document, live, depth)
    ensures res.Err? ==> !res.error.NonLocalRef?
    ensures res.Ok? ==> modelName in res.value && ModelTable.Closed(res.value)
  {
    ghost var c, origin;
    var order;
    res, order, c, origin := ModelBuilder.BuildModelFromSchema(document, modelName, capitalize, live, depth);
    if res.Err? && res.error.NonLocalRef? {
      AcceptedRefsAreLocal(document, conforms, res.error.ref);
    }
  }
}
