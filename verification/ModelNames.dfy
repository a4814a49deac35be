// The names the builder gives to inline object schemas.
module ModelNames {
  import opened JsonValues
  import opened SchemaShape
  import opened Decimals

  // str.split("_"), each part passed through str.capitalize and concatenated.
  // Case mapping itself is a parameter.
  function Camel(capitalize: string -> string, part: string, rest: string): string
    decreases rest
  {
    if rest == "" then (if part == "" then "" else capitalize(part))
    else if rest[0] == '_' then (if part == "" then "" else capitalize(part)) + Camel(capitalize, "", rest[1..])
    else Camel(capitalize, part + [rest[0]], rest[1..])
  }

  function InlineName(capitalize: string -> string, parent: string, prop: string): (name: string)
    ensures |name| > |parent| && name[..|parent|] == parent
  {
    var camel := Camel(capitalize, "", prop);
    parent + "_" + (if camel == "" then "Inline" else camel)
  }

  function Numbered(candidate: string, i: nat): string {
    candidate + "_" + Dec(i)
  }

  lemma NumberedInjective(candidate: string, i: nat, j: nat)
    requires Numbered(candidate, i) == Numbered(candidate, j)
    ensures i == j
  {
    assert Numbered(candidate, i)[|candidate| + 1..] == Dec(i);
    assert Numbered(candidate, j)[|candidate| + 1..] == Dec(j);
    DecInjective(i, j);
  }

  // The candidate itself if it is free, otherwise its first free number from
  // two upwards.
  ghost predicate FirstFree(taken: set<string>, candidate: string, name: string) {
    if candidate !in taken then name == candidate
    else
      name !in taken
      && exists i :: i >= 2 && name == Numbered(candidate, i)
           && forall j :: 2 <= j < i ==> Numbered(candidate, j) in taken
  }

  // Pigeonhole: only as many numbers are taken as there are names.
  lemma {:induction false} NumbersTaken(candidate: string, i: nat, taken: set<string>)
    requires i >= 2
    requires forall j :: 2 <= j < i ==> Numbered(candidate, j) in taken
    ensures i - 2 <= |taken|
    decreases i
  {
    if i > 2 {
      var last := Numbered(candidate, i - 1);
      forall j | 2 <= j < i - 1 ensures Numbered(candidate, j) in taken - {last} {
        if Numbered(candidate, j) == last { NumberedInjective(candidate, j, i - 1); }
      }
      NumbersTaken(candidate, i - 1, taken - {last});
    }
  }

  // Property labels the builder works with: a key of the document, followed
  // by one "_item" for each array it has descended into.
  ghost predicate IsLabel(document: Json, prop: string) {
    || prop in AllKeys(document)
    || (|prop| >= 5 && prop[|prop| - 5..] == "_item" && IsLabel(document, prop[..|prop| - 5]))
  }

  lemma ItemLabel(document: Json, prop: string)
    requires IsLabel(document, prop)
    ensures IsLabel(document, prop + "_item")
  {
    var l := prop + "_item";
    assert l[..|l| - 5] == prop && l[|l| - 5..] == "_item";
  }

  // Names an inline object of this document can be given: the name of an
  // enclosing model, a camel-cased property, and possibly a number.
  ghost predicate IsInlineName(capitalize: string -> string, document: Json, root: string, defs: set<string>,
                               name: string)
    decreases |name|, 0
  {
    exists k, prop ::
      && 0 <= k < |name|
      && IsLabel(document, prop)
      && IsParentName(capitalize, document, root, defs, name[..k])
      && IsNameFor(capitalize, name[..k], prop, name)
  }

  ghost predicate IsParentName(capitalize: string -> string, document: Json, root: string, defs: set<string>,
                               name: string)
    decreases |name|, 1
  {
    name == root || name in defs || IsInlineName(capitalize, document, root, defs, name)
  }

  ghost predicate IsNameFor(capitalize: string -> string, parent: string, prop: string, name: string) {
    var candidate := InlineName(capitalize, parent, prop);
    name == candidate || exists i :: i >= 2 && name == Numbered(candidate, i)
  }

  lemma FreshNameIsInline(capitalize: string -> string, document: Json, root: string, defs: set<string>,
                          parent: string, prop: string, name: string)
    requires IsParentName(capitalize, document, root, defs, parent)
    requires IsLabel(document, prop)
    requires IsNameFor(capitalize, parent, prop, name)
    ensures IsInlineName(capitalize, document, root, defs, name)
  {
    assert name[..|parent|] == parent;
  }
}
