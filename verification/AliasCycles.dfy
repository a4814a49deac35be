// When the builder's recursion ends. Object definitions are entered once,
// but a definition that is not an object model is expanded at every
// reference, so a cycle of such aliases is never left.
module AliasCycles {
  import opened Wrappers
  import opened JsonValues
  import opened SchemaShape
  import SchemaMeaning
  import opened SchemaFragment

  ghost predicate IsAlias(defs: seq<Member>, name: string) {
    Has(defs, name) && Lookup(defs, name).value.Obj? && !IsObjectDef(Lookup(defs, name).value)
  }

  // Translating the node expands a reference to one of these aliases.
  ghost predicate Expands(defs: seq<Member>, schema: Json, aliases: set<string>)
    decreases schema, 1
  {
    match ShapeOf(schema)
    case Ref(ref) => LocalName(ref).Some? && LocalName(ref).value in aliases
    case Union(alts) => exists i :: 0 <= i < |alts| && Expands(defs, alts[i], aliases)
    case Tokens(ts) =>
      || (Str("array") in ts && ItemsOf(schema).Some? && Expands(defs, ItemsOf(schema).value, aliases))
      || (Str("object") in ts && PropertiesExpand(defs, schema, aliases))
    case _ => false
  }

  ghost predicate PropertiesExpand(defs: seq<Member>, node: Json, aliases: set<string>)
    decreases node, 0
  {
    Properties(node).Some?
    && exists i :: 0 <= i < |Properties(node).value| && Expands(defs, Properties(node).value[i].value, aliases)
  }

  // Aliases each of which expands one of them again.
  ghost predicate Cycle(defs: seq<Member>, aliases: set<string>) {
    forall a :: a in aliases ==> IsAlias(defs, a) && Expands(defs, Lookup(defs, a).value, aliases)
  }

  // Expanding into a cycle never ends, however many steps are allowed.
  lemma {:induction false} CycleNeverHalts(defs: seq<Member>, live: set<string>, aliases: set<string>, n: nat,
                                           schema: Json)
    requires Cycle(defs, aliases) && Expands(defs, schema, aliases)
    ensures !Halts(defs, live, n, schema)
    decreases n, schema, 1
  {
    match ShapeOf(schema)
    case Ref(ref) =>
      if n > 0 { CycleNeverHalts(defs, live, aliases, n - 1, Lookup(defs, LocalName(ref).value).value); }
    case Union(alts) =>
      var i :| 0 <= i < |alts| && Expands(defs, alts[i], aliases);
      CycleNeverHalts(defs, live, aliases, n, alts[i]);
    case Tokens(ts) =>
      if Str("array") in ts && ItemsOf(schema).Some? && Expands(defs, ItemsOf(schema).value, aliases) {
        CycleNeverHalts(defs, live, aliases, n, ItemsOf(schema).value);
      } else {
        CycleInPropertiesNeverHalts(defs, live, aliases, n, schema);
      }
  }

  lemma {:induction false} CycleInPropertiesNeverHalts(defs: seq<Member>, live: set<string>, aliases: set<string>,
                                                       n: nat, node: Json)
    requires Cycle(defs, aliases) && PropertiesExpand(defs, node, aliases)
    ensures !PropertiesHalt(defs, live, n, node)
    decreases n, node, 0
  {
    var i :| 0 <= i < |Properties(node).value| && Expands(defs, Properties(node).value[i].value, aliases);
    CycleNeverHalts(defs, live, aliases, n, Properties(node).value[i].value);
  }

  // Every definition the node refers to is listed in "live".
  ghost predicate RefersWithin(defs: seq<Member>, live: set<string>, schema: Json)
    decreases schema, 1
  {
    match ShapeOf(schema)
    case Ref(ref) => LocalName(ref).Some? && Has(defs, LocalName(ref).value) ==> LocalName(ref).value in live
    case Union(alts) => forall i :: 0 <= i < |alts| ==> RefersWithin(defs, live, alts[i])
    case Tokens(ts) =>
      && (Str("array") in ts && ItemsOf(schema).Some? ==> RefersWithin(defs, live, ItemsOf(schema).value))
      && (Str("object") in ts ==> PropertiesWithin(defs, live, schema))
    case _ => true
  }

  ghost predicate PropertiesWithin(defs: seq<Member>, live: set<string>, node: Json)
    decreases node, 0
  {
    Properties(node).Some? ==>
      forall i :: 0 <= i < |Properties(node).value| ==> RefersWithin(defs, live, Properties(node).value[i].value)
  }

  // The definitions that are not followed within n steps.
  ghost function Unfinished(defs: seq<Member>, live: set<string>, n: nat): set<string> {
    set a | a in live && IsAlias(defs, a) && !Halts(defs, live, n, Lookup(defs, a).value)
  }

  lemma {:induction false} NotHaltingExpands(defs: seq<Member>, live: set<string>, n: nat, schema: Json)
    requires RefersWithin(defs, live, schema) && !Halts(defs, live, n + 1, schema)
    ensures Expands(defs, schema, Unfinished(defs, live, n))
    decreases schema, 1
  {
    match ShapeOf(schema)
    case Ref(ref) =>
    case Union(alts) =>
      var i :| 0 <= i < |alts| && !Halts(defs, live, n + 1, alts[i]);
      NotHaltingExpands(defs, live, n, alts[i]);
    case Tokens(ts) =>
      if Str("array") in ts && ItemsOf(schema).Some? && !Halts(defs, live, n + 1, ItemsOf(schema).value) {
        NotHaltingExpands(defs, live, n, ItemsOf(schema).value);
      } else {
        NotHaltingPropertiesExpand(defs, live, n, schema);
      }
    case _ =>
  }

  lemma {:induction false} NotHaltingPropertiesExpand(defs: seq<Member>, live: set<string>, n: nat, node: Json)
    requires PropertiesWithin(defs, live, node) && !PropertiesHalt(defs, live, n + 1, node)
    ensures PropertiesExpand(defs, node, Unfinished(defs, live, n))
    decreases node, 0
  {
    var i :| 0 <= i < |Properties(node).value| && !Halts(defs, live, n + 1, Properties(node).value[i].value);
    NotHaltingExpands(defs, live, n, Properties(node).value[i].value);
  }

  lemma UnfinishedShrinks(defs: seq<Member>, live: set<string>, n: nat)
    ensures Unfinished(defs, live, n + 1) <= Unfinished(defs, live, n)
  {
    forall a | a in Unfinished(defs, live, n + 1) ensures a in Unfinished(defs, live, n) {
      if Halts(defs, live, n, Lookup(defs, a).value) { HaltsGrows(defs, live, n, n + 1, Lookup(defs, a).value); }
    }
  }

  lemma UnfinishedAreDefinitions(defs: seq<Member>, live: set<string>, n: nat)
    ensures |Unfinished(defs, live, n)| <= |Keys(defs)|
  {
    forall a | a in Unfinished(defs, live, n) ensures a in Keys(defs) { KeysAreLookups(defs, a); }
    assert Keys(defs) == Unfinished(defs, live, n) + (Keys(defs) - Unfinished(defs, live, n));
  }

  // Allowing more steps stops helping before there are more steps than
  // definitions still unfinished.
  lemma {:induction false} StepsSettle(defs: seq<Member>, live: set<string>, n: nat) returns (m: nat)
    ensures n <= m <= n + |Unfinished(defs, live, n)|
    ensures Unfinished(defs, live, m + 1) == Unfinished(defs, live, m)
    decreases |Unfinished(defs, live, n)|
  {
    UnfinishedShrinks(defs, live, n);
    hide Unfinished;
    var now, next := Unfinished(defs, live, n), Unfinished(defs, live, n + 1);
    if next == now {
      m := n;
    } else {
      SchemaMeaning.StrictSubsetSmaller(next, now);
      m := StepsSettle(defs, live, n + 1);
    }
  }

  // "live" holds every definition reached from the document.
  ghost predicate LiveClosed(defs: seq<Member>, live: set<string>, document: Json) {
    && PropertiesWithin(defs, live, document)
    && forall name :: name in live && Has(defs, name) ==>
         var d := Lookup(defs, name).value;
         if IsObjectDef(d) then PropertiesWithin(defs, live, d) else RefersWithin(defs, live, d)
  }

  // The document, or an object definition it reaches, expands the aliases.
  ghost predicate Meets(defs: seq<Member>, live: set<string>, document: Json, aliases: set<string>) {
    || PropertiesExpand(defs, document, aliases)
    || exists name :: name in live && Has(defs, name) && IsObjectDef(Lookup(defs, name).value)
         && PropertiesExpand(defs, Lookup(defs, name).value, aliases)
  }

  lemma SettledIsCycle(defs: seq<Member>, live: set<string>, document: Json, m: nat)
    requires LiveClosed(defs, live, document)
    requires Unfinished(defs, live, m + 1) == Unfinished(defs, live, m)
    ensures Cycle(defs, Unfinished(defs, live, m))
  {
    forall a | a in Unfinished(defs, live, m)
      ensures Expands(defs, Lookup(defs, a).value, Unfinished(defs, live, m))
    {
      assert a in Unfinished(defs, live, m + 1);
      NotHaltingExpands(defs, live, m, Lookup(defs, a).value);
    }
  }

  lemma GroundedGrows(defs: seq<Member>, live: set<string>, document: Json, n: nat, m: nat)
    requires n <= m && Grounded(defs, live, n, document)
    ensures Grounded(defs, live, m, document)
  {
    PropertiesHaltGrows(defs, live, n, m, document);
    forall name | name in live && Has(defs, name) && IsObjectDef(Lookup(defs, name).value)
      ensures PropertiesHalt(defs, live, m, Lookup(defs, name).value)
    {
      PropertiesHaltGrows(defs, live, n, m, Lookup(defs, name).value);
    }
  }

  // The recursion ends exactly when no cycle of aliases is met, and then
  // within one more alias step than there are definitions.
  lemma GroundedUnlessCyclic(defs: seq<Member>, live: set<string>, document: Json)
    requires LiveClosed(defs, live, document)
    ensures (exists depth :: Grounded(defs, live, depth, document))
       <==> (forall aliases :: Cycle(defs, aliases) ==> !Meets(defs, live, document, aliases))
    ensures (exists depth :: Grounded(defs, live, depth, document)) ==> Grounded(defs, live, |Keys(defs)| + 1, document)
  {
    hide *;
    if depth :| Grounded(defs, live, depth, document) {
      forall aliases | Cycle(defs, aliases) ensures !Meets(defs, live, document, aliases) {
        CycleIsNotGrounded(defs, live, document, depth, aliases);
      }
    }
    if forall aliases :: Cycle(defs, aliases) ==> !Meets(defs, live, document, aliases) {
      var m := StepsSettle(defs, live, 0);
      SettledIsCycle(defs, live, document, m);
      assert !Meets(defs, live, document, Unfinished(defs, live, m));
      GroundedIfSettled(defs, live, document, m);
      UnfinishedAreDefinitions(defs, live, 0);
      GroundedGrows(defs, live, document, m + 1, |Keys(defs)| + 1);
    }
  }

  lemma CycleIsNotGrounded(defs: seq<Member>, live: set<string>, document: Json, depth: nat, aliases: set<string>)
    requires Cycle(defs, aliases) && Grounded(defs, live, depth, document)
    ensures !Meets(defs, live, document, aliases)
  {
    if PropertiesExpand(defs, document, aliases) {
      CycleInPropertiesNeverHalts(defs, live, aliases, depth, document);
    }
    forall name | name in live && Has(defs, name) && IsObjectDef(Lookup(defs, name).value)
      ensures !PropertiesExpand(defs, Lookup(defs, name).value, aliases)
    {
      if PropertiesExpand(defs, Lookup(defs, name).value, aliases) {
        CycleInPropertiesNeverHalts(defs, live, aliases, depth, Lookup(defs, name).value);
      }
    }
  }

  lemma GroundedIfSettled(defs: seq<Member>, live: set<string>, document: Json, m: nat)
    requires LiveClosed(defs, live, document)
    requires !Meets(defs, live, document, Unfinished(defs, live, m))
    ensures Grounded(defs, live, m + 1, document)
  {
    if !PropertiesHalt(defs, live, m + 1, document) {
      NotHaltingPropertiesExpand(defs, live, m, document);
    }
    forall name | name in live && Has(defs, name) && IsObjectDef(Lookup(defs, name).value)
      ensures PropertiesHalt(defs, live, m + 1, Lookup(defs, name).value)
    {
      if !PropertiesHalt(defs, live, m + 1, Lookup(defs, name).value) {
        NotHaltingPropertiesExpand(defs, live, m, Lookup(defs, name).value);
      }
    }
  }
}
