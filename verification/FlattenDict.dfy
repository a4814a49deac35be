// utils.flatten_dict: a nested dict as one flat dict, keyed by the paths of
// its scalar leaves.
module FlattenDict {
  import opened Wrappers
  import opened Decimals
  import opened JsonValues
  import opened OrderedDicts

  // new_key
  function JoinKey(parent: string, key: string, sep: string): string {
    if parent != "" then parent + sep + key else key
  }

  function ItemKey(key: string, i: nat): string { key + "_" + Dec(i) }

  // ---- the leaves, with their keys ---------------------------------------------

  function LeavesOf(v: Json, key: string, sep: string): seq<Member>
    decreases v, 1, 0
  {
    match v
    case Obj(members) => LeavesIn(v, key, sep, 0)
    case Arr(items) => LeavesAt(v, key, sep, 0)
    case _ => [Member(key, v)]
  }

  function LeavesIn(v: Json, parent: string, sep: string, i: nat): seq<Member>
    requires v.Obj? && i <= |v.members|
    decreases v, 0, |v.members| - i
  {
    if i == |v.members| then []
    else LeavesOf(v.members[i].value, JoinKey(parent, v.members[i].key, sep), sep) + LeavesIn(v, parent, sep, i + 1)
  }

  function LeavesAt(v: Json, key: string, sep: string, i: nat): seq<Member>
    requires v.Arr? && i <= |v.items|
    decreases v, 0, |v.items| - i
  {
    if i == |v.items| then []
    else LeavesOf(v.items[i], ItemKey(key, i), sep) + LeavesAt(v, key, sep, i + 1)
  }

  // A one-entry dict without a parent key, as built for each list item.
  lemma SingleLeaves(key: string, item: Json, sep: string)
    ensures LeavesOf(Obj([Member(key, item)]), "", sep) == LeavesOf(item, key, sep)
  {
    assert LeavesIn(Obj([Member(key, item)]), "", sep, 1) == [];
  }

  // ---- the method ----------------------------------------------------------------

  function Size(v: Json): (n: nat)
    decreases v, 1, 0
  {
    match v
    case Obj(members) => 1 + SizeFrom(v, 0)
    case Arr(items) => 1 + SizeFrom(v, 0)
    case _ => 1
  }

  function SizeFrom(v: Json, i: nat): nat
    requires (v.Obj? && i <= |v.members|) || (v.Arr? && i <= |v.items|)
    decreases v, 0, (if v.Obj? then |v.members| else |v.items|) - i
  {
    match v
    case Obj(members) => if i == |members| then 0 else 1 + Size(members[i].value) + SizeFrom(v, i + 1)
    case Arr(items) => if i == |items| then 0 else 3 + Size(items[i]) + SizeFrom(v, i + 1)
  }

  lemma {:induction false} ChildIsSmaller(v: Json, i: nat, k: nat)
    requires (v.Obj? && i <= k < |v.members|) || (v.Arr? && i <= k < |v.items|)
    ensures v.Obj? ==> 1 + Size(v.members[k].value) <= SizeFrom(v, i)
    ensures v.Arr? ==> 3 + Size(v.items[k]) <= SizeFrom(v, i)
    decreases k - i
  {
    if i < k { ChildIsSmaller(v, i + 1, k); }
  }

  lemma ExtendLeaves(items: seq<Member>, before: seq<Member>, sub: seq<Member>, leaves: seq<Member>)
    requires DictOf(items) == DictOf(before) && DictOf(sub) == DictOf(leaves)
    ensures DictOf(items + sub) == DictOf(before + leaves)
  {
    ExtendConcat([], items, sub);
    ExtendByDict(DictOf(items), sub);
    ExtendByDict(DictOf(items), leaves);
    ExtendConcat([], before, leaves);
  }

  lemma NextEntry(v: Json, parent: string, sep: string, i: nat, seen: seq<Member>)
    requires v.Obj? && i < |v.members|
    ensures Size(v.members[i].value) < Size(v)
    ensures var leaves := LeavesOf(v.members[i].value, JoinKey(parent, v.members[i].key, sep), sep);
            seen + LeavesIn(v, parent, sep, i) == (seen + leaves) + LeavesIn(v, parent, sep, i + 1)
  {
    ChildIsSmaller(v, 0, i);
  }

  lemma NextItem(v: Json, key: string, sep: string, i: nat, seen: seq<Member>)
    requires v.Arr? && i < |v.items|
    ensures Size(Obj([Member(ItemKey(key, i), v.items[i])])) < Size(v)
    ensures var leaves := LeavesOf(v.items[i], ItemKey(key, i), sep);
            seen + LeavesAt(v, key, sep, i) == (seen + leaves) + LeavesAt(v, key, sep, i + 1)
  {
    ChildIsSmaller(v, 0, i);
    SingleSize(ItemKey(key, i), v.items[i]);
  }

  // flatten_dict: the dict of the leaves, although every nested call makes a
  // dict of its own on the way.
  method Flatten(data: Json, parentKey: string, sep: string) returns (flat: seq<Member>)
    requires data.Obj?
    ensures flat == DictOf(LeavesOf(data, parentKey, sep))
    decreases Size(data), 0
  {
    var items: seq<Member> := [];
    ghost var seen: seq<Member> := [];
    assert LeavesOf(data, parentKey, sep) == LeavesIn(data, parentKey, sep, 0);
    assert LeavesIn(data, parentKey, sep, |data.members|) == [];
    hide *;
    for i := 0 to |data.members|
      invariant DictOf(items) == DictOf(seen)
      invariant seen + LeavesIn(data, parentKey, sep, i) == LeavesIn(data, parentKey, sep, 0)
    {
      var newKey := JoinKey(parentKey, data.members[i].key, sep);
      var v := data.members[i].value;
      NextEntry(data, parentKey, sep, i, seen);
      var added := FlattenValue(v, newKey, sep);
      ExtendLeaves(items, seen, added, LeavesOf(v, newKey, sep));
      items := items + added;
      seen := seen + LeavesOf(v, newKey, sep);
    }
    assert seen + [] == seen;
    flat := ToDict(items);
  }

  // What one entry adds to "items": its own, or those of the nested calls.
  method FlattenValue(v: Json, newKey: string, sep: string) returns (added: seq<Member>)
    ensures DictOf(added) == DictOf(LeavesOf(v, newKey, sep))
    decreases Size(v), 1
  {
    if v.Obj? {
      added := Flatten(v, newKey, sep);
      ExtendByDict([], LeavesOf(v, newKey, sep));
    } else if v.Arr? {
      added := FlattenList(v, newKey, sep);
    } else {
      added := [Member(newKey, v)];
    }
  }

  method FlattenList(v: Json, newKey: string, sep: string) returns (added: seq<Member>)
    requires v.Arr?
    ensures DictOf(added) == DictOf(LeavesOf(v, newKey, sep))
    decreases Size(v), 0
  {
    added := [];
    ghost var seen: seq<Member> := [];
    assert LeavesOf(v, newKey, sep) == LeavesAt(v, newKey, sep, 0);
    assert LeavesAt(v, newKey, sep, |v.items|) == [];
    hide *;
    for i := 0 to |v.items|
      invariant DictOf(added) == DictOf(seen)
      invariant seen + LeavesAt(v, newKey, sep, i) == LeavesAt(v, newKey, sep, 0)
    {
      var single := Obj([Member(ItemKey(newKey, i), v.items[i])]);
      NextItem(v, newKey, sep, i, seen);
      SingleLeaves(ItemKey(newKey, i), v.items[i], sep);
      var sub := Flatten(single, "", sep);
      ExtendByDict([], LeavesOf(single, "", sep));
      assert DictOf(sub) == DictOf(LeavesOf(single, "", sep));
      ExtendLeaves(added, seen, sub, LeavesOf(v.items[i], ItemKey(newKey, i), sep));
      added := added + sub;
      seen := seen + LeavesOf(v.items[i], ItemKey(newKey, i), sep);
    }
    assert seen + [] == seen;
  }

  lemma SingleSize(key: string, item: Json)
    ensures Size(Obj([Member(key, item)])) == 2 + Size(item)
  {
    var v := Obj([Member(key, item)]);
    assert SizeFrom(v, 1) == 0;
    assert SizeFrom(v, 0) == 1 + Size(item);
  }

  // dict(items)
  method ToDict(items: seq<Member>) returns (d: seq<Member>)
    ensures d == DictOf(items)
  {
    d := [];
    for i := 0 to |items|
      invariant d == DictOf(items[..i])
    {
      assert items[..i + 1][..i] == items[..i];
      d := Put(d, items[i]);
    }
    assert items[..|items|] == items;
  }
}
