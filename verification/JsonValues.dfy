// JSON documents as json.loads returns them. Objects keep their members in
// insertion order, because the builder visits properties in that order.
module JsonValues {
  import opened Wrappers

  datatype Member = Member(key: string, value: Json)

  datatype Json =
    | Null
    | Bool(b: bool)
    | Num(r: real)
    | Str(s: string)
    | Arr(items: seq<Json>)
    | Obj(members: seq<Member>)

  // dict.get: the value is a part of the object it is found in.
  function Lookup(members: seq<Member>, key: string): (r: Option<Json>)
    ensures r.Some? ==> exists i :: 0 <= i < |members| && members[i].key == key && members[i].value == r.value
    ensures r.None? <==> forall i :: 0 <= i < |members| ==> members[i].key != key
  {
    if members == [] then None
    else if members[0].key == key then Some(members[0].value)
    else
      var tail := members[1..];
      assert forall i :: 0 < i < |members| ==> members[i] == tail[i - 1];
      Lookup(tail, key)
  }

  predicate Has(members: seq<Member>, key: string) {
    Lookup(members, key).Some?
  }

  // Looking a key up in a short object.
  lemma LookupOne(m: Member, key: string)
    ensures Lookup([m], key) == if m.key == key then Some(m.value) else None
  {
  }

  lemma LookupTwo(a: Member, b: Member, key: string)
    ensures Lookup([a, b], key) == if a.key == key then Some(a.value) else if b.key == key then Some(b.value) else None
  {
    assert [a, b][1..] == [b];
    LookupOne(b, key);
  }

  lemma LookupThree(a: Member, b: Member, c: Member, key: string)
    ensures Lookup([a, b, c], key)
         == if a.key == key then Some(a.value) else if b.key == key then Some(b.value)
            else if c.key == key then Some(c.value) else None
  {
    assert [a, b, c][1..] == [b, c];
    LookupTwo(b, c, key);
  }

  function Keys(members: seq<Member>): set<string> {
    set i | 0 <= i < |members| :: members[i].key
  }

  lemma KeysAreLookups(members: seq<Member>, key: string)
    ensures key in Keys(members) <==> Has(members, key)
  {
    if key in Keys(members) {
      var i :| 0 <= i < |members| && members[i].key == key;
    }
  }

  // Python truthiness of a JSON value, as "x.get(k) or default" tests it.
  predicate Truthy(j: Json) {
    match j
    case Null => false
    case Bool(b) => b
    case Num(r) => r != 0.0
    case Str(s) => s != ""
    case Arr(items) => items != []
    case Obj(members) => members != []
  }
}
