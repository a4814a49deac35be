// Python dicts as lists of members with distinct keys, in insertion order.
module OrderedDicts {
  import opened JsonValues

  // d[key] = value: the place of a key is where it was first put.
  function Put(d: seq<Member>, m: Member): seq<Member> {
    if d == [] then [m]
    else if d[0].key == m.key then [m] + d[1..]
    else [d[0]] + Put(d[1..], m)
  }

  // dict.update with a list of pairs
  function Extend(d: seq<Member>, items: seq<Member>): seq<Member>
    decreases |items|
  {
    if items == [] then d else Put(Extend(d, items[..|items| - 1]), items[|items| - 1])
  }

  // dict(items)
  function DictOf(items: seq<Member>): seq<Member> { Extend([], items) }

  predicate DistinctKeys(items: seq<Member>) {
    forall i, j :: 0 <= i < j < |items| ==> items[i].key != items[j].key
  }

  lemma {:induction false} PutKeys(d: seq<Member>, m: Member)
    ensures Keys(Put(d, m)) == Keys(d) + {m.key}
    ensures DistinctKeys(d) ==> DistinctKeys(Put(d, m))
    ensures m.key !in Keys(d) ==> Put(d, m) == d + [m]
    ensures |Put(d, m)| == |d| + if m.key in Keys(d) then 0 else 1
    decreases |d|
  {
    if d == [] {
      KeysOfCons(m, []);
      DistinctCons(m, []);
      assert Put(d, m) == [m] + [] == d + [m];
    } else {
      var rest := d[1..];
      assert d == [d[0]] + rest;
      KeysOfCons(d[0], rest);
      DistinctCons(d[0], rest);
      if d[0].key == m.key {
        KeysOfCons(m, rest);
        DistinctCons(m, rest);
        hide Keys, DistinctKeys;
      } else {
        PutKeys(rest, m);
        KeysOfCons(d[0], Put(rest, m));
        DistinctCons(d[0], Put(rest, m));
        hide Keys, DistinctKeys;
        assert [d[0]] + (rest + [m]) == d + [m];
      }
    }
  }

  lemma DistinctCons(m: Member, rest: seq<Member>)
    ensures DistinctKeys([m] + rest) <==> m.key !in Keys(rest) && DistinctKeys(rest)
  {
    var all := [m] + rest;
    assert forall i :: 0 <= i < |rest| ==> rest[i] == all[i + 1] && rest[i].key in Keys(rest);
    if DistinctKeys(all) {
      forall i | 0 <= i < |rest| ensures rest[i].key != m.key { assert all[0].key != all[i + 1].key; }
    }
  }

  lemma KeysOfCons(m: Member, rest: seq<Member>)
    ensures Keys([m] + rest) == {m.key} + Keys(rest)
  {
    forall k | k in Keys(rest) ensures k in Keys([m] + rest) {
      var i :| 0 <= i < |rest| && rest[i].key == k;
      assert ([m] + rest)[i + 1].key == k;
    }
    assert ([m] + rest)[0].key == m.key;
  }

  lemma {:induction false} PutTwice(d: seq<Member>, m: Member, n: Member)
    requires m.key == n.key
    ensures Put(Put(d, m), n) == Put(d, n)
    decreases |d|
  {
    if d != [] && d[0].key != m.key { PutTwice(d[1..], m, n); }
  }

  lemma {:induction false} PutsCommute(d: seq<Member>, m: Member, n: Member)
    requires m.key in Keys(d) && m.key != n.key
    ensures Put(Put(d, m), n) == Put(Put(d, n), m)
    decreases |d|
  {
    assert d == [d[0]] + d[1..];
    KeysOfCons(d[0], d[1..]);
    if d[0].key == m.key {
    } else if d[0].key == n.key {
    } else {
      PutsCommute(d[1..], m, n);
    }
  }

  // A key that is there already may be put before or after other keys.
  lemma {:induction false} PutLate(d: seq<Member>, m: Member, items: seq<Member>)
    requires m.key in Keys(d) && m.key !in Keys(items)
    ensures Put(Extend(d, items), m) == Extend(Put(d, m), items)
    ensures m.key in Keys(Extend(d, items))
    decreases |items|
  {
    if items != [] {
      var n := |items| - 1;
      assert items[n].key in Keys(items) && forall i :: 0 <= i < n ==> items[..n][i].key in Keys(items);
      PutLate(d, m, items[..n]);
      PutsCommute(Extend(d, items[..n]), m, items[n]);
      PutKeys(Extend(d, items[..n]), items[n]);
    }
  }

  lemma {:induction false} ExtendConcat(d: seq<Member>, a: seq<Member>, b: seq<Member>)
    ensures Extend(d, a + b) == Extend(Extend(d, a), b)
    decreases |b|
  {
    if b == [] {
      assert a + b == a;
    } else {
      var n := |b| - 1;
      assert (a + b)[..|a + b| - 1] == a + b[..n];
      ExtendConcat(d, a, b[..n]);
    }
  }

  // Replacing one value in the pairs is the same as putting it at the end.
  lemma ExtendReplaced(d: seq<Member>, a: seq<Member>, was: Member, m: Member, b: seq<Member>)
    requires was.key == m.key && m.key !in Keys(b)
    ensures Extend(d, a + [m] + b) == Put(Extend(d, a + [was] + b), m)
  {
    ExtendConcat(d, a + [m], b);
    ExtendConcat(d, a + [was], b);
    ExtendConcat(d, a, [m]);
    ExtendConcat(d, a, [was]);
    var e := Extend(d, a);
    assert Extend(e, [m]) == Put(e, m) && Extend(e, [was]) == Put(e, was) by {
      assert [m][..0] == [] && [was][..0] == [];
    }
    PutKeys(e, was);
    PutLate(Put(e, was), m, b);
    PutTwice(e, was, m);
  }

  lemma {:induction false} PutSplits(d: seq<Member>, m: Member) returns (i: nat)
    requires m.key in Keys(d)
    ensures i < |d| && d[i].key == m.key && Put(d, m) == d[..i] + [m] + d[i + 1..]
    decreases |d|
  {
    assert d == [d[0]] + d[1..];
    KeysOfCons(d[0], d[1..]);
    if d[0].key == m.key {
      i := 0;
    } else {
      i := PutSplits(d[1..], m);
      i := i + 1;
      assert d[..i] == [d[0]] + d[1..][..i - 1] && d[1..][i..] == d[i + 1..];
    }
  }

  lemma {:induction false} DictOfDistinct(items: seq<Member>)
    ensures DistinctKeys(DictOf(items)) && Keys(DictOf(items)) == Keys(items)
    decreases |items|
  {
    if items != [] {
      var n := |items| - 1;
      DictOfDistinct(items[..n]);
      PutKeys(DictOf(items[..n]), items[n]);
      assert items == items[..n] + [items[n]];
      forall k | k in Keys(items) ensures k in Keys(items[..n]) + {items[n].key} {
        var i :| 0 <= i < |items| && items[i].key == k;
        if i < n { assert items[..n][i].key == k; }
      }
      forall k | k in Keys(items[..n]) ensures k in Keys(items) {
        var i :| 0 <= i < n && items[..n][i].key == k;
        assert items[i].key == k;
      }
    }
  }

  lemma NotLater(d: seq<Member>, i: nat)
    requires DistinctKeys(d) && i < |d|
    ensures d[i].key !in Keys(d[i + 1..])
  {
    var rest := d[i + 1..];
    assert forall j :: 0 <= j < |rest| ==> rest[j].key == d[i + 1 + j].key;
  }

  lemma ExtendOne(d: seq<Member>, m: Member)
    ensures Extend(d, [m]) == Put(d, m)
  {
    assert [m][..0] == [];
  }

  lemma ExtendPut(d: seq<Member>, sub: seq<Member>, m: Member)
    requires DistinctKeys(sub) && m.key in Keys(sub)
    ensures Extend(d, Put(sub, m)) == Put(Extend(d, sub), m)
  {
    hide *;
    var i := PutSplits(sub, m);
    assert sub == sub[..i] + [sub[i]] + sub[i + 1..];
    NotLater(sub, i);
    ExtendReplaced(d, sub[..i], sub[i], m, sub[i + 1..]);
  }

  // Going through an intermediate dict changes nothing.
  lemma {:induction false} ExtendByDict(d: seq<Member>, items: seq<Member>)
    ensures Extend(d, DictOf(items)) == Extend(d, items)
    decreases |items|
  {
    if items != [] {
      var n := |items| - 1;
      var sub, m := DictOf(items[..n]), items[n];
      assert DictOf(items) == Put(sub, m) && Extend(d, items) == Put(Extend(d, items[..n]), m);
      hide *;
      ExtendByDict(d, items[..n]);
      DictOfDistinct(items[..n]);
      PutKeys(sub, m);
      if m.key in Keys(sub) {
        ExtendPut(d, sub, m);
      } else {
        ExtendConcat(d, sub, [m]);
        ExtendOne(Extend(d, sub), m);
      }
    }
  }

  // Pairs whose keys differ are the dict; otherwise some pair is lost.
  lemma {:induction false} NoLossExactly(items: seq<Member>)
    ensures DistinctKeys(items) ==> DictOf(items) == items
    ensures |DictOf(items)| == |items| <==> DistinctKeys(items)
    ensures |DictOf(items)| <= |items|
    decreases |items|
  {
    if items != [] {
      var n := |items| - 1;
      assert DictOf(items) == Put(DictOf(items[..n]), items[n]);
      hide *;
      NoLossExactly(items[..n]);
      DictOfDistinct(items[..n]);
      PutKeys(DictOf(items[..n]), items[n]);
      assert items == items[..n] + [items[n]];
      DistinctMore(items[..n], items[n]);
    }
  }

  lemma DistinctMore(items: seq<Member>, m: Member)
    ensures DistinctKeys(items + [m]) <==> DistinctKeys(items) && m.key !in Keys(items)
  {
    var more := items + [m];
    assert forall i :: 0 <= i < |items| ==> more[i] == items[i] && items[i].key in Keys(items);
    if DistinctKeys(more) {
      forall i | 0 <= i < |items| ensures items[i].key != m.key { assert more[i].key != more[|items|].key; }
    }
  }
}
