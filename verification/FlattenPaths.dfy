// What flatten_dict returns, in terms of the paths of the data: with keys
// that are not empty and have no "_" of their own, exactly one entry for each
// scalar leaf.
module FlattenPaths {
  import opened Wrappers
  import opened Decimals
  import opened JsonValues
  import opened OrderedDicts
  import opened FlattenDict

  type Path = seq<string>

  predicate CleanToken(t: string) { t != "" && '_' !in t }

  predicate CleanPath(p: Path) { forall i :: 0 <= i < |p| ==> CleanToken(p[i]) }

  // Keys are clean, and distinct within each dict.
  predicate Clean(v: Json) {
    match v
    case Obj(members) =>
      DistinctKeys(members) && forall i :: 0 <= i < |members| ==> CleanToken(members[i].key) && Clean(members[i].value)
    case Arr(items) => forall i :: 0 <= i < |items| ==> Clean(items[i])
    case _ => true
  }

  predicate Scalar(v: Json) { !v.Obj? && !v.Arr? }

  // The path tokens joined by "_".
  function KeyOf(p: Path): string
    decreases |p|
  {
    if p == [] then ""
    else if |p| == 1 then p[0]
    else KeyOf(p[..|p| - 1]) + "_" + p[|p| - 1]
  }

  // ---- children --------------------------------------------------------------------

  function Count(v: Json): nat {
    match v case Obj(members) => |members| case Arr(items) => |items| case _ => 0
  }

  function Child(v: Json, i: nat): (c: Json)
    requires i < Count(v)
    ensures c < v
  {
    if v.Obj? then v.members[i].value else v.items[i]
  }

  // The path token of a child: its key, or its index in decimal.
  function Token(v: Json, i: nat): string
    requires i < Count(v)
  {
    if v.Obj? then v.members[i].key else Dec(i)
  }

  // The value at a path.
  ghost predicate ValueAt(v: Json, p: Path, x: Json)
    decreases |p|
  {
    if p == [] then v == x
    else exists i :: 0 <= i < Count(v) && Token(v, i) == p[0] && ValueAt(Child(v, i), p[1..], x)
  }

  lemma TokensDiffer(v: Json, i: nat, j: nat)
    requires Clean(v) && i < Count(v) && j < Count(v) && Token(v, i) == Token(v, j)
    ensures i == j && CleanToken(Token(v, i))
  {
    if v.Arr? { DecInjective(i, j); }
  }

  lemma ChildIsClean(v: Json, i: nat)
    requires Clean(v) && i < Count(v)
    ensures Clean(Child(v, i)) && CleanToken(Token(v, i))
  {
    TokensDiffer(v, i, i);
  }

  // ---- keys determine paths ----------------------------------------------------------

  lemma KeyOfMore(p: Path, t: string)
    ensures KeyOf(p + [t]) == if p == [] then t else KeyOf(p) + "_" + t
  {
    assert (p + [t])[..|p|] == p;
  }

  lemma {:induction false} KeyIsThere(p: Path)
    requires CleanPath(p) && p != []
    ensures KeyOf(p) != "" && ('_' in KeyOf(p) <==> |p| > 1)
    decreases |p|
  {
    if |p| > 1 {
      KeyIsThere(p[..|p| - 1]);
      assert KeyOf(p)[|KeyOf(p[..|p| - 1])|] == '_';
    }
  }

  lemma EarlierUnderscore(a: string, s: string, b: string, t: string)
    requires a + "_" + s == b + "_" + t
    ensures |a| < |b| ==> '_' in s
  {
    if |a| < |b| { assert s[|b| - |a| - 1] == (a + "_" + s)[|b|] == '_'; }
  }

  lemma LastTokens(a: string, s: string, b: string, t: string)
    requires a + "_" + s == b + "_" + t && '_' !in s && '_' !in t
    ensures a == b && s == t
  {
    EarlierUnderscore(a, s, b, t);
    EarlierUnderscore(b, t, a, s);
    var k := a + "_" + s;
    assert a == k[..|a|] && b == k[..|b|] && s == k[|a| + 1..] && t == k[|b| + 1..];
  }

  lemma {:induction false} KeyOfInjective(p: Path, q: Path)
    requires CleanPath(p) && CleanPath(q) && p != [] && q != [] && KeyOf(p) == KeyOf(q)
    ensures p == q
    decreases |p|
  {
    KeyIsThere(p);
    KeyIsThere(q);
    if |p| > 1 {
      var m, n := |p| - 1, |q| - 1;
      LastTokens(KeyOf(p[..m]), p[m], KeyOf(q[..n]), q[n]);
      KeyOfInjective(p[..m], q[..n]);
      assert p == p[..m] + [p[m]] && q == q[..n] + [q[n]];
    }
  }

  // ---- the leaves are the scalar values ------------------------------------------------

  // An entry for a scalar at some path below.
  ghost predicate LeafUnder(v: Json, path: Path, m: Member) {
    Scalar(m.value) && exists p :: ValueAt(v, p, m.value) && CleanPath(p) && KeyOf(path + p) == m.key
  }

  ghost predicate LeafBelow(v: Json, path: Path, i: nat, m: Member) {
    exists k :: i <= k < Count(v) && LeafUnder(Child(v, k), path + [Token(v, k)], m)
  }

  lemma LeafInChild(v: Json, path: Path, m: Member)
    requires Clean(v) && !Scalar(v)
    ensures LeafUnder(v, path, m) <==> LeafBelow(v, path, 0, m)
  {
    if LeafUnder(v, path, m) {
      var p :| ValueAt(v, p, m.value) && CleanPath(p) && KeyOf(path + p) == m.key;
      assert p != [];
      LeafGoesDown(v, path, m, p);
    }
    if LeafBelow(v, path, 0, m) {
      var k :| 0 <= k < Count(v) && LeafUnder(Child(v, k), path + [Token(v, k)], m);
      LeafGoesUp(v, path, m, k);
    }
  }

  lemma LeafGoesDown(v: Json, path: Path, m: Member, p: Path)
    requires p != [] && CleanPath(p) && Scalar(m.value) && ValueAt(v, p, m.value) && KeyOf(path + p) == m.key
    ensures LeafBelow(v, path, 0, m)
  {
    var k :| 0 <= k < Count(v) && Token(v, k) == p[0] && ValueAt(Child(v, k), p[1..], m.value);
    hide KeyOf, ValueAt;
    assert path + p == path + [Token(v, k)] + p[1..];
    assert LeafUnder(Child(v, k), path + [Token(v, k)], m);
  }

  lemma LeafGoesUp(v: Json, path: Path, m: Member, k: nat)
    requires Clean(v) && k < Count(v) && LeafUnder(Child(v, k), path + [Token(v, k)], m)
    ensures LeafUnder(v, path, m)
  {
    var p :| ValueAt(Child(v, k), p, m.value) && CleanPath(p) && KeyOf(path + [Token(v, k)] + p) == m.key;
    ChildIsClean(v, k);
    ValueGoesUp(v, k, p, m.value);
    var q := [Token(v, k)] + p;
    assert path + q == path + [Token(v, k)] + p;
    hide *;
    CleanMore(Token(v, k), p);
    LeafAt(v, path, m, q);
  }

  lemma CleanMore(t: string, p: Path)
    requires CleanToken(t) && CleanPath(p)
    ensures CleanPath([t] + p)
  {
    hide CleanToken;
  }

  lemma LeafAt(v: Json, path: Path, m: Member, p: Path)
    requires Scalar(m.value) && ValueAt(v, p, m.value) && CleanPath(p) && KeyOf(path + p) == m.key
    ensures LeafUnder(v, path, m)
  {
    hide KeyOf, ValueAt, CleanPath;
  }

  lemma ValueGoesUp(v: Json, k: nat, p: Path, x: Json)
    requires k < Count(v) && ValueAt(Child(v, k), p, x)
    ensures ValueAt(v, [Token(v, k)] + p, x)
  {
    assert ([Token(v, k)] + p)[1..] == p;
  }

  // The rest of the leaves of a dict or a list, from child i on.
  function LeavesFrom(v: Json, key: string, i: nat): seq<Member>
    requires !Scalar(v) && i <= Count(v)
  {
    if v.Obj? then LeavesIn(v, key, "_", i) else LeavesAt(v, key, "_", i)
  }

  lemma NextLeaves(v: Json, path: Path, i: nat)
    requires Clean(v) && CleanPath(path) && i < Count(v) && (v.Arr? ==> path != [])
    ensures LeavesFrom(v, KeyOf(path), i)
         == LeavesOf(Child(v, i), KeyOf(path + [Token(v, i)]), "_") + LeavesFrom(v, KeyOf(path), i + 1)
    ensures CleanPath(path + [Token(v, i)]) && Clean(Child(v, i))
  {
    ChildIsClean(v, i);
    KeyOfMore(path, Token(v, i));
    if path != [] { KeyIsThere(path); }
  }

  lemma {:induction false} EntriesAreLeaves(v: Json, path: Path, m: Member)
    requires Clean(v) && CleanPath(path) && (v.Arr? ==> path != [])
    ensures m in LeavesOf(v, KeyOf(path), "_") <==> LeafUnder(v, path, m)
    decreases v, 1, 0
  {
    if Scalar(v) {
      assert path + [] == path;
      if m == Member(KeyOf(path), v) { assert ValueAt(v, [], v); }
    } else {
      EntriesFromAreLeaves(v, path, 0, m);
      LeafInChild(v, path, m);
    }
  }

  lemma {:induction false} EntriesFromAreLeaves(v: Json, path: Path, i: nat, m: Member)
    requires Clean(v) && CleanPath(path) && (v.Arr? ==> path != []) && !Scalar(v) && i <= Count(v)
    ensures m in LeavesFrom(v, KeyOf(path), i) <==> LeafBelow(v, path, i, m)
    decreases v, 0, Count(v) - i
  {
    if i < Count(v) {
      NextLeaves(v, path, i);
      EntriesAreLeaves(Child(v, i), path + [Token(v, i)], m);
      EntriesFromAreLeaves(v, path, i + 1, m);
      hide LeavesFrom, LeavesOf, LeafUnder, Clean;
    }
  }

  // ---- and no two share a key -----------------------------------------------------------

  lemma KeysApart(a: seq<Member>, b: seq<Member>)
    requires DistinctKeys(a) && DistinctKeys(b)
    requires forall i, j :: 0 <= i < |a| && 0 <= j < |b| ==> a[i].key != b[j].key
    ensures DistinctKeys(a + b)
  {
  }

  lemma {:induction false} LeavesAreDistinct(v: Json, path: Path)
    requires Clean(v) && CleanPath(path) && (v.Arr? ==> path != [])
    ensures DistinctKeys(LeavesOf(v, KeyOf(path), "_"))
    decreases v, 1, 0
  {
    if !Scalar(v) { LeavesFromAreDistinct(v, path, 0); }
  }

  lemma {:induction false} LeavesFromAreDistinct(v: Json, path: Path, i: nat)
    requires Clean(v) && CleanPath(path) && (v.Arr? ==> path != []) && !Scalar(v) && i <= Count(v)
    ensures DistinctKeys(LeavesFrom(v, KeyOf(path), i))
    decreases v, 0, Count(v) - i
  {
    if i < Count(v) {
      var t := Token(v, i);
      NextLeaves(v, path, i);
      var here, later := LeavesOf(Child(v, i), KeyOf(path + [t]), "_"), LeavesFrom(v, KeyOf(path), i + 1);
      LeavesAreDistinct(Child(v, i), path + [t]);
      LeavesFromAreDistinct(v, path, i + 1);
      forall a, b | 0 <= a < |here| && 0 <= b < |later| ensures here[a].key != later[b].key {
        EntriesAreLeaves(Child(v, i), path + [t], here[a]);
        EntriesFromAreLeaves(v, path, i + 1, later[b]);
        var k :| i + 1 <= k < Count(v) && LeafUnder(Child(v, k), path + [Token(v, k)], later[b]);
        ChildrenApart(v, path, i, k, here[a], later[b]);
      }
      KeysApart(here, later);
    }
  }

  lemma SameToken(path: Path, a: string, p: Path, b: string, q: Path)
    requires CleanPath(path) && CleanToken(a) && CleanToken(b) && CleanPath(p) && CleanPath(q)
    requires KeyOf(path + [a] + p) == KeyOf(path + [b] + q)
    ensures a == b
  {
    KeyOfInjective(path + [a] + p, path + [b] + q);
    assert (path + [a] + p)[|path|] == (path + [b] + q)[|path|];
  }

  // Leaves below different children have different keys.
  lemma ChildrenApart(v: Json, path: Path, i: nat, k: nat, m: Member, n: Member)
    requires Clean(v) && CleanPath(path) && i < Count(v) && k < Count(v) && i != k
    requires LeafUnder(Child(v, i), path + [Token(v, i)], m) && LeafUnder(Child(v, k), path + [Token(v, k)], n)
    ensures m.key != n.key
  {
    var p :| ValueAt(Child(v, i), p, m.value) && CleanPath(p) && KeyOf(path + [Token(v, i)] + p) == m.key;
    var q :| ValueAt(Child(v, k), q, n.value) && CleanPath(q) && KeyOf(path + [Token(v, k)] + q) == n.key;
    ChildIsClean(v, i);
    ChildIsClean(v, k);
    hide KeyOf, ValueAt, Clean;
    if m.key == n.key {
      var a, b := Token(v, i), Token(v, k);
      TokensDiffer(v, i, i);
      hide *;
      SameToken(path, a, p, b, q);
      assert a == b;
      TokensDiffer(v, i, k);
    }
  }

  // ---- the theorem --------------------------------------------------------------------

  // With clean keys the flat dict has exactly one entry for each scalar leaf,
  // keyed by its path, and nothing else; none is lost.
  lemma FlatteningLosesNothing(data: Json)
    requires data.Obj? && Clean(data)
    ensures DictOf(LeavesOf(data, "", "_")) == LeavesOf(data, "", "_")
    ensures forall p, x :: CleanPath(p) && Scalar(x) && ValueAt(data, p, x) ==>
              Member(KeyOf(p), x) in DictOf(LeavesOf(data, "", "_"))
    ensures forall m :: m in DictOf(LeavesOf(data, "", "_")) ==>
              Scalar(m.value) && exists p :: CleanPath(p) && ValueAt(data, p, m.value) && KeyOf(p) == m.key
    ensures forall p, q, x, y ::
              CleanPath(p) && CleanPath(q) && p != [] && q != [] && ValueAt(data, p, x) && ValueAt(data, q, y) ==>
                (KeyOf(p) == KeyOf(q) <==> p == q)
  {
    var leaves := LeavesOf(data, "", "_");
    LeavesAreDistinct(data, []);
    NoLossExactly(leaves);
    forall p, x | CleanPath(p) && Scalar(x) && ValueAt(data, p, x) ensures Member(KeyOf(p), x) in leaves {
      assert [] + p == p;
      assert LeafUnder(data, [], Member(KeyOf(p), x));
      EntriesAreLeaves(data, [], Member(KeyOf(p), x));
    }
    forall m | m in leaves
      ensures Scalar(m.value) && exists p :: CleanPath(p) && ValueAt(data, p, m.value) && KeyOf(p) == m.key {
      EntriesAreLeaves(data, [], m);
      var p :| ValueAt(data, p, m.value) && CleanPath(p) && KeyOf([] + p) == m.key;
      assert [] + p == p;
    }
    forall p, q, x, y | CleanPath(p) && CleanPath(q) && p != [] && q != [] && ValueAt(data, p, x) && ValueAt(data, q, y)
      ensures KeyOf(p) == KeyOf(q) <==> p == q
    {
      if KeyOf(p) == KeyOf(q) { KeyOfInjective(p, q); }
    }
  }

  // A key with a "_" of its own can collide with a path.
  lemma UnderscoreCollides() returns (data: Json)
    ensures data == Obj([Member("a_b", Num(1.0)), Member("a", Obj([Member("b", Num(2.0))]))])
    ensures |LeavesOf(data, "", "_")| == 2 && DictOf(LeavesOf(data, "", "_")) == [Member("a_b", Num(2.0))]
  {
    var inner := Obj([Member("b", Num(2.0))]);
    data := Obj([Member("a_b", Num(1.0)), Member("a", inner)]);
    assert JoinKey("a", "b", "_") == "a_b";
    assert LeavesIn(inner, "a", "_", 1) == [];
    assert LeavesIn(inner, "a", "_", 0) == [Member("a_b", Num(2.0))];
    assert LeavesIn(data, "", "_", 2) == [];
    assert LeavesIn(data, "", "_", 1) == [Member("a_b", Num(2.0))];
    var leaves := [Member("a_b", Num(1.0)), Member("a_b", Num(2.0))];
    assert LeavesOf(data.members[0].value, "a_b", "_") == [Member("a_b", Num(1.0))];
    assert LeavesIn(data, "", "_", 0) == leaves;
    assert LeavesOf(data, "", "_") == leaves;
    assert leaves[..1] == [leaves[0]] && leaves[..1][..0] == [];
    assert Extend([], leaves[..1]) == Put(Extend([], []), leaves[0]) == [leaves[0]];
    assert DictOf(leaves) == Put([leaves[0]], leaves[1]);
  }
}
