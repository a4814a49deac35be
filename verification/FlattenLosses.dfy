// Exactly when flatten_dict loses an entry, for any keys, separator and
// parent key: when two different leaf paths join to the same key.
module FlattenLosses {
  import opened Decimals
  import opened JsonValues
  import opened OrderedDicts
  import opened FlattenDict
  import opened FlattenPaths

  // One step of a path: into a dict by key, or into a list by position.
  datatype Hop = Key(key: string) | Index(i: nat)

  type Hops = seq<Hop>

  function HopOf(v: Json, i: nat): Hop
    requires i < Count(v)
  {
    if v.Obj? then Key(v.members[i].key) else Index(i)
  }

  // The key a hop leads to, and the key at the end of a path.
  function KeyAfter(key: string, hop: Hop, sep: string): string {
    match hop
    case Key(k) => if key == "" then k else key + sep + k
    case Index(i) => key + "_" + Dec(i)
  }

  function KeyAlong(key: string, p: Hops, sep: string): string
    decreases |p|
  {
    if p == [] then key else KeyAlong(KeyAfter(key, p[0], sep), p[1..], sep)
  }

  // The path leads to a scalar.
  ghost predicate LeafPath(v: Json, p: Hops)
    decreases |p|
  {
    if p == [] then Scalar(v)
    else exists i :: 0 <= i < Count(v) && HopOf(v, i) == p[0] && LeafPath(Child(v, i), p[1..])
  }

  // Every dict has each key once, as a Python dict does.
  predicate UniqueKeys(v: Json) {
    match v
    case Obj(members) => DistinctKeys(members) && forall i :: 0 <= i < |members| ==> UniqueKeys(members[i].value)
    case Arr(items) => forall i :: 0 <= i < |items| ==> UniqueKeys(items[i])
    case _ => true
  }

  // ---- the leaf paths, in the order of the leaves --------------------------------

  function Prefixed(hop: Hop, paths: seq<Hops>): (r: seq<Hops>)
    ensures |r| == |paths| && forall k :: 0 <= k < |paths| ==> r[k] == [hop] + paths[k]
  {
    seq(|paths|, k requires 0 <= k < |paths| => [hop] + paths[k])
  }

  function PathsOf(v: Json): seq<Hops>
    decreases v, 1, 0
  {
    if Scalar(v) then [[]] else PathsFrom(v, 0)
  }

  function PathsFrom(v: Json, i: nat): seq<Hops>
    requires i <= Count(v)
    decreases v, 0, Count(v) - i
  {
    if i == Count(v) then [] else Prefixed(HopOf(v, i), PathsOf(Child(v, i))) + PathsFrom(v, i + 1)
  }

  function RestOf(v: Json, key: string, sep: string, i: nat): seq<Member>
    requires !Scalar(v) && i <= Count(v)
  {
    if v.Obj? then LeavesIn(v, key, sep, i) else LeavesAt(v, key, sep, i)
  }

  // The k-th leaf is keyed by the k-th path.
  ghost predicate Match(leaves: seq<Member>, paths: seq<Hops>, key: string, sep: string) {
    |leaves| == |paths| && forall k :: 0 <= k < |leaves| ==> leaves[k].key == KeyAlong(key, paths[k], sep)
  }

  lemma MatchBelow(leaves: seq<Member>, paths: seq<Hops>, key: string, hop: Hop, sep: string)
    requires Match(leaves, paths, KeyAfter(key, hop, sep), sep)
    ensures Match(leaves, Prefixed(hop, paths), key, sep)
  {
    forall k | 0 <= k < |leaves| ensures leaves[k].key == KeyAlong(key, Prefixed(hop, paths)[k], sep) {
      assert ([hop] + paths[k])[1..] == paths[k];
    }
  }

  lemma {:induction false} PathsMatch(v: Json, key: string, sep: string)
    ensures Match(LeavesOf(v, key, sep), PathsOf(v), key, sep)
    decreases v, 1, 0
  {
    if !Scalar(v) { PathsFromMatch(v, key, sep, 0); }
  }

  lemma {:induction false} PathsFromMatch(v: Json, key: string, sep: string, i: nat)
    requires !Scalar(v) && i <= Count(v)
    ensures Match(RestOf(v, key, sep, i), PathsFrom(v, i), key, sep)
    decreases v, 0, Count(v) - i
  {
    if i < Count(v) {
      var hop := HopOf(v, i);
      var below := KeyAfter(key, hop, sep);
      PathsMatch(Child(v, i), below, sep);
      PathsFromMatch(v, key, sep, i + 1);
      MatchBelow(LeavesOf(Child(v, i), below, sep), PathsOf(Child(v, i)), key, hop, sep);
      RestStep(v, key, sep, i);
      MatchMore(LeavesOf(Child(v, i), below, sep), Prefixed(hop, PathsOf(Child(v, i))), RestOf(v, key, sep, i + 1),
                PathsFrom(v, i + 1), key, sep);
      hide Match, RestOf, LeavesOf, PathsOf, KeyAlong;
    }
  }

  lemma RestStep(v: Json, key: string, sep: string, i: nat)
    requires !Scalar(v) && i < Count(v)
    ensures RestOf(v, key, sep, i)
         == LeavesOf(Child(v, i), KeyAfter(key, HopOf(v, i), sep), sep) + RestOf(v, key, sep, i + 1)
  {
  }

  lemma MatchMore(leaves: seq<Member>, paths: seq<Hops>, more: seq<Member>, further: seq<Hops>, key: string,
                  sep: string)
    requires Match(leaves, paths, key, sep) && Match(more, further, key, sep)
    ensures Match(leaves + more, paths + further, key, sep)
  {
    hide KeyAlong;
  }

  // ---- they are exactly the leaf paths, each once --------------------------------

  ghost predicate LeafFrom(v: Json, i: nat, p: Hops) {
    p != [] && exists k :: i <= k < Count(v) && HopOf(v, k) == p[0] && LeafPath(Child(v, k), p[1..])
  }

  lemma InPrefixed(hop: Hop, paths: seq<Hops>, p: Hops)
    ensures p in Prefixed(hop, paths) <==> p != [] && p[0] == hop && p[1..] in paths
  {
    if p != [] && p[0] == hop && p[1..] in paths {
      var k :| 0 <= k < |paths| && paths[k] == p[1..];
      assert Prefixed(hop, paths)[k] == p;
    }
    if p in Prefixed(hop, paths) {
      var k :| 0 <= k < |paths| && Prefixed(hop, paths)[k] == p;
      assert p[1..] == paths[k];
    }
  }

  lemma {:induction false} PathsAreLeafPaths(v: Json, p: Hops)
    ensures p in PathsOf(v) <==> LeafPath(v, p)
    decreases v, 1, 0
  {
    if !Scalar(v) { PathsFromAreLeafPaths(v, 0, p); }
  }

  lemma {:induction false} PathsFromAreLeafPaths(v: Json, i: nat, p: Hops)
    requires i <= Count(v)
    ensures p in PathsFrom(v, i) <==> LeafFrom(v, i, p)
    decreases v, 0, Count(v) - i
  {
    if i < Count(v) {
      InPrefixed(HopOf(v, i), PathsOf(Child(v, i)), p);
      if p != [] { PathsAreLeafPaths(Child(v, i), p[1..]); }
      PathsFromAreLeafPaths(v, i + 1, p);
      hide PathsOf, LeafPath, Child, HopOf;
    }
  }

  ghost predicate AllDiffer(paths: seq<Hops>) {
    forall i, j :: 0 <= i < j < |paths| ==> paths[i] != paths[j]
  }

  lemma PathsApart(hop: Hop, below: seq<Hops>, later: seq<Hops>)
    requires AllDiffer(below) && AllDiffer(later)
    requires forall j :: 0 <= j < |later| ==> later[j] != [] && later[j][0] != hop
    ensures AllDiffer(Prefixed(hop, below) + later)
  {
    var here := Prefixed(hop, below);
    forall i, j | 0 <= i < j < |here| ensures here[i] != here[j] {
      assert here[i][1..] == below[i] && here[j][1..] == below[j];
    }
    forall i, j | 0 <= i < |here| && 0 <= j < |later| ensures here[i] != later[j] {
      assert here[i][0] == hop;
    }
  }

  lemma HopsDiffer(v: Json, i: nat, k: nat)
    requires UniqueKeys(v) && i < k < Count(v)
    ensures HopOf(v, i) != HopOf(v, k)
  {
  }

  lemma {:induction false} PathsDiffer(v: Json)
    requires UniqueKeys(v)
    ensures AllDiffer(PathsOf(v))
    decreases v, 1, 0
  {
    if !Scalar(v) { PathsFromDiffer(v, 0); }
  }

  lemma {:induction false} PathsFromDiffer(v: Json, i: nat)
    requires UniqueKeys(v) && i <= Count(v)
    ensures AllDiffer(PathsFrom(v, i))
    decreases v, 0, Count(v) - i
  {
    if i < Count(v) {
      PathsDiffer(Child(v, i));
      PathsFromDiffer(v, i + 1);
      var later := PathsFrom(v, i + 1);
      forall j | 0 <= j < |later| ensures later[j] != [] && later[j][0] != HopOf(v, i) {
        var p := later[j];
        PathsFromAreLeafPaths(v, i + 1, p);
        var k :| i + 1 <= k < Count(v) && HopOf(v, k) == p[0] && LeafPath(Child(v, k), p[1..]);
        HopsDiffer(v, i, k);
      }
      PathsApart(HopOf(v, i), PathsOf(Child(v, i)), later);
    }
  }

  // ---- the theorem ----------------------------------------------------------------

  // No two leaf paths lead to the same key.
  ghost predicate KeysTellPaths(data: Json, parent: string, sep: string) {
    forall p, q :: LeafPath(data, p) && LeafPath(data, q) && KeyAlong(parent, p, sep) == KeyAlong(parent, q, sep) ==>
      p == q
  }

  lemma DistinctExactly(data: Json, leaves: seq<Member>, paths: seq<Hops>, parent: string, sep: string)
    requires Match(leaves, paths, parent, sep) && AllDiffer(paths)
    requires forall p :: p in paths <==> LeafPath(data, p)
    ensures DistinctKeys(leaves) <==> KeysTellPaths(data, parent, sep)
  {
    hide LeafPath, KeyAlong;
    if DistinctKeys(leaves) {
      forall p, q | LeafPath(data, p) && LeafPath(data, q) && KeyAlong(parent, p, sep) == KeyAlong(parent, q, sep)
        ensures p == q
      {
        var i :| 0 <= i < |paths| && paths[i] == p;
        var j :| 0 <= j < |paths| && paths[j] == q;
        assert leaves[i].key == leaves[j].key;
      }
    }
    if KeysTellPaths(data, parent, sep) {
      forall i, j | 0 <= i < j < |leaves| ensures leaves[i].key != leaves[j].key {
        assert paths[i] in paths && paths[j] in paths && paths[i] != paths[j];
      }
    }
  }

  // No entry is lost exactly when the keys tell the leaf paths apart.
  lemma FlatteningLosesExactly(data: Json, parent: string, sep: string)
    requires data.Obj? && UniqueKeys(data)
    ensures var leaves := LeavesOf(data, parent, sep);
            |DictOf(leaves)| == |leaves| <==> KeysTellPaths(data, parent, sep)
  {
    var leaves := LeavesOf(data, parent, sep);
    NoLossExactly(leaves);
    PathsMatch(data, parent, sep);
    PathsDiffer(data);
    forall p ensures p in PathsOf(data) <==> LeafPath(data, p) { PathsAreLeafPaths(data, p); }
    hide *;
    DistinctExactly(data, leaves, PathsOf(data), parent, sep);
  }
}
