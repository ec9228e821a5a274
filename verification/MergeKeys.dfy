/** The compose linter's walk over YAML merge keys, on an arbitrary graph of
    nodes: anchors may be shared and may merge each other in a cycle. */
module MergeKeys {
  import opened Common

  type Id = int

  datatype Kind = MappingKind | SequenceKind | ScalarKind | AliasKind

  /** A mapping's content alternates keys and values; a null pointer is
      None, and a pointer that leads nowhere reads as an empty scalar. */
  datatype Node = Node(kind: Kind, value: string, content: seq<Id>, alias: Option<Id>)

  type Graph = map<Id, Node>

  predicate IsMapping(g: Graph, n: Id) {
    n in g && g[n].kind == MappingKind
  }

  function Value(g: Graph, n: Id): string {
    if n in g then g[n].value else ""
  }

  /** One level only: an alias of an alias stays one. */
  function ResolveAlias(g: Graph, n: Id): Option<Id> {
    if n in g && g[n].kind == AliasKind then g[n].alias else Some(n)
  }

  // ---- A mapping's own keys and what it merges

  /** The `i`-th pair of the content has this key. */
  predicate KeyAt(g: Graph, content: seq<Id>, i: nat, key: string) {
    2 * i + 1 < |content| && Value(g, content[2 * i]) == key
  }

  lemma KeyAfter(g: Graph, content: seq<Id>, i: nat, key: string)
    requires |content| >= 2
    ensures KeyAt(g, content[2..], i, key) <==> KeyAt(g, content, i + 1, key)
  {}

  function PairKeys(g: Graph, content: seq<Id>): set<string> {
    if |content| < 2 then {}
    else (if Value(g, content[0]) == "<<" then {} else {Value(g, content[0])}) + PairKeys(g, content[2..])
  }

  function OwnKeys(g: Graph, n: Id): set<string> {
    if IsMapping(g, n) then PairKeys(g, g[n].content) else {}
  }

  lemma {:induction false} PairKeysAreKeys(g: Graph, content: seq<Id>, key: string)
    ensures key in PairKeys(g, content) <==> key != "<<" && exists i: nat :: KeyAt(g, content, i, key)
    decreases |content|
  {
    if |content| >= 2 {
      PairKeysAreKeys(g, content[2..], key);
      if i: nat :| KeyAt(g, content[2..], i, key) { KeyAfter(g, content, i, key); }
      if i: nat :| KeyAt(g, content, i, key) {
        if i > 0 { KeyAfter(g, content, i - 1, key); }
      }
      assert Value(g, content[0]) == key <==> KeyAt(g, content, 0, key);
    }
  }

  method MappingOwnKeys(g: Graph, n: Id) returns (keys: set<string>)
    ensures keys == OwnKeys(g, n)
    ensures forall key :: key in keys <==>
              IsMapping(g, n) && key != "<<" && exists i: nat :: KeyAt(g, g[n].content, i, key)
  {
    keys := {};
    if !IsMapping(g, n) {
      return;
    }
    var content := g[n].content;
    var i := 0;
    while i + 1 < |content|
      invariant 0 <= i <= |content|
      invariant keys + PairKeys(g, content[i..]) == PairKeys(g, content)
    {
      assert content[i..][2..] == content[i + 2..];
      var k := Value(g, content[i]);
      if k != "<<" {
        keys := keys + {k};
      }
      i := i + 2;
    }
    forall key ensures key in keys <==> key != "<<" && exists i: nat :: KeyAt(g, content, i, key) {
      PairKeysAreKeys(g, content, key);
    }
  }

  /** `<<: *a` merges one node, `<<: [*a, *b]` each of the list. */
  function Spread(g: Graph, v: Id): seq<Id> {
    if v in g && g[v].kind == SequenceKind then g[v].content else [v]
  }

  function PairSources(g: Graph, content: seq<Id>): seq<Id> {
    if |content| < 2 then []
    else (if Value(g, content[0]) == "<<" then Spread(g, content[1]) else []) + PairSources(g, content[2..])
  }

  function Sources(g: Graph, n: Id): seq<Id> {
    if IsMapping(g, n) then PairSources(g, g[n].content) else []
  }

  lemma FirstPair(g: Graph, content: seq<Id>)
    requires |content| >= 2
    ensures var first := if Value(g, content[0]) == "<<" then Spread(g, content[1]) else [];
            PairSources(g, content) == first + PairSources(g, content[2..])
  {}

  lemma Reassociate(a: seq<Id>, b: seq<Id>, c: seq<Id>)
    ensures a + (b + c) == (a + b) + c
  {}

  /** Pairs before and pairs after contribute in this order. */
  lemma {:induction false} SourcesJoin(g: Graph, before: seq<Id>, after: seq<Id>)
    requires |before| % 2 == 0
    ensures PairSources(g, before + after) == PairSources(g, before) + PairSources(g, after)
    decreases |before|
  {
    if before == [] {
      assert before + after == after;
    } else {
      assert (before + after)[2..] == before[2..] + after;
      SourcesJoin(g, before[2..], after);
      var first := if Value(g, before[0]) == "<<" then Spread(g, before[1]) else [];
      FirstPair(g, before + after);
      FirstPair(g, before);
      Reassociate(first, PairSources(g, before[2..]), PairSources(g, after));
    }
  }

  lemma CutAround(content: seq<Id>, i: nat)
    requires 2 * i + 1 < |content|
    ensures var rest := content[2 * i..];
            && content == content[..2 * i] + rest && |rest| >= 2
            && rest[0] == content[2 * i] && rest[1] == content[2 * i + 1] && rest[2..] == content[2 * i + 2..]
  {}

  lemma SourcesAround(g: Graph, content: seq<Id>, i: nat)
    requires KeyAt(g, content, i, "<<")
    ensures PairSources(g, content)
         == PairSources(g, content[..2 * i]) + Spread(g, content[2 * i + 1]) + PairSources(g, content[2 * i + 2..])
  {
    var before, rest := content[..2 * i], content[2 * i..];
    CutAround(content, i);
    SourcesJoin(g, before, rest);
    FirstPair(g, rest);
    Reassociate(PairSources(g, before), Spread(g, rest[1]), PairSources(g, rest[2..]));
  }

  lemma {:induction false} SourcesAreMerged(g: Graph, content: seq<Id>, x: Id)
    ensures x in PairSources(g, content) <==>
              exists i: nat :: KeyAt(g, content, i, "<<") && x in Spread(g, content[2 * i + 1])
    decreases |content|
  {
    if |content| >= 2 {
      SourcesAreMerged(g, content[2..], x);
      if i: nat :| KeyAt(g, content[2..], i, "<<") && x in Spread(g, content[2..][2 * i + 1]) {
        KeyAfter(g, content, i, "<<");
        assert content[2..][2 * i + 1] == content[2 * (i + 1) + 1];
      }
      if i: nat :| KeyAt(g, content, i, "<<") && x in Spread(g, content[2 * i + 1]) {
        if i > 0 {
          KeyAfter(g, content, i - 1, "<<");
          assert content[2..][2 * (i - 1) + 1] == content[2 * i + 1];
        }
      }
      if Value(g, content[0]) == "<<" { assert KeyAt(g, content, 0, "<<") && content[2 * 0 + 1] == content[1]; }
    }
  }

  lemma SourcesSpec(g: Graph, content: seq<Id>)
    ensures forall x :: x in PairSources(g, content) <==>
              exists i: nat :: KeyAt(g, content, i, "<<") && x in Spread(g, content[2 * i + 1])
    ensures forall i: nat :: KeyAt(g, content, i, "<<") ==>
              PairSources(g, content)
              == PairSources(g, content[..2 * i]) + Spread(g, content[2 * i + 1])
                 + PairSources(g, content[2 * i + 2..])
  {
    forall x ensures x in PairSources(g, content) <==>
                       exists i: nat :: KeyAt(g, content, i, "<<") && x in Spread(g, content[2 * i + 1])
    {
      SourcesAreMerged(g, content, x);
    }
    forall i: nat | KeyAt(g, content, i, "<<")
      ensures PairSources(g, content)
           == PairSources(g, content[..2 * i]) + Spread(g, content[2 * i + 1]) + PairSources(g, content[2 * i + 2..])
    {
      SourcesAround(g, content, i);
    }
  }

  lemma PairAt(g: Graph, content: seq<Id>, i: nat)
    requires i + 1 < |content|
    ensures var first := if Value(g, content[i]) == "<<" then Spread(g, content[i + 1]) else [];
            PairSources(g, content[i..]) == first + PairSources(g, content[i + 2..])
  {
    FirstPair(g, content[i..]);
    assert content[i..][2..] == content[i + 2..];
  }

  /** One pass over the pairs. */
  method CollectSources(g: Graph, content: seq<Id>) returns (sources: seq<Id>)
    ensures sources == PairSources(g, content)
  {
    sources := [];
    var i := 0;
    while i + 1 < |content|
      invariant 0 <= i <= |content|
      invariant sources + PairSources(g, content[i..]) == PairSources(g, content)
    {
      PairAt(g, content, i);
      if Value(g, content[i]) == "<<" {
        Reassociate(sources, Spread(g, content[i + 1]), PairSources(g, content[i + 2..]));
        sources := sources + Spread(g, content[i + 1]);
      }
      i := i + 2;
    }
  }

  /** `x` is the value of a merge key, or an element of the list that is. */
  predicate Supplies(g: Graph, v: Id, x: Id) {
    if v in g && g[v].kind == SequenceKind then x in g[v].content else x == v
  }

  method MergeSources(g: Graph, n: Id) returns (sources: seq<Id>)
    ensures sources == Sources(g, n)
    ensures forall x :: x in sources <==>
              IsMapping(g, n) && exists i: nat :: KeyAt(g, g[n].content, i, "<<")
                                                  && Supplies(g, g[n].content[2 * i + 1], x)
    ensures forall i: nat :: IsMapping(g, n) && KeyAt(g, g[n].content, i, "<<") ==>
              var content := g[n].content;
              var v := content[2 * i + 1];
              sources == PairSources(g, content[..2 * i])
                         + (if v in g && g[v].kind == SequenceKind then g[v].content else [v])
                         + PairSources(g, content[2 * i + 2..])
  {
    sources := [];
    if IsMapping(g, n) {
      sources := CollectSources(g, g[n].content);
      SourcesSpec(g, g[n].content);
      assert forall v, x :: x in Spread(g, v) <==> Supplies(g, v, x);
    }
  }

  // ---- The walk as a function of the visited set

  datatype Walked = Walked(keys: set<string>, visited: set<Id>)

  function Resolve(g: Graph, n: Id, visited: set<Id>): (r: Walked)
    ensures visited <= r.visited
    decreases g.Keys - visited, 0
  {
    var target := ResolveAlias(g, n);
    if target.None? || !IsMapping(g, target.value) || target.value in visited then Walked({}, visited)
    else
      var m := target.value;
      var r := ResolveAll(g, Sources(g, m), visited + {m});
      Walked(r.keys + OwnKeys(g, m), r.visited)
  }

  function ResolveAll(g: Graph, sources: seq<Id>, visited: set<Id>): (r: Walked)
    ensures visited <= r.visited
    decreases g.Keys - visited, |sources| + 1
  {
    if sources == [] then Walked({}, visited)
    else
      var first := Resolve(g, sources[0], visited);
      assert g.Keys - first.visited <= g.Keys - visited;
      var rest := ResolveAll(g, sources[1..], first.visited);
      Walked(first.keys + rest.keys, rest.visited)
  }

  lemma ResolveAllStep(g: Graph, sources: seq<Id>, i: nat, visited: set<Id>)
    requires i < |sources|
    ensures var first := Resolve(g, sources[i], visited);
            var rest := ResolveAll(g, sources[i + 1..], first.visited);
            ResolveAll(g, sources[i..], visited) == Walked(first.keys + rest.keys, rest.visited)
  {
    assert sources[i..][1..] == sources[i + 1..];
  }

  lemma UnionsReassociate(a: set<string>, b: set<string>, c: set<string>)
    ensures (a + b) + c == a + (b + c)
  {}

  class Visited {
    var nodes: set<Id>

    constructor ()
      ensures nodes == {}
    {
      nodes := {};
    }
  }

  /** resolvedKeySet: every nested call marks nodes in the one visited set. */
  method ResolvedKeySet(g: Graph, node: Id, visited: Visited) returns (keys: set<string>)
    modifies visited
    ensures Walked(keys, visited.nodes) == Resolve(g, node, old(visited.nodes))
    decreases g.Keys - visited.nodes
  {
    var target := ResolveAlias(g, node);
    if target.None? || !IsMapping(g, target.value) {
      return {};
    }
    var m := target.value;
    if m in visited.nodes {
      return {};
    }
    ghost var before := visited.nodes;
    visited.nodes := visited.nodes + {m};
    var result: set<string> := {};
    var sources := MergeSources(g, m);
    ghost var whole := ResolveAll(g, sources, before + {m});
    for i := 0 to |sources|
      invariant before + {m} <= visited.nodes
      invariant result + ResolveAll(g, sources[i..], visited.nodes).keys == whole.keys
      invariant ResolveAll(g, sources[i..], visited.nodes).visited == whole.visited
    {
      ResolveAllStep(g, sources, i, visited.nodes);
      assert g.Keys - visited.nodes < g.Keys - before;
      var more := ResolvedKeySet(g, sources[i], visited);
      ghost var rest := ResolveAll(g, sources[i + 1..], visited.nodes).keys;
      UnionsReassociate(result, more, rest);
      result := result + more;
    }
    var own := MappingOwnKeys(g, m);
    return result + own;
  }

  // ---- What it computes

  /** `n` merges the mapping `m`. */
  ghost predicate Merges(g: Graph, n: Id, m: Id) {
    IsMapping(g, m) && exists i :: 0 <= i < |Sources(g, n)| && ResolveAlias(g, Sources(g, n)[i]) == Some(m)
  }

  ghost predicate Path(g: Graph, path: seq<Id>) {
    |path| > 0 && IsMapping(g, path[0]) && forall i :: 0 < i < |path| ==> Merges(g, path[i - 1], path[i])
  }

  /** `m` is `n` or is merged by it, directly or through other mappings. */
  ghost predicate Reaches(g: Graph, n: Id, m: Id) {
    exists path :: Path(g, path) && path[0] == n && path[|path| - 1] == m
  }

  lemma ReachesSelf(g: Graph, n: Id)
    requires IsMapping(g, n)
    ensures Reaches(g, n, n)
  {
    assert Path(g, [n]) && [n][0] == n;
  }

  lemma LongerPath(g: Graph, n: Id, path: seq<Id>)
    requires IsMapping(g, n) && Path(g, path) && Merges(g, n, path[0])
    ensures Path(g, [n] + path)
  {
    var longer := [n] + path;
    forall i | 0 < i < |longer| ensures Merges(g, longer[i - 1], longer[i]) {
      assert i > 1 ==> Merges(g, path[i - 2], path[i - 1]);
    }
  }

  lemma ReachesVia(g: Graph, n: Id, m: Id, k: Id)
    requires IsMapping(g, n) && Merges(g, n, m) && Reaches(g, m, k)
    ensures Reaches(g, n, k)
  {
    var path :| Path(g, path) && path[0] == m && path[|path| - 1] == k;
    var longer := [n] + path;
    assert longer[0] == n && longer[|longer| - 1] == k;
    LongerPath(g, n, path);
  }

  /** The keys are those of exactly the newly visited mappings. */
  ghost predicate KeysOfNew(g: Graph, r: Walked, visited: set<Id>) {
    forall k :: k in r.keys <==> exists m :: m in r.visited - visited && k in OwnKeys(g, m)
  }

  /** No newly visited mapping merges an unvisited one. */
  ghost predicate NewClosed(g: Graph, r: Walked, visited: set<Id>) {
    forall n, m :: n in r.visited - visited && Merges(g, n, m) ==> m in r.visited
  }

  ghost predicate Visits(g: Graph, n: Id, r: Walked) {
    var target := ResolveAlias(g, n);
    target.Some? && IsMapping(g, target.value) ==> target.value in r.visited
  }

  /** `m` can be reached from what `n` resolves to. */
  ghost predicate ReachedFrom(g: Graph, n: Id, m: Id) {
    var target := ResolveAlias(g, n);
    target.Some? && Reaches(g, target.value, m)
  }

  /** A mapping's walk is its own visit and the walk of what it merges. */
  lemma OwnThenSources(g: Graph, n: Id, m: Id, visited: set<Id>, inner: Walked)
    requires ResolveAlias(g, n) == Some(m) && IsMapping(g, m) && m !in visited
    requires Achieves(g, Sources(g, m), inner, visited + {m})
    ensures Achieves(g, [n], Walked(inner.keys + OwnKeys(g, m), inner.visited), visited)
  {
    var r := Walked(inner.keys + OwnKeys(g, m), inner.visited);
    assert r.visited - visited == (inner.visited - (visited + {m})) + {m};
    forall k ensures k in r.keys <==> exists x :: x in r.visited - visited && k in OwnKeys(g, x) {
      if k in inner.keys {
        var x :| x in inner.visited - (visited + {m}) && k in OwnKeys(g, x);
        assert x in r.visited - visited;
      }
    }
    forall x | x in r.visited - visited ensures ReachedFrom(g, [n][0], x) {
      if x == m {
        ReachesSelf(g, m);
      } else {
        var i :| 0 <= i < |Sources(g, m)| && ReachedFrom(g, Sources(g, m)[i], x);
        var via := ResolveAlias(g, Sources(g, m)[i]).value;
        ReachesMapping(g, via, x);
        assert Merges(g, m, via);
        ReachesVia(g, m, via, x);
      }
    }
    forall x, y | x in r.visited - visited && Merges(g, x, y) ensures y in r.visited {
      if x == m {
        var i :| 0 <= i < |Sources(g, m)| && ResolveAlias(g, Sources(g, m)[i]) == Some(y);
        assert Visits(g, Sources(g, m)[i], inner);
      }
    }
  }

  lemma {:induction false} ResolveSpec(g: Graph, n: Id, visited: set<Id>)
    ensures Achieves(g, [n], Resolve(g, n, visited), visited)
    decreases g.Keys - visited, 0
  {
    var target := ResolveAlias(g, n);
    if target.Some? && IsMapping(g, target.value) && target.value !in visited {
      var m := target.value;
      ResolveAllSpec(g, Sources(g, m), visited + {m});
      OwnThenSources(g, n, m, visited, ResolveAll(g, Sources(g, m), visited + {m}));
    }
  }

  lemma ReachesMapping(g: Graph, n: Id, m: Id)
    requires Reaches(g, n, m)
    ensures IsMapping(g, n)
  {}

  /** What walking a list of sources achieves. */
  ghost predicate Achieves(g: Graph, sources: seq<Id>, r: Walked, visited: set<Id>) {
    && visited <= r.visited && KeysOfNew(g, r, visited) && NewClosed(g, r, visited)
    && (forall i :: 0 <= i < |sources| ==> Visits(g, sources[i], r))
    && (forall m :: m in r.visited - visited ==> exists i :: 0 <= i < |sources| && ReachedFrom(g, sources[i], m))
  }

  lemma KeysCompose(g: Graph, visited: set<Id>, first: Walked, rest: Walked)
    requires visited <= first.visited <= rest.visited
    requires KeysOfNew(g, first, visited) && KeysOfNew(g, rest, first.visited)
    ensures KeysOfNew(g, Walked(first.keys + rest.keys, rest.visited), visited)
  {
    forall k ensures k in first.keys + rest.keys <==> exists m :: m in rest.visited - visited && k in OwnKeys(g, m) {
      if k in first.keys {
        var m :| m in first.visited - visited && k in OwnKeys(g, m);
        assert m in rest.visited - visited;
      }
      if k in rest.keys {
        var m :| m in rest.visited - first.visited && k in OwnKeys(g, m);
        assert m in rest.visited - visited;
      }
      if m :| m in rest.visited - visited && k in OwnKeys(g, m) {
        assert m in first.visited - visited || m in rest.visited - first.visited;
      }
    }
  }

  lemma WalksCompose(g: Graph, source: Id, sources: seq<Id>, visited: set<Id>, first: Walked, rest: Walked)
    requires Achieves(g, [source], first, visited) && Achieves(g, sources, rest, first.visited)
    ensures Achieves(g, [source] + sources, Walked(first.keys + rest.keys, rest.visited), visited)
  {
    var all := [source] + sources;
    KeysCompose(g, visited, first, rest);
    forall m | m in rest.visited - visited ensures exists i :: 0 <= i < |all| && ReachedFrom(g, all[i], m) {
      if m in first.visited {
        assert m in first.visited - visited;
        var i :| 0 <= i < |[source]| && ReachedFrom(g, [source][i], m);
        assert ReachedFrom(g, all[0], m);
      } else {
        assert m in rest.visited - first.visited;
        var i :| 0 <= i < |sources| && ReachedFrom(g, sources[i], m);
        assert ReachedFrom(g, all[i + 1], m);
      }
    }
    forall i | 0 <= i < |all| ensures Visits(g, all[i], rest) {
      if i > 0 {
        assert Visits(g, sources[i - 1], rest);
      } else {
        assert Visits(g, [source][0], first);
      }
    }
  }

  lemma FirstThenRest(g: Graph, sources: seq<Id>, visited: set<Id>, first: Walked, rest: Walked)
    requires sources != []
    requires Achieves(g, [sources[0]], first, visited) && Achieves(g, sources[1..], rest, first.visited)
    ensures Achieves(g, sources, Walked(first.keys + rest.keys, rest.visited), visited)
  {
    WalksCompose(g, sources[0], sources[1..], visited, first, rest);
    assert [sources[0]] + sources[1..] == sources;
  }

  lemma {:induction false} ResolveAllSpec(g: Graph, sources: seq<Id>, visited: set<Id>)
    ensures Achieves(g, sources, ResolveAll(g, sources, visited), visited)
    decreases g.Keys - visited, |sources| + 1
  {
    if sources != [] {
      var first := Resolve(g, sources[0], visited);
      assert g.Keys - first.visited <= g.Keys - visited;
      ResolveSpec(g, sources[0], visited);
      ResolveAllSpec(g, sources[1..], first.visited);
      FirstThenRest(g, sources, visited, first, ResolveAll(g, sources[1..], first.visited));
    }
  }

  lemma {:induction false} ClosedHoldsPaths(g: Graph, path: seq<Id>, visited: set<Id>)
    requires Path(g, path) && path[0] in visited
    requires forall n, m :: n in visited && Merges(g, n, m) ==> m in visited
    ensures path[|path| - 1] in visited
  {
    if |path| > 1 {
      assert Merges(g, path[0], path[1]);
      var shorter := path[1..];
      forall i | 0 < i < |shorter| ensures Merges(g, shorter[i - 1], shorter[i]) {
        assert Merges(g, path[i], path[i + 1]);
      }
      ClosedHoldsPaths(g, shorter, visited);
    }
  }

  lemma ReachedStays(g: Graph, n: Id, m: Id, visited: set<Id>)
    requires Reaches(g, n, m) && n in visited
    requires forall x, y :: x in visited && Merges(g, x, y) ==> y in visited
    ensures m in visited
  {
    var path :| Path(g, path) && path[0] == n && path[|path| - 1] == m;
    ClosedHoldsPaths(g, path, visited);
  }

  lemma NewIsReached(g: Graph, n: Id, r: Walked, m: Id)
    requires Achieves(g, [n], r, {}) && m in r.visited
    ensures ReachedFrom(g, n, m)
  {
    assert m in r.visited - {};
    var i :| 0 <= i < |[n]| && ReachedFrom(g, [n][i], m);
  }

  lemma FreshClosed(g: Graph, r: Walked)
    requires NewClosed(g, r, {})
    ensures forall x, y :: x in r.visited && Merges(g, x, y) ==> y in r.visited
  {
    forall x, y | x in r.visited && Merges(g, x, y) ensures y in r.visited {
      assert x in r.visited - {};
    }
  }

  lemma FreshVisitsReachable(g: Graph, n: Id, r: Walked, m: Id)
    requires Achieves(g, [n], r, {})
    ensures m in r.visited <==> ReachedFrom(g, n, m)
  {
    if m in r.visited {
      NewIsReached(g, n, r, m);
    } else if ReachedFrom(g, n, m) {
      var target := ResolveAlias(g, n).value;
      ReachesMapping(g, target, m);
      FreshClosed(g, r);
      assert Visits(g, [n][0], r);
      ReachedStays(g, target, m, r.visited);
    }
  }

  /** From an empty visited set, on any graph, cycles included: the union of the
      own keys of exactly the mappings that can be reached. */
  lemma FreshWalkIsReachability(g: Graph, n: Id)
    ensures var r := Resolve(g, n, {});
            && (forall m :: m in r.visited <==> ReachedFrom(g, n, m))
            && (forall k :: k in r.keys <==> exists m :: m in r.visited && k in OwnKeys(g, m))
  {
    var r := Resolve(g, n, {});
    ResolveSpec(g, n, {});
    assert r.visited - {} == r.visited;
    forall m ensures m in r.visited <==> ReachedFrom(g, n, m) {
      FreshVisitsReachable(g, n, r, m);
    }
  }

  // ---- The check

  const ENVIRONMENT := "environment"

  /** Something the service merges carries an environment, however deep. */
  ghost predicate MergesEnvironment(g: Graph, service: Id) {
    exists i, m :: 0 <= i < |Sources(g, service)| && ReachedFrom(g, Sources(g, service)[i], m)
      && ENVIRONMENT in OwnKeys(g, m)
  }

  /** The trap: a local environment replaces the merged one. */
  ghost predicate Trapped(g: Graph, entry: Id) {
    var service := ResolveAlias(g, entry);
    && service.Some? && IsMapping(g, service.value)
    && ENVIRONMENT in OwnKeys(g, service.value) && MergesEnvironment(g, service.value)
  }

  // ---- The trap as the document writes it

  /** `v` is the mapping `m`, or an alias of it. */
  ghost predicate LeadsTo(g: Graph, v: Id, m: Id) {
    m in g && g[m].kind == MappingKind && (v == m || (v in g && g[v].kind == AliasKind && g[v].alias == Some(m)))
  }

  /** The mapping `n` has a pair `key: v`. */
  ghost predicate Writes(g: Graph, n: Id, i: nat, key: string, v: Id) {
    && n in g && g[n].kind == MappingKind && 2 * i + 1 < |g[n].content|
    && g[n].content[2 * i] in g && g[g[n].content[2 * i]].value == key && g[n].content[2 * i + 1] == v
  }

  ghost predicate Owns(g: Graph, n: Id, key: string) {
    exists i: nat, v :: Writes(g, n, i, key, v)
  }

  /** `n` has a merge key whose value leads to `m`, or has an element that does. */
  ghost predicate Takes(g: Graph, n: Id, m: Id) {
    exists i: nat, v, x :: Writes(g, n, i, "<<", v) && Supplies(g, v, x) && LeadsTo(g, x, m)
  }

  ghost predicate TakesAlong(g: Graph, chain: seq<Id>) {
    forall i :: 0 < i < |chain| ==> Takes(g, chain[i - 1], chain[i])
  }

  /** A service with its own environment takes another one along such a chain. */
  ghost predicate Shadows(g: Graph, entry: Id, chain: seq<Id>) {
    && |chain| >= 2 && LeadsTo(g, entry, chain[0]) && TakesAlong(g, chain)
    && Owns(g, chain[0], "environment") && Owns(g, chain[|chain| - 1], "environment")
  }

  lemma OwnsIff(g: Graph, n: Id, key: string)
    requires key != "" && key != "<<"
    ensures Owns(g, n, key) <==> key in OwnKeys(g, n)
  {
    if IsMapping(g, n) {
      PairKeysAreKeys(g, g[n].content, key);
      if i: nat :| KeyAt(g, g[n].content, i, key) { assert Writes(g, n, i, key, g[n].content[2 * i + 1]); }
      if i: nat, v :| Writes(g, n, i, key, v) { assert KeyAt(g, g[n].content, i, key); }
    }
  }

  lemma LeadsIff(g: Graph, v: Id, m: Id)
    ensures LeadsTo(g, v, m) <==> ResolveAlias(g, v) == Some(m) && IsMapping(g, m)
  {}

  lemma PairWrites(g: Graph, n: Id, i: nat, key: string)
    requires IsMapping(g, n) && KeyAt(g, g[n].content, i, key) && key != ""
    ensures Writes(g, n, i, key, g[n].content[2 * i + 1])
  {}

  lemma TakenIsMerged(g: Graph, n: Id, m: Id)
    requires Takes(g, n, m)
    ensures Merges(g, n, m)
  {
    var i: nat, v, x :| Writes(g, n, i, "<<", v) && Supplies(g, v, x) && LeadsTo(g, x, m);
    var content := g[n].content;
    assert KeyAt(g, content, i, "<<") && x in Spread(g, content[2 * i + 1]);
    SourcesAreMerged(g, content, x);
    LeadsIff(g, x, m);
    var k :| 0 <= k < |Sources(g, n)| && Sources(g, n)[k] == x;
  }

  lemma MergedIsTaken(g: Graph, n: Id, m: Id)
    requires Merges(g, n, m)
    ensures Takes(g, n, m)
  {
    var k :| 0 <= k < |Sources(g, n)| && ResolveAlias(g, Sources(g, n)[k]) == Some(m);
    var x, content := Sources(g, n)[k], g[n].content;
    SourcesAreMerged(g, content, x);
    var i: nat :| KeyAt(g, content, i, "<<") && x in Spread(g, content[2 * i + 1]);
    PairWrites(g, n, i, "<<");
    LeadsIff(g, x, m);
    assert Supplies(g, content[2 * i + 1], x);
  }

  lemma TakesIff(g: Graph, n: Id, m: Id)
    ensures Takes(g, n, m) <==> Merges(g, n, m)
  {
    if Takes(g, n, m) { TakenIsMerged(g, n, m); }
    if Merges(g, n, m) { MergedIsTaken(g, n, m); }
  }

  lemma ChainIsPath(g: Graph, chain: seq<Id>)
    requires |chain| > 0 && IsMapping(g, chain[0])
    ensures Path(g, chain) <==> TakesAlong(g, chain)
  {
    forall i | 0 < i < |chain| ensures Takes(g, chain[i - 1], chain[i]) <==> Merges(g, chain[i - 1], chain[i]) {
      TakesIff(g, chain[i - 1], chain[i]);
    }
  }

  lemma TrapHasChain(g: Graph, entry: Id) returns (chain: seq<Id>)
    requires Trapped(g, entry)
    ensures Shadows(g, entry, chain)
  {
    var service := ResolveAlias(g, entry).value;
    var i, m :| 0 <= i < |Sources(g, service)| && ReachedFrom(g, Sources(g, service)[i], m)
      && ENVIRONMENT in OwnKeys(g, m);
    var target := ResolveAlias(g, Sources(g, service)[i]).value;
    var path :| Path(g, path) && path[0] == target && path[|path| - 1] == m;
    chain := PathShadows(g, entry, service, path);
  }

  lemma PathShadows(g: Graph, entry: Id, service: Id, path: seq<Id>) returns (chain: seq<Id>)
    requires ResolveAlias(g, entry) == Some(service) && IsMapping(g, service) && ENVIRONMENT in OwnKeys(g, service)
    requires Path(g, path) && Merges(g, service, path[0]) && ENVIRONMENT in OwnKeys(g, path[|path| - 1])
    ensures Shadows(g, entry, chain)
  {
    chain := [service] + path;
    LongerPath(g, service, path);
    ChainIsPath(g, chain);
    LeadsIff(g, entry, service);
    OwnsIff(g, service, ENVIRONMENT);
    OwnsIff(g, path[|path| - 1], ENVIRONMENT);
  }

  lemma ChainTraps(g: Graph, entry: Id, chain: seq<Id>)
    requires Shadows(g, entry, chain)
    ensures Trapped(g, entry)
  {
    var service, path := chain[0], chain[1..];
    LeadsIff(g, entry, service);
    ChainIsPath(g, chain);
    assert Merges(g, chain[0], chain[1]);
    forall i | 0 < i < |path| ensures Merges(g, path[i - 1], path[i]) {
      assert Merges(g, chain[i], chain[i + 1]);
    }
    assert Path(g, path) && path[|path| - 1] == chain[|chain| - 1];
    var i :| 0 <= i < |Sources(g, service)| && ResolveAlias(g, Sources(g, service)[i]) == Some(chain[1]);
    assert ReachedFrom(g, Sources(g, service)[i], chain[|chain| - 1]);
    OwnsIff(g, service, ENVIRONMENT);
    OwnsIff(g, chain[|chain| - 1], ENVIRONMENT);
  }

  /** The shape the check is for: `<<: *a`, or `<<: [.., *a, ..]`, with an
      environment here and one at the anchor. */
  lemma AliasedEnvironmentTraps(g: Graph, service: Id, i: nat, v: Id, x: Id, anchor: Id)
    requires Owns(g, service, "environment") && Writes(g, service, i, "<<", v)
    requires x == v || (v in g && g[v].kind == SequenceKind && x in g[v].content)
    requires x in g && g[x].kind == AliasKind && g[x].alias == Some(anchor) && Owns(g, anchor, "environment")
    ensures Trapped(g, service)
  {
    assert Supplies(g, v, x) && LeadsTo(g, x, anchor);
    var chain := [service, anchor];
    assert Takes(g, chain[0], chain[1]);
    assert Shadows(g, service, chain);
    ChainTraps(g, service, chain);
  }

  /** mappingValue: the first value under a key. */
  function ValueFor(g: Graph, content: seq<Id>, key: string): Option<Id> {
    if |content| < 2 then None
    else if Value(g, content[0]) == key then Some(content[1])
    else ValueFor(g, content[2..], key)
  }

  method MappingValue(g: Graph, n: Id, key: string) returns (v: Option<Id>)
    ensures v == if IsMapping(g, n) then ValueFor(g, g[n].content, key) else None
    ensures v.None? <==> !(IsMapping(g, n) && exists i: nat :: KeyAt(g, g[n].content, i, key))
    ensures v.Some? ==>
              IsMapping(g, n) && exists i: nat ::
                && KeyAt(g, g[n].content, i, key) && v.value == g[n].content[2 * i + 1]
                && forall j: nat :: j < i ==> !KeyAt(g, g[n].content, j, key)
  {
    if !IsMapping(g, n) {
      return None;
    }
    var content := g[n].content;
    var i := 0;
    while i + 1 < |content|
      invariant 0 <= i <= |content|
      invariant i % 2 == 0 && forall j: nat :: 2 * j < i ==> !KeyAt(g, content, j, key)
      invariant ValueFor(g, content[i..], key) == ValueFor(g, content, key)
    {
      assert content[i..][2..] == content[i + 2..];
      if Value(g, content[i]) == key {
        assert KeyAt(g, content, i / 2, key);
        return Some(content[i + 1]);
      }
      i := i + 2;
    }
    return None;
  }

  /** The services map of the document, if there is one. */
  function Services(g: Graph, root: Id): seq<Id> {
    if !IsMapping(g, root) then []
    else
      var services := ValueFor(g, g[root].content, "services");
      if services.Some? && IsMapping(g, services.value) then g[services.value].content else []
  }

  /** The names of the trapped services, in the order they are declared. */
  ghost function TrappedNames(g: Graph, content: seq<Id>): seq<string> {
    if |content| < 2 then []
    else (if Trapped(g, content[1]) then [Value(g, content[0])] else []) + TrappedNames(g, content[2..])
  }

  /** The root mapping's first pair for the key has this value. */
  ghost predicate FirstUnder(g: Graph, root: Id, key: string, v: Id) {
    exists j: nat :: Writes(g, root, j, key, v) && forall k: nat, w :: Writes(g, root, k, key, w) ==> j <= k
  }

  /** The list of pairs has this entry under this name. */
  ghost predicate Lists(g: Graph, content: seq<Id>, name: string, entry: Id) {
    exists i: nat :: KeyAt(g, content, i, name) && content[2 * i + 1] == entry
  }

  /** The document declares this service. */
  ghost predicate Declares(g: Graph, root: Id, name: string, entry: Id) {
    exists services ::
      && FirstUnder(g, root, "services", services) && services in g && g[services].kind == MappingKind
      && Lists(g, g[services].content, name, entry)
  }

  lemma ListsTail(g: Graph, content: seq<Id>, name: string, entry: Id)
    requires |content| >= 2
    ensures Lists(g, content, name, entry)
       <==> (Value(g, content[0]) == name && content[1] == entry) || Lists(g, content[2..], name, entry)
  {
    if i: nat :| KeyAt(g, content[2..], i, name) && content[2..][2 * i + 1] == entry {
      KeyAfter(g, content, i, name);
      assert content[2 * (i + 1) + 1] == entry;
    }
    if i: nat :| KeyAt(g, content, i, name) && content[2 * i + 1] == entry {
      if i > 0 {
        KeyAfter(g, content, i - 1, name);
        assert content[2..][2 * (i - 1) + 1] == entry;
      }
    }
    if Value(g, content[0]) == name && content[1] == entry {
      assert KeyAt(g, content, 0, name) && content[2 * 0 + 1] == entry;
    }
  }

  lemma {:induction false} TrappedAreNamed(g: Graph, content: seq<Id>, name: string)
    ensures name in TrappedNames(g, content) <==> exists entry :: Lists(g, content, name, entry) && Trapped(g, entry)
    decreases |content|
  {
    if |content| >= 2 {
      TrappedAreNamed(g, content[2..], name);
      forall entry ensures Lists(g, content, name, entry)
                      <==> (Value(g, content[0]) == name && content[1] == entry) || Lists(g, content[2..], name, entry)
      {
        ListsTail(g, content, name, entry);
      }
    }
  }

  /** The first services mapping is what MappingValue finds. */
  lemma FirstIsServices(g: Graph, root: Id, v: Id)
    requires IsMapping(g, root)
    ensures FirstUnder(g, root, "services", v) <==>
              exists i: nat ::
                && KeyAt(g, g[root].content, i, "services") && v == g[root].content[2 * i + 1]
                && forall j: nat :: j < i ==> !KeyAt(g, g[root].content, j, "services")
  {
    var content := g[root].content;
    if j: nat :| Writes(g, root, j, "services", v) && forall k: nat, w :: Writes(g, root, k, "services", w) ==> j <= k {
      assert KeyAt(g, content, j, "services");
      forall k: nat | k < j ensures !KeyAt(g, content, k, "services") {
        if KeyAt(g, content, k, "services") { PairWrites(g, root, k, "services"); }
      }
    }
    if i: nat :| KeyAt(g, content, i, "services") && v == content[2 * i + 1]
                 && forall j: nat :: j < i ==> !KeyAt(g, content, j, "services") {
      PairWrites(g, root, i, "services");
      forall k: nat, w | Writes(g, root, k, "services", w) ensures i <= k {
        assert KeyAt(g, content, k, "services");
      }
    }
  }

  lemma NamesAreShadowing(g: Graph, content: seq<Id>, name: string)
    ensures name in TrappedNames(g, content) <==>
              exists entry, chain :: Lists(g, content, name, entry) && Shadows(g, entry, chain)
  {
    TrappedAreNamed(g, content, name);
    if entry :| Lists(g, content, name, entry) && Trapped(g, entry) {
      var chain := TrapHasChain(g, entry);
    }
    if entry, chain :| Lists(g, content, name, entry) && Shadows(g, entry, chain) {
      ChainTraps(g, entry, chain);
    }
  }

  /** One source at a time, each from a visited set of its own. */
  method AnySourceHasEnvironment(g: Graph, service: Id) returns (found: bool)
    ensures found <==> MergesEnvironment(g, service)
  {
    var sources := MergeSources(g, service);
    for i := 0 to |sources|
      invariant forall j, m :: 0 <= j < i && ReachedFrom(g, sources[j], m) ==> ENVIRONMENT !in OwnKeys(g, m)
    {
      var visited := new Visited();
      var keys := ResolvedKeySet(g, sources[i], visited);
      FreshWalkIsReachability(g, sources[i]);
      if ENVIRONMENT in keys {
        return true;
      }
    }
    return false;
  }

  method CheckService(g: Graph, entry: Id) returns (trapped: bool)
    ensures trapped <==> Trapped(g, entry)
  {
    var service := ResolveAlias(g, entry);
    if service.None? || !IsMapping(g, service.value) {
      return false;
    }
    var own := MappingOwnKeys(g, service.value);
    if ENVIRONMENT !in own {
      return false;
    }
    trapped := AnySourceHasEnvironment(g, service.value);
  }

  method CheckEntry(g: Graph, content: seq<Id>, i: nat, failures: seq<string>) returns (r: seq<string>)
    requires i + 1 < |content|
    ensures r + TrappedNames(g, content[i + 2..]) == failures + TrappedNames(g, content[i..])
  {
    assert content[i..][2..] == content[i + 2..];
    var trapped := CheckService(g, content[i + 1]);
    r := if trapped then failures + [Value(g, content[i])] else failures;
  }

  lemma NothingDeclared(g: Graph, root: Id, services: Option<Id>)
    requires services.None? <==> !(IsMapping(g, root) && exists i: nat :: KeyAt(g, g[root].content, i, "services"))
    requires services.Some? ==> FirstUnder(g, root, "services", services.value) && !IsMapping(g, services.value)
    ensures forall name, entry :: !Declares(g, root, name, entry)
  {
    forall name, entry ensures !Declares(g, root, name, entry) {
      if Declares(g, root, name, entry) {
        var v :| FirstUnder(g, root, "services", v) && v in g && g[v].kind == MappingKind;
        var j: nat :| Writes(g, root, j, "services", v);
        assert KeyAt(g, g[root].content, j, "services");
        OneFirst(g, root, v, services.value);
      }
    }
  }

  lemma OneFirst(g: Graph, root: Id, v: Id, w: Id)
    requires FirstUnder(g, root, "services", v) && FirstUnder(g, root, "services", w)
    ensures v == w
  {
    var j: nat :| Writes(g, root, j, "services", v) && forall k: nat, x :: Writes(g, root, k, "services", x) ==> j <= k;
    var i: nat :| Writes(g, root, i, "services", w) && forall k: nat, x :: Writes(g, root, k, "services", x) ==> i <= k;
    assert i == j;
  }

  lemma DeclaredAreListed(g: Graph, root: Id, services: Id)
    requires FirstUnder(g, root, "services", services) && IsMapping(g, services)
    ensures forall name, entry :: Declares(g, root, name, entry) <==> Lists(g, g[services].content, name, entry)
  {
    forall name, entry ensures Declares(g, root, name, entry) <==> Lists(g, g[services].content, name, entry) {
      if Declares(g, root, name, entry) {
        var v :| FirstUnder(g, root, "services", v) && v in g && Lists(g, g[v].content, name, entry);
        OneFirst(g, root, v, services);
      }
    }
  }

  /** Reports exactly the services with an environment of their own that take
      another one along a chain of merges, in the order of the document. */
  method CheckShallowMergeTrap(g: Graph, root: Id) returns (failures: seq<string>)
    ensures failures == TrappedNames(g, Services(g, root))
    ensures forall name :: name in failures <==>
              exists entry, chain :: Declares(g, root, name, entry) && Shadows(g, entry, chain)
  {
    failures := [];
    var services := MappingValue(g, root, "services");
    if services.Some? { FirstIsServices(g, root, services.value); }
    if services.None? || !IsMapping(g, services.value) {
      NothingDeclared(g, root, services);
      return;
    }
    var content := g[services.value].content;
    DeclaredAreListed(g, root, services.value);
    forall name ensures name in TrappedNames(g, content) <==>
                          exists entry, chain :: Declares(g, root, name, entry) && Shadows(g, entry, chain)
    {
      NamesAreShadowing(g, content, name);
    }
    var i := 0;
    while i + 1 < |content|
      invariant 0 <= i <= |content|
      invariant failures + TrappedNames(g, content[i..]) == TrappedNames(g, content)
    {
      failures := CheckEntry(g, content, i, failures);
      i := i + 2;
    }
  }

  // ---- Inner calls may be partial

  lemma ResolveMapping(g: Graph, n: Id, visited: set<Id>)
    requires IsMapping(g, n) && n !in visited
    ensures var inner := ResolveAll(g, Sources(g, n), visited + {n});
            Resolve(g, n, visited) == Walked(inner.keys + OwnKeys(g, n), inner.visited)
  {}

  lemma ResolveThroughAlias(g: Graph, n: Id, m: Id, visited: set<Id>)
    requires ResolveAlias(g, n) == Some(m) && IsMapping(g, m)
    ensures ResolveAll(g, [n], visited) == Resolve(g, m, visited)
  {
    var first := Resolve(g, n, visited);
    assert [n][1..] == [];
    assert ResolveAll(g, [], first.visited) == Walked({}, first.visited);
  }

  /** `n` merges just `m`, through an alias. */
  ghost predicate MergesOnly(g: Graph, n: Id, m: Id) {
    && IsMapping(g, n) && IsMapping(g, m) && n != m
    && |Sources(g, n)| == 1 && ResolveAlias(g, Sources(g, n)[0]) == Some(m)
  }

  /** The call on `m` inside the walk from `n`, which `m` merges back. */
  lemma CallInsideCycle(g: Graph, n: Id, m: Id)
    requires MergesOnly(g, n, m) && MergesOnly(g, m, n)
    ensures Resolve(g, m, {n}) == Walked(OwnKeys(g, m), {n, m})
  {
    var back := Sources(g, m)[0];
    assert Sources(g, m) == [back];
    ResolveMapping(g, m, {n});
    ResolveThroughAlias(g, back, n, {n, m});
    assert {n} + {m} == {n, m};
  }

  lemma CallOnCycle(g: Graph, n: Id, m: Id)
    requires MergesOnly(g, n, m) && MergesOnly(g, m, n)
    ensures Resolve(g, n, {}).keys == OwnKeys(g, m) + OwnKeys(g, n)
  {
    var source := Sources(g, n)[0];
    assert Sources(g, n) == [source];
    ResolveMapping(g, n, {});
    ResolveThroughAlias(g, source, m, {n});
    CallInsideCycle(g, n, m);
    assert {} + {n} == {n};
  }

  /** When two mappings merge each other, the call on the second inside the walk
      from the first returns its own keys alone. Asked directly it returns both
      mappings' keys, and so does the walk it was part of. */
  lemma InnerCallsArePartial(g: Graph, n: Id, m: Id)
    requires MergesOnly(g, n, m) && MergesOnly(g, m, n)
    ensures Resolve(g, m, {n}).keys == OwnKeys(g, m)
    ensures Resolve(g, m, {}).keys == OwnKeys(g, n) + OwnKeys(g, m) == Resolve(g, n, {}).keys
  {
    CallInsideCycle(g, n, m);
    CallOnCycle(g, n, m);
    CallOnCycle(g, m, n);
  }
}
