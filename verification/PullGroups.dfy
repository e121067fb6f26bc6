/**
 * Union-find over all report pairs and the split of conflicting chains
 * (`groupRealPulls`), the ranking of copies and the staleness check.
 */
module PullGroups {
  import opened Prelude
  import opened Sorting
  import opened PullMatching

  type Edge = (Id, Id)

  // ---------------------------------------------------------------------
  // Connectedness
  // ---------------------------------------------------------------------

  predicate HasEdge(edges: seq<Edge>, a: Id, b: Id) {
    (a, b) in edges || (b, a) in edges
  }

  ghost predicate IsPath(edges: seq<Edge>, path: seq<Id>) {
    path != [] && forall i :: 0 <= i < |path| - 1 ==> HasEdge(edges, path[i], path[i + 1])
  }

  ghost predicate Joins(edges: seq<Edge>, path: seq<Id>, a: Id, b: Id) {
    IsPath(edges, path) && path[0] == a && path[|path| - 1] == b
  }

  /** `a` and `b` are in one connected component of the matched pairs. */
  ghost predicate Linked(edges: seq<Edge>, a: Id, b: Id) {
    exists path :: Joins(edges, path, a, b)
  }

  lemma LinkedSelf(edges: seq<Edge>, a: Id)
    ensures Linked(edges, a, a)
  {
    assert Joins(edges, [a], a, a);
  }

  lemma LinkedTrans(edges: seq<Edge>, a: Id, b: Id, c: Id)
    requires Linked(edges, a, b) && Linked(edges, b, c)
    ensures Linked(edges, a, c)
  {
    var p :| Joins(edges, p, a, b);
    var q :| Joins(edges, q, b, c);
    var path := p + q[1..];
    forall i | 0 <= i < |path| - 1 ensures HasEdge(edges, path[i], path[i + 1]) {
      if i < |p| - 1 {
        assert HasEdge(edges, p[i], p[i + 1]);
      } else {
        assert HasEdge(edges, q[i - (|p| - 1)], q[i + 1 - (|p| - 1)]);
      }
    }
    assert path[|path| - 1] == c;
    assert Joins(edges, path, a, c);
  }

  lemma {:induction false} LinkedSymPath(edges: seq<Edge>, path: seq<Id>)
    requires IsPath(edges, path)
    ensures Linked(edges, path[|path| - 1], path[0])
  {
    var n := |path| - 1;
    if n == 0 {
      LinkedSelf(edges, path[0]);
    } else {
      LinkedSymPath(edges, path[..n]);
      assert HasEdge(edges, path[n - 1], path[n]);
      assert Joins(edges, [path[n], path[n - 1]], path[n], path[n - 1]);
      LinkedTrans(edges, path[n], path[n - 1], path[0]);
    }
  }

  lemma LinkedSym(edges: seq<Edge>, a: Id, b: Id)
    requires Linked(edges, a, b)
    ensures Linked(edges, b, a)
  {
    var path :| Joins(edges, path, a, b);
    LinkedSymPath(edges, path);
  }

  lemma LinkedMore(edges: seq<Edge>, more: seq<Edge>, a: Id, b: Id)
    requires Linked(edges, a, b)
    ensures Linked(edges + more, a, b)
  {
    var path :| Joins(edges, path, a, b);
    forall i | 0 <= i < |path| - 1 ensures HasEdge(edges + more, path[i], path[i + 1]) {
      assert HasEdge(edges, path[i], path[i + 1]);
    }
    assert Joins(edges + more, path, a, b);
  }

  // ---------------------------------------------------------------------
  // Union-find
  // ---------------------------------------------------------------------

  type Parents = map<Id, Id>

  /** One key of the forest: its link leads towards its root, one step nearer. */
  ghost predicate NodeOk(parent: Parents, root: map<Id, Id>, depth: map<Id, nat>, k: Id)
    requires k in parent && parent.Keys == root.Keys == depth.Keys
  {
    var p, r := parent[k], root[k];
    && p in parent && r in parent
    && root[p] == r && root[r] == r && parent[r] == r
    && (if p == k then r == k && depth[k] == 0 else r != k && depth[p] < depth[k])
  }

  /**
   * `root` assigns every key its representative and `depth` its distance from
   * it: the parent map is acyclic and every key leads to its root.
   */
  ghost predicate Forest(parent: Parents, root: map<Id, Id>, depth: map<Id, nat>) {
    && parent.Keys == root.Keys == depth.Keys
    && forall k {:trigger NodeOk(parent, root, depth, k)} :: k in parent ==> NodeOk(parent, root, depth, k)
  }

  /** The representatives are exactly the components of the edges joined so far. */
  ghost predicate Represents(root: map<Id, Id>, edges: seq<Edge>) {
    && (forall k {:trigger Linked(edges, k, root[k])} :: k in root ==> Linked(edges, k, root[k]))
    && (forall e :: e in edges ==> e.0 in root && e.1 in root && root[e.0] == root[e.1])
  }

  /** The `parent` map and its two operations. */
  class PullForest {
    var parent: Parents
    ghost var root: map<Id, Id>
    ghost var depth: map<Id, nat>

    ghost predicate Valid()
      reads this
    {
      Forest(parent, root, depth)
    }

    /** Every key starts as its own root. */
    constructor (keys: set<Id>)
      ensures Valid() && root == map k | k in keys :: k
    {
      parent := map k | k in keys :: k;
      root := map k | k in keys :: k;
      depth := map k | k in keys :: 0;
    }

    /** The root of `key`; its parent link is shortened to the root. */
    method Find(key: Id) returns (r: Id)
      requires Valid() && key in parent
      modifies this`parent
      ensures Valid() && key in root && r == root[key] && r in parent && parent[r] == r
      ensures parent.Keys == old(parent.Keys)
    {
      r := key;
      assert NodeOk(parent, root, depth, key);
      while parent[r] != r
        invariant r in parent && root[r] == root[key] && parent == old(parent)
        decreases depth[r]
      {
        assert NodeOk(parent, root, depth, r);
        r := parent[r];
      }
      assert NodeOk(parent, root, depth, r);
      Compressed(parent, root, depth, key);
      parent := parent[key := r];
    }

    /** Joins the components of two keys. */
    method Union(x: Id, y: Id)
      requires Valid() && x in parent && y in parent
      modifies this
      ensures Valid() && parent.Keys == old(parent.Keys)
      ensures root == Merged(old(root), old(root)[x], old(root)[y])
    {
      var rx := Find(x);
      var ry := Find(y);
      assert NodeOk(parent, root, depth, rx) && NodeOk(parent, root, depth, ry);
      assert NodeOk(parent, root, depth, x) && NodeOk(parent, root, depth, y);
      if rx != ry {
        LinkedUp(parent, root, depth, rx, ry);
        depth := map k | k in depth :: if root[k] == rx then depth[k] + 1 else depth[k];
      } else {
        assert Merged(root, rx, ry) == root && parent[rx := ry] == parent;
      }
      root := Merged(root, rx, ry);
      parent := parent[rx := ry];
    }
  }

  ghost function Merged(root: map<Id, Id>, rx: Id, ry: Id): (merged: map<Id, Id>)
    ensures merged.Keys == root.Keys
  {
    map k | k in root :: if root[k] == rx then ry else root[k]
  }

  lemma Compressed(parent: Parents, root: map<Id, Id>, depth: map<Id, nat>, key: Id)
    requires Forest(parent, root, depth) && key in parent
    ensures Forest(parent[key := root[key]], root, depth)
  {
    var parent' := parent[key := root[key]];
    assert parent'.Keys == parent.Keys;
    forall k | k in parent' ensures NodeOk(parent', root, depth, k) {
      assert NodeOk(parent, root, depth, k);
      assert NodeOk(parent, root, depth, root[k]);
    }
  }

  lemma LinkedUp(parent: Parents, root: map<Id, Id>, depth: map<Id, nat>, rx: Id, ry: Id)
    requires Forest(parent, root, depth) && rx != ry
    requires rx in parent && ry in parent && root[rx] == rx && root[ry] == ry && parent[ry] == ry
    ensures Forest(parent[rx := ry], Merged(root, rx, ry),
                   map k | k in depth :: if root[k] == rx then depth[k] + 1 else depth[k])
  {
    var parent', root' := parent[rx := ry], Merged(root, rx, ry);
    var depth' := map k | k in depth :: if root[k] == rx then depth[k] + 1 else depth[k];
    assert parent'.Keys == parent.Keys && depth'.Keys == depth.Keys;
    forall k | k in parent' ensures NodeOk(parent', root', depth', k) {
      assert NodeOk(parent, root, depth, k);
      assert NodeOk(parent, root, depth, rx);
      assert NodeOk(parent, root, depth, ry);
    }
  }

  // ---------------------------------------------------------------------
  // The representatives track the components
  // ---------------------------------------------------------------------

  lemma MergedLink(root: map<Id, Id>, edges: seq<Edge>, x: Id, y: Id, k: Id)
    requires Represents(root, edges) && x in root && y in root && k in root
    ensures Linked(edges + [(x, y)], k, Merged(root, root[x], root[y])[k])
  {
    var edges' := edges + [(x, y)];
    assert Linked(edges, k, root[k]) && Linked(edges, x, root[x]) && Linked(edges, y, root[y]);
    LinkedMore(edges, [(x, y)], k, root[k]);
    if root[k] == root[x] {
      LinkedMore(edges, [(x, y)], x, root[x]);
      LinkedSym(edges', x, root[x]);
      assert Joins(edges', [x, y], x, y);
      LinkedMore(edges, [(x, y)], y, root[y]);
      LinkedTrans(edges', k, root[x], x);
      LinkedTrans(edges', k, x, y);
      LinkedTrans(edges', k, y, root[y]);
    }
  }

  lemma MergedRepresents(root: map<Id, Id>, edges: seq<Edge>, x: Id, y: Id)
    requires Represents(root, edges) && x in root && y in root
    ensures Represents(Merged(root, root[x], root[y]), edges + [(x, y)])
  {
    var edges', merged := edges + [(x, y)], Merged(root, root[x], root[y]);
    forall k | k in merged ensures Linked(edges', k, merged[k]) {
      MergedLink(root, edges, x, y, k);
    }
    forall e | e in edges' ensures e.0 in merged && e.1 in merged && merged[e.0] == merged[e.1] {
      assert e in edges || e == (x, y);
    }
  }

  lemma {:induction false} PathSharesRoot(root: map<Id, Id>, edges: seq<Edge>, path: seq<Id>)
    requires Represents(root, edges) && IsPath(edges, path) && path[0] in root
    ensures path[|path| - 1] in root && root[path[|path| - 1]] == root[path[0]]
  {
    var n := |path| - 1;
    if n > 0 {
      PathSharesRoot(root, edges, path[..n]);
      assert HasEdge(edges, path[n - 1], path[n]);
    }
  }

  /** Two keys have the same representative exactly when they are linked. */
  lemma SameRootIffLinked(root: map<Id, Id>, edges: seq<Edge>, a: Id, b: Id)
    requires Represents(root, edges) && a in root && b in root
    ensures root[a] == root[b] <==> Linked(edges, a, b)
  {
    if root[a] == root[b] {
      assert Linked(edges, a, root[a]) && Linked(edges, b, root[b]);
      LinkedSym(edges, b, root[b]);
      LinkedTrans(edges, a, root[a], b);
    }
    if Linked(edges, a, b) {
      var path :| Joins(edges, path, a, b);
      PathSharesRoot(root, edges, path);
    }
  }

  // ---------------------------------------------------------------------
  // Joining all report pairs
  // ---------------------------------------------------------------------

  function FightsOf(fights: seq<Fight>, code: Id): (of: seq<Fight>)
    ensures forall f :: f in of <==> f in fights && f.reportCode == code
  {
    if fights == [] then []
    else
      var n := |fights| - 1;
      FightsOf(fights[..n], code) + if fights[n].reportCode == code then [fights[n]] else []
  }

  predicate IdLe(a: Id, b: Id) {
    a.rank <= b.rank
  }

  /** The report codes in sorted order, each once, and the fights of each. */
  method ByReport(fights: seq<Fight>) returns (codes: seq<Id>, byReport: map<Id, seq<Fight>>)
    ensures Distinct(codes) && Sorted(codes, IdLe)
    ensures forall c :: c in codes ==> c in byReport && byReport[c] == FightsOf(fights, c)
    ensures forall f :: f in fights ==> f.reportCode in codes
  {
    codes, byReport := [], map[];
    for i := 0 to |fights|
      invariant Distinct(codes)
      invariant forall c :: c in codes <==> c in byReport
      invariant forall c :: c in byReport ==> byReport[c] == FightsOf(fights[..i], c)
      invariant forall c :: c !in byReport ==> FightsOf(fights[..i], c) == []
    {
      var f := fights[i];
      assert fights[..i + 1][..i] == fights[..i];
      if f.reportCode in byReport {
        byReport := byReport[f.reportCode := byReport[f.reportCode] + [f]];
      } else {
        codes, byReport := codes + [f.reportCode], byReport[f.reportCode := [f]];
      }
    }
    assert fights[..|fights|] == fights;
    forall f | f in fights ensures f.reportCode in codes {
      assert f in FightsOf(fights, f.reportCode);
    }
    ghost var inserted := codes;
    codes := SortBy(codes, IdLe);
    SortPermutes(inserted, IdLe);
    DistinctPermutes(inserted, codes);
    CodeOrderTotal();
    SortSorts(inserted, IdLe);
  }

  lemma CodeOrderTotal()
    ensures TotalPreorder(IdLe)
  {
  }

  lemma DistinctPermutes(s: seq<Id>, t: seq<Id>)
    requires Distinct(s) && multiset(s) == multiset(t)
    ensures Distinct(t)
  {
    forall i, j | 0 <= i < j < |t| ensures t[i] != t[j] {
      if t[i] == t[j] {
        TwiceInMultiset(t, i, j);
        DistinctOnce(s, t[i]);
      }
    }
  }

  lemma TwiceInMultiset(t: seq<Id>, i: nat, j: nat)
    requires i < j < |t| && t[i] == t[j]
    ensures multiset(t)[t[i]] >= 2
  {
    assert t == t[..j] + [t[j]] + t[j + 1..];
    assert t[i] in t[..j];
  }

  lemma {:induction false} DistinctOnce(s: seq<Id>, x: Id)
    requires Distinct(s)
    ensures multiset(s)[x] <= 1
  {
    if s != [] {
      var n := |s| - 1;
      assert s == s[..n] + [s[n]];
      DistinctOnce(s[..n], x);
      if s[n] == x {
        assert x !in s[..n];
      }
    }
  }

  /** `m` is matched between the reports `a` and `b`, taken in code order. */
  predicate Matched(fights: seq<Fight>, a: Id, b: Id, m: Pair) {
    a.rank < b.rank && m in MatchReport(FightsOf(fights, a), FightsOf(fights, b))
  }

  ghost predicate EdgeOk(fights: seq<Fight>, e: Edge) {
    exists a, b, m :: Matched(fights, a, b, m) && e == (m.x.key, m.y.key)
  }

  /** The edges are pairs matched between two reports. */
  ghost predicate EdgesOk(fights: seq<Fight>, edges: seq<Edge>) {
    forall e :: e in edges ==> EdgeOk(fights, e)
  }

  /** Every pair matched between two reports is an edge. */
  ghost predicate EdgesComplete(fights: seq<Fight>, edges: seq<Edge>) {
    forall a, b, m :: Matched(fights, a, b, m) ==> (m.x.key, m.y.key) in edges
  }

  ghost predicate Joined(fights: seq<Fight>, a: Id, b: Id, edges: seq<Edge>) {
    forall m :: m in MatchReport(FightsOf(fights, a), FightsOf(fights, b)) ==> (m.x.key, m.y.key) in edges
  }

  function KeysOf(fights: seq<Fight>): set<Id> {
    set f | f in fights :: f.key
  }

  /** Joins every matched pair of two reports' fights. */
  method JoinMatches(forest: PullForest, fights: seq<Fight>, ghost a: Id, xs: seq<Fight>, ghost b: Id, ys: seq<Fight>,
                     ghost edges: seq<Edge>)
    returns (ghost edges': seq<Edge>)
    requires forest.Valid() && forest.parent.Keys == KeysOf(fights) && Represents(forest.root, edges)
    requires a.rank < b.rank && xs == FightsOf(fights, a) && ys == FightsOf(fights, b) && EdgesOk(fights, edges)
    modifies forest
    ensures forest.Valid() && forest.parent.Keys == KeysOf(fights) && Represents(forest.root, edges')
    ensures EdgesOk(fights, edges') && edges <= edges'
    ensures Joined(fights, a, b, edges')
  {
    hide MatchReport, Represents, EdgesOk, OneToOne, MatchesAround;
    var matches := MatchReportPair(xs, ys);
    edges' := edges;
    for k := 0 to |matches|
      invariant forest.Valid() && forest.parent.Keys == KeysOf(fights) && Represents(forest.root, edges')
      invariant EdgesOk(fights, edges') && edges <= edges'
      invariant forall i :: 0 <= i < k ==> (matches[i].x.key, matches[i].y.key) in edges'
    {
      var m := matches[k];
      assert m in matches && Matched(fights, a, b, m);
      MatchedKeys(fights, a, b, m);
      MergedRepresents(forest.root, edges', m.x.key, m.y.key);
      forest.Union(m.x.key, m.y.key);
      EdgesOkMore(fights, edges', a, b, m);
      edges' := edges' + [(m.x.key, m.y.key)];
    }
  }

  lemma MatchedKeys(fights: seq<Fight>, a: Id, b: Id, m: Pair)
    requires Matched(fights, a, b, m)
    ensures m.x.key in KeysOf(fights) && m.y.key in KeysOf(fights)
  {
    MatchedFights(fights, a, b, m);
    hide Matched;
  }

  lemma EdgesOkMore(fights: seq<Fight>, edges: seq<Edge>, a: Id, b: Id, m: Pair)
    requires EdgesOk(fights, edges) && Matched(fights, a, b, m)
    ensures EdgesOk(fights, edges + [(m.x.key, m.y.key)])
  {
    hide MatchReport;
    assert EdgeOk(fights, (m.x.key, m.y.key));
    forall e | e in edges + [(m.x.key, m.y.key)] ensures EdgeOk(fights, e) {
      assert e in edges || e == (m.x.key, m.y.key);
    }
  }

  lemma JoinedMore(fights: seq<Fight>, a: Id, b: Id, edges: seq<Edge>, edges': seq<Edge>)
    requires Joined(fights, a, b, edges) && edges <= edges'
    ensures Joined(fights, a, b, edges')
  {
  }

  /** The report pairs looked at before column `j` of row `i` are joined. */
  ghost predicate JoinedBefore(fights: seq<Fight>, codes: seq<Id>, i: nat, j: nat, edges: seq<Edge>) {
    forall p, q :: 0 <= p < q < |codes| && (p < i || (p == i && q < j)) ==>
      Joined(fights, codes[p], codes[q], edges)
  }

  lemma JoinedNext(fights: seq<Fight>, codes: seq<Id>, i: nat, j: nat, edges: seq<Edge>, edges': seq<Edge>)
    requires i < j < |codes| && JoinedBefore(fights, codes, i, j, edges) && edges <= edges'
    requires Joined(fights, codes[i], codes[j], edges')
    ensures JoinedBefore(fights, codes, i, j + 1, edges')
  {
    hide MatchReport, Joined;
    forall p, q | 0 <= p < q < |codes| && (p < i || (p == i && q < j + 1))
      ensures Joined(fights, codes[p], codes[q], edges')
    {
      if p < i || q < j {
        JoinedMore(fights, codes[p], codes[q], edges, edges');
      }
    }
  }

  lemma AllJoined(fights: seq<Fight>, codes: seq<Id>, edges: seq<Edge>)
    requires Sorted(codes, IdLe) && (forall f :: f in fights ==> f.reportCode in codes)
    requires JoinedBefore(fights, codes, |codes|, 0, edges)
    ensures EdgesComplete(fights, edges)
  {
    hide MatchReport;
    forall a, b, m | Matched(fights, a, b, m) ensures (m.x.key, m.y.key) in edges {
      MatchedFights(fights, a, b, m);
      var p :| 0 <= p < |codes| && codes[p] == a;
      var q :| 0 <= q < |codes| && codes[q] == b;
      assert q < p ==> IdLe(codes[q], codes[p]);
      assert Joined(fights, codes[p], codes[q], edges);
    }
  }

  lemma MatchedFights(fights: seq<Fight>, a: Id, b: Id, m: Pair)
    requires Matched(fights, a, b, m)
    ensures m.x in fights && m.y in fights && m.x.reportCode == a && m.y.reportCode == b && IsCandidate(m)
  {
    MatchReportIn(FightsOf(fights, a), FightsOf(fights, b), m);
  }

  /** Runs every pair of reports through the matching. */
  method JoinReports(forest: PullForest, fights: seq<Fight>) returns (ghost edges: seq<Edge>)
    requires forest.Valid() && forest.parent.Keys == KeysOf(fights) && Represents(forest.root, [])
    modifies forest
    ensures forest.Valid() && forest.parent.Keys == KeysOf(fights) && Represents(forest.root, edges)
    ensures EdgesOk(fights, edges) && EdgesComplete(fights, edges)
  {
    hide MatchReport, Joined, EdgesComplete;
    var codes, byReport := ByReport(fights);
    edges := [];
    for i := 0 to |codes|
      invariant forest.Valid() && forest.parent.Keys == KeysOf(fights) && Represents(forest.root, edges)
      invariant EdgesOk(fights, edges) && JoinedBefore(fights, codes, i, i + 1, edges)
    {
      for j := i + 1 to |codes|
        invariant forest.Valid() && forest.parent.Keys == KeysOf(fights) && Represents(forest.root, edges)
        invariant EdgesOk(fights, edges) && JoinedBefore(fights, codes, i, j, edges)
      {
        InOrder(codes, i, j);
        ghost var was := edges;
        edges := JoinMatches(forest, fights, codes[i], byReport[codes[i]], codes[j], byReport[codes[j]], edges);
        JoinedNext(fights, codes, i, j, was, edges);
      }
    }
    AllJoined(fights, codes, edges);
  }

  lemma InOrder(codes: seq<Id>, i: nat, j: nat)
    requires Distinct(codes) && Sorted(codes, IdLe) && i < j < |codes|
    ensures codes[i].rank < codes[j].rank
  {
    assert IdLe(codes[i], codes[j]) && codes[i] != codes[j];
    assert codes[i] == Id(codes[i].rank) && codes[j] == Id(codes[j].rank);
  }

  // ---------------------------------------------------------------------
  // Groups
  // ---------------------------------------------------------------------

  function MembersOf(fights: seq<Fight>, root: map<Id, Id>, r: Id): (members: seq<Fight>)
    requires forall f :: f in fights ==> f.key in root
    ensures forall f :: f in members <==> f in fights && root[f.key] == r
  {
    if fights == [] then []
    else
      var n := |fights| - 1;
      MembersOf(fights[..n], root, r) + if root[fights[n].key] == r then [fights[n]] else []
  }

  function Flatten(groups: seq<seq<Fight>>): seq<Fight> {
    if groups == [] then [] else groups[0] + Flatten(groups[1..])
  }

  lemma {:induction false} FlattenAppend(groups: seq<seq<Fight>>, g: seq<Fight>)
    ensures Flatten(groups + [g]) == Flatten(groups) + g
  {
    if groups == [] {
      assert Flatten([g]) == g;
    } else {
      assert (groups + [g])[1..] == groups[1..] + [g];
      FlattenAppend(groups[1..], g);
    }
  }

  lemma {:induction false} FlattenExtend(groups: seq<seq<Fight>>, i: nat, f: Fight)
    requires i < |groups|
    ensures multiset(Flatten(groups[i := groups[i] + [f]])) == multiset(Flatten(groups)) + multiset{f}
  {
    if i == 0 {
      assert groups[0 := groups[0] + [f]][1..] == groups[1..];
    } else {
      assert groups[i := groups[i] + [f]][1..] == groups[1..][i - 1 := groups[i] + [f]];
      FlattenExtend(groups[1..], i - 1, f);
    }
  }

  /** The groups of the fights seen so far: one per root, in order of first appearance. */
  ghost predicate Grouped(fights: seq<Fight>, root: map<Id, Id>, roots: seq<Id>, groups: seq<seq<Fight>>)
    requires forall f :: f in fights ==> f.key in root
  {
    && |roots| == |groups| && Distinct(roots)
    && (forall g :: 0 <= g < |groups| ==> groups[g] != [] && groups[g] == MembersOf(fights, root, roots[g]))
    && (forall f :: f in fights ==> root[f.key] in roots)
    && multiset(Flatten(groups)) == multiset(fights)
  }

  lemma GroupedOld(fights: seq<Fight>, f: Fight, root: map<Id, Id>, roots: seq<Id>, groups: seq<seq<Fight>>, g: nat)
    requires forall x :: x in fights + [f] ==> x.key in root
    requires (forall x :: x in fights ==> x in fights + [f]) && Grouped(fights, root, roots, groups)
    requires g < |roots| && roots[g] == root[f.key]
    ensures Grouped(fights + [f], root, roots, groups[g := groups[g] + [f]])
  {
    hide Distinct, MembersOf, Flatten;
    MembersMore(fights, f, root);
    FlattenExtend(groups, g, f);
    forall h | 0 <= h < |groups| && h != g ensures roots[h] != root[f.key] {
      DistinctAt(roots, g, h);
    }
  }

  lemma DistinctAt(s: seq<Id>, i: nat, j: nat)
    requires Distinct(s) && i < |s| && j < |s| && i != j
    ensures s[i] != s[j]
  {
  }

  /** One more fight joins the members of its own root only. */
  lemma MembersMore(fights: seq<Fight>, f: Fight, root: map<Id, Id>)
    requires forall x :: x in fights + [f] ==> x.key in root
    requires forall x :: x in fights ==> x in fights + [f]
    ensures forall r :: MembersOf(fights + [f], root, r)
                        == MembersOf(fights, root, r) + if root[f.key] == r then [f] else []
  {
    assert (fights + [f])[..|fights|] == fights;
  }

  lemma GroupedNew(fights: seq<Fight>, f: Fight, root: map<Id, Id>, roots: seq<Id>, groups: seq<seq<Fight>>)
    requires forall x :: x in fights + [f] ==> x.key in root
    requires (forall x :: x in fights ==> x in fights + [f]) && Grouped(fights, root, roots, groups)
    requires root[f.key] !in roots
    ensures Grouped(fights + [f], root, roots + [root[f.key]], groups + [[f]])
  {
    hide MembersOf, Flatten, Distinct;
    MembersMore(fights, f, root);
    FlattenAppend(groups, [f]);
    NoMembers(fights, root, root[f.key]);
    RootAdded(roots, root[f.key]);
  }

  lemma RootAdded(roots: seq<Id>, r: Id)
    requires Distinct(roots) && r !in roots
    ensures Distinct(roots + [r])
  {
  }

  lemma {:induction false} NoMembers(fights: seq<Fight>, root: map<Id, Id>, r: Id)
    requires forall x :: x in fights ==> x.key in root && root[x.key] != r
    ensures MembersOf(fights, root, r) == []
  {
    if fights != [] {
      NoMembers(fights[..|fights| - 1], root, r);
    }
  }

  method IndexOf(roots: seq<Id>, r: Id) returns (i: nat)
    ensures i <= |roots| && (i < |roots| ==> roots[i] == r) && (i == |roots| ==> r !in roots)
  {
    i := 0;
    while i < |roots| && roots[i] != r
      invariant i <= |roots| && forall k :: 0 <= k < i ==> roots[k] != r
    {
      i := i + 1;
    }
  }

  lemma GroupedLength(fights: seq<Fight>, root: map<Id, Id>, roots: seq<Id>, groups: seq<seq<Fight>>)
    requires (forall f :: f in fights ==> f.key in root) && Grouped(fights, root, roots, groups)
    ensures |roots| == |groups|
  {
  }

  lemma NothingGrouped(root: map<Id, Id>)
    ensures Grouped([], root, [], [])
  {
  }

  lemma KeysCovered(forest: PullForest, fights: seq<Fight>)
    requires forest.Valid() && forest.parent.Keys == KeysOf(fights)
    ensures forall f :: f in fights ==> f.key in forest.root && f.key in forest.parent
  {
    forall f | f in fights ensures f.key in forest.root && f.key in forest.parent {
      assert f.key in KeysOf(fights);
    }
  }

  method GroupByRoot(forest: PullForest, fights: seq<Fight>) returns (roots: seq<Id>, groups: seq<seq<Fight>>)
    requires forest.Valid() && forest.parent.Keys == KeysOf(fights)
    modifies forest
    ensures forest.Valid() && forest.root == old(forest.root)
    ensures forall f :: f in fights ==> f.key in forest.root
    ensures Grouped(fights, forest.root, roots, groups)
  {
    hide Forest, Grouped;
    roots, groups := [], [];
    KeysCovered(forest, fights);
    NothingGrouped(forest.root);
    for i := 0 to |fights|
      invariant forest.Valid() && forest.root == old(forest.root)
      invariant forall f :: f in fights ==> f.key in forest.root && f.key in forest.parent
      invariant Grouped(fights[..i], forest.root, roots, groups)
    {
      var f := fights[i];
      assert fights[..i + 1] == fights[..i] + [f];
      assert f in fights;
      var r := forest.Find(f.key);
      var g := IndexOf(roots, r);
      GroupedLength(fights[..i], forest.root, roots, groups);
      if g < |roots| {
        GroupedOld(fights[..i], f, forest.root, roots, groups, g);
        groups := groups[g := groups[g] + [f]];
      } else {
        GroupedNew(fights[..i], f, forest.root, roots, groups);
        roots, groups := roots + [r], groups + [[f]];
      }
    }
    assert fights[..|fights|] == fights;
  }

  /** No report appears twice. */
  predicate DistinctReports(group: seq<Fight>) {
    forall i, j :: 0 <= i < j < |group| ==> group[i].reportCode != group[j].reportCode
  }

  function Singletons(group: seq<Fight>): (single: seq<seq<Fight>>)
    ensures Flatten(single) == group
    ensures forall g :: g in single ==> |g| == 1 && g[0] in group
  {
    if group == [] then [] else [[group[0]]] + Singletons(group[1..])
  }

  /** Some report contributes two fights to the component of `key`. */
  ghost predicate Conflicted(fights: seq<Fight>, edges: seq<Edge>, key: Id) {
    exists i, j :: 0 <= i < |fights| && 0 <= j < |fights| && i != j
                   && Linked(edges, key, fights[i].key) && Linked(edges, key, fights[j].key)
                   && fights[i].reportCode == fights[j].reportCode
  }

  /** A real pull: a whole conflict-free component, or a single fight of a conflicted one. */
  ghost predicate IsPull(fights: seq<Fight>, edges: seq<Edge>, g: seq<Fight>) {
    && g != [] && DistinctReports(g) && (forall f :: f in g ==> f in fights)
    && (|| (forall f :: f in fights ==> (f in g <==> Linked(edges, g[0].key, f.key)))
        || (|g| == 1 && Conflicted(fights, edges, g[0].key)))
  }

  lemma {:induction false} MemberPositions(fights: seq<Fight>, root: map<Id, Id>, r: Id, i: nat, j: nat)
    returns (p: nat, q: nat)
    requires forall f :: f in fights ==> f.key in root
    requires i < j < |MembersOf(fights, root, r)|
    ensures p < q < |fights| && fights[p] == MembersOf(fights, root, r)[i] && fights[q] == MembersOf(fights, root, r)[j]
  {
    var n := |fights| - 1;
    var rest := MembersOf(fights[..n], root, r);
    if j < |rest| {
      p, q := MemberPositions(fights[..n], root, r, i, j);
    } else {
      q := n;
      assert rest[i] in fights[..n];
      p :| 0 <= p < n && fights[..n][p] == rest[i];
    }
  }

  /** A component with a report twice is conflicted, whichever member one starts from. */
  lemma ConflictFound(fights: seq<Fight>, root: map<Id, Id>, edges: seq<Edge>, r: Id, key: Id)
    requires (forall f :: f in fights ==> f.key in root) && Represents(root, edges)
    requires key in root && root[key] == r
    requires !DistinctReports(MembersOf(fights, root, r))
    ensures Conflicted(fights, edges, key)
  {
    var members := MembersOf(fights, root, r);
    var i, j :| 0 <= i < j < |members| && members[i].reportCode == members[j].reportCode;
    var p, q := MemberPositions(fights, root, r, i, j);
    assert members[i] in members && members[j] in members;
    SameRootIffLinked(root, edges, key, members[i].key);
    SameRootIffLinked(root, edges, key, members[j].key);
    assert fights[p].reportCode == fights[q].reportCode;
  }

  lemma WholeComponent(fights: seq<Fight>, root: map<Id, Id>, edges: seq<Edge>, r: Id)
    requires (forall f :: f in fights ==> f.key in root) && Represents(root, edges)
    requires MembersOf(fights, root, r) != [] && DistinctReports(MembersOf(fights, root, r))
    ensures IsPull(fights, edges, MembersOf(fights, root, r))
  {
    var g := MembersOf(fights, root, r);
    assert g[0] in g;
    forall f | f in fights ensures f in g <==> Linked(edges, g[0].key, f.key) {
      SameRootIffLinked(root, edges, g[0].key, f.key);
    }
  }

  lemma GroupsAreMembers(fights: seq<Fight>, root: map<Id, Id>, roots: seq<Id>, groups: seq<seq<Fight>>)
    requires (forall f :: f in fights ==> f.key in root) && Grouped(fights, root, roots, groups)
    ensures |roots| == |groups| && multiset(Flatten(groups)) == multiset(fights)
    ensures forall g :: 0 <= g < |groups| ==> groups[g] != [] && groups[g] == MembersOf(fights, root, roots[g])
  {
  }

  /** Keeps conflict-free groups and splits the others. */
  method SplitConflicts(fights: seq<Fight>, ghost root: map<Id, Id>, ghost edges: seq<Edge>, ghost roots: seq<Id>,
                        groups: seq<seq<Fight>>)
    returns (result: seq<seq<Fight>>)
    requires (forall f :: f in fights ==> f.key in root) && Represents(root, edges)
    requires Grouped(fights, root, roots, groups)
    ensures forall g :: g in result ==> IsPull(fights, edges, g)
    ensures multiset(Flatten(result)) == multiset(fights)
  {
    hide Grouped, Represents, IsPull, MembersOf;
    GroupsAreMembers(fights, root, roots, groups);
    result := [];
    for i := 0 to |groups|
      invariant forall g :: g in result ==> IsPull(fights, edges, g)
      invariant multiset(Flatten(result)) == multiset(Flatten(groups[..i]))
    {
      var group := groups[i];
      assert groups[..i + 1] == groups[..i] + [group];
      FlattenAppend(groups[..i], group);
      if DistinctReports(group) {
        WholeComponent(fights, root, edges, roots[i]);
        FlattenAppend(result, group);
        result := result + [group];
      } else {
        SingletonsArePulls(fights, root, edges, roots[i]);
        FlattenConcat(result, Singletons(group));
        result := result + Singletons(group);
      }
    }
    assert groups[..|groups|] == groups;
  }

  lemma SingletonsArePulls(fights: seq<Fight>, root: map<Id, Id>, edges: seq<Edge>, r: Id)
    requires (forall f :: f in fights ==> f.key in root) && Represents(root, edges)
    requires !DistinctReports(MembersOf(fights, root, r))
    ensures forall g :: g in Singletons(MembersOf(fights, root, r)) ==> IsPull(fights, edges, g)
  {
    var group := MembersOf(fights, root, r);
    forall g: seq<Fight> | g in Singletons(group) ensures IsPull(fights, edges, g) {
      assert g[0] in group;
      ConflictFound(fights, root, edges, r, g[0].key);
    }
  }

  lemma {:induction false} FlattenConcat(s: seq<seq<Fight>>, t: seq<seq<Fight>>)
    ensures Flatten(s + t) == Flatten(s) + Flatten(t)
  {
    if s == [] {
      assert s + t == t;
    } else {
      assert (s + t)[1..] == s[1..] + t;
      FlattenConcat(s[1..], t);
    }
  }

  // ---------------------------------------------------------------------
  // Earliest first
  // ---------------------------------------------------------------------

  function Earliest(g: seq<Fight>): (t: int)
    ensures g != [] ==> exists f :: f in g && f.startAtMs == t
    ensures forall f :: f in g ==> t <= f.startAtMs
  {
    if g == [] then 0
    else if |g| == 1 then g[0].startAtMs
    else Min(g[0].startAtMs, Earliest(g[1..]))
  }

  predicate EarlierGroup(g: seq<Fight>, h: seq<Fight>) {
    Earliest(g) <= Earliest(h)
  }

  lemma {:induction false} FlattenInsert(x: seq<Fight>, s: seq<seq<Fight>>)
    ensures multiset(Flatten(Insert(x, s, EarlierGroup))) == multiset(x) + multiset(Flatten(s))
  {
    if s == [] || EarlierGroup(x, s[0]) {
      assert ([x] + s)[1..] == s;
    } else {
      FlattenInsert(x, s[1..]);
    }
  }

  lemma {:induction false} FlattenSort(s: seq<seq<Fight>>)
    ensures multiset(Flatten(SortBy(s, EarlierGroup))) == multiset(Flatten(s))
  {
    if s != [] {
      FlattenSort(s[1..]);
      FlattenInsert(s[0], SortBy(s[1..], EarlierGroup));
    }
  }

  lemma EarlierOrder()
    ensures TotalPreorder(EarlierGroup)
  {
  }

  /**
   * The real pulls of a Run: a partition of the report fights into whole
   * conflict-free components and single fights of conflicted ones, earliest first.
   */
  method GroupRealPulls(fights: seq<Fight>) returns (pulls: seq<seq<Fight>>, ghost edges: seq<Edge>)
    ensures multiset(Flatten(pulls)) == multiset(fights)
    ensures forall g :: g in pulls ==> IsPull(fights, edges, g)
    ensures EdgesOk(fights, edges) && EdgesComplete(fights, edges)
    ensures Sorted(pulls, EarlierGroup)
  {
    var forest := new PullForest(KeysOf(fights));
    forall k | k in forest.root ensures Linked([], k, forest.root[k]) {
      LinkedSelf([], k);
    }
    edges := JoinReports(forest, fights);
    var roots, groups := GroupByRoot(forest, fights);
    var split := SplitConflicts(fights, forest.root, edges, roots, groups);
    pulls := SortBy(split, EarlierGroup);
    FlattenSort(split);
    SortPermutes(split, EarlierGroup);
    EarlierOrder();
    SortSorts(split, EarlierGroup);
  }

  /** Two fights that are their reports' only candidate pair, with clocks closer than both are long. */
  ghost predicate LonePair(fights: seq<Fight>, p: Pair) {
    && p.x.reportCode.rank < p.y.reportCode.rank
    && Candidates(FightsOf(fights, p.x.reportCode), FightsOf(fights, p.y.reportCode)) == [p]
    && CloserThanLong(p)
  }

  /** Such a pair is linked, whatever the other reports hold. */
  lemma LonePairLinked(fights: seq<Fight>, edges: seq<Edge>, p: Pair)
    requires EdgesComplete(fights, edges) && LonePair(fights, p)
    ensures Linked(edges, p.x.key, p.y.key)
  {
    OnlyCandidate(FightsOf(fights, p.x.reportCode), FightsOf(fights, p.y.reportCode), p);
    assert Matched(fights, p.x.reportCode, p.y.reportCode, p);
    EdgeLinks(edges, p.x.key, p.y.key);
  }

  lemma EdgeLinks(edges: seq<Edge>, a: Id, b: Id)
    requires (a, b) in edges
    ensures Linked(edges, a, b)
  {
    var path := [a, b];
    assert HasEdge(edges, path[0], path[1]);
    assert Joins(edges, path, a, b);
  }

  /** So the two fights are one pull, counted once, unless their component holds a report twice. */
  lemma LonePairIsOnePull(fights: seq<Fight>, edges: seq<Edge>, pulls: seq<seq<Fight>>, p: Pair, g: seq<Fight>)
    requires EdgesComplete(fights, edges) && LonePair(fights, p)
    requires g in pulls && IsPull(fights, edges, g) && p.x in g && p.y in fights
    ensures p.y in g || Conflicted(fights, edges, p.x.key)
  {
    LonePairLinked(fights, edges, p);
    if !Conflicted(fights, edges, p.x.key) {
      if |g| == 1 && Conflicted(fights, edges, g[0].key) {
        assert false;
      }
      assert Linked(edges, g[0].key, p.x.key);
      LinkedTrans(edges, g[0].key, p.x.key, p.y.key);
    }
  }
}
