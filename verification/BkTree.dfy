/** The BK-tree of include/qs/bk_tree.hpp: nodes on the heap, children in skip lists, the
    traversal on an explicit vector stack. */
module BkTrees {
  import opened Distances
  import opened SkipLists
  import opened Vectors

  // ------------------------------------------------ the two metric spaces

  // The distance function a tree is built with, and the words it is used on: the engine keeps
  // one Hamming tree per word length (src/core.cpp:80-92).
  datatype Metric = EditMetric | HammingMetric(len: nat)

  predicate InSpace(m: Metric, w: string) {
    match m
    case EditMetric => |w| < EDIT_BUFFER_SIZE
    case HammingMetric(len) => |w| == len
  }

  function Dist(m: Metric, a: string, b: string): nat
    requires InSpace(m, a) && InSpace(m, b)
  {
    if m.EditMetric? then Lev(a, b) else Ham(a, b)
  }

  lemma DistIsMetric(m: Metric, a: string, b: string, c: string)
    requires InSpace(m, a) && InSpace(m, b) && InSpace(m, c)
    ensures Dist(m, a, b) == 0 <==> a == b
    ensures Dist(m, a, b) == Dist(m, b, a)
    ensures Dist(m, a, c) <= Dist(m, a, b) + Dist(m, b, c)
  {
    hide Lev, Ham;
    match m
    case EditMetric =>
      LevSelf(a);
      if Lev(a, b) == 0 { LevZero(a, b); }
      LevSymmetric(a, b);
      LevTriangle(a, b, c);
    case HammingMetric(_) =>
      HamMetric(a, b, c);
  }

  // (*dist_func)(a, b): within a tree the Hamming distance never meets two lengths.
  method Distance(m: Metric, a: string, b: string) returns (d: nat)
    requires InSpace(m, a) && InSpace(m, b)
    ensures d == Dist(m, a, b)
  {
    hide Lev, Ham;
    match m
    case EditMetric =>
      d := EditDistance(a, b);
    case HammingMetric(_) =>
      var r := HammingDistance(a, b);
      d := r.value;
  }

  // ------------------------------------------------ nodes and the shape of a tree

  // QS_BK_TREE_SKIP_LIST_LEVELS
  const SKIP_LIST_LEVELS := 4

  class BkNode<P> {
    const word: string
    var payload: P
    var distanceFromParent: nat
    const children: SkipList<BkNode<P>>

    constructor (word: string, payload: P)
      ensures this.word == word && this.payload == payload && distanceFromParent == 0
      ensures fresh(children) && fresh(children.nodes) && children.all == {}
      ensures children.Valid() && children.Contents() == []
    {
      this.word, this.payload, distanceFromParent := word, payload, 0;
      children := new SkipList<BkNode<P>>(SKIP_LIST_LEVELS);
    }
  }

  // The links of a tree without the heap: the path from the root to each node and the
  // labelled children of each node.
  datatype Shape<!P> = Shape(root: BkNode<P>, paths: map<BkNode<P>, seq<BkNode<P>>>,
                             kids: map<BkNode<P>, seq<(int, BkNode<P>)>>)

  // A node's path starts at the root, ends at the node and runs through its ancestors.
  ghost predicate PathOk<P>(sh: Shape<P>, n: BkNode<P>)
    requires n in sh.paths
  {
    var p := sh.paths[n];
    && p != [] && p[0] == sh.root && p[|p| - 1] == n
    && forall i {:trigger p[i]} :: 0 <= i < |p| ==> p[i] in sh.paths && sh.paths[p[i]] == p[..i + 1]
  }

  // Children are in ascending order of their labels, and a label is the distance to the parent.
  ghost predicate KidsOk<P>(m: Metric, sh: Shape<P>, n: BkNode<P>)
    requires n in sh.paths && n in sh.kids
  {
    && SortedPairs(sh.kids[n])
    && forall i {:trigger sh.kids[n][i]} :: 0 <= i < |sh.kids[n]| ==> KidOk(m, sh, n, sh.kids[n][i])
  }

  ghost predicate KidOk<P>(m: Metric, sh: Shape<P>, n: BkNode<P>, pr: (int, BkNode<P>))
    requires n in sh.paths
  {
    && pr.1 in sh.paths && sh.paths[pr.1] == sh.paths[n] + [pr.1]
    && InSpace(m, n.word) && InSpace(m, pr.1.word) && pr.0 == Dist(m, n.word, pr.1.word)
  }

  // Every node of the path but the last keeps the way towards the word `w` under the label
  // that is its distance to `w`.
  ghost predicate Routed<P>(m: Metric, sh: Shape<P>, p: seq<BkNode<P>>, w: string)
    requires InSpace(m, w)
  {
    forall i {:trigger p[i]} :: 0 <= i < |p| - 1 ==>
      p[i] in sh.kids && InSpace(m, p[i].word) && (Dist(m, p[i].word, w), p[i + 1]) in sh.kids[p[i]]
  }

  // The BK invariant: the nodes on the path to `n` route its word.  So every descendant of a
  // child labelled d is at distance d from the parent.
  ghost predicate LabelsOk<P>(m: Metric, sh: Shape<P>, n: BkNode<P>)
    requires n in sh.paths
  {
    InSpace(m, n.word) && Routed(m, sh, sh.paths[n], n.word)
  }

  ghost predicate ShapeOk<P>(m: Metric, sh: Shape<P>) {
    && sh.paths.Keys == sh.kids.Keys && sh.root in sh.paths && sh.paths[sh.root] == [sh.root]
    && (forall n {:trigger n in sh.paths} :: n in sh.paths ==> PathOk(sh, n) && KidsOk(m, sh, n) && LabelsOk(m, sh, n))
  }

  // What the invariant says of a tree: everything below a child is at the distance from the
  // parent that the child is filed under.
  lemma DescendantsAreAtLabel<P>(m: Metric, sh: Shape<P>, n: BkNode<P>, pr: (int, BkNode<P>), x: BkNode<P>)
    requires ShapeOk(m, sh) && n in sh.paths && pr in sh.kids[n]
    requires x in sh.paths && pr.1 in sh.paths[x]
    ensures InSpace(m, n.word) && InSpace(m, x.word) && Dist(m, n.word, x.word) == pr.0
  {
    hide Dist, InSpace, SortedPairs;
    assert KidsOk(m, sh, n) && PathOk(sh, n) && PathOk(sh, x) && LabelsOk(m, sh, x);
    KidsAreOk(m, sh, n, pr);
    hide PathOk, KidsOk;
    var j := JustAbove(sh, n, pr.1, x);
    assert (Dist(m, n.word, x.word), pr.1) in sh.kids[n] by { assert sh.paths[x][j - 1] == n; }
    hide ShapeOk, LabelsOk, Routed;
    KidsAreOk(m, sh, n, (Dist(m, n.word, x.word), pr.1));
  }

  // Right above a child on any path is its parent.
  lemma JustAbove<P>(sh: Shape<P>, n: BkNode<P>, c: BkNode<P>, x: BkNode<P>) returns (j: nat)
    requires n in sh.paths && x in sh.paths && c in sh.paths && sh.paths[c] == sh.paths[n] + [c]
    requires PathOk(sh, n) && PathOk(sh, x) && c in sh.paths[x]
    ensures 0 < j < |sh.paths[x]| && sh.paths[x][j] == c && sh.paths[x][j - 1] == n
  {
    var p, q := sh.paths[x], sh.paths[n];
    j :| 0 <= j < |p| && p[j] == c;
    assert p[..j + 1] == q + [c];
    assert q[|q| - 1] == n && |q| == j;
    assert p[j - 1] == p[..j + 1][j - 1];
  }

  lemma KidsAreOk<P>(m: Metric, sh: Shape<P>, n: BkNode<P>, pr: (int, BkNode<P>))
    requires n in sh.paths && n in sh.kids && KidsOk(m, sh, n) && pr in sh.kids[n]
    ensures KidOk(m, sh, n, pr)
  {
    var i :| 0 <= i < |sh.kids[n]| && sh.kids[n][i] == pr;
  }

  ghost function Single<P>(n: BkNode<P>): Shape<P> {
    Shape(n, map[n := [n]], map[n := []])
  }

  // `c` becomes the child of `n` with label `d`.
  ghost function AddChild<P>(sh: Shape<P>, n: BkNode<P>, d: nat, c: BkNode<P>): Shape<P>
    requires n in sh.paths && n in sh.kids
  {
    Shape(sh.root, sh.paths[c := sh.paths[n] + [c]], sh.kids[n := SortedInsert(sh.kids[n], d, c)][c := []])
  }

  ghost predicate CanAddChild<P>(m: Metric, sh: Shape<P>, n: BkNode<P>, d: nat, c: BkNode<P>) {
    && ShapeOk(m, sh) && n in sh.paths && c !in sh.paths && InSpace(m, c.word)
    && Routed(m, sh, sh.paths[n], c.word)
    && InSpace(m, n.word) && d == Dist(m, n.word, c.word) && !HasPairKey(sh.kids[n], d)
  }

  lemma NewToTree<P>(m: Metric, sh: Shape<P>, n: BkNode<P>, d: nat, c: BkNode<P>)
    requires CanAddChild(m, sh, n, d, c)
    ensures n in sh.paths && n in sh.kids && c !in sh.paths && c !in sh.kids
    ensures AddChild(sh, n, d, c).root == sh.root
    ensures AddChild(sh, n, d, c).paths == sh.paths[c := sh.paths[n] + [c]]
    ensures AddChild(sh, n, d, c).kids == sh.kids[n := SortedInsert(sh.kids[n], d, c)][c := []]
    ensures AddChild(sh, n, d, c).paths.Keys == sh.paths.Keys + {c}
    ensures AddChild(sh, n, d, c).kids.Keys == sh.kids.Keys + {c}
  {
  }

  // Nothing of `sh` is lost in `t`.
  ghost predicate Kept<P>(sh: Shape<P>, t: Shape<P>) {
    && t.root == sh.root
    && (forall x {:trigger x in sh.paths} :: x in sh.paths ==> x in t.paths && t.paths[x] == sh.paths[x])
    && (forall x {:trigger x in sh.kids} :: x in sh.kids ==> x in t.kids && KidsKept(sh.kids[x], t.kids[x]))
  }

  ghost predicate KidsKept<P>(s: seq<(int, BkNode<P>)>, t: seq<(int, BkNode<P>)>) {
    forall pr :: pr in s ==> pr in t
  }

  lemma PathStays<P>(sh: Shape<P>, t: Shape<P>, x: BkNode<P>)
    requires Kept(sh, t) && x in sh.paths && PathOk(sh, x)
    ensures PathOk(t, x)
  {
  }

  lemma RouteStays<P>(m: Metric, sh: Shape<P>, t: Shape<P>, p: seq<BkNode<P>>, w: string)
    requires InSpace(m, w) && Kept(sh, t) && Routed(m, sh, p, w)
    ensures Routed(m, t, p, w)
  {
    hide Dist;
  }

  lemma AddChildKept<P>(m: Metric, sh: Shape<P>, n: BkNode<P>, d: nat, c: BkNode<P>)
    requires CanAddChild(m, sh, n, d, c)
    ensures Kept(sh, AddChild(sh, n, d, c))
    ensures SortedPairs(AddChild(sh, n, d, c).kids[n])
    ensures (d, c) in AddChild(sh, n, d, c).kids[n]
  {
    hide Dist, Routed, PathOk, LabelsOk, SortedInsert;
    assert KidsOk(m, sh, n);
    SortedInsertAbsent(sh.kids[n], d, c);
  }

  lemma AddedKid<P>(m: Metric, sh: Shape<P>, n: BkNode<P>, d: nat, c: BkNode<P>, pr: (int, BkNode<P>))
    requires CanAddChild(m, sh, n, d, c) && pr in AddChild(sh, n, d, c).kids[n]
    ensures pr in sh.kids[n] || pr == (d as int, c)
  {
    hide Dist, Routed, PathOk, LabelsOk, SortedInsert;
    assert KidsOk(m, sh, n);
    SortedInsertAbsent(sh.kids[n], d, c);
  }

  lemma AddChildNewNode<P>(m: Metric, sh: Shape<P>, n: BkNode<P>, d: nat, c: BkNode<P>)
    requires CanAddChild(m, sh, n, d, c)
    ensures var t := AddChild(sh, n, d, c); PathOk(t, c) && KidsOk(m, t, c) && LabelsOk(m, t, c)
  {
    hide Dist, SortedInsert;
    var t := AddChild(sh, n, d, c);
    AddChildKept(m, sh, n, d, c);
    NewPath(sh, t, n, c);
    RouteStays(m, sh, t, sh.paths[n], c.word);
    NewRoute(m, t, n, d, c);
  }

  lemma NewPath<P>(sh: Shape<P>, t: Shape<P>, n: BkNode<P>, c: BkNode<P>)
    requires Kept(sh, t) && n in sh.paths && PathOk(sh, n)
    requires c in t.paths && t.paths[c] == sh.paths[n] + [c]
    ensures PathOk(t, c)
  {
    PathStays(sh, t, n);
    var p := t.paths[c];
    forall i {:trigger p[i]} | 0 <= i < |p| ensures p[i] in t.paths && t.paths[p[i]] == p[..i + 1] {
      if i < |p| - 1 {
        assert p[i] == sh.paths[n][i];
        assert p[..i + 1] == sh.paths[n][..i + 1];
      } else {
        assert p[..i + 1] == p;
      }
    }
  }

  lemma NewRoute<P>(m: Metric, t: Shape<P>, n: BkNode<P>, d: nat, c: BkNode<P>)
    requires c in t.paths && n in t.paths && n in t.kids && InSpace(m, c.word) && InSpace(m, n.word)
    requires PathOk(t, n) && t.paths[c] == t.paths[n] + [c]
    requires Routed(m, t, t.paths[n], c.word) && d == Dist(m, n.word, c.word) && (d, c) in t.kids[n]
    ensures LabelsOk(m, t, c)
  {
    RouteExtends(m, t, n, d, c, c.word);
  }

  lemma KidsStay<P>(m: Metric, sh: Shape<P>, t: Shape<P>, x: BkNode<P>)
    requires Kept(sh, t) && x in sh.paths && x in sh.kids && KidsOk(m, sh, x) && SortedPairs(t.kids[x])
    requires forall pr :: pr in t.kids[x] ==> pr in sh.kids[x] || KidOk(m, t, x, pr)
    ensures KidsOk(m, t, x)
  {
    hide SortedPairs, Dist;
    forall i {:trigger t.kids[x][i]} | 0 <= i < |t.kids[x]| ensures KidOk(m, t, x, t.kids[x][i]) {
      var pr := t.kids[x][i];
      if pr in sh.kids[x] {
        var j :| 0 <= j < |sh.kids[x]| && sh.kids[x][j] == pr;
      } else {
        assert pr in t.kids[x];
      }
    }
  }

  lemma AddChildOldNode<P>(m: Metric, sh: Shape<P>, n: BkNode<P>, d: nat, c: BkNode<P>, x: BkNode<P>)
    requires CanAddChild(m, sh, n, d, c) && x in sh.paths
    ensures var t := AddChild(sh, n, d, c); PathOk(t, x) && KidsOk(m, t, x) && LabelsOk(m, t, x)
  {
    hide SortedInsert, SortedPairs, Dist, Routed;
    var t := AddChild(sh, n, d, c);
    AddChildKept(m, sh, n, d, c);
    PathStays(sh, t, x);
    RouteStays(m, sh, t, sh.paths[x], x.word);
    forall pr | pr in t.kids[x] ensures pr in sh.kids[x] || KidOk(m, t, x, pr) {
      if x == n { AddedKid(m, sh, n, d, c, pr); }
    }
    KidsStay(m, sh, t, x);
  }

  lemma AddChildKeepsShape<P>(m: Metric, sh: Shape<P>, n: BkNode<P>, d: nat, c: BkNode<P>)
    requires CanAddChild(m, sh, n, d, c)
    ensures ShapeOk(m, AddChild(sh, n, d, c))
  {
    hide PathOk, KidsOk, LabelsOk, Kept, Routed, SortedInsert, SortedPairs, Dist;
    var t := AddChild(sh, n, d, c);
    AddChildKept(m, sh, n, d, c);
    forall x {:trigger x in t.paths} | x in t.paths ensures PathOk(t, x) && KidsOk(m, t, x) && LabelsOk(m, t, x) {
      if x == c {
        AddChildNewNode(m, sh, n, d, c);
      } else {
        AddChildOldNode(m, sh, n, d, c, x);
      }
    }
    assert t.paths[t.root] == [t.root] by { RootPath(m, sh, n, d, c); }
  }

  lemma RootPath<P>(m: Metric, sh: Shape<P>, n: BkNode<P>, d: nat, c: BkNode<P>)
    requires CanAddChild(m, sh, n, d, c)
    ensures AddChild(sh, n, d, c).paths[sh.root] == [sh.root]
  {
  }

  lemma RouteExtends<P>(m: Metric, sh: Shape<P>, n: BkNode<P>, d: nat, c: BkNode<P>, w: string)
    requires c in sh.paths && n in sh.paths && n in sh.kids && InSpace(m, w) && InSpace(m, n.word)
    requires PathOk(sh, n) && sh.paths[c] == sh.paths[n] + [c]
    requires Routed(m, sh, sh.paths[n], w) && d == Dist(m, n.word, w) && (d, c) in sh.kids[n]
    ensures Routed(m, sh, sh.paths[c], w)
  {
    hide Dist;
    var p, q := sh.paths[c], sh.paths[n];
    forall i {:trigger p[i]} | 0 <= i < |p| - 1
      ensures p[i] in sh.kids && InSpace(m, p[i].word) && (Dist(m, p[i].word, w), p[i + 1]) in sh.kids[p[i]]
    {
      assert p[i] == q[i];
      if i < |q| - 1 { assert p[i + 1] == q[i + 1]; }
    }
  }

  // ------------------------------------------------ the traversal

  // The children whose label is in [lo, hi], in order.
  ghost function Select<P>(s: seq<(int, BkNode<P>)>, lo: int, hi: int): seq<BkNode<P>> {
    if s == [] then []
    else Select(s[..|s| - 1], lo, hi) + if lo <= s[|s| - 1].0 <= hi then [s[|s| - 1].1] else []
  }

  lemma {:induction false} SelectMembers<P>(s: seq<(int, BkNode<P>)>, lo: int, hi: int, c: BkNode<P>)
    ensures c in Select(s, lo, hi) <==> exists d {:trigger (d, c)} :: lo <= d <= hi && (d, c) in s
  {
    if s != [] {
      var s', last := s[..|s| - 1], s[|s| - 1];
      SelectMembers(s', lo, hi, c);
      if lo <= last.0 <= hi && last.1 == c { assert (last.0, c) in s; }
      forall pr | pr in s' ensures pr in s {}
    }
  }

  lemma SelectNone<P>(s: seq<(int, BkNode<P>)>, lo: int, hi: int)
    ensures Select(s[..0], lo, hi) == [] && s[..|s|] == s
  {
  }

  lemma SelectNext<P>(s: seq<(int, BkNode<P>)>, lo: int, hi: int, i: nat)
    requires i < |s|
    ensures Select(s[..i + 1], lo, hi) == Select(s[..i], lo, hi) + if lo <= s[i].0 <= hi then [s[i].1] else []
  {
    assert s[..i + 1][..i] == s[..i];
  }

  // Past the upper bound nothing is selected: the `break` loses no child.
  lemma {:induction false} SelectBreak<P>(s: seq<(int, BkNode<P>)>, lo: int, hi: int, k: nat)
    requires SortedPairs(s) && k < |s| && s[k].0 > hi
    ensures Select(s, lo, hi) == Select(s[..k], lo, hi)
  {
    var s' := s[..|s| - 1];
    if k < |s| - 1 {
      SelectBreak(s', lo, hi, k);
      assert s'[..k] == s[..k];
    }
  }

  // The nodes still to visit: none is an ancestor of another.
  ghost predicate StackOk<P>(sh: Shape<P>, stack: seq<BkNode<P>>) {
    && (forall i :: 0 <= i < |stack| ==> stack[i] in sh.paths)
    && (forall i, j :: 0 <= i < |stack| && 0 <= j < |stack| && i != j ==> stack[i] !in sh.paths[stack[j]])
  }

  // No visited node lies under a node that is still to visit.
  ghost predicate VisitedOk<P>(sh: Shape<P>, stack: seq<BkNode<P>>, visited: set<BkNode<P>>) {
    forall v :: v in visited ==> v in sh.paths && forall i :: 0 <= i < |stack| ==> stack[i] !in sh.paths[v]
  }

  // Every node close to `q` has been visited or lies under a node still to visit.
  ghost predicate Covered<P>(m: Metric, sh: Shape<P>, stack: seq<BkNode<P>>, visited: set<BkNode<P>>, q: string, t: nat)
    requires InSpace(m, q)
  {
    forall n :: n in sh.paths && InSpace(m, n.word) && Dist(m, n.word, q) <= t && n !in visited ==>
      Waits(sh, stack, n)
  }

  ghost predicate Waits<P>(sh: Shape<P>, stack: seq<BkNode<P>>, n: BkNode<P>)
    requires n in sh.paths
  {
    exists i :: 0 <= i < |stack| && stack[i] in sh.paths[n]
  }

  lemma AncestorPath<P>(sh: Shape<P>, x: BkNode<P>, y: BkNode<P>)
    requires y in sh.paths && PathOk(sh, y) && x in sh.paths[y]
    ensures x in sh.paths && |sh.paths[x]| <= |sh.paths[y]| && sh.paths[x] == sh.paths[y][..|sh.paths[x]|]
  {
    var i :| 0 <= i < |sh.paths[y]| && sh.paths[y][i] == x;
  }

  lemma ParentIsAncestor<P>(sh: Shape<P>, n: BkNode<P>, c: BkNode<P>, y: BkNode<P>)
    requires y in sh.paths && PathOk(sh, y) && n in sh.paths && c in sh.paths && sh.paths[c] == sh.paths[n] + [c]
    requires n in sh.paths[n] && c in sh.paths[y]
    ensures n in sh.paths[y]
  {
    AncestorPath(sh, c, y);
    var i :| 0 <= i < |sh.paths[n]| && sh.paths[n][i] == n;
    assert sh.paths[y][i] == sh.paths[c][i] == n;
  }

  // `cs` are different children of `n`.
  ghost predicate Children<P>(sh: Shape<P>, n: BkNode<P>, cs: seq<BkNode<P>>)
    requires n in sh.paths
  {
    && (forall i :: 0 <= i < |cs| ==> cs[i] in sh.paths && sh.paths[cs[i]] == sh.paths[n] + [cs[i]])
    && (forall i, j :: 0 <= i < j < |cs| ==> cs[i] != cs[j])
  }

  lemma DifferentKids<P>(m: Metric, sh: Shape<P>, n: BkNode<P>)
    requires n in sh.paths && n in sh.kids && KidsOk(m, sh, n)
    ensures forall i, j :: 0 <= i < j < |sh.kids[n]| ==> sh.kids[n][i].1 != sh.kids[n][j].1
    ensures forall i :: 0 <= i < |sh.kids[n]| ==>
              sh.kids[n][i].1 in sh.paths && sh.paths[sh.kids[n][i].1] == sh.paths[n] + [sh.kids[n][i].1]
  {
    hide Dist;
    forall i, j | 0 <= i < j < |sh.kids[n]| ensures sh.kids[n][i].1 != sh.kids[n][j].1 {
      assert KidOk(m, sh, n, sh.kids[n][i]) && KidOk(m, sh, n, sh.kids[n][j]);
    }
  }

  lemma {:induction false} SelectedDiffer<P>(s: seq<(int, BkNode<P>)>, lo: int, hi: int)
    requires forall i, j :: 0 <= i < j < |s| ==> s[i].1 != s[j].1
    ensures forall i, j :: 0 <= i < j < |Select(s, lo, hi)| ==> Select(s, lo, hi)[i] != Select(s, lo, hi)[j]
  {
    if s != [] {
      SelectedDiffer(s[..|s| - 1], lo, hi);
      SelectMembers(s[..|s| - 1], lo, hi, s[|s| - 1].1);
    }
  }

  lemma SelectedChildren<P>(m: Metric, sh: Shape<P>, n: BkNode<P>, lo: int, hi: int)
    requires n in sh.paths && n in sh.kids && KidsOk(m, sh, n)
    ensures Children(sh, n, Select(sh.kids[n], lo, hi))
  {
    hide KidsOk, Select;
    DifferentKids(m, sh, n);
    SelectedDiffer(sh.kids[n], lo, hi);
    var cs := Select(sh.kids[n], lo, hi);
    forall i | 0 <= i < |cs| ensures cs[i] in sh.paths && sh.paths[cs[i]] == sh.paths[n] + [cs[i]] {
      SelectMembers(sh.kids[n], lo, hi, cs[i]);
    }
  }

  // An ancestor of a child of `n` that is not the child itself is an ancestor of `n`, and a
  // child of `n` is not an ancestor of `n`.
  lemma ChildFacts<P>(sh: Shape<P>, n: BkNode<P>, c: BkNode<P>)
    requires n in sh.paths && c in sh.paths && sh.paths[c] == sh.paths[n] + [c] && PathOk(sh, n)
    ensures n in sh.paths[n] && c !in sh.paths[n]
    ensures forall x :: x in sh.paths[c] ==> x in sh.paths[n] || x == c
  {
    if c in sh.paths[n] { AncestorPath(sh, c, n); }
  }

  // The stack after visiting `n` and pushing `cs`: still no node above another.
  lemma StepStack<P>(m: Metric, sh: Shape<P>, rest: seq<BkNode<P>>, n: BkNode<P>, cs: seq<BkNode<P>>)
    requires ShapeOk(m, sh) && StackOk(sh, rest + [n]) && n in sh.paths && Children(sh, n, cs)
    ensures StackOk(sh, rest + cs)
  {
    hide Dist, LabelsOk, KidsOk, PathOk;
    var old_, new_ := rest + [n], rest + cs;
    assert forall i :: 0 <= i < |rest| ==> old_[i] == rest[i];
    assert old_[|rest|] == n;
    forall i, j | 0 <= i < |new_| && 0 <= j < |new_| && i != j ensures new_[i] !in sh.paths[new_[j]] {
      StepPair(m, sh, rest, n, cs, i, j);
    }
  }

  lemma StepPair<P>(m: Metric, sh: Shape<P>, rest: seq<BkNode<P>>, n: BkNode<P>, cs: seq<BkNode<P>>, i: nat, j: nat)
    requires ShapeOk(m, sh) && n in sh.paths && Children(sh, n, cs)
    requires forall k :: 0 <= k < |rest| ==> rest[k] in sh.paths && rest[k] !in sh.paths[n] && n !in sh.paths[rest[k]]
    requires forall k, l :: 0 <= k < |rest| && 0 <= l < |rest| && k != l ==> rest[k] !in sh.paths[rest[l]]
    requires i < |rest + cs| && j < |rest + cs| && i != j
    ensures (rest + cs)[j] in sh.paths && (rest + cs)[i] !in sh.paths[(rest + cs)[j]]
  {
    hide Dist, LabelsOk, KidsOk;
    var x, y := (rest + cs)[i], (rest + cs)[j];
    if j >= |rest| {
      ChildFacts(sh, n, y);
      if i < |rest| {
        assert x == rest[i];
        assert n in sh.paths[y];
      } else {
        assert x == cs[i - |rest|] && y == cs[j - |rest|];
        ChildFacts(sh, n, x);
      }
    } else if i >= |rest| {
      ChildFacts(sh, n, x);
      if x in sh.paths[y] { ParentIsAncestor(sh, n, x, y); }
    }
  }

  lemma StepVisited<P>(m: Metric, sh: Shape<P>, rest: seq<BkNode<P>>, n: BkNode<P>, cs: seq<BkNode<P>>,
                       visited: set<BkNode<P>>)
    requires ShapeOk(m, sh) && StackOk(sh, rest + [n]) && VisitedOk(sh, rest + [n], visited)
    requires n in sh.paths && Children(sh, n, cs)
    ensures n !in visited && VisitedOk(sh, rest + cs, visited + {n})
  {
    hide Dist, LabelsOk, KidsOk;
    var old_, new_ := rest + [n], rest + cs;
    assert old_[|rest|] == n;
    assert n in sh.paths[n];
    forall v, i | v in visited + {n} && 0 <= i < |new_| ensures new_[i] !in sh.paths[v] {
      if i < |rest| {
        assert new_[i] == old_[i];
      } else {
        var c := cs[i - |rest|];
        ChildFacts(sh, n, c);
        if v != n && c in sh.paths[v] { ParentIsAncestor(sh, n, c, v); }
      }
    }
  }

  // The two triangle inequalities behind the pruning: a node close to `q` lies under a child
  // of `n` whose label is within `t` of the distance between `n` and `q`.
  lemma StepCovered<P>(m: Metric, sh: Shape<P>, rest: seq<BkNode<P>>, n: BkNode<P>, cs: seq<BkNode<P>>,
                       visited: set<BkNode<P>>, q: string, t: nat)
    requires ShapeOk(m, sh) && InSpace(m, q) && n in sh.paths && InSpace(m, n.word)
    requires Covered(m, sh, rest + [n], visited, q, t)
    requires cs == Select(sh.kids[n], Dist(m, n.word, q) - t, Dist(m, n.word, q) + t)
    ensures Covered(m, sh, rest + cs, visited + {n}, q, t)
  {
    hide Dist, PathOk, KidsOk, LabelsOk;
    forall x | x in sh.paths && InSpace(m, x.word) && Dist(m, x.word, q) <= t && x !in visited + {n}
      ensures Waits(sh, rest + cs, x)
    {
      assert Waits(sh, rest + [n], x);
      var i :| 0 <= i < |rest + [n]| && (rest + [n])[i] in sh.paths[x];
      if i < |rest| {
        assert (rest + cs)[i] == rest[i];
      } else {
        var c := TowardsIsSelected(m, sh, n, x, q, t);
        var j :| 0 <= j < |cs| && cs[j] == c;
        assert (rest + cs)[|rest| + j] == c;
      }
    }
  }

  lemma TowardsIsSelected<P>(m: Metric, sh: Shape<P>, n: BkNode<P>, x: BkNode<P>, q: string, t: nat)
    returns (c: BkNode<P>)
    requires ShapeOk(m, sh) && InSpace(m, q) && n in sh.paths && InSpace(m, n.word)
    requires x in sh.paths && x != n && n in sh.paths[x] && InSpace(m, x.word) && Dist(m, x.word, q) <= t
    ensures c in sh.paths[x] && c in Select(sh.kids[n], Dist(m, n.word, q) - t, Dist(m, n.word, q) + t)
  {
    hide Dist, KidsOk, Select, InSpace;
    var p := sh.paths[x];
    assert PathOk(sh, x) && LabelsOk(m, sh, x);
    var i :| 0 <= i < |p| && p[i] == n;
    c := p[i + 1];
    assert (Dist(m, n.word, x.word), c) in sh.kids[n];
    assert n in sh.kids;
    hide PathOk, LabelsOk, ShapeOk, Routed;
    DistIsClose(m, n.word, q, x.word, t);
    SelectMembers(sh.kids[n], Dist(m, n.word, q) - t, Dist(m, n.word, q) + t, c);
  }

  // The bounds of the child loop, from the triangle inequality.
  lemma DistIsClose(m: Metric, n: string, q: string, x: string, t: nat)
    requires InSpace(m, n) && InSpace(m, q) && InSpace(m, x) && Dist(m, x, q) <= t
    ensures Dist(m, n, q) - t <= Dist(m, n, x) <= Dist(m, n, q) + t
  {
    hide Dist, InSpace;
    DistIsMetric(m, n, q, x);
    DistIsMetric(m, n, x, q);
    DistIsMetric(m, q, x, q);
  }

  // What holds between two visits.
  ghost predicate Traversal<P>(m: Metric, sh: Shape<P>, stack: seq<BkNode<P>>, visited: set<BkNode<P>>, q: string, t: nat)
    requires InSpace(m, q)
  {
    StackOk(sh, stack) && VisitedOk(sh, stack, visited) && Covered(m, sh, stack, visited, q, t)
  }

  lemma TraversalStarts<P>(m: Metric, sh: Shape<P>, q: string, t: nat)
    requires ShapeOk(m, sh) && InSpace(m, q)
    ensures Traversal(m, sh, [sh.root], {}, q, t)
  {
    hide Dist, KidsOk, LabelsOk, PathOk;
    assert sh.root in sh.paths;
    forall n | n in sh.paths ensures Waits(sh, [sh.root], n) {
      RootAbove(m, sh, n);
    }
  }

  lemma RootAbove<P>(m: Metric, sh: Shape<P>, n: BkNode<P>)
    requires ShapeOk(m, sh) && n in sh.paths
    ensures Waits(sh, [sh.root], n)
  {
    hide KidsOk, LabelsOk;
    assert PathOk(sh, n);
    assert [sh.root][0] == sh.paths[n][0];
  }

  lemma TraversalStep<P>(m: Metric, sh: Shape<P>, rest: seq<BkNode<P>>, n: BkNode<P>, visited: set<BkNode<P>>,
                         q: string, t: nat)
    requires ShapeOk(m, sh) && InSpace(m, q) && Traversal(m, sh, rest + [n], visited, q, t)
    ensures n in sh.paths && n in sh.kids && InSpace(m, n.word) && n !in visited
    ensures Traversal(m, sh, rest + Select(sh.kids[n], Dist(m, n.word, q) - t, Dist(m, n.word, q) + t),
                      visited + {n}, q, t)
  {
    hide Dist, PathOk, Routed, StackOk, VisitedOk, Covered, Select;
    OnStack(sh, rest + [n], |rest|);
    assert KidsOk(m, sh, n) && LabelsOk(m, sh, n);
    var lo, hi := Dist(m, n.word, q) - t, Dist(m, n.word, q) + t;
    var cs := Select(sh.kids[n], lo, hi);
    SelectedChildren(m, sh, n, lo, hi);
    StepStack(m, sh, rest, n, cs);
    StepVisited(m, sh, rest, n, cs, visited);
    StepCovered(m, sh, rest, n, cs, visited, q, t);
  }

  lemma OnStack<P>(sh: Shape<P>, stack: seq<BkNode<P>>, i: nat)
    requires StackOk(sh, stack) && i < |stack|
    ensures stack[i] in sh.paths
  {
  }

  lemma TraversalEnds<P>(m: Metric, sh: Shape<P>, visited: set<BkNode<P>>, q: string, t: nat)
    requires InSpace(m, q) && Traversal(m, sh, [], visited, q, t)
    ensures forall n :: n in sh.paths && Near(m, n.word, q, t) ==> n in visited
  {
    hide Dist;
  }

  // ------------------------------------------------ the tree

  ghost predicate Near(m: Metric, w: string, q: string, t: nat)
    requires InSpace(m, q)
  {
    InSpace(m, w) && Dist(m, w, q) <= t
  }

  // In terms of the words alone: at most `t` edits, or at most `t` positions that differ.
  lemma NearIff(m: Metric, w: string, q: string, t: nat)
    requires InSpace(m, q)
    ensures Near(m, w, q, t) <==>
            InSpace(m, w) && if m.EditMetric? then EditsWithin(w, q, t) else |Mismatches(w, q)| <= t
  {
    hide Lev, Ham, EditsWithin;
    if m.EditMetric? {
      LevWithinIff(w, q, t);
    } else if InSpace(m, w) {
      HamCountsMismatches(w, q);
    }
  }

  ghost function Elements<T>(s: seq<T>): set<T> {
    set x | x in s
  }

  // The objects behind the children of a node.
  ghost function Foot<P>(n: BkNode<P>): set<object>
    reads n.children
  {
    {n.children, n.children.nodes} + n.children.all
  }

  ghost predicate ListOk<P>(n: BkNode<P>, kids: seq<(int, BkNode<P>)>, lists: set<object>)
    reads lists
  {
    n.children in lists && Foot(n) <= lists && n.children.Valid() && n.children.Contents() == kids
  }

  ghost predicate ListsOk<P>(kids: map<BkNode<P>, seq<(int, BkNode<P>)>>, lists: set<object>)
    reads lists
  {
    && (forall n {:trigger kids[n]} :: n in kids ==> ListOk(n, kids[n], lists))
    && (forall a, b {:trigger kids[a], kids[b]} :: a in kids && b in kids && a != b ==> Foot(a) !! Foot(b))
  }

  ghost predicate FeetApart<P>(kids: map<BkNode<P>, seq<(int, BkNode<P>)>>, curr: BkNode<P>)
    reads (set n | n in kids :: n.children)
  {
    forall a, b {:trigger kids[a], kids[b]} :: a in kids && b in kids && a != b && a != curr && b != curr ==>
      Foot(a) !! Foot(b)
  }

  lemma OneList<P>(kids: map<BkNode<P>, seq<(int, BkNode<P>)>>, lists: set<object>, curr: BkNode<P>)
    requires ListsOk(kids, lists) && curr in kids
    ensures ListOk(curr, kids[curr], lists) && FeetApart(kids, curr)
    ensures forall n {:trigger kids[n]} :: n in kids && n != curr ==>
              ListOk(n, kids[n], lists) && Foot(n) !! Foot(curr)
  {
    hide SkipList.Valid, SkipList.Contents;
  }

  lemma FootIn<P>(kids: map<BkNode<P>, seq<(int, BkNode<P>)>>, lists: set<object>, curr: BkNode<P>, c: BkNode<P>)
    requires ListsOk(kids, lists) && curr in kids
    ensures Foot(curr) <= lists && c.children in Foot(c)
  {
    hide SkipList.Valid, SkipList.Contents;
    assert ListOk(curr, kids[curr], lists);
  }

  lemma ListsGrow<P>(kids: map<BkNode<P>, seq<(int, BkNode<P>)>>, lists: set<object>, curr: BkNode<P>,
                     k: seq<(int, BkNode<P>)>, c: BkNode<P>)
    requires curr in kids && c !in kids && FeetApart(kids, curr)
    requires forall n {:trigger kids[n]} :: n in kids && n != curr ==>
               ListOk(n, kids[n], lists) && Foot(n) !! Foot(curr)
    requires curr.children.Valid() && curr.children.Contents() == k
    requires c.children.Valid() && c.children.Contents() == [] && Foot(c) !! lists && Foot(c) !! Foot(curr)
    ensures ListsOk(kids[curr := k][c := []], lists + Foot(curr) + Foot(c))
  {
    hide SkipList.Valid, SkipList.Contents;
    var kids' := kids[curr := k][c := []];
    forall n {:trigger kids'[n]} | n in kids' ensures ListOk(n, kids'[n], lists + Foot(curr) + Foot(c)) {
      if n != c && n != curr { assert ListOk(n, kids[n], lists); }
    }
    forall a, b {:trigger kids'[a], kids'[b]} | a in kids' && b in kids' && a != b ensures Foot(a) !! Foot(b) {
      assert a != c && a != curr ==> ListOk(a, kids[a], lists);
      assert b != c && b != curr ==> ListOk(b, kids[b], lists);
    }
  }

  lemma KidsInTree<P>(m: Metric, sh: Shape<P>, n: BkNode<P>)
    requires ShapeOk(m, sh) && (n in sh.paths || n in sh.kids)
    ensures n in sh.paths && n in sh.kids && forall pr :: pr in sh.kids[n] ==> pr.1 in sh.kids
  {
    hide Dist, PathOk, LabelsOk;
    assert n in sh.paths;
    assert KidsOk(m, sh, n);
    forall pr | pr in sh.kids[n] ensures pr.1 in sh.kids {
      var i :| 0 <= i < |sh.kids[n]| && sh.kids[n][i] == pr;
      assert KidOk(m, sh, n, sh.kids[n][i]);
    }
  }

  // `depth` is the length of the longest path.
  ghost predicate DepthIs<P>(paths: map<BkNode<P>, seq<BkNode<P>>>, depth: nat) {
    && (forall n :: n in paths ==> |paths[n]| <= depth)
    && (exists n :: n in paths && |paths[n]| == depth)
  }

  // Each child carries the label it is filed under.
  ghost predicate LabelsStored<P>(kids: map<BkNode<P>, seq<(int, BkNode<P>)>>)
    reads (set n | n in kids)`distanceFromParent
  {
    forall n, i :: n in kids && 0 <= i < |kids[n]| && kids[n][i].1 in kids ==>
      kids[n][i].1.distanceFromParent == kids[n][i].0
  }

  ghost predicate TreeInv<P>(metric: Metric, root: BkNode?<P>, depth: nat, nodes: set<BkNode<P>>,
                             paths: map<BkNode<P>, seq<BkNode<P>>>, kids: map<BkNode<P>, seq<(int, BkNode<P>)>>,
                             lists: set<object>)
    reads lists, nodes`distanceFromParent
  {
    && nodes == paths.Keys == kids.Keys && nodes !! lists
    && (if root == null then nodes == {} && depth == 0
        else ShapeOk(metric, Shape(root, paths, kids)) && DepthIs(paths, depth))
    && ListsOk(kids, lists)
    && LabelsStored(kids)
  }

  lemma TreeInvHolds<P>(metric: Metric, depth: nat, nodes: set<BkNode<P>>, sh: Shape<P>, lists: set<object>)
    requires nodes == sh.paths.Keys && nodes == sh.kids.Keys && nodes !! lists
    requires ShapeOk(metric, sh) && DepthIs(sh.paths, depth) && ListsOk(sh.kids, lists) && LabelsStored(sh.kids)
    ensures TreeInv(metric, sh.root, depth, nodes, sh.paths, sh.kids, lists)
  {
    hide ShapeOk, DepthIs, ListsOk, LabelsStored;
  }

  lemma SingleIsTree<P>(metric: Metric, n: BkNode<P>)
    requires InSpace(metric, n.word)
    requires n.children.Valid() && n.children.Contents() == [] && n !in Foot(n)
    ensures TreeInv(metric, Single(n).root, 1, {n}, Single(n).paths, Single(n).kids, Foot(n))
  {
    hide Dist, SkipList.Valid, SkipList.Contents;
    var sh := Single(n);
    assert PathOk(sh, n) && KidsOk(metric, sh, n) && LabelsOk(metric, sh, n);
    assert sh.paths[n] == [n];
  }

  class BkTree<P> {
    const metric: Metric
    var root: BkNode?<P>
    var depth: nat
    ghost var nodes: set<BkNode<P>>
    ghost var paths: map<BkNode<P>, seq<BkNode<P>>>
    ghost var kids: map<BkNode<P>, seq<(int, BkNode<P>)>>
    ghost var lists: set<object>

    ghost function Sh(): Shape<P>
      requires root != null
      reads this
    {
      Shape(root, paths, kids)
    }

    ghost predicate Valid()
      reads this, lists, nodes`distanceFromParent
    {
      this !in lists && TreeInv(metric, root, depth, nodes, paths, kids, lists)
    }

    constructor (metric: Metric)
      ensures Valid() && nodes == {} && lists == {} && this.metric == metric
    {
      this.metric := metric;
      root, depth := null, 0;
      nodes, paths, kids, lists := {}, map[], map[], {};
    }

    lemma NodeFacts(n: BkNode<P>)
      requires Valid() && n in nodes
      ensures root != null && ShapeOk(metric, Sh()) && n in paths && n in kids && InSpace(metric, n.word)
      ensures KidsOk(metric, Sh(), n) && SortedPairs(kids[n])
      ensures n.children.Valid() && n.children.Contents() == kids[n]
      ensures forall i :: 0 <= i < |kids[n]| ==>
                kids[n][i].1 in nodes && kids[n][i].1.distanceFromParent == kids[n][i].0
    {
      hide Dist, PathOk, Routed;
      assert LabelsOk(metric, Sh(), n) && KidsOk(metric, Sh(), n);
      assert ListOk(n, kids[n], lists);
      forall i | 0 <= i < |kids[n]| ensures kids[n][i].1 in nodes {
        assert KidOk(metric, Sh(), n, kids[n][i]);
      }
    }

    // The child loop of match and find: skip below the lower bound, push up to the upper
    // bound, break above it.
    method PushChildren(curr: BkNode<P>, lo: int, hi: int, stack: Vector<BkNode?<P>>, pos: nat) returns (newPos: nat)
      requires Valid() && curr in nodes
      requires stack.Growable() && pos <= stack.size
      modifies stack, stack.data
      ensures stack.Growable() && newPos <= stack.size && (stack.data == old(stack.data) || fresh(stack.data))
      ensures stack.Prefix(newPos) == old(stack.Prefix(pos)) + Select(old(kids[curr]), lo, hi)
    {
      hide Valid, Select, ListsOk, InSpace, ShapeOk, KidsOk, SortedPairs;
      NodeFacts(curr);
      var children := curr.children.Iterate();
      ghost var k := kids[curr];
      newPos := PushInRange(k, children, lo, hi, stack, pos);
    }

    // The loop itself, over the children from cbegin to cend.
    method PushInRange(ghost k: seq<(int, BkNode<P>)>, children: seq<(int, BkNode<P>)>, lo: int, hi: int,
                       stack: Vector<BkNode?<P>>, pos: nat)
      returns (newPos: nat)
      requires k == children && SortedPairs(k) && forall i :: 0 <= i < |k| ==> k[i].1.distanceFromParent == k[i].0
      requires stack.Growable() && pos <= stack.size
      modifies stack, stack.data
      ensures stack.Growable() && newPos <= stack.size && (stack.data == old(stack.data) || fresh(stack.data))
      ensures stack.Prefix(newPos) == old(stack.Prefix(pos)) + Select(k, lo, hi)
    {
      hide Select;
      newPos := pos;
      SelectNone(k, lo, hi);
      ghost var was, chosen := stack.Prefix(pos), [];
      for i := 0 to |children|
        invariant stack.Growable() && newPos <= stack.size && (stack.data == old(stack.data) || fresh(stack.data))
        invariant stack.Prefix(newPos) == was + chosen && chosen == Select(k[..i], lo, hi)
      {
        var child := children[i].1;
        SelectNext(k, lo, hi, i);
        if child.distanceFromParent < lo {
          continue;
        } else if child.distanceFromParent <= hi {
          var inBounds := stack.Set(newPos, child);
          assert inBounds;   // `set` never throws
          newPos := newPos + 1;
          chosen := chosen + [child];
        } else {
          SelectBreak(k, lo, hi, i);
          return;
        }
      }
    }

    lemma RootFacts()
      requires Valid() && root != null
      ensures root in nodes && depth >= 1 && ShapeOk(metric, Sh())
    {
      hide KidsOk, LabelsOk;
      assert PathOk(Sh(), root);
    }

    // The stack of a traversal: the live part of the vector, `st` in the specification.
    ghost predicate Holds(stack: Vector<BkNode?<P>>, st: seq<BkNode<P>>)
      reads stack, stack.data
    {
      stack.Growable() && |st| <= stack.size && stack.Prefix(|st|) == st
    }

    method StartStack() returns (stack: Vector<BkNode?<P>>)
      requires Valid() && root != null
      ensures fresh(stack) && fresh(stack.data) && Holds(stack, [root])
    {
      hide Valid;
      RootFacts();
      stack := new Vector<BkNode?<P>>(depth * 2);
      var inBounds := stack.Set(0, root);
      assert inBounds;
    }

    method Pop(stack: Vector<BkNode?<P>>, pos: nat, ghost st: seq<BkNode<P>>) returns (curr: BkNode<P>)
      requires Holds(stack, st) && |st| == pos > 0
      ensures curr == st[pos - 1] && Holds(stack, st[..pos - 1])
    {
      var inBounds, top := stack.At(pos - 1);
      assert top == stack.Prefix(pos)[pos - 1];
      curr := top;
      assert stack.Prefix(pos - 1) == stack.Prefix(pos)[..pos - 1];
    }

    // The child loop of match and find, after `curr` was popped.
    method Expand(curr: BkNode<P>, d: nat, stack: Vector<BkNode?<P>>, pos: nat, t: nat, q: string,
                  ghost rest: seq<BkNode<P>>, ghost visited: set<BkNode<P>>)
      returns (newPos: nat, ghost st: seq<BkNode<P>>)
      requires Valid() && root != null && InSpace(metric, q)
      requires curr in nodes && InSpace(metric, curr.word) && d == Dist(metric, curr.word, q)
      requires Holds(stack, rest) && |rest| == pos
      requires Traversal(metric, Sh(), rest + [curr], visited, q, t)
      modifies stack, stack.data
      ensures stack.data == old(stack.data) || fresh(stack.data)
      ensures Holds(stack, st) && |st| == newPos
      ensures Traversal(metric, Sh(), st, visited + {curr}, q, t)
    {
      hide ShapeOk, Traversal, Dist, Select, ListsOk, InSpace;
      TraversalStep(metric, Sh(), rest, curr, visited, q, t);
      st := rest + Select(kids[curr], d - t, d + t);
      newPos := PushChildren(curr, d - t, d + t, stack, pos);
      assert |stack.Prefix(newPos)| == newPos;
    }

    // Every node within `threshold` of the query, each once.
    method Match(threshold: nat, query: string) returns (ret: seq<BkNode<P>>)
      requires Valid() && InSpace(metric, query)
      ensures forall i, j :: 0 <= i < j < |ret| ==> ret[i] != ret[j]
      ensures forall n :: n in ret <==> n in nodes && Near(metric, n.word, query, threshold)
    {
      hide ShapeOk, Traversal, Dist, Select, ListsOk, InSpace, Holds;
      ret := [];
      if root == null {
        return;
      }
      var stack := StartStack();
      var pos := 1;
      ghost var st: seq<BkNode<P>>, visited: set<BkNode<P>> := [root as BkNode<P>], {};
      TraversalStarts(metric, Sh(), query, threshold);
      while pos > 0
        invariant fresh(stack) && fresh(stack.data) && |st| == pos && Holds(stack, st)
        invariant Traversal(metric, Sh(), st, visited, query, threshold)
        invariant visited <= nodes
        invariant forall i, j :: 0 <= i < j < |ret| ==> ret[i] != ret[j]
        invariant forall n :: n in ret <==> n in visited && Near(metric, n.word, query, threshold)
        decreases nodes - visited
      {
        pos := pos - 1;
        var curr := Pop(stack, pos + 1, st);
        ghost var rest := st[..pos];
        assert st == rest + [curr];
        TraversalStep(metric, Sh(), rest, curr, visited, query, threshold);
        var d := Distance(metric, curr.word, query);
        if d <= threshold {
          ret := ret + [curr];
        }
        pos, st := Expand(curr, d, stack, pos, threshold, query, rest, visited);
        visited := visited + {curr};
      }
      assert st == [];
      TraversalEnds(metric, Sh(), visited, query, threshold);
    }

    // A node whose word is `what`: the traversal of match with threshold 0, left at the first hit.
    method Find(what: string) returns (r: BkNode?<P>)
      requires Valid() && InSpace(metric, what)
      ensures r != null ==> r in nodes && r.word == what
      ensures r == null ==> forall n :: n in nodes ==> n.word != what
    {
      hide ShapeOk, Traversal, Dist, Select, ListsOk, InSpace, Holds;
      if root == null {
        return null;
      }
      var stack := StartStack();
      var pos := 1;
      ghost var st: seq<BkNode<P>>, visited: set<BkNode<P>> := [root as BkNode<P>], {};
      TraversalStarts(metric, Sh(), what, 0);
      while pos > 0
        invariant fresh(stack) && fresh(stack.data) && |st| == pos && Holds(stack, st)
        invariant Traversal(metric, Sh(), st, visited, what, 0)
        invariant visited <= nodes
        invariant forall n :: n in visited ==> n.word != what
        decreases nodes - visited
      {
        pos := pos - 1;
        var curr := Pop(stack, pos + 1, st);
        ghost var rest := st[..pos];
        assert st == rest + [curr];
        TraversalStep(metric, Sh(), rest, curr, visited, what, 0);
        var d := Distance(metric, curr.word, what);
        DistIsMetric(metric, curr.word, what, what);
        if d == 0 {
          return curr;
        }
        pos, st := Expand(curr, d, stack, pos, 0, what, rest, visited);
        visited := visited + {curr};
      }
      assert st == [];
      AllVisited(what, visited);
      return null;
    }

    lemma AllVisited(what: string, visited: set<BkNode<P>>)
      requires Valid() && root != null && InSpace(metric, what) && Traversal(metric, Sh(), [], visited, what, 0)
      requires forall n :: n in visited ==> n.word != what
      ensures forall n :: n in nodes ==> n.word != what
    {
      hide ShapeOk, Traversal, Dist, ListsOk;
      TraversalEnds(metric, Sh(), visited, what, 0);
      forall n | n in nodes ensures n.word != what {
        if InSpace(metric, n.word) {
          DistIsMetric(metric, n.word, what, what);
          assert Near(metric, n.word, what, 0) <==> n.word == what;
        }
      }
    }

    // ---------------------------------------------- insertion

    // children.insert(new_child), and what it means for all children lists.
    static method InsertChild(curr: BkNode<P>, d: nat, c: BkNode<P>,
                              ghost kids: map<BkNode<P>, seq<(int, BkNode<P>)>>, ghost lists: set<object>)
      requires ListsOk(kids, lists) && curr in kids && c !in kids
      requires c.children.Valid() && c.children.Contents() == [] && Foot(c) !! lists
      modifies Foot(curr)
      ensures ListsOk(kids[curr := SortedInsert(kids[curr], d, c)][c := []], lists + Foot(curr) + Foot(c))
      ensures fresh(Foot(curr) - old(Foot(curr)))
    {
      hide SortedInsert, SkipList.Valid, SkipList.Contents, ListsOk;
      OneList(kids, lists, curr);
      curr.children.Insert(d, c);
      forall n | n in kids && n != curr ensures ListOk(n, kids[n], lists) && Foot(n) !! Foot(curr) {
        assert old(ListOk(n, kids[n], lists));
      }
      assert old(FeetApart(kids, curr));
      ListsGrow(kids, lists, curr, SortedInsert(kids[curr], d, c), c);
    }

    lemma DepthStays(paths: map<BkNode<P>, seq<BkNode<P>>>, depth: nat, curr: BkNode<P>, c: BkNode<P>, newDepth: nat)
      requires curr in paths && c !in paths && DepthIs(paths, depth)
      requires newDepth == if depth < |paths[curr]| + 1 then |paths[curr]| + 1 else depth
      ensures DepthIs(paths[c := paths[curr] + [c]], newDepth)
    {
      var p := paths[c := paths[curr] + [c]];
      var deepest: BkNode<P> :| deepest in paths && |paths[deepest]| == depth;
      assert |p[if depth < |paths[curr]| + 1 then c else deepest]| == newDepth;
    }

    // One step down: the child under the label is the next node of the route.
    lemma Descend(curr: BkNode<P>, next: BkNode<P>, w: string)
      requires Valid() && root != null && InSpace(metric, w) && curr in nodes && InSpace(metric, curr.word)
      requires Routed(metric, Sh(), paths[curr], w) && (Dist(metric, curr.word, w), next) in kids[curr]
      ensures next in nodes && Routed(metric, Sh(), paths[next], w)
      ensures |paths[next]| == |paths[curr]| + 1
      ensures nodes - Elements(paths[next]) < nodes - Elements(paths[curr])
    {
      hide ListsOk, Dist;
      NodeFacts(curr);
      var sh, d := Sh(), Dist(metric, curr.word, w);
      var i :| 0 <= i < |kids[curr]| && kids[curr][i] == (d as int, next);
      assert KidOk(metric, sh, curr, kids[curr][i]);
      assert PathOk(sh, curr);
      RouteExtends(metric, sh, curr, d, next, w);
      ChildFacts(sh, curr, next);
      assert next in nodes - Elements(paths[curr]) && next in Elements(paths[next]);
    }

    lemma RouteStarts(w: string)
      requires Valid() && root != null && InSpace(metric, w)
      ensures root in nodes && paths[root] == [root] && Routed(metric, Sh(), paths[root], w)
    {
    }

    // The first node of an empty tree.
    method InsertRoot(n: BkNode<P>)
      requires Valid() && root == null && InSpace(metric, n.word)
      requires n.children.Valid() && n.children.Contents() == [] && n !in Foot(n) && this !in Foot(n)
      modifies this
      ensures Valid() && root == n && nodes == {n} && lists == Foot(n)
    {
      hide TreeInv, Foot, SkipList.Valid, SkipList.Contents;
      EmptyTree();
      SingleIsTree(metric, n);
      root := n;
      depth := depth + 1;
      Record(depth, {n}, Single(n), Foot(n));
    }

    // The new kid has its label stored, and so have the old ones.
    lemma LabelsStay(sh: Shape<P>, curr: BkNode<P>, d: nat, c: BkNode<P>)
      requires CanAddChild(metric, sh, curr, d, c) && c.distanceFromParent == d && LabelsStored(sh.kids)
      requires curr in sh.kids
      ensures LabelsStored(AddChild(sh, curr, d, c).kids)
    {
      hide SortedInsert, ShapeOk, Routed, Dist;
      var kids: map<BkNode<P>, seq<(int, BkNode<P>)>> := AddChild(sh, curr, d, c).kids;
      forall n, i | n in kids && 0 <= i < |kids[n]| && kids[n][i].1 in kids
        ensures kids[n][i].1.distanceFromParent == kids[n][i].0
      {
        var pr := kids[n][i];
        if n == curr { AddedKid(metric, sh, curr, d, c, pr); }
        if n != c && pr in sh.kids[n] {
          KidsInTree(metric, sh, n);
          var j :| 0 <= j < |sh.kids[n]| && sh.kids[n][j] == pr;
        }
      }
    }

    ghost predicate CanAttach(curr: BkNode<P>, d: nat, c: BkNode<P>)
      reads this, lists, nodes`distanceFromParent, c, c.children, Foot(c)
    {
      && Valid() && root != null && CanAddChild(metric, Sh(), curr, d, c) && c.distanceFromParent == d
      && c.children.Valid() && c.children.Contents() == []
      && Foot(c) !! lists && c !in lists && Foot(c) !! nodes && c !in Foot(c) && this !in Foot(c)
    }

    // The heap half of linking `c` under `curr`.
    method LinkChild(curr: BkNode<P>, d: nat, c: BkNode<P>, ghost t: Shape<P>) returns (ghost newLists: set<object>)
      requires CanAttach(curr, d, c) && curr in paths && curr in kids && t == AddChild(Sh(), curr, d, c)
      modifies lists
      ensures ListsOk(t.kids, newLists) && LabelsStored(t.kids)
      ensures lists <= newLists && nodes + {c} !! newLists && this !in newLists
      ensures fresh(newLists - lists - Foot(c))
    {
      hide ListsOk, LabelsStored, DepthIs, ShapeOk, Routed, Dist, CanAddChild, SortedInsert, AddChild, Foot;
      ghost var sh := Sh();
      NewToTree(metric, sh, curr, d, c);
      FootIn(kids, lists, curr, c);
      InsertChild(curr, d, c, kids, lists);
      assert LabelsStored(sh.kids) by { assert old(LabelsStored(kids)); }
      LabelsStay(sh, curr, d, c);
      newLists := lists + Foot(curr) + Foot(c);
    }

    method Record(newDepth: nat, ghost newNodes: set<BkNode<P>>, ghost t: Shape<P>, ghost newLists: set<object>)
      requires root == t.root && this !in newLists   // root is already in place
      requires TreeInv(metric, t.root, newDepth, newNodes, t.paths, t.kids, newLists)
      modifies this
      ensures Valid() && nodes == newNodes && lists == newLists && root == old(root)
    {
      hide TreeInv;
      depth := newDepth;
      nodes, paths, kids, lists := newNodes, t.paths, t.kids, newLists;
    }

    // Links `c` under `curr`, which has no child with the label `d` yet.
    method Attach(curr: BkNode<P>, d: nat, c: BkNode<P>, localDepth: nat)
      requires CanAttach(curr, d, c) && localDepth == |paths[curr]| + 1
      modifies this, lists
      ensures Valid() && nodes == old(nodes) + {c} && fresh(lists - old(lists) - Foot(c))
    {
      hide TreeInv, ListsOk, LabelsStored, DepthIs, ShapeOk, Routed, Dist, CanAddChild;
      hide SortedInsert, AddChild, Foot, InSpace;
      NewToTree(metric, Sh(), curr, d, c);
      ghost var t := AddChild(Sh(), curr, d, c);
      AddChildKeepsShape(metric, Sh(), curr, d, c);
      ValidParts();
      var newDepth := if depth < localDepth then localDepth else depth;
      DepthStays(paths, depth, curr, c, newDepth);
      ghost var foot := Foot(c);
      ghost var newLists := LinkChild(curr, d, c, t);
      TreeInvHolds(metric, newDepth, nodes + {c}, t, newLists);
      Record(newDepth, nodes + {c}, t, newLists);
    }

    lemma ValidParts()
      requires Valid() && root != null
      ensures nodes == paths.Keys && nodes == kids.Keys && DepthIs(paths, depth) && nodes !! lists
    {
    }

    lemma NodesApart()
      requires Valid()
      ensures nodes !! lists && this !in lists
    {
    }

    // The child filed under the label `d`.
    method ChildAt(curr: BkNode<P>, d: nat) returns (next: BkNode?<P>)
      requires Valid() && curr in nodes
      ensures next == null ==> !HasPairKey(kids[curr], d)
      ensures next != null ==> (d, next) in kids[curr]
    {
      hide TreeInv, ShapeOk, KidsOk, InSpace, Dist, HasPairKey, SortedPairs;
      NodeFacts(curr);
      if curr.children.size > 0 {
        var res := curr.children.Find(d);
        return if res == null then null else res.val;
      } else {
        NoKids(kids[curr], d);
        return null;
      }
    }

    // Only nodes of the tree have labels the tree depends on.
    method SetLabel(newChild: BkNode<P>, d: nat)
      requires Valid() && newChild !in nodes && newChild !in lists
      modifies newChild`distanceFromParent
      ensures Valid() && newChild.distanceFromParent == d
    {
      hide TreeInv;
      newChild.distanceFromParent := d;
    }

    // The loop of insert: down the children filed under the distance to the new word, until
    // there is no such child.
    method Walk(newChild: BkNode<P>) returns (curr: BkNode<P>, d: nat, localDepth: nat)
      requires Valid() && root != null && InSpace(metric, newChild.word)
      requires newChild !in nodes && newChild !in lists
      modifies newChild`distanceFromParent
      ensures newChild.distanceFromParent == d
      ensures CanAddChild(metric, Sh(), curr, d, newChild) && localDepth == |paths[curr]| + 1
    {
      hide TreeInv, ShapeOk, Routed, InSpace, Dist, HasPairKey, SortedPairs, KidsOk;
      ValidParts();
      RouteStarts(newChild.word);
      curr := root;
      localDepth := 1;
      while true
        invariant Valid()
        invariant curr in nodes && Routed(metric, Sh(), paths[curr], newChild.word)
        invariant localDepth == |paths[curr]|
        decreases nodes - Elements(paths[curr])
      {
        localDepth := localDepth + 1;
        NodeFacts(curr);
        d := Distance(metric, curr.word, newChild.word);
        SetLabel(newChild, d);
        var next := ChildAt(curr, d);
        if next == null {
          return;
        }
        Descend(curr, next, newChild.word);
        curr := next;
      }
    }

    lemma NoKids(k: seq<(int, BkNode<P>)>, d: int)
      ensures k == [] ==> !HasPairKey(k, d)
    {
    }

    method Insert(word: string, payload: P) returns (ghost added: BkNode<P>)
      requires Valid() && InSpace(metric, word)
      modifies this, lists
      ensures Valid() && fresh(added) && added.word == word && added.payload == payload
      ensures nodes == old(nodes) + {added}
      ensures fresh(lists - old(lists))
    {
      hide TreeInv, ShapeOk, Routed, InSpace, Dist, SortedInsert, HasPairKey, SortedPairs, KidsOk;
      var newChild := new BkNode(word, payload);
      added := newChild;
      if root == null {
        EmptyTree();
        InsertRoot(newChild);
        return;
      }
      ValidParts();
      var curr, d, localDepth := Walk(newChild);
      Attach(curr, d, newChild, localDepth);
    }

    lemma EmptyTree()
      requires Valid() && root == null
      ensures nodes == {} && depth == 0
    {
    }
  }
}
