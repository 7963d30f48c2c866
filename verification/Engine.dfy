/** The engine of src/core.cpp in its own form: global tables and BK-trees that the calls of the
    client and the jobs of the threads change in place.

    Every method is tied to the transition system of EngineModel: `trace` records the steps taken
    so far, and `Valid` says that the tables and trees are those of the state the steps lead to.
    The methods RunAdd, BeginJob, ApplyHit and FinishDoc are the steps of the threads and may be
    called in any order between the calls of the client. */
module Engines {
  import opened Distances
  import opened Parsing
  import opened BkTrees
  import opened EngineModel

  type Tree = BkTree<seq<QueryID>>
  type Node = BkNode<seq<QueryID>>
  type Entries = map<Key, seq<QueryID>>

  // ------------------------------------------------ one tree and its part of the index

  // All a tree consists of.
  ghost function Own(t: Tree): set<object>
    reads t
  {
    {t} + t.lists + t.nodes
  }

  // The nodes of the tree are the index entries of its kind and space, one node per word.
  ghost predicate Held(t: Tree, kind: MatchType, index: Entries)
    reads t, t.nodes
  {
    && (forall n :: n in t.nodes ==> NodeHeld(t.metric, n, kind, index))
    && (forall a, b :: a in t.nodes && b in t.nodes && a.word == b.word ==> a == b)
    && (forall key {:trigger key in index} :: key in index && key.kind == kind && InSpace(t.metric, key.word) ==>
          HasNode(t.nodes, key.word))
  }

  ghost predicate NodeHeld(m: Metric, n: Node, kind: MatchType, index: Entries)
    reads n
  {
    InSpace(m, n.word) && Key(kind, n.word) in index && index[Key(kind, n.word)] == n.payload
  }

  ghost predicate HasNode(nodes: set<Node>, w: string) {
    exists n :: n in nodes && n.word == w
  }

  // One more query under a key, as RunAdd of the transition system has it.
  function Pushed(index: Entries, key: Key, id: QueryID): Entries {
    index[key := (if key in index then index[key] else []) + [id]]
  }

  lemma HeldElsewhere(t: Tree, kind: MatchType, index: Entries, key: Key, id: QueryID)
    requires Held(t, kind, index) && !(key.kind == kind && InSpace(t.metric, key.word))
    ensures Held(t, kind, Pushed(index, key, id))
  {
    hide InSpace;
    forall n | n in t.nodes ensures NodeHeld(t.metric, n, kind, Pushed(index, key, id)) {
      assert NodeHeld(t.metric, n, kind, index);
    }
  }

  // add_to_tree, which runs under the lock of the tree.
  method AddToTree(t: Tree, kind: MatchType, id: QueryID, word: string, ghost index: Entries)
    requires t.Valid() && InSpace(t.metric, word) && Held(t, kind, index)
    modifies Own(t)
    ensures t.Valid() && fresh(Own(t) - old(Own(t)))
    ensures Held(t, kind, Pushed(index, Key(kind, word), id))
  {
    hide BkTree.Valid, InSpace, Pushed;
    var found := t.Find(word);
    t.NodesApart();
    if found == null {
      NewEntry(t, kind, id, word, index);
    } else {
      ghost var was := found.payload;
      assert old(NodeHeld(t.metric, found, kind, index));
      found.payload := found.payload + [id];
      forall n | n in t.nodes && n != found ensures NodeHeld(t.metric, n, kind, index) {
        assert old(NodeHeld(t.metric, n, kind, index));
      }
      HeldAfterPush(t, kind, index, found, was, id);
    }
  }

  method NewEntry(t: Tree, kind: MatchType, id: QueryID, word: string, ghost index: Entries)
    requires t.Valid() && InSpace(t.metric, word) && Held(t, kind, index)
    requires forall n :: n in t.nodes ==> n.word != word
    modifies t, t.lists
    ensures t.Valid() && fresh(Own(t) - old(Own(t)))
    ensures Held(t, kind, Pushed(index, Key(kind, word), id))
  {
    hide BkTree.Valid, InSpace, Pushed;
    t.NodesApart();
    ghost var was := t.nodes;
    ghost var n := t.Insert(word, [id]);
    forall x | x in was ensures NodeHeld(t.metric, x, kind, index) {
      assert old(NodeHeld(t.metric, x, kind, index));
    }
    HeldAfterInsert(t, kind, index, was, n, id);
  }

  lemma HeldAfterPush(t: Tree, kind: MatchType, index: Entries, found: Node, was: seq<QueryID>, id: QueryID)
    requires found in t.nodes && found.payload == was + [id]
    requires InSpace(t.metric, found.word) && Key(kind, found.word) in index && index[Key(kind, found.word)] == was
    requires forall n :: n in t.nodes && n != found ==> NodeHeld(t.metric, n, kind, index)
    requires forall a, b :: a in t.nodes && b in t.nodes && a.word == b.word ==> a == b
    requires forall key {:trigger key in index} :: key in index && key.kind == kind && InSpace(t.metric, key.word) ==>
               HasNode(t.nodes, key.word)
    ensures Held(t, kind, Pushed(index, Key(kind, found.word), id))
  {
    hide InSpace, HasNode;
    var index' := Pushed(index, Key(kind, found.word), id);
    forall n | n in t.nodes ensures NodeHeld(t.metric, n, kind, index') {
      if n != found { assert NodeHeld(t.metric, n, kind, index); }
    }
  }

  lemma HeldAfterInsert(t: Tree, kind: MatchType, index: Entries, was: set<Node>, n: Node, id: QueryID)
    requires t.nodes == was + {n} && n.payload == [id] && InSpace(t.metric, n.word)
    requires forall x :: x in was ==> NodeHeld(t.metric, x, kind, index) && x.word != n.word
    requires forall a, b :: a in was && b in was && a.word == b.word ==> a == b
    requires forall key {:trigger key in index} :: key in index && key.kind == kind && InSpace(t.metric, key.word) ==>
               HasNode(was, key.word)
    ensures Held(t, kind, Pushed(index, Key(kind, n.word), id))
  {
    hide InSpace;
    var key := Key(kind, n.word);
    var index' := Pushed(index, key, id);
    assert key in index ==> HasNode(was, n.word);
    NodesGrow(was, n);
    hide HasNode;
    forall x | x in t.nodes ensures NodeHeld(t.metric, x, kind, index') {
      if x != n { assert NodeHeld(t.metric, x, kind, index); }
    }
  }

  lemma NodesGrow(nodes: set<Node>, n: Node)
    ensures HasNode(nodes + {n}, n.word)
    ensures forall w :: HasNode(nodes, w) ==> HasNode(nodes + {n}, w)
  {
    assert n in nodes + {n};
    forall w | HasNode(nodes, w) ensures HasNode(nodes + {n}, w) {
      var x :| x in nodes && x.word == w;
      assert x in nodes + {n};
    }
  }

  // ------------------------------------------------ what a match job reports

  // A hit of the traversal for threshold k.
  ghost predicate HitAt(s: State, job: Key, k: nat, h: Hit) {
    && Key(job.kind, h.word) in s.index && h.id in s.index[Key(job.kind, h.word)]
    && WordMatch(job.kind, k, h.word, job.word) && Wanted(s.queries, h.id, k)
  }

  // mq->active && iter.key() == mq->match_dist
  predicate Wanted(queries: map<QueryID, Query>, id: QueryID, k: nat) {
    id in queries && queries[id].active && k == queries[id].dist
  }

  // A hit of the traversals for the thresholds `ks`, those without active queries skipped.
  ghost predicate HitAmong(s: State, job: Key, ks: set<nat>, h: Hit) {
    exists k :: k in ks && Counted(s, job.kind, k) && HitAt(s, job, k, h)
  }

  ghost predicate Counted(s: State, kind: MatchType, k: nat) {
    k in s.counters && Count(s.counters[k], kind) != 0
  }

  lemma FoundIsHits(s: State, job: Key, h: Hit)
    requires job.kind != Exact
    ensures h in Found(s, job) <==> HitAmong(s, job, s.counters.Keys, h)
  {
    hide WordMatch, Found;
    FoundHit(s, job, h);
  }

  lemma SkippedThreshold(s: State, job: Key, ks: set<nat>, k: nat)
    requires !Counted(s, job.kind, k)
    ensures forall h :: HitAmong(s, job, ks + {k}, h) <==> HitAmong(s, job, ks, h)
  {
  }

  lemma MoreHits(s: State, job: Key, ks: set<nat>, k: nat)
    requires Counted(s, job.kind, k)
    ensures forall h :: HitAmong(s, job, ks + {k}, h) <==> HitAmong(s, job, ks, h) || HitAt(s, job, k, h)
  {
    hide HitAt;
    forall h ensures HitAmong(s, job, ks + {k}, h) <==> HitAmong(s, job, ks, h) || HitAt(s, job, k, h) {
      assert k in ks + {k};
      if HitAmong(s, job, ks, h) {
        var j :| j in ks && Counted(s, job.kind, j) && HitAt(s, job, j, h);
        assert j in ks + {k};
      }
    }
  }

  // Every identifier in an index is known.
  ghost predicate PayloadsKnown(s: State) {
    forall key, id :: key in s.index && id in s.index[key] ==> id in s.queries
  }

  lemma IndexKnowsQueries(s: State)
    requires IndexOk(s)
    ensures PayloadsKnown(s)
  {
    forall key, id | key in s.index && id in s.index[key] ensures id in s.queries {
      OccursInPayload(s, key, id);
      assert Occurs(s, key, id) == if Belongs(s, key, id) && AddJob(id, key.word) !in s.adds then 1 else 0;
    }
  }

  ghost predicate HitOfNode(n: Node, queries: map<QueryID, Query>, k: nat, h: Hit)
    reads n
  {
    h.word == n.word && h.id in n.payload && Wanted(queries, h.id, k)
  }

  // The queries of one matched word that ask for the threshold.
  method PayloadHits(n: Node, queries: map<QueryID, Query>, k: nat) returns (hits: seq<Hit>)
    requires forall id :: id in n.payload ==> id in queries
    ensures forall h :: h in hits <==> HitOfNode(n, queries, k, h)
  {
    hits := [];
    var payload := n.payload;
    for i := 0 to |payload|
      invariant forall h :: h in hits <==> h.word == n.word && h.id in payload[..i] && Wanted(queries, h.id, k)
    {
      var id := payload[i];
      assert payload[..i + 1] == payload[..i] + [id];
      if queries[id].active && k == queries[id].dist {
        hits := hits + [Hit(id, n.word)];
      }
    }
    assert payload[..|payload|] == payload;
  }

  ghost predicate HitOfSome(nodes: seq<Node>, queries: map<QueryID, Query>, k: nat, h: Hit)
    reads nodes
  {
    exists n :: n in nodes && HitOfNode(n, queries, k, h)
  }

  lemma OneMoreNode(nodes: seq<Node>, n: Node, queries: map<QueryID, Query>, k: nat)
    ensures forall h :: HitOfSome(nodes + [n], queries, k, h)
                        <==> HitOfSome(nodes, queries, k, h) || HitOfNode(n, queries, k, h)
  {
    hide HitOfNode;
    forall m ensures m in nodes + [n] <==> m in nodes || m == n {}
  }

  // The loop over the matched words.
  method NodeHits(nodes: seq<Node>, queries: map<QueryID, Query>, k: nat) returns (hits: seq<Hit>)
    requires forall n, id :: n in nodes && id in n.payload ==> id in queries
    ensures forall h :: h in hits <==> HitOfSome(nodes, queries, k, h)
  {
    hits := [];
    for i := 0 to |nodes|
      invariant forall h :: h in hits <==> HitOfSome(nodes[..i], queries, k, h)
    {
      hide HitOfNode, HitOfSome;
      var some := PayloadHits(nodes[i], queries, k);
      OneMoreNode(nodes[..i], nodes[i], queries, k);
      assert nodes[..i + 1] == nodes[..i] + [nodes[i]];
      hits := hits + some;
    }
    assert nodes[..|nodes|] == nodes;
  }

  // ------------------------------------------------ all indices

  // edit_bk_tree() is tree 0, hamming_bk_trees()[i] is tree 1 + i.
  const TREES := 1 + HAMMING_BK_TREES

  function MetricOf(i: nat): Metric {
    if i == 0 then EditMetric else HammingMetric(i - 1 + MIN_WORD_LENGTH)
  }

  function KindOf(i: nat): MatchType {
    if i == 0 then Edit else Hamming
  }

  function TreeNo(key: Key): nat
    requires key.kind != Exact && Indexable(key)
  {
    if key.kind == Edit then 0 else 1 + (|key.word| - MIN_WORD_LENGTH)
  }

  // A word to be indexed has one place among the trees.
  lemma PlaceIsUnique(key: Key, i: nat)
    requires Indexable(key) && i < TREES
    ensures key.kind == KindOf(i) && InSpace(MetricOf(i), key.word) <==> key.kind != Exact && i == TreeNo(key)
  {
  }

  // In a tree that holds the index, the hits of the matched nodes are the hits of the index.
  lemma NodeHitsAreHits(t: Tree, s: State, job: Key, k: nat, nodes: seq<Node>, h: Hit)
    requires Held(t, job.kind, s.index) && InSpace(t.metric, job.word)
    requires forall n :: n in nodes <==> n in t.nodes && Near(t.metric, n.word, job.word, k)
    requires forall key {:trigger key in s.index} :: key in s.index && key.kind == job.kind ==>
               (Near(t.metric, key.word, job.word, k) <==> WordMatch(job.kind, k, key.word, job.word))
    ensures HitOfSome(nodes, s.queries, k, h) <==> HitAt(s, job, k, h)
  {
    hide WordMatch, Wanted, Dist;
    var key := Key(job.kind, h.word);
    if HitOfSome(nodes, s.queries, k, h) {
      var n :| n in nodes && HitOfNode(n, s.queries, k, h);
      assert NodeHeld(t.metric, n, job.kind, s.index);
    }
    if HitAt(s, job, k, h) {
      assert Near(t.metric, key.word, job.word, k);
      assert HasNode(t.nodes, key.word);
      var n :| n in t.nodes && n.word == key.word;
      assert NodeHeld(t.metric, n, job.kind, s.index);
      assert n in nodes && HitOfNode(n, s.queries, k, h);
    }
  }

  // In the tree of a document word, near means matching.
  lemma NearIsMatch(job: Key, k: nat, w: string)
    requires Indexable(job) && Indexable(Key(job.kind, w)) && job.kind != Exact
    ensures InSpace(MetricOf(TreeNo(job)), job.word)
    ensures Near(MetricOf(TreeNo(job)), w, job.word, k) <==> WordMatch(job.kind, k, w, job.word)
  {
    hide Lev, Ham;
  }

  // What one tree has to be, and the part of the heap it may use.
  ghost predicate TreeOk(t: Tree, i: nat, entries: Entries)
    reads t, t.lists, t.nodes
  {
    t.Valid() && t.metric == MetricOf(i) && Held(t, KindOf(i), entries)
  }

  // The exact table holds the entries of its kind; every indexed word has a place.
  ghost predicate ExactOk(exact: map<string, seq<QueryID>>, entries: Entries) {
    && (forall w :: w in exact <==> Key(Exact, w) in entries)
    && (forall w :: w in exact ==> exact[w] == entries[Key(Exact, w)])
    && (forall key :: key in entries ==> Indexable(key))
  }

  lemma ExactGrows(exact: map<string, seq<QueryID>>, entries: Entries, key: Key, id: QueryID)
    requires ExactOk(exact, entries) && Indexable(key)
    ensures key.kind != Exact ==> ExactOk(exact, Pushed(entries, key, id))
    ensures key.kind == Exact ==>
              ExactOk(exact[key.word := (if key.word in exact then exact[key.word] else []) + [id]],
                      Pushed(entries, key, id))
  {
    assert key.kind == Exact ==> (key.word in exact <==> key in entries);
  }

  // The exact table and the trees of the engine.
  class Index {
    var exact: map<string, seq<QueryID>>
    const trees: seq<Tree>
    ghost var entries: Entries
    ghost var repr: set<object>

    ghost predicate Valid()
      reads this, repr
    {
      && this in repr && |trees| == TREES && TreesApart()
      && (forall i {:trigger trees[i]} :: 0 <= i < TREES ==> TreeOk(trees[i], i, entries))
      && ExactOk(exact, entries)
    }

    ghost predicate TreesApart()
      requires this in repr
      reads this, repr
    {
      && (forall i {:trigger trees[i]} :: 0 <= i < |trees| ==>
            trees[i] in repr && Own(trees[i]) <= repr && this !in Own(trees[i]))
      && (forall i, j :: 0 <= i < j < |trees| ==> Own(trees[i]) !! Own(trees[j]))
    }

    constructor ()
      ensures Valid() && fresh(repr) && entries == map[]
    {
      hide TreeOk;
      var ts := NewTrees();
      exact, trees, entries := map[], ts, map[];
      new;
      repr := {this as object} + (set t: object | t in ts);
    }

    static method NewTrees() returns (ts: seq<Tree>)
      ensures |ts| == TREES && (forall i, j :: 0 <= i < j < TREES ==> ts[i] != ts[j])
      ensures forall i {:trigger ts[i]} :: 0 <= i < TREES ==>
                fresh(ts[i]) && Own(ts[i]) == {ts[i]} && TreeOk(ts[i], i, map[])
    {
      hide BkTree.Valid;
      ts := [];
      for i := 0 to TREES
        invariant |ts| == i && (forall j, k :: 0 <= j < k < i ==> ts[j] != ts[k])
        invariant forall j {:trigger ts[j]} :: 0 <= j < i ==>
                    fresh(ts[j]) && Own(ts[j]) == {ts[j]} && TreeOk(ts[j], j, map[])
      {
        var t := new BkTree<seq<QueryID>>(MetricOf(i));
        ts := ts + [t];
      }
    }

    // add_to_hash_table
    method AddToHashTable(id: QueryID, word: string)
      requires Valid() && Allowed(word)
      modifies this
      ensures Valid() && repr == old(repr) && entries == Pushed(old(entries), Key(Exact, word), id)
    {
      hide TreeOk, ExactOk, Pushed;
      OtherTrees(Key(Exact, word), id, TREES);
      ExactGrows(exact, entries, Key(Exact, word), id);
      ghost var none: seq<QueryID> := [];
      assert none + [id] == [id];
      if word !in exact {
        exact := exact[word := [id]];
      } else {
        exact := exact[word := exact[word] + [id]];
      }
      entries := Pushed(entries, Key(Exact, word), id);
    }

    // The trees but tree k, if there is one, are not concerned by an entry for tree k.
    lemma OtherTrees(key: Key, id: QueryID, k: nat)
      requires Valid() && Indexable(key) && k == if key.kind == Exact then TREES else TreeNo(key)
      ensures forall i {:trigger trees[i]} :: 0 <= i < TREES && i != k ==> TreeOk(trees[i], i, Pushed(entries, key, id))
    {
      hide BkTree.Valid, Held, Pushed;
      forall i {:trigger trees[i]} | 0 <= i < TREES && i != k ensures TreeOk(trees[i], i, Pushed(entries, key, id)) {
        assert TreeOk(trees[i], i, entries);
        PlaceIsUnique(key, i);
        HeldElsewhere(trees[i], KindOf(i), entries, key, id);
      }
    }

    // One insertion job, in the tree or table that StartQuery chose for it.
    method Add(key: Key, id: QueryID)
      requires Valid() && Indexable(key)
      modifies repr
      ensures Valid() && fresh(repr - old(repr)) && entries == Pushed(old(entries), key, id)
    {
      if key.kind == Exact {
        AddToHashTable(id, key.word);
      } else {
        AddTo(TreeNo(key), key, id);
      }
    }

    method AddTo(k: nat, key: Key, id: QueryID)
      requires Valid() && Indexable(key) && key.kind != Exact && k == TreeNo(key)
      modifies repr
      ensures Valid() && fresh(repr - old(repr)) && entries == Pushed(old(entries), key, id)
    {
      hide BkTree.Valid, Held, Pushed, ExactOk;
      OtherTrees(key, id, k);
      ExactGrows(exact, entries, key, id);
      PlaceIsUnique(key, k);
      assert TreeOk(trees[k], k, entries);
      AddToTree(trees[k], KindOf(k), id, key.word, entries);
      forall i {:trigger trees[i]} | 0 <= i < TREES && i != k
        ensures Own(trees[i]) == old(Own(trees[i])) && TreeOk(trees[i], i, Pushed(entries, key, id))
      {
      }
      hide Own, TreeOk;
      entries := Pushed(entries, key, id);
      repr := repr + Own(trees[k]);
    }

    // The body of the loop of match_queries, for one threshold.
    method MatchAt(job: Key, k: nat, queries: map<QueryID, Query>, ghost s: State) returns (hits: seq<Hit>)
      requires Valid() && Indexable(job) && job.kind != Exact
      requires s.index == entries && s.queries == queries && PayloadsKnown(s)
      ensures forall h :: h in hits <==> HitAt(s, job, k, h)
    {
      hide BkTree.Valid, WordMatch, Wanted, Near, HitOfSome, HitAt, InSpace, MetricOf, TreesApart;
      var i := TreeNo(job);
      var t := trees[i];
      assert TreeOk(t, i, entries);
      NearIsMatch(job, k, job.word);
      var nodes := t.Match(k, job.word);
      forall n, id | n in nodes && id in n.payload ensures id in queries {
        assert NodeHeld(t.metric, n, job.kind, entries);
      }
      hits := NodeHits(nodes, queries, k);
      forall key {:trigger key in s.index} | key in s.index && key.kind == job.kind
        ensures Near(t.metric, key.word, job.word, k) <==> WordMatch(job.kind, k, key.word, job.word)
      {
        NearIsMatch(job, k, key.word);
      }
      forall h ensures h in hits <==> HitAt(s, job, k, h) {
        NodeHitsAreHits(t, s, job, k, nodes, h);
      }
    }

    // match_queries: one traversal per threshold that has active queries of the kind.
    method MatchQueries(job: Key, queries: map<QueryID, Query>, counters: map<nat, Counters>, ghost s: State)
      returns (hits: seq<Hit>)
      requires Valid() && Indexable(job) && job.kind != Exact
      requires s.index == entries && s.queries == queries && s.counters == counters && PayloadsKnown(s)
      ensures forall h :: h in hits <==> h in Found(s, job)
    {
      hide Valid, HitAt, Found, PayloadsKnown;
      hits := [];
      var thresholds := counters.Keys;
      ghost var seen: set<nat> := {};
      while thresholds != {}
        invariant seen + thresholds == counters.Keys
        invariant forall h :: h in hits <==> HitAmong(s, job, seen, h)
      {
        var k :| k in thresholds;
        thresholds := thresholds - {k};
        ghost var before := seen;
        seen := seen + {k};
        if Count(counters[k], job.kind) == 0 {
          SkippedThreshold(s, job, before, k);
          continue;
        }
        var some := MatchAt(job, k, queries, s);
        MoreHits(s, job, before, k);
        hits := hits + some;
      }
      assert seen == counters.Keys;
      forall h ensures h in hits <==> h in Found(s, job) {
        FoundIsHits(s, job, h);
      }
    }

    // match_exact
    method MatchExact(job: Key, queries: map<QueryID, Query>, ghost s: State) returns (hits: seq<Hit>)
      requires Valid() && job.kind == Exact
      requires s.index == entries && s.queries == queries && PayloadsKnown(s)
      ensures forall h :: h in hits <==> h in Found(s, job)
    {
      hide TreesApart, TreeOk;
      hits := [];
      if job.word in exact {
        var payload := exact[job.word];
        assert payload == s.index[job];
        for i := 0 to |payload|
          invariant forall h :: h in hits <==> h.word == job.word && h.id in payload[..i] && queries[h.id].active
        {
          var id := payload[i];
          assert payload[..i + 1] == payload[..i] + [id];
          if queries[id].active {
            hits := hits + [Hit(id, job.word)];
          }
        }
        assert payload[..|payload|] == payload;
      }
      forall h ensures h in hits <==> h in Found(s, job) {
        FoundHit(s, job, h);
      }
    }
  }

  // ------------------------------------------------ the engine

  // `now` continues `was` with steps of the threads only.
  predicate Extends(was: seq<Event>, now: seq<Event>) {
    was <= now && forall i :: |was| <= i < |now| ==> Internal(now[i])
  }

  predicate IsLeast(m: QueryID, s: set<QueryID>) {
    m in s && forall x :: x in s ==> m <= x
  }

  // The smallest element of a set, as qsort finds it first.
  method Least(s: set<QueryID>) returns (m: QueryID)
    requires s != {}
    ensures IsLeast(m, s)
  {
    m :| m in s;
    var rest := s - {m};
    while rest != {}
      invariant m in s && rest <= s && forall x :: x in s && x !in rest ==> m <= x
    {
      var x :| x in rest;
      rest := rest - {x};
      if x < m {
        m := x;
      }
    }
  }

  // qsort on the answer of a document.
  method SortIds(answer: set<QueryID>) returns (ids: seq<QueryID>)
    ensures Lists(ids, answer)
  {
    ids := [];
    var rest := answer;
    while rest != {}
      invariant rest <= answer && Ascending(ids)
      invariant forall id :: id in ids <==> id in answer && id !in rest
      invariant forall id, y :: id in ids && y in rest ==> id < y
    {
      var m := Least(rest);
      OneMoreId(ids, m);
      ids, rest := ids + [m], rest - {m};
    }
  }

  // The end of match_doc: the identifiers of the matched queries, sorted.
  method CollectAnswer(results: map<QueryID, QueryResult>) returns (ids: seq<QueryID>)
    ensures Lists(ids, Matched(results))
  {
    hide Lists;
    var answer: set<QueryID>, rest := {}, results.Keys;
    while rest != {}
      invariant rest <= results.Keys
      invariant forall id :: id in answer <==> id in results && id !in rest && results[id].matched
    {
      var id :| id in rest;
      rest := rest - {id};
      if results[id].matched {
        answer := answer + {id};
      }
    }
    assert answer == Matched(results);
    ids := SortIds(answer);
  }

  // parse_string on a C string, each word put into a hash set.
  method ParseWords(text: string) returns (words: set<string>)
    requires '\0' !in text
    ensures words == TextWords(text)
  {
    hide Tokens;
    UntilOfWord(text, ['\0'], '\0');
    assert (text + ['\0'])[..|text|] == text;
    var tokens := ParseString(text + ['\0'], ' ');
    words := {};
    for i := 0 to |tokens|
      invariant words == set w | w in tokens[..i]
    {
      words := words + {tokens[i]};
      assert tokens[..i + 1] == tokens[..i] + [tokens[i]];
    }
    assert tokens[..|tokens|] == tokens;
  }

  // The insertion jobs StartQuery submits.
  method AddJobs(id: QueryID, words: set<string>) returns (jobs: set<AddJob>)
    ensures jobs == set w | w in words :: AddJob(id, w)
  {
    jobs := {};
    var rest := words;
    while rest != {}
      invariant rest <= words && jobs == set w | w in words - rest :: AddJob(id, w)
    {
      var w :| w in rest;
      rest := rest - {w};
      jobs := jobs + {AddJob(id, w)};
    }
  }

  // The jobs match_doc submits, three per word.
  method MatchJobs(words: set<string>) returns (jobs: set<Key>)
    ensures jobs == Jobs(words)
  {
    jobs := {};
    var rest := words;
    while rest != {}
      invariant rest <= words && jobs == Jobs(words - rest)
    {
      var w :| w in rest;
      assert words - (rest - {w}) == words - rest + {w};
      OneMoreWord(words - rest, w);
      rest := rest - {w};
      jobs := jobs + {Key(Edit, w), Key(Hamming, w), Key(Exact, w)};
    }
  }

  lemma OneMoreWord(words: set<string>, w: string)
    ensures Jobs(words + {w}) == Jobs(words) + {Key(Edit, w), Key(Hamming, w), Key(Exact, w)}
  {
  }

  class Engine {
    var queries: map<QueryID, Query>
    var counters: map<nat, Counters>
    const index: Index
    var adds: set<AddJob>              // the insertion jobs not run yet
    var started: bool                  // query_has_started
    var docs: map<DocID, DocRun>       // the documents being matched, with the state of their jobs
    var finished: seq<Answer>          // finished_results
    ghost var promised: map<DocID, set<QueryID>>
    ghost var delivered: seq<Answer>
    ghost var trace: seq<Event>

    ghost function Abs(): State
      reads this, index
    {
      State(queries, counters, index.entries, adds, started, docs, finished, promised, delivered)
    }

    // The documents submitted and not delivered: the client can count them.
    ghost function Undelivered(): set<DocID>
      reads this
    {
      docs.Keys + DocsOf(finished)
    }

    ghost predicate Valid()
      reads this, index, index.repr
    {
      this !in index.repr && index.Valid() && IsRun(trace) && After(trace) == Abs()
    }

    constructor ()
      ensures Valid() && fresh(index) && fresh(index.repr) && trace == []
      ensures Undelivered() == {} && queries == map[] && promised == map[] && delivered == []
    {
      queries, counters, adds, started, docs, finished := map[], map[], {}, false, map[], [];
      index := new Index();
      promised, delivered, trace := map[], [], [];
    }

    ghost method Log(e: Event, was: State)
      requires this !in index.repr && index.Valid() && IsRun(trace) && was == After(trace)
      requires Enabled(was, e) && Disciplined(was, e) && Abs() == Next(was, e)
      modifies this`trace
      ensures Valid() && trace == old(trace) + [e] && Abs() == old(Abs())
    {
      hide Enabled, Disciplined, Next, Index.Valid;
      OneMoreStep(trace, e);
      trace := trace + [e];
    }

    lemma Known()
      requires Valid()
      ensures Inv(Abs()) && PayloadsKnown(Abs())
    {
      hide Enabled, Disciplined, Next, Index.Valid;
      RunKeepsInv(trace);
      IndexKnowsQueries(Abs());
    }

    // ---------------------------------------------- the steps of the threads

    // One insertion job.
    method RunAdd(job: AddJob)
      requires Valid() && job in adds
      modifies this`adds, this`trace, index.repr
      ensures Valid() && trace == old(trace) + [Event.RunAdd(job)] && Abs() == Next(old(Abs()), Event.RunAdd(job))
      ensures fresh(index.repr - old(index.repr))
    {
      hide Index.Valid, IsRun, After;
      ghost var s := Abs();
      Known();
      var key := Key(queries[job.id].kind, job.word);
      index.Add(key, job.id);
      adds := adds - {job};
      Log(Event.RunAdd(job), s);
    }

    // The start of one match job of a document, in the tree or table of the job.
    method BeginJob(doc: DocID, key: Key) returns (hits: seq<Hit>)
      requires Valid() && doc in docs && key in docs[doc].todo
      modifies this`docs, this`trace
      ensures Valid() && trace == old(trace) + [Event.BeginJob(doc, key, hits)]
      ensures Abs() == Next(old(Abs()), Event.BeginJob(doc, key, hits))
    {
      hide Index.Valid, IsRun, After, Found, Enabled, Disciplined, Next, Inv, PayloadsKnown, Indexable;
      ghost var s := Abs();
      Known();
      JobHasPlace(doc, key);
      if key.kind == Exact {
        hits := index.MatchExact(key, queries, s);
      } else {
        hits := index.MatchQueries(key, queries, counters, s);
      }
      BeginStep(s, doc, key, hits);
      var r := docs[doc];
      docs := docs[doc := r.(todo := r.todo - {key}, streams := r.streams + [hits])];
      Log(Event.BeginJob(doc, key, hits), s);
    }

    lemma JobHasPlace(doc: DocID, key: Key)
      requires Inv(Abs()) && doc in docs && key in docs[doc].todo
      ensures Indexable(key)
    {
      hide Summarises, AllNaive, FoundOrLeft, NaiveAmong;
      assert DocOk(Abs(), Abs().docs[doc], Abs().promised[doc]);
    }

    // One call of add_query_to_doc_results, which runs under the lock of the result table.
    method ApplyHit(doc: DocID, i: nat)
      requires Valid() && doc in docs && i < |docs[doc].streams| && docs[doc].streams[i] != []
      modifies this`docs, this`trace
      ensures Valid() && trace == old(trace) + [Event.ApplyHit(doc, i)]
      ensures Abs() == Next(old(Abs()), Event.ApplyHit(doc, i))
    {
      hide Index.Valid, IsRun, After, AddResult, Enabled, Disciplined, Next, Inv, PayloadsKnown;
      ghost var s := Abs();
      Known();
      HitIsKnown(doc, i);
      HitStep(s, doc, i);
      var r := docs[doc];
      var h := r.streams[i][0];
      var results := AddQueryToDocResults(r.results, queries[h.id], h.id, h.word);
      docs := docs[doc := DocRun(r.words, r.todo, r.streams[i := r.streams[i][1..]], results, r.applied + {h})];
      Log(Event.ApplyHit(doc, i), s);
    }

    lemma HitIsKnown(doc: DocID, i: nat)
      requires Inv(Abs()) && doc in docs && i < |docs[doc].streams| && docs[doc].streams[i] != []
      ensures docs[doc].streams[i][0].id in queries
    {
      hide Summarises, NaiveAmong, FoundOrLeft;
      var s, r := Abs(), docs[doc];
      assert DocOk(s, s.docs[doc], s.promised[doc]);
      NaiveIsLegal(s.queries, r);
      var st := r.streams[i];
      assert st in r.streams && st[0] in st;
      assert st[0] in Hits(r);
    }

    static method AddQueryToDocResults(results: map<QueryID, QueryResult>, q: Query, id: QueryID, word: string)
      returns (rt: map<QueryID, QueryResult>)
      ensures rt == AddResult(results, q, Hit(id, word))
    {
      rt := results;
      if id !in rt {
        rt := rt[id := QueryResult(false, {word})];
      } else {
        if rt[id].matched {
          return;
        }
        rt := rt[id := rt[id].(words := rt[id].words + {word})];
      }
      if |rt[id].words| == |q.words| {
        rt := rt[id := QueryResult(true, {})];
      }
    }

    // The end of match_doc.
    method FinishDoc(doc: DocID) returns (ids: seq<QueryID>)
      requires Valid() && doc in docs && docs[doc].todo == {} && forall st :: st in docs[doc].streams ==> st == []
      modifies this`docs, this`finished, this`trace
      ensures Valid() && trace == old(trace) + [Event.FinishDoc(doc, ids)]
      ensures Abs() == Next(old(Abs()), Event.FinishDoc(doc, ids))
    {
      hide Index.Valid, IsRun, After, Lists, Matched;
      ghost var s := Abs();
      ids := CollectAnswer(docs[doc].results);
      docs := docs - {doc};
      finished := finished + [Answer(doc, ids)];
      Log(Event.FinishDoc(doc, ids), s);
    }

    // ---------------------------------------------- waiting for the threads

    method BeginAll(doc: DocID)
      requires Valid() && doc in docs
      modifies this`docs, this`trace
      ensures Valid() && Extends(old(trace), trace)
      ensures doc in docs && docs - {doc} == old(docs) - {doc} && docs[doc].todo == {}
    {
      hide Index.Valid, IsRun, After, Enabled, Found;
      while docs[doc].todo != {}
        invariant Valid() && Extends(old(trace), trace)
        invariant doc in docs && docs - {doc} == old(docs) - {doc}
        decreases docs[doc].todo
      {
        var key :| key in docs[doc].todo;
        ghost var hits := BeginJob(doc, key);
      }
    }

    method DeliverAll(doc: DocID)
      requires Valid() && doc in docs && docs[doc].todo == {}
      modifies this`docs, this`trace
      ensures Valid() && Extends(old(trace), trace)
      ensures doc in docs && docs - {doc} == old(docs) - {doc} && docs[doc].todo == {}
      ensures forall st :: st in docs[doc].streams ==> st == []
    {
      hide Index.Valid, IsRun, After, Enabled;
      var i := 0;
      while i < |docs[doc].streams|
        invariant Valid() && Extends(old(trace), trace)
        invariant doc in docs && docs - {doc} == old(docs) - {doc} && docs[doc].todo == {}
        invariant i <= |docs[doc].streams| && forall j :: 0 <= j < i ==> docs[doc].streams[j] == []
        decreases |docs[doc].streams| - i
      {
        DeliverStream(doc, i);
        i := i + 1;
      }
    }

    method DeliverStream(doc: DocID, i: nat)
      requires Valid() && doc in docs && i < |docs[doc].streams|
      modifies this`docs, this`trace
      ensures Valid() && Extends(old(trace), trace)
      ensures doc in docs && docs - {doc} == old(docs) - {doc} && docs[doc].todo == old(docs[doc].todo)
      ensures docs[doc].streams == old(docs[doc].streams)[i := []]
    {
      hide Index.Valid, IsRun, After, Enabled, AddResult;
      while docs[doc].streams[i] != []
        invariant Valid() && Extends(old(trace), trace)
        invariant doc in docs && docs - {doc} == old(docs) - {doc} && docs[doc].todo == old(docs[doc].todo)
        invariant |docs[doc].streams| == |old(docs[doc].streams)|
        invariant docs[doc].streams == old(docs[doc].streams)[i := docs[doc].streams[i]]
        decreases |docs[doc].streams[i]|
      {
        ApplyHit(doc, i);
      }
    }

    // All that is left of match_doc.
    method RunDoc(doc: DocID)
      requires Valid() && doc in docs
      modifies this`docs, this`finished, this`trace
      ensures Valid() && Extends(old(trace), trace) && docs == old(docs) - {doc}
      ensures finished != [] && Undelivered() == old(Undelivered())
    {
      hide Index.Valid, IsRun, After, Enabled;
      BeginAll(doc);
      DeliverAll(doc);
      ghost var before := finished;
      ghost var ids := FinishDoc(doc);
      DocsOfMore(before, Answer(doc, ids));
      assert old(docs).Keys == docs.Keys + {doc};
    }

    // wait_all_finish: the threads go on until no job is left.
    method WaitAllFinish()
      requires Valid()
      modifies this`adds, this`docs, this`finished, this`trace, index.repr
      ensures Valid() && fresh(index.repr - old(index.repr))
      ensures Extends(old(trace), trace) && adds == {} && docs == map[] && Undelivered() == old(Undelivered())
    {
      hide Index.Valid, IsRun, After, Enabled, DocsOf;
      while adds != {}
        invariant Valid() && fresh(index.repr - old(index.repr)) && Extends(old(trace), trace)
        invariant Undelivered() == old(Undelivered())
        decreases adds
      {
        var job :| job in adds;
        RunAdd(job);
      }
      while docs.Keys != {}
        invariant Valid() && fresh(index.repr - old(index.repr)) && Extends(old(trace), trace) && adds == {}
        invariant Undelivered() == old(Undelivered())
        decreases docs.Keys
      {
        var doc :| doc in docs.Keys;
        RunDoc(doc);
      }
    }

    // ---------------------------------------------- the calls of the client

    method StartQuery(id: QueryID, text: string, kind: MatchType, dist: nat)
      requires Valid() && Disciplined(Abs(), Event.StartQuery(id, text, kind, dist)) && '\0' !in text
      modifies this`queries, this`counters, this`adds, this`started, this`trace
      ensures Valid() && trace == old(trace) + [Event.StartQuery(id, text, kind, dist)]
      ensures queries == old(queries)[id := Query(kind, dist, TextWords(text), true)]
    {
      hide Index.Valid, IsRun, After, TextWords, GoodQuery, Harmless;
      ghost var s := Abs();
      started := true;
      var words := ParseWords(text);
      var jobs := AddJobs(id, words);
      adds := adds + jobs;
      CountQuery(kind, dist);
      queries := queries[id := Query(kind, dist, words, true)];
      Log(Event.StartQuery(id, text, kind, dist), s);
    }

    // The entry of thresholdCounters for a new query.
    method CountQuery(kind: MatchType, dist: nat)
      modifies this`counters
      ensures counters == Bump(old(counters), kind, dist, 1)
    {
      match kind
      case Edit =>
        if dist !in counters {
          counters := counters[dist := Counters(0, 1)];
        } else {
          counters := counters[dist := counters[dist].(edit := counters[dist].edit + 1)];
        }
      case Hamming =>
        if dist !in counters {
          counters := counters[dist := Counters(1, 0)];
        } else {
          counters := counters[dist := counters[dist].(hamming := counters[dist].hamming + 1)];
        }
      case Exact =>
    }

    method EndQuery(id: QueryID) returns (ok: bool)
      requires Valid() && Disciplined(Abs(), Event.EndQuery(id))
      modifies this`queries, this`counters, this`adds, this`docs, this`finished, this`trace, index.repr
      ensures Valid() && fresh(index.repr - old(index.repr)) && ok == (id in old(queries))
      ensures trace != [] && Extends(old(trace), trace[..|trace| - 1]) && trace[|trace| - 1] == Event.EndQuery(id)
      ensures queries == if ok then old(queries)[id := old(queries)[id].(active := false)] else old(queries)
      ensures Undelivered() == old(Undelivered())
    {
      hide Index.Valid, IsRun, After, DocsOf;
      WaitAllFinish();
      ghost var s := Abs();
      ok := id in queries;
      if ok {
        Deactivate(id);
      }
      Log(Event.EndQuery(id), s);
    }

    // The counter of the query is there, since it was counted when it started.
    method Deactivate(id: QueryID)
      requires Valid() && id in queries && queries[id].active
      modifies this`queries, this`counters
      ensures queries == old(queries)[id := old(queries)[id].(active := false)]
      ensures counters == Bump(old(counters), old(queries)[id].kind, old(queries)[id].dist, -1)
    {
      hide Index.Valid, IsRun, After;
      Known();
      var q := queries[id];
      if q.kind != Exact {
        ActiveIsCounted(Abs(), id);
        var c := counters[q.dist];
        counters := counters[q.dist := if q.kind == Edit then c.(edit := c.edit - 1) else c.(hamming := c.hamming - 1)];
      }
      queries := queries[id := q.(active := false)];
    }

    method MatchDocument(doc: DocID, text: string)
      requires Valid() && Disciplined(Abs(), Event.MatchDocument(doc, text)) && '\0' !in text
      modifies this`adds, this`started, this`docs, this`finished, this`promised, this`trace, index.repr
      ensures Valid() && fresh(index.repr - old(index.repr))
      ensures trace != [] && Extends(old(trace), trace[..|trace| - 1])
      ensures trace[|trace| - 1] == Event.MatchDocument(doc, text)
      ensures !old(started) ==> trace == old(trace) + [Event.MatchDocument(doc, text)]   // no barrier
      ensures promised.Keys == old(promised).Keys + {doc} && Undelivered() == old(Undelivered()) + {doc}
    {
      hide Index.Valid, IsRun, After, GoodDocument, DocsOf, Disciplined;
      MatchIsPolite(Abs(), doc, text);
      if started {
        WaitAllFinish();
      }
      Submit(doc, text);
    }

    // MatchDocument behind its barrier.
    method Submit(doc: DocID, text: string)
      requires Valid() && doc !in promised && GoodDocument(text) && '\0' !in text
      requires started ==> adds == {} && docs == map[]
      modifies this`started, this`docs, this`promised, this`trace
      ensures Valid() && trace == old(trace) + [Event.MatchDocument(doc, text)]
      ensures promised.Keys == old(promised).Keys + {doc} && Undelivered() == old(Undelivered()) + {doc}
    {
      hide Index.Valid, IsRun, After, TextWords, GoodDocument, Jobs, Matching, DocsOf, Next, Enabled, Disciplined;
      var words := ParseWords(text);
      var jobs := MatchJobs(words);
      ghost var s := Abs();
      MatchStep(s, doc, text);
      started := false;
      docs := docs[doc := DocRun(words, jobs, [], map[], {})];
      promised := promised[doc := Matching(queries, words)];
      Log(Event.MatchDocument(doc, text), s);
    }

    lemma MatchIsPolite(s: State, doc: DocID, text: string)
      requires Disciplined(s, Event.MatchDocument(doc, text))
      ensures doc !in s.promised && GoodDocument(text)
    {
    }

    lemma AllAccounted()
      requires Valid()
      ensures Accounted(Abs())
    {
      hide Index.Valid;
      EveryDocumentOnce(trace);
    }

    // Blocks until a document is done.  The document has not been returned before; the answer
    // goes back to its one MatchDocument call, and lists the queries the client expects for it.
    method GetNextAvailRes() returns (doc: DocID, ids: seq<QueryID>, ghost call: nat)
      requires Valid() && Undelivered() != {}
      modifies this`docs, this`finished, this`delivered, this`trace
      ensures Valid()
      ensures trace != [] && Extends(old(trace), trace[..|trace| - 1]) && trace[|trace| - 1] == Event.GetNextAvailRes
      ensures NaiveAnswer(trace, Answer(doc, ids), call)
      ensures doc in old(Undelivered()) && Undelivered() == old(Undelivered()) - {doc}
      ensures doc !in DocsOf(old(delivered)) && delivered == old(delivered) + [Answer(doc, ids)]
      ensures old(finished) != [] ==>
                trace == old(trace) + [Event.GetNextAvailRes] && Answer(doc, ids) == old(finished[0])
    {
      hide Index.Valid, IsRun, After, DocsOf, NaiveAnswer;
      if finished == [] {
        NoAnswers();
        var some :| some in docs.Keys;
        RunDoc(some);
      }
      doc, ids, call := TakeFirst();
    }

    // peek and dequeue on finished_results, which is not empty.
    method TakeFirst() returns (doc: DocID, ids: seq<QueryID>, ghost call: nat)
      requires Valid() && finished != []
      modifies this`finished, this`delivered, this`trace
      ensures Valid() && trace == old(trace) + [Event.GetNextAvailRes] && NaiveAnswer(trace, Answer(doc, ids), call)
      ensures doc in old(Undelivered()) && Undelivered() == old(Undelivered()) - {doc}
      ensures doc !in DocsOf(old(delivered)) && delivered == old(delivered) + [Answer(doc, ids)]
      ensures Answer(doc, ids) == old(finished[0])
    {
      hide Index.Valid, IsRun, After, OneEach, DocsOf, NaiveAnswer, Disciplined;
      ghost var s := Abs();
      AllAccounted();
      FirstIsNew(delivered, finished, docs.Keys);
      call := AnswersAreNaive(trace, finished[0]);
      NaiveLater(trace, finished[0], call, Event.GetNextAvailRes);
      doc, ids := finished[0].doc, finished[0].ids;
      finished, delivered := finished[1..], delivered + [finished[0]];
      assert Disciplined(s, Event.GetNextAvailRes) by { GetIsDisciplined(s); }
      Log(Event.GetNextAvailRes, s);
    }

    lemma GetIsDisciplined(s: State)
      ensures Disciplined(s, Event.GetNextAvailRes)
    {
    }

    // The driver between two batches: as many results as documents are outstanding.
    method DrainResults() returns (answers: seq<Answer>)
      requires Valid()
      modifies this`docs, this`finished, this`delivered, this`trace
      ensures Valid() && Undelivered() == {} && docs == map[] && finished == []
      ensures delivered == old(delivered) + answers && DocsOf(answers) == old(Undelivered()) && OneEach(answers)
      ensures forall a :: a in answers ==> exists call :: NaiveAnswer(trace, a, call)
    {
      hide Index.Valid, IsRun, After, DocsOf, OneEach, NaiveAnswer, Extends;
      answers := [];
      NoAnswers();
      OneEachOfNone();
      while finished != [] || docs.Keys != {}
        invariant Valid() && delivered == old(delivered) + answers && OneEach(answers)
        invariant DocsOf(answers) + Undelivered() == old(Undelivered()) && DocsOf(answers) !! Undelivered()
        decreases Undelivered()
      {
        SomeOutstanding();
        var doc, ids, call := GetNextAvailRes();
        OneMoreAnswer(answers, Answer(doc, ids));
        answers := answers + [Answer(doc, ids)];
      }
      forall a | a in answers ensures exists call :: NaiveAnswer(trace, a, call) {
        DeliveredIsNaive(a);
      }
    }

    lemma DeliveredIsNaive(a: Answer)
      requires Valid() && a in delivered
      ensures exists call :: NaiveAnswer(trace, a, call)
    {
      hide Index.Valid, IsRun, After;
      var call := AnswersAreNaive(trace, a);
    }

    lemma SomeOutstanding()
      requires finished != [] || docs.Keys != {}
      ensures Undelivered() != {}
    {
      if finished != [] {
        assert finished[0] in finished;
        assert finished[0].doc in Undelivered();
      }
    }

    // One batch of the driver: the documents are submitted, then all results are fetched.
    method Batch(batch: seq<(DocID, string)>) returns (answers: seq<Answer>)
      requires Valid() && FreshBatch(batch, promised)
      modifies this`adds, this`started, this`docs, this`finished, this`promised, this`delivered, this`trace, index.repr
      ensures Valid() && fresh(index.repr - old(index.repr)) && docs == map[] && finished == []
      ensures OneEach(answers) && DocsOf(answers) == old(Undelivered()) + BatchDocs(batch)
      ensures forall a :: a in answers ==> exists call :: NaiveAnswer(trace, a, call)
    {
      SubmitAll(batch);
      answers := DrainResults();
    }

    method SubmitAll(batch: seq<(DocID, string)>)
      requires Valid() && FreshBatch(batch, promised)
      modifies this`adds, this`started, this`docs, this`finished, this`promised, this`trace, index.repr
      ensures Valid() && fresh(index.repr - old(index.repr))
      ensures Undelivered() == old(Undelivered()) + BatchDocs(batch)
    {
      hide Index.Valid, IsRun, After, DocsOf, Extends, GoodDocument, Abs, Disciplined, BatchDocs, FreshBatch;
      NoBatchDocs(batch);
      for i := 0 to |batch|
        invariant Valid() && fresh(index.repr - old(index.repr))
        invariant promised.Keys == old(promised).Keys + BatchDocs(batch[..i])
        invariant Undelivered() == old(Undelivered()) + BatchDocs(batch[..i])
      {
        NextIsFresh(batch, old(promised), i);
        FreshIsDisciplined(batch[i].0, batch[i].1);
        MatchDocument(batch[i].0, batch[i].1);
      }
      assert batch[..|batch|] == batch;
    }

    lemma FreshIsDisciplined(doc: DocID, text: string)
      requires doc !in promised && GoodDocument(text)
      ensures Disciplined(Abs(), Event.MatchDocument(doc, text))
    {
    }
  }

  // ------------------------------------------------ answers and their documents

  ghost function BatchDocs(batch: seq<(DocID, string)>): set<DocID> {
    set p | p in batch :: p.0
  }

  // Good documents, each with an identifier not used before.
  ghost predicate FreshBatch(batch: seq<(DocID, string)>, promised: map<DocID, set<QueryID>>) {
    && (forall i :: 0 <= i < |batch| ==> batch[i].0 !in promised && GoodDocument(batch[i].1) && '\0' !in batch[i].1)
    && (forall i, j :: 0 <= i < j < |batch| ==> batch[i].0 != batch[j].0)
  }

  lemma NextIsFresh(batch: seq<(DocID, string)>, promised: map<DocID, set<QueryID>>, i: nat)
    requires FreshBatch(batch, promised) && i < |batch|
    ensures batch[i].0 !in promised && batch[i].0 !in BatchDocs(batch[..i])
    ensures GoodDocument(batch[i].1) && '\0' !in batch[i].1
    ensures BatchDocs(batch[..i + 1]) == BatchDocs(batch[..i]) + {batch[i].0}
  {
    hide GoodDocument;
    assert batch[..i + 1] == batch[..i] + [batch[i]];
  }

  lemma NoBatchDocs(batch: seq<(DocID, string)>)
    ensures BatchDocs(batch[..0]) == {}
  {
  }

  lemma NoAnswers()
    ensures DocsOf([]) == {}
  {
  }

  lemma OneEachOfNone()
    ensures OneEach([])
  {
  }

  lemma DocsOfMore(answers: seq<Answer>, a: Answer)
    ensures DocsOf(answers + [a]) == DocsOf(answers) + {a.doc}
  {
    assert forall b :: b in answers + [a] <==> b in answers || b == a;
  }

  // The first finished answer is of a document that is neither delivered nor finished twice.
  lemma FirstIsNew(delivered: seq<Answer>, finished: seq<Answer>, docs: set<DocID>)
    requires finished != [] && OneEach(delivered + finished) && docs !! DocsOf(delivered + finished)
    ensures finished[0].doc !in DocsOf(delivered) && finished[0].doc !in docs && finished[0].doc in DocsOf(finished)
    ensures DocsOf(finished[1..]) == DocsOf(finished) - {finished[0].doc}
  {
    var all, n, a := delivered + finished, |delivered|, finished[0];
    assert all[n] == a && a in all;
    forall b | b in delivered ensures b.doc != a.doc {
      var i :| 0 <= i < n && delivered[i] == b;
      assert all[i] == b;
    }
    forall b | b in finished[1..] ensures b.doc != a.doc {
      var i :| 0 <= i < |finished| - 1 && finished[1..][i] == b;
      assert all[n + 1 + i] == b;
    }
    hide OneEach;
    assert finished == [a] + finished[1..];
    assert forall b :: b in finished <==> b == a || b in finished[1..];
  }

  lemma NaiveLater(es: seq<Event>, a: Answer, call: nat, e: Event)
    requires NaiveAnswer(es, a, call)
    ensures NaiveAnswer(es + [e], a, call)
  {
    assert (es + [e])[..call] == es[..call];
  }
}
