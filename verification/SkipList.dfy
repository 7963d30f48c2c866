/** The skip list of include/qs/skip_list.hpp, on linked nodes.

    Keys are integers compared by subtraction, as in the only instantiation of the engine
    (include/qs/bk_tree.hpp:27-29).  The height of a new tower is an arbitrary choice, so every
    contract here holds for every outcome of the random generator. */
module SkipLists {

  class SkipNode<V> {
    const key: int
    const val: V
    ghost const level: nat
    var next: SkipNode?<V>
    var prev: SkipNode?<V>
    var top: SkipNode?<V>
    var bottom: SkipNode?<V>

    constructor (key: int, val: V, ghost level: nat)
      ensures this.key == key && this.val == val && this.level == level
      ensures next == null && prev == null && top == null && bottom == null
    {
      this.key, this.val, this.level := key, val, level;
      next, prev, top, bottom := null, null, null, null;
    }
  }

  // ------------------------------------------------ sorted sequences of nodes

  ghost predicate Ascending<V>(s: seq<SkipNode<V>>) {
    forall i, j :: 0 <= i < j < |s| ==> s[i].key < s[j].key
  }

  // How many leading nodes have a smaller key.
  ghost function Rank<V>(s: seq<SkipNode<V>>, k: int): (r: nat)
    ensures r <= |s|
    ensures forall i :: 0 <= i < r ==> s[i].key < k
    ensures r < |s| ==> k <= s[r].key
  {
    if s == [] || k <= s[0].key then 0 else 1 + Rank(s[1..], k)
  }

  lemma RankUnique<V>(s: seq<SkipNode<V>>, k: int, r: nat)
    requires Ascending(s) && r <= |s|
    requires r > 0 ==> s[r - 1].key < k
    requires r < |s| ==> k <= s[r].key
    ensures Rank(s, k) == r
  {
  }

  ghost predicate HasKey<V>(s: seq<SkipNode<V>>, k: int) {
    exists i :: 0 <= i < |s| && s[i].key == k
  }

  // The last node with a smaller key, null when there is none.
  ghost function Pred<V>(s: seq<SkipNode<V>>, k: int): SkipNode?<V> {
    if Rank(s, k) == 0 then null else s[Rank(s, k) - 1]
  }

  // The first node with a key that is not smaller.
  ghost function Succ<V>(s: seq<SkipNode<V>>, k: int): SkipNode?<V> {
    if Rank(s, k) == |s| then null else s[Rank(s, k)]
  }

  ghost function InsertAt<T>(s: seq<T>, p: nat, x: T): seq<T>
    requires p <= |s|
  {
    s[..p] + [x] + s[p..]
  }

  lemma InsertKeepsAscending<V>(s: seq<SkipNode<V>>, n: SkipNode<V>)
    requires Ascending(s) && !HasKey(s, n.key)
    ensures Ascending(InsertAt(s, Rank(s, n.key), n))
  {
    var r := Rank(s, n.key);
    var t := InsertAt(s, r, n);
    assert forall i :: 0 <= i < r ==> t[i] == s[i] && s[i].key < n.key;
    assert forall i :: r <= i < |s| ==> n.key < s[i].key;
    hide Rank, HasKey;
    assert forall i :: r < i < |t| ==> t[i] == s[i - 1];
    forall i, j | 0 <= i < j < |t| ensures t[i].key < t[j].key {
      if i != r && j != r { assert s[if i < r then i else i - 1].key < s[if j < r then j else j - 1].key; }
    }
  }

  // ------------------------------------------------ the abstract content

  // A map kept as a strictly ascending sequence of (key, value) pairs.
  predicate SortedPairs<V>(s: seq<(int, V)>) {
    forall i, j :: 0 <= i < j < |s| ==> s[i].0 < s[j].0
  }

  function PairRank<V>(s: seq<(int, V)>, k: int): (r: nat)
    ensures r <= |s|
    ensures forall i :: 0 <= i < r ==> s[i].0 < k
    ensures r < |s| ==> k <= s[r].0
  {
    if s == [] || k <= s[0].0 then 0 else 1 + PairRank(s[1..], k)
  }

  // Inserting a pair keeps what is there when the key is present, and otherwise puts the
  // pair at its place in the order.
  function SortedInsert<V>(s: seq<(int, V)>, k: int, v: V): seq<(int, V)> {
    var r := PairRank(s, k);
    if r < |s| && s[r].0 == k then s else s[..r] + [(k, v)] + s[r..]
  }

  predicate HasPairKey<V>(s: seq<(int, V)>, k: int) {
    exists i :: 0 <= i < |s| && s[i].0 == k
  }

  lemma SortedInsertPresent<V>(s: seq<(int, V)>, k: int, v: V)
    requires SortedPairs(s) && HasPairKey(s, k)
    ensures SortedInsert(s, k, v) == s
  {
    var i :| 0 <= i < |s| && s[i].0 == k;
    assert i == PairRank(s, k);
  }

  // A new key: the order is kept and exactly the new pair is added.
  lemma SortedInsertAbsent<V>(s: seq<(int, V)>, k: int, v: V)
    requires SortedPairs(s) && !HasPairKey(s, k)
    ensures SortedPairs(SortedInsert(s, k, v)) && |SortedInsert(s, k, v)| == |s| + 1
    ensures forall p :: p in SortedInsert(s, k, v) <==> p in s || p == (k, v)
  {
    var r := PairRank(s, k);
    assert forall i :: r <= i < |s| ==> k < s[i].0;
    SplicedOrder(s, k, v, r);
    SplicedMembers(s, r, (k, v));
  }

  lemma SplicedOrder<V>(s: seq<(int, V)>, k: int, v: V, r: nat)
    requires SortedPairs(s) && r <= |s|
    requires forall i :: 0 <= i < r ==> s[i].0 < k
    requires forall i :: r <= i < |s| ==> k < s[i].0
    ensures SortedPairs(s[..r] + [(k, v)] + s[r..])
  {
  }

  lemma SplicedMembers<T>(s: seq<T>, r: nat, x: T)
    requires r <= |s|
    ensures forall p :: p in s[..r] + [x] + s[r..] <==> p in s || p == x
  {
    var t := s[..r] + [x] + s[r..];
    forall p | p in s ensures p in t {
      var i :| 0 <= i < |s| && s[i] == p;
      assert t[if i < r then i else i + 1] == p;
    }
    assert t[r] == x;
  }

  ghost function Pairs<V>(s: seq<SkipNode<V>>): (t: seq<(int, V)>)
    ensures |t| == |s| && forall i :: 0 <= i < |s| ==> t[i] == (s[i].key, s[i].val)
  {
    seq(|s|, i requires 0 <= i < |s| => (s[i].key, s[i].val))
  }

  lemma {:induction false} PairsRank<V>(s: seq<SkipNode<V>>, k: int)
    ensures PairRank(Pairs(s), k) == Rank(s, k)
  {
    if s != [] && s[0].key < k {
      PairsRank(s[1..], k);
      assert Pairs(s)[1..] == Pairs(s[1..]);
    }
  }

  lemma PairsInsert<V>(s: seq<SkipNode<V>>, n: SkipNode<V>)
    requires Ascending(s) && !HasKey(s, n.key)
    ensures Pairs(InsertAt(s, Rank(s, n.key), n)) == SortedInsert(Pairs(s), n.key, n.val)
  {
    PairsRank(s, n.key);
    var r := Rank(s, n.key);
    assert r < |s| ==> s[r].key != n.key;
    PairsSpliced(s, r, n);
  }

  lemma PairsSpliced<V>(s: seq<SkipNode<V>>, r: nat, n: SkipNode<V>)
    requires r <= |s|
    ensures Pairs(InsertAt(s, r, n)) == Pairs(s)[..r] + [(n.key, n.val)] + Pairs(s)[r..]
  {
  }

  // `t` is `s` with a node for (k, v) at its place.
  ghost predicate Grown<V>(s: seq<SkipNode<V>>, t: seq<SkipNode<V>>, k: int, v: V) {
    var r := Rank(s, k);
    |t| == |s| + 1 && t[r].key == k && t[r].val == v && t == InsertAt(s, r, t[r])
  }

  lemma GrownPairs<V>(s: seq<SkipNode<V>>, t: seq<SkipNode<V>>, k: int, v: V)
    requires Ascending(s) && !HasKey(s, k) && Grown(s, t, k, v)
    ensures Pairs(t) == SortedInsert(Pairs(s), k, v)
  {
    PairsInsert(s, t[Rank(s, k)]);
  }

  lemma GrownLength<V>(s: seq<SkipNode<V>>, t: seq<SkipNode<V>>, k: int, v: V)
    requires Grown(s, t, k, v)
    ensures |t| == |s| + 1
  {
  }

  lemma IsGrown<V>(s: seq<SkipNode<V>>, n: SkipNode<V>)
    ensures Grown(s, InsertAt(s, Rank(s, n.key), n), n.key, n.val)
  {
  }

  lemma PairsPresent<V>(s: seq<SkipNode<V>>, k: int, v: V)
    requires Ascending(s) && HasKey(s, k)
    ensures SortedInsert(Pairs(s), k, v) == Pairs(s)
  {
    PairsRank(s, k);
    var i :| 0 <= i < |s| && s[i].key == k;
    assert i == Rank(s, k);
  }

  // ------------------------------------------------ links

  // `own` holds exactly the nodes of `s`.
  ghost predicate Members<V>(s: seq<SkipNode<V>>, own: set<SkipNode<V>>) {
    && (forall i :: 0 <= i < |s| ==> s[i] in own)
    && (forall n :: n in own ==> n in s)
  }

  // prev and next are mutually inverse and follow the order of `s`.
  ghost predicate Linked<V>(s: seq<SkipNode<V>>, own: set<SkipNode<V>>)
    requires Members(s, own)
    reads own`next, own`prev
  {
    && (forall i {:trigger s[i].prev} :: 0 <= i < |s| ==> s[i].prev == if i == 0 then null else s[i - 1])
    && (forall i {:trigger s[i].next} :: 0 <= i < |s| ==> s[i].next == if i + 1 < |s| then s[i + 1] else null)
  }

  ghost predicate OnLevel<V>(own: set<SkipNode<V>>, i: nat) {
    forall n :: n in own ==> n.level == i
  }

  lemma OnLevelAdd<V>(own: set<SkipNode<V>>, n: SkipNode<V>, i: nat)
    requires OnLevel(own, i) && n.level == i
    ensures OnLevel(own + {n}, i)
  {
  }

  lemma LevelNodes<V>(own: set<SkipNode<V>>, i: nat)
    requires OnLevel(own, i)
    ensures forall n :: n in own ==> n.level == i
  {
  }

  // One level of the list.
  ghost predicate LevelInv<V>(s: seq<SkipNode<V>>, own: set<SkipNode<V>>, head: SkipNode?<V>)
    reads own`next, own`prev
  {
    && Members(s, own)
    && Ascending(s)
    && Linked(s, own)
    && head == if s == [] then null else s[0]
  }

  // All levels of a list; `all` holds the nodes of all of them.
  ghost predicate Owned<V>(own: seq<set<SkipNode<V>>>, all: set<SkipNode<V>>) {
    forall i :: 0 <= i < |own| ==> own[i] <= all && OnLevel(own[i], i)
  }

  ghost predicate Horizontal<V>(lv: seq<seq<SkipNode<V>>>, own: seq<set<SkipNode<V>>>, all: set<SkipNode<V>>,
                                heads: seq<SkipNode?<V>>)
    requires |lv| == |own| == |heads| && Owned(own, all)
    reads all`next, all`prev
  {
    forall i {:trigger own[i]} :: 0 <= i < |own| ==> LevelInv(lv[i], own[i], heads[i])
  }

  lemma OthersApart<V>(own: seq<set<SkipNode<V>>>, all: set<SkipNode<V>>, i: nat, touched: set<SkipNode<V>>)
    requires Owned(own, all) && i < |own|
    requires forall m :: m in touched ==> m.level == i
    ensures forall j {:trigger own[j]} :: 0 <= j < |own| && j != i ==> own[j] !! touched
  {
  }

  lemma LevelsApartFrom<V>(own: seq<set<SkipNode<V>>>, all: set<SkipNode<V>>, i: nat, j: nat)
    requires Owned(own, all) && i < |own| && j < |own| && i != j
    ensures own[i] !! own[j] && (i > 0 && j > 0 ==> own[i - 1] !! own[j - 1])
  {
  }

  lemma OneLevelChanged<V>(lv: seq<seq<SkipNode<V>>>, own: seq<set<SkipNode<V>>>, all: set<SkipNode<V>>,
                           heads: seq<SkipNode?<V>>, i: nat, s: seq<SkipNode<V>>, n: SkipNode<V>)
    requires |lv| == |own| == |heads| && Owned(own, all) && i < |own| && n.level == i
    requires forall j {:trigger own[j]} :: 0 <= j < |own| && j != i ==> LevelInv(lv[j], own[j], heads[j])
    requires LevelInv(s, own[i] + {n}, heads[i])
    ensures Owned(own[i := own[i] + {n}], all + {n})
    ensures Horizontal(lv[i := s], own[i := own[i] + {n}], all + {n}, heads)
  {
    hide LevelInv;
  }

  // top and bottom between two neighbouring levels are mutually inverse and keep the datum;
  // every node of the upper level stands on a node of the lower one.
  ghost predicate Stacked<V>(lower: set<SkipNode<V>>, upper: set<SkipNode<V>>)
    reads lower`top, upper`bottom
  {
    && (forall n :: n in upper ==> n.bottom != null && n.bottom in lower && n.bottom.top == n
                                   && n.bottom.key == n.key && n.bottom.val == n.val)
    && (forall m :: m in lower && m.top != null ==> m.top in upper && m.top.bottom == m)
  }

  ghost predicate StackedAt<V>(own: seq<set<SkipNode<V>>>, i: nat)
    requires 0 < i < |own|
    reads own[i - 1]`top, own[i]`bottom
  {
    Stacked(own[i - 1], own[i])
  }

  type LinkMap<V> = map<SkipNode<V>, SkipNode?<V>>

  ghost function NextOf<V>(own: set<SkipNode<V>>): LinkMap<V>
    reads own`next
  {
    map m | m in own :: m.next
  }

  ghost function PrevOf<V>(own: set<SkipNode<V>>): LinkMap<V>
    reads own`prev
  {
    map m | m in own :: m.prev
  }

  // LevelInv on the links of an earlier state.
  ghost predicate WasLevel<V>(s: seq<SkipNode<V>>, own: set<SkipNode<V>>, head: SkipNode?<V>,
                              next: LinkMap<V>, prev: LinkMap<V>)
  {
    && Members(s, own)
    && Ascending(s)
    && next.Keys == own && prev.Keys == own
    && (forall i {:trigger s[i]} :: 0 <= i < |s| ==>
          && s[i] in own
          && next[s[i]] == (if i + 1 < |s| then s[i + 1] else null)
          && prev[s[i]] == (if i == 0 then null else s[i - 1]))
    && head == if s == [] then null else s[0]
  }

  lemma Snapshot<V>(s: seq<SkipNode<V>>, own: set<SkipNode<V>>, head: SkipNode?<V>)
    requires LevelInv(s, own, head)
    ensures WasLevel(s, own, head, NextOf(own), PrevOf(own))
  {
    forall i | 0 <= i < |s|
      ensures s[i] in own && s[i].next == (if i + 1 < |s| then s[i + 1] else null)
      ensures s[i].prev == (if i == 0 then null else s[i - 1])
    {
    }
  }

  // All pairs of neighbouring levels; the ground level stands on nothing and the highest
  // level carries nothing.
  ghost predicate Vertical<V>(own: seq<set<SkipNode<V>>>, all: set<SkipNode<V>>)
    requires Owned(own, all) && own != []
    reads all`top, all`bottom
  {
    && (forall i :: 0 < i < |own| ==> StackedAt(own, i))
    && (forall n :: n in own[0] ==> n.bottom == null)
    && (forall n :: n in own[|own| - 1] ==> n.top == null)
  }

  lemma TowerGrows<V>(own: seq<set<SkipNode<V>>>, all: set<SkipNode<V>>, i: nat, n: SkipNode<V>, below: SkipNode?<V>)
    requires Owned(own, all) && i < |own| && n !in all && n.level == i && n.top == null
    requires forall j :: 0 < j < |own| && j != i ==> StackedAt(own, j)
    requires i > 0 ==> Stacked(own[i - 1], own[i] + {n})
    requires n.bottom == below && (i == 0 ==> below == null)
    requires forall m :: m in own[0] ==> m.bottom == null
    requires forall m :: m in own[|own| - 1] ==> m.top == null
    ensures Owned(own[i := own[i] + {n}], all + {n})
    ensures Vertical(own[i := own[i] + {n}], all + {n})
  {
    var own' := own[i := own[i] + {n}];
    assert Owned(own', all + {n}) by {
      OnLevelAdd(own[i], n, i);
    }
    hide Stacked, OnLevel, Owned;
    forall j | 0 < j < |own| ensures StackedAt(own', j) {
      if j == i + 1 {
        assert StackedAt(own, j);
        StackedOnMore(own[i], own[j], n);
      } else if j != i {
        assert StackedAt(own, j);
      }
    }
  }

  lemma StackedOnMore<V>(lower: set<SkipNode<V>>, upper: set<SkipNode<V>>, n: SkipNode<V>)
    requires Stacked(lower, upper) && n.top == null
    ensures Stacked(lower + {n}, upper)
  {
  }

  ghost function Only<V>(n: SkipNode?<V>): set<SkipNode<V>> {
    if n == null then {} else {n}
  }

  // The neighbours of a key that is not on the level.
  lemma Neighbours<V>(s: seq<SkipNode<V>>, own: set<SkipNode<V>>, head: SkipNode?<V>, k: int)
    requires LevelInv(s, own, head)
    ensures Pred(s, k) != null ==> Pred(s, k) in own && Pred(s, k).next == Succ(s, k)
    ensures Pred(s, k) == null ==> head == Succ(s, k)
    ensures Succ(s, k) != null ==> Succ(s, k) in own && Succ(s, k) != Pred(s, k)
  {
    var r := Rank(s, k);
    if r > 0 { assert s[r - 1].next == Succ(s, k); }
  }

  // The pointer updates of `LinkPointers`, given the links of the state before them.
  lemma LevelAfterInsert<V>(s: seq<SkipNode<V>>, own: set<SkipNode<V>>, n: SkipNode<V>,
                            oldHead: SkipNode?<V>, head: SkipNode?<V>, next: LinkMap<V>, prev: LinkMap<V>)
    requires WasLevel(s, own, oldHead, next, prev) && n !in own && !HasKey(s, n.key)
    requires n.prev == Pred(s, n.key) && n.next == Succ(s, n.key)
    requires forall m {:trigger m.next} :: m in own ==> m.next == if m == Pred(s, n.key) then n else next[m]
    requires forall m {:trigger m.prev} :: m in own ==> m.prev == if m == Succ(s, n.key) then n else prev[m]
    requires head == if Pred(s, n.key) == null then n else oldHead
    ensures LevelInv(InsertAt(s, Rank(s, n.key), n), own + {n}, head)
  {
    InsertKeepsAscending(s, n);
    MembersAfterInsert(s, own, Rank(s, n.key), n);
    LinkedAfterInsert(s, own, n, oldHead, next, prev);
  }

  lemma MembersAfterInsert<V>(s: seq<SkipNode<V>>, own: set<SkipNode<V>>, r: nat, n: SkipNode<V>)
    requires Members(s, own) && r <= |s|
    ensures Members(InsertAt(s, r, n), own + {n})
  {
    var t := InsertAt(s, r, n);
    forall m | m in own + {n} ensures m in t {
      if m in own {
        var i :| 0 <= i < |s| && s[i] == m;
        assert t[if i < r then i else i + 1] == m;
      } else {
        assert t[r] == m;
      }
    }
  }

  lemma LinkedAfterInsert<V>(s: seq<SkipNode<V>>, own: set<SkipNode<V>>, n: SkipNode<V>, oldHead: SkipNode?<V>,
                             next: LinkMap<V>, prev: LinkMap<V>)
    requires WasLevel(s, own, oldHead, next, prev) && n !in own
    requires n.prev == Pred(s, n.key) && n.next == Succ(s, n.key)
    requires forall m {:trigger m.next} :: m in own ==> m.next == if m == Pred(s, n.key) then n else next[m]
    requires forall m {:trigger m.prev} :: m in own ==> m.prev == if m == Succ(s, n.key) then n else prev[m]
    requires Members(InsertAt(s, Rank(s, n.key), n), own + {n})
    ensures Linked(InsertAt(s, Rank(s, n.key), n), own + {n})
  {
    var r := Rank(s, n.key);
    var t := InsertAt(s, r, n);
    DistinctNodes(s);
    assert |t| == |s| + 1;
    hide InsertAt, Rank, Members, Ascending;
    forall i {:trigger t[i].prev} | 0 <= i < |t| ensures t[i].prev == if i == 0 then null else t[i - 1] {
      LinksAfterInsert(s, own, n, oldHead, next, prev, r, t, i);
    }
    forall i {:trigger t[i].next} | 0 <= i < |t| ensures t[i].next == if i + 1 < |t| then t[i + 1] else null {
      LinksAfterInsert(s, own, n, oldHead, next, prev, r, t, i);
    }
  }

  lemma LinksAfterInsert<V>(s: seq<SkipNode<V>>, own: set<SkipNode<V>>, n: SkipNode<V>, oldHead: SkipNode?<V>,
                            next: LinkMap<V>, prev: LinkMap<V>, r: nat, t: seq<SkipNode<V>>, i: nat)
    requires WasLevel(s, own, oldHead, next, prev) && r == Rank(s, n.key) && t == InsertAt(s, r, n) && i <= |s|
    requires forall i, j :: 0 <= i < |s| && 0 <= j < |s| && i != j ==> s[i] != s[j]
    requires n.prev == Pred(s, n.key) && n.next == Succ(s, n.key)
    requires forall m {:trigger m.next} :: m in own ==> m.next == if m == Pred(s, n.key) then n else next[m]
    requires forall m {:trigger m.prev} :: m in own ==> m.prev == if m == Succ(s, n.key) then n else prev[m]
    ensures t[i].prev == if i == 0 then null else t[i - 1]
    ensures t[i].next == if i + 1 < |t| then t[i + 1] else null
  {
    hide Rank, Members, Ascending, InsertAt;
    InsertAtIndex(s, r, n, i);
    if i != r {
      var j := if i < r then i else i - 1;
      assert t[i] == s[j] && s[j] in own;
    }
  }

  lemma InsertAtIndex<T>(s: seq<T>, r: nat, x: T, i: nat)
    requires r <= |s| && i <= |s|
    ensures |InsertAt(s, r, x)| == |s| + 1
    ensures InsertAt(s, r, x)[i] == if i < r then s[i] else if i == r then x else s[i - 1]
    ensures i > 0 ==> InsertAt(s, r, x)[i - 1] == if i <= r then s[i - 1] else if i == r + 1 then x else s[i - 2]
    ensures i < |s| ==> InsertAt(s, r, x)[i + 1] == if i + 1 < r then s[i + 1] else if i + 1 == r then x else s[i]
  {
  }

  lemma DistinctNodes<V>(s: seq<SkipNode<V>>)
    requires Ascending(s)
    ensures forall i, j :: 0 <= i < |s| && 0 <= j < |s| && i != j ==> s[i] != s[j]
  {
  }

  lemma EmptyLevels<V>(lv: seq<seq<SkipNode<V>>>, own: seq<set<SkipNode<V>>>, heads: seq<SkipNode?<V>>)
    requires |lv| == |own| == |heads| > 0
    requires forall i :: 0 <= i < |own| ==> lv[i] == [] && own[i] == {} && heads[i] == null
    ensures Owned(own, {}) && Horizontal(lv, own, {}, heads) && Vertical(own, {})
  {
  }

  lemma NoPairs<V>()
    ensures Pairs<V>([]) == []
  {
  }

  class SkipList<V> {
    const levels: nat
    var nodes: array<SkipNode?<V>>   // the head of each level
    var size: nat
    var data: seq<(int, V)>          // data_list: every value ever offered, in order
    ghost var lv: seq<seq<SkipNode<V>>>
    ghost var own: seq<set<SkipNode<V>>>
    ghost var all: set<SkipNode<V>>

    ghost predicate Levels()
      reads this, nodes, all`next, all`prev
    {
      && levels >= 1
      && |nodes[..]| == levels == |lv| == |own|
      && Owned(own, all)
      && Horizontal(lv, own, all, nodes[..])
    }

    ghost predicate Towers()
      requires Levels()
      reads this, nodes, all
    {
      Vertical(own, all)
    }

    ghost predicate Valid()
      reads this, nodes, all
    {
      Levels() && Towers() && size == |lv[0]|
    }

    ghost function Contents(): (s: seq<(int, V)>)
      requires Valid()
      reads this, nodes, all
      ensures SortedPairs(s) && |s| == size
    {
      assert LevelInv(lv[0], own[0], nodes[0]);
      Pairs(lv[0])
    }

    constructor (levels: nat)
      requires levels >= 1
      ensures Valid() && Contents() == [] && all == {} && fresh(nodes)
    {
      hide Pairs, SortedPairs, Rank, Owned, Horizontal, Vertical;
      this.levels := levels;
      data := [];
      nodes := new SkipNode?<V>[levels](_ => null);
      size := 0;
      lv := seq(levels, _ => []);
      own := seq(levels, _ => {});
      all := {};
      new;
      EmptyLevels(lv, own, nodes[..]);
      assert Pairs(lv[0]) == [] by { NoPairs<V>(); }
    }

    // The pointer updates of insert_with_path on one level.  `succ` is the node behind `pred`,
    // or the head when there is no `pred`.
    method LinkPointers(i: nat, pred: SkipNode?<V>, n: SkipNode<V>, ghost succ: SkipNode?<V>)
      requires i < nodes.Length && n.next == null && n != pred && n != succ && (pred == succ ==> pred == null)
      requires succ == if pred == null then nodes[i] else pred.next
      modifies nodes, n`next, n`prev, Only(pred)`next, Only(succ)`prev
      ensures n.prev == pred && n.next == succ
      ensures pred != null ==> pred.next == n
      ensures succ != null ==> succ.prev == n
      ensures nodes[..] == old(if pred == null then nodes[..][i := n] else nodes[..])
    {
      n.prev := pred;
      if pred == null {
        if nodes[i] != null {
          n.next := nodes[i];
          nodes[i].prev := n;
        }
        nodes[i] := n;
      } else {
        n.next := pred.next;
        if pred.next != null {
          pred.next.prev := n;
        }
        pred.next := n;
      }
    }

    ghost predicate CanLink(i: nat, pred: SkipNode?<V>, n: SkipNode<V>)
      reads this, nodes, n, all`next, all`prev
    {
      && Levels() && i < levels
      && n !in all && n.level == i && n.next == null
      && !HasKey(lv[i], n.key) && pred == Pred(lv[i], n.key)
    }

    method LinkNodes(i: nat, pred: SkipNode?<V>, n: SkipNode<V>)
      requires CanLink(i, pred, n)
      modifies nodes, n`next, n`prev, own[i]`next, own[i]`prev
      ensures LevelInv(InsertAt(lv[i], Rank(lv[i], n.key), n), own[i] + {n}, nodes[i])
      ensures nodes[..] == old(nodes[..])[i := nodes[i]]
    {
      hide LevelInv, OnLevel, WasLevel, Rank, Pred, Succ, HasKey, InsertAt;
      ghost var s, was, succ := lv[i], nodes[i], Succ(lv[i], n.key);
      ghost var next, prev := NextOf(own[i]), PrevOf(own[i]);
      assert own[i] <= all && LevelInv(s, own[i], nodes[..][i]);
      Snapshot(s, own[i], was);
      Neighbours(s, own[i], was, n.key);
      LinkPointers(i, pred, n, succ);
      LevelAfterInsert(s, own[i], n, was, nodes[i], next, prev);
    }

    // Puts `n` behind `pred` on level `i`: the horizontal half of insert_with_path's loop body.
    method Link(i: nat, pred: SkipNode?<V>, n: SkipNode<V>)
      requires CanLink(i, pred, n)
      modifies this`lv, this`own, this`all, nodes, n`next, n`prev, own[i]`next, own[i]`prev
      ensures Levels()
      ensures all == old(all) + {n}
      ensures own == old(own[i := own[i] + {n}])
      ensures lv == old(lv[i := InsertAt(lv[i], Rank(lv[i], n.key), n)])
    {
      hide LevelInv, OnLevel, Rank, Pred, HasKey, InsertAt;
      LevelNodes(own[i], i);
      OthersApart(own, all, i, {n} + own[i]);
      LinkNodes(i, pred, n);
      forall j | 0 <= j < |own| && j != i
        ensures LevelInv(lv[j], own[j], nodes[..][j])
      {
        assert old(LevelInv(lv[j], own[j], nodes[..][j]));
      }
      ghost var t := InsertAt(lv[i], Rank(lv[i], n.key), n);
      OneLevelChanged(lv, own, all, nodes[..], i, t, n);
      lv, own, all := lv[i := t], own[i := own[i] + {n}], all + {n};
    }

    // Puts the new node on top of the tower built so far: the vertical half of the loop body.
    method Stand(n: SkipNode<V>, below: SkipNode<V>, ghost lower: set<SkipNode<V>>, ghost upper: set<SkipNode<V>>)
      requires Stacked(lower, upper) && below in lower && below.top == null && n !in upper && n !in lower
      requires below.key == n.key && below.val == n.val && n.top == null
      modifies n`bottom, below`top
      ensures n.bottom == below && Stacked(lower, upper + {n})
    {
      n.bottom := below;
      below.top := n;
    }

    method Raise(i: nat, n: SkipNode<V>, below: SkipNode?<V>,
                 ghost own: seq<set<SkipNode<V>>>, ghost all: set<SkipNode<V>>)
      requires i < |own| && Owned(own, all) && Vertical(own, all)
      requires n !in all && n.level == i && n.top == null && n.bottom == null && (i == 0 <==> below == null)
      requires below != null ==> below in own[i - 1] && below.top == null && below.key == n.key && below.val == n.val
      modifies n`bottom, Only(below)`top
      ensures Owned(own[i := own[i] + {n}], all + {n}) && Vertical(own[i := own[i] + {n}], all + {n})
    {
      hide Stacked, OnLevel;
      if below != null {
        assert StackedAt(own, i);
        LevelsApartFrom(own, all, i - 1, |own| - 1);
        Stand(n, below, own[i - 1], own[i]);
      }
      forall j | 0 < j < |own| && j != i
        ensures StackedAt(own, j)
      {
        assert old(StackedAt(own, j));
        LevelsApartFrom(own, all, i, j);
      }
      TowerGrows(own, all, i, n, below);
    }

    // The loop body of insert_with_path: one node of the new tower.
    method AddNode(i: nat, pred: SkipNode?<V>, key: int, val: V, below: SkipNode?<V>) returns (n: SkipNode<V>)
      requires Levels() && Towers() && i < levels
      requires !HasKey(lv[i], key) && pred == Pred(lv[i], key)
      requires i == 0 <==> below == null
      requires below != null ==> below in own[i - 1] && below.top == null && below.key == key && below.val == val
      modifies this`lv, this`own, this`all, nodes, own[i]`next, own[i]`prev, Only(below)`top
      ensures Levels() && Towers()
      ensures fresh(n) && n in own[i] && n.top == null && n.key == key && n.val == val
      ensures all == old(all) + {n}
      ensures own == old(own)[i := old(own[i]) + {n}]
      ensures lv == old(lv)[i := InsertAt(old(lv[i]), Rank(old(lv[i]), key), n)]
    {
      hide Owned, Vertical, Horizontal, OnLevel, Rank, Pred, HasKey, InsertAt;
      n := new SkipNode(key, val, i);
      Link(i, pred, n);
      Raise(i, n, below, old(own), old(all));
    }

    // Every node stands, level by level, on a node of the ground level with its datum.
    lemma {:induction false} Grounded(i: nat, n: SkipNode<V>)
      requires Levels() && Towers() && i < levels && n in own[i]
      ensures exists j :: 0 <= j < |lv[0]| && lv[0][j].key == n.key && lv[0][j].val == n.val
    {
      if i > 0 {
        assert StackedAt(own, i);
        Grounded(i - 1, n.bottom);
      } else {
        assert LevelInv(lv[0], own[0], nodes[..][0]);
      }
    }

    lemma GroundAscending()
      requires Levels()
      ensures Ascending(lv[0])
    {
      assert LevelInv(lv[0], own[0], nodes[..][0]);
    }

    lemma AbsentEverywhere(k: int)
      requires Levels() && Towers() && !HasKey(lv[0], k)
      ensures forall i :: 0 <= i < levels ==> !HasKey(lv[i], k)
    {
      forall i | 0 <= i < levels ensures !HasKey(lv[i], k) {
        assert LevelInv(lv[i], own[i], nodes[..][i]);
        forall j | 0 <= j < |lv[i]| ensures lv[i][j].key != k {
          Grounded(i, lv[i][j]);
        }
      }
    }

    lemma GrownEverywhere(was: seq<seq<SkipNode<V>>>, key: int, val: V, height: nat)
      requires |lv| == |was| == levels && height < levels
      requires Ascending(was[0]) && !HasKey(was[0], key)
      requires forall j {:trigger lv[j]} :: height < j < levels ==> lv[j] == was[j]
      requires forall j {:trigger lv[j]} :: 0 <= j <= height ==> Grown(was[j], lv[j], key, val)
      ensures Pairs(lv[0]) == SortedInsert(Pairs(was[0]), key, val)
      ensures forall i :: 0 <= i < levels ==> |lv[i]| == |was[i]| + if i <= height then 1 else 0
    {
      GrownPairs(was[0], lv[0], key, val);
      forall i | 0 <= i <= height ensures |lv[i]| == |was[i]| + 1 {
        GrownLength(was[i], lv[i], key, val);
      }
    }

    // A new tower of the chosen height.  `path[i]` is the predecessor on level `i`.
    method InsertWithPath(key: int, val: V, path: array<SkipNode?<V>>) returns (ghost height: nat)
      requires Valid() && path != nodes && path.Length == levels
      requires !HasKey(lv[0], key)
      requires forall i :: 0 <= i < levels ==> path[i] == Pred(lv[i], key)
      modifies this`lv, this`own, this`all, this`size, nodes, all
      ensures Valid() && fresh(all - old(all)) && nodes == old(nodes)
      ensures Contents() == SortedInsert(old(Contents()), key, val) && size == old(size) + 1
      ensures height < levels
      ensures forall i :: 0 <= i < levels ==> |lv[i]| == old(|lv[i]|) + if i <= height then 1 else 0
    {
      hide Horizontal, Vertical, Rank, Pred, HasKey, InsertAt, LevelInv, Stacked, Grown, Pairs, SortedInsert, SortedPairs;
      var h: nat :| h < levels;   // random_level
      height := h;
      size := size + 1;
      var below: SkipNode?<V> := null;
      AbsentEverywhere(key);
      GroundAscending();
      for i := 0 to h + 1
        invariant Levels() && Towers() && nodes == old(nodes) && size == old(size) + 1
        invariant old(all) <= all && fresh(all - old(all))
        invariant i == 0 <==> below == null
        invariant below != null ==> below in own[i - 1] && below.top == null && below.key == key && below.val == val
        invariant forall j {:trigger lv[j]} :: i <= j < levels ==> lv[j] == old(lv)[j]
        invariant forall j {:trigger lv[j]} :: 0 <= j < i ==> Grown(old(lv)[j], lv[j], key, val)
      {
        assert lv[i] == old(lv)[i] && path[i] == Pred(lv[i], key);
        below := AddNode(i, path[i], key, val, below);
        IsGrown(old(lv)[i], below);
      }
      GrownEverywhere(old(lv), key, val, height);
    }

    // Where a scan of level `level` may start: at its head, or at a node with a smaller key.
    ghost predicate StartsAt(level: nat, start: SkipNode?<V>, at: nat, key: int)
      requires level < |lv|
      reads this
    {
      if lv[level] == [] then start == null
      else at < |lv[level]| && start == lv[level][at] && (at == 0 || start.key < key)
    }

    lemma HeadStart(level: nat, key: int)
      requires Levels() && level < levels
      ensures StartsAt(level, nodes[level], 0, key)
    {
      assert LevelInv(lv[level], own[level], nodes[..][level]);
    }

    lemma ScanStart(level: nat, at: nat, key: int)
      requires Levels() && level < levels && at < |lv[level]| && (at == 0 || lv[level][at].key < key)
      ensures forall j :: 0 <= j < at ==> lv[level][j].key < key
    {
      assert LevelInv(lv[level], own[level], nodes[..][level]);
    }

    lemma BelowStart(level: nat, n: SkipNode<V>, key: int) returns (at: nat)
      requires Levels() && Towers() && 0 < level < levels && n in lv[level] && n.key < key
      ensures n.bottom != null && StartsAt(level - 1, n.bottom, at, key)
    {
      assert LevelInv(lv[level], own[level], nodes[..][level]);
      assert StackedAt(own, level);
      assert LevelInv(lv[level - 1], own[level - 1], nodes[..][level - 1]);
      at :| 0 <= at < |lv[level - 1]| && lv[level - 1][at] == n.bottom;
    }

    lemma LinksAt(level: nat, idx: nat)
      requires Levels() && level < levels && idx < |lv[level]|
      ensures lv[level][idx].prev == if idx == 0 then null else lv[level][idx - 1]
      ensures lv[level][idx].next == if idx + 1 < |lv[level]| then lv[level][idx + 1] else null
    {
      assert LevelInv(lv[level], own[level], nodes[..][level]);
    }

    // The scan has found the key.
    lemma Found(level: nat, idx: nat, val: V)
      requires Valid() && level < levels && idx < |lv[level]|
      ensures var n := lv[level][idx];
              && (n.key, n.val) in Contents()
              && HasPairKey(Contents(), n.key) && SortedInsert(Contents(), n.key, val) == Contents()
    {
      var n := lv[level][idx];
      assert LevelInv(lv[level], own[level], nodes[..][level]);
      Grounded(level, n);
      GroundAscending();
      var j :| 0 <= j < |lv[0]| && lv[0][j].key == n.key && lv[0][j].val == n.val;
      assert Contents()[j] == (n.key, n.val);
      PairsPresent(lv[0], n.key, val);
    }

    // The scan has passed every smaller key and the next key is larger.
    lemma Gap(level: nat, idx: nat, key: int)
      requires Levels() && level < levels && idx <= |lv[level]|
      requires idx == 0 || lv[level][idx - 1].key < key
      requires idx == |lv[level]| || key < lv[level][idx].key
      ensures Pred(lv[level], key) == if idx == 0 then null else lv[level][idx - 1]
      ensures !HasKey(lv[level], key) && !HasPairKey(Pairs(lv[level]), key)
    {
      assert LevelInv(lv[level], own[level], nodes[..][level]);
      RankUnique(lv[level], key, idx);
      assert forall i :: 0 <= i < |lv[level]| ==> lv[level][i].key != key;
    }

    method InsertNode(key: int, val: V, path: array<SkipNode?<V>>, start: SkipNode?<V>, level: nat, ghost at: nat)
      requires Valid() && path != nodes && path.Length == levels && level < levels && lv[0] != []
      requires forall i :: level < i < levels ==> path[i] == Pred(lv[i], key)
      requires StartsAt(level, start, at, key)
      modifies this`lv, this`own, this`all, this`size, nodes, all, path
      ensures Valid() && fresh(all - old(all)) && nodes == old(nodes)
      ensures Contents() == SortedInsert(old(Contents()), key, val)
      ensures old(HasPairKey(Contents(), key)) ==> lv == old(lv) && size == old(size)
      decreases level
    {
      hide Owned, Vertical, Horizontal, Pred, HasKey, HasPairKey, SortedInsert, SortedPairs, Pairs;
      if start == null && level != 0 {
        Gap(level, 0, key);
        HeadStart(level - 1, key);
        path[level] := null;
        InsertNode(key, val, path, nodes[level - 1], level - 1, 0);
        return;
      }
      var n, idx := Scan(key, start, level, at);
      LinksAt(level, idx);
      if n.key == key {
        Found(level, idx, val);
        return;   // update not supported
      }
      var pred := if n.key > key then n.prev else n;
      Gap(level, if n.key > key then idx else idx + 1, key);
      path[level] := pred;
      if level == 0 {
        ghost var height := InsertWithPath(key, val, path);
      } else if pred != null {
        ghost var below := BelowStart(level, pred, key);
        InsertNode(key, val, path, pred.bottom, level - 1, below);
      } else {
        HeadStart(level - 1, key);
        InsertNode(key, val, path, nodes[level - 1], level - 1, 0);
      }
    }

    // The loop shared by all branches of insert_node: it stops at the first node whose key is
    // not smaller, or at the last node of the level.
    method Scan(key: int, start: SkipNode?<V>, level: nat, ghost at: nat)
      returns (n: SkipNode<V>, ghost idx: nat)
      requires Levels() && level < levels && lv[level] != [] && StartsAt(level, start, at, key)
      ensures idx < |lv[level]| && n == lv[level][idx]
      ensures n.key >= key || n.next == null
      ensures idx == 0 || lv[level][idx - 1].key < key
    {
      hide Owned, Horizontal;
      n, idx := start, at;
      ScanStart(level, at, key);
      LinksAt(level, idx);
      while n.key < key && n.next != null
        invariant idx < |lv[level]| && n == lv[level][idx]
        invariant n.next == if idx + 1 < |lv[level]| then lv[level][idx + 1] else null
        invariant idx == 0 || lv[level][idx - 1].key < key
        decreases |lv[level]| - idx
      {
        n, idx := n.next, idx + 1;
        LinksAt(level, idx);
      }
    }

    // The first tower of an empty list, built without a search.
    method InsertFirst(key: int, val: V)
      requires Valid() && lv[0] == []
      modifies this`lv, this`own, this`all, this`size, nodes, all
      ensures Valid() && fresh(all - old(all)) && nodes == old(nodes)
      ensures Contents() == [(key, val)]
    {
      hide Horizontal, Vertical, HasKey, InsertAt, LevelInv, Stacked, Grown, Pairs, SortedInsert, SortedPairs;
      var h: nat :| h < levels;   // random_level
      EmptyEverywhere(key, val);
      var below: SkipNode?<V> := null;
      for i := 0 to h + 1
        invariant Levels() && Towers() && nodes == old(nodes) && size == 0
        invariant old(all) <= all && fresh(all - old(all))
        invariant i == 0 <==> below == null
        invariant below != null ==> below in own[i - 1] && below.top == null && below.key == key && below.val == val
        invariant forall j {:trigger lv[j]} :: i <= j < levels ==> lv[j] == []
        invariant i > 0 ==> Grown([], lv[0], key, val)
      {
        assert lv[i] == [];
        below := AddNode(i, null, key, val, below);
        IsGrown([], below);
      }
      size := size + 1;
      GrownLength([], lv[0], key, val);
      GrownPairs([], lv[0], key, val);
    }

    lemma EmptyEverywhere(key: int, val: V)
      requires Valid() && lv[0] == []
      ensures forall i {:trigger lv[i]} :: 0 <= i < levels ==> lv[i] == []
      ensures !HasKey<V>([], key) && Pred<V>([], key) == null
      ensures SortedInsert<V>([], key, val) == [(key, val)] && Pairs<V>([]) == []
    {
      forall i | 0 <= i < levels ensures lv[i] == [] {
        assert LevelInv(lv[i], own[i], nodes[..][i]);
        if lv[i] != [] { Grounded(i, lv[i][0]); }
      }
    }

    lemma FirstPair(key: int, val: V)
      requires Valid() && lv[0] == []
      ensures !HasPairKey(Contents(), key) && SortedInsert(Contents(), key, val) == [(key, val)]
    {
      EmptyEverywhere(key, val);
    }

    // A value whose key is present is rejected by the levels but stays in data_list.
    method Insert(key: int, val: V)
      requires Valid()
      modifies this`data, this`lv, this`own, this`all, this`size, nodes, all
      ensures Valid() && fresh(all - old(all)) && nodes == old(nodes)
      ensures Contents() == SortedInsert(old(Contents()), key, val)
      ensures old(HasPairKey(Contents(), key)) ==> lv == old(lv) && size == old(size)
      ensures data == old(data) + [(key, val)]
    {
      hide Horizontal, Vertical, Owned, HasPairKey, SortedPairs, SortedInsert, Pairs;
      data := data + [(key, val)];
      HeadStart(0, key);
      if nodes[0] == null {
        FirstPair(key, val);
        InsertFirst(key, val);
        return;
      }
      var path := new SkipNode?<V>[levels](_ => null);
      HeadStart(levels - 1, key);
      InsertNode(key, val, path, nodes[levels - 1], levels - 1, 0);
    }

    method FindNode(key: int, start: SkipNode?<V>, level: nat, ghost at: nat) returns (r: SkipNode?<V>)
      requires Valid() && level < levels && StartsAt(level, start, at, key)
      ensures r == null <==> !HasPairKey(Contents(), key)
      ensures r != null ==> r.key == key && (key, r.val) in Contents()
      decreases level
    {
      hide Owned, Horizontal, Vertical, HasPairKey, SortedPairs, Pairs;
      if start == null && level != 0 {
        HeadStart(level - 1, key);
        r := FindNode(key, nodes[level - 1], level - 1, 0);
        return;
      }
      var n := start;
      ghost var idx: nat := if start == null then 0 else at;
      if start != null { ScanStart(level, at, key); }
      while n != null
        invariant idx <= |lv[level]| && n == if idx < |lv[level]| then lv[level][idx] else null
        invariant idx == 0 || level == 0 || lv[level][idx - 1].key < key
        invariant n == null ==> level == 0
        invariant level == 0 ==> forall j :: 0 <= j < idx ==> lv[0][j].key != key
        decreases |lv[level]| - idx
      {
        LinksAt(level, idx);
        if n.key == key {
          Found(level, idx, n.val);
          return n;
        } else if n.key > key && level != 0 {
          if n.prev != null {
            ghost var below := BelowStart(level, n.prev, key);
            r := FindNode(key, n.prev.bottom, level - 1, below);
            return;
          } else {
            HeadStart(level - 1, key);
            r := FindNode(key, nodes[level - 1], level - 1, 0);
            return;
          }
        } else if n.key < key {
          if level != 0 {
            if n.next == null {
              ghost var below := BelowStart(level, n, key);
              r := FindNode(key, n.bottom, level - 1, below);
              return;
            }
          }
        }
        n, idx := n.next, idx + 1;
      }
      NotFound(key);
      return null;
    }

    lemma NotFound(key: int)
      requires Valid() && forall j :: 0 <= j < |lv[0]| ==> lv[0][j].key != key
      ensures !HasPairKey(Contents(), key)
    {
    }

    method Find(key: int) returns (r: SkipNode?<V>)
      requires Valid()
      ensures r == null <==> !HasPairKey(Contents(), key)
      ensures r != null ==> r.key == key && (key, r.val) in Contents()
    {
      HeadStart(levels - 1, key);
      r := FindNode(key, nodes[levels - 1], levels - 1, 0);
    }

    // Forward iteration from cbegin to cend.
    method Iterate() returns (out: seq<(int, V)>)
      requires Valid()
      ensures out == Contents()
    {
      hide Owned, Horizontal, Vertical, SortedPairs;
      HeadStart(0, 0);
      out := [];
      var n := if size == 0 then null else nodes[0];
      while n != null
        invariant |out| <= |lv[0]| && out == Contents()[..|out|]
        invariant n == if |out| < |lv[0]| then lv[0][|out|] else null
        decreases |lv[0]| - |out|
      {
        LinksAt(0, |out|);
        out := out + [(n.key, n.val)];
        n := n.next;
      }
    }
  }
}
