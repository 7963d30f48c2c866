/** The open-addressing hash table of include/qs/hash_table.hpp: linear probing with
    wrap-around, growth at three quarters, no deletion.

    The hash function is an arbitrary total function, so every contract holds for every
    hash function; the float load factor is the exact fraction. */
module HashTables {

  // ------------------------------------------------ capacities

  const PRIMES: seq<nat> :=
    [53, 97, 193, 389, 769, 1543, 3079, 6151, 12289, 24593, 49157, 98317, 196613, 393241, 786433, 1572869,
     3145739, 6291469, 12582917, 25165843, 50331653, 100663319, 201326611, 402653189, 805306457, 1610612741]

  // The least prime of the table above `n`, and `n` itself past the last one.
  ghost predicate CapacityFor(n: nat, p: nat) {
    if n < PRIMES[25] then p > n && p in PRIMES && forall j :: 0 <= j < 26 && PRIMES[j] > n ==> p <= PRIMES[j]
    else p == n
  }

  method FindPrime(n: nat) returns (p: nat)
    ensures p >= 53 && CapacityFor(n, p)
  {
    for i := 0 to 26
      invariant forall j :: 0 <= j < i ==> n >= PRIMES[j]
    {
      if n < PRIMES[i] {
        forall j | i <= j < 26 ensures PRIMES[i] <= PRIMES[j] {
          PrimesAscend(i, j);
        }
        return PRIMES[i];
      }
    }
    assert n >= PRIMES[25];
    return n;
  }

  lemma {:induction false} PrimesAscend(i: nat, j: nat)
    requires i <= j < 26
    ensures PRIMES[i] <= PRIMES[j]
    decreases j - i
  {
    if i < j {
      PrimesAscend(i, j - 1);
      assert PRIMES[j - 1] <= PRIMES[j];
    }
  }

  // ------------------------------------------------ probe sequences

  // The slots from `from` up to, not including, `to`, wrapping at the end of the table.
  ghost predicate OnWay(from: nat, to: nat, i: nat) {
    if from <= to then from <= i < to else from <= i || i < to
  }

  datatype Slot<K> = Free | Taken(key: K)

  // `pos` says where each key sits, and nothing else sits anywhere.
  ghost predicate Placed<K>(ks: seq<Slot<K>>, pos: map<K, nat>) {
    && (forall k :: k in pos ==> pos[k] < |ks| && ks[pos[k]] == Taken(k))
    && (forall i :: 0 <= i < |ks| && ks[i].Taken? ==> ks[i].key in pos && pos[ks[i].key] == i)
  }

  // Every slot on the way from `from` to `to` is taken.
  ghost predicate WayTaken<K>(ks: seq<Slot<K>>, from: nat, to: nat) {
    forall i :: 0 <= i < |ks| && OnWay(from, to, i) ==> ks[i].Taken?
  }

  // The probe of every stored key runs through taken slots up to the key.
  ghost predicate Probed<K>(hash: K -> nat, ks: seq<Slot<K>>, pos: map<K, nat>)
    requires |ks| > 0
  {
    forall k :: k in pos ==> WayTaken(ks, hash(k) % |ks|, pos[k])
  }

  // find_available_position stops at slot `i` for the key `k`: all slots before are taken by
  // other keys, and `i` is free or holds the key.
  ghost predicate Stops<K>(hash: K -> nat, ks: seq<Slot<K>>, k: K, i: nat) {
    && i < |ks| && (ks[i].Free? || ks[i].key == k)
    && forall j :: 0 <= j < |ks| && OnWay(hash(k) % |ks|, i, j) ==> ks[j].Taken? && ks[j].key != k
  }

  // A probe has one end.
  lemma StopIsUnique<K>(hash: K -> nat, ks: seq<Slot<K>>, k: K, i: nat, j: nat)
    requires Stops(hash, ks, k, i) && Stops(hash, ks, k, j)
    ensures i == j
  {
    var from := hash(k) % |ks|;
    assert i != j ==> OnWay(from, i, j) || OnWay(from, j, i);
  }

  // The probe of a stored key ends at the key, and the probe of another key at a free slot.
  lemma ProbeFinds<K>(hash: K -> nat, ks: seq<Slot<K>>, pos: map<K, nat>, k: K, i: nat)
    requires ks != [] && Placed(ks, pos) && Probed(hash, ks, pos) && Stops(hash, ks, k, i)
    ensures if k in pos then i == pos[k] else ks[i].Free? && WayTaken(ks, hash(k) % |ks|, i)
  {
    if k in pos {
      assert WayTaken(ks, hash(k) % |ks|, pos[k]);
      forall j | 0 <= j < |ks| && OnWay(hash(k) % |ks|, pos[k], j) ensures ks[j].Taken? && ks[j].key != k {
        assert ks[j].Taken?;
      }
      StopIsUnique(hash, ks, k, i, pos[k]);
    }
  }

  ghost function MapOf<K, V>(pos: map<K, nat>, vs: seq<V>): (m: map<K, V>)
    requires forall k :: k in pos ==> pos[k] < |vs|
    ensures m.Keys == pos.Keys
  {
    map k | k in pos :: vs[pos[k]]
  }

  lemma StoreKeepsPlaces<K>(hash: K -> nat, ks: seq<Slot<K>>, pos: map<K, nat>, p: nat, k: K)
    requires Placed(ks, pos) && p < |ks| && ks[p].Free? && k !in pos
    requires Probed(hash, ks, pos) && WayTaken(ks, hash(k) % |ks|, p)
    ensures Placed(ks[p := Taken(k)], pos[k := p]) && Probed(hash, ks[p := Taken(k)], pos[k := p])
  {
    var ks', pos' := ks[p := Taken(k)], pos[k := p];
    forall x | x in pos' ensures WayTaken(ks', hash(x) % |ks'|, pos'[x]) {
      assert WayTaken(ks, hash(x) % |ks|, pos'[x]);
    }
  }

  lemma StoreExtendsMap<K, V>(ks: seq<Slot<K>>, pos: map<K, nat>, vs: seq<V>, p: nat, k: K, v: V)
    requires Placed(ks, pos) && p < |ks| == |vs| && ks[p].Free? && k !in pos
    ensures MapOf(pos[k := p], vs[p := v]) == MapOf(pos, vs)[k := v]
  {
  }

  // `remove` marks the slot of a key free again (include/qs/hash_table.hpp:238-246).  The probes
  // of the remaining keys still end at their slots exactly when the slot is on the way to none
  // of them.
  lemma RemoveIsSafeIff<K>(hash: K -> nat, ks: seq<Slot<K>>, pos: map<K, nat>, k: K)
    requires ks != [] && Placed(ks, pos) && Probed(hash, ks, pos) && k in pos
    ensures (forall x :: x in pos && x != k ==> Stops(hash, ks[pos[k] := Free], x, pos[x]))
            <==> forall x :: x in pos && x != k ==> !OnWay(hash(x) % |ks|, pos[x], pos[k])
    ensures Probed(hash, ks[pos[k] := Free], pos - {k})
            <==> forall x :: x in pos && x != k ==> !OnWay(hash(x) % |ks|, pos[x], pos[k])
  {
    var p := pos[k];
    var ks', pos' := ks[p := Free], pos - {k};
    forall x | x in pos'
      ensures WayTaken(ks', hash(x) % |ks|, pos[x]) <==> !OnWay(hash(x) % |ks|, pos[x], p)
      ensures Stops(hash, ks', x, pos[x]) <==> !OnWay(hash(x) % |ks|, pos[x], p)
    {
      assert WayTaken(ks, hash(x) % |ks|, pos[x]);
      if OnWay(hash(x) % |ks|, pos[x], p) { assert ks'[p].Free?; }
    }
  }

  // A table of the least capacity with two keys that hash to its first slot.
  ghost function TwoInARow(): (ks: seq<Slot<int>>)
    ensures |ks| == 53 && ks[0] == Taken(7) && ks[1] == Taken(8) && forall i :: 2 <= i < 53 ==> ks[i] == Free
  {
    [Taken(7), Taken(8)] + seq(51, _ => Free)
  }

  // The first of them is removed.  The probe for the second, which is still stored, then ends
  // at a free slot, so `lookup` returns end().
  lemma RemoveCanLoseAKey()
    ensures var hash: int -> nat, ks, pos: map<int, nat> := _ => 0, TwoInARow(), map[7 := 0, 8 := 1];
            && Placed(ks, pos) && Probed(hash, ks, pos) && Stops(hash, ks, 8, 1)
            && ks[pos[7] := Free][1] == Taken(8) && !Stops(hash, ks[pos[7] := Free], 8, 1)
            && Stops(hash, ks[pos[7] := Free], 8, 0) && ks[pos[7] := Free][0].Free?
  {
    var hash: int -> nat, ks, pos: map<int, nat> := _ => 0, TwoInARow(), map[7 := 0, 8 := 1];
    var ks' := ks[pos[7] := Free];
    assert hash(8) % |ks'| == 0 && hash(7) % |ks| == 0;
    assert OnWay(hash(8) % |ks'|, 1, 0);
  }

  // The content after a run of inserts.
  function Written<K, V>(start: map<K, V>, kvs: seq<(K, V)>): map<K, V> {
    if kvs == [] then start
    else
      var m, (k, v) := Written(start, kvs[..|kvs| - 1]), kvs[|kvs| - 1];
      if k in m then m else m[k := v]
  }

  // The first write of a key decides its value for good, whatever else is inserted.
  lemma {:induction false} FirstWriteWins<K, V>(start: map<K, V>, kvs: seq<(K, V)>, i: nat)
    requires i < |kvs| && kvs[i].0 !in start && forall j :: 0 <= j < i ==> kvs[j].0 != kvs[i].0
    ensures kvs[i].0 in Written(start, kvs) && Written(start, kvs)[kvs[i].0] == kvs[i].1
  {
    WrittenKeys(start, kvs);
    if i < |kvs| - 1 {
      FirstWriteWins(start, kvs[..|kvs| - 1], i);
    } else {
      WrittenKeys(start, kvs[..|kvs| - 1]);
    }
  }

  // Old entries stay, and the new keys are the keys inserted.
  lemma {:induction false} WrittenKeys<K, V>(start: map<K, V>, kvs: seq<(K, V)>)
    ensures forall k :: k in start ==> k in Written(start, kvs) && Written(start, kvs)[k] == start[k]
    ensures forall k :: k in Written(start, kvs) <==> k in start || exists j :: 0 <= j < |kvs| && kvs[j].0 == k
  {
    if kvs != [] {
      WrittenKeys(start, kvs[..|kvs| - 1]);
    }
  }

  // The keys of the first `n` slots, when all of those are taken.
  lemma {:induction false} TakenKeys<K>(ks: seq<Slot<K>>, pos: map<K, nat>, n: nat) returns (found: set<K>)
    requires Placed(ks, pos) && n <= |ks| && forall i :: 0 <= i < n ==> ks[i].Taken?
    ensures found <= pos.Keys && |found| == n && forall k :: k in found ==> pos[k] < n
  {
    if n == 0 {
      found := {};
    } else {
      found := TakenKeys(ks, pos, n - 1);
      found := found + {ks[n - 1].key};
    }
  }

  // With fewer keys than slots a slot is free, so every probe comes to an end.
  lemma FreeSlot<K>(ks: seq<Slot<K>>, pos: map<K, nat>) returns (f: nat)
    requires Placed(ks, pos) && |pos| < |ks|
    ensures f < |ks| && ks[f].Free?
  {
    if forall i :: 0 <= i < |ks| ==> ks[i].Taken? {
      var found := TakenKeys(ks, pos, |ks|);
      SubsetSize(found, pos.Keys);
      assert false;
    }
    f :| 0 <= f < |ks| && ks[f].Free?;
  }

  lemma {:induction false} SubsetSize<T>(a: set<T>, b: set<T>)
    requires a <= b
    ensures |a| <= |b|
  {
    if a != {} {
      var x :| x in a;
      SubsetSize(a - {x}, b - {x});
    }
  }

  class HashTable<K(==), V(0)> {
    const hash: K -> nat
    var size: nat
    var keys: array<Slot<K>>
    var values: array<V>
    ghost var pos: map<K, nat>       // where each key sits

    ghost predicate Valid()
      reads this, keys
    {
      && keys.Length == values.Length >= 53 && keys as object != values as object
      && Placed(keys[..], pos) && Probed(hash, keys[..], pos)
      && size == |pos| && 4 * size < 3 * keys.Length + 4
    }

    ghost predicate Full()
      reads this
    {
      4 * size >= 3 * keys.Length
    }

    ghost function Map(): (m: map<K, V>)
      requires Valid()
      reads this, keys, values
      ensures m.Keys == pos.Keys
    {
      MapOf(pos, values[..])
    }

    constructor (hash: K -> nat, capacity: nat)
      ensures Valid() && Map() == map[] && this.hash == hash && fresh(keys) && fresh(values)
      ensures CapacityFor(capacity, keys.Length)
    {
      var c := FindPrime(capacity);   // the capacity given is only a hint
      this.hash := hash;
      size := 0;
      keys := new Slot<K>[c](_ => Free);
      values := new V[c];
      pos := map[];
    }

    // find_available_position: the slot of `key`, or the free slot that ends its probe.  The
    // full-circle branch (`return -1`) is dead: a free slot lies before it.
    method FindAvailablePosition(key: K) returns (i: nat)
      requires Valid()
      ensures i < keys.Length && Stops(hash, keys[..], key, i)
      ensures if key in pos then i == pos[key]
              else keys[i].Free? && WayTaken(keys[..], hash(key) % keys.Length, i)
    {
      var index := hash(key) % keys.Length;
      i := index;
      ghost var f := FreeSlot(keys[..], pos);
      while keys[i].Taken? && keys[i].key != key
        invariant i < keys.Length
        invariant forall j :: 0 <= j < keys.Length && OnWay(index, i, j) ==> keys[j].Taken? && keys[j].key != key
        invariant if index <= f then index <= i <= f else index <= i || i <= f
        decreases if i <= f then f - i else f + keys.Length - i
      {
        i := i + 1;
        if i == keys.Length {
          i := 0;
        } else if i == index {
          assert false;   // return -1
        }
      }
      assert Stops(hash, keys[..], key, i);
      ProbeFinds(hash, keys[..], pos, key, i);
    }

    // A new key goes into the free slot that ended its probe.
    method Store(p: nat, k: K, v: V)
      requires Valid() && !Full() && k !in pos && p < keys.Length && keys[p].Free?
      requires WayTaken(keys[..], hash(k) % keys.Length, p)
      modifies this`size, this`pos, keys, values
      ensures Valid() && Map() == old(Map())[k := v] && pos[k] == p
    {
      StoreKeepsPlaces(hash, keys[..], pos, p, k);
      StoreExtendsMap(keys[..], pos, values[..], p, k, v);
      keys[p] := Taken(k);
      values[p] := v;
      size := size + 1;
      pos := pos[k := p];
      assert keys[..] == old(keys[..])[p := Taken(k)] && values[..] == old(values[..])[p := v];
      hide Placed, Probed, WayTaken, MapOf;
    }

    // The first value stored for a key stays.  `at` is the slot of a new key and the capacity,
    // the position of `end()`, for a key that was present.
    method Insert(k: K, v: V) returns (at: nat)
      requires Valid()
      modifies this, keys, values
      ensures Valid()
      ensures Map() == if k in old(Map()) then old(Map()) else old(Map())[k := v]
      ensures at == if k in old(Map()) then keys.Length else pos[k]
      ensures if old(Full()) then fresh(keys) && fresh(values) else keys == old(keys) && values == old(values)
      ensures old(Full()) ==> CapacityFor(2 * old(keys.Length), keys.Length)
      ensures 4 * (size - 1) < 3 * keys.Length
      decreases if Full() then 3 else 0
    {
      hide Placed, Probed, WayTaken, MapOf;
      if 4 * size >= 3 * keys.Length {   // maybe_resize
        Resize();
      }
      var p := FindAvailablePosition(k);
      if k in pos { Occupied(k); }
      if keys[p].Free? {
        Store(p, k, v);
        at := p;
      } else {
        at := keys.Length;
      }
    }

    lemma Occupied(k: K)
      requires Valid() && k in pos
      ensures pos[k] < keys.Length && keys[pos[k]] == Taken(k)
    {
      assert keys[..][pos[k]] == Taken(k);
    }

    // Rehashing re-enters `insert`, which never resizes again: the new table is at most half full.
    method Resize()
      requires Valid() && Full()
      modifies this
      ensures Valid() && !Full() && Map() == old(Map())
      ensures fresh(keys) && fresh(values) && keys.Length >= 2 * old(keys.Length)
      ensures CapacityFor(2 * old(keys.Length), keys.Length)
      decreases 2
    {
      hide Placed, Probed, WayTaken, MapOf, Below;
      var oldKeys, oldValues := keys, values;
      ghost var oldPos, oldMap := pos, Map();
      OldEntries();
      BelowAll(oldKeys[..], oldPos, oldMap);
      var c := FindPrime(keys.Length * 2);
      Allocate(c);
      Rehash(oldKeys, oldValues, oldPos, oldMap);
    }

    // The loop of resize, over the old slots.
    method Rehash(oldKeys: array<Slot<K>>, oldValues: array<V>, ghost oldPos: map<K, nat>, ghost oldMap: map<K, V>)
      requires oldPos.Keys == oldMap.Keys && Placed(oldKeys[..], oldPos)
      requires Valid() && size == 0 && Map() == Below(oldPos, oldMap, 0)
      requires oldKeys.Length == oldValues.Length && 2 * oldKeys.Length <= keys.Length
      requires oldKeys != keys && oldKeys as object != values && oldValues != values && oldValues as object != keys
      requires forall i :: 0 <= i < oldKeys.Length && oldKeys[i].Taken? ==>
                 oldKeys[i].key in oldMap && oldMap[oldKeys[i].key] == oldValues[i]
      modifies this, keys, values
      ensures Valid() && !Full() && Map() == Below(oldPos, oldMap, oldKeys.Length)
      ensures keys == old(keys) && values == old(values)
      decreases 1
    {
      hide Placed, Probed, WayTaken, MapOf, Below;
      ghost var ks := oldKeys[..];
      for i := 0 to oldKeys.Length
        invariant keys == old(keys) && values == old(values) && Valid()
        invariant Map() == Below(oldPos, oldMap, i)
        invariant size <= i
      {
        BelowStep(ks, oldPos, oldMap, i);
        if oldKeys[i].Taken? {
          var at := Insert(oldKeys[i].key, oldValues[i]);
        }
      }
    }

    // new key_pair[capacity] and new ValueStorage[capacity]
    method Allocate(c: nat)
      requires c >= 53
      modifies this
      ensures Valid() && Map() == map[] && size == 0 && keys.Length == c
      ensures fresh(keys) && fresh(values)
    {
      size := 0;
      keys := new Slot<K>[c](_ => Free);
      values := new V[c];
      pos := map[];
    }

    lemma OldEntries()
      requires Valid()
      ensures forall i :: 0 <= i < keys.Length && keys[i].Taken? ==>
                keys[i].key in Map() && Map()[keys[i].key] == values[i]
    {
      forall i | 0 <= i < keys.Length && keys[i].Taken?
        ensures keys[i].key in Map() && Map()[keys[i].key] == values[i]
      {
        assert keys[..][i].key in pos;
      }
    }

    // Any sequence of inserts, for which the table may grow any number of times.
    method InsertAll(kvs: seq<(K, V)>)
      requires Valid()
      modifies this, keys, values
      ensures Valid() && Map() == Written(old(Map()), kvs)
    {
      hide Placed, Probed, WayTaken, MapOf;
      for i := 0 to |kvs|
        invariant Valid() && Map() == Written(old(Map()), kvs[..i])
        invariant (keys == old(keys) || fresh(keys)) && (values == old(values) || fresh(values))
      {
        assert kvs[..i + 1][..i] == kvs[..i];
        var at := Insert(kvs[i].0, kvs[i].1);
      }
      assert kvs[..|kvs|] == kvs;
    }

    method Lookup(k: K) returns (at: nat)
      requires Valid()
      ensures at < keys.Length <==> k in Map()
      ensures at <= keys.Length && (at < keys.Length ==> keys[at] == Taken(k) && values[at] == Map()[k])
    {
      at := FindAvailablePosition(k);
      if k in pos { Occupied(k); }
      if keys[at].Free? {
        at := keys.Length;
      }
    }

    // begin(): the first taken slot.
    method Begin() returns (p: nat)
      requires Valid()
      ensures p <= keys.Length && (p < keys.Length ==> keys[p].Taken?)
      ensures forall j :: 0 <= j < p ==> keys[j].Free?
    {
      if size > 0 {
        p := 0;
        while p < keys.Length && keys[p].Free?
          invariant p <= keys.Length && forall j :: 0 <= j < p ==> keys[j].Free?
        {
          p := p + 1;
        }
      } else {
        p := keys.Length;
        forall j | 0 <= j < p ensures keys[j].Free? {
          assert keys[..][j].Taken? ==> |pos| > 0;
        }
      }
    }

    // operator++: the next taken slot.
    method Next(p: nat) returns (q: nat)
      requires Valid() && p < keys.Length
      ensures p < q <= keys.Length && (q < keys.Length ==> keys[q].Taken?)
      ensures forall j :: p < j < q ==> keys[j].Free?
    {
      q := p + 1;
      while q != keys.Length && keys[q].Free?
        invariant p < q <= keys.Length && forall j :: p < j < q ==> keys[j].Free?
      {
        q := q + 1;
      }
    }

    // for (auto &x : table): each key once.
    method Iterate() returns (ks: seq<K>)
      requires Valid()
      ensures forall k :: k in ks <==> k in Map()
      ensures forall i, j :: 0 <= i < j < |ks| ==> ks[i] != ks[j]
    {
      hide Probed, MapOf;
      ks := [];
      var p := Begin();
      assert forall k :: k in pos ==> pos[k] < keys.Length && keys[..][pos[k]] == Taken(k);
      while p != keys.Length
        invariant p <= keys.Length && (p < keys.Length ==> keys[p].Taken?)
        invariant forall k :: k in ks <==> k in pos && pos[k] < p
        invariant forall i, j :: 0 <= i < j < |ks| ==> ks[i] != ks[j]
        decreases keys.Length - p
      {
        assert keys[..][p].key in pos && pos[keys[..][p].key] == p;
        ks := ks + [keys[p].key];
        p := Next(p);
      }
    }
  }

  // The entries of `m` whose key sits below slot `i`.
  ghost function Below<K, V>(pos: map<K, nat>, m: map<K, V>, i: nat): map<K, V>
    requires pos.Keys == m.Keys
  {
    map k | k in pos && pos[k] < i :: m[k]
  }

  lemma BelowStep<K, V>(ks: seq<Slot<K>>, pos: map<K, nat>, m: map<K, V>, i: nat)
    requires Placed(ks, pos) && pos.Keys == m.Keys && i < |ks|
    ensures ks[i].Free? ==> Below(pos, m, i + 1) == Below(pos, m, i)
    ensures ks[i].Taken? ==> var k := ks[i].key;
                             k in m && k !in Below(pos, m, i) && Below(pos, m, i + 1) == Below(pos, m, i)[k := m[k]]
  {
  }

  lemma BelowAll<K, V>(ks: seq<Slot<K>>, pos: map<K, nat>, m: map<K, V>)
    requires Placed(ks, pos) && pos.Keys == m.Keys
    ensures Below(pos, m, |ks|) == m && Below(pos, m, 0) == map[]
  {
  }
}
