/** The doubly linked list of include/qs/list.hpp, which carries the job queues, the pending
    documents and the result of a match. */
module LinkedLists {

  class ListNode<V> {
    const value: V
    var next: ListNode?<V>
    var prev: ListNode?<V>

    constructor (value: V, prev: ListNode?<V>, next: ListNode?<V>)
      ensures this.value == value && this.prev == prev && this.next == next
    {
      this.value, this.prev, this.next := value, prev, next;
    }
  }

  ghost predicate Chained<V>(s: seq<ListNode<V>>, own: set<ListNode<V>>)
    reads own
  {
    && (forall i :: 0 <= i < |s| ==> s[i] in own)
    && (forall i, j :: 0 <= i < j < |s| ==> s[i] != s[j])
    && (forall i {:trigger s[i].prev} :: 0 <= i < |s| ==> s[i].prev == if i == 0 then null else s[i - 1])
    && (forall i {:trigger s[i].next} :: 0 <= i < |s| ==> s[i].next == if i + 1 < |s| then s[i + 1] else null)
  }

  ghost function Without<T>(s: seq<T>, k: nat): seq<T>
    requires k < |s|
  {
    s[..k] + s[k + 1..]
  }

  // Chained, once the neighbours of position `k` point past it.
  lemma ChainedWithout<V>(s: seq<ListNode<V>>, own: set<ListNode<V>>, k: nat)
    requires k < |s|
    requires forall i :: 0 <= i < |s| ==> s[i] in own
    requires forall i, j :: 0 <= i < j < |s| ==> s[i] != s[j]
    requires forall i {:trigger s[i].prev} :: 0 <= i < |s| && i != k ==>
               s[i].prev == if i == 0 || (i == 1 && k == 0) then null else if i == k + 1 then s[k - 1] else s[i - 1]
    requires forall i {:trigger s[i].next} :: 0 <= i < |s| && i != k ==>
               s[i].next == if i + 1 == |s| || (i + 2 == |s| && k == i + 1) then null
                            else if i + 1 == k then s[k + 1] else s[i + 1]
    ensures Chained(Without(s, k), own)
  {
    var t := Without(s, k);
    forall i | 0 <= i < |t|
      ensures t[i].prev == if i == 0 then null else t[i - 1]
      ensures t[i].next == if i + 1 < |t| then t[i + 1] else null
    {
      var j := if i < k then i else i + 1;
      assert t[i] == s[j];
    }
  }

  ghost function Values<V>(s: seq<ListNode<V>>): (vs: seq<V>)
    ensures |vs| == |s| && forall i :: 0 <= i < |s| ==> vs[i] == s[i].value
  {
    seq(|s|, i requires 0 <= i < |s| => s[i].value)
  }

  class LinkedList<V> {
    var head: ListNode?<V>
    var tail: ListNode?<V>
    var size: nat
    ghost var nodes: seq<ListNode<V>>
    ghost var own: set<ListNode<V>>

    ghost predicate Valid()
      reads this, own
    {
      && Chained(nodes, own) && size == |nodes|
      && head == (if nodes == [] then null else nodes[0])
      && tail == (if nodes == [] then null else nodes[|nodes| - 1])
    }

    ghost function Contents(): seq<V>
      reads this
    {
      Values(nodes)
    }

    constructor ()
      ensures Valid() && Contents() == [] && own == {}
    {
      head, tail, size := null, null, 0;
      nodes, own := [], {};
    }

    method Append(value: V) returns (node: ListNode<V>)
      requires Valid()
      modifies this, own
      ensures Valid() && fresh(node) && own == old(own) + {node}
      ensures nodes == old(nodes) + [node] && Contents() == old(Contents()) + [value]
    {
      node := new ListNode(value, tail, null);
      if head == null && tail == null {
        head := node;
        tail := node;
      } else {
        tail.next := node;
        tail := node;
      }
      size := size + 1;
      nodes, own := nodes + [node], own + {node};
    }

    // The pointer updates of remove.
    method Unlink(node: ListNode<V>, ghost k: nat)
      requires Valid() && k < |nodes| && node == nodes[k]
      modifies this`head, this`tail, this`size, own
      ensures Chained(Without(nodes, k), own) && size == |nodes| - 1
      ensures head == if Without(nodes, k) == [] then null else Without(nodes, k)[0]
      ensures tail == if Without(nodes, k) == [] then null else Without(nodes, k)[|nodes| - 2]
    {
      var prev, next := node.prev, node.next;
      if prev != null {
        prev.next := next;
      }
      if next != null {
        next.prev := prev;
      }
      ChainedWithout(nodes, own, k);
      hide Chained;
      if head == node {
        head := next;
      }
      if tail == node {
        tail := prev;
      }
      size := size - 1;
    }

    // Unlinks the node at position `k`; `delete` is not modelled.
    method Remove(node: ListNode<V>, ghost k: nat)
      requires Valid() && k < |nodes| && node == nodes[k]
      modifies this, own
      ensures Valid() && own == old(own)
      ensures nodes == Without(old(nodes), k) && Contents() == Without(old(Contents()), k)
    {
      hide Chained;
      Unlink(node, k);
      nodes := Without(nodes, k);
    }

    // for (auto &x : list)
    method Iterate() returns (out: seq<V>)
      requires Valid()
      ensures out == Contents()
    {
      out := [];
      var p := head;
      while p != null
        invariant |out| <= |nodes| && out == Contents()[..|out|]
        invariant p == if |out| < |nodes| then nodes[|out|] else null
        decreases |nodes| - |out|
      {
        assert p == nodes[|out|];
        out := out + [p.value];
        p := p.next;
      }
    }
  }
}
