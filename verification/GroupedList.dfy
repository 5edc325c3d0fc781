/**
 `grouped_list`: a list of nodes ordered by group key, with a sorted map from each group to its first node.
 Iterators are references to nodes, `null` is the end iterator; a position in the map is a number, its
 length the end.
 */
module GroupedLists {
  import opened GroupKeys
  import opened Lists
  import opened GroupIndexes

  class GroupedList<G(!new), V> {
    const lt: GroupCompare<G>
    var nodes: seq<ListNode<V>>
    var groupMap: seq<Entry<G, V>>
    /** The key each node was inserted under. The source does not store it in the list. */
    ghost var keys: seq<Key<G>>

    ghost predicate Valid()
      reads this
    {
      && StrictWeak(lt)
      && NoDup(nodes)
      && Sorted(lt, keys)
      && IndexOk(lt, keys, nodes, groupMap)
    }

    function Values(): (r: seq<V>)
      reads this
      ensures |r| == |nodes|
    {
      ValuesOf(nodes)
    }

    constructor (lt: GroupCompare<G>)
      requires StrictWeak(lt)
      ensures Valid() && this.lt == lt && nodes == [] && keys == [] && groupMap == []
    {
      this.lt := lt;
      nodes, groupMap, keys := [], [], [];
    }

    /** Position of an iterator in the list. */
    function Pos(it: ListNode?<V>): (p: nat)
      reads this
      ensures p <= |nodes|
    {
      if it == null then |nodes| else IndexOf(nodes, it)
    }

    /** `++it`. */
    function Next(it: ListNode<V>): ListNode?<V>
      reads this
    {
      NodeAt(nodes, IndexOf(nodes, it) + 1)
    }

    /** `get_list_iterator`. */
    function ListIterator(m: nat): ListNode?<V>
      requires m <= |groupMap|
      reads this
    {
      if m == |groupMap| then null else groupMap[m].node
    }

    /** A map position stands for the first list position of its group. */
    lemma IteratorPosition(m: nat)
      requires Valid() && m <= |groupMap|
      ensures ListIterator(m) == NodeAt(nodes, ListPos(lt, keys, groupMap, m))
      ensures Pos(ListIterator(m)) == ListPos(lt, keys, groupMap, m)
    {
      hide StrictWeak, Sorted;
      if m < |groupMap| {
        assert Aimed(lt, keys, nodes, groupMap[m]);
        IndexOfAt(nodes, LowerBound(lt, keys, groupMap[m].key));
      }
    }

    function Begin(): ListNode?<V>
      reads this
    {
      NodeAt(nodes, 0)
    }

    /** `lower_bound`: the iterator to the first node whose key is not less, found through the map. */
    function FindLower(key: Key<G>): (it: ListNode?<V>)
      requires Valid()
      reads this
      ensures it == NodeAt(nodes, LowerBound(lt, keys, key)) && Pos(it) == LowerBound(lt, keys, key)
    {
      var m := LowerBound(lt, MapKeys(groupMap), key);
      LookupLower(lt, keys, nodes, groupMap, key);
      IteratorPosition(m);
      ListIterator(m)
    }

    /** `upper_bound`: the iterator to the first node whose key is greater. */
    function FindUpper(key: Key<G>): (it: ListNode?<V>)
      requires Valid()
      reads this
      ensures it == NodeAt(nodes, UpperBound(lt, keys, key)) && Pos(it) == UpperBound(lt, keys, key)
    {
      var m := UpperBound(lt, MapKeys(groupMap), key);
      LookupUpper(lt, keys, nodes, groupMap, key);
      IteratorPosition(m);
      ListIterator(m)
    }

    /** Inserts before the first key that is not less: in front of its group. */
    method PushFront(key: Key<G>, value: V) returns (node: ListNode<V>)
      requires Valid()
      modifies this
      ensures Valid() && fresh(node) && node.value == value
      ensures var q := LowerBound(lt, old(keys), key);
        && nodes == InsertAt(old(nodes), q, node) && keys == InsertAt(old(keys), q, key)
        && groupMap == InsertIndex(lt, old(groupMap), key, node, true)
    {
      var m: nat;
      if key == FrontUngrouped {
        NothingBefore(lt, MapKeys(groupMap));
        m := 0;
      } else {
        m := LowerBound(lt, MapKeys(groupMap), key);
      }
      LookupLower(lt, keys, nodes, groupMap, key);
      node := Insert(m, key, value, true);
    }

    /** Inserts before the first key that is greater: at the back of its group. */
    method PushBack(key: Key<G>, value: V) returns (node: ListNode<V>)
      requires Valid()
      modifies this
      ensures Valid() && fresh(node) && node.value == value
      ensures var q := UpperBound(lt, old(keys), key);
        && nodes == InsertAt(old(nodes), q, node) && keys == InsertAt(old(keys), q, key)
        && groupMap == InsertIndex(lt, old(groupMap), key, node, false)
    {
      var m: nat;
      if key == BackUngrouped {
        NothingAfter(lt, MapKeys(groupMap));
        m := |groupMap|;
      } else {
        m := UpperBound(lt, MapKeys(groupMap), key);
      }
      LookupUpper(lt, keys, nodes, groupMap, key);
      node := Insert(m, key, value, false);
    }

    /** `m_insert`: inserts a node where the map position points, then keeps the map entry of its group right. */
    method Insert(m: nat, key: Key<G>, value: V, ghost first: bool) returns (node: ListNode<V>)
      requires Valid()
      requires m == if first then LowerBound(lt, MapKeys(groupMap), key) else UpperBound(lt, MapKeys(groupMap), key)
      requires ListPos(lt, keys, groupMap, m) == if first then LowerBound(lt, keys, key) else UpperBound(lt, keys, key)
      modifies this
      ensures Valid() && fresh(node) && node.value == value
      ensures var q := if first then LowerBound(lt, old(keys), key) else UpperBound(lt, old(keys), key);
        && nodes == InsertAt(old(nodes), q, node) && keys == InsertAt(old(keys), q, key)
        && groupMap == InsertIndex(lt, old(groupMap), key, node, first)
    {
      hide StrictWeak, Sorted, KeyLess, LowerBound, UpperBound, Aimed;
      ghost var was := groupMap;
      var listIt := ListIterator(m);
      IteratorPosition(m);
      node := new ListNode(value);
      var q := Pos(listIt);
      InsertKeepsIndex(lt, keys, nodes, groupMap, key, node, first);
      InsertNoDup(nodes, q, node);
      InsertSorted(lt, keys, key, first);
      nodes, keys := InsertAt(nodes, q, node), InsertAt(keys, q, key);
      LowerFinds(lt, was, key);
      if m != |groupMap| && Equivalent(lt, key, groupMap[m].key) {
        ErasedEntry(lt, was, key, node);
        groupMap := RemoveAt(groupMap, m);
      }
      var l := LowerBound(lt, MapKeys(groupMap), key);
      if l == |groupMap| || !Equivalent(lt, groupMap[l].key, key) {
        groupMap := InsertAt(groupMap, l, Entry(key, node));
      }
    }

    /** Removes a whole group. */
    method EraseGroup(key: Key<G>)
      requires Valid()
      modifies this
      ensures Valid()
      ensures var (lo, hi) := (LowerBound(lt, old(keys), key), UpperBound(lt, old(keys), key));
        && lo <= hi && nodes == Cut(old(nodes), lo, hi) && keys == Cut(old(keys), lo, hi)
    {
      hide StrictWeak, Sorted, KeyLess, LowerBound, UpperBound, Aimed;
      ghost var lo, hi := LowerBound(lt, keys, key), UpperBound(lt, keys, key);
      BoundsSeparate(lt, keys, key);
      var m := LowerBound(lt, MapKeys(groupMap), key);
      LookupLower(lt, keys, nodes, groupMap, key);
      IteratorPosition(m);
      var beginIt := ListIterator(m);
      var endIt := FindUpper(key);
      assert Cut(nodes, lo, lo) == nodes && Cut(keys, lo, lo) == keys;
      if beginIt != endIt {
        GroupEntry(lt, keys, nodes, groupMap, key, lo);
        RemoveKeepsIndex(lt, keys, nodes, groupMap, key, lo, hi);
        CutSorted(lt, keys, lo, hi);
        CutNoDup(nodes, lo, hi);
        nodes, keys := Cut(nodes, Pos(beginIt), Pos(endIt)), Cut(keys, lo, hi);
        groupMap := RemoveAt(groupMap, m);
      }
    }

    /** Removes one node, given its key. The entry of its group moves to the next node, or goes with the last one. */
    method Erase(key: Key<G>, it: ListNode<V>) returns (next: ListNode?<V>)
      requires Valid() && it in nodes && Equivalent(lt, key, keys[IndexOf(nodes, it)])
      modifies this
      ensures Valid()
      ensures var p := IndexOf(old(nodes), it);
        && nodes == RemoveAt(old(nodes), p) && keys == RemoveAt(old(keys), p) && next == NodeAt(nodes, p)
        && groupMap == RemoveIndex(lt, old(keys), old(nodes), old(groupMap), key, p, p + 1)
    {
      hide StrictWeak, Sorted, KeyLess, LowerBound, UpperBound, Aimed;
      ghost var p, lo, hi := IndexOf(nodes, it), LowerBound(lt, keys, key), UpperBound(lt, keys, key);
      BoundsSeparate(lt, keys, key);
      GroupEntry(lt, keys, nodes, groupMap, key, p);
      RemoveKeepsIndex(lt, keys, nodes, groupMap, key, p, p + 1);
      CutSorted(lt, keys, p, p + 1);
      CutNoDup(nodes, p, p + 1);
      CutOne(keys, p);
      CutOne(nodes, p);
      var m := LowerBound(lt, MapKeys(groupMap), key);
      assert m != |groupMap| && Equivalent(lt, groupMap[m].key, key);
      if groupMap[m].node == it {
        IndexOfAt(nodes, lo);
        next := Next(it);
        var endIt := FindUpper(key);
        IteratorsDiffer(nodes, p + 1, hi);
        if next != endIt {
          groupMap := groupMap[m := Entry(groupMap[m].key, next)];
        } else {
          groupMap := RemoveAt(groupMap, m);
        }
      }
      var at := IndexOf(nodes, it);
      nodes, keys := RemoveAt(nodes, at), RemoveAt(keys, p);
      next := NodeAt(nodes, at);
    }

    method Clear()
      requires Valid()
      modifies this
      ensures Valid() && nodes == [] && keys == [] && groupMap == []
    {
      nodes, keys, groupMap := [], [], [];
    }

    /**
     The copy constructor: copies nodes and map, then walks both lists side by side to aim each copied
     entry at the copied node that stands where the original's node stands.
     */
    constructor Copy(other: GroupedList<G, V>)
      requires other.Valid()
      ensures Valid() && lt == other.lt && keys == other.keys
      ensures |nodes| == |other.nodes| && Values() == other.Values()
      ensures forall i :: 0 <= i < |nodes| ==> fresh(nodes[i])
      ensures |groupMap| == |other.groupMap|
      ensures forall j :: 0 <= j < |groupMap| ==>
        && groupMap[j].key == other.groupMap[j].key
        && other.groupMap[j].node in other.nodes
        && groupMap[j].node == nodes[IndexOf(other.nodes, other.groupMap[j].node)]
    {
      lt := other.lt;
      keys := other.keys;
      groupMap := other.groupMap;
      nodes := [];
      new;
      CopyNodes(other);
      AimCopies(other);
    }

    /** The loop over both maps. */
    method AimCopies(other: GroupedList<G, V>)
      requires other.Valid() && other != this && lt == other.lt && keys == other.keys && groupMap == other.groupMap
      requires NoDup(nodes) && |nodes| == |other.nodes|
      modifies this`groupMap
      ensures Valid() && |groupMap| == |other.groupMap|
      ensures forall j :: 0 <= j < |groupMap| ==>
        && groupMap[j].key == other.groupMap[j].key
        && other.groupMap[j].node in other.nodes
        && groupMap[j].node == nodes[IndexOf(other.nodes, other.groupMap[j].node)]
    {
      hide StrictWeak, Sorted, LowerBound, Aimed;
      var j := 0;
      var thisListIt := NodeAt(nodes, 0);
      if |groupMap| > 0 { EntriesInOrder(lt, keys, other.nodes, other.groupMap, 0); }
      while j < |other.groupMap|
        invariant 0 <= j <= |groupMap| == |other.groupMap|
        invariant |groupMap| > 0 ==> thisListIt == NodeAt(nodes, ListPos(lt, keys, other.groupMap, j))
        invariant forall i :: 0 <= i < |groupMap| ==> groupMap[i].key == other.groupMap[i].key
        invariant forall i :: 0 <= i < j ==> NodeAt(nodes, ListPos(lt, keys, other.groupMap, i)) == groupMap[i].node
      {
        EntriesInOrder(lt, keys, other.nodes, other.groupMap, j);
        groupMap := groupMap[j := Entry(groupMap[j].key, thisListIt)];
        thisListIt := WalkGroup(other, j, thisListIt);
        j := j + 1;
      }
      CopyKeepsIndex(lt, keys, other.nodes, other.groupMap, nodes, groupMap);
      forall i | 0 <= i < |groupMap|
        ensures other.groupMap[i].node in other.nodes
        ensures groupMap[i].node == nodes[IndexOf(other.nodes, other.groupMap[i].node)]
      {
        other.IteratorPosition(i);
        EntriesInOrder(lt, keys, other.nodes, other.groupMap, i);
      }
    }

    /** `std::list`'s copy: new nodes with the same values. */
    method CopyNodes(other: GroupedList<G, V>)
      requires other != this && NoDup(other.nodes)
      modifies this`nodes
      ensures |nodes| == |other.nodes| && Values() == other.Values() && NoDup(nodes)
      ensures forall i :: 0 <= i < |nodes| ==> fresh(nodes[i])
    {
      nodes := [];
      for i := 0 to |other.nodes|
        invariant |nodes| == i && NoDup(nodes)
        invariant forall k :: 0 <= k < i ==> fresh(nodes[k]) && nodes[k].value == other.nodes[k].value
      {
        var node := new ListNode(other.nodes[i].value);
        nodes := nodes + [node];
      }
    }

    /** The inner loop: steps both iterators to the next group of the original. */
    method WalkGroup(other: GroupedList<G, V>, j: nat, start: ListNode?<V>) returns (thisListIt: ListNode?<V>)
      requires other.Valid() && j < |other.groupMap| && lt == other.lt && keys == other.keys
      requires NoDup(nodes) && |nodes| == |other.nodes|
      requires start == NodeAt(nodes, ListPos(lt, keys, other.groupMap, j))
      ensures thisListIt == NodeAt(nodes, ListPos(lt, keys, other.groupMap, j + 1))
    {
      hide StrictWeak, Sorted, LowerBound, Aimed;
      ghost var from: int, to: int := ListPos(lt, keys, other.groupMap, j), ListPos(lt, keys, other.groupMap, j + 1);
      EntriesInOrder(lt, keys, other.nodes, other.groupMap, j);
      other.IteratorPosition(j);
      other.IteratorPosition(j + 1);
      thisListIt := start;
      var otherListIt := other.ListIterator(j);
      var otherNextListIt := other.ListIterator(j + 1);
      ghost var p: int := from;
      while otherListIt != otherNextListIt
        invariant from <= p <= to
        invariant otherListIt == NodeAt(other.nodes, p) && thisListIt == NodeAt(nodes, p)
        decreases |other.nodes| - p
      {
        IteratorsDiffer(other.nodes, p, to);
        IndexOfAt(other.nodes, p);
        IndexOfAt(nodes, p);
        otherListIt := other.Next(otherListIt);
        thisListIt := Next(thisListIt);
        p := p + 1;
      }
      IteratorsDiffer(other.nodes, p, to);
    }
  }

  // ---------------------------------------------------------------- facts the methods use

  /** In a list without repeats different positions are different iterators, the end included. */
  lemma IteratorsDiffer<V>(nodes: seq<ListNode<V>>, p: nat, q: nat)
    requires NoDup(nodes) && p <= |nodes| && q <= |nodes|
    ensures NodeAt(nodes, p) == NodeAt(nodes, q) <==> p == q
  {}

  lemma CutNoDup<T>(xs: seq<T>, a: nat, b: nat)
    requires NoDup(xs) && a <= b <= |xs|
    ensures NoDup(Cut(xs, a, b))
  {}

  /** No key is less than the front-ungrouped one: its lower bound is the beginning. */
  lemma NothingBefore<G>(lt: GroupCompare<G>, keys: seq<Key<G>>)
    ensures LowerBound(lt, keys, FrontUngrouped) == 0
  {}

  /** No key is greater than the back-ungrouped one: its upper bound is the end. */
  lemma NothingAfter<G>(lt: GroupCompare<G>, keys: seq<Key<G>>)
    ensures UpperBound(lt, keys, BackUngrouped) == |keys|
  {
    UpperIs(lt, keys, BackUngrouped, |keys|);
  }

  /** After the entry of a group is erased, its key belongs where the entry was. */
  lemma ErasedEntry<G(!new), V>(lt: GroupCompare<G>, index: seq<Entry<G, V>>, k: Key<G>, node: ListNode<V>)
    requires StrictWeak(lt) && IndexSorted(lt, index) && Indexed(lt, index, k)
    ensures var m := LowerBound(lt, MapKeys(index), k);
      && m < |index|
      && LowerBound(lt, MapKeys(RemoveAt(index, m)), k) == m
      && (m < |index| - 1 ==> !Equivalent(lt, RemoveAt(index, m)[m].key, k))
      && InsertAt(RemoveAt(index, m), m, Entry(k, node)) == index[m := Entry(k, node)]
  {
    hide KeyLess, StrictWeak;
    var m := LowerBound(lt, MapKeys(index), k);
    LowerFinds(lt, index, k);
    var rest := MapKeys(RemoveAt(index, m));
    if m < |rest| {
      LowerFinds(lt, index, k);
      assert KeyLess(lt, index[m].key, index[m + 1].key);
      EquivalentLess(lt, k, index[m].key, index[m + 1].key);
      LessIsAsymmetric(lt, k, index[m + 1].key);
    }
    forall i | 0 <= i < m ensures KeyLess(lt, rest[i], k) { assert MapKeys(index)[i] == rest[i]; }
    LowerIs(lt, rest, k, m);
  }
}
