/**
 The map from each group to its first list node, as a sorted sequence of entries, and what insertion and
 removal do to it. The invariant `IndexOk` says that it has exactly one entry per non-empty group, aimed
 at the first node of that group.
 */
module GroupIndexes {
  import opened GroupKeys
  import opened Lists

  /** A node of the list. Iterators are references to nodes; `null` is the end iterator. */
  class ListNode<V> {
    const value: V

    constructor (value: V)
      ensures this.value == value
    {
      this.value := value;
    }
  }

  function ValuesOf<V>(nodes: seq<ListNode<V>>): (r: seq<V>)
    ensures |r| == |nodes| && forall i :: 0 <= i < |r| ==> r[i] == nodes[i].value
  {
    seq(|nodes|, i requires 0 <= i < |nodes| => nodes[i].value)
  }

  datatype Entry<G, V> = Entry(key: Key<G>, node: ListNode<V>)

  function MapKeys<G, V>(index: seq<Entry<G, V>>): (r: seq<Key<G>>)
    ensures |r| == |index|
  {
    seq(|index|, i requires 0 <= i < |index| => index[i].key)
  }

  /** The entry points to the first node of its group. */
  ghost predicate Aimed<G, V>(lt: GroupCompare<G>, keys: seq<Key<G>>, nodes: seq<ListNode<V>>, e: Entry<G, V>) {
    var p := LowerBound(lt, keys, e.key);
    p < |keys| && p < |nodes| && Equivalent(lt, keys[p], e.key) && nodes[p] == e.node
  }

  ghost predicate IndexOk<G, V>(lt: GroupCompare<G>, keys: seq<Key<G>>, nodes: seq<ListNode<V>>,
                                index: seq<Entry<G, V>>)
  {
    && |keys| == |nodes|
    && IndexSorted(lt, index)
    && (forall i :: 0 <= i < |index| ==> Aimed(lt, keys, nodes, index[i]))
    && (forall p :: 0 <= p < |keys| ==> Indexed(lt, index, keys[p]))
  }

  ghost predicate IndexSorted<G, V>(lt: GroupCompare<G>, index: seq<Entry<G, V>>) {
    forall i, j :: 0 <= i < j < |index| ==> KeyLess(lt, index[i].key, index[j].key)
  }

  ghost predicate Indexed<G, V>(lt: GroupCompare<G>, index: seq<Entry<G, V>>, k: Key<G>) {
    exists i :: 0 <= i < |index| && Equivalent(lt, k, index[i].key)
  }

  // ---------------------------------------------------------------- order facts

  /** In a strictly sorted index, order of keys is order of positions. */
  lemma IndexOrder<G(!new), V>(lt: GroupCompare<G>, index: seq<Entry<G, V>>, i: nat, j: nat)
    requires StrictWeak(lt) && i < |index| && j < |index|
    requires IndexSorted(lt, index)
    ensures KeyLess(lt, index[i].key, index[j].key) <==> i < j
    ensures Equivalent(lt, index[i].key, index[j].key) ==> i == j
  {
    if j < i { LessIsAsymmetric(lt, index[j].key, index[i].key); }
    LessIsIrreflexive(lt, index[i].key);
  }

  // ---------------------------------------------------------------- looking up

  lemma LowerIs<G>(lt: GroupCompare<G>, keys: seq<Key<G>>, k: Key<G>, r: nat)
    requires r <= |keys| && (forall i :: 0 <= i < r ==> KeyLess(lt, keys[i], k))
    requires r < |keys| ==> !KeyLess(lt, keys[r], k)
    ensures LowerBound(lt, keys, k) == r
  {}

  lemma UpperIs<G>(lt: GroupCompare<G>, keys: seq<Key<G>>, k: Key<G>, r: nat)
    requires r <= |keys| && (forall i :: 0 <= i < r ==> !KeyLess(lt, k, keys[i]))
    requires r < |keys| ==> KeyLess(lt, k, keys[r])
    ensures UpperBound(lt, keys, k) == r
  {}

  /** The list position an index position stands for. */
  ghost function ListPos<G, V>(lt: GroupCompare<G>, keys: seq<Key<G>>, index: seq<Entry<G, V>>, m: nat): nat
    requires m <= |index|
  {
    if m == |index| then |keys| else LowerBound(lt, keys, index[m].key)
  }

  /** The node a list position stands for. */
  function NodeAt<V>(nodes: seq<ListNode<V>>, p: nat): ListNode?<V> {
    if p < |nodes| then nodes[p] else null
  }

  /** Looking a key up in the map gives the bounds of its group in the list. */
  lemma LookupLower<G(!new), V>(lt: GroupCompare<G>, keys: seq<Key<G>>, nodes: seq<ListNode<V>>,
                                index: seq<Entry<G, V>>, k: Key<G>)
    requires StrictWeak(lt) && IndexOk(lt, keys, nodes, index)
    ensures ListPos(lt, keys, index, LowerBound(lt, MapKeys(index), k)) == LowerBound(lt, keys, k)
  {
    var m := LowerBound(lt, MapKeys(index), k);
    var q := ListPos(lt, keys, index, m);
    forall p | 0 <= p < q && p < |keys| ensures KeyLess(lt, keys[p], k) {
      LowerPart(lt, keys, nodes, index, k, p);
    }
    if m < |index| {
      assert Aimed(lt, keys, nodes, index[m]);
      assert !KeyLess(lt, MapKeys(index)[m], k);
      EquivalentLess(lt, keys[q], index[m].key, k);
    }
    LowerIs(lt, keys, k, q);
  }

  lemma LowerPart<G(!new), V>(lt: GroupCompare<G>, keys: seq<Key<G>>, nodes: seq<ListNode<V>>, index: seq<Entry<G, V>>,
                              k: Key<G>, p: nat)
    requires StrictWeak(lt) && IndexOk(lt, keys, nodes, index)
    requires p < |keys| && p < ListPos(lt, keys, index, LowerBound(lt, MapKeys(index), k))
    ensures KeyLess(lt, keys[p], k)
  {
    hide Aimed, StrictWeak, KeyLess, LowerBound;
    var m := LowerBound(lt, MapKeys(index), k);
    assert Indexed(lt, index, keys[p]);
    var x :| 0 <= x < |index| && Equivalent(lt, keys[p], index[x].key);
    if m < |index| {
      assert KeyLess(lt, keys[p], index[m].key);
      EquivalentLess(lt, keys[p], index[x].key, index[m].key);
      IndexOrder(lt, index, x, m);
    }
    assert x < m;
    assert KeyLess(lt, MapKeys(index)[x], k);
    EquivalentLess(lt, keys[p], index[x].key, k);
  }

  lemma LookupUpper<G(!new), V>(lt: GroupCompare<G>, keys: seq<Key<G>>, nodes: seq<ListNode<V>>,
                                index: seq<Entry<G, V>>, k: Key<G>)
    requires StrictWeak(lt) && IndexOk(lt, keys, nodes, index)
    ensures ListPos(lt, keys, index, UpperBound(lt, MapKeys(index), k)) == UpperBound(lt, keys, k)
  {
    var m := UpperBound(lt, MapKeys(index), k);
    var q := ListPos(lt, keys, index, m);
    forall p | 0 <= p < q && p < |keys| ensures !KeyLess(lt, k, keys[p]) {
      UpperPart(lt, keys, nodes, index, k, p);
    }
    if m < |index| {
      assert Aimed(lt, keys, nodes, index[m]);
      assert KeyLess(lt, k, MapKeys(index)[m]);
      EquivalentLess(lt, keys[q], index[m].key, k);
    }
    UpperIs(lt, keys, k, q);
  }

  lemma UpperPart<G(!new), V>(lt: GroupCompare<G>, keys: seq<Key<G>>, nodes: seq<ListNode<V>>, index: seq<Entry<G, V>>,
                              k: Key<G>, p: nat)
    requires StrictWeak(lt) && IndexOk(lt, keys, nodes, index)
    requires p < |keys| && p < ListPos(lt, keys, index, UpperBound(lt, MapKeys(index), k))
    ensures !KeyLess(lt, k, keys[p])
  {
    hide Aimed, StrictWeak, KeyLess, UpperBound;
    var m := UpperBound(lt, MapKeys(index), k);
    assert Indexed(lt, index, keys[p]);
    var x :| 0 <= x < |index| && Equivalent(lt, keys[p], index[x].key);
    if m < |index| {
      assert KeyLess(lt, keys[p], index[m].key);
      EquivalentLess(lt, keys[p], index[x].key, index[m].key);
      IndexOrder(lt, index, x, m);
    }
    assert x < m;
    assert !KeyLess(lt, k, MapKeys(index)[x]);
    EquivalentLess(lt, keys[p], index[x].key, k);
  }

  /** A group is in the index exactly when the entry at its lower bound is equivalent. */
  lemma LowerFinds<G(!new), V>(lt: GroupCompare<G>, index: seq<Entry<G, V>>, k: Key<G>)
    requires StrictWeak(lt)
    requires IndexSorted(lt, index)
    ensures var m := LowerBound(lt, MapKeys(index), k);
      && (Indexed(lt, index, k) <==> m < |index| && Equivalent(lt, k, index[m].key))
      && (forall x :: 0 <= x < |index| && Equivalent(lt, k, index[x].key) ==> x == m)
      && UpperBound(lt, MapKeys(index), k) == if Indexed(lt, index, k) then m + 1 else m
  {
    var m := LowerBound(lt, MapKeys(index), k);
    var u := UpperBound(lt, MapKeys(index), k);
    forall x | 0 <= x < m ensures KeyLess(lt, index[x].key, k) { assert KeyLess(lt, MapKeys(index)[x], k); }
    forall x | 0 <= x < |index| && Equivalent(lt, k, index[x].key) ensures x == m {
      if m < x {
        assert !KeyLess(lt, MapKeys(index)[m], k);
        EquivalentLess(lt, k, index[x].key, index[m].key);
      }
    }
    if m < |index| {
      assert !KeyLess(lt, MapKeys(index)[m], k);
      if !Indexed(lt, index, k) { assert KeyLess(lt, k, index[m].key); }
    }
    var keys, r := MapKeys(index), if Indexed(lt, index, k) then m + 1 else m;
    forall x | 0 <= x < r ensures !KeyLess(lt, k, keys[x]) {
      if x < m { LessIsAsymmetric(lt, keys[x], k); }
    }
    if m < r < |keys| { EquivalentLess(lt, k, keys[m], keys[r]); }
    UpperIs(lt, keys, k, r);
  }

  // ---------------------------------------------------------------- inserting

  /**
   The index after inserting the new node of `k` at list position `q`: a new first node takes over its group's entry.
   */
  function InsertIndex<G, V>(lt: GroupCompare<G>, index: seq<Entry<G, V>>, k: Key<G>, node: ListNode<V>, first: bool)
    : seq<Entry<G, V>>
  {
    var m := LowerBound(lt, MapKeys(index), k);
    var present := m < |index| && Equivalent(lt, k, index[m].key);
    if !present then InsertAt(index, m, Entry(k, node))
    else if first then index[m := Entry(k, node)]
    else index
  }

  /** An entry of another group, or of the same group when the new node is not its first, stays aimed. */
  lemma AimedInsert<G(!new), V>(lt: GroupCompare<G>, keys: seq<Key<G>>, nodes: seq<ListNode<V>>, e: Entry<G, V>,
                                k: Key<G>, node: ListNode<V>, first: bool)
    requires StrictWeak(lt) && Sorted(lt, keys) && |keys| == |nodes| && Aimed(lt, keys, nodes, e)
    requires first ==> !Equivalent(lt, k, e.key)
    ensures var q := if first then LowerBound(lt, keys, k) else UpperBound(lt, keys, k);
      Aimed(lt, InsertAt(keys, q, k), InsertAt(nodes, q, node), e)
  {
    var q, p := if first then LowerBound(lt, keys, k) else UpperBound(lt, keys, k), LowerBound(lt, keys, e.key);
    var keys', nodes' := InsertAt(keys, q, k), InsertAt(nodes, q, node);
    BoundsSeparate(lt, keys, k);
    EquivalentLess(lt, keys[p], e.key, k);
    if q <= p {
      forall i | 0 <= i < p + 1 ensures KeyLess(lt, keys'[i], e.key) {
        if i < q { assert keys'[i] == keys[i]; } else if i > q { assert keys'[i] == keys[i - 1]; }
      }
      LowerIs(lt, keys', e.key, p + 1);
    } else {
      forall i | 0 <= i < p ensures KeyLess(lt, keys'[i], e.key) { assert keys'[i] == keys[i]; }
      LowerIs(lt, keys', e.key, p);
    }
  }

  /** The new node becomes the first of its group: it is inserted in front, or the group was empty. */
  lemma AimedNew<G(!new), V>(lt: GroupCompare<G>, keys: seq<Key<G>>, nodes: seq<ListNode<V>>, k: Key<G>,
                             node: ListNode<V>, q: nat)
    requires StrictWeak(lt) && Sorted(lt, keys) && |keys| == |nodes| && q == LowerBound(lt, keys, k)
    ensures Aimed(lt, InsertAt(keys, q, k), InsertAt(nodes, q, node), Entry(k, node))
  {
    var keys' := InsertAt(keys, q, k);
    LessIsIrreflexive(lt, k);
    forall i | 0 <= i < q ensures KeyLess(lt, keys'[i], k) { assert keys'[i] == keys[i]; }
    LowerIs(lt, keys', k, q);
  }

  /** An empty group has equal bounds. */
  lemma EmptyGroup<G(!new), V>(lt: GroupCompare<G>, keys: seq<Key<G>>, nodes: seq<ListNode<V>>, index: seq<Entry<G, V>>,
                               k: Key<G>)
    requires StrictWeak(lt) && Sorted(lt, keys) && IndexOk(lt, keys, nodes, index) && !Indexed(lt, index, k)
    ensures LowerBound(lt, keys, k) == UpperBound(lt, keys, k)
  {
    BoundsSeparate(lt, keys, k);
    var q := LowerBound(lt, keys, k);
    if q < UpperBound(lt, keys, k) {
      assert Indexed(lt, index, keys[q]);
      var i :| 0 <= i < |index| && Equivalent(lt, keys[q], index[i].key);
      EquivalentTransitive(lt, k, keys[q], index[i].key);
      assert false;
    }
  }

  lemma InsertKeepsIndex<G(!new), V>(lt: GroupCompare<G>, keys: seq<Key<G>>, nodes: seq<ListNode<V>>,
                                     index: seq<Entry<G, V>>, k: Key<G>, node: ListNode<V>, first: bool)
    requires StrictWeak(lt) && Sorted(lt, keys) && IndexOk(lt, keys, nodes, index)
    ensures var q := if first then LowerBound(lt, keys, k) else UpperBound(lt, keys, k);
      IndexOk(lt, InsertAt(keys, q, k), InsertAt(nodes, q, node), InsertIndex(lt, index, k, node, first))
  {
    hide Aimed, LowerBound, UpperBound;
    var q := if first then LowerBound(lt, keys, k) else UpperBound(lt, keys, k);
    var keys', nodes', index' := InsertAt(keys, q, k), InsertAt(nodes, q, node), InsertIndex(lt, index, k, node, first);
    LowerFinds(lt, index, k);
    InsertIndexShape(lt, index, k, node, first);
    if !Indexed(lt, index, k) { EmptyGroup(lt, keys, nodes, index, k); }
    forall i | 0 <= i < |index'| ensures Aimed(lt, keys', nodes', index'[i]) {
      if index'[i] == Entry(k, node) && (first || !Indexed(lt, index, k)) {
        AimedNew(lt, keys, nodes, k, node, q);
      } else {
        var j :| 0 <= j < |index| && index[j] == index'[i] && (first ==> !Equivalent(lt, k, index[j].key));
        AimedInsert(lt, keys, nodes, index[j], k, node, first);
      }
    }
    forall p | 0 <= p < |keys'| ensures Indexed(lt, index', keys'[p]) {
      if p != q {
        var was := if p < q then keys[p] else keys[p - 1];
        assert keys'[p] == was && Indexed(lt, index, was);
      }
    }
  }

  /** The new index is strictly sorted, covers what the old one covered and the new key, and adds nothing else. */
  lemma InsertIndexShape<G(!new), V>(lt: GroupCompare<G>, index: seq<Entry<G, V>>, k: Key<G>, node: ListNode<V>,
                                     first: bool)
    requires StrictWeak(lt) && IndexSorted(lt, index)
    ensures var index' := InsertIndex(lt, index, k, node, first);
      && IndexSorted(lt, index')
      && Indexed(lt, index', k) && (forall x :: Indexed(lt, index, x) ==> Indexed(lt, index', x))
      && (forall i :: 0 <= i < |index'| ==>
           || (index'[i] == Entry(k, node) && (first || !Indexed(lt, index, k)))
           || exists j :: 0 <= j < |index| && index[j] == index'[i] && (first ==> !Equivalent(lt, k, index[j].key)))
  {
    hide KeyLess, StrictWeak;
    var index' := InsertIndex(lt, index, k, node, first);
    var m := LowerBound(lt, MapKeys(index), k);
    LowerFinds(lt, index, k);
    LessIsIrreflexive(lt, k);
    if !Indexed(lt, index, k) {
      InsertEntrySorted(lt, index, k, node);
    } else if first {
      ReplaceEntrySorted(lt, index, k, node);
    }
    assert Indexed(lt, index', k) by {
      assert m < |index'| && Equivalent(lt, k, index'[m].key);
    }
    forall x | Indexed(lt, index, x) ensures Indexed(lt, index', x) {
      var i :| 0 <= i < |index| && Equivalent(lt, x, index[i].key);
      if Indexed(lt, index, k) {
        assert i != m ==> index'[i] == index[i];
        if i == m { EquivalentTransitive(lt, x, index[m].key, k); }
        assert Equivalent(lt, x, index'[i].key);
      } else {
        var j := if i < m then i else i + 1;
        assert index'[j] == index[i];
      }
    }
    forall i | 0 <= i < |index'|
      ensures || (index'[i] == Entry(k, node) && (first || !Indexed(lt, index, k)))
              || exists j :: 0 <= j < |index| && index[j] == index'[i] && (first ==> !Equivalent(lt, k, index[j].key))
    {
      var j := if i <= m || Indexed(lt, index, k) then i else i - 1;
      if i != m { assert index[j] == index'[i]; }
    }
  }

  lemma InsertEntrySorted<G(!new), V>(lt: GroupCompare<G>, index: seq<Entry<G, V>>, k: Key<G>, node: ListNode<V>)
    requires StrictWeak(lt) && IndexSorted(lt, index) && !Indexed(lt, index, k)
    ensures IndexSorted(lt, InsertAt(index, LowerBound(lt, MapKeys(index), k), Entry(k, node)))
  {
    hide KeyLess, StrictWeak, LowerBound, UpperBound;
    var m := LowerBound(lt, MapKeys(index), k);
    var r := InsertAt(index, m, Entry(k, node));
    LowerFinds(lt, index, k);
    forall i, j | 0 <= i < j < |r| ensures KeyLess(lt, r[i].key, r[j].key) {
      if i == m {
        assert KeyLess(lt, k, MapKeys(index)[m]);
        if m < j - 1 { KeyLessChains(lt, k, index[m].key, index[j - 1].key); }
      } else if j == m {
        assert KeyLess(lt, MapKeys(index)[i], k);
      }
    }
  }

  lemma ReplaceEntrySorted<G(!new), V>(lt: GroupCompare<G>, index: seq<Entry<G, V>>, k: Key<G>, node: ListNode<V>)
    requires StrictWeak(lt) && IndexSorted(lt, index) && Indexed(lt, index, k)
    ensures var m := LowerBound(lt, MapKeys(index), k);
      m < |index| && IndexSorted(lt, index[m := Entry(k, node)])
  {
    hide KeyLess, StrictWeak, LowerBound, UpperBound;
    var m := LowerBound(lt, MapKeys(index), k);
    LowerFinds(lt, index, k);
    var r := index[m := Entry(k, node)];
    forall i, j | 0 <= i < j < |r| ensures KeyLess(lt, r[i].key, r[j].key) {
      if i == m { EquivalentLess(lt, k, index[m].key, index[j].key); }
      if j == m { EquivalentLess(lt, k, index[m].key, index[i].key); }
    }
  }

  // ---------------------------------------------------------------- removing

  function Cut<T>(xs: seq<T>, a: nat, b: nat): (r: seq<T>)
    requires a <= b <= |xs|
    ensures |r| == |xs| - (b - a)
    ensures forall i :: 0 <= i < a ==> r[i] == xs[i]
    ensures forall i :: a <= i < |r| ==> r[i] == xs[i + (b - a)]
  {
    xs[..a] + xs[b..]
  }

  lemma CutOne<T>(xs: seq<T>, p: nat)
    requires p < |xs|
    ensures Cut(xs, p, p + 1) == RemoveAt(xs, p)
  {}

  /** Leaving out a stretch of a sorted list leaves it sorted. */
  lemma CutSorted<G(!new)>(lt: GroupCompare<G>, keys: seq<Key<G>>, a: nat, b: nat)
    requires Sorted(lt, keys) && a <= b <= |keys|
    ensures Sorted(lt, Cut(keys, a, b))
  {
    hide KeyLess, StrictWeak;
    var r := Cut(keys, a, b);
    forall i, j | 0 <= i < j < |r| ensures !KeyLess(lt, r[j], r[i]) {
      assert r[i] == keys[if i < a then i else i + (b - a)];
      assert r[j] == keys[if j < a then j else j + (b - a)];
    }
  }

  /** The index after removing the list positions from `a` to `b`, all of them of the group of `k`. */
  function RemoveIndex<G, V>(lt: GroupCompare<G>, keys: seq<Key<G>>, nodes: seq<ListNode<V>>, index: seq<Entry<G, V>>,
                             k: Key<G>, a: nat, b: nat): seq<Entry<G, V>>
  {
    var m := LowerBound(lt, MapKeys(index), k);
    if m == |index| || a != LowerBound(lt, keys, k) then index
    else if b < UpperBound(lt, keys, k) && b < |nodes| then index[m := Entry(index[m].key, nodes[b])]
    else RemoveAt(index, m)
  }

  /** What removing a stretch of the group of `k` needs to know. */
  ghost predicate InGroup<G>(lt: GroupCompare<G>, keys: seq<Key<G>>, k: Key<G>, a: nat, b: nat) {
    LowerBound(lt, keys, k) <= a < b <= UpperBound(lt, keys, k)
  }

  /** An entry of another group, or of the same group when its first node stays, stays aimed. */
  lemma AimedCut<G(!new), V>(lt: GroupCompare<G>, keys: seq<Key<G>>, nodes: seq<ListNode<V>>, e: Entry<G, V>, k: Key<G>,
                             a: nat, b: nat)
    requires StrictWeak(lt) && Sorted(lt, keys) && |keys| == |nodes| && Aimed(lt, keys, nodes, e)
    requires InGroup(lt, keys, k, a, b)
    requires a == LowerBound(lt, keys, k) ==> !Equivalent(lt, k, e.key)
    ensures Aimed(lt, Cut(keys, a, b), Cut(nodes, a, b), e)
  {
    hide KeyLess, StrictWeak;
    var p, lo, hi := LowerBound(lt, keys, e.key), LowerBound(lt, keys, k), UpperBound(lt, keys, k);
    var keys', nodes' := Cut(keys, a, b), Cut(nodes, a, b);
    BoundsSeparate(lt, keys, k);
    if lo <= p < hi {
      EquivalentTransitive(lt, k, keys[p], e.key);
      assert Equivalent(lt, keys[lo], k) && Equivalent(lt, e.key, k);
      EquivalentLess(lt, e.key, k, keys[lo]);
      assert p <= lo;
    }
    if p < a {
      LowerIs(lt, keys', e.key, p);
    } else {
      forall i | 0 <= i < p - (b - a) ensures KeyLess(lt, keys'[i], e.key) {
        assert keys'[i] == keys[if i < a then i else i + (b - a)];
      }
      LowerIs(lt, keys', e.key, p - (b - a));
    }
  }

  /** When the first nodes of a group go and others stay, the next one becomes the first. */
  lemma AimedNext<G(!new), V>(lt: GroupCompare<G>, keys: seq<Key<G>>, nodes: seq<ListNode<V>>, e: Entry<G, V>,
                              k: Key<G>, b: nat)
    requires StrictWeak(lt) && Sorted(lt, keys) && |keys| == |nodes| && Equivalent(lt, k, e.key)
    requires LowerBound(lt, keys, k) < b < UpperBound(lt, keys, k)
    ensures Aimed(lt, Cut(keys, LowerBound(lt, keys, k), b), Cut(nodes, LowerBound(lt, keys, k), b),
                  Entry(e.key, nodes[b]))
  {
    hide KeyLess, StrictWeak;
    var lo := LowerBound(lt, keys, k);
    var keys' := Cut(keys, lo, b);
    BoundsSeparate(lt, keys, k);
    EquivalentTransitive(lt, keys[b], k, e.key);
    forall i | 0 <= i < lo ensures KeyLess(lt, keys'[i], e.key) { EquivalentLess(lt, k, e.key, keys[i]); }
    assert keys'[lo] == keys[b];
    LowerIs(lt, keys', e.key, lo);
  }

  /** A group that has nodes has its entry at the lower bound of its key. */
  lemma GroupEntry<G(!new), V>(lt: GroupCompare<G>, keys: seq<Key<G>>, nodes: seq<ListNode<V>>, index: seq<Entry<G, V>>,
                               k: Key<G>, p: nat)
    requires StrictWeak(lt) && Sorted(lt, keys) && IndexOk(lt, keys, nodes, index) && p < |keys|
    requires Equivalent(lt, k, keys[p])
    ensures var m := LowerBound(lt, MapKeys(index), k);
      && m < |index| && Equivalent(lt, k, index[m].key) && Indexed(lt, index, k)
      && LowerBound(lt, keys, k) < |nodes| && index[m].node == nodes[LowerBound(lt, keys, k)]
  {
    hide KeyLess, StrictWeak, LowerBound, Indexed, IndexSorted, MapKeys;
    GroupIndexed(lt, keys, nodes, index, k, p);
    LowerFinds(lt, index, k);
    LookupLower(lt, keys, nodes, index, k);
    assert Aimed(lt, keys, nodes, index[LowerBound(lt, MapKeys(index), k)]);
  }

  lemma GroupIndexed<G(!new), V>(lt: GroupCompare<G>, keys: seq<Key<G>>, nodes: seq<ListNode<V>>,
                                 index: seq<Entry<G, V>>, k: Key<G>, p: nat)
    requires StrictWeak(lt) && IndexOk(lt, keys, nodes, index) && p < |keys| && Equivalent(lt, k, keys[p])
    ensures Indexed(lt, index, k)
  {
    hide KeyLess, StrictWeak, Aimed;
    assert Indexed(lt, index, keys[p]);
    var x :| 0 <= x < |index| && Equivalent(lt, keys[p], index[x].key);
    EquivalentTransitive(lt, k, keys[p], index[x].key);
  }

  lemma RemoveKeepsIndex<G(!new), V>(lt: GroupCompare<G>, keys: seq<Key<G>>, nodes: seq<ListNode<V>>,
                                     index: seq<Entry<G, V>>, k: Key<G>, a: nat, b: nat)
    requires StrictWeak(lt) && Sorted(lt, keys) && IndexOk(lt, keys, nodes, index) && InGroup(lt, keys, k, a, b)
    ensures IndexOk(lt, Cut(keys, a, b), Cut(nodes, a, b), RemoveIndex(lt, keys, nodes, index, k, a, b))
  {
    hide KeyLess, StrictWeak, LowerBound, UpperBound, Aimed;
    var keys', nodes', index' := Cut(keys, a, b), Cut(nodes, a, b), RemoveIndex(lt, keys, nodes, index, k, a, b);
    var lo, hi, m := LowerBound(lt, keys, k), UpperBound(lt, keys, k), LowerBound(lt, MapKeys(index), k);
    BoundsSeparate(lt, keys, k);
    GroupEntry(lt, keys, nodes, index, k, a);
    LowerFinds(lt, index, k);
    forall i | 0 <= i < |index'| ensures Aimed(lt, keys', nodes', index'[i]) {
      if a == lo && b < hi && i == m {
        AimedNext(lt, keys, nodes, index[m], k, b);
      } else {
        var j := if a == lo && b == hi && m <= i then i + 1 else i;
        AimedCut(lt, keys, nodes, index[j], k, a, b);
      }
    }
    forall p | 0 <= p < |keys'| ensures Indexed(lt, index', keys'[p]) {
      var q := if p < a then p else p + (b - a);
      assert keys'[p] == keys[q] && Indexed(lt, index, keys[q]);
      RemoveIndexCovers(lt, keys, nodes, index, k, a, b, q);
    }
  }

  /** The entry of a key that stays is still there. */
  lemma RemoveIndexCovers<G(!new), V>(lt: GroupCompare<G>, keys: seq<Key<G>>, nodes: seq<ListNode<V>>,
                                      index: seq<Entry<G, V>>, k: Key<G>, a: nat, b: nat, q: nat)
    requires StrictWeak(lt) && Sorted(lt, keys) && IndexOk(lt, keys, nodes, index) && InGroup(lt, keys, k, a, b)
    requires q < |keys| && !(a <= q < b) && Indexed(lt, index, keys[q])
    ensures Indexed(lt, RemoveIndex(lt, keys, nodes, index, k, a, b), keys[q])
  {
    hide KeyLess, StrictWeak, LowerBound, UpperBound, Aimed;
    var index' := RemoveIndex(lt, keys, nodes, index, k, a, b);
    var m := LowerBound(lt, MapKeys(index), k);
    BoundsSeparate(lt, keys, k);
    GroupEntry(lt, keys, nodes, index, k, a);
    var x :| 0 <= x < |index| && Equivalent(lt, keys[q], index[x].key);
    if |index'| == |index| {
      assert index'[x].key == index[x].key;
    } else {
      if x == m { EquivalentTransitive(lt, keys[q], index[m].key, k); }
      assert index'[if x < m then x else x - 1] == index[x];
    }
  }

  // ---------------------------------------------------------------- copying

  /** The entries of a sorted index stand at increasing list positions, the first at the front. */
  lemma EntriesInOrder<G(!new), V>(lt: GroupCompare<G>, keys: seq<Key<G>>, nodes: seq<ListNode<V>>,
                                   index: seq<Entry<G, V>>, m: nat)
    requires StrictWeak(lt) && Sorted(lt, keys) && IndexOk(lt, keys, nodes, index) && m < |index|
    ensures m == 0 ==> ListPos(lt, keys, index, m) == 0
    ensures ListPos(lt, keys, index, m) < ListPos(lt, keys, index, m + 1) <= |keys|
  {
    hide KeyLess, StrictWeak;
    var p := ListPos(lt, keys, index, m);
    assert Aimed(lt, keys, nodes, index[m]);
    if m == 0 && p > 0 {
      assert Indexed(lt, index, keys[0]);
      var x :| 0 <= x < |index| && Equivalent(lt, keys[0], index[x].key);
      EquivalentLess(lt, keys[0], index[x].key, index[0].key);
      IndexOrder(lt, index, x, 0);
      assert false;
    }
    if m + 1 < |index| {
      var e := index[m + 1];
      BoundsSeparate(lt, keys, e.key);
      EquivalentLess(lt, keys[p], index[m].key, e.key);
    }
  }

  /**
   An index copied entry by entry, at the same offsets into another list with the same keys, agrees with that list.
   */
  lemma CopyKeepsIndex<G(!new), V>(lt: GroupCompare<G>, keys: seq<Key<G>>, nodes: seq<ListNode<V>>,
                                   index: seq<Entry<G, V>>, nodes': seq<ListNode<V>>, index': seq<Entry<G, V>>)
    requires IndexOk(lt, keys, nodes, index) && |nodes'| == |nodes| && |index'| == |index|
    requires forall i :: 0 <= i < |index| ==>
      index'[i].key == index[i].key && NodeAt(nodes', ListPos(lt, keys, index, i)) == index'[i].node
    ensures IndexOk(lt, keys, nodes', index')
  {
    forall i | 0 <= i < |index'| ensures Aimed(lt, keys, nodes', index'[i]) { assert Aimed(lt, keys, nodes, index[i]); }
    forall p | 0 <= p < |keys| ensures Indexed(lt, index', keys[p]) {
      assert Indexed(lt, index, keys[p]);
      var i :| 0 <= i < |index| && Equivalent(lt, keys[p], index[i].key);
      assert index'[i].key == index[i].key;
    }
  }
}
