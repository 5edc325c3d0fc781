/**
 The key that orders a slot list: front-ungrouped slots, then grouped slots by their group, then
 back-ungrouped slots. The source's pair of a meta group and an optional group is one datatype here,
 so a group is present exactly when the key is a grouped one.
 */
module GroupKeys {
  import opened Lists

  datatype Key<G> = FrontUngrouped | Grouped(group: G) | BackUngrouped
  {
    function Meta(): nat {
      match this
      case FrontUngrouped => 0
      case Grouped(_) => 1
      case BackUngrouped => 2
    }
  }

  /** `connect_position`. */
  datatype Position = AtBack | AtFront

  type GroupCompare<!G> = (G, G) -> bool

  /** `group_key_less::operator()`. */
  predicate KeyLess<G>(lt: GroupCompare<G>, a: Key<G>, b: Key<G>) {
    if a.Meta() != b.Meta() then a.Meta() < b.Meta()
    else if !a.Grouped? then false
    else lt(a.group, b.group)
  }

  /** `weakly_equivalent`: neither key is less than the other. */
  predicate Equivalent<G>(lt: GroupCompare<G>, a: Key<G>, b: Key<G>) {
    !KeyLess(lt, a, b) && !KeyLess(lt, b, a)
  }

  /** What `std::map` asks of a comparison: irreflexive, transitive, and incomparability is transitive. */
  ghost predicate StrictWeak<T(!new)>(lt: (T, T) -> bool) {
    && (forall x :: !lt(x, x))
    && (forall x, y, z :: lt(x, y) && lt(y, z) ==> lt(x, z))
    && (forall x, y, z :: lt(x, z) ==> lt(x, y) || lt(y, z))
  }

  /** A strict weak order on groups gives a strict weak order on keys. */
  lemma KeyLessIsStrictWeak<G(!new)>(lt: GroupCompare<G>)
    requires StrictWeak(lt)
    ensures StrictWeak((a: Key<G>, b: Key<G>) => KeyLess(lt, a, b))
  {
    var less := (a: Key<G>, b: Key<G>) => KeyLess(lt, a, b);
    forall x, y, z | less(x, z) ensures less(x, y) || less(y, z) {
      KeyLessSplits(lt, x, y, z);
    }
    forall x, y, z | less(x, y) && less(y, z) ensures less(x, z) {
      KeyLessChains(lt, x, y, z);
    }
  }

  lemma KeyLessSplits<G(!new)>(lt: GroupCompare<G>, x: Key<G>, y: Key<G>, z: Key<G>)
    requires StrictWeak(lt) && KeyLess(lt, x, z)
    ensures KeyLess(lt, x, y) || KeyLess(lt, y, z)
  {
    if x.Grouped? && y.Grouped? && z.Grouped? {
      assert lt(x.group, y.group) || lt(y.group, z.group);
    }
  }

  lemma KeyLessChains<G(!new)>(lt: GroupCompare<G>, x: Key<G>, y: Key<G>, z: Key<G>)
    requires StrictWeak(lt) && KeyLess(lt, x, y) && KeyLess(lt, y, z)
    ensures KeyLess(lt, x, z)
  {
    if x.Grouped? && y.Grouped? && z.Grouped? {
      assert lt(x.group, z.group);
    }
  }

  /** Equivalence is transitive: the defining property of a strict weak order, in the form `std::map` states it. */
  lemma EquivalentTransitive<G(!new)>(lt: GroupCompare<G>, x: Key<G>, y: Key<G>, z: Key<G>)
    requires StrictWeak(lt) && Equivalent(lt, x, y) && Equivalent(lt, y, z)
    ensures Equivalent(lt, x, z)
  {
    if KeyLess(lt, x, z) { KeyLessSplits(lt, x, y, z); }
    if KeyLess(lt, z, x) { KeyLessSplits(lt, z, y, x); }
  }

  ghost predicate Sorted<G>(lt: GroupCompare<G>, keys: seq<Key<G>>) {
    forall i, j :: 0 <= i < j < |keys| ==> !KeyLess(lt, keys[j], keys[i])
  }

  /** The first position at or after `from` whose key is not less than `k`. */
  function LowerFrom<G>(lt: GroupCompare<G>, keys: seq<Key<G>>, k: Key<G>, from: nat): (r: nat)
    requires from <= |keys|
    ensures from <= r <= |keys|
    ensures forall i :: from <= i < r ==> KeyLess(lt, keys[i], k)
    ensures r < |keys| ==> !KeyLess(lt, keys[r], k)
    decreases |keys| - from
  {
    if from < |keys| && KeyLess(lt, keys[from], k) then LowerFrom(lt, keys, k, from + 1) else from
  }

  /** The first position at or after `from` whose key is greater than `k`. */
  function UpperFrom<G>(lt: GroupCompare<G>, keys: seq<Key<G>>, k: Key<G>, from: nat): (r: nat)
    requires from <= |keys|
    ensures from <= r <= |keys|
    ensures forall i :: from <= i < r ==> !KeyLess(lt, k, keys[i])
    ensures r < |keys| ==> KeyLess(lt, k, keys[r])
    decreases |keys| - from
  {
    if from < |keys| && !KeyLess(lt, k, keys[from]) then UpperFrom(lt, keys, k, from + 1) else from
  }

  function LowerBound<G>(lt: GroupCompare<G>, keys: seq<Key<G>>, k: Key<G>): (r: nat)
    ensures r <= |keys|
    ensures forall i :: 0 <= i < r ==> KeyLess(lt, keys[i], k)
    ensures r < |keys| ==> !KeyLess(lt, keys[r], k)
  {
    LowerFrom(lt, keys, k, 0)
  }

  function UpperBound<G>(lt: GroupCompare<G>, keys: seq<Key<G>>, k: Key<G>): (r: nat)
    ensures r <= |keys|
    ensures forall i :: 0 <= i < r ==> !KeyLess(lt, k, keys[i])
    ensures r < |keys| ==> KeyLess(lt, k, keys[r])
  {
    UpperFrom(lt, keys, k, 0)
  }

  /** In a sorted list the bounds separate the keys: less before the lower bound, greater from the upper bound on. */
  lemma BoundsSeparate<G(!new)>(lt: GroupCompare<G>, keys: seq<Key<G>>, k: Key<G>)
    requires StrictWeak(lt) && Sorted(lt, keys)
    ensures LowerBound(lt, keys, k) <= UpperBound(lt, keys, k)
    ensures forall i :: LowerBound(lt, keys, k) <= i < |keys| ==> !KeyLess(lt, keys[i], k)
    ensures forall i :: UpperBound(lt, keys, k) <= i < |keys| ==> KeyLess(lt, k, keys[i])
    ensures forall i :: 0 <= i < |keys| ==>
      (Equivalent(lt, keys[i], k) <==> LowerBound(lt, keys, k) <= i < UpperBound(lt, keys, k))
  {
    var lo, hi := LowerBound(lt, keys, k), UpperBound(lt, keys, k);
    forall i | lo <= i < |keys| ensures !KeyLess(lt, keys[i], k) {
      if KeyLess(lt, keys[i], k) { KeyLessSplits(lt, keys[i], keys[lo], k); }
    }
    forall i | hi <= i < |keys| ensures KeyLess(lt, k, keys[i]) {
      KeyLessSplits(lt, k, keys[i], keys[hi]);
    }
    if hi < lo {
      KeyLessChains(lt, k, keys[hi], k);
      assert false;
    }
  }

  lemma LessIsIrreflexive<G(!new)>(lt: GroupCompare<G>, a: Key<G>)
    requires StrictWeak(lt)
    ensures !KeyLess(lt, a, a)
  {
    if a.Grouped? { assert !lt(a.group, a.group); }
  }

  lemma LessIsAsymmetric<G(!new)>(lt: GroupCompare<G>, a: Key<G>, b: Key<G>)
    requires StrictWeak(lt) && KeyLess(lt, a, b)
    ensures !KeyLess(lt, b, a)
  {
    LessIsIrreflexive(lt, a);
    if KeyLess(lt, b, a) { KeyLessChains(lt, a, b, a); }
  }

  /** Inserting a key at its bound keeps the keys sorted. */
  lemma InsertSorted<G(!new)>(lt: GroupCompare<G>, keys: seq<Key<G>>, key: Key<G>, first: bool)
    requires StrictWeak(lt) && Sorted(lt, keys)
    ensures var q := if first then LowerBound(lt, keys, key) else UpperBound(lt, keys, key);
      Sorted(lt, InsertAt(keys, q, key))
  {
    var q := if first then LowerBound(lt, keys, key) else UpperBound(lt, keys, key);
    var r := InsertAt(keys, q, key);
    BoundsSeparate(lt, keys, key);
    forall i, j | 0 <= i < j < |r| ensures !KeyLess(lt, r[j], r[i]) {
      if i < q { assert r[i] == keys[i]; } else if i > q { assert r[i] == keys[i - 1]; }
      if j < q { assert r[j] == keys[j]; } else if j > q { assert r[j] == keys[j - 1]; }
    }
  }

  // ---------------------------------------------------------------- classes of equivalent keys

  /** No two keys of `R` are equivalent. */
  ghost predicate Different<G(!new)>(lt: GroupCompare<G>, R: set<Key<G>>) {
    forall a, b :: a in R && b in R && a != b ==> !Equivalent(lt, a, b)
  }

  /** Some key of `R` is equivalent to `k`. */
  ghost predicate Covered<G(!new)>(lt: GroupCompare<G>, R: set<Key<G>>, k: Key<G>) {
    exists u :: u in R && Equivalent(lt, u, k)
  }

  /** No more than `n` keys of `U` are pairwise inequivalent. */
  ghost predicate AtMostClasses<G(!new)>(lt: GroupCompare<G>, U: set<Key<G>>, n: nat) {
    forall R: set<Key<G>> :: R <= U && Different(lt, R) ==> |R| <= n
  }

  /** One key of each class. */
  lemma {:induction false} Representatives<G(!new)>(lt: GroupCompare<G>, U: set<Key<G>>) returns (R: set<Key<G>>)
    requires StrictWeak(lt)
    ensures R <= U && Different(lt, R) && forall k :: k in U ==> Covered(lt, R, k)
    decreases |U|
  {
    R := {};
    if U != {} {
      var k :| k in U;
      R := Representatives(lt, U - {k});
      if !Covered(lt, R, k) {
        forall a, b | a in R + {k} && b in R + {k} && a != b ensures !Equivalent(lt, a, b) {}
        forall u | u in U ensures Covered(lt, R + {k}, u) {
          if u == k { LessIsIrreflexive(lt, k); } else { CoveredMore(lt, R, R + {k}, u); }
        }
        R := R + {k};
      }
    }
  }

  lemma CoveredMore<G(!new)>(lt: GroupCompare<G>, R: set<Key<G>>, S: set<Key<G>>, k: Key<G>)
    requires R <= S && Covered(lt, R, k)
    ensures Covered(lt, S, k)
  {}

  /** Equivalent keys compare alike with any third. */
  lemma EquivalentLess<G(!new)>(lt: GroupCompare<G>, a: Key<G>, b: Key<G>, k: Key<G>)
    requires StrictWeak(lt) && Equivalent(lt, a, b)
    ensures KeyLess(lt, k, a) <==> KeyLess(lt, k, b)
    ensures KeyLess(lt, a, k) <==> KeyLess(lt, b, k)
  {
    if KeyLess(lt, k, a) { KeyLessSplits(lt, k, b, a); }
    if KeyLess(lt, k, b) { KeyLessSplits(lt, k, a, b); }
    if KeyLess(lt, a, k) { KeyLessSplits(lt, a, b, k); }
    if KeyLess(lt, b, k) { KeyLessSplits(lt, b, a, k); }
  }
}
