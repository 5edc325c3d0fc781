/**
 How long the slot list can get. Over all runs in which at most L bodies are connected at once and at most k
 inequivalent keys are used, the list stays below (48 L + 24) k entries. GrowthUnbounded shows that L alone bounds
 nothing.
 */
module Growth {
  import opened GroupKeys
  import opened Lists
  import opened BodyCores
  import opened Protocol
  import opened Steps
  import opened Invariants
  import opened GrowthPotential

  // ---------------------------------------------------------------- ranks of keys

  /** The rank of a key class among the keys `U`: how many of them are less. */
  ghost function Rank<G>(lt: GroupCompare<G>, U: set<Key<G>>, k: Key<G>): nat {
    |Below(lt, U, k)|
  }

  ghost function Below<G>(lt: GroupCompare<G>, U: set<Key<G>>, k: Key<G>): set<Key<G>> {
    set u | u in U && KeyLess(lt, u, k)
  }

  lemma SubsetSize<T>(a: set<T>, b: set<T>)
    requires a <= b
    ensures |a| <= |b| && (a != b ==> |a| < |b|)
  {
    assert b == a + (b - a);
    assert |b| == |a| + |b - a|;
    if a != b { assert b - a != {}; }
  }

  lemma RankIff<G(!new)>(lt: GroupCompare<G>, U: set<Key<G>>, a: Key<G>, b: Key<G>)
    requires StrictWeak(lt) && Covered(lt, U, a)
    ensures KeyLess(lt, a, b) <==> Rank(lt, U, a) < Rank(lt, U, b)
    ensures Rank(lt, U, a) < |U|
  {
    var A, B := Below(lt, U, a), Below(lt, U, b);
    var r :| r in U && Equivalent(lt, r, a);
    assert r !in A;
    SubsetSize(A, U);
    if KeyLess(lt, a, b) {
      forall u | u in A ensures u in B { KeyLessChains(lt, u, a, b); }
      EquivalentLess(lt, r, a, b);
      assert r in B;
      SubsetSize(A, B);
    } else {
      forall u | u in B ensures u in A { KeyLessSplits(lt, u, a, b); }
      SubsetSize(B, A);
    }
  }

  // ---------------------------------------------------------------- the view of a state

  /** What the clean-up relies on. It needs no hypothesis on the run. */
  ghost predicate ListInv<G(!new)>(s: State<G>, U: set<Key<G>>) {
    && StrictWeak(s.lt) && Ranges(s) && ListsOk(s)
    && Sorted(s.lt, KeysOf(s.bodies, CurList(s)))
    && (s.gc.Some? ==> s.gc.value in CurList(s))
    && (forall b :: 0 <= b < |s.bodies| ==> Covered(s.lt, U, s.bodies[b].key))
  }

  ghost function ItemsOf<G>(lt: GroupCompare<G>, U: set<Key<G>>, bodies: seq<Body<G>>, xs: seq<nat>): (r: seq<Item>)
    requires forall i :: 0 <= i < |xs| ==> xs[i] < |bodies|
    ensures |r| == |xs|
  {
    seq(|xs|, i requires 0 <= i < |xs| => Item(Rank(lt, U, bodies[xs[i]].key), bodies[xs[i]].core.connected))
  }

  /** The stored iterator as a position; the end stays the end. */
  function GcPos<G>(s: State<G>): (r: nat)
    requires s.current < |s.versions| && s.versions[s.current].list < |s.lists|
    ensures r <= |CurList(s)|
  {
    if s.gc.None? then |CurList(s)| else IndexOf(CurList(s), s.gc.value)
  }

  ghost function ViewOf<G(!new)>(s: State<G>, U: set<Key<G>>): (v: View)
    requires Ranges(s)
    ensures v.g <= |v.items| == |CurList(s)|
  {
    View(ItemsOf(s.lt, U, s.bodies, CurList(s)), GcPos(s))
  }

  lemma ViewSorted<G(!new)>(s: State<G>, U: set<Key<G>>)
    requires ListInv(s, U)
    ensures SortedView(ViewOf(s, U)) && forall i :: 0 <= i < |ViewOf(s, U).items| ==> ViewOf(s, U).items[i].rank < |U|
  {
    ItemsSorted(s.lt, U, s.bodies, CurList(s));
  }

  lemma ItemsSorted<G(!new)>(lt: GroupCompare<G>, U: set<Key<G>>, bodies: seq<Body<G>>, xs: seq<nat>)
    requires StrictWeak(lt) && (forall i :: 0 <= i < |xs| ==> xs[i] < |bodies|) && Sorted(lt, KeysOf(bodies, xs))
    requires forall b :: 0 <= b < |bodies| ==> Covered(lt, U, bodies[b].key)
    ensures var items := ItemsOf(lt, U, bodies, xs);
      && (forall i, j :: 0 <= i < j < |items| ==> items[i].rank <= items[j].rank)
      && (forall i :: 0 <= i < |items| ==> items[i].rank < |U|)
  {
    var items, keys := ItemsOf(lt, U, bodies, xs), KeysOf(bodies, xs);
    forall i, j | 0 <= i < j < |items| ensures items[i].rank <= items[j].rank {
      assert !KeyLess(lt, keys[j], keys[i]);
      RankIff(lt, U, keys[j], keys[i]);
    }
    forall i | 0 <= i < |items| ensures items[i].rank < |U| { RankIff(lt, U, keys[i], keys[i]); }
  }

  // ---------------------------------------------------------------- how many are connected

  ghost function ConnectedSet<G>(s: State<G>): set<nat> {
    set b: nat | b < |s.bodies| && s.bodies[b].core.connected
  }

  lemma {:induction false} LiveIsConnected<G>(lt: GroupCompare<G>, U: set<Key<G>>, bodies: seq<Body<G>>, xs: seq<nat>)
    requires NoDup(xs) && forall i :: 0 <= i < |xs| ==> xs[i] < |bodies|
    ensures LiveIn(ItemsOf(lt, U, bodies, xs)) == |set b | b in xs && bodies[b].core.connected|
  {
    hide Rank, ItemsOf;
    var now := set b | b in xs && bodies[b].core.connected;
    if xs == [] {
      assert now == {};
    } else {
      var later := set b | b in xs[1..] && bodies[b].core.connected;
      TailNoDup(xs);
      LiveIsConnected(lt, U, bodies, xs[1..]);
      ItemsTail(lt, U, bodies, xs);
      assert now == if bodies[xs[0]].core.connected then later + {xs[0]} else later;
    }
  }

  lemma TailNoDup(xs: seq<nat>)
    requires NoDup(xs) && xs != []
    ensures NoDup(xs[1..]) && xs[0] !in xs[1..] && forall x :: x in xs <==> x == xs[0] || x in xs[1..]
  {
    assert xs == [xs[0]] + xs[1..];
  }

  lemma ItemsTail<G>(lt: GroupCompare<G>, U: set<Key<G>>, bodies: seq<Body<G>>, xs: seq<nat>)
    requires xs != [] && forall i :: 0 <= i < |xs| ==> xs[i] < |bodies|
    ensures var items := ItemsOf(lt, U, bodies, xs);
      items[1..] == ItemsOf(lt, U, bodies, xs[1..]) && items[0].live == bodies[xs[0]].core.connected
  {
    hide Rank;
  }

  lemma FewLive<G(!new)>(s: State<G>, U: set<Key<G>>)
    requires ListInv(s, U)
    ensures LiveIn(ViewOf(s, U).items) <= |ConnectedSet(s)|
  {
    var xs := CurList(s);
    LiveIsConnected(s.lt, U, s.bodies, xs);
    SubsetSize((set b | b in xs && s.bodies[b].core.connected), ConnectedSet(s));
  }

  // ---------------------------------------------------------------- the sweep and the view

  lemma OneTurn<G(!new)>(lt: GroupCompare<G>, U: set<Key<G>>, bodies: seq<Body<G>>, xs: seq<nat>, g: nat)
    requires g < |xs| && forall i :: 0 <= i < |xs| ==> xs[i] < |bodies|
    ensures var v := View(ItemsOf(lt, U, bodies, xs), g);
      Examine(v) == if xs[g] in Dead(bodies) then View(ItemsOf(lt, U, bodies, RemoveAt(xs, g)), g) else v.(g := g + 1)
  {
    hide Rank;
    if xs[g] in Dead(bodies) {
      assert Examine(View(ItemsOf(lt, U, bodies, xs), g)).items == ItemsOf(lt, U, bodies, RemoveAt(xs, g));
    }
  }

  lemma {:induction false} SweepIsExamine<G(!new)>(lt: GroupCompare<G>, U: set<Key<G>>, bodies: seq<Body<G>>,
                                                   xs: seq<nat>, g: nat, n: nat)
    requires g <= |xs| && forall i :: 0 <= i < |xs| ==> xs[i] < |bodies|
    ensures var (ys, p) := SweepFrom<nat>(xs, Dead(bodies), g, n);
      && (forall i :: 0 <= i < |ys| ==> ys[i] < |bodies|)
      && View(ItemsOf(lt, U, bodies, ys), p) == ExamineN(View(ItemsOf(lt, U, bodies, xs), g), n)
    decreases n
  {
    hide Rank, Examine, ItemsOf;
    if n != 0 && g < |xs| {
      OneTurn(lt, U, bodies, xs, g);
      if xs[g] in Dead(bodies) {
        SweepIsExamine(lt, U, bodies, RemoveAt(xs, g), g, n - 1);
      } else {
        SweepIsExamine(lt, U, bodies, xs, g + 1, n - 1);
      }
    }
  }

  /** A clean-up keeps the list invariant; in the view it is: some entries disconnect, then `n` turns from `start`. */
  lemma SweepView<G(!new)>(s: State<G>, U: set<Key<G>>, verdict: set<nat>, start: nat, n: nat)
    requires Ranges(s) && ListsOk(s) && StrictWeak(s.lt) && Sorted(s.lt, KeysOf(s.bodies, CurList(s)))
    requires forall b :: 0 <= b < |s.bodies| ==> Covered(s.lt, U, s.bodies[b].key)
    requires start <= |CurList(s)|
    ensures var t := SweepCur(s, verdict, start, n);
      && ListInv(t, U)
      && t.bodies == Expire(s.bodies, set b | b in verdict && b in CurList(s)[start..Min(start + n, |CurList(s)|)])
      && var ys := ItemsOf(s.lt, U, t.bodies, CurList(s));
         Flipped(ItemsOf(s.lt, U, s.bodies, CurList(s)), ys) && ViewOf(t, U) == ExamineN(View(ys, start), n)
  {
    var t, xs := SweepCur(s, verdict, start, n), CurList(s);
    SweepRanges(s, verdict, start, n);
    SweepIsExamine(s.lt, U, t.bodies, xs, start, n);
    SweepLists(s, verdict, start, n);
    var (ys, p) := SweepFrom<nat>(xs, Dead(t.bodies), start, n);
    assert CurList(t) == ys;
    if p < |ys| { IndexOfAt(ys, p); }
  }

  lemma SweepLists<G(!new)>(s: State<G>, verdict: set<nat>, start: nat, n: nat)
    requires Ranges(s) && ListsOk(s) && Sorted(s.lt, KeysOf(s.bodies, CurList(s))) && start <= |CurList(s)|
    ensures var t := SweepCur(s, verdict, start, n);
      Ranges(t) && ListsOk(t) && Sorted(t.lt, KeysOf(t.bodies, CurList(t))) && (t.gc.Some? ==> t.gc.value in CurList(t))
  {
    var t, xs := SweepCur(s, verdict, start, n), CurList(s);
    SweepRanges(s, verdict, start, n);
    var at := SweepSubseq(xs, Dead(t.bodies), start, n);
    var ys := CurList(t);
    assert SubseqBy(ys, xs, at);
    assert NoDup(ys);
    assert forall k :: 0 <= k < |ys| ==> KeysOf(t.bodies, ys)[k] == KeysOf(s.bodies, xs)[at[k]];
  }

  ghost predicate Grown<G(!new)>(s: State<G>, U: set<Key<G>>, acc: Account, L: nat) {
    ListInv(s, U) && Bounded(ViewOf(s, U), acc, L, |U|)
  }

  /** A few entries cleaned, from the stored iterator on. */
  lemma CleanFewGrown<G(!new)>(s: State<G>, U: set<Key<G>>, verdict: set<nat>, n: nat, acc: Account, L: nat)
      returns (acc': Account)
    requires Grown(s, U, acc, L)
    ensures Grown(CleanFew(s, verdict, n), U, acc', L)
  {
    hide Bounded;
    SweepView(s, U, verdict, GcStart(s), n);
    var t := CleanFew(s, verdict, n);
    var ys := ItemsOf(s.lt, U, t.bodies, CurList(s));
    FlipBounded(ViewOf(s, U), acc, ys, L, |U|);
    assert View(ys, GcStart(s)) == Restart(View(ys, GcPos(s)));
    acc' := RestartBounded(View(ys, GcPos(s)), acc, L, |U|);
    acc' := ExamineNBounded(View(ys, GcStart(s)), acc', n, L, |U|);
  }

  /** A full clean-up leaves a list of connected bodies. */
  lemma CleanAllGrown<G(!new)>(s: State<G>, U: set<Key<G>>, verdict: set<nat>, L: nat)
    requires Ranges(s) && ListsOk(s) && StrictWeak(s.lt) && Sorted(s.lt, KeysOf(s.bodies, CurList(s)))
    requires forall b :: 0 <= b < |s.bodies| ==> Covered(s.lt, U, s.bodies[b].key)
    requires |ConnectedSet(CleanAll(s, verdict))| <= L
    ensures Grown(CleanAll(s, verdict), U, Rest, L)
    ensures var t := CleanAll(s, verdict); t.gc.None? && forall b :: b in CurList(t) ==> t.bodies[b].core.connected
  {
    var t := CleanAll(s, verdict);
    SweepView(s, U, verdict, 0, |CurList(s)|);
    CleanAllLeavesConnected(s, verdict);
    ViewSorted(t, U);
    FewLive(t, U);
    forall i | 0 <= i < |ViewOf(t, U).items| ensures ViewOf(t, U).items[i].live {
      assert CurList(t)[i] in CurList(t);
    }
    CleanBounded(ViewOf(t, U), L, |U|);
  }

  // ---------------------------------------------------------------- connect

  /** Where a key goes: never inside a run of equivalent keys. */
  lemma InsertAtBound<G(!new)>(lt: GroupCompare<G>, keys: seq<Key<G>>, key: Key<G>, q: nat)
    requires StrictWeak(lt) && Sorted(lt, keys) && 0 < q < |keys|
    requires q == UpperBound(lt, keys, key) || q == LowerBound(lt, keys, key)
    ensures KeyLess(lt, keys[q - 1], keys[q])
  {
    if q == UpperBound(lt, keys, key) {
      assert KeyLess(lt, key, keys[q]) && !KeyLess(lt, key, keys[q - 1]);
      KeyLessSplits(lt, key, keys[q - 1], keys[q]);
    } else {
      assert KeyLess(lt, keys[q - 1], key) && !KeyLess(lt, keys[q], key);
      KeyLessSplits(lt, keys[q - 1], keys[q], key);
    }
  }

  lemma AddBodyItems<G(!new)>(s: State<G>, t: State<G>, U: set<Key<G>>, key: Key<G>, position: Position,
                              tracked: seq<Tracked>)
    requires Ranges(s) && Ranges(t) && t == AddBody(s, key, position, tracked)
    ensures var q := InsertPos(s, key, position);
      ItemsOf(t.lt, U, t.bodies, CurList(t)) ==
        ItemsOf(s.lt, U, s.bodies, CurList(s))[..q] + [Item(Rank(s.lt, U, key), true)]
        + ItemsOf(s.lt, U, s.bodies, CurList(s))[q..]
  {
    hide Rank;
  }

  /** The stored iterator survives an insertion: it keeps pointing at its entry, or at the end. */
  lemma AddBodyGc<G(!new)>(s: State<G>, t: State<G>, key: Key<G>, position: Position, tracked: seq<Tracked>)
    requires Ranges(s) && Ranges(t) && NoDup(CurList(t)) && t == AddBody(s, key, position, tracked)
    requires s.gc.Some? ==> s.gc.value in CurList(s)
    ensures var g, q := GcPos(s), InsertPos(s, key, position);
      GcPos(t) == if g == |CurList(s)| || q <= g then g + 1 else g
    ensures t.gc.Some? ==> t.gc.value in CurList(t)
  {
    var xs, ys, q := CurList(s), CurList(t), InsertPos(s, key, position);
    if s.gc.Some? {
      var g := IndexOf(xs, s.gc.value);
      var g' := if q <= g then g + 1 else g;
      assert ys[g'] == s.gc.value;
      IndexOfAt(ys, g');
    }
  }

  lemma AddBodyBound<G(!new)>(s: State<G>, U: set<Key<G>>, key: Key<G>, position: Position)
    requires ListInv(s, U)
    ensures AtClassBound(ViewOf(s, U), InsertPos(s, key, position))
  {
    hide Rank;
    var q, keys := InsertPos(s, key, position), KeysOf(s.bodies, CurList(s));
    if 0 < q < |CurList(s)| {
      InsertAtBound(s.lt, keys, key, q);
      RankIff(s.lt, U, keys[q - 1], keys[q]);
    }
  }

  lemma AddBodyView<G(!new)>(s: State<G>, t: State<G>, U: set<Key<G>>, key: Key<G>, position: Position,
                             tracked: seq<Tracked>)
    requires ListInv(s, U) && Covered(s.lt, U, key) && t == AddBody(s, key, position, tracked)
    ensures var q := InsertPos(s, key, position);
      && ListInv(t, U) && AtClassBound(ViewOf(s, U), q)
      && ViewOf(t, U) == InsertView(ViewOf(s, U), q, Item(Rank(s.lt, U, key), true))
  {
    hide Rank, ItemsOf;
    AddBodyList(s, key, position, tracked);
    AddBodyGc(s, t, key, position, tracked);
    AddBodyItems(s, t, U, key, position, tracked);
    AddBodyBound(s, U, key, position);
  }

  lemma ConnectUniqueGrown<G(!new)>(s: State<G>, c: State<G>, t: State<G>, U: set<Key<G>>, key: Key<G>,
                                    position: Position, tracked: seq<Tracked>, verdict: set<nat>, acc: Account, L: nat)
      returns (acc': Account)
    requires Grown(s, U, acc, L) && Covered(s.lt, U, key)
    requires c == CleanFew(s, verdict, 2) && Ranges(c) && t == AddBody(c, key, position, tracked)
    requires |ConnectedSet(t)| <= L
    ensures Grown(t, U, acc', L)
  {
    hide Bounded, Rank;
    SweepView(s, U, verdict, GcStart(s), 2);
    var ys := ItemsOf(s.lt, U, c.bodies, CurList(s));
    FlipBounded(ViewOf(s, U), acc, ys, L, |U|);
    var v := View(ys, GcPos(s));
    assert View(ys, GcStart(s)) == Restart(v);
    AddBodyView(c, t, U, key, position, tracked);
    ViewSorted(t, U);
    FewLive(t, U);
    RankIff(s.lt, U, key, key);
    acc' := ConnectBounded(v, acc, InsertPos(c, key, position), Item(Rank(s.lt, U, key), true), L, |U|);
  }

  lemma ConnectCopyGrown<G(!new)>(c0: State<G>, c: State<G>, t: State<G>, U: set<Key<G>>, key: Key<G>,
                                  position: Position, tracked: seq<Tracked>, verdict: set<nat>, L: nat)
    requires Ranges(c0) && ListsOk(c0) && StrictWeak(c0.lt) && Sorted(c0.lt, KeysOf(c0.bodies, CurList(c0)))
    requires (forall b :: 0 <= b < |c0.bodies| ==> Covered(c0.lt, U, c0.bodies[b].key)) && Covered(c0.lt, U, key)
    requires c == CleanAll(c0, verdict) && Ranges(c) && t == AddBody(c, key, position, tracked)
    requires |ConnectedSet(t)| <= L
    ensures Grown(t, U, Rest, L)
  {
    hide Rank;
    var q := InsertPos(c, key, position);
    SubsetSize(ConnectedSet(c), ConnectedSet(t));
    CleanAllGrown(c0, U, verdict, L);
    AddBodyView(c, t, U, key, position, tracked);
    ViewSorted(t, U);
    FewLive(t, U);
    forall i | 0 <= i < |ViewOf(t, U).items| ensures ViewOf(t, U).items[i].live {
      if i < q { assert CurList(c)[i] in CurList(c); } else if i > q { assert CurList(c)[i - 1] in CurList(c); }
    }
    CleanBounded(ViewOf(t, U), L, |U|);
  }

  // ---------------------------------------------------------------- every step

  lemma SameListGrown<G(!new)>(s: State<G>, t: State<G>, U: set<Key<G>>, acc: Account, L: nat)
    requires Grown(s, U, acc, L) && SameList(s, t)
    ensures Grown(t, U, acc, L)
  {
    hide Rank, Bounded;
    assert KeysOf(t.bodies, CurList(t)) == KeysOf(s.bodies, CurList(s));
    FlipBounded(ViewOf(s, U), acc, ViewOf(t, U).items, L, |U|);
  }

  /** One more record of a holder, or another record for one, does not concern the list. */
  lemma RecordGrown<G(!new)>(s: State<G>, t: State<G>, U: set<Key<G>>, acc: Account, L: nat)
    requires Grown(s, U, acc, L) && t == s.(invs := t.invs)
    requires forall i :: 0 <= i < |t.invs| ==> InvRanges(t, t.invs[i])
    ensures Grown(t, U, acc, L)
  {
    assert SameList(s, t);
    SameListGrown(s, t, U, acc, L);
  }

  lemma ConnectGrown<G(!new)>(s: State<G>, step: Step<G>, U: set<Key<G>>, acc: Account, L: nat) returns (acc': Account)
    requires Grown(s, U, acc, L) && Enabled(s, step) && step.Connect? && Covered(s.lt, U, step.key)
    requires |ConnectedSet(Apply(s, step))| <= L
    ensures Grown(Apply(s, step), U, acc', L)
  {
    hide Bounded, CleanFew, CleanAll, AddBody;
    ForceUniqueRanges(s, step.verdict);
    var c, t := ForceUnique(s, step.verdict), Apply(s, step);
    if Unique(s) {
      acc' := ConnectUniqueGrown(s, c, t, U, step.key, step.position, step.tracked, step.verdict, acc, L);
    } else {
      acc' := Rest;
      CopyListFacts(s);
      ConnectCopyGrown(CopyList(s), c, t, U, step.key, step.position, step.tracked, step.verdict, L);
    }
  }

  lemma ForceCleanupGrown<G(!new)>(s: State<G>, list: nat, U: set<Key<G>>, acc: Account, L: nat) returns (acc': Account)
    requires Grown(s, U, acc, L) && |ConnectedSet(ForceCleanup(s, list))| <= L
    ensures Grown(ForceCleanup(s, list), U, acc', L)
  {
    hide Bounded, CleanAll;
    acc' := acc;
    if CurId(s) == list {
      acc' := Rest;
      CopyListFacts(s);
      CleanAllGrown(if Unique(s) then s else CopyList(s), U, {}, L);
    }
  }

  lemma JanitorGrown<G(!new)>(s: State<G>, i: nat, U: set<Key<G>>, acc: Account, L: nat) returns (acc': Account)
    requires Grown(s, U, acc, L) && Enabled(s, Step<G>.Janitor(i))
    requires |ConnectedSet(Apply(s, Janitor(i)))| <= L
    ensures Grown(Apply(s, Janitor(i)), U, acc', L)
  {
    hide Bounded, ForceCleanup, ListsOk, Sorted;
    var v := s.invs[i];
    assert InvRanges(s, v);
    acc' := acc;
    var c := if v.disc > v.conn then ForceCleanup(s, WalkedId(s, i)) else s;
    ForceCleanupGrows(s, WalkedId(s, i));
    assert ConnectedSet(c) == ConnectedSet(Apply(s, Janitor(i)));
    if v.disc > v.conn { acc' := ForceCleanupGrown(s, WalkedId(s, i), U, acc, L); }
    RecordRanges(c, i, Swept);
    RecordGrown(c, SetPc(c, i, Swept), U, acc', L);
  }

  lemma BeginGrown<G(!new)>(s: State<G>, U: set<Key<G>>, acc: Account, L: nat) returns (acc': Account)
    requires Grown(s, U, acc, L) && Enabled(s, Step<G>.Begin)
    ensures Grown(Apply(s, Begin), U, acc', L)
  {
    hide Bounded, CleanFew;
    var t := Apply(s, Begin);
    acc' := acc;
    var c := if Unique(s) then CleanFew(s, {}, 1) else s;
    SweepRanges(s, {}, GcStart(s), 1);
    if Unique(s) { acc' := CleanFewGrown(s, U, {}, 1, acc, L); }
    assert t == c.(invs := c.invs + [NewInv(c, Scanning)]);
    forall j | 0 <= j < |t.invs| ensures InvRanges(t, t.invs[j]) {
      if j < |c.invs| { assert InvRanges(c, c.invs[j]); }
    }
    RecordGrown(c, t, U, acc', L);
  }

  /** Every step keeps the bound, whatever the run did to combiners. */
  lemma StepGrown<G(!new)>(s: State<G>, step: Step<G>, U: set<Key<G>>, acc: Account, L: nat) returns (acc': Account)
    requires Grown(s, U, acc, L) && Enabled(s, step) && (step.Connect? ==> Covered(s.lt, U, step.key))
    requires |ConnectedSet(Apply(s, step))| <= L
    ensures Grown(Apply(s, step), U, acc', L)
  {
    hide Bounded, Apply;
    acc' := acc;
    if step.Connect? { acc' := ConnectGrown(s, step, U, acc, L); }
    else if step.Begin? { acc' := BeginGrown(s, U, acc, L); }
    else if step.Janitor? { acc' := JanitorGrown(s, step.i, U, acc, L); }
    else {
      StepSameList(s, step);
      SameListGrown(s, Apply(s, step), U, acc, L);
    }
  }

  // ---------------------------------------------------------------- every run

  /** At most `L` bodies are connected at once, throughout the run. */
  ghost predicate FewConnected<G(!new)>(s: State<G>, steps: seq<Step<G>>, L: nat)
    decreases |steps|
  {
    && |ConnectedSet(s)| <= L
    && (steps != [] ==> Ranges(s) && Enabled(s, steps[0]) && FewConnected(Apply(s, steps[0]), steps[1..], L))
  }

  /** The keys slots are connected under in the run. */
  ghost function KeysUsed<G(!new)>(steps: seq<Step<G>>): set<Key<G>> {
    set i | 0 <= i < |steps| && steps[i].Connect? :: steps[i].key
  }

  lemma {:induction false} RunGrown<G(!new)>(s: State<G>, steps: seq<Step<G>>, t: State<G>, U: set<Key<G>>,
                                             acc: Account, L: nat)
      returns (acc': Account)
    requires Grown(s, U, acc, L) && Runs(s, steps, t) && FewConnected(s, steps, L)
    requires forall i :: 0 <= i < |steps| && steps[i].Connect? ==> Covered(s.lt, U, steps[i].key)
    ensures Grown(t, U, acc', L)
    decreases |steps|
  {
    hide Grown, Apply, Enabled;
    acc' := acc;
    if steps != [] {
      var u := Apply(s, steps[0]);
      assert FewConnected(u, steps[1..], L);
      acc' := StepGrown(s, steps[0], U, acc, L);
      StepKeepsOrder(s, steps[0]);
      forall i | 0 <= i < |steps[1..]| && steps[1..][i].Connect? ensures Covered(u.lt, U, steps[1..][i].key) {
        assert steps[1..][i] == steps[i + 1];
      }
      acc' := RunGrown(u, steps[1..], t, U, acc', L);
    }
  }

  /** With a key of each class at hand. */
  lemma GrowthOver<G(!new)>(lt: GroupCompare<G>, combiner: int, owned: set<nat>, steps: seq<Step<G>>, t: State<G>,
                            L: nat, U: set<Key<G>>)
    requires StrictWeak(lt) && Runs(Init(lt, combiner, owned), steps, t)
    requires FewConnected(Init(lt, combiner, owned), steps, L)
    requires forall i :: 0 <= i < |steps| && steps[i].Connect? ==> Covered(lt, U, steps[i].key)
    ensures Ranges(t) && |CurList(t)| <= (48 * L + 24) * |U|
  {
    var s := Init(lt, combiner, owned);
    assert ViewOf(s, U) == View([], 0);
    assert Bounded(View([], 0), Rest, L, |U|);
    var acc := RunGrown(s, steps, t, U, Rest, L);
    LengthBound(ViewOf(t, U), acc, L, |U|);
    CapNumber(L, |U|);
  }

  /**
   Bounded growth: with at most L bodies connected at once and at most k inequivalent keys in use, the slot list of
   a signal never has more than (48 L + 24) k entries, connected or not.
   */
  lemma BoundedGrowth<G(!new)>(lt: GroupCompare<G>, combiner: int, owned: set<nat>, steps: seq<Step<G>>, t: State<G>,
                               L: nat, k: nat)
    requires StrictWeak(lt) && Runs(Init(lt, combiner, owned), steps, t)
    requires FewConnected(Init(lt, combiner, owned), steps, L) && AtMostClasses(lt, KeysUsed(steps), k)
    ensures Ranges(t) && |CurList(t)| <= (48 * L + 24) * k
  {
    var U := Representatives(lt, KeysUsed(steps));
    forall i | 0 <= i < |steps| && steps[i].Connect? ensures Covered(lt, U, steps[i].key) {
      assert steps[i].key in KeysUsed(steps);
    }
    GrowthOver(lt, combiner, owned, steps, t, L, U);
    FewerTimes(48 * L + 24, |U|, k);
  }

  lemma FewerTimes(c: nat, m: nat, k: nat)
    requires m <= k
    ensures c * m <= c * k
  {}

  lemma CapNumber(L: nat, k: nat)
    ensures 2 * Cap(L, k) == (48 * L + 24) * k
  {
    CapIsProduct(L, k);
    calc {
      2 * Cap(L, k);
      2 * (Cost(L) * k);
      (2 * Cost(L)) * k;
      { assert 2 * Cost(L) == 48 * L + 24; }
      (48 * L + 24) * k;
    }
  }
}
