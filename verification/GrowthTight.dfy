/**
 With at most two bodies connected at once the slot list never has more than three entries, whatever keys are
 used. At most one body is connected when a connect examines two entries, so one of them goes. Only when a single
 entry is left to read, and that is connected, does the list grow; and then it was shorter before.
 */
module GrowthTight {
  import opened GroupKeys
  import opened Protocol
  import opened Steps
  import opened Invariants
  import opened GrowthPotential
  import opened Growth

  // ---------------------------------------------------------------- the view

  /** The entries the sweep has still to read; at the end, the next one starts over. */
  function Pending(v: View): seq<Item>
    requires v.g <= |v.items|
  {
    if v.g == |v.items| then v.items else v.items[v.g..]
  }

  /** The sweep may come to its last entry and find it connected. */
  ghost predicate AtRisk(v: View)
    requires v.g <= |v.items|
  {
    1 <= |Pending(v)| <= 2 && forall i :: 0 <= i < |Pending(v)| ==> Pending(v)[i].live
  }

  ghost predicate Tight(v: View) {
    v.g <= |v.items| && |v.items| + (if AtRisk(v) then 1 else 0) <= 3
  }

  lemma FlipTight(v: View, ys: seq<Item>)
    requires Tight(v) && Flipped(v.items, ys)
    ensures Tight(View(ys, v.g))
  {
    var w := View(ys, v.g);
    if AtRisk(w) {
      forall i | 0 <= i < |Pending(v)| ensures Pending(v)[i].live { assert Pending(w)[i].live; }
    }
  }

  lemma ExamineTight(v: View)
    requires Tight(v) && v.g < |v.items| && LiveIn(v.items) <= 2
    ensures Tight(Examine(v))
  {
    var w := Examine(v);
    ExamineTail(v);
    if v.items[v.g].live && AtRisk(w) && w.g < |w.items| {
      assert Pending(v) == [v.items[v.g]] + Pending(w);
      assert forall i :: 0 <= i < |Pending(v)| ==> Pending(v)[i].live;
      if |Pending(v)| == 3 {
        assert Pending(v) == v.items;
        LiveAll(v.items);
        assert false;
      }
    }
  }

  lemma {:induction false} ExamineNTight(v: View, n: nat)
    requires Tight(v) && LiveIn(v.items) <= 2
    ensures Tight(ExamineN(v, n))
    decreases n
  {
    if n != 0 && v.g < |v.items| {
      ExamineTight(v);
      ExamineTail(v);
      ExamineNTight(Examine(v), n - 1);
    }
  }

  lemma LiveInserted(v: View, q: nat, item: Item)
    requires v.g <= |v.items| && q <= |v.items| && item.live
    ensures LiveIn(InsertView(v, q, item).items) == LiveIn(v.items) + 1
  {
    LiveSplit(v.items[..q], v.items[q..]);
    LiveSplit(v.items[..q] + [item], v.items[q..]);
    LiveSplit(v.items[..q], [item]);
    assert v.items == v.items[..q] + v.items[q..];
  }

  /** One connect: at most one of the entries left was connected before. */
  lemma ConnectTight(v: View, q: nat, item: Item)
    requires Tight(v) && (v.g == |v.items| ==> v.items == []) && item.live
    requires q <= |ExamineN(v, 2).items| && LiveIn(InsertView(ExamineN(v, 2), q, item).items) <= 2
    ensures Tight(InsertView(ExamineN(v, 2), q, item))
  {
    var w := ExamineN(v, 2);
    LiveInserted(w, q, item);
    if v.g < |v.items| {
      var u := Examine(v);
      assert w == ExamineN(u, 1);
      if u.g < |u.items| {
        assert w == ExamineN(Examine(u), 0) == Examine(u);
        TwoReadTight(v, u, w, q, item);
      } else {
        assert w == u;
      }
    }
  }

  lemma TwoReadTight(v: View, u: View, w: View, q: nat, item: Item)
    requires Tight(v) && v.g < |v.items| && u == Examine(v) && u.g < |u.items| && w == Examine(u)
    requires item.live && q <= |w.items| && LiveIn(w.items) <= 1
    ensures Tight(InsertView(w, q, item))
  {
    hide LiveIn, Examine;
    AtMostOne(w.items);
    TwoRead(v, u, w);
    if |w.items| == 2 { OneStepped(w, q, item); }
  }

  /** Of two entries read one goes at least, and if only one, the other is connected and behind the iterator. */
  lemma TwoRead(v: View, u: View, w: View)
    requires v.g < |v.items| && u == Examine(v) && u.g < |u.items| && w == Examine(u)
    requires forall i, j :: 0 <= i < j < |w.items| ==> !(w.items[i].live && w.items[j].live)
    ensures w.g <= |w.items| <= |v.items| - 1
    ensures |w.items| == |v.items| - 1 ==> w.g >= 1 && w.items[w.g - 1].live
  {
  }

  /** Two entries left, the connected one behind the iterator: what is inserted does not put the sweep at risk. */
  lemma OneStepped(w: View, q: nat, item: Item)
    requires |w.items| == 2 && 1 <= w.g <= 2 && w.items[w.g - 1].live && q <= 2
    requires !(w.items[0].live && w.items[1].live)
    ensures !AtRisk(InsertView(w, q, item))
  {
    var t := InsertView(w, q, item);
    if w.g == 2 {
      assert |Pending(t)| == 3;
    } else if q <= 1 {
      assert Pending(t)[0] == w.items[1];
    } else {
      assert Pending(t)[0] == w.items[1];
    }
  }

  lemma AtMostOne(xs: seq<Item>)
    requires LiveIn(xs) <= 1
    ensures forall i, j :: 0 <= i < j < |xs| ==> !(xs[i].live && xs[j].live)
  {
    forall i, j | 0 <= i < j < |xs| ensures !(xs[i].live && xs[j].live) {
      LiveSplit(xs[..j], xs[j..]);
      LiveSplit(xs[..i], xs[i..j]);
      assert xs == xs[..j] + xs[j..] && xs[..j] == xs[..i] + xs[i..j];
    }
  }

  lemma CleanTight(v: View)
    requires v.g <= |v.items| && LiveIn(v.items) <= 2 && forall i :: 0 <= i < |v.items| ==> v.items[i].live
    ensures Tight(v)
  {
    LiveAll(v.items);
  }

  // ---------------------------------------------------------------- every step

  ghost predicate TightState<G(!new)>(s: State<G>, U: set<Key<G>>) {
    ListInv(s, U) && Tight(ViewOf(s, U)) && |ConnectedSet(s)| <= 2
  }

  /** A few entries cleaned, from the stored iterator on. */
  lemma CleanFewTight<G(!new)>(s: State<G>, U: set<Key<G>>, verdict: set<nat>, n: nat)
    requires TightState(s, U)
    ensures var t := CleanFew(s, verdict, n); ListInv(t, U) && Tight(ViewOf(t, U))
  {
    hide Tight, LiveIn, ListInv;
    FromTight(s, U);
    var v := FlippedView(s, U, verdict, n);
    ExamineNTight(v, n);
  }

  lemma FromTight<G(!new)>(s: State<G>, U: set<Key<G>>)
    requires TightState(s, U)
    ensures ListInv(s, U) && StrictWeak(s.lt) && Ranges(s) && ListsOk(s) && Sorted(s.lt, KeysOf(s.bodies, CurList(s)))
    ensures Tight(ViewOf(s, U)) && LiveIn(ViewOf(s, U).items) <= 2
  {
    FewLive(s, U);
  }

  /** What a clean-up from the stored iterator sees. */
  lemma FlippedView<G(!new)>(s: State<G>, U: set<Key<G>>, verdict: set<nat>, n: nat) returns (v: View)
    requires TightState(s, U)
    ensures Tight(v) && LiveIn(v.items) <= 2 && (v.g == |v.items| ==> v.items == [])
    ensures ListInv(CleanFew(s, verdict, n), U) && v.g <= |v.items|
    ensures ViewOf(CleanFew(s, verdict, n), U) == ExamineN(v, n)
  {
    FromTight(s, U);
    SweepView(s, U, verdict, GcStart(s), n);
    var t := CleanFew(s, verdict, n);
    var ys := ItemsOf(s.lt, U, t.bodies, CurList(s));
    FlipTight(ViewOf(s, U), ys);
    LiveFlipped(ViewOf(s, U).items, ys);
    v := View(ys, GcStart(s));
    assert v == Restart(View(ys, GcPos(s)));
    assert Pending(v) == Pending(View(ys, GcPos(s)));
  }

  /** A full clean-up. */
  lemma CleanAllTight<G(!new)>(s: State<G>, U: set<Key<G>>, verdict: set<nat>)
    requires Ranges(s) && ListsOk(s) && StrictWeak(s.lt) && Sorted(s.lt, KeysOf(s.bodies, CurList(s)))
    requires forall b :: 0 <= b < |s.bodies| ==> Covered(s.lt, U, s.bodies[b].key)
    requires |ConnectedSet(CleanAll(s, verdict))| <= 2
    ensures TightState(CleanAll(s, verdict), U)
    ensures var t := CleanAll(s, verdict); forall b :: b in CurList(t) ==> t.bodies[b].core.connected
  {
    hide Tight;
    var t := CleanAll(s, verdict);
    CleanAllGrown(s, U, verdict, 2);
    FewLive(t, U);
    forall i | 0 <= i < |ViewOf(t, U).items| ensures ViewOf(t, U).items[i].live { assert CurList(t)[i] in CurList(t); }
    CleanTight(ViewOf(t, U));
  }

  lemma ConnectKeepsTight<G(!new)>(s: State<G>, step: Step<G>, U: set<Key<G>>)
    requires TightState(s, U) && Enabled(s, step) && step.Connect? && Covered(s.lt, U, step.key)
    requires |ConnectedSet(Apply(s, step))| <= 2
    ensures TightState(Apply(s, step), U)
  {
    hide Tight, CleanFew, CleanAll, AddBody, ListInv, LiveIn;
    FromTight(s, U);
    ForceUniqueRanges(s, step.verdict);
    var c, t := ForceUnique(s, step.verdict), Apply(s, step);
    if Unique(s) {
      ConnectUniqueTight(s, c, t, U, step);
    } else {
      CopyListFacts(s);
      CopyKeepsTight(CopyList(s), c, t, U, step);
    }
  }

  lemma ConnectUniqueTight<G(!new)>(s: State<G>, c: State<G>, t: State<G>, U: set<Key<G>>, step: Step<G>)
    requires TightState(s, U) && step.Connect? && Covered(s.lt, U, step.key) && c == CleanFew(s, step.verdict, 2)
    requires Ranges(c)
    requires t == AddBody(c, step.key, step.position, step.tracked) && |ConnectedSet(t)| <= 2
    ensures TightState(t, U)
  {
    hide Tight, AddBody, LiveIn, SweepCur, Rank, ExamineN, InsertView;
    var v := FlippedView(s, U, step.verdict, 2);
    var q, item := InsertPos(c, step.key, step.position), Item(Rank(c.lt, U, step.key), true);
    SweepOrder(s, step.verdict, GcStart(s), 2);
    AddBodyView(c, t, U, step.key, step.position, step.tracked);
    FewLive(t, U);
    assert ViewOf(t, U) == InsertView(ExamineN(v, 2), q, item);
    ConnectTight(v, q, item);
  }

  lemma CopyKeepsTight<G(!new)>(c0: State<G>, c: State<G>, t: State<G>, U: set<Key<G>>, step: Step<G>)
    requires Ranges(c0) && ListsOk(c0) && StrictWeak(c0.lt) && Sorted(c0.lt, KeysOf(c0.bodies, CurList(c0)))
    requires (forall b :: 0 <= b < |c0.bodies| ==> Covered(c0.lt, U, c0.bodies[b].key)) && step.Connect?
    requires Covered(c0.lt, U, step.key)
    requires c == CleanAll(c0, step.verdict) && Ranges(c) && t == AddBody(c, step.key, step.position, step.tracked)
    requires |ConnectedSet(t)| <= 2
    ensures TightState(t, U)
  {
    hide Rank, Tight, SweepCur;
    SubsetSize(ConnectedSet(c), ConnectedSet(t));
    CleanAllTight(c0, U, step.verdict);
    SweepOrder(c0, step.verdict, 0, |CurList(c0)|);
    AddBodyView(c, t, U, step.key, step.position, step.tracked);
    FewLive(t, U);
    var q := InsertPos(c, step.key, step.position);
    forall i | 0 <= i < |ViewOf(t, U).items| ensures ViewOf(t, U).items[i].live {
      if i < q { assert CurList(c)[i] in CurList(c); } else if i > q { assert CurList(c)[i - 1] in CurList(c); }
    }
    CleanTight(ViewOf(t, U));
  }

  /** A step that leaves the list alone. */
  lemma SameListTight<G(!new)>(s: State<G>, t: State<G>, U: set<Key<G>>)
    requires TightState(s, U) && SameList(s, t) && |ConnectedSet(t)| <= 2
    ensures TightState(t, U)
  {
    hide Rank, Tight;
    assert KeysOf(t.bodies, CurList(t)) == KeysOf(s.bodies, CurList(s));
    FlipTight(ViewOf(s, U), ViewOf(t, U).items);
  }

  lemma BeginKeepsTight<G(!new)>(s: State<G>, U: set<Key<G>>)
    requires TightState(s, U) && Enabled(s, Step<G>.Begin) && |ConnectedSet(Apply(s, Begin))| <= 2
    ensures TightState(Apply(s, Begin), U)
  {
    hide Tight, CleanFew;
    var t := Apply(s, Begin);
    var c := if Unique(s) then CleanFew(s, {}, 1) else s;
    if Unique(s) { CleanFewTight(s, U, {}, 1); }
    forall j | 0 <= j < |t.invs| ensures InvRanges(t, t.invs[j]) {
      if j < |c.invs| { assert InvRanges(c, c.invs[j]); }
    }
    assert ConnectedSet(c) == ConnectedSet(t);
    SameListTight(c, t, U);
  }

  lemma JanitorKeepsTight<G(!new)>(s: State<G>, i: nat, U: set<Key<G>>)
    requires TightState(s, U) && Enabled(s, Step<G>.Janitor(i)) && |ConnectedSet(Apply(s, Janitor(i)))| <= 2
    ensures TightState(Apply(s, Janitor(i)), U)
  {
    hide Tight, ForceCleanup, ListsOk, Sorted;
    var v := s.invs[i];
    var c := if v.disc > v.conn then ForceCleanup(s, WalkedId(s, i)) else s;
    ForceCleanupGrows(s, WalkedId(s, i));
    assert ConnectedSet(c) == ConnectedSet(Apply(s, Janitor(i)));
    if v.disc > v.conn { ForceCleanupTight(s, WalkedId(s, i), U); }
    RecordRanges(c, i, Swept);
    SameListTight(c, SetPc(c, i, Swept), U);
  }

  lemma ForceCleanupTight<G(!new)>(s: State<G>, list: nat, U: set<Key<G>>)
    requires TightState(s, U) && |ConnectedSet(ForceCleanup(s, list))| <= 2
    ensures TightState(ForceCleanup(s, list), U)
  {
    hide Tight, CleanAll;
    if CurId(s) == list {
      CopyListFacts(s);
      CleanAllTight(if Unique(s) then s else CopyList(s), U, {});
    }
  }

  lemma StepTight<G(!new)>(s: State<G>, step: Step<G>, U: set<Key<G>>)
    requires TightState(s, U) && Enabled(s, step) && (step.Connect? ==> Covered(s.lt, U, step.key))
    requires |ConnectedSet(Apply(s, step))| <= 2
    ensures TightState(Apply(s, step), U)
  {
    hide Tight, Apply;
    if step.Connect? { ConnectKeepsTight(s, step, U); }
    else if step.Begin? { BeginKeepsTight(s, U); }
    else if step.Janitor? { JanitorKeepsTight(s, step.i, U); }
    else {
      StepSameList(s, step);
      SameListTight(s, Apply(s, step), U);
    }
  }

  // ---------------------------------------------------------------- every run

  lemma {:induction false} RunTight<G(!new)>(s: State<G>, steps: seq<Step<G>>, t: State<G>, U: set<Key<G>>)
    requires TightState(s, U) && Runs(s, steps, t) && FewConnected(s, steps, 2)
    requires forall i :: 0 <= i < |steps| && steps[i].Connect? ==> Covered(s.lt, U, steps[i].key)
    ensures TightState(t, U)
    decreases |steps|
  {
    hide TightState, Apply, Enabled;
    if steps != [] {
      var u := Apply(s, steps[0]);
      assert FewConnected(u, steps[1..], 2);
      StepTight(s, steps[0], U);
      StepKeepsOrder(s, steps[0]);
      forall i | 0 <= i < |steps[1..]| && steps[1..][i].Connect? ensures Covered(u.lt, U, steps[1..][i].key) {
        assert steps[1..][i] == steps[i + 1];
      }
      RunTight(u, steps[1..], t, U);
    }
  }

  /** With at most two bodies connected at once, the list of a signal never has more than three entries. */
  lemma ThreeEntriesAtMost<G(!new)>(lt: GroupCompare<G>, combiner: int, owned: set<nat>, steps: seq<Step<G>>,
                                    t: State<G>)
    requires StrictWeak(lt) && Runs(Init(lt, combiner, owned), steps, t)
    requires FewConnected(Init(lt, combiner, owned), steps, 2)
    ensures Ranges(t) && |CurList(t)| <= 3
  {
    var s, U := Init(lt, combiner, owned), KeysUsed(steps);
    TightAtFirst(lt, combiner, owned, U);
    hide TightState, StrictWeak, Runs, FewConnected;
    forall i | 0 <= i < |steps| && steps[i].Connect? ensures Covered(lt, U, steps[i].key) {
      assert steps[i].key in U;
      SelfCovered(lt, U, steps[i].key);
    }
    RunTight(s, steps, t, U);
    AboutTight(t, U);
  }

  lemma TightAtFirst<G(!new)>(lt: GroupCompare<G>, combiner: int, owned: set<nat>, U: set<Key<G>>)
    requires StrictWeak(lt)
    ensures TightState(Init(lt, combiner, owned), U)
  {
    assert ViewOf(Init(lt, combiner, owned), U) == View([], 0);
  }

  lemma AboutTight<G(!new)>(s: State<G>, U: set<Key<G>>)
    requires TightState(s, U)
    ensures Ranges(s) && |CurList(s)| <= 3
  {}

  lemma SelfCovered<G(!new)>(lt: GroupCompare<G>, U: set<Key<G>>, k: Key<G>)
    requires StrictWeak(lt) && k in U
    ensures Covered(lt, U, k)
  {
    LessIsIrreflexive(lt, k);
  }
}
