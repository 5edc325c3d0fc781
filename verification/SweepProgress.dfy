/**
 The incremental clean-up makes progress, in every run: a sweep over a list of n entries is finished after at most n
 connects, and by then every body that was disconnected when it began has left the list.
 */
module SweepProgress {
  import opened Options
  import opened GroupKeys
  import opened Lists
  import opened BodyCores
  import opened Protocol
  import opened Steps
  import opened Invariants
  import opened Growth

  /** How many entries the sweep has still to examine; none at the end. */
  ghost function Unread<G(!new)>(s: State<G>): (n: int)
    requires Ranges(s)
  {
    |CurList(s)| - GcPos(s)
  }

  /** The bodies of `gone` are not among the entries already examined. */
  ghost predicate Ahead<G(!new)>(s: State<G>, gone: set<nat>)
    requires Ranges(s)
  {
    forall p :: 0 <= p < GcPos(s) ==> CurList(s)[p] !in gone
  }

  /** The sweep that started with `n` entries has had `c` connects, and is not through yet. */
  ghost predicate Sweeping<G(!new)>(s: State<G>, gone: set<nat>, n: nat, c: nat) {
    && Ranges(s) && s.gc.Some? && Ahead(s, gone) && Unread(s) <= n - c && GoneBodies(s, gone)
  }

  /** The sweep has been through, and none of `gone` is left. */
  ghost predicate Through<G(!new)>(s: State<G>, gone: set<nat>) {
    Ranges(s) && GoneBodies(s, gone) && forall b :: b in CurList(s) ==> b !in gone
  }

  ghost predicate GoneBodies<G>(s: State<G>, gone: set<nat>) {
    forall b :: b in gone ==> b < |s.bodies| && !s.bodies[b].core.connected
  }

  /** A clean-up of `n >= 1` entries from `start`: it reaches the end, or has `n` fewer to read. */
  lemma SweepReads<G(!new)>(s: State<G>, gone: set<nat>, verdict: set<nat>, start: nat, n: nat)
    requires Ranges(s) && ListsOk(s) && Sorted(s.lt, KeysOf(s.bodies, CurList(s))) && start <= |CurList(s)| && n >= 1
    requires GoneBodies(s, gone) && forall p :: 0 <= p < start ==> CurList(s)[p] !in gone
    ensures var t := SweepCur(s, verdict, start, n);
      && Ranges(t) && GoneBodies(t, gone) && Ahead(t, gone) && (forall b :: b in CurList(t) ==> b in CurList(s))
      && (t.gc.Some? ==> Unread(t) == |CurList(s)| - start - n)
      && (t.gc.None? ==> Through(t, gone))
  {
    hide Sorted, ListsOk;
    var t, xs := SweepCur(s, verdict, start, n), CurList(s);
    SweepLists(s, verdict, start, n);
    SweepGrows(s, verdict, start, n);
    SweepMembers(xs, Dead(t.bodies), start, n);
    SplitMembers(xs, start, n);
    var p := SweepPast(xs, Dead(t.bodies), start, n, gone);
    var ys := CurList(t);
    GcAfter(t, ys, p);
    forall b | t.gc.None? && b in ys ensures b !in gone { var r :| 0 <= r < |ys| && ys[r] == b; }
  }

  /** Where a sweep of dead entries stops: nothing of `gone` is behind it, and what was ahead is. */
  lemma SweepPast(xs: seq<nat>, dead: set<nat>, start: nat, n: nat, gone: set<nat>) returns (p: nat)
    requires start <= |xs| && gone * (set b | b in xs) <= dead
    requires forall r :: 0 <= r < start ==> xs[r] !in gone
    ensures var (ys, q) := SweepFrom<nat>(xs, dead, start, n);
      && p == q <= |ys| && |ys| - p == |xs| - Min(start + n, |xs|)
      && (forall r :: 0 <= r < p ==> ys[r] !in gone)
  {
    var e := Min(start + n, |xs|);
    SweepShape(xs, dead, start, n);
    var kept := Keep(xs[start..e], dead);
    p := start + |kept|;
    KeepMembers(xs[start..e], dead);
    var ys := SweepFrom(xs, dead, start, n).0;
    assert ys == xs[..start] + kept + xs[e..];
    forall r | 0 <= r < p ensures ys[r] !in gone {
      if r < start { assert ys[r] == xs[r]; } else { assert ys[r] == kept[r - start] && ys[r] in kept; }
    }
  }

  lemma GcAfter<G(!new)>(t: State<G>, ys: seq<nat>, p: nat)
    requires Ranges(t) && ListsOk(t) && ys == CurList(t) && p <= |ys| && t.gc == if p < |ys| then Some(ys[p]) else None
    ensures GcPos(t) == p && (t.gc.None? <==> p == |ys|)
  {
    if p < |ys| { IndexOfAt(ys, p); }
  }

  /** Inserting a new body: at most one more to read. */
  lemma AddReads<G(!new)>(s: State<G>, t: State<G>, gone: set<nat>, key: Key<G>, position: Position,
                          tracked: seq<Tracked>)
    requires Ranges(s) && Ranges(t) && t == AddBody(s, key, position, tracked) && NoDup(CurList(t))
    requires (s.gc.Some? ==> s.gc.value in CurList(s)) && GoneBodies(s, gone)
    ensures GoneBodies(t, gone) && (Through(s, gone) ==> Through(t, gone))
    ensures s.gc.Some? && Ahead(s, gone) ==> t.gc.Some? && Ahead(t, gone) && Unread(t) <= Unread(s) + 1
  {
    AddBodyGc(s, t, key, position, tracked);
    InsertMembers(CurList(s), InsertPos(s, key, position), |s.bodies|);
    assert |s.bodies| !in gone;
    assert CurList(t) == InsertAt(CurList(s), InsertPos(s, key, position), |s.bodies|);
  }

  /** What a step does to a sweep that has had `c` connects. */
  ghost predicate Advanced<G(!new)>(t: State<G>, gone: set<nat>, n: nat, c: nat) {
    Sweeping(t, gone, n, c) || Through(t, gone)
  }

  /**
   A sweep can begin on a list of `n` entries: the stored iterator is at the end. The bodies of `gone` are disconnected.
   */
  ghost predicate AtRest<G(!new)>(s: State<G>, gone: set<nat>, n: nat) {
    Ranges(s) && s.gc.None? && |CurList(s)| == n >= 1 && GoneBodies(s, gone)
  }

  /** A connect in a sweep, or one that begins it: the sweep is through, or one entry closer to the end. */
  lemma ConnectAdvances<G(!new)>(s: State<G>, step: Step<G>, gone: set<nat>, n: nat, c: nat)
    requires Consistent(s) && Enabled(s, step) && step.Connect?
    requires Sweeping(s, gone, n, c) || (c == 0 && AtRest(s, gone, n))
    ensures Advanced(Apply(s, step), gone, n, c + 1)
  {
    hide Sorted, RefsOk, StrictWeak;
    var d, t := ForceUnique(s, step.verdict), Apply(s, step);
    ForceUniqueKeeps(s, step.verdict);
    ConnectKeeps(s, step);
    if Unique(s) {
      SweepReads(s, gone, step.verdict, GcStart(s), 2);
    } else {
      CopyListFacts(s);
      FullRead(CopyList(s), gone, step.verdict);
    }
    AddReads(d, t, gone, step.key, step.position, step.tracked);
  }

  /** The clean-up before an invocation, in a list nobody else holds: one entry closer to the end, too. */
  lemma BeginAdvances<G(!new)>(s: State<G>, gone: set<nat>, n: nat, c: nat)
    requires Consistent(s) && Enabled(s, Step<G>.Begin) && Unique(s)
    requires Sweeping(s, gone, n, c) || (c == 0 && AtRest(s, gone, n))
    ensures Advanced(Apply(s, Begin), gone, n, c + 1)
  {
    hide Consistent, CleanFew, Sweeping, Through, AtRest;
    AboutConsistent(s);
    CleanAdvances(s, gone, n, c);
    var d := CleanFew(s, {}, 1);
    AdvancedRanges(d, gone, n, c + 1);
    HoldRanges(d, Scanning);
    SameListAdvances(d, Apply(s, Begin), gone, n, c + 1);
  }

  lemma CleanAdvances<G(!new)>(s: State<G>, gone: set<nat>, n: nat, c: nat)
    requires Consistent(s) && (Sweeping(s, gone, n, c) || (c == 0 && AtRest(s, gone, n)))
    ensures Advanced(CleanFew(s, {}, 1), gone, n, c + 1)
  {
    hide Sorted, RefsOk, StrictWeak, SweepCur, ListsOk;
    SweepReads(s, gone, {}, GcStart(s), 1);
  }

  lemma AdvancedRanges<G(!new)>(s: State<G>, gone: set<nat>, n: nat, c: nat)
    requires Advanced(s, gone, n, c)
    ensures Ranges(s)
  {}

  /** A step that leaves the list alone. */
  lemma SameListAdvances<G(!new)>(s: State<G>, t: State<G>, gone: set<nat>, n: nat, c: nat)
    requires Advanced(s, gone, n, c) && SameList(s, t)
    ensures Advanced(t, gone, n, c)
  {}

  lemma FullRead<G(!new)>(s: State<G>, gone: set<nat>, verdict: set<nat>)
    requires Ranges(s) && GoneBodies(s, gone)
    ensures Through(CleanAll(s, verdict), gone) && CleanAll(s, verdict).gc.None?
  {
    SweepGrows(s, verdict, 0, |CurList(s)|);
    CleanAllLeavesConnected(s, verdict);
  }

  /** Once through, the bodies that were gone never come back into the list. */
  lemma ThroughStays<G(!new)>(s: State<G>, step: Step<G>, gone: set<nat>)
    requires Consistent(s) && Enabled(s, step) && Through(s, gone)
    ensures Through(Apply(s, step), gone)
  {
    hide Consistent, Apply, Enabled;
    StepConsistent(s, step);
    AboutConsistent(Apply(s, step));
    StepGrows(s, step);
  }

  /** The other steps do not set a sweep back. */
  lemma OtherAdvances<G(!new)>(s: State<G>, step: Step<G>, gone: set<nat>, n: nat, c: nat)
    requires Consistent(s) && Enabled(s, step) && !step.Connect? && Sweeping(s, gone, n, c)
    ensures Advanced(Apply(s, step), gone, n, c)
  {
    hide Consistent, Apply, Enabled;
    AboutConsistent(s);
    StepGrows(s, step);
    if step.Begin? { OneMoreAdvances(s, gone, n, c); }
    else if step.Janitor? { JanitorAdvances(s, step.i, gone, n, c); }
    else {
      StepSameList(s, step);
      SameListAdvances(s, Apply(s, step), gone, n, c);
    }
  }

  lemma OneMoreAdvances<G(!new)>(s: State<G>, gone: set<nat>, n: nat, c: nat)
    requires Consistent(s) && Enabled(s, Step<G>.Begin) && Sweeping(s, gone, n, c)
    ensures Advanced(Apply(s, Begin), gone, n, c)
  {
    hide Consistent;
    AboutConsistent(s);
    if Unique(s) {
      BeginAdvances(s, gone, n, c);
    } else {
      HoldRanges(s, Scanning);
      SameListAdvances(s, Apply(s, Begin), gone, n, c);
    }
  }

  lemma JanitorAdvances<G(!new)>(s: State<G>, i: nat, gone: set<nat>, n: nat, c: nat)
    requires Consistent(s) && Enabled(s, Step<G>.Janitor(i)) && Sweeping(s, gone, n, c)
    ensures Advanced(Apply(s, Janitor(i)), gone, n, c)
  {
    hide Consistent, ForceCleanup, Sweeping, Through;
    AboutConsistent(s);
    var v := s.invs[i];
    var d := if v.disc > v.conn then ForceCleanup(s, WalkedId(s, i)) else s;
    CleanupAdvances(s, WalkedId(s, i), gone, n, c);
    ForceCleanupGrows(s, WalkedId(s, i));
    AdvancedRanges(d, gone, n, c);
    RecordRanges(d, i, Swept);
    SameListAdvances(d, Apply(s, Janitor(i)), gone, n, c);
  }

  lemma CleanupAdvances<G(!new)>(s: State<G>, list: nat, gone: set<nat>, n: nat, c: nat)
    requires Consistent(s) && Sweeping(s, gone, n, c)
    ensures Advanced(ForceCleanup(s, list), gone, n, c)
  {
    hide Sorted, RefsOk, StrictWeak, CleanAll, ListsOk;
    if CurId(s) == list {
      CopyListFacts(s);
      FullRead(if Unique(s) then s else CopyList(s), gone, {});
    }
  }

  function Connects<G>(steps: seq<Step<G>>): nat {
    if steps == [] then 0 else (if steps[0].Connect? then 1 else 0) + Connects(steps[1..])
  }

  /** A sweep in progress, over a run. */
  lemma {:induction false} SweepRun<G(!new)>(s: State<G>, steps: seq<Step<G>>, t: State<G>, gone: set<nat>, n: nat,
                                             c: nat)
    requires Consistent(s) && Runs(s, steps, t) && Advanced(s, gone, n, c)
    ensures Consistent(t) && Advanced(t, gone, n, c + Connects(steps))
    decreases |steps|
  {
    hide Consistent, Apply, Enabled, Sweeping, Through;
    if steps != [] {
      var u := Apply(s, steps[0]);
      var c' := if steps[0].Connect? then c + 1 else c;
      StepConsistent(s, steps[0]);
      if Through(s, gone) { ThroughStays(s, steps[0], gone); }
      else if steps[0].Connect? { ConnectAdvances(s, steps[0], gone, n, c); }
      else { OtherAdvances(s, steps[0], gone, n, c); }
      SweepRun(u, steps[1..], t, gone, n, c');
    }
  }

  /** A sweep begins with a connect, or with an invocation that finds the list its own. */
  ghost predicate BeginsSweep<G>(s: State<G>, step: Step<G>) { step.Connect? || (step.Begin? && Unique(s)) }

  /**
   In any run: a sweep that begins on a list of n entries is through after n - 1 more connects at the latest,
   whatever other steps come between, and none of the bodies that were disconnected when it began is left.
   */
  lemma SweepFinishes<G(!new)>(s: State<G>, first: Step<G>, steps: seq<Step<G>>, t: State<G>, gone: set<nat>, n: nat)
    requires Solid(s) && AtRest(s, gone, n)
    requires BeginsSweep(s, first) && Enabled(s, first) && Runs(Apply(s, first), steps, t)
    requires 1 + Connects(steps) >= n
    ensures Ranges(t) && forall b :: b in gone ==> b !in CurList(t)
  {
    hide *;
    FirstStep(s, first, gone, n);
    SweepRun(Apply(s, first), steps, t, gone, n, 1);
    SweepOver(t, gone, n, 1 + Connects(steps));
  }

  lemma FirstStep<G(!new)>(s: State<G>, first: Step<G>, gone: set<nat>, n: nat)
    requires Solid(s) && AtRest(s, gone, n) && BeginsSweep(s, first) && Enabled(s, first)
    ensures Ranges(s) && Consistent(Apply(s, first)) && Advanced(Apply(s, first), gone, n, 1)
  {
    hide Consistent, Apply, Enabled, RecordsOk, HeldOk;
    AboutConsistent(s);
    StepConsistent(s, first);
    if first.Connect? { ConnectAdvances(s, first, gone, n, 0); } else { BeginAdvances(s, gone, n, 0); }
  }

  /** A sweep of `n` entries does not last longer than `n` connects. */
  lemma SweepOver<G(!new)>(t: State<G>, gone: set<nat>, n: nat, c: nat)
    requires Consistent(t) && Advanced(t, gone, n, c) && c >= n
    ensures Ranges(t) && forall b :: b in gone ==> b !in CurList(t)
  {
    hide Consistent;
    AboutConsistent(t);
    if Sweeping(t, gone, n, c) { SomethingUnread(t); }
  }

  lemma SomethingUnread<G(!new)>(s: State<G>)
    requires Consistent(s) && s.gc.Some?
    ensures Ranges(s) && Unread(s) >= 1 && GcPos(s) < |CurList(s)| && CurList(s)[GcPos(s)] == s.gc.value
  {}

  /**
   In every state of every run the stored iterator is at the end or at an entry of the current list, with at least
   that one to read.
   */
  lemma SweepHasMore<G(!new)>(lt: GroupCompare<G>, combiner: int, owned: set<nat>, steps: seq<Step<G>>, t: State<G>)
    requires StrictWeak(lt) && Runs(Init(lt, combiner, owned), steps, t)
    ensures Ranges(t) && (t.gc.None? <==> Unread(t) == 0)
    ensures t.gc.Some? ==> GcPos(t) < |CurList(t)| && CurList(t)[GcPos(t)] == t.gc.value
  {
    hide StrictWeak, Consistent;
    ReachableSolid(lt, combiner, owned, steps, t);
    AboutConsistent(t);
    if t.gc.Some? { SomethingUnread(t); }
  }
}
