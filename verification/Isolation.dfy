/**
 Where snapshot isolation ends. `unique()` asks who shares the `invocation_state`, not who shares the
 list or the combiner inside it, so `set_combiner` can break isolation in two ways. Both are pinned
 down exactly here.
 */
module Isolation {
  import opened Options
  import opened GroupKeys
  import opened Lists
  import opened Protocol
  import opened Steps
  import opened Invariants
  import opened Snapshots

  /** A connect changes the list under a holder exactly when that list is the signal's own but the version is not. */
  lemma ConnectDisturbsIff<G(!new)>(s: State<G>, step: Step<G>, i: nat)
    requires Ranges(s) && step.Connect? && Enabled(s, step) && Live(s, i) && InvRanges(s, s.invs[i])
    ensures var t := Apply(s, step);
      && i < |t.invs| && InvRanges(t, t.invs[i]) && Ranges(t) && t.invs[i] == s.invs[i]
      && (Walked(t, i) != Walked(s, i) <==> Unique(s) && WalkedId(s, i) == CurId(s))
  {
    var t, c := Apply(s, step), ForceUnique(s, step.verdict);
    ForceUniqueRanges(s, step.verdict);
    ForceUniqueGrows(s, step.verdict);
    AddBodyRanges(c, step.key, step.position, step.tracked);
    var b, q := |c.bodies|, InsertPos(c, step.key, step.position);
    assert CurList(t) == InsertAt(CurList(c), q, b);
    if Unique(s) && WalkedId(s, i) == CurId(s) {
      assert CurList(t)[q] == b && b in CurList(t);
      assert b !in Walked(s, i);
    }
  }

  /** Some live holder sees its list change in this step. */
  ghost predicate Disturbs<G(!new)>(s: State<G>, t: State<G>) {
    exists i: nat :: Live(s, i) && i < |t.invs| && Ranges(s) && Ranges(t) && WalkedList(t, i) != WalkedList(s, i)
  }

  /** The list a holder walks, in a state known to be in range. */
  ghost function WalkedList<G(!new)>(s: State<G>, i: nat): seq<nat>
    requires Ranges(s) && i < |s.invs|
  {
    assert InvRanges(s, s.invs[i]);
    Walked(s, i)
  }

  /**
   After the copying branch of `set_combiner`, the next connect changes the list under every holder of the old version.
   */
  lemma SharedListIsDisturbed<G(!new)>(s: State<G>, c: int, step: Step<G>, i: nat)
    requires Ranges(s) && Enabled(s, Step<G>.SetCombiner(c)) && step.Connect?
    requires Live(s, i) && s.invs[i].version == s.current
    requires Ranges(Apply(s, SetCombiner(c))) && Enabled(Apply(s, SetCombiner(c)), step)
    ensures var t := Apply(s, SetCombiner(c)); var u := Apply(t, step);
      && Unique(t) && Live(t, i) && Live(u, i) && Ranges(u) && WalkedList(u, i) != WalkedList(t, i)
  {
    hide Ranges;
    SetCombinerCopies(s, c, i);
    ConnectDisturbsIff(Apply(s, SetCombiner(c)), step, i);
  }

  lemma SetCombinerCopies<G(!new)>(s: State<G>, c: int, i: nat)
    requires Ranges(s) && Enabled(s, Step<G>.SetCombiner(c)) && Live(s, i) && s.invs[i].version == s.current
    requires Ranges(Apply(s, SetCombiner(c)))
    ensures var t := Apply(s, SetCombiner(c));
      Unique(t) && Live(t, i) && InvRanges(t, t.invs[i]) && WalkedId(t, i) == CurId(t)
  {
    forall j | 0 <= j < |s.invs| && s.invs[j].pc != Gone ensures s.invs[j].version != |s.versions| {
      assert InvRanges(s, s.invs[j]);
    }
  }

  lemma NobodyDisturbed<G(!new)>(s: State<G>, step: Step<G>)
    requires Invariant(s) && step.Connect? && Enabled(s, step)
    ensures Ranges(s) && !Disturbs(s, Apply(s, step))
  {
    FromInvariant(s);
    var u := Apply(s, step);
    forall i: nat | Live(s, i) && i < |u.invs| && Ranges(u) ensures WalkedList(u, i) == WalkedList(s, i) {
      ConnectDisturbsIff(s, step, i);
    }
  }

  /**
   In any state the protocol can be in: if `set_combiner` is called, the next connect changes the list
   under some invocation exactly when the call did not find `_shared_state.unique()`.
   */
  lemma SetCombinerSpoilsIff<G(!new)>(s: State<G>, c: int, step: Step<G>)
    requires Invariant(s) && Enabled(s, Step<G>.SetCombiner(c)) && step.Connect?
    requires Ranges(Apply(s, SetCombiner(c))) && Enabled(Apply(s, SetCombiner(c)), step)
    ensures var t := Apply(s, SetCombiner(c)); Disturbs(t, Apply(t, step)) <==> !Unique(s)
  {
    FromInvariant(s);
    var t := Apply(s, SetCombiner(c));
    if Unique(s) {
      StepInv(s, SetCombiner(c));
      NobodyDisturbed(t, step);
    } else {
      var i: nat :| i < |s.invs| && s.invs[i].pc != Gone && s.invs[i].version == s.current;
      SharedListIsDisturbed(s, c, step, i);
    }
  }

  /** A signal just created, invoked once: the invocation holds the current version. */
  lemma FirstInvocation(lt: GroupCompare<int>, s1: State<int>)
    requires StrictWeak(lt) && Ranges(Init(lt, 0, {})) && s1 == Apply(Init(lt, 0, {}), Begin)
    ensures Invariant(s1) && |s1.invs| == 1 && s1.invs[0].version == s1.current == 0 && s1.invs[0].pc == Scanning
    ensures s1.invs[0].snapshot == [] && s1.invs[0].born == 0 && s1.bodies == [] && s1.lists == [[]] && s1.mutex == None
    ensures s1.versions == [Version(0, 0)] && s1.combs == [0]
  {
    assert Invariant(Init(lt, 0, {}));
    StepInv(Init(lt, 0, {}), Begin);
    assert SweepFrom<nat>([], {}, 0, 1) == ([], 0);
  }

  lemma CombinerReplacedMidway(s1: State<int>, s2: State<int>)
    requires Ranges(s1) && |s1.invs| == 1 && s1.invs[0].version == s1.current == 0 && s1.invs[0].pc == Scanning
    requires s1.bodies == [] && s1.lists == [[]] && s1.versions == [Version(0, 0)] && s1.combs == [0]
    requires s1.mutex == None
    requires Enabled(s1, Step<int>.SetCombiner(1)) && s2 == Apply(s1, SetCombiner(1))
    ensures Ranges(s2) && s2.invs == s1.invs && WalkedList(s2, 0) == [] && Live(s2, 0) && InvRanges(s2, s2.invs[0])
    ensures Enabled(s2, Connect(BackUngrouped, AtBack, [], {}))
  {
    assert InvRanges(s1, s1.invs[0]);
    assert !Unique(s1) by { assert s1.invs[0].version == s1.current; }
  }

  /** A run of three steps in which an invocation of an empty signal comes to walk a slot connected after it began. */
  lemma IsolationFails(lt: GroupCompare<int>)
    requires StrictWeak(lt)
    ensures exists steps: seq<Step<int>>, t: State<int> ::
      && |steps| == 3 && Runs(Init(lt, 0, {}), steps, t) && Ranges(t) && Live(t, 0)
      && t.invs[0].snapshot == [] && t.invs[0].born == 0 && WalkedList(t, 0) != []
  {
    var s0: State<int> := Init(lt, 0, {});
    assert Ranges(s0) && Enabled(s0, Step<int>.Begin);
    var s1 := Apply(s0, Begin);
    FirstInvocation(lt, s1);
    FromInvariant(s1);
    assert Enabled(s1, Step<int>.SetCombiner(1));
    var s2 := Apply(s1, SetCombiner(1));
    CombinerReplacedMidway(s1, s2);
    LastStep(s0, s1, s2);
  }

  lemma LastStep(s0: State<int>, s1: State<int>, s2: State<int>)
    requires Ranges(s0) && Enabled(s0, Step<int>.Begin) && s1 == Apply(s0, Begin)
    requires Ranges(s1) && Enabled(s1, Step<int>.SetCombiner(1)) && s2 == Apply(s1, SetCombiner(1))
    requires Ranges(s2) && Enabled(s2, Step<int>.Connect(BackUngrouped, AtBack, [], {}))
    requires Live(s1, 0) && s1.invs[0].version == s1.current && s2.invs == s1.invs
    requires s1.invs[0].snapshot == [] && s1.invs[0].born == 0
    requires Live(s2, 0) && InvRanges(s2, s2.invs[0]) && WalkedList(s2, 0) == []
    ensures exists steps: seq<Step<int>>, t: State<int> ::
      && |steps| == 3 && Runs(s0, steps, t) && Ranges(t) && Live(t, 0)
      && t.invs[0].snapshot == [] && t.invs[0].born == 0 && WalkedList(t, 0) != []
  {
    hide Ranges, Enabled, Apply, InvRanges, Runs;
    var connect: Step<int> := Connect(BackUngrouped, AtBack, [], {});
    SharedListIsDisturbed(s1, 1, connect, 0);
    ConnectDisturbsIff(s2, connect, 0);
    ThreeSteps(s0, Begin, SetCombiner(1), connect);
    var t := Apply(s2, connect);
    assert |[Step<int>.Begin, SetCombiner(1), connect]| == 3 && Runs(s0, [Begin, SetCombiner(1), connect], t);
  }

  // ---------------------------------------------------------------- the combiner

  /** The combiner an invocation runs. */
  ghost function CombinerOf<G(!new)>(s: State<G>, i: nat): int
    requires Ranges(s) && i < |s.invs|
  {
    assert InvRanges(s, s.invs[i]);
    s.combs[s.versions[s.invs[i].version].comb]
  }

  lemma OtherStepsKeepCombiners<G(!new)>(s: State<G>, step: Step<G>)
    requires Ranges(s) && Enabled(s, step) && !step.SetCombiner?
    ensures SameCombiners(s, Apply(s, step))
  {
    if Cleaning(step) {
      match step
      case Connect(_, _, _, verdict) => ForceUniqueGrows(s, verdict);
      case Begin =>
      case Janitor(j) => ForceCleanupGrows(s, WalkedId(s, j));
    } else {
      RecordsKeepCombiners(s, step);
    }
  }

  lemma RecordsKeepCombiners<G(!new)>(s: State<G>, step: Step<G>)
    requires Ranges(s) && Enabled(s, step) && !step.SetCombiner? && !Cleaning(step)
    ensures SameCombiners(s, Apply(s, step))
  {}

  /** A step changes the combiner of a holder exactly when it is an in-place `set_combiner` on a shared combiner. */
  lemma CombinerChangesIff<G(!new)>(s: State<G>, step: Step<G>, i: nat)
    requires Ranges(s) && Enabled(s, step) && i < |s.invs| && Ranges(Apply(s, step))
    ensures i < |Apply(s, step).invs|
    ensures CombinerOf(Apply(s, step), i) != CombinerOf(s, i) <==>
      && step.SetCombiner? && Unique(s)
      && s.versions[s.invs[i].version].comb == s.versions[s.current].comb && CombinerOf(s, i) != step.c
  {
    assert InvRanges(s, s.invs[i]);
    if !step.SetCombiner? {
      StepGrows(s, step);
      OtherStepsKeepCombiners(s, step);
      assert SameHold(s.invs[i], Apply(s, step).invs[i]);
    }
  }

  /**
   How the sharing comes about: a connect during an invocation copies the list but not the combiner, so
   the next `set_combiner` with another combiner reaches the invocation.
   */
  lemma ConnectThenSetCombinerReaches<G(!new)>(s: State<G>, step: Step<G>, c: int, i: nat)
    requires Ranges(s) && step.Connect? && Enabled(s, step) && Live(s, i) && s.invs[i].version == s.current
    requires CombinerOf(s, i) != c
    ensures var t := Apply(s, step);
      && Ranges(t) && Enabled(t, SetCombiner(c)) && Ranges(Apply(t, SetCombiner(c)))
      && i < |t.invs| && i < |Apply(t, SetCombiner(c)).invs| && CombinerOf(t, i) == CombinerOf(s, i)
      && CombinerOf(Apply(t, SetCombiner(c)), i) == c
  {
    hide Apply, ForceUnique;
    var t := Apply(s, step);
    CopiedCombiner(s, step, i);
    CombinerChangesIff(s, step, i);
    SetCombinerReaches(t, c, i);
  }

  /** A connect during an invocation leaves the signal alone with its state, and the combiner shared. */
  lemma CopiedCombiner<G(!new)>(s: State<G>, step: Step<G>, i: nat)
    requires Ranges(s) && step.Connect? && Enabled(s, step) && Live(s, i) && s.invs[i].version == s.current
    ensures var t := Apply(s, step);
      && Ranges(t) && Unique(t) && t.mutex.None? && i < |t.invs| && t.invs[i] == s.invs[i]
      && t.invs[i].version < |t.versions|
      && t.versions[t.invs[i].version].comb == t.versions[t.current].comb
  {
    hide CleanAll;
    InRange(s, i);
    var o := CopyList(s);
    assert !Unique(s);
    CopyListFacts(s);
    CleanAllKeepsVersions(o, step.verdict);
    AddBodyRanges(CleanAll(o, step.verdict), step.key, step.position, step.tracked);
  }

  lemma CleanAllKeepsVersions<G(!new)>(s: State<G>, verdict: set<nat>)
    requires Ranges(s)
    ensures var t := CleanAll(s, verdict);
      && Ranges(t) && t.versions == s.versions && t.current == s.current && t.invs == s.invs && t.combs == s.combs
      && t.mutex == s.mutex
  {
    SweepRanges(s, verdict, 0, |CurList(s)|);
  }

  /** In place, `set_combiner` reaches whoever shares the combiner. */
  lemma SetCombinerReaches<G(!new)>(s: State<G>, c: int, i: nat)
    requires Ranges(s) && s.mutex.None? && i < |s.invs| && Unique(s) && s.invs[i].version < |s.versions|
    requires s.versions[s.invs[i].version].comb == s.versions[s.current].comb
    ensures var t := Apply(s, SetCombiner(c));
      Enabled(s, Step<G>.SetCombiner(c)) && Ranges(t) && i < |t.invs| && CombinerOf(t, i) == c
  {
    StepSameList(s, SetCombiner(c));
  }

  ghost predicate NobodyHolds<G>(s: State<G>) { forall i :: 0 <= i < |s.invs| ==> s.invs[i].pc == Gone }

  /** No `set_combiner` at all while anyone holds an `invocation_state`. */
  ghost predicate Quiet<G(!new)>(s: State<G>, steps: seq<Step<G>>)
    decreases |steps|
  {
    steps == [] || (Ranges(s) && Enabled(s, steps[0]) && (steps[0].SetCombiner? ==> NobodyHolds(s))
                    && Quiet(Apply(s, steps[0]), steps[1..]))
  }

  /** In a quiet run the combiner of an invocation never changes while it is held, and the run is disciplined. */
  lemma {:induction false} CombinerIsolation<G(!new)>(s: State<G>, steps: seq<Step<G>>, t: State<G>, i: nat)
    requires Solid(s) && Runs(s, steps, t) && Quiet(s, steps) && Live(s, i)
    ensures DisciplinedRun(s, steps) && Ranges(s) && Ranges(t) && i < |t.invs|
    ensures Live(t, i) ==> CombinerOf(t, i) == CombinerOf(s, i)
    decreases |steps|
  {
    hide Solid, Apply, Enabled, Ranges, CombinerOf;
    FromSolid(s);
    QuietIsDisciplined(s, steps);
    RunGrows(s, steps, t);
    RunSolid(s, steps, t);
    FromSolid(t);
    if steps != [] {
      var u := Apply(s, steps[0]);
      StepSolid(s, steps[0]);
      FromSolid(u);
      StepGrows(s, steps[0]);
      if Live(u, i) {
        CombinerChangesIff(s, steps[0], i);
        CombinerIsolation(u, steps[1..], t, i);
      } else {
        RunGrows(u, steps[1..], t);
        assert SameHold(u.invs[i], t.invs[i]);
      }
    }
  }

  lemma {:induction false} QuietIsDisciplined<G(!new)>(s: State<G>, steps: seq<Step<G>>)
    requires Quiet(s, steps)
    ensures DisciplinedRun(s, steps)
    decreases |steps|
  {
    if steps != [] {
      assert steps[0].SetCombiner? ==> Unique(s);
      QuietIsDisciplined(Apply(s, steps[0]), steps[1..]);
    }
  }
}
