/**
 What invocations see of their lists. Here a hypothesis is needed: `set_combiner` never takes its copying
 branch. Then the list a holder walks stays the one it began with, and so does what the records say about it.
 The module Isolation shows that this cannot be had without the hypothesis.
 */
module Snapshots {
  import opened Options
  import opened GroupKeys
  import opened Protocol
  import opened Steps
  import opened Invariants

  /** The hypothesis: `set_combiner` is called only when it finds `_shared_state.unique()`. */
  ghost predicate Disciplined<G>(s: State<G>, step: Step<G>) { step.SetCombiner? ==> Unique(s) }

  /** Every `set_combiner` in the run finds the current version unheld. */
  ghost predicate DisciplinedRun<G(!new)>(s: State<G>, steps: seq<Step<G>>)
    decreases |steps|
  {
    || steps == []
    || (Ranges(s) && Enabled(s, steps[0]) && Disciplined(s, steps[0]) && DisciplinedRun(Apply(s, steps[0]), steps[1..]))
  }

  /** What a holder began with is what it still holds, and the signal never mutates it. */
  ghost predicate HoldersOk<G>(s: State<G>)
    requires Ranges(s)
  {
    forall i: nat :: Live(s, i) ==>
      && Walked(s, i) == s.invs[i].snapshot
      && (s.invs[i].version != s.current ==> WalkedId(s, i) != CurId(s))
  }

  /** An invocation stands on the list it began with, and the body it has active is the one it stands on or stood on. */
  ghost predicate OnSnapshot(v: Inv) {
    && v.pos <= |v.snapshot|
    && (forall k :: 0 <= k < |v.snapshot| ==> v.snapshot[k] < v.born)
    && (v.active.Some? ==> v.active.value in v.snapshot)
    && (v.pc.Ready? || v.pc.Running? ==> v.pos < |v.snapshot| && v.active == Some(v.snapshot[v.pos]))
    && (v.pc.Probing? ==> v.pos < |v.snapshot|)
    && (v.pc.AtEnd? ==> v.pos == |v.snapshot|)
    && (!v.pc.Reading? && !v.pc.Gone? && v.pos == |v.snapshot| ==> v.conn + v.disc == v.pos)
    && (forall k :: 0 <= k < |v.ran| ==> v.ran[k] < |v.snapshot|)
  }

  ghost predicate SnapshotsOk<G>(s: State<G>) {
    forall i :: 0 <= i < |s.invs| ==> OnSnapshot(s.invs[i])
  }

  ghost predicate Invariant<G(!new)>(s: State<G>) {
    Solid(s) && SnapshotsOk(s) && HoldersOk(s)
  }

  lemma FromInvariant<G(!new)>(s: State<G>)
    requires Invariant(s)
    ensures Solid(s) && Ranges(s) && SnapshotsOk(s) && HoldersOk(s)
    ensures StrictWeak(s.lt) && ListsOk(s) && CurrentOk(s) && RefsOk(s) && RecordsOk(s) && HeldOk(s)
  {}

  /** What an invariant state gives about one holder. */
  lemma AboutHolder<G(!new)>(s: State<G>, i: nat)
    requires Invariant(s) && i < |s.invs|
    ensures Ranges(s) && InvRanges(s, s.invs[i]) && RecordOk(s.invs[i]) && OnSnapshot(s.invs[i]) && Holding(s, i)
    ensures Live(s, i) ==> Walked(s, i) == s.invs[i].snapshot
    ensures s.invs[i].pc.Probing? <==> s.mutex == Some(i)
  {}

  // ---------------------------------------------------------------- who walks what

  /** Holders keep what they hold when the signal moves to a list no holder walks. */
  lemma HoldersFrame<G(!new)>(s: State<G>, t: State<G>)
    requires Ranges(s) && Ranges(t) && HoldersOk(s) && t.invs == s.invs && Elsewhere(s, t) && Unique(t)
    ensures HoldersOk(t)
  {
    forall i: nat | Live(t, i)
      ensures Walked(t, i) == t.invs[i].snapshot && (t.invs[i].version != t.current ==> WalkedId(t, i) != CurId(t))
    {
      assert Live(s, i) && InvRanges(s, s.invs[i]);
    }
  }

  /** The lists of `s` but the current one of `t` are unchanged, and no live holder of `s` walks that one. */
  ghost predicate Elsewhere<G>(s: State<G>, t: State<G>)
    requires Ranges(s) && Ranges(t)
  {
    && |t.versions| >= |s.versions| && (forall v :: 0 <= v < |s.versions| ==> t.versions[v] == s.versions[v])
    && |t.lists| >= |s.lists| && (forall l :: 0 <= l < |s.lists| && l != CurId(t) ==> t.lists[l] == s.lists[l])
    && forall i: nat :: Live(s, i) ==> InvRanges(s, s.invs[i]) && WalkedId(s, i) != CurId(t)
  }

  /** A clean-up of a list nobody else holds. */
  lemma SweepElsewhere<G(!new)>(s: State<G>, verdict: set<nat>, start: nat, n: nat)
    requires Ranges(s) && HoldersOk(s) && Unique(s) && start <= |CurList(s)|
    ensures var t := SweepCur(s, verdict, start, n); Ranges(t) && t.invs == s.invs && Unique(t) && Elsewhere(s, t)
  {
    SweepRanges(s, verdict, start, n);
    forall i: nat | Live(s, i) ensures InvRanges(s, s.invs[i]) && WalkedId(s, i) != CurId(s) {
      assert InvRanges(s, s.invs[i]);
    }
  }

  lemma CopyElsewhere<G(!new)>(s: State<G>, verdict: set<nat>)
    requires Ranges(s)
    ensures Ranges(CopyList(s))
    ensures var t := CleanAll(CopyList(s), verdict); Ranges(t) && t.invs == s.invs && Unique(t) && Elsewhere(s, t)
  {
    CopyListFacts(s);
    SweepRanges(CopyList(s), verdict, 0, |CurList(s)|);
    forall i: nat | Live(s, i) ensures InvRanges(s, s.invs[i]) && WalkedId(s, i) < |s.lists| { InRange(s, i); }
  }

  lemma ForceUniqueElsewhere<G(!new)>(s: State<G>, verdict: set<nat>)
    requires Ranges(s) && HoldersOk(s)
    ensures var t := ForceUnique(s, verdict); Ranges(t) && t.invs == s.invs && Unique(t) && Elsewhere(s, t)
  {
    if Unique(s) { SweepElsewhere(s, verdict, GcStart(s), 2); } else { CopyElsewhere(s, verdict); }
  }

  lemma ForceCleanupHolders<G(!new)>(s: State<G>, list: nat)
    requires Ranges(s) && HoldersOk(s)
    ensures var t := ForceCleanup(s, list); Ranges(t) && t.invs == s.invs && HoldersOk(t)
  {
    if CurId(s) == list {
      if Unique(s) { SweepElsewhere(s, {}, 0, |CurList(s)|); } else { CopyElsewhere(s, {}); }
      HoldersFrame(s, ForceCleanup(s, list));
    }
  }

  /** Lists, versions and who began with what stay; a new holder walks the current list. */
  lemma HoldersSame<G(!new)>(s: State<G>, t: State<G>)
    requires Ranges(s) && Ranges(t) && HoldersOk(s) && t.lists == s.lists && t.versions == s.versions
    requires t.current == s.current
    requires |t.invs| >= |s.invs| && forall i :: 0 <= i < |s.invs| ==> SameHold(s.invs[i], t.invs[i])
    requires forall i :: |s.invs| <= i < |t.invs| ==> t.invs[i].version == s.current && t.invs[i].snapshot == CurList(s)
    ensures HoldersOk(t)
  {
    forall j: nat | Live(t, j)
      ensures Walked(t, j) == t.invs[j].snapshot && (t.invs[j].version != t.current ==> WalkedId(t, j) != CurId(t))
    {
      if j < |s.invs| { assert Live(s, j) && SameHold(s.invs[j], t.invs[j]); }
    }
  }

  lemma ConnectHolders<G(!new)>(s: State<G>, step: Step<G>)
    requires Ranges(s) && HoldersOk(s) && Enabled(s, step) && step.Connect?
    ensures Ranges(Apply(s, step)) && HoldersOk(Apply(s, step))
  {
    hide ForceUnique;
    var c, t := ForceUnique(s, step.verdict), Apply(s, step);
    ForceUniqueElsewhere(s, step.verdict);
    AddBodyRanges(c, step.key, step.position, step.tracked);
    assert Elsewhere(s, t);
    HoldersFrame(s, t);
  }

  lemma BeginHolders<G(!new)>(s: State<G>)
    requires Ranges(s) && HoldersOk(s) && Enabled(s, Step<G>.Begin)
    ensures Ranges(Apply(s, Begin)) && HoldersOk(Apply(s, Begin))
  {
    hide CleanFew;
    var c, t := if Unique(s) then CleanFew(s, {}, 1) else s, Apply(s, Begin);
    if Unique(s) { CleanFewHolders(s); }
    HoldRanges(c, Scanning);
    HoldersSame(c, t);
  }

  lemma CleanFewHolders<G(!new)>(s: State<G>)
    requires Ranges(s) && HoldersOk(s) && Unique(s)
    ensures Ranges(CleanFew(s, {}, 1)) && HoldersOk(CleanFew(s, {}, 1))
  {
    SweepElsewhere(s, {}, GcStart(s), 1);
    HoldersFrame(s, CleanFew(s, {}, 1));
  }

  lemma JanitorHolders<G(!new)>(s: State<G>, i: nat)
    requires Ranges(s) && HoldersOk(s) && Enabled(s, Step<G>.Janitor(i))
    ensures Ranges(Apply(s, Janitor(i))) && HoldersOk(Apply(s, Janitor(i)))
  {
    hide ForceCleanup;
    var c := if s.invs[i].disc > s.invs[i].conn then ForceCleanup(s, WalkedId(s, i)) else s;
    ForceCleanupHolders(s, WalkedId(s, i));
    RecordRanges(c, i, Swept);
    HoldersSame(c, Apply(s, Janitor(i)));
  }

  /** The steps that clean nothing leave lists and versions alone; so does `set_combiner` in place. */
  lemma OtherHolders<G(!new)>(s: State<G>, step: Step<G>)
    requires Ranges(s) && HoldersOk(s) && Enabled(s, step) && Disciplined(s, step) && !Cleaning(step)
    ensures Ranges(Apply(s, step)) && HoldersOk(Apply(s, step))
  {
    hide HoldersOk;
    StepSameList(s, step);
    StepGrows(s, step);
    NewHolders(s, step);
    HoldersSame(s, Apply(s, step));
  }

  lemma NewHolders<G(!new)>(s: State<G>, step: Step<G>)
    requires Ranges(s) && Enabled(s, step) && Disciplined(s, step) && !Cleaning(step)
    ensures var t := Apply(s, step);
      && t.lists == s.lists && t.versions == s.versions && t.current == s.current
      && forall i :: |s.invs| <= i < |t.invs| ==> t.invs[i].version == s.current && t.invs[i].snapshot == CurList(s)
  {}

  lemma StepHolders<G(!new)>(s: State<G>, step: Step<G>)
    requires Ranges(s) && HoldersOk(s) && Enabled(s, step) && Disciplined(s, step)
    ensures Ranges(Apply(s, step)) && HoldersOk(Apply(s, step))
  {
    hide HoldersOk, Apply, Enabled;
    match step
    case Connect(_, _, _, _) => ConnectHolders(s, step);
    case Begin => BeginHolders(s);
    case Janitor(i) => JanitorHolders(s, i);
    case _ => OtherHolders(s, step);
  }

  // ---------------------------------------------------------------- what the records say about their lists

  lemma NewSnapshot<G(!new)>(s: State<G>, pc: Pc)
    requires Ranges(s) && (pc.Scanning? || pc.Reading?)
    ensures OnSnapshot(NewInv(s, pc))
  {}

  /** The steps that add a record. */
  lemma NewRecordSnapshot<G(!new)>(s: State<G>, step: Step<G>, i: nat)
    requires Ranges(s) && Enabled(s, step) && |s.invs| <= i < |Apply(s, step).invs|
    ensures OnSnapshot(Apply(s, step).invs[i])
  {
    hide OnSnapshot;
    match step
    case Begin =>
      SweepRanges(s, {}, GcStart(s), 1);
      NewSnapshot(if Unique(s) then CleanFew(s, {}, 1) else s, Scanning);
    case BeginRead(group) => NewSnapshot(s, Reading(ReadRange(s, group)));
    case _ => NoNewHolder(s, step);
  }

  lemma LookSnapshot<G(!new)>(s: State<G>, step: Step<G>, i: nat)
    requires Ranges(s) && Enabled(s, step)
    requires step == Lock(i) || step == Grab(i) || step == Throw(i) || step == ReadNext(i)
    requires OnSnapshot(s.invs[i]) && RecordOk(s.invs[i]) && Walked(s, i) == s.invs[i].snapshot
    ensures i < |Apply(s, step).invs| && OnSnapshot(Apply(s, step).invs[i])
  {
    var v, w := s.invs[i], Apply(s, step).invs[i];
    assert w == v.(pc := w.pc, held := w.held);
  }

  lemma ActiveSnapshot<G(!new)>(s: State<G>, step: Step<G>, i: nat)
    requires Ranges(s) && Enabled(s, step) && OnActive(step) && step.i == i
    requires OnSnapshot(s.invs[i]) && RecordOk(s.invs[i]) && Walked(s, i) == s.invs[i].snapshot
    ensures i < |Apply(s, step).invs| && OnSnapshot(Apply(s, step).invs[i])
  {
    hide Apply;
    ActiveStepRecord(s, step);
  }

  lemma CallSnapshot<G(!new)>(s: State<G>, step: Step<G>, i: nat)
    requires Ranges(s) && Enabled(s, step) && (step == Call(i) || step == Return(i) || step == Advance(i))
    requires OnSnapshot(s.invs[i]) && RecordOk(s.invs[i])
    ensures i < |Apply(s, step).invs| && OnSnapshot(Apply(s, step).invs[i])
  {
    var v, w := s.invs[i], Apply(s, step).invs[i];
    match step
    case Call(_) => assert w == v.(pc := Running, ran := v.ran + [v.pos]);
    case Return(_) => assert w == v.(pc := Ready(true), done := v.done + [v.pos]);
    case Advance(_) => assert w == v.(pc := Scanning, pos := v.pos + 1);
  }

  lemma ExitSnapshot(v: Inv, w: Inv)
    requires OnSnapshot(v) && !v.pc.Reading? && !v.pc.Gone?
    requires w == v.(pc := w.pc) && (w.pc.Leaving? || w.pc.Swept? || w.pc.Gone?)
    ensures OnSnapshot(w)
  {}

  /** The steps that leave, clean up and let go. */
  lemma LeaveSnapshot<G(!new)>(s: State<G>, step: Step<G>, i: nat)
    requires Ranges(s) && Enabled(s, step) && (step == Leave(i) || step == Janitor(i) || step == DropState(i))
    requires OnSnapshot(s.invs[i])
    ensures i < |Apply(s, step).invs| && OnSnapshot(Apply(s, step).invs[i])
  {
    hide ForceCleanup;
    if step.Janitor? { ForceCleanupGrows(s, WalkedId(s, i)); }
    if !s.invs[i].pc.Reading? { ExitSnapshot(s.invs[i], Apply(s, step).invs[i]); }
  }

  lemma MovedSnapshot<G(!new)>(s: State<G>, step: Step<G>, i: nat)
    requires Ranges(s) && Enabled(s, step) && Moves(step) == Some(i) && RecordsOk(s) && SnapshotsOk(s) && HoldersOk(s)
    ensures i < |Apply(s, step).invs| && OnSnapshot(Apply(s, step).invs[i])
  {
    hide Apply, OnSnapshot, RecordOk;
    MovedIsLive(s, step, i);
    match step
    case Lock(_) => LookSnapshot(s, step, i);
    case Grab(_) => LookSnapshot(s, step, i);
    case Throw(_) => LookSnapshot(s, step, i);
    case ReadNext(_) => LookSnapshot(s, step, i);
    case EndProbe(_) => ActiveSnapshot(s, step, i);
    case ReachEnd(_) => ActiveSnapshot(s, step, i);
    case DropCache(_) => ActiveSnapshot(s, step, i);
    case Call(_) => CallSnapshot(s, step, i);
    case Return(_) => CallSnapshot(s, step, i);
    case Advance(_) => CallSnapshot(s, step, i);
    case _ => LeaveSnapshot(s, step, i);
  }

  lemma MovedIsLive<G(!new)>(s: State<G>, step: Step<G>, i: nat)
    requires Ranges(s) && Enabled(s, step) && Moves(step) == Some(i)
    ensures Live(s, i)
  {}

  lemma StepSnapshots<G(!new)>(s: State<G>, step: Step<G>)
    requires Ranges(s) && Enabled(s, step) && RecordsOk(s) && SnapshotsOk(s) && HoldersOk(s)
    ensures SnapshotsOk(Apply(s, step))
  {
    hide Apply, Enabled, OnSnapshot, RecordsOk;
    var t := Apply(s, step);
    forall j | 0 <= j < |t.invs| ensures OnSnapshot(t.invs[j]) {
      if j >= |s.invs| { NewRecordSnapshot(s, step, j); }
      else if Moves(step) == Some(j) { MovedSnapshot(s, step, j); }
      else { OthersStay(s, step, j); }
    }
  }

  // ---------------------------------------------------------------- every disciplined run

  /** Every step of a disciplined run keeps the invariant. */
  lemma StepInv<G(!new)>(s: State<G>, step: Step<G>)
    requires Invariant(s) && Enabled(s, step) && Disciplined(s, step)
    ensures Invariant(Apply(s, step))
  {
    hide Solid, Apply, Enabled, SnapshotsOk, HoldersOk;
    FromInvariant(s);
    StepSolid(s, step);
    StepHolders(s, step);
    StepSnapshots(s, step);
  }

  lemma {:induction false} RunKeepsInvariant<G(!new)>(s: State<G>, steps: seq<Step<G>>, t: State<G>)
    requires Invariant(s) && Runs(s, steps, t) && DisciplinedRun(s, steps)
    ensures Invariant(t)
    decreases |steps|
  {
    hide Invariant, Apply, Enabled;
    if steps != [] {
      StepInv(s, steps[0]);
      RunKeepsInvariant(Apply(s, steps[0]), steps[1..], t);
    }
  }

  /** Every state a new signal can reach in a disciplined run satisfies the invariant. */
  lemma ReachableInvariant<G(!new)>(lt: GroupCompare<G>, combiner: int, owned: set<nat>, steps: seq<Step<G>>,
                                    t: State<G>)
    requires StrictWeak(lt) && Runs(Init(lt, combiner, owned), steps, t)
    requires DisciplinedRun(Init(lt, combiner, owned), steps)
    ensures Invariant(t)
  {
    assert Invariant(Init(lt, combiner, owned));
    RunKeepsInvariant(Init(lt, combiner, owned), steps, t);
  }
}
