/**
 Runs, and what one step can change. Nothing here needs a hypothesis on the run.
 */
module Steps {
  import opened Options
  import opened GroupKeys
  import opened Lists
  import opened Protocol

  /** The state after `steps`, each of them enabled when taken. */
  ghost predicate Runs<G(!new)>(s: State<G>, steps: seq<Step<G>>, t: State<G>)
    decreases |steps|
  {
    if steps == [] then t == s
    else Ranges(s) && Enabled(s, steps[0]) && Runs(Apply(s, steps[0]), steps[1..], t)
  }

  /** A new signal: an empty list, one combiner, nobody invoking. */
  function Init<G>(lt: GroupCompare<G>, combiner: int, owned: set<nat>): State<G> {
    State(lt, [], [[]], [combiner], [Version(0, 0)], 0, None, [], owned, None)
  }

  ghost predicate Live<G>(s: State<G>, i: nat) { i < |s.invs| && s.invs[i].pc != Gone }

  /** The steps that clean the list, those that disconnect or block a body, and those that move an active slot. */
  predicate Cleaning<G>(step: Step<G>) { step.Connect? || step.Begin? || step.Janitor? }
  predicate OnBody<G>(step: Step<G>) {
    step.Disconnect? || step.SetBlocked? || step.ReadNext? || step.Grab? || step.Throw?
  }
  predicate OnActive<G>(step: Step<G>) { step.EndProbe? || step.ReachEnd? || step.DropCache? }

  // ---------------------------------------------------------------- bodies and holders

  /** Same key and tracked objects; connected and slot only ever go from true to false. */
  ghost predicate Later<G>(a: Body<G>, b: Body<G>) {
    && b.key == a.key && b.tracked == a.tracked
    && (b.core.connected ==> a.core.connected)
    && (b.core.slot ==> a.core.slot)
  }

  /** The record of an invocation keeps what it began with, and a finished one stays finished. */
  ghost predicate SameHold(v: Inv, w: Inv) {
    && w.version == v.version && w.snapshot == v.snapshot && w.combiner == v.combiner && w.born == v.born
    && (v.pc.Gone? ==> w.pc.Gone?)
  }

  /** Bodies are only ever added, and change only as `Later` allows; holders keep what they began with. */
  ghost predicate Grows<G>(s: State<G>, t: State<G>) {
    && |t.bodies| >= |s.bodies| && (forall b :: 0 <= b < |s.bodies| ==> Later(s.bodies[b], t.bodies[b]))
    && |t.invs| >= |s.invs| && (forall i :: 0 <= i < |s.invs| ==> SameHold(s.invs[i], t.invs[i]))
  }

  /** Combiners and the version references already given out are unchanged. */
  ghost predicate SameCombiners<G>(s: State<G>, t: State<G>) {
    && t.combs == s.combs && |t.versions| >= |s.versions|
    && forall v :: 0 <= v < |s.versions| ==> t.versions[v] == s.versions[v]
  }

  lemma SweepGrows<G(!new)>(s: State<G>, verdict: set<nat>, start: nat, n: nat)
    requires Ranges(s) && start <= |CurList(s)|
    ensures var t := SweepCur(s, verdict, start, n); Grows(s, t) && t.invs == s.invs && |t.bodies| == |s.bodies|
  {}

  lemma SweepOrder<G(!new)>(s: State<G>, verdict: set<nat>, start: nat, n: nat)
    requires Ranges(s) && start <= |CurList(s)|
    ensures SweepCur(s, verdict, start, n).lt == s.lt
  {}

  /** A clean-up that finds nobody expired only erases. */
  lemma SweepNobody<G(!new)>(s: State<G>, start: nat, n: nat)
    requires Ranges(s) && start <= |CurList(s)|
    ensures var (ys, g) := SweepFrom(CurList(s), Dead(s.bodies), start, n);
      SweepCur(s, {}, start, n) == s.(lists := s.lists[CurId(s) := ys], gc := if g < |ys| then Some(ys[g]) else None)
  {
    hide SweepFrom, Dead;
    var xs := CurList(s);
    NobodySeen(xs[start..Min(start + n, |xs|)], {});
    assert Expire(s.bodies, {}) == s.bodies;
    assert SweepCur(s, {}, start, n).bodies == s.bodies;
  }

  lemma NobodySeen(xs: seq<nat>, verdict: set<nat>)
    requires verdict == {}
    ensures (set b | b in verdict && b in xs) == {}
  {}

  lemma ForceUniqueGrows<G(!new)>(s: State<G>, verdict: set<nat>)
    requires Ranges(s)
    ensures var t := ForceUnique(s, verdict);
      Grows(s, t) && t.invs == s.invs && t.owned == s.owned && SameCombiners(s, t)
  {
    if Unique(s) { SweepGrows(s, verdict, GcStart(s), 2); }
    else { CopyRanges(s); SweepGrows(CopyList(s), verdict, 0, |CurList(s)|); }
  }

  lemma ForceCleanupGrows<G(!new)>(s: State<G>, list: nat)
    requires Ranges(s)
    ensures var t := ForceCleanup(s, list); Grows(s, t) && t.invs == s.invs && t.owned == s.owned && SameCombiners(s, t)
  {
    if CurId(s) == list {
      if Unique(s) { SweepGrows(s, {}, 0, |CurList(s)|); }
      else { CopyRanges(s); SweepGrows(CopyList(s), {}, 0, |CurList(s)|); }
    }
  }

  /** The steps that clean the list. */
  lemma CleaningGrows<G(!new)>(s: State<G>, step: Step<G>)
    requires Ranges(s) && Enabled(s, step) && Cleaning(step)
    ensures Grows(s, Apply(s, step))
  {
    match step
    case Connect(key, position, tracked, verdict) => ForceUniqueGrows(s, verdict); ForceUniqueRanges(s, verdict);
    case Begin => if Unique(s) { SweepGrows(s, {}, GcStart(s), 1); }
    case Janitor(i) => ForceCleanupGrows(s, WalkedId(s, i));
  }

  /** Moving an active slot only counts: no connection changes, and no slot comes back. */
  lemma SetActiveGrows<G(!new)>(s: State<G>, i: nat, a: Option<nat>)
    requires Ranges(s) && i < |s.invs| && (a.Some? ==> a.value < |s.bodies|)
    ensures InvRanges(s, s.invs[i])
    ensures var t := SetActive(s, i, a);
      && |t.bodies| == |s.bodies| && |t.invs| == |s.invs|
      && (forall b :: 0 <= b < |s.bodies| ==>
           Later(s.bodies[b], t.bodies[b]) && t.bodies[b].core.connected == s.bodies[b].core.connected)
  {}

  /** The steps that move an active slot. */
  lemma ActiveGrows<G(!new)>(s: State<G>, step: Step<G>)
    requires Ranges(s) && Enabled(s, step) && OnActive(step)
    ensures Grows(s, Apply(s, step))
  {
    hide SetActive;
    if step.EndProbe? { ProbedGrows(s, step.i); }
    else { SetActiveGrows(s, step.i, None); ReleasedInvs(s, step.i, None); }
  }

  lemma ReleasedInvs<G(!new)>(s: State<G>, i: nat, a: Option<nat>)
    requires Ranges(s) && i < |s.invs| && (a.Some? ==> a.value < |s.bodies|)
    ensures InvRanges(s, s.invs[i])
    ensures SetActive(s, i, a) == s.(bodies := SetActive(s, i, a).bodies, invs := s.invs[i := s.invs[i].(active := a)])
  {}

  lemma ProbedGrows<G(!new)>(s: State<G>, i: nat)
    requires Ranges(s) && Enabled(s, Step<G>.EndProbe(i))
    ensures Grows(s, Apply(s, EndProbe(i)))
  {
    hide SetActive;
    var v, b := s.invs[i], s.bodies[At(s, i)];
    if Callable(b) {
      var c := s.(mutex := None, invs := s.invs[i := v.(conn := v.conn + 1)]);
      assert InvRanges(s, v);
      forall j | 0 <= j < |c.invs| ensures InvRanges(c, c.invs[j]) { assert InvRanges(s, s.invs[j]); }
      SetActiveGrows(c, i, Some(At(s, i)));
      ReleasedInvs(c, i, Some(At(s, i)));
    }
  }

  lemma DisconnectGrows<G(!new)>(s: State<G>, b: nat)
    requires b < |s.bodies|
    ensures Grows(s, DisconnectBody(s, b))
  {}

  /** The steps that disconnect or block one body. */
  lemma BodyGrows<G(!new)>(s: State<G>, step: Step<G>)
    requires Ranges(s) && Enabled(s, step) && OnBody(step)
    ensures Grows(s, Apply(s, step))
  {
    hide DisconnectBody;
    match step
    case Disconnect(b) => DisconnectGrows(s, b);
    case SetBlocked(_, _) =>
    case Grab(i) => DisconnectGrows(s, At(s, i));
    case Throw(i) => DisconnectGrows(s, At(s, i));
    case ReadNext(i) =>
      assert InvRanges(s, s.invs[i]);
      if s.invs[i].pc.todo != [] { DisconnectGrows(s, s.invs[i].pc.todo[0]); }
  }

  /** The steps that touch no body. */
  lemma RecordGrows<G(!new)>(s: State<G>, step: Step<G>)
    requires Ranges(s) && Enabled(s, step) && !Cleaning(step) && !OnBody(step) && !OnActive(step)
    ensures Grows(s, Apply(s, step))
  {}

  /** No step of any run brings a connection or a slot back, or changes what a holder began with. */
  lemma StepGrows<G(!new)>(s: State<G>, step: Step<G>)
    requires Ranges(s) && Enabled(s, step)
    ensures Grows(s, Apply(s, step))
  {
    if Cleaning(step) { CleaningGrows(s, step); }
    else if OnBody(step) { BodyGrows(s, step); }
    else if OnActive(step) { ActiveGrows(s, step); }
    else { RecordGrows(s, step); }
  }

  lemma {:induction false} RunGrows<G(!new)>(s: State<G>, steps: seq<Step<G>>, t: State<G>)
    requires Runs(s, steps, t)
    ensures Grows(s, t)
    decreases |steps|
  {
    hide Apply, Enabled;
    if steps != [] {
      var u := Apply(s, steps[0]);
      StepGrows(s, steps[0]);
      RunGrows(u, steps[1..], t);
      assert forall b :: 0 <= b < |s.bodies| ==> Later(u.bodies[b], t.bodies[b]);
      assert forall i :: 0 <= i < |s.invs| ==> SameHold(u.invs[i], t.invs[i]);
    }
  }

  lemma {:induction false} RunsAppend<G(!new)>(s: State<G>, a: seq<Step<G>>, t: State<G>, b: seq<Step<G>>, u: State<G>)
    requires Runs(s, a, t) && Runs(t, b, u)
    ensures Runs(s, a + b, u)
    decreases |a|
  {
    hide Enabled, Apply;
    if a == [] {
      assert a + b == b;
    } else {
      assert (a + b)[1..] == a[1..] + b;
      RunsAppend(Apply(s, a[0]), a[1..], t, b, u);
    }
  }

  /** One more step at the end of a run. */
  lemma RunsThen<G(!new)>(s: State<G>, steps: seq<Step<G>>, t: State<G>, step: Step<G>)
    requires Runs(s, steps, t) && Ranges(t) && Enabled(t, step)
    ensures Runs(s, steps + [step], Apply(t, step))
  {
    hide Enabled, Apply, Ranges;
    var u := Apply(t, step);
    assert [step][1..] == [] && Runs(u, [], u);
    assert Runs(t, [step], u);
    RunsAppend(s, steps, t, [step], u);
  }

  lemma ThreeSteps<G(!new)>(s: State<G>, a: Step<G>, b: Step<G>, c: Step<G>)
    requires Ranges(s) && Enabled(s, a) && Ranges(Apply(s, a)) && Enabled(Apply(s, a), b)
    requires Ranges(Apply(Apply(s, a), b)) && Enabled(Apply(Apply(s, a), b), c)
    ensures Runs(s, [a, b, c], Apply(Apply(Apply(s, a), b), c))
  {
    hide Ranges, Enabled, Apply;
    var t, u := Apply(s, a), Apply(Apply(s, a), b);
    assert [a, b, c][1..] == [b, c] && [b, c][1..] == [c] && [c][1..] == [];
    assert Runs(Apply(u, c), [], Apply(u, c));
    assert Runs(u, [c], Apply(u, c));
    assert Runs(t, [b, c], Apply(u, c));
  }

  /** The comparison object never changes. */
  lemma StepKeepsOrder<G(!new)>(s: State<G>, step: Step<G>)
    requires Ranges(s) && Enabled(s, step)
    ensures Apply(s, step).lt == s.lt
  {}

  // ---------------------------------------------------------------- the list

  /** A step that cleans nothing leaves the list, its order and the stored iterator alone. */
  ghost predicate SameList<G(!new)>(s: State<G>, t: State<G>) {
    && Ranges(s) && Ranges(t) && t.lt == s.lt && t.lists == s.lists && CurId(t) == CurId(s) && t.gc == s.gc
    && |t.bodies| == |s.bodies|
    && (forall b :: 0 <= b < |s.bodies| ==>
         t.bodies[b].key == s.bodies[b].key && (t.bodies[b].core.connected ==> s.bodies[b].core.connected))
  }

  lemma InRange<G(!new)>(s: State<G>, i: nat)
    requires Ranges(s) && i < |s.invs|
    ensures InvRanges(s, s.invs[i]) && WalkedId(s, i) < |s.lists|
    ensures OnEntry(s, i) ==> At(s, i) < |s.bodies|
  {}

  /** Other records, other bodies in the same places: everything stays in range. */
  lemma MovedRanges<G(!new)>(s: State<G>, t: State<G>, i: nat)
    requires Ranges(s) && i < |s.invs| && |t.bodies| >= |s.bodies| && |t.invs| == |s.invs|
    requires t == s.(bodies := t.bodies, mutex := t.mutex, invs := s.invs[i := t.invs[i]]) && InvRanges(t, t.invs[i])
    ensures Ranges(t)
  {
    forall j | 0 <= j < |t.invs| ensures InvRanges(t, t.invs[j]) { if j != i { assert InvRanges(s, s.invs[j]); } }
  }

  /** The steps that disconnect or block a body outside an invocation. */
  lemma ThreadStepSameList<G(!new)>(s: State<G>, step: Step<G>)
    requires Ranges(s) && Enabled(s, step) && (step.Disconnect? || step.SetBlocked?)
    ensures SameList(s, Apply(s, step))
  {
    var t := Apply(s, step);
    forall i | 0 <= i < |t.invs| ensures InvRanges(t, t.invs[i]) { assert InvRanges(s, s.invs[i]); }
  }

  lemma ReadStepSameList<G(!new)>(s: State<G>, i: nat)
    requires Ranges(s) && Enabled(s, Step<G>.ReadNext(i))
    ensures SameList(s, Apply(s, ReadNext(i)))
  {
    InRange(s, i);
    MovedRanges(s, Apply(s, ReadNext(i)), i);
  }

  lemma ProbeStepSameList<G(!new)>(s: State<G>, step: Step<G>)
    requires Ranges(s) && Enabled(s, step) && (step.Grab? || step.Throw?)
    ensures SameList(s, Apply(s, step))
  {
    InRange(s, step.i);
    MovedRanges(s, Apply(s, step), step.i);
  }

  lemma BodyStepSameList<G(!new)>(s: State<G>, step: Step<G>)
    requires Ranges(s) && Enabled(s, step) && OnBody(step)
    ensures SameList(s, Apply(s, step))
  {
    hide Apply, Enabled, SameList;
    if step.Disconnect? || step.SetBlocked? { ThreadStepSameList(s, step); }
    else if step.ReadNext? { ReadStepSameList(s, step.i); }
    else { ProbeStepSameList(s, step); }
  }

  lemma ActiveStepSameList<G(!new)>(s: State<G>, step: Step<G>)
    requires Ranges(s) && Enabled(s, step) && OnActive(step)
    ensures SameList(s, Apply(s, step))
  {
    InRange(s, step.i);
    ActiveGrows(s, step);
    ActiveStepShape(s, step);
    MovedRanges(s, Apply(s, step), step.i);
  }

  lemma ActiveStepShape<G(!new)>(s: State<G>, step: Step<G>)
    requires Ranges(s) && Enabled(s, step) && OnActive(step)
    ensures var t := Apply(s, step);
      && step.i < |s.invs| == |t.invs| && |t.bodies| == |s.bodies| && InvRanges(t, t.invs[step.i])
      && t == s.(bodies := t.bodies, mutex := t.mutex, invs := s.invs[step.i := t.invs[step.i]])
  {
    InRange(s, step.i);
  }

  lemma RecordStepSameList<G(!new)>(s: State<G>, step: Step<G>)
    requires Ranges(s) && Enabled(s, step) && !Cleaning(step) && !OnBody(step) && !OnActive(step)
    ensures SameList(s, Apply(s, step))
  {
    var t := Apply(s, step);
    forall i | 0 <= i < |t.invs| ensures InvRanges(t, t.invs[i]) {
      if i < |s.invs| { assert InvRanges(s, s.invs[i]); }
    }
  }

  /** Every step but a connect, a begin and a janitor's. */
  lemma StepSameList<G(!new)>(s: State<G>, step: Step<G>)
    requires Ranges(s) && Enabled(s, step) && !Cleaning(step)
    ensures SameList(s, Apply(s, step))
  {
    hide Apply, Enabled, SameList;
    if OnBody(step) { BodyStepSameList(s, step); }
    else if OnActive(step) { ActiveStepSameList(s, step); }
    else { RecordStepSameList(s, step); }
  }

  lemma CopyListFacts<G(!new)>(s: State<G>)
    requires Ranges(s)
    ensures var c := CopyList(s);
      Ranges(c) && Unique(c) && CurList(c) == CurList(s) && c.bodies == s.bodies && c.lt == s.lt && c.invs == s.invs
  {
    CopyRanges(s);
    assert forall i :: 0 <= i < |s.invs| ==> InvRanges(s, s.invs[i]);
  }

  lemma RecordRanges<G(!new)>(s: State<G>, i: nat, pc: Pc)
    requires Ranges(s) && i < |s.invs| && !pc.Reading?
    ensures Ranges(SetPc(s, i, pc))
  {
    InRange(s, i);
    MovedRanges(s, SetPc(s, i, pc), i);
  }

  /** One more holder of the current version. */
  lemma HoldRanges<G(!new)>(s: State<G>, pc: Pc)
    requires Ranges(s) && (pc.Reading? ==> forall k :: 0 <= k < |pc.todo| ==> pc.todo[k] < |s.bodies|)
    ensures Ranges(s.(invs := s.invs + [NewInv(s, pc)]))
  {
    var t := s.(invs := s.invs + [NewInv(s, pc)]);
    forall i | 0 <= i < |t.invs| ensures InvRanges(t, t.invs[i]) {
      if i < |s.invs| { assert InvRanges(s, s.invs[i]); }
    }
  }
}
