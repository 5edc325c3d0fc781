/**
 The steps of the protocol told by what they change, without the functions they are made of; and what that means for
 whole runs: which slots an invocation runs, which bodies a reader disconnects, what an invocation holds. Nobody waits
 for ever: whoever holds the mutex can go on, and while nobody does every holder can.
 */
module Effects {
  import opened Options
  import opened GroupKeys
  import opened Lists
  import opened BodyCores
  import opened Protocol
  import opened Steps
  import opened Invariants
  import opened Snapshots
  import opened Safety

  // ---------------------------------------------------------------- single steps

  /** Of the bodies `b` at most has changed. */
  ghost predicate OnlyBody<G>(s: State<G>, t: State<G>, b: nat) {
    |t.bodies| == |s.bodies| && forall c :: 0 <= c < |s.bodies| && c != b ==> t.bodies[c] == s.bodies[c]
  }

  lemma DisconnectDoes<G(!new)>(s: State<G>, b: nat)
    requires Solid(s) && Enabled(s, Step<G>.Disconnect(b))
    ensures var t := Apply(s, Disconnect(b));
      && t == s.(bodies := t.bodies) && OnlyBody(s, t, b) && t.bodies[b] == s.bodies[b].(core := t.bodies[b].core)
      && IsCutOff(s.bodies[b].core, t.bodies[b].core)
  {
    assert CoreOk(s, b);
  }

  /** A connect makes one body, connected, counted once, with its slot and not blocked, and puts it into the list. */
  lemma ConnectDoes<G(!new)>(s: State<G>, step: Step<G>)
    requires Solid(s) && Enabled(s, step) && step.Connect?
    ensures var t, b := Apply(s, step), |s.bodies|;
      && Ranges(t) && |t.bodies| == b + 1 && b in CurList(t) && Unique(t) && t.invs == s.invs && t.mutex == s.mutex
      && t.bodies[b] == Body(step.key, step.tracked, Core(true, 1, true), false)
  {
    hide RefsOk, ForceUnique;
    ForceUniqueKeeps(s, step.verdict);
    AddBodyList(ForceUnique(s, step.verdict), step.key, step.position, step.tracked);
  }

  /**
   A connect looks at entries of the list, all of them if others hold the list and else the next two: those whose
   objects have expired are disconnected and no longer in the list.
   */
  lemma ConnectNotices<G(!new)>(s: State<G>, step: Step<G>, p: nat)
    requires Solid(s) && Enabled(s, step) && step.Connect? && p < |CurList(s)| && Expired(s, CurList(s)[p])
    requires Unique(s) ==> GcStart(s) <= p < GcStart(s) + 2
    ensures var t, b := Apply(s, step), CurList(s)[p];
      Ranges(t) && b < |s.bodies| < |t.bodies| && !t.bodies[b].core.connected && b !in CurList(t)
  {
    hide Sorted, RefsOk, ForceUnique, StrictWeak;
    ForceUniqueKeeps(s, step.verdict);
    AddBodyList(ForceUnique(s, step.verdict), step.key, step.position, step.tracked);
    ForceUniqueNotices(s, step.verdict, p);
  }

  lemma ForceUniqueNotices<G(!new)>(s: State<G>, verdict: set<nat>, p: nat)
    requires Ranges(s) && ListsOk(s) && p < |CurList(s)| && CurList(s)[p] in verdict
    requires s.bodies[CurList(s)[p]].core.slot && (Unique(s) ==> GcStart(s) <= p < GcStart(s) + 2)
    ensures var t, b := ForceUnique(s, verdict), CurList(s)[p];
      Ranges(t) && b < |s.bodies| == |t.bodies| && !t.bodies[b].core.connected && b !in CurList(t)
  {
    hide SweepCur;
    if Unique(s) {
      SweepNotices(s, verdict, GcStart(s), 2, p);
    } else {
      CopyListFacts(s);
      SweepNotices(CopyList(s), verdict, 0, |CurList(s)|, p);
    }
  }

  /** An entry examined whose body is found expired is disconnected and erased. */
  lemma SweepNotices<G(!new)>(s: State<G>, verdict: set<nat>, start: nat, n: nat, p: nat)
    requires Ranges(s) && NoDup(CurList(s)) && start <= p < start + n && p < |CurList(s)|
    requires CurList(s)[p] in verdict && s.bodies[CurList(s)[p]].core.slot
    ensures var t, b := SweepCur(s, verdict, start, n), CurList(s)[p];
      Ranges(t) && b < |s.bodies| == |t.bodies| && !t.bodies[b].core.connected && b !in CurList(t)
  {
    var xs, t := CurList(s), SweepCur(s, verdict, start, n);
    SweepRanges(s, verdict, start, n);
    var e := Min(start + n, |xs|);
    assert xs[start..e][p - start] == xs[p];
    assert !t.bodies[xs[p]].core.connected;
    assert xs[p] !in xs[..start] && xs[p] !in xs[e..];
    SweepMembers(xs, Dead(t.bodies), start, n);
  }

  lemma SetBlockedDoes<G(!new)>(s: State<G>, b: nat, blocked: bool)
    requires Ranges(s) && Enabled(s, Step<G>.SetBlocked(b, blocked))
    ensures var t := Apply(s, SetBlocked(b, blocked));
      t == s.(bodies := t.bodies) && OnlyBody(s, t, b) && t.bodies[b] == s.bodies[b].(blocked := blocked)
  {
    var t := Apply(s, SetBlocked(b, blocked));
    assert t.bodies[b].blocked == blocked;
  }

  /** An invocation begins at the front of the current list, with the current combiner, and has done nothing yet. */
  lemma BeginDoes<G(!new)>(s: State<G>)
    requires Solid(s) && Enabled(s, Step<G>.Begin)
    ensures var t, i := Apply(s, Begin), |s.invs|;
      && Ranges(t) && |t.invs| == i + 1 && t.invs[..i] == s.invs
      && var v := t.invs[i];
      && v.version == t.current && v.snapshot == CurList(t) && v.combiner == t.combs[t.versions[t.current].comb]
      && v.born == |t.bodies| && v.pc == Scanning && v.pos == 0 && v.active.None? && v.held == {}
      && v.conn == v.disc == 0 && v.ran == v.done == []
  {
    StepSolid(s, Begin);
    if Unique(s) { SweepKeeps(s, {}, GcStart(s), 1); }
  }

  lemma BeginReadDoes<G(!new)>(s: State<G>, group: Option<G>)
    requires Solid(s) && Enabled(s, Step<G>.BeginRead(group))
    ensures var t, i := Apply(s, BeginRead(group)), |s.invs|;
      && t == s.(invs := t.invs) && |t.invs| == i + 1 && t.invs[i].pc.Reading?
      && forall b: nat :: b in t.invs[i].pc.todo <==>
           && b < |s.bodies| && b in CurList(s)
           && (group.Some? ==> Equivalent(s.lt, s.bodies[b].key, Grouped(group.value)))
  {
    var todo := Apply(s, BeginRead(group)).invs[|s.invs|].pc.todo;
    forall b: nat ensures b in todo <==>
      b < |s.bodies| && b in CurList(s) && (group.Some? ==> Equivalent(s.lt, s.bodies[b].key, Grouped(group.value)))
    {
      if b < |s.bodies| && group.Some? { ReadRangeExact(s, group.value, b); }
      ReadRangeInside(s, group, b);
    }
  }

  lemma ReadRangeInside<G(!new)>(s: State<G>, group: Option<G>, b: nat)
    requires Ranges(s)
    ensures b in ReadRange(s, group) ==> b < |s.bodies|
    ensures group.None? ==> (b in ReadRange(s, group) <==> b in CurList(s))
  {}

  lemma ReadNextDoes<G(!new)>(s: State<G>, i: nat)
    requires Solid(s) && Enabled(s, Step<G>.ReadNext(i)) && s.invs[i].pc.todo != []
    ensures var t, todo := Apply(s, ReadNext(i)), s.invs[i].pc.todo;
      && todo[0] < |s.bodies| && OnlyBody(s, t, todo[0]) && IsCutOff(s.bodies[todo[0]].core, t.bodies[todo[0]].core)
      && t.invs == s.invs[i := s.invs[i].(pc := Reading(todo[1..]))]
  {
    InRange(s, i);
    assert CoreOk(s, s.invs[i].pc.todo[0]);
  }

  /** The objects held for the slot before are let go before those of the next are grabbed. */
  lemma LockDoes<G(!new)>(s: State<G>, i: nat)
    requires Ranges(s) && Enabled(s, Step<G>.Lock(i))
    ensures var t, b := Apply(s, Lock(i)), s.bodies[At(s, i)];
      && t == s.(mutex := Some(i), invs := t.invs) && |t.invs| == |s.invs|
      && t.invs[i].held == {} && t.invs[i].pc == Probing(if b.core.slot then b.tracked else [])
  {}

  /** An object alive is held unless it is of the kind that is never held; one that has expired cuts the slot off. */
  lemma GrabDoes<G(!new)>(s: State<G>, i: nat)
    requires Solid(s) && Enabled(s, Step<G>.Grab(i))
    ensures var t, b, o := Apply(s, Grab(i)), At(s, i), s.invs[i].pc.left[0];
      && b < |s.bodies| && |t.invs| == |s.invs|
      && (Alive(s, o.obj) ==>
           && t.bodies == s.bodies && t.invs[i].pc == Probing(s.invs[i].pc.left[1..])
           && t.invs[i].held == if o.trackable then s.invs[i].held else s.invs[i].held + {o.obj})
      && (!Alive(s, o.obj) ==>
           OnlyBody(s, t, b) && IsCutOff(s.bodies[b].core, t.bodies[b].core) && t.invs[i].pc == Probing([]))
  {
    assert CoreOk(s, At(s, i));
  }

  /** A slot is run next exactly when its body is connected and not blocked, and is counted as connected if it is. */
  lemma EndProbeDoes<G(!new)>(s: State<G>, i: nat)
    requires Ranges(s) && Enabled(s, Step<G>.EndProbe(i))
    ensures OnEntry(s, i) && At(s, i) < |s.bodies| && i < |Apply(s, EndProbe(i)).invs|
    ensures var t, b, v := Apply(s, EndProbe(i)), s.bodies[At(s, i)], s.invs[i];
      var w := t.invs[i];
      && t.mutex.None?
      && (w.pc == Ready(false) <==> b.core.connected && !b.blocked)
      && (w.pc == Ready(false) ==> w.pos == v.pos && w.active == Some(At(s, i)))
      && (w.pc != Ready(false) ==>
           w.pc == Scanning && w.pos == v.pos + 1 && w.active == v.active && t.bodies == s.bodies)
      && w.conn == v.conn + (if b.core.connected then 1 else 0)
      && w.disc == v.disc + (if b.core.connected then 0 else 1)
  {
    hide Apply;
    ActiveStepRecord(s, EndProbe(i));
    if !s.bodies[At(s, i)].core.connected || s.bodies[At(s, i)].blocked { SkipKeepsBodies(s, i); }
  }

  lemma SkipKeepsBodies<G(!new)>(s: State<G>, i: nat)
    requires Ranges(s) && Enabled(s, Step<G>.EndProbe(i)) && OnEntry(s, i) && At(s, i) < |s.bodies|
    requires !s.bodies[At(s, i)].core.connected || s.bodies[At(s, i)].blocked
    ensures Apply(s, EndProbe(i)).bodies == s.bodies
  {}

  /** Giving up the active slot: it counts one less, and nothing else changes. The cache, destroyed, holds nothing. */
  lemma ReleaseDoes<G(!new)>(s: State<G>, step: Step<G>, i: nat)
    requires Solid(s) && Enabled(s, step) && (step == ReachEnd(i) || step == DropCache(i))
    ensures i < |s.invs| == |Apply(s, step).invs|
    ensures var t, a := Apply(s, step), s.invs[i].active;
      && t.invs[i].active.None? && (step.DropCache? ==> t.invs[i].held == {})
      && (a.None? ==> t.bodies == s.bodies)
      && (a.Some? ==>
           && a.value < |s.bodies| && OnlyBody(s, t, a.value)
           && OneLess(s.bodies[a.value].core, t.bodies[a.value].core))
  {
    InRange(s, i);
    if s.invs[i].active.Some? {
      ActiveSlotIsOwned(s, i);
      assert CoreOk(s, s.invs[i].active.value);
    }
  }

  /** Making a slot active: the one before counts one less, and the new one, after that, one more. */
  lemma CommitDoes<G(!new)>(s: State<G>, i: nat)
    requires Solid(s) && Enabled(s, Step<G>.EndProbe(i)) && OnEntry(s, i) && At(s, i) < |s.bodies|
    requires s.bodies[At(s, i)].core.connected && !s.bodies[At(s, i)].blocked
    ensures var t, a, b := Apply(s, EndProbe(i)), s.invs[i].active, At(s, i);
      && |t.bodies| == |s.bodies|
      && (a == Some(b) ==> t.bodies == s.bodies)
      && (a != Some(b) ==> t.bodies[b] == s.bodies[b].(core := t.bodies[b].core)
                           && t.bodies[b].core == s.bodies[b].core.(refs := s.bodies[b].core.refs + 1))
      && (a.Some? && a != Some(b) ==> a.value < |s.bodies| && OneLess(s.bodies[a.value].core, t.bodies[a.value].core))
      && (forall c :: 0 <= c < |s.bodies| && c != b && a != Some(c) ==> t.bodies[c] == s.bodies[c])
  {
    hide Solid, Apply, Enabled, RefsOk;
    FromSolid(s);
    InRange(s, i);
    var a, b := s.invs[i].active, At(s, i);
    ActiveStepBodies(s, EndProbe(i), Some(b));
    if a.Some? { ActiveSlotIsOwned(s, i); CoreValid(s, a.value); }
    if a == Some(b) { TwiceCounted(s, i, b); }
    CoreValid(s, b);
  }

  lemma CoreValid<G(!new)>(s: State<G>, b: nat)
    requires RefsOk(s) && b < |s.bodies|
    ensures s.bodies[b].core.Valid()
  {
    assert CoreOk(s, b);
  }

  lemma TwiceCounted<G(!new)>(s: State<G>, i: nat, b: nat)
    requires RefsOk(s) && i < |s.invs| && b < |s.bodies| && s.invs[i].active == Some(b) && s.bodies[b].core.connected
    ensures s.bodies[b].core.refs > 1
  {
    assert CoreOk(s, b);
    ActiveExists(s.invs, b);
  }

  /** A slot that throws is cut off, and its invocation stands where it stood. */
  lemma ThrowDoes<G(!new)>(s: State<G>, i: nat)
    requires Solid(s) && Enabled(s, Step<G>.Throw(i))
    ensures var t, b := Apply(s, Throw(i)), At(s, i);
      && b < |s.bodies| && OnlyBody(s, t, b) && IsCutOff(s.bodies[b].core, t.bodies[b].core)
      && t == s.(bodies := t.bodies, invs := s.invs[i := s.invs[i].(pc := Ready(false))])
  {
    assert CoreOk(s, At(s, i));
  }

  /** Other code drops an object: it has expired unless an invocation holds it. */
  lemma DropObjectDoes<G(!new)>(s: State<G>, o: nat)
    requires Ranges(s)
    ensures Enabled(s, Step<G>.DropObject(o)) && Apply(s, DropObject(o)).owned == s.owned - {o}
    ensures Alive(Apply(s, DropObject(o)), o) <==> exists i :: 0 <= i < |s.invs| && o in s.invs[i].held
  {}

  /** Other code can take a share in an object only while it is alive. */
  lemma AdoptObjectDoes<G(!new)>(s: State<G>, o: nat)
    requires Ranges(s)
    ensures Enabled(s, Step<G>.AdoptObject(o)) <==>
      o in s.owned || exists i :: 0 <= i < |s.invs| && o in s.invs[i].held
    ensures Enabled(s, Step<G>.AdoptObject(o)) ==> Apply(s, AdoptObject(o)).owned == s.owned + {o}
  {}

  /** The janitor cleans up exactly when most of the slots met were disconnected and the list is still the signal's. */
  lemma JanitorDoes<G(!new)>(s: State<G>, i: nat)
    requires Solid(s) && Enabled(s, Step<G>.Janitor(i))
    ensures var t, v := Apply(s, Janitor(i)), s.invs[i];
      && Ranges(t) && i < |t.invs| && t.invs[i] == v.(pc := Swept)
      && if v.disc > v.conn && WalkedId(s, i) == CurId(s) then
           t.gc.None? && forall b :: b in CurList(t) <==> b in CurList(s) && s.bodies[b].core.connected
         else t == s.(invs := s.invs[i := v.(pc := Swept)])
  {
    hide RefsOk, Sorted;
    JanitorKeeps(s, i);
    ForceCleanupGrows(s, WalkedId(s, i));
    if s.invs[i].disc > s.invs[i].conn && WalkedId(s, i) == CurId(s) {
      CopyListFacts(s);
      var c := if Unique(s) then s else CopyList(s);
      CleanAllExact(c);
    }
  }

  lemma CleanAllExact<G(!new)>(s: State<G>)
    requires Ranges(s)
    ensures var t := CleanAll(s, {});
      && Ranges(t) && t.gc.None? && t.bodies == s.bodies
      && forall b :: b in CurList(t) <==> b in CurList(s) && s.bodies[b].core.connected
  {
    CleanAllLeavesConnected(s, {});
    SweepNobody(s, 0, |CurList(s)|);
    SweepMembers(CurList(s), Dead(s.bodies), 0, |CurList(s)|);
    assert CurList(s)[0..|CurList(s)|] == CurList(s);
  }

  // ---------------------------------------------------------------- which slots an invocation runs

  /** A body found blocked or disconnected when its probe ends is not run by that invocation: whatever else happens. */
  lemma SkippedIsNeverRun<G(!new)>(s: State<G>, steps: seq<Step<G>>, t: State<G>, i: nat)
    requires Solid(s) && Enabled(s, Step<G>.EndProbe(i)) && OnEntry(s, i) && At(s, i) < |s.bodies|
    requires !s.bodies[At(s, i)].core.connected || s.bodies[At(s, i)].blocked
    requires Runs(Apply(s, EndProbe(i)), steps, t)
    ensures i < |t.invs| && s.invs[i].pos !in t.invs[i].ran
  {
    hide Apply;
    EndProbeDoes(s, i);
    StepSolid(s, EndProbe(i));
    PositionOnlyAdvances(s, EndProbe(i), i);
    SkippedNotRunYet(s, i);
    ExpiredIsNeverRun(Apply(s, EndProbe(i)), steps, t, i, s.invs[i].pos);
  }

  lemma SkippedNotRunYet<G(!new)>(s: State<G>, i: nat)
    requires Solid(s) && Enabled(s, Step<G>.EndProbe(i)) && OnEntry(s, i) && At(s, i) < |s.bodies|
    requires !s.bodies[At(s, i)].core.connected || s.bodies[At(s, i)].blocked
    ensures i < |Apply(s, EndProbe(i)).invs| && s.invs[i].pos !in Apply(s, EndProbe(i)).invs[i].ran
  {
    hide Apply;
    assert RecordOk(s.invs[i]);
    ActiveStepRecord(s, EndProbe(i));
  }

  /** In this step invocation `i` finds the body at position `p` connected and not blocked. */
  ghost predicate PassesNow<G(!new)>(s: State<G>, step: Step<G>, i: nat, p: nat) {
    && Ranges(s) && Enabled(s, step) && step == EndProbe(i) && OnEntry(s, i) && s.invs[i].pos == p
    && At(s, i) < |s.bodies| && s.bodies[At(s, i)].core.connected && !s.bodies[At(s, i)].blocked
  }

  /** In some step of the run. */
  ghost predicate Passed<G(!new)>(s: State<G>, steps: seq<Step<G>>, i: nat, p: nat)
    decreases |steps|
  {
    && steps != [] && Ranges(s) && Enabled(s, steps[0])
    && (PassesNow(s, steps[0], i, p) || Passed(Apply(s, steps[0]), steps[1..], i, p))
  }

  /** If `p` has been run, or is about to be, `passed` says so. */
  ghost predicate RunIfPassed<G>(s: State<G>, i: nat, p: nat, passed: bool) {
    i < |s.invs| ==>
      var v := s.invs[i]; p in v.ran || ((v.pc.Ready? || v.pc.Running?) && v.pos == p) ==> passed
  }

  lemma OthersRun<G(!new)>(s: State<G>, step: Step<G>, i: nat, p: nat, passed: bool)
    requires Ranges(s) && Enabled(s, step) && Moves(step) == Some(i) && RunIfPassed(s, i, p, passed) && !OnActive(step)
    requires !step.Janitor?
    ensures RunIfPassed(Apply(s, step), i, p, passed)
  {}

  lemma JanitorRun<G(!new)>(s: State<G>, i: nat, p: nat, passed: bool)
    requires Ranges(s) && Enabled(s, Step<G>.Janitor(i)) && RunIfPassed(s, i, p, passed)
    ensures RunIfPassed(Apply(s, Janitor(i)), i, p, passed)
  {
    hide ForceCleanup;
    ForceCleanupGrows(s, WalkedId(s, i));
  }

  lemma NewRun<G(!new)>(s: State<G>, step: Step<G>, i: nat, p: nat, passed: bool)
    requires Ranges(s) && Enabled(s, step) && |s.invs| <= i
    ensures RunIfPassed(Apply(s, step), i, p, passed)
  {
    match step
    case Begin =>
    case BeginRead(_) =>
    case _ => NoNewHolder(s, step);
  }

  lemma ActiveRun<G(!new)>(s: State<G>, step: Step<G>, p: nat, passed: bool)
    requires Ranges(s) && Enabled(s, step) && OnActive(step) && RunIfPassed(s, step.i, p, passed)
    ensures RunIfPassed(Apply(s, step), step.i, p, passed || PassesNow(s, step, step.i, p))
  {
    hide Apply, Ranges;
    ActiveStepRecord(s, step);
    if step.EndProbe? { EndProbeDoes(s, step.i); }
  }

  lemma StepPassed<G(!new)>(s: State<G>, step: Step<G>, i: nat, p: nat, passed: bool)
    requires Ranges(s) && Enabled(s, step) && RunIfPassed(s, i, p, passed)
    ensures RunIfPassed(Apply(s, step), i, p, passed || PassesNow(s, step, i, p))
  {
    hide Apply, Enabled, Ranges, PassesNow;
    if i >= |s.invs| { NewRun(s, step, i, p, passed); }
    else if Moves(step) != Some(i) { OthersStay(s, step, i); }
    else if OnActive(step) { ActiveRun(s, step, p, passed); }
    else if step.Janitor? { JanitorRun(s, i, p, passed); }
    else { OthersRun(s, step, i, p, passed); }
  }

  lemma {:induction false} RunPassed<G(!new)>(s: State<G>, steps: seq<Step<G>>, t: State<G>, i: nat, p: nat,
                                              passed: bool)
    requires Runs(s, steps, t) && RunIfPassed(s, i, p, passed)
    ensures RunIfPassed(t, i, p, passed || Passed(s, steps, i, p))
    decreases |steps|
  {
    hide Apply, Enabled, RunIfPassed, PassesNow;
    if steps != [] {
      StepPassed(s, steps[0], i, p, passed);
      RunPassed(Apply(s, steps[0]), steps[1..], t, i, p, passed || PassesNow(s, steps[0], i, p));
    }
  }

  /** In any run an invocation has run only positions whose bodies it had found connected and not blocked. */
  lemma OnlyCallableAreRun<G(!new)>(lt: GroupCompare<G>, combiner: int, owned: set<nat>, steps: seq<Step<G>>,
                                    t: State<G>, i: nat, p: nat)
    requires Runs(Init(lt, combiner, owned), steps, t) && i < |t.invs| && p in t.invs[i].ran
    ensures Passed(Init(lt, combiner, owned), steps, i, p)
  {
    RunPassed(Init(lt, combiner, owned), steps, t, i, p, false);
  }

  // ---------------------------------------------------------------- what a reader disconnects

  /** Holder `i` reads: `b` is disconnected or still to visit, and nothing outside `range` is to be visited. */
  ghost predicate ReadsOn<G>(s: State<G>, i: nat, b: nat, range: set<nat>) {
    && i < |s.invs| && b < |s.bodies| && (s.invs[i].pc.Reading? || s.invs[i].pc.Gone?)
    && (b in range && s.bodies[b].core.connected ==> s.invs[i].pc.Reading? && b in s.invs[i].pc.todo)
    && (s.invs[i].pc.Reading? ==> forall k :: 0 <= k < |s.invs[i].pc.todo| ==> s.invs[i].pc.todo[k] in range)
  }

  lemma StepReadsOn<G(!new)>(s: State<G>, step: Step<G>, i: nat, b: nat, range: set<nat>)
    requires Solid(s) && Enabled(s, step) && ReadsOn(s, i, b, range)
    ensures ReadsOn(Apply(s, step), i, b, range)
  {
    hide Solid, Apply, Enabled;
    FromSolid(s);
    StepGrows(s, step);
    if Moves(step) != Some(i) { OthersStay(s, step, i); }
    else { ReaderMoves(s, step, i, b, range); }
  }

  lemma ReaderMoves<G(!new)>(s: State<G>, step: Step<G>, i: nat, b: nat, range: set<nat>)
    requires Solid(s) && Enabled(s, step) && ReadsOn(s, i, b, range) && Moves(step) == Some(i)
    ensures ReadsOn(Apply(s, step), i, b, range)
  {
    hide Solid;
    FromSolid(s);
    ReaderOnly(s, step, i);
    if step.ReadNext? && s.invs[i].pc.todo != [] { ReadNextDoes(s, i); }
  }

  lemma ReaderOnly<G(!new)>(s: State<G>, step: Step<G>, i: nat)
    requires Ranges(s) && Enabled(s, step) && Moves(step) == Some(i) && i < |s.invs|
    requires s.invs[i].pc.Reading? || s.invs[i].pc.Gone?
    ensures step.ReadNext? || (step.DropState? && s.invs[i].pc == Reading([]))
  {}

  lemma {:induction false} ReadRun<G(!new)>(s: State<G>, steps: seq<Step<G>>, t: State<G>, i: nat, b: nat,
                                            range: set<nat>)
    requires Solid(s) && Runs(s, steps, t) && ReadsOn(s, i, b, range)
    ensures ReadsOn(t, i, b, range)
    decreases |steps|
  {
    hide Solid, Apply, Enabled, ReadsOn;
    if steps != [] {
      FromSolid(s);
      StepReadsOn(s, steps[0], i, b, range);
      StepSolid(s, steps[0]);
      ReadRun(Apply(s, steps[0]), steps[1..], t, i, b, range);
    }
  }

  /**
   When `disconnect(group)` or, without a group, `disconnect_all_slots` has come to its end, whatever went on meanwhile,
   every body is disconnected that was in the list when it began and in the group; and all it visits is of that kind.
   */
  lemma ReaderDisconnects<G(!new)>(s: State<G>, group: Option<G>, steps: seq<Step<G>>, t: State<G>, b: nat)
    requires Solid(s) && Enabled(s, Step<G>.BeginRead(group)) && Runs(Apply(s, BeginRead(group)), steps, t)
    requires b < |s.bodies|
    ensures |s.invs| < |t.invs| && b < |t.bodies| && Ranges(s)
    ensures var pc, hit := t.invs[|s.invs|].pc,
                           b in CurList(s) && (group.Some? ==> Equivalent(s.lt, s.bodies[b].key, Grouped(group.value)));
      && (pc == Reading([]) || pc == Gone ==> hit ==> !t.bodies[b].core.connected)
      && (pc.Reading? && b in pc.todo ==> hit)
  {
    hide Solid, Apply, Enabled;
    FromSolid(s);
    var u, i := Apply(s, BeginRead(group)), |s.invs|;
    BeginReadDoes(s, group);
    StepSolid(s, BeginRead(group));
    var range := set x | x in u.invs[i].pc.todo;
    ReadRun(u, steps, t, i, b, range);
  }

  // ---------------------------------------------------------------- what an invocation holds

  /**
   In every run an invocation whose slot is ready or running holds exactly the tracked objects of that slot that can be
   held: none is missing, and none of a slot before is left.
   */
  lemma HoldsExactly<G(!new)>(lt: GroupCompare<G>, combiner: int, owned: set<nat>, steps: seq<Step<G>>, t: State<G>,
                              i: nat, o: nat)
    requires StrictWeak(lt) && Runs(Init(lt, combiner, owned), steps, t)
    requires i < |t.invs| && (t.invs[i].pc.Ready? || t.invs[i].pc.Running?)
    ensures t.invs[i].active.Some? && t.invs[i].active.value < |t.bodies|
    ensures o in t.invs[i].held <==>
      var ts := t.bodies[t.invs[i].active.value].tracked;
      exists k :: 0 <= k < |ts| && !ts[k].trackable && ts[k].obj == o
  {
    hide StrictWeak;
    ReachableSolid(lt, combiner, owned, steps, t);
    assert RecordOk(t.invs[i]) && Holding(t, i);
    InRange(t, i);
  }

  // ---------------------------------------------------------------- going on

  /** Whoever holds the mutex can go on. */
  lemma MutexIsReleased<G(!new)>(s: State<G>)
    requires Invariant(s) && s.mutex.Some?
    ensures Ranges(s) && (Enabled(s, Step<G>.Grab(s.mutex.value)) || Enabled(s, Step<G>.EndProbe(s.mutex.value)))
  {
    FromInvariant(s);
    AboutHolder(s, s.mutex.value);
  }

  /**
   While nobody holds the mutex, anybody may connect, disconnect, block, replace the combiner, invoke the signal or
   disconnect a group. At any time a block may be given up, a combiner may have the slot it is at called, pass over it
   or stop, and a slot that runs may return or leave with an exception.
   */
  lemma AnybodyMayAct<G(!new)>(s: State<G>, key: Key<G>, position: Position, tracked: seq<Tracked>, b: nat,
                               blocked: bool, c: int, group: Option<G>, i: nat)
    requires Ranges(s)
    ensures s.mutex.None? ==>
      && Enabled(s, Connect(key, position, tracked, set b: nat | b < |s.bodies| && Expired(s, b)))
      && (b < |s.bodies| ==> Enabled(s, Step<G>.Disconnect(b)) && Enabled(s, Step<G>.SetBlocked(b, blocked)))
      && Enabled(s, Step<G>.SetCombiner(c)) && Enabled(s, Step<G>.Begin) && Enabled(s, BeginRead(group))
    ensures b < |s.bodies| ==> Enabled(s, Step<G>.SetBlocked(b, false))
    ensures i < |s.invs| && s.invs[i].pc.Running? ==>
      && Enabled(s, Step<G>.Return(i)) && Enabled(s, Step<G>.Leave(i))
      && (OnEntry(s, i) && s.mutex.None? ==> Enabled(s, Step<G>.Throw(i)))
    ensures i < |s.invs| && s.invs[i].pc.Ready? ==> Enabled(s, Step<G>.Advance(i)) && Enabled(s, Step<G>.Leave(i))
    ensures i < |s.invs| && s.invs[i].pc == Ready(false) ==> Enabled(s, Step<G>.Call(i))
  {}

  /** The step a holder can take when the mutex is free. */
  function NextStep<G>(s: State<G>, i: nat): Step<G>
    requires i < |s.invs| && s.invs[i].version < |s.versions| && s.versions[s.invs[i].version].list < |s.lists|
  {
    match s.invs[i].pc
    case Reading(todo) => if todo == [] then DropState(i) else ReadNext(i)
    case Scanning => if s.invs[i].pos < |Walked(s, i)| then Lock(i) else ReachEnd(i)
    case Probing(left) => if left == [] then EndProbe(i) else Grab(i)
    case Ready(cached) => if cached then Advance(i) else Call(i)
    case Running => Return(i)
    case AtEnd => Leave(i)
    case Leaving => Janitor(i)
    case Swept => DropCache(i)
    case Closed => DropState(i)
    case Gone => DropState(i)
  }

  /** While nobody holds the mutex every holder that has not finished can go on. */
  lemma NobodyIsStuck<G(!new)>(s: State<G>, i: nat)
    requires Invariant(s) && s.mutex.None? && Live(s, i)
    ensures Ranges(s) && InvRanges(s, s.invs[i]) && Enabled(s, NextStep(s, i)) && Moves(NextStep(s, i)) == Some(i)
  {
    FromInvariant(s);
    AboutHolder(s, i);
  }
}
