/**
 What holds over whole runs. First what needs no hypothesis: conservation of connections, the reference counts and
 the assertions on them, tracked objects kept alive. Then what does: snapshot isolation, and the bound left behind
 by an invocation.
 */
module Safety {
  import opened Options
  import opened GroupKeys
  import opened Lists
  import opened Protocol
  import opened Steps
  import opened Invariants
  import opened Snapshots

  // ---------------------------------------------------------------- conservation of connections

  /**
   In every state of every run a connected body is in the signal's list exactly once, and the list is ordered by
   the keys of its bodies.
   */
  lemma Conservation<G(!new)>(lt: GroupCompare<G>, combiner: int, owned: set<nat>, steps: seq<Step<G>>, t: State<G>,
                              b: nat)
    requires StrictWeak(lt) && Runs(Init(lt, combiner, owned), steps, t)
    requires b < |t.bodies| && t.bodies[b].core.connected
    ensures Ranges(t)
    ensures exists p :: && 0 <= p < |CurList(t)| && CurList(t)[p] == b
                        && (forall q :: 0 <= q < |CurList(t)| && CurList(t)[q] == b ==> q == p)
    ensures Sorted(t.lt, KeysOf(t.bodies, CurList(t)))
  {
    ReachableSolid(lt, combiner, owned, steps, t);
    var p :| 0 <= p < |CurList(t)| && CurList(t)[p] == b;
    assert NoDup(CurList(t));
    forall q | 0 <= q < |CurList(t)| && CurList(t)[q] == b ensures q == p {
      if q != p { assert false; }
    }
  }

  /** Over any run: what is connected at the end was connected, under the same key, all along. */
  lemma DisconnectedForGood<G(!new)>(s: State<G>, steps: seq<Step<G>>, t: State<G>, b: nat)
    requires Runs(s, steps, t) && b < |s.bodies|
    ensures b < |t.bodies| && t.bodies[b].key == s.bodies[b].key
    ensures t.bodies[b].core.connected ==> s.bodies[b].core.connected
    ensures t.bodies[b].core.slot ==> s.bodies[b].core.slot
  {
    RunGrows(s, steps, t);
  }

  /** Over any run: a body that has left the list is disconnected, and does not come back. */
  lemma {:induction false} OnlyDisconnectedLeave<G(!new)>(s: State<G>, steps: seq<Step<G>>, t: State<G>, b: nat)
    requires Solid(s) && Runs(s, steps, t) && b < |s.bodies|
    ensures Ranges(s) && Ranges(t) && b < |t.bodies|
    ensures b !in CurList(t) ==> !t.bodies[b].core.connected
    ensures b in CurList(t) ==> b in CurList(s)
    decreases |steps|
  {
    hide Solid, Apply, Enabled, Consistent;
    FromSolid(s);
    if steps == [] {
      FromSolid(t);
    } else {
      StepConsistent(s, steps[0]);
      StepSolid(s, steps[0]);
      StepGrows(s, steps[0]);
      OnlyDisconnectedLeave(Apply(s, steps[0]), steps[1..], t, b);
    }
  }

  // ---------------------------------------------------------------- reference counts

  /**
   In every state of every run a body's count is one for its connection plus one per cache it is active in, and
   its slot is there exactly while the count is positive. So no count that a step decrements is zero, and neither
   is one that it increments, even when the slot active before is released first.
   */
  lemma CountsInEveryRun<G(!new)>(lt: GroupCompare<G>, combiner: int, owned: set<nat>, steps: seq<Step<G>>, t: State<G>)
    requires StrictWeak(lt) && Runs(Init(lt, combiner, owned), steps, t)
    ensures Ranges(t)
    ensures forall b :: 0 <= b < |t.bodies| ==> var c := t.bodies[b].core;
      c.refs == (if c.connected then 1 else 0) + ActiveCount(t.invs, b) && (c.slot <==> c.refs > 0)
    ensures forall i :: 0 <= i < |t.invs| && t.invs[i].active.Some? ==>
      t.invs[i].active.value < |t.bodies| && t.bodies[t.invs[i].active.value].core.refs != 0
    ensures forall i, b :: 0 <= i < |t.invs| && 0 <= b < |t.bodies| && t.bodies[b].core.connected ==>
      InvRanges(t, t.invs[i]) && SetActive(t, i, None).bodies[b].core.refs != 0
  {
    ReachableSolid(lt, combiner, owned, steps, t);
    CountsAreExact(t);
    forall i | 0 <= i < |t.invs| && t.invs[i].active.Some?
      ensures t.invs[i].active.value < |t.bodies| && t.bodies[t.invs[i].active.value].core.refs != 0
    {
      ActiveSlotIsOwned(t, i);
    }
    forall i, b | 0 <= i < |t.invs| && 0 <= b < |t.bodies| && t.bodies[b].core.connected
      ensures InvRanges(t, t.invs[i]) && SetActive(t, i, None).bodies[b].core.refs != 0
    {
      StillCounted(t, i, b);
    }
  }

  lemma CountsAreExact<G(!new)>(s: State<G>)
    requires Solid(s)
    ensures Ranges(s)
    ensures forall b :: 0 <= b < |s.bodies| ==> var c := s.bodies[b].core;
      c.refs == (if c.connected then 1 else 0) + ActiveCount(s.invs, b) && (c.slot <==> c.refs > 0)
  {
    forall b | 0 <= b < |s.bodies|
      ensures var c := s.bodies[b].core;
        c.refs == (if c.connected then 1 else 0) + ActiveCount(s.invs, b) && (c.slot <==> c.refs > 0)
    {
      assert CoreOk(s, b);
    }
  }

  /** A connected body is counted still when an invocation gives up the slot it has active. */
  lemma StillCounted<G(!new)>(s: State<G>, i: nat, b: nat)
    requires Solid(s) && i < |s.invs| && b < |s.bodies| && s.bodies[b].core.connected
    ensures InvRanges(s, s.invs[i]) && SetActive(s, i, None).bodies[b].core.refs != 0
  {
    hide Solid, SetActive;
    FromSolid(s);
    SetActiveRefs(s, i, None);
    SetActiveGrows(s, i, None);
    assert CoreOk(SetActive(s, i, None), b);
  }

  /** An active slot has a positive count and is still owned by its body. */
  lemma ActiveSlotIsOwned<G(!new)>(s: State<G>, i: nat)
    requires Solid(s) && i < |s.invs| && s.invs[i].active.Some?
    ensures var b := s.invs[i].active.value; b < |s.bodies| && s.bodies[b].core.slot && s.bodies[b].core.refs != 0
  {
    hide Solid;
    FromSolid(s);
    SetActiveRefs(s, i, None);
    assert CoreOk(s, s.invs[i].active.value);
  }

  // ---------------------------------------------------------------- tracked objects

  /** While a slot is callable or running, its holdable tracked objects are alive: the invocation holds them. */
  lemma TrackedStayAlive<G(!new)>(s: State<G>, i: nat, k: nat)
    requires Solid(s) && i < |s.invs| && (s.invs[i].pc.Ready? || s.invs[i].pc.Running?)
    ensures s.invs[i].active.Some? && s.invs[i].active.value < |s.bodies| && s.bodies[s.invs[i].active.value].core.slot
    ensures var ts := s.bodies[s.invs[i].active.value].tracked; k < |ts| && !ts[k].trackable ==> Alive(s, ts[k].obj)
  {
    assert RecordOk(s.invs[i]) && Holding(s, i);
    ActiveSlotIsOwned(s, i);
  }

  /** Expiry is permanent. */
  lemma DeadStaysDead<G(!new)>(s: State<G>, step: Step<G>, o: nat)
    requires Ranges(s) && Enabled(s, step) && !Alive(s, o)
    ensures !Alive(Apply(s, step), o)
  {
    if Cleaning(step) { CleaningKeepsInvs(s, step); }
    else if OnBody(step) { DeadStaysDeadOnBody(s, step, o); }
    else { DeadStaysDeadOther(s, step, o); }
  }

  lemma DeadStaysDeadOnBody<G(!new)>(s: State<G>, step: Step<G>, o: nat)
    requires Ranges(s) && Enabled(s, step) && !Alive(s, o) && OnBody(step)
    ensures !Alive(Apply(s, step), o)
  {
    var t := Apply(s, step);
    forall i | 0 <= i < |t.invs| ensures o !in t.invs[i].held { assert o !in s.invs[i].held; }
  }

  lemma DeadStaysDeadOther<G(!new)>(s: State<G>, step: Step<G>, o: nat)
    requires Ranges(s) && Enabled(s, step) && !Alive(s, o) && !Cleaning(step) && !OnBody(step)
    ensures !Alive(Apply(s, step), o)
  {
    var t := Apply(s, step);
    forall i | 0 <= i < |t.invs| ensures o !in t.invs[i].held {
      if i < |s.invs| { assert o !in s.invs[i].held; }
    }
  }

  lemma CleaningKeepsInvs<G(!new)>(s: State<G>, step: Step<G>)
    requires Ranges(s) && Enabled(s, step) && Cleaning(step)
    ensures var t := Apply(s, step);
      && t.owned == s.owned && |t.invs| >= |s.invs|
      && (forall i :: 0 <= i < |s.invs| ==> t.invs[i].held == s.invs[i].held)
      && (forall i :: |s.invs| <= i < |t.invs| ==> t.invs[i].held == {})
  {
    match step
    case Connect(_, _, _, verdict) => ForceUniqueGrows(s, verdict);
    case Begin =>
    case Janitor(i) => ForceCleanupGrows(s, WalkedId(s, i));
  }

  /** Invocation `i` is looking at position `p`, and the body there is disconnected or about to be found expired. */
  ghost predicate Doomed<G(!new)>(s: State<G>, i: nat, p: nat) {
    && Ranges(s) && OnEntry(s, i) && s.invs[i].pos == p && s.invs[i].pc.Probing?
    && (!s.bodies[At(s, i)].core.connected ||
        exists k :: 0 <= k < |s.invs[i].pc.left| && !Alive(s, s.invs[i].pc.left[k].obj))
  }

  /**
   While invocation `i` holds the mutex, other steps touch neither its record, nor the lists and combiners, nor any
   connection, and block no slot; and nobody else gets the mutex.
   */
  lemma LockedFrame<G(!new)>(s: State<G>, step: Step<G>, i: nat)
    requires Ranges(s) && RecordsOk(s) && Enabled(s, step) && s.mutex == Some(i) && step != Grab(i)
    requires step != EndProbe(i)
    ensures var t := Apply(s, step);
      && i < |s.invs| && |t.invs| == |s.invs| && t.invs[i] == s.invs[i]
      && t.mutex == s.mutex && t.lists == s.lists && t.combs == s.combs && t.versions == s.versions
      && t.current == s.current && t.gc == s.gc && |t.bodies| == |s.bodies|
      && forall b :: 0 <= b < |s.bodies| ==>
           t.bodies[b].core == s.bodies[b].core && (t.bodies[b].blocked ==> s.bodies[b].blocked)
  {}

  /** A doomed probe stays doomed through the steps of others and its own, until its last step skips the slot. */
  lemma DoomedStep<G(!new)>(s: State<G>, step: Step<G>, i: nat, p: nat)
    requires Solid(s) && Enabled(s, step) && Doomed(s, i, p)
    ensures var t := Apply(s, step);
      i < |t.invs| && t.invs[i].ran == s.invs[i].ran && (Doomed(t, i, p) || t.invs[i].pos == p + 1)
  {
    hide Solid;
    FromSolid(s);
    if step == EndProbe(i) {
    } else if step == Grab(i) {
      DoomedGrab(s, i, p);
    } else {
      DoomedOther(s, step, i, p);
    }
  }

  lemma DoomedGrab<G(!new)>(s: State<G>, i: nat, p: nat)
    requires Ranges(s) && Enabled(s, Step<G>.Grab(i)) && Doomed(s, i, p)
    ensures Doomed(Apply(s, Grab(i)), i, p) && Apply(s, Grab(i)).invs[i].ran == s.invs[i].ran
  {
    var t, left := Apply(s, Grab(i)), s.invs[i].pc.left;
    ProbeStepSameList(s, Grab(i));
    if k :| 0 <= k < |left| && !Alive(s, left[k].obj) {
      DeadStaysDead(s, Grab(i), left[k].obj);
      if k > 0 { assert left[1..][k - 1] == left[k]; }
    }
  }

  lemma DoomedOther<G(!new)>(s: State<G>, step: Step<G>, i: nat, p: nat)
    requires Solid(s) && Enabled(s, step) && Doomed(s, i, p) && step != Grab(i) && step != EndProbe(i)
    ensures Doomed(Apply(s, step), i, p) && Apply(s, step).invs[i].ran == s.invs[i].ran
  {
    hide Solid, Apply;
    FromSolid(s);
    var t, left := Apply(s, step), s.invs[i].pc.left;
    LockedFrame(s, step, i);
    StepSolid(s, step);
    FromSolid(t);
    if k :| 0 <= k < |left| && !Alive(s, left[k].obj) {
      DeadStaysDead(s, step, left[k].obj);
    }
  }

  /** `v` is not further back than `u`, and has run at most the position `u` stands on since. */
  ghost predicate NotBack(u: Inv, v: Inv) {
    v.pos >= u.pos && (v.ran == u.ran || v.ran == u.ran + [u.pos])
  }

  /** An invocation never moves back, and runs only the position it stands on. */
  lemma PositionOnlyAdvances<G(!new)>(s: State<G>, step: Step<G>, i: nat)
    requires Ranges(s) && Enabled(s, step) && i < |s.invs|
    ensures i < |Apply(s, step).invs| && NotBack(s.invs[i], Apply(s, step).invs[i])
  {
    if Cleaning(step) {
      match step
      case Connect(_, _, _, verdict) => ForceUniqueGrows(s, verdict);
      case Begin =>
      case Janitor(j) => ForceCleanupGrows(s, WalkedId(s, j));
    } else if OnBody(step) { AdvancesOnBody(s, step, i); }
    else { AdvancesOther(s, step, i); }
  }

  lemma AdvancesOnBody<G(!new)>(s: State<G>, step: Step<G>, i: nat)
    requires Ranges(s) && Enabled(s, step) && i < |s.invs| && OnBody(step)
    ensures i < |Apply(s, step).invs| && NotBack(s.invs[i], Apply(s, step).invs[i])
  {}

  lemma AdvancesOther<G(!new)>(s: State<G>, step: Step<G>, i: nat)
    requires Ranges(s) && Enabled(s, step) && i < |s.invs| && !Cleaning(step) && !OnBody(step)
    ensures i < |Apply(s, step).invs| && NotBack(s.invs[i], Apply(s, step).invs[i])
  {
    if Moves(step) != Some(i) { OthersStay(s, step, i); }
    else if OnActive(step) { ActiveStepRecord(s, step); }
  }

  /**
   If an object a slot tracks has expired when the invocation has still to grab it, or the slot is
   disconnected meanwhile, that invocation never runs the slot: whatever else happens in the run.
   */
  lemma {:induction false} ExpiredIsNeverRun<G(!new)>(s: State<G>, steps: seq<Step<G>>, t: State<G>, i: nat, p: nat)
    requires Solid(s) && Runs(s, steps, t) && i < |s.invs|
    requires Doomed(s, i, p) || (s.invs[i].pos > p && p !in s.invs[i].ran)
    ensures i < |t.invs| && p !in t.invs[i].ran
    decreases |steps|
  {
    hide Solid, Apply, Enabled;
    FromSolid(s);
    assert RecordOk(s.invs[i]);
    if steps != [] {
      var u := Apply(s, steps[0]);
      StepSolid(s, steps[0]);
      PositionOnlyAdvances(s, steps[0], i);
      if Doomed(s, i, p) { DoomedStep(s, steps[0], i, p); }
      ExpiredIsNeverRun(u, steps[1..], t, i, p);
    }
  }

  // ---------------------------------------------------------------- reading the list

  /**
   An invocation begins with the signal's own list, after the clean-up of one entry; bodies born later are not in it.
   */
  lemma BeginTakesCurrentList<G(!new)>(s: State<G>)
    requires Solid(s) && Enabled(s, Step<G>.Begin)
    ensures var t := Apply(s, Begin); var i := |s.invs|;
      && Ranges(t) && Live(t, i) && InvRanges(t, t.invs[i]) && Walked(t, i) == CurList(t)
      && t.invs[i].born == |s.bodies|
      && (forall b :: 0 <= b < |s.bodies| && s.bodies[b].core.connected ==> b in Walked(t, i))
  {
    hide Solid, Apply, RefsOk, Sorted;
    FromSolid(s);
    StepSolid(s, Begin);
    FromSolid(Apply(s, Begin));
    BeginHolds(s);
    InRange(Apply(s, Begin), |s.invs|);
  }

  lemma BeginHolds<G(!new)>(s: State<G>)
    requires Ranges(s) && Enabled(s, Step<G>.Begin)
    ensures var t, i := Apply(s, Begin), |s.invs|;
      && |t.invs| == i + 1 && t.invs[i].pc == Scanning && t.invs[i].version == t.current
      && t.invs[i].born == |t.bodies| == |s.bodies|
      && forall b :: 0 <= b < |s.bodies| ==> t.bodies[b].core.connected == s.bodies[b].core.connected
  {
    if Unique(s) { SweepNobody(s, GcStart(s), 1); }
  }

  /**
   The bodies `disconnect(group)` visits are those of the list whose key is equivalent to the group, and no others.
   */
  lemma ReadRangeExact<G(!new)>(s: State<G>, g: G, b: nat)
    requires Solid(s) && b < |s.bodies|
    ensures Ranges(s)
    ensures b in ReadRange(s, Some(g)) <==> b in CurList(s) && Equivalent(s.lt, s.bodies[b].key, Grouped(g))
  {
    hide Solid;
    FromSolid(s);
    var xs := CurList(s);
    GroupSlice(s.lt, xs, KeysOf(s.bodies, xs), Grouped(g), b);
    if b in xs {
      var p := IndexOf(xs, b);
      assert KeysOf(s.bodies, xs)[p] == s.bodies[b].key;
    }
  }

  lemma GroupSlice<G(!new)>(lt: GroupCompare<G>, xs: seq<nat>, keys: seq<Key<G>>, k: Key<G>, b: nat)
    requires StrictWeak(lt) && Sorted(lt, keys) && |xs| == |keys| && NoDup(xs)
    ensures var lo, hi := LowerBound(lt, keys, k), UpperBound(lt, keys, k);
      lo <= hi && (b in xs[lo..hi] <==> b in xs && Equivalent(lt, keys[IndexOf(xs, b)], k))
  {
    var lo, hi := LowerBound(lt, keys, k), UpperBound(lt, keys, k);
    BoundsSeparate(lt, keys, k);
    if b in xs[lo..hi] {
      var q :| 0 <= q < hi - lo && xs[lo..hi][q] == b;
      IndexOfAt(xs, lo + q);
    }
    if b in xs && Equivalent(lt, keys[IndexOf(xs, b)], k) {
      assert xs[lo..hi][IndexOf(xs, b) - lo] == b;
    }
  }

  // ---------------------------------------------------------------- snapshot isolation

  /**
   Over any disciplined run, with any interleaving and nesting: the list a holder walks never changes
   while it is held, and every body it has run was connected before it began.
   */
  lemma SnapshotIsolation<G(!new)>(s: State<G>, steps: seq<Step<G>>, t: State<G>, i: nat)
    requires Invariant(s) && Runs(s, steps, t) && DisciplinedRun(s, steps) && Live(s, i)
    ensures Grows(s, t) && Ranges(s) && Ranges(t) && t.invs[i].version < |t.versions|
    ensures s.invs[i].version < |s.versions|
    ensures Live(t, i) ==> Walked(t, i) == Walked(s, i)
    ensures forall k :: 0 <= k < |t.invs[i].ran| ==>
      t.invs[i].ran[k] < |Walked(s, i)| && Walked(s, i)[t.invs[i].ran[k]] < s.invs[i].born
  {
    RunGrows(s, steps, t);
    RunKeepsInvariant(s, steps, t);
    AboutHolder(t, i);
    AboutHolder(s, i);
    assert SameHold(s.invs[i], t.invs[i]);
  }

  /** An active slot belongs to a list its invocation keeps. */
  lemma ActiveSlotIsKept<G(!new)>(s: State<G>, i: nat)
    requires Invariant(s) && i < |s.invs| && s.invs[i].active.Some?
    ensures var b := s.invs[i].active.value;
      && Ranges(s) && Live(s, i) && InvRanges(s, s.invs[i]) && b in Walked(s, i) && b < |s.bodies|
      && s.bodies[b].core.slot && s.bodies[b].core.refs != 0
  {
    AboutHolder(s, i);
    FromInvariant(s);
    ActiveSlotIsOwned(s, i);
  }

  /** A body that could be destroyed, being in no list that anyone keeps, owns no slot any more. */
  lemma UnlistedBodyHasNoSlot<G(!new)>(s: State<G>, b: nat)
    requires Invariant(s) && b < |s.bodies| && Ranges(s)
    requires b !in CurList(s) && forall i: nat :: Live(s, i) ==> InvRanges(s, s.invs[i]) && b !in Walked(s, i)
    ensures !s.bodies[b].core.slot && s.bodies[b].core.refs == 0
  {
    assert CoreOk(s, b);
    ActiveExists(s.invs, b);
    if i :| 0 <= i < |s.invs| && s.invs[i].active == Some(b) {
      ActiveSlotIsKept(s, i);
      assert false;
    }
  }

  // ---------------------------------------------------------------- after an invocation

  /**
   When an invocation has walked the whole list and that list is still the signal's, the janitor leaves
   a list without disconnected entries, or one at most twice as long as the number counted connected.
   */
  lemma PostInvocationBound<G(!new)>(s: State<G>, i: nat)
    requires Invariant(s) && Enabled(s, Step<G>.Janitor(i)) && Ranges(s) && s.invs[i].version < |s.versions|
    requires s.invs[i].pos == |s.invs[i].snapshot| && WalkedId(s, i) == CurId(s)
    ensures var t := Apply(s, Janitor(i));
      && Ranges(t)
      && ((forall b :: b in CurList(t) ==> b < |t.bodies| && t.bodies[b].core.connected)
          || |CurList(t)| <= 2 * s.invs[i].conn)
  {
    hide Invariant;
    AboutHolder(s, i);
    FromInvariant(s);
    JanitorKeeps(s, i);
    var t := Apply(s, Janitor(i));
    if s.invs[i].disc > s.invs[i].conn {
      CopyRanges(s);
      CleanAllLeavesConnected(if Unique(s) then s else CopyList(s), {});
    } else {
      assert CurList(t) == s.invs[i].snapshot;
    }
  }
}
