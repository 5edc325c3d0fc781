/**
 How often an invocation runs a slot. A result is cached only when the call returns, so a position whose call threw
 `expired_slot` runs again when it is dereferenced again. Apart from that each position runs once: its calls are
 those that threw, and at most one more. No hypothesis on the run is needed.
 */
module Calls {
  import opened Options
  import opened GroupKeys
  import opened Lists
  import opened BodyCores
  import opened Protocol
  import opened Steps
  import opened Invariants

  /** How often invocation `i` has had a call at position `p` throw in a run. */
  ghost function Throws<G(!new)>(s: State<G>, steps: seq<Step<G>>, i: nat, p: nat): nat
    decreases |steps|
  {
    if steps == [] || !Ranges(s) || !Enabled(s, steps[0]) then 0
    else ThrowNow(s, steps[0], i, p) + Throws(Apply(s, steps[0]), steps[1..], i, p)
  }

  function ThrowNow<G>(s: State<G>, step: Step<G>, i: nat, p: nat): nat {
    if step == Throw(i) && i < |s.invs| && s.invs[i].pos == p then 1 else 0
  }

  /** The last call of invocation `i` that ended, and how; `before` if none has in `steps`. */
  ghost function LastOutcome<G>(steps: seq<Step<G>>, i: nat, before: Option<Step<G>>): Option<Step<G>> {
    if steps == [] then before else LastOutcome(steps[1..], i, OutcomeNow(steps[0], i, before))
  }

  ghost function OutcomeNow<G>(step: Step<G>, i: nat, before: Option<Step<G>>): Option<Step<G>> {
    if step == Return(i) || step == Throw(i) then Some(step) else before
  }

  /** Is the call at `p` running? */
  function RunningAt(v: Inv, p: nat): nat { if v.pc == Running && v.pos == p then 1 else 0 }

  /** Has a call at `p` returned? */
  function ReturnedAt(v: Inv, p: nat): nat { if p in v.done then 1 else 0 }

  /** The combiner has let go of the iterator, perhaps in the middle of a call. */
  predicate Left(v: Inv) { v.pc.Leaving? || v.pc.Swept? || v.pc.Closed? || v.pc.Gone? }

  /** What is known when `n` calls at `p` have thrown, and `last` was the last to end. */
  ghost predicate CountsCalls<G>(v: Inv, i: nat, p: nat, n: nat, last: Option<Step<G>>) {
    var calls := multiset(v.ran)[p];
    && n + ReturnedAt(v, p) <= calls <= n + 1
    && (!Left(v) ==> calls == n + ReturnedAt(v, p) + RunningAt(v, p))
    && (v.pc == Ready(false) && v.pos in v.ran ==> last == Some(Throw(i)))
    && (v.pc == Ready(true) ==> last == Some(Return(i)))
  }

  ghost predicate CallsOk<G>(s: State<G>, i: nat, p: nat, n: nat, last: Option<Step<G>>) {
    if i < |s.invs| then CountsCalls(s.invs[i], i, p, n, last) else n == 0
  }

  lemma RanMore(ran: seq<nat>, q: nat, p: nat)
    ensures multiset(ran + [q])[p] == multiset(ran)[p] + if p == q then 1 else 0
  {}

  lemma CallCounts<G>(v: Inv, i: nat, p: nat, n: nat, last: Option<Step<G>>)
    requires RecordOk(v) && v.pc == Ready(false) && CountsCalls(v, i, p, n, last)
    ensures CountsCalls(v.(pc := Running, ran := v.ran + [v.pos]), i, p, n, last)
  {
    RanMore(v.ran, v.pos, p);
  }

  lemma ReturnCounts<G>(v: Inv, i: nat, p: nat, n: nat, last: Option<Step<G>>)
    requires RecordOk(v) && v.pc == Running && CountsCalls(v, i, p, n, last)
    ensures CountsCalls(v.(pc := Ready(true), done := v.done + [v.pos]), i, p, n, Some(Step<G>.Return(i)))
  {
    assert v.pos !in v.done;
    assert forall q :: q in v.done + [v.pos] <==> q in v.done || q == v.pos;
  }

  lemma ThrowCounts<G>(v: Inv, i: nat, p: nat, n: nat, last: Option<Step<G>>)
    requires RecordOk(v) && v.pc == Running && CountsCalls(v, i, p, n, last)
    ensures CountsCalls(v.(pc := Ready(false)), i, p, n + if v.pos == p then 1 else 0, Some(Step<G>.Throw(i)))
  {
    assert v.pos !in v.done;
  }

  /** A step that neither begins nor ends a call. */
  lemma QuietCounts<G>(v: Inv, w: Inv, i: nat, p: nat, n: nat, last: Option<Step<G>>)
    requires RecordOk(v) && CountsCalls(v, i, p, n, last) && w.ran == v.ran && w.done == v.done && (Left(v) ==> Left(w))
    requires w.pc.Running? || w.pc == Ready(true) ==> w.pc == v.pc && w.pos == v.pos
    requires w.pc == Ready(false) ==> w.pos == v.pos && (v.pc.Probing? || v.pc == w.pc)
    requires v.pc.Running? ==> w.pc.Running? || Left(w)
    ensures CountsCalls(w, i, p, n, last)
  {}

  lemma MovedCounts<G(!new)>(s: State<G>, step: Step<G>, i: nat, p: nat, n: nat, last: Option<Step<G>>)
    requires Ranges(s) && Enabled(s, step) && Moves(step) == Some(i) && i < |s.invs| && RecordOk(s.invs[i])
    requires CountsCalls(s.invs[i], i, p, n, last)
    ensures i < |Apply(s, step).invs|
    ensures CountsCalls(Apply(s, step).invs[i], i, p, n + ThrowNow(s, step, i, p), OutcomeNow(step, i, last))
  {
    hide RecordOk, CountsCalls, Ranges, Apply;
    var v := s.invs[i];
    if step.Call? || step.Return? || step.Throw? {
      CallRecords(s, step, i);
      if step.Call? { CallCounts(v, i, p, n, last); }
      else if step.Return? { ReturnCounts(v, i, p, n, last); }
      else { ThrowCounts(v, i, p, n, last); }
    } else {
      QuietRecord(s, step, i);
      QuietCounts(v, Apply(s, step).invs[i], i, p, n, last);
    }
  }

  lemma CallRecords<G(!new)>(s: State<G>, step: Step<G>, i: nat)
    requires Ranges(s) && Enabled(s, step) && (step == Call(i) || step == Return(i) || step == Throw(i))
    ensures i < |s.invs| && i < |Apply(s, step).invs|
    ensures var v, w := s.invs[i], Apply(s, step).invs[i];
      match step
      case Call(_) => v.pc == Ready(false) && w == v.(pc := Running, ran := v.ran + [v.pos])
      case Return(_) => v.pc == Running && w == v.(pc := Ready(true), done := v.done + [v.pos])
      case Throw(_) => v.pc == Running && w == v.(pc := Ready(false))
  {}

  lemma QuietRecord<G(!new)>(s: State<G>, step: Step<G>, i: nat)
    requires Ranges(s) && Enabled(s, step) && Moves(step) == Some(i) && i < |s.invs|
    requires !step.Call? && !step.Return? && !step.Throw?
    ensures i < |Apply(s, step).invs|
    ensures var v, w := s.invs[i], Apply(s, step).invs[i];
      && w.ran == v.ran && w.done == v.done && (Left(v) ==> Left(w))
      && (w.pc.Running? || w.pc == Ready(true) ==> w.pc == v.pc && w.pos == v.pos)
      && (w.pc == Ready(false) ==> w.pos == v.pos && (v.pc.Probing? || v.pc == w.pc))
      && (v.pc.Running? ==> w.pc.Running? || Left(w))
  {
    if OnActive(step) { ActiveStepRecord(s, step); }
    else if step.Janitor? { JanitorRecord(s, i); }
    else { QuietRecordOther(s, step, i); }
  }

  lemma JanitorRecord<G(!new)>(s: State<G>, i: nat)
    requires Ranges(s) && Enabled(s, Step<G>.Janitor(i))
    ensures i < |Apply(s, Janitor(i)).invs| && Apply(s, Janitor(i)).invs[i] == s.invs[i].(pc := Swept)
  {
    hide ForceCleanup;
    ForceCleanupGrows(s, WalkedId(s, i));
  }

  lemma QuietRecordOther<G(!new)>(s: State<G>, step: Step<G>, i: nat)
    requires Ranges(s) && Enabled(s, step) && Moves(step) == Some(i) && i < |s.invs|
    requires !step.Call? && !step.Return? && !step.Throw? && !OnActive(step) && !step.Janitor?
    ensures i < |Apply(s, step).invs|
    ensures var v, w := s.invs[i], Apply(s, step).invs[i];
      && w.ran == v.ran && w.done == v.done && (Left(v) ==> Left(w)) && !w.pc.Running? && !w.pc.Ready?
      && (v.pc.Running? ==> Left(w))
  {}

  lemma NewCounts<G(!new)>(s: State<G>, step: Step<G>, i: nat, p: nat, last: Option<Step<G>>)
    requires Ranges(s) && Enabled(s, step) && |s.invs| <= i < |Apply(s, step).invs|
    ensures CountsCalls(Apply(s, step).invs[i], i, p, 0, last)
  {
    match step
    case Begin =>
    case BeginRead(_) =>
    case _ => NoNewHolder(s, step);
  }

  lemma ActorExists<G(!new)>(s: State<G>, step: Step<G>, i: nat)
    requires Ranges(s) && Enabled(s, step) && Moves(step) == Some(i)
    ensures i < |s.invs|
  {}

  lemma StepCalls<G(!new)>(s: State<G>, step: Step<G>, i: nat, p: nat, n: nat, last: Option<Step<G>>)
    requires Solid(s) && Enabled(s, step) && CallsOk(s, i, p, n, last)
    ensures CallsOk(Apply(s, step), i, p, n + ThrowNow(s, step, i, p), OutcomeNow(step, i, last))
  {
    hide Solid, Apply, Enabled, CountsCalls, RecordOk;
    FromSolid(s);
    if Moves(step) == Some(i) {
      ActorExists(s, step, i);
      MovedCounts(s, step, i, p, n, last);
    } else if i < |s.invs| {
      OthersStay(s, step, i);
    } else if i < |Apply(s, step).invs| {
      NewCounts(s, step, i, p, OutcomeNow(step, i, last));
    }
  }

  lemma {:induction false} RunCalls<G(!new)>(s: State<G>, steps: seq<Step<G>>, t: State<G>, i: nat, p: nat, n: nat,
                                             last: Option<Step<G>>)
    requires Solid(s) && Runs(s, steps, t) && CallsOk(s, i, p, n, last)
    ensures CallsOk(t, i, p, n + Throws(s, steps, i, p), LastOutcome(steps, i, last))
    decreases |steps|
  {
    hide Solid, Apply, Enabled, CallsOk;
    if steps != [] {
      FromSolid(s);
      StepCalls(s, steps[0], i, p, n, last);
      StepSolid(s, steps[0]);
      RunCalls(Apply(s, steps[0]), steps[1..], t, i, p, n + ThrowNow(s, steps[0], i, p), OutcomeNow(steps[0], i, last));
    }
  }

  lemma FirstCalls<G(!new)>(lt: GroupCompare<G>, combiner: int, owned: set<nat>, steps: seq<Step<G>>, t: State<G>,
                            i: nat, p: nat)
    requires StrictWeak(lt) && Runs(Init(lt, combiner, owned), steps, t)
    ensures CallsOk(t, i, p, Throws(Init(lt, combiner, owned), steps, i, p), LastOutcome(steps, i, None))
  {
    hide Solid, Runs, Throws, LastOutcome, CountsCalls;
    InitSolid(lt, combiner, owned);
    RunCalls(Init(lt, combiner, owned), steps, t, i, p, 0, None);
  }

  /**
   In any run an invocation runs a position at most once more than its calls there threw. Until the combiner lets
   go, its calls there are exactly those that threw, the one that returned if one did, and the one running.
   */
  lemma CallsPerPosition<G(!new)>(lt: GroupCompare<G>, combiner: int, owned: set<nat>, steps: seq<Step<G>>, t: State<G>,
                                  i: nat, p: nat)
    requires StrictWeak(lt) && Runs(Init(lt, combiner, owned), steps, t) && i < |t.invs|
    ensures var v, n := t.invs[i], Throws(Init(lt, combiner, owned), steps, i, p);
      && multiset(v.ran)[p] <= n + 1
      && (p in v.done ==> multiset(v.ran)[p] == n + 1)
      && (!Left(v) ==> multiset(v.ran)[p] == n + ReturnedAt(v, p) + RunningAt(v, p))
  {
    FirstCalls(lt, combiner, owned, steps, t, i, p);
  }

  /** A position that has been run can be run again exactly when the last call there threw. */
  lemma RunAgainIff<G(!new)>(lt: GroupCompare<G>, combiner: int, owned: set<nat>, steps: seq<Step<G>>, t: State<G>,
                             i: nat)
    requires StrictWeak(lt) && Runs(Init(lt, combiner, owned), steps, t)
    requires i < |t.invs| && t.invs[i].pc.Ready? && t.invs[i].pos in t.invs[i].ran
    ensures Ranges(t) && (Enabled(t, Step<G>.Call(i)) <==> LastOutcome(steps, i, None) == Some(Step<G>.Throw(i)))
    ensures Enabled(t, Step<G>.Call(i)) <==> t.invs[i].pos !in t.invs[i].done
  {
    hide Solid, RecordOk, StrictWeak, Ranges;
    ReachableSolid(lt, combiner, owned, steps, t);
    FromSolid(t);
    FirstCalls(lt, combiner, owned, steps, t, i, t.invs[i].pos);
    ReadyRecord(t.invs[i]);
  }

  lemma ReadyRecord(v: Inv)
    requires RecordOk(v) && v.pc.Ready?
    ensures v.pc.cached <==> v.pos in v.done
  {}

  /** A position is not run again once a call there has returned. */
  lemma NoCallAfterReturn<G(!new)>(s: State<G>, i: nat)
    requires Solid(s) && Enabled(s, Step<G>.Call(i))
    ensures s.invs[i].pos !in s.invs[i].done
    ensures forall k, l :: 0 <= k < l < |s.invs[i].done| ==> s.invs[i].done[k] < s.invs[i].done[l]
  {
    assert RecordOk(s.invs[i]);
  }

  // ---------------------------------------------------------------- a slot that is run twice

  /** A signal with one slot, and the one invocation there is, if it has begun. */
  function OneSlot<G>(lt: GroupCompare<G>, core: Core, invs: seq<Inv>, mutex: Option<nat>): State<G> {
    State(lt, [Body(BackUngrouped, [], core, false)], [[0]], [0], [Version(0, 0)], 0, None, invs, {}, mutex)
  }

  function Walker(pc: Pc, active: Option<nat>, conn: nat, ran: seq<nat>): Inv {
    Inv(0, [0], 0, 1, pc, 0, active, {}, conn, 0, ran, [])
  }

  lemma FirstSlot<G(!new)>(lt: GroupCompare<G>)
    ensures var s, step := Init<G>(lt, 0, {}), Step<G>.Connect(BackUngrouped, AtBack, [], {});
      Ranges(s) && Enabled(s, step) && Apply(s, step) == OneSlot(lt, NEW_CORE, [], None)
  {
    var s := Init<G>(lt, 0, {});
    SweepNobody(s, 0, 2);
    assert CurList(s) == [] && SweepFrom(CurList(s), Dead(s.bodies), 0, 2) == ([], 0);
    assert InsertAt<nat>([], 0, 0) == [0];
  }

  lemma WalkBegins<G(!new)>(lt: GroupCompare<G>)
    ensures var s := OneSlot(lt, NEW_CORE, [], None);
      && Ranges(s) && Enabled(s, Step<G>.Begin)
      && Apply(s, Begin) == OneSlot(lt, NEW_CORE, [Walker(Scanning, None, 0, [])], None)
  {
    var s := OneSlot(lt, NEW_CORE, [], None);
    SweepNobody(s, 0, 1);
    assert CurList(s) == [0];
    assert SweepFrom([0], Dead(s.bodies), 0, 1) == SweepFrom([0], Dead(s.bodies), 1, 0) == ([0], 1);
  }

  /** The slot is locked, found connected and made active. */
  lemma SlotReady<G(!new)>(lt: GroupCompare<G>)
    ensures var s := OneSlot(lt, NEW_CORE, [Walker(Scanning, None, 0, [])], None);
      var t := OneSlot(lt, NEW_CORE, [Walker(Probing([]), None, 0, [])], Some(0));
      && Ranges(s) && Enabled(s, Step<G>.Lock(0)) && Apply(s, Lock(0)) == t
      && Ranges(t) && Enabled(t, Step<G>.EndProbe(0))
      && Apply(t, EndProbe(0)) == OneSlot(lt, Core(true, 2, true), [Walker(Ready(false), Some(0), 1, [])], None)
  {}

  /** It is run. */
  lemma RunOnce<G(!new)>(lt: GroupCompare<G>, core: Core, ran: seq<nat>)
    ensures var s := OneSlot(lt, core, [Walker(Ready(false), Some(0), 1, ran)], None);
      && Ranges(s) && Enabled(s, Step<G>.Call(0))
      && Apply(s, Call(0)) == OneSlot(lt, core, [Walker(Running, Some(0), 1, ran + [0])], None)
  {
    var s := OneSlot(lt, core, [Walker(Ready(false), Some(0), 1, ran)], None);
    assert Apply(s, Call(0)).invs == [s.invs[0].(pc := Running, ran := s.invs[0].ran + [s.invs[0].pos])];
  }

  /** It throws. */
  lemma ThrowOnce<G(!new)>(lt: GroupCompare<G>, ran: seq<nat>)
    ensures var s := OneSlot(lt, Core(true, 2, true), [Walker(Running, Some(0), 1, ran)], None);
      && Ranges(s) && Enabled(s, Step<G>.Throw(0))
      && Apply(s, Throw(0)) == OneSlot(lt, Core(false, 1, true), [Walker(Ready(false), Some(0), 1, ran)], None)
  {
    var s := OneSlot(lt, Core(true, 2, true), [Walker(Running, Some(0), 1, ran)], None);
    var t := Apply(s, Throw(0));
    assert t.invs == [s.invs[0].(pc := Ready(false))];
    assert t.bodies == [Body(BackUngrouped, [], Core(false, 1, true), false)];
  }

  /** A run from a new signal in which an invocation runs the same slot twice, the second time disconnected. */
  lemma RunsTwice<G(!new)>(lt: GroupCompare<G>)
    ensures var steps :=
        [Connect(BackUngrouped, AtBack, [], {}), Begin, Lock(0), EndProbe(0), Call(0), Throw(0), Call(0)];
      exists t: State<G> :: Runs(Init(lt, 0, {}), steps, t) && |t.invs| == 1 && t.invs[0].ran == [0, 0]
        && |t.bodies| == 1 && !t.bodies[0].core.connected
  {
    hide Apply, Enabled, Ranges;
    var s0 := Init<G>(lt, 0, {});
    FirstSlot(lt);
    WalkBegins(lt);
    SlotReady(lt);
    RunOnce(lt, Core(true, 2, true), []);
    assert [] + [0] == [0] && [0] + [0] == [0, 0];
    ThrowOnce(lt, [0]);
    RunOnce(lt, Core(false, 1, true), [0]);
    var connect: Step<G> := Connect(BackUngrouped, AtBack, [], {});
    var s1 := Apply(s0, connect);
    var s2 := Apply(s1, Begin);
    ThreeSteps(s0, connect, Begin, Lock(0));
    var s3 := Apply(s2, Lock(0));
    ThreeSteps(s3, EndProbe(0), Call(0), Throw(0));
    var s6 := Apply(Apply(Apply(s3, EndProbe(0)), Call(0)), Throw(0));
    RunsAppend(s0, [connect, Begin, Lock(0)], s3, [EndProbe(0), Call(0), Throw(0)], s6);
    RunsThen(s0, [connect, Begin, Lock(0)] + [EndProbe(0), Call(0), Throw(0)], s6, Call(0));
  }
}
