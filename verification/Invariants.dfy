/**
 What every step of every run keeps, with no hypothesis on the run: the lists and the stored iterator, the place
 of every connection, exact reference counts, the records of the invocations and the objects they hold. What
 invocations see of their lists is another matter, for which see Snapshots.
 */
module Invariants {
  import opened Options
  import opened GroupKeys
  import opened Lists
  import opened BodyCores
  import opened Protocol
  import opened Steps

  // ---------------------------------------------------------------- lists and counts

  ghost predicate ListsOk<G>(s: State<G>) { forall l :: 0 <= l < |s.lists| ==> NoDup(s.lists[l]) }

  /** Every connected body is in the current list, which is sorted; the stored iterator stands in it or at its end. */
  ghost predicate CurrentOk<G>(s: State<G>)
    requires Ranges(s)
  {
    && (forall b :: 0 <= b < |s.bodies| && s.bodies[b].core.connected ==> b in CurList(s))
    && Sorted(s.lt, KeysOf(s.bodies, CurList(s)))
    && (s.gc.Some? ==> s.gc.value in CurList(s))
  }

  /** The reference count: one for being connected, one for each invocation cache it is active in. */
  ghost predicate RefsOk<G>(s: State<G>) {
    forall b :: 0 <= b < |s.bodies| ==> CoreOk(s, b)
  }

  ghost predicate CoreOk<G>(s: State<G>, b: nat)
    requires b < |s.bodies|
  {
    var c := s.bodies[b].core;
    c.Valid() && c.refs == (if c.connected then 1 else 0) + ActiveCount(s.invs, b)
  }

  ghost predicate Consistent<G(!new)>(s: State<G>) {
    StrictWeak(s.lt) && Ranges(s) && ListsOk(s) && CurrentOk(s) && RefsOk(s)
  }

  // ---------------------------------------------------------------- records

  /** How many list positions invocation `v` has looked at, until it leaves. */
  function Probed(v: Inv): nat {
    if v.pc.Ready? || v.pc.Running? then v.pos + 1 else v.pos
  }

  /** What the record of an invocation says of itself: whatever became of the list it walks. */
  ghost predicate RecordOk(v: Inv) {
    && (v.active.Some? ==> !v.pc.Reading? && !v.pc.Closed? && !v.pc.Gone?)
    && (v.pc.Ready? || v.pc.Running? ==> v.active.Some?)
    && (v.pc.AtEnd? ==> v.active.None?)
    && (v.pc.Scanning? || v.pc.Probing? || v.pc.Ready? || v.pc.Running? || v.pc.AtEnd? ==> v.conn + v.disc == Probed(v))
    && (forall k :: 0 <= k < |v.ran| ==> v.ran[k] <= v.pos)
    && (forall k, l :: 0 <= k < l < |v.ran| ==> v.ran[k] <= v.ran[l])
    && (forall k :: 0 <= k < |v.done| ==> v.done[k] in v.ran)
    && (forall k, l :: 0 <= k < l < |v.done| ==> v.done[k] < v.done[l])
    && (v.pc.Scanning? || v.pc.Probing? || v.pc == Ready(false) || v.pc.Running?
        ==> forall k :: 0 <= k < |v.done| ==> v.done[k] < v.pos)
    && (v.pc.Scanning? || v.pc.Probing? ==> forall k :: 0 <= k < |v.ran| ==> v.ran[k] < v.pos)
    && (v.pc.Running? ==> v.pos in v.ran)
    && (v.pc == Ready(true) ==> v.pos in v.done)
    && (v.pc.Reading? || v.pc.Closed? || v.pc.Gone? ==> v.held == {})
  }

  /** Whoever probes a slot holds the mutex, and nobody else does. */
  ghost predicate RecordsOk<G>(s: State<G>) {
    && (forall i :: 0 <= i < |s.invs| ==> RecordOk(s.invs[i]))
    && (forall i :: 0 <= i < |s.invs| ==> (s.invs[i].pc.Probing? <==> s.mutex == Some(i)))
    && (s.mutex.Some? ==> s.mutex.value < |s.invs|)
  }

  /** Of the tracked objects of `ts` up to `n` exactly those that can be held are held by `v`, and nothing else is. */
  ghost predicate Holds(v: Inv, ts: seq<Tracked>, n: nat)
    requires n <= |ts|
  {
    HoldsOnly(v, ts, n) && forall k :: 0 <= k < n && !ts[k].trackable ==> ts[k].obj in v.held
  }

  ghost predicate HoldsOnly(v: Inv, ts: seq<Tracked>, n: nat)
    requires n <= |ts|
  {
    forall o :: o in v.held ==> exists k :: 0 <= k < n && !ts[k].trackable && ts[k].obj == o
  }

  ghost predicate HeldOk<G>(s: State<G>)
    requires Ranges(s)
  {
    forall i :: 0 <= i < |s.invs| ==> Holding(s, i)
  }

  /** The objects of a slot that is ready or running are held, and no others; of one being probed, those grabbed. */
  ghost predicate Holding<G>(s: State<G>, i: nat)
    requires Ranges(s) && i < |s.invs|
  {
    assert InvRanges(s, s.invs[i]);
    var v := s.invs[i];
    && ((v.pc.Ready? || v.pc.Running?) && v.active.Some? ==>
        var ts := s.bodies[v.active.value].tracked; Holds(v, ts, |ts|))
    && (v.pc.Probing? && OnEntry(s, i) ==>
        var ts := s.bodies[At(s, i)].tracked;
        && |v.pc.left| <= |ts| && v.pc.left == ts[|ts| - |v.pc.left|..] && HoldsOnly(v, ts, |ts|)
        && (s.bodies[At(s, i)].core.connected ==> Holds(v, ts, |ts| - |v.pc.left|)))
  }

  /** What holds in every state of every run. */
  ghost predicate Solid<G(!new)>(s: State<G>) {
    Consistent(s) && RecordsOk(s) && HeldOk(s)
  }

  lemma FromSolid<G(!new)>(s: State<G>)
    requires Solid(s)
    ensures Consistent(s) && StrictWeak(s.lt) && Ranges(s) && ListsOk(s) && CurrentOk(s) && RefsOk(s)
    ensures RecordsOk(s) && HeldOk(s)
  {}

  // ---------------------------------------------------------------- counting

  lemma {:induction false} ActiveUpdate(invs: seq<Inv>, i: nat, v: Inv, b: nat)
    requires i < |invs|
    ensures ActiveCount(invs[i := v], b) + (if invs[i].active == Some(b) then 1 else 0)
         == ActiveCount(invs, b) + (if v.active == Some(b) then 1 else 0)
  {
    var n := |invs| - 1;
    if i == n {
      assert invs[i := v][..n] == invs[..n];
    } else {
      ActiveUpdate(invs[..n], i, v, b);
      assert invs[i := v][..n] == invs[..n][i := v];
    }
  }

  lemma {:induction false} ActiveExists(invs: seq<Inv>, b: nat)
    ensures ActiveCount(invs, b) > 0 <==> exists i :: 0 <= i < |invs| && invs[i].active == Some(b)
  {
    if invs != [] {
      ActiveExists(invs[..|invs| - 1], b);
    }
  }

  lemma ActiveAppend(invs: seq<Inv>, v: Inv, b: nat)
    requires v.active.None?
    ensures ActiveCount(invs + [v], b) == ActiveCount(invs, b)
  {
    assert (invs + [v])[..|invs|] == invs;
  }

  // ---------------------------------------------------------------- the sweep

  /** What a clean-up leaves alone. */
  ghost predicate Trimmed<G(!new)>(s: State<G>, t: State<G>)
    requires Ranges(s) && Ranges(t)
  {
    && t.invs == s.invs && t.lt == s.lt && t.owned == s.owned && t.mutex == s.mutex && t.combs == s.combs
    && |t.bodies| == |s.bodies| && (forall b :: 0 <= b < |s.bodies| ==> Later(s.bodies[b], t.bodies[b]))
    && (forall x :: x in CurList(t) ==> x in CurList(s))
  }

  /** A clean-up in place: no connected body is lost, nothing is reconnected, no other list is touched. */
  lemma SweepKeeps<G(!new)>(s: State<G>, verdict: set<nat>, start: nat, n: nat)
    requires Consistent(s) && start <= |CurList(s)|
    ensures var t := SweepCur(s, verdict, start, n);
      && Consistent(t) && Trimmed(s, t) && t.versions == s.versions && t.current == s.current
      && |t.lists| == |s.lists| && (forall l :: 0 <= l < |s.lists| && l != CurId(s) ==> t.lists[l] == s.lists[l])
  {
    var t := SweepCur(s, verdict, start, n);
    var xs, dead := CurList(s), Dead(t.bodies);
    SweepRanges(s, verdict, start, n);
    SweepMembers(xs, dead, start, n);
    SplitMembers(xs, start, n);
    var at := SweepSubseq(xs, dead, start, n);
    var ys := CurList(t);
    assert SubseqBy(ys, xs, at);
    assert NoDup(ys);
    forall b | 0 <= b < |t.bodies| && t.bodies[b].core.connected ensures b in ys {
      assert s.bodies[b].core.connected;
      assert b !in dead;
    }
    assert forall k :: 0 <= k < |ys| ==> KeysOf(t.bodies, ys)[k] == KeysOf(s.bodies, xs)[at[k]];
    forall b | 0 <= b < |t.bodies| ensures CoreOk(t, b) { assert CoreOk(s, b); }
  }

  lemma SplitMembers<T>(xs: seq<T>, start: nat, n: nat)
    requires start <= |xs|
    ensures var e := Min(start + n, |xs|);
      forall x :: x in xs <==> x in xs[..start] || x in xs[start..e] || x in xs[e..]
  {
    var e := Min(start + n, |xs|);
    assert xs == xs[..start] + xs[start..e] + xs[e..];
  }

  /** A full clean-up leaves connected bodies only, and the stored iterator at the end. */
  lemma CleanAllLeavesConnected<G(!new)>(s: State<G>, verdict: set<nat>)
    requires Ranges(s)
    ensures var t := CleanAll(s, verdict);
      Ranges(t) && t.gc.None? && forall b :: b in CurList(t) ==> b < |t.bodies| && t.bodies[b].core.connected
  {
    var xs, t := CurList(s), CleanAll(s, verdict);
    SweepRanges(s, verdict, 0, |xs|);
    SweepShape(xs, Dead(t.bodies), 0, |xs|);
    SweepMembers(xs, Dead(t.bodies), 0, |xs|);
  }

  /** A copied list: the stored iterator still points into the old one, at the same body. */
  lemma CopyKeeps<G(!new)>(s: State<G>)
    requires Consistent(s)
    ensures var c := CopyList(s); Consistent(c) && Unique(c) && CurList(c) == CurList(s) && Trimmed(s, c)
  {
    var c := CopyList(s);
    CopyListFacts(s);
    forall b | 0 <= b < |c.bodies| ensures CoreOk(c, b) { assert CoreOk(s, b); }
  }

  lemma ForceUniqueKeeps<G(!new)>(s: State<G>, verdict: set<nat>)
    requires Consistent(s)
    ensures var t := ForceUnique(s, verdict); Consistent(t) && Trimmed(s, t) && Unique(t)
  {
    hide Consistent, Sorted;
    AboutConsistent(s);
    if Unique(s) {
      SweepKeeps(s, verdict, GcStart(s), 2);
    } else {
      CopyKeeps(s);
      AboutConsistent(CopyList(s));
      SweepKeeps(CopyList(s), verdict, 0, |CurList(s)|);
    }
  }

  lemma ForceCleanupKeeps<G(!new)>(s: State<G>, list: nat)
    requires Consistent(s)
    ensures var t := ForceCleanup(s, list); Consistent(t) && Trimmed(s, t)
  {
    hide Consistent, Sorted;
    AboutConsistent(s);
    if CurId(s) == list {
      if Unique(s) {
        SweepKeeps(s, {}, 0, |CurList(s)|);
      } else {
        CopyKeeps(s);
        AboutConsistent(CopyList(s));
        SweepKeeps(CopyList(s), {}, 0, |CurList(s)|);
      }
    }
  }

  lemma AboutConsistent<G(!new)>(s: State<G>)
    requires Consistent(s)
    ensures Ranges(s) && StrictWeak(s.lt)
  {}

  // ---------------------------------------------------------------- a new body

  /** The list after an insertion, and its keys. */
  lemma AddBodyList<G(!new)>(s: State<G>, key: Key<G>, position: Position, tracked: seq<Tracked>)
    requires Ranges(s) && ListsOk(s) && StrictWeak(s.lt) && Sorted(s.lt, KeysOf(s.bodies, CurList(s)))
    ensures var t := AddBody(s, key, position, tracked);
      && Ranges(t) && ListsOk(t) && Sorted(t.lt, KeysOf(t.bodies, CurList(t)))
      && (forall x :: x in CurList(t) <==> x == |s.bodies| || x in CurList(s))
  {
    hide StrictWeak, Sorted;
    var b, q := |s.bodies|, InsertPos(s, key, position);
    InsertMembers(CurList(s), q, b);
    InsertNoDup(CurList(s), q, b);
    AddBodyRanges(s, key, position, tracked);
    AddBodySorted(s, key, position, tracked);
  }

  lemma AddBodySorted<G(!new)>(s: State<G>, key: Key<G>, position: Position, tracked: seq<Tracked>)
    requires Ranges(s) && StrictWeak(s.lt) && Sorted(s.lt, KeysOf(s.bodies, CurList(s)))
    requires Ranges(AddBody(s, key, position, tracked))
    ensures var t := AddBody(s, key, position, tracked); Sorted(t.lt, KeysOf(t.bodies, CurList(t)))
  {
    hide StrictWeak, Sorted;
    var t, keys := AddBody(s, key, position, tracked), KeysOf(s.bodies, CurList(s));
    InsertSorted(s.lt, keys, key, position == AtFront);
    assert KeysOf(t.bodies, CurList(t)) == InsertAt(keys, InsertPos(s, key, position), key);
  }

  lemma AddBodyRefs<G(!new)>(s: State<G>, key: Key<G>, position: Position, tracked: seq<Tracked>)
    requires Ranges(s) && RefsOk(s)
    ensures RefsOk(AddBody(s, key, position, tracked))
  {
    var s' := AddBody(s, key, position, tracked);
    forall c | 0 <= c < |s'.bodies| ensures CoreOk(s', c) {
      if c < |s.bodies| { assert CoreOk(s, c); } else { FreshNotActive(s); }
    }
  }

  lemma FreshNotActive<G(!new)>(s: State<G>)
    requires Ranges(s)
    ensures ActiveCount(s.invs, |s.bodies|) == 0
  {
    ActiveExists(s.invs, |s.bodies|);
    forall i | 0 <= i < |s.invs| ensures s.invs[i].active != Some(|s.bodies|) { assert InvRanges(s, s.invs[i]); }
  }

  /** A new body in the current list. */
  lemma AddBodyKeeps<G(!new)>(s: State<G>, key: Key<G>, position: Position, tracked: seq<Tracked>)
    requires Consistent(s)
    ensures Consistent(AddBody(s, key, position, tracked))
  {
    AddBodyList(s, key, position, tracked);
    AddBodyRefs(s, key, position, tracked);
  }

  // ---------------------------------------------------------------- counts

  lemma RefsSame<G(!new)>(s: State<G>, s': State<G>, i: nat)
    requires RefsOk(s) && i < |s.invs| && s'.bodies == s.bodies
    requires |s'.invs| == |s.invs| && s'.invs == s.invs[i := s'.invs[i]]
    requires s'.invs[i].active == s.invs[i].active
    ensures RefsOk(s')
  {
    forall b | 0 <= b < |s'.bodies| ensures CoreOk(s', b) {
      assert CoreOk(s, b);
      ActiveUpdate(s.invs, i, s'.invs[i], b);
    }
  }

  /** `set_active_slot` to a connected body, or to none. The count it decrements is never zero. */
  lemma SetActiveRefs<G(!new)>(s: State<G>, i: nat, a: Option<nat>)
    requires Ranges(s) && RefsOk(s) && i < |s.invs|
    requires a.Some? ==> a.value < |s.bodies| && s.bodies[a.value].core.connected
    ensures InvRanges(s, s.invs[i])
    ensures s.invs[i].active.Some? ==> s.bodies[s.invs[i].active.value].core.refs != 0
    ensures RefsOk(SetActive(s, i, a))
  {
    assert InvRanges(s, s.invs[i]);
    var t := SetActive(s, i, a);
    ActiveExists(s.invs, if s.invs[i].active.Some? then s.invs[i].active.value else 0);
    if s.invs[i].active.Some? { assert CoreOk(s, s.invs[i].active.value); }
    forall b | 0 <= b < |t.bodies| ensures CoreOk(t, b) {
      assert CoreOk(s, b);
      ActiveUpdate(s.invs, i, t.invs[i], b);
    }
  }

  /** `disconnect`: the count it decrements is never zero. */
  lemma DisconnectRefs<G(!new)>(s: State<G>, b: nat)
    requires RefsOk(s) && b < |s.bodies|
    ensures s.bodies[b].core.connected ==> s.bodies[b].core.refs != 0
    ensures var t := DisconnectBody(s, b);
      && RefsOk(t) && |t.bodies| == |s.bodies| && !t.bodies[b].core.connected
      && (forall c :: 0 <= c < |s.bodies| ==> Later(s.bodies[c], t.bodies[c]))
      && (forall c :: 0 <= c < |s.bodies| && c != b ==> t.bodies[c] == s.bodies[c])
  {
    var t := DisconnectBody(s, b);
    assert CoreOk(s, b);
    forall c | 0 <= c < |t.bodies| ensures CoreOk(t, c) { assert CoreOk(s, c); }
  }

  // ---------------------------------------------------------------- every step keeps the counts

  lemma BodyStepRefs<G(!new)>(s: State<G>, step: Step<G>)
    requires Ranges(s) && RefsOk(s) && Enabled(s, step) && OnBody(step)
    ensures RefsOk(Apply(s, step))
  {
    var t := Apply(s, step);
    match step
    case Disconnect(b) => DisconnectRefs(s, b);
    case SetBlocked(_, _) => forall b | 0 <= b < |t.bodies| ensures CoreOk(t, b) { assert CoreOk(s, b); }
    case _ => RecordBodyRefs(s, step);
  }

  /** The steps of an invocation that disconnect a body. */
  lemma RecordBodyRefs<G(!new)>(s: State<G>, step: Step<G>)
    requires Ranges(s) && RefsOk(s) && Enabled(s, step) && (step.ReadNext? || step.Grab? || step.Throw?)
    ensures RefsOk(Apply(s, step))
  {
    hide RefsOk, DisconnectBody;
    var i, t := step.i, Apply(s, step);
    InRange(s, i);
    var b := if step.ReadNext? then (if s.invs[i].pc.todo == [] then None else Some(s.invs[i].pc.todo[0]))
             else if step.Grab? && Alive(s, s.invs[i].pc.left[0].obj) then None else Some(At(s, i));
    if b.Some? {
      DisconnectRefs(s, b.value);
      DisconnectInvs(s, b.value);
      RefsSame(DisconnectBody(s, b.value), t, i);
    } else {
      RefsSame(s, t, i);
    }
  }

  lemma DisconnectInvs<G(!new)>(s: State<G>, b: nat)
    requires b < |s.bodies|
    ensures DisconnectBody(s, b).invs == s.invs
  {}

  lemma ActiveStepRefs<G(!new)>(s: State<G>, step: Step<G>)
    requires Ranges(s) && RefsOk(s) && Enabled(s, step) && OnActive(step)
    ensures RefsOk(Apply(s, step))
  {
    hide RefsOk, SetActive;
    var i, t := step.i, Apply(s, step);
    InRange(s, i);
    var a := if step.EndProbe? then Some(At(s, i)) else None;
    if step.EndProbe? && !Callable(s.bodies[At(s, i)]) {
      RefsSame(s, t, i);
    } else {
      SetActiveRefs(s, i, a);
      ActiveStepBodies(s, step, a);
      RefsSame(SetActive(s, i, a), t, i);
    }
  }

  lemma ActiveStepBodies<G(!new)>(s: State<G>, step: Step<G>, a: Option<nat>)
    requires Ranges(s) && Enabled(s, step) && OnActive(step)
    requires step.EndProbe? ==> Callable(s.bodies[At(s, step.i)])
    requires a == if step.EndProbe? then Some(At(s, step.i)) else None
    ensures a.Some? ==> a.value < |s.bodies|
    ensures InvRanges(s, s.invs[step.i])
    ensures var t, c := Apply(s, step), SetActive(s, step.i, a);
      && t.bodies == c.bodies && |t.invs| == |c.invs| && c.invs == s.invs[step.i := c.invs[step.i]]
      && t.invs == c.invs[step.i := t.invs[step.i]] && t.invs[step.i].active == c.invs[step.i].active
  {
    InRange(s, step.i);
  }

  /** The other steps that clean nothing touch neither bodies nor active slots. */
  lemma RecordStepRefs<G(!new)>(s: State<G>, step: Step<G>)
    requires Ranges(s) && RefsOk(s) && Enabled(s, step) && !Cleaning(step) && !OnBody(step) && !OnActive(step)
    ensures RefsOk(Apply(s, step))
  {
    var t := Apply(s, step);
    if step.BeginRead? {
      NewHolderRefs(s, t);
    } else if step.Lock? || step.Call? || step.Return? || step.Advance? || step.Leave? || step.DropState? {
      RefsSame(s, t, step.i);
    } else {
      forall b | 0 <= b < |t.bodies| ensures CoreOk(t, b) { assert CoreOk(s, b); }
    }
  }

  lemma NewHolderRefs<G(!new)>(s: State<G>, t: State<G>)
    requires RefsOk(s) && t.bodies == s.bodies && |t.invs| == |s.invs| + 1 && t.invs[..|s.invs|] == s.invs
    requires t.invs[|s.invs|].active.None?
    ensures RefsOk(t)
  {
    forall b | 0 <= b < |t.bodies| ensures CoreOk(t, b) {
      assert CoreOk(s, b);
      assert t.invs == s.invs + [t.invs[|s.invs|]];
      ActiveAppend(s.invs, t.invs[|s.invs|], b);
    }
  }

  // ---------------------------------------------------------------- every step keeps the lists and the counts

  /** A step that cleans nothing, and keeps the counts. */
  lemma SameListKeeps<G(!new)>(s: State<G>, t: State<G>)
    requires Consistent(s) && SameList(s, t) && RefsOk(t)
    ensures Consistent(t)
  {
    hide RefsOk;
    assert KeysOf(t.bodies, CurList(t)) == KeysOf(s.bodies, CurList(s));
  }

  lemma BeginKeeps<G(!new)>(s: State<G>)
    requires Consistent(s) && Enabled(s, Step<G>.Begin)
    ensures Consistent(Apply(s, Begin))
    ensures forall b :: b in CurList(Apply(s, Begin)) ==> b in CurList(s)
  {
    hide RefsOk;
    var c, t := if Unique(s) then CleanFew(s, {}, 1) else s, Apply(s, Begin);
    if Unique(s) { SweepKeeps(s, {}, GcStart(s), 1); }
    HoldRanges(c, Scanning);
    NewHolderRefs(c, t);
    SameListKeeps(c, t);
  }

  lemma JanitorKeeps<G(!new)>(s: State<G>, i: nat)
    requires Consistent(s) && Enabled(s, Step<G>.Janitor(i))
    ensures Consistent(Apply(s, Janitor(i)))
    ensures forall b :: b in CurList(Apply(s, Janitor(i))) ==> b in CurList(s)
  {
    hide RefsOk, ForceCleanup;
    var c := if s.invs[i].disc > s.invs[i].conn then ForceCleanup(s, WalkedId(s, i)) else s;
    ForceCleanupKeeps(s, WalkedId(s, i));
    RecordRanges(c, i, Swept);
    RefsSame(c, SetPc(c, i, Swept), i);
    SameListKeeps(c, SetPc(c, i, Swept));
  }

  /**
   Lists and counts stay in order whatever the run does to combiners, and the current list gets no body it did
   not have, but for the one a connect makes.
   */
  lemma StepConsistent<G(!new)>(s: State<G>, step: Step<G>)
    requires Consistent(s) && Enabled(s, step)
    ensures Consistent(Apply(s, step))
    ensures forall b :: b in CurList(Apply(s, step)) ==> b in CurList(s) || (step.Connect? && b == |s.bodies|)
  {
    hide Consistent, Apply, Enabled, RefsOk;
    AboutConsistent(s);
    RefsOf(s);
    match step
    case Connect(_, _, _, _) => ConnectKeeps(s, step);
    case Begin => BeginKeeps(s);
    case Janitor(i) => JanitorKeeps(s, i);
    case _ =>
      StepSameList(s, step);
      if OnBody(step) { BodyStepRefs(s, step); }
      else if OnActive(step) { ActiveStepRefs(s, step); }
      else { RecordStepRefs(s, step); }
      SameListKeeps(s, Apply(s, step));
  }

  lemma RefsOf<G(!new)>(s: State<G>)
    requires Consistent(s)
    ensures RefsOk(s)
  {}

  lemma ConnectKeeps<G(!new)>(s: State<G>, step: Step<G>)
    requires Consistent(s) && Enabled(s, step) && step.Connect?
    ensures Consistent(Apply(s, step))
    ensures forall b :: b in CurList(Apply(s, step)) ==> b in CurList(s) || b == |s.bodies|
  {
    hide RefsOk;
    var c := ForceUnique(s, step.verdict);
    ForceUniqueKeeps(s, step.verdict);
    AddBodyKeeps(c, step.key, step.position, step.tracked);
    AddBodyList(c, step.key, step.position, step.tracked);
  }

  // ---------------------------------------------------------------- every step keeps the records

  /** The record of one invocation changes. */
  lemma RecordsMoved<G(!new)>(s: State<G>, t: State<G>, i: nat)
    requires RecordsOk(s) && i < |s.invs| && |t.invs| == |s.invs| && t.invs == s.invs[i := t.invs[i]]
    requires RecordOk(s.invs[i]) ==> RecordOk(t.invs[i])
    requires t.invs[i].pc.Probing? <==> t.mutex == Some(i)
    requires t.mutex == s.mutex || t.mutex == Some(i) || (s.mutex == Some(i) && t.mutex.None?)
    requires t.mutex == Some(i) ==> s.mutex.None? || s.mutex == Some(i)
    ensures RecordsOk(t)
  {
    hide RecordOk;
  }

  /** A holder is added. */
  lemma RecordsAdded<G(!new)>(s: State<G>, t: State<G>, v: Inv)
    requires RecordsOk(s) && t.invs == s.invs + [v] && t.mutex == s.mutex && RecordOk(v) && !v.pc.Probing?
    ensures RecordsOk(t)
  {
    hide RecordOk;
  }

  lemma CountRecord(v: Inv, connected: bool, commit: Option<nat>)
    requires RecordOk(v) && v.pc.Probing?
    ensures var w := if connected then v.(conn := v.conn + 1) else v.(disc := v.disc + 1);
      RecordOk(if commit.Some? then w.(active := commit, pc := Ready(false)) else w.(pos := v.pos + 1, pc := Scanning))
  {}

  lemma CallRecord(v: Inv)
    requires RecordOk(v) && v.pc == Ready(false)
    ensures RecordOk(v.(pc := Running, ran := v.ran + [v.pos]))
  {}

  lemma ReturnRecord(v: Inv)
    requires RecordOk(v) && v.pc == Running
    ensures RecordOk(v.(pc := Ready(true), done := v.done + [v.pos]))
  {
    var w := v.(pc := Ready(true), done := v.done + [v.pos]);
    assert w.done[|v.done|] == v.pos;
  }

  lemma AdvanceRecord(v: Inv)
    requires RecordOk(v) && v.pc.Ready?
    ensures RecordOk(v.(pc := Scanning, pos := v.pos + 1))
  {}

  lemma ExitRecord(v: Inv)
    requires RecordOk(v)
    ensures v.pc.Ready? || v.pc.Running? || v.pc.AtEnd? ==> RecordOk(v.(pc := Leaving))
    ensures v.pc.Leaving? ==> RecordOk(v.(pc := Swept))
    ensures v.pc.Closed? || v.pc == Reading([]) ==> RecordOk(v.(pc := Gone))
    ensures v.pc.Swept? ==> RecordOk(v.(active := None, held := {}, pc := Closed))
  {}

  lemma BodyStepRecords<G(!new)>(s: State<G>, step: Step<G>)
    requires Ranges(s) && RecordsOk(s) && Enabled(s, step) && OnBody(step)
    ensures RecordsOk(Apply(s, step))
  {
    hide RecordOk;
    if step.ReadNext? || step.Grab? || step.Throw? {
      BodyStepRecord(s, step);
      RecordsMoved(s, Apply(s, step), step.i);
    }
  }

  lemma BodyStepRecord<G(!new)>(s: State<G>, step: Step<G>)
    requires Ranges(s) && Enabled(s, step) && (step.ReadNext? || step.Grab? || step.Throw?)
    ensures step.i < |s.invs| == |Apply(s, step).invs|
    ensures RecordOk(s.invs[step.i]) ==> RecordOk(Apply(s, step).invs[step.i])
  {
    var v, w := s.invs[step.i], Apply(s, step).invs[step.i];
    assert w == v.(pc := w.pc, held := w.held);
  }

  lemma ActiveStepRecords<G(!new)>(s: State<G>, step: Step<G>)
    requires Ranges(s) && RecordsOk(s) && Enabled(s, step) && OnActive(step)
    ensures RecordsOk(Apply(s, step))
  {
    hide RecordOk;
    var i, t := step.i, Apply(s, step);
    InRange(s, i);
    var v := s.invs[i];
    ActiveStepShape(s, step);
    ActiveStepRecord(s, step);
    if step.EndProbe? {
      CountRecord(v, s.bodies[At(s, i)].core.connected, if Callable(s.bodies[At(s, i)]) then Some(At(s, i)) else None);
    } else if step.ReachEnd? {
      EndRecord(v);
    } else {
      ExitRecord(v);
    }
    RecordsMoved(s, t, i);
  }

  lemma EndRecord(v: Inv)
    requires RecordOk(v) && v.pc.Scanning?
    ensures RecordOk(v.(active := None, pc := AtEnd))
  {}

  /** The new record and the mutex. */
  lemma ActiveStepRecord<G(!new)>(s: State<G>, step: Step<G>)
    requires Ranges(s) && Enabled(s, step) && OnActive(step)
    ensures step.i < |s.invs| == |Apply(s, step).invs|
    ensures step.EndProbe? ==> OnEntry(s, step.i) && At(s, step.i) < |s.bodies|
    ensures var i, t := step.i, Apply(s, step); var v := s.invs[i];
      match step
      case EndProbe(_) =>
        var b := s.bodies[At(s, i)];
        var w := if b.core.connected then v.(conn := v.conn + 1) else v.(disc := v.disc + 1);
        && t.mutex.None?
        && t.invs[i] == if Callable(b) then w.(active := Some(At(s, i)), pc := Ready(false))
                        else w.(pos := v.pos + 1, pc := Scanning)
      case ReachEnd(_) => t.mutex == s.mutex && t.invs[i] == v.(active := None, pc := AtEnd)
      case DropCache(_) => t.mutex == s.mutex && t.invs[i] == v.(active := None, held := {}, pc := Closed)
  {
    InRange(s, step.i);
  }

  lemma RecordStepRecords<G(!new)>(s: State<G>, step: Step<G>)
    requires Ranges(s) && RecordsOk(s) && Enabled(s, step) && !Cleaning(step) && !OnBody(step) && !OnActive(step)
    ensures RecordsOk(Apply(s, step))
  {
    hide RecordOk;
    var t := Apply(s, step);
    match step
    case BeginRead(group) => NewRecord(s, Reading(ReadRange(s, group))); RecordsAdded(s, t, t.invs[|s.invs|]);
    case Lock(i) => LockRecord(s, i); RecordsMoved(s, t, i);
    case Call(i) => CallRecord(s.invs[i]); RecordsMoved(s, t, i);
    case Return(i) => ReturnRecord(s.invs[i]); RecordsMoved(s, t, i);
    case Advance(i) => AdvanceRecord(s.invs[i]); RecordsMoved(s, t, i);
    case Leave(i) => ExitRecord(s.invs[i]); RecordsMoved(s, t, i);
    case DropState(i) => ExitRecord(s.invs[i]); RecordsMoved(s, t, i);
    case _ =>
  }

  lemma NewRecord<G(!new)>(s: State<G>, pc: Pc)
    requires Ranges(s) && (pc.Scanning? || pc.Reading?)
    ensures RecordOk(NewInv(s, pc))
  {}

  lemma LockRecord<G(!new)>(s: State<G>, i: nat)
    requires Ranges(s) && Enabled(s, Step<G>.Lock(i)) && RecordOk(s.invs[i])
    ensures RecordOk(Apply(s, Lock(i)).invs[i])
  {}

  lemma CleaningRecords<G(!new)>(s: State<G>, step: Step<G>)
    requires Consistent(s) && RecordsOk(s) && Enabled(s, step) && Cleaning(step)
    ensures RecordsOk(Apply(s, step))
  {
    hide RecordOk, ForceUnique, ForceCleanup;
    var t := Apply(s, step);
    match step
    case Connect(_, _, _, verdict) => ForceUniqueKeeps(s, verdict);
    case Begin =>
      if Unique(s) { SweepKeeps(s, {}, GcStart(s), 1); NewRecord(CleanFew(s, {}, 1), Scanning); }
      else { NewRecord(s, Scanning); }
      RecordsAdded(s, t, t.invs[|s.invs|]);
    case Janitor(i) =>
      ForceCleanupKeeps(s, WalkedId(s, i));
      ExitRecord(s.invs[i]);
      RecordsMoved(s, t, i);
  }

  // ---------------------------------------------------------------- every step keeps what is held

  /** A record that stays, over lists that stay. */
  lemma HoldingLater<G(!new)>(s: State<G>, t: State<G>, j: nat)
    requires Ranges(s) && Ranges(t) && j < |s.invs| && j < |t.invs| && t.invs[j] == s.invs[j] && Holding(s, j)
    requires |t.bodies| >= |s.bodies| && (forall b :: 0 <= b < |s.bodies| ==> Later(s.bodies[b], t.bodies[b]))
    requires s.invs[j].pc.Probing? ==>
      && t.lists == s.lists && |t.versions| >= |s.versions|
      && forall v :: 0 <= v < |s.versions| ==> t.versions[v] == s.versions[v]
    ensures Holding(t, j)
  {
    InRange(s, j);
  }

  lemma VersionsStay<G(!new)>(s: State<G>, step: Step<G>)
    requires Ranges(s) && Enabled(s, step) && !Cleaning(step)
    ensures var t := Apply(s, step);
      |t.versions| >= |s.versions| && forall v :: 0 <= v < |s.versions| ==> t.versions[v] == s.versions[v]
  {}

  /** The holder a step moves. */
  ghost function Moves<G>(step: Step<G>): Option<nat> {
    match step
    case ReadNext(i) => Some(i)
    case Lock(i) => Some(i)
    case Grab(i) => Some(i)
    case EndProbe(i) => Some(i)
    case ReachEnd(i) => Some(i)
    case Call(i) => Some(i)
    case Return(i) => Some(i)
    case Throw(i) => Some(i)
    case Advance(i) => Some(i)
    case Leave(i) => Some(i)
    case Janitor(i) => Some(i)
    case DropCache(i) => Some(i)
    case DropState(i) => Some(i)
    case _ => None
  }

  lemma OthersStay<G(!new)>(s: State<G>, step: Step<G>, j: nat)
    requires Ranges(s) && Enabled(s, step) && j < |s.invs| && Moves(step) != Some(j)
    ensures j < |Apply(s, step).invs| && Apply(s, step).invs[j] == s.invs[j]
  {
    if Cleaning(step) {
      match step
      case Connect(_, _, _, verdict) => ForceUniqueGrows(s, verdict);
      case Begin =>
      case Janitor(i) => ForceCleanupGrows(s, WalkedId(s, i));
    } else if OnActive(step) { ActiveStepShape(s, step); }
    else { OthersStayMoving(s, step, j); }
  }

  lemma OthersStayMoving<G(!new)>(s: State<G>, step: Step<G>, j: nat)
    requires Ranges(s) && Enabled(s, step) && j < |s.invs| && Moves(step) != Some(j) && !Cleaning(step)
    requires !OnActive(step)
    ensures j < |Apply(s, step).invs| && Apply(s, step).invs[j] == s.invs[j]
  {}

  lemma NobodyProbes<G(!new)>(s: State<G>, step: Step<G>)
    requires Ranges(s) && RecordsOk(s) && Enabled(s, step) && Cleaning(step)
    ensures forall j :: 0 <= j < |s.invs| ==> !s.invs[j].pc.Probing?
  {}

  /** The record the step moves, in the steps that grab objects or commit a slot. */
  lemma LockHolding<G(!new)>(s: State<G>, i: nat)
    requires Ranges(s) && RefsOk(s) && Enabled(s, Step<G>.Lock(i)) && Ranges(Apply(s, Lock(i)))
    ensures i < |Apply(s, Lock(i)).invs| && Holding(Apply(s, Lock(i)), i)
  {
    InRange(s, i);
    assert CoreOk(s, At(s, i));
  }

  lemma GrabHolding<G(!new)>(s: State<G>, i: nat)
    requires Ranges(s) && HeldOk(s) && Enabled(s, Step<G>.Grab(i)) && Ranges(Apply(s, Grab(i)))
    ensures i < |Apply(s, Grab(i)).invs| && Holding(Apply(s, Grab(i)), i)
  {
    InRange(s, i);
    assert Holding(s, i);
    var t, b := Apply(s, Grab(i)), At(s, i);
    assert OnEntry(t, i) && At(t, i) == b;
    if Alive(s, s.invs[i].pc.left[0].obj) {
      var ts, left := s.bodies[b].tracked, s.invs[i].pc.left;
      assert left[1..] == ts[|ts| - |left| + 1..] && left[0] == ts[|ts| - |left|];
    }
  }

  lemma CommitHolding<G(!new)>(s: State<G>, i: nat)
    requires Ranges(s) && HeldOk(s) && Enabled(s, Step<G>.EndProbe(i)) && Ranges(Apply(s, EndProbe(i)))
    ensures i < |Apply(s, EndProbe(i)).invs| && Holding(Apply(s, EndProbe(i)), i)
  {
    InRange(s, i);
    assert Holding(s, i);
    ProbedGrows(s, i);
    ActiveStepRecord(s, EndProbe(i));
  }

  lemma MovedHolding<G(!new)>(s: State<G>, step: Step<G>, i: nat)
    requires Ranges(s) && HeldOk(s) && RefsOk(s) && Enabled(s, step) && Ranges(Apply(s, step)) && Moves(step) == Some(i)
    ensures i < |s.invs| && i < |Apply(s, step).invs| && Holding(Apply(s, step), i)
  {
    hide RefsOk, Holding, Apply;
    match step
    case Lock(_) => LockHolding(s, i);
    case Grab(_) => GrabHolding(s, i);
    case EndProbe(_) => CommitHolding(s, i);
    case ReachEnd(_) => ReleaseHolding(s, step, i);
    case DropCache(_) => ReleaseHolding(s, step, i);
    case Janitor(_) => JanitorHolding(s, i);
    case _ => OtherHolding(s, step, i);
  }

  lemma ReleaseHolding<G(!new)>(s: State<G>, step: Step<G>, i: nat)
    requires Ranges(s) && Enabled(s, step) && Ranges(Apply(s, step)) && (step == ReachEnd(i) || step == DropCache(i))
    ensures i < |Apply(s, step).invs| && Holding(Apply(s, step), i)
  {
    ActiveStepRecord(s, step);
  }

  lemma JanitorHolding<G(!new)>(s: State<G>, i: nat)
    requires Ranges(s) && Enabled(s, Step<G>.Janitor(i)) && Ranges(Apply(s, Janitor(i)))
    ensures i < |Apply(s, Janitor(i)).invs| && Holding(Apply(s, Janitor(i)), i)
  {
    hide ForceCleanup;
    ForceCleanupGrows(s, WalkedId(s, i));
  }

  lemma OtherHolding<G(!new)>(s: State<G>, step: Step<G>, i: nat)
    requires Ranges(s) && HeldOk(s) && Enabled(s, step) && Ranges(Apply(s, step)) && Moves(step) == Some(i)
    requires !Cleaning(step) && !OnActive(step) && !step.Lock? && !step.Grab?
    ensures i < |s.invs| && i < |Apply(s, step).invs| && Holding(Apply(s, step), i)
  {
    assert Holding(s, i);
    InRange(s, i);
  }

  /** The steps that make a new record make one that holds nothing. */
  lemma NewHolding<G(!new)>(s: State<G>, step: Step<G>, i: nat)
    requires Ranges(s) && Enabled(s, step) && Ranges(Apply(s, step)) && |s.invs| <= i < |Apply(s, step).invs|
    ensures Holding(Apply(s, step), i)
  {
    match step
    case Begin =>
    case BeginRead(_) =>
    case _ => NoNewHolder(s, step);
  }

  lemma NoNewHolder<G(!new)>(s: State<G>, step: Step<G>)
    requires Ranges(s) && Enabled(s, step) && !step.Begin? && !step.BeginRead?
    ensures |Apply(s, step).invs| == |s.invs|
  {
    if step.Connect? { ForceUniqueGrows(s, step.verdict); }
    else if step.Janitor? { ForceCleanupGrows(s, WalkedId(s, step.i)); }
    else { NoHolderMade(s, step); }
  }

  lemma NoHolderMade<G(!new)>(s: State<G>, step: Step<G>)
    requires Ranges(s) && Enabled(s, step) && !Cleaning(step) && !step.BeginRead?
    ensures |Apply(s, step).invs| == |s.invs|
  {}

  lemma StepHeld<G(!new)>(s: State<G>, step: Step<G>)
    requires Ranges(s) && RecordsOk(s) && HeldOk(s) && RefsOk(s) && Enabled(s, step) && Ranges(Apply(s, step))
    ensures HeldOk(Apply(s, step))
  {
    hide Apply, Enabled, Holding, RefsOk, RecordOk;
    var t := Apply(s, step);
    StepGrows(s, step);
    if Cleaning(step) { NobodyProbes(s, step); } else { VersionsStay(s, step); StepSameList(s, step); }
    forall j | 0 <= j < |t.invs| ensures Holding(t, j) {
      if j >= |s.invs| { NewHolding(s, step, j); }
      else if Moves(step) == Some(j) { MovedHolding(s, step, j); }
      else { OthersStay(s, step, j); HoldingLater(s, t, j); }
    }
  }

  // ---------------------------------------------------------------- every step of every run

  /** Every enabled step keeps all of it. */
  lemma StepSolid<G(!new)>(s: State<G>, step: Step<G>)
    requires Solid(s) && Enabled(s, step)
    ensures Solid(Apply(s, step))
  {
    hide Apply, Enabled, Consistent, RecordsOk, HeldOk, RefsOk;
    AboutConsistent(s);
    RefsOf(s);
    StepConsistent(s, step);
    AboutConsistent(Apply(s, step));
    if Cleaning(step) { CleaningRecords(s, step); }
    else if OnBody(step) { BodyStepRecords(s, step); }
    else if OnActive(step) { ActiveStepRecords(s, step); }
    else { RecordStepRecords(s, step); }
    StepHeld(s, step);
  }

  lemma {:induction false} RunSolid<G(!new)>(s: State<G>, steps: seq<Step<G>>, t: State<G>)
    requires Solid(s) && Runs(s, steps, t)
    ensures Solid(t)
    decreases |steps|
  {
    hide Solid, Apply, Enabled;
    if steps != [] {
      StepSolid(s, steps[0]);
      RunSolid(Apply(s, steps[0]), steps[1..], t);
    }
  }

  lemma InitSolid<G(!new)>(lt: GroupCompare<G>, combiner: int, owned: set<nat>)
    requires StrictWeak(lt)
    ensures Solid(Init(lt, combiner, owned))
  {}

  /** Every state a new signal can reach is solid, whatever is done in whatever order. */
  lemma ReachableSolid<G(!new)>(lt: GroupCompare<G>, combiner: int, owned: set<nat>, steps: seq<Step<G>>, t: State<G>)
    requires StrictWeak(lt) && Runs(Init(lt, combiner, owned), steps, t)
    ensures Solid(t)
  {
    hide Solid, Runs;
    InitSolid(lt, combiner, owned);
    RunSolid(Init(lt, combiner, owned), steps, t);
  }
}
