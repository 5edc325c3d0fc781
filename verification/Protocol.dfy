/**
 The signal as a state machine: any number of threads connect, disconnect, block, replace the combiner
 and invoke the signal, invocations nest and interleave, and other code drops tracked objects between
 any two steps. One step is one critical section on the signal mutex, except that the loop that grabs
 a slot's tracked objects is split into one step per object, because objects may expire during it.
 */
module Protocol {
  import opened Options
  import opened GroupKeys
  import opened Lists
  import opened BodyCores

  datatype Body<G> = Body(key: Key<G>, tracked: seq<Tracked>, core: Core, blocked: bool)

  /** `invocation_state`: two shared references. */
  datatype Version = Version(list: nat, comb: nat)

  /** Where a holder of an `invocation_state` stands. */
  datatype Pc =
    | Reading(todo: seq<nat>)          // disconnect(group), disconnect_all_slots: bodies still to visit
    | Scanning                         // iter is at `pos`, not looked at yet
    | Probing(left: seq<Tracked>)      // mutex held, tracked objects still to grab
    | Ready(cached: bool)              // iter is at a callable slot; is its result cached?
    | Running                          // the slot at `pos` executes, no lock held
    | AtEnd                            // iter == end
    | Leaving                          // the combiner returned or threw
    | Swept                            // the janitor has run
    | Closed                           // the cache is destroyed
    | Gone                             // the invocation_state reference is dropped

  /** A running invocation (or reader). `snapshot` and `combiner` record what it found when it began. */
  datatype Inv = Inv(
    version: nat, snapshot: seq<nat>, combiner: int, born: nat, pc: Pc, pos: nat, active: Option<nat>,
    held: set<nat>, conn: nat, disc: nat, ran: seq<nat>, done: seq<nat>)

  datatype State<!G> = State(
    lt: GroupCompare<G>, bodies: seq<Body<G>>, lists: seq<seq<nat>>, combs: seq<int>,
    versions: seq<Version>, current: nat, gc: Option<nat>, invs: seq<Inv>, owned: set<nat>,
    mutex: Option<nat>)

  datatype Step<G> =
    | Connect(key: Key<G>, position: Position, tracked: seq<Tracked>, verdict: set<nat>)
    | Disconnect(b: nat)
    | SetBlocked(b: nat, blocked: bool)
    | SetCombiner(c: int)
    | Begin
    | BeginRead(group: Option<G>)
    | ReadNext(i: nat)
    | Lock(i: nat)
    | Grab(i: nat)
    | EndProbe(i: nat)
    | ReachEnd(i: nat)
    | Call(i: nat)
    | Return(i: nat)
    | Throw(i: nat)
    | Advance(i: nat)
    | Leave(i: nat)
    | Janitor(i: nat)
    | DropCache(i: nat)
    | DropState(i: nat)
    | DropObject(o: nat)
    | AdoptObject(o: nat)

  // ---------------------------------------------------------------- reading a state

  function CurId<G>(s: State<G>): nat
    requires s.current < |s.versions|
  {
    s.versions[s.current].list
  }

  function CurList<G>(s: State<G>): seq<nat>
    requires s.current < |s.versions| && s.versions[s.current].list < |s.lists|
  {
    s.lists[CurId(s)]
  }

  /** `_shared_state.unique()`: nobody but the signal holds the current version. */
  ghost predicate Unique<G>(s: State<G>) {
    forall i :: 0 <= i < |s.invs| && s.invs[i].pc != Gone ==> s.invs[i].version != s.current
  }

  /** An object lives while other code owns it or an invocation holds it. */
  ghost predicate Alive<G>(s: State<G>, o: nat) {
    o in s.owned || exists i :: 0 <= i < |s.invs| && o in s.invs[i].held
  }

  ghost predicate Expired<G>(s: State<G>, b: nat)
    requires b < |s.bodies|
  {
    s.bodies[b].core.slot && exists k :: 0 <= k < |s.bodies[b].tracked| && !Alive(s, s.bodies[b].tracked[k].obj)
  }

  predicate Callable<G>(b: Body<G>) { MayBeCalled(b.core, b.blocked) }

  function KeysOf<G>(bodies: seq<Body<G>>, xs: seq<nat>): (r: seq<Key<G>>)
    requires forall i :: 0 <= i < |xs| ==> xs[i] < |bodies|
  {
    seq(|xs|, i requires 0 <= i < |xs| => bodies[xs[i]].key)
  }

  /** How many invocation caches have `b` as their active slot. */
  function ActiveCount(invs: seq<Inv>, b: nat): nat {
    if invs == [] then 0
    else ActiveCount(invs[..|invs| - 1], b) + (if invs[|invs| - 1].active == Some(b) then 1 else 0)
  }

  ghost predicate Ranges<G>(s: State<G>) {
    && s.current < |s.versions|
    && (forall v :: 0 <= v < |s.versions| ==> s.versions[v].list < |s.lists| && s.versions[v].comb < |s.combs|)
    && (forall l, k :: 0 <= l < |s.lists| && 0 <= k < |s.lists[l]| ==> s.lists[l][k] < |s.bodies|)
    && (forall i :: 0 <= i < |s.invs| ==> InvRanges(s, s.invs[i]))
  }

  ghost predicate InvRanges<G>(s: State<G>, v: Inv) {
    && v.version < |s.versions|
    && v.born <= |s.bodies|
    && (v.active.Some? ==> v.active.value < |s.bodies|)
    && (v.pc.Reading? ==> forall k :: 0 <= k < |v.pc.todo| ==> v.pc.todo[k] < |s.bodies|)
  }

  // ---------------------------------------------------------------- the parts of a step

  function WithCore<G>(bodies: seq<Body<G>>, b: nat, c: Core): (r: seq<Body<G>>)
    requires b < |bodies|
  {
    bodies[b := bodies[b].(core := c)]
  }

  /** Every body in `which` that still owns a slot is disconnected, as `disconnect_expired_slot` does on expiry. */
  function Expire<G>(bodies: seq<Body<G>>, which: set<nat>): (r: seq<Body<G>>)
    ensures |r| == |bodies|
  {
    seq(|bodies|, b requires 0 <= b < |bodies| =>
      if b in which && bodies[b].core.slot then bodies[b].(core := bodies[b].core.Disconnect()) else bodies[b])
  }

  function Dead<G>(bodies: seq<Body<G>>): set<nat> {
    set b: nat | b < |bodies| && !bodies[b].core.connected
  }

  /** `nolock_cleanup_connections_from` on the current list: `n` entries from `start`, in place. */
  ghost function SweepCur<G>(s: State<G>, verdict: set<nat>, start: nat, n: nat): State<G>
    requires Ranges(s) && start <= |CurList(s)|
  {
    var xs := CurList(s);
    var seen := set b | b in verdict && b in xs[start..Min(start + n, |xs|)];
    var bodies' := Expire(s.bodies, seen);
    var (ys, g) := SweepFrom(xs, Dead(bodies'), start, n);
    s.(bodies := bodies', lists := s.lists[CurId(s) := ys], gc := if g < |ys| then Some(ys[g]) else None)
  }

  /** `_garbage_collector_it` as a position: the begin of the list when it stands at the end. */
  function GcStart<G>(s: State<G>): nat
    requires s.current < |s.versions| && s.versions[s.current].list < |s.lists|
  {
    if s.gc.None? then 0 else IndexOf(CurList(s), s.gc.value)
  }

  /** `nolock_cleanup_connections`: a few entries from where the last clean-up stopped. */
  ghost function CleanFew<G>(s: State<G>, verdict: set<nat>, count: nat): State<G>
    requires Ranges(s)
  {
    SweepCur(s, verdict, GcStart(s), count)
  }

  ghost function CleanAll<G>(s: State<G>, verdict: set<nat>): State<G>
    requires Ranges(s)
  {
    SweepCur(s, verdict, 0, |CurList(s)|)
  }

  /** A new version with its own copy of the list and a shared combiner. */
  function CopyList<G>(s: State<G>): State<G>
    requires s.current < |s.versions| && s.versions[s.current].list < |s.lists|
  {
    s.(lists := s.lists + [CurList(s)],
       versions := s.versions + [Version(|s.lists|, s.versions[s.current].comb)],
       current := |s.versions|)
  }

  /** `nolock_force_unique_connection_list`. */
  ghost function ForceUnique<G>(s: State<G>, verdict: set<nat>): State<G>
    requires Ranges(s)
  {
    if Unique(s) then CleanFew(s, verdict, 2)
    else
      var c := CopyList(s);
      assert Ranges(c);
      CleanAll(c, verdict)
  }

  function InsertPos<G>(s: State<G>, key: Key<G>, position: Position): (r: nat)
    requires s.current < |s.versions| && s.versions[s.current].list < |s.lists|
    requires forall k :: 0 <= k < |CurList(s)| ==> CurList(s)[k] < |s.bodies|
    ensures r <= |CurList(s)|
  {
    var keys := KeysOf(s.bodies, CurList(s));
    if position == AtBack then UpperBound(s.lt, keys, key) else LowerBound(s.lt, keys, key)
  }

  function AddBody<G>(s: State<G>, key: Key<G>, position: Position, tracked: seq<Tracked>): State<G>
    requires s.current < |s.versions| && s.versions[s.current].list < |s.lists|
    requires forall k :: 0 <= k < |CurList(s)| ==> CurList(s)[k] < |s.bodies|
  {
    s.(bodies := s.bodies + [Body(key, tracked, NEW_CORE, false)],
       lists := s.lists[CurId(s) := InsertAt(CurList(s), InsertPos(s, key, position), |s.bodies|)])
  }

  /** `set_active_slot`: release the old active slot, then count the new one. */
  function SetActive<G>(s: State<G>, i: nat, a: Option<nat>): State<G>
    requires i < |s.invs|
    requires s.invs[i].active.Some? ==> s.invs[i].active.value < |s.bodies|
    requires a.Some? ==> a.value < |s.bodies|
  {
    var prev := s.invs[i].active;
    var released := if prev.Some? then WithCore(s.bodies, prev.value, s.bodies[prev.value].core.Dec()) else s.bodies;
    var counted := if a.Some? then WithCore(released, a.value, released[a.value].core.Inc()) else released;
    s.(bodies := counted, invs := s.invs[i := s.invs[i].(active := a)])
  }

  function DisconnectBody<G>(s: State<G>, b: nat): State<G>
    requires b < |s.bodies|
  {
    s.(bodies := WithCore(s.bodies, b, s.bodies[b].core.Disconnect()))
  }

  function SetPc<G>(s: State<G>, i: nat, pc: Pc): State<G>
    requires i < |s.invs|
  {
    s.(invs := s.invs[i := s.invs[i].(pc := pc)])
  }

  /** The bodies `disconnect(group)` visits: between the bounds of the group; without a group, all of them. */
  function ReadRange<G>(s: State<G>, group: Option<G>): (r: seq<nat>)
    requires s.current < |s.versions| && s.versions[s.current].list < |s.lists|
    requires forall k :: 0 <= k < |CurList(s)| ==> CurList(s)[k] < |s.bodies|
  {
    var xs := CurList(s);
    match group
    case None => xs
    case Some(g) =>
      var keys := KeysOf(s.bodies, xs);
      var lo, hi := LowerBound(s.lt, keys, Grouped(g)), UpperBound(s.lt, keys, Grouped(g));
      if lo <= hi then xs[lo..hi] else []
  }

  function NewInv<G>(s: State<G>, pc: Pc): Inv
    requires s.current < |s.versions| && s.versions[s.current].list < |s.lists|
    requires s.versions[s.current].comb < |s.combs|
  {
    Inv(s.current, CurList(s), s.combs[s.versions[s.current].comb], |s.bodies|, pc, 0, None, {}, 0, 0, [], [])
  }

  /** `force_cleanup_connections`, when the list walked is still the signal's list. */
  ghost function ForceCleanup<G>(s: State<G>, list: nat): State<G>
    requires Ranges(s)
  {
    if CurId(s) != list then s
    else
      var c := if Unique(s) then s else CopyList(s);
      assert Ranges(c);
      CleanAll(c, {})
  }

  // ---------------------------------------------------------------- the steps

  /** The list holder `i` walks: through its own version reference, whatever became of that list. */
  function WalkedId<G>(s: State<G>, i: nat): nat
    requires i < |s.invs| && s.invs[i].version < |s.versions|
  {
    s.versions[s.invs[i].version].list
  }

  function Walked<G>(s: State<G>, i: nat): seq<nat>
    requires i < |s.invs| && s.invs[i].version < |s.versions| && s.versions[s.invs[i].version].list < |s.lists|
  {
    s.lists[WalkedId(s, i)]
  }

  /**
   The iterator of `i` still stands on an entry of the list it walks. Outside, the source dereferences a dead iterator.
   */
  predicate OnEntry<G>(s: State<G>, i: nat)
  {
    && i < |s.invs| && s.invs[i].version < |s.versions| && s.versions[s.invs[i].version].list < |s.lists|
    && s.invs[i].pos < |Walked(s, i)|
  }

  /** The body under the iterator of invocation `i`. */
  function At<G>(s: State<G>, i: nat): nat
    requires OnEntry(s, i)
  {
    Walked(s, i)[s.invs[i].pos]
  }

  ghost predicate Enabled<G(!new)>(s: State<G>, step: Step<G>)
    requires Ranges(s)
  {
    match step
    case Connect(_, _, _, verdict) =>
      s.mutex.None? && forall b :: 0 <= b < |s.bodies| && Expired(s, b) ==> b in verdict
    case Disconnect(b) => s.mutex.None? && b < |s.bodies|
    case SetBlocked(b, blocked) => (blocked ==> s.mutex.None?) && b < |s.bodies|
    case SetCombiner(_) => s.mutex.None?
    case Begin => s.mutex.None?
    case BeginRead(_) => s.mutex.None?
    case ReadNext(i) => s.mutex.None? && i < |s.invs| && s.invs[i].pc.Reading?
    case Lock(i) => s.mutex.None? && OnEntry(s, i) && s.invs[i].pc.Scanning?
    case Grab(i) => OnEntry(s, i) && s.invs[i].pc.Probing? && s.invs[i].pc.left != []
    case EndProbe(i) => OnEntry(s, i) && s.invs[i].pc.Probing? && s.invs[i].pc.left == []
    case ReachEnd(i) =>
      s.mutex.None? && i < |s.invs| && s.invs[i].pc.Scanning? && s.invs[i].pos == |Walked(s, i)|
    case Call(i) => i < |s.invs| && s.invs[i].pc == Ready(false)
    case Return(i) => i < |s.invs| && s.invs[i].pc == Running
    case Throw(i) => s.mutex.None? && OnEntry(s, i) && s.invs[i].pc == Running
    case Advance(i) => i < |s.invs| && s.invs[i].pc.Ready?
    case Leave(i) => i < |s.invs| && (s.invs[i].pc.Ready? || s.invs[i].pc.Running? || s.invs[i].pc.AtEnd?)
    case Janitor(i) => s.mutex.None? && i < |s.invs| && s.invs[i].pc.Leaving?
    case DropCache(i) => s.mutex.None? && i < |s.invs| && s.invs[i].pc.Swept?
    case DropState(i) => i < |s.invs| && (s.invs[i].pc.Closed? || s.invs[i].pc == Reading([]))
    case DropObject(_) => true
    case AdoptObject(o) => Alive(s, o)
  }

  ghost function Apply<G(!new)>(s: State<G>, step: Step<G>): State<G>
    requires Ranges(s) && Enabled(s, step)
  {
    match step
    case Connect(key, position, tracked, verdict) =>
      var c := ForceUnique(s, verdict);
      ForceUniqueRanges(s, verdict);
      AddBody(c, key, position, tracked)
    case Disconnect(b) => DisconnectBody(s, b)
    case SetBlocked(b, blocked) => s.(bodies := s.bodies[b := s.bodies[b].(blocked := blocked)])
    case SetCombiner(c) =>
      if Unique(s) then s.(combs := s.combs[s.versions[s.current].comb := c])
      else s.(combs := s.combs + [c], versions := s.versions + [Version(CurId(s), |s.combs|)], current := |s.versions|)
    case Begin =>
      var c := if Unique(s) then CleanFew(s, {}, 1) else s;
      SweepRanges(s, {}, GcStart(s), 1);
      c.(invs := c.invs + [NewInv(c, Scanning)])
    case BeginRead(group) => s.(invs := s.invs + [NewInv(s, Reading(ReadRange(s, group)))])
    case ReadNext(i) =>
      var todo := s.invs[i].pc.todo;
      if todo == [] then s else SetPc(DisconnectBody(s, todo[0]), i, Reading(todo[1..]))
    case Lock(i) =>
      var b := s.bodies[At(s, i)];
      var pc := Probing(if b.core.slot then b.tracked else []);
      s.(mutex := Some(i), invs := s.invs[i := s.invs[i].(held := {}, pc := pc)])
    case Grab(i) =>
      var t := s.invs[i].pc.left[0];
      if !Alive(s, t.obj) then SetPc(DisconnectBody(s, At(s, i)), i, Probing([]))
      else s.(invs := s.invs[i := s.invs[i].(pc := Probing(s.invs[i].pc.left[1..]),
                                             held := s.invs[i].held + if t.trackable then {} else {t.obj})])
    case EndProbe(i) =>
      var v, b := s.invs[i], s.bodies[At(s, i)];
      var counted := if b.core.connected then v.(conn := v.conn + 1) else v.(disc := v.disc + 1);
      var c := s.(mutex := None, invs := s.invs[i := counted]);
      if Callable(b) then SetPc(SetActive(c, i, Some(At(s, i))), i, Ready(false))
      else c.(invs := c.invs[i := counted.(pos := v.pos + 1, pc := Scanning)])
    case ReachEnd(i) => SetPc(SetActive(s, i, None), i, AtEnd)
    case Call(i) => s.(invs := s.invs[i := s.invs[i].(pc := Running, ran := s.invs[i].ran + [s.invs[i].pos])])
    case Return(i) => s.(invs := s.invs[i := s.invs[i].(pc := Ready(true), done := s.invs[i].done + [s.invs[i].pos])])
    case Throw(i) => SetPc(DisconnectBody(s, At(s, i)), i, Ready(false))
    case Advance(i) => s.(invs := s.invs[i := s.invs[i].(pc := Scanning, pos := s.invs[i].pos + 1)])
    case Leave(i) => SetPc(s, i, Leaving)
    case Janitor(i) =>
      var v := s.invs[i];
      var c := if v.disc > v.conn then ForceCleanup(s, WalkedId(s, i)) else s;
      SetPc(c, i, Swept)
    case DropCache(i) =>
      var c := SetActive(s, i, None);
      c.(invs := c.invs[i := c.invs[i].(pc := Closed, held := {})])
    case DropState(i) => SetPc(s, i, Gone)
    case DropObject(o) => s.(owned := s.owned - {o})
    case AdoptObject(o) => s.(owned := s.owned + {o})
  }

  // ---------------------------------------------------------------- every reference stays in range

  lemma SweepRanges<G>(s: State<G>, verdict: set<nat>, start: nat, n: nat)
    requires Ranges(s) && start <= |CurList(s)|
    ensures Ranges(SweepCur(s, verdict, start, n))
  {
    var xs := CurList(s);
    var s' := SweepCur(s, verdict, start, n);
    SweepMembers(xs, Dead(s'.bodies), start, n);
    forall l, k | 0 <= l < |s'.lists| && 0 <= k < |s'.lists[l]| ensures s'.lists[l][k] < |s'.bodies| {
      if l == CurId(s) {
        assert s'.lists[l][k] in s'.lists[l];
        assert s'.lists[l][k] in xs;
      }
    }
    forall i | 0 <= i < |s'.invs| ensures InvRanges(s', s'.invs[i]) {
      assert InvRanges(s, s.invs[i]);
    }
  }

  lemma ForceUniqueRanges<G>(s: State<G>, verdict: set<nat>)
    requires Ranges(s)
    ensures Ranges(ForceUnique(s, verdict))
  {
    if Unique(s) {
      SweepRanges(s, verdict, GcStart(s), 2);
    } else {
      var c := CopyList(s);
      CopyRanges(s);
      SweepRanges(c, verdict, 0, |CurList(c)|);
    }
  }

  lemma AddBodyRanges<G>(s: State<G>, key: Key<G>, position: Position, tracked: seq<Tracked>)
    requires Ranges(s)
    ensures Ranges(AddBody(s, key, position, tracked))
  {
    var s' := AddBody(s, key, position, tracked);
    var ys := CurList(s');
    InsertMembers(CurList(s), InsertPos(s, key, position), |s.bodies|);
    forall i | 0 <= i < |s'.invs| ensures InvRanges(s', s'.invs[i]) { assert InvRanges(s, s.invs[i]); }
    forall l, k | 0 <= l < |s'.lists| && 0 <= k < |s'.lists[l]| ensures s'.lists[l][k] < |s'.bodies| {
      if l == CurId(s) { assert ys[k] in ys; }
    }
  }

  lemma CopyRanges<G>(s: State<G>)
    requires Ranges(s)
    ensures Ranges(CopyList(s))
  {
    var c := CopyList(s);
    forall i | 0 <= i < |c.invs| ensures InvRanges(c, c.invs[i]) {
      assert InvRanges(s, s.invs[i]);
    }
  }
}
