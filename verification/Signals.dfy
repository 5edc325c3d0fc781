/**
 `signal_impl` as an object: the shared state with its slot list, the stored clean-up iterator, and the
 methods that change them. Each is proved against the functions on sequences that the state machine of
 Protocol is made of.
 */
module Signals {
  import opened Options
  import opened GroupKeys
  import opened BodyCores
  import opened Lists
  import opened GroupIndexes
  import opened GroupedLists
  import opened Connections

  class CombinerCell {
    var combiner: int

    constructor (combiner: int)
      ensures this.combiner == combiner
    {
      this.combiner := combiner;
    }
  }

  class InvocationState<G(!new)> {
    const connectionBodies: GroupedList<G, ConnectionBody<G>>
    const cell: CombinerCell
    /** How many shared pointers to this state there are. */
    var uses: nat

    constructor (connectionBodies: GroupedList<G, ConnectionBody<G>>, cell: CombinerCell)
      ensures this.connectionBodies == connectionBodies && this.cell == cell && uses == 1
    {
      this.connectionBodies, this.cell, uses := connectionBodies, cell, 1;
    }
  }

  // ---------------------------------------------------------------- bodies

  ghost function BodySet<G>(xs: seq<ConnectionBody<G>>): set<ConnectionBody<G>> { set b | b in xs }

  ghost function SlotSet<G>(xs: seq<ConnectionBody<G>>): set<Slot>
    reads BodySet(xs)
  {
    set b | b in xs && b.slot != null :: b.slot
  }

  /** Different bodies of one signal, each in order. */
  ghost predicate BodiesOk<G>(xs: seq<ConnectionBody<G>>, mutex: Mutex)
    reads BodySet(xs), SlotSet(xs)
  {
    NoDup(xs) && forall b :: b in xs ==> b.Valid() && b.mutex == mutex
  }

  ghost function DeadIn<G>(xs: seq<ConnectionBody<G>>): set<ConnectionBody<G>>
    reads BodySet(xs)
  {
    set b | b in xs && !b.connected
  }

  ghost function GroupKeysOf<G>(xs: seq<ConnectionBody<G>>): (r: seq<Key<G>>)
    reads BodySet(xs)
    ensures |r| == |xs|
  {
    seq(|xs|, i requires 0 <= i < |xs| reads BodySet(xs) => xs[i].groupKey)
  }

  /** A body's counted part and its slot, to be compared with later. */
  datatype Look = Look(core: Core, slot: Slot?)

  ghost function LookAt<G>(b: ConnectionBody<G>): Look
    reads b
  {
    Look(b.GetCore(), b.slot)
  }

  ghost function Looks<G>(xs: seq<ConnectionBody<G>>): (r: seq<Look>)
    reads BodySet(xs)
    ensures |r| == |xs|
  {
    seq(|xs|, i requires 0 <= i < |xs| reads BodySet(xs) => LookAt(xs[i]))
  }

  /**
   A body looked at for expired objects is as it was, or disconnected: the latter if one of its objects had expired
   before, and only if one has expired since. `owned` are the objects alive before, `left` those alive now.
   */
  ghost predicate Expiry(now: Look, was: Look, owned: set<nat>, left: set<nat>) {
    && (now.core == was.core || now.core == was.core.Disconnect()) && (now.slot == was.slot || now.slot == null)
    && (was.slot != null && AnyExpired(was.slot.tracked, owned) ==> !now.core.connected)
    && (now != was ==> was.slot != null && AnyExpired(was.slot.tracked, left))
  }

  /**
   Of a list being cleaned, the bodies from `start` to `end` were looked at for expired objects, the others not
   touched.
   */
  ghost predicate Cleaned(now: seq<Look>, was: seq<Look>, start: nat, end: nat, owned: set<nat>, left: set<nat>) {
    |now| == |was| && forall k :: 0 <= k < |was| ==>
      if start <= k < end then Expiry(now[k], was[k], owned, left) else now[k] == was[k]
  }

  /** The slot a body had and has no more. */
  ghost function Given(was: Look, now: Look): set<Slot> {
    if was.slot != null && now.slot == null then {was.slot} else {}
  }

  /** The slots the bodies of a list have given up. */
  ghost function GivenUp(was: seq<Look>, now: seq<Look>): set<Slot>
    requires |was| == |now|
  {
    set k | 0 <= k < |was| && was[k].slot != null && now[k].slot == null :: was[k].slot
  }

  ghost function Garbage(lock: GarbageCollectingLock): set<Slot>
    reads lock
  {
    set s | s in lock.garbage
  }

  /** Outside the critical sections the slots destroyed are those their bodies have given up. */
  ghost predicate SlotsSettled<G>(xs: seq<ConnectionBody<G>>, was: seq<Look>)
    requires |was| == |xs|
    reads BodySet(xs), set k | 0 <= k < |was| && was[k].slot != null :: was[k].slot
  {
    forall k :: 0 <= k < |was| && was[k].slot != null ==> (was[k].slot.destroyed <==> xs[k].slot == null)
  }

  /** A body that was disconnected or left alone since it was looked at; its slot is destroyed exactly if given up. */
  ghost predicate DisconnectedAt<G>(b: ConnectionBody<G>, was: Look, hit: bool)
    reads b, was.slot
  {
    && b.GetCore() == (if hit then was.core.Disconnect() else was.core) && (b.slot == null || b.slot == was.slot)
    && (was.slot != null ==> was.slot.owner == b && (was.slot.destroyed <==> b.slot == null))
  }

  /** Exactly the bodies from `lo` to `hi` have been disconnected. */
  ghost predicate Disconnected<G>(xs: seq<ConnectionBody<G>>, was: seq<Look>, lo: nat, hi: nat)
    reads BodySet(xs), set k | 0 <= k < |was| && was[k].slot != null :: was[k].slot
  {
    |was| == |xs| && forall k :: 0 <= k < |xs| ==> DisconnectedAt(xs[k], was[k], lo <= k < hi)
  }

  /** Exactly the bodies with an equivalent key have been disconnected. */
  ghost predicate DisconnectedWhere<G>(xs: seq<ConnectionBody<G>>, was: seq<Look>, lt: GroupCompare<G>, key: Key<G>)
    reads BodySet(xs), set k | 0 <= k < |was| && was[k].slot != null :: was[k].slot
  {
    |was| == |xs| && forall k :: 0 <= k < |xs| ==> DisconnectedAt(xs[k], was[k], Equivalent(lt, xs[k].groupKey, key))
  }

  lemma DisconnectedNone<G>(xs: seq<ConnectionBody<G>>, mutex: Mutex, lo: nat)
    requires BodiesOk(xs, mutex)
    ensures Disconnected(xs, Looks(xs), lo, lo)
  {
    forall k | 0 <= k < |xs| ensures DisconnectedAt(xs[k], Looks(xs)[k], false) { assert xs[k] in xs; }
  }

  /** Bodies only ever lose slots. */
  lemma FewerSlots<G>(xs: seq<ConnectionBody<G>>, was: seq<Look>, lo: nat, hi: nat, slots: set<Slot>)
    requires Disconnected(xs, was, lo, hi) && forall k :: 0 <= k < |was| && was[k].slot != null ==> was[k].slot in slots
    ensures SlotSet(xs) <= slots
  {
    forall s | s in SlotSet(xs) ensures s in slots {
      var b :| b in xs && b.slot == s;
      var k :| 0 <= k < |xs| && xs[k] == b;
      assert DisconnectedAt(xs[k], was[k], lo <= k < hi);
    }
  }

  lemma SlotsLookedAt<G>(xs: seq<ConnectionBody<G>>)
    ensures forall k :: 0 <= k < |Looks(xs)| && Looks(xs)[k].slot != null ==> Looks(xs)[k].slot in SlotSet(xs)
  {}

  lemma GivenUpStep(was: seq<Look>, now: seq<Look>, k: nat, look: Look)
    requires |was| == |now| && k < |was| && now[k] == was[k]
    ensures GivenUp(was, now[k := look]) == GivenUp(was, now) + Given(was[k], look)
  {
    var now' := now[k := look];
    forall s | s in GivenUp(was, now) ensures s in GivenUp(was, now') {
      var j :| 0 <= j < |was| && was[j].slot != null && now[j].slot == null && was[j].slot == s;
      assert was[j].slot != null && now'[j].slot == null;
    }
    forall s | s in Given(was[k], look) ensures s in GivenUp(was, now') { assert now'[k].slot == null; }
    forall s | s in GivenUp(was, now') ensures s in GivenUp(was, now) + Given(was[k], look) {
      var j :| 0 <= j < |was| && was[j].slot != null && now'[j].slot == null && was[j].slot == s;
      if j != k { assert now[j].slot == null; }
    }
  }

  lemma GivenUpNothing(was: seq<Look>, trash: set<Slot>)
    ensures trash + GivenUp(was, was) == trash
  {}

  lemma CleanedNone(was: seq<Look>, start: nat, owned: set<nat>)
    ensures Cleaned(was, was, start, start, owned, owned)
  {}

  lemma CleanedAll(now: seq<Look>, was: seq<Look>, start: nat, end: nat, end': nat, owned: set<nat>, left: set<nat>)
    requires Cleaned(now, was, start, end, owned, left) && end <= end' && (end == end' || end == |was|)
    ensures Cleaned(now, was, start, end', owned, left)
  {}

  /** What had expired stays expired. */
  lemma CleanedLater(now: seq<Look>, was: seq<Look>, start: nat, end: nat, owned: set<nat>, left: set<nat>,
                     left': set<nat>)
    requires Cleaned(now, was, start, end, owned, left) && left' <= left
    ensures Cleaned(now, was, start, end, owned, left')
  {}

  lemma CleanedStep(now: seq<Look>, was: seq<Look>, start: nat, k: nat, owned: set<nat>, left: set<nat>,
                    left': set<nat>, look: Look)
    requires start <= k < |now| && Cleaned(now, was, start, k, owned, left) && left' <= left <= owned
    requires Expiry(look, now[k], left, left')
    ensures Cleaned(now[k := look], was, start, k + 1, owned, left')
  {}

  /** Where a key goes in a list: at its upper bound, or at its lower bound. */
  ghost function Place<G>(lt: GroupCompare<G>, keys: seq<Key<G>>, key: Key<G>, position: Position): (r: nat)
    ensures r <= |keys|
  {
    if position == AtBack then UpperBound(lt, keys, key) else LowerBound(lt, keys, key)
  }

  ghost predicate AllKeep<G>(xs: seq<ConnectionBody<G>>, lock: GarbageCollectingLock)
    reads BodySet(xs), lock
  {
    forall b :: b in xs ==> b.Keeps(lock)
  }

  /** Destroying the garbage of a lock does not concern the slots these bodies have. */
  ghost predicate NotTrashed<G>(xs: seq<ConnectionBody<G>>, lock: GarbageCollectingLock)
    reads BodySet(xs), lock
  {
    forall b :: b in xs && b.slot != null ==> b.slot !in lock.garbage
  }

  lemma {:induction false} KeepAppend<T>(xs: seq<T>, x: T, dead: set<T>)
    ensures Keep(xs + [x], dead) == Keep(xs, dead) + if x in dead then [] else [x]
  {
    if xs != [] {
      KeepAppend(xs[1..], x, dead);
      assert (xs + [x])[1..] == xs[1..] + [x];
    }
  }

  /** Only what is known of the elements themselves matters. */
  lemma {:induction false} KeepAgrees<T>(xs: seq<T>, dead: set<T>, dead': set<T>)
    requires forall x :: x in xs ==> (x in dead <==> x in dead')
    ensures Keep(xs, dead) == Keep(xs, dead')
  {
    if xs != [] { KeepAgrees(xs[1..], dead, dead'); }
  }

  class SignalImpl<G(!new)> {
    var sharedState: InvocationState<G>
    var garbageCollectorIt: ListNode?<ConnectionBody<G>>
    const mutex: Mutex

    constructor (combiner: int, lt: GroupCompare<G>)
      requires StrictWeak(lt)
      ensures Valid() && Bodies() == [] && Unique() && garbageCollectorIt == null && !mutex.held
      ensures sharedState.cell.combiner == combiner && List().lt == lt
    {
      var list := new GroupedList<G, ConnectionBody<G>>(lt);
      var cell := new CombinerCell(combiner);
      sharedState := new InvocationState(list, cell);
      garbageCollectorIt := null;
      mutex := new Mutex();
    }

    ghost function List(): GroupedList<G, ConnectionBody<G>>
      reads this`sharedState
    {
      sharedState.connectionBodies
    }

    ghost function Bodies(): seq<ConnectionBody<G>>
      reads this`sharedState, sharedState.connectionBodies
    {
      sharedState.connectionBodies.Values()
    }

    /** `_shared_state.unique()`. */
    predicate Unique()
      reads this, sharedState
    {
      sharedState.uses == 1
    }

    /** The list is in order, keyed by the keys of its bodies, and the stored iterator stands in it or at its end. */
    ghost predicate Valid()
      reads this, sharedState, sharedState.connectionBodies, BodySet(Bodies()), SlotSet(Bodies())
    {
      && sharedState.uses >= 1
      && ListValid(sharedState.connectionBodies)
      && (garbageCollectorIt != null ==> garbageCollectorIt in sharedState.connectionBodies.nodes)
    }

    ghost predicate ListValid(list: GroupedList<G, ConnectionBody<G>>)
      reads list, BodySet(list.Values()), SlotSet(list.Values())
    {
      list.Valid() && BodiesOk(list.Values(), mutex) && list.keys == GroupKeysOf(list.Values())
    }

    /** One turn of the clean-up loop. */
    method Examine(lock: GarbageCollectingLock, objects: Objects, grabTracked: bool, it: ListNode<ConnectionBody<G>>)
      returns (next: ListNode?<ConnectionBody<G>>)
      requires List().Valid() && it in List().nodes && lock.Valid()
      requires it.value.Valid() && it.value.Keeps(lock) && List().keys[IndexOf(List().nodes, it)] == it.value.groupKey
      modifies sharedState.connectionBodies, it.value`connected, it.value`slotRefcount, it.value`slot, lock`garbage
      modifies objects
      ensures lock.Valid() && List().Valid() && objects.owned <= old(objects.owned)
      ensures it.value.Valid() && it.value.Trashed(lock)
      ensures it.value.slot == null || it.value.slot == old(it.value.slot)
      ensures if grabTracked then Expiry(LookAt(it.value), old(LookAt(it.value)), old(objects.owned), objects.owned)
              else LookAt(it.value) == old(LookAt(it.value))
      ensures var p := old(IndexOf(List().nodes, it));
        if it.value.connected then
          List().nodes == old(List().nodes) && List().keys == old(List().keys) && next == NodeAt(List().nodes, p + 1)
        else
          && List().nodes == RemoveAt(old(List().nodes), p) && List().keys == RemoveAt(old(List().keys), p)
          && next == NodeAt(List().nodes, p)
    {
      hide StrictWeak, Sorted, IndexOk, KeyLess, LowerBound, UpperBound, Aimed, RemoveIndex;
      var body := it.value;
      if grabTracked { body.DisconnectExpiredSlot(lock, objects); }
      if !body.connected {
        SelfEquivalent(List().lt, body.groupKey);
        next := sharedState.connectionBodies.Erase(body.groupKey, it);
      } else {
        next := sharedState.connectionBodies.Next(it);
      }
    }

    /** What a turn of the loop leaves alone: every other body. */
    method ExamineAmong(lock: GarbageCollectingLock, objects: Objects, grabTracked: bool,
                        it: ListNode<ConnectionBody<G>>, ghost xs: seq<ConnectionBody<G>>, ghost k: nat)
      returns (next: ListNode?<ConnectionBody<G>>)
      requires List().Valid() && it in List().nodes && lock.Valid() && BodiesOk(xs, mutex) && AllKeep(xs, lock)
      requires k < |xs| && it.value == xs[k] && List().keys[IndexOf(List().nodes, it)] == it.value.groupKey
      modifies sharedState.connectionBodies, it.value`connected, it.value`slotRefcount, it.value`slot, lock`garbage
      modifies objects
      ensures lock.Valid() && List().Valid() && objects.owned <= old(objects.owned) && BodiesOk(xs, mutex)
      ensures AllKeep(xs, lock)
      ensures if grabTracked then Expiry(LookAt(it.value), old(LookAt(it.value)), old(objects.owned), objects.owned)
              else LookAt(it.value) == old(LookAt(it.value))
      ensures forall j :: 0 <= j < |xs| && j != k ==> LookAt(xs[j]) == old(LookAt(xs[j]))
      ensures Garbage(lock) == old(Garbage(lock)) + Given(old(LookAt(it.value)), LookAt(it.value))
      ensures var p := old(IndexOf(List().nodes, it));
        if it.value.connected then
          List().nodes == old(List().nodes) && List().keys == old(List().keys) && next == NodeAt(List().nodes, p + 1)
        else
          && List().nodes == RemoveAt(old(List().nodes), p) && List().keys == RemoveAt(old(List().keys), p)
          && next == NodeAt(List().nodes, p)
    {
      hide StrictWeak, Sorted, IndexOk, KeyLess, LowerBound, UpperBound, Aimed;
      assert it.value.Valid() && it.value.Keeps(lock);
      next := Examine(lock, objects, grabTracked, it);
      forall b | b in xs && b != it.value ensures b.Valid() && b.Keeps(lock) {
        assert old(b.Valid() && b.Keeps(lock));
      }
    }

    /**
     The clean-up loop when it has looked at the entries from `start` to `end`: those in `kept` are left, and the
     iterator stands behind them.
     */
    ghost predicate Progress(lock: GarbageCollectingLock, xs: seq<ConnectionBody<G>>, start: nat, end: nat,
                             kept: seq<ConnectionBody<G>>, it: ListNode?<ConnectionBody<G>>)
      reads this`sharedState, sharedState.connectionBodies, lock, lock.mutex, lock.garbage, BodySet(xs), SlotSet(xs),
        BodySet(Bodies())
    {
      && start <= end <= |xs| && List().Valid() && lock.Valid() && BodiesOk(xs, mutex) && AllKeep(xs, lock)
      && kept == Keep(xs[start..end], DeadIn(xs))
      && Bodies() == xs[..start] + kept + xs[end..]
      && List().keys == GroupKeysOf(Bodies())
      && it == NodeAt(List().nodes, start + |kept|)
    }

    /** One turn, in terms of what is left. */
    method Turn(lock: GarbageCollectingLock, objects: Objects, grabTracked: bool, it: ListNode<ConnectionBody<G>>,
                ghost xs: seq<ConnectionBody<G>>, ghost start: nat, ghost end: nat, ghost kept: seq<ConnectionBody<G>>)
      returns (next: ListNode?<ConnectionBody<G>>, ghost kept': seq<ConnectionBody<G>>)
      requires Progress(lock, xs, start, end, kept, it) && end < |xs| && it.value == xs[end]
      modifies sharedState.connectionBodies, it.value`connected, it.value`slotRefcount, it.value`slot, lock`garbage
      modifies objects
      ensures start <= end < |xs| && Progress(lock, xs, start, end + 1, kept', next)
      ensures objects.owned <= old(objects.owned)
      ensures Looks(xs) == old(Looks(xs))[end := LookAt(xs[end])]
      ensures Garbage(lock) == old(Garbage(lock)) + Given(old(Looks(xs))[end], LookAt(xs[end]))
      ensures if grabTracked then Expiry(LookAt(xs[end]), old(Looks(xs))[end], old(objects.owned), objects.owned)
              else LookAt(xs[end]) == old(Looks(xs))[end]
    {
      hide StrictWeak, Sorted, NoDup, IndexOk, Keep, Expiry, BodiesOk, AllKeep, DeadIn, GroupKeysOf, RemoveAt,
        SlotSet, ValuesOf, Progress, Looks, Garbage;
      AboutProgress(lock, xs, start, end, kept, it);
      ghost var dead, nodes, keys, p, was := DeadIn(xs), List().nodes, List().keys, start + |kept|, Looks(xs);
      IndexOfAt(nodes, p);
      AboutBodies(xs, Bodies());
      AboutLooks(xs);
      next := ExamineAmong(lock, objects, grabTracked, it, xs, end);
      LooksAfter(xs, was, end);
      kept' := kept + if xs[end].connected then [xs[end]] else [];
      TurnDone(lock, xs, start, end, kept, dead, nodes, keys, next);
    }

    /** What a turn has done to the list, in terms of what is left. */
    lemma TurnDone(lock: GarbageCollectingLock, xs: seq<ConnectionBody<G>>, start: nat, end: nat,
                   kept: seq<ConnectionBody<G>>, dead: set<ConnectionBody<G>>, nodes: seq<ListNode<ConnectionBody<G>>>,
                   keys: seq<Key<G>>, next: ListNode?<ConnectionBody<G>>)
      requires start <= end < |xs| && List().Valid() && lock.Valid() && BodiesOk(xs, mutex) && AllKeep(xs, lock)
      requires ValuesOf(nodes) == xs[..start] + kept + xs[end..] && kept == Keep(xs[start..end], dead)
      requires |keys| == |nodes| && forall k :: 0 <= k < |keys| ==> keys[k] == nodes[k].value.groupKey
      requires forall j :: 0 <= j < |xs| && j != end ==> (xs[j] in dead <==> !xs[j].connected)
      requires var p := start + |kept|;
        if xs[end].connected then List().nodes == nodes && List().keys == keys && next == NodeAt(nodes, p + 1)
        else List().nodes == RemoveAt(nodes, p) && List().keys == RemoveAt(keys, p) && next == NodeAt(List().nodes, p)
      ensures Progress(lock, xs, start, end + 1, kept + if xs[end].connected then [xs[end]] else [], next)
    {
      hide *;
      BodiesAre();
      var kept' := kept + if xs[end].connected then [xs[end]] else [];
      NextValues(xs, start, end, kept, nodes, List().nodes, xs[end].connected);
      NextKeys(nodes, List().nodes, keys, List().keys, start + |kept|, xs[end].connected);
      TurnKept(xs, dead, start, end, kept);
      assert kept' == Keep(xs[start..end + 1], DeadIn(xs));
      assert Bodies() == xs[..start] + kept' + xs[end + 1..] && List().keys == GroupKeysOf(Bodies());
      assert next == NodeAt(List().nodes, start + |kept'|);
      MakeProgress(lock, xs, start, end + 1, kept', next);
    }

    lemma BodiesAre()
      ensures Bodies() == ValuesOf(List().nodes)
    {}

    /** One turn, and which bodies have been looked at after it. */
    method TurnCleaned(lock: GarbageCollectingLock, objects: Objects, grabTracked: bool,
                       it: ListNode<ConnectionBody<G>>, ghost xs: seq<ConnectionBody<G>>, ghost start: nat,
                       ghost end: nat, ghost kept: seq<ConnectionBody<G>>, ghost was: seq<Look>, ghost owned: set<nat>,
                       ghost trash: set<Slot>)
      returns (next: ListNode?<ConnectionBody<G>>, ghost kept': seq<ConnectionBody<G>>)
      requires Progress(lock, xs, start, end, kept, it) && end < |xs| && it.value == xs[end] && objects.owned <= owned
      requires Cleaned(Looks(xs), was, start, if grabTracked then end else start, owned, objects.owned)
      requires |was| == |xs| == |Looks(xs)| && Garbage(lock) == trash + GivenUp(was, Looks(xs))
      modifies sharedState.connectionBodies, it.value`connected, it.value`slotRefcount, it.value`slot, lock`garbage
      modifies objects
      ensures Progress(lock, xs, start, end + 1, kept', next) && objects.owned <= owned
      ensures Cleaned(Looks(xs), was, start, if grabTracked then end + 1 else start, owned, objects.owned)
      ensures |Looks(xs)| == |xs| && Garbage(lock) == trash + GivenUp(was, Looks(xs))
    {
      hide StrictWeak, Sorted, NoDup, IndexOk, Progress, ListValid, BodiesOk, AllKeep, DeadIn, Expiry;
      ghost var looks, left := Looks(xs), objects.owned;
      assert looks[end] == was[end];
      next, kept' := Turn(lock, objects, grabTracked, it, xs, start, end, kept);
      if grabTracked {
        CleanedStep(looks, was, start, end, owned, left, objects.owned, LookAt(xs[end]));
      } else {
        CleanedLater(looks, was, start, start, owned, left, objects.owned);
      }
      GivenUpStep(was, looks, end, LookAt(xs[end]));
    }

    lemma AboutProgress(lock: GarbageCollectingLock, xs: seq<ConnectionBody<G>>, start: nat, end: nat,
                        kept: seq<ConnectionBody<G>>, it: ListNode?<ConnectionBody<G>>)
      requires Progress(lock, xs, start, end, kept, it)
      ensures start <= end <= |xs| && List().Valid() && lock.Valid() && BodiesOk(xs, mutex) && AllKeep(xs, lock)
      ensures kept == Keep(xs[start..end], DeadIn(xs))
      ensures Bodies() == xs[..start] + kept + xs[end..] && List().keys == GroupKeysOf(Bodies())
      ensures it == NodeAt(List().nodes, start + |kept|)
    {}

    lemma MakeProgress(lock: GarbageCollectingLock, xs: seq<ConnectionBody<G>>, start: nat, end: nat,
                       kept: seq<ConnectionBody<G>>, it: ListNode?<ConnectionBody<G>>)
      requires start <= end <= |xs| && List().Valid() && lock.Valid() && BodiesOk(xs, mutex) && AllKeep(xs, lock)
      requires kept == Keep(xs[start..end], DeadIn(xs))
      requires Bodies() == xs[..start] + kept + xs[end..] && List().keys == GroupKeysOf(Bodies())
      requires it == NodeAt(List().nodes, start + |kept|)
      ensures Progress(lock, xs, start, end, kept, it)
    {}

    /** The iterator stands on the next entry to be looked at, or none is left. */
    lemma ProgressNext(lock: GarbageCollectingLock, xs: seq<ConnectionBody<G>>, start: nat, end: nat,
                       kept: seq<ConnectionBody<G>>, it: ListNode?<ConnectionBody<G>>)
      requires Progress(lock, xs, start, end, kept, it)
      ensures end <= |xs| && (it == null <==> end == |xs|)
      ensures it != null ==> it in List().nodes && it.value == xs[end]
    {
      hide StrictWeak, Sorted, IndexOk, Keep, BodiesOk, AllKeep, DeadIn, GroupKeysOf;
      if it != null { assert Bodies()[start + |kept|] == it.value; }
    }

    /** When the loop stops, the list is what the sweep of sequences gives. */
    lemma ProgressDone(lock: GarbageCollectingLock, xs: seq<ConnectionBody<G>>, start: nat, end: nat,
                       kept: seq<ConnectionBody<G>>, it: ListNode?<ConnectionBody<G>>, n: nat)
      requires Progress(lock, xs, start, end, kept, it) && end <= start + n && (it == null || end == start + n)
      ensures (Bodies(), List().Pos(it)) == SweepFrom(xs, DeadIn(xs), start, n)
      ensures it != null ==> it in List().nodes
      ensures ListValid(List()) && lock.Valid() && BodiesOk(xs, mutex) && AllKeep(xs, lock)
    {
      hide *;
      AboutProgress(lock, xs, start, end, kept, it);
      ProgressNext(lock, xs, start, end, kept, it);
      AboutBodiesOk(xs, mutex);
      SweepStops(xs, DeadIn(xs), start, end, n);
      SweptBodies(xs, DeadIn(xs), start, n);
      FewerOk(xs, Bodies(), mutex);
      BodiesCount();
      StandsAt(it, start + |kept|);
      MakeListValid();
    }

    lemma BodiesCount()
      ensures |Bodies()| == |List().nodes|
    {}

    lemma MakeListValid()
      requires List().Valid() && BodiesOk(Bodies(), mutex) && List().keys == GroupKeysOf(Bodies())
      ensures ListValid(List())
    {}

    lemma StandsAt(it: ListNode?<ConnectionBody<G>>, p: nat)
      requires List().Valid() && p <= |List().nodes| && it == NodeAt(List().nodes, p)
      ensures List().Pos(it) == p && (it != null ==> it in List().nodes)
    {
      if it != null { IndexOfAt(List().nodes, p); }
    }

    /** The loop of `nolock_cleanup_connections_from`: erases disconnected bodies. A count of zero means no limit. */
    method CleanupLoop(lock: GarbageCollectingLock, objects: Objects, grabTracked: bool,
                       begin: ListNode?<ConnectionBody<G>>, count: nat)
      returns (it: ListNode?<ConnectionBody<G>>)
      requires ListValid(List()) && lock.Valid() && AllKeep(Bodies(), lock)
      requires begin != null ==> begin in List().nodes
      modifies sharedState.connectionBodies, lock`garbage, objects
      modifies BodySet(Bodies())`connected, BodySet(Bodies())`slotRefcount, BodySet(Bodies())`slot
      ensures ListValid(List()) && lock.Valid() && BodiesOk(old(Bodies()), mutex) && AllKeep(old(Bodies()), lock)
      ensures it != null ==> it in List().nodes
      ensures var xs, start := old(Bodies()), old(List().Pos(begin));
        var n := if count == 0 then |xs| else count;
        && (Bodies(), List().Pos(it)) == SweepFrom(xs, DeadIn(xs), start, n)
        && Cleaned(Looks(xs), old(Looks(Bodies())), start, if grabTracked then start + n else start,
                   old(objects.owned), objects.owned)
        && Garbage(lock) == old(Garbage(lock)) + GivenUp(old(Looks(Bodies())), Looks(xs))
    {
      hide *;
      ghost var xs, start, was := Bodies(), List().Pos(begin), Looks(Bodies());
      CleanedNone(was, start, objects.owned);
      GivenUpNothing(was, Garbage(lock));
      LooksLength(xs);
      ghost var kept: seq<ConnectionBody<G>> := [];
      it := begin;
      var i := 0;
      ghost var end := start;
      CleanupStarts(lock, begin);
      ProgressNext(lock, xs, start, start, kept, it);
      while it != null && (count == 0 || i < count)
        invariant end == start + i <= |xs| && (count == 0 || i <= count)
        invariant Progress(lock, xs, start, end, kept, it)
        invariant objects.owned <= old(objects.owned)
        invariant Cleaned(Looks(xs), was, start, if grabTracked then end else start, old(objects.owned), objects.owned)
        invariant |was| == |xs| == |Looks(xs)| && Garbage(lock) == old(Garbage(lock)) + GivenUp(was, Looks(xs))
        decreases |xs| - end
      {
        ProgressNext(lock, xs, start, end, kept, it);
        InBodySet(xs, end);
        it, kept := TurnCleaned(lock, objects, grabTracked, it, xs, start, end, kept, was, old(objects.owned),
          old(Garbage(lock)));
        i, end := i + 1, end + 1;
      }
      ghost var n := if count == 0 then |xs| else count;
      CleanupEnds(lock, xs, was, start, end, kept, it, n, grabTracked, old(objects.owned), objects.owned);
    }

    lemma CleanupEnds(lock: GarbageCollectingLock, xs: seq<ConnectionBody<G>>, was: seq<Look>, start: nat, end: nat,
                      kept: seq<ConnectionBody<G>>, it: ListNode?<ConnectionBody<G>>, n: nat, grabTracked: bool,
                      owned: set<nat>, left: set<nat>)
      requires |was| == |xs| && Progress(lock, xs, start, end, kept, it) && end <= start + n
      requires it == null || end == start + n
      requires Cleaned(Looks(xs), was, start, if grabTracked then end else start, owned, left)
      ensures ListValid(List()) && lock.Valid() && BodiesOk(xs, mutex) && AllKeep(xs, lock)
      ensures it != null ==> it in List().nodes
      ensures (Bodies(), List().Pos(it)) == SweepFrom(xs, DeadIn(xs), start, n)
      ensures Cleaned(Looks(xs), was, start, if grabTracked then start + n else start, owned, left)
    {
      hide StrictWeak, Sorted, NoDup, IndexOk, Progress, ListValid, BodiesOk, AllKeep, DeadIn, Cleaned;
      ProgressNext(lock, xs, start, end, kept, it);
      ProgressDone(lock, xs, start, end, kept, it, n);
      if grabTracked { CleanedAll(Looks(xs), was, start, end, start + n, owned, left); }
    }

    /** `nolock_cleanup_connections_from`. */
    method CleanupFrom(lock: GarbageCollectingLock, objects: Objects, grabTracked: bool,
                       begin: ListNode?<ConnectionBody<G>>, count: nat)
      requires Unique() && ListValid(List()) && lock.Valid() && AllKeep(Bodies(), lock)
      requires begin != null ==> begin in List().nodes
      modifies this`garbageCollectorIt, sharedState.connectionBodies, lock`garbage, objects
      modifies BodySet(Bodies())`connected, BodySet(Bodies())`slotRefcount, BodySet(Bodies())`slot
      ensures Valid() && lock.Valid() && BodiesOk(old(Bodies()), mutex) && AllKeep(old(Bodies()), lock)
      ensures var xs, start := old(Bodies()), old(List().Pos(begin));
        var n := if count == 0 then |xs| else count;
        && (Bodies(), List().Pos(garbageCollectorIt)) == SweepFrom(xs, DeadIn(xs), start, n)
        && Cleaned(Looks(xs), old(Looks(Bodies())), start, if grabTracked then start + n else start,
                   old(objects.owned), objects.owned)
        && Garbage(lock) == old(Garbage(lock)) + GivenUp(old(Looks(Bodies())), Looks(xs))
    {
      hide StrictWeak, Sorted, NoDup, IndexOk, Cleaned, Looks, SweepFrom, AllKeep, DeadIn;
      garbageCollectorIt := CleanupLoop(lock, objects, grabTracked, begin, count);
    }

    /** The position a clean-up of a few entries starts from: the stored one, or the front when that is the end. */
    ghost function CollectorStart(): nat
      reads this, sharedState, sharedState.connectionBodies
    {
      if garbageCollectorIt == null then 0 else List().Pos(garbageCollectorIt)
    }

    /** `nolock_cleanup_connections`. */
    method Cleanup(lock: GarbageCollectingLock, objects: Objects, grabTracked: bool, count: nat)
      requires Unique() && Valid() && lock.Valid() && AllKeep(Bodies(), lock) && count > 0
      modifies this`garbageCollectorIt, sharedState.connectionBodies, lock`garbage, objects
      modifies BodySet(Bodies())`connected, BodySet(Bodies())`slotRefcount, BodySet(Bodies())`slot
      ensures Valid() && lock.Valid() && BodiesOk(old(Bodies()), mutex) && AllKeep(old(Bodies()), lock)
      ensures var xs, start := old(Bodies()), old(CollectorStart());
        && (Bodies(), List().Pos(garbageCollectorIt)) == SweepFrom(xs, DeadIn(xs), start, count)
        && Cleaned(Looks(xs), old(Looks(Bodies())), start, if grabTracked then start + count else start,
                   old(objects.owned), objects.owned)
        && Garbage(lock) == old(Garbage(lock)) + GivenUp(old(Looks(Bodies())), Looks(xs))
    {
      hide StrictWeak, Sorted, NoDup, IndexOk, Cleaned, BodiesOk, AllKeep, DeadIn, SweepFrom, GroupKeysOf, GivenUp,
        Garbage, Looks;
      var begin := garbageCollectorIt;
      if garbageCollectorIt == null { begin := sharedState.connectionBodies.Begin(); }
      FrontPosition(List().nodes);
      CleanupFrom(lock, objects, grabTracked, begin, count);
    }

    lemma FrontPosition(nodes: seq<ListNode<ConnectionBody<G>>>)
      ensures NodeAt(nodes, 0) == null <==> nodes == []
      ensures nodes != [] ==> NodeAt(nodes, 0) in nodes && IndexOf(nodes, NodeAt(nodes, 0)) == 0
    {}

    /** `nolock_force_unique_connection_list`: a list somebody else holds is copied, and the copy cleaned throughout. */
    method ForceUnique(lock: GarbageCollectingLock, objects: Objects)
      requires Valid() && lock.Valid() && AllKeep(Bodies(), lock)
      modifies this`garbageCollectorIt, this`sharedState, sharedState`uses, lock`garbage, objects
      modifies if Unique() then {sharedState.connectionBodies} else {}
      modifies BodySet(Bodies())`connected, BodySet(Bodies())`slotRefcount, BodySet(Bodies())`slot
      ensures Valid() && Unique() && lock.Valid() && BodiesOk(old(Bodies()), mutex) && AllKeep(old(Bodies()), lock)
      ensures if old(Unique()) then sharedState == old(sharedState) && List() == old(List())
              else fresh(sharedState) && fresh(List()) && old(sharedState).uses == old(sharedState.uses) - 1
      ensures sharedState.cell == old(sharedState.cell) && List().lt == old(List().lt)
      ensures var xs := old(Bodies());
        var start, n := if old(Unique()) then old(CollectorStart()) else 0, if old(Unique()) then 2 else |xs|;
        && (Bodies(), List().Pos(garbageCollectorIt)) == SweepFrom(xs, DeadIn(xs), start, n)
        && Cleaned(Looks(xs), old(Looks(Bodies())), start, start + n, old(objects.owned), objects.owned)
        && Garbage(lock) == old(Garbage(lock)) + GivenUp(old(Looks(Bodies())), Looks(xs))
    {
      hide StrictWeak, Sorted, NoDup, IndexOk, Cleaned, BodiesOk, AllKeep, DeadIn, SweepFrom, GroupKeysOf, GivenUp,
        Garbage, Looks, ListValid;
      if !Unique() {
        CopyAndClean(lock, objects, true);
      } else {
        Cleanup(lock, objects, true, 2);
      }
    }

    /** Copies the list and cleans the copy throughout. */
    method CopyAndClean(lock: GarbageCollectingLock, objects: Objects, grabTracked: bool)
      requires Valid() && !Unique() && lock.Valid() && AllKeep(Bodies(), lock)
      modifies this`garbageCollectorIt, this`sharedState, sharedState`uses, lock`garbage, objects
      modifies BodySet(Bodies())`connected, BodySet(Bodies())`slotRefcount, BodySet(Bodies())`slot
      ensures Valid() && Unique() && lock.Valid() && BodiesOk(old(Bodies()), mutex) && AllKeep(old(Bodies()), lock)
      ensures fresh(sharedState) && fresh(List()) && old(sharedState).uses == old(sharedState.uses) - 1
      ensures sharedState.cell == old(sharedState.cell) && List().lt == old(List().lt)
      ensures var xs := old(Bodies());
        && (Bodies(), List().Pos(garbageCollectorIt)) == SweepFrom(xs, DeadIn(xs), 0, |xs|)
        && Cleaned(Looks(xs), old(Looks(Bodies())), 0, if grabTracked then |xs| else 0,
                   old(objects.owned), objects.owned)
        && Garbage(lock) == old(Garbage(lock)) + GivenUp(old(Looks(Bodies())), Looks(xs))
    {
      hide StrictWeak, Sorted, NoDup, IndexOk, Cleaned, BodiesOk, AllKeep, DeadIn, SweepFrom, GroupKeysOf, GivenUp,
        Garbage, ListValid;
      ghost var xs := Bodies();
      CopyState();
      var begin := sharedState.connectionBodies.Begin();
      FrontPosition(List().nodes);
      CleanupFrom(lock, objects, grabTracked, begin, 0);
    }

    /** Moves the signal to a new state with its own copy of the list, and the old combiner. */
    method CopyState()
      requires ListValid(List()) && sharedState.uses > 1
      modifies this`sharedState, sharedState`uses
      ensures fresh(sharedState) && fresh(List()) && sharedState.uses == 1 && sharedState.cell == old(sharedState.cell)
      ensures ListValid(List()) && Bodies() == old(Bodies()) && List().lt == old(List().lt)
      ensures Looks(Bodies()) == old(Looks(Bodies()))
      ensures old(sharedState).uses == old(sharedState.uses) - 1
    {
      hide StrictWeak, Sorted, IndexOk;
      var list := new GroupedList<G, ConnectionBody<G>>.Copy(sharedState.connectionBodies);
      sharedState.uses := sharedState.uses - 1;
      sharedState := new InvocationState(list, sharedState.cell);
    }

    /** What `nolock_force_unique_connection_list` leaves of the bodies there were. */
    ghost function SweptForConnect(xs: seq<ConnectionBody<G>>, dead: set<ConnectionBody<G>>, unique: bool, start: nat)
      : (seq<ConnectionBody<G>>, nat)
      requires unique ==> start <= |xs|
    {
      if unique then SweepFrom(xs, dead, start, 2) else SweepFrom(xs, dead, 0, |xs|)
    }

    /** The body the stored iterator stands on. */
    ghost function Collector(): Option<ConnectionBody<G>>
      reads this`garbageCollectorIt
    {
      if garbageCollectorIt == null then None else Some(garbageCollectorIt.value)
    }

    /** The body at a position that may be the end. */
    ghost function BodyAt(xs: seq<ConnectionBody<G>>, p: nat): Option<ConnectionBody<G>> {
      if p < |xs| then Some(xs[p]) else None
    }

    lemma CollectorIs(p: nat)
      requires Valid() && List().Pos(garbageCollectorIt) == p
      ensures Collector() == BodyAt(Bodies(), p)
    {}

    lemma StartInside()
      requires Valid()
      ensures CollectorStart() <= |Bodies()|
    {}

    /** Inserts a body under its key. */
    method InsertBody(body: ConnectionBody<G>, position: Position)
      requires ListValid(List()) && body.Valid() && body.mutex == mutex && body !in Bodies()
      modifies sharedState.connectionBodies
      ensures ListValid(List()) && forall node :: node in old(List().nodes) ==> node in List().nodes
      ensures Bodies() == InsertAt(old(Bodies()),
        Place(List().lt, GroupKeysOf(old(Bodies())), body.groupKey, position), body)
    {
      hide StrictWeak, Sorted, NoDup, IndexOk, LowerBound, UpperBound, InsertIndex, InsertAt;
      ghost var xs, nodes, keys := Bodies(), List().nodes, List().keys;
      ghost var q := Place(List().lt, keys, body.groupKey, position);
      KeysCount(xs);
      var node: ListNode<ConnectionBody<G>>;
      if position == AtBack {
        node := sharedState.connectionBodies.PushBack(body.groupKey, body);
      } else {
        node := sharedState.connectionBodies.PushFront(body.groupKey, body);
      }
      assert List().nodes == InsertAt(nodes, q, node) && List().keys == InsertAt(keys, q, body.groupKey);
      assert keys == GroupKeysOf(xs);
      InsertMembers(nodes, q, node);
      InsertValues(nodes, q, node);
      Inserted(xs, q, body);
    }

    lemma KeysCount(xs: seq<ConnectionBody<G>>)
      ensures |GroupKeysOf(xs)| == |xs|
    {}

    /** The bodies with a new one among them. */
    lemma Inserted(xs: seq<ConnectionBody<G>>, q: nat, body: ConnectionBody<G>)
      requires BodiesOk(xs, mutex) && q <= |xs| && body !in xs && body.Valid() && body.mutex == mutex
      ensures BodiesOk(InsertAt(xs, q, body), mutex)
      ensures |GroupKeysOf(xs)| == |xs|
      ensures GroupKeysOf(InsertAt(xs, q, body)) == InsertAt(GroupKeysOf(xs), q, body.groupKey)
    {
      InsertNoDup(xs, q, body);
      InsertMembers(xs, q, body);
    }

    method NewBody(tracked: seq<Tracked>, key: Key<G>) returns (body: ConnectionBody<G>)
      ensures fresh(body) && body.Valid() && body.GetCore() == NEW_CORE && body.groupKey == key && body.mutex == mutex
      ensures fresh(body.slot) && body.slot.tracked == tracked
    {
      body := new ConnectionBody(tracked, mutex);
      body.groupKey := key;
    }

    /** `nolock_connect`. */
    method NolockConnect(lock: GarbageCollectingLock, objects: Objects, key: Key<G>, tracked: seq<Tracked>,
                         position: Position)
      returns (body: ConnectionBody<G>)
      requires Valid() && lock.Valid() && AllKeep(Bodies(), lock)
      modifies this`garbageCollectorIt, this`sharedState, sharedState`uses, lock`garbage, objects
      modifies if Unique() then {sharedState.connectionBodies} else {}
      modifies BodySet(Bodies())`connected, BodySet(Bodies())`slotRefcount, BodySet(Bodies())`slot
      ensures Valid() && Unique() && lock.Valid() && NotTrashed(Bodies(), lock) && fresh(body)
      ensures body.GetCore() == NEW_CORE && body.groupKey == key && fresh(body.slot) && body.slot.tracked == tracked
      ensures sharedState.cell == old(sharedState.cell) && List().lt == old(List().lt)
      ensures old(Unique()) ==> sharedState == old(sharedState)
      ensures !old(Unique()) ==> old(sharedState).uses == old(sharedState.uses) - 1
      ensures BodiesOk(old(Bodies()), mutex) && AllKeep(old(Bodies()), lock)
      ensures var xs, was := old(Bodies()), old(Looks(Bodies()));
        var start := if old(Unique()) then old(CollectorStart()) else 0;
        var (swept, g) := SweptForConnect(xs, DeadIn(xs), old(Unique()), old(CollectorStart()));
        && Collector() == BodyAt(swept, g)
        && Bodies() == InsertAt(swept, Place(List().lt, GroupKeysOf(swept), key, position), body)
        && Cleaned(Looks(xs), was, start, start + if old(Unique()) then 2 else |xs|, old(objects.owned), objects.owned)
        && Garbage(lock) == old(Garbage(lock)) + GivenUp(was, Looks(xs))
    {
      hide StrictWeak, Sorted, NoDup, IndexOk, Cleaned, AllKeep, BodiesOk, DeadIn, SweepFrom, Place, InsertAt,
        GivenUp, GroupKeysOf, Looks, ListValid, NotTrashed, Garbage;
      ghost var unique, start, xs := Unique(), CollectorStart(), Bodies();
      ForceUnique(lock, objects);
      SweptKeep(xs, Bodies(), lock, if unique then start else 0, if unique then 2 else |xs|);
      CollectorIs(List().Pos(garbageCollectorIt));
      body := AddNewBody(lock, tracked, key, position, xs);
    }

    /** Makes a body and inserts it. Nothing is said to the bodies there were. */
    method AddNewBody(lock: GarbageCollectingLock, tracked: seq<Tracked>, key: Key<G>, position: Position,
                      ghost xs: seq<ConnectionBody<G>>)
      returns (body: ConnectionBody<G>)
      requires Valid() && lock.Valid() && BodiesOk(xs, mutex) && AllKeep(xs, lock) && NotTrashed(Bodies(), lock)
      modifies sharedState.connectionBodies
      ensures Valid() && lock.Valid() && BodiesOk(xs, mutex) && AllKeep(xs, lock) && NotTrashed(Bodies(), lock)
      ensures Looks(xs) == old(Looks(xs)) && DeadIn(xs) == old(DeadIn(xs)) && fresh(body)
      ensures body.GetCore() == NEW_CORE && body.groupKey == key && fresh(body.slot) && body.slot.tracked == tracked
      ensures Bodies() == InsertAt(old(Bodies()), Place(List().lt, GroupKeysOf(old(Bodies())), key, position), body)
    {
      hide StrictWeak, Sorted, NoDup, IndexOk, Place, InsertAt;
      ghost var ys := Bodies();
      body := NewBody(tracked, key);
      InsertBody(body, position);
      KeysCount(ys);
      InsertMembers(ys, Place(List().lt, GroupKeysOf(ys), key, position), body);
    }

    lemma SweptKeep(xs: seq<ConnectionBody<G>>, ys: seq<ConnectionBody<G>>, lock: GarbageCollectingLock, start: nat,
                    n: nat)
      requires AllKeep(xs, lock) && BodiesOk(xs, mutex) && start <= |xs| && ys == SweepFrom(xs, DeadIn(xs), start, n).0
      ensures NotTrashed(ys, lock)
    {
      SweptBodies(xs, DeadIn(xs), start, n);
    }

    /** The beginning of a critical section. */
    method Lock() returns (lock: GarbageCollectingLock)
      requires Valid() && !mutex.held
      modifies mutex
      ensures Valid() && fresh(lock) && lock.Valid() && lock.mutex == mutex && AllKeep(Bodies(), lock)
      ensures Garbage(lock) == {}
      ensures lock.pool == old(SlotSet(Bodies())) && Bodies() == old(Bodies())
      ensures Looks(Bodies()) == old(Looks(Bodies()))
      ensures BodiesOk(Bodies(), mutex) && Unique() == old(Unique()) && CollectorStart() == old(CollectorStart())
    {
      hide StrictWeak, Sorted, NoDup, IndexOk;
      lock := new GarbageCollectingLock(mutex, SlotSet(Bodies()));
    }

    /**
     The end of a critical section: the mutex is released, then the garbage destroyed. Of the bodies `xs` the
     section began with, as they were then, exactly the slots given up are destroyed.
     */
    method Unlock(lock: GarbageCollectingLock, ghost xs: seq<ConnectionBody<G>>, ghost was: seq<Look>,
                  ghost ys: seq<ConnectionBody<G>>)
      requires Valid() && lock.Valid() && lock.mutex == mutex && NotTrashed(Bodies(), lock)
      requires BodiesOk(xs, mutex) && AllKeep(xs, lock) && |was| == |xs| && Garbage(lock) == GivenUp(was, Looks(xs))
      requires forall k :: 0 <= k < |Looks(xs)| ==> Looks(xs)[k].slot == null || Looks(xs)[k].slot == was[k].slot
      modifies mutex, lock.garbage
      ensures Valid() && !mutex.held && Bodies() == old(Bodies())
      ensures DeadIn(xs) == old(DeadIn(xs)) && Looks(xs) == old(Looks(xs)) && GroupKeysOf(ys) == old(GroupKeysOf(ys))
      ensures SlotsSettled(xs, was)
    {
      hide StrictWeak, Sorted, NoDup, IndexOk;
      ghost var now, looks := Bodies(), Looks(xs);
      assert forall k :: 0 <= k < |xs| ==> looks[k].slot == xs[k].slot;
      lock.Destroy();
      forall b | b in now ensures b.Valid() { assert old(b.Valid()); }
      assert BodiesOk(now, mutex) && GroupKeysOf(now) == old(GroupKeysOf(now));
      forall k | 0 <= k < |was| && was[k].slot != null ensures was[k].slot.destroyed <==> xs[k].slot == null {
        assert looks[k].slot == xs[k].slot;
        if xs[k].slot == null {
          assert was[k].slot in GivenUp(was, looks);
        } else {
          assert old(xs[k].Valid() && xs[k].Keeps(lock));
        }
      }
    }

    /** `connect`: inserts a new body into a list that only the signal holds. */
    method Connect(objects: Objects, group: Option<G>, tracked: seq<Tracked>, position: Position)
        returns (body: ConnectionBody<G>)
      requires Valid() && !mutex.held
      modifies this`garbageCollectorIt, this`sharedState, sharedState`uses, objects, mutex
      modifies if Unique() then {sharedState.connectionBodies} else {}
      modifies BodySet(Bodies())`connected, BodySet(Bodies())`slotRefcount, BodySet(Bodies())`slot, SlotSet(Bodies())
      ensures Valid() && Unique() && !mutex.held && fresh(body) && body.GetCore() == NEW_CORE
      ensures body.groupKey == KeyFor(group, position) && fresh(body.slot) && body.slot.tracked == tracked
      ensures group.Some? ==> body.groupKey == Grouped(group.value)
      ensures group.None? && position == AtBack ==> Bodies() != [] && Bodies()[|Bodies()| - 1] == body
      ensures group.None? && position == AtFront ==> Bodies() != [] && Bodies()[0] == body
      ensures sharedState.cell == old(sharedState.cell) && List().lt == old(List().lt)
      ensures old(Unique()) ==> sharedState == old(sharedState)
      ensures !old(Unique()) ==> old(sharedState).uses == old(sharedState.uses) - 1
      ensures var (swept, g) := SweptForConnect(old(Bodies()), DeadIn(old(Bodies())), old(Unique()),
        old(CollectorStart()));
        && Collector() == BodyAt(swept, g)
        && Bodies() == InsertAt(swept, Place(List().lt, GroupKeysOf(swept), body.groupKey, position), body)
      ensures var start := if old(Unique()) then old(CollectorStart()) else 0;
        var end := start + if old(Unique()) then 2 else |old(Bodies())|;
        Cleaned(Looks(old(Bodies())), old(Looks(Bodies())), start, end, old(objects.owned), objects.owned)
      ensures SlotsSettled(old(Bodies()), old(Looks(Bodies())))
    {
      hide *;
      ghost var xs, was, unique, start := Bodies(), Looks(Bodies()), Unique(), CollectorStart();
      StartInside();
      var lock := Lock();
      body := NolockConnect(lock, objects, KeyFor(group, position), tracked, position);
      ghost var from := if unique then start else 0;
      SlotsKept(Looks(xs), was, from, from + if unique then 2 else |xs|, old(objects.owned), objects.owned);
      InPool(lock);
      ghost var swept := SweptForConnect(xs, DeadIn(xs), unique, start).0;
      Unlock(lock, xs, was, swept);
      KeyIs(group, position);
      UngroupedPlace(List().lt, GroupKeysOf(swept), swept, body);
    }

    lemma KeyIs(group: Option<G>, position: Position)
      ensures group.Some? ==> KeyFor(group, position) == Grouped(group.value)
      ensures group.None? && position == AtBack ==> KeyFor(group, position) == BackUngrouped
      ensures group.None? && position == AtFront ==> KeyFor(group, position) == FrontUngrouped
    {}

    lemma SlotsKept(now: seq<Look>, was: seq<Look>, start: nat, end: nat, owned: set<nat>, left: set<nat>)
      requires Cleaned(now, was, start, end, owned, left)
      ensures forall k :: 0 <= k < |now| ==> now[k].slot == null || now[k].slot == was[k].slot
    {}

    /** The key of a new body: its group, or one of the two ungrouped ends. */
    function KeyFor(group: Option<G>, position: Position): Key<G> {
      match group
      case Some(g) => Grouped(g)
      case None => if position == AtBack then BackUngrouped else FrontUngrouped
    }

    /**
     The head of `operator()`: cleans one entry if nobody else holds the state, and takes a share of it. No body is
     changed, and none gives up its slot.
     */
    method BeginInvocation(objects: Objects) returns (localState: InvocationState<G>)
      requires Valid() && !mutex.held
      modifies this`garbageCollectorIt, sharedState`uses, objects, mutex
      modifies if Unique() then {sharedState.connectionBodies} else {}
      modifies BodySet(Bodies())`connected, BodySet(Bodies())`slotRefcount, BodySet(Bodies())`slot, SlotSet(Bodies())
      ensures Valid() && !mutex.held && localState == sharedState && sharedState.uses == old(sharedState.uses) + 1
      ensures var xs := old(Bodies());
        && Looks(xs) == old(Looks(Bodies())) && SlotsSettled(xs, Looks(xs))
        && if old(Unique()) then
             var (swept, g) := SweepFrom(xs, DeadIn(xs), old(CollectorStart()), 1);
             Bodies() == swept && Collector() == BodyAt(swept, g)
           else Bodies() == xs && garbageCollectorIt == old(garbageCollectorIt)
    {
      hide *;
      ghost var xs, was, start := Bodies(), Looks(Bodies()), CollectorStart();
      StartInside();
      var lock := Lock();
      LooksLength(xs);
      GivenUpNothing(was, {});
      KeptNotTrashed(xs, lock);
      if Unique() {
        Cleanup(lock, objects, false, 1);
        SweptKeep(xs, Bodies(), lock, start, 1);
        CollectorIs(List().Pos(garbageCollectorIt));
        CleanedNothing(Looks(xs), was, start, old(objects.owned), objects.owned);
      }
      localState := TakeState(lock, xs);
      InPool(lock);
      Unlock(lock, xs, was, xs);
    }

    /** Copies the shared pointer to the state. */
    method TakeState(lock: GarbageCollectingLock, ghost xs: seq<ConnectionBody<G>>)
        returns (localState: InvocationState<G>)
      requires Valid() && lock.Valid() && BodiesOk(xs, mutex) && AllKeep(xs, lock) && NotTrashed(Bodies(), lock)
      modifies sharedState`uses
      ensures Valid() && lock.Valid() && BodiesOk(xs, mutex) && AllKeep(xs, lock) && NotTrashed(Bodies(), lock)
      ensures localState == sharedState && sharedState.uses == old(sharedState.uses) + 1 && Bodies() == old(Bodies())
      ensures Looks(xs) == old(Looks(xs)) && DeadIn(xs) == old(DeadIn(xs)) && Garbage(lock) == old(Garbage(lock))
    {
      hide StrictWeak, Sorted, NoDup, IndexOk;
      sharedState.uses := sharedState.uses + 1;
      localState := sharedState;
    }

    lemma KeptNotTrashed(xs: seq<ConnectionBody<G>>, lock: GarbageCollectingLock)
      requires AllKeep(xs, lock)
      ensures NotTrashed(xs, lock)
    {}

    lemma CleanedNothing(now: seq<Look>, was: seq<Look>, start: nat, owned: set<nat>, left: set<nat>)
      requires Cleaned(now, was, start, start, owned, left)
      ensures now == was
    {}

    /** The destructor of `invocation_janitor`: a full clean-up when most of the slots met were disconnected. */
    method Janitor(objects: Objects, list: GroupedList<G, ConnectionBody<G>>, connectedSlotCount: nat,
                   disconnectedSlotCount: nat)
      requires Valid() && !mutex.held
      modifies this`garbageCollectorIt, this`sharedState, sharedState`uses, objects, mutex
      modifies if Unique() then {sharedState.connectionBodies} else {}
      modifies BodySet(Bodies())`connected, BodySet(Bodies())`slotRefcount, BodySet(Bodies())`slot, SlotSet(Bodies())
      ensures Valid() && !mutex.held && sharedState.cell == old(sharedState.cell) && List().lt == old(List().lt)
      ensures Looks(old(Bodies())) == old(Looks(Bodies())) && SlotsSettled(old(Bodies()), Looks(old(Bodies())))
      ensures if list == old(List()) && disconnectedSlotCount > connectedSlotCount
        then Unique() && CleanedThroughout(old(Bodies()))
        else Bodies() == old(Bodies()) && garbageCollectorIt == old(garbageCollectorIt)
             && sharedState == old(sharedState) && sharedState.uses == old(sharedState.uses)
    {
      hide *;
      if disconnectedSlotCount > connectedSlotCount {
        ForceCleanup(objects, list);
      } else {
        AlreadySettled();
      }
    }

    lemma AlreadySettled()
      requires Valid()
      ensures |Looks(Bodies())| == |Bodies()| && SlotsSettled(Bodies(), Looks(Bodies()))
    {
      forall k | 0 <= k < |Bodies()| ensures Bodies()[k].Valid() && Looks(Bodies())[k].slot == Bodies()[k].slot {
        assert Bodies()[k] in Bodies();
      }
    }

    /**
     `force_cleanup_connections`: only the list the signal still uses is cleaned, and a copy of it if others hold it.
     */
    method ForceCleanup(objects: Objects, list: GroupedList<G, ConnectionBody<G>>)
      requires Valid() && !mutex.held
      modifies this`garbageCollectorIt, this`sharedState, sharedState`uses, objects, mutex
      modifies if Unique() then {sharedState.connectionBodies} else {}
      modifies BodySet(Bodies())`connected, BodySet(Bodies())`slotRefcount, BodySet(Bodies())`slot, SlotSet(Bodies())
      ensures Valid() && !mutex.held && sharedState.cell == old(sharedState.cell) && List().lt == old(List().lt)
      ensures Looks(old(Bodies())) == old(Looks(Bodies())) && SlotsSettled(old(Bodies()), Looks(old(Bodies())))
      ensures if list == old(List())
        then Unique() && CleanedThroughout(old(Bodies()))
        else Bodies() == old(Bodies()) && garbageCollectorIt == old(garbageCollectorIt)
             && sharedState == old(sharedState) && sharedState.uses == old(sharedState.uses)
    {
      hide *;
      ghost var xs, was := Bodies(), Looks(Bodies());
      var lock := Lock();
      LooksLength(xs);
      GivenUpNothing(was, {});
      KeptNotTrashed(xs, lock);
      if ListIs(list) {
        CleanupWhole(lock, objects);
        CleanedNothing(Looks(xs), was, 0, old(objects.owned), objects.owned);
        SweptKeep(xs, Bodies(), lock, 0, |xs|);
      }
      InPool(lock);
      Unlock(lock, xs, was, xs);
      if list == old(List()) { MakeCleaned(xs); }
    }

    lemma MakeCleaned(xs: seq<ConnectionBody<G>>)
      requires Bodies() == SweepFrom(xs, DeadIn(xs), 0, |xs|).0 && garbageCollectorIt == null
      ensures CleanedThroughout(xs)
    {}

    /** Of the bodies `xs` the list has those that are not disconnected, and the stored iterator is at its end. */
    ghost predicate CleanedThroughout(xs: seq<ConnectionBody<G>>)
      reads this, sharedState.connectionBodies, BodySet(xs)
    {
      Bodies() == SweepFrom(xs, DeadIn(xs), 0, |xs|).0 && garbageCollectorIt == null
    }

    predicate ListIs(list: GroupedList<G, ConnectionBody<G>>)
      reads this
      ensures ListIs(list) <==> list == List()
    {
      sharedState.connectionBodies == list
    }

    /** Erases every disconnected body, without looking for expired objects. */
    method CleanupWhole(lock: GarbageCollectingLock, objects: Objects)
      requires Valid() && lock.Valid() && AllKeep(Bodies(), lock)
      modifies this`garbageCollectorIt, this`sharedState, sharedState`uses, lock`garbage, objects
      modifies if Unique() then {sharedState.connectionBodies} else {}
      modifies BodySet(Bodies())`connected, BodySet(Bodies())`slotRefcount, BodySet(Bodies())`slot
      ensures Valid() && lock.Valid() && BodiesOk(old(Bodies()), mutex) && AllKeep(old(Bodies()), lock)
      ensures sharedState.cell == old(sharedState.cell) && List().lt == old(List().lt) && Unique()
      ensures garbageCollectorIt == null
      ensures var xs := old(Bodies());
        && Bodies() == SweepFrom(xs, DeadIn(xs), 0, |xs|).0
        && Cleaned(Looks(xs), old(Looks(Bodies())), 0, 0, old(objects.owned), objects.owned)
        && Garbage(lock) == old(Garbage(lock)) + GivenUp(old(Looks(Bodies())), Looks(xs))
    {
      hide StrictWeak, Sorted, NoDup, IndexOk, Cleaned, BodiesOk, AllKeep, DeadIn, SweepFrom, GroupKeysOf, GivenUp,
        Garbage, Looks, ListValid;
      ghost var xs := Bodies();
      if !Unique() {
        CopyAndClean(lock, objects, false);
      } else {
        var begin := sharedState.connectionBodies.Begin();
        FrontPosition(List().nodes);
        CleanupFrom(lock, objects, false, begin, 0);
      }
      WholeSweepEnds(xs, DeadIn(xs));
      EndPosition();
    }

    /** A whole sweep stops at the end. */
    lemma WholeSweepEnds(xs: seq<ConnectionBody<G>>, dead: set<ConnectionBody<G>>)
      ensures SweepFrom(xs, dead, 0, |xs|).1 == |SweepFrom(xs, dead, 0, |xs|).0|
    {
      SweepShape(xs, dead, 0, |xs|);
    }

    lemma EndPosition()
      requires Valid() && List().Pos(garbageCollectorIt) == |Bodies()|
      ensures garbageCollectorIt == null
    {}

    /** `set_combiner`: in place when nobody else holds the state, else in a new state that shares the list. */
    method SetCombiner(combiner: int)
      requires Valid() && !mutex.held
      modifies this`sharedState, sharedState`uses, mutex
      modifies if Unique() then {sharedState.cell} else {}
      ensures Valid() && Unique() && !mutex.held && List() == old(List()) && Bodies() == old(Bodies())
      ensures sharedState.cell.combiner == combiner
      ensures if old(Unique()) then sharedState == old(sharedState) && sharedState.cell == old(sharedState.cell)
              else fresh(sharedState) && fresh(sharedState.cell) && old(sharedState).uses == old(sharedState.uses) - 1
    {
      hide StrictWeak, Sorted, NoDup, IndexOk;
      mutex.Lock();
      if Unique() {
        sharedState.cell.combiner := combiner;
      } else {
        var cell := new CombinerCell(combiner);
        sharedState.uses := sharedState.uses - 1;
        sharedState := new InvocationState(sharedState.connectionBodies, cell);
      }
      mutex.Unlock();
    }

    /** `get_readable_state`. */
    method GetReadableState() returns (localState: InvocationState<G>)
      requires Valid() && !mutex.held
      modifies sharedState`uses, mutex
      ensures Valid() && !mutex.held && localState == sharedState && sharedState.uses == old(sharedState.uses) + 1
      ensures Bodies() == old(Bodies()) && Looks(Bodies()) == old(Looks(Bodies()))
      ensures SlotSet(Bodies()) == old(SlotSet(Bodies()))
    {
      hide StrictWeak, Sorted, NoDup, IndexOk;
      mutex.Lock();
      sharedState.uses := sharedState.uses + 1;
      localState := sharedState;
      mutex.Unlock();
    }

    /**
     The body of the disconnect loops: takes the mutex, disconnects one body, and destroys the slot if it is given up.
     */
    method DisconnectOne(body: ConnectionBody<G>, ghost xs: seq<ConnectionBody<G>>, ghost was: seq<Look>, ghost lo: nat,
                         ghost k: nat)
      requires BodiesOk(xs, mutex) && !mutex.held && Disconnected(xs, was, lo, k) && lo <= k < |xs| && body == xs[k]
      modifies mutex, SlotSet(xs), body`connected, body`slotRefcount, body`slot
      ensures BodiesOk(xs, mutex) && !mutex.held && Disconnected(xs, was, lo, k + 1)
      ensures GroupKeysOf(xs) == old(GroupKeysOf(xs))
    {
      assert body.Valid() && body.mutex == mutex && (body.slot != null ==> body.slot in SlotSet(xs));
      body.Disconnect();
      forall b | b in xs && b != body ensures b.Valid() && b.mutex == mutex { assert old(b.Valid()); }
      forall j | 0 <= j < |xs| ensures DisconnectedAt(xs[j], was[j], lo <= j < k + 1) {
        assert old(DisconnectedAt(xs[j], was[j], lo <= j < k));
        assert xs[j] in xs;
      }
    }

    /**
     The loop of `disconnect(group)` and `disconnect_all_slots`, from one position of a list to another. The mutex
     is taken and released for each body.
     */
    method DisconnectStretch(list: GroupedList<G, ConnectionBody<G>>, begin: ListNode?<ConnectionBody<G>>,
                             endIt: ListNode?<ConnectionBody<G>>, ghost lo: nat, ghost hi: nat)
      requires ListValid(list) && !mutex.held && lo <= hi <= |list.nodes|
      requires begin == NodeAt(list.nodes, lo) && endIt == NodeAt(list.nodes, hi)
      modifies mutex, SlotSet(list.Values())
      modifies BodySet(list.Values())`connected, BodySet(list.Values())`slotRefcount, BodySet(list.Values())`slot
      ensures ListValid(list) && !mutex.held
      ensures Disconnected(list.Values(), old(Looks(list.Values())), lo, hi)
    {
      hide *;
      ghost var xs, was, slots := list.Values(), Looks(list.Values()), SlotSet(list.Values());
      ghost var p := lo;
      var it := begin;
      ListFacts(list, lo, hi);
      DisconnectedNone(xs, mutex, lo);
      SlotsLookedAt(xs);
      LooksLength(xs);
      while it != endIt
        invariant lo <= p <= hi <= |list.nodes| == |xs| && it == NodeAt(list.nodes, p) && !mutex.held
        invariant list.Valid() && BodiesOk(xs, mutex) && list.keys == GroupKeysOf(xs) && list.Values() == xs
        invariant Disconnected(xs, was, lo, p) && SlotSet(xs) <= slots
        decreases |list.nodes| - p
      {
        NodeFacts(list, p, hi);
        InBodySet(xs, p);
        DisconnectOne(it.value, xs, was, lo, p);
        FewerSlots(xs, was, lo, p + 1, slots);
        it := list.Next(it);
        p := p + 1;
      }
      NodeFacts(list, p, hi);
      MakeListValidOf(list);
    }

    lemma ListFacts(list: GroupedList<G, ConnectionBody<G>>, lo: nat, hi: nat)
      requires ListValid(list) && lo <= hi <= |list.nodes|
      ensures list.Valid() && BodiesOk(list.Values(), mutex) && list.keys == GroupKeysOf(list.Values())
      ensures |list.Values()| == |list.nodes| == |list.keys|
    {}

    lemma MakeListValidOf(list: GroupedList<G, ConnectionBody<G>>)
      requires list.Valid() && BodiesOk(list.Values(), mutex) && list.keys == GroupKeysOf(list.Values())
      ensures ListValid(list)
    {}

    /** What the iterator at a position of a list is worth. */
    lemma NodeFacts(list: GroupedList<G, ConnectionBody<G>>, p: nat, hi: nat)
      requires list.Valid() && p <= |list.nodes| && hi <= |list.nodes|
      ensures NodeAt(list.nodes, p) == NodeAt(list.nodes, hi) <==> p == hi
      ensures p < |list.nodes| ==>
        && p < |list.Values()| && NodeAt(list.nodes, p) != null && NodeAt(list.nodes, p).value == list.Values()[p]
        && list.Next(NodeAt(list.nodes, p)) == NodeAt(list.nodes, p + 1)
    {
      hide StrictWeak, Sorted, IndexOk;
      IteratorsDiffer(list.nodes, p, hi);
      if p < |list.nodes| { IndexOfAt(list.nodes, p); }
    }

    /** The destructor of a local copy of the state pointer. */
    method DropState(localState: InvocationState<G>, ghost was: seq<Look>, ghost lo: nat, ghost hi: nat)
      requires ListValid(List()) && localState == sharedState && sharedState.uses > 1
      requires Disconnected(Bodies(), was, lo, hi)
      requires garbageCollectorIt != null ==> garbageCollectorIt in List().nodes
      modifies sharedState`uses
      ensures Valid() && sharedState.uses == old(sharedState.uses) - 1 && Bodies() == old(Bodies())
      ensures Disconnected(Bodies(), was, lo, hi)
    {
      hide StrictWeak, Sorted, NoDup, IndexOk;
      localState.uses := localState.uses - 1;
    }

    /** `disconnect(group)`: exactly the bodies whose key is equivalent to the group are disconnected. */
    method DisconnectGroup(group: G)
      requires Valid() && !mutex.held
      modifies mutex, sharedState`uses, SlotSet(Bodies())
      modifies BodySet(Bodies())`connected, BodySet(Bodies())`slotRefcount, BodySet(Bodies())`slot
      ensures Valid() && !mutex.held && Bodies() == old(Bodies()) && sharedState.uses == old(sharedState.uses)
      ensures DisconnectedWhere(Bodies(), old(Looks(Bodies())), List().lt, Grouped(group))
    {
      hide StrictWeak, Sorted, NoDup, IndexOk, BodiesOk, Looks, GroupKeysOf, LowerBound, UpperBound, Disconnected,
        DisconnectedWhere, SlotSet, KeyLess;
      ghost var was := Looks(Bodies());
      var localState := GetReadableState();
      var list, groupKey := localState.connectionBodies, Grouped(group);
      ghost var lo, hi := LowerBound(list.lt, list.keys, groupKey), UpperBound(list.lt, list.keys, groupKey);
      GroupStretch(list, groupKey);
      DisconnectStretch(list, list.FindLower(groupKey), list.FindUpper(groupKey), lo, hi);
      DropState(localState, was, lo, hi);
      StretchIsGroup(list, was, groupKey);
    }

    lemma GroupStretch(list: GroupedList<G, ConnectionBody<G>>, key: Key<G>)
      requires list.Valid()
      ensures LowerBound(list.lt, list.keys, key) <= UpperBound(list.lt, list.keys, key) <= |list.nodes|
    {
      hide IndexOf;
      BoundsSeparate(list.lt, list.keys, key);
    }

    /** Between the bounds of a group are exactly its bodies. */
    lemma StretchIsGroup(list: GroupedList<G, ConnectionBody<G>>, was: seq<Look>, key: Key<G>)
      requires list.Valid() && list.keys == GroupKeysOf(list.Values())
      requires Disconnected(list.Values(), was, LowerBound(list.lt, list.keys, key),
                            UpperBound(list.lt, list.keys, key))
      ensures DisconnectedWhere(list.Values(), was, list.lt, key)
    {
      hide DisconnectedAt, IndexOk, NoDup, LowerBound, UpperBound, KeyLess;
      BoundsSeparate(list.lt, list.keys, key);
      forall k | 0 <= k < |list.Values()| ensures list.keys[k] == list.Values()[k].groupKey {}
    }

    /** `disconnect_all_slots`. */
    method DisconnectAllSlots()
      requires Valid() && !mutex.held
      modifies mutex, sharedState`uses, SlotSet(Bodies())
      modifies BodySet(Bodies())`connected, BodySet(Bodies())`slotRefcount, BodySet(Bodies())`slot
      ensures Valid() && !mutex.held && Bodies() == old(Bodies()) && sharedState.uses == old(sharedState.uses)
      ensures Disconnected(Bodies(), old(Looks(Bodies())), 0, |Bodies()|)
    {
      hide StrictWeak, Sorted, NoDup, IndexOk, BodiesOk, Looks, GroupKeysOf, Disconnected, SlotSet;
      ghost var was := Looks(Bodies());
      var localState := GetReadableState();
      ghost var n := |List().nodes|;
      DisconnectStretch(localState.connectionBodies, localState.connectionBodies.Begin(), null, 0, n);
      DropState(localState, was, 0, n);
    }

    lemma CleanupStarts(lock: GarbageCollectingLock, begin: ListNode?<ConnectionBody<G>>)
      requires ListValid(List()) && lock.Valid() && AllKeep(Bodies(), lock) && (begin != null ==> begin in List().nodes)
      ensures Progress(lock, Bodies(), List().Pos(begin), List().Pos(begin), [], begin)
    {
      var xs, start := Bodies(), List().Pos(begin);
      assert xs[..start] + [] + xs[start..] == xs;
    }
  }

  /** The bodies left after a sweep are bodies it began with. */
  lemma SweptBodies<T>(xs: seq<T>, dead: set<T>, start: nat, n: nat)
    requires start <= |xs| && NoDup(xs)
    ensures var ys := SweepFrom(xs, dead, start, n).0; NoDup(ys) && forall y :: y in ys ==> y in xs
  {
    var at := SweepSubseq(xs, dead, start, n);
  }

  /** A sweep that stops at `end`, in one piece. */
  lemma SweepStops<T>(xs: seq<T>, dead: set<T>, start: nat, end: nat, n: nat)
    requires start <= end <= |xs| && end <= start + n && (end == |xs| || end == start + n)
    ensures var kept := Keep(xs[start..end], dead);
      SweepFrom(xs, dead, start, n) == (xs[..start] + kept + xs[end..], start + |kept|)
  {
    SweepShape(xs, dead, start, n);
  }

  lemma AboutBodiesOk<G>(xs: seq<ConnectionBody<G>>, mutex: Mutex)
    requires BodiesOk(xs, mutex)
    ensures NoDup(xs)
  {}

  lemma FewerOk<G>(xs: seq<ConnectionBody<G>>, ys: seq<ConnectionBody<G>>, mutex: Mutex)
    requires BodiesOk(xs, mutex) && NoDup(ys) && forall y :: y in ys ==> y in xs
    ensures BodiesOk(ys, mutex)
  {}

  lemma InPool(lock: GarbageCollectingLock)
    requires lock.Valid()
    ensures forall g :: g in lock.garbage ==> g in lock.pool
  {}

  lemma InBodySet<G>(xs: seq<ConnectionBody<G>>, k: nat)
    requires k < |xs|
    ensures xs[k] in BodySet(xs)
  {}

  lemma LooksLength<G>(xs: seq<ConnectionBody<G>>)
    ensures |Looks(xs)| == |xs|
  {}

  lemma AboutLooks<G>(xs: seq<ConnectionBody<G>>)
    ensures |Looks(xs)| == |xs| && forall j :: 0 <= j < |xs| ==> Looks(xs)[j] == LookAt(xs[j])
  {}

  /** One body looks different. */
  lemma LooksAfter<G>(xs: seq<ConnectionBody<G>>, was: seq<Look>, end: nat)
    requires |was| == |xs| && end < |xs| && forall j :: 0 <= j < |xs| && j != end ==> LookAt(xs[j]) == was[j]
    ensures Looks(xs) == was[end := LookAt(xs[end])]
    ensures forall j :: 0 <= j < |xs| ==> xs[j].connected == LookAt(xs[j]).core.connected
  {}

  lemma AboutBodies<G>(xs: seq<ConnectionBody<G>>, ys: seq<ConnectionBody<G>>)
    ensures forall j :: 0 <= j < |xs| ==> (xs[j] in DeadIn(xs) <==> !xs[j].connected)
    ensures |GroupKeysOf(ys)| == |ys| && forall k :: 0 <= k < |ys| ==> GroupKeysOf(ys)[k] == ys[k].groupKey
  {}

  /** The entries kept, after one more is looked at: the others are as connected as before. */
  lemma TurnKept<G>(xs: seq<ConnectionBody<G>>, dead: set<ConnectionBody<G>>, start: nat, end: nat,
                    kept: seq<ConnectionBody<G>>)
    requires start <= end < |xs| && kept == Keep(xs[start..end], dead)
    requires forall j :: 0 <= j < |xs| && j != end ==> (xs[j] in dead <==> !xs[j].connected)
    ensures kept + (if xs[end].connected then [xs[end]] else []) == Keep(xs[start..end + 1], DeadIn(xs))
  {
    KeepAgrees(xs[start..end], dead, DeadIn(xs));
    KeepAppend(xs[start..end], xs[end], DeadIn(xs));
    TurnValues(xs, start, end, kept, true);
  }

  /** The values after a turn of the loop. */
  lemma NextValues<T>(xs: seq<T>, start: nat, end: nat, kept: seq<T>, nodes: seq<ListNode<T>>, nodes': seq<ListNode<T>>,
                      stays: bool)
    requires start <= end < |xs| && ValuesOf(nodes) == xs[..start] + kept + xs[end..]
    requires nodes' == if stays then nodes else RemoveAt(nodes, start + |kept|)
    ensures ValuesOf(nodes') == xs[..start] + (kept + if stays then [xs[end]] else []) + xs[end + 1..]
  {
    hide RemoveAt;
    ExamineValues(nodes, ValuesOf(nodes), start + |kept|);
    TurnValues(xs, start, end, kept, !stays);
  }

  lemma InsertValues<V>(nodes: seq<ListNode<V>>, q: nat, node: ListNode<V>)
    requires q <= |nodes|
    ensures ValuesOf(InsertAt(nodes, q, node)) == InsertAt(ValuesOf(nodes), q, node.value)
  {}

  /** Erasing a node erases its value. */
  lemma ExamineValues<V>(nodes: seq<ListNode<V>>, values: seq<V>, p: nat)
    requires values == ValuesOf(nodes) && p < |nodes|
    ensures ValuesOf(RemoveAt(nodes, p)) == RemoveAt(values, p)
  {}

  /** The keys after a turn of the loop. */
  lemma NextKeys<G>(nodes: seq<ListNode<ConnectionBody<G>>>, nodes': seq<ListNode<ConnectionBody<G>>>,
                    keys: seq<Key<G>>, keys': seq<Key<G>>, p: nat, stays: bool)
    requires p < |nodes| == |keys| && forall k :: 0 <= k < |keys| ==> keys[k] == nodes[k].value.groupKey
    requires nodes' == if stays then nodes else RemoveAt(nodes, p)
    requires keys' == if stays then keys else RemoveAt(keys, p)
    ensures GroupKeysOf(ValuesOf(nodes')) == keys'
  {}

  /** Without a group a body goes to one end of the list or the other. */
  lemma UngroupedPlace<G>(lt: GroupCompare<G>, keys: seq<Key<G>>, xs: seq<ConnectionBody<G>>, body: ConnectionBody<G>)
    requires |keys| == |xs|
    ensures var r := InsertAt(xs, Place(lt, keys, BackUngrouped, AtBack), body); r[|r| - 1] == body
    ensures InsertAt(xs, Place(lt, keys, FrontUngrouped, AtFront), body)[0] == body
  {}

  lemma SelfEquivalent<G(!new)>(lt: GroupCompare<G>, k: Key<G>)
    requires StrictWeak(lt)
    ensures Equivalent(lt, k, k)
  {
    LessIsIrreflexive(lt, k);
  }

  /** The list after one turn of the clean-up loop. */
  lemma TurnValues<T>(xs: seq<T>, start: nat, end: nat, kept: seq<T>, dead: bool)
    requires start <= end < |xs|
    ensures var was, b := xs[..start] + kept + xs[end..], xs[end];
      (if dead then RemoveAt(was, start + |kept|) else was) ==
        xs[..start] + (kept + if dead then [] else [b]) + xs[end + 1..]
    ensures xs[start..end + 1] == xs[start..end] + [xs[end]]
  {}
}
