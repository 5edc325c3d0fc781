/**
 One invocation: the lazy iterator that looks for the next callable slot, the cache it shares with its copies,
 and the combiners that consume it. The list walked is a value, because SnapshotIsolation in Safety shows that
 it does not change; everything else is in a world that slots and other threads may change at will. The result
 is compared with a fold over the list, written without iterators.
 */
module Invocations {
  import opened Options
  import opened BodyCores

  /** What an iterator knows of a connection body. */
  datatype SeenBody = SeenBody(tracked: seq<Tracked>, core: Core, blocked: bool)

  /** The bodies, the objects somebody keeps alive, and everything else there is. */
  datatype World<X> = World(bodies: seq<SeenBody>, owned: set<nat>, rest: X)

  /** What running a slot comes to: a value, or the exception `expired_slot`. */
  datatype Outcome<T> = Returned(value: T) | Expired

  /** What running slot `b` does to the world, and what other threads do to it in between. */
  type Slots<!X, !T> = (World<X>, nat) -> (World<X>, Outcome<T>)
  type Others<!X> = World<X> -> World<X>

  // ---------------------------------------------------------------- what others may do

  /** How many counts the caches of other invocations hold on a body, told from the rest of the world. */
  type Extra<!X> = (X, nat) -> nat

  /**
   Each body counts its connection, the cache it is active in and those of other invocations, and nothing else; it has
   its slot exactly while counted.
   */
  ghost predicate CountsOk<X>(extra: Extra<X>, w: World<X>, active: Option<nat>) {
    && (active.Some? ==> active.value < |w.bodies|)
    && forall b :: 0 <= b < |w.bodies| ==>
         var c := w.bodies[b].core;
         && (c.slot <==> c.refs > 0)
         && c.refs == (if c.connected then 1 else 0) + (if active == Some(b) then 1 else 0) + extra(w.rest, b)
  }

  /** Bodies are only ever added, and a body once disconnected stays so. */
  ghost predicate Onward<X>(w: World<X>, v: World<X>) {
    |v.bodies| >= |w.bodies| && forall b :: 0 <= b < |w.bodies| ==>
      v.bodies[b].tracked == w.bodies[b].tracked && (v.bodies[b].core.connected ==> w.bodies[b].core.connected)
  }

  /** Slots and other threads go through the library: they change no count but those of their own invocations. */
  ghost predicate Respectful<X(!new), T>(run: Slots<X, T>, others: Others<X>, extra: Extra<X>) {
    && (forall w: World<X>, b: nat {:trigger run(w, b)} ::
          CountsOk(extra, w, Some(b)) ==> CountsOk(extra, run(w, b).0, Some(b)) && Onward(w, run(w, b).0))
    && (forall w: World<X>, a: Option<nat> {:trigger CountsOk(extra, others(w), a)} ::
          CountsOk(extra, w, a) ==> CountsOk(extra, others(w), a))
    && (forall w: World<X> {:trigger others(w)} :: Onward(w, others(w)))
  }

  /** Body `b` has been disconnected, and nothing else has changed. */
  ghost predicate CutsOff<X>(w: World<X>, v: World<X>, b: nat) {
    && v.owned == w.owned && v.rest == w.rest && |v.bodies| == |w.bodies|
    && b < |w.bodies| && v.bodies[b] == w.bodies[b].(core := v.bodies[b].core)
    && IsCutOff(w.bodies[b].core, v.bodies[b].core)
    && forall c :: 0 <= c < |w.bodies| && c != b ==> v.bodies[c] == w.bodies[c]
  }

  /** The count held on the body `from` has gone over to the body `to`; with the same body for both nothing changes. */
  ghost predicate HandedOver<X>(w: World<X>, v: World<X>, from: Option<nat>, to: Option<nat>) {
    && v.owned == w.owned && v.rest == w.rest && |v.bodies| == |w.bodies|
    && forall b :: 0 <= b < |w.bodies| ==>
         var c, d := w.bodies[b].core, v.bodies[b].core;
         && v.bodies[b] == w.bodies[b].(core := d)
         && (from == Some(b) && to != Some(b) ==> OneLess(c, d))
         && (from != Some(b) && to == Some(b) ==> d == c.(refs := c.refs + 1))
         && ((from == Some(b) <==> to == Some(b)) ==> d == c)
  }

  // ---------------------------------------------------------------- the parts of an invocation

  function Recounted<X>(w: World<X>, b: nat, c: Core): World<X>
    requires b < |w.bodies|
  {
    w.(bodies := w.bodies[b := w.bodies[b].(core := c)])
  }

  function Disconnect<X>(w: World<X>, b: nat): World<X> {
    if b < |w.bodies| then Recounted(w, b, w.bodies[b].core.Disconnect()) else w
  }

  /** An object the slot tracks has expired. */
  predicate HasExpired<X>(w: World<X>, b: nat)
    requires b < |w.bodies|
  {
    exists k :: 0 <= k < |w.bodies[b].tracked| && w.bodies[b].tracked[k].obj !in w.owned
  }

  /** What `nolock_grab_tracked_objects` does to the body. */
  function Probe<X>(w: World<X>, b: nat): World<X> {
    if b < |w.bodies| && w.bodies[b].core.slot && HasExpired(w, b) then Disconnect(w, b) else w
  }

  /** The objects among those tracked that can be held. */
  function HeldObjects(tracked: seq<Tracked>): seq<nat> {
    if tracked == [] then []
    else
      var n := |tracked| - 1;
      HeldObjects(tracked[..n]) + if tracked[n].trackable then [] else [tracked[n].obj]
  }

  predicate IsConnected<X>(w: World<X>, b: nat) { b < |w.bodies| && w.bodies[b].core.connected }

  /** `nolock_nograb_blocked() == false`. */
  predicate CallableIn<X>(w: World<X>, b: nat) { b < |w.bodies| && MayBeCalled(w.bodies[b].core, w.bodies[b].blocked) }

  function Released<X>(w: World<X>, a: Option<nat>): World<X> {
    if a.Some? && a.value < |w.bodies| then Recounted(w, a.value, w.bodies[a.value].core.Dec()) else w
  }

  function Counted<X>(w: World<X>, a: Option<nat>): World<X> {
    if a.Some? && a.value < |w.bodies| then Recounted(w, a.value, w.bodies[a.value].core.Inc()) else w
  }

  // ---------------------------------------------------------------- the fold

  /** What happened at one position: the world in which its body was tested, and the call, if it was callable. */
  datatype Visit<X, T> = Visit(tested: World<X>, call: Option<(World<X>, Outcome<T>)>)

  /** The world after a call: a slot that threw is disconnected. */
  function AfterCall<X, T>(call: (World<X>, Outcome<T>), b: nat): World<X> {
    if call.1.Expired? then Disconnect(call.0, b) else call.0
  }

  /**
   The walk: each position in order is tested in the world the one before left, and its body run if callable.
   The body that ran last stays counted until the next one runs, or until the end.
   */
  function Fold<X, T>(run: Slots<X, T>, others: Others<X>, list: seq<nat>, p: nat, w: World<X>, active: Option<nat>)
    : (r: (seq<Visit<X, T>>, World<X>))
    requires p <= |list|
    ensures |r.0| == |list| - p
    decreases |list| - p, 1
  {
    if p == |list| then ([], Released(w, active))
    else
      var t := Probe(others(w), list[p]);
      if CallableIn(t, list[p]) then
        RunAt(run, others, list, p, t, Counted(Released(t, active), Some(list[p])))
      else
        var rest := Fold(run, others, list, p + 1, t, active);
        ([Visit(t, None)] + rest.0, rest.1)
  }

  /** The walk from a position whose body is about to run. */
  function RunAt<X, T>(run: Slots<X, T>, others: Others<X>, list: seq<nat>, p: nat, t: World<X>, w: World<X>)
    : (r: (seq<Visit<X, T>>, World<X>))
    requires p < |list|
    ensures |r.0| == |list| - p
    decreases |list| - p, 0
  {
    var call := run(w, list[p]);
    var rest := Fold(run, others, list, p + 1, AfterCall(call, list[p]), Some(list[p]));
    ([Visit(t, Some(call))] + rest.0, rest.1)
  }

  /** The world a position is left in. */
  function After<X, T>(v: Visit<X, T>, b: nat): World<X> {
    if v.call.Some? then AfterCall(v.call.value, b) else v.tested
  }

  /** A walk that has made some visits and has the rest still to come. */
  ghost predicate Continues<X, T>(walk: (seq<Visit<X, T>>, World<X>), visits: seq<Visit<X, T>>, from: nat,
                                  rest: (seq<Visit<X, T>>, World<X>))
  {
    from <= |visits| && walk.0 == visits[from..] + rest.0 && walk.1 == rest.1
  }

  /** The bodies at these positions were passed over. */
  ghost predicate NotCalled<X, T>(visits: seq<Visit<X, T>>, from: nat) {
    forall k :: from <= k < |visits| ==> visits[k].call.None?
  }

  /** What the last slot that did not throw returned. */
  function LastReturned<X, T>(visits: seq<Visit<X, T>>): Option<T> {
    if visits == [] then None
    else
      match visits[|visits| - 1].call
      case Some((_, Returned(v))) => Some(v)
      case _ => LastReturned(visits[..|visits| - 1])
  }

  /** How many of the visits found a connected body. */
  function ConnectedCount<X, T>(visits: seq<Visit<X, T>>, list: seq<nat>): nat
    requires |visits| <= |list|
  {
    if visits == [] then 0
    else
      var n := |visits| - 1;
      ConnectedCount(visits[..n], list) + if IsConnected(visits[n].tested, list[n]) then 1 else 0
  }

  // ---------------------------------------------------------------- the cache and the iterator

  class SlotCallIteratorCache<X, T> {
    const run: Slots<X, T>
    const others: Others<X>
    ghost const extra: Extra<X>
    var world: World<X>
    var result: Option<T>
    /** The objects locked for the slot the iterator is at. */
    var trackedPtrs: seq<nat>
    var connectedSlotCount: nat
    var disconnectedSlotCount: nat
    var activeSlot: Option<nat>
    /** The visits of the positions left behind, and the test and last call of the one the iterator is at. */
    ghost var visits: seq<Visit<X, T>>
    ghost var tested: World<X>
    ghost var call: Option<(World<X>, Outcome<T>)>

    constructor (run: Slots<X, T>, others: Others<X>, world: World<X>, ghost extra: Extra<X>)
      ensures this.run == run && this.others == others && this.extra == extra && this.world == world && result == None
      ensures connectedSlotCount == 0 && disconnectedSlotCount == 0 && activeSlot == None && visits == []
    {
      this.run, this.others, this.extra, this.world, result := run, others, extra, world, None;
      trackedPtrs, connectedSlotCount, disconnectedSlotCount, activeSlot := [], 0, 0, None;
      visits, tested, call := [], world, None;
    }

    /** The destructor gives up the active slot. The assertion of `dec_slot_refcount` holds. */
    method Destroy()
      requires CountsOk(extra, world, activeSlot)
      modifies this`world
      ensures world == Released(old(world), activeSlot) && CountsOk(extra, world, None)
      ensures HandedOver(old(world), world, activeSlot, None)
    {
      if activeSlot.Some? {
        assert world.bodies[activeSlot.value].core.refs != 0;
        world := Released(world, activeSlot);
      }
    }

    /**
     `nolock_grab_tracked_objects`, into the pointers of the cache: keeps the objects that can be held, up to the first
     one that has expired, for which the body is disconnected.
     */
    method GrabTracked(b: nat)
      requires b < |world.bodies|
      modifies this`world, this`trackedPtrs
      ensures world == Probe(old(world), b)
      ensures IsConnected(world, b) && world.bodies[b].core.slot ==> trackedPtrs == HeldObjects(world.bodies[b].tracked)
      ensures !old(world.bodies[b].core.slot) ==> trackedPtrs == []
      ensures var ts := old(world.bodies[b].tracked); exists k :: 0 <= k <= |ts| && trackedPtrs == HeldObjects(ts[..k])
    {
      trackedPtrs := [];
      var tracked := world.bodies[b].tracked;
      assert trackedPtrs == HeldObjects(tracked[..0]);
      if !world.bodies[b].core.slot { return; }
      for k := 0 to |tracked|
        invariant world == old(world) && trackedPtrs == HeldObjects(tracked[..k])
        invariant forall l :: 0 <= l < k ==> tracked[l].obj in world.owned
      {
        if tracked[k].obj !in world.owned {
          world := Disconnect(world, b);
          return;
        }
        if !tracked[k].trackable { trackedPtrs := trackedPtrs + [tracked[k].obj]; }
        assert tracked[..k + 1] == tracked[..k] + [tracked[k]];
      }
      assert tracked[..|tracked|] == tracked;
    }

    /** Gives up the old active slot before it counts the new one. Both reference count assertions hold. */
    method SetActiveSlot(slot: Option<nat>)
      requires CountsOk(extra, world, activeSlot) && (slot.Some? ==> IsConnected(world, slot.value))
      modifies this`world, this`activeSlot
      ensures world == Counted(Released(old(world), old(activeSlot)), slot) && activeSlot == slot
      ensures CountsOk(extra, world, activeSlot)
      ensures slot.None? ==> world == Released(old(world), old(activeSlot))
      ensures HandedOver(old(world), world, old(activeSlot), slot)
    {
      if activeSlot.Some? {
        assert world.bodies[activeSlot.value].core.refs != 0;
        world := Released(world, activeSlot);
      }
      activeSlot := slot;
      if activeSlot.Some? {
        assert world.bodies[activeSlot.value].core.refs != 0;
        world := Counted(world, activeSlot);
      }
    }
  }

  class SlotCallIterator<X(!new), T> {
    const list: seq<nat>
    const cache: SlotCallIteratorCache<X, T>
    var iter: nat
    var callableIter: nat

    /** The iterator stands on a callable body, counted as active, or at the end, where none is. */
    ghost predicate Valid()
      reads this, cache
    {
      && Respectful(cache.run, cache.others, cache.extra) && CountsOk(cache.extra, cache.world, cache.activeSlot)
      && (forall k :: 0 <= k < |list| ==> list[k] < |cache.world.bodies|)
      && iter == callableIter <= |list| && |cache.visits| == iter
      && cache.activeSlot == (if iter < |list| then Some(list[iter]) else None)
      && (iter < |list| ==>
            CallableIn(cache.tested, list[iter])
            && cache.trackedPtrs == HeldObjects(cache.tested.bodies[list[iter]].tracked))
      && cache.connectedSlotCount + cache.disconnectedSlotCount == (if iter < |list| then iter + 1 else iter)
      && cache.connectedSlotCount == ConnectedCount(cache.visits, list) + (if iter < |list| then 1 else 0)
    }

    /** What is still to come, when the position the iterator is at has not been run yet. */
    ghost function Rest(): (seq<Visit<X, T>>, World<X>)
      requires iter <= |list|
      reads this, cache
    {
      if iter == |list| then ([], cache.world)
      else RunAt(cache.run, cache.others, list, iter, cache.tested, cache.world)
    }

    /** The begin iterator. Its constructor already looks for the first callable slot. */
    constructor (list: seq<nat>, cache: SlotCallIteratorCache<X, T>)
      requires Respectful(cache.run, cache.others, cache.extra) && CountsOk(cache.extra, cache.world, None)
      requires cache.activeSlot == None
      requires cache.visits == []
      requires forall k :: 0 <= k < |list| ==> list[k] < |cache.world.bodies|
      requires cache.result == None && cache.connectedSlotCount == 0 && cache.disconnectedSlotCount == 0
      modifies cache
      ensures Valid() && this.list == list && this.cache == cache && cache.result == None && NotCalled(cache.visits, 0)
      ensures Continues(Fold(cache.run, cache.others, list, 0, old(cache.world), None), cache.visits, 0, Rest())
    {
      this.list, this.cache, iter, callableIter := list, cache, 0, |list|;
      new;
      LockNextCallable();
    }

    /** `lock_next_callable`: tests body after body until one is callable. */
    method LockNextCallable()
      requires Respectful(cache.run, cache.others, cache.extra) && CountsOk(cache.extra, cache.world, cache.activeSlot)
      requires forall k :: 0 <= k < |list| ==> list[k] < |cache.world.bodies|
      requires iter <= |list| && |cache.visits| == iter && callableIter <= |list|
      requires cache.activeSlot == if callableIter < |list| then Some(list[callableIter]) else None
      requires iter != callableIter || iter == |list|
      requires cache.connectedSlotCount + cache.disconnectedSlotCount == iter
      requires cache.connectedSlotCount == ConnectedCount(cache.visits, list)
      modifies this`iter, this`callableIter, cache`world, cache`activeSlot, cache`connectedSlotCount
      modifies cache`disconnectedSlotCount
      modifies cache`visits, cache`tested, cache`trackedPtrs
      ensures Valid() && iter >= old(iter)
      ensures old(cache.visits) <= cache.visits && NotCalled(cache.visits, old(iter))
      ensures Continues(Fold(cache.run, cache.others, list, old(iter), old(cache.world), old(cache.activeSlot)),
                        cache.visits, old(iter), Rest())
    {
      hide Fold, RunAt, Continues, ConnectedCount, Respectful, Released, Counted;
      ghost var visits, active, from := cache.visits, cache.activeSlot, iter;
      ghost var was := Fold(cache.run, cache.others, list, iter, cache.world, active);
      WalkBegins(was, visits);
      FoldEnds(cache.run, cache.others, list, cache.world, active);
      if iter == callableIter { return; }
      while iter != |list|
        invariant from <= iter <= |list| && |cache.visits| == iter && visits <= cache.visits
        invariant NotCalled(cache.visits, from)
        invariant callableIter == old(callableIter) && cache.activeSlot == active
        invariant CountsOk(cache.extra, cache.world, active)
        invariant forall k :: 0 <= k < |list| ==> list[k] < |cache.world.bodies|
        invariant cache.connectedSlotCount + cache.disconnectedSlotCount == iter
        invariant cache.connectedSlotCount == ConnectedCount(cache.visits, list)
        invariant Continues(was, cache.visits, from, Fold(cache.run, cache.others, list, iter, cache.world, active))
        decreases |list| - iter
      {
        ghost var before := Fold(cache.run, cache.others, list, iter, cache.world, active);
        var callable := TestOne();
        if callable { return; }
        ghost var v: Visit<X, T> := Visit(cache.world, None);
        WalkContinues(was, cache.visits, from, v, before,
          Fold(cache.run, cache.others, list, iter + 1, cache.world, active));
        CountOneMore(cache.visits, v, list);
        cache.visits := cache.visits + [v];
        iter := iter + 1;
      }
      FoldEnds(cache.run, cache.others, list, cache.world, active);
      if callableIter != |list| {
        callableIter := |list|;
        cache.SetActiveSlot(None);
      }
    }

    /**
     `dereference`: runs the slot unless its result is cached. A slot that throws is disconnected, and leaves
     nothing in the cache.
     */
    method Dereference() returns (r: Outcome<T>)
      requires Valid() && iter < |list|
      modifies cache`world, cache`result, cache`call
      ensures Valid() && cache.activeSlot == old(cache.activeSlot)
      ensures old(cache.result).Some? ==>
        r == Returned(old(cache.result).value) && cache.world == old(cache.world) && cache.result == old(cache.result)
        && cache.call == old(cache.call)
      ensures old(cache.result).None? ==>
        && cache.call == Some(cache.run(old(cache.world), list[iter])) && r == cache.call.value.1
        && cache.world == AfterCall(cache.call.value, list[iter])
        && (r.Returned? ==> cache.world == cache.call.value.0)
        && (r.Expired? ==> CutsOff(cache.call.value.0, cache.world, list[iter]))
        && cache.result == (match r case Returned(v) => Some(v) case Expired => None)
    {
      if cache.result.None? {
        RunKeeps(cache.run, cache.others, cache.extra, cache.world, list[iter]);
        var (world, outcome) := cache.run(cache.world, list[iter]);
        cache.world := world;
        cache.call := Some((world, outcome));
        match outcome
        case Returned(value) => cache.result := Some(value);
        case Expired =>
          cache.world := Disconnect(cache.world, list[iter]);
          return Expired;
      }
      return Returned(cache.result.value);
    }

    /** `increment`: the next callable slot is locked before the cached result is dropped. */
    method Increment()
      requires Valid() && iter < |list|
      modifies this, cache
      ensures Valid() && iter > old(iter) && cache.result == None
      ensures old(cache.visits) + [Visit(old(cache.tested), old(cache.call))] <= cache.visits
      ensures NotCalled(cache.visits, old(iter) + 1)
      ensures Continues(Fold(cache.run, cache.others, list, old(iter) + 1, old(cache.world), old(cache.activeSlot)),
                        cache.visits, old(iter) + 1, Rest())
    {
      ghost var v := Visit(cache.tested, cache.call);
      CountOneMore(cache.visits, v, list);
      cache.visits := cache.visits + [v];
      iter := iter + 1;
      LockNextCallable();
      cache.result := None;
    }

    /** The body of the loop: looks at the body the iterator is at, and stays there if it is callable. */
    method TestOne() returns (callable: bool)
      requires Respectful(cache.run, cache.others, cache.extra) && CountsOk(cache.extra, cache.world, cache.activeSlot)
      requires forall k :: 0 <= k < |list| ==> list[k] < |cache.world.bodies|
      requires iter < |list| && |cache.visits| == iter
      requires cache.connectedSlotCount + cache.disconnectedSlotCount == iter
      requires cache.connectedSlotCount == ConnectedCount(cache.visits, list)
      modifies this`callableIter, cache`world, cache`activeSlot, cache`connectedSlotCount, cache`disconnectedSlotCount
      modifies cache`tested, cache`trackedPtrs
      ensures callable ==>
        Valid() && Fold(cache.run, cache.others, list, iter, old(cache.world), old(cache.activeSlot)) == Rest()
      ensures !callable ==>
        && callableIter == old(callableIter) && cache.activeSlot == old(cache.activeSlot)
        && CountsOk(cache.extra, cache.world, cache.activeSlot)
        && (forall k :: 0 <= k < |list| ==> list[k] < |cache.world.bodies|)
        && cache.connectedSlotCount + cache.disconnectedSlotCount == iter + 1
        && cache.connectedSlotCount ==
           ConnectedCount(cache.visits, list) + (if IsConnected(cache.world, list[iter]) then 1 else 0)
        && var was := Fold(cache.run, cache.others, list, iter, old(cache.world), old(cache.activeSlot));
           var rest := Fold(cache.run, cache.others, list, iter + 1, cache.world, cache.activeSlot);
           was.0 == [Visit(cache.world, None)] + rest.0 && was.1 == rest.1
    {
      hide ConnectedCount, HeldObjects, Probe;
      OthersKeep(cache.run, cache.others, cache.extra, cache.world, cache.activeSlot);
      ProbeKeeps(cache.extra, cache.others(cache.world), cache.activeSlot, list[iter]);
      cache.world := cache.others(cache.world);
      cache.GrabTracked(list[iter]);
      cache.tested := cache.world;
      if IsConnected(cache.world, list[iter]) {
        cache.connectedSlotCount := cache.connectedSlotCount + 1;
      } else {
        cache.disconnectedSlotCount := cache.disconnectedSlotCount + 1;
      }
      callable := CallableIn(cache.world, list[iter]);
      if callable {
        callableIter := iter;
        cache.SetActiveSlot(Some(list[iter]));
      }
    }
  }

  // ---------------------------------------------------------------- combiners

  /** The loop of `optional_last_value`. */
  method OptionalLastValue<X(!new), T>(first: SlotCallIterator<X, T>) returns (value: Option<T>)
    requires first.Valid() && first.cache.result == None
    modifies first, first.cache
    ensures first.Valid() && first.iter == |first.list|
    ensures first.cache.visits == old(first.cache.visits + first.Rest().0) && first.cache.world == old(first.Rest().1)
    ensures value == LastReturned(old(first.Rest().0))
  {
    hide Fold, RunAt, ConnectedCount, Respectful, Released, Counted, CountsOk, LastReturned, Continues, NotCalled;
    ghost var rest, begun := first.Rest(), |first.cache.visits|;
    ghost var all := first.cache.visits + rest.0;
    value := None;
    NothingReturned(first.cache.visits);
    while first.iter != |first.list|
      invariant first.Valid() && first.cache.result == None
      invariant begun <= |first.cache.visits| && all == first.cache.visits + first.Rest().0 && rest.1 == first.Rest().1
      invariant value == LastReturned(first.cache.visits[begun..])
      decreases |first.list| - first.iter
    {
      ghost var visits := first.cache.visits;
      var r, v := VisitNext(first);
      if r.Returned? { value := Some(r.value); }
      LastReturnedSkips(visits, begun, v, first.cache.visits);
    }
    assert all[begun..] == rest.0;
  }

  datatype Answer<T> = Answer(value: T) | NoSlotsError

  /** `last_value`: the same loop, with the exception `no_slots_error` when there is nothing to return. */
  method LastValue<X(!new), T>(first: SlotCallIterator<X, T>) returns (answer: Answer<T>)
    requires first.Valid() && first.cache.result == None
    modifies first, first.cache
    ensures first.Valid() && first.iter == |first.list|
    ensures first.cache.visits == old(first.cache.visits + first.Rest().0) && first.cache.world == old(first.Rest().1)
    ensures answer == match LastReturned(old(first.Rest().0)) case Some(v) => Answer(v) case None => NoSlotsError
  {
    hide Fold, RunAt, ConnectedCount, Respectful, Released, Counted, CountsOk, LastReturned, Continues, NotCalled;
    ghost var rest, begun := first.Rest(), |first.cache.visits|;
    ghost var all := first.cache.visits + rest.0;
    NothingReturned(first.cache.visits);
    NothingReturned(rest.0);
    if first.iter == |first.list| {
      assert rest.0 == rest.0[|rest.0|..];
      return NoSlotsError;
    }
    var value: Option<T> := None;
    while first.iter != |first.list|
      invariant first.Valid() && first.cache.result == None
      invariant begun <= |first.cache.visits| && all == first.cache.visits + first.Rest().0 && rest.1 == first.Rest().1
      invariant value == LastReturned(first.cache.visits[begun..])
      decreases |first.list| - first.iter
    {
      ghost var visits := first.cache.visits;
      var r, v := VisitNext(first);
      if r.Returned? { value := Some(r.value); }
      LastReturnedSkips(visits, begun, v, first.cache.visits);
    }
    assert all[begun..] == rest.0;
    if value.Some? { return Answer(value.value); }
    return NoSlotsError;
  }

  /** What both loops do in a turn: `*first`, then `++first`, whether it threw or not. */
  method VisitNext<X(!new), T>(first: SlotCallIterator<X, T>) returns (r: Outcome<T>, ghost v: Visit<X, T>)
    requires first.Valid() && first.cache.result == None && first.iter < |first.list|
    modifies first, first.cache
    ensures first.Valid() && first.iter > old(first.iter) && first.cache.result == None
    ensures v.call.Some? && v.call.value.1 == r && old(first.cache.visits) + [v] <= first.cache.visits
    ensures NotCalled(first.cache.visits, |old(first.cache.visits)| + 1)
    ensures old(first.cache.visits + first.Rest().0) == first.cache.visits + first.Rest().0
    ensures old(first.Rest().1) == first.Rest().1
  {
    hide Fold, RunAt, ConnectedCount, Respectful, Released, Counted, CountsOk, Continues, NotCalled;
    ghost var cache, list, p := first.cache, first.list, first.iter;
    ghost var visits := cache.visits;
    RunAtIs(cache.run, cache.others, list, p, cache.tested, cache.world);
    r := first.Dereference();
    v := Visit(cache.tested, cache.call);
    ghost var rest := Fold(cache.run, cache.others, list, p + 1, cache.world, cache.activeSlot);
    first.Increment();
    Joined(visits, v, cache.visits, rest, first.Rest());
  }

  /**
   An invocation with `optional_last_value`: what it returns, the world it leaves, and what the janitor will compare.
   */
  method Invoke<X(!new), T>(run: Slots<X, T>, others: Others<X>, ghost extra: Extra<X>, list: seq<nat>, start: World<X>)
    returns (value: Option<T>, world: World<X>, connected: nat, disconnected: nat)
    requires Respectful(run, others, extra) && CountsOk(extra, start, None)
    requires forall k :: 0 <= k < |list| ==> list[k] < |start.bodies|
    ensures var (visits, end) := Fold(run, others, list, 0, start, None);
      && value == LastReturned(visits) && world == end && CountsOk(extra, world, None)
      && connected == ConnectedCount(visits, list) && connected + disconnected == |list|
  {
    hide Fold, RunAt, ConnectedCount, Respectful, Released, Counted, LastReturned, NotCalled;
    var cache := new SlotCallIteratorCache<X, T>(run, others, start, extra);
    CountNone<X, T>(list);
    var first := new SlotCallIterator(list, cache);
    ghost var walk := Fold(run, others, list, 0, start, None);
    ghost var visits, rest := cache.visits, first.Rest();
    assert walk.0 == visits + rest.0;
    NotReturned(visits);
    value := OptionalLastValue(first);
    LastReturnedAfter(visits, rest.0);
    connected, disconnected := cache.connectedSlotCount, cache.disconnectedSlotCount;
    FoldEnds(run, others, list, cache.world, None);
    cache.Destroy();
    world := cache.world;
  }

  // ---------------------------------------------------------------- what the fold says

  /**
   The body counted as active when position `p + k` is reached: the last one that was called, or the one before the
   walk.
   */
  function ActiveBefore<X, T>(visits: seq<Visit<X, T>>, list: seq<nat>, p: nat, k: nat, active: Option<nat>)
    : Option<nat>
    requires k <= |visits| && p + |visits| <= |list|
  {
    if k == 0 then active
    else if visits[k - 1].call.Some? then Some(list[p + k - 1])
    else ActiveBefore(visits, list, p, k - 1, active)
  }

  /** The world position `p + k` finds. */
  function WorldBefore<X, T>(visits: seq<Visit<X, T>>, list: seq<nat>, p: nat, k: nat, w: World<X>): World<X>
    requires k <= |visits| && p + |visits| <= |list|
  {
    if k == 0 then w else After(visits[k - 1], list[p + k - 1])
  }

  /**
   The walk, position by position: each body of the list is tested once, in order, in the world that was left when
   the call before it had returned; it is called exactly when it is connected, not blocked and none of its objects has
   expired; and the body called last stays counted until then.
   */
  lemma {:induction false} FoldShape<X, T>(run: Slots<X, T>, others: Others<X>, list: seq<nat>, p: nat, w: World<X>,
                                           active: Option<nat>, k: nat)
    requires p + k < |list|
    ensures var visits := Fold(run, others, list, p, w, active).0;
      var v, b := visits[k], list[p + k];
      && v.tested == Probe(others(WorldBefore(visits, list, p, k, w)), b)
      && (v.call.Some? <==> CallableIn(v.tested, b))
      && (v.call.Some? ==>
           v.call.value == run(Counted(Released(v.tested, ActiveBefore(visits, list, p, k, active)), Some(b)), b))
    decreases k
  {
    hide Fold, RunAt, Probe, CallableIn, After, Released, Counted, ActiveBefore;
    FoldStep(run, others, list, p, w, active);
    var v := VisitOf(run, others, list[p], w, active);
    var next, a := After(v, list[p]), if v.call.Some? then Some(list[p]) else active;
    var visits, rest := Fold(run, others, list, p, w, active).0, Fold(run, others, list, p + 1, next, a).0;
    if k == 0 {
      NoneBefore(visits, list, p, w, active);
    } else {
      FoldShape(run, others, list, p + 1, next, a, k - 1);
      ActiveShifts(visits, rest, list, p, k, active, a);
    }
  }

  /** What a visit leaves: what the slot left when it returned, that with its body cut off when it threw. */
  ghost predicate Leaves<X, T>(v: Visit<X, T>, b: nat, w: World<X>) {
    match v.call
    case None => w == v.tested
    case Some((left, Returned(_))) => w == left
    case Some((left, Expired)) => CutsOff(left, w, b)
  }

  /** The world a position finds is the one that the visit before it left. */
  lemma {:induction false} WorldLeft<X(!new), T>(run: Slots<X, T>, others: Others<X>, extra: Extra<X>, list: seq<nat>,
                                                 p: nat, w: World<X>, active: Option<nat>, k: nat)
    requires Respectful(run, others, extra) && CountsOk(extra, w, active) && p + k < |list|
    requires forall l :: p <= l < |list| ==> list[l] < |w.bodies|
    ensures var visits := Fold(run, others, list, p, w, active).0;
      && WorldBefore(visits, list, p, 0, w) == w
      && Leaves(visits[k], list[p + k], WorldBefore(visits, list, p, k + 1, w))
    decreases k
  {
    hide Fold, RunAt, VisitOf, After, CountsOk, Respectful, Leaves, WorldBefore;
    FoldStep(run, others, list, p, w, active);
    VisitKeeps(run, others, extra, list[p], w, active);
    var v := VisitOf(run, others, list[p], w, active);
    var next, a := After(v, list[p]), if v.call.Some? then Some(list[p]) else active;
    var visits, rest := Fold(run, others, list, p, w, active).0, Fold(run, others, list, p + 1, next, a).0;
    NoneBefore(visits, list, p, w, active);
    NoneBefore(rest, list, p + 1, next, a);
    WorldShifts(visits, rest, list, p, k + 1, w, next);
    if k > 0 { WorldLeft(run, others, extra, list, p + 1, next, a, k - 1); }
  }

  /** At the end of the walk the count of the body called last is given up, and nothing else has changed since. */
  lemma {:induction false} WalkGivesUp<X(!new), T>(run: Slots<X, T>, others: Others<X>, extra: Extra<X>, list: seq<nat>,
                                                   p: nat, w: World<X>, active: Option<nat>)
    requires Respectful(run, others, extra) && CountsOk(extra, w, active) && p <= |list|
    requires forall l :: p <= l < |list| ==> list[l] < |w.bodies|
    ensures var (visits, end) := Fold(run, others, list, p, w, active);
      var n := |list| - p;
      HandedOver(WorldBefore(visits, list, p, n, w), end, ActiveBefore(visits, list, p, n, active), None)
    decreases |list| - p
  {
    hide Fold, RunAt, VisitOf, After, CountsOk, Respectful, HandedOver, ActiveBefore, WorldBefore, Released;
    var visits := Fold(run, others, list, p, w, active).0;
    if p == |list| {
      FoldEnds(run, others, list, w, active);
      NoneBefore(visits, list, p, w, active);
      ReleasedIs(extra, w, active);
    } else {
      FoldStep(run, others, list, p, w, active);
      VisitKeeps(run, others, extra, list[p], w, active);
      var v := VisitOf(run, others, list[p], w, active);
      var next, a := After(v, list[p]), if v.call.Some? then Some(list[p]) else active;
      var rest := Fold(run, others, list, p + 1, next, a).0;
      ActiveShifts(visits, rest, list, p, |list| - p, active, a);
      WorldShifts(visits, rest, list, p, |list| - p, w, next);
      WalkGivesUp(run, others, extra, list, p + 1, next, a);
    }
  }

  lemma ReleasedIs<X>(extra: Extra<X>, w: World<X>, active: Option<nat>)
    requires CountsOk(extra, w, active)
    ensures HandedOver(w, Released(w, active), active, None)
  {}

  lemma WorldShifts<X, T>(visits: seq<Visit<X, T>>, rest: seq<Visit<X, T>>, list: seq<nat>, p: nat, k: nat, w: World<X>,
                          next: World<X>)
    requires visits != [] && rest == visits[1..] && 0 < k <= |visits| && p + |visits| <= |list|
    requires next == After(visits[0], list[p])
    ensures WorldBefore(visits, list, p, k, w) == WorldBefore(rest, list, p + 1, k - 1, next)
  {}

  lemma NoneBefore<X, T>(visits: seq<Visit<X, T>>, list: seq<nat>, p: nat, w: World<X>, active: Option<nat>)
    requires p + |visits| <= |list|
    ensures ActiveBefore(visits, list, p, 0, active) == active && WorldBefore(visits, list, p, 0, w) == w
  {}

  /** The visit of a body found in a world. */
  function VisitOf<X, T>(run: Slots<X, T>, others: Others<X>, b: nat, w: World<X>, active: Option<nat>): Visit<X, T> {
    var t := Probe(others(w), b);
    Visit(t, if CallableIn(t, b) then Some(run(Counted(Released(t, active), Some(b)), b)) else None)
  }

  lemma FoldStep<X, T>(run: Slots<X, T>, others: Others<X>, list: seq<nat>, p: nat, w: World<X>, active: Option<nat>)
    requires p < |list|
    ensures var v := VisitOf(run, others, list[p], w, active);
      var rest := Fold(run, others, list, p + 1, After(v, list[p]), if v.call.Some? then Some(list[p]) else active);
      Fold(run, others, list, p, w, active) == ([v] + rest.0, rest.1)
  {
    var t := Probe(others(w), list[p]);
    if CallableIn(t, list[p]) {
      RunAtIs(run, others, list, p, t, Counted(Released(t, active), Some(list[p])));
    }
  }

  /** A visit keeps the counts, brings nothing back, and leaves a slot that threw disconnected. */
  lemma VisitKeeps<X(!new), T>(run: Slots<X, T>, others: Others<X>, extra: Extra<X>, b: nat, w: World<X>,
                               active: Option<nat>)
    requires Respectful(run, others, extra) && CountsOk(extra, w, active) && b < |w.bodies|
    ensures var v := VisitOf(run, others, b, w, active);
      && CountsOk(extra, After(v, b), if v.call.Some? then Some(b) else active) && Onward(w, After(v, b))
      && Leaves(v, b, After(v, b)) && (v.call.Some? && v.call.value.1.Expired? ==> !IsConnected(After(v, b), b))
  {
    hide Respectful;
    var t := Probe(others(w), b);
    OthersKeep(run, others, extra, w, active);
    ProbeKeeps(extra, others(w), active, b);
    if CallableIn(t, b) {
      var s := Counted(Released(t, active), Some(b));
      CountKeeps(extra, t, active, b);
      RunKeeps(run, others, extra, s, b);
    }
  }

  lemma CountKeeps<X>(extra: Extra<X>, t: World<X>, active: Option<nat>, b: nat)
    requires CountsOk(extra, t, active) && IsConnected(t, b)
    ensures var s := Counted(Released(t, active), Some(b));
      CountsOk(extra, s, Some(b)) && Onward(t, s) && HandedOver(t, s, active, Some(b))
  {}

  /** A body passes its test exactly when it is connected and not blocked and no object it tracks has expired. */
  lemma CallableIff<X>(extra: Extra<X>, w: World<X>, active: Option<nat>, b: nat)
    requires CountsOk(extra, w, active) && b < |w.bodies|
    ensures CallableIn(Probe(w, b), b) <==> w.bodies[b].core.connected && !w.bodies[b].blocked && !HasExpired(w, b)
  {}

  lemma {:induction false} ActiveShifts<X, T>(visits: seq<Visit<X, T>>, rest: seq<Visit<X, T>>, list: seq<nat>, p: nat,
                                              k: nat, active: Option<nat>, a: Option<nat>)
    requires visits != [] && rest == visits[1..] && 0 < k <= |visits| && p + |visits| <= |list|
    requires a == if visits[0].call.Some? then Some(list[p]) else active
    ensures ActiveBefore(visits, list, p, k, active) == ActiveBefore(rest, list, p + 1, k - 1, a)
  {
    if k > 1 { ActiveShifts(visits, rest, list, p, k - 1, active, a); }
  }

  /** An invocation leaves no count behind and brings nothing back. */
  lemma {:induction false} FoldKeepsCounts<X(!new), T>(run: Slots<X, T>, others: Others<X>, extra: Extra<X>,
                                                       list: seq<nat>, p: nat, w: World<X>, active: Option<nat>)
    requires Respectful(run, others, extra) && CountsOk(extra, w, active) && p <= |list|
    requires forall k :: p <= k < |list| ==> list[k] < |w.bodies|
    ensures var end := Fold(run, others, list, p, w, active).1;
      && CountsOk(extra, end, None) && Onward(w, end)
      && forall b :: 0 <= b < |end.bodies| ==>
           end.bodies[b].core.refs == (if end.bodies[b].core.connected then 1 else 0) + extra(end.rest, b)
    decreases |list| - p
  {
    if p == |list| {
      FoldEnds(run, others, list, w, active);
    } else {
      hide Fold, RunAt, VisitOf, After, CountsOk, Respectful;
      FoldStep(run, others, list, p, w, active);
      VisitKeeps(run, others, extra, list[p], w, active);
      var v := VisitOf(run, others, list[p], w, active);
      var next, a := After(v, list[p]), if v.call.Some? then Some(list[p]) else active;
      FoldKeepsCounts(run, others, extra, list, p + 1, next, a);
    }
  }

  /** A slot that threw `expired_slot` ends up disconnected. */
  lemma {:induction false} ThrewIsDisconnected<X(!new), T>(run: Slots<X, T>, others: Others<X>, extra: Extra<X>,
                                                           list: seq<nat>, p: nat, w: World<X>, active: Option<nat>,
                                                           k: nat)
    requires Respectful(run, others, extra) && CountsOk(extra, w, active) && p + k < |list|
    requires forall k :: p <= k < |list| ==> list[k] < |w.bodies|
    ensures var (visits, end) := Fold(run, others, list, p, w, active);
      visits[k].call.Some? && visits[k].call.value.1.Expired? ==> !IsConnected(end, list[p + k])
    decreases k
  {
    hide Fold, RunAt, VisitOf, After, CountsOk, Respectful;
    FoldStep(run, others, list, p, w, active);
    VisitKeeps(run, others, extra, list[p], w, active);
    var v := VisitOf(run, others, list[p], w, active);
    var next, a := After(v, list[p]), if v.call.Some? then Some(list[p]) else active;
    if k == 0 { FoldKeepsCounts(run, others, extra, list, p + 1, next, a); }
    else { ThrewIsDisconnected(run, others, extra, list, p + 1, next, a, k - 1); }
  }

  /** `last_value` has nothing to return exactly when no slot returned. */
  lemma {:induction false} NothingReturnedIff<X, T>(visits: seq<Visit<X, T>>)
    ensures LastReturned(visits).None? <==>
      forall k :: 0 <= k < |visits| && visits[k].call.Some? ==> visits[k].call.value.1.Expired?
  {
    if visits != [] {
      var n := |visits| - 1;
      NothingReturnedIff(visits[..n]);
      assert forall k :: 0 <= k < n ==> visits[..n][k] == visits[k];
    }
  }

  /** What `last_value` returns is what some slot returned, and all slots called after that one threw. */
  lemma {:induction false} LastReturnedIs<X, T>(visits: seq<Visit<X, T>>)
    ensures LastReturned(visits).Some? ==>
      exists k :: 0 <= k < |visits| && visits[k].call.Some?
        && visits[k].call.value.1 == Returned(LastReturned(visits).value)
        && forall l :: k < l < |visits| && visits[l].call.Some? ==> visits[l].call.value.1.Expired?
  {
    if visits != [] {
      var n := |visits| - 1;
      LastReturnedIs(visits[..n]);
      assert forall k :: 0 <= k < n ==> visits[..n][k] == visits[k];
      if LastReturned(visits).Some? && visits[n].call.Some? && visits[n].call.value.1.Returned? {
        assert visits[n].call.value.1 == Returned(LastReturned(visits).value);
      }
    }
  }

  /** The positions at which a connected body was found. */
  ghost function ConnectedAt<X, T>(visits: seq<Visit<X, T>>, list: seq<nat>): set<nat>
    requires |visits| <= |list|
  {
    set k: nat | k < |visits| && list[k] < |visits[k].tested.bodies| && visits[k].tested.bodies[list[k]].core.connected
  }

  /** What the janitor compares: as many as there are positions at which the body was found connected. */
  lemma {:induction false} ConnectedCountIs<X, T>(visits: seq<Visit<X, T>>, list: seq<nat>)
    requires |visits| <= |list|
    ensures ConnectedCount(visits, list) == |ConnectedAt(visits, list)|
  {
    if visits != [] {
      var n := |visits| - 1;
      ConnectedCountIs(visits[..n], list);
      assert ConnectedAt(visits[..n], list) == ConnectedAt(visits, list) - {n};
    }
  }

  /** The places of the objects that can be held. */
  ghost function Ordinary(tracked: seq<Tracked>): set<nat> { set k: nat | k < |tracked| && !tracked[k].trackable }

  /** The cache holds one pointer for each tracked object that is not of the kind that is never held, and no others. */
  lemma {:induction false} HeldObjectsAre(tracked: seq<Tracked>, o: nat)
    ensures |HeldObjects(tracked)| == |Ordinary(tracked)|
    ensures o in HeldObjects(tracked) <==>
      exists k :: 0 <= k < |tracked| && !tracked[k].trackable && tracked[k].obj == o
  {
    if tracked != [] {
      var n := |tracked| - 1;
      HeldObjectsAre(tracked[..n], o);
      assert Ordinary(tracked[..n]) == Ordinary(tracked) - {n};
    }
  }

  // ---------------------------------------------------------------- facts the methods use

  lemma OthersKeep<X(!new), T>(run: Slots<X, T>, others: Others<X>, extra: Extra<X>, w: World<X>, a: Option<nat>)
    requires Respectful(run, others, extra) && CountsOk(extra, w, a)
    ensures CountsOk(extra, others(w), a) && Onward(w, others(w))
  {}

  lemma RunKeeps<X(!new), T>(run: Slots<X, T>, others: Others<X>, extra: Extra<X>, w: World<X>, b: nat)
    requires Respectful(run, others, extra) && CountsOk(extra, w, Some(b))
    ensures var call := run(w, b);
      && CountsOk(extra, call.0, Some(b)) && Onward(w, call.0) && CountsOk(extra, AfterCall(call, b), Some(b))
      && Onward(w, AfterCall(call, b))
  {}

  lemma ProbeKeeps<X>(extra: Extra<X>, w: World<X>, a: Option<nat>, b: nat)
    requires CountsOk(extra, w, a)
    ensures CountsOk(extra, Probe(w, b), a) && Onward(w, Probe(w, b))
  {}

  /** A body whose slot tracks an expired object is disconnected, and nothing else ever happens. */
  lemma ProbeIs<X>(extra: Extra<X>, w: World<X>, a: Option<nat>, b: nat)
    requires CountsOk(extra, w, a) && b < |w.bodies|
    ensures var ts := w.bodies[b].tracked;
      if w.bodies[b].core.slot && exists k :: 0 <= k < |ts| && ts[k].obj !in w.owned
      then CutsOff(w, Probe(w, b), b) else Probe(w, b) == w
  {}

  lemma NothingReturned<X, T>(visits: seq<Visit<X, T>>)
    ensures LastReturned(visits[|visits|..]) == None
  {}

  lemma {:induction false} NotReturned<X, T>(visits: seq<Visit<X, T>>)
    requires NotCalled(visits, 0)
    ensures LastReturned(visits) == None
  {
    if visits != [] { NotReturned(visits[..|visits| - 1]); }
  }

  lemma {:induction false} LastReturnedAfter<X, T>(visits: seq<Visit<X, T>>, rest: seq<Visit<X, T>>)
    requires LastReturned(visits) == None
    ensures LastReturned(visits + rest) == LastReturned(rest)
  {
    if rest == [] {
      assert visits + rest == visits;
    } else {
      var n := |rest| - 1;
      LastReturnedAfter(visits, rest[..n]);
      assert (visits + rest)[..|visits| + n] == visits + rest[..n];
    }
  }

  lemma CountNone<X, T>(list: seq<nat>)
    ensures ConnectedCount<X, T>([], list) == 0
  {}

  /** Visits without a call change nothing about what was returned last. */
  lemma {:induction false} LastReturnedSkips<X, T>(visits: seq<Visit<X, T>>, begun: nat, v: Visit<X, T>,
                                                   more: seq<Visit<X, T>>)
    requires begun <= |visits| && visits + [v] <= more && NotCalled(more, |visits| + 1)
    ensures LastReturned(more[begun..]) ==
      match v.call case Some((_, Returned(x))) => Some(x) case _ => LastReturned(visits[begun..])
  {
    var n := |more| - 1;
    if n == |visits| {
      assert more[begun..] == visits[begun..] + [v];
    } else {
      LastReturnedSkips(visits, begun, v, more[..n]);
      assert more[begun..][..n - begun] == more[..n][begun..];
    }
  }

  lemma RunAtIs<X, T>(run: Slots<X, T>, others: Others<X>, list: seq<nat>, p: nat, t: World<X>, w: World<X>)
    requires p < |list|
    ensures var call := run(w, list[p]);
      var rest := Fold(run, others, list, p + 1, AfterCall(call, list[p]), Some(list[p]));
      RunAt(run, others, list, p, t, w) == ([Visit(t, Some(call))] + rest.0, rest.1)
  {}

  lemma Joined<X, T>(visits: seq<Visit<X, T>>, v: Visit<X, T>, more: seq<Visit<X, T>>,
                     walk: (seq<Visit<X, T>>, World<X>), rest: (seq<Visit<X, T>>, World<X>))
    requires visits + [v] <= more && Continues(walk, more, |visits| + 1, rest)
    ensures visits + ([v] + walk.0) == more + rest.0 && walk.1 == rest.1
  {
    assert more == more[..|visits| + 1] + more[|visits| + 1..];
  }

  lemma WalkBegins<X, T>(walk: (seq<Visit<X, T>>, World<X>), visits: seq<Visit<X, T>>)
    ensures Continues(walk, visits, |visits|, walk)
  {}

  lemma WalkContinues<X, T>(walk: (seq<Visit<X, T>>, World<X>), visits: seq<Visit<X, T>>, from: nat, v: Visit<X, T>,
                            before: (seq<Visit<X, T>>, World<X>), rest: (seq<Visit<X, T>>, World<X>))
    requires Continues(walk, visits, from, before) && before.0 == [v] + rest.0 && before.1 == rest.1
    ensures Continues(walk, visits + [v], from, rest)
  {
    assert (visits + [v])[from..] == visits[from..] + [v];
  }

  lemma FoldEnds<X, T>(run: Slots<X, T>, others: Others<X>, list: seq<nat>, w: World<X>, active: Option<nat>)
    ensures Fold(run, others, list, |list|, w, active) == ([], Released(w, active))
    ensures |Released(w, active).bodies| == |w.bodies| && (active.None? ==> Released(w, active) == w)
  {}

  lemma CountOneMore<X, T>(visits: seq<Visit<X, T>>, v: Visit<X, T>, list: seq<nat>)
    requires |visits| < |list|
    ensures ConnectedCount(visits + [v], list) ==
      ConnectedCount(visits, list) + if IsConnected(v.tested, list[|visits|]) then 1 else 0
  {
    assert (visits + [v])[..|visits|] == visits;
  }
}
