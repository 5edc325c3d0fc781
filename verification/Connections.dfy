/**
 Connection bodies and the lock that delays destruction: a slot given up under the mutex is put aside
 and destroyed after the mutex is released. Tracked objects may lose their other owners at any moment.
 */
module Connections {
  import opened GroupKeys
  import opened BodyCores
  import opened Lists

  /** The mutex shared by a signal and its bodies. */
  class Mutex {
    var held: bool

    constructor ()
      ensures !held
    {
      held := false;
    }

    method Lock()
      requires !held
      modifies this
      ensures held
    {
      held := true;
    }

    method Unlock()
      requires held
      modifies this
      ensures !held
    {
      held := false;
    }
  }

  /**
   The objects that slots track and that other code keeps alive. Other threads may drop them between any two steps.
   */
  class Objects {
    var owned: set<nat>

    method Interfere()
      modifies this
      ensures owned <= old(owned)
    {
      var left :| left <= owned;
      owned := left;
    }
  }

  /** What locking a weak pointer gives: `trackable` objects are never held. */
  datatype Grabbed = Nothing | Hold(obj: nat)

  function ObjectsIn(grabbed: seq<Grabbed>): (r: set<nat>)
    ensures forall k :: 0 <= k < |grabbed| && grabbed[k].Hold? ==> grabbed[k].obj in r
  {
    set k | 0 <= k < |grabbed| && grabbed[k].Hold? :: grabbed[k].obj
  }

  /** `lock_weak_ptr_visitor`. */
  function Grab(t: Tracked, alive: set<nat>): (g: Grabbed)
    ensures g.Hold? <==> !t.trackable && t.obj in alive
    ensures g.Hold? ==> g.obj == t.obj
  {
    if t.trackable || t.obj !in alive then Nothing else Hold(t.obj)
  }

  ghost predicate AnyExpired(tracked: seq<Tracked>, alive: set<nat>) {
    exists k :: 0 <= k < |tracked| && tracked[k].obj !in alive
  }

  datatype LockResult = Locked(objects: seq<Grabbed>) | ExpiredSlot

  class Slot {
    const tracked: seq<Tracked>
    /** The body that was made to own this slot. */
    ghost const owner: object
    ghost var destroyed: bool

    constructor (tracked: seq<Tracked>, ghost owner: object)
      ensures this.tracked == tracked && this.owner == owner && !destroyed
    {
      this.tracked, this.owner, destroyed := tracked, owner, false;
    }

    /** The destructor runs code of the user: once, and never while the mutex is held. */
    method Destroy(mutex: Mutex)
      requires !destroyed && !mutex.held
      modifies this
      ensures destroyed
    {
      destroyed := true;
    }

    /**
     `slot_base::expired`. An object expired before the call makes it true, and when it is true an object has expired.
     */
    method Expired(objects: Objects) returns (r: bool)
      modifies objects
      ensures objects.owned <= old(objects.owned)
      ensures AnyExpired(tracked, old(objects.owned)) ==> r
      ensures r ==> AnyExpired(tracked, objects.owned)
    {
      for k := 0 to |tracked|
        invariant objects.owned <= old(objects.owned)
        invariant forall l :: 0 <= l < k ==> tracked[l].obj in old(objects.owned)
      {
        objects.Interfere();
        if tracked[k].obj !in objects.owned { return true; }
      }
      return false;
    }

    /** `slot_base::lock`: all objects held, or the exception because one has expired. */
    method Lock(objects: Objects) returns (r: LockResult)
      modifies objects
      ensures objects.owned <= old(objects.owned)
      ensures AnyExpired(tracked, old(objects.owned)) ==> r == ExpiredSlot
      ensures r.ExpiredSlot? ==> AnyExpired(tracked, objects.owned)
      ensures r.Locked? ==> |r.objects| == |tracked|
      ensures r.Locked? ==>
        forall k :: 0 <= k < |tracked| && !tracked[k].trackable ==> r.objects[k] == Hold(tracked[k].obj)
      ensures r.Locked? ==> forall k :: 0 <= k < |tracked| && tracked[k].trackable ==> r.objects[k] == Nothing
    {
      var locked: seq<Grabbed> := [];
      for k := 0 to |tracked|
        invariant objects.owned <= old(objects.owned)
        invariant |locked| == k && forall l :: 0 <= l < k && !tracked[l].trackable ==> locked[l] == Hold(tracked[l].obj)
        invariant forall l :: 0 <= l < k && tracked[l].trackable ==> locked[l] == Nothing
        invariant forall l :: 0 <= l < k ==> tracked[l].obj in old(objects.owned)
      {
        objects.Interfere();
        var g := Grab(tracked[k], objects.owned + ObjectsIn(locked));
        ghost var owned := objects.owned;
        objects.Interfere();
        if tracked[k].obj !in objects.owned + ObjectsIn(locked + [g]) { return ExpiredSlot; }
        GrabNext(tracked, k, locked, g, owned, objects.owned);
        locked := locked + [g];
      }
      return Locked(locked);
    }
  }

  /** An object found alive after an attempt to lock it was locked, unless it is never held; and it was alive before. */
  lemma GrabNext(tracked: seq<Tracked>, k: nat, locked: seq<Grabbed>, g: Grabbed, before: set<nat>, after: set<nat>)
    requires k < |tracked| && |locked| == k && after <= before
    requires forall l :: 0 <= l < k && !tracked[l].trackable ==> locked[l] == Hold(tracked[l].obj)
    requires forall l :: 0 <= l < k && tracked[l].trackable ==> locked[l] == Nothing
    requires g == Grab(tracked[k], before + ObjectsIn(locked)) && tracked[k].obj in after + ObjectsIn(locked + [g])
    ensures g == if tracked[k].trackable then Nothing else Hold(tracked[k].obj)
    ensures tracked[k].obj in before || exists l :: 0 <= l < k && tracked[l].obj == tracked[k].obj
  {
    var o := tracked[k].obj;
    if o in ObjectsIn(locked + [g]) && o !in before {
      var l :| 0 <= l <= k && (locked + [g])[l] == Hold(o);
      if l == k { assert o in ObjectsIn(locked); }
    }
    if o in ObjectsIn(locked) && o !in before {
      var l :| 0 <= l < k && locked[l] == Hold(o);
    }
  }

  /** Lives as long as the mutex is to be held. What is added is destroyed after the mutex is released. */
  class GarbageCollectingLock {
    const mutex: Mutex
    var garbage: seq<Slot>
    /** The slots that may be given up under this lock. */
    ghost const pool: set<Slot>

    /** The slots put aside are different ones, each still to be destroyed. */
    ghost predicate Valid()
      reads this, garbage, mutex
    {
      mutex.held && NoDup(garbage) && forall k :: 0 <= k < |garbage| ==> !garbage[k].destroyed && garbage[k] in pool
    }

    constructor (mutex: Mutex, ghost pool: set<Slot>)
      requires !mutex.held
      modifies mutex
      ensures Valid() && this.mutex == mutex && garbage == [] && this.pool == pool
    {
      this.mutex, this.pool := mutex, pool;
      garbage := [];
      new;
      mutex.Lock();
    }

    method AddTrash(slot: Slot)
      requires Valid() && !slot.destroyed && slot in pool && slot !in garbage
      modifies this`garbage
      ensures Valid() && garbage == old(garbage) + [slot]
    {
      garbage := garbage + [slot];
    }

    /** The destructor: members are destroyed in the reverse order of their declaration, the lock first. */
    method Destroy()
      requires Valid()
      modifies mutex, garbage
      ensures !mutex.held && forall k :: 0 <= k < |garbage| ==> garbage[k].destroyed
    {
      mutex.Unlock();
      for k := 0 to |garbage|
        invariant !mutex.held && garbage == old(garbage)
        invariant forall l :: 0 <= l < |garbage| ==> garbage[l].destroyed == (l < k)
      {
        garbage[k].Destroy(mutex);
      }
    }
  }

  /** The shared count behind a blocker. */
  class ControlBlock {
    var uses: nat
    /** The body it was made for. */
    ghost const owner: object

    constructor (ghost owner: object)
      ensures uses == 1 && this.owner == owner
    {
      uses, this.owner := 1, owner;
    }
  }

  class ConnectionBody<G> {
    var connected: bool
    var slotRefcount: nat
    var slot: Slot?
    const mutex: Mutex
    var groupKey: Key<G>
    var weakBlocker: ControlBlock?
    /** How many shared pointers to the body there are. Weak pointers to it expire at zero. */
    var references: nat

    ghost function GetCore(): Core
      reads this
    {
      Core(connected, slotRefcount, slot != null)
    }

    /** The count is right, and the slot, while it is there, is this body's own and intact. */
    ghost predicate Valid()
      reads this, slot
    {
      GetCore().Valid() && (slot != null ==> slot.owner == this && !slot.destroyed)
    }

    constructor (tracked: seq<Tracked>, mutex: Mutex)
      ensures Valid() && GetCore() == NEW_CORE && fresh(slot) && slot.tracked == tracked
      ensures this.mutex == mutex && groupKey == FrontUngrouped && weakBlocker == null && references == 1
    {
      this.mutex, groupKey := mutex, FrontUngrouped;
      connected, slotRefcount, weakBlocker, slot, references := true, 1, null, null, 1;
      new;
      slot := new Slot(tracked, this);
    }

    /** What giving up references to the slot does: it goes to the lock exactly when the body loses it. */
    twostate predicate Trashed(lock: GarbageCollectingLock)
      reads this, lock
    {
      lock.garbage == old(lock.garbage) + if old(slot) != null && slot == null then [old(slot)] else []
    }

    /** The slot may be given up under this lock, and has not been. */
    ghost predicate Keeps(lock: GarbageCollectingLock)
      reads this, lock
    {
      slot != null ==> slot in lock.pool && slot !in lock.garbage
    }

    method IncSlotRefcount(lock: GarbageCollectingLock)
      requires Valid() && slotRefcount != 0
      modifies this`slotRefcount
      ensures Valid() && GetCore() == old(GetCore()).Inc()
    {
      slotRefcount := slotRefcount + 1;
    }

    method DecSlotRefcount(lock: GarbageCollectingLock)
      requires Valid() && slotRefcount != 0 && lock.Valid() && Keeps(lock)
      modifies this`slotRefcount, this`slot, lock`garbage
      ensures GetCore() == old(GetCore()).Dec() && (slot == null || slot == old(slot))
      ensures !connected ==> Valid()
      ensures lock.Valid() && Trashed(lock)
    {
      slotRefcount := slotRefcount - 1;
      if slotRefcount == 0 {
        var released := ReleaseSlot();
        lock.AddTrash(released);
      }
    }

    method ReleaseSlot() returns (released: Slot)
      requires slot != null
      modifies this`slot
      ensures slot == null && released == old(slot)
    {
      released := slot;
      slot := null;
    }

    method NolockDisconnect(lock: GarbageCollectingLock)
      requires Valid() && lock.Valid() && Keeps(lock)
      modifies this`connected, this`slotRefcount, this`slot, lock`garbage
      ensures Valid() && GetCore() == old(GetCore()).Disconnect() && (slot == null || slot == old(slot))
      ensures lock.Valid() && Trashed(lock)
    {
      if connected {
        connected := false;
        DecSlotRefcount(lock);
      }
    }

    /** Takes the mutex, disconnects, and destroys the slot if this was its last use. */
    method Disconnect()
      requires Valid() && !mutex.held
      modifies this`connected, this`slotRefcount, this`slot, mutex, slot
      ensures Valid() && GetCore() == old(GetCore()).Disconnect() && (slot == null || slot == old(slot)) && !mutex.held
      ensures old(slot) != null ==> (old(slot).destroyed <==> slot == null)
    {
      var localLock := new GarbageCollectingLock(mutex, if slot == null then {} else {slot});
      NolockDisconnect(localLock);
      assert old(slot) != null && slot == null ==> localLock.garbage[0] == old(slot);
      localLock.Destroy();
    }

    method DisconnectExpiredSlot(lock: GarbageCollectingLock, objects: Objects)
      requires Valid() && lock.Valid() && Keeps(lock)
      modifies this`connected, this`slotRefcount, this`slot, lock`garbage, objects
      ensures Valid() && (slot == null || slot == old(slot)) && lock.Valid() && Trashed(lock)
      ensures objects.owned <= old(objects.owned)
      ensures GetCore() == old(GetCore()) || GetCore() == old(GetCore()).Disconnect()
      ensures old(slot) != null && AnyExpired(old(slot).tracked, old(objects.owned)) ==> !connected
      ensures GetCore() != old(GetCore()) ==> old(slot) != null && AnyExpired(old(slot).tracked, objects.owned)
    {
      if slot == null { return; }
      var expired := slot.Expired(objects);
      if expired { NolockDisconnect(lock); }
    }

    /**
     Locks the tracked objects one by one and looks whether each is still there. Either all were, and those
     that can be held are held, or one was not and the body is disconnected. With `keep` off the locked
     pointers are dropped as they come.
     */
    method NolockGrabTrackedObjects(lock: GarbageCollectingLock, objects: Objects, keep: bool)
        returns (grabbed: seq<Grabbed>)
      requires Valid() && lock.Valid() && Keeps(lock)
      modifies this`connected, this`slotRefcount, this`slot, lock`garbage, objects
      ensures Valid() && (slot == null || slot == old(slot)) && lock.Valid() && Trashed(lock)
      ensures objects.owned <= old(objects.owned)
      ensures GetCore() == old(GetCore()) || GetCore() == old(GetCore()).Disconnect()
      ensures connected ==> slot != null && !AnyExpired(slot.tracked, old(objects.owned))
      ensures connected && keep ==> |grabbed| == |slot.tracked|
      ensures connected && keep ==>
        forall k :: 0 <= k < |grabbed| && !slot.tracked[k].trackable ==> grabbed[k] == Hold(slot.tracked[k].obj)
      ensures connected && keep ==>
        forall k :: 0 <= k < |grabbed| && slot.tracked[k].trackable ==> grabbed[k] == Nothing
      ensures GetCore() != old(GetCore()) ==> old(slot) != null && AnyExpired(old(slot).tracked, objects.owned)
    {
      grabbed := [];
      if slot == null { return; }
      var tracked := slot.tracked;
      for k := 0 to |tracked|
        invariant Valid() && lock.Valid() && GetCore() == old(GetCore()) && slot == old(slot)
        invariant lock.garbage == old(lock.garbage)
        invariant objects.owned <= old(objects.owned)
        invariant forall l :: 0 <= l < k ==> tracked[l].obj in old(objects.owned)
        invariant |grabbed| == if keep then k else 0
        invariant forall l :: 0 <= l < |grabbed| && !tracked[l].trackable ==> grabbed[l] == Hold(tracked[l].obj)
        invariant forall l :: 0 <= l < |grabbed| && tracked[l].trackable ==> grabbed[l] == Nothing
      {
        objects.Interfere();
        var g := Grab(tracked[k], objects.owned + ObjectsIn(grabbed));
        ghost var owned := objects.owned;
        objects.Interfere();
        if tracked[k].obj !in objects.owned + ObjectsIn(grabbed + [g]) {
          NolockDisconnect(lock);
          return;
        }
        if keep {
          GrabNext(tracked, k, grabbed, g, owned, objects.owned);
          grabbed := grabbed + [g];
        }
      }
      assert tracked[..|tracked|] == tracked;
    }

    /** `connected`: finds out whether a tracked object has expired, and disconnects if so. */
    method Connected(objects: Objects) returns (r: bool)
      requires Valid() && !mutex.held
      modifies this`connected, this`slotRefcount, this`slot, mutex, slot, objects
      ensures Valid() && (slot == null || slot == old(slot)) && !mutex.held && r == connected
      ensures GetCore() == old(GetCore()) || GetCore() == old(GetCore()).Disconnect()
      ensures old(slot) != null && AnyExpired(old(slot).tracked, old(objects.owned)) ==> !r
      ensures GetCore() != old(GetCore()) ==> old(slot) != null && AnyExpired(old(slot).tracked, objects.owned)
      ensures old(slot) != null ==> (old(slot).destroyed <==> slot == null)
    {
      var localLock := new GarbageCollectingLock(mutex, if slot == null then {} else {slot});
      var _ := NolockGrabTrackedObjects(localLock, objects, false);
      r := connected;
      assert old(slot) != null && slot == null ==> localLock.garbage[0] == old(slot);
      localLock.Destroy();
    }

    /**
     `get_blocker`: the body's blocker while some block holds it, a new one otherwise. The caller gets one use of it.
     */
    method GetBlocker() returns (blocker: ControlBlock)
      requires !mutex.held
      modifies this`weakBlocker, weakBlocker, mutex
      ensures !mutex.held && weakBlocker == blocker
      ensures if old(Blocked()) then blocker == old(weakBlocker) && blocker.uses == old(blocker.uses) + 1
              else fresh(blocker) && blocker.uses == 1 && blocker.owner == this
      ensures old(weakBlocker) != null && blocker != old(weakBlocker) ==> old(weakBlocker).uses == 0
    {
      mutex.Lock();
      if weakBlocker != null && weakBlocker.uses > 0 {
        weakBlocker.uses := weakBlocker.uses + 1;
        blocker := weakBlocker;
      } else {
        blocker := new ControlBlock(this);
        weakBlocker := blocker;
      }
      mutex.Unlock();
    }

    /** `blocked`: the weak pointer to the blocker has not expired. */
    predicate Blocked()
      reads this, weakBlocker
    {
      weakBlocker != null && weakBlocker.uses > 0
    }

    /** `nolock_nograb_blocked`: to be passed over. */
    predicate NolockNograbBlocked()
      reads this, weakBlocker
    {
      !connected || Blocked()
    }
  }
}
