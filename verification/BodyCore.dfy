/**
 The counted part of a connection body as a value: the connected flag, the slot reference count and
 whether the body still owns its slot. The class in Connections and the state machine in Protocol
 both change it through these functions.
 */
module BodyCores {
  /** A tracked weak pointer: the object it names, and whether it is the `trackable` kind that is never held. */
  datatype Tracked = Tracked(obj: nat, trackable: bool)

  datatype Core = Core(connected: bool, refs: nat, slot: bool)
  {
    /** `dec_slot_refcount`: the slot is given up when the count reaches zero. The assertion is `refs != 0`. */
    function Dec(): Core {
      if refs == 0 then this else Core(connected, refs - 1, slot && refs != 1)
    }

    /** `inc_slot_refcount`. */
    function Inc(): Core { this.(refs := refs + 1) }

    /** `nolock_disconnect`: only the first call counts. */
    function Disconnect(): Core {
      if connected then this.(connected := false).Dec() else this
    }

    /** A slot is owned exactly while it is counted, and a connected body counts for one. */
    predicate Valid() { (slot <==> refs > 0) && (connected ==> refs > 0) }
  }

  /** `nolock_nograb_blocked() == false`. */
  predicate MayBeCalled(core: Core, blocked: bool) { core.connected && !blocked }

  /** One count less, and the slot is given up with the last one. */
  ghost predicate OneLess(before: Core, after: Core) {
    && before.refs > 0 && after.refs == before.refs - 1 && after.connected == before.connected
    && (after.slot <==> before.refs > 1)
  }

  /** Disconnected: the connection counts no more. A body disconnected before stays as it is. */
  ghost predicate IsCutOff(before: Core, after: Core) {
    if before.connected then !after.connected && OneLess(before, after.(connected := true)) else after == before
  }

  /** A body as its constructor leaves it. */
  const NEW_CORE := Core(true, 1, true)
}
