/**
 `shared_connection_block`: a connection is blocked while any block on it is blocking. The blocks on a
 body share one counted blocker, which the body knows through a weak pointer only.
 */
module Blocking {
  import opened Connections

  /** The `_blocker` pointer: empty, not empty but of no body, or a use of a body's blocker. */
  datatype Blocker = Empty | Orphan | Holds(control: ControlBlock)

  /** The blocks that hold a use of a blocker. */
  ghost function Holders<G>(blocks: set<SharedConnectionBlock<G>>, control: ControlBlock): set<SharedConnectionBlock<G>>
    reads blocks
  {
    set s | s in blocks && s.blocker == Holds(control)
  }

  /**
   The blocks on a body share its blocker as they should: each holds the blocker the body knows, if any,
   and that counts the blocks that hold it. The blocker was made for this body, so bodies do not interfere.
   */
  ghost predicate Sharing<G>(b: ConnectionBody<G>, blocks: set<SharedConnectionBlock<G>>)
    reads b, b.weakBlocker, blocks
  {
    && (forall s <- blocks :: s.weak == b)
    && (forall s <- blocks :: s.blocker.Orphan? ==> b.references == 0)
    && (forall s <- blocks :: s.blocker.Holds? ==> b.weakBlocker == s.blocker.control)
    && (b.weakBlocker != null ==> b.weakBlocker.owner == b && b.weakBlocker.uses == |Holders(blocks, b.weakBlocker)|)
  }

  /**
   A live body is blocked exactly when some block on it is blocking; and passed over by the call iterators exactly when
   it is blocked or disconnected.
   */
  lemma BlockedIffSomeBlock<G>(b: ConnectionBody<G>, blocks: set<SharedConnectionBlock<G>>)
    requires Sharing(b, blocks) && b.references > 0
    ensures b.Blocked() <==> exists s :: s in blocks && s.IsBlocking()
    ensures b.NolockNograbBlocked() <==> !b.connected || exists s :: s in blocks && s.IsBlocking()
  {
    if b.Blocked() {
      var s :| s in Holders(blocks, b.weakBlocker);
      assert s in blocks && s.IsBlocking();
    }
    if s :| s in blocks && s.IsBlocking() {
      assert s in Holders(blocks, b.weakBlocker);
    }
  }

  class SharedConnectionBlock<G> {
    /** The weak pointer to the body: null when it never had one. */
    const weak: ConnectionBody?<G>
    var blocker: Blocker

    /** The owner-based comparison with an empty pointer. */
    predicate IsBlocking()
      reads this
    {
      blocker != Empty
    }

    /** A block on a body. `blocks` are all blocks on it so far. */
    constructor (weak: ConnectionBody?<G>, initiallyBlocked: bool, ghost blocks: set<SharedConnectionBlock<G>>)
      requires weak != null ==> Sharing(weak, blocks) && !weak.mutex.held
      modifies if weak == null then {} else {weak.mutex}
      modifies (if weak == null then {} else {weak})`weakBlocker
      modifies if weak == null || weak.weakBlocker == null then {} else {weak.weakBlocker}
      ensures this.weak == weak && IsBlocking() == initiallyBlocked
      ensures weak != null ==> Sharing(weak, blocks + {this}) && !weak.mutex.held
    {
      this.weak := weak;
      blocker := Empty;
      new;
      if weak != null && weak.weakBlocker != null {
        assert Holders(blocks + {this}, weak.weakBlocker) == Holders(blocks, weak.weakBlocker);
      }
      if initiallyBlocked { Block(blocks + {this}); }
    }

    /** The copy constructor: shares the other's blocker. */
    constructor Copy(other: SharedConnectionBlock<G>, ghost blocks: set<SharedConnectionBlock<G>>)
      requires other.weak != null ==> Sharing(other.weak, blocks) && other in blocks
      modifies if other.blocker.Holds? then {other.blocker.control} else {}
      ensures weak == other.weak && IsBlocking() == other.IsBlocking()
      ensures weak != null ==> Sharing(weak, blocks + {this})
    {
      weak := other.weak;
      blocker := other.blocker;
      new;
      if blocker.Holds? {
        ghost var holders := Holders(blocks, blocker.control);
        blocker.control.uses := blocker.control.uses + 1;
        if weak != null {
          assert this !in holders && Holders(blocks + {this}, blocker.control) == holders + {this};
        }
      } else if weak != null && weak.weakBlocker != null {
        assert Holders(blocks + {this}, weak.weakBlocker) == Holders(blocks, weak.weakBlocker);
      }
    }

    method Block(ghost blocks: set<SharedConnectionBlock<G>>)
      requires weak != null ==> Sharing(weak, blocks) && this in blocks && !weak.mutex.held
      modifies this`blocker
      modifies if weak == null then {} else {weak.mutex}
      modifies (if weak == null then {} else {weak})`weakBlocker
      modifies if weak == null || weak.weakBlocker == null then {} else {weak.weakBlocker}
      ensures IsBlocking()
      ensures weak != null ==> Sharing(weak, blocks) && !weak.mutex.held
    {
      if IsBlocking() { return; }
      if weak == null || weak.references == 0 {
        blocker := Orphan;
        if weak != null && weak.weakBlocker != null {
          assert Holders(blocks, weak.weakBlocker) == old(Holders(blocks, weak.weakBlocker));
        }
        return;
      }
      if weak.weakBlocker != null && weak.weakBlocker.uses == 0 { NobodyHolds(weak, blocks); }
      var control := weak.GetBlocker();
      blocker := Holds(control);
      if old(weak.Blocked()) {
        assert Holders(blocks, control) == old(Holders(blocks, control)) + {this};
      } else {
        assert Holders(blocks, control) == {this};
      }
    }

    method Unblock(ghost blocks: set<SharedConnectionBlock<G>>)
      requires weak != null ==> Sharing(weak, blocks) && this in blocks
      requires weak == null ==> !blocker.Holds?
      modifies this`blocker
      modifies if blocker.Holds? then {blocker.control} else {}
      ensures !IsBlocking()
      ensures weak != null ==> Sharing(weak, blocks)
    {
      if blocker.Holds? {
        assert this in Holders(blocks, blocker.control);
        blocker.control.uses := blocker.control.uses - 1;
      }
      blocker := Empty;
      if weak != null && weak.weakBlocker != null {
        assert Holders(blocks, weak.weakBlocker) == old(Holders(blocks, weak.weakBlocker)) - {this};
      }
    }

    /** The destructor gives up the blocker. */
    method Destroy(ghost blocks: set<SharedConnectionBlock<G>>)
      requires weak != null ==> Sharing(weak, blocks) && this in blocks
      requires weak == null ==> !blocker.Holds?
      modifies this`blocker
      modifies if blocker.Holds? then {blocker.control} else {}
      ensures weak != null ==> Sharing(weak, blocks - {this})
    {
      Unblock(blocks);
      if weak != null && weak.weakBlocker != null {
        assert Holders(blocks - {this}, weak.weakBlocker) == Holders(blocks, weak.weakBlocker);
      }
    }
  }

  /** A blocker whose count is zero is held by no block. */
  lemma NobodyHolds<G>(b: ConnectionBody<G>, blocks: set<SharedConnectionBlock<G>>)
    requires Sharing(b, blocks) && b.weakBlocker != null && b.weakBlocker.uses == 0
    ensures forall s <- blocks :: !s.blocker.Holds?
  {
    forall s <- blocks ensures !s.blocker.Holds? { assert s !in Holders(blocks, b.weakBlocker); }
  }

  /** What happens to the blocks on another body does not concern this one. */
  lemma BlockersDiffer<G>(b: ConnectionBody<G>, blocks: set<SharedConnectionBlock<G>>, c: ConnectionBody<G>,
                          others: set<SharedConnectionBlock<G>>)
    requires Sharing(b, blocks) && Sharing(c, others) && b != c
    ensures blocks !! others && (b.weakBlocker == null || b.weakBlocker != c.weakBlocker)
  {}
}
