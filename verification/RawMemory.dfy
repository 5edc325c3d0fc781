/**
 Memory as `auto_buffer` sees it: blocks of cells that are raw until an object is constructed in them,
 and raw again once it is destroyed, and a heap that knows which blocks it has given out.
 */
module RawMemory {
  import opened Options

  /** `None` is a raw cell, `Some` one that holds an object. */
  type Block<T> = array<Option<T>>

  /** The first `n` cells hold objects, the others are raw. */
  ghost predicate Filled<T>(block: Block<T>, n: nat)
    reads block
  {
    && n <= block.Length
    && (forall i :: 0 <= i < n ==> block[i].Some?)
    && (forall i :: n <= i < block.Length ==> block[i].None?)
  }

  function Values<T>(cells: seq<Option<T>>): (r: seq<T>)
    requires forall i :: 0 <= i < |cells| ==> cells[i].Some?
    ensures |r| == |cells| && forall i :: 0 <= i < |r| ==> r[i] == cells[i].value
  {
    seq(|cells|, i requires 0 <= i < |cells| => cells[i].value)
  }

  class Heap<T> {
    /** The blocks allocated and not yet freed. A freed block never comes back: a new one is always another object. */
    ghost var live: set<Block<T>>

    constructor ()
      ensures live == {}
    {
      live := {};
    }

    method Allocate(n: nat) returns (block: Block<T>)
      modifies this
      ensures fresh(block) && block.Length == n && Filled(block, 0)
      ensures live == old(live) + {block}
    {
      block := new Option<T>[n](_ => None);
      live := live + {block};
    }

    /** Only a live block may be freed, with the capacity it was allocated with, after its objects are destroyed. */
    method Deallocate(block: Block<T>, n: nat)
      requires block in live && n == block.Length && Filled(block, 0)
      modifies this
      ensures live == old(live) - {block}
    {
      live := live - {block};
    }
  }

  /** Construction needs a raw cell. */
  method Construct<T>(where: Block<T>, i: nat, x: T)
    requires i < where.Length && where[i].None?
    modifies where
    ensures where[..] == old(where[..])[i := Some(x)]
  {
    where[i] := Some(x);
  }

  /** Assignment and destruction need an object. */
  method Assign<T>(where: Block<T>, i: nat, x: T)
    requires i < where.Length && where[i].Some?
    modifies where
    ensures where[..] == old(where[..])[i := Some(x)]
  {
    where[i] := Some(x);
  }

  method Destroy<T>(where: Block<T>, i: nat)
    requires i < where.Length && where[i].Some?
    modifies where
    ensures where[..] == old(where[..])[i := None]
  {
    where[i] := None;
  }

  /** The cells with some of them replaced. */
  function Placed<T>(cells: seq<T>, at: nat, piece: seq<T>): (r: seq<T>)
    requires at + |piece| <= |cells|
    ensures |r| == |cells|
    ensures forall k :: 0 <= k < |r| ==> r[k] == if at <= k < at + |piece| then piece[k - at] else cells[k]
  {
    cells[..at] + piece + cells[at + |piece|..]
  }

  /** `std::uninitialized_copy` into another block. */
  method UninitializedCopy<T>(src: Block<T>, first: nat, n: nat, where: Block<T>, at: nat)
    requires src != where && first + n <= src.Length && at + n <= where.Length
    requires forall i :: first <= i < first + n ==> src[i].Some?
    requires forall i :: at <= i < at + n ==> where[i].None?
    modifies where
    ensures where[..] == Placed(old(where[..]), at, src[first..first + n])
  {
    for i := 0 to n
      invariant forall k :: 0 <= k < where.Length ==>
        where[k] == if at <= k < at + i then src[first + k - at] else old(where[k])
    {
      Construct(where, at + i, src[first + i].value);
    }
  }

  /** The assignment loop of `assign_impl`, from another block. */
  method AssignRange<T>(src: Block<T>, n: nat, where: Block<T>)
    requires src != where && n <= src.Length && n <= where.Length
    requires forall i :: 0 <= i < n ==> src[i].Some? && where[i].Some?
    modifies where
    ensures where[..] == Placed(old(where[..]), 0, src[..n])
  {
    for i := 0 to n
      invariant forall k :: 0 <= k < where.Length ==> where[k] == if k < i then src[k] else old(where[k])
    {
      Assign(where, i, src[i].value);
    }
  }

  /** The cells after `n` of them are copied from `first` to `to`. */
  function Shifted<T>(cells: seq<T>, first: nat, n: nat, to: nat): (r: seq<T>)
    requires first + n <= |cells| && to + n <= |cells|
    ensures |r| == |cells|
    ensures forall k :: 0 <= k < |r| ==> r[k] == if to <= k < to + n then cells[first + (k - to)] else cells[k]
  {
    cells[..to] + cells[first..first + n] + cells[to + n..]
  }

  /** `std::copy` within a block. It is permitted only when the destination does not start inside the range copied. */
  method CopyWithin<T>(block: Block<T>, first: nat, n: nat, to: nat)
    requires first + n <= block.Length && to + n <= block.Length
    requires to < first || first + n <= to
    requires forall i :: first <= i < first + n ==> block[i].Some?
    requires forall i :: to <= i < to + n ==> block[i].Some?
    modifies block
    ensures block[..] == Shifted(old(block[..]), first, n, to)
  {
    hide Shifted;
    ghost var was := block[..];
    CopyNone(was, first, to);
    for i := 0 to n
      invariant block[..] == Shifted(was, first, i, to)
    {
      CopyStep(was, first, to, i);
      assert block[first + i] == block[..][first + i] && block[to + i] == block[..][to + i];
      Assign(block, to + i, block[first + i].value);
    }
  }

  /** One element further: what is read has not been overwritten yet. */
  lemma CopyStep<T>(was: seq<T>, first: nat, to: nat, i: nat)
    requires to < first || first + i < to
    requires first + i < |was| && to + i < |was|
    ensures var now := Shifted(was, first, i, to);
      && now[first + i] == was[first + i] && now[to + i] == was[to + i]
      && now[to + i := was[first + i]] == Shifted(was, first, i + 1, to)
  {
  }

  lemma CopyNone<T>(was: seq<T>, first: nat, to: nat)
    requires first <= |was| && to <= |was|
    ensures Shifted(was, first, 0, to) == was
  {}

  /** `destroy_back_n`: the last `n` of `size` objects, from the back. */
  method DestroyBack<T>(block: Block<T>, size: nat, n: nat)
    requires n <= size && Filled(block, size)
    modifies block
    ensures Filled(block, size - n) && block[..size - n] == old(block[..size - n])
  {
    var p: int := size - 1;
    while p > size - 1 - n
      invariant size - 1 - n <= p < size
      invariant Filled(block, p + 1) && block[..size - n] == old(block[..size - n])
    {
      Destroy(block, p);
      p := p - 1;
    }
  }
}
