/**
 `auto_buffer`: a sequence kept in storage inside the object while its capacity is at most `N`, and in a
 heap block when it is larger. The model follows the branches taken for element types whose copies and
 destructors do something, which are the ones the library stores.
 */
module AutoBuffers {
  import opened Options
  import opened RawMemory

  function Max(a: nat, b: nat): (r: nat)
    ensures r >= a && r >= b && (r == a || r == b)
  {
    if a < b then b else a
  }

  /** `default_grow_policy::new_capacity`, and the larger of it and what is asked for. */
  function NewCapacity(capacity: nat, n: nat): (r: nat)
    ensures r >= n && r >= 4 * capacity && (r == n || r == 4 * capacity)
  {
    Max(4 * capacity, n)
  }

  class AutoBuffer<T> {
    const heap: Heap<T>
    const N: nat
    /** What `T()` gives. */
    const blank: T
    /** The storage inside the object. */
    const storage: Block<T>
    var capacity: nat
    var buffer: array?<Option<T>>
    var size: nat
    /** How many elements reallocation has copied so far. */
    ghost var copied: nat

    predicate IsOnStack()
      reads this
    {
      capacity <= N
    }

    /** `is_valid`. */
    predicate IsValid()
      reads this
    {
      buffer == null ||
      (capacity >= N && (IsOnStack() || capacity > N) && (buffer == storage ==> capacity <= N) && size <= capacity)
    }

    /** Between two calls. Inside storage not in use is raw. */
    ghost predicate Valid()
      reads this, heap, storage, buffer
    {
      && Holding() && storage.Length == N && storage !in heap.live
      && (!IsOnStack() ==> Filled(storage, 0))
    }

    /** The buffer holds its elements, in the inside storage exactly while the capacity is at most `N`. */
    ghost predicate Holding()
      reads this, heap, buffer
    {
      && buffer != null && buffer.Length == capacity >= N
      && (IsOnStack() <==> buffer == storage)
      && (!IsOnStack() ==> buffer in heap.live)
      && Filled(buffer, size)
    }

    ghost function Contents(): (r: seq<T>)
      requires Valid()
      reads this, heap, storage, buffer
      ensures |r| == size
    {
      Values(buffer[..size])
    }

    ghost function Growth(): Shape
      reads this
    {
      Shape(capacity, size, copied)
    }

    /** The heap blocks this buffer has to free. */
    ghost function Owned(): set<Block<T>>
      reads this
    {
      if buffer == null || buffer == storage then {} else {buffer}
    }

    lemma ValidIsValid()
      requires Valid()
      ensures IsValid() && size <= capacity && (IsOnStack() <==> capacity == N)
    {}

    constructor (heap: Heap<T>, N: nat, blank: T)
      ensures Valid() && Contents() == [] && capacity == N && copied == 0
      ensures this.heap == heap && this.N == N && this.blank == blank && fresh(storage)
    {
      this.heap, this.N, this.blank := heap, N, blank;
      var inside := new Option<T>[N](_ => None);
      storage, buffer := inside, inside;
      capacity, size, copied := N, 0, 0;
    }

    constructor WithCapacity(heap: Heap<T>, N: nat, blank: T, n: nat)
      modifies heap
      ensures Valid() && Contents() == [] && capacity == Max(n, N) && copied == 0
      ensures this.heap == heap && this.N == N && this.blank == blank && fresh(storage) && fresh(Owned())
      ensures heap.live == old(heap.live) + Owned()
    {
      this.heap, this.N, this.blank := heap, N, blank;
      storage := new Option<T>[N](_ => None);
      capacity, size, copied, buffer := Max(n, N), 0, 0, null;
      new;
      buffer := Allocate(capacity);
    }

    /** The copy constructor. */
    constructor Copy(r: AutoBuffer<T>)
      requires r.Valid()
      modifies r.heap
      ensures r.Valid() && r.Contents() == old(r.Contents())
      ensures Valid() && Contents() == r.Contents() && capacity == Max(r.size, N) && copied == 0
      ensures heap == r.heap && N == r.N && blank == r.blank && fresh(storage) && fresh(Owned())
      ensures heap.live == old(r.heap.live) + Owned()
    {
      heap, N, blank := r.heap, r.N, r.blank;
      storage := new Option<T>[r.N](_ => None);
      capacity, size, copied, buffer := Max(r.size, r.N), 0, 0, null;
      new;
      buffer := Allocate(capacity);
      r.CopyImpl(buffer);
      size := r.size;
    }

    /** `allocate`: a heap block only when the inside storage is too small. */
    method Allocate(n: nat) returns (block: Block<T>)
      requires n <= N ==> Filled(storage, 0)
      modifies heap
      ensures n <= N ==> block == storage && heap.live == old(heap.live)
      ensures n > N ==> fresh(block) && block.Length == n && Filled(block, 0) && heap.live == old(heap.live) + {block}
    {
      if n > N { block := heap.Allocate(n); } else { block := storage; }
    }

    method Deallocate(where: Block<T>, n: nat)
      requires n > N ==> where in heap.live && where.Length == n && Filled(where, 0)
      modifies heap
      ensures heap.live == if n <= N then old(heap.live) else old(heap.live) - {where}
    {
      if n <= N { return; }
      heap.Deallocate(where, n);
    }

    /** `auto_buffer_destroy`, and the destructor: destroys the objects and frees the block, once. */
    method Destroy()
      requires buffer != null ==> Holding()
      modifies heap, buffer
      ensures heap.live == old(heap.live) - Owned()
      ensures buffer != null ==> Filled(buffer, 0)
    {
      assert IsValid();
      if buffer != null {
        if size != 0 { DestroyBack(buffer, size, size); }
        Deallocate(buffer, capacity);
      }
    }

    /** `copy_impl` from begin to end, into a raw block. */
    method CopyImpl(where: Block<T>)
      requires Holding() && where != buffer && size <= where.Length && Filled(where, 0)
      modifies where
      ensures Filled(where, size) && where[..size] == buffer[..size]
    {
      UninitializedCopy(buffer, 0, size, where, 0);
    }

    /** `reserve_impl`: moves the elements to a block of another capacity. */
    method ReserveImpl(n: nat)
      requires Valid() && size <= n && (n > N || !IsOnStack())
      modifies this, heap, storage, buffer
      ensures buffer != null && capacity == n && size == old(size)
      ensures if n <= N then buffer == storage else fresh(buffer) && buffer.Length == n && Filled(storage, 0)
      ensures Filled(buffer, size) && storage.Length == N && storage !in heap.live
      ensures Values(buffer[..size]) == old(Contents())
      ensures heap.live == old(heap.live) - old(Owned()) + Owned()
      ensures copied == old(copied) + size
    {
      var newBuffer := Allocate(n);
      CopyImpl(newBuffer);
      copied := copied + size;
      Destroy();
      buffer := newBuffer;
      capacity := n;
    }

    /** What every operation that may reallocate promises about the memory. */
    twostate predicate Moved()
      reads this, heap
    {
      && heap.live == old(heap.live) - old(Owned()) + Owned()
      && (buffer == old(buffer) || buffer == storage || (buffer != null && fresh(buffer)))
    }

    method Reserve(n: nat)
      requires Valid()
      modifies this, heap, storage, buffer
      ensures Valid() && Contents() == old(Contents()) && Moved()
      ensures capacity == if n <= old(capacity) then old(capacity) else NewCapacity(old(capacity), n)
      ensures copied == old(copied) + if n <= old(capacity) then 0 else size
    {
      if n <= capacity { return; }
      ReserveImpl(NewCapacity(capacity, n));
    }

    method ShrinkToFit()
      requires Valid()
      modifies this, heap, storage, buffer
      ensures Valid() && Contents() == old(Contents()) && Moved()
      ensures capacity == if old(IsOnStack()) then old(capacity) else Max(N, size)
    {
      if IsOnStack() { return; }
      ReserveImpl(size);
      capacity := Max(N, capacity);
    }

    method UncheckedPushBack(x: T)
      requires Valid() && size < capacity
      modifies this`size, buffer
      ensures Valid() && Contents() == old(Contents()) + [x]
    {
      Construct(buffer, size, x);
      size := size + 1;
    }

    method PushBack(x: T)
      requires Valid()
      modifies this, heap, storage, buffer
      ensures Valid() && Contents() == old(Contents()) + [x] && Moved()
      ensures Growth() == Push(old(Growth()))
      ensures old(size) < old(capacity) ==>
        buffer == old(buffer) && capacity == old(capacity) && copied == old(copied)
      ensures old(size) == old(capacity) ==>
        && copied == old(copied) + old(size) && capacity >= 4 * old(capacity)
        && (capacity == 4 * old(capacity) || capacity == old(size) + 1)
    {
      if size != capacity {
        UncheckedPushBack(x);
      } else {
        Reserve(size + 1);
        UncheckedPushBack(x);
      }
    }

    /** `unchecked_push_back_n`: `n` default-constructed elements. */
    method UncheckedPushBackN(n: nat)
      requires Valid() && size + n <= capacity
      modifies this`size, buffer
      ensures Valid() && size == old(size) + n && Contents()[..old(size)] == old(Contents())
      ensures forall k :: old(size) <= k < size ==> Contents()[k] == blank
    {
      for i := 0 to n
        invariant Valid() && size == old(size) + i && Contents()[..old(size)] == old(Contents())
        invariant forall k :: old(size) <= k < size ==> Contents()[k] == blank
      {
        UncheckedPushBack(blank);
      }
    }

    /** Appends a stretch of another buffer. */
    method UncheckedPushBackRange(r: AutoBuffer<T>, first: nat, n: nat)
      requires Valid() && r.Valid() && Separate(r) && size + n <= capacity && first + n <= r.size
      modifies this`size, buffer
      ensures Valid() && Contents() == old(Contents()) + old(r.Contents()[first..first + n])
    {
      ghost var cells, piece := buffer[..], r.buffer[first..first + n];
      assert Values(piece) == r.Contents()[first..first + n];
      assert buffer[..size] == cells[..size];
      PlacedValues(cells, size, piece);
      UninitializedCopy(r.buffer, first, n, buffer, size);
      size := size + n;
      assert buffer[..size] == buffer[..][..size];
    }

    method PopBackN(n: nat)
      requires Valid() && n <= size
      modifies this`size, buffer
      ensures Valid() && Contents() == old(Contents()[..size - n])
    {
      if n != 0 {
        DestroyBack(buffer, size, n);
        size := size - n;
      }
    }

    /** No memory in common with another buffer. */
    ghost predicate Separate(r: AutoBuffer<T>)
      reads this, r
    {
      ({storage} + Owned()) !! ({r.storage} + r.Owned())
    }

    /** Copy assignment. */
    method AssignFrom(r: AutoBuffer<T>)
      requires Valid() && r.Valid() && heap == r.heap && (this == r || Separate(r))
      modifies this, heap, storage, buffer
      ensures Valid() && r.Valid() && Contents() == r.Contents() == old(r.Contents()) && Moved()
      ensures capacity == Max(old(capacity), r.size) && (this == r || Separate(r))
    {
      if this == r { return; }
      if size >= r.size {
        PopBackN(size - r.size);
        AssignElements(r);
      } else if capacity >= r.size {
        UncheckedPushBackN(r.size - size);
        AssignElements(r);
      } else {
        AssignToNewBlock(r);
      }
    }

    /** Assigns the elements of a buffer of the same size. */
    method AssignElements(r: AutoBuffer<T>)
      requires Valid() && r.Valid() && heap == r.heap && Separate(r) && size == r.size
      modifies buffer
      ensures Valid() && r.Valid() && Contents() == r.Contents() == old(r.Contents())
    {
      AssignRange(r.buffer, r.size, buffer);
      assert buffer[..size] == r.buffer[..r.size];
    }

    /** The branch of the assignment that needs more room: the old block is freed before the new one is allocated. */
    method AssignToNewBlock(r: AutoBuffer<T>)
      requires Valid() && r.Valid() && heap == r.heap && Separate(r) && capacity < r.size
      modifies this, heap, buffer
      ensures Valid() && r.Valid() && Contents() == r.Contents() == old(r.Contents()) && Moved()
      ensures capacity == r.size && Separate(r)
    {
      Destroy();
      buffer := null;
      var newBuffer := Allocate(r.size);
      r.CopyImpl(newBuffer);
      buffer := newBuffer;
      capacity := r.size;
      size := capacity;
    }

    /** Removes one element, and returns its position. */
    method Erase(where: nat) returns (result: nat)
      requires Valid() && where < size
      modifies this`size, buffer
      ensures Valid() && Contents() == old(Contents()[..where] + Contents()[where + 1..]) && result == where
      ensures size < capacity
    {
      CloseGap(where, where + 1);
      PopBackN(1);
      result := where;
    }

    /** Moves the elements behind a gap down over it. */
    method CloseGap(first: nat, last: nat)
      requires Valid() && first <= last <= size && (first < last || last == size)
      modifies buffer
      ensures Valid() && Contents()[..size - (last - first)] == old(Contents()[..first] + Contents()[last..])
    {
      var elements := size - last;
      if elements > 0 {
        ShiftedCells(buffer[..], size, first, last);
        CopyWithin(buffer, last, elements, first);
        assert buffer[..size] == buffer[..][..size];
      }
    }

    /**
     Removes a stretch. An empty one is permitted at the end of a buffer that is not full: further in front
     `std::copy` would copy elements to where they are, and a full buffer fails the assertion behind the removal.
     */
    method EraseRange(first: nat, last: nat) returns (result: nat)
      requires Valid() && first <= last <= size && (first < last || (last == size && size < capacity))
      modifies this`size, buffer
      ensures Valid() && Contents() == old(Contents()[..first] + Contents()[last..]) && result == first
      ensures size < capacity
    {
      CloseGap(first, last);
      PopBackN(last - first);
      result := first;
    }

    /**
     Inserts one element. When there is room for it the source shifts the tail with `std::copy`, which is
     permitted for a tail of at most one element; a full buffer builds its elements in a new block.
     */
    method Insert(before: nat, x: T) returns (result: nat)
      requires Valid() && before <= size && (size < capacity ==> size <= before + 1)
      modifies this, heap, storage, buffer
      ensures Valid() && Contents() == old(Contents()[..before]) + [x] + old(Contents()[before..]) && Moved()
      ensures result == before
      ensures capacity == if old(size) < old(capacity) then old(capacity) else NewCapacity(old(capacity), old(size) + 1)
      ensures copied == old(copied) + if old(size) < old(capacity) then 0 else old(size)
    {
      if size < capacity {
        var isBackInsertion := before == size;
        if !isBackInsertion {
          UncheckedPushBack(blank);
          ShiftOneAndAssign(before, x);
        } else {
          UncheckedPushBack(x);
        }
        return before;
      }
      result := InsertIntoNewBlock(before, x);
    }

    /** The last element moves into the cell just constructed behind it, and the new one takes its place. */
    method ShiftOneAndAssign(before: nat, x: T)
      requires Valid() && before + 2 == size
      modifies buffer
      ensures Valid() && Contents() == old(Contents()[..before]) + [x] + old(Contents()[before..size - 1])
    {
      CopyWithin(buffer, before, size - 1 - before, before + 1);
      Assign(buffer, before, x);
    }

    method InsertIntoNewBlock(before: nat, x: T) returns (result: nat)
      requires Valid() && before <= size == capacity
      modifies this, heap, storage, buffer
      ensures Valid() && Contents() == old(Contents()[..before]) + [x] + old(Contents()[before..]) && Moved()
      ensures result == before && capacity == NewCapacity(old(capacity), old(size) + 1)
      ensures copied == old(copied) + old(size)
    {
      var temp := new AutoBuffer.WithCapacity(heap, N, blank, NewCapacity(capacity, size + 1));
      result := temp.BuildFrom(this, before, x);
      copied := copied + size;
      OneSidedSwap(temp);
      temp.Destroy();
    }

    /** Fills an empty buffer with the elements of another and one more. */
    method BuildFrom(r: AutoBuffer<T>, before: nat, x: T) returns (result: nat)
      requires Valid() && r.Valid() && Separate(r) && size == 0 && before <= r.size < capacity
      modifies this`size, buffer
      ensures Valid() && Contents() == r.Contents()[..before] + [x] + r.Contents()[before..] && result == before
    {
      ghost var from := r.Contents();
      UncheckedPushBackRange(r, 0, before);
      result := size;
      assert Contents() == from[..before];
      UncheckedPushBack(x);
      assert r.Contents() == from;
      UncheckedPushBackRange(r, before, r.size - before);
    }

    /** Takes over the block of a local buffer, which is left without one. */
    method OneSidedSwap(temp: AutoBuffer<T>)
      requires Valid() && temp.Valid() && temp != this && heap == temp.heap && N == temp.N && Separate(temp)
      requires !temp.IsOnStack() && temp.size > size
      modifies this`capacity, this`buffer, this`size, heap, buffer, temp`buffer
      ensures Valid() && Contents() == old(temp.Contents()) && capacity == temp.capacity && buffer == old(temp.buffer)
      ensures temp.buffer == null && temp.IsValid()
      ensures heap.live == old(heap.live) - old(Owned())
    {
      Destroy();
      capacity := temp.capacity;
      buffer := temp.buffer;
      size := temp.size;
      temp.buffer := null;
    }

    /** Exchanges contents and capacities in all three cases, and neither allocates nor frees a block. */
    method Swap(r: AutoBuffer<T>)
      requires Valid() && r.Valid() && heap == r.heap && N == r.N && (this == r || Separate(r))
      modifies this, storage, buffer, r, r.storage, r.buffer
      ensures Valid() && r.Valid() && (this == r || Separate(r))
      ensures Contents() == old(r.Contents()) && r.Contents() == old(Contents())
      ensures capacity == old(r.capacity) && r.capacity == old(capacity)
    {
      var onStack, rOnStack := IsOnStack(), r.IsOnStack();
      if !onStack && !rOnStack {
        this.capacity, r.capacity := r.capacity, this.capacity;
        this.buffer, r.buffer := r.buffer, this.buffer;
        this.size, r.size := r.size, this.size;
      } else if onStack != rOnStack {
        if onStack { SwapOneOnStack(this, r); } else { SwapOneOnStack(r, this); }
      } else {
        SwapBothOnStack(this, r);
      }
    }
  }

  /** `one` keeps its elements inside, `other` in a block: they move into the inside storage of `other`. */
  method SwapOneOnStack<T>(one: AutoBuffer<T>, other: AutoBuffer<T>)
    requires one.Valid() && other.Valid() && one.heap == other.heap && one.N == other.N && one != other
    requires one.Separate(other)
    requires one.IsOnStack() && !other.IsOnStack()
    modifies one, one.storage, other, other.storage
    ensures one.Valid() && other.Valid() && one.Separate(other)
    ensures one.Contents() == old(other.Contents()) && other.Contents() == old(one.Contents())
    ensures one.capacity == old(other.capacity) && other.capacity == old(one.capacity)
  {
    var newBuffer := other.storage;
    one.CopyImpl(newBuffer);
    if one.size != 0 { DestroyBack(one.buffer, one.size, one.size); }
    one.capacity, other.capacity := other.capacity, one.capacity;
    one.size, other.size := other.size, one.size;
    one.buffer := other.buffer;
    other.buffer := newBuffer;
  }

  /** `swap_helper`: exchanges the common part, then moves the rest of the longer buffer. */
  method SwapBothOnStack<T>(l: AutoBuffer<T>, r: AutoBuffer<T>)
    requires l.Valid() && r.Valid() && l.heap == r.heap && l.N == r.N && (l == r || l.Separate(r))
    requires l.IsOnStack() && r.IsOnStack()
    modifies l, l.storage, r, r.storage
    ensures l.Valid() && r.Valid() && (l == r || l.Separate(r))
    ensures l.Contents() == old(r.Contents()) && r.Contents() == old(l.Contents())
    ensures l.capacity == old(r.capacity) && r.capacity == old(l.capacity)
  {
    var minSize, maxSize := if l.size < r.size then l.size else r.size, Max(l.size, r.size);
    var diff := maxSize - minSize;
    var smallest := if l.size == minSize then l else r;
    var largest := if smallest == l then r else l;
    SwapElements(smallest, largest, diff);
    l.capacity, r.capacity := r.capacity, l.capacity;
  }

  method SwapElements<T>(smallest: AutoBuffer<T>, largest: AutoBuffer<T>, diff: nat)
    requires smallest.Valid() && largest.Valid() && smallest.size + diff == largest.size <= smallest.capacity
    requires smallest == largest || smallest.Separate(largest)
    modifies smallest`size, smallest.buffer, largest`size, largest.buffer
    ensures smallest.Valid() && largest.Valid()
    ensures smallest.Contents() == old(largest.Contents()) && largest.Contents() == old(smallest.Contents())
  {
    ghost var a, b := smallest.Contents(), largest.Contents();
    SwapCommon(smallest, largest);
    MoveRest(smallest, largest);
    assert b[..|a|] + (a + b[|a|..])[|a|..] == b && (a + b[|a|..])[..|a|] == a;
    largest.PopBackN(diff);
  }

  /** Copies what the longer buffer has more to the end of the shorter one. */
  method MoveRest<T>(smallest: AutoBuffer<T>, largest: AutoBuffer<T>)
    requires smallest.Valid() && largest.Valid() && smallest.size <= largest.size <= smallest.capacity
    requires smallest == largest || smallest.Separate(largest)
    modifies smallest`size, smallest.buffer
    ensures smallest.Valid() && largest.Valid()
    ensures largest.Contents() == old(largest.Contents())
    ensures smallest.Contents() == old(smallest.Contents() + largest.Contents()[smallest.size..])
  {
    var i := smallest.size;
    while i < largest.size
      invariant smallest.Valid() && largest.Valid() && largest.size == old(largest.size)
      invariant old(smallest.size) <= i <= largest.size && smallest.size == i
      invariant largest.Contents() == old(largest.Contents())
      invariant smallest.Contents() ==
        old(smallest.Contents()) + old(largest.Contents()[smallest.size..])[..i - old(smallest.size)]
    {
      smallest.UncheckedPushBack(largest.buffer[i].value);
      i := i + 1;
    }
  }

  /** Exchanges the elements both buffers have. */
  method SwapCommon<T>(smallest: AutoBuffer<T>, largest: AutoBuffer<T>)
    requires smallest.Valid() && largest.Valid() && smallest.size <= largest.size
    requires smallest == largest || smallest.Separate(largest)
    modifies smallest.buffer, largest.buffer
    ensures smallest.Valid() && largest.Valid()
    ensures smallest.Contents() == old(largest.Contents()[..smallest.size])
    ensures largest.Contents() == old(smallest.Contents() + largest.Contents()[smallest.size..])
  {
    ghost var a, b, n := smallest.buffer[..], largest.buffer[..], smallest.size;
    SwapCells(smallest.buffer, largest.buffer, smallest.size);
    ExchangedValues(a, b, smallest.buffer[..], n, n);
    ExchangedValues(b, a, largest.buffer[..], n, largest.size);
  }

  /** Where `was` held its elements, `now` holds the first `n` of `other` and the rest of its own. */
  lemma ExchangedValues<T>(was: seq<Option<T>>, other: seq<Option<T>>, now: seq<Option<T>>, n: nat, size: nat)
    requires n <= size <= |was| == |now| && n <= |other| && now[..n] == other[..n] && now[n..] == was[n..]
    requires forall k :: 0 <= k < size ==> was[k].Some?
    requires forall k :: 0 <= k < n ==> other[k].Some?
    ensures forall k :: 0 <= k < size ==> now[k].Some?
    ensures forall k :: size <= k < |now| ==> now[k] == was[k]
    ensures Values(now[..size]) == Values(other[..n]) + Values(was[..size])[n..]
  {
    forall k | 0 <= k < |now| ensures now[k] == if k < n then other[k] else was[k] {
      if k < n { assert now[..n][k] == other[..n][k]; } else { assert now[n..][k - n] == was[n..][k - n]; }
    }
  }

  method SwapCells<T>(a: Block<T>, b: Block<T>, n: nat)
    requires n <= a.Length && n <= b.Length
    modifies a, b
    ensures a[..n] == old(b[..n]) && a[n..] == old(a[n..])
    ensures b[..n] == old(a[..n]) && b[n..] == old(b[n..])
  {
    for i := 0 to n
      invariant forall k :: 0 <= k < a.Length ==> a[k] == if k < i then old(b[k]) else old(a[k])
      invariant forall k :: 0 <= k < b.Length ==> b[k] == if k < i then old(a[k]) else old(b[k])
    {
      a[i], b[i] := b[i], a[i];
    }
  }

  /** Closing a gap leaves the cells before it and behind it. */
  lemma ShiftedCells<T>(cells: seq<Option<T>>, size: nat, first: nat, last: nat)
    requires first < last < size <= |cells|
    requires (forall k :: 0 <= k < size ==> cells[k].Some?) && (forall k :: size <= k < |cells| ==> cells[k].None?)
    ensures var now := Shifted(cells, last, size - last, first);
      && (forall k :: 0 <= k < size ==> now[k].Some?)
      && (forall k :: size <= k < |now| ==> now[k].None?)
      && now[..size - (last - first)] == cells[..first] + cells[last..size]
  {}

  /** Filling the first raw cells appends. */
  lemma PlacedValues<T>(cells: seq<Option<T>>, size: nat, piece: seq<Option<T>>)
    requires size + |piece| <= |cells| && forall k :: 0 <= k < |piece| ==> piece[k].Some?
    requires (forall k :: 0 <= k < size ==> cells[k].Some?) && (forall k :: size <= k < |cells| ==> cells[k].None?)
    ensures var now, last := Placed(cells, size, piece), size + |piece|;
      && (forall k :: 0 <= k < last ==> now[k].Some?)
      && (forall k :: last <= k < |now| ==> now[k].None?)
      && Values(now[..last]) == Values(cells[..size]) + Values(piece)
  {}

  // ---------------------------------------------------------------- amortised growth

  /** What repeated `push_back` does to capacity, size and the number of elements copied. */
  datatype Shape = Shape(capacity: nat, size: nat, copied: nat)

  function Push(s: Shape): Shape {
    if s.size == s.capacity then Shape(NewCapacity(s.capacity, s.size + 1), s.size + 1, s.copied + s.size)
    else Shape(s.capacity, s.size + 1, s.copied)
  }

  function Pushes(s: Shape, k: nat): Shape {
    if k == 0 then s else Push(Pushes(s, k - 1))
  }

  /** Starting empty with room for `N`, `k >= 1` single pushes copy fewer than `4k/3` elements. */
  lemma AmortisedGrowth(N: nat, k: nat)
    requires k >= 1
    ensures 3 * Pushes(Shape(N, 0, 0), k).copied < 4 * k
  {
    PushesPaid(N, k);
  }

  /** As soon as anything was copied, the copies are paid for by the capacity, and that by the elements. */
  lemma {:induction false} PushesPaid(N: nat, k: nat)
    ensures var s := Pushes(Shape(N, 0, 0), k);
      s.size == k <= s.capacity && (s.copied == 0 || (3 * s.copied < s.capacity && s.capacity < 4 * k))
  {
    if k > 0 { PushesPaid(N, k - 1); }
  }
}
