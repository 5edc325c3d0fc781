/**
 A potential for the slot list under incremental clean-up. A view of the list keeps, for each entry, the
 rank of its key class and whether it is still connected, and the position of the stored iterator.

 The sweep reads a class of equivalent keys as a queue: what is added to the class while it is being read
 goes behind the unread entries. So each `Segment` of a class that is read in one go was fixed when its
 reading began, at most L of its entries are still connected then, and no insertion lands inside it.
 Reading a long segment pays for the entries inserted meanwhile; a short rest of a class costs at most a
 constant, once per class. Summed up, the list is bounded by a multiple of L times the number of classes.
 */
module GrowthPotential {
  datatype Item = Item(rank: nat, live: bool)

  /** `g == |items|` stands for the end iterator. */
  datatype View = View(items: seq<Item>, g: nat)

  /**
   Accounting of the part of the list being read: a fixed segment with `kept` survivors so far, or the short rest of a
   class.
   */
  datatype Account = Segment(unread: nat, kept: nat) | Rest

  ghost predicate SortedView(v: View) {
    && v.g <= |v.items|
    && (forall i, j :: 0 <= i < j < |v.items| ==> v.items[i].rank <= v.items[j].rank)
  }

  function LiveIn(xs: seq<Item>): nat {
    if xs == [] then 0 else (if xs[0].live then 1 else 0) + LiveIn(xs[1..])
  }

  /** How many entries from `g` on belong to the class `r`. */
  function ClassLen(xs: seq<Item>, g: nat, r: nat): (n: nat)
    requires g <= |xs|
    ensures g + n <= |xs|
    ensures forall i :: g <= i < g + n ==> xs[i].rank == r
    ensures g + n < |xs| ==> xs[g + n].rank != r
    decreases |xs| - g
  {
    if g < |xs| && xs[g].rank == r then 1 + ClassLen(xs, g + 1, r) else 0
  }

  /** What one class may cost. */
  function Cost(L: nat): nat { 24 * L + 12 }

  /** The bound the list length stays under, times two, for `k` classes. */
  function Cap(L: nat, k: nat): nat { if k == 0 then 0 else Cap(L, k - 1) + Cost(L) }

  ghost predicate AccountOk(v: View, acc: Account, L: nat)
    requires v.g <= |v.items|
  {
    v.g < |v.items| && acc.Segment? ==>
      && 1 <= acc.unread <= ClassLen(v.items, v.g, v.items[v.g].rank)
      && LiveIn(v.items[v.g..v.g + acc.unread]) + acc.kept <= L
  }

  ghost function Potential(v: View, acc: Account, L: nat, k: nat): int
    requires v.g <= |v.items|
    requires v.g < |v.items| ==> v.items[v.g].rank < k
  {
    if v.g == |v.items| then 4 * |v.items|
    else
      var r := v.items[v.g].rank;
      4 * v.g + 3 * (|v.items| - v.g) + Cap(L, k - 1 - r) + Dues(acc, ClassLen(v.items, v.g, r), L)
  }

  /** What the class being read, with `n` unread entries, may still cost. */
  ghost function Dues(acc: Account, n: nat, L: nat): int {
    match acc
    case Segment(unread, kept) => 4 * (L - kept) - unread + Cost(L)
    case Rest => 6 * n
  }

  ghost predicate Bounded(v: View, acc: Account, L: nat, k: nat) {
    && SortedView(v)
    && (forall i :: 0 <= i < |v.items| ==> v.items[i].rank < k)
    && LiveIn(v.items) <= L
    && AccountOk(v, acc, L)
    && Potential(v, acc, L, k) <= 4 * Cap(L, k)
  }

  /** The list is never longer than twice the cap. */
  lemma LengthBound(v: View, acc: Account, L: nat, k: nat)
    requires Bounded(v, acc, L, k)
    ensures |v.items| <= 2 * Cap(L, k)
  {
    if v.g < |v.items| {
      assert Cap(L, k - 1 - v.items[v.g].rank) >= 0;
      if acc.Segment? { assert acc.kept <= L; }
    }
  }

  // ---------------------------------------------------------------- counting connected entries

  lemma {:induction false} LiveSplit(xs: seq<Item>, ys: seq<Item>)
    ensures LiveIn(xs + ys) == LiveIn(xs) + LiveIn(ys)
  {
    if xs == [] {
      assert xs + ys == ys;
    } else {
      LiveSplit(xs[1..], ys);
      assert (xs + ys)[1..] == xs[1..] + ys;
    }
  }

  lemma LiveSlice(xs: seq<Item>, a: nat, b: nat)
    requires a <= b <= |xs|
    ensures LiveIn(xs[a..b]) <= LiveIn(xs)
  {
    hide LiveIn;
    assert xs == xs[..a] + xs[a..];
    LiveSplit(xs[..a], xs[a..]);
    assert xs[a..] == xs[a..b] + xs[b..];
    LiveSplit(xs[a..b], xs[b..]);
  }

  lemma {:induction false} LiveAll(xs: seq<Item>)
    requires forall i :: 0 <= i < |xs| ==> xs[i].live
    ensures LiveIn(xs) == |xs|
  {
    if xs != [] { LiveAll(xs[1..]); }
  }

  /** `ys` is `xs` with some entries disconnected. */
  ghost predicate Flipped(xs: seq<Item>, ys: seq<Item>) {
    |ys| == |xs| && forall i :: 0 <= i < |xs| ==> ys[i].rank == xs[i].rank && (ys[i].live ==> xs[i].live)
  }

  lemma {:induction false} LiveFlipped(xs: seq<Item>, ys: seq<Item>)
    requires Flipped(xs, ys)
    ensures LiveIn(ys) <= LiveIn(xs)
  {
    if xs != [] { LiveFlipped(xs[1..], ys[1..]); }
  }

  lemma {:induction false} ClassLenSame(xs: seq<Item>, ys: seq<Item>, g: nat, r: nat)
    requires |xs| == |ys| && g <= |xs| && forall i :: g <= i < |xs| ==> xs[i].rank == ys[i].rank
    ensures ClassLen(xs, g, r) == ClassLen(ys, g, r)
    decreases |xs| - g
  {
    if g < |xs| { ClassLenSame(xs, ys, g + 1, r); }
  }

  lemma LiveFlippedSlice(xs: seq<Item>, ys: seq<Item>, a: nat, b: nat)
    requires Flipped(xs, ys) && a <= b <= |xs|
    ensures LiveIn(ys[a..b]) <= LiveIn(xs[a..b])
  {
    hide LiveIn;
    LiveFlipped(xs[a..b], ys[a..b]);
  }

  lemma FlipAccount(v: View, acc: Account, ys: seq<Item>, L: nat)
    requires v.g <= |v.items| && AccountOk(v, acc, L) && Flipped(v.items, ys)
    ensures AccountOk(View(ys, v.g), acc, L)
    ensures v.g < |ys| ==> ClassLen(ys, v.g, ys[v.g].rank) == ClassLen(v.items, v.g, v.items[v.g].rank)
  {
    hide LiveIn, ClassLen;
    if v.g < |v.items| {
      ClassLenSame(v.items, ys, v.g, v.items[v.g].rank);
      if acc.Segment? { LiveFlippedSlice(v.items, ys, v.g, v.g + acc.unread); }
    }
  }

  /** Disconnections only help. */
  lemma FlipBounded(v: View, acc: Account, ys: seq<Item>, L: nat, k: nat)
    requires Bounded(v, acc, L, k) && Flipped(v.items, ys)
    ensures Bounded(View(ys, v.g), acc, L, k)
  {
    hide ClassLen, Cap, AccountOk, LiveIn, Dues;
    LiveFlipped(v.items, ys);
    FlipAccount(v, acc, ys, L);
  }

  // ---------------------------------------------------------------- examining one entry

  /** One turn of the clean-up loop. */
  function Examine(v: View): View
    requires v.g < |v.items|
  {
    if v.items[v.g].live then v.(g := v.g + 1) else v.(items := v.items[..v.g] + v.items[v.g + 1..])
  }

  /** From `g` on, the examined list is the old one without its first unread entry. */
  lemma ExamineTail(v: View)
    requires v.g < |v.items|
    ensures var w := Examine(v);
      && w.g <= |w.items| && |w.items| - w.g == |v.items| - v.g - 1
      && w.items[w.g..] == v.items[v.g + 1..]
      && 4 * w.g + 3 * (|w.items| - w.g) <= 4 * v.g + 3 * (|v.items| - v.g) + (if v.items[v.g].live then 1 else -3)
      && LiveIn(w.items) <= LiveIn(v.items)
  {
    var w := Examine(v);
    if !v.items[v.g].live {
      var a, b := v.items[..v.g], v.items[v.g + 1..];
      assert v.items == a + ([v.items[v.g]] + b);
      LiveSplit(a, b);
      LiveSplit(a, [v.items[v.g]] + b);
      LiveSplit([v.items[v.g]], b);
    }
  }

  lemma {:induction false} ClassLenTail(xs: seq<Item>, a: nat, ys: seq<Item>, b: nat, r: nat)
    requires a <= |xs| && b <= |ys| && xs[a..] == ys[b..]
    ensures ClassLen(xs, a, r) == ClassLen(ys, b, r)
    decreases |xs| - a
  {
    assert |xs| - a == |ys| - b;
    if a < |xs| {
      assert xs[a] == xs[a..][0] == ys[b..][0] == ys[b];
      assert xs[a + 1..] == xs[a..][1..] == ys[b..][1..] == ys[b + 1..];
      ClassLenTail(xs, a + 1, ys, b + 1, r);
    }
  }

  /** The account with which the reading of the class at `g` (re)starts. */
  function Fresh(v: View, L: nat): Account
    requires v.g <= |v.items|
  {
    if v.g == |v.items| then Rest
    else
      var n := ClassLen(v.items, v.g, v.items[v.g].rank);
      if n >= 4 * L && n >= 1 then Segment(n, 0) else Rest
  }

  /** Starting afresh at `g` costs no more than one class. */
  lemma FreshCost(v: View, L: nat, k: nat)
    requires SortedView(v) && v.g < |v.items| && v.items[v.g].rank < k && LiveIn(v.items) <= L
    ensures AccountOk(v, Fresh(v, L), L)
    ensures Potential(v, Fresh(v, L), L, k) <=
      4 * v.g + 3 * (|v.items| - v.g) + Cap(L, k - 1 - v.items[v.g].rank)
      + (if Fresh(v, L).Rest? then Cost(L) - 12 else Cost(L))
  {
    var n := ClassLen(v.items, v.g, v.items[v.g].rank);
    LiveSlice(v.items, v.g, v.g + n);
  }

  lemma {:induction false} CapDrop(L: nat, a: nat, b: nat)
    requires a < b
    ensures Cap(L, a) + Cost(L) <= Cap(L, b)
    decreases b
  {
    if a < b - 1 { CapDrop(L, a, b - 1); }
  }

  lemma {:induction false} CapIsProduct(L: nat, k: nat)
    ensures Cap(L, k) == Cost(L) * k
  {
    if k != 0 { CapIsProduct(L, k - 1); }
  }

  /** Examining one entry lowers the potential, by enough to pay for what may be inserted afterwards. */
  ghost predicate Paid(v: View, acc: Account, w: View, acc': Account, L: nat, k: nat)
    requires v.g < |v.items| && w.g <= |w.items| && v.items[v.g].rank < k && (w.g < |w.items| ==> w.items[w.g].rank < k)
  {
    var drop := Potential(v, acc, L, k) - Potential(w, acc', L, k);
    if w.g == |w.items| then drop >= 4
    else if acc'.Segment? then drop >= 2
    else if acc.Rest? then drop >= 5
    else drop >= 10
  }

  /** What is unread after examining an entry whose successor is in the same class. */
  lemma NextInClass(v: View)
    requires v.g + 1 < |v.items| && v.items[v.g + 1].rank == v.items[v.g].rank
    ensures var w, r := Examine(v), v.items[v.g].rank;
      && w.g < |w.items| && w.items[w.g].rank == r && w.items[w.g..] == v.items[v.g + 1..]
      && ClassLen(v.items, v.g, r) == 1 + ClassLen(w.items, w.g, r)
  {
    var w, r := Examine(v), v.items[v.g].rank;
    ExamineTail(v);
    assert w.items[w.g] == w.items[w.g..][0] == v.items[v.g + 1..][0] == v.items[v.g + 1];
    ClassLenTail(w.items, w.g, v.items, v.g + 1, r);
  }

  lemma SegmentTail(v: View, unread: nat)
    requires 2 <= unread && v.g + unread <= |v.items|
    requires var w := Examine(v); w.g <= |w.items| && w.items[w.g..] == v.items[v.g + 1..]
    ensures var w := Examine(v);
      && w.g + unread - 1 <= |w.items|
      && LiveIn(v.items[v.g..v.g + unread]) ==
        (if v.items[v.g].live then 1 else 0) + LiveIn(w.items[w.g..w.g + unread - 1])
  {
    var w := Examine(v);
    assert |w.items| - w.g == |v.items| - v.g - 1;
    assert v.items[v.g..v.g + unread][1..] == v.items[v.g + 1..][..unread - 1];
    assert w.items[w.g..][..unread - 1] == w.items[w.g..w.g + unread - 1];
  }

  /** The segment or rest goes on within the class. */
  lemma ExamineWithin(v: View, acc: Account, L: nat, k: nat) returns (acc': Account)
    requires SortedView(v) && v.g < |v.items| && AccountOk(v, acc, L) && v.items[v.g].rank < k
    requires if acc.Segment? then acc.unread >= 2 else v.g + 1 < |v.items| && v.items[v.g + 1].rank == v.items[v.g].rank
    ensures var w := Examine(v);
      && w.g < |w.items| && w.items[w.g].rank == v.items[v.g].rank
      && AccountOk(w, acc', L) && Paid(v, acc, w, acc', L, k)
  {
    hide Examine, LiveIn, Cap, SortedView, Cost;
    ExamineTail(v);
    NextInClass(v);
    match acc
    case Rest => acc' := Rest;
    case Segment(unread, kept) =>
      acc' := Segment(unread - 1, if v.items[v.g].live then kept + 1 else kept);
      SegmentTail(v, unread);
  }

  /** The segment or rest is used up: the reading starts afresh, in the same class or a later one. */
  lemma ExamineLast(v: View, acc: Account, L: nat, k: nat) returns (acc': Account)
    requires SortedView(v) && v.g < |v.items| && AccountOk(v, acc, L) && LiveIn(v.items) <= L
    requires forall i :: 0 <= i < |v.items| ==> v.items[i].rank < k
    requires if acc.Segment? then acc.unread == 1
             else v.g + 1 == |v.items| || v.items[v.g + 1].rank != v.items[v.g].rank
    requires SortedView(Examine(v))
    ensures var w := Examine(v);
      && AccountOk(w, acc', L) && (w.g < |w.items| ==> w.items[w.g].rank < k) && Paid(v, acc, w, acc', L, k)
  {
    hide Examine, LiveIn, Cap, AccountOk, Fresh;
    var w, r := Examine(v), v.items[v.g].rank;
    ExamineTail(v);
    acc' := Fresh(w, L);
    if acc.Segment? { KeptBound(v, acc, L); }
    if w.g < |w.items| {
      assert w.items[w.g] == w.items[w.g..][0] == v.items[v.g + 1..][0] == v.items[v.g + 1];
      FreshCost(w, L, k);
      var r' := w.items[w.g].rank;
      if r' > r { CapDrop(L, k - 1 - r', k - 1 - r); }
    } else {
      EndAccount(w, acc', L);
    }
  }

  lemma EndAccount(w: View, acc: Account, L: nat)
    requires w.g == |w.items|
    ensures AccountOk(w, acc, L)
  {}

  /** The survivors of a segment are at most L, counting the entry about to be read. */
  lemma KeptBound(v: View, acc: Account, L: nat)
    requires v.g < |v.items| && AccountOk(v, acc, L) && acc.Segment?
    ensures acc.kept + (if v.items[v.g].live then 1 else 0) <= L
  {
    var xs := v.items[v.g..v.g + acc.unread];
    assert xs[0] == v.items[v.g];
  }

  lemma ExamineSorted(v: View)
    requires SortedView(v) && v.g < |v.items|
    ensures SortedView(Examine(v))
    ensures forall x :: x in Examine(v).items ==> x in v.items
  {}

  lemma ExaminePaid(v: View, acc: Account, L: nat, k: nat) returns (acc': Account)
    requires Bounded(v, acc, L, k) && v.g < |v.items|
    ensures Bounded(Examine(v), acc', L, k)
    ensures Paid(v, acc, Examine(v), acc', L, k)
  {
    ExamineSorted(v);
    ExamineTail(v);
    var r := v.items[v.g].rank;
    var within := if acc.Segment? then acc.unread >= 2 else v.g + 1 < |v.items| && v.items[v.g + 1].rank == r;
    if within { acc' := ExamineWithin(v, acc, L, k); } else { acc' := ExamineLast(v, acc, L, k); }
    forall i | 0 <= i < |Examine(v).items| ensures Examine(v).items[i].rank < k {
      assert Examine(v).items[i] in v.items;
    }
  }

  // ---------------------------------------------------------------- one connect

  /** `n` turns of the clean-up loop, fewer at the end of the list. */
  function ExamineN(v: View, n: nat): View
    requires v.g <= |v.items|
    ensures ExamineN(v, n).g <= |ExamineN(v, n).items|
    decreases n
  {
    if n == 0 || v.g == |v.items| then v else ExamineN(Examine(v), n - 1)
  }

  /** A clean-up of any number of entries keeps the bound. */
  lemma {:induction false} ExamineNBounded(v: View, acc: Account, n: nat, L: nat, k: nat) returns (acc': Account)
    requires Bounded(v, acc, L, k)
    ensures Bounded(ExamineN(v, n), acc', L, k)
    decreases n
  {
    hide Bounded, Potential, Examine;
    BoundedRanks(v, acc, L, k);
    acc' := acc;
    if n != 0 && v.g < |v.items| {
      acc' := ExaminePaid(v, acc, L, k);
      BoundedRanks(Examine(v), acc', L, k);
      acc' := ExamineNBounded(Examine(v), acc', n - 1, L, k);
    }
  }

  /** Two turns, as before every insertion: they pay for it. */
  lemma ExamineTwice(v: View, acc: Account, L: nat, k: nat) returns (acc': Account)
    requires Bounded(v, acc, L, k) && v.g < |v.items|
    ensures var w := ExamineN(v, 2);
      && Bounded(w, acc', L, k)
      && Potential(w, acc', L, k) + (if w.g == |w.items| || acc'.Segment? then 4 else 9) <= Potential(v, acc, L, k)
  {
    hide Bounded, Potential, Examine;
    BoundedRanks(v, acc, L, k);
    acc' := ExaminePaid(v, acc, L, k);
    var u := Examine(v);
    BoundedRanks(u, acc', L, k);
    assert ExamineN(v, 2) == ExamineN(u, 1);
    if u.g < |u.items| {
      var first := acc';
      acc' := ExaminePaid(u, first, L, k);
      assert ExamineN(u, 1) == ExamineN(Examine(u), 0) == Examine(u);
      BoundedRanks(Examine(u), acc', L, k);
    }
  }

  lemma BoundedRanks(v: View, acc: Account, L: nat, k: nat)
    requires Bounded(v, acc, L, k)
    ensures v.g <= |v.items| && forall i :: 0 <= i < |v.items| ==> v.items[i].rank < k
  {}

  /** A new sweep starts at the front. */
  function Restart(v: View): View
    requires v.g <= |v.items|
  {
    if v.g == |v.items| then v.(g := 0) else v
  }

  lemma RestartBounded(v: View, acc: Account, L: nat, k: nat) returns (acc': Account)
    requires Bounded(v, acc, L, k)
    ensures Bounded(Restart(v), acc', L, k)
  {
    acc' := acc;
    if v.g == |v.items| && v.items != [] {
      acc' := Fresh(Restart(v), L);
      FreshCost(Restart(v), L, k);
      CapDrop(L, k - 1 - v.items[0].rank, k);
    }
  }

  /** Inserting before position `q`; the stored iterator keeps pointing at its entry, or at the end. */
  function InsertView(v: View, q: nat, item: Item): View
    requires v.g <= |v.items| && q <= |v.items|
  {
    View(v.items[..q] + [item] + v.items[q..], if v.g == |v.items| || q <= v.g then v.g + 1 else v.g)
  }

  lemma {:induction false} ClassLenInsert(xs: seq<Item>, q: nat, item: Item, g: nat, r: nat)
    requires g < q <= |xs| && xs[g].rank == r
    requires SortedView(View(xs, g)) && SortedView(View(xs[..q] + [item] + xs[q..], g))
    ensures var ys := xs[..q] + [item] + xs[q..];
      ClassLen(xs, g, r) <= ClassLen(ys, g, r) <= ClassLen(xs, g, r) + 1
    decreases q - g
  {
    var ys := xs[..q] + [item] + xs[q..];
    if g + 1 == q {
      if item.rank == r {
        assert ys[q + 1..] == xs[q..];
        ClassLenTail(ys, q + 1, xs, q, r);
      } else if q < |xs| {
        assert ys[q] == item && ys[q + 1] == xs[q];
      }
    } else if xs[g + 1].rank == r {
      ClassLenInsert(xs, q, item, g + 1, r);
    }
  }

  lemma SliceBehind(xs: seq<Item>, q: nat, item: Item, a: nat, b: nat)
    requires q <= a <= b <= |xs|
    ensures (xs[..q] + [item] + xs[q..])[a + 1..] == xs[a..]
    ensures (xs[..q] + [item] + xs[q..])[a + 1..b + 1] == xs[a..b]
  {}

  lemma InsertBehind(v: View, acc: Account, q: nat, item: Item, L: nat, k: nat)
    requires SortedView(v) && v.g < |v.items| && v.items[v.g].rank < k && q <= v.g && AccountOk(v, acc, L)
    ensures var w := InsertView(v, q, item);
      && w.g < |w.items| && w.items[w.g] == v.items[v.g] && AccountOk(w, acc, L)
      && Potential(w, acc, L, k) == Potential(v, acc, L, k) + 4
  {
    hide LiveIn, ClassLen, Cap, Cost;
    var w := InsertView(v, q, item);
    SliceBehind(v.items, q, item, v.g, if acc.Segment? then v.g + acc.unread else v.g);
    ClassLenTail(w.items, w.g, v.items, v.g, v.items[v.g].rank);
  }

  lemma SliceBefore(xs: seq<Item>, q: nat, item: Item, a: nat, b: nat)
    requires a <= b <= q <= |xs|
    ensures (xs[..q] + [item] + xs[q..])[a..b] == xs[a..b]
  {}

  lemma InsertAhead(v: View, acc: Account, q: nat, item: Item, L: nat, k: nat)
    requires SortedView(v) && v.g < q <= |v.items| && v.items[v.g].rank < k && AccountOk(v, acc, L)
    requires SortedView(InsertView(v, q, item))
    requires acc.Segment? ==> v.g + acc.unread <= q
    ensures var w := InsertView(v, q, item);
      && w.g < |w.items| && w.items[w.g] == v.items[v.g] && AccountOk(w, acc, L)
      && Potential(w, acc, L, k) <= Potential(v, acc, L, k) + (if acc.Segment? then 3 else 9)
  {
    hide LiveIn, ClassLen, Cap, Cost;
    ClassLenInsert(v.items, q, item, v.g, v.items[v.g].rank);
    if acc.Segment? { SliceBefore(v.items, q, item, v.g, v.g + acc.unread); }
  }

  /** A key is inserted at a bound of its class, so never inside a run of equivalent entries. */
  ghost predicate AtClassBound(v: View, q: nat) {
    0 < q < |v.items| ==> v.items[q - 1].rank != v.items[q].rank
  }

  /** One connect that cleans two entries and inserts one. */
  lemma ConnectBounded(v: View, acc: Account, q: nat, item: Item, L: nat, k: nat) returns (acc': Account)
    requires Bounded(v, acc, L, k) && item.rank < k
    requires q <= |ExamineN(Restart(v), 2).items| && AtClassBound(ExamineN(Restart(v), 2), q)
    requires var w := InsertView(ExamineN(Restart(v), 2), q, item); SortedView(w) && LiveIn(w.items) <= L
    ensures Bounded(InsertView(ExamineN(Restart(v), 2), q, item), acc', L, k)
  {
    acc' := RestartBounded(v, acc, L, k);
    var u := Restart(v);
    BoundedRanks(u, acc', L, k);
    var w := ExamineN(u, 2);
    if u.g < |u.items| {
      acc' := ExamineTwice(u, acc', L, k);
      BoundedRanks(w, acc', L, k);
      InsertPaid(w, acc', q, item, L, k);
    } else {
      assert w == u && u.items == [];
      CapDrop(L, 0, k);
    }
  }

  lemma InsertPaid(w: View, acc: Account, q: nat, item: Item, L: nat, k: nat)
    requires Bounded(w, acc, L, k) && item.rank < k && q <= |w.items| && AtClassBound(w, q)
    requires Potential(w, acc, L, k) + (if w.g == |w.items| || acc.Segment? then 4 else 9) <= 4 * Cap(L, k)
    requires SortedView(InsertView(w, q, item)) && LiveIn(InsertView(w, q, item).items) <= L
    ensures Bounded(InsertView(w, q, item), acc, L, k)
  {
    var x := InsertView(w, q, item);
    forall i | 0 <= i < |x.items| ensures x.items[i].rank < k {
      if i < q { assert x.items[i] == w.items[i]; } else if i > q { assert x.items[i] == w.items[i - 1]; }
    }
    hide Cap, Cost, ClassLen, LiveIn, Dues;
    if w.g < |w.items| {
      if q <= w.g {
        InsertBehind(w, acc, q, item, L, k);
      } else {
        if acc.Segment? && q < w.g + acc.unread { SameClass(w, acc, q, L); }
        InsertAhead(w, acc, q, item, L, k);
      }
    }
  }

  lemma SameClass(w: View, acc: Account, q: nat, L: nat)
    requires w.g < q < |w.items| && AccountOk(w, acc, L) && acc.Segment? && q < w.g + acc.unread
    ensures w.items[q - 1].rank == w.items[q].rank
  {}

  /** A list without disconnected entries, at the end of a full clean-up. */
  lemma CleanBounded(v: View, L: nat, k: nat)
    requires SortedView(v) && v.g == |v.items| && LiveIn(v.items) <= L
    requires forall i :: 0 <= i < |v.items| ==> v.items[i].rank < k && v.items[i].live
    ensures Bounded(v, Rest, L, k)
  {
    LiveAll(v.items);
    if v.items != [] {
      assert v.items[0].rank < k;
      CapDrop(L, 0, k);
    }
  }
}
