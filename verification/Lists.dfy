/**
 Facts about the slot list as a sequence: positions of elements, insertion and removal, and the
 clean-up sweep that walks the list from a position and erases the dead entries it meets.
 */
module Lists {
  ghost predicate NoDup<T>(xs: seq<T>) {
    forall i, j :: 0 <= i < j < |xs| ==> xs[i] != xs[j]
  }

  /** Position of `x`, or the length when it does not occur: `|xs|` plays the part of `end()`. */
  function IndexOf<T(==)>(xs: seq<T>, x: T): (r: nat)
    ensures r <= |xs|
    ensures r < |xs| ==> xs[r] == x
    ensures forall i :: 0 <= i < r ==> xs[i] != x
    ensures r == |xs| <==> x !in xs
  {
    if xs == [] then 0
    else if xs[0] == x then 0
    else
      assert xs == [xs[0]] + xs[1..];
      1 + IndexOf(xs[1..], x)
  }

  lemma IndexOfAt<T>(xs: seq<T>, p: nat)
    requires NoDup(xs) && p < |xs|
    ensures IndexOf(xs, xs[p]) == p
  {
    var r := IndexOf(xs, xs[p]);
    if r < p { assert false; }
  }

  function InsertAt<T>(xs: seq<T>, p: nat, x: T): (r: seq<T>)
    requires p <= |xs|
    ensures |r| == |xs| + 1 && r[p] == x
    ensures forall i :: 0 <= i < p ==> r[i] == xs[i]
    ensures forall i :: p < i < |r| ==> r[i] == xs[i - 1]
  {
    xs[..p] + [x] + xs[p..]
  }

  function RemoveAt<T>(xs: seq<T>, p: nat): (r: seq<T>)
    requires p < |xs|
    ensures |r| == |xs| - 1
    ensures forall i :: 0 <= i < p ==> r[i] == xs[i]
    ensures forall i :: p <= i < |r| ==> r[i] == xs[i + 1]
  {
    xs[..p] + xs[p + 1..]
  }

  lemma InsertMembers<T>(xs: seq<T>, p: nat, x: T)
    requires p <= |xs|
    ensures forall y :: y in InsertAt(xs, p, x) <==> y == x || y in xs
  {
    var r := InsertAt(xs, p, x);
    assert r[p] == x;
    assert xs == xs[..p] + xs[p..];
  }

  lemma InsertNoDup<T>(xs: seq<T>, p: nat, x: T)
    requires p <= |xs| && NoDup(xs) && x !in xs
    ensures NoDup(InsertAt(xs, p, x))
  {
    var r := InsertAt(xs, p, x);
    forall i, j | 0 <= i < j < |r| ensures r[i] != r[j] {
      if i < p { assert r[i] == xs[i]; }
      if i > p { assert r[i] == xs[i - 1]; }
      if j < p { assert r[j] == xs[j]; }
      if j > p { assert r[j] == xs[j - 1]; }
    }
  }

  /** The entries that survive a clean-up, in their order. */
  function Keep<T(==)>(xs: seq<T>, dead: set<T>): (r: seq<T>)
    ensures |r| <= |xs|
  {
    if xs == [] then [] else if xs[0] in dead then Keep(xs[1..], dead) else [xs[0]] + Keep(xs[1..], dead)
  }

  /**
   The loop of `nolock_cleanup_connections_from`: examine `n` entries from position `g`, erase those in
   `dead`, step over the others. Returns the list left and the position reached.
   */
  function SweepFrom<T(==)>(xs: seq<T>, dead: set<T>, g: nat, n: nat): (r: (seq<T>, nat))
    requires g <= |xs|
    ensures r.1 <= |r.0|
    decreases n
  {
    if n == 0 || g == |xs| then (xs, g)
    else if xs[g] in dead then SweepFrom(RemoveAt(xs, g), dead, g, n - 1)
    else SweepFrom(xs, dead, g + 1, n - 1)
  }

  function Min(a: nat, b: nat): nat { if a < b then a else b }

  lemma RemoveSlices<T>(xs: seq<T>, g: nat, e: nat)
    requires g < e <= |xs|
    ensures xs[g..e] == [xs[g]] + xs[g + 1..e]
    ensures var zs := RemoveAt(xs, g); xs[g..e][1..] == zs[g..e - 1] && zs[e - 1..] == xs[e..] && zs[..g] == xs[..g]
  {}

  /** The sweep in one piece: the part before and after is untouched, the part examined loses its dead entries. */
  lemma {:induction false} SweepShape<T>(xs: seq<T>, dead: set<T>, g: nat, n: nat)
    requires g <= |xs|
    ensures var e := Min(g + n, |xs|); var k := Keep(xs[g..e], dead);
      SweepFrom(xs, dead, g, n) == (xs[..g] + k + xs[e..], g + |k|)
    decreases n
  {
    var e := Min(g + n, |xs|);
    if n == 0 || g == |xs| {
      assert xs[g..e] == [];
      assert xs[..g] + [] + xs[e..] == xs;
    } else if xs[g] in dead {
      SweepShape(RemoveAt(xs, g), dead, g, n - 1);
      RemoveSlices(xs, g, e);
    } else {
      SweepShape(xs, dead, g + 1, n - 1);
      var k := Keep(xs[g + 1..e], dead);
      assert xs[g..e][1..] == xs[g + 1..e];
      assert xs[..g + 1] == xs[..g] + [xs[g]];
      assert xs[..g] + [xs[g]] + k == xs[..g] + ([xs[g]] + k);
    }
  }

  lemma {:induction false} KeepMembers<T>(xs: seq<T>, dead: set<T>)
    ensures forall x :: x in Keep(xs, dead) <==> x in xs && x !in dead
  {
    if xs != [] {
      KeepMembers(xs[1..], dead);
      assert xs == [xs[0]] + xs[1..];
    }
  }

  /** `ys` is obtained from `xs` by leaving entries out: an increasing choice of positions. */
  ghost predicate SubseqBy<T>(ys: seq<T>, xs: seq<T>, at: seq<nat>) {
    && |at| == |ys|
    && (forall i :: 0 <= i < |at| ==> at[i] < |xs| && ys[i] == xs[at[i]])
    && (forall i, j :: 0 <= i < j < |at| ==> at[i] < at[j])
  }

  /** The positions of `xs` a sweep keeps. */
  lemma {:induction false} SweepSubseq<T>(xs: seq<T>, dead: set<T>, g: nat, n: nat) returns (at: seq<nat>)
    requires g <= |xs|
    ensures SubseqBy(SweepFrom(xs, dead, g, n).0, xs, at)
    decreases n
  {
    if n == 0 || g == |xs| {
      at := seq(|xs|, i => i);
    } else if xs[g] in dead {
      var zs := RemoveAt(xs, g);
      var sub := SweepSubseq(zs, dead, g, n - 1);
      at := seq(|sub|, i requires 0 <= i < |sub| => if sub[i] < g then sub[i] else sub[i] + 1);
    } else {
      at := SweepSubseq(xs, dead, g + 1, n - 1);
    }
  }

  /** Membership after a sweep. */
  lemma SweepMembers<T>(xs: seq<T>, dead: set<T>, g: nat, n: nat)
    requires g <= |xs|
    ensures var ys := SweepFrom(xs, dead, g, n).0; var e := Min(g + n, |xs|);
      forall x :: x in ys <==> x in xs[..g] || (x in xs[g..e] && x !in dead) || x in xs[e..]
  {
    SweepShape(xs, dead, g, n);
    KeepMembers(xs[g..Min(g + n, |xs|)], dead);
  }
}
