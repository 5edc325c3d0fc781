/**
 The number of connected bodies alone does not bound the slot list. The run built here keeps at most three bodies
 connected and uses a new group now and then, each before all those used so far. Each connect examines a
 disconnected entry, which goes, and the still connected entry inserted right behind it by the connect before, which
 stays and is disconnected only then. So a whole sweep replaces every disconnected entry by another one, and the two
 bodies that are connected when it starts make the list one entry longer. Whenever there is no end of groups that
 the comparison tells apart, there is such a run.
 */
module GrowthUnbounded {
  import opened Options
  import opened GroupKeys
  import opened Lists
  import opened Protocol
  import opened Steps
  import opened Invariants
  import opened Growth
  import opened GrowthTight

  datatype Cell<G> = Cell(key: Key<G>, live: bool)

  /** The list as its keys and connected flags. */
  ghost function Cells<G>(s: State<G>): (r: seq<Cell<G>>)
    requires Ranges(s)
    ensures |r| == |CurList(s)|
  {
    seq(|CurList(s)|, i requires 0 <= i < |CurList(s)| =>
      Cell(s.bodies[CurList(s)[i]].key, s.bodies[CurList(s)[i]].core.connected))
  }

  /** Nobody invokes the signal and no slot tracks anything: every connect cleans two entries in place. */
  ghost predicate Calm<G(!new)>(s: State<G>) {
    && Solid(s) && s.invs == [] && s.mutex.None?
    && forall b :: 0 <= b < |s.bodies| ==> s.bodies[b].tracked == []
  }

  lemma AboutCalm<G(!new)>(s: State<G>)
    requires Calm(s)
    ensures Ranges(s) && NoDup(CurList(s)) && Unique(s) && s.mutex.None? && StrictWeak(s.lt)
    ensures s.gc.Some? ==> s.gc.value in CurList(s)
    ensures forall k: Key<G> :: Enabled(s, Join(k))
    ensures ConnectedSet(s) <= (set x | x in CurList(s))
  {}

  function Join<G>(k: Key<G>): Step<G> { Connect(k, AtBack, [], {}) }

  // ---------------------------------------------------------------- the clean-up of two entries

  lemma SweepDeadLive(xs: seq<nat>, dead: set<nat>, g: nat)
    requires g + 1 < |xs| && xs[g] in dead && xs[g + 1] !in dead
    ensures SweepFrom(xs, dead, g, 2) == (RemoveAt(xs, g), g + 1)
  {
    var ys := RemoveAt(xs, g);
    assert ys[g] == xs[g + 1];
    assert SweepFrom(ys, dead, g, 1) == SweepFrom(ys, dead, g + 1, 0) == (ys, g + 1);
  }

  /** When the entry at the iterator is dead and the next one connected. */
  lemma CleanDeadLive<G(!new)>(s: State<G>, g: nat)
    requires Ranges(s) && NoDup(CurList(s)) && g + 1 < |CurList(s)| && s.gc == Some(CurList(s)[g])
    requires !Cells(s)[g].live && Cells(s)[g + 1].live
    ensures CleanFew(s, {}, 2) == s.(lists := s.lists[CurId(s) := RemoveAt(CurList(s), g)],
                                     gc := if g + 2 < |CurList(s)| then Some(CurList(s)[g + 2]) else None)
  {
    hide SweepFrom;
    var xs := CurList(s);
    IndexOfAt(xs, g);
    assert GcStart(s) == g && xs[g] in Dead(s.bodies);
    SweepDeadLive(xs, Dead(s.bodies), g);
    SweepNobody(s, g, 2);
  }

  /** At the start of a sweep, when the first two entries are connected. */
  lemma CleanLiveLive<G(!new)>(s: State<G>)
    requires Ranges(s) && 2 <= |CurList(s)| && s.gc == None && Cells(s)[0].live && Cells(s)[1].live
    ensures CleanFew(s, {}, 2) == s.(gc := if 2 < |CurList(s)| then Some(CurList(s)[2]) else None)
  {
    var xs, dead := CurList(s), Dead(s.bodies);
    assert SweepFrom(xs, dead, 0, 2) == SweepFrom(xs, dead, 1, 1) == SweepFrom(xs, dead, 2, 0) == (xs, 2);
    SweepNobody(s, 0, 2);
    assert s.lists[CurId(s) := xs] == s.lists;
  }

  // ---------------------------------------------------------------- connect, then disconnect the one before

  /** A connect behind a clean-up, in cells. */
  lemma JoinCells<G(!new)>(s: State<G>, c: State<G>, t: State<G>, k: Key<G>, q: nat)
    requires Calm(s) && Ranges(s) && c == CleanFew(s, {}, 2) && Ranges(c) && c.lt == s.lt
    requires q == UpperBound(c.lt, KeysOf(c.bodies, CurList(c)), k) && Enabled(s, Join(k)) && t == Apply(s, Join(k))
    ensures Ranges(t) && Calm(t) && t == AddBody(c, k, AtBack, []) && q <= |CurList(c)|
    ensures CurList(t) == InsertAt(CurList(c), q, |c.bodies|) && Cells(t) == InsertAt(Cells(c), q, Cell(k, true))
  {
    StepSolid(s, Join(k));
    assert Unique(s);
    assert t == AddBody(c, k, AtBack, []);
    AddedCells(c, t, k, q);
    forall b | 0 <= b < |t.bodies| ensures t.bodies[b].tracked == [] {
      if b < |s.bodies| { ForceUniqueGrows(s, {}); }
    }
  }

  lemma AddedCells<G(!new)>(c: State<G>, t: State<G>, k: Key<G>, q: nat)
    requires Ranges(c) && Ranges(t) && q == InsertPos(c, k, AtBack) && t == AddBody(c, k, AtBack, [])
    ensures CurList(t) == InsertAt(CurList(c), q, |c.bodies|) && Cells(t) == InsertAt(Cells(c), q, Cell(k, true))
  {}

  lemma LeaveCells<G(!new)>(t: State<G>, u: State<G>, p: nat)
    requires Calm(t) && Ranges(t) && p < |CurList(t)| && CurList(t)[p] < |t.bodies| && NoDup(CurList(t))
    requires u == Apply(t, Disconnect(CurList(t)[p]))
    ensures Calm(u) && Ranges(u) && CurList(u) == CurList(t) && u.gc == t.gc
    ensures Cells(u) == Cells(t)[p := Cell(Cells(t)[p].key, false)]
    ensures ConnectedSet(u) <= ConnectedSet(t)
  {
    StepSolid(t, Disconnect(CurList(t)[p]));
  }

  /** At most three bodies are connected: those in the list whose cells say so. */
  lemma FewCells<G(!new)>(s: State<G>, i: nat, j: nat, k: nat)
    requires Calm(s) && Ranges(s) && i < |CurList(s)| && j < |CurList(s)| && k < |CurList(s)|
    requires forall p :: 0 <= p < |CurList(s)| && Cells(s)[p].live ==> p == i || p == j || p == k
    ensures |ConnectedSet(s)| <= 3
  {
    AboutCalm(s);
    var xs := CurList(s);
    var three := {xs[i], xs[j], xs[k]};
    forall b | b in ConnectedSet(s) ensures b in three {
      var p := IndexOf(xs, b);
      assert Cells(s)[p].live;
    }
    SubsetSize(ConnectedSet(s), three);
    assert |three| <= 3;
  }

  // ---------------------------------------------------------------- the shape of the list

  /** Each group before the one at the place before. */
  ghost predicate Descending<G(!new)>(lt: GroupCompare<G>, chain: seq<G>) {
    forall a, b :: 0 <= a < b < |chain| ==> lt(chain[b], chain[a])
  }

  lemma ChainLess<G(!new)>(lt: GroupCompare<G>, chain: seq<G>)
    requires StrictWeak(lt) && Descending(lt, chain)
    ensures forall a, b :: 0 <= a < |chain| && 0 <= b < |chain| ==> (lt(chain[b], chain[a]) <==> a < b)
  {
    forall a, b | 0 <= a < |chain| && 0 <= b < |chain| ensures lt(chain[b], chain[a]) <==> a < b {
      if a == b { LessIsIrreflexive(lt, Grouped(chain[a])); }
      if b < a { LessIsAsymmetric(lt, Grouped(chain[a]), Grouped(chain[b])); }
    }
  }

  /** At the start of a sweep: a connected front slot, then the first `m` groups, the least first and connected. */
  function StartCells<G>(chain: seq<G>, m: nat): (r: seq<Cell<G>>)
    requires m <= |chain|
  {
    seq(m + 1, i requires 0 <= i <= m => Cell(if i == 0 then FrontUngrouped else Grouped(chain[m - i]), i <= 1))
  }

  /** In the sweep: entry `j` is next, and the connected entry behind it has the same group. */
  function MiddleCells<G>(chain: seq<G>, m: nat, j: nat): (r: seq<Cell<G>>)
    requires 1 <= j <= m <= |chain|
  {
    seq(m + 2, i requires 0 <= i <= m + 1 =>
      Cell(if i == 0 then FrontUngrouped else Grouped(chain[if i <= j then m - i else m + 1 - i]),
           i == 0 || i == j + 1))
  }

  ghost predicate Start<G(!new)>(s: State<G>, chain: seq<G>, m: nat) {
    && Calm(s) && Descending(s.lt, chain) && 1 <= m <= |chain|
    && Ranges(s) && Cells(s) == StartCells(chain, m) && s.gc.None?
  }

  ghost predicate Middle<G(!new)>(s: State<G>, chain: seq<G>, m: nat, j: nat) {
    && Calm(s) && Descending(s.lt, chain) && 2 <= j <= m <= |chain|
    && Ranges(s) && Cells(s) == MiddleCells(chain, m, j) && s.gc == Some(CurList(s)[j])
  }

  /** Two steps of the run: connect under `k`, then disconnect the body at position `p`. */
  lemma JoinAndLeave<G(!new)>(s: State<G>, c: State<G>, k: Key<G>, q: nat, p: nat)
      returns (t: State<G>, u: State<G>, b: nat)
    requires Calm(s) && Ranges(s) && c == CleanFew(s, {}, 2) && Ranges(c) && c.lt == s.lt
    requires q == UpperBound(c.lt, KeysOf(c.bodies, CurList(c)), k) && p <= |CurList(c)|
    ensures Enabled(s, Join(k)) && t == Apply(s, Join(k)) && Calm(t) && Ranges(t)
    ensures Enabled(t, Step<G>.Disconnect(b)) && u == Apply(t, Disconnect(b)) && Calm(u) && Ranges(u)
    ensures q <= |CurList(c)| && Cells(t) == InsertAt(Cells(c), q, Cell(k, true)) && u.lt == s.lt
    ensures Cells(u) == Cells(t)[p := Cell(Cells(t)[p].key, false)] && ConnectedSet(u) <= ConnectedSet(t)
    ensures CurList(u) == InsertAt(CurList(c), q, |c.bodies|) && u.gc == c.gc
  {
    hide Calm, Apply, AddBody;
    AboutCalm(s);
    t := Apply(s, Join(k));
    JoinCells(s, c, t, k, q);
    AddedGc(c, t, k);
    StepKeepsOrder(s, Join(k));
    AboutCalm(t);
    b := CurList(t)[p];
    u := Apply(t, Disconnect(b));
    LeaveCells(t, u, p);
    StepKeepsOrder(t, Disconnect(b));
  }

  lemma AddedGc<G(!new)>(c: State<G>, t: State<G>, k: Key<G>)
    requires Ranges(c) && t == AddBody(c, k, AtBack, [])
    ensures t.gc == c.gc
  {}

  lemma KeysOfCells<G(!new)>(c: State<G>, i: nat)
    requires Ranges(c) && i < |CurList(c)|
    ensures KeysOf(c.bodies, CurList(c))[i] == Cells(c)[i].key
  {}

  /** Where the next group goes, by the keys of the cells. */
  lemma GoesTo<G(!new)>(c: State<G>, cells: seq<Cell<G>>, k: Key<G>, q: nat)
    requires Ranges(c) && Cells(c) == cells && q <= |cells|
    requires forall i :: 0 <= i < q ==> !KeyLess(c.lt, k, cells[i].key)
    requires q < |cells| ==> KeyLess(c.lt, k, cells[q].key)
    ensures q == UpperBound(c.lt, KeysOf(c.bodies, CurList(c)), k)
  {
    forall i | 0 <= i < |CurList(c)| ensures KeysOf(c.bodies, CurList(c))[i] == cells[i].key { KeysOfCells(c, i); }
  }

  /**
   `k` goes to `q` in `cells`, and with entry `p` disconnected afterwards that gives `after`; three entries are live
   meanwhile.
   */
  ghost predicate Turns<G(!new)>(lt: GroupCompare<G>, cells: seq<Cell<G>>, k: Key<G>, q: nat, p: nat,
                                 after: seq<Cell<G>>)
  {
    && q <= |cells| && p <= |cells|
    && (forall i :: 0 <= i < q ==> !KeyLess(lt, k, cells[i].key))
    && (q < |cells| ==> KeyLess(lt, k, cells[q].key))
    && var joined := InsertAt(cells, q, Cell(k, true));
      && joined[p := Cell(joined[p].key, false)] == after
      && forall r :: 0 <= r < |joined| && joined[r].live ==> r == 0 || r == p || r == q
  }

  lemma FirstShape<G(!new)>(lt: GroupCompare<G>, chain: seq<G>, m: nat)
    requires StrictWeak(lt) && Descending(lt, chain) && 1 <= m <= |chain| && 2 <= |chain|
    ensures if m == 1 then Turns(lt, StartCells(chain, 1), Grouped(chain[1]), 1, 2, StartCells(chain, 2))
            else Turns(lt, StartCells(chain, m), Grouped(chain[m - 2]), 3, 1, MiddleCells(chain, m, 2))
  {
    ChainLess(lt, chain);
    if m == 1 {
      var joined := InsertAt(StartCells(chain, m), 1, Cell(Grouped(chain[1]), true));
      assert joined[2 := Cell(joined[2].key, false)] == StartCells(chain, 2);
    } else {
      var joined := InsertAt(StartCells(chain, m), 3, Cell(Grouped(chain[m - 2]), true));
      assert joined[1 := Cell(joined[1].key, false)] == MiddleCells(chain, m, 2);
    }
  }

  /** In the sweep, when entry `j` has been erased. */
  lemma ErasedCells<G>(chain: seq<G>, m: nat, j: nat)
    requires 1 <= j <= m <= |chain|
    ensures var cells := RemoveAt(MiddleCells(chain, m, j), j);
      |cells| == m + 1 && forall i :: 0 <= i <= m ==>
        cells[i] == Cell(if i == 0 then FrontUngrouped else Grouped(chain[m - i]), i == 0 || i == j)
  {}

  lemma NextMiddle<G(!new)>(chain: seq<G>, m: nat, j: nat, cells: seq<Cell<G>>)
    requires 1 <= j < m < |chain| && |cells| == m + 1
    requires forall i :: 0 <= i <= m ==>
      cells[i] == Cell(if i == 0 then FrontUngrouped else Grouped(chain[m - i]), i == 0 || i == j)
    ensures var joined := InsertAt(cells, j + 2, Cell(Grouped(chain[m - j - 1]), true));
      joined[j := Cell(joined[j].key, false)] == MiddleCells(chain, m, j + 1)
  {}

  lemma NextStart<G(!new)>(chain: seq<G>, m: nat, cells: seq<Cell<G>>)
    requires 1 <= m < |chain| && |cells| == m + 1
    requires forall i :: 0 <= i <= m ==>
      cells[i] == Cell(if i == 0 then FrontUngrouped else Grouped(chain[m - i]), i == 0 || i == m)
    ensures var joined := InsertAt(cells, 1, Cell(Grouped(chain[m]), true));
      joined[m + 1 := Cell(joined[m + 1].key, false)] == StartCells(chain, m + 1)
  {}

  lemma NextShape<G(!new)>(lt: GroupCompare<G>, chain: seq<G>, m: nat, j: nat)
    requires StrictWeak(lt) && Descending(lt, chain) && 2 <= j <= m < |chain|
    ensures var cells := RemoveAt(MiddleCells(chain, m, j), j);
      if j < m then Turns(lt, cells, Grouped(chain[m - j - 1]), j + 2, j, MiddleCells(chain, m, j + 1))
      else Turns(lt, cells, Grouped(chain[m]), 1, j + 1, StartCells(chain, m + 1))
  {
    hide RemoveAt, MiddleCells, StartCells;
    ChainLess(lt, chain);
    ErasedCells(chain, m, j);
    var cells := RemoveAt(MiddleCells(chain, m, j), j);
    if j < m { NextMiddle(chain, m, j, cells); } else { NextStart(chain, m, cells); }
  }

  /** One turn of the run: connect, then disconnect, with at most three bodies connected throughout. */
  ghost predicate Turn<G(!new)>(s: State<G>, k: Key<G>, b: nat, u: State<G>) {
    && Ranges(s) && Enabled(s, Join(k)) && Ranges(Apply(s, Join(k)))
    && Enabled(Apply(s, Join(k)), Step<G>.Disconnect(b)) && u == Apply(Apply(s, Join(k)), Disconnect(b))
    && |ConnectedSet(Apply(s, Join(k)))| <= 3 && |ConnectedSet(u)| <= 3
  }

  lemma TakeTurn<G(!new)>(s: State<G>, c: State<G>, k: Key<G>, q: nat, p: nat, after: seq<Cell<G>>)
      returns (u: State<G>, b: nat)
    requires Calm(s) && Ranges(s) && c == CleanFew(s, {}, 2) && Ranges(c) && c.lt == s.lt
    requires Turns(s.lt, Cells(c), k, q, p, after)
    ensures Turn(s, k, b, u) && Calm(u) && Ranges(u) && Cells(u) == after && u.lt == s.lt
    ensures q <= |CurList(c)| && CurList(u) == InsertAt(CurList(c), q, |c.bodies|) && u.gc == c.gc
  {
    hide Calm, Apply, Enabled, Cells, CleanFew, StrictWeak;
    GoesTo(c, Cells(c), k, q);
    var t;
    t, u, b := JoinAndLeave(s, c, k, q, p);
    FewCells(t, 0, p, q);
    SubsetSize(ConnectedSet(u), ConnectedSet(t));
  }

  lemma FirstConnect<G(!new)>(s: State<G>, chain: seq<G>, m: nat) returns (k: Key<G>, u: State<G>, b: nat)
    requires Start(s, chain, m) && m < |chain|
    ensures Turn(s, k, b, u) && if m == 1 then Start(u, chain, 2) else Middle(u, chain, m, 2)
  {
    hide Calm, Turn, Turns, Cells, StrictWeak, StartCells, MiddleCells, Descending;
    AboutCalm(s);
    StartLive(s, chain, m);
    CleanLiveLive(s);
    var c := CleanFew(s, {}, 2);
    RangesWithGc(s, c);
    FirstShape(s.lt, chain, m);
    if m == 1 {
      k := Grouped(chain[1]);
      u, b := TakeTurn(s, c, k, 1, 2, StartCells(chain, 2));
    } else {
      k := Grouped(chain[m - 2]);
      u, b := TakeTurn(s, c, k, 3, 1, MiddleCells(chain, m, 2));
    }
  }

  lemma AtLeastOne<G(!new)>(s: State<G>, chain: seq<G>, m: nat)
    requires Start(s, chain, m)
    ensures 1 <= m
  {}

  lemma StartLive<G(!new)>(s: State<G>, chain: seq<G>, m: nat)
    requires Start(s, chain, m)
    ensures |Cells(s)| == m + 1 && Cells(s)[0].live && Cells(s)[1].live
  {}

  lemma RangesWithGc<G(!new)>(s: State<G>, c: State<G>)
    requires Ranges(s) && c == s.(gc := c.gc)
    ensures Ranges(c) && Cells(c) == Cells(s)
  {
    forall i | 0 <= i < |c.invs| ensures InvRanges(c, c.invs[i]) { assert InvRanges(s, s.invs[i]); }
  }

  /** The clean-up within a sweep: the dead entry at the iterator goes, the connected one behind it stays. */
  lemma CleanMiddle<G(!new)>(s: State<G>, chain: seq<G>, m: nat, j: nat) returns (c: State<G>)
    requires Middle(s, chain, m, j)
    ensures Calm(s) && Ranges(s) && c == CleanFew(s, {}, 2) && Ranges(c) && c.lt == s.lt && j <= m <= |chain|
    ensures Cells(c) == RemoveAt(MiddleCells(chain, m, j), j)
    ensures CurList(c) == RemoveAt(CurList(s), j) && |CurList(s)| == m + 2 && |c.bodies| == |s.bodies|
    ensures c.gc == if j < m then Some(CurList(s)[j + 2]) else None
  {
    hide Calm, CleanFew;
    AboutCalm(s);
    assert |Cells(s)| == m + 2 && !Cells(s)[j].live && Cells(s)[j + 1].live;
    CleanDeadLive(s, j);
    c := CleanFew(s, {}, 2);
    CleanFewRanges(s);
    RemovedCells(s, c, j);
  }

  lemma CleanFewRanges<G(!new)>(s: State<G>)
    requires Ranges(s)
    ensures Ranges(CleanFew(s, {}, 2))
  {
    SweepRanges(s, {}, GcStart(s), 2);
  }

  lemma NextConnect<G(!new)>(s: State<G>, chain: seq<G>, m: nat, j: nat) returns (k: Key<G>, u: State<G>, b: nat)
    requires Middle(s, chain, m, j) && m < |chain|
    ensures Turn(s, k, b, u) && if j < m then Middle(u, chain, m, j + 1) else Start(u, chain, m + 1)
  {
    hide Calm, Turn, Turns, Cells, CleanFew, MiddleCells, StartCells, Descending, StrictWeak;
    var c := CleanMiddle(s, chain, m, j);
    AboutCalm(s);
    NextShape(s.lt, chain, m, j);
    if j < m {
      k := Grouped(chain[m - j - 1]);
      u, b := TakeTurn(s, c, k, j + 2, j, MiddleCells(chain, m, j + 1));
      assert CurList(u)[j + 1] == CurList(c)[j + 1] == CurList(s)[j + 2];
    } else {
      k := Grouped(chain[m]);
      u, b := TakeTurn(s, c, k, 1, j + 1, StartCells(chain, m + 1));
    }
  }

  lemma RemovedCells<G(!new)>(s: State<G>, c: State<G>, g: nat)
    requires Ranges(s) && Ranges(c) && g < |CurList(s)|
    requires c == s.(lists := s.lists[CurId(s) := RemoveAt(CurList(s), g)], gc := c.gc)
    ensures CurList(c) == RemoveAt(CurList(s), g) && Cells(c) == RemoveAt(Cells(s), g)
  {}

  // ---------------------------------------------------------------- the run

  lemma {:induction false} FewAppend<G(!new)>(s: State<G>, a: seq<Step<G>>, t: State<G>, b: seq<Step<G>>, u: State<G>)
    requires Runs(s, a, t) && Runs(t, b, u) && FewConnected(s, a, 3) && FewConnected(t, b, 3)
    ensures Runs(s, a + b, u) && FewConnected(s, a + b, 3)
    decreases |a|
  {
    hide Enabled, Apply;
    if a == [] {
      assert a + b == b;
    } else {
      assert (a + b)[1..] == a[1..] + b;
      FewAppend(Apply(s, a[0]), a[1..], t, b, u);
    }
  }

  lemma TurnRuns<G(!new)>(s: State<G>, k: Key<G>, b: nat, u: State<G>)
    requires Turn(s, k, b, u) && |ConnectedSet(s)| <= 3
    ensures Runs(s, [Join(k), Disconnect(b)], u) && FewConnected(s, [Join(k), Disconnect(b)], 3)
  {
    hide Enabled, Apply;
    var steps, t := [Join(k), Disconnect(b)], Apply(s, Join(k));
    assert steps[1..] == [Disconnect(b)] && steps[1..][1..] == [];
    assert Runs(u, [], u) && FewConnected(u, [], 3);
    assert Runs(t, [Disconnect(b)], u) && FewConnected(t, [Disconnect(b)], 3);
  }

  lemma TurnFew<G(!new)>(s: State<G>, k: Key<G>, b: nat, u: State<G>)
    requires Turn(s, k, b, u)
    ensures |ConnectedSet(u)| <= 3
  {}

  lemma MiddleIndex<G(!new)>(s: State<G>, chain: seq<G>, m: nat, j: nat)
    requires Middle(s, chain, m, j)
    ensures j <= m
  {}

  /** The rest of a sweep. */
  lemma {:induction false} FinishSweep<G(!new)>(s: State<G>, chain: seq<G>, m: nat, j: nat)
      returns (steps: seq<Step<G>>, u: State<G>)
    requires Middle(s, chain, m, j) && m < |chain| && |ConnectedSet(s)| <= 3
    ensures Runs(s, steps, u) && FewConnected(s, steps, 3) && Start(u, chain, m + 1) && |ConnectedSet(u)| <= 3
    decreases m - j
  {
    hide *;
    assert j <= m by { MiddleIndex(s, chain, m, j); }
    var k, v, b := NextConnect(s, chain, m, j);
    TurnFew(s, k, b, v);
    TurnRuns(s, k, b, v);
    steps, u := [Join(k), Disconnect(b)], v;
    if j < m {
      var more;
      more, u := FinishSweep(v, chain, m, j + 1);
      FewAppend(s, steps, v, more, u);
      steps := steps + more;
    }
  }

  /** A sweep makes the list one entry longer. */
  lemma WholeSweep<G(!new)>(s: State<G>, chain: seq<G>, m: nat) returns (steps: seq<Step<G>>, u: State<G>)
    requires Start(s, chain, m) && m < |chain| && |ConnectedSet(s)| <= 3
    ensures Runs(s, steps, u) && FewConnected(s, steps, 3) && Start(u, chain, m + 1) && |ConnectedSet(u)| <= 3
  {
    hide *;
    assert 1 <= m by { AtLeastOne(s, chain, m); }
    var k, v, b := FirstConnect(s, chain, m);
    TurnFew(s, k, b, v);
    TurnRuns(s, k, b, v);
    steps, u := [Join(k), Disconnect(b)], v;
    if m > 1 {
      var more;
      more, u := FinishSweep(v, chain, m, 2);
      FewAppend(s, steps, v, more, u);
      steps := steps + more;
    }
  }

  /** Two connects on a new signal: one front slot, one in the first group. */
  lemma FirstTwo<G(!new)>(s: State<G>, chain: seq<G>) returns (steps: seq<Step<G>>, u: State<G>)
    requires s == Init(s.lt, 0, {}) && StrictWeak(s.lt) && Descending(s.lt, chain) && chain != []
    ensures Runs(s, steps, u) && FewConnected(s, steps, 3) && Start(u, chain, 1) && |ConnectedSet(u)| <= 3
  {
    hide Apply, Calm, Enabled, Start, Descending;
    CalmAtFirst(s);
    var t := ConnectFirst(s);
    u := ConnectSecond(t, chain);
    steps := [Join(FrontUngrouped), Join(Grouped(chain[0]))];
    assert steps[1..] == [Join(Grouped(chain[0]))] && steps[1..][1..] == [];
    assert Runs(u, [], u) && FewConnected(u, [], 3);
    assert Runs(t, [Join(Grouped(chain[0]))], u) && FewConnected(t, [Join(Grouped(chain[0]))], 3);
  }

  lemma CalmAtFirst<G(!new)>(s: State<G>)
    requires s == Init(s.lt, 0, {}) && StrictWeak(s.lt)
    ensures Calm(s) && Ranges(s) && ConnectedSet(s) == {}
  {}

  lemma ConnectFirst<G(!new)>(s: State<G>) returns (t: State<G>)
    requires s == Init(s.lt, 0, {}) && Calm(s) && Ranges(s)
    ensures Enabled(s, Join(FrontUngrouped)) && t == Apply(s, Join(FrontUngrouped)) && Calm(t) && Ranges(t)
    ensures t.lt == s.lt
    ensures Cells(t) == [Cell(FrontUngrouped, true)] && t.gc.None? && |ConnectedSet(t)| <= 3
  {
    AboutCalm(s);
    var c := CleanFew(s, {}, 2);
    assert CurList(s) == [] && SweepFrom(CurList(s), Dead(s.bodies), 0, 2) == ([], 0);
    SweepNobody(s, 0, 2);
    SweepRanges(s, {}, 0, 2);
    t := Apply(s, Join(FrontUngrouped));
    JoinCells(s, c, t, FrontUngrouped, 0);
    FewCells(t, 0, 0, 0);
  }

  lemma ConnectSecond<G(!new)>(s: State<G>, chain: seq<G>) returns (t: State<G>)
    requires Calm(s) && Ranges(s) && Cells(s) == [Cell(FrontUngrouped, true)] && s.gc.None?
    requires Descending(s.lt, chain) && chain != []
    ensures Enabled(s, Join(Grouped(chain[0]))) && t == Apply(s, Join(Grouped(chain[0]))) && Start(t, chain, 1)
    ensures |ConnectedSet(t)| <= 3
  {
    hide Calm, Apply, Enabled, Descending;
    var k := Grouped(chain[0]);
    AboutCalm(s);
    var c := CleanFew(s, {}, 2);
    CleanOne(s, c);
    GoesTo(c, [Cell(FrontUngrouped, true)], k, 1);
    t := Apply(s, Join(k));
    JoinCells(s, c, t, k, 1);
    AddedGc(c, t, k);
    FewCells(t, 0, 1, 1);
    StepKeepsOrder(s, Join(k));
    assert Cells(t) == StartCells(chain, 1);
  }

  lemma CleanOne<G(!new)>(s: State<G>, c: State<G>)
    requires Ranges(s) && Cells(s) == [Cell(FrontUngrouped, true)] && s.gc.None? && c == CleanFew(s, {}, 2)
    ensures Ranges(c) && Cells(c) == Cells(s) && c.gc.None? && c.lt == s.lt
  {
    var xs, dead := CurList(s), Dead(s.bodies);
    assert Cells(s)[0].live && |xs| == 1;
    assert SweepFrom(xs, dead, 0, 2) == SweepFrom(xs, dead, 1, 1) == (xs, 1);
    SweepNobody(s, 0, 2);
    SweepRanges(s, {}, 0, 2);
  }

  /**
   With `n` groups in a chain there is a run with at most three bodies connected at once that leaves `n + 1` entries.
   */
  lemma {:induction false} ReachStart<G(!new)>(lt: GroupCompare<G>, chain: seq<G>, n: nat)
      returns (steps: seq<Step<G>>, u: State<G>)
    requires StrictWeak(lt) && Descending(lt, chain) && 1 <= n <= |chain|
    ensures Runs(Init(lt, 0, {}), steps, u) && FewConnected(Init(lt, 0, {}), steps, 3)
    ensures Start(u, chain, n) && |ConnectedSet(u)| <= 3
  {
    hide Start, Runs, FewConnected;
    var s := Init(lt, 0, {});
    if n == 1 {
      steps, u := FirstTwo(s, chain);
    } else {
      var t, more;
      steps, t := ReachStart(lt, chain, n - 1);
      more, u := WholeSweep(t, chain, n - 1);
      FewAppend(s, steps, t, more, u);
      steps := steps + more;
    }
  }

  // ---------------------------------------------------------------- where the groups come from

  /** Every group is equivalent to one of these. */
  ghost predicate Represents<G(!new)>(lt: GroupCompare<G>, reps: set<G>) { forall g: G :: StandsIn(lt, reps, g) }

  ghost predicate StandsIn<G(!new)>(lt: GroupCompare<G>, reps: set<G>, g: G) {
    exists r :: r in reps && Equivalent(lt, Grouped(r), Grouped(g))
  }

  /** The comparison tells only finitely many groups apart. */
  ghost predicate FinitelyMany<G(!new)>(lt: GroupCompare<G>) { exists reps: set<G> :: Represents(lt, reps) }

  /** If not, there are chains of any length. */
  lemma {:induction false} ChainOf<G(!new)>(lt: GroupCompare<G>, n: nat) returns (chain: seq<G>)
    requires StrictWeak(lt) && !FinitelyMany(lt)
    ensures |chain| == n && Descending(lt, chain)
  {
    chain := [];
    if n > 0 {
      chain := ChainOf(lt, n - 1);
      var reps := set g | g in chain;
      assert !Represents(lt, reps);
      var g: G :| !StandsIn(lt, reps, g);
      forall i | 0 <= i < |chain| ensures lt(chain[i], g) || lt(g, chain[i]) { assert chain[i] in reps; }
      chain := InsertGroup(lt, chain, g);
    }
  }

  lemma InsertGroup<G(!new)>(lt: GroupCompare<G>, chain: seq<G>, g: G) returns (r: seq<G>)
    requires StrictWeak(lt) && Descending(lt, chain)
    requires forall i :: 0 <= i < |chain| ==> lt(chain[i], g) || lt(g, chain[i])
    ensures |r| == |chain| + 1 && Descending(lt, r)
  {
    var q := 0;
    while q < |chain| && !lt(chain[q], g)
      invariant q <= |chain| && forall i :: 0 <= i < q ==> lt(g, chain[i])
    {
      q := q + 1;
    }
    r := InsertAt(chain, q, g);
    forall a, b | 0 <= a < b < |r| ensures lt(r[b], r[a]) {
      if a == q && b > q + 1 { assert lt(chain[b - 1], chain[q]); }
    }
  }

  // ---------------------------------------------------------------- exactly when growth is bounded

  /**
   A run of a new signal with at most `L` bodies connected at once and, if a limit is set, no more inequivalent keys
   than that.
   */
  ghost predicate Allowed<G(!new)>(s: State<G>, steps: seq<Step<G>>, t: State<G>, L: nat, keys: Option<nat>) {
    && Runs(s, steps, t) && FewConnected(s, steps, L)
    && (keys.Some? ==> AtMostClasses(s.lt, KeysUsed(steps), keys.value))
  }

  ghost predicate Capped<G(!new)>(lt: GroupCompare<G>, L: nat, keys: Option<nat>, bound: nat) {
    forall combiner, owned, steps, t ::
      Allowed(Init(lt, combiner, owned), steps, t, L, keys) ==> Ranges(t) && |CurList(t)| <= bound
  }

  lemma {:induction false} FewMore<G(!new)>(s: State<G>, steps: seq<Step<G>>, L: nat, M: nat)
    requires FewConnected(s, steps, L) && L <= M
    ensures FewConnected(s, steps, M)
    decreases |steps|
  {
    if steps != [] { FewMore(Apply(s, steps[0]), steps[1..], L, M); }
  }

  /** With at most two bodies connected at once three is a bound. */
  lemma CappedByThree<G(!new)>(lt: GroupCompare<G>, L: nat, keys: Option<nat>)
    requires StrictWeak(lt) && L <= 2
    ensures Capped(lt, L, keys, 3)
  {
    hide StrictWeak, Runs, FewConnected;
    forall combiner, owned, steps: seq<Step<G>>, t | Allowed(Init(lt, combiner, owned), steps, t, L, keys)
      ensures Ranges(t) && |CurList(t)| <= 3
    {
      FewMore(Init(lt, combiner, owned), steps, L, 2);
      ThreeEntriesAtMost(lt, combiner, owned, steps, t);
    }
  }

  /** A limit on the inequivalent keys gives one too. */
  lemma CappedByKeys<G(!new)>(lt: GroupCompare<G>, L: nat, keys: Option<nat>)
    requires StrictWeak(lt) && keys.Some?
    ensures Capped(lt, L, keys, (48 * L + 24) * keys.value)
  {
    hide StrictWeak, Runs, FewConnected;
    forall combiner, owned, steps: seq<Step<G>>, t | Allowed(Init(lt, combiner, owned), steps, t, L, keys)
      ensures Ranges(t) && |CurList(t)| <= (48 * L + 24) * keys.value
    {
      BoundedGrowth(lt, combiner, owned, steps, t, L, keys.value);
    }
  }

  /** And so does a comparison that tells only finitely many groups apart. */
  lemma CappedByGroups<G(!new)>(lt: GroupCompare<G>, L: nat, keys: Option<nat>) returns (bound: nat)
    requires StrictWeak(lt) && FinitelyMany(lt)
    ensures Capped(lt, L, keys, bound)
  {
    var reps: set<G> :| Represents(lt, reps);
    var U := KeysFor(reps);
    bound := (48 * L + 24) * |U|;
    hide StrictWeak, Runs, FewConnected, Represents, FinitelyMany;
    forall combiner, owned, steps: seq<Step<G>>, t | Allowed(Init(lt, combiner, owned), steps, t, L, keys)
      ensures Ranges(t) && |CurList(t)| <= bound
    {
      forall i | 0 <= i < |steps| && steps[i].Connect? ensures Covered(lt, U, steps[i].key) {
        AllCovered(lt, reps, steps[i].key);
      }
      GrowthOver(lt, combiner, owned, steps, t, L, U);
    }
  }

  ghost function KeysFor<G(!new)>(reps: set<G>): set<Key<G>> {
    {FrontUngrouped, BackUngrouped} + set r | r in reps :: Grouped(r)
  }

  lemma AllCovered<G(!new)>(lt: GroupCompare<G>, reps: set<G>, k: Key<G>)
    requires Represents(lt, reps)
    ensures Covered(lt, KeysFor(reps), k)
  {
    if k.Grouped? {
      assert StandsIn(lt, reps, k.group);
      var r :| r in reps && Equivalent(lt, Grouped(r), Grouped(k.group));
      assert Grouped(r) in KeysFor(reps);
    } else {
      assert k in KeysFor(reps) && Equivalent(lt, k, k);
    }
  }

  lemma NeverCapped<G(!new)>(lt: GroupCompare<G>, L: nat, bound: nat)
    requires StrictWeak(lt) && L >= 3 && !FinitelyMany(lt)
    ensures !Capped(lt, L, None, bound)
  {
    hide StrictWeak, Runs, FewConnected, FinitelyMany, Descending;
    var chain := ChainOf(lt, bound + 1);
    var steps, t := ReachStart(lt, chain, bound + 1);
    FewMore(Init(lt, 0, {}), steps, 3, L);
    StartLive(t, chain, bound + 1);
    assert Allowed(Init(lt, 0, {}), steps, t, L, None) && Ranges(t) && |CurList(t)| == bound + 2;
  }

  /**
   For every comparison and every `L`: over all runs with at most `L` bodies connected at once, the list length of a
   signal is bounded if and only if the number of inequivalent keys in use is limited, or the comparison tells only
   finitely many groups apart, or no more than two bodies are ever connected at once.
   */
  lemma BoundedIff<G(!new)>(lt: GroupCompare<G>, L: nat, keys: Option<nat>)
    requires StrictWeak(lt)
    ensures (exists bound: nat :: Capped(lt, L, keys, bound)) <==> keys.Some? || FinitelyMany(lt) || L <= 2
  {
    hide StrictWeak, FinitelyMany, Capped;
    if L <= 2 {
      CappedByThree(lt, L, keys);
    } else if keys.Some? {
      CappedByKeys(lt, L, keys);
    } else if FinitelyMany(lt) {
      var bound := CappedByGroups(lt, L, keys);
    } else {
      forall bound: nat ensures !Capped(lt, L, keys, bound) { NeverCapped(lt, L, bound); }
    }
  }
}
