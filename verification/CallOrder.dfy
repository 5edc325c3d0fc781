/**
 The order in which slots are called, told without the list: from the history of connects alone.
 Front-ungrouped slots come first, then the groups in their order, then the back-ungrouped slots;
 within a group the slots connected at the front, latest first, then those at the back, earliest first.
 The order holds of every list version in every run, whatever else happens in it.
 */
module CallOrder {
  import opened GroupKeys
  import opened Lists
  import opened BodyCores
  import opened Protocol
  import opened Steps
  import opened Snapshots

  /** What a connect asked for. The body it makes has the number of the connect in the history. */
  datatype Request<G> = Request(key: Key<G>, position: Position)

  ghost function History<G(!new)>(steps: seq<Step<G>>): seq<Request<G>> {
    if steps == [] then []
    else Made(steps[0]) + History(steps[1..])
  }

  function Made<G>(step: Step<G>): seq<Request<G>> {
    if step.Connect? then [Request(step.key, step.position)] else []
  }

  /** Body `a` is called before body `b`. */
  predicate Before<G>(lt: GroupCompare<G>, h: seq<Request<G>>, a: nat, b: nat)
    requires a < |h| && b < |h|
  {
    || KeyLess(lt, h[a].key, h[b].key)
    || (Equivalent(lt, h[a].key, h[b].key) &&
        match (h[a].position, h[b].position)
        case (AtBack, AtBack) => a < b
        case (AtFront, AtFront) => b < a
        case (AtFront, AtBack) => true
        case (AtBack, AtFront) => false)
  }

  ghost predicate Ordered<G>(lt: GroupCompare<G>, h: seq<Request<G>>, xs: seq<nat>) {
    && (forall i :: 0 <= i < |xs| ==> xs[i] < |h|)
    && (forall i, j :: 0 <= i < j < |xs| ==> Before(lt, h, xs[i], xs[j]))
  }

  // ---------------------------------------------------------------- the order is total

  /** Of two different bodies exactly one comes first. */
  lemma ExactlyOneFirst<G(!new)>(lt: GroupCompare<G>, h: seq<Request<G>>, a: nat, b: nat)
    requires StrictWeak(lt) && a < |h| && b < |h|
    ensures Before(lt, h, a, b) && Before(lt, h, b, a) ==> false
    ensures a != b ==> Before(lt, h, a, b) || Before(lt, h, b, a)
    ensures !Before(lt, h, a, a)
  {
    LessIsIrreflexive(lt, h[a].key);
    if KeyLess(lt, h[a].key, h[b].key) && KeyLess(lt, h[b].key, h[a].key) {
      KeyLessChains(lt, h[a].key, h[b].key, h[a].key);
      assert false;
    }
  }

  /** The history and the set of bodies present determine the list. */
  lemma {:induction false} OrderDeterminesList<G(!new)>(lt: GroupCompare<G>, h: seq<Request<G>>, xs: seq<nat>,
                                                        ys: seq<nat>)
    requires StrictWeak(lt) && Ordered(lt, h, xs) && Ordered(lt, h, ys)
    requires forall b :: b in xs <==> b in ys
    ensures xs == ys
  {
    hide Before;
    assert |ys| == 0 || ys[0] in ys;
    if xs == [] {
    } else {
      assert xs[0] in ys;
      var p :| 0 <= p < |ys| && ys[p] == xs[0];
      assert ys[0] in xs;
      var q :| 0 <= q < |xs| && xs[q] == ys[0];
      ExactlyOneFirst(lt, h, xs[0], ys[0]);
      forall b ensures b in xs[1..] <==> b in ys[1..] { TailMembers(lt, h, xs, b); TailMembers(lt, h, ys, b); }
      OrderDeterminesList(lt, h, xs[1..], ys[1..]);
      assert xs == [xs[0]] + xs[1..] && ys == [ys[0]] + ys[1..];
    }
  }

  lemma TailMembers<G(!new)>(lt: GroupCompare<G>, h: seq<Request<G>>, xs: seq<nat>, b: nat)
    requires StrictWeak(lt) && Ordered(lt, h, xs) && xs != []
    ensures b in xs[1..] <==> b in xs && b != xs[0]
  {
    hide Before;
    if b in xs[1..] {
      var k :| 0 <= k < |xs| - 1 && xs[1..][k] == b;
      assert Before(lt, h, xs[0], xs[k + 1]);
      ExactlyOneFirst(lt, h, xs[0], xs[0]);
    }
    assert xs == [xs[0]] + xs[1..];
  }

  // ---------------------------------------------------------------- the parts of a step keep the order

  lemma SubseqOrdered<G(!new)>(lt: GroupCompare<G>, h: seq<Request<G>>, ys: seq<nat>, xs: seq<nat>, at: seq<nat>)
    requires Ordered(lt, h, xs) && SubseqBy(ys, xs, at)
    ensures Ordered(lt, h, ys)
  {
    hide Before;
  }

  /** A new body goes where the order says, at the bound of its key. */
  lemma InsertOrdered<G(!new)>(lt: GroupCompare<G>, h: seq<Request<G>>, xs: seq<nat>, keys: seq<Key<G>>, r: Request<G>)
    requires StrictWeak(lt) && Ordered(lt, h, xs)
    requires |keys| == |xs| && forall i :: 0 <= i < |xs| ==> keys[i] == h[xs[i]].key
    ensures var q := if r.position == AtBack then UpperBound(lt, keys, r.key) else LowerBound(lt, keys, r.key);
      Ordered(lt, h + [r], InsertAt(xs, q, |h|))
  {
    var q := if r.position == AtBack then UpperBound(lt, keys, r.key) else LowerBound(lt, keys, r.key);
    var ys, h' := InsertAt(xs, q, |h|), h + [r];
    OrderedIsSorted(lt, h, xs, keys);
    BoundsSeparate(lt, keys, r.key);
    forall i | 0 <= i < |xs| ensures if i < q then Before(lt, h', xs[i], |h|) else Before(lt, h', |h|, xs[i]) {
      assert h'[xs[i]] == h[xs[i]] && h[xs[i]].key == keys[i];
    }
    forall i, j | 0 <= i < j < |ys| ensures Before(lt, h', ys[i], ys[j]) {
      hide Before;
      var k, l := if i < q then i else i - 1, if j < q then j else j - 1;
      if i != q && j != q { OldBefore(lt, h, r, xs[k], xs[l]); }
    }
  }

  lemma OldBefore<G(!new)>(lt: GroupCompare<G>, h: seq<Request<G>>, r: Request<G>, a: nat, b: nat)
    requires a < |h| && b < |h| && Before(lt, h, a, b)
    ensures Before(lt, h + [r], a, b)
  {
    assert (h + [r])[a] == h[a] && (h + [r])[b] == h[b];
  }

  lemma OrderedIsSorted<G(!new)>(lt: GroupCompare<G>, h: seq<Request<G>>, xs: seq<nat>, keys: seq<Key<G>>)
    requires StrictWeak(lt) && Ordered(lt, h, xs)
    requires |keys| == |xs| && forall i :: 0 <= i < |xs| ==> keys[i] == h[xs[i]].key
    ensures Sorted(lt, keys)
  {
    forall i, j | 0 <= i < j < |keys| ensures !KeyLess(lt, keys[j], keys[i]) {
      assert Before(lt, h, xs[i], xs[j]);
      if KeyLess(lt, keys[j], keys[i]) && KeyLess(lt, keys[i], keys[j]) {
        KeyLessChains(lt, keys[j], keys[i], keys[j]);
        LessIsIrreflexive(lt, keys[j]);
        assert false;
      }
    }
  }

  // ---------------------------------------------------------------- every step

  /** The bodies are those of the history, and every list version is ordered by it. */
  ghost predicate Told<G(!new)>(s: State<G>, h: seq<Request<G>>) {
    && Ranges(s) && StrictWeak(s.lt) && |h| == |s.bodies|
    && (forall b :: 0 <= b < |h| ==> s.bodies[b].key == h[b].key)
    && (forall l :: 0 <= l < |s.lists| ==> Ordered(s.lt, h, s.lists[l]))
  }

  lemma SweepTold<G(!new)>(s: State<G>, h: seq<Request<G>>, verdict: set<nat>, start: nat, n: nat)
    requires Told(s, h) && start <= |CurList(s)|
    ensures Told(SweepCur(s, verdict, start, n), h)
  {
    hide Ordered;
    var t, xs := SweepCur(s, verdict, start, n), CurList(s);
    SweepRanges(s, verdict, start, n);
    var at := SweepSubseq(xs, Dead(t.bodies), start, n);
    SubseqOrdered(s.lt, h, CurList(t), xs, at);
  }

  lemma CopyTold<G(!new)>(s: State<G>, h: seq<Request<G>>)
    requires Told(s, h)
    ensures Told(CopyList(s), h)
  {
    hide Ordered;
    CopyRanges(s);
  }

  lemma ForceUniqueTold<G(!new)>(s: State<G>, h: seq<Request<G>>, verdict: set<nat>)
    requires Told(s, h)
    ensures Told(ForceUnique(s, verdict), h)
  {
    hide Told;
    if Unique(s) {
      assert Ranges(s) by { AboutTold(s, h); }
      SweepTold(s, h, verdict, GcStart(s), 2);
    } else {
      CopyTold(s, h);
      AboutTold(s, h);
      AboutTold(CopyList(s), h);
      SweepTold(CopyList(s), h, verdict, 0, |CurList(CopyList(s))|);
    }
  }

  lemma AboutTold<G(!new)>(s: State<G>, h: seq<Request<G>>)
    requires Told(s, h)
    ensures Ranges(s) && StrictWeak(s.lt) && |h| == |s.bodies|
  {}

  lemma AddBodyTold<G(!new)>(s: State<G>, h: seq<Request<G>>, key: Key<G>, position: Position, tracked: seq<Tracked>)
    requires Told(s, h)
    ensures Told(AddBody(s, key, position, tracked), h + [Request(key, position)])
  {
    hide Before;
    var t, h' := AddBody(s, key, position, tracked), h + [Request(key, position)];
    var xs := CurList(s);
    InsertOrdered(s.lt, h, xs, KeysOf(s.bodies, xs), Request(key, position));
    forall l | 0 <= l < |t.lists| ensures Ordered(t.lt, h', t.lists[l]) {
      if l != CurId(s) { OldOrdered(s.lt, h, Request(key, position), s.lists[l]); }
    }
    AddBodyRanges(s, key, position, tracked);
  }

  lemma OldOrdered<G(!new)>(lt: GroupCompare<G>, h: seq<Request<G>>, r: Request<G>, xs: seq<nat>)
    requires Ordered(lt, h, xs)
    ensures Ordered(lt, h + [r], xs)
  {
    hide Before;
    forall i, j | 0 <= i < j < |xs| ensures Before(lt, h + [r], xs[i], xs[j]) { OldBefore(lt, h, r, xs[i], xs[j]); }
  }

  lemma JanitorTold<G(!new)>(s: State<G>, h: seq<Request<G>>, i: nat)
    requires Told(s, h) && Enabled(s, Step<G>.Janitor(i))
    ensures Told(Apply(s, Janitor(i)), h)
  {
    hide Ordered, ForceCleanup;
    AboutTold(s, h);
    var v := s.invs[i];
    var c := if v.disc > v.conn then ForceCleanup(s, WalkedId(s, i)) else s;
    ForceCleanupTold(s, h, WalkedId(s, i));
    ForceCleanupGrows(s, WalkedId(s, i));
    RecordRanges(c, i, Swept);
    RecordTold(c, Apply(s, Janitor(i)), h);
  }

  /** The records of holders do not concern the lists. */
  lemma RecordTold<G(!new)>(s: State<G>, t: State<G>, h: seq<Request<G>>)
    requires Told(s, h) && Ranges(t) && t == s.(invs := t.invs)
    ensures Told(t, h)
  {
    hide Ordered;
  }

  lemma ForceCleanupTold<G(!new)>(s: State<G>, h: seq<Request<G>>, list: nat)
    requires Told(s, h)
    ensures Told(ForceCleanup(s, list), h)
  {
    hide Told;
    AboutTold(s, h);
    if CurId(s) == list {
      if Unique(s) {
        SweepTold(s, h, {}, 0, |CurList(s)|);
      } else {
        CopyTold(s, h);
        AboutTold(CopyList(s), h);
        SweepTold(CopyList(s), h, {}, 0, |CurList(CopyList(s))|);
      }
    }
  }

  lemma BeginTold<G(!new)>(s: State<G>, h: seq<Request<G>>)
    requires Told(s, h) && Enabled(s, Step<G>.Begin)
    ensures Told(Apply(s, Begin), h)
  {
    hide Ordered;
    var c := if Unique(s) then CleanFew(s, {}, 1) else s;
    if Unique(s) { SweepTold(s, h, {}, GcStart(s), 1); }
    var t := Apply(s, Begin);
    forall i | 0 <= i < |t.invs| ensures InvRanges(t, t.invs[i]) {
      if i < |s.invs| { assert InvRanges(c, c.invs[i]); }
    }
  }

  lemma StepTold<G(!new)>(s: State<G>, h: seq<Request<G>>, step: Step<G>)
    requires Told(s, h) && Enabled(s, step)
    ensures Told(Apply(s, step), h + Made(step))
  {
    assert h + [] == h;
    if Cleaning(step) {
      hide Told;
      match step
      case Connect(key, position, tracked, verdict) =>
        ForceUniqueTold(s, h, verdict);
        AboutTold(ForceUnique(s, verdict), h);
        AddBodyTold(ForceUnique(s, verdict), h, key, position, tracked);
      case Begin => BeginTold(s, h);
      case Janitor(i) => JanitorTold(s, h, i);
    } else {
      hide Ordered, Apply;
      StepSameList(s, step);
    }
  }

  // ---------------------------------------------------------------- every run

  lemma {:induction false} RunTold<G(!new)>(s: State<G>, h: seq<Request<G>>, steps: seq<Step<G>>, t: State<G>)
    requires Told(s, h) && Runs(s, steps, t)
    ensures Told(t, h + History(steps))
    decreases |steps|
  {
    hide Told, Apply, Enabled, Made;
    if steps == [] {
      assert h + History(steps) == h;
    } else {
      AboutTold(s, h);
      StepTold(s, h, steps[0]);
      RunTold(Apply(s, steps[0]), h + Made(steps[0]), steps[1..], t);
      assert h + Made(steps[0]) + History(steps[1..]) == h + History(steps);
    }
  }

  /** After any run from a new signal, every list version stands in the order the history of connects tells. */
  lemma ListsInCallOrder<G(!new)>(lt: GroupCompare<G>, combiner: int, owned: set<nat>, steps: seq<Step<G>>, t: State<G>,
                                  l: nat)
    requires StrictWeak(lt) && Runs(Init(lt, combiner, owned), steps, t)
    ensures |History(steps)| == |t.bodies| && t.lt == lt
    ensures l < |t.lists| ==> Ordered(lt, History(steps), t.lists[l])
  {
    assert Told(Init(lt, combiner, owned), []);
    RunTold(Init(lt, combiner, owned), [], steps, t);
    assert [] + History(steps) == History(steps);
    RunKeepsOrder(Init(lt, combiner, owned), steps, t);
  }

  lemma {:induction false} RunKeepsOrder<G(!new)>(s: State<G>, steps: seq<Step<G>>, t: State<G>)
    requires Runs(s, steps, t)
    ensures t.lt == s.lt
    decreases |steps|
  {
    hide Apply, Enabled;
    if steps != [] {
      StepKeepsOrder(s, steps[0]);
      RunKeepsOrder(Apply(s, steps[0]), steps[1..], t);
    }
  }

  /**
   Slots an invocation runs, it runs in that order: of two positions run, the later call is not of an earlier slot.
   */
  lemma CalledInOrder<G(!new)>(lt: GroupCompare<G>, combiner: int, owned: set<nat>, steps: seq<Step<G>>, t: State<G>,
                               i: nat, k: nat, m: nat)
    requires StrictWeak(lt) && Runs(Init(lt, combiner, owned), steps, t)
    requires DisciplinedRun(Init(lt, combiner, owned), steps)
    requires Live(t, i) && k < m < |t.invs[i].ran|
    ensures Ranges(t) && t.invs[i].version < |t.versions| && |History(steps)| == |t.bodies|
    ensures t.invs[i].ran[k] < |Walked(t, i)| && t.invs[i].ran[m] < |Walked(t, i)|
    ensures var (a, b) := (Walked(t, i)[t.invs[i].ran[k]], Walked(t, i)[t.invs[i].ran[m]]);
      && a < |t.bodies| && b < |t.bodies|
      && (t.invs[i].ran[k] == t.invs[i].ran[m] || Before(lt, History(steps), a, b))
  {
    hide Before;
    ReachableInvariant(lt, combiner, owned, steps, t);
    AboutHolder(t, i);
    ListsInCallOrder(lt, combiner, owned, steps, t, WalkedId(t, i));
    assert Ordered(lt, History(steps), Walked(t, i));
  }
}
