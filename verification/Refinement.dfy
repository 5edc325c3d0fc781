/**
 The methods of `signal_impl` do what the steps of the protocol say. A signal object matches a protocol state when,
 with the bodies numbered, its list, the keys, counted parts and tracked objects of the bodies in it, the stored
 iterator, the sharing of its state and its combiner are those of the state. Each method takes an object that matches
 a state to one that matches the state after its step.
 */
module Refinement {
  import opened Options
  import opened GroupKeys
  import opened Lists
  import opened BodyCores
  import opened Protocol
  import opened Steps
  import opened GroupIndexes
  import opened GroupedLists
  import opened Connections
  import opened Signals

  /** A signal object at one moment. */
  datatype Image<!G> = Image(
    bodies: seq<ConnectionBody<G>>, keys: seq<Key<G>>, looks: seq<Look>, lt: GroupCompare<G>, unique: bool,
    gc: Option<ConnectionBody<G>>, combiner: int)

  ghost function ImageOf<G(!new)>(signal: SignalImpl<G>): Image<G>
    reads signal, signal.sharedState, signal.sharedState.connectionBodies, signal.sharedState.cell,
      BodySet(signal.Bodies())
  {
    Image(signal.Bodies(), GroupKeysOf(signal.Bodies()), Looks(signal.Bodies()), signal.List().lt, signal.Unique(),
         signal.Collector(), signal.sharedState.cell.combiner)
  }

  // ---------------------------------------------------------------- what matches what

  /** The entries of `ys` are those of `xs` under their names. */
  ghost predicate Named<T>(ids: seq<T>, xs: seq<nat>, ys: seq<T>) {
    |ys| == |xs| && forall k :: 0 <= k < |xs| ==> xs[k] < |ids| && ys[k] == ids[xs[k]]
  }

  ghost predicate SameBody<G>(b: Body<G>, key: Key<G>, look: Look) {
    && key == b.key && look.core == b.core && (look.slot != null <==> b.core.slot)
    && (look.slot != null ==> look.slot.tracked == b.tracked)
  }

  ghost predicate Matches<G(!new)>(v: Image<G>, s: State<G>, ids: seq<ConnectionBody<G>>) {
    && Ranges(s) && |ids| == |s.bodies| && NoDup(ids)
    && Named(ids, CurList(s), v.bodies) && |v.keys| == |v.looks| == |v.bodies|
    && (forall k :: 0 <= k < |v.bodies| ==> SameBody(s.bodies[CurList(s)[k]], v.keys[k], v.looks[k]))
    && v.lt == s.lt && (v.unique <==> Unique(s)) && v.combiner == s.combs[s.versions[s.current].comb]
    && (s.gc.Some? ==> s.gc.value < |ids|) && v.gc == if s.gc.None? then None else Some(ids[s.gc.value])
  }

  /** What a valid signal object sees to. */
  ghost predicate Sound<G>(v: Image<G>) {
    && NoDup(v.bodies) && (v.gc.Some? ==> v.gc.value in v.bodies)
    && forall k :: 0 <= k < |v.looks| ==> v.looks[k].core.Valid()
  }

  lemma ValidIsSound<G(!new)>(signal: SignalImpl<G>)
    requires signal.Valid()
    ensures Sound(ImageOf(signal)) && signal.CollectorStart() == Start(ImageOf(signal)) <= |signal.Bodies()|
  {
    hide StrictWeak, Sorted, IndexOk, IndexOf;
    var bodies, it := signal.Bodies(), signal.garbageCollectorIt;
    forall k | 0 <= k < |bodies| ensures Looks(bodies)[k].core.Valid() {
      assert bodies[k] in bodies && bodies[k].Valid();
    }
    if it != null {
      var p := IndexOf(signal.List().nodes, it);
      NodeThere(signal.List().nodes, it);
      assert bodies[p] == it.value;
      IndexOfAt(bodies, p);
    }
  }

  lemma NodeThere<T>(nodes: seq<T>, it: T)
    requires it in nodes
    ensures IndexOf(nodes, it) < |nodes| && nodes[IndexOf(nodes, it)] == it
  {}

  /** Where a clean-up of a few entries starts. */
  ghost function Start<G>(v: Image<G>): nat { if v.gc.None? then 0 else IndexOf(v.bodies, v.gc.value) }

  lemma NamedNoDup<T>(ids: seq<T>, xs: seq<nat>, ys: seq<T>)
    requires Named(ids, xs, ys) && NoDup(ys)
    ensures NoDup(xs)
  {}

  lemma StartMatches<G(!new)>(v: Image<G>, s: State<G>, ids: seq<ConnectionBody<G>>)
    requires Matches(v, s, ids) && Sound(v)
    ensures Start(v) == GcStart(s) <= |v.bodies| && NoDup(CurList(s))
  {
    hide SameBody;
    NamedNoDup(ids, CurList(s), v.bodies);
    if v.gc.Some? {
      var p := IndexOf(v.bodies, v.gc.value);
      assert ids[CurList(s)[p]] == ids[s.gc.value];
      IndexOfAt(CurList(s), p);
    }
  }

  /** A new signal is the state every run begins with. */
  method NewIsInit<G(!new)>(combiner: int, lt: GroupCompare<G>, ghost owned: set<nat>) returns (signal: SignalImpl<G>)
    requires StrictWeak(lt)
    ensures signal.Valid() && fresh(signal) && !signal.mutex.held
    ensures Matches(ImageOf(signal), Init(lt, combiner, owned), [])
    ensures forall o :: Alive(Init(lt, combiner, owned), o) <==> o in owned
  {
    hide StrictWeak, Sorted, IndexOk;
    signal := new SignalImpl(combiner, lt);
  }

  // ---------------------------------------------------------------- a clean-up

  /** The loop removes the same entries whether they are looked at as numbers or as objects. */
  lemma {:induction false} SweepNamed<T>(ids: seq<T>, xs: seq<nat>, dead: set<nat>, ys: seq<T>, gone: set<T>, g: nat,
                                         n: nat)
    requires Named(ids, xs, ys) && g <= |xs|
    requires forall k :: 0 <= k < |xs| ==> (xs[k] in dead <==> ys[k] in gone)
    ensures SweepFrom(xs, dead, g, n).1 == SweepFrom(ys, gone, g, n).1
    ensures Named(ids, SweepFrom(xs, dead, g, n).0, SweepFrom(ys, gone, g, n).0)
    decreases n
  {
    if n != 0 && g < |xs| {
      if xs[g] in dead {
        SweepNamed(ids, RemoveAt(xs, g), dead, RemoveAt(ys, g), gone, g, n - 1);
      } else {
        SweepNamed(ids, xs, dead, ys, gone, g + 1, n - 1);
      }
    }
  }

  /** The bodies look as if those of `verdict` had been found expired among the `n` entries from `start`. */
  ghost predicate Fits<G(!new)>(v: Image<G>, s: State<G>, after: seq<Look>, verdict: set<nat>, start: nat, n: nat)
    requires Ranges(s) && |v.bodies| == |CurList(s)|
  {
    && |after| == |v.looks| == |v.bodies|
    && forall k :: 0 <= k < |v.looks| ==>
         after[k].core == if start <= k < start + n && CurList(s)[k] in verdict && v.looks[k].core.slot
                          then v.looks[k].core.Disconnect() else v.looks[k].core
  }

  /** `c` is `s` cleaned, and the object's list is now `ys`, with the stored iterator at `g`. */
  ghost predicate Cleans<G(!new)>(v: Image<G>, s: State<G>, after: seq<Look>, c: State<G>, ids: seq<ConnectionBody<G>>,
                                  ys: seq<ConnectionBody<G>>, g: nat)
    requires Ranges(s) && |v.bodies| == |CurList(s)|
  {
    && Ranges(c) && |after| == |v.bodies| && |c.bodies| == |s.bodies| && c.lt == s.lt && Named(ids, CurList(c), ys)
    && c.gc == (if g < |ys| then Some(CurList(c)[g]) else None)
    && c.combs[c.versions[c.current].comb] == s.combs[s.versions[s.current].comb] && c.invs == s.invs
    && (forall k :: 0 <= k < |v.bodies| ==>
          CurList(s)[k] < |c.bodies| && c.bodies[CurList(s)[k]] == s.bodies[CurList(s)[k]].(core := after[k].core))
    && (forall x :: x in CurList(c) ==> x in CurList(s))
  }

  lemma SweepMatches<G(!new)>(v: Image<G>, s: State<G>, ids: seq<ConnectionBody<G>>, after: seq<Look>,
                              verdict: set<nat>, gone: set<ConnectionBody<G>>, start: nat, n: nat)
    requires Matches(v, s, ids) && NoDup(CurList(s)) && start <= |v.bodies| && Fits(v, s, after, verdict, start, n)
    requires forall k :: 0 <= k < |v.bodies| ==> (v.bodies[k] in gone <==> !after[k].core.connected)
    ensures var (ys, g) := SweepFrom(v.bodies, gone, start, n);
      Cleans(v, s, after, SweepCur(s, verdict, start, n), ids, ys, g)
  {
    hide SweepFrom;
    var xs, t := CurList(s), SweepCur(s, verdict, start, n);
    var e := Min(start + n, |xs|);
    SweepRanges(s, verdict, start, n);
    forall k | 0 <= k < |xs|
      ensures t.bodies[xs[k]] == s.bodies[xs[k]].(core := after[k].core)
      ensures xs[k] in Dead(t.bodies) <==> v.bodies[k] in gone
    {
      InSlice(xs, start, e, k);
      assert SameBody(s.bodies[xs[k]], v.keys[k], v.looks[k]);
    }
    SweepNamed(ids, xs, Dead(t.bodies), v.bodies, gone, start, n);
    SweepMembers(xs, Dead(t.bodies), start, n);
  }

  lemma InSlice(xs: seq<nat>, a: nat, b: nat, k: nat)
    requires NoDup(xs) && a <= b <= |xs| && k < |xs|
    ensures xs[k] in xs[a..b] <==> a <= k < b
  {
    if a <= k < b { assert xs[a..b][k - a] == xs[k]; }
  }

  /** In a copy of the list. */
  lemma CopyMatches<G(!new)>(v: Image<G>, s: State<G>, ids: seq<ConnectionBody<G>>)
    requires Matches(v, s, ids)
    ensures Ranges(CopyList(s)) && CurList(CopyList(s)) == CurList(s) && Matches(v.(unique := true), CopyList(s), ids)
    ensures CopyList(s).combs[CopyList(s).versions[CopyList(s).current].comb] == s.combs[s.versions[s.current].comb]
  {
    hide SameBody;
    CopyListFacts(s);
  }

  lemma CopySweepMatches<G(!new)>(v: Image<G>, s: State<G>, ids: seq<ConnectionBody<G>>, after: seq<Look>,
                                  verdict: set<nat>, gone: set<ConnectionBody<G>>)
    requires Matches(v, s, ids) && NoDup(CurList(s)) && Fits(v, s, after, verdict, 0, |v.bodies|)
    requires forall k :: 0 <= k < |v.bodies| ==> (v.bodies[k] in gone <==> !after[k].core.connected)
    ensures Ranges(CopyList(s))
    ensures var (ys, g) := SweepFrom(v.bodies, gone, 0, |v.bodies|);
      Cleans(v, s, after, CleanAll(CopyList(s), verdict), ids, ys, g)
  {
    hide SameBody, SweepFrom, SweepCur;
    CopyMatches(v, s, ids);
    CopyListFacts(s);
    SweepMatches(v.(unique := true), CopyList(s), ids, after, verdict, gone, 0, |v.bodies|);
  }

  // ---------------------------------------------------------------- connect

  /** Which bodies are found expired: those that are, and those that turn out to have been disconnected. */
  ghost function Verdict<G(!new)>(v: Image<G>, s: State<G>, after: seq<Look>): set<nat>
    requires Ranges(s) && |v.bodies| == |v.looks| == |after| == |CurList(s)|
  {
    (set b | 0 <= b < |s.bodies| && Expired(s, b))
    + set k | 0 <= k < |after| && after[k].core != v.looks[k].core :: CurList(s)[k]
  }

  lemma VerdictFits<G(!new)>(v: Image<G>, s: State<G>, ids: seq<ConnectionBody<G>>, after: seq<Look>, start: nat,
                             n: nat, owned: set<nat>, left: set<nat>)
    requires Matches(v, s, ids) && Sound(v) && NoDup(CurList(s)) && |after| == |v.looks|
    requires Cleaned(after, v.looks, start, start + n, owned, left) && forall o :: o in owned <==> Alive(s, o)
    ensures Fits(v, s, after, Verdict(v, s, after), start, n)
  {
    hide Alive, NoDup;
    forall k | 0 <= k < |v.looks|
      ensures after[k].core ==
        if start <= k < start + n && CurList(s)[k] in Verdict(v, s, after) && v.looks[k].core.slot
        then v.looks[k].core.Disconnect() else v.looks[k].core
    {
      VerdictAt(v, s, after, k);
      assert SameBody(s.bodies[CurList(s)[k]], v.keys[k], v.looks[k]);
    }
  }

  lemma VerdictAt<G(!new)>(v: Image<G>, s: State<G>, after: seq<Look>, k: nat)
    requires Ranges(s) && |v.bodies| == |v.looks| == |after| == |CurList(s)| && k < |after| && NoDup(CurList(s))
    ensures CurList(s)[k] < |s.bodies|
    ensures CurList(s)[k] in Verdict(v, s, after) <==> Expired(s, CurList(s)[k]) || after[k].core != v.looks[k].core
  {
    hide Expired;
  }

  lemma ForceUniqueMatches<G(!new)>(v: Image<G>, s: State<G>, ids: seq<ConnectionBody<G>>, after: seq<Look>,
                                    verdict: set<nat>, gone: set<ConnectionBody<G>>)
    requires Matches(v, s, ids) && Sound(v)
    requires Fits(v, s, after, verdict, if v.unique then Start(v) else 0, if v.unique then 2 else |v.bodies|)
    requires forall k :: 0 <= k < |v.bodies| ==> (v.bodies[k] in gone <==> !after[k].core.connected)
    ensures Start(v) <= |v.bodies| && Unique(ForceUnique(s, verdict))
    ensures var (ys, g) := if v.unique then SweepFrom(v.bodies, gone, Start(v), 2)
                            else SweepFrom(v.bodies, gone, 0, |v.bodies|);
      Cleans(v, s, after, ForceUnique(s, verdict), ids, ys, g)
  {
    hide SameBody, SweepFrom, SweepCur, Cleans, Fits;
    StartMatches(v, s, ids);
    if v.unique {
      SweepMatches(v, s, ids, after, verdict, gone, Start(v), 2);
    } else {
      CopySweepMatches(v, s, ids, after, verdict, gone);
    }
    UniqueNow(s, verdict);
  }

  lemma UniqueNow<G(!new)>(s: State<G>, verdict: set<nat>)
    requires Ranges(s)
    ensures Unique(ForceUnique(s, verdict))
  {
    CopyListFacts(s);
  }

  /** Bodies there were look as they do after the clean-up, under their old keys; the new one is new. */
  ghost predicate LooksLike<G>(w: Image<G>, v: Image<G>, after: seq<Look>, body: ConnectionBody<G>, key: Key<G>,
                               tracked: seq<Tracked>)
  {
    && |w.keys| == |w.looks| == |w.bodies| && |after| == |v.keys| == |v.bodies|
    && (forall k, j :: 0 <= k < |w.bodies| && 0 <= j < |v.bodies| && w.bodies[k] == v.bodies[j] ==>
          w.keys[k] == v.keys[j] && w.looks[k] == after[j])
    && (forall k :: 0 <= k < |w.bodies| && w.bodies[k] == body ==>
          w.keys[k] == key && w.looks[k].core == NEW_CORE
          && w.looks[k].slot != null && w.looks[k].slot.tracked == tracked)
  }

  /** Slots are kept or given up, never exchanged. */
  ghost predicate SlotsLike<G>(v: Image<G>, after: seq<Look>) {
    && |after| == |v.looks|
    && forall k :: 0 <= k < |after| ==>
         (after[k].slot != null <==> after[k].core.slot) && (after[k].slot == null || after[k].slot == v.looks[k].slot)
  }

  lemma AddedMatches<G(!new)>(v: Image<G>, s: State<G>, c: State<G>, ids: seq<ConnectionBody<G>>, after: seq<Look>,
                              ys: seq<ConnectionBody<G>>, g: nat, w: Image<G>, body: ConnectionBody<G>, key: Key<G>,
                              position: Position, tracked: seq<Tracked>)
    requires Matches(v, s, ids) && Cleans(v, s, after, c, ids, ys, g) && Unique(c) && SlotsLike(v, after)
    requires body !in ids
    requires LooksLike(w, v, after, body, key, tracked) && w.bodies == InsertAt(ys, InsertPos(c, key, position), body)
    requires w.lt == v.lt && w.unique && w.combiner == v.combiner && w.gc == if g < |ys| then Some(ys[g]) else None
    ensures Matches(w, AddBody(c, key, position, tracked), ids + [body])
  {
    hide InsertAt, SameBody, LooksLike, LowerBound, UpperBound, Cleans;
    AboutCleans(v, s, after, c, ids, ys, g);
    var t, ids' := AddBody(c, key, position, tracked), ids + [body];
    AboutLooksLike(w, v, after, body, key, tracked);
    AddBodyRanges(c, key, position, tracked);
    NoDupMore(ids, body);
    forall k | 0 <= k < |w.bodies|
      ensures CurList(t)[k] < |ids'| && w.bodies[k] == ids'[CurList(t)[k]]
      ensures SameBody(t.bodies[CurList(t)[k]], w.keys[k], w.looks[k])
    {
      AddedAt(v, s, c, ids, after, ys, g, w, body, key, position, tracked, k);
    }
  }

  lemma AboutCleans<G(!new)>(v: Image<G>, s: State<G>, after: seq<Look>, c: State<G>, ids: seq<ConnectionBody<G>>,
                             ys: seq<ConnectionBody<G>>, g: nat)
    requires Ranges(s) && |v.bodies| == |CurList(s)| && Cleans(v, s, after, c, ids, ys, g)
    ensures Ranges(c) && |c.bodies| == |s.bodies| && c.lt == s.lt && c.invs == s.invs && Named(ids, CurList(c), ys)
    ensures c.gc == if g < |ys| then Some(CurList(c)[g]) else None
    ensures c.combs[c.versions[c.current].comb] == s.combs[s.versions[s.current].comb]
  {}

  lemma AboutLooksLike<G>(w: Image<G>, v: Image<G>, after: seq<Look>, body: ConnectionBody<G>, key: Key<G>,
                          tracked: seq<Tracked>)
    requires LooksLike(w, v, after, body, key, tracked)
    ensures |w.keys| == |w.looks| == |w.bodies| && |after| == |v.keys| == |v.bodies|
  {}

  /** One entry of the list with the new body. */
  lemma AddedAt<G(!new)>(v: Image<G>, s: State<G>, c: State<G>, ids: seq<ConnectionBody<G>>, after: seq<Look>,
                         ys: seq<ConnectionBody<G>>, g: nat, w: Image<G>, body: ConnectionBody<G>, key: Key<G>,
                         position: Position, tracked: seq<Tracked>, k: nat)
    requires Matches(v, s, ids) && Cleans(v, s, after, c, ids, ys, g) && SlotsLike(v, after)
    requires LooksLike(w, v, after, body, key, tracked) && w.bodies == InsertAt(ys, InsertPos(c, key, position), body)
    requires k < |w.bodies|
    ensures |w.keys| == |w.looks| == |w.bodies|
    ensures var t := AddBody(c, key, position, tracked);
      && k < |CurList(t)| && CurList(t)[k] < |t.bodies| == |ids| + 1 && w.bodies[k] == (ids + [body])[CurList(t)[k]]
      && SameBody(t.bodies[CurList(t)[k]], w.keys[k], w.looks[k])
  {
    hide InsertAt, SameBody, LooksLike, LowerBound, UpperBound, SlotsLike;
    AboutLooksLike(w, v, after, body, key, tracked);
    var q, t := InsertPos(c, key, position), AddBody(c, key, position, tracked);
    if k == q {
      NewMatches(w, v, after, body, key, tracked, k);
    } else {
      var x := CurList(t)[k];
      assert x == CurList(c)[if k < q then k else k - 1];
      assert x in CurList(c) && x in CurList(s);
      var j :| 0 <= j < |CurList(s)| && CurList(s)[j] == x;
      OldMatches(s.bodies[x], w, v, after, body, key, tracked, k, j);
      assert t.bodies[x] == s.bodies[x].(core := after[j].core);
    }
  }

  lemma NoDupMore<T>(xs: seq<T>, x: T)
    requires NoDup(xs) && x !in xs
    ensures NoDup(xs + [x])
  {}

  lemma NewMatches<G>(w: Image<G>, v: Image<G>, after: seq<Look>, body: ConnectionBody<G>, key: Key<G>,
                      tracked: seq<Tracked>, k: nat)
    requires LooksLike(w, v, after, body, key, tracked) && k < |w.bodies| && w.bodies[k] == body
    ensures SameBody(Body(key, tracked, NEW_CORE, false), w.keys[k], w.looks[k])
  {}

  lemma OldMatches<G>(b: Body<G>, w: Image<G>, v: Image<G>, after: seq<Look>, body: ConnectionBody<G>, key: Key<G>,
                      tracked: seq<Tracked>, k: nat, j: nat)
    requires LooksLike(w, v, after, body, key, tracked) && SlotsLike(v, after)
    requires k < |w.bodies| && j < |v.bodies| && w.bodies[k] == v.bodies[j] && SameBody(b, v.keys[j], v.looks[j])
    ensures SameBody(b.(core := after[j].core), w.keys[k], w.looks[k])
  {}

  /** The keys of the bodies left, as objects and as numbers. */
  lemma SweptKeys<G(!new)>(v: Image<G>, s: State<G>, c: State<G>, ids: seq<ConnectionBody<G>>, after: seq<Look>,
                           ys: seq<ConnectionBody<G>>, g: nat)
    requires Matches(v, s, ids) && Cleans(v, s, after, c, ids, ys, g)
    requires forall j :: 0 <= j < |v.bodies| ==> v.bodies[j].groupKey == v.keys[j]
    ensures GroupKeysOf(ys) == KeysOf(c.bodies, CurList(c))
  {
    forall k | 0 <= k < |ys| ensures ys[k].groupKey == c.bodies[CurList(c)[k]].key {
      var x := CurList(c)[k];
      assert x in CurList(s);
      var j :| 0 <= j < |v.bodies| && CurList(s)[j] == x;
      assert SameBody(s.bodies[x], v.keys[j], v.looks[j]);
    }
  }

  lemma CleanedSlots<G(!new)>(v: Image<G>, after: seq<Look>, start: nat, end: nat, owned: set<nat>, left: set<nat>)
    requires Cleaned(after, v.looks, start, end, owned, left)
    requires forall k :: 0 <= k < |after| ==> (after[k].slot != null <==> after[k].core.slot)
    ensures SlotsLike(v, after)
  {}

  /** A body is looked at as it is now. */
  lemma LooksNow<G(!new)>(xs: seq<ConnectionBody<G>>)
    ensures |Looks(xs)| == |xs| && |GroupKeysOf(xs)| == |xs|
    ensures forall k :: 0 <= k < |xs| ==>
      && Looks(xs)[k] == LookAt(xs[k]) && GroupKeysOf(xs)[k] == xs[k].groupKey
      && (xs[k] in DeadIn(xs) <==> !LookAt(xs[k]).core.connected)
      && (LookAt(xs[k]).slot != null <==> LookAt(xs[k]).core.slot)
  {}

  lemma NowLooksLike<G(!new)>(v: Image<G>, w: Image<G>, after: seq<Look>, body: ConnectionBody<G>,
                              tracked: seq<Tracked>)
    requires after == Looks(v.bodies) && w.looks == Looks(w.bodies) && w.keys == GroupKeysOf(w.bodies)
    requires |v.keys| == |v.bodies|
    requires forall j :: 0 <= j < |v.bodies| ==> v.bodies[j].groupKey == v.keys[j]
    requires body.GetCore() == NEW_CORE && body.slot != null && body.slot.tracked == tracked
    ensures LooksLike(w, v, after, body, body.groupKey, tracked)
  {}

  /** What `connect` has done to an object that looked like `v`. */
  ghost predicate AfterConnect<G(!new)>(signal: SignalImpl<G>, v: Image<G>, body: ConnectionBody<G>, position: Position,
                                        tracked: seq<Tracked>, owned: set<nat>, left: set<nat>)
    reads *
  {
    && |v.keys| == |v.bodies| && (forall j :: 0 <= j < |v.bodies| ==> v.bodies[j].groupKey == v.keys[j])
    && body.GetCore() == NEW_CORE && body.slot != null && body.slot.tracked == tracked
    && signal.Unique() && signal.List().lt == v.lt && signal.sharedState.cell.combiner == v.combiner
    && Start(v) <= |v.bodies|
    && var (ys, g) := signal.SweptForConnect(v.bodies, DeadIn(v.bodies), v.unique, Start(v));
       var start := if v.unique then Start(v) else 0;
       && signal.Collector() == signal.BodyAt(ys, g)
       && signal.Bodies() == InsertAt(ys, Place(signal.List().lt, GroupKeysOf(ys), body.groupKey, position), body)
       && Cleaned(Looks(v.bodies), v.looks, start, start + if v.unique then 2 else |v.bodies|, owned, left)
  }

  /** In one state: the object now and what it was. */
  lemma ConnectMatches<G(!new)>(signal: SignalImpl<G>, v: Image<G>, s: State<G>, ids: seq<ConnectionBody<G>>,
                                body: ConnectionBody<G>, position: Position, tracked: seq<Tracked>, owned: set<nat>,
                                left: set<nat>, verdict: set<nat>)
    requires Matches(v, s, ids) && Sound(v) && body !in ids && forall o :: o in owned <==> Alive(s, o)
    requires AfterConnect(signal, v, body, position, tracked, owned, left)
    requires Ranges(s) && |v.bodies| == |v.looks| == |Looks(v.bodies)| == |CurList(s)|
    requires verdict == Verdict(v, s, Looks(v.bodies))
    ensures Ranges(ForceUnique(s, verdict))
    ensures Matches(ImageOf(signal), AddBody(ForceUnique(s, verdict), body.groupKey, position, tracked), ids + [body])
  {
    hide SweepFrom, SameBody, Cleaned, Sound, LooksLike, Fits, Looks, GroupKeysOf, DeadIn, InsertAt, Place, Expired,
      Alive, InsertPos, ForceUnique, AddBody, NoDup, SlotsLike, Unique, Ranges, Verdict, Matches, Cleans, ImageOf,
      BodySet, SlotSet;
    var after, start, n := Looks(v.bodies), if v.unique then Start(v) else 0, if v.unique then 2 else |v.bodies|;
    LooksNow(v.bodies);
    StartMatches(v, s, ids);
    VerdictFits(v, s, ids, after, start, n, owned, left);
    ForceUniqueMatches(v, s, ids, after, verdict, DeadIn(v.bodies));
    var c := ForceUnique(s, verdict);
    var (ys, g) := signal.SweptForConnect(v.bodies, DeadIn(v.bodies), v.unique, Start(v));
    AboutCleans(v, s, after, c, ids, ys, g);
    AboutOrder(v, s, ids);
    SweptKeys(v, s, c, ids, after, ys, g);
    CleanedSlots(v, after, start, start + n, owned, left);
    PlaceIs(c, body.groupKey, position);
    AboutImage(signal);
    NowLooksLike(v, ImageOf(signal), after, body, tracked);
    AboutMatches(v, s, ids);
    AddedMatches(v, s, c, ids, after, ys, g, ImageOf(signal), body, body.groupKey, position, tracked);
  }

  lemma AboutOrder<G(!new)>(v: Image<G>, s: State<G>, ids: seq<ConnectionBody<G>>)
    requires Matches(v, s, ids)
    ensures v.lt == s.lt && NoDup(ids) && |v.keys| == |v.looks|
  {}

  lemma VerdictHasExpired<G(!new)>(v: Image<G>, s: State<G>, after: seq<Look>)
    requires Ranges(s) && |v.bodies| == |v.looks| == |after| == |CurList(s)|
    ensures forall b :: 0 <= b < |s.bodies| && Expired(s, b) ==> b in Verdict(v, s, after)
  {}

  lemma PlaceIs<G(!new)>(c: State<G>, key: Key<G>, position: Position)
    requires Ranges(c)
    ensures InsertPos(c, key, position) == Place(c.lt, KeysOf(c.bodies, CurList(c)), key, position)
  {}

  lemma AboutMatches<G(!new)>(v: Image<G>, s: State<G>, ids: seq<ConnectionBody<G>>)
    requires Matches(v, s, ids)
    ensures Ranges(s) && |v.bodies| == |v.looks| == |v.keys| == |CurList(s)|
  {}

  lemma AboutImage<G(!new)>(signal: SignalImpl<G>)
    ensures var v := ImageOf(signal);
      && v.bodies == signal.Bodies() && v.keys == GroupKeysOf(signal.Bodies()) && v.looks == Looks(signal.Bodies())
      && v.lt == signal.List().lt && v.unique == signal.Unique() && v.gc == signal.Collector()
      && v.combiner == signal.sharedState.cell.combiner
  {}

  lemma ConnectEnabled<G(!new)>(s: State<G>, step: Step<G>)
    requires Ranges(s) && s.mutex.None? && step.Connect?
    requires forall b :: 0 <= b < |s.bodies| && Expired(s, b) ==> b in step.verdict
    requires Ranges(ForceUnique(s, step.verdict))
    ensures Enabled(s, step)
    ensures Apply(s, step) == AddBody(ForceUnique(s, step.verdict), step.key, step.position, step.tracked)
  {}

  /** `connect`, and what it has done. */
  method ConnectSeen<G(!new)>(signal: SignalImpl<G>, objects: Objects, group: Option<G>, tracked: seq<Tracked>,
                              position: Position, ghost v: Image<G>)
      returns (body: ConnectionBody<G>)
    requires signal.Valid() && !signal.mutex.held && v == ImageOf(signal)
    modifies signal`garbageCollectorIt, signal`sharedState, signal.sharedState`uses, objects, signal.mutex
    modifies if signal.Unique() then {signal.sharedState.connectionBodies} else {}
    modifies BodySet(signal.Bodies())`connected, BodySet(signal.Bodies())`slotRefcount, BodySet(signal.Bodies())`slot
    modifies SlotSet(signal.Bodies())
    ensures signal.Valid() && !signal.mutex.held && fresh(body) && body.groupKey == signal.KeyFor(group, position)
    ensures AfterConnect(signal, v, body, position, tracked, old(objects.owned), objects.owned)
  {
    hide *;
    ghost var owned := objects.owned;
    ValidIsSound(signal);
    AboutImage(signal);
    KeysNow(v.bodies);
    body := signal.Connect(objects, group, tracked, position);
    MakeAfterConnect(signal, v, body, position, tracked, owned, objects.owned);
  }

  lemma KeysNow<G(!new)>(xs: seq<ConnectionBody<G>>)
    ensures |GroupKeysOf(xs)| == |xs| && forall k :: 0 <= k < |xs| ==> GroupKeysOf(xs)[k] == xs[k].groupKey
  {}

  lemma MakeAfterConnect<G(!new)>(signal: SignalImpl<G>, v: Image<G>, body: ConnectionBody<G>, position: Position,
                                  tracked: seq<Tracked>, owned: set<nat>, left: set<nat>)
    requires |v.keys| == |v.bodies| && forall j :: 0 <= j < |v.bodies| ==> v.bodies[j].groupKey == v.keys[j]
    requires body.GetCore() == NEW_CORE && body.slot != null && body.slot.tracked == tracked
    requires signal.Unique() && signal.List().lt == v.lt && signal.sharedState.cell.combiner == v.combiner
    requires Start(v) <= |v.bodies|
    requires var (ys, g) := signal.SweptForConnect(v.bodies, DeadIn(v.bodies), v.unique, Start(v));
      && signal.Collector() == signal.BodyAt(ys, g)
      && signal.Bodies() == InsertAt(ys, Place(signal.List().lt, GroupKeysOf(ys), body.groupKey, position), body)
    requires var start := if v.unique then Start(v) else 0;
      Cleaned(Looks(v.bodies), v.looks, start, start + if v.unique then 2 else |v.bodies|, owned, left)
    ensures AfterConnect(signal, v, body, position, tracked, owned, left)
  {}

  /** `connect` is the step of the protocol, for some verdict on the bodies its clean-up finds expired. */
  method ConnectIsStep<G(!new)>(signal: SignalImpl<G>, objects: Objects, group: Option<G>, tracked: seq<Tracked>,
                                position: Position, ghost s: State<G>, ghost ids: seq<ConnectionBody<G>>)
      returns (body: ConnectionBody<G>, ghost verdict: set<nat>)
    requires signal.Valid() && !signal.mutex.held
    requires Matches(ImageOf(signal), s, ids) && s.mutex.None? && forall o :: o in objects.owned <==> Alive(s, o)
    modifies signal`garbageCollectorIt, signal`sharedState, signal.sharedState`uses, objects, signal.mutex
    modifies if signal.Unique() then {signal.sharedState.connectionBodies} else {}
    modifies BodySet(signal.Bodies())`connected, BodySet(signal.Bodies())`slotRefcount, BodySet(signal.Bodies())`slot
    modifies SlotSet(signal.Bodies())
    ensures signal.Valid() && !signal.mutex.held
    ensures var key := if group.Some? then Grouped(group.value)
                       else if position == AtBack then BackUngrouped else FrontUngrouped;
      var step := Connect(key, position, tracked, verdict);
      Ranges(s) && Enabled(s, step) && Matches(ImageOf(signal), Apply(s, step), ids + [body])
  {
    hide *;
    ghost var v, owned := ImageOf(signal), objects.owned;
    AboutMatches(v, s, ids);
    ValidIsSound(signal);
    body := ConnectSeen(signal, objects, group, tracked, position, v);
    LooksNow(v.bodies);
    verdict := Verdict(v, s, Looks(v.bodies));
    VerdictHasExpired(v, s, Looks(v.bodies));
    ConnectMatches(signal, v, s, ids, body, position, tracked, owned, objects.owned, verdict);
    ConnectEnabled(s, Connect(body.groupKey, position, tracked, verdict));
    signal.KeyIs(group, position);
  }

  // ---------------------------------------------------------------- invocations and combiners

  /** The object after a clean-up, as a state that differs from the cleaned one in its holders at most. */
  lemma CleanedMatches<G(!new)>(v: Image<G>, s: State<G>, c: State<G>, t: State<G>, ids: seq<ConnectionBody<G>>,
                                ys: seq<ConnectionBody<G>>, g: nat, w: Image<G>)
    requires Matches(v, s, ids) && Cleans(v, s, v.looks, c, ids, ys, g) && t == c.(invs := t.invs) && Ranges(t)
    requires var gc := if g < |ys| then Some(ys[g]) else None;
      w == Image(ys, GroupKeysOf(ys), Looks(ys), v.lt, w.unique, gc, v.combiner)
    requires w.unique <==> Unique(t)
    requires v.looks == Looks(v.bodies) && forall j :: 0 <= j < |v.bodies| ==> v.bodies[j].groupKey == v.keys[j]
    ensures Matches(w, t, ids)
  {
    hide SameBody, Looks, GroupKeysOf, Unique;
    LooksNow(v.bodies);
    LooksNow(ys);
    forall k | 0 <= k < |ys| ensures SameBody(t.bodies[CurList(t)[k]], w.keys[k], w.looks[k]) {
      var x := CurList(c)[k];
      assert x in CurList(s);
      var j :| 0 <= j < |CurList(s)| && CurList(s)[j] == x;
      assert ys[k] == v.bodies[j] && SameBody(s.bodies[x], v.keys[j], v.looks[j]);
      assert c.bodies[x] == s.bodies[x].(core := v.looks[j].core);
      SameCore(s.bodies[x], v.keys[j], v.looks[j]);
    }
  }

  lemma SameCore<G>(b: Body<G>, key: Key<G>, look: Look)
    requires SameBody(b, key, look)
    ensures b.(core := look.core) == b
  {}

  /** Nobody is looked at for expired objects. */
  lemma NobodyExpires<G(!new)>(v: Image<G>, s: State<G>, ids: seq<ConnectionBody<G>>, start: nat, n: nat)
    requires Matches(v, s, ids)
    ensures Fits(v, s, v.looks, {}, start, n)
  {}

  lemma BeginMatches<G(!new)>(signal: SignalImpl<G>, v: Image<G>, s: State<G>, ids: seq<ConnectionBody<G>>)
    requires Matches(v, s, ids) && Sound(v) && s.mutex.None? && !signal.Unique() && Start(v) <= |v.bodies|
    requires v.looks == Looks(v.bodies) && forall j :: 0 <= j < |v.bodies| ==> v.bodies[j].groupKey == v.keys[j]
    requires signal.List().lt == v.lt && signal.sharedState.cell.combiner == v.combiner
    requires if v.unique then
        var (ys, g) := SweepFrom(v.bodies, DeadIn(v.bodies), Start(v), 1);
        signal.Bodies() == ys && signal.Collector() == signal.BodyAt(ys, g)
      else signal.Bodies() == v.bodies && signal.Collector() == v.gc
    ensures Ranges(s) && Enabled(s, Step<G>.Begin) && Matches(ImageOf(signal), Apply(s, Begin), ids)
  {
    hide SweepFrom, SameBody, Sound, Looks, GroupKeysOf, DeadIn, Fits, Cleans, SweepCur;
    LooksNow(v.bodies);
    StartMatches(v, s, ids);
    AboutImage(signal);
    var c, t := if v.unique then CleanFew(s, {}, 1) else s, Apply(s, Begin);
    if v.unique {
      NobodyExpires(v, s, ids, Start(v), 1);
      SweepMatches(v, s, ids, v.looks, {}, DeadIn(v.bodies), Start(v), 1);
      var (ys, g) := SweepFrom(v.bodies, DeadIn(v.bodies), Start(v), 1);
      AboutCleans(v, s, v.looks, c, ids, ys, g);
      HeldNow(c);
      CleanedMatches(v, s, c, t, ids, ys, g, ImageOf(signal));
    } else {
      HeldNow(s);
      HeldMatches(v, s, t, ids);
      SameImage(v, ImageOf(signal));
    }
  }

  /** A new holder: the state is shared. */
  lemma HeldNow<G(!new)>(s: State<G>)
    requires Ranges(s)
    ensures var t := s.(invs := s.invs + [NewInv(s, Scanning)]); Ranges(t) && !Unique(t)
  {
    HoldRanges(s, Scanning);
    var t := s.(invs := s.invs + [NewInv(s, Scanning)]);
    assert t.invs[|s.invs|].version == t.current;
  }

  lemma HeldMatches<G(!new)>(v: Image<G>, s: State<G>, t: State<G>, ids: seq<ConnectionBody<G>>)
    requires Matches(v, s, ids) && t == s.(invs := t.invs) && Ranges(t)
    ensures Matches(v.(unique := Unique(t)), t, ids)
  {
    hide SameBody, Unique;
  }

  lemma SameImage<G(!new)>(v: Image<G>, w: Image<G>)
    requires w.bodies == v.bodies && w.keys == GroupKeysOf(v.bodies) && w.looks == Looks(v.bodies)
    requires v.looks == Looks(v.bodies)
    requires |v.keys| == |v.bodies| && forall j :: 0 <= j < |v.bodies| ==> v.bodies[j].groupKey == v.keys[j]
    ensures w.keys == v.keys && w.looks == v.looks
  {}

  /** The head of an invocation is the step `Begin`. */
  method BeginIsStep<G(!new)>(signal: SignalImpl<G>, objects: Objects, ghost s: State<G>,
                              ghost ids: seq<ConnectionBody<G>>)
      returns (localState: InvocationState<G>)
    requires signal.Valid() && !signal.mutex.held && Matches(ImageOf(signal), s, ids) && s.mutex.None?
    modifies signal`garbageCollectorIt, signal.sharedState`uses, objects, signal.mutex
    modifies if signal.Unique() then {signal.sharedState.connectionBodies} else {}
    modifies BodySet(signal.Bodies())`connected, BodySet(signal.Bodies())`slotRefcount, BodySet(signal.Bodies())`slot
    modifies SlotSet(signal.Bodies())
    ensures signal.Valid() && !signal.mutex.held && localState == signal.sharedState
    ensures Ranges(s) && Enabled(s, Step<G>.Begin) && Matches(ImageOf(signal), Apply(s, Begin), ids)
  {
    hide Matches, Sound, Cleaned, Looks, GroupKeysOf, DeadIn, SweepFrom, ImageOf, Start, Enabled, Apply, Ranges,
      StrictWeak, Sorted, NoDup, IndexOk, BodiesOk, SlotsSettled;
    ghost var v := ImageOf(signal);
    AboutMatches(v, s, ids);
    ValidIsSound(signal);
    AboutImage(signal);
    LooksNow(v.bodies);
    localState := signal.BeginInvocation(objects);
    BeginMatches(signal, v, s, ids);
  }

  lemma ForceCleanupMatches<G(!new)>(signal: SignalImpl<G>, v: Image<G>, s: State<G>, ids: seq<ConnectionBody<G>>,
                                     i: nat)
    requires Matches(v, s, ids) && Sound(v) && signal.Unique()
    requires Ranges(s) && Enabled(s, Step<G>.Janitor(i)) && s.invs[i].disc > s.invs[i].conn
    requires WalkedId(s, i) == CurId(s)
    requires v.looks == Looks(v.bodies) && forall j :: 0 <= j < |v.bodies| ==> v.bodies[j].groupKey == v.keys[j]
    requires signal.List().lt == v.lt && signal.sharedState.cell.combiner == v.combiner
    requires signal.CleanedThroughout(v.bodies)
    ensures Matches(ImageOf(signal), Apply(s, Janitor(i)), ids)
  {
    hide SweepFrom, SameBody, Sound, Looks, GroupKeysOf, DeadIn, Fits, Cleans, SweepCur;
    LooksNow(v.bodies);
    StartMatches(v, s, ids);
    AboutImage(signal);
    NobodyExpires(v, s, ids, 0, |v.bodies|);
    var c, t := ForceCleanup(s, WalkedId(s, i)), Apply(s, Janitor(i));
    if v.unique {
      SweepMatches(v, s, ids, v.looks, {}, DeadIn(v.bodies), 0, |v.bodies|);
    } else {
      CopySweepMatches(v, s, ids, v.looks, {}, DeadIn(v.bodies));
    }
    var (ys, g) := SweepFrom(v.bodies, DeadIn(v.bodies), 0, |v.bodies|);
    signal.WholeSweepEnds(v.bodies, DeadIn(v.bodies));
    AboutCleans(v, s, v.looks, c, ids, ys, g);
    RecordRanges(c, i, Swept);
    AloneNow(s, WalkedId(s, i), i);
    CleanedMatches(v, s, c, t, ids, ys, g, ImageOf(signal));
  }

  lemma AloneNow<G(!new)>(s: State<G>, list: nat, i: nat)
    requires Ranges(s) && CurId(s) == list && i < |s.invs| && s.invs[i].pc.Leaving?
    ensures var c := ForceCleanup(s, list); i < |c.invs| && Unique(SetPc(c, i, Swept))
  {
    CopyListFacts(s);
    ForceCleanupGrows(s, list);
  }

  lemma NothingCleanedMatches<G(!new)>(v: Image<G>, s: State<G>, ids: seq<ConnectionBody<G>>, i: nat)
    requires Matches(v, s, ids) && Ranges(s) && Enabled(s, Step<G>.Janitor(i))
    requires s.invs[i].disc <= s.invs[i].conn || WalkedId(s, i) != CurId(s)
    ensures Matches(v, Apply(s, Janitor(i)), ids)
  {
    hide SameBody;
    RecordRanges(s, i, Swept);
    HeldMatches(v, s, SetPc(s, i, Swept), ids);
    assert Unique(s) <==> Unique(SetPc(s, i, Swept)) by { StillHolds(s, i); }
  }

  /** What the janitor has done, in one state: the object now and what it was. */
  lemma JanitorMatches<G(!new)>(signal: SignalImpl<G>, v: Image<G>, s: State<G>, ids: seq<ConnectionBody<G>>, i: nat,
                                cleans: bool)
    requires Matches(v, s, ids) && Sound(v) && Ranges(s) && Enabled(s, Step<G>.Janitor(i))
    requires cleans <==> s.invs[i].disc > s.invs[i].conn && WalkedId(s, i) == CurId(s)
    requires |v.keys| == |v.bodies| && v.looks == Looks(v.bodies)
    requires forall j :: 0 <= j < |v.bodies| ==> v.bodies[j].groupKey == v.keys[j]
    requires signal.List().lt == v.lt && signal.sharedState.cell.combiner == v.combiner
    requires if cleans then signal.Unique() && signal.CleanedThroughout(v.bodies)
             else signal.Bodies() == v.bodies && signal.Collector() == v.gc && signal.Unique() == v.unique
    ensures Matches(ImageOf(signal), Apply(s, Janitor(i)), ids)
  {
    hide Matches, Sound, Looks, GroupKeysOf, Apply, Enabled;
    AboutImage(signal);
    if cleans {
      ForceCleanupMatches(signal, v, s, ids, i);
    } else {
      SameImage(v, ImageOf(signal));
      NothingCleanedMatches(v, s, ids, i);
    }
  }

  lemma StillHolds<G(!new)>(s: State<G>, i: nat)
    requires i < |s.invs| && s.invs[i].pc.Leaving?
    ensures Unique(s) <==> Unique(SetPc(s, i, Swept))
  {
    var t := SetPc(s, i, Swept);
    forall j | 0 <= j < |s.invs|
      ensures (s.invs[j].pc != Gone) == (t.invs[j].pc != Gone) && t.invs[j].version == s.invs[j].version
    {}
  }

  /** The janitor of invocation `i` is the step `Janitor(i)`. */
  method JanitorIsStep<G(!new)>(signal: SignalImpl<G>, objects: Objects, list: GroupedList<G, ConnectionBody<G>>,
                                conn: nat, disc: nat, ghost s: State<G>, ghost ids: seq<ConnectionBody<G>>,
                                ghost i: nat)
    requires signal.Valid() && !signal.mutex.held && Matches(ImageOf(signal), s, ids)
    requires Ranges(s) && Enabled(s, Step<G>.Janitor(i)) && conn == s.invs[i].conn && disc == s.invs[i].disc
    requires list == signal.List() <==> WalkedId(s, i) == CurId(s)
    modifies signal`garbageCollectorIt, signal`sharedState, signal.sharedState`uses, objects, signal.mutex
    modifies if signal.Unique() then {signal.sharedState.connectionBodies} else {}
    modifies BodySet(signal.Bodies())`connected, BodySet(signal.Bodies())`slotRefcount, BodySet(signal.Bodies())`slot
    modifies SlotSet(signal.Bodies())
    ensures signal.Valid() && !signal.mutex.held && Matches(ImageOf(signal), Apply(s, Janitor(i)), ids)
  {
    hide Matches, Sound, Cleaned, Looks, GroupKeysOf, DeadIn, SweepFrom, ImageOf, Start, Apply, Ranges, StrictWeak,
      Sorted, NoDup, IndexOk, BodiesOk, SlotsSettled, Enabled;
    ghost var v, cleans := ImageOf(signal), disc > conn && list == signal.List();
    ValidIsSound(signal);
    AboutImage(signal);
    AboutMatches(v, s, ids);
    LooksNow(v.bodies);
    signal.Janitor(objects, list, conn, disc);
    JanitorMatches(signal, v, s, ids, i, cleans);
  }

  lemma SetCombinerMatches<G(!new)>(v: Image<G>, s: State<G>, ids: seq<ConnectionBody<G>>, combiner: int)
    requires Matches(v, s, ids) && s.mutex.None?
    ensures Ranges(s) && Enabled(s, Step<G>.SetCombiner(combiner))
    ensures Matches(v.(unique := true, combiner := combiner), Apply(s, SetCombiner(combiner)), ids)
  {
    hide SameBody;
    StepSameList(s, SetCombiner(combiner));
    assert forall j :: 0 <= j < |s.invs| ==> InvRanges(s, s.invs[j]);
  }

  /** `set_combiner` is the step `SetCombiner`. */
  method SetCombinerIsStep<G(!new)>(signal: SignalImpl<G>, combiner: int, ghost s: State<G>,
                                    ghost ids: seq<ConnectionBody<G>>)
    requires signal.Valid() && !signal.mutex.held && Matches(ImageOf(signal), s, ids) && s.mutex.None?
    modifies signal`sharedState, signal.sharedState`uses, signal.mutex
    modifies if signal.Unique() then {signal.sharedState.cell} else {}
    ensures signal.Valid() && !signal.mutex.held
    ensures Ranges(s) && Enabled(s, Step<G>.SetCombiner(combiner))
    ensures Matches(ImageOf(signal), Apply(s, SetCombiner(combiner)), ids)
  {
    hide Matches, ImageOf, Enabled, Apply, Ranges, StrictWeak, Sorted, NoDup, IndexOk, BodiesOk;
    ghost var v := ImageOf(signal);
    AboutImage(signal);
    signal.SetCombiner(combiner);
    AboutImage(signal);
    SetCombinerMatches(v, s, ids, combiner);
    assert ImageOf(signal) == v.(unique := true, combiner := combiner);
  }
}
