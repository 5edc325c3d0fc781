# Boost.Signals2: a Dafny model of the signal engine

A signal keeps an ordered list of connection bodies. Invocations walk a version of that list while other
threads, and the slots themselves, connect, disconnect, block, replace the combiner and invoke the signal again.
List versions are shared copy-on-write, disconnected bodies are erased a few at a time, a slot is kept alive by a
reference count while it runs, and objects a slot tracks are locked before it is called. This project states what
the library promises about that and proves it with Dafny's verifier (`dafny verify dfyconfig.toml`).

The source is looked at from three sides.

**The protocol.** `Protocol` is a state machine for any number of threads and nested invocations. One step is one
critical section on the signal mutex, except that grabbing a slot's tracked objects takes one step per object,
because other code may drop its owners in between. The steps are connecting; disconnecting one body, a group or
all; blocking; `set_combiner`; and, for an invocation, beginning it, locking the next entry, grabbing an object,
deciding, running, returning or throwing `expired_slot`, advancing, leaving, and the destructors of the janitor,
the cache and the state pointer. A state version holds references to a list and to a combiner, so the sharing of
either is visible.

- `Steps`, `Invariants`: what every step of every run keeps, with no hypothesis: the lists, the place of every
  connection, the stored iterator, the reference counts, the records of invocations and the objects they hold.
- `Snapshots`: that the list an invocation walks does not change. Here one hypothesis is needed: `set_combiner` is
  called only when it finds `_shared_state.unique()`.
- `Safety`, `Calls`: what follows for whole runs, under the hypothesis only where it says so.
- `Effects`: single steps told by what they change, without the functions that the steps are made of; which slots an
  invocation runs, which bodies a reader disconnects and what an invocation holds, in every run; and that nobody
  waits for ever.
- `Isolation`: the hypothesis of `Snapshots` is needed. `unique()` asks who shares the state, not who shares the list
  or the combiner in it. It is shown exactly when `set_combiner` spoils isolation, with a run in which it does.
- `GrowthPotential`, `Growth`, `GrowthTight`, `GrowthUnbounded`: how long the list can get. The comment in the source
  says that examining two entries per connect avoids unlimited growth. That holds when the number of keys in use that
  the comparison tells apart is limited, with the bound proved here, or when no more than two bodies are ever
  connected at once, and in no other case: three bodies connected at a time are enough for a list of any length. No
  hypothesis is needed.
- `SweepProgress`: a sweep finishes, in any run, and removes what was disconnected when it began.
- `CallOrder`: the order of every list version, told from the history of connects without the list.

**The objects.** The classes follow the source's own classes and change their fields in place, with its loops.

- `GroupedLists`, with `GroupIndexes` and `GroupKeys`: the list of nodes and the map from each group to its first
  node. Iterators are references to nodes, and a null reference is the end.
- `Connections`: connection bodies, the lock that destroys its garbage after it has released the mutex, slots, and
  tracked objects that may expire at any moment. `Blocking`: shared connection blocks and the blocker they share.
- `Signals`: `signal_impl` with its shared state, stored iterator, clean-up loop and critical sections, proved
  against the same functions on sequences that `Protocol` is made of (`SweepFrom`, `InsertAt`, the bounds).
- `Refinement`: the methods of `Signals` perform the steps of `Protocol`: connecting, beginning an invocation, the
  janitor and `set_combiner`.
- `AutoBuffers`, on `RawMemory`: the buffer that lives inside the object while its capacity is at most N, over cells
  that are raw until an object is constructed in them, and a heap that is given back every block once.

**One invocation.** `Invocations` has the lazy iterator, its cache and the two combiners, with slots and other threads
as arbitrary functions on the world that change no reference count but those of their own invocations. They are
proved equal to a plain fold over the list, and the fold is described position by position: what each finds and
leaves, and exact counts at the end.

`Lists` holds facts on sequences, above all the clean-up sweep; `BodyCores` the counted part of a connection body,
shared by `Protocol`, `Connections` and `Invocations`; `Options` an optional value.

Two promises hold with a qualification the code makes necessary. A slot runs at most once per position only if the
call returns: a call that throws `expired_slot` caches nothing, so dereferencing again runs the slot again. `Calls`
has the run that shows it, and counts: one call at most besides those that threw. And the growth bound depends on the
number of inequivalent keys, as said above.

## Model

| member | source | states |
|---|---|---|
| `GroupKeys.KeyLessIsStrictWeak` | include/boost/signals2/detail/slot_groups.hpp:37-42 | Given a strict weak order on groups, the order of list keys is one too: irreflexive, transitive, and with transitive incomparability. |
| `GroupKeys.EquivalentTransitive` | include/boost/signals2/detail/slot_groups.hpp:176-181 | Being neither less nor greater is transitive, so keys fall into groups. |
| `GroupKeys.BoundsSeparate` | include/boost/signals2/detail/slot_groups.hpp:101-110 | In a sorted list the lower and upper bound of a key enclose exactly the entries equivalent to it. |
| `GroupKeys.InsertSorted` | include/boost/signals2/detail/slot_groups.hpp:111-134 | Inserting a key at its lower or at its upper bound keeps a list sorted. |
| `GroupKeys.Representatives` | include/boost/signals2/detail/slot_groups.hpp:176-181 | Of any set of keys some can be chosen, no two equivalent, such that each key is equivalent to one of them. |
| `GroupIndexes.LookupLower` | include/boost/signals2/detail/slot_groups.hpp:101-105 | Looking a key up in the map of first nodes gives the lower bound in the list, whether or not the group is there. |
| `GroupIndexes.LookupUpper` | include/boost/signals2/detail/slot_groups.hpp:106-110 | The same for the upper bound. |
| `GroupIndexes.LowerFinds` | include/boost/signals2/detail/slot_groups.hpp:190-192 | A group has an entry exactly when the entry at its lower bound is equivalent, and then it is the only one. |
| `GroupIndexes.InsertKeepsIndex` | include/boost/signals2/detail/slot_groups.hpp:182-199 | After an insertion at either end of a group the map still has exactly one entry per non-empty group, aimed at its first node. |
| `GroupIndexes.RemoveKeepsIndex` | include/boost/signals2/detail/slot_groups.hpp:135-166 | So it has after any stretch of a group is removed: the entry stays, moves to the next node, or goes. |
| `GroupIndexes.GroupEntry` | include/boost/signals2/detail/slot_groups.hpp:149-152 | A group that has a node has its entry at the lower bound of its key, aimed at its first node: the assertions of the single erase hold. |
| `GroupIndexes.EntriesInOrder` | include/boost/signals2/detail/slot_groups.hpp:77-91 | The entries stand at increasing list positions, the first at the front: what the nested loops of the copy rely on. |
| `GroupIndexes.CopyKeepsIndex` | include/boost/signals2/detail/slot_groups.hpp:69-92 | A map copied entry by entry to the same offsets of a copied list agrees with that list. |
| `GroupedLists.GroupedList.constructor` | include/boost/signals2/detail/slot_groups.hpp:66-68 | A new list is empty and its map agrees with it. |
| `GroupedLists.GroupedList.IteratorPosition` | include/boost/signals2/detail/slot_groups.hpp:200-223 | A map position stands for the first list position of its group, the map end for the list end. |
| `GroupedLists.GroupedList.FindLower` | include/boost/signals2/detail/slot_groups.hpp:101-105 | `lower_bound` returns the iterator to the first node whose key is not less. |
| `GroupedLists.GroupedList.FindUpper` | include/boost/signals2/detail/slot_groups.hpp:106-110 | `upper_bound` returns the iterator to the first node whose key is greater. |
| `GroupedLists.GroupedList.PushFront` | include/boost/signals2/detail/slot_groups.hpp:111-122 | Inserts a new node before the first key that is not less, for the front-ungrouped shortcut as well, and keeps list, keys and map in step. |
| `GroupedLists.GroupedList.PushBack` | include/boost/signals2/detail/slot_groups.hpp:123-134 | Inserts a new node before the first key that is greater, for the back-ungrouped shortcut as well, and keeps list, keys and map in step. |
| `GroupedLists.GroupedList.Insert` | include/boost/signals2/detail/slot_groups.hpp:182-199 | `m_insert` puts the node where the map position points and gives the group its one right entry. |
| `GroupedLists.GroupedList.EraseGroup` | include/boost/signals2/detail/slot_groups.hpp:135-145 | Removes exactly the nodes between the bounds of the key; the map still agrees. |
| `GroupedLists.GroupedList.Erase` | include/boost/signals2/detail/slot_groups.hpp:146-166 | Removes exactly the node given, returns the one behind it, and re-aims or removes the entry of its group. All three assertions hold. |
| `GroupedLists.GroupedList.Clear` | include/boost/signals2/detail/slot_groups.hpp:167-171 | Leaves list and map empty. |
| `GroupedLists.GroupedList.Copy` | include/boost/signals2/detail/slot_groups.hpp:69-92 | The copy constructor gives the same values and keys in new nodes, and each entry aims at the node of the copy that stands where the original's stands. The original is not changed. |
| `GroupedLists.GroupedList.AimCopies` | include/boost/signals2/detail/slot_groups.hpp:75-91 | The outer loop re-aims every entry into the new list. |
| `GroupedLists.GroupedList.WalkGroup` | include/boost/signals2/detail/slot_groups.hpp:86-90 | The inner loop brings both iterators to the next group together. |
| `Lists.SweepShape` | include/boost/signals2/detail/signal_template.hpp:436-460 | The clean-up loop in one piece: what is before and behind the stretch examined is untouched, the stretch loses exactly its dead entries, and the loop stops behind what is left of it. |
| `Lists.SweepMembers` | include/boost/signals2/detail/signal_template.hpp:436-460 | An entry is left exactly when it was not examined or is not dead. |
| `Lists.SweepSubseq` | include/boost/signals2/detail/signal_template.hpp:436-460 | What is left is in its old order. |
| `Invariants.StepSolid` | include/boost/signals2/detail/signal_template.hpp:165-175 | Every step of every thread, with no hypothesis at all: list versions have no repeats, every connected body is in the sorted current list, the stored iterator is valid, reference counts are exact and slots owned exactly while counted, at most one thread probes and it holds the mutex, tracked objects of a slot that is ready or running are held. |
| `Invariants.ReachableSolid` | include/boost/signals2/detail/signal_template.hpp:160-164 | So it is in every state a new signal can reach. |
| `Invariants.StepConsistent` | include/boost/signals2/detail/signal_template.hpp:436-507 | What of this concerns lists and counts; and the current list gets no body it did not have, but for the one a connect makes. |
| `Invariants.StepHeld` | include/boost/signals2/connection.hpp:168-193 | What of it concerns the objects an invocation holds, through every step of every thread. |
| `Snapshots.StepInv` | include/boost/signals2/detail/signal_template.hpp:229-252 | Provided `set_combiner` is called only when it finds the state unshared, every step also leaves the list under every holder as it was when the holder began, and the records true of it. |
| `Invariants.SetActiveRefs` | include/boost/signals2/detail/slot_call_iterator.hpp:52-61 | Giving up the old active slot and counting the new one keeps all counts exact, and the count that is decremented is never zero. |
| `Invariants.DisconnectRefs` | include/boost/signals2/connection.hpp:71-79 | Disconnecting keeps all counts exact, decrements a count that is not zero, and touches no other body. |
| `Invariants.SweepKeeps` | include/boost/signals2/detail/signal_template.hpp:436-460 | A clean-up in place loses no connected body, reconnects nothing, keeps the list sorted and the stored iterator in it, and touches no other list version. |
| `Invariants.ForceUniqueKeeps` | include/boost/signals2/detail/signal_template.hpp:478-491 | After the list has been made unique nobody else holds the current version, lists and counts are in order, also when the stored iterator pointed into the old list, and nothing is reconnected. |
| `Snapshots.ForceUniqueElsewhere` | include/boost/signals2/detail/signal_template.hpp:478-491 | And the list it has mutated is walked by no holder. |
| `Invariants.ForceCleanupKeeps` | include/boost/signals2/detail/signal_template.hpp:493-507 | The forced clean-up keeps lists and counts in order. |
| `Invariants.AddBodyKeeps` | include/boost/signals2/detail/signal_template.hpp:557-592 | Inserting a new body at the bound of its key keeps lists and counts in order. |
| `Snapshots.ReachableInvariant` | include/boost/signals2/detail/signal_template.hpp:160-164 | Every state a new signal reaches in a run that meets the hypothesis, in any interleaving and nesting, satisfies both invariants. |
| `Steps.StepGrows` | include/boost/signals2/connection.hpp:71-79 | No step of any run reconnects a body, gives it back a slot, changes its key or tracked objects, or changes what a holder began with. |
| `Safety.SnapshotIsolation` | include/boost/signals2/detail/signal_template.hpp:229-252 | Over any run that meets the hypothesis on `set_combiner`, the list a holder walks does not change while it is held, and an invocation runs only bodies connected before it began. |
| `Safety.BeginTakesCurrentList` | include/boost/signals2/detail/signal_template.hpp:233-242 | An invocation begins with the signal's list, in which every connected body is. |
| `Safety.CountsInEveryRun` | include/boost/signals2/connection.hpp:111-129 | In every state of every run a body's count is one for its connection plus one per cache it is active in, and its slot is there exactly while the count is positive. So both assertions `!= 0` hold: for every count a step decrements, and for the one it increments after releasing the slot active before. |
| `Safety.ActiveSlotIsOwned` | include/boost/signals2/detail/slot_call_iterator.hpp:43-61 | In every run the body an invocation has active has a positive count and still owns its slot. |
| `Safety.ActiveSlotIsKept` | include/boost/signals2/detail/slot_call_iterator.hpp:43-61 | Under the hypothesis it is also in the list that the invocation keeps alive. |
| `Safety.UnlistedBodyHasNoSlot` | include/boost/signals2/connection.hpp:121-129 | A body in no list that anyone keeps has count zero and no slot: the slot was given up before the body can be destroyed. |
| `Safety.Conservation` | include/boost/signals2/detail/signal_template.hpp:436-507 | In every state of every run, `set_combiner` at any time included, a connected body is in the current list exactly once, and the list is sorted by the keys of its bodies. |
| `Safety.DisconnectedForGood` | include/boost/signals2/connection.hpp:71-79 | Over any run, a body that is disconnected stays so, under the same key, and a slot given up stays given up. |
| `Safety.OnlyDisconnectedLeave` | include/boost/signals2/detail/signal_template.hpp:436-507 | Over any run, a body that is not in the list any more is disconnected, and one that has left it is not in it later. |
| `Safety.TrackedStayAlive` | include/boost/signals2/connection.hpp:168-193 | In every run, while a slot is callable or running, each of its tracked objects that can be held is alive, whatever other threads drop. |
| `Safety.DeadStaysDead` | include/boost/signals2/slot_base.hpp:71-93 | An object that has expired never comes back. |
| `Safety.DoomedStep` | include/boost/signals2/detail/slot_call_iterator.hpp:151-167 | Once a body is found disconnected, or an object still to be grabbed has expired, the probe of it ends with skipping it, whatever steps come between. |
| `Safety.ExpiredIsNeverRun` | include/boost/signals2/detail/slot_call_iterator.hpp:151-167 | Over any run, that invocation never runs that position. |
| `Safety.PositionOnlyAdvances` | include/boost/signals2/detail/slot_call_iterator.hpp:120-125 | An invocation never moves back, and runs only the position it stands on. |
| `Safety.LockedFrame` | include/boost/signals2/connection.hpp:39-56 | While one invocation probes a slot and so holds the mutex, no step of anybody else changes a list, a connection, a reference count, the combiner or the stored iterator, blocks a slot, or takes the mutex. |
| `Calls.NoCallAfterReturn` | include/boost/signals2/detail/slot_call_iterator.hpp:103-118 | A position whose call has returned is never run again. |
| `Calls.CallsPerPosition` | include/boost/signals2/detail/slot_call_iterator.hpp:103-118 | In any run an invocation runs a position at most once more than its calls there threw `expired_slot`; exactly once more if one returned; and until the combiner lets go its calls there are those that threw, the one that returned and the one running. |
| `Calls.RunAgainIff` | include/boost/signals2/detail/slot_call_iterator.hpp:103-118 | In any run, a position that has been run and is still the current one can be run again if and only if the last call there threw, which is if and only if none there has returned. |
| `Calls.RunsTwice` | include/boost/signals2/detail/slot_call_iterator.hpp:103-118 | A run from a new signal in which an invocation runs the same slot twice: the first call threw, so nothing was cached. |
| `Safety.ReadRangeExact` | include/boost/signals2/detail/signal_template.hpp:208-221 | `disconnect(group)` visits a body exactly when it is in the list and its key is equivalent to the group. |
| `Safety.PostInvocationBound` | include/boost/signals2/detail/signal_template.hpp:421-428 | After a full traversal of a list that is still the signal's, the current list has no disconnected entry, or at most twice as many entries as the traversal counted connected. |
| `Effects.EndProbeDoes` | include/boost/signals2/detail/slot_call_iterator.hpp:153-167 | When a probe ends the slot is run next if and only if its body is connected and not blocked; otherwise the iterator is one further and no body has changed. It is counted as connected exactly if it is, blocked or not. |
| `Effects.SetBlockedDoes` | include/boost/signals2/connection.hpp:81-99 | Blocking or unblocking sets the flag of that body, and nothing else changes. |
| `Effects.SkippedIsNeverRun` | include/boost/signals2/detail/slot_call_iterator.hpp:163-167 | Over any run, a position whose body was blocked or disconnected when its probe ended is never run by that invocation. |
| `Effects.OnlyCallableAreRun` | include/boost/signals2/detail/slot_call_iterator.hpp:144-170 | In any run, a position an invocation has run is one at which, in some step of the run, it found the body connected and not blocked. |
| `Effects.ConnectDoes` | include/boost/signals2/detail/signal_template.hpp:557-592 | A connect makes one new body: with the key asked for, connected, counted once, owning its slot, not blocked, and in a list nobody else holds. |
| `Effects.ConnectNotices` | include/boost/signals2/detail/signal_template.hpp:436-491 | Of the entries a connect examines, all of them if others hold the list and else the next two, each whose objects have expired is disconnected and no longer in the list. |
| `Effects.BeginDoes` | include/boost/signals2/detail/signal_template.hpp:229-242 | An invocation begins at the front of the current list, with the current combiner, holding nothing and with nothing counted. |
| `Effects.ReaderDisconnects` | include/boost/signals2/detail/signal_template.hpp:197-221 | When `disconnect(group)` or `disconnect_all_slots` has come to its end, whatever went on meanwhile, every body is disconnected that was in the list when it began and has a key equivalent to the group, or any key for the latter; it visits no others. |
| `Effects.GrabDoes` | include/boost/signals2/connection.hpp:168-193 | An object alive is held afterwards unless it is a `trackable`; one that has expired disconnects the body and ends the probe; no other body changes. |
| `Effects.HoldsExactly` | include/boost/signals2/detail/slot_call_iterator.hpp:153-156 | In every state of every run, an invocation whose slot is ready or running holds exactly the tracked objects of that slot that can be held: all of them, and none of a slot before. |
| `Effects.CommitDoes` | include/boost/signals2/detail/slot_call_iterator.hpp:52-61 | Making a slot active takes one from the count of the body active before and adds one to that of the new, unless they are the same; no other body changes. |
| `Effects.ReleaseDoes` | include/boost/signals2/detail/slot_call_iterator.hpp:43-50 | Giving up the active slot takes one from its count, its slot goes exactly with the last, and no other body changes. |
| `Effects.ThrowDoes` | include/boost/signals2/detail/slot_call_iterator.hpp:109-113 | A slot that throws `expired_slot` is disconnected, nothing else changes, and its invocation stands where it stood with nothing cached. |
| `Effects.JanitorDoes` | include/boost/signals2/detail/signal_template.hpp:421-428 | The janitor leaves exactly the connected bodies in the list, and the stored iterator at the end, if more slots met were disconnected than connected and the list is still the signal's; else it changes nothing. |
| `Effects.MutexIsReleased` | include/boost/signals2/connection.hpp:39-56 | Whoever holds the mutex can go on with its probe. |
| `Effects.NobodyIsStuck` | include/boost/signals2/detail/slot_call_iterator.hpp:144-178 | While nobody holds the mutex, every invocation and every reader that has not finished can go on. |
| `Effects.AnybodyMayAct` | include/boost/signals2/detail/signal_template.hpp:165-221 | What the runs considered include: while nobody holds the mutex anybody can connect, disconnect, block, replace the combiner, invoke or disconnect a group, whatever else is under way; a slot that runs can return, throw `expired_slot` or leave with another exception; a combiner can call, skip or stop. |
| `Invariants.CleanAllLeavesConnected` | include/boost/signals2/detail/signal_template.hpp:493-507 | A full clean-up leaves only connected bodies, and the stored iterator at the end. |
| `Isolation.ConnectDisturbsIff` | include/boost/signals2/detail/signal_template.hpp:478-491 | A connect changes the list under a holder exactly when the signal holds its state alone but that list is shared. |
| `Isolation.SetCombinerSpoilsIff` | include/boost/signals2/detail/signal_template.hpp:307-314 | After `set_combiner`, the next connect changes the list under some invocation exactly when `set_combiner` did not find the state unshared. |
| `Isolation.IsolationFails` | include/boost/signals2/detail/signal_template.hpp:307-314 | A run of three steps in which isolation fails: invoke, replace the combiner, connect. |
| `Isolation.CombinerChangesIff` | include/boost/signals2/detail/signal_template.hpp:307-314 | A step changes the combiner of a holder exactly when it is a `set_combiner` in place and the holder shares the combiner. |
| `Isolation.ConnectThenSetCombinerReaches` | include/boost/signals2/detail/signal_template.hpp:390-393 | A connect during an invocation copies the list but shares the combiner, so a later `set_combiner` reaches that invocation. |
| `Isolation.CombinerIsolation` | include/boost/signals2/detail/signal_template.hpp:233-251 | Without `set_combiner` during an invocation, the combiner an invocation holds does not change. |
| `Growth.BoundedGrowth` | include/boost/signals2/detail/signal_template.hpp:478-491 | With at most L bodies connected at once and at most k pairwise inequivalent keys in use, no run makes the list longer than (48 L + 24) k, even with `set_combiner` at any time. |
| `GrowthUnbounded.BoundedIff` | include/boost/signals2/detail/signal_template.hpp:486-489 | For every group comparison and every L: over all runs with at most L bodies connected at once the list length is bounded if and only if the number of inequivalent keys in use is limited, or the comparison tells only finitely many groups apart, or L is at most two. The promise of the comment in the code fails in exactly the other cases. |
| `GrowthTight.ThreeEntriesAtMost` | include/boost/signals2/detail/signal_template.hpp:486-489 | With at most two bodies connected at once no run, whatever keys and invocations it has, makes the list longer than three entries. |
| `GrowthTight.ConnectTight` | include/boost/signals2/detail/signal_template.hpp:436-491 | The measure behind it: examining two entries and inserting one keeps "at most three entries, and at most two when the unread ones are one or two and all connected". |
| `GrowthUnbounded.ReachStart` | include/boost/signals2/detail/signal_template.hpp:486-489 | The run that shows it, for any comparison with a descending chain of n groups: with three bodies connected at a time, each sweep leaves one dead entry more. |
| `GrowthUnbounded.ChainOf` | include/boost/signals2/detail/signal_template.hpp:486-489 | A comparison that tells more than finitely many groups apart has descending chains of any length. |
| `GrowthPotential.ConnectBounded` | include/boost/signals2/detail/signal_template.hpp:486-489 | One connect that examines two entries and adds one keeps the potential that bounds the list. |
| `GrowthPotential.CleanBounded` | include/boost/signals2/detail/signal_template.hpp:481-483 | A full clean-up of the copied list resets it. |
| `SweepProgress.SweepFinishes` | include/boost/signals2/detail/signal_template.hpp:436-475 | In any run, a sweep that begins on a list of n entries, with a connect or with an invocation that finds the state unshared, is through after n - 1 more connects, whatever steps come between, and no body disconnected when it began is left. |
| `SweepProgress.SweepHasMore` | include/boost/signals2/detail/signal_template.hpp:595-596 | In every state of every run the stored iterator is at the end or a valid position of the current list. |
| `SweepProgress.ThroughStays` | include/boost/signals2/detail/signal_template.hpp:436-460 | In any run, what a sweep removed never comes back. |
| `CallOrder.ListsInCallOrder` | include/boost/signals2/detail/signal_template.hpp:557-592 | After any run from a new signal every list version stands in the order told by the history of connects alone: keys in order; within a key those at the front, latest first, then those at the back, earliest first. |
| `CallOrder.OrderDeterminesList` | include/boost/signals2/detail/slot_groups.hpp:111-134 | That order and the set of bodies determine the list. |
| `CallOrder.ExactlyOneFirst` | include/boost/signals2/detail/slot_groups.hpp:37-42 | Of two different bodies exactly one comes first. |
| `CallOrder.InsertOrdered` | include/boost/signals2/detail/signal_template.hpp:557-592 | A new body is put where the order says. |
| `CallOrder.StepTold` | include/boost/signals2/detail/signal_template.hpp:557-592 | Every step of every thread keeps every list version in that order. |
| `CallOrder.CalledInOrder` | include/boost/signals2/detail/slot_call_iterator.hpp:144-170 | An invocation runs its slots in that order. |
| `Connections.Slot.Expired` | include/boost/signals2/slot_base.hpp:85-93 | `expired` answers yes if an object had expired before the call, and only if one has expired after it, while other threads drop objects during the loop. |
| `Connections.Slot.Lock` | include/boost/signals2/slot_base.hpp:71-84 | `lock` returns one pointer per tracked object, that of the object for each ordinary one and an empty one for each `trackable`, or throws because one has expired; it throws if one had expired before. |
| `Connections.GrabNext` | include/boost/signals2/slot_base.hpp:36-63 | An object found alive after the attempt to lock it was locked, unless it is a `trackable`, which never is; and it was alive before. |
| `Connections.GarbageCollectingLock.AddTrash` | include/boost/signals2/connection.hpp:46-49 | Only a slot not yet put aside and not yet destroyed is put aside. |
| `Connections.GarbageCollectingLock.Destroy` | include/boost/signals2/connection.hpp:50-55 | The mutex is released before the garbage is destroyed, and every slot put aside is destroyed once. |
| `Connections.Slot.Destroy` | include/boost/signals2/connection.hpp:29-42 | A slot is destroyed at most once and never while the mutex is held: both are preconditions. |
| `Connections.ConnectionBody.constructor` | include/boost/signals2/connection.hpp:61-64 | A new body is connected, counts one and owns its slot. |
| `Connections.ConnectionBody.IncSlotRefcount` | include/boost/signals2/connection.hpp:111-116 | Counts one more; the assertion is the precondition. |
| `Connections.ConnectionBody.DecSlotRefcount` | include/boost/signals2/connection.hpp:121-129 | Counts one less, and gives the slot to the lock exactly when the count becomes zero. |
| `Connections.ConnectionBody.ReleaseSlot` | include/boost/signals2/connection.hpp:212-218 | Hands the slot over and forgets it. |
| `Connections.ConnectionBody.NolockDisconnect` | include/boost/signals2/connection.hpp:71-79 | Only the first call counts. |
| `Connections.ConnectionBody.Disconnect` | include/boost/signals2/connection.hpp:66-70 | Disconnects under the mutex; the slot is destroyed exactly when the body gave it up, after the mutex is released. |
| `Connections.ConnectionBody.DisconnectExpiredSlot` | include/boost/signals2/connection.hpp:158-167 | Disconnects if an object had expired before, and only if one has expired. |
| `Connections.ConnectionBody.NolockGrabTrackedObjects` | include/boost/signals2/connection.hpp:168-193 | If the body is connected afterwards, all its objects were alive, and the pointers grabbed are one per object: to each ordinary one, empty for each `trackable`. If it was disconnected, one has expired; and it is if one had before. |
| `Connections.ConnectionBody.Connected` | include/boost/signals2/connection.hpp:150-155 | Answers whether the body is connected after looking for expired objects, and destroys a slot given up after the mutex is released. |
| `Connections.ConnectionBody.GetBlocker` | include/boost/signals2/connection.hpp:81-91 | Returns the blocker the body knows while somebody holds it, else a new one; the caller has one use of it. |
| `Blocking.BlockedIffSomeBlock` | include/boost/signals2/connection.hpp:92-99 | A live body is blocked exactly when some `shared_connection_block` on it is blocking, and passed over by call iterators exactly when it is blocked or disconnected. |
| `Blocking.SharedConnectionBlock.constructor` | include/boost/signals2/shared_connection_block.hpp:25-30 | A new block is blocking if asked to; the blocker counts it. |
| `Blocking.SharedConnectionBlock.Copy` | include/boost/signals2/shared_connection_block.hpp:22-56 | The implicit copy shares the blocker, and it counts the copy. |
| `Blocking.SharedConnectionBlock.Block` | include/boost/signals2/shared_connection_block.hpp:31-43 | Blocks, also when the connection has expired, and keeps the blocker's count right. |
| `Blocking.SharedConnectionBlock.Unblock` | include/boost/signals2/shared_connection_block.hpp:44-47 | Gives up the use of the blocker. |
| `Blocking.SharedConnectionBlock.Destroy` | include/boost/signals2/shared_connection_block.hpp:22-56 | The implicit destructor gives it up too. |
| `Blocking.BlockersDiffer` | include/boost/signals2/connection.hpp:81-91 | Blocks on one body do not concern another. |
| `Signals.SignalImpl.constructor` | include/boost/signals2/detail/signal_template.hpp:160-164 | A new signal is valid, with an empty list, an unshared state that holds the combiner and the comparison given, and the stored iterator at the end. |
| `Signals.SignalImpl.Examine` | include/boost/signals2/detail/signal_template.hpp:445-456 | One turn of the clean-up loop: the body is disconnected if an object expired, erased exactly when it is disconnected, and the iterator is at the next entry. |
| `Signals.SignalImpl.CleanupLoop` | include/boost/signals2/detail/signal_template.hpp:441-458 | The loop leaves the list that the sweep of sequences gives, examines exactly the entries counted, and puts aside exactly the slots given up. |
| `Signals.SignalImpl.CleanupFrom` | include/boost/signals2/detail/signal_template.hpp:436-460 | And stores the iterator where the loop stopped. |
| `Signals.SignalImpl.Cleanup` | include/boost/signals2/detail/signal_template.hpp:462-475 | Starts from the stored iterator, or from the front when that is the end. |
| `Signals.SignalImpl.CopyState` | include/boost/signals2/detail/signal_template.hpp:482 | The new state has its own copy of the list and the old combiner; the old state has one holder less. |
| `Signals.SignalImpl.ForceUnique` | include/boost/signals2/detail/signal_template.hpp:478-491 | The list becomes unique: a shared one is copied and the copy cleaned throughout, an unshared one is cleaned for two entries. |
| `Signals.SignalImpl.InsertBody` | include/boost/signals2/detail/slot_groups.hpp:111-134 | Inserts a body at the bound of its key and leaves the other nodes, so that the stored iterator stays valid. |
| `Signals.SignalImpl.NolockConnect` | include/boost/signals2/detail/signal_template.hpp:557-592 | The list is the one `nolock_force_unique_connection_list` leaves, with the new body at the bound of its key. |
| `Signals.SignalImpl.Connect` | include/boost/signals2/detail/signal_template.hpp:165-175 | A grouped slot gets its group as key; without a group the new body is the last of the list `at_back` and the first `at_front`. In one critical section; a list that others hold is not changed; slots given up are destroyed after the mutex is released, and no others are. |
| `Signals.SignalImpl.Unlock` | include/boost/signals2/connection.hpp:39-56 | At the end of a critical section exactly the slots given up in it are destroyed. |
| `Signals.SignalImpl.BeginInvocation` | include/boost/signals2/detail/signal_template.hpp:231-242 | Cleans one entry if nobody else holds the state, takes a share of it, and changes no body. |
| `Signals.SignalImpl.Janitor` | include/boost/signals2/detail/signal_template.hpp:421-428 | Forces a clean-up exactly when more slots met were disconnected than connected. |
| `Signals.SignalImpl.ForceCleanup` | include/boost/signals2/detail/signal_template.hpp:493-507 | Cleans throughout, in a copy if others hold the list, exactly when the list is still the signal's. |
| `Signals.SignalImpl.SetCombiner` | include/boost/signals2/detail/signal_template.hpp:307-314 | Replaces the combiner in place if nobody else holds the state, else in a new state that shares the list. |
| `Signals.SignalImpl.GetReadableState` | include/boost/signals2/detail/signal_template.hpp:508-512 | Takes a share of the state under the mutex and changes nothing else. |
| `Signals.SignalImpl.DisconnectStretch` | include/boost/signals2/detail/signal_template.hpp:203-207 | The loop disconnects exactly the bodies between two positions and destroys exactly the slots given up. |
| `Signals.SignalImpl.DisconnectGroup` | include/boost/signals2/detail/signal_template.hpp:208-221 | Disconnects exactly the bodies whose key is equivalent to the group; no other body changes. |
| `Signals.SignalImpl.DisconnectAllSlots` | include/boost/signals2/detail/signal_template.hpp:197-207 | Disconnects every body of the list. |
| `Refinement.ConnectIsStep` | include/boost/signals2/detail/signal_template.hpp:165-175 | `connect` takes an object that matches a protocol state to one that matches the state after the step `Connect`, whose key is the group, or without one the back-ungrouped or front-ungrouped key as the position says, for some verdict on the bodies found expired that the step allows. |
| `Refinement.NewIsInit` | include/boost/signals2/detail/signal_template.hpp:156-164 | A new signal object matches the state that every run begins with. |
| `Refinement.BeginIsStep` | include/boost/signals2/detail/signal_template.hpp:231-242 | The head of `operator()` is the step `Begin`. |
| `Refinement.JanitorIsStep` | include/boost/signals2/detail/signal_template.hpp:421-428 | The destructor of `invocation_janitor` is the step `Janitor`. |
| `Refinement.SetCombinerIsStep` | include/boost/signals2/detail/signal_template.hpp:307-314 | `set_combiner` is the step `SetCombiner`. |
| `Refinement.ForceUniqueMatches` | include/boost/signals2/detail/signal_template.hpp:478-491 | Cleaning or copying the list of objects and the list of numbers removes the same entries, disconnects the same bodies and leaves the stored iterator at the same entry. |
| `Refinement.VerdictFits` | include/boost/signals2/detail/signal_template.hpp:436-460 | What the clean-up loop finds expired, while other threads drop objects, is a verdict that the protocol allows. |
| `Invocations.SlotCallIteratorCache.Destroy` | include/boost/signals2/detail/slot_call_iterator.hpp:43-50 | The destructor of the cache takes one from the count of the active body, whose slot goes exactly if that was the last; no other body changes. The assertion on the count holds. |
| `Invocations.SlotCallIteratorCache.SetActiveSlot` | include/boost/signals2/detail/slot_call_iterator.hpp:52-61 | Takes one from the count of the old active body before it adds one to that of the new; when they are the same, or for any other body, nothing has changed afterwards. Both assertions hold. |
| `Invocations.SlotCallIterator.constructor` | include/boost/signals2/detail/slot_call_iterator.hpp:94-100 | The begin iterator stands on the first callable slot, or at the end, as the fold says. |
| `Invocations.SlotCallIteratorCache.GrabTracked` | include/boost/signals2/detail/slot_call_iterator.hpp:153-156 | Keeps pointers to the tracked objects that can be held, in order, and none of the slot before; disconnects the body at the first object that has expired. |
| `Invocations.SlotCallIterator.LockNextCallable` | include/boost/signals2/detail/slot_call_iterator.hpp:144-178 | Tests body after body until one is callable, counts connected and disconnected ones, makes it the active slot, and leaves the cache with pointers to all its objects that can be held. |
| `Invocations.SlotCallIterator.TestOne` | include/boost/signals2/detail/slot_call_iterator.hpp:151-168 | One body: the test is the one of the fold, and the body becomes active exactly when it is callable. |
| `Invocations.SlotCallIterator.Dereference` | include/boost/signals2/detail/slot_call_iterator.hpp:102-118 | A cached result is returned without running the slot; otherwise it runs once. If it returns, the world is as it left it; if it throws, its body is disconnected, no other changes, and nothing is cached. |
| `Invocations.SlotCallIterator.Increment` | include/boost/signals2/detail/slot_call_iterator.hpp:120-125 | Moves on to the next callable slot as the fold says and drops the result. |
| `Invocations.OptionalLastValue` | include/boost/signals2/optional_last_value.hpp:28-43 | Makes exactly the visits of the fold and returns what the last slot that did not throw returned. |
| `Invocations.LastValue` | include/boost/signals2/last_value.hpp:37-58 | The same, with `no_slots_error` when no slot returned. |
| `Invocations.NothingReturnedIff` | include/boost/signals2/last_value.hpp:41-58 | There is nothing to return exactly when every slot that was called threw. |
| `Invocations.LastReturnedIs` | include/boost/signals2/last_value.hpp:41-58 | What is returned is what some slot returned, and every slot called after that one threw. |
| `Invocations.ConnectedCountIs` | include/boost/signals2/detail/slot_call_iterator.hpp:157-162 | The count the janitor compares is the number of positions at which the body was found connected, blocked or not. |
| `Invocations.Invoke` | include/boost/signals2/detail/signal_template.hpp:243-251 | A whole invocation: result, world and both counts are those of the fold, and the counts add up to the length of the list. |
| `Invocations.FoldShape` | include/boost/signals2/detail/slot_call_iterator.hpp:144-178 | The fold position by position: each body is tested once, in order, in the world left when the call before it had returned, and called exactly when it passes. |
| `Invocations.WorldLeft` | include/boost/signals2/detail/slot_call_iterator.hpp:102-118 | The world a position finds is what the visit before it left: as the slot left it if it returned, the same with its body disconnected and nothing else changed if it threw, and as it was tested if it was passed over. |
| `Invocations.WalkGivesUp` | include/boost/signals2/detail/slot_call_iterator.hpp:43-61 | At the end of the walk the count of the body called last is given up, and nothing else has changed since the last visit. |
| `Invocations.ProbeIs` | include/boost/signals2/connection.hpp:168-193 | A body that has its slot, and whose slot tracks an expired object, is disconnected; nothing else ever changes in a test. |
| `Invocations.HeldObjectsAre` | include/boost/signals2/detail/slot_call_iterator.hpp:153-156 | The cache keeps one pointer per tracked object that is not a `trackable`, and no others. |
| `Invocations.CallableIff` | include/boost/signals2/detail/slot_call_iterator.hpp:155-163 | A body passes exactly when it is connected, not blocked, and none of its objects has expired. |
| `Invocations.FoldKeepsCounts` | include/boost/signals2/detail/slot_call_iterator.hpp:43-61 | After an invocation each body counts its connection and the caches of other invocations, and nothing else: no count is left behind and none is missing, whatever the slots do. Nothing is reconnected. |
| `Invocations.ThrewIsDisconnected` | include/boost/signals2/detail/slot_call_iterator.hpp:109-113 | A slot that threw `expired_slot` is disconnected when the invocation ends. |
| `RawMemory.Heap.Allocate` | include/boost/signals2/detail/auto_buffer.hpp:162-168 | A new block is raw, of the size asked for, and live. |
| `RawMemory.Heap.Deallocate` | include/boost/signals2/detail/auto_buffer.hpp:170-175 | Only a live block can be freed, with its own capacity, after its objects are destroyed; it never comes back. |
| `RawMemory.UninitializedCopy` | include/boost/signals2/detail/auto_buffer.hpp:177-201 | Constructs copies in raw cells only. |
| `RawMemory.CopyWithin` | include/boost/signals2/detail/auto_buffer.hpp:930-935 | `std::copy` within a block moves the elements as a whole, when its destination does not start inside the source range. |
| `RawMemory.DestroyBack` | include/boost/signals2/detail/auto_buffer.hpp:261-268 | Destroys exactly the last n objects. |
| `AutoBuffers.AutoBuffer.ValidIsValid` | include/boost/signals2/detail/auto_buffer.hpp:454-476 | What every operation keeps implies the source's own `is_valid`. |
| `AutoBuffers.AutoBuffer.constructor` | include/boost/signals2/detail/auto_buffer.hpp:478-484 | A new buffer is empty and inside. |
| `AutoBuffers.AutoBuffer.WithCapacity` | include/boost/signals2/detail/auto_buffer.hpp:538-544 | A buffer with room for n elements, in a block exactly when n exceeds N. |
| `AutoBuffers.AutoBuffer.Copy` | include/boost/signals2/detail/auto_buffer.hpp:486-494 | A copy has the same elements in its own storage; the original is not changed. |
| `AutoBuffers.AutoBuffer.Destroy` | include/boost/signals2/detail/auto_buffer.hpp:253-283 | Destroys all elements and frees the block, if there is one. |
| `AutoBuffers.AutoBuffer.ReserveImpl` | include/boost/signals2/detail/auto_buffer.hpp:309-317 | Moves the elements to storage of another capacity and frees the old block. |
| `AutoBuffers.AutoBuffer.Reserve` | include/boost/signals2/detail/auto_buffer.hpp:791-800 | Keeps the elements; a larger request gives the larger of it and four times the capacity. |
| `AutoBuffers.AutoBuffer.ShrinkToFit` | include/boost/signals2/detail/auto_buffer.hpp:966-976 | Keeps the elements; a buffer in a block gets the capacity it needs, and moves inside if that is enough. |
| `AutoBuffers.AutoBuffer.PushBack` | include/boost/signals2/detail/auto_buffer.hpp:815-827 | Appends one element. Nothing is reallocated while there is room; a full buffer copies its elements once, to four times the capacity or to what is needed. |
| `AutoBuffers.AutoBuffer.PopBackN` | include/boost/signals2/detail/auto_buffer.hpp:908-916 | Removes the last n elements. |
| `AutoBuffers.AutoBuffer.AssignFrom` | include/boost/signals2/detail/auto_buffer.hpp:496-536 | Copy assignment gives the contents of the other buffer in all four cases, self assignment included, and the larger of the capacity and the other's size. |
| `AutoBuffers.AutoBuffer.Erase` | include/boost/signals2/detail/auto_buffer.hpp:923-942 | Removes one element; the buffer is then not full. |
| `AutoBuffers.AutoBuffer.EraseRange` | include/boost/signals2/detail/auto_buffer.hpp:944-964 | Removes a stretch; the buffer is then not full. |
| `AutoBuffers.AutoBuffer.Insert` | include/boost/signals2/detail/auto_buffer.hpp:837-867 | Inserts one element at the back, before the last element, or anywhere in a full buffer. |
| `AutoBuffers.AutoBuffer.OneSidedSwap` | include/boost/signals2/detail/auto_buffer.hpp:364-376 | Takes over the block of a local buffer, whose destructor then has nothing to free. |
| `AutoBuffers.AutoBuffer.Swap` | include/boost/signals2/detail/auto_buffer.hpp:1010-1058 | Exchanges contents and capacities in all three cases, also with itself, and neither allocates nor frees. |
| `AutoBuffers.SwapOneOnStack` | include/boost/signals2/detail/auto_buffer.hpp:1033-1052 | The case with exactly one buffer inside. |
| `AutoBuffers.SwapBothOnStack` | include/boost/signals2/detail/auto_buffer.hpp:339-362 | The case with both inside. |
| `AutoBuffers.AmortisedGrowth` | include/boost/signals2/detail/auto_buffer.hpp:815-827 | Starting empty, with any N, k single `push_back` calls copy fewer than 4k/3 elements. |

## Left out

- Template and preprocessor machinery, argument passing, `boost::function`, `bind` and `visit_each`: types only. Slots are opaque.
- Mutex implementations and `dummy_mutex`: one mutual-exclusion lock per signal, shared by its bodies, is assumed.
- `deconstruct`, `foreign_ptr`, `trackable` derivation, `scoped_connection`, moves and swaps of handles and signals, and the `signal` wrapper: small members without behaviour of their own.
- `num_slots`, `empty` and `combiner`, and `disconnect(slot)` by comparing functions: loops over the list like those of `DisconnectStretch`; the question each of the first two asks a body is `ConnectionBody.Connected`.
- `connection::blocked()` as documented ("true if disconnected or blocked"): for a live body the code answers only whether it is blocked, and that is what is modelled.
- That no destructor of the user runs under the mutex at all: `connected()` takes and drops owners of tracked objects under it, and `connect_extended` local copies of a slot. Only the slot a body owns is covered.
- Allocation failures, exceptions other than `expired_slot` and `no_slots_error`, and wrap-around of unsigned counters.
- Iterators in `Protocol`: an invocation stands at a list position, not at a node. The two agree while the list under it does not change, which is what `SnapshotIsolation` shows. After a change, possible only where the hypothesis of `Snapshots` fails, the source may dereference an erased node; which body the invocation then looks at is not modelled.
- Expiry in `Connect` steps of `Protocol`: the step carries the set of bodies its clean-up will find expired. It has to contain those expired when the step begins and may contain others, whose objects are dropped during the critical section.
- A repeated dereference in `Protocol`: one that finds a cached result changes nothing and has no step; `Dereference` in `Invocations` covers it.
- Copies of a `slot_call_iterator` that are advanced separately: one iterator per invocation is modelled.
- Invocations.SlotCallIterator.TestOne: grabs the tracked objects of a slot in one go; that others may drop objects in between, and that those grabbed stay alive, is in `Protocol` and `Connections`.
- Invocations.SlotCallIterator.LockNextCallable: the same.
- `invocation_state` counts its holders in `Signals` as a field that the methods keep; shared pointers to bodies are counted only for weak pointers to them, in `Blocking`.
- Connections.ConnectionBody.DecSlotRefcount: the body is valid afterwards unless it is still connected and the count became zero, which no caller does; the invariant of `Invariants` excludes it.
- Signals.SignalImpl.NolockConnect: sets the key of an ungrouped body before it inserts it, where the source sets it right after, in the same critical section.
- The order in which the garbage of a lock is destroyed, and that the garbage and the cached pointers are kept in an `auto_buffer`: they are sequences.
- AutoBuffers.AutoBuffer.Insert: in a buffer that is not full, only at the back or before the last element. Further in front the source calls `std::copy` with a destination inside its source range, which section 25.3.1 of ISO/IEC 14882:2011 does not permit. The overloads that insert several elements are left out too.
- AutoBuffers.AutoBuffer.EraseRange: for an empty range only at the end of a buffer that is not full. Further in front the source calls `std::copy` with a destination inside its source range, which section 25.3.1 of ISO/IEC 14882:2011 does not permit, and in a full buffer its assertion that the buffer is not full fails.
- AutoBuffers.AutoBuffer.PushBack: the element is a value, so it cannot be a reference into the buffer itself, which reallocation would invalidate.
- `auto_buffer` for element types with trivial copies, destructors or constructors, which take shorter branches; its uninitialised resizing, range constructors and comparisons; and `reserve_precisely`.
- Refinement.ConnectIsStep: for bodies in the list. Objects that other threads drop during the call are further `DropObject` steps. `disconnect(group)`, `disconnect_all_slots` and the walk of an invocation are proved for the objects in `Signals` and `Invocations`, but not as steps of `Protocol`.
- Examples, documentation tools and platform workarounds.
