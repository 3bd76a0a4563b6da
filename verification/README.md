# Tigon, modelled and proved in Dafny

Tigon is a distributed in-memory database whose hosts share memory over CXL. This project models the parts of it that are
hardest to get right, as they are written, and proves what they promise, for all inputs and all interleavings.

* **B+ tree with optimistic lock coupling.** `BTreeHeap` is the heap of nodes and `BTreeSections` what writers do to it
  under their locks. `BTreeOlc` lets any number of lookups, inserts and removes run on it, one access to a lock word or
  page at a time; `BTreeCoupling`, `BTreeSteps`, `BTreeBodies`, `BTreeRoom` and `BTreeRuns` hold its invariant, and
  `BTreeLinear` what follows for whole runs. `BTreePull`, `BTreeStray`, `BTreeShared` and `BTreeTall` say when and how it
  goes wrong; `BTreeWalk` and `BTreeReach` lead there from the empty tree. `BTreeSize` is about page sizes, `BTreeMap` is
  the same tree run by one thread, with its loops, restarts and recursion, and `Pages` is the in-place array code of a
  single page.
* **Epoch-based reclamation across hosts** (`Ebr`, `EbrAhead`): every shared access of the scan, the compare-and-swap and
  the reclaim loop is a step.
* **Group-commit rounds** (`Barrier`, `BarrierRuns`): coordinators, their workers, and the anonymous messages between
  them.
* **Shared-memory ring buffer** (`Ring`), **checkpoint by copy-on-write** (`Cow`, `HashWalk`).
* **Logging** (`FileWriter`, `GroupCommit`, `EpochLog`) and **message framing** (`BitWords`, `MessageHeader`, `Framing`,
  `Dispatch`).
* **TPC-C** (`TpccKeys`, `Tpcc`, `TpccConsistency`, `TpccCheck`, `TpccStock`, `TpccDatabase`, `Replication`).

`SeqOps`, `Arith` and `ByteOrder` hold shared definitions. `dafny verify dfyconfig.toml` checks everything.

## How concurrency is modelled

A concurrent component is a state machine. One step is one access to shared memory, one message, or what a thread does to
pages while it holds their locks. Interleavings are sequentially consistent. Fields called auxiliary in the code record
history for the proofs; no step reads them. A check that aborts the program is a step to a failure state that is proved
unreachable, or a result value when callers can provoke it.

In the tree a lock word is a number that is even while unlocked. Reading a word, reading a page, checking a word,
upgrading it to a write lock by compare-and-swap, searching the largest key below a node, and each unlock are separate
steps. A page read under a word that has since changed yields anything at all. The writes of a section are one step
between its last upgrade and its first unlock. That the thread then holds every node it writes is proved
(`BTreeBodies.BodyOwned`), and that no other thread holds one is proved exactly (`BTreeLinear.UpgradeExclusive`);
neither is assumed.

## What the proofs found

* A merge of inner nodes pulls the largest key below the left node down between the joined keys, not the separator that
  stood between them (`common/btree_olc/BTreeOLC.h:3108-3121`). This moves the ranges of nodes that the merge does not
  lock, and a thread that stands on one of them still passes its checks. `BTreeStray.MergeStraysExactly` says of every
  such node, at every point of a call, exactly when it stops covering the thread's key. A writer at its leaf is affected
  if and only if the merge is above the leaves' parents and its key lies in the gap (`BTreeStray.WriterStraysExactly`);
  an insert then reports success and its key is not found (`BTreeStray.OvertakenInsertIsLost`).
* The largest key is passed as a reference into a leaf and read when the pages are joined, while above the leaves' parents
  that leaf is not locked (`common/btree_olc/BTreeOLC.h:756-760`, `3274-3327`). An insert into the leaf in between makes
  the slot hold a smaller key, and the largest one is lost (`BTreePull.LateReadLoses`, `BTreeStray.LateReadCuts`).
  Whatever key a merge pulls down, `BTreePull.PullLosesExactly` says exactly when it loses nothing.
* A leaf that a remove has emptied stays where it is when its repair gives up
  (`common/btree_olc/BTreeOLC.h:3023-3066`, `3614-3618`). If it is then the last leaf below the left one of two leaves'
  parents that are merged, the search for the largest key reads in front of its first entry (`756-760`; the assertion
  there is compiled out, `CMakeLists.txt:11`), and whatever lies there is pulled down. It is a key that can be pulled
  down if and only if that leaf has an entry or the key happens to belong there (`BTreeLinear.LowMergeSound`), and no
  search goes wrong if and only if the key lies below all those under the right node (`BTreeStray.HollowLosesExactly`,
  `BTreeStray.HollowCuts`). With the smallest pages one thread gets there from the empty tree with six inserts and two
  removes (`BTreeReach.HollowReached`).
* The repair of a parent after a merge reads the parent's lock word again and ignores that it may be locked
  (`common/btree_olc/BTreeOLC.h:3149-3154`). An upgrade gives exclusive access if and only if the word it starts from was
  unlocked (`BTreeLinear.UpgradeExclusive`), and only this repair can start from another one
  (`BTreeLinear.BlindIsRepair`). When another thread holds the parent at that moment and the nodes around it are free, the
  repair goes through and both hold it (`BTreeShared.RepairSharesLock`); a schedule from the empty tree leads there
  (`BTreeReach.ClashReached`).
* Whether a page needs repair is decided before it is unlocked, and not again when its word is read anew
  (`common/btree_olc/BTreeOLC.h:3604-3613`, `3149-3154`). If other threads fill the page in between, the repair borrows an
  entry into a full page, which has no slot for it. A step keeps all pages within capacity if and only if it is not
  such a borrow (`BTreeRuns.RoomExactly`); every repair of a page that has filled up can come to it
  (`BTreeShared.RepairOverfills`), and so does a schedule from the empty tree (`BTreeReach.OverfullReached`).
* Two of these happen in one four-level tree with pages of the sizes for which one thread is safe
  (`BTreeTall.RaceLosesInsert`, `BTreeTall.RaceLosesKey`). Every run is free of all of them if each upgrade starts from an
  unlocked word, each merge above the leaves' parents pulls down the separator, each merge of leaves' parents finds its
  last leaf with an entry or pulls down a key that belongs there, and each borrow goes into a page with room
  (`BTreeLinear.SafeRun`). For one thread with inner pages of nine or more the merge is correct.
* A scan goes from leaf to leaf and ends at an empty one (`common/btree_olc/BTreeOLC.h:2791-2797`): unless its callback
  stops it, it sees all keys if and only if no empty leaf on its way has keys behind it
  (`BTreeMap.BPlusTree.ScanForUpdate`, `BTreeMap.GapTree`). An insert that must look up the next key in an empty leaf
  asks about the stale first slot of that page (`BTreeMap.BPlusTree.InsertLockNextKey`).
* With inner pages of capacity eight a page that should merge may find no sibling with room
  (`BTreeSize.EightIsTooSmall`); from nine on it always does (`BTreeSize.MergeFits`).
* The grace period of the epoch scheme covers every thread that was not ahead of the retirer. A thread one epoch ahead is
  not covered: the object can be freed while that thread has not moved (`EbrAhead.AheadIsNotCovered`).
* The message length field has 26 bits, while lengths below 2^27 are admitted: exactly those below 2^26 survive
  (`MessageHeader.LengthRoundTrip`). Setting the replica flag masks the wrong field: the source survives exactly if it was
  node 0, and the flag cannot be taken back (`MessageHeader.ReplicaForgetsSource`).
* A log buffer is not handed over when the epoch moves while it has records but no content. Buffers hold one epoch each if
  and only if no write meets this case (`EpochLog.OneEpochExactly`); it takes an empty record, which the logger accepts
  (`EpochLog.EmptyRecordMixesEpochs`) but no caller writes: all of them print numbers into the record
  (`protocol/TwoPLPasha/TwoPLPasha.h:373-377`, `711-713`, `protocol/SundialPasha/SundialPasha.h:171-173`, `335-337`).
* The database's own consistency check rejects a warehouse exactly when one of its districts has no undelivered order
  (`TpccCheck.ReachablePasses`), which deliveries alone bring about from any state (`TpccCheck.DeliveriesEmpty`).
* The upper bound of the table of orders by customer wraps around and lies above all real keys only up to warehouse 65051
  (`TpccKeys.CustomerSentinel`).
* A new order that named the same stock row twice would lose part of S_YTD (`TpccStock.YtdExact`); the query generator
  never does.
* Replicated C_DATA stays equal exactly as long as it holds no NUL byte (`Replication.ShiftNothing`).
* The order-key multiplier equals the largest order id, so a district's upper scan bound is the next district's first key
  (`TpccKeys.BoundsMeet`); the scans are still exact because order ids start at 1.

## Model

| member | source | states |
|---|---|---|
| BTreeHeap.SplitOk | common/btree_olc/BTreeOLC.h:849-878 | splitting a leaf or an inner node under its parent keeps the whole tree well formed: at each level the nodes have disjoint ranges, a child has the range its parent's keys give it, leaves hold exactly the map's entries of their range and are chained in order |
| BTreeHeap.BorrowOk | common/btree_olc/BTreeOLC.h:1526-1646 | moving one entry between adjacent siblings and replacing the separator keeps the tree well formed, for leaves and inner nodes and in both directions |
| BTreeHeap.MergeOk | common/btree_olc/BTreeOLC.h:663-678 | joining two siblings around their separator keeps the tree well formed and unlinks the right one from the chain |
| BTreeHeap.RepivotOk | common/btree_olc/BTreeOLC.h:3104-3121 | replacing a separator by any key that can be pulled down keeps the tree well formed, with every range that met at it moved along |
| BTreeHeap.MaxIsPullable | common/btree_olc/BTreeOLC.h:3274-3327 | the largest key below the left child can be pulled down: it is at most the separator, lies above the lower bound of every node on the right edge below that child, and no key of the map lies between it and the separator |
| BTreeHeap.PullableExactly | common/btree_olc/BTreeOLC.h:3104-3121 | a key can be pulled down if and only if it belongs to the last leaf below the left child and no entry of that leaf lies above it |
| BTreeHeap.GrowRootOk | common/btree_olc/BTreeOLC.h:1426-1436 | a root put above the old one keeps the tree well formed |
| BTreeHeap.ShrinkRootOk | common/btree_olc/BTreeOLC.h:3079-3086 | a root left without keys can hand over to its only child |
| BTreeHeap.PutEntryOk | common/btree_olc/BTreeOLC.h:817-844 | putting an absent key into the leaf that covers it adds exactly that binding and keeps the tree well formed |
| BTreeHeap.EraseEntryOk | common/btree_olc/BTreeOLC.h:604-628 | erasing an entry removes exactly that binding and keeps the tree well formed |
| BTreeSections.ApplyOk | common/btree_olc/BTreeOLC.h:3060-3135 | every restructuring section (split, root split, borrow, merge with or without root shrink) keeps the tree well formed and the map unchanged, unless it joins inner nodes around a key that cannot be pulled down; `BTreePull.PullLosesExactly` says what that one does |
| BTreeSections.ApplyFrame | common/btree_olc/BTreeOLC.h:3060-3135 | a section changes no page but those of its locked nodes, every other node stays linked with its range, except that a merge of inner nodes moves the bounds below it from the separator to the key it pulls down |
| BTreeBodies.BodyReady | common/btree_olc/BTreeOLC.h:1666-1824 | a thread that has passed its checks and upgrades finds the pages as its section needs them, whatever has happened since it read them |
| BTreeBodies.BodyOwned | common/btree_olc/BTreeOLC.h:2914-3157 | a section writes only nodes whose lock words the thread has upgraded |
| BTreeBodies.InsertAtomic | common/btree_olc/BTreeOLC.h:1755-1824 | an insert's locked section, with or without a leaf split, adds the binding exactly when the key is absent and reports exactly that, if the leaf it writes still covers its key; `BTreeStray.WriterStraysExactly` says when it does not |
| BTreeBodies.RemoveAtomic | common/btree_olc/BTreeOLC.h:3540-3603 | a remove's locked section erases exactly its key and reports whether it was there; one that a merge has overtaken since its call began may instead miss its key and report failure |
| BTreeRuns.StepInv | common/btree_olc/BTreeOLC.h:186-336 | every step of any thread that is not a fault (an upgrade from a locked word, an insert into a leaf that no longer covers its key, a merge around a key that cannot be pulled down, a borrow into a full page) keeps: the tree is well formed with every page within its capacity, each odd word has exactly one holder and each holder an odd word, and what a thread has read is explained by the words it recorded |
| BTreeRuns.RoomExactly | common/btree_olc/BTreeOLC.h:2973-3022 | in every state that meets the invariant a step keeps every page within its capacity if and only if it is not a borrow into a full page |
| BTreeRoom.BodyFits | common/btree_olc/BTreeOLC.h:2973-3022 | the same of the section of a thread that holds its locks: what the thread read of the sizes before it locked still holds, except of the page that takes a borrowed entry |
| BTreeLinear.CapacityKept | common/btree_olc/BTreeOLC.h:1689-1726 | in every run without a fault no page ever exceeds its capacity |
| BTreeLinear.UpgradeExclusive | common/btree_olc/BTreeOLC.h:272-292 | the compare-and-swap of an upgrade that succeeds gives exclusive access if and only if the recorded word was unlocked |
| BTreeLinear.BlindIsRepair | common/btree_olc/BTreeOLC.h:3149-3154 | the only upgrade that can start from a locked word is that of an inner node that is repaired after a merge below it |
| BTreeLinear.SameWordSamePage | common/btree_olc/BTreeOLC.h:317-336 | in every run without a fault words never fall, and a node whose unlocked word is the same at two moments has the same page at both |
| BTreeLinear.LookupLinearizable | common/btree_olc/BTreeOLC.h:4102-4163 | in every run without a fault, a lookup that passes its version checks returns what the map held for its key at some moment between call and return, whatever writers do in between |
| BTreeLinear.CallLinearizable | common/btree_olc/BTreeOLC.h:3486-3624 | in every run without a fault, an insert or remove that has returned took effect in one step between call and return, as it reports, or is a remove that reports a failure which was true at some moment of the call |
| BTreeLinear.LowMergeSound | common/btree_olc/BTreeOLC.h:3104-3121 | a merge of the leaves' parents, or further down, takes a key that can be pulled down, as `BTreeHeap.PullableExactly` has it, if and only if it does not find the last leaf below the left node empty, or the key pulled down then belongs there by chance: a leaf with entries cannot change between the search and the copy |
| BTreeLinear.SafeRun | common/btree_olc/BTreeOLC.h:1666-1824 | every run in which each upgrade starts from an unlocked word, each merge above the leaves' parents pulls down the separator, each merge of leaves' parents with an empty last leaf pulls down a key that belongs there, and each borrow goes into a page with room, has no fault: the tree is well formed and within its capacities throughout, and every insert and remove changes the map in its section exactly as it reports |
| BTreePull.FindIsLookup | common/btree_olc/BTreeOLC.h:4102-4163 | the sequential search of a well-formed tree agrees with the map |
| BTreePull.PullLosesExactly | common/btree_olc/BTreeOLC.h:994-1019 | whatever key inner nodes were joined around, every search is right if and only if no stored key below the last child of the left node lies above that key and none below the right node does not |
| BTreePull.MisledBetween | common/btree_olc/BTreeOLC.h:994-1019 | if the key keeps the joined page in order, these are the stored keys above it and not above the old separator |
| BTreePull.LateReadLoses | common/btree_olc/BTreeOLC.h:756-760 | an insert into the last leaf below the left node, between the search for the largest key and the copying of its slot, makes the merge lose the largest key there, whatever the inserted key is |
| BTreeStray.MergeStraysExactly | common/btree_olc/BTreeOLC.h:3108-3121 | whatever point of its call a thread has reached, and for every node it has read below a merge of inner nodes: the node's word and page are untouched, and the node stops covering the thread's key if and only if the key lies above the key pulled down and not above the separator |
| BTreeStray.WriterStraysExactly | common/btree_olc/BTreeOLC.h:3108-3121 | an insert or remove that is about to write its leaf is overtaken by a merge if and only if the merge is above the leaves' parents and the key lies in that gap |
| BTreeStray.OvertakenInsertIsLost | common/btree_olc/BTreeOLC.h:3108-3121 | such an insert passes every check, reports success, and a search from the root does not find its key |
| BTreeStray.LateReadCuts | common/btree_olc/BTreeOLC.h:3274-3327 | from every state in which a merge above the leaves' parents has searched its largest key and an insert has locked the leaf it was found in, the insert and then the merge can go on, and a stored key is lost |
| BTreeStray.HollowLosesExactly | common/btree_olc/BTreeOLC.h:756-760 | after a merge of leaves' parents with an empty last leaf, every search is right if and only if what was pulled down lies below all keys stored under the right node |
| BTreeStray.HollowCuts | common/btree_olc/BTreeOLC.h:3274-3327 | from every state in which such a merge has searched the empty leaf, and for every key stored under the right node: if that key lies in front of the leaf's entries, the merge goes through and loses it |
| BTreeShared.RepairSharesLock | common/btree_olc/BTreeOLC.h:3149-3154 | from every state in which a repair is about to read its parent's word again while another thread holds the parent, with the grandparent unchanged and a sibling free and fit for it, steps of the repairing thread alone lead to both holding the parent |
| BTreeShared.RepairOverfills | common/btree_olc/BTreeOLC.h:3604-3613 | from every state in which a repair is about to read the word of a page that has filled up since, with the parent unchanged and a sibling that can spare an entry, steps of the repairing thread alone lead to a borrow into the full page |
| BTreeTall.RaceLosesInsert | common/btree_olc/BTreeOLC.h:3108-3121 | a concrete four-level tree with pages of 3 and 9, merge and insert that meet the invariant: the merge is no fault, the insert then reports success, and its key is not found |
| BTreeTall.RaceLosesKey | common/btree_olc/BTreeOLC.h:3274-3327 | in the same state the insert first and then the merge: the merge loses a stored key |
| BTreeTall.RaceExists | common/btree_olc/BTreeOLC.h:3108-3121 | that state exists |
| BTreeReach.ClashReached | common/btree_olc/BTreeOLC.h:3149-3154 | a schedule from the empty tree, of six inserts, a remove and part of another insert, after which two threads hold the same node |
| BTreeReach.OverfullReached | common/btree_olc/BTreeOLC.h:3604-3613 | a schedule from the empty tree, of seven inserts and a remove, after which a page holds more than it has room for |
| BTreeReach.HollowReached | common/btree_olc/BTreeOLC.h:3274-3327 | a schedule of one thread from the empty tree, of six inserts and two removes, after which a stored key is not found |
| BTreeSize.MergeFits | common/btree_olc/BTreeOLC.h:1493-1518 | with leaves of 3 and inner pages of 9 or more, a page below the merge threshold always fits into a sibling that has nothing to lend |
| BTreeSize.EightIsTooSmall | common/btree_olc/BTreeOLC.h:1493-1518 | with inner pages of 8 it may not |
| BTreeSize.SplitSizes | common/btree_olc/BTreeOLC.h:1101-1124 | splitting a full page below one with room keeps every page within capacity and, from inner capacity 5 on, none empty if none was |
| BTreeSize.BorrowSizes | common/btree_olc/BTreeOLC.h:2973-2992 | borrowing from a sibling with surplus keeps every page within capacity and leaves no page empty |
| BTreeSize.MergeSizes | common/btree_olc/BTreeOLC.h:2994-3022 | merging where there is room keeps every page within capacity and leaves no page empty but possibly the parent, which is replaced if it is the root |
| BTreeSize.SplitProgress | common/btree_olc/BTreeOLC.h:1689-1726 | splitting the topmost full page on a search path leaves fewer full levels, or as many with the topmost higher up: the restart loop ends |
| BTreeSize.RootProgress | common/btree_olc/BTreeOLC.h:1706-1725 | splitting a full root leaves fewer full levels on every path |
| BTreeMap.BPlusTree.Lookup | common/btree_olc/BTreeOLC.h:4102-4163 | returns the map's value for the key, or none |
| BTreeMap.BPlusTree.Insert | common/btree_olc/BTreeOLC.h:1666-1824 | true and the binding added exactly when the key is absent, all other bindings unchanged; tree invariant and capacities kept, and from inner capacity 5 on also non-empty pages; the split-and-restart loop terminates |
| BTreeMap.BPlusTree.InsertLockNextKey | common/btree_olc/BTreeOLC.h:1830-2017 | hands the callback the least key above the new one, even from the next leaf, and inserts exactly when the key is absent and the callback agrees; otherwise the map is unchanged and the result says why. The callback gets the stale first slot instead if and only if the key is absent, its leaf has no key above it and the next leaf is empty |
| BTreeMap.BPlusTree.ScanForUpdate | common/btree_olc/BTreeOLC.h:2713-2806 | visits keys from the start key upward, ascending and without skipping any, until asked to stop, although it descends anew for every leaf; a scan that is not stopped has visited all of them if and only if no empty leaf behind that of the start key has keys behind it; an item is announced as last only if it is, and exactly then without empty leaves; the loop terminates and the tree is unchanged |
| BTreeMap.GapTree | common/btree_olc/BTreeOLC.h:2791-2797 | a tree in which an empty leaf has a key behind it |
| BTreeMap.NoGapWhenLean | common/btree_olc/BTreeOLC.h:2791-2797 | without empty pages there is no such leaf, so a scan that is not stopped is complete |
| BTreeMap.BPlusTree.SubTreeMaxKey | common/btree_olc/BTreeOLC.h:3274-3327 | returns the largest key stored below an inner node, or what lies in front of the entries of its last leaf if that one is empty |
| BTreeMap.BPlusTree.EraseMerge | common/btree_olc/BTreeOLC.h:2914-3157 | repairs an under-full page by borrowing or merging, recursively up the path, including the root shrink: map unchanged, invariant, capacities and non-empty pages restored |
| BTreeMap.BPlusTree.Remove | common/btree_olc/BTreeOLC.h:3486-3624 | removes exactly the key and reports whether it was there; tree invariant, equal depth, capacities and non-empty pages kept |
| BTreeMap.LeafNext | common/btree_olc/BTreeOLC.h:1972-1994 | unless the leaf of an absent key has nothing above it and the next leaf is empty, the least key above it is the entry at its lower bound or the first entry of the next leaf, and without either there is none |
| Pages.Search | common/btree_olc/BTreeOLC.h:727-748 | the linear and the binary search of a sorted page both return the first position not below the key |
| Pages.LeafPage.Insert | common/btree_olc/BTreeOLC.h:817-844 | the in-place shift inserts at the lower bound, or reports an existing key and changes nothing |
| Pages.LeafPage.Erase | common/btree_olc/BTreeOLC.h:604-628 | the in-place shift removes exactly one entry |
| Pages.LeafPage.Split | common/btree_olc/BTreeOLC.h:849-878 | the two pages become the halves of the old one, linked in order, and the separator is the largest key that stays |
| Pages.LeafPage.Merge | common/btree_olc/BTreeOLC.h:663-678 | the page becomes the concatenation with its right sibling and takes over its link |
| Pages.LeafPage.BorrowFirst | common/btree_olc/BTreeOLC.h:1531-1554 | the left leaf takes the right one's first entry and that key separates them |
| Pages.LeafPage.BorrowLast | common/btree_olc/BTreeOLC.h:1554-1582 | the right leaf takes the left one's last entry and the left one's new last key separates them |
| Pages.InnerPage.Insert | common/btree_olc/BTreeOLC.h:1132-1151 | key at its lower bound and child behind it, through the move-and-swap of the child array |
| Pages.InnerPage.Erase | common/btree_olc/BTreeOLC.h:947-966 | removes one key and the child behind it; reports when no key is left |
| Pages.InnerPage.Split | common/btree_olc/BTreeOLC.h:1101-1124 | the pages become the halves around the separator that moves up |
| Pages.InnerPage.Merge | common/btree_olc/BTreeOLC.h:994-1019 | the page becomes its keys, the pulled-down key and the sibling's keys, with both lists of children |
| Pages.InnerPage.BorrowFirst | common/btree_olc/BTreeOLC.h:1585-1610 | separator down to the left page, the right page's first key up, its first child over |
| Pages.InnerPage.BorrowLast | common/btree_olc/BTreeOLC.h:1610-1636 | separator down to the right page, the left page's last key up, its last child over |
| Ebr.StepInv | common/CXL_EBR.h:102-172 | every shared access of every thread keeps the epoch, list and free-record invariants |
| Ebr.EpochsTight | common/CXL_EBR.h:102-172 | in every reachable state each local epoch is the global one or one behind, no check has failed, and between calls the last reclaimed epoch is exactly two behind the local one |
| Ebr.EpochsGrow | common/CXL_EBR.h:115-149 | the global epoch grows one at a time, local epochs never fall |
| Ebr.FreedOnce | common/CXL_EBR.h:151-171 | an object is freed at most once and only by its owner |
| Ebr.GracePeriod | common/CXL_EBR.h:151-171 | when an object of epoch e is freed every thread is at e + 1 or later, and past the epoch it had at retirement if it was not ahead of the retirer then |
| Ebr.GraceInRun | common/CXL_EBR.h:87-172 | between the step that retires an object and the step that frees it, every thread that was not ahead of the retirer has stored a later epoch; all threads have, if the retirer was at the global epoch |
| Ebr.Conserved | common/CXL_EBR.h:87-100 | outside the free loop an object is either freed or waits exactly once in its owner's list of its epoch modulo 3 |
| EbrAhead.AheadIsNotCovered | common/CXL_EBR.h:102-172 | a reachable schedule in which an object is retired and freed without any step of a thread that was one epoch ahead |
| Barrier.StepInv | core/group_commit/Manager.h:23-76 | every step of managers, workers and messages keeps the round invariant, for any number of coordinators and workers |
| BarrierRuns.CleanupAfterAllStopped | core/group_commit/Manager.h:61-74 | when any coordinator is in the cleanup of round r, the workers of every coordinator have stopped in round r |
| BarrierRuns.StartAfterAllCleaned | core/group_commit/Manager.h:28-45 | when coordinator 0 begins a round, every coordinator has finished the cleanup of the last one and no message is on its way |
| BarrierRuns.OwnRoundOnly | core/Manager.h:151-223 | a STOP, ACK or signal that is taken belongs to the taker's round, and no sender is counted twice |
| BarrierRuns.NoDeadlock | core/Manager.h:85-223 | in every reachable state in which some coordinator has not exited, something can move |
| Ring.StepInv | common/MPSCRingBuffer.h:66-153 | every access of every producer and the consumer keeps the slot, ticket and count invariants |
| Ring.SlotExclusive | common/MPSCRingBuffer.h:66-99 | no two producers fill the same slot, and a slot being filled holds no payload still to be dequeued |
| Ring.InTicketOrder | common/MPSCRingBuffer.h:101-153 | what has been received are the payloads of the first tickets, in ticket order, each once |
| Ring.NothingLost | common/MPSCRingBuffer.h:81-99 | until it is received, a ticket's payload is complete in its ready slot or its producer is still filling the slot |
| Ring.Admission | common/MPSCRingBuffer.h:73-83 | admitted producers and unreleased tickets never exceed the slots, although rejected producers inflate the count |
| Ring.CheckFailsExactly | common/MPSCRingBuffer.h:121-130 | the consumer's check fails exactly when its buffer is smaller than the payload at the head; otherwise it receives that payload |
| Cow.DumpIsSnapshot | core/Table.h:1128-1154 | whatever updates run between its visits, a finished dump, replayed with later entries winning, is the table at turn_on_cow |
| Cow.CowTable.TurnOnCow | core/Table.h:1128-1135 | takes the step that begins a snapshot, in place |
| Cow.CowTable.UpdateRow | core/Table.h:1049-1062 | takes the update step of the runs that `Cow.DumpIsSnapshot` speaks of, in place |
| Cow.CowTable.VisitMain | core/Table.h:1142-1146 | takes the step that visits one row of the table, and hands out exactly what it adds to the dump |
| Cow.CowTable.VisitShadow | core/Table.h:1142-1147 | takes the step that visits one row of the shadow copy, and hands out exactly what it adds to the dump |
| Cow.CowTable.FinishDump | core/Table.h:1137-1154 | takes the step that ends the walk over the shadow copy, and the dump then replays to the snapshot |
| Cow.CowTable.TurnOffCow | core/Table.h:1161-1169 | takes the step that drops the shadow copy |
| HashWalk.Iterate | common/HashMap.h:96-123 | the bucket-major walk over shards of different bucket counts hands out every entry exactly as often as it is stored |
| FileWriter.BufferedDirectFileWriter.Write | common/WALLogger.h:98-124 | refines the append function, through the in-place buffer and the flush of a full one; false exactly where the check fails |
| FileWriter.BufferedDirectFileWriter.Sync | common/WALLogger.h:138-175 | everything written is on the device, block by block, and readable back without the padding |
| FileWriter.PutAppends | common/WALLogger.h:98-124 | appending loses and reorders nothing, only adds to the device, and fails exactly from two buffers on |
| FileWriter.RoundUpLeast | common/WALLogger.h:126-136 | rounding gives the least multiple of the block size, so the check on the I/O size holds |
| GroupCommit.DurablePrefix | common/WALLogger.h:281-330 | sync_lsn is at most the bytes on the device, those are at most write_lsn, and they are a prefix of the concatenated writes |
| GroupCommit.ReturnedIsDurable | common/WALLogger.h:322-330 | a persisting write that has returned has its whole range on the device, with its bytes |
| EpochLog.PashaGroupCommitLoggerSlave.WriteRecord | common/WALLogger.h:393-417 | refines the cut-and-append function and keeps buffers within capacity and of one epoch |
| EpochLog.NothingLost | common/WALLogger.h:393-417 | per worker, bytes on disk, queued and current are exactly the bytes it logged, in order |
| EpochLog.EpochsInOrder | common/WALLogger.h:399-407 | in every run every buffer is within capacity and, among records with content, of one epoch; a worker's records never go back in epoch, from disk through the queue to the current buffer |
| EpochLog.WriteMixesExactly | common/WALLogger.h:393-417 | after a write all buffers of the worker hold one epoch each if and only if they did before and the write is not one under a new epoch on a buffer with records but without content |
| EpochLog.OneEpochExactly | common/WALLogger.h:393-417 | after any number of steps every buffer, current, queued or on disk, holds one epoch only, if and only if no step was such a write |
| EpochLog.ContentKeepsEpochs | protocol/TwoPLPasha/TwoPLPasha.h:373-377 | in particular, in every run without empty records every buffer holds one epoch only |
| EpochLog.DiskIsPages | common/WALLogger.h:482-535 | the device holds the drained buffers back to back and the committed count is the number of persist-marked records among them |
| EpochLog.DrainFits | common/WALLogger.h:501-506 | a whole buffer always fits the file writer's check |
| EpochLog.EmptyRecordMixesEpochs | common/WALLogger.h:399-407 | a witness: an empty record followed by a write in a later epoch share a buffer |
| MessageHeader.UnpackPack | common/Message.h:430-447 | the six header fields come back from the packed word |
| MessageHeader.LengthRoundTrip | common/Message.h:393-398 | clearing the mask and or-ing the shifted length into the word: of the admitted lengths exactly those below 2^26 come back, and exactly those leave the other fields alone |
| MessageHeader.CountRoundTrip | common/Message.h:386-391 | the same for the count, which always comes back and leaves the other fields alone |
| MessageHeader.ReplicaForgetsSource | common/Message.h:213-217 | after clearing the mask and or-ing the flag into the word the source reads back if and only if it was node 0, the flag if and only if it was being set or had not been set; the other four fields stay |
| MessageHeader.PieceRoundTrip | common/MessagePiece.h:98-127 | the five fields of a piece header come back from the packed word |
| Framing.BufferedReader.NextMessage | common/BufferedReader.h:73-99 | refines the parse function over the bytes pending in the in-place buffer, across compaction and partial reads |
| Framing.ParseFront | common/BufferedReader.h:147-163 | a buffer that is a prefix of a stream yields the first message exactly once it is complete |
| Framing.RoundTrip | common/BufferedReader.h:73-163 | however the bytes are chunked, messages come out unchanged, in order and once, and all of them when the bytes are used up |
| Framing.NeverStuck | common/BufferedReader.h:107-145 | a receiver whose buffer holds each single message can always hand out a message or read on |
| Dispatch.AddPiece | common/Message.h:181-186 | adding and flushing a piece keeps the earlier pieces, counts it and stores the right length |
| Dispatch.IteratePieces | common/Message.h:45-102 | iterating a message hands out exactly the pieces that were added, in order |
| Dispatch.PieceEncodes | common/MessagePiece.h:98-127 | a piece within the header's limits carries its own length and comes back from its bytes |
| Dispatch.BuildAndIterate | common/Message.h:45-186 | iterating a message that was built from pieces, and decoding what comes out, gives the pieces back, in order |
| Dispatch.GroupByDest | core/Dispatcher.h:310-331 | each destination's group holds its messages in queue order, the sender's own go to its own queue |
| Dispatch.DispatchGroup | core/Dispatcher.h:286-366 | the bytes written are the messages of the group back to back, each stamped with the send time, also for a group of one, and each still frames itself |
| Dispatch.BatchesDelivered | core/Dispatcher.h:333-366 | whatever the batching and chunking, the receiver hands out the batches' messages in order, each once, changed only in the send time |
| TpccKeys.CustomerKeyFits | benchmark/tpcc/Schema.h:126-130 | the 32-bit customer key overflows exactly above 65052 warehouses |
| TpccKeys.StockKeyFits | benchmark/tpcc/Schema.h:262-266 | the 32-bit stock key overflows exactly above 21473 warehouses |
| TpccKeys.CustomerKeyOrder | benchmark/tpcc/Schema.h:126-130 | customer keys are injective and follow (warehouse, district, customer) |
| TpccKeys.StockKeyOrder | benchmark/tpcc/Schema.h:262-266 | stock keys are injective and follow (warehouse, item) |
| TpccKeys.OrderKeyOrder | benchmark/tpcc/Schema.h:207-221 | order and new-order keys are injective and follow (warehouse, district, order) |
| TpccKeys.OrderCustKeyOrder | benchmark/tpcc/Schema.h:227-231 | order-by-customer keys are injective and follow (warehouse, district, customer, order) |
| TpccKeys.LineKeyOrder | benchmark/tpcc/Schema.h:238-242 | order-line keys are injective and follow (warehouse, district, order, line) |
| TpccKeys.BoundsMeet | benchmark/tpcc/Schema.h:29-29 | the largest order id of a district and order 0 of the next have the same key |
| TpccKeys.DistrictScan | benchmark/tpcc/Transaction.h:828-832 | the scan from order 0 to the largest id still selects exactly the rows of the district, as order ids start at 1 |
| TpccKeys.CustomerOrdersScan | benchmark/tpcc/Transaction.h:695-699 | the scan of a customer's orders selects exactly those of the customer |
| TpccKeys.OrderLinesScan | benchmark/tpcc/Transaction.h:715-719 | the scan from line 1 to 15 selects exactly the lines of the order |
| TpccKeys.SentinelIsLast | benchmark/tpcc/Database.h:1385-1392 | the row that bounds the order or new-order table from above packs, with wrap-around, to a key above every real one |
| TpccKeys.LineSentinelIsLast | benchmark/tpcc/Database.h:1563-1570 | so does the one that bounds the order-line table |
| TpccKeys.CustomerSentinel | benchmark/tpcc/Database.h:1478-1485 | the one that bounds the orders by customer lies above a real key if and only if the key's 32-bit part is at most 2147447635: for all keys up to warehouse 65051, and not for all of warehouse 65052 |
| Tpcc.NewOrderGood | benchmark/tpcc/Transaction.h:106-347 | a new order keeps the money, order, order-line, new-order and stock invariants |
| Tpcc.PaymentGood | benchmark/tpcc/Transaction.h:425-579 | a payment keeps them, in particular W_YTD against the sum of D_YTD |
| Tpcc.ScanFindsOldest | benchmark/tpcc/Transaction.h:823-849 | the scan by packed key finds the oldest undelivered order of the district, if and only if there is one |
| Tpcc.DeliveryGood | benchmark/tpcc/Transaction.h:806-907 | a delivery keeps the invariants |
| TpccConsistency.Conditions | benchmark/tpcc/Database.h:507-737 | after any run from the initial load: W_YTD is the sum of D_YTD, the largest order id is D_NEXT_O_ID - 1, undelivered orders are exactly the interval up to it, and order lines are as many as O_OL_CNT add up to |
| TpccConsistency.NewOrderConditions | benchmark/tpcc/Database.h:728-733 | while a district has undelivered orders, the largest is D_NEXT_O_ID - 1 and their number is max - min + 1 |
| TpccCheck.CheckConsistency | benchmark/tpcc/Database.h:671-733 | the tallying loops accept exactly the row lists that satisfy the per-district conditions |
| TpccCheck.ReachablePasses | benchmark/tpcc/Database.h:671-733 | in every reachable state the check accepts the scanned rows of a warehouse if and only if every district of it has an undelivered order |
| TpccCheck.DeliveriesEmpty | benchmark/tpcc/Transaction.h:806-907 | from every state that meets the invariants, deliveries alone lead to one in which a given district has no undelivered order |
| TpccStock.StockInRange | benchmark/tpcc/Transaction.h:232-258 | over every run S_QUANTITY stays in [10, 100]; if no order names a row twice, each S_YTD is the quantity ordered of the row |
| TpccStock.YtdConserved | benchmark/tpcc/Transaction.h:232-258 | over every run in which no order names a row twice, the S_YTD of all rows add up to the quantities of exactly the order lines that new orders inserted |
| TpccStock.YtdExact | benchmark/tpcc/Transaction.h:146-258 | an order adds to every stock row what was ordered of it if and only if it names no row twice |
| TpccStock.MakeItems | benchmark/tpcc/Query.h:128-180 | the generator's items are distinct, in range, with the unused number only at the end and only the first from another warehouse |
| TpccDatabase.Database.NewOrder | benchmark/tpcc/Transaction.h:106-347 | takes the new-order step of the runs that `TpccConsistency.Conditions` speaks of; rolls back without a change on an unused item |
| TpccDatabase.Database.Payment | benchmark/tpcc/Transaction.h:479-501 | takes the payment step of those runs |
| TpccDatabase.Database.Delivery | benchmark/tpcc/Transaction.h:823-885 | takes the delivery step of those runs; false, without a change, exactly where the check on a district without undelivered orders fails |
| Replication.ApplyIsPrimary | benchmark/tpcc/Database.h:739-825 | decoding an encoded operation does to the replica what the transaction did to the primary, for stock lists of any length and the shifted C_DATA |
| Replication.ReplicaFollows | benchmark/tpcc/Transaction.h:201-264 | from equal tables, any sequence of new orders and payments leaves replica and primary equal on all shipped fields |
| Replication.ShiftedIs | benchmark/tpcc/Transaction.h:511-538 | the new C_DATA is the text followed by the old content, cut to 500 bytes, and free of NUL again |
| Replication.ShiftNothing | benchmark/tpcc/Database.h:812-820 | re-assigning C_DATA without new text leaves it alone if and only if it holds no NUL |
| Replication.Replica.ApplyOperation | benchmark/tpcc/Database.h:739-825 | refines the decoding function, reading stock entries until the operation is used up |

## Left out

- BTreeLinear.LookupLinearizable: holds for runs without a fault; after one the tree no longer holds the map. `BTreeLinear.UpgradeExclusive`, `BTreeStray.WriterStraysExactly`, `BTreePull.PullLosesExactly` and `BTreeRuns.RoomExactly` say exactly when each fault happens.
- BTreeBodies.RemoveAtomic: a remove that a merge has overtaken may report failure for a key that was absent at some moment of the call but is present when it returns.
- BTreeLinear.SafeRun: a merge of high inner nodes that pulls down a smaller key than the separator is harmless when no thread stands in the gap and the slot has not changed, and one that pulls a key too small out of an empty last leaf loses nothing (`BTreeStray.HollowLosesExactly`); the condition for whole runs leaves these merges out.
- BTreeOlc lets the search for the largest key above the leaves' parents end in any slot of any leaf, which covers every search that runs while the leaves change. What lies in front of the entries of an empty leaf may be any key.
- BTreeOlc lets a thread take any sibling that has an entry to spare or room for a merge, repair a page of any size, and give up at any time; `BTreeMap.BPlusTree.EraseMerge` has the source's order of preference. The reader counts that iterators keep in lock words and the leaves' links to their predecessors are not modelled.
- BTreeTall.RaceExists: the state meets the invariant and is given outright; that some sequence of calls leads to it is not shown. The states of `BTreeReach` are reached from the empty tree, with the smallest pages that the source's static assertions allow.
- BTreePull.PullLosesExactly: the pages are searched linearly; on a page of 128 keys or more that a merge has left out of order the source's binary search may go elsewhere.
- BTreeMap.BPlusTree.Remove: asks for leaf capacity 3, inner capacity 9 and no empty page besides a root leaf; below these limits the source can leave empty pages and then lose keys (`BTreeReach.HollowReached`). The debug assertion that the key was present is not modelled.
- BTreeMap.BPlusTree.InsertLockNextKey: the aborting check on a missing next leaf is the result NoNextKey.
- BTreeMap.BPlusTree.EraseMerge: asks for the same capacities, and that no page but the one it repairs is empty. It runs for one thread, so the exits for locks and versions taken by others are not part of it.
- Memory order weaker than sequential consistency is not modelled anywhere.
- Retired tree nodes keep their content and are never reused: the reclamation inside the tree header is not modelled. Keys and values are integers.
- The tree's other entry points (adjacent-key processing, multi-value scans, iterators) repeat the modelled descents.
- Ebr.EpochsTight: every slot of the host-by-thread grid that the scan walks belongs to a thread from the start; registration is not modelled.
- Ring.InTicketOrder: `head`, `tail` and `count` do not wrap around at 2^64.
- Cow.DumpIsSnapshot: inserts during a dump are not modelled, an update and a visit are single steps, and the walk over the shadow copy is taken to visit every entry present when it starts; `HashWalk.Iterate` proves that for a map whose buckets do not change.
- FileWriter.BufferedDirectFileWriter.Sync: device errors and short writes are not modelled.
- GroupCommit.DurablePrefix: the timer that wakes the sync thread is a free choice; a write on which the file writer's check fails ends the run.
- EpochLog.NothingLost: records are at most one buffer long, as the source's copy requires; a full queue blocks the writer.
- Framing.RoundTrip: every read is of a stream, as from a socket; the ring buffer hands over whole entries instead and aborts on one that does not fit (`Ring.CheckFailsExactly`).
- Tpcc.NewOrderGood: transactions run one at a time, money is exact instead of single-precision, and order numbers stay below 2^31 - 1. Customer balances, names, taxes, delivery dates and history rows are not modelled.
- Tpcc.DeliveryGood: the customer's balance update is not modelled.
- Replication.ApplyIsPrimary: floats and signed numbers are their bit patterns; version words of the replica's rows are not modelled.
- TpccKeys.SentinelIsLast: takes the signed overflow of the bounding row to wrap around, as do `TpccKeys.LineSentinelIsLast` and `TpccKeys.CustomerSentinel`.
- Concurrency control (two-phase locking, Sundial, Pasha), data migration between local and shared memory, cache coherence and recovery are not modelled.
