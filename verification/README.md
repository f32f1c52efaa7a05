# Tern: a verified model of the kernel's hard core

Tern is a small microkernel in the style of seL4. This project models the parts whose correctness is a
matter of linked structures, protocols and arithmetic, and proves what they promise over every input and
every run. `dafny verify dfyconfig.toml` checks all of it.

| file | models |
|---|---|
| `Arith.dfy`, `Seqs.dfy`, `Wrappers.dfy` | powers of two, alignment and division; sequences without repetitions; optional values |
| `Caps.dfy`, `Cdt.dfy` | capabilities, their packing into a word, and derivation as a function on sequences |
| `CapList.dfy`, `CapViews.dfy` | the heap: slots linked through `next` and `prev`, the mutually recursive delete and revoke, and what they do to all slots at once |
| `CapSteps.dfy`, `CapSpace.dfy` | each of copy, mint, retype, delete and revoke as a step between states, and every run of them, with the histories of all capabilities and of all memory |
| `CapMemory.dfy`, `CapKin.dfy`, `CapWitness.dfy` | the objects that live capabilities denote, what revoking does to everything derived, and runs in which revoke deletes too much and two objects share memory |
| `Untyped.dfy` | the arithmetic of `untyped_retype` and the history of memory it makes, to any nesting depth |
| `ListRing.dfy`, `KernelLists.dfy` | the intrusive ring, and all lists of the kernel in one heap of nodes |
| `Kernel.dfy` | IPC, notifications and scheduling as a state machine: the effect of each routine as a function on states |
| `KernelMemory.dfy`, `KernelCode.dfy` | the same state in memory, as records and linked nodes, and the routines as pointer code that refines the state machine |
| `KernelInv.dfy`, `KernelEdges.dfy` | thread conservation over every run, and the paths on which it can fail |
| `KernelReply.dfy`, `KernelMessages.dfy`, `KernelHandover.dfy`, `KernelWakeups.dfy`, `KernelOutcomes.dfy` | what every kernel entry does, replies, messages of blocked senders and messages handed over, no lost wakeup |
| `KernelWitnesses.dfy` | runs from boot that reach each state in which a promise fails |
| `Paging.dfy`, `Perms.dfy`, `Mmu.dfy` | four-level page tables against a flat map, the permissions along a walk, the mapping system calls, and the user-level retry loop |
| `Locks.dfy` | ticket lock and reader/writer lock over every interleaving |
| `Blocks.dfy`, `PageAlloc.dfy` | cutting memory into power-of-two blocks, and the page allocator |
| `Sort.dfy`, `ChaCha.dfy`, `ChaChaExample.dfy`, `Num.dfy`, `Print.dfy`, `CptrAlloc.dfy` | quicksort, ChaCha20, reading and printing numbers, the slot-range allocator |

Kernel queues insert and remove at the same end (`include/list.h:30-34`, `50-56`), so they are modelled as
the stacks they are: `append_to_list` puts an item first.

Some properties one would like are false of the code. For each there is a lemma with the exact condition,
and for those of the running kernel a run from boot that gets there:

- Revoking an untyped capability can delete capabilities that are not its children, because a deleted
  child takes its own block with it (`Cdt.UntypedRevokeCanOverrun`, `CapWitness.Overrun`). With memory accounted for, it does so
  exactly when a typed member of the run has everything up to and including the first non-child as its
  children (`CapViews.RevokeExactIff`).
- An unused untyped capability can be copied, and then both copies hand out the same memory
  (`CapWitness.Overlap`). No account of memory survives such a copy (`CapWitness.CopiedUntypedEndsAccount`);
  every other copy keeps it (`CapSpace.Space.Copy`).
- An untyped region that ends where the word range ends has no children, so revoking it deletes nothing
  (`Cdt.UntypedChildrenIff`).
- A reply through a `reply_to` that names a thread that is queued with another call breaks the kernel's
  invariant (`KernelInv.ReplyKeepsIff`, `KernelWitnesses.StaleReply`).
- A thread that replies while its own `expects_reply` flag is still set from its last call overwrites the
  `reply_to` of the thread it answers; if that was the only one naming a third, waiting thread, nobody can
  answer that thread any more (`KernelReply.ReplyForgetsIff`, `KernelWitnesses.ForgottenCaller`).
- Waiting on a notification bound to another thread kills the caller but falls through and queues it; the
  second `schedule ()` then loses a ready thread (`KernelEdges.WaitKeepsIff`, `KernelWitnesses.LostThread`).
- Binding a notification with a pending word to a thread that is already receiving leaves that thread
  asleep (`KernelWakeups.BindWakesIff`, `KernelWitnesses.SleepsOn`).
- The comparison in `untyped_retype` wraps: it lets through an object larger than the region when the region
  is used, and a number of objects whose total size wraps (`UntypedMemory.OversizeIsNotRefused`,
  `UntypedMemory.WrappedIsNotRefused`). `UntypedMemory.RefusesRightIff` says exactly when it decides rightly.
- `create_init_untyped_caps` looks for the end of the table only after a region it granted; when the last
  region is in kernel use it grants the blank entry behind it (`PageAlloc.GrantsAreRegionsIff`), and when the
  table is full as well it runs past the end (`PageAlloc.Allocator.GrantLoop`).
- A region of more than one page never hands out its last page (`PageAlloc.RegionYields`).
- `add_vm_mapping` asks for the USER flag in tables it makes, but not in tables that are there: a user page under
  a table first made for a kernel page is out of reach for user mode. The permissions are always the meet of the
  tables that are there and the flags (`Mmu.AddressSpace.AddVmMapping`).
- `largest_fitting_block` returns a block that does not fit exactly when the address plus its lowest bit is
  the end of the word range (`Blocks.LargestFittingBlock`, `Blocks.UpperHalfDoesNotFit`).
- A number printed with the binary prefix, or as a null pointer, is not read back (`Print.RoundTripIff`),
  and a null pointer printed with a sign flag is one character short (`Print.LengthIff`).
- `cptr_alloc_range` asked for no slots answers the first word that is not full; that is the lowest start
  exactly if the first word is not full (`CptrAlloc.ForNothingIff`, `CptrAlloc.ForNothingSkips`).

## Model

| member | source | states |
|---|---|---|
| CapWord.PointerRoundTrip | include/kern/cap.h:12-41 | a pointer survives packing into a capability word exactly when the kernel's assertion holds, and the other fields of the word are kept |
| CapWord.UnpackedPointerIsSafe | include/kern/cap.h:25-33 | whatever is in the word, the pointer read from it is one that can be stored again |
| Caps.ObjectsFitExactly | include/kern/size.h:22-54 | an object of every kind but a thread is exactly as large as the list heads, slots, table entries or frames it holds |
| Cdt.BlockEnd | kern/cdt.c:134-143 | a revoke ends with a successor that is not a child |
| Cdt.ChildTransitive | kern/cdt.c:100-116 | below a capability that is not untyped, a child of a child is a child |
| Cdt.RevokeRemovesExactlyTheRun | kern/cdt.c:134-143 | revoking a capability that is not untyped removes exactly the longest run of its children |
| Cdt.RevokeSparesOthers | kern/cdt.c:100-143 | revoking a typed capability removes only capabilities of its kind and, if it has a badge, with that badge |
| Cdt.UntypedChildrenIff | kern/obj/untyped.c:102-111 | the children of an original untyped capability are those whose pointers lie in its region, exactly unless the region ends with the word range |
| Cdt.RevokeIsExactIff | kern/cdt.c:100-143 | for every capability, the removed block is the run of children exactly if no member of the run reaches past it |
| Cdt.TypedReach | kern/cdt.c:100-116 | for a typed member, reaching a later capability means that everything up to it is its child |
| Cdt.NestedBlocksStayInside | kern/cdt.c:118-143 | whatever is deleted in a block takes its own whole block along inside it |
| Cdt.OverrunHasACulprit | kern/cdt.c:118-143 | a capability deleted without being a child was reached by an earlier member of the block |
| Cdt.UntypedRevokeCanOverrun | kern/cdt.c:100-143 | a concrete chain in which revoking an untyped capability deletes one outside its region |
| Cdt.RevokeIsExactUnlessSpanned | kern/cdt.c:100-143 | if untyped members of the run only have children of the capability, the block is the run exactly unless a typed member spans past it |
| Cdt.PathAttenuates | kern/cdt.c:32-78 | along every path of copies and mints the object and type stay, rights only shrink, and a badge once set stays |
| Cdt.PathBadgeChangesOnce | kern/cdt.c:53-78 | along such a path the badge changes at most once, from zero |
| Cdt.CopyFields | kern/cdt.c:32-51 | a copy grants what both source and mask grant, is an original only if untyped, and is otherwise the source |
| Cdt.MintFields | kern/cdt.c:53-78 | a minted capability has the new badge, is an original exactly for an endpoint minted from one, and grants what both source and mask grant |
| Cdt.OnlyMintsMakeOriginals | kern/cdt.c:32-78 | on a derivation path of a typed capability an original beyond the first is an endpoint minted from an original without a badge |
| Cdt.CopiesRevokeNothing | kern/cdt.c:104-143 | whatever follows a copy of a typed capability, revoking the copy removes nothing |
| CapList.InsertCteAfter | kern/cdt.c:8-19 | the four link updates, and that they leave the new node doubly linked between its neighbours |
| CapList.UnlinkCte | kern/cdt.c:21-30 | the neighbours are joined and the node is left unlinked |
| CapList.DeleteCap | kern/cdt.c:118-132 | on a well-formed tail, the pointer code removes and empties the node and exactly the block the sequence function computes, and terminates |
| CapList.RevokeCap | kern/cdt.c:134-143 | on a well-formed tail, exactly the block right after the capability is removed and emptied, the rest keeps its order, and the new successor is no child |
| CapViews.BehindHangs | kern/cdt.c:8-30 | in a structured space what follows a slot is a finite, duplicate-free, doubly linked chain |
| CapViews.CutKeepsStructure | kern/cdt.c:118-143 | emptying the front of a chain leaves disjoint, acyclic, mutually inverse chains and unlinked empty slots |
| CapViews.InsertKeepsStructure | kern/cdt.c:8-19 | so does inserting a filled slot behind a live one |
| CapViews.InsertedBehind | kern/cdt.c:8-19 | the inserted slot comes first behind the one it was inserted after, and everything that followed follows it |
| CapViews.InsertKeepsTraces | kern/cdt.c:32-78 | a capability handed out extends the history of the one it was handed out from, and no other history changes |
| CapViews.RetypeKeepsMemory | kern/obj/untyped.c:59-100 | a retype that fits keeps slots and memory in agreement, and chains in the order of nesting |
| CapViews.ChildrenInside | kern/obj/untyped.c:102-111 | an untyped child further down the chain lies inside the region, and so do its own children |
| CapViews.RevokeExactIff | kern/cdt.c:100-143 | revoking an untyped slot removes exactly the run of its children unless a typed member has everything up to the first non-child, that one included, as its children |
| CapSpace.Space.Revoke | kern/cdt.c:134-143 | revoke empties the computed block and changes no other capability; chains, histories and memory stay in order; `CapKin.RevokeIsComplete` says that nothing derived is left |
| CapSpace.Space.Delete | kern/cdt.c:118-132 | delete empties the slot and its block and changes no other capability; chains, histories and memory stay in order |
| CapSpace.Space.Copy | kern/cdt.c:32-51 | both refusals, the capability stored, whose fields `Cdt.CopyFields` gives, its place in the chain and its history, and that nothing else changes; memory stays accounted for unless an untyped capability was copied |
| CapSpace.Space.Mint | kern/cdt.c:53-78 | the three refusals, the stored capability, its place in the chain and its history, and that nothing else changes |
| CapSpace.Space.CreateObjects | kern/obj/untyped.c:19-57 | every destination gets an original capability for its own object and a history of its own; the destinations, last first, come right behind the untyped slot, before what followed it |
| CapSpace.Space.Retype | kern/obj/untyped.c:59-100 | each refusal exactly, with nothing changed; otherwise the objects, their places and the raised watermark; with memory accounted for and a right decision, refused exactly when the objects do not fit |
| CapSpace.Space.Step | kern/cdt.c:8-143 | each operation that the kernel may be asked for takes the state to the one its step describes, and a harmless one keeps memory accounted for |
| CapSteps.MoveSpares | kern/cdt.c:32-143 | a step leaves the capability of every slot it does not fill as it was, but for the watermark of an untyped one, or empties the slot |
| CapSteps.RunMakes | kern/obj/untyped.c:19-57 | over any run, the log of capabilities made only grows, and only by what one of its retypes asked for, original and with all rights |
| CapSteps.RunSpares | kern/cdt.c:32-143 | over any run, a live slot that no operation fills has the capability it had |
| CapSpace.Space.Run | kern/cdt.c:8-143 | any sequence of copies, mints, retypes, deletes and revokes is a run of those steps; every typed capability ends a derivation path from one that boot or one of these retypes made, and is no more than that one; slots that no operation fills keep their capability while live; and a careful sequence keeps every object ever made accounted for, so that no two live capabilities clash |
| CapMemory.RetypeKeepsLog | kern/obj/untyped.c:19-57 | a retype makes as many capabilities as objects, and each denotes its own |
| CapMemory.CopiesShareTheObject | kern/cdt.c:32-78 | however often copied and minted, a capability denotes the object its retyped ancestor was made for |
| CapMemory.ApartOrBelow | kern/obj/untyped.c:59-100 | of two objects, either they are apart, or one is untyped and the other lies below its watermark |
| CapMemory.LiveObjectsApart | kern/obj/untyped.c:59-100 | two live capabilities that go back to retypes or regions denote the same typed object, or memory apart, or one is untyped and has used up the other's memory for it |
| CapMemory.FreeMemoryIsFree | kern/obj/untyped.c:65-97 | the memory an untyped capability has not handed out yet belongs to no live object |
| CapWitness.Overruns | kern/cdt.c:134-143 | with an endpoint and an untyped page made from one region and an endpoint from the page, the page's only child is that second endpoint, but its block holds both |
| CapWitness.Overrun | kern/cdt.c:118-143 | from any sound space with an unused region of two pages, three retypes and a revoke delete an endpoint capability that is no child of the revoked one, with memory accounted for throughout |
| CapKin.PathChildren | kern/cdt.c:100-116 | whatever was handed out along a path from a typed original, badged or not, is its child |
| CapKin.DerivedIsBehind | kern/cdt.c:8-19 | what was derived from a slot comes after it in its chain, and everything between them was derived from it too |
| CapKin.RunKin | kern/cdt.c:8-143 | that holds along every run, and what was derived from an original is its child, by retypes too while memory is accounted for |
| CapKin.RevokeIsComplete | kern/cdt.c:134-143 | in any run, revoking an original capability leaves no capability that was derived from it, by however many copies, mints and, from untyped memory, retypes |
| CapKin.DeleteIsComplete | kern/cdt.c:118-132 | so does deleting it, and it is gone itself |
| CapKin.RevokeOfCopy | kern/cdt.c:100-143 | revoking a capability that is no original changes nothing at all |
| CapWitness.CopiedUntypedEndsAccount | kern/cdt.c:32-51 | after an untyped capability has been copied no assignment of memory to slots accounts for both |
| CapWitness.Overlap | kern/obj/untyped.c:59-100 | from any space with an unused region, one copy and two retypes make an endpoint and a thread of the same memory |
| Arith.AlignUpLeast | kern/obj/untyped.c:68 | aligning up gives the least multiple that is not below |
| UntypedMemory.RefusesRightIff | kern/obj/untyped.c:65-77 | for all sizes and counts, wrapping ones included, the comparison decides exactly whether the objects fit if and only if no object is larger than a used region and the product does not wrap to something that fits |
| UntypedMemory.WrappedIsNotRefused | kern/obj/untyped.c:67-77 | a product that wraps to zero is let through |
| UntypedMemory.RefusesIffNoRoom | kern/obj/untyped.c:65-77 | in particular, for objects no larger than the region and a product that does not wrap |
| UntypedMemory.MeasuredExactly | kern/obj/untyped.c:65-71 | a request rightly let through is measured without wrap-around |
| UntypedMemory.OversizeIsNotRefused | kern/obj/untyped.c:65-77 | an object larger than its region slips through the comparison |
| UntypedMemory.CarvedFit | kern/obj/untyped.c:26-31 | new objects are aligned, above the old watermark, below the new one, and apart |
| UntypedMemory.RetypeKeepsOrder | kern/obj/untyped.c:59-100 | a retype keeps the whole history aligned, inside parents and apart among siblings |
| UntypedMemory.DescendantInside | kern/obj/untyped.c:59-100 | to any nesting depth an object lies inside everything it was carved from |
| UntypedMemory.ApartUnlessNested | kern/obj/untyped.c:59-100 | two objects overlap only if one was carved, directly or not, from the other |
| UntypedMemory.GrowsOnly | kern/obj/untyped.c:97 | a retype moves no object and only raises watermarks |
| UntypedMemory.Mapped | kern/obj/untyped.c:26-31 | the stored direct-map pointers denote the carved physical objects |
| ListRing.AppendToList | include/list.h:30-34 | the new item becomes the first of a well-formed ring |
| ListRing.PrependToList | include/list.h:36-40 | the new item becomes the last |
| ListRing.RemoveFromList | include/list.h:42-48 | an item leaves its ring, which closes up, and is left linked to itself |
| ListRing.PopFromList | include/list.h:50-56 | the first item, the one appended last, is taken |
| ListRing.IsListEmpty | include/list.h:58-62 | the pointer test holds exactly for a ring without items |
| KernelLists.Lists.Append | include/list.h:30-34 | among all lists of the kernel, one ring gets the node as its first item and every other ring stays whole |
| KernelLists.Lists.Pop | include/list.h:50-56 | one ring loses its first item, which is left linked to itself, and every other ring stays whole |
| KernelLists.Lists.Remove | include/list.h:42-48 | so does removing an item from the middle of whichever ring holds it |
| KernelMemory.EnlistCoupled | include/list.h:30-34 | linking the node of an unlinked thread keeps each list holding exactly the nodes of its queue |
| KernelMemory.DelistCoupled | include/list.h:42-56 | so does unlinking one, at any position |
| KernelCode.Kernel.RemoveNode | kern/obj/notification.c:17-23 | remove_from_list takes a thread's node out of whichever queue it is in, although the code does not know which |
| KernelCode.Kernel.RunsAlone | kern/obj/tcb.c:37-42 | the pointer comparison in destroy_tcb holds exactly for a thread that has been scheduled and is not in the run queue |
| KernelCode.Kernel.PickNextTcb | kern/obj/tcb.c:250-265 | the thread that became ready last is unlinked and found back from its node |
| KernelCode.Kernel.KernelEntry | kern/arch/x86_64/entry.c:32-48 | the pointer code of a whole entry takes the step of the state machine from every state that keeps the invariant, which holds again, and leaves all lists whole rings with the right nodes |
| KernelCode.Kernel.BootThread | kern/obj/tcb.c:52-62 | from zeroed memory the first thread comes to run in the boot state of the machine |
| KernelInv.ScheduleDecides | kern/obj/tcb.c:267-283 | schedule by a thread that blocks, dies or yields leaves every ready thread either handed the CPU or in the run queue |
| KernelInv.DeliverKeeps | kern/obj/endpoint.c:84-92 | handing a message to a waiting receiver keeps queues, states and links consistent |
| KernelInv.ReceiveFromBlockedKeeps | kern/obj/endpoint.c:112-128 | so does taking a message from a blocked sender, who becomes ready or waits for its reply |
| KernelInv.Switched | kern/obj/tcb.c:203-226 | what the switch does, thread by thread |
| KernelInv.SendKeeps | kern/obj/endpoint.c:153-161 | a send keeps queues, states and links consistent |
| KernelInv.CallKeeps | kern/obj/endpoint.c:258-268 | a call does |
| KernelInv.RecvKeeps | kern/obj/endpoint.c:234-244 | a receive does |
| KernelInv.NbRecvKeeps | kern/obj/endpoint.c:246-256 | a non-blocking receive does |
| KernelInv.ReplyKeepsIff | kern/obj/endpoint.c:270-284 | a reply keeps the invariant exactly when reply_to names a thread that waits off-queue for a reply; without a calling thread it traps and the CPU halts |
| KernelInv.SignalKeeps | kern/obj/notification.c:41-66 | a signal keeps it |
| KernelInv.WaitKeeps | kern/obj/notification.c:78-98 | a notification receive keeps it if the notification is not bound to another thread |
| KernelInv.BindKeeps | kern/obj/tcb.c:141-156 | a binding touches no queue and no state |
| KernelInv.ReturnKeeps | kern/obj/tcb.c:228-241 | leaving the kernel restores the invariant between entries |
| KernelInv.NextKeeps | kern/obj/tcb.c:196-283 | every kernel entry keeps it, and no assertion fires |
| KernelInv.RunKeeps | kern/obj/endpoint.c:84-188 | so does every run |
| KernelInv.BootInv | kern/obj/tcb.c:24-26 | it holds when the boot thread first runs |
| KernelInv.ExactlyOnePlace | kern/obj/tcb.c:196-283 | every thread is in exactly one place, its state fits the place, and an idle CPU means an empty run queue |
| KernelEdges.WaitKeepsIff | kern/obj/notification.c:78-98 | conservation survives a notification receive exactly unless the notification is foreign, has no word, and some thread is ready |
| KernelEdges.KillThenQueueLosesAThread | kern/obj/notification.c:84-93 | on that path the first ready thread ends in no place at all |
| KernelWitnesses.LostThread | kern/obj/notification.c:78-93 | a run from boot after which that wait loses a thread |
| KernelWitnesses.StaleReply | kern/obj/endpoint.c:270-284 | a run from boot after which a second reply readies a thread that is queued with another call |
| KernelReply.ReplyForgetsIff | kern/obj/endpoint.c:60-62 | a reply leaves every waiting thread named by some reply_to exactly unless the replier's flag overwrites the only one that names a third thread |
| KernelWitnesses.ForgottenCaller | kern/obj/endpoint.c:258-284 | a run from boot after which a reply leaves a waiting thread that nobody can answer |
| KernelReply.ReplyOwesIff | kern/obj/endpoint.c:60-62 | in terms of the calls each thread has received and not answered: the answer to one keeps every other debt exactly unless the stale flag redirects the caller's own |
| KernelReply.NextOwes | kern/obj/endpoint.c:112-128 | under the reply discipline every entry keeps conservation and debts |
| KernelReply.DisciplinedRunsKeep | kern/obj/endpoint.c:258-291 | over every disciplined run each reply reaches a thread that waits for it |
| KernelReply.BootOwes | kern/obj/tcb.c:24-26 | nobody owes anything at boot |
| KernelMessages.BlockedSendIsIntact | kern/obj/endpoint.c:94-110 | blocking in send or call leaves tag, words and badge with the sender as the sender wrote them |
| KernelOutcomes.BlocksIff | kern/obj/endpoint.c:139-151 | a receive blocks exactly when nobody waits to send, and a send when nobody waits to receive |
| KernelOutcomes.ReceiveTakes | kern/obj/endpoint.c:112-188 | a receive, blocking or not, with no signal pending and a sender waiting, takes the first sender's message; the sender has left the queue and is ready, or waits for the answer that the receiver can give |
| KernelOutcomes.ReplyReceiveTakes | kern/obj/endpoint.c:286-291 | after the answer has been given, the same holds for a receive joined with a reply |
| KernelOutcomes.ReceiveTakesSignal | kern/obj/endpoint.c:221-256 | a pending signal comes first: its word goes to the buffer and is cleared, and nothing else changes |
| KernelOutcomes.ReceiveFindsNothing | kern/obj/endpoint.c:181-188 | a non-blocking receive that finds nothing succeeds and changes nothing else |
| KernelOutcomes.ReceiveWaits | kern/obj/endpoint.c:130-137 | a blocking one puts the thread first in the queue and lets the first ready thread run |
| KernelOutcomes.SendWaits | kern/obj/endpoint.c:94-110 | so does a send or call that nobody receives, with the state and reply flag of each |
| KernelOutcomes.SendHandsOver | kern/obj/endpoint.c:153-162 | one that is received runs the receiver; a caller waits for the answer, which the receiver can give, and a sender is the next to run |
| KernelOutcomes.ReplyReadies | kern/obj/endpoint.c:269-284 | a reply makes the caller the next to run, and the replying thread goes on with its tag as result |
| KernelOutcomes.SignalStays | kern/obj/notification.c:41-57 | a signal that nobody waits for adds its bits to the word and changes nothing else |
| KernelOutcomes.SignalWakes | kern/obj/notification.c:41-66 | one that somebody waits for runs that thread with all bits and a successful result, clears the word, and makes the signaller the next to run |
| KernelOutcomes.InterruptWakes | kern/obj/notification.c:41-66 | so does an interrupt, whether a thread was running or not |
| KernelOutcomes.WaitTakes | kern/obj/notification.c:92-97 | a wait on a pending notification clears the word, succeeds and goes on |
| KernelOutcomes.WaitWaits | kern/obj/notification.c:25-33 | a wait without one puts the thread first in the queue and lets the first ready thread run |
| KernelOutcomes.YieldGivesWay | kern/obj/tcb.c:266-283 | a yield runs the first ready thread and puts the caller in its place |
| KernelOutcomes.ExitEnds | kern/obj/tcb.c:243-248 | an exit ends the thread and lets the first ready one run |
| KernelOutcomes.DeadForever | kern/obj/tcb.c:203-248 | over every run a thread that has exited never runs again |
| KernelOutcomes.ResumeReadies | kern/obj/tcb.c:74-80 | a thread that never ran becomes the next to run |
| KernelOutcomes.BindBinds | kern/obj/tcb.c:141-156 | a binding names thread and notification to each other and succeeds, or is refused without a change if the notification is bound |
| KernelMessages.NextDelivers | kern/obj/endpoint.c:112-128 | one entry leaves a waiting message intact or is the receive that delivers its words and badge, and its tag as the lookups of that very entry decide |
| KernelMessages.MessageIntegrity | include/kern/ipc.h:9-32 | along every run the message stays intact until a receive on its endpoint so delivers it |
| KernelHandover.HandedAtOnce | kern/obj/endpoint.c:153-162 | a send or call to a waiting receiver returns with the receiver running, and with the words, the badge and the tag in its buffer and saved frame |
| KernelHandover.AnswerIsHanded | kern/obj/endpoint.c:269-291 | after a reply, joined with a receive or not, the caller is ready or runs, with the words and tag of the reply and no badge |
| KernelHandover.NextHolds | kern/obj/tcb.c:203-226 | no entry of other threads changes the buffer or saved frame of a ready thread, which stays ready or is the one that runs |
| KernelHandover.MailIsKept | include/kern/ipc.h:9-32 | along every run what a ready thread has been sent stays until the thread runs with it |
| KernelHandover.AnswerArrives | kern/obj/endpoint.c:269-291 | from a reply on, along every run, the caller has the answer until it runs with it |
| KernelWakeups.SignalOutcome | kern/obj/notification.c:41-66 | each signal hands all accumulated bits to exactly one receiver, or stays in the word |
| KernelWakeups.BindWakesIff | kern/obj/tcb.c:141-156 | binding keeps the wakeup invariant exactly when no pending word would be hidden from a receiver and the thread is unbound |
| KernelWitnesses.SleepsOn | kern/obj/tcb.c:141-156 | a run from boot after which a binding leaves a receiver asleep with a signal pending |
| KernelWakeups.NextWakes | kern/obj/endpoint.c:221-256 | every careful entry keeps it: a pending word means nobody is waiting for it |
| KernelWakeups.NextHolds | kern/obj/notification.c:41-98 | one entry keeps every pending bit or is the receive that takes the word: the word is cleared, the call succeeds, and the thread goes on without blocking |
| KernelWakeups.NoLostWakeup | kern/obj/notification.c:6-98 | along every careful run pending bits stay, with nobody waiting for them, until a receive so takes them |
| KernelWakeups.CarefulRunsKeep | kern/obj/notification.c:6-98 | both invariants hold over every careful run |
| KernelWakeups.BootWakes | kern/obj/notification.c:35-39 | and at boot |
| Paging.KeyNamesPage | kern/arch/x86_64/mmu.c:116-144 | canonical addresses share all four indices exactly when they lie in the same page |
| Paging.InPageParts | kern/arch/x86_64/mmu.c:116-144 | a translated address is the frame with the offset of the address |
| Paging.VisitorsShareIndices | kern/arch/x86_64/mmu.c:72-144 | in a tree, two walks that read the same entry have the same indices from there up |
| Paging.WalkFrame | kern/arch/x86_64/mmu.c:116-144 | a write that a walk does not read does not change its result |
| Paging.AttachKeepsWalk | kern/arch/x86_64/mmu.c:80-108 | hooking in a zeroed table changes no translation |
| Paging.AttachKeepsTree | kern/arch/x86_64/mmu.c:80-108 | and keeps the tables a tree |
| Paging.SetLeafChangesOnePage | kern/arch/x86_64/mmu.c:110-111 | writing a last-level entry changes the page of the address and no other |
| Mmu.SetLeafRefines | kern/arch/x86_64/mmu.c:110-111 | and is one update of the flat map |
| Mmu.MappedResolves | kern/arch/x86_64/mmu.c:72-144 | after an add, a canonical address of that page resolves to the frame and every other one as before |
| Mmu.ResolveIsFlat | kern/arch/x86_64/mmu.c:116-144 | resolving through the tree is looking up the flat map |
| Perms.EntryFlags | kern/arch/x86_64/mmu.c:72-113 | outside the address bits, an entry has exactly the flags it was made with |
| Perms.GrantedIs | kern/arch/x86_64/mmu.c:72-114 | user mode is granted on a mapped page what the tables on the way and its own entry all allow |
| Perms.AttachUpper | kern/arch/x86_64/mmu.c:72-113 | hooking in a table takes permissions from no mapped page, and from other addresses at most what its own entry lacks |
| Mmu.GrantedAfter | kern/arch/x86_64/mmu.c:72-113 | after an add the page is granted what the tables that were there and its own flags allow, and every other mapped page what it was |
| Mmu.AddressSpace.AddVmMapping | kern/arch/x86_64/mmu.c:72-113 | the tree changes as one entry of the flat map, taking at most three tables in order; the page gets the permissions of its flags as far as the tables that were there allow, and no other page's change |
| Mmu.AddressSpace.ResolveVmMapping | kern/arch/x86_64/mmu.c:116-144 | the code's four reads compute the flat lookup |
| Mmu.AddressSpace.AddAll | kern/arch/x86_64/mmu.c:72-144 | after any sequence of adds every address resolves as in the flat map updated by the same calls; starting from tables that take no permission away, with user pages only, every page is granted what its own entry allows |
| Mmu.AddressSpace.CopyKernelHalf | kern/arch/x86_64/obj/page.c:45-51 | entries 256 to 511 are those of the current table, and no user translation changes |
| Mmu.AddressSpace.PdptMap | kern/arch/x86_64/obj/page.c:33-59 | accepted exactly when that level is the missing one; then the next level is missing; the new table takes no permission from any address |
| Mmu.AddressSpace.PdMap | kern/arch/x86_64/obj/page.c:61-82 | the same one level down, with the missing level reported; the new table takes no permission from any address |
| Mmu.AddressSpace.PtMap | kern/arch/x86_64/obj/page.c:84-109 | the same for the last table; the new table takes no permission from any address |
| Mmu.AddressSpace.PageMap | kern/arch/x86_64/obj/page.c:111-136 | the missing level, DELETE_FIRST for a mapped page, or one update of the flat map; the page is open to users, writable if asked, as far as the tables allow |
| Mmu.AddressSpace.MapPage | lib/lib.c:155-183 | terminates with as many new tables as levels were missing, at most three; the page is mapped, or DELETE_FIRST if it was; all else stays, and the inner assertions hold; the page is granted what the tables that were there allow, all of it if there were none, and no other page's permissions change |
| Mmu.AddressSpace.MapBuffer | lib/lib.c:192-204 | the pages are mapped in order up to the first that was taken |
| Locks.StepKeeps | lib/spin_lock.c:5-47 | every atomic step keeps the line of tickets, the logs and the reader count |
| Locks.FrontIsOldest | lib/spin_lock.c:8-12 | with counters modulo 2^32 and fewer threads than that, only the oldest ticket equals the front |
| Locks.RunKeeps | lib/spin_lock.c:5-47 | so does every interleaving |
| Locks.MutualExclusion | lib/spin_lock.c:5-19 | at most one thread has the gate |
| Locks.WriterAlone | lib/spin_lock.c:21-47 | a writer excludes every reader and every other writer |
| Locks.TicketOrder | lib/spin_lock.c:5-47 | gates are granted and calls come through in ticket order, so no later reader enters before a writer |
| Locks.NeverStuck | lib/spin_lock.c:5-47 | while some call or section is under way, some thread can move |
| Locks.ReadersTogether | lib/spin_lock.c:21-33 | while one reader is inside and nobody else waits, another one comes in |
| Blocks.LowBit | kern/alloc.c:31 | the bits that an address and its negation share are exactly the lowest bit of the address |
| Blocks.BlockIsLargest | kern/alloc.c:27-38 | a power of two is aligned and fits exactly up to the chosen block size |
| Blocks.LargestFittingBlock | kern/alloc.c:27-38 | in 64-bit arithmetic the halving loop finds that size exactly when the address plus its lowest bit does not wrap to zero, and otherwise returns the lowest bit |
| Blocks.UpperHalfDoesNotFit | kern/alloc.c:27-38 | from the middle of the word range on, every end is passed by the block returned |
| Blocks.TilesCover | kern/alloc.c:46-63 | the blocks tile the extent exactly, in order, each naturally aligned |
| Blocks.TileSizes | kern/alloc.c:46-63 | each block of a page-aligned extent has at least a page |
| Blocks.TilesMountain | kern/alloc.c:46-63 | sizes rise strictly and then fall strictly, the peak repeated at most once |
| Blocks.TilesFew | kern/alloc.c:46-63 | there are at most 2 * (log2(len / 4096) + 1) blocks |
| PageAlloc.CutUpIsTiles | kern/alloc.c:46-63 | the regions written to the table are those blocks |
| PageAlloc.KernelApartFromUser | kern/alloc.c:65-91 | no page handed to the kernel lies in memory granted to user space |
| PageAlloc.PagesInside | kern/alloc.c:161-195 | every page handed out lies inside a region |
| PageAlloc.UseKeepsPages | kern/alloc.c:165-191 | taking the next page keeps all pages handed out apart |
| PageAlloc.RegionYields | kern/alloc.c:161-191 | an unclaimed region goes on handing out pages exactly as long as two are left, so only a region of one page hands out its last |
| PageAlloc.AnswersKeepOneOpen | kern/alloc.c:161-195 | no call leaves two kernel regions with room: a region is claimed only when the others are used up |
| PageAlloc.LeavesTableIff | kern/alloc.c:65-91 | where the loop would stop lies past the table exactly when more than 64 capabilities are asked for and the table is empty, or full with its last region in kernel use |
| PageAlloc.GrantsAreRegionsIff | kern/alloc.c:65-91 | for any number asked for within that bound, all grants are regions exactly unless there is room for more and the last region is in kernel use, or there are no regions |
| PageAlloc.Allocator.AllocateAlignedRegions | kern/alloc.c:46-63 | the table grows by exactly the regions of the extent |
| PageAlloc.Allocator.InitPageMmap | kern/alloc.c:149-159 | the table holds the regions of all extents in order |
| PageAlloc.Allocator.AllocPage | kern/alloc.c:161-195 | fails exactly when no region has room; otherwise the first kernel region with room, or else the first free region, gives its next page, and only that region changes |
| PageAlloc.Allocator.GrantLoop | kern/alloc.c:65-91 | the loop reaches the end of the table and reads on exactly under that condition, having marked and granted every region until then |
| PageAlloc.Allocator.CreateInitUntypedCaps | kern/alloc.c:65-91 | for every number asked for, exactly which entries are granted and marked and whether the loop leaves the table, with pages and grants still apart |
| PageAlloc.Allocator.Run | kern/alloc.c:65-195 | over any interleaving of page allocations and grants on any table, what each call returns and does to the table; of the pages returned no two overlap and none lies in memory granted by any call, also with grants far larger than the table; at most one region in kernel use has room |
| Sort.Qsort | lib/sort.c:3-47 | for every array and comparator, a sorted rearrangement of the range with nothing outside touched |
| Sort.Partition | lib/sort.c:10-43 | all scans stay inside, the tracked pivot keeps its value, right ends at or above the base, and both parts are smaller |
| Sort.SwapAndMove | lib/sort.c:28-41 | a swap keeps what was scanned, and the pivot is followed |
| Sort.Assembled | lib/sort.c:45-46 | sorted parts around a pivot make a sorted whole |
| ChaCha.RoundsBijective | lib/chacha.c:15-45 | the rounds without the final addition have a two-sided inverse |
| ChaCha.QuarterRoundExample | lib/chacha.c:15-27 | the quarter round gives the result of section 2.1.1 of RFC 8439 |
| ChaChaExample.DoubleRoundMixes | lib/chacha.c:35-45 | a double round is a quarter round on each column and then on each diagonal |
| ChaChaExample.TwoMoreRounds | lib/chacha.c:35-45 | two more rounds are one more double round |
| ChaChaExample.NoRounds | lib/chacha.c:35 | fewer than two rounds are none |
| ChaChaExample.InitialBytes | lib/chacha.c:58-61 | the initial state is, byte for byte, the text of the constants, the key, the counter and the nonce |
| ChaChaExample.BytesOfWord | lib/chacha.c:66-67 | words are written lowest byte first |
| ChaChaExample.BlockExample | lib/chacha.c:28-50 | twenty rounds on the key, nonce and counter of section 2.3.2 of RFC 8439 give the block printed there |
| ChaCha.DoChaChaBlock | lib/chacha.c:29-50 | the in-place code computes the block function |
| ChaCha.EncryptTwice | lib/chacha.c:52-73 | encrypting twice from the same counter restores the data |
| ChaCha.StreamStarts | lib/chacha.c:52-73 | every byte is exclusive-ored with the stream, whose first block is the one for the counter itself |
| ChaCha.StreamNext | lib/chacha.c:70 | the next block is the one for the counter plus one |
| ChaCha.EncryptSplits | lib/chacha.c:52-73 | data can be encrypted in two pieces cut at a multiple of 64 bytes |
| ChaCha.SplitCounterIff | lib/chacha.c:52-73 | two calls leave the 32-bit counter where one does exactly when both pieces are nonempty, wrap-around included |
| ChaCha.Cipher.XorChacha | lib/chacha.c:52-73 | the buffer holds the encrypted text, nothing around it changes, and the counter advances by max(1, ceil(len / 64)) modulo 2^32 |
| Num.Strtol | lib/num.c:4-67 | the loop reads exactly the number the text starts with |
| Num.ReadsShape | lib/num.c:11-66 | spaces, sign, prefix and digits are read to their end |
| Num.ReadsWithoutBase | lib/num.c:24-41 | without a base the text chooses it: 0x for 16, another 0 for 8, and 10 otherwise |
| Num.Characters | lib/num.c:11-53 | the digits have their values, and exactly six characters are space |
| Num.Letters | lib/num.c:48-51 | letters count on from ten, in either case |
| Num.ReadsUpTo | lib/num.c:43-60 | reading stops at the first other character |
| Num.FoldGrows | lib/num.c:58 | no intermediate value exceeds the number read |
| Print.RoundTripIff | lib/print.c:223-295 | reading right-justified output back in its base gives the number and the end, exactly when there is no binary prefix and no null pointer |
| Print.LengthIff | lib/print.c:223-295 | the output is max(width, digits + sign + prefix) long, exactly except for a null pointer with a sign flag |
| Print.SignShows | lib/print.c:173-193 | a minus shows exactly negative numbers, a plus goes before a space, and a null pointer aside the lead is sign and prefix |
| Print.PrefixForm | lib/print.c:195-221 | the prefix of the alternate form, and when its letter is capital |
| Print.LeftJustified | lib/print.c:259-268 | a left-justified number comes first and is followed by padding only |
| Print.RightJustified | lib/print.c:269-283 | a right-justified one comes last behind padding only, with zeros between sign and digits |
| Print.DigitForm | lib/print.c:122-171 | only zero starts with a zero digit, and letters are small in base 16 and capital in its capital form and in pointers |
| Print.CutIs | lib/print.c:10-30 | with limited output the text is cut off after as many characters as there is room for |
| Print.DigitsReadBack | lib/print.c:164-170 | the digits have the value that was printed |
| Print.FillDigits | lib/print.c:122-171 | the loop fills the buffer from its end with those digits, and 64 places suffice |
| Print.Stream.FormatNumber | lib/print.c:223-295 | the stream receives the part of the full text for which there is room, and its length is returned |
| CptrAlloc.MarkAdds | lib/cptr_alloc.c:12-21 | setting a bit adds exactly one slot to the set of used slots |
| CptrAlloc.UnmarkRemoves | lib/cptr_alloc.c:23-32 | clearing one removes exactly that slot |
| CptrAlloc.FullHasNoRoom | lib/cptr_alloc.c:58-59 | skipping full words misses no free run |
| CptrAlloc.SlotAllocator.Fits | lib/cptr_alloc.c:63-76 | the bit loop finds out exactly whether the run is free |
| CptrAlloc.SlotAllocator.SetRange | lib/cptr_alloc.c:12-21 | the used slots grow by exactly the range |
| CptrAlloc.SlotAllocator.ClearRange | lib/cptr_alloc.c:23-32 | the used slots shrink by exactly the range |
| CptrAlloc.SlotAllocator.AllocRange | lib/cptr_alloc.c:55-92 | the lowest free run is answered and exactly it is marked; -1 only if there is none, with nothing changed; for no slots the first word that is not full |
| CptrAlloc.ForNothingIff | lib/cptr_alloc.c:55-92 | a request for no slots gets the lowest start exactly when the first word is not full |
| CptrAlloc.SlotAllocator.AllocMany | lib/cptr_alloc.c:55-92 | ranges from successive calls do not overlap |

## Left out

- CapSpace.Space.Step: assumes a live source for a copy, and for a retype a live untyped slot, a kind of object that can be made, and empty, distinct destinations; the kernel checks none of these. The account of memory besides needs that no untyped capability is copied, which would hand out the same memory twice, and that `RefusesRightIff` holds for each retype.
- UntypedMemory.RefusesRightIff: object sizes are powers of two below 2^64; for a larger size field the shift in `object_size` is undefined.
- KernelInv.RunKeeps: assumes replies to waiting callers, no waiting on a notification bound to another thread, and resumption only of threads that never ran; KernelReply, KernelEdges and KernelWakeups say exactly when these fail.
- CapMemory.LiveObjectsApart: speaks of untyped capabilities and of those that go back to a retype; the objects of the capabilities boot makes by hand lie in the kernel image and are not in the history.
- CapKin.RevokeIsComplete: what was derived before the run began is not known to it; a run that starts with boot knows everything.
- CapSpace.Space.Run: leaves out the operations that `Step` does not admit.
- KernelMessages.MessageIntegrity: assumes one IPC buffer per thread, message length within the 504 words of the buffer, and no `tcb_write_registers` on the blocked thread.
- KernelWakeups.NoLostWakeup: a non-blocking receive on a notification clears the word without writing the badge (`kern/obj/notification.c:92-97`), so nothing is claimed about the badge there.
- Mmu.AddressSpace.PdptMap: only slot 0 of the top table, since the copy of the kernel half starts at the addressed entry and for any other slot runs into the next physical page (`kern/arch/x86_64/obj/page.c:43-51`).
- Mmu.AddressSpace.MapPage: only addresses in slot 0 of the top table, for the same reason.
- Mmu.AddressSpace.MapBuffer: only buffers in slot 0 of the top table, for the same reason.
- Mmu.AddressSpace.PageMap: permissions are stated for page-aligned frames, which the kernel does not check; of the flags only USER and WRITE are followed through the levels.
- PageAlloc.Allocator.AllocateAlignedRegions: assumes that no block of the extent starts where its lowest bit reaches the end of the word range, which holds for every extent in the lower half.
- PageAlloc.Allocator.InitPageMmap: the table is assumed to have room for all regions.
- PageAlloc.Allocator.Run: a request that would leave the table is not made; `PageAlloc.Allocator.GrantLoop` says exactly which ones do.
- Sort.Qsort: elements are compared and swapped whole, not byte by byte.
- Print.RoundTripIff: padding with spaces or zeros and right justification; the reader accumulates without a width limit, and `FoldGrows` shows that numbers below 2^63 never overflow on the way.
- CapList: revoke terminates because each deletion shortens the chain; the depth of the C recursion is not bounded.
- KernelCode.Kernel.KernelEntry: the objects a call names exist, and thread records are kept in a map by number; `CONTAINER_OF` is the number a node carries. Frames and IPC buffers are values.
- Suspending threads, resuming threads that are blocked or queued, and reading or writing registers of other threads.
- `nbsend`, which panics.
- The capability lookups and the transfer of a capability itself during a message: their success is an input of each step.
- Huge pages, unmapping, TLB effects and device memory.
- Several CPUs outside the lock model, and weak memory ordering inside it.
- `cptr_alloc` and `cptr_free`, which shift a 32-bit integer.
- Formatting of strings, characters and the format directives themselves.
- Interrupt controllers, boot protocol, ELF loading, drivers, user servers and the generated dispatch code.
