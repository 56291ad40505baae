# SadOS, modelled and proved

SadOS is a micro-kernel for x86-64 with a small user space. This project models the parts of
it that are hard to get right and proves what they are for. Where the C code changes things
step by step, the model does too: classes with the kernel's own fields, loops and stores, each
method proved against a function on values, and about those functions the properties that hold
over all calls and all runs.

- **Copy-on-write memory** (`CowState`, `CowInvariants`, `CowRuns`, `CowRefinement`, `CowUser`,
  `CowFrames`, `CowKernel`, `CowFork`, `CowCover`, `CowAsWritten`). Physical pages with `ref_count`,
  `snap_count` and owners, the index of page entries, the present page-table entries and the
  contents of frames. Lazy sharing refines eager copying over every run; references are conserved;
  the consistency panics are unreachable; a page with a snapshot is writable nowhere; memory runs
  short exactly when a step that takes a frame finds none. The kernel has no error to return then:
  it reads the head of an empty pool through a null pointer (`sys/mm/get_page.c:117-124`), and the
  outcome `OutOfMemory` stands for that.
- **Address spaces** (`VmaList`). The sorted VMA list with its page entries and the index:
  search, insertion, validation, and the removal of a range in all its cases. `CowCover` ties
  the list to the pages that the memory steps know as covered.
- **Radix tree** (`Bits`, `RadixTrie`, `RadixTree`). Linked nodes refine a trie, the trie refines
  a finite map, and the map decides the trie.
- **Page tables** (`PageTables`). Translation and access rights as the processor has them, the
  self-map in slot 256, creation of tables, mapping and unmapping (Intel 64 and IA-32
  Architectures Software Developer's Manual, Volume 3A, sections 4.5 and 4.6).
- **Ports** (`IpcState`, `IpcInvariant`, `IpcRuns`, `IpcWaits`, `IpcTheorems`, `IpcResults`,
  `IpcTurns`, `IpcBits`, `IpcKernel`). Connections, cookies, answers, waiting and the run queue:
  what was sent arrives, what is reported as ready is ready, and every queued task has its turn.
- **Buddy allocator** (`BuddyTiling`, `BuddyLists`, `Buddy`), **splay tree** (`SplayTree`),
  **file blocks** (`FileBlocks`), **shell parser** (`Parser`).

`dafny verify dfyconfig.toml` checks everything.

## Where the code falls short

The model does what the code does, and says exactly when that is enough.

- The branch of `unshare_page` for the only holder of a snapshot (`sys/mm/page_man.c:159-165`)
  clears `snap_count` and leaves `PF_SNAPSHOT`; its twin in `address_space_map`
  (`sys/mm/aspace.c:140-145`) updates the flags. `repaired` (in the class, `flagUpdate`) tells the
  two apart. Reference properties hold of both. Snapshot properties hold of the repaired kernel,
  and of the kernel as written exactly as long as that branch is not taken
  (`CowAsWritten.AsWrittenCounts`); a fork and a second write after it end in a panic
  (`CowAsWritten.SoleBranchThenForkPanics`).
- `map_from_user` and `page_list_free` count snapshots without touching write permission
  (`sys/mm/copy.c:68-72` and `128-136`): `CowAsWritten.HoldKeepsReadOnly` and `DropKeepsReadOnly`
  say when the read-only guarantee survives them, `MappedAlone` and `HeldOnce` where it does not.
- `sendpage` never looks at `PF_HARDWARE`, so a page of device memory stops the kernel
  (`CowFork.SendPage` says exactly when, `CowFork.DeviceSent` shows a call); and it checks only the
  first page of its source, so that a space can be sent into its own gap (`CowFork.CopiesAre`).
  With length 0 it leaves an empty VMA behind, which covers nothing and is in the way of later
  ones (`CowCover.EmptyInTheWay`).
- `address_space_assign_page` reports success where there is no VMA, because `PTR_IS_ERR` takes a
  null pointer for an error and the error code is then 0 (`include/sys/err.h:17-19`).
- `binradix_insert` of a present key that hangs from the root as a leaf of 64 bits shifts a word
  by 64 (`ShiftBy64`), and `binradix_delete` of an absent key follows a missing child of the root
  (`NullNode`): exactly outside `Insertable` and `Deletable`, which every fresh insert and present
  delete meets. `RadixTree.TwiceIntoEmpty` and `DeleteFromEmpty` are trees where it happens.
- `malloc` of the one size that makes 4096 bytes with the header runs past its lists, and `free`
  of a whole page looks at memory outside it: `Malloc` and `Free` say exactly when, and
  `Buddy.TwoPages` shows two pages for which `free` runs past the lists.
- `splay_prev` and `splay_next` are documented as neighbours of any element; they are so exactly
  for elements of the set.
- When `write_sata_wrapper` runs short of blocks, those it has already taken stay marked in the
  bitmap, and no file lists them.
- `write_sata_wrapper` does not look at the 15 places an inode has: `PastInode`, with its exact
  condition in `FileBlocks.FileSystem.Write`.
- `request` on a connection that the server has not taken yet frees the connection and leaves its
  descriptor in the table (`sys/ipc/port.c:117-125`): `FreedInUse`, exactly then.
- The parser swallows a bar in front of the first command, and takes one behind the last for an
  empty command (`Parser.ParseUndoesPrint`).
- Outside quotes the parser takes the -1 of `getchar` at the end of the input for a character and
  never stops: the result `Never`, exactly on the inputs that `Unfinished` describes
  (`Parser.LineNever`).

## Model

| member | source | states |
|---|---|---|
| `CowRefinement.LazyRefinesEager` | sys/mm/page_man.c:132-215 | Over every run of forks, page sends, shared and device mappings, faults, stores, kernel writes and unmaps, the kernel with the flag update never panics, and at the end every address space reads what it would if each snapshot had been copied when it was taken; the zero page stays zero |
| `CowRefinement.AsWrittenRefinesEager` | sys/mm/page_man.c:159-165 | The same for the code as it stands, over the runs that never reach the sole-holder branch |
| `CowRefinement.BootedRefines` | sys/mm/page_fault.c:66-72 | The start: with only the zero page managed, device memory as it stands and any frame number as the next object, the two machines agree and everything that runs keep holds |
| `CowRefinement.DoRefines` | sys/mm/page_fault.c:26-65 | One step of the lazy machine matches one step of the eager one: same slots, same bytes, two slots share stores exactly when both are `PF_SHARED` owners of one page, and every mapping of one piece of device memory is one object |
| `CowRefinement.DoDevices` | sys/mm/aspace.c:157-192 | The device half of it: whichever step is taken, a slot of device memory keeps the object of that memory, in every space, and no copy is ever made of it |
| `CowRefinement.CopyRefines` | sys/mm/page_man.c:167-215 | The copy that `unshare_page` makes is invisible: nobody reads another byte, and nobody shares stores with anybody new |
| `CowRefinement.LoadsAgree` | sys/mm/page_fault.c:41-59 | The byte a load reads through a present page-table entry is the eager machine's byte |
| `CowRefinement.FaultGrants` | sys/mm/page_fault.c:41-59 | After the handler has run, the access that faulted finds a present entry, and a writable one if it was a write; for the code as written too, away from the sole-holder branch |
| `CowUser.WriteView` | sys/mm/page_man.c:97-104 | A write to a page without snapshots changes exactly the bytes written, for exactly the `PF_SHARED` group of the slot written to |
| `CowUser.UnshareView` | sys/mm/page_man.c:132-215 | `unshare_page` changes no byte that anybody reads, and not who shares with whom |
| `CowRuns.DoInv` | sys/mm/page_man.c:79-89 | With the flag update no step panics, and afterwards references, snapshot counts and write permissions are all right again |
| `CowRuns.Do` | sys/mm/aspace.c:157-192 | Every step, as written or with the flag update, conserves references: `ref_count` is the number of owners plus the holds, an owner is exactly an entry that indexes the page, a present entry points at the indexed page, and no frame is both free and in use |
| `CowRuns.Run` | sys/mm/page_man.c:54-67 | References are conserved over every run, for the code as it stands |
| `CowRuns.DoOrdinary` | sys/mm/page_man.c:54-67 | No step loses or invents a frame: those in the pool and those of managed pages together stay the same |
| `CowRuns.RunOrdinary` | sys/mm/page_man.c:54-67 | No run loses or invents a frame: a page that is left by its last reference is back in the pool |
| `CowRuns.DoSnaps` | sys/mm/page_man.c:69-90 | A step leaves every `snap_count` equal to the number of `PF_SNAPSHOT` owners plus in-flight holds, and never panics on a contradiction, unless it takes the sole-holder branch as written |
| `CowRuns.RunSnaps` | sys/mm/page_man.c:79-89 | The consistency panics are unreachable over every run: of the repaired kernel, and of the kernel as written as long as the sole-holder branch is not taken |
| `CowRuns.DoReadOnly` | sys/mm/page_man.c:106-130 | After every step outside message passing a present entry is writable exactly when its page has no snapshot |
| `CowFrames.DoFrames` | sys/mm/page_man.c:167-173 | A step stops for want of a frame if and only if it takes one and none is free: a fresh page, a copied page of a message, a write to a page that is absent or has a snapshot and another holder. It never takes more than one. As written or with the flag update |
| `CowFrames.FrameIsEnough` | sys/mm/page_man.c:132-215 | With a free frame, or taking none, every step outside message passing is finished by the kernel with the flag update |
| `CowFrames.FramesAreEnough` | sys/mm/page_man.c:132-215 | So is every run with as many free frames as steps that may take one, and no more than those are gone at its end |
| `CowFrames.GroupBelowRefs` | sys/mm/page_man.c:172-214 | A page that is copied for a writer always stays with somebody else: it does not go back to the pool |
| `CowFrames.ZeroBorrowed` | sys/mm/page_fault.c:41-47 | A page that was never touched has the zero page, which is never its own |
| `CowFrames.NeedsNext` | sys/mm/copy.c:147-182 | Whether the second page of a write needs a frame once the first has one, also if both are one page |
| `CowFrames.MapWritable` | sys/mm/aspace.c:140-152 | `address_space_map` enters the page writable exactly if it has no snapshot or no other holder |
| `CowCover.DoWithin` | sys/mm/aspace.c:206-219 | No step puts an entry where no VMA is, or takes a VMA from under an entry |
| `CowCover.RunWithin` | sys/mm/aspace.c:206-219 | So no run does |
| `CowCover.FaultFinds` | sys/mm/aspace.c:111-121 | The handler looks up the address, the model its page: the same answer, for the VMA list of the space |
| `CowCover.CopyValidates` | sys/mm/aspace.c:442-458 | `validate_range` over the bytes of a user copy says yes exactly if the one or two pages are covered |
| `CowCover.RemoveTied` | sys/mm/aspace.c:357-425 | `remove_vma_range` takes from the VMA list exactly the pages that the unmap steps take from the covered ones |
| `CowCover.InsertTied` | sys/mm/aspace.c:56-79 | A VMA put into the list at any place is exactly the pages of its range |
| `CowCover.RoomIsGap` | sys/mm/aspace.c:60-69 | For a range that is not empty, among VMAs that are not empty, no page of it is covered if and only if no VMA is in its way |
| `CowCover.GapRoom` | sys/mm/aspace.c:60-69 | Where no VMA is in the way no page is covered, whatever is empty |
| `CowCover.EmptyInTheWay` | sys/mm/aspace.c:60-69 | Not the other way round: an empty VMA covers no page and is in the way, and a VMA is in the way of an empty range inside it |
| `CowInvariants.SnapsBelowRefs` | sys/mm/page_man.c:167-169 | `snap_count` never exceeds `ref_count` |
| `CowInvariants.SoleSnapOwner` | sys/mm/page_man.c:159-165 | Who takes the sole-holder branch is the only owner and the only snapshot of the page, and the page is not the zero page |
| `CowInvariants.UnshareSnaps` | sys/mm/page_man.c:159-165 | `unshare_page` never panics in a consistent state, and leaves the counts right if and only if the sole-holder branch was not taken, or updates the flags |
| `CowInvariants.UnshareRefInv` | sys/mm/page_man.c:132-215 | Whatever the flags say, `unshare_page` conserves references, moves whole groups and keeps present entries pointing at indexed pages |
| `CowInvariants.MoveSnapCounts` | sys/mm/page_man.c:174-212 | When a group leaves for a copy, every page has as many snapshot owners as its new count says: none for the copy, one less for the old page if a snapshot left |
| `CowInvariants.UnassignRefInv` | sys/mm/aspace.c:42-54 | `unassign_page` takes exactly one reference with the entry, the owner and the page-table entry |
| `CowInvariants.DetachSnaps` | sys/mm/page_man.c:69-90 | Giving up a snapshot keeps the counts equal to the owners |
| `CowInvariants.AttachSnaps` | sys/mm/aspace.c:171-190 | Taking a snapshot keeps the counts equal to the owners |
| `CowInvariants.UnassignReadOnly` | sys/mm/page_man.c:77-85 | When the last snapshot goes, every remaining owner may write again, and not before |
| `CowAsWritten.SoleBranchThenForkPanics` | sys/mm/page_man.c:195-201 | The branch as written is wrong: write as the sole holder, fork, write again, and the kernel panics, from every state in which that can happen |
| `CowAsWritten.ChildAlone` | sys/mm/page_man.c:159-165 | Such a state exists: a child left alone on the page of a parent that has written |
| `CowAsWritten.AsWrittenCounts` | sys/mm/page_man.c:159-165 | As written, a step leaves the snapshot counts right if and only if it does not run the sole-holder branch |
| `CowAsWritten.HoldKeepsReadOnly` | sys/mm/copy.c:68-72 | `map_from_user` raises `snap_count` alone: the read-only guarantee survives it if and only if the page already had a snapshot or is mapped nowhere |
| `CowAsWritten.DropKeepsReadOnly` | sys/mm/copy.c:128-136 | `page_list_free` never gives write permission back: the guarantee survives it if and only if another snapshot remains or the page is mapped nowhere |
| `CowAsWritten.MappedAlone` | sys/mm/copy.c:68-72 | A state in which a hold breaks the guarantee |
| `CowAsWritten.HeldOnce` | sys/mm/copy.c:128-136 | A state in which giving the hold up breaks it |
| `CowAsWritten.SendingPanics` | sys/mm/syscall.c:99-105 | Sending a page stops the kernel if and only if it is device memory |
| `CowAsWritten.DeviceMapped` | sys/mm/syscall.c:99-105 | A state with a page of device memory, where it does |
| `CowFork.AsSnapshot` | sys/mm/syscall.c:23-40 | A fork sends every page of the current space but device memory, whatever the order of the index, and changes nothing else; it never panics |
| `CowFork.SendPage` | sys/mm/syscall.c:72-112 | `sendpage` is refused exactly if the range is not aligned, the first page of the source is in no VMA, or the VMA list of the destination has no place for the new one; stops the kernel exactly if it is not refused and a page of the range is device memory; and otherwise sends the populated pages, to the address asked for or to the lowest gap, with pages and VMA lists still in agreement |
| `CowFork.PlaceVma` | sys/mm/syscall.c:90-99 | The new VMA gets in exactly if the address asked for is aligned and in the bounds and no VMA is in the way, or, without an address, if there is a gap; then it is in the lowest one |
| `CowFork.SendPages` | sys/mm/syscall.c:99-105 | The loop over the pages, once the VMA is there |
| `CowFork.DeviceSent` | sys/mm/syscall.c:99-105 | A state with its VMA lists, and a call that is not refused and stops the kernel |
| `CowFork.CopiesAre` | sys/mm/syscall.c:99-105 | Page by page, what is sent is what was there; a space sent into its own gap d pages up gets its first d pages over and over |
| `CowFork.SentReads` | sys/mm/syscall.c:23-40 | What was sent reads as the original, byte for byte, and everybody else reads what they read before |
| `CowFork.SentAlone` | sys/mm/syscall.c:23-40 | Nobody shares stores with what was sent: no later store of either side is seen by the other |
| `CowKernel.Kernel.ManagePhysPage` | sys/mm/page_man.c:23-44 | One more reference of a managed page, or the first of a new one |
| `CowKernel.Kernel.UnrefPage` | sys/mm/page_man.c:54-67 | One reference less; with the last one the page is not managed any more, and is in the pool unless it is device memory |
| `CowKernel.Kernel.RestoreOwners` | sys/mm/page_man.c:77-85 | Gives write permission to every present entry of the owners, or reports an owner that is still a snapshot |
| `CowKernel.Kernel.SharePage` | sys/mm/page_man.c:106-130 | Takes write permission from every present entry of the owners, or reports device memory |
| `CowKernel.Kernel.UnassignPage` | sys/mm/aspace.c:42-54 | Whole new state of `unassign_page`, with its panic |
| `CowKernel.Kernel.AssignPage` | sys/mm/aspace.c:157-192 | Whole new state of `address_space_assign_page_no_addr_check`: both flag panics, the replaced entry, the new owner, the first snapshot |
| `CowKernel.Kernel.UnsharePage` | sys/mm/page_man.c:132-215 | Whole new state of `unshare_page` and all its panics, with the branch as written or with the flag update; out of frames exactly if none is free and the page has a snapshot and another holder, and then nothing has changed |
| `CowKernel.Kernel.MoveTogether` | sys/mm/page_man.c:174-192 | A `PF_SHARED` writer takes all `PF_SHARED` owners along to the copy |
| `CowKernel.Kernel.MoveAlone` | sys/mm/page_man.c:193-212 | A snapshot moves to the copy alone; with the last snapshot the others may write again, and an owner that is not `PF_SHARED` is a panic |
| `CowKernel.Kernel.AddressSpaceMap` | sys/mm/aspace.c:123-155 | For any address: -2 unaligned, -1 in no VMA, 0 with no page there, and then nothing changes; otherwise the whole new state, with the sole holder taking the page over and the panic on a present entry |
| `CowKernel.Kernel.PageFault` | sys/mm/page_fault.c:26-65 | Whole new state of the handler at any address: uncovered, never touched (zero page), snapshotted, or just absent; out of frames exactly if none is free and it is a write in a VMA to a page that is absent or has a snapshot and another holder |
| `CowKernel.Kernel.CopyToUserSimple` | sys/mm/copy.c:138-184 | Refused if and only if a byte is not covered; out of frames if and only if fewer are free than its pages need; otherwise exactly the bytes [buf, buf+len) change, for exactly those who share the pages, across a page boundary and on absent or snapshotted pages. Out of frames, nothing has changed if the first page found none, else exactly the part on the first page. As written too, if no page written to would lose its count |
| `CowKernel.Kernel.CopyFromUserSimple` | sys/mm/copy.c:186-218 | Returns exactly the bytes the address space reads there, zeros where no page is |
| `CowUser.ReadBack` | sys/mm/copy.c:138-218 | What was written by `copy_to_user_simple` is read back, even when both pages of the range are the same page |
| `CowUser.OthersUnmoved` | sys/mm/copy.c:138-184 | No other snapshot sees the write, in another space or in the same one |
| `RadixTrie.HistoryIrrelevant` | sys/lib/binradix.c:67-155 | Two sequences of fresh inserts and present deletes that end in the same map end in the same tree, up to bits no lookup compares |
| `RadixTrie.CanonicalRoot` | sys/lib/binradix.c:67-155 | The map of keys to data decides the shape of the tree |
| `RadixTrie.Canonical` | sys/lib/binradix.c:67-155 | The same for every subtree, by its offset |
| `RadixTrie.InsertRoot` | sys/lib/binradix.c:67-119 | Inserting a fresh key adds exactly that key and keeps the tree well formed: the root never splits |
| `RadixTrie.InsertKeeps` | sys/lib/binradix.c:73-119 | A split at the highest differing bit, or a new leaf, adds exactly the key below any node |
| `RadixTrie.DeleteKeeps` | sys/lib/binradix.c:124-155 | Deleting a present key removes exactly that key; the sibling takes the parent's place and every branch below the root keeps two children |
| `RadixTrie.InsertUndone` | sys/lib/binradix.c:67-155 | Inserting a fresh key and deleting it again gives the very same tree |
| `RadixTrie.NodeCount` | sys/lib/binradix.c:67-155 | A subtree with n keys has exactly 2n - 1 nodes, and is at most as deep as it has bits |
| `RadixTrie.RootCount` | sys/lib/binradix.c:51-65 | n keys take at most 2n nodes, and a lookup visits at most 65 |
| `RadixTrie.WalkIsMap` | sys/lib/binradix.c:165-181 | The visits are exactly the keys with data that is not NULL |
| `RadixTrie.WalkIncreases` | sys/lib/binradix.c:165-181 | The visits are in strictly increasing order of keys, so each is made once |
| `RadixTrie.DoRefines` | sys/lib/binradix.c:67-155 | Every operation on the tree is that operation on the map |
| `RadixTrie.BincmpBit` | sys/lib/binradix.c:35-43 | `bincmp` has exactly the bits in which the two words differ between its two offsets |
| `RadixTrie.SideEmpty` | sys/lib/binradix.c:127-140 | The root lacks the child on the side of a key exactly if no key has the same first bit |
| `RadixTrie.SideSole` | sys/lib/binradix.c:96-105 | That child is the leaf of the key, of 64 bits, exactly if the key is there and no other key has the same first bit |
| `RadixTree.TwiceIntoEmpty` | sys/lib/binradix.c:96-105 | Any key inserted twice into an empty tree makes the code shift by 64 |
| `RadixTree.DeleteFromEmpty` | sys/lib/binradix.c:127-140 | Deleting any key from an empty tree meets the missing child |
| `RadixTree.RadixTree.Find` | sys/lib/binradix.c:51-65 | The datum of the key in the map of the linked nodes, or NULL |
| `RadixTree.RadixTree.Insert` | sys/lib/binradix.c:67-119 | On the linked nodes: a fresh key is added as the trie says, a present one is reported and changes nothing; the code shifts a word by 64 if and only if the key is there and no other key has its first bit |
| `RadixTree.RadixTree.SplitHere` | sys/lib/binradix.c:78-95 | The two writes to the old node and the two new nodes are the split of the trie, and touch no other node |
| `RadixTree.RadixTree.Delete` | sys/lib/binradix.c:124-155 | On the linked nodes: the key goes, its datum is returned; an absent key changes nothing; the code follows a missing child if and only if no key has the same first bit |
| `RadixTree.RadixTree.MergeHere` | sys/lib/binradix.c:143-153 | Copying the sibling into the parent, with the bits under the mask, is the merge of the trie |
| `RadixTree.RadixTree.ForEach` | sys/lib/binradix.c:165-181 | The data visited, in order, are those of the walk |
| `Buddy.EveryByteOnce` | libc/malloc.c:43-143 | Every byte of every page is in exactly one block, and that block is handed out or in the free list of its order |
| `Buddy.AllocationsApart` | libc/malloc.c:75-110 | Two live blocks share no byte, and none leaves its page |
| `Buddy.BuddyHeader` | libc/malloc.c:127-128 | The header `free` looks at is there, and its flags say exactly whether the buddy is a free block of the same order |
| `Buddy.ScribbleKeeps` | libc/malloc.c:127-128 | Whatever a program writes into its blocks, even a forged header, does not mislead the allocator |
| `Buddy.TakeKeeps` | libc/malloc.c:102-109 | Handing out the head of a list keeps tiling, lists and headers consistent |
| `Buddy.FreeKeeps` | libc/malloc.c:141-142 | So does putting a block back |
| `Buddy.SplitKeeps` | libc/malloc.c:43-63 | So does splitting: the two halves are buddies, and both are in the next lower list |
| `Buddy.MergeKeeps` | libc/malloc.c:129-140 | So does merging with the buddy, wherever it is in its list |
| `Buddy.NewPageKeeps` | libc/malloc.c:89-96 | So does a new page from the kernel |
| `Buddy.EmptyLists` | libc/malloc.c:85-88 | The search finds nothing if and only if no block of the order or a larger one is free |
| `Buddy.TwoPages` | libc/malloc.c:127-140 | Two pages that are buddies, the first handed out whole, the second free: freeing the first runs past the lists |
| `Buddy.FreeUndoesSplit` | libc/malloc.c:127-140 | Either half of a split, given back next to the other, makes the block that was split |
| `BuddyTiling.BuddyMoves` | libc/malloc.c:127 | Flipping bit k of an aligned address gives the other half of the aligned pair, never the block itself |
| `BuddyTiling.BuddyIsStart` | libc/malloc.c:127-128 | The buddy of a block of order below 12 starts a block of the same page, and not a larger one |
| `BuddyTiling.BuddyBack` | libc/malloc.c:127 | Each is the buddy of its buddy |
| `BuddyTiling.SplitTiling` | libc/malloc.c:43-63 | Splitting keeps the tiling of every page, without gap or overlap |
| `BuddyTiling.MergeTiling` | libc/malloc.c:129-140 | Merging keeps it too |
| `BuddyTiling.PageTiling` | libc/malloc.c:89-96 | A new page joins the tiling as one block |
| `BuddyTiling.OrderInRange` | libc/malloc.c:85 | The order computed from the size is 5 to 13, and 13 exactly for 4096 bytes |
| `BuddyLists.PushLists` | libc/malloc.c:65-73 | Pushing keeps every list doubly linked, `prev` being the address of the incoming pointer |
| `BuddyLists.UnlinkLists` | libc/malloc.c:129-132 | Unlinking from any place through `prev` takes out exactly that element |
| `Buddy.Allocator.Insert` | libc/malloc.c:65-73 | The stores of `insert` are the push on the list |
| `Buddy.Allocator.Split` | libc/malloc.c:43-63 | The stores of `split` replace the head of the list by its two halves |
| `Buddy.Allocator.Malloc` | libc/malloc.c:75-110 | A block of the right order with the requested bytes after its header, that was free, and nothing else becomes live; a page is asked for exactly if no block of the order or a larger one is free; NULL exactly if the kernel is asked and refuses; the one size for which the code runs past its lists is named |
| `Buddy.Allocator.Free` | libc/malloc.c:111-143 | Ignored, unmapped or returned, exactly when. Returned next to a buddy that was free at its order, the two are one free block of the next order at the lower address; otherwise the blocks stay; nothing else changes. Runs past the lists exactly for a whole page next to a header that looks free |
| `Buddy.Allocator.MergeBack` | libc/malloc.c:129-140 | The buddy leaves its list and the lower of the two heads the block of the next order |
| `PageTables.SelfMapTrick` | sys/mm/paging.c:29-44 | Through slot 256 the processor reaches, at the address computed, the very entry that a walk through the tables finds, at each of the four levels |
| `PageTables.PteSlots` | sys/mm/paging.c:29-44 | The computed address walks through slot 256 once for every level left out and then like the original address |
| `PageTables.GetPteAddr` | sys/mm/paging.c:29-44 | The loop and shifts compute that address, for all addresses and levels |
| `PageTables.WalksAgree` | sys/mm/page_table.c:20-36 | The explicit walk finds the same entry as the address through slot 256, or none exactly when there is none, unless a large page is on the way |
| `PageTables.LeafWritten` | include/sys/mm.h:110-139 | Writing the last entry of a walk changes the translation of exactly the addresses of that page, and the rights of no others |
| `PageTables.NewTables` | sys/mm/paging.c:55-62 | A new table below an absent entry changes no translation, no rights and no other table |
| `PageTables.NewTableSound` | sys/mm/paging.c:55-62 | The new table is separate from all others and from the free frames, and its entries are absent |
| `PageTables.PermitsIs` | include/sys/mm.h:45-47 | An access is let through exactly if the address is mapped and the entries of all tables on the way let it through |
| `PageTables.LeafRights` | sys/mm/paging.c:76-79 | The rights of a page whose last entry is written: those of the entry that all entries above let through |
| `PageTables.RightsMapped` | sys/mm/paging.c:46-80 | What `map_page` has granted, in terms of the entries that were there before and the flags |
| `PageTables.EntryLets` | sys/mm/paging.c:76-79 | Of write and user permission the last entry has what the flags have, for all three sizes |
| `PageTables.LinkLets` | sys/mm/paging.c:55-57 | A link to a new table lets writes through whatever the flags, and user programs as the flags say |
| `PageTables.UnmapUndoesMap` | sys/mm/paging.c:71-88 | Mapping a page that was not mapped and unmapping it leaves every translation and all rights as they were |
| `PageTables.BlankSound` | sys/mm/aspace.c:97-109 | A new root, which maps only itself, has all the page-table code relies on, and maps nothing else |
| `PageTables.Paging.GetPteAddrChecked` | sys/mm/paging.c:46-70 | Returns the address of the entry with all tables there, panics exactly if a large page is above it, and returns none exactly if, without `create`, a table is missing; no translation and no rights change, no memory unless a table was missing, and a link it makes lets writes through, and user programs as the flags say |
| `PageTables.Paging.NewTable` | sys/mm/paging.c:52-62 | The store of the link and the clearing through the window create one table and change no translation |
| `PageTables.Paging.MapPage` | sys/mm/paging.c:71-80 | For pages of 4 kB, 2 MB and 1 GB: the page then translates to the frame and may be written and used by programs exactly as the flags and the entries that were above it say; every other address leads where it led, with the rights it had. It panics exactly if a large page is above the entry, or if the entry is present (for a large page, an existing table counts), and then nothing has changed |
| `PageTables.Paging.Unmap` | sys/mm/paging.c:82-88 | The page translates to nothing, every other address as before and with the same rights; panics exactly if a large page is on the way, and then nothing has changed |
| `PageTables.Paging.GetEntry4k` | sys/mm/page_table.c:20-36 | The loop finds the entry of the explicit walk |
| `PageTables.Paging.UnmapOther` | sys/mm/page_table.c:38-47 | The same as `unmap` for an address space that is not the current one |
| `IpcTheorems.StepSafe` | sys/ipc/uport.c:111-351 | Every system call on ports, every wait and every switch keeps all of the following |
| `IpcTheorems.Run` | sys/ipc/uport.c:111-351 | So does every run of them |
| `IpcTheorems.InitialSafe` | sys/ipc/uport.c:51-54 | The state without ports, with only the current task running, has them |
| `IpcTheorems.FirstInFirstOut` | sys/ipc/uport.c:127-150 | The messages popped from a queue are a prefix of those sent to it, without repetition, and the rest are still in it |
| `IpcTheorems.AnswerMatchesQuestion` | sys/ipc/uport.c:309-336 | What a cookie collected is what was answered to the one handle that its one message became |
| `IpcTheorems.OnlyOnce` | sys/ipc/uport.c:216-252 | An open server handle was never answered, an open cookie never collected |
| `IpcTheorems.PoppedOnlyOnce` | sys/ipc/uport.c:111-214 | A message that still exists was never popped |
| `IpcTheorems.RespondReaches` | sys/ipc/uport.c:216-252 | `respond` makes the answer available to the one cookie whose message created the handle |
| `IpcTheorems.DataDecided` | sys/ipc/uport.c:111-351 | The type and the state of a handle decide what its `data` points to |
| `IpcResults.PopAnswers` | sys/ipc/uport.c:111-150 | Which answer: a message exactly if the queue of the handle is not empty |
| `IpcResults.PopGives` | sys/ipc/uport.c:155-214 | The server is handed the buffer of the first message as it was sent, the process id of its sender, and a new handle of its own for it; the sender is established, and a client may now write |
| `IpcResults.ConnectSends` | sys/ipc/uport.c:254-274 | The message comes last into the queue of the port with the buffer given, from the descriptor returned, which is new; the port is then readable |
| `IpcResults.RequestSends` | sys/ipc/uport.c:276-307 | The same for a request: into the queue of the connection, from a new cookie |
| `IpcResults.RespondAnswers` | sys/ipc/uport.c:216-252 | Answers exactly through an open handle of its own, once, with what it was given |
| `IpcResults.ReceivedIs` | sys/ipc/uport.c:309-336 | What a client receives is what was answered to the handle that its own message became |
| `IpcResults.OpenPortGives` | sys/ipc/uport.c:74-109 | A free port number becomes a new handle with an empty queue |
| `IpcResults.DupGives` | sys/ipc/uport.c:338-351 | The duplicate is established and asks the same server; only a connection not taken yet has to wait |
| `IpcResults.ReadyMeans` | sys/ipc/uport.c:389-436 | A descriptor is available exactly if the next call on it goes through: pop for ports and connections, get_response for cookies, request for clients, respond for the cookies of a server; nothing else ever is |
| `IpcResults.StepGrows` | sys/ipc/uport.c:111-351 | What was once sent, taken, answered or collected stays so with every step |
| `IpcResults.RunGrows` | sys/ipc/uport.c:111-351 | So with every run |
| `IpcResults.ArrivesAsSent` | sys/ipc/uport.c:155-167 | However much happens in between, who pops a message is handed the buffer that was sent |
| `IpcResults.AnswerArrives` | sys/ipc/uport.c:309-336 | And who collects gets the answer that was given |
| `IpcTheorems.NoLostWakeup` | sys/ipc/port.c:209-297 | Who sleeps in `wait_on` awaits only unavailable descriptors of its own, each with its `waited_rw` bit set, and is not in the run queue |
| `IpcTheorems.WokenByTheStep` | sys/sched.c:181-186 | The step that makes available what a sleeping task awaits also puts that task into the run queue |
| `IpcTurns.RoundRobin` | sys/sched.c:70-106 | The first of the queue runs next, and a running task comes behind all that were queued |
| `IpcTurns.StepPushes` | sys/sched.c:181-186 | Any other step leaves the queue as it is, or puts one woken task in front |
| `IpcTurns.TurnComes` | sys/sched.c:70-106 | Every queued task gets its turn, in every run with more switches than tasks before it and wakeups together |
| `IpcTurns.SwitchedTo` | sys/sched.c:70-106 | With switches alone, whoever is at place i of the queue runs after i + 1 of them |
| `IpcBits.BitsKept` | sys/ipc/port.c:185-297 | A descriptor carries a `waited_rw` bit only while its owner is in `wait_on` for it: every step keeps that |
| `IpcBits.BitsRun` | sys/ipc/port.c:185-297 | So does every run |
| `IpcWaits.ReaderWoken` | sys/ipc/uport.c:271-272 | Waking the reader of the one descriptor that became readable keeps all sleepers justified and the run queue without repetition |
| `IpcWaits.WriterWoken` | sys/ipc/uport.c:207-208 | The same for the writer |
| `IpcRuns.ConnectInv` | sys/ipc/port.c:41-76 | `port_connect` keeps the invariant of handles, messages, queues and answers |
| `IpcRuns.PopInv` | sys/ipc/uport.c:111-214 | So does `pop_request`, on a port and on a connection |
| `IpcRuns.RequestInv` | sys/ipc/port.c:78-126 | So does `request` on an established connection |
| `IpcRuns.RespondInv` | sys/ipc/uport.c:216-252 | So does `respond` |
| `IpcRuns.GetResponseInv` | sys/ipc/port.c:128-160 | So does `get_response` |
| `IpcRuns.DupInv` | sys/ipc/port.c:299-333 | So does `dup0` |
| `IpcTheorems.WaitOnSafe` | sys/ipc/port.c:209-297 | So does a turn of the loop of `wait_on`, with everything else about waiting |
| `IpcKernel.Ipc.OpenPort` | sys/ipc/uport.c:74-109 | Whole new state and result of `open_port` |
| `IpcKernel.Ipc.Connect` | sys/ipc/port.c:41-76 | Whole new state and result of `port_connect` and `uport_connect`, the server being woken |
| `IpcKernel.Ipc.PopRequest` | sys/ipc/uport.c:111-214 | Whole new state and result of `pop_request` in all cases: the new handle, the buffer and the process id of the sender |
| `IpcKernel.Ipc.Ask` | sys/ipc/uport.c:276-307 | Whole new state and result of `request` and `uport_request` on any descriptor; exactly on a connection that the server has not taken yet, the connection itself is freed while its descriptor stays |
| `IpcKernel.Ipc.Respond` | sys/ipc/uport.c:216-252 | Whole new state of `respond`, the client being woken |
| `IpcKernel.Ipc.GetResponse` | sys/ipc/uport.c:309-336 | Whole new state and result of `get_response` and `uport_get_response` |
| `IpcKernel.Ipc.Dup` | sys/ipc/uport.c:338-351 | Whole new state and result of `dup0` and `uport_dup` |
| `IpcKernel.Ipc.FdsCheck` | sys/ipc/port.c:185-207 | The loop keeps exactly the available descriptors and sets the bit on all of them |
| `IpcKernel.Ipc.WaitOn` | sys/ipc/port.c:230-290 | One turn of the loop: what is available, with all bits cleared, or else the caller waits with all bits set |
| `IpcKernel.Ipc.Schedule` | sys/sched.c:70-106 | A running task goes to the back of the run queue and the first one, or the idle task, takes over |
| `VmaList.AddressSpace.RemoveRange` | sys/mm/aspace.c:357-425 | Exactly [base, base+len) is no longer covered, exactly the entries in the range are unassigned, and list and index stay sorted, disjoint and in agreement, over all five cases; only an unaligned range panics |
| `VmaList.RemovedCovers` | sys/mm/aspace.c:365-423 | What the loop leaves covers exactly the addresses outside the range that were covered |
| `VmaList.RemovedListed` | sys/mm/aspace.c:365-423 | and lists exactly the entries outside the range that were listed |
| `VmaList.RemovedKeeps` | sys/mm/aspace.c:365-423 | sorted, disjoint, and each entry in the VMA that contains it |
| `VmaList.AddressSpace.FindByVaddr` | sys/mm/aspace.c:111-121 | Finds a VMA containing the address if and only if there is one |
| `VmaList.AddressSpace.ValidateRange` | sys/mm/aspace.c:442-458 | Zero if and only if the first address and every address of the range are covered, however many VMAs that takes; so an empty range is valid exactly inside a VMA |
| `VmaList.AddressSpace.AddVma` | sys/mm/aspace.c:56-79 | Succeeds if and only if the range is free, and then puts the VMA at the place that keeps the list sorted |
| `VmaList.AddressSpace.InsertAny` | sys/mm/aspace.c:325-355 | The lowest address with a free gap of that length that fits below the top or in front of a VMA; fails exactly if there is none |
| `VmaList.AddressSpace.AssignPage` | sys/mm/aspace.c:206-219 | Indexes the page if a VMA covers the address. Without one it reports success and does nothing: `PTR_IS_ERR` takes NULL for an error, and the error is 0 |
| `VmaList.AddressSpace.SplitPages` | sys/mm/aspace.c:384-406 | The loop of the split deals the entries out to the two sides and unassigns those in the range |
| `VmaList.AddressSpace.DestroyAs` | sys/mm/aspace.c:433-440 | Panics if and only if a VMA lies outside the bounds or reaches beyond them; otherwise nothing is left |
| `VmaList.WhatIsLeft` | sys/mm/aspace.c:433-440 | Removing everything between the bounds leaves a VMA exactly if one reaches the top or is an empty one at the very bottom |
| `SplayTree.Splay` | sys/lib/splay.c:74-119 | Keeps the elements and their order, and brings the element, or a neighbour of where it would be, to the root |
| `SplayTree.Finish` | sys/lib/splay.c:114-118 | Hanging the middle tree between the two sides gives one tree with all elements in order |
| `SplayTree.LinkRight` | sys/lib/splay.c:93-96 | A step of the loop keeps the three trees apart, in order, and their union the same |
| `SplayTree.FinalOrder` | sys/lib/splay.c:114-118 | Everything left of the root is smaller than the element looked for, everything right of it larger |
| `SplayTree.SplaySet.Insert` | sys/lib/splay.c:121-154 | The set gains exactly the element; reported if an equal one was there |
| `SplayTree.SplaySet.Delete` | sys/lib/splay.c:156-177 | The set loses exactly the element |
| `SplayTree.SplaySet.Find` | sys/lib/splay.c:212-222 | Found if and only if it is in the set, which stays the same |
| `SplayTree.SplaySet.Prev` | sys/lib/splay.c:179-193 | The result is the greatest smaller element if and only if the element is in the set, or the set is empty |
| `SplayTree.SplaySet.Next` | sys/lib/splay.c:195-210 | The result is the least greater element if and only if the element is in the set, or the set is empty |
| `SplayTree.PrevResult` | sys/lib/splay.c:186-192 | Why: an absent element may itself have ended next to the root on either side |
| `FileBlocks.FileSystem.Write` | bin/fs/fs.c:375-431 | Splices the bytes into the file at its position, over first, middle and last block, and leaves every other file as it was; fails exactly if it needs more blocks than are free, and then no file changes; writes past the inode exactly if it needs more than the inode can list and those are free |
| `FileBlocks.FileSystem.Read` | bin/fs/fs.c:336-372 | Returns the bytes of the file from its position, as many as asked for or as there are, and touches nothing of the buffer behind them |
| `FileBlocks.FileSystem.AddBlocks` | bin/fs/fs.c:389-405 | The new blocks were free, are marked, and are distinct from all blocks of all files; runs out exactly if too few are free, and past the 15 of the inode exactly if it gets that far |
| `FileBlocks.FileSystem.GetFreeData` | bin/fs/fs.c:94-103 | The first free block, or none exactly if none is free |
| `FileBlocks.FileSystem.SetDataBitmap` | bin/fs/fs.c:112-118 | Changes one entry of the bitmap on the disk |
| `FileBlocks.FileSystem.GetData` | bin/fs/fs.c:211-216 | Copies bytes of one block to one place of the buffer |
| `FileBlocks.FileSystem.WriteData` | bin/fs/fs.c:217-223 | Changes the given bytes of one block and no other |
| `FileBlocks.WrittenAll` | bin/fs/fs.c:406-428 | A finished write is the splice of the flat contents |
| `FileBlocks.WrittenElsewhere` | bin/fs/fs.c:406-428 | Files with other blocks are not touched |
| `FileBlocks.SpliceReadsBack` | bin/fs/fs.c:336-431 | What was spliced in at a position is there at that position, and the rest is as before |
| `Parser.ParseUndoesPrint` | bin/sbush/parse.c:40-171 | However a pipeline is written, in any mix of bare characters, backslashes, single and double quotes, folded lines and spaces, the line is read back as its commands and arguments, with the right counts. A command may be empty, but in front of the first bar it is lost; only a negative byte in front of everything is refused |
| `Parser.ReadPipes` | bin/sbush/parse.c:61-163 | The same from any state between two commands, by the number of commands |
| `Parser.ReadArgs` | bin/sbush/parse.c:88-123 | An argument list is read into the last command, argument by argument |
| `Parser.ReadWord` | bin/sbush/parse.c:82-158 | However a word is written, what is collected is what it means |
| `Parser.ReadBody` | bin/sbush/parse.c:63-81 | A quoted text is read up to its closing quote, a backslash taking the next character as it is, and a folded line nothing |
| `Parser.FirstEmpty` | bin/sbush/parse.c:117-130 | An empty command in front of the first bar leaves nothing behind |
| `Parser.AnyText` | bin/sbush/parse.c:61-158 | Every text at all can be written as an argument |
| `Parser.LineFails` | bin/sbush/parse.c:43-171 | The code gives up exactly on an empty input, one that begins with a negative byte, and one with a quote left open or a backslash or quoted text that runs into a negative byte or the end |
| `Parser.ReadFails` | bin/sbush/parse.c:61-171 | The same from every state of the loop |
| `Parser.LineNever` | bin/sbush/parse.c:43-162 | The code never stops exactly on the inputs that never finish the line: no newline or zero byte outside quotes, all quotes closed, no backslash at the end, no negative byte where one stops it |
| `Parser.ReadNever` | bin/sbush/parse.c:61-162 | The same from every state of the loop, by the place in or out of quotes |
| `Parser.LineLacksNewline` | bin/sbush/parse.c:43-162 | Put differently, on the inputs that are no command, but are one with a newline after them |
| `Parser.OneLetter` | bin/sbush/parse.c:140-162 | One letter and no newline is such an input |
| `Parser.Parse` | bin/sbush/parse.c:40-171 | The loop computes that reading for every input, with all its failures |
| `Parser.Switch` | bin/sbush/parse.c:82-159 | So does one turn of it outside quotes |
| `Parser.InQuotes` | bin/sbush/parse.c:63-81 | and inside quotes |
| `Parser.Str.Append` | bin/sbush/str.c:26-39 | The chunked string gains one character |
| `Parser.Str.Dump` | bin/sbush/str.c:40-52 | The copy is the whole text and a zero byte |

## Left out

- Hardware and boot: entry and switch code, descriptor tables, interrupt controllers, timer, devices. A section with interrupts disabled is one atomic step; error returns that leave them disabled are not modelled. No TLB: `invlpg` has no effect here, and `unmap` of the current space is the entry becoming absent.
- Pages are named by their physical addresses and owner lists are sets, so that loops over owners visit them in any order; counters do not wrap at 64 bits.
- Every VMA is taken to be writable, as all are but the program image of init (`sys/main.c:92-93`). The code gives write permission back without looking at the flags of the VMA, and so does the model; the branch of the fault handler for a VMA without flags is left out.
- A user access faults only if the present page-table entry does not allow it: that is the processor's part of `CowRuns.Legal`, the rest is what callers in the kernel guarantee.
- CowRefinement.LazyRefinesEager: steps of `map_from_user`, `map_to_user` and `page_list_free` are not among its steps, since `map_from_user` raises `snap_count` without taking write permission away; they are covered by the reference properties and by CowAsWritten. Device memory changes by stores only, not by itself.
- CowKernel.Kernel.PageFault: killing the process that touches an uncovered address leaves memory as it is.
- CowKernel.Kernel.CopyToUserSimple: of the kernel as written only where no page written to has a sole holder and two pages of the range differ; otherwise the counts are wrong afterwards, as CowAsWritten says.
- CowFork.AsSnapshot: the VMAs of the new space are a premise (`VmaList` models their insertion), and the entries are visited in any order.
- CowFork.SendPage: descriptor checks are left out; the state after a stop is not described.
- CowRuns.Do: reserved and hardware ranges, `address_space_assign_addr_range`, and `map_from_user` as a transfer of data.
- VmaList.AddressSpace.RemoveRange: the VMA list is a sequence, so `prev` is not modelled (the split sets it to the wrong slot), nor the flags of the new VMA (the split leaves them unset); addresses do not wrap at 64 bits. What `unassign_page` does to pages is in CowKernel.
- VmaList.AddressSpace.DestroyAs: freeing the page tables.
- RadixTree.RadixTree.ForEach: the visitor only looks at the data; its calls are recorded.
- RadixTree.RadixTree.Insert: `obj_pool` gives fresh nodes.
- Buddy.Allocator.Malloc: the kernel's answer to `sendpage` is a parameter, a multiple of the page size that nothing else uses; sizes within a page of 2^64 are excluded, because rounding up would wrap. Aligned blocks are addresses, headers are records at addresses.
- Buddy.Allocator.Free: a pointer must come from `malloc`; a whole page needs readable memory at the address of its buddy.
- Coalescing over more than one level: the code does not do it.
- PageTables.Paging.MapPage: the table root maps itself through slot 256 and the address lies outside that window; the frames for new tables come from a pool that is large enough; flags have bit 7 clear, as for all callers. The stores of the code itself go through the window without a check of their rights; the execute-disable bit is not set by the code.
- The shared kernel half of page tables, the walk with a visitor and the freeing of tables.
- IpcKernel.Ipc.Ask: no claim about the state once a connection has been freed in use; runs do not go on from there.
- Closing of ports, connections and cookies, and what fails for lack of descriptors or memory: pending connections keep null data, and queued cookies are not told.
- IpcKernel.Ipc.Respond: no claim about its return value, which stays -EFAULT; `map_from_user` never returns null, so the answer `(void *)1` does not occur.
- IpcKernel.Ipc.WaitOn: all descriptors of the sets are open, so the error return in the middle of `fds_check` is left out; descriptor sets are sets of numbers, without their bits; the time limit is not used by the code. `wait_on_port` is left out.
- Handles are numbers from one supply, each in the descriptor table of its owner; a payload is a value (its pages are in the memory model); handles of the server are not duplicated.
- IpcKernel.Ipc.Schedule: exited processes are not in the run queue.
- SplayTree.SplaySet.Insert: elements are ranks, compared as integers, instead of data with a comparison function.
- FileBlocks.FileSystem.Write: no claim about the state once it has written past the inode; the position is not behind the end. When the disk is full the code also stores one byte in front of its bitmap buffer, which is not modelled.
- An inode is a record instead of its bytes on disk; directories, opening, creation and `lseek` are left out; the disk has a sector for every entry of the bitmap.
- Parser.Parse: the lists of commands and arguments are sequences, without the pointer cursors; memory never runs out.
- printf, string routines, ELF and tar, console, shell builtins and the boot services would add only easy members.
