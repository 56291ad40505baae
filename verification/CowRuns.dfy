// Runs of the memory manager: what the kernel does at each system call, page fault
// and user instruction, cut into its indivisible parts.
module CowRuns {
  import opened CowState
  import opened CowInvariants

  datatype Step =
    | Switch(space: nat)
    | Cover(slot: Slot)                                // a VMA now covers the page
    | AssignFresh(slot: Slot)                          // copy_to_user_simple, nothing there yet
    | AssignSnapshot(slot: Slot, from: Slot)           // fork and sendpage, page by page
    | AssignShared(slot: Slot, from: Slot)             // one page in two places, PF_SHARED
    | AssignDevice(slot: Slot, frame: nat)             // device memory
    | Unmap(slot: Slot)                                // the VMA goes, and the entry with it
    | Fault(vaddr: nat, write: bool)                   // page_fault_handler
    | Prepare(vaddr: nat)                              // copy_to_user_simple, page populated
    | Poke(vaddr: nat, offset: nat, data: seq<byte>)   // its memcpy
    | Store(vaddr: nat, offset: nat, value: byte)      // a user store that does not fault
    | HoldCopy                                         // map_from_user, a copied page
    | HoldSnapshot(slot: Slot)                         // map_from_user, a snapshot page
    | MapHeld(slot: Slot, page: nat)                   // map_to_user
    | DropHeld(page: nat)                              // page_list_free, a copied page
    | DropSnapshot(page: nat)                          // page_list_free, a snapshot page

  function Splice(b: Bytes, offset: nat, data: seq<byte>): (r: Bytes)
    requires offset + |data| <= PAGE_SIZE
    ensures forall i | 0 <= i < PAGE_SIZE ::
      r[i] == if offset <= i < offset + |data| then data[i - offset] else b[i]
  {
    b[..offset] + data + b[offset + |data|..]
  }

  // A page list holds the page; the first reference of the zero page is never in a list.
  predicate HeldCopy(s: State, p: nat) {
    p in s.held && (p == s.zero ==> s.held[p] > 1)
  }

  predicate HeldSnap(s: State, p: nat) {
    p in s.heldSnap
  }

  predicate Held(s: State, p: nat) {
    p in s.held || p in s.heldSnap
  }

  // What the callers in the kernel guarantee
  predicate Legal(s: State, step: Step) {
    match step
    case Switch(_) => true
    case Cover(_) => true
    case AssignFresh(slot) => slot in s.covered && slot !in s.index
    case AssignSnapshot(slot, from) =>
      && slot in s.covered && from in s.index && Survives(s, slot, s.index[from].page)
      && !s.index[from].flags.hardware
    case AssignShared(slot, from) =>
      && slot in s.covered && from in s.index && Survives(s, slot, s.index[from].page)
      && s.index[from].flags == SHARED
    case AssignDevice(slot, frame) =>
      slot in s.covered && slot !in s.index && frame in s.device && frame in s.mem
    case Unmap(_) => true
    case Fault(vaddr, write) =>
      var slot := Slot(s.current, vaddr);
      slot in s.ptes ==> write && !s.ptes[slot].writable
    case Prepare(vaddr) => Slot(s.current, vaddr) in s.index && !s.index[Slot(s.current, vaddr)].flags.hardware
    case Poke(vaddr, offset, data) =>
      && Slot(s.current, vaddr) in s.index && offset + |data| <= PAGE_SIZE
      && s.index[Slot(s.current, vaddr)].page in s.pages
      && !(s.pages[s.index[Slot(s.current, vaddr)].page].snaps > 0)
    case Store(vaddr, offset, _) =>
      && Slot(s.current, vaddr) in s.ptes && s.ptes[Slot(s.current, vaddr)].writable
      && s.ptes[Slot(s.current, vaddr)].frame in s.mem && offset < PAGE_SIZE
    case HoldCopy => true
    case HoldSnapshot(slot) => slot in s.index && !s.index[slot].flags.hardware
    case MapHeld(slot, page) => slot in s.covered && slot !in s.index && page in s.pages && page !in s.device
      && Held(s, page)
    case DropHeld(page) => page !in s.device && HeldCopy(s, page)
    case DropSnapshot(page) => page !in s.device && HeldSnap(s, page)
  }

  // The first half of page_fault_handler: an address without a page reads as zeros
  function Populate(s: State, slot: Slot): (r: Outcome)
    requires RefInv(s)
    ensures r.Done? ==> RefInv(r.st) && slot in r.st.index
  {
    if slot in s.index then Done(s)
    else
      AttachDone(s, slot, s.zero, SNAPSHOT);
      AttachRefInv(s, slot, s.zero, SNAPSHOT, multiset{});
      Attach(s, slot, s.zero, SNAPSHOT)
  }

  function UnshareStep(s: State, slot: Slot, repaired: bool): (r: Outcome)
    requires RefInv(s) && slot in s.index
    ensures r.Done? ==> RefInv(r.st) && slot in r.st.index
  {
    var r := UnshareIfSnapped(s, slot, repaired);
    if r.Done? && s.pages[s.index[slot].page].snaps > 0 then UnshareRefInv(s, slot, repaired); r
    else r
  }

  function FaultStep(s: State, slot: Slot, write: bool, repaired: bool): (r: Outcome)
    requires RefInv(s)
    ensures r.Done? ==> RefInv(r.st)
  {
    if slot !in s.covered then Done(s)   // the process is killed, memory stays
    else
      match Populate(s, slot)
      case Done(s1) => Resolve(s1, slot, write, repaired)
      case other => other
  }

  // The second half: a write gets a page of its own, then the page is mapped
  function Resolve(s: State, slot: Slot, write: bool, repaired: bool): (r: Outcome)
    requires RefInv(s) && slot in s.index
    ensures r.Done? ==> RefInv(r.st)
  {
    if write then
      match UnshareStep(s, slot, repaired)
      case Done(s1) => MapStep(s1, slot)
      case other => other
    else MapStep(s, slot)
  }

  function MapStep(s: State, slot: Slot): (r: Outcome)
    requires RefInv(s) && slot in s.index
    ensures r.Done? ==> RefInv(r.st)
  {
    var r := MapEntry(s, slot);
    if r.Done? then MapRefInv(s, slot); r else r
  }

  lemma MapRefInv(s: State, slot: Slot)
    requires RefInv(s) && slot in s.index && MapEntry(s, slot).Done?
    ensures RefInv(MapEntry(s, slot).st)
  {
    if SoleHolder(s, slot) {
      TakeOverRefInv(s, slot, true);
      EnterRefInv(TakeOver(s, slot, true), slot);
    } else {
      EnterRefInv(s, slot);
    }
  }

  lemma EnterRefInv(s: State, slot: Slot)
    requires RefInv(s) && slot in s.index
    ensures RefInv(EnterPte(s, slot))
  {}

  // A page taken up with manage_phys_page, given an owner, and let go again
  function AttachManaged(s: State, slot: Slot, p: nat, flags: Flags): (r: Outcome)
    requires RefInvWith(s, multiset{}) && slot !in s.index && p !in s.pool && p in s.mem
    requires Coherent(flags) && (flags.hardware <==> p in s.device)
    ensures r.Done? ==> RefInv(r.st)
  {
    var s1 := Manage(s, p);
    ManageKeeps(s, p);
    match Attach(s1, slot, p, flags)
    case Done(s2) =>
      AttachRefInv(s1, slot, p, flags, multiset{p});
      LetGo(s2, slot, p, flags.hardware);
      Done(PageUnref(s2, p, false))
    case other => other
  }

  lemma ManageKeeps(s: State, p: nat)
    requires RefInv(s) && p !in s.pool && p in s.mem
    ensures RefInvWith(Manage(s, p), multiset{p})
  {
    assert p !in s.pages ==> Owners(s.index, p) == {};
  }

  lemma LetGo(s: State, slot: Slot, p: nat, hw: bool)
    requires RefInvWith(s, multiset{p}) && slot in s.index && s.index[slot].page == p
    requires hw <==> p in s.device
    ensures PageUnref(s, p, false) == PageUnref(s, p, hw) && RefInv(PageUnref(s, p, hw))
  {
    assert slot in Owners(s.index, p);
    UnrefKeeps(s, p, hw, multiset{p});
    assert multiset{p} - multiset{p} == multiset{};
  }

  lemma TakeKeeps(s: State)
    requires RefInv(s) && s.pool != []
    ensures RefInv(TakeFrame(s)) && s.pool[0] !in TakeFrame(s).pool
  {}

  function AssignFreshStep(s: State, slot: Slot): (r: Outcome)
    requires RefInv(s) && slot !in s.index
    ensures r.Done? ==> RefInv(r.st)
  {
    if s.pool == [] then NoMemory
    else
      TakeKeeps(s);
      AttachManaged(TakeFrame(s), slot, s.pool[0], SHARED)
  }

  function AssignStep(s: State, slot: Slot, p: nat, flags: Flags): (r: Outcome)
    requires RefInv(s) && Survives(s, slot, p)
    requires Coherent(flags) && !flags.hardware && p !in s.device
    ensures r.Done? ==> RefInv(r.st)
  {
    var r := Assign(s, slot, p, flags);
    if r.Done? then AssignRefInv(s, slot, p, flags); r else r
  }

  lemma AssignRefInv(s: State, slot: Slot, p: nat, flags: Flags)
    requires RefInv(s) && Survives(s, slot, p)
    requires Coherent(flags) && !flags.hardware && p !in s.device
    requires Assign(s, slot, p, flags).Done?
    ensures RefInv(Assign(s, slot, p, flags).st)
  {
    if slot in s.index {
      UnassignRefInv(s, slot);
      AttachRefInv(Unassign(s, slot).st, slot, p, flags, multiset{});
    } else {
      AttachRefInv(s, slot, p, flags, multiset{});
    }
  }

  function UnmapStep(s: State, slot: Slot): (r: Outcome)
    requires RefInv(s)
    ensures r.Done? ==> RefInv(r.st)
  {
    var s1 := s.(covered := s.covered - {slot});
    if slot !in s.index then Done(s1)
    else
      var r := Unassign(s1, slot);
      if r.Done? then UnassignRefInv(s1, slot); r else r
  }

  lemma HoldCopyKeeps(s: State)
    requires RefInv(s) && s.pool != []
    ensures var s1 := Manage(TakeFrame(s), s.pool[0]); RefInv(s1.(held := s1.held + multiset{s.pool[0]}))
  {
    hide Linked, Frames, Mapped, Manage;
    TakeKeeps(s);
    ManageKeeps(TakeFrame(s), s.pool[0]);
    HeldKeeps(Manage(TakeFrame(s), s.pool[0]), s.pool[0]);
  }

  // A reference in hand becomes a hold.
  lemma HeldKeeps(s: State, p: nat)
    requires RefInvWith(s, multiset{p})
    ensures RefInv(s.(held := s.held + multiset{p}))
  {}

  function HoldCopyStep(s: State): (r: Outcome)
    requires RefInv(s)
    ensures r.Done? ==> RefInv(r.st)
  {
    if s.pool == [] then NoMemory
    else
      HoldCopyKeeps(s);
      var s1 := Manage(TakeFrame(s), s.pool[0]);
      Done(s1.(held := s1.held + multiset{s.pool[0]}))
  }

  function HoldSnapshotStep(s: State, slot: Slot): (r: State)
    requires RefInv(s) && slot in s.index
    ensures RefInv(r)
  {
    var p := s.index[slot].page;
    s.(pages := s.pages[p := Page(s.pages[p].refs + 1, s.pages[p].snaps + 1, s.pages[p].owners)],
       heldSnap := s.heldSnap + multiset{p})
  }

  function DropHeldStep(s: State, p: nat): (r: State)
    requires RefInv(s) && p !in s.device && HeldCopy(s, p)
    ensures RefInv(r)
  {
    var s1 := s.(held := s.held - multiset{p});
    DropHeldKeeps(s, p);
    PageUnref(s1, p, false)
  }

  lemma DropHeldKeeps(s: State, p: nat)
    requires RefInv(s) && p !in s.device && HeldCopy(s, p)
    ensures RefInv(PageUnref(s.(held := s.held - multiset{p}), p, false))
  {
    UnrefKeeps(s.(held := s.held - multiset{p}), p, false, multiset{p});
    assert multiset{p} - multiset{p} == multiset{};
  }

  function DropSnapshotStep(s: State, p: nat): (r: State)
    requires RefInv(s) && p !in s.device && HeldSnap(s, p)
    ensures RefInv(r)
  {
    DropSnapshotKeeps(s, p);
    PageUnref(LoseSnapshot(s, p), p, false)
  }

  function LoseSnapshot(s: State, p: nat): State
    requires p in s.pages
  {
    s.(pages := s.pages[p := Page(s.pages[p].refs, s.pages[p].snaps - 1, s.pages[p].owners)],
       heldSnap := s.heldSnap - multiset{p})
  }

  lemma DropSnapshotKeeps(s: State, p: nat)
    requires RefInv(s) && p !in s.device && HeldSnap(s, p)
    ensures RefInv(PageUnref(LoseSnapshot(s, p), p, false))
  {
    var s1 := LoseSnapshot(s, p);
    assert RefInvWith(s1, multiset{p});
    UnrefKeeps(s1, p, false, multiset{p});
    assert multiset{p} - multiset{p} == multiset{};
  }

  function SwitchStep(s: State, space: nat): (r: State)
    requires RefInv(s)
    ensures RefInv(r)
  {
    s.(current := space)
  }

  function CoverStep(s: State, slot: Slot): (r: State)
    requires RefInv(s)
    ensures RefInv(r)
  {
    s.(covered := s.covered + {slot})
  }

  function WriteStep(s: State, p: nat, offset: nat, data: seq<byte>): (r: State)
    requires RefInv(s) && p in s.mem && offset + |data| <= PAGE_SIZE
    ensures RefInv(r)
  {
    s.(mem := s.mem[p := Splice(s.mem[p], offset, data)])
  }

  // The steps that put a page into an address space
  function DoAssign(s: State, step: Step): (r: Outcome)
    requires RefInv(s) && Legal(s, step)
    requires step.AssignFresh? || step.AssignSnapshot? || step.AssignShared? || step.AssignDevice? || step.MapHeld?
    ensures r.Done? ==> RefInv(r.st)
  {
    match step
    case AssignFresh(slot) => AssignFreshStep(s, slot)
    case AssignSnapshot(slot, from) => AssignStep(s, slot, s.index[from].page, SNAPSHOT)
    case AssignShared(slot, from) => AssignStep(s, slot, s.index[from].page, SHARED)
    case AssignDevice(slot, frame) => AttachManaged(s, slot, frame, DEVICE)
    case MapHeld(slot, page) => AssignStep(s, slot, page, SNAPSHOT)
  }

  // The steps that take and give up references of page lists
  function DoHeld(s: State, step: Step): (r: Outcome)
    requires RefInv(s) && Legal(s, step)
    requires step.HoldCopy? || step.HoldSnapshot? || step.DropHeld? || step.DropSnapshot?
    ensures r.Done? ==> RefInv(r.st)
  {
    hide RefInv, HeldCopy, HeldSnap, Held, Survives, HoldCopyStep, HoldSnapshotStep, AssignStep, DropHeldStep,
         DropSnapshotStep;
    match step
    case HoldCopy => HoldCopyStep(s)
    case HoldSnapshot(slot) => Done(HoldSnapshotStep(s, slot))
    case DropHeld(page) => Done(DropHeldStep(s, page))
    case DropSnapshot(page) => Done(DropSnapshotStep(s, page))
  }

  // One step, in any state in which references are conserved: they stay conserved,
  // with the code as written as well as with the flag update.
  function Do(s: State, step: Step, repaired: bool): (r: Outcome)
    requires RefInv(s) && Legal(s, step)
    ensures r.Done? ==> RefInv(r.st)
  {
    match step
    case Switch(space) => Done(SwitchStep(s, space))
    case Cover(slot) => Done(CoverStep(s, slot))
    case AssignFresh(_) | AssignSnapshot(_, _) | AssignShared(_, _) | AssignDevice(_, _) | MapHeld(_, _) =>
      DoAssign(s, step)
    case Unmap(slot) => UnmapStep(s, slot)
    case Fault(vaddr, write) => FaultStep(s, Slot(s.current, vaddr), write, repaired)
    case Prepare(vaddr) => UnshareStep(s, Slot(s.current, vaddr), repaired)
    case Poke(vaddr, offset, data) => Done(WriteStep(s, s.index[Slot(s.current, vaddr)].page, offset, data))
    case Store(vaddr, offset, value) => Done(WriteStep(s, s.ptes[Slot(s.current, vaddr)].frame, offset, [value]))
    case HoldCopy | HoldSnapshot(_) | DropHeld(_) | DropSnapshot(_) => DoHeld(s, step)
  }

  // ----- runs -----

  function Run(s: State, steps: seq<Step>, repaired: bool): (r: Outcome)
    requires RefInv(s) && LegalRun(s, steps, repaired)
    ensures r.Done? ==> RefInv(r.st)
    decreases |steps|
  {
    if steps == [] then Done(s)
    else
      match Do(s, steps[0], repaired)
      case Done(s1) => Run(s1, steps[1..], repaired)
      case other => other
  }

  predicate LegalRun(s: State, steps: seq<Step>, repaired: bool)
    requires RefInv(s)
    decreases |steps|
  {
    steps == [] ||
    (Legal(s, steps[0]) &&
      match Do(s, steps[0], repaired)
      case Done(s1) => LegalRun(s1, steps[1..], repaired)
      case _ => true)
  }

  // ----- snapshot counts -----

  // The step would run the branch of unshare_page that forgets to update the flags.
  predicate TakesSoleBranch(s: State, step: Step) {
    match step
    case Fault(vaddr, write) => write && Slot(s.current, vaddr) in s.covered && SoleHolder(s, Slot(s.current, vaddr))
    case Prepare(vaddr) => SoleHolder(s, Slot(s.current, vaddr))
    case _ => false
  }

  lemma MapSnaps(s: State, slot: Slot)
    requires RefInv(s) && Snaps(s) && slot in s.index
    ensures MapEntry(s, slot) != Panic(Consistency)
    ensures MapEntry(s, slot).Done? ==> Snaps(MapEntry(s, slot).st)
  {
    if SoleHolder(s, slot) {
      SoleSnapOwner(s, slot);
      TakeOverSnaps(s, slot);
      assert slot in SnapOwners(s.index, s.index[slot].page);
    }
  }

  lemma PopulateSnaps(s: State, slot: Slot)
    requires RefInv(s) && Snaps(s)
    ensures Populate(s, slot).Done? && Snaps(Populate(s, slot).st)
    ensures slot !in s.index ==> !SoleHolder(Populate(s, slot).st, slot)
    ensures !Populate(s, slot).st.index[slot].flags.hardware || slot in s.index
  {
    if slot !in s.index {
      AttachDone(s, slot, s.zero, SNAPSHOT);
      AttachSnaps(s, slot, s.zero, SNAPSHOT);
    }
  }

  lemma UnshareStepSnaps(s: State, slot: Slot, repaired: bool)
    requires RefInv(s) && Snaps(s) && slot in s.index && slot.space == s.current
    requires repaired || !SoleHolder(s, slot)
    ensures !UnshareStep(s, slot, repaired).Panic?
    ensures UnshareStep(s, slot, repaired).Done? ==> Snaps(UnshareStep(s, slot, repaired).st)
  {
    if s.pages[s.index[slot].page].snaps > 0 {
      DeviceUnsnapped(s, slot);
      UnshareSnaps(s, slot, repaired);
    }
  }

  lemma DeviceUnsnapped(s: State, slot: Slot)
    requires RefInv(s) && Snaps(s) && slot in s.index
    ensures s.index[slot].flags.hardware ==> s.pages[s.index[slot].page].snaps == 0
  {
    if s.index[slot].flags.hardware {
      assert SnapOwners(s.index, s.index[slot].page) == {};
    }
  }

  lemma ResolveSnaps(s: State, slot: Slot, write: bool, repaired: bool)
    requires RefInv(s) && Snaps(s) && slot in s.index && slot.space == s.current
    requires repaired || !(write && SoleHolder(s, slot))
    ensures Resolve(s, slot, write, repaired) != Panic(Consistency)
    ensures Resolve(s, slot, write, repaired) != Panic(Misuse)
    ensures Resolve(s, slot, write, repaired).Done? ==> Snaps(Resolve(s, slot, write, repaired).st)
  {
    hide RefInv, Snaps, UnshareStep, SoleHolder;
    if write {
      UnshareStepSnaps(s, slot, repaired);
      if UnshareStep(s, slot, repaired).Done? {
        MapSnaps(UnshareStep(s, slot, repaired).st, slot);
      }
    } else {
      MapSnaps(s, slot);
    }
  }

  lemma FaultSnaps(s: State, slot: Slot, write: bool, repaired: bool)
    requires RefInv(s) && Snaps(s) && slot.space == s.current
    requires repaired || !(write && slot in s.covered && SoleHolder(s, slot))
    ensures FaultStep(s, slot, write, repaired) != Panic(Consistency)
    ensures FaultStep(s, slot, write, repaired) != Panic(Misuse)
    ensures FaultStep(s, slot, write, repaired).Done? ==> Snaps(FaultStep(s, slot, write, repaired).st)
  {
    if slot in s.covered {
      PopulateSnaps(s, slot);
      ResolveSnaps(Populate(s, slot).st, slot, write, repaired);
    }
  }

  lemma ManageSnaps(s: State, p: nat)
    requires RefInv(s) && Snaps(s) && p !in s.pool
    ensures Snaps(Manage(s, p)) && p in Manage(s, p).pages
  {
    assert p !in s.pages ==> SnapOwners(s.index, p) == {};
  }

  lemma ManageReadOnly(s: State, p: nat)
    requires RefInv(s) && ReadOnly(s)
    ensures ReadOnly(Manage(s, p))
  {}

  lemma AttachManagedSnaps(s: State, slot: Slot, p: nat, flags: Flags)
    requires RefInv(s) && Snaps(s) && slot !in s.index && p !in s.pool && p in s.mem
    requires Coherent(flags) && (flags.hardware <==> p in s.device) && p != s.zero
    ensures AttachManaged(s, slot, p, flags).Done? && Snaps(AttachManaged(s, slot, p, flags).st)
  {
    var s1 := Manage(s, p);
    ManageKeeps(s, p);
    ManageSnaps(s, p);
    AttachDone(s1, slot, p, flags);
    AttachSnaps(s1, slot, p, flags);
    var s2 := Attach(s1, slot, p, flags).st;
    AttachRefInv(s1, slot, p, flags, multiset{p});
    UnrefSnaps(s2, p, false);
  }

  lemma AssignSnaps(s: State, slot: Slot, p: nat, flags: Flags)
    requires RefInv(s) && Snaps(s) && Survives(s, slot, p)
    requires flags == SNAPSHOT || (flags == SHARED && p != s.zero)
    requires p !in s.device
    ensures Assign(s, slot, p, flags).Done? && Snaps(Assign(s, slot, p, flags).st)
  {
    hide RestoreWrite, AllShared, Attach, Owners, Coherent, Frames, Mapped, Snaps;
    if slot in s.index {
      UnassignSnaps(s, slot);
      UnassignRefInv(s, slot);
      AttachDone(Unassign(s, slot).st, slot, p, flags);
      AttachSnaps(Unassign(s, slot).st, slot, p, flags);
    } else {
      AttachDone(s, slot, p, flags);
      AttachSnaps(s, slot, p, flags);
    }
  }

  lemma HoldSnaps(s: State, slot: Slot)
    requires RefInv(s) && Snaps(s) && slot in s.index && !s.index[slot].flags.hardware
    ensures Snaps(HoldSnapshotStep(s, slot))
  {}

  lemma HoldCopySnaps(s: State)
    requires RefInv(s) && Snaps(s) && s.pool != []
    ensures Snaps(HoldCopyStep(s).st)
  {
    assert SnapOwners(s.index, s.pool[0]) == {};
  }

  lemma DropSnaps(s: State, p: nat)
    requires RefInv(s) && Snaps(s) && p !in s.device && HeldSnap(s, p)
    ensures Snaps(DropSnapshotStep(s, p))
  {
    UnrefSnaps(LoseSnapshot(s, p), p, false);
  }

  lemma DoAssignSnaps(s: State, step: Step)
    requires RefInv(s) && Snaps(s) && Legal(s, step)
    requires step.AssignFresh? || step.AssignSnapshot? || step.AssignShared? || step.AssignDevice? || step.MapHeld?
    ensures DoAssign(s, step) != Panic(Consistency)
    ensures DoAssign(s, step).Done? ==> Snaps(DoAssign(s, step).st)
  {
    match step
    case AssignFresh(slot) =>
      if s.pool != [] {
        TakeKeeps(s);
        AttachManagedSnaps(TakeFrame(s), slot, s.pool[0], SHARED);
      }
    case AssignSnapshot(slot, from) => AssignSnaps(s, slot, s.index[from].page, SNAPSHOT);
    case AssignShared(slot, from) => AssignSnaps(s, slot, s.index[from].page, SHARED);
    case AssignDevice(slot, frame) => AttachManagedSnaps(s, slot, frame, DEVICE);
    case MapHeld(slot, page) => AssignSnaps(s, slot, page, SNAPSHOT);
  }

  lemma DoHeldSnaps(s: State, step: Step)
    requires RefInv(s) && Snaps(s) && Legal(s, step)
    requires step.HoldCopy? || step.HoldSnapshot? || step.DropHeld? || step.DropSnapshot?
    ensures DoHeld(s, step) != Panic(Consistency)
    ensures DoHeld(s, step).Done? ==> Snaps(DoHeld(s, step).st)
  {
    match step
    case HoldCopy => if s.pool != [] { HoldCopySnaps(s); }
    case HoldSnapshot(slot) => HoldSnaps(s, slot);
    case DropHeld(page) => UnrefSnaps(s.(held := s.held - multiset{page}), page, false);
    case DropSnapshot(page) => DropSnaps(s, page);
  }

  // No step finds the counts in contradiction with the owner lists, and every step
  // keeps them right, unless it runs the branch that forgets the flags.
  lemma DoSnaps(s: State, step: Step, repaired: bool)
    requires RefInv(s) && Snaps(s) && Legal(s, step)
    requires repaired || !TakesSoleBranch(s, step)
    ensures Do(s, step, repaired) != Panic(Consistency)
    ensures Do(s, step, repaired).Done? ==> Snaps(Do(s, step, repaired).st)
  {
    hide RefInv, DoAssign, DoHeld, FaultStep, UnshareStep, UnmapStep, Snaps, Unassign, SoleHolder;
    match step
    case Switch(space) => SameSnaps(s, SwitchStep(s, space));
    case Cover(slot) => SameSnaps(s, CoverStep(s, slot));
    case AssignFresh(_) | AssignSnapshot(_, _) | AssignShared(_, _) | AssignDevice(_, _) | MapHeld(_, _) =>
      DoAssignSnaps(s, step);
    case Unmap(slot) => UnmapSnaps(s, slot);
    case Fault(vaddr, write) => FaultSnaps(s, Slot(s.current, vaddr), write, repaired);
    case Prepare(vaddr) => UnshareStepSnaps(s, Slot(s.current, vaddr), repaired);
    case Poke(_, _, _) => SameSnaps(s, Do(s, step, repaired).st);
    case Store(_, _, _) => SameSnaps(s, Do(s, step, repaired).st);
    case HoldCopy | HoldSnapshot(_) | DropHeld(_) | DropSnapshot(_) => DoHeldSnaps(s, step);
  }

  lemma Uncovered(s: State, slot: Slot)
    requires RefInv(s)
    ensures RefInv(s.(covered := s.covered - {slot})) && (slot in s.index ==> s.index[slot].page in s.pages)
  {}

  lemma UnmapSnaps(s: State, slot: Slot)
    requires RefInv(s) && Snaps(s)
    ensures UnmapStep(s, slot) != Panic(Consistency)
    ensures UnmapStep(s, slot).Done? ==> Snaps(UnmapStep(s, slot).st)
  {
    hide Unassign, RefInvWith, Snaps;
    var s1 := s.(covered := s.covered - {slot});
    Uncovered(s, slot);
    SameSnaps(s, s1);
    if slot in s.index { UnassignSnaps(s1, slot); }
  }

  lemma SameSnaps(s: State, r: State)
    requires Snaps(s) && r.pages == s.pages && r.index == s.index && r.heldSnap == s.heldSnap
    requires r.device == s.device && r.zero == s.zero
    ensures Snaps(r)
  {}

  lemma RunSnaps(s: State, steps: seq<Step>, repaired: bool)
    requires RefInv(s) && Snaps(s) && LegalRun(s, steps, repaired)
    requires repaired || NeverSole(s, steps)
    ensures Run(s, steps, repaired) != Panic(Consistency)
    ensures Run(s, steps, repaired).Done? ==> Snaps(Run(s, steps, repaired).st)
    decreases |steps|
  {
    if steps != [] {
      DoSnaps(s, steps[0], repaired);
      if Do(s, steps[0], repaired).Done? {
        RunSnaps(Do(s, steps[0], repaired).st, steps[1..], repaired);
      }
    }
  }

  // No step of the run, executed as written, reaches the sole-holder branch.
  predicate NeverSole(s: State, steps: seq<Step>)
    requires RefInv(s) && LegalRun(s, steps, false)
    decreases |steps|
  {
    steps == [] ||
    (!TakesSoleBranch(s, steps[0]) &&
      match Do(s, steps[0], false)
      case Done(s1) => NeverSole(s1, steps[1..])
      case _ => true)
  }

  // ----- write permission -----

  // Steps that take no part in message passing. map_from_user counts a snapshot
  // without taking away write permission, so it is not among them.
  predicate Plain(step: Step) {
    !step.HoldCopy? && !step.HoldSnapshot? && !step.MapHeld? && !step.DropHeld? && !step.DropSnapshot?
  }

  lemma AttachKeepsReadOnly(s: State, slot: Slot, p: nat, flags: Flags)
    requires Linked(s) && Mapped(s) && Snaps(s) && ReadOnly(s) && slot !in s.index && p in s.pages
    requires Attach(s, slot, p, flags).Done?
    ensures ReadOnly(Attach(s, slot, p, flags).st)
  {
    AttachReadOnly(s, slot, p, flags);
  }

  lemma UnshareStepReadOnly(s: State, slot: Slot, repaired: bool)
    requires Inv(s) && slot in s.index && UnshareStep(s, slot, repaired).Done?
    ensures ReadOnly(UnshareStep(s, slot, repaired).st)
    ensures s.pages[s.index[slot].page].snaps > 0 ==> slot !in UnshareStep(s, slot, repaired).st.ptes
  {
    hide SoleHolder, MoveTo, Rest, SnapsLeft, Owners, Coherent, Counted, Distinct, Mapped, Snaps, ReadOnly;
    if s.pages[s.index[slot].page].snaps > 0 {
      if SoleHolder(s, slot) {
        TakeOverReadOnly(s, slot, repaired);
      } else {
        UnshareCopyReadOnly(s, slot);
      }
    }
  }

  lemma MapReadOnly(s: State, slot: Slot)
    requires RefInv(s) && Snaps(s) && ReadOnly(s) && slot in s.index && slot !in s.ptes
    requires MapEntry(s, slot).Done?
    ensures ReadOnly(MapEntry(s, slot).st)
  {
    SnapsBelowRefs(s, s.index[slot].page);
    if SoleHolder(s, slot) {
      TakeOverReadOnly(s, slot, true);
    }
  }

  lemma ResolveReadOnly(s: State, slot: Slot, write: bool)
    requires Inv(s) && slot in s.index && slot.space == s.current
    requires slot in s.ptes ==> write && !s.ptes[slot].writable
    ensures Resolve(s, slot, write, true) != Panic(AlreadyMapped)
    ensures Resolve(s, slot, write, true).Done? ==> ReadOnly(Resolve(s, slot, write, true).st)
  {
    if write {
      SnapsBelowRefs(s, s.index[slot].page);
      UnshareStepSnaps(s, slot, true);
      var r := UnshareStep(s, slot, true);
      if r.Done? {
        UnshareStepReadOnly(s, slot, true);
        if MapEntry(r.st, slot).Done? { MapReadOnly(r.st, slot); }
      }
    } else if MapEntry(s, slot).Done? {
      MapReadOnly(s, slot);
    }
  }

  lemma PopulateReadOnly(s: State, slot: Slot)
    requires Inv(s)
    ensures Populate(s, slot).Done? && Inv(Populate(s, slot).st)
    ensures slot !in s.index ==> slot !in Populate(s, slot).st.ptes
  {
    PopulateSnaps(s, slot);
    if slot !in s.index {
      AttachKeepsReadOnly(s, slot, s.zero, SNAPSHOT);
    }
  }

  lemma FaultReadOnly(s: State, slot: Slot, write: bool)
    requires Inv(s) && slot.space == s.current
    requires slot in s.ptes ==> write && !s.ptes[slot].writable
    ensures FaultStep(s, slot, write, true) != Panic(AlreadyMapped)
    ensures FaultStep(s, slot, write, true).Done? ==> ReadOnly(FaultStep(s, slot, write, true).st)
  {
    if slot in s.covered {
      PopulateReadOnly(s, slot);
      ResolveReadOnly(Populate(s, slot).st, slot, write);
    }
  }

  lemma AttachManagedReadOnly(s: State, slot: Slot, p: nat, flags: Flags)
    requires Inv(s) && slot !in s.index && p !in s.pool && p in s.mem
    requires Coherent(flags) && (flags.hardware <==> p in s.device) && p != s.zero
    requires AttachManaged(s, slot, p, flags).Done?
    ensures ReadOnly(AttachManaged(s, slot, p, flags).st)
  {
    var s1 := Manage(s, p);
    ManageKeeps(s, p);
    ManageSnaps(s, p);
    ManageReadOnly(s, p);
    AttachKeepsReadOnly(s1, slot, p, flags);
    AttachRefInv(s1, slot, p, flags, multiset{p});
    UnrefReadOnly(Attach(s1, slot, p, flags).st, p, false);
  }

  lemma AssignReadOnly(s: State, slot: Slot, p: nat, flags: Flags)
    requires Inv(s) && Survives(s, slot, p) && Assign(s, slot, p, flags).Done?
    requires Coherent(flags) && !flags.hardware && p !in s.device
    ensures ReadOnly(Assign(s, slot, p, flags).st)
  {
    hide RestoreWrite, AllShared, Attach, BadFlags, Owners, Coherent, Counted, Frames, Mapped, Snaps, ReadOnly;
    if slot in s.index {
      UnassignSnaps(s, slot);
      UnassignRefInv(s, slot);
      UnassignReadOnly(s, slot);
      AttachKeepsReadOnly(Unassign(s, slot).st, slot, p, flags);
    } else {
      AttachKeepsReadOnly(s, slot, p, flags);
    }
  }

  lemma UnmapReadOnly(s: State, slot: Slot)
    requires Inv(s)
    ensures UnmapStep(s, slot).Done? && ReadOnly(UnmapStep(s, slot).st)
  {
    if slot in s.index {
      var s1 := s.(covered := s.covered - {slot});
      UnassignSnaps(s1, slot);
      UnassignReadOnly(s1, slot);
    }
  }

  lemma FreshReadOnly(s: State, slot: Slot)
    requires Inv(s) && slot !in s.index && s.pool != []
    ensures AssignFreshStep(s, slot).Done? && ReadOnly(AssignFreshStep(s, slot).st)
  {
    TakeKeeps(s);
    AttachManagedSnaps(TakeFrame(s), slot, s.pool[0], SHARED);
    AttachManagedReadOnly(TakeFrame(s), slot, s.pool[0], SHARED);
  }

  lemma AssignStepReadOnly(s: State, slot: Slot, p: nat, flags: Flags)
    requires Inv(s) && Survives(s, slot, p) && p !in s.device
    requires flags == SNAPSHOT || (flags == SHARED && p != s.zero)
    ensures AssignStep(s, slot, p, flags).Done? && ReadOnly(AssignStep(s, slot, p, flags).st)
  {
    AssignSnaps(s, slot, p, flags);
    AssignReadOnly(s, slot, p, flags);
  }

  lemma DoReadOnly(s: State, step: Step)
    requires Inv(s) && Legal(s, step) && Plain(step)
    ensures Do(s, step, true).Panic? ==> Do(s, step, true) == Panic(Consistency)
    ensures Do(s, step, true).Done? ==> ReadOnly(Do(s, step, true).st)
  {
    hide Counted, Distinct, Mapped, AttachManaged, AssignStep, UnmapStep, HoldCopyStep, HoldSnapshotStep,
         DropHeldStep, DropSnapshotStep, WriteStep;
    match step
    case Switch(_) =>
    case Cover(_) =>
    case AssignFresh(slot) => if s.pool != [] { FreshReadOnly(s, slot); }
    case AssignSnapshot(slot, from) => AssignStepReadOnly(s, slot, s.index[from].page, SNAPSHOT);
    case AssignShared(slot, from) => AssignStepReadOnly(s, slot, s.index[from].page, SHARED);
    case AssignDevice(slot, frame) =>
      AttachManagedSnaps(s, slot, frame, DEVICE);
      AttachManagedReadOnly(s, slot, frame, DEVICE);
    case Unmap(slot) => UnmapReadOnly(s, slot);
    case Fault(vaddr, write) =>
      FaultReadOnly(s, Slot(s.current, vaddr), write);
      FaultSnaps(s, Slot(s.current, vaddr), write, true);
    case Prepare(vaddr) =>
      UnshareStepSnaps(s, Slot(s.current, vaddr), true);
      if UnshareStep(s, Slot(s.current, vaddr), true).Done? {
        UnshareStepReadOnly(s, Slot(s.current, vaddr), true);
      }
    case Poke(vaddr, offset, data) => WriteReadOnly(s, s.index[Slot(s.current, vaddr)].page, offset, data);
    case Store(vaddr, offset, value) => WriteReadOnly(s, s.ptes[Slot(s.current, vaddr)].frame, offset, [value]);
  }

  // With the flag update, no plain step stops the kernel, and afterwards a present entry
  // is writable exactly when its page has no snapshot.
  lemma DoInv(s: State, step: Step)
    requires Inv(s) && Legal(s, step) && Plain(step)
    ensures !Do(s, step, true).Panic?
    ensures Do(s, step, true).Done? ==> Inv(Do(s, step, true).st)
  {
    DoSnaps(s, step, true);
    DoReadOnly(s, step);
  }

  lemma WriteReadOnly(s: State, p: nat, offset: nat, data: seq<byte>)
    requires Inv(s) && p in s.mem && offset + |data| <= PAGE_SIZE
    ensures Inv(WriteStep(s, p, offset, data))
  {}

  // ----- no frame is lost -----

  // The frames of ordinary memory: those in the pool and those of managed pages
  function Ordinary(s: State): set<nat> {
    (set p | p in s.pool) + (s.pages.Keys - s.device)
  }

  lemma SameOrdinary(s: State, s': State)
    requires s'.pool == s.pool && s'.pages.Keys == s.pages.Keys && s'.device == s.device
    ensures Ordinary(s') == Ordinary(s)
  {}

  lemma UnrefOrdinary(s: State, p: nat, hw: bool)
    requires p in s.pages && (hw <==> p in s.device)
    ensures Ordinary(PageUnref(s, p, hw)) == Ordinary(s)
  {
    assert forall x :: x in [p] + s.pool <==> x == p || x in s.pool;
  }

  lemma UnassignOrdinary(s: State, slot: Slot)
    requires RefInv(s) && slot in s.index && Unassign(s, slot).Done?
    ensures Ordinary(Unassign(s, slot).st) == Ordinary(s)
  {
    hide RestoreWrite, AllShared, PageUnref, Owners, Coherent, Counted, Frames, Mapped;
    DetachKeeps(s, slot);
    assert Detach(s, slot).st.pages.Keys == s.pages.Keys;
    UnrefOrdinary(Detach(s, slot).st, s.index[slot].page, s.index[slot].flags.hardware);
  }

  lemma AttachOrdinary(s: State, slot: Slot, p: nat, flags: Flags)
    requires p in s.pages && Attach(s, slot, p, flags).Done?
    ensures Ordinary(Attach(s, slot, p, flags).st) == Ordinary(s)
  {
    SameOrdinary(s, Attach(s, slot, p, flags).st);
  }

  lemma TakenOrdinary(s: State, pages: map<nat, Page>)
    requires s.pool != [] && s.pool[0] !in s.device && pages.Keys == s.pages.Keys + {s.pool[0]}
    ensures (set p | p in s.pool[1..]) + (pages.Keys - s.device) == Ordinary(s)
  {
    assert s.pool == [s.pool[0]] + s.pool[1..];
  }

  lemma UnshareOrdinary(s: State, slot: Slot, repaired: bool)
    requires RefInv(s) && slot in s.index && UnshareStep(s, slot, repaired).Done?
    ensures Ordinary(UnshareStep(s, slot, repaired).st) == Ordinary(s)
  {
    hide RestoreWrite, AllShared, PageUnref, SoleHolder, Rest, Restores, MoveGroup, Owners, Coherent, Counted,
         Distinct, Mapped, Ordinary;
    var p := s.index[slot].page;
    if s.pages[p].snaps > 0 {
      if SoleHolder(s, slot) {
        SameOrdinary(s, TakeOver(s, slot, repaired));
      } else {
        CopyOrdinary(s, slot);
      }
    }
  }

  lemma CopyOrdinary(s: State, slot: Slot)
    requires RefInv(s) && Copies(s, slot) && UnshareCopy(s, slot).Done?
    ensures Ordinary(UnshareCopy(s, slot).st) == Ordinary(s)
  {
    var s1 := MoveGroup(s, slot);
    assert s1.pages.Keys == s.pages.Keys + {s.pool[0]};
    TakenOrdinary(s, s1.pages);
    UnrefOrdinary(s1, s.index[slot].page, false);
  }

  lemma MapOrdinary(s: State, slot: Slot)
    requires RefInv(s) && slot in s.index && MapStep(s, slot).Done?
    ensures Ordinary(MapStep(s, slot).st) == Ordinary(s)
  {
    SameOrdinary(s, MapStep(s, slot).st);
  }

  lemma FaultOrdinary(s: State, slot: Slot, write: bool, repaired: bool)
    requires RefInv(s) && FaultStep(s, slot, write, repaired).Done?
    ensures Ordinary(FaultStep(s, slot, write, repaired).st) == Ordinary(s)
  {
    if slot in s.covered {
      if slot !in s.index {
        AttachOrdinary(s, slot, s.zero, SNAPSHOT);
      }
      var s1 := Populate(s, slot).st;
      if write {
        UnshareOrdinary(s1, slot, repaired);
        MapOrdinary(UnshareStep(s1, slot, repaired).st, slot);
      } else {
        MapOrdinary(s1, slot);
      }
    }
  }

  lemma AttachManagedOrdinary(s: State, slot: Slot, p: nat, flags: Flags)
    requires RefInv(s) && slot !in s.index && p !in s.pool && p in s.mem
    requires Coherent(flags) && (flags.hardware <==> p in s.device)
    requires AttachManaged(s, slot, p, flags).Done?
    ensures Ordinary(AttachManaged(s, slot, p, flags).st) == Ordinary(Manage(s, p))
  {
    var s1 := Manage(s, p);
    ManageKeeps(s, p);
    AttachOrdinary(s1, slot, p, flags);
    AttachRefInv(s1, slot, p, flags, multiset{p});
    LetGo(Attach(s1, slot, p, flags).st, slot, p, flags.hardware);
    UnrefOrdinary(Attach(s1, slot, p, flags).st, p, flags.hardware);
  }

  lemma FreshOrdinary(s: State, slot: Slot)
    requires RefInv(s) && slot !in s.index && AssignFreshStep(s, slot).Done?
    ensures Ordinary(AssignFreshStep(s, slot).st) == Ordinary(s)
  {
    hide Zeros, Coherent, Linked, Counted, Distinct, Mapped, AttachManaged;
    TakeKeeps(s);
    AttachManagedOrdinary(TakeFrame(s), slot, s.pool[0], SHARED);
    TakenOrdinary(s, Manage(TakeFrame(s), s.pool[0]).pages);
  }

  lemma AssignOrdinary(s: State, slot: Slot, p: nat, flags: Flags)
    requires RefInv(s) && Survives(s, slot, p) && Assign(s, slot, p, flags).Done?
    ensures Ordinary(Assign(s, slot, p, flags).st) == Ordinary(s)
  {
    if slot in s.index {
      UnassignOrdinary(s, slot);
      AttachOrdinary(Unassign(s, slot).st, slot, p, flags);
    } else {
      AttachOrdinary(s, slot, p, flags);
    }
  }

  lemma HoldCopyOrdinary(s: State)
    requires RefInv(s) && HoldCopyStep(s).Done?
    ensures Ordinary(HoldCopyStep(s).st) == Ordinary(s)
  {
    TakenOrdinary(s, Manage(TakeFrame(s), s.pool[0]).pages);
  }

  // A frame of ordinary memory is in the pool or belongs to a managed page, never both
  // and never neither, whatever the kernel does.
  lemma DoOrdinary(s: State, step: Step, repaired: bool)
    requires RefInv(s) && Legal(s, step) && Do(s, step, repaired).Done?
    ensures Ordinary(Do(s, step, repaired).st) == Ordinary(s)
  {
    hide DoAssign, DoHeld, UnmapStep, FaultStep, UnshareStep, RefInvWith, Ordinary;
    match step
    case Switch(space) => SameOrdinary(s, SwitchStep(s, space));
    case Cover(slot) => SameOrdinary(s, CoverStep(s, slot));
    case AssignFresh(_) | AssignSnapshot(_, _) | AssignShared(_, _) | AssignDevice(_, _) | MapHeld(_, _) =>
      DoAssignOrdinary(s, step);
    case Unmap(slot) => UnmapOrdinary(s, slot);
    case Fault(vaddr, write) => FaultOrdinary(s, Slot(s.current, vaddr), write, repaired);
    case Prepare(vaddr) => UnshareOrdinary(s, Slot(s.current, vaddr), repaired);
    case Poke(_, _, _) => SameOrdinary(s, Do(s, step, repaired).st);
    case Store(_, _, _) => SameOrdinary(s, Do(s, step, repaired).st);
    case HoldCopy | HoldSnapshot(_) | DropHeld(_) | DropSnapshot(_) => DoHeldOrdinary(s, step);
  }

  lemma DoAssignOrdinary(s: State, step: Step)
    requires RefInv(s) && Legal(s, step) && (step.AssignFresh? || step.AssignSnapshot? || step.AssignShared?
      || step.AssignDevice? || step.MapHeld?)
    requires DoAssign(s, step).Done?
    ensures Ordinary(DoAssign(s, step).st) == Ordinary(s)
  {
    hide RefInvWith, Ordinary, Assign, AssignFreshStep, AttachManaged;
    match step
    case AssignFresh(slot) => FreshOrdinary(s, slot);
    case AssignSnapshot(slot, from) => AssignOrdinary(s, slot, s.index[from].page, SNAPSHOT);
    case AssignShared(slot, from) => AssignOrdinary(s, slot, s.index[from].page, SHARED);
    case AssignDevice(slot, frame) => DeviceOrdinary(s, slot, frame);
    case MapHeld(slot, page) => AssignOrdinary(s, slot, page, SNAPSHOT);
  }

  lemma DoHeldOrdinary(s: State, step: Step)
    requires RefInv(s) && Legal(s, step)
    requires step.HoldCopy? || step.HoldSnapshot? || step.DropHeld? || step.DropSnapshot?
    requires DoHeld(s, step).Done?
    ensures Ordinary(DoHeld(s, step).st) == Ordinary(s)
  {
    hide Ordinary, Assign, HoldCopyStep, HoldSnapshotStep, DropHeldStep, DropSnapshotStep, RefInv, HeldCopy, HeldSnap,
        Held;
    match step
    case HoldCopy => HoldCopyOrdinary(s);
    case HoldSnapshot(slot) => HoldSnapshotOrdinary(s, slot);
    case DropHeld(page) => DropHeldOrdinary(s, page);
    case DropSnapshot(page) => DropSnapshotOrdinary(s, page);
  }

  lemma HoldSnapshotOrdinary(s: State, slot: Slot)
    requires RefInv(s) && slot in s.index
    ensures Ordinary(HoldSnapshotStep(s, slot)) == Ordinary(s)
  {
    SameOrdinary(s, HoldSnapshotStep(s, slot));
  }

  lemma DropHeldOrdinary(s: State, p: nat)
    requires RefInv(s) && p !in s.device && HeldCopy(s, p)
    ensures Ordinary(DropHeldStep(s, p)) == Ordinary(s)
  {
    var s1 := s.(held := s.held - multiset{p});
    SameOrdinary(s, s1);
    UnrefOrdinary(s1, p, false);
  }

  lemma DeviceOrdinary(s: State, slot: Slot, frame: nat)
    requires RefInv(s) && slot !in s.index && frame in s.device && frame in s.mem
    requires AttachManaged(s, slot, frame, DEVICE).Done?
    ensures Ordinary(AttachManaged(s, slot, frame, DEVICE).st) == Ordinary(s)
  {
    hide Coherent, Linked, Counted, Distinct, Mapped, AttachManaged;
    AttachManagedOrdinary(s, slot, frame, DEVICE);
    assert Manage(s, frame).pages.Keys == s.pages.Keys + {frame};
  }

  lemma UnmapOrdinary(s: State, slot: Slot)
    requires RefInv(s) && UnmapStep(s, slot).Done?
    ensures Ordinary(UnmapStep(s, slot).st) == Ordinary(s)
  {
    hide Unassign, Ordinary, RefInvWith;
    var s1 := s.(covered := s.covered - {slot});
    Uncovered(s, slot);
    SameOrdinary(s, s1);
    if slot in s.index { UnassignOrdinary(s1, slot); }
  }

  lemma DropSnapshotOrdinary(s: State, p: nat)
    requires RefInv(s) && p !in s.device && HeldSnap(s, p)
    ensures Ordinary(DropSnapshotStep(s, p)) == Ordinary(s)
  {
    SameOrdinary(s, LoseSnapshot(s, p));
    UnrefOrdinary(LoseSnapshot(s, p), p, false);
  }

  lemma RunOrdinary(s: State, steps: seq<Step>, repaired: bool)
    requires RefInv(s) && LegalRun(s, steps, repaired) && Run(s, steps, repaired).Done?
    ensures Ordinary(Run(s, steps, repaired).st) == Ordinary(s)
    decreases |steps|
  {
    if steps != [] {
      DoOrdinary(s, steps[0], repaired);
      RunOrdinary(Do(s, steps[0], repaired).st, steps[1..], repaired);
    }
  }
}
