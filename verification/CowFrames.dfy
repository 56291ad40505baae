// When memory is short: which step takes a free frame, and that the kernel stops for want
// of one only if such a step finds none.
module CowFrames {
  import opened CowState
  import opened CowInvariants
  import opened CowRuns
  import opened CowUser

  // The page has a snapshot, and somebody else holds it too: a writer gets a copy.
  predicate Borrowed(s: State, slot: Slot) {
    && slot in s.index && s.index[slot].page in s.pages
    && s.pages[s.index[slot].page].snaps > 0 && s.pages[s.index[slot].page].refs > 1
  }

  // To be written to, the page of the slot takes a frame.
  predicate NeedsFrame(s: State, slot: Slot) {
    slot !in s.index || Borrowed(s, slot)
  }

  predicate Takes(s: State, step: Step) {
    match step
    case AssignFresh(_) | HoldCopy => true
    case Fault(vaddr, write) => write && Slot(s.current, vaddr) in s.covered && NeedsFrame(s, Slot(s.current, vaddr))
    case Prepare(vaddr) => NeedsFrame(s, Slot(s.current, vaddr))
    case _ => false
  }

  // What is left of the pool after a frame was taken, or none
  function Left(pool: seq<nat>, taken: bool): (r: seq<nat>)
    requires taken ==> pool != []
    ensures |r| == |pool| - Count(taken)
  {
    if taken then pool[1..] else pool
  }

  function Count(b: bool): nat {
    if b then 1 else 0
  }

  // ----- one page -----

  // Those who stay, or a page list, keep the old page: it never goes back to the pool.
  lemma GroupBelowRefs(s: State, slot: Slot)
    requires RefInv(s) && Snaps(s) && Borrowed(s, slot)
    ensures s.pages[s.index[slot].page].refs > |Group(s, slot)|
  {
    var p := s.index[slot].page;
    GroupIsOwned(s, slot);
    if s.index[slot].flags.shared && s.heldSnap[p] == 0 {
      assert |SnapOwners(s.index, p)| > 0;
      var o :| o in SnapOwners(s.index, p);
      assert o in Owners(s.index, p) && o !in Group(s, slot);
      assert o in s.pages[p].owners - Group(s, slot);
    }
  }

  lemma CopyPool(s: State, slot: Slot)
    requires RefInv(s) && Snaps(s) && Borrowed(s, slot) && s.pool != [] && UnshareCopy(s, slot).Done?
    ensures UnshareCopy(s, slot).st.pool == s.pool[1..]
  {
    hide RefInv, Snaps, RestoreWrite, MoveTo, Rest;
    GroupBelowRefs(s, slot);
  }

  lemma UnshareFrames(s: State, slot: Slot, repaired: bool)
    requires RefInv(s) && Snaps(s) && slot in s.index && slot.space == s.current
    ensures UnshareStep(s, slot, repaired).NoMemory? <==> s.pool == [] && Borrowed(s, slot)
    ensures UnshareStep(s, slot, repaired).Done? ==>
      UnshareStep(s, slot, repaired).st.pool == Left(s.pool, Borrowed(s, slot))
  {
    hide Counted, Distinct, Mapped, Snaps, UnshareCopy;
    SnapsBelowRefs(s, s.index[slot].page);
    if s.pages[s.index[slot].page].snaps > 0 {
      DeviceUnsnapped(s, slot);
      if s.pool != [] && Borrowed(s, slot) && UnshareCopy(s, slot).Done? { CopyPool(s, slot); }
      if s.pool != [] { NeverShort(s, slot); }
    }
  }

  lemma NeverShort(s: State, slot: Slot)
    requires Backed(s, slot) && s.pool != []
    ensures !UnshareCopy(s, slot).NoMemory?
  {}

  lemma FreshPool(s: State, slot: Slot)
    requires RefInv(s) && Snaps(s) && slot !in s.index
    ensures AssignFreshStep(s, slot).NoMemory? <==> s.pool == []
    ensures AssignFreshStep(s, slot).Done? ==> AssignFreshStep(s, slot).st.pool == s.pool[1..]
  {
    if s.pool != [] { TakeKeeps(s); }
  }

  // A page made ready to be written to
  lemma ReadyFrames(s: State, slot: Slot)
    requires RefInv(s) && Snaps(s) && slot.space == s.current
    ensures ReadyStep(s, slot).NoMemory? <==> s.pool == [] && NeedsFrame(s, slot)
    ensures ReadyStep(s, slot).Done? ==> ReadyStep(s, slot).st.pool == Left(s.pool, NeedsFrame(s, slot))
  {
    hide RefInv, Snaps, AssignFreshStep, UnshareStep;
    if slot in s.index {
      UnshareFrames(s, slot, true);
    } else {
      FreshPool(s, slot);
    }
  }

  // Both slots are on one page, and the first to be written leaves it.
  predicate LeavesPage(s: State, low: Slot, high: Slot) {
    Borrowed(s, low) && high in s.index && s.index[high].page == s.index[low].page
  }

  // Whether the second page of a range still needs a frame once the first is ready: if they
  // are one page, it may have moved along, or be the last one left on the old page.
  predicate NeedsAfter(s: State, low: Slot, high: Slot) {
    if LeavesPage(s, low, high) then
      && high !in Group(s, low) && SnapsLeft(s, low) > 0
      && s.pages[s.index[low].page].refs - |Group(s, low)| > 1
    else NeedsFrame(s, high)
  }

  // The frames for a write to one page, or to two
  function FramesFor(s: State, low: Slot, high: Slot, two: bool): (n: nat)
    ensures n <= if two then 2 else 1
  {
    Count(NeedsFrame(s, low)) + Count(two && NeedsAfter(s, low, high))
  }

  lemma NeedsNext(s: State, low: Slot, high: Slot)
    requires Inv(s) && low != high && ReadyStep(s, low).Done?
    ensures NeedsFrame(ReadyStep(s, low).st, high) <==> NeedsAfter(s, low, high)
  {
    hide Counted, Distinct, Mapped, Snaps, ReadOnly, AssignFreshStep, UnshareCopy, Group, SnapsLeft, RestoreWrite;
    if low !in s.index {
      FreshOther(s, low, high);
    } else if s.pages[s.index[low].page].snaps > 0 && !SoleHolder(s, low) {
      SnapsBelowRefs(s, s.index[low].page);
      if LeavesPage(s, low, high) {
        NextOnPage(s, low, high);
      } else {
        CopyOther(s, low, high);
      }
    }
  }

  lemma NextOnPage(s: State, low: Slot, high: Slot)
    requires RefInv(s) && Snaps(s) && Copies(s, low) && LeavesPage(s, low, high) && high != low
    requires UnshareCopy(s, low).Done?
    ensures NeedsFrame(UnshareCopy(s, low).st, high) <==> NeedsAfter(s, low, high)
  {
    hide Snaps, Counted, Distinct, Mapped, RestoreWrite, Group, AllShared;
    GroupBelowRefs(s, low);
  }

  // The zero page is never anybody's own.
  lemma ZeroBorrowed(s: State, slot: Slot)
    requires RefInv(s) && Snaps(s) && slot !in s.index
    ensures Populate(s, slot).Done? && Borrowed(Populate(s, slot).st, slot)
    ensures Populate(s, slot).st.pool == s.pool && Populate(s, slot).st.current == s.current
  {
    hide Distinct, Mapped, RemoveWrite;
    PopulateSnaps(s, slot);
    SnapsBelowRefs(s, s.zero);
  }

  lemma PopulatedPool(s: State, slot: Slot)
    requires RefInv(s) && Snaps(s)
    ensures Populate(s, slot).Done? && Snaps(Populate(s, slot).st)
    ensures var t := Populate(s, slot).st;
      t.pool == s.pool && t.current == s.current && (Borrowed(t, slot) <==> NeedsFrame(s, slot))
  {
    hide RefInv, Snaps, Borrowed, Attach;
    PopulateSnaps(s, slot);
    if slot !in s.index { ZeroBorrowed(s, slot); }
  }

  lemma MapPool(s: State, slot: Slot)
    requires RefInv(s) && slot in s.index
    ensures !MapStep(s, slot).NoMemory? && (MapStep(s, slot).Done? ==> MapStep(s, slot).st.pool == s.pool)
  {}

  lemma ResolveFrames(s: State, slot: Slot, write: bool, repaired: bool)
    requires RefInv(s) && Snaps(s) && slot in s.index && slot.space == s.current
    ensures var r := Resolve(s, slot, write, repaired);
      && (r.NoMemory? <==> write && s.pool == [] && Borrowed(s, slot))
      && (r.Done? ==> r.st.pool == Left(s.pool, write && Borrowed(s, slot)))
  {
    hide RefInv, Snaps, Borrowed, UnshareStep, MapStep;
    if write {
      UnshareFrames(s, slot, repaired);
      if UnshareStep(s, slot, repaired).Done? { MapPool(UnshareStep(s, slot, repaired).st, slot); }
    } else {
      MapPool(s, slot);
    }
  }

  lemma FaultFrames(s: State, slot: Slot, write: bool, repaired: bool)
    requires RefInv(s) && Snaps(s) && slot.space == s.current
    ensures var r := FaultStep(s, slot, write, repaired);
      var taken := write && slot in s.covered && NeedsFrame(s, slot);
      && (r.NoMemory? <==> s.pool == [] && taken)
      && (r.Done? ==> r.st.pool == Left(s.pool, taken))
  {
    hide RefInv, Snaps, Borrowed, NeedsFrame, Populate, Resolve;
    if slot in s.covered {
      PopulatedPool(s, slot);
      ResolveFrames(Populate(s, slot).st, slot, write, repaired);
    }
  }

  // Whatever the counts say, only an empty pool makes the handler give up.
  lemma ShortMeansEmpty(s: State, slot: Slot, write: bool, repaired: bool)
    requires RefInv(s) && FaultStep(s, slot, write, repaired).NoMemory?
    ensures s.pool == []
  {
    hide Linked, Counted, Frames, Mapped;
    AttachDoneOrNot(s, slot);
    if s.pool != [] && Populate(s, slot).Done? { NeverShortStep(Populate(s, slot).st, slot, write, repaired); }
  }

  lemma AttachDoneOrNot(s: State, slot: Slot)
    requires RefInv(s)
    ensures !Populate(s, slot).NoMemory? && (Populate(s, slot).Done? ==> Populate(s, slot).st.pool == s.pool)
  {
    hide Linked, Counted, Mapped;
  }

  lemma NeverShortStep(s: State, slot: Slot, write: bool, repaired: bool)
    requires RefInv(s) && slot in s.index && s.pool != []
    ensures !Resolve(s, slot, write, repaired).NoMemory?
  {
    hide Counted, Distinct, Mapped, MapStep, UnshareCopy;
    NeverShort(s, slot);
    if write {
      if UnshareStep(s, slot, repaired).Done? { MapPool(UnshareStep(s, slot, repaired).st, slot); }
    } else {
      MapPool(s, slot);
    }
  }

  lemma UnshareShort(s: State, slot: Slot, repaired: bool)
    requires RefInv(s) && Snaps(s) && slot in s.index && slot.space == s.current
    ensures Unshare(s, slot, repaired).NoMemory? <==> s.pool == [] && Borrowed(s, slot)
  {
    hide Counted, Distinct, Mapped, Snaps, UnshareCopy;
    SnapsBelowRefs(s, s.index[slot].page);
    UnshareFrames(s, slot, repaired);
  }

  // address_space_map enters the page of the slot, writable unless it is borrowed: the only
  // holder of a snapshot may write at once.
  lemma MapWritable(s: State, slot: Slot)
    requires RefInv(s) && Snaps(s) && slot in s.index && MapStep(s, slot).Done?
    ensures var t := MapStep(s, slot).st;
      slot in t.ptes && t.ptes[slot] == Pte(s.index[slot].page, !Borrowed(s, slot))
  {
    hide Counted, Distinct, Mapped, Snaps;
    SnapsBelowRefs(s, s.index[slot].page);
  }

  // ----- every step -----

  // A step stops for want of a frame if and only if it takes one and there is none; it
  // takes no more than one, and gives back only what nobody holds any more.
  lemma DoFrames(s: State, step: Step, repaired: bool)
    requires RefInv(s) && Snaps(s) && Legal(s, step)
    ensures Do(s, step, repaired).NoMemory? <==> s.pool == [] && Takes(s, step)
    ensures Do(s, step, repaired).Done? ==> |Do(s, step, repaired).st.pool| >= |s.pool| - Count(Takes(s, step))
  {
    hide RefInv, Snaps, NeedsFrame, DoAssign, DoHeld, UnmapStep, FaultStep, UnshareStep, Left;
    match step
    case AssignFresh(_) | AssignSnapshot(_, _) | AssignShared(_, _) | AssignDevice(_, _) | MapHeld(_, _) =>
      AssignPool(s, step);
    case Unmap(slot) => UnmapPool(s, slot);
    case Fault(vaddr, write) => FaultFrames(s, Slot(s.current, vaddr), write, repaired);
    case Prepare(vaddr) => PreparePool(s, vaddr, repaired);
    case HoldCopy | HoldSnapshot(_) | DropHeld(_) | DropSnapshot(_) => HeldPool(s, step);
    case _ =>
  }

  lemma PreparePool(s: State, vaddr: nat, repaired: bool)
    requires RefInv(s) && Snaps(s) && Legal(s, Prepare(vaddr))
    ensures var r := Do(s, Prepare(vaddr), repaired);
      && (r.NoMemory? <==> s.pool == [] && Takes(s, Prepare(vaddr)))
      && (r.Done? ==> r.st.pool == Left(s.pool, Takes(s, Prepare(vaddr))))
  {
    hide RefInv, Snaps, UnshareStep, Borrowed;
    UnshareFrames(s, Slot(s.current, vaddr), repaired);
  }

  lemma UnrefPool(s: State, p: nat, hw: bool)
    requires p in s.pages
    ensures |PageUnref(s, p, hw).pool| >= |s.pool|
  {}

  lemma UnassignPool(s: State, slot: Slot)
    requires slot in s.index && s.index[slot].page in s.pages
    ensures !Unassign(s, slot).NoMemory? && (Unassign(s, slot).Done? ==> |Unassign(s, slot).st.pool| >= |s.pool|)
    ensures Unassign(s, slot).Done? ==> forall p | Survives(s, slot, p) :: p in Unassign(s, slot).st.pages
  {}

  lemma AttachPool(s: State, slot: Slot, p: nat, flags: Flags)
    requires p in s.pages
    ensures !Attach(s, slot, p, flags).NoMemory?
    ensures Attach(s, slot, p, flags).Done? ==>
      Attach(s, slot, p, flags).st.pool == s.pool && p in Attach(s, slot, p, flags).st.pages
  {}

  lemma UnmapPool(s: State, slot: Slot)
    requires RefInv(s)
    ensures !UnmapStep(s, slot).NoMemory? && (UnmapStep(s, slot).Done? ==> |UnmapStep(s, slot).st.pool| >= |s.pool|)
  {
    hide Unassign, RefInvWith;
    Uncovered(s, slot);
    if slot in s.index { UnassignPool(s.(covered := s.covered - {slot}), slot); }
  }

  lemma ReassignPool(s: State, slot: Slot, p: nat, flags: Flags)
    requires Survives(s, slot, p) && (slot in s.index ==> s.index[slot].page in s.pages)
    ensures var r := Assign(s, slot, p, flags); !r.NoMemory? && (r.Done? ==> |r.st.pool| >= |s.pool|)
  {
    hide Unassign, Attach;
    if slot in s.index {
      UnassignPool(s, slot);
      if Unassign(s, slot).Done? { AttachPool(Unassign(s, slot).st, slot, p, flags); }
    } else {
      AttachPool(s, slot, p, flags);
    }
  }

  lemma DevicePool(s: State, slot: Slot, frame: nat)
    requires RefInv(s) && slot !in s.index && frame in s.device && frame in s.mem
    ensures var r := AttachManaged(s, slot, frame, DEVICE); !r.NoMemory? && (r.Done? ==> |r.st.pool| >= |s.pool|)
  {
    hide Linked, Counted, Mapped, Attach;
    ManageKeeps(s, frame);
    AttachPool(Manage(s, frame), slot, frame, DEVICE);
    var r := Attach(Manage(s, frame), slot, frame, DEVICE);
    if r.Done? {
      AttachRefInv(Manage(s, frame), slot, frame, DEVICE, multiset{frame});
      UnrefPool(r.st, frame, false);
    }
  }

  lemma AssignPool(s: State, step: Step)
    requires RefInv(s) && Snaps(s) && Legal(s, step)
    requires step.AssignFresh? || step.AssignSnapshot? || step.AssignShared? || step.AssignDevice? || step.MapHeld?
    ensures DoAssign(s, step).NoMemory? <==> s.pool == [] && Takes(s, step)
    ensures DoAssign(s, step).Done? ==> |DoAssign(s, step).st.pool| >= |s.pool| - Count(Takes(s, step))
  {
    hide Counted, Mapped, Snaps, Assign, AssignFreshStep, AttachManaged;
    match step
    case AssignFresh(slot) => FreshPool(s, slot);
    case AssignSnapshot(slot, from) => ReassignPool(s, slot, s.index[from].page, SNAPSHOT);
    case AssignShared(slot, from) => ReassignPool(s, slot, s.index[from].page, SHARED);
    case AssignDevice(slot, frame) => DevicePool(s, slot, frame);
    case MapHeld(slot, page) => ReassignPool(s, slot, page, SNAPSHOT);
  }

  lemma HeldPool(s: State, step: Step)
    requires RefInv(s) && Legal(s, step)
    requires step.HoldCopy? || step.HoldSnapshot? || step.DropHeld? || step.DropSnapshot?
    ensures DoHeld(s, step).NoMemory? <==> s.pool == [] && Takes(s, step)
    ensures DoHeld(s, step).Done? ==> |DoHeld(s, step).st.pool| >= |s.pool| - Count(Takes(s, step))
  {
    hide Linked, Frames, Mapped, HeldCopy, HeldSnap, Held, HoldCopyStep, HoldSnapshotStep, DropHeldStep,
         DropSnapshotStep;
    match step
    case HoldCopy => HoldCopyPool(s);
    case HoldSnapshot(slot) => HoldPool(s, slot);
    case DropHeld(page) => DropPool(s, page);
    case DropSnapshot(page) => LosePool(s, page);
  }

  lemma HoldCopyPool(s: State)
    requires RefInv(s)
    ensures HoldCopyStep(s).NoMemory? <==> s.pool == []
    ensures HoldCopyStep(s).Done? ==> HoldCopyStep(s).st.pool == s.pool[1..]
  {
    hide RefInv, RefInvWith;
  }

  lemma HoldPool(s: State, slot: Slot)
    requires RefInv(s) && slot in s.index
    ensures HoldSnapshotStep(s, slot).pool == s.pool
  {
    hide Counted, Frames, Mapped;
  }

  lemma DropPool(s: State, p: nat)
    requires RefInv(s) && p !in s.device && HeldCopy(s, p)
    ensures |DropHeldStep(s, p).pool| >= |s.pool|
  {
    hide Linked, Frames, Mapped;
    UnrefPool(s.(held := s.held - multiset{p}), p, false);
  }

  lemma LosePool(s: State, p: nat)
    requires RefInv(s) && p !in s.device && HeldSnap(s, p)
    ensures |DropSnapshotStep(s, p).pool| >= |s.pool|
  {
    hide Linked, Frames, Mapped;
    UnrefPool(LoseSnapshot(s, p), p, false);
  }

  // With a free frame, the repaired kernel finishes every step outside message passing.
  lemma FrameIsEnough(s: State, step: Step)
    requires Inv(s) && Legal(s, step) && Plain(step) && (s.pool != [] || !Takes(s, step))
    ensures Do(s, step, true).Done?
  {
    hide RefInv, Snaps, ReadOnly, Legal, Do, Takes;
    DoFrames(s, step, true);
    DoInv(s, step);
  }

  // ----- runs -----

  // How many steps could take a frame: a fresh page, a fault on a write, a kernel write
  function Demand(steps: seq<Step>): nat {
    if steps == [] then 0 else Count(MayTake(steps[0])) + Demand(steps[1..])
  }

  predicate MayTake(step: Step) {
    step.AssignFresh? || step.HoldCopy? || (step.Fault? && step.write) || step.Prepare?
  }

  // The repaired kernel finishes every run for which there are as many free frames as
  // steps that may take one, so as many as steps.
  lemma {:induction false} FramesAreEnough(s: State, steps: seq<Step>)
    requires Inv(s) && LegalRun(s, steps, true) && forall i | 0 <= i < |steps| :: Plain(steps[i])
    requires |s.pool| >= Demand(steps)
    ensures Run(s, steps, true).Done? && |Run(s, steps, true).st.pool| >= |s.pool| - Demand(steps)
    ensures Demand(steps) <= |steps|
    decreases |steps|
  {
    hide RefInv, Snaps, ReadOnly, Legal, Do, Takes, Plain;
    DemandSmall(steps);
    if steps != [] {
      TakesMay(s, steps[0]);
      DoFrames(s, steps[0], true);
      DoInv(s, steps[0]);
      FramesAreEnough(Do(s, steps[0], true).st, steps[1..]);
    }
  }

  lemma TakesMay(s: State, step: Step)
    ensures Takes(s, step) ==> MayTake(step)
  {}

  lemma {:induction false} DemandSmall(steps: seq<Step>)
    ensures Demand(steps) <= |steps|
  {
    if steps != [] { DemandSmall(steps[1..]); }
  }
}
