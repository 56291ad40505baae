// Where the code as written stops short of its own guarantees, and exactly when.
module CowAsWritten {
  import opened CowState
  import opened CowInvariants
  import opened CowRuns

  // The branch that forgets the flags, then a fork, then a write: the kernel panics.
  lemma SoleBranchThenForkPanics(s: State, vaddr: nat, child: Slot)
    requires Inv(s) && Slot(s.current, vaddr) in s.covered && SoleHolder(s, Slot(s.current, vaddr))
    requires Legal(s, Fault(vaddr, true)) && child in s.covered && child !in s.index && s.pool != []
    ensures var steps := [Fault(vaddr, true), AssignSnapshot(child, Slot(s.current, vaddr)), Fault(vaddr, true)];
      LegalRun(s, steps, false) && Run(s, steps, false) == Panic(Consistency)
  {
    hide SoleHolder, Linked, Counted, Frames, Inv, Legal, Do;
    var slot := Slot(s.current, vaddr);
    var steps := [Fault(vaddr, true), AssignSnapshot(child, slot), Fault(vaddr, true)];
    var s1 := AfterSoleWrite(s, slot);
    var s2 := AfterFork(s1, slot, child);
    assert steps[1..] == [AssignSnapshot(child, slot), Fault(vaddr, true)];
    assert steps[1..][1..] == [Fault(vaddr, true)];
    assert Do(s1, AssignSnapshot(child, slot), false) == Done(s2);
    LastWritePanics(s2, slot, child);
    assert Run(s2, [Fault(vaddr, true)], false) == Panic(Consistency);
  }

  lemma AfterSoleWrite(s: State, slot: Slot) returns (s1: State)
    requires Inv(s) && slot.space == s.current && slot in s.covered && SoleHolder(s, slot)
    requires Legal(s, Fault(slot.vaddr, true))
    ensures Do(s, Fault(slot.vaddr, true), false) == Done(s1) && RefInv(s1)
    ensures s1 == EnterPte(TakeOver(s, slot, false), slot)
    ensures s1.index[slot].flags == SNAPSHOT
    ensures s1.pages[s.index[slot].page].refs == 1 && s1.pages[s.index[slot].page].owners == {slot}
  {
    SoleSnapOwner(s, slot);
    OnlyOwner(s, slot);
    assert slot in SnapOwners(s.index, s.index[slot].page);
    DeviceUnsnapped(s, slot);
    s1 := EnterPte(TakeOver(s, slot, false), slot);
    assert UnshareStep(s, slot, false) == Done(TakeOver(s, slot, false));
    assert MapStep(TakeOver(s, slot, false), slot) == Done(s1);
  }

  lemma AfterFork(s: State, slot: Slot, child: Slot) returns (s2: State)
    requires RefInv(s) && slot in s.index && s.index[slot].flags == SNAPSHOT
    requires child in s.covered && child !in s.index
    requires var pg := s.pages[s.index[slot].page]; pg.refs == 1 && pg.snaps == 0 && pg.owners == {slot}
    ensures Legal(s, AssignSnapshot(child, slot)) && Do(s, AssignSnapshot(child, slot), false) == Done(s2)
    ensures RefInv(s2) && s2.index == s.index[child := Entry(s.index[slot].page, SNAPSHOT)]
    ensures s2.pages[s.index[slot].page] == Page(2, 1, {slot, child})
    ensures s2.current == s.current && s2.covered == s.covered && s2.pool == s.pool
    ensures slot in s2.ptes ==> !s2.ptes[slot].writable
  {
    AttachDone(s, child, s.index[slot].page, SNAPSHOT);
    s2 := Assign(s, child, s.index[slot].page, SNAPSHOT).st;
  }

  lemma LastWritePanics(s: State, slot: Slot, child: Slot)
    requires RefInv(s) && slot in s.index && child in s.index && slot != child
    requires slot.space == s.current && slot in s.covered && s.pool != []
    requires s.index[slot].flags == SNAPSHOT && s.index[child].flags == SNAPSHOT
    requires s.index[slot].page == s.index[child].page
    requires s.pages[s.index[slot].page] == Page(2, 1, {slot, child})
    requires slot in s.ptes ==> !s.ptes[slot].writable
    ensures Legal(s, Fault(slot.vaddr, true)) && Do(s, Fault(slot.vaddr, true), false) == Panic(Consistency)
  {
    assert child in Rest(s, slot);
    assert UnshareCopy(s, slot) == Panic(Consistency);
    assert UnshareStep(s, slot, false) == Panic(Consistency);
  }

  // map_from_user counts a snapshot but leaves write permission alone: the guarantee
  // survives exactly when the page already had a snapshot or is mapped nowhere.
  lemma HoldKeepsReadOnly(s: State, slot: Slot)
    requires Inv(s) && slot in s.index
    ensures ReadOnly(HoldSnapshotStep(s, slot)) <==>
      s.pages[s.index[slot].page].snaps > 0 || forall o | o in s.ptes :: s.index[o].page != s.index[slot].page
  {
    var p := s.index[slot].page;
    var s' := HoldSnapshotStep(s, slot);
    SnapsBelowRefs(s, p);
    if o :| o in s.ptes && s.index[o].page == p && s.pages[p].snaps == 0 {
      assert s'.ptes[o].writable && s'.pages[p].snaps == 1;
    }
  }

  // page_list_free drops the count but never gives write permission back.
  lemma DropKeepsReadOnly(s: State, p: nat)
    requires Inv(s) && p in s.heldSnap && p !in s.device
    ensures ReadOnly(DropSnapshotStep(s, p)) <==>
      s.pages[p].snaps > 1 || forall o | o in s.ptes :: s.index[o].page != p
  {
    UnrefReadOnlyIff(LoseSnapshot(s, p), p);
    LoseKeepsReadOnly(s, p);
  }

  lemma LoseKeepsReadOnly(s: State, p: nat)
    requires Inv(s) && p in s.heldSnap
    ensures ReadOnly(LoseSnapshot(s, p)) <==>
      s.pages[p].snaps > 1 || forall o | o in s.ptes :: s.index[o].page != p
  {
    var s1 := LoseSnapshot(s, p);
    assert s.pages[p].snaps > 0;
    if o :| o in s.ptes && s.index[o].page == p && s.pages[p].snaps == 1 {
      assert !s1.ptes[o].writable;
    }
  }

  lemma UnrefReadOnlyIff(s: State, p: nat)
    requires Linked(s) && Mapped(s) && p in s.pages && (s.pages[p].refs == 1 ==> |s.pages[p].owners| == 0)
    ensures ReadOnly(PageUnref(s, p, false)) <==> ReadOnly(s)
  {
    if s.pages[p].refs == 1 {
      forall o | o in s.index ensures s.index[o].page != p {
        assert o in Owners(s.index, s.index[o].page);
      }
    }
  }

  // sendpage never looks at PF_HARDWARE: sending a page stops the kernel exactly when
  // the page is device memory.
  lemma SendingPanics(s: State, slot: Slot, from: Slot)
    requires Inv(s) && slot !in s.index && from in s.index
    ensures Assign(s, slot, s.index[from].page, SNAPSHOT).Panic? <==> s.index[from].flags.hardware
  {
    var p := s.index[from].page;
    assert from in Owners(s.index, p);
    if s.index[from].flags.hardware {
      DeviceUnsnapped(s, from);
      var index := s.index[slot := Entry(p, SNAPSHOT)];
      assert from in s.pages[p].owners + {slot} && index[from].flags.hardware;
    } else {
      AttachDone(s, slot, p, SNAPSHOT);
    }
  }

  // As written, a step leaves the snapshot counts right exactly when it does not run the
  // branch that forgets the flags.
  lemma AsWrittenCounts(s: State, step: Step)
    requires Inv(s) && Legal(s, step) && Do(s, step, false).Done?
    ensures Snaps(Do(s, step, false).st) <==> !TakesSoleBranch(s, step)
  {
    if !TakesSoleBranch(s, step) {
      DoSnaps(s, step, false);
    } else {
      match step
      case Fault(vaddr, write) => SoleFaultLosesCount(s, Slot(s.current, vaddr));
      case Prepare(vaddr) => TakeOverLosesCount(s, Slot(s.current, vaddr));
    }
  }

  lemma SoleFaultLosesCount(s: State, slot: Slot)
    requires Inv(s) && slot.space == s.current && slot in s.covered && SoleHolder(s, slot)
    requires Legal(s, Fault(slot.vaddr, true))
    ensures Do(s, Fault(slot.vaddr, true), false).Done? && !Snaps(Do(s, Fault(slot.vaddr, true), false).st)
  {
    var s1 := AfterSoleWrite(s, slot);
    TakeOverLosesCount(s, slot);
  }

  // A state that meets the premises of SoleBranchThenForkPanics: task 1 has forked task 2
  // and then written to its only page, which left the child alone on the old one.
  lemma ChildAlone() returns (s: State)
    ensures Inv(s) && SoleHolder(s, Slot(s.current, 0)) && Slot(s.current, 0) in s.covered
    ensures Legal(s, Fault(0, true)) && Slot(3, 0) in s.covered && Slot(3, 0) !in s.index && s.pool != []
  {
    var child := Slot(2, 0);
    var parent := Slot(1, 0);
    s := State(
      map[0 := Page(1, 0, {}), 1 := Page(1, 1, {child}), 2 := Page(1, 0, {parent})],
      map[child := Entry(1, SNAPSHOT), parent := Entry(2, SHARED)],
      map[parent := Pte(2, true)],
      map[0 := Zeros(), 1 := Zeros(), 2 := Zeros(), 3 := Zeros()],
      [3], multiset{0}, multiset{}, {child, parent, Slot(3, 0)}, {}, 0, 2);
    assert Owners(s.index, 0) == {} && Owners(s.index, 1) == {child} && Owners(s.index, 2) == {parent};
    assert SnapOwners(s.index, 0) == {} && SnapOwners(s.index, 1) == {child} && SnapOwners(s.index, 2) == {};
  }

  // Where map_from_user breaks the guarantee: a page mapped writable, without snapshots
  lemma MappedAlone() returns (s: State, slot: Slot)
    ensures Inv(s) && slot in s.index && !ReadOnly(HoldSnapshotStep(s, slot))
  {
    slot := Slot(1, 0);
    s := State(
      map[0 := Page(1, 0, {}), 1 := Page(1, 0, {slot})],
      map[slot := Entry(1, SHARED)], map[slot := Pte(1, true)], map[0 := Zeros(), 1 := Zeros()],
      [], multiset{0}, multiset{}, {slot}, {}, 0, 1);
    assert Owners(s.index, 0) == {} && Owners(s.index, 1) == {slot};
    assert SnapOwners(s.index, 0) == {} && SnapOwners(s.index, 1) == {};
    assert HoldSnapshotStep(s, slot).ptes[slot].writable;
  }

  // Where page_list_free breaks it: its page is mapped, and held by it alone
  lemma HeldOnce() returns (s: State, p: nat)
    ensures Inv(s) && p in s.heldSnap && p !in s.device && !ReadOnly(DropSnapshotStep(s, p))
  {
    p := 1;
    var slot := Slot(1, 0);
    s := State(
      map[0 := Page(1, 0, {}), 1 := Page(2, 1, {slot})],
      map[slot := Entry(1, SHARED)], map[slot := Pte(1, false)], map[0 := Zeros(), 1 := Zeros()],
      [], multiset{0}, multiset{1}, {slot}, {}, 0, 1);
    assert Owners(s.index, 0) == {} && Owners(s.index, 1) == {slot};
    assert SnapOwners(s.index, 0) == {} && SnapOwners(s.index, 1) == {};
    assert multiset{1}[1] == 1;
    DropKeepsReadOnly(s, p);
    assert slot in s.ptes && s.index[slot].page == p;
  }

  // A page of device memory in an address space: sending it stops the kernel.
  lemma DeviceMapped() returns (s: State, from: Slot, to: Slot)
    ensures Inv(s) && from in s.index && to !in s.index && Assign(s, to, s.index[from].page, SNAPSHOT).Panic?
    ensures s.index.Keys <= s.covered && s.index == map[from := Entry(1, DEVICE)] && s.covered == {from}
    ensures s.current == 1 && from == Slot(1, PAGE_SIZE) && to == Slot(2, 0)
  {
    from, to := Slot(1, PAGE_SIZE), Slot(2, 0);
    s := State(
      map[0 := Page(1, 0, {}), 1 := Page(1, 0, {from})],
      map[from := Entry(1, DEVICE)], map[from := Pte(1, true)], map[0 := Zeros(), 1 := Zeros()],
      [], multiset{0}, multiset{}, {from}, {1}, 0, 1);
    assert Owners(s.index, 0) == {} && Owners(s.index, 1) == {from};
    assert SnapOwners(s.index, 0) == {} && SnapOwners(s.index, 1) == {};
    SendingPanics(s, to, from);
  }
}
