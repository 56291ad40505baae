// What the steps of the memory manager know as covered pages are the pages of the VMAs.
module CowCover {
  import opened CowState
  import opened CowInvariants
  import opened CowRuns
  import opened CowUser
  import VmaList

  // Every entry lies in a VMA.
  predicate Within(s: State) {
    s.index.Keys <= s.covered
  }

  lemma UnassignWithin(s: State, slot: Slot)
    requires RefInv(s) && slot in s.index && Unassign(s, slot).Done?
    ensures Unassign(s, slot).st.index.Keys == s.index.Keys - {slot} && Unassign(s, slot).st.covered == s.covered
  {}

  lemma AssignWithin(s: State, slot: Slot, p: nat, flags: Flags)
    requires RefInv(s) && Survives(s, slot, p) && slot in s.covered && Within(s) && Assign(s, slot, p, flags).Done?
    ensures Within(Assign(s, slot, p, flags).st)
  {
    hide RefInv, PageUnref, Detach;
    if slot in s.index { UnassignWithin(s, slot); }
  }

  lemma UnshareWithin(s: State, slot: Slot, repaired: bool)
    requires RefInv(s) && slot in s.index && UnshareStep(s, slot, repaired).Done?
    ensures var t := UnshareStep(s, slot, repaired).st; t.index.Keys == s.index.Keys && t.covered == s.covered
  {
    hide RestoreWrite, UnshareCopy, Counted, Distinct, Mapped;
    if s.pages[s.index[slot].page].snaps > 0 && !SoleHolder(s, slot) {
      CopyWithin(s, slot);
    }
  }

  lemma CopyWithin(s: State, slot: Slot)
    requires Copies(s, slot) && UnshareCopy(s, slot).Done?
    ensures var t := UnshareCopy(s, slot).st; t.index.Keys == s.index.Keys && t.covered == s.covered
  {
    hide RestoreWrite, AllShared, Rest, Group;
  }

  lemma MapWithin(s: State, slot: Slot)
    requires RefInv(s) && slot in s.index && MapStep(s, slot).Done?
    ensures var t := MapStep(s, slot).st; t.index.Keys == s.index.Keys && t.covered == s.covered
  {}

  lemma FaultWithin(s: State, slot: Slot, write: bool, repaired: bool)
    requires RefInv(s) && Within(s) && FaultStep(s, slot, write, repaired).Done?
    ensures Within(FaultStep(s, slot, write, repaired).st)
  {
    hide RefInv, UnshareStep, MapStep, RemoveWrite, AnyDevice;
    if slot in s.covered {
      var s1 := Populate(s, slot).st;
      assert s1.index.Keys <= s1.covered;
      if write {
        UnshareWithin(s1, slot, repaired);
        MapWithin(UnshareStep(s1, slot, repaired).st, slot);
      } else {
        MapWithin(s1, slot);
      }
    }
  }

  lemma AssignsWithin(s: State, step: Step)
    requires RefInv(s) && Legal(s, step) && Within(s) && DoAssign.requires(s, step) && DoAssign(s, step).Done?
    ensures Within(DoAssign(s, step).st)
  {
    hide RefInvWith, Assign;
    match step
    case AssignFresh(_) =>
    case AssignSnapshot(slot, from) => AssignWithin(s, slot, s.index[from].page, SNAPSHOT);
    case AssignShared(slot, from) => AssignWithin(s, slot, s.index[from].page, SHARED);
    case AssignDevice(_, _) =>
    case MapHeld(slot, page) => AssignWithin(s, slot, page, SNAPSHOT);
  }

  lemma UnmapWithin(s: State, slot: Slot)
    requires RefInv(s) && Within(s) && UnmapStep(s, slot).Done?
    ensures Within(UnmapStep(s, slot).st)
  {
    hide RefInvWith, Unassign;
    var s1 := s.(covered := s.covered - {slot});
    Uncovered(s, slot);
    if slot in s.index { UnassignWithin(s1, slot); }
  }

  // No step puts an entry where no VMA is, or takes a VMA from under an entry.
  lemma DoWithin(s: State, step: Step, repaired: bool)
    requires RefInv(s) && Legal(s, step) && Within(s) && Do(s, step, repaired).Done?
    ensures Within(Do(s, step, repaired).st)
  {
    hide RefInv, DoAssign, FaultStep, UnshareStep, UnmapStep;
    match step
    case AssignFresh(_) | AssignSnapshot(_, _) | AssignShared(_, _) | AssignDevice(_, _) | MapHeld(_, _) =>
      AssignsWithin(s, step);
    case Unmap(slot) => UnmapWithin(s, slot);
    case Fault(vaddr, write) => FaultWithin(s, Slot(s.current, vaddr), write, repaired);
    case Prepare(vaddr) => UnshareWithin(s, Slot(s.current, vaddr), repaired);
    case _ =>
  }

  lemma {:induction false} RunWithin(s: State, steps: seq<Step>, repaired: bool)
    requires RefInv(s) && Within(s) && LegalRun(s, steps, repaired) && Run(s, steps, repaired).Done?
    ensures Within(Run(s, steps, repaired).st)
    decreases |steps|
  {
    hide RefInv, Legal, Do, Within;
    if steps != [] {
      DoWithin(s, steps[0], repaired);
      RunWithin(Do(s, steps[0], repaired).st, steps[1..], repaired);
    }
  }

  // ----- the VMA list of a space -----

  predicate Sized(v: VmaList.Vma) {
    v.begin % PAGE_SIZE == 0 && v.length % PAGE_SIZE == 0
  }

  predicate PageSized(vmas: seq<VmaList.Vma>) {
    forall i | 0 <= i < |vmas| :: Sized(vmas[i])
  }

  // The covered pages of the space are those of its VMAs.
  ghost predicate Tied(covered: set<Slot>, space: nat, vmas: seq<VmaList.Vma>) {
    PageSized(vmas) && forall a: nat | Base(a) == a :: Slot(space, a) in covered <==> VmaList.Covers(vmas, a)
  }

  lemma SamePage(begin: nat, length: nat, a: nat)
    requires begin % PAGE_SIZE == 0 && length % PAGE_SIZE == 0
    ensures begin <= a < begin + length <==> begin <= Base(a) < begin + length
  {
    var b, l, q := begin / 4096, length / 4096, a / 4096;
    assert begin == 4096 * b && length == 4096 * l && Base(a) == 4096 * q;
  }

  // The handler asks vma_find_by_vaddr about the address itself: the same answer.
  lemma FaultFinds(covered: set<Slot>, space: nat, vmas: seq<VmaList.Vma>, a: nat)
    requires Tied(covered, space, vmas)
    ensures Slot(space, Base(a)) in covered <==> VmaList.Covers(vmas, a)
  {
    forall i | 0 <= i < |vmas| ensures VmaList.Inside(vmas[i], a) <==> VmaList.Inside(vmas[i], Base(a)) {
      SamePage(vmas[i].begin, vmas[i].length, a);
    }
    BaseOf(Base(a), 0);
    assert VmaList.Covers(vmas, a) <==> VmaList.Covers(vmas, Base(a));
  }

  // validate_range asks about every address of a range of at most a page: its two pages
  // are covered.
  lemma CopyValidates(covered: set<Slot>, space: nat, vmas: seq<VmaList.Vma>, address: nat, len: nat)
    requires Tied(covered, space, vmas) && 0 < len <= PAGE_SIZE
    ensures (forall a | address <= a < address + len :: VmaList.Covers(vmas, a)) <==>
      Slot(space, Base(address)) in covered
      && (OnFirst(address, len) < len ==> Slot(space, Base(address) + PAGE_SIZE) in covered)
  {
    forall a | address <= a < address + len
      ensures VmaList.Covers(vmas, a) <==>
        Slot(space, if a < Base(address) + PAGE_SIZE then Base(address) else Base(address) + PAGE_SIZE) in covered
    {
      BaseOf(address, a - address);
      FaultFinds(covered, space, vmas, a);
    }
    if forall a | address <= a < address + len :: VmaList.Covers(vmas, a) {
      assert VmaList.Covers(vmas, address);
      if OnFirst(address, len) < len {
        assert VmaList.Covers(vmas, address + len - 1);
      }
    }
  }

  lemma Whole(a: nat, b: nat)
    requires a % PAGE_SIZE == 0 && b % PAGE_SIZE == 0
    ensures (a + b) % PAGE_SIZE == 0 && (a <= b ==> (b - a) % PAGE_SIZE == 0)
  {
    var x, y := a / 4096, b / 4096;
    assert a == 4096 * x && b == 4096 * y;
    assert (a + b) == 4096 * (x + y) && b - a == 4096 * (y - x);
  }

  lemma PartsSized(v: VmaList.Vma, base: nat, end: nat)
    requires Sized(v) && base % PAGE_SIZE == 0 && end % PAGE_SIZE == 0 && base <= end
    requires !(VmaList.End(v) <= base) && !(v.begin >= end)
    ensures VmaList.Surrounds(v, base, end) ==> Sized(VmaList.LeftPart(v, base)) && Sized(VmaList.RightPart(v, end))
    ensures !VmaList.Surrounds(v, base, end) && !VmaList.Swallowed(v, base, end) ==>
      Sized(VmaList.Trimmed(v, base, end))
  {
    hide VmaList.Outside, VmaList.Lower, VmaList.Upper;
    Whole(v.begin, v.length);
    Whole(v.begin, base);
    Whole(end, v.begin + v.length);
  }

  // Trimming and splitting at page boundaries leaves whole pages.
  lemma {:induction false} RemovedSized(vmas: seq<VmaList.Vma>, base: nat, end: nat)
    requires PageSized(vmas) && base <= end && base % PAGE_SIZE == 0 && end % PAGE_SIZE == 0
    ensures PageSized(VmaList.Removed(vmas, base, end))
  {
    hide VmaList.Surrounds, VmaList.Swallowed, VmaList.LeftPart, VmaList.RightPart, VmaList.Trimmed, Sized;
    if vmas != [] {
      var v := vmas[0];
      SizedAt(vmas, 0);
      TailSized(vmas);
      if !(VmaList.End(v) <= base) && !(v.begin >= end) {
        PartsSized(v, base, end);
      }
      RemovedSized(vmas[1..], base, end);
    }
  }

  lemma SizedAt(vmas: seq<VmaList.Vma>, i: nat)
    requires PageSized(vmas) && i < |vmas|
    ensures Sized(vmas[i])
  {}

  lemma TailSized(vmas: seq<VmaList.Vma>)
    requires PageSized(vmas) && vmas != []
    ensures PageSized(vmas[1..])
  {}

  // munmap removes the pages of the range from both.
  lemma RemoveTied(covered: set<Slot>, space: nat, vmas: seq<VmaList.Vma>, base: nat, end: nat, gone: set<Slot>)
    requires Tied(covered, space, vmas) && VmaList.Sorted(vmas)
    requires base <= end && base % PAGE_SIZE == 0 && end % PAGE_SIZE == 0
    requires forall o | o in covered && o.space == space :: o in gone <==> base <= o.vaddr < end
    ensures Tied(covered - gone, space, VmaList.Removed(vmas, base, end))
  {
    hide PageSized;
    RemovedSized(vmas, base, end);
    forall a: nat | Base(a) == a
      ensures Slot(space, a) in covered - gone <==> VmaList.Covers(VmaList.Removed(vmas, base, end), a)
    {
      VmaList.RemovedCovers(vmas, base, end, a);
    }
  }

  // ----- room for a new VMA -----

  function Range(space: nat, dst: nat, n: nat): set<Slot> {
    set i | 0 <= i < n :: Slot(space, dst + PAGE_SIZE * i)
  }

  // None of the n pages from dst is covered.
  predicate Room(covered: set<Slot>, space: nat, dst: nat, n: nat) {
    forall i | 0 <= i < n :: Slot(space, dst + PAGE_SIZE * i) !in covered
  }

  lemma PageBase(dst: nat, i: nat)
    requires dst % PAGE_SIZE == 0
    ensures Base(dst + PAGE_SIZE * i) == dst + PAGE_SIZE * i
  {
    var q := dst / 4096;
    assert dst == 4096 * q && dst + PAGE_SIZE * i == 4096 * (q + i);
  }

  // Where the list has a gap, no page is covered.
  lemma GapRoom(covered: set<Slot>, space: nat, vmas: seq<VmaList.Vma>, dst: nat, n: nat)
    requires Tied(covered, space, vmas) && dst % PAGE_SIZE == 0 && VmaList.Gap(vmas, dst, PAGE_SIZE * n)
    ensures Room(covered, space, dst, n)
  {
    forall i | 0 <= i < n ensures Slot(space, dst + PAGE_SIZE * i) !in covered {
      var a := dst + PAGE_SIZE * i;
      PageBase(dst, i);
      forall j | 0 <= j < |vmas| ensures !VmaList.Inside(vmas[j], a) {
        assert VmaList.Clear(vmas[j], dst, PAGE_SIZE * n);
      }
    }
  }

  // The other way round only for a range that is not empty, among VMAs that are not empty.
  lemma RoomIsGap(covered: set<Slot>, space: nat, vmas: seq<VmaList.Vma>, dst: nat, n: nat)
    requires Tied(covered, space, vmas) && dst % PAGE_SIZE == 0 && n > 0
    requires forall j | 0 <= j < |vmas| :: vmas[j].length > 0
    ensures Room(covered, space, dst, n) <==> VmaList.Gap(vmas, dst, PAGE_SIZE * n)
  {
    if VmaList.Gap(vmas, dst, PAGE_SIZE * n) {
      GapRoom(covered, space, vmas, dst, n);
    } else {
      var j :| 0 <= j < |vmas| && !VmaList.Clear(vmas[j], dst, PAGE_SIZE * n);
      SizedAt(vmas, j);
      var i := InTheWay(vmas[j], dst, n);
      PageBase(dst, i);
      assert Slot(space, dst + PAGE_SIZE * i) in covered;
    }
  }

  // A VMA in the way covers the page where it begins, or the first page of the range.
  lemma InTheWay(v: VmaList.Vma, dst: nat, n: nat) returns (i: nat)
    requires Sized(v) && v.length > 0 && dst % PAGE_SIZE == 0 && n > 0 && !VmaList.Clear(v, dst, PAGE_SIZE * n)
    ensures i < n && VmaList.Inside(v, dst + PAGE_SIZE * i)
  {
    if v.begin <= dst {
      i := 0;
    } else {
      Whole(dst, v.begin);
      i := (v.begin - dst) / 4096;
      assert v.begin - dst == 4096 * i;
    }
  }

  // An empty VMA covers nothing and is in the way all the same; and so is a VMA around an
  // empty range.
  lemma EmptyInTheWay()
    ensures var empty := [VmaList.Vma(PAGE_SIZE, 0, [])];
      Tied({}, 2, empty) && Room({}, 2, 0, 2) && !VmaList.Gap(empty, 0, 2 * PAGE_SIZE)
    ensures var around := [VmaList.Vma(0, 2 * PAGE_SIZE, [])];
      Room({Slot(2, 0), Slot(2, PAGE_SIZE)}, 2, PAGE_SIZE, 0) && !VmaList.Gap(around, PAGE_SIZE, 0)
  {
    var empty, around := [VmaList.Vma(PAGE_SIZE, 0, [])], [VmaList.Vma(0, 2 * PAGE_SIZE, [])];
    assert Sized(empty[0]);
    assert !VmaList.Clear(empty[0], 0, 2 * PAGE_SIZE);
    assert !VmaList.Clear(around[0], PAGE_SIZE, 0);
  }

  // A new VMA in the list is the pages of its range.
  lemma InsertTied(covered: set<Slot>, space: nat, vmas: seq<VmaList.Vma>, i: nat, dst: nat, n: nat)
    requires Tied(covered, space, vmas) && i <= |vmas| && dst % PAGE_SIZE == 0
    ensures Tied(covered + Range(space, dst, n), space, vmas[..i] + [VmaList.Vma(dst, PAGE_SIZE * n, [])] + vmas[i..])
  {
    var v := VmaList.Vma(dst, PAGE_SIZE * n, []);
    var after := vmas[..i] + [v] + vmas[i..];
    forall j | 0 <= j < |after| ensures Sized(after[j]) {
      if j < i { SizedAt(vmas, j); } else if j > i { SizedAt(vmas, j - 1); }
    }
    forall a: nat | Base(a) == a
      ensures Slot(space, a) in covered + Range(space, dst, n) <==> VmaList.Covers(after, a)
    {
      RangeInside(space, dst, n, a);
      CoversInserted(vmas, i, v, a);
    }
  }

  lemma CoversInserted(vmas: seq<VmaList.Vma>, i: nat, v: VmaList.Vma, a: nat)
    requires i <= |vmas|
    ensures VmaList.Covers(vmas[..i] + [v] + vmas[i..], a) <==> VmaList.Covers(vmas, a) || VmaList.Inside(v, a)
  {
    var after := vmas[..i] + [v] + vmas[i..];
    if j :| 0 <= j < |vmas| && VmaList.Inside(vmas[j], a) {
      assert VmaList.Inside(after[if j < i then j else j + 1], a);
    }
    if VmaList.Inside(v, a) { assert VmaList.Inside(after[i], a); }
    if j :| 0 <= j < |after| && VmaList.Inside(after[j], a) {
      if j != i { assert VmaList.Inside(vmas[if j < i then j else j - 1], a); }
    }
  }

  lemma RangeInside(space: nat, dst: nat, n: nat, a: nat)
    requires dst % PAGE_SIZE == 0 && Base(a) == a
    ensures Slot(space, a) in Range(space, dst, n) <==> dst <= a < dst + PAGE_SIZE * n
  {
    if dst <= a < dst + PAGE_SIZE * n {
      Whole(dst, a);
      var i := (a - dst) / 4096;
      assert a == dst + PAGE_SIZE * i && 0 <= i < n;
    }
  }

  lemma EndSized(vmas: seq<VmaList.Vma>, i: nat)
    requires PageSized(vmas) && i < |vmas|
    ensures VmaList.End(vmas[i]) % PAGE_SIZE == 0
  {
    SizedAt(vmas, i);
    Whole(vmas[i].begin, vmas[i].length);
  }
}
