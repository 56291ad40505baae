module CowInvariants {
  import opened CowState

  function Owners(index: map<Slot, Entry>, p: nat): set<Slot> {
    set o | o in index && index[o].page == p
  }

  function SnapOwners(index: map<Slot, Entry>, p: nat): set<Slot> {
    set o | o in index && index[o].page == p && index[o].flags.snapshot
  }

  predicate Coherent(f: Flags) {
    f.shared != f.snapshot && (f.hardware ==> f.shared)
  }

  predicate Linked(s: State) {
    && (forall o | o in s.index :: s.index[o].page in s.pages && Coherent(s.index[o].flags))
    && (forall o | o in s.index :: s.index[o].flags.hardware <==> s.index[o].page in s.device)
    && (forall p | p in s.pages :: s.pages[p].owners == Owners(s.index, p))
  }

  // Every reference of a page is an owner, a hold, or one of the references in `hand`
  predicate Counted(s: State, hand: multiset<nat>) {
    && (forall p | p in s.pages ::
         s.pages[p].refs == |s.pages[p].owners| + s.held[p] + s.heldSnap[p] + hand[p] && s.pages[p].refs > 0)
    && (forall p | p in s.held :: p in s.pages)
    && (forall p | p in s.heldSnap :: p in s.pages)
    && (forall p | p in hand :: p in s.pages)
  }

  predicate Distinct(q: seq<nat>) {
    forall i, j | 0 <= i < j < |q| :: q[i] != q[j]
  }

  predicate Frames(s: State) {
    && Distinct(s.pool)
    && (forall p | p in s.pool :: p !in s.pages && p !in s.device && p in s.mem)
    && (forall p | p in s.pages :: p in s.mem)
    && s.zero in s.held && s.zero !in s.device
  }

  predicate Mapped(s: State) {
    forall o | o in s.ptes :: o in s.index && s.ptes[o].frame == s.index[o].page
  }

  predicate RefInvWith(s: State, hand: multiset<nat>) {
    Linked(s) && Counted(s, hand) && Frames(s) && Mapped(s)
  }

  predicate RefInv(s: State) {
    RefInvWith(s, multiset{})
  }

  predicate Snaps(s: State) {
    && (forall p | p in s.pages :: s.pages[p].snaps == |SnapOwners(s.index, p)| + s.heldSnap[p])
    && (forall p | p in s.heldSnap :: p !in s.device)
    && (forall o | o in s.index && s.index[o].page == s.zero :: s.index[o].flags.snapshot)
  }

  predicate ReadOnly(s: State)
  {
    forall o | o in s.ptes && o in s.index && s.index[o].page in s.pages ::
      s.ptes[o].writable <==> s.pages[s.index[o].page].snaps == 0
  }

  predicate Inv(s: State) {
    RefInv(s) && Snaps(s) && ReadOnly(s)
  }

  // ----- page_unref -----

  lemma UnrefLinked(s: State, p: nat, hw: bool, hand: multiset<nat>)
    requires Linked(s) && Counted(s, hand) && p in hand
    ensures Linked(PageUnref(s, p, hw))
  {
    if s.pages[p].refs == 1 {
      assert |s.pages[p].owners| == 0;
      forall o | o in s.index ensures s.index[o].page != p {
        assert o in Owners(s.index, s.index[o].page);
      }
    }
  }

  lemma UnrefCounted(s: State, p: nat, hw: bool, hand: multiset<nat>)
    requires Counted(s, hand) && p in hand
    ensures Counted(PageUnref(s, p, hw), hand - multiset{p})
  {
    hide Zeros;
  }

  lemma UnrefFrames(s: State, p: nat, hw: bool, hand: multiset<nat>)
    requires Frames(s) && Counted(s, hand) && p in hand && (hw <==> p in s.device)
    ensures Frames(PageUnref(s, p, hw))
  {}

  lemma UnrefKeeps(s: State, p: nat, hw: bool, hand: multiset<nat>)
    requires RefInvWith(s, hand) && p in hand && (hw <==> p in s.device)
    ensures RefInvWith(PageUnref(s, p, hw), hand - multiset{p})
  {
    UnrefLinked(s, p, hw, hand);
    UnrefCounted(s, p, hw, hand);
    UnrefFrames(s, p, hw, hand);
  }

  lemma UnrefSnaps(s: State, p: nat, hw: bool)
    requires p in s.pages && Snaps(s)
    ensures Snaps(PageUnref(s, p, hw))
  {}

  lemma UnrefReadOnly(s: State, p: nat, hw: bool)
    requires p in s.pages && ReadOnly(s)
    ensures ReadOnly(PageUnref(s, p, hw))
  {}

  // ----- the part of unassign_page before page_unref -----

  lemma DetachLinked(s: State, slot: Slot)
    requires Linked(s) && slot in s.index && Detach(s, slot).Done?
    ensures Linked(Detach(s, slot).st)
  {
    var s' := Detach(s, slot).st;
    forall x | x in s'.pages
      ensures s'.pages[x].owners == Owners(s'.index, x)
    {
      assert Owners(s'.index, x) == Owners(s.index, x) - {slot};
    }
  }

  lemma DetachCounted(s: State, slot: Slot, hand: multiset<nat>)
    requires Linked(s) && Counted(s, hand) && slot in s.index && Detach(s, slot).Done?
    ensures Counted(Detach(s, slot).st, hand + multiset{s.index[slot].page})
  {
    assert slot in Owners(s.index, s.index[slot].page);
  }

  lemma DetachMapped(s: State, slot: Slot)
    requires Linked(s) && Mapped(s) && Frames(s) && slot in s.index && Detach(s, slot).Done?
    ensures Mapped(Detach(s, slot).st) && Frames(Detach(s, slot).st)
  {}

  lemma DetachKeeps(s: State, slot: Slot)
    requires RefInv(s) && slot in s.index && Detach(s, slot).Done?
    ensures RefInvWith(Detach(s, slot).st, multiset{s.index[slot].page})
  {
    DetachLinked(s, slot);
    DetachCounted(s, slot, multiset{});
    assert multiset{} + multiset{s.index[slot].page} == multiset{s.index[slot].page};
    DetachMapped(s, slot);
  }

  lemma DetachDone(s: State, slot: Slot)
    requires Linked(s) && Counted(s, multiset{}) && Snaps(s) && slot in s.index
    ensures Detach(s, slot).Done?
  {
    var p := s.index[slot].page;
    if s.index[slot].flags.snapshot && s.pages[p].snaps == 1 {
      assert slot in SnapOwners(s.index, p);
      assert |SnapOwners(s.index, p) - {slot}| == 0;
      forall o | o in s.pages[p].owners - {slot} ensures s.index[o].flags.shared {
        assert o !in SnapOwners(s.index, p) - {slot};
      }
    }
  }

  lemma DetachSnaps(s: State, slot: Slot)
    requires Linked(s) && Snaps(s) && slot in s.index && Detach(s, slot).Done?
    ensures Snaps(Detach(s, slot).st)
  {
    var s' := Detach(s, slot).st;
    forall x | x in s'.pages
      ensures s'.pages[x].snaps == |SnapOwners(s'.index, x)| + s'.heldSnap[x]
    {
      assert SnapOwners(s'.index, x) == SnapOwners(s.index, x) - {slot};
    }
  }

  lemma DetachReadOnly(s: State, slot: Slot)
    requires Linked(s) && Snaps(s) && ReadOnly(s) && slot in s.index && Detach(s, slot).Done?
    ensures ReadOnly(Detach(s, slot).st)
  {
    var p := s.index[slot].page;
    assert s.index[slot].flags.snapshot ==> slot in SnapOwners(s.index, p);
    assert s.index[slot].flags.snapshot ==> s.pages[p].snaps > 0;
  }

  lemma UnassignRefInv(s: State, slot: Slot)
    requires RefInv(s) && slot in s.index && Unassign(s, slot).Done?
    ensures RefInv(Unassign(s, slot).st)
  {
    DetachKeeps(s, slot);
    var p := s.index[slot].page;
    UnrefKeeps(Detach(s, slot).st, p, s.index[slot].flags.hardware, multiset{p});
    assert multiset{p} - multiset{p} == multiset{};
  }

  lemma UnassignSnaps(s: State, slot: Slot)
    requires RefInv(s) && Snaps(s) && slot in s.index
    ensures Unassign(s, slot).Done? && Snaps(Unassign(s, slot).st)
  {
    DetachDone(s, slot);
    DetachSnaps(s, slot);
    UnrefSnaps(Detach(s, slot).st, s.index[slot].page, s.index[slot].flags.hardware);
  }

  lemma UnassignReadOnly(s: State, slot: Slot)
    requires RefInv(s) && Snaps(s) && ReadOnly(s) && slot in s.index && Unassign(s, slot).Done?
    ensures ReadOnly(Unassign(s, slot).st)
  {
    DetachReadOnly(s, slot);
    UnrefReadOnly(Detach(s, slot).st, s.index[slot].page, s.index[slot].flags.hardware);
  }

  // ----- address_space_assign_page_no_addr_check -----

  lemma AttachLinked(s: State, slot: Slot, p: nat, flags: Flags)
    requires Linked(s) && slot !in s.index && p in s.pages
    requires Coherent(flags) && (flags.hardware <==> p in s.device)
    requires Attach(s, slot, p, flags).Done?
    ensures Linked(Attach(s, slot, p, flags).st)
  {
    var s' := Attach(s, slot, p, flags).st;
    forall x | x in s'.pages
      ensures s'.pages[x].owners == Owners(s'.index, x)
    {
      assert Owners(s'.index, x) == if x == p then Owners(s.index, x) + {slot} else Owners(s.index, x);
    }
  }

  lemma AttachCounted(s: State, slot: Slot, p: nat, flags: Flags, hand: multiset<nat>)
    requires Linked(s) && Counted(s, hand) && slot !in s.index && p in s.pages
    requires Attach(s, slot, p, flags).Done?
    ensures Counted(Attach(s, slot, p, flags).st, hand)
  {
    assert slot !in s.pages[p].owners;
  }

  lemma AttachMapped(s: State, slot: Slot, p: nat, flags: Flags)
    requires Linked(s) && Mapped(s) && Frames(s) && slot !in s.index && p in s.pages
    requires Attach(s, slot, p, flags).Done?
    ensures Mapped(Attach(s, slot, p, flags).st) && Frames(Attach(s, slot, p, flags).st)
  {}

  lemma AttachRefInv(s: State, slot: Slot, p: nat, flags: Flags, hand: multiset<nat>)
    requires RefInvWith(s, hand) && slot !in s.index && p in s.pages
    requires Coherent(flags) && (flags.hardware <==> p in s.device)
    requires Attach(s, slot, p, flags).Done?
    ensures RefInvWith(Attach(s, slot, p, flags).st, hand)
  {
    AttachLinked(s, slot, p, flags);
    AttachCounted(s, slot, p, flags, hand);
    AttachMapped(s, slot, p, flags);
  }

  lemma AttachDone(s: State, slot: Slot, p: nat, flags: Flags)
    requires Linked(s) && p in s.pages && s.pages[p].refs > 0
    requires Coherent(flags) && (flags.hardware <==> p in s.device)
    ensures Attach(s, slot, p, flags).Done?
  {
    var index := s.index[slot := Entry(p, flags)];
    if flags.snapshot {
      forall o | o in s.pages[p].owners + {slot} ensures !index[o].flags.hardware {
        assert o == slot || o in Owners(s.index, p);
      }
    }
  }

  lemma AttachSnaps(s: State, slot: Slot, p: nat, flags: Flags)
    requires Snaps(s) && slot !in s.index && p in s.pages
    requires p == s.zero ==> flags.snapshot
    requires Attach(s, slot, p, flags).Done?
    ensures Snaps(Attach(s, slot, p, flags).st)
  {
    hide RemoveWrite, AnyDevice, SnapOwners;
    var s' := Attach(s, slot, p, flags).st;
    forall x | x in s'.pages
      ensures s'.pages[x].snaps == |SnapOwners(s'.index, x)| + s'.heldSnap[x]
    {
      AttachSnapOwners(s.index, slot, p, flags, x);
    }
  }

  lemma AttachSnapOwners(index: map<Slot, Entry>, slot: Slot, p: nat, flags: Flags, x: nat)
    requires slot !in index
    ensures x == p && flags.snapshot ==> |SnapOwners(index[slot := Entry(p, flags)], x)| == |SnapOwners(index, x)| + 1
    ensures x != p || !flags.snapshot ==> |SnapOwners(index[slot := Entry(p, flags)], x)| == |SnapOwners(index, x)|
  {
    if x == p && flags.snapshot {
      assert SnapOwners(index[slot := Entry(p, flags)], x) == SnapOwners(index, x) + {slot};
    } else {
      assert SnapOwners(index[slot := Entry(p, flags)], x) == SnapOwners(index, x);
    }
  }

  lemma AttachReadOnly(s: State, slot: Slot, p: nat, flags: Flags)
    requires Linked(s) && Mapped(s) && ReadOnly(s) && slot !in s.index && p in s.pages
    requires s.pages[p].snaps >= 0
    requires Attach(s, slot, p, flags).Done?
    ensures ReadOnly(Attach(s, slot, p, flags).st)
  {}

  // ----- unshare_page -----

  predicate Copies(s: State, slot: Slot) {
    && Backed(s, slot) && s.pool != [] && !s.index[slot].flags.hardware
  }

  lemma GroupIsOwned(s: State, slot: Slot)
    requires Linked(s) && slot in s.index
    ensures slot in Group(s, slot) && Group(s, slot) <= s.pages[s.index[slot].page].owners
    ensures |s.pages[s.index[slot].page].owners - Group(s, slot)| ==
            |s.pages[s.index[slot].page].owners| - |Group(s, slot)|
  {
    assert slot in Owners(s.index, s.index[slot].page);
  }

  lemma MoveLinked(s: State, slot: Slot)
    requires Linked(s) && Frames(s) && Copies(s, slot)
    ensures Linked(MoveGroup(s, slot))
  {
    var s' := MoveGroup(s, slot);
    var group := Group(s, slot);
    GroupIsOwned(s, slot);
    forall o | o in group ensures s.index[o].page == s.index[slot].page {
      assert o in Owners(s.index, s.index[slot].page);
    }
    forall x | x in s'.pages
      ensures s'.pages[x].owners == Owners(s'.index, x)
    {
      if x == s.pool[0] {
        assert Owners(s'.index, x) == group;
      } else {
        assert Owners(s'.index, x) == Owners(s.index, x) - group;
      }
    }
  }

  lemma MoveCounted(s: State, slot: Slot)
    requires Linked(s) && Counted(s, multiset{}) && Frames(s) && Copies(s, slot)
    ensures Counted(MoveGroup(s, slot), multiset{s.index[slot].page})
  {
    GroupIsOwned(s, slot);
  }

  lemma MoveMapped(s: State, slot: Slot)
    requires Linked(s) && Frames(s) && Mapped(s) && Copies(s, slot)
    ensures Mapped(MoveGroup(s, slot))
  {}

  lemma MoveFrames(s: State, slot: Slot)
    requires Frames(s) && Copies(s, slot)
    ensures Frames(MoveGroup(s, slot))
  {}

  lemma MoveKeeps(s: State, slot: Slot)
    requires RefInv(s) && Copies(s, slot)
    ensures RefInvWith(MoveGroup(s, slot), multiset{s.index[slot].page})
  {
    MoveLinked(s, slot);
    MoveCounted(s, slot);
    MoveMapped(s, slot);
    MoveFrames(s, slot);
  }

  lemma MoveSnapOwners(s: State, slot: Slot, x: nat)
    requires Linked(s) && Frames(s) && Copies(s, slot)
    ensures var index := MoveTo(s.index, Group(s, slot), s.pool[0]);
      SnapOwners(index, x) == if s.index[slot].flags.shared then SnapOwners(s.index, x)
                              else SnapOwners(s.index, x) - {slot}
  {
    var index := MoveTo(s.index, Group(s, slot), s.pool[0]);
    forall o ensures o in SnapOwners(index, x) <==>
      o in SnapOwners(s.index, x) && (s.index[slot].flags.shared || o != slot)
    {
      if o in s.index && o in Group(s, slot) {
        assert s.index[o].flags.shared || o == slot;
      }
    }
  }

  lemma MoveSnapCounts(s: State, slot: Slot, x: nat)
    requires Linked(s) && Frames(s) && Counted(s, multiset{}) && Snaps(s) && Copies(s, slot)
    requires x in s.pages || x == s.pool[0]
    ensures |SnapOwners(MoveTo(s.index, Group(s, slot), s.pool[0]), x)| + s.heldSnap[x] ==
      if x == s.pool[0] then 0
      else if x == s.index[slot].page then SnapsLeft(s, slot) else s.pages[x].snaps
  {
    MoveSnapOwners(s, slot, x);
    if x == s.pool[0] {
      assert SnapOwners(s.index, x) == {};
    } else if !s.index[slot].flags.shared {
      assert slot in SnapOwners(s.index, x) <==> x == s.index[slot].page;
    }
  }

  lemma MoveSnaps(s: State, slot: Slot)
    requires Linked(s) && Frames(s) && Counted(s, multiset{}) && Snaps(s) && Copies(s, slot)
    ensures Snaps(MoveGroup(s, slot))
  {
    hide RestoreWrite, Group, Rest, SnapOwners, Linked, Distinct;
    var s' := MoveGroup(s, slot);
    forall x | x in s'.pages
      ensures s'.pages[x].snaps == |SnapOwners(s'.index, x)| + s'.heldSnap[x]
    {
      MoveSnapCounts(s, slot, x);
    }
    assert s.pool[0] != s.zero;
  }

  lemma MoveReadOnly(s: State, slot: Slot)
    requires Linked(s) && Frames(s) && ReadOnly(s) && Copies(s, slot)
    requires s.pages[s.index[slot].page].snaps > 0
    ensures ReadOnly(MoveGroup(s, slot))
  {
    GroupIsOwned(s, slot);
  }

  lemma MoveDone(s: State, slot: Slot)
    requires Linked(s) && Snaps(s) && Copies(s, slot) && Restores(s, slot)
    ensures AllShared(s.index, Rest(s, slot))
  {
    var p := s.index[slot].page;
    assert slot in SnapOwners(s.index, p);
    assert |SnapOwners(s.index, p) - {slot}| == 0;
    forall o | o in Rest(s, slot) ensures o in s.index && s.index[o].flags.shared {
      assert o in Owners(s.index, p) && o !in SnapOwners(s.index, p) - {slot};
    }
  }

  lemma TakeOverLinked(s: State, slot: Slot, flagged: bool)
    requires Linked(s) && slot in s.index && !s.index[slot].flags.hardware
    ensures Linked(TakeOver(s, slot, flagged))
  {
    var s' := TakeOver(s, slot, flagged);
    forall x ensures Owners(s'.index, x) == Owners(s.index, x) {}
  }

  lemma TakeOverRefInv(s: State, slot: Slot, flagged: bool)
    requires RefInv(s) && slot in s.index && !s.index[slot].flags.hardware
    ensures RefInv(TakeOver(s, slot, flagged))
  {
    TakeOverLinked(s, slot, flagged);
  }

  lemma UnshareCopyRefInv(s: State, slot: Slot)
    requires RefInv(s) && Copies(s, slot) && UnshareCopy(s, slot).Done?
    ensures RefInv(UnshareCopy(s, slot).st)
  {
    var p := s.index[slot].page;
    MoveKeeps(s, slot);
    UnrefKeeps(MoveGroup(s, slot), p, false, multiset{p});
    assert multiset{p} - multiset{p} == multiset{};
  }

  // Whatever the flags say, unshare_page conserves references.
  lemma UnshareRefInv(s: State, slot: Slot, repaired: bool)
    requires RefInv(s) && slot in s.index && Unshare(s, slot, repaired).Done?
    ensures RefInv(Unshare(s, slot, repaired).st)
  {
    if s.pages[s.index[slot].page].snaps == 0 {
    } else if SoleHolder(s, slot) {
      TakeOverRefInv(s, slot, repaired);
    } else {
      UnshareCopyRefInv(s, slot);
    }
  }

  lemma UnshareCopySnaps(s: State, slot: Slot)
    requires RefInv(s) && Snaps(s) && Copies(s, slot)
    ensures UnshareCopy(s, slot).Done? && Snaps(UnshareCopy(s, slot).st)
  {
    if Restores(s, slot) {
      MoveDone(s, slot);
    }
    MoveSnaps(s, slot);
    UnrefSnaps(MoveGroup(s, slot), s.index[slot].page, false);
  }

  lemma UnshareCopyReadOnly(s: State, slot: Slot)
    requires RefInv(s) && ReadOnly(s) && Copies(s, slot) && s.pages[s.index[slot].page].snaps > 0
    requires UnshareCopy(s, slot).Done?
    ensures ReadOnly(UnshareCopy(s, slot).st)
  {
    MoveReadOnly(s, slot);
    UnrefReadOnly(MoveGroup(s, slot), s.index[slot].page, false);
  }

  // A page that is not managed more than once is nobody's snapshot but its owner's
  lemma SnapsBelowRefs(s: State, p: nat)
    requires RefInv(s) && Snaps(s) && p in s.pages
    ensures 0 <= s.pages[p].snaps <= s.pages[p].refs
  {
    assert SnapOwners(s.index, p) <= Owners(s.index, p);
    CardMono(SnapOwners(s.index, p), Owners(s.index, p));
  }

  lemma CardMono(a: set<Slot>, b: set<Slot>)
    requires a <= b
    ensures |a| <= |b|
  {
    assert b == a + (b - a);
  }

  // The sole holder of a page is its only owner, and its page has no other snapshot.
  lemma SoleSnapOwner(s: State, slot: Slot)
    requires RefInv(s) && Snaps(s) && SoleHolder(s, slot)
    ensures SnapOwners(s.index, s.index[slot].page) == {slot} && s.heldSnap[s.index[slot].page] == 0
    ensures s.index[slot].page != s.zero
  {
    var p := s.index[slot].page;
    OnlyOwner(s, slot);
    assert SnapOwners(s.index, p) <= Owners(s.index, p);
    assert slot !in SnapOwners(s.index, p) ==> SnapOwners(s.index, p) == {};
  }

  lemma TakeOverSnaps(s: State, slot: Slot)
    requires RefInv(s) && Snaps(s) && SoleHolder(s, slot)
    ensures Snaps(TakeOver(s, slot, true))
  {
    hide SoleHolder, Owners, Coherent, Counted, Frames, Mapped;
    SoleSnapOwner(s, slot);
    var p := s.index[slot].page;
    var s' := TakeOver(s, slot, true);
    forall o | o in s'.index && s'.index[o].page == p ensures !s'.index[o].flags.snapshot {
      assert o != slot ==> o !in SnapOwners(s.index, p);
    }
    assert SnapOwners(s'.index, p) == {};
    forall x | x in s'.pages && x != p
      ensures s'.pages[x].snaps == |SnapOwners(s'.index, x)| + s'.heldSnap[x]
    {
      assert SnapOwners(s'.index, x) == SnapOwners(s.index, x);
    }
  }

  lemma TakeOverReadOnly(s: State, slot: Slot, flagged: bool)
    requires RefInv(s) && ReadOnly(s) && SoleHolder(s, slot)
    ensures ReadOnly(TakeOver(s, slot, flagged))
  {
    OnlyOwner(s, slot);
    forall o | o in s.ptes && o != slot ensures s.index[o].page != s.index[slot].page {
      assert o !in Owners(s.index, s.index[slot].page);
    }
  }

  lemma OnlyOwner(s: State, slot: Slot)
    requires Linked(s) && Counted(s, multiset{}) && slot in s.index && s.pages[s.index[slot].page].refs == 1
    ensures Owners(s.index, s.index[slot].page) == {slot}
  {
    var owners := Owners(s.index, s.index[slot].page);
    assert slot in owners;
    assert |owners - {slot}| == 0;
  }

  // As written, the sole-holder branch keeps the count of snapshots exactly when it
  // is not taken; with the flag update it always does.
  lemma UnshareSnaps(s: State, slot: Slot, repaired: bool)
    requires RefInv(s) && Snaps(s) && slot in s.index && slot.space == s.current
    requires !s.index[slot].flags.hardware
    ensures !Unshare(s, slot, repaired).Panic?
    ensures Unshare(s, slot, repaired).Done? ==>
      (Snaps(Unshare(s, slot, repaired).st) <==> repaired || !SoleHolder(s, slot))
  {
    var p := s.index[slot].page;
    if s.pages[p].snaps == 0 {
      UnshareNothing(s, slot, repaired);
    } else if SoleHolder(s, slot) {
      if repaired { TakeOverSnaps(s, slot); } else { TakeOverLosesCount(s, slot); }
    } else {
      SnapsBelowRefs(s, p);
      if s.pool != [] { UnshareCopySnaps(s, slot); }
    }
  }

  lemma UnshareNothing(s: State, slot: Slot, repaired: bool)
    requires RefInv(s) && Snaps(s) && slot in s.index && slot.space == s.current
    requires !s.index[slot].flags.hardware && s.pages[s.index[slot].page].snaps == 0
    ensures Unshare(s, slot, repaired).Done? && Snaps(Unshare(s, slot, repaired).st)
  {}

  lemma TakeOverLosesCount(s: State, slot: Slot)
    requires RefInv(s) && Snaps(s) && SoleHolder(s, slot)
    ensures !Snaps(TakeOver(s, slot, false))
  {
    SoleSnapOwner(s, slot);
    assert s.index[slot].page in TakeOver(s, slot, false).pages;
  }
}
