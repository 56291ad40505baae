// The memory manager itself: its fields change step by step, and every method is proved
// against what CowState says the operation does.
module CowKernel {
  import opened CowState
  import opened CowInvariants
  import opened CowRuns
  import opened CowRefinement
  import opened CowUser
  import opened CowFrames

  // Refused is an error code handed back to the caller
  datatype Result = Ok | Refused | Stopped(why: Reason) | OutOfMemory

  predicate Agrees(r: Result, outcome: Outcome, s: State) {
    match outcome
    case Done(s') => r == Ok && s == s'
    case Panic(why) => r == Stopped(why)
    case NoMemory => r == OutOfMemory
  }

  // What is left of the two pages and of the index once the `moved` owners of p own q
  function MovedPages(pages: map<nat, Page>, p: nat, q: nat, moved: set<Slot>): map<nat, Page>
    requires p in pages && q in pages
  {
    pages[q := Page(1 + |moved|, pages[q].snaps, moved)]
         [p := Page(pages[p].refs - |moved|, pages[p].snaps, pages[p].owners - moved)]
  }

  function MovedIndex(index: map<Slot, Entry>, q: nat, moved: set<Slot>): map<Slot, Entry> {
    map o | o in index :: if o in moved then Entry(q, index[o].flags) else index[o]
  }

  lemma NoneMoved(pages: map<nat, Page>, index: map<Slot, Entry>, ptes: map<Slot, Pte>, p: nat, q: nat,
                  all: set<Slot>, todo: set<Slot>)
    requires p in pages && q in pages && p != q && pages[q].owners == {} && pages[q].refs == 1 && todo == all
    ensures pages == MovedPages(pages, p, q, {}) && index == MovedIndex(index, q, {}) && ptes == ptes - {}
    ensures SharedOwners(index, all - todo) == {}
  {
    assert pages[p].owners - {} == pages[p].owners;
  }

  lemma OneMoved(pages: map<nat, Page>, index: map<Slot, Entry>, ptes: map<Slot, Pte>, p: nat, q: nat,
                 all: set<Slot>, moved: set<Slot>, todo: set<Slot>, o: Slot)
    requires p in pages && q in pages && p != q && o in todo && todo <= all && moved <= all && moved !! todo
      && o in index
    requires moved == SharedOwners(index, all - todo)
    ensures var pages1, index1 := MovedPages(pages, p, q, moved), MovedIndex(index, q, moved);
      && p in pages1 && q in pages1 && o in index1 && index1[o] == index[o]
      && MovedPages(pages, p, q, moved + {o}) ==
         pages1[p := Page(pages1[p].refs - 1, pages1[p].snaps, pages1[p].owners - {o})]
               [q := Page(pages1[q].refs + 1, pages1[q].snaps, pages1[q].owners + {o})]
      && MovedIndex(index, q, moved + {o}) == index1[o := Entry(q, index[o].flags)]
    ensures ptes - (moved + {o}) == ptes - moved - {o}
    ensures SharedOwners(index, all - (todo - {o})) == if index[o].flags.shared then moved + {o} else moved
  {
    assert pages[p].owners - moved - {o} == pages[p].owners - (moved + {o});
    assert all - (todo - {o}) == all - todo + {o};
  }

  class Kernel {
    var pages: map<nat, Page>
    var index: map<Slot, Entry>
    var ptes: map<Slot, Pte>
    var mem: map<nat, Bytes>
    var pool: seq<nat>
    ghost var held: multiset<nat>
    ghost var heldSnap: multiset<nat>
    var covered: set<Slot>
    ghost const device: set<nat>
    const zero: nat
    var current: nat
    // false: the sole-holder branch of unshare_page as written
    const flagUpdate: bool

    ghost function St(): State
      reads this
    {
      State(pages, index, ptes, mem, pool, held, heldSnap, covered, device, zero, current)
    }

    constructor (s: State, flagUpdate: bool)
      ensures St() == s && this.flagUpdate == flagUpdate
    {
      pages, index, ptes, mem, pool := s.pages, s.index, s.ptes, s.mem, s.pool;
      held, heldSnap, covered := s.held, s.heldSnap, s.covered;
      device, zero, current := s.device, s.zero, s.current;
      this.flagUpdate := flagUpdate;
    }

    // manage_phys_page_locked, for an aligned address
    method ManagePhysPage(p: nat)
      modifies this`pages
      ensures St() == Manage(old(St()), p)
    {
      if p in pages {
        pages := pages[p := Page(pages[p].refs + 1, pages[p].snaps, pages[p].owners)];
      } else {
        pages := pages[p := Page(1, 0, {})];
      }
    }

    // page_unref
    method UnrefPage(p: nat, hw: bool) returns (gone: bool)
      requires p in pages
      modifies this`pages, this`pool
      ensures St() == PageUnref(old(St()), p, hw)
      ensures gone <==> p !in pages
    {
      pages := pages[p := Page(pages[p].refs - 1, pages[p].snaps, pages[p].owners)];
      gone := pages[p].refs == 0;
      if gone {
        pages := pages - {p};
        if !hw {
          pool := [p] + pool;
        }
        assert pages == old(pages) - {p};
      }
    }

    // The loops that give write permission back to the owners of a page. With `check`
    // they stop at an owner that is not PF_SHARED.
    method RestoreOwners(owners: set<Slot>, check: bool) returns (ok: bool)
      requires forall o | o in owners :: o in index
      modifies this`ptes
      ensures ok <==> !check || AllShared(index, owners)
      ensures ok ==> ptes == RestoreWrite(old(ptes), owners)
    {
      var todo := owners;
      while todo != {}
        invariant todo <= owners && ptes.Keys == old(ptes).Keys
        invariant check ==> forall o | o in owners - todo :: index[o].flags.shared
        invariant forall o | o in ptes ::
          ptes[o] == if o in owners - todo then Pte(old(ptes)[o].frame, true) else old(ptes)[o]
        decreases |todo|
      {
        var o :| o in todo;
        todo := todo - {o};
        if check && !index[o].flags.shared {
          return false;
        }
        if o in ptes {
          ptes := ptes[o := Pte(ptes[o].frame, true)];
        }
      }
      return true;
    }

    // One snapshot of the page is gone; with the last one write permission comes back
    method LeaveSnapshots(p: nat) returns (ok: bool)
      requires p in pages && forall o | o in pages[p].owners :: o in index
      modifies this`pages, this`ptes
      ensures pages == old(pages)[p := Page(old(pages)[p].refs, old(pages)[p].snaps - 1, old(pages)[p].owners)]
      ensures ok <==> (old(pages)[p].snaps - 1 == 0 ==> AllShared(index, old(pages)[p].owners))
      ensures ok ==>
        ptes == if old(pages)[p].snaps - 1 == 0 then RestoreWrite(old(ptes), old(pages)[p].owners) else old(ptes)
    {
      pages := pages[p := Page(pages[p].refs, pages[p].snaps - 1, pages[p].owners)];
      ok := true;
      if pages[p].snaps == 0 {
        ok := RestoreOwners(pages[p].owners, true);
      }
    }

    // share_page
    method SharePage(p: nat) returns (ok: bool)
      requires p in pages && forall o | o in pages[p].owners :: o in index
      modifies this`ptes
      ensures ok <==> !AnyDevice(index, pages[p].owners)
      ensures ok ==> ptes == RemoveWrite(old(ptes), pages[p].owners)
    {
      var owners := pages[p].owners;
      var todo := owners;
      while todo != {}
        invariant todo <= owners && ptes.Keys == old(ptes).Keys
        invariant forall o | o in owners - todo :: !index[o].flags.hardware
        invariant forall o | o in ptes ::
          ptes[o] == if o in owners - todo then Pte(old(ptes)[o].frame, false) else old(ptes)[o]
        decreases |todo|
      {
        var o :| o in todo;
        todo := todo - {o};
        if index[o].flags.hardware {
          return false;
        }
        if o in ptes && ptes[o].writable {
          ptes := ptes[o := Pte(ptes[o].frame, false)];
        }
      }
      return true;
    }

    // unassign_page, with page_entry_unref
    method UnassignPage(slot: Slot) returns (r: Result)
      requires RefInv(St()) && slot in index
      modifies this`pages, this`index, this`ptes, this`pool
      ensures Agrees(r, Unassign(old(St()), slot), St())
    {
      var e := index[slot];
      r := DetachEntry(slot);
      if r == Ok {
        var _ := UnrefPage(e.page, e.flags.hardware);
      }
    }

    // everything before page_unref
    method DetachEntry(slot: Slot) returns (r: Result)
      requires Linked(St()) && slot in index
      modifies this`pages, this`index, this`ptes
      ensures Agrees(r, Detach(old(St()), slot), St())
      ensures r == Ok ==> pages.Keys == old(pages).Keys
    {
      var e := index[slot];
      var pg := pages[e.page];
      ghost var owners := pg.owners - {slot};
      index := index - {slot};
      pages := pages[e.page := Page(pg.refs, pg.snaps, pg.owners - {slot})];
      ptes := ptes - {slot};
      forall o | o in owners ensures o in index {
        assert o in Owners(old(index), e.page);
      }
      if e.flags.snapshot {
        var ok := LeaveSnapshots(e.page);
        if !ok {
          return Stopped(Consistency);
        }
      }
      assert pages == old(pages)[e.page := Page(pg.refs, pages[e.page].snaps, owners)];
      return Ok;
    }

    // address_space_assign_page_no_addr_check
    method AssignPage(slot: Slot, p: nat, flags: Flags) returns (r: Result)
      requires RefInv(St()) && Survives(St(), slot, p)
      modifies this`pages, this`index, this`ptes, this`pool
      ensures Agrees(r, Assign(old(St()), slot, p, flags), St())
    {
      hide RestoreWrite, AllShared, Attach, Linked, Counted, Frames, Mapped;
      if flags.shared && flags.snapshot {
        return Stopped(Misuse);
      }
      if flags.hardware && flags.snapshot {
        return Stopped(Misuse);
      }
      if slot in index {
        r := UnassignPage(slot);
        if r != Ok {
          return;
        }
        UnassignRefInv(old(St()), slot);
      }
      r := AttachEntry(slot, p, flags);
    }

    // its second half: the new entry
    method AttachEntry(slot: Slot, p: nat, flags: Flags) returns (r: Result)
      requires Linked(St()) && p in pages
      modifies this`pages, this`index, this`ptes
      ensures Agrees(r, Attach(old(St()), slot, p, flags), St())
    {
      var pg := pages[p];
      index := index[slot := Entry(p, flags)];
      pages := pages[p := Page(pg.refs + 1, pg.snaps, pg.owners + {slot})];
      if flags.snapshot {
        if pages[p].refs == 0 {
          return Stopped(Consistency);
        }
        pages := pages[p := Page(pg.refs + 1, pg.snaps + 1, pg.owners + {slot})];
        if pages[p].snaps == 1 {
          forall o | o in pages[p].owners ensures o in index {
            assert o == slot || o in Owners(old(index), p);
          }
          var ok := SharePage(p);
          if !ok {
            return Stopped(Misuse);
          }
        }
      }
      return Ok;
    }

    // unshare_page
    method UnsharePage(slot: Slot) returns (r: Result)
      requires RefInv(St()) && slot in index
      modifies this`pages, this`index, this`ptes, this`pool, this`mem
      ensures Agrees(r, Unshare(old(St()), slot, flagUpdate), St())
      ensures r == OutOfMemory ==> old(pool) == [] && St() == old(St())
      ensures old(Snaps(St())) && slot.space == current ==>
        (r == OutOfMemory <==> old(pool) == [] && old(Borrowed(St(), slot)))
    {
      hide Snaps, Borrowed;
      ghost var s := St();
      if Snaps(s) && slot.space == current { UnshareShort(s, slot, flagUpdate); }
      var p := index[slot].page;
      if slot.space != current {
        return Stopped(Misuse);
      }
      if index[slot].flags.hardware {
        return Stopped(Misuse);
      }
      if pages[p].snaps == 0 {
        forall o | o in pages[p].owners ensures o in index { assert o in Owners(index, p); }
        var _ := RestoreOwners(pages[p].owners, false);
        return Ok;
      }
      if pages[p].snaps == pages[p].refs && pages[p].refs == 1 {
        pages := pages[p := Page(pages[p].refs, 0, pages[p].owners)];
        if flagUpdate {
          index := index[slot := Entry(p, SHARED)];
        }
        ptes := ptes - {slot};
        return Ok;
      }
      if pool == [] {
        return OutOfMemory;
      }
      if pages[p].refs == 1 {
        return Stopped(Consistency);
      }
      r := CopyPage(slot);
    }

    // the rest of unshare_page: the writer, and every PF_SHARED owner with it, moves to a copy
    method CopyPage(slot: Slot) returns (r: Result)
      requires RefInv(St()) && Copies(St(), slot)
      modifies this`pages, this`index, this`ptes, this`pool, this`mem
      ensures Agrees(r, UnshareCopy(old(St()), slot), St())
    {
      var p := index[slot].page;
      if index[slot].flags.shared {
        MoveTogether(slot);
      } else {
        r := MoveAlone(slot);
        if r != Ok {
          return;
        }
      }
      var _ := UnrefPage(p, false);
      return Ok;
    }

    // a fresh frame for the page of `slot`, which leaves the old owner list
    method NewCopy(slot: Slot) returns (p: nat, q: nat)
      requires RefInv(St()) && Copies(St(), slot)
      modifies this`pages, this`pool, this`mem
      ensures p == index[slot].page && q == old(pool)[0] && q !in old(pages)
      ensures pool == old(pool)[1..] && mem == old(mem)[q := old(mem)[p]]
      ensures pages == old(pages)[q := Page(1, 0, {})]
        [p := Page(old(pages)[p].refs, old(pages)[p].snaps, old(pages)[p].owners - {slot})]
    {
      p := index[slot].page;
      q := pool[0];
      pool := pool[1..];
      mem := mem[q := mem[p]];
      ManagePhysPage(q);
      pages := pages[p := Page(pages[p].refs, pages[p].snaps, pages[p].owners - {slot})];
    }

    method MoveTogether(slot: Slot)
      requires RefInv(St()) && Copies(St(), slot) && index[slot].flags.shared
      modifies this`pages, this`index, this`ptes, this`pool, this`mem
      ensures St() == MoveGroup(old(St()), slot)
    {
      hide Counted, Frames, Mapped, SharedOwners;
      ghost var s := St();
      var p, q := NewCopy(slot);
      forall o | o in pages[p].owners ensures o in index && index[o].page == p {
        assert o in Owners(s.index, p);
      }
      ghost var pages1 := pages;
      MoveShared(slot, p, q);
      ghost var pages2, index2 := pages, index;
      index := index[slot := Entry(q, index[slot].flags)];
      pages := pages[q := Page(pages[q].refs, pages[q].snaps, pages[q].owners + {slot})];
      ptes := ptes - {slot};
      TogetherPages(s, slot, pages1, pages2, pages);
      TogetherIndex(s, slot, index2, index);
      TogetherPtes(s, slot);
    }

    method MoveAlone(slot: Slot) returns (r: Result)
      requires RefInv(St()) && Copies(St(), slot) && !index[slot].flags.shared
      modifies this`pages, this`index, this`ptes, this`pool, this`mem
      ensures Restores(old(St()), slot) && !AllShared(old(index), Rest(old(St()), slot)) ==> r == Stopped(Consistency)
      ensures !(Restores(old(St()), slot) && !AllShared(old(index), Rest(old(St()), slot))) ==>
        r == Ok && St() == MoveGroup(old(St()), slot)
    {
      hide Counted, Frames, Mapped, Group, SnapsLeft, MoveTo, RestoreWrite, Snaps, Borrowed, Coherent;
      ghost var s := St();
      var p, q := NewCopy(slot);
      ghost var pages1 := pages;
      index := index[slot := Entry(index[slot].page, SHARED)];
      ghost var index1 := index;
      forall o | o in pages[p].owners ensures o in index { assert o in Owners(s.index, p); }
      AloneRest(s, slot);
      assert Rest(s, slot) == pages[p].owners;
      assert AllShared(index, pages[p].owners) <==> AllShared(s.index, Rest(s, slot));
      var ok := LeaveSnapshots(p);
      if !ok {
        return Stopped(Consistency);
      }
      index := index[slot := Entry(q, index[slot].flags)];
      pages := pages[q := Page(pages[q].refs, pages[q].snaps, pages[q].owners + {slot})];
      ptes := ptes - {slot};
      AlonePages(s, slot, pages1, pages);
      AloneIndex(s, slot, index1, index);
      AlonePtes(s, slot);
      return Ok;
    }

    // the loop over the other PF_SHARED owners
    method MoveShared(slot: Slot, p: nat, q: nat)
      requires p in pages && q in pages && p != q && pages[q].owners == {} && pages[q].refs == 1
      requires slot !in pages[p].owners && forall o | o in pages[p].owners :: o in index && index[o].page == p
      modifies this`pages, this`index, this`ptes
      ensures var moved := SharedOwners(old(index), old(pages)[p].owners);
        && pages == MovedPages(old(pages), p, q, moved)
        && index == MovedIndex(old(index), q, moved)
        && ptes == old(ptes) - moved
    {
      hide MovedPages, MovedIndex, SharedOwners;
      ghost var all, moved: set<Slot> := pages[p].owners, {};
      var todo := pages[p].owners;
      NoneMoved(pages, index, ptes, p, q, all, todo);
      while todo != {}
        invariant todo <= all && moved <= all && moved !! todo && moved == SharedOwners(old(index), all - todo)
        invariant pages == MovedPages(old(pages), p, q, moved) && index == MovedIndex(old(index), q, moved)
        invariant ptes == old(ptes) - moved
        decreases |todo|
      {
        var o :| o in todo;
        OneMoved(old(pages), old(index), old(ptes), p, q, all, moved, todo, o);
        todo := todo - {o};
        if index[o].flags.shared {
          pages := pages[p := Page(pages[p].refs - 1, pages[p].snaps, pages[p].owners - {o})];
          pages := pages[q := Page(pages[q].refs + 1, pages[q].snaps, pages[q].owners + {o})];
          index := index[o := Entry(q, index[o].flags)];
          ptes := ptes - {o};
          moved := moved + {o};
        }
      }
      assert all - todo == all;
    }

    // The address is that of a page in a VMA, and there is an entry for it.
    predicate Mappable(vaddr: nat)
      reads this
    {
      vaddr % PAGE_SIZE == 0 && Slot(current, vaddr) in covered && Slot(current, vaddr) in index
    }

    // address_space_map, with its return code
    method AddressSpaceMap(vaddr: nat) returns (r: Result, code: int)
      requires RefInv(St())
      modifies this`pages, this`index, this`ptes
      ensures code == if vaddr % PAGE_SIZE != 0 then -2 else if Slot(current, vaddr) !in covered then -1
                      else if Slot(current, vaddr) !in old(index) then 0 else 1
      ensures !old(Mappable(vaddr)) ==> r == Ok && St() == old(St())
      ensures old(Mappable(vaddr)) ==> Agrees(r, MapEntry(old(St()), Slot(current, vaddr)), St())
    {
      if vaddr % PAGE_SIZE != 0 {
        return Ok, -2;
      }
      if Slot(current, vaddr) !in covered {
        return Ok, -1;
      }
      if Slot(current, vaddr) !in index {
        return Ok, 0;
      }
      code := 1;
      var slot := Slot(current, vaddr);
      var p := index[slot].page;
      if pages[p].snaps == 1 && pages[p].refs == 1 {
        pages := pages[p := Page(pages[p].refs, 0, pages[p].owners)];
        if !index[slot].flags.snapshot {
          return Stopped(Consistency), code;
        }
        index := index[slot := Entry(p, SHARED)];
      }
      var writable := true;
      if pages[p].snaps > 0 {
        writable := false;
      }
      if slot in ptes {
        return Stopped(AlreadyMapped), code;
      }
      assert ptes - {slot} == ptes;
      ptes := ptes[slot := Pte(p, writable)];
      return Ok, code;
    }

    // A write fault in a VMA, at a page that is absent or borrowed
    ghost predicate WriteFaultNeeds(address: nat, write: bool)
      reads this
    {
      var slot := Slot(current, address / PAGE_SIZE * PAGE_SIZE);
      write && slot in covered && NeedsFrame(St(), slot)
    }

    // page_fault_handler, every VMA being writable
    method PageFault(address: nat, write: bool) returns (r: Result)
      requires RefInv(St())
      modifies this`pages, this`index, this`ptes, this`pool, this`mem
      ensures Agrees(r, FaultStep(old(St()), Slot(old(current), address / PAGE_SIZE * PAGE_SIZE), write, flagUpdate),
        St())
      ensures r == OutOfMemory ==> old(pool) == []
      ensures old(Snaps(St())) ==>
        (r == OutOfMemory <==> old(pool) == [] && old(WriteFaultNeeds(address, write)))
    {
      hide RefInv, Snaps, NeedsFrame, FaultStep;
      var slot := Slot(current, address / PAGE_SIZE * PAGE_SIZE);
      ghost var s := St();
      if Snaps(s) { FaultFrames(s, slot, write, flagUpdate); }
      if FaultStep(s, slot, write, flagUpdate).NoMemory? { ShortMeansEmpty(s, slot, write, flagUpdate); }
      r := HandleFault(slot, write);
    }

    // the handler at the page of the address
    method HandleFault(slot: Slot, write: bool) returns (r: Result)
      requires RefInv(St()) && slot.space == current && slot.vaddr % PAGE_SIZE == 0
      modifies this`pages, this`index, this`ptes, this`pool, this`mem
      ensures Agrees(r, FaultStep(old(St()), slot, write, flagUpdate), St())
    {
      if slot !in covered {
        return Ok;
      }
      if slot !in index {
        r := AssignPage(slot, zero, SNAPSHOT);
        if r != Ok {
          return;
        }
      }
      assert Populate(old(St()), slot) == Done(St());
      r := ResolveFault(slot, write);
    }

    // the rest of the handler, once there is an entry
    method ResolveFault(slot: Slot, write: bool) returns (r: Result)
      requires RefInv(St()) && slot in index && slot.space == current && slot in covered && slot.vaddr % PAGE_SIZE == 0
      modifies this`pages, this`index, this`ptes, this`pool, this`mem
      ensures Agrees(r, Resolve(old(St()), slot, write, flagUpdate), St())
    {
      if write {
        r := UnshareIfNeeded(slot);
        if r != Ok {
          return;
        }
      }
      var code;
      r, code := AddressSpaceMap(slot.vaddr);
    }

    // unshare_page, for callers that look at snap_count first
    method UnshareIfNeeded(slot: Slot) returns (r: Result)
      requires RefInv(St()) && slot in index
      modifies this`pages, this`index, this`ptes, this`pool, this`mem
      ensures Agrees(r, UnshareStep(old(St()), slot, flagUpdate), St())
      ensures r == OutOfMemory ==> St() == old(St())
    {
      if pages[index[slot].page].snaps > 0 {
        r := UnsharePage(slot);
      } else {
        r := Ok;
      }
    }

    // ----- copy_to_user_simple and copy_from_user_simple -----

    // the page of `slot`, brought in or made private so that the kernel may write to it
    method ReadyForWrite(slot: Slot) returns (r: Result)
      requires Inv(St()) && (flagUpdate || !SoleHolder(St(), slot)) && slot.space == current
      modifies this`pages, this`index, this`ptes, this`pool, this`mem
      ensures Inv(St()) && (r == Ok || r == OutOfMemory)
      ensures r == OutOfMemory ==> St() == old(St())
      ensures r == Ok ==> ReadyStep(old(St()), slot) == Done(St())
      ensures r == Ok ==> slot in index && pages[index[slot].page].snaps == 0
      ensures r == Ok ==> SameView(old(index), old(mem), index, mem)
      ensures r == OutOfMemory <==> old(pool) == [] && old(NeedsFrame(St(), slot))
      ensures r == Ok ==> pool == Left(old(pool), old(NeedsFrame(St(), slot)))
    {
      hide RefInv, Snaps, ReadOnly, ReadyStep, SoleHolder, NeedsFrame, SameView;
      ghost var s := St();
      ReadyFrames(s, slot);
      ReadyInv(s, slot);
      r := ReadyPage(slot);
      if r == Ok {
        ReadyView(s, slot);
      }
    }

    method ReadyPage(slot: Slot) returns (r: Result)
      requires Inv(St()) && (flagUpdate || !SoleHolder(St(), slot)) && slot.space == current
      modifies this`pages, this`index, this`ptes, this`pool, this`mem
      ensures Agrees(r, ReadyStep(old(St()), slot), St())
      ensures r == OutOfMemory ==> St() == old(St())
    {
      if slot !in index {
        if pool == [] {
          return OutOfMemory;
        }
        var q := pool[0];
        pool := pool[1..];
        mem := mem[q := Zeros()];
        assert St() == TakeFrame(old(St()));
        TakeKeeps(old(St()));
        ghost var s1 := St();
        ManagePhysPage(q);
        ManageKeeps(s1, q);
        r := AttachEntry(slot, q, SHARED);
        if r == Ok {
          AttachRefInv(Manage(s1, q), slot, q, SHARED, multiset{q});
          var _ := UnrefPage(q, false);
        }
      } else {
        if !flagUpdate { SameUnshare(St(), slot); }
        r := UnshareIfNeeded(slot);
      }
    }

    predicate Covers(address: nat, len: nat)
      reads this
    {
      && Slot(current, Base(address)) in covered
      && (OnFirst(address, len) < len ==> Slot(current, Base(address) + PAGE_SIZE) in covered)
    }

    // No page written to is one whose sole holder would forget its flags: as written, the
    // write keeps the counts right. Two pages must not be one, or the first write would make
    // the second address its sole holder.
    ghost predicate Careful(address: nat, len: nat)
      reads this
    {
      var low, high := Slot(current, Base(address)), Slot(current, Base(address) + PAGE_SIZE);
      && !SoleHolder(St(), low)
      && (OnFirst(address, len) < len ==>
            !SoleHolder(St(), high) && (low in index && high in index ==> index[high].page != index[low].page))
    }

    // One for each page of the range that is absent or borrowed when its turn comes
    ghost function FramesToWrite(address: nat, len: nat): (n: nat)
      reads this
      ensures n <= if OnFirst(address, len) < len then 2 else 1
    {
      var base := Base(address);
      FramesFor(St(), Slot(current, base), Slot(current, base + PAGE_SIZE), OnFirst(address, len) < len)
    }

    // copy_to_user_simple. If frames run out on the way, nothing is written, or, of a range
    // on two pages, exactly what lies on the first.
    method CopyToUserSimple(data: seq<byte>, buf: nat) returns (r: Result)
      requires Inv(St()) && (flagUpdate || Careful(buf, |data|))
      modifies this`pages, this`index, this`ptes, this`pool, this`mem
      ensures r == Stopped(Misuse) <==> |data| > PAGE_SIZE
      ensures r == Refused <==> |data| <= PAGE_SIZE && !old(Covers(buf, |data|))
      ensures r == Refused || r == Stopped(Misuse) ==> St() == old(St())
      ensures r == Ok || r == Refused || r == Stopped(Misuse) || r == OutOfMemory
      ensures Inv(St())
      ensures r == Ok ==> WroteRange(old(St()), St(), current, buf, data)
      ensures r == OutOfMemory ==>
        if old(pool) == [] && old(NeedsFrame(St(), Slot(current, Base(buf)))) then St() == old(St())
        else WroteFirst(old(St()), St(), current, buf, data)
      ensures r == OutOfMemory <==>
        |data| <= PAGE_SIZE && old(Covers(buf, |data|)) && |old(pool)| < old(FramesToWrite(buf, |data|))
      ensures r == Ok ==> |pool| == |old(pool)| - old(FramesToWrite(buf, |data|))
    {
      if |data| > PAGE_SIZE {
        return Stopped(Misuse);
      }
      if !Covers(buf, |data|) {
        return Refused;
      }
      r := WriteRange(data, buf);
    }

    // its two memcpys
    method WriteRange(data: seq<byte>, buf: nat) returns (r: Result)
      requires Inv(St()) && (flagUpdate || Careful(buf, |data|)) && |data| <= PAGE_SIZE
      modifies this`pages, this`index, this`ptes, this`pool, this`mem
      ensures Inv(St()) && (r == Ok || r == OutOfMemory)
      ensures r == Ok ==> WroteRange(old(St()), St(), current, buf, data)
      ensures r == OutOfMemory ==>
        if old(pool) == [] && old(NeedsFrame(St(), Slot(current, Base(buf)))) then St() == old(St())
        else WroteFirst(old(St()), St(), current, buf, data)
      ensures r == OutOfMemory <==> |old(pool)| < old(FramesToWrite(buf, |data|))
      ensures r == Ok ==> |pool| == |old(pool)| - old(FramesToWrite(buf, |data|))
    {
      hide Inv, WroteRange, Wrote, WroteFirst, Readied, SoleHolder, ReadyStep, NeedsFrame, NeedsAfter;
      var base := Base(buf);
      if buf + |data| > base + PAGE_SIZE {
        r := WriteTwoPages(data, buf);
      } else {
        r := WriteUser(Slot(current, base), buf - base, data);
        if r == Ok {
          WroteOne(old(St()), St(), current, buf, data);
        }
      }
    }

    method WriteTwoPages(data: seq<byte>, buf: nat) returns (r: Result)
      requires Inv(St()) && (flagUpdate || Careful(buf, |data|)) && |data| <= PAGE_SIZE
        && buf + |data| > Base(buf) + PAGE_SIZE
      modifies this`pages, this`index, this`ptes, this`pool, this`mem
      ensures Inv(St()) && (r == Ok || r == OutOfMemory)
      ensures r == Ok ==> WroteRange(old(St()), St(), current, buf, data)
      ensures r == OutOfMemory ==>
        if old(pool) == [] && old(NeedsFrame(St(), Slot(current, Base(buf)))) then St() == old(St())
        else WroteFirst(old(St()), St(), current, buf, data)
      ensures r == OutOfMemory <==> |old(pool)| < old(FramesToWrite(buf, |data|))
      ensures r == Ok ==> |pool| == |old(pool)| - old(FramesToWrite(buf, |data|))
    {
      hide Inv, WroteRange, Wrote, WroteFirst, Readied, SoleHolder, ReadyStep, NeedsFrame, NeedsAfter;
      var base := Base(buf);
      var len := base + PAGE_SIZE - buf;
      assert len == OnFirst(buf, |data|) && data[len..] == data[OnFirst(buf, |data|)..];
      ghost var s := St();
      r := WriteUser(Slot(current, base), buf - base, data[..len]);
      if r == Ok {
        ghost var s1 := St();
        SecondNeeds(s, s1, Slot(current, base), Slot(current, base + PAGE_SIZE));
        if !flagUpdate { SecondCareful(s, s1, Slot(current, base), Slot(current, base + PAGE_SIZE)); }
        r := WriteUser(Slot(current, base + PAGE_SIZE), 0, data[len..]);
        if r == Ok {
          WroteTwo(old(St()), s1, St(), current, buf, data);
        } else {
          FirstWritten(s, s1, current, buf, data);
        }
      }
    }

    method WriteUser(slot: Slot, offset: nat, data: seq<byte>) returns (r: Result)
      requires Inv(St()) && (flagUpdate || !SoleHolder(St(), slot)) && slot.space == current
        && offset + |data| <= PAGE_SIZE
      modifies this`pages, this`index, this`ptes, this`pool, this`mem
      ensures Inv(St()) && (r == Ok || r == OutOfMemory)
      ensures r == OutOfMemory ==> St() == old(St())
      ensures r == OutOfMemory <==> old(pool) == [] && old(NeedsFrame(St(), slot))
      ensures r == Ok ==> pool == Left(old(pool), old(NeedsFrame(St(), slot)))
      ensures r == Ok ==> Readied(old(St()), St(), slot)
      ensures r == Ok ==> Wrote(old(St()), St(), slot, offset, data)
    {
      hide SameView, Wrote, ReadyStep, NeedsFrame, Left, Owners, Coherent, Counted, Mapped, Snaps, ReadOnly,
           SoleHolder, Distinct;
      ghost var s := St();
      r := ReadyForWrite(slot);
      if r == Ok {
        ghost var s1 := St();
        ViewThenWrite(s, s1, slot, offset, data);
        var p := index[slot].page;
        mem := mem[p := Splice(mem[p], offset, data)];
      }
    }

    // copy_from_user_simple returns what the current address space sees
    method CopyFromUserSimple(src: nat, len: nat) returns (r: Result, data: seq<byte>)
      requires Inv(St())
      ensures r == Stopped(Misuse) <==> len > PAGE_SIZE
      ensures r == Refused <==> len <= PAGE_SIZE && !Covers(src, len)
      ensures r == Ok || r == Refused || r == Stopped(Misuse)
      ensures r == Ok ==> |data| == len && forall k | 0 <= k < len :: data[k] == ByteAt(St(), current, src + k)
    {
      data := [];
      if len > PAGE_SIZE {
        return Stopped(Misuse), data;
      }
      if !Covers(src, len) {
        return Refused, data;
      }
      hide Inv, Covers;
      var base := Base(src);
      var leftover, first := 0, len;
      if src + len > base + PAGE_SIZE {
        leftover := src + len - base - PAGE_SIZE;
        first := base + PAGE_SIZE - src;
      }
      data := ReadUser(Slot(current, base), src - base, first);
      if leftover > 0 {
        var rest := ReadUser(Slot(current, base + PAGE_SIZE), 0, leftover);
        data := data + rest;
      }
      forall k | 0 <= k < len ensures data[k] == ByteAt(St(), current, src + k) {
        BaseOf(src, k);
      }
      r := Ok;
    }

    // one memcpy out of a page, or the zeros of the memset where there is no page
    method ReadUser(slot: Slot, offset: nat, n: nat) returns (data: seq<byte>)
      requires Inv(St()) && offset + n <= PAGE_SIZE
      ensures |data| == n && forall k | 0 <= k < n :: data[k] == UserByte(St(), slot, offset + k)
    {
      if slot in index {
        data := mem[index[slot].page][offset..offset + n];
      } else {
        data := seq(n, _ => 0);
      }
    }
  }

  // The part of the range on the first page is written.
  ghost predicate WroteFirst(s: State, s': State, space: nat, address: nat, data: seq<byte>)
    requires |data| <= PAGE_SIZE
  {
    var n := OnFirst(address, |data|);
    n < |data| && Wrote(s, s', Slot(space, Base(address)), address - Base(address), data[..n])
  }

  lemma FirstWritten(s: State, s': State, space: nat, address: nat, data: seq<byte>)
    requires |data| <= PAGE_SIZE && OnFirst(address, |data|) < |data|
    requires Wrote(s, s', Slot(space, Base(address)), address - Base(address), data[..OnFirst(address, |data|)])
    ensures WroteFirst(s, s', space, address, data)
  {}

  // From s to s', the page at the slot was made ready and written.
  predicate Readied(s: State, s': State, slot: Slot) {
    RefInv(s) && ReadyStep(s, slot).Done? && s'.index == ReadyStep(s, slot).st.index
      && s'.pages == ReadyStep(s, slot).st.pages
  }

  lemma SecondNeeds(s: State, s': State, low: Slot, high: Slot)
    requires Inv(s) && Readied(s, s', low) && high != low
    ensures NeedsFrame(s', high) <==> NeedsAfter(s, low, high)
  {
    hide Inv, NeedsAfter, ReadyStep;
    NeedsNext(s, low, high);
  }

  lemma SecondCareful(s: State, s': State, low: Slot, high: Slot)
    requires Readied(s, s', low) && high != low && !SoleHolder(s, high)
    requires low in s.index && high in s.index ==> s.index[high].page != s.index[low].page
    ensures !SoleHolder(s', high)
  {
    hide RefInv, ReadyStep;
    ReadyOther(s, low, high);
  }

  function SharedOwners(index: map<Slot, Entry>, owners: set<Slot>): set<Slot> {
    set o | o in owners && o in index && index[o].flags.shared
  }

  // The PF_SHARED owners other than `slot`
  function Others(s: State, slot: Slot): set<Slot>
    requires slot in s.index && s.index[slot].page in s.pages
  {
    SharedOwners(s.index, s.pages[s.index[slot].page].owners - {slot})
  }

  lemma OthersAndSelf(s: State, slot: Slot)
    requires Linked(s) && Copies(s, slot) && s.index[slot].flags.shared
    ensures Group(s, slot) == Others(s, slot) + {slot} && slot !in Others(s, slot)
    ensures Rest(s, slot) == s.pages[s.index[slot].page].owners - {slot} - Others(s, slot)
  {
    GroupIsOwned(s, slot);
  }

  lemma TogetherPages(s: State, slot: Slot, pages1: map<nat, Page>, pages2: map<nat, Page>, pages3: map<nat, Page>)
    requires RefInv(s) && Copies(s, slot) && s.index[slot].flags.shared
    requires var p := s.index[slot].page; var q := s.pool[0]; var moved := Others(s, slot);
      && pages1 == s.pages[q := Page(1, 0, {})][p := Page(s.pages[p].refs, s.pages[p].snaps,
        s.pages[p].owners - {slot})]
      && pages2 == pages1[q := Page(1 + |moved|, pages1[q].snaps, moved)]
                         [p := Page(pages1[p].refs - |moved|, pages1[p].snaps, pages1[p].owners - moved)]
      && pages3 == pages2[q := Page(pages2[q].refs, pages2[q].snaps, pages2[q].owners + {slot})]
    ensures pages3 == MoveGroup(s, slot).pages
  {
    OthersAndSelf(s, slot);
  }

  lemma TogetherIndex(s: State, slot: Slot, index2: map<Slot, Entry>, index3: map<Slot, Entry>)
    requires Linked(s) && Copies(s, slot) && s.index[slot].flags.shared
    requires index2 == map o | o in s.index ::
      if o in Others(s, slot) then Entry(s.pool[0], s.index[o].flags) else s.index[o]
    requires index3 == index2[slot := Entry(s.pool[0], index2[slot].flags)]
    ensures index3 == MoveGroup(s, slot).index
  {
    OthersAndSelf(s, slot);
  }

  lemma TogetherPtes(s: State, slot: Slot)
    requires Linked(s) && Copies(s, slot) && s.index[slot].flags.shared
    ensures s.ptes - Others(s, slot) - {slot} == MoveGroup(s, slot).ptes
  {
    OthersAndSelf(s, slot);
  }

  lemma AloneRest(s: State, slot: Slot)
    requires Backed(s, slot) && !s.index[slot].flags.shared
    ensures Group(s, slot) == {slot} && Rest(s, slot) == s.pages[s.index[slot].page].owners - {slot}
    ensures Restores(s, slot) <==> s.pages[s.index[slot].page].snaps - 1 == 0
  {}

  lemma AlonePages(s: State, slot: Slot, pages1: map<nat, Page>, pages3: map<nat, Page>)
    requires RefInv(s) && Copies(s, slot) && !s.index[slot].flags.shared
    requires var p := s.index[slot].page; var q := s.pool[0];
      && pages1 == s.pages[q := Page(1, 0, {})][p := Page(s.pages[p].refs, s.pages[p].snaps,
        s.pages[p].owners - {slot})]
      && var pages2 := pages1[p := Page(pages1[p].refs, pages1[p].snaps - 1, pages1[p].owners)];
         pages3 == pages2[q := Page(pages2[q].refs, pages2[q].snaps, pages2[q].owners + {slot})]
    ensures pages3 == MoveGroup(s, slot).pages
  {
    assert {} + {slot} == {slot};
  }

  lemma AloneIndex(s: State, slot: Slot, index1: map<Slot, Entry>, index2: map<Slot, Entry>)
    requires Linked(s) && Copies(s, slot) && !s.index[slot].flags.shared
    requires index1 == s.index[slot := Entry(s.index[slot].page, SHARED)]
    requires index2 == index1[slot := Entry(s.pool[0], index1[slot].flags)]
    ensures index2 == MoveGroup(s, slot).index
  {}

  lemma AlonePtes(s: State, slot: Slot)
    requires Linked(s) && Copies(s, slot) && !s.index[slot].flags.shared
    ensures (if Restores(s, slot) then RestoreWrite(s.ptes, Rest(s, slot)) else s.ptes) - {slot} ==
      MoveGroup(s, slot).ptes
  {
    assert RestoreWrite(s.ptes, Rest(s, slot)) - {slot} == RestoreWrite(s.ptes - {slot}, Rest(s, slot));
  }
}
