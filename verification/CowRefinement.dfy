// Lazy sharing refines eager copying: what each address space reads is what it would
// read if every snapshot had been copied when it was taken.
module CowRefinement {
  import opened CowState
  import opened CowInvariants
  import opened CowRuns

  // The eager machine binds each slot to an object of its own. Only slots bound with
  // PF_SHARED have an object in common. A frame of device memory is one object, `dev`,
  // whether it is mapped or not.
  datatype Eager = Eager(
    obj: map<Slot, nat>, val: map<nat, Bytes>, next: nat, covered: set<Slot>, current: nat, dev: map<nat, nat>)

  function BindCopy(e: Eager, slot: Slot, contents: Bytes): Eager {
    e.(obj := e.obj[slot := e.next], val := e.val[e.next := contents], next := e.next + 1)
  }

  function EagerWrite(e: Eager, slot: Slot, offset: nat, data: seq<byte>): Eager
    requires offset + |data| <= PAGE_SIZE
  {
    if slot in e.obj && e.obj[slot] in e.val then
      e.(val := e.val[e.obj[slot] := Splice(e.val[e.obj[slot]], offset, data)])
    else e
  }

  function EagerDo(e: Eager, step: Step): Eager {
    match step
    case Switch(space) => e.(current := space)
    case Cover(slot) => e.(covered := e.covered + {slot})
    case AssignFresh(slot) => BindCopy(e, slot, Zeros())
    case AssignSnapshot(slot, from) =>
      if from in e.obj && e.obj[from] in e.val then BindCopy(e, slot, e.val[e.obj[from]]) else e
    case AssignShared(slot, from) =>
      if from in e.obj then e.(obj := e.obj[slot := e.obj[from]]) else e
    case AssignDevice(slot, frame) =>
      if frame in e.dev then e.(obj := e.obj[slot := e.dev[frame]]) else e
    case Unmap(slot) => e.(obj := e.obj - {slot}, covered := e.covered - {slot})
    case Fault(vaddr, _) =>
      var slot := Slot(e.current, vaddr);
      if slot in e.covered && slot !in e.obj then BindCopy(e, slot, Zeros()) else e
    case Poke(vaddr, offset, data) =>
      if offset + |data| <= PAGE_SIZE then EagerWrite(e, Slot(e.current, vaddr), offset, data) else e
    case Store(vaddr, offset, value) =>
      if offset < PAGE_SIZE then EagerWrite(e, Slot(e.current, vaddr), offset, [value]) else e
    case _ => e
  }

  predicate InGroup(index: map<Slot, Entry>, a: Slot, b: Slot)
    requires a in index && b in index
  {
    a == b || (index[a].flags.shared && index[b].flags.shared && index[a].page == index[b].page)
  }

  // Same slots, same contents, and two slots have one object exactly when both are
  // PF_SHARED owners of one page.
  predicate Sees(index: map<Slot, Entry>, mem: map<nat, Bytes>, obj: map<Slot, nat>, val: map<nat, Bytes>) {
    && index.Keys == obj.Keys
    && (forall o | o in index ::
         index[o].page in mem && obj[o] in val && mem[index[o].page] == val[obj[o]])
    && (forall a, b | a in index && b in index :: obj[a] == obj[b] <==> InGroup(index, a, b))
  }

  predicate Matches(s: State, e: Eager) {
    && Sees(s.index, s.mem, e.obj, e.val)
    && (forall k | k in e.val :: k < e.next)
    && s.covered == e.covered && s.current == e.current
  }

  // Each device frame is one object, of which every slot of that frame is a view, and no
  // other slot is.
  predicate SeesDevices(device: set<nat>, dev: map<nat, nat>, index: map<Slot, Entry>, mem: map<nat, Bytes>,
                        obj: map<Slot, nat>, val: map<nat, Bytes>)
  {
    && (forall f | f in device && f in mem :: f in dev && dev[f] in val && val[dev[f]] == mem[f])
    && (forall f | f in dev :: dev[f] in val)
    && (forall f, g | f in dev && g in dev && dev[f] == dev[g] :: f == g)
    && (forall o | o in index && o in obj && index[o].page in device ::
      index[o].page in dev && obj[o] == dev[index[o].page])
    && (forall o, f | o in index && o in obj && index[o].page !in device && f in dev :: obj[o] != dev[f])
  }

  predicate Devices(s: State, e: Eager) {
    SeesDevices(s.device, e.dev, s.index, s.mem, e.obj, e.val)
  }

  predicate Refines(s: State, e: Eager) {
    Matches(s, e) && Devices(s, e)
  }

  lemma SeesBind(index: map<Slot, Entry>, mem: map<nat, Bytes>, e: Eager, slot: Slot, entry: Entry)
    requires Sees(index, mem, e.obj, e.val) && slot !in index && entry.page in mem
    requires forall k | k in e.val :: k < e.next
    requires entry.flags.shared ==> forall o | o in index :: index[o].page != entry.page
    ensures var e' := BindCopy(e, slot, mem[entry.page]);
      Sees(index[slot := entry], mem, e'.obj, e'.val)
  {}

  lemma SeesUnbind(index: map<Slot, Entry>, mem: map<nat, Bytes>, obj: map<Slot, nat>, val: map<nat, Bytes>, slot: Slot)
    requires Sees(index, mem, obj, val)
    ensures Sees(index - {slot}, mem, obj - {slot}, val)
  {}

  lemma SeesWrite(index: map<Slot, Entry>, mem: map<nat, Bytes>, obj: map<Slot, nat>, val: map<nat, Bytes>,
                  slot: Slot, contents: Bytes)
    requires Sees(index, mem, obj, val) && slot in index
    requires forall o | o in index && index[o].page == index[slot].page :: index[o].flags.shared
    ensures Sees(index, mem[index[slot].page := contents], obj, val[obj[slot] := contents])
  {
    forall o | o in index ensures obj[o] == obj[slot] <==> index[o].page == index[slot].page {
      assert obj[o] == obj[slot] <==> InGroup(index, o, slot);
    }
  }

  // Moving a whole group to a copy of its page changes nothing that can be seen.
  lemma SeesMove(index: map<Slot, Entry>, mem: map<nat, Bytes>, obj: map<Slot, nat>, val: map<nat, Bytes>,
                 group: set<Slot>, slot: Slot, q: nat)
    requires Sees(index, mem, obj, val) && slot in index
    requires forall o | o in index :: index[o].page != q
    requires forall o | o in index :: o in group <==> InGroup(index, o, slot)
    ensures Sees(MoveTo(index, group, q), mem[q := mem[index[slot].page]], obj, val)
  {
    var moved := MoveTo(index, group, q);
    forall a, b | a in moved && b in moved
      ensures obj[a] == obj[b] <==> InGroup(moved, a, b)
    {
      assert obj[a] == obj[b] <==> InGroup(index, a, b);
    }
  }

  lemma SeesTakeOver(index: map<Slot, Entry>, mem: map<nat, Bytes>, obj: map<Slot, nat>, val: map<nat, Bytes>,
      slot: Slot)
    requires Sees(index, mem, obj, val) && slot in index
    requires forall o | o in index && o != slot :: index[o].page != index[slot].page
    ensures Sees(index[slot := Entry(index[slot].page, SHARED)], mem, obj, val)
  {
    var index' := index[slot := Entry(index[slot].page, SHARED)];
    forall a, b | a in index' && b in index'
      ensures obj[a] == obj[b] <==> InGroup(index', a, b)
    {
      assert obj[a] == obj[b] <==> InGroup(index, a, b);
    }
  }

  predicate ZeroClean(s: State) {
    s.zero in s.mem && s.mem[s.zero] == Zeros()
  }

  // A page whose snapshot count is zero has only PF_SHARED owners, and is not the zero page.
  lemma Unsnapped(s: State, slot: Slot)
    requires RefInv(s) && Snaps(s) && slot in s.index && s.pages[s.index[slot].page].snaps == 0
    ensures forall o | o in s.index && s.index[o].page == s.index[slot].page :: s.index[o].flags.shared
    ensures s.index[slot].page != s.zero
  {
    var p := s.index[slot].page;
    forall o | o in s.index && s.index[o].page == p ensures s.index[o].flags.shared {
      assert o !in SnapOwners(s.index, p);
    }
  }

  lemma UnassignRefines(s: State, e: Eager, slot: Slot)
    requires Matches(s, e) && slot in s.index && s.index[slot].page in s.pages && Unassign(s, slot).Done?
    ensures Matches(Unassign(s, slot).st, e.(obj := e.obj - {slot}))
    ensures ZeroClean(s) ==> ZeroClean(Unassign(s, slot).st)
  {
    SeesUnbind(s.index, s.mem, e.obj, e.val, slot);
  }

  lemma AttachRefines(s: State, e: Eager, slot: Slot, p: nat, flags: Flags)
    requires Matches(s, e) && slot !in s.index && p in s.pages && p in s.mem && Attach(s, slot, p, flags).Done?
    requires flags.shared ==> forall o | o in s.index :: s.index[o].page != p
    ensures Matches(Attach(s, slot, p, flags).st, BindCopy(e, slot, s.mem[p]))
    ensures ZeroClean(s) ==> ZeroClean(Attach(s, slot, p, flags).st)
  {
    SeesBind(s.index, s.mem, e, slot, Entry(p, flags));
  }

  lemma FreshRefines(s: State, e: Eager, slot: Slot)
    requires RefInv(s) && Matches(s, e) && ZeroClean(s) && slot !in s.index && s.pool != []
    requires AssignFreshStep(s, slot).Done?
    ensures Matches(AssignFreshStep(s, slot).st, BindCopy(e, slot, Zeros()))
    ensures ZeroClean(AssignFreshStep(s, slot).st)
  {
    var q := s.pool[0];
    TakeKeeps(s);
    var s1 := Manage(TakeFrame(s), q);
    assert Matches(s1, e);
    AttachRefines(s1, e, slot, q, SHARED);
  }

  lemma UnshareRefines(s: State, e: Eager, slot: Slot)
    requires RefInv(s) && Snaps(s) && Matches(s, e) && slot in s.index
    requires UnshareStep(s, slot, true).Done?
    ensures Matches(UnshareStep(s, slot, true).st, e)
    ensures ZeroClean(s) ==> ZeroClean(UnshareStep(s, slot, true).st)
  {
    hide Zeros, RestoreWrite, SoleHolder, UnshareCopy, Owners, Coherent, Counted, Frames, Mapped, Snaps, InGroup;
    if s.pages[s.index[slot].page].snaps > 0 {
      if SoleHolder(s, slot) {
        TakeOverRefines(s, e, slot);
      } else {
        CopyRefines(s, e, slot);
      }
    }
  }

  lemma TakeOverRefines(s: State, e: Eager, slot: Slot)
    requires RefInv(s) && Matches(s, e) && SoleHolder(s, slot)
    ensures Matches(TakeOver(s, slot, true), e)
  {
    OnlyOwner(s, slot);
    forall o | o in s.index && o != slot ensures s.index[o].page != s.index[slot].page {
      assert o !in Owners(s.index, s.index[slot].page);
    }
    SeesTakeOver(s.index, s.mem, e.obj, e.val, slot);
  }

  lemma CopyRefines(s: State, e: Eager, slot: Slot)
    requires RefInv(s) && Matches(s, e) && Copies(s, slot) && UnshareCopy(s, slot).Done?
    ensures Matches(UnshareCopy(s, slot).st, e)
    ensures ZeroClean(s) ==> ZeroClean(UnshareCopy(s, slot).st)
  {
    hide MoveTo, Rest, SnapsLeft, Restores, Coherent, Distinct, Mapped, Sees;
    forall o | o in s.index ensures o in Group(s, slot) <==> InGroup(s.index, o, slot) {
      assert o in Owners(s.index, s.index[slot].page) <==> s.index[o].page == s.index[slot].page;
    }
    SeesMove(s.index, s.mem, e.obj, e.val, Group(s, slot), slot, s.pool[0]);
  }

  lemma MapRefines(s: State, e: Eager, slot: Slot)
    requires RefInv(s) && Matches(s, e) && slot in s.index && MapEntry(s, slot).Done?
    ensures Matches(MapEntry(s, slot).st, e)
    ensures ZeroClean(s) ==> ZeroClean(MapEntry(s, slot).st)
  {
    if SoleHolder(s, slot) {
      TakeOverRefines(s, e, slot);
    }
  }

  lemma ResolveRefines(s: State, e: Eager, slot: Slot, write: bool)
    requires RefInv(s) && Snaps(s) && Matches(s, e) && ZeroClean(s) && slot in s.index
    requires Resolve(s, slot, write, true).Done?
    ensures Matches(Resolve(s, slot, write, true).st, e) && ZeroClean(Resolve(s, slot, write, true).st)
  {
    if write {
      UnshareRefines(s, e, slot);
      MapRefines(UnshareStep(s, slot, true).st, e, slot);
    } else {
      MapRefines(s, e, slot);
    }
  }

  lemma FaultRefines(s: State, e: Eager, slot: Slot, write: bool)
    requires RefInv(s) && Snaps(s) && Matches(s, e) && ZeroClean(s) && slot in s.covered
    requires FaultStep(s, slot, write, true).Done?
    ensures Matches(FaultStep(s, slot, write, true).st, if slot in e.obj then e else BindCopy(e, slot, Zeros()))
    ensures ZeroClean(FaultStep(s, slot, write, true).st)
  {
    PopulateSnaps(s, slot);
    if slot !in s.index {
      AttachRefines(s, e, slot, s.zero, SNAPSHOT);
      ResolveRefines(Populate(s, slot).st, BindCopy(e, slot, Zeros()), slot, write);
    } else {
      ResolveRefines(s, e, slot, write);
    }
  }

  lemma WriteRefines(s: State, e: Eager, slot: Slot, offset: nat, data: seq<byte>)
    requires RefInv(s) && Snaps(s) && Matches(s, e) && ZeroClean(s) && slot in s.index
    requires s.pages[s.index[slot].page].snaps == 0 && offset + |data| <= PAGE_SIZE
    ensures Matches(WriteStep(s, s.index[slot].page, offset, data), EagerWrite(e, slot, offset, data))
    ensures ZeroClean(WriteStep(s, s.index[slot].page, offset, data))
  {
    hide Zeros, RefInv, Snaps, Splice, InGroup;
    Unsnapped(s, slot);
    SeesWrite(s.index, s.mem, e.obj, e.val, slot, Splice(s.mem[s.index[slot].page], offset, data));
  }

  lemma UnassignLeaves(s: State, slot: Slot, p: nat)
    requires Survives(s, slot, p) && slot in s.index && s.index[slot].page in s.pages && Unassign(s, slot).Done?
    ensures p in Unassign(s, slot).st.pages && Unassign(s, slot).st.mem == s.mem
    ensures Unassign(s, slot).st.index == s.index - {slot}
  {}

  lemma RebindSame(e: Eager, slot: Slot, contents: Bytes)
    ensures BindCopy(e.(obj := e.obj - {slot}), slot, contents) == BindCopy(e, slot, contents)
  {
    assert (e.obj - {slot})[slot := e.next] == e.obj[slot := e.next];
  }

  lemma SnapshotRefines(s: State, e: Eager, slot: Slot, p: nat)
    requires RefInv(s) && Matches(s, e) && ZeroClean(s)
    requires Survives(s, slot, p) && Assign(s, slot, p, SNAPSHOT).Done?
    ensures Matches(Assign(s, slot, p, SNAPSHOT).st, BindCopy(e, slot, s.mem[p]))
    ensures ZeroClean(Assign(s, slot, p, SNAPSHOT).st)
  {
    if slot in s.index {
      UnassignRefines(s, e, slot);
      UnassignLeaves(s, slot, p);
      AttachRefines(Unassign(s, slot).st, e.(obj := e.obj - {slot}), slot, p, SNAPSHOT);
      RebindSame(e, slot, s.mem[p]);
    } else {
      AttachRefines(s, e, slot, p, SNAPSHOT);
    }
  }

  lemma JoinRefines(s: State, e: Eager, slot: Slot, p: nat, k: nat, flags: Flags)
    requires flags == SHARED || flags == DEVICE
    requires Matches(s, e) && slot !in s.index && p in s.pages && p in s.mem && Attach(s, slot, p, flags).Done?
    requires k in e.val && e.val[k] == s.mem[p]
    requires forall o | o in s.index :: e.obj[o] == k <==> s.index[o].flags.shared && s.index[o].page == p
    ensures Matches(Attach(s, slot, p, flags).st, e.(obj := e.obj[slot := k]))
    ensures ZeroClean(s) ==> ZeroClean(Attach(s, slot, p, flags).st)
  {}

  lemma SharedRefines(s: State, e: Eager, slot: Slot, from: Slot)
    requires RefInv(s) && Matches(s, e) && ZeroClean(s) && from in s.index && s.index[from].flags == SHARED
    requires Survives(s, slot, s.index[from].page) && Assign(s, slot, s.index[from].page, SHARED).Done?
    ensures Matches(Assign(s, slot, s.index[from].page, SHARED).st, e.(obj := e.obj[slot := e.obj[from]]))
    ensures ZeroClean(Assign(s, slot, s.index[from].page, SHARED).st)
  {
    hide Unassign, Attach, BadFlags, Survives, Owners, Coherent, Counted, Frames, Mapped, ZeroClean;
    var p := s.index[from].page;
    var k := e.obj[from];
    forall o | o in s.index ensures e.obj[o] == k <==> s.index[o].flags.shared && s.index[o].page == p {
      assert e.obj[o] == e.obj[from] <==> InGroup(s.index, o, from);
    }
    if slot in s.index {
      UnassignRefines(s, e, slot);
      UnassignLeaves(s, slot, p);
      JoinRefines(Unassign(s, slot).st, e.(obj := e.obj - {slot}), slot, p, k, SHARED);
      assert (e.obj - {slot})[slot := k] == e.obj[slot := k];
    } else {
      JoinRefines(s, e, slot, p, k, SHARED);
    }
  }

  lemma DeviceMatches(s: State, e: Eager, slot: Slot, frame: nat)
    requires Inv(s) && Refines(s, e) && ZeroClean(s) && Legal(s, AssignDevice(slot, frame))
    requires AttachManaged(s, slot, frame, DEVICE).Done?
    ensures Matches(AttachManaged(s, slot, frame, DEVICE).st, e.(obj := e.obj[slot := e.dev[frame]]))
    ensures ZeroClean(AttachManaged(s, slot, frame, DEVICE).st)
  {
    var s1 := Manage(s, frame);
    assert Matches(s1, e);
    JoinRefines(s1, e, slot, frame, e.dev[frame], DEVICE);
  }

  // One step of the lazy machine is one step of the eager one, as far as slots go.
  lemma DoMatches(s: State, e: Eager, step: Step)
    requires Inv(s) && Refines(s, e) && ZeroClean(s) && Legal(s, step) && Plain(step)
    requires Do(s, step, true).Done?
    ensures Matches(Do(s, step, true).st, EagerDo(e, step)) && ZeroClean(Do(s, step, true).st)
  {
    match step
    case Switch(_) =>
    case Cover(_) =>
    case AssignFresh(_) | AssignSnapshot(_, _) | AssignShared(_, _) | AssignDevice(_, _) => AssignMatches(s, e, step);
    case Unmap(slot) => UnmapRefines(s, e, slot);
    case Fault(vaddr, write) =>
      if Slot(s.current, vaddr) in s.covered { FaultRefines(s, e, Slot(s.current, vaddr), write); }
    case Prepare(vaddr) => UnshareRefines(s, e, Slot(s.current, vaddr));
    case Poke(vaddr, offset, data) =>
      SnapsBelowRefs(s, s.index[Slot(s.current, vaddr)].page);
      WriteRefines(s, e, Slot(s.current, vaddr), offset, data);
    case Store(vaddr, offset, value) =>
      WriteRefines(s, e, Slot(s.current, vaddr), offset, [value]);
  }

  lemma AssignMatches(s: State, e: Eager, step: Step)
    requires Inv(s) && Refines(s, e) && ZeroClean(s) && Legal(s, step)
    requires step.AssignFresh? || step.AssignSnapshot? || step.AssignShared? || step.AssignDevice?
    requires Do(s, step, true).Done?
    ensures Matches(Do(s, step, true).st, EagerDo(e, step)) && ZeroClean(Do(s, step, true).st)
  {
    match step
    case AssignFresh(slot) => FreshRefines(s, e, slot);
    case AssignSnapshot(slot, from) => SnapshotRefines(s, e, slot, s.index[from].page);
    case AssignShared(slot, from) => SharedRefines(s, e, slot, from);
    case AssignDevice(slot, frame) => DeviceMatches(s, e, slot, frame);
  }

  lemma UnmapRefines(s: State, e: Eager, slot: Slot)
    requires Matches(s, e) && ZeroClean(s) && RefInv(s) && UnmapStep(s, slot).Done?
    ensures Matches(UnmapStep(s, slot).st, EagerDo(e, Unmap(slot))) && ZeroClean(UnmapStep(s, slot).st)
  {
    var s1 := s.(covered := s.covered - {slot});
    var e1 := e.(covered := e.covered - {slot});
    if slot in s.index {
      UnassignRefines(s1, e1, slot);
    } else {
      assert e.obj - {slot} == e.obj;
    }
  }

  // ----- device memory -----

  lemma DevicesUnbound(s: State, e: Eager, t: State, slot: Slot)
    requires Devices(s, e) && t.index == s.index - {slot} && t.mem == s.mem && t.device == s.device
    ensures Devices(t, e.(obj := e.obj - {slot}))
  {}

  lemma DevicesBound(s: State, e: Eager, t: State, slot: Slot, entry: Entry, contents: Bytes)
    requires Matches(s, e) && Devices(s, e) && t.device == s.device && entry.page !in s.device
    requires t.index == s.index[slot := entry] && t.mem.Keys == s.mem.Keys
    requires forall f | f in s.device && f in s.mem :: t.mem[f] == s.mem[f]
    ensures Devices(t, BindCopy(e, slot, contents))
  {}

  lemma DevicesJoined(s: State, e: Eager, t: State, slot: Slot, entry: Entry, k: nat)
    requires Devices(s, e) && t.device == s.device && t.index == s.index[slot := entry] && t.mem == s.mem
    requires entry.page in s.device ==> entry.page in e.dev && k == e.dev[entry.page]
    requires entry.page !in s.device ==> forall f | f in e.dev :: k != e.dev[f]
    ensures Devices(t, e.(obj := e.obj[slot := k]))
  {}

  lemma UnrefLeaves(s: State, p: nat, hw: bool)
    requires p in s.pages
    ensures var t := PageUnref(s, p, hw); t.index == s.index && t.mem == s.mem && t.device == s.device
  {}

  lemma CopyLeaves(s: State, slot: Slot)
    requires Copies(s, slot) && UnshareCopy(s, slot).Done?
    ensures var t := UnshareCopy(s, slot).st;
      && t.index == MoveTo(s.index, Group(s, slot), s.pool[0])
      && t.mem == s.mem[s.pool[0] := s.mem[s.index[slot].page]] && t.device == s.device
  {
    hide PageUnref, MoveTo, Group, Rest, AllShared, RestoreWrite;
    UnrefLeaves(MoveGroup(s, slot), s.index[slot].page, false);
  }

  lemma DevicesMoved(s: State, e: Eager, t: State, slot: Slot)
    requires RefInv(s) && Snaps(s) && Devices(s, e) && slot in s.index && UnshareStep(s, slot, true) == Done(t)
    ensures Devices(t, e)
  {
    hide RestoreWrite, UnshareCopy, Counted, Distinct, Mapped, Snaps, Group, SeesDevices;
    if s.pages[s.index[slot].page].snaps > 0 {
      DeviceUnsnapped(s, slot);
      if SoleHolder(s, slot) {
        DevicesKept(s, e, t);
      } else {
        CopyLeaves(s, slot);
        GroupPage(s, slot);
        DevicesLeft(s, e, t, slot);
      }
    }
  }

  lemma DevicesKept(s: State, e: Eager, t: State)
    requires Devices(s, e) && t.mem == s.mem && t.device == s.device && t.index.Keys == s.index.Keys
    requires forall o | o in s.index :: t.index[o].page == s.index[o].page
    ensures Devices(t, e)
  {}

  lemma GroupPage(s: State, slot: Slot)
    requires Linked(s) && slot in s.index
    ensures forall o | o in Group(s, slot) :: o in s.index && s.index[o].page == s.index[slot].page
  {
    forall o | o in Group(s, slot) ensures o in s.index && s.index[o].page == s.index[slot].page {
      assert o == slot || o in Owners(s.index, s.index[slot].page);
    }
  }

  lemma DevicesLeft(s: State, e: Eager, t: State, slot: Slot)
    requires Devices(s, e) && slot in s.index && s.pool != [] && s.index[slot].page !in s.device
      && s.pool[0] !in s.device
    requires Backed(s, slot) && forall o | o in Group(s, slot) :: o in s.index && s.index[o].page == s.index[slot].page
    requires t.index == MoveTo(s.index, Group(s, slot), s.pool[0]) && t.device == s.device
    requires t.mem.Keys == s.mem.Keys && forall f | f in s.device && f in s.mem :: t.mem[f] == s.mem[f]
    ensures Devices(t, e)
  {
    hide Group;
  }

  lemma DevicesMapped(s: State, e: Eager, t: State, slot: Slot)
    requires Devices(s, e) && slot in s.index && s.index[slot].page in s.pages && MapEntry(s, slot) == Done(t)
    ensures Devices(t, e)
  {}

  lemma DevicesFaulted(s: State, e: Eager, slot: Slot, write: bool)
    requires Inv(s) && Refines(s, e) && ZeroClean(s) && slot in s.covered && FaultStep(s, slot, write, true).Done?
    ensures Devices(FaultStep(s, slot, write, true).st, if slot in e.obj then e else BindCopy(e, slot, Zeros()))
  {
    hide SeesDevices, Sees, RefInv, Snaps, ReadOnly, ZeroClean, UnshareStep, MapEntry;
    PopulateSnaps(s, slot);
    var s1 := Populate(s, slot).st;
    var e1 := if slot in e.obj then e else BindCopy(e, slot, Zeros());
    PopulateDevices(s, e, slot);
    if write {
      var s2 := UnshareStep(s1, slot, true).st;
      DevicesMoved(s1, e1, s2, slot);
      EntryPage(s2, slot);
      DevicesMapped(s2, e1, MapEntry(s2, slot).st, slot);
    } else {
      EntryPage(s1, slot);
      DevicesMapped(s1, e1, MapEntry(s1, slot).st, slot);
    }
  }

  lemma DevicesHandled(s: State, e: Eager, vaddr: nat, write: bool)
    requires Inv(s) && Refines(s, e) && ZeroClean(s) && FaultStep(s, Slot(s.current, vaddr), write, true).Done?
    ensures Devices(FaultStep(s, Slot(s.current, vaddr), write, true).st, EagerDo(e, Fault(vaddr, write)))
  {
    hide RefInv, Snaps, ReadOnly, Refines, Devices, ZeroClean, FaultStep, EagerDo;
    FaultCases(s, e, vaddr, write);
    KnowsDevices(s, e);
    if Slot(s.current, vaddr) in s.covered { DevicesFaulted(s, e, Slot(s.current, vaddr), write); }
  }

  lemma KnowsDevices(s: State, e: Eager)
    requires Refines(s, e)
    ensures Devices(s, e)
  {}

  lemma FaultCases(s: State, e: Eager, vaddr: nat, write: bool)
    requires RefInv(s) && Refines(s, e)
    ensures var slot := Slot(s.current, vaddr);
      && (slot in s.covered ==> EagerDo(e, Fault(vaddr, write)) == if slot in e.obj then e
        else BindCopy(e, slot, Zeros()))
      && (slot !in s.covered ==> EagerDo(e, Fault(vaddr, write)) == e && FaultStep(s, slot, write, true) == Done(s))
  {
    hide RefInv, Sees, SeesDevices, BindCopy, Populate, Resolve;
  }

  lemma EntryPage(s: State, slot: Slot)
    requires RefInv(s) && slot in s.index
    ensures s.index[slot].page in s.pages
  {}

  lemma PopulateDevices(s: State, e: Eager, slot: Slot)
    requires RefInv(s) && Snaps(s) && Refines(s, e)
    ensures Populate(s, slot).Done?
    ensures Devices(Populate(s, slot).st, if slot in e.obj then e else BindCopy(e, slot, Zeros()))
  {
    hide RemoveWrite, AnyDevice, SeesDevices;
    PopulateSnaps(s, slot);
    if slot !in s.index {
      DevicesBound(s, e, Populate(s, slot).st, slot, Entry(s.zero, SNAPSHOT), Zeros());
    }
  }

  lemma DevicesAssigned(s: State, e: Eager, slot: Slot, from: Slot, flags: Flags)
    requires Inv(s) && Refines(s, e) && from in s.index && !s.index[from].flags.hardware
    requires Survives(s, slot, s.index[from].page) && Assign(s, slot, s.index[from].page, flags).Done?
    ensures var t := Assign(s, slot, s.index[from].page, flags).st;
      && Devices(t, BindCopy(e, slot, s.mem[s.index[from].page]))
      && Devices(t, e.(obj := e.obj[slot := e.obj[from]]))
  {
    hide Detach, PageUnref, SeesDevices, Counted, Distinct, Mapped;
    var p := s.index[from].page;
    var t := Assign(s, slot, p, flags).st;
    AssignIndex(s, slot, p, flags);
    DevicesBound(s, e, t, slot, Entry(p, flags), s.mem[p]);
    NotDevice(s, e, from);
    DevicesJoined(s, e, t, slot, Entry(p, flags), e.obj[from]);
  }

  lemma NotDevice(s: State, e: Eager, o: Slot)
    requires Refines(s, e) && o in s.index && s.index[o].page !in s.device
    ensures forall f | f in e.dev :: e.obj[o] != e.dev[f]
  {}

  lemma AssignIndex(s: State, slot: Slot, p: nat, flags: Flags)
    requires RefInv(s) && Survives(s, slot, p) && Assign(s, slot, p, flags).Done?
    ensures var t := Assign(s, slot, p, flags).st;
      t.index == s.index[slot := Entry(p, flags)] && t.mem == s.mem && t.device == s.device
  {
    hide RemoveWrite, AnyDevice, Unassign, Counted, Distinct, Mapped;
    if slot in s.index {
      UnassignFields(s, slot);
      assert (s.index - {slot})[slot := Entry(p, flags)] == s.index[slot := Entry(p, flags)];
    }
  }

  lemma ManagedFields(s: State, slot: Slot, p: nat, flags: Flags)
    requires RefInv(s) && slot !in s.index && p !in s.pool && p in s.mem
    requires Coherent(flags) && (flags.hardware <==> p in s.device) && AttachManaged(s, slot, p, flags).Done?
    ensures var t := AttachManaged(s, slot, p, flags).st;
      t.index == s.index[slot := Entry(p, flags)] && t.mem == s.mem && t.device == s.device
  {
    hide PageUnref, RemoveWrite, AnyDevice, RefInvWith;
    ManageKeeps(s, p);
    UnrefLeaves(Attach(Manage(s, p), slot, p, flags).st, p, false);
  }

  lemma DevicesFresh(s: State, e: Eager, slot: Slot)
    requires RefInv(s) && Refines(s, e) && slot !in s.index && AssignFreshStep(s, slot).Done?
    ensures Devices(AssignFreshStep(s, slot).st, BindCopy(e, slot, Zeros()))
  {
    hide SeesDevices, Sees, AttachManaged, Zeros;
    TakeKeeps(s);
    var t := AssignFreshStep(s, slot).st;
    ManagedFields(TakeFrame(s), slot, s.pool[0], SHARED);
    DevicesBound(s, e, t, slot, Entry(s.pool[0], SHARED), Zeros());
  }

  lemma DevicesAttached(s: State, e: Eager, slot: Slot, frame: nat)
    requires Inv(s) && Refines(s, e) && Legal(s, AssignDevice(slot, frame))
      && AttachManaged(s, slot, frame, DEVICE).Done?
    ensures frame in e.dev && Devices(AttachManaged(s, slot, frame, DEVICE).st, e.(obj := e.obj[slot := e.dev[frame]]))
  {
    hide AttachManaged, Sees, Linked, Counted, Mapped;
    var t := AttachManaged(s, slot, frame, DEVICE).st;
    ManagedFields(s, slot, frame, DEVICE);
    DevicesJoined(s, e, t, slot, Entry(frame, DEVICE), e.dev[frame]);
  }

  lemma DevicesWritten(s: State, e: Eager, slot: Slot, offset: nat, data: seq<byte>)
    requires RefInv(s) && Refines(s, e) && slot in s.index && offset + |data| <= PAGE_SIZE
    ensures Devices(WriteStep(s, s.index[slot].page, offset, data), EagerWrite(e, slot, offset, data))
  {
    hide Splice, RefInv, InGroup;
  }

  lemma UnassignFields(s: State, slot: Slot)
    requires slot in s.index && s.index[slot].page in s.pages && Unassign(s, slot).Done?
    ensures var t := Unassign(s, slot).st; t.index == s.index - {slot} && t.mem == s.mem && t.device == s.device
  {
    hide PageUnref, RestoreWrite, AllShared;
    UnrefLeaves(Detach(s, slot).st, s.index[slot].page, s.index[slot].flags.hardware);
  }

  lemma UnmapLeaves(s: State, slot: Slot)
    requires RefInv(s) && UnmapStep(s, slot).Done?
    ensures var t := UnmapStep(s, slot).st; t.index == s.index - {slot} && t.mem == s.mem && t.device == s.device
  {
    hide Unassign, RefInvWith;
    Uncovered(s, slot);
    if slot in s.index {
      UnassignFields(s.(covered := s.covered - {slot}), slot);
    } else {
      assert s.index - {slot} == s.index;
    }
  }

  lemma DevicesUnmapped(s: State, e: Eager, slot: Slot)
    requires RefInv(s) && Refines(s, e) && UnmapStep(s, slot).Done?
    ensures Devices(UnmapStep(s, slot).st, EagerDo(e, Unmap(slot)))
  {
    hide SeesDevices, Matches, RefInvWith, Unassign;
    var t := UnmapStep(s, slot).st;
    UnmapLeaves(s, slot);
    DevicesUnbound(s, e, t, slot);
  }

  lemma DoDevices(s: State, e: Eager, step: Step)
    requires Inv(s) && Refines(s, e) && ZeroClean(s) && Legal(s, step) && Plain(step)
    requires Do(s, step, true).Done?
    ensures Devices(Do(s, step, true).st, EagerDo(e, step))
  {
    hide Assign, AttachManaged, AssignFreshStep, UnmapStep, FaultStep, UnshareStep, RefInvWith, Snaps, ReadOnly,
        ZeroClean;
    match step
    case Switch(_) =>
    case Cover(_) =>
    case AssignFresh(slot) => DevicesFresh(s, e, slot);
    case AssignSnapshot(slot, from) => DevicesAssigned(s, e, slot, from, SNAPSHOT);
    case AssignShared(slot, from) => DevicesAssigned(s, e, slot, from, SHARED);
    case AssignDevice(slot, frame) => DevicesAttached(s, e, slot, frame);
    case Unmap(slot) => DevicesUnmapped(s, e, slot);
    case Fault(vaddr, write) => DevicesHandled(s, e, vaddr, write);
    case Prepare(vaddr) =>
      var slot := Slot(s.current, vaddr);
      DevicesMoved(s, e, UnshareStep(s, slot, true).st, slot);
    case Poke(vaddr, offset, data) => DevicesWritten(s, e, Slot(s.current, vaddr), offset, data);
    case Store(vaddr, offset, value) =>
      MappedFrame(s, Slot(s.current, vaddr));
      DevicesWritten(s, e, Slot(s.current, vaddr), offset, [value]);
  }

  lemma MappedFrame(s: State, slot: Slot)
    requires RefInv(s) && slot in s.ptes
    ensures slot in s.index && s.ptes[slot].frame == s.index[slot].page
  {}

  lemma DoRefines(s: State, e: Eager, step: Step)
    requires Inv(s) && Refines(s, e) && ZeroClean(s) && Legal(s, step) && Plain(step)
    requires Do(s, step, true).Done?
    ensures Refines(Do(s, step, true).st, EagerDo(e, step)) && ZeroClean(Do(s, step, true).st)
  {
    hide Inv, Matches, Devices, ZeroClean, Legal, Do, EagerDo;
    DoMatches(s, e, step);
    DoDevices(s, e, step);
  }

  function EagerRun(e: Eager, steps: seq<Step>): Eager
    decreases |steps|
  {
    if steps == [] then e else EagerRun(EagerDo(e, steps[0]), steps[1..])
  }

  // The main result. Over every run of forks, page sends, shared and device mappings, faults,
  // writes and unmaps, the kernel with the flag update never stops on a panic, and at the end
  // lazy sharing and eager copying agree on every byte of every address space.
  lemma LazyRefinesEager(s: State, e: Eager, steps: seq<Step>)
    requires Inv(s) && Refines(s, e) && ZeroClean(s)
    requires LegalRun(s, steps, true) && forall i | 0 <= i < |steps| :: Plain(steps[i])
    ensures !Run(s, steps, true).Panic?
    ensures Run(s, steps, true).Done? ==>
      var s' := Run(s, steps, true).st;
      Inv(s') && Refines(s', EagerRun(e, steps)) && ZeroClean(s')
    decreases |steps|
  {
    hide RefInv, Snaps, ReadOnly, Legal, Do, Plain, EagerDo, Refines, ZeroClean;
    if steps != [] {
      DoInv(s, steps[0]);
      if Do(s, steps[0], true).Done? {
        DoRefines(s, e, steps[0]);
        LazyRefinesEager(Do(s, steps[0], true).st, EagerDo(e, steps[0]), steps[1..]);
      }
    }
  }

  // The start: only the zero page is managed, and no address space holds anything.
  function Booted(mem: map<nat, Bytes>, pool: seq<nat>, covered: set<Slot>, device: set<nat>, zero: nat,
      current: nat): State
  {
    State(map[zero := Page(1, 0, {})], map[], map[], mem, pool, multiset{zero}, multiset{}, covered, device, zero,
      current)
  }

  // The eager machine at the start: the device frames are its only objects.
  function BootedEager(mem: map<nat, Bytes>, covered: set<Slot>, device: set<nat>, current: nat, next: nat): Eager {
    Eager(map[], map f | f in device && f in mem :: mem[f], next, covered, current,
          map f | f in device && f in mem :: f)
  }

  lemma BootedRefines(mem: map<nat, Bytes>, pool: seq<nat>, covered: set<Slot>, device: set<nat>, zero: nat,
      current: nat, next: nat)
    requires zero in mem && mem[zero] == Zeros() && zero !in device && zero !in pool && Distinct(pool)
    requires forall p | p in pool :: p in mem && p !in device
    requires forall f | f in device :: f < next
    ensures var s := Booted(mem, pool, covered, device, zero, current);
      Inv(s) && Refines(s, BootedEager(mem, covered, device, current, next)) && ZeroClean(s)
  {
    var s := Booted(mem, pool, covered, device, zero, current);
    assert Owners(s.index, zero) == {} && SnapOwners(s.index, zero) == {};
    assert s.held[zero] == 1;
  }

  // ----- the code as written -----

  lemma SameUnshare(s: State, slot: Slot)
    requires RefInv(s) && slot in s.index && !SoleHolder(s, slot)
    ensures UnshareStep(s, slot, false) == UnshareStep(s, slot, true)
  {}

  lemma SameStep(s: State, step: Step)
    requires Inv(s) && Legal(s, step) && !TakesSoleBranch(s, step)
    ensures Do(s, step, false) == Do(s, step, true)
  {
    hide Attach, Survives, SoleHolder, Coherent, RefInvWith, RefInv, Snaps, ReadOnly, UnshareStep, MapStep,
         AttachManaged, AssignFreshStep, AssignStep, UnmapStep, HoldCopyStep, HoldSnapshotStep, DropHeldStep,
         DropSnapshotStep, SwitchStep, CoverStep, WriteStep;
    match step
    case Fault(vaddr, write) =>
      var slot := Slot(s.current, vaddr);
      if slot in s.covered && write {
        PopulateSnaps(s, slot);
        SameUnshare(Populate(s, slot).st, slot);
      }
    case Prepare(vaddr) => SameUnshare(s, Slot(s.current, vaddr));
    case _ =>
  }

  // As written, everything above holds of the runs that never reach the sole-holder branch.
  lemma AsWrittenRefinesEager(s: State, e: Eager, steps: seq<Step>)
    requires Inv(s) && Refines(s, e) && ZeroClean(s)
    requires LegalRun(s, steps, false) && NeverSole(s, steps) && forall i | 0 <= i < |steps| :: Plain(steps[i])
    ensures !Run(s, steps, false).Panic?
    ensures Run(s, steps, false).Done? ==>
      var s' := Run(s, steps, false).st;
      Inv(s') && Refines(s', EagerRun(e, steps)) && ZeroClean(s')
    decreases |steps|
  {
    hide RefInv, Snaps, ReadOnly, Legal, Do, TakesSoleBranch, Plain, EagerDo, Refines, ZeroClean;
    if steps != [] {
      SameStep(s, steps[0]);
      DoInv(s, steps[0]);
      if Do(s, steps[0], false).Done? {
        DoRefines(s, e, steps[0]);
        AsWrittenRefinesEager(Do(s, steps[0], false).st, EagerDo(e, steps[0]), steps[1..]);
      }
    }
  }

  // ----- what programs see -----

  // The byte a load reads through the page table is the eager machine's.
  lemma LoadsAgree(s: State, e: Eager, slot: Slot, offset: nat)
    requires Inv(s) && Refines(s, e) && slot in s.ptes && offset < PAGE_SIZE
    ensures slot in e.obj && s.ptes[slot].frame in s.mem
    ensures s.mem[s.ptes[slot].frame][offset] == e.val[e.obj[slot]][offset]
  {}

  // After the handler returns, the access that faulted succeeds: also as written, away from
  // the sole-holder branch.
  lemma FaultGrants(s: State, vaddr: nat, write: bool, repaired: bool)
    requires Inv(s) && Legal(s, Fault(vaddr, write)) && Slot(s.current, vaddr) in s.covered
    requires repaired || !TakesSoleBranch(s, Fault(vaddr, write))
    requires Do(s, Fault(vaddr, write), repaired).Done?
    ensures var s' := Do(s, Fault(vaddr, write), repaired).st;
      && Slot(s.current, vaddr) in s'.ptes
      && (write ==> s'.ptes[Slot(s.current, vaddr)].writable)
  {
    var slot := Slot(s.current, vaddr);
    if !repaired { SameStep(s, Fault(vaddr, write)); }
    PopulateReadOnly(s, slot);
    var s1 := Populate(s, slot).st;
    if write {
      UnshareLeavesNone(s1, slot);
      MapGrants(UnshareStep(s1, slot, true).st, slot);
    } else {
      MapGrants(s1, slot);
    }
  }

  lemma UnshareLeavesNone(s: State, slot: Slot)
    requires Inv(s) && slot in s.index && UnshareStep(s, slot, true).Done?
    ensures var s' := UnshareStep(s, slot, true).st; s'.pages[s'.index[slot].page].snaps == 0
  {
    hide Backed, SnapsLeft, Owners, Coherent, Counted, Distinct, Mapped, Snaps, ReadOnly;
    SnapsBelowRefs(s, s.index[slot].page);
  }

  lemma MapGrants(s: State, slot: Slot)
    requires RefInv(s) && slot in s.index && MapEntry(s, slot).Done?
    ensures var s' := MapEntry(s, slot).st;
      slot in s'.ptes && (s.pages[s.index[slot].page].snaps == 0 ==> s'.ptes[slot].writable)
  {}
}
