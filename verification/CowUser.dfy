// What programs see of memory, and what a kernel write into it changes.
module CowUser {
  import opened CowState
  import opened CowInvariants
  import opened CowRuns
  import opened CowRefinement

  type Index = map<Slot, Entry>
  type Memory = map<nat, Bytes>

  // A page without an entry reads as zeros.
  function SeenByte(index: Index, mem: Memory, slot: Slot, i: nat): byte
    requires i < PAGE_SIZE
  {
    if slot in index && index[slot].page in mem then mem[index[slot].page][i] else 0
  }

  function UserByte(s: State, slot: Slot, i: nat): byte
    requires i < PAGE_SIZE
  {
    SeenByte(s.index, s.mem, slot, i)
  }

  predicate Together(index: Index, a: Slot, b: Slot) {
    a in index && b in index && InGroup(index, a, b)
  }

  // Nobody can tell the two apart: not by a load, and not by who sees whose stores.
  ghost predicate SameView(index: Index, mem: Memory, index': Index, mem': Memory) {
    && index.Keys <= index'.Keys
    && (forall o, i | 0 <= i < PAGE_SIZE :: SeenByte(index', mem', o, i) == SeenByte(index, mem, o, i))
    && (forall a, b :: Together(index', a, b) <==> Together(index, a, b) || (a == b && a in index'))
  }

  lemma MoveView(index: Index, mem: Memory, group: set<Slot>, slot: Slot, q: nat)
    requires slot in index && forall o | o in index :: index[o].page != q && index[o].page in mem
    requires forall o | o in index :: o in group <==> InGroup(index, o, slot)
    ensures SameView(index, mem, MoveTo(index, group, q), mem[q := mem[index[slot].page]])
  {
    var moved := MoveTo(index, group, q);
    forall a, b ensures Together(moved, a, b) <==> Together(index, a, b) || (a == b && a in moved) {}
  }

  lemma TakeOverView(index: Index, mem: Memory, slot: Slot)
    requires slot in index && forall o | o in index && o != slot :: index[o].page != index[slot].page
    ensures SameView(index, mem, index[slot := Entry(index[slot].page, SHARED)], mem)
  {}

  lemma BindView(index: Index, mem: Memory, slot: Slot, q: nat)
    requires slot !in index && forall o | o in index :: index[o].page != q
    ensures SameView(index, mem, index[slot := Entry(q, SHARED)], mem[q := Zeros()])
  {}

  lemma UnshareView(s: State, slot: Slot)
    requires Inv(s) && slot in s.index && UnshareStep(s, slot, true).Done?
    ensures var s' := UnshareStep(s, slot, true).st; SameView(s.index, s.mem, s'.index, s'.mem)
  {
    hide RestoreWrite, MoveTo, UnshareCopy, Counted, Distinct, Mapped, ReadOnly, SeenByte;
    if s.pages[s.index[slot].page].snaps == 0 {
    } else if SoleHolder(s, slot) {
      OnlyOwner(s, slot);
      forall o | o in s.index && o != slot ensures s.index[o].page != s.index[slot].page {
        assert o !in Owners(s.index, s.index[slot].page);
      }
      TakeOverView(s.index, s.mem, slot);
    } else {
      forall o | o in s.index ensures o in Group(s, slot) <==> InGroup(s.index, o, slot) {
        assert o in Owners(s.index, s.index[slot].page) <==> s.index[o].page == s.index[slot].page;
      }
      MoveView(s.index, s.mem, Group(s, slot), slot, s.pool[0]);
      CopyFields(s, slot);
    }
  }

  lemma CopyFields(s: State, slot: Slot)
    requires Copies(s, slot) && UnshareCopy(s, slot).Done?
    ensures var s' := UnshareCopy(s, slot).st;
      s'.index == MoveTo(s.index, Group(s, slot), s.pool[0]) && s'.mem == s.mem[s.pool[0] := s.mem[s.index[slot].page]]
  {}

  lemma FreshFields(s: State, slot: Slot)
    requires RefInv(s) && slot !in s.index && AssignFreshStep(s, slot).Done?
    ensures var s' := AssignFreshStep(s, slot).st; var q := s.pool[0];
      && s'.index == s.index[slot := Entry(q, SHARED)] && s'.mem == s.mem[q := Zeros()]
      && q in s'.pages && s'.pages[q].snaps == 0
      && s'.current == s.current && s'.covered == s.covered
  {
    TakeKeeps(s);
  }

  // A page of its own to write to
  function ReadyStep(s: State, slot: Slot): (r: Outcome)
    requires RefInv(s)
    ensures r.Done? ==> RefInv(r.st)
  {
    if slot in s.index then UnshareStep(s, slot, true) else AssignFreshStep(s, slot)
  }

  lemma ReadyView(s: State, slot: Slot)
    requires Inv(s) && ReadyStep(s, slot).Done?
    ensures var s' := ReadyStep(s, slot).st;
      && SameView(s.index, s.mem, s'.index, s'.mem) && slot in s'.index
      && s'.pages[s'.index[slot].page].snaps == 0
  {
    if slot in s.index {
      UnshareView(s, slot);
      UnshareLeavesNone(s, slot);
    } else {
      FreshFields(s, slot);
      BindView(s.index, s.mem, slot, s.pool[0]);
    }
  }

  lemma ReadyInv(s: State, slot: Slot)
    requires Inv(s) && slot.space == s.current
    ensures !ReadyStep(s, slot).Panic?
    ensures ReadyStep(s, slot).Done? ==> Inv(ReadyStep(s, slot).st)
  {
    if slot in s.index {
      UnshareStepSnaps(s, slot, true);
      if UnshareStep(s, slot, true).Done? { UnshareStepReadOnly(s, slot, true); }
    } else if s.pool != [] {
      FreshReadOnly(s, slot);
      TakeKeeps(s);
      AttachManagedSnaps(TakeFrame(s), slot, s.pool[0], SHARED);
    }
  }

  // Making one page ready leaves another entry's page as it was.
  lemma ReadyOther(s: State, slot: Slot, o: Slot)
    requires RefInv(s) && ReadyStep(s, slot).Done? && o != slot
    requires o in s.index && slot in s.index ==> s.index[o].page != s.index[slot].page
    ensures SoleHolder(ReadyStep(s, slot).st, o) ==> SoleHolder(s, o)
  {
    hide RestoreWrite, AllShared, Counted, Distinct, Mapped;
    if slot in s.index {
      if s.pages[s.index[slot].page].snaps > 0 && !SoleHolder(s, slot) {
        CopyOther(s, slot, o);
      }
    } else {
      FreshOther(s, slot, o);
    }
  }

  lemma CopyOther(s: State, slot: Slot, o: Slot)
    requires Linked(s) && Frames(s) && Copies(s, slot) && UnshareCopy(s, slot).Done?
    requires o in s.index ==> s.index[o].page != s.index[slot].page
    ensures var t := UnshareCopy(s, slot).st;
      && (o in t.index <==> o in s.index)
      && (o in s.index ==> t.index[o] == s.index[o] && s.index[o].page in t.pages)
      && (o in s.index ==> t.pages[s.index[o].page] == s.pages[s.index[o].page])
  {
    hide RestoreWrite, AllShared, Rest, Distinct;
  }

  lemma FreshOther(s: State, slot: Slot, o: Slot)
    requires RefInv(s) && slot !in s.index && o != slot && AssignFreshStep(s, slot).Done?
    ensures var t := AssignFreshStep(s, slot).st;
      && (o in t.index <==> o in s.index)
      && (o in s.index ==> t.index[o] == s.index[o] && s.index[o].page in t.pages)
      && (o in s.index ==> t.pages[s.index[o].page] == s.pages[s.index[o].page])
  {
    TakeKeeps(s);
  }

  // A write to a page without snapshots is seen by exactly the PF_SHARED group of the
  // slot written to.
  lemma WriteView(s: State, slot: Slot, offset: nat, data: seq<byte>)
    requires Inv(s) && slot in s.index && s.pages[s.index[slot].page].snaps == 0
    requires offset + |data| <= PAGE_SIZE
    ensures var s' := WriteStep(s, s.index[slot].page, offset, data);
      && Inv(s') && s'.index == s.index
      && (forall o, i | 0 <= i < PAGE_SIZE :: UserByte(s', o, i) ==
            if Together(s.index, o, slot) && offset <= i < offset + |data| then data[i - offset] else UserByte(s, o, i))
  {
    Unsnapped(s, slot);
    WriteReadOnly(s, s.index[slot].page, offset, data);
    forall o | o in s.index ensures Together(s.index, o, slot) <==> s.index[o].page == s.index[slot].page {}
  }

  // From s to s', `data` was written at `offset` of the page at `slot`.
  ghost predicate Wrote(s: State, s': State, slot: Slot, offset: nat, data: seq<byte>)
    requires offset + |data| <= PAGE_SIZE
  {
    && slot in s'.index && s.index.Keys <= s'.index.Keys
    && (forall o, i | 0 <= i < PAGE_SIZE :: UserByte(s', o, i) ==
          if Together(s'.index, o, slot) && offset <= i < offset + |data| then data[i - offset] else UserByte(s, o, i))
    && (forall a, b :: Together(s'.index, a, b) <==> Together(s.index, a, b) || (a == b && a in s'.index))
  }

  lemma ViewThenWrite(s: State, s1: State, slot: Slot, offset: nat, data: seq<byte>)
    requires SameView(s.index, s.mem, s1.index, s1.mem)
    requires Inv(s1) && slot in s1.index && s1.pages[s1.index[slot].page].snaps == 0 && offset + |data| <= PAGE_SIZE
    ensures Wrote(s, WriteStep(s1, s1.index[slot].page, offset, data), slot, offset, data)
    ensures Inv(WriteStep(s1, s1.index[slot].page, offset, data))
  {
    WriteView(s1, slot, offset, data);
  }

  function Base(address: nat): (base: nat)
    ensures base <= address < base + PAGE_SIZE
  {
    address - address % PAGE_SIZE
  }

  // How many of the bytes at [address, address + len) lie on the page of `address`
  function OnFirst(address: nat, len: nat): (n: nat)
    ensures n <= len && n <= Base(address) + PAGE_SIZE - address
  {
    if address + len > Base(address) + PAGE_SIZE then Base(address) + PAGE_SIZE - address else len
  }

  // Exactly the bytes at [address, address + |data|) of `space` changed, for those who
  // share the page there, and who shares with whom did not.
  ghost predicate WroteRange(s: State, s': State, space: nat, address: nat, data: seq<byte>)
    requires |data| <= PAGE_SIZE
  {
    var low, high := Slot(space, Base(address)), Slot(space, Base(address) + PAGE_SIZE);
    var n := OnFirst(address, |data|);
    && low in s'.index && (n < |data| ==> high in s'.index)
    && (forall o, i | 0 <= i < PAGE_SIZE :: UserByte(s', o, i) ==
          if Together(s'.index, o, high) && 0 <= i < |data| - n then data[n + i]
          else if Together(s'.index, o, low) && 0 <= i - (address - Base(address)) < n then
            data[i - (address - Base(address))]
          else UserByte(s, o, i))
    && (forall a, b :: Together(s'.index, a, b) <==> Together(s.index, a, b) || (a == b && a in s'.index))
  }

  lemma WroteOne(s: State, s': State, space: nat, address: nat, data: seq<byte>)
    requires |data| <= PAGE_SIZE && OnFirst(address, |data|) == |data|
    requires Wrote(s, s', Slot(space, Base(address)), address - Base(address), data)
    ensures WroteRange(s, s', space, address, data)
  {}

  lemma WroteTwo(s: State, s1: State, s2: State, space: nat, address: nat, data: seq<byte>)
    requires |data| <= PAGE_SIZE && OnFirst(address, |data|) < |data|
    requires Wrote(s, s1, Slot(space, Base(address)), address - Base(address), data[..OnFirst(address, |data|)])
    requires Wrote(s1, s2, Slot(space, Base(address) + PAGE_SIZE), 0, data[OnFirst(address, |data|)..])
    ensures WroteRange(s, s2, space, address, data)
  {
    var low := Slot(space, Base(address));
    forall o ensures Together(s2.index, o, low) <==> Together(s1.index, o, low) {}
  }

  // The byte at an address of a space
  function ByteAt(s: State, space: nat, address: nat): byte {
    UserByte(s, Slot(space, Base(address)), address - Base(address))
  }

  lemma BaseOf(address: nat, k: nat)
    requires k <= PAGE_SIZE
    ensures Base(address + k) == if address + k < Base(address) + PAGE_SIZE then Base(address)
      else Base(address) + PAGE_SIZE
  {
    var q, r := address / 4096, address % 4096;
    assert address == 4096 * q + r && address % PAGE_SIZE == r;
    assert (address + k) % PAGE_SIZE == (address + k) % 4096;
    assert (address + k) % 4096 == if r + k < 4096 then r + k else r + k - 4096;
  }

  // What copy_to_user_simple wrote, copy_from_user_simple reads back, even when the
  // range runs over two addresses of one page.
  lemma ReadBack(s: State, s': State, space: nat, address: nat, data: seq<byte>, k: nat)
    requires |data| <= PAGE_SIZE && WroteRange(s, s', space, address, data) && k < |data|
    ensures ByteAt(s', space, address + k) == data[k]
  {
    BaseOf(address, k);
    var low, high := Slot(space, Base(address)), Slot(space, Base(address) + PAGE_SIZE);
    assert Together(s'.index, low, low);
    if k >= OnFirst(address, |data|) {
      assert Together(s'.index, high, high);
    }
  }

  // No other snapshot sees anything, wherever it is.
  lemma OthersUnmoved(s: State, s': State, space: nat, address: nat, data: seq<byte>, o: Slot, i: nat)
    requires |data| <= PAGE_SIZE && WroteRange(s, s', space, address, data) && i < PAGE_SIZE
    requires o != Slot(space, Base(address)) && o != Slot(space, Base(address) + PAGE_SIZE)
    requires o in s'.index && s'.index[o].flags.snapshot && !s'.index[o].flags.shared
    ensures UserByte(s', o, i) == UserByte(s, o, i)
  {}
}
