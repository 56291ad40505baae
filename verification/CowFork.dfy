// fork and sendpage, sys/mm/syscall.c: whole ranges of pages shared as snapshots.
module CowFork {
  import opened CowState
  import opened CowInvariants
  import opened CowRuns
  import opened CowRefinement
  import opened CowUser
  import opened CowKernel
  import opened CowAsWritten
  import opened CowCover
  import VmaList

  // Each slot of `sent` got the page of the slot it is mapped to, as a snapshot, and that
  // is all that happened to anybody's pages and their contents.
  ghost predicate Sent(s: State, s': State, sent: map<Slot, Slot>) {
    && s'.index.Keys == s.index.Keys + sent.Keys && s'.mem == s.mem && s'.pool == s.pool
    && s'.covered == s.covered && s'.current == s.current && s'.device == s.device
    && (forall o | o in s.index && o !in sent :: s'.index[o] == s.index[o])
    && (forall o | o in sent ::
      o !in s.index && sent[o] in s.index && s'.index[o] == Entry(s.index[sent[o]].page, SNAPSHOT))
  }

  // What is sent reads as the original, and nobody else sees a change.
  lemma SentReads(s: State, s': State, sent: map<Slot, Slot>, o: Slot, i: nat)
    requires Sent(s, s', sent) && i < PAGE_SIZE
    ensures UserByte(s', o, i) == if o in sent then UserByte(s, sent[o], i) else UserByte(s, o, i)
  {}

  // Nobody shares stores with a slot that was sent, so no store of either side is seen by
  // the other.
  lemma SentAlone(s: State, s': State, sent: map<Slot, Slot>, a: Slot, b: Slot)
    requires Sent(s, s', sent)
    ensures Together(s'.index, a, b) <==> Together(s.index, a, b) || (a == b && a in sent)
  {}

  lemma SendFields(s: State, to: Slot, from: Slot)
    requires Inv(s) && Legal(s, AssignSnapshot(to, from)) && to !in s.index
    ensures var p := s.index[from].page;
      Survives(s, to, p) && Assign(s, to, p, SNAPSHOT).Done? &&
      Inv(Assign(s, to, p, SNAPSHOT).st) && Sent(s, Assign(s, to, p, SNAPSHOT).st, map[to := from])
  {
    hide Linked, Counted, Frames, Mapped, Snaps, ReadOnly, Attach, Sent;
    DeviceSlot(s, from);
    AssignSnaps(s, to, s.index[from].page, SNAPSHOT);
    DoInv(s, AssignSnapshot(to, from));
    AttachFields(s, to, from);
  }

  lemma DeviceSlot(s: State, o: Slot)
    requires RefInv(s) && o in s.index
    ensures s.index[o].flags.hardware <==> s.index[o].page in s.device
  {}

  lemma AttachFields(s: State, to: Slot, from: Slot)
    requires from in s.index && s.index[from].page in s.pages && to !in s.index
    requires Attach(s, to, s.index[from].page, SNAPSHOT).Done?
    ensures Sent(s, Attach(s, to, s.index[from].page, SNAPSHOT).st, map[to := from])
  {
    hide RemoveWrite, AnyDevice;
  }

  // A page that was itself sent before is sent on.
  lemma SentMore(s: State, s1: State, s2: State, sent: map<Slot, Slot>, to: Slot, from: Slot)
    requires Sent(s, s1, sent) && Sent(s1, s2, map[to := from])
    ensures Sent(s, s2, sent[to := if from in sent then sent[from] else from])
  {
    var one, all := map[to := from], sent[to := if from in sent then sent[from] else from];
    assert one.Keys == {to} && all.Keys == sent.Keys + {to};
    forall o | o in all
      ensures o !in s.index && all[o] in s.index && s2.index[o] == Entry(s.index[all[o]].page, SNAPSHOT)
    {
      if o == to {
        assert to in one && one[to] == from;
      } else {
        assert o in s1.index && o !in one;
      }
    }
    forall o | o in s.index && o !in all ensures s2.index[o] == s.index[o] {
      assert o in s1.index && o !in one;
    }
  }

  // address_space_assign_page with PF_SNAPSHOT, on a page that is not device memory
  method Send(k: Kernel, to: Slot, from: Slot) returns (r: Result)
    requires Inv(k.St()) && Legal(k.St(), AssignSnapshot(to, from)) && to !in k.index
    modifies k`pages, k`index, k`ptes, k`pool
    ensures r == Ok && Inv(k.St()) && Sent(old(k.St()), k.St(), map[to := from])
  {
    hide RefInvWith, Snaps, ReadOnly, Sent, Assign;
    SendFields(k.St(), to, from);
    r := k.AssignPage(to, k.index[from].page, SNAPSHOT);
  }

  // The pages of a space that a fork sends
  function Forked(index: map<Slot, Entry>, space: nat): set<nat> {
    set o | o in index && o.space == space && !index[o].flags.hardware :: o.vaddr
  }

  function Children(addresses: set<nat>, parent: nat, child: nat): map<Slot, Slot> {
    map o: Slot | o in (set a | a in addresses :: Slot(child, a)) :: Slot(parent, o.vaddr)
  }

  // as_snapshot, into a new space whose VMAs are already copied. Every page of the current
  // space but device memory is sent, whatever the order in which the index lists them.
  method AsSnapshot(k: Kernel, child: nat)
    requires Inv(k.St()) && child != k.current
    requires forall o | o in k.index :: o.space != child
    requires forall a | a in Forked(k.index, k.current) :: Slot(child, a) in k.covered
    modifies k`pages, k`index, k`ptes, k`pool
    ensures Inv(k.St())
    ensures Sent(old(k.St()), k.St(), Children(Forked(old(k.index), k.current), k.current, child))
  {
    hide Inv, Sent, Children, Legal, Forked;
    ghost var s := k.St();
    ghost var done := {};
    var todo := Forked(k.index, k.current);
    NoChildren(s, k.current, child);
    while todo != {}
      invariant done + todo == Forked(s.index, s.current) && done !! todo
      invariant Inv(k.St()) && Sent(s, k.St(), Children(done, s.current, child))
      decreases |todo|
    {
      var a :| a in todo;
      todo := todo - {a};
      ghost var s1 := k.St();
      var from, to := Slot(k.current, a), Slot(child, a);
      SentSame(s, s1, Children(done, s.current, child));
      ForkedOne(s, s1, done, child, a);
      var _ := Send(k, to, from);
      SentMore(s, s1, k.St(), Children(done, s.current, child), to, from);
      OneChild(done, s.current, child, a);
      done := done + {a};
    }
    AllForked(s.index, s.current, done);
  }

  lemma AllForked(index: map<Slot, Entry>, space: nat, done: set<nat>)
    requires done + {} == Forked(index, space)
    ensures done == Forked(index, space)
  {}

  lemma SentSame(s: State, s': State, sent: map<Slot, Slot>)
    requires Sent(s, s', sent)
    ensures s'.covered == s.covered && s'.current == s.current
  {}

  lemma NoChildren(s: State, parent: nat, child: nat)
    ensures Sent(s, s, Children({}, parent, child))
  {}

  lemma OneChild(addresses: set<nat>, parent: nat, child: nat, a: nat)
    ensures Children(addresses + {a}, parent, child) ==
      Children(addresses, parent, child)[Slot(child, a) := Slot(parent, a)]
  {}

  lemma ForkedOne(s: State, s1: State, done: set<nat>, child: nat, a: nat)
    requires Sent(s, s1, Children(done, s.current, child)) && child != s.current
    requires Inv(s1) && a in Forked(s.index, s.current) && a !in done && Slot(child, a) in s.covered
    requires forall o | o in s.index :: o.space != child
    ensures Legal(s1, AssignSnapshot(Slot(child, a), Slot(s.current, a))) && Slot(child, a) !in s1.index
    ensures Slot(s.current, a) !in Children(done, s.current, child)
  {}

  // ----- sendpage -----

  // The destinations of the first n pages, and whose pages they get. Only the first page
  // of the source need exist, so the range may run into its own destination.
  function Copies(index: map<Slot, Entry>, parent: nat, vaddr: nat, space: nat, dst: nat, n: nat): map<Slot, Slot> {
    if n == 0 then map[]
    else
      var sent := Copies(index, parent, vaddr, space, dst, n - 1);
      var from, to := Slot(parent, vaddr + PAGE_SIZE * (n - 1)), Slot(space, dst + PAGE_SIZE * (n - 1));
      if from in sent then sent[to := sent[from]] else if from in index then sent[to := from] else sent
  }

  // One of the first n pages is device memory.
  predicate SendsDevice(index: map<Slot, Entry>, parent: nat, vaddr: nat, n: nat) {
    exists i | 0 <= i < n :: DeviceAt(index, Slot(parent, vaddr + PAGE_SIZE * i))
  }

  predicate DeviceAt(index: map<Slot, Entry>, o: Slot) {
    o in index && index[o].flags.hardware
  }

  // The destination is covered by the new VMA and holds nothing yet.
  predicate Vacant(s: State, space: nat, dst: nat, n: nat) {
    forall i | 0 <= i < n :: VacantAt(s, Slot(space, dst + PAGE_SIZE * i))
  }

  predicate VacantAt(s: State, o: Slot) {
    o in s.covered && o !in s.index
  }

  // The new VMA
  function WithVma(s: State, space: nat, dst: nat, n: nat): State {
    s.(covered := s.covered + Range(space, dst, n))
  }

  lemma VmaKeeps(s: State, space: nat, dst: nat, n: nat)
    requires Inv(s) && s.index.Keys <= s.covered && Room(s.covered, space, dst, n)
    ensures Inv(WithVma(s, space, dst, n)) && Vacant(WithVma(s, space, dst, n), space, dst, n)
  {
    forall i | 0 <= i < n ensures VacantAt(WithVma(s, space, dst, n), Slot(space, dst + PAGE_SIZE * i)) {
      assert Slot(space, dst + PAGE_SIZE * i) in Range(space, dst, n);
    }
  }

  // The new VMA has a place: the address asked for lies in the bounds and is free, or, if
  // that is 0, there is a gap somewhere.
  ghost predicate Placeable(vmas: seq<VmaList.Vma>, low: nat, high: nat, dst: nat, len: nat) {
    if dst == 0 then exists a | low <= a :: VmaList.Fits(vmas, a, len, high)
    else dst % PAGE_SIZE == 0 && low <= dst <= high && VmaList.Gap(vmas, dst, len)
  }

  // What sendpage answers with an error: an unaligned range, a source whose first page is
  // in no VMA, or no place for the new VMA
  ghost predicate Declines(own: seq<VmaList.Vma>, vmas: seq<VmaList.Vma>, low: nat, high: nat, vaddr: nat, dst: nat,
      len: nat)
  {
    || vaddr % PAGE_SIZE != 0 || len % PAGE_SIZE != 0
    || (vaddr != 0 && !VmaList.Covers(own, vaddr))
    || !Placeable(vmas, low, high, dst, len)
  }

  // The memory steps and the two VMA lists know the same covered pages.
  ghost predicate Known(k: Kernel, own: VmaList.AddressSpace, dest: VmaList.AddressSpace, space: nat)
    reads k, own, dest
  {
    && k.index.Keys <= k.covered && (space == k.current <==> own == dest)
    && own.Valid() && dest.Valid() && dest.low % PAGE_SIZE == 0
    && Tied(k.covered, k.current, own.vmas) && Tied(k.covered, space, dest.vmas)
  }

  // insert_vma_to_vaddr, or insert_vma_to_any if no address is asked for
  method PlaceVma(dest: VmaList.AddressSpace, dst: nat, len: nat) returns (ok: bool, at: nat)
    requires dest.Valid()
    modifies dest`vmas
    ensures dest.Valid() && (ok <==> Placeable(old(dest.vmas), dest.low, dest.high, dst, len))
    ensures !ok ==> dest.vmas == old(dest.vmas)
    ensures ok ==> (dst != 0 ==> at == dst && dst % PAGE_SIZE == 0) && VmaList.Gap(old(dest.vmas), at, len)
    ensures ok && dst == 0 ==> dest.low <= at && forall a | dest.low <= a < at :: !VmaList.Gap(old(dest.vmas), a, len)
    ensures ok && dst == 0 ==> at == dest.low || exists i | 0 <= i < |old(dest.vmas)| ::
      at == VmaList.End(old(dest.vmas)[i])
    ensures ok ==> exists i | 0 <= i <= |old(dest.vmas)| ::
      dest.vmas == old(dest.vmas)[..i] + [VmaList.Vma(at, len, [])] + old(dest.vmas)[i..]
  {
    hide VmaList.Sorted, VmaList.AllHold, VmaList.AllFrom, VmaList.Indexed, VmaList.Gap, VmaList.Fits;
    at := dst;
    if dst == 0 {
      ok, at := dest.InsertAny(len);
      if ok { FoundGap(old(dest.vmas), at, len, dest.high); }
    } else if dst % PAGE_SIZE != 0 || dst < dest.low || dst > dest.high {
      ok := false;
    } else {
      var ret := dest.AddVma(VmaList.Vma(dst, len, []));
      ok := ret == 0;
    }
  }

  // sendpage: every populated page of the range is sent. It never looks at PF_HARDWARE, so
  // it stops the kernel when one is device memory.
  method SendPage(k: Kernel, own: VmaList.AddressSpace, dest: VmaList.AddressSpace, space: nat, vaddr: nat, dst: nat,
      len: nat)
    returns (r: Result, at: nat)
    requires Inv(k.St()) && Known(k, own, dest, space)
    modifies k`pages, k`index, k`ptes, k`pool, k`covered, dest`vmas
    ensures r == Refused <==> Declines(old(own.vmas), old(dest.vmas), dest.low, dest.high, vaddr, dst, len)
    ensures r == Refused ==> k.St() == old(k.St()) && dest.vmas == old(dest.vmas)
    ensures r == Stopped(Misuse) <==>
      r != Refused && vaddr != 0 && SendsDevice(old(k.index), k.current, vaddr, len / PAGE_SIZE)
    ensures r == Ok || r == Refused || r == Stopped(Misuse)
    ensures r == Ok ==> Inv(k.St()) && Known(k, own, dest, space)
    ensures r != Refused ==> (dst != 0 ==> at == dst) && VmaList.Gap(old(dest.vmas), at, len)
    ensures r != Refused && dst == 0 ==>
      dest.low <= at && forall a | dest.low <= a < at :: !VmaList.Gap(old(dest.vmas), a, len)
    ensures r == Ok ==> Sent(WithVma(old(k.St()), space, at, len / PAGE_SIZE), k.St(),
      Copies(old(k.index), k.current, vaddr, space, at, if vaddr == 0 then 0 else len / PAGE_SIZE))
  {
    hide Inv, Sent, SendsDevice, DeviceAt, Copies, Vacant, VacantAt, Range, Tied, VmaList.Sorted, VmaList.AllHold,
         VmaList.AllFrom, VmaList.Indexed, VmaList.Gap, VmaList.Fits, VmaList.Covers, Room, Placeable;
    at := dst;
    if vaddr % PAGE_SIZE != 0 || len % PAGE_SIZE != 0 {
      return Refused, at;
    }
    if vaddr != 0 {
      FirstPage(k.covered, k.current, own.vmas, vaddr);
      var missing := own.ValidateRange(vaddr, PAGE_SIZE);
      if missing != 0 {
        return Refused, at;
      }
    }
    ghost var was := dest.vmas;
    var ok;
    ok, at := PlaceVma(dest, dst, len);
    if !ok {
      return Refused, at;
    }
    if dst == 0 { FoundSized(k.covered, space, was, dest.low, at); }
    ghost var n := len / PAGE_SIZE;
    assert len == PAGE_SIZE * n;
    GapRoom(k.covered, space, was, at, n);
    VmaKeeps(k.St(), space, at, n);
    ghost var i :| 0 <= i <= |was| && dest.vmas == was[..i] + [VmaList.Vma(at, len, [])] + was[i..];
    InsertTied(k.covered, space, was, i, at, n);
    if space != k.current { OtherTied(k.covered, space, k.current, own.vmas, at, n); }
    ghost var covered := k.covered + Range(space, at, n);
    k.covered := k.covered + Range(space, at, len / PAGE_SIZE);
    r := SendPages(k, space, vaddr, at, len);
    assert k.covered == covered;
    if r == Ok {
      ghost var m := if vaddr == 0 then 0 else n;
      CopiesRange(old(k.index), k.current, vaddr, space, at, m, n);
      SentWithin(WithVma(old(k.St()), space, at, n), k.St(), Copies(old(k.index), k.current, vaddr, space, at, m));
    }
  }

  lemma FirstPage(covered: set<Slot>, space: nat, vmas: seq<VmaList.Vma>, vaddr: nat)
    requires Tied(covered, space, vmas) && vaddr % PAGE_SIZE == 0
    ensures VmaList.Covers(vmas, vaddr) <==> forall a | vaddr <= a < vaddr + PAGE_SIZE :: VmaList.Covers(vmas, a)
  {
    hide Tied, VmaList.Covers;
    PageBase(vaddr, 0);
    CopyValidates(covered, space, vmas, vaddr, PAGE_SIZE);
    FaultFinds(covered, space, vmas, vaddr);
  }

  lemma FoundGap(vmas: seq<VmaList.Vma>, at: nat, len: nat, high: nat)
    requires VmaList.Fits(vmas, at, len, high)
    ensures VmaList.Gap(vmas, at, len)
  {}

  lemma FoundSized(covered: set<Slot>, space: nat, vmas: seq<VmaList.Vma>, low: nat, at: nat)
    requires Tied(covered, space, vmas) && low % PAGE_SIZE == 0
    requires at == low || exists i | 0 <= i < |vmas| :: at == VmaList.End(vmas[i])
    ensures at % PAGE_SIZE == 0
  {
    if at != low {
      var i :| 0 <= i < |vmas| && at == VmaList.End(vmas[i]);
      EndSized(vmas, i);
    }
  }

  lemma {:induction false} CopiesRange(index: map<Slot, Entry>, parent: nat, vaddr: nat, space: nat, dst: nat, n: nat,
      all: nat)
    requires n <= all
    ensures forall o | o in Copies(index, parent, vaddr, space, dst, n) :: o in Range(space, dst, all)
  {
    if n > 0 {
      CopiesRange(index, parent, vaddr, space, dst, n - 1, all);
    }
  }

  // What is sent lands in the new VMA.
  lemma SentWithin(s: State, s': State, sent: map<Slot, Slot>)
    requires Sent(s, s', sent) && s.index.Keys <= s.covered && forall o | o in sent :: o in s.covered
    ensures s'.index.Keys <= s'.covered
  {}

  lemma OtherTied(covered: set<Slot>, space: nat, other: nat, vmas: seq<VmaList.Vma>, dst: nat, n: nat)
    requires Tied(covered, other, vmas) && other != space
    ensures Tied(covered + Range(space, dst, n), other, vmas)
  {}

  // Its loop, once the VMA at dst is there
  method SendPages(k: Kernel, space: nat, vaddr: nat, dst: nat, len: nat) returns (r: Result)
    requires Inv(k.St()) && Vacant(k.St(), space, dst, len / PAGE_SIZE) && len % PAGE_SIZE == 0
    modifies k`pages, k`index, k`ptes, k`pool
    ensures r == Stopped(Misuse) <==> vaddr != 0 && SendsDevice(old(k.index), k.current, vaddr, len / PAGE_SIZE)
    ensures r == Ok || r == Stopped(Misuse)
    ensures r == Ok ==> Inv(k.St())
    ensures r == Ok ==> Sent(old(k.St()), k.St(),
      Copies(old(k.index), k.current, vaddr, space, dst, if vaddr == 0 then 0 else len / PAGE_SIZE))
  {
    hide Inv, Sent, VacantAt, Assign, SendsDevice;
    ghost var s := k.St();
    NoCopies(s, vaddr, space, dst);
    if vaddr != 0 {
      var i := 0;
      ghost var n := 0;
      while i < len
        invariant i == PAGE_SIZE * n && n <= len / PAGE_SIZE
        invariant Inv(k.St()) && Sent(s, k.St(), Copies(s.index, s.current, vaddr, space, dst, n))
        invariant !SendsDevice(s.index, s.current, vaddr, n)
      {
        var from, to := Slot(k.current, vaddr + i), Slot(space, dst + i);
        ghost var s1 := k.St();
        SentSame(s, s1, Copies(s.index, s.current, vaddr, space, dst, n));
        CopiesTo(s.index, s.current, vaddr, space, dst, n, n);
        assert VacantAt(s, to);
        VacantPage(s, s1, Copies(s.index, s.current, vaddr, space, dst, n), to, from);
        DeviceMore(s.index, s.current, vaddr, n);
        if from in k.index {
          if k.index[from].flags.hardware {
            DeviceStops(s1, to, from);
            DeviceInAll(s.index, s.current, vaddr, n + 1, len / PAGE_SIZE);
            r := k.AssignPage(to, k.index[from].page, SNAPSHOT);
            return;
          }
          var _ := Send(k, to, from);
          SentMore(s, s1, k.St(), Copies(s.index, s.current, vaddr, space, dst, n), to, from);
        }
        i := i + PAGE_SIZE;
        n := n + 1;
      }
    }
    return Ok;
  }

  // A call that stops the kernel: the one page it sends is device memory.
  lemma DeviceSent() returns (s: State, own: seq<VmaList.Vma>)
    ensures Inv(s) && s.index.Keys <= s.covered && Tied(s.covered, s.current, own) && Tied(s.covered, 2, [])
    ensures !Declines(own, [], 0, PAGE_SIZE, PAGE_SIZE, PAGE_SIZE, PAGE_SIZE)
    ensures SendsDevice(s.index, s.current, PAGE_SIZE, PAGE_SIZE / PAGE_SIZE)
  {
    hide Inv, Assign;
    var from, to;
    s, from, to := DeviceMapped();
    own := [VmaList.Vma(PAGE_SIZE, PAGE_SIZE, [])];
    assert PAGE_SIZE % PAGE_SIZE == 0 && PAGE_SIZE / PAGE_SIZE == 1;
    assert DeviceAt(s.index, Slot(s.current, PAGE_SIZE + PAGE_SIZE * 0));
    assert VmaList.Inside(own[0], PAGE_SIZE);
    OnePage(s.covered, own);
  }

  lemma OnePage(covered: set<Slot>, own: seq<VmaList.Vma>)
    requires covered == {Slot(1, PAGE_SIZE)} && own == [VmaList.Vma(PAGE_SIZE, PAGE_SIZE, [])]
    ensures Tied(covered, 1, own) && Tied(covered, 2, [])
  {
    forall a: nat | Base(a) == a ensures VmaList.Covers(own, a) <==> a == PAGE_SIZE {
      if a == PAGE_SIZE { assert VmaList.Inside(own[0], a); }
    }
  }

  lemma NoCopies(s: State, vaddr: nat, space: nat, dst: nat)
    ensures Sent(s, s, Copies(s.index, s.current, vaddr, space, dst, 0))
    ensures !SendsDevice(s.index, s.current, vaddr, 0)
  {}

  lemma DeviceInAll(index: map<Slot, Entry>, parent: nat, vaddr: nat, n: nat, all: nat)
    requires SendsDevice(index, parent, vaddr, n) && n <= all
    ensures SendsDevice(index, parent, vaddr, all)
  {
    var i :| 0 <= i < n && DeviceAt(index, Slot(parent, vaddr + PAGE_SIZE * i));
  }

  lemma DeviceMore(index: map<Slot, Entry>, parent: nat, vaddr: nat, n: nat)
    ensures SendsDevice(index, parent, vaddr, n + 1) <==>
      SendsDevice(index, parent, vaddr, n) || DeviceAt(index, Slot(parent, vaddr + PAGE_SIZE * n))
  {}

  lemma {:induction false} CopiesTo(index: map<Slot, Entry>, parent: nat, vaddr: nat, space: nat, dst: nat, n: nat,
      i: nat)
    requires n <= i
    ensures Slot(space, dst + PAGE_SIZE * i) !in Copies(index, parent, vaddr, space, dst, n)
  {
    if n > 0 {
      CopiesTo(index, parent, vaddr, space, dst, n - 1, i);
    }
  }

  // What is at the two addresses before page n is sent
  lemma VacantPage(s: State, s1: State, sent: map<Slot, Slot>, to: Slot, from: Slot)
    requires Sent(s, s1, sent) && VacantAt(s, to) && to !in sent && Inv(s1)
    ensures to !in s1.index && (from in s1.index <==> from in s.index || from in sent)
    ensures from in s1.index ==>
      && s1.index[from].page in s1.pages && (s1.index[from].flags.hardware <==> DeviceAt(s.index, from))
      && (!s1.index[from].flags.hardware ==> Legal(s1, AssignSnapshot(to, from)))
  {
    hide Counted, Frames, Mapped, Snaps, ReadOnly;
  }

  // When a space is sent into itself d pages up, the first d pages are repeated.
  function Origin(i: nat, d: int): nat {
    if d > 0 then i % d else i
  }

  // Page by page: what is sent is what was there, or what the first d pages repeat.
  lemma {:induction false} CopiesAre(s: State, vaddr: nat, space: nat, dst: nat, d: int, n: nat, i: nat)
    requires i < n && Vacant(s, space, dst, n)
    requires space == s.current ==> dst - vaddr == PAGE_SIZE * d
    requires space != s.current ==> d == 0
    ensures var sent := Copies(s.index, s.current, vaddr, space, dst, n);
      var to, from := Slot(space, dst + PAGE_SIZE * i), Slot(s.current, vaddr + PAGE_SIZE * Origin(i, d));
      (to in sent <==> from in s.index) && (to in sent ==> sent[to] == from)
    decreases n
  {
    var m := n - 1;
    var from := Slot(s.current, vaddr + PAGE_SIZE * m);
    assert Vacant(s, space, dst, m);
    if i < m {
      CopiesAre(s, vaddr, space, dst, d, m, i);
    } else {
      CopiesTo(s.index, s.current, vaddr, space, dst, m, m);
      if 0 < d <= m {
        // the source is the destination of page m - d
        assert from == Slot(space, dst + PAGE_SIZE * (m - d));
        CopiesAre(s, vaddr, space, dst, d, m, m - d);
        SameRest(m, d);
        assert VacantAt(s, Slot(space, dst + PAGE_SIZE * (m - d)));
      } else {
        NotYet(s, vaddr, space, dst, d, m);
      }
    }
  }

  lemma SameRest(m: nat, d: nat)
    requires 0 < d <= m
    ensures (m - d) % d == m % d
  {
    Division(m - d, d);
    Division(m, d);
    Distribute(d, (m - d) / d);
    OneRest(d, (m - d) / d + 1, (m - d) % d, m / d, m % d);
  }

  lemma Division(m: nat, d: nat)
    requires d > 0
    ensures m == d * (m / d) + m % d && 0 <= m % d < d
  {}

  lemma Distribute(d: nat, q: nat)
    ensures d * (q + 1) == d * q + d
  {}

  lemma {:induction false} OneRest(d: nat, q: nat, r: nat, q': nat, r': nat)
    requires d * q + r == d * q' + r' && r < d && r' < d
    ensures r == r'
    decreases q
  {
    if q > 0 && q' > 0 {
      Distribute(d, q - 1);
      Distribute(d, q' - 1);
      OneRest(d, q - 1, r, q' - 1, r');
    } else if q > 0 {
      Distribute(d, q - 1);
      AtLeast(d, q - 1);
    } else if q' > 0 {
      Distribute(d, q' - 1);
      AtLeast(d, q' - 1);
    }
  }

  lemma AtLeast(d: nat, q: nat)
    ensures d * q >= 0
  {}

  lemma {:induction false} NotYet(s: State, vaddr: nat, space: nat, dst: nat, d: int, m: nat)
    requires space == s.current ==> dst - vaddr == PAGE_SIZE * d
    requires space != s.current ==> d == 0
    requires d <= 0 || m < d
    ensures Slot(s.current, vaddr + PAGE_SIZE * m) !in Copies(s.index, s.current, vaddr, space, dst, m)
    ensures d > 0 ==> m % d == m
  {
    Keys(s.index, s.current, vaddr, space, dst, m);
    if d == 0 && space == s.current {
      CopiesTo(s.index, s.current, vaddr, space, dst, m, m);
    }
  }

  lemma {:induction false} Keys(index: map<Slot, Entry>, parent: nat, vaddr: nat, space: nat, dst: nat, n: nat)
    ensures forall o | o in Copies(index, parent, vaddr, space, dst, n) ::
      o.space == space && dst <= o.vaddr && o.vaddr < dst + PAGE_SIZE * n
  {
    if n > 0 {
      Keys(index, parent, vaddr, space, dst, n - 1);
    }
  }

  lemma DeviceStops(s: State, to: Slot, from: Slot)
    requires Inv(s) && from in s.index && s.index[from].flags.hardware && to !in s.index
    ensures RefInv(s) && Survives(s, to, s.index[from].page)
    ensures Assign(s, to, s.index[from].page, SNAPSHOT) == Panic(Misuse)
  {
    var p := s.index[from].page;
    DeviceUnsnapped(s, from);
    var index := s.index[to := Entry(p, SNAPSHOT)];
    assert from in s.pages[p].owners + {to} && index[from].flags.hardware;
  }
}
