// Physical pages, page entries and present page-table entries, as one value,
// and what each operation of the memory manager does to that value.
module CowState {
  const PAGE_SIZE: nat := 4096

  type byte = x: int | 0 <= x < 256
  type Bytes = s: seq<byte> | |s| == PAGE_SIZE witness seq(PAGE_SIZE, _ => 0)

  function Zeros(): Bytes {
    seq(PAGE_SIZE, _ => 0)
  }

  // Where a page entry lives: address space number and page-aligned address.
  // An address space indexes at most one entry per address, so the slot names it.
  datatype Slot = Slot(space: nat, vaddr: nat)

  datatype Flags = Flags(shared: bool, snapshot: bool, hardware: bool)

  const SHARED := Flags(true, false, false)
  const SNAPSHOT := Flags(false, true, false)
  const DEVICE := Flags(true, false, true)

  datatype Entry = Entry(page: nat, flags: Flags)

  // struct page; it is named by its physical address
  datatype Page = Page(refs: int, snaps: int, owners: set<Slot>)

  // A present user page-table entry
  datatype Pte = Pte(frame: nat, writable: bool)

  datatype State = State(
    pages: map<nat, Page>,     // phys_pages
    index: map<Slot, Entry>,   // the vaddr_map of every address space
    ptes: map<Slot, Pte>,      // the present user entries of every page table
    mem: map<nat, Bytes>,      // what each frame holds
    pool: seq<nat>,            // free frames, the next one first
    held: multiset<nat>,       // references kept outside any address space
    heldSnap: multiset<nat>,   // in-flight snapshot references of page lists
    covered: set<Slot>,        // pages inside some VMA
    device: set<nat>,          // frames that are device memory
    zero: nat,                 // the zero page
    current: nat)              // the current address space

  // Why the kernel stops: a reference or snapshot count contradicts the owner list
  // (Consistency), a page already in the page table is mapped again (AlreadyMapped),
  // or the caller asked for something it must not (Misuse).
  datatype Reason = Consistency | AlreadyMapped | Misuse

  datatype Outcome = Done(st: State) | Panic(why: Reason) | NoMemory

  function RestoreWrite(ptes: map<Slot, Pte>, owners: set<Slot>): map<Slot, Pte> {
    map o | o in ptes :: if o in owners then Pte(ptes[o].frame, true) else ptes[o]
  }

  function RemoveWrite(ptes: map<Slot, Pte>, owners: set<Slot>): map<Slot, Pte> {
    map o | o in ptes :: if o in owners then Pte(ptes[o].frame, false) else ptes[o]
  }

  predicate AllShared(index: map<Slot, Entry>, owners: set<Slot>) {
    forall o | o in owners :: o in index && index[o].flags.shared
  }

  predicate AnyDevice(index: map<Slot, Entry>, owners: set<Slot>) {
    exists o | o in owners :: o in index && index[o].flags.hardware
  }

  // The owners that have to follow `slot` when it leaves its page for a private copy
  function Group(s: State, slot: Slot): set<Slot>
    requires slot in s.index && s.index[slot].page in s.pages
  {
    if s.index[slot].flags.shared then
      {slot} + set o | o in s.pages[s.index[slot].page].owners && o in s.index && s.index[o].flags.shared
    else {slot}
  }

  function PageUnref(s: State, p: nat, hw: bool): State
    requires p in s.pages
  {
    var pg := s.pages[p];
    if pg.refs - 1 == 0 then
      s.(pages := s.pages - {p}, pool := if hw then s.pool else [p] + s.pool)
    else
      s.(pages := s.pages[p := pg.(refs := pg.refs - 1)])
  }

  // What unassign_page does before it drops the reference: the entry leaves the
  // index, the owner list and the page table, and gives up its snapshot count.
  function Detach(s: State, slot: Slot): Outcome
    requires slot in s.index && s.index[slot].page in s.pages
  {
    var e := s.index[slot];
    var pg := s.pages[e.page];
    var owners := pg.owners - {slot};
    var snaps := if e.flags.snapshot then pg.snaps - 1 else pg.snaps;
    var last := e.flags.snapshot && snaps == 0;
    if last && !AllShared(s.index, owners) then Panic(Consistency)
    else Done(s.(
      index := s.index - {slot},
      ptes := if last then RestoreWrite(s.ptes - {slot}, owners) else s.ptes - {slot},
      pages := s.pages[e.page := Page(pg.refs, snaps, owners)]))
  }

  function Unassign(s: State, slot: Slot): Outcome
    requires slot in s.index && s.index[slot].page in s.pages
  {
    match Detach(s, slot)
    case Done(s1) => Done(PageUnref(s1, s.index[slot].page, s.index[slot].flags.hardware))
    case other => other
  }

  function Attach(s: State, slot: Slot, p: nat, flags: Flags): Outcome
    requires p in s.pages
  {
    var pg := s.pages[p];
    var owners := pg.owners + {slot};
    var index := s.index[slot := Entry(p, flags)];
    var snaps := if flags.snapshot then pg.snaps + 1 else pg.snaps;
    var first := flags.snapshot && snaps == 1;
    if flags.snapshot && pg.refs + 1 == 0 then Panic(Consistency)
    else if first && AnyDevice(index, owners) then Panic(Misuse)
    else Done(s.(
      index := index,
      ptes := if first then RemoveWrite(s.ptes, owners) else s.ptes,
      pages := s.pages[p := Page(pg.refs + 1, snaps, owners)]))
  }

  predicate BadFlags(f: Flags) {
    (f.shared && f.snapshot) || (f.hardware && f.snapshot)
  }

  // The page a caller passes must outlive the entry it replaces.
  predicate Survives(s: State, slot: Slot, p: nat) {
    && p in s.pages
    && (slot in s.index && s.index[slot].page == p ==> s.pages[p].refs > 1)
  }

  function Assign(s: State, slot: Slot, p: nat, flags: Flags): Outcome
    requires Survives(s, slot, p)
    requires slot in s.index ==> s.index[slot].page in s.pages
  {
    if BadFlags(flags) then Panic(Misuse)
    else if slot in s.index then
      match Unassign(s, slot)
      case Done(s1) => Attach(s1, slot, p, flags)
      case other => other
    else Attach(s, slot, p, flags)
  }

  // The entry exists, its page is managed and the frame of that page is memory
  predicate Backed(s: State, slot: Slot) {
    slot in s.index && s.index[slot].page in s.pages && s.index[slot].page in s.mem
  }

  predicate SoleHolder(s: State, slot: Slot) {
    && slot in s.index && s.index[slot].page in s.pages
    && s.pages[s.index[slot].page].snaps == 1
    && s.pages[s.index[slot].page].refs == 1
  }

  // The only holder of a snapshot keeps the page as its own; `flagged` says whether
  // its entry is also marked PF_SHARED.
  function TakeOver(s: State, slot: Slot, flagged: bool): State
    requires slot in s.index && s.index[slot].page in s.pages
  {
    var p := s.index[slot].page;
    s.(pages := s.pages[p := Page(s.pages[p].refs, 0, s.pages[p].owners)],
       index := if flagged then s.index[slot := Entry(p, SHARED)] else s.index,
       ptes := s.ptes - {slot})
  }

  // `repaired` is the flag update that the sole-holder branch of unshare_page lacks
  // and its twin in address_space_map has; the code as written is `repaired == false`.
  function Unshare(s: State, slot: Slot, repaired: bool): Outcome
    requires Backed(s, slot)
  {
    var e := s.index[slot];
    var p := e.page;
    var pg := s.pages[p];
    if slot.space != s.current || e.flags.hardware then Panic(Misuse)
    else if pg.snaps == 0 then
      Done(s.(ptes := RestoreWrite(s.ptes, pg.owners)))
    else if SoleHolder(s, slot) then
      Done(TakeOver(s, slot, repaired))
    else if s.pool == [] then NoMemory
    else if pg.refs == 1 then Panic(Consistency)
    else UnshareCopy(s, slot)
  }

  function MoveTo(index: map<Slot, Entry>, group: set<Slot>, q: nat): map<Slot, Entry> {
    map o | o in index :: if o in group then Entry(q, if index[o].flags.shared then index[o].flags else SHARED)
                          else index[o]
  }

  // The owners that stay behind
  function Rest(s: State, slot: Slot): set<Slot>
    requires slot in s.index && s.index[slot].page in s.pages
  {
    s.pages[s.index[slot].page].owners - Group(s, slot)
  }

  function SnapsLeft(s: State, slot: Slot): int
    requires slot in s.index && s.index[slot].page in s.pages
  {
    s.pages[s.index[slot].page].snaps - (if s.index[slot].flags.shared then 0 else 1)
  }

  // The last snapshot leaves, so those who stay may write again
  predicate Restores(s: State, slot: Slot)
    requires slot in s.index && s.index[slot].page in s.pages
  {
    !s.index[slot].flags.shared && SnapsLeft(s, slot) == 0
  }

  function UnshareCopy(s: State, slot: Slot): Outcome
    requires Backed(s, slot) && s.pool != []
  {
    if Restores(s, slot) && !AllShared(s.index, Rest(s, slot)) then Panic(Consistency)
    else Done(PageUnref(MoveGroup(s, slot), s.index[slot].page, false))
  }

  // The group of `slot` moves to a copy of its page, made in the next free frame.
  // The old page keeps the reference of `slot` until it is dropped.
  function MoveGroup(s: State, slot: Slot): (r: State)
    requires Backed(s, slot) && s.pool != []
    ensures s.index[slot].page in r.pages
  {
    var p := s.index[slot].page;
    var q := s.pool[0];
    var group := Group(s, slot);
    var ptes := s.ptes - group;
    s.(pages := s.pages[q := Page(|group|, 0, group)]
                       [p := Page(s.pages[p].refs - |group| + 1, SnapsLeft(s, slot), Rest(s, slot))],
       index := MoveTo(s.index, group, q),
       ptes := if Restores(s, slot) then RestoreWrite(ptes, Rest(s, slot)) else ptes,
       mem := s.mem[q := s.mem[p]],
       pool := s.pool[1..])
  }

  // address_space_map: enter the page indexed at `slot` into the page table,
  // read-only while it has snapshots
  function MapEntry(s: State, slot: Slot): Outcome
    requires slot in s.index && s.index[slot].page in s.pages
  {
    if SoleHolder(s, slot) && !s.index[slot].flags.snapshot then Panic(Consistency)
    else if slot in s.ptes then Panic(AlreadyMapped)
    else if SoleHolder(s, slot) then Done(EnterPte(TakeOver(s, slot, true), slot))
    else Done(EnterPte(s, slot))
  }

  function EnterPte(s: State, slot: Slot): State
    requires slot in s.index && s.index[slot].page in s.pages
  {
    s.(ptes := s.ptes[slot := Pte(s.index[slot].page, !(s.pages[s.index[slot].page].snaps > 0))])
  }

  function UnshareIfSnapped(s: State, slot: Slot, repaired: bool): Outcome
    requires Backed(s, slot)
  {
    if s.pages[s.index[slot].page].snaps > 0 then Unshare(s, slot, repaired) else Done(s)
  }

  // manage_phys_page: one more reference, to a page that need not be managed yet
  function Manage(s: State, p: nat): State {
    s.(pages := s.pages[p := if p in s.pages then Page(s.pages[p].refs + 1, s.pages[p].snaps, s.pages[p].owners)
                             else Page(1, 0, {})])
  }

  // get_page, cleared
  function TakeFrame(s: State): State
    requires s.pool != []
  {
    s.(pool := s.pool[1..], mem := s.mem[s.pool[0] := Zeros()])
  }
}
