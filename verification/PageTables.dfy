// Four-level page tables: what the processor makes of them (Intel 64 and IA-32
// Architectures Software Developer's Manual, volume 3A, section 4.5), and the code of
// sys/mm/paging.c and sys/mm/page_table.c that edits them through their own slot 256.
module PageTables {
  datatype Word = Word(bits: bv64)

  // The 8-byte entry `slot` of the 4 KiB frame at physical address `frame`
  datatype Cell = Cell(frame: bv64, slot: bv64)

  // Physical memory; what is not in the map reads as zero
  type Memory = map<Cell, Word>

  datatype Option<T> = None | Some(value: T)

  const SELF: bv64 := 0x100

  predicate Present(e: bv64) {
    e & 1 != 0
  }

  predicate Large(e: bv64) {
    e & 0x80 != 0
  }

  // pte_get_base
  function GetBase(e: bv64): bv64 {
    e & 0xffffffffff000
  }

  // pte_set_base: 4 KiB, 2 MiB and 1 GiB pages are types 0, 1 and 2
  function SetBase(e: bv64, base: bv64, pageSize: nat): bv64 {
    match pageSize
    case 0 => SmallBase(e, base)
    case 1 => MiddleBase(e, base)
    case _ => GiantBase(e, base)
  }

  function SmallBase(e: bv64, base: bv64): bv64 {
    (e & 0xfff0000000000fff) | (base & 0xfffffffffffff000)
  }

  function MiddleBase(e: bv64, base: bv64): bv64 {
    ((e & 0xfff0000000000fff) | (base & 0xfffffffffffff000 & 0xffffffffffe00000)) | 0x80
  }

  function GiantBase(e: bv64, base: bv64): bv64 {
    ((e & 0xfff0000000000fff) | (base & 0xfffffffffffff000 & 0xffffffffc0000000)) | 0x80
  }

  // pte_set_flags
  function SetFlags(e: bv64, flags: bv64): bv64 {
    e | (flags & 0xfff)
  }

  predicate IsFrame(f: bv64) {
    GetBase(f) == f
  }

  // Bits 47-39, 38-30, 29-21 and 20-12 of an address select its entry at levels 0 to 3.
  function Slot(v: bv64, level: nat): bv64
    requires level < 4
  {
    match level
    case 0 => (v >> 39) & 0x1ff
    case 1 => (v >> 30) & 0x1ff
    case 2 => (v >> 21) & 0x1ff
    case 3 => (v >> 12) & 0x1ff
  }

  // Bits 11-3: which entry of a frame an aligned address names
  function InFrame(v: bv64): bv64 {
    (v >> 3) & 0x1ff
  }

  function Peek(m: Memory, frame: bv64, slot: bv64): bv64 {
    if Cell(frame, slot) in m then m[Cell(frame, slot)].bits else 0
  }

  // ----- the processor -----

  // The part of a 2 MiB or 1 GiB page at v
  function LargeFrame(e: bv64, v: bv64, level: nat): bv64 {
    if level == 1 then Part1G(e, v) else Part2M(e, v)
  }

  function Part2M(e: bv64, v: bv64): bv64 {
    (e & 0xfffffffe00000) | (v & 0x1ff000)
  }

  function Part1G(e: bv64, v: bv64): bv64 {
    (e & 0xfffffc0000000) | (v & 0x3ffff000)
  }

  // The frame that the walk reaches from a table of the given level
  function From(m: Memory, table: bv64, v: bv64, level: nat): Option<bv64>
    requires level < 4
    decreases 4 - level
  {
    var e := Peek(m, table, Slot(v, level));
    if !Present(e) then None
    else if level == 3 then Some(GetBase(e))
    else if Large(e) then (if level == 0 then None else Some(LargeFrame(e, v, level)))
    else From(m, GetBase(e), v, level + 1)
  }

  function Translate(m: Memory, root: bv64, v: bv64): Option<bv64> {
    From(m, root, v, 0)
  }

  const WRITE: bv64 := 2
  const USER: bv64 := 4

  predicate Lets(e: bv64, bit: bv64) {
    e & bit != 0
  }

  // Whether a walk from a table of the given level lets an access through: the entries of
  // all levels have to (section 4.6)
  predicate Permits(m: Memory, table: bv64, v: bv64, level: nat, bit: bv64)
    requires level < 4
    decreases 4 - level
  {
    var e := Peek(m, table, Slot(v, level));
    && Present(e) && Lets(e, bit)
    && (level == 3 || if Large(e) then level != 0 else Permits(m, GetBase(e), v, level + 1, bit))
  }

  datatype Rights = Rights(write: bool, user: bool)

  const NONE := Rights(false, false)

  // What may be done at v: writing, and access by user programs
  function RightsAt(m: Memory, root: bv64, v: bv64): Rights {
    Rights(Permits(m, root, v, 0, WRITE), Permits(m, root, v, 0, USER))
  }

  // The entry that the processor reads or writes at v
  function Access(m: Memory, root: bv64, v: bv64): Option<Cell> {
    match Translate(m, root, v)
    case None => None
    case Some(frame) => Some(Cell(frame, InFrame(v)))
  }

  // ----- the tables on the way to an address -----

  function TableAt(m: Memory, root: bv64, v: bv64, depth: nat): Option<bv64>
    requires depth < 4
  {
    if depth == 0 then Some(root)
    else
      match TableAt(m, root, v, depth - 1)
      case None => None
      case Some(t) => Next(Peek(m, t, Slot(v, depth - 1)))
  }

  function Next(e: bv64): Option<bv64> {
    if Present(e) && !Large(e) then Some(GetBase(e)) else None
  }

  predicate SamePrefix(v: bv64, w: bv64, depth: nat)
    requires depth <= 4
  {
    depth == 0 || (SamePrefix(v, w, depth - 1) && Slot(v, depth - 1) == Slot(w, depth - 1))
  }

  // Not in the window through which the tables appear as memory
  predicate Outside(v: bv64) {
    Slot(v, 0) != SELF
  }

  // Different prefixes lead to different tables.
  ghost predicate Tree(m: Memory, root: bv64) {
    forall v: bv64, w: bv64, d, e | Outside(v) && Outside(w) && 0 <= d < 4 && 0 <= e < 4 ::
      TableAt(m, root, v, d).Some? && TableAt(m, root, v, d) == TableAt(m, root, w, e) ==> d == e && SamePrefix(v, w, d)
  }

  predicate SelfMapped(m: Memory, root: bv64) {
    Next(Peek(m, root, SELF)) == Some(root)
  }

  ghost predicate NoTable(m: Memory, root: bv64, f: bv64) {
    forall v: bv64, d | Outside(v) && 0 <= d < 4 :: TableAt(m, root, v, d) != Some(f)
  }

  lemma {:induction false} WalkFromTable(m: Memory, root: bv64, v: bv64, depth: nat)
    requires depth < 4 && TableAt(m, root, v, depth).Some?
    ensures Translate(m, root, v) == From(m, TableAt(m, root, v, depth).value, v, depth)
  {
    hide Present, Large, GetBase, Slot, LargeFrame;
    if depth > 0 { WalkFromTable(m, root, v, depth - 1); }
  }

  lemma {:induction false} WalkStops(m: Memory, root: bv64, v: bv64, depth: nat)
    requires depth < 4 && TableAt(m, root, v, depth).Some?
      && !Present(Peek(m, TableAt(m, root, v, depth).value, Slot(v, depth)))
    ensures Translate(m, root, v) == None
  {
    hide Present, Large, GetBase, Slot, LargeFrame;
    WalkFromTable(m, root, v, depth);
  }

  // The entry of a level lets an access through, if the walk gets there.
  predicate LetsAt(m: Memory, root: bv64, v: bv64, d: nat, bit: bv64)
    requires d < 4
  {
    TableAt(m, root, v, d).Some? ==> Lets(Peek(m, TableAt(m, root, v, d).value, Slot(v, d)), bit)
  }

  lemma {:induction false} PermitsFrom(m: Memory, root: bv64, v: bv64, d: nat, bit: bv64)
    requires d < 4 && TableAt(m, root, v, d).Some?
    ensures Permits(m, TableAt(m, root, v, d).value, v, d, bit) <==>
      From(m, TableAt(m, root, v, d).value, v, d).Some? && forall i | d <= i < 4 :: LetsAt(m, root, v, i, bit)
    decreases 4 - d
  {
    hide Present, Large, GetBase, Slot, LargeFrame, Peek, Lets, TableAt;
    assert LetsAt(m, root, v, d, bit) <==> Lets(Peek(m, TableAt(m, root, v, d).value, Slot(v, d)), bit);
    if d < 3 {
      NextAt(m, root, v, d);
      if TableAt(m, root, v, d + 1).Some? {
        PermitsFrom(m, root, v, d + 1, bit);
      } else {
        forall i | d < i < 4 ensures LetsAt(m, root, v, i, bit) { NoneBelow(m, root, v, d, i); }
      }
    }
  }

  lemma PermitsIs(m: Memory, root: bv64, v: bv64, bit: bv64)
    ensures Permits(m, root, v, 0, bit) <==>
      Translate(m, root, v).Some? && forall i | 0 <= i < 4 :: LetsAt(m, root, v, i, bit)
  {
    hide Permits, From, LetsAt;
    PermitsFrom(m, root, v, 0, bit);
  }

  lemma NoRights(m: Memory, root: bv64, v: bv64)
    requires Translate(m, root, v) == None
    ensures RightsAt(m, root, v) == NONE
  {
    hide Permits, Translate, LetsAt;
    PermitsIs(m, root, v, WRITE);
    PermitsIs(m, root, v, USER);
  }

  // ----- get_pte_addr -----

  function SelfBits(i: nat): bv64
    requires i < 4
  {
    match i
    case 0 => 0x100 << 39
    case 1 => 0x100 << 30
    case 2 => 0x100 << 21
    case 3 => 0x100 << 12
  }

  // addr >>= 12; addr >>= 9 * (3 - level) - 3, or addr <<= 3 on level 3
  function Shifted(v: bv64, level: nat): bv64
    requires level < 4
  {
    match level
    case 0 => (v & 0xffffffffffff) >> 36
    case 1 => (v & 0xffffffffffff) >> 27
    case 2 => (v & 0xffffffffffff) >> 18
    case 3 => ((v & 0xffffffffffff) >> 12) << 3
  }

  function Selves(n: nat): bv64
    requires n <= 4
  {
    if n == 0 then 0 else Selves(n - 1) | SelfBits(n - 1)
  }

  function PteAddr(v: bv64, level: nat): bv64
    requires level < 4
  {
    (Selves(4 - level) | (Shifted(v, level) & 0xfffffffffffffff8)) | 0xffff000000000000
  }

  method GetPteAddr(addr: bv64, level: nat) returns (res: bv64)
    requires level < 4
    ensures res == PteAddr(addr, level)
  {
    hide SelfBits, Shifted;
    res := 0;
    var i := 0;
    while i < 4 - level
      invariant 0 <= i <= 4 - level && res == Selves(i)
    {
      res := res | SelfBits(i);
      i := i + 1;
    }
    res := res | (Shifted(addr, level) & 0xfffffffffffffff8);
    res := res | 0xffff000000000000;
  }

  // The address walks through slot 256 once for every level that is left out, and then
  // like v itself; the last nine bits of the walk select the entry.
  lemma PteSlots(v: bv64, level: nat)
    requires level < 4
    ensures forall i | 0 <= i < 4 - level :: Slot(PteAddr(v, level), i) == SELF
    ensures forall i | 4 - level <= i < 4 :: Slot(PteAddr(v, level), i) == Slot(v, i - (4 - level))
    ensures InFrame(PteAddr(v, level)) == Slot(v, level)
  {
    match level
    case 0 => Slots0(v);
    case 1 => Slots1(v);
    case 2 => Slots2(v);
    case 3 => Slots3(v);
  }

  lemma Slots0(v: bv64)
    ensures var a := PteAddr(v, 0);
      Slot(a, 0) == SELF && Slot(a, 1) == SELF && Slot(a, 2) == SELF && Slot(a, 3) == SELF && InFrame(a) == Slot(v, 0)
  {
    assert Selves(4) == 0x804020100000;
  }

  lemma Slots1(v: bv64)
    ensures var a := PteAddr(v, 1);
      Slot(a, 0) == SELF && Slot(a, 1) == SELF && Slot(a, 2) == SELF && Slot(a, 3) == Slot(v, 0)
        && InFrame(a) == Slot(v, 1)
  {
    assert Selves(3) == 0x804020000000;
  }

  lemma Slots2(v: bv64)
    ensures var a := PteAddr(v, 2);
      Slot(a, 0) == SELF && Slot(a, 1) == SELF && Slot(a, 2) == Slot(v, 0) && Slot(a, 3) == Slot(v, 1)
        && InFrame(a) == Slot(v, 2)
  {
    assert Selves(2) == 0x804000000000;
  }

  lemma Slots3(v: bv64)
    ensures var a := PteAddr(v, 3);
      Slot(a, 0) == SELF && Slot(a, 1) == Slot(v, 0) && Slot(a, 2) == Slot(v, 1) && Slot(a, 3) == Slot(v, 2)
        && InFrame(a) == Slot(v, 3)
  {
    assert Selves(1) == 0x800000000000;
  }

  // The slots of an address that reaches, through the window, the table of v at a level
  predicate Window(a: bv64, v: bv64, level: nat)
    requires level < 4
  {
    && (forall i | 0 <= i < 4 - level :: Slot(a, i) == SELF)
    && (forall i | 4 - level <= i < 4 :: Slot(a, i) == Slot(v, i - (4 - level)))
  }

  lemma WindowReaches(m: Memory, root: bv64, v: bv64, level: nat, a: bv64)
    requires level < 4 && SelfMapped(m, root) && TableAt(m, root, v, level).Some? && Window(a, v, level)
    ensures Translate(m, root, a) == TableAt(m, root, v, level)
  {
    hide Present, Large, GetBase, Slot, LargeFrame;
    match level
    case 0 => Turns(m, root, a, 3);
    case 1 => Turns(m, root, a, 3); Behind(m, root, v, a, 1);
    case 2 => Turns(m, root, a, 2); Behind(m, root, v, a, 2);
    case 3 => Turns(m, root, a, 1); Behind(m, root, v, a, 3);
  }

  // The trick: through slot 256 the processor reaches the very entry that a walk through
  // the tables finds.
  lemma SelfMapTrick(m: Memory, root: bv64, v: bv64, level: nat)
    requires level < 4 && SelfMapped(m, root) && TableAt(m, root, v, level).Some?
    ensures Access(m, root, PteAddr(v, level)) == Some(Cell(TableAt(m, root, v, level).value, Slot(v, level)))
  {
    hide Slot, TableAt, SelfMapped, Translate, PteAddr, InFrame;
    PteSlots(v, level);
    WindowReaches(m, root, v, level, PteAddr(v, level));
  }

  // The page that holds the entry: pte & ~0xfff
  function PageOf(a: bv64): bv64 {
    a & 0xfffffffffffff000
  }

  lemma PageSlots(a: bv64)
    ensures Slot(PageOf(a), 0) == Slot(a, 0) && Slot(PageOf(a), 1) == Slot(a, 1)
    ensures Slot(PageOf(a), 2) == Slot(a, 2) && Slot(PageOf(a), 3) == Slot(a, 3)
  {}

  lemma SelfMapPage(m: Memory, root: bv64, v: bv64, level: nat)
    requires level < 4 && SelfMapped(m, root) && TableAt(m, root, v, level).Some?
    ensures Translate(m, root, PageOf(PteAddr(v, level))) == TableAt(m, root, v, level)
  {
    hide Slot, TableAt, SelfMapped, Translate, PteAddr, InFrame, PageOf;
    PteSlots(v, level);
    var a := PteAddr(v, level);
    PageSlots(a);
    assert forall i | 0 <= i < 4 :: Slot(PageOf(a), i) == Slot(a, i);
    WindowReaches(m, root, v, level, PageOf(a));
  }

  // The first turns through slot 256 stay at the root.
  lemma {:induction false} Turns(m: Memory, root: bv64, a: bv64, n: nat)
    requires n < 4 && SelfMapped(m, root) && forall i | 0 <= i < n :: Slot(a, i) == SELF
    ensures TableAt(m, root, a, n) == Some(root) && Translate(m, root, a) == From(m, root, a, n)
  {
    hide Present, Large, GetBase, Slot, LargeFrame, Next;
    if n > 0 { Turns(m, root, a, n - 1); }
    WalkFromTable(m, root, a, n);
  }

  // Behind the turns the walk goes through the tables of v, and ends with one of them.
  lemma Behind(m: Memory, root: bv64, v: bv64, a: bv64, level: nat)
    requires 0 < level < 4 && TableAt(m, root, v, level).Some?
    requires forall i | 0 <= i < level :: Slot(a, i + 4 - level) == Slot(v, i)
    ensures From(m, root, a, 4 - level) == TableAt(m, root, v, level)
  {
    hide From, TableAt, Slot;
    RootTable(m, root, v);
    BehindTable(m, root, v, a, level, 0);
  }

  lemma {:induction false} BehindTable(m: Memory, root: bv64, v: bv64, a: bv64, level: nat, i: nat)
    requires i < level < 4 && TableAt(m, root, v, level).Some? && TableAt(m, root, v, i).Some?
    requires forall j | 0 <= j < level :: Slot(a, j + 4 - level) == Slot(v, j)
    ensures From(m, TableAt(m, root, v, i).value, a, i + 4 - level) == TableAt(m, root, v, level)
    decreases level - i
  {
    hide Present, Large, GetBase, Slot, LargeFrame, Peek, TableAt;
    UpperTable(m, root, v, level, i + 1);
    NextAt(m, root, v, i);
    assert Slot(a, i + 4 - level) == Slot(v, i);
    if i + 1 < level { BehindTable(m, root, v, a, level, i + 1); }
  }

  // ----- one entry written -----

  function Poke(m: Memory, c: Cell, e: bv64): Memory {
    m[c := Word(e)]
  }

  // memset of a whole frame
  function Cleared(m: Memory, f: bv64): Memory {
    map c | c in m && c.frame != f :: m[c]
  }

  // Two memories in which the walk to w reads the same entries
  ghost predicate SameReads(m: Memory, n: Memory, root: bv64, w: bv64) {
    forall e | 0 <= e < 4 && TableAt(m, root, w, e).Some? ::
      Peek(n, TableAt(m, root, w, e).value, Slot(w, e)) == Peek(m, TableAt(m, root, w, e).value, Slot(w, e))
  }

  lemma {:induction false} SameTables(m: Memory, n: Memory, root: bv64, w: bv64, depth: nat)
    requires depth < 4 && forall e | 0 <= e < depth && TableAt(m, root, w, e).Some? ::
      Peek(n, TableAt(m, root, w, e).value, Slot(w, e)) == Peek(m, TableAt(m, root, w, e).value, Slot(w, e))
    ensures TableAt(n, root, w, depth) == TableAt(m, root, w, depth)
  {
    hide Present, Large, GetBase, Slot, Next, Peek;
    if depth > 0 { SameTables(m, n, root, w, depth - 1); }
  }

  lemma ReadsHere(m: Memory, n: Memory, root: bv64, w: bv64, depth: nat)
    requires depth < 4 && SameReads(m, n, root, w) && TableAt(m, root, w, depth).Some?
    ensures var t := TableAt(m, root, w, depth).value; Peek(n, t, Slot(w, depth)) == Peek(m, t, Slot(w, depth))
  {}

  // The table at which a walk leaves the tables, and what it does there
  lemma {:induction false} SameWalk(m: Memory, n: Memory, root: bv64, w: bv64, depth: nat)
    requires depth < 4 && SameReads(m, n, root, w) && TableAt(m, root, w, depth).Some?
    ensures From(n, TableAt(m, root, w, depth).value, w, depth) == From(m, TableAt(m, root, w, depth).value, w, depth)
    decreases 4 - depth
  {
    hide Present, Large, GetBase, Slot, Peek, LargeFrame, SameReads, TableAt;
    var t := TableAt(m, root, w, depth).value;
    ReadsHere(m, n, root, w, depth);
    if depth < 3 {
      NextAt(m, root, w, depth);
      if TableAt(m, root, w, depth + 1).Some? { SameWalk(m, n, root, w, depth + 1); }
    }
  }

  lemma NextAt(m: Memory, root: bv64, w: bv64, depth: nat)
    requires depth < 3 && TableAt(m, root, w, depth).Some?
    ensures TableAt(m, root, w, depth + 1) == Next(Peek(m, TableAt(m, root, w, depth).value, Slot(w, depth)))
  {}

  lemma SameTranslation(m: Memory, n: Memory, root: bv64, w: bv64)
    requires SameReads(m, n, root, w)
    ensures Translate(n, root, w) == Translate(m, root, w) && RightsAt(n, root, w) == RightsAt(m, root, w)
    ensures forall e | 0 <= e < 4 :: TableAt(n, root, w, e) == TableAt(m, root, w, e)
  {
    hide From, Peek, Slot, Permits, Lets, TableAt;
    RootTable(m, root, w);
    RootTable(n, root, w);
    SameWalk(m, n, root, w, 0);
    forall e | 0 <= e < 4 ensures TableAt(n, root, w, e) == TableAt(m, root, w, e) {
      SameTables(m, n, root, w, e);
    }
    SamePermits(m, n, root, w, WRITE);
    SamePermits(m, n, root, w, USER);
  }

  lemma SamePermits(m: Memory, n: Memory, root: bv64, w: bv64, bit: bv64)
    requires SameReads(m, n, root, w) && Translate(n, root, w) == Translate(m, root, w)
    requires forall e | 0 <= e < 4 :: TableAt(n, root, w, e) == TableAt(m, root, w, e)
    ensures Permits(n, root, w, 0, bit) <==> Permits(m, root, w, 0, bit)
  {
    hide Translate, Peek, Slot, Permits, Lets, TableAt;
    PermitsIs(m, root, w, bit);
    PermitsIs(n, root, w, bit);
    forall d | 0 <= d < 4 ensures LetsAt(n, root, w, d, bit) == LetsAt(m, root, w, d, bit) {
      if TableAt(m, root, w, d).Some? { ReadsHere(m, n, root, w, d); }
    }
  }

  lemma {:induction false} PrefixShorter(v: bv64, w: bv64, d: nat, e: nat)
    requires e <= d <= 4 && SamePrefix(v, w, d)
    ensures SamePrefix(v, w, e)
  {
    if e < d { PrefixShorter(v, w, d - 1, e); }
  }

  // Only addresses that share the prefix read the entry.
  lemma ElsewhereReads(m: Memory, root: bv64, v: bv64, depth: nat, w: bv64, e: bv64)
    requires depth < 4 && Tree(m, root) && Outside(v) && Outside(w) && TableAt(m, root, v, depth).Some?
    requires !SamePrefix(v, w, depth + 1)
    ensures SameReads(m, Poke(m, Cell(TableAt(m, root, v, depth).value, Slot(v, depth)), e), root, w)
  {
    hide Slot, TableAt, Outside;
    var t := TableAt(m, root, v, depth).value;
    var n := Poke(m, Cell(t, Slot(v, depth)), e);
    forall i | 0 <= i < 4 && TableAt(m, root, w, i).Some?
      ensures Peek(n, TableAt(m, root, w, i).value, Slot(w, i)) == Peek(m, TableAt(m, root, w, i).value, Slot(w, i))
    {
      if TableAt(m, root, w, i) == TableAt(m, root, v, depth) {
        assert i == depth && SamePrefix(v, w, depth);
      }
    }
  }

  // The last entry of a walk becomes `e`: the addresses of the page follow it, all others
  // translate as before, and the tables stay where they are.
  lemma LeafWritten(m: Memory, root: bv64, v: bv64, depth: nat, e: bv64, w: bv64)
    requires depth < 4 && Tree(m, root) && Outside(v) && Outside(w) && TableAt(m, root, v, depth).Some?
    ensures var t := TableAt(m, root, v, depth).value; var n := Poke(m, Cell(t, Slot(v, depth)), e);
      && (!SamePrefix(v, w, depth + 1) ==>
        Translate(n, root, w) == Translate(m, root, w) && RightsAt(n, root, w) == RightsAt(m, root, w))
      && (SamePrefix(v, w, depth + 1) ==> Translate(n, root, w) == Arrives(n, e, w, depth))
      && (forall i | 0 <= i <= depth :: TableAt(n, root, w, i) == TableAt(m, root, w, i))
      && (!SamePrefix(v, w, depth + 1) ==> forall i | 0 <= i < 4 :: TableAt(n, root, w, i) == TableAt(m, root, w, i))
  {
    hide Slot, From, Peek, Outside, Arrives, Translate, TableAt, RightsAt;
    var t := TableAt(m, root, v, depth).value;
    var n := Poke(m, Cell(t, Slot(v, depth)), e);
    if SamePrefix(v, w, depth + 1) {
      AboveReads(m, root, v, depth, w, e);
    } else {
      ElsewhereReads(m, root, v, depth, w, e);
      SameTranslation(m, n, root, w);
    }
  }

  // The entries above the one written are what they were.
  lemma AboveEntry(m: Memory, root: bv64, v: bv64, depth: nat, w: bv64, e: bv64, d: nat)
    requires d < depth < 4 && Tree(m, root) && Outside(v) && Outside(w) && TableAt(m, root, v, depth).Some?
    requires SamePrefix(v, w, depth + 1)
    ensures var n := Poke(m, Cell(TableAt(m, root, v, depth).value, Slot(v, depth)), e);
      && TableAt(n, root, w, d) == TableAt(m, root, v, d) && Slot(w, d) == Slot(v, d)
      && TableAt(n, root, w, depth) == TableAt(m, root, v, depth) && Slot(w, depth) == Slot(v, depth)
      && TableAt(m, root, v, d).Some?
      && Peek(n, TableAt(m, root, v, d).value, Slot(v, d)) == Peek(m, TableAt(m, root, v, d).value, Slot(v, d))
  {
    hide Slot, Outside, Translate, Arrives, TableAt, RightsAt, SamePrefix;
    PrefixShorter(v, w, depth + 1, d + 1);
    PrefixShorter(v, w, depth + 1, depth);
    PrefixSlot(v, w, depth + 1);
    PrefixSlot(v, w, d + 1);
    PrefixShorter(v, w, depth, d);
    PrefixTables(m, root, v, w, d);
    PrefixTables(m, root, v, w, depth);
    LeafWritten(m, root, v, depth, e, w);
    UpperTable(m, root, v, depth, d);
    assert TableAt(m, root, v, d) != TableAt(m, root, v, depth);
  }

  lemma PrefixSlot(v: bv64, w: bv64, d: nat)
    requires 0 < d <= 4 && SamePrefix(v, w, d)
    ensures Slot(w, d - 1) == Slot(v, d - 1)
  {
    hide Slot;
  }

  lemma {:induction false} UpperTable(m: Memory, root: bv64, v: bv64, depth: nat, d: nat)
    requires d <= depth < 4 && TableAt(m, root, v, depth).Some?
    ensures TableAt(m, root, v, d).Some?
  {
    if d < depth { UpperTable(m, root, v, depth - 1, d); }
  }

  // The rights of a page whose last entry becomes `e`
  lemma LeafRights(m: Memory, root: bv64, v: bv64, depth: nat, e: bv64, w: bv64, bit: bv64)
    requires depth < 4 && Tree(m, root) && Outside(v) && Outside(w) && TableAt(m, root, v, depth).Some?
    requires SamePrefix(v, w, depth + 1) && (depth == 3 || Next(e) == None)
    ensures var n := Poke(m, Cell(TableAt(m, root, v, depth).value, Slot(v, depth)), e);
      Permits(n, root, w, 0, bit) <==>
        Arrives(n, e, w, depth).Some? && Lets(e, bit) && forall d | 0 <= d < depth :: LetsAt(m, root, v, d, bit)
  {
    hide Slot, Outside, Translate, Arrives, TableAt, RightsAt, SamePrefix, Permits, Lets, Next, Peek, Poke, Tree;
    var t := TableAt(m, root, v, depth).value;
    var n := Poke(m, Cell(t, Slot(v, depth)), e);
    PermitsIs(n, root, w, bit);
    LeafWritten(m, root, v, depth, e, w);
    PrefixShorter(v, w, depth + 1, depth);
    PrefixTables(m, root, v, w, depth);
    PrefixSlot(v, w, depth + 1);
    Poked(m, t, Slot(v, depth), e);
    assert LetsAt(n, root, w, depth, bit) == Lets(e, bit);
    forall d | 0 <= d < depth ensures LetsAt(n, root, w, d, bit) == LetsAt(m, root, v, d, bit) {
      AboveEntry(m, root, v, depth, w, e, d);
    }
    forall d | depth < d < 4 ensures LetsAt(n, root, w, d, bit) { NoneBelow(n, root, w, depth, d); }
  }

  // What an entry of the given level makes of w
  function Arrives(m: Memory, e: bv64, w: bv64, level: nat): Option<bv64>
    requires level < 4
  {
    if !Present(e) then None
    else if level == 3 then Some(GetBase(e))
    else if Large(e) then (if level == 0 then None else Some(LargeFrame(e, w, level)))
    else From(m, GetBase(e), w, level + 1)
  }

  lemma {:induction false} PrefixTables(m: Memory, root: bv64, v: bv64, w: bv64, depth: nat)
    requires depth < 4 && SamePrefix(v, w, depth)
    ensures TableAt(m, root, w, depth) == TableAt(m, root, v, depth)
  {
    hide Slot, Next, Peek;
    if depth > 0 { PrefixTables(m, root, v, w, depth - 1); }
  }

  lemma AboveReads(m: Memory, root: bv64, v: bv64, depth: nat, w: bv64, e: bv64)
    requires depth < 4 && Tree(m, root) && Outside(v) && Outside(w) && TableAt(m, root, v, depth).Some?
    requires SamePrefix(v, w, depth + 1)
    ensures var t := TableAt(m, root, v, depth).value; var n := Poke(m, Cell(t, Slot(v, depth)), e);
      && Translate(n, root, w) == Arrives(n, e, w, depth)
      && (forall i | 0 <= i <= depth :: TableAt(n, root, w, i) == TableAt(m, root, w, i))
  {
    hide Slot, From, Translate, Next, Outside, Arrives;
    var t := TableAt(m, root, v, depth).value;
    var n := Poke(m, Cell(t, Slot(v, depth)), e);
    PrefixTables(m, root, v, w, depth);
    forall i | 0 <= i <= depth ensures TableAt(n, root, w, i) == TableAt(m, root, w, i) {
      forall j | 0 <= j < i && TableAt(m, root, w, j).Some?
        ensures Peek(n, TableAt(m, root, w, j).value, Slot(w, j)) == Peek(m, TableAt(m, root, w, j).value, Slot(w, j))
      {
        assert TableAt(m, root, w, j) != TableAt(m, root, v, depth);
      }
      SameTables(m, n, root, w, i);
    }
    WalkFromTable(n, root, w, depth);
    assert Peek(n, t, Slot(w, depth)) == e;
    FromIs(n, t, w, depth, e);
  }

  lemma FromIs(m: Memory, t: bv64, w: bv64, level: nat, e: bv64)
    requires level < 4 && Peek(m, t, Slot(w, level)) == e
    ensures From(m, t, w, level) == Arrives(m, e, w, level)
  {
    hide Slot, Peek, Present, Large, GetBase, LargeFrame;
  }

  // ----- a new table -----

  function Linked(m: Memory, t: bv64, slot: bv64, e: bv64, f: bv64): Memory {
    Cleared(Poke(m, Cell(t, slot), e), f)
  }

  lemma ClearedReads(m: Memory, root: bv64, w: bv64, f: bv64)
    requires forall i | 0 <= i < 4 :: TableAt(m, root, w, i) != Some(f)
    ensures SameReads(m, Cleared(m, f), root, w)
  {
    hide TableAt, Slot;
  }

  // The entry at the place is absent; it becomes a link to the cleared frame f.
  predicate Gap(m: Memory, root: bv64, v: bv64, depth: nat) {
    depth < 3 && TableAt(m, root, v, depth).Some? && !Present(Peek(m, TableAt(m, root, v, depth).value, Slot(v, depth)))
  }

  // Where the tables are afterwards
  lemma NewTables(m: Memory, root: bv64, v: bv64, depth: nat, e: bv64, f: bv64, w: bv64)
    requires Gap(m, root, v, depth) && Tree(m, root) && Outside(v) && Outside(w) && NoTable(m, root, f)
      && Next(e) == Some(f)
    ensures var n := Linked(m, TableAt(m, root, v, depth).value, Slot(v, depth), e, f);
      && (SamePrefix(v, w, depth + 1) ==> TableAt(n, root, w, depth + 1) == Some(f))
      && (forall i | 0 <= i <= depth :: TableAt(n, root, w, i) == TableAt(m, root, w, i))
      && (SamePrefix(v, w, depth + 1) ==> forall i | depth + 2 <= i < 4 :: TableAt(n, root, w, i) == None)
      && (SamePrefix(v, w, depth + 1) ==> forall i | depth + 1 <= i < 4 :: TableAt(m, root, w, i) == None)
      && (!SamePrefix(v, w, depth + 1) ==> forall i | 0 <= i < 4 :: TableAt(n, root, w, i) == TableAt(m, root, w, i))
      && Translate(n, root, w) == Translate(m, root, w) && RightsAt(n, root, w) == RightsAt(m, root, w)
  {
    hide Slot, Outside, TableAt, Translate, Peek, Linked, Cleared, SamePrefix, Present, RightsAt;
    if SamePrefix(v, w, depth + 1) {
      InsideGap(m, root, v, depth, e, f, w);
    } else {
      BesideGap(m, root, v, depth, e, f, w);
    }
  }

  lemma BesideGap(m: Memory, root: bv64, v: bv64, depth: nat, e: bv64, f: bv64, w: bv64)
    requires Gap(m, root, v, depth) && Tree(m, root) && Outside(v) && Outside(w) && NoTable(m, root, f)
    requires !SamePrefix(v, w, depth + 1)
    ensures var n := Linked(m, TableAt(m, root, v, depth).value, Slot(v, depth), e, f);
      && (forall i | 0 <= i < 4 :: TableAt(n, root, w, i) == TableAt(m, root, w, i))
      && Translate(n, root, w) == Translate(m, root, w) && RightsAt(n, root, w) == RightsAt(m, root, w)
  {
    hide Slot, Outside, TableAt, Translate, Peek, Poke, Cleared, SamePrefix, Present, Arrives, RightsAt;
    var n1 := Poke(m, Cell(TableAt(m, root, v, depth).value, Slot(v, depth)), e);
    LeafWritten(m, root, v, depth, e, w);
    ClearedReads(n1, root, w, f);
    SameTranslation(n1, Cleared(n1, f), root, w);
  }

  lemma InsideGap(m: Memory, root: bv64, v: bv64, depth: nat, e: bv64, f: bv64, w: bv64)
    requires Gap(m, root, v, depth) && Tree(m, root) && Outside(v) && Outside(w) && NoTable(m, root, f)
      && Next(e) == Some(f)
    requires SamePrefix(v, w, depth + 1)
    ensures var n := Linked(m, TableAt(m, root, v, depth).value, Slot(v, depth), e, f);
      && (forall i | 0 <= i <= depth :: TableAt(n, root, w, i) == TableAt(m, root, w, i))
      && TableAt(n, root, w, depth + 1) == Some(f)
      && (forall i | depth + 2 <= i < 4 :: TableAt(n, root, w, i) == None)
      && (forall i | depth + 1 <= i < 4 :: TableAt(m, root, w, i) == None)
      && Translate(n, root, w) == Translate(m, root, w) && RightsAt(n, root, w) == RightsAt(m, root, w)
  {
    hide Slot, Outside, Translate, Arrives, Present, Large, GetBase, Cleared, Poke, Peek, RightsAt;
    var t := TableAt(m, root, v, depth).value;
    var n1 := Poke(m, Cell(t, Slot(v, depth)), e);
    var n := Cleared(n1, f);
    LeafWritten(m, root, v, depth, e, w);
    PrefixTables(m, root, v, w, depth);
    LowerTables(m, root, w, depth);
    ClearedPeek(n1, f);
    Poked(m, t, Slot(v, depth), e);
    forall i | 0 <= i <= depth ensures TableAt(n, root, w, i) == TableAt(m, root, w, i) {
      SameTables(n1, n, root, w, i);
    }
    assert TableAt(n, root, w, depth) == Some(t) && t != f;
    assert TableAt(n, root, w, depth + 1) == Some(f);
    WalkStops(m, root, w, depth);
    Zeroes();
    LowerTables(n, root, w, depth + 1);
    WalkStops(n, root, w, depth + 1);
    NoRights(m, root, w);
    NoRights(n, root, w);
  }

  lemma Zeroes()
    ensures !Present(0)
  {}

  lemma Poked(m: Memory, t: bv64, slot: bv64, e: bv64)
    ensures Peek(Poke(m, Cell(t, slot), e), t, slot) == e
  {}

  lemma ClearedPeek(m: Memory, f: bv64)
    ensures forall slot: bv64 :: Peek(Cleared(m, f), f, slot) == 0
    ensures forall t: bv64, slot: bv64 | t != f :: Peek(Cleared(m, f), t, slot) == Peek(m, t, slot)
  {}

  // Below an absent entry there are no tables.
  lemma {:induction false} LowerTables(m: Memory, root: bv64, w: bv64, depth: nat)
    requires depth < 4 && TableAt(m, root, w, depth).Some?
      && !Present(Peek(m, TableAt(m, root, w, depth).value, Slot(w, depth)))
    ensures forall i | depth + 1 <= i < 4 :: TableAt(m, root, w, i) == None
  {
    hide Slot, Peek, Present, Large, GetBase;
    forall i | depth + 1 <= i < 4 ensures TableAt(m, root, w, i) == None {
      NoLower(m, root, w, depth, i);
    }
  }

  lemma {:induction false} NoLower(m: Memory, root: bv64, w: bv64, depth: nat, i: nat)
    requires depth < i < 4 && TableAt(m, root, w, depth).Some?
      && !Present(Peek(m, TableAt(m, root, w, depth).value, Slot(w, depth)))
    ensures TableAt(m, root, w, i) == None
  {
    hide Slot, Peek, Present, Large, GetBase;
    if i > depth + 1 { NoLower(m, root, w, depth, i - 1); }
  }

  // What the page-table code keeps: the window of slot 256, and tables that are separate
  // from each other and from the free frames
  ghost predicate Sound(m: Memory, root: bv64, pool: seq<Word>) {
    && SelfMapped(m, root) && Tree(m, root)
    && (forall i | 0 <= i < |pool| :: IsFrame(pool[i].bits) && NoTable(m, root, pool[i].bits))
    && (forall i, j | 0 <= i < j < |pool| :: pool[i] != pool[j])
  }

  // A root that maps only itself
  function Blank(root: bv64): Memory {
    map[Cell(root, SELF) := Word(root | 3)]
  }

  lemma BlankSound(root: bv64, pool: seq<Word>)
    requires IsFrame(root) && forall i | 0 <= i < |pool| :: IsFrame(pool[i].bits) && pool[i].bits != root
    requires forall i, j | 0 <= i < j < |pool| :: pool[i] != pool[j]
    ensures Sound(Blank(root), root, pool)
    ensures forall v | Outside(v) :: Translate(Blank(root), root, v) == None
  {
    hide Slot, IsFrame, Blank;
    SelfLink(root);
    forall v, d | Outside(v) && 0 < d < 4 ensures TableAt(Blank(root), root, v, d) == None {
      BlankTables(root, v, d);
    }
    forall v | Outside(v) ensures Translate(Blank(root), root, v) == None {
      BlankTables(root, v, 1);
    }
  }

  lemma SelfLink(root: bv64)
    requires IsFrame(root)
    ensures SelfMapped(Blank(root), root)
  {
    LinkBits(root);
  }

  lemma LinkBits(root: bv64)
    requires IsFrame(root)
    ensures Present(root | 3) && !Large(root | 3) && GetBase(root | 3) == root
  {}

  lemma {:induction false} BlankTables(root: bv64, v: bv64, d: nat)
    requires Outside(v) && 0 < d < 4
    ensures Peek(Blank(root), root, Slot(v, 0)) == 0 && !Present(0)
    ensures TableAt(Blank(root), root, v, d) == None
  {
    hide Slot, GetBase;
    if d > 1 { BlankTables(root, v, d - 1); }
  }

  lemma NewTableKeepsTree(m: Memory, root: bv64, v: bv64, depth: nat, e: bv64, f: bv64)
    requires Gap(m, root, v, depth) && Tree(m, root) && Outside(v) && NoTable(m, root, f) && Next(e) == Some(f)
    ensures Tree(Linked(m, TableAt(m, root, v, depth).value, Slot(v, depth), e, f), root)
  {
    hide Slot, Outside, TableAt, Translate, Linked, Present, Peek, Next, After, SamePrefix;
    var n := Linked(m, TableAt(m, root, v, depth).value, Slot(v, depth), e, f);
    forall a: bv64, b: bv64, d, c | Outside(a) && Outside(b) && 0 <= d < 4 && 0 <= c < 4
        && TableAt(n, root, a, d).Some? && TableAt(n, root, a, d) == TableAt(n, root, b, c)
      ensures d == c && SamePrefix(a, b, d)
    {
      AfterIs(m, root, v, depth, e, f, a, d);
      AfterIs(m, root, v, depth, e, f, b, c);
      StillApart(m, root, v, depth, f, a, d, b, c);
    }
  }

  // The table of w at depth i once the new table hangs at depth + 1
  function After(m: Memory, root: bv64, v: bv64, depth: nat, f: bv64, w: bv64, i: nat): Option<bv64>
    requires depth < 3 && i < 4
  {
    if !SamePrefix(v, w, depth + 1) || i <= depth then TableAt(m, root, w, i) else if i == depth + 1 then Some(f)
      else None
  }

  lemma AfterIs(m: Memory, root: bv64, v: bv64, depth: nat, e: bv64, f: bv64, w: bv64, i: nat)
    requires i < 4
    requires Gap(m, root, v, depth) && Tree(m, root) && Outside(v) && Outside(w) && NoTable(m, root, f)
      && Next(e) == Some(f)
    ensures TableAt(Linked(m, TableAt(m, root, v, depth).value, Slot(v, depth), e, f), root, w, i) ==
      After(m, root, v, depth, f, w, i)
  {
    hide Slot, Outside, TableAt, Translate, Linked, Present, Peek, Next, SamePrefix, Tree;
    NewTables(m, root, v, depth, e, f, w);
  }

  lemma StillApart(m: Memory, root: bv64, v: bv64, depth: nat, f: bv64, a: bv64, d: nat, b: bv64, c: nat)
    requires depth < 3 && d < 4 && c < 4 && Tree(m, root) && Outside(a) && Outside(b) && NoTable(m, root, f)
    requires After(m, root, v, depth, f, a, d).Some?
      && After(m, root, v, depth, f, a, d) == After(m, root, v, depth, f, b, c)
    ensures d == c && SamePrefix(a, b, d)
  {
    hide Slot, Outside, TableAt, SamePrefix;
    PrefixMeet(v, a, b, depth + 1);
  }

  lemma {:induction false} PrefixMeet(v: bv64, a: bv64, b: bv64, d: nat)
    requires d <= 4
    ensures SamePrefix(v, a, d) && SamePrefix(v, b, d) ==> SamePrefix(a, b, d)
  {
    hide Slot;
    if d > 0 { PrefixMeet(v, a, b, d - 1); }
  }

  lemma NewTableSound(m: Memory, root: bv64, pool: seq<Word>, v: bv64, depth: nat, e: bv64)
    requires pool != [] && Sound(m, root, pool) && Outside(v) && Gap(m, root, v, depth) && Next(e) == Some(pool[0].bits)
    ensures var n := Linked(m, TableAt(m, root, v, depth).value, Slot(v, depth), e, pool[0].bits);
      && Sound(n, root, pool[1..]) && TableAt(n, root, v, depth + 1) == Some(pool[0].bits)
      && AllSame(m, n, root)
  {
    hide Slot, Outside, TableAt, Translate, RightsAt, Linked, Present, Peek, Next, Tree, SamePrefix, IsFrame,
         SelfMapped;
    var f := pool[0].bits;
    var n := Linked(m, TableAt(m, root, v, depth).value, Slot(v, depth), e, f);
    NewTableKeepsTree(m, root, v, depth, e, f);
    SelfStays(m, root, v, depth, e, f);
    PrefixSelf(v, depth + 1);
    NewTables(m, root, v, depth, e, f, v);
    forall w | Outside(w)
      ensures Translate(n, root, w) == Translate(m, root, w) && RightsAt(n, root, w) == RightsAt(m, root, w)
    {
      NewTables(m, root, v, depth, e, f, w);
    }
    forall i | 0 <= i < |pool[1..]| ensures IsFrame(pool[1..][i].bits) && NoTable(n, root, pool[1..][i].bits) {
      OtherFrames(m, root, v, depth, e, f, pool[i + 1].bits);
    }
  }

  lemma {:induction false} PrefixSelf(v: bv64, d: nat)
    requires d <= 4
    ensures SamePrefix(v, v, d)
  {
    hide Slot;
    if d > 0 { PrefixSelf(v, d - 1); }
  }

  lemma OtherFrames(m: Memory, root: bv64, v: bv64, depth: nat, e: bv64, f: bv64, g: bv64)
    requires Gap(m, root, v, depth) && Tree(m, root) && Outside(v) && NoTable(m, root, f) && Next(e) == Some(f)
    requires NoTable(m, root, g) && g != f
    ensures NoTable(Linked(m, TableAt(m, root, v, depth).value, Slot(v, depth), e, f), root, g)
  {
    hide Slot, Outside, TableAt, Translate, Linked, Present, Peek, Next, Tree, SamePrefix;
    var n := Linked(m, TableAt(m, root, v, depth).value, Slot(v, depth), e, f);
    forall w: bv64, d | Outside(w) && 0 <= d < 4 ensures TableAt(n, root, w, d) != Some(g) {
      AfterIs(m, root, v, depth, e, f, w, d);
      assert TableAt(m, root, w, d) != Some(g);
    }
  }

  // The entry of the window is not the one that changes, and the root is not cleared.
  lemma SelfStays(m: Memory, root: bv64, v: bv64, depth: nat, e: bv64, f: bv64)
    requires Gap(m, root, v, depth) && Tree(m, root) && Outside(v) && NoTable(m, root, f) && SelfMapped(m, root)
    ensures SelfMapped(Linked(m, TableAt(m, root, v, depth).value, Slot(v, depth), e, f), root)
  {
    hide Slot, Present, Large, GetBase;
    RootAlone(m, root, v, depth);
    assert TableAt(m, root, v, 0) != Some(f);
  }

  // Only at depth 0 is the table the root, and there the slot is not 256.
  lemma RootAlone(m: Memory, root: bv64, v: bv64, depth: nat)
    requires depth < 4 && Tree(m, root) && Outside(v) && TableAt(m, root, v, depth).Some?
    ensures TableAt(m, root, v, depth) == Some(root) ==> Slot(v, depth) != SELF
  {
    hide Slot, Next, Peek;
    assert TableAt(m, root, v, 0) == Some(root);
    if TableAt(m, root, v, depth) == Some(root) {
      assert TableAt(m, root, v, depth) == TableAt(m, root, v, 0);
    }
  }

  // Writing a last entry keeps everything sound.
  lemma LeafSound(m: Memory, root: bv64, pool: seq<Word>, v: bv64, depth: nat, e: bv64)
    requires depth < 4 && Sound(m, root, pool) && Outside(v) && TableAt(m, root, v, depth).Some?
    requires depth == 3 || (Next(Peek(m, TableAt(m, root, v, depth).value, Slot(v, depth))) == None && Next(e) == None)
    ensures var n := Poke(m, Cell(TableAt(m, root, v, depth).value, Slot(v, depth)), e);
      && Sound(n, root, pool)
      && forall w, i | Outside(w) && 0 <= i < 4 :: TableAt(n, root, w, i) == TableAt(m, root, w, i)
  {
    hide Slot, Outside, TableAt, Present, Peek, Next, IsFrame, SelfMapped, Tree, Poke, SamePrefix;
    var n := Poke(m, Cell(TableAt(m, root, v, depth).value, Slot(v, depth)), e);
    forall w, i | Outside(w) && 0 <= i < 4 ensures TableAt(n, root, w, i) == TableAt(m, root, w, i) {
      LeafTables(m, root, v, depth, e, w, i);
    }
    TablesDecide(m, n, root);
    LeafSelf(m, root, v, depth, e);
    forall i | 0 <= i < |pool| ensures IsFrame(pool[i].bits) && NoTable(n, root, pool[i].bits) {
      assert NoTable(m, root, pool[i].bits);
    }
  }

  lemma TablesDecide(m: Memory, n: Memory, root: bv64)
    requires Tree(m, root) && forall w, i | Outside(w) && 0 <= i < 4 :: TableAt(n, root, w, i) == TableAt(m, root, w, i)
    ensures Tree(n, root)
  {
    hide Slot, Outside, TableAt, SamePrefix;
  }

  lemma LeafSelf(m: Memory, root: bv64, v: bv64, depth: nat, e: bv64)
    requires depth < 4 && Tree(m, root) && Outside(v) && TableAt(m, root, v, depth).Some? && SelfMapped(m, root)
    ensures SelfMapped(Poke(m, Cell(TableAt(m, root, v, depth).value, Slot(v, depth)), e), root)
  {
    hide Slot, Present, Large, GetBase, TableAt, Tree;
    RootAlone(m, root, v, depth);
  }

  lemma LeafTables(m: Memory, root: bv64, v: bv64, depth: nat, e: bv64, w: bv64, i: nat)
    requires depth < 4 && i < 4 && Tree(m, root) && Outside(v) && Outside(w) && TableAt(m, root, v, depth).Some?
    requires depth == 3 || (Next(Peek(m, TableAt(m, root, v, depth).value, Slot(v, depth))) == None && Next(e) == None)
    ensures TableAt(Poke(m, Cell(TableAt(m, root, v, depth).value, Slot(v, depth)), e), root, w, i) ==
      TableAt(m, root, w, i)
  {
    hide Slot, Outside, Translate, Present, Large, GetBase, Poke, Arrives, Tree, Peek;
    var t := TableAt(m, root, v, depth).value;
    var n := Poke(m, Cell(t, Slot(v, depth)), e);
    LeafWritten(m, root, v, depth, e, w);
    if SamePrefix(v, w, depth + 1) && i > depth {
      PrefixTables(m, root, v, w, depth);
      Poked(m, t, Slot(v, depth), e);
      NoneBelow(m, root, w, depth, i);
      NoneBelow(n, root, w, depth, i);
    }
  }

  lemma {:induction false} NoneBelow(m: Memory, root: bv64, w: bv64, depth: nat, i: nat)
    requires depth < i < 4 && TableAt(m, root, w, depth).Some?
    requires Next(Peek(m, TableAt(m, root, w, depth).value, Slot(w, depth))) == None
    ensures TableAt(m, root, w, i) == None
  {
    hide Slot, Peek, Next;
    if i > depth + 1 { NoneBelow(m, root, w, depth, i - 1); }
  }

  // ----- entries -----

  // An entry that links to the next table
  function LinkEntry(f: bv64, flags: bv64): bv64 {
    SetFlags(SetBase(0, f, 0), flags) | 3
  }

  // The last entry of a mapping
  function MapEntry(addr: bv64, flags: bv64, pageSize: nat): bv64 {
    SetFlags(SetBase(0, addr, pageSize), flags) | 1
  }

  lemma LinkLeads(f: bv64, flags: bv64)
    requires IsFrame(f) && !Large(flags)
    ensures Next(LinkEntry(f, flags)) == Some(f)
  {
    LinkBase(f, flags);
    LinkFlags(f, flags);
    hide GetBase, Present, Large, LinkEntry;
  }

  lemma LinkBase(f: bv64, flags: bv64)
    ensures GetBase(LinkEntry(f, flags)) == GetBase(f)
  {}

  lemma LinkFlags(f: bv64, flags: bv64)
    requires !Large(flags)
    ensures Present(LinkEntry(f, flags)) && !Large(LinkEntry(f, flags))
  {}

  // The 4 KiB frame that w has to reach in a page of the given size mapped to addr
  function Target(addr: bv64, w: bv64, pageSize: nat): bv64 {
    match pageSize
    case 0 => GetBase(addr)
    case 1 => Part2M(addr, w)
    case _ => Part1G(addr, w)
  }

  lemma MapLeads(m: Memory, addr: bv64, flags: bv64, pageSize: nat, w: bv64)
    requires pageSize <= 2
    ensures Arrives(m, MapEntry(addr, flags, pageSize), w, 3 - pageSize) == Some(Target(addr, w, pageSize))
    ensures pageSize > 0 ==> Next(MapEntry(addr, flags, pageSize)) == None
  {
    hide From, GetBase, Part2M, Part1G, MapEntry, Present, Large, Lets;
    match pageSize
    case 0 => SmallEntry(addr, flags);
    case 1 => MiddleEntry(addr, flags, w);
    case 2 => GiantEntry(addr, flags, w);
  }

  // Of the bits that give rights, the last entry has those of the flags.
  lemma EntryLets(addr: bv64, flags: bv64, pageSize: nat)
    requires pageSize <= 2
    ensures Lets(MapEntry(addr, flags, pageSize), WRITE) <==> Lets(flags, WRITE)
    ensures Lets(MapEntry(addr, flags, pageSize), USER) <==> Lets(flags, USER)
  {
    match pageSize
    case 0 => assert MapEntry(addr, flags, 0) & 6 == flags & 6; SixBits(MapEntry(addr, flags, 0), flags);
    case 1 => assert MapEntry(addr, flags, 1) & 6 == flags & 6; SixBits(MapEntry(addr, flags, 1), flags);
    case 2 => assert MapEntry(addr, flags, 2) & 6 == flags & 6; SixBits(MapEntry(addr, flags, 2), flags);
  }

  lemma SixBits(a: bv64, b: bv64)
    requires a & 6 == b & 6
    ensures (Lets(a, WRITE) <==> Lets(b, WRITE)) && (Lets(a, USER) <==> Lets(b, USER))
  {}

  // A link lets writes through always, user programs as the flags say.
  lemma LinkLets(f: bv64, flags: bv64)
    ensures Lets(LinkEntry(f, flags), WRITE)
    ensures Lets(LinkEntry(f, flags), USER) <==> Lets(flags, USER)
  {}

  lemma SmallEntry(a: bv64, flags: bv64)
    ensures Present(MapEntry(a, flags, 0)) && GetBase(MapEntry(a, flags, 0)) == GetBase(a)
  {}

  lemma MiddleEntry(a: bv64, flags: bv64, w: bv64)
    ensures var e := MapEntry(a, flags, 1); Present(e) && Large(e) && Part2M(e, w) == Part2M(a, w)
  {}

  lemma GiantEntry(a: bv64, flags: bv64, w: bv64)
    ensures var e := MapEntry(a, flags, 2); Present(e) && Large(e) && Part1G(e, w) == Part1G(a, w)
  {}

  // Nothing is mapped at v, and no entry above is one that the processor reserves.
  predicate Unmapped(m: Memory, root: bv64, v: bv64) {
    Translate(m, root, v) == None && !Blocked(m, root, v, 0)
  }

  predicate Blocked(m: Memory, root: bv64, v: bv64, depth: nat)
    requires depth < 4
  {
    TableAt(m, root, v, depth).Some?
    && var e := Peek(m, TableAt(m, root, v, depth).value, Slot(v, depth)); Present(e) && Large(e)
  }

  // A large page above the entry of level n
  predicate BlockedAbove(m: Memory, root: bv64, v: bv64, n: nat)
    requires n < 4
  {
    exists d | 0 <= d < n :: Blocked(m, root, v, d)
  }

  // From m to n, the entry of level d on the way to v stayed if it was present; else it is a
  // link made with the flags.
  predicate LinkAt(m: Memory, n: Memory, root: bv64, v: bv64, d: nat, flags: bv64)
    requires d < 4
  {
    TableAt(n, root, v, d).Some?
    && var e := Peek(n, TableAt(n, root, v, d).value, Slot(v, d));
       if Filled(m, root, v, d) then e == Peek(m, TableAt(m, root, v, d).value, Slot(v, d))
       else Lets(e, WRITE) && (Lets(e, USER) <==> Lets(flags, USER))
  }

  ghost predicate Links(m: Memory, n: Memory, root: bv64, v: bv64, level: nat, flags: bv64)
    requires level < 4
  {
    forall d | 0 <= d < level :: LinkAt(m, n, root, v, d, flags)
  }

  // The present entries above the level let it through.
  ghost predicate Passes(m: Memory, root: bv64, v: bv64, level: nat, bit: bv64)
    requires level < 4
  {
    forall d | 0 <= d < level && Filled(m, root, v, d) :: Lets(Peek(m, TableAt(m, root, v, d).value, Slot(v, d)), bit)
  }

  // The entry of level n is there, and present.
  predicate Filled(m: Memory, root: bv64, v: bv64, n: nat)
    requires n < 4
  {
    TableAt(m, root, v, n).Some? && Present(Peek(m, TableAt(m, root, v, n).value, Slot(v, n)))
  }

  lemma {:induction false} TableNotBlocked(m: Memory, root: bv64, v: bv64, n: nat)
    requires n < 4 && TableAt(m, root, v, n).Some?
    ensures !BlockedAbove(m, root, v, n)
  {
    hide Slot, Present, Large, GetBase, Peek;
    if n > 0 { TableNotBlocked(m, root, v, n - 1); }
  }

  lemma GapNotBlocked(m: Memory, root: bv64, v: bv64, at: nat, n: nat)
    requires Gap(m, root, v, at) && at < n < 4
    ensures !BlockedAbove(m, root, v, n) && TableAt(m, root, v, n) == None
  {
    hide Slot, Large, GetBase, Peek, TableAt;
    LowerTables(m, root, v, at);
    TableNotBlocked(m, root, v, at);
    forall d | 0 <= d < n ensures !Blocked(m, root, v, d) {}
  }

  // A large page on the way, or bit 7 in the root: not unmapped
  lemma BlockedIs(m: Memory, root: bv64, v: bv64, depth: nat)
    requires depth < 3 && Blocked(m, root, v, depth)
    ensures !Unmapped(m, root, v)
  {
    hide Slot, Present, Large, GetBase, Peek, LargeFrame;
    WalkFromTable(m, root, v, depth);
  }

  lemma {:induction false} ReachedNotBlocked(m: Memory, root: bv64, v: bv64, depth: nat)
    requires 0 < depth < 4 && TableAt(m, root, v, depth).Some?
    ensures !Blocked(m, root, v, 0)
  {
    hide Slot, Present, Large, GetBase, Peek;
    if depth > 1 { ReachedNotBlocked(m, root, v, depth - 1); }
  }

  // ----- the code -----

  datatype Checked = Missing | HugeMapped | Entry(pte: bv64)

  datatype Mapped = Done | AlreadyMapped | InHugePage

  // All addresses but those of the page at v lead where they led, with the same rights.
  ghost predicate OthersSame(m: Memory, n: Memory, root: bv64, v: bv64, depth: nat)
    requires depth <= 4
  {
    forall w | Outside(w) && !SamePrefix(v, w, depth) ::
      Translate(n, root, w) == Translate(m, root, w) && RightsAt(n, root, w) == RightsAt(m, root, w)
  }

  ghost predicate AllSame(m: Memory, n: Memory, root: bv64) {
    forall w | Outside(w) ::
      Translate(n, root, w) == Translate(m, root, w) && RightsAt(n, root, w) == RightsAt(m, root, w)
  }

  lemma AllSameStep(m: Memory, n: Memory, k: Memory, root: bv64)
    requires AllSame(m, n, root) && AllSame(n, k, root)
    ensures AllSame(m, k, root)
  {
    hide Translate, Outside, RightsAt;
  }

  class Paging {
    var mem: Memory
    var pool: seq<Word>    // free frames, the next one first
    const root: bv64       // the physical address of the current pml4

    // *(uint64_t *)a
    method Read(a: bv64) returns (e: bv64)
      requires Access(mem, root, a).Some?
      ensures e == Peek(mem, Access(mem, root, a).value.frame, Access(mem, root, a).value.slot)
    {
      var c := Access(mem, root, a).value;
      return Peek(mem, c.frame, c.slot);
    }

    method Write(a: bv64, e: bv64)
      requires Access(mem, root, a).Some?
      modifies this`mem
      ensures mem == Poke(old(mem), Access(old(mem), root, a).value, e)
    {
      mem := Poke(mem, Access(mem, root, a).value, e);
    }

    // memset(page, 0, 0x1000)
    method Clear(page: bv64)
      requires Translate(mem, root, page).Some?
      modifies this`mem
      ensures mem == Cleared(old(mem), Translate(old(mem), root, page).value)
    {
      mem := Cleared(mem, Translate(mem, root, page).value);
    }

    // get_pte_addr_checked
    method GetPteAddrChecked(vaddr: bv64, pageSize: nat, flags: bv64, create: bool) returns (r: Checked)
      requires Sound(mem, root, pool) && Outside(vaddr) && pageSize <= 2
      requires create ==> |pool| >= 3 - pageSize && !Large(flags)
      modifies this`mem, this`pool
      ensures Sound(mem, root, pool) && AllSame(old(mem), mem, root)
      ensures r.Entry? ==> TableAt(mem, root, vaddr, 3 - pageSize).Some? && r.pte == PteAddr(vaddr, 3 - pageSize)
      ensures r == HugeMapped <==> BlockedAbove(old(mem), root, vaddr, 3 - pageSize)
      ensures r == Missing <==>
        !create && !BlockedAbove(old(mem), root, vaddr, 3 - pageSize)
          && TableAt(old(mem), root, vaddr, 3 - pageSize) == None
      ensures r == HugeMapped || TableAt(old(mem), root, vaddr, 3 - pageSize).Some? ==> mem == old(mem)
      ensures r.Entry? && TableAt(old(mem), root, vaddr, 3 - pageSize) == None ==>
        Peek(mem, TableAt(mem, root, vaddr, 3 - pageSize).value, Slot(vaddr, 3 - pageSize)) == 0
      ensures r == Missing ==> Translate(mem, root, vaddr) == None
      ensures r == HugeMapped ==> !Unmapped(mem, root, vaddr)
      ensures r.Entry? ==> Links(old(mem), mem, root, vaddr, 3 - pageSize, flags)
      ensures !create ==> mem == old(mem) && pool == old(pool)
    {
      hide Slot, Outside, TableAt, Translate, Present, Large, Peek, Next, Tree, SamePrefix, IsFrame, Sound, Poke,
           Cleared, LinkEntry,
        PteAddr, PageOf, Access, AllSame, Unmapped, Linked, SelfMapped, OthersSame, Blocked, BlockedAbove, LinkAt,
        Links, SameAbove, Filled;
      SameSelf(mem, root);
      RootTable(mem, root, vaddr);
      NoLinks(mem, root, vaddr, flags);
      var i := 0;
      ghost var n := 3 - pageSize;
      ghost var made, gap: nat := false, 0;    // the first absent entry, once it is filled
      while i < 3 - pageSize
        invariant 0 <= i <= 3 - pageSize
        invariant Sound(mem, root, pool) && AllSame(old(mem), mem, root) && TableAt(mem, root, vaddr, i).Some?
        invariant create ==> |pool| >= 3 - pageSize - i
        invariant !create ==> mem == old(mem) && pool == old(pool)
        invariant !made ==> mem == old(mem)
        invariant made ==> create && gap < i && Gap(old(mem), root, vaddr, gap)
        invariant made ==> Peek(mem, TableAt(mem, root, vaddr, i).value, Slot(vaddr, i)) == 0
        invariant Links(old(mem), mem, root, vaddr, i, flags)
      {
        SoundSelf(mem, root, pool);
        SelfMapTrick(mem, root, vaddr, i);
        var pte := GetPteAddr(vaddr, i);
        var e := Read(pte);
        Zeroes();
        if !Present(e) {
          if !create {
            WalkStops(mem, root, vaddr, i);
            GapNotBlocked(mem, root, vaddr, i, n);
            return Missing;
          }
          ghost var before, f := mem, pool[0].bits;
          if !made {
            made, gap := true, i;
          }
          NotFilled(old(mem), root, vaddr, gap, i);
          NewTable(vaddr, i, pte, flags);
          LinksGrow(old(mem), before, mem, root, vaddr, i, flags, f);
          AllSameStep(old(mem), before, mem, root);
        } else if Large(e) {
          HugeAt(mem, root, vaddr, i);
          BlockedHere(mem, root, vaddr, i, n);
          return HugeMapped;
        } else {
          NextTable(mem, root, vaddr, i);
          LinkStays(mem, root, vaddr, i, flags);
        }
        i := i + 1;
      }
      if made {
        GapNotBlocked(old(mem), root, vaddr, gap, n);
      } else {
        TableNotBlocked(mem, root, vaddr, n);
      }
      r := PteEntry(vaddr, 3 - pageSize);
    }

    method PteEntry(vaddr: bv64, level: nat) returns (r: Checked)
      requires level < 4
      ensures r == Entry(PteAddr(vaddr, level))
    {
      var pte := GetPteAddr(vaddr, level);
      return Entry(pte);
    }

    // The entry of level i is absent: link a fresh frame there and clear it.
    method NewTable(vaddr: bv64, i: nat, at: bv64, flags: bv64)
      requires Sound(mem, root, pool) && Outside(vaddr) && pool != [] && !Large(flags)
      requires Gap(mem, root, vaddr, i) && at == PteAddr(vaddr, i)
      modifies this`mem, this`pool
      ensures Sound(mem, root, pool) && pool == old(pool)[1..] && AllSame(old(mem), mem, root)
      ensures TableAt(mem, root, vaddr, i + 1).Some?
      ensures Peek(mem, TableAt(mem, root, vaddr, i + 1).value, Slot(vaddr, i + 1)) == 0
      ensures SameAbove(old(mem), mem, root, vaddr, i)
      ensures TableAt(mem, root, vaddr, i).Some? &&
        Peek(mem, TableAt(mem, root, vaddr, i).value, Slot(vaddr, i)) == LinkEntry(old(pool)[0].bits, flags)
    {
      hide Slot, Outside, TableAt, Translate, Present, Large, Peek, Next, Tree, SamePrefix, IsFrame, Poke, Cleared,
           LinkEntry,
        PteAddr, PageOf, SelfMapped;
      SelfMapTrick(mem, root, vaddr, i);
      ghost var m, t := mem, TableAt(mem, root, vaddr, i).value;
      var f := pool[0].bits;
      LinkLeads(f, flags);
      NewTableSound(mem, root, pool, vaddr, i, LinkEntry(f, flags));
      LinkedTable(mem, root, vaddr, i, LinkEntry(f, flags), f);
      pool := pool[1..];
      Write(at, LinkEntry(f, flags));
      SelfMapPage(mem, root, vaddr, i + 1);
      var next := GetPteAddr(vaddr, i + 1);
      Clear(PageOf(next));
      assert mem == Linked(m, t, Slot(vaddr, i), LinkEntry(f, flags), f);
      LinkedEmpty(m, t, Slot(vaddr, i), LinkEntry(f, flags), f);
      LinkedAbove(m, root, vaddr, i, LinkEntry(f, flags), f);
    }

    // map_page
    method MapPage(addr: bv64, vaddr: bv64, pageSize: nat, flags: bv64) returns (r: Mapped)
      requires Sound(mem, root, pool) && Outside(vaddr) && pageSize <= 2 && |pool| >= 3 - pageSize && !Large(flags)
      modifies this`mem, this`pool
      ensures Sound(mem, root, pool)
      ensures r == Done ==> OthersSame(old(mem), mem, root, vaddr, 4 - pageSize)
      ensures r == Done ==> forall w | Outside(w) && SamePrefix(vaddr, w, 4 - pageSize) ::
        Translate(mem, root, w) == Some(Target(addr, w, pageSize))
      ensures r == Done ==> forall w | Outside(w) && SamePrefix(vaddr, w, 4 - pageSize) ::
        RightsAt(mem, root, w) == Granted(old(mem), root, vaddr, 3 - pageSize, flags)
      ensures r == Done ==> Links(old(mem), mem, root, vaddr, 3 - pageSize, flags)
      ensures r == InHugePage <==> BlockedAbove(old(mem), root, vaddr, 3 - pageSize)
      ensures r == AlreadyMapped <==> Filled(old(mem), root, vaddr, 3 - pageSize)
      ensures r != Done ==> mem == old(mem)
      ensures pageSize == 0 && r == Done ==> Translate(old(mem), root, vaddr) == None
      ensures pageSize == 0 && r != Done ==> !Unmapped(mem, root, vaddr)
    {
      hide Slot, Outside, TableAt, Translate, Present, Large, Peek, Next, Tree, SamePrefix, IsFrame, Poke, Cleared,
        MapEntry, PteAddr, Access, Unmapped, Arrives, Target, Sound, AllSame, OthersSame, BlockedAbove, Links,
        RightsAt, Granted;
      var c := GetPteAddrChecked(vaddr, pageSize, flags, true);
      Zeroes();
      if TableAt(old(mem), root, vaddr, 3 - pageSize).Some? {
        TableNotBlocked(old(mem), root, vaddr, 3 - pageSize);
      }
      if c.HugeMapped? {
        return InHugePage;
      }
      SoundSelf(mem, root, pool);
      SelfMapTrick(mem, root, vaddr, 3 - pageSize);
      ghost var m, t := mem, TableAt(mem, root, vaddr, 3 - pageSize).value;
      var e := Read(c.pte);
      if Present(e) {
        if pageSize == 0 { LeafIs(mem, root, vaddr); }
        return AlreadyMapped;
      }
      if pageSize == 0 { LeafIs(mem, root, vaddr); SameHere(old(mem), mem, root, vaddr); }
      MapLeads(mem, addr, flags, pageSize, vaddr);
      NotPresentNext(e);
      LeafSound(mem, root, pool, vaddr, 3 - pageSize, MapEntry(addr, flags, pageSize));
      Write(c.pte, MapEntry(addr, flags, pageSize));
      MappedAll(old(mem), m, root, pool, vaddr, 3 - pageSize, addr, flags, pageSize);
      RightsMapped(old(mem), m, root, pool, vaddr, 3 - pageSize, addr, flags, pageSize);
      return Done;
    }

    // unmap
    method Unmap(vaddr: bv64) returns (panicked: bool)
      requires Sound(mem, root, pool) && Outside(vaddr)
      modifies this`mem, this`pool
      ensures Sound(mem, root, pool) && pool == old(pool)
      ensures panicked <==> BlockedAbove(old(mem), root, vaddr, 3)
      ensures panicked ==> mem == old(mem) && !Unmapped(mem, root, vaddr)
      ensures !panicked ==> OthersSame(old(mem), mem, root, vaddr, 4)
      ensures !panicked ==> forall w | Outside(w) && SamePrefix(vaddr, w, 4) :: Translate(mem, root, w) == None
    {
      hide Slot, Outside, TableAt, Translate, Present, Large, Peek, Next, Tree, SamePrefix, IsFrame, Poke, Cleared,
        PteAddr, Access, Unmapped, Arrives, Sound, AllSame, OthersSame, BlockedAbove;
      var c := GetPteAddrChecked(vaddr, 0, 0, false);
      match c {
        case Missing =>
          PrefixTranslates(mem, root, vaddr);
          OthersRefl(mem, root, vaddr, 4);
          return false;
        case HugeMapped =>
          return true;
        case Entry(pte) =>
          SoundSelf(mem, root, pool);
          SelfMapTrick(mem, root, vaddr, 3);
          LeafSound(mem, root, pool, vaddr, 3, 0);
          UnmappedAll(mem, root, pool, vaddr);
          Write(pte, 0);
          return false;
      }
    }

    // ptable_get_entry_4k, for a table that need not be the current one
    method GetEntry4k(pml4: bv64, vaddr: bv64) returns (r: Option<Cell>)
      requires vaddr & 0x8000000000000000 == 0
      ensures r == ExplicitWalk(mem, pml4, vaddr, 0)
    {
      hide Slot, Present, GetBase, Peek;
      var table := pml4;
      var i := 0;
      while i < 3
        invariant 0 <= i <= 3 && ExplicitWalk(mem, pml4, vaddr, 0) == ExplicitWalk(mem, table, vaddr, i)
      {
        var pte := Peek(mem, table, Slot(vaddr, i));
        if !Present(pte) {
          return None;
        }
        table := GetBase(pte);
        i := i + 1;
      }
      return Some(Cell(table, Slot(vaddr, 3)));
    }

    // unmap_maybe_current, for a table that is not the current one
    method UnmapOther(pml4: bv64, vaddr: bv64)
      requires Sound(mem, pml4, []) && Outside(vaddr) && vaddr & 0x8000000000000000 == 0 && NoLarge(mem, pml4, vaddr)
      modifies this`mem
      ensures Sound(mem, pml4, [])
      ensures OthersSame(old(mem), mem, pml4, vaddr, 4)
      ensures forall w | Outside(w) && SamePrefix(vaddr, w, 4) :: Translate(mem, pml4, w) == None
    {
      hide Slot, Outside, TableAt, Translate, Present, Large, Peek, Next, Tree, SamePrefix, IsFrame, Poke, Sound,
           OthersSame, NoLarge,
        ExplicitWalk;
      ExplicitIsTable(mem, pml4, vaddr);
      var pte := GetEntry4k(pml4, vaddr);
      if pte.Some? {
        LeafSound(mem, pml4, [], vaddr, 3, 0);
        UnmappedAll(mem, pml4, [], vaddr);
        mem := Poke(mem, pte.value, 0);
      } else {
        PrefixTranslates(mem, pml4, vaddr);
        OthersRefl(mem, pml4, vaddr, 4);
      }
    }
  }

  // The walk of ptable_get_entry_4k: it does not look at bit 7.
  function ExplicitWalk(m: Memory, table: bv64, v: bv64, level: nat): Option<Cell>
    requires level < 4
    decreases 4 - level
  {
    if level == 3 then Some(Cell(table, Slot(v, 3)))
    else
      var e := Peek(m, table, Slot(v, level));
      if !Present(e) then None else ExplicitWalk(m, GetBase(e), v, level + 1)
  }

  // No table of v links to a large page.
  predicate NoLarge(m: Memory, root: bv64, v: bv64) {
    forall d | 0 <= d < 3 :: !Blocked(m, root, v, d)
  }

  lemma {:induction false} ExplicitFrom(m: Memory, root: bv64, v: bv64, d: nat)
    requires d < 4 && NoLarge(m, root, v) && TableAt(m, root, v, d).Some?
    ensures var r := ExplicitWalk(m, TableAt(m, root, v, d).value, v, d);
      && (r.Some? ==> TableAt(m, root, v, 3).Some? && r.value == Cell(TableAt(m, root, v, 3).value, Slot(v, 3)))
      && (r == None ==> TableAt(m, root, v, 3) == None && Translate(m, root, v) == None)
    decreases 4 - d
  {
    hide Slot, Present, Large, GetBase, Peek, LargeFrame;
    if d < 3 {
      assert !Blocked(m, root, v, d);
      if TableAt(m, root, v, d + 1).Some? {
        ExplicitFrom(m, root, v, d + 1);
      } else {
        WalkStops(m, root, v, d);
        NoneBelow(m, root, v, d, 3);
      }
    }
  }

  lemma ExplicitIsTable(m: Memory, root: bv64, v: bv64)
    requires NoLarge(m, root, v)
    ensures var r := ExplicitWalk(m, root, v, 0);
      && (r.Some? ==> TableAt(m, root, v, 3).Some? && r.value == Cell(TableAt(m, root, v, 3).value, Slot(v, 3)))
      && (r == None ==> Translate(m, root, v) == None)
  {
    hide ExplicitWalk, Translate, NoLarge;
    ExplicitFrom(m, root, v, 0);
  }

  // The explicit walk and the window agree on which entry is meant: always, unless the
  // processor takes an entry on the way for a large page.
  lemma WalksAgree(m: Memory, root: bv64, v: bv64)
    requires SelfMapped(m, root) && NoLarge(m, root, v)
    ensures ExplicitWalk(m, root, v, 0) == if TableAt(m, root, v, 3).Some? then Access(m, root, PteAddr(v, 3)) else None
  {
    hide ExplicitWalk, NoLarge, Access, Translate, SelfMapped;
    ExplicitFrom(m, root, v, 0);
    if TableAt(m, root, v, 3).Some? { SelfMapTrick(m, root, v, 3); }
  }

  lemma SameSelf(m: Memory, root: bv64)
    ensures AllSame(m, m, root)
  {}

  lemma RootTable(m: Memory, root: bv64, v: bv64)
    ensures TableAt(m, root, v, 0) == Some(root)
  {}

  lemma SoundSelf(m: Memory, root: bv64, pool: seq<Word>)
    requires Sound(m, root, pool)
    ensures SelfMapped(m, root) && Tree(m, root)
  {}

  lemma HugeAt(m: Memory, root: bv64, v: bv64, i: nat)
    requires i < 3 && TableAt(m, root, v, i).Some?
    requires var e := Peek(m, TableAt(m, root, v, i).value, Slot(v, i)); Present(e) && Large(e)
    ensures !Unmapped(m, root, v)
  {
    BlockedIs(m, root, v, i);
  }

  lemma BlockedHere(m: Memory, root: bv64, v: bv64, i: nat, n: nat)
    requires i < n < 4 && TableAt(m, root, v, i).Some?
    requires var e := Peek(m, TableAt(m, root, v, i).value, Slot(v, i)); Present(e) && Large(e)
    ensures BlockedAbove(m, root, v, n) && TableAt(m, root, v, n) == None
  {
    hide Slot, Present, Large, Peek, GetBase, TableAt;
    assert Blocked(m, root, v, i);
    if TableAt(m, root, v, n).Some? { TableNotBlocked(m, root, v, n); }
  }

  lemma LinkedEmpty(m: Memory, t: bv64, slot: bv64, e: bv64, f: bv64)
    ensures forall k: bv64 :: Peek(Linked(m, t, slot, e, f), f, k) == 0
  {
    ClearedPeek(Poke(m, Cell(t, slot), e), f);
  }

  lemma NextTable(m: Memory, root: bv64, v: bv64, i: nat)
    requires i < 3 && TableAt(m, root, v, i).Some?
    requires var e := Peek(m, TableAt(m, root, v, i).value, Slot(v, i)); Present(e) && !Large(e)
    ensures TableAt(m, root, v, i + 1).Some?
  {
    hide Slot, Present, Large, Peek, GetBase;
  }

  // After the link is written and before the frame is cleared, the window shows the frame.
  lemma LinkedTable(m: Memory, root: bv64, v: bv64, depth: nat, e: bv64, f: bv64)
    requires Gap(m, root, v, depth) && Tree(m, root) && SelfMapped(m, root) && Outside(v) && Next(e) == Some(f)
    ensures var n := Poke(m, Cell(TableAt(m, root, v, depth).value, Slot(v, depth)), e);
      TableAt(n, root, v, depth + 1) == Some(f) && SelfMapped(n, root)
  {
    hide Slot, Outside, Translate, Present, Large, GetBase, Poke, Peek, Tree, SelfMapped, Arrives;
    LeafWritten(m, root, v, depth, e, v);
    Poked(m, TableAt(m, root, v, depth).value, Slot(v, depth), e);
    LeafSelf(m, root, v, depth, e);
  }

  lemma LeafIs(m: Memory, root: bv64, v: bv64)
    requires TableAt(m, root, v, 3).Some?
    ensures Translate(m, root, v) == None <==> !Present(Peek(m, TableAt(m, root, v, 3).value, Slot(v, 3)))
    ensures Translate(m, root, v) != None ==> !Unmapped(m, root, v)
  {
    hide Slot, Present, Large, GetBase, Peek, LargeFrame;
    WalkFromTable(m, root, v, 3);
  }

  lemma SameHere(m: Memory, n: Memory, root: bv64, v: bv64)
    requires AllSame(m, n, root) && Outside(v)
    ensures Translate(n, root, v) == Translate(m, root, v)
  {
    hide Translate, Outside;
  }

  lemma NotPresentNext(e: bv64)
    ensures !Present(e) ==> Next(e) == None
  {}

  lemma MappedAll(was: Memory, m: Memory, root: bv64, pool: seq<Word>, v: bv64, depth: nat, addr: bv64, flags: bv64,
      pageSize: nat)
    requires pageSize <= 2 && depth == 3 - pageSize
    requires AllSame(was, m, root) && Sound(m, root, pool) && Outside(v) && TableAt(m, root, v, depth).Some?
    ensures var n := Poke(m, Cell(TableAt(m, root, v, depth).value, Slot(v, depth)), MapEntry(addr, flags, pageSize));
      && OthersSame(was, n, root, v, depth + 1)
      && forall w | Outside(w) && SamePrefix(v, w, depth + 1) ::
        Translate(n, root, w) == Some(Target(addr, w, pageSize))
  {
    hide Slot, Outside, TableAt, Translate, RightsAt, SamePrefix, Poke, MapEntry, Arrives, Target;
    var e := MapEntry(addr, flags, pageSize);
    var n := Poke(m, Cell(TableAt(m, root, v, depth).value, Slot(v, depth)), e);
    forall w | Outside(w)
      ensures !SamePrefix(v, w, depth + 1) ==>
        Translate(n, root, w) == Translate(was, root, w) && RightsAt(n, root, w) == RightsAt(was, root, w)
      ensures SamePrefix(v, w, depth + 1) ==> Translate(n, root, w) == Some(Target(addr, w, pageSize))
    {
      LeafWritten(m, root, v, depth, e, w);
      MapLeads(n, addr, flags, pageSize, w);
    }
  }

  // What map_page gives: the rights of the flags, as far as the entries above let them through
  ghost function Granted(m: Memory, root: bv64, v: bv64, level: nat, flags: bv64): Rights
    requires level < 4
  {
    Rights(Lets(flags, WRITE) && Passes(m, root, v, level, WRITE), Lets(flags, USER) && Passes(m, root, v, level, USER))
  }

  lemma RightsMapped(was: Memory, m: Memory, root: bv64, pool: seq<Word>, v: bv64, depth: nat, addr: bv64, flags: bv64,
      pageSize: nat)
    requires pageSize <= 2 && depth == 3 - pageSize
    requires Sound(m, root, pool) && Outside(v) && TableAt(m, root, v, depth).Some?
    requires Links(was, m, root, v, depth, flags)
    ensures var n := Poke(m, Cell(TableAt(m, root, v, depth).value, Slot(v, depth)), MapEntry(addr, flags, pageSize));
      && Links(was, n, root, v, depth, flags)
      && forall w | Outside(w) && SamePrefix(v, w, depth + 1) ::
        RightsAt(n, root, w) == Granted(was, root, v, depth, flags)
  {
    hide Slot, Outside, TableAt, Translate, SamePrefix, Poke, Peek, MapEntry, Arrives, Target, Permits, Lets, LetsAt,
      LinkAt, Links, Passes, SelfMapped, Tree;
    var e := MapEntry(addr, flags, pageSize);
    var n := Poke(m, Cell(TableAt(m, root, v, depth).value, Slot(v, depth)), e);
    EntryLets(addr, flags, pageSize);
    LinksPass(was, m, root, v, depth, flags);
    LinksWritten(was, m, root, v, depth, e, flags);
    forall w | Outside(w) && SamePrefix(v, w, depth + 1)
      ensures RightsAt(n, root, w) == Granted(was, root, v, depth, flags)
    {
      MapLeads(n, addr, flags, pageSize, w);
      LeafRights(m, root, v, depth, e, w, WRITE);
      LeafRights(m, root, v, depth, e, w, USER);
    }
  }

  // What the entries above let through now is what they let through before, or new links do.
  lemma LinksPass(was: Memory, m: Memory, root: bv64, v: bv64, depth: nat, flags: bv64)
    requires depth < 4 && Links(was, m, root, v, depth, flags)
    ensures (forall d | 0 <= d < depth :: LetsAt(m, root, v, d, WRITE)) <==> Passes(was, root, v, depth, WRITE)
    ensures Lets(flags, USER) ==>
      ((forall d | 0 <= d < depth :: LetsAt(m, root, v, d, USER)) <==> Passes(was, root, v, depth, USER))
  {
    hide Slot, TableAt, Peek, Lets, Present;
    forall d | 0 <= d < depth
      ensures LetsAt(m, root, v, d, WRITE) <==>
        !Filled(was, root, v, d) || Lets(Peek(was, TableAt(was, root, v, d).value, Slot(v, d)), WRITE)
      ensures Lets(flags, USER) ==> (LetsAt(m, root, v, d, USER) <==>
        !Filled(was, root, v, d) || Lets(Peek(was, TableAt(was, root, v, d).value, Slot(v, d)), USER))
    {
      assert LinkAt(was, m, root, v, d, flags);
    }
  }

  lemma LinksWritten(was: Memory, m: Memory, root: bv64, v: bv64, depth: nat, e: bv64, flags: bv64)
    requires depth < 4 && Tree(m, root) && Outside(v) && TableAt(m, root, v, depth).Some?
    requires Links(was, m, root, v, depth, flags)
    ensures Links(was, Poke(m, Cell(TableAt(m, root, v, depth).value, Slot(v, depth)), e), root, v, depth, flags)
  {
    hide Slot, TableAt, Peek, Lets, Filled, Outside, Poke, Tree, SamePrefix;
    PrefixSelf(v, depth + 1);
    var n := Poke(m, Cell(TableAt(m, root, v, depth).value, Slot(v, depth)), e);
    forall d | 0 <= d < depth ensures LinkAt(was, n, root, v, d, flags) {
      AboveEntry(m, root, v, depth, v, e, d);
      assert LinkAt(was, m, root, v, d, flags);
    }
  }

  // The tables above a level, and their entries on the way to v
  predicate SameAbove(m: Memory, n: Memory, root: bv64, v: bv64, level: nat)
    requires level < 4
  {
    forall d | 0 <= d < level ::
      && TableAt(n, root, v, d).Some? && TableAt(n, root, v, d) == TableAt(m, root, v, d)
      && Peek(n, TableAt(n, root, v, d).value, Slot(v, d)) == Peek(m, TableAt(n, root, v, d).value, Slot(v, d))
  }

  lemma LinkedAbove(m: Memory, root: bv64, v: bv64, depth: nat, e: bv64, f: bv64)
    requires Gap(m, root, v, depth) && Tree(m, root) && Outside(v) && NoTable(m, root, f) && Next(e) == Some(f)
    ensures var n := Linked(m, TableAt(m, root, v, depth).value, Slot(v, depth), e, f);
      && SameAbove(m, n, root, v, depth) && TableAt(n, root, v, depth) == TableAt(m, root, v, depth)
      && Peek(n, TableAt(m, root, v, depth).value, Slot(v, depth)) == e
  {
    hide Slot, TableAt, Peek, Outside, Poke, Cleared, SamePrefix, Next, Present, Translate, RightsAt, Tree;
    PrefixSelf(v, depth + 1);
    NewTables(m, root, v, depth, e, f, v);
    var t := TableAt(m, root, v, depth).value;
    var n1 := Poke(m, Cell(t, Slot(v, depth)), e);
    ClearedPeek(n1, f);
    Poked(m, t, Slot(v, depth), e);
    assert TableAt(m, root, v, depth) != Some(f);
    forall d | 0 <= d < depth
      ensures TableAt(m, root, v, d).Some?
      ensures Peek(Cleared(n1, f), TableAt(m, root, v, d).value, Slot(v, d)) ==
        Peek(m, TableAt(m, root, v, d).value, Slot(v, d))
    {
      AboveEntry(m, root, v, depth, v, e, d);
      assert TableAt(m, root, v, d) != Some(f);
    }
  }

  lemma NotFilled(m: Memory, root: bv64, v: bv64, gap: nat, i: nat)
    requires gap <= i < 4 && Gap(m, root, v, gap)
    ensures !Filled(m, root, v, i)
  {
    hide Slot, TableAt, Peek, Present;
    LowerTables(m, root, v, gap);
  }

  lemma LinksGrow(was: Memory, m: Memory, n: Memory, root: bv64, v: bv64, i: nat, flags: bv64, f: bv64)
    requires i < 3 && Links(was, m, root, v, i, flags) && SameAbove(m, n, root, v, i) && !Filled(was, root, v, i)
    requires TableAt(n, root, v, i).Some? && Peek(n, TableAt(n, root, v, i).value, Slot(v, i)) == LinkEntry(f, flags)
    ensures Links(was, n, root, v, i + 1, flags)
  {
    hide Slot, TableAt, Peek, Lets, Filled, LinkEntry;
    LinkLets(f, flags);
    forall d | 0 <= d < i ensures LinkAt(was, n, root, v, d, flags) {
      assert LinkAt(was, m, root, v, d, flags);
    }
  }

  lemma LinkStays(m: Memory, root: bv64, v: bv64, i: nat, flags: bv64)
    requires i < 3 && Links(m, m, root, v, i, flags) && TableAt(m, root, v, i).Some?
    requires Present(Peek(m, TableAt(m, root, v, i).value, Slot(v, i)))
    ensures Links(m, m, root, v, i + 1, flags)
  {
    hide Slot, TableAt, Peek, Lets, Present;
    assert LinkAt(m, m, root, v, i, flags);
  }

  lemma NoLinks(m: Memory, root: bv64, v: bv64, flags: bv64)
    ensures Links(m, m, root, v, 0, flags)
  {}

  lemma UnmappedAll(m: Memory, root: bv64, pool: seq<Word>, v: bv64)
    requires Sound(m, root, pool) && Outside(v) && TableAt(m, root, v, 3).Some?
    ensures var n := Poke(m, Cell(TableAt(m, root, v, 3).value, Slot(v, 3)), 0);
      && OthersSame(m, n, root, v, 4)
      && forall w | Outside(w) && SamePrefix(v, w, 4) :: Translate(n, root, w) == None
  {
    hide Slot, Outside, TableAt, Translate, RightsAt, SamePrefix, Poke;
    var n := Poke(m, Cell(TableAt(m, root, v, 3).value, Slot(v, 3)), 0);
    Zeroes();
    forall w | Outside(w)
      ensures !SamePrefix(v, w, 4) ==>
        Translate(n, root, w) == Translate(m, root, w) && RightsAt(n, root, w) == RightsAt(m, root, w)
      ensures SamePrefix(v, w, 4) ==> Translate(n, root, w) == None
    {
      LeafWritten(m, root, v, 3, 0, w);
    }
  }

  // Addresses of one page translate alike, as far as being mapped goes.
  lemma PrefixTranslates(m: Memory, root: bv64, v: bv64)
    requires Translate(m, root, v) == None
    ensures forall w | SamePrefix(v, w, 4) :: Translate(m, root, w) == None
  {
    hide From, SamePrefix;
    forall w | SamePrefix(v, w, 4) ensures Translate(m, root, w) == None {
      SameFate(m, root, v, w, root, 0);
    }
  }

  lemma {:induction false} SameFate(m: Memory, root: bv64, v: bv64, w: bv64, t: bv64, level: nat)
    requires level < 4 && SamePrefix(v, w, 4)
    ensures From(m, t, v, level) == None <==> From(m, t, w, level) == None
    decreases 4 - level
  {
    hide Slot, Present, Large, GetBase, Peek, LargeFrame;
    PrefixShorter(v, w, 4, level + 1);
    if level < 3 { SameFate(m, root, v, w, GetBase(Peek(m, t, Slot(v, level))), level + 1); }
  }

  lemma OthersRefl(m: Memory, root: bv64, v: bv64, depth: nat)
    requires depth <= 4
    ensures OthersSame(m, m, root, v, depth)
  {}

  // Mapping a page that was not mapped and unmapping it again leaves every translation as
  // it was, whatever tables were created.
  lemma UnmapUndoesMap(m: Memory, n: Memory, k: Memory, root: bv64, v: bv64)
    requires Translate(m, root, v) == None && OthersSame(m, n, root, v, 4) && OthersSame(n, k, root, v, 4)
    requires forall w | Outside(w) && SamePrefix(v, w, 4) :: Translate(k, root, w) == None
    ensures AllSame(m, k, root)
  {
    hide Translate, Outside, SamePrefix, RightsAt;
    PrefixTranslates(m, root, v);
    forall w | Outside(w)
      ensures Translate(k, root, w) == Translate(m, root, w) && RightsAt(k, root, w) == RightsAt(m, root, w)
    {
      if SamePrefix(v, w, 4) {
        NoRights(m, root, w);
        NoRights(k, root, w);
      } else {
        assert Translate(n, root, w) == Translate(m, root, w);
      }
    }
  }
}
