// malloc and free of libc/malloc.c.
module Buddy {
  import opened BuddyTiling
  import opened BuddyLists

  const PAGE: nat := 0x1000
  const HEADER: nat := 24      // sizeof(struct _hdr)
  const WORD: nat := 0x1_0000_0000_0000_0000

  // What the headers stand for: the blocks and their orders, which of them are handed
  // out, the pages they tile, and the allocations too large for a page
  datatype Heap = Heap(blocks: map<nat, nat>, live: set<nat>, pages: set<nat>, huge: map<nat, nat>)

  // Each free block is in the list of its order, and nothing else is.
  predicate Filed(h: Heap, lists: seq<seq<nat>>)
    requires |lists| == ORDERS
  {
    && h.live <= h.blocks.Keys
    && (forall k, x | 0 <= k < ORDERS && x in lists[k] :: x in h.blocks && x !in h.live && h.blocks[x] == k)
    && (forall x | x in h.blocks && x !in h.live :: h.blocks[x] < ORDERS && x in lists[h.blocks[x]])
  }

  predicate LiveHeaders(s: Store, h: Heap) {
    forall x | x in h.live :: x in h.blocks && x in s.hdrs && s.hdrs[x].flags == h.blocks[x]
  }

  predicate HugeHeaders(s: Store, h: Heap) {
    forall x | x in h.huge :: x in s.hdrs && s.hdrs[x].flags == HUGE && s.hdrs[x].next == h.huge[x]
  }

  predicate Apart(a: nat, m: nat, b: nat, n: nat) {
    a + m <= b || b + n <= a
  }

  // The large allocations and the pages do not overlap.
  predicate Regions(h: Heap) {
    && 0 !in h.pages
    && (forall x | x in h.huge :: h.huge[x] > 0 && Aligned(x, 12))
    && (forall x, p | x in h.huge && p in h.pages :: Apart(x, h.huge[x], p, PAGE))
    && (forall x, y | x in h.huge && y in h.huge && x != y :: Apart(x, h.huge[x], y, h.huge[y]))
  }

  ghost predicate Consistent(s: Store, lists: seq<seq<nat>>, h: Heap) {
    && |s.free| == ORDERS && |lists| == ORDERS
    && Lists(s, lists) && Filed(h, lists) && LiveHeaders(s, h) && HugeHeaders(s, h)
    && Tiling(h.blocks, h.pages) && Regions(h)
  }

  // What the kernel may grant: n bytes of whole pages that nothing else uses
  predicate Fresh(h: Heap, a: nat, n: nat) {
    && a > 0 && Aligned(a, 12) && n > 0
    && (forall p | p in h.pages :: Apart(a, n, p, PAGE))
    && (forall x | x in h.huge :: Apart(a, n, x, h.huge[x]))
  }

  function AlignUp(n: nat): nat {
    (n + PAGE - 1) / PAGE * PAGE
  }

  // ----- where headers are -----

  lemma NotListed(h: Heap, lists: seq<seq<nat>>, x: nat)
    requires |lists| == ORDERS && Filed(h, lists) && (x !in h.blocks || x in h.live)
    ensures !Listed(lists, x)
  {}

  lemma BlockNotZero(h: Heap, x: nat)
    requires Tiling(h.blocks, h.pages) && Regions(h) && x in h.blocks
    ensures x > 0 && 5 <= h.blocks[x] <= 12
  {
    hide Full, Single, Aligned;
    assert Tile(x, h.blocks[x], h.pages);
    FloorBelow(0, 12);
  }

  lemma HugeNotBlock(h: Heap, x: nat)
    requires Tiling(h.blocks, h.pages) && Regions(h) && x in h.huge
    ensures x !in h.blocks && x !in h.pages
  {
    hide Full, Single, Aligned, Floor;
    OwnFloor(x);
    assert x in h.blocks ==> Tile(x, h.blocks[x], h.pages);
  }

  // free() looks at the header of the buddy: it tells whether the buddy is a free block
  // of the same order.
  lemma BuddyHeader(s: Store, lists: seq<seq<nat>>, h: Heap, x: nat)
    requires Consistent(s, lists, h) && x in h.live && h.blocks[x] < 12
    ensures var y := Buddy(x, h.blocks[x]);
      && y in s.hdrs
      && (s.hdrs[y].flags == FREE + h.blocks[x] <==> y in h.blocks && y !in h.live && h.blocks[y] == h.blocks[x])
  {
    hide Tiling, Buddy, Lists, Regions;
    BuddyIsStart(h.blocks, h.pages, x);
    var y := Buddy(x, h.blocks[x]);
    BlockNotZero(h, y);
    if y !in h.live { OwnOrder(s, lists, h.blocks[y], y); }
  }

  // ----- one step of the allocator on the headers -----

  // The first block of order k is handed out.
  function Taken(s: Store, x: nat, k: nat): Store {
    Store(Unlink(s, x).free, Unlink(s, x).hdrs[x := Hdr(0, Nowhere, k)])
  }

  lemma FlagsKept(s: Store, t: Store, h: Heap)
    requires LiveHeaders(s, h) && HugeHeaders(s, h)
    requires forall y | y in h.live || y in h.huge :: y in s.hdrs && y in t.hdrs && t.hdrs[y].flags == s.hdrs[y].flags
    requires forall y | y in h.huge :: t.hdrs[y].next == s.hdrs[y].next
    ensures LiveHeaders(t, h) && HugeHeaders(t, h)
  {}

  // Headers of live and large blocks are in no list, so Unlink leaves them alone.
  lemma UnlinkKeeps(s: Store, lists: seq<seq<nat>>, h: Heap, k: nat, i: nat)
    requires Consistent(s, lists, h) && k < ORDERS && i < |lists[k]|
    ensures lists[k][i] in s.hdrs
    ensures LiveHeaders(Unlink(s, lists[k][i]), h) && HugeHeaders(Unlink(s, lists[k][i]), h)
  {
    hide Tiling, Unlink, Regions;
    assert Chain(s, k, lists[k]);
    var t := Unlink(s, lists[k][i]);
    UnlinkFrame(s, k, lists[k], i);
    forall y | y in h.live || y in h.huge ensures y in s.hdrs && y in t.hdrs && t.hdrs[y] == s.hdrs[y] {
      if y in h.huge { HugeNotBlock(h, y); }
    }
    FlagsKept(s, t, h);
  }

  lemma TakeKeeps(s: Store, lists: seq<seq<nat>>, h: Heap, k: nat)
    requires Consistent(s, lists, h) && k < ORDERS && lists[k] != []
    ensures var x := lists[k][0];
      && x in s.hdrs && x in h.blocks && x !in h.live && h.blocks[x] == k
      && Consistent(Taken(s, x, k), lists[k := lists[k][1..]], h.(live := h.live + {x}))
  {
    hide Tiling, Unlink, Regions, Lists, Chain;
    var x := lists[k][0];
    var lists1 := lists[k := lists[k][1..]];
    OwnOrder(s, lists, k, x);
    UnlinkKeeps(s, lists, h, k, 0);
    UnlinkLists(s, lists, k, 0);
    assert Without(lists[k], 0) == lists[k][1..];
    FirstOnce(s, lists, k);
    var h1 := h.(live := h.live + {x});
    assert Filed(h1, lists1) by { TakeFiled(h, lists, k); }
    NotListed(h1, lists1, x);
    OutsideLists(Unlink(s, x), lists1, x, Hdr(0, Nowhere, k));
    if x in h.huge { HugeNotBlock(h, x); }
    RegionsSame(h, h1);
  }

  lemma FirstOnce(s: Store, lists: seq<seq<nat>>, k: nat)
    requires Lists(s, lists) && k < ORDERS && lists[k] != []
    ensures lists[k][0] !in lists[k][1..]
  {
    assert Chain(s, k, lists[k]);
  }

  lemma TakeFiled(h: Heap, lists: seq<seq<nat>>, k: nat)
    requires |lists| == ORDERS && Filed(h, lists) && k < ORDERS && lists[k] != [] && lists[k][0] !in lists[k][1..]
    ensures Filed(h.(live := h.live + {lists[k][0]}), lists[k := lists[k][1..]])
  {
    var x := lists[k][0];
    var lists1 := lists[k := lists[k][1..]];
    assert lists[k] == [x] + lists[k][1..];
    assert x in lists[k];
    forall y | y in h.blocks && y !in h.live && y != x ensures h.blocks[y] < ORDERS && y in lists1[h.blocks[y]] {
      assert y in lists[h.blocks[y]];
    }
  }

  lemma RegionsSame(h: Heap, g: Heap)
    requires Regions(h) && g.pages == h.pages && g.huge == h.huge
    ensures Regions(g)
  {}

  // A block goes back to its list.
  lemma FreeKeeps(s: Store, lists: seq<seq<nat>>, h: Heap, x: nat)
    requires Consistent(s, lists, h) && x in h.live
    ensures x in h.blocks && h.blocks[x] < ORDERS
    ensures var k := h.blocks[x];
      Consistent(Push(s, k, x), lists[k := [x] + lists[k]], h.(live := h.live - {x}))
  {
    hide Tiling, Push, Lists, Regions;
    var k := h.blocks[x];
    var h1 := h.(live := h.live - {x});
    BlockNotZero(h, x);
    NotListed(h, lists, x);
    PushLists(s, lists, k, x);
    FreeFiled(h, lists, x);
    HugeNot(h, x);
    HeadFree(s, lists, h, k);
    assert LiveHeaders(s, h1) && HugeHeaders(s, h1);
    PushHeaders(s, h1, k, x);
    RegionsSame(h, h1);
  }

  lemma FreeFiled(h: Heap, lists: seq<seq<nat>>, x: nat)
    requires |lists| == ORDERS && Filed(h, lists) && x in h.live && h.blocks[x] < ORDERS
    ensures Filed(h.(live := h.live - {x}), lists[h.blocks[x] := [x] + lists[h.blocks[x]]])
  {}

  // A block of order k in list k becomes two of order k - 1.
  function Halved(s: Store, x: nat, k: nat): Store
    requires k > 0
  {
    Push(Push(Unlink(s, x), k - 1, x + Size(k - 1)), k - 1, x)
  }

  function HalvedLists(lists: seq<seq<nat>>, k: nat): seq<seq<nat>>
    requires 0 < k < |lists| && lists[k] != []
  {
    lists[k := lists[k][1..]][k - 1 := [lists[k][0], lists[k][0] + Size(k - 1)] + lists[k - 1]]
  }

  lemma SplitKeeps(s: Store, lists: seq<seq<nat>>, h: Heap, k: nat)
    requires |lists| == ORDERS && 5 < k < ORDERS && lists[k] != [] && Consistent(s, lists, h)
    ensures lists[k][0] in s.hdrs && lists[k][0] + Size(k - 1) !in h.blocks
    ensures Consistent(Halved(s, lists[k][0], k), HalvedLists(lists, k),
      h.(blocks := SplitBlocks(h.blocks, lists[k][0], k)))
  {
    hide Tiling, Filed, Unlink, Push, Lists, Regions, SplitBlocks, LiveHeaders, HugeHeaders, Size;
    var x := lists[k][0];
    var y := x + Size(k - 1);
    assert x in lists[k];
    InList(h, lists, x, k);
    OwnOrder(s, lists, k, x);
    var s1, lists1 := Unlink(s, x), lists[k := lists[k][1..]];
    UnlinkKeeps(s, lists, h, k, 0);
    UnlinkLists(s, lists, k, 0);
    assert Without(lists[k], 0) == lists[k][1..];
    FirstOnce(s, lists, k);
    SplitTiling(h.blocks, h.pages, x);
    SplitLists(s1, lists1, h, x, y, k, lists);
    var h1 := h.(blocks := SplitBlocks(h.blocks, x, k));
    SplitFiled(h, lists, k);
    SplitHeaders(s1, lists, h, x, y, k);
    assert lists1[k - 1] == lists[k - 1];
    RegionsSame(h, h1);
  }

  lemma TailIn(l: seq<nat>, y: nat)
    requires l != []
    ensures y in l[1..] ==> y in l
  {}

  lemma InList(h: Heap, lists: seq<seq<nat>>, x: nat, j: nat)
    requires |lists| == ORDERS && Filed(h, lists) && j < ORDERS && x in lists[j]
    ensures x in h.blocks && x !in h.live && h.blocks[x] == j
  {}

  lemma NotThere(h: Heap, lists: seq<seq<nat>>, x: nat, j: nat)
    requires |lists| == ORDERS && Filed(h, lists) && j < ORDERS
    requires x !in h.blocks || x in h.live || h.blocks[x] != j
    ensures x !in lists[j]
  {}

  // Neither half is in a list once the block has left its own.
  lemma SplitLists(s1: Store, lists1: seq<seq<nat>>, h: Heap, x: nat, y: nat, k: nat, lists: seq<seq<nat>>)
    requires Lists(s1, lists1) && |s1.free| == ORDERS && |lists| == ORDERS && Filed(h, lists) && 5 < k < ORDERS
    requires lists[k] != [] && x == lists[k][0]
    requires lists1 == lists[k := lists[k][1..]] && x !in lists[k][1..] && x != 0 && y != x && y > 0 && y !in h.blocks
    ensures |Push(s1, k - 1, y).free| == ORDERS && |Push(Push(s1, k - 1, y), k - 1, x).free| == ORDERS
    ensures Lists(Push(Push(s1, k - 1, y), k - 1, x), lists1[k - 1 := [x, y] + lists1[k - 1]])
  {
    hide Lists, Push;
    assert x in lists[k] && lists[k] == [x] + lists[k][1..];
    forall j | 0 <= j < ORDERS ensures y !in lists1[j] && x !in lists1[j] {
      if j == k {
        TailIn(lists[k], y);
      } else {
        assert lists1[j] == lists[j];
        NotThere(h, lists, x, j);
      }
    }
    PushLists(s1, lists1, k - 1, y);
    var lists2 := lists1[k - 1 := [y] + lists1[k - 1]];
    assert !Listed(lists2, x);
    PushLists(Push(s1, k - 1, y), lists2, k - 1, x);
    assert [x] + ([y] + lists1[k - 1]) == [x, y] + lists1[k - 1];
    assert lists2[k - 1 := [x] + lists2[k - 1]] == lists1[k - 1 := [x, y] + lists1[k - 1]];
  }

  lemma SplitFiled(h: Heap, lists: seq<seq<nat>>, k: nat)
    requires |lists| == ORDERS && Filed(h, lists) && 5 < k < ORDERS && lists[k] != [] && lists[k][0] !in lists[k][1..]
    requires lists[k][0] + Size(k - 1) !in h.blocks
    ensures Filed(h.(blocks := SplitBlocks(h.blocks, lists[k][0], k)), HalvedLists(lists, k))
  {
    var x := lists[k][0];
    var y := x + Size(k - 1);
    SizePositive(k - 1);
    HalvedHas(lists, k, x, y);
    assert lists[k][0] in lists[k];
    InList(h, lists, x, k);
    var after := HalvedLists(lists, k);
    hide Size, HalvedLists;
    var blocks := SplitBlocks(h.blocks, x, k);
    forall z | z in blocks && z !in h.live ensures blocks[z] < ORDERS && z in after[blocks[z]] {
      if z != x && z != y { assert z in lists[h.blocks[z]]; }
    }
    forall j | 0 <= j < ORDERS && j != k - 1 ensures x !in after[j] && y !in after[j] {
      if j != k { NotThere(h, lists, x, j); }
      NotThere(h, lists, y, j);
    }
    forall j, z | 0 <= j < ORDERS && z in after[j] ensures z in blocks && z !in h.live && blocks[z] == j {
      if z != x && z != y { InList(h, lists, z, j); }
    }
  }

  // Who is in which list after a split
  lemma HalvedHas(lists: seq<seq<nat>>, k: nat, x: nat, y: nat)
    requires 0 < k < |lists| && lists[k] != [] && x == lists[k][0] && y == x + Size(k - 1) && x != y
      && x !in lists[k][1..]
    ensures |HalvedLists(lists, k)| == |lists|
    ensures x in HalvedLists(lists, k)[k - 1] && y in HalvedLists(lists, k)[k - 1] && x !in HalvedLists(lists, k)[k]
    ensures forall j, z | 0 <= j < |lists| && z != x && z != y :: z in HalvedLists(lists, k)[j] <==> z in lists[j]
    ensures forall j | 0 <= j < |lists| && j != k && j != k - 1 :: HalvedLists(lists, k)[j] == lists[j]
    ensures forall j | 0 <= j < |lists| && j != k - 1 && y in HalvedLists(lists, k)[j] :: y in lists[j]
  {
    hide Size;
    var after := HalvedLists(lists, k);
    assert lists[k] == [x] + lists[k][1..];
    assert after[k] == lists[k][1..] && after[k - 1] == [x, y] + lists[k - 1];
    assert x in [x, y] && y in [x, y];
  }

  lemma SplitHeaders(s1: Store, lists: seq<seq<nat>>, h: Heap, x: nat, y: nat, k: nat)
    requires |s1.free| == ORDERS && 5 < k < ORDERS && |lists| == ORDERS && Filed(h, lists) && lists[k] != []
      && x == lists[k][0]
    requires Lists(s1, lists[k := lists[k][1..]]) && LiveHeaders(s1, h) && HugeHeaders(s1, h)
    requires x in h.blocks && x !in h.live && y !in h.blocks && y == x + Size(k - 1)
    requires Tiling(h.blocks, h.pages) && Regions(h) && Tiling(SplitBlocks(h.blocks, x, k), h.pages)
    ensures |Push(s1, k - 1, y).free| == ORDERS
    ensures LiveHeaders(Push(Push(s1, k - 1, y), k - 1, x), h.(blocks := SplitBlocks(h.blocks, x, k)))
    ensures HugeHeaders(Push(Push(s1, k - 1, y), k - 1, x), h.(blocks := SplitBlocks(h.blocks, x, k)))
  {
    hide Tiling, Push, Lists, Regions, Size;
    var h1 := h.(blocks := SplitBlocks(h.blocks, x, k));
    RegionsSame(h, h1);
    assert LiveHeaders(s1, h1) && HugeHeaders(s1, h1);
    HugeNot(h1, x);
    HugeNot(h1, y);
    assert y !in h.live;
    HeadFree(s1, lists[k := lists[k][1..]], h, k - 1);
    PushHeaders(s1, h1, k - 1, y);
    PushIsFirst(s1, k - 1, y);
    PushHeaders(Push(s1, k - 1, y), h1, k - 1, x);
  }

  lemma HugeNot(h: Heap, x: nat)
    requires Tiling(h.blocks, h.pages) && Regions(h) && x in h.blocks
    ensures x !in h.huge
  {
    if x in h.huge { HugeNotBlock(h, x); }
  }

  lemma PushIsFirst(s: Store, k: nat, x: nat)
    requires k < |s.free|
    ensures |Push(s, k, x).free| == |s.free| && Push(s, k, x).free[k] == x
  {}

  // The first header of a free list is neither live nor large.
  predicate HeadClear(s: Store, h: Heap, k: nat)
    requires k < |s.free|
  {
    s.free[k] == 0 || (s.free[k] !in h.live && s.free[k] !in h.huge)
  }

  lemma HeadFree(s: Store, lists: seq<seq<nat>>, h: Heap, k: nat)
    requires |s.free| == ORDERS && |lists| == ORDERS && Lists(s, lists) && k < ORDERS
    requires forall x | x in lists[k] :: x in h.blocks && x !in h.live
    requires Tiling(h.blocks, h.pages) && Regions(h)
    ensures HeadClear(s, h, k)
  {
    hide Tiling, Regions;
    assert Chain(s, k, lists[k]);
    if lists[k] != [] {
      assert lists[k][0] in lists[k];
      HugeNot(h, lists[k][0]);
    }
  }

  // insert() writes its header and the `prev` of the header that was first.
  lemma PushHeaders(s: Store, h: Heap, k: nat, x: nat)
    requires k < |s.free| && LiveHeaders(s, h) && HugeHeaders(s, h) && x !in h.live && x !in h.huge
    requires HeadClear(s, h, k)
    ensures LiveHeaders(Push(s, k, x), h) && HugeHeaders(Push(s, k, x), h)
  {}

  // Two free buddies become one block, which is not merged further.
  function Merged(s: Store, x: nat, y: nat, k: nat): Store {
    Push(Unlink(s, y), k + 1, Lower(x, y))
  }

  function MergedLists(lists: seq<seq<nat>>, k: nat, i: nat, low: nat): seq<seq<nat>>
    requires k + 1 < |lists| && i < |lists[k]|
  {
    lists[k := Without(lists[k], i)][k + 1 := [low] + lists[k + 1]]
  }

  lemma MergeKeeps(s: Store, lists: seq<seq<nat>>, h: Heap, x: nat, y: nat, i: nat)
    requires Consistent(s, lists, h) && x in h.live && h.blocks[x] < 12 && y == Buddy(x, h.blocks[x])
    requires i < |lists[h.blocks[x]]| && lists[h.blocks[x]][i] == y
    ensures var k := h.blocks[x];
      && y in s.hdrs
      && Consistent(Merged(s, x, y, k), MergedLists(lists, k, i, Lower(x, y)),
                    h.(blocks := MergeBlocks(h.blocks, x, y, k), live := h.live - {x}))
  {
    hide Tiling, Unlink, Push, Lists, Regions, MergeBlocks, LiveHeaders, HugeHeaders, Buddy, Without;
    var k := h.blocks[x];
    assert y in lists[k];
    OwnOrder(s, lists, k, y);
    var s1, lists1 := Unlink(s, y), lists[k := Without(lists[k], i)];
    UnlinkKeeps(s, lists, h, k, i);
    UnlinkLists(s, lists, k, i);
    MergeTiling(h.blocks, h.pages, x, y);
    BlockNotZero(h, x);
    BlockNotZero(h, y);
    WithoutIs(s, lists, k, i);
    MergeListed(h, lists, x, y, i);
    assert lists1[k + 1] == lists[k + 1];
    PushLists(s1, lists1, k + 1, Lower(x, y));
    MergeFiled(h, lists, x, y, i);
    var h1 := h.(blocks := MergeBlocks(h.blocks, x, y, k), live := h.live - {x});
    HugeNot(h, x);
    HugeNot(h, y);
    MergedLive(s1, h, x, y, k);
    HeadFree(s1, lists1, h, k + 1);
    PushHeaders(s1, h1, k + 1, Lower(x, y));
    RegionsSame(h, h1);
  }

  lemma WithoutIs(s: Store, lists: seq<seq<nat>>, k: nat, i: nat)
    requires Lists(s, lists) && k < ORDERS && i < |lists[k]|
    ensures forall z :: z in Without(lists[k], i) <==> z in lists[k] && z != lists[k][i]
  {
    hide Without;
    assert Chain(s, k, lists[k]);
    WithoutHas(lists[k], i);
  }

  lemma WithoutHas(l: seq<nat>, i: nat)
    requires i < |l| && forall a, b | 0 <= a < b < |l| :: l[a] != l[b]
    ensures forall z :: z in Without(l, i) <==> z in l && z != l[i]
  {
    forall z | z in l && z != l[i] ensures z in Without(l, i) {
      var j :| 0 <= j < |l| && l[j] == z;
      if j < i { assert Without(l, i)[j] == z; } else { assert Without(l, i)[j - 1] == z; }
    }
  }

  lemma MergeListed(h: Heap, lists: seq<seq<nat>>, x: nat, y: nat, i: nat)
    requires |lists| == ORDERS && Filed(h, lists) && x in h.live && h.blocks[x] < 12
    requires i < |lists[h.blocks[x]]| && lists[h.blocks[x]][i] == y
    requires forall z :: z in Without(lists[h.blocks[x]], i) <==> z in lists[h.blocks[x]] && z != y
    ensures !Listed(lists[h.blocks[x] := Without(lists[h.blocks[x]], i)], Lower(x, y))
  {
    hide Without;
    var k := h.blocks[x];
    assert y in lists[k];
    var lists1 := lists[k := Without(lists[k], i)];
    forall j | 0 <= j < ORDERS ensures x !in lists1[j] && y !in lists1[j] {
      if j != k {
        assert lists1[j] == lists[j];
        NotThere(h, lists, y, j);
      }
      NotThere(h, lists, x, j);
    }
  }

  lemma MergeFiled(h: Heap, lists: seq<seq<nat>>, x: nat, y: nat, i: nat)
    requires |lists| == ORDERS && Filed(h, lists) && x in h.live && h.blocks[x] < 12
    requires i < |lists[h.blocks[x]]| && lists[h.blocks[x]][i] == y
    requires forall z :: z in Without(lists[h.blocks[x]], i) <==> z in lists[h.blocks[x]] && z != y
    ensures var k := h.blocks[x];
      Filed(h.(blocks := MergeBlocks(h.blocks, x, y, k), live := h.live - {x}), MergedLists(lists, k, i, Lower(x, y)))
  {
    hide Without;
    var k := h.blocks[x];
    InList(h, lists, y, k);
    var low := Lower(x, y);
    var after := MergedLists(lists, k, i, low);
    var h1 := h.(blocks := MergeBlocks(h.blocks, x, y, k), live := h.live - {x});
    forall z | z in h1.blocks && z !in h1.live ensures h1.blocks[z] < ORDERS && z in after[h1.blocks[z]] {
      if z != low { assert z in lists[h.blocks[z]]; }
    }
    forall j | 0 <= j < ORDERS && j != k + 1 ensures low !in after[j] {
      NotThere(h, lists, x, j);
      if j != k { NotThere(h, lists, y, j); }
    }
    forall j, z | 0 <= j < ORDERS && z in after[j] ensures z in h1.blocks && z !in h1.live && h1.blocks[z] == j {
      if z != low {
        assert z in lists[j];
        InList(h, lists, z, j);
      }
    }
  }

  lemma MergedLive(s1: Store, h: Heap, x: nat, y: nat, k: nat)
    requires LiveHeaders(s1, h) && HugeHeaders(s1, h) && x in h.live && y !in h.live
    ensures var h1 := h.(blocks := MergeBlocks(h.blocks, x, y, k), live := h.live - {x});
      LiveHeaders(s1, h1) && HugeHeaders(s1, h1) && Lower(x, y) !in h1.live
  {}

  lemma NewPageKeeps(s: Store, lists: seq<seq<nat>>, h: Heap, p: nat)
    requires Consistent(s, lists, h) && Fresh(h, p, PAGE)
    ensures Consistent(Push(s, 12, p), lists[12 := [p] + lists[12]],
      h.(blocks := h.blocks[p := 12], pages := h.pages + {p}))
    ensures p !in h.blocks
  {
    hide Tiling, Push, Lists, LiveHeaders, HugeHeaders, Aligned;
    FreshPage(h, p);
    PageTiling(h.blocks, h.pages, p);
    NotListed(h, lists, p);
    PushLists(s, lists, 12, p);
    HeadFree(s, lists, h, 12);
    assert p !in h.live;
    PushHeaders(s, h, 12, p);
    NewPageHeaders(Push(s, 12, p), h, p);
    NewPageFiled(h, lists, p);
  }

  lemma FreshPage(h: Heap, p: nat)
    requires Regions(h) && Fresh(h, p, PAGE)
    ensures p !in h.pages && p !in h.huge && Regions(h.(pages := h.pages + {p}))
  {}

  lemma NewPageHeaders(t: Store, h: Heap, p: nat)
    requires LiveHeaders(t, h) && HugeHeaders(t, h) && p !in h.blocks
    ensures var h1 := h.(blocks := h.blocks[p := 12], pages := h.pages + {p}); LiveHeaders(t, h1) && HugeHeaders(t, h1)
  {}

  lemma NewPageFiled(h: Heap, lists: seq<seq<nat>>, p: nat)
    requires |lists| == ORDERS && Filed(h, lists) && p !in h.blocks
    ensures Filed(h.(blocks := h.blocks[p := 12], pages := h.pages + {p}), lists[12 := [p] + lists[12]])
  {}

  lemma HugeKeeps(s: Store, lists: seq<seq<nat>>, h: Heap, x: nat, n: nat)
    requires Consistent(s, lists, h) && Fresh(h, x, n)
    ensures Consistent(Store(s.free, s.hdrs[x := Hdr(n, Nowhere, HUGE)]), lists, h.(huge := h.huge[x := n]))
      && x !in h.huge
  {
    hide Tiling, Lists, Filed, LiveHeaders, HugeHeaders, Regions, Fresh;
    var h1 := h.(huge := h.huge[x := n]);
    HugeRegions(h, x, n);
    HugeNotBlock(h1, x);
    FiledSame(h, h1, lists);
    HugeWritten(s, h, x, n);
    NotListed(h, lists, x);
    OutsideLists(s, lists, x, Hdr(n, Nowhere, HUGE));
  }

  lemma FiledSame(h: Heap, g: Heap, lists: seq<seq<nat>>)
    requires |lists| == ORDERS && Filed(h, lists) && g.blocks == h.blocks && g.live == h.live
    ensures Filed(g, lists) && h.live <= h.blocks.Keys
  {}

  lemma HugeRegions(h: Heap, x: nat, n: nat)
    requires Regions(h) && Fresh(h, x, n)
    ensures Regions(h.(huge := h.huge[x := n])) && x !in h.huge
  {
    hide Aligned;
  }

  lemma HugeWritten(s: Store, h: Heap, x: nat, n: nat)
    requires LiveHeaders(s, h) && HugeHeaders(s, h) && x !in h.blocks
    ensures var t, g := Store(s.free, s.hdrs[x := Hdr(n, Nowhere, HUGE)]), h.(huge := h.huge[x := n]);
      LiveHeaders(t, g) && HugeHeaders(t, g)
  {}

  lemma UnhugeKeeps(s: Store, lists: seq<seq<nat>>, h: Heap, x: nat)
    requires Consistent(s, lists, h) && x in h.huge
    ensures Consistent(s, lists, h.(huge := h.huge - {x}))
  {
    hide Tiling, Lists, Aligned;
  }

  // ----- what the invariant means for the caller -----

  // Two allocations never share a byte, and none leaves its page.
  lemma AllocationsApart(s: Store, lists: seq<seq<nat>>, h: Heap, x: nat, y: nat)
    requires Consistent(s, lists, h) && x in h.live && y in h.live && x != y
    ensures x in h.blocks && y in h.blocks && Apart(x, Size(h.blocks[x]), y, Size(h.blocks[y]))
    ensures forall b | x <= b < x + Size(h.blocks[x]) :: Floor(b, 12) == Floor(x, 12) && Floor(x, 12) in h.pages
  {
    hide Lists, HugeHeaders, Regions, Full, Size, Floor, Aligned;
    var m, n := Size(h.blocks[x]), Size(h.blocks[y]);
    SizePositive(h.blocks[x]);
    SizePositive(h.blocks[y]);
    var b := if x < y then y else x;
    assert !(Covers(h.blocks, x, b) && Covers(h.blocks, y, b));
    assert Tile(x, h.blocks[x], h.pages);
    forall b | x <= b < x + m ensures Floor(b, 12) == Floor(x, 12) {
      TileInPage(x, h.blocks[x], h.pages, b);
    }
  }

  // What a program writes into its blocks may look like a header; as long as the headers
  // of the blocks stay, the allocator is not misled.
  lemma ScribbleKeeps(s: Store, lists: seq<seq<nat>>, h: Heap, x: nat, junk: Hdr)
    requires Consistent(s, lists, h) && x !in h.blocks && x !in h.huge
    ensures Consistent(Store(s.free, s.hdrs[x := junk]), lists, h)
  {
    hide Lists, Regions, Tiling;
    NotListed(h, lists, x);
    OutsideLists(s, lists, x, junk);
  }

  // The bytes that pages provide are all accounted for: each belongs to exactly one block,
  // which is live or in the free list of its order.
  lemma EveryByteOnce(s: Store, lists: seq<seq<nat>>, h: Heap, b: nat) returns (x: nat)
    requires Consistent(s, lists, h) && Floor(b, 12) in h.pages
    ensures Covers(h.blocks, x, b) && forall y | Covers(h.blocks, y, b) :: y == x
    ensures x in h.live || (h.blocks[x] < |lists| && x in lists[h.blocks[x]])
  {
    hide Lists, Regions, Size, Floor;
    x := TheBlock(h.blocks, h.pages, b);
    CoversStart(h.blocks, x, b);
  }

  // ----- the allocator -----

  datatype Got = At(ptr: nat) | Null | Overrun

  datatype Freed = Returned | Unmapped(addr: nat, size: nat) | Ignored | PastTheLists

  // ----- where free() runs past its lists -----

  const NO_LISTS: seq<seq<nat>> := [[], [], [], [], [], [], [], [], [], [], [], [], []]
  const NO_HEADS: seq<nat> := [0, 0, 0, 0, 0, 0, 0, 0, 0, 0, 0, 0, 0]

  lemma NothingYet()
    ensures Consistent(Store(NO_HEADS, map[]), NO_LISTS, Heap(map[], {}, {}, map[]))
  {
    hide Floor, Size, Aligned;
  }

  // The kernel grants two pages that are buddies; the first is handed out whole, the
  // second is free. Freeing the first makes the code index its lists with 13.
  lemma TwoPages(p: nat) returns (s: Store, lists: seq<seq<nat>>, h: Heap)
    requires p > 0 && Aligned(p, 13)
    ensures Consistent(s, lists, h) && WholePage(h, p) && LooksFree(s.hdrs, Buddy(p, 12), 12)
  {
    hide Consistent, Push, Taken, Size, Aligned, Buddy;
    NothingYet();
    s, lists, h := Store(NO_HEADS, map[]), NO_LISTS, Heap(map[], {}, {}, map[]);
    var q := Neighbour(p);
    s, lists, h := Granted(s, lists, h, q);
    s, lists, h := Granted(s, lists, h, p);
    TakeKeeps(s, lists, h, 12);
    var t := Taken(s, p, 12);
    h := h.(live := h.live + {p});
    lists := lists[12 := lists[12][1..]];
    s := t;
    StillFree(s, lists, h, q);
  }

  lemma Neighbour(p: nat) returns (q: nat)
    requires p > 0 && Aligned(p, 13)
    ensures q == p + PAGE == Buddy(p, 12) && Aligned(p, 12) && Aligned(q, 12)
  {
    hide Buddy;
    q := p + PAGE;
    AlignedLess(p, 12, 13);
    BuddyMoves(p, 12);
    Sizes();
  }

  lemma Granted(s: Store, lists: seq<seq<nat>>, h: Heap, p: nat) returns (s': Store, lists': seq<seq<nat>>, h': Heap)
    requires Consistent(s, lists, h) && Fresh(h, p, PAGE)
    ensures |lists| == ORDERS && |lists'| == ORDERS && Consistent(s', lists', h') && lists'[12] == [p] + lists[12]
    ensures h' == h.(blocks := h.blocks[p := 12], pages := h.pages + {p})
  {
    hide Push, Size, Aligned;
    NewPageKeeps(s, lists, h, p);
    s', lists' := Push(s, 12, p), lists[12 := [p] + lists[12]];
    h' := h.(blocks := h.blocks[p := 12], pages := h.pages + {p});
  }

  lemma StillFree(s: Store, lists: seq<seq<nat>>, h: Heap, q: nat)
    requires Consistent(s, lists, h) && q in h.blocks && q !in h.live && h.blocks[q] == 12
    ensures LooksFree(s.hdrs, q, 12)
  {
    OwnOrder(s, lists, 12, q);
  }

  predicate HasHuge(flags: nat) {
    flags / 16 % 2 == 1
  }

  // flags & ~_FREE
  function ClearFree(flags: nat): nat {
    if flags / 32 % 2 == 1 then flags - 32 else flags
  }

  class Allocator {
    const free: array<nat>
    var hdrs: map<nat, Hdr>
    ghost var lists: seq<seq<nat>>
    ghost var heap: Heap

    ghost function St(): Store
      reads this, free
    {
      Store(free[..], hdrs)
    }

    ghost predicate Valid()
      reads this, free
    {
      free.Length == ORDERS && Consistent(St(), lists, heap)
    }

    // clear_free
    constructor ()
      ensures Valid() && fresh(free) && heap == Heap(map[], {}, {}, map[])
    {
      free := new nat[ORDERS](_ => 0);
      hdrs := map[];
      heap := Heap(map[], {}, {}, map[]);
      lists := seq(ORDERS, _ => []);
    }

    method Insert(order: nat, x: nat)
      requires order < free.Length && (free[order] == 0 || free[order] == x || free[order] in hdrs)
      modifies this`hdrs, free
      ensures St() == Push(old(St()), order, x)
    {
      var first := free[order];
      hdrs := hdrs[x := Hdr(first, Head(order), FREE + order)];
      free[order] := x;
      if first != 0 {
        hdrs := hdrs[first := hdrs[first].(prev := NextOf(x))];
      }
    }

    method Split(index: nat)
      requires Valid() && 5 < index < ORDERS && free[index] != 0
      modifies this`hdrs, this`lists, this`heap, free
      ensures Valid() && free[index - 1] == old(free[index])
      ensures old(free[index]) in old(heap.blocks) && old(free[index]) !in old(heap.live)
      ensures old(heap.blocks[free[index]]) == index
      ensures heap == old(heap).(blocks := SplitBlocks(old(heap.blocks), old(free[index]), index))
      ensures SameOrders(old(heap), heap)
    {
      hide Consistent, SplitBlocks, Halved, HalvedLists, SameOrders;
      ghost var s, l, h := St(), lists, heap;
      Lengths(s, l, h);
      SplitReady(s, l, h, index);
      SplitKeeps(s, l, h, index);
      SelfOrders(s, l, h);
      SplitOrders(h, free[index], index);
      var tmp := free[index];
      var tmp2 := tmp + Size(index - 1);
      free[index] := hdrs[tmp].next;
      if hdrs[tmp].next != 0 {
        hdrs := hdrs[hdrs[tmp].next := hdrs[hdrs[tmp].next].(prev := Head(index))];
      }
      hdrs := hdrs[tmp := hdrs[tmp].(next := tmp2)];
      hdrs := hdrs[tmp2 := Hdr(free[index - 1], NextOf(tmp), FREE + (index - 1))];
      if hdrs[tmp2].next != 0 {
        hdrs := hdrs[hdrs[tmp2].next := hdrs[hdrs[tmp2].next].(prev := NextOf(tmp2))];
      }
      free[index - 1] := tmp;
      hdrs := hdrs[tmp := Hdr(hdrs[tmp].next, Head(index - 1), FREE + (index - 1))];
      SplitWrites(s, St(), tmp, tmp2, index);
      heap := heap.(blocks := SplitBlocks(heap.blocks, tmp, index));
      lists := HalvedLists(lists, index);
    }

    // `grant` is what sendpage() returns if it is asked for memory: 0, or the address of
    // pages that are new. Without a free block of the order or a larger one it is asked.
    method Malloc(size: nat, grant: nat) returns (r: Got)
      requires Valid() && size + HEADER + PAGE <= WORD
      requires grant == 0 || Fresh(heap, grant, if size + HEADER > PAGE then AlignUp(size + HEADER) else PAGE)
      modifies this`hdrs, this`lists, this`heap, free
      ensures r == Overrun <==> size + HEADER == PAGE && grant != 0
      ensures r == Null <==> grant == 0 && (size + HEADER >= PAGE || Exhausted(old(heap), Bits(size + HEADER)))
      ensures r == Null ==> heap == old(heap)
      ensures r != Overrun ==> Valid()
      ensures r.At? && size + HEADER > PAGE ==>
        r.ptr == grant + HEADER && heap == old(heap).(huge := old(heap.huge)[grant := AlignUp(size + HEADER)])
      ensures r.At? && size + HEADER < PAGE ==>
        var x := r.ptr - HEADER;
        && r.ptr >= HEADER && x in heap.blocks && x !in old(heap.live) && heap.live == old(heap.live) + {x}
        && heap.blocks[x] == Bits(size + HEADER) && Size(heap.blocks[x]) > size + HEADER
        && heap.huge == old(heap.huge) && SameOrders(old(heap), heap)
        && heap.pages ==
          (if Exhausted(old(heap), Bits(size + HEADER)) then old(heap.pages) + {grant} else old(heap.pages))
    {
      hide Consistent, Fresh, Size, Bits, Tiling, Taken, Unlink, Push, SameOrders;
      SelfOrders(St(), lists, heap);
      ghost var h := heap;
      var newSize := size + HEADER;
      if newSize > PAGE {
        newSize := AlignUp(newSize);
        if grant == 0 {
          return Null;
        }
        HugeKeeps(St(), lists, heap, grant, newSize);
        hdrs := hdrs[grant := Hdr(newSize, Nowhere, HUGE)];
        heap := heap.(huge := heap.huge[grant := newSize]);
        return At(grant + HEADER);
      }
      OrderInRange(newSize);
      BitsBound(newSize);
      var order := Bits(newSize);
      var xorder := order;
      while xorder < 13 && free[xorder] == 0
        invariant order <= xorder <= 13 && forall k | order <= k < xorder :: free[k] == 0
      {
        xorder := xorder + 1;
      }
      EmptyLists(St(), lists, heap, order, xorder);
      if xorder >= 13 {
        if grant == 0 {
          return Null;
        }
        NewPageKeeps(St(), lists, heap, grant);
        Lengths(St(), lists, heap);
        HeadReady(St(), lists, heap, 12);
        PushIsFirst(St(), 12, grant);
        Insert(12, grant);
        lists := lists[12 := [grant] + lists[12]];
        heap := heap.(blocks := heap.blocks[grant := 12], pages := heap.pages + {grant});
        PageOrders(h, grant);
        xorder := 12;
      }
      if order == 13 {
        return Overrun;
      }
      ghost var start := heap;
      while xorder > order
        invariant order <= xorder < 13 && Valid() && free[xorder] != 0
        invariant heap.live == start.live && heap.pages == start.pages && heap.huge == start.huge
        invariant SameOrders(h, heap)
      {
        ghost var before := heap;
        Split(xorder);
        SameOrdersStep(h, before, heap);
        xorder := xorder - 1;
      }
      LiveOrders(h, heap, heap.live + {free[order]});
      r := TakeFirst(order);
    }

    // The end of malloc: the first block of the list is handed out.
    method TakeFirst(order: nat) returns (r: Got)
      requires Valid() && order < ORDERS && free[order] != 0
      modifies this`hdrs, this`lists, this`heap, free
      ensures Valid() && r == At(old(free[order]) + HEADER)
      ensures old(free[order]) in old(heap.blocks) && old(heap.blocks[free[order]]) == order
      ensures old(free[order]) !in old(heap.live) && heap == old(heap).(live := old(heap.live) + {old(free[order])})
    {
      hide Consistent, Taken, Unlink;
      ghost var s := St();
      Lengths(s, lists, heap);
      HeadReady(s, lists, heap, order);
      TakeKeeps(s, lists, heap, order);
      var x := free[order];
      hdrs := hdrs[x := hdrs[x].(flags := ClearFree(hdrs[x].flags))];
      free[order] := hdrs[x].next;
      if hdrs[x].next != 0 {
        hdrs := hdrs[hdrs[x].next := hdrs[hdrs[x].next].(prev := Head(order))];
      }
      hdrs := hdrs[x := hdrs[x].(prev := Nowhere)];
      hdrs := hdrs[x := hdrs[x].(next := 0)];
      TakeWrites(s, St(), x, order);
      heap := heap.(live := heap.live + {x});
      lists := lists[order := lists[order][1..]];
      return At(x + HEADER);
    }

    // An order-12 block makes free() look outside its page, at memory that must be readable.
    method Free(ptr: nat) returns (r: Freed)
      requires Valid() && (ptr == 0 || (ptr >= HEADER && Known(heap, ptr - HEADER)))
      requires ptr != 0 && WholePage(heap, ptr - HEADER) ==> Buddy(ptr - HEADER, 12) in hdrs
      modifies this`hdrs, this`lists, this`heap, free
      ensures r != PastTheLists ==> Valid()
      ensures r == PastTheLists <==>
        ptr != 0 && WholePage(old(heap), ptr - HEADER) && LooksFree(old(hdrs), Buddy(ptr - HEADER, 12), 12)
      ensures r == Ignored <==> ptr == 0 || (ptr - HEADER in old(heap.blocks) && ptr - HEADER !in old(heap.live))
      ensures r == Ignored ==> St() == old(St()) && heap == old(heap)
      ensures r.Unmapped? <==> ptr != 0 && ptr - HEADER in old(heap.huge)
      ensures r.Unmapped? ==> r.addr == ptr - HEADER && r.addr in old(heap.huge) && r.size == old(heap.huge)[r.addr]
      ensures r.Unmapped? ==> heap == old(heap).(huge := old(heap.huge) - {r.addr})
      ensures r == Returned ==> ptr >= HEADER && heap == Released(old(heap), ptr - HEADER)
      ensures r == Returned ==> ptr - HEADER in old(heap.live) && GivenBack(old(heap), heap, ptr - HEADER)
    {
      hide Consistent, Buddy, Unlink, Push, MergeBlocks, Without, GivenBack;
      ghost var h := heap;
      if ptr == 0 {
        return Ignored;
      }
      var x := ptr - HEADER;
      ghost var s := St();
      Lengths(s, lists, heap);
      HeaderOf(s, lists, heap, x);
      if HasHuge(hdrs[x].flags) {
        UnhugeKeeps(s, lists, heap, x);
        heap := heap.(huge := heap.huge - {x});
        return Unmapped(x, hdrs[x].next);
      }
      if hdrs[x].flags > 12 {
        return Ignored;
      }
      var k := hdrs[x].flags;
      var buddy := Buddy(x, k);
      BuddyAt(s, lists, heap, x);
      NotOwnBuddy(s, lists, heap, x);
      if hdrs[buddy].flags == FREE + k {
        if k + 1 >= ORDERS {
          return PastTheLists;
        }
        MergeBack(x, buddy, k);
      } else {
        FreeKeeps(s, lists, heap, x);
        HeadReady(s, lists, heap, k);
        Insert(k, x);
        lists := lists[k := [x] + lists[k]];
        heap := heap.(live := heap.live - {x});
      }
      ReleasedIs(h, x);
      return Returned;
    }

    // The buddy leaves its list and the two become one block of the next order.
    method MergeBack(x: nat, buddy: nat, k: nat)
      requires Valid() && x in heap.live && x in heap.blocks && heap.blocks[x] == k && k < 12
      requires buddy == Buddy(x, k) && FreeBlock(heap, buddy, k)
      modifies this`hdrs, this`lists, this`heap, free
      ensures Valid()
      ensures heap == old(heap).(live := old(heap.live) - {x}, blocks := MergeBlocks(old(heap.blocks), x, buddy, k))
    {
      hide Consistent, Buddy, Unlink, Push, MergeBlocks, Without;
      ghost var s := St();
      Lengths(s, lists, heap);
      ghost var i := PlaceOf(s, lists, heap, buddy, k);
      MergeKeeps(s, lists, heap, x, buddy, i);
      UnlinkReady(s, lists, heap, k, i);
      UnlinkHeader(buddy);
      UnlinkedHead(s, lists, heap, k, i);
      var newHdr := if buddy < x then buddy else x;
      Insert(k + 1, newHdr);
      heap := heap.(live := heap.live - {x}, blocks := MergeBlocks(heap.blocks, x, buddy, k));
      lists := MergedLists(lists, k, i, newHdr);
    }

    // A header leaves the list it is in.
    method UnlinkHeader(x: nat)
      requires free.Length == ORDERS && Reachable(St(), x)
      modifies this`hdrs, free
      ensures St() == Unlink(old(St()), x)
    {
      var next, prev := hdrs[x].next, hdrs[x].prev;
      match prev {
        case Head(o) => free[o] := next;
        case NextOf(h) => hdrs := hdrs[h := hdrs[h].(next := next)];
        case Nowhere =>
      }
      if next != 0 {
        hdrs := hdrs[next := hdrs[next].(prev := prev)];
      }
      assert free[..] == Unlink(old(St()), x).free;
    }
  }

  // Addresses free() may be given: a live block, a large allocation, or a block freed before
  predicate Known(h: Heap, x: nat) {
    x in h.blocks || x in h.huge
  }

  predicate WholePage(h: Heap, x: nat) {
    x in h.live && x in h.blocks && h.blocks[x] == 12
  }

  predicate LooksFree(hdrs: map<nat, Hdr>, y: nat, k: nat) {
    y in hdrs && hdrs[y].flags == FREE + k
  }

  // The block is free again, as one with its buddy if that was free at the same order.
  function Released(h: Heap, x: nat): Heap {
    if x !in h.blocks then h
    else if FreeBlock(h, Buddy(x, h.blocks[x]), h.blocks[x]) then
      h.(live := h.live - {x}, blocks := MergeBlocks(h.blocks, x, Buddy(x, h.blocks[x]), h.blocks[x]))
    else h.(live := h.live - {x})
  }

  // What that comes to: the block and a buddy that was free at its order are one free block
  // of the next order, at the lower address; otherwise the blocks are what they were. All
  // other blocks, and all other allocations, stay.
  ghost predicate GivenBack(h: Heap, g: Heap, x: nat) {
    && x in h.blocks && g.live == h.live - {x} && g.pages == h.pages && g.huge == h.huge
    && var y := Buddy(x, h.blocks[x]);
       if !FreeBlock(h, y, h.blocks[x]) then g.blocks == h.blocks
       else
         && (if x < y then y else x) !in g.blocks && FreeBlock(g, if x < y then x else y, h.blocks[x] + 1)
         && (forall z | z != x && z != y :: z in g.blocks <==> z in h.blocks)
         && (forall z | z != x && z != y && z in h.blocks :: g.blocks[z] == h.blocks[z])
  }

  lemma ReleasedIs(h: Heap, x: nat)
    requires x in h.blocks && x in h.live && (h.blocks[x] < 12 ==> Buddy(x, h.blocks[x]) != x)
    requires FreeBlock(h, Buddy(x, h.blocks[x]), h.blocks[x]) ==> h.blocks[x] < 12
    ensures GivenBack(h, Released(h, x), x)
  {
    hide Buddy;
  }

  lemma HalvesAreBuddies(blocks: map<nat, nat>, pages: set<nat>, x: nat)
    requires Tiling(blocks, pages) && x in blocks && blocks[x] > 5
    ensures var k := blocks[x] - 1; Buddy(x, k) == x + Size(k) && Buddy(x + Size(k), k) == x
  {
    hide Buddy, Size, Aligned, Full, Single, Floor;
    var k := blocks[x] - 1;
    assert Tile(x, blocks[x], pages);
    AlignedLess(x, k, k + 1);
    BuddyMoves(x, k);
    BuddyBack(x, k);
  }

  lemma NotOwnBuddy(s: Store, lists: seq<seq<nat>>, h: Heap, x: nat)
    requires Consistent(s, lists, h) && x in h.blocks
    ensures h.blocks[x] < 12 ==> Buddy(x, h.blocks[x]) != x
  {
    hide Buddy, Tiling, Lists, Regions;
    if h.blocks[x] < 12 { BuddyIsStart(h.blocks, h.pages, x); }
  }

  // The block at x is split, and the half at z is handed out.
  function SplitOff(h: Heap, x: nat, k: nat, z: nat): Heap
    requires k > 0
  {
    h.(blocks := SplitBlocks(h.blocks, x, k), live := h.live + {z})
  }

  // Either half, split off last and given back, makes the larger block again.
  lemma FreeUndoesSplit(s: Store, lists: seq<seq<nat>>, h: Heap, x: nat, k: nat, z: nat)
    requires Consistent(s, lists, h) && x in h.blocks && x !in h.live && h.blocks[x] == k && k > 5
    requires z == x || z == x + Size(k - 1)
    ensures Released(SplitOff(h, x, k, z), z) == h
  {
    hide Buddy, Size, Lists, Regions, LiveHeaders, HugeHeaders, Tiling;
    var y := x + Size(k - 1);
    HalvesAreBuddies(h.blocks, h.pages, x);
    SplitTiling(h.blocks, h.pages, x);
    SizePositive(k - 1);
    assert y !in h.live;
    assert SplitBlocks(h.blocks, x, k) - {x, y} == h.blocks - {x};
    assert (h.blocks - {x})[x := k] == h.blocks;
    assert h.live + {z} - {z} == h.live;
  }

  predicate FreeBlock(h: Heap, y: nat, k: nat) {
    y in h.blocks && y !in h.live && h.blocks[y] == k
  }

  // No block of the order or a larger one is free.
  predicate Exhausted(h: Heap, order: nat) {
    forall x | x in h.blocks && x !in h.live :: h.blocks[x] < order
  }

  // The blocks handed out before keep their orders.
  predicate SameOrders(h: Heap, g: Heap) {
    forall x | x in h.live :: x in h.blocks && x in g.blocks && g.blocks[x] == h.blocks[x]
  }

  lemma Lengths(s: Store, lists: seq<seq<nat>>, h: Heap)
    requires Consistent(s, lists, h)
    ensures |s.free| == ORDERS && |lists| == ORDERS
  {}

  // What split() relies on: the headers it follows are there, and are different ones.
  predicate Splittable(s: Store, x: nat, y: nat, k: nat)
    requires 0 < k < |s.free|
  {
    && x == s.free[k] && x in s.hdrs && s.hdrs[x].prev == Head(k) && y > x
    && Linkable(s, s.hdrs[x].next, x, y) && Linkable(s, s.free[k - 1], x, y)
    && (s.free[k - 1] != 0 ==> s.free[k - 1] != s.hdrs[x].next)
  }

  predicate Linkable(s: Store, n: nat, x: nat, y: nat) {
    n != 0 ==> n in s.hdrs && n != x && n != y
  }

  lemma SplitReady(s: Store, lists: seq<seq<nat>>, h: Heap, k: nat)
    requires Consistent(s, lists, h) && |s.free| == ORDERS && |lists| == ORDERS && 5 < k < ORDERS && s.free[k] != 0
    ensures lists[k] != [] && lists[k][0] == s.free[k]
    ensures Splittable(s, s.free[k], s.free[k] + Size(k - 1), k)
    ensures s.free[k] in h.blocks && s.free[k] !in h.live && h.blocks[s.free[k]] == k
  {
    hide Tiling, Filed, LiveHeaders, HugeHeaders, Regions, Lists, Chain, Size;
    var x := s.free[k];
    ListHead(s, lists, k);
    InList(h, lists, x, k);
    ListHead(s, lists, k - 1);
    NotThere(h, lists, x, k - 1);
    SplitTiling(h.blocks, h.pages, x);
    SizePositive(k - 1);
    if lists[k - 1] != [] { InList(h, lists, lists[k - 1][0], k - 1); NotThere(h, lists, lists[k - 1][0], k); }
    if s.hdrs[x].next != 0 { InList(h, lists, s.hdrs[x].next, k); }
  }

  // The head of a list and the header after it
  lemma ListHead(s: Store, lists: seq<seq<nat>>, k: nat)
    requires |s.free| == ORDERS && |lists| == ORDERS && Lists(s, lists) && k < ORDERS
    ensures s.free[k] == 0 <==> lists[k] == []
    ensures lists[k] != [] ==> s.free[k] == lists[k][0] && s.free[k] in lists[k] && s.free[k] in s.hdrs
    ensures lists[k] != [] ==> s.hdrs[s.free[k]].prev == Head(k) && s.hdrs[s.free[k]].flags == FREE + k
    ensures lists[k] != [] && s.hdrs[s.free[k]].next != 0 ==>
      var n := s.hdrs[s.free[k]].next; n in lists[k] && n in s.hdrs && n != s.free[k]
  {
    assert Chain(s, k, lists[k]);
    if lists[k] != [] {
      assert lists[k][0] in lists[k];
      assert s.hdrs[lists[k][0]] == Hdr(NextIn(lists[k], 0), PrevIn(lists[k], 0, k), FREE + k);
    }
  }

  // The writes of split() come to Halved.
  lemma SplitWrites(s: Store, t: Store, x: nat, y: nat, k: nat)
    requires 0 < k < |s.free| && Splittable(s, x, y, k) && y == x + Size(k - 1)
    requires t.free == s.free[k := s.hdrs[x].next][k - 1 := x]
    requires var n, o := s.hdrs[x].next, s.free[k - 1];
      t.hdrs == SetPrev(SetPrev(s.hdrs, n, Head(k))[x := Hdr(y, Head(k), s.hdrs[x].flags)]
                                                   [y := Hdr(o, NextOf(x), FREE + k - 1)], o, NextOf(y))
        [x := Hdr(y, Head(k - 1), FREE + k - 1)]
    ensures t == Halved(s, x, k)
  {
    hide Size;
    var u := Halved(s, x, k);
    assert t.free == u.free;
    forall z ensures z in t.hdrs <==> z in u.hdrs {}
    forall z | z in t.hdrs ensures t.hdrs[z] == u.hdrs[z] {}
    assert t.hdrs == u.hdrs;
  }

  lemma SameOrdersStep(start: Heap, h: Heap, g: Heap)
    requires SameOrders(start, h) && SameOrders(h, g) && h.live == start.live
    ensures SameOrders(start, g)
  {}

  lemma PageOrders(h: Heap, p: nat)
    requires SameOrders(h, h) && p !in h.blocks
    ensures SameOrders(h, h.(blocks := h.blocks[p := 12], pages := h.pages + {p}))
  {}

  lemma LiveOrders(h: Heap, g: Heap, live: set<nat>)
    requires SameOrders(h, g)
    ensures SameOrders(h, g.(live := live))
  {}

  lemma SplitOrders(h: Heap, x: nat, k: nat)
    requires 0 < k && x !in h.live && x + Size(k - 1) !in h.blocks && h.live <= h.blocks.Keys
    ensures SameOrders(h, h.(blocks := SplitBlocks(h.blocks, x, k)))
  {
    hide Size;
  }

  lemma SelfOrders(s: Store, lists: seq<seq<nat>>, h: Heap)
    requires Consistent(s, lists, h)
    ensures SameOrders(h, h) && h.live <= h.blocks.Keys
  {
    hide Tiling, Lists, Regions;
  }

  lemma HeadReady(s: Store, lists: seq<seq<nat>>, h: Heap, k: nat)
    requires Consistent(s, lists, h) && |s.free| == ORDERS && |lists| == ORDERS && k < ORDERS
    ensures s.free[k] == 0 || s.free[k] in s.hdrs
    ensures s.free[k] == 0 <==> lists[k] == []
    ensures lists[k] != [] ==> s.free[k] == lists[k][0] && FirstHeader(s, k)
  {
    hide Tiling, Filed, LiveHeaders, HugeHeaders, Regions, Lists;
    ListHead(s, lists, k);
  }

  predicate FirstHeader(s: Store, k: nat)
    requires k < |s.free|
  {
    var x := s.free[k];
    && x in s.hdrs && s.hdrs[x].prev == Head(k) && s.hdrs[x].flags == FREE + k
    && (s.hdrs[x].next != 0 ==> s.hdrs[x].next in s.hdrs && s.hdrs[x].next != x)
  }

  // The writes at the end of malloc() come to Taken.
  lemma TakeWrites(s: Store, t: Store, x: nat, k: nat)
    requires k < |s.free| && k < ORDERS && x == s.free[k] && FirstHeader(s, k)
    requires t.free == s.free[k := s.hdrs[x].next]
    requires t.hdrs == SetPrev(s.hdrs, s.hdrs[x].next, Head(k))[x := Hdr(0, Nowhere, ClearFree(s.hdrs[x].flags))]
    ensures t == Taken(s, x, k)
  {}

  // The search stops at the first order with a free block.
  lemma EmptyLists(s: Store, lists: seq<seq<nat>>, h: Heap, order: nat, found: nat)
    requires Consistent(s, lists, h) && |s.free| == ORDERS && order <= found <= ORDERS
    requires forall k | order <= k < found :: s.free[k] == 0
    requires found < ORDERS ==> s.free[found] != 0
    ensures Exhausted(h, order) <==> found == ORDERS
  {
    hide Tiling, LiveHeaders, HugeHeaders, Regions, Lists, Chain;
    if found == ORDERS {
      forall x | x in h.blocks && x !in h.live ensures h.blocks[x] < order {
        ListHead(s, lists, h.blocks[x]);
      }
    } else {
      ListHead(s, lists, found);
      InList(h, lists, s.free[found], found);
    }
  }

  // What the header tells free() about an address it is given
  lemma HeaderOf(s: Store, lists: seq<seq<nat>>, h: Heap, x: nat)
    requires Consistent(s, lists, h) && Known(h, x)
    ensures x in s.hdrs && h.live <= h.blocks.Keys && (x in h.huge ==> x !in h.blocks)
    ensures HasHuge(s.hdrs[x].flags) <==> x in h.huge
    ensures x in h.huge ==> s.hdrs[x].next == h.huge[x]
    ensures x in h.live ==> s.hdrs[x].flags == h.blocks[x] && 5 <= h.blocks[x] <= 12
    ensures x in h.blocks && x !in h.live ==> s.hdrs[x].flags > 12
  {
    hide Tiling, Regions, Lists;
    if x in h.huge {
      HugeNotBlock(h, x);
    } else {
      BlockNotZero(h, x);
      if x !in h.live { OwnOrder(s, lists, h.blocks[x], x); }
    }
  }

  lemma BuddyAt(s: Store, lists: seq<seq<nat>>, h: Heap, x: nat)
    requires Consistent(s, lists, h) && x in h.live && x in h.blocks
    ensures h.blocks[x] < 12 ==> Buddy(x, h.blocks[x]) in s.hdrs
    ensures var k := h.blocks[x]; var y := Buddy(x, k);
      && (k < 12 && s.hdrs[y].flags == FREE + k ==> FreeBlock(h, y, k))
      && (FreeBlock(h, y, k) ==> y in s.hdrs && s.hdrs[y].flags == FREE + k)
  {
    hide Tiling, Regions, Lists, Buddy;
    if h.blocks[x] < 12 { BuddyHeader(s, lists, h, x); }
    var y := Buddy(x, h.blocks[x]);
    if FreeBlock(h, y, h.blocks[x]) { OwnOrder(s, lists, h.blocks[x], y); }
  }

  lemma PlaceOf(s: Store, lists: seq<seq<nat>>, h: Heap, y: nat, k: nat) returns (i: nat)
    requires Consistent(s, lists, h) && |lists| == ORDERS && FreeBlock(h, y, k)
    ensures k < ORDERS && i < |lists[k]| && lists[k][i] == y
  {
    hide Tiling, Regions, Lists;
    i :| 0 <= i < |lists[k]| && lists[k][i] == y;
  }

  // The cells that unlinking a header writes are there.
  predicate Reachable(s: Store, x: nat) {
    && x in s.hdrs
    && (s.hdrs[x].next != 0 ==> s.hdrs[x].next in s.hdrs)
    && (match s.hdrs[x].prev
        case Head(o) => o < |s.free|
        case NextOf(h) => h in s.hdrs
        case Nowhere => true)
  }

  lemma UnlinkReady(s: Store, lists: seq<seq<nat>>, h: Heap, k: nat, i: nat)
    requires Consistent(s, lists, h) && |lists| == ORDERS && |s.free| == ORDERS && k < ORDERS && i < |lists[k]|
    ensures Reachable(s, lists[k][i])
  {
    hide Tiling, Regions, Filed, LiveHeaders, HugeHeaders;
    assert Chain(s, k, lists[k]);
    var l := lists[k];
    assert s.hdrs[l[i]] == Hdr(NextIn(l, i), PrevIn(l, i, k), FREE + k);
    if i > 0 { assert l[i - 1] in s.hdrs; }
    if i + 1 < |l| { assert l[i + 1] in s.hdrs; }
  }

  lemma UnlinkedHead(s: Store, lists: seq<seq<nat>>, h: Heap, k: nat, i: nat)
    requires Consistent(s, lists, h) && |lists| == ORDERS && |s.free| == ORDERS && k + 1 < ORDERS && i < |lists[k]|
    ensures var t := Unlink(s, lists[k][i]); |t.free| == ORDERS && (t.free[k + 1] == 0 || t.free[k + 1] in t.hdrs)
  {
    hide Tiling, Regions, Filed, LiveHeaders, HugeHeaders, Unlink, Chain;
    assert Chain(s, k, lists[k]);
    UnlinkElsewhere(s, k, lists[k], i);
    UnlinkFrame(s, k, lists[k], i);
    ListHead(s, lists, k + 1);
  }
}
