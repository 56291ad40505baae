// How the blocks of the buddy allocator of libc/malloc.c lie in its pages.
module BuddyTiling {
  // 1 << k
  function Size(k: nat): (n: nat)
    ensures n > 0
  {
    if k == 0 then 1 else 2 * Size(k - 1)
  }

  predicate Aligned(a: nat, k: nat) {
    k == 0 || (a % 2 == 0 && Aligned(a / 2, k - 1))
  }

  // The start of the aligned range of 2^k bytes that holds address a
  function Floor(a: nat, k: nat): nat {
    if k == 0 then a else 2 * Floor(a / 2, k - 1)
  }

  // a ^ b
  function Xor(a: nat, b: nat): nat
    decreases a + b
  {
    if a == 0 && b == 0 then 0
    else 2 * Xor(a / 2, b / 2) + if a % 2 != b % 2 then 1 else 0
  }

  function Buddy(x: nat, k: nat): nat {
    Xor(x, Size(k))
  }

  // 64 - clz(n): the number of bits of n
  function Bits(n: nat): nat {
    if n == 0 then 0 else 1 + Bits(n / 2)
  }

  lemma {:induction false} FloorBelow(a: nat, k: nat)
    ensures Floor(a, k) <= a < Floor(a, k) + Size(k) && Aligned(Floor(a, k), k)
  {
    if k > 0 { FloorBelow(a / 2, k - 1); }
  }

  lemma {:induction false} FloorUnique(c: nat, b: nat, k: nat)
    requires Aligned(c, k) && c <= b < c + Size(k)
    ensures Floor(b, k) == c
  {
    if k > 0 { FloorUnique(c / 2, b / 2, k - 1); }
  }

  lemma {:induction false} FloorNested(a: nat, j: nat, k: nat)
    requires j <= k
    ensures Floor(Floor(a, j), k) == Floor(a, k)
  {
    if j > 0 { FloorNested(a / 2, j - 1, k - 1); }
  }

  lemma {:induction false} AlignedLess(a: nat, j: nat, k: nat)
    requires j <= k && Aligned(a, k)
    ensures Aligned(a, j)
  {
    if j > 0 { AlignedLess(a / 2, j - 1, k - 1); }
  }

  lemma {:induction false} SizeGrows(j: nat, k: nat)
    requires j < k
    ensures 2 * Size(j) <= Size(k)
  {
    if j + 1 < k { SizeGrows(j, k - 1); }
  }

  lemma BuddyBase(x: nat)
    ensures Aligned(Buddy(x, 0), 0) && Buddy(x, 0) != x
    ensures Aligned(x, 1) ==> Buddy(x, 0) == x + Size(0)
    ensures !Aligned(x, 1) ==> Buddy(x, 0) == x - Size(0) && Aligned(Buddy(x, 0), 1)
  {
    XorNothing(x / 2);
    assert Aligned(x, 1) <==> x % 2 == 0;
  }

  // Flipping bit k of an aligned address moves by 2^k inside the range of 2^(k+1).
  lemma {:induction false} BuddyMoves(x: nat, k: nat)
    requires Aligned(x, k)
    ensures Aligned(Buddy(x, k), k) && Buddy(x, k) != x
    ensures Aligned(x, k + 1) ==> Buddy(x, k) == x + Size(k)
    ensures !Aligned(x, k + 1) ==> Buddy(x, k) == x - Size(k) && Aligned(Buddy(x, k), k + 1)
    decreases k, 1
  {
    hide *;
    if k == 0 {
      BuddyBase(x);
    } else {
      AlignedHalf(x, k);
      BuddyHalves(x, k);
      BuddyStep(x, k);
    }
  }

  lemma {:induction false} BuddyStep(x: nat, k: nat)
    requires k > 0 && Aligned(x, k) && Buddy(x, k) == 2 * Buddy(x / 2, k - 1)
    ensures Aligned(Buddy(x, k), k) && Buddy(x, k) != x
    ensures Aligned(x, k + 1) ==> Buddy(x, k) == x + Size(k)
    ensures !Aligned(x, k + 1) ==> Buddy(x, k) == x - Size(k) && Aligned(Buddy(x, k), k + 1)
    decreases k, 0
  {
    AlignedHalf(x, k);
    hide *;
    var z := Buddy(x / 2, k - 1);
    BuddyMoves(x / 2, k - 1);
    AlignedDouble(x / 2, k);
    AlignedDouble(x / 2, k + 1);
    AlignedDouble(z, k);
    AlignedDouble(z, k + 1);
    SizeDoubles(k);
  }

  lemma {:induction false} XorTwice(x: nat, a: nat)
    ensures Xor(Xor(x, a), a) == x
    decreases x + a
  {
    if x > 0 || a > 0 {
      var y := Xor(x, a);
      XorTwice(x / 2, a / 2);
      assert y / 2 == Xor(x / 2, a / 2) && (y % 2 == 1 <==> x % 2 != a % 2);
      if y == 0 && a == 0 { XorNothing(x); }
    }
  }

  // Each is the other's buddy.
  lemma BuddyBack(x: nat, k: nat)
    ensures Buddy(Buddy(x, k), k) == x
  {
    XorTwice(x, Size(k));
  }

  lemma AlignedHalf(x: nat, k: nat)
    requires k > 0 && Aligned(x, k)
    ensures x == 2 * (x / 2)
  {}

  lemma AlignedDouble(z: nat, k: nat)
    requires k > 0
    ensures Aligned(2 * z, k) <==> Aligned(z, k - 1)
  {
    assert 2 * z / 2 == z;
  }

  lemma {:induction false} BuddyHalves(x: nat, k: nat)
    requires k > 0 && x % 2 == 0
    ensures Buddy(x, k) == 2 * Buddy(x / 2, k - 1)
  {
    assert Size(k) / 2 == Size(k - 1) && Size(k) % 2 == 0;
  }

  lemma {:induction false} XorNothing(a: nat)
    ensures Xor(a, 0) == a
  {
    if a > 0 { XorNothing(a / 2); }
  }

  // The upper half of an aligned block is aligned to its size.
  lemma {:induction false} UpperHalf(x: nat, k: nat)
    requires Aligned(x, k + 1)
    ensures Aligned(x, k) && Aligned(x + Size(k), k)
  {
    AlignedHalf(x, k + 1);
    hide *;
    var h := x / 2;
    if k > 0 {
      SizeDoubles(k);
      AlignedDouble(h, k + 1);
      UpperHalf(h, k - 1);
      AlignedDouble(h, k);
      AlignedDouble(h + Size(k - 1), k);
    } else {
      AnyAligned(x);
      AnyAligned(x + Size(k));
    }
  }

  lemma AnyAligned(a: nat)
    ensures Aligned(a, 0)
  {}

  lemma {:induction false} BitsBound(n: nat)
    ensures n < Size(Bits(n)) && (n > 0 ==> Size(Bits(n) - 1) <= n)
  {
    if n > 0 { BitsBound(n / 2); }
  }

  lemma Sizes()
    ensures Size(4) == 16 && Size(5) == 32 && Size(12) == 4096 && Size(13) == 8192
  {
    assert Size(4) == 16;
    assert Size(8) == 256;
    assert Size(12) == 4096;
  }

  lemma {:induction false} SizeMonotone(j: nat, k: nat)
    requires j <= k
    ensures Size(j) <= Size(k)
  {
    if j < k { SizeGrows(j, k); }
  }

  lemma OrderInRange(n: nat)
    requires 24 <= n <= 4096
    ensures 5 <= Bits(n) <= 13 && (Bits(n) == 13 <==> n == 4096)
  {
    hide Size, Bits;
    BitsBound(n);
    Sizes();
    if Bits(n) < 5 { SizeMonotone(Bits(n), 4); }
    if Bits(n) > 13 { SizeMonotone(13, Bits(n) - 1); }
    if n == 4096 && Bits(n) <= 12 { SizeMonotone(Bits(n), 12); }
  }

  // ----- tilings -----

  // The byte at b belongs to the block at a.
  predicate Covers(blocks: map<nat, nat>, a: nat, b: nat) {
    a in blocks && a <= b < a + Size(blocks[a])
  }

  predicate Tile(a: nat, k: nat, pages: set<nat>) {
    5 <= k <= 12 && Aligned(a, k) && Floor(a, 12) in pages
  }

  ghost predicate Tiles(blocks: map<nat, nat>, pages: set<nat>) {
    forall a | a in blocks :: Tile(a, blocks[a], pages)
  }

  ghost predicate Full(blocks: map<nat, nat>, pages: set<nat>) {
    forall b: nat | Floor(b, 12) in pages :: exists a :: Covers(blocks, a, b)
  }

  ghost predicate Single(blocks: map<nat, nat>) {
    forall a, c, b: nat | Covers(blocks, a, b) && Covers(blocks, c, b) :: a == c
  }

  // Every byte of every page is in exactly one block, and no block leaves its page.
  ghost predicate Tiling(blocks: map<nat, nat>, pages: set<nat>) {
    Tiles(blocks, pages) && Full(blocks, pages) && Single(blocks)
  }

  // A tile of order at most 12 stays inside its page.
  lemma TileInPage(a: nat, k: nat, pages: set<nat>, b: nat)
    requires Tile(a, k, pages) && a <= b < a + Size(k)
    ensures Floor(b, 12) == Floor(a, 12)
  {
    FloorUnique(a, b, k);
    FloorNested(b, k, 12);
  }

  lemma StartCovered(blocks: map<nat, nat>, a: nat)
    requires a in blocks
    ensures Covers(blocks, a, a)
  {}

  // The address free() looks at: the buddy of a block of order k < 12 starts a block too,
  // and one that is not larger.
  lemma BuddyIsStart(blocks: map<nat, nat>, pages: set<nat>, x: nat)
    requires Tiling(blocks, pages) && x in blocks && blocks[x] < 12
    ensures var y := Buddy(x, blocks[x]);
      y in blocks && blocks[y] <= blocks[x] && y != x && Floor(y, 12) == Floor(x, 12)
  {
    hide Full, Single, Size, Aligned, Floor, Buddy, Covers;
    var k := blocks[x];
    var y := Buddy(x, k);
    BuddyMoves(x, k);
    SamePair(x, k);
    FloorNested(x, k + 1, 12);
    FloorNested(y, k + 1, 12);
    assert Floor(y, 12) in pages;
    var c := TheBlock(blocks, pages, y);
    NotAbove(blocks, pages, x, y, c);
    SameStart(blocks, c, y, k);
  }

  lemma TheBlock(blocks: map<nat, nat>, pages: set<nat>, b: nat) returns (c: nat)
    requires Full(blocks, pages) && Floor(b, 12) in pages
    ensures Covers(blocks, c, b)
  {
    c :| Covers(blocks, c, b);
  }

  lemma SamePair(x: nat, k: nat)
    requires Aligned(x, k)
    ensures Floor(Buddy(x, k), k + 1) == Floor(x, k + 1)
  {
    hide Aligned, Floor, Buddy;
    BuddyMoves(x, k);
    var low := if Aligned(x, k + 1) then x else Buddy(x, k);
    FloorUnique(low, x, k + 1);
    FloorUnique(low, Buddy(x, k), k + 1);
  }

  // A block around the buddy that is larger would hold x as well.
  lemma NotAbove(blocks: map<nat, nat>, pages: set<nat>, x: nat, y: nat, c: nat)
    requires Tiling(blocks, pages) && x in blocks && y == Buddy(x, blocks[x]) && Covers(blocks, c, y)
    ensures blocks[c] <= blocks[x]
  {
    hide Full, Size, Aligned, Floor, Buddy;
    var k := blocks[x];
    if blocks[c] > k {
      CoversBoth(blocks, x, y, c, k);
      StartCovered(blocks, x);
    }
  }

  lemma CoversBoth(blocks: map<nat, nat>, x: nat, y: nat, c: nat, k: nat)
    requires Aligned(x, k) && y == Buddy(x, k) && Covers(blocks, c, y) && Aligned(c, blocks[c]) && blocks[c] > k
    ensures Covers(blocks, c, x)
  {
    hide Size, Aligned, Floor, Buddy;
    SamePair(x, k);
    FloorUnique(c, y, blocks[c]);
    FloorNested(x, k + 1, blocks[c]);
    FloorNested(y, k + 1, blocks[c]);
    FloorBelow(x, blocks[c]);
  }

  lemma SameStart(blocks: map<nat, nat>, c: nat, y: nat, k: nat)
    requires Covers(blocks, c, y) && Aligned(c, blocks[c]) && blocks[c] <= k && Aligned(y, k)
    ensures c == y
  {
    hide Size, Aligned, Floor;
    AlignedLess(y, blocks[c], k);
    FloorUnique(c, y, blocks[c]);
    SizePositive(blocks[c]);
    FloorUnique(y, y, blocks[c]);
  }

  lemma SizePositive(k: nat)
    ensures Size(k) > 0
  {}

  // ----- what split, merge and a new page do to the tiling -----

  function SplitBlocks(blocks: map<nat, nat>, x: nat, k: nat): map<nat, nat>
    requires k > 0
  {
    blocks[x := k - 1][x + Size(k - 1) := k - 1]
  }

  lemma SplitTiling(blocks: map<nat, nat>, pages: set<nat>, x: nat)
    requires Tiling(blocks, pages) && x in blocks && blocks[x] > 5
    ensures Tiling(SplitBlocks(blocks, x, blocks[x]), pages) && x + Size(blocks[x] - 1) !in blocks
  {
    hide Size, Aligned, Floor, Full, Single, SplitBlocks, Tiles;
    SplitTiles(blocks, pages, x);
    SplitFull(blocks, pages, x);
    SplitSingle(blocks, x);
  }

  lemma SplitTiles(blocks: map<nat, nat>, pages: set<nat>, x: nat)
    requires Tiles(blocks, pages) && Single(blocks) && x in blocks && blocks[x] > 5
    ensures Tiles(SplitBlocks(blocks, x, blocks[x]), pages) && x + Size(blocks[x] - 1) !in blocks
  {
    hide Size, Aligned, Floor, Covers, Single;
    var k := blocks[x];
    UpperHalf(x, k - 1);
    SizeDoubles(k);
    TileInPage(x, k, pages, x + Size(k - 1));
    HalfIsFree(blocks, x);
  }

  lemma HalfIsFree(blocks: map<nat, nat>, x: nat)
    requires Single(blocks) && x in blocks && blocks[x] > 0
    ensures x + Size(blocks[x] - 1) !in blocks
  {
    var y := x + Size(blocks[x] - 1);
    SizeDoubles(blocks[x]);
    assert Covers(blocks, x, y);
    if y in blocks { StartCovered(blocks, y); }
  }

  lemma SizeDoubles(k: nat)
    requires k > 0
    ensures Size(k) == 2 * Size(k - 1) && Size(k - 1) > 0
  {}

  // The two halves cover what the block covered, every other block what it covered before.
  lemma SplitCovers(blocks: map<nat, nat>, x: nat, k: nat)
    requires x in blocks && blocks[x] == k && k > 0 && x + Size(k - 1) !in blocks
    ensures forall b: nat :: Covers(blocks, x, b) <==>
      Covers(SplitBlocks(blocks, x, k), x, b) || Covers(SplitBlocks(blocks, x, k), x + Size(k - 1), b)
    ensures forall b: nat ::
      !(Covers(SplitBlocks(blocks, x, k), x, b) && Covers(SplitBlocks(blocks, x, k), x + Size(k - 1), b))
    ensures forall a, b: nat | a != x && a != x + Size(k - 1) ::
      Covers(SplitBlocks(blocks, x, k), a, b) <==> Covers(blocks, a, b)
  {
    SizeDoubles(k);
    assert Size(k - 1) > 0;
  }

  lemma SplitFull(blocks: map<nat, nat>, pages: set<nat>, x: nat)
    requires Full(blocks, pages) && x in blocks && blocks[x] > 0 && x + Size(blocks[x] - 1) !in blocks
    ensures Full(SplitBlocks(blocks, x, blocks[x]), pages)
  {
    hide Size, Floor, Covers, SplitBlocks;
    var k := blocks[x];
    var after := SplitBlocks(blocks, x, k);
    SplitCovers(blocks, x, k);
    forall b: nat | Floor(b, 12) in pages ensures exists a :: Covers(after, a, b) {
      var a :| Covers(blocks, a, b);
      CoversStart(blocks, a, b);
      if a != x { assert Covers(after, a, b); }
    }
  }

  lemma CoversStart(blocks: map<nat, nat>, a: nat, b: nat)
    requires Covers(blocks, a, b)
    ensures a in blocks
  {}

  lemma SplitSingle(blocks: map<nat, nat>, x: nat)
    requires Single(blocks) && x in blocks && blocks[x] > 0 && x + Size(blocks[x] - 1) !in blocks
    ensures Single(SplitBlocks(blocks, x, blocks[x]))
  {
    hide Size, Covers, SplitBlocks;
    var k := blocks[x];
    var y := x + Size(k - 1);
    var after := SplitBlocks(blocks, x, k);
    SplitCovers(blocks, x, k);
    forall a, c, b: nat | Covers(after, a, b) && Covers(after, c, b) ensures a == c {
      if a == x || a == y { assert Covers(blocks, x, b); } else { assert Covers(blocks, a, b); }
      if c == x || c == y { assert Covers(blocks, x, b); } else { assert Covers(blocks, c, b); }
    }
  }

  function Lower(x: nat, y: nat): nat {
    if y < x then y else x
  }

  function MergeBlocks(blocks: map<nat, nat>, x: nat, y: nat, k: nat): map<nat, nat> {
    (blocks - {x, y})[Lower(x, y) := k + 1]
  }

  lemma MergeTiling(blocks: map<nat, nat>, pages: set<nat>, x: nat, y: nat)
    requires Tiling(blocks, pages) && x in blocks && y in blocks && blocks[x] < 12 && blocks[y] == blocks[x]
    requires y == Buddy(x, blocks[x])
    ensures Tiling(MergeBlocks(blocks, x, y, blocks[x]), pages)
  {
    hide Size, Aligned, Floor, Buddy, Full, Single, MergeBlocks, Tiles;
    var k := blocks[x];
    MergeTiles(blocks, pages, x, y);
    MergeFull(blocks, pages, x, y, k);
    MergeSingle(blocks, x, y, k);
  }

  lemma MergeTiles(blocks: map<nat, nat>, pages: set<nat>, x: nat, y: nat)
    requires Tiles(blocks, pages) && x in blocks && y in blocks && blocks[x] < 12 && blocks[y] == blocks[x]
    requires y == Buddy(x, blocks[x])
    ensures Tiles(MergeBlocks(blocks, x, y, blocks[x]), pages)
    ensures y == x + Size(blocks[x]) || x == y + Size(blocks[x])
  {
    hide Size, Aligned, Floor, Buddy;
    assert Tile(x, blocks[x], pages) && Tile(y, blocks[y], pages);
    BuddyMoves(x, blocks[x]);
    SizePositive(blocks[x]);
  }

  lemma MergeCovers(blocks: map<nat, nat>, x: nat, y: nat, k: nat)
    requires x in blocks && y in blocks && blocks[x] == k && blocks[y] == k && (y == x + Size(k) || x == y + Size(k))
    ensures forall b: nat :: Covers(MergeBlocks(blocks, x, y, k), Lower(x, y), b) <==>
      Covers(blocks, x, b) || Covers(blocks, y, b)
    ensures forall a, b: nat | a != x && a != y :: Covers(MergeBlocks(blocks, x, y, k), a, b) <==> Covers(blocks, a, b)
    ensures forall a, b: nat | (a == x || a == y) && a != Lower(x, y) :: !Covers(MergeBlocks(blocks, x, y, k), a, b)
  {
    SizeDoubles(k + 1);
  }

  lemma MergeFull(blocks: map<nat, nat>, pages: set<nat>, x: nat, y: nat, k: nat)
    requires Full(blocks, pages)
    requires x in blocks && y in blocks && blocks[x] == k && blocks[y] == k && (y == x + Size(k) || x == y + Size(k))
    ensures Full(MergeBlocks(blocks, x, y, k), pages)
  {
    hide Size, Floor, Covers, MergeBlocks;
    var after := MergeBlocks(blocks, x, y, k);
    MergeCovers(blocks, x, y, k);
    forall b: nat | Floor(b, 12) in pages ensures exists a :: Covers(after, a, b) {
      var a :| Covers(blocks, a, b);
      if a == x || a == y { assert Covers(after, Lower(x, y), b); } else { assert Covers(after, a, b); }
    }
  }

  lemma MergeSingle(blocks: map<nat, nat>, x: nat, y: nat, k: nat)
    requires Single(blocks)
    requires x in blocks && y in blocks && blocks[x] == k && blocks[y] == k && (y == x + Size(k) || x == y + Size(k))
    ensures Single(MergeBlocks(blocks, x, y, k))
  {
    hide Size, Covers, MergeBlocks;
    var after := MergeBlocks(blocks, x, y, k);
    var low := Lower(x, y);
    MergeCovers(blocks, x, y, k);
    forall a, c, b: nat | Covers(after, a, b) && Covers(after, c, b) ensures a == c {
      if a != low { assert Covers(blocks, a, b); }
      if c != low { assert Covers(blocks, c, b); }
    }
  }

  lemma PageTiling(blocks: map<nat, nat>, pages: set<nat>, p: nat)
    requires Tiling(blocks, pages) && Aligned(p, 12) && p !in pages
    ensures Tiling(blocks[p := 12], pages + {p}) && p !in blocks
  {
    hide Size, Aligned, Floor, Covers;
    OwnFloor(p);
    assert p !in blocks;
    var after := blocks[p := 12];
    PageCovers(blocks, pages, p);
    forall b: nat | Floor(b, 12) in pages + {p} ensures exists a :: Covers(after, a, b) {
      if Floor(b, 12) == p {
        assert Covers(after, p, b);
      } else {
        var a :| Covers(blocks, a, b);
        CoversStart(blocks, a, b);
        assert Covers(after, a, b);
      }
    }
    forall a, c, b: nat | Covers(after, a, b) && Covers(after, c, b) ensures a == c {
      if a != p { assert Covers(blocks, a, b) && Floor(b, 12) != p; }
      if c != p { assert Covers(blocks, c, b) && Floor(b, 12) != p; }
    }
  }

  lemma OwnFloor(p: nat)
    requires Aligned(p, 12)
    ensures Floor(p, 12) == p
  {
    hide Size, Aligned, Floor;
    SizePositive(12);
    FloorUnique(p, p, 12);
  }

  lemma PageCovers(blocks: map<nat, nat>, pages: set<nat>, p: nat)
    requires Tiles(blocks, pages) && Aligned(p, 12) && p !in pages && p !in blocks
    ensures forall b: nat :: Covers(blocks[p := 12], p, b) <==> Floor(b, 12) == p
    ensures forall a, b: nat | a != p :: Covers(blocks[p := 12], a, b) <==> Covers(blocks, a, b)
    ensures forall a, b: nat | Covers(blocks, a, b) :: Floor(b, 12) != p
  {
    hide Size, Aligned, Floor;
    forall b: nat ensures Covers(blocks[p := 12], p, b) <==> Floor(b, 12) == p {
      FloorBelow(b, 12);
      if Covers(blocks[p := 12], p, b) { FloorUnique(p, b, 12); }
    }
    forall a, b: nat | Covers(blocks, a, b) ensures Floor(b, 12) != p {
      TileInPage(a, blocks[a], pages, b);
    }
  }
}
