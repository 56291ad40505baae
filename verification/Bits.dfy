// 64-bit words and their bits.
module Bits {
  // C's shifts, one place at a time
  function Shl(x: bv64, n: nat): bv64 {
    if n == 0 then x else Twice(Shl(x, n - 1))
  }

  function Shr(x: bv64, n: nat): bv64 {
    if n == 0 then x else Half(Shr(x, n - 1))
  }

  function Twice(x: bv64): bv64 {
    x << 1
  }

  function Half(x: bv64): bv64 {
    x >> 1
  }

  // C's &, |, ^, ~ and x - 1, named so that most proofs can use what is proved about
  // them without looking inside
  function Meet(a: bv64, b: bv64): bv64 {
    a & b
  }

  function Join(a: bv64, b: bv64): bv64 {
    a | b
  }

  function Diff(a: bv64, b: bv64): bv64 {
    a ^ b
  }

  function Flip(a: bv64): bv64 {
    !a
  }

  function Pred(a: bv64): bv64 {
    a - 1
  }

  // 1ull << i
  function One(i: nat): bv64 {
    Shl(1, i)
  }

  predicate Has(x: bv64, m: bv64) {
    x & m != 0
  }

  predicate Bit(x: bv64, i: nat) {
    Has(x, One(i))
  }

  // (1ull << n) - 1
  function Low(n: nat): bv64 {
    Pred(One(n))
  }

  predicate Hot(m: bv64) {
    m != 0 && m & (m - 1) == 0
  }

  // ----- one bit at a time -----

  lemma DoubleHot(m: bv64)
    requires Hot(m) && Twice(m) != 0
    ensures Hot(Twice(m)) && m < Twice(m)
  {}

  lemma XorHot(a: bv64, b: bv64, c: bv64, m: bv64)
    requires Hot(m) && c == a ^ b
    ensures Has(c, m) <==> Has(a, m) != Has(b, m)
  {}

  lemma AndHot(a: bv64, b: bv64, c: bv64, m: bv64)
    requires Hot(m) && c == a & b
    ensures Has(c, m) <==> Has(a, m) && Has(b, m)
  {}

  lemma NotHot(a: bv64, c: bv64, m: bv64)
    requires Hot(m) && c == !a
    ensures Has(c, m) <==> !Has(a, m)
  {}

  lemma BelowHot(m: bv64, c: bv64, k: bv64)
    requires Hot(m) && Hot(k) && c == m - 1
    ensures Has(c, k) <==> k < m
  {}

  lemma ShiftHot(y: bv64, m: bv64)
    ensures Has(Half(y), m) <==> Has(y, Twice(m))
  {}

  // ----- powers of two -----

  lemma {:induction false} ShlAdd(x: bv64, a: nat, b: nat)
    ensures Shl(Shl(x, a), b) == Shl(x, a + b)
  {
    if b > 0 {
      ShlAdd(x, a, b - 1);
    }
  }

  lemma {:induction false} ShlZero(n: nat)
    ensures Shl(0, n) == 0
  {
    if n > 0 {
      ShlZero(n - 1);
    }
  }

  lemma OneTwentyFour()
    ensures One(24) == 0x100_0000
  {
    assert One(8) == 0x100;
    assert One(16) == 0x1_0000;
  }

  lemma OneFortyEight()
    ensures One(48) == 0x1_0000_0000_0000
  {
    OneTwentyFour();
    assert One(32) == 0x1_0000_0000;
    assert One(40) == 0x100_0000_0000;
  }

  lemma TopOne()
    ensures One(63) == 0x8000_0000_0000_0000
  {
    OneFortyEight();
    assert One(56) == 0x100_0000_0000_0000;
  }

  lemma OneNonZero(i: nat)
    requires i < 64
    ensures One(i) != 0
  {
    ShlAdd(1, i, 63 - i);
    ShlZero(63 - i);
    TopOne();
  }

  lemma {:induction false} OneHot(i: nat)
    requires i < 64
    ensures Hot(One(i))
  {
    OneNonZero(i);
    if i > 0 {
      OneHot(i - 1);
      DoubleHot(One(i - 1));
    }
  }

  lemma {:induction false} OneMonotone(i: nat, j: nat)
    requires i < j < 64
    ensures One(i) < One(j)
  {
    OneHot(j - 1);
    OneNonZero(j);
    DoubleHot(One(j - 1));
    if i < j - 1 {
      OneMonotone(i, j - 1);
    }
  }

  lemma OneSixtyFour()
    ensures One(64) == 0
  {
    TopOne();
  }

  lemma OneOrder(i: nat, n: nat)
    requires i < 64 && n < 64
    ensures One(i) < One(n) <==> i < n
  {
    hide Shl;
    if i < n { OneMonotone(i, n); }
    if n < i { OneMonotone(n, i); }
  }

  // It has the n low bits set.
  lemma LowBits(n: nat, i: nat)
    requires n <= 64 && i < 64
    ensures Bit(Low(n), i) <==> i < n
  {
    hide Has, Hot, One, Low;
    OneHot(i);
    if n == 64 {
      LowAll(i);
    } else {
      OneHot(n);
      BelowLow(n, One(i));
      OneOrder(i, n);
    }
  }

  lemma LowAll(i: nat)
    requires i < 64
    ensures Has(Low(64), One(i))
  {
    OneSixtyFour();
    OneNonZero(i);
    AllHas(One(i));
  }

  lemma AllHas(m: bv64)
    requires m != 0
    ensures Has(0xffff_ffff_ffff_ffff, m)
  {}

  lemma BelowLow(n: nat, k: bv64)
    requires Hot(One(n)) && Hot(k)
    ensures Has(Low(n), k) <==> k < One(n)
  {
    hide Has, Hot, Shl;
    BelowHot(One(n), Low(n), k);
  }

  // (x >> i) & 1 looks at bit i.
  lemma ShiftedBit(x: bv64, i: nat)
    ensures Has(Shr(x, i), 1) <==> Bit(x, i)
  {
    hide Has;
    ShrMask(x, 1, i);
  }

  lemma {:induction false} ShrMask(x: bv64, m: bv64, i: nat)
    ensures Has(Shr(x, i), m) <==> Has(x, Shl(m, i))
    decreases i
  {
    hide Has, Half, Twice;
    if i > 0 {
      ShiftHot(Shr(x, i - 1), m);
      ShrMask(x, Twice(m), i - 1);
      ShlAdd(m, 1, i - 1);
      assert Shl(m, 1) == Twice(m);
    }
  }

  // ----- words are their bits -----

  lemma Xor(a: bv64, b: bv64, i: nat)
    requires i < 64
    ensures Bit(Diff(a, b), i) <==> Bit(a, i) != Bit(b, i)
  {
    hide Has, Hot;
    OneHot(i);
    XorHot(a, b, Diff(a, b), One(i));
  }

  lemma And(a: bv64, b: bv64, i: nat)
    requires i < 64
    ensures Bit(Meet(a, b), i) <==> Bit(a, i) && Bit(b, i)
  {
    hide Has, Hot;
    OneHot(i);
    AndHot(a, b, Meet(a, b), One(i));
  }

  lemma Not(a: bv64, i: nat)
    requires i < 64
    ensures Bit(Flip(a), i) <==> !Bit(a, i)
  {
    hide Has, Hot;
    OneHot(i);
    NotHot(a, Flip(a), One(i));
  }

  lemma Or(a: bv64, b: bv64, i: nat)
    requires i < 64
    ensures Bit(Join(a, b), i) <==> Bit(a, i) || Bit(b, i)
  {
    hide Bit, Join, Meet, Flip;
    DeMorgan(a, b);
    Not(a, i);
    Not(b, i);
    And(Flip(a), Flip(b), i);
    Not(Meet(Flip(a), Flip(b)), i);
  }

  lemma DeMorgan(a: bv64, b: bv64)
    ensures Join(a, b) == Flip(Meet(Flip(a), Flip(b)))
  {}

  lemma {:induction false} HasBit(x: bv64, n: nat) returns (i: nat)
    requires n <= 64 && LowPart(x, n) != 0
    ensures i < n && Bit(x, i)
  {
    hide LowPart, Has;
    NoLowPart(x);
    if LowPart(x, n - 1) != 0 {
      i := HasBit(x, n - 1);
    } else {
      i := n - 1;
      NextBit(x, n);
    }
  }

  function Under(x: bv64, m: bv64): bv64 {
    Meet(x, Pred(m))
  }

  function LowPart(x: bv64, n: nat): bv64 {
    Under(x, One(n))
  }

  lemma NoLowPart(x: bv64)
    ensures LowPart(x, 0) == 0
  {
    assert Low(0) == 0;
  }

  lemma NextBit(x: bv64, n: nat)
    requires 0 < n <= 64 && LowPart(x, n) != 0 && LowPart(x, n - 1) == 0
    ensures Bit(x, n - 1)
  {
    hide Hot, Under, Twice, Has;
    OneHot(n - 1);
    NextHot(x, One(n - 1));
  }

  lemma NextHot(x: bv64, m: bv64)
    requires Hot(m) && Under(x, Twice(m)) != 0 && Under(x, m) == 0
    ensures Has(x, m)
  {}

  lemma AllLow(x: bv64)
    ensures LowPart(x, 64) == x
  {
    OneSixtyFour();
  }

  lemma SameBits(a: bv64, b: bv64)
    requires forall i | 0 <= i < 64 :: Bit(a, i) == Bit(b, i)
    ensures a == b
  {
    hide Has, LowPart, Diff;
    if a != b {
      XorZero(a, b);
      AllLow(Diff(a, b));
      var i := HasBit(Diff(a, b), 64);
      Xor(a, b, i);
    }
  }

  lemma XorZero(a: bv64, b: bv64)
    ensures Diff(a, b) == 0 <==> a == b
  {}

  // Of two words that agree above bit i, the one with the bit clear is the smaller.
  lemma BitOrder(a: bv64, b: bv64, i: nat)
    requires i < 64 && !Bit(a, i) && Bit(b, i)
    requires forall j | i < j < 64 :: Bit(a, j) == Bit(b, j)
    ensures a < b
  {
    hide Bit, Meet, Flip, Low;
    var high := Flip(Low(i + 1));
    forall j | 0 <= j < 64 ensures Bit(Meet(a, high), j) == Bit(Meet(b, high), j) {
      LowBits(i + 1, j);
      Not(Low(i + 1), j);
      And(a, high, j);
      And(b, high, j);
    }
    SameBits(Meet(a, high), Meet(b, high));
    SplitOrder(a, b, i);
  }

  lemma SplitOrder(a: bv64, b: bv64, i: nat)
    requires i < 64 && !Bit(a, i) && Bit(b, i)
    requires Meet(a, Flip(Low(i + 1))) == Meet(b, Flip(Low(i + 1)))
    ensures a < b
  {
    hide Has, Meet, Flip, Low, Hot, One, Twice, IsHigh;
    OneHot(i);
    OneTwice(i);
    var h := Meet(a, Flip(Low(i + 1)));
    HighPart(a, i + 1, h);
    HighPart(b, i + 1, h);
    HasOrder(a, b, h, One(i), One(i + 1));
  }

  lemma OneTwice(i: nat)
    ensures One(i + 1) == Twice(One(i))
  {}

  predicate IsHigh(h: bv64, a: bv64, d: bv64) {
    h == a & !(d - 1)
  }

  lemma HighPart(a: bv64, n: nat, h: bv64)
    requires h == Meet(a, Flip(Low(n)))
    ensures IsHigh(h, a, One(n))
  {
    hide One;
  }

  lemma HasOrder(a: bv64, b: bv64, h: bv64, m: bv64, d: bv64)
    requires Hot(m) && !Has(a, m) && Has(b, m) && d == Twice(m)
    requires IsHigh(h, a, d) && IsHigh(h, b, d)
    ensures a < b
  {
    hide Hot;
    HotOrder(a, b, m, d);
  }

  lemma HotOrder(a: bv64, b: bv64, m: bv64, d: bv64)
    requires Hot(m) && a & m == 0 && b & m != 0 && d == m << 1
    requires a & !(d - 1) == b & !(d - 1)
    ensures a < b
  {
    var x := a & !(d - 1);
    HotSplit(a, m, d);
    HotSplit(b, m, d);
    HotBelow(x, a & (m - 1), m, d);
    OrGrows(x | m, b & (m - 1));
  }

  lemma HotSplit(a: bv64, m: bv64, d: bv64)
    requires Hot(m) && d == m << 1
    ensures a == (a & !(d - 1)) | (a & m) | (a & (m - 1)) && (a & m == 0 || a & m == m)
  {}

  lemma HotBelow(x: bv64, l: bv64, m: bv64, d: bv64)
    requires Hot(m) && d == m << 1 && x & (d - 1) == 0 && l & !(m - 1) == 0
    ensures x | l < x | m
  {}

  lemma OrGrows(y: bv64, r: bv64)
    ensures y <= y | r
  {}
}
