// The path-compressed trie of sys/lib/binradix.c as a value: lookup, insertion with a
// node split, deletion with a merge, and what they mean for the map of keys to data.
module RadixTrie {
  import opened Bits

  datatype Value<V> = Null | Ptr(v: V)

  datatype Key = Key(word: bv64)

  // A node holds the `len` bits of `part` from its offset downwards. The first bit of a
  // child is the bit its parent branches on.
  datatype Trie<V> =
    | Empty
    | Leaf(part: bv64, len: nat, data: Value<V>)
    | Branch(part: bv64, len: nat, zero: Trie<V>, one: Trie<V>)

  // bincmp: the bits off, off - 1, ..., off - nbit + 1 in which a and b differ
  function Bincmp(a: bv64, b: bv64, off: nat, nbit: nat): bv64
    requires off < 64 && nbit <= off + 1
  {
    // x &= (2ull << off) - 1, then x &= ~((1ull << (off - nbit + 1)) - 1)
    var x := Meet(Diff(a, b), Pred(Shl(2, off)));
    if off - nbit < 63 then Meet(x, Flip(Pred(Shl(1, off - nbit + 1)))) else 0
  }

  // 63 - hibit(x): the position of the highest set bit
  function TopBit(x: bv64, n: nat): (i: nat)
    requires n <= 64 && LowPart(x, n) != 0
    ensures i < n && Bit(x, i) && forall j | i < j < n :: !Bit(x, j)
  {
    NoLowPart(x);
    if Bit(x, n - 1) then n - 1
    else
      LowerPart(x, n);
      TopBit(x, n - 1)
  }

  lemma LowerPart(x: bv64, n: nat)
    requires 0 < n <= 64 && LowPart(x, n) != 0 && !Bit(x, n - 1)
    ensures LowPart(x, n - 1) != 0
  {
    if LowPart(x, n - 1) == 0 {
      NextBit(x, n);
    }
  }

  predicate Differ(a: bv64, b: bv64, i: nat) {
    Bit(a, i) != Bit(b, i)
  }

  // a and b have the same bits from position n up
  predicate Above(a: bv64, b: bv64, n: nat) {
    forall i | n <= i < 64 :: !Differ(a, b, i)
  }

  function ToMap<V>(t: Trie<V>): map<Key, Value<V>> {
    match t
    case Empty => map[]
    case Leaf(part, _, data) => map[Key(part) := data]
    case Branch(_, _, zero, one) => ToMap(zero) + ToMap(one)
  }

  // The keys of a branch share the bits above its branching bit with its part, and lie on
  // the side that bit says.
  predicate Parted<V>(t: Trie<V>, bit: nat)
    requires t.Branch?
  {
    && (forall k | k in ToMap(t.zero) :: Above(k.word, t.part, bit + 1) && !Bit(k.word, bit))
    && (forall k | k in ToMap(t.one) :: Above(k.word, t.part, bit + 1) && Bit(k.word, bit))
  }

  // A subtree whose first bit is bit `off`: leaves end at bit 0, and a branch below the
  // root has two children.
  predicate Fits<V>(t: Trie<V>, off: nat) {
    match t
    case Empty => true
    case Leaf(_, len, _) => len == off + 1
    case Branch(_, len, zero, one) =>
      && 1 <= len <= off && zero != Empty && one != Empty
      && Fits(zero, off - len) && Fits(one, off - len) && Parted(t, off - len)
  }

  // The root consumes no bits and may lack children.
  predicate Root<V>(t: Trie<V>) {
    t.Branch? && t.len == 0 && Fits(t.zero, 63) && Fits(t.one, 63) && Parted(t, 63)
  }

  // ----- lookup -----

  function Lookup<V>(m: map<Key, Value<V>>, key: bv64): Value<V> {
    if Key(key) in m then m[Key(key)] else Null
  }

  lemma BincmpBit(a: bv64, b: bv64, off: nat, nbit: nat, i: nat)
    requires off < 64 && nbit <= off + 1 && i < 64
    ensures Bit(Bincmp(a, b, off, nbit), i) <==> off - nbit < i <= off && Differ(a, b, i)
  {
    hide Bit, Shl, Meet, Diff, Flip, Pred;
    var low := Low(off + 1);
    TwoIsOne(off);
    LowBits(off + 1, i);
    Xor(a, b, i);
    And(Diff(a, b), low, i);
    if off - nbit < 63 {
      var below := Low(off - nbit + 1);
      LowBits(off - nbit + 1, i);
      Not(below, i);
      And(Meet(Diff(a, b), low), Flip(below), i);
    } else {
      ZeroBit(i);
    }
  }

  lemma TwoIsOne(off: nat)
    ensures Shl(2, off) == One(off + 1)
  {
    ShlAdd(1, 1, off);
    assert Shl(1, 1) == 2;
  }

  lemma ZeroBit(i: nat)
    ensures !Bit(0, i)
  {}

  lemma ZeroMeansSame(a: bv64, b: bv64, off: nat, nbit: nat)
    requires off < 64 && nbit <= off + 1
    ensures Bincmp(a, b, off, nbit) == 0 <==> forall i | off - nbit < i <= off && 0 <= i :: !Differ(a, b, i)
  {
    hide Bit, Bincmp;
    var x := Bincmp(a, b, off, nbit);
    forall i | 0 <= i < 64 ensures Bit(x, i) <==> off - nbit < i <= off && Differ(a, b, i) {
      BincmpBit(a, b, off, nbit, i);
    }
    if x == 0 {
      forall i | off - nbit < i <= off && 0 <= i ensures !Differ(a, b, i) {
        ZeroBit(i);
      }
    } else if forall i | off - nbit < i <= off && 0 <= i :: !Differ(a, b, i) {
      forall i | 0 <= i < 64 ensures Bit(x, i) == Bit(0, i) {
        ZeroBit(i);
      }
      SameBits(x, 0);
    }
  }

  // The part of a node agrees with every key below it on the bits the node has passed.
  lemma {:induction false} PartAgrees<V>(t: Trie<V>, off: nat, k: Key)
    requires Fits(t, off) && off < 64 && k in ToMap(t)
    ensures Above(k.word, t.part, off + 1 - t.len)
  {}

  lemma SameWords(a: bv64, b: bv64)
    requires Above(a, b, 0)
    ensures a == b
  {
    hide Bit;
    forall i | 0 <= i < 64 ensures Bit(a, i) == Bit(b, i) {
      assert !Differ(a, b, i);
    }
    SameBits(a, b);
  }

  lemma BelowBranch<V>(t: Trie<V>, k: Key)
    requires t.Branch?
    ensures k in ToMap(t) <==> k in ToMap(t.zero) || k in ToMap(t.one)
  {}

  // ----- insertion -----

  function Highest(x: bv64): (i: nat)
    requires x != 0
    ensures i < 64 && Bit(x, i) && forall j | i < j < 64 :: !Bit(x, j)
  {
    AllLow(x);
    TopBit(x, 64)
  }

  // Two nodes from one: the upper keeps the bits above hb, the lower the rest, and the
  // new key becomes the lower one's sibling.
  function SplitNode<V>(t: Trie<V>, off: nat, key: bv64, data: Value<V>, hb: nat): Trie<V>
    requires t != Empty && hb <= off && off - hb <= t.len
  {
    var upper := off - hb;
    var lower := t.(len := t.len - upper);
    if Bit(key, hb) then Branch(t.part, upper, lower, Leaf(key, hb + 1, data))
    else Branch(t.part, upper, Leaf(key, hb + 1, data), lower)
  }

  function InsertT<V>(t: Trie<V>, off: nat, key: bv64, data: Value<V>): Trie<V>
    requires off < 64 && (Fits(t, off) || (Root(t) && off == 63))
    decreases t
  {
    if t == Empty then Leaf(key, off + 1, data)
    else if Bincmp(t.part, key, off, t.len) != 0 then
      SplitsInside(t.part, key, off, t.len);
      SplitNode(t, off, key, data, Highest(Bincmp(t.part, key, off, t.len)))
    else if t.Leaf? then t
    else if Bit(key, off - t.len) then t.(one := InsertT(t.one, off - t.len, key, data))
    else t.(zero := InsertT(t.zero, off - t.len, key, data))
  }

  lemma SplitsInside(a: bv64, b: bv64, off: nat, nbit: nat)
    requires off < 64 && nbit <= off + 1 && Bincmp(a, b, off, nbit) != 0
    ensures var hb := Highest(Bincmp(a, b, off, nbit));
      off - nbit < hb <= off && Differ(a, b, hb) && forall i | hb < i <= off :: !Differ(a, b, i)
  {
    hide Bit, Bincmp;
    var hb := Highest(Bincmp(a, b, off, nbit));
    BincmpBit(a, b, off, nbit, hb);
    forall i | hb < i <= off ensures !Differ(a, b, i) {
      BincmpBit(a, b, off, nbit, i);
    }
  }

  // Every key of t is on key's path down to and including bit off.
  predicate OnPath<V>(t: Trie<V>, key: bv64, off: nat) {
    forall k | k in ToMap(t) :: Above(k.word, key, off)
  }

  lemma OnPathBelow<V>(t: Trie<V>, off: nat, key: bv64)
    requires t.Branch? && off < 64 && t.len <= off + 1 && (Fits(t, off) || (Root(t) && off == 63))
    requires off == 63 || OnPath(t, key, off + 1)
    requires Bincmp(t.part, key, off, t.len) == 0
    ensures Bit(key, off - t.len) ==> OnPath(t.one, key, off - t.len)
    ensures !Bit(key, off - t.len) ==> OnPath(t.zero, key, off - t.len)
  {
    hide Bit, Bincmp;
    var next := off - t.len;
    ZeroMeansSame(t.part, key, off, t.len);
    var child := if Bit(key, next) then t.one else t.zero;
    forall k | k in ToMap(child) ensures Above(k.word, key, next) {
      BelowBranch(t, k);
      assert Above(k.word, t.part, next + 1) && (off < 63 ==> Above(k.word, key, off + 1));
      forall i | next <= i < 64 ensures !Differ(k.word, key, i) {
        if i > next {
          assert !Differ(k.word, t.part, i) && (i > off ==> !Differ(k.word, key, i))
            && (i <= off ==> !Differ(t.part, key, i));
        }
      }
    }
  }

  lemma AddBefore<K, W>(m: map<K, W>, k: K, w: W)
    requires k !in m
    ensures map[k := w] + m == m[k := w] && m + map[k := w] == m[k := w]
  {}

  lemma AddBeside<K, W>(m: map<K, W>, n: map<K, W>, k: K, w: W)
    requires k !in n
    ensures m[k := w] + n == (m + n)[k := w] && n + m[k := w] == (n + m)[k := w]
  {}

  lemma SplitMap<V>(t: Trie<V>, off: nat, key: bv64, data: Value<V>, hb: nat)
    requires t != Empty && hb <= off && off - hb <= t.len && Key(key) !in ToMap(t)
    ensures ToMap(SplitNode(t, off, key, data, hb)) == ToMap(t)[Key(key) := data]
  {
    hide Bit;
    var lower := t.(len := t.len - (off - hb));
    assert ToMap(lower) == ToMap(t);
    AddBefore(ToMap(t), Key(key), data);
    if Bit(key, hb) {
      assert ToMap(SplitNode(t, off, key, data, hb)) == ToMap(lower) + map[Key(key) := data];
    } else {
      assert ToMap(SplitNode(t, off, key, data, hb)) == map[Key(key) := data] + ToMap(lower);
    }
  }

  lemma SplitFits<V>(t: Trie<V>, off: nat, key: bv64, data: Value<V>, hb: nat)
    requires t != Empty && off < 64 && Fits(t, off) && off - t.len < hb < off
    requires OnPath(t, key, off) && Differ(t.part, key, hb) && forall i | hb < i <= off :: !Differ(t.part, key, i)
    ensures Fits(SplitNode(t, off, key, data, hb), off)
  {
    hide Bit;
    var lower := t.(len := t.len - (off - hb));
    assert ToMap(lower) == ToMap(t);
    assert t.Branch? ==> Parted(lower, off - t.len);
    assert Fits(lower, hb);
    var split := SplitNode(t, off, key, data, hb);
    forall k | k in ToMap(t) ensures Above(k.word, t.part, hb + 1) && !Differ(k.word, t.part, hb) {
      PartAgrees(t, off, k);
    }
    NewKeyAbove(t, off, key, hb);
  }

  lemma NewKeyAbove<V>(t: Trie<V>, off: nat, key: bv64, hb: nat)
    requires t != Empty && off < 64 && Fits(t, off) && off - t.len < hb < off
    requires OnPath(t, key, off) && forall i | hb < i <= off :: !Differ(t.part, key, i)
    ensures Above(key, t.part, hb + 1)
  {
    hide Bit;
    var k := SomeKey(t, off);
    PartAgrees(t, off, k);
    forall i | hb < i < 64 ensures !Differ(key, t.part, i) {
      if i > off {
        assert !Differ(k.word, key, i) && !Differ(k.word, t.part, i);
      } else {
        assert !Differ(t.part, key, i);
      }
    }
  }

  lemma {:induction false} SomeKey<V>(t: Trie<V>, off: nat) returns (k: Key)
    requires t != Empty && Fits(t, off)
    ensures k in ToMap(t)
    decreases t
  {
    if t.Branch? {
      k := SomeKey(t.zero, off - t.len);
    } else {
      k := Key(t.part);
    }
  }

  // ----- the two sides of the root -----

  // The child of the root that the key would be under
  function Side<V>(t: Trie<V>, key: bv64): Trie<V>
    requires t.Branch?
  {
    if Bit(key, 63) then t.one else t.zero
  }

  // The child is missing exactly when no key has the same first bit.
  lemma SideEmpty<V>(t: Trie<V>, key: bv64)
    requires Root(t)
    ensures Side(t, key) == Empty <==> forall k | k in ToMap(t) :: Bit(k.word, 63) != Bit(key, 63)
  {
    hide Bit, Above;
    if Side(t, key) != Empty {
      var k := SomeKey(Side(t, key), 63);
      BelowBranch(t, k);
    }
    forall k | k in ToMap(t) && Side(t, key) == Empty ensures Bit(k.word, 63) != Bit(key, 63) {
      BelowBranch(t, k);
    }
  }

  // The child is the leaf of the key, of 64 bits, exactly when the key is there and no
  // other key has the same first bit.
  lemma SideSole<V>(t: Trie<V>, key: bv64)
    requires Root(t)
    ensures Side(t, key).Leaf? && Side(t, key).part == key <==>
      Key(key) in ToMap(t) && forall k | k in ToMap(t) && Bit(k.word, 63) == Bit(key, 63) :: k.word == key
    ensures Side(t, key).Leaf? ==> Side(t, key).len == 64
  {
    hide Bit, Above;
    var w := Side(t, key);
    forall k ensures k in ToMap(w) <==> k in ToMap(t) && Bit(k.word, 63) == Bit(key, 63) {
      BelowBranch(t, k);
    }
    if w.Branch? {
      var a := SomeKey(w.zero, 63 - w.len);
      var b := SomeKey(w.one, 63 - w.len);
      BelowBranch(w, a);
      BelowBranch(w, b);
      assert Bit(a.word, 63 - w.len) != Bit(b.word, 63 - w.len);
    }
  }

  lemma {:induction false} InsertKeeps<V>(t: Trie<V>, off: nat, key: bv64, data: Value<V>)
    requires off < 64 && Fits(t, off) && OnPath(t, key, off) && Key(key) !in ToMap(t)
    ensures InsertT(t, off, key, data) != Empty && Fits(InsertT(t, off, key, data), off)
    ensures ToMap(InsertT(t, off, key, data)) == ToMap(t)[Key(key) := data]
    decreases t
  {
    hide Bit, Bincmp;
    if t != Empty {
      ZeroMeansSame(t.part, key, off, t.len);
      if Bincmp(t.part, key, off, t.len) != 0 {
        SplitsInside(t.part, key, off, t.len);
        var hb := Highest(Bincmp(t.part, key, off, t.len));
        TopAgrees(t, off, key);
        SplitMap(t, off, key, data, hb);
        SplitFits(t, off, key, data, hb);
      } else if t.Leaf? {
        assert Key(t.part) in ToMap(t);
        assert Above(t.part, key, 0);
        SameWords(t.part, key);
      } else {
        InsertBelow(t, off, key, data);
      }
    }
  }

  // A key on the path of t agrees with t's part on the first bit of t.
  lemma TopAgrees<V>(t: Trie<V>, off: nat, key: bv64)
    requires t != Empty && off < 64 && Fits(t, off) && OnPath(t, key, off)
    ensures !Differ(t.part, key, off)
  {
    hide Bit;
    var k := SomeKey(t, off);
    PartAgrees(t, off, k);
    assert !Differ(k.word, key, off) && !Differ(k.word, t.part, off);
  }

  lemma {:induction false} InsertBelow<V>(t: Trie<V>, off: nat, key: bv64, data: Value<V>)
    requires off < 64 && t.Branch? && (Fits(t, off) || (Root(t) && off == 63))
    requires OnPath(t, key, off + 1) && Key(key) !in ToMap(t)
    requires Bincmp(t.part, key, off, t.len) == 0
    ensures Root(t) ==> Root(InsertT(t, off, key, data))
    ensures Fits(t, off) ==> Fits(InsertT(t, off, key, data), off)
    ensures ToMap(InsertT(t, off, key, data)) == ToMap(t)[Key(key) := data]
    decreases t, 1
  {
    if Bit(key, off - t.len) {
      hide *;
      InsertOne(t, off, key, data);
    } else {
      hide *;
      InsertZero(t, off, key, data);
    }
  }

  lemma {:induction false} InsertOne<V>(t: Trie<V>, off: nat, key: bv64, data: Value<V>)
    requires off < 64 && t.Branch? && (Fits(t, off) || (Root(t) && off == 63))
    requires OnPath(t, key, off + 1) && Key(key) !in ToMap(t)
    requires Bincmp(t.part, key, off, t.len) == 0 && Bit(key, off - t.len)
    ensures Root(t) ==> Root(InsertT(t, off, key, data))
    ensures Fits(t, off) ==> Fits(InsertT(t, off, key, data), off)
    ensures ToMap(InsertT(t, off, key, data)) == ToMap(t)[Key(key) := data]
    decreases t, 0
  {
    hide Bit, Bincmp, Above, OnPath, Parted, SplitNode, Highest, Differ;
    var next := off - t.len;
    BelowBranch(t, Key(key));
    OnPathBelow(t, off, key);
    PathAbove(t, off, key);
    InsertKeeps(t.one, next, key, data);
    AddBeside(ToMap(t.one), ToMap(t.zero), Key(key), data);
    OneReplaced(t, next, InsertT(t.one, next, key, data), key, data);
  }

  lemma {:induction false} InsertZero<V>(t: Trie<V>, off: nat, key: bv64, data: Value<V>)
    requires off < 64 && t.Branch? && (Fits(t, off) || (Root(t) && off == 63))
    requires OnPath(t, key, off + 1) && Key(key) !in ToMap(t)
    requires Bincmp(t.part, key, off, t.len) == 0 && !Bit(key, off - t.len)
    ensures Root(t) ==> Root(InsertT(t, off, key, data))
    ensures Fits(t, off) ==> Fits(InsertT(t, off, key, data), off)
    ensures ToMap(InsertT(t, off, key, data)) == ToMap(t)[Key(key) := data]
    decreases t, 0
  {
    hide Bit, Bincmp, Above, OnPath, Parted, SplitNode, Highest, Differ;
    var next := off - t.len;
    BelowBranch(t, Key(key));
    OnPathBelow(t, off, key);
    PathAbove(t, off, key);
    InsertKeeps(t.zero, next, key, data);
    AddBeside(ToMap(t.zero), ToMap(t.one), Key(key), data);
    ZeroReplaced(t, next, InsertT(t.zero, next, key, data), key, data);
  }

  lemma OneReplaced<V>(t: Trie<V>, bit: nat, child: Trie<V>, key: bv64, data: Value<V>)
    requires t.Branch? && Parted(t, bit) && ToMap(child) == ToMap(t.one)[Key(key) := data]
    requires Above(key, t.part, bit + 1) && Bit(key, bit)
    ensures Parted(t.(one := child), bit)
  {
    hide Bit, Above;
  }

  lemma ZeroReplaced<V>(t: Trie<V>, bit: nat, child: Trie<V>, key: bv64, data: Value<V>)
    requires t.Branch? && Parted(t, bit) && ToMap(child) == ToMap(t.zero)[Key(key) := data]
    requires Above(key, t.part, bit + 1) && !Bit(key, bit)
    ensures Parted(t.(zero := child), bit)
  {
    hide Bit, Above;
  }

  lemma PathAbove<V>(t: Trie<V>, off: nat, key: bv64)
    requires off < 64 && t.Branch? && (Fits(t, off) || (Root(t) && off == 63))
    requires OnPath(t, key, off + 1) && Bincmp(t.part, key, off, t.len) == 0
    ensures Above(key, t.part, off - t.len + 1)
  {
    hide Bit, Bincmp;
    ZeroMeansSame(t.part, key, off, t.len);
    forall i | off - t.len < i <= off ensures !Differ(key, t.part, i) {
      assert !Differ(t.part, key, i);
    }
    if off < 63 {
      var k := SomeKey(t, off);
      PartAgrees(t, off, k);
      forall i | off < i < 64 ensures !Differ(key, t.part, i) {
        assert !Differ(k.word, key, i) && !Differ(k.word, t.part, i);
      }
    }
  }

  // The root never splits, and a fresh key is added to the map.
  lemma InsertRoot<V>(t: Trie<V>, key: bv64, data: Value<V>)
    requires Root(t) && Key(key) !in ToMap(t)
    ensures Root(InsertT(t, 63, key, data))
    ensures ToMap(InsertT(t, 63, key, data)) == ToMap(t)[Key(key) := data]
  {
    hide Bit;
    InsertBelow(t, 63, key, data);
  }

  // ----- deletion -----

  // parent->part &= ~mask; parent->part |= to_merge->part & mask, with the mask of the
  // bits from `next` down
  function MergedPart(parent: bv64, child: bv64, next: nat): bv64 {
    var mask := Pred(Shl(2, next));
    Join(Meet(parent, Flip(mask)), Meet(child, mask))
  }

  // The remaining child takes its parent's place.
  function Merge<V>(parent: Trie<V>, child: Trie<V>, next: nat): Trie<V>
    requires parent.Branch? && child != Empty
  {
    child.(part := MergedPart(parent.part, child.part, next), len := parent.len + child.len)
  }

  function DeleteT<V>(t: Trie<V>, off: nat, key: bv64): Trie<V>
    requires off < 64 && t.Branch? && (Fits(t, off) || (Root(t) && off == 63))
    decreases t
  {
    var next := off - t.len;
    if Bit(key, next) then
      if t.one.Branch? then t.(one := DeleteT(t.one, next, key))
      else if t.len == 0 then t.(one := Empty)
      else Merge(t, t.zero, next)
    else
      if t.zero.Branch? then t.(zero := DeleteT(t.zero, next, key))
      else if t.len == 0 then t.(zero := Empty)
      else Merge(t, t.one, next)
  }

  lemma MergedBit(parent: bv64, child: bv64, next: nat, i: nat)
    requires next < 64 && i < 64
    ensures Bit(MergedPart(parent, child, next), i) <==> Bit(if i <= next then child else parent, i)
  {
    hide Bit, Shl, Pred, Meet, Flip, Join, One;
    var mask := Low(next + 1);
    TwoIsOne(next);
    LowBits(next + 1, i);
    Not(mask, i);
    And(parent, Flip(mask), i);
    And(child, mask, i);
    Or(Meet(parent, Flip(mask)), Meet(child, mask), i);
  }

  // Parent and child agree above the branching bit, so the merged part is the child's.
  lemma MergedIsChild(parent: bv64, child: bv64, next: nat)
    requires next < 64 && Above(child, parent, next + 1)
    ensures MergedPart(parent, child, next) == child
  {
    hide Bit, MergedPart;
    var merged := MergedPart(parent, child, next);
    forall i | 0 <= i < 64 ensures Bit(merged, i) == Bit(child, i) {
      MergedBit(parent, child, next, i);
      assert i > next ==> !Differ(child, parent, i);
    }
    SameBits(merged, child);
  }

  lemma ChildAbove<V>(t: Trie<V>, off: nat, child: Trie<V>)
    requires off < 64 && t.Branch? && Fits(t, off) && (child == t.zero || child == t.one)
    ensures Above(child.part, t.part, off - t.len + 1)
  {
    hide Bit;
    var next := off - t.len;
    var k := SomeKey(child, next);
    PartAgrees(child, next, k);
    forall i | next < i < 64 ensures !Differ(child.part, t.part, i) {
      assert !Differ(k.word, child.part, i) && !Differ(k.word, t.part, i);
    }
  }

  lemma MergeFits<V>(t: Trie<V>, off: nat, child: Trie<V>)
    requires off < 64 && t.Branch? && Fits(t, off) && (child == t.zero || child == t.one)
    ensures Merge(t, child, off - t.len) == child.(len := t.len + child.len)
    ensures Fits(Merge(t, child, off - t.len), off) && ToMap(Merge(t, child, off - t.len)) == ToMap(child)
  {
    hide Bit, MergedPart;
    var next := off - t.len;
    ChildAbove(t, off, child);
    MergedIsChild(t.part, child.part, next);
    var longer := child.(len := t.len + child.len);
    assert child.Branch? ==> Parted(longer, next - child.len);
  }

  lemma RemoveBeside<K, W>(m: map<K, W>, n: map<K, W>, k: K)
    requires k !in n
    ensures (m - {k}) + n == (m + n) - {k} && n + (m - {k}) == (n + m) - {k}
  {}

  lemma OneShrunk<V>(t: Trie<V>, bit: nat, child: Trie<V>)
    requires t.Branch? && Parted(t, bit) && ToMap(child).Keys <= ToMap(t.one).Keys
    ensures Parted(t.(one := child), bit)
  {
    hide Bit, Above;
  }

  lemma ZeroShrunk<V>(t: Trie<V>, bit: nat, child: Trie<V>)
    requires t.Branch? && Parted(t, bit) && ToMap(child).Keys <= ToMap(t.zero).Keys
    ensures Parted(t.(zero := child), bit)
  {
    hide Bit, Above;
  }

  lemma {:induction false} DeleteKeeps<V>(t: Trie<V>, off: nat, key: bv64)
    requires off < 64 && t.Branch? && (Fits(t, off) || (Root(t) && off == 63)) && Key(key) in ToMap(t)
    ensures DeleteT(t, off, key) != Empty
    ensures Root(t) ==> Root(DeleteT(t, off, key))
    ensures Fits(t, off) ==> Fits(DeleteT(t, off, key), off)
    ensures ToMap(DeleteT(t, off, key)) == ToMap(t) - {Key(key)}
    decreases t
  {
    hide Bit, MergedPart, Above;
    if Bit(key, off - t.len) {
      DeleteOne(t, off, key);
    } else {
      DeleteZero(t, off, key);
    }
  }

  lemma {:induction false} DeleteOne<V>(t: Trie<V>, off: nat, key: bv64)
    requires off < 64 && t.Branch? && (Fits(t, off) || (Root(t) && off == 63)) && Key(key) in ToMap(t)
    requires Bit(key, off - t.len)
    ensures DeleteT(t, off, key) != Empty
    ensures Root(t) ==> Root(DeleteT(t, off, key))
    ensures Fits(t, off) ==> Fits(DeleteT(t, off, key), off)
    ensures ToMap(DeleteT(t, off, key)) == ToMap(t) - {Key(key)}
    decreases t, 0
  {
    hide Bit, MergedPart, Above, Merge, Differ;
    var next := off - t.len;
    BelowBranch(t, Key(key));
    assert Key(key) in ToMap(t.one) && Key(key) !in ToMap(t.zero);
    RemoveBeside(ToMap(t.one), ToMap(t.zero), Key(key));
    if t.one.Branch? {
      DeleteKeeps(t.one, next, key);
      OneShrunk(t, next, DeleteT(t.one, next, key));
    } else {
      assert ToMap(t.one) - {Key(key)} == map[];
      if t.len > 0 { MergeFits(t, off, t.zero); } else { OneShrunk(t, next, Empty); }
    }
  }

  lemma {:induction false} DeleteZero<V>(t: Trie<V>, off: nat, key: bv64)
    requires off < 64 && t.Branch? && (Fits(t, off) || (Root(t) && off == 63)) && Key(key) in ToMap(t)
    requires !Bit(key, off - t.len)
    ensures DeleteT(t, off, key) != Empty
    ensures Root(t) ==> Root(DeleteT(t, off, key))
    ensures Fits(t, off) ==> Fits(DeleteT(t, off, key), off)
    ensures ToMap(DeleteT(t, off, key)) == ToMap(t) - {Key(key)}
    decreases t, 0
  {
    hide Bit, MergedPart, Above, Merge, Differ;
    var next := off - t.len;
    BelowBranch(t, Key(key));
    assert Key(key) in ToMap(t.zero) && Key(key) !in ToMap(t.one);
    RemoveBeside(ToMap(t.zero), ToMap(t.one), Key(key));
    if t.zero.Branch? {
      DeleteKeeps(t.zero, next, key);
      ZeroShrunk(t, next, DeleteT(t.zero, next, key));
    } else {
      assert ToMap(t.zero) - {Key(key)} == map[];
      if t.len > 0 { MergeFits(t, off, t.one); } else { ZeroShrunk(t, next, Empty); }
    }
  }

  // ----- shape -----

  // The same tree, up to bits of `part` that no lookup compares
  ghost predicate SameShape<V>(t: Trie<V>, u: Trie<V>, off: nat)
    decreases t
  {
    match t
    case Empty => u == Empty
    case Leaf(part, len, data) => u == t
    case Branch(part, len, zero, one) =>
      && u.Branch? && u.len == len && len <= off
      && (forall i | off - len < i <= off :: !Differ(part, u.part, i))
      && SameShape(zero, u.zero, off - len) && SameShape(one, u.one, off - len)
  }

  // Two subtrees with the same keys branch at the same bit.
  lemma SameBranching<V>(t: Trie<V>, u: Trie<V>, off: nat)
    requires off < 64 && Fits(t, off) && Fits(u, off) && t.Branch? && ToMap(t) == ToMap(u)
    ensures u.Branch? && u.len <= t.len
  {
    hide Bit;
    var next := off - t.len;
    var k0 := SomeKey(t.zero, next);
    var k1 := SomeKey(t.one, next);
    assert k0 in ToMap(t) && k1 in ToMap(t);
    PartAgrees(u, off, k0);
    PartAgrees(u, off, k1);
    OneOfTwoDiffers(k0.word, k1.word, u.part, next);
  }

  lemma OneOfTwoDiffers(a: bv64, b: bv64, part: bv64, i: nat)
    requires Bit(a, i) != Bit(b, i)
    ensures Differ(a, part, i) || Differ(b, part, i)
  {}

  lemma SameHalves<V>(t: Trie<V>, u: Trie<V>, bit: nat)
    requires t.Branch? && u.Branch? && Parted(t, bit) && Parted(u, bit) && ToMap(t) == ToMap(u)
    ensures ToMap(t.zero) == ToMap(u.zero) && ToMap(t.one) == ToMap(u.one)
  {
    hide Bit, Above;
    forall k ensures k in ToMap(t.zero) <==> k in ToMap(u.zero) {
      BelowBranch(t, k);
      BelowBranch(u, k);
    }
    forall k ensures k in ToMap(t.one) <==> k in ToMap(u.one) {
      BelowBranch(t, k);
      BelowBranch(u, k);
    }
    forall k | k in ToMap(t.zero) ensures ToMap(t.zero)[k] == ToMap(u.zero)[k] {
      assert k !in ToMap(t.one) && k !in ToMap(u.one) && ToMap(t)[k] == ToMap(u)[k];
    }
    forall k | k in ToMap(t.one) ensures ToMap(t.one)[k] == ToMap(u.one)[k] {
      assert ToMap(t)[k] == ToMap(u)[k];
    }
  }

  lemma SameParts<V>(t: Trie<V>, u: Trie<V>, off: nat)
    requires off < 64 && Fits(t, off) && Fits(u, off) && t != Empty && u.Branch? && ToMap(t) == ToMap(u)
      && t.len == u.len
    ensures forall i | off - t.len < i <= off :: !Differ(t.part, u.part, i)
  {
    hide Bit;
    var k := SomeKey(t, off);
    PartAgrees(t, off, k);
    PartAgrees(u, off, k);
    forall i | off - t.len < i <= off ensures !Differ(t.part, u.part, i) {
      assert !Differ(k.word, t.part, i) && !Differ(k.word, u.part, i);
    }
  }

  lemma {:induction false} Canonical<V>(t: Trie<V>, u: Trie<V>, off: nat)
    requires off < 64 && Fits(t, off) && Fits(u, off) && ToMap(t) == ToMap(u)
    ensures SameShape(t, u, off)
    decreases t
  {
    hide Bit, Above, Parted, Differ;
    match t
    case Empty =>
      if u != Empty { var k := SomeKey(u, off); }
    case Leaf(part, len, data) =>
      if u.Branch? { SameBranching(u, t, off); }
      assert Key(part) in ToMap(u);
    case Branch(part, len, zero, one) =>
      SameBranching(t, u, off);
      SameBranching(u, t, off);
      SameHalves(t, u, off - len);
      Canonical(zero, u.zero, off - len);
      Canonical(one, u.one, off - len);
      SameParts(t, u, off);
  }

  // Whatever the order of insertions and deletions, the map decides the tree.
  lemma CanonicalRoot<V>(t: Trie<V>, u: Trie<V>)
    requires Root(t) && Root(u) && ToMap(t) == ToMap(u)
    ensures SameShape(t, u, 63)
  {
    hide Bit;
    SameHalves(t, u, 63);
    Canonical(t.zero, u.zero, 63);
    Canonical(t.one, u.one, 63);
  }

  // ----- an insertion undone -----

  lemma SplitUndone<V>(t: Trie<V>, off: nat, key: bv64, data: Value<V>, hb: nat)
    requires t != Empty && off < 64 && hb < off && off - hb <= t.len
    requires Fits(SplitNode(t, off, key, data, hb), off)
    ensures DeleteT(SplitNode(t, off, key, data, hb), off, key) == t
  {
    hide Bit, MergedPart, Above, Parted;
    var split := SplitNode(t, off, key, data, hb);
    var lower := t.(len := t.len - (off - hb));
    MergeFits(split, off, lower);
  }

  lemma {:induction false} InsertUndone<V>(t: Trie<V>, off: nat, key: bv64, data: Value<V>)
    requires off < 64 && t != Empty && ((Fits(t, off) && OnPath(t, key, off)) || (Root(t) && off == 63))
    requires Key(key) !in ToMap(t)
    ensures Fits(t, off) ==> Fits(InsertT(t, off, key, data), off)
    ensures Root(t) ==> Root(InsertT(t, off, key, data))
    ensures InsertT(t, off, key, data).Branch? && DeleteT(InsertT(t, off, key, data), off, key) == t
    decreases t
  {
    hide Bit, Bincmp, Above, Parted, Highest, Differ;
    if t.Branch? && t.len == 0 {
      RootMatches(t.part, key);
      RootPath(t, key);
      InsertBelow(t, off, key, data);
      UndoneBelow(t, off, key, data);
    } else {
      InsertKeeps(t, off, key, data);
      if Bincmp(t.part, key, off, t.len) != 0 {
        SplitsInside(t.part, key, off, t.len);
        TopAgrees(t, off, key);
        TopDiffers(t.part, key, off, Highest(Bincmp(t.part, key, off, t.len)));
        SplitUndone(t, off, key, data, Highest(Bincmp(t.part, key, off, t.len)));
      } else if t.Leaf? {
        LeafMatches(t, off, key);
      } else {
        OnPathWeaker(t, key, off);
        UndoneBelow(t, off, key, data);
      }
    }
  }

  lemma TopDiffers(a: bv64, b: bv64, off: nat, hb: nat)
    requires !Differ(a, b, off) && Differ(a, b, hb) && hb <= off
    ensures hb < off
  {}

  lemma OnPathWeaker<V>(t: Trie<V>, key: bv64, off: nat)
    requires OnPath(t, key, off)
    ensures OnPath(t, key, off + 1)
  {
    hide Bit;
  }

  lemma RootMatches(a: bv64, b: bv64)
    ensures Bincmp(a, b, 63, 0) == 0
  {}

  lemma RootPath<V>(t: Trie<V>, key: bv64)
    ensures OnPath(t, key, 64)
  {}

  lemma LeafMatches<V>(t: Trie<V>, off: nat, key: bv64)
    requires off < 64 && t.Leaf? && Fits(t, off) && OnPath(t, key, off) && Bincmp(t.part, key, off, t.len) == 0
    ensures Key(key) in ToMap(t)
  {
    hide Bit, Bincmp;
    ZeroMeansSame(t.part, key, off, t.len);
    assert Key(t.part) in ToMap(t);
    assert Above(t.part, key, off);
    SameWords(t.part, key);
  }

  lemma {:induction false} UndoneBelow<V>(t: Trie<V>, off: nat, key: bv64, data: Value<V>)
    requires off < 64 && t.Branch? && (Fits(t, off) || (Root(t) && off == 63))
    requires OnPath(t, key, off + 1) && Key(key) !in ToMap(t) && Bincmp(t.part, key, off, t.len) == 0
    requires InsertT(t, off, key, data).Branch?
    requires Fits(InsertT(t, off, key, data), off) || (Root(InsertT(t, off, key, data)) && off == 63)
    ensures DeleteT(InsertT(t, off, key, data), off, key) == t
    decreases t, 0
  {
    hide Bit, Bincmp, Above, OnPath, Parted, Highest, Differ, SplitNode, MergedPart;
    var next := off - t.len;
    OnPathBelow(t, off, key);
    BelowBranch(t, Key(key));
    if Bit(key, next) {
      if t.one != Empty { InsertUndone(t.one, next, key, data); }
    } else {
      if t.zero != Empty { InsertUndone(t.zero, next, key, data); }
    }
  }

  // ----- how large, how deep -----

  function Nodes<V>(t: Trie<V>): nat {
    match t
    case Empty => 0
    case Leaf(_, _, _) => 1
    case Branch(_, _, zero, one) => 1 + Nodes(zero) + Nodes(one)
  }

  // Nodes a lookup can visit
  function Depth<V>(t: Trie<V>): nat {
    match t
    case Empty => 0
    case Leaf(_, _, _) => 1
    case Branch(_, _, zero, one) => 1 + if Depth(zero) > Depth(one) then Depth(zero) else Depth(one)
  }

  lemma HalvesAddUp<V>(t: Trie<V>, bit: nat)
    requires t.Branch? && Parted(t, bit)
    ensures |ToMap(t)| == |ToMap(t.zero)| + |ToMap(t.one)|
  {
    hide Bit, Above;
    var a, b := ToMap(t.zero), ToMap(t.one);
    forall k | k in a.Keys ensures k !in b.Keys {
      assert k in a;
    }
    assert ToMap(t).Keys == a.Keys + b.Keys && a.Keys * b.Keys == {};
    assert |a.Keys + b.Keys| == |a.Keys| + |b.Keys|;
  }

  lemma {:induction false} NodeCount<V>(t: Trie<V>, off: nat)
    requires off < 64 && Fits(t, off)
    ensures t != Empty ==> |ToMap(t)| > 0 && Nodes(t) == 2 * |ToMap(t)| - 1
    ensures Depth(t) <= off + 1
    decreases t
  {
    hide Bit, Parted;
    if t.Branch? {
      HalvesAddUp(t, off - t.len);
      NodeCount(t.zero, off - t.len);
      NodeCount(t.one, off - t.len);
    }
  }

  // n keys take at most 2n nodes, the root included, and a lookup visits at most 65.
  lemma RootCount<V>(t: Trie<V>)
    requires Root(t)
    ensures |ToMap(t)| > 0 ==> Nodes(t) <= 2 * |ToMap(t)|
    ensures Depth(t) <= 65
  {
    hide Bit, Parted;
    HalvesAddUp(t, 63);
    NodeCount(t.zero, 63);
    NodeCount(t.one, 63);
  }

  // ----- binradix_for_each -----

  // The keys and data visited, in the order of the visits
  function Walk<V>(t: Trie<V>): seq<(Key, V)> {
    match t
    case Empty => []
    case Leaf(part, _, data) => if data.Ptr? then [(Key(part), data.v)] else []
    case Branch(_, _, zero, one) => Walk(zero) + Walk(one)
  }

  predicate Increasing<V>(w: seq<(Key, V)>) {
    forall i, j | 0 <= i < j < |w| :: Before(w[i].0.word, w[j].0.word)
  }

  predicate Before(a: bv64, b: bv64) {
    a < b
  }

  lemma {:induction false} WalkIsMap<V>(t: Trie<V>, off: nat, k: Key, v: V)
    requires off < 64 && (Fits(t, off) || (Root(t) && off == 63))
    ensures (k, v) in Walk(t) <==> k in ToMap(t) && ToMap(t)[k] == Ptr(v)
    decreases t
  {
    hide Bit, Above;
    if t.Branch? {
      var next := off - t.len;
      BelowBranch(t, k);
      WalkIsMap(t.zero, next, k, v);
      WalkIsMap(t.one, next, k, v);
      assert !(k in ToMap(t.zero) && k in ToMap(t.one));
    }
  }

  lemma {:induction false} WalkIncreases<V>(t: Trie<V>, off: nat)
    requires off < 64 && (Fits(t, off) || (Root(t) && off == 63))
    ensures Increasing(Walk(t))
    decreases t
  {
    hide Bit, Above, Parted, Increasing;
    match t
    case Empty => OneVisit(Walk(t));
    case Leaf(_, _, _) => OneVisit(Walk(t));
    case Branch(_, len, zero, one) =>
      WalkIncreases(zero, off - len);
      WalkIncreases(one, off - len);
      SidesWalk(t, off);
      JoinIncreasing(Walk(zero), Walk(one));
  }

  lemma OneVisit<V>(w: seq<(Key, V)>)
    requires |w| <= 1
    ensures Increasing(w)
  {}

  lemma Halves<V>(t: Trie<V>, off: nat)
    requires off < 64 && t.Branch? && (Fits(t, off) || (Root(t) && off == 63))
    ensures t.len <= off && Fits(t.zero, off - t.len) && Fits(t.one, off - t.len) && Parted(t, off - t.len)
  {
    hide Parted;
  }

  lemma PartedKeys<V>(t: Trie<V>, bit: nat, j: Key, k: Key)
    requires t.Branch? && Parted(t, bit) && j in ToMap(t.zero) && k in ToMap(t.one)
    ensures Above(j.word, t.part, bit + 1) && !Bit(j.word, bit) && Above(k.word, t.part, bit + 1) && Bit(k.word, bit)
  {
    hide Above, Bit;
  }

  lemma SidesPair<V>(t: Trie<V>, off: nat, j: Key, v: V, k: Key, w: V)
    requires off < 64 && t.Branch? && (Fits(t, off) || (Root(t) && off == 63))
    requires (j, v) in Walk(t.zero) && (k, w) in Walk(t.one)
    ensures Before(j.word, k.word)
  {
    hide *;
    Halves(t, off);
    var next := off - t.len;
    WalkIsMap(t.zero, next, j, v);
    WalkIsMap(t.one, next, k, w);
    PartedKeys(t, next, j, k);
    SidesOrdered(t, next, j.word, k.word);
  }

  lemma SidesWalk<V>(t: Trie<V>, off: nat)
    requires off < 64 && t.Branch? && (Fits(t, off) || (Root(t) && off == 63))
    ensures forall a, b | a in Walk(t.zero) && b in Walk(t.one) :: Before(a.0.word, b.0.word)
  {
    hide *;
    forall a, b | a in Walk(t.zero) && b in Walk(t.one) ensures Before(a.0.word, b.0.word) {
      SidesPair(t, off, a.0, a.1, b.0, b.1);
    }
  }

  lemma SidesOrdered<V>(t: Trie<V>, bit: nat, a: bv64, b: bv64)
    requires t.Branch? && bit < 64 && Above(a, t.part, bit + 1) && Above(b, t.part, bit + 1)
    requires !Bit(a, bit) && Bit(b, bit)
    ensures Before(a, b)
  {
    hide Bit;
    forall i | bit < i < 64 ensures Bit(a, i) == Bit(b, i) {
      assert !Differ(a, t.part, i) && !Differ(b, t.part, i);
    }
    BitOrder(a, b, bit);
  }

  lemma JoinIncreasing<V>(u: seq<(Key, V)>, w: seq<(Key, V)>)
    requires Increasing(u) && Increasing(w)
    requires forall a, b | a in u && b in w :: Before(a.0.word, b.0.word)
    ensures Increasing(u + w)
  {
    hide Before;
    forall i, j | 0 <= i < j < |u + w| ensures Before((u + w)[i].0.word, (u + w)[j].0.word) {
      if i < |u| <= j {
        assert u[i] in u && w[j - |u|] in w;
      }
    }
  }

  // ----- runs -----

  datatype Op<V> = Insert(key: bv64, data: Value<V>) | Delete(key: bv64)

  predicate AllowedOp<V>(m: map<Key, Value<V>>, op: Op<V>) {
    if op.Insert? then Key(op.key) !in m else Key(op.key) in m
  }

  function MapDo<V>(m: map<Key, Value<V>>, op: Op<V>): map<Key, Value<V>> {
    if op.Insert? then m[Key(op.key) := op.data] else m - {Key(op.key)}
  }

  function TrieDo<V>(t: Trie<V>, op: Op<V>): Trie<V>
    requires Root(t)
  {
    if op.Insert? then InsertT(t, 63, op.key, op.data) else DeleteT(t, 63, op.key)
  }

  lemma DoRefines<V>(t: Trie<V>, op: Op<V>)
    requires Root(t) && AllowedOp(ToMap(t), op)
    ensures Root(TrieDo(t, op)) && ToMap(TrieDo(t, op)) == MapDo(ToMap(t), op)
  {
    hide Bit;
    if op.Insert? {
      InsertRoot(t, op.key, op.data);
    } else {
      DeleteKeeps(t, 63, op.key);
    }
  }

  predicate AllowedRun<V>(m: map<Key, Value<V>>, ops: seq<Op<V>>)
    decreases |ops|
  {
    ops == [] || (AllowedOp(m, ops[0]) && AllowedRun(MapDo(m, ops[0]), ops[1..]))
  }

  function MapRun<V>(m: map<Key, Value<V>>, ops: seq<Op<V>>): map<Key, Value<V>>
    decreases |ops|
  {
    if ops == [] then m else MapRun(MapDo(m, ops[0]), ops[1..])
  }

  function TrieRun<V>(t: Trie<V>, ops: seq<Op<V>>): (r: Trie<V>)
    requires Root(t) && AllowedRun(ToMap(t), ops)
    ensures Root(r) && ToMap(r) == MapRun(ToMap(t), ops)
    decreases |ops|
  {
    if ops == [] then t
    else
      DoRefines(t, ops[0]);
      TrieRun(TrieDo(t, ops[0]), ops[1..])
  }

  // Two histories of insertions and deletions that leave the same map leave the same tree.
  lemma HistoryIrrelevant<V>(t: Trie<V>, u: Trie<V>, a: seq<Op<V>>, b: seq<Op<V>>)
    requires Root(t) && Root(u) && AllowedRun(ToMap(t), a) && AllowedRun(ToMap(u), b)
    requires MapRun(ToMap(t), a) == MapRun(ToMap(u), b)
    ensures SameShape(TrieRun(t, a), TrieRun(u, b), 63)
  {
    hide Root, Fits;
    CanonicalRoot(TrieRun(t, a), TrieRun(u, b));
  }
}
