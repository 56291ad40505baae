// The thirteen doubly linked free lists of libc/malloc.c. `prev` is the address of the
// pointer that leads to the header: a list head or the `next` field of the header before.
module BuddyLists {
  datatype Cell = Nowhere | Head(order: nat) | NextOf(hdr: nat)

  datatype Hdr = Hdr(next: nat, prev: Cell, flags: nat)

  const FREE: nat := 32
  const HUGE: nat := 16
  const ORDERS: nat := 13

  // _free and the headers in memory
  datatype Store = Store(free: seq<nat>, hdrs: map<nat, Hdr>)

  function NextIn(l: seq<nat>, i: nat): nat {
    if i + 1 < |l| then l[i + 1] else 0
  }

  function PrevIn(l: seq<nat>, i: nat, k: nat): Cell
    requires i < |l|
  {
    if i == 0 then Head(k) else NextOf(l[i - 1])
  }

  function First(l: seq<nat>): nat {
    if l == [] then 0 else l[0]
  }

  predicate Chain(s: Store, k: nat, l: seq<nat>)
    requires k < |s.free|
  {
    && s.free[k] == First(l)
    && (forall i | 0 <= i < |l| :: l[i] != 0 && l[i] in s.hdrs)
    && (forall i | 0 <= i < |l| :: s.hdrs[l[i]] == Hdr(NextIn(l, i), PrevIn(l, i, k), FREE + k))
    && (forall i, j | 0 <= i < j < |l| :: l[i] != l[j])
  }

  // lists[k] is the free list of order k.
  predicate Lists(s: Store, lists: seq<seq<nat>>) {
    |s.free| == ORDERS && |lists| == ORDERS && forall k | 0 <= k < ORDERS :: Chain(s, k, lists[k])
  }

  predicate Listed(lists: seq<seq<nat>>, x: nat) {
    exists k | 0 <= k < |lists| :: x in lists[k]
  }

  function SetPrev(hdrs: map<nat, Hdr>, x: nat, c: Cell): map<nat, Hdr> {
    if x != 0 && x in hdrs then hdrs[x := Hdr(hdrs[x].next, c, hdrs[x].flags)] else hdrs
  }

  function SetNext(hdrs: map<nat, Hdr>, x: nat, n: nat): map<nat, Hdr> {
    if x in hdrs then hdrs[x := Hdr(n, hdrs[x].prev, hdrs[x].flags)] else hdrs
  }

  // insert
  function Push(s: Store, k: nat, x: nat): Store {
    if k >= |s.free| then s
    else Store(s.free[k := x], SetPrev(s.hdrs[x := Hdr(s.free[k], Head(k), FREE + k)], s.free[k], NextOf(x)))
  }

  // *(x->prev) = n
  function StoreAt(s: Store, c: Cell, n: nat): Store {
    match c
    case Nowhere => s
    case Head(k) => if k < |s.free| then Store(s.free[k := n], s.hdrs) else s
    case NextOf(h) => Store(s.free, SetNext(s.hdrs, h, n))
  }

  // A header leaves its list; its own fields stay as they were.
  function Unlink(s: Store, x: nat): Store {
    if x !in s.hdrs then s
    else
      var h := s.hdrs[x];
      var s1 := StoreAt(s, h.prev, h.next);
      Store(s1.free, SetPrev(s1.hdrs, h.next, h.prev))
  }

  // Headers in different lists are different headers.
  lemma OwnOrder(s: Store, lists: seq<seq<nat>>, k: nat, x: nat)
    requires Lists(s, lists) && k < ORDERS && x in lists[k]
    ensures x in s.hdrs && s.hdrs[x].flags == FREE + k && x != 0
  {
    assert Chain(s, k, lists[k]);
  }

  // A store that leaves the head and the headers of a list alone leaves the list alone.
  lemma Undisturbed(s: Store, t: Store, k: nat, l: seq<nat>)
    requires k < |s.free| && k < |t.free| && Chain(s, k, l) && t.free[k] == s.free[k]
    requires forall x | x in l :: x in s.hdrs && x in t.hdrs && t.hdrs[x] == s.hdrs[x]
    ensures Chain(t, k, l)
  {}

  lemma PushChain(s: Store, k: nat, l: seq<nat>, x: nat)
    requires k < |s.free| && Chain(s, k, l) && x != 0 && x !in l
    ensures Chain(Push(s, k, x), k, [x] + l)
  {
    var t := Push(s, k, x);
    var m := [x] + l;
    forall i | 0 <= i < |m| ensures t.hdrs[m[i]] == Hdr(NextIn(m, i), PrevIn(m, i, k), FREE + k) {
      if i > 0 {
        assert m[i] == l[i - 1];
        assert NextIn(m, i) == NextIn(l, i - 1);
      }
    }
  }

  lemma PushLists(s: Store, lists: seq<seq<nat>>, k: nat, x: nat)
    requires Lists(s, lists) && k < ORDERS && x != 0 && !Listed(lists, x)
    ensures |Push(s, k, x).free| == ORDERS && Lists(Push(s, k, x), lists[k := [x] + lists[k]])
  {
    hide Chain, Push;
    var t := Push(s, k, x);
    PushFrame(s, k, x);
    assert Chain(s, k, lists[k]);
    PushChain(s, k, lists[k], x);
    forall j | 0 <= j < ORDERS && j != k ensures Chain(t, j, lists[j]) {
      assert Chain(s, j, lists[j]);
      forall y | y in lists[j] ensures y in s.hdrs && y in t.hdrs && t.hdrs[y] == s.hdrs[y] {
        OwnOrder(s, lists, j, y);
        FirstOther(s, lists, k, j, y);
        assert Listed(lists, y);
      }
      Undisturbed(s, t, j, lists[j]);
    }
  }

  lemma PushFrame(s: Store, k: nat, x: nat)
    requires k < |s.free|
    ensures |Push(s, k, x).free| == |s.free|
    ensures forall j | 0 <= j < |s.free| && j != k :: Push(s, k, x).free[j] == s.free[j]
    ensures forall y | y in s.hdrs && y != x && y != s.free[k] ::
      y in Push(s, k, x).hdrs && Push(s, k, x).hdrs[y] == s.hdrs[y]
  {}

  lemma FirstOther(s: Store, lists: seq<seq<nat>>, k: nat, j: nat, y: nat)
    requires Lists(s, lists) && k < ORDERS && j < ORDERS && j != k && y in lists[j]
    ensures y != s.free[k]
  {
    OwnOrder(s, lists, j, y);
    assert Chain(s, k, lists[k]);
    if lists[k] != [] { OwnOrder(s, lists, k, lists[k][0]); }
  }

  function Without(l: seq<nat>, i: nat): seq<nat>
    requires i < |l|
  {
    l[..i] + l[i + 1..]
  }

  lemma UnlinkChain(s: Store, k: nat, l: seq<nat>, i: nat)
    requires k < |s.free| && Chain(s, k, l) && i < |l|
    ensures Chain(Unlink(s, l[i]), k, Without(l, i))
  {
    var t := Unlink(s, l[i]);
    var m := Without(l, i);
    UnlinkHead(s, k, l, i);
    forall j | 0 <= j < |m| ensures m[j] in t.hdrs && t.hdrs[m[j]] == Hdr(NextIn(m, j), PrevIn(m, j, k), FREE + k) {
      UnlinkOne(s, k, l, i, j);
    }
  }

  lemma UnlinkHead(s: Store, k: nat, l: seq<nat>, i: nat)
    requires k < |s.free| && Chain(s, k, l) && i < |l|
    ensures |Unlink(s, l[i]).free| == |s.free| && Unlink(s, l[i]).free[k] == First(Without(l, i))
  {}

  predicate Before(l: seq<nat>, i: nat, y: nat) {
    0 < i < |l| && y == l[i - 1]
  }

  predicate After(l: seq<nat>, i: nat, y: nat) {
    i + 1 < |l| && y == l[i + 1]
  }

  // Unlink touches the header before and the header after, and the head if it is first.
  lemma UnlinkHdr(s: Store, k: nat, l: seq<nat>, i: nat, y: nat)
    requires k < |s.free| && Chain(s, k, l) && i < |l| && y in s.hdrs
    ensures y in Unlink(s, l[i]).hdrs && Unlink(s, l[i]).hdrs[y].flags == s.hdrs[y].flags
    ensures Unlink(s, l[i]).hdrs[y].next == if Before(l, i, y) then NextIn(l, i) else s.hdrs[y].next
    ensures Unlink(s, l[i]).hdrs[y].prev == if After(l, i, y) then PrevIn(l, i, k) else s.hdrs[y].prev
  {
    assert s.hdrs[l[i]] == Hdr(NextIn(l, i), PrevIn(l, i, k), FREE + k);
    if i > 0 { assert l[i - 1] in s.hdrs; }
    if i + 1 < |l| { assert l[i + 1] in s.hdrs && l[i + 1] != 0; }
  }

  lemma UnlinkOne(s: Store, k: nat, l: seq<nat>, i: nat, j: nat)
    requires k < |s.free| && Chain(s, k, l) && i < |l| && j < |l| - 1
    ensures var m := Without(l, i);
      m[j] in Unlink(s, l[i]).hdrs && Unlink(s, l[i]).hdrs[m[j]] == Hdr(NextIn(m, j), PrevIn(m, j, k), FREE + k)
  {
    hide Unlink;
    var was := if j < i then j else j + 1;
    assert s.hdrs[l[was]] == Hdr(NextIn(l, was), PrevIn(l, was, k), FREE + k);
    UnlinkHdr(s, k, l, i, l[was]);
    Neighbours(l, i, j);
  }

  lemma Neighbours(l: seq<nat>, i: nat, j: nat)
    requires i < |l| && j < |l| - 1 && forall a, b | 0 <= a < b < |l| :: l[a] != l[b]
    ensures var m, was := Without(l, i), if j < i then j else j + 1;
      && m[j] == l[was]
      && (Before(l, i, l[was]) <==> was + 1 == i) && (After(l, i, l[was]) <==> was == i + 1)
      && NextIn(m, j) == (if was + 1 == i then NextIn(l, i) else NextIn(l, was))
      && forall k :: PrevIn(m, j, k) == if was == i + 1 then PrevIn(l, i, k) else PrevIn(l, was, k)
  {}

  lemma UnlinkFrame(s: Store, k: nat, l: seq<nat>, i: nat)
    requires k < |s.free| && Chain(s, k, l) && i < |l|
    ensures forall j | 0 <= j < |s.free| && j != k :: Unlink(s, l[i]).free[j] == s.free[j]
    ensures forall y | y in s.hdrs :: y in Unlink(s, l[i]).hdrs && Unlink(s, l[i]).hdrs[y].flags == s.hdrs[y].flags
    ensures forall y | y in s.hdrs && y !in l :: Unlink(s, l[i]).hdrs[y] == s.hdrs[y]
  {
    UnlinkElsewhere(s, k, l, i);
    hide Unlink, Chain;
    forall y | y in s.hdrs
      ensures y in Unlink(s, l[i]).hdrs && Unlink(s, l[i]).hdrs[y].flags == s.hdrs[y].flags
      ensures y !in l ==> Unlink(s, l[i]).hdrs[y] == s.hdrs[y]
    {
      UnlinkHdr(s, k, l, i, y);
    }
  }

  lemma UnlinkElsewhere(s: Store, k: nat, l: seq<nat>, i: nat)
    requires k < |s.free| && Chain(s, k, l) && i < |l|
    ensures |Unlink(s, l[i]).free| == |s.free|
    ensures forall j | 0 <= j < |s.free| && j != k :: Unlink(s, l[i]).free[j] == s.free[j]
  {
    assert s.hdrs[l[i]] == Hdr(NextIn(l, i), PrevIn(l, i, k), FREE + k);
  }

  lemma UnlinkLists(s: Store, lists: seq<seq<nat>>, k: nat, i: nat)
    requires Lists(s, lists) && k < ORDERS && i < |lists[k]|
    ensures lists[k][i] in s.hdrs && |Unlink(s, lists[k][i]).free| == ORDERS
    ensures Lists(Unlink(s, lists[k][i]), lists[k := Without(lists[k], i)])
  {
    hide Chain, Unlink, Without;
    OwnOrder(s, lists, k, lists[k][i]);
    var t := Unlink(s, lists[k][i]);
    assert Chain(s, k, lists[k]);
    UnlinkChain(s, k, lists[k], i);
    UnlinkFrame(s, k, lists[k], i);
    UnlinkHead(s, k, lists[k], i);
    UnlinkElsewhere(s, k, lists[k], i);
    forall j | 0 <= j < ORDERS && j != k ensures Chain(t, j, lists[j]) {
      assert Chain(s, j, lists[j]);
      forall y | y in lists[j] ensures y in s.hdrs && y in t.hdrs && t.hdrs[y] == s.hdrs[y] {
        OwnOrder(s, lists, j, y);
        if y in lists[k] { OwnOrder(s, lists, k, y); }
      }
      Undisturbed(s, t, j, lists[j]);
    }
  }

  // A header that is in no list may be written.
  lemma OutsideLists(s: Store, lists: seq<seq<nat>>, x: nat, h: Hdr)
    requires Lists(s, lists) && !Listed(lists, x)
    ensures Lists(Store(s.free, s.hdrs[x := h]), lists)
  {
    hide Chain;
    var t := Store(s.free, s.hdrs[x := h]);
    forall j | 0 <= j < ORDERS ensures Chain(t, j, lists[j]) {
      assert Chain(s, j, lists[j]);
      forall y | y in lists[j] ensures y in s.hdrs && y in t.hdrs && t.hdrs[y] == s.hdrs[y] {
        OwnOrder(s, lists, j, y);
      }
      Undisturbed(s, t, j, lists[j]);
    }
  }
}
