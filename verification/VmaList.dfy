// The sorted list of VMAs of an address space, with the page entries each of them holds:
// sys/mm/aspace.c.
module VmaList {
  const PAGE: nat := 4096

  // struct vm_area; `pages` lists the addresses of its page entries
  datatype Vma = Vma(begin: nat, length: nat, pages: seq<nat>)

  function End(v: Vma): nat {
    v.begin + v.length
  }

  predicate Inside(v: Vma, a: nat) {
    v.begin <= a < End(v)
  }

  // ----- what the list means -----

  predicate Covers(vmas: seq<Vma>, a: nat) {
    exists i | 0 <= i < |vmas| :: Inside(vmas[i], a)
  }

  // A gap below the top of the space, or before some VMA
  predicate Fits(vmas: seq<Vma>, a: nat, n: nat, high: nat) {
    Gap(vmas, a, n) && (a + n <= high || exists i | 0 <= i < |vmas| :: a + n <= vmas[i].begin)
  }

  // [a, a + n) does not run into a VMA
  predicate Clear(v: Vma, a: nat, n: nat) {
    End(v) <= a || a + n <= v.begin
  }

  predicate Gap(vmas: seq<Vma>, a: nat, n: nat) {
    forall i | 0 <= i < |vmas| :: Clear(vmas[i], a, n)
  }

  predicate Before(v: Vma, w: Vma) {
    End(v) <= w.begin
  }

  predicate Sorted(vmas: seq<Vma>) {
    forall i, j | 0 <= i < j < |vmas| :: Before(vmas[i], vmas[j])
  }

  // Each page entry lies in the VMA that holds it, and is held once.
  predicate Holds(v: Vma) {
    (forall p | p in v.pages :: Inside(v, p)) && forall i, j | 0 <= i < j < |v.pages| :: v.pages[i] != v.pages[j]
  }

  predicate AllHold(vmas: seq<Vma>) {
    forall i | 0 <= i < |vmas| :: Holds(vmas[i])
  }

  predicate Listed(vmas: seq<Vma>, p: nat) {
    exists i | 0 <= i < |vmas| :: p in vmas[i].pages
  }

  // The radix index knows exactly the entries in the lists.
  ghost predicate Indexed(vmas: seq<Vma>, index: map<nat, nat>) {
    forall p: nat :: p in index <==> Listed(vmas, p)
  }

  predicate InRange(a: nat, base: nat, end: nat) {
    base <= a < end
  }

  function Restrict(index: map<nat, nat>, base: nat, end: nat): map<nat, nat> {
    map p | p in index && !InRange(p, base, end) :: index[p]
  }

  // ----- lists of page entries -----

  // What stays when the entries of the range go
  function Outside(pages: seq<nat>, base: nat, end: nat): seq<nat> {
    if pages == [] then []
    else if InRange(pages[0], base, end) then Outside(pages[1..], base, end)
    else [pages[0]] + Outside(pages[1..], base, end)
  }

  // The entries below base, and those from end on; the latter are moved to the front of a
  // new list one by one.
  function Lower(pages: seq<nat>, base: nat): seq<nat> {
    if pages == [] then []
    else if pages[0] < base then [pages[0]] + Lower(pages[1..], base)
    else Lower(pages[1..], base)
  }

  function Upper(pages: seq<nat>, end: nat): seq<nat> {
    if pages == [] then []
    else if pages[0] >= end then Upper(pages[1..], end) + [pages[0]]
    else Upper(pages[1..], end)
  }

  predicate Distinct(q: seq<nat>) {
    forall i, j | 0 <= i < j < |q| :: q[i] != q[j]
  }

  lemma DistinctTail(pages: seq<nat>)
    requires pages != []
    ensures pages == [pages[0]] + pages[1..]
    ensures Distinct(pages) ==> Distinct(pages[1..]) && pages[0] !in pages[1..]
  {}

  lemma DistinctJoin(x: nat, q: seq<nat>)
    requires Distinct(q) && x !in q
    ensures Distinct([x] + q) && Distinct(q + [x])
  {}

  lemma {:induction false} OutsideHas(pages: seq<nat>, base: nat, end: nat)
    ensures forall p :: p in Outside(pages, base, end) <==> p in pages && !InRange(p, base, end)
    ensures Distinct(pages) ==> Distinct(Outside(pages, base, end))
  {
    if pages != [] {
      DistinctTail(pages);
      hide Distinct;
      OutsideHas(pages[1..], base, end);
      if Distinct(pages) { DistinctJoin(pages[0], Outside(pages[1..], base, end)); }
    }
  }

  lemma {:induction false} LowerHas(pages: seq<nat>, base: nat)
    ensures forall p :: p in Lower(pages, base) <==> p in pages && p < base
    ensures Distinct(pages) ==> Distinct(Lower(pages, base))
  {
    if pages != [] {
      DistinctTail(pages);
      hide Distinct;
      LowerHas(pages[1..], base);
      if Distinct(pages) { DistinctJoin(pages[0], Lower(pages[1..], base)); }
    }
  }

  lemma {:induction false} UpperHas(pages: seq<nat>, end: nat)
    ensures forall p :: p in Upper(pages, end) <==> p in pages && p >= end
    ensures Distinct(pages) ==> Distinct(Upper(pages, end))
  {
    if pages != [] {
      DistinctTail(pages);
      hide Distinct;
      UpperHas(pages[1..], end);
      if Distinct(pages) { DistinctJoin(pages[0], Upper(pages[1..], end)); }
    }
  }

  // ----- remove_vma_range on the list -----

  function Trimmed(v: Vma, base: nat, end: nat): Vma
    requires !(End(v) <= base) && !(v.begin >= end)
  {
    if v.begin < base then Vma(v.begin, base - v.begin, Outside(v.pages, base, end))
    else if End(v) >= end then Vma(end, End(v) - end, Outside(v.pages, base, end))
    else v
  }

  predicate Swallowed(v: Vma, base: nat, end: nat) {
    v.begin >= base && End(v) <= end
  }

  predicate Surrounds(v: Vma, base: nat, end: nat) {
    v.begin < base && End(v) > end
  }

  function LeftPart(v: Vma, base: nat): Vma
    requires v.begin <= base
  {
    Vma(v.begin, base - v.begin, Lower(v.pages, base))
  }

  function RightPart(v: Vma, end: nat): Vma
    requires end <= End(v)
  {
    Vma(end, End(v) - end, Upper(v.pages, end))
  }

  // The five cases, VMA by VMA
  function Removed(vmas: seq<Vma>, base: nat, end: nat): seq<Vma>
    requires base <= end
  {
    if vmas == [] then []
    else
      var v := vmas[0];
      if End(v) <= base then [v] + Removed(vmas[1..], base, end)
      else if v.begin >= end then vmas
      else if Swallowed(v, base, end) then Removed(vmas[1..], base, end)
      else if Surrounds(v, base, end) then [LeftPart(v, base), RightPart(v, end)] + vmas[1..]
      else [Trimmed(v, base, end)] + Removed(vmas[1..], base, end)
  }

  lemma CoversCons(v: Vma, rest: seq<Vma>, a: nat)
    ensures Covers([v] + rest, a) <==> Inside(v, a) || Covers(rest, a)
  {
    var all := [v] + rest;
    if Inside(v, a) { assert Inside(all[0], a); }
    if Covers(rest, a) {
      var i :| 0 <= i < |rest| && Inside(rest[i], a);
      assert Inside(all[i + 1], a);
    }
  }

  lemma ListedCons(v: Vma, rest: seq<Vma>, p: nat)
    ensures Listed([v] + rest, p) <==> p in v.pages || Listed(rest, p)
  {
    var all := [v] + rest;
    if p in v.pages { assert p in all[0].pages; }
    if Listed(rest, p) {
      var i :| 0 <= i < |rest| && p in rest[i].pages;
      assert p in all[i + 1].pages;
    }
  }

  lemma SortedTail(vmas: seq<Vma>)
    requires Sorted(vmas) && vmas != []
    ensures Sorted(vmas[1..]) && vmas == [vmas[0]] + vmas[1..]
    ensures forall i | 0 <= i < |vmas[1..]| :: End(vmas[0]) <= vmas[1..][i].begin
  {
    forall i | 0 <= i < |vmas[1..]| ensures End(vmas[0]) <= vmas[1..][i].begin {
      assert Before(vmas[0], vmas[i + 1]);
    }
  }

  lemma HoldTail(vmas: seq<Vma>)
    requires AllHold(vmas) && vmas != []
    ensures AllHold(vmas[1..]) && Holds(vmas[0])
  {
    forall i | 0 <= i < |vmas[1..]| ensures Holds(vmas[1..][i]) {
      assert Holds(vmas[i + 1]);
    }
  }

  // Exactly the range is taken out of what is covered.
  lemma {:induction false} RemovedCovers(vmas: seq<Vma>, base: nat, end: nat, a: nat)
    requires Sorted(vmas) && base <= end
    ensures Covers(Removed(vmas, base, end), a) <==> Covers(vmas, a) && !InRange(a, base, end)
  {
    hide Covers, Sorted;
    if vmas == [] {
      NothingCovered(a);
    } else {
      var v, rest := vmas[0], vmas[1..];
      SortedTail(vmas);
      CoversCons(v, rest, a);
      RestAbove(rest, End(v), a);
      if End(v) <= base {
        RemovedCovers(rest, base, end, a);
        CoversCons(v, Removed(rest, base, end), a);
      } else if v.begin >= end {
      } else if Swallowed(v, base, end) {
        RemovedCovers(rest, base, end, a);
      } else if Surrounds(v, base, end) {
        CoversCons(RightPart(v, end), rest, a);
        CoversCons(LeftPart(v, base), [RightPart(v, end)] + rest, a);
        assert [LeftPart(v, base), RightPart(v, end)] + rest == [LeftPart(v, base)] + ([RightPart(v, end)] + rest);
      } else {
        RemovedCovers(rest, base, end, a);
        CoversCons(Trimmed(v, base, end), Removed(rest, base, end), a);
      }
    }
  }

  lemma NothingCovered(a: nat)
    ensures !Covers([], a) && !Listed([], a)
  {}

  lemma RestAbove(rest: seq<Vma>, low: nat, a: nat)
    requires forall i | 0 <= i < |rest| :: low <= rest[i].begin
    ensures Covers(rest, a) ==> low <= a
  {}

  // Exactly the entries in the range go.
  lemma {:induction false} RemovedListed(vmas: seq<Vma>, base: nat, end: nat, p: nat)
    requires Sorted(vmas) && AllHold(vmas) && base <= end
    ensures Listed(Removed(vmas, base, end), p) <==> Listed(vmas, p) && !InRange(p, base, end)
  {
    hide Listed, Sorted, AllHold;
    if vmas == [] {
      NothingCovered(p);
    } else {
      var v, rest := vmas[0], vmas[1..];
      SortedTail(vmas);
      HoldTail(vmas);
      ListedCons(v, rest, p);
      ListedAbove(rest, End(v), p);
      OutsideHas(v.pages, base, end);
      LowerHas(v.pages, base);
      UpperHas(v.pages, end);
      if End(v) <= base {
        RemovedListed(rest, base, end, p);
        ListedCons(v, Removed(rest, base, end), p);
      } else if v.begin >= end {
      } else if Swallowed(v, base, end) {
        RemovedListed(rest, base, end, p);
      } else if Surrounds(v, base, end) {
        ListedCons(RightPart(v, end), rest, p);
        ListedCons(LeftPart(v, base), [RightPart(v, end)] + rest, p);
        assert [LeftPart(v, base), RightPart(v, end)] + rest == [LeftPart(v, base)] + ([RightPart(v, end)] + rest);
      } else {
        RemovedListed(rest, base, end, p);
        ListedCons(Trimmed(v, base, end), Removed(rest, base, end), p);
      }
    }
  }

  lemma ListedAbove(rest: seq<Vma>, low: nat, p: nat)
    requires AllHold(rest) && forall i | 0 <= i < |rest| :: low <= rest[i].begin
    ensures Listed(rest, p) ==> low <= p
  {
    if Listed(rest, p) {
      var i :| 0 <= i < |rest| && p in rest[i].pages;
      assert Holds(rest[i]);
    }
  }

  predicate AllFrom(vmas: seq<Vma>, low: nat) {
    forall i | 0 <= i < |vmas| :: low <= vmas[i].begin
  }

  lemma FromCons(v: Vma, rest: seq<Vma>, low: nat)
    ensures AllFrom([v] + rest, low) <==> low <= v.begin && AllFrom(rest, low)
  {
    var all := [v] + rest;
    if AllFrom(all, low) {
      assert low <= all[0].begin;
      forall i | 0 <= i < |rest| ensures low <= rest[i].begin { assert low <= all[i + 1].begin; }
    }
  }

  lemma SortedCons(v: Vma, rest: seq<Vma>)
    requires Sorted(rest) && AllFrom(rest, End(v))
    ensures Sorted([v] + rest)
  {}

  lemma HoldCons(v: Vma, rest: seq<Vma>)
    requires AllHold(rest) && Holds(v)
    ensures AllHold([v] + rest)
  {}

  // The list stays sorted, and every entry in the VMA that contains it.
  lemma {:induction false} RemovedKeeps(vmas: seq<Vma>, base: nat, end: nat, low: nat)
    requires Sorted(vmas) && AllHold(vmas) && AllFrom(vmas, low) && base <= end
    ensures Sorted(Removed(vmas, base, end)) && AllHold(Removed(vmas, base, end))
      && AllFrom(Removed(vmas, base, end), low)
  {
    hide Sorted, AllHold, AllFrom, Holds;
    if vmas != [] {
      var v, rest := vmas[0], vmas[1..];
      SortedTail(vmas);
      HoldTail(vmas);
      TailFrom(vmas, End(v));
      FromCons(v, rest, low);
      if End(v) <= base {
        RemovedKeeps(rest, base, end, End(v));
        Prepend(v, Removed(rest, base, end), low, End(v));
      } else if v.begin >= end {
      } else if Swallowed(v, base, end) {
        RemovedKeeps(rest, base, end, low);
      } else if Surrounds(v, base, end) {
        PartsHold(v, base, end);
        Prepend(RightPart(v, end), rest, end, End(v));
        Prepend(LeftPart(v, base), [RightPart(v, end)] + rest, low, end);
        assert [LeftPart(v, base), RightPart(v, end)] + rest == [LeftPart(v, base)] + ([RightPart(v, end)] + rest);
      } else {
        TrimmedHolds(v, base, end);
        RemovedKeeps(rest, base, end, End(v));
        Prepend(Trimmed(v, base, end), Removed(rest, base, end), low, End(v));
      }
    }
  }

  lemma TailFrom(vmas: seq<Vma>, low: nat)
    requires vmas != [] && forall i | 0 <= i < |vmas[1..]| :: low <= vmas[1..][i].begin
    ensures AllFrom(vmas[1..], low)
  {}

  lemma Prepend(v: Vma, rest: seq<Vma>, low: nat, m: nat)
    requires Sorted(rest) && AllHold(rest) && AllFrom(rest, m) && Holds(v) && low <= v.begin && End(v) <= m
    ensures Sorted([v] + rest) && AllHold([v] + rest) && AllFrom([v] + rest, low)
  {
    hide Holds;
    SortedCons(v, rest);
    HoldCons(v, rest);
    FromCons(v, rest, low);
  }

  lemma PartsHold(v: Vma, base: nat, end: nat)
    requires Holds(v) && Surrounds(v, base, end) && base <= end
    ensures Holds(LeftPart(v, base)) && Holds(RightPart(v, end))
  {
    LowerHas(v.pages, base);
    UpperHas(v.pages, end);
  }

  lemma TrimmedHolds(v: Vma, base: nat, end: nat)
    requires Holds(v) && base <= end && !(End(v) <= base) && !(v.begin >= end) && !Swallowed(v, base, end)
      && !Surrounds(v, base, end)
    ensures Holds(Trimmed(v, base, end)) && v.begin <= Trimmed(v, base, end).begin
      && End(Trimmed(v, base, end)) <= End(v)
  {
    OutsideHas(v.pages, base, end);
  }

  // ----- what a loop over the list has unassigned so far -----

  ghost predicate Taken(all: seq<Vma>, was: map<nat, nat>, index: map<nat, nat>, done: nat, base: nat, end: nat)
    requires done <= |all|
  {
    && (forall p: nat :: p in index <==> p in was && !(InRange(p, base, end) && Listed(all[..done], p)))
    && (forall p | p in index :: index[p] == was[p])
  }

  lemma NoneTaken(all: seq<Vma>, was: map<nat, nat>, base: nat, end: nat)
    ensures Taken(all, was, was, 0, base, end)
  {
    assert all[..0] == [];
  }

  lemma ListedNext(all: seq<Vma>, done: nat, p: nat)
    requires done < |all|
    ensures Listed(all[..done + 1], p) <==> Listed(all[..done], p) || p in all[done].pages
  {
    if Listed(all[..done], p) {
      var i :| 0 <= i < done && p in all[..done][i].pages;
      assert p in all[..done + 1][i].pages;
    }
    if p in all[done].pages { assert p in all[..done + 1][done].pages; }
    if Listed(all[..done + 1], p) {
      var i :| 0 <= i < done + 1 && p in all[..done + 1][i].pages;
      if i < done { assert p in all[..done][i].pages; }
    }
  }

  // The next VMA lost the entries inside the range.
  lemma InsideTaken(all: seq<Vma>, was: map<nat, nat>, before: map<nat, nat>, index: map<nat, nat>, done: nat,
      base: nat, end: nat)
    requires done < |all| && Taken(all, was, before, done, base, end)
    requires forall p: nat :: p in index <==> p in before && !(p in all[done].pages && InRange(p, base, end))
    requires forall p | p in index :: index[p] == before[p]
    ensures Taken(all, was, index, done + 1, base, end)
  {
    hide Listed, InRange;
    forall p: nat ensures p in index <==> p in was && !(InRange(p, base, end) && Listed(all[..done + 1], p)) {
      ListedNext(all, done, p);
    }
  }

  lemma SkipTaken(all: seq<Vma>, was: map<nat, nat>, index: map<nat, nat>, done: nat, base: nat, end: nat)
    requires done < |all| && Taken(all, was, index, done, base, end) && Holds(all[done])
    requires End(all[done]) <= base || all[done].begin >= end
    ensures Taken(all, was, index, done + 1, base, end)
  {
    hide Taken, Listed;
    InsideTaken(all, was, index, index, done, base, end);
  }

  lemma SwallowTaken(all: seq<Vma>, was: map<nat, nat>, before: map<nat, nat>, index: map<nat, nat>, done: nat,
      base: nat, end: nat)
    requires done < |all| && Taken(all, was, before, done, base, end) && Holds(all[done])
      && Swallowed(all[done], base, end)
    requires forall p: nat :: p in index <==> p in before && p !in all[done].pages
    requires forall p | p in index :: index[p] == before[p]
    ensures Taken(all, was, index, done + 1, base, end)
  {
    hide Taken, Listed;
    InsideTaken(all, was, before, index, done, base, end);
  }

  // VMAs from the end of the range on have nothing to lose.
  lemma {:induction false} BeyondTaken(all: seq<Vma>, was: map<nat, nat>, index: map<nat, nat>, done: nat, base: nat,
      end: nat)
    requires done <= |all| && Taken(all, was, index, done, base, end) && AllHold(all) && AllFrom(all[done..], end)
    ensures Taken(all, was, index, |all|, base, end)
    decreases |all| - done
  {
    hide Taken, Holds;
    if done < |all| {
      assert all[done..][0] == all[done];
      SkipTaken(all, was, index, done, base, end);
      FromTail(all[done..], end);
      assert all[done..][1..] == all[done + 1..];
      BeyondTaken(all, was, index, done + 1, base, end);
    }
  }

  lemma FromTail(vmas: seq<Vma>, low: nat)
    requires vmas != [] && AllFrom(vmas, low)
    ensures AllFrom(vmas[1..], low)
  {}

  lemma LaterFrom(all: seq<Vma>, done: nat, end: nat)
    requires Sorted(all) && done <= |all|
    requires done < |all| ==> all[done].begin >= end
    ensures AllFrom(all[done..], end)
  {
    forall i | 0 <= i < |all[done..]| ensures end <= all[done..][i].begin {
      if i > 0 { assert Before(all[done], all[done + i]); }
    }
  }

  lemma AfterSplit(all: seq<Vma>, done: nat, end: nat)
    requires Sorted(all) && done < |all| && End(all[done]) >= end
    ensures AllFrom(all[done + 1..], end)
  {
    var rest := all[done + 1..];
    forall i | 0 <= i < |rest| ensures end <= rest[i].begin {
      assert Before(all[done], all[done + 1 + i]);
    }
  }

  lemma RemovedStep(rest: seq<Vma>, base: nat, end: nat)
    requires rest != [] && base <= end
    ensures End(rest[0]) <= base ==> Removed(rest, base, end) == [rest[0]] + Removed(rest[1..], base, end)
    ensures !(End(rest[0]) <= base) && rest[0].begin >= end ==> Removed(rest, base, end) == rest
    ensures !(End(rest[0]) <= base) && !(rest[0].begin >= end) && Swallowed(rest[0], base, end) ==>
      Removed(rest, base, end) == Removed(rest[1..], base, end)
    ensures !(End(rest[0]) <= base) && !(rest[0].begin >= end) && Surrounds(rest[0], base, end) ==>
      Removed(rest, base, end) == [LeftPart(rest[0], base), RightPart(rest[0], end)] + rest[1..]
    ensures
      !(End(rest[0]) <= base) && !(rest[0].begin >= end)
      && !Swallowed(rest[0], base, end) && !Surrounds(rest[0], base, end) ==>
        Removed(rest, base, end) == [Trimmed(rest[0], base, end)] + Removed(rest[1..], base, end)
  {}

  lemma Assoc(a: seq<Vma>, b: seq<Vma>, c: seq<Vma>)
    ensures a + b + c == a + (b + c)
  {}

  lemma RemovedNone(base: nat, end: nat)
    requires base <= end
    ensures Removed([], base, end) == []
  {}

  lemma OneAt(all: seq<Vma>, done: nat)
    requires done < |all| && AllHold(all)
    ensures Holds(all[done])
  {}

  // All that the loop promises once it is done
  lemma RangeRemoved(all: seq<Vma>, was: map<nat, nat>, vmas: seq<Vma>, index: map<nat, nat>, base: nat, end: nat,
      low: nat)
    requires Sorted(all) && AllHold(all) && AllFrom(all, low) && Indexed(all, was) && base <= end
    requires vmas == Removed(all, base, end) && Taken(all, was, index, |all|, base, end)
    ensures Sorted(vmas) && AllHold(vmas) && AllFrom(vmas, low) && Indexed(vmas, index)
    ensures forall a: nat :: Covers(vmas, a) <==> Covers(all, a) && !InRange(a, base, end)
    ensures index == Restrict(was, base, end)
  {
    hide Sorted, AllHold, AllFrom, Covers, Listed, InRange, Removed;
    RemovedKeeps(all, base, end, low);
    forall a: nat ensures Covers(vmas, a) <==> Covers(all, a) && !InRange(a, base, end) {
      RemovedCovers(all, base, end, a);
    }
    assert all[..|all|] == all;
    forall p: nat ensures p in index <==> Listed(vmas, p) {
      RemovedListed(all, base, end, p);
    }
    assert index == Restrict(was, base, end);
  }

  // What destroy_as cannot remove: empty VMAs at the very bottom, and whatever reaches the
  // top or goes beyond it
  predicate Survives(v: Vma, low: nat, high: nat) {
    End(v) <= low || v.begin >= high || End(v) > high
  }

  lemma {:induction false} WhatIsLeft(vmas: seq<Vma>, low: nat, high: nat)
    requires low <= high && AllFrom(vmas, low)
    ensures Removed(vmas, low, high) != [] <==> exists i | 0 <= i < |vmas| :: Survives(vmas[i], low, high)
  {
    if vmas != [] {
      assert vmas == [vmas[0]] + vmas[1..];
      FromCons(vmas[0], vmas[1..], low);
      WhatIsLeft(vmas[1..], low, high);
      RemovedStep(vmas, low, high);
      if Survives(vmas[0], low, high) {
      } else if i :| 0 <= i < |vmas[1..]| && Survives(vmas[1..][i], low, high) {
        assert Survives(vmas[i + 1], low, high);
      }
    }
  }

  // ----- gaps -----

  // Nothing of the list reaches into the gap found before `now`.
  lemma LaterClear(vmas: seq<Vma>, now: nat, v: Vma)
    requires Sorted(vmas) && now <= |vmas| && (forall i | 0 <= i < now :: End(vmas[i]) <= v.begin)
    requires now < |vmas| ==> End(v) <= vmas[now].begin
    ensures Gap(vmas, v.begin, v.length)
    ensures forall i | now <= i < |vmas| :: End(v) <= vmas[i].begin
  {
    forall i | now <= i < |vmas| ensures End(v) <= vmas[i].begin {
      if i > now { assert Before(vmas[now], vmas[i]); }
    }
  }

  // Between here and the end of the next VMA there is no room.
  lemma TooNarrow(vmas: seq<Vma>, now: nat, from: nat, low: nat, len: nat)
    requires now < |vmas| && vmas[now].begin < from + len
    requires forall a | low <= a < from :: !Gap(vmas, a, len)
    ensures forall a | low <= a < End(vmas[now]) :: !Gap(vmas, a, len)
  {
    forall a | low <= a < End(vmas[now]) ensures !Gap(vmas, a, len) {
      if a >= from { assert !Clear(vmas[now], a, len); }
    }
  }

  // Behind the last VMA there is only what is left below the top.
  lemma NoneFits(vmas: seq<Vma>, low: nat, from: nat, len: nat, high: nat)
    requires (forall i | 0 <= i < |vmas| :: End(vmas[i]) <= from) && high < from + len
    requires (forall a | low <= a < from :: !Gap(vmas, a, len)) && (len == 0 ==> vmas == [])
    ensures forall a | low <= a :: !Fits(vmas, a, len, high)
  {
    forall a | low <= a ensures !Fits(vmas, a, len, high) {
      if i :| 0 <= i < |vmas| && a + len <= vmas[i].begin { assert End(vmas[i]) <= from; }
    }
  }

  lemma Spliced(vmas: seq<Vma>, index: map<nat, nat>, now: nat, v: Vma, low: nat)
    requires Sorted(vmas) && AllHold(vmas) && AllFrom(vmas, low) && Indexed(vmas, index)
    requires now <= |vmas| && v.pages == [] && low <= v.begin
    requires (forall i | 0 <= i < now :: End(vmas[i]) <= v.begin)
      && (forall i | now <= i < |vmas| :: End(v) <= vmas[i].begin)
    ensures var after := vmas[..now] + [v] + vmas[now..];
      Sorted(after) && AllHold(after) && AllFrom(after, low) && Indexed(after, index)
  {
    hide Holds;
    var after := vmas[..now] + [v] + vmas[now..];
    forall i, j | 0 <= i < j < |after| ensures Before(after[i], after[j]) {
      if i < now && j > now { assert Before(vmas[i], vmas[j - 1]); }
      else if i < now && j < now { assert Before(vmas[i], vmas[j]); }
      else if i > now { assert Before(vmas[i - 1], vmas[j - 1]); }
    }
    EmptyHolds(v);
    forall i | 0 <= i < |after| ensures Holds(after[i]) && low <= after[i].begin {
      if i > now { assert Holds(vmas[i - 1]); } else if i < now { assert Holds(vmas[i]); }
    }
    forall p: nat ensures Listed(after, p) <==> Listed(vmas, p) {
      SplicedListed(vmas, now, v, p);
    }
  }

  lemma EmptyHolds(v: Vma)
    requires v.pages == []
    ensures Holds(v)
  {}

  lemma SplicedListed(vmas: seq<Vma>, now: nat, v: Vma, p: nat)
    requires now <= |vmas| && v.pages == []
    ensures Listed(vmas[..now] + [v] + vmas[now..], p) <==> Listed(vmas, p)
  {
    var after := vmas[..now] + [v] + vmas[now..];
    if Listed(vmas, p) {
      var i :| 0 <= i < |vmas| && p in vmas[i].pages;
      if i < now { assert p in after[i].pages; } else { assert p in after[i + 1].pages; }
    }
    if Listed(after, p) {
      var i :| 0 <= i < |after| && p in after[i].pages;
      if i < now { assert p in vmas[i].pages; } else if i > now { assert p in vmas[i - 1].pages; }
    }
  }

  // The first VMA that does not end at or before `from` begins after it: a hole.
  lemma HoleAt(vmas: seq<Vma>, at: nat, from: nat)
    requires Sorted(vmas) && at <= |vmas| && (forall i | 0 <= i < at :: End(vmas[i]) <= from)
    requires at < |vmas| ==> vmas[at].begin > from
    ensures !Covers(vmas, from)
  {
    forall i | at <= i < |vmas| ensures vmas[i].begin > from {
      if i > at { assert Before(vmas[at], vmas[i]); }
    }
  }

  // ----- one entry replaced -----

  // An entry lies in the one VMA that contains its address.
  lemma OnlyThere(vmas: seq<Vma>, at: nat, v: nat)
    requires Sorted(vmas) && AllHold(vmas) && at < |vmas| && Inside(vmas[at], v)
    ensures Listed(vmas, v) <==> v in vmas[at].pages
    ensures forall i | 0 <= i < |vmas| && i != at :: v !in vmas[i].pages
  {
    forall i | 0 <= i < |vmas| && i != at ensures v !in vmas[i].pages {
      assert Holds(vmas[i]);
      if i < at { assert Before(vmas[i], vmas[at]); } else { assert Before(vmas[at], vmas[i]); }
    }
  }

  lemma NotThere(vmas: seq<Vma>, index: map<nat, nat>, at: nat, v: nat)
    requires Sorted(vmas) && AllHold(vmas) && Indexed(vmas, index) && at < |vmas| && Inside(vmas[at], v) && v !in index
    ensures Outside(vmas[at].pages, v, v + 1) == vmas[at].pages
  {
    OnlyThere(vmas, at, v);
    NothingOutside(vmas[at].pages, v);
  }

  lemma {:induction false} NothingOutside(pages: seq<nat>, v: nat)
    requires v !in pages
    ensures Outside(pages, v, v + 1) == pages
  {
    if pages != [] { NothingOutside(pages[1..], v); }
  }

  lemma Reassigned(vmas: seq<Vma>, index: map<nat, nat>, at: nat, v: nat, page: nat, low: nat)
    requires Sorted(vmas) && AllHold(vmas) && AllFrom(vmas, low) && Indexed(vmas, index) && at < |vmas|
      && Inside(vmas[at], v)
    ensures var w := vmas[at]; var after := vmas[at := Vma(w.begin, w.length, [v] + Outside(w.pages, v, v + 1))];
      && Sorted(after) && AllHold(after) && AllFrom(after, low) && Indexed(after, index[v := page])
      && forall a: nat :: Covers(after, a) <==> Covers(vmas, a)
  {
    hide Outside, Sorted;
    var w := vmas[at];
    var w' := Vma(w.begin, w.length, [v] + Outside(w.pages, v, v + 1));
    var after := vmas[at := w'];
    OutsideHas(w.pages, v, v + 1);
    OnlyThere(vmas, at, v);
    assert Holds(w);
    DistinctJoin(v, Outside(w.pages, v, v + 1));
    SameExtents(vmas, after);
    forall i | 0 <= i < |after| ensures Holds(after[i]) {
      assert Holds(vmas[i]);
    }
    forall p: nat ensures p in index[v := page] <==> Listed(after, p) {
      assert p == v ==> p in after[at].pages;
      if Listed(vmas, p) {
        var i :| 0 <= i < |vmas| && p in vmas[i].pages;
        assert p in after[i].pages;
      }
      if Listed(after, p) {
        var i :| 0 <= i < |after| && p in after[i].pages;
        assert p in vmas[i].pages || p == v;
      }
    }
  }

  // Order and coverage depend on where the VMAs begin and end only.
  lemma SameExtents(vmas: seq<Vma>, after: seq<Vma>)
    requires Sorted(vmas) && |after| == |vmas|
    requires forall i | 0 <= i < |vmas| :: after[i].begin == vmas[i].begin && after[i].length == vmas[i].length
    ensures Sorted(after) && forall a: nat :: Covers(after, a) <==> Covers(vmas, a)
  {
    forall i, j | 0 <= i < j < |after| ensures Before(after[i], after[j]) {
      assert Before(vmas[i], vmas[j]);
    }
    forall a: nat ensures Covers(after, a) <==> Covers(vmas, a) {
      if i :| 0 <= i < |after| && Inside(after[i], a) { assert Inside(vmas[i], a); }
      if i :| 0 <= i < |vmas| && Inside(vmas[i], a) { assert Inside(after[i], a); }
    }
  }

  // ----- the code -----

  class AddressSpace {
    var vmas: seq<Vma>
    var index: map<nat, nat>    // vaddr_map: the page at each populated address
    const low: nat
    const high: nat

    ghost predicate Valid()
      reads this
    {
      low <= high && Sorted(vmas) && AllHold(vmas) && AllFrom(vmas, low) && Indexed(vmas, index)
    }

    // vma_find_by_vaddr
    method FindByVaddr(addr: nat) returns (found: bool, at: nat)
      requires Valid()
      ensures found <==> Covers(vmas, addr)
      ensures found ==> at < |vmas| && Inside(vmas[at], addr)
    {
      hide AllHold, AllFrom, Indexed;
      at := 0;
      while at < |vmas|
        invariant 0 <= at <= |vmas| && forall i | 0 <= i < at :: !Inside(vmas[i], addr)
      {
        if vmas[at].begin > addr {
          assert forall i | at < i < |vmas| :: Before(vmas[at], vmas[i]);
          return false, at;
        }
        if End(vmas[at]) > addr {
          return true, at;
        }
        at := at + 1;
      }
      return false, at;
    }

    // validate_range: 0 if the range is covered, else 1; of an empty range, its address
    method ValidateRange(base: nat, len: nat) returns (r: int)
      requires Valid()
      ensures r == 0 || r == 1
      ensures r == 0 <==> Covers(vmas, base) && forall a | base <= a < base + len :: Covers(vmas, a)
    {
      hide AllHold, AllFrom, Indexed;
      var found, at := FindByVaddr(base);
      var from, rest := base, len;
      if !found {
        return 1;
      }
      while rest > 0
        invariant base <= from && from + rest == base + len
        invariant 0 <= at <= |vmas| && forall a | base <= a < from :: Covers(vmas, a)
        invariant forall i | 0 <= i < at :: End(vmas[i]) <= from
        invariant at < |vmas| && vmas[at].begin <= from ==> from <= End(vmas[at])
        decreases |vmas| - at
      {
        if at == |vmas| || vmas[at].begin > from {
          HoleAt(vmas, at, from);
          return 1;
        }
        var end := End(vmas[at]);
        assert forall a | from <= a < end :: Inside(vmas[at], a);
        if end - from >= rest {
          return 0;
        }
        rest := rest - (end - from);
        from := end;
        at := at + 1;
        if at < |vmas| { assert Before(vmas[at - 1], vmas[at]); }
      }
      return 0;
    }

    // aspace_add_vma
    method AddVma(v: Vma) returns (r: int)
      requires Valid() && v.pages == [] && v.begin >= low
      modifies this`vmas
      ensures Valid() && (r == 0 || r == -1)
      ensures r == 0 <==> Gap(old(vmas), v.begin, v.length)
      ensures r == -1 ==> vmas == old(vmas)
      ensures r == 0 ==> exists i | 0 <= i <= |old(vmas)| :: vmas == old(vmas)[..i] + [v] + old(vmas)[i..]
    {
      hide AllHold, AllFrom, Indexed;
      var now := 0;
      while now < |vmas|
        invariant vmas == old(vmas) && 0 <= now <= |vmas| && forall i | 0 <= i < now :: End(vmas[i]) <= v.begin
      {
        if vmas[now].begin >= End(v) {
          break;
        }
        if End(vmas[now]) > v.begin && vmas[now].begin < End(v) {
          assert !Clear(vmas[now], v.begin, v.length);
          return -1;
        }
        now := now + 1;
      }
      LaterClear(vmas, now, v);
      Spliced(vmas, index, now, v, low);
      vmas := vmas[..now] + [v] + vmas[now..];
      return 0;
    }

    // insert_vma_to_any; a VMA above the top makes room for others above it
    method InsertAny(len: nat) returns (found: bool, addr: nat)
      requires Valid()
      modifies this`vmas
      ensures Valid()
      ensures found <==> exists a | low <= a :: Fits(old(vmas), a, len, high)
      ensures found ==> low <= addr && Fits(old(vmas), addr, len, high)
      ensures found ==> forall a | low <= a < addr :: !Gap(old(vmas), a, len)
      ensures found ==> addr == low || exists i | 0 <= i < |old(vmas)| :: addr == End(old(vmas)[i])
      ensures found ==> exists i | 0 <= i <= |old(vmas)| ::
        vmas == old(vmas)[..i] + [Vma(addr, len, [])] + old(vmas)[i..]
      ensures !found ==> vmas == old(vmas)
    {
      hide AllHold, Indexed;
      var now, nowAddr := 0, low;
      while now < |vmas|
        invariant vmas == old(vmas) && 0 <= now <= |vmas| && low <= nowAddr
        invariant forall i | 0 <= i < now :: End(vmas[i]) <= nowAddr
        invariant forall a | low <= a < nowAddr :: !Gap(vmas, a, len)
        invariant now < |vmas| ==> nowAddr <= vmas[now].begin
        invariant len == 0 ==> now == 0
        invariant nowAddr == low || exists i | 0 <= i < |vmas| :: nowAddr == End(vmas[i])
      {
        if vmas[now].begin >= nowAddr + len {
          break;
        }
        TooNarrow(vmas, now, nowAddr, low, len);
        nowAddr := End(vmas[now]);
        now := now + 1;
        if now < |vmas| { assert Before(vmas[now - 1], vmas[now]); }
      }
      if now == |vmas| && high < nowAddr + len {
        NoneFits(vmas, low, nowAddr, len, high);
        return false, 0;
      }
      LaterClear(vmas, now, Vma(nowAddr, len, []));
      assert Fits(vmas, nowAddr, len, high);
      Spliced(vmas, index, now, Vma(nowAddr, len, []), low);
      vmas := vmas[..now] + [Vma(nowAddr, len, [])] + vmas[now..];
      return true, nowAddr;
    }

    // address_space_assign_page: without a VMA at the address it reports success and assigns
    // nothing, since PTR_IS_ERR takes a null pointer for the error 0.
    method AssignPage(v: nat, page: nat) returns (r: int)
      requires Valid()
      modifies this`vmas, this`index
      ensures Valid() && r == (if v % PAGE != 0 then -1 else 0)
      ensures index == if v % PAGE == 0 && Covers(old(vmas), v) then old(index)[v := page] else old(index)
      ensures forall a :: Covers(vmas, a) <==> Covers(old(vmas), a)
    {
      hide AllFrom, Indexed, Outside;
      if v % PAGE != 0 {
        return -1;
      }
      var found, at := FindByVaddr(v);
      if found {
        Reassigned(vmas, index, at, v, page, low);
        // unassign_page takes the old entry, if any, out of the list and the index.
        var pages := vmas[at].pages;
        if v in index {
          pages := Outside(pages, v, v + 1);
          index := index - {v};
        } else {
          NotThere(vmas, index, at, v);
        }
        vmas := vmas[at := Vma(vmas[at].begin, vmas[at].length, [v] + pages)];
        index := index[v := page];
        assert index == old(index)[v := page];
      }
      return 0;
    }

    // The loop over a VMA that goes: all its entries are unassigned.
    method UnassignAll(pages: seq<nat>)
      modifies this`index
      ensures forall p :: p in index <==> p in old(index) && p !in pages
      ensures forall p | p in index :: index[p] == old(index)[p]
    {
      var i := 0;
      while i < |pages|
        invariant 0 <= i <= |pages|
        invariant forall p :: p in index <==> p in old(index) && p !in pages[..i]
        invariant forall p | p in index :: index[p] == old(index)[p]
      {
        assert pages[..i + 1] == pages[..i] + [pages[i]];
        index := index - {pages[i]};
        i := i + 1;
      }
      assert pages[..i] == pages;
    }

    // The loop over a VMA that keeps one side of the range: the entries inside go.
    method UnassignInside(pages: seq<nat>, base: nat, end: nat) returns (kept: seq<nat>)
      modifies this`index
      ensures kept == Outside(pages, base, end)
      ensures forall p :: p in index <==> p in old(index) && !(p in pages && InRange(p, base, end))
      ensures forall p | p in index :: index[p] == old(index)[p]
    {
      kept := [];
      var i := 0;
      while i < |pages|
        invariant 0 <= i <= |pages| && kept + Outside(pages[i..], base, end) == Outside(pages, base, end)
        invariant forall p :: p in index <==> p in old(index) && !(p in pages[..i] && InRange(p, base, end))
        invariant forall p | p in index :: index[p] == old(index)[p]
      {
        assert pages[i..][1..] == pages[i + 1..];
        assert pages[..i + 1] == pages[..i] + [pages[i]];
        if pages[i] < base || pages[i] >= end {
          kept := kept + [pages[i]];
        } else {
          index := index - {pages[i]};
        }
        i := i + 1;
      }
      assert pages[..i] == pages;
    }

    // The loop over a VMA that is split: the entries from `end` on move to the new VMA,
    // those in the range go.
    method SplitPages(pages: seq<nat>, base: nat, end: nat) returns (left: seq<nat>, right: seq<nat>)
      requires base <= end
      modifies this`index
      ensures left == Lower(pages, base) && right == Upper(pages, end)
      ensures forall p :: p in index <==> p in old(index) && !(p in pages && InRange(p, base, end))
      ensures forall p | p in index :: index[p] == old(index)[p]
    {
      left, right := [], [];
      var i := 0;
      while i < |pages|
        invariant 0 <= i <= |pages|
        invariant left + Lower(pages[i..], base) == Lower(pages, base)
        invariant Upper(pages[i..], end) + right == Upper(pages, end)
        invariant forall p :: p in index <==> p in old(index) && !(p in pages[..i] && InRange(p, base, end))
        invariant forall p | p in index :: index[p] == old(index)[p]
      {
        assert pages[i..][1..] == pages[i + 1..];
        assert pages[..i + 1] == pages[..i] + [pages[i]];
        if pages[i] >= end {
          right := [pages[i]] + right;
        } else if pages[i] >= base {
          index := index - {pages[i]};
        } else {
          left := left + [pages[i]];
        }
        i := i + 1;
      }
      assert pages[..i] == pages;
    }

    // remove_vma_range. Only an unaligned range makes it panic.
    method RemoveRange(base: nat, len: nat) returns (panicked: bool)
      requires Valid()
      modifies this`vmas, this`index
      ensures Valid()
      ensures panicked <==> base % PAGE != 0 || len % PAGE != 0
      ensures panicked ==> vmas == old(vmas) && index == old(index)
      ensures !panicked ==> vmas == Removed(old(vmas), base, base + len)
      ensures !panicked ==> forall a :: Covers(vmas, a) <==> Covers(old(vmas), a) && !InRange(a, base, base + len)
      ensures !panicked ==> index == Restrict(old(index), base, base + len)
    {
      hide Sorted, AllHold, AllFrom, Indexed, Removed, Outside, Lower, Upper, Holds, Covers, Restrict, Taken, InRange;
      if base % PAGE != 0 || len % PAGE != 0 {
        return true;
      }
      ghost var all, was := vmas, index;
      var end := base + len;
      var now := 0;
      ghost var done := 0;      // VMAs of `all` that have been dealt with
      NoneTaken(all, was, base, end);
      while now < |vmas|
        invariant 0 <= now <= |vmas| && 0 <= done <= |all| && vmas[now..] == all[done..]
        invariant Removed(all, base, end) == vmas[..now] + Removed(all[done..], base, end)
        invariant Taken(all, was, index, done, base, end)
        decreases |all| - done
      {
        var v := vmas[now];
        RemovedStep(all[done..], base, end);
        OneAt(all, done);
        TailStep(vmas, all, now, done);
        var nowEnd := End(v);
        if nowEnd <= base {
          SkipTaken(all, was, index, done, base, end);
          Assoc(vmas[..now], [v], Removed(all[done + 1..], base, end));
          TrimStep(vmas, now, v);
          now, done := now + 1, done + 1;
        } else if v.begin >= end {
          assert Removed(all[done..], base, end) == vmas[now..];
          break;
        } else if v.begin >= base && nowEnd <= end {
          ghost var before := index;
          DropStep(vmas, now);
          vmas := vmas[..now] + vmas[now + 1..];
          UnassignAll(v.pages);
          SwallowTaken(all, was, before, index, done, base, end);
          done := done + 1;
        } else if v.begin < base && nowEnd > end {
          ghost var before := index;
          ghost var head, tail := vmas[..now], vmas[now + 1..];
          var left, right := SplitPages(v.pages, base, end);
          var lower, upper := Vma(v.begin, base - v.begin, left), Vma(end, nowEnd - end, right);
          assert lower == LeftPart(v, base) && upper == RightPart(v, end);
          Assoc(head, [lower, upper], tail);
          vmas := vmas[..now] + [lower, upper] + vmas[now + 1..];
          InsideTaken(all, was, before, index, done, base, end);
          AfterSplit(all, done, end);
          BeyondTaken(all, was, index, done + 1, base, end);
          RangeRemoved(all, was, vmas, index, base, end, low);
          return false;
        } else {
          ghost var before := index;
          var kept := UnassignInside(v.pages, base, end);
          var trimmed := if v.begin < base then Vma(v.begin, base - v.begin, kept) else Vma(end, nowEnd - end, kept);
          Assoc(vmas[..now], [trimmed], Removed(all[done + 1..], base, end));
          TrimStep(vmas, now, trimmed);
          vmas := vmas[now := trimmed];
          InsideTaken(all, was, before, index, done, base, end);
          now, done := now + 1, done + 1;
        }
      }
      LaterFrom(all, done, end);
      BeyondTaken(all, was, index, done, base, end);
      RemovedNone(base, end);
      TakeDrop(vmas, now);
      RangeRemoved(all, was, vmas, index, base, end, low);
      return false;
    }

    // destroy_as, up to the page tables: it panics if a VMA is left.
    method DestroyAs() returns (panicked: bool)
      requires Valid() && low % PAGE == 0 && high % PAGE == 0
      modifies this`vmas, this`index
      ensures Valid()
      ensures panicked <==> exists i | 0 <= i < |old(vmas)| :: Survives(old(vmas)[i], low, high)
      ensures !panicked ==> vmas == [] && index == map[]
    {
      var unaligned := RemoveRange(low, high - low);
      WhatIsLeft(old(vmas), low, high);
      if vmas != [] {
        return true;
      }
      return false;
    }
  }

  lemma TakeDrop(vmas: seq<Vma>, now: nat)
    requires now <= |vmas|
    ensures vmas == vmas[..now] + vmas[now..]
  {}

  lemma TailStep(vmas: seq<Vma>, all: seq<Vma>, now: nat, done: nat)
    requires now < |vmas| && done <= |all| && vmas[now..] == all[done..]
    ensures done < |all| && all[done] == vmas[now]
    ensures all[done..][1..] == all[done + 1..] && vmas[now + 1..] == all[done + 1..]
  {
    assert all[done..][0] == vmas[now..][0];
    assert vmas[now..][1..] == vmas[now + 1..];
  }

  lemma DropStep(vmas: seq<Vma>, now: nat)
    requires now < |vmas|
    ensures var w := vmas[..now] + vmas[now + 1..]; w[..now] == vmas[..now] && w[now..] == vmas[now + 1..]
  {}

  lemma TrimStep(vmas: seq<Vma>, now: nat, v: Vma)
    requires now < |vmas|
    ensures var w := vmas[now := v]; w[..now + 1] == vmas[..now] + [v] && w[now + 1..] == vmas[now + 1..]
    ensures v == vmas[now] ==> vmas[now := v] == vmas
  {}
}
