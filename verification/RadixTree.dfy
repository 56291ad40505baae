// The radix tree of sys/lib/binradix.c, node by node, proved against RadixTrie.
module RadixTree {
  import opened Bits
  import opened RadixTrie

  class Node<V> {
    var next0: Node?<V>
    var next1: Node?<V>
    var data: Value<V>
    var part: bv64
    var len: nat

    constructor (part: bv64, len: nat, next0: Node?<V>, next1: Node?<V>, data: Value<V>)
      ensures this.part == part && this.len == len && this.data == data
      ensures this.next0 == next0 && this.next1 == next1
    {
      this.part, this.len, this.data := part, len, data;
      this.next0, this.next1 := next0, next1;
    }
  }

  // Which nodes make up a tree, and how they hang together
  datatype Skel<V> = None | At(node: Node<V>, zero: Skel<V>, one: Skel<V>)

  function Ref<V>(s: Skel<V>): Node?<V> {
    if s.At? then s.node else null
  }

  function Members<V>(s: Skel<V>): set<Node<V>> {
    if s.At? then {s.node} + Members(s.zero) + Members(s.one) else {}
  }

  predicate Apart<V>(s: Skel<V>) {
    s.At? ==>
      && s.node !in Members(s.zero) && s.node !in Members(s.one) && Members(s.zero) !! Members(s.one)
      && Apart(s.zero) && Apart(s.one)
  }

  // The pointers say what the skeleton says, and only leaves carry data.
  ghost predicate Linked<V>(s: Skel<V>)
    reads Members(s)
  {
    s.At? ==>
      && s.node.next0 == Ref(s.zero) && s.node.next1 == Ref(s.one)
      && (s.zero.At? || s.one.At? || s.node.len == 0 ==> s.node.data == Null)
      && Linked(s.zero) && Linked(s.one)
  }

  ghost function View<V>(s: Skel<V>): Trie<V>
    reads Members(s)
  {
    if s.None? then Empty
    else if s.zero.None? && s.one.None? && s.node.len != 0 then Leaf(s.node.part, s.node.len, s.node.data)
    else Branch(s.node.part, s.node.len, View(s.zero), View(s.one))
  }

  // ----- places in a tree -----

  type Path = seq<bool>

  function SubT<V>(t: Trie<V>, path: Path): Trie<V>
    decreases |path|
  {
    if path == [] || !t.Branch? then t else SubT(if path[0] then t.one else t.zero, path[1..])
  }

  function PutT<V>(t: Trie<V>, path: Path, u: Trie<V>): Trie<V>
    decreases |path|
  {
    if path == [] || !t.Branch? then u
    else if path[0] then t.(one := PutT(t.one, path[1..], u))
    else t.(zero := PutT(t.zero, path[1..], u))
  }

  function Sub<V>(s: Skel<V>, path: Path): Skel<V>
    decreases |path|
  {
    if path == [] || s.None? then s else if path[0] then Sub(s.one, path[1..]) else Sub(s.zero, path[1..])
  }

  function Put<V>(s: Skel<V>, path: Path, u: Skel<V>): Skel<V>
    decreases |path|
  {
    if path == [] || s.None? then u
    else if path[0] then s.(one := Put(s.one, path[1..], u))
    else s.(zero := Put(s.zero, path[1..], u))
  }

  // The nodes that are not below the place
  function Outer<V>(s: Skel<V>, path: Path): set<Node<V>>
    decreases |path|
  {
    if path == [] || s.None? then {}
    else if path[0] then {s.node} + Members(s.zero) + Outer(s.one, path[1..])
    else {s.node} + Members(s.one) + Outer(s.zero, path[1..])
  }

  // Away from the place, the nodes are linked as s says and hold what t says.
  ghost predicate Around<V>(s: Skel<V>, path: Path, t: Trie<V>)
    reads Outer(s, path)
    decreases |path|
  {
    path == [] ||
    (s.At? && t.Branch?
     && s.node.next0 == Ref(s.zero) && s.node.next1 == Ref(s.one) && s.node.data == Null
     && s.node.part == t.part && s.node.len == t.len
     && (if path[0] then Linked(s.zero) && View(s.zero) == t.zero && Around(s.one, path[1..], t.one)
         else Linked(s.one) && View(s.one) == t.one && Around(s.zero, path[1..], t.zero)))
  }

  lemma {:induction false} OuterApart<V>(s: Skel<V>, path: Path)
    requires Apart(s)
    ensures Outer(s, path) !! Members(Sub(s, path)) && Apart(Sub(s, path))
    ensures Members(s) == Outer(s, path) + Members(Sub(s, path))
    decreases |path|
  {
    if path != [] && s.At? {
      if path[0] { OuterApart(s.one, path[1..]); } else { OuterApart(s.zero, path[1..]); }
    }
  }

  lemma OneHolds<V>(s: Skel<V>, t: Trie<V>, c: Skel<V>)
    requires s.At? && t.Branch? && s.node.data == Null && s.node.part == t.part && s.node.len == t.len
    requires s.node.next0 == Ref(s.zero) && Linked(s.zero) && View(s.zero) == t.zero
    requires c.At? && s.node.next1 == Ref(c) && Linked(c)
    ensures Linked(s.(one := c)) && View(s.(one := c)) == t.(one := View(c))
  {}

  lemma ZeroHolds<V>(s: Skel<V>, t: Trie<V>, c: Skel<V>)
    requires s.At? && t.Branch? && s.node.data == Null && s.node.part == t.part && s.node.len == t.len
    requires s.node.next1 == Ref(s.one) && Linked(s.one) && View(s.one) == t.one
    requires c.At? && s.node.next0 == Ref(c) && Linked(c)
    ensures Linked(s.(zero := c)) && View(s.(zero := c)) == t.(zero := View(c))
  {}

  // What is put at the place holds; the rest is as before; so the whole holds.
  lemma {:induction false} PutHolds<V>(s: Skel<V>, path: Path, t: Trie<V>, u: Skel<V>)
    requires Around(s, path, t) && Linked(u) && u.At? && Ref(u) == Ref(Sub(s, path))
    ensures Put(s, path, u).At? && Ref(Put(s, path, u)) == Ref(s)
    ensures Linked(Put(s, path, u)) && View(Put(s, path, u)) == PutT(t, path, View(u))
    decreases |path|
  {
    hide Linked, View;
    if path != [] {
      if path[0] {
        PutHolds(s.one, path[1..], t.one, u);
        OneHolds(s, t, Put(s.one, path[1..], u));
      } else {
        PutHolds(s.zero, path[1..], t.zero, u);
        ZeroHolds(s, t, Put(s.zero, path[1..], u));
      }
    }
  }

  lemma {:induction false} PutApart<V>(s: Skel<V>, path: Path, u: Skel<V>)
    requires Apart(s) && Apart(u) && Members(u) !! Outer(s, path) && u.At? && Sub(s, path).At?
    ensures Apart(Put(s, path, u)) && Members(Put(s, path, u)) == Outer(s, path) + Members(u)
    decreases |path|
  {
    if path != [] && s.At? {
      if path[0] {
        PutApart(s.one, path[1..], u);
        OuterApart(s.one, path[1..]);
      } else {
        PutApart(s.zero, path[1..], u);
        OuterApart(s.zero, path[1..]);
      }
    }
  }

  // The path follows the key from bit `off` down.
  ghost predicate Route<V>(t: Trie<V>, off: nat, key: bv64, path: Path)
    requires off < 64
    decreases |path|
  {
    path == [] ||
    (t.Branch? && t.len <= off && Bincmp(t.part, key, off, t.len) == 0
     && path[0] == Bit(key, off - t.len)
     && Route(if path[0] then t.one else t.zero, off - t.len, key, path[1..]))
  }

  ghost function OffAt<V>(t: Trie<V>, off: nat, key: bv64, path: Path): (r: nat)
    requires off < 64 && Route(t, off, key, path)
    ensures r < 64
    decreases |path|
  {
    if path == [] then off
    else OffAt(if path[0] then t.one else t.zero, off - t.len, key, path[1..])
  }

  predicate Placed<V>(t: Trie<V>, off: nat) {
    off < 64 && (Fits(t, off) || (Root(t) && off == 63))
  }

  lemma {:induction false} RouteFits<V>(t: Trie<V>, off: nat, key: bv64, path: Path)
    requires Placed(t, off) && Route(t, off, key, path)
    ensures Placed(SubT(t, path), OffAt(t, off, key, path))
    ensures path != [] ==> Fits(SubT(t, path), OffAt(t, off, key, path))
    decreases |path|
  {
    hide Bit, Bincmp, Parted;
    if path != [] {
      if path[0] {
        RouteFits(t.one, off - t.len, key, path[1..]);
      } else {
        RouteFits(t.zero, off - t.len, key, path[1..]);
      }
    }
  }

  lemma {:induction false} RouteInsert<V>(t: Trie<V>, off: nat, key: bv64, path: Path, data: Value<V>)
    requires Placed(t, off) && Route(t, off, key, path)
    requires Placed(SubT(t, path), OffAt(t, off, key, path))
    ensures InsertT(t, off, key, data) == PutT(t, path, InsertT(SubT(t, path), OffAt(t, off, key, path), key, data))
    decreases |path|
  {
    hide Bit, Bincmp, Parted, SplitNode, Highest;
    if path != [] {
      if path[0] {
        RouteInsert(t.one, off - t.len, key, path[1..], data);
      } else {
        RouteInsert(t.zero, off - t.len, key, path[1..], data);
      }
    }
  }

  lemma {:induction false} RouteDelete<V>(t: Trie<V>, off: nat, key: bv64, path: Path)
    requires Placed(t, off) && Route(t, off, key, path) && t.Branch? && SubT(t, path).Branch?
    requires Placed(SubT(t, path), OffAt(t, off, key, path))
    ensures DeleteT(t, off, key) == PutT(t, path, DeleteT(SubT(t, path), OffAt(t, off, key, path), key))
    decreases |path|
  {
    hide Bit, Bincmp, Parted, Merge;
    if path != [] {
      if path[0] {
        assert path[1..] == [] ==> SubT(t.one, path[1..]) == t.one;
        RouteDelete(t.one, off - t.len, key, path[1..]);
      } else {
        assert path[1..] == [] ==> SubT(t.zero, path[1..]) == t.zero;
        RouteDelete(t.zero, off - t.len, key, path[1..]);
      }
    }
  }

  // One step further down
  lemma {:induction false} RouteStep<V>(t: Trie<V>, off: nat, key: bv64, path: Path, bit: bool)
    requires Placed(t, off) && Route(t, off, key, path) && SubT(t, path).Branch?
    requires var u := SubT(t, path); var o := OffAt(t, off, key, path);
      u.len <= o && Bincmp(u.part, key, o, u.len) == 0 && bit == Bit(key, o - u.len)
    ensures var u := SubT(t, path);
      && Route(t, off, key, path + [bit])
      && SubT(t, path + [bit]) == (if bit then u.one else u.zero)
      && OffAt(t, off, key, path + [bit]) == OffAt(t, off, key, path) - u.len
    decreases |path|
  {
    hide Bit, Bincmp, Parted;
    if path == [] {
      assert (path + [bit])[1..] == [];
    } else {
      if path[0] {
        RouteStep(t.one, off - t.len, key, path[1..], bit);
      } else {
        RouteStep(t.zero, off - t.len, key, path[1..], bit);
      }
      assert (path + [bit])[1..] == path[1..] + [bit];
    }
  }

  // Walking down: from the whole tree to the part below a place
  lemma {:induction false} WalkDown<V>(s: Skel<V>, path: Path, bit: bool)
    requires Linked(s) && Around(s, path, View(s)) && Sub(s, path).At?
    requires View(Sub(s, path)) == SubT(View(s), path) && View(Sub(s, path)).Branch? && Linked(Sub(s, path))
    ensures var u := Sub(s, path);
      && Sub(s, path + [bit]) == (if bit then u.one else u.zero)
      && Around(s, path + [bit], View(s))
      && Linked(Sub(s, path + [bit])) && View(Sub(s, path + [bit])) == SubT(View(s), path + [bit])
    decreases |path|
  {
    if path == [] {
      assert (path + [bit])[1..] == [];
    } else {
      assert (path + [bit])[1..] == path[1..] + [bit];
      if path[0] {
        WalkDown(s.one, path[1..], bit);
      } else {
        WalkDown(s.zero, path[1..], bit);
      }
    }
  }

  // Everything a search knows about where it stands
  ghost predicate Standing<V>(s: Skel<V>, t: Trie<V>, path: Path, now: Node?<V>, off: nat, key: bv64)
    reads Members(s), Outer(s, path), Members(Sub(s, path))
  {
    && Linked(s) && t == View(s) && Root(t) && Apart(s)
    && Around(s, path, t) && Linked(Sub(s, path)) && View(Sub(s, path)) == SubT(t, path)
    && now == Ref(Sub(s, path))
    && Route(t, 63, key, path) && off == OffAt(t, 63, key, path) && Placed(SubT(t, path), off)
  }

  lemma StepDown<V>(s: Skel<V>, t: Trie<V>, path: Path, now: Node?<V>, off: nat, key: bv64)
    requires Standing(s, t, path, now, off, key)
    requires SubT(t, path).Branch? && SubT(t, path).len <= off
    requires Bincmp(SubT(t, path).part, key, off, SubT(t, path).len) == 0
    ensures var bit := Bit(key, off - SubT(t, path).len);
      && now != null && Sub(s, path).At?
      && Standing(s, t, path + [bit], if bit then now.next1 else now.next0, off - SubT(t, path).len, key)
      && Sub(s, path + [bit]) == (if bit then Sub(s, path).one else Sub(s, path).zero)
  {
    hide Bit, Bincmp, Fits, Root;
    var bit := Bit(key, off - SubT(t, path).len);
    WalkDown(s, path, bit);
    RouteStep(t, 63, key, path, bit);
    RouteFits(t, 63, key, path + [bit]);
  }

  lemma EmptyRoot<V>(t: Trie<V>)
    requires t.Branch? && t.len == 0 && t.zero == Empty && t.one == Empty
    ensures Root(t) && ToMap(t) == map[]
  {}

  // What a node says of the subtree it heads, and back
  lemma NodeShape<V>(u: Skel<V>)
    requires u.At? && Linked(u)
    ensures u.node.next0 == Ref(u.zero) && u.node.next1 == Ref(u.one) && Linked(u.zero) && Linked(u.one)
    ensures View(u) != Empty && View(u).part == u.node.part && View(u).len == u.node.len
    ensures View(u).Leaf? ==> u.zero.None? && u.one.None? && u.node.len != 0 && View(u).data == u.node.data
    ensures View(u).Branch? ==> u.node.data == Null && View(u).zero == View(u.zero) && View(u).one == View(u.one)
    ensures View(u).Branch? && u.node.len != 0 ==> u.zero.At? || u.one.At?
    ensures View(u).Branch? ==> (u.zero.None? ==> View(u).zero == Empty) && (u.one.None? ==> View(u).one == Empty)
  {}

  lemma NodeApart<V>(u: Skel<V>)
    requires u.At? && Apart(u)
    ensures Members(u) == {u.node} + Members(u.zero) + Members(u.one)
    ensures u.node !in Members(u.zero) && u.node !in Members(u.one) && Members(u.zero) !! Members(u.one)
    ensures Apart(u.zero) && Apart(u.one)
  {}

  lemma NewApart<V>(u: Skel<V>)
    requires u.At? && Apart(u.zero) && Apart(u.one)
    requires u.node !in Members(u.zero) && u.node !in Members(u.one) && Members(u.zero) !! Members(u.one)
    ensures Apart(u) && Members(u) == {u.node} + Members(u.zero) + Members(u.one)
  {}

  lemma LeafApart<V>(leaf: Node<V>)
    ensures Apart(At(leaf, None, None)) && Members(At(leaf, None, None)) == {leaf}
  {}

  lemma NoneApart<V>(s: Skel<V>)
    requires s.None?
    ensures Members(s) == {} && View(s) == Empty
  {}

  lemma LeafHolds<V>(leaf: Node<V>)
    requires leaf.next0 == null && leaf.next1 == null && leaf.len > 0
    ensures Linked(At(leaf, None, None)) && View(At(leaf, None, None)) == Leaf(leaf.part, leaf.len, leaf.data)
  {}

  lemma BranchHolds<V>(u: Skel<V>)
    requires u.At? && (u.zero.At? || u.one.At? || u.node.len == 0) && u.node.data == Null
    requires u.node.next0 == Ref(u.zero) && u.node.next1 == Ref(u.one) && Linked(u.zero) && Linked(u.one)
    ensures Linked(u) && View(u) == Branch(u.node.part, u.node.len, View(u.zero), View(u.one))
  {}

  lemma CopyHolds<V>(u: Skel<V>, w: Trie<V>)
    requires u.At? && w != Empty && u.node.next0 == Ref(u.zero) && u.node.next1 == Ref(u.one)
    requires Linked(u.zero) && Linked(u.one) && u.node.part == w.part && u.node.len > 0
    requires w.Leaf? ==> u.zero.None? && u.one.None? && w.data == u.node.data
    requires w.Branch? ==>
      u.node.data == Null && w.zero == View(u.zero) && w.one == View(u.one) && (u.zero.At? || u.one.At?)
    ensures Linked(u) && View(u) == w.(len := u.node.len)
  {}

  // The child that will stay, seen before its parent is written over
  lemma ChildShape<V>(u: Skel<V>, bit: bool, m: Skel<V>)
    requires u.At? && Linked(u) && Apart(u) && View(u).Branch?
    requires View(u).zero != Empty && View(u).zero.len > 0 && View(u).one != Empty && View(u).one.len > 0
    requires bit ==> m == u.zero
    requires !bit ==> m == u.one
    ensures m.At? && (bit ==> u.node.next0 == m.node) && (!bit ==> u.node.next1 == m.node)
    ensures (bit ==> View(m) == View(u).zero) && (!bit ==> View(m) == View(u).one)
    ensures u.node.part == View(u).part && u.node.len == View(u).len
    ensures View(m) != Empty && View(m).part == m.node.part && View(m).len == m.node.len
    ensures Linked(m.zero) && Linked(m.one) && m.node.next0 == Ref(m.zero) && m.node.next1 == Ref(m.one)
    ensures View(m).Leaf? ==> m.zero.None? && m.one.None? && View(m).data == m.node.data
    ensures View(m).Branch? ==> m.node.data == Null && View(m).zero == View(m.zero) && View(m).one == View(m.one)
    ensures View(m).Branch? ==> m.zero.At? || m.one.At?
    ensures u.node != m.node && u.node !in Members(m.zero) && u.node !in Members(m.one)
    ensures Members(m.zero) !! Members(m.one) && Apart(m.zero) && Apart(m.one)
    ensures u.node in Members(u) && Members(m.zero) + Members(m.one) <= Members(u)
  {
    hide Linked, Apart, Members, View;
    NodeShape(u);
    NodeShape(m);
    NodeApart(u);
    NodeApart(m);
  }

  // The two children of a node are different nodes.
  lemma SidesApart<V>(u: Skel<V>)
    requires u.At? && Apart(u)
    ensures u.zero.At? || u.one.At? ==> Ref(u.zero) != Ref(u.one)
  {
    if u.zero.At? && u.one.At? {
      assert u.zero.node in Members(u.zero) && u.one.node in Members(u.one);
    }
  }

  // Where a deletion stands: the parent of the place, and the bits left below it
  ghost predicate Parent<V>(s: Skel<V>, t: Trie<V>, up: Path, parent: Node<V>, off: nat, key: bv64)
    reads Members(s), Outer(s, up), Members(Sub(s, up))
  {
    var w := SubT(t, up);
    w.Branch? && Standing(s, t, up, parent, off + w.len, key) && w.len == parent.len && off + w.len < 64
    && Bincmp(w.part, key, off + w.len, w.len) == 0
  }

  function Data<V>(w: seq<(Key, V)>): (d: seq<V>)
    ensures |d| == |w| && forall i | 0 <= i < |w| :: d[i] == w[i].1
  {
    seq(|w|, i requires 0 <= i < |w| => w[i].1)
  }

  // ShiftBy64: the code shifts a word by its width, and what follows is undefined.
  datatype Inserted<V> = Done(present: Value<V>) | ShiftBy64

  // NullNode: the code reads the data of a node that is not there.
  datatype Deleted<V> = Gone(data: Value<V>) | NullNode

  class RadixTree<V> {
    var root: Node<V>
    ghost var skel: Skel<V>
    ghost var repr: set<Node<V>>

    ghost predicate Valid()
      reads this, repr, Members(skel)
    {
      repr == Members(skel) && skel.At? && skel.node == root && Apart(skel) && Linked(skel) && Root(View(skel))
    }

    ghost function Contents(): map<Key, Value<V>>
      reads this, Members(skel)
    {
      ToMap(View(skel))
    }

    // binradix_new
    constructor ()
      ensures Valid() && Contents() == map[] && fresh(repr)
    {
      root := new Node(0, 0, null, null, Null);
      new;
      skel := At(root, None, None);
      repr := {root};
      assert Members(skel) == {root};
      assert View(skel) == Branch(0, 0, Empty, Empty);
      EmptyRoot(View(skel));
    }

    // binradix_find
    method Find(key: bv64) returns (data: Value<V>)
      requires Valid()
      ensures data == Lookup(Contents(), key)
    {
      hide Linked, View, Apart, Members, Root, Around, Outer, Standing, Sub, SubT, Ref, Bit, Bincmp, Has, Shr, ToMap,
           Route, OffAt,
        Placed, Fits;
      ghost var t := View(skel);
      ghost var path: Path := [];
      AtRoot(skel, key);
      var now: Node?<V> := root;
      var keyOff: nat := 63;
      while now != null
        invariant keyOff < 64 && Standing(skel, t, path, now, keyOff, key)
        decreases Sub(skel, path)
      {
        AtPlace(skel, t, path, now, keyOff, key);
        if now.len == 0 || Bincmp(now.part, key, keyOff, now.len) == 0 {
          if keyOff >= now.len {
            StepDown(skel, t, path, now, keyOff, key);
            keyOff := keyOff - now.len;
            ShiftedBit(key, keyOff);
            path := path + [Bit(key, keyOff)];
            now := if Has(Shr(key, keyOff), 1) then now.next1 else now.next0;
          } else {
            MatchAt(t, path, SubT(t, path), keyOff, key);
            return now.data;
          }
        } else {
          MismatchAt(t, path, SubT(t, path), keyOff, key);
          return Null;
        }
      }
      NothingAt(skel, t, path, keyOff, key);
      return Null;
    }

    // The key is fresh, or its leaf does not hang directly from the root: a duplicate of a
    // leaf of 64 bits would make the code shift a word by 64.
    ghost predicate Insertable(key: bv64)
      reads this, Members(skel)
    {
      Key(key) in Contents() ==> exists k :: k in Contents() && k.word != key && Bit(k.word, 63) == Bit(key, 63)
    }

    // binradix_insert
    method Insert(key: bv64, data: Value<V>) returns (r: Inserted<V>)
      requires Valid()
      modifies this`skel, this`repr, repr
      ensures Valid() && root == old(root) && fresh(repr - old(repr))
      ensures View(skel) == InsertT(old(View(skel)), 63, key, data)
      ensures r == ShiftBy64 <==> !old(Insertable(key))
      ensures Key(key) !in old(Contents()) ==> r == Done(Null) && Contents() == old(Contents())[Key(key) := data]
      ensures Key(key) in old(Contents()) ==> Contents() == old(Contents())
      ensures Key(key) in old(Contents()) && r.Done? ==> r.present == old(Contents())[Key(key)]
    {
      hide Linked, View, Apart, Members, Root, Around, Outer, Standing, Sub, SubT, Put, PutT, Ref, Bit, Bincmp,
        Highest, Has, One, Shr, InsertT, SplitNode, ToMap, Route, OffAt, Placed, Fits;
      ghost var t := View(skel);
      ghost var path: Path := [];
      AtRoot(skel, key);
      InsertIsMap(t, key, data);
      assert Insertable(key) <==> !Sole(t, key);
      var now: Node<V> := root;
      var keyOffS := One(63);
      var keyOff: nat := 63;
      while true
        invariant Standing(skel, t, path, now, keyOff, key) && keyOff < 64 && keyOffS == One(keyOff)
        invariant skel == old(skel) && root == old(root) && repr == old(repr) && repr == Members(skel)
        decreases Sub(skel, path)
      {
        AtPlace(skel, t, path, now, keyOff, key);
        ghost var u, w := Sub(skel, path), SubT(t, path);
        var x := Bincmp(now.part, key, keyOff, now.len);
        if x != 0 {
          var hb := Highest(x);
          SplitsAt(t, path, w, keyOff, key, data);
          OneShifted(keyOff, keyOff - hb);
          keyOffS := Shr(keyOffS, keyOff - hb);
          BitIsHas(key, hb);
          ghost var u', more := SplitHere(now, keyOff, key, data, hb, Has(key, keyOffS), u, w, repr);
          Replace(t, path, u, u', View(u'));
          return Done(Null);
        }
        ShiftDefined(skel, t, path, now, keyOff, key);
        if now.len >= 64 {
          return ShiftBy64;
        }
        OneShifted(keyOff, now.len);
        ShiftedOut(keyOff, now.len);
        keyOffS := Shr(keyOffS, now.len);
        if keyOffS == 0 {
          DuplicateAt(t, path, w, keyOff, key, data);
          return Done(now.data);
        }
        BitIsHas(key, keyOff - now.len);
        var bit := Has(key, keyOffS);
        var next := if bit then now.next1 else now.next0;
        if next == null {
          AttachesAt(t, path, w, keyOff, key, data);
          ghost var u', more := AttachHere(now, key, data, keyOff - now.len, bit, u, w, repr);
          Replace(t, path, u, u', View(u'));
          return Done(Null);
        }
        StepDown(skel, t, path, now, keyOff, key);
        keyOff := keyOff - now.len;
        path := path + [bit];
        now := next;
      }
    }

    // Two nodes from one, and the new leaf on its side
    method SplitHere(now: Node<V>, off: nat, key: bv64, data: Value<V>, hb: nat, bit: bool,
                     ghost u: Skel<V>, ghost w: Trie<V>, ghost all: set<Node<V>>)
      returns (ghost u': Skel<V>, ghost more: set<Node<V>>)
      requires u.At? && u.node == now && Linked(u) && Apart(u) && w == View(u) && Members(u) <= all
      requires hb <= off && off - hb < now.len && bit == Bit(key, hb)
      modifies now
      ensures u'.At? && u'.node == now && Linked(u') && Apart(u')
      ensures Members(u') == Members(u) + more && fresh(more) && more !! all
      ensures w != Empty && off - hb <= w.len && View(u') == SplitNode(w, off, key, data, hb)
    {
      hide Bit, Linked, View, Members, Apart, SplitNode;
      NodeShape(u);
      NodeApart(u);
      SplitLooks(w, off, key, data, hb);
      var len := off - hb;
      var lower, leaf;
      lower, leaf, more := NewPair(now, now.len - len, key, hb + 1, data, u, w, all);
      if bit {
        now.next0, now.next1, now.len, now.data := lower, leaf, len, Null;
        u' := At(now, At(lower, u.zero, u.one), At(leaf, None, None));
      } else {
        now.next1, now.next0, now.len, now.data := lower, leaf, len, Null;
        u' := At(now, At(leaf, None, None), At(lower, u.zero, u.one));
      }
      NewApart(u');
      BranchHolds(u');
    }

    // The lower half of a split node, and the leaf that will be its sibling
    method NewPair(now: Node<V>, len: nat, key: bv64, rest: nat, data: Value<V>,
                   ghost u: Skel<V>, ghost w: Trie<V>, ghost all: set<Node<V>>)
      returns (lower: Node<V>, leaf: Node<V>, ghost more: set<Node<V>>)
      requires u.At? && u.node == now && Linked(u) && Apart(u) && w == View(u) && Members(u) <= all
      requires 0 < len <= now.len && rest > 0 && w != Empty
      ensures var low, new' := At(lower, u.zero, u.one), At(leaf, None, None);
        && Linked(low) && Apart(low) && View(low) == w.(len := len) && Members(low) == Members(u) - {now} + {lower}
        && Linked(new') && Apart(new') && View(new') == Leaf(key, rest, data) && Members(new') == {leaf}
      ensures more == {lower, leaf} && lower != leaf && fresh(more) && more !! all
    {
      hide Bit, Linked, View, Members, Apart;
      NodeShape(u);
      NodeApart(u);
      lower := new Node<V>(now.part, len, now.next0, now.next1, now.data);
      leaf := new Node<V>(key, rest, null, null, data);
      more := {lower, leaf};
      CopyHolds(At(lower, u.zero, u.one), w);
      NewApart(At(lower, u.zero, u.one));
      LeafHolds(leaf);
      LeafApart(leaf);
    }

    // A new leaf where there was no child
    method AttachHere(now: Node<V>, key: bv64, data: Value<V>, keyOff: nat, bit: bool,
                      ghost u: Skel<V>, ghost w: Trie<V>, ghost all: set<Node<V>>)
      returns (ghost u': Skel<V>, ghost more: set<Node<V>>)
      requires u.At? && u.node == now && Linked(u) && Apart(u) && w == View(u) && w.Branch? && Members(u) <= all
      requires if bit then u.one.None? else u.zero.None?
      modifies now
      ensures u'.At? && u'.node == now && Linked(u') && Apart(u')
      ensures Members(u') == Members(u) + more && fresh(more) && more !! all
      ensures bit ==> View(u') == w.(one := Leaf(key, keyOff + 1, data))
      ensures !bit ==> View(u') == w.(zero := Leaf(key, keyOff + 1, data))
    {
      hide Bit, Linked, View, Members, Apart;
      NodeShape(u);
      NodeApart(u);
      NoneApart(if bit then u.one else u.zero);
      var leaf := new Node<V>(key, keyOff + 1, null, null, data);
      if bit {
        now.next1 := leaf;
        u' := At(now, u.zero, At(leaf, None, None));
      } else {
        now.next0 := leaf;
        u' := At(now, At(leaf, None, None), u.one);
      }
      LeafHolds(leaf);
      LeafApart(leaf);
      BranchHolds(u');
      NewApart(u');
      more := {leaf};
    }

    // The root has a child on the side of the key: without one the code would read the
    // data of a node that is not there.
    ghost predicate Deletable(key: bv64)
      reads this, Members(skel)
    {
      exists k :: k in Contents() && Bit(k.word, 63) == Bit(key, 63)
    }

    // binradix_delete
    method Delete(key: bv64) returns (r: Deleted<V>)
      requires Valid()
      modifies this`skel, this`repr, repr
      ensures Valid() && root == old(root) && repr <= old(repr)
      ensures r == NullNode <==> !old(Deletable(key))
      ensures r.Gone? ==> r.data == Lookup(old(Contents()), key)
      ensures Contents() == old(Contents()) - {Key(key)}
      ensures Key(key) in old(Contents()) ==> View(skel) == DeleteT(old(View(skel)), 63, key)
      ensures Key(key) !in old(Contents()) ==> View(skel) == old(View(skel))
    {
      hide Linked, View, Apart, Members, Root, Around, Outer, Standing, Parent, Sub, SubT, Put, PutT, Bit, Bincmp,
           Has, Shr, DeleteT, Merge,
        MergedPart, ToMap, Route, OffAt, Placed, Fits;
      ghost var t := View(skel);
      ghost var path, up: Path := [], [];
      AtRoot(skel, key);
      RootBranches(t);
      if Key(key) in ToMap(t) { DeleteKeeps(t, 63, key); }
      assert Deletable(key) <==> !Lonely(t, key);
      var now: Node<V> := root;
      var parent: Node?<V> := null;
      var keyOff: nat := 63;
      while true
        invariant keyOff < 64 && Standing(skel, t, path, now, keyOff, key)
        invariant skel == old(skel) && root == old(root) && repr == old(repr) && repr == Members(skel)
        invariant path != [] ==>
          parent != null && Parent(skel, t, up, parent, keyOff, key) && path == up + [Bit(key, keyOff)]
        invariant path != [] ==> now == if Bit(key, keyOff) then parent.next1 else parent.next0
        decreases Sub(skel, path)
      {
        AtPlace(skel, t, path, now, keyOff, key);
        if now.len != 0 && Bincmp(now.part, key, keyOff, now.len) != 0 {
          MismatchAt(t, path, SubT(t, path), keyOff, key);
          NotLonely(t, path, key);
          return Gone(Null);
        }
        if keyOff < now.len {
          break;
        }
        ChildThere(t, path, SubT(t, path), keyOff, key);
        StepDown(skel, t, path, now, keyOff, key);
        AtParent(skel, t, path, now, keyOff, key);
        keyOff := keyOff - now.len;
        ShiftedBit(key, keyOff);
        up, path := path, path + [Bit(key, keyOff)];
        parent := now;
        var next := if Has(Shr(key, keyOff), 1) then parent.next1 else parent.next0;
        if next == null {
          NothingAt(skel, t, path, keyOff, key);
          return NullNode;
        }
        now := next;
      }
      MatchAt(t, path, SubT(t, path), keyOff, key);
      NotLonely(t, path, key);
      var data := Unlink(now, parent, keyOff, key, t, up);
      r := Gone(data);
    }

    // The end of a deletion: the leaf `now` leaves its parent.
    method Unlink(now: Node<V>, parent: Node<V>, keyOff: nat, key: bv64, ghost t: Trie<V>, ghost up: Path)
      returns (data: Value<V>)
      requires Valid() && keyOff < 64 && Parent(skel, t, up, parent, keyOff, key)
      requires SubT(t, up + [Bit(key, keyOff)]).Leaf? && Key(key) in ToMap(t)
      requires now == if Bit(key, keyOff) then parent.next1 else parent.next0
      modifies this`skel, this`repr, repr
      ensures Valid() && root == old(root) && repr <= old(repr)
      ensures data == old(now.data) && View(skel) == DeleteT(t, 63, key)
    {
      hide Linked, View, Apart, Members, Root, Around, Outer, Standing, Parent, Sub, SubT, Put, PutT, Bit, Bincmp,
           DeleteT, Merge,
        MergedPart, ToMap, Route, OffAt, Placed, Fits;
      DeletesAt(skel, t, up, parent, keyOff, key);
      AtPlace(skel, t, up, parent, keyOff + parent.len, key);
      RootBranches(t);
      DeleteKeeps(t, 63, key);
      ghost var u, w := Sub(skel, up), SubT(t, up);
      var bit := now == parent.next1;
      SidesApart(u);
      data := now.data;
      ghost var u';
      if parent != root {
        u' := MergeHere(parent, bit, keyOff, u, w, repr);
      } else {
        u' := DropHere(parent, bit, u, w, repr);
      }
      Replace(t, up, u, u', View(u'));
    }

    // The leaf goes and its sibling takes the place of the parent.
    method MergeHere(parent: Node<V>, bit: bool, keyOff: nat, ghost u: Skel<V>, ghost w: Trie<V>,
        ghost all: set<Node<V>>)
      returns (ghost u': Skel<V>)
      requires u.At? && u.node == parent && Linked(u) && Apart(u) && w == View(u) && w.Branch? && Members(u) <= all
      requires w.len > 0 && keyOff < 64 && w.zero != Empty && w.zero.len > 0 && w.one != Empty && w.one.len > 0
      modifies parent
      ensures u'.At? && u'.node == parent && Linked(u') && Apart(u') && Members(u') <= Members(u)
      ensures bit ==> View(u') == Merge(w, w.zero, keyOff)
      ensures !bit ==> View(u') == Merge(w, w.one, keyOff)
    {
      hide Bit, Linked, View, Members, Apart, MergedPart, Merge;
      ghost var m;
      if bit { m := u.zero; } else { m := u.one; }
      ChildShape(u, bit, m);
      MergeLooks(w, View(m), keyOff);
      u' := Absorb(parent, if bit then parent.next0 else parent.next1, keyOff, m, all);
    }

    // The node to merge moves into its parent, overwriting the link to the leaf.
    method Absorb(parent: Node<V>, toMerge: Node<V>, keyOff: nat, ghost m: Skel<V>, ghost all: set<Node<V>>)
      returns (ghost u': Skel<V>)
      requires m.At? && m.node == toMerge && Linked(m.zero) && Linked(m.one) && toMerge != parent && keyOff < 64
      requires m.node.next0 == Ref(m.zero) && m.node.next1 == Ref(m.one)
      requires View(m) != Empty && View(m).part == toMerge.part && View(m).len == toMerge.len
      requires View(m).Leaf? ==> m.zero.None? && m.one.None? && View(m).data == toMerge.data
      requires View(m).Branch? ==>
        toMerge.data == Null && View(m).zero == View(m.zero) && View(m).one == View(m.one) && (m.zero.At? || m.one.At?)
      requires parent !in Members(m.zero) && parent !in Members(m.one) && Members(m.zero) !! Members(m.one)
      requires Apart(m.zero) && Apart(m.one) && Members(m.zero) + Members(m.one) <= all && parent.len > 0
      modifies parent
      ensures u' == At(parent, m.zero, m.one) && Linked(u') && Apart(u')
      ensures Members(u') == {parent} + Members(m.zero) + Members(m.one)
      ensures View(u') == old(View(m)).(part := MergedPart(old(parent.part), toMerge.part, keyOff))
                                      .(len := old(parent.len) + toMerge.len)
    {
      hide Bit, Linked, View, Members, Apart, Shl, Pred, Join, Meet, Flip;
      ghost var child := View(m);
      var mask := Pred(Shl(2, keyOff));
      parent.next0, parent.next1 := toMerge.next0, toMerge.next1;
      parent.part := Join(Meet(parent.part, Flip(mask)), Meet(toMerge.part, mask));
      parent.len, parent.data := parent.len + toMerge.len, toMerge.data;
      u' := At(parent, m.zero, m.one);
      CopyHolds(u', child.(part := parent.part));
      NewApart(u');
    }

    // The root only loses its child.
    method DropHere(parent: Node<V>, bit: bool, ghost u: Skel<V>, ghost w: Trie<V>, ghost all: set<Node<V>>)
      returns (ghost u': Skel<V>)
      requires u.At? && u.node == parent && Linked(u) && Apart(u) && w == View(u) && w.Branch? && Members(u) <= all
      requires w.len == 0
      modifies parent
      ensures u'.At? && u'.node == parent && Linked(u') && Apart(u') && Members(u') <= Members(u)
      ensures bit ==> View(u') == w.(one := Empty)
      ensures !bit ==> View(u') == w.(zero := Empty)
    {
      hide Bit, Linked, View, Members, Apart;
      NodeShape(u);
      NodeApart(u);
      ghost var empty: Skel<V> := None;
      NoneApart(empty);
      if bit {
        parent.next1 := null;
        u' := At(parent, u.zero, empty);
      } else {
        parent.next0 := null;
        u' := At(parent, empty, u.one);
      }
      BranchHolds(u');
      NewApart(u');
    }

    // binradix_for_each, with the visitor's calls recorded
    method ForEach() returns (visited: seq<V>)
      requires Valid()
      ensures visited == Data(Walk(View(skel)))
    {
      hide Linked, View, Apart, Root, Walk, Data;
      NodeShape(skel);
      var zero, one := [], [];
      if root.next0 != null {
        zero := Visit(root.next0, skel.zero, repr);
      }
      if root.next1 != null {
        one := Visit(root.next1, skel.one, repr);
      }
      RootBranches(View(skel));
      WalkBranch(View(skel));
      return zero + one;
    }

    static method Visit(r: Node<V>, ghost s: Skel<V>, ghost all: set<Node<V>>) returns (visited: seq<V>)
      requires s.At? && s.node == r && Linked(s) && Members(s) <= all
      ensures visited == Data(Walk(View(s)))
      decreases s
    {
      hide Linked, View, Walk, Data;
      NodeShape(s);
      if r.data.Ptr? {
        WalkLeaf(View(s));
        return [r.data.v];
      }
      var zero, one := [], [];
      if r.next0 != null {
        zero := Visit(r.next0, s.zero, all);
      }
      if r.next1 != null {
        one := Visit(r.next1, s.one, all);
      }
      if View(s).Branch? { WalkBranch(View(s)); } else { WalkLeaf(View(s)); }
      return zero + one;
    }

    // The subtree at the place has become u': so has the tree.
    ghost method Replace(t: Trie<V>, path: Path, u: Skel<V>, u': Skel<V>, w: Trie<V>)
      requires skel.At? && skel.node == root && Apart(skel) && Around(skel, path, t)
      requires u == Sub(skel, path) && u.At? && u'.At? && u'.node == u.node
      requires Linked(u') && Apart(u') && w == View(u')
      requires repr == Outer(skel, path) + Members(u) && Outer(skel, path) !! Members(u)
        && Members(u') * repr <= Members(u)
      modifies this`skel, this`repr
      ensures skel.At? && skel.node == root && Apart(skel) && Linked(skel)
      ensures View(skel) == PutT(t, path, w)
      ensures repr == Members(skel) == old(repr) + Members(u') - (Members(u) - Members(u'))
    {
      PutHolds(skel, path, t, u');
      PutApart(skel, path, u');
      skel := Put(skel, path, u');
      repr := Members(skel);
    }
  }

  // Half(Twice(m)) == m while the bit is not lost
  lemma HalfTwice(m: bv64)
    requires Hot(m) && Twice(m) != 0
    ensures Half(Twice(m)) == m
  {}

  lemma {:induction false} OneShifted(a: nat, b: nat)
    requires a < 64
    ensures Shr(One(a), b) == if b <= a then One(a - b) else 0
  {
    hide Twice, Half, Hot;
    if b > 0 {
      OneShifted(a, b - 1);
      if b <= a {
        OneHot(a - b);
        OneNonZero(a - b + 1);
        HalfTwice(One(a - b));
      } else if b == a + 1 {
        HalfOne();
      } else {
        HalfZero();
      }
    }
  }

  lemma ShiftedOut(a: nat, b: nat)
    requires a < 64
    ensures Shr(One(a), b) == 0 <==> b > a
  {
    hide One, Shr;
    OneShifted(a, b);
    if b <= a { OneNonZero(a - b); }
  }

  lemma HalfOne()
    ensures Half(One(0)) == 0
  {}

  lemma HalfZero()
    ensures Half(0) == 0
  {}

  lemma AtRoot<V>(s: Skel<V>, key: bv64)
    requires s.At? && Apart(s) && Linked(s) && Root(View(s))
    ensures Standing(s, View(s), [], s.node, 63, key)
  {
    hide Bit, Linked, Apart, View, Root, Members;
  }

  // What the place itself offers, and what lies around it
  lemma AtPlace<V>(s: Skel<V>, t: Trie<V>, path: Path, now: Node<V>, off: nat, key: bv64)
    requires Standing(s, t, path, now, off, key)
    ensures var u, w := Sub(s, path), SubT(t, path);
      && u.At? && u.node == now && Linked(u) && Apart(u) && View(u) == w
      && Around(s, path, t) && Outer(s, path) !! Members(u) && Members(s) == Outer(s, path) + Members(u)
      && now in Members(u)
    ensures var w := SubT(t, path);
      && Placed(w, off) && w != Empty && w.part == now.part && w.len == now.len && now.len <= off + 1
      && (now.len == 0 ==> Bincmp(now.part, key, off, now.len) == 0)
      && (off >= now.len <==> w.Branch?)
      && (w.Leaf? ==> w.data == now.data)
    ensures var u, w := Sub(s, path), SubT(t, path);
      && u.node.next0 == Ref(u.zero) && u.node.next1 == Ref(u.one)
      && (w.Branch? ==> w.zero == View(u.zero) && w.one == View(u.one))
      && (u.node.next0 == null ==> u.zero.None?) && (u.node.next1 == null ==> u.one.None?)
    ensures var w := SubT(t, path);
      w.Branch? ==> (now.next0 == null ==> w.zero == Empty) && (now.next1 == null ==> w.one == Empty)
    ensures Root(t) && Route(t, 63, key, path) && off == OffAt(t, 63, key, path)
    ensures Apart(s) && Linked(s) && View(s) == t
  {
    hide Bit, Bincmp, Fits, Root, Parted, View, Linked, Route, OffAt, Around, Members, Apart, Outer;
    OuterApart(s, path);
    NodeShape(Sub(s, path));
    PlacedShape(SubT(t, path), off, key);
    NodeInside(Sub(s, path));
  }

  lemma NodeInside<V>(u: Skel<V>)
    requires u.At?
    ensures u.node in Members(u)
  {}

  lemma PlacedShape<V>(w: Trie<V>, off: nat, key: bv64)
    requires Placed(w, off) && w != Empty
    ensures w.len <= off + 1 && (w.len == 0 ==> Bincmp(w.part, key, off, w.len) == 0) && (off >= w.len <==> w.Branch?)
  {
    hide Bit, Parted;
  }

  // Inserting a present key changes nothing.
  lemma {:induction false} PresentStays<V>(t: Trie<V>, off: nat, key: bv64, data: Value<V>)
    requires Placed(t, off) && Key(key) in ToMap(t)
    ensures InsertT(t, off, key, data) == t
    decreases t
  {
    hide Bit, Bincmp, Above, Differ, SplitNode, Highest;
    PartMatches(t, off, key);
    if t.Branch? {
      BelowBranch(t, Key(key));
      if Bit(key, off - t.len) {
        PresentStays(t.one, off - t.len, key, data);
      } else {
        PresentStays(t.zero, off - t.len, key, data);
      }
    }
  }

  lemma PartMatches<V>(t: Trie<V>, off: nat, key: bv64)
    requires Placed(t, off) && Key(key) in ToMap(t)
    ensures t.len <= off + 1 && Bincmp(t.part, key, off, t.len) == 0
  {
    hide Bit, Bincmp, Parted;
    if Root(t) && off == 63 {
      RootMatches(t.part, key);
    } else {
      PartAgrees(t, off, Key(key));
      ZeroMeansSame(t.part, key, off, t.len);
      forall i | off - t.len < i <= off && 0 <= i ensures !Differ(t.part, key, i) {
        StillAgrees(key, t.part, off + 1 - t.len, i);
      }
    }
  }

  lemma InsertIsMap<V>(t: Trie<V>, key: bv64, data: Value<V>)
    requires Root(t)
    ensures Root(InsertT(t, 63, key, data))
    ensures Key(key) !in ToMap(t) ==> ToMap(InsertT(t, 63, key, data)) == ToMap(t)[Key(key) := data]
    ensures Key(key) in ToMap(t) ==> InsertT(t, 63, key, data) == t
  {
    hide Bit, Root, InsertT;
    if Key(key) in ToMap(t) { PresentStays(t, 63, key, data); } else { InsertRoot(t, key, data); }
  }

  lemma AtParent<V>(s: Skel<V>, t: Trie<V>, path: Path, now: Node<V>, off: nat, key: bv64)
    requires Standing(s, t, path, now, off, key) && SubT(t, path).Branch? && SubT(t, path).len == now.len
      && now.len <= off < 64
    requires Bincmp(now.part, key, off, now.len) == 0 && SubT(t, path).part == now.part
    ensures Parent(s, t, path, now, off - now.len, key)
  {}

  lemma MergeLooks<V>(w: Trie<V>, child: Trie<V>, keyOff: nat)
    requires w.Branch? && child != Empty
    ensures Merge(w, child, keyOff) == child.(part := MergedPart(w.part, child.part, keyOff)).(len := w.len + child.len)
  {}

  // A search that fails at a node shows that the key is nowhere.
  lemma MismatchAt<V>(t: Trie<V>, path: Path, w: Trie<V>, off: nat, key: bv64)
    requires Root(t) && Route(t, 63, key, path) && off == OffAt(t, 63, key, path) && w == SubT(t, path)
    requires Placed(w, off) && w != Empty && w.len <= off + 1 && Bincmp(w.part, key, off, w.len) != 0
    ensures Key(key) !in ToMap(t)
  {
    hide Bit, Bincmp, Root, Fits, Route, OffAt;
    RouteHolds(t, 63, key, path);
    if Key(key) in ToMap(w) { PartMatches(w, off, key); }
  }

  lemma MatchAt<V>(t: Trie<V>, path: Path, w: Trie<V>, off: nat, key: bv64)
    requires Root(t) && Route(t, 63, key, path) && off == OffAt(t, 63, key, path) && w == SubT(t, path)
    requires Placed(w, off) && w.Leaf? && Bincmp(w.part, key, off, w.len) == 0
    ensures Key(key) in ToMap(t) && ToMap(t)[Key(key)] == w.data && path != []
  {
    hide Bit, Bincmp, Above, Parted, Route, OffAt;
    LeafIsKey(t, off, key, path);
  }

  lemma NothingAt<V>(s: Skel<V>, t: Trie<V>, path: Path, off: nat, key: bv64)
    requires Standing(s, t, path, null, off, key)
    ensures Key(key) !in ToMap(t)
  {
    hide Bit, Bincmp, Fits, Route, OffAt, Linked;
    RouteHolds(t, 63, key, path);
  }

  // No key has the same first bit.
  ghost predicate Lonely<V>(t: Trie<V>, key: bv64) {
    forall k | k in ToMap(t) :: Bit(k.word, 63) != Bit(key, 63)
  }

  // The key is there, and it is the only one with its first bit.
  ghost predicate Sole<V>(t: Trie<V>, key: bv64) {
    Key(key) in ToMap(t) && forall k | k in ToMap(t) && Bit(k.word, 63) == Bit(key, 63) :: k.word == key
  }

  // Only the root can lack the child, and lacks it exactly if no key has the same first bit.
  lemma ChildThere<V>(t: Trie<V>, path: Path, w: Trie<V>, off: nat, key: bv64)
    requires Root(t) && Route(t, 63, key, path) && off == OffAt(t, 63, key, path) && w == SubT(t, path)
    requires Placed(w, off) && w.Branch? && w.len <= off
    ensures Bit(key, off - w.len) && w.one == Empty ==> Lonely(t, key)
    ensures !Bit(key, off - w.len) && w.zero == Empty ==> Lonely(t, key)
  {
    hide Bit, Bincmp, Above;
    if path == [] {
      SideEmpty(t, key);
    } else {
      RouteFits(t, 63, key, path);
    }
  }

  lemma NotLonely<V>(t: Trie<V>, path: Path, key: bv64)
    requires Root(t) && Route(t, 63, key, path) && SubT(t, path) != Empty && (path == [] ==> SubT(t, path).len != 0)
    ensures !Lonely(t, key)
  {
    hide Bit, Bincmp, Fits;
    SideEmpty(t, key);
  }

  // The tree in which the code fails: any key, inserted twice into an empty tree.
  lemma TwiceIntoEmpty<V>(key: bv64, data: Value<V>) returns (t: Trie<V>)
    ensures t == InsertT(Branch(0, 0, Empty, Empty), 63, key, data) && Root(t) && Sole(t, key)
    ensures Side(t, key) == Leaf(key, 64, data)
  {
    hide Bit, Root, InsertT;
    var empty: Trie<V> := Branch(0, 0, Empty, Empty);
    EmptyRoot(empty);
    InsertRoot(empty, key, data);
    t := InsertT(empty, 63, key, data);
    SideSole(t, key);
    assert ToMap(t) == map[Key(key) := data];
    SoleData(t, key);
  }

  lemma SoleData<V>(t: Trie<V>, key: bv64)
    requires Root(t) && Side(t, key).Leaf? && Side(t, key).part == key
    ensures Key(key) in ToMap(t) && ToMap(t)[Key(key)] == Side(t, key).data
  {
    SideSole(t, key);
  }

  // Deleting any key from an empty tree meets the missing child.
  lemma DeleteFromEmpty<V>(key: bv64)
    ensures var t: Trie<V> := Branch(0, 0, Empty, Empty); Root(t) && Lonely(t, key) && Side(t, key) == Empty
  {
    EmptyRoot<V>(Branch(0, 0, Empty, Empty));
  }

  // Where the parent stands, the deletion is what DeleteT says.
  lemma DeletesAt<V>(s: Skel<V>, t: Trie<V>, up: Path, parent: Node<V>, off: nat, key: bv64)
    requires Parent(s, t, up, parent, off, key) && SubT(t, up + [Bit(key, off)]).Leaf? && off < 64
    ensures var w := SubT(t, up);
      && w.Branch? && w.len == parent.len && Standing(s, t, up, parent, off + parent.len, key)
      && (Bit(key, off) ==> w.one.Leaf?) && (!Bit(key, off) ==> w.zero.Leaf?)
      && (parent == Ref(s) <==> w.len == 0)
      && (w.len != 0 ==> w.zero != Empty && w.one != Empty && w.zero.len > 0 && w.one.len > 0)
      && (Bit(key, off) && w.len == 0 ==> DeleteT(t, 63, key) == PutT(t, up, w.(one := Empty)))
      && (Bit(key, off) && w.len != 0 ==> DeleteT(t, 63, key) == PutT(t, up, Merge(w, w.zero, off)))
      && (!Bit(key, off) && w.len == 0 ==> DeleteT(t, 63, key) == PutT(t, up, w.(zero := Empty)))
      && (!Bit(key, off) && w.len != 0 ==> DeleteT(t, 63, key) == PutT(t, up, Merge(w, w.one, off)))
  {
    hide Bit, Bincmp, Above, Parted, Merge, Around, Linked, View, PutT;
    RouteDelete(t, 63, key, up);
    RouteStep(t, 63, key, up, Bit(key, off));
    OuterApart(s, up);
    RouteFits(t, 63, key, up);
  }

  lemma RootBranches<V>(t: Trie<V>)
    requires Root(t)
    ensures t.Branch?
  {}

  lemma WalkBranch<V>(t: Trie<V>)
    requires t.Branch?
    ensures Data(Walk(t)) == Data(Walk(t.zero)) + Data(Walk(t.one))
    ensures t.zero == Empty ==> Data(Walk(t.zero)) == []
    ensures t.one == Empty ==> Data(Walk(t.one)) == []
  {}

  lemma WalkLeaf<V>(t: Trie<V>)
    requires t.Leaf?
    ensures t.data.Ptr? ==> Data(Walk(t)) == [t.data.v]
    ensures t.data.Null? ==> Data(Walk(t)) == []
  {}

  // The three ends of an insertion: the node at the place is split, it holds the key, or
  // it lacks the child.
  lemma SplitsAt<V>(t: Trie<V>, path: Path, w: Trie<V>, off: nat, key: bv64, data: Value<V>)
    requires Root(t) && Route(t, 63, key, path) && off == OffAt(t, 63, key, path) && w == SubT(t, path)
    requires Placed(w, off) && w != Empty && w.len <= off + 1 && Bincmp(w.part, key, off, w.len) != 0
    ensures var hb := Highest(Bincmp(w.part, key, off, w.len));
      && hb <= off && off - hb < w.len
      && InsertT(t, 63, key, data) == PutT(t, path, SplitNode(w, off, key, data, hb))
    ensures Key(key) !in ToMap(t)
  {
    hide Bit, Bincmp, Highest, Root, Fits, SplitNode, Route, OffAt;
    RouteInsert(t, 63, key, path, data);
    SplitsInside(w.part, key, off, w.len);
    RouteHolds(t, 63, key, path);
    if Key(key) in ToMap(w) { PartMatches(w, off, key); }
  }

  lemma DuplicateAt<V>(t: Trie<V>, path: Path, w: Trie<V>, off: nat, key: bv64, data: Value<V>)
    requires Root(t) && Route(t, 63, key, path) && off == OffAt(t, 63, key, path) && w == SubT(t, path)
    requires Placed(w, off) && w.Leaf? && Bincmp(w.part, key, off, w.len) == 0
    ensures InsertT(t, 63, key, data) == t
    ensures Key(key) in ToMap(t) && ToMap(t)[Key(key)] == w.data
  {
    hide Bit, Bincmp, Above, Parted, InsertT, Route, OffAt;
    LeafIsKey(t, off, key, path);
    PresentStays(t, 63, key, data);
  }

  lemma AttachesAt<V>(t: Trie<V>, path: Path, w: Trie<V>, off: nat, key: bv64, data: Value<V>)
    requires Root(t) && Route(t, 63, key, path) && off == OffAt(t, 63, key, path) && w == SubT(t, path)
    requires Placed(w, off) && w.Branch? && w.len <= off && Bincmp(w.part, key, off, w.len) == 0
    requires Bit(key, off - w.len) ==> w.one == Empty
    requires !Bit(key, off - w.len) ==> w.zero == Empty
    ensures Bit(key, off - w.len) ==>
      InsertT(t, 63, key, data) == PutT(t, path, w.(one := Leaf(key, off - w.len + 1, data)))
    ensures !Bit(key, off - w.len) ==>
      InsertT(t, 63, key, data) == PutT(t, path, w.(zero := Leaf(key, off - w.len + 1, data)))
    ensures Key(key) !in ToMap(t)
  {
    hide Bit, Bincmp, Above, Route, OffAt, Root, Fits, PutT;
    RouteInsert(t, 63, key, path, data);
    InsertAttaches(w, off, key, data);
    RouteHolds(t, 63, key, path);
  }

  lemma InsertAttaches<V>(t: Trie<V>, off: nat, key: bv64, data: Value<V>)
    requires t.Branch? && Placed(t, off) && t.len <= off && Bincmp(t.part, key, off, t.len) == 0
    requires Bit(key, off - t.len) ==> t.one == Empty
    requires !Bit(key, off - t.len) ==> t.zero == Empty
    ensures Bit(key, off - t.len) ==> InsertT(t, off, key, data) == t.(one := Leaf(key, off - t.len + 1, data))
    ensures !Bit(key, off - t.len) ==> InsertT(t, off, key, data) == t.(zero := Leaf(key, off - t.len + 1, data))
    ensures Key(key) !in ToMap(t)
  {
    hide Bit, Bincmp, Above;
    BelowBranch(t, Key(key));
  }

  lemma SplitLooks<V>(w: Trie<V>, off: nat, key: bv64, data: Value<V>, hb: nat)
    requires w != Empty && hb <= off && off - hb <= w.len
    ensures Bit(key, hb) ==>
      SplitNode(w, off, key, data, hb) == Branch(w.part, off - hb, w.(len := w.len - (off - hb)),
        Leaf(key, hb + 1, data))
    ensures !Bit(key, hb) ==>
      SplitNode(w, off, key, data, hb) == Branch(w.part, off - hb, Leaf(key, hb + 1, data),
        w.(len := w.len - (off - hb)))
  {}

  lemma BitIsHas(x: bv64, i: nat)
    ensures Has(x, One(i)) <==> Bit(x, i)
  {}

  // On the way down nothing is lost: the key is in the tree as it is in the part below.
  lemma {:induction false} RouteHolds<V>(t: Trie<V>, off: nat, key: bv64, path: Path)
    requires Placed(t, off) && Route(t, off, key, path)
    ensures Key(key) in ToMap(t) <==> Key(key) in ToMap(SubT(t, path))
    ensures Key(key) in ToMap(t) ==> ToMap(t)[Key(key)] == ToMap(SubT(t, path))[Key(key)]
    decreases |path|
  {
    hide Bit, Bincmp, Above;
    if path != [] {
      BelowBranch(t, Key(key));
      if path[0] {
        RouteHolds(t.one, off - t.len, key, path[1..]);
      } else {
        assert Key(key) !in ToMap(t.one);
        RouteHolds(t.zero, off - t.len, key, path[1..]);
      }
    }
  }

  lemma {:induction false} RouteOnPath<V>(t: Trie<V>, off: nat, key: bv64, path: Path)
    requires Placed(t, off) && Route(t, off, key, path) && (off == 63 || OnPath(t, key, off + 1))
    ensures OffAt(t, off, key, path) == 63 || OnPath(SubT(t, path), key, OffAt(t, off, key, path) + 1)
    ensures path != [] ==> OnPath(SubT(t, path), key, OffAt(t, off, key, path))
    decreases |path|
  {
    hide Bit, Bincmp, Above, Parted, OnPath;
    if path != [] {
      OnPathBelow(t, off, key);
      var next := off - t.len;
      if path[0] {
        OnPathWeaker(t.one, key, next);
        RouteOnPath(t.one, next, key, path[1..]);
      } else {
        OnPathWeaker(t.zero, key, next);
        RouteOnPath(t.zero, next, key, path[1..]);
      }
    }
  }

  lemma LeafIsKey<V>(t: Trie<V>, off: nat, key: bv64, path: Path)
    requires Root(t) && Route(t, 63, key, path) && off == OffAt(t, 63, key, path) && SubT(t, path).Leaf?
    requires Fits(SubT(t, path), off) && Bincmp(SubT(t, path).part, key, off, SubT(t, path).len) == 0
    ensures Key(key) in ToMap(t) && ToMap(t)[Key(key)] == SubT(t, path).data && SubT(t, path).part == key
  {
    hide Bit, Bincmp, Above, Parted;
    RouteOnPath(t, 63, key, path);
    RouteHolds(t, 63, key, path);
    LeafMatches(SubT(t, path), off, key);
  }

  lemma StillAgrees(a: bv64, b: bv64, n: nat, i: nat)
    requires Above(a, b, n) && n <= i < 64
    ensures !Differ(b, a, i)
  {
    hide Bit;
    assert !Differ(a, b, i);
  }

  // The shift that follows is by 64 bits exactly if the leaf reached is the whole side.
  lemma ShiftDefined<V>(s: Skel<V>, t: Trie<V>, path: Path, now: Node<V>, off: nat, key: bv64)
    requires Standing(s, t, path, now, off, key) && Bincmp(now.part, key, off, now.len) == 0
    requires now.len <= off + 1 && SubT(t, path) != Empty && SubT(t, path).part == now.part
      && SubT(t, path).len == now.len
    requires off < now.len <==> SubT(t, path).Leaf?
    ensures now.len == 64 ==> Sole(t, key)
    ensures now.len < 64 && SubT(t, path).Leaf? ==> !Sole(t, key)
    ensures now.len <= 64
  {
    hide Bit, Bincmp, Above;
    if now.len == 64 {
      LeafIsKey(t, off, key, path);
      forall k | k in ToMap(t) && Bit(k.word, 63) == Bit(key, 63) ensures k.word == key {
        OnlyAtTop(t, key, path, k);
      }
    } else if SubT(t, path).Leaf? {
      SideSole(t, key);
    }
  }

  // A leaf of 64 bits hangs from the root and is alone on its side.
  lemma OnlyAtTop<V>(t: Trie<V>, key: bv64, path: Path, k: Key)
    requires Root(t) && Route(t, 63, key, path) && SubT(t, path).Leaf? && SubT(t, path).part == key
    requires OffAt(t, 63, key, path) == 63 && k in ToMap(t) && Bit(k.word, 63) == Bit(key, 63)
    ensures k.word == key
  {
    hide Bit, Bincmp, Above;
    BelowBranch(t, k);
    assert path != [];
    OffFalls(if path[0] then t.one else t.zero, 63, key, path[1..]);
  }

  lemma {:induction false} OffFalls<V>(t: Trie<V>, off: nat, key: bv64, path: Path)
    requires Fits(t, off) && off < 64 && Route(t, off, key, path)
    ensures OffAt(t, off, key, path) <= off && (path != [] ==> OffAt(t, off, key, path) < off)
    decreases |path|
  {
    hide Bit, Bincmp, Parted;
    if path != [] {
      OffFalls(if path[0] then t.one else t.zero, off - t.len, key, path[1..]);
    }
  }
}
