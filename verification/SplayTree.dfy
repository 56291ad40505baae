// The top-down splay tree of sys/lib/splay.c. An element stands for its rank in the order
// that the comparison function defines.
module SplayTree {
  class Node {
    var left: Node?
    var right: Node?
    const data: int

    constructor (data: int, left: Node?, right: Node?)
      ensures this.data == data && this.left == left && this.right == right
    {
      this.data, this.left, this.right := data, left, right;
    }
  }

  // Which nodes make up a tree
  datatype Shape = None | At(node: Node, left: Shape, right: Shape)

  function Ref(s: Shape): Node? {
    if s.At? then s.node else null
  }

  function Members(s: Shape): set<Node> {
    if s.At? then {s.node} + Members(s.left) + Members(s.right) else {}
  }

  // The elements in order
  function Keys(s: Shape): seq<int> {
    if s.At? then Keys(s.left) + [s.node.data] + Keys(s.right) else []
  }

  predicate Apart(s: Shape) {
    s.At? ==>
      && s.node !in Members(s.left) && s.node !in Members(s.right) && Members(s.left) !! Members(s.right)
      && Apart(s.left) && Apart(s.right)
  }

  ghost predicate Linked(s: Shape)
    reads Members(s)
  {
    s.At? ==>
      && s.node.left == Ref(s.left) && s.node.right == Ref(s.right)
      && Linked(s.left) && Linked(s.right)
  }

  // A node set aside by the loop of splay(), with the subtree it keeps. The latest comes
  // first.
  datatype Frame = Frame(node: Node, side: Shape)

  function Nodes(fs: seq<Frame>): set<Node> {
    if fs == [] then {} else {fs[0].node} + Members(fs[0].side) + Nodes(fs[1..])
  }

  predicate FramesApart(fs: seq<Frame>) {
    fs == [] ||
    (&& fs[0].node !in Members(fs[0].side) && fs[0].node !in Nodes(fs[1..]) && Members(fs[0].side) !! Nodes(fs[1..])
     && Apart(fs[0].side) && FramesApart(fs[1..]))
  }

  // The smaller elements set aside, and the larger ones
  function KeysBelow(ls: seq<Frame>): seq<int> {
    if ls == [] then [] else KeysBelow(ls[1..]) + Keys(ls[0].side) + [ls[0].node.data]
  }

  function KeysAbove(rs: seq<Frame>): seq<int> {
    if rs == [] then [] else [rs[0].node.data] + Keys(rs[0].side) + KeysAbove(rs[1..])
  }

  // The nodes set aside on the left hang together through `right`, the outermost from
  // `top.right`; what the latest has there does not matter.
  ghost predicate LeftChain(ls: seq<Frame>, top: Node)
    reads top`right, Nodes(ls)
  {
    if ls == [] then true
    else
      && ls[0].node.left == Ref(ls[0].side) && Linked(ls[0].side)
      && (if |ls| == 1 then top.right == ls[0].node else ls[1].node in Nodes(ls) && ls[1].node.right == ls[0].node)
      && LeftChain(ls[1..], top)
  }

  ghost predicate RightChain(rs: seq<Frame>, top: Node)
    reads top`left, Nodes(rs)
  {
    if rs == [] then true
    else
      && rs[0].node.right == Ref(rs[0].side) && Linked(rs[0].side)
      && (if |rs| == 1 then top.left == rs[0].node else rs[1].node in Nodes(rs) && rs[1].node.left == rs[0].node)
      && RightChain(rs[1..], top)
  }

  // The whole tree again, around the middle
  function Below(ls: seq<Frame>, x: Shape): Shape {
    if ls == [] then x else Below(ls[1..], At(ls[0].node, ls[0].side, x))
  }

  function Above(rs: seq<Frame>, x: Shape): Shape {
    if rs == [] then x else Above(rs[1..], At(rs[0].node, x, rs[0].side))
  }

  lemma {:induction false} BelowIs(ls: seq<Frame>, x: Shape)
    requires FramesApart(ls) && Apart(x) && Nodes(ls) !! Members(x)
    ensures Keys(Below(ls, x)) == KeysBelow(ls) + Keys(x)
    ensures Apart(Below(ls, x)) && Members(Below(ls, x)) == Nodes(ls) + Members(x)
  {
    if ls != [] { BelowIs(ls[1..], At(ls[0].node, ls[0].side, x)); }
  }

  lemma {:induction false} AboveIs(rs: seq<Frame>, x: Shape)
    requires FramesApart(rs) && Apart(x) && Nodes(rs) !! Members(x)
    ensures Keys(Above(rs, x)) == Keys(x) + KeysAbove(rs)
    ensures Apart(Above(rs, x)) && Members(Above(rs, x)) == Nodes(rs) + Members(x)
  {
    if rs != [] { AboveIs(rs[1..], At(rs[0].node, x, rs[0].side)); }
  }

  lemma {:induction false} BelowHolds(ls: seq<Frame>, x: Shape, top: Node)
    requires LeftChain(ls, top) && Linked(x)
    requires if ls == [] then top.right == Ref(x) else ls[0].node.right == Ref(x)
    ensures Linked(Below(ls, x)) && top.right == Ref(Below(ls, x))
  {
    if ls != [] { BelowHolds(ls[1..], At(ls[0].node, ls[0].side, x), top); }
  }

  lemma {:induction false} AboveHolds(rs: seq<Frame>, x: Shape, top: Node)
    requires RightChain(rs, top) && Linked(x)
    requires if rs == [] then top.left == Ref(x) else rs[0].node.left == Ref(x)
    ensures Linked(Above(rs, x)) && top.left == Ref(Above(rs, x))
  {
    if rs != [] { AboveHolds(rs[1..], At(rs[0].node, x, rs[0].side), top); }
  }

  predicate Sorted(k: seq<int>) {
    forall i, j | 0 <= i < j < |k| :: k[i] < k[j]
  }

  predicate AllLess(k: seq<int>, data: int) {
    forall x | x in k :: x < data
  }

  predicate AllMore(k: seq<int>, data: int) {
    forall x | x in k :: data < x
  }

  lemma NodeParts(s: Shape)
    requires s.At? && Apart(s) && Linked(s)
    ensures s.node.left == Ref(s.left) && s.node.right == Ref(s.right) && Linked(s.left) && Linked(s.right)
    ensures s.node !in Members(s.left) && s.node !in Members(s.right) && Members(s.left) !! Members(s.right)
    ensures Apart(s.left) && Apart(s.right) && Members(s) == {s.node} + Members(s.left) + Members(s.right)
    ensures Keys(s) == Keys(s.left) + [s.node.data] + Keys(s.right)
  {}

  lemma NodeWhole(s: Shape)
    requires s.At? && s.node.left == Ref(s.left) && s.node.right == Ref(s.right) && Linked(s.left) && Linked(s.right)
    requires s.node !in Members(s.left) && s.node !in Members(s.right) && Members(s.left) !! Members(s.right)
    requires Apart(s.left) && Apart(s.right)
    ensures Linked(s) && Apart(s) && Members(s) == {s.node} + Members(s.left) + Members(s.right)
    ensures Keys(s) == Keys(s.left) + [s.node.data] + Keys(s.right)
  {}

  lemma KeyOrder(a: seq<int>, x: int, b: seq<int>)
    requires Sorted(a + [x] + b)
    ensures Sorted(a) && Sorted(b) && AllLess(a, x) && AllMore(b, x)
  {
    var k := a + [x] + b;
    assert k[|a|] == x;
    assert forall i | 0 <= i < |a| :: k[i] == a[i];
    assert forall i | 0 <= i < |b| :: k[|a| + 1 + i] == b[i];
  }

  lemma JoinLess(a: seq<int>, b: seq<int>, data: int)
    requires AllLess(a, data) && AllLess(b, data)
    ensures AllLess(a + b, data)
  {}

  lemma JoinMore(a: seq<int>, b: seq<int>, data: int)
    requires AllMore(a, data) && AllMore(b, data)
    ensures AllMore(a + b, data)
  {}

  lemma LessThrough(a: seq<int>, x: int, data: int)
    requires AllLess(a, x) && x <= data
    ensures AllLess(a, data)
  {}

  lemma MoreThrough(a: seq<int>, x: int, data: int)
    requires AllMore(a, x) && data <= x
    ensures AllMore(a, data)
  {}

  // What splay() has at the top of its loop: elements set aside on both sides, and a tree
  // in the middle that holds the place of `data`
  ghost predicate Loop(ls: seq<Frame>, t: Shape, rs: seq<Frame>, top: Node, s: Shape, data: int)
    reads top, Nodes(ls), Nodes(rs), Members(t)
  {
    && t.At? && Linked(t) && LeftChain(ls, top) && RightChain(rs, top)
    && Separate(ls, t, rs, top) && Nodes(ls) + Members(t) + Nodes(rs) == Members(s)
    && KeysBelow(ls) + Keys(t) + KeysAbove(rs) == Keys(s) && Sorted(Keys(t))
    && AllLess(KeysBelow(ls), data) && AllMore(KeysAbove(rs), data)
  }

  predicate Separate(ls: seq<Frame>, t: Shape, rs: seq<Frame>, top: Node) {
    && Apart(t) && FramesApart(ls) && FramesApart(rs)
    && Nodes(ls) !! Members(t) && Nodes(rs) !! Members(t) && Nodes(ls) !! Nodes(rs)
    && top !in Members(t) && top !in Nodes(ls) && top !in Nodes(rs)
  }

  // Where the loop may stop: the element is found, or its place is empty.
  predicate Stop(t: Shape, data: int)
    requires t.At?
  {
    data == t.node.data || (data < t.node.data && t.left.None?) || (data > t.node.data && t.right.None?)
  }

  // rotate right: the left child comes up
  method RotateRight(t: Node, ghost s: Shape) returns (up: Node, ghost s': Shape)
    requires s.At? && s.node == t && s.left.At? && Linked(s) && Apart(s)
    modifies t, s.left.node
    ensures s' == At(s.left.node, s.left.left, At(s.node, s.left.right, s.right)) && up == s'.node
    ensures Linked(s') && Apart(s') && Members(s') == Members(s) && Keys(s') == Keys(s)
  {
    hide Linked, Members, Apart, Keys;
    NodeParts(s);
    NodeParts(s.left);
    up := t.left;
    t.left := up.right;
    up.right := t;
    ghost var down := At(t, s.left.right, s.right);
    s' := At(up, s.left.left, down);
    NodeWhole(down);
    NodeWhole(s');
    assert Keys(s') == Keys(s.left.left) + [up.data] + (Keys(s.left.right) + [t.data] + Keys(s.right));
  }

  // rotate left: the right child comes up
  method RotateLeft(t: Node, ghost s: Shape) returns (up: Node, ghost s': Shape)
    requires s.At? && s.node == t && s.right.At? && Linked(s) && Apart(s)
    modifies t, s.right.node
    ensures s' == At(s.right.node, At(s.node, s.left, s.right.left), s.right.right) && up == s'.node
    ensures Linked(s') && Apart(s') && Members(s') == Members(s) && Keys(s') == Keys(s)
  {
    hide Linked, Members, Apart, Keys;
    NodeParts(s);
    NodeParts(s.right);
    up := t.right;
    t.right := up.left;
    up.left := t;
    ghost var down := At(t, s.left, s.right.left);
    s' := At(up, down, s.right.right);
    NodeWhole(down);
    NodeWhole(s');
    assert Keys(s') == (Keys(s.left) + [t.data] + Keys(s.right.left)) + [up.data] + Keys(s.right.right);
  }

  function LastOf(fs: seq<Frame>, top: Node): Node {
    if fs == [] then top else fs[0].node
  }

  // ----- one link -----

  lemma FrameParts(f: Frame, fs: seq<Frame>)
    ensures Nodes([f] + fs) == {f.node} + Members(f.side) + Nodes(fs)
    ensures KeysAbove([f] + fs) == [f.node.data] + Keys(f.side) + KeysAbove(fs)
    ensures KeysBelow([f] + fs) == KeysBelow(fs) + Keys(f.side) + [f.node.data]
    ensures FramesApart([f] + fs) <==>
      && f.node !in Members(f.side) && f.node !in Nodes(fs) && Members(f.side) !! Nodes(fs) && Apart(f.side)
        && FramesApart(fs)
  {
    assert ([f] + fs)[1..] == fs;
  }

  lemma RightChainCons(f: Frame, rs: seq<Frame>, top: Node)
    requires RightChain(rs, top) && f.node.right == Ref(f.side) && Linked(f.side) && LastOf(rs, top).left == f.node
    ensures RightChain([f] + rs, top)
  {
    assert ([f] + rs)[1..] == rs;
    if rs != [] { assert rs[0].node in Nodes(rs); }
  }

  lemma LeftChainCons(f: Frame, ls: seq<Frame>, top: Node)
    requires LeftChain(ls, top) && f.node.left == Ref(f.side) && Linked(f.side) && LastOf(ls, top).right == f.node
    ensures LeftChain([f] + ls, top)
  {
    assert ([f] + ls)[1..] == ls;
    if ls != [] { assert ls[0].node in Nodes(ls); }
  }

  // Nothing of a chain depends on where its latest node points inwards.
  lemma LastInside(fs: seq<Frame>, top: Node)
    requires FramesApart(fs) && top !in Nodes(fs)
    ensures fs != [] ==>
      && fs[0].node in Nodes(fs) && fs[0].node !in Members(fs[0].side) && fs[0].node !in Nodes(fs[1..])
      && Members(fs[0].side) <= Nodes(fs) && Nodes(fs[1..]) <= Nodes(fs)
      && (|fs| > 1 ==> fs[1].node in Nodes(fs[1..]))
  {}

  // link right: t and its right subtree go to the larger side
  method LinkRight(t: Node, r: Node, top: Node, data: int,
                   ghost ls: seq<Frame>, ghost m: Shape, ghost rs: seq<Frame>, ghost s: Shape)
    returns (next: Node, ghost rs': seq<Frame>)
    requires Loop(ls, m, rs, top, s, data) && m.node == t && data < t.data && m.left.At? && r == LastOf(rs, top)
    modifies r
    ensures rs' == [Frame(t, m.right)] + rs && next == m.left.node && Loop(ls, m.left, rs', top, s, data)
  {
    hide Linked, Members, Apart, Keys, Nodes, FramesApart, KeysAbove, KeysBelow, Sorted, AllLess, AllMore, LeftChain;
    NodeParts(m);
    FrameParts(Frame(t, m.right), rs);
    LastInside(rs, top);
    LinkOrderRight(ls, m, rs, s, data);
    r.left := t;
    rs' := [Frame(t, m.right)] + rs;
    assert RightChain(rs, top);
    RightChainCons(Frame(t, m.right), rs, top);
    next := t.left;
  }

  lemma LinkOrderRight(ls: seq<Frame>, m: Shape, rs: seq<Frame>, s: Shape, data: int)
    requires m.At? && data < m.node.data && Sorted(Keys(m)) && AllMore(KeysAbove(rs), data)
    requires KeysBelow(ls) + Keys(m) + KeysAbove(rs) == Keys(s)
    ensures Sorted(Keys(m.left)) && AllMore([m.node.data] + Keys(m.right) + KeysAbove(rs), data)
    ensures KeysBelow(ls) + Keys(m.left) + ([m.node.data] + Keys(m.right) + KeysAbove(rs)) == Keys(s)
  {
    RightOrder(KeysBelow(ls), Keys(m.left), m.node.data, Keys(m.right), KeysAbove(rs), data);
  }

  lemma RightOrder(low: seq<int>, a: seq<int>, x: int, b: seq<int>, high: seq<int>, data: int)
    requires Sorted(a + [x] + b) && data < x && AllMore(high, data)
    ensures Sorted(a) && AllMore([x] + b + high, data)
    ensures low + a + ([x] + b + high) == low + (a + [x] + b) + high
  {
    KeyOrder(a, x, b);
    hide Sorted, AllMore;
    MoreThrough(b, x, data);
    OneMore(x, data);
    JoinMore([x], b, data);
    JoinMore([x] + b, high, data);
    Shuffle(low, a, [x] + b, high);
    assert a + [x] + b == a + ([x] + b);
  }

  lemma LeftOrder(low: seq<int>, a: seq<int>, x: int, b: seq<int>, high: seq<int>, data: int)
    requires Sorted(a + [x] + b) && x < data && AllLess(low, data)
    ensures Sorted(b) && AllLess(low + a + [x], data)
    ensures (low + a + [x]) + b + high == low + (a + [x] + b) + high
  {
    KeyOrder(a, x, b);
    hide Sorted, AllLess;
    LessThrough(a, x, data);
    OneLess(x, data);
    JoinLess(low, a, data);
    JoinLess(low + a, [x], data);
    assert (low + a + [x]) + b == low + (a + [x] + b);
  }

  lemma Shuffle(a: seq<int>, b: seq<int>, c: seq<int>, d: seq<int>)
    ensures a + b + (c + d) == a + (b + c) + d
  {}

  lemma OneMore(x: int, data: int)
    requires data < x
    ensures AllMore([x], data)
  {}

  lemma OneLess(x: int, data: int)
    requires x < data
    ensures AllLess([x], data)
  {}

  // link left: t and its left subtree go to the smaller side
  method LinkLeft(t: Node, l: Node, top: Node, data: int,
                  ghost ls: seq<Frame>, ghost m: Shape, ghost rs: seq<Frame>, ghost s: Shape)
    returns (next: Node, ghost ls': seq<Frame>)
    requires Loop(ls, m, rs, top, s, data) && m.node == t && data > t.data && m.right.At? && l == LastOf(ls, top)
    modifies l
    ensures ls' == [Frame(t, m.left)] + ls && next == m.right.node && Loop(ls', m.right, rs, top, s, data)
  {
    hide Linked, Members, Apart, Keys, Nodes, FramesApart, KeysAbove, KeysBelow, Sorted, AllLess, AllMore, RightChain;
    NodeParts(m);
    FrameParts(Frame(t, m.left), ls);
    LastInside(ls, top);
    LinkOrderLeft(ls, m, rs, s, data);
    l.right := t;
    ls' := [Frame(t, m.left)] + ls;
    assert LeftChain(ls, top);
    LeftChainCons(Frame(t, m.left), ls, top);
    next := t.right;
  }

  lemma LinkOrderLeft(ls: seq<Frame>, m: Shape, rs: seq<Frame>, s: Shape, data: int)
    requires m.At? && m.right.At? && data > m.node.data && Sorted(Keys(m)) && AllLess(KeysBelow(ls), data)
    requires KeysBelow(ls) + Keys(m) + KeysAbove(rs) == Keys(s)
    ensures Sorted(Keys(m.right)) && AllLess(KeysBelow(ls) + Keys(m.left) + [m.node.data], data)
    ensures (KeysBelow(ls) + Keys(m.left) + [m.node.data]) + Keys(m.right) + KeysAbove(rs) == Keys(s)
  {
    LeftOrder(KeysBelow(ls), Keys(m.left), m.node.data, Keys(m.right), KeysAbove(rs), data);
  }


  lemma MiddleParts(ls: seq<Frame>, m: Shape, rs: seq<Frame>, top: Node, s: Shape, data: int)
    requires Loop(ls, m, rs, top, s, data)
    ensures m.At? && Linked(m) && Apart(m) && m.node.left == Ref(m.left) && m.node.right == Ref(m.right)
    ensures m.node in Members(m) && Members(m) <= Members(s)
    ensures LastOf(ls, top) == top || LastOf(ls, top) in Members(s)
    ensures LastOf(rs, top) == top || LastOf(rs, top) in Members(s)
    ensures m.left.At? ==> m.left.node in Members(m)
    ensures m.right.At? ==> m.right.node in Members(m)
  {
    hide Apart, KeysAbove, KeysBelow, Sorted, AllLess, AllMore, LeftChain, RightChain, FramesApart, Keys;
  }

  lemma LoopStarts(s: Shape, top: Node, data: int)
    requires s.At? && Linked(s) && Apart(s) && Sorted(Keys(s)) && top !in Members(s)
    ensures Loop([], s, [], top, s, data)
  {
    hide Linked, Members, Apart, Keys, Sorted;
  }

  // A rotation inside the middle tree does not concern the rest of the loop's state.
  method TurnRight(t: Node, top: Node, data: int, ghost ls: seq<Frame>, ghost m: Shape, ghost rs: seq<Frame>,
      ghost s: Shape, ghost all: set<Node>)
    returns (up: Node, ghost m': Shape)
    requires Loop(ls, m, rs, top, s, data) && m.node == t && m.left.At? && Members(s) + {top} <= all
    modifies t, m.left.node
    ensures m' == At(m.left.node, m.left.left, At(m.node, m.left.right, m.right)) && up == m'.node
    ensures Loop(ls, m', rs, top, s, data)
  {
    hide Linked, Members, Apart, Keys, Nodes, FramesApart, KeysAbove, KeysBelow, Sorted, AllLess, AllMore, LeftChain,
         RightChain;
    MiddleParts(ls, m, rs, top, s, data);
    up, m' := RotateRight(t, m);
  }

  method TurnLeft(t: Node, top: Node, data: int, ghost ls: seq<Frame>, ghost m: Shape, ghost rs: seq<Frame>,
      ghost s: Shape, ghost all: set<Node>)
    returns (up: Node, ghost m': Shape)
    requires Loop(ls, m, rs, top, s, data) && m.node == t && m.right.At? && Members(s) + {top} <= all
    modifies t, m.right.node
    ensures m' == At(m.right.node, At(m.node, m.left, m.right.left), m.right.right) && up == m'.node
    ensures Loop(ls, m', rs, top, s, data)
  {
    hide Linked, Members, Apart, Keys, Nodes, FramesApart, KeysAbove, KeysBelow, Sorted, AllLess, AllMore, LeftChain,
         RightChain;
    MiddleParts(ls, m, rs, top, s, data);
    up, m' := RotateLeft(t, m);
  }

  // ----- putting the tree together again -----

  method Finish(t: Node, l: Node, r: Node, top: Node, data: int,
                ghost ls: seq<Frame>, ghost m: Shape, ghost rs: seq<Frame>, ghost s: Shape)
    returns (ghost s': Shape)
    requires Loop(ls, m, rs, top, s, data) && m.node == t && Stop(m, data) && l == LastOf(ls, top)
      && r == LastOf(rs, top)
    modifies t, l, r
    ensures s'.At? && s'.node == t && Linked(s') && Apart(s') && Members(s') == Members(s) && Keys(s') == Keys(s)
    ensures AllLess(Keys(s'.left), data) && AllMore(Keys(s'.right), data)
  {
    hide Linked, Members, Apart, Keys, Nodes, FramesApart, KeysAbove, KeysBelow, Sorted, AllLess, AllMore, Stop;
    NodeParts(m);
    LastInside(ls, top);
    LastInside(rs, top);
    FinalOrder(ls, m, rs, data);
    ghost var a, b := Below(ls, m.left), Above(rs, m.right);
    BelowIs(ls, m.left);
    AboveIs(rs, m.right);
    l.right := t.left;
    r.left := t.right;
    assert LeftChain(ls, top) && RightChain(rs, top);
    BelowHolds(ls, m.left, top);
    AboveHolds(rs, m.right, top);
    t.left := top.right;
    t.right := top.left;
    s' := At(t, a, b);
    NodeWhole(s');
    assert Keys(s') == KeysBelow(ls) + Keys(m) + KeysAbove(rs);
  }

  lemma FinalOrder(ls: seq<Frame>, m: Shape, rs: seq<Frame>, data: int)
    requires m.At? && Stop(m, data) && Sorted(Keys(m)) && AllLess(KeysBelow(ls), data) && AllMore(KeysAbove(rs), data)
    ensures AllLess(KeysBelow(ls) + Keys(m.left), data) && AllMore(Keys(m.right) + KeysAbove(rs), data)
  {
    KeyOrder(Keys(m.left), m.node.data, Keys(m.right));
    hide Sorted, KeysBelow, KeysAbove;
  }

  // ----- splay -----

  // The root is the element, or one of its neighbours: everything on the left is smaller,
  // everything on the right is larger. The elements and their order stay.
  method Splay(data: int, t0: Node, ghost s: Shape, ghost all: set<Node>) returns (t: Node, ghost s': Shape)
    requires s.At? && s.node == t0 && Linked(s) && Apart(s) && Sorted(Keys(s)) && Members(s) <= all
    modifies Members(s)
    ensures s'.At? && s'.node == t && Linked(s') && Apart(s') && Members(s') == Members(s) && Keys(s') == Keys(s)
    ensures AllLess(Keys(s'.left), data) && AllMore(Keys(s'.right), data)
  {
    hide Linked, Members, Apart, Keys, Nodes, FramesApart, KeysAbove, KeysBelow, Sorted, AllLess, AllMore, LeftChain,
         RightChain, Loop;
    var top := new Node(0, null, null);
    var l: Node, r: Node := top, top;
    t := t0;
    ghost var ls: seq<Frame>, rs: seq<Frame>, m := [], [], s;
    LoopStarts(s, top, data);
    while true
      invariant m.At? && m.node == t && Loop(ls, m, rs, top, s, data) && l == LastOf(ls, top) && r == LastOf(rs, top)
      decreases m
    {
      MiddleParts(ls, m, rs, top, s, data);
      if data < t.data {
        if t.left == null { break; }
        if data < t.left.data {
          t, m := TurnRight(t, top, data, ls, m, rs, s, all + {top});
          MiddleParts(ls, m, rs, top, s, data);
          if t.left == null { break; }
        }
        var next;
        next, rs := LinkRight(t, r, top, data, ls, m, rs, s);
        r, t, m := t, next, m.left;
      } else if data > t.data {
        if t.right == null { break; }
        if data > t.right.data {
          t, m := TurnLeft(t, top, data, ls, m, rs, s, all + {top});
          MiddleParts(ls, m, rs, top, s, data);
          if t.right == null { break; }
        }
        var next;
        next, ls := LinkLeft(t, l, top, data, ls, m, rs, s);
        l, t, m := t, next, m.right;
      } else {
        break;
      }
    }
    s' := Finish(t, l, r, top, data, ls, m, rs, s);
  }

  // ----- the set -----

  datatype Option = Nothing | Just(value: int)

  // The last element that is less than data
  ghost predicate IsPrev(k: seq<int>, data: int, r: Option) {
    match r
    case Nothing => forall x | x in k :: x >= data
    case Just(p) => p in k && p < data && forall x | x in k && x < data :: x <= p
  }

  // The first element that is greater than data
  ghost predicate IsNext(k: seq<int>, data: int, r: Option) {
    match r
    case Nothing => forall x | x in k :: x <= data
    case Just(p) => p in k && p > data && forall x | x in k && x > data :: x >= p
  }

  class SplaySet {
    var root: Node?
    ghost var shape: Shape
    ghost var repr: set<Node>

    ghost predicate Valid()
      reads this, repr, Members(shape)
    {
      repr == Members(shape) && root == Ref(shape) && Linked(shape) && Apart(shape) && Sorted(Keys(shape))
    }

    ghost function Contents(): seq<int>
      reads this
    {
      Keys(shape)
    }

    // splay_new
    constructor ()
      ensures Valid() && Contents() == [] && repr == {}
    {
      root, shape, repr := null, None, {};
    }

    // splay(data, &s->root, s->cmp)
    method SplayRoot(data: int)
      requires Valid() && root != null
      modifies this, repr
      ensures Valid() && repr == old(repr) && Contents() == old(Contents())
      ensures shape.At? && root == shape.node
      ensures AllLess(Keys(shape.left), data) && AllMore(Keys(shape.right), data)
      ensures AllLess(Keys(shape.left), shape.node.data) && AllMore(Keys(shape.right), shape.node.data)
      ensures Sorted(Keys(shape.left)) && Sorted(Keys(shape.right))
    {
      hide Linked, Members, Apart, Sorted, AllLess, AllMore;
      root, shape := Splay(data, root, shape, repr);
      KeyOrder(Keys(shape.left), shape.node.data, Keys(shape.right));
    }

    // splay_insert; `found` says that an equal element is returned
    method Insert(data: int) returns (found: bool)
      requires Valid()
      modifies this, repr
      ensures Valid() && fresh(repr - old(repr)) && found == (data in old(Contents()))
      ensures forall x :: x in Contents() <==> x in old(Contents()) || x == data
    {
      hide Linked, Members, Apart, Sorted, AllLess, AllMore, Keys;
      if root == null {
        RootNone(shape);
        var leaf := new Node(data, null, null);
        root, shape, repr := leaf, At(leaf, None, None), {leaf};
        LeafShape(leaf);
        return false;
      }
      SplayRoot(data);
      NodeParts(shape);
      RootDecides(shape, data);
      var t := root;
      if data == t.data {
        return true;
      }
      InsertOrder(Keys(shape.left), t.data, Keys(shape.right), data);
      ghost var a, b := shape.left, shape.right;
      var node := new Node(data, null, null);
      if data < t.data {
        shape := PutBefore(node, t, a, b);
      } else {
        shape := PutAfter(node, t, a, b);
      }
      repr := repr + {node};
      root := node;
      return false;
    }

    // The new node takes the place of the root, which keeps what is on its right.
    static method PutBefore(node: Node, t: Node, ghost a: Shape, ghost b: Shape) returns (ghost s: Shape)
      requires Linked(At(t, a, b)) && Apart(At(t, a, b)) && node !in Members(At(t, a, b))
      modifies node, t
      ensures s == At(node, a, At(t, None, b)) && Linked(s) && Apart(s) && Members(s) == {node} + Members(At(t, a, b))
      ensures Keys(s) == Keys(a) + [node.data] + ([] + [t.data] + Keys(b))
    {
      hide Linked, Members, Apart, Keys;
      NodeParts(At(t, a, b));
      NoneShape();
      node.left := t.left;
      node.right := t;
      t.left := null;
      s := At(node, a, At(t, None, b));
      NodeWhole(At(t, None, b));
      NodeWhole(s);
    }

    static method PutAfter(node: Node, t: Node, ghost a: Shape, ghost b: Shape) returns (ghost s: Shape)
      requires Linked(At(t, a, b)) && Apart(At(t, a, b)) && node !in Members(At(t, a, b))
      modifies node, t
      ensures s == At(node, At(t, a, None), b) && Linked(s) && Apart(s) && Members(s) == {node} + Members(At(t, a, b))
      ensures Keys(s) == (Keys(a) + [t.data] + []) + [node.data] + Keys(b)
    {
      hide Linked, Members, Apart, Keys;
      NodeParts(At(t, a, b));
      NoneShape();
      node.right := t.right;
      node.left := t;
      t.right := null;
      s := At(node, At(t, a, None), b);
      NodeWhole(At(t, a, None));
      NodeWhole(s);
    }

    // splay_delete
    method Delete(data: int) returns (found: bool)
      requires Valid()
      modifies this, repr
      ensures Valid() && repr <= old(repr) && found == (data in old(Contents()))
      ensures forall x :: x in Contents() <==> x in old(Contents()) && x != data
    {
      hide Linked, Members, Apart, Sorted, AllLess, AllMore, Keys;
      if root == null {
        RootNone(shape);
        return false;
      }
      SplayRoot(data);
      NodeParts(shape);
      RootDecides(shape, data);
      var t := root;
      if data == t.data {
        ghost var a, b := shape.left, shape.right;
        DeleteOrder(Keys(a), data, Keys(b));
        if t.left == null {
          NoneKeys(a);
          root, shape := t.right, b;
          repr := Members(b);
        } else {
          ghost var c;
          t.left, c := Splay(data, t.left, a, repr);
          NodeParts(c);
          NothingLarger(Keys(c.left), c.node.data, Keys(c.right), data);
          NoKeys(c.right);
          t.left.right := t.right;
          shape := At(c.node, c.left, b);
          NodeWhole(shape);
          root := t.left;
          repr := Members(shape);
        }
        return true;
      }
      return false;
    }

    // splay_find
    method Find(data: int) returns (found: bool)
      requires Valid()
      modifies this, repr
      ensures Valid() && repr == old(repr) && Contents() == old(Contents())
      ensures found == (data in Contents())
    {
      hide Linked, Members, Apart, Sorted, AllLess, AllMore, Keys;
      if root == null {
        RootNone(shape);
        return false;
      }
      SplayRoot(data);
      RootDecides(shape, data);
      return data == root.data;
    }

    // splay_prev. The result is the neighbour exactly if the element is there (or nothing is).
    method Prev(data: int) returns (r: Option)
      requires Valid()
      modifies this, repr
      ensures Valid() && repr == old(repr) && Contents() == old(Contents())
      ensures IsPrev(Contents(), data, r) <==> data in Contents() || Contents() == []
    {
      hide Linked, Members, Apart, Sorted, AllLess, AllMore, Keys, IsPrev;
      if root == null {
        RootNone(shape);
        NothingBefore(data);
        return Nothing;
      }
      SplayRoot(data);
      NodeParts(shape);
      RootDecides(shape, data);
      ghost var a, b := shape.left, shape.right;
      var t := root;
      if data >= t.data {
        if t.left == null {
          NoneKeys(a);
          PrevResult(Keys(a), t.data, Keys(b), data, Nothing);
          return Nothing;
        }
        ghost var c;
        t.left, c := Splay(data, t.left, a, repr);
        NodeParts(c);
        NothingLarger(Keys(c.left), c.node.data, Keys(c.right), data);
        shape := At(t, c, b);
        NodeWhole(shape);
        LastOne(Keys(c.left), c.node.data);
        PrevResult(Keys(c), t.data, Keys(b), data, Just(c.node.data));
        return Just(t.left.data);
      } else {
        PrevResult(Keys(a), t.data, Keys(b), data, Just(t.data));
        return Just(t.data);
      }
    }

    // splay_next, the same on the other side
    method Next(data: int) returns (r: Option)
      requires Valid()
      modifies this, repr
      ensures Valid() && repr == old(repr) && Contents() == old(Contents())
      ensures IsNext(Contents(), data, r) <==> data in Contents() || Contents() == []
    {
      hide Linked, Members, Apart, Sorted, AllLess, AllMore, Keys, IsNext;
      if root == null {
        RootNone(shape);
        NothingAfter(data);
        return Nothing;
      }
      SplayRoot(data);
      NodeParts(shape);
      RootDecides(shape, data);
      ghost var a, b := shape.left, shape.right;
      var t := root;
      if data <= t.data {
        if t.right == null {
          NoneKeys(b);
          NextResult(Keys(a), t.data, Keys(b), data, Nothing);
          return Nothing;
        }
        ghost var c;
        t.right, c := Splay(data, t.right, b, repr);
        NodeParts(c);
        NothingSmaller(Keys(c.left), c.node.data, Keys(c.right), data);
        shape := At(t, a, c);
        NodeWhole(shape);
        FirstOne(c.node.data, Keys(c.right));
        NextResult(Keys(a), t.data, Keys(c), data, Just(c.node.data));
        return Just(t.right.data);
      } else {
        NextResult(Keys(a), t.data, Keys(b), data, Just(t.data));
        return Just(t.data);
      }
    }
  }

  lemma RootNone(s: Shape)
    requires Ref(s) == null
    ensures s == None && Keys(s) == []
  {}

  lemma NoneKeys(s: Shape)
    requires Ref(s) == null
    ensures s == None && Keys(s) == [] && Members(s) == {}
  {}

  lemma NoKeys(s: Shape)
    requires Keys(s) == []
    ensures s == None && Members(s) == {}
  {}

  lemma NoneShape()
    ensures Linked(None) && Apart(None) && Members(None) == {} && Keys(None) == []
  {}

  lemma LeafShape(n: Node)
    requires n.left == null && n.right == null
    ensures Linked(At(n, None, None)) && Apart(At(n, None, None)) && Members(At(n, None, None)) == {n}
    ensures Keys(At(n, None, None)) == [n.data] && Sorted([n.data])
  {}

  // After splaying, the element is there exactly if it is at the root.
  lemma RootDecides(s: Shape, data: int)
    requires s.At? && AllLess(Keys(s.left), data) && AllMore(Keys(s.right), data)
    ensures data in Keys(s) <==> data == s.node.data
  {}

  lemma InsertOrder(a: seq<int>, x: int, b: seq<int>, data: int)
    requires Sorted(a + [x] + b) && AllLess(a, data) && AllMore(b, data) && data != x
    ensures data < x ==> Sorted(a + [data] + ([] + [x] + b))
    ensures data > x ==> Sorted((a + [x] + []) + [data] + b)
    ensures forall y :: y in a + [data] + ([] + [x] + b) <==> y in a + [x] + b || y == data
    ensures forall y :: y in (a + [x] + []) + [data] + b <==> y in a + [x] + b || y == data
  {
    KeyOrder(a, x, b);
    if data < x {
      SortedAround([], x, b);
      assert [] + [x] + b == [x] + b;
      MoreThrough(b, x, data);
      OneMore(x, data);
      JoinMore([x], b, data);
      SortedAround(a, data, [x] + b);
    } else {
      SortedAround(a, x, []);
      assert a + [x] + [] == a + [x];
      LessThrough(a, x, data);
      OneLess(x, data);
      JoinLess(a, [x], data);
      SortedAround(a + [x], data, b);
    }
  }

  lemma SortedAround(a: seq<int>, x: int, b: seq<int>)
    requires Sorted(a) && Sorted(b) && AllLess(a, x) && AllMore(b, x)
    ensures Sorted(a + [x] + b)
  {
    var k := a + [x] + b;
    forall i, j | 0 <= i < j < |k| ensures k[i] < k[j] {
      assert i < |a| ==> k[i] in a;
      assert j > |a| ==> k[j] in b;
    }
  }

  lemma DeleteOrder(a: seq<int>, x: int, b: seq<int>)
    requires Sorted(a + [x] + b)
    ensures Sorted(a + b) && Sorted(a) && Sorted(b) && forall y :: y in a + b <==> y in a + [x] + b && y != x
  {
    KeyOrder(a, x, b);
    var k := a + b;
    forall i, j | 0 <= i < j < |k| ensures k[i] < k[j] {
      assert i < |a| ==> k[i] in a;
      assert j >= |a| ==> k[j] in b;
    }
  }

  lemma PartsLess(a: seq<int>, x: int, b: seq<int>, data: int)
    requires AllLess(a + [x] + b, data)
    ensures AllLess(b, data)
  {
    forall y | y in b ensures y < data { assert y in a + [x] + b; }
  }

  lemma PartsMore(a: seq<int>, x: int, b: seq<int>, data: int)
    requires AllMore(a + [x] + b, data)
    ensures AllMore(a, data)
  {
    forall y | y in a ensures data < y { assert y in a + [x] + b; }
  }

  lemma SomeOf(k: seq<int>) returns (x: int)
    requires k != []
    ensures x in k
  {
    x := k[0];
  }

  lemma Nobody(k: seq<int>, data: int)
    requires AllLess(k, data) && AllMore(k, data)
    ensures k == []
  {
    if k != [] {
      var x := SomeOf(k);
    }
  }

  // If all elements are smaller, the splayed root is the last of them.
  lemma NothingLarger(a: seq<int>, x: int, b: seq<int>, data: int)
    requires AllLess(a + [x] + b, data) && AllMore(b, data)
    ensures b == [] && a + [x] + b == a + [x]
  {
    PartsLess(a, x, b, data);
    Nobody(b, data);
  }

  lemma NothingSmaller(a: seq<int>, x: int, b: seq<int>, data: int)
    requires AllMore(a + [x] + b, data) && AllLess(a, data)
    ensures a == [] && a + [x] + b == [x] + b
  {
    PartsMore(a, x, b, data);
    Nobody(a, data);
  }

  lemma LastOne(a: seq<int>, p: int)
    requires Sorted(a + [p])
    ensures p in a + [p] && forall x | x in a + [p] :: x <= p
  {
    var k := a + [p];
    assert k[|a|] == p;
  }

  lemma FirstOne(p: int, b: seq<int>)
    requires Sorted([p] + b)
    ensures p in [p] + b && forall x | x in [p] + b :: p <= x
  {
    var k := [p] + b;
    assert k[0] == p;
  }

  lemma NothingBefore(data: int)
    ensures IsPrev([], data, Nothing)
  {}

  lemma NothingAfter(data: int)
    ensures IsNext([], data, Nothing)
  {}

  // What splay_prev returns is right exactly if the element is at the root.
  lemma PrevResult(a: seq<int>, x: int, b: seq<int>, data: int, r: Option)
    requires AllLess(a, data) && AllMore(b, data) && AllLess(a, x) && AllMore(b, x)
    requires data >= x && a == [] ==> r == Nothing
    requires data >= x && a != [] ==> r.Just? && r.value in a && forall y | y in a :: y <= r.value
    requires data < x ==> r == Just(x)
    ensures IsPrev(a + [x] + b, data, r) <==> data == x
  {
    var k := a + [x] + b;
    assert x in k;
    if data >= x && a != [] { assert r.value in k && r.value < x; }
  }

  lemma NextResult(a: seq<int>, x: int, b: seq<int>, data: int, r: Option)
    requires AllLess(a, data) && AllMore(b, data) && AllLess(a, x) && AllMore(b, x)
    requires data <= x && b == [] ==> r == Nothing
    requires data <= x && b != [] ==> r.Just? && r.value in b && forall y | y in b :: r.value <= y
    requires data > x ==> r == Just(x)
    ensures IsNext(a + [x] + b, data, r) <==> data == x
  {
    var k := a + [x] + b;
    assert x in k;
    if data <= x && b != [] { assert r.value in k && r.value > x; }
  }
}
