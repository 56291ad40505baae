// What every system call on ports keeps: who points to whom, what the queues hold, and
// how the messages, handles and answers of the log belong together.
module IpcInvariant {
  import opened IpcState

  predicate Unused(s: State, x: nat) {
    && x !in s.reqs && x !in s.ports && x !in s.conns && x !in s.pledges && x !in s.msgs
    && x !in s.log.sent && x !in s.log.popped && x !in s.log.sender && x !in s.log.place && x !in s.log.text
    && x !in s.log.became && x !in s.log.origin && x !in s.log.handleOf && x !in s.log.answered
    && x !in s.log.collected && x !in s.log.got
  }

  // Whatever is named has a number below the next one to be given out.
  ghost predicate Fresh(s: State) {
    && (forall x: nat | x >= s.next :: Unused(s, x))
    && (forall m | m in s.log.sender :: s.log.sender[m] < s.next)
    && (forall q | q in s.ports :: q !in s.conns)
  }

  // Kind and phase decide what `data` points to.
  predicate ReqOk(s: State, r: nat)
    requires r in s.reqs
  {
    var q := s.reqs[r];
    match q.kind
    case Client =>
      if q.phase == Pending then q.data == Null
      else
        q.phase == Established && q.data.Peer? && ConnHandle(s, q.data.handle)
        && r in s.conns[s.reqs[q.data.handle].data.conn].clients
    case Cookie =>
      if q.phase == Pending then q.data.Msg? && q.data.msg in s.msgs && s.msgs[q.data.msg].client == r
      else
        q.phase == Established && q.data.Answer? && q.data.cookie in s.pledges
        && s.pledges[q.data.cookie].client == r
    case Port => q.data.PortQueue? && q.data.queue in s.ports && q.data.queue in s.log.handleOf
      && s.log.handleOf[q.data.queue] == r
    case ServerConn => ConnHandle(s, r) && q.data.conn in s.log.handleOf && s.log.handleOf[q.data.conn] == r
    case ServerCookie =>
      && q.data.Answer? && q.data.cookie in s.pledges && s.pledges[q.data.cookie].response == None
      && q.data.cookie in s.log.handleOf && s.log.handleOf[q.data.cookie] == r
  }

  predicate ConnHandle(s: State, h: nat) {
    h in s.reqs && s.reqs[h].kind == ServerConn && s.reqs[h].data.ConnQueue? && s.reqs[h].data.conn in s.conns
  }

  // The client of a queued message waits for it to be taken.
  predicate MsgOk(s: State, m: nat)
    requires m in s.msgs
  {
    var c := s.msgs[m].client;
    && c in s.reqs && s.reqs[c].phase == Pending
    && m in s.log.place && m in s.log.sender && s.log.sender[m] == c
    && m in s.log.text && s.log.text[m] == s.msgs[m].payload && m !in s.log.became
    && (s.log.place[m] in s.ports ==> s.reqs[c].kind == Client && m in s.ports[s.log.place[m]])
    && (s.log.place[m] in s.conns ==>
      s.reqs[c].kind == Cookie && s.reqs[c].data == Msg(m) && m in s.conns[s.log.place[m]].incoming)
    && (s.log.place[m] in s.ports || s.log.place[m] in s.conns)
  }

  function Incoming(s: State, q: nat): seq<nat> {
    if q in s.ports then s.ports[q] else if q in s.conns then s.conns[q].incoming else []
  }

  predicate Distinct(q: seq<nat>) {
    forall i, j | 0 <= i < j < |q| :: q[i] != q[j]
  }

  // First in, first out, nothing lost, nothing twice
  predicate QueueOk(s: State, q: nat) {
    && q in s.log.sent && q in s.log.popped && s.log.sent[q] == s.log.popped[q] + Incoming(s, q)
      && Distinct(s.log.sent[q])
    && (forall m | m in Incoming(s, q) :: m in s.msgs && m in s.log.place && s.log.place[m] == q)
    && (forall m | m in s.log.sent[q] :: m in s.log.place && s.log.place[m] == q)
    && (forall m | m in s.log.popped[q] :: m in s.log.became)
  }

  // A pledge belongs to one cookie, and to one server handle until it is answered.
  predicate PledgeOk(s: State, u: nat)
    requires u in s.pledges
  {
    var p := s.pledges[u];
    && p.client in s.reqs && s.reqs[p.client].kind == Cookie && s.reqs[p.client].phase == Established
    && s.reqs[p.client].data == Answer(u)
    && u in s.log.handleOf && s.log.handleOf[u] in s.log.origin && s.log.origin[s.log.handleOf[u]] in s.log.sender
    && s.log.sender[s.log.origin[s.log.handleOf[u]]] == p.client
    && (p.response == None ==>
          var h := s.log.handleOf[u];
          h !in s.log.answered && h in s.reqs && s.reqs[h].kind == ServerCookie && s.reqs[h].data == Answer(u))
    && (p.response.Some? ==>
          var h := s.log.handleOf[u]; h in s.log.answered && s.log.answered[h] == p.response.value && h !in s.reqs)
  }

  predicate ConnOk(s: State, k: nat)
    requires k in s.conns
  {
    s.conns[k].clients != {}
  }

  // Every collected answer went the whole way: it answers the handle that the message of
  // this very cookie became.
  predicate Delivered(l: Log, c: nat)
    requires c in l.collected
  {
    var h := l.collected[c];
    && h in l.answered && c in l.got && l.got[c] == l.answered[h]
    && h in l.origin && l.origin[h] in l.sender && l.sender[l.origin[h]] == c
  }

  predicate LogOk(l: Log) {
    && (forall c | c in l.collected :: Delivered(l, c))
    && (forall m | m in l.became :: l.became[m] in l.origin && l.origin[l.became[m]] == m)
    && (forall h | h in l.origin :: l.origin[h] in l.became && l.became[l.origin[h]] == h)
    && (forall m, n | m in l.sender && n in l.sender && l.sender[m] == l.sender[n] :: m == n)
    && (forall m | m in l.became :: m in l.sender)
  }

  // A collected cookie is gone for good.
  predicate Gone(s: State) {
    forall c | c in s.log.collected :: c !in s.reqs
  }

  predicate PortOk(s: State, n: nat)
    requires n in s.uport
  {
    var p := s.uport[n];
    p in s.reqs && s.reqs[p].kind == Port && s.reqs[p].data.PortQueue? && s.reqs[p].data.queue in s.ports
  }

  predicate Objects(s: State) {
    && (forall r | r in s.reqs :: ReqOk(s, r))
    && (forall m | m in s.msgs :: MsgOk(s, m))
    && (forall u | u in s.pledges :: PledgeOk(s, u))
    && (forall k | k in s.conns :: ConnOk(s, k))
    && (forall n | n in s.uport :: PortOk(s, n))
  }

  ghost predicate Queues(s: State) {
    forall q | q in s.ports || q in s.conns :: QueueOk(s, q)
  }

  ghost predicate Inv(s: State) {
    Fresh(s) && Objects(s) && Queues(s) && LogOk(s.log) && Gone(s)
  }

  // ----- what does not matter to the invariant -----

  // Same objects and log; only tasks, the run queue and the waited bits may differ.
  ghost predicate SameObjects(s: State, t: State) {
    && t.uport == s.uport && t.ports == s.ports && t.conns == s.conns && t.pledges == s.pledges && t.msgs == s.msgs
    && t.next == s.next && t.log == s.log && t.reqs.Keys == s.reqs.Keys
    && forall r | r in s.reqs :: SameReq(s.reqs[r], t.reqs[r])
  }

  predicate SameReq(a: Request, b: Request) {
    a.kind == b.kind && a.phase == b.phase && a.data == b.data && a.owner == b.owner
  }

  lemma SameInv(s: State, t: State)
    requires Inv(s) && SameObjects(s, t)
    ensures Inv(t)
  {
    hide LogOk, ReqOk, MsgOk, PledgeOk, QueueOk, PortOk, ConnOk, SameReq;
    forall x: nat | x >= t.next ensures Unused(t, x) { assert Unused(s, x); }
    forall r | r in t.reqs ensures ReqOk(t, r) { SameReqOk(s, t, r); }
    forall m | m in t.msgs ensures MsgOk(t, m) { SameMsgOk(s, t, m); }
    forall u | u in t.pledges ensures PledgeOk(t, u) { SamePledgeOk(s, t, u); }
    forall q | q in t.ports || q in t.conns ensures QueueOk(t, q) { SameQueueOk(s, t, q); }
    forall n | n in t.uport ensures PortOk(t, n) { SamePortOk(s, t, n); }
    forall k | k in t.conns ensures ConnOk(t, k) { SameConnOk(s, t, k); }
  }

  lemma SameReqOk(s: State, t: State, r: nat)
    requires SameObjects(s, t) && r in s.reqs && ReqOk(s, r)
    ensures ReqOk(t, r)
  {
    assert SameReq(s.reqs[r], t.reqs[r]);
  }

  lemma SameMsgOk(s: State, t: State, m: nat)
    requires SameObjects(s, t) && m in s.msgs && MsgOk(s, m)
    ensures MsgOk(t, m)
  {}

  lemma SamePledgeOk(s: State, t: State, u: nat)
    requires SameObjects(s, t) && u in s.pledges && PledgeOk(s, u)
    ensures PledgeOk(t, u)
  {}

  lemma SameQueueOk(s: State, t: State, q: nat)
    requires SameObjects(s, t) && QueueOk(s, q)
    ensures QueueOk(t, q)
  {}

  lemma SamePortOk(s: State, t: State, n: nat)
    requires SameObjects(s, t) && n in s.uport && PortOk(s, n)
    ensures PortOk(t, n)
  {}

  lemma SameConnOk(s: State, t: State, k: nat)
    requires SameObjects(s, t) && k in s.conns && ConnOk(s, k)
    ensures ConnOk(t, k)
  {}

  lemma WakeSame(s: State, r: nat)
    ensures SameObjects(s, WakeReader(s, r)) && SameObjects(s, WakeWriter(s, r))
  {
    hide Wake, SameObjects;
    if r in s.reqs {
      WakeOneSame(s, s.reqs[r].owner);
    }
    AllSame(s);
  }

  lemma WakeOneSame(s: State, t: nat)
    ensures SameObjects(s, Wake(s, t))
  {}

  lemma AllSame(s: State)
    ensures SameObjects(s, s)
  {}

  // ----- one object at a time -----

  lemma OneReq(s: State, r: nat)
    requires Inv(s)
    ensures r in s.reqs ==> ReqOk(s, r) && r < s.next && r !in s.log.collected
  {
    assert r >= s.next ==> Unused(s, r);
    hide ReqOk, LogOk;
  }

  lemma OneMsg(s: State, m: nat)
    requires Inv(s)
    ensures m in s.msgs ==> MsgOk(s, m) && m < s.next
  {
    assert m >= s.next ==> Unused(s, m);
    hide MsgOk, LogOk;
  }

  lemma OnePledge(s: State, u: nat)
    requires Inv(s)
    ensures u in s.pledges ==> PledgeOk(s, u) && u < s.next
  {
    assert u >= s.next ==> Unused(s, u);
    hide PledgeOk, LogOk;
  }

  lemma OneQueue(s: State, q: nat)
    requires Inv(s)
    ensures q in s.ports || q in s.conns ==> QueueOk(s, q) && q < s.next
    ensures !(q in s.ports && q in s.conns)
  {
    assert q >= s.next ==> Unused(s, q);
    hide QueueOk, LogOk;
  }

  lemma OnePort(s: State, n: nat)
    requires Inv(s)
    ensures n in s.uport ==> PortOk(s, n)
    ensures n in s.conns ==> ConnOk(s, n)
  {
    hide PortOk, ConnOk, LogOk;
  }

  lemma NewIds(s: State)
    requires Inv(s)
    ensures Unused(s, s.next) && Unused(s, s.next + 1)
  {
    hide Objects, Queues, LogOk, Gone;
  }

  lemma IdsBelow(s: State)
    requires Inv(s)
    ensures s.next !in s.reqs && s.next + 1 !in s.conns && s.next + 1 !in s.ports && s.next + 1 !in s.pledges
      && s.next + 1 !in s.log.handleOf
  {
    hide Objects, Queues, LogOk, Gone;
    assert Unused(s, s.next) && Unused(s, s.next + 1);
  }

  // What is known of the first message of a queue
  predicate Head(s: State, q: nat, m: nat) {
    && m in s.msgs && s.msgs[m].client in s.reqs && MsgOk(s, m) && s.log.place[m] == q
    && (forall x | x in s.msgs && x != m && MsgOk(s, x) :: s.msgs[x].client != s.msgs[m].client)
  }

  // A pop and its message: what the log says more, and that it says no less
  lemma PopLogIs(l: Log, q: nat, m: nat, h: nat)
    ensures var n := PopLog(l, q, m, h);
      && n.handleOf == l.handleOf && n.answered == l.answered && n.sender == l.sender && n.place == l.place
        && n.text == l.text
      && n.sent == l.sent && n.collected == l.collected && n.got == l.got
  {}

  lemma HeadIs(s: State, q: nat, m: nat)
    requires Head(s, q, m)
    ensures m in s.msgs && s.msgs[m].client in s.reqs && s.reqs[s.msgs[m].client].phase == Pending
    ensures q in s.ports ==> s.reqs[s.msgs[m].client].kind == Client
    ensures q in s.conns ==> s.reqs[s.msgs[m].client].kind == Cookie && s.reqs[s.msgs[m].client].data == Msg(m)
  {}

  predicate PopsPort(s: State, q: nat) {
    q in s.ports && s.ports[q] != [] && Head(s, q, s.ports[q][0])
  }

  predicate PopsConn(s: State, k: nat) {
    k in s.conns && s.conns[k].incoming != [] && Head(s, k, s.conns[k].incoming[0])
  }

  predicate Answers(s: State, h: nat, u: nat) {
    h in s.reqs && s.reqs[h].kind == ServerCookie && s.reqs[h].data == Answer(u) && u in s.pledges
  }

  predicate Collects(s: State, c: nat, u: nat) {
    && c in s.reqs && s.reqs[c].kind == Cookie && s.reqs[c].phase == Established && s.reqs[c].data == Answer(u)
    && u in s.pledges && s.pledges[u].response.Some? && u in s.log.handleOf
  }

  // An established client, and the connection it speaks on
  predicate Connects(s: State, r: nat, k: nat) {
    && r in s.reqs && s.reqs[r].kind == Client && s.reqs[r].phase == Established && s.reqs[r].data.Peer?
    && ConnHandle(s, s.reqs[r].data.handle) && k == s.reqs[s.reqs[r].data.handle].data.conn
  }

  lemma PopSplit(sent: seq<nat>, popped: seq<nat>, incoming: seq<nat>)
    requires sent == popped + incoming && Distinct(sent) && incoming != []
    ensures sent == (popped + [incoming[0]]) + incoming[1..]
    ensures forall m | m in incoming[1..] :: m in incoming && m != incoming[0]
  {
    forall m | m in incoming[1..] ensures m != incoming[0] {
      var i :| 0 <= i < |incoming[1..]| && incoming[1..][i] == m;
      assert sent[|popped|] == incoming[0] && sent[|popped| + i + 1] == m;
    }
  }

  lemma HeadOk(s: State, q: nat)
    requires Inv(s) && (q in s.ports || q in s.conns) && Incoming(s, q) != []
    ensures Head(s, q, Incoming(s, q)[0])
  {
    hide Fresh, Gone, ReqOk, PledgeOk;
    assert QueueOk(s, q);
    assert Incoming(s, q)[0] in Incoming(s, q);
  }

  // ----- open_port -----

  lemma OpenPortReq(s: State, n: nat, x: nat)
    requires Inv(s) && n !in s.uport
    requires x in OpenPort(s, n).reqs
    ensures ReqOk(OpenPort(s, n), x)
  {
    hide Inv, Objects, Queues, Fresh, Gone, LogOk, QueueOk;
    NewIds(s);
    OneReq(s, x);
  }

  lemma OpenPortMsg(s: State, n: nat, x: nat)
    requires Inv(s) && n !in s.uport
    requires x in OpenPort(s, n).msgs
    ensures MsgOk(OpenPort(s, n), x)
  {
    hide Inv, Objects, Queues, Fresh, Gone, LogOk, QueueOk, PledgeOk;
    NewIds(s);
    OneMsg(s, x);
    if x in s.msgs { OneReq(s, s.msgs[x].client); }
  }

  lemma OpenPortPledge(s: State, n: nat, x: nat)
    requires Inv(s) && n !in s.uport
    requires x in OpenPort(s, n).pledges
    ensures PledgeOk(OpenPort(s, n), x)
  {
    hide Inv, Objects, Queues, Fresh, Gone, LogOk, QueueOk;
    NewIds(s);
    OnePledge(s, x);
  }

  lemma OpenPortQueue(s: State, n: nat, x: nat)
    requires Inv(s) && n !in s.uport
    requires x in OpenPort(s, n).ports || x in OpenPort(s, n).conns
    ensures QueueOk(OpenPort(s, n), x)
  {
    hide Inv, Objects, Queues, Fresh, Gone, LogOk, ReqOk, PledgeOk;
    NewIds(s);
    OneQueue(s, x);
  }

  lemma OpenPortPort(s: State, n: nat, x: nat)
    requires Inv(s) && n !in s.uport
    requires x in OpenPort(s, n).uport
    ensures PortOk(OpenPort(s, n), x)
  {
    hide Inv, Objects, Queues, Fresh, Gone, LogOk, PledgeOk, QueueOk;
    NewIds(s);
    OnePort(s, x);
    if x in s.uport { OneReq(s, s.uport[x]); }
  }

  lemma OpenPortConn(s: State, n: nat, x: nat)
    requires Inv(s) && n !in s.uport
    requires x in OpenPort(s, n).conns
    ensures ConnOk(OpenPort(s, n), x)
  {
    hide Inv, Objects, Queues, Fresh, Gone, LogOk, ReqOk, PledgeOk, QueueOk;
    NewIds(s);
    OnePort(s, x);
  }

  lemma OpenPortUnused(s: State, n: nat, x: nat)
    requires Inv(s) && n !in s.uport
    requires x >= OpenPort(s, n).next
    ensures Unused(OpenPort(s, n), x)
  {
    hide Objects, Queues, LogOk, Gone, QueueOk, ReqOk, MsgOk, PledgeOk;
    NewIds(s);
    assert Unused(s, x);
  }

  lemma OpenPortFresh(s: State, n: nat)
    requires Inv(s) && n !in s.uport
    ensures Fresh(OpenPort(s, n))
  {
    hide Objects, Queues, LogOk, Gone, QueueOk, ReqOk, MsgOk, PledgeOk, Unused;
    NewIds(s);
    IdsBelow(s);
    var t := OpenPort(s, n);
    forall x: nat | x >= t.next ensures Unused(t, x) { OpenPortUnused(s, n, x); }
  }

  lemma OpenPortLog(s: State, n: nat)
    requires Inv(s) && n !in s.uport
    ensures LogOk(OpenPort(s, n).log) && Gone(OpenPort(s, n))
  {
    hide Objects, Queues, Fresh, QueueOk;
    NewIds(s);
    OldLog(s);
  }

  lemma OpenPortKeeps(s: State, n: nat)
    requires Inv(s) && n !in s.uport
    ensures Inv(OpenPort(s, n))
  {
    hide Inv, ReqOk, MsgOk, PledgeOk, QueueOk, PortOk, ConnOk, Fresh, LogOk, Gone, Distinct, OpenPort;
    var t := OpenPort(s, n);
    forall x | x in t.reqs ensures ReqOk(t, x) { OpenPortReq(s, n, x); }
    forall x | x in t.msgs ensures MsgOk(t, x) { OpenPortMsg(s, n, x); }
    forall x | x in t.pledges ensures PledgeOk(t, x) { OpenPortPledge(s, n, x); }
    forall x | x in t.ports || x in t.conns ensures QueueOk(t, x) { OpenPortQueue(s, n, x); }
    forall x | x in t.uport ensures PortOk(t, x) { OpenPortPort(s, n, x); }
    forall x | x in t.conns ensures ConnOk(t, x) { OpenPortConn(s, n, x); }
    OpenPortFresh(s, n);
    OpenPortLog(s, n);
    Assembled(t);
  }

  // ----- port_connect -----

  lemma ConnectedReq(s: State, q: nat, payload: Option<Payload>, x: nat)
    requires Inv(s) && q in s.ports
    requires x in Connected(s, q, payload).reqs
    ensures ReqOk(Connected(s, q, payload), x)
  {
    hide Inv, Objects, Queues, Fresh, Gone, LogOk, QueueOk;
    NewIds(s);
    OneQueue(s, q);
    OneReq(s, x);
  }

  lemma ConnectedMsg(s: State, q: nat, payload: Option<Payload>, x: nat)
    requires Inv(s) && q in s.ports
    requires x in Connected(s, q, payload).msgs
    ensures MsgOk(Connected(s, q, payload), x)
  {
    hide Inv, Objects, Queues, Fresh, Gone, LogOk, QueueOk, PledgeOk;
    NewIds(s);
    OneQueue(s, q);
    OneMsg(s, x);
    if x in s.msgs { OneReq(s, s.msgs[x].client); }
  }

  lemma ConnectedPledge(s: State, q: nat, payload: Option<Payload>, x: nat)
    requires Inv(s) && q in s.ports
    requires x in Connected(s, q, payload).pledges
    ensures PledgeOk(Connected(s, q, payload), x)
  {
    hide Inv, Objects, Queues, Fresh, Gone, LogOk, QueueOk;
    NewIds(s);
    OneQueue(s, q);
    OnePledge(s, x);
  }

  lemma ConnectedQueue(s: State, q: nat, payload: Option<Payload>, x: nat)
    requires Inv(s) && q in s.ports
    requires x in Connected(s, q, payload).ports || x in Connected(s, q, payload).conns
    ensures QueueOk(Connected(s, q, payload), x)
  {
    hide Inv, Objects, Queues, Fresh, Gone, LogOk, ReqOk, PledgeOk;
    NewIds(s);
    OneQueue(s, q);
    OneQueue(s, x);
  }

  lemma ConnectedPort(s: State, q: nat, payload: Option<Payload>, x: nat)
    requires Inv(s) && q in s.ports
    requires x in Connected(s, q, payload).uport
    ensures PortOk(Connected(s, q, payload), x)
  {
    hide Inv, Objects, Queues, Fresh, Gone, LogOk, PledgeOk, QueueOk;
    NewIds(s);
    OneQueue(s, q);
    OnePort(s, x);
    if x in s.uport { OneReq(s, s.uport[x]); }
  }

  lemma ConnectedConn(s: State, q: nat, payload: Option<Payload>, x: nat)
    requires Inv(s) && q in s.ports
    requires x in Connected(s, q, payload).conns
    ensures ConnOk(Connected(s, q, payload), x)
  {
    hide Inv, Objects, Queues, Fresh, Gone, LogOk, ReqOk, PledgeOk, QueueOk;
    NewIds(s);
    OneQueue(s, q);
    OnePort(s, x);
  }

  lemma ConnectedUnused(s: State, q: nat, payload: Option<Payload>, x: nat)
    requires Inv(s) && q in s.ports
    requires x >= Connected(s, q, payload).next
    ensures Unused(Connected(s, q, payload), x)
  {
    hide Objects, Queues, LogOk, Gone, QueueOk, ReqOk, MsgOk, PledgeOk;
    NewIds(s);
    OneQueue(s, q);
    assert Unused(s, x);
  }

  lemma ConnectedFresh(s: State, q: nat, payload: Option<Payload>)
    requires Inv(s) && q in s.ports
    ensures Fresh(Connected(s, q, payload))
  {
    hide Objects, Queues, LogOk, Gone, QueueOk, ReqOk, MsgOk, PledgeOk, Unused;
    NewIds(s);
    OneQueue(s, q);
    IdsBelow(s);
    var t := Connected(s, q, payload);
    forall x: nat | x >= t.next ensures Unused(t, x) { ConnectedUnused(s, q, payload, x); }
  }

  lemma ConnectedLog(s: State, q: nat, payload: Option<Payload>)
    requires Inv(s) && q in s.ports
    ensures LogOk(Connected(s, q, payload).log) && Gone(Connected(s, q, payload))
  {
    hide Objects, Queues, Fresh, QueueOk;
    NewIds(s);
    OneQueue(s, q);
    OldLog(s);
  }

  lemma ConnectedKeeps(s: State, q: nat, payload: Option<Payload>)
    requires Inv(s) && q in s.ports
    ensures Inv(Connected(s, q, payload))
  {
    hide Inv, ReqOk, MsgOk, PledgeOk, QueueOk, PortOk, ConnOk, Fresh, LogOk, Gone, Distinct, Connected;
    var t := Connected(s, q, payload);
    forall x | x in t.reqs ensures ReqOk(t, x) { ConnectedReq(s, q, payload, x); }
    forall x | x in t.msgs ensures MsgOk(t, x) { ConnectedMsg(s, q, payload, x); }
    forall x | x in t.pledges ensures PledgeOk(t, x) { ConnectedPledge(s, q, payload, x); }
    forall x | x in t.ports || x in t.conns ensures QueueOk(t, x) { ConnectedQueue(s, q, payload, x); }
    forall x | x in t.uport ensures PortOk(t, x) { ConnectedPort(s, q, payload, x); }
    forall x | x in t.conns ensures ConnOk(t, x) { ConnectedConn(s, q, payload, x); }
    ConnectedFresh(s, q, payload);
    ConnectedLog(s, q, payload);
    Assembled(t);
  }

  // ----- pop_request on a port -----

  lemma PortPoppedReq(s: State, q: nat, x: nat)
    requires Inv(s) && PopsPort(s, q)
    requires x in PortPopped(s, q).reqs
    ensures ReqOk(PortPopped(s, q), x)
  {
    hide ReqOk, Inv, Objects, Queues, Fresh, Gone, LogOk, QueueOk, MsgOk, Unused, PopLog, Head;
    HeadIs(s, q, s.ports[q][0]);
    if x == s.next || x == s.msgs[s.ports[q][0]].client {
      PortPoppedPair(s, q);
    } else {
      PortPoppedOther(s, q, x);
    }
  }

  lemma PortPoppedPair(s: State, q: nat)
    requires Inv(s) && PopsPort(s, q)
    ensures ReqOk(PortPopped(s, q), s.next) && ReqOk(PortPopped(s, q), s.msgs[s.ports[q][0]].client)
  {
    hide Inv, Objects, Queues, Fresh, Gone, LogOk, QueueOk, MsgOk, Unused, PopLog;
    HeadIs(s, q, s.ports[q][0]);
    PopLogIs(s.log, q, s.ports[q][0], s.next);
    IdsBelow(s);
  }

  lemma PortPoppedOther(s: State, q: nat, x: nat)
    requires Inv(s) && PopsPort(s, q)
    requires x in s.reqs && x != s.msgs[s.ports[q][0]].client
    ensures ReqOk(PortPopped(s, q), x)
  {
    hide Inv, Objects, Queues, Fresh, Gone, LogOk, QueueOk, MsgOk, Unused, PopLog;
    HeadIs(s, q, s.ports[q][0]);
    PopLogIs(s.log, q, s.ports[q][0], s.next);
    IdsBelow(s);
    OneReq(s, x);
  }

  lemma PortPoppedMsg(s: State, q: nat, x: nat)
    requires Inv(s) && PopsPort(s, q)
    requires x in PortPopped(s, q).msgs
    ensures MsgOk(PortPopped(s, q), x)
  {
    hide Inv, Objects, Queues, Fresh, Gone, LogOk, QueueOk, PledgeOk;
    NewIds(s);
    OneReq(s, s.msgs[s.ports[q][0]].client);
    OneQueue(s, q);
    OneMsg(s, x);
    if x in s.msgs { OneReq(s, s.msgs[x].client); }
  }

  lemma PortPoppedPledge(s: State, q: nat, x: nat)
    requires Inv(s) && PopsPort(s, q)
    requires x in PortPopped(s, q).pledges
    ensures PledgeOk(PortPopped(s, q), x)
  {
    hide Inv, Objects, Queues, Fresh, Gone, LogOk, QueueOk;
    NewIds(s);
    OneReq(s, s.msgs[s.ports[q][0]].client);
    OneQueue(s, q);
    OnePledge(s, x);
  }

  lemma PortPoppedQueue(s: State, q: nat, x: nat)
    requires Inv(s) && PopsPort(s, q)
    requires x in PortPopped(s, q).ports || x in PortPopped(s, q).conns
    ensures QueueOk(PortPopped(s, q), x)
  {
    hide Inv, Objects, Queues, Fresh, Gone, LogOk, ReqOk, PledgeOk;
    NewIds(s);
    OneReq(s, s.msgs[s.ports[q][0]].client);
    OneQueue(s, q);
    OneQueue(s, x);
    if x == q { PopSplit(s.log.sent[q], s.log.popped[q], s.ports[q]); }
  }

  lemma PortPoppedPort(s: State, q: nat, x: nat)
    requires Inv(s) && PopsPort(s, q)
    requires x in PortPopped(s, q).uport
    ensures PortOk(PortPopped(s, q), x)
  {
    hide Inv, Objects, Queues, Fresh, Gone, LogOk, PledgeOk, QueueOk;
    NewIds(s);
    OneReq(s, s.msgs[s.ports[q][0]].client);
    OneQueue(s, q);
    OnePort(s, x);
    if x in s.uport { OneReq(s, s.uport[x]); }
  }

  lemma PortPoppedConn(s: State, q: nat, x: nat)
    requires Inv(s) && PopsPort(s, q)
    requires x in PortPopped(s, q).conns
    ensures ConnOk(PortPopped(s, q), x)
  {
    hide Inv, Objects, Queues, Fresh, Gone, LogOk, ReqOk, PledgeOk, QueueOk;
    NewIds(s);
    OneReq(s, s.msgs[s.ports[q][0]].client);
    OneQueue(s, q);
    OnePort(s, x);
  }

  lemma PortPoppedUnused(s: State, q: nat, x: nat)
    requires Inv(s) && PopsPort(s, q)
    requires x >= PortPopped(s, q).next
    ensures Unused(PortPopped(s, q), x)
  {
    hide Objects, Queues, LogOk, Gone, QueueOk, ReqOk, MsgOk, PledgeOk;
    NewIds(s);
    OneReq(s, s.msgs[s.ports[q][0]].client);
    OneQueue(s, q);
    assert Unused(s, x);
  }

  lemma PortPoppedFresh(s: State, q: nat)
    requires Inv(s) && PopsPort(s, q)
    ensures Fresh(PortPopped(s, q))
  {
    hide Objects, Queues, LogOk, Gone, QueueOk, ReqOk, MsgOk, PledgeOk, Unused;
    NewIds(s);
    OneReq(s, s.msgs[s.ports[q][0]].client);
    OneQueue(s, q);
    IdsBelow(s);
    var t := PortPopped(s, q);
    forall x: nat | x >= t.next ensures Unused(t, x) { PortPoppedUnused(s, q, x); }
  }

  lemma PopLogOk(l: Log, q: nat, m: nat, h: nat)
    requires LogOk(l) && m in l.sender && m !in l.became && h !in l.origin
    ensures LogOk(PopLog(l, q, m, h))
  {}

  // What LogOk looks at
  lemma SameLogOk(l: Log, n: Log)
    requires LogOk(l) && n.collected == l.collected && n.got == l.got && n.answered == l.answered
    requires n.origin == l.origin && n.sender == l.sender && n.became == l.became
    ensures LogOk(n)
  {}

  lemma PortPoppedLog(s: State, q: nat)
    requires Inv(s) && PopsPort(s, q)
    ensures LogOk(PortPopped(s, q).log) && Gone(PortPopped(s, q))
  {
    hide Objects, Queues, Fresh, QueueOk, ReqOk, PledgeOk, LogOk;
    OldLog(s);
    PopLogOk(s.log, q, s.ports[q][0], s.next);
    SameLogOk(PopLog(s.log, q, s.ports[q][0], s.next), ConnLog(s.log, q, s.ports[q][0], s.next, s.next + 1));
  }

  lemma PortPoppedKeeps(s: State, q: nat)
    requires Inv(s) && PopsPort(s, q)
    ensures Inv(PortPopped(s, q))
  {
    hide Inv, ReqOk, MsgOk, PledgeOk, QueueOk, PortOk, ConnOk, Fresh, LogOk, Gone, Distinct, PortPopped;
    var t := PortPopped(s, q);
    forall x | x in t.reqs ensures ReqOk(t, x) { PortPoppedReq(s, q, x); }
    forall x | x in t.msgs ensures MsgOk(t, x) { PortPoppedMsg(s, q, x); }
    forall x | x in t.pledges ensures PledgeOk(t, x) { PortPoppedPledge(s, q, x); }
    forall x | x in t.ports || x in t.conns ensures QueueOk(t, x) { PortPoppedQueue(s, q, x); }
    forall x | x in t.uport ensures PortOk(t, x) { PortPoppedPort(s, q, x); }
    forall x | x in t.conns ensures ConnOk(t, x) { PortPoppedConn(s, q, x); }
    PortPoppedFresh(s, q);
    PortPoppedLog(s, q);
    Assembled(t);
  }

  // ----- pop_request on a connection -----

  lemma ConnPoppedReq(s: State, k: nat, x: nat)
    requires Inv(s) && PopsConn(s, k)
    requires x in ConnPopped(s, k).reqs
    ensures ReqOk(ConnPopped(s, k), x)
  {
    hide Inv, Objects, Queues, Fresh, Gone, LogOk, QueueOk, MsgOk, Unused, PopLog;
    NewIds(s);
    OneReq(s, s.msgs[s.conns[k].incoming[0]].client);
    OneQueue(s, k);
    HeadIs(s, k, s.conns[k].incoming[0]);
    PopLogIs(s.log, k, s.conns[k].incoming[0], s.next);
    IdsBelow(s);
    OneReq(s, x);
  }

  lemma ConnPoppedMsg(s: State, k: nat, x: nat)
    requires Inv(s) && PopsConn(s, k)
    requires x in ConnPopped(s, k).msgs
    ensures MsgOk(ConnPopped(s, k), x)
  {
    hide Inv, Objects, Queues, Fresh, Gone, LogOk, QueueOk, PledgeOk;
    NewIds(s);
    OneReq(s, s.msgs[s.conns[k].incoming[0]].client);
    OneQueue(s, k);
    OneMsg(s, x);
    if x in s.msgs { OneReq(s, s.msgs[x].client); }
  }

  lemma ConnPoppedPledge(s: State, k: nat, x: nat)
    requires Inv(s) && PopsConn(s, k)
    requires x in ConnPopped(s, k).pledges
    ensures PledgeOk(ConnPopped(s, k), x)
  {
    hide Inv, Objects, Queues, Fresh, Gone, LogOk, QueueOk;
    NewIds(s);
    OneReq(s, s.msgs[s.conns[k].incoming[0]].client);
    OneQueue(s, k);
    OnePledge(s, x);
  }

  lemma ConnPoppedQueue(s: State, k: nat, x: nat)
    requires Inv(s) && PopsConn(s, k)
    requires x in ConnPopped(s, k).ports || x in ConnPopped(s, k).conns
    ensures QueueOk(ConnPopped(s, k), x)
  {
    hide Inv, Objects, Queues, Fresh, Gone, LogOk, ReqOk, PledgeOk;
    NewIds(s);
    OneReq(s, s.msgs[s.conns[k].incoming[0]].client);
    OneQueue(s, k);
    OneQueue(s, x);
    if x == k { PopSplit(s.log.sent[k], s.log.popped[k], s.conns[k].incoming); }
  }

  lemma ConnPoppedPort(s: State, k: nat, x: nat)
    requires Inv(s) && PopsConn(s, k)
    requires x in ConnPopped(s, k).uport
    ensures PortOk(ConnPopped(s, k), x)
  {
    hide Inv, Objects, Queues, Fresh, Gone, LogOk, PledgeOk, QueueOk;
    NewIds(s);
    OneReq(s, s.msgs[s.conns[k].incoming[0]].client);
    OneQueue(s, k);
    OnePort(s, x);
    if x in s.uport { OneReq(s, s.uport[x]); }
  }

  lemma ConnPoppedConn(s: State, k: nat, x: nat)
    requires Inv(s) && PopsConn(s, k)
    requires x in ConnPopped(s, k).conns
    ensures ConnOk(ConnPopped(s, k), x)
  {
    hide Inv, Objects, Queues, Fresh, Gone, LogOk, ReqOk, PledgeOk, QueueOk;
    NewIds(s);
    OneReq(s, s.msgs[s.conns[k].incoming[0]].client);
    OneQueue(s, k);
    OnePort(s, x);
  }

  lemma ConnPoppedUnused(s: State, k: nat, x: nat)
    requires Inv(s) && PopsConn(s, k)
    requires x >= ConnPopped(s, k).next
    ensures Unused(ConnPopped(s, k), x)
  {
    hide Objects, Queues, LogOk, Gone, QueueOk, ReqOk, MsgOk, PledgeOk;
    NewIds(s);
    OneReq(s, s.msgs[s.conns[k].incoming[0]].client);
    OneQueue(s, k);
    assert Unused(s, x);
  }

  lemma ConnPoppedFresh(s: State, k: nat)
    requires Inv(s) && PopsConn(s, k)
    ensures Fresh(ConnPopped(s, k))
  {
    hide Objects, Queues, LogOk, Gone, QueueOk, ReqOk, MsgOk, PledgeOk, Unused;
    NewIds(s);
    OneReq(s, s.msgs[s.conns[k].incoming[0]].client);
    OneQueue(s, k);
    IdsBelow(s);
    var t := ConnPopped(s, k);
    forall x: nat | x >= t.next ensures Unused(t, x) { ConnPoppedUnused(s, k, x); }
  }

  lemma ConnPoppedLog(s: State, k: nat)
    requires Inv(s) && PopsConn(s, k)
    ensures LogOk(ConnPopped(s, k).log) && Gone(ConnPopped(s, k))
  {
    hide Objects, Queues, Fresh, QueueOk, ReqOk, PledgeOk, LogOk;
    OldLog(s);
    PopLogOk(s.log, k, s.conns[k].incoming[0], s.next);
    SameLogOk(PopLog(s.log, k, s.conns[k].incoming[0], s.next),
      PledgeLog(s.log, k, s.conns[k].incoming[0], s.next, s.next + 1));
  }

  lemma ConnPoppedKeeps(s: State, k: nat)
    requires Inv(s) && PopsConn(s, k)
    ensures Inv(ConnPopped(s, k))
  {
    hide Inv, ReqOk, MsgOk, PledgeOk, QueueOk, PortOk, ConnOk, Fresh, LogOk, Gone, Distinct, ConnPopped;
    var t := ConnPopped(s, k);
    forall x | x in t.reqs ensures ReqOk(t, x) { ConnPoppedReq(s, k, x); }
    forall x | x in t.msgs ensures MsgOk(t, x) { ConnPoppedMsg(s, k, x); }
    forall x | x in t.pledges ensures PledgeOk(t, x) { ConnPoppedPledge(s, k, x); }
    forall x | x in t.ports || x in t.conns ensures QueueOk(t, x) { ConnPoppedQueue(s, k, x); }
    forall x | x in t.uport ensures PortOk(t, x) { ConnPoppedPort(s, k, x); }
    forall x | x in t.conns ensures ConnOk(t, x) { ConnPoppedConn(s, k, x); }
    ConnPoppedFresh(s, k);
    ConnPoppedLog(s, k);
    Assembled(t);
  }

  // ----- request -----

  lemma AskedReq(s: State, k: nat, payload: Option<Payload>, x: nat)
    requires Inv(s) && k in s.conns
    requires x in Asked(s, k, payload).reqs
    ensures ReqOk(Asked(s, k, payload), x)
  {
    hide Inv, Objects, Queues, Fresh, Gone, LogOk, QueueOk;
    NewIds(s);
    OneQueue(s, k);
    OneReq(s, x);
  }

  lemma AskedMsg(s: State, k: nat, payload: Option<Payload>, x: nat)
    requires Inv(s) && k in s.conns
    requires x in Asked(s, k, payload).msgs
    ensures MsgOk(Asked(s, k, payload), x)
  {
    hide Inv, Objects, Queues, Fresh, Gone, LogOk, QueueOk, PledgeOk;
    NewIds(s);
    OneQueue(s, k);
    OneMsg(s, x);
    if x in s.msgs { OneReq(s, s.msgs[x].client); }
  }

  lemma AskedPledge(s: State, k: nat, payload: Option<Payload>, x: nat)
    requires Inv(s) && k in s.conns
    requires x in Asked(s, k, payload).pledges
    ensures PledgeOk(Asked(s, k, payload), x)
  {
    hide Inv, Objects, Queues, Fresh, Gone, LogOk, QueueOk;
    NewIds(s);
    OneQueue(s, k);
    OnePledge(s, x);
  }

  lemma AskedQueue(s: State, k: nat, payload: Option<Payload>, x: nat)
    requires Inv(s) && k in s.conns
    requires x in Asked(s, k, payload).ports || x in Asked(s, k, payload).conns
    ensures QueueOk(Asked(s, k, payload), x)
  {
    hide Inv, Objects, Queues, Fresh, Gone, LogOk, ReqOk, PledgeOk;
    NewIds(s);
    OneQueue(s, k);
    OneQueue(s, x);
  }

  lemma AskedPort(s: State, k: nat, payload: Option<Payload>, x: nat)
    requires Inv(s) && k in s.conns
    requires x in Asked(s, k, payload).uport
    ensures PortOk(Asked(s, k, payload), x)
  {
    hide Inv, Objects, Queues, Fresh, Gone, LogOk, PledgeOk, QueueOk;
    NewIds(s);
    OneQueue(s, k);
    OnePort(s, x);
    if x in s.uport { OneReq(s, s.uport[x]); }
  }

  lemma AskedConn(s: State, k: nat, payload: Option<Payload>, x: nat)
    requires Inv(s) && k in s.conns
    requires x in Asked(s, k, payload).conns
    ensures ConnOk(Asked(s, k, payload), x)
  {
    hide Inv, Objects, Queues, Fresh, Gone, LogOk, ReqOk, PledgeOk, QueueOk;
    NewIds(s);
    OneQueue(s, k);
    OnePort(s, x);
  }

  lemma AskedUnused(s: State, k: nat, payload: Option<Payload>, x: nat)
    requires Inv(s) && k in s.conns
    requires x >= Asked(s, k, payload).next
    ensures Unused(Asked(s, k, payload), x)
  {
    hide Objects, Queues, LogOk, Gone, QueueOk, ReqOk, MsgOk, PledgeOk;
    NewIds(s);
    OneQueue(s, k);
    assert Unused(s, x);
  }

  lemma AskedFresh(s: State, k: nat, payload: Option<Payload>)
    requires Inv(s) && k in s.conns
    ensures Fresh(Asked(s, k, payload))
  {
    hide Objects, Queues, LogOk, Gone, QueueOk, ReqOk, MsgOk, PledgeOk, Unused;
    NewIds(s);
    OneQueue(s, k);
    IdsBelow(s);
    var t := Asked(s, k, payload);
    forall x: nat | x >= t.next ensures Unused(t, x) { AskedUnused(s, k, payload, x); }
  }

  lemma AskedLog(s: State, k: nat, payload: Option<Payload>)
    requires Inv(s) && k in s.conns
    ensures LogOk(Asked(s, k, payload).log) && Gone(Asked(s, k, payload))
  {
    hide Objects, Queues, Fresh, QueueOk;
    NewIds(s);
    OneQueue(s, k);
    OldLog(s);
  }

  lemma AskedKeeps(s: State, k: nat, payload: Option<Payload>)
    requires Inv(s) && k in s.conns
    ensures Inv(Asked(s, k, payload))
  {
    hide Inv, ReqOk, MsgOk, PledgeOk, QueueOk, PortOk, ConnOk, Fresh, LogOk, Gone, Distinct, Asked;
    var t := Asked(s, k, payload);
    forall x | x in t.reqs ensures ReqOk(t, x) { AskedReq(s, k, payload, x); }
    forall x | x in t.msgs ensures MsgOk(t, x) { AskedMsg(s, k, payload, x); }
    forall x | x in t.pledges ensures PledgeOk(t, x) { AskedPledge(s, k, payload, x); }
    forall x | x in t.ports || x in t.conns ensures QueueOk(t, x) { AskedQueue(s, k, payload, x); }
    forall x | x in t.uport ensures PortOk(t, x) { AskedPort(s, k, payload, x); }
    forall x | x in t.conns ensures ConnOk(t, x) { AskedConn(s, k, payload, x); }
    AskedFresh(s, k, payload);
    AskedLog(s, k, payload);
    Assembled(t);
  }

  // ----- respond -----

  lemma AnsweredReq(s: State, h: nat, u: nat, answer: Payload, x: nat)
    requires Inv(s) && Answers(s, h, u)
    requires x in Answered(s, h, u, answer).reqs
    ensures ReqOk(Answered(s, h, u, answer), x)
  {
    hide Inv, Objects, Queues, Fresh, Gone, LogOk, QueueOk;
    NewIds(s);
    OneReq(s, h);
    OnePledge(s, u);
    OneReq(s, x);
  }

  lemma AnsweredMsg(s: State, h: nat, u: nat, answer: Payload, x: nat)
    requires Inv(s) && Answers(s, h, u)
    requires x in Answered(s, h, u, answer).msgs
    ensures MsgOk(Answered(s, h, u, answer), x)
  {
    hide Inv, Objects, Queues, Fresh, Gone, LogOk, QueueOk, PledgeOk;
    NewIds(s);
    OneReq(s, h);
    OnePledge(s, u);
    OneMsg(s, x);
    if x in s.msgs { OneReq(s, s.msgs[x].client); }
  }

  lemma AnsweredPledge(s: State, h: nat, u: nat, answer: Payload, x: nat)
    requires Inv(s) && Answers(s, h, u)
    requires x in Answered(s, h, u, answer).pledges
    ensures PledgeOk(Answered(s, h, u, answer), x)
  {
    hide Inv, Objects, Queues, Fresh, Gone, LogOk, QueueOk;
    NewIds(s);
    OneReq(s, h);
    OnePledge(s, u);
    OnePledge(s, x);
  }

  lemma AnsweredQueue(s: State, h: nat, u: nat, answer: Payload, x: nat)
    requires Inv(s) && Answers(s, h, u)
    requires x in Answered(s, h, u, answer).ports || x in Answered(s, h, u, answer).conns
    ensures QueueOk(Answered(s, h, u, answer), x)
  {
    hide Inv, Objects, Queues, Fresh, Gone, LogOk, ReqOk, PledgeOk;
    NewIds(s);
    OneReq(s, h);
    OnePledge(s, u);
    OneQueue(s, x);
  }

  lemma AnsweredPort(s: State, h: nat, u: nat, answer: Payload, x: nat)
    requires Inv(s) && Answers(s, h, u)
    requires x in Answered(s, h, u, answer).uport
    ensures PortOk(Answered(s, h, u, answer), x)
  {
    hide Inv, Objects, Queues, Fresh, Gone, LogOk, PledgeOk, QueueOk;
    NewIds(s);
    OneReq(s, h);
    OnePledge(s, u);
    OnePort(s, x);
    if x in s.uport { OneReq(s, s.uport[x]); }
  }

  lemma AnsweredConn(s: State, h: nat, u: nat, answer: Payload, x: nat)
    requires Inv(s) && Answers(s, h, u)
    requires x in Answered(s, h, u, answer).conns
    ensures ConnOk(Answered(s, h, u, answer), x)
  {
    hide Inv, Objects, Queues, Fresh, Gone, LogOk, ReqOk, PledgeOk, QueueOk;
    NewIds(s);
    OneReq(s, h);
    OnePledge(s, u);
    OnePort(s, x);
  }

  lemma AnsweredUnused(s: State, h: nat, u: nat, answer: Payload, x: nat)
    requires Inv(s) && Answers(s, h, u)
    requires x >= Answered(s, h, u, answer).next
    ensures Unused(Answered(s, h, u, answer), x)
  {
    hide Objects, Queues, LogOk, Gone, QueueOk, ReqOk, MsgOk, PledgeOk;
    NewIds(s);
    OneReq(s, h);
    OnePledge(s, u);
    assert Unused(s, x);
  }

  lemma AnsweredFresh(s: State, h: nat, u: nat, answer: Payload)
    requires Inv(s) && Answers(s, h, u)
    ensures Fresh(Answered(s, h, u, answer))
  {
    hide Objects, Queues, LogOk, Gone, QueueOk, ReqOk, MsgOk, PledgeOk, Unused;
    NewIds(s);
    OneReq(s, h);
    OnePledge(s, u);
    IdsBelow(s);
    var t := Answered(s, h, u, answer);
    forall x: nat | x >= t.next ensures Unused(t, x) { AnsweredUnused(s, h, u, answer, x); }
  }

  lemma AnsweredLog(s: State, h: nat, u: nat, answer: Payload)
    requires Inv(s) && Answers(s, h, u)
    ensures LogOk(Answered(s, h, u, answer).log) && Gone(Answered(s, h, u, answer))
  {
    hide Objects, Queues, Fresh, QueueOk;
    NewIds(s);
    OneReq(s, h);
    OnePledge(s, u);
    OldLog(s);
  }

  lemma AnsweredKeeps(s: State, h: nat, u: nat, answer: Payload)
    requires Inv(s) && Answers(s, h, u)
    ensures Inv(Answered(s, h, u, answer))
  {
    hide Inv, ReqOk, MsgOk, PledgeOk, QueueOk, PortOk, ConnOk, Fresh, LogOk, Gone, Distinct, Answered;
    var t := Answered(s, h, u, answer);
    forall x | x in t.reqs ensures ReqOk(t, x) { AnsweredReq(s, h, u, answer, x); }
    forall x | x in t.msgs ensures MsgOk(t, x) { AnsweredMsg(s, h, u, answer, x); }
    forall x | x in t.pledges ensures PledgeOk(t, x) { AnsweredPledge(s, h, u, answer, x); }
    forall x | x in t.ports || x in t.conns ensures QueueOk(t, x) { AnsweredQueue(s, h, u, answer, x); }
    forall x | x in t.uport ensures PortOk(t, x) { AnsweredPort(s, h, u, answer, x); }
    forall x | x in t.conns ensures ConnOk(t, x) { AnsweredConn(s, h, u, answer, x); }
    AnsweredFresh(s, h, u, answer);
    AnsweredLog(s, h, u, answer);
    Assembled(t);
  }

  // ----- get_response -----

  lemma CollectReq(s: State, c: nat, u: nat, x: nat)
    requires Inv(s) && Collects(s, c, u)
    requires x in Collect(s, c, u).reqs
    ensures ReqOk(Collect(s, c, u), x)
  {
    hide Inv, Objects, Queues, Fresh, Gone, LogOk, QueueOk;
    NewIds(s);
    OneReq(s, c);
    OnePledge(s, u);
    OneReq(s, x);
  }

  lemma CollectMsg(s: State, c: nat, u: nat, x: nat)
    requires Inv(s) && Collects(s, c, u)
    requires x in Collect(s, c, u).msgs
    ensures MsgOk(Collect(s, c, u), x)
  {
    hide Inv, Objects, Queues, Fresh, Gone, LogOk, QueueOk, PledgeOk;
    NewIds(s);
    OneReq(s, c);
    OnePledge(s, u);
    OneMsg(s, x);
    if x in s.msgs { OneReq(s, s.msgs[x].client); }
  }

  lemma CollectPledge(s: State, c: nat, u: nat, x: nat)
    requires Inv(s) && Collects(s, c, u)
    requires x in Collect(s, c, u).pledges
    ensures PledgeOk(Collect(s, c, u), x)
  {
    hide Inv, Objects, Queues, Fresh, Gone, LogOk, QueueOk;
    NewIds(s);
    OneReq(s, c);
    OnePledge(s, u);
    OnePledge(s, x);
  }

  lemma CollectQueue(s: State, c: nat, u: nat, x: nat)
    requires Inv(s) && Collects(s, c, u)
    requires x in Collect(s, c, u).ports || x in Collect(s, c, u).conns
    ensures QueueOk(Collect(s, c, u), x)
  {
    hide Inv, Objects, Queues, Fresh, Gone, LogOk, ReqOk, PledgeOk;
    NewIds(s);
    OneReq(s, c);
    OnePledge(s, u);
    OneQueue(s, x);
  }

  lemma CollectPort(s: State, c: nat, u: nat, x: nat)
    requires Inv(s) && Collects(s, c, u)
    requires x in Collect(s, c, u).uport
    ensures PortOk(Collect(s, c, u), x)
  {
    hide Inv, Objects, Queues, Fresh, Gone, LogOk, PledgeOk, QueueOk;
    NewIds(s);
    OneReq(s, c);
    OnePledge(s, u);
    OnePort(s, x);
    if x in s.uport { OneReq(s, s.uport[x]); }
  }

  lemma CollectConn(s: State, c: nat, u: nat, x: nat)
    requires Inv(s) && Collects(s, c, u)
    requires x in Collect(s, c, u).conns
    ensures ConnOk(Collect(s, c, u), x)
  {
    hide Inv, Objects, Queues, Fresh, Gone, LogOk, ReqOk, PledgeOk, QueueOk;
    NewIds(s);
    OneReq(s, c);
    OnePledge(s, u);
    OnePort(s, x);
  }

  lemma CollectUnused(s: State, c: nat, u: nat, x: nat)
    requires Inv(s) && Collects(s, c, u)
    requires x >= Collect(s, c, u).next
    ensures Unused(Collect(s, c, u), x)
  {
    hide Objects, Queues, LogOk, Gone, QueueOk, ReqOk, MsgOk, PledgeOk;
    NewIds(s);
    OneReq(s, c);
    OnePledge(s, u);
    assert Unused(s, x);
  }

  lemma CollectFresh(s: State, c: nat, u: nat)
    requires Inv(s) && Collects(s, c, u)
    ensures Fresh(Collect(s, c, u))
  {
    hide Objects, Queues, LogOk, Gone, QueueOk, ReqOk, MsgOk, PledgeOk, Unused;
    NewIds(s);
    OneReq(s, c);
    OnePledge(s, u);
    IdsBelow(s);
    var t := Collect(s, c, u);
    forall x: nat | x >= t.next ensures Unused(t, x) { CollectUnused(s, c, u, x); }
  }

  lemma CollectLog(s: State, c: nat, u: nat)
    requires Inv(s) && Collects(s, c, u)
    ensures LogOk(Collect(s, c, u).log) && Gone(Collect(s, c, u))
  {
    hide Objects, Queues, Fresh, QueueOk;
    NewIds(s);
    OneReq(s, c);
    OnePledge(s, u);
    OldLog(s);
  }

  lemma CollectKeeps(s: State, c: nat, u: nat)
    requires Inv(s) && Collects(s, c, u)
    ensures Inv(Collect(s, c, u))
  {
    hide Inv, ReqOk, MsgOk, PledgeOk, QueueOk, PortOk, ConnOk, Fresh, LogOk, Gone, Distinct, Collect;
    var t := Collect(s, c, u);
    forall x | x in t.reqs ensures ReqOk(t, x) { CollectReq(s, c, u, x); }
    forall x | x in t.msgs ensures MsgOk(t, x) { CollectMsg(s, c, u, x); }
    forall x | x in t.pledges ensures PledgeOk(t, x) { CollectPledge(s, c, u, x); }
    forall x | x in t.ports || x in t.conns ensures QueueOk(t, x) { CollectQueue(s, c, u, x); }
    forall x | x in t.uport ensures PortOk(t, x) { CollectPort(s, c, u, x); }
    forall x | x in t.conns ensures ConnOk(t, x) { CollectConn(s, c, u, x); }
    CollectFresh(s, c, u);
    CollectLog(s, c, u);
    Assembled(t);
  }

  // ----- dup -----

  lemma DupReq(s: State, r: nat, k: nat, x: nat)
    requires Inv(s) && Connects(s, r, k)
    requires x in Dup(s, r, k).reqs
    ensures ReqOk(Dup(s, r, k), x)
  {
    hide Inv, Objects, Queues, Fresh, Gone, LogOk, QueueOk;
    NewIds(s);
    OneReq(s, r);
    OneQueue(s, k);
    OneReq(s, x);
  }

  lemma DupMsg(s: State, r: nat, k: nat, x: nat)
    requires Inv(s) && Connects(s, r, k)
    requires x in Dup(s, r, k).msgs
    ensures MsgOk(Dup(s, r, k), x)
  {
    hide Inv, Objects, Queues, Fresh, Gone, LogOk, QueueOk, PledgeOk;
    NewIds(s);
    OneReq(s, r);
    OneQueue(s, k);
    OneMsg(s, x);
    if x in s.msgs { OneReq(s, s.msgs[x].client); }
  }

  lemma DupPledge(s: State, r: nat, k: nat, x: nat)
    requires Inv(s) && Connects(s, r, k)
    requires x in Dup(s, r, k).pledges
    ensures PledgeOk(Dup(s, r, k), x)
  {
    hide Inv, Objects, Queues, Fresh, Gone, LogOk, QueueOk;
    NewIds(s);
    OneReq(s, r);
    OneQueue(s, k);
    OnePledge(s, x);
  }

  lemma DupQueue(s: State, r: nat, k: nat, x: nat)
    requires Inv(s) && Connects(s, r, k)
    requires x in Dup(s, r, k).ports || x in Dup(s, r, k).conns
    ensures QueueOk(Dup(s, r, k), x)
  {
    hide Inv, Objects, Queues, Fresh, Gone, LogOk, ReqOk, PledgeOk;
    NewIds(s);
    OneReq(s, r);
    OneQueue(s, k);
    OneQueue(s, x);
  }

  lemma DupPort(s: State, r: nat, k: nat, x: nat)
    requires Inv(s) && Connects(s, r, k)
    requires x in Dup(s, r, k).uport
    ensures PortOk(Dup(s, r, k), x)
  {
    hide Inv, Objects, Queues, Fresh, Gone, LogOk, PledgeOk, QueueOk;
    NewIds(s);
    OneReq(s, r);
    OneQueue(s, k);
    OnePort(s, x);
    if x in s.uport { OneReq(s, s.uport[x]); }
  }

  lemma DupConn(s: State, r: nat, k: nat, x: nat)
    requires Inv(s) && Connects(s, r, k)
    requires x in Dup(s, r, k).conns
    ensures ConnOk(Dup(s, r, k), x)
  {
    hide Inv, Objects, Queues, Fresh, Gone, LogOk, ReqOk, PledgeOk, QueueOk;
    NewIds(s);
    OneReq(s, r);
    OneQueue(s, k);
    OnePort(s, x);
  }

  lemma DupUnused(s: State, r: nat, k: nat, x: nat)
    requires Inv(s) && Connects(s, r, k)
    requires x >= Dup(s, r, k).next
    ensures Unused(Dup(s, r, k), x)
  {
    hide Objects, Queues, LogOk, Gone, QueueOk, ReqOk, MsgOk, PledgeOk;
    NewIds(s);
    OneReq(s, r);
    OneQueue(s, k);
    assert Unused(s, x);
  }

  lemma DupFresh(s: State, r: nat, k: nat)
    requires Inv(s) && Connects(s, r, k)
    ensures Fresh(Dup(s, r, k))
  {
    hide Objects, Queues, LogOk, Gone, QueueOk, ReqOk, MsgOk, PledgeOk, Unused;
    NewIds(s);
    OneReq(s, r);
    OneQueue(s, k);
    IdsBelow(s);
    var t := Dup(s, r, k);
    forall x: nat | x >= t.next ensures Unused(t, x) { DupUnused(s, r, k, x); }
  }

  lemma DupLog(s: State, r: nat, k: nat)
    requires Inv(s) && Connects(s, r, k)
    ensures LogOk(Dup(s, r, k).log) && Gone(Dup(s, r, k))
  {
    hide Objects, Queues, Fresh, QueueOk;
    NewIds(s);
    OneReq(s, r);
    OneQueue(s, k);
    OldLog(s);
  }

  lemma DupKeeps(s: State, r: nat, k: nat)
    requires Inv(s) && Connects(s, r, k)
    ensures Inv(Dup(s, r, k))
  {
    hide Inv, ReqOk, MsgOk, PledgeOk, QueueOk, PortOk, ConnOk, Fresh, LogOk, Gone, Distinct, Dup;
    var t := Dup(s, r, k);
    forall x | x in t.reqs ensures ReqOk(t, x) { DupReq(s, r, k, x); }
    forall x | x in t.msgs ensures MsgOk(t, x) { DupMsg(s, r, k, x); }
    forall x | x in t.pledges ensures PledgeOk(t, x) { DupPledge(s, r, k, x); }
    forall x | x in t.ports || x in t.conns ensures QueueOk(t, x) { DupQueue(s, r, k, x); }
    forall x | x in t.uport ensures PortOk(t, x) { DupPort(s, r, k, x); }
    forall x | x in t.conns ensures ConnOk(t, x) { DupConn(s, r, k, x); }
    DupFresh(s, r, k);
    DupLog(s, r, k);
    Assembled(t);
  }

  // New names are in no part of the log.
  lemma OldLog(s: State)
    requires Inv(s)
    ensures Unused(s, s.next) && Unused(s, s.next + 1)
    ensures forall c | c in s.log.collected :: c !in s.reqs
    ensures forall c | c in s.log.collected :: c < s.next
    ensures forall m | m in s.log.sender :: s.log.sender[m] < s.next
  {
    hide Objects, Queues, LogOk;
    forall c | c in s.log.collected ensures c < s.next {
      assert c >= s.next ==> Unused(s, c);
    }
  }

  lemma Assembled(s: State)
    requires forall x | x in s.reqs :: ReqOk(s, x)
    requires forall m | m in s.msgs :: MsgOk(s, m)
    requires forall u | u in s.pledges :: PledgeOk(s, u)
    requires forall q | q in s.ports || q in s.conns :: QueueOk(s, q)
    requires Fresh(s) && LogOk(s.log) && Gone(s)
    requires forall n | n in s.uport :: PortOk(s, n)
    requires forall k | k in s.conns :: ConnOk(s, k)
    ensures Inv(s)
  {
    hide ReqOk, MsgOk, PledgeOk, QueueOk, LogOk, PortOk, ConnOk, Gone;
  }
}
