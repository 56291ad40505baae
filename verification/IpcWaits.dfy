// wait_on and the run queue: no wakeup is lost, and no task is queued twice.
module IpcWaits {
  import opened IpcState
  import opened IpcInvariant
  import opened IpcRuns

  // A task that sleeps in wait_on: nothing it awaits is available, and every handle it
  // awaits carries the bit that makes the other side wake it.
  predicate Asleep(s: State, t: nat)
    requires t in s.tasks
  {
    && s.tasks[t].inWait
    && (forall r | r in s.tasks[t].rset :: r in s.reqs && s.reqs[r].rd && !Available(s, r, true))
    && (forall r | r in s.tasks[t].wset :: r in s.reqs && s.reqs[r].wr && !Available(s, r, false))
  }

  // The descriptors a task waits on are its own.
  predicate Own(s: State, t: nat)
    requires t in s.tasks
  {
    s.tasks[t].inWait ==>
      && (forall r | r in s.tasks[t].rset :: r in s.reqs && s.reqs[r].owner == t)
      && (forall r | r in s.tasks[t].wset :: r in s.reqs && s.reqs[r].owner == t)
  }

  predicate Sleepers(s: State) {
    forall t | t in s.tasks :: Own(s, t) && (s.tasks[t].status == Waiting ==> Asleep(s, t))
  }

  // The run queue holds exactly the runnable tasks, each once; only the current task runs.
  predicate RunQueue(s: State) {
    && Distinct(s.runq)
    && (forall t | t in s.runq :: t in s.tasks && s.tasks[t].status == Runnable)
    && (forall t | t in s.tasks && s.tasks[t].status == Runnable :: t in s.runq)
    && (forall t | t in s.tasks && s.tasks[t].status == Running :: t == s.current)
    && s.current in s.tasks && s.idle in s.tasks
    && s.tasks[s.idle].status != Waiting && !s.tasks[s.idle].inWait
    && s.tasks[s.current].status != Runnable
  }

  ghost predicate WaitInv(s: State) {
    Sleepers(s) && RunQueue(s)
  }

  // ----- wake_up -----

  predicate Busy(s: State) {
    s.current in s.tasks && s.tasks[s.current].status == Running && !s.tasks[s.current].inWait
  }

  lemma WakeQueue(s: State, t: nat)
    requires RunQueue(s) && Busy(s)
    ensures RunQueue(Wake(s, t))
  {}

  lemma WokenQueue(s: State, r: nat)
    requires RunQueue(s) && Busy(s)
    ensures RunQueue(WakeReader(s, r)) && RunQueue(WakeWriter(s, r))
  {
    hide RunQueue, Wake, Busy;
    if r in s.reqs { WakeQueue(s, s.reqs[r].owner); }
  }

  // A step after which one handle may newly be available, followed by waking its owner
  // through the bit for it
  predicate Quiet(s: State, t: State, x: nat, reading: bool) {
    && t.tasks == s.tasks && t.current == s.current && t.idle == s.idle && t.runq == s.runq
    && (forall r | r in s.reqs && s.reqs[r].owner != s.current :: r in t.reqs && SameWaits(s.reqs[r], t.reqs[r]))
    && (forall r | r in s.reqs && s.reqs[r].owner == s.current && r in t.reqs :: SameWaits(s.reqs[r], t.reqs[r]))
    && (forall r | r in s.reqs && r in t.reqs && Available(t, r, true) && !(reading && r == x) :: Available(s, r, true))
    && (forall r | r in s.reqs && r in t.reqs && Available(t, r, false) && !(!reading && r == x) ::
      Available(s, r, false))
  }

  predicate SameWaits(a: Request, b: Request) {
    a.owner == b.owner && a.rd == b.rd && a.wr == b.wr
  }

  // Waking the reader of x makes up for its becoming available.
  lemma ReaderWoken(s: State, t: State, x: nat)
    requires WaitInv(s) && Busy(s) && Quiet(s, t, x, true)
    ensures WaitInv(WakeReader(t, x))
  {
    hide Available, RunQueue, WakeReader, Own, Asleep, Kept;
    var u := WakeReader(t, x);
    QuietQueue(s, t, x, true);
    WokenQueue(t, x);
    ReaderFrame(t, x);
    AvailableSame(t, u);
    forall k | k in u.tasks ensures Own(u, k) && (u.tasks[k].status == Waiting ==> Asleep(u, k)) {
      assert Kept(t.tasks[k], u.tasks[k]);
      StillAsleep(s, t, u, x, true, k);
    }
  }

  lemma WriterWoken(s: State, t: State, x: nat)
    requires WaitInv(s) && Busy(s) && Quiet(s, t, x, false)
    ensures WaitInv(WakeWriter(t, x))
  {
    hide Available, RunQueue, WakeWriter, Own, Asleep, Kept;
    var u := WakeWriter(t, x);
    QuietQueue(s, t, x, false);
    WokenQueue(t, x);
    WriterFrame(t, x);
    AvailableSame(t, u);
    forall k | k in u.tasks ensures Own(u, k) && (u.tasks[k].status == Waiting ==> Asleep(u, k)) {
      assert Kept(t.tasks[k], u.tasks[k]);
      StillAsleep(s, t, u, x, false, k);
    }
  }

  lemma QuietQueue(s: State, t: State, x: nat, reading: bool)
    requires RunQueue(s) && Busy(s) && Quiet(s, t, x, reading)
    ensures RunQueue(t) && Busy(t)
  {
    hide Available, SameWaits;
  }

  // Waking changes the status of at most one task, from Waiting, and nothing else there.
  lemma WakeFrame(t: State, o: nat)
    ensures Wake(t, o).tasks.Keys == t.tasks.Keys && Wake(t, o).reqs == t.reqs
    ensures forall k | k in t.tasks :: Kept(t.tasks[k], Wake(t, o).tasks[k])
    ensures o in t.tasks ==> Wake(t, o).tasks[o].status != Waiting
  {}

  lemma ReaderFrame(t: State, x: nat)
    ensures WakeReader(t, x).tasks.Keys == t.tasks.Keys && WakeReader(t, x).reqs == t.reqs
    ensures forall k | k in t.tasks :: Kept(t.tasks[k], WakeReader(t, x).tasks[k])
    ensures x in t.reqs && t.reqs[x].rd && t.reqs[x].owner in t.tasks ==>
      WakeReader(t, x).tasks[t.reqs[x].owner].status != Waiting
    ensures SameObjects(t, WakeReader(t, x))
  {
    hide Wake, SameObjects;
    WakeSame(t, x);
    if x in t.reqs { WakeFrame(t, t.reqs[x].owner); }
    assert forall k | k in t.tasks :: Kept(t.tasks[k], t.tasks[k]);
  }

  lemma WriterFrame(t: State, x: nat)
    ensures WakeWriter(t, x).tasks.Keys == t.tasks.Keys && WakeWriter(t, x).reqs == t.reqs
    ensures forall k | k in t.tasks :: Kept(t.tasks[k], WakeWriter(t, x).tasks[k])
    ensures x in t.reqs && t.reqs[x].wr && t.reqs[x].owner in t.tasks ==>
      WakeWriter(t, x).tasks[t.reqs[x].owner].status != Waiting
    ensures SameObjects(t, WakeWriter(t, x))
  {
    hide Wake, SameObjects;
    WakeSame(t, x);
    if x in t.reqs { WakeFrame(t, t.reqs[x].owner); }
    assert forall k | k in t.tasks :: Kept(t.tasks[k], t.tasks[k]);
  }

  // A wakeup leaves a task as it is, or makes a waiting task runnable.
  predicate MayWake(a: Task, b: Task) {
    b == a || (a.status == Waiting && b == a.(status := Runnable))
  }

  lemma OnlyWakes(t: State, x: nat)
    ensures WakeReader(t, x).tasks.Keys == t.tasks.Keys && WakeWriter(t, x).tasks.Keys == t.tasks.Keys
    ensures forall k | k in t.tasks ::
      MayWake(t.tasks[k], WakeReader(t, x).tasks[k]) && MayWake(t.tasks[k], WakeWriter(t, x).tasks[k])
  {}

  predicate Kept(a: Task, b: Task) {
    b.inWait == a.inWait && b.rset == a.rset && b.wset == a.wset && (b.status == Waiting ==> a.status == Waiting)
  }

  lemma AvailableSame(t: State, u: State)
    requires SameObjects(t, u)
    ensures forall r, b | r in t.reqs :: Available(u, r, b) == Available(t, r, b)
  {
    hide Available;
    forall r, b | r in t.reqs ensures Available(u, r, b) == Available(t, r, b) {
      AvailableHere(t, u, r, b);
    }
  }

  lemma AvailableHere(t: State, u: State, r: nat, b: bool)
    requires SameObjects(t, u) && r in t.reqs
    ensures Available(u, r, b) == Available(t, r, b)
  {
    assert SameReq(t.reqs[r], u.reqs[r]);
  }

  // A task that still waits after the wakeup waits for nothing that has become available.
  lemma StillAsleep(s: State, t: State, u: State, x: nat, reading: bool, k: nat)
    requires k in s.tasks && Own(s, k) && (s.tasks[k].status == Waiting ==> Asleep(s, k)) && Busy(s)
      && Quiet(s, t, x, reading)
    requires u.reqs == t.reqs && (forall r, b | r in t.reqs :: Available(u, r, b) == Available(t, r, b))
    requires k in u.tasks && Kept(t.tasks[k], u.tasks[k])
    requires u.tasks[k].status == Waiting && reading && x in t.reqs && t.reqs[x].rd ==> t.reqs[x].owner != k
    requires u.tasks[k].status == Waiting && !reading && x in t.reqs && t.reqs[x].wr ==> t.reqs[x].owner != k
    ensures Own(u, k) && (u.tasks[k].status == Waiting ==> Asleep(u, k))
  {
    hide Available, RunQueue;
  }

  // ----- what each call can make available -----

  lemma OpenPortQuiet(s: State, n: nat)
    requires Inv(s) && n !in s.uport
    ensures Quiet(s, OpenPort(s, n), s.next, true)
  {
    hide Inv, Available, ReqOk, PledgeOk, MsgOk;
    NewIds(s);
    var t := OpenPort(s, n);
    forall r | r in s.reqs ensures s.reqs[r].owner != s.current ==> r in t.reqs
      ensures r in t.reqs ==> SameWaits(s.reqs[r], t.reqs[r])
      ensures r in t.reqs && Available(t, r, true) && !(true && r == s.next) ==> Available(s, r, true)
      ensures r in t.reqs && Available(t, r, false) && !(!true && r == s.next) ==> Available(s, r, false)
    {
      OneReq(s, r);
      OpenPortAvailable(s, n, r);
    }
  }

  lemma OpenPortAvailable(s: State, n: nat, r: nat)
    requires n !in s.uport && r in s.reqs && ReqOk(s, r) && Unused(s, s.next) && Unused(s, s.next + 1)
    ensures var t := OpenPort(s, n);
      && (s.reqs[r].owner != s.current ==> r in t.reqs)
      && (r in t.reqs ==> SameWaits(s.reqs[r], t.reqs[r]))
      && (r in t.reqs && Available(t, r, true) && !(true && r == s.next) ==> Available(s, r, true))
      && (r in t.reqs && Available(t, r, false) && !(!true && r == s.next) ==> Available(s, r, false))
  {
    hide PledgeOk;
  }

  lemma ConnectedQuiet(s: State, p: nat, q: nat, payload: Option<Payload>)
    requires Inv(s) && q in s.ports && q in s.log.handleOf && s.log.handleOf[q] == p
    ensures Quiet(s, Connected(s, q, payload), p, true)
  {
    hide Inv, Available, ReqOk, PledgeOk, MsgOk;
    NewIds(s);
    var t := Connected(s, q, payload);
    forall r | r in s.reqs ensures s.reqs[r].owner != s.current ==> r in t.reqs
      ensures r in t.reqs ==> SameWaits(s.reqs[r], t.reqs[r])
      ensures r in t.reqs && Available(t, r, true) && !(true && r == p) ==> Available(s, r, true)
      ensures r in t.reqs && Available(t, r, false) && !(!true && r == p) ==> Available(s, r, false)
    {
      OneReq(s, r);
      ConnectedAvailable(s, p, q, payload, r);
    }
  }

  lemma ConnectedAvailable(s: State, p: nat, q: nat, payload: Option<Payload>, r: nat)
    requires q in s.ports && q in s.log.handleOf && s.log.handleOf[q] == p
    requires r in s.reqs && ReqOk(s, r) && Unused(s, s.next) && Unused(s, s.next + 1)
    ensures var t := Connected(s, q, payload);
      && (s.reqs[r].owner != s.current ==> r in t.reqs)
      && (r in t.reqs ==> SameWaits(s.reqs[r], t.reqs[r]))
      && (r in t.reqs && Available(t, r, true) && !(true && r == p) ==> Available(s, r, true))
      && (r in t.reqs && Available(t, r, false) && !(!true && r == p) ==> Available(s, r, false))
  {
    hide PledgeOk;
  }

  lemma PortPoppedQuiet(s: State, q: nat, c: nat)
    requires Inv(s) && PopsPort(s, q) && c == s.msgs[s.ports[q][0]].client
    ensures Quiet(s, PortPopped(s, q), c, false)
  {
    hide Inv, Available, ReqOk, PledgeOk, MsgOk;
    NewIds(s);
    HeadIs(s, q, s.ports[q][0]);
    var t := PortPopped(s, q);
    forall r | r in s.reqs ensures s.reqs[r].owner != s.current ==> r in t.reqs
      ensures r in t.reqs ==> SameWaits(s.reqs[r], t.reqs[r])
      ensures r in t.reqs && Available(t, r, true) && !(false && r == c) ==> Available(s, r, true)
      ensures r in t.reqs && Available(t, r, false) && !(!false && r == c) ==> Available(s, r, false)
    {
      OneReq(s, r);
      PortPoppedAvailable(s, q, c, r);
    }
  }

  lemma PortPoppedAvailable(s: State, q: nat, c: nat, r: nat)
    requires PopsPort(s, q) && c == s.msgs[s.ports[q][0]].client
    requires r in s.reqs && ReqOk(s, r) && Unused(s, s.next) && Unused(s, s.next + 1)
    requires s.reqs[c].kind == Client
    ensures var t := PortPopped(s, q);
      && (s.reqs[r].owner != s.current ==> r in t.reqs)
      && (r in t.reqs ==> SameWaits(s.reqs[r], t.reqs[r]))
      && (r in t.reqs && Available(t, r, true) && !(false && r == c) ==> Available(s, r, true))
      && (r in t.reqs && Available(t, r, false) && !(!false && r == c) ==> Available(s, r, false))
  {
    hide PledgeOk;
  }

  lemma ConnPoppedQuiet(s: State, k: nat, c: nat)
    requires Inv(s) && PopsConn(s, k) && c == s.msgs[s.conns[k].incoming[0]].client
    ensures Quiet(s, ConnPopped(s, k), c, false)
  {
    hide Inv, Available, ReqOk, PledgeOk, MsgOk;
    NewIds(s);
    OneQueue(s, k);
    HeadIs(s, k, s.conns[k].incoming[0]);
    var t := ConnPopped(s, k);
    forall r | r in s.reqs ensures s.reqs[r].owner != s.current ==> r in t.reqs
      ensures r in t.reqs ==> SameWaits(s.reqs[r], t.reqs[r])
      ensures r in t.reqs && Available(t, r, true) && !(false && r == c) ==> Available(s, r, true)
      ensures r in t.reqs && Available(t, r, false) && !(!false && r == c) ==> Available(s, r, false)
    {
      OneReq(s, r);
      ConnPoppedAvailable(s, k, c, r);
    }
  }

  lemma ConnPoppedAvailable(s: State, k: nat, c: nat, r: nat)
    requires PopsConn(s, k) && c == s.msgs[s.conns[k].incoming[0]].client
    requires r in s.reqs && ReqOk(s, r) && Unused(s, s.next) && Unused(s, s.next + 1)
    requires c in s.reqs && s.reqs[c].kind == Cookie
    ensures var t := ConnPopped(s, k);
      && (s.reqs[r].owner != s.current ==> r in t.reqs)
      && (r in t.reqs ==> SameWaits(s.reqs[r], t.reqs[r]))
      && (r in t.reqs && Available(t, r, true) && !(false && r == c) ==> Available(s, r, true))
      && (r in t.reqs && Available(t, r, false) && !(!false && r == c) ==> Available(s, r, false))
  {
    hide PledgeOk;
  }

  lemma AskedQuiet(s: State, p: nat, k: nat, payload: Option<Payload>)
    requires Inv(s) && k in s.conns && k in s.log.handleOf && s.log.handleOf[k] == p
    ensures Quiet(s, Asked(s, k, payload), p, true)
  {
    hide Inv, Available, ReqOk, PledgeOk, MsgOk;
    NewIds(s);
    var t := Asked(s, k, payload);
    forall r | r in s.reqs ensures s.reqs[r].owner != s.current ==> r in t.reqs
      ensures r in t.reqs ==> SameWaits(s.reqs[r], t.reqs[r])
      ensures r in t.reqs && Available(t, r, true) && !(true && r == p) ==> Available(s, r, true)
      ensures r in t.reqs && Available(t, r, false) && !(!true && r == p) ==> Available(s, r, false)
    {
      OneReq(s, r);
      AskedAvailable(s, p, k, payload, r);
    }
  }

  lemma AskedAvailable(s: State, p: nat, k: nat, payload: Option<Payload>, r: nat)
    requires k in s.conns && k in s.log.handleOf && s.log.handleOf[k] == p
    requires r in s.reqs && ReqOk(s, r) && Unused(s, s.next) && Unused(s, s.next + 1)
    ensures var t := Asked(s, k, payload);
      && (s.reqs[r].owner != s.current ==> r in t.reqs)
      && (r in t.reqs ==> SameWaits(s.reqs[r], t.reqs[r]))
      && (r in t.reqs && Available(t, r, true) && !(true && r == p) ==> Available(s, r, true))
      && (r in t.reqs && Available(t, r, false) && !(!true && r == p) ==> Available(s, r, false))
  {
    hide PledgeOk;
  }

  lemma AnsweredQuiet(s: State, h: nat, u: nat, answer: Payload)
    requires Inv(s) && Answers(s, h, u) && s.reqs[h].owner == s.current
    ensures Quiet(s, Answered(s, h, u, answer), s.pledges[u].client, true)
  {
    hide Inv, Available, ReqOk, PledgeOk, MsgOk;
    NewIds(s);
    var t := Answered(s, h, u, answer);
    forall r | r in s.reqs ensures s.reqs[r].owner != s.current ==> r in t.reqs
      ensures r in t.reqs ==> SameWaits(s.reqs[r], t.reqs[r])
      ensures r in t.reqs && Available(t, r, true) && !(true && r == s.pledges[u].client) ==> Available(s, r, true)
      ensures r in t.reqs && Available(t, r, false) && !(!true && r == s.pledges[u].client) ==> Available(s, r, false)
    {
      OneReq(s, r);
      AnsweredAvailable(s, h, u, answer, r);
    }
  }

  lemma AnsweredAvailable(s: State, h: nat, u: nat, answer: Payload, r: nat)
    requires Answers(s, h, u) && s.reqs[h].owner == s.current
    requires r in s.reqs && ReqOk(s, r) && Unused(s, s.next) && Unused(s, s.next + 1)
    ensures var t := Answered(s, h, u, answer);
      && (s.reqs[r].owner != s.current ==> r in t.reqs)
      && (r in t.reqs ==> SameWaits(s.reqs[r], t.reqs[r]))
      && (r in t.reqs && Available(t, r, true) && !(true && r == s.pledges[u].client) ==> Available(s, r, true))
      && (r in t.reqs && Available(t, r, false) && !(!true && r == s.pledges[u].client) ==> Available(s, r, false))
  {
    hide MsgOk;
  }

  lemma CollectQuiet(s: State, c: nat, u: nat)
    requires Inv(s) && Collects(s, c, u) && s.reqs[c].owner == s.current
    ensures Quiet(s, Collect(s, c, u), s.next, true)
  {
    hide Inv, Available, ReqOk, PledgeOk, MsgOk;
    NewIds(s);
    var t := Collect(s, c, u);
    forall r | r in s.reqs ensures s.reqs[r].owner != s.current ==> r in t.reqs
      ensures r in t.reqs ==> SameWaits(s.reqs[r], t.reqs[r])
      ensures r in t.reqs && Available(t, r, true) && !(true && r == s.next) ==> Available(s, r, true)
      ensures r in t.reqs && Available(t, r, false) && !(!true && r == s.next) ==> Available(s, r, false)
    {
      OneReq(s, r);
      CollectAvailable(s, c, u, r);
    }
  }

  lemma CollectAvailable(s: State, c: nat, u: nat, r: nat)
    requires Collects(s, c, u) && s.reqs[c].owner == s.current
    requires r in s.reqs && ReqOk(s, r) && Unused(s, s.next) && Unused(s, s.next + 1)
    ensures var t := Collect(s, c, u);
      && (s.reqs[r].owner != s.current ==> r in t.reqs)
      && (r in t.reqs ==> SameWaits(s.reqs[r], t.reqs[r]))
      && (r in t.reqs && Available(t, r, true) && !(true && r == s.next) ==> Available(s, r, true))
      && (r in t.reqs && Available(t, r, false) && !(!true && r == s.next) ==> Available(s, r, false))
  {
    hide MsgOk;
  }

  lemma DupQuiet(s: State, r0: nat, k: nat)
    requires Inv(s) && Connects(s, r0, k)
    ensures Quiet(s, Dup(s, r0, k), s.next, true)
  {
    hide Inv, Available, ReqOk, PledgeOk, MsgOk;
    NewIds(s);
    var t := Dup(s, r0, k);
    forall r | r in s.reqs ensures s.reqs[r].owner != s.current ==> r in t.reqs
      ensures r in t.reqs ==> SameWaits(s.reqs[r], t.reqs[r])
      ensures r in t.reqs && Available(t, r, true) && !(true && r == s.next) ==> Available(s, r, true)
      ensures r in t.reqs && Available(t, r, false) && !(!true && r == s.next) ==> Available(s, r, false)
    {
      OneReq(s, r);
      DupAvailable(s, r0, k, r);
    }
  }

  lemma DupAvailable(s: State, r0: nat, k: nat, r: nat)
    requires Connects(s, r0, k) && r in s.reqs && ReqOk(s, r) && Unused(s, s.next) && Unused(s, s.next + 1)
    ensures var t := Dup(s, r0, k);
      && (s.reqs[r].owner != s.current ==> r in t.reqs)
      && (r in t.reqs ==> SameWaits(s.reqs[r], t.reqs[r]))
      && (r in t.reqs && Available(t, r, true) && !(true && r == s.next) ==> Available(s, r, true))
      && (r in t.reqs && Available(t, r, false) && !(!true && r == s.next) ==> Available(s, r, false))
  {
    hide PledgeOk;
  }
}
