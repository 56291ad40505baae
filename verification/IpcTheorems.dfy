// What holds in every state that a run of system calls and task switches can reach.
module IpcTheorems {
  import opened IpcState
  import opened IpcInvariant
  import opened IpcRuns
  import opened IpcWaits

  datatype Step =
    | CallOpenPort(port: nat)
    | CallConnect(port: nat, payload: Option<Payload>)
    | CallPop(fd: nat)
    | CallRequest(fd: nat, payload: Option<Payload>)
    | CallRespond(fd: nat, answer: Payload)
    | CallGetResponse(fd: nat)
    | CallDup(fd: nat)
    | CallWaitOn(rset: set<nat>, wset: set<nat>)     // up to the first check
    | Recheck                                        // in wait_on, when schedule() has returned
    | Switch                                         // schedule(), called or on a timer interrupt

  predicate Legal(s: State, step: Step) {
    match step
    case Switch => true
    case Recheck => s.current in s.tasks && s.tasks[s.current].status == Running && s.tasks[s.current].inWait
    case CallWaitOn(rset, wset) => IpcWaits.Busy(s) && s.current != s.idle && AllMine(s, rset) && AllMine(s, wset)
    case CallRequest(fd, _) => IpcWaits.Busy(s) && !Unconnected(s, fd)
    case _ => IpcWaits.Busy(s)
  }

  predicate AllMine(s: State, fds: set<nat>) {
    forall r | r in fds :: Mine(s, r)
  }

  ghost predicate Safe(s: State) {
    Inv(s) && WaitInv(s)
  }

  lemma MineKeys(s: State, fds: set<nat>)
    requires AllMine(s, fds)
    ensures fds <= s.reqs.Keys
  {}

  // A task that is still in wait_on still has the descriptors it waits for.
  lemma SetsOpen(s: State)
    requires WaitInv(s) && s.current in s.tasks && s.tasks[s.current].inWait
    ensures AllMine(s, s.tasks[s.current].rset) && AllMine(s, s.tasks[s.current].wset)
    ensures s.tasks[s.current].rset <= s.reqs.Keys && s.tasks[s.current].wset <= s.reqs.Keys
    ensures s.current != s.idle
  {
    assert Own(s, s.current);
  }

  function Do(s: State, step: Step): State
    requires Safe(s) && Legal(s, step)
  {
    match step
    case CallOpenPort(n) => DoOpenPort(s, n).st
    case CallConnect(n, payload) => DoConnect(s, n, payload).st
    case CallPop(fd) => DoPop(s, fd).st
    case CallRequest(fd, payload) => DoRequest(s, fd, payload).st
    case CallRespond(fd, answer) => DoRespond(s, fd, answer).st
    case CallGetResponse(fd) => DoGetResponse(s, fd).st
    case CallDup(fd) => DoDup(s, fd).st
    case CallWaitOn(rset, wset) => MineKeys(s, rset); MineKeys(s, wset); Check(s, rset, wset)
    case Recheck => SetsOpen(s); Check(s, s.tasks[s.current].rset, s.tasks[s.current].wset)
    case Switch => Schedule(s)
  }

  // ----- every step keeps the invariant of the waiting tasks -----

  lemma UnwokenReader(t: State, x: nat)
    requires x in t.reqs ==> !t.reqs[x].rd
    ensures WakeReader(t, x) == t
  {}

  lemma OpenPortWaits(s: State, n: nat)
    requires Safe(s) && IpcWaits.Busy(s)
    ensures WaitInv(DoOpenPort(s, n).st)
  {
    hide Inv, WaitInv, Quiet, IpcWaits.Busy, WakeReader;
    if n !in s.uport {
      OpenPortQuiet(s, n);
      ReaderWoken(s, OpenPort(s, n), s.next);
      UnwokenReader(OpenPort(s, n), s.next);
    }
  }

  lemma ConnectWaits(s: State, n: nat, payload: Option<Payload>)
    requires Safe(s) && IpcWaits.Busy(s)
    ensures WaitInv(DoConnect(s, n, payload).st)
  {
    hide Inv, WaitInv, Quiet, IpcWaits.Busy, WakeReader, Connected;
    if n in s.uport {
      OnePort(s, n);
      OneReq(s, s.uport[n]);
      var q := s.reqs[s.uport[n]].data.queue;
      ConnectedQuiet(s, s.uport[n], q, payload);
      ReaderWoken(s, Connected(s, q, payload), s.uport[n]);
    }
  }

  lemma PopWaits(s: State, fd: nat)
    requires Safe(s) && IpcWaits.Busy(s)
    ensures WaitInv(DoPop(s, fd).st)
  {
    hide Inv, WaitInv, Quiet, IpcWaits.Busy, WakeWriter, PortPopped, ConnPopped, MsgOk;
    if Mine(s, fd) {
      OneReq(s, fd);
      if s.reqs[fd].kind == Port && s.ports[s.reqs[fd].data.queue] != [] {
        var q := s.reqs[fd].data.queue;
        HeadOk(s, q);
        HeadIs(s, q, s.ports[q][0]);
        var c := s.msgs[s.ports[q][0]].client;
        PortPoppedQuiet(s, q, c);
        WriterWoken(s, PortPopped(s, q), c);
      }
      if s.reqs[fd].kind == ServerConn && s.conns[s.reqs[fd].data.conn].incoming != [] {
        var k := s.reqs[fd].data.conn;
        OneQueue(s, k);
        HeadOk(s, k);
        HeadIs(s, k, s.conns[k].incoming[0]);
        var c := s.msgs[s.conns[k].incoming[0]].client;
        ConnPoppedQuiet(s, k, c);
        WriterWoken(s, ConnPopped(s, k), c);
      }
    }
  }

  lemma RequestWaits(s: State, fd: nat, payload: Option<Payload>)
    requires Safe(s) && IpcWaits.Busy(s) && !Unconnected(s, fd)
    ensures WaitInv(DoRequest(s, fd, payload).st)
  {
    hide Inv, WaitInv, Quiet, IpcWaits.Busy, WakeReader, Asked;
    if Mine(s, fd) && s.reqs[fd].kind == Client {
      OneReq(s, fd);
      var p := s.reqs[fd].data.handle;
      OneReq(s, p);
      AskedQuiet(s, p, s.reqs[p].data.conn, payload);
      ReaderWoken(s, Asked(s, s.reqs[p].data.conn, payload), p);
    }
  }

  lemma RespondWaits(s: State, fd: nat, answer: Payload)
    requires Safe(s) && IpcWaits.Busy(s)
    ensures WaitInv(DoRespond(s, fd, answer).st)
  {
    hide Inv, WaitInv, Quiet, IpcWaits.Busy, WakeReader, Answered;
    if Mine(s, fd) && s.reqs[fd].kind == ServerCookie {
      OneReq(s, fd);
      var u := s.reqs[fd].data.cookie;
      AnsweredQuiet(s, fd, u, answer);
      ReaderWoken(s, Answered(s, fd, u, answer), s.pledges[u].client);
    }
  }

  lemma GetResponseWaits(s: State, fd: nat)
    requires Safe(s) && IpcWaits.Busy(s)
    ensures WaitInv(DoGetResponse(s, fd).st)
  {
    hide Inv, WaitInv, Quiet, IpcWaits.Busy, WakeReader;
    if Mine(s, fd) && s.reqs[fd].kind == Cookie && s.reqs[fd].phase != Pending {
      OneReq(s, fd);
      var u := s.reqs[fd].data.cookie;
      OnePledge(s, u);
      if s.pledges[u].response != None {
        CollectQuiet(s, fd, u);
        NewIds(s);
        ReaderWoken(s, Collect(s, fd, u), s.next);
        UnwokenReader(Collect(s, fd, u), s.next);
      }
    }
  }

  lemma DupWaits(s: State, fd: nat)
    requires Safe(s) && IpcWaits.Busy(s)
    ensures WaitInv(DoDup(s, fd).st)
  {
    hide Inv, WaitInv, Quiet, IpcWaits.Busy, WakeReader;
    if Mine(s, fd) && s.reqs[fd].kind == Client && s.reqs[fd].phase == Established {
      OneReq(s, fd);
      var k := s.reqs[s.reqs[fd].data.handle].data.conn;
      DupQuiet(s, fd, k);
      ReaderWoken(s, Dup(s, fd, k), s.next);
      UnwokenReader(Dup(s, fd, k), s.next);
    }
  }

  // Going to sleep and returning from wait_on
  lemma CheckWaits(s: State, rset: set<nat>, wset: set<nat>)
    requires WaitInv(s) && AllMine(s, rset) && AllMine(s, wset) && rset <= s.reqs.Keys && wset <= s.reqs.Keys
    requires s.current in s.tasks && s.tasks[s.current].status == Running && s.current != s.idle
    ensures WaitInv(Check(s, rset, wset))
  {
    hide Available, RunQueue, AnyReady;
    var t := Check(s, rset, wset);
    CheckQueue(s, rset, wset);
    CheckAvailable(s, rset, wset);
    forall k | k in t.tasks ensures Own(t, k) && (t.tasks[k].status == Waiting ==> Asleep(t, k)) {
      if k != s.current {
        assert Own(s, k) && (s.tasks[k].status == Waiting ==> Asleep(s, k));
        CheckOther(s, rset, wset, k);
      } else {
        NothingReady(s, rset, wset);
      }
    }
  }

  lemma CheckQueue(s: State, rset: set<nat>, wset: set<nat>)
    requires RunQueue(s) && rset <= s.reqs.Keys && wset <= s.reqs.Keys
    requires s.tasks[s.current].status == Running && s.current != s.idle
    ensures RunQueue(Check(s, rset, wset))
  {
    hide AnyReady;
  }

  lemma CheckAvailable(s: State, rset: set<nat>, wset: set<nat>)
    requires rset <= s.reqs.Keys && wset <= s.reqs.Keys
    ensures Check(s, rset, wset).reqs.Keys == s.reqs.Keys
    ensures forall r, b | r in s.reqs :: Available(Check(s, rset, wset), r, b) == Available(s, r, b)
  {
    hide AnyReady, SameObjects, Check;
    CheckSame(s, rset, wset);
    AvailableSame(s, Check(s, rset, wset));
    SameKeys(s, Check(s, rset, wset));
  }

  lemma SameKeys(s: State, t: State)
    requires SameObjects(s, t)
    ensures t.reqs.Keys == s.reqs.Keys
  {}

  lemma NothingReady(s: State, rset: set<nat>, wset: set<nat>)
    requires rset <= s.reqs.Keys && wset <= s.reqs.Keys
    ensures !AnyReady(s, rset, wset) ==>
      (forall r | r in rset :: !Available(s, r, true)) && (forall r | r in wset :: !Available(s, r, false))
  {}

  lemma CheckOther(s: State, rset: set<nat>, wset: set<nat>, k: nat)
    requires AllMine(s, rset) && AllMine(s, wset) && rset <= s.reqs.Keys && wset <= s.reqs.Keys
    requires k in s.tasks && k != s.current && Own(s, k) && (s.tasks[k].status == Waiting ==> Asleep(s, k))
    ensures Own(Check(s, rset, wset), k)
    ensures Check(s, rset, wset).tasks[k] == s.tasks[k]
    ensures s.tasks[k].status == Waiting ==> Asleep(Check(s, rset, wset), k)
  {
    hide Available, AnyReady;
    CheckAvailable(s, rset, wset);
  }

  lemma ScheduleWaits(s: State)
    requires WaitInv(s)
    ensures WaitInv(Schedule(s))
  {
    hide Available, Own, Asleep;
    var a := Preempted(s);
    PreemptQueue(s);
    TakeQueue(a);
    var t := Schedule(s);
    forall k | k in t.tasks ensures Own(t, k) && (t.tasks[k].status == Waiting ==> Asleep(t, k)) {
      assert Own(s, k) && (s.tasks[k].status == Waiting ==> Asleep(s, k));
      SwitchTask(s, t, k);
    }
  }

  // After the current task is put in the queue, everything that can run is in it.
  predicate Queued(s: State) {
    && Distinct(s.runq) && s.runq != []
    && (forall t | t in s.runq :: t in s.tasks && s.tasks[t].status == Runnable)
    && (forall t | t in s.tasks && s.tasks[t].status == Runnable :: t in s.runq)
    && (forall t | t in s.tasks :: s.tasks[t].status != Running)
    && s.idle in s.tasks && s.tasks[s.idle].status != Waiting && !s.tasks[s.idle].inWait
  }

  lemma PreemptQueue(s: State)
    requires RunQueue(s)
    ensures Queued(Preempted(s))
  {
    if s.tasks[s.current].status == Running {
      JoinQueue(s);
    } else {
      assert Preempted(s) == s;
      assert s.tasks[s.idle].status == Runnable;
    }
  }

  lemma JoinQueue(s: State)
    requires RunQueue(s) && s.tasks[s.current].status == Running
    ensures Queued(Preempted(s))
  {
    var a := Preempted(s);
    assert a.runq == s.runq + [s.current] && s.current !in s.runq;
    assert a.runq[|s.runq|] == s.current;
    assert forall t | t in s.runq :: t in a.runq;
  }

  lemma TakeQueue(a: State)
    requires Queued(a)
    ensures RunQueue(Resumed(TakeNext(a)))
  {
    var n := a.runq[0];
    FirstOut(a.runq);
    assert TakeNext(a) == a.(current := n, runq := a.runq[1..]);
    assert Resumed(TakeNext(a)).tasks == a.tasks[n := a.tasks[n].(status := Running)];
  }

  lemma FirstOut(q: seq<nat>)
    requires Distinct(q) && q != []
    ensures Distinct(q[1..]) && q[0] !in q[1..] && forall t | t in q && t != q[0] :: t in q[1..]
  {
    forall t | t in q && t != q[0] ensures t in q[1..] {
      var i :| 0 <= i < |q| && q[i] == t;
      assert q[1..][i - 1] == t;
    }
  }

  lemma SwitchTask(s: State, t: State, k: nat)
    requires t == Schedule(s) && k in s.tasks && k in t.tasks && RunQueue(s) && RunQueue(t)
    requires Own(s, k) && (s.tasks[k].status == Waiting ==> Asleep(s, k))
    ensures Own(t, k) && (t.tasks[k].status == Waiting ==> Asleep(t, k))
  {
    hide Available, RunQueue;
    SwitchSame(s);
    AvailableSame(s, t);
  }

  lemma SwitchSame(s: State)
    ensures SameObjects(s, Schedule(s)) && Schedule(s).tasks.Keys == s.tasks.Keys && Schedule(s).reqs == s.reqs
    ensures forall k | k in s.tasks :: Kept(s.tasks[k], Schedule(s).tasks[k])
  {
    hide SameObjects, Preempted, TakeNext, Resumed;
    var a, b := Preempted(s), TakeNext(Preempted(s));
    PreemptKeeps(s);
    TakeKeeps(a);
    ResumeKeeps(b);
    FieldsSame(s, Schedule(s));
  }

  // What a task switch does not touch
  predicate SameRest(s: State, t: State) {
    && t.reqs == s.reqs && t.uport == s.uport && t.ports == s.ports && t.conns == s.conns && t.pledges == s.pledges
    && t.msgs == s.msgs && t.next == s.next && t.log == s.log && t.tasks.Keys == s.tasks.Keys
    && forall k | k in s.tasks :: Kept(s.tasks[k], t.tasks[k])
  }

  lemma PreemptKeeps(s: State)
    ensures SameRest(s, Preempted(s))
  {}

  lemma TakeKeeps(s: State)
    ensures SameRest(s, TakeNext(s))
  {}

  lemma ResumeKeeps(s: State)
    ensures SameRest(s, Resumed(s))
  {}

  // ----- runs -----

  // Nothing has happened yet: no ports, no handles, nobody waits.
  predicate Initial(s: State) {
    && s.reqs == map[] && s.uport == map[] && s.ports == map[] && s.conns == map[] && s.pledges == map[]
      && s.msgs == map[]
    && s.log == Log(map[], map[], map[], map[], map[], map[], map[], map[], map[], map[], map[])
    && RunQueue(s) && forall t | t in s.tasks :: !s.tasks[t].inWait && s.tasks[t].status != Waiting
  }

  lemma InitialSafe(s: State)
    requires Initial(s)
    ensures Safe(s)
  {}

  lemma StepSafe(s: State, step: Step)
    requires Safe(s) && Legal(s, step)
    ensures Safe(Do(s, step))
  {
    hide Inv, WaitInv, DoOpenPort, DoConnect, DoPop, DoRequest, DoRespond, DoGetResponse, DoDup, Check, Schedule;
    match step
    case CallOpenPort(n) => OpenPortInv(s, n); OpenPortWaits(s, n);
    case CallConnect(n, payload) => ConnectInv(s, n, payload); ConnectWaits(s, n, payload);
    case CallPop(fd) => PopInv(s, fd); PopWaits(s, fd);
    case CallRequest(fd, payload) => RequestInv(s, fd, payload); RequestWaits(s, fd, payload);
    case CallRespond(fd, answer) => RespondInv(s, fd, answer); RespondWaits(s, fd, answer);
    case CallGetResponse(fd) => GetResponseInv(s, fd); GetResponseWaits(s, fd);
    case CallDup(fd) => DupInv(s, fd); DupWaits(s, fd);
    case CallWaitOn(rset, wset) => WaitOnSafe(s, rset, wset);
    case Recheck =>
      SetsOpen(s);
      WaitOnSafe(s, s.tasks[s.current].rset, s.tasks[s.current].wset);
    case Switch => ScheduleInv(s); ScheduleWaits(s);
  }

  lemma WaitOnSafe(s: State, rset: set<nat>, wset: set<nat>)
    requires Safe(s) && AllMine(s, rset) && AllMine(s, wset)
    requires s.current in s.tasks && s.tasks[s.current].status == Running && s.current != s.idle
    ensures rset <= s.reqs.Keys && wset <= s.reqs.Keys && Safe(Check(s, rset, wset))
  {
    hide Inv, WaitInv, Check;
    MineKeys(s, rset);
    MineKeys(s, wset);
    CheckInv(s, rset, wset);
    CheckWaits(s, rset, wset);
  }

  predicate LegalRun(s: State, steps: seq<Step>)
    requires Safe(s)
    decreases |steps|
  {
    steps == [] || (Legal(s, steps[0]) && (StepSafe(s, steps[0]); LegalRun(Do(s, steps[0]), steps[1..])))
  }

  function Run(s: State, steps: seq<Step>): (r: State)
    requires Safe(s) && LegalRun(s, steps)
    ensures Safe(r)
    decreases |steps|
  {
    if steps == [] then s
    else
      StepSafe(s, steps[0]);
      Run(Do(s, steps[0]), steps[1..])
  }

  // ----- matching -----

  // Messages leave a queue in the order in which they were sent, each once.
  lemma FirstInFirstOut(s: State, q: nat)
    requires Safe(s) && (q in s.ports || q in s.conns)
    ensures q in s.log.popped && q in s.log.sent && s.log.popped[q] <= s.log.sent[q] && Distinct(s.log.popped[q])
    ensures forall m | m in s.log.sent[q] && m !in s.log.popped[q] :: m in s.msgs && m in Incoming(s, q)
  {
    OneQueue(s, q);
    assert QueueOk(s, q);
  }

  // The answer a cookie collects is the one given to the handle that its own message
  // became, and no other handle.
  lemma AnswerMatchesQuestion(s: State, c: nat) returns (m: nat, h: nat)
    requires Safe(s) && c in s.log.collected
    ensures m in s.log.sender && s.log.sender[m] == c && forall n | n in s.log.sender && s.log.sender[n] == c :: n == m
    ensures m in s.log.became && s.log.became[m] == h
    ensures h in s.log.answered && c in s.log.got && s.log.got[c] == s.log.answered[h]
  {
    hide Fresh, Objects, Queues, WaitInv;
    assert Delivered(s.log, c);
    h := s.log.collected[c];
    m := s.log.origin[h];
  }

  // A handle is answered at most once, a cookie collects at most once, a message is popped
  // at most once: when one of them happens, it has not happened before.
  lemma OnlyOnce(s: State, fd: nat)
    requires Safe(s) && fd in s.reqs
    ensures s.reqs[fd].kind == ServerCookie ==> fd !in s.log.answered
    ensures s.reqs[fd].kind == Cookie ==> fd !in s.log.collected
  {
    OneReq(s, fd);
    if s.reqs[fd].kind == ServerCookie { OnePledge(s, s.reqs[fd].data.cookie); }
  }

  lemma PoppedOnlyOnce(s: State, m: nat)
    requires Safe(s) && m in s.msgs
    ensures m !in s.log.became
  {
    OneMsg(s, m);
  }

  // respond() reaches the cookie that asked: the one whose message the handle stands for.
  lemma RespondReaches(s: State, fd: nat, answer: Payload)
    requires Safe(s) && Mine(s, fd) && s.reqs[fd].kind == ServerCookie
    ensures fd in s.log.origin && s.log.origin[fd] in s.log.sender
    ensures var c := s.log.sender[s.log.origin[fd]]; var t := DoRespond(s, fd, answer).st;
      && c in t.reqs && t.reqs[c].kind == Cookie && t.reqs[c].data.Answer? && t.reqs[c].data.cookie in t.pledges
      && t.pledges[t.reqs[c].data.cookie].response == Some(answer) && Available(t, c, true)
  {
    hide Inv, WaitInv, SameObjects;
    OneReq(s, fd);
    var u := s.reqs[fd].data.cookie;
    OnePledge(s, u);
    ReaderFrame(Answered(s, fd, u, answer), s.pledges[u].client);
    AnsweredState(s, fd, u, answer);
  }

  lemma AnsweredState(s: State, fd: nat, u: nat, answer: Payload)
    requires Mine(s, fd) && s.reqs[fd].kind == ServerCookie && s.reqs[fd].data == Answer(u) && u in s.pledges
      && PledgeOk(s, u)
    requires SameObjects(Answered(s, fd, u, answer), Respond(s, fd, u, answer))
    ensures var c := s.pledges[u].client; var t := Respond(s, fd, u, answer);
      && c in t.reqs && t.reqs[c].kind == Cookie && t.reqs[c].data == Answer(u) && u in t.pledges
      && t.pledges[u].response == Some(answer) && Available(t, c, true)
  {
    hide WakeReader;
    var c := s.pledges[u].client;
    assert SameReq(Answered(s, fd, u, answer).reqs[c], Respond(s, fd, u, answer).reqs[c]);
  }

  // Kind and phase of a handle decide what its data points to.
  lemma DataDecided(s: State, a: nat, b: nat)
    requires Safe(s) && a in s.reqs && b in s.reqs && s.reqs[a].kind == s.reqs[b].kind
      && s.reqs[a].phase == s.reqs[b].phase
    ensures s.reqs[a].data.Null? == s.reqs[b].data.Null? && s.reqs[a].data.Msg? == s.reqs[b].data.Msg?
    ensures s.reqs[a].data.Peer? == s.reqs[b].data.Peer? && s.reqs[a].data.PortQueue? == s.reqs[b].data.PortQueue?
    ensures s.reqs[a].data.ConnQueue? == s.reqs[b].data.ConnQueue? && s.reqs[a].data.Answer? == s.reqs[b].data.Answer?
  {
    OneReq(s, a);
    OneReq(s, b);
  }

  // ----- waiting -----

  // Whoever sleeps in wait_on sleeps for a reason, and will be woken through its bits.
  lemma NoLostWakeup(s: State, t: nat)
    requires Safe(s) && t in s.tasks && s.tasks[t].status == Waiting
    ensures forall r | r in s.tasks[t].rset ::
      r in s.reqs && s.reqs[r].owner == t && s.reqs[r].rd && !Available(s, r, true)
    ensures forall r | r in s.tasks[t].wset ::
      r in s.reqs && s.reqs[r].owner == t && s.reqs[r].wr && !Available(s, r, false)
    ensures t !in s.runq
  {
    hide Inv, Available;
    assert Own(s, t) && Asleep(s, t);
  }

  // The step that makes available what a sleeping task awaits also queues its owner.
  lemma WokenByTheStep(s: State, step: Step, t: nat, r: nat)
    requires Safe(s) && Legal(s, step) && t in s.tasks && s.tasks[t].status == Waiting && t != s.current
    requires var s1 := Do(s, step);
      || (r in s.tasks[t].rset && r in s1.reqs && Available(s1, r, true))
      || (r in s.tasks[t].wset && r in s1.reqs && Available(s1, r, false))
    ensures t in Do(s, step).runq && t in Do(s, step).tasks && Do(s, step).tasks[t].status == Runnable
  {
    hide Inv, Available, Do, AnyReady;
    StepSafe(s, step);
    SleeperKept(s, step, t);
    SleepsForReason(Do(s, step), t);
  }

  lemma SleepsForReason(s: State, t: nat)
    requires WaitInv(s) && t in s.tasks
    ensures s.tasks[t].status == Waiting ==> forall r | r in s.tasks[t].rset :: r in s.reqs && !Available(s, r, true)
    ensures s.tasks[t].status == Waiting ==> forall r | r in s.tasks[t].wset :: r in s.reqs && !Available(s, r, false)
    ensures s.tasks[t].status == Runnable ==> t in s.runq
  {
    hide Available;
    if s.tasks[t].status == Waiting { assert Asleep(s, t); }
  }

  // Another task that sleeps keeps what it waits for, and can only become runnable.
  lemma SleeperKept(s: State, step: Step, t: nat)
    requires Safe(s) && Legal(s, step) && t in s.tasks && s.tasks[t].status == Waiting && t != s.current
    ensures var s1 := Do(s, step); t in s1.tasks && MayWake(s.tasks[t], s1.tasks[t])
  {
    hide Inv, Check, Schedule, PortPopped, ConnPopped, Connected, Asked, Answered, WakeReader, WakeWriter, MayWake,
        Head;
    assert MayWake(s.tasks[t], s.tasks[t]) by { Itself(s.tasks[t]); }
    match step
    case CallOpenPort(n) =>
    case CallConnect(n, payload) => ConnectWakes(s, n, payload, t);
    case CallPop(fd) => PopWakes(s, fd, t);
    case CallRequest(fd, payload) => RequestWakes(s, fd, payload, t);
    case CallRespond(fd, answer) => RespondWakes(s, fd, answer, t);
    case CallGetResponse(fd) =>
    case CallDup(fd) =>
    case CallWaitOn(rset, wset) => MineKeys(s, rset); MineKeys(s, wset); CheckLeaves(s, rset, wset, t);
    case Recheck => SetsOpen(s); CheckLeaves(s, s.tasks[s.current].rset, s.tasks[s.current].wset, t);
    case Switch => SwitchLeaves(s, t);
  }

  lemma Itself(a: Task)
    ensures MayWake(a, a)
  {}

  lemma ConnectWakes(s: State, n: nat, payload: Option<Payload>, t: nat)
    requires Inv(s) && t in s.tasks
    ensures t in DoConnect(s, n, payload).st.tasks && MayWake(s.tasks[t], DoConnect(s, n, payload).st.tasks[t])
  {
    hide Inv, WakeReader;
    if n in s.uport {
      OnePort(s, n);
      OnlyWakes(Connected(s, s.reqs[s.uport[n]].data.queue, payload), s.uport[n]);
    }
  }

  lemma PopWakes(s: State, fd: nat, t: nat)
    requires Inv(s) && t in s.tasks
    ensures t in DoPop(s, fd).st.tasks && MayWake(s.tasks[t], DoPop(s, fd).st.tasks[t])
  {
    hide Inv, WakeWriter, MsgOk;
    if Mine(s, fd) {
      OneReq(s, fd);
      if s.reqs[fd].kind == Port && s.ports[s.reqs[fd].data.queue] != [] {
        var q := s.reqs[fd].data.queue;
        HeadOk(s, q);
        OnlyWakes(PortPopped(s, q), s.msgs[s.ports[q][0]].client);
      }
      if s.reqs[fd].kind == ServerConn && s.conns[s.reqs[fd].data.conn].incoming != [] {
        var k := s.reqs[fd].data.conn;
        OneQueue(s, k);
        HeadOk(s, k);
        OnlyWakes(ConnPopped(s, k), s.msgs[s.conns[k].incoming[0]].client);
      }
    }
  }

  lemma RequestWakes(s: State, fd: nat, payload: Option<Payload>, t: nat)
    requires Inv(s) && !Unconnected(s, fd) && t in s.tasks
    ensures t in DoRequest(s, fd, payload).st.tasks && MayWake(s.tasks[t], DoRequest(s, fd, payload).st.tasks[t])
  {
    hide Inv, WakeReader;
    if Mine(s, fd) && s.reqs[fd].kind == Client {
      OneReq(s, fd);
      var p := s.reqs[fd].data.handle;
      OnlyWakes(Asked(s, s.reqs[p].data.conn, payload), p);
    }
  }

  lemma RespondWakes(s: State, fd: nat, answer: Payload, t: nat)
    requires Inv(s) && t in s.tasks
    ensures t in DoRespond(s, fd, answer).st.tasks && MayWake(s.tasks[t], DoRespond(s, fd, answer).st.tasks[t])
  {
    hide Inv, WakeReader;
    if Mine(s, fd) && s.reqs[fd].kind == ServerCookie {
      OneReq(s, fd);
      var u := s.reqs[fd].data.cookie;
      OnlyWakes(Answered(s, fd, u, answer), s.pledges[u].client);
    }
  }

  lemma CheckLeaves(s: State, rset: set<nat>, wset: set<nat>, t: nat)
    requires rset <= s.reqs.Keys && wset <= s.reqs.Keys && t in s.tasks && t != s.current
    ensures t in Check(s, rset, wset).tasks && MayWake(s.tasks[t], Check(s, rset, wset).tasks[t])
  {
    hide AnyReady;
  }

  lemma SwitchLeaves(s: State, t: nat)
    requires WaitInv(s) && t in s.tasks && s.tasks[t].status == Waiting && t != s.current
    ensures t in Schedule(s).tasks && MayWake(s.tasks[t], Schedule(s).tasks[t])
  {
    hide Sleepers;
    PreemptQueue(s);
    var a := Preempted(s);
    assert a.tasks[t] == s.tasks[t] && t !in a.runq;
  }
}
