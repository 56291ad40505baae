// The bits of waited_rw: a descriptor carries one only while its owner is in wait_on for it,
// so that nobody is woken for what he does not await.
module IpcBits {
  import opened IpcState
  import opened IpcInvariant
  import opened IpcRuns
  import opened IpcWaits
  import opened IpcTheorems

  predicate Awaits(s: State, r: nat, reading: bool)
    requires r in s.reqs
  {
    var t := s.reqs[r].owner;
    t in s.tasks && s.tasks[t].inWait && r in (if reading then s.tasks[t].rset else s.tasks[t].wset)
  }

  predicate Bits(s: State) {
    forall r | r in s.reqs :: (s.reqs[r].rd ==> Awaits(s, r, true)) && (s.reqs[r].wr ==> Awaits(s, r, false))
  }

  // Descriptors keep their bits or are new ones without, and tasks keep what they wait for.
  predicate SameBits(s: State, t: State) {
    && (forall r | r in t.reqs ::
      (r in s.reqs && SameWaits(s.reqs[r], t.reqs[r])) || (!t.reqs[r].rd && !t.reqs[r].wr))
    && (forall k | k in s.tasks :: k in t.tasks && Kept(s.tasks[k], t.tasks[k]))
  }

  lemma StillBits(s: State, t: State)
    requires Bits(s) && SameBits(s, t)
    ensures Bits(t)
  {}

  lemma NoChange(s: State)
    ensures SameBits(s, s)
  {}

  lemma WokenBits(s: State, t: State, x: nat)
    requires SameBits(s, t) && t.tasks == s.tasks
    ensures SameBits(s, WakeReader(t, x)) && SameBits(s, WakeWriter(t, x))
  {
    hide WakeReader, WakeWriter, SameObjects, SameWaits;
    ReaderFrame(t, x);
    WriterFrame(t, x);
  }

  // What a turn of wait_on leaves: no bit of the caller if it returns, its own if it sleeps.
  lemma CheckBits(s: State, rset: set<nat>, wset: set<nat>)
    requires Bits(s) && AllMine(s, rset) && AllMine(s, wset) && rset <= s.reqs.Keys && wset <= s.reqs.Keys
    requires s.current in s.tasks
    requires s.tasks[s.current].inWait ==> rset == s.tasks[s.current].rset && wset == s.tasks[s.current].wset
    ensures Bits(Check(s, rset, wset))
  {
    hide AnyReady, Bits, Marked, Unmarked;
    if AnyReady(s, rset, wset) {
      ReturnBits(s, rset, wset);
    } else {
      SleepBits(s, rset, wset);
    }
  }

  lemma ReturnBits(s: State, rset: set<nat>, wset: set<nat>)
    requires Bits(s) && s.current in s.tasks
    requires s.tasks[s.current].inWait ==> rset == s.tasks[s.current].rset && wset == s.tasks[s.current].wset
    ensures Bits(s.(reqs := Unmarked(s.reqs, rset, wset), tasks := s.tasks[s.current := Task(Running, false, {}, {})]))
  {}

  lemma SleepBits(s: State, rset: set<nat>, wset: set<nat>)
    requires Bits(s) && AllMine(s, rset) && AllMine(s, wset) && s.current in s.tasks
    requires s.tasks[s.current].inWait ==> rset == s.tasks[s.current].rset && wset == s.tasks[s.current].wset
    ensures Bits(s.(reqs := Marked(s.reqs, rset, wset), tasks := s.tasks[s.current := Task(Waiting, true, rset, wset)]))
  {}

  lemma ConnectBits(s: State, n: nat, payload: Option<Payload>)
    requires Inv(s)
    ensures SameBits(s, DoConnect(s, n, payload).st)
  {
    hide Inv, SameBits, WakeReader;
    NoChange(s);
    if n in s.uport {
      OnePort(s, n);
      var q := s.reqs[s.uport[n]].data.queue;
      ConnectedBits(s, q, payload);
      WokenBits(s, Connected(s, q, payload), s.uport[n]);
    }
  }

  lemma ConnectedBits(s: State, q: nat, payload: Option<Payload>)
    requires q in s.ports
    ensures SameBits(s, Connected(s, q, payload))
  {}

  lemma PopBits(s: State, fd: nat)
    requires Inv(s)
    ensures SameBits(s, DoPop(s, fd).st)
  {
    hide Inv, SameBits, WakeWriter, MsgOk;
    NoChange(s);
    if Mine(s, fd) {
      OneReq(s, fd);
      if s.reqs[fd].kind == Port && s.ports[s.reqs[fd].data.queue] != [] {
        var q := s.reqs[fd].data.queue;
        HeadOk(s, q);
        PortPoppedBits(s, q);
        WokenBits(s, PortPopped(s, q), s.msgs[s.ports[q][0]].client);
      }
      if s.reqs[fd].kind == ServerConn && s.conns[s.reqs[fd].data.conn].incoming != [] {
        var k := s.reqs[fd].data.conn;
        OneQueue(s, k);
        HeadOk(s, k);
        ConnPoppedBits(s, k);
        WokenBits(s, ConnPopped(s, k), s.msgs[s.conns[k].incoming[0]].client);
      }
    }
  }

  lemma PortPoppedBits(s: State, q: nat)
    requires q in s.ports && s.ports[q] != [] && s.ports[q][0] in s.msgs && s.msgs[s.ports[q][0]].client in s.reqs
    ensures SameBits(s, PortPopped(s, q))
  {}

  lemma ConnPoppedBits(s: State, k: nat)
    requires k in s.conns && s.conns[k].incoming != []
    requires s.conns[k].incoming[0] in s.msgs && s.msgs[s.conns[k].incoming[0]].client in s.reqs
    ensures SameBits(s, ConnPopped(s, k))
  {}

  lemma RequestBits(s: State, fd: nat, payload: Option<Payload>)
    requires Inv(s) && !Unconnected(s, fd)
    ensures SameBits(s, DoRequest(s, fd, payload).st)
  {
    hide Inv, SameBits, WakeReader;
    NoChange(s);
    if Mine(s, fd) && s.reqs[fd].kind == Client {
      OneReq(s, fd);
      var p := s.reqs[fd].data.handle;
      AskedBits(s, s.reqs[p].data.conn, payload);
      WokenBits(s, Asked(s, s.reqs[p].data.conn, payload), p);
    }
  }

  lemma AskedBits(s: State, k: nat, payload: Option<Payload>)
    requires k in s.conns
    ensures SameBits(s, Asked(s, k, payload))
  {}

  lemma RespondBits(s: State, fd: nat, answer: Payload)
    requires Inv(s)
    ensures SameBits(s, DoRespond(s, fd, answer).st)
  {
    hide Inv, SameBits, WakeReader;
    NoChange(s);
    if Mine(s, fd) && s.reqs[fd].kind == ServerCookie {
      OneReq(s, fd);
      var u := s.reqs[fd].data.cookie;
      AnsweredBits(s, fd, u, answer);
      WokenBits(s, Answered(s, fd, u, answer), s.pledges[u].client);
    }
  }

  lemma AnsweredBits(s: State, h: nat, u: nat, answer: Payload)
    requires u in s.pledges
    ensures SameBits(s, Answered(s, h, u, answer))
  {}

  lemma OpenPortBits(s: State, n: nat)
    ensures SameBits(s, DoOpenPort(s, n).st)
  {
    hide SameBits;
    NoChange(s);
    if n !in s.uport { OpenedBits(s, n); }
  }

  lemma OpenedBits(s: State, n: nat)
    ensures SameBits(s, OpenPort(s, n))
  {}

  lemma GetResponseBits(s: State, c: nat)
    requires Inv(s)
    ensures SameBits(s, DoGetResponse(s, c).st)
  {
    hide Inv, SameBits, Collect;
    NoChange(s);
    if DoGetResponse(s, c).result.Received? {
      OneReq(s, c);
      OnePledge(s, s.reqs[c].data.cookie);
      CollectedBits(s, c, s.reqs[c].data.cookie);
    }
  }

  lemma CollectedBits(s: State, c: nat, u: nat)
    requires u in s.pledges && s.pledges[u].response.Some? && u in s.log.handleOf
    ensures SameBits(s, Collect(s, c, u))
  {}

  lemma DupBits(s: State, fd: nat)
    requires Inv(s)
    ensures SameBits(s, DoDup(s, fd).st)
  {
    hide Inv, SameBits, Dup;
    NoChange(s);
    if DoDup(s, fd).result.Fd? {
      OneReq(s, fd);
      DuppedBits(s, fd, s.reqs[s.reqs[fd].data.handle].data.conn);
    }
  }

  lemma DuppedBits(s: State, r: nat, k: nat)
    requires r in s.reqs && k in s.conns
    ensures SameBits(s, Dup(s, r, k))
  {}

  lemma SwitchBits(s: State)
    ensures SameBits(s, Schedule(s))
  {
    hide SameObjects, Schedule;
    SwitchSame(s);
  }

  lemma BusyIs(s: State)
    ensures IpcWaits.Busy(s) ==> s.current in s.tasks && !s.tasks[s.current].inWait
  {}

  lemma BitsKept(s: State, step: Step)
    requires Safe(s) && Legal(s, step) && Bits(s)
    ensures Bits(Do(s, step))
  {
    hide Inv, WaitInv, Bits, SameBits, DoOpenPort, DoConnect, DoPop, DoRequest, DoRespond, DoGetResponse, DoDup, Check,
         Schedule, IpcWaits.Busy;
    BusyIs(s);
    match step
    case CallOpenPort(n) => OpenPortBits(s, n); StillBits(s, Do(s, step));
    case CallConnect(n, payload) => ConnectBits(s, n, payload); StillBits(s, Do(s, step));
    case CallPop(fd) => PopBits(s, fd); StillBits(s, Do(s, step));
    case CallRequest(fd, payload) => RequestBits(s, fd, payload); StillBits(s, Do(s, step));
    case CallRespond(fd, answer) => RespondBits(s, fd, answer); StillBits(s, Do(s, step));
    case CallGetResponse(fd) => GetResponseBits(s, fd); StillBits(s, Do(s, step));
    case CallDup(fd) => DupBits(s, fd); StillBits(s, Do(s, step));
    case CallWaitOn(rset, wset) => MineKeys(s, rset); MineKeys(s, wset); CheckBits(s, rset, wset);
    case Recheck =>
      SetsOpen(s);
      CheckBits(s, s.tasks[s.current].rset, s.tasks[s.current].wset);
    case Switch => SwitchBits(s); StillBits(s, Schedule(s));
  }

  lemma {:induction false} BitsRun(s: State, steps: seq<Step>)
    requires Safe(s) && LegalRun(s, steps) && Bits(s)
    ensures Bits(Run(s, steps))
    decreases |steps|
  {
    hide Inv, WaitInv, Bits, Legal, Do;
    if steps != [] {
      StepSafe(s, steps[0]);
      BitsKept(s, steps[0]);
      BitsRun(Do(s, steps[0]), steps[1..]);
    }
  }
}
