// Runs of system calls on ports: answers reach the cookie that asked, in order and once,
// and no wakeup is lost.
module IpcRuns {
  import opened IpcState
  import opened IpcInvariant

  datatype Result =
    | Fd(fd: nat)                                       // a new handle
    | Got(fd: nat, payload: Option<Payload>, pid: nat)  // a new handle, what came with it, and from whom
    | Received(answer: Payload)
    | Responded | Again | Busy | NoPort | BadFd | AllGone | Parked | Ready
    | FreedInUse    // request() frees the connection, which stays in the descriptor table

  datatype Outcome = Outcome(st: State, result: Result)

  // The current task has the descriptor.
  predicate Mine(s: State, r: nat) {
    r in s.reqs && s.reqs[r].owner == s.current
  }

  function DoOpenPort(s: State, n: nat): Outcome {
    if n in s.uport then Outcome(s, Busy) else Outcome(OpenPort(s, n), Fd(s.next))
  }

  function DoConnect(s: State, n: nat, payload: Option<Payload>): Outcome
    requires Inv(s)
  {
    if n !in s.uport then Outcome(s, NoPort)
    else
      OnePort(s, n);
      Outcome(Connect(s, s.uport[n], s.reqs[s.uport[n]].data.queue, payload), Fd(s.next))
  }

  function DoPop(s: State, fd: nat): Outcome
    requires Inv(s)
  {
    if !Mine(s, fd) then Outcome(s, BadFd)
    else
      OneReq(s, fd);
      match s.reqs[fd].kind
      case Port => DoPopPort(s, s.reqs[fd].data.queue)
      case ServerConn => DoPopConn(s, s.reqs[fd].data.conn)
      case _ => Outcome(s, BadFd)
  }

  // What the server is given with the new handle: the message, and whose it is
  function Taken(s: State, m: nat): Result
    requires m in s.msgs && s.msgs[m].client in s.reqs
  {
    Got(s.next, s.msgs[m].payload, s.reqs[s.msgs[m].client].owner)
  }

  function DoPopPort(s: State, q: nat): Outcome
    requires Inv(s) && q in s.ports
  {
    if s.ports[q] == [] then Outcome(s, Again)
    else
      HeadOk(s, q);
      Outcome(PopPort(s, q), Taken(s, s.ports[q][0]))
  }

  function DoPopConn(s: State, k: nat): Outcome
    requires Inv(s) && k in s.conns
  {
    if s.conns[k].incoming == [] then (if s.conns[k].clients == {} then Outcome(s, AllGone) else Outcome(s, Again))
    else
      OneQueue(s, k);
      HeadOk(s, k);
      Outcome(PopConn(s, k), Taken(s, s.conns[k].incoming[0]))
  }

  // A connection that the server has not taken yet: uport_request declines, and request()
  // then frees the connection instead of the cookie.
  predicate Unconnected(s: State, fd: nat) {
    Mine(s, fd) && s.reqs[fd].kind == Client && s.reqs[fd].phase != Established
  }

  function DoRequest(s: State, fd: nat, payload: Option<Payload>): Outcome
    requires Inv(s) && !Unconnected(s, fd)
  {
    if !Mine(s, fd) || s.reqs[fd].kind != Client then Outcome(s, BadFd)
    else
      OneReq(s, fd);
      var p := s.reqs[fd].data.handle;
      Outcome(Ask(s, p, s.reqs[p].data.conn, payload), Fd(s.next))
  }

  function DoRespond(s: State, fd: nat, answer: Payload): Outcome
    requires Inv(s)
  {
    if !Mine(s, fd) || s.reqs[fd].kind != ServerCookie then Outcome(s, BadFd)
    else
      OneReq(s, fd);
      Outcome(Respond(s, fd, s.reqs[fd].data.cookie, answer), Responded)
  }

  function DoGetResponse(s: State, fd: nat): Outcome
    requires Inv(s)
  {
    if !Mine(s, fd) || s.reqs[fd].kind != Cookie then Outcome(s, BadFd)
    else if s.reqs[fd].phase == Pending then Outcome(s, Again)
    else
      OneReq(s, fd);
      var u := s.reqs[fd].data.cookie;
      OnePledge(s, u);
      if s.pledges[u].response == None then Outcome(s, Again)
      else Outcome(Collect(s, fd, u), Received(s.pledges[u].response.value))
  }

  function DoDup(s: State, fd: nat): Outcome
    requires Inv(s)
  {
    if !Mine(s, fd) || s.reqs[fd].kind != Client then Outcome(s, BadFd)
    else if s.reqs[fd].phase != Established then Outcome(s, Again)
    else
      OneReq(s, fd);
      Outcome(Dup(s, fd, s.reqs[s.reqs[fd].data.handle].data.conn), Fd(s.next))
  }

  // ----- every call keeps the invariant -----

  lemma WokenInv(s: State, r: nat)
    requires Inv(s)
    ensures Inv(WakeReader(s, r)) && Inv(WakeWriter(s, r))
  {
    hide Inv, WakeReader, WakeWriter, SameObjects;
    WakeSame(s, r);
    SameInv(s, WakeReader(s, r));
    SameInv(s, WakeWriter(s, r));
  }

  lemma OpenPortInv(s: State, n: nat)
    requires Inv(s)
    ensures Inv(DoOpenPort(s, n).st)
  {
    hide Inv, OpenPort;
    if n !in s.uport { OpenPortKeeps(s, n); }
  }

  lemma ConnectInv(s: State, n: nat, payload: Option<Payload>)
    requires Inv(s)
    ensures Inv(DoConnect(s, n, payload).st)
  {
    hide Inv, Connected, WakeReader;
    if n in s.uport {
      OnePort(s, n);
      var q := s.reqs[s.uport[n]].data.queue;
      ConnectedKeeps(s, q, payload);
      WokenInv(Connected(s, q, payload), s.uport[n]);
    }
  }

  lemma PopInv(s: State, fd: nat)
    requires Inv(s)
    ensures Inv(DoPop(s, fd).st)
  {
    hide Inv, PortPopped, ConnPopped, WakeWriter, Head;
    if Mine(s, fd) {
      OneReq(s, fd);
      if s.reqs[fd].kind == Port && s.ports[s.reqs[fd].data.queue] != [] {
        var q := s.reqs[fd].data.queue;
        HeadOk(s, q);
        HeadIs(s, q, s.ports[q][0]);
        PortPoppedKeeps(s, q);
        WokenInv(PortPopped(s, q), s.msgs[s.ports[q][0]].client);
      }
      if s.reqs[fd].kind == ServerConn && s.conns[s.reqs[fd].data.conn].incoming != [] {
        var k := s.reqs[fd].data.conn;
        OneQueue(s, k);
        HeadOk(s, k);
        HeadIs(s, k, s.conns[k].incoming[0]);
        ConnPoppedKeeps(s, k);
        WokenInv(ConnPopped(s, k), s.msgs[s.conns[k].incoming[0]].client);
      }
    }
  }

  lemma RequestInv(s: State, fd: nat, payload: Option<Payload>)
    requires Inv(s) && !Unconnected(s, fd)
    ensures Inv(DoRequest(s, fd, payload).st)
  {
    hide Inv, Asked, WakeReader;
    if Mine(s, fd) && s.reqs[fd].kind == Client {
      OneReq(s, fd);
      var p := s.reqs[fd].data.handle;
      AskedKeeps(s, s.reqs[p].data.conn, payload);
      WokenInv(Asked(s, s.reqs[p].data.conn, payload), p);
    }
  }

  lemma RespondInv(s: State, fd: nat, answer: Payload)
    requires Inv(s)
    ensures Inv(DoRespond(s, fd, answer).st)
  {
    hide Inv, Answered, WakeReader;
    if Mine(s, fd) && s.reqs[fd].kind == ServerCookie {
      OneReq(s, fd);
      var u := s.reqs[fd].data.cookie;
      AnsweredKeeps(s, fd, u, answer);
      WokenInv(Answered(s, fd, u, answer), s.pledges[u].client);
    }
  }

  lemma GetResponseInv(s: State, fd: nat)
    requires Inv(s)
    ensures Inv(DoGetResponse(s, fd).st)
  {
    hide Inv, Collect;
    if Mine(s, fd) && s.reqs[fd].kind == Cookie && s.reqs[fd].phase != Pending {
      OneReq(s, fd);
      var u := s.reqs[fd].data.cookie;
      OnePledge(s, u);
      if s.pledges[u].response != None { CollectKeeps(s, fd, u); }
    }
  }

  lemma DupInv(s: State, fd: nat)
    requires Inv(s)
    ensures Inv(DoDup(s, fd).st)
  {
    hide Inv, Dup;
    if Mine(s, fd) && s.reqs[fd].kind == Client && s.reqs[fd].phase == Established {
      OneReq(s, fd);
      DupKeeps(s, fd, s.reqs[s.reqs[fd].data.handle].data.conn);
    }
  }

  lemma CheckInv(s: State, rset: set<nat>, wset: set<nat>)
    requires Inv(s) && rset <= s.reqs.Keys && wset <= s.reqs.Keys
    ensures Inv(Check(s, rset, wset))
  {
    hide Inv, AnyReady, SameObjects;
    CheckSame(s, rset, wset);
    SameInv(s, Check(s, rset, wset));
  }

  lemma CheckSame(s: State, rset: set<nat>, wset: set<nat>)
    requires rset <= s.reqs.Keys && wset <= s.reqs.Keys
    ensures SameObjects(s, Check(s, rset, wset))
  {
    hide AnyReady, Marked, Unmarked, SameReq, SameObjects;
    MarkedSame(s.reqs, rset, wset);
    UnmarkedSame(s.reqs, rset, wset);
    SameWith(s, Unmarked(s.reqs, rset, wset), s.tasks[s.current := Task(Running, false, {}, {})]);
    SameWith(s, Marked(s.reqs, rset, wset), s.tasks[s.current := Task(Waiting, true, rset, wset)]);
  }

  lemma SameWith(s: State, reqs: map<nat, Request>, tasks: map<nat, Task>)
    requires reqs.Keys == s.reqs.Keys && forall r | r in s.reqs :: SameReq(s.reqs[r], reqs[r])
    ensures SameObjects(s, s.(reqs := reqs, tasks := tasks))
  {}

  lemma MarkedSame(reqs: map<nat, Request>, rset: set<nat>, wset: set<nat>)
    ensures Marked(reqs, rset, wset).Keys == reqs.Keys
    ensures forall r | r in reqs :: SameReq(reqs[r], Marked(reqs, rset, wset)[r])
  {}

  lemma UnmarkedSame(reqs: map<nat, Request>, rset: set<nat>, wset: set<nat>)
    ensures Unmarked(reqs, rset, wset).Keys == reqs.Keys
    ensures forall r | r in reqs :: SameReq(reqs[r], Unmarked(reqs, rset, wset)[r])
  {}

  lemma ScheduleInv(s: State)
    requires Inv(s)
    ensures Inv(Schedule(s))
  {
    hide Inv, SameObjects, Preempted, TakeNext, Resumed;
    PreemptedSame(s);
    TakeNextSame(Preempted(s));
    ResumedSame(TakeNext(Preempted(s)));
    SameInv(s, Preempted(s));
    SameInv(Preempted(s), TakeNext(Preempted(s)));
    SameInv(TakeNext(Preempted(s)), Schedule(s));
  }

  lemma FieldsSame(s: State, t: State)
    requires t.reqs == s.reqs && t.uport == s.uport && t.ports == s.ports && t.conns == s.conns
      && t.pledges == s.pledges
    requires t.msgs == s.msgs && t.next == s.next && t.log == s.log
    ensures SameObjects(s, t)
  {}

  lemma PreemptedSame(s: State)
    ensures SameObjects(s, Preempted(s))
  {
    hide SameObjects;
    FieldsSame(s, Preempted(s));
  }

  lemma TakeNextSame(s: State)
    ensures SameObjects(s, TakeNext(s))
  {
    hide SameObjects;
    FieldsSame(s, TakeNext(s));
  }

  lemma ResumedSame(s: State)
    ensures SameObjects(s, Resumed(s))
  {
    hide SameObjects;
    FieldsSame(s, Resumed(s));
  }
}
