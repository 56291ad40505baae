// What the system calls on ports answer: the buffer a server is handed is the one that was
// sent, the answer a client receives the one that was given, a descriptor is reported as
// available exactly if the next call on it goes through.
module IpcResults {
  import opened IpcState
  import opened IpcInvariant
  import opened IpcRuns
  import opened IpcWaits
  import opened IpcTheorems

  // The handle takes its messages from the queue.
  predicate Serves(s: State, fd: nat, q: nat) {
    && fd in s.reqs
    && ((s.reqs[fd].kind == Port && s.reqs[fd].data == PortQueue(q) && q in s.ports)
        || (s.reqs[fd].kind == ServerConn && s.reqs[fd].data == ConnQueue(q) && q in s.conns && q !in s.ports))
  }

  // A descriptor of the current task that was not there before
  predicate NewFd(s: State, t: State, fd: nat, kind: Kind) {
    fd !in s.reqs && fd in t.reqs && t.reqs[fd].kind == kind && t.reqs[fd].owner == s.current
  }

  // ----- pop_request -----

  lemma ServesOne(s: State, fd: nat)
    requires Inv(s) && fd in s.reqs && s.reqs[fd].kind in {Port, ServerConn}
    ensures s.reqs[fd].kind == Port ==> s.reqs[fd].data.PortQueue? && Serves(s, fd, s.reqs[fd].data.queue)
    ensures s.reqs[fd].kind == ServerConn ==> s.reqs[fd].data.ConnQueue? && Serves(s, fd, s.reqs[fd].data.conn)
  {
    hide Inv;
    OneReq(s, fd);
    if s.reqs[fd].kind == ServerConn { OneQueue(s, s.reqs[fd].data.conn); }
  }

  // Which answer: closing is left out, so a connection always has clients.
  lemma PopAnswers(s: State, fd: nat)
    requires Inv(s)
    ensures DoPop(s, fd).result == BadFd <==> !Mine(s, fd) || s.reqs[fd].kind !in {Port, ServerConn}
    ensures DoPop(s, fd).result == Again <==> Mine(s, fd) && exists q :: Serves(s, fd, q) && Incoming(s, q) == []
    ensures DoPop(s, fd).result.Got? <==> Mine(s, fd) && exists q :: Serves(s, fd, q) && Incoming(s, q) != []
    ensures !DoPop(s, fd).result.Got? ==> DoPop(s, fd).st == s
  {
    hide Inv, PopPort, PopConn, MsgOk;
    if Mine(s, fd) && s.reqs[fd].kind in {Port, ServerConn} {
      ServesOne(s, fd);
      OneReq(s, fd);
      if s.reqs[fd].kind == Port {
        assert Incoming(s, s.reqs[fd].data.queue) == s.ports[s.reqs[fd].data.queue];
      } else {
        OneConn(s, s.reqs[fd].data.conn);
        assert Incoming(s, s.reqs[fd].data.conn) == s.conns[s.reqs[fd].data.conn].incoming;
      }
    }
  }

  lemma OneConn(s: State, k: nat)
    requires Inv(s) && k in s.conns
    ensures s.conns[k].clients != {}
  {
    hide ReqOk, MsgOk, PledgeOk, QueueOk, LogOk, Gone, Fresh;
    assert ConnOk(s, k);
  }

  // What the server is handed: the buffer of the first message as it was sent, who sent it,
  // and a new handle for it; the sender's descriptor is then established.
  lemma PopGives(s: State, fd: nat, q: nat)
    requires Inv(s) && Mine(s, fd) && Serves(s, fd, q) && Incoming(s, q) != []
    ensures var m := Incoming(s, q)[0]; var o := DoPop(s, fd); var kind := s.reqs[fd].kind;
      && o.result.Got? && m in s.log.text && o.result.payload == s.log.text[m]
      && m in s.log.sender && s.log.sender[m] in s.reqs && o.result.pid == s.reqs[s.log.sender[m]].owner
      && NewFd(s, o.st, o.result.fd, if kind == Port then ServerConn else ServerCookie)
      && m in o.st.log.became && o.st.log.became[m] == o.result.fd
      && Incoming(o.st, q) == Incoming(s, q)[1..]
      && s.log.sender[m] in o.st.reqs && o.st.reqs[s.log.sender[m]].phase == Established
      && (kind == Port ==> Available(o.st, s.log.sender[m], false))
  {
    hide Inv, MsgOk, PortPopped, ConnPopped, WakeWriter, Available, SameObjects, NewFd, Head;
    var m := Incoming(s, q)[0];
    OneReq(s, fd);
    HeadOk(s, q);
    HeadSent(s, q, m);
    IdsBelow(s);
    var c := s.msgs[m].client;
    if s.reqs[fd].kind == Port {
      PortGives(s, q, m);
      WriterFrame(PortPopped(s, q), c);
      AvailableSame(PortPopped(s, q), PopPort(s, q));
      GivesSame(PortPopped(s, q), PopPort(s, q), q);
    } else {
      ConnGives(s, q, m);
      WriterFrame(ConnPopped(s, q), c);
      GivesSame(ConnPopped(s, q), PopConn(s, q), q);
    }
    SameNew(s, if s.reqs[fd].kind == Port then PortPopped(s, q) else ConnPopped(s, q), DoPop(s, fd).st, s.next);
  }

  lemma HeadSent(s: State, q: nat, m: nat)
    requires Head(s, q, m)
    ensures m in s.msgs && s.msgs[m].client in s.reqs && m in s.log.sender && s.log.sender[m] == s.msgs[m].client
    ensures m in s.log.text && s.log.text[m] == s.msgs[m].payload
    ensures q in s.ports ==> s.reqs[s.msgs[m].client].kind == Client
  {}

  lemma SameNew(s: State, t: State, u: State, fd: nat)
    requires u.reqs == t.reqs
    ensures forall kind :: NewFd(s, u, fd, kind) == NewFd(s, t, fd, kind)
  {}

  lemma GivesSame(t: State, u: State, q: nat)
    requires SameObjects(t, u)
    ensures Incoming(u, q) == Incoming(t, q) && u.log == t.log
  {}

  lemma PortGives(s: State, q: nat, m: nat)
    requires q in s.ports && s.ports[q] != [] && m == s.ports[q][0] && m in s.msgs && s.msgs[m].client in s.reqs
    requires s.next !in s.reqs && s.reqs[s.msgs[m].client].kind == Client
    ensures var t := PortPopped(s, q); var c := s.msgs[m].client;
      && NewFd(s, t, s.next, ServerConn) && m in t.log.became && t.log.became[m] == s.next
      && Incoming(t, q) == s.ports[q][1..]
      && c in t.reqs && t.reqs[c].phase == Established && Available(t, c, false)
  {}

  lemma ConnGives(s: State, k: nat, m: nat)
    requires k in s.conns && k !in s.ports && s.conns[k].incoming != [] && m == s.conns[k].incoming[0]
    requires m in s.msgs && s.msgs[m].client in s.reqs && s.next !in s.reqs
    ensures var t := ConnPopped(s, k); var c := s.msgs[m].client;
      && NewFd(s, t, s.next, ServerCookie) && m in t.log.became && t.log.became[m] == s.next
      && Incoming(t, k) == s.conns[k].incoming[1..]
      && c in t.reqs && t.reqs[c].phase == Established
  {}

  // ----- port_connect and request -----

  // The message m of the descriptor fd, with the buffer, came last into the queue of the
  // handle p, which is now readable.
  predicate Sends(s: State, t: State, p: nat, q: nat, m: nat, fd: nat, payload: Option<Payload>) {
    && m !in s.msgs && Incoming(t, q) == Incoming(s, q) + [m] && Serves(t, p, q)
    && m in t.log.text && t.log.text[m] == payload && m in t.log.sender && t.log.sender[m] == fd
    && Available(t, p, true)
  }

  lemma SendsSame(s: State, t: State, u: State, p: nat, q: nat, m: nat, fd: nat, payload: Option<Payload>)
    requires Sends(s, t, p, q, m, fd, payload) && SameObjects(t, u)
    ensures Sends(s, u, p, q, m, fd, payload)
  {
    hide Available;
    AvailableSame(t, u);
    assert SameReq(t.reqs[p], u.reqs[p]);
  }

  lemma ConnectSends(s: State, n: nat, payload: Option<Payload>)
    requires Inv(s)
    ensures DoConnect(s, n, payload).result == NoPort <==> n !in s.uport
    ensures n !in s.uport ==> DoConnect(s, n, payload).st == s
    ensures n in s.uport ==>
      var o := DoConnect(s, n, payload); var p := s.uport[n];
      && o.result.Fd? && NewFd(s, o.st, o.result.fd, Client)
      && exists q, m :: Serves(s, p, q) && Sends(s, o.st, p, q, m, o.result.fd, payload)
  {
    hide Inv, Connected, WakeReader, Sends, SameObjects, NewFd;
    if n in s.uport {
      OnePort(s, n);
      var p := s.uport[n];
      var q := s.reqs[p].data.queue;
      OneReq(s, p);
      IdsBelow(s);
      NewIds(s);
      ConnectedSends(s, p, q, payload);
      ReaderFrame(Connected(s, q, payload), p);
      SendsSame(s, Connected(s, q, payload), Connect(s, p, q, payload), p, q, s.next + 1, s.next, payload);
      SameNew(s, Connected(s, q, payload), Connect(s, p, q, payload), s.next);
    }
  }

  lemma ConnectedSends(s: State, p: nat, q: nat, payload: Option<Payload>)
    requires p in s.reqs && s.reqs[p].kind == Port && s.reqs[p].data == PortQueue(q) && q in s.ports
    requires Unused(s, s.next) && Unused(s, s.next + 1)
    ensures Sends(s, Connected(s, q, payload), p, q, s.next + 1, s.next, payload)
    ensures NewFd(s, Connected(s, q, payload), s.next, Client)
  {}

  lemma RequestSends(s: State, fd: nat, payload: Option<Payload>)
    requires Inv(s) && !Unconnected(s, fd)
    ensures DoRequest(s, fd, payload).result == BadFd <==> !Mine(s, fd) || s.reqs[fd].kind != Client
    ensures !Mine(s, fd) || s.reqs[fd].kind != Client ==> DoRequest(s, fd, payload).st == s
    ensures Mine(s, fd) && s.reqs[fd].kind == Client ==>
      var o := DoRequest(s, fd, payload);
      && o.result.Fd? && NewFd(s, o.st, o.result.fd, Cookie) && s.reqs[fd].data.Peer?
      && exists q, m :: Serves(s, s.reqs[fd].data.handle, q)
                        && Sends(s, o.st, s.reqs[fd].data.handle, q, m, o.result.fd, payload)
  {
    hide Inv, Asked, WakeReader, Sends, SameObjects, NewFd;
    if Mine(s, fd) && s.reqs[fd].kind == Client {
      OneReq(s, fd);
      var p := s.reqs[fd].data.handle;
      OneReq(s, p);
      var k := s.reqs[p].data.conn;
      OneQueue(s, k);
      IdsBelow(s);
      NewIds(s);
      AskedSends(s, p, k, payload);
      ReaderFrame(Asked(s, k, payload), p);
      SendsSame(s, Asked(s, k, payload), Ask(s, p, k, payload), p, k, s.next + 1, s.next, payload);
      SameNew(s, Asked(s, k, payload), Ask(s, p, k, payload), s.next);
    }
  }

  lemma AskedSends(s: State, p: nat, k: nat, payload: Option<Payload>)
    requires p in s.reqs && s.reqs[p].kind == ServerConn && s.reqs[p].data == ConnQueue(k) && k in s.conns
    requires k !in s.ports && Unused(s, s.next) && Unused(s, s.next + 1)
    ensures Sends(s, Asked(s, k, payload), p, k, s.next + 1, s.next, payload)
    ensures NewFd(s, Asked(s, k, payload), s.next, Cookie)
  {}

  // ----- respond and get_response -----

  lemma RespondAnswers(s: State, fd: nat, answer: Payload)
    requires Inv(s)
    ensures DoRespond(s, fd, answer).result == Responded <==> Mine(s, fd) && s.reqs[fd].kind == ServerCookie
    ensures DoRespond(s, fd, answer).result == BadFd <==> !Mine(s, fd) || s.reqs[fd].kind != ServerCookie
    ensures DoRespond(s, fd, answer).result == BadFd ==> DoRespond(s, fd, answer).st == s
    ensures DoRespond(s, fd, answer).result == Responded ==>
      var t := DoRespond(s, fd, answer).st;
      fd !in t.reqs && fd !in s.log.answered && fd in t.log.answered && t.log.answered[fd] == answer
  {
    hide Inv, Answered, WakeReader, SameObjects;
    if Mine(s, fd) && s.reqs[fd].kind == ServerCookie {
      OneReq(s, fd);
      var u := s.reqs[fd].data.cookie;
      OnePledge(s, u);
      AnsweredLogged(s, fd, u, answer);
      ReaderFrame(Answered(s, fd, u, answer), s.pledges[u].client);
      GivesSame(Answered(s, fd, u, answer), Respond(s, fd, u, answer), 0);
    }
  }

  lemma AnsweredLogged(s: State, fd: nat, u: nat, answer: Payload)
    requires u in s.pledges
    ensures fd !in Answered(s, fd, u, answer).reqs
    ensures var l := Answered(s, fd, u, answer).log; fd in l.answered && l.answered[fd] == answer
  {}

  // What the client receives is what was answered to the handle that its message became;
  // the cookie is spent.
  lemma ReceivedIs(s: State, c: nat) returns (m: nat, h: nat)
    requires Inv(s) && DoGetResponse(s, c).result.Received?
    ensures m in s.log.sender && s.log.sender[m] == c && m in s.log.became && s.log.became[m] == h
    ensures h in s.log.answered && DoGetResponse(s, c).result.answer == s.log.answered[h]
    ensures var t := DoGetResponse(s, c).st;
      c !in t.reqs && c in t.log.got && t.log.got[c] == DoGetResponse(s, c).result.answer
  {
    hide Fresh, Objects, Queues, ReqOk, PledgeOk;
    OneReq(s, c);
    PledgeIs(s, c);
    var u := s.reqs[c].data.cookie;
    h := s.log.handleOf[u];
    m := s.log.origin[h];
  }

  lemma PledgeIs(s: State, c: nat)
    requires Inv(s) && c in s.reqs && s.reqs[c].kind == Cookie && s.reqs[c].phase != Pending
    ensures s.reqs[c].data.Answer?
    ensures var u := s.reqs[c].data.cookie;
      && u in s.pledges && u in s.log.handleOf && s.log.handleOf[u] in s.log.origin
      && s.log.origin[s.log.handleOf[u]] in s.log.sender && s.log.sender[s.log.origin[s.log.handleOf[u]]] == c
      && (s.pledges[u].response.Some? ==>
            s.log.handleOf[u] in s.log.answered && s.log.answered[s.log.handleOf[u]] == s.pledges[u].response.value)
  {
    hide Inv;
    OneReq(s, c);
    OnePledge(s, s.reqs[c].data.cookie);
  }

  // ----- open_port and dup0 -----

  lemma OpenPortGives(s: State, n: nat)
    requires Inv(s)
    ensures DoOpenPort(s, n).result == Busy <==> n in s.uport
    ensures n in s.uport ==> DoOpenPort(s, n).st == s
    ensures n !in s.uport ==>
      var o := DoOpenPort(s, n);
      && o.result.Fd? && NewFd(s, o.st, o.result.fd, Port) && n in o.st.uport && o.st.uport[n] == o.result.fd
      && exists q :: Serves(o.st, o.result.fd, q) && Incoming(o.st, q) == []
  {
    hide Inv;
    NewIds(s);
    if n !in s.uport { assert Serves(OpenPort(s, n), s.next, s.next + 1); }
  }

  // The duplicate is established, and asks the same server through the same queue.
  lemma DupGives(s: State, fd: nat)
    requires Inv(s)
    ensures DoDup(s, fd).result == BadFd <==> !Mine(s, fd) || s.reqs[fd].kind != Client
    ensures DoDup(s, fd).result == Again <==> Unconnected(s, fd)
    ensures !DoDup(s, fd).result.Fd? ==> DoDup(s, fd).st == s
    ensures DoDup(s, fd).result.Fd? ==>
      var o := DoDup(s, fd);
      && NewFd(s, o.st, o.result.fd, Client) && o.st.reqs[o.result.fd].phase == Established
      && o.st.reqs[o.result.fd].data == s.reqs[fd].data && fd in o.st.reqs && o.st.reqs[fd] == s.reqs[fd]
  {
    hide Inv;
    NewIds(s);
    if Mine(s, fd) && s.reqs[fd].kind == Client && s.reqs[fd].phase == Established { OneReq(s, fd); }
  }

  // ----- availability -----

  // fds_check says yes exactly if the next call goes through: reading is popping for a
  // server's handles and collecting for a cookie; writing is asking for a connection and
  // responding for a server's cookie. Nothing else is ever available.
  lemma ReadyMeans(s: State, r: nat)
    requires Inv(s) && Mine(s, r)
    ensures s.reqs[r].kind in {Port, ServerConn} ==> (Available(s, r, true) <==> DoPop(s, r).result.Got?)
    ensures s.reqs[r].kind == Cookie ==> (Available(s, r, true) <==> DoGetResponse(s, r).result.Received?)
    ensures s.reqs[r].kind == Client ==> (Available(s, r, false) <==> !Unconnected(s, r))
    ensures s.reqs[r].kind == Client && Available(s, r, false) ==>
      forall payload :: DoRequest(s, r, payload).result.Fd?
    ensures s.reqs[r].kind == ServerCookie ==>
      Available(s, r, false) && forall answer :: DoRespond(s, r, answer).result == Responded
    ensures s.reqs[r].kind in {Client, ServerCookie} ==> !Available(s, r, true)
    ensures s.reqs[r].kind in {Port, ServerConn, Cookie} ==> !Available(s, r, false)
  {
    hide Inv, PopPort, PopConn, Ask, Respond, Collect, MsgOk;
    OneReq(s, r);
    match s.reqs[r].kind
    case Cookie => if s.reqs[r].phase == Established { OnePledge(s, s.reqs[r].data.cookie); }
    case ServerConn => OneConn(s, s.reqs[r].data.conn);
    case _ =>
  }

  // ----- what was sent stays -----

  // The log only grows: what it says of a message, a handle or a cookie it says for ever.
  predicate Grows(a: Log, b: Log) {
    && (forall m | m in a.text :: m in b.text && b.text[m] == a.text[m])
    && (forall m | m in a.sender :: m in b.sender && b.sender[m] == a.sender[m])
    && (forall m | m in a.became :: m in b.became && b.became[m] == a.became[m])
    && (forall h | h in a.answered :: h in b.answered && b.answered[h] == a.answered[h])
    && (forall c | c in a.collected :: c in b.collected && b.collected[c] == a.collected[c])
  }

  lemma GrowsOn(a: Log, b: Log, c: Log)
    requires Grows(a, b) && Grows(b, c)
    ensures Grows(a, c)
  {}

  lemma StepGrows(s: State, step: Step)
    requires Safe(s) && Legal(s, step)
    ensures Grows(s.log, Do(s, step).log)
  {
    hide Inv, WaitInv, Grows, DoOpenPort, DoConnect, DoPop, DoRequest, DoRespond, DoGetResponse, DoDup, Check, Schedule,
         SameObjects;
    GrowsSelf(s.log);
    match step
    case CallOpenPort(n) => OpenPortGrows(s, n);
    case CallConnect(n, payload) => ConnectGrows(s, n, payload);
    case CallPop(fd) => PopGrows(s, fd);
    case CallRequest(fd, payload) => RequestGrows(s, fd, payload);
    case CallRespond(fd, answer) => RespondGrows(s, fd, answer);
    case CallGetResponse(fd) => GetResponseGrows(s, fd);
    case CallDup(fd) => DupGrows(s, fd);
    case CallWaitOn(rset, wset) => MineKeys(s, rset); MineKeys(s, wset); CheckGrows(s, rset, wset);
    case Recheck => SetsOpen(s); CheckGrows(s, s.tasks[s.current].rset, s.tasks[s.current].wset);
    case Switch => SwitchSame(s); GivesSame(s, Schedule(s), 0);
  }

  lemma GrowsSelf(a: Log)
    ensures Grows(a, a)
  {}

  lemma OpenPortGrows(s: State, n: nat)
    requires Inv(s)
    ensures Grows(s.log, DoOpenPort(s, n).st.log)
  {
    hide Inv;
  }

  lemma SendGrows(l: Log, q: nat, m: nat, r: nat, payload: Option<Payload>)
    requires m !in l.text && m !in l.sender
    ensures Grows(l, SendLog(l, q, m, r, payload))
  {}

  lemma ConnectGrows(s: State, n: nat, payload: Option<Payload>)
    requires Inv(s)
    ensures Grows(s.log, DoConnect(s, n, payload).st.log)
  {
    hide Inv, Grows, SendLog, WakeReader, SameObjects;
    GrowsSelf(s.log);
    if n in s.uport {
      OnePort(s, n);
      NewIds(s);
      var q := s.reqs[s.uport[n]].data.queue;
      SendGrows(s.log, q, s.next + 1, s.next, payload);
      ReaderFrame(Connected(s, q, payload), s.uport[n]);
      GivesSame(Connected(s, q, payload), DoConnect(s, n, payload).st, 0);
    }
  }

  lemma RequestGrows(s: State, fd: nat, payload: Option<Payload>)
    requires Inv(s) && !Unconnected(s, fd)
    ensures Grows(s.log, DoRequest(s, fd, payload).st.log)
  {
    hide Inv, Grows, SendLog, WakeReader, SameObjects;
    GrowsSelf(s.log);
    if Mine(s, fd) && s.reqs[fd].kind == Client {
      OneReq(s, fd);
      NewIds(s);
      var p := s.reqs[fd].data.handle;
      var k := s.reqs[p].data.conn;
      SendGrows(s.log, k, s.next + 1, s.next, payload);
      ReaderFrame(Asked(s, k, payload), p);
      GivesSame(Asked(s, k, payload), DoRequest(s, fd, payload).st, 0);
    }
  }

  lemma PopLogGrows(l: Log, q: nat, m: nat, h: nat, x: nat)
    requires m !in l.became
    ensures Grows(l, ConnLog(l, q, m, h, x)) && Grows(l, PledgeLog(l, q, m, h, x))
  {}

  lemma PopGrows(s: State, fd: nat)
    requires Inv(s)
    ensures Grows(s.log, DoPop(s, fd).st.log)
  {
    hide Inv, Grows, ConnLog, PledgeLog, WakeWriter, SameObjects, MsgOk;
    GrowsSelf(s.log);
    PopAnswers(s, fd);
    if DoPop(s, fd).result.Got? {
      OneReq(s, fd);
      if s.reqs[fd].kind == Port {
        var q := s.reqs[fd].data.queue;
        HeadOk(s, q);
        OneMsg(s, s.ports[q][0]);
        NotBecome(s, s.ports[q][0]);
        PopLogGrows(s.log, q, s.ports[q][0], s.next, s.next + 1);
        WriterFrame(PortPopped(s, q), s.msgs[s.ports[q][0]].client);
        GivesSame(PortPopped(s, q), PopPort(s, q), 0);
      } else {
        var k := s.reqs[fd].data.conn;
        OneQueue(s, k);
        HeadOk(s, k);
        NotBecome(s, s.conns[k].incoming[0]);
        PopLogGrows(s.log, k, s.conns[k].incoming[0], s.next, s.next + 1);
        WriterFrame(ConnPopped(s, k), s.msgs[s.conns[k].incoming[0]].client);
        GivesSame(ConnPopped(s, k), PopConn(s, k), 0);
      }
    }
  }

  lemma NotBecome(s: State, m: nat)
    requires Inv(s) && m in s.msgs
    ensures m !in s.log.became
  {
    hide Inv;
    OneMsg(s, m);
  }

  lemma RespondGrows(s: State, fd: nat, answer: Payload)
    requires Inv(s)
    ensures Grows(s.log, DoRespond(s, fd, answer).st.log)
  {
    hide Inv, Grows, WakeReader, SameObjects;
    GrowsSelf(s.log);
    if Mine(s, fd) && s.reqs[fd].kind == ServerCookie {
      OneReq(s, fd);
      var u := s.reqs[fd].data.cookie;
      OnePledge(s, u);
      AnswerGrows(s, fd, u, answer);
      ReaderFrame(Answered(s, fd, u, answer), s.pledges[u].client);
      GivesSame(Answered(s, fd, u, answer), Respond(s, fd, u, answer), 0);
    }
  }

  lemma AnswerGrows(s: State, fd: nat, u: nat, answer: Payload)
    requires u in s.pledges && fd !in s.log.answered
    ensures Grows(s.log, Answered(s, fd, u, answer).log)
  {}

  lemma GetResponseGrows(s: State, fd: nat)
    requires Inv(s)
    ensures Grows(s.log, DoGetResponse(s, fd).st.log)
  {
    hide Inv, PledgeOk, ReqOk;
    if fd in s.reqs { OneReq(s, fd); }
  }

  lemma DupGrows(s: State, fd: nat)
    requires Inv(s)
    ensures Grows(s.log, DoDup(s, fd).st.log)
  {
    hide Inv, Grows;
    GrowsSelf(s.log);
  }

  lemma CheckGrows(s: State, rset: set<nat>, wset: set<nat>)
    requires rset <= s.reqs.Keys && wset <= s.reqs.Keys
    ensures Check(s, rset, wset).log == s.log
  {
    hide AnyReady;
  }

  lemma {:induction false} RunGrows(s: State, steps: seq<Step>)
    requires Safe(s) && LegalRun(s, steps)
    ensures Grows(s.log, Run(s, steps).log)
    decreases |steps|
  {
    hide Inv, WaitInv, Legal, Do, Grows;
    GrowsSelf(s.log);
    if steps != [] {
      StepSafe(s, steps[0]);
      StepGrows(s, steps[0]);
      RunGrows(Do(s, steps[0]), steps[1..]);
      GrowsOn(s.log, Do(s, steps[0]).log, Run(s, steps).log);
    }
  }

  // A buffer arrives as it was sent, however much happens in between: whoever pops the
  // message later is handed what the log said when it was sent, and the sender's task.
  lemma ArrivesAsSent(s: State, steps: seq<Step>, m: nat, fd: nat, q: nat)
    requires Safe(s) && LegalRun(s, steps) && m in s.log.text && m in s.log.sender
    requires var t := Run(s, steps); Mine(t, fd) && Serves(t, fd, q) && Incoming(t, q) != [] && Incoming(t, q)[0] == m
    ensures var t := Run(s, steps); var r := DoPop(t, fd).result;
      && r.Got? && r.payload == s.log.text[m]
      && s.log.sender[m] in t.reqs && r.pid == t.reqs[s.log.sender[m]].owner
  {
    hide Inv, WaitInv, DoPop;
    RunGrows(s, steps);
    PopGives(Run(s, steps), fd, q);
  }

  // So does an answer: what a client receives in the end is what respond() was given for
  // the handle of its message.
  lemma AnswerArrives(s: State, steps: seq<Step>, m: nat, h: nat, c: nat)
    requires Safe(s) && LegalRun(s, steps) && m in s.log.sender && s.log.sender[m] == c
    requires m in s.log.became && s.log.became[m] == h && h in s.log.answered
    requires DoGetResponse(Run(s, steps), c).result.Received?
    ensures DoGetResponse(Run(s, steps), c).result.answer == s.log.answered[h]
  {
    hide WaitInv, Fresh, Objects, Queues, DoGetResponse;
    RunGrows(s, steps);
    var m', h' := ReceivedIs(Run(s, steps), c);
  }
}
