// The system calls on ports as the kernel runs them, with nothing coming in between.
module IpcKernel {
  import opened IpcState
  import opened IpcInvariant
  import opened IpcRuns

  class Ipc {
    var reqs: map<nat, Request>
    var uport: map<nat, nat>
    var ports: map<nat, seq<nat>>
    var conns: map<nat, Conn>
    var pledges: map<nat, Pledge>
    var msgs: map<nat, Message>
    var tasks: map<nat, Task>
    var runq: seq<nat>
    var current: nat
    var next: nat
    const idle: nat
    ghost var log: Log

    ghost function St(): State
      reads this
    {
      State(reqs, uport, ports, conns, pledges, msgs, tasks, runq, current, idle, next, log)
    }

    method WakeUp(t: nat)
      modifies this`tasks, this`runq
      ensures St() == Wake(old(St()), t)
    {
      if t in tasks && tasks[t].status == Waiting {
        tasks := tasks[t := tasks[t].(status := Runnable)];
        runq := [t] + runq;
      }
    }

    // if (req->waited_rw & 1) wake_up(req->owner)
    method TellReader(r: nat)
      modifies this`tasks, this`runq
      ensures St() == WakeReader(old(St()), r)
    {
      hide Wake;
      if r in reqs && reqs[r].rd {
        WakeUp(reqs[r].owner);
      }
    }

    // if (req->waited_rw & 2) wake_up(req->owner)
    method TellWriter(r: nat)
      modifies this`tasks, this`runq
      ensures St() == WakeWriter(old(St()), r)
    {
      hide Wake;
      if r in reqs && reqs[r].wr {
        WakeUp(reqs[r].owner);
      }
    }

    // open_port
    method OpenPort(n: nat) returns (r: Result)
      modifies this
      ensures Outcome(St(), r) == DoOpenPort(old(St()), n)
    {
      if n in uport {
        return Busy;
      }
      var fd, queue := next, next + 1;
      next := next + 2;
      reqs := reqs[fd := Request(Port, Server, PortQueue(queue), current, false, false)];
      uport := uport[n := fd];
      ports := ports[queue := []];
      log := log.(sent := log.sent[queue := []], popped := log.popped[queue := []],
        handleOf := log.handleOf[queue := fd]);
      return Fd(fd);
    }

    // port_connect and uport_connect
    method Connect(n: nat, payload: Option<Payload>) returns (r: Result)
      requires Inv(St())
      modifies this
      ensures Outcome(St(), r) == DoConnect(old(St()), n, payload)
    {
      ghost var s := St();
      hide Inv, SendLog, WakeReader;
      if n !in uport {
        return NoPort;
      }
      OnePort(s, n);
      IdsBelow(s);
      OneReq(s, uport[n]);
      var fd, msg := next, next + 1;
      next := next + 2;
      reqs := reqs[fd := Request(Client, Pending, Null, current, false, false)];
      msgs := msgs[msg := Message(payload, fd)];
      var port := uport[n];
      var queue := reqs[port].data.queue;
      ports := ports[queue := ports[queue] + [msg]];
      log := SendLog(log, queue, msg, fd, payload);
      assert St() == Connected(s, queue, payload);
      TellReader(port);
      return Fd(fd);
    }

    // pop_request
    method PopRequest(rd: nat) returns (r: Result)
      requires Inv(St())
      modifies this
      ensures Outcome(St(), r) == DoPop(old(St()), rd)
    {
      hide Inv, PopPort, PopConn, MsgOk;
      if rd !in reqs || reqs[rd].owner != current || reqs[rd].kind !in {Port, ServerConn} {
        return BadFd;
      }
      OneReq(St(), rd);
      if reqs[rd].kind == Port {
        var queue := reqs[rd].data.queue;
        if ports[queue] == [] {
          return Again;
        }
        r := TakeConnection(queue);
      } else {
        var conn := reqs[rd].data.conn;
        if conns[conn].incoming == [] {
          if conns[conn].clients == {} {
            return AllGone;
          }
          return Again;
        }
        OneQueue(St(), conn);
        r := TakeQuestion(conn);
      }
    }

    // The first message of a port: its client is connected.
    method TakeConnection(queue: nat) returns (r: Result)
      requires Inv(St()) && queue in ports && ports[queue] != []
      modifies this
      ensures Outcome(St(), r) == DoPopPort(old(St()), queue)
    {
      ghost var s := St();
      hide Inv, ConnLog, PledgeLog, WakeWriter, MsgOk, Head, PortPopped;
      HeadOk(s, queue);
      HeadIs(s, queue, ports[queue][0]);
      IdsBelow(s);
      PortPoppedIs(s, queue, ports[queue][0], s.msgs[ports[queue][0]].client);
      var msg := ports[queue][0];
      var fd, conn := next, next + 1;
      next := next + 2;
      var creq, payload := msgs[msg].client, msgs[msg].payload;
      var pid := reqs[creq].owner;
      ports := ports[queue := ports[queue][1..]];
      msgs := msgs - {msg};
      conns := conns[conn := Conn({creq}, [])];
      reqs := reqs[fd := Request(ServerConn, Server, ConnQueue(conn), current, false, false)];
      reqs := reqs[creq := reqs[creq].(data := Peer(fd), phase := Established)];
      assert creq != fd;
      assert reqs == s.reqs[s.next := Request(ServerConn, Server, ConnQueue(s.next + 1), s.current, false, false)]
                           [creq := s.reqs[creq].(data := Peer(s.next), phase := Established)];
      log := ConnLog(log, queue, msg, fd, conn);
      assert St() == PortPopped(s, queue);
      TellWriter(creq);
      return Got(fd, payload, pid);
    }

    // The first message of a connection: its cookie gets a pledge.
    method TakeQuestion(conn: nat) returns (r: Result)
      requires Inv(St()) && conn in conns && conns[conn].incoming != [] && conn !in ports
      modifies this
      ensures Outcome(St(), r) == DoPopConn(old(St()), conn)
    {
      ghost var s := St();
      hide Inv, ConnLog, PledgeLog, WakeWriter, MsgOk;
      HeadOk(s, conn);
      HeadIs(s, conn, conns[conn].incoming[0]);
      IdsBelow(s);
      var msg := conns[conn].incoming[0];
      var fd, cookie := next, next + 1;
      next := next + 2;
      var creq, payload := msgs[msg].client, msgs[msg].payload;
      var pid := reqs[creq].owner;
      conns := conns[conn := Conn(conns[conn].clients, conns[conn].incoming[1..])];
      msgs := msgs - {msg};
      pledges := pledges[cookie := Pledge(creq, None, current)];
      reqs := reqs[fd := Request(ServerCookie, Server, Answer(cookie), current, false, false)];
      reqs := reqs[creq := reqs[creq].(data := Answer(cookie), phase := Established)];
      log := PledgeLog(log, conn, msg, fd, cookie);
      assert St() == ConnPopped(s, conn);
      TellWriter(creq);
      return Got(fd, payload, pid);
    }

    // The cookie of a question and its message, which waits in the connection's queue
    method NewCookie(conn: nat, payload: Option<Payload>) returns (fd: nat)
      requires conn in conns
      modifies this
      ensures St() == Asked(old(St()), conn, payload) && fd == old(next)
    {
      ghost var s := St();
      hide SendLog, Asked;
      var msg := next + 1;
      fd := next;
      next := next + 2;
      reqs := reqs[fd := Request(Cookie, Pending, Msg(msg), current, false, false)];
      msgs := msgs[msg := Message(payload, fd)];
      conns := conns[conn := Conn(conns[conn].clients, conns[conn].incoming + [msg])];
      log := SendLog(log, conn, msg, fd, payload);
      AskedIs(s, conn, payload);
    }

    // request and uport_request
    method Ask(rd: nat, payload: Option<Payload>) returns (r: Result)
      requires Inv(St())
      modifies this
      ensures r == FreedInUse <==> Unconnected(old(St()), rd)
      ensures !Unconnected(old(St()), rd) ==> Outcome(St(), r) == DoRequest(old(St()), rd, payload)
    {
      ghost var s := St();
      hide Inv, SendLog, WakeReader, Asked;
      if rd !in reqs || reqs[rd].owner != current || reqs[rd].kind != Client {
        return BadFd;
      }
      if reqs[rd].phase != Established {
        return FreedInUse;
      }
      OneReq(s, rd);
      var sreq := reqs[rd].data.handle;
      OneReq(s, sreq);
      var fd := NewCookie(reqs[sreq].data.conn, payload);
      TellReader(sreq);
      return Fd(fd);
    }

    // respond: its return value is not part of the claim
    method Respond(fd: nat, answer: Payload) returns (r: Result)
      requires Inv(St())
      modifies this
      ensures Outcome(St(), r) == DoRespond(old(St()), fd, answer)
    {
      ghost var s := St();
      hide Inv, WakeReader;
      if fd !in reqs || reqs[fd].owner != current || reqs[fd].kind != ServerCookie {
        return BadFd;
      }
      OneReq(s, fd);
      var cookie := reqs[fd].data.cookie;
      OnePledge(s, cookie);
      reqs := reqs - {fd};
      pledges := pledges[cookie := pledges[cookie].(response := Some(answer))];
      log := log.(answered := log.answered[fd := answer]);
      var client := pledges[cookie].client;
      assert St() == Answered(s, fd, cookie, answer);
      TellReader(client);
      return Responded;
    }

    // get_response and uport_get_response
    method GetResponse(cookie: nat) returns (r: Result)
      requires Inv(St())
      modifies this
      ensures Outcome(St(), r) == DoGetResponse(old(St()), cookie)
    {
      hide Inv;
      if cookie !in reqs || reqs[cookie].owner != current || reqs[cookie].kind != Cookie {
        return BadFd;
      }
      if reqs[cookie].phase == Pending {
        return Again;
      }
      OneReq(St(), cookie);
      var pledge := reqs[cookie].data.cookie;
      OnePledge(St(), pledge);
      if pledges[pledge].response == None {
        return Again;
      }
      var answer := pledges[pledge].response.value;
      log := log.(collected := log.collected[cookie := log.handleOf[pledge]], got := log.got[cookie := answer]);
      pledges := pledges - {pledge};
      reqs := reqs - {cookie};
      return Received(answer);
    }

    // dup0 and uport_dup
    method Dup(old_fd: nat) returns (r: Result)
      requires Inv(St())
      modifies this
      ensures Outcome(St(), r) == DoDup(old(St()), old_fd)
    {
      hide Inv;
      if old_fd !in reqs || reqs[old_fd].owner != current || reqs[old_fd].kind != Client {
        return BadFd;
      }
      if reqs[old_fd].phase != Established {
        return Again;
      }
      OneReq(St(), old_fd);
      var conn := reqs[reqs[old_fd].data.handle].data.conn;
      var fd := next;
      next := next + 1;
      reqs := reqs[fd := Request(Client, reqs[old_fd].phase, reqs[old_fd].data, current, false, false)];
      conns := conns[conn := Conn(conns[conn].clients + {fd}, conns[conn].incoming)];
      return Fd(fd);
    }

    // fds_check: which descriptors are available; the bit is set on all of them
    method FdsCheck(reading: bool, fds: set<nat>) returns (ready: set<nat>)
      requires fds <= reqs.Keys
      modifies this`reqs
      ensures ready == ReadySet(old(St()), fds, reading)
      ensures reqs == MarkSome(old(reqs), fds, reading)
    {
      hide MarkSome, ReadySet, IsReady;
      ghost var s := St();
      ready := {};
      var todo := fds;
      NoneMarked(s, reading);
      assert fds - todo == {};
      while todo != {}
        invariant todo <= fds && ready == ReadySet(s, fds - todo, reading)
        invariant reqs == MarkSome(s.reqs, fds - todo, reading)
        decreases |todo|
      {
        var i :| i in todo;
        assert fds - (todo - {i}) == fds - todo + {i};
        OneMarked(s, fds - todo, i, reading);
        AvailableBits(s, St(), i, reading);
        if IsReady(reqs[i], ports, conns, pledges, reading) {
          ready := ready + {i};
        }
        if reading {
          reqs := reqs[i := reqs[i].(rd := true)];
        } else {
          reqs := reqs[i := reqs[i].(wr := true)];
        }
        todo := todo - {i};
      }
      assert fds - todo == fds;
    }

    // waited_rw = 0 on all descriptors of both sets
    method ClearBits(fds: set<nat>)
      requires fds <= reqs.Keys
      modifies this`reqs
      ensures reqs == Unmarked(old(reqs), fds, {})
    {
      ghost var was := reqs;
      var todo := fds;
      while todo != {}
        invariant todo <= fds && reqs.Keys == was.Keys
        invariant forall r | r in reqs ::
          reqs[r] == was[r].(rd := was[r].rd && r !in fds - todo, wr := was[r].wr && r !in fds - todo)
        decreases |todo|
      {
        var i :| i in todo;
        reqs := reqs[i := reqs[i].(rd := false, wr := false)];
        todo := todo - {i};
      }
      assert reqs == Unmarked(was, fds, {});
    }

    // Both checks, read then write
    method CheckBoth(rset: set<nat>, wset: set<nat>) returns (rready: set<nat>, wready: set<nat>)
      requires rset <= reqs.Keys && wset <= reqs.Keys
      modifies this`reqs
      ensures reqs == Marked(old(reqs), rset, wset)
      ensures rready == ReadySet(old(St()), rset, true) && wready == ReadySet(old(St()), wset, false)
      ensures rready != {} || wready != {} <==> AnyReady(old(St()), rset, wset)
    {
      hide IsReady, Marked, MarkSome, ReadySet, AnyReady;
      ghost var s := St();
      OneMarkedKeys(s.reqs, rset, true);
      rready := FdsCheck(true, rset);
      ghost var t := St();
      wready := FdsCheck(false, wset);
      SameReady(s, t, rset, wset);
      MarkBoth(s.reqs, rset, wset);
    }

    // wait_on, one turn of its loop: what is available, or else the caller goes to sleep.
    // The caller then calls Schedule and, once it runs again, takes the next turn.
    method WaitOn(rset: set<nat>, wset: set<nat>) returns (rready: set<nat>, wready: set<nat>)
      requires rset <= reqs.Keys && wset <= reqs.Keys
      modifies this`reqs, this`tasks
      ensures St() == Check(old(St()), rset, wset)
      ensures rready == ReadySet(old(St()), rset, true) && wready == ReadySet(old(St()), wset, false)
    {
      hide IsReady, Marked, Unmarked, MarkSome, ReadySet, AnyReady, Check;
      ghost var s := St();
      CheckIs(s, rset, wset);
      rready, wready := CheckBoth(rset, wset);
      if rready != {} || wready != {} {
        tasks := tasks[current := Task(Running, false, {}, {})];
        MarkedKeys(s.reqs, rset, wset);
        UnmarkedKeys(reqs, rset);
        ClearBits(rset);
        ClearBits(wset);
        UnmarkBoth(s.reqs, rset, wset);
      } else {
        tasks := tasks[current := Task(Waiting, true, rset, wset)];
      }
    }

    // schedule, up to the point where the next task has control
    method Schedule()
      modifies this`tasks, this`runq, this`current
      ensures St() == IpcState.Schedule(old(St()))
    {
      if current in tasks && tasks[current].status == Running {
        tasks := tasks[current := tasks[current].(status := Runnable)];
        runq := runq + [current];
      }
      if runq != [] {
        current := runq[0];
        runq := runq[1..];
      } else {
        current := idle;
      }
      if current in tasks {
        tasks := tasks[current := tasks[current].(status := Running)];
      }
    }
  }

  function ReadySet(s: State, fds: set<nat>, reading: bool): set<nat> {
    set r | r in fds && r in s.reqs && Available(s, r, reading)
  }

  function MarkSome(reqs: map<nat, Request>, fds: set<nat>, reading: bool): map<nat, Request> {
    if reading then Marked(reqs, fds, {}) else Marked(reqs, {}, fds)
  }

  lemma NoneMarked(s: State, reading: bool)
    ensures ReadySet(s, {}, reading) == {} && MarkSome(s.reqs, {}, reading) == s.reqs
  {
    assert Marked(s.reqs, {}, {}) == s.reqs;
  }

  lemma OneMarkedKeys(reqs: map<nat, Request>, fds: set<nat>, reading: bool)
    ensures MarkSome(reqs, fds, reading).Keys == reqs.Keys
  {}

  lemma UnmarkedKeys(reqs: map<nat, Request>, fds: set<nat>)
    ensures Unmarked(reqs, fds, {}).Keys == reqs.Keys
  {}

  lemma OneMarked(s: State, done: set<nat>, i: nat, reading: bool)
    requires i in s.reqs
    ensures i in MarkSome(s.reqs, done, reading) && SameReq(s.reqs[i], MarkSome(s.reqs, done, reading)[i])
    ensures var m := MarkSome(s.reqs, done, reading);
      && (reading ==> MarkSome(s.reqs, done + {i}, reading) == m[i := m[i].(rd := true)])
      && (!reading ==> MarkSome(s.reqs, done + {i}, reading) == m[i := m[i].(wr := true)])
    ensures Available(s, i, reading) ==> ReadySet(s, done + {i}, reading) == ReadySet(s, done, reading) + {i}
    ensures !Available(s, i, reading) ==> ReadySet(s, done + {i}, reading) == ReadySet(s, done, reading)
  {
    hide IsReady;
  }

  lemma MarkBoth(reqs: map<nat, Request>, rset: set<nat>, wset: set<nat>)
    ensures MarkSome(MarkSome(reqs, rset, true), wset, false) == Marked(reqs, rset, wset)
  {}

  lemma CheckIs(s: State, rset: set<nat>, wset: set<nat>)
    requires rset <= s.reqs.Keys && wset <= s.reqs.Keys
    ensures Check(s, rset, wset) ==
      var ready := AnyReady(s, rset, wset);
      var task := if ready then Task(Running, false, {}, {}) else Task(Waiting, true, rset, wset);
      State(if ready then Unmarked(s.reqs, rset, wset) else Marked(s.reqs, rset, wset),
            s.uport, s.ports, s.conns, s.pledges, s.msgs, s.tasks[s.current := task], s.runq,
            s.current, s.idle, s.next, s.log)
  {
    hide AnyReady, Marked, Unmarked;
  }

  lemma AskedIs(s: State, k: nat, payload: Option<Payload>)
    requires k in s.conns
    ensures Asked(s, k, payload) ==
      State(s.reqs[s.next := Request(Cookie, Pending, Msg(s.next + 1), s.current, false, false)],
            s.uport, s.ports, s.conns[k := Conn(s.conns[k].clients, s.conns[k].incoming + [s.next + 1])], s.pledges,
            s.msgs[s.next + 1 := Message(payload, s.next)], s.tasks, s.runq, s.current, s.idle, s.next + 2,
            SendLog(s.log, k, s.next + 1, s.next, payload))
  {
    hide SendLog;
  }

  lemma PortPoppedIs(s: State, q: nat, m: nat, c: nat)
    requires q in s.ports && s.ports[q] != [] && m == s.ports[q][0] && m in s.msgs && c == s.msgs[m].client
      && c in s.reqs
    ensures PortPopped(s, q) ==
      State(s.reqs[s.next := Request(ServerConn, Server, ConnQueue(s.next + 1), s.current, false, false)]
                  [c := s.reqs[c].(data := Peer(s.next), phase := Established)],
            s.uport, s.ports[q := s.ports[q][1..]], s.conns[s.next + 1 := Conn({c}, [])], s.pledges, s.msgs - {m},
            s.tasks, s.runq, s.current, s.idle, s.next + 2, ConnLog(s.log, q, m, s.next, s.next + 1))
  {
    hide ConnLog;
  }

  lemma MarkedKeys(reqs: map<nat, Request>, rset: set<nat>, wset: set<nat>)
    ensures Marked(reqs, rset, wset).Keys == reqs.Keys
  {}

  lemma UnmarkBoth(reqs: map<nat, Request>, rset: set<nat>, wset: set<nat>)
    ensures Unmarked(Unmarked(Marked(reqs, rset, wset), rset, {}), wset, {}) == Unmarked(reqs, rset, wset)
  {}

  // The first check only sets bits, so the second one and AnyReady see the same.
  lemma SameReady(s: State, t: State, rset: set<nat>, wset: set<nat>)
    requires rset <= s.reqs.Keys && wset <= s.reqs.Keys && t == s.(reqs := MarkSome(s.reqs, rset, true))
    ensures ReadySet(t, wset, false) == ReadySet(s, wset, false)
    ensures AnyReady(s, rset, wset) <==> ReadySet(s, rset, true) != {} || ReadySet(s, wset, false) != {}
  {
    hide IsReady;
    forall r | r in wset ensures r in t.reqs && Available(t, r, false) == Available(s, r, false) {
      AvailableBits(s, t, r, false);
    }
    forall x | x in rset && Available(s, x, true) ensures x in ReadySet(s, rset, true) {}
    forall x | x in wset && Available(s, x, false) ensures x in ReadySet(s, wset, false) {}
  }

  // Availability does not depend on the bits.
  lemma AvailableBits(s: State, t: State, r: nat, reading: bool)
    requires r in s.reqs && r in t.reqs && SameReq(s.reqs[r], t.reqs[r])
    requires t.ports == s.ports && t.conns == s.conns && t.pledges == s.pledges
    ensures Available(t, r, reading) == Available(s, r, reading)
  {}
}
