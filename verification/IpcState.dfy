// Ports, connections and cookies of sys/ipc/uport.c and sys/ipc/port.c, and whoever
// waits on them: the kernel's state and what each system call does to it.
module IpcState {
  datatype Option<T> = None | Some(value: T)

  // enum req_type: REQ_COOKIE, REQ_REQUEST, REQ_PORT, REQ_PORT_REQ, REQ_PORT_COOKIE
  datatype Kind = Cookie | Client | Port | ServerConn | ServerCookie

  // enum req_state; the server's own handles do not use it
  datatype Phase = Server | Pending | Established | Closed

  // What req->data points to
  datatype Data =
    | Null | Msg(msg: nat) | Peer(handle: nat) | PortQueue(queue: nat) | ConnQueue(conn: nat) | Answer(cookie: nat)

  // struct request, in the descriptor table of its owner. `rd` and `wr` are the bits of
  // waited_rw.
  datatype Request = Request(kind: Kind, phase: Phase, data: Data, owner: nat, rd: bool, wr: bool)

  type Payload = seq<nat>

  // struct message
  datatype Message = Message(payload: Option<Payload>, client: nat)

  // struct uport_req
  datatype Conn = Conn(clients: set<nat>, incoming: seq<nat>)

  // struct uport_cookie
  datatype Pledge = Pledge(client: nat, response: Option<Payload>, owner: nat)

  datatype Status = Running | Runnable | Waiting

  // A task; inside wait_on it awaits reading of `rset` and writing of `wset`.
  datatype Task = Task(status: Status, inWait: bool, rset: set<nat>, wset: set<nat>)

  // What has happened so far, for stating what it means to be answered: the messages sent
  // to and popped from each queue; who sent a message, where and with what; the handle a
  // popped message became; the handle of a queue or pledge; the answers; the handle whose
  // answer a cookie collected, and what it got.
  datatype Log = Log(
    sent: map<nat, seq<nat>>, popped: map<nat, seq<nat>>,
    sender: map<nat, nat>, place: map<nat, nat>, text: map<nat, Option<Payload>>,
    became: map<nat, nat>, origin: map<nat, nat>, handleOf: map<nat, nat>,
    answered: map<nat, Payload>, collected: map<nat, nat>, got: map<nat, Payload>)

  // Handles, messages, queues and pledges are named by numbers from one supply.
  datatype State = State(
    reqs: map<nat, Request>,
    uport: map<nat, nat>,              // uport[]: the handle of an open port
    ports: map<nat, seq<nat>>,         // struct uport: the incoming messages
    conns: map<nat, Conn>,
    pledges: map<nat, Pledge>,
    msgs: map<nat, Message>,
    tasks: map<nat, Task>,
    runq: seq<nat>,
    current: nat,
    idle: nat,
    next: nat,
    log: Log)

  // ----- wake_up -----

  function Wake(s: State, t: nat): State {
    if t in s.tasks && s.tasks[t].status == Waiting then
      s.(tasks := s.tasks[t := s.tasks[t].(status := Runnable)], runq := [t] + s.runq)
    else s
  }

  // if (req->waited_rw & 1) wake_up(req->owner)
  function WakeReader(s: State, r: nat): State {
    if r in s.reqs && s.reqs[r].rd then Wake(s, s.reqs[r].owner) else s
  }

  // if (req->waited_rw & 2) wake_up(req->owner)
  function WakeWriter(s: State, r: nat): State {
    if r in s.reqs && s.reqs[r].wr then Wake(s, s.reqs[r].owner) else s
  }

  // ----- the system calls -----

  // open_port
  function OpenPort(s: State, n: nat): State {
    s.(reqs := s.reqs[s.next := Request(Port, Server, PortQueue(s.next + 1), s.current, false, false)],
       ports := s.ports[s.next + 1 := []],
       uport := s.uport[n := s.next],
       next := s.next + 2,
       log := s.log.(sent := s.log.sent[s.next + 1 := []], popped := s.log.popped[s.next + 1 := []],
                     handleOf := s.log.handleOf[s.next + 1 := s.next]))
  }

  function SendLog(l: Log, q: nat, m: nat, r: nat, payload: Option<Payload>): Log {
    l.(sent := l.sent[q := (if q in l.sent then l.sent[q] else []) + [m]],
       sender := l.sender[m := r], place := l.place[m := q], text := l.text[m := payload])
  }

  function PopLog(l: Log, q: nat, m: nat, h: nat): Log {
    l.(popped := l.popped[q := (if q in l.popped then l.popped[q] else []) + [m]],
       became := l.became[m := h], origin := l.origin[h := m])
  }

  // The message became a connection, with an empty queue k.
  function ConnLog(l: Log, q: nat, m: nat, h: nat, k: nat): Log {
    PopLog(l, q, m, h).(sent := l.sent[k := []], popped := PopLog(l, q, m, h).popped[k := []],
      handleOf := l.handleOf[k := h])
  }

  // The message became a pledge.
  function PledgeLog(l: Log, k: nat, m: nat, h: nat, u: nat): Log {
    PopLog(l, k, m, h).(handleOf := l.handleOf[u := h])
  }

  // port_connect and uport_connect, to the port whose handle is p with queue q
  function Connected(s: State, q: nat, payload: Option<Payload>): State
    requires q in s.ports
  {
    var r, m := s.next, s.next + 1;
    s.(reqs := s.reqs[r := Request(Client, Pending, Null, s.current, false, false)],
       msgs := s.msgs[m := Message(payload, r)],
       ports := s.ports[q := s.ports[q] + [m]],
       next := s.next + 2,
       log := SendLog(s.log, q, m, r, payload))
  }

  function Connect(s: State, p: nat, q: nat, payload: Option<Payload>): State
    requires q in s.ports
  {
    WakeReader(Connected(s, q, payload), p)
  }

  // pop_request on a port: the client is connected, through a new handle and queue
  function PortPopped(s: State, q: nat): State
    requires q in s.ports && s.ports[q] != [] && s.ports[q][0] in s.msgs && s.msgs[s.ports[q][0]].client in s.reqs
  {
    var m := s.ports[q][0];
    var c := s.msgs[m].client;
    var h, k := s.next, s.next + 1;
    s.(reqs := s.reqs[h := Request(ServerConn, Server, ConnQueue(k), s.current, false, false)]
                     [c := s.reqs[c].(data := Peer(h), phase := Established)],
       conns := s.conns[k := Conn({c}, [])],
       ports := s.ports[q := s.ports[q][1..]],
       msgs := s.msgs - {m},
       next := s.next + 2,
       log := ConnLog(s.log, q, m, h, k))
  }

  function PopPort(s: State, q: nat): State
    requires q in s.ports && s.ports[q] != [] && s.ports[q][0] in s.msgs && s.msgs[s.ports[q][0]].client in s.reqs
  {
    WakeWriter(PortPopped(s, q), s.msgs[s.ports[q][0]].client)
  }

  // pop_request on a connection: the cookie gets a pledge, through a new handle
  function ConnPopped(s: State, k: nat): State
    requires k in s.conns && s.conns[k].incoming != []
    requires s.conns[k].incoming[0] in s.msgs && s.msgs[s.conns[k].incoming[0]].client in s.reqs
  {
    var m := s.conns[k].incoming[0];
    var c := s.msgs[m].client;
    var h, u := s.next, s.next + 1;
    s.(reqs := s.reqs[h := Request(ServerCookie, Server, Answer(u), s.current, false, false)]
                     [c := s.reqs[c].(data := Answer(u), phase := Established)],
       pledges := s.pledges[u := Pledge(c, None, s.current)],
       conns := s.conns[k := Conn(s.conns[k].clients, s.conns[k].incoming[1..])],
       msgs := s.msgs - {m},
       next := s.next + 2,
       log := PledgeLog(s.log, k, m, h, u))
  }

  function PopConn(s: State, k: nat): State
    requires k in s.conns && s.conns[k].incoming != []
    requires s.conns[k].incoming[0] in s.msgs && s.msgs[s.conns[k].incoming[0]].client in s.reqs
  {
    WakeWriter(ConnPopped(s, k), s.msgs[s.conns[k].incoming[0]].client)
  }

  // request and uport_request on an established connection with server handle p, queue k
  function Asked(s: State, k: nat, payload: Option<Payload>): State
    requires k in s.conns
  {
    var c, m := s.next, s.next + 1;
    s.(reqs := s.reqs[c := Request(Cookie, Pending, Msg(m), s.current, false, false)],
       msgs := s.msgs[m := Message(payload, c)],
       conns := s.conns[k := Conn(s.conns[k].clients, s.conns[k].incoming + [m])],
       next := s.next + 2,
       log := SendLog(s.log, k, m, c, payload))
  }

  function Ask(s: State, p: nat, k: nat, payload: Option<Payload>): State
    requires k in s.conns
  {
    WakeReader(Asked(s, k, payload), p)
  }

  // respond
  function Answered(s: State, h: nat, u: nat, payload: Payload): State
    requires u in s.pledges
  {
    s.(pledges := s.pledges[u := s.pledges[u].(response := Some(payload))],
       reqs := s.reqs - {h},
       log := s.log.(answered := s.log.answered[h := payload]))
  }

  function Respond(s: State, h: nat, u: nat, payload: Payload): State
    requires u in s.pledges
  {
    WakeReader(Answered(s, h, u, payload), s.pledges[u].client)
  }

  // get_response
  function Collect(s: State, c: nat, u: nat): State
    requires u in s.pledges && s.pledges[u].response.Some? && u in s.log.handleOf
  {
    s.(reqs := s.reqs - {c},
       pledges := s.pledges - {u},
       log := s.log.(collected := s.log.collected[c := s.log.handleOf[u]],
         got := s.log.got[c := s.pledges[u].response.value]))
  }

  // dup0 and uport_dup of an established connection
  function Dup(s: State, r: nat, k: nat): State
    requires r in s.reqs && k in s.conns
  {
    s.(reqs := s.reqs[s.next := Request(Client, s.reqs[r].phase, s.reqs[r].data, s.current, false, false)],
       conns := s.conns[k := Conn(s.conns[k].clients + {s.next}, s.conns[k].incoming)],
       next := s.next + 1)
  }

  // ----- wait_on -----

  // uport_user_available and uport_server_available; `reading` is rw == 1
  predicate IsReady(q: Request, ports: map<nat, seq<nat>>, conns: map<nat, Conn>, pledges: map<nat, Pledge>,
      reading: bool)
  {
    match q.kind
    case Client => q.phase == Closed || (!reading && q.phase == Established)
    case Cookie =>
      q.phase == Closed || (reading && q.phase == Established && q.data.Answer? && q.data.cookie in pledges
                            && pledges[q.data.cookie].response.Some?)
    case Port => reading && q.data.PortQueue? && q.data.queue in ports && ports[q.data.queue] != []
    case ServerConn => reading && q.data.ConnQueue? && q.data.conn in conns && conns[q.data.conn].incoming != []
    case ServerCookie => !reading
  }

  predicate Available(s: State, r: nat, reading: bool)
    requires r in s.reqs
  {
    IsReady(s.reqs[r], s.ports, s.conns, s.pledges, reading)
  }

  predicate AnyReady(s: State, rset: set<nat>, wset: set<nat>)
    requires rset <= s.reqs.Keys && wset <= s.reqs.Keys
  {
    (exists r | r in rset :: Available(s, r, true)) || (exists r | r in wset :: Available(s, r, false))
  }

  // req->waited_rw |= 1 for all of rset, |= 2 for all of wset
  function Marked(reqs: map<nat, Request>, rset: set<nat>, wset: set<nat>): map<nat, Request> {
    map r | r in reqs ::
      Request(reqs[r].kind, reqs[r].phase, reqs[r].data, reqs[r].owner,
              reqs[r].rd || r in rset, reqs[r].wr || r in wset)
  }

  // req->waited_rw = 0 for all of both
  function Unmarked(reqs: map<nat, Request>, rset: set<nat>, wset: set<nat>): map<nat, Request> {
    map r | r in reqs :: Request(reqs[r].kind, reqs[r].phase, reqs[r].data, reqs[r].owner,
                                 reqs[r].rd && r !in rset && r !in wset, reqs[r].wr && r !in rset && r !in wset)
  }

  // One turn of the loop of wait_on
  function Check(s: State, rset: set<nat>, wset: set<nat>): State
    requires rset <= s.reqs.Keys && wset <= s.reqs.Keys
  {
    if AnyReady(s, rset, wset) then
      s.(reqs := Unmarked(s.reqs, rset, wset), tasks := s.tasks[s.current := Task(Running, false, {}, {})])
    else
      s.(reqs := Marked(s.reqs, rset, wset), tasks := s.tasks[s.current := Task(Waiting, true, rset, wset)])
  }

  // schedule: the current task goes to the back of the queue if it can run, and the first
  // in the queue takes over
  function Preempted(s: State): State {
    if s.current in s.tasks && s.tasks[s.current].status == Running then
      s.(tasks := s.tasks[s.current := s.tasks[s.current].(status := Runnable)], runq := s.runq + [s.current])
    else s
  }

  function First(q: seq<nat>, idle: nat): nat {
    if q == [] then idle else q[0]
  }

  function Rest(q: seq<nat>): seq<nat> {
    if q == [] then [] else q[1..]
  }

  function TakeNext(s: State): State {
    s.(current := First(s.runq, s.idle), runq := Rest(s.runq))
  }

  // after_switch
  function Resumed(s: State): State {
    if s.current in s.tasks then s.(tasks := s.tasks[s.current := s.tasks[s.current].(status := Running)]) else s
  }

  function Schedule(s: State): State {
    Resumed(TakeNext(Preempted(s)))
  }
}
