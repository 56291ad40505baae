// Whose turn it is: every task in the run queue gets the processor, after as many switches
// as there are tasks before it and wakeups that put more of them there.
module IpcTurns {
  import opened IpcState
  import opened IpcInvariant
  import opened IpcRuns
  import opened IpcWaits
  import opened IpcTheorems

  // The first in the queue takes over, and a running task comes after all that were queued.
  lemma RoundRobin(s: State)
    requires RunQueue(s)
    ensures var all := if s.tasks[s.current].status == Running then s.runq + [s.current] else s.runq;
      all != [] && Schedule(s).current == all[0] && Schedule(s).runq == all[1..]
  {
    PreemptQueue(s);
  }

  // A step other than a switch leaves the queue as it is, or a task that waited goes to its
  // front.
  ghost predicate OnlyPushes(s: State, t: State) {
    t.runq == s.runq || exists u :: t.runq == [u] + s.runq && u !in s.runq
  }

  lemma StepPushes(s: State, step: Step)
    requires Safe(s) && Legal(s, step) && step != Switch
    ensures OnlyPushes(s, Do(s, step))
  {
    hide Inv, WaitInv, OnlyPushes, DoOpenPort, DoConnect, DoPop, DoRequest, DoRespond, DoGetResponse, DoDup, Check;
    NoPush(s, s);
    match step
    case CallOpenPort(n) => OpenPortPushes(s, n);
    case CallConnect(n, payload) => ConnectPushes(s, n, payload);
    case CallPop(fd) => PopPushes(s, fd);
    case CallRequest(fd, payload) => RequestPushes(s, fd, payload);
    case CallRespond(fd, answer) => RespondPushes(s, fd, answer);
    case CallGetResponse(fd) => GetResponsePushes(s, fd);
    case CallDup(fd) => DupPushes(s, fd);
    case CallWaitOn(rset, wset) => MineKeys(s, rset); MineKeys(s, wset); CheckPushes(s, rset, wset);
    case Recheck => SetsOpen(s); CheckPushes(s, s.tasks[s.current].rset, s.tasks[s.current].wset);
  }

  lemma NoPush(s: State, t: State)
    requires t.runq == s.runq
    ensures OnlyPushes(s, t)
  {}

  // The same queue and tasks, then a wakeup
  lemma WokenPushes(s: State, t: State, x: nat)
    requires RunQueue(s) && t.runq == s.runq && t.tasks == s.tasks
    ensures OnlyPushes(s, WakeReader(t, x)) && OnlyPushes(s, WakeWriter(t, x))
  {}

  lemma OpenPortPushes(s: State, n: nat)
    ensures OnlyPushes(s, DoOpenPort(s, n).st)
  {}

  lemma ConnectPushes(s: State, n: nat, payload: Option<Payload>)
    requires Safe(s)
    ensures OnlyPushes(s, DoConnect(s, n, payload).st)
  {
    hide Inv, Sleepers, RunQueue, OnlyPushes, WakeReader;
    NoPush(s, s);
    if n in s.uport {
      OnePort(s, n);
      WokenPushes(s, Connected(s, s.reqs[s.uport[n]].data.queue, payload), s.uport[n]);
    }
  }

  lemma PopPushes(s: State, fd: nat)
    requires Safe(s)
    ensures OnlyPushes(s, DoPop(s, fd).st)
  {
    hide Inv, Sleepers, RunQueue, OnlyPushes, WakeWriter, MsgOk;
    NoPush(s, s);
    if Mine(s, fd) {
      OneReq(s, fd);
      if s.reqs[fd].kind == Port && s.ports[s.reqs[fd].data.queue] != [] {
        var q := s.reqs[fd].data.queue;
        HeadOk(s, q);
        WokenPushes(s, PortPopped(s, q), s.msgs[s.ports[q][0]].client);
      }
      if s.reqs[fd].kind == ServerConn && s.conns[s.reqs[fd].data.conn].incoming != [] {
        var k := s.reqs[fd].data.conn;
        OneQueue(s, k);
        HeadOk(s, k);
        WokenPushes(s, ConnPopped(s, k), s.msgs[s.conns[k].incoming[0]].client);
      }
    }
  }

  lemma RequestPushes(s: State, fd: nat, payload: Option<Payload>)
    requires Safe(s) && !Unconnected(s, fd)
    ensures OnlyPushes(s, DoRequest(s, fd, payload).st)
  {
    hide Inv, Sleepers, RunQueue, OnlyPushes, WakeReader;
    NoPush(s, s);
    if Mine(s, fd) && s.reqs[fd].kind == Client {
      OneReq(s, fd);
      var p := s.reqs[fd].data.handle;
      WokenPushes(s, Asked(s, s.reqs[p].data.conn, payload), p);
    }
  }

  lemma RespondPushes(s: State, fd: nat, answer: Payload)
    requires Safe(s)
    ensures OnlyPushes(s, DoRespond(s, fd, answer).st)
  {
    hide Inv, Sleepers, RunQueue, OnlyPushes, WakeReader;
    NoPush(s, s);
    if Mine(s, fd) && s.reqs[fd].kind == ServerCookie {
      OneReq(s, fd);
      var u := s.reqs[fd].data.cookie;
      WokenPushes(s, Answered(s, fd, u, answer), s.pledges[u].client);
    }
  }

  lemma GetResponsePushes(s: State, fd: nat)
    requires Inv(s)
    ensures OnlyPushes(s, DoGetResponse(s, fd).st)
  {
    hide Inv, OnlyPushes;
    NoPush(s, DoGetResponse(s, fd).st);
  }

  lemma DupPushes(s: State, fd: nat)
    requires Inv(s)
    ensures OnlyPushes(s, DoDup(s, fd).st)
  {
    hide Inv, OnlyPushes;
    NoPush(s, DoDup(s, fd).st);
  }

  lemma CheckPushes(s: State, rset: set<nat>, wset: set<nat>)
    requires rset <= s.reqs.Keys && wset <= s.reqs.Keys
    ensures OnlyPushes(s, Check(s, rset, wset))
  {
    hide AnyReady;
  }

  // ----- runs -----

  // How many of the steps switch, and how many of the others wake somebody
  function Switches(steps: seq<Step>): nat {
    if steps == [] then 0 else (if steps[0] == Switch then 1 else 0) + Switches(steps[1..])
  }

  ghost function Wakeups(s: State, steps: seq<Step>): nat
    requires Safe(s) && LegalRun(s, steps)
    decreases |steps|
  {
    if steps == [] then 0
    else
      StepSafe(s, steps[0]);
      var t := Do(s, steps[0]);
      (if steps[0] != Switch && t.runq != s.runq then 1 else 0) + Wakeups(t, steps[1..])
  }

  // At some point of the run it is the turn of t.
  ghost predicate GetsTurn(s: State, steps: seq<Step>, t: nat)
    requires Safe(s) && LegalRun(s, steps)
    decreases |steps|
  {
    s.current == t || (steps != [] && (StepSafe(s, steps[0]); GetsTurn(Do(s, steps[0]), steps[1..], t)))
  }

  // A task with i others before it in the queue gets its turn in every run with more
  // switches than those i and the wakeups together, whatever else happens in it.
  lemma {:induction false} TurnComes(s: State, steps: seq<Step>, i: nat)
    requires Safe(s) && LegalRun(s, steps) && i < |s.runq| && Switches(steps) > i + Wakeups(s, steps)
    ensures GetsTurn(s, steps, s.runq[i])
    decreases |steps|
  {
    hide Inv, WaitInv, Legal, Do;
    StepSafe(s, steps[0]);
    var t := Do(s, steps[0]);
    if steps[0] == Switch {
      SwitchMoves(s, i);
      if i > 0 { TurnComes(t, steps[1..], i - 1); }
    } else {
      StepPushes(s, steps[0]);
      if t.runq == s.runq {
        TurnComes(t, steps[1..], i);
      } else {
        TurnComes(t, steps[1..], i + 1);
      }
    }
  }

  lemma SwitchMoves(s: State, i: nat)
    requires Safe(s) && i < |s.runq|
    ensures Do(s, Switch) == Schedule(s)
    ensures i == 0 ==> Schedule(s).current == s.runq[0]
    ensures i > 0 ==> |Schedule(s).runq| > i - 1 && Schedule(s).runq[i - 1] == s.runq[i]
  {
    hide Inv, Sleepers, Schedule;
    RoundRobin(s);
  }

  // Switches alone: whoever is at place i is the current one after i + 1 of them.
  function Switched(s: State, n: nat): State
    decreases n
  {
    if n == 0 then s else Switched(Schedule(s), n - 1)
  }

  lemma {:induction false} SwitchedTo(s: State, i: nat)
    requires Safe(s) && i < |s.runq|
    ensures Switched(s, i + 1).current == s.runq[i]
    decreases i
  {
    hide Inv, WaitInv, Schedule;
    SwitchMoves(s, i);
    StepSafe(s, Switch);
    if i > 0 { SwitchedTo(Schedule(s), i - 1); }
  }
}
