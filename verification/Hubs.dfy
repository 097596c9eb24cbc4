/** Any number of hubs, agents, requests and cluster writes, all interleaved.

    Every request is served by handlers: one at the hub where the client entered,
    with a peer manager, and one at every hub that a peer call reaches, without.
    Both run the same code, step by step (`Act`).  Sessions go down, agents
    connect, clusters are written and deleted at any point in between.  A dial
    call is one step here, which the linearizability of the session manager
    allows. */
module Hubs {
  import opened Paths
  import opened Dialing
  import opened SessionLists
  import opened Peers
  import opened Statuses
  import Admission

  type Sess = int
  type HubId = int
  type TaskId = int
  type ConnId = int

  datatype Phase = Arrived | Checked | Over

  /** An agent that connects to `hub` for `key`. */
  datatype Connect = Connect(hub: HubId, key: Key, token: string, phase: Phase)

  /** What is known of a session that was registered. */
  datatype Registration = Registration(conn: ConnId, hub: HubId, key: Key, token: string)

  /** Where a peer call is: on its way, or being served by a handler. */
  datatype Reached = InFlight | Serving(child: TaskId)

  datatype Pc =
    | Begin
    | Found                                        // the cluster exists
    | HasConn(sess: Sess)                          // a connection is open
    | LocalFailed                                  // the local round trip failed
    | Walking(i: nat, path: string)                // before hop `i`
    | Calling(i: nat, path: string, at: Reached)   // at hop `i`, called at `path`
    | Replied(status: int)

  /** One run of the proxy handler, for the request that entered with task `root`;
      `hop` is the hop of that request's walk that led here. */
  datatype Task = Task(
    root: TaskId, hop: nat, hub: HubId, key: Key, sub: string, mgr: bool, peers: seq<string>, pc: Pc)

  /** A request reaching a session: `task` is the handler that got it there. */
  datatype Reach = Reach(root: TaskId, task: TaskId, sess: Sess)

  /** `opens` and `delivered` only record: connections that were opened for a
      request, and connections that a request was sent over. */
  datatype Sys = Sys(
    store: map<Key, string>,
    hubs: map<HubId, Lists<Sess>>,
    connects: map<ConnId, Connect>,
    tasks: map<TaskId, Task>,
    down: set<Sess>,
    registry: map<Sess, Registration>,
    opens: seq<Reach>,
    delivered: seq<Reach>)

  /** A step of one handler. */
  datatype Act =
    | Lookup(failed: bool)
    | Dial(log: seq<Attempt<Sess>>, out: Outcome<Sess>, after: Lists<Sess>)
    | Respond(status: int)                            // the agent answers
    | Break(sent: bool)                               // the round trip fails, the request sent or not
    | GiveUp                                          // no peer manager
    | List(endpoints: Endpoints, self: string)
    | Try(parse: MaybeError, cert: MaybeError)
    | Arrive(child: TaskId, hub: HubId)               // the peer call reaches a hub, which starts a handler
    | Misroute                                        // the router there redirects it or finds no route
    | Receive                                         // the peer's answer comes back
    | Fail(text: string)                              // a transport error instead

  datatype Step =
    | Write(req: Admission.Request, uuid: string, marshal: Admission.Marshal)
    | Delete(key: Key)
    | Die(sess: Sess)
    | AgentArrives(conn: ConnId, connect: Connect)
    | AgentLookup(conn: ConnId, failed: bool)
    | AgentRegisters(conn: ConnId, sess: Sess)
    | AgentFails(conn: ConnId)
    | Submit(task: TaskId, hub: HubId, key: Key, sub: string)
    | Do(task: TaskId, act: Act)

  // ------------------------------------------------------------- handler steps

  /** How a walk goes on after hop `i`, which was called at `path`. */
  function React(hop: Hop, key: Key, i: nat, path: string): Pc {
    if hop.Advances() then Walking(i + 1, TrimPrefix(path, RoutePrefix(key)))
    else Replied(hop.Verdict().status)
  }

  /** The router of the hub that is called answers itself. */
  function Misrouted(path: string): Hop {
    Received(if Route(path).Redirected? then REDIRECT else NOT_FOUND)
  }

  function Received(status: int): Hop {
    Called(Answered(status, ""))
  }

  function ListHubs(h: HubId, hubs: map<HubId, Lists<Sess>>): Lists<Sess> {
    if h in hubs then hubs[h] else map[]
  }

  ghost predicate CanAct(s: Sys, t: TaskId, act: Act) {
    t in s.tasks
    && var x := s.tasks[t];
    match act
    case Lookup(_) => x.pc.Begin?
    case Dial(log, out, after) =>
      && x.pc.Found?
      && DialStep(ListHubs(x.hub, s.hubs), KeyString(x.key), log, out, after)
      && (out.Dialed? ==> out.sess !in s.down)
    case Respond(_) => x.pc.HasConn?
    case Break(_) => x.pc.HasConn?
    case GiveUp => x.pc.LocalFailed? && !x.mgr
    case List(_, _) => x.pc.LocalFailed? && x.mgr
    case Try(_, _) => x.pc.Walking?
    case Arrive(child, _) =>
      x.pc.Calling? && x.pc.at.InFlight? && child !in s.tasks && Route(x.pc.path).Matched?
    case Misroute =>
      x.pc.Calling? && x.pc.at.InFlight? && !Route(x.pc.path).Matched?
    case Receive =>
      x.pc.Calling? && x.pc.at.Serving? && x.pc.at.child in s.tasks && s.tasks[x.pc.at.child].pc.Replied?
    case Fail(_) => x.pc.Calling?
  }

  function NextPc(s: Sys, t: TaskId, act: Act): Pc
    requires CanAct(s, t, act)
  {
    var x := s.tasks[t];
    match act
    case Lookup(failed) =>
      if failed then Replied(INTERNAL_ERROR) else if x.key in s.store then Found else Replied(NOT_FOUND)
    case Dial(_, out, _) => if out.Dialed? then HasConn(out.sess) else LocalFailed
    case Respond(status) => Replied(status)
    case Break(_) => LocalFailed
    case GiveUp => Replied(BAD_GATEWAY_REPLY.status)
    case List(endpoints, self) =>
      if PeersOf(endpoints, self).Peers? then Walking(0, x.sub) else Replied(INTERNAL_ERROR)
    case Try(parse, cert) =>
      if x.pc.i >= |x.peers| || x.peers[x.pc.i] == "" then Replied(BAD_GATEWAY_REPLY.status)
      else if parse.Error? then React(BadURL(parse.text), x.key, x.pc.i, x.pc.path)
      else if cert.Error? then React(BadCert(cert.text), x.key, x.pc.i, x.pc.path)
      else Calling(x.pc.i, PeerPath(x.key, x.pc.path), InFlight)
    case Arrive(child, _) => Calling(x.pc.i, x.pc.path, Serving(child))
    case Misroute => React(Misrouted(x.pc.path), x.key, x.pc.i, x.pc.path)
    case Receive => React(Received(s.tasks[x.pc.at.child].pc.status), x.key, x.pc.i, x.pc.path)
    case Fail(text) => React(Called(Broken(text)), x.key, x.pc.i, x.pc.path)
  }

  /** The handler that a peer call starts: the key and the subpath are read back
      from the URL, and there is no peer manager.  Which hub an address reaches is
      not the program's to decide, and may change. */
  function Child(x: Task, hub: HubId): Task
    requires x.pc.Calling? && Route(x.pc.path).Matched?
  {
    var Matched(key, sub) := Route(x.pc.path);
    Task(x.root, x.pc.i, hub, key, sub, false, [], Begin)
  }

  /** The handlers after a step of handler `t` that takes it to `pc`. */
  function TasksAfter(tasks: map<TaskId, Task>, t: TaskId, act: Act, pc: Pc): map<TaskId, Task>
    requires t in tasks
    requires act.Arrive? ==> tasks[t].pc.Calling? && Route(tasks[t].pc.path).Matched?
  {
    var x := tasks[t];
    match act
    case List(endpoints, self) =>
      var list := PeersOf(endpoints, self);
      tasks[t := x.(pc := pc, peers := if list.Peers? then list.peers else [])]
    case Arrive(child, hub) => tasks[t := x.(pc := pc)][child := Child(x, hub)]
    case _ => tasks[t := x.(pc := pc)]
  }

  function NewTasks(s: Sys, t: TaskId, act: Act): map<TaskId, Task>
    requires CanAct(s, t, act)
  {
    TasksAfter(s.tasks, t, act, NextPc(s, t, act))
  }

  function Acted(s: Sys, t: TaskId, act: Act): Sys
    requires CanAct(s, t, act)
  {
    var x := s.tasks[t];
    var s' := s.(tasks := NewTasks(s, t, act));
    match act
    case Dial(log, out, after) =>
      s'.(hubs := s.hubs[x.hub := after],
          down := s.down + (set i | 0 <= i < |Failures(log)| :: Failures(log)[i]),
          opens := if out.Dialed? then s.opens + [Reach(x.root, t, out.sess)] else s.opens)
    case Respond(_) => s'.(delivered := s.delivered + [Reach(x.root, t, x.pc.sess)])
    case Break(sent) =>
      s'.(delivered := if sent then s.delivered + [Reach(x.root, t, x.pc.sess)] else s.delivered)
    case _ => s'
  }

  // -------------------------------------------------------------- system steps

  ghost predicate Enabled(s: Sys, step: Step) {
    match step
    case Write(req, uuid, _) => Admission.Uuid(uuid)
    case Delete(_) => true
    case Die(_) => true
    case AgentArrives(c, connect) => c !in s.connects && connect.phase.Arrived? && ValidKey(connect.key)
    case AgentLookup(c, _) => c in s.connects && s.connects[c].phase.Arrived?
    case AgentRegisters(c, sess) => c in s.connects && s.connects[c].phase.Checked? && sess !in s.registry
    case AgentFails(c) => c in s.connects && s.connects[c].phase.Checked?
    case Submit(t, _, key, _) => t !in s.tasks && ValidKey(key)
    case Do(t, act) => CanAct(s, t, act)
  }

  function After(s: Sys, step: Step): Sys
    requires Enabled(s, step)
  {
    match step
    case Write(req, uuid, marshal) =>
      (match Admission.Admit(req, uuid, marshal)
       case Stored(cluster) => s.(store := s.store[cluster.key := cluster.token])
       case Rejected => s)
    case Delete(key) => s.(store := map k | k in s.store && k != key :: s.store[k])
    case Die(sess) => s.(down := s.down + {sess})
    case AgentArrives(c, connect) => s.(connects := s.connects[c := connect])
    case AgentLookup(c, failed) =>
      var x := s.connects[c];
      var ok := !failed && x.key in s.store && s.store[x.key] == x.token;
      s.(connects := s.connects[c := x.(phase := if ok then Checked else Over)])
    case AgentRegisters(c, sess) =>
      var x := s.connects[c];
      s.(connects := s.connects[c := x.(phase := Over)],
         hubs := s.hubs[x.hub := Added(ListHubs(x.hub, s.hubs), KeyString(x.key), sess)],
         registry := s.registry[sess := Registration(c, x.hub, x.key, x.token)])
    case AgentFails(c) => s.(connects := s.connects[c := s.connects[c].(phase := Over)])
    case Submit(t, hub, key, sub) =>
      s.(tasks := s.tasks[t := Task(t, 0, hub, key, sub, true, [], Begin)])
    case Do(t, act) => Acted(s, t, act)
  }

  const INITIAL := Sys(map[], map[], map[], map[], {}, map[], [], [])

  ghost predicate IsRun(run: seq<Sys>, steps: seq<Step>) {
    && |run| == |steps| + 1
    && run[0] == INITIAL
    && forall i :: 0 <= i < |steps| ==> Enabled(run[i], steps[i]) && run[i + 1] == After(run[i], steps[i])
  }
}
