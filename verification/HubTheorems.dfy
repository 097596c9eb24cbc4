/** Theorems about every run of the hubs: whose session a request reaches, what
    path a handler sees, and how much work one request makes. */
module HubTheorems {
  import opened Paths
  import opened Dialing
  import opened SessionLists
  import opened Peers
  import opened Hubs
  import opened HubInvariants
  import opened HubOrigins
  import Admission

  // ------------------------------------------------------------ right cluster

  /** In `s`, the lookup of agent `c` finds its cluster with exactly its token. */
  ghost predicate GrantsAt(s: Sys, step: Step, c: ConnId, key: Key, token: string) {
    && step == AgentLookup(c, false)
    && c in s.connects && s.connects[c].key == key && s.connects[c].token == token
    && key in s.store && s.store[key] == token && token != ""
  }

  ghost predicate Granted(run: seq<Sys>, steps: seq<Step>, n: nat, c: ConnId, key: Key, token: string)
    requires n <= |steps| < |run|
  {
    exists i :: 0 <= i < n && GrantsAt(run[i], steps[i], c, key, token)
  }

  ghost predicate AllGranted(run: seq<Sys>, steps: seq<Step>, n: nat)
    requires n <= |steps| < |run|
  {
    && (forall c :: c in run[n].connects && run[n].connects[c].phase.Checked? ==>
          Granted(run, steps, n, c, run[n].connects[c].key, run[n].connects[c].token))
    && (forall x :: x in run[n].registry ==>
          var g := run[n].registry[x];
          Granted(run, steps, n, g.conn, g.key, g.token))
  }

  lemma {:induction false} GrantedLater(
      run: seq<Sys>, steps: seq<Step>, n: nat, c: ConnId, key: Key, token: string)
    requires n < |steps| < |run|
    ensures Granted(run, steps, n, c, key, token) ==> Granted(run, steps, n + 1, c, key, token)
    ensures GrantsAt(run[n], steps[n], c, key, token) ==> Granted(run, steps, n + 1, c, key, token)
  {
  }

  lemma {:induction false} ConnectStep(s: Sys, step: Step, c: ConnId)
    requires TokensOk(s.store) && Enabled(s, step)
    requires c in After(s, step).connects && After(s, step).connects[c].phase.Checked?
    ensures var x := After(s, step).connects[c];
      || (c in s.connects && s.connects[c] == x)
      || GrantsAt(s, step, c, x.key, x.token)
  {
  }

  lemma {:induction false} RegistryStep(s: Sys, step: Step, x: Sess)
    requires Enabled(s, step) && x in After(s, step).registry
    ensures var g := After(s, step).registry[x];
      || (x in s.registry && s.registry[x] == g)
      || (g.conn in s.connects && s.connects[g.conn].phase.Checked?
          && s.connects[g.conn].key == g.key && s.connects[g.conn].token == g.token)
  {
  }

  lemma {:induction false} GrantsHold(run: seq<Sys>, steps: seq<Step>, n: nat)
    requires IsRun(run, steps) && n < |run|
    ensures AllGranted(run, steps, n)
  {
    if n > 0 {
      var p := n - 1;
      GrantsHold(run, steps, p);
      Reachable(run, steps, p);
      var s := run[p];
      assert Enabled(s, steps[p]) && run[n] == After(s, steps[p]);
      forall c | c in run[n].connects && run[n].connects[c].phase.Checked?
        ensures Granted(run, steps, n, c, run[n].connects[c].key, run[n].connects[c].token)
      {
        ConnectStep(s, steps[p], c);
        GrantedLater(run, steps, p, c, run[n].connects[c].key, run[n].connects[c].token);
      }
      forall x | x in run[n].registry
        ensures var g := run[n].registry[x]; Granted(run, steps, n, g.conn, g.key, g.token)
      {
        var g := run[n].registry[x];
        RegistryStep(s, steps[p], x);
        GrantedLater(run, steps, p, g.conn, g.key, g.token);
      }
    }
  }

  /** Right-cluster delivery.  Every connection that is ever opened for a request,
      by the entry hub or by a peer, and every one that the request is sent over,
      is to a session that was registered at that hub, for exactly the cluster that
      the request was submitted for, by an agent that arrived there for this cluster
      and whose lookup then found its token, not empty, as the stored token of the
      cluster. */
  lemma {:induction false} RightCluster(
      run: seq<Sys>, steps: seq<Step>, n: nat, o: Reach) returns (a: nat, d: nat, i: nat)
    requires IsRun(run, steps) && n < |run|
    requires o in run[n].opens || o in run[n].delivered
    ensures o.sess in run[n].registry && o.task in run[n].tasks && run[n].tasks[o.task].root == o.root
    ensures a < n && steps[a].Submit? && steps[a].task == o.root
    ensures var g := run[n].registry[o.sess];
      && g.key == steps[a].key
      && g.hub == run[n].tasks[o.task].hub
      && d < i < n && steps[d] == AgentArrives(g.conn, Connect(g.hub, g.key, g.token, Arrived))
      && GrantsAt(run[i], steps[i], g.conn, g.key, g.token)
  {
    Reachable(run, steps, n);
    GrantsHold(run, steps, n);
    var k :| 0 <= k < |run[n].opens| && run[n].opens[k] == o;
    assert ReachOk(run[n], run[n].opens[k]);
    var g := run[n].registry[o.sess];
    i :| 0 <= i < n && GrantsAt(run[i], steps[i], g.conn, g.key, g.token);
    d := AgentOf(run, steps, n, o.sess, i);
    a := RootOf(run, steps, n, o.root);
  }

  /** The arrival of the agent behind a session, before its lookup at `i`. */
  lemma {:induction false} AgentOf(
      run: seq<Sys>, steps: seq<Step>, n: nat, x: Sess, i: nat) returns (d: nat)
    requires IsRun(run, steps) && i < n < |run| && x in run[n].registry
    requires run[n].registry[x].conn in run[i].connects
    ensures var g := run[n].registry[x];
      d < i && steps[d] == AgentArrives(g.conn, Connect(g.hub, g.key, g.token, Arrived))
  {
    var e;
    d, e := RegisteredFrom(run, steps, n, x);
    RunStep(run, steps, d);
    RunConnects(run, steps);
    if i <= d { ConnectKept(run, i, d, steps[d].conn); }
  }

  /** The submission of a request. */
  lemma {:induction false} RootOf(run: seq<Sys>, steps: seq<Step>, n: nat, r: TaskId) returns (a: nat)
    requires IsRun(run, steps) && n < |run| && r in run[n].tasks && run[n].tasks[r].root == r
    ensures a < n && steps[a] == Submit(r, run[n].tasks[r].hub, run[n].tasks[r].key, run[n].tasks[r].sub)
  {
    var b;
    a, b := HandlerOrigin(run, steps, n, r);
    ServedAsSubmitted(run, steps, a, n);
  }

  /** No stored cluster is ever without a token, so no agent is ever registered
      without one. */
  lemma {:induction false} NoTokenlessAgent(
      run: seq<Sys>, steps: seq<Step>, n: nat, x: Sess)
    requires IsRun(run, steps) && n < |run|
    ensures forall k :: k in run[n].store ==> run[n].store[k] != ""
    ensures x in run[n].registry ==> run[n].registry[x].token != ""
  {
    Reachable(run, steps, n);
    GrantsHold(run, steps, n);
  }

  // ------------------------------------------------- paths and forwarding loops

  /** Every handler that a request reaches serves the key that the request was
      submitted with; the entry handler, at the hub of the submission, its subpath as
      it is, and a handler that a peer call started the same subpath, normalised.
      Peers are called at the path printed from these two. */
  lemma {:induction false} EveryHandlerSamePath(
      run: seq<Sys>, steps: seq<Step>, n: nat, t: TaskId) returns (a: nat)
    requires IsRun(run, steps) && n < |run| && t in run[n].tasks
    ensures var x := run[n].tasks[t];
      && a < n && steps[a].Submit? && steps[a].task == x.root
      && x.key == steps[a].key
      && (if t == x.root then x.hub == steps[a].hub && x.sub == steps[a].sub else x.sub == Norm(steps[a].sub))
      && (x.pc.Calling? ==> x.pc.path == "/proxy/" + x.key.ns + "/" + x.key.name + Norm(steps[a].sub))
  {
    Reachable(run, steps, n);
    var x := run[n].tasks[t];
    assert TaskOk(run[n].tasks, t) && TaskOk(run[n].tasks, x.root);
    a := RootOf(run, steps, n, x.root);
    NormTwice(steps[a].sub);
    PeerPathText(x.key, x.sub);
  }

  ghost function HandlersOf(tasks: map<TaskId, Task>, r: TaskId): set<TaskId> {
    set t | t in tasks && tasks[t].root == r
  }

  lemma {:induction false} DistinctHops(c: set<TaskId>, tasks: map<TaskId, Task>, n: nat)
    requires forall t :: t in c ==> t in tasks && tasks[t].hop < n
    requires forall t, u :: t in c && u in c && t != u ==> tasks[t].hop != tasks[u].hop
    ensures |c| <= n
    decreases n
  {
    if n == 0 {
      assert forall t :: t !in c;
      assert c == {};
    } else if exists t :: t in c && tasks[t].hop == n - 1 {
      var t :| t in c && tasks[t].hop == n - 1;
      DistinctHops(c - {t}, tasks, n - 1);
    } else {
      DistinctHops(c, tasks, n - 1);
    }
  }

  /** No forwarding loops: a handler that was started by a peer call never calls a
      peer, and a request runs at most one handler more than its entry hub listed
      peers, whatever the hubs take for their peers. */
  lemma {:induction false} HandlersBounded(
      run: seq<Sys>, steps: seq<Step>, n: nat, r: TaskId)
    requires IsRun(run, steps) && n < |run|
    requires r in run[n].tasks && run[n].tasks[r].root == r
    ensures forall t :: t in HandlersOf(run[n].tasks, r) && t != r ==>
      !run[n].tasks[t].pc.Walking? && !run[n].tasks[t].pc.Calling?
    ensures |HandlersOf(run[n].tasks, r)| <= 1 + |run[n].tasks[r].peers|
  {
    Reachable(run, steps, n);
    var tasks := run[n].tasks;
    var all := HandlersOf(tasks, r);
    forall t | t in all
      ensures TaskOk(tasks, t) && (t != r ==> IsChild(tasks, t, r))
    {
    }
    DistinctHops(all - {r}, tasks, |tasks[r].peers|);
  }

  // -------------------------------------------------------------- termination

  /** What a handler still has to do: before its peers are listed, and after. */
  datatype Rank = Rank(before: nat, left: nat)

  /** The peers from `i` on. */
  function Ahead(x: Task, i: nat): nat {
    if i < |x.peers| then |x.peers| - i else 0
  }

  function RankOf(x: Task): Rank {
    match x.pc
    case Begin => Rank(5, 0)
    case Found => Rank(4, 0)
    case HasConn(_) => Rank(3, 0)
    case LocalFailed => Rank(2, 0)
    case Walking(i, _) => Rank(1, 3 * Ahead(x, i) + 2)
    case Calling(i, _, at) => Rank(1, 3 * Ahead(x, i) + if at.InFlight? then 1 else 0)
    case Replied(_) => Rank(0, 0)
  }

  predicate Less(a: Rank, b: Rank) {
    a.before < b.before || (a.before == b.before && a.left < b.left)
  }

  /** Every step of a handler brings it nearer to its answer, and no other step
      touches it. */
  lemma {:induction false} StepsDecrease(
      run: seq<Sys>, steps: seq<Step>, n: nat, t: TaskId)
    requires IsRun(run, steps) && n < |steps| && t in run[n].tasks
    ensures t in run[n + 1].tasks
    ensures if steps[n].Do? && steps[n].task == t
            then Less(RankOf(run[n + 1].tasks[t]), RankOf(run[n].tasks[t]))
            else run[n + 1].tasks[t] == run[n].tasks[t]
  {
    Reachable(run, steps, n);
    var s, step := run[n], steps[n];
    assert Enabled(s, step) && run[n + 1] == After(s, step);
    if step.Do? {
      ActFrame(s, step.task, step.act);
      ActEffects(s, step.task, step.act);
      if step.task == t {
        assert TaskOk(s.tasks, t);
        RankDecreases(s, t, step.act);
      }
    }
  }

  lemma {:induction false} ReactDecreases(x: Task, hop: Hop)
    requires ValidKey(x.key) && x.pc.Calling? && PathOk(x)
    ensures Less(RankOf(x.(pc := React(hop, x.key, x.pc.i, x.pc.path))), RankOf(x))
  {
    ReactOk(x, hop, React(hop, x.key, x.pc.i, x.pc.path));
  }

  lemma {:induction false} RankDecreases(s: Sys, t: TaskId, act: Act)
    requires CanAct(s, t, act) && TaskOk(s.tasks, t)
    ensures Less(RankOf(NewTasks(s, t, act)[t]), RankOf(s.tasks[t]))
  {
    var x := s.tasks[t];
    ActFrame(s, t, act);
    match act
    case Try(_, _) => TryOk(s, t, act);
    case Misroute => ReactDecreases(x, Misrouted(x.pc.path));
    case Receive => ReactDecreases(x, Received(s.tasks[x.pc.at.child].pc.status));
    case Fail(text) => ReactDecreases(x, Called(Broken(text)));
    case _ =>
  }

  /** The most steps that a handler can have made. */
  function Spent(x: Task): nat {
    match x.pc
    case Begin => 0
    case Found => 1
    case HasConn(_) => 2
    case LocalFailed => 3
    case Walking(i, _) => 4 + 3 * i
    case Calling(i, _, at) => 4 + 3 * i + if at.InFlight? then 1 else 2
    case Replied(_) => if x.mgr then 5 + 3 * |x.peers| else 4
  }

  lemma {:induction false} ReactSpends(x: Task, hop: Hop)
    requires ValidKey(x.key) && x.pc.Calling? && PathOk(x) && x.mgr
    ensures Spent(x.(pc := React(hop, x.key, x.pc.i, x.pc.path))) > Spent(x)
  {
    ReactOk(x, hop, React(hop, x.key, x.pc.i, x.pc.path));
  }

  lemma {:induction false} ActSpends(s: Sys, t: TaskId, act: Act)
    requires CanAct(s, t, act) && TaskOk(s.tasks, t)
    ensures Spent(NewTasks(s, t, act)[t]) > Spent(s.tasks[t])
  {
    var x := s.tasks[t];
    ActFrame(s, t, act);
    match act
    case Try(_, _) => TryOk(s, t, act);
    case Misroute => ReactSpends(x, Misrouted(x.pc.path));
    case Receive => ReactSpends(x, Received(s.tasks[x.pc.at.child].pc.status));
    case Fail(text) => ReactSpends(x, Called(Broken(text)));
    case _ =>
  }

  lemma {:induction false} StepSpends(s: Sys, step: Step, t: TaskId)
    requires TasksOk(s.tasks) && Enabled(s, step) && t in s.tasks
    ensures t in After(s, step).tasks
    ensures if step.Do? && step.task == t
            then Spent(After(s, step).tasks[t]) > Spent(s.tasks[t])
            else After(s, step).tasks[t] == s.tasks[t]
  {
    if step.Do? {
      ActFrame(s, step.task, step.act);
      ActEffects(s, step.task, step.act);
      if step.task == t {
        assert TaskOk(s.tasks, t);
        ActSpends(s, t, step.act);
      }
    }
  }

  /** How many of the first `n` steps are taken by the handlers in `ts`. */
  function StepsBy(steps: seq<Step>, n: nat, ts: set<TaskId>): nat
    requires n <= |steps|
  {
    if n == 0 then 0
    else StepsBy(steps, n - 1, ts) + if steps[n - 1].Do? && steps[n - 1].task in ts then 1 else 0
  }

  lemma {:induction false} StepsBySplit(steps: seq<Step>, n: nat, ts: set<TaskId>, t: TaskId)
    requires n <= |steps| && t in ts
    ensures StepsBy(steps, n, ts) == StepsBy(steps, n, ts - {t}) + StepsBy(steps, n, {t})
  {
    if n > 0 { StepsBySplit(steps, n - 1, ts, t); }
  }

  lemma {:induction false} StepsByEach(steps: seq<Step>, n: nat, ts: set<TaskId>)
    requires n <= |steps|
    requires forall t :: t in ts ==> StepsBy(steps, n, {t}) <= 4
    ensures StepsBy(steps, n, ts) <= 4 * |ts|
    decreases |ts|
  {
    if t :| t in ts {
      StepsBySplit(steps, n, ts, t);
      StepsByEach(steps, n, ts - {t});
    } else {
      StepsByNone(steps, n, ts);
    }
  }

  lemma {:induction false} StepsByNone(steps: seq<Step>, n: nat, ts: set<TaskId>)
    requires n <= |steps| && forall t :: t !in ts
    ensures StepsBy(steps, n, ts) == 0
  {
    if n > 0 { StepsByNone(steps, n - 1, ts); }
  }

  lemma {:induction false} SpentHolds(run: seq<Sys>, steps: seq<Step>, n: nat, t: TaskId)
    requires IsRun(run, steps) && n < |run|
    ensures StepsBy(steps, n, {t}) <= if t in run[n].tasks then Spent(run[n].tasks[t]) else 0
  {
    if n > 0 {
      SpentHolds(run, steps, n - 1, t);
      Reachable(run, steps, n - 1);
      RunStep(run, steps, n - 1);
      if t in run[n - 1].tasks { StepSpends(run[n - 1], steps[n - 1], t); }
    }
  }

  lemma {:induction false} SpentBounded(tasks: map<TaskId, Task>, t: TaskId, r: TaskId)
    requires t in tasks && TaskOk(tasks, t) && tasks[t].root == r
    ensures Spent(tasks[t]) <= if t == r then 5 + 3 * |tasks[r].peers| else 4
  {
  }

  /** Termination of a whole request: in any run, all its handlers together take at
      most seven steps per listed peer and five more. */
  lemma {:induction false} RequestSteps(run: seq<Sys>, steps: seq<Step>, n: nat, r: TaskId)
    requires IsRun(run, steps) && n < |run|
    requires r in run[n].tasks && run[n].tasks[r].root == r
    ensures StepsBy(steps, n, HandlersOf(run[n].tasks, r)) <= 7 * |run[n].tasks[r].peers| + 5
  {
    Reachable(run, steps, n);
    HandlersBounded(run, steps, n, r);
    var tasks := run[n].tasks;
    var all := HandlersOf(tasks, r);
    forall t | t in all
      ensures StepsBy(steps, n, {t}) <= if t == r then 5 + 3 * |tasks[r].peers| else 4
    {
      assert TaskOk(tasks, t);
      SpentHolds(run, steps, n, t);
      SpentBounded(tasks, t, r);
    }
    StepsBySplit(steps, n, all, r);
    StepsByEach(steps, n, all - {r});
  }

  /** And it is never stuck: until a handler has answered, it can step, or it waits
      for a handler that has not answered, or for the network to answer a call. */
  lemma {:induction false} HandlerCanStep(
      run: seq<Sys>, steps: seq<Step>, n: nat, t: TaskId) returns (u: TaskId, act: Act)
    requires IsRun(run, steps) && n < |run|
    requires t in run[n].tasks && !run[n].tasks[t].pc.Replied?
    ensures CanAct(run[n], u, act) && run[n].tasks[u].root == run[n].tasks[t].root
    ensures u != t ==> run[n].tasks[t].pc.Calling? && run[n].tasks[t].pc.at == Serving(u)
    ensures act.Fail? ==> run[n].tasks[t].pc.Calling? && run[n].tasks[t].pc.at.InFlight?
  {
    Reachable(run, steps, n);
    var s := run[n];
    var x := s.tasks[t];
    assert TaskOk(s.tasks, t);
    u := t;
    if x.pc.Calling? && x.pc.at.Serving? && !s.tasks[x.pc.at.child].pc.Replied? {
      u := x.pc.at.child;
      assert IsChild(s.tasks, u, t);
      assert TaskOk(s.tasks, u);
    }
    var y := s.tasks[u];
    match y.pc
    case Begin => act := Lookup(true);
    case Found =>
      var log, after := DialMayFail(ListHubs(y.hub, s.hubs), KeyString(y.key));
      act := Dial(log, NoSession, after);
    case HasConn(_) => act := Respond(200);
    case LocalFailed => act := if y.mgr then List(NoEndpoints(""), "") else GiveUp;
    case Walking(_, _) => act := Try(NoError, NoError);
    case Calling(_, _, at) => act := if at.Serving? then Receive else Fail("no route to host");
  }

  /** What can happen next to a handler, whatever it is due to: a lookup of either
      outcome, any dial call of its own hub and key that opens no session that is
      down, any answer and any break of the connection, and so on. */
  ghost predicate MayHappen(s: Sys, x: Task, act: Act) {
    match x.pc
    case Begin => act.Lookup?
    case Found =>
      && act.Dial?
      && DialStep(ListHubs(x.hub, s.hubs), KeyString(x.key), act.log, act.out, act.after)
      && (act.out.Dialed? ==> act.out.sess !in s.down)
    case HasConn(_) => act.Respond? || act.Break?
    case LocalFailed => if x.mgr then act.List? else act.GiveUp?
    case Walking(_, _) => act.Try?
    case Calling(_, _, InFlight) =>
      act.Fail? || if Servable(x.key, x.sub) then act.Arrive? && act.child !in s.tasks else act.Misroute?
    case Calling(_, _, Serving(c)) => act.Fail? || (act.Receive? && c in s.tasks && s.tasks[c].pc.Replied?)
    case Replied(_) => false
  }

  /** The steps of a handler are exactly these, in every reachable state; a peer call
      reaches a handler exactly if the router serves the request's path. */
  lemma {:induction false} NextExactly(run: seq<Sys>, steps: seq<Step>, n: nat, t: TaskId, act: Act)
    requires IsRun(run, steps) && n < |run| && t in run[n].tasks
    ensures CanAct(run[n], t, act) <==> MayHappen(run[n], run[n].tasks[t], act)
  {
    Reachable(run, steps, n);
    var x := run[n].tasks[t];
    assert TaskOk(run[n].tasks, t);
    RouteRoundTrip(x.key, x.sub);
  }

  /** What surrounds the handlers is not held back either: at any moment clusters are
      written and deleted, sessions are lost, and agents and requests arrive at any
      hub; and an agent that arrived is looked up with either outcome, and then
      registers any new session or fails. */
  lemma {:induction false} SurroundingsFree(s: Sys)
    ensures forall req, uuid, marshal :: Admission.Uuid(uuid) ==> Enabled(s, Write(req, uuid, marshal))
    ensures forall key :: Enabled(s, Delete(key))
    ensures forall x :: Enabled(s, Die(x))
    ensures forall c, hub, key, token :: c !in s.connects && ValidKey(key) ==>
      Enabled(s, AgentArrives(c, Connect(hub, key, token, Arrived)))
    ensures forall t, hub, key, sub :: t !in s.tasks && ValidKey(key) ==> Enabled(s, Submit(t, hub, key, sub))
    ensures forall c, failed :: Enabled(s, AgentLookup(c, failed)) <==> c in s.connects && s.connects[c].phase.Arrived?
    ensures forall c :: Enabled(s, AgentFails(c)) <==> c in s.connects && s.connects[c].phase.Checked?
    ensures forall c, x :: Enabled(s, AgentRegisters(c, x)) <==>
      c in s.connects && s.connects[c].phase.Checked? && x !in s.registry
  {
  }

  // ------------------------------------------------------- sessions of one hub

  /** The call on the session manager of hub `h` that a step makes, if any. */
  ghost function CallsOf(s: Sys, step: Step, h: HubId): seq<Op<Sess>> {
    match step
    case AgentRegisters(c, sess) =>
      if c in s.connects && s.connects[c].hub == h then [AddOp(KeyString(s.connects[c].key), sess)] else []
    case Do(t, Dial(log, out, _)) =>
      if t in s.tasks && s.tasks[t].hub == h then [DialOp(KeyString(s.tasks[t].key), log, out)] else []
    case _ => []
  }

  ghost function OpsOf(run: seq<Sys>, steps: seq<Step>, n: nat, h: HubId): seq<Op<Sess>>
    requires n <= |steps| < |run|
  {
    if n == 0 then [] else OpsOf(run, steps, n - 1, h) + CallsOf(run[n - 1], steps[n - 1], h)
  }

  lemma {:induction false} OneDial(s: Sys, t: TaskId, act: Act, h: HubId)
    requires CanAct(s, t, act)
    ensures var before, after := ListHubs(h, s.hubs), ListHubs(h, Acted(s, t, act).hubs);
      if act.Dial? && s.tasks[t].hub == h then DialStep(before, KeyString(s.tasks[t].key), act.log, act.out, after)
      else after == before
  {
  }

  lemma {:induction false} OneCall(s: Sys, step: Step, h: HubId)
    requires Enabled(s, step)
    ensures var before, after := ListHubs(h, s.hubs), ListHubs(h, After(s, step).hubs);
      var calls := CallsOf(s, step, h);
      || (calls == [] && after == before)
      || (|calls| == 1 && OpStep(before, calls[0], after))
  {
    if step.Do? { OneDial(s, step.task, step.act, h); }
  }

  lemma {:induction false} NewSessions(s: Sys, step: Step, h: HubId)
    requires Enabled(s, step)
    ensures forall x :: x in s.registry ==> x in After(s, step).registry
    ensures forall call :: call in CallsOf(s, step, h) && call.AddOp? ==>
      call.sess !in s.registry && call.sess in After(s, step).registry
  {
    Identity(s, step);
  }

  /** A history of fresh calls that leads from the empty map to `lists`. */
  ghost predicate LeadsTo(
      maps: seq<Lists<Sess>>, ops: seq<Op<Sess>>, lists: Lists<Sess>, registry: map<Sess, Registration>)
  {
    && Sequential(maps, ops) && maps[0] == map[] && FreshAdds(ops) && maps[|ops|] == lists
    && forall i :: 0 <= i < |ops| && ops[i].AddOp? ==> ops[i].sess in registry
  }

  lemma {:induction false} HistoryStep(s: Sys, step: Step, h: HubId, maps: seq<Lists<Sess>>, ops: seq<Op<Sess>>)
      returns (maps': seq<Lists<Sess>>)
    requires Enabled(s, step) && LeadsTo(maps, ops, ListHubs(h, s.hubs), s.registry)
    ensures LeadsTo(maps', ops + CallsOf(s, step, h), ListHubs(h, After(s, step).hubs), After(s, step).registry)
  {
    OneCall(s, step, h);
    NewSessions(s, step, h);
    var calls, after := CallsOf(s, step, h), ListHubs(h, After(s, step).hubs);
    if calls == [] {
      maps' := maps;
      assert ops + calls == ops;
    } else {
      assert calls == [calls[0]] && calls[0] in calls;
      HistoryGrows(maps, ops, calls[0], after);
      maps' := maps + [after];
    }
  }

  /** What a run does to the sessions of one hub is a history of calls, from the
      empty map, in which every added session is new. */
  lemma {:induction false} HubHistory(
      run: seq<Sys>, steps: seq<Step>, n: nat, h: HubId) returns (maps: seq<Lists<Sess>>)
    requires IsRun(run, steps) && n < |run|
    ensures LeadsTo(maps, OpsOf(run, steps, n, h), ListHubs(h, run[n].hubs), run[n].registry)
  {
    if n == 0 {
      maps := [map[]];
    } else {
      maps := HubHistory(run, steps, n - 1, h);
      RunStep(run, steps, n - 1);
      maps := HistoryStep(run[n - 1], steps[n - 1], h, maps, OpsOf(run, steps, n - 1, h));
    }
  }

  lemma {:induction false} OpsGrow(run: seq<Sys>, steps: seq<Step>, i: nat, n: nat, h: HubId)
    requires i <= n <= |steps| < |run|
    ensures OpsOf(run, steps, i, h) <= OpsOf(run, steps, n, h)
    decreases n
  {
    if i < n { OpsGrow(run, steps, i, n - 1, h); }
  }

  lemma {:induction false} GoneWasListed(
      before: Lists<Sess>, id: string, log: seq<Attempt<Sess>>, out: Outcome<Sess>, after: Lists<Sess>, x: Sess)
    requires DialStep(before, id, log, out, after) && x in Failures(log)
    ensures x in Listed(before, id)
  {
    DialConserves(Listed(before, id), log, out, Listed(after, id));
    assert x in multiset(Failures(log));
    assert x in multiset(Listed(before, id));
  }

  /** A session that a dial removed is never listed again, at any hub, under any
      key. */
  lemma {:induction false} GoneForGood(
      run: seq<Sys>, steps: seq<Step>, i: nat, n: nat, x: Sess, h: HubId, id: string)
    requires IsRun(run, steps) && i < n < |run|
    requires steps[i].Do? && steps[i].act.Dial? && x in Failures(steps[i].act.log)
    ensures x !in Listed(ListHubs(h, run[n].hubs), id)
  {
    Reachable(run, steps, i);
    Reachable(run, steps, n);
    assert Enabled(run[i], steps[i]);
    var y, act := run[i].tasks[steps[i].task], steps[i].act;
    var home := y.hub;
    GoneWasListed(ListHubs(home, run[i].hubs), KeyString(y.key), act.log, act.out, act.after, x);
    assert ListedOk(run[i].registry, home, KeyString(y.key), x);
    RunIdentity(run, steps);
    RegistryKept(run, i, n, x);
    if x in Listed(ListHubs(h, run[n].hubs), id) {
      assert ListedOk(run[n].registry, h, id, x);
      var k := |OpsOf(run, steps, i, home)|;
      OpsGrow(run, steps, i + 1, n, home);
      var ops := OpsOf(run, steps, n, home);
      assert ops[k] == DialOp(KeyString(y.key), act.log, act.out);
      var maps := HubHistory(run, steps, n, home);
      NeverRelisted(maps, ops, k, |ops|, x, id);
    }
  }

  lemma {:induction false} RegistryKept(run: seq<Sys>, i: nat, n: nat, x: Sess)
    requires KeepsIdentity(run) && i <= n < |run| && x in run[i].registry
    ensures x in run[n].registry && run[n].registry[x] == run[i].registry[x]
    decreases n
  {
    if i < n {
      RegistryKept(run, i, n - 1, x);
      assert SameIdentity(run[n - 1], run[n]);
    }
  }

  /** At every moment a session is listed at most once, over all hubs and keys. */
  lemma {:induction false} ListedOnceAnywhere(
      run: seq<Sys>, steps: seq<Step>, n: nat, x: Sess,
      h: HubId, id: string, h': HubId, id': string)
    requires IsRun(run, steps) && n < |run|
    ensures multiset(Listed(ListHubs(h, run[n].hubs), id))[x] <= 1
    ensures x in Listed(ListHubs(h, run[n].hubs), id) && x in Listed(ListHubs(h', run[n].hubs), id') ==>
      h == h' && id == id'
  {
    Reachable(run, steps, n);
    var maps := HubHistory(run, steps, n, h);
    ListedOnce(maps, OpsOf(run, steps, n, h), x, id, id');
    assert x in Listed(ListHubs(h, run[n].hubs), id) ==> ListedOk(run[n].registry, h, id, x);
    assert x in Listed(ListHubs(h', run[n].hubs), id') ==> ListedOk(run[n].registry, h', id', x);
  }
}
