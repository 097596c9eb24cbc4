/** One handler of an interleaved run, by itself: however the steps of others fall
    between its own, its walk is the search of module `Peers`, its answer and the
    calls it sends are those of the proxy handler of module `Handlers`, and every
    answer has a reason that can be named. */
module HubWalks {
  import opened Paths
  import opened Peers
  import opened Hubs
  import opened HubInvariants
  import opened HubOrigins
  import HubTheorems
  import Handlers

  /** What a handler has met so far: the answer of the API server, whether a
      connection was opened, what came back over it, the endpoints of its peers
      once it asked for them, and the outcomes of the hops of its walk. */
  datatype Met = Met(
    lookup: Handlers.Lookup, dialed: bool, trip: Transport, pm: Handlers.PeerManager, hops: seq<Hop>)
  {
    predicate Listed() {
      pm.PeerManager? && PeersOf(pm.endpoints, pm.self).Peers?
    }
  }

  const NOTHING := Met(Handlers.NotFound, false, Broken(""), Handlers.NoPeerManager, [])

  /** The outcome of a hop that a step of handler `t` decides, if it decides one. */
  function HopOf(x: Task, tasks: map<TaskId, Task>, act: Act): seq<Hop> {
    match act
    case Try(parse, cert) =>
      if !x.pc.Walking? || x.pc.i >= |x.peers| || x.peers[x.pc.i] == "" then []
      else if parse.Error? then [BadURL(parse.text)]
      else if cert.Error? then [BadCert(cert.text)]
      else []
    case Misroute => if x.pc.Calling? then [Misrouted(x.pc.path)] else []
    case Receive =>
      if x.pc.Calling? && x.pc.at.Serving? && x.pc.at.child in tasks && tasks[x.pc.at.child].pc.Replied?
      then [Received(tasks[x.pc.at.child].pc.status)] else []
    case Fail(text) => [Called(Broken(text))]
    case _ => []
  }

  function Meets(met: Met, s: Sys, t: TaskId, act: Act): Met
    requires t in s.tasks
  {
    var x := s.tasks[t];
    match act
    case Lookup(failed) =>
      met.(lookup := if failed then Handlers.GetError("")
                     else if x.key in s.store then Handlers.Got(s.store[x.key]) else Handlers.NotFound)
    case Dial(_, out, _) => met.(dialed := out.Dialed?)
    case Respond(status) => met.(trip := Answered(status, ""))
    case List(endpoints, self) => met.(pm := Handlers.PeerManager(endpoints, self))
    case _ => met.(hops := met.hops + HopOf(x, s.tasks, act))
  }

  function MeetsIn(met: Met, s: Sys, step: Step, t: TaskId): Met {
    if step.Do? && step.task == t && t in s.tasks then Meets(met, s, t, step.act) else met
  }

  /** What handler `t` met in the first `n` steps. */
  function MetBy(run: seq<Sys>, steps: seq<Step>, n: nat, t: TaskId): Met
    requires n <= |steps| < |run|
  {
    if n == 0 then NOTHING else MeetsIn(MetBy(run, steps, n - 1, t), run[n - 1], steps[n - 1], t)
  }

  ghost predicate AllAdvance(hops: seq<Hop>) {
    forall i :: 0 <= i < |hops| ==> hops[i].Advances()
  }

  /** `status` is the answer of the first hop that does not advance, which is the
      last one decided, or 502 after the hops of all peers advanced. */
  ghost predicate Decided(peers: seq<string>, hops: seq<Hop>, status: int) {
    || (AllAdvance(hops) && |hops| == |peers| && status == BAD_GATEWAY_REPLY.status)
    || (0 < |hops| <= |peers| && AllAdvance(hops[..|hops| - 1])
        && !hops[|hops| - 1].Advances() && status == hops[|hops| - 1].Verdict().status)
  }

  /** The hops that were decided, and where they leave the handler.  A handler that
      never listed peers decides none. */
  ghost predicate WalkState(x: Task, met: Met) {
    && (met.Listed() ==> x.mgr && "" !in x.peers && x.peers == PeersOf(met.pm.endpoints, met.pm.self).peers)
    && (!met.Listed() ==> met.hops == [] && x.peers == [])
    && match x.pc
       case Walking(i, _) => met.Listed() && |met.hops| == i && AllAdvance(met.hops)
       case Calling(i, _, _) => met.Listed() && |met.hops| == i && AllAdvance(met.hops)
       case Replied(status) => met.Listed() ==> Decided(x.peers, met.hops, status)
       case _ => !met.Listed()
  }

  // ------------------------------------------------------------ walk and search

  lemma {:induction false} HopAdded(hops: seq<Hop>, hop: Hop)
    ensures var more := hops + [hop];
      && |more| == |hops| + 1 && more[..|hops|] == hops && more[|hops|] == hop
      && (AllAdvance(more) <==> AllAdvance(hops) && hop.Advances())
  {
    var more := hops + [hop];
    assert more[..|hops|] == hops;
    assert forall i :: 0 <= i < |hops| ==> more[i] == hops[i];
  }

  lemma {:induction false} ReactDecides(x: Task, met: Met, hop: Hop)
    requires ValidKey(x.key) && x.pc.Calling? && PathOk(x) && WalkState(x, met)
    ensures WalkState(x.(pc := React(hop, x.key, x.pc.i, x.pc.path)), met.(hops := met.hops + [hop]))
  {
    ReactOk(x, hop, React(hop, x.key, x.pc.i, x.pc.path));
    HopAdded(met.hops, hop);
  }

  lemma {:induction false} TryDecides(s: Sys, t: TaskId, act: Act, met: Met)
    requires CanAct(s, t, act) && act.Try? && PathOk(s.tasks[t]) && WalkState(s.tasks[t], met)
    ensures WalkState(s.tasks[t].(pc := NextPc(s, t, act)), Meets(met, s, t, act))
  {
    var x := s.tasks[t];
    assert met.hops + [] == met.hops;
    if x.pc.i < |x.peers| {
      assert x.peers[x.pc.i] in x.peers;
      if act.parse.Error? {
        HopAdded(met.hops, BadURL(act.parse.text));
      } else if act.cert.Error? {
        HopAdded(met.hops, BadCert(act.cert.text));
      }
    }
  }

  lemma {:induction false} ActDecides(s: Sys, t: TaskId, act: Act, met: Met)
    requires CanAct(s, t, act) && TaskOk(s.tasks, t) && WalkState(s.tasks[t], met)
    ensures WalkState(NewTasks(s, t, act)[t], Meets(met, s, t, act))
  {
    var x := s.tasks[t];
    ActFrame(s, t, act);
    match act
    case Try(_, _) => TryDecides(s, t, act, met);
    case Misroute => ReactDecides(x, met, Misrouted(x.pc.path));
    case Receive => ReactDecides(x, met, Received(s.tasks[x.pc.at.child].pc.status));
    case Fail(text) => ReactDecides(x, met, Called(Broken(text)));
    case List(endpoints, self) => NoEmptyPeer(endpoints, self);
    case _ => assert met.hops + [] == met.hops;
  }

  // ------------------------------------------------------- handler and function

  /** How far the handler is, given what it met outside its walk. */
  ghost predicate Stage(x: Task, met: Met) {
    match x.pc
    case Begin => met == NOTHING
    case Found => met == NOTHING.(lookup := met.lookup) && met.lookup.Got?
    case HasConn(_) => met == NOTHING.(lookup := met.lookup, dialed := true) && met.lookup.Got?
    case LocalFailed => LocalOver(met) && met.pm.NoPeerManager?
    case Walking(_, _) => LocalOver(met)
    case Calling(_, _, _) => LocalOver(met)
    case Replied(status) => if met.Listed() then LocalOver(met) else status == Answer(x, met)
  }

  /** The cluster was found and no answer came from a session of this hub. */
  predicate LocalOver(met: Met) {
    met.lookup.Got? && !(met.dialed && met.trip.Answered?)
  }

  /** The surroundings in which a walk meets `hops`. */
  function WorldOf(hops: seq<Hop>): World {
    World(
      (i: nat, url: string) => if i < |hops| && hops[i].BadURL? then Error(hops[i].text) else NoError,
      (i: nat) => if i < |hops| && hops[i].BadCert? then Error(hops[i].text) else NoError,
      (i: nat, call: Call) => if i < |hops| && hops[i].Called? then hops[i].back else Broken(""))
  }

  /** What the proxy handler does, given what it meets: its reply and its calls. */
  function Doing(x: Task, met: Met): Walk {
    Handlers.Serving(met.lookup, met.dialed, met.trip, met.pm, WorldOf(met.hops), x.key, x.sub)
  }

  function Answer(x: Task, met: Met): int {
    Doing(x, met).reply.status
  }

  /** A step of the walk changes only what was met on it. */
  lemma {:induction false} WalkStages(s: Sys, t: TaskId, act: Act, met: Met)
    requires CanAct(s, t, act) && TaskOk(s.tasks, t) && Stage(s.tasks[t], met)
    requires s.tasks[t].pc.Walking? || s.tasks[t].pc.Calling?
    ensures PastLocal(NextPc(s, t, act))
    ensures LocalOver(Meets(met, s, t, act)) && Meets(met, s, t, act).pm == met.pm
  {
    NextOk(s, t, act);
  }

  /** A step before the walk leads to the next stage. */
  lemma {:induction false} LocalStages(s: Sys, t: TaskId, act: Act, met: Met)
    requires CanAct(s, t, act) && WalkState(s.tasks[t], met) && Stage(s.tasks[t], met)
    requires !s.tasks[t].pc.Walking? && !s.tasks[t].pc.Calling?
    ensures Stage(NewTasks(s, t, act)[t], Meets(met, s, t, act))
  {
    assert met.hops + [] == met.hops;
  }

  lemma {:induction false} ActStages(s: Sys, t: TaskId, act: Act, met: Met)
    requires CanAct(s, t, act) && TaskOk(s.tasks, t) && WalkState(s.tasks[t], met) && Stage(s.tasks[t], met)
    ensures Stage(NewTasks(s, t, act)[t], Meets(met, s, t, act))
  {
    ActFrame(s, t, act);
    if s.tasks[t].pc.Walking? || s.tasks[t].pc.Calling? {
      WalkStages(s, t, act, met);
    } else {
      LocalStages(s, t, act, met);
    }
  }

  /** A walk that is decided is the search, in the surroundings that it met. */
  lemma {:induction false} DecidedIsSearch(peers: seq<string>, hops: seq<Hop>, status: int, key: Key, path: string)
    requires "" !in peers && Decided(peers, hops, status)
    ensures var walk := WalkFrom(WorldOf(hops), peers, 0, key, path);
      walk.reply.status == status && |walk.calls| == CalledHops(hops)
  {
    var world := WorldOf(hops);
    forall i | 0 <= i < |hops|
      ensures HopAt(world, i, peers[i], key, path) == hops[i]
    {
    }
    var n := if AllAdvance(hops) then |hops| else |hops| - 1;
    assert StopsAt(world, peers, 0, key, path, n);
    StopIsFirst(world, peers, 0, key, path, n);
  }

  // --------------------------------------------------------------- calls to peers

  /** How many of the hops were called: all of them, but for a last one whose URL or
      certificate failed. */
  function CalledHops(hops: seq<Hop>): nat {
    if hops == [] then 0 else |hops| - if hops[|hops| - 1].Called? then 0 else 1
  }

  /** The call that a step of handler `t` sends out, as the state after it tells. */
  function CallSent(tasks: map<TaskId, Task>, step: Step, t: TaskId): seq<Call> {
    if step.Do? && step.task == t && step.act.Try? && t in tasks then CallOut(tasks[t]) else []
  }

  function CallOut(x: Task): seq<Call> {
    if x.pc.Calling? && x.pc.i < |x.peers| then [Call(x.peers[x.pc.i], x.pc.path)] else []
  }

  /** The calls that handler `t` sent in the first `n` steps. */
  function CallsBy(run: seq<Sys>, steps: seq<Step>, n: nat, t: TaskId): seq<Call>
    requires n <= |steps| < |run|
  {
    if n == 0 then [] else CallsBy(run, steps, n - 1, t) + CallSent(run[n].tasks, steps[n - 1], t)
  }

  function CallCount(x: Task, met: Met): nat {
    match x.pc
    case Walking(i, _) => i
    case Calling(i, _, _) => i + 1
    case Replied(_) => CalledHops(met.hops)
    case _ => 0
  }

  /** The peers in front were called, in order, at the path of the request. */
  ghost predicate CallState(x: Task, met: Met, calls: seq<Call>) {
    && |calls| == CallCount(x, met) <= |x.peers|
    && forall i :: 0 <= i < |calls| ==> calls[i] == Call(x.peers[i], PeerPath(x.key, x.sub))
  }

  lemma {:induction false} TrySends(s: Sys, t: TaskId, act: Act, met: Met, calls: seq<Call>)
    requires CanAct(s, t, act) && act.Try? && TaskOk(s.tasks, t)
    requires WalkState(s.tasks[t], met) && CallState(s.tasks[t], met, calls)
    ensures CallState(NewTasks(s, t, act)[t], Meets(met, s, t, act), calls + CallOut(NewTasks(s, t, act)[t]))
  {
    TryOk(s, t, act);
    var more := HopOf(s.tasks[t], s.tasks, act);
    if more == [] {
      assert met.hops + more == met.hops;
    } else {
      HopAdded(met.hops, more[0]);
    }
  }

  lemma {:induction false} ReactSends(x: Task, met: Met, hop: Hop, calls: seq<Call>)
    requires ValidKey(x.key) && x.pc.Calling? && PathOk(x) && WalkState(x, met) && CallState(x, met, calls)
    requires hop.Called?
    ensures CallState(x.(pc := React(hop, x.key, x.pc.i, x.pc.path)), met.(hops := met.hops + [hop]), calls)
  {
    HopAdded(met.hops, hop);
  }

  lemma {:induction false} ActSends(s: Sys, t: TaskId, act: Act, met: Met, calls: seq<Call>)
    requires CanAct(s, t, act) && TaskOk(s.tasks, t)
    requires WalkState(s.tasks[t], met) && CallState(s.tasks[t], met, calls)
    ensures var tasks' := NewTasks(s, t, act);
      CallState(tasks'[t], Meets(met, s, t, act), calls + CallSent(tasks', Do(t, act), t))
  {
    if act.Try? {
      TrySends(s, t, act, met, calls);
    } else {
      assert calls + CallSent(NewTasks(s, t, act), Do(t, act), t) == calls;
      if s.tasks[t].pc.Calling? { CallAnswered(s, t, act, met, calls); } else { NothingSent(s, t, act, met, calls); }
    }
  }

  /** While a call is out no other is sent. */
  lemma {:induction false} CallAnswered(s: Sys, t: TaskId, act: Act, met: Met, calls: seq<Call>)
    requires CanAct(s, t, act) && TaskOk(s.tasks, t) && s.tasks[t].pc.Calling?
    requires WalkState(s.tasks[t], met) && CallState(s.tasks[t], met, calls)
    ensures CallState(NewTasks(s, t, act)[t], Meets(met, s, t, act), calls)
  {
    var x := s.tasks[t];
    ActFrame(s, t, act);
    match act
    case Misroute => ReactSends(x, met, Misrouted(x.pc.path), calls);
    case Receive => ReactSends(x, met, Received(s.tasks[x.pc.at.child].pc.status), calls);
    case Fail(text) => ReactSends(x, met, Called(Broken(text)), calls);
    case Arrive(_, _) => assert met.hops + [] == met.hops;
  }

  /** Before its walk a handler calls no peer. */
  lemma {:induction false} NothingSent(s: Sys, t: TaskId, act: Act, met: Met, calls: seq<Call>)
    requires CanAct(s, t, act) && !s.tasks[t].pc.Walking? && !s.tasks[t].pc.Calling?
    requires WalkState(s.tasks[t], met) && CallState(s.tasks[t], met, calls)
    ensures CallState(NewTasks(s, t, act)[t], Meets(met, s, t, act), calls)
  {
    assert met.hops + [] == met.hops;
  }

  // ------------------------------------------------------------------ theorems

  lemma {:induction false} StepMeets(s: Sys, step: Step, t: TaskId, met: Met)
    requires TasksOk(s.tasks) && Enabled(s, step) && t in s.tasks
    requires WalkState(s.tasks[t], met) && Stage(s.tasks[t], met)
    ensures t in After(s, step).tasks
    ensures WalkState(After(s, step).tasks[t], MeetsIn(met, s, step, t))
    ensures Stage(After(s, step).tasks[t], MeetsIn(met, s, step, t))
  {
    assert TaskOk(s.tasks, t);
    if step.Do? {
      ActEffects(s, step.task, step.act);
      ActFrame(s, step.task, step.act);
      if step.task == t {
        ActDecides(s, t, step.act, met);
        ActStages(s, t, step.act, met);
      }
    }
  }

  lemma {:induction false} NewHandler(s: Sys, step: Step, t: TaskId)
    requires Enabled(s, step) && t !in s.tasks && t in After(s, step).tasks
    ensures WalkState(After(s, step).tasks[t], NOTHING) && Stage(After(s, step).tasks[t], NOTHING)
  {
    if step.Do? {
      ActEffects(s, step.task, step.act);
      ActFrame(s, step.task, step.act);
    }
  }

  lemma {:induction false} NextSends(s: Sys, step: Step, t: TaskId, met: Met, calls: seq<Call>)
    requires TasksOk(s.tasks) && Enabled(s, step) && t in After(s, step).tasks
    requires if t in s.tasks then WalkState(s.tasks[t], met) && CallState(s.tasks[t], met, calls)
             else met == NOTHING && calls == []
    ensures var tasks' := After(s, step).tasks;
      CallState(tasks'[t], MeetsIn(met, s, step, t), calls + CallSent(tasks', step, t))
  {
    if step.Do? {
      ActEffects(s, step.task, step.act);
      ActFrame(s, step.task, step.act);
    }
    if step.Do? && step.task == t {
      assert TaskOk(s.tasks, t);
      ActSends(s, t, step.act, met, calls);
    } else {
      assert calls + CallSent(After(s, step).tasks, step, t) == calls;
    }
  }

  lemma {:induction false} RunSends(
      run: seq<Sys>, steps: seq<Step>, n: nat, t: TaskId, met: Met, calls: seq<Call>)
    requires IsRun(run, steps) && n < |steps|
    requires if t in run[n].tasks then WalkState(run[n].tasks[t], met) && CallState(run[n].tasks[t], met, calls)
             else met == NOTHING && calls == []
    ensures var more := calls + CallSent(run[n + 1].tasks, steps[n], t);
      if t in run[n + 1].tasks then CallState(run[n + 1].tasks[t], MeetsIn(met, run[n], steps[n], t), more)
      else more == []
  {
    RunStep(run, steps, n);
    Reachable(run, steps, n);
    if t in run[n + 1].tasks {
      NextSends(run[n], steps[n], t, met, calls);
    } else {
      TaskStays(run, steps, n, t);
    }
  }

  lemma {:induction false} TaskStays(run: seq<Sys>, steps: seq<Step>, n: nat, t: TaskId)
    requires IsRun(run, steps) && n < |steps|
    ensures t in run[n].tasks ==> t in run[n + 1].tasks
  {
    if t in run[n].tasks { TaskKept(run, steps, n, n + 1, t); }
  }

  lemma {:induction false} CallsHold(run: seq<Sys>, steps: seq<Step>, n: nat, t: TaskId)
    requires IsRun(run, steps) && n < |run|
    ensures if t in run[n].tasks then CallState(run[n].tasks[t], MetBy(run, steps, n, t), CallsBy(run, steps, n, t))
            else CallsBy(run, steps, n, t) == []
  {
    if n > 0 {
      CallsHold(run, steps, n - 1, t);
      if t in run[n - 1].tasks { MetHolds(run, steps, n - 1, t); } else { NothingMet(run, steps, n - 1, t); }
      RunSends(run, steps, n - 1, t, MetBy(run, steps, n - 1, t), CallsBy(run, steps, n - 1, t));
    }
  }

  lemma {:induction false} NothingMet(run: seq<Sys>, steps: seq<Step>, n: nat, t: TaskId)
    requires IsRun(run, steps) && n < |run| && t !in run[n].tasks
    ensures MetBy(run, steps, n, t) == NOTHING
  {
    if n > 0 {
      RunIdentity(run, steps);
      assert SameIdentity(run[n - 1], run[n]);
      NothingMet(run, steps, n - 1, t);
    }
  }

  lemma {:induction false} NextMeets(s: Sys, step: Step, t: TaskId, met: Met)
    requires TasksOk(s.tasks) && Enabled(s, step) && t in After(s, step).tasks
    requires if t in s.tasks then WalkState(s.tasks[t], met) && Stage(s.tasks[t], met) else met == NOTHING
    ensures WalkState(After(s, step).tasks[t], MeetsIn(met, s, step, t))
    ensures Stage(After(s, step).tasks[t], MeetsIn(met, s, step, t))
  {
    if t in s.tasks { StepMeets(s, step, t, met); } else { NewHandler(s, step, t); }
  }

  lemma {:induction false} RunMeets(run: seq<Sys>, steps: seq<Step>, n: nat, t: TaskId, met: Met)
    requires IsRun(run, steps) && n < |steps| && t in run[n + 1].tasks
    requires if t in run[n].tasks then WalkState(run[n].tasks[t], met) && Stage(run[n].tasks[t], met)
             else met == NOTHING
    ensures WalkState(run[n + 1].tasks[t], MeetsIn(met, run[n], steps[n], t))
    ensures Stage(run[n + 1].tasks[t], MeetsIn(met, run[n], steps[n], t))
  {
    RunStep(run, steps, n);
    Reachable(run, steps, n);
    NextMeets(run[n], steps[n], t, met);
  }

  lemma {:induction false} MetHolds(run: seq<Sys>, steps: seq<Step>, n: nat, t: TaskId)
    requires IsRun(run, steps) && n < |run| && t in run[n].tasks
    ensures WalkState(run[n].tasks[t], MetBy(run, steps, n, t)) && Stage(run[n].tasks[t], MetBy(run, steps, n, t))
  {
    if n > 0 {
      if t in run[n - 1].tasks { MetHolds(run, steps, n - 1, t); } else { NothingMet(run, steps, n - 1, t); }
      RunMeets(run, steps, n - 1, t, MetBy(run, steps, n - 1, t));
    }
  }

  /** In every run, the answer of a handler that listed its peers is that of the
      first hop in list order that does not advance, and 502 if the list runs out
      or is empty; and while it walks, exactly the peers in front of it have
      advanced. */
  lemma {:induction false} WalkIsSearch(run: seq<Sys>, steps: seq<Step>, n: nat, t: TaskId)
    requires IsRun(run, steps) && n < |run| && t in run[n].tasks
    ensures WalkState(run[n].tasks[t], MetBy(run, steps, n, t))
  {
    MetHolds(run, steps, n, t);
  }

  lemma {:induction false} AnswerFound(x: Task, met: Met, calls: seq<Call>)
    requires x.pc.Replied? && WalkState(x, met) && Stage(x, met) && CallState(x, met, calls)
    ensures x.pc.status == Answer(x, met) && calls == Doing(x, met).calls
  {
    var path := PeerPath(x.key, x.sub);
    if met.Listed() {
      DecidedIsSearch(x.peers, met.hops, x.pc.status, x.key, path);
      CallsInOrder(WorldOf(met.hops), x.peers, x.key, path);
    }
  }

  /** In every run, the status that a handler answers with, the entry handler or
      one at a peer, and the calls to peers that it has sent by then, are those of
      the proxy handler as a function of what it met. */
  lemma {:induction false} HandlerAnswers(run: seq<Sys>, steps: seq<Step>, n: nat, t: TaskId)
    requires IsRun(run, steps) && n < |run| && t in run[n].tasks && run[n].tasks[t].pc.Replied?
    ensures var x, met := run[n].tasks[t], MetBy(run, steps, n, t);
      x.pc.status == Answer(x, met) && CallsBy(run, steps, n, t) == Doing(x, met).calls
  {
    MetHolds(run, steps, n, t);
    CallsHold(run, steps, n, t);
    AnswerFound(run[n].tasks[t], MetBy(run, steps, n, t), CallsBy(run, steps, n, t));
  }

  // ------------------------------------------------------------ whose answer it is

  /** Why a handler answers by itself, instead of passing on what a peer answered:
      the cluster cannot be looked up or is not there; the agent answered; no
      connection and no peer manager; the peers cannot be listed; their list is at
      its end; a URL or a certificate failed; the peer's router redirects the path;
      or a call broke. */
  ghost predicate Decides(s: Sys, t: TaskId, act: Act, status: int)
    requires t in s.tasks
  {
    var x := s.tasks[t];
    match act
    case Lookup(failed) => if failed then status == 500 else x.key !in s.store && status == 404
    case Respond(answer) => x.pc.HasConn? && status == answer
    case GiveUp => !x.mgr && status == 502
    case List(endpoints, self) => x.mgr && !PeersOf(endpoints, self).Peers? && status == 500
    case Try(parse, cert) =>
      x.pc.Walking? && if x.pc.i == |x.peers| then status == 502 else (parse.Error? || cert.Error?) && status == 500
    case Misroute => !Servable(x.key, x.sub) && status == 301
    case Fail(text) => x.pc.Calling? && text != "" && status == 502
    case _ => false
  }

  /** Handler `t` passes on what handler `u` answered, which is not a 502. */
  predicate PassesOn(s: Sys, t: TaskId, act: Act, u: TaskId, status: int)
    requires t in s.tasks
  {
    && act.Receive? && s.tasks[t].pc.Calling? && s.tasks[t].pc.at == Serving(u)
    && u in s.tasks && s.tasks[u].pc == Replied(status) && status != 502
  }

  lemma {:induction false} ReplyStep(s: Sys, t: TaskId, act: Act)
    requires CanAct(s, t, act) && TaskOk(s.tasks, t) && !s.tasks[t].pc.Replied? && NextPc(s, t, act).Replied?
    ensures var x, status := s.tasks[t], NextPc(s, t, act).status;
      || Decides(s, t, act, status)
      || (x.pc.Calling? && x.pc.at.Serving? && PassesOn(s, t, act, x.pc.at.child, status))
  {
    var x := s.tasks[t];
    match act
    case Try(_, _) => if x.pc.i < |x.peers| { assert x.peers[x.pc.i] in x.peers; }
    case Misroute => RouteRoundTrip(x.key, x.sub);
    case _ =>
  }

  lemma {:induction false} RepliedAt(run: seq<Sys>, steps: seq<Step>, n: nat, t: TaskId) returns (j: nat)
    requires IsRun(run, steps) && n < |run| && t in run[n].tasks && run[n].tasks[t].pc.Replied?
    ensures j < n && steps[j].Do? && steps[j].task == t && t in run[j].tasks
    ensures CanAct(run[j], t, steps[j].act) && !run[j].tasks[t].pc.Replied?
    ensures NextPc(run[j], t, steps[j].act) == run[n].tasks[t].pc
  {
    RunStep(run, steps, n - 1);
    var s, step := run[n - 1], steps[n - 1];
    if step.Do? {
      ActEffects(s, step.task, step.act);
      ActFrame(s, step.task, step.act);
    }
    if t in s.tasks && s.tasks[t].pc.Replied? { j := RepliedAt(run, steps, n - 1, t); } else { j := n - 1; }
  }

  /** Between steps `i` and `n`, handler `t` received this answer from `u`. */
  ghost predicate ReceivedFrom(run: seq<Sys>, steps: seq<Step>, i: nat, n: nat, t: TaskId, u: TaskId, status: int)
    requires n <= |steps| < |run|
  {
    exists j :: i < j < n && steps[j] == Do(t, Receive) && t in run[j].tasks && PassesOn(run[j], t, Receive, u, status)
  }

  /** Every answer has a reason: in some step, handler `u` of the same request, the
      answering one or one that its walk had called, decided it, and it was passed
      on unchanged. */
  lemma {:induction false} AnswerOrigin(run: seq<Sys>, steps: seq<Step>, n: nat, t: TaskId)
      returns (u: TaskId, i: nat)
    requires IsRun(run, steps) && n < |run| && t in run[n].tasks && run[n].tasks[t].pc.Replied?
    ensures i < n && steps[i].Do? && steps[i].task == u && u in run[i].tasks
    ensures run[i].tasks[u].root == run[n].tasks[t].root
    ensures Decides(run[i], u, steps[i].act, run[n].tasks[t].pc.status)
    ensures u != t ==> ReceivedFrom(run, steps, i, n, t, u, run[n].tasks[t].pc.status)
  {
    var j := RepliedAt(run, steps, n, t);
    var status := run[n].tasks[t].pc.status;
    Reachable(run, steps, j);
    TaskKept(run, steps, j, n, t);
    assert TaskOk(run[j].tasks, t);
    ReplyStep(run[j], t, steps[j].act);
    u, i := t, j;
    if !Decides(run[j], t, steps[j].act, status) {
      u := run[j].tasks[t].pc.at.child;
      i := ChildDecides(run, steps, j, t);
    }
  }

  /** A handler at a peer passes nothing on. */
  lemma {:induction false} ChildDecides(run: seq<Sys>, steps: seq<Step>, j: nat, t: TaskId) returns (i: nat)
    requires IsRun(run, steps) && j < |run| && t in run[j].tasks
    requires run[j].tasks[t].pc.Calling? && run[j].tasks[t].pc.at.Serving?
    requires var c := run[j].tasks[t].pc.at.child; c in run[j].tasks && run[j].tasks[c].pc.Replied?
    ensures var c := run[j].tasks[t].pc.at.child;
      && i < j && steps[i].Do? && steps[i].task == c && c in run[i].tasks
      && run[i].tasks[c].root == run[j].tasks[t].root
      && Decides(run[i], c, steps[i].act, run[j].tasks[c].pc.status)
  {
    var c := run[j].tasks[t].pc.at.child;
    Reachable(run, steps, j);
    assert IsChild(run[j].tasks, c, t) && TaskOk(run[j].tasks, t);
    i := RepliedAt(run, steps, j, c);
    Reachable(run, steps, i);
    TaskKept(run, steps, i, j, c);
    assert TaskOk(run[i].tasks, c);
    ReplyStep(run[i], c, steps[i].act);
  }

  /** What a client is told, unless it is one of the four answers that hubs give
      themselves, was answered by an agent of the cluster that the request was
      submitted for, over a connection that the request was sent over. */
  lemma {:induction false} AgentAnswered(run: seq<Sys>, steps: seq<Step>, a: nat, n: nat)
      returns (o: Reach, i: nat)
    requires IsRun(run, steps) && a < n < |run| && steps[a].Submit?
    requires steps[a].task in run[n].tasks && run[n].tasks[steps[a].task].pc.Replied?
    requires run[n].tasks[steps[a].task].pc.status !in {301, 404, 500, 502}
    ensures o in run[n].delivered && o.root == steps[a].task
    ensures i < n && steps[i] == Do(o.task, Respond(run[n].tasks[steps[a].task].pc.status))
    ensures o.sess in run[n].registry && run[n].registry[o.sess].key == steps[a].key
  {
    var r := steps[a].task;
    var u;
    u, i := AnswerOrigin(run, steps, n, r);
    ServedAsSubmitted(run, steps, a, n);
    RunStep(run, steps, i);
    TaskKept(run, steps, i, n, u);
    o := Reach(r, u, run[i].tasks[u].pc.sess);
    SendsOwnConn(run, steps, i, o);
    var k :| 0 <= k < i && Dials(steps[k], u, o.sess);
    assert SentOver(steps, n, u, o.sess);
    DeliveredExactly(run, steps, n, o);
    var b, d, e := HubTheorems.RightCluster(run, steps, n, o);
    ServedAsSubmitted(run, steps, b, n);
  }
}
