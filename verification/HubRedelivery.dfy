/** The risks of module `HubDelivery` are exactly the steps after which a request
    can be delivered twice without any further risk, and each kind, alone, brings
    about a second delivery in some run. */
module HubRedelivery {
  import opened Paths
  import opened Dialing
  import opened SessionLists
  import opened Peers
  import opened Statuses
  import opened Hubs
  import opened HubInvariants
  import opened HubDelivery
  import Admission

  /** A sequence of steps that risks nothing for request `r`. */
  datatype Trip = Trip(path: seq<Sys>, steps: seq<Step>) {
    ghost predicate Goes(a: Sys, b: Sys, r: TaskId) {
      && |path| == |steps| + 1 && path[0] == a && path[|steps|] == b
      && forall i :: 0 <= i < |steps| ==>
           && Enabled(path[i], steps[i]) && path[i + 1] == After(path[i], steps[i])
           && RisksOf(path[i], steps[i], r) == {}
    }
  }

  ghost predicate Leads(a: Sys, b: Sys, r: TaskId) {
    exists trip: Trip :: trip.Goes(a, b, r)
  }

  lemma {:induction false} OneStep(s: Sys, step: Step, r: TaskId) returns (s': Sys)
    requires Enabled(s, step) && RisksOf(s, step, r) == {}
    ensures s' == After(s, step) && Leads(s, s', r)
  {
    s' := After(s, step);
    assert Trip([s, s'], [step]).Goes(s, s', r);
  }

  lemma {:induction false} Chain(a: Sys, b: Sys, c: Sys, r: TaskId)
    requires Leads(a, b, r) && Leads(b, c, r)
    ensures Leads(a, c, r)
  {
    var p: Trip :| p.Goes(a, b, r);
    var q: Trip :| q.Goes(b, c, r);
    var n := |p.steps|;
    var t := Trip(p.path + q.path[1..], p.steps + q.steps);
    forall i | 0 <= i < |t.steps|
      ensures Enabled(t.path[i], t.steps[i]) && t.path[i + 1] == After(t.path[i], t.steps[i])
      ensures RisksOf(t.path[i], t.steps[i], r) == {}
    {
      if i < n {
        assert t.path[i] == p.path[i] && t.path[i + 1] == p.path[i + 1] && t.steps[i] == p.steps[i];
      } else {
        assert t.path[i] == q.path[i - n] && t.path[i + 1] == q.path[i - n + 1] && t.steps[i] == q.steps[i - n];
      }
    }
    assert t.Goes(a, c, r);
  }

  // --------------------------------------------------------------- one handler

  /** A live session that `hub` lists for the cluster. */
  ghost predicate Live(s: Sys, key: Key, hub: HubId, x: Sess) {
    x in Listed(ListHubs(hub, s.hubs), KeyString(key)) && x !in s.down
  }

  /** The cluster exists, and the hub has a live session for it. */
  ghost predicate CanServe(s: Sys, key: Key, hub: HubId) {
    key in s.store && exists x :: Live(s, key, hub, x)
  }

  /** What the handlers below leave as it is: clusters, and sessions that are live. */
  ghost predicate LiveStay(s: Sys, s': Sys) {
    && s'.store == s.store && s'.down == s.down
    && forall key, h, x :: Live(s, key, h, x) <==> Live(s', key, h, x)
  }

  ghost predicate OthersStay(s: Sys, s': Sys, r: TaskId) {
    forall u :: u in s.tasks && u != r ==> u in s'.tasks && s'.tasks[u] == s.tasks[u]
  }

  function WithPc(s: Sys, t: TaskId, pc: Pc): map<TaskId, Task>
    requires t in s.tasks
  {
    s.tasks[t := s.tasks[t].(pc := pc)]
  }

  lemma {:induction false} LooksUp(s: Sys, t: TaskId, r: TaskId) returns (s': Sys)
    requires t in s.tasks && s.tasks[t].pc.Begin? && s.tasks[t].key in s.store
    ensures Leads(s, s', r) && LiveStay(s, s') && s'.delivered == s.delivered
    ensures s'.tasks == WithPc(s, t, Found)
  {
    s' := OneStep(s, Do(t, Lookup(false)), r);
  }

  lemma {:induction false} DialFinds(s: Sys, t: TaskId, r: TaskId) returns (s': Sys)
    requires t in s.tasks && s.tasks[t].pc.Found? && CanServe(s, s.tasks[t].key, s.tasks[t].hub)
    ensures Leads(s, s', r) && LiveStay(s, s') && s'.delivered == s.delivered
    ensures exists sess :: s'.tasks == WithPc(s, t, HasConn(sess))
  {
    var x := s.tasks[t];
    var lists := ListHubs(x.hub, s.hubs);
    var ss := Listed(lists, KeyString(x.key));
    var sess :| Live(s, x.key, x.hub, sess);
    var idx :| 0 <= idx < |ss| && ss[idx] == sess;
    var log := [Attempt(idx, sess, true)];
    assert DialLog(ss, log, Dialed(sess), ss) && Failures(log) == [];
    s' := OneStep(s, Do(t, Dial(log, Dialed(sess), lists)), r);
    assert s'.down == s.down;
    assert s'.tasks == WithPc(s, t, HasConn(sess));
  }

  /** Without a live session a dial fails, and removes nothing that is live. */
  lemma {:induction false} DialFails(s: Sys, t: TaskId, r: TaskId) returns (s': Sys)
    requires t in s.tasks && s.tasks[t].pc.Found? && !exists x :: Live(s, s.tasks[t].key, s.tasks[t].hub, x)
    ensures Leads(s, s', r) && LiveStay(s, s') && s'.delivered == s.delivered
    ensures s'.tasks == WithPc(s, t, LocalFailed)
  {
    var x := s.tasks[t];
    var lists, id := ListHubs(x.hub, s.hubs), KeyString(x.key);
    var log, after := DialMayFail(lists, id);
    DialConserves(Listed(lists, id), log, NoSession, []);
    forall i | 0 <= i < |Failures(log)|
      ensures Failures(log)[i] in s.down
    {
      assert Failures(log)[i] in multiset(Failures(log));
      assert Failures(log)[i] in multiset(Listed(lists, id));
      assert !Live(s, x.key, x.hub, Failures(log)[i]);
    }
    s' := OneStep(s, Do(t, Dial(log, NoSession, after)), r);
    forall key, h, y
      ensures Live(s, key, h, y) <==> Live(s', key, h, y)
    {
      if h == x.hub && KeyString(key) == id { assert !Live(s, x.key, x.hub, y); }
    }
  }

  lemma {:induction false} AgentResponds(s: Sys, t: TaskId, r: TaskId) returns (s': Sys)
    requires t in s.tasks && s.tasks[t].pc.HasConn?
    ensures Leads(s, s', r) && LiveStay(s, s')
    ensures s'.delivered == s.delivered + [Reach(s.tasks[t].root, t, s.tasks[t].pc.sess)]
    ensures s'.tasks == WithPc(s, t, Replied(200))
  {
    s' := OneStep(s, Do(t, Respond(200)), r);
  }

  /** A request of `r` reached one session more. */
  ghost predicate OneMore(s: Sys, s': Sys, r: TaskId) {
    |s'.delivered| == |s.delivered| + 1 && s.delivered <= s'.delivered && s'.delivered[|s.delivered|].root == r
  }

  /** From wherever it is, a handler with a session at hand delivers. */
  lemma {:induction false} HandlerDelivers(s: Sys, t: TaskId, r: TaskId) returns (s': Sys)
    requires t in s.tasks && s.tasks[t].root == r && MayDeliver(s.tasks[t].pc)
    requires !s.tasks[t].pc.HasConn? ==> CanServe(s, s.tasks[t].key, s.tasks[t].hub)
    ensures Leads(s, s', r) && LiveStay(s, s') && OthersStay(s, s', t) && OneMore(s, s', r)
    decreases if s.tasks[t].pc.Begin? then 2 else if s.tasks[t].pc.Found? then 1 else 0
  {
    if s.tasks[t].pc.HasConn? {
      s' := AgentResponds(s, t, r);
    } else {
      var s1;
      if s.tasks[t].pc.Begin? { s1 := LooksUp(s, t, r); } else { s1 := DialFinds(s, t, r); }
      s' := HandlerDelivers(s1, t, r);
      Chain(s, s1, s', r);
    }
  }

  lemma {:induction false} PeerGivesUp(s: Sys, t: TaskId, r: TaskId) returns (s': Sys)
    requires t in s.tasks && s.tasks[t].pc.LocalFailed? && !s.tasks[t].mgr
    ensures Leads(s, s', r) && LiveStay(s, s') && s'.delivered == s.delivered
    ensures s'.tasks == WithPc(s, t, Replied(BAD_GATEWAY))
  {
    s' := OneStep(s, Do(t, GiveUp), r);
  }

  /** At a hub without a live session, a handler answers 502. */
  lemma {:induction false} HandlerGivesUp(s: Sys, t: TaskId, r: TaskId) returns (s': Sys)
    requires t in s.tasks && s.tasks[t].pc.Begin? && !s.tasks[t].mgr
    requires s.tasks[t].key in s.store && !CanServe(s, s.tasks[t].key, s.tasks[t].hub)
    ensures Leads(s, s', r) && LiveStay(s, s') && s'.delivered == s.delivered
    ensures s'.tasks == WithPc(s, t, Replied(BAD_GATEWAY))
  {
    var s1 := LooksUp(s, t, r);
    var s2 := DialFails(s1, t, r);
    Chain(s, s1, s2, r);
    s' := PeerGivesUp(s2, t, r);
    Chain(s, s2, s', r);
  }

  // ------------------------------------------------------------------ one walk

  /** The walk of `r` is before hop `i`, with a path that the peers' router serves. */
  ghost predicate AtHop(s: Sys, r: TaskId, i: nat) {
    && r in s.tasks
    && var x := s.tasks[r];
       && x.root == r && ValidKey(x.key) && Servable(x.key, x.sub) && "" !in x.peers && x.key in s.store
       && x.pc.Walking? && x.pc.i == i && Norm(x.pc.path) == Norm(x.sub)
  }

  lemma {:induction false} Unused(tasks: map<TaskId, Task>) returns (c: TaskId)
    ensures c !in tasks
  {
    c := UnusedIn(tasks.Keys);
  }

  lemma {:induction false} UnusedIn(ids: set<TaskId>) returns (c: TaskId)
    ensures forall u :: u in ids ==> u < c
    decreases |ids|
  {
    if u :| u in ids {
      var d := UnusedIn(ids - {u});
      c := if u < d then d else u + 1;
      assert forall v :: v in ids ==> v == u || v in ids - {u};
    } else {
      c := 0;
    }
  }

  lemma {:induction false} PeerTried(s: Sys, r: TaskId, i: nat) returns (s': Sys)
    requires AtHop(s, r, i) && i < |s.tasks[r].peers|
    ensures Leads(s, s', r) && LiveStay(s, s') && s'.delivered == s.delivered
    ensures s'.tasks == WithPc(s, r, Calling(i, PeerPath(s.tasks[r].key, s.tasks[r].sub), InFlight))
  {
    var x := s.tasks[r];
    JoinThenTrim(x.key, x.pc.path);
    JoinThenTrim(x.key, x.sub);
    s' := OneStep(s, Do(r, Try(NoError, NoError)), r);
  }

  lemma {:induction false} PeerReached(s: Sys, r: TaskId, i: nat, c: TaskId, hub: HubId) returns (s': Sys)
    requires r in s.tasks && c !in s.tasks && s.tasks[r].root == r
    requires ValidKey(s.tasks[r].key) && Servable(s.tasks[r].key, s.tasks[r].sub)
    requires s.tasks[r].pc == Calling(i, PeerPath(s.tasks[r].key, s.tasks[r].sub), InFlight)
    ensures Leads(s, s', r) && LiveStay(s, s') && s'.delivered == s.delivered
    ensures var x := s.tasks[r];
      s'.tasks == WithPc(s, r, Calling(i, x.pc.path, Serving(c)))
                    [c := Task(r, i, hub, x.key, Norm(x.sub), false, [], Begin)]
  {
    RouteRoundTrip(s.tasks[r].key, s.tasks[r].sub);
    s' := OneStep(s, Do(r, Arrive(c, hub)), r);
  }

  /** The peer of the next hop is called, at `hub`, which starts a handler. */
  lemma {:induction false} PeerCalled(s: Sys, r: TaskId, i: nat, hub: HubId) returns (c: TaskId, s': Sys)
    requires AtHop(s, r, i) && i < |s.tasks[r].peers|
    ensures Leads(s, s', r) && LiveStay(s, s') && OthersStay(s, s', r) && s'.delivered == s.delivered
    ensures c !in s.tasks && c in s'.tasks && r in s'.tasks
    ensures var x := s.tasks[r];
      && s'.tasks[r] == x.(pc := Calling(i, PeerPath(x.key, x.sub), Serving(c)))
      && s'.tasks[c] == Task(r, i, hub, x.key, Norm(x.sub), false, [], Begin)
  {
    var s1 := PeerTried(s, r, i);
    c := Unused(s.tasks);
    s' := PeerReached(s1, r, i, c, hub);
    Chain(s, s1, s', r);
  }

  /** A 502 from the handler that serves the call moves the walk on. */
  lemma {:induction false} WalkGoesOn(s: Sys, r: TaskId, i: nat, c: TaskId) returns (s': Sys)
    requires r in s.tasks && c in s.tasks && c != r
    requires ValidKey(s.tasks[r].key)
    requires s.tasks[r].pc == Calling(i, PeerPath(s.tasks[r].key, s.tasks[r].sub), Serving(c))
    requires s.tasks[c].pc == Replied(BAD_GATEWAY)
    ensures Leads(s, s', r) && LiveStay(s, s') && s'.delivered == s.delivered
    ensures s'.tasks == WithPc(s, r, Walking(i + 1, Norm(s.tasks[r].sub)))
  {
    JoinThenTrim(s.tasks[r].key, s.tasks[r].sub);
    s' := OneStep(s, Do(r, Receive), r);
  }

  lemma {:induction false} PeerPassed(s: Sys, r: TaskId, i: nat, hub: HubId) returns (s': Sys)
    requires AtHop(s, r, i) && i < |s.tasks[r].peers| && !CanServe(s, s.tasks[r].key, hub)
    ensures Leads(s, s', r) && LiveStay(s, s') && OthersStay(s, s', r) && s'.delivered == s.delivered
    ensures AtHop(s', r, i + 1) && s'.tasks[r] == s.tasks[r].(pc := s'.tasks[r].pc)
  {
    var c, s1 := PeerCalled(s, r, i, hub);
    var s2 := HandlerGivesUp(s1, c, r);
    Chain(s, s1, s2, r);
    s' := WalkGoesOn(s2, r, i, c);
    Chain(s, s2, s', r);
  }

  /** The peers are at `hubs`, and the one at hop `k`, not before hop `i`, has a live
      session for the cluster. */
  ghost predicate Ahead(s: Sys, key: Key, peers: seq<string>, hubs: seq<HubId>, i: nat, k: nat) {
    |hubs| == |peers| && i <= k < |peers| && CanServe(s, key, hubs[k])
  }

  /** A walk delivers at the first hop ahead of it that has a live session. */
  lemma {:induction false} WalkDelivers(s: Sys, r: TaskId, hubs: seq<HubId>, i: nat, k: nat) returns (s': Sys)
    requires AtHop(s, r, i) && Ahead(s, s.tasks[r].key, s.tasks[r].peers, hubs, i, k)
    ensures Leads(s, s', r) && LiveStay(s, s') && OthersStay(s, s', r) && OneMore(s, s', r)
    decreases k - i
  {
    var s1;
    if CanServe(s, s.tasks[r].key, hubs[i]) {
      var c;
      c, s1 := PeerCalled(s, r, i, hubs[i]);
      s' := HandlerDelivers(s1, c, r);
    } else {
      s1 := PeerPassed(s, r, i, hubs[i]);
      s' := WalkDelivers(s1, r, hubs, i + 1, k);
    }
    Chain(s, s1, s', r);
  }

  /** After the local attempt failed, the peers are listed. */
  lemma {:induction false} PeersListed(s: Sys, r: TaskId, endpoints: Endpoints, self: string) returns (s': Sys)
    requires r in s.tasks && s.tasks[r].pc.LocalFailed? && s.tasks[r].mgr && PeersOf(endpoints, self).Peers?
    ensures Leads(s, s', r) && LiveStay(s, s') && s'.delivered == s.delivered
    ensures var x := s.tasks[r];
      s'.tasks == s.tasks[r := x.(peers := PeersOf(endpoints, self).peers, pc := Walking(0, x.sub))]
    ensures "" !in PeersOf(endpoints, self).peers
  {
    NoEmptyPeer(endpoints, self);
    s' := OneStep(s, Do(r, List(endpoints, self)), r);
  }

  // ------------------------------------------------------------ exposed requests

  ghost predicate Sent(s: Sys, r: TaskId) {
    exists k :: 0 <= k < |s.delivered| && s.delivered[k].root == r
  }

  /** A request that may reach a second session although no step is a risk any more:
      it was sent, or a handler that the walk left behind may still send it, and
      its walk goes on to another peer. */
  ghost predicate Exposed(s: Sys, r: TaskId) {
    && Inv(s) && r in s.tasks && s.tasks[r].root == r && Servable(s.tasks[r].key, s.tasks[r].sub)
    && match s.tasks[r].pc
       case LocalFailed => Sent(s, r)
       case Walking(i, _) => i < |s.tasks[r].peers| && (Sent(s, r) || exists c :: c != r && Able(s.tasks, c, r))
       case Calling(i, _, Serving(c)) =>
         && i + 1 < |s.tasks[r].peers| && Sent(s, r) && c in s.tasks
         && (s.tasks[c].pc.LocalFailed? || s.tasks[c].pc == Replied(BAD_GATEWAY))
       case _ => false
  }

  /** How the walk can go on: the peers that are listed, if they are not yet, the
      hubs that the peers turn out to be, and a hop whose hub has a live session. */
  datatype Course = Course(endpoints: Endpoints, self: string, hubs: seq<HubId>, hop: nat)

  function NextHop(x: Task): nat {
    if x.pc.Walking? then x.pc.i else if x.pc.Calling? then x.pc.i + 1 else 0
  }

  function PeersAhead(x: Task, course: Course): seq<string> {
    if !x.pc.LocalFailed? then x.peers
    else
      var list := PeersOf(course.endpoints, course.self);
      if list.Peers? then list.peers else []
  }

  /** A handler that may still send the request, and has a session for it. */
  ghost predicate Rival(s: Sys, c: TaskId, r: TaskId) {
    c != r && Able(s.tasks, c, r) && (s.tasks[c].pc.HasConn? || CanServe(s, s.tasks[c].key, s.tasks[c].hub))
  }

  /** The course leads to a live session, and the request was sent or will be. */
  ghost predicate Fits(s: Sys, r: TaskId, course: Course)
    requires r in s.tasks
  {
    var x := s.tasks[r];
    && Ahead(s, x.key, PeersAhead(x, course), course.hubs, NextHop(x), course.hop)
    && (Sent(s, r) || exists c :: Rival(s, c, r))
  }

  /** The walk delivers, and the request is delivered elsewhere, too. */
  lemma {:induction false} WalkRepeats(s: Sys, r: TaskId, hubs: seq<HubId>, i: nat, k: nat) returns (s': Sys)
    requires AtHop(s, r, i) && Ahead(s, s.tasks[r].key, s.tasks[r].peers, hubs, i, k)
    requires Sent(s, r) || exists c :: Rival(s, c, r)
    ensures Leads(s, s', r) && !AtMostOnce(s', r)
  {
    var n := |s.delivered|;
    var s1 := WalkDelivers(s, r, hubs, i, k);
    if j :| 0 <= j < n && s.delivered[j].root == r {
      s' := s1;
      assert s'.delivered[j] == s.delivered[j] && s'.delivered[n].root == r;
    } else {
      var c :| Rival(s, c, r);
      s' := HandlerDelivers(s1, c, r);
      Chain(s, s1, s', r);
      assert s'.delivered[n] == s1.delivered[n] && s'.delivered[n + 1].root == r;
    }
  }

  /** From a failed attempt of the entry handler. */
  lemma {:induction false} ListsThenRepeats(s: Sys, r: TaskId, course: Course) returns (s': Sys)
    requires Exposed(s, r) && s.tasks[r].pc.LocalFailed? && Fits(s, r, course)
    ensures Leads(s, s', r) && !AtMostOnce(s', r)
  {
    assert TaskOk(s.tasks, r);
    var s1 := PeersListed(s, r, course.endpoints, course.self);
    s' := WalkRepeats(s1, r, course.hubs, 0, course.hop);
    Chain(s, s1, s', r);
  }

  /** From a failed attempt of a handler at a peer, or its 502. */
  lemma {:induction false} ReceivesThenRepeats(s: Sys, r: TaskId, c: TaskId, course: Course) returns (s': Sys)
    requires Exposed(s, r) && s.tasks[r].pc.Calling? && s.tasks[r].pc.at == Serving(c) && Fits(s, r, course)
    ensures Leads(s, s', r) && !AtMostOnce(s', r)
  {
    var x := s.tasks[r];
    assert TaskOk(s.tasks, r) && IsChild(s.tasks, c, r);
    assert TaskOk(s.tasks, c);
    NormTwice(x.sub);
    var s1 := s;
    if s.tasks[c].pc.LocalFailed? { s1 := PeerGivesUp(s, c, r); } else { Stays(s, r); }
    var s2 := WalkGoesOn(s1, r, x.pc.i, c);
    Chain(s, s1, s2, r);
    s' := WalkRepeats(s2, r, course.hubs, x.pc.i + 1, course.hop);
    Chain(s, s2, s', r);
  }

  /** An exposed request is delivered twice on every course that fits. */
  lemma {:induction false} ExposedRepeats(s: Sys, r: TaskId, course: Course) returns (s': Sys)
    requires Exposed(s, r) && Fits(s, r, course)
    ensures Leads(s, s', r) && !AtMostOnce(s', r)
  {
    var x := s.tasks[r];
    if x.pc.LocalFailed? {
      s' := ListsThenRepeats(s, r, course);
    } else if x.pc.Calling? {
      s' := ReceivesThenRepeats(s, r, x.pc.at.child, course);
    } else {
      assert TaskOk(s.tasks, r);
      s' := WalkRepeats(s, r, course.hubs, x.pc.i, course.hop);
    }
  }

  // --------------------------------------------------------- clusters and agents

  lemma {:induction false} Stays(s: Sys, r: TaskId)
    ensures Leads(s, s, r)
  {
    assert Trip([s], []).Goes(s, s, r);
  }

  /** What clusters and agents leave as it is. */
  ghost predicate RequestsStay(s: Sys, s': Sys) {
    s'.tasks == s.tasks && s'.down == s.down && s'.delivered == s.delivered
  }

  lemma {:induction false} ClusterStored(s: Sys, key: Key, r: TaskId) returns (s': Sys)
    ensures Leads(s, s', r) && RequestsStay(s, s') && key in s'.store
    ensures s'.hubs == s.hubs && s'.connects == s.connects && s'.registry == s.registry
  {
    if key in s.store {
      s' := s;
      Stays(s, r);
    } else {
      var write := Admission.Object(Admission.Cluster(key, "token"));
      s' := OneStep(s, Write(write, seq(36, _ => '0'), Admission.Marshals), r);
    }
  }

  /** An agent connects to `hub` with the right token. */
  lemma {:induction false} AgentChecked(s: Sys, key: Key, conn: ConnId, hub: HubId, r: TaskId) returns (s': Sys)
    requires ValidKey(key) && key in s.store && conn !in s.connects
    ensures Leads(s, s', r) && RequestsStay(s, s')
    ensures s'.store == s.store && s'.hubs == s.hubs && s'.registry == s.registry
    ensures s'.connects == s.connects[conn := Connect(hub, key, s.store[key], Checked)]
  {
    var s1 := OneStep(s, AgentArrives(conn, Connect(hub, key, s.store[key], Arrived)), r);
    s' := OneStep(s1, AgentLookup(conn, false), r);
    Chain(s, s1, s', r);
  }

  /** An agent connects to `hub`, which lists its session. */
  lemma {:induction false} AgentJoins(s: Sys, key: Key, hub: HubId, r: TaskId) returns (s': Sys)
    requires ValidKey(key) && key in s.store
    ensures Leads(s, s', r) && RequestsStay(s, s') && CanServe(s', key, hub)
    ensures forall h :: h != hub ==> ListHubs(h, s'.hubs) == ListHubs(h, s.hubs)
  {
    var conn := UnusedIn(s.connects.Keys);
    var sess := UnusedIn(s.registry.Keys + s.down);
    var s1 := AgentChecked(s, key, conn, hub, r);
    s' := OneStep(s1, AgentRegisters(conn, sess), r);
    Chain(s, s1, s', r);
    assert Live(s', key, hub, sess);
  }

  /** Every peer turns out to be `hub`. */
  lemma {:induction false} CourseTo(s: Sys, r: TaskId, hub: HubId) returns (course: Course)
    requires r in s.tasks && CanServe(s, s.tasks[r].key, hub)
    requires s.tasks[r].pc.LocalFailed? || NextHop(s.tasks[r]) < |s.tasks[r].peers|
    ensures var x := s.tasks[r];
      Ahead(s, x.key, PeersAhead(x, course), course.hubs, NextHop(x), course.hop)
  {
    ListingOne("a");
    var x := s.tasks[r];
    course := Course(Listing(["a"]), "", [], 0);
    course := course.(hubs := seq(|PeersAhead(x, course)|, _ => hub), hop := NextHop(x));
  }

  /** Whatever the clusters and the sessions are, the surroundings can provide a
      course, at no risk. */
  lemma {:induction false} Provided(s: Sys, r: TaskId) returns (s': Sys, course: Course)
    requires Exposed(s, r)
    ensures Leads(s, s', r) && RequestsStay(s, s') && Fits(s', r, course)
  {
    var x := s.tasks[r];
    assert TaskOk(s.tasks, r);
    var c := r;
    if !Sent(s, r) { c :| c != r && Able(s.tasks, c, r); }
    assert TaskOk(s.tasks, c);
    var hub := s.tasks[c].hub;
    var s1 := ClusterStored(s, x.key, r);
    s' := AgentJoins(s1, x.key, hub, r);
    Chain(s, s1, s', r);
    course := CourseTo(s', r, hub);
    if !Sent(s, r) { assert Rival(s', c, r); }
  }

  function Listing(ips: seq<string>): Endpoints {
    Endpoints([Subset(ips, [Port("peer", 8443)])])
  }

  lemma {:induction false} ListingOne(ip: string)
    requires ip != ""
    ensures PeersOf(Listing([ip]), "") == Peers([Address(ip, 8443)])
  {
    assert Others([], "", 8443) == [] && [ip][..0] == [];
  }

  lemma {:induction false} ListingTwo(a: string, b: string)
    requires a != "" && b != ""
    ensures PeersOf(Listing([a, b]), "") == Peers([Address(a, 8443), Address(b, 8443)])
  {
    ListingOne(a);
    assert [a, b][..1] == [a];
    assert Others([a], "", 8443) == [Address(a, 8443)];
  }

  /** Along a trip the invariant holds, and a request that was not exposed is still
      delivered at most once. */
  lemma {:induction false} TripKeeps(trip: Trip, a: Sys, b: Sys, r: TaskId, n: nat)
    requires trip.Goes(a, b, r) && Inv(a) && n <= |trip.steps|
    ensures Inv(trip.path[n])
    ensures (IsRoot(a, r) ==> Once(a, r)) ==> IsRoot(trip.path[n], r) ==> Once(trip.path[n], r)
  {
    if n > 0 {
      TripKeeps(trip, a, b, r, n - 1);
      var s, step := trip.path[n - 1], trip.steps[n - 1];
      assert Enabled(s, step) && trip.path[n] == After(s, step);
      InvKept(s, step);
      if IsRoot(a, r) ==> Once(a, r) { OnceNext(s, step, r); }
    }
  }

  lemma {:induction false} LeadsKeeps(a: Sys, b: Sys, r: TaskId)
    requires Leads(a, b, r) && Inv(a)
    ensures Inv(b)
    ensures (IsRoot(a, r) ==> Once(a, r)) ==> AtMostOnce(b, r)
  {
    var trip: Trip :| trip.Goes(a, b, r);
    TripKeeps(trip, a, b, r, |trip.steps|);
    if !IsRoot(b, r) { NothingBefore(b, r); }
  }

  /** An exposed request can be delivered twice. */
  lemma {:induction false} ExposedCanRepeat(s: Sys, r: TaskId) returns (s': Sys)
    requires Exposed(s, r)
    ensures Leads(s, s', r) && !AtMostOnce(s', r)
  {
    var s1, course := Provided(s, r);
    LeadsKeeps(s, s1, r);
    s' := ExposedRepeats(s1, r, course);
    Chain(s, s1, s', r);
  }

  // ------------------------------------------------------------- exact condition

  /** Where a risky step is taken. */
  lemma {:induction false} RiskAt(s: Sys, step: Step, r: TaskId)
    requires TasksOk(s.tasks) && Enabled(s, step) && RisksOf(s, step, r) != {}
    ensures step.Do? && IsRoot(s, r)
    ensures step.task == r ==>
      || (step.act == Break(true) && s.tasks[r].pc.HasConn? && Servable(s.tasks[r].key, s.tasks[r].sub))
      || (step.act == Fail("") && WalksAwayFromSender(s, r))
    ensures step.task != r ==>
      && (step.act == Break(true) || step.act == Respond(BAD_GATEWAY))
      && Awaited(s.tasks, r, step.task) && s.tasks[step.task].pc.HasConn? && s.tasks[step.task].root == r
  {
    assert TaskOk(s.tasks, step.task);
  }

  lemma {:induction false} SentNow(s: Sys, t: TaskId, act: Act, r: TaskId)
    requires CanAct(s, t, act) && s.tasks[t].root == r && (act == Break(true) || act.Respond?)
    ensures Sent(Acted(s, t, act), r)
  {
    assert Acted(s, t, act).delivered[|s.delivered|].root == r;
  }

  /** The entry handler walks away from a handler that delivers. */
  lemma {:induction false} LossExposes(s: Sys, r: TaskId)
    requires Inv(s) && CanAct(s, r, Fail("")) && IsRoot(s, r) && WalksAwayFromSender(s, r)
    ensures Exposed(Acted(s, r, Fail("")), r)
  {
    var s', x := Acted(s, r, Fail("")), s.tasks[r];
    var c := x.pc.at.child;
    InvKept(s, Do(r, Fail("")));
    assert TaskOk(s.tasks, r) && IsChild(s.tasks, c, r);
    JoinThenTrim(x.key, x.sub);
    if k :| 0 <= k < |s.delivered| && s.delivered[k].task == c {
      DeliveredForRoot(s, k);
      assert s'.delivered[k].root == r;
    } else {
      assert Able(s'.tasks, c, r);
    }
  }

  lemma {:induction false} DeliveredForRoot(s: Sys, k: nat)
    requires Inv(s) && k < |s.delivered|
    ensures s.delivered[k].task in s.tasks && s.tasks[s.delivered[k].task].root == s.delivered[k].root
  {
    var o := s.delivered[k];
    var j :| 0 <= j < |s.opens| && s.opens[j] == o;
    assert ReachOk(s, s.opens[j]);
  }

  /** Every risk exposes the request. */
  lemma {:induction false} RiskExposes(s: Sys, step: Step, r: TaskId)
    requires Inv(s) && Enabled(s, step) && RisksOf(s, step, r) != {}
    ensures Exposed(After(s, step), r)
  {
    RiskAt(s, step, r);
    if step.task == r && step.act.Fail? {
      LossExposes(s, r);
    } else {
      assert TaskOk(s.tasks, r);
      ActFrame(s, step.task, step.act);
      InvKept(s, step);
      SentNow(s, step.task, step.act, r);
    }
  }

  /** With the hubs as they are: a risky step can be followed, without any further
      risk, by a second delivery on every course that then leads to a live session. */
  lemma {:induction false} RiskDeliversTwice(s: Sys, step: Step, r: TaskId, course: Course) returns (s': Sys)
    requires Inv(s) && Enabled(s, step) && RisksOf(s, step, r) != {}
    requires r in After(s, step).tasks && Fits(After(s, step), r, course)
    ensures Leads(After(s, step), s', r) && !AtMostOnce(s', r)
  {
    RiskExposes(s, step, r);
    s' := ExposedRepeats(After(s, step), r, course);
  }

  /** Some continuation without a risk delivers the request twice. */
  ghost predicate CanRepeat(s: Sys, r: TaskId) {
    exists s' :: Leads(s, s', r) && !AtMostOnce(s', r)
  }

  /** Step by step: after a step the request can be delivered twice, without any
      risk from there on, exactly if the step was a risk. */
  lemma {:induction false} RiskExactly(s: Sys, step: Step, r: TaskId)
    requires Inv(s) && Enabled(s, step) && (IsRoot(s, r) ==> Once(s, r))
    ensures CanRepeat(After(s, step), r) <==> RisksOf(s, step, r) != {}
  {
    if RisksOf(s, step, r) != {} {
      RiskExposes(s, step, r);
      var s' := ExposedCanRepeat(After(s, step), r);
    } else {
      InvKept(s, step);
      OnceNext(s, step, r);
      forall s' | Leads(After(s, step), s', r)
        ensures AtMostOnce(s', r)
      {
        LeadsKeeps(After(s, step), s', r);
      }
    }
  }

  /** The condition is exact for every request of every run: as long as no step was
      a risk, the request can be delivered twice after the next step exactly if that
      step is one. */
  lemma {:induction false} FirstRiskExactly(run: seq<Sys>, steps: seq<Step>, n: nat, r: TaskId)
    requires IsRun(run, steps) && n < |steps| && KeepsTo(run, steps, n, r, {})
    ensures CanRepeat(run[n + 1], r) <==> RisksOf(run[n], steps[n], r) != {}
  {
    RunStep(run, steps, n);
    Reachable(run, steps, n);
    OnceHolds(run, steps, n, r);
    RiskExactly(run[n], steps[n], r);
  }

  // ------------------------------------------------- runs from the initial state

  const KEY := Key("ns", "name")

  lemma {:induction false} Served()
    ensures ValidKey(KEY) && Servable(KEY, "") && Norm("") == "/"
  {
    assert Segment(KEY.ns) && Segment(KEY.name);
    assert FirstSlash("") == 0;
  }

  /** Hub 1 has a session, hub 0 has none. */
  lemma {:induction false} AgentJoined(r: TaskId) returns (s: Sys)
    ensures Leads(INITIAL, s, r) && CanServe(s, KEY, 1) && !CanServe(s, KEY, 0) && s.tasks == map[]
  {
    Served();
    var s1 := ClusterStored(INITIAL, KEY, r);
    s := AgentJoins(s1, KEY, 1, r);
    Chain(INITIAL, s1, s, r);
    assert forall x :: !Live(s, KEY, 0, x);
  }

  lemma {:induction false} RequestEnters(s: Sys, r: TaskId, hub: HubId) returns (s': Sys)
    requires r !in s.tasks
    ensures Leads(s, s', r) && LiveStay(s, s') && s'.delivered == s.delivered
    ensures s'.tasks == s.tasks[r := Task(r, 0, hub, KEY, "", true, [], Begin)]
  {
    Served();
    s' := OneStep(s, Submit(r, hub, KEY, ""), r);
  }

  /** A request enters at `hub`, where the cluster is found. */
  lemma {:induction false} RequestFound(r: TaskId, hub: HubId) returns (s: Sys)
    ensures Leads(INITIAL, s, r) && CanServe(s, KEY, 1) && !CanServe(s, KEY, 0)
    ensures s.tasks == map[r := Task(r, 0, hub, KEY, "", true, [], Found)]
  {
    var s1 := AgentJoined(r);
    var s2 := RequestEnters(s1, r, hub);
    Chain(INITIAL, s1, s2, r);
    s := LooksUp(s2, r, r);
    Chain(INITIAL, s2, s, r);
  }

  /** The entry handler, at hub 1, has a connection. */
  lemma {:induction false} EntryConnected(r: TaskId) returns (s: Sys)
    ensures Leads(INITIAL, s, r) && IsRoot(s, r) && s.tasks[r].pc.HasConn?
    ensures Servable(s.tasks[r].key, s.tasks[r].sub)
  {
    Served();
    var s1 := RequestFound(r, 1);
    s := DialFinds(s1, r, r);
    Chain(INITIAL, s1, s, r);
  }

  /** The entry handler, at hub 0, is about to call its two peers. */
  lemma {:induction false} WalkStarts(r: TaskId) returns (s: Sys)
    ensures Leads(INITIAL, s, r) && CanServe(s, KEY, 1) && AtHop(s, r, 0)
    ensures s.tasks[r].key == KEY && |s.tasks[r].peers| == 2
  {
    Served();
    var s1 := RequestFound(r, 0);
    var s2 := DialFails(s1, r, r);
    Chain(INITIAL, s1, s2, r);
    ListingTwo("b", "c");
    s := PeersListed(s2, r, Listing(["b", "c"]), "");
    Chain(INITIAL, s2, s, r);
  }

  /** It waits for a handler at hub 1 that has a connection, and has another peer. */
  lemma {:induction false} PeerConnected(r: TaskId) returns (s: Sys, c: TaskId)
    ensures Leads(INITIAL, s, r) && IsRoot(s, r) && Awaited(s.tasks, r, c)
    ensures c in s.tasks && c != r && s.tasks[c].pc.HasConn? && s.tasks[c].root == r
  {
    var s1 := WalkStarts(r);
    var s2;
    c, s2 := PeerCalled(s1, r, 0, 1);
    Chain(INITIAL, s1, s2, r);
    var s3 := LooksUp(s2, c, r);
    Chain(INITIAL, s2, s3, r);
    s := DialFinds(s3, c, r);
    Chain(INITIAL, s3, s, r);
  }

  /** A state that is reached without a risk, and a step there that has exactly this
      one. */
  lemma {:induction false} RiskArises(risk: Risk, r: TaskId) returns (s: Sys, step: Step)
    ensures Leads(INITIAL, s, r) && Enabled(s, step) && RisksOf(s, step, r) == {risk}
  {
    if risk.BrokenAtEntry? {
      s := EntryConnected(r);
      step := Do(r, Break(true));
    } else {
      var c;
      s, c := PeerConnected(r);
      step := match risk
        case BrokenAtPeer => Do(c, Break(true))
        case AgentBadGateway => Do(c, Respond(BAD_GATEWAY))
        case _ => Do(r, Fail(""));
    }
  }

  /** Two trips with one step in between. */
  lemma {:induction false} Joined(p: Trip, s: Sys, step: Step, q: Trip, s': Sys, r: TaskId)
      returns (run: seq<Sys>, steps: seq<Step>)
    requires p.Goes(INITIAL, s, r) && Enabled(s, step) && q.Goes(After(s, step), s', r)
    ensures IsRun(run, steps) && KeepsTo(run, steps, |steps|, r, RisksOf(s, step, r)) && run[|steps|] == s'
  {
    run, steps := p.path + q.path, p.steps + [step] + q.steps;
    var n := |p.steps|;
    forall i | 0 <= i < |steps|
      ensures Enabled(run[i], steps[i]) && run[i + 1] == After(run[i], steps[i])
      ensures RisksOf(run[i], steps[i], r) <= RisksOf(s, step, r)
    {
      if i < n {
        assert run[i] == p.path[i] && run[i + 1] == p.path[i + 1] && steps[i] == p.steps[i];
      } else if i > n {
        var j := i - n - 1;
        assert run[i] == q.path[j] && run[i + 1] == q.path[j + 1] && steps[i] == q.steps[j];
      }
    }
  }

  /** Each risk alone is enough: in some run a request is delivered twice, and no
      step but one risks anything for it. */
  lemma {:induction false} RiskIsReal(risk: Risk) returns (run: seq<Sys>, steps: seq<Step>, r: TaskId)
    ensures IsRun(run, steps) && KeepsTo(run, steps, |steps|, r, {risk}) && !AtMostOnce(run[|steps|], r)
  {
    r := 0;
    var s, step := RiskArises(risk, r);
    LeadsKeeps(INITIAL, s, r);
    RiskExposes(s, step, r);
    var s' := ExposedCanRepeat(After(s, step), r);
    var p: Trip :| p.Goes(INITIAL, s, r);
    var q: Trip :| q.Goes(After(s, step), s', r);
    run, steps := Joined(p, s, step, q, s', r);
  }

  /** In every run that risks nothing but `risks`, every request is delivered at
      most once. */
  ghost predicate AlwaysAtMostOnce(risks: set<Risk>) {
    forall run, steps, r :: IsRun(run, steps) && KeepsTo(run, steps, |steps|, r, risks) ==>
      AtMostOnce(run[|steps|], r)
  }

  /** Exactly the surroundings that rule out all four risks guarantee that. */
  lemma {:induction false} AtMostOnceExactly(risks: set<Risk>)
    ensures AlwaysAtMostOnce(risks) <==> risks == {}
  {
    if risks == {} {
      forall run, steps, r | IsRun(run, steps) && KeepsTo(run, steps, |steps|, r, risks)
        ensures AtMostOnce(run[|steps|], r)
      {
        DeliveredAtMostOnce(run, steps, |steps|, r);
      }
    } else {
      var risk :| risk in risks;
      var run, steps, r := RiskIsReal(risk);
      assert KeepsTo(run, steps, |steps|, r, risks);
    }
  }
}
