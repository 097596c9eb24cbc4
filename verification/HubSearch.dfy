/** How completely a request is searched for a session.

    If one hub holds a session of the request's cluster that opens whenever it is
    tried, and the walk is not cut short before that hub, the request finds a
    session, whatever agents, other requests, cluster writes and dying sessions do
    in between. */
module HubSearch {
  import opened Paths
  import opened Dialing
  import opened SessionLists
  import opened Peers
  import opened Hubs
  import opened Statuses
  import opened HubInvariants
  import opened HubOrigins
  import opened HubTheorems

  /** Request `r` is looking for session `good` of hub `hub`.  If that is not its
      entry hub, it is the one behind position `at` of the peers that the entry hub
      will list.  `sent` tells what finding means: that a connection is opened, or
      that the request is sent over one. */
  datatype Quest = Quest(r: TaskId, hub: HubId, good: Sess, at: nat, sent: bool)

  /** The entry handler, and the one at a peer that its walk waits for. */
  predicate Current(tasks: map<TaskId, Task>, t: TaskId, q: Quest) {
    t == q.r || (q.r in tasks && tasks[q.r].pc.Calling? && tasks[q.r].pc.at == Serving(t))
  }

  /** What the environment has to grant in a step while the request is looking.
      Dials at the good hub find that the good session opens.  Lookups of the
      current handlers find the cluster.  If finding means sending, an open
      connection at the good hub takes the request; at any other hub it may break
      before.  And, for an entry hub other than the good one, the peers are listed,
      as many as it takes, the call at position `at` reaches the good hub, and no
      call up to that one fails for its URL, for the certificate or in transport,
      unless without a text before it.  Nothing is asked of handlers that the walk
      has left, of other requests, of agents or of sessions. */
  ghost predicate Grants(s: Sys, step: Step, q: Quest) {
    step.Do? && step.task in s.tasks ==>
      && var x, act := s.tasks[step.task], step.act;
      && (act.Dial? && x.hub == q.hub ==> OpensAlways(act.log, q.good))
      && (Current(s.tasks, step.task, q) ==>
            && (act.Lookup? ==> !act.failed && x.key in s.store)
            && (q.sent && x.hub == q.hub ==> act != Break(false)))
      && (step.task == q.r && x.hub != q.hub ==>
            && (act.List? ==>
                  var list := PeersOf(act.endpoints, act.self);
                  list.Peers? && q.at < |list.peers|)
            && (act.Arrive? && x.pc.Calling? && x.pc.i == q.at ==> act.hub == q.hub)
            && (act.Try? && x.pc.Walking? && x.pc.i <= q.at ==> act.parse.NoError? && act.cert.NoError?)
            && (act.Fail? && x.pc.Calling? ==> x.pc.i > q.at || (x.pc.i < q.at && act.text == "")))
  }

  ghost predicate GoodListed(s: Sys, q: Quest) {
    q.r in s.tasks && q.good in Listed(ListHubs(q.hub, s.hubs), KeyString(s.tasks[q.r].key))
  }

  ghost predicate FoundOne(s: Sys, q: Quest) {
    if q.sent then exists k :: 0 <= k < |s.delivered| && s.delivered[k].root == q.r
    else exists k :: 0 <= k < |s.opens| && s.opens[k].root == q.r
  }

  // ------------------------------------------------------------- the invariant

  /** A handler at a peer that may still find a session, or did not and has a
      successor. */
  predicate PeerSearching(y: Task, q: Quest) {
    match y.pc
    case Begin => true
    case Found => true
    case HasConn(_) => q.sent
    case LocalFailed => y.hub != q.hub
    case Replied(status) => status == BAD_GATEWAY && y.hub != q.hub
    case _ => false
  }

  ghost predicate OnTheWay(x: Task, i: nat, q: Quest) {
    x.hub != q.hub && i <= q.at < |x.peers| && "" !in x.peers
  }

  ghost predicate Searching(tasks: map<TaskId, Task>, q: Quest)
    requires q.r in tasks
  {
    var x := tasks[q.r];
    match x.pc
    case Begin => true
    case Found => true
    case HasConn(_) => q.sent
    case LocalFailed => x.hub != q.hub
    case Walking(i, _) => OnTheWay(x, i, q)
    case Calling(i, _, InFlight) => OnTheWay(x, i, q)
    case Calling(i, _, Serving(c)) =>
      && OnTheWay(x, i, q)
      && c in tasks && c != q.r && tasks[c].root == q.r && PeerSearching(tasks[c], q)
      && (i == q.at ==> tasks[c].hub == q.hub)
    case Replied(_) => false
  }

  ghost predicate SearchInv(s: Sys, q: Quest) {
    && q.r in s.tasks && s.tasks[q.r].root == q.r
    && (s.tasks[q.r].hub != q.hub ==> Servable(s.tasks[q.r].key, s.tasks[q.r].sub))
    && (FoundOne(s, q) || (GoodListed(s, q) && Searching(s.tasks, q)))
  }

  // -------------------------------------------------------------- preservation

  /** A dial call at the good hub, for the right cluster, leaves the good session
      where it is and succeeds. */
  lemma {:induction false} GoodDial(s: Sys, t: TaskId, act: Act, q: Quest)
    requires CanAct(s, t, act) && act.Dial? && Grants(s, Do(t, act), q) && GoodListed(s, q)
    requires s.tasks[t].hub == q.hub && s.tasks[t].key == s.tasks[q.r].key
    ensures act.out.Dialed? && q.good in Listed(act.after, KeyString(s.tasks[t].key))
  {
    var id := KeyString(s.tasks[t].key);
    StaysAndSucceeds(Listed(ListHubs(q.hub, s.hubs), id), act.log, act.out, Listed(act.after, id), q.good);
  }

  lemma {:induction false} DialElsewhere(
      before: Lists<Sess>, id: string, log: seq<Attempt<Sess>>, out: Outcome<Sess>, after: Lists<Sess>, other: string)
    requires DialStep(before, id, log, out, after) && other != id
    ensures Listed(after, other) == Listed(before, other)
  {
  }

  lemma {:induction false} GoodListedDial(s: Sys, t: TaskId, act: Act, q: Quest)
    requires Inv(s) && CanAct(s, t, act) && act.Dial? && Grants(s, Do(t, act), q) && GoodListed(s, q)
    requires s.tasks[t].hub == q.hub
    ensures q.good in Listed(act.after, KeyString(s.tasks[q.r].key))
  {
    var key := s.tasks[q.r].key;
    assert TaskOk(s.tasks, t) && TaskOk(s.tasks, q.r);
    KeyStringInjective(s.tasks[t].key, key);
    if s.tasks[t].key == key {
      GoodDial(s, t, act, q);
    } else {
      DialElsewhere(ListHubs(q.hub, s.hubs), KeyString(s.tasks[t].key), act.log, act.out, act.after, KeyString(key));
    }
  }

  lemma {:induction false} GoodListedKept(s: Sys, step: Step, q: Quest)
    requires Inv(s) && Enabled(s, step) && Grants(s, step, q) && GoodListed(s, q)
    ensures GoodListed(After(s, step), q)
  {
    Identity(s, step);
    var s' := After(s, step);
    assert SameTask(s.tasks[q.r], s'.tasks[q.r]);
    if step.Do? && step.act.Dial? && s.tasks[step.task].hub == q.hub {
      GoodListedDial(s, step.task, step.act, q);
    }
  }

  lemma {:induction false} FoundKept(s: Sys, step: Step, q: Quest)
    requires Enabled(s, step) && FoundOne(s, q)
    ensures FoundOne(After(s, step), q)
  {
    var s' := After(s, step);
    if step.Do? { ActEffects(s, step.task, step.act); }
    assert s.opens <= s'.opens && s.delivered <= s'.delivered;
    if q.sent {
      var k :| 0 <= k < |s.delivered| && s.delivered[k].root == q.r;
      assert s'.delivered[k].root == q.r;
    } else {
      var k :| 0 <= k < |s.opens| && s.opens[k].root == q.r;
      assert s'.opens[k].root == q.r;
    }
  }

  /** A step that opens or sends for the request finds what it is looking for. */
  lemma {:induction false} FoundNow(s: Sys, t: TaskId, act: Act, q: Quest)
    requires CanAct(s, t, act) && s.tasks[t].root == q.r
    requires if q.sent then act.Respond? || act == Break(true) else act.Dial? && act.out.Dialed?
    ensures FoundOne(Acted(s, t, act), q)
  {
    ActEffects(s, t, act);
    var s' := Acted(s, t, act);
    if q.sent {
      assert s'.delivered[|s.delivered|].root == q.r;
    } else {
      assert s'.opens[|s.opens|].root == q.r;
    }
  }

  lemma {:induction false} EntryDials(s: Sys, act: Act, q: Quest)
    requires CanAct(s, q.r, act) && act.Dial? && Grants(s, Do(q.r, act), q)
    requires GoodListed(s, q) && s.tasks[q.r].root == q.r
    ensures FoundOne(Acted(s, q.r, act), q) || Searching(NewTasks(s, q.r, act), q)
  {
    ActFrame(s, q.r, act);
    if s.tasks[q.r].hub == q.hub { GoodDial(s, q.r, act, q); }
    if act.out.Dialed? && !q.sent { FoundNow(s, q.r, act, q); }
  }

  /** A step of the entry handler before its walk. */
  lemma {:induction false} EntryTries(s: Sys, act: Act, q: Quest)
    requires Inv(s) && CanAct(s, q.r, act) && Grants(s, Do(q.r, act), q)
    requires SearchInv(s, q) && GoodListed(s, q) && Searching(s.tasks, q) && !PastLocal(s.tasks[q.r].pc)
    ensures FoundOne(Acted(s, q.r, act), q) || Searching(NewTasks(s, q.r, act), q)
  {
    var x := s.tasks[q.r];
    ActFrame(s, q.r, act);
    assert TaskOk(s.tasks, q.r);
    match act
    case Dial(_, _, _) => EntryDials(s, act, q);
    case Respond(_) => FoundNow(s, q.r, act, q);
    case Break(sent) => if sent { FoundNow(s, q.r, act, q); }
    case List(endpoints, self) => NoEmptyPeer(endpoints, self);
    case _ =>
  }

  /** A step of its walk: it does not end before the good hub, and goes past a
      peer only after that peer had no session. */
  lemma {:induction false} EntryWalks(s: Sys, act: Act, q: Quest)
    requires q.r in s.tasks && TaskOk(s.tasks, q.r)
    requires CanAct(s, q.r, act) && Grants(s, Do(q.r, act), q)
    requires s.tasks[q.r].root == q.r
    requires s.tasks[q.r].hub != q.hub ==> Servable(s.tasks[q.r].key, s.tasks[q.r].sub)
    requires Searching(s.tasks, q) && PastLocal(s.tasks[q.r].pc)
    ensures Searching(NewTasks(s, q.r, act), q)
  {
    var x := s.tasks[q.r];
    ActFrame(s, q.r, act);
    match act
    case Misroute => RouteRoundTrip(x.key, x.sub);
    case _ =>
  }

  lemma {:induction false} PeerDials(s: Sys, t: TaskId, act: Act, q: Quest)
    requires CanAct(s, t, act) && act.Dial? && Grants(s, Do(t, act), q)
    requires GoodListed(s, q) && Searching(s.tasks, q)
    requires t != q.r && s.tasks[q.r].pc.Calling? && s.tasks[q.r].pc.at == Serving(t)
    requires s.tasks[t].key == s.tasks[q.r].key
    ensures FoundOne(Acted(s, t, act), q) || Searching(NewTasks(s, t, act), q)
  {
    ActFrame(s, t, act);
    if s.tasks[t].hub == q.hub { GoodDial(s, t, act, q); }
    if act.out.Dialed? && !q.sent { FoundNow(s, t, act, q); }
  }

  /** A step of the handler that the walk waits for. */
  lemma {:induction false} PeerSearches(s: Sys, t: TaskId, act: Act, q: Quest)
    requires Inv(s) && CanAct(s, t, act) && Grants(s, Do(t, act), q)
    requires SearchInv(s, q) && GoodListed(s, q) && Searching(s.tasks, q)
    requires t != q.r && s.tasks[q.r].pc.Calling? && s.tasks[q.r].pc.at == Serving(t)
    ensures FoundOne(Acted(s, t, act), q) || Searching(NewTasks(s, t, act), q)
  {
    ActFrame(s, t, act);
    assert TaskOk(s.tasks, t);
    match act
    case Dial(_, _, _) => PeerDials(s, t, act, q);
    case Respond(_) => FoundNow(s, t, act, q);
    case Break(sent) => if sent { FoundNow(s, t, act, q); }
    case _ =>
  }

  /** A step of any other handler. */
  lemma {:induction false} OthersLeaveSearch(s: Sys, t: TaskId, act: Act, q: Quest)
    requires CanAct(s, t, act) && q.r in s.tasks && Searching(s.tasks, q)
    requires t != q.r && !(s.tasks[q.r].pc.Calling? && s.tasks[q.r].pc.at == Serving(t))
    ensures Searching(NewTasks(s, t, act), q)
  {
    ActFrame(s, t, act);
  }

  lemma {:induction false} ActSearches(s: Sys, t: TaskId, act: Act, q: Quest)
    requires Inv(s) && CanAct(s, t, act) && Grants(s, Do(t, act), q)
    requires SearchInv(s, q) && GoodListed(s, q) && Searching(s.tasks, q)
    ensures FoundOne(Acted(s, t, act), q) || Searching(NewTasks(s, t, act), q)
  {
    if t == q.r {
      assert TaskOk(s.tasks, t);
      if PastLocal(s.tasks[t].pc) { EntryWalks(s, act, q); } else { EntryTries(s, act, q); }
    } else if s.tasks[q.r].pc.Calling? && s.tasks[q.r].pc.at == Serving(t) {
      PeerSearches(s, t, act, q);
    } else {
      OthersLeaveSearch(s, t, act, q);
    }
  }

  lemma {:induction false} StillSearching(s: Sys, step: Step, q: Quest)
    requires Inv(s) && Enabled(s, step) && Grants(s, step, q) && q.r in After(s, step).tasks
    requires SearchInv(s, q) && GoodListed(s, q) && Searching(s.tasks, q)
    ensures FoundOne(After(s, step), q) || Searching(After(s, step).tasks, q)
  {
    if step.Do? {
      ActEffects(s, step.task, step.act);
      ActSearches(s, step.task, step.act, q);
    }
  }

  lemma {:induction false} SearchKept(s: Sys, step: Step, q: Quest)
    requires Inv(s) && Enabled(s, step) && SearchInv(s, q)
    requires FoundOne(s, q) || Grants(s, step, q)
    ensures SearchInv(After(s, step), q)
  {
    Identity(s, step);
    assert SameTask(s.tasks[q.r], After(s, step).tasks[q.r]);
    if FoundOne(s, q) {
      FoundKept(s, step, q);
    } else {
      GoodListedKept(s, step, q);
      StillSearching(s, step, q);
    }
  }

  lemma {:induction false} SearchHolds(
      run: seq<Sys>, steps: seq<Step>, a: nat, n: nat, q: Quest)
    requires IsRun(run, steps) && a <= n < |run|
    requires SearchInv(run[a], q)
    requires forall i :: a <= i < n ==> FoundOne(run[i], q) || Grants(run[i], steps[i], q)
    ensures SearchInv(run[n], q)
    decreases n
  {
    if a < n {
      SearchHolds(run, steps, a, n - 1, q);
      Reachable(run, steps, n - 1);
      SearchKept(run[n - 1], steps[n - 1], q);
    }
  }

  /** Search completeness.  Let request `q.r` be submitted at moment `a`, and begin at
      `b` while the good session is listed at the good hub under the cluster that the
      request was submitted for, and let every step since then grant what `Grants`
      says, until the request has reached a session.  Once the entry hub has
      answered, it has reached one, and that session was registered for exactly this
      cluster. */
  lemma {:induction false} SearchComplete(
      run: seq<Sys>, steps: seq<Step>, a: nat, b: nat, n: nat, q: Quest) returns (o: Reach)
    requires IsRun(run, steps) && a < b <= n < |run|
    requires steps[a].Submit? && steps[a].task == q.r
    requires q.r in run[b].tasks && run[b].tasks[q.r].pc.Begin?
    requires steps[a].hub != q.hub ==> Servable(steps[a].key, steps[a].sub)
    requires q.good in Listed(ListHubs(q.hub, run[b].hubs), KeyString(steps[a].key))
    requires forall i :: b <= i < n ==> FoundOne(run[i], q) || Grants(run[i], steps[i], q)
    requires q.r in run[n].tasks && run[n].tasks[q.r].pc.Replied?
    ensures o.root == q.r && o in (if q.sent then run[n].delivered else run[n].opens)
    ensures o.sess in run[n].registry && run[n].registry[o.sess].key == steps[a].key
  {
    ServedAsSubmitted(run, steps, a, b);
    SearchHolds(run, steps, b, n, q);
    var s := run[n];
    if q.sent {
      var k :| 0 <= k < |s.delivered| && s.delivered[k].root == q.r;
      o := s.delivered[k];
    } else {
      var k :| 0 <= k < |s.opens| && s.opens[k].root == q.r;
      o := s.opens[k];
    }
    var c, d, i := RightCluster(run, steps, n, o);
    ServedAsSubmitted(run, steps, a, n);
    ServedAsSubmitted(run, steps, c, n);
  }
}
