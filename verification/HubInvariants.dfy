/** What every reachable state of the hubs keeps. */
module HubInvariants {
  import opened Paths
  import opened Dialing
  import opened SessionLists
  import opened Peers
  import opened Hubs
  import Admission

  // --------------------------------------------------------------- invariants

  /** The local attempt is over. */
  predicate PastLocal(pc: Pc) {
    pc.Walking? || pc.Calling? || pc.Replied?
  }

  /** Where a walk is, and the path that it is at: the peers are always called at
      the path printed from the original subpath, and a call is served only if the
      router leaves that path alone. */
  predicate PathOk(x: Task) {
    match x.pc
    case Walking(i, path) => i <= |x.peers| && Norm(path) == Norm(x.sub)
    case Calling(i, path, at) =>
      i < |x.peers| && path == PeerPath(x.key, x.sub) && (at.Serving? ==> Servable(x.key, x.sub))
    case Replied(_) => true
    case _ => x.peers == []
  }

  /** A handler belongs to a request, carries its key, and, unless it is the
      entry handler, serves its normalised subpath and never walks itself. */
  predicate TaskOk(tasks: map<TaskId, Task>, t: TaskId)
    requires t in tasks
  {
    var x := tasks[t];
    && ValidKey(x.key) && PathOk(x) && "" !in x.peers
    && x.root in tasks
    && var r := tasks[x.root];
       && r.root == x.root && r.mgr && x.key == r.key
       && (x.mgr <==> t == x.root)
       && (t != x.root ==>
             && x.sub == Norm(r.sub)
             && x.hop < |r.peers| && PastLocal(r.pc)
             && !x.pc.Walking? && !x.pc.Calling?)
  }

  ghost predicate TasksOk(tasks: map<TaskId, Task>) {
    forall t :: t in tasks ==> TaskOk(tasks, t)
  }

  predicate IsChild(tasks: map<TaskId, Task>, c: TaskId, r: TaskId) {
    c in tasks && r in tasks && c != r && tasks[c].root == r
  }

  /** Handler `c` was started at a hop that the walk has passed or is at. */
  predicate HopOk(pc: Pc, c: TaskId, hop: nat) {
    match pc
    case Walking(i, _) => hop < i
    case Calling(i, _, InFlight) => hop < i
    case Calling(i, _, Serving(k)) => hop < i || (hop == i && c == k)
    case Replied(_) => true
    case _ => false
  }

  ghost predicate HopsOk(tasks: map<TaskId, Task>) {
    && (forall c, r :: IsChild(tasks, c, r) ==> HopOk(tasks[r].pc, c, tasks[c].hop))
    && (forall c, d, r :: IsChild(tasks, c, r) && IsChild(tasks, d, r) && c != d ==> tasks[c].hop != tasks[d].hop)
    && (forall r :: r in tasks && tasks[r].pc.Calling? && tasks[r].pc.at.Serving? ==>
         IsChild(tasks, tasks[r].pc.at.child, r) && tasks[tasks[r].pc.at.child].hop == tasks[r].pc.i)
  }

  ghost predicate TokensOk(store: map<Key, string>) {
    forall k :: k in store ==> store[k] != ""
  }

  ghost predicate ConnectsOk(s: Sys) {
    && (forall c :: c in s.connects ==> ValidKey(s.connects[c].key))
    && (forall x :: x in s.registry ==> ValidKey(s.registry[x].key))
  }

  /** A listed session is listed where it was registered: at one hub, under one
      key. */
  ghost predicate ListedOk(registry: map<Sess, Registration>, h: HubId, id: string, x: Sess) {
    x in registry && registry[x].hub == h && KeyString(registry[x].key) == id
  }

  ghost predicate SessionsOk(s: Sys) {
    forall h, id, x :: h in s.hubs && x in Listed(s.hubs[h], id) ==> ListedOk(s.registry, h, id, x)
  }

  ghost predicate ReachOk(s: Sys, o: Reach) {
    && o.root in s.tasks && o.task in s.tasks && s.tasks[o.task].root == o.root
    && o.sess in s.registry
    && s.registry[o.sess].key == s.tasks[o.root].key
    && s.registry[o.sess].hub == s.tasks[o.task].hub
  }

  ghost predicate ReachesOk(s: Sys) {
    && (forall k :: 0 <= k < |s.opens| ==> ReachOk(s, s.opens[k]))
    && (forall t :: t in s.tasks && s.tasks[t].pc.HasConn? ==>
         Reach(s.tasks[t].root, t, s.tasks[t].pc.sess) in s.opens)
    && (forall k :: 0 <= k < |s.delivered| ==> s.delivered[k] in s.opens)
  }

  ghost predicate Inv(s: Sys) {
    && TasksOk(s.tasks) && HopsOk(s.tasks) && TokensOk(s.store)
    && ConnectsOk(s) && SessionsOk(s) && ReachesOk(s)
  }

  // ------------------------------------------------------------ handler steps

  lemma {:induction false} TasksFrame(tasks: map<TaskId, Task>, t: TaskId, act: Act, pc: Pc)
    requires t in tasks && (act.Arrive? ==> tasks[t].pc.Calling? && Route(tasks[t].pc.path).Matched?)
    requires act.Arrive? ==> act.child !in tasks
    ensures var tasks' := TasksAfter(tasks, t, act, pc);
      && (forall u :: u in tasks && u != t ==> u in tasks' && tasks'[u] == tasks[u])
      && t in tasks'
      && tasks'[t] == tasks[t].(pc := pc, peers := tasks'[t].peers)
      && (!act.List? ==> tasks'[t].peers == tasks[t].peers)
      && (forall u :: u in tasks' && u !in tasks ==>
            act.Arrive? && u == act.child && tasks'[u] == Child(tasks[t], act.hub))
  {
  }

  /** A step of one handler leaves the others alone. */
  lemma {:induction false} ActFrame(s: Sys, t: TaskId, act: Act)
    requires CanAct(s, t, act)
    ensures var tasks' := NewTasks(s, t, act);
      && (forall u :: u in s.tasks && u != t ==> u in tasks' && tasks'[u] == s.tasks[u])
      && t in tasks'
      && tasks'[t] == s.tasks[t].(pc := NextPc(s, t, act), peers := tasks'[t].peers)
      && (!act.List? ==> tasks'[t].peers == s.tasks[t].peers)
      && (forall u :: u in tasks' && u !in s.tasks ==>
            act.Arrive? && u == act.child && tasks'[u] == Child(s.tasks[t], act.hub))
  {
    TasksFrame(s.tasks, t, act, NextPc(s, t, act));
  }

  lemma {:induction false} NormTwice(sub: string)
    ensures Norm(Norm(sub)) == Norm(sub)
  {
  }

  /** Every way a walk goes on keeps its path. */
  lemma {:induction false} ReactOk(x: Task, hop: Hop, pc: Pc)
    requires ValidKey(x.key) && x.pc.Calling? && PathOk(x)
    requires pc == React(hop, x.key, x.pc.i, x.pc.path)
    ensures PathOk(x.(pc := pc)) && (pc.Walking? ==> pc.i == x.pc.i + 1) && PastLocal(pc)
  {
    JoinThenTrim(x.key, x.sub);
    NormTwice(x.sub);
  }

  lemma {:induction false} TryOk(s: Sys, t: TaskId, act: Act)
    requires CanAct(s, t, act) && act.Try? && ValidKey(s.tasks[t].key) && PathOk(s.tasks[t])
    ensures var pc := NextPc(s, t, act);
      PathOk(s.tasks[t].(pc := pc)) && (pc.Replied? || (pc.Calling? && pc.at.InFlight? && pc.i == s.tasks[t].pc.i))
  {
    var x := s.tasks[t];
    JoinThenTrim(x.key, x.pc.path);
    JoinThenTrim(x.key, x.sub);
  }

  /** The step of a handler, in its own terms. */
  lemma {:induction false} NextOk(s: Sys, t: TaskId, act: Act)
    requires CanAct(s, t, act) && TaskOk(s.tasks, t)
    ensures var x' := NewTasks(s, t, act)[t];
      PathOk(x') && "" !in x'.peers && (!x'.mgr ==> !x'.pc.Walking? && !x'.pc.Calling?)
    ensures PastLocal(s.tasks[t].pc) ==> PastLocal(NextPc(s, t, act))
  {
    var x := s.tasks[t];
    ActFrame(s, t, act);
    match act
    case Try(_, _) => TryOk(s, t, act);
    case Misroute => ReactOk(x, Misrouted(x.pc.path), NextPc(s, t, act));
    case Receive => ReactOk(x, Received(s.tasks[x.pc.at.child].pc.status), NextPc(s, t, act));
    case Fail(text) => ReactOk(x, Called(Broken(text)), NextPc(s, t, act));
    case List(endpoints, self) => NoEmptyPeer(endpoints, self);
    case Arrive(_, _) => RouteRoundTrip(x.key, x.sub);
    case _ =>
  }

  lemma {:induction false} TasksKept(s: Sys, t: TaskId, act: Act)
    requires TasksOk(s.tasks) && CanAct(s, t, act)
    ensures TasksOk(NewTasks(s, t, act))
  {
    var tasks' := NewTasks(s, t, act);
    assert TaskOk(s.tasks, t);
    ActFrame(s, t, act);
    NextOk(s, t, act);
    forall u | u in tasks'
      ensures TaskOk(tasks', u)
    {
      if u in s.tasks {
        assert TaskOk(s.tasks, u);
      } else {
        var x := s.tasks[t];
        RouteRoundTrip(x.key, x.sub);
      }
    }
  }

  /** How the hop that a walk is at moves: it never goes back. */
  lemma {:induction false} HopStep(s: Sys, t: TaskId, act: Act, c: TaskId, hop: nat)
    requires CanAct(s, t, act) && TaskOk(s.tasks, t)
    requires HopOk(s.tasks[t].pc, c, hop) && c in s.tasks
    ensures HopOk(NextPc(s, t, act), c, hop)
  {
    var x := s.tasks[t];
    var pc := NextPc(s, t, act);
    match act
    case Try(_, _) => TryOk(s, t, act);
    case Misroute => ReactOk(x, Misrouted(x.pc.path), pc);
    case Receive => ReactOk(x, Received(s.tasks[x.pc.at.child].pc.status), pc);
    case Fail(text) => ReactOk(x, Called(Broken(text)), pc);
    case _ =>
  }

  /** A child of a later state is a child of the earlier one or the new one. */
  lemma {:induction false} ChildBefore(s: Sys, t: TaskId, act: Act, c: TaskId, r: TaskId)
    requires TasksOk(s.tasks) && CanAct(s, t, act)
    requires IsChild(NewTasks(s, t, act), c, r)
    ensures c in s.tasks ==> IsChild(s.tasks, c, r) && NewTasks(s, t, act)[c].hop == s.tasks[c].hop
    ensures c !in s.tasks ==>
      act.Arrive? && c == act.child && r == t && NewTasks(s, t, act)[c].hop == s.tasks[t].pc.i
  {
    ActFrame(s, t, act);
    if c in s.tasks {
      assert TaskOk(s.tasks, c);
    } else {
      assert TaskOk(s.tasks, t);
    }
  }

  lemma {:induction false} HopsBounded(s: Sys, t: TaskId, act: Act, c: TaskId, r: TaskId)
    requires TasksOk(s.tasks) && HopsOk(s.tasks) && CanAct(s, t, act)
    requires IsChild(NewTasks(s, t, act), c, r)
    ensures HopOk(NewTasks(s, t, act)[r].pc, c, NewTasks(s, t, act)[c].hop)
  {
    ChildBefore(s, t, act, c, r);
    ActFrame(s, t, act);
    if c in s.tasks && r == t {
      assert TaskOk(s.tasks, t);
      HopStep(s, t, act, c, s.tasks[c].hop);
    }
  }

  lemma {:induction false} HopsDistinct(
      s: Sys, t: TaskId, act: Act, c: TaskId, d: TaskId, r: TaskId)
    requires TasksOk(s.tasks) && HopsOk(s.tasks) && CanAct(s, t, act)
    requires IsChild(NewTasks(s, t, act), c, r) && IsChild(NewTasks(s, t, act), d, r) && c != d
    ensures NewTasks(s, t, act)[c].hop != NewTasks(s, t, act)[d].hop
  {
    ChildBefore(s, t, act, c, r);
    ChildBefore(s, t, act, d, r);
    if c in s.tasks && d !in s.tasks {
      assert HopOk(s.tasks[r].pc, c, s.tasks[c].hop);
    } else if d in s.tasks && c !in s.tasks {
      assert HopOk(s.tasks[r].pc, d, s.tasks[d].hop);
    }
  }

  predicate ServedByChild(tasks: map<TaskId, Task>, r: TaskId) {
    && r in tasks && tasks[r].pc.Calling? && tasks[r].pc.at.Serving?
    && var c := tasks[r].pc.at.child;
       IsChild(tasks, c, r) && tasks[c].hop == tasks[r].pc.i
  }

  /** A call is served by the handler that it started. */
  lemma {:induction false} ServedNow(s: Sys, t: TaskId, act: Act)
    requires CanAct(s, t, act) && TaskOk(s.tasks, t)
    requires NextPc(s, t, act).Calling? && NextPc(s, t, act).at.Serving?
    ensures ServedByChild(NewTasks(s, t, act), t)
  {
    ActFrame(s, t, act);
    assert act.Arrive?;
    assert act.child in NewTasks(s, t, act) && act.child !in s.tasks;
  }

  lemma {:induction false} ServedElsewhere(s: Sys, t: TaskId, act: Act, r: TaskId)
    requires HopsOk(s.tasks) && CanAct(s, t, act) && r in s.tasks && r != t
    requires s.tasks[r].pc.Calling? && s.tasks[r].pc.at.Serving?
    ensures ServedByChild(NewTasks(s, t, act), r)
  {
    ActFrame(s, t, act);
    var c := s.tasks[r].pc.at.child;
    assert IsChild(s.tasks, c, r) && c in NewTasks(s, t, act);
  }

  lemma {:induction false} ServedOk(s: Sys, t: TaskId, act: Act, r: TaskId)
    requires TasksOk(s.tasks) && HopsOk(s.tasks) && CanAct(s, t, act)
    requires r in NewTasks(s, t, act)
    requires NewTasks(s, t, act)[r].pc.Calling? && NewTasks(s, t, act)[r].pc.at.Serving?
    ensures ServedByChild(NewTasks(s, t, act), r)
  {
    ActFrame(s, t, act);
    assert TaskOk(s.tasks, t);
    if r == t { ServedNow(s, t, act); } else { ServedElsewhere(s, t, act, r); }
  }

  lemma {:induction false} HopsKept(s: Sys, t: TaskId, act: Act)
    requires TasksOk(s.tasks) && HopsOk(s.tasks) && CanAct(s, t, act)
    ensures HopsOk(NewTasks(s, t, act))
  {
    var tasks' := NewTasks(s, t, act);
    forall c, r | IsChild(tasks', c, r)
      ensures HopOk(tasks'[r].pc, c, tasks'[c].hop)
    {
      HopsBounded(s, t, act, c, r);
    }
    forall c, d, r | IsChild(tasks', c, r) && IsChild(tasks', d, r) && c != d
      ensures tasks'[c].hop != tasks'[d].hop
    {
      HopsDistinct(s, t, act, c, d, r);
    }
    forall r | r in tasks' && tasks'[r].pc.Calling? && tasks'[r].pc.at.Serving?
      ensures IsChild(tasks', tasks'[r].pc.at.child, r) && tasks'[tasks'[r].pc.at.child].hop == tasks'[r].pc.i
    {
      ServedOk(s, t, act, r);
    }
  }

  // ------------------------------------------------------------------ sessions

  lemma {:induction false} SessionsKeptAct(s: Sys, t: TaskId, act: Act)
    requires SessionsOk(s) && CanAct(s, t, act)
    ensures SessionsOk(Acted(s, t, act))
  {
    if act.Dial? {
      var x := s.tasks[t];
      DialOnlyRemoves(ListHubs(x.hub, s.hubs), KeyString(x.key), act.log, act.out, act.after);
    }
  }

  lemma {:induction false} SessionsKept(s: Sys, step: Step)
    requires SessionsOk(s) && Enabled(s, step)
    ensures SessionsOk(After(s, step))
  {
    match step
    case Do(t, act) => SessionsKeptAct(s, t, act);
    case AgentRegisters(c, sess) =>
      var x := s.connects[c];
      var lists := ListHubs(x.hub, s.hubs);
      var s' := After(s, step);
      forall h, id, y | h in s'.hubs && y in Listed(s'.hubs[h], id)
        ensures ListedOk(s'.registry, h, id, y)
      {
        if !(h == x.hub && id == KeyString(x.key) && y == sess) {
          assert y in Listed(ListHubs(h, s.hubs), id);
          assert ListedOk(s.registry, h, id, y);
        }
      }
    case _ =>
  }

  /** The connection that a dial step opens is to a session of the right cluster at
      the right hub: the identifier of the list determines the key. */
  lemma {:induction false} DialsRightCluster(s: Sys, t: TaskId, act: Act)
    requires Inv(s) && CanAct(s, t, act) && act.Dial? && act.out.Dialed?
    ensures var x := s.tasks[t];
      && act.out.sess in s.registry
      && s.registry[act.out.sess].key == x.key && s.registry[act.out.sess].hub == x.hub
  {
    var x := s.tasks[t];
    DialOnlyRemoves(ListHubs(x.hub, s.hubs), KeyString(x.key), act.log, act.out, act.after);
    assert ListedOk(s.registry, x.hub, KeyString(x.key), act.out.sess);
    assert TaskOk(s.tasks, t);
    KeyStringInjective(s.registry[act.out.sess].key, x.key);
  }

  /** What identifies a handler or a registered session. */
  ghost predicate SameIdentity(s: Sys, s': Sys) {
    && (forall u :: u in s.tasks ==> u in s'.tasks && SameTask(s.tasks[u], s'.tasks[u]))
    && (forall x :: x in s.registry ==> x in s'.registry && s'.registry[x] == s.registry[x])
  }

  predicate SameTask(x: Task, x': Task) {
    x' == x.(pc := x'.pc, peers := x'.peers)
  }

  lemma {:induction false} ActIdentity(s: Sys, t: TaskId, act: Act)
    requires CanAct(s, t, act)
    ensures SameIdentity(s, Acted(s, t, act))
  {
    ActFrame(s, t, act);
  }

  /** No step changes it. */
  lemma {:induction false} Identity(s: Sys, step: Step)
    requires Enabled(s, step)
    ensures SameIdentity(s, After(s, step))
  {
    if step.Do? { ActIdentity(s, step.task, step.act); }
  }

  lemma {:induction false} ReachFrame(s: Sys, s': Sys, o: Reach)
    requires ReachOk(s, o) && SameIdentity(s, s')
    ensures ReachOk(s', o)
  {
    assert SameTask(s.tasks[o.root], s'.tasks[o.root]) && SameTask(s.tasks[o.task], s'.tasks[o.task]);
  }

  /** What a handler step opens and delivers. */
  lemma {:induction false} ActEffects(s: Sys, t: TaskId, act: Act)
    requires CanAct(s, t, act)
    ensures var s', x := Acted(s, t, act), s.tasks[t];
      && s'.tasks == NewTasks(s, t, act)
      && s'.opens == s.opens
         + (if act.Dial? && act.out.Dialed? then [Reach(x.root, t, act.out.sess)] else [])
      && s'.delivered == s.delivered
         + (if act.Respond? || act == Break(true) then [Reach(x.root, t, x.pc.sess)] else [])
  {
  }

  lemma {:induction false} OpensKept(s: Sys, t: TaskId, act: Act, k: nat)
    requires Inv(s) && CanAct(s, t, act) && k < |Acted(s, t, act).opens|
    ensures ReachOk(Acted(s, t, act), Acted(s, t, act).opens[k])
  {
    var s' := Acted(s, t, act);
    ActEffects(s, t, act);
    assert s' == After(s, Do(t, act));
    Identity(s, Do(t, act));
    if k < |s.opens| {
      assert s'.opens[k] == s.opens[k];
      ReachFrame(s, s', s.opens[k]);
    } else {
      DialsRightCluster(s, t, act);
      assert TaskOk(s.tasks, t);
    }
  }

  lemma {:induction false} ConnKept(s: Sys, t: TaskId, act: Act, u: TaskId)
    requires ReachesOk(s) && CanAct(s, t, act)
    requires u in NewTasks(s, t, act) && NewTasks(s, t, act)[u].pc.HasConn?
    ensures var x := NewTasks(s, t, act)[u];
      Reach(x.root, u, x.pc.sess) in Acted(s, t, act).opens
  {
    ActEffects(s, t, act);
    ActFrame(s, t, act);
  }

  lemma {:induction false} DeliveredKept(s: Sys, t: TaskId, act: Act, k: nat)
    requires ReachesOk(s) && CanAct(s, t, act) && k < |Acted(s, t, act).delivered|
    ensures Acted(s, t, act).delivered[k] in Acted(s, t, act).opens
  {
    var s', x := Acted(s, t, act), s.tasks[t];
    ActEffects(s, t, act);
    var o := s'.delivered[k];
    if k < |s.delivered| {
      assert s.delivered[k] == o;
    } else {
      assert o == Reach(x.root, t, x.pc.sess);
    }
    assert o in s.opens;
  }

  lemma {:induction false} ReachesKept(s: Sys, step: Step)
    requires Inv(s) && Enabled(s, step)
    ensures ReachesOk(After(s, step))
  {
    var s' := After(s, step);
    if step.Do? {
      var t, act := step.task, step.act;
      ActEffects(s, t, act);
      forall k | 0 <= k < |s'.opens|
        ensures ReachOk(s', s'.opens[k])
      {
        OpensKept(s, t, act, k);
      }
      forall u | u in s'.tasks && s'.tasks[u].pc.HasConn?
        ensures Reach(s'.tasks[u].root, u, s'.tasks[u].pc.sess) in s'.opens
      {
        ConnKept(s, t, act, u);
      }
      forall k | 0 <= k < |s'.delivered|
        ensures s'.delivered[k] in s'.opens
      {
        DeliveredKept(s, t, act, k);
      }
    } else {
      Identity(s, step);
      forall k | 0 <= k < |s'.opens|
        ensures ReachOk(s', s'.opens[k])
      {
        ReachFrame(s, s', s.opens[k]);
      }
    }
  }

  lemma {:induction false} TokensKept(s: Sys, step: Step)
    requires TokensOk(s.store) && Enabled(s, step)
    ensures TokensOk(After(s, step).store)
  {
    if step.Write? {
      var admitted := Admission.Admit(step.req, step.uuid, step.marshal);
      if admitted.Stored? { Admission.StoredExactly(step.req, step.uuid, step.marshal, admitted.cluster); }
    }
  }

  lemma {:induction false} SubmitKept(tasks: map<TaskId, Task>, t: TaskId, x: Task)
    requires TasksOk(tasks) && HopsOk(tasks) && t !in tasks
    requires x.root == t && x.mgr && ValidKey(x.key) && x.pc.Begin? && x.peers == []
    ensures TasksOk(tasks[t := x]) && HopsOk(tasks[t := x])
  {
    var tasks' := tasks[t := x];
    forall u | u in tasks'
      ensures TaskOk(tasks', u)
    {
      if u != t { assert TaskOk(tasks, u); }
    }
    forall c, r | IsChild(tasks', c, r)
      ensures IsChild(tasks, c, r)
    {
      assert TaskOk(tasks, c);
    }
  }

  lemma {:induction false} TasksKeptStep(s: Sys, step: Step)
    requires TasksOk(s.tasks) && HopsOk(s.tasks) && Enabled(s, step)
    ensures TasksOk(After(s, step).tasks) && HopsOk(After(s, step).tasks)
  {
    match step
    case Do(t, act) =>
      ActEffects(s, t, act);
      TasksKept(s, t, act);
      HopsKept(s, t, act);
    case Submit(t, hub, key, sub) =>
      SubmitKept(s.tasks, t, Task(t, 0, hub, key, sub, true, [], Begin));
    case _ =>
  }

  lemma {:induction false} ConnectsKept(s: Sys, step: Step)
    requires ConnectsOk(s) && Enabled(s, step)
    ensures ConnectsOk(After(s, step))
  {
  }

  lemma {:induction false} InvKept(s: Sys, step: Step)
    requires Inv(s) && Enabled(s, step)
    ensures Inv(After(s, step))
  {
    TasksKeptStep(s, step);
    TokensKept(s, step);
    ConnectsKept(s, step);
    SessionsKept(s, step);
    ReachesKept(s, step);
  }

  lemma {:induction false} RunStep(run: seq<Sys>, steps: seq<Step>, i: nat)
    requires IsRun(run, steps) && i < |steps|
    ensures Enabled(run[i], steps[i]) && run[i + 1] == After(run[i], steps[i])
  {
  }

  lemma {:induction false} Reachable(run: seq<Sys>, steps: seq<Step>, n: nat)
    requires IsRun(run, steps) && n < |run|
    ensures Inv(run[n])
  {
    if n > 0 {
      Reachable(run, steps, n - 1);
      RunStep(run, steps, n - 1);
      InvKept(run[n - 1], steps[n - 1]);
    }
  }

  ghost predicate KeepsIdentity(run: seq<Sys>) {
    forall i :: 0 < i < |run| ==> SameIdentity(run[i - 1], run[i])
  }

  lemma {:induction false} RunIdentity(run: seq<Sys>, steps: seq<Step>)
    requires IsRun(run, steps)
    ensures KeepsIdentity(run)
  {
    forall i | 0 < i < |run|
      ensures SameIdentity(run[i - 1], run[i])
    {
      RunStep(run, steps, i - 1);
      Identity(run[i - 1], steps[i - 1]);
    }
  }
}
