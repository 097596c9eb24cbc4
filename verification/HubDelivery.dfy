/** How often one request is delivered.

    A walk moves on only after a failure, so a request reaches a second session
    only if the walk moves on although an earlier handler has sent the request, or
    may still send it.  `RisksOf` names the steps that bring this about.  Without
    them a request is delivered at most once, however the steps interleave. */
module HubDelivery {
  import opened Paths
  import opened Statuses
  import opened Hubs
  import opened HubInvariants

  /** A round trip that breaks after sending, at the entry hub or at a peer; an
      agent's own 502 that a peer passes on; and a transport error without a text
      while a peer serves the call.  No peer serves a request whose peer path the
      router redirects. */
  datatype Risk = BrokenAtEntry | BrokenAtPeer | AgentBadGateway | TextlessError

  /** `r` is a request. */
  predicate IsRoot(s: Sys, r: TaskId) {
    r in s.tasks && s.tasks[r].root == r
  }

  /** It may still send its request to a session. */
  predicate MayDeliver(pc: Pc) {
    pc.Begin? || pc.Found? || pc.HasConn?
  }

  ghost predicate HasDelivered(s: Sys, t: TaskId) {
    exists k :: 0 <= k < |s.delivered| && s.delivered[k].task == t
  }

  /** The entry handler `r` waits for `c`, and has another peer to turn to. */
  predicate Awaited(tasks: map<TaskId, Task>, r: TaskId, c: TaskId) {
    && r in tasks && c in tasks
    && tasks[r].pc.Calling? && tasks[r].pc.at == Serving(c) && tasks[r].pc.i + 1 < |tasks[r].peers|
  }

  /** What a step risks for request `r`. */
  ghost function RisksOf(s: Sys, step: Step, r: TaskId): set<Risk> {
    if !(step.Do? && step.task in s.tasks && s.tasks[step.task].root == r) then {}
    else if step.task == r then
      match step.act
      case Break(true) => if Servable(s.tasks[r].key, s.tasks[r].sub) then {BrokenAtEntry} else {}
      case Fail("") => if WalksAwayFromSender(s, r) then {TextlessError} else {}
      case _ => {}
    else if !Awaited(s.tasks, r, step.task) then {}
    else
      match step.act
      case Break(true) => {BrokenAtPeer}
      case Respond(status) => if status == BAD_GATEWAY then {AgentBadGateway} else {}
      case _ => {}
  }

  /** The handler that the walk is at has delivered the request, or may yet. */
  ghost predicate WalksAwayFromSender(s: Sys, r: TaskId)
    requires r in s.tasks
  {
    var pc := s.tasks[r].pc;
    && pc.Calling? && pc.at.Serving? && Awaited(s.tasks, r, pc.at.child)
    && (MayDeliver(s.tasks[pc.at.child].pc) || HasDelivered(s, pc.at.child))
  }

  ghost predicate AtMostOnce(s: Sys, r: TaskId) {
    forall j, k :: 0 <= j < k < |s.delivered| && s.delivered[j].root == r ==> s.delivered[k].root != r
  }

  // -------------------------------------------------------------- the invariant

  predicate Able(tasks: map<TaskId, Task>, c: TaskId, r: TaskId) {
    c in tasks && tasks[c].root == r && MayDeliver(tasks[c].pc)
  }

  /** Its walk reaches no further handler. */
  predicate Ended(x: Task) {
    x.pc.Replied? || (x.pc.Walking? && x.pc.i >= |x.peers|) || !Servable(x.key, x.sub)
  }

  predicate WaitsFor(x: Task, c: TaskId) {
    x.pc.Calling? && x.pc.at == Serving(c)
  }

  /** After `t` delivered the request, the walk ends with it. */
  predicate Settled(tasks: map<TaskId, Task>, r: TaskId, t: TaskId) {
    && r in tasks && t in tasks
    && (Ended(tasks[r])
        || (WaitsFor(tasks[r], t)
            && (Awaited(tasks, r, t) ==> tasks[t].pc.Replied? && tasks[t].pc.status != BAD_GATEWAY)))
  }

  /** At most one handler of a request may deliver it, and at a peer only the one
      that the walk waits for, or one that it left when it ended. */
  ghost predicate OneAble(tasks: map<TaskId, Task>, r: TaskId) {
    && r in tasks
    && (forall c :: Able(tasks, c, r) && c != r ==> Ended(tasks[r]) || WaitsFor(tasks[r], c))
    && (forall c, d :: Able(tasks, c, r) && Able(tasks, d, r) ==> c == d)
  }

  ghost predicate AllSettled(s: Sys, r: TaskId) {
    forall k :: 0 <= k < |s.delivered| && s.delivered[k].root == r ==>
      Settled(s.tasks, r, s.delivered[k].task) && forall c :: !Able(s.tasks, c, r)
  }

  ghost predicate Once(s: Sys, r: TaskId) {
    OneAble(s.tasks, r) && AllSettled(s, r) && AtMostOnce(s, r)
  }

  // --------------------------------------------------------------- preservation

  lemma {:induction false} StaysUnable(s: Sys, t: TaskId, act: Act)
    requires CanAct(s, t, act)
    ensures MayDeliver(NextPc(s, t, act)) ==> MayDeliver(s.tasks[t].pc)
    ensures act.Respond? || act.Break? ==> s.tasks[t].pc.HasConn? && !MayDeliver(NextPc(s, t, act))
  {
  }

  /** Handlers do not become able again, and a new one is started only by a walk
      that waits for no other. */
  lemma {:induction false} AbleBefore(s: Sys, t: TaskId, act: Act, c: TaskId, r: TaskId)
    requires TasksOk(s.tasks) && CanAct(s, t, act) && Able(NewTasks(s, t, act), c, r)
    ensures Able(s.tasks, c, r) ||
      (act.Arrive? && c == act.child && t == r && s.tasks[r].pc.Calling? && s.tasks[r].pc.at.InFlight?
       && Servable(s.tasks[r].key, s.tasks[r].sub) && WaitsFor(NewTasks(s, t, act)[r], c))
  {
    ActFrame(s, t, act);
    assert TaskOk(s.tasks, t);
    StaysUnable(s, t, act);
    if act.Arrive? { NextOk(s, t, act); }
  }

  /** A step of the entry handler, while one at a peer is able or settled, leaves
      it waiting for that one, or ends the walk. */
  lemma {:induction false} WaiterEnds(s: Sys, r: TaskId, act: Act, c: TaskId)
    requires CanAct(s, r, act) && s.tasks[r].root == r && RisksOf(s, Do(r, act), r) == {}
    requires Ended(s.tasks[r]) || WaitsFor(s.tasks[r], c)
    requires Able(s.tasks, c, r) || (HasDelivered(s, c) && Settled(s.tasks, r, c))
    requires c != r
    ensures Ended(NewTasks(s, r, act)[r])
  {
    ActFrame(s, r, act);
  }

  lemma {:induction false} OneAbleKept(s: Sys, t: TaskId, act: Act, r: TaskId)
    requires TasksOk(s.tasks) && OneAble(s.tasks, r) && s.tasks[r].root == r
    requires CanAct(s, t, act) && RisksOf(s, Do(t, act), r) == {}
    ensures OneAble(NewTasks(s, t, act), r)
  {
    var tasks' := NewTasks(s, t, act);
    ActFrame(s, t, act);
    forall c | Able(tasks', c, r)
      ensures c != r ==> Ended(tasks'[r]) || WaitsFor(tasks'[r], c)
      ensures forall d :: Able(tasks', d, r) ==> d == c
    {
      AbleBefore(s, t, act, c, r);
      if Able(s.tasks, c, r) && c != r && t == r { WaiterEnds(s, r, act, c); }
      forall d | Able(tasks', d, r)
        ensures d == c
      {
        AbleBefore(s, t, act, d, r);
      }
    }
  }

  lemma {:induction false} SettledKept(s: Sys, t: TaskId, act: Act, r: TaskId, u: TaskId)
    requires TasksOk(s.tasks) && r in s.tasks && s.tasks[r].root == r
    requires CanAct(s, t, act) && RisksOf(s, Do(t, act), r) == {}
    requires HasDelivered(s, u) && Settled(s.tasks, r, u) && !Able(s.tasks, u, r)
    ensures Settled(NewTasks(s, t, act), r, u)
  {
    ActFrame(s, t, act);
    if t == r && u != r { WaiterEnds(s, r, act, u); }
  }

  /** A handler that delivers was the one able handler, and settles the request. */
  lemma {:induction false} SettledNow(s: Sys, t: TaskId, act: Act, r: TaskId)
    requires TasksOk(s.tasks) && OneAble(s.tasks, r) && s.tasks[r].root == r
    requires CanAct(s, t, act) && RisksOf(s, Do(t, act), r) == {}
    requires s.tasks[t].root == r && (act.Respond? || act == Break(true))
    ensures Able(s.tasks, t, r) && Settled(NewTasks(s, t, act), r, t)
    ensures forall c :: !Able(NewTasks(s, t, act), c, r)
  {
    ActFrame(s, t, act);
    StaysUnable(s, t, act);
    assert Able(s.tasks, t, r);
    forall c
      ensures !Able(NewTasks(s, t, act), c, r)
    {
      if Able(NewTasks(s, t, act), c, r) { AbleBefore(s, t, act, c, r); }
    }
  }

  lemma {:induction false} AllSettledKept(s: Sys, t: TaskId, act: Act, r: TaskId)
    requires TasksOk(s.tasks) && Once(s, r) && s.tasks[r].root == r
    requires CanAct(s, t, act) && RisksOf(s, Do(t, act), r) == {}
    ensures AllSettled(Acted(s, t, act), r)
  {
    var s' := Acted(s, t, act);
    ActEffects(s, t, act);
    forall k | 0 <= k < |s'.delivered| && s'.delivered[k].root == r
      ensures Settled(s'.tasks, r, s'.delivered[k].task) && forall c :: !Able(s'.tasks, c, r)
    {
      if k < |s.delivered| {
        assert s'.delivered[k] == s.delivered[k];
        SettledKept(s, t, act, r, s.delivered[k].task);
        forall c | Able(s'.tasks, c, r)
          ensures false
        {
          AbleBefore(s, t, act, c, r);
        }
      } else {
        SettledNow(s, t, act, r);
      }
    }
  }

  lemma {:induction false} AtMostOnceKept(s: Sys, t: TaskId, act: Act, r: TaskId)
    requires TasksOk(s.tasks) && Once(s, r) && s.tasks[r].root == r
    requires CanAct(s, t, act) && RisksOf(s, Do(t, act), r) == {}
    ensures AtMostOnce(Acted(s, t, act), r)
  {
    var s' := Acted(s, t, act);
    ActEffects(s, t, act);
    forall j, k | 0 <= j < k < |s'.delivered| && s'.delivered[j].root == r
      ensures s'.delivered[k].root != r
    {
      assert s'.delivered[j] == s.delivered[j];
      if k < |s.delivered| {
        assert s'.delivered[k] == s.delivered[k];
      } else if s'.delivered[k].root == r {
        SettledNow(s, t, act, r);
      }
    }
  }

  /** Before a request is submitted there is nothing of it. */
  lemma {:induction false} NothingBefore(s: Sys, r: TaskId)
    requires Inv(s) && !IsRoot(s, r)
    ensures forall k :: 0 <= k < |s.delivered| ==> s.delivered[k].root != r
    ensures forall c :: c in s.tasks ==> s.tasks[c].root != r
  {
    forall c | c in s.tasks
      ensures s.tasks[c].root != r
    {
      assert TaskOk(s.tasks, c);
    }
    forall k | 0 <= k < |s.delivered|
      ensures s.delivered[k].root != r
    {
      var o := s.delivered[k];
      var j :| 0 <= j < |s.opens| && s.opens[j] == o;
      assert ReachOk(s, s.opens[j]);
    }
  }

  lemma {:induction false} OnceStarts(s: Sys, step: Step, r: TaskId)
    requires Inv(s) && Enabled(s, step) && r !in s.tasks
    requires r in After(s, step).tasks && After(s, step).tasks[r].root == r
    ensures Once(After(s, step), r)
  {
    NothingBefore(s, r);
    if step.Do? {
      ActFrame(s, step.task, step.act);
      ActEffects(s, step.task, step.act);
    }
  }

  lemma {:induction false} OnceUntouched(s: Sys, step: Step, r: TaskId)
    requires Enabled(s, step) && !step.Do? && r in s.tasks && Once(s, r)
    ensures Once(After(s, step), r)
  {
    var s' := After(s, step);
    assert s'.delivered == s.delivered;
    assert forall c :: c in s.tasks ==> c in s'.tasks && s'.tasks[c] == s.tasks[c];
    assert forall c :: Able(s'.tasks, c, r) <==> Able(s.tasks, c, r);
  }

  lemma {:induction false} OnceKept(s: Sys, step: Step, r: TaskId)
    requires Inv(s) && Enabled(s, step) && RisksOf(s, step, r) == {}
    requires r in s.tasks && s.tasks[r].root == r && Once(s, r)
    ensures Once(After(s, step), r)
  {
    if step.Do? {
      var t, act := step.task, step.act;
      ActEffects(s, t, act);
      OneAbleKept(s, t, act, r);
      AllSettledKept(s, t, act, r);
      AtMostOnceKept(s, t, act, r);
    } else {
      OnceUntouched(s, step, r);
    }
  }

  lemma {:induction false} OnceNext(s: Sys, step: Step, r: TaskId)
    requires Inv(s) && Enabled(s, step) && RisksOf(s, step, r) == {}
    requires IsRoot(s, r) ==> Once(s, r)
    ensures IsRoot(After(s, step), r) ==> Once(After(s, step), r)
  {
    if IsRoot(After(s, step), r) {
      if r in s.tasks {
        Identity(s, step);
        assert SameTask(s.tasks[r], After(s, step).tasks[r]);
        OnceKept(s, step, r);
      } else {
        OnceStarts(s, step, r);
      }
    }
  }

  // ------------------------------------------------------------------- theorem

  /** For request `r`, the first `n` steps risk only what is in `risks`. */
  ghost predicate KeepsTo(run: seq<Sys>, steps: seq<Step>, n: nat, r: TaskId, risks: set<Risk>)
    requires n <= |steps| < |run|
  {
    forall i :: 0 <= i < n ==> RisksOf(run[i], steps[i], r) <= risks
  }

  lemma {:induction false} OnceHolds(run: seq<Sys>, steps: seq<Step>, n: nat, r: TaskId)
    requires IsRun(run, steps) && n < |run| && KeepsTo(run, steps, n, r, {})
    ensures IsRoot(run[n], r) ==> Once(run[n], r)
  {
    if n > 0 {
      OnceHolds(run, steps, n - 1, r);
      RunStep(run, steps, n - 1);
      Reachable(run, steps, n - 1);
      OnceNext(run[n - 1], steps[n - 1], r);
    }
  }

  /** At-most-one delivery.  In a run without a risk for request `r`, the request
      is delivered at most once, over all hubs together. */
  lemma {:induction false} DeliveredAtMostOnce(run: seq<Sys>, steps: seq<Step>, n: nat, r: TaskId)
    requires IsRun(run, steps) && n < |run| && KeepsTo(run, steps, n, r, {})
    ensures AtMostOnce(run[n], r)
  {
    OnceHolds(run, steps, n, r);
    if !IsRoot(run[n], r) {
      Reachable(run, steps, n);
      NothingBefore(run[n], r);
    }
  }
}
