/** Where everything in a state of the hubs comes from: what is stored, registered,
    down, opened and delivered, read off the steps of the run alone. */
module HubOrigins {
  import opened Paths
  import opened Dialing
  import opened SessionLists
  import opened Peers
  import opened Hubs
  import opened HubInvariants
  import Admission

  // ------------------------------------------------------------------ requests

  lemma {:induction false} SameTaskLater(run: seq<Sys>, m: nat, n: nat, t: TaskId)
    requires KeepsIdentity(run) && m <= n < |run| && t in run[m].tasks
    ensures t in run[n].tasks && SameTask(run[m].tasks[t], run[n].tasks[t])
    decreases n
  {
    if m < n {
      SameTaskLater(run, m, n - 1, t);
      assert SameIdentity(run[n - 1], run[n]);
    }
  }

  lemma {:induction false} TaskKept(run: seq<Sys>, steps: seq<Step>, m: nat, n: nat, t: TaskId)
    requires IsRun(run, steps) && m <= n < |run| && t in run[m].tasks
    ensures t in run[n].tasks && SameTask(run[m].tasks[t], run[n].tasks[t])
  {
    RunIdentity(run, steps);
    SameTaskLater(run, m, n, t);
  }

  /** A request is served as it was submitted: at that hub, for that key and that
      subpath, with a peer manager, and under no other request. */
  lemma {:induction false} ServedAsSubmitted(run: seq<Sys>, steps: seq<Step>, a: nat, n: nat)
    requires IsRun(run, steps) && a < n < |run| && steps[a].Submit?
    ensures var Submit(t, hub, key, sub) := steps[a];
      && t !in run[a].tasks && t in run[n].tasks
      && var x := run[n].tasks[t];
         x.root == t && x.hub == hub && x.key == key && x.sub == sub && x.mgr
  {
    RunStep(run, steps, a);
    TaskKept(run, steps, a + 1, n, steps[a].task);
  }

  /** How the step before the handler's first state made it. */
  ghost predicate Starts(s: Sys, step: Step, t: TaskId, x: Task) {
    || step == Submit(t, x.hub, x.key, x.sub)
    || (step == Do(x.root, Arrive(t, x.hub)) && x.root in s.tasks && x.root != t)
  }

  lemma {:induction false} StartStep(s: Sys, step: Step, t: TaskId)
    requires TasksOk(s.tasks) && Enabled(s, step) && t !in s.tasks && t in After(s, step).tasks
    ensures Starts(s, step, t, After(s, step).tasks[t])
  {
    if step.Do? {
      ActEffects(s, step.task, step.act);
      ActFrame(s, step.task, step.act);
      assert TaskOk(s.tasks, step.task);
      NextOk(s, step.task, step.act);
    }
  }

  lemma {:induction false} StartsNow(run: seq<Sys>, steps: seq<Step>, p: nat, t: TaskId)
    requires IsRun(run, steps) && p < |steps| && t !in run[p].tasks && t in run[p + 1].tasks
    ensures Starts(run[p], steps[p], t, run[p + 1].tasks[t])
  {
    RunStep(run, steps, p);
    Reachable(run, steps, p);
    StartStep(run[p], steps[p], t);
  }

  lemma {:induction false} StartsSame(s: Sys, step: Step, t: TaskId, x: Task, x': Task)
    requires Starts(s, step, t, x) && SameTask(x, x')
    ensures Starts(s, step, t, x')
  {
  }

  lemma {:induction false} Started(run: seq<Sys>, steps: seq<Step>, n: nat, t: TaskId) returns (b: nat)
    requires IsRun(run, steps) && n < |run| && t in run[n].tasks
    ensures b < n && Starts(run[b], steps[b], t, run[n].tasks[t])
  {
    var p := n - 1;
    if t in run[p].tasks {
      b := Started(run, steps, p, t);
      TaskKept(run, steps, p, n, t);
      StartsSame(run[b], steps[b], t, run[p].tasks[t], run[n].tasks[t]);
    } else {
      b := p;
      StartsNow(run, steps, p, t);
    }
  }

  /** Every handler goes back to one submitted request: the entry handler to the
      step itself, any other to a peer call of the entry handler that reached its
      hub after that step. */
  lemma {:induction false} HandlerOrigin(run: seq<Sys>, steps: seq<Step>, n: nat, t: TaskId)
      returns (a: nat, b: nat)
    requires IsRun(run, steps) && n < |run| && t in run[n].tasks
    ensures var x := run[n].tasks[t];
      && a <= b < n && steps[a].Submit? && steps[a].task == x.root
      && if t == x.root then b == a && steps[a].hub == x.hub
         else a < b && steps[b] == Do(x.root, Arrive(t, x.hub))
  {
    var x := run[n].tasks[t];
    Reachable(run, steps, n);
    assert TaskOk(run[n].tasks, t);
    b := Started(run, steps, n, t);
    if steps[b].Submit? {
      ServedAsSubmitted(run, steps, b, n);
      a := b;
    } else {
      Reachable(run, steps, b);
      TaskKept(run, steps, b, n, x.root);
      assert TaskOk(run[n].tasks, x.root);
      a := Started(run, steps, b, x.root);
    }
  }

  // ------------------------------------------------------------------ clusters

  /** A write that both webhooks let through. */
  predicate Writes(step: Step, key: Key) {
    step.Write? && step.req.Object? && step.req.cluster.key == key && step.marshal.Marshals?
  }

  /** The token of a write: the supplied one, or else the new UUID. */
  function TokenOf(step: Step): string
    requires step.Write? && step.req.Object?
  {
    if step.req.cluster.token != "" then step.req.cluster.token else step.uuid
  }

  /** Step `i` is the last of the first `n` that wrote or deleted `key`, and wrote. */
  ghost predicate LastWrite(steps: seq<Step>, n: nat, key: Key, i: nat) {
    && i < n <= |steps| && Writes(steps[i], key)
    && forall j :: i < j < n ==> !Writes(steps[j], key) && steps[j] != Delete(key)
  }

  lemma {:induction false} StoreStep(s: Sys, step: Step, key: Key)
    requires Enabled(s, step)
    ensures var store := After(s, step).store;
      if Writes(step, key) then key in store && store[key] == TokenOf(step)
      else if step == Delete(key) then key !in store
      else (key in store <==> key in s.store) && (key in store ==> store[key] == s.store[key])
  {
    if step.Write? && step.req.Object? && step.marshal.Marshals? {
      var key' := step.req.cluster.key;
      Admission.StoredExactly(step.req, step.uuid, step.marshal, Admission.Cluster(key', TokenOf(step)));
    } else if step.Write? {
      var admitted := Admission.Admit(step.req, step.uuid, step.marshal);
      if admitted.Stored? { Admission.StoredExactly(step.req, step.uuid, step.marshal, admitted.cluster); }
    }
  }

  /** A cluster is stored exactly if it was written and not deleted since, and its
      token is the one supplied with the last write, or the UUID of that write. */
  lemma {:induction false} StoredAsWritten(run: seq<Sys>, steps: seq<Step>, n: nat, key: Key)
    requires IsRun(run, steps) && n < |run|
    ensures key in run[n].store <==> exists i: nat :: LastWrite(steps, n, key, i)
    ensures forall i: nat :: LastWrite(steps, n, key, i) ==> key in run[n].store && run[n].store[key] == TokenOf(steps[i])
  {
    if n > 0 {
      var p := n - 1;
      StoredAsWritten(run, steps, p, key);
      RunStep(run, steps, p);
      StoreStep(run[p], steps[p], key);
      if Writes(steps[p], key) {
        assert LastWrite(steps, n, key, p);
        assert forall i: nat :: LastWrite(steps, n, key, i) ==> i == p;
      } else if steps[p] != Delete(key) {
        assert forall i: nat :: LastWrite(steps, n, key, i) <==> LastWrite(steps, p, key, i);
      }
    }
  }

  // -------------------------------------------------------------------- agents

  lemma {:induction false} ArrivalStep(s: Sys, step: Step, c: ConnId)
    requires Enabled(s, step)
    ensures c in s.connects ==> c in After(s, step).connects
    ensures c in After(s, step).connects ==>
      var x := After(s, step).connects[c];
      if c in s.connects then x == s.connects[c].(phase := x.phase)
      else step == AgentArrives(c, x.(phase := Arrived))
  {
  }

  lemma {:induction false} ConnectFrom(run: seq<Sys>, steps: seq<Step>, n: nat, c: ConnId) returns (d: nat)
    requires IsRun(run, steps) && n < |run| && c in run[n].connects
    ensures d < n && steps[d] == AgentArrives(c, run[n].connects[c].(phase := Arrived))
  {
    RunStep(run, steps, n - 1);
    ArrivalStep(run[n - 1], steps[n - 1], c);
    if c in run[n - 1].connects { d := ConnectFrom(run, steps, n - 1, c); } else { d := n - 1; }
  }

  ghost predicate ConnectsGrow(run: seq<Sys>) {
    forall i :: 0 < i < |run| ==> run[i - 1].connects.Keys <= run[i].connects.Keys
  }

  lemma {:induction false} RunConnects(run: seq<Sys>, steps: seq<Step>)
    requires IsRun(run, steps)
    ensures ConnectsGrow(run)
  {
    forall i | 0 < i < |run|
      ensures run[i - 1].connects.Keys <= run[i].connects.Keys
    {
      RunStep(run, steps, i - 1);
      forall c | c in run[i - 1].connects
        ensures c in run[i].connects
      {
        ArrivalStep(run[i - 1], steps[i - 1], c);
      }
    }
  }

  lemma {:induction false} ConnectKept(run: seq<Sys>, m: nat, n: nat, c: ConnId)
    requires ConnectsGrow(run) && m <= n < |run| && c in run[m].connects
    ensures c in run[n].connects
    decreases n
  {
    if m < n { ConnectKept(run, m, n - 1, c); }
  }

  lemma {:induction false} RegisterStep(s: Sys, step: Step, x: Sess)
    requires Enabled(s, step) && x in After(s, step).registry
    ensures var g := After(s, step).registry[x];
      if x in s.registry then s.registry[x] == g
      else step == AgentRegisters(g.conn, x) && g.conn in s.connects
           && s.connects[g.conn] == Connect(g.hub, g.key, g.token, Checked)
  {
  }

  /** A session is registered only by the step that registers it, as its agent
      arrived: at that hub, for that key, with that token. */
  lemma {:induction false} RegisteredFrom(run: seq<Sys>, steps: seq<Step>, n: nat, x: Sess)
      returns (d: nat, e: nat)
    requires IsRun(run, steps) && n < |run| && x in run[n].registry
    ensures var g := run[n].registry[x];
      && d < e < n && steps[e] == AgentRegisters(g.conn, x)
      && steps[d] == AgentArrives(g.conn, Connect(g.hub, g.key, g.token, Arrived))
  {
    RunStep(run, steps, n - 1);
    RegisterStep(run[n - 1], steps[n - 1], x);
    if x in run[n - 1].registry {
      d, e := RegisteredFrom(run, steps, n - 1, x);
    } else {
      e := n - 1;
      d := ConnectFrom(run, steps, e, steps[e].conn);
    }
  }

  /** Agent `c` has been served: its session is registered, or it failed. */
  predicate Serves(step: Step, c: ConnId) {
    (step.AgentRegisters? || step.AgentFails?) && step.conn == c
  }

  ghost predicate IsOver(s: Sys, c: ConnId) {
    c in s.connects && s.connects[c].phase.Over?
  }

  lemma {:induction false} OverStep(s: Sys, step: Step, c: ConnId)
    requires Enabled(s, step) && (Serves(step, c) || IsOver(s, c))
    ensures IsOver(After(s, step), c)
  {
  }

  lemma {:induction false} StaysOver(run: seq<Sys>, steps: seq<Step>, i: nat, n: nat, c: ConnId)
    requires IsRun(run, steps) && i < n < |run| && Serves(steps[i], c)
    ensures IsOver(run[n], c)
    decreases n
  {
    if i < n - 1 { StaysOver(run, steps, i, n - 1, c); }
    RunStep(run, steps, n - 1);
    OverStep(run[n - 1], steps[n - 1], c);
  }

  /** An agent registers at most one session, and none once it failed. */
  lemma {:induction false} OneSessionPerAgent(run: seq<Sys>, steps: seq<Step>, i: nat, j: nat)
    requires IsRun(run, steps) && i < j < |steps| && (steps[i].AgentRegisters? || steps[i].AgentFails?)
    ensures steps[j].AgentRegisters? ==> steps[j].conn != steps[i].conn
  {
    StaysOver(run, steps, i, j, steps[i].conn);
    RunStep(run, steps, j);
  }

  // ------------------------------------------------------------------ sessions

  /** The session is lost, or found dead by a dial call, which closes it. */
  ghost predicate TakesDown(step: Step, x: Sess) {
    step == Die(x) || (step.Do? && step.act.Dial? && x in Failures(step.act.log))
  }

  lemma {:induction false} DownStep(s: Sys, step: Step, x: Sess)
    requires Enabled(s, step)
    ensures x in After(s, step).down <==> x in s.down || TakesDown(step, x)
  {
  }

  /** A session is down exactly if it was lost or a dial call removed it. */
  lemma {:induction false} DownExactly(run: seq<Sys>, steps: seq<Step>, n: nat, x: Sess)
    requires IsRun(run, steps) && n < |run|
    ensures x in run[n].down <==> exists i :: 0 <= i < n && TakesDown(steps[i], x)
  {
    if n > 0 {
      DownExactly(run, steps, n - 1, x);
      RunStep(run, steps, n - 1);
      DownStep(run[n - 1], steps[n - 1], x);
    }
  }

  /** A step that opens a connection of handler `t` to session `x`. */
  predicate Dials(step: Step, t: TaskId, x: Sess) {
    step.Do? && step.task == t && step.act.Dial? && step.act.out == Dialed(x)
  }

  /** A step in which the open connection of handler `t` takes the request. */
  predicate Sends(step: Step, t: TaskId) {
    step.Do? && step.task == t && (step.act.Respond? || step.act == Break(true))
  }

  /** No handler at any hub gets a connection to a session that is down, whether it
      was lost or removed. */
  lemma {:induction false} NeverOpensDown(run: seq<Sys>, steps: seq<Step>, i: nat, j: nat, t: TaskId, x: Sess)
    requires IsRun(run, steps) && i < j < |steps| && TakesDown(steps[i], x)
    ensures !Dials(steps[j], t, x)
  {
    DownExactly(run, steps, j, x);
    RunStep(run, steps, j);
  }

  // ------------------------------------------------------------- opened and sent

  lemma {:induction false} OpensStep(s: Sys, step: Step, o: Reach)
    requires Enabled(s, step)
    ensures o in After(s, step).opens <==>
      o in s.opens || (Dials(step, o.task, o.sess) && s.tasks[o.task].root == o.root)
  {
    if step.Do? { ActEffects(s, step.task, step.act); }
  }

  /** The connections opened are those of the dial steps. */
  lemma {:induction false} OpenedExactly(run: seq<Sys>, steps: seq<Step>, n: nat, o: Reach)
    requires IsRun(run, steps) && n < |run|
    ensures o in run[n].opens <==>
      exists i :: 0 <= i < n && Dials(steps[i], o.task, o.sess)
                  && o.task in run[n].tasks && run[n].tasks[o.task].root == o.root
  {
    if n > 0 {
      var p := n - 1;
      OpenedExactly(run, steps, p, o);
      RunStep(run, steps, p);
      OpensStep(run[p], steps[p], o);
      if o.task in run[p].tasks { TaskKept(run, steps, p, n, o.task); }
      forall i | 0 <= i < n && Dials(steps[i], o.task, o.sess)
        ensures o.task in run[p].tasks
      {
        RunStep(run, steps, i);
        TaskKept(run, steps, i, p, o.task);
      }
    }
  }

  /** Handler `t` has dialled, and if it has a connection, then to `x`. */
  ghost predicate HasDialed(s: Sys, t: TaskId, x: Sess) {
    && t in s.tasks && !s.tasks[t].pc.Begin? && !s.tasks[t].pc.Found?
    && (s.tasks[t].pc.HasConn? ==> s.tasks[t].pc.sess == x)
  }

  lemma {:induction false} DialedStep(s: Sys, step: Step, t: TaskId, x: Sess)
    requires Enabled(s, step) && (Dials(step, t, x) || HasDialed(s, t, x))
    ensures HasDialed(After(s, step), t, x)
  {
    if step.Do? {
      ActEffects(s, step.task, step.act);
      ActFrame(s, step.task, step.act);
    }
  }

  /** A handler that has a connection dialled it, and dials no other. */
  lemma {:induction false} OneConn(run: seq<Sys>, steps: seq<Step>, i: nat, n: nat, t: TaskId, x: Sess)
    requires IsRun(run, steps) && i < n < |run| && Dials(steps[i], t, x)
    ensures HasDialed(run[n], t, x)
    decreases n
  {
    if i < n - 1 { OneConn(run, steps, i, n - 1, t, x); }
    RunStep(run, steps, n - 1);
    DialedStep(run[n - 1], steps[n - 1], t, x);
  }

  /** Handler `t` got a connection to `x` and then sent the request over it. */
  ghost predicate SentOver(steps: seq<Step>, n: nat, t: TaskId, x: Sess) {
    exists i, j :: 0 <= i < j < n <= |steps| && Dials(steps[i], t, x) && Sends(steps[j], t)
  }

  lemma {:induction false} DeliveredStep(run: seq<Sys>, steps: seq<Step>, p: nat, o: Reach)
    requires IsRun(run, steps) && p < |steps|
    ensures o in run[p + 1].delivered <==>
      o in run[p].delivered
      || (Sends(steps[p], o.task) && run[p].tasks[o.task].root == o.root && run[p].tasks[o.task].pc.sess == o.sess)
  {
    RunStep(run, steps, p);
    if steps[p].Do? { ActEffects(run[p], steps[p].task, steps[p].act); }
  }

  lemma {:induction false} SendsOwnConn(run: seq<Sys>, steps: seq<Step>, p: nat, o: Reach)
    requires IsRun(run, steps) && p < |steps| && Sends(steps[p], o.task)
    ensures o.task in run[p].tasks && run[p].tasks[o.task].pc.HasConn?
    ensures run[p].tasks[o.task].pc.sess == o.sess <==> exists i :: 0 <= i < p && Dials(steps[i], o.task, o.sess)
  {
    RunStep(run, steps, p);
    Reachable(run, steps, p);
    var x := run[p].tasks[o.task];
    if x.pc.sess == o.sess {
      OpenedExactly(run, steps, p, Reach(x.root, o.task, o.sess));
    }
    if i :| 0 <= i < p && Dials(steps[i], o.task, o.sess) { OneConn(run, steps, i, p, o.task, o.sess); }
  }

  /** What is delivered is what was sent over a connection that its own handler had
      dialled, and all of it. */
  lemma {:induction false} DeliveredExactly(run: seq<Sys>, steps: seq<Step>, n: nat, o: Reach)
    requires IsRun(run, steps) && n < |run|
    ensures o in run[n].delivered <==>
      SentOver(steps, n, o.task, o.sess) && o.task in run[n].tasks && run[n].tasks[o.task].root == o.root
  {
    if n > 0 {
      var p := n - 1;
      DeliveredExactly(run, steps, p, o);
      DeliveredStep(run, steps, p, o);
      if o.task in run[p].tasks { TaskKept(run, steps, p, n, o.task); }
      if Sends(steps[p], o.task) { SendsOwnConn(run, steps, p, o); }
      SentOverStep(run, steps, p, o.task, o.sess);
    }
  }

  lemma {:induction false} SentOverStep(run: seq<Sys>, steps: seq<Step>, p: nat, t: TaskId, x: Sess)
    requires IsRun(run, steps) && p < |steps|
    ensures SentOver(steps, p + 1, t, x) <==>
      SentOver(steps, p, t, x) || (Sends(steps[p], t) && exists i :: 0 <= i < p && Dials(steps[i], t, x))
    ensures SentOver(steps, p, t, x) ==> t in run[p].tasks
  {
    if i, j :| 0 <= i < j < p && Dials(steps[i], t, x) && Sends(steps[j], t) {
      OneConn(run, steps, i, p, t, x);
    }
  }
}
