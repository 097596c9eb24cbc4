/** The micro-steps lose nothing: the histories that concurrent calls linearize to
    are exactly the sequential ones in which no call opens a session that was
    removed. */
module MutexHistories {
  import opened Dialing
  import opened SessionLists
  import opened MutexMachine

  /** Steps that lead from `a` to `b`. */
  datatype Trip = Trip(path: seq<State>, steps: seq<Step>) {
    ghost predicate Goes(a: State, b: State) {
      && |path| == |steps| + 1 && path[0] == a && path[|steps|] == b
      && forall i :: 0 <= i < |steps| ==> Enabled(path[i], steps[i]) && path[i + 1] == After(path[i], steps[i])
    }
  }

  ghost predicate Leads(a: State, b: State) {
    exists trip: Trip :: trip.Goes(a, b)
  }

  lemma {:induction false} Stays(s: State)
    ensures Leads(s, s)
  {
    assert Trip([s], []).Goes(s, s);
  }

  lemma {:induction false} Then(a: State, s: State, step: Step) returns (s': State)
    requires Leads(a, s) && Enabled(s, step)
    ensures s' == After(s, step) && Leads(a, s')
  {
    s' := After(s, step);
    var p: Trip :| p.Goes(a, s);
    var q := Trip(p.path + [s'], p.steps + [step]);
    forall i | 0 <= i < |q.steps|
      ensures Enabled(q.path[i], q.steps[i]) && q.path[i + 1] == After(q.path[i], q.steps[i])
    {
      if i < |p.steps| { assert q.path[i] == p.path[i] && q.path[i + 1] == p.path[i + 1]; }
    }
    assert q.Goes(a, s');
  }

  /** Thread `t` is inside, at `pc`, and runs `call`. */
  predicate At(s: State, t: Tid, call: Call, pc: Pc) {
    t in s.threads && s.threads[t] == Thread(call, pc)
  }

  /** What a step inside leaves as it is. */
  ghost predicate SameRecords(s: State, s': State) {
    s'.threads.Keys == s.threads.Keys && s'.holder == s.holder && s'.order == s.order && s'.maps == s.maps
  }

  lemma {:induction false} ThenInside(a: State, s: State, t: Tid, call: Call, act: Act) returns (s': State)
    requires Leads(a, s) && t in s.threads && s.threads[t].call == call && MoveOf(s, t, act).To?
    ensures Leads(a, s') && SameRecords(s, s') && var l := MoveOf(s, t, act).local;
      At(s', t, call, l.pc) && s'.lists == l.lists && s'.down == l.down
  {
    s' := Then(a, s, Inside(t, act));
  }

  /** One turn of the loop that fails at `idx`. */
  lemma {:induction false} FailingTurn(
      a: State, s: State, t: Tid, id: string, ss: seq<Sess>, log: seq<Attempt<Sess>>, idx: nat)
      returns (s': State)
    requires Leads(a, s) && At(s, t, Dial(id), Looping(ss, log)) && idx < |ss|
    ensures Leads(a, s') && SameRecords(s, s')
    ensures At(s', t, Dial(id), Looping(Removed(ss, idx), log + [Attempt(idx, ss[idx], false)]))
    ensures s'.lists == s.lists[id := Removed(ss, idx)] && s'.down == s.down + {ss[idx]}
  {
    s' := ThenInside(a, s, t, Dial(id), Choose(idx));
    s' := ThenInside(a, s', t, Dial(id), Open(false));
    s' := ThenInside(a, s', t, Dial(id), Close);
    s' := ThenInside(a, s', t, Dial(id), Shift);
    s' := ThenInside(a, s', t, Dial(id), Store);
  }

  lemma {:induction false} ConsAssoc<T>(a: seq<T>, b: seq<T>)
    requires b != []
    ensures a + [b[0]] + b[1..] == a + b
  {
  }

  /** The loop makes the attempts `more`, if the session that opens is up. */
  lemma {:induction false} LoopRuns(
      a: State, s: State, t: Tid, id: string, ss: seq<Sess>, log: seq<Attempt<Sess>>,
      more: seq<Attempt<Sess>>, out: Outcome<Sess>, rest: seq<Sess>) returns (s': State)
    requires Leads(a, s) && At(s, t, Dial(id), Looping(ss, log)) && Listed(s.lists, id) == ss
    requires DialLog(ss, more, out, rest)
    requires out.Dialed? ==> out.sess !in s.down && out.sess !in FailedSet(more)
    ensures Leads(a, s') && SameRecords(s, s')
    ensures At(s', t, Dial(id), Leaving(Conn(log + more, out)))
    ensures s'.lists == AfterDial(s.lists, id, more, rest) && s'.down == s.down + FailedSet(more)
    decreases |more|
  {
    if more == [] {
      s' := ThenInside(a, s, t, Dial(id), GiveUp);
      assert log + more == log && FailedSet(more) == {};
    } else if more[0].ok {
      s' := ThenInside(a, s, t, Dial(id), Choose(more[0].idx));
      s' := ThenInside(a, s', t, Dial(id), Open(true));
      assert more == [more[0]] && Failures(more) == [] && FailedSet(more) == {};
    } else {
      var idx := more[0].idx;
      FailedFirst(more);
      var s1 := FailingTurn(a, s, t, id, ss, log, idx);
      s' := LoopRuns(a, s1, t, id, Removed(ss, idx), log + [more[0]], more[1..], out, rest);
      ConsAssoc(log, more);
      StoredTwice(s.lists, id, Removed(ss, idx), rest);
      if Failures(more[1..]) == [] { NothingFailed(Removed(ss, idx), more[1..], out, rest); }
    }
  }

  lemma {:induction false} FailedFirst(more: seq<Attempt<Sess>>)
    requires more != [] && !more[0].ok
    ensures FailedSet(more) == {more[0].sess} + FailedSet(more[1..])
    ensures Failures(more) != []
  {
    assert Failures(more) == [more[0].sess] + Failures(more[1..]);
  }

  /** Storing what one turn left and then what the rest leaves. */
  lemma {:induction false} StoredTwice(lists: Lists<Sess>, id: string, next: seq<Sess>, rest: seq<Sess>)
    ensures lists[id := next][id := rest] == lists[id := rest]
  {
  }

  lemma {:induction false} NothingFailed(
      ss: seq<Sess>, log: seq<Attempt<Sess>>, out: Outcome<Sess>, rest: seq<Sess>)
    requires DialLog(ss, log, out, rest) && Failures(log) == []
    ensures rest == ss
  {
  }

  /** A quiet moment at which the calls `ops` have been made. */
  ghost predicate Quiet(s: State, ops: seq<Op<Sess>>, maps: seq<Lists<Sess>>) {
    && s.holder == {} && Ops(s.order) == ops && s.maps == maps && |maps| > 0 && s.lists == maps[|maps| - 1]
    && (forall t :: t in s.threads ==> t < |ops|)
    && s.down == GoneBy(ops)
  }

  ghost function GoneBy(ops: seq<Op<Sess>>): set<Sess> {
    set p, x | 0 <= p < |ops| && x in ops[p].Gone() :: x
  }

  function CallOf(op: Op<Sess>): Call {
    match op
    case AddOp(id, sess) => Add(id, sess)
    case DialOp(id, _, _) => Dial(id)
  }

  function ResultOf(op: Op<Sess>): Result {
    match op
    case AddOp(_, _) => Done
    case DialOp(_, log, out) => Conn(log, out)
  }

  lemma {:induction false} OpInside(a: State, s: State, t: Tid, op: Op<Sess>, after: Lists<Sess>) returns (s': State)
    requires Leads(a, s) && At(s, t, CallOf(op), Entered) && OpStep(s.lists, op, after)
    requires op.DialOp? && op.out.Dialed? ==> op.out.sess !in s.down && op.out.sess !in op.Gone()
    ensures Leads(a, s') && SameRecords(s, s') && At(s', t, CallOf(op), Leaving(ResultOf(op)))
    ensures s'.lists == after && s'.down == s.down + set x | x in op.Gone()
  {
    s' := ThenInside(a, s, t, CallOf(op), Read);
    match op
    case AddOp(id, sess) =>
      s' := ThenInside(a, s', t, CallOf(op), Store);
    case DialOp(id, log, out) =>
      s' := LoopRuns(a, s', t, id, Listed(s.lists, id), [], log, out, Listed(after, id));
      assert [] + log == log;
  }

  lemma {:induction false} GoneByMore(ops: seq<Op<Sess>>, op: Op<Sess>)
    ensures GoneBy(ops + [op]) == GoneBy(ops) + set x | x in op.Gone()
  {
    var all := ops + [op];
    assert all[|ops|] == op;
    forall x | x in GoneBy(ops)
      ensures x in GoneBy(all)
    {
      var p :| 0 <= p < |ops| && x in ops[p].Gone();
      assert all[p] == ops[p];
    }
  }

  lemma {:induction false} OpensLive(ops: seq<Op<Sess>>, op: Op<Sess>)
    requires NeverReopens(ops + [op]) && op.DialOp? && op.out.Dialed?
    ensures op.out.sess !in GoneBy(ops) && op.out.sess !in op.Gone()
  {
    var all := ops + [op];
    assert all[|ops|] == op;
    GoneByMore(ops, op);
  }

  /** A new thread makes a call, undisturbed, up to the release of the mutex. */
  lemma {:induction false} ThreadRuns(a: State, s: State, t: Tid, op: Op<Sess>, after: Lists<Sess>) returns (s': State)
    requires Leads(a, s) && s.holder == {} && t !in s.threads && OpStep(s.lists, op, after)
    requires op.DialOp? && op.out.Dialed? ==> op.out.sess !in s.down && op.out.sess !in op.Gone()
    ensures Leads(a, s') && s'.holder == {} && s'.threads.Keys == s.threads.Keys + {t}
    ensures s'.order == s.order + [(t, op)] && s'.maps == s.maps + [after] && s'.lists == after
    ensures s'.down == s.down + set x | x in op.Gone()
  {
    s' := Then(a, s, Invoke(t, CallOf(op)));
    s' := Then(a, s', Acquire(t));
    s' := OpInside(a, s', t, op, after);
    s' := Then(a, s', Unlock(t));
  }

  /** One more call. */
  lemma {:induction false} OpRuns(
      a: State, s: State, ops: seq<Op<Sess>>, maps: seq<Lists<Sess>>, op: Op<Sess>, after: Lists<Sess>)
      returns (s': State)
    requires Leads(a, s) && Quiet(s, ops, maps) && OpStep(maps[|maps| - 1], op, after)
    requires NeverReopens(ops + [op])
    ensures Leads(a, s') && Quiet(s', ops + [op], maps + [after])
  {
    if op.DialOp? && op.out.Dialed? { OpensLive(ops, op); }
    s' := ThreadRuns(a, s, |ops|, op, after);
    GoneByMore(ops, op);
    assert Ops(s'.order) == ops + [op];
  }

  /** A history with its last call apart. */
  lemma {:induction false} LastCall(ops: seq<Op<Sess>>, maps: seq<Lists<Sess>>)
    requires Sequential(maps, ops) && NeverReopens(ops) && ops != []
    ensures var last := |ops| - 1;
      && Sequential(maps[..last + 1], ops[..last]) && NeverReopens(ops[..last])
      && OpStep(maps[..last + 1][last], ops[last], maps[last + 1])
      && ops[..last] + [ops[last]] == ops && maps[..last + 1] + [maps[last + 1]] == maps
  {
    Shorter(maps, ops, |ops| - 1);
    assert forall p :: 0 <= p < |ops| - 1 ==> ops[..|ops| - 1][p] == ops[p];
  }

  /** Every sequential history that reopens nothing comes about. */
  lemma {:induction false} Realised(ops: seq<Op<Sess>>, maps: seq<Lists<Sess>>) returns (s: State)
    requires Sequential(maps, ops) && maps[0] == map[] && NeverReopens(ops)
    ensures Leads(INITIAL, s) && Quiet(s, ops, maps)
    decreases |ops|
  {
    if ops == [] {
      s := INITIAL;
      Stays(s);
    } else {
      var last := |ops| - 1;
      LastCall(ops, maps);
      var s1 := Realised(ops[..last], maps[..last + 1]);
      s := OpRuns(INITIAL, s1, ops[..last], maps[..last + 1], ops[last], maps[last + 1]);
    }
  }

  /** Some run comes to rest with these calls made, in this order, through these
      maps. */
  ghost predicate ComesAbout(ops: seq<Op<Sess>>, maps: seq<Lists<Sess>>) {
    exists run: seq<State>, steps: seq<Step> ::
      && IsRun(run, steps)
      && var s := run[|steps|]; s.holder == {} && Ops(s.order) == ops && s.maps == maps
  }

  /** Exactness: what concurrent calls can come to is what calls one after the other
      can, and nothing else. */
  lemma {:induction false} HistoriesExactly(ops: seq<Op<Sess>>, maps: seq<Lists<Sess>>)
    ensures ComesAbout(ops, maps) <==> Sequential(maps, ops) && |maps| > 0 && maps[0] == map[] && NeverReopens(ops)
  {
    if ComesAbout(ops, maps) {
      var run: seq<State>, steps: seq<Step> :|
        IsRun(run, steps)
        && var s := run[|steps|]; s.holder == {} && Ops(s.order) == ops && s.maps == maps;
      HistorySound(run, steps);
    }
    if Sequential(maps, ops) && maps[0] == map[] && NeverReopens(ops) {
      var s := Realised(ops, maps);
      var trip: Trip :| trip.Goes(INITIAL, s);
      assert IsRun(trip.path, trip.steps);
    }
  }

  lemma {:induction false} HistorySound(run: seq<State>, steps: seq<Step>)
    requires IsRun(run, steps)
    ensures var s := run[|steps|];
      Sequential(s.maps, Ops(s.order)) && s.maps[0] == map[] && NeverReopens(Ops(s.order))
  {
    Reachable(run, steps, |steps|);
    var s := run[|steps|];
    forall p, q | 0 <= p <= q < |s.order| && s.order[q].1.DialOp? && s.order[q].1.out.Dialed?
      ensures s.order[q].1.out.sess !in s.order[p].1.Gone()
    {
      assert NotGone(s.order, q + 1, s.order[q].1.out.sess);
    }
  }
}
