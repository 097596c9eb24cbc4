/** Any number of concurrent calls on one session manager, in micro-steps.

    A call waits for the mutex, reads the map, works on a local slice and stores
    it, releases the mutex and returns.  Between any two micro-steps of one call
    the others may take theirs and a session may go down.  The theorem is that
    the mutex makes the calls linearizable: their results and the final map are
    those of the calls executed one after the other, in an order that respects
    real time. */
module MutexMachine {
  import opened Dialing
  import opened SessionLists

  type Sess = nat
  type Tid = nat
  type Order = seq<(Tid, Op<Sess>)>

  datatype Call = Add(id: string, sess: Sess) | Dial(id: string)

  datatype Result = Done | Conn(log: seq<Attempt<Sess>>, out: Outcome<Sess>)

  datatype Pc =
    | Blocked                                                  // waiting for the mutex
    | Entered                                                  // holding it, nothing read yet
    | Appended(ss: seq<Sess>)                                  // appended locally, map not written
    | Looping(ss: seq<Sess>, log: seq<Attempt<Sess>>)          // at the head of the dial loop
    | Chose(ss: seq<Sess>, log: seq<Attempt<Sess>>, idx: nat)  // before `Open`
    | Failed(ss: seq<Sess>, log: seq<Attempt<Sess>>, idx: nat) // `Open` failed, before `Close`
    | Closed(ss: seq<Sess>, log: seq<Attempt<Sess>>, idx: nat) // before the in-place deletion
    | Shifted(ss: seq<Sess>, log: seq<Attempt<Sess>>)          // array shifted, map header stale
    | Leaving(res: Result)                                     // before the deferred unlock
    | Unlocked(res: Result)                                    // not yet back at the caller
    | Returned(res: Result)

  datatype Thread = Thread(call: Call, pc: Pc)

  /** `order` and `maps` only record: which calls released the mutex, in that
      order, and what the map was each time. */
  datatype State = State(
    lists: Lists<Sess>,
    holder: set<Tid>,
    threads: map<Tid, Thread>,
    down: set<Sess>,
    order: Order,
    maps: seq<Lists<Sess>>)

  const INITIAL := State(map[], {}, map[], {}, [], [map[]])

  function OpOf(call: Call, res: Result): Op<Sess> {
    match (call, res)
    case (Add(id, s), _) => AddOp(id, s)
    case (Dial(id), Conn(log, out)) => DialOp(id, log, out)
    case (Dial(id), Done) => DialOp(id, [], NoSession)
  }

  /** An append returns nothing, a dial a connection or an error. */
  predicate Fits(call: Call, res: Result) {
    call.Add? <==> res.Done?
  }

  /** The stale view of the map after the in-place shift: the header still has the
      old length, and the last session stands there twice. */
  function Torn(ss: seq<Sess>, idx: nat): seq<Sess>
    requires idx < |ss|
  {
    Removed(ss, idx) + [ss[|ss| - 1]]
  }

  /** A micro-step of a thread that holds the mutex. */
  datatype Act = Read | Store | GiveUp | Choose(idx: nat) | Open(ok: bool) | Close | Shift

  /** What such a step changes. */
  datatype Local = Local(pc: Pc, lists: Lists<Sess>, down: set<Sess>)

  datatype Moved = Stuck | To(local: Local)

  function Move(call: Call, l: Local, act: Act): Moved {
    var pc := l.pc;
    match act
    case Read =>
      if !pc.Entered? then Stuck
      else if call.Add? then To(l.(pc := Appended(Listed(l.lists, call.id) + [call.sess])))
      else To(l.(pc := Looping(Listed(l.lists, call.id), [])))
    case Store =>
      if pc.Appended? then To(l.(pc := Leaving(Done), lists := l.lists[call.id := pc.ss]))
      else if pc.Shifted? then To(l.(pc := Looping(pc.ss, pc.log), lists := l.lists[call.id := pc.ss]))
      else Stuck
    case GiveUp =>
      if pc.Looping? && pc.ss == [] then To(l.(pc := Leaving(Conn(pc.log, NoSession)))) else Stuck
    case Choose(idx) =>
      if pc.Looping? && idx < |pc.ss| then To(l.(pc := Chose(pc.ss, pc.log, idx))) else Stuck
    case Open(ok) =>
      if !pc.Chose? || pc.idx >= |pc.ss| then Stuck
      else if !ok then To(l.(pc := Failed(pc.ss, pc.log, pc.idx)))
      else
        var sess := pc.ss[pc.idx];
        if sess in l.down then Stuck
        else To(l.(pc := Leaving(Conn(pc.log + [Attempt(pc.idx, sess, true)], Dialed(sess)))))
    case Close =>
      if !pc.Failed? || pc.idx >= |pc.ss| then Stuck
      else To(l.(pc := Closed(pc.ss, pc.log, pc.idx), down := l.down + {pc.ss[pc.idx]}))
    case Shift =>
      if !pc.Closed? || pc.idx >= |pc.ss| then Stuck
      else
        var a := Attempt(pc.idx, pc.ss[pc.idx], false);
        To(l.(pc := Shifted(Removed(pc.ss, pc.idx), pc.log + [a]),
              lists := l.lists[call.id := Torn(pc.ss, pc.idx)]))
  }

  datatype Step =
    | Invoke(tid: Tid, call: Call)
    | Acquire(tid: Tid)
    | Inside(tid: Tid, act: Act)
    | Unlock(tid: Tid)
    | Back(tid: Tid)
    | Die(sess: Sess)

  function MoveOf(s: State, tid: Tid, act: Act): Moved
    requires tid in s.threads
  {
    Move(s.threads[tid].call, Local(s.threads[tid].pc, s.lists, s.down), act)
  }

  function WithPc(s: State, tid: Tid, pc: Pc): map<Tid, Thread>
    requires tid in s.threads
  {
    s.threads[tid := Thread(s.threads[tid].call, pc)]
  }

  predicate Enabled(s: State, step: Step) {
    match step
    case Invoke(tid, _) => tid !in s.threads
    case Acquire(tid) => tid in s.threads && s.threads[tid].pc.Blocked? && s.holder == {}
    case Inside(tid, act) => tid in s.threads && MoveOf(s, tid, act).To?
    case Unlock(tid) => tid in s.threads && s.threads[tid].pc.Leaving?
    case Back(tid) => tid in s.threads && s.threads[tid].pc.Unlocked?
    case Die(_) => true
  }

  function After(s: State, step: Step): State
    requires Enabled(s, step)
  {
    match step
    case Invoke(tid, call) => s.(threads := s.threads[tid := Thread(call, Blocked)])
    case Acquire(tid) => s.(threads := WithPc(s, tid, Entered), holder := {tid})
    case Inside(tid, act) =>
      var l := MoveOf(s, tid, act).local;
      s.(threads := WithPc(s, tid, l.pc), lists := l.lists, down := l.down)
    case Unlock(tid) =>
      var Thread(call, pc) := s.threads[tid];
      s.(threads := WithPc(s, tid, Unlocked(pc.res)),
         holder := {},
         order := s.order + [(tid, OpOf(call, pc.res))],
         maps := s.maps + [s.lists])
    case Back(tid) => s.(threads := WithPc(s, tid, Returned(s.threads[tid].pc.res)))
    case Die(sess) => s.(down := s.down + {sess})
  }

  ghost predicate IsRun(run: seq<State>, steps: seq<Step>) {
    && |run| == |steps| + 1
    && run[0] == INITIAL
    && forall i :: 0 <= i < |steps| ==> Enabled(run[i], steps[i]) && run[i + 1] == After(run[i], steps[i])
  }

  // ---------------------------------------------------------------- invariant

  predicate Critical(pc: Pc) {
    !pc.Blocked? && !pc.Unlocked? && !pc.Returned?
  }

  /** Mutual exclusion. */
  ghost predicate Mutex(s: State) {
    && (forall t :: t in s.threads && Critical(s.threads[t].pc) ==> s.holder == {t})
    && (forall t :: t in s.holder ==> t in s.threads && Critical(s.threads[t].pc) && s.holder == {t})
  }

  /** Where the thread inside stands, relative to the map `base` that it found. */
  ghost predicate Progress(base: Lists<Sess>, call: Call, pc: Pc, lists: Lists<Sess>) {
    match pc
    case Entered => lists == base
    case Appended(ss) => lists == base && call.Add? && ss == Listed(base, call.id) + [call.sess]
    case Looping(ss, log) =>
      call.Dial? && Midway(base, call.id, log, lists) && ss == Listed(lists, call.id)
    case Chose(ss, log, idx) =>
      call.Dial? && Midway(base, call.id, log, lists) && ss == Listed(lists, call.id) && idx < |ss|
    case Failed(ss, log, idx) =>
      call.Dial? && Midway(base, call.id, log, lists) && ss == Listed(lists, call.id) && idx < |ss|
    case Closed(ss, log, idx) =>
      call.Dial? && Midway(base, call.id, log, lists) && ss == Listed(lists, call.id) && idx < |ss|
    case Shifted(ss, log) => call.Dial? && Midway(base, call.id, log, lists[call.id := ss])
    case Leaving(res) => Fits(call, res) && OpStep(base, OpOf(call, res), lists)
    case _ => true
  }

  ghost predicate MapsRecorded(s: State) {
    && |s.maps| == |s.order| + 1
    && s.maps[0] == map[]
    && (forall i :: 0 <= i < |s.order| ==> OpStep(s.maps[i], s.order[i].1, s.maps[i + 1]))
  }

  ghost predicate Inner(s: State) {
    && |s.maps| > 0
    && (s.holder == {} ==> s.lists == s.maps[|s.maps| - 1])
    && (forall t :: t in s.holder && t in s.threads ==>
         Progress(s.maps[|s.maps| - 1], s.threads[t].call, s.threads[t].pc, s.lists))
  }

  predicate Finished(pc: Pc) {
    pc.Unlocked? || pc.Returned?
  }

  ghost predicate Ordered(order: Order, t: Tid) {
    exists i :: 0 <= i < |order| && order[i].0 == t
  }

  /** Exactly the threads that released the mutex are in the order, each once,
      with its own call and result. */
  ghost predicate OrderRecorded(s: State) {
    && (forall i, j :: 0 <= i < j < |s.order| ==> s.order[i].0 != s.order[j].0)
    && (forall i :: 0 <= i < |s.order| ==> FromThread(s.threads, s.order[i]))
    && (forall t :: t in s.threads && Finished(s.threads[t].pc) ==> Ordered(s.order, t))
  }

  ghost predicate FromThread(threads: map<Tid, Thread>, entry: (Tid, Op<Sess>)) {
    && entry.0 in threads
    && Finished(threads[entry.0].pc)
    && Fits(threads[entry.0].call, threads[entry.0].pc.res)
    && entry.1 == OpOf(threads[entry.0].call, threads[entry.0].pc.res)
  }

  ghost predicate GoneDown(order: Order, down: set<Sess>) {
    forall p, x :: 0 <= p < |order| && x in order[p].1.Gone() ==> x in down
  }

  ghost predicate NotGone(order: Order, n: nat, sess: Sess) {
    forall p :: 0 <= p < n && p < |order| ==> sess !in order[p].1.Gone()
  }

  /** No call opens a session that it, or an earlier one, removed. */
  ghost predicate NoneReopened(s: State) {
    && GoneDown(s.order, s.down)
    && (forall q :: 0 <= q < |s.order| && s.order[q].1.DialOp? && s.order[q].1.out.Dialed? ==>
         NotGone(s.order, q + 1, s.order[q].1.out.sess))
    && (forall t :: t in s.threads ==> LocalLog(s.threads[t].pc, s.down, s.order))
  }

  ghost predicate LocalLog(pc: Pc, down: set<Sess>, order: Order) {
    match pc
    case Looping(_, log) => FailedSet(log) <= down
    case Chose(_, log, _) => FailedSet(log) <= down
    case Failed(_, log, _) => FailedSet(log) <= down
    case Closed(ss, log, idx) => FailedSet(log) <= down && (idx < |ss| ==> ss[idx] in down)
    case Shifted(_, log) => FailedSet(log) <= down
    case Leaving(Conn(log, out)) =>
      FailedSet(log) <= down
      && (out.Dialed? ==> NotGone(order, |order|, out.sess) && out.sess !in FailedSet(log))
    case _ => true
  }

  ghost predicate Inv(s: State) {
    Mutex(s) && MapsRecorded(s) && Inner(s) && OrderRecorded(s) && NoneReopened(s)
  }

  // -------------------------------------------------------------- preservation

  lemma {:induction false} MutexKept(s: State, step: Step)
    requires Mutex(s) && Enabled(s, step)
    ensures Mutex(After(s, step))
  {
    var s' := After(s, step);
    if step.Unlock? {
      assert forall t :: t in s.threads && t != step.tid ==> s'.threads[t] == s.threads[t];
    }
  }

  /** The in-place deletion leaves the map torn, and the store that follows mends
      it. */
  lemma {:induction false} ShiftProgress(base: Lists<Sess>, call: Call, l: Local)
    requires Progress(base, call, l.pc, l.lists) && Move(call, l, Shift).To?
    ensures var l' := Move(call, l, Shift).local; Progress(base, call, l'.pc, l'.lists)
  {
    var ss, idx := l.pc.ss, l.pc.idx;
    var mended := l.lists[call.id := Removed(ss, idx)];
    MidwayDrop(base, call.id, l.pc.log, l.lists, Attempt(idx, ss[idx], false));
    assert l.lists[call.id := Torn(ss, idx)][call.id := Removed(ss, idx)] == mended;
  }

  lemma {:induction false} StoreProgress(base: Lists<Sess>, call: Call, l: Local)
    requires Progress(base, call, l.pc, l.lists) && Move(call, l, Store).To?
    ensures var l' := Move(call, l, Store).local; Progress(base, call, l'.pc, l'.lists)
  {
  }

  /** A step of the thread inside keeps it on the way of a dial or an append that
      started from `base`. */
  lemma {:induction false} MoveProgress(base: Lists<Sess>, call: Call, l: Local, act: Act)
    requires Progress(base, call, l.pc, l.lists)
    requires Move(call, l, act).To?
    ensures var l' := Move(call, l, act).local; Progress(base, call, l'.pc, l'.lists)
  {
    match act
    case Read => MidwayStart(base, call.id);
    case Store => StoreProgress(base, call, l);
    case GiveUp => MidwayEnds(base, call.id, l.pc.log, l.lists);
    case Choose(_) =>
    case Open(_) => MidwayEnds(base, call.id, l.pc.log, l.lists);
    case Close =>
    case Shift => ShiftProgress(base, call, l);
  }

  /** The thread inside is where `Inner` says. */
  lemma {:induction false} InsideProgress(s: State, tid: Tid)
    requires Mutex(s) && Inner(s) && tid in s.threads && Critical(s.threads[tid].pc)
    ensures s.holder == {tid}
    ensures Progress(s.maps[|s.maps| - 1], s.threads[tid].call, s.threads[tid].pc, s.lists)
  {
    assert tid in s.holder;
  }

  lemma {:induction false} MapsKept(s: State, step: Step)
    requires Mutex(s) && Inner(s) && MapsRecorded(s) && Enabled(s, step)
    ensures MapsRecorded(After(s, step))
  {
    if step.Unlock? {
      InsideProgress(s, step.tid);
    }
  }

  lemma {:induction false} InnerKeptInside(s: State, tid: Tid, act: Act)
    requires Mutex(s) && Inner(s) && Enabled(s, Inside(tid, act))
    ensures Inner(After(s, Inside(tid, act)))
  {
    var t := s.threads[tid];
    InsideProgress(s, tid);
    MoveProgress(s.maps[|s.maps| - 1], t.call, Local(t.pc, s.lists, s.down), act);
  }

  lemma {:induction false} InnerKept(s: State, step: Step)
    requires Mutex(s) && Inner(s) && Enabled(s, step)
    ensures Inner(After(s, step))
  {
    match step
    case Inside(tid, act) => InnerKeptInside(s, tid, act);
    case Invoke(tid, _) => assert tid !in s.holder;
    case Acquire(_) =>
    case Unlock(tid) => InsideProgress(s, tid);
    case Back(tid) => assert tid !in s.holder;
    case Die(_) =>
  }

  lemma {:induction false} OrderedGrows(order: Order, e: (Tid, Op<Sess>), t: Tid)
    ensures Ordered(order, t) ==> Ordered(order + [e], t)
    ensures Ordered(order + [e], e.0)
  {
    var more := order + [e];
    if Ordered(order, t) {
      var i :| 0 <= i < |order| && order[i].0 == t;
      assert more[i].0 == t;
    }
    assert more[|order|].0 == e.0;
  }

  lemma {:induction false} OrderKeptUnlock(s: State, tid: Tid)
    requires Mutex(s) && Inner(s) && OrderRecorded(s) && Enabled(s, Unlock(tid))
    ensures OrderRecorded(After(s, Unlock(tid)))
  {
    var s' := After(s, Unlock(tid));
    var e := s'.order[|s.order|];
    assert s.holder == {tid};
    forall t | t in s'.threads && Finished(s'.threads[t].pc)
      ensures Ordered(s'.order, t)
    {
      OrderedGrows(s.order, e, t);
    }
    assert forall i :: 0 <= i < |s.order| ==> FromThread(s.threads, s.order[i]);
  }

  /** Steps other than unlocking neither finish a call nor change a finished one. */
  lemma {:induction false} FinishedKept(s: State, step: Step)
    requires Enabled(s, step) && !step.Unlock?
    ensures forall t :: t in s.threads && Finished(s.threads[t].pc) ==>
      var s' := After(s, step);
      && t in s'.threads && Finished(s'.threads[t].pc)
      && s'.threads[t].call == s.threads[t].call && s'.threads[t].pc.res == s.threads[t].pc.res
    ensures forall t :: t in After(s, step).threads && Finished(After(s, step).threads[t].pc) ==>
      t in s.threads && Finished(s.threads[t].pc)
    ensures After(s, step).order == s.order
  {
  }

  lemma {:induction false} OrderKept(s: State, step: Step)
    requires Mutex(s) && Inner(s) && OrderRecorded(s) && Enabled(s, step)
    ensures OrderRecorded(After(s, step))
  {
    if step.Unlock? {
      OrderKeptUnlock(s, step.tid);
    } else {
      FinishedKept(s, step);
      var threads := After(s, step).threads;
      forall i | 0 <= i < |s.order|
        ensures FromThread(threads, s.order[i])
      {
        assert FromThread(s.threads, s.order[i]);
      }
    }
  }

  lemma {:induction false} MoveLocalLog(
      base: Lists<Sess>, call: Call, l: Local, act: Act, order: Order)
    requires Progress(base, call, l.pc, l.lists) && LocalLog(l.pc, l.down, order)
    requires Move(call, l, act).To?
    requires GoneDown(order, l.down)
    ensures var l' := Move(call, l, act).local; LocalLog(l'.pc, l'.down, order)
  {
    match act
    case Read => MidwayStart(base, call.id);
    case Open(ok) => MidwayEnds(base, call.id, l.pc.log, l.lists);
    case Shift =>
      MidwayDrop(base, call.id, l.pc.log, l.lists, Attempt(l.pc.idx, l.pc.ss[l.pc.idx], false));
    case _ =>
  }

  lemma {:induction false} NoneReopenedInside(s: State, tid: Tid, act: Act)
    requires Mutex(s) && Inner(s) && NoneReopened(s) && Enabled(s, Inside(tid, act))
    ensures NoneReopened(After(s, Inside(tid, act)))
  {
    var s' := After(s, Inside(tid, act));
    var t := s.threads[tid];
    assert s.holder == {tid};
    MoveLocalLog(s.maps[|s.maps| - 1], t.call, Local(t.pc, s.lists, s.down), act, s.order);
    forall t' | t' in s'.threads
      ensures LocalLog(s'.threads[t'].pc, s'.down, s'.order)
    {
      if t' != tid { assert !Critical(s.threads[t'].pc); }
    }
  }

  lemma {:induction false} NoneReopenedUnlock(s: State, tid: Tid)
    requires Mutex(s) && NoneReopened(s) && Enabled(s, Unlock(tid))
    ensures NoneReopened(After(s, Unlock(tid)))
  {
    var s' := After(s, Unlock(tid));
    var t := s.threads[tid];
    var op := OpOf(t.call, t.pc.res);
    assert LocalLog(t.pc, s.down, s.order);
    forall x | x in op.Gone()
      ensures x in s.down
    {
      if t.pc.res.Conn? { assert x in FailedSet(t.pc.res.log); }
    }
    forall q | 0 <= q < |s'.order| && s'.order[q].1.DialOp? && s'.order[q].1.out.Dialed?
      ensures NotGone(s'.order, q + 1, s'.order[q].1.out.sess)
    {
      if q < |s.order| {
        assert NotGone(s.order, q + 1, s.order[q].1.out.sess);
      } else {
        assert op.out.sess !in FailedSet(op.log);
      }
    }
    forall t' | t' in s'.threads
      ensures LocalLog(s'.threads[t'].pc, s'.down, s'.order)
    {
      if t' != tid { assert !Critical(s.threads[t'].pc); }
    }
  }

  lemma {:induction false} NoneReopenedKept(s: State, step: Step)
    requires Mutex(s) && Inner(s) && NoneReopened(s) && Enabled(s, step)
    ensures NoneReopened(After(s, step))
  {
    match step
    case Inside(tid, act) => NoneReopenedInside(s, tid, act);
    case Unlock(tid) => NoneReopenedUnlock(s, tid);
    case _ =>
      var s' := After(s, step);
      forall t | t in s'.threads
        ensures LocalLog(s'.threads[t].pc, s'.down, s'.order)
      {
        if t in s.threads { assert LocalLog(s.threads[t].pc, s.down, s.order); }
      }
  }

  lemma {:induction false} RunStep(run: seq<State>, steps: seq<Step>, i: nat)
    requires IsRun(run, steps) && i < |steps|
    ensures Enabled(run[i], steps[i]) && run[i + 1] == After(run[i], steps[i])
  {
  }

  lemma {:induction false} Reachable(run: seq<State>, steps: seq<Step>, n: nat)
    requires IsRun(run, steps) && n < |run|
    ensures Inv(run[n])
  {
    if n > 0 {
      Reachable(run, steps, n - 1);
      var s, step := run[n - 1], steps[n - 1];
      RunStep(run, steps, n - 1);
      MutexKept(s, step);
      MapsKept(s, step);
      InnerKept(s, step);
      OrderKept(s, step);
      NoneReopenedKept(s, step);
    }
  }

  // ------------------------------------------------------------------ theorems

  function Ops(order: Order): seq<Op<Sess>> {
    seq(|order|, i requires 0 <= i < |order| => order[i].1)
  }

  /** The operation that a call with this result amounts to. */
  predicate Serves(call: Call, res: Result, op: Op<Sess>) {
    match (call, res)
    case (Add(id, sess), Done) => op == AddOp(id, sess)
    case (Dial(id), Conn(log, out)) => op == DialOp(id, log, out)
    case _ => false
  }

  /** Every thread runs the call that it was invoked with. */
  lemma {:induction false} InvokedCall(run: seq<State>, steps: seq<Step>, i: nat, n: nat)
    requires IsRun(run, steps) && i < n < |run| && steps[i].Invoke?
    ensures steps[i].tid !in run[i].threads
    ensures steps[i].tid in run[n].threads && run[n].threads[steps[i].tid].call == steps[i].call
    decreases n
  {
    RunStep(run, steps, n - 1);
    if i < n - 1 { InvokedCall(run, steps, i, n - 1); }
  }

  lemma {:induction false} WasInvoked(run: seq<State>, steps: seq<Step>, n: nat, t: Tid) returns (i: nat)
    requires IsRun(run, steps) && n < |run| && t in run[n].threads
    ensures i < n && steps[i] == Invoke(t, run[n].threads[t].call)
  {
    RunStep(run, steps, n - 1);
    if t in run[n - 1].threads { i := WasInvoked(run, steps, n - 1, t); } else { i := n - 1; }
  }

  lemma {:induction false} OrderGrows(run: seq<State>, steps: seq<Step>, m: nat, n: nat)
    requires IsRun(run, steps) && m <= n < |run|
    ensures run[m].order <= run[n].order
    decreases n
  {
    if m < n {
      OrderGrows(run, steps, m, n - 1);
      RunStep(run, steps, n - 1);
    }
  }

  /** A call that has released the mutex keeps its place. */
  lemma {:induction false} PlaceKept(run: seq<State>, steps: seq<Step>, a: nat, n: nat, p: nat)
    requires IsRun(run, steps) && a <= n < |run| && p < |run[n].order|
    requires Ordered(run[a].order, run[n].order[p].0)
    ensures p < |run[a].order|
  {
    Reachable(run, steps, n);
    OrderGrows(run, steps, a, n);
    var t := run[n].order[p].0;
    var r :| 0 <= r < |run[a].order| && run[a].order[r].0 == t;
    assert run[n].order[r] == run[a].order[r];
  }

  lemma {:induction false} FinishedOrdered(run: seq<State>, steps: seq<Step>, a: nat, t: Tid)
    requires IsRun(run, steps) && a < |steps| && steps[a] == Back(t)
    ensures Ordered(run[a].order, t)
  {
    RunStep(run, steps, a);
    Reachable(run, steps, a);
  }

  /** A call that is not invoked yet has no place. */
  lemma {:induction false} NoPlaceYet(run: seq<State>, steps: seq<Step>, b: nat, n: nat, q: nat)
    requires IsRun(run, steps) && b < n < |run| && q < |run[n].order|
    requires steps[b].Invoke? && steps[b].tid == run[n].order[q].0
    ensures |run[b].order| <= q
  {
    Reachable(run, steps, b);
    OrderGrows(run, steps, b, n);
    InvokedCall(run, steps, b, n);
    assert forall i :: 0 <= i < |run[b].order| ==> FromThread(run[b].threads, run[b].order[i]);
  }

  /** A call that returned before another was invoked comes first. */
  lemma {:induction false} RealTime(run: seq<State>, steps: seq<Step>, a: nat, b: nat, n: nat, p: nat, q: nat)
    requires IsRun(run, steps) && a < b < n < |run| && p < |run[n].order| && q < |run[n].order|
    requires steps[a] == Back(run[n].order[p].0) && steps[b].Invoke? && steps[b].tid == run[n].order[q].0
    ensures p < q
  {
    FinishedOrdered(run, steps, a, run[n].order[p].0);
    PlaceKept(run, steps, a, n, p);
    NoPlaceYet(run, steps, b, n, q);
    OrderGrows(run, steps, a, b);
  }

  /** The session that a call is about to return, or returned. */
  predicate Returns(pc: Pc, x: Sess) {
    (pc.Leaving? || pc.Unlocked? || pc.Returned?) && pc.res.Conn? && pc.res.out == Dialed(x)
  }

  lemma {:induction false} ReturnsStep(s: State, step: Step, t: Tid, x: Sess)
    requires Enabled(s, step) && t in After(s, step).threads && Returns(After(s, step).threads[t].pc, x)
    ensures (t in s.threads && Returns(s.threads[t].pc, x)) || x !in s.down
  {
  }

  lemma {:induction false} DownGrows(run: seq<State>, steps: seq<Step>, m: nat, n: nat)
    requires IsRun(run, steps) && m <= n < |run|
    ensures run[m].down <= run[n].down
    decreases n
  {
    if m < n {
      DownGrows(run, steps, m, n - 1);
      RunStep(run, steps, n - 1);
    }
  }

  /** A call returns no session that was down when the call was not yet invoked. */
  lemma {:induction false} ReturnsLive(run: seq<State>, steps: seq<Step>, m: nat, n: nat, t: Tid, x: Sess)
    requires IsRun(run, steps) && m <= n < |run|
    requires t !in run[m].threads && t in run[n].threads && Returns(run[n].threads[t].pc, x)
    ensures x !in run[m].down
    decreases n
  {
    RunStep(run, steps, n - 1);
    ReturnsStep(run[n - 1], steps[n - 1], t, x);
    DownGrows(run, steps, m, n - 1);
    if t in run[n - 1].threads && Returns(run[n - 1].threads[t].pc, x) { ReturnsLive(run, steps, m, n - 1, t, x); }
  }

  /** A session that is lost is never returned by a call that is invoked later. */
  lemma {:induction false} LostStaysLost(
      run: seq<State>, steps: seq<Step>, a: nat, b: nat, n: nat, q: nat)
    requires IsRun(run, steps) && a < b < n < |run| && q < |run[n].order|
    requires steps[a].Die? && steps[b].Invoke? && steps[b].tid == run[n].order[q].0
    ensures run[n].order[q].1.DialOp? ==> run[n].order[q].1.out != Dialed(steps[a].sess)
  {
    RunStep(run, steps, a);
    DownGrows(run, steps, a + 1, b);
    InvokedCall(run, steps, b, n);
    Reachable(run, steps, n);
    var op := run[n].order[q].1;
    assert FromThread(run[n].threads, run[n].order[q]);
    if op.DialOp? && op.out.Dialed? { ReturnsLive(run, steps, b, n, steps[b].tid, op.out.sess); }
  }

  /** No call opens a session that it, or an earlier one, removed. */
  ghost predicate NeverReopens(ops: seq<Op<Sess>>) {
    forall p, q :: 0 <= p <= q < |ops| && ops[q].DialOp? && ops[q].out.Dialed? ==> ops[q].out.sess !in ops[p].Gone()
  }

  ghost predicate Invoked(steps: seq<Step>, t: Tid) {
    exists k :: 0 <= k < |steps| && steps[k].Invoke? && steps[k].tid == t
  }

  ghost predicate WentBack(steps: seq<Step>, t: Tid) {
    exists k :: 0 <= k < |steps| && steps[k] == Back(t)
  }

  /** `t` returned before `u` was invoked. */
  ghost predicate Precedes(steps: seq<Step>, t: Tid, u: Tid) {
    exists a, b :: 0 <= a < b < |steps| && steps[a] == Back(t) && steps[b].Invoke? && steps[b].tid == u
  }

  /** `x` was lost before `u` was invoked. */
  ghost predicate LostBefore(steps: seq<Step>, x: Sess, u: Tid) {
    exists a, b :: 0 <= a < b < |steps| && steps[a] == Die(x) && steps[b].Invoke? && steps[b].tid == u
  }

  /** Linearizability.  At every point of every run there is an order of the calls
      that released the mutex, and a sequential history through it, such that each
      of them stands in it once, as the call that was invoked and with the result
      that it returns; calls that do not overlap stand in their real order; and,
      whenever nobody holds the mutex, the map is the one at the end of the history.
      Sessions that a call removed are down, and neither they nor lost ones are
      returned by a later call. */
  lemma {:induction false} Linearizable(run: seq<State>, steps: seq<Step>, n: nat)
      returns (order: Order, maps: seq<Lists<Sess>>)
    requires IsRun(run, steps) && n < |run|
    ensures Sequential(maps, Ops(order)) && maps[0] == map[]
    ensures run[n].holder == {} ==> run[n].lists == maps[|order|]
    ensures forall i, j :: 0 <= i < j < |order| ==> order[i].0 != order[j].0
    ensures forall i, k :: 0 <= i < |order| && 0 <= k < n && steps[k].Invoke? && steps[k].tid == order[i].0 ==>
      AsInvoked(run[n], steps[k].call, order[i])
    ensures forall i :: 0 <= i < |order| ==> Invoked(steps[..n], order[i].0)
    ensures forall t :: WentBack(steps[..n], t) ==> Ordered(order, t)
    ensures forall p, q :: 0 <= p < |order| && 0 <= q < |order| && Precedes(steps[..n], order[p].0, order[q].0) ==>
      p < q
    ensures NeverReopens(Ops(order))
    ensures forall p, x :: 0 <= p < |order| && x in order[p].1.Gone() ==> x in run[n].down
    ensures forall q, x: Sess :: 0 <= q < |order| && LostBefore(steps[..n], x, order[q].0) && order[q].1.DialOp? ==>
      order[q].1.out != Dialed(x)
  {
    Reachable(run, steps, n);
    var s := run[n];
    order, maps := s.order, s.maps;
    InOrderAsInvoked(run, steps, n);
    ReturnedInOrder(run, steps, n);
    forall p, q | 0 <= p < |order| && 0 <= q < |order| && Precedes(steps[..n], order[p].0, order[q].0)
      ensures p < q
    {
      var a, b :| 0 <= a < b < n && steps[..n][a] == Back(order[p].0)
        && steps[..n][b].Invoke? && steps[..n][b].tid == order[q].0;
      RealTime(run, steps, a, b, n, p, q);
    }
    forall p, q | 0 <= p <= q < |order| && order[q].1.DialOp? && order[q].1.out.Dialed?
      ensures order[q].1.out.sess !in order[p].1.Gone()
    {
      assert NotGone(order, q + 1, order[q].1.out.sess);
    }
    forall q, x: Sess | 0 <= q < |order| && LostBefore(steps[..n], x, order[q].0) && order[q].1.DialOp?
      ensures order[q].1.out != Dialed(x)
    {
      var a, b :| 0 <= a < b < n && steps[..n][a] == Die(x)
        && steps[..n][b].Invoke? && steps[..n][b].tid == order[q].0;
      LostStaysLost(run, steps, a, b, n, q);
    }
  }

  /** The entry's thread has finished, and the entry is the call with its result. */
  ghost predicate AsInvoked(s: State, call: Call, entry: (Tid, Op<Sess>)) {
    && entry.0 in s.threads && Finished(s.threads[entry.0].pc)
    && Serves(call, s.threads[entry.0].pc.res, entry.1)
  }

  /** The calls in the order are those that were invoked. */
  lemma {:induction false} InOrderAsInvoked(run: seq<State>, steps: seq<Step>, n: nat)
    requires IsRun(run, steps) && n < |run|
    ensures var order := run[n].order;
      forall i, k :: 0 <= i < |order| && 0 <= k < n && steps[k].Invoke? && steps[k].tid == order[i].0 ==>
        AsInvoked(run[n], steps[k].call, order[i])
    ensures forall i :: 0 <= i < |run[n].order| ==> Invoked(steps[..n], run[n].order[i].0)
  {
    Reachable(run, steps, n);
    var s := run[n];
    forall i | 0 <= i < |s.order|
      ensures FromThread(s.threads, s.order[i]) && Invoked(steps[..n], s.order[i].0)
    {
      var k := WasInvoked(run, steps, n, s.order[i].0);
      assert steps[..n][k] == steps[k];
    }
    forall i, k | 0 <= i < |s.order| && 0 <= k < n && steps[k].Invoke? && steps[k].tid == s.order[i].0
      ensures s.threads[s.order[i].0].call == steps[k].call
    {
      InvokedCall(run, steps, k, n);
    }
  }

  lemma {:induction false} ReturnedInOrder(run: seq<State>, steps: seq<Step>, n: nat)
    requires IsRun(run, steps) && n < |run|
    ensures forall t :: WentBack(steps[..n], t) ==> Ordered(run[n].order, t)
  {
    forall t | WentBack(steps[..n], t)
      ensures Ordered(run[n].order, t)
    {
      var k :| 0 <= k < n && steps[..n][k] == Back(t);
      FinishedOrdered(run, steps, k, t);
      OrderGrows(run, steps, k, n);
      var i :| 0 <= i < |run[k].order| && run[k].order[i].0 == t;
      assert run[n].order[i].0 == t;
    }
  }

  /** The attempts that a call inside has made: one more than it noted while a
      failed session is being removed. */
  function OpensInside(pc: Pc): nat {
    match pc
    case Looping(_, log) => |log|
    case Chose(_, log, _) => |log|
    case Failed(_, log, _) => |log| + 1
    case Closed(_, log, _) => |log| + 1
    case Shifted(_, log) => |log|
    case Leaving(Conn(log, _)) => |log|
    case _ => 0
  }

  /** A call inside a dial can be completed to a whole call that makes no fewer
      attempts. */
  lemma {:induction false} Completed(base: Lists<Sess>, call: Call, pc: Pc, lists: Lists<Sess>)
      returns (op: Op<Sess>, after: Lists<Sess>)
    requires Progress(base, call, pc, lists) && OpensInside(pc) > 0
    ensures OpStep(base, op, after) && op.Opens() >= OpensInside(pc)
  {
    if pc.Leaving? {
      return OpOf(call, pc.res), lists;
    }
    var ss, log := pc.ss, pc.log;
    after := if pc.Shifted? then lists[call.id := ss] else lists;
    MidwayEnds(base, call.id, log, after);
    op := if ss == [] then DialOp(call.id, log, NoSession)
          else DialOp(call.id, log + [Attempt(0, ss[0], true)], Dialed(ss[0]));
  }

  lemma {:induction false} OneMoreOp(maps: seq<Lists<Sess>>, ops: seq<Op<Sess>>, op: Op<Sess>, after: Lists<Sess>)
    requires Sequential(maps, ops) && maps[0] == map[] && OpStep(maps[|ops|], op, after)
    ensures Attempts(ops) + op.Opens() <= |ops| + 1
  {
    HistoryGrows(maps, ops, op, after);
    OpensAmortised(maps + [after], ops + [op]);
    assert (ops + [op])[..|ops|] == ops;
  }

  function Tids(order: Order): set<Tid> {
    set i | 0 <= i < |order| :: order[i].0
  }

  lemma {:induction false} DistinctTids(order: Order)
    requires forall i, j :: 0 <= i < j < |order| ==> order[i].0 != order[j].0
    ensures |Tids(order)| == |order|
    decreases |order|
  {
    if order != [] {
      var last := |order| - 1;
      DistinctTids(order[..last]);
      assert Tids(order) == Tids(order[..last]) + {order[last].0};
    }
  }

  lemma {:induction false} SubsetCard(a: set<Tid>, b: set<Tid>)
    requires a <= b
    ensures |a| <= |b|
  {
    assert b == a + (b - a);
  }

  /** The calls in the order are among those that were invoked, and none of them
      is inside any more. */
  lemma {:induction false} OrderWithinThreads(s: State)
    requires OrderRecorded(s)
    ensures |s.order| <= |s.threads|
    ensures forall t :: t in s.threads && !Finished(s.threads[t].pc) ==> |s.order| < |s.threads|
  {
    var tids := Tids(s.order);
    DistinctTids(s.order);
    assert forall i :: 0 <= i < |s.order| ==> FromThread(s.threads, s.order[i]);
    assert tids <= s.threads.Keys;
    SubsetCard(tids, s.threads.Keys);
    forall t | t in s.threads && !Finished(s.threads[t].pc)
      ensures |s.order| < |s.threads|
    {
      assert t !in tids;
      SubsetCard(tids + {t}, s.threads.Keys);
    }
  }

  /** The amortised bound at every moment: the calls that released the mutex and
      the one inside, at whatever micro-step it is, have together made at most one
      attempt per call that was invoked. */
  lemma {:induction false} ConcurrentOpens(run: seq<State>, steps: seq<Step>, n: nat, t: Tid)
    requires IsRun(run, steps) && n < |run| && t in run[n].threads
    ensures Attempts(Ops(run[n].order)) <= |run[n].order|
    ensures Attempts(Ops(run[n].order)) + OpensInside(run[n].threads[t].pc) <= |run[n].threads|
  {
    Reachable(run, steps, n);
    var s := run[n];
    var ops, x := Ops(s.order), s.threads[t];
    assert Sequential(s.maps, ops);
    OpensAmortised(s.maps, ops);
    OrderWithinThreads(s);
    if OpensInside(x.pc) > 0 {
      InsideProgress(s, t);
      var op, after := Completed(s.maps[|ops|], x.call, x.pc, s.lists);
      OneMoreOp(s.maps, ops, op, after);
    }
  }

  /** The machine never gets stuck: as long as some call has not returned, one of
      the calls can step.  New calls may come and sessions go down at any moment. */
  lemma {:induction false} NeverStuck(run: seq<State>, steps: seq<Step>, n: nat, t: Tid) returns (step: Step)
    requires IsRun(run, steps) && n < |run|
    requires t in run[n].threads && !run[n].threads[t].pc.Returned?
    ensures Enabled(run[n], step) && !step.Invoke? && !step.Die?
    ensures forall u, call :: u !in run[n].threads ==> Enabled(run[n], Invoke(u, call))
    ensures forall x :: Enabled(run[n], Die(x))
  {
    Reachable(run, steps, n);
    var s := run[n];
    if s.threads[t].pc.Unlocked? {
      step := Back(t);
    } else if s.holder == {} {
      step := Acquire(t);
    } else {
      var h :| h in s.holder;
      var pc := s.threads[h].pc;
      assert Progress(s.maps[|s.maps| - 1], s.threads[h].call, pc, s.lists);
      match pc
      case Leaving(_) => step := Unlock(h);
      case Entered => step := Inside(h, Read);
      case Appended(_) => step := Inside(h, Store);
      case Shifted(_, _) => step := Inside(h, Store);
      case Looping(ss, _) => step := Inside(h, if ss == [] then GiveUp else Choose(0));
      case Chose(_, _, _) => step := Inside(h, Open(false));
      case Failed(_, _, _) => step := Inside(h, Close);
      case Closed(_, _, _) => step := Inside(h, Shift);
    }
  }
}
