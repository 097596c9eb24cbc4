/** The plain map behind a session manager, and what whole histories of calls do
    to it. */
module SessionLists {
  import opened Dialing

  type Lists<S> = map<string, seq<S>>

  function Listed<S>(lists: Lists<S>, id: string): seq<S> {
    if id in lists then lists[id] else []
  }

  function Added<S>(lists: Lists<S>, id: string, s: S): Lists<S> {
    lists[id := Listed(lists, id) + [s]]
  }

  /** The map after a dial call that leaves `rest` listed: the call stores nothing
      unless it removes something. */
  function AfterDial<S>(lists: Lists<S>, id: string, log: seq<Attempt<S>>, rest: seq<S>): Lists<S> {
    if Failures(log) == [] then lists else lists[id := rest]
  }

  /** A whole dial call on the map. */
  ghost predicate DialStep<S>(
      before: Lists<S>, id: string, log: seq<Attempt<S>>, out: Outcome<S>, after: Lists<S>)
  {
    && DialLog(Listed(before, id), log, out, Listed(after, id))
    && after == AfterDial(before, id, log, Listed(after, id))
  }

  /** A dial call that has printed `log` so far. */
  ghost predicate Midway<S>(before: Lists<S>, id: string, log: seq<Attempt<S>>, lists: Lists<S>) {
    && Failing(Listed(before, id), log, Listed(lists, id))
    && lists == AfterDial(before, id, log, Listed(lists, id))
    && forall s :: s in Listed(lists, id) ==> s in Listed(before, id)
  }

  lemma {:induction false} MidwayStart<S>(before: Lists<S>, id: string)
    ensures Midway(before, id, [], before) && FailedSet<S>([]) == {}
  {
  }

  lemma {:induction false} MidwayDrop<S>(
      before: Lists<S>, id: string, log: seq<Attempt<S>>, lists: Lists<S>, a: Attempt<S>)
    requires Midway(before, id, log, lists)
    requires a.idx < |Listed(lists, id)| && a.sess == lists[id][a.idx] && !a.ok
    ensures Midway(before, id, log + [a], lists[id := Removed(lists[id], a.idx)])
    ensures FailedSet(log + [a]) == FailedSet(log) + {a.sess}
  {
    FailOnce(Listed(before, id), log, lists[id], a);
    RemovedSubset(lists[id], a.idx);
  }

  lemma {:induction false} MidwayEnds<S>(before: Lists<S>, id: string, log: seq<Attempt<S>>, lists: Lists<S>)
    requires Midway(before, id, log, lists)
    ensures Listed(lists, id) == [] ==> DialStep(before, id, log, NoSession, lists)
    ensures forall i :: 0 <= i < |Listed(lists, id)| ==>
      var s := lists[id][i];
      && DialStep(before, id, log + [Attempt(i, s, true)], Dialed(s), lists)
      && FailedSet(log + [Attempt(i, s, true)]) == FailedSet(log)
  {
    DialEnds(Listed(before, id), log, Listed(lists, id));
  }

  /** Dialling takes sessions out of one list and puts none in. */
  lemma {:induction false} DialOnlyRemoves<S>(
      before: Lists<S>, id: string, log: seq<Attempt<S>>, out: Outcome<S>, after: Lists<S>)
    requires DialStep(before, id, log, out, after)
    ensures forall id', x :: x in Listed(after, id') ==> x in Listed(before, id')
    ensures out.Dialed? ==> out.sess in Listed(before, id)
  {
    DialConserves(Listed(before, id), log, out, Listed(after, id));
    forall id', x | x in Listed(after, id')
      ensures x in Listed(before, id')
    {
      if id' == id {
        assert x in multiset(Listed(after, id));
        assert x in multiset(Listed(before, id));
      }
    }
  }

  /** A dial call that fails leaves the list empty and the others alone. */
  lemma {:induction false} DialMayFail<S>(lists: Lists<S>, id: string)
      returns (log: seq<Attempt<S>>, after: Lists<S>)
    ensures DialStep(lists, id, log, NoSession, after)
    ensures Listed(after, id) == [] && forall id' :: id' != id ==> Listed(after, id') == Listed(lists, id')
  {
    log := AllCanFail(Listed(lists, id));
    after := AfterDial(lists, id, log, []);
    DialConserves(Listed(lists, id), log, NoSession, []);
    if Failures(log) == [] { assert Listed(lists, id) == []; }
    assert Listed(after, id) == [];
  }

  // --------------------------------------------------------------- histories

  datatype Op<S> = AddOp(id: string, sess: S) | DialOp(id: string, log: seq<Attempt<S>>, out: Outcome<S>) {
    /** The sessions that the call removes. */
    function Gone(): seq<S> {
      if AddOp? then [] else Failures(log)
    }

    function Opens(): nat {
      if AddOp? then 0 else |log|
    }

    ghost function Plus(): multiset<(string, S)> {
      if AddOp? then multiset{(id, sess)} else multiset{}
    }

    ghost function Minus(): multiset<(string, S)> {
      Tagged(id, Gone())
    }
  }

  ghost predicate OpStep<S>(before: Lists<S>, op: Op<S>, after: Lists<S>) {
    match op
    case AddOp(id, s) => after == Added(before, id, s)
    case DialOp(id, log, out) => DialStep(before, id, log, out, after)
  }

  /** The calls `ops`, one after the other, through the maps `maps`. */
  ghost predicate Sequential<S>(maps: seq<Lists<S>>, ops: seq<Op<S>>) {
    && |maps| == |ops| + 1
    && forall i :: 0 <= i < |ops| ==> OpStep(maps[i], ops[i], maps[i + 1])
  }

  /** A history grows by one call. */
  lemma {:induction false} HistoryGrows<S>(maps: seq<Lists<S>>, ops: seq<Op<S>>, op: Op<S>, after: Lists<S>)
    requires Sequential(maps, ops) && OpStep(maps[|ops|], op, after)
    ensures Sequential(maps + [after], ops + [op])
  {
    var m, o := maps + [after], ops + [op];
    forall i | 0 <= i < |o|
      ensures OpStep(m[i], o[i], m[i + 1])
    {
      if i < |ops| { assert OpStep(maps[i], ops[i], maps[i + 1]); }
    }
  }

  ghost function Tagged<S>(id: string, ss: seq<S>): multiset<(string, S)> {
    if ss == [] then multiset{} else Tagged(id, ss[1..]) + multiset{(id, ss[0])}
  }

  /** What a history adds, session by session and list by list. */
  ghost function AllAdded<S>(ops: seq<Op<S>>): multiset<(string, S)> {
    if ops == [] then multiset{}
    else AllAdded(ops[..|ops| - 1]) + ops[|ops| - 1].Plus()
  }

  ghost function AllRemoved<S>(ops: seq<Op<S>>): multiset<(string, S)> {
    if ops == [] then multiset{}
    else AllRemoved(ops[..|ops| - 1]) + ops[|ops| - 1].Minus()
  }

  ghost function Attempts<S>(ops: seq<Op<S>>): nat {
    if ops == [] then 0 else Attempts(ops[..|ops| - 1]) + ops[|ops| - 1].Opens()
  }

  lemma {:induction false} TaggedCount<S>(id: string, ss: seq<S>)
    ensures forall s :: Tagged(id, ss)[(id, s)] == multiset(ss)[s]
    ensures forall id', s :: id' != id ==> Tagged(id, ss)[(id', s)] == 0
    ensures |Tagged(id, ss)| == |ss|
    decreases |ss|
  {
    if ss != [] {
      TaggedCount(id, ss[1..]);
      assert ss == [ss[0]] + ss[1..];
      assert multiset(ss) == multiset{ss[0]} + multiset(ss[1..]);
    }
  }

  lemma {:induction false} StepConserves<S>(before: Lists<S>, op: Op<S>, after: Lists<S>, id: string, s: S)
    requires OpStep(before, op, after)
    ensures multiset(Listed(before, id))[s] + op.Plus()[(id, s)]
         == multiset(Listed(after, id))[s] + op.Minus()[(id, s)]
  {
    TaggedCount(op.id, op.Gone());
    if op.id == id {
      match op
      case AddOp(_, x) =>
        assert multiset(Listed(before, id) + [x]) == multiset(Listed(before, id)) + multiset{x};
      case DialOp(_, log, out) =>
        DialConserves(Listed(before, id), log, out, Listed(after, id));
    }
  }

  lemma {:induction false} Shorter<S>(maps: seq<Lists<S>>, ops: seq<Op<S>>, n: nat)
    requires Sequential(maps, ops) && n <= |ops|
    ensures Sequential(maps[..n + 1], ops[..n])
  {
    forall i | 0 <= i < n
      ensures OpStep(maps[..n + 1][i], ops[..n][i], maps[..n + 1][i + 1])
    {
      assert OpStep(maps[i], ops[i], maps[i + 1]);
    }
  }

  /** Conservation: list by list, what was there and what was added is what is
      there and what was removed. */
  lemma {:induction false} HistoryConserves<S>(maps: seq<Lists<S>>, ops: seq<Op<S>>, id: string, s: S)
    requires Sequential(maps, ops)
    ensures multiset(Listed(maps[0], id))[s] + AllAdded(ops)[(id, s)]
         == multiset(Listed(maps[|ops|], id))[s] + AllRemoved(ops)[(id, s)]
    decreases |ops|
  {
    if ops != [] {
      var last := |ops| - 1;
      var less, op := ops[..last], ops[last];
      Shorter(maps, ops, last);
      HistoryConserves(maps[..last + 1], less, id, s);
      StepConserves(maps[last], op, maps[last + 1], id, s);
      assert AllAdded(ops) == AllAdded(less) + op.Plus();
      assert AllRemoved(ops) == AllRemoved(less) + op.Minus();
    }
  }

  /** The calls of `ops` that returned a connection. */
  ghost function Successes<S>(ops: seq<Op<S>>): nat {
    if ops == [] then 0
    else
      var op := ops[|ops| - 1];
      Successes(ops[..|ops| - 1]) + if op.DialOp? && op.out.Dialed? then 1 else 0
  }

  ghost function Additions<S>(ops: seq<Op<S>>): nat {
    if ops == [] then 0
    else Additions(ops[..|ops| - 1]) + if ops[|ops| - 1].AddOp? then 1 else 0
  }

  lemma {:induction false} AttemptsSplit<S>(maps: seq<Lists<S>>, ops: seq<Op<S>>)
    requires Sequential(maps, ops)
    ensures Attempts(ops) == Successes(ops) + |AllRemoved(ops)|
    ensures Additions(ops) == |AllAdded(ops)|
    ensures Successes(ops) + Additions(ops) <= |ops|
    decreases |ops|
  {
    if ops != [] {
      var last := |ops| - 1;
      var op := ops[last];
      Shorter(maps, ops, last);
      AttemptsSplit(maps[..last + 1], ops[..last]);
      assert OpStep(maps[last], op, maps[last + 1]);
      TaggedCount(op.id, op.Gone());
      if op.DialOp? {
        DialConserves(Listed(maps[last], op.id), op.log, op.out, Listed(maps[last + 1], op.id));
      }
    }
  }

  lemma {:induction false} SubsetSize<T>(a: multiset<T>, b: multiset<T>)
    requires forall x :: a[x] <= b[x]
    ensures |a| <= |b|
  {
    assert b == a + (b - a);
  }

  /** Amortised cost: from the empty map, a history opens at most as often as it
      returns connections and adds sessions, so at most once per call. */
  lemma {:induction false} OpensAmortised<S>(maps: seq<Lists<S>>, ops: seq<Op<S>>)
    requires Sequential(maps, ops) && maps[0] == map[]
    ensures Attempts(ops) <= Successes(ops) + Additions(ops) <= |ops|
  {
    AttemptsSplit(maps, ops);
    forall p: (string, S)
      ensures AllRemoved(ops)[p] <= AllAdded(ops)[p]
    {
      var (id, s) := p;
      HistoryConserves(maps, ops, id, s);
    }
    SubsetSize(AllRemoved(ops), AllAdded(ops));
  }

  /** Every connect adds a session of its own. */
  ghost predicate FreshAdds<S>(ops: seq<Op<S>>) {
    forall i, j :: 0 <= i < j < |ops| && ops[i].AddOp? && ops[j].AddOp? ==> ops[i].sess != ops[j].sess
  }

  lemma {:induction false} AddedOnce<S>(ops: seq<Op<S>>, s: S)
    requires FreshAdds(ops)
    ensures forall id :: AllAdded(ops)[(id, s)] <= 1
    ensures forall id, id' :: (id, s) in AllAdded(ops) && (id', s) in AllAdded(ops) ==> id == id'
    ensures forall id :: (id, s) in AllAdded(ops) ==> exists i :: 0 <= i < |ops| && ops[i].AddOp? && ops[i].sess == s
    decreases |ops|
  {
    if ops != [] {
      var last := |ops| - 1;
      AddedOnce(ops[..last], s);
      if ops[last].AddOp? && ops[last].sess == s {
        assert forall i :: 0 <= i < last ==> ops[..last][i] == ops[i];
        assert forall id :: (id, s) !in AllAdded(ops[..last]);
      }
    }
  }

  lemma {:induction false} MinusOfGone<S>(op: Op<S>, s: S)
    requires s in op.Gone()
    ensures op.Minus()[(op.id, s)] > 0
  {
    TaggedCount(op.id, op.Gone());
    NoCopy(op.Gone(), s);
  }

  lemma {:induction false} RemovedGrows<S>(ops: seq<Op<S>>, k: nat, s: S)
    requires k < |ops| && s in ops[k].Gone()
    ensures AllRemoved(ops)[(ops[k].id, s)] > 0
    decreases |ops|
  {
    var last := |ops| - 1;
    var less := ops[..last];
    assert AllRemoved(ops) == AllRemoved(less) + ops[last].Minus();
    if k == last {
      MinusOfGone(ops[k], s);
    } else {
      assert less[k] == ops[k];
      RemovedGrows(less, k, s);
    }
  }

  /** With fresh sessions a removed session never comes back, under any key. */
  lemma {:induction false} NeverRelisted<S>(maps: seq<Lists<S>>, ops: seq<Op<S>>, k: nat, n: nat, s: S, id: string)
    requires Sequential(maps, ops) && maps[0] == map[] && FreshAdds(ops)
    requires k < n <= |ops| && s in ops[k].Gone()
    ensures s !in Listed(maps[n], id)
  {
    Shorter(maps, ops, n);
    var m, o := maps[..n + 1], ops[..n];
    RemovedGrows(o, k, s);
    AddedOnce(o, s);
    HistoryConserves(m, o, ops[k].id, s);
    HistoryConserves(m, o, id, s);
    NoCopy(Listed(maps[n], id), s);
  }

  /** With fresh sessions no session is listed twice, neither within one list nor
      under two keys. */
  lemma {:induction false} ListedOnce<S>(maps: seq<Lists<S>>, ops: seq<Op<S>>, s: S, id: string, id': string)
    requires Sequential(maps, ops) && maps[0] == map[] && FreshAdds(ops)
    ensures multiset(Listed(maps[|ops|], id))[s] <= 1
    ensures s in Listed(maps[|ops|], id) && s in Listed(maps[|ops|], id') ==> id == id'
  {
    AddedOnce(ops, s);
    HistoryConserves(maps, ops, id, s);
    HistoryConserves(maps, ops, id', s);
    NoCopy(Listed(maps[|ops|], id), s);
    NoCopy(Listed(maps[|ops|], id'), s);
  }
}
