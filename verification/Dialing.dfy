/** Dialling one cluster, on values.

    `DialCluster` loops over a list of sessions: it picks an index, tries to open
    a connection on that session, and on failure closes the session, deletes it
    from the list and goes round again.  Which index is picked and whether the
    session opens are decided outside the program, so one call is described by
    its log: the attempts it makes, in order, as the program prints them.  Every
    statement below is about all logs, hence about all choices and outcomes. */
module Dialing {

  datatype Attempt<S> = Attempt(idx: nat, sess: S, ok: bool)

  datatype Outcome<S> = Dialed(sess: S) | NoSession

  /** `append(ss[:i], ss[i+1:]...)`, as a list. */
  function Removed<S>(ss: seq<S>, i: nat): (r: seq<S>)
    requires i < |ss|
    ensures |r| == |ss| - 1
  {
    ss[..i] + ss[i + 1..]
  }

  /** `log` is what a call prints that finds `ss` in the map, returns `out` and
      leaves `rest` in the map. */
  ghost predicate DialLog<S>(ss: seq<S>, log: seq<Attempt<S>>, out: Outcome<S>, rest: seq<S>)
    decreases |log|
  {
    if log == [] then ss == [] && rest == [] && out == NoSession
    else
      && log[0].idx < |ss|
      && log[0].sess == ss[log[0].idx]
      && if log[0].ok then |log| == 1 && out == Dialed(log[0].sess) && rest == ss
         else DialLog(Removed(ss, log[0].idx), log[1..], out, rest)
  }

  /** The first turns of the loop: every attempt in `log` fails, and they take the
      list from `ss` to `cur`. */
  ghost predicate Failing<S>(ss: seq<S>, log: seq<Attempt<S>>, cur: seq<S>)
    decreases |log|
  {
    if log == [] then cur == ss
    else
      && log[0].idx < |ss|
      && log[0].sess == ss[log[0].idx]
      && !log[0].ok
      && Failing(Removed(ss, log[0].idx), log[1..], cur)
  }

  /** The sessions that a log removes: those that failed to open. */
  function Failures<S>(log: seq<Attempt<S>>): seq<S> {
    if log == [] then []
    else (if log[0].ok then [] else [log[0].sess]) + Failures(log[1..])
  }

  lemma {:induction false} AppendAssoc<T>(a: seq<T>, b: seq<T>, x: T)
    ensures a + b + [x] == a + (b + [x])
  {
  }

  ghost function FailedSet<S>(log: seq<Attempt<S>>): set<S> {
    set s | s in Failures(log)
  }

  /** Every attempt on `s` succeeds. */
  ghost predicate OpensAlways<S>(log: seq<Attempt<S>>, s: S) {
    forall i :: 0 <= i < |log| && log[i].sess == s ==> log[i].ok
  }

  /** Whether a session opens does not change during the call. */
  ghost predicate FixedOutcomes<S>(log: seq<Attempt<S>>, opens: S -> bool) {
    forall i :: 0 <= i < |log| ==> log[i].ok == opens(log[i].sess)
  }

  /** `sub` is `ss` at the positions `at`, in the same order. */
  ghost predicate PicksAt<S>(sub: seq<S>, ss: seq<S>, at: seq<nat>) {
    && |at| == |sub|
    && (forall i :: 0 <= i < |at| ==> at[i] < |ss| && sub[i] == ss[at[i]])
    && (forall i, j :: 0 <= i < j < |at| ==> at[i] < at[j])
  }

  // ---------------------------------------------------------- loop reasoning

  lemma {:induction false} NoCopy<S>(ss: seq<S>, s: S)
    ensures s in ss <==> multiset(ss)[s] > 0
  {
    assert s in ss <==> s in multiset(ss);
  }

  lemma {:induction false} RemovedMultiset<S>(ss: seq<S>, i: nat)
    requires i < |ss|
    ensures multiset(ss) == multiset(Removed(ss, i)) + multiset{ss[i]}
  {
    assert ss == ss[..i] + [ss[i]] + ss[i + 1..];
  }

  lemma {:induction false} RemovedSubset<S>(ss: seq<S>, i: nat)
    requires i < |ss|
    ensures forall s :: s in Removed(ss, i) ==> s in ss
  {
  }

  lemma {:induction false} FailuresAppend<S>(log: seq<Attempt<S>>, more: seq<Attempt<S>>)
    ensures Failures(log + more) == Failures(log) + Failures(more)
    decreases |log|
  {
    var all := log + more;
    if log == [] {
      assert all == more;
    } else {
      FailuresAppend(log[1..], more);
      assert all[0] == log[0] && all[1..] == log[1..] + more;
      var head := if log[0].ok then [] else [log[0].sess];
      assert Failures(log) == head + Failures(log[1..]);
      assert Failures(all) == head + Failures(all[1..]);
    }
  }

  /** One more turn that fails. */
  lemma {:induction false} FailOnce<S>(ss: seq<S>, log: seq<Attempt<S>>, cur: seq<S>, a: Attempt<S>)
    requires Failing(ss, log, cur)
    requires a.idx < |cur| && a.sess == cur[a.idx] && !a.ok
    ensures Failing(ss, log + [a], Removed(cur, a.idx))
    ensures Failures(log + [a]) == Failures(log) + [a.sess]
    ensures FailedSet(log + [a]) == FailedSet(log) + {a.sess}
    decreases |log|
  {
    FailuresAppend(log, [a]);
    var all := log + [a];
    if log == [] {
      assert all[1..] == [];
    } else {
      FailOnce(Removed(ss, log[0].idx), log[1..], cur, a);
      assert all[0] == log[0] && all[1..] == log[1..] + [a];
    }
  }

  /** A call that fails for a while and then behaves as a call on what is left. */
  lemma {:induction false} FailThenDial<S>(
      ss: seq<S>, log: seq<Attempt<S>>, cur: seq<S>, more: seq<Attempt<S>>, out: Outcome<S>, rest: seq<S>)
    requires Failing(ss, log, cur)
    requires DialLog(cur, more, out, rest)
    ensures DialLog(ss, log + more, out, rest)
    decreases |log|
  {
    var all := log + more;
    if log == [] {
      assert all == more;
    } else {
      var next := Removed(ss, log[0].idx);
      FailThenDial(next, log[1..], cur, more, out, rest);
      assert all[0] == log[0] && all[1..] == log[1..] + more;
      assert DialLog(next, all[1..], out, rest);
    }
  }

  /** A log with its last attempt apart. */
  lemma {:induction false} DialEnds<S>(ss: seq<S>, log: seq<Attempt<S>>, cur: seq<S>)
    requires Failing(ss, log, cur)
    ensures cur == [] ==> DialLog(ss, log, NoSession, [])
    ensures forall i :: 0 <= i < |cur| ==>
      DialLog(ss, log + [Attempt(i, cur[i], true)], Dialed(cur[i]), cur)
    ensures forall i :: 0 <= i < |cur| ==>
      Failures(log + [Attempt(i, cur[i], true)]) == Failures(log)
  {
    if cur == [] {
      FailThenDial(ss, log, cur, [], NoSession, []);
      assert log + [] == log;
    }
    forall i | 0 <= i < |cur|
      ensures DialLog(ss, log + [Attempt(i, cur[i], true)], Dialed(cur[i]), cur)
      ensures Failures(log + [Attempt(i, cur[i], true)]) == Failures(log)
    {
      FailThenDial(ss, log, cur, [Attempt(i, cur[i], true)], Dialed(cur[i]), cur);
      FailuresAppend(log, [Attempt(i, cur[i], true)]);
    }
  }

  /** Every attempt of a call can fail. */
  lemma {:induction false} AllCanFail<S>(ss: seq<S>) returns (log: seq<Attempt<S>>)
    ensures DialLog(ss, log, NoSession, [])
    decreases |ss|
  {
    if ss == [] {
      log := [];
    } else {
      var rest := AllCanFail(Removed(ss, 0));
      log := [Attempt(0, ss[0], false)] + rest;
      assert log[1..] == rest;
    }
  }

  // ------------------------------------------------------- the dial contract

  /** Nothing is lost and nothing appears: what a call removes and what it
      leaves make up what it found; it tries at most one session that opens. */
  lemma {:induction false} DialConserves<S>(ss: seq<S>, log: seq<Attempt<S>>, out: Outcome<S>, rest: seq<S>)
    requires DialLog(ss, log, out, rest)
    ensures multiset(ss) == multiset(rest) + multiset(Failures(log))
    ensures |Failures(log)| == |ss| - |rest|
    ensures |log| == |Failures(log)| + if out.Dialed? then 1 else 0
    ensures out.Dialed? ==> out.sess in rest
    ensures out.NoSession? ==> rest == []
    decreases |log|
  {
    if log != [] && !log[0].ok {
      var next := Removed(ss, log[0].idx);
      RemovedMultiset(ss, log[0].idx);
      DialConserves(next, log[1..], out, rest);
      assert multiset(Failures(log)) == multiset{log[0].sess} + multiset(Failures(log[1..]));
    } else if log != [] {
      assert log[1..] == [];
    }
  }

  /** What is left keeps its order. */
  lemma {:induction false} DialKeepsOrder<S>(ss: seq<S>, log: seq<Attempt<S>>, out: Outcome<S>, rest: seq<S>)
      returns (at: seq<nat>)
    requires DialLog(ss, log, out, rest)
    ensures PicksAt(rest, ss, at)
    decreases |log|
  {
    if log == [] || log[0].ok {
      at := seq(|ss|, i requires 0 <= i => i);
    } else {
      var k := log[0].idx;
      var below := DialKeepsOrder(Removed(ss, k), log[1..], out, rest);
      at := seq(|below|, i requires 0 <= i < |below| => if below[i] < k then below[i] else below[i] + 1);
    }
  }

  /** A listed session that opens whenever it is tried stays listed, and then the
      call does succeed, whatever happens to the other sessions meanwhile. */
  lemma {:induction false} StaysAndSucceeds<S>(
      ss: seq<S>, log: seq<Attempt<S>>, out: Outcome<S>, rest: seq<S>, s: S)
    requires DialLog(ss, log, out, rest)
    requires s in ss && OpensAlways(log, s)
    ensures s in rest && out.Dialed?
    decreases |log|
  {
    if log != [] && !log[0].ok {
      var next := Removed(ss, log[0].idx);
      RemovedMultiset(ss, log[0].idx);
      assert s in multiset(next);
      assert forall i :: 0 <= i < |log[1..]| ==> log[1..][i] == log[i + 1];
      StaysAndSucceeds(next, log[1..], out, rest, s);
    }
  }

  lemma {:induction false} FixedFailures<S>(
      ss: seq<S>, log: seq<Attempt<S>>, out: Outcome<S>, rest: seq<S>, opens: S -> bool)
    requires DialLog(ss, log, out, rest)
    requires FixedOutcomes(log, opens)
    ensures out.Dialed? ==> opens(out.sess)
    ensures forall s :: s in Failures(log) ==> !opens(s)
    decreases |log|
  {
    if log != [] {
      assert log[1..] != [] ==> forall i :: 0 <= i < |log[1..]| ==> log[1..][i] == log[i + 1];
      if !log[0].ok {
        FixedFailures(Removed(ss, log[0].idx), log[1..], out, rest, opens);
      } else {
        assert log[1..] == [];
      }
    }
  }

  /** With fixed outcomes a call succeeds, for every choice of indices, exactly
      when some listed session opens, and it then returns one that does.  If none
      does, every listed session is tried exactly once and removed. */
  lemma {:induction false} DialSucceedsIff<S>(
      ss: seq<S>, log: seq<Attempt<S>>, out: Outcome<S>, rest: seq<S>, opens: S -> bool)
    requires DialLog(ss, log, out, rest)
    requires FixedOutcomes(log, opens)
    ensures out.Dialed? <==> exists s :: s in ss && opens(s)
    ensures out.Dialed? ==> opens(out.sess)
    ensures forall s :: s in Failures(log) ==> !opens(s)
    ensures out.NoSession? ==> multiset(Failures(log)) == multiset(ss) && |log| == |ss| && rest == []
  {
    DialConserves(ss, log, out, rest);
    FixedFailures(ss, log, out, rest, opens);
    if out.Dialed? {
      NoCopy(rest, out.sess);
      NoCopy(ss, out.sess);
    } else {
      assert multiset(ss) == multiset(Failures(log));
      forall s | s in ss
        ensures !opens(s)
      {
        NoCopy(ss, s);
        NoCopy(Failures(log), s);
      }
    }
  }

  // ----------------------------------------------------------- reachability

  /** The list without the positions in `gone`. */
  function Without<S>(ss: seq<S>, gone: set<nat>): seq<S> {
    if ss == [] then []
    else
      var last := |ss| - 1;
      Without(ss[..last], gone) + if last in gone then [] else [ss[last]]
  }

  lemma {:induction false} WithoutMember<S>(ss: seq<S>, gone: set<nat>, i: nat) returns (j: nat)
    requires i < |ss| && i !in gone
    ensures j < |Without(ss, gone)| && Without(ss, gone)[j] == ss[i]
    decreases |ss|
  {
    var last := |ss| - 1;
    if i == last {
      j := |Without(ss[..last], gone)|;
    } else {
      j := WithoutMember(ss[..last], gone, i);
    }
  }

  lemma {:induction false} WithoutNone<S>(ss: seq<S>, gone: set<nat>)
    requires forall i :: 0 <= i < |ss| ==> i !in gone
    ensures Without(ss, gone) == ss
    decreases |ss|
  {
    if ss != [] {
      WithoutNone(ss[..|ss| - 1], gone);
    }
  }

  /** Deleting the highest position first leaves the lower ones where they are. */
  lemma {:induction false} WithoutHighest<S>(ss: seq<S>, gone: set<nat>, top: nat)
    requires top in gone && top < |ss|
    requires forall i :: i in gone ==> i <= top
    ensures Without(Removed(ss, top), gone - {top}) == Without(ss, gone)
    decreases |ss|
  {
    var last := |ss| - 1;
    var less := gone - {top};
    if top == last {
      assert Removed(ss, top) == ss[..last];
      WithoutSame(ss[..last], gone, less);
    } else {
      assert Removed(ss, top)[..last - 1] == Removed(ss[..last], top);
      assert Removed(ss, top)[last - 1] == ss[last];
      WithoutHighest(ss[..last], gone, top);
      assert last !in gone && last - 1 !in less;
    }
  }

  lemma {:induction false} WithoutSame<S>(ss: seq<S>, a: set<nat>, b: set<nat>)
    requires forall i :: 0 <= i < |ss| ==> (i in a <==> i in b)
    ensures Without(ss, a) == Without(ss, b)
    decreases |ss|
  {
    if ss != [] {
      WithoutSame(ss[..|ss| - 1], a, b);
    }
  }

  lemma {:induction false} Highest(s: set<nat>) returns (top: nat)
    requires s != {}
    ensures top in s && forall i :: i in s ==> i <= top
    decreases |s|
  {
    top :| top in s;
    assert forall i :: i in s ==> i == top || i in s - {top};
    if s - {top} != {} {
      var other := Highest(s - {top});
      if other > top { top := other; }
    }
  }

  /** Any set of failing positions can be deleted first, although every deletion
      shifts the indices behind it. */
  lemma {:induction false} FailAny<S>(ss: seq<S>, gone: set<nat>) returns (log: seq<Attempt<S>>)
    requires forall i :: i in gone ==> i < |ss|
    ensures Failing(ss, log, Without(ss, gone))
    ensures |log| == |gone|
    ensures forall k :: 0 <= k < |log| ==> exists i :: i in gone && log[k].sess == ss[i]
    decreases |gone|
  {
    if gone == {} {
      log := [];
      WithoutNone(ss, gone);
    } else {
      var top := Highest(gone);
      var less := gone - {top};
      var next := Removed(ss, top);
      assert forall i :: i in less ==> i < top && next[i] == ss[i];
      var tail := FailAny(next, less);
      WithoutHighest(ss, gone, top);
      log := [Attempt(top, ss[top], false)] + tail;
      assert log[1..] == tail;
      forall k | 0 <= k < |log|
        ensures exists i :: i in gone && log[k].sess == ss[i]
      {
        if k > 0 {
          var i :| i in less && tail[k - 1].sess == next[i];
          assert i in gone && log[k].sess == ss[i];
        }
      }
    }
  }

  /** Load balancing: whatever set of failing sessions is removed on the way, a
      listed session that opens can still be the one that is returned. */
  lemma {:induction false} AnyOpenSessionReachable<S>(
      ss: seq<S>, opens: S -> bool, gone: set<nat>, target: nat) returns (log: seq<Attempt<S>>)
    requires target < |ss| && opens(ss[target])
    requires forall i :: i in gone ==> i < |ss| && !opens(ss[i])
    ensures DialLog(ss, log, Dialed(ss[target]), Without(ss, gone))
    ensures FixedOutcomes(log, opens)
    ensures |log| == |gone| + 1
  {
    var fails := FailAny(ss, gone);
    var left := Without(ss, gone);
    var j := WithoutMember(ss, gone, target);
    log := fails + [Attempt(j, left[j], true)];
    DialEnds(ss, fails, left);
    FailingAllFail(ss, fails, left);
  }

  lemma {:induction false} FailingAllFail<S>(ss: seq<S>, log: seq<Attempt<S>>, cur: seq<S>)
    requires Failing(ss, log, cur)
    ensures forall i :: 0 <= i < |log| ==> !log[i].ok
    decreases |log|
  {
    if log != [] {
      FailingAllFail(Removed(ss, log[0].idx), log[1..], cur);
      assert forall i :: 1 <= i < |log| ==> log[i] == log[1..][i - 1];
    }
  }
}
