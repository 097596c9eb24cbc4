/** The session manager of one hub: a mutable map from a cluster's identifier to
    a Go slice of sessions, changed in place under a mutex.

    A slice is a header over a backing array.  `append` writes into spare
    capacity when there is some, and the deletion in `DialCluster` moves elements
    within the backing array, so two lists that shared an array would overwrite
    one another.  `Valid` says that they never do, and every method is proved
    against the plain map from identifier to list that `Valid` ties to the slices. */
module SessionManager {
  import opened Paths
  import opened Dialing
  import opened SessionLists

  /** The record of all attempts to open a connection, in the order in which they
      are made. */
  class Journal {
    var lines: seq<Attempt<Session>>

    constructor ()
      ensures lines == []
    {
      lines := [];
    }
  }

  /** What a dial call does not decide, turn by turn: the random number, of which the
      remainder by the number of sessions is picked, and whether the agent behind the
      session takes the connection. */
  datatype Luck = Luck(pick: nat -> nat, up: nat -> bool)

  /** An agent session.  Once it is down, closed by the hub or lost, no
      connection opens on it again; while it is up, `Open` may still fail. */
  class Session {
    var down: bool

    constructor ()
      ensures !down
    {
      down := false;
    }

    /** Tries to open a connection, for a caller that found the session at `idx`. */
    method Open(journal: Journal, idx: nat, up: bool) returns (ok: bool)
      modifies journal
      ensures ok <==> up && !down
      ensures journal.lines == old(journal.lines) + [Attempt(idx, this, ok)]
    {
      ok := up && !down;
      journal.lines := journal.lines + [Attempt(idx, this, ok)];
    }

    method Close()
      modifies this`down
      ensures down
    {
      down := true;
    }
  }

  /** A slice header; a missing map entry reads as the nil slice. */
  datatype Slice = Nil | Slice(data: array<Session>, len: nat) {
    function Len(): nat {
      if Nil? then 0 else len
    }
  }

  /** `append(ss, s)` for one element: in place when there is room, otherwise in a
      larger new array, how much larger being up to the runtime. */
  method Append(ss: Slice, s: Session) returns (r: Slice)
    requires ss.Slice? && ss.len <= ss.data.Length
    modifies ss.data
    ensures r.Slice? && r.len == ss.len + 1 <= r.data.Length
    ensures r.data[..r.len] == old(ss.data[..ss.len]) + [s]
    ensures if ss.len < ss.data.Length then r.data == ss.data else fresh(r.data)
  {
    if ss.len < ss.data.Length {
      ss.data[ss.len] := s;
      r := Slice(ss.data, ss.len + 1);
    } else {
      var capacity: nat :| ss.len < capacity;
      var data := new Session[capacity](_ => s);  // what spare capacity holds is never read
      forall i | 0 <= i < ss.len {
        data[i] := ss.data[i];
      }
      data[ss.len] := s;
      r := Slice(data, ss.len + 1);
    }
  }

  /** `append(ss[:i], ss[i+1:]...)`: the tail moves down within the array, and
      what stood last stays behind in the spare capacity. */
  method DeleteAt(ss: Slice, i: nat) returns (r: Slice)
    requires ss.Slice? && i < ss.len <= ss.data.Length
    modifies ss.data
    ensures r == Slice(ss.data, ss.len - 1)
    ensures r.data[..r.len] == Removed(old(ss.data[..ss.len]), i)
    ensures r.data[r.len..] == old(ss.data[ss.len - 1..])
  {
    ghost var before := ss.data[..];
    forall k | i <= k < ss.len - 1 {
      ss.data[k] := ss.data[k + 1];
    }
    r := Slice(ss.data, ss.len - 1);
    assert forall k :: 0 <= k < r.len ==> r.data[k] == if k < i then before[k] else before[k + 1];
    assert forall k :: r.len <= k < r.data.Length ==> r.data[k] == before[k];
  }

  type Log = seq<Attempt<Session>>

  ghost function Dead(ss: seq<Session>): set<Session>
    reads ss
  {
    set s | s in ss && s.down
  }

  /** Each attempt is on the session that luck picks among those left of the `n`
      listed ones, and opens exactly if luck has it so and the session is neither one
      of the `dead` nor failed before. */
  ghost predicate Follows(luck: Luck, log: seq<Attempt<Session>>, n: nat, dead: set<Session>) {
    forall k :: 0 <= k < |log| ==>
      && k < n && log[k].idx == luck.pick(k) % (n - k)
      && (log[k].ok <==> luck.up(k) && log[k].sess !in dead && log[k].sess !in FailedSet(log[..k]))
  }

  lemma {:induction false} FollowsMore(
      luck: Luck, log: seq<Attempt<Session>>, n: nat, dead: set<Session>, a: Attempt<Session>)
    requires Follows(luck, log, n, dead) && |log| < n && a.idx == luck.pick(|log|) % (n - |log|)
    requires a.ok <==> luck.up(|log|) && a.sess !in dead && a.sess !in FailedSet(log)
    ensures Follows(luck, log + [a], n, dead)
  {
    var more := log + [a];
    forall k | 0 <= k < |more|
      ensures k < n && more[k].idx == luck.pick(k) % (n - k)
      ensures more[k].ok <==> luck.up(k) && more[k].sess !in dead && more[k].sess !in FailedSet(more[..k])
    {
      if k < |log| {
        assert more[k] == log[k] && more[..k] == log[..k];
      } else {
        assert more[..k] == log;
      }
    }
  }

  /** A dial call that has made the attempts `log`, all of which failed. */
  ghost predicate Underway(
      first: Lists<Session>, id: string, luck: Luck, dead: set<Session>, log: Log, lists: Lists<Session>)
  {
    && Midway(first, id, log, lists)
    && |Listed(lists, id)| + |log| == |Listed(first, id)|
    && Follows(luck, log, |Listed(first, id)|, dead)
  }

  lemma {:induction false} UnderwayEnds(
      first: Lists<Session>, id: string, luck: Luck, dead: set<Session>, log: Log, lists: Lists<Session>)
    requires Underway(first, id, luck, dead, log, lists) && Listed(lists, id) == []
    ensures DialStep(first, id, log, NoSession, lists)
  {
    MidwayEnds(first, id, log, lists);
  }

  lemma {:induction false} UnderwayMore(
      first: Lists<Session>, id: string, luck: Luck, dead: set<Session>, log: Log, lists: Lists<Session>,
      a: Attempt<Session>)
    requires Underway(first, id, luck, dead, log, lists) && Listed(lists, id) != []
    requires a.idx == luck.pick(|log|) % |Listed(lists, id)| && a.sess == Listed(lists, id)[a.idx]
    requires a.ok <==> luck.up(|log|) && a.sess !in dead && a.sess !in FailedSet(log)
    ensures Follows(luck, log + [a], |Listed(first, id)|, dead)
    ensures FailedSet(log + [a]) == if a.ok then FailedSet(log) else FailedSet(log) + {a.sess}
    ensures if a.ok then DialStep(first, id, log + [a], Dialed(a.sess), lists)
            else Underway(first, id, luck, dead, log + [a], lists[id := Removed(Listed(lists, id), a.idx)])
  {
    MidwayEnds(first, id, log, lists);
    FollowsMore(luck, log, |Listed(first, id)|, dead, a);
    if !a.ok { MidwayDrop(first, id, log, lists, a); }
  }

  /** What a call returns to its caller: a connection over a session, or the
      error that no session was found. */
  type Conn = Outcome<Session>

  class Manager {
    const journal: Journal
    var sessionLists: map<string, Slice>
    ghost var lists: Lists<Session>               // what the slices contain
    ghost var owner: map<array<Session>, string>  // whose list a backing array holds

    ghost predicate Valid()
      reads this, owner.Keys
    {
      && lists.Keys == sessionLists.Keys
      && (forall id :: id in sessionLists ==>
           && sessionLists[id].Slice?
           && sessionLists[id].data in owner && owner[sessionLists[id].data] == id
           && sessionLists[id].len <= sessionLists[id].data.Length
           && lists[id] == sessionLists[id].data[..sessionLists[id].len])
    }

    constructor ()
      ensures Valid() && lists == map[] && owner == map[]
    {
      journal := new Journal();
      sessionLists, lists, owner := map[], map[], map[];
    }

    method AddClusterSession(key: Key, s: Session)
      requires Valid()
      modifies this, owner.Keys
      ensures Valid() && fresh(owner.Keys - old(owner.Keys))
      ensures lists == Added(old(lists), KeyString(key), s)
    {
      var id := KeyString(key);
      ghost var after := Added(lists, id, s);
      var ss := if id in sessionLists then sessionLists[id] else Nil;
      if ss.Nil? {
        var empty := new Session[0];
        ss := Slice(empty, 0);
      }
      ss := Append(ss, s);
      assert ss.data[..ss.len] == after[id];
      sessionLists, owner := sessionLists[id := ss], owner[ss.data := id];
      lists := after;
    }

    /** What follows a failed `Open`: close the session, delete it in place, and
        store the shorter header. */
    method Drop(id: string, ss: Slice, idx: nat) returns (r: Slice)
      requires Valid()
      requires id in sessionLists && ss == sessionLists[id] && idx < ss.len
      modifies this, ss.data, ss.data[idx]
      ensures Valid() && owner == old(owner) && old(ss.data[idx]).down
      ensures sessionLists == old(sessionLists)[id := r]
      ensures lists == old(lists)[id := Removed(old(lists)[id], idx)]
    {
      ss.data[idx].Close();
      r := DeleteAt(ss, idx);
      sessionLists := sessionLists[id := r];
      lists := lists[id := Removed(lists[id], idx)];
    }

    /** One turn of the dial loop, on a list that is not empty. */
    method Turn(id: string, ss: Slice, pick: nat, up: bool) returns (a: Attempt<Session>, r: Slice)
      requires Valid()
      requires id in sessionLists && ss == sessionLists[id] && ss.len > 0
      modifies this, journal, ss.data, set s: Session | s in lists[id]
      ensures Valid() && owner == old(owner)
      ensures id in sessionLists && r == sessionLists[id]
      ensures a.idx == pick % |old(lists)[id]| && a.sess == old(lists)[id][a.idx]
      ensures a.ok <==> up && !old(a.sess.down)
      ensures lists == if a.ok then old(lists) else old(lists)[id := Removed(old(lists)[id], a.idx)]
      ensures forall s: Session | s in old(lists)[id] ::
        s.down <==> old(s.down) || (s == a.sess && !a.ok)
      ensures journal.lines == old(journal.lines) + [a]
    {
      var idx := pick % ss.len;
      assert ss.data[idx] == lists[id][idx];
      var ok := ss.data[idx].Open(journal, idx, up);
      a, r := Attempt(idx, ss.data[idx], ok), ss;
      if !ok {
        r := Drop(id, ss, idx);
      }
    }

    /** The dial loop.  `log` are the attempts that it makes: each on the session that
        luck picks among those left, and failing exactly if luck has it so or the
        session is down, before the call or from an earlier attempt. */
    method DialCluster(key: Key, luck: Luck) returns (conn: Conn, log: Log)
      requires Valid()
      modifies this, journal, owner.Keys, set s: Session | s in Listed(lists, KeyString(key))
      ensures Valid() && owner == old(owner)
      ensures journal.lines == old(journal.lines) + log
      ensures DialStep(old(lists), KeyString(key), log, conn, lists)
      ensures forall s: Session | s in Listed(old(lists), KeyString(key)) ::
        s.down <==> old(s.down) || s in FailedSet(log)
      ensures conn.Dialed? ==> !conn.sess.down
      ensures var ss := Listed(old(lists), KeyString(key)); Follows(luck, log, |ss|, old(Dead(ss)))
    {
      var id := KeyString(key);
      var ss := if id in sessionLists then sessionLists[id] else Nil;
      ghost var first, dead := lists, Dead(Listed(lists, id));
      log := [];
      MidwayStart(lists, id);
      while true
        invariant Valid() && owner == old(owner)
        invariant ss == if id in sessionLists then sessionLists[id] else Nil
        invariant Underway(first, id, luck, dead, log, lists)
        invariant journal.lines == old(journal.lines) + log
        invariant forall s: Session | s in Listed(first, id) :: s.down <==> s in dead || s in FailedSet(log)
        decreases |Listed(lists, id)|
      {
        if ss.Len() == 0 {
          UnderwayEnds(first, id, luck, dead, log, lists);
          return NoSession, log;
        }
        ghost var before := lists;
        var a;
        a, ss := Turn(id, ss, luck.pick(|log|), luck.up(|log|));
        AppendAssoc(old(journal.lines), log, a);
        UnderwayMore(first, id, luck, dead, log, before, a);
        log := log + [a];
        if a.ok {
          return Dialed(a.sess), log;
        }
      }
    }
  }

  // ------------------------------------------------------------------- histories

  datatype Ask = Connects(key: Key) | Dials(key: Key, luck: Luck)

  ghost predicate Answers(op: Op<Session>, ask: Ask) {
    op.id == KeyString(ask.key) && (op.AddOp? <==> ask.Connects?)
  }

  ghost function Sessions(lists: Lists<Session>): set<Session> {
    set id, s | id in lists && s in lists[id] :: s
  }

  lemma {:induction false} SessionsAfter(before: Lists<Session>, op: Op<Session>, after: Lists<Session>)
    requires OpStep(before, op, after)
    ensures Sessions(after) <= Sessions(before) + if op.AddOp? then {op.sess} else {}
  {
    if op.DialOp? { DialOnlyRemoves(before, op.id, op.log, op.out, after); }
    forall id, s | id in after && s in after[id]
      ensures s in Sessions(before) || (op.AddOp? && s == op.sess)
    {
      assert s in Listed(after, id);
      if !(op.AddOp? && s == op.sess) { assert s in Listed(before, id); }
    }
  }

  /** The calls answer `asks`, and lead from the map `first` to `last`; `added` holds
      the sessions that they added. */
  ghost predicate Told(
      asks: seq<Ask>, ops: seq<Op<Session>>, maps: seq<Lists<Session>>, first: Lists<Session>,
      last: Lists<Session>, added: set<Session>)
  {
    && Sequential(maps, ops) && FreshAdds(ops) && maps[0] == first && maps[|ops|] == last
    && |ops| <= |asks| && (forall i :: 0 <= i < |ops| ==> Answers(ops[i], asks[i]))
    && (forall i :: 0 <= i < |ops| && ops[i].AddOp? ==> ops[i].sess in added)
    && Sessions(last) <= Sessions(first) + added
  }

  lemma {:induction false} ToldMore(
      asks: seq<Ask>, ops: seq<Op<Session>>, maps: seq<Lists<Session>>, first: Lists<Session>,
      last: Lists<Session>, added: set<Session>, op: Op<Session>, after: Lists<Session>)
    requires Told(asks, ops, maps, first, last, added) && |ops| < |asks|
    requires OpStep(last, op, after) && Answers(op, asks[|ops|])
    requires op.AddOp? ==> op.sess !in added
    ensures Told(asks, ops + [op], maps + [after], first, after, added + if op.AddOp? then {op.sess} else {})
    ensures Attempts(ops + [op]) == Attempts(ops) + op.Opens()
  {
    SessionsAfter(last, op, after);
    HistoryGrows(maps, ops, op, after);
    assert (ops + [op])[..|ops|] == ops;
  }

  /** One call on a manager; a connect brings a session of its own. */
  method Answer(m: Manager, ask: Ask) returns (op: Op<Session>)
    requires m.Valid()
    modifies m, m.journal, m.owner.Keys, Sessions(m.lists)
    ensures m.Valid() && fresh(m.owner.Keys - old(m.owner.Keys))
    ensures OpStep(old(m.lists), op, m.lists) && Answers(op, ask)
    ensures op.AddOp? ==> fresh(op.sess)
    ensures |m.journal.lines| == |old(m.journal.lines)| + op.Opens()
  {
    if ask.Connects? {
      var s := new Session();
      m.AddClusterSession(ask.key, s);
      op := AddOp(KeyString(ask.key), s);
    } else {
      assert forall s :: s in Listed(m.lists, KeyString(ask.key)) ==> s in Sessions(m.lists);
      var conn, log := m.DialCluster(ask.key, ask.luck);
      op := DialOp(KeyString(ask.key), log, conn);
    }
  }

  /** Any sequence of calls on a manager, each connect with a session of its own, is
      a history on the plain map, whatever the slices, their spare capacity and the
      choices are; and a new manager opens at most once per call.  The loop is that
      of the callers. */
  method Serve(m: Manager, asks: seq<Ask>) returns (ops: seq<Op<Session>>, ghost maps: seq<Lists<Session>>)
    requires m.Valid()
    modifies m, m.journal, m.owner.Keys, Sessions(m.lists)
    ensures m.Valid()
    ensures Sequential(maps, ops) && FreshAdds(ops) && maps[0] == old(m.lists) && maps[|ops|] == m.lists
    ensures |ops| == |asks| && forall i :: 0 <= i < |asks| ==> Answers(ops[i], asks[i])
    ensures |m.journal.lines| == |old(m.journal.lines)| + Attempts(ops)
    ensures old(m.lists) == map[] ==> |m.journal.lines| <= |old(m.journal.lines)| + |asks|
  {
    ops, maps := [], [m.lists];
    ghost var added: set<Session> := {};
    for n := 0 to |asks|
      invariant m.Valid() && fresh(m.owner.Keys - old(m.owner.Keys)) && fresh(added)
      invariant Sessions(m.lists) <= Sessions(old(m.lists)) + added
      invariant Told(asks, ops, maps, old(m.lists), m.lists, added) && |ops| == n
      invariant |m.journal.lines| == |old(m.journal.lines)| + Attempts(ops)
    {
      ghost var before := m.lists;
      var op := Answer(m, asks[n]);
      ToldMore(asks, ops, maps, old(m.lists), before, added, op, m.lists);
      ops, maps := ops + [op], maps + [m.lists];
      added := added + if op.AddOp? then {op.sess} else {};
    }
    if maps[0] == map[] { OpensAmortised(maps, ops); }
  }
}
