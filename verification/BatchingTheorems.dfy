/** The scheduler's online batching counter agrees with the offline recount over the history. */
module BatchingTheorems {
  import opened Shared
  import opened SchedulerCounters
  import opened Batching
  import opened Protocol
  import opened ProtocolInvariant
  import ProtocolTheorems

  /** The records as `getEvalReport` collects them: every one once, in any order. */
  ghost predicate Lists(records: seq<Entry>, h: History) {
    && DistinctNames(records)
    && (forall e :: e in records ==> e.id in h && e.record == h[e.id])
    && (forall j :: j in h ==> Entry(j, h[j]) in records)
  }

  // ---- sorting by assignment time ----

  ghost predicate Timed(s: seq<Entry>) { forall i :: 0 <= i < |s| ==> s[i].record.assignedAt.Some? }

  ghost predicate Ordered(s: seq<Entry>) {
    Timed(s) && forall i, k :: 0 <= i < k < |s| ==> s[i].record.assignedAt.value < s[k].record.assignedAt.value
  }

  ghost predicate SameMembers(a: seq<Entry>, b: seq<Entry>) { forall e :: e in a <==> e in b }

  lemma {:induction false} InsertMembers(x: Entry, s: seq<Entry>)
    ensures forall e :: e in Insert(x, s) <==> e == x || e in s
  {
    if s != [] && Before(x, s[|s| - 1]) {
      var t, l := s[..|s| - 1], s[|s| - 1];
      InsertMembers(x, t);
      assert s == t + [l];
      assert Insert(x, s) == Insert(x, t) + [l];
    }
  }

  lemma {:induction false} InsertOrdered(x: Entry, s: seq<Entry>)
    requires Ordered(s) && x.record.assignedAt.Some?
    requires forall i :: 0 <= i < |s| ==> s[i].record.assignedAt != x.record.assignedAt
    ensures Ordered(Insert(x, s))
  {
    if s != [] && Before(x, s[|s| - 1]) {
      var t, l := s[..|s| - 1], s[|s| - 1];
      InsertOrdered(x, t);
      InsertMembers(x, t);
      var r := Insert(x, t);
      forall i | 0 <= i < |r|
        ensures r[i].record.assignedAt.Some? && r[i].record.assignedAt.value < l.record.assignedAt.value {
        assert r[i] in r;
      }
    }
  }

  /** Distinct times: the sorted list is in strictly increasing order. */
  lemma {:induction false} SortOrdered(s: seq<Entry>)
    requires Timed(s)
    requires forall i, k :: 0 <= i < k < |s| ==> s[i].record.assignedAt != s[k].record.assignedAt
    ensures Ordered(SortEntries(s)) && SameMembers(SortEntries(s), s)
  {
    if s != [] {
      var t, l := s[..|s| - 1], s[|s| - 1];
      SortOrdered(t);
      assert s == t + [l];
      forall i | 0 <= i < |SortEntries(t)| ensures SortEntries(t)[i].record.assignedAt != l.record.assignedAt {
        assert SortEntries(t)[i] in t;
      }
      InsertOrdered(l, SortEntries(t));
      InsertMembers(l, SortEntries(t));
    }
  }

  /** Where no assignment time is known, records are sorted by completion. */
  lemma {:induction false} SortByCompletion(s: seq<Entry>)
    requires forall e :: e in s ==> e.record.assignedAt == None && e.record.completedAt.Some?
    ensures var r := SortEntries(s);
      && SameMembers(r, s)
      && forall i, k :: 0 <= i < k < |r| ==>
        r[i].record.completedAt.Some? && r[k].record.completedAt.Some?
        && r[i].record.completedAt.value <= r[k].record.completedAt.value
  {
    if s != [] {
      var t, l := s[..|s| - 1], s[|s| - 1];
      SortByCompletion(t);
      assert s == t + [l];
      InsertByCompletion(l, SortEntries(t));
      InsertMembers(l, SortEntries(t));
    }
  }

  ghost predicate ByCompletion(s: seq<Entry>) {
    && (forall e :: e in s ==> e.record.assignedAt == None && e.record.completedAt.Some?)
    && forall i, k :: 0 <= i < k < |s| ==> s[i].record.completedAt.value <= s[k].record.completedAt.value
  }

  lemma {:induction false} InsertByCompletion(x: Entry, s: seq<Entry>)
    requires ByCompletion(s) && x.record.assignedAt == None && x.record.completedAt.Some?
    ensures ByCompletion(Insert(x, s))
  {
    InsertMembers(x, s);
    if s != [] && Before(x, s[|s| - 1]) {
      var t, l := s[..|s| - 1], s[|s| - 1];
      assert ByCompletion(t);
      InsertByCompletion(x, t);
      InsertMembers(x, t);
      assert Insert(x, s) == Insert(x, t) + [l];
      forall i | 0 <= i < |Insert(x, t)|
        ensures Insert(x, t)[i].record.completedAt.value <= l.record.completedAt.value
      {
        assert Insert(x, t)[i] in Insert(x, t);
      }
    }
  }

  /** The last entry of an ordered list is the latest of its members. */
  lemma LatestIsLast(a: seq<Entry>, e: Entry)
    requires Ordered(a) && e in a
    ensures e == a[|a| - 1] || e.record.assignedAt.value < a[|a| - 1].record.assignedAt.value
  {
  }

  lemma DropLast(a: seq<Entry>)
    requires Ordered(a) && a != []
    ensures Ordered(a[..|a| - 1]) && forall e :: e in a[..|a| - 1] <==> e in a && e != a[|a| - 1]
  {
    assert a == a[..|a| - 1] + [a[|a| - 1]];
    assert forall i :: 0 <= i < |a| - 1 ==> a[i].record.assignedAt.value < a[|a| - 1].record.assignedAt.value;
  }

  /** So it is the same in any ordered list of the same members. */
  lemma SameLast(a: seq<Entry>, b: seq<Entry>)
    requires Ordered(a) && Ordered(b) && SameMembers(a, b) && a != []
    ensures b != [] && a[|a| - 1] == b[|b| - 1]
  {
    var x := a[|a| - 1];
    assert x in a && x in b;
    var y := b[|b| - 1];
    assert y in b && y in a;
    LatestIsLast(a, y);
    LatestIsLast(b, x);
  }

  /** Two lists in strictly increasing order with the same members are equal. */
  lemma {:induction false} OrderedUnique(a: seq<Entry>, b: seq<Entry>)
    requires Ordered(a) && Ordered(b) && SameMembers(a, b)
    ensures a == b
  {
    assert b != [] ==> b[0] in a;
    if a != [] {
      SameLast(a, b);
      DropLast(a);
      DropLast(b);
      var a', b' := a[..|a| - 1], b[..|b| - 1];
      forall e ensures e in a' <==> e in b' {
        assert e in a <==> e in b;
      }
      OrderedUnique(a', b');
      assert a == a[..|a| - 1] + [a[|a| - 1]] && b == b[..|b| - 1] + [b[|b| - 1]];
    }
  }

  ghost predicate DistinctNames(s: seq<Entry>) { forall m, n :: 0 <= m < n < |s| ==> s[m].id != s[n].id }

  lemma {:induction false} CompletedNamesDistinct(records: seq<Entry>, w: NodeId)
    requires DistinctNames(records)
    ensures DistinctNames(CompletedOf(records, w))
  {
    if records != [] {
      var t, l := records[..|records| - 1], records[|records| - 1];
      CompletedNamesDistinct(t, w);
      CompletedMembers(t, w);
      var r := CompletedOf(t, w);
      forall i | 0 <= i < |r| ensures r[i].id != l.id {
        assert r[i] in t;
      }
    }
  }

  // ---- the assignments of one worker, in order ----

  /** The records of the jobs assigned to w, in order of assignment. */
  function Along(trace: seq<Call>, w: NodeId, h: History): seq<Entry> {
    if trace == [] then []
    else
      var rest, call := Along(trace[..|trace| - 1], w, h), trace[|trace| - 1];
      if call.Assign? && call.node == w && call.job in h then rest + [Entry(call.job, h[call.job])] else rest
  }

  ghost predicate CallsOk(trace: seq<Call>, h: History, clock: Time, removed: set<NodeId>) {
    && (forall i :: 0 <= i < |trace| ==> CallOk(trace[i], h, clock, removed))
    && (forall i, k :: 0 <= i < k < |trace| && trace[i].Assign? && trace[k].Assign? ==> trace[i].at < trace[k].at)
  }

  lemma {:induction false} AlongTypes(trace: seq<Call>, w: NodeId, h: History, clock: Time, removed: set<NodeId>)
    requires CallsOk(trace, h, clock, removed)
    ensures TypesIn(Along(trace, w, h)) == TypesOf(trace, w)
  {
    if trace != [] {
      var t, call := trace[..|trace| - 1], trace[|trace| - 1];
      AlongTypes(t, w, h, clock, removed);
      assert CallOk(call, h, clock, removed);
      var rest := Along(t, w, h);
      if call.Assign? && call.node == w {
        assert Along(trace, w, h)[..|rest|] == rest;
      }
    }
  }

  lemma {:induction false} AlongMembers(trace: seq<Call>, w: NodeId, h: History, clock: Time, removed: set<NodeId>)
    requires CallsOk(trace, h, clock, removed)
    ensures forall e :: e in Along(trace, w, h) <==>
      && e.id in h && e.record == h[e.id]
      && exists i :: 0 <= i < |trace| && trace[i].Assign? && trace[i].node == w && trace[i].job == e.id
  {
    if trace != [] {
      var t, call := trace[..|trace| - 1], trace[|trace| - 1];
      AlongMembers(t, w, h, clock, removed);
      assert CallOk(call, h, clock, removed);
      assert trace == t + [call];
    }
  }

  lemma {:induction false} AlongBefore(trace: seq<Call>, w: NodeId, h: History, clock: Time, removed: set<NodeId>,
      limit: Time)
    requires CallsOk(trace, h, clock, removed)
    requires forall i :: 0 <= i < |trace| && trace[i].Assign? ==> trace[i].at < limit
    ensures Timed(Along(trace, w, h))
    ensures forall i :: 0 <= i < |Along(trace, w, h)| ==> Along(trace, w, h)[i].record.assignedAt.value < limit
  {
    if trace != [] {
      var t, call := trace[..|trace| - 1], trace[|trace| - 1];
      AlongBefore(t, w, h, clock, removed, limit);
      assert CallOk(call, h, clock, removed);
    }
  }

  lemma {:induction false} AlongOrdered(trace: seq<Call>, w: NodeId, h: History, clock: Time, removed: set<NodeId>)
    requires CallsOk(trace, h, clock, removed)
    ensures Ordered(Along(trace, w, h))
  {
    if trace != [] {
      var t, call := trace[..|trace| - 1], trace[|trace| - 1];
      AlongOrdered(t, w, h, clock, removed);
      assert CallOk(call, h, clock, removed);
      if call.Assign? {
        AlongBefore(t, w, h, clock, removed, call.at);
      }
    }
  }

  // ---- the two counts ----

  lemma {:induction false} PairsOfValidTypes(types: seq<TaskType>)
    requires forall i :: 0 <= i < |types| ==> types[i] != 0
    ensures ValidPairs(types) == EqualPairs(types)
  {
    if |types| >= 2 {
      PairsOfValidTypes(types[..|types| - 1]);
    }
  }

  /** Once every job claimed by w is recorded as completed, the claims and the completed records of
      w are the same list. */
  lemma CompletedAreAssigned(s: System, w: NodeId, records: seq<Entry>)
    requires Inv(s) && Lists(records, s.edge.history)
    requires forall j :: j in s.edge.history && s.edge.history[j].assignedTo == Some(w) ==>
      s.edge.history[j].status == Completed
    ensures SortEntries(CompletedOf(records, w)) == Along(s.trace, w, s.edge.history)
  {
    var h, c := s.edge.history, CompletedOf(records, w);
    CompletedMembers(records, w);
    AlongMembers(s.trace, w, h, s.edge.clock, s.removed);
    AlongOrdered(s.trace, w, h, s.edge.clock, s.removed);
    CompletedDistinct(s, w, records);
    SortOrdered(c);
    MembersAgree(s, w, records);
    OrderedUnique(SortEntries(c), Along(s.trace, w, h));
  }

  lemma AssignedTime(s: System, j: JobId, w: NodeId)
    requires Inv(s) && j in s.edge.history && s.edge.history[j].assignedTo == Some(w)
    ensures s.edge.history[j].assignedAt.Some?
    ensures Assign(w, j, s.edge.history[j].taskType, s.edge.history[j].assignedAt.value) in s.trace
    ensures s.edge.history[j].taskType != 0
  {
  }

  lemma TimesDiffer(s: System, i: JobId, j: JobId, w: NodeId)
    requires Inv(s) && i != j && i in s.edge.history && j in s.edge.history
    requires s.edge.history[i].assignedTo == Some(w) && s.edge.history[j].assignedTo == Some(w)
    ensures s.edge.history[i].assignedAt != s.edge.history[j].assignedAt
  {
    AssignedTime(s, i, w);
    AssignedTime(s, j, w);
    var h := s.edge.history;
    var m :| 0 <= m < |s.trace| && s.trace[m] == Assign(w, i, h[i].taskType, h[i].assignedAt.value);
    var n :| 0 <= n < |s.trace| && s.trace[n] == Assign(w, j, h[j].taskType, h[j].assignedAt.value);
    assert m < n ==> s.trace[m].at < s.trace[n].at;
    assert n < m ==> s.trace[n].at < s.trace[m].at;
  }

  lemma CompletedDistinct(s: System, w: NodeId, records: seq<Entry>)
    requires Inv(s) && Lists(records, s.edge.history)
    ensures var c := CompletedOf(records, w);
      Timed(c) && forall i, k :: 0 <= i < k < |c| ==> c[i].record.assignedAt != c[k].record.assignedAt
  {
    var c := CompletedOf(records, w);
    CompletedMembers(records, w);
    CompletedNamesDistinct(records, w);
    hide Inv, CompletedOf;
    forall i | 0 <= i < |c| ensures c[i].record.assignedAt.Some? {
      assert c[i] in c;
      AssignedTime(s, c[i].id, w);
    }
    forall i, k | 0 <= i < k < |c| ensures c[i].record.assignedAt != c[k].record.assignedAt {
      assert c[i] in c && c[k] in c;
      TimesDiffer(s, c[i].id, c[k].id, w);
    }
  }

  lemma TraceFacts(s: System)
    requires Inv(s)
    ensures CallsOk(s.trace, s.edge.history, s.edge.clock, s.removed)
  {
  }

  lemma MembersAgree(s: System, w: NodeId, records: seq<Entry>)
    requires Inv(s) && Lists(records, s.edge.history)
    requires forall j :: j in s.edge.history && s.edge.history[j].assignedTo == Some(w) ==>
      s.edge.history[j].status == Completed
    ensures SameMembers(CompletedOf(records, w), Along(s.trace, w, s.edge.history))
  {
    hide CompletedOf, Along, Inv;
    var h, c, a := s.edge.history, CompletedOf(records, w), Along(s.trace, w, s.edge.history);
    TraceFacts(s);
    CompletedMembers(records, w);
    AlongMembers(s.trace, w, h, s.edge.clock, s.removed);
    forall e | e in c ensures e in a {
      AssignedTime(s, e.id, w);
    }
    forall e | e in a ensures e in c {
      var i :| 0 <= i < |s.trace| && s.trace[i].Assign? && s.trace[i].node == w && s.trace[i].job == e.id;
      assert CallOk(s.trace[i], h, s.edge.clock, s.removed);
    }
  }

  /** In the default mode, for a worker the scheduler has never forgotten and whose claimed jobs have
      all completed, the online counter equals the offline recount of the records in any order. */
  lemma OnlineEqualsOffline(b: seq<System>, i: nat, w: NodeId, records: seq<Entry>)
    requires IsRun(b) && i < |b| && b[i].mode == PsoAcoGa && w !in b[i].removed
    requires Lists(records, b[i].edge.history)
    requires forall j :: j in b[i].edge.history && b[i].edge.history[j].assignedTo == Some(w) ==>
      b[i].edge.history[j].status == Completed
    ensures At(b[i].edge.counters.batching, w) == Recount(records, w)
  {
    ProtocolTheorems.RunKeeps(b, i);
    hide IsRun;
    var s := b[i];
    CompletedAreAssigned(s, w, records);
    AlongTypes(s.trace, w, s.edge.history, s.edge.clock, s.removed);
    NeverForgotten(s, w);
    BatchingCountsEqualPairs(s.trace, w);
    TypesValid(s, w, records);
    PairsOfValidTypes(TypesOf(s.trace, w));
  }

  lemma NeverForgotten(s: System, w: NodeId)
    requires Inv(s) && w !in s.removed
    ensures Leave(w) !in s.trace && s.edge.counters == Replay(s.mode, s.trace)
  {
  }

  lemma TypesValid(s: System, w: NodeId, records: seq<Entry>)
    requires Inv(s)
    ensures forall i :: 0 <= i < |TypesOf(s.trace, w)| ==> TypesOf(s.trace, w)[i] != 0
  {
    var a := Along(s.trace, w, s.edge.history);
    AlongTypes(s.trace, w, s.edge.history, s.edge.clock, s.removed);
    AlongMembers(s.trace, w, s.edge.history, s.edge.clock, s.removed);
    TypesInLength(a);
    forall i | 0 <= i < |a| ensures a[i].record.taskType != 0 {
      assert a[i] in a;
    }
  }
}
