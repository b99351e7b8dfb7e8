/** The offline recount of batching opportunities (edge-server/eval.go). */
module Batching {
  import opened Shared
  import opened MapSums
  import opened Sorting
  import opened EdgeState

  /** A history record together with its job name. */
  datatype Entry = Entry(id: JobId, record: JobRecord)

  /** The order given to `sort.Slice`: by assignment time, by completion time if one is missing. */
  predicate Before(a: Entry, b: Entry) {
    if a.record.assignedAt.Some? && b.record.assignedAt.Some?
    then a.record.assignedAt.value < b.record.assignedAt.value
    else TimeOf(a.record.completedAt) < TimeOf(b.record.completedAt)
  }

  function TimeOf(t: Option<Time>): Time { if t.Some? then t.value else 0 }

  function Insert(x: Entry, s: seq<Entry>): seq<Entry> { InsertBy(Before, x, s) }

  /** What `sort.Slice` does, as far as the order determines it. */
  function SortEntries(s: seq<Entry>): seq<Entry> { SortBy(Before, s) }

  predicate Counts(e: Entry, w: NodeId) { e.record.status == Completed && e.record.assignedTo == Some(w) }

  /** The completed records of one worker, in history order. */
  function CompletedOf(records: seq<Entry>, w: NodeId): seq<Entry> {
    if records == [] then []
    else
      var rest, e := CompletedOf(records[..|records| - 1], w), records[|records| - 1];
      if Counts(e, w) then rest + [e] else rest
  }

  lemma {:induction false} CompletedMembers(records: seq<Entry>, w: NodeId)
    ensures forall e :: e in CompletedOf(records, w) <==>
      e in records && e.record.status == Completed && e.record.assignedTo == Some(w)
  {
    if records != [] {
      var t := records[..|records| - 1];
      CompletedMembers(t, w);
      assert records == t + [records[|records| - 1]];
    }
  }

  function TypesIn(s: seq<Entry>): seq<TaskType> {
    if s == [] then [] else TypesIn(s[..|s| - 1]) + [s[|s| - 1].record.taskType]
  }

  function PairAt(types: seq<TaskType>, i: nat): nat
    requires 1 <= i < |types|
  {
    if types[i] == types[i - 1] && types[i] != 0 then 1 else 0
  }

  /** Neighbours with the same valid (non-zero) type. */
  function ValidPairs(types: seq<TaskType>): nat {
    if |types| < 2 then 0
    else ValidPairs(types[..|types| - 1]) + PairAt(types, |types| - 1)
  }

  /** Their number is the number of positions whose type is valid and that of the position before. */
  lemma {:induction false} PairsAreCounted(types: seq<TaskType>)
    ensures ValidPairs(types) ==
      |set i: nat {:trigger types[i]} | 1 <= i < |types| && types[i] == types[i - 1] && types[i] != 0|
  {
    var all := set i: nat {:trigger types[i]} | 1 <= i < |types| && types[i] == types[i - 1] && types[i] != 0;
    if |types| < 2 {
      assert all == {};
    } else {
      var n := |types| - 1;
      var t := types[..n];
      PairsAreCounted(t);
      var before := set i: nat {:trigger t[i]} | 1 <= i < |t| && t[i] == t[i - 1] && t[i] != 0;
      assert all == if types[n] == types[n - 1] && types[n] != 0 then before + {n} else before;
    }
  }

  /** The number the recount reports for one worker. */
  function Recount(records: seq<Entry>, w: NodeId): nat { ValidPairs(TypesIn(SortEntries(CompletedOf(records, w)))) }

  lemma {:induction false} TypesInLength(s: seq<Entry>)
    ensures |TypesIn(s)| == |s|
    ensures forall i :: 0 <= i < |s| ==> TypesIn(s)[i] == s[i].record.taskType
  {
    if s != [] {
      TypesInLength(s[..|s| - 1]);
    }
  }

  lemma PairStep(s: seq<Entry>, i: nat)
    requires 1 <= i < |s|
    ensures ValidPairs(TypesIn(s[..i + 1])) == ValidPairs(TypesIn(s[..i])) +
      if s[i].record.taskType == s[i - 1].record.taskType && s[i].record.taskType != 0 then 1 else 0
  {
    TypesInLength(s[..i + 1]);
    TypesInLength(s[..i]);
    assert s[..i + 1][..i] == s[..i];
    assert TypesIn(s[..i + 1])[..i] == TypesIn(s[..i]);
  }

  function WithPairs(counts: map<NodeId, int>, worker: NodeId, n: nat): map<NodeId, int> {
    if n == 0 then counts else counts[worker := n]
  }

  /** Seconds saved by n pairs. */
  function Savings(n: int): real { 0.4 * n as real }

  lemma SavingsAdd(m: int, n: int)
    ensures Savings(m + n) == Savings(m) + Savings(n) && Savings(0) == 0.0 && Savings(1) == 0.4
  {
  }

  /** Counts the pairs of one worker into the running totals. */
  method CountPairs(recs: seq<Entry>, worker: NodeId, counts0: map<NodeId, int>, savings0: real)
    returns (counts: map<NodeId, int>, savings: real)
    requires worker !in counts0
    ensures counts == WithPairs(counts0, worker, ValidPairs(TypesIn(recs)))
    ensures savings == savings0 + Savings(ValidPairs(TypesIn(recs)))
  {
    counts, savings := counts0, savings0;
    hide ValidPairs, TypesIn, Savings;
    SavingsAdd(0, 0);
    if |recs| < 2 {
      NoPairs(recs);
      return;
    }
    var prevType := recs[0].record.taskType;
    var i := 1;
    NoPairs(recs[..1]);
    while i < |recs|
      invariant 1 <= i <= |recs| && prevType == recs[i - 1].record.taskType
      invariant counts == WithPairs(counts0, worker, ValidPairs(TypesIn(recs[..i])))
      invariant savings == savings0 + Savings(ValidPairs(TypesIn(recs[..i])))
    {
      PairStep(recs, i);
      SavingsAdd(ValidPairs(TypesIn(recs[..i])), 1);
      var currType := recs[i].record.taskType;
      if currType == prevType && currType != 0 {
        counts := counts[worker := At(counts, worker) + 1];
        savings := savings + 0.4;
      }
      prevType := currType;
      i := i + 1;
    }
    assert recs[..|recs|] == recs;
  }

  lemma NoPairs(s: seq<Entry>)
    requires |s| < 2
    ensures ValidPairs(TypesIn(s)) == 0
  {
    TypesInLength(s);
  }

  lemma CompletedUpTo(records: seq<Entry>, i: nat, w: NodeId)
    requires i < |records|
    ensures CompletedOf(records[..i + 1], w) ==
      CompletedOf(records[..i], w) + if Counts(records[i], w) then [records[i]] else []
  {
    assert records[..i + 1][..i] == records[..i];
  }

  function EntriesAt(m: map<NodeId, seq<Entry>>, w: NodeId): seq<Entry> { if w in m then m[w] else [] }

  /** The grouping loop: completed records by worker. */
  method GroupByWorker(records: seq<Entry>) returns (groups: map<NodeId, seq<Entry>>)
    ensures forall w :: EntriesAt(groups, w) == CompletedOf(records, w)
    ensures forall w :: w in groups ==> groups[w] != []
    ensures forall e :: e in records && e.record.status == Completed && e.record.assignedTo.Some? ==>
      e.record.assignedTo.value in groups && e in groups[e.record.assignedTo.value]
    ensures forall w, e :: w in groups && e in groups[w] ==>
      e in records && e.record.status == Completed && e.record.assignedTo == Some(w)
  {
    groups := map[];
    for i := 0 to |records|
      invariant forall w :: EntriesAt(groups, w) == CompletedOf(records[..i], w)
      invariant forall w :: w in groups ==> groups[w] != []
    {
      forall w
        ensures CompletedOf(records[..i + 1], w) ==
                CompletedOf(records[..i], w) + if Counts(records[i], w) then [records[i]] else []
      {
        CompletedUpTo(records, i, w);
      }
      var rec := records[i].record;
      if rec.status == Completed && rec.assignedTo.Some? {
        groups := groups[rec.assignedTo.value := EntriesAt(groups, rec.assignedTo.value) + [records[i]]];
      }
    }
    assert records[..|records|] == records;
    Grouped(records, groups);
  }

  lemma Grouped(records: seq<Entry>, groups: map<NodeId, seq<Entry>>)
    requires forall w :: EntriesAt(groups, w) == CompletedOf(records, w)
    ensures forall e :: e in records && e.record.status == Completed && e.record.assignedTo.Some? ==>
      e.record.assignedTo.value in groups && e in groups[e.record.assignedTo.value]
    ensures forall w, e :: w in groups && e in groups[w] ==>
      e in records && e.record.status == Completed && e.record.assignedTo == Some(w)
  {
    hide CompletedOf;
    forall e | e in records && e.record.status == Completed && e.record.assignedTo.Some?
      ensures e.record.assignedTo.value in groups && e in groups[e.record.assignedTo.value]
    {
      CompletedMembers(records, e.record.assignedTo.value);
      assert e in EntriesAt(groups, e.record.assignedTo.value);
    }
    forall w, e | w in groups && e in groups[w]
      ensures e in records && e.record.status == Completed && e.record.assignedTo == Some(w)
    {
      CompletedMembers(records, w);
      assert e in EntriesAt(groups, w);
    }
  }

  /** The results after the workers in `done` have been visited. */
  ghost predicate Tallied(records: seq<Entry>, done: set<NodeId>, tasks: map<NodeId, seq<Entry>>,
                          counts: map<NodeId, int>, savings: real) {
    && tasks.Keys == done
    && (forall w :: w in tasks ==> tasks[w] == SortEntries(CompletedOf(records, w)))
    && (forall w :: w in counts ==> w in done && counts[w] > 0)
    && (forall w :: w in done ==> At(counts, w) == Recount(records, w))
    && savings == Savings(Total(counts))
  }

  lemma TallyStep(records: seq<Entry>, done: set<NodeId>, tasks: map<NodeId, seq<Entry>>, before: map<NodeId, int>,
                  saved: real, w: NodeId, counts: map<NodeId, int>, savings: real)
    requires Tallied(records, done, tasks, before, saved) && w !in done
    requires counts == WithPairs(before, w, Recount(records, w)) && savings == saved + Savings(Recount(records, w))
    ensures Tallied(records, done + {w}, tasks[w := SortEntries(CompletedOf(records, w))], counts, savings)
  {
    hide Recount, Savings;
    var n := Recount(records, w);
    TotalUpdate(before, w, n);
    SavingsAdd(Total(before), n);
    SavingsAdd(0, 0);
  }

  lemma TallyStart(records: seq<Entry>)
    ensures Tallied(records, {}, map[], map[], 0.0)
  {
    SavingsAdd(0, 0);
  }

  lemma NotTallied(records: seq<Entry>, done: set<NodeId>, tasks: map<NodeId, seq<Entry>>, counts: map<NodeId, int>,
      savings: real, w: NodeId)
    requires Tallied(records, done, tasks, counts, savings) && w !in done
    ensures w !in counts
  {
  }

  /** One turn of the outer loop: sorts and counts the records of one worker. */
  method TallyWorker(records: seq<Entry>, recs: seq<Entry>, worker: NodeId, ghost done: set<NodeId>,
                     tasks0: map<NodeId, seq<Entry>>, counts0: map<NodeId, int>, savings0: real)
    returns (tasks: map<NodeId, seq<Entry>>, counts: map<NodeId, int>, savings: real)
    requires Tallied(records, done, tasks0, counts0, savings0) && worker !in done
      && recs == CompletedOf(records, worker)
    ensures Tallied(records, done + {worker}, tasks, counts, savings)
  {
    NotTallied(records, done, tasks0, counts0, savings0, worker);
    RecountIs(records, worker);
    hide Tallied, SortEntries, CompletedOf, WithPairs, Savings, Total, Recount, ValidPairs, TypesIn;
    var sorted := SortEntries(recs);
    tasks := tasks0[worker := sorted];
    counts, savings := CountPairs(sorted, worker, counts0, savings0);
    TallyStep(records, done, tasks0, counts0, savings0, worker, counts, savings);
  }

  /** The outer loop, over the groups in any order. */
  method TallyAll(records: seq<Entry>, groups: map<NodeId, seq<Entry>>)
    returns (tasks: map<NodeId, seq<Entry>>, counts: map<NodeId, int>, savings: real)
    requires forall w :: w in groups ==> groups[w] == CompletedOf(records, w)
    ensures Tallied(records, groups.Keys, tasks, counts, savings)
  {
    var todo := groups.Keys;
    ghost var done: set<NodeId> := {};
    tasks, counts, savings := map[], map[], 0.0;
    TallyStart(records);
    hide Tallied, CompletedOf;
    while todo != {}
      invariant done + todo == groups.Keys && done !! todo
      invariant Tallied(records, done, tasks, counts, savings)
      decreases todo
    {
      var worker :| worker in todo;
      tasks, counts, savings := TallyWorker(records, groups[worker], worker, done, tasks, counts, savings);
      todo, done := todo - {worker}, done + {worker};
    }
    assert done == groups.Keys;
  }

  /** `calculateBatchingSavings` */
  method CalculateBatchingSavings(records: seq<Entry>)
    returns (tasksPerWorker: map<NodeId, seq<Entry>>, counts: map<NodeId, int>, savings: real)
    ensures forall w :: w in tasksPerWorker <==> CompletedOf(records, w) != []
    ensures forall w :: w in tasksPerWorker ==> tasksPerWorker[w] == SortEntries(CompletedOf(records, w))
    ensures forall w :: At(counts, w) == Recount(records, w)
    ensures forall w :: w in counts ==> counts[w] > 0
    ensures savings == Savings(Total(counts))
  {
    var groups := GroupByWorker(records);
    assert forall w :: w in groups ==> EntriesAt(groups, w) == groups[w];
    tasksPerWorker, counts, savings := TallyAll(records, groups);
    TallyEnd(records, groups, tasksPerWorker, counts, savings);
  }

  lemma TallyEnd(records: seq<Entry>, groups: map<NodeId, seq<Entry>>, tasks: map<NodeId, seq<Entry>>,
      counts: map<NodeId, int>, savings: real)
    requires Tallied(records, groups.Keys, tasks, counts, savings)
    requires forall w :: EntriesAt(groups, w) == CompletedOf(records, w)
    requires forall w :: w in groups ==> groups[w] != []
    ensures forall w :: w in tasks <==> CompletedOf(records, w) != []
    ensures forall w :: At(counts, w) == Recount(records, w)
  {
    forall w ensures (w in tasks <==> CompletedOf(records, w) != []) && At(counts, w) == Recount(records, w) {
      assert EntriesAt(groups, w) == CompletedOf(records, w);
      if w !in groups {
        NoRecordsNoPairs(records, w);
      }
    }
  }

  lemma RecountIs(records: seq<Entry>, w: NodeId)
    ensures Recount(records, w) == ValidPairs(TypesIn(SortEntries(CompletedOf(records, w))))
  {
  }

  lemma NoRecordsNoPairs(records: seq<Entry>, w: NodeId)
    requires CompletedOf(records, w) == []
    ensures Recount(records, w) == 0
  {
  }
}
