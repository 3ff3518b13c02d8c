/** The prioritized job queue: a vector kept in dispatch order, Critical first and
    oldest first within a priority. */
module JobQueues {

  type JobId = nat

  datatype Priority = Low | Normal | High | Critical {
    function Rank(): nat {
      match this
      case Low => 0
      case Normal => 1
      case High => 2
      case Critical => 3
    }
  }

  datatype Job = Job(id: JobId, priority: Priority)

  datatype Entry = Entry(job: Job, seqNo: nat)

  /** Strict dispatch order: descending priority, then ascending sequence number. */
  predicate Before(a: Entry, b: Entry) {
    || a.job.priority.Rank() > b.job.priority.Rank()
    || (a.job.priority == b.job.priority && a.seqNo < b.seqNo)
  }

  /** `p` is as urgent as `q` or more. */
  predicate AtLeast(p: Priority, q: Priority) {
    || p == q || p == Critical
    || (p == High && (q == Normal || q == Low))
    || (p == Normal && q == Low)
  }

  ghost predicate Sorted(entries: seq<Entry>) {
    forall i, j :: 0 <= i < j < |entries| ==> Before(entries[i], entries[j])
  }

  ghost predicate NumberedBelow(entries: seq<Entry>, nextSeq: nat) {
    forall i :: 0 <= i < |entries| ==> entries[i].seqNo < nextSeq
  }

  /** Specification of insertion: walk past everything that dispatches first. */
  function Insert(entries: seq<Entry>, e: Entry): seq<Entry> {
    if entries == [] || Before(e, entries[0]) then [e] + entries
    else [entries[0]] + Insert(entries[1..], e)
  }

  /** Index of the first entry whose job id passes the test, or the length if there is none. */
  function FirstIndex(entries: seq<Entry>, test: JobId -> bool): (index: nat)
    ensures index <= |entries|
  {
    if entries == [] || test(entries[0].job.id) then 0 else 1 + FirstIndex(entries[1..], test)
  }

  lemma {:induction false} FirstIndexIsFirst(entries: seq<Entry>, test: JobId -> bool)
    ensures var index := FirstIndex(entries, test);
            && (forall i :: 0 <= i < index ==> !test(entries[i].job.id))
            && (index < |entries| ==> test(entries[index].job.id))
  {
    if entries == [] || test(entries[0].job.id) {
    } else {
      FirstIndexIsFirst(entries[1..], test);
      assert forall i :: 0 < i < |entries| ==> entries[i] == entries[1..][i - 1];
    }
  }

  lemma FirstIndexUnique(entries: seq<Entry>, test: JobId -> bool, index: nat)
    requires index <= |entries| && forall i :: 0 <= i < index ==> !test(entries[i].job.id)
    requires index < |entries| ==> test(entries[index].job.id)
    ensures FirstIndex(entries, test) == index
  {
    FirstIndexIsFirst(entries, test);
  }

  function SameId(id: JobId): JobId -> bool { (other: JobId) => other == id }

  lemma SameIdIndex(entries: seq<Entry>, id: JobId)
    ensures var index := FirstIndex(entries, SameId(id));
            if index < |entries| then entries[index].job.id == id
            else forall i :: 0 <= i < |entries| ==> entries[i].job.id != id
  {
    FirstIndexIsFirst(entries, SameId(id));
    assert forall i :: 0 <= i < |entries| ==> (SameId(id)(entries[i].job.id) <==> entries[i].job.id == id);
  }

  function RemoveAt(entries: seq<Entry>, index: nat): seq<Entry>
    requires index < |entries|
  {
    entries[..index] + entries[index + 1..]
  }

  lemma {:induction false} InsertSplits(entries: seq<Entry>, e: Entry, k: nat)
    requires k <= |entries|
    requires forall i :: 0 <= i < k ==> !Before(e, entries[i])
    requires k < |entries| ==> Before(e, entries[k])
    ensures Insert(entries, e) == entries[..k] + [e] + entries[k..]
  {
    if k > 0 {
      InsertSplits(entries[1..], e, k - 1);
      assert entries == [entries[0]] + entries[1..];
      assert entries[..k] == [entries[0]] + entries[1..][..k - 1];
      assert entries[k..] == entries[1..][k - 1..];
    } else {
      assert entries[..0] + [e] + entries[0..] == [e] + entries;
    }
  }

  /** The first entry that a new one dispatches ahead of. */
  lemma InsertionPoint(entries: seq<Entry>, e: Entry) returns (k: nat)
    requires Sorted(entries) && NumberedBelow(entries, e.seqNo)
    ensures k <= |entries|
    ensures forall i :: 0 <= i < k ==> !Before(e, entries[i])
    ensures forall i :: k <= i < |entries| ==> Before(e, entries[i])
  {
    k := 0;
    while k < |entries| && !Before(e, entries[k])
      invariant k <= |entries|
      invariant forall i :: 0 <= i < k ==> !Before(e, entries[i])
    {
      k := k + 1;
    }
    forall i | k <= i < |entries| ensures Before(e, entries[i]) {
      assert k == i || Before(entries[k], entries[i]);
    }
  }

  lemma SpliceKeepsOrder(entries: seq<Entry>, e: Entry, k: nat)
    requires Sorted(entries) && NumberedBelow(entries, e.seqNo) && k <= |entries|
    requires forall i :: 0 <= i < k ==> !Before(e, entries[i])
    requires forall i :: k <= i < |entries| ==> Before(e, entries[i])
    ensures Sorted(entries[..k] + [e] + entries[k..]) && NumberedBelow(entries[..k] + [e] + entries[k..], e.seqNo + 1)
  {
    var spliced := entries[..k] + [e] + entries[k..];
    forall i, j | 0 <= i < j < |spliced| ensures Before(spliced[i], spliced[j]) {
      assert i < k ==> spliced[i] == entries[i];
      assert i > k ==> spliced[i] == entries[i - 1];
      assert j < k ==> spliced[j] == entries[j];
      assert j > k ==> spliced[j] == entries[j - 1];
    }
  }

  /** Insertion with a fresh sequence number keeps the order, changes nothing else, and puts the
      new job behind every queued job of its priority or higher and ahead of every lower one. */
  lemma InsertKeepsOrder(entries: seq<Entry>, e: Entry) returns (k: nat)
    requires Sorted(entries) && NumberedBelow(entries, e.seqNo)
    ensures k <= |entries| && Insert(entries, e) == entries[..k] + [e] + entries[k..]
    ensures Sorted(Insert(entries, e)) && NumberedBelow(Insert(entries, e), e.seqNo + 1)
    ensures forall i :: 0 <= i < |entries| ==> (i < k <==> AtLeast(entries[i].job.priority, e.job.priority))
  {
    k := InsertionPoint(entries, e);
    InsertSplits(entries, e, k);
    SpliceKeepsOrder(entries, e, k);
  }

  /** `e` stands behind every queued job of its priority or a higher one, and ahead of every other. */
  ghost predicate Placed(entries: seq<Entry>, e: Entry, k: nat, entries': seq<Entry>) {
    && k <= |entries| && entries' == entries[..k] + [e] + entries[k..]
    && forall i :: 0 <= i < |entries| ==> (i < k <==> AtLeast(entries[i].job.priority, e.job.priority))
  }

  lemma RemoveKeepsOrder(entries: seq<Entry>, index: nat, nextSeq: nat)
    requires index < |entries| && Sorted(entries) && NumberedBelow(entries, nextSeq)
    ensures Sorted(RemoveAt(entries, index)) && NumberedBelow(RemoveAt(entries, index), nextSeq)
    ensures forall e :: e in RemoveAt(entries, index) <==> e in entries && e != entries[index]
  {
    var r := RemoveAt(entries, index);
    forall e | e in entries && e != entries[index] ensures e in r {
      var i :| 0 <= i < |entries| && entries[i] == e;
      assert r[if i < index then i else i - 1] == e;
    }
    forall i | 0 <= i < |r| ensures r[i] == entries[if i < index then i else i + 1] {
    }
    forall e | e in r ensures e in entries && e != entries[index] {
      var i :| 0 <= i < |r| && r[i] == e;
      assert Before(entries[index], entries[i + 1]) || i < index;
    }
  }

  /** The first entry that passes the test is of the highest priority among those that pass, and the
      oldest of that priority. */
  lemma MostUrgentFirst(entries: seq<Entry>, test: JobId -> bool)
    requires Sorted(entries) && FirstIndex(entries, test) < |entries|
    ensures var first := entries[FirstIndex(entries, test)];
            forall i :: 0 <= i < |entries| && test(entries[i].job.id) ==>
              && (entries[i].job.priority == Critical ==> first.job.priority == Critical)
              && (entries[i].job.priority == High ==> first.job.priority == Critical || first.job.priority == High)
              && (entries[i].job.priority == Normal ==> first.job.priority != Low)
              && (entries[i].job.priority == first.job.priority ==> first.seqNo <= entries[i].seqNo)
  {
    FirstIndexIsFirst(entries, test);
    var index := FirstIndex(entries, test);
    forall i | 0 <= i < |entries| && test(entries[i].job.id) ensures i == index || Before(entries[index], entries[i]) {
      assert index <= i;
    }
  }

  class JobQueue {
    var entries: seq<Entry>
    var nextSeq: nat

    ghost predicate Valid()
      reads this
    {
      Sorted(entries) && NumberedBelow(entries, nextSeq)
    }

    constructor ()
      ensures Valid() && entries == [] && nextSeq == 0
    {
      entries, nextSeq := [], 0;
    }

    /** Binary search for the first entry that dispatches after `e`. */
    method PartitionPoint(e: Entry) returns (index: nat)
      requires Valid() && NumberedBelow(entries, e.seqNo)
      ensures index <= |entries|
      ensures forall i :: 0 <= i < index ==> !Before(e, entries[i])
      ensures forall i :: index <= i < |entries| ==> Before(e, entries[i])
    {
      var lo, hi := 0, |entries|;
      while lo < hi
        invariant 0 <= lo <= hi <= |entries|
        invariant forall i :: 0 <= i < lo ==> !Before(e, entries[i])
        invariant forall i :: hi <= i < |entries| ==> Before(e, entries[i])
      {
        var mid := (lo + hi) / 2;
        if !Before(e, entries[mid]) {
          forall i | 0 <= i < mid ensures !Before(e, entries[i]) {
            assert Before(entries[i], entries[mid]);
          }
          lo := mid + 1;
        } else {
          forall i | mid <= i < |entries| ensures Before(e, entries[i]) {
            assert i == mid || Before(entries[mid], entries[i]);
          }
          hi := mid;
        }
      }
      index := lo;
    }

    method Push(job: Job)
      requires Valid()
      modifies this
      ensures Valid()
      ensures entries == Insert(old(entries), Entry(job, old(nextSeq)))
      ensures exists k :: Placed(old(entries), Entry(job, old(nextSeq)), k, entries)
      ensures nextSeq == old(nextSeq) + 1
    {
      var e := Entry(job, nextSeq);
      var index := PartitionPoint(e);
      InsertSplits(entries, e, index);
      ghost var k := InsertKeepsOrder(entries, e);
      nextSeq := nextSeq + 1;
      ghost var before := entries;
      entries := entries[..index] + [e] + entries[index..];
      assert Placed(before, e, k, entries);
    }

    /** Pops the first job in dispatch order whose readiness check passes. */
    method PopReady(isReady: JobId -> bool) returns (job: Job, found: bool)
      requires Valid()
      modifies this
      ensures Valid() && nextSeq == old(nextSeq)
      ensures found <==> FirstIndex(old(entries), isReady) < |old(entries)|
      ensures found ==> job == old(entries)[FirstIndex(old(entries), isReady)].job
                        && entries == RemoveAt(old(entries), FirstIndex(old(entries), isReady))
      ensures !found ==> entries == old(entries)
      ensures found && job.priority != Critical ==>
                forall i :: 0 <= i < |old(entries)| && isReady(old(entries)[i].job.id) ==> old(entries)[i].job.priority != Critical
      ensures found && (job.priority == Normal || job.priority == Low) ==>
                forall i :: 0 <= i < |old(entries)| && isReady(old(entries)[i].job.id) ==> old(entries)[i].job.priority != High
      ensures found && job.priority == Low ==>
                forall i :: 0 <= i < |old(entries)| && isReady(old(entries)[i].job.id) ==> old(entries)[i].job.priority == Low
    {
      job, found := Job(0, Low), false;
      for i := 0 to |entries|
        invariant forall j :: 0 <= j < i ==> !isReady(entries[j].job.id)
        invariant entries == old(entries) && !found
      {
        if isReady(entries[i].job.id) {
          FirstIndexUnique(entries, isReady, i);
          MostUrgentFirst(entries, isReady);
          RemoveKeepsOrder(entries, i, nextSeq);
          job, found := entries[i].job, true;
          entries := RemoveAt(entries, i);
          return;
        }
      }
      FirstIndexUnique(entries, isReady, |entries|);
    }

    /** Takes a queued job out by id. */
    method Remove(id: JobId) returns (job: Job, found: bool)
      requires Valid()
      modifies this
      ensures Valid() && nextSeq == old(nextSeq)
      ensures found <==> FirstIndex(old(entries), SameId(id)) < |old(entries)|
      ensures found ==> job == old(entries)[FirstIndex(old(entries), SameId(id))].job
                        && entries == RemoveAt(old(entries), FirstIndex(old(entries), SameId(id)))
      ensures !found ==> entries == old(entries)
    {
      job, found := PopReady(SameId(id));
    }
  }

  // ----- Whole runs of the queue -----

  datatype Op =
    | Push(job: Job)
    | Pop(ready: JobId -> bool)
    | Take(id: JobId)

  datatype Queue = Queue(entries: seq<Entry>, nextSeq: nat) {
    ghost predicate Valid() {
      Sorted(entries) && NumberedBelow(entries, nextSeq)
    }

    function Without(test: JobId -> bool): Queue {
      var index := FirstIndex(entries, test);
      if index < |entries| then Queue(RemoveAt(entries, index), nextSeq) else this
    }

    function Apply(op: Op): Queue {
      match op
      case Push(job) => Queue(Insert(entries, Entry(job, nextSeq)), nextSeq + 1)
      case Pop(ready) => Without(ready)
      case Take(id) => Without(SameId(id))
    }

    function Run(ops: seq<Op>): Queue
      decreases |ops|
    {
      if ops == [] then this else Apply(ops[0]).Run(ops[1..])
    }
  }

  /** `a` passes the readiness check of every pop, and nobody takes `b` out by id. */
  ghost predicate StaysReady(ops: seq<Op>, a: Entry, b: Entry) {
    forall i :: 0 <= i < |ops| ==>
      (ops[i].Pop? ==> ops[i].ready(a.job.id)) && (ops[i].Take? ==> ops[i].id != b.job.id)
  }

  lemma ApplyKeepsValid(q: Queue, op: Op)
    requires q.Valid()
    ensures q.Apply(op).Valid()
    ensures op.Push? ==> forall e :: e in q.Apply(op).entries <==> e in q.entries || e == Entry(op.job, q.nextSeq)
  {
    match op
    case Push(job) =>
      var k := InsertKeepsOrder(q.entries, Entry(job, q.nextSeq));
      assert q.entries == q.entries[..k] + q.entries[k..];
    case Pop(ready) =>
      var index := FirstIndex(q.entries, ready);
      if index < |q.entries| { RemoveKeepsOrder(q.entries, index, q.nextSeq); }
    case Take(id) =>
      var index := FirstIndex(q.entries, SameId(id));
      if index < |q.entries| { RemoveKeepsOrder(q.entries, index, q.nextSeq); }
  }

  /** If the scan stops at `b`, no entry that dispatches ahead of `b` passed the test. */
  lemma ScanStopsEarlier(entries: seq<Entry>, test: JobId -> bool, a: Entry, b: Entry)
    requires Sorted(entries) && a in entries && Before(a, b)
    requires FirstIndex(entries, test) < |entries| && entries[FirstIndex(entries, test)] == b
    ensures !test(a.job.id)
  {
    var i :| 0 <= i < |entries| && entries[i] == a;
    var index := FirstIndex(entries, test);
    FirstIndexIsFirst(entries, test);
    assert index <= i ==> index == i || Before(entries[index], entries[i]);
  }

  /** Over any run, a job that stays ready leaves the queue before every job it dispatches ahead
      of: higher priority first, submission order within a priority. */
  lemma {:induction false} DispatchOrder(q: Queue, ops: seq<Op>, a: Entry, b: Entry)
    requires q.Valid() && Before(a, b)
    requires a.seqNo < q.nextSeq && b.seqNo < q.nextSeq
    requires a in q.entries ==> b in q.entries
    requires StaysReady(ops, a, b)
    ensures q.Run(ops).Valid()
    ensures a in q.Run(ops).entries ==> b in q.Run(ops).entries
    decreases |ops|
  {
    if ops == [] {
    } else {
      var op := ops[0];
      var next := q.Apply(op);
      ApplyKeepsValid(q, op);
      if !op.Push? {
        var test := if op.Pop? then op.ready else SameId(op.id);
        var index := FirstIndex(q.entries, test);
        if index < |q.entries| {
          RemoveKeepsOrder(q.entries, index, q.nextSeq);
          FirstIndexIsFirst(q.entries, test);
          if op.Pop? && q.entries[index] == b && a in q.entries {
            ScanStopsEarlier(q.entries, op.ready, a, b);
          }
        }
      }
      assert a in next.entries ==> b in next.entries;
      assert StaysReady(ops[1..], a, b) by {
        forall i | 0 <= i < |ops[1..]|
          ensures (ops[1..][i].Pop? ==> ops[1..][i].ready(a.job.id)) && (ops[1..][i].Take? ==> ops[1..][i].id != b.job.id)
        {
          assert ops[1..][i] == ops[i + 1];
        }
      }
      DispatchOrder(next, ops[1..], a, b);
    }
  }

  /** `a` is to be dispatched before `b`: Critical before all others, High before Normal and Low, Normal
      before Low, and in submission order within a priority. */
  predicate Ahead(a: Entry, b: Entry) {
    var p, q := a.job.priority, b.job.priority;
    || (p == Critical && q != Critical)
    || (p == High && (q == Normal || q == Low))
    || (p == Normal && q == Low)
    || (p == q && a.seqNo < b.seqNo)
  }

  /** A job that stays ready leaves before every job that is behind it in that order. */
  lemma UrgentLeavesFirst(q: Queue, ops: seq<Op>, a: Entry, b: Entry)
    requires q.Valid() && Ahead(a, b) && a in q.entries && b in q.entries && StaysReady(ops, a, b)
    ensures a in q.Run(ops).entries ==> b in q.Run(ops).entries
  {
    DispatchOrder(q, ops, a, b);
  }
}
