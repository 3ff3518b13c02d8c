/** Crash recovery: the jobs that an earlier pipeline left Pending or Running are submitted again. */
module Recoveries {
  import opened Bytes
  import opened JobStates
  import opened Jobs
  import opened JobTables
  import opened Resubmissions

  type Db = map<u64, JobRecord>

  // ----- What a recovery has done so far -----

  /** Every record of `db0` is as it was, except that those of `done` were submitted again (and
      written again, if the database is attached) and those of `lost` are gone. */
  ghost predicate Redone(again: Resubmitter, db0: Db, db: Db, done: set<u64>, lost: set<u64>, attached: bool) {
    && done !! lost
    && (forall id :: id in done + lost ==> id in db0 && Due(again, db0[id]))
    && (forall id :: id in db ==> id in db0 && id !in lost)
    && (forall id :: id in db0 && id !in done + lost ==> id in db && db[id] == db0[id])
    && (forall id :: id in done ==> if attached then id in db && Rewritten(again, db0[id], db[id]) else id !in db)
  }

  lemma RedoneTwice(again: Resubmitter, db0: Db, db1: Db, db2: Db, done1: set<u64>, done2: set<u64>, lost: set<u64>, attached: bool)
    requires Redone(again, db0, db1, done1, {}, attached)
    requires Redone(again, db1, db2, done2, lost, attached)
    requires done1 !! done2 + lost
    ensures Redone(again, db0, db2, done1 + done2, lost, attached)
  {
  }

  /** A committed state of an attached database in the middle of a recovery of the records `due`:
      at most one of them is missing. */
  ghost predicate Interrupted(again: Resubmitter, db0: Db, db: Db, due: set<u64>) {
    exists done: set<u64>, lost: set<u64> :: |lost| <= 1 && done + lost <= due && Redone(again, db0, db, done, lost, true)
  }

  ghost predicate AllInterrupted(again: Resubmitter, db0: Db, history: seq<Db>, due: set<u64>) {
    forall k :: 0 <= k < |history| ==> Interrupted(again, db0, history[k], due)
  }

  lemma StillInterrupted(again: Resubmitter, db0: Db, db: Db, done: set<u64>, lost: set<u64>, due: set<u64>)
    requires |lost| <= 1 && done + lost <= due && Redone(again, db0, db, done, lost, true)
    ensures Interrupted(again, db0, db, due)
  {
  }

  /** Deleting one more record, and writing it again. */
  lemma OneDeleted(again: Resubmitter, db0: Db, db: Db, done: set<u64>, id: u64, attached: bool)
    requires Redone(again, db0, db, done, {}, attached) && id in db0 && Due(again, db0[id]) && id !in done
    ensures Redone(again, db0, db - {id}, done, {id}, attached)
    ensures !attached ==> Redone(again, db0, db - {id}, done + {id}, {}, attached)
  {
  }

  lemma OneRewritten(again: Resubmitter, db0: Db, db: Db, done: set<u64>, id: u64, r: JobRecord)
    requires Redone(again, db0, db, done, {id}, true) && Rewritten(again, db0[id], r)
    ensures Redone(again, db0, db[id := r], done + {id}, {}, true)
  {
  }

  // ----- The history of the database -----

  /** One record deleted, or one written. */
  ghost predicate WriteAt(a: Db, b: Db, id: u64) {
    (id in a && b == a - {id}) || (id in b && b == a[id := b[id]])
  }

  ghost predicate OneWrite(a: Db, b: Db) {
    exists id: u64 :: WriteAt(a, b, id)
  }

  /** `states` are the states after each write on the way from `a` to `b`. */
  ghost predicate History(a: Db, states: seq<Db>, b: Db) {
    && (if states == [] then b == a else OneWrite(a, states[0]) && b == states[|states| - 1])
    && forall i :: 0 <= i < |states| - 1 ==> OneWrite(states[i], states[i + 1])
  }

  lemma HistoryAppend(a: Db, first: seq<Db>, b: Db, second: seq<Db>, c: Db)
    requires History(a, first, b) && History(b, second, c)
    ensures History(a, first + second, c)
  {
    var states := first + second;
    forall i | 0 <= i < |states| - 1 ensures OneWrite(states[i], states[i + 1]) {
      if i < |first| - 1 {
        assert OneWrite(first[i], first[i + 1]);
      } else if i >= |first| {
        assert OneWrite(second[i - |first|], second[i - |first| + 1]);
      }
    }
  }

  // ----- Listing -----

  /** The records in one state, in ascending order of identifier. */
  function Listing(order: seq<u64>, db: Db, state: JobState): seq<JobRecord> {
    if order == [] then []
    else
      var id := order[|order| - 1];
      Listing(order[..|order| - 1], db, state) + (if id in db && db[id].state == state then [db[id]] else [])
  }

  /** It is the listing that the job table gives from its rows. */
  lemma {:induction false} ListingMatches(jobs: seq<JobRecord>, order: seq<u64>, db: Db, state: JobState)
    requires Lists(jobs, order, db)
    ensures Listing(order, db, state) == InState(jobs, state)
  {
    if order == [] {
    } else {
      ListingMatches(jobs[..|jobs| - 1], order[..|order| - 1], db, state);
    }
  }

  lemma TableListing(order: seq<u64>, rows: map<u64, seq<byte>>, state: JobState)
    requires Ascending(order, rows.Keys) && AllDecode(rows)
    ensures DecodeAll(Decoded, order, rows).Ok?
    ensures Listing(order, Records(rows), state) == InState(DecodeAll(Decoded, order, rows).value, state)
  {
    ListingIff(order, rows);
    ListingMatches(DecodeAll(Decoded, order, rows).value, order, Records(rows), state);
  }

  /** The jobs of the records that can be rebuilt. */
  function JobsOf(again: Resubmitter, records: seq<JobRecord>): seq<PipelineJob> {
    if records == [] then []
    else
      var last := again(records[|records| - 1]);
      JobsOf(again, records[..|records| - 1]) + (if last.Some? then [last.value.job] else [])
  }

  lemma JobsOfOneMore(again: Resubmitter, records: seq<JobRecord>, i: nat)
    requires i < |records|
    ensures JobsOf(again, records[..i + 1])
            == JobsOf(again, records[..i]) + if again(records[i]).Some? then [again(records[i]).value.job] else []
  {
    assert records[..i + 1][..i] == records[..i];
  }

  predicate Distinct(order: seq<u64>) {
    forall i, j :: 0 <= i < j < |order| ==> order[i] != order[j]
  }

  predicate DistinctRecords(records: seq<JobRecord>) {
    forall i, j :: 0 <= i < j < |records| ==> records[i].jobId != records[j].jobId
  }

  ghost predicate Keyed(db: Db) {
    forall id :: id in db ==> db[id].jobId == id
  }

  ghost predicate ListedIn(records: seq<JobRecord>, db: Db) {
    && DistinctRecords(records)
    && forall r :: r in records ==> r.jobId in db && db[r.jobId] == r && (r.state == Pending || r.state == Running)
  }

  lemma {:induction false} ListedRecord(order: seq<u64>, db: Db, state: JobState, r: JobRecord)
    requires Keyed(db) && r in Listing(order, db, state)
    ensures r.jobId in order && r.jobId in db && db[r.jobId] == r && r.state == state
  {
    var rest := order[..|order| - 1];
    if r !in Listing(rest, db, state) {
    } else {
      ListedRecord(rest, db, state, r);
      assert order == rest + [order[|order| - 1]];
    }
  }

  lemma DistinctOneMore(records: seq<JobRecord>, r: JobRecord)
    requires DistinctRecords(records) && forall other :: other in records ==> other.jobId != r.jobId
    ensures DistinctRecords(records + [r])
  {
  }

  lemma {:induction false} ListingDistinct(order: seq<u64>, db: Db, state: JobState)
    requires Distinct(order) && Keyed(db)
    ensures DistinctRecords(Listing(order, db, state))
  {
    if order == [] {
    } else {
      var rest, last := order[..|order| - 1], order[|order| - 1];
      ListingDistinct(rest, db, state);
      if last in db && db[last].state == state {
        forall other | other in Listing(rest, db, state) ensures other.jobId != last {
          ListedRecord(rest, db, state, other);
          var k :| 0 <= k < |rest| && rest[k] == other.jobId;
          assert order[k] == other.jobId;
        }
        DistinctOneMore(Listing(rest, db, state), db[last]);
      }
    }
  }

  lemma ListingSound(order: seq<u64>, db: Db, state: JobState)
    requires Distinct(order) && Keyed(db)
    ensures forall r :: r in Listing(order, db, state) ==>
              r.jobId in order && r.jobId in db && db[r.jobId] == r && r.state == state
    ensures DistinctRecords(Listing(order, db, state))
  {
    ListingDistinct(order, db, state);
    forall r | r in Listing(order, db, state)
      ensures r.jobId in order && r.jobId in db && db[r.jobId] == r && r.state == state
    {
      ListedRecord(order, db, state, r);
    }
  }

  lemma ListingIsIn(order: seq<u64>, db: Db, state: JobState)
    requires Distinct(order) && Keyed(db) && (state == Pending || state == Running)
    ensures ListedIn(Listing(order, db, state), db)
  {
    ListingSound(order, db, state);
  }

  lemma {:induction false} ListingComplete(order: seq<u64>, db: Db, state: JobState, id: u64)
    requires id in order && id in db && db[id].state == state
    ensures db[id] in Listing(order, db, state)
  {
    if id == order[|order| - 1] {
    } else {
      ListingComplete(order[..|order| - 1], db, state, id);
    }
  }

  lemma {:induction false} ListingSame(order: seq<u64>, db0: Db, db1: Db, state: JobState)
    requires forall id :: (id in db0 && db0[id].state == state) <==> (id in db1 && db1[id].state == state)
    requires forall id :: id in db0 && db0[id].state == state ==> db1[id] == db0[id]
    ensures Listing(order, db1, state) == Listing(order, db0, state)
  {
    if order == [] {
    } else {
      ListingSame(order[..|order| - 1], db0, db1, state);
    }
  }

  lemma NotDoneYet(again: Resubmitter, records: seq<JobRecord>, i: nat)
    requires i < |records| && DistinctRecords(records)
    ensures records[i].jobId !in DueIds(again, records[..i])
    ensures again(records[i]).Some? ==> records[i].jobId in DueIds(again, records)
  {
    forall r | r in records[..i] ensures r.jobId != records[i].jobId {
      var k :| 0 <= k < i && records[k] == r;
    }
    assert records[i] in records;
  }

  ghost function DueIds(again: Resubmitter, records: seq<JobRecord>): set<u64> {
    set r | r in records && again(r).Some? :: r.jobId
  }

  lemma {:induction false} DueIdsOneMore(again: Resubmitter, records: seq<JobRecord>, i: nat)
    requires i < |records|
    ensures DueIds(again, records[..i + 1])
            == DueIds(again, records[..i]) + if again(records[i]).Some? then {records[i].jobId} else {}
    ensures DueIds(again, records[..i + 1]) <= DueIds(again, records)
  {
    assert forall r :: r in records[..i + 1] <==> r in records[..i] || r == records[i];
    assert forall r :: r in records[..i + 1] ==> r in records;
  }

  /** One record deleted, and its resubmission written if the database is attached. */
  ghost predicate OneRecovered(s: Submission, before: Db, after: Db, written: bool, states: seq<Db>) {
    var id, deleted := s.job.id, before - {s.job.id};
    if written then
      && id in after && after == deleted[id := after[id]]
      && after[id] == s.record.(createdMs := after[id].createdMs, updatedMs := after[id].updatedMs)
      && states == [deleted, after]
    else after == deleted && states == [deleted]
  }

  lemma OneRecoveredHistory(s: Submission, before: Db, after: Db, written: bool, states: seq<Db>)
    requires OneRecovered(s, before, after, written, states) && s.job.id in before
    ensures History(before, states, after) && |states| == if written then 2 else 1
  {
    var deleted := before - {s.job.id};
    assert WriteAt(before, deleted, s.job.id);
    if written {
      assert WriteAt(deleted, after, s.job.id);
    }
  }

  lemma AttachedStep(again: Resubmitter, db0: Db, before: Db, after: Db, done: set<u64>, due: set<u64>, id: u64, states: seq<Db>)
    requires Redone(again, db0, before, done, {}, true) && done <= due && id in due && id !in done
    requires id in db0 && Due(again, db0[id]) && id in after && Rewritten(again, db0[id], after[id])
    requires after == (before - {id})[id := after[id]] && states == [before - {id}, after]
    ensures Redone(again, db0, after, done + {id}, {}, true)
    ensures AllInterrupted(again, db0, states, due)
  {
    OneDeleted(again, db0, before, done, id, true);
    OneRewritten(again, db0, before - {id}, done, id, after[id]);
    BothInterrupted(again, db0, before - {id}, after, done, due, id);
  }

  lemma BothInterrupted(again: Resubmitter, db0: Db, deleted: Db, after: Db, done: set<u64>, due: set<u64>, id: u64)
    requires done <= due && id in due
    requires Redone(again, db0, deleted, done, {id}, true) && Redone(again, db0, after, done + {id}, {}, true)
    ensures AllInterrupted(again, db0, [deleted, after], due)
  {
    var states := [deleted, after];
    forall k | 0 <= k < |states| ensures Interrupted(again, db0, states[k], due) {
      if k == 0 {
        StillInterrupted(again, db0, deleted, done, {id}, due);
      } else {
        StillInterrupted(again, db0, after, done + {id}, {}, due);
      }
    }
  }

  /** A pipeline as recovery sees it. */
  datatype Store = Store(db: Db, enqueued: seq<PipelineJob>, attached: bool, shutdown: bool)

  /** `jobs` were submitted again, from the records `done` out of those of the pass, `due`. `states` is
      the whole history of the database on the way: one delete and, if it is attached, one insert for
      each job; and every state of it could be recovered from. */
  ghost predicate Resubmitted(again: Resubmitter, jobs: seq<PipelineJob>, done: set<u64>, due: set<u64>, s: Store, s': Store, states: seq<Db>) {
    && s'.shutdown == s.shutdown && s'.attached == s.attached
    && s'.enqueued == s.enqueued + jobs
    && Redone(again, s.db, s'.db, done, {}, s.attached)
    && History(s.db, states, s'.db) && |states| == (if s.attached then 2 else 1) * |jobs|
    && (s.attached ==> AllInterrupted(again, s.db, states, due))
  }

  /** What a pass comes to: everything is submitted again; or, in a pipeline that is shutting down,
      the first record is deleted and its job refused. */
  ghost predicate Outcome(again: Resubmitter, jobs: seq<PipelineJob>, due: set<u64>, s: Store, s': Store, result: Result<nat>, states: seq<Db>) {
    if !s.shutdown then
      result == Ok(|jobs|) && Resubmitted(again, jobs, due, due, s, s', states)
    else if jobs == [] then
      result == Ok(0) && s' == s && states == []
    else
      result == Err && s' == s.(db := s.db - {jobs[0].id}) && states == [s'.db]
  }

  /** The same in the middle of a pass. */
  ghost predicate Underway(again: Resubmitter, records: seq<JobRecord>, i: nat, s: Store, s': Store, recovered: nat, states: seq<Db>) {
    && i <= |records|
    && recovered == |JobsOf(again, records[..i])|
    && if s.shutdown then JobsOf(again, records[..i]) == [] && s' == s && states == []
       else Resubmitted(again, JobsOf(again, records[..i]), DueIds(again, records[..i]), DueIds(again, records), s, s', states)
  }

  lemma PassBegins(again: Resubmitter, records: seq<JobRecord>, s: Store)
    ensures Underway(again, records, 0, s, s, 0, [])
  {
    assert JobsOf(again, records[..0]) == [] && s.enqueued + [] == s.enqueued;
    assert DueIds(again, records[..0]) == {};
  }

  lemma PassSkips(again: Resubmitter, records: seq<JobRecord>, i: nat, s: Store, s': Store, recovered: nat, states: seq<Db>)
    requires Underway(again, records, i, s, s', recovered, states) && i < |records| && again(records[i]) == None
    ensures Underway(again, records, i + 1, s, s', recovered, states)
  {
    JobsOfOneMore(again, records, i);
    DueIdsOneMore(again, records, i);
  }

  lemma PassSteps(again: Resubmitter, records: seq<JobRecord>, i: nat, s: Store, t: Store, t': Store, recovered: nat, states: seq<Db>, more: seq<Db>)
    requires Sound(again) && ListedIn(records, s.db) && Underway(again, records, i, s, t, recovered, states)
    requires i < |records| && again(records[i]).Some? && !s.shutdown && !t'.shutdown && t'.attached == t.attached
    requires t'.enqueued == t.enqueued + [again(records[i]).value.job]
    requires OneRecovered(again(records[i]).value, t.db, t'.db, t.attached, more)
    ensures Underway(again, records, i + 1, s, t', recovered + 1, states + more)
  {
    assert records[i] in records;
    NotDoneYet(again, records, i);
    DueIdsOneMore(again, records, i);
    JobsOfOneMore(again, records, i);
    OneMoreResubmitted(again, JobsOf(again, records[..i]), DueIds(again, records[..i]), DueIds(again, records), records[i],
                       s, t, t', states, more);
  }

  lemma OneMoreResubmitted(again: Resubmitter, jobs: seq<PipelineJob>, done: set<u64>, due: set<u64>, r: JobRecord,
                           s: Store, t: Store, t': Store, states: seq<Db>, more: seq<Db>)
    requires Sound(again) && Resubmitted(again, jobs, done, due, s, t, states) && again(r).Some?
    requires r.jobId in s.db && s.db[r.jobId] == r && Due(again, r) && r.jobId !in done && done <= due && r.jobId in due
    requires t'.shutdown == t.shutdown && t'.attached == t.attached && t'.enqueued == t.enqueued + [again(r).value.job]
    requires OneRecovered(again(r).value, t.db, t'.db, t.attached, more)
    ensures Resubmitted(again, jobs + [again(r).value.job], done + {r.jobId}, due, s, t', states + more)
  {
    assert s.enqueued + jobs + [again(r).value.job] == s.enqueued + (jobs + [again(r).value.job]);
    StepRedone(again, r, done, due, s.db, t.db, t'.db, t.attached, states, more);
    StepHistory(again(r).value, s.db, t.db, t'.db, t.attached, states, more);
  }

  lemma StepHistory(sub: Submission, db0: Db, db: Db, db': Db, attached: bool, states: seq<Db>, more: seq<Db>)
    requires OneRecovered(sub, db, db', attached, more) && sub.job.id in db && History(db0, states, db)
    ensures History(db0, states + more, db') && |states + more| == |states| + if attached then 2 else 1
  {
    OneRecoveredHistory(sub, db, db', attached, more);
    HistoryAppend(db0, states, db, more, db');
  }

  lemma StepRedone(again: Resubmitter, r: JobRecord, done: set<u64>, due: set<u64>, db0: Db, db: Db, db': Db,
                   attached: bool, states: seq<Db>, more: seq<Db>)
    requires Sound(again) && again(r).Some? && Redone(again, db0, db, done, {}, attached)
    requires r.jobId in db0 && db0[r.jobId] == r && Due(again, r) && r.jobId !in done && done <= due && r.jobId in due
    requires OneRecovered(again(r).value, db, db', attached, more)
    requires attached ==> AllInterrupted(again, db0, states, due)
    ensures r.jobId in db
    ensures Redone(again, db0, db', done + {r.jobId}, {}, attached)
    ensures attached ==> AllInterrupted(again, db0, states + more, due)
  {
    if attached {
      AttachedStep(again, db0, db, db', done, due, r.jobId, more);
    } else {
      OneDeleted(again, db0, db, done, r.jobId, false);
    }
  }

  lemma PassRefused(again: Resubmitter, records: seq<JobRecord>, i: nat, s: Store, t: Store, t': Store, recovered: nat, states: seq<Db>)
    requires Sound(again) && Underway(again, records, i, s, t, recovered, states) && s.shutdown
    requires i < |records| && again(records[i]).Some? && t' == t.(db := t.db - {records[i].jobId})
    ensures Outcome(again, JobsOf(again, records), DueIds(again, records), s, t', Err, [t'.db])
  {
    JobsOfOneMore(again, records, i);
    JobsOfPrefix(again, records, i + 1);
  }

  lemma PassEnds(again: Resubmitter, records: seq<JobRecord>, s: Store, s': Store, recovered: nat, states: seq<Db>)
    requires Underway(again, records, |records|, s, s', recovered, states)
    ensures Outcome(again, JobsOf(again, records), DueIds(again, records), s, s', Ok(recovered), states)
  {
    assert records[..|records|] == records;
  }

  lemma {:induction false} JobsOfPrefix(again: Resubmitter, records: seq<JobRecord>, i: nat)
    requires i <= |records|
    ensures JobsOf(again, records[..i]) <= JobsOf(again, records)
  {
    if i < |records| {
      JobsOfPrefix(again, records[..|records| - 1], i);
      assert records[..|records| - 1][..i] == records[..i];
    } else {
      assert records[..i] == records;
    }
  }

  lemma {:induction false} JobsOfComplete(again: Resubmitter, records: seq<JobRecord>, r: JobRecord)
    requires r in records && again(r).Some?
    ensures again(r).value.job in JobsOf(again, records)
  {
    if r == records[|records| - 1] {
    } else {
      JobsOfComplete(again, records[..|records| - 1], r);
    }
  }

  lemma {:induction false} JobsOfSound(again: Resubmitter, records: seq<JobRecord>, job: PipelineJob) returns (r: JobRecord)
    requires Sound(again) && job in JobsOf(again, records)
    ensures r in records && again(r).Some? && again(r).value.job == job && r.jobId == job.id
  {
    var rest, last := records[..|records| - 1], records[|records| - 1];
    if job in JobsOf(again, rest) {
      r := JobsOfSound(again, rest, job);
    } else {
      r := last;
    }
  }

  ghost predicate DistinctJobs(jobs: seq<PipelineJob>) {
    forall i, j :: 0 <= i < j < |jobs| ==> jobs[i].id != jobs[j].id
  }

  lemma DistinctAppend(a: seq<PipelineJob>, b: seq<PipelineJob>)
    requires DistinctJobs(a) && DistinctJobs(b) && forall x, y :: x in a && y in b ==> x.id != y.id
    ensures DistinctJobs(a + b)
  {
    var c := a + b;
    forall i, j | 0 <= i < j < |c| ensures c[i].id != c[j].id {
      assert i < |a| ==> c[i] == a[i] && a[i] in a;
      assert i >= |a| ==> c[i] == b[i - |a|];
      assert j < |a| ==> c[j] == a[j];
      assert j >= |a| ==> c[j] == b[j - |a|] && b[j - |a|] in b;
    }
  }

  lemma {:induction false} JobsOfDistinct(again: Resubmitter, records: seq<JobRecord>)
    requires Sound(again) && DistinctRecords(records)
    ensures DistinctJobs(JobsOf(again, records))
  {
    if records == [] {
    } else {
      var rest, last := records[..|records| - 1], records[|records| - 1];
      JobsOfDistinct(again, rest);
      if again(last).Some? {
        forall job | job in JobsOf(again, rest) ensures job.id != last.jobId {
          var r := JobsOfSound(again, rest, job);
          var k :| 0 <= k < |rest| && rest[k] == r;
        }
        DistinctAppend(JobsOf(again, rest), [again(last).value.job]);
      }
    }
  }

  ghost predicate Covers(order: seq<u64>, db: Db) {
    forall id :: id in db ==> id in order
  }

  ghost function AllDue(again: Resubmitter, db: Db): set<u64> {
    set id | id in db && Due(again, db[id])
  }

  /** The jobs of the Pending records, then those of the Running ones. */
  function Recovered(again: Resubmitter, order: seq<u64>, db: Db): seq<PipelineJob> {
    JobsOf(again, Listing(order, db, Pending)) + JobsOf(again, Listing(order, db, Running))
  }

  lemma DueIdsOf(again: Resubmitter, order: seq<u64>, db: Db, state: JobState)
    requires Distinct(order) && Keyed(db) && Covers(order, db)
    ensures DueIds(again, Listing(order, db, state)) == set id | id in db && db[id].state == state && again(db[id]).Some?
  {
    ListingSound(order, db, state);
    forall id | id in db && db[id].state == state ensures db[id] in Listing(order, db, state) {
      ListingComplete(order, db, state, id);
    }
  }

  /** The first pass does not change what the second one lists. */
  lemma SecondListing(again: Resubmitter, order: seq<u64>, db0: Db, db1: Db, attached: bool)
    requires Sound(again) && Distinct(order) && Keyed(db0) && Covers(order, db0)
    requires Redone(again, db0, db1, DueIds(again, Listing(order, db0, Pending)), {}, attached)
    ensures Listing(order, db1, Running) == Listing(order, db0, Running)
    ensures Keyed(db1) && Covers(order, db1)
  {
    DueIdsOf(again, order, db0, Pending);
    ListingSame(order, db0, db1, Running);
  }

  lemma InterruptedLater(again: Resubmitter, db0: Db, db1: Db, db: Db, done: set<u64>, due: set<u64>, all: set<u64>)
    requires Redone(again, db0, db1, done, {}, true) && Interrupted(again, db1, db, due)
    requires done !! due && done + due <= all
    ensures Interrupted(again, db0, db, all)
  {
    var done2: set<u64>, lost: set<u64> :| |lost| <= 1 && done2 + lost <= due && Redone(again, db1, db, done2, lost, true);
    RedoneTwice(again, db0, db1, db, done, done2, lost, true);
    StillInterrupted(again, db0, db, done + done2, lost, all);
  }

  lemma BothHistories(again: Resubmitter, db0: Db, db1: Db, done1: set<u64>, done2: set<u64>, states1: seq<Db>, states2: seq<Db>)
    requires Redone(again, db0, db1, done1, {}, true) && done1 !! done2
    requires AllInterrupted(again, db0, states1, done1) && AllInterrupted(again, db1, states2, done2)
    ensures AllInterrupted(again, db0, states1 + states2, done1 + done2)
  {
    var all, states := done1 + done2, states1 + states2;
    forall k | 0 <= k < |states| ensures Interrupted(again, db0, states[k], all) {
      if k < |states1| {
        InterruptedMore(again, db0, states1[k], done1, all);
      } else {
        InterruptedLater(again, db0, db1, states2[k - |states1|], done1, done2, all);
      }
    }
  }

  ghost predicate Listed(again: Resubmitter, order: seq<u64>, db: Db) {
    Sound(again) && Distinct(order) && Keyed(db) && Covers(order, db)
  }

  /** What the first pass leaves for the second. */
  lemma FirstPassDone(again: Resubmitter, order: seq<u64>, s: Store, s1: Store, result: Result<nat>, states: seq<Db>)
    requires Listed(again, order, s.db)
    requires Outcome(again, JobsOf(again, Listing(order, s.db, Pending)), DueIds(again, Listing(order, s.db, Pending)), s, s1, result, states)
    requires result.Ok?
    ensures Listing(order, s1.db, Running) == Listing(order, s.db, Running) && Listed(again, order, s1.db)
    ensures s1.shutdown == s.shutdown
  {
    if !s.shutdown {
      SecondListing(again, order, s.db, s1.db, s.attached);
    }
  }

  lemma BothPasses(again: Resubmitter, order: seq<u64>, s: Store, s1: Store, s2: Store,
                   n1: nat, result: Result<nat>, states1: seq<Db>, states2: seq<Db>)
    requires Listed(again, order, s.db)
    requires Outcome(again, JobsOf(again, Listing(order, s.db, Pending)), DueIds(again, Listing(order, s.db, Pending)), s, s1, Ok(n1), states1)
    requires Outcome(again, JobsOf(again, Listing(order, s.db, Running)), DueIds(again, Listing(order, s.db, Running)), s1, s2, result, states2)
    ensures Outcome(again, Recovered(again, order, s.db), AllDue(again, s.db), s, s2,
                    if result.Ok? then Ok(n1 + result.value) else Err, states1 + states2)
  {
    var p, r := JobsOf(again, Listing(order, s.db, Pending)), JobsOf(again, Listing(order, s.db, Running));
    var done1, done2 := DueIds(again, Listing(order, s.db, Pending)), DueIds(again, Listing(order, s.db, Running));
    AllDueSplits(again, order, s.db);
    OutcomesCompose(again, p, r, done1, done2, s, s1, s2, n1, result, states1, states2);
  }

  lemma AllDueSplits(again: Resubmitter, order: seq<u64>, db: Db)
    requires Listed(again, order, db)
    ensures var done1, done2 := DueIds(again, Listing(order, db, Pending)), DueIds(again, Listing(order, db, Running));
            done1 !! done2 && done1 + done2 == AllDue(again, db)
  {
    DueIdsOf(again, order, db, Pending);
    DueIdsOf(again, order, db, Running);
  }

  lemma OutcomesCompose(again: Resubmitter, p: seq<PipelineJob>, r: seq<PipelineJob>, done1: set<u64>, done2: set<u64>,
                        s: Store, s1: Store, s2: Store, n1: nat, result: Result<nat>, states1: seq<Db>, states2: seq<Db>)
    requires done1 !! done2
    requires Outcome(again, p, done1, s, s1, Ok(n1), states1) && Outcome(again, r, done2, s1, s2, result, states2)
    ensures Outcome(again, p + r, done1 + done2, s, s2, if result.Ok? then Ok(n1 + result.value) else Err, states1 + states2)
  {
    if s.shutdown {
      assert p == [] && [] + r == r && states1 + states2 == states2;
    } else {
      assert s.enqueued + p + r == s.enqueued + (p + r);
      RedoneTwice(again, s.db, s1.db, s2.db, done1, done2, {}, s.attached);
      HistoryAppend(s.db, states1, s1.db, states2, s2.db);
      if s.attached {
        BothHistories(again, s.db, s1.db, done1, done2, states1, states2);
      }
    }
  }

  lemma InterruptedMore(again: Resubmitter, db0: Db, db: Db, due: set<u64>, all: set<u64>)
    requires Interrupted(again, db0, db, due) && due <= all
    ensures Interrupted(again, db0, db, all)
  {
  }

  // ----- The recovering pipeline -----

  /** A pipeline whose workers have not started: `submit` writes the record and pushes the job. */
  class Pipeline {
    /** The database given to recovery, and whether it is also the one attached for persistence. */
    var db: Db
    const attached: bool
    var shutdown: bool
    /** The jobs pushed on the queue, in order. */
    var enqueued: seq<PipelineJob>

    constructor (db: Db, attached: bool)
      ensures this.db == db && this.attached == attached && !shutdown && enqueued == []
    {
      this.db, this.attached, shutdown, enqueued := db, attached, false, [];
    }

    ghost function View(): Store reads this { Store(db, enqueued, attached, shutdown) }

    /** Refused only by a pipeline that is shutting down. */
    method Submit(s: Submission) returns (ok: bool)
      requires s.record.jobId == s.job.id
      modifies this
      ensures ok <==> !old(shutdown)
      ensures shutdown == old(shutdown)
      ensures enqueued == old(enqueued) + if ok then [s.job] else []
      ensures if ok && attached then
                && s.job.id in db && db == old(db)[s.job.id := db[s.job.id]]
                && db[s.job.id] == s.record.(createdMs := db[s.job.id].createdMs, updatedMs := db[s.job.id].updatedMs)
              else db == old(db)
    {
      if shutdown {
        return false;
      }
      if attached {
        var created: u64, now: u64 := *, *;
        db := db[s.job.id := s.record.(createdMs := created, updatedMs := now)];
      }
      enqueued := enqueued + [s.job];
      ok := true;
    }

    /** Deletes a record and submits its job again; `states` are the database states committed. */
    method RecoverOne(s: Submission) returns (ok: bool, ghost states: seq<Db>)
      requires s.record.jobId == s.job.id
      modifies this
      ensures ok <==> !old(shutdown)
      ensures shutdown == old(shutdown)
      ensures enqueued == old(enqueued) + if ok then [s.job] else []
      ensures OneRecovered(s, old(db), db, ok && attached, states)
    {
      db := db - {s.job.id};
      states := [db];
      ok := Submit(s);
      if ok && attached {
        states := states + [db];
      }
    }

    /** One pass over a listing. */
    method RecoverListed(again: Resubmitter, records: seq<JobRecord>) returns (result: Result<nat>, ghost states: seq<Db>)
      requires Sound(again) && ListedIn(records, db)
      modifies this
      ensures Outcome(again, JobsOf(again, records), DueIds(again, records), old(View()), View(), result, states)
    {
      var recovered := 0;
      states := [];
      PassBegins(again, records, View());
      for i := 0 to |records|
        invariant Underway(again, records, i, old(View()), View(), recovered, states)
      {
        ghost var before := View();
        var submission := again(records[i]);
        if submission == None {
          PassSkips(again, records, i, old(View()), before, recovered, states);
          continue;
        }
        var ok;
        ghost var more;
        ok, more := RecoverOne(submission.value);
        if !ok {
          PassRefused(again, records, i, old(View()), before, View(), recovered, states);
          return Err, more;
        }
        PassSteps(again, records, i, old(View()), before, View(), recovered, states, more);
        states := states + more;
        recovered := recovered + 1;
      }
      PassEnds(again, records, old(View()), View(), recovered, states);
      result := Ok(recovered);
    }

    /** The database holds the identifiers of `order`, in that order. Everything that was left
        Pending or Running and can be rebuilt is queued, Pending first, and nothing else; `states`
        are the database states committed on the way. */
    method RecoverInterrupted(again: Resubmitter, order: seq<u64>) returns (result: Result<nat>, ghost states: seq<Db>)
      requires Listed(again, order, db)
      modifies this
      ensures Outcome(again, Recovered(again, order, old(db)), AllDue(again, old(db)), old(View()), View(), result, states)
    {
      ghost var s := View();
      ListingIsIn(order, db, Pending);
      var pending := Listing(order, db, Pending);
      result, states := RecoverListed(again, pending);
      if result == Err {
        return;
      }
      var recovered := result.value;
      ghost var s1, states1 := View(), states;
      FirstPassDone(again, order, s, s1, result, states);
      ListingIsIn(order, db, Running);
      var running := Listing(order, db, Running);
      result, states := RecoverListed(again, running);
      BothPasses(again, order, s, s1, View(), recovered, result, states1, states);
      states := states1 + states;
      if result == Err {
        return;
      }
      result := Ok(recovered + result.value);
    }
  }

  // ----- What that means -----

  /** The jobs of one listing are those of the records to be recovered in that state. */
  lemma PassJobs(again: Resubmitter, order: seq<u64>, db: Db, state: JobState, job: PipelineJob)
    requires Sound(again) && Distinct(order) && Keyed(db) && Covers(order, db)
    ensures job in JobsOf(again, Listing(order, db, state)) <==>
              job.id in db && db[job.id].state == state && again(db[job.id]).Some? && again(db[job.id]).value.job == job
  {
    var l := Listing(order, db, state);
    ListingSound(order, db, state);
    if job in JobsOf(again, l) {
      var r := JobsOfSound(again, l, job);
    }
    if job.id in db && db[job.id].state == state && again(db[job.id]).Some? && again(db[job.id]).value.job == job {
      ListingComplete(order, db, state, job.id);
      JobsOfComplete(again, l, db[job.id]);
    }
  }

  /** Recovery queues exactly the jobs of the Pending and Running records that can be rebuilt, each
      exactly once. */
  lemma RecoveredExactlyOnce(again: Resubmitter, order: seq<u64>, db: Db)
    requires Sound(again) && Distinct(order) && Keyed(db) && Covers(order, db)
    ensures DistinctJobs(Recovered(again, order, db))
    ensures forall job :: job in Recovered(again, order, db) <==>
                            job.id in AllDue(again, db) && again(db[job.id]).value.job == job
  {
    var pending, running := Listing(order, db, Pending), Listing(order, db, Running);
    ListingSound(order, db, Pending);
    ListingSound(order, db, Running);
    JobsOfDistinct(again, pending);
    JobsOfDistinct(again, running);
    forall job: PipelineJob
      ensures job in JobsOf(again, pending) <==> job.id in AllDue(again, db) && db[job.id].state == Pending && again(db[job.id]).value.job == job
      ensures job in JobsOf(again, running) <==> job.id in AllDue(again, db) && db[job.id].state == Running && again(db[job.id]).value.job == job
    {
      PassJobs(again, order, db, Pending, job);
      PassJobs(again, order, db, Running, job);
    }
    DistinctAppend(JobsOf(again, pending), JobsOf(again, running));
  }

  /** Job `i` of the queue comes before job `j`: Pending records first, and ascending identifiers among
      those of one state. */
  ghost predicate InOrder(db: Db, a: u64, b: u64) {
    a in db && b in db && ((db[a].state == Pending && db[b].state == Running) || (db[a].state == db[b].state && a < b))
  }

  ghost predicate Ascend(jobs: seq<PipelineJob>) {
    forall i, j :: 0 <= i < j < |jobs| ==> jobs[i].id < jobs[j].id
  }

  lemma AscendOneMore(jobs: seq<PipelineJob>, job: PipelineJob)
    requires Ascend(jobs) && forall other :: other in jobs ==> other.id < job.id
    ensures Ascend(jobs + [job])
  {
  }

  lemma JobsOfBack(again: Resubmitter, front: seq<JobRecord>, r: JobRecord)
    ensures JobsOf(again, front + [r]) == JobsOf(again, front) + if again(r).Some? then [again(r).value.job] else []
  {
    assert (front + [r])[..|front|] == front;
  }

  /** Behind the jobs of a listing of smaller identifiers. */
  lemma PassGoesOn(again: Resubmitter, rest: seq<u64>, db: Db, state: JobState, r: JobRecord)
    requires Sound(again) && Keyed(db) && (forall id :: id in rest ==> id < r.jobId)
    requires Ascend(JobsOf(again, Listing(rest, db, state)))
    ensures Ascend(JobsOf(again, Listing(rest, db, state) + [r]))
  {
    var front := Listing(rest, db, state);
    var jobs := JobsOf(again, front);
    JobsOfBack(again, front, r);
    if again(r).Some? {
      forall other | other in jobs ensures other.id < again(r).value.job.id {
        var was := JobsOfSound(again, front, other);
        ListedRecord(rest, db, state, was);
      }
      AscendOneMore(jobs, again(r).value.job);
    } else {
      assert jobs + [] == jobs;
    }
  }

  lemma {:induction false} PassInOrder(again: Resubmitter, order: seq<u64>, db: Db, state: JobState)
    requires Sound(again) && Keyed(db) && (forall m, n :: 0 <= m < n < |order| ==> order[m] < order[n])
    ensures Ascend(JobsOf(again, Listing(order, db, state)))
  {
    if order == [] {
    } else {
      var rest, id := order[..|order| - 1], order[|order| - 1];
      PassInOrder(again, rest, db, state);
      if id in db && db[id].state == state {
        PassGoesOn(again, rest, db, state, db[id]);
      } else {
        assert Listing(rest, db, state) + [] == Listing(rest, db, state);
      }
    }
  }

  lemma PassState(again: Resubmitter, order: seq<u64>, db: Db, i: nat)
    requires Sound(again) && Keyed(db) && Ascending(order, db.Keys) && i < |Recovered(again, order, db)|
    ensures var id := Recovered(again, order, db)[i].id;
            id in db && db[id].state == if i < |JobsOf(again, Listing(order, db, Pending))| then Pending else Running
  {
    var first, second := JobsOf(again, Listing(order, db, Pending)), JobsOf(again, Listing(order, db, Running));
    var job := if i < |first| then first[i] else second[i - |first|];
    assert job == Recovered(again, order, db)[i];
    PassJobs(again, order, db, if i < |first| then Pending else Running, job);
  }

  lemma RecoveredInOrder(again: Resubmitter, order: seq<u64>, db: Db, i: nat, j: nat)
    requires Sound(again) && Keyed(db) && Ascending(order, db.Keys) && i < j < |Recovered(again, order, db)|
    ensures InOrder(db, Recovered(again, order, db)[i].id, Recovered(again, order, db)[j].id)
  {
    var first, second := JobsOf(again, Listing(order, db, Pending)), JobsOf(again, Listing(order, db, Running));
    PassState(again, order, db, i);
    PassState(again, order, db, j);
    PassInOrder(again, order, db, Pending);
    PassInOrder(again, order, db, Running);
    assert Recovered(again, order, db) == first + second;
  }

  /** Recovering with a pipeline that is shutting down loses a job: its record is deleted, its
      submission refused, and nothing is queued. */
  lemma StoppedRecoveryLosesJob(again: Resubmitter, order: seq<u64>, s: Store, s': Store, result: Result<nat>, states: seq<Db>)
    requires Listed(again, order, s.db) && s.shutdown && AllDue(again, s.db) != {}
    requires Outcome(again, Recovered(again, order, s.db), AllDue(again, s.db), s, s', result, states)
    ensures result == Err && s'.enqueued == s.enqueued
    ensures exists id :: id in AllDue(again, s.db) && id !in s'.db && AllDue(again, s'.db) == AllDue(again, s.db) - {id}
  {
    RecoveredExactlyOnce(again, order, s.db);
    var jobs := Recovered(again, order, s.db);
    var id :| id in AllDue(again, s.db);
    assert again(s.db[id]).value.job in jobs;
    assert jobs[0] in jobs;
    assert AllDue(again, s'.db) == AllDue(again, s.db) - {jobs[0].id};
  }

  /** A rewritten record is rebuilt to the same job. */
  lemma RewrittenRebuilds(floats: FloatText, was: JobRecord, now: JobRecord)
    requires Faithful(floats) && Rewritten(With(floats), was, now)
    requires var job := JobOf(floats, was).value; job.Thumbnails? ==> !IsNan(job.interval)
    ensures Due(With(floats), now) && JobOf(floats, now) == JobOf(floats, was)
  {
    RebuildIsStable(floats, was.jobId, was.assetId, was.kind, was.payload);
  }

  /** A recovery interrupted by another crash loses at most one job: at every committed state all
      the other records still lead to the same jobs. */
  lemma CrashDuringRecovery(floats: FloatText, db0: Db, db: Db) returns (lost: set<u64>)
    requires Faithful(floats) && Interrupted(With(floats), db0, db, AllDue(With(floats), db0))
    requires forall id :: id in AllDue(With(floats), db0) ==>
               var job := JobOf(floats, db0[id]).value; job.Thumbnails? ==> !IsNan(job.interval)
    ensures |lost| <= 1
    ensures forall id :: id in AllDue(With(floats), db0) - lost ==>
              id in db && Due(With(floats), db[id]) && JobOf(floats, db[id]) == JobOf(floats, db0[id])
    ensures forall id :: id in db0 && id !in AllDue(With(floats), db0) ==> id in db && db[id] == db0[id]
  {
    var done: set<u64>, gone: set<u64> :| |gone| <= 1 && done + gone <= AllDue(With(floats), db0)
                                          && Redone(With(floats), db0, db, done, gone, true);
    lost := gone;
    forall id | id in AllDue(With(floats), db0) - lost
      ensures id in db && Due(With(floats), db[id]) && JobOf(floats, db[id]) == JobOf(floats, db0[id])
    {
      if id in done {
        RewrittenRebuilds(floats, db0[id], db[id]);
      }
    }
  }
}
