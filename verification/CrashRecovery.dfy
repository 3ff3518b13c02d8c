/** From a crash in the middle of the running pipeline to the recovery after it: the whole rows that
    the pipeline writes, beside the state column that its transitions carry. */
module CrashRecovery {
  import opened Bytes
  import opened JobQueues
  import opened JobStates
  import opened Pipelines
  import opened PipelineInvariant
  import opened PipelineSafety
  import opened Jobs
  import opened JobTables
  import opened Resubmissions
  import opened Recoveries

  /** What was submitted under each id. */
  type Contents = map<JobId, PipelineJob>

  ghost predicate Describes(contents: Contents, s: State) {
    forall id :: id in s.places ==> id in contents && id < U64_LIMIT && contents[id].id == id
  }

  /** The row that `persist` writes for a job: its submit-time metadata and the state; progress, times
      and error text are free. */
  ghost predicate RowOf(floats: FloatText, job: PipelineJob, state: JobState, r: JobRecord) {
    && r.jobId == job.id && r.assetId == job.assetId && r.priority == job.Priority()
    && r.kind == job.Kind() && r.payload == job.Payload(floats) && r.state == state
  }

  // ----- The rows of a run -----

  datatype Write = Write(id: JobId, state: JobState)

  /** What a transition persists, if anything. */
  function Persisted(s: State, t: ThreadId, c: Choice): Option<Write>
    requires Enabled(s, t, c)
  {
    if !c.Go? || !s.threads[t].Holding? || !s.attached || s.threads[t].job.id !in s.described then None
    else
      var id := s.threads[t].job.id;
      match s.threads[t].phase
      case PersistingNew => Some(Write(id, Pending))
      case PersistingRunning => Some(Write(id, Running))
      case PersistingVerdict(r) => Some(Write(id, r.Verdict()))
      case CancelPersisting => Some(Write(id, Cancelled))
      case SweepPersisting(_) => Some(Write(id, Cancelled))
      case _ => None
  }

  lemma EffectRecords(s: State, job: Job, phase: Phase)
    ensures Effect(s, job, phase).records ==
            if !s.attached || job.id !in s.described then s.records
            else match phase
                 case PersistingNew => s.records[job.id := Pending]
                 case PersistingRunning => s.records[job.id := Running]
                 case PersistingVerdict(r) => s.records[job.id := r.Verdict()]
                 case CancelPersisting => s.records[job.id := Cancelled]
                 case SweepPersisting(_) => s.records[job.id := Cancelled]
                 case _ => s.records
  {
  }

  lemma PopRecords(s: State, t: ThreadId)
    ensures PopRegion(s, t).records == s.records
  {
    if s.shutdown && s.queue.entries == [] {
    } else if FirstIndex(s.queue.entries, s.edges.ReadyTest()) < |s.queue.entries| {
    } else {
    }
  }

  lemma TakeRecords(s: State, t: ThreadId, todo: seq<JobId>)
    ensures TakeRegion(s, t, todo).records == s.records
  {
    if FirstQueued(s.queue.entries, todo) < |todo| {
    } else {
      PopRecords(s, t);
    }
  }

  lemma AdvanceRecords(s: State, t: ThreadId, result: ExecResult)
    requires Enabled(s, t, Go(result)) && s.threads[t].Holding?
    ensures Next(s, t, Go(result)).records == match Persisted(s, t, Go(result))
                                              case None => s.records
                                              case Some(w) => s.records[w.id := w.state]
  {
    EffectRecords(s, s.threads[t].job, s.threads[t].phase);
  }

  lemma GoRecords(s: State, t: ThreadId, result: ExecResult)
    requires Enabled(s, t, Go(result)) && !s.threads[t].Holding?
    ensures Next(s, t, Go(result)).records == s.records
  {
    match s.threads[t]
    case Taking => TakeRecords(s, t, Blocked(s.queue.entries, s.edges));
    case Sweeping(rest) => TakeRecords(s, t, rest);
    case Dequeueing(id) => DequeueRecords(s, t, id);
    case _ =>
  }

  lemma DequeueRecords(s: State, t: ThreadId, id: JobId)
    ensures DequeueRegion(s, t, id).records == s.records
  {
    if FirstIndex(s.queue.entries, SameId(id)) < |s.queue.entries| {} else {}
  }

  /** It is exactly what the transition does to the state column. */
  lemma PersistedIsWritten(s: State, t: ThreadId, c: Choice)
    requires Enabled(s, t, c)
    ensures Next(s, t, c).records == match Persisted(s, t, c)
                                     case None => s.records
                                     case Some(w) => s.records[w.id := w.state]
  {
    if c.Go? {
      if s.threads[t].Holding? { AdvanceRecords(s, t, c.result); } else { GoRecords(s, t, c.result); }
    }
  }

  /** The database before and after a transition. */
  ghost predicate Stores(floats: FloatText, contents: Contents, s: State, t: ThreadId, c: Choice, db: Db, db': Db)
    requires Enabled(s, t, c)
  {
    match Persisted(s, t, c)
    case None => db' == db
    case Some(w) =>
      && w.id in contents && w.id in db' && db' == db[w.id := db'[w.id]]
      && RowOf(floats, contents[w.id], w.state, db'[w.id])
  }

  /** `dbs` are the databases before, between and after the steps. */
  ghost predicate StoresAll(floats: FloatText, contents: Contents, s: State, steps: seq<Step>, dbs: seq<Db>)
    requires CanRun(s, steps)
    decreases |steps|
  {
    && |dbs| == |steps| + 1
    && (steps != [] ==>
          var t, c := steps[0].thread, steps[0].choice;
          Stores(floats, contents, s, t, c, dbs[0], dbs[1])
          && StoresAll(floats, contents, Next(s, t, c), steps[1..], dbs[1..]))
  }

  /** The job has a row with its content and its recorded state. */
  ghost predicate HasRow(floats: FloatText, contents: Contents, records: map<JobId, JobState>, db: Db, id: JobId) {
    id in contents && id in db && id in records && RowOf(floats, contents[id], records[id], db[id])
  }

  /** Every job whose submission has written its record has its row. */
  ghost predicate Mirrors(floats: FloatText, contents: Contents, s: State, db: Db) {
    && Keyed(db)
    && forall id :: id in s.places && ExpectedRecord(s.places[id]).Some? ==> HasRow(floats, contents, s.records, db, id)
  }

  lemma WriteKeepsRow(floats: FloatText, contents: Contents, records: map<JobId, JobState>, db: Db, db': Db, w: Write, id: JobId)
    requires w.id in contents && w.id in db' && db' == db[w.id := db'[w.id]] && RowOf(floats, contents[w.id], w.state, db'[w.id])
    requires id == w.id || HasRow(floats, contents, records, db, id)
    ensures HasRow(floats, contents, records[w.id := w.state], db', id)
  {
  }

  /** A job whose row is expected only after a transition has it written by that transition. */
  lemma FirstWrite(s: State, t: ThreadId, c: Choice, id: JobId)
    requires Inv(s) && Enabled(s, t, c) && s.attached && id in Next(s, t, c).places
    requires ExpectedRecord(Next(s, t, c).places[id]).Some?
    requires id in s.places ==> ExpectedRecord(s.places[id]) == None
    ensures Persisted(s, t, c) == Some(Write(id, Pending))
  {
    var x := NextMoves(s, t, c);
    Known(s, id);
    HolderView(s, t);
  }

  lemma RowAfterStep(floats: FloatText, contents: Contents, s: State, t: ThreadId, c: Choice, db: Db, db': Db, id: JobId)
    requires Inv(s) && Enabled(s, t, c) && s.attached
    requires Mirrors(floats, contents, s, db) && Stores(floats, contents, s, t, c, db, db')
    requires id in Next(s, t, c).places && ExpectedRecord(Next(s, t, c).places[id]).Some?
    ensures HasRow(floats, contents, Next(s, t, c).records, db', id)
  {
    PersistedIsWritten(s, t, c);
    if id !in s.places || ExpectedRecord(s.places[id]) == None {
      FirstWrite(s, t, c, id);
    } else {
      assert HasRow(floats, contents, s.records, db, id);
    }
    if Persisted(s, t, c).Some? {
      WriteKeepsRow(floats, contents, s.records, db, db', Persisted(s, t, c).value, id);
    }
  }

  lemma StoreKeepsKeys(floats: FloatText, contents: Contents, s: State, t: ThreadId, c: Choice, db: Db, db': Db)
    requires Enabled(s, t, c) && Stores(floats, contents, s, t, c, db, db') && Keyed(db)
    requires Persisted(s, t, c).Some? ==> contents[Persisted(s, t, c).value.id].id == Persisted(s, t, c).value.id
    ensures Keyed(db')
  {
    match Persisted(s, t, c)
    case None =>
    case Some(w) => assert db'[w.id].jobId == w.id;
  }

  lemma StoreKeepsMirror(floats: FloatText, contents: Contents, s: State, t: ThreadId, c: Choice, db: Db, db': Db)
    requires Inv(s) && Enabled(s, t, c) && s.attached && Describes(contents, Next(s, t, c))
    requires Mirrors(floats, contents, s, db) && Stores(floats, contents, s, t, c, db, db')
    ensures Mirrors(floats, contents, Next(s, t, c), db')
  {
    var s' := Next(s, t, c);
    forall id | id in s'.places && ExpectedRecord(s'.places[id]).Some?
      ensures HasRow(floats, contents, s'.records, db', id)
    {
      RowAfterStep(floats, contents, s, t, c, db, db', id);
    }
    if Persisted(s, t, c).Some? { PersistedIsKnown(s, t, c); }
    StoreKeepsKeys(floats, contents, s, t, c, db, db');
  }

  /** What is persisted belongs to a job that is known. */
  lemma PersistedIsKnown(s: State, t: ThreadId, c: Choice)
    requires Inv(s) && Enabled(s, t, c) && Persisted(s, t, c).Some?
    ensures Persisted(s, t, c).value.id in Next(s, t, c).places
  {
    HolderView(s, t);
    var x := NextMoves(s, t, c);
  }

  lemma {:induction false} RunKeepsMirror(floats: FloatText, contents: Contents, s: State, steps: seq<Step>, dbs: seq<Db>)
    requires Inv(s) && CanRun(s, steps) && s.attached && StoresAll(floats, contents, s, steps, dbs)
    requires Mirrors(floats, contents, s, dbs[0]) && Describes(contents, Run(s, steps))
    ensures Mirrors(floats, contents, Run(s, steps), dbs[|steps|])
    decreases |steps|
  {
    if steps == [] {
    } else {
      var t, c := steps[0].thread, steps[0].choice;
      NextKeepsInv(s, t, c);
      NextKeepsAttachment(s, t, c);
      KnownStays(Next(s, t, c), steps[1..]);
      StoreKeepsMirror(floats, contents, s, t, c, dbs[0], dbs[1]);
      RunKeepsMirror(floats, contents, Next(s, t, c), steps[1..], dbs[1..]);
    }
  }

  /** Jobs are never forgotten. */
  lemma {:induction false} KnownStays(s: State, steps: seq<Step>)
    requires Inv(s) && CanRun(s, steps)
    ensures s.places.Keys <= Run(s, steps).places.Keys && Run(s, steps).attached == s.attached
    decreases |steps|
  {
    if steps == [] {
    } else {
      var t, c := steps[0].thread, steps[0].choice;
      var x := NextMoves(s, t, c);
      NextKeepsInv(s, t, c);
      NextKeepsAttachment(s, t, c);
      KnownStays(Next(s, t, c), steps[1..]);
    }
  }

  // ----- Crash, then recovery -----

  /** What recovery makes of the row of a job whose submission returned. */
  lemma RowIsDue(floats: FloatText, contents: Contents, s: State, db: Db, id: JobId)
    requires Faithful(floats) && Reachable(s) && s.attached && Mirrors(floats, contents, s, db) && Describes(contents, s)
    requires id in s.places && !BeingSubmitted(s.places[id]) && Restorable(floats, contents[id])
    ensures id in db && JobOf(floats, db[id]) == Some(contents[id])
    ensures Due(With(floats), db[id]) <==> !s.places[id].Ended?
  {
    CrashConsistency(s, id);
    assert ExpectedRecord(s.places[id]).Some?;
    RebuildUndoesPayloadIff(floats, contents[id]);
  }

  lemma QueuedAsDue(floats: FloatText, order: seq<u64>, db: Db, job: PipelineJob)
    requires Distinct(order) && Keyed(db) && Covers(order, db) && job.id in db && JobOf(floats, db[job.id]) == Some(job)
    ensures job in Recovered(With(floats), order, db) <==> Due(With(floats), db[job.id])
    ensures forall other :: other in Recovered(With(floats), order, db) && other.id == job.id ==> other == job
  {
    ResubmitIsSound(floats);
    RecoveredExactlyOnce(With(floats), order, db);
  }

  /** Stop the machine anywhere in any run of a pipeline with a database, and recover: every job whose
      submission had returned and that was not finished is queued again, exactly once and as it was
      submitted, and no finished job is. */
  lemma CrashThenRecover(floats: FloatText, contents: Contents, start: State, steps: seq<Step>, dbs: seq<Db>, order: seq<u64>)
    requires Faithful(floats) && Init(start) && start.attached && CanRun(start, steps)
    requires StoresAll(floats, contents, start, steps, dbs) && Keyed(dbs[0]) && Describes(contents, Run(start, steps))
    requires Distinct(order) && Covers(order, dbs[|steps|])
    ensures var s, again := Run(start, steps), Recovered(With(floats), order, dbs[|steps|]);
            && DistinctJobs(again)
            && forall id :: id in s.places && !BeingSubmitted(s.places[id]) && Restorable(floats, contents[id]) ==>
                 && (contents[id] in again <==> !s.places[id].Ended?)
                 && forall job :: job in again && job.id == id ==> job == contents[id]
  {
    var s, db := Run(start, steps), dbs[|steps|];
    InitInv(start);
    RunKeepsMirror(floats, contents, start, steps, dbs);
    KnownStays(start, steps);
    ResubmitIsSound(floats);
    RecoveredExactlyOnce(With(floats), order, db);
    var again := Recovered(With(floats), order, db);
    forall id | id in s.places && !BeingSubmitted(s.places[id]) && Restorable(floats, contents[id])
      ensures contents[id] in again <==> !s.places[id].Ended?
      ensures forall job :: job in again && job.id == id ==> job == contents[id]
    {
      RowIsDue(floats, contents, s, db, id);
      QueuedAsDue(floats, order, db, contents[id]);
    }
  }
}
