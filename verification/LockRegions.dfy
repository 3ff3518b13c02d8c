/** The lock scripts and the transitions speak of the same regions: the scripts of the operations are
    the scripts of their phases in the order of the transitions, and a transition changes only what the
    locks of its region guard. */
module LockRegions {
  import opened LockOrder
  import opened JobQueues
  import JobStates
  import P = Pipelines
  import opened PipelineInvariant
  import opened PipelineSafety
  import opened PipelineLiveness

  /** The lock actions of the region that the owner of a job enters at a phase; `path` tells how far
      each call of `persist` gets. */
  function PhaseScript(phase: P.Phase, path: P.Phase -> PersistPath): Script {
    match phase
    case Registering(_) => Region(SchedulerLock)
    case Tracking => Region(TrackerLock)
    case Describing => Region(SubmittedLock)
    case PersistingNew => PersistScript(path(phase))
    case Enqueueing => Region(QueueLock)
    case Starting => Region(TrackerLock)
    case PersistingRunning => PersistScript(path(phase))
    case Publishing => Region(RunningLock)
    case Executing => []
    case Retiring(_) => Region(RunningLock)
    case Reporting(_) => Region(TrackerLock)
    case Marking(_) => Region(SchedulerLock)
    case PersistingVerdict(_) => PersistScript(path(phase))
    case CancelReporting => Region(TrackerLock)
    case CancelMarking => Region(SchedulerLock)
    case CancelPersisting => PersistScript(path(phase))
    case SweepPersisting(_) => PersistScript(path(phase))
  }

  /** The scripts from a phase on, until the owner lets go of the job. */
  function Onwards(phase: P.Phase, path: P.Phase -> PersistPath, result: P.ExecResult): Script
    decreases Weight(P.Held(0, phase))
  {
    var next := P.After(0, phase, result);
    LaterIsLighter(phase, result);
    PhaseScript(phase, path) + (if next.Held? then Onwards(next.phase, path, result) else [])
  }

  lemma LaterIsLighter(phase: P.Phase, result: P.ExecResult)
    ensures Weight(P.After(0, phase, result)) < Weight(P.Held(0, phase))
  {
    EdgeLowersWeight(Bytes.Some(P.Held(0, phase)), P.After(0, phase, result), 0);
  }

  lemma Associate(a: Script, b: Script, c: Script)
    ensures a + (b + c) == a + b + c
  {
  }

  lemma SubmitScript(deps: seq<JobId>, path: P.Phase -> PersistPath, result: P.ExecResult)
    ensures Onwards(P.Registering(deps), path, result) == ScriptOf(Submit(path(P.PersistingNew)))
  {
    var s, t, m, p, q := Region(SchedulerLock), Region(TrackerLock), Region(SubmittedLock),
                         PersistScript(path(P.PersistingNew)), Region(QueueLock);
    assert Onwards(P.Enqueueing, path, result) == q + [] == q;
    assert Onwards(P.PersistingNew, path, result) == p + q;
    assert Onwards(P.Describing, path, result) == m + (p + q);
    assert Onwards(P.Tracking, path, result) == t + (m + (p + q));
    assert Onwards(P.Registering(deps), path, result) == s + (t + (m + (p + q))) == s + t + m + p + q;
  }

  lemma CancelScript(path: P.Phase -> PersistPath, result: P.ExecResult)
    ensures Region(TrackerLock) + Region(QueueLock) + Onwards(P.CancelReporting, path, result)
            == ScriptOf(CancelQueued(path(P.CancelPersisting)))
  {
    var s, t, p, q := Region(SchedulerLock), Region(TrackerLock), PersistScript(path(P.CancelPersisting)), Region(QueueLock);
    assert Onwards(P.CancelPersisting, path, result) == p + [] == p;
    assert Onwards(P.CancelMarking, path, result) == s + p;
    assert Onwards(P.CancelReporting, path, result) == t + (s + p);
    assert t + q + (t + (s + p)) == t + q + t + s + p;
  }

  lemma VerdictScript(path: P.Phase -> PersistPath, result: P.ExecResult)
    ensures Onwards(P.Retiring(result), path, result)
            == Region(RunningLock) + (Region(TrackerLock) + (Region(SchedulerLock) + PersistScript(path(P.PersistingVerdict(result)))))
  {
    var p := PersistScript(path(P.PersistingVerdict(result)));
    assert Onwards(P.PersistingVerdict(result), path, result) == p + [] == p;
    assert Onwards(P.Marking(result), path, result) == Region(SchedulerLock) + p;
    assert Onwards(P.Reporting(result), path, result) == Region(TrackerLock) + (Region(SchedulerLock) + p);
  }

  lemma RunScript(path: P.Phase -> PersistPath, result: P.ExecResult)
    ensures Onwards(P.Starting, path, result)
            == ScriptOf(RunJob(path(P.PersistingRunning), [], path(P.PersistingVerdict(result))))
  {
    var s, t, r := Region(SchedulerLock), Region(TrackerLock), Region(RunningLock);
    var p, f := PersistScript(path(P.PersistingRunning)), PersistScript(path(P.PersistingVerdict(result)));
    PrepareScript(path, result);
    VerdictScript(path, result);
    Flatten(t, p, r, r, t, s, f);
    assert ScriptsOf([]) == [];
  }

  lemma PrepareScript(path: P.Phase -> PersistPath, result: P.ExecResult)
    ensures Onwards(P.Starting, path, result)
            == Region(TrackerLock) + (PersistScript(path(P.PersistingRunning))
               + (Region(RunningLock) + Onwards(P.Retiring(result), path, result)))
  {
    var rest := Onwards(P.Retiring(result), path, result);
    assert Onwards(P.Executing, path, result) == [] + rest == rest;
    assert Onwards(P.Publishing, path, result) == Region(RunningLock) + rest;
    assert Onwards(P.PersistingRunning, path, result) == PersistScript(path(P.PersistingRunning)) + (Region(RunningLock) + rest);
  }

  lemma Flatten(a: Script, b: Script, c: Script, d: Script, e: Script, f: Script, g: Script)
    ensures a + (b + (c + (d + (e + (f + g))))) == a + b + c + [] + d + e + f + g
  {
    Associate(a, b, c + (d + (e + (f + g))));
    Associate(a + b, c, d + (e + (f + g)));
    Associate(a + b + c, d, e + (f + g));
    Associate(a + b + c + d, e, f + g);
    Associate(a + b + c + d + e, f, g);
    assert a + b + c + [] == a + b + c;
  }

  /** The scripts of `submit_with_deps`, `cancel` and `run_job` are those of their phases, in the order
      in which the transitions go through them. */
  lemma ScriptsFollowPhases(deps: seq<JobId>, path: P.Phase -> PersistPath, result: P.ExecResult)
    ensures Onwards(P.Registering(deps), path, result) == ScriptOf(Submit(path(P.PersistingNew)))
    ensures Onwards(P.Starting, path, result)
            == ScriptOf(RunJob(path(P.PersistingRunning), [], path(P.PersistingVerdict(result))))
    ensures Region(TrackerLock) + Region(QueueLock) + Onwards(P.CancelReporting, path, result)
            == ScriptOf(CancelQueued(path(P.CancelPersisting)))
  {
    SubmitScript(deps, path, result);
    RunScript(path, result);
    CancelScript(path, result);
  }

  // ----- What a region may change -----

  /** Every part of the shared data that differs is guarded by one of the locks. */
  ghost predicate ChangesUnder(s: P.State, s': P.State, locks: set<Lock>) {
    && (s'.queue != s.queue ==> QueueLock in locks)
    && (s'.edges != s.edges ==> SchedulerLock in locks)
    && (s'.records != s.records ==> DatabaseLock in locks)
    && (s'.described != s.described ==> SubmittedLock in locks)
    && (s'.running != s.running ==> RunningLock in locks)
    && (s'.tracker != s.tracker ==> TrackerLock in locks)
  }

  /** The locks a script acquires. */
  function Acquired(script: Script): set<Lock> {
    set i | 0 <= i < |script| && script[i].Acquire? :: script[i].lock
  }

  lemma PersistAcquires(path: PersistPath)
    ensures DatabaseLock in Acquired(PersistScript(path))
  {
    assert PersistScript(path)[0] == Acquire(DatabaseLock);
  }

  lemma RegionAcquires(lock: Lock)
    ensures lock in Acquired(Region(lock))
  {
    assert Region(lock)[0] == Acquire(lock);
  }

  /** The lock that guards what a phase changes; executing changes nothing shared. */
  function GuardOf(phase: P.Phase): Lock {
    match phase
    case Registering(_) => SchedulerLock
    case Describing => SubmittedLock
    case Enqueueing => QueueLock
    case Publishing => RunningLock
    case Retiring(_) => RunningLock
    case Marking(_) => SchedulerLock
    case CancelMarking => SchedulerLock
    case Tracking => TrackerLock
    case Starting => TrackerLock
    case Reporting(_) => TrackerLock
    case CancelReporting => TrackerLock
    case _ => DatabaseLock
  }

  lemma PersistGuarded(s: P.State, id: JobId, state: JobStates.JobState)
    ensures ChangesUnder(s, s.Persist(id, state), {DatabaseLock})
  {
  }

  lemma TrackGuarded(s: P.State, id: JobId, state: JobStates.JobState)
    ensures ChangesUnder(s, s.Track(id, state), {TrackerLock})
  {
  }

  lemma EffectGuarded(s: P.State, job: Job, phase: P.Phase)
    ensures ChangesUnder(s, P.Effect(s, job, phase), if phase == P.Executing then {} else {GuardOf(phase)})
  {
    match phase
    case PersistingNew => PersistGuarded(s, job.id, JobStates.Pending);
    case PersistingRunning => PersistGuarded(s, job.id, JobStates.Running);
    case PersistingVerdict(r) => PersistGuarded(s, job.id, r.Verdict());
    case CancelPersisting => PersistGuarded(s, job.id, JobStates.Cancelled);
    case SweepPersisting(_) => PersistGuarded(s, job.id, JobStates.Cancelled);
    case Starting => TrackGuarded(s, job.id, JobStates.Running);
    case Reporting(r) => TrackGuarded(s, job.id, r.Verdict());
    case CancelReporting => TrackGuarded(s, job.id, JobStates.Cancelled);
    case _ =>
  }

  lemma AdvanceShares(s: P.State, t: P.ThreadId, job: Job, phase: P.Phase, result: P.ExecResult, locks: set<Lock>)
    requires ChangesUnder(s, P.Effect(s, job, phase), locks)
    ensures ChangesUnder(s, P.Advance(s, t, job, phase, result), locks)
  {
  }

  lemma GuardAcquired(phase: P.Phase, path: P.Phase -> PersistPath)
    requires phase != P.Executing
    ensures GuardOf(phase) in Acquired(PhaseScript(phase, path))
  {
    PersistAcquires(path(phase));
    RegionAcquires(GuardOf(phase));
  }

  lemma MoreLocks(s: P.State, s': P.State, few: set<Lock>, locks: set<Lock>)
    requires ChangesUnder(s, s', few) && few <= locks
    ensures ChangesUnder(s, s', locks)
  {
  }

  /** A region of the owner of a job changes only what the locks of its script guard. */
  lemma OwnerChangesUnder(s: P.State, t: P.ThreadId, job: Job, phase: P.Phase, path: P.Phase -> PersistPath, result: P.ExecResult)
    ensures ChangesUnder(s, P.Advance(s, t, job, phase, result), Acquired(PhaseScript(phase, path)))
  {
    EffectGuarded(s, job, phase);
    if phase != P.Executing { GuardAcquired(phase, path); }
    MoreLocks(s, P.Effect(s, job, phase), if phase == P.Executing then {} else {GuardOf(phase)},
              Acquired(PhaseScript(phase, path)));
    AdvanceShares(s, t, job, phase, result, Acquired(PhaseScript(phase, path)));
  }

  // ----- Taking, and the other regions of cancel -----

  /** A region of `try_take`: after a sweep both locks are given back before the record is written;
      after the pop they go out of scope. */
  function TakeScript(sweeps: bool): Script {
    [Acquire(QueueLock), Acquire(SchedulerLock)]
    + (if sweeps then Region(TrackerLock) + [Release(QueueLock), Release(SchedulerLock)]
       else [Release(SchedulerLock), Release(QueueLock)])
  }

  /** The regions of a whole `try_take`: each sweep is followed by the region that persists it. */
  function TakeRegions(sweeps: seq<PersistPath>): Script {
    if sweeps == [] then TakeScript(false)
    else TakeScript(true) + PhaseScript(P.SweepPersisting([]), _ => sweeps[0]) + TakeRegions(sweeps[1..])
  }

  lemma {:induction false} TakeFollowsRegions(sweeps: seq<PersistPath>)
    ensures ScriptOf(TryTake(sweeps)) == TakeRegions(sweeps)
  {
    var enter, leave := [Acquire(QueueLock), Acquire(SchedulerLock)], [Release(SchedulerLock), Release(QueueLock)];
    if sweeps == [] {
      assert enter + [] + leave == enter + leave;
    } else {
      TakeFollowsRegions(sweeps[1..]);
      var sweep, persist := Region(TrackerLock) + [Release(QueueLock), Release(SchedulerLock)], PersistScript(sweeps[0]);
      OneSweep(enter, sweep, persist, SweepScript(sweeps[1..]), leave);
    }
  }

  lemma OneSweep(enter: Script, sweep: Script, persist: Script, rest: Script, leave: Script)
    ensures enter + (sweep + persist + enter + rest) + leave == enter + sweep + persist + (enter + rest + leave)
  {
  }

  /** The regions of `cancel` for a job that is not queued, by program counter. */
  function CancelRegion(pc: P.ProgramCounter): Script {
    match pc
    case Dequeueing(_) => Region(QueueLock)
    case Signalling(_) => Region(RunningLock)
    case _ => Region(TrackerLock)
  }

  /** The snapshot of an unknown job; and the snapshot, the look at the queue and the signal. */
  lemma CancelFollowsRegions(id: JobId)
    ensures ScriptOf(CancelUnknown) == CancelRegion(P.Idle)
    ensures ScriptOf(CancelRunning) == CancelRegion(P.Idle) + CancelRegion(P.Dequeueing(id)) + CancelRegion(P.Signalling(id))
  {
  }

  lemma TakeAcquires(sweeps: bool)
    ensures {QueueLock, SchedulerLock} <= Acquired(TakeScript(sweeps))
    ensures sweeps ==> TrackerLock in Acquired(TakeScript(sweeps))
  {
    assert TakeScript(sweeps)[0] == Acquire(QueueLock) && TakeScript(sweeps)[1] == Acquire(SchedulerLock);
    assert sweeps ==> TakeScript(sweeps)[2] == Acquire(TrackerLock);
  }

  lemma PopGuarded(s: P.State, t: P.ThreadId)
    ensures var s' := P.PopRegion(s, t);
            && ChangesUnder(s, s', {QueueLock})
            && t in s'.threads && !(s'.threads[t].Holding? && s'.threads[t].phase.SweepPersisting?)
  {
    if s.shutdown && s.queue.entries == [] {
    } else if FirstIndex(s.queue.entries, s.edges.ReadyTest()) < |s.queue.entries| {
    } else {
    }
  }

  lemma SweepGuarded(s: P.State, t: P.ThreadId, index: nat, rest: seq<JobId>)
    requires index < |s.queue.entries|
    ensures ChangesUnder(s, s.SweepOut(index).Own(t, s.queue.entries[index].job, P.SweepPersisting(rest)),
                         {QueueLock, SchedulerLock, TrackerLock})
  {
  }

  /** A region of `try_take` changes only what the locks of its script guard, and the next region is the
      one of the script: persisting if it swept. */
  lemma TakeChangesUnder(s: P.State, t: P.ThreadId, todo: seq<JobId>)
    ensures var sweeps := P.FirstQueued(s.queue.entries, todo) < |todo|; var s' := P.TakeRegion(s, t, todo);
            && ChangesUnder(s, s', Acquired(TakeScript(sweeps)))
            && t in s'.threads && (sweeps <==> s'.threads[t].Holding? && s'.threads[t].phase.SweepPersisting?)
  {
    var k := P.FirstQueued(s.queue.entries, todo);
    TakeAcquires(k < |todo|);
    if k < |todo| {
      SweepGuarded(s, t, FirstIndex(s.queue.entries, SameId(todo[k])), todo[k + 1..]);
      MoreLocks(s, P.TakeRegion(s, t, todo), {QueueLock, SchedulerLock, TrackerLock}, Acquired(TakeScript(true)));
    } else {
      PopGuarded(s, t);
      MoreLocks(s, P.PopRegion(s, t), {QueueLock}, Acquired(TakeScript(false)));
    }
  }

  lemma DequeueGuarded(s: P.State, t: P.ThreadId, id: JobId)
    ensures ChangesUnder(s, P.DequeueRegion(s, t, id), {QueueLock})
  {
    if FirstIndex(s.queue.entries, SameId(id)) < |s.queue.entries| {} else {}
  }

  /** So do the regions of `cancel` that hold no job. */
  lemma CancelChangesUnder(s: P.State, t: P.ThreadId, result: P.ExecResult)
    requires P.Enabled(s, t, P.Go(result)) && (s.threads[t].Dequeueing? || s.threads[t].Signalling?)
    ensures ChangesUnder(s, P.Next(s, t, P.Go(result)), Acquired(CancelRegion(s.threads[t])))
  {
    var s' := P.Next(s, t, P.Go(result));
    if s.threads[t].Dequeueing? {
      DequeueGuarded(s, t, s.threads[t].id);
      RegionAcquires(QueueLock);
      MoreLocks(s, s', {QueueLock}, Acquired(Region(QueueLock)));
    } else {
      RegionAcquires(RunningLock);
      MoreLocks(s, s', {RunningLock}, Acquired(Region(RunningLock)));
    }
  }
}
