/** The program itself: submitters, cancellers and workers as methods over the shared objects, with
    every other thread running in the gaps between lock regions. Each method is proved to perform
    only transitions of the model, so whatever holds of every run of the model holds here. */
module Workers {
  import opened Bytes
  import opened JobQueues
  import opened Schedulers
  import opened JobStates
  import opened ProgressTrackers
  import opened Pipelines
  import opened PipelineInvariant
  import opened PipelineSafety
  import opened PipelineLeads

  /** The region of `try_take` that starts now works through `todo`. */
  ghost predicate Sweeps(s: State, t: ThreadId, todo: seq<JobId>) {
    t in s.threads &&
    match s.threads[t]
    case Taking => TakeRegion(s, t, Blocked(s.queue.entries, s.edges)) == TakeRegion(s, t, todo)
    case Sweeping(rest) => TakeRegion(s, t, rest) == TakeRegion(s, t, todo)
    case _ => false
  }

  lemma SweepsNext(s: State, t: ThreadId, todo: seq<JobId>)
    requires Sweeps(s, t, todo)
    ensures Enabled(s, t, Go(Success))
    ensures Next(s, t, Go(Success)) == TakeRegion(s, t, todo)
  {
  }

  /** The pop of `try_take` when it does not return for shutdown. */
  ghost function PopOutcome(s: State, t: ThreadId): State {
    var index := FirstIndex(s.queue.entries, s.edges.ReadyTest());
    if index < |s.queue.entries| then s.Dequeue(index).Own(t, s.queue.entries[index].job, Starting)
    else s.Goto(t, Resting)
  }

  /** The shared data right after the pop, with program counters still to be moved. */
  ghost predicate Popped(s: State, s': State, take: Take) {
    var index := FirstIndex(s.queue.entries, s.edges.ReadyTest());
    if index < |s.queue.entries| then take == Found(s.queue.entries[index].job) && s' == s.Dequeue(index)
    else take == Empty && s' == s
  }

  lemma PopLands(s: State, s': State, t: ThreadId, take: Take)
    requires Popped(s, s', take)
    ensures Data(s') == Data(PopOutcome(s, t))
    ensures t in PopOutcome(s, t).threads && PopOutcome(s, t).threads[t] == CounterOf(take)
  {
  }

  lemma PopCases(s: State, t: ThreadId)
    requires !(s.shutdown && s.queue.entries == [])
    ensures PopRegion(s, t) == PopOutcome(s, t)
  {
  }

  lemma SweepFound(s: State, t: ThreadId, todo: seq<JobId>)
    requires todo != [] && FirstIndex(s.queue.entries, SameId(todo[0])) < |s.queue.entries|
    ensures var index := FirstIndex(s.queue.entries, SameId(todo[0]));
            s.queue.entries[index].job.id == todo[0]
            && TakeRegion(s, t, todo) == s.SweepOut(index).Own(t, s.queue.entries[index].job, SweepPersisting(todo[1..]))
  {
    SameIdIndex(s.queue.entries, todo[0]);
    assert FirstQueued(s.queue.entries, todo) == 0;
  }

  /** The next region of thread `t` takes the blocked `job` out. */
  ghost predicate SweepsOut(s: State, t: ThreadId, job: Job, todo: seq<JobId>) {
    var index := FirstIndex(s.queue.entries, SameId(job.id));
    Sweeps(s, t, todo) && todo != [] && todo[0] == job.id && index < |s.queue.entries| && s.queue.entries[index].job == job
  }

  lemma SweepRegion(s: State, t: ThreadId, job: Job, todo: seq<JobId>)
    requires SweepsOut(s, t, job, todo)
    ensures Enabled(s, t, Go(Success)) && t in Next(s, t, Go(Success)).threads
    ensures Next(s, t, Go(Success)).threads[t] == Holding(job, SweepPersisting(todo[1..]))
    ensures Data(Next(s, t, Go(Success)))
            == Data(s.Dequeue(FirstIndex(s.queue.entries, SameId(job.id))).Track(job.id, Cancelled).Mark(Death(job.id)))
  {
    SweepsNext(s, t, todo);
    SweepFound(s, t, todo);
  }

  lemma SweptHasLeft(s: State, t: ThreadId, job: Job, todo: seq<JobId>)
    requires SweepsOut(s, t, job, todo)
    ensures Enabled(s, t, Go(Success)) && LeftQueue(Next(s, t, Go(Success)), job.id)
  {
    SweepsNext(s, t, todo);
    SweepFound(s, t, todo);
  }

  lemma OneMoreLeft(s: State, s': State, ids: seq<JobId>, i: nat)
    requires Inv(s) && Leads(s, s') && i < |ids| && AllLeft(s, ids[..i]) && LeftQueue(s', ids[i])
    ensures AllLeft(s', ids[..i + 1])
  {
    AllLeftStay(s, s', ids[..i]);
    assert ids[..i + 1] == ids[..i] + [ids[i]];
  }

  /** An id that left the queue is skipped. */
  lemma SkipGone(s: State, t: ThreadId, todo: seq<JobId>)
    requires todo != [] && FirstIndex(s.queue.entries, SameId(todo[0])) == |s.queue.entries|
    ensures TakeRegion(s, t, todo) == TakeRegion(s, t, todo[1..])
  {
    var k := FirstQueued(s.queue.entries, todo);
    assert k == 1 + FirstQueued(s.queue.entries, todo[1..]);
    if k < |todo| { assert todo[1..][k - 1] == todo[k] && todo[1..][k..] == todo[k + 1..]; }
  }

  /** Thread `t` is still in the region it was in at `seen`, or went on from there. */
  ghost predicate Since(seen: State, t: ThreadId, s: State) {
    s == seen || WentOn(seen, t, s)
  }

  lemma SinceAlso(seen: State, s: State, s': State, t: ThreadId)
    requires Since(seen, t, s) && Since(s, t, s')
    ensures Since(seen, t, s') && Leads(seen, s') && Leads(s, s')
    ensures WentOn(s, t, s') ==> WentOn(seen, t, s')
  {
    LeadsReflexive(s, t);
    LeadsReflexive(seen, t);
    if s' != s { WentOnLeads(s, t, s'); }
    if s != seen {
      WentOnFurther(seen, t, s, s');
      WentOnLeads(seen, t, s');
    }
  }

  lemma SinceLeads(seen: State, s: State, t: ThreadId)
    requires Since(seen, t, s)
    ensures Leads(seen, s)
  {
    LeadsReflexive(seen, t);
    if s != seen { WentOnLeads(seen, t, s); }
  }

  lemma GoneHasLeft(s: State, id: JobId)
    requires Inv(s) && Enlisted(s, id) && FirstIndex(s.queue.entries, SameId(id)) == |s.queue.entries|
    ensures LeftQueue(s, id)
  {
    SameIdIndex(s.queue.entries, id);
    Known(s, id);
    assert ViewOf(s, id).queued == IsQueued(s.queue.entries, id);
  }

  /** What was blocked and queued when the sweep began is not being submitted. */
  lemma BlockedIsEnlisted(seen: State, s: State, i: nat)
    requires Inv(seen) && Leads(seen, s) && i < |Blocked(seen.queue.entries, seen.edges)|
    ensures Enlisted(s, Blocked(seen.queue.entries, seen.edges)[i])
  {
    var id := Blocked(seen.queue.entries, seen.edges)[i];
    BlockedAreQueued(seen.queue.entries, seen.edges);
    var index :| 0 <= index < |seen.queue.entries| && seen.queue.entries[index].job.id == id;
    QueuedIsAtRest(seen, index);
    LeadsEnlisted(seen, s, id);
  }

  lemma PoppedFinds(s: State, s': State, t: ThreadId, take: Take)
    requires Sweeps(s, t, []) && Popped(s, s', take) && !(s.shutdown && s.queue.entries == [])
    ensures Finds(s, t, take)
  {
    var index := FirstIndex(s.queue.entries, s.edges.ReadyTest());
    FirstIndexIsFirst(s.queue.entries, s.edges.ReadyTest());
    SweepsNext(s, t, []);
    PopCases(s, t);
    PopLands(s, s', t, take);
    if index < |s.queue.entries| {
      assert s.edges.ReadyTest()(s.queue.entries[index].job.id);
    } else {
      forall i | 0 <= i < |s.queue.entries| ensures !s.edges.IsReady(s.queue.entries[i].job.id) {
        assert !s.edges.ReadyTest()(s.queue.entries[i].job.id);
      }
    }
  }

  /** Every job found so far has run to the result of its round. */
  ghost predicate AllRan(looks: seq<Look>, results: seq<ExecResult>, s: State) {
    |looks| <= |results| &&
    forall i :: 0 <= i < |looks| && looks[i].take.Found? ==> EndedAs(s, looks[i].take.job.id, Ran(results[i]))
  }

  lemma AllRanStay(looks: seq<Look>, results: seq<ExecResult>, a: State, b: State)
    requires Inv(a) && Leads(a, b) && AllRan(looks, results, a)
    ensures AllRan(looks, results, b)
  {
    forall i | 0 <= i < |looks| && looks[i].take.Found? ensures EndedAs(b, looks[i].take.job.id, Ran(results[i])) {
      LeadsEnd(a, b, looks[i].take.job.id, Ran(results[i]));
    }
  }

  ghost function Extended(looks: seq<Look>, look: Option<Look>): seq<Look> {
    if look.Some? then looks + [look.value] else looks
  }

  lemma OneMoreRan(looks: seq<Look>, look: Look, results: seq<ExecResult>, s: State)
    requires |looks| < |results| && AllRan(looks, results, s)
    requires look.take.Found? ==> EndedAs(s, look.take.job.id, Ran(results[|looks|]))
    ensures AllRan(looks + [look], results, s)
  {
    var longer := looks + [look];
    forall i | 0 <= i < |longer| && longer[i].take.Found? ensures EndedAs(s, longer[i].take.job.id, Ran(results[i])) {
      if i < |looks| { assert longer[i] == looks[i]; }
    }
  }

  lemma RoundDone(looks: seq<Look>, look: Option<Look>, results: seq<ExecResult>, t: ThreadId, start: State, s: State, s': State)
    requires Inv(s) && Leads(start, s) && Leads(s, s') && |looks| < |results|
    requires Chained(looks, t, start, s) && AllRan(looks, results, s)
    requires look.Some? ==> Looked(look.value, t, s, s')
    requires look.Some? && look.value.take.Found? ==> EndedAs(s', look.value.take.job.id, Ran(results[|looks|]))
    ensures Leads(start, s') && Chained(Extended(looks, look), t, start, s') && AllRan(Extended(looks, look), results, s')
  {
    LeadsTransitive(start, s, s');
    AllRanStay(looks, results, s, s');
    if look.Some? {
      assert Chained(looks + [look.value], t, start, s') by { ChainGoesOn(looks, t, start, s, look.value, s'); }
      assert AllRan(looks + [look.value], results, s') by { OneMoreRan(looks, look.value, results, s'); }
    } else {
      ChainLasts(looks, t, start, s, s');
    }
  }

  lemma ExitedIsShutdown(a: State, b: State, exited: bool)
    requires exited ==> b.shutdown || DrainedBetween(a, b)
    ensures exited ==> b.shutdown
  {
    if exited && !b.shutdown {
      var mid :| Leads(a, mid) && mid.shutdown && mid.queue.entries == [] && Leads(mid, b);
      LeadsShutdown(mid, b);
    }
  }

  lemma DrainedSooner(a: State, b: State, c: State)
    requires Leads(a, b) && DrainedBetween(b, c)
    ensures DrainedBetween(a, c)
  {
    var mid :| Leads(b, mid) && mid.shutdown && mid.queue.entries == [] && Leads(mid, c);
    LeadsTransitive(a, b, mid);
  }

  /** The shared data without program counters and history. */
  function Data(s: State): State {
    s.(threads := map[], places := map[], starts := multiset{})
  }

  lemma PushedIsIn(q: Queue, job: Job)
    requires q.Valid()
    ensures exists i :: 0 <= i < |q.Apply(Push(job)).entries| && q.Apply(Push(job)).entries[i].job == job
  {
    ApplyKeepsValid(q, Push(job));
    var entries := q.Apply(Push(job)).entries;
    assert Entry(job, q.nextSeq) in entries;
    var i :| 0 <= i < |entries| && entries[i] == Entry(job, q.nextSeq);
  }

  lemma QueuedIff(entries: seq<Entry>, id: JobId)
    ensures var index := FirstIndex(entries, SameId(id));
            && (index < |entries| <==> IsQueued(entries, id))
            && (index < |entries| ==> entries[index].job.id == id)
  {
    SameIdIndex(entries, id);
  }

  lemma FinalRegion(s: State, t: ThreadId, job: Job, state: JobState, phase: Phase, how: How)
    requires t in s.threads && s.threads[t] == Holding(job, phase)
    requires || (phase == CancelPersisting && state == Cancelled && how == CancelledByCaller)
             || (how.Ran? && phase == PersistingVerdict(how.outcome) && state == how.outcome.Verdict())
    ensures Enabled(s, t, Go(Success))
    ensures Next(s, t, Go(Success))
            == s.Persist(job.id, state).(threads := s.threads[t := Idle], places := s.places[job.id := Ended(how)])
  {
  }

  class Shared {
    const queue: JobQueue
    const scheduler: Scheduler
    const tracker: ProgressTracker
    var described: set<JobId>
    var running: map<JobId, bool>
    var attached: bool
    var records: map<JobId, JobState>
    var shutdown: bool
    ghost var threads: map<ThreadId, ProgramCounter>
    ghost var places: map<JobId, Place>
    ghost var starts: multiset<JobId>

    /** A new pipeline, over a database that may hold older records, with idle threads. */
    constructor (attached: bool, records: map<JobId, JobState>, ghost ids: set<ThreadId>)
      ensures Init(Abs()) && Abs().attached == attached && Abs().records == records && Abs().threads.Keys == ids
    {
      queue := new JobQueue();
      scheduler := new Scheduler();
      tracker := new ProgressTracker();
      described, running, shutdown := {}, map[], false;
      this.attached, this.records := attached, records;
      threads, places, starts := map t | t in ids :: Idle, map[], multiset{};
    }

    ghost function Abs(): State
      reads this, queue, scheduler, tracker
    {
      State(
        Queue(queue.entries, queue.nextSeq), scheduler.Abs(), States(tracker.jobs), described, running,
        attached, records, shutdown, threads, places, starts)
    }

    /** Ghost bookkeeping at the end of a lock region: the region did what the model says. */
    ghost method Commit(before: State, t: ThreadId, c: Choice)
      requires Enabled(before, t, c) && Data(Abs()) == Data(Next(before, t, c))
      modifies this`threads, this`places, this`starts
      ensures Abs() == Next(before, t, c)
    {
      var after := Next(before, t, c);
      threads, places, starts := after.threads, after.places, after.starts;
    }

    /** Any number of lock regions of other threads. */
    method Interfere(t: ThreadId)
      modifies this, queue, scheduler, tracker
      ensures OthersLead(old(Abs()), Abs(), t)
    {
      LeadsReflexive(Abs(), t);
    }

    /** Thread `t` got here from `start` by transitions of the model and owns `job` at `phase`. */
    ghost predicate At(start: State, t: ThreadId, job: Job, phase: Phase)
      reads this, queue, scheduler, tracker
    {
      Leads(start, Abs()) && t in threads && threads[t] == Holding(job, phase)
    }

    /** Thread `t` got here from `start` by transitions of the model and has program counter `pc`. */
    ghost predicate AtCounter(start: State, t: ThreadId, pc: ProgramCounter)
      reads this, queue, scheduler, tracker
    {
      Leads(start, Abs()) && t in threads && threads[t] == pc
    }

    ghost predicate PlaceOf(id: JobId, p: Place)
      reads this
    {
      id in places && places[id] == p
    }

    ghost predicate InQueue(job: Job)
      reads this, queue
    {
      exists i :: 0 <= i < |queue.entries| && queue.entries[i].job == job
    }

    ghost predicate DependsOn(id: JobId, deps: seq<JobId>)
      reads this, scheduler
    {
      id in scheduler.deps && scheduler.deps[id] == deps
    }

    /** The lock region that makes `after` of the shared state ends; others may run now. */
    method Land(ghost start: State, ghost after: State, t: ThreadId)
      requires Leads(start, after) && t in after.threads && Data(Abs()) == Data(after)
      modifies this, queue, scheduler, tracker
      ensures Leads(start, Abs()) && Leads(after, Abs()) && t in threads && threads[t] == after.threads[t]
    {
      threads, places, starts := after.threads, after.places, after.starts;
      Interfere(t);
      LeadsReflexive(after, t);
      Interfered(after, after, Abs(), t);
      LeadsTransitive(start, after, Abs());
    }

    /** End of a lock region in the middle of an operation: it did what the model says. */
    method Release(ghost start: State, ghost before: State, t: ThreadId, ghost c: Choice)
      requires Leads(start, before) && Enabled(before, t, c)
      requires Data(Abs()) == Data(Next(before, t, c))
      modifies this, queue, scheduler, tracker
      ensures Leads(start, Abs()) && Leads(Next(before, t, c), Abs())
      ensures t in threads && t in Next(before, t, c).threads && threads[t] == Next(before, t, c).threads[t]
    {
      StepLeads(start, before, t, c);
      NextKeepsThread(before, t, c);
      Land(start, Next(before, t, c), t);
    }

    /** `persist` */
    method Persist(id: JobId, state: JobState)
      modifies this`records
      ensures Abs() == old(Abs()).Persist(id, state)
    {
      if attached && id in described {
        records := records[id := state];
      }
    }

    // ----- Single lock regions -----

    method UpdateState(ghost start: State, t: ThreadId, job: Job, state: JobState, ghost phase: Phase, ghost next: Phase)
      requires At(start, t, job, phase)
      requires || (phase == Starting && state == Running && next == PersistingRunning)
               || (phase == CancelReporting && state == Cancelled && next == CancelMarking)
               || (phase.Reporting? && state == phase.outcome.Verdict() && next == Marking(phase.outcome))
      modifies this, queue, scheduler, tracker
      ensures At(start, t, job, next)
    {
      ghost var before := Abs();
      var now: u64 := *;
      tracker.UpdateState(job.id, state, now);
      Release(start, before, t, Go(Success));
    }

    method PersistState(ghost start: State, t: ThreadId, job: Job, state: JobState, ghost phase: Phase, ghost next: Phase)
      requires At(start, t, job, phase)
      requires || (phase == PersistingNew && state == Pending && next == Enqueueing)
               || (phase == PersistingRunning && state == Running && next == Publishing)
      modifies this, queue, scheduler, tracker
      ensures At(start, t, job, next)
    {
      ghost var before := Abs();
      Persist(job.id, state);
      Release(start, before, t, Go(Success));
    }

    method MarkOutcome(ghost start: State, t: ThreadId, job: Job, state: JobState, ghost phase: Phase, ghost next: Phase)
      requires At(start, t, job, phase)
      requires || (phase == CancelMarking && state == Cancelled && next == CancelPersisting)
               || (phase.Marking? && state == phase.outcome.Verdict() && next == PersistingVerdict(phase.outcome))
      modifies this, queue, scheduler, tracker
      ensures At(start, t, job, next)
    {
      ghost var before := Abs();
      if state == Completed {
        scheduler.MarkCompleted(job.id);
      } else {
        scheduler.MarkDead(job.id);
      }
      Release(start, before, t, Go(Success));
    }

    /** The last region of an operation: persist the final state of the job. */
    method PersistFinal(ghost start: State, t: ThreadId, job: Job, state: JobState, ghost phase: Phase, ghost how: How)
      requires At(start, t, job, phase)
      requires || (phase == CancelPersisting && state == Cancelled && how == CancelledByCaller)
               || (how.Ran? && phase == PersistingVerdict(how.outcome) && state == how.outcome.Verdict())
      modifies this
      ensures AtCounter(start, t, Idle) && PlaceOf(job.id, Ended(how))
    {
      ghost var before := Abs();
      Persist(job.id, state);
      FinalRegion(before, t, job, state, phase, how);
      Commit(before, t, Go(Success));
      StepLeads(start, before, t, Go(Success));
    }

    // ----- submit_with_deps -----

    method RegisterEdges(ghost start: State, t: ThreadId, job: Job, deps: seq<JobId>)
      requires Inv(start) && At(start, t, job, Registering(deps))
      modifies this, queue, scheduler, tracker
      ensures At(start, t, job, Tracking) && DependsOn(job.id, deps)
    {
      ghost var before := Abs();
      scheduler.Register(job.id, deps);
      ghost var after := Next(before, t, Go(Success));
      Release(start, before, t, Go(Success));
      LeadsInv(start, before);
      NextKeepsInv(before, t, Go(Success));
      LeadsGrow(after, Abs());
    }

    method RegisterProgress(ghost start: State, t: ThreadId, job: Job)
      requires At(start, t, job, Tracking)
      modifies this, queue, scheduler, tracker
      ensures At(start, t, job, Describing)
    {
      ghost var before := Abs();
      var now: u64 := *;
      tracker.Register(job.id, now);
      Release(start, before, t, Go(Success));
    }

    method Describe(ghost start: State, t: ThreadId, job: Job)
      requires At(start, t, job, Describing)
      modifies this, queue, scheduler, tracker
      ensures At(start, t, job, PersistingNew)
    {
      ghost var before := Abs();
      described := described + {job.id};
      Release(start, before, t, Go(Success));
    }

    method Enqueue(ghost start: State, t: ThreadId, job: Job)
      requires Inv(start) && At(start, t, job, Enqueueing)
      modifies this, queue
      ensures AtCounter(start, t, Idle) && PlaceOf(job.id, Queued) && InQueue(job)
    {
      ghost var before := Abs();
      LeadsInv(start, before);
      queue.Push(job);
      PushedIsIn(before.queue, job);
      Commit(before, t, Go(Success));
      StepLeads(start, before, t, Go(Success));
    }

    /** The regions of a submission after the registration. */
    method Enlist(ghost start: State, t: ThreadId, job: Job)
      requires Inv(start) && At(start, t, job, Tracking)
      modifies this, queue, scheduler, tracker
      ensures AtCounter(start, t, Idle) && PlaceOf(job.id, Queued) && InQueue(job)
    {
      RegisterProgress(start, t, job);
      Describe(start, t, job);
      PersistState(start, t, job, Pending, PersistingNew, Enqueueing);
      Enqueue(start, t, job);
    }

    /** Refused once the pipeline is shut down; otherwise the job ends up queued with its priority, and
        registered with its dependencies, whatever the other threads do meanwhile. */
    method SubmitWithDeps(t: ThreadId, job: Job, deps: seq<JobId>) returns (accepted: bool)
      requires Inv(Abs()) && t in threads && threads[t] == Idle && job.id !in places
      modifies this, queue, scheduler, tracker
      ensures AtCounter(old(Abs()), t, Idle) && Inv(Abs())
      ensures accepted <==> !old(shutdown)
      ensures accepted ==> PlaceOf(job.id, Queued) && InQueue(job) && DependsOn(job.id, deps)
      ensures accepted ==> Shows(Abs(), job.id, Pending)
      ensures !accepted ==> Abs() == old(Abs())
    {
      ghost var start := Abs();
      LeadsReflexive(start, t);
      if shutdown {
        return false;
      }
      Release(start, start, t, Submit(job, deps));
      RegisterEdges(start, t, job, deps);
      ghost var registered := Abs();
      LeadsInv(start, registered);
      LeadsReflexive(registered, t);
      Enlist(registered, t, job);
      LeadsGrow(registered, Abs());
      LeadsTransitive(start, registered, Abs());
      LeadsInv(start, Abs());
      QueuedShows(Abs(), job.id);
      accepted := true;
    }

    // ----- cancel -----

    method BuryCancelled(ghost start: State, t: ThreadId, job: Job)
      requires At(start, t, job, CancelReporting)
      modifies this, queue, scheduler, tracker
      ensures AtCounter(start, t, Idle) && PlaceOf(job.id, Ended(CancelledByCaller))
    {
      UpdateState(start, t, job, Cancelled, CancelReporting, CancelMarking);
      MarkOutcome(start, t, job, Cancelled, CancelMarking, CancelPersisting);
      PersistFinal(start, t, job, Cancelled, CancelPersisting, CancelledByCaller);
    }

    /** Unknown jobs are an error. For any other, `seen` is the state in which the queue is looked at: a
        job that is queued there ends cancelled, otherwise its token is set if it is published. */
    method Cancel(t: ThreadId, id: JobId) returns (known: bool, ghost seen: State)
      requires Inv(Abs()) && t in threads && threads[t] == Idle
      modifies this, queue, scheduler, tracker
      ensures AtCounter(old(Abs()), t, Idle) && Inv(Abs())
      ensures known <==> id in old(tracker.jobs)
      ensures !known ==> Abs() == old(Abs())
      ensures known ==> Leads(old(Abs()), seen) && t in seen.threads && seen.threads[t] == Dequeueing(id)
      ensures known ==> Leads(seen, Abs())
      ensures known && IsQueued(seen.queue.entries, id) ==>
                PlaceOf(id, Ended(CancelledByCaller)) && Shows(Abs(), id, Cancelled)
      ensures known && !IsQueued(seen.queue.entries, id) ==> (id in running ==> running[id])
    {
      ghost var start := Abs();
      LeadsReflexive(start, t);
      seen := start;
      var snapshot := tracker.Snapshot(id);
      if snapshot.None? {
        return false, seen;
      }
      Release(start, start, t, Choice.Cancel(id));
      seen := Abs();
      LeadsInv(start, seen);
      LeadsReflexive(seen, t);
      var job, found := TakeQueued(seen, t, id);
      if found {
        BuryCancelled(seen, t, job);
      } else {
        Signal(seen, t, id);
      }
      LeadsTransitive(start, seen, Abs());
      LeadsInv(start, Abs());
      if found { EndShows(Abs(), id, CancelledByCaller); }
      known := true;
    }

    method TakeQueued(ghost start: State, t: ThreadId, id: JobId) returns (job: Job, found: bool)
      requires Inv(start) && AtCounter(start, t, Dequeueing(id))
      modifies this, queue, scheduler, tracker
      ensures found ==> At(start, t, job, CancelReporting) && job.id == id
      ensures !found ==> AtCounter(start, t, Signalling(id))
      ensures found <==> IsQueued(old(queue.entries), id)
    {
      ghost var before := Abs();
      LeadsInv(start, before);
      QueuedIff(queue.entries, id);
      job, found := queue.Remove(id);
      Release(start, before, t, Go(Success));
    }

    method Signal(ghost start: State, t: ThreadId, id: JobId)
      requires AtCounter(start, t, Signalling(id))
      modifies this
      ensures AtCounter(start, t, Idle)
      ensures running == if id in old(running) then old(running)[id := true] else old(running)
    {
      ghost var before := Abs();
      if id in running {
        running := running[id := true];
      }
      Commit(before, t, Go(Success));
      StepLeads(start, before, t, Go(Success));
    }

    method Stop(t: ThreadId)
      requires Inv(Abs()) && t in threads && threads[t] == Idle
      modifies this
      ensures AtCounter(old(Abs()), t, Idle) && Inv(Abs()) && shutdown
    {
      ghost var start := Abs();
      LeadsReflexive(start, t);
      shutdown := true;
      Commit(start, t, Choice.Stop);
      StepLeads(start, start, t, Choice.Stop);
      LeadsInv(start, Abs());
    }

    // ----- run_job -----

    method Publish(ghost start: State, t: ThreadId, job: Job)
      requires At(start, t, job, Publishing)
      modifies this, queue, scheduler, tracker
      ensures At(start, t, job, Executing)
    {
      ghost var before := Abs();
      running := running[job.id := false];
      Release(start, before, t, Go(Success));
    }

    method Execute(ghost start: State, t: ThreadId, job: Job, result: ExecResult) returns (verdict: JobState)
      requires At(start, t, job, Executing)
      modifies this, queue, scheduler, tracker
      ensures verdict == result.Verdict() && At(start, t, job, Retiring(result))
    {
      verdict := match result
        case Success => Completed
        case CancelledError => Cancelled
        case OtherError => Failed
        case Panic => Failed;
      Release(start, Abs(), t, Go(result));
    }

    method Retire(ghost start: State, t: ThreadId, job: Job, ghost result: ExecResult)
      requires At(start, t, job, Retiring(result))
      modifies this, queue, scheduler, tracker
      ensures At(start, t, job, Reporting(result))
    {
      ghost var before := Abs();
      running := running - {job.id};
      Release(start, before, t, Go(Success));
    }

    method Prepare(ghost start: State, t: ThreadId, job: Job)
      requires At(start, t, job, Starting)
      modifies this, queue, scheduler, tracker
      ensures At(start, t, job, Executing)
    {
      UpdateState(start, t, job, Running, Starting, PersistingRunning);
      PersistState(start, t, job, Running, PersistingRunning, Publishing);
      Publish(start, t, job);
    }

    method Conclude(ghost start: State, t: ThreadId, job: Job, verdict: JobState, ghost result: ExecResult)
      requires At(start, t, job, Reporting(result)) && verdict == result.Verdict()
      modifies this, queue, scheduler, tracker
      ensures AtCounter(start, t, Idle) && PlaceOf(job.id, Ended(Ran(result)))
    {
      UpdateState(start, t, job, verdict, Reporting(result), Marking(result));
      MarkOutcome(start, t, job, verdict, Marking(result), PersistingVerdict(result));
      PersistFinal(start, t, job, verdict, PersistingVerdict(result), Ran(result));
    }

    /** The life of a job in the hands of a worker; `result` is what `execute` comes back with, and it
        decides what the tracker and the database show in the end. */
    method RunJob(ghost start: State, t: ThreadId, job: Job, result: ExecResult)
      requires Inv(start) && At(start, t, job, Starting)
      modifies this, queue, scheduler, tracker
      ensures AtCounter(start, t, Idle) && PlaceOf(job.id, Ended(Ran(result)))
      ensures result == Success ==> Shows(Abs(), job.id, Completed)
      ensures result == CancelledError ==> Shows(Abs(), job.id, Cancelled)
      ensures result == OtherError || result == Panic ==> Shows(Abs(), job.id, Failed)
    {
      Prepare(start, t, job);
      var verdict := Execute(start, t, job, result);
      Retire(start, t, job, result);
      Conclude(start, t, job, verdict, result);
      LeadsInv(start, Abs());
      EndShows(Abs(), job.id, Ran(result));
    }

    // ----- try_take -----

    method CollectBlocked() returns (blocked: seq<JobId>)
      ensures blocked == Blocked(queue.entries, scheduler.Abs())
    {
      blocked := [];
      ghost var edges := scheduler.Abs();
      for i := 0 to |queue.entries|
        invariant blocked + Blocked(queue.entries[i..], edges) == Blocked(queue.entries, edges)
      {
        assert queue.entries[i..][1..] == queue.entries[i + 1..];
        var id := queue.entries[i].job.id;
        if scheduler.Abs().IsBlocked(id) {
          blocked := blocked + [id];
        }
      }
    }

    method PersistSwept(ghost start: State, t: ThreadId, job: Job, ghost rest: seq<JobId>)
      requires At(start, t, job, SweepPersisting(rest))
      modifies this, queue, scheduler, tracker
      ensures AtCounter(start, t, Sweeping(rest))
    {
      ghost var before := Abs();
      Persist(job.id, Cancelled);
      Release(start, before, t, Go(Success));
    }

    /** The rest of the region that took a blocked job out. */
    method BurySwept(ghost before: State, t: ThreadId, job: Job, ghost todo: seq<JobId>)
      requires SweepsOut(before, t, job, todo) && Abs() == before.Dequeue(FirstIndex(before.queue.entries, SameId(job.id)))
      modifies this, queue, scheduler, tracker
      ensures At(Next(before, t, Go(Success)), t, job, SweepPersisting(todo[1..]))
    {
      var now: u64 := *;
      tracker.UpdateState(job.id, Cancelled, now);
      scheduler.MarkDead(job.id);
      SweepRegion(before, t, job, todo);
      LeadsReflexive(before, t);
      StepLeads(before, before, t, Go(Success));
      Land(before, Next(before, t, Go(Success)), t);
    }

    /** Cancels `todo[0]` if it is still queued, dropping and retaking the locks; otherwise the
        current lock region goes on. */
    method SweepOne(t: ThreadId, id: JobId, ghost todo: seq<JobId>)
      requires Inv(Abs()) && Sweeps(Abs(), t, todo) && todo != [] && todo[0] == id
      requires Enlisted(Abs(), id)
      modifies this, queue, scheduler, tracker
      ensures Sweeps(Abs(), t, todo[1..])
      ensures Abs() == old(Abs()) || WentOn(old(Abs()), t, Abs())
      ensures LeftQueue(Abs(), id)
    {
      ghost var before := Abs();
      SameIdIndex(queue.entries, id);
      var job, found := queue.Remove(id);
      if found {
        BurySwept(before, t, job, todo);
        PersistSwept(Next(before, t, Go(Success)), t, job, todo[1..]);
        SweptHasLeft(before, t, job, todo);
        NextKeepsInv(before, t, Go(Success));
        LeadsLeft(Next(before, t, Go(Success)), Abs(), id);
      } else {
        SkipGone(before, t, todo);
        assert Abs() == before;
        GoneHasLeft(before, id);
      }
    }

    method PopFirstReady(t: ThreadId) returns (take: Take)
      requires Inv(Abs()) && Sweeps(Abs(), t, [])
      modifies this, queue, scheduler, tracker
      ensures Finds(old(Abs()), t, take) && WentOn(old(Abs()), t, Abs())
      ensures t in threads && threads[t] == CounterOf(take)
    {
      ghost var before := Abs();
      SweepsNext(before, t, []);
      LeadsReflexive(before, t);
      StepLeads(before, before, t, Go(Success));
      if shutdown && queue.entries == [] {
        Land(before, PopRegion(before, t), t);
        return Take.Shutdown;
      }
      PopCases(before, t);
      take := PopEntry(before);
      PopLands(before, Abs(), t, take);
      PoppedFinds(before, Abs(), t, take);
      Land(before, PopRegion(before, t), t);
    }

    /** Takes the first ready job, if any, out of the queue and changes nothing else. */
    method PopEntry(ghost before: State) returns (take: Take)
      requires Abs() == before && QueueOk(before.queue)
      modifies queue
      ensures Popped(before, Abs(), take)
    {
      var job, found := queue.PopReady(scheduler.Abs().ReadyTest());
      take := if found then Found(job) else Empty;
    }

    /** A sweep over the jobs that are blocked when it begins, then one pop. */
    method TryTake(t: ThreadId) returns (take: Take, ghost look: Look)
      requires Inv(Abs()) && t in threads && threads[t] == Taking
      modifies this, queue, scheduler, tracker
      ensures t in threads && threads[t] == CounterOf(take)
      ensures look.take == take && Looked(look, t, old(Abs()), Abs())
    {
      ghost var seen := Abs();
      LeadsReflexive(seen, t);
      var blocked := CollectBlocked();
      for i := 0 to |blocked|
        invariant Since(seen, t, Abs()) && Sweeps(Abs(), t, blocked[i..])
        invariant AllLeft(Abs(), blocked[..i])
      {
        assert blocked[i..][1..] == blocked[i + 1..];
        SweepNext(seen, t, blocked, i);
      }
      assert blocked[..|blocked|] == blocked;
      ghost var last := Abs();
      SinceLeads(seen, last, t);
      LeadsInv(seen, last);
      take := PopFirstReady(t);
      look := Look(seen, last, take);
      SinceAlso(seen, last, Abs(), t);
    }

    /** One step of the sweep. */
    method SweepNext(ghost seen: State, t: ThreadId, blocked: seq<JobId>, i: nat)
      requires Inv(seen) && Since(seen, t, Abs()) && blocked == Blocked(seen.queue.entries, seen.edges)
      requires i < |blocked| && Sweeps(Abs(), t, blocked[i..]) && AllLeft(Abs(), blocked[..i])
      modifies this, queue, scheduler, tracker
      ensures Since(seen, t, Abs()) && Sweeps(Abs(), t, blocked[i..][1..])
      ensures AllLeft(Abs(), blocked[..i + 1])
    {
      ghost var before := Abs();
      SinceLeads(seen, before, t);
      LeadsInv(seen, before);
      BlockedIsEnlisted(seen, before, i);
      SweepOne(t, blocked[i], blocked[i..]);
      SinceAlso(seen, before, Abs(), t);
      OneMoreLeft(before, Abs(), blocked, i);
    }

    // ----- run -----

    /** Nothing to do: return if shut down and drained, else wait for a while. */
    method Rest(t: ThreadId) returns (exited: bool)
      requires t in threads && threads[t] == Resting
      modifies this, queue, scheduler, tracker
      ensures AtCounter(old(Abs()), t, if exited then Exited else Idle)
      ensures exited ==> DrainedBetween(old(Abs()), Abs())
    {
      ghost var before := Abs();
      exited := shutdown && queue.entries == [];
      LeadsReflexive(before, t);
      Release(before, before, t, Go(Success));
      if exited { DrainedAt(before, before, Abs()); }
    }

    /** One round of the worker loop. If it finds the shutdown flag set it returns at once, whether or
        not the queue is drained. Otherwise it looks for work once: a job that it finds has run to its
        end when the round is over, and the worker returns only after it saw the flag set and the queue
        empty in one region. */
    method WorkerRound(t: ThreadId, result: ExecResult) returns (exited: bool, ghost look: Option<Look>)
      requires Inv(Abs()) && t in threads && threads[t] == Idle
      modifies this, queue, scheduler, tracker
      ensures AtCounter(old(Abs()), t, if exited then Exited else Idle)
      ensures old(shutdown) ==> exited && look == None && Abs() == old(Abs()).Goto(t, Exited)
      ensures !old(shutdown) ==> look.Some? && Looked(look.value, t, old(Abs()), Abs())
      ensures look.Some? && look.value.take.Found? ==>
                !exited && PlaceOf(look.value.take.job.id, Ended(Ran(result)))
      ensures exited && !old(shutdown) ==> DrainedBetween(old(Abs()), Abs())
    {
      ghost var before := Abs();
      LeadsReflexive(before, t);
      if shutdown {
        Commit(before, t, Work);
        StepLeads(before, before, t, Work);
        return true, None;
      }
      Release(before, before, t, Work);
      LeadsInv(before, Abs());
      exited, look := LookAndRun(before, t, result);
    }

    /** The part of a round behind the first check of the flag. */
    method LookAndRun(ghost start: State, t: ThreadId, result: ExecResult) returns (exited: bool, ghost look: Option<Look>)
      requires Inv(start) && AtCounter(start, t, Taking)
      modifies this, queue, scheduler, tracker
      ensures AtCounter(start, t, if exited then Exited else Idle)
      ensures look.Some? && Looked(look.value, t, start, Abs())
      ensures look.value.take.Found? ==> !exited && PlaceOf(look.value.take.job.id, Ended(Ran(result)))
      ensures exited ==> DrainedBetween(start, Abs())
    {
      ghost var entered := Abs();
      LeadsInv(start, entered);
      ghost var l: Look;
      var take;
      take, l := TryTake(t);
      ghost var taken := Abs();
      LookedSooner(l, t, start, entered, taken);
      LeadsInv(start, taken);
      LeadsReflexive(taken, t);
      look := Some(l);
      match take {
        case Found(job) => RunJob(taken, t, job, result); exited := false;
        case Shutdown => exited := true; DrainedAt(start, l.last, taken);
        case Empty => exited := Rest(t); if exited { DrainedSooner(start, taken, Abs()); }
      }
      LookedFurther(l, t, start, taken, Abs());
      LeadsTransitive(start, taken, Abs());
    }

    /** The worker loop, for at most as many rounds as there are results for the jobs it may run. Unless
        it returns, it looks for work once in every round; what it found has run, each job to the result
        of its round, and it returns only after a shutdown. */
    method WorkerLoop(t: ThreadId, results: seq<ExecResult>) returns (ghost looks: seq<Look>)
      requires Inv(Abs()) && t in threads && threads[t] == Idle
      modifies this, queue, scheduler, tracker
      ensures Leads(old(Abs()), Abs()) && Inv(Abs())
      ensures t in threads && (threads[t] == Idle || threads[t] == Exited)
      ensures threads[t] == Exited ==> shutdown
      ensures threads[t] == Idle ==> |looks| == |results|
      ensures |looks| <= |results| && Chained(looks, t, old(Abs()), Abs())
      ensures forall i :: 0 <= i < |looks| && looks[i].take.Found? ==> PlaceOf(looks[i].take.job.id, Ended(Ran(results[i])))
    {
      ghost var start := Abs();
      LeadsReflexive(start, t);
      looks := [];
      var exited := false;
      var round := 0;
      while !exited && round < |results|
        invariant 0 <= round <= |results|
        invariant AtCounter(start, t, if exited then Exited else Idle)
        invariant exited ==> shutdown
        invariant |looks| <= round && (!exited ==> |looks| == round)
        invariant Chained(looks, t, start, Abs()) && AllRan(looks, results, Abs())
      {
        ghost var before := Abs();
        LeadsInv(start, before);
        ghost var look: Option<Look>;
        exited, look := WorkerRound(t, results[round]);
        ExitedIsShutdown(before, Abs(), exited);
        RoundDone(looks, look, results, t, start, before, Abs());
        looks := Extended(looks, look);
        round := round + 1;
      }
      LeadsInv(start, Abs());
    }
  }
}
