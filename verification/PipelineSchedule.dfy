/** Schedules that can be run: every pipeline comes to rest, and what the code lets happen. */
module PipelineSchedules {
  import opened Bytes
  import opened JobQueues
  import opened Schedulers
  import opened JobStates
  import opened Pipelines
  import opened PipelineInvariant
  import opened PipelineSafety
  import opened PipelineLiveness
  import opened PipelineRest

  // ----- When a worker returns -----

  predicate LooksForWork(pc: ProgramCounter) {
    pc.Taking? || pc.Sweeping? || pc.Resting?
  }

  lemma TakeExits(s: State, t: ThreadId, todo: seq<JobId>)
    requires t in s.threads
    ensures var s' := TakeRegion(s, t, todo);
            && t in s'.threads
            && (s'.threads[t] == Exited <==> s.shutdown && s.queue.entries == [])
            && (s'.threads[t] == Exited ==> s'.queue == s.queue)
  {
    if FirstQueued(s.queue.entries, todo) < |todo| {
    } else if s.shutdown && s.queue.entries == [] {
    } else if FirstIndex(s.queue.entries, s.edges.ReadyTest()) < |s.queue.entries| {
    } else {
    }
  }

  lemma AdvanceCounters(s: State, t: ThreadId, job: Job, phase: Phase, result: ExecResult)
    ensures var s' := Advance(s, t, job, phase, result);
            && s'.threads == s.threads[t := s'.threads[t]] && s'.threads[t] != Exited
            && s'.places == s.places[job.id := After(t, phase, result)] && s'.shutdown == s.shutdown
  {
    EffectScalars(s, job, phase);
  }

  lemma DequeueExits(s: State, t: ThreadId, id: JobId)
    requires t in s.threads
    ensures t in DequeueRegion(s, t, id).threads && DequeueRegion(s, t, id).threads[t] != Exited
  {
    if FirstIndex(s.queue.entries, SameId(id)) < |s.queue.entries| {} else {}
  }

  lemma GoExits(s: State, t: ThreadId, result: ExecResult)
    requires Enabled(s, t, Go(result))
    ensures var s' := Next(s, t, Go(result));
            && t in s'.threads
            && (s'.threads[t] == Exited <==> s.shutdown && LooksForWork(s.threads[t]) && s.queue.entries == [])
            && (s'.threads[t] == Exited ==> s'.queue == s.queue)
  {
    match s.threads[t]
    case Taking => TakeExits(s, t, Blocked(s.queue.entries, s.edges));
    case Sweeping(rest) => TakeExits(s, t, rest);
    case Dequeueing(id) => DequeueExits(s, t, id);
    case Holding(job, phase) => AdvanceCounters(s, t, job, phase, result);
    case _ =>
  }

  /** A worker returns exactly when it sees the shutdown flag at the head of its loop, whatever is
      queued, or when it looks for work, sees the flag, and the queue is empty. */
  lemma ExitsIff(s: State, t: ThreadId, c: Choice)
    requires Enabled(s, t, c)
    ensures var s' := Next(s, t, c);
            && t in s'.threads
            && (s'.threads[t] == Exited <==>
                  s.shutdown && (c == Work || (c.Go? && LooksForWork(s.threads[t]) && s.queue.entries == [])))
            && (s'.threads[t] == Exited ==> s'.queue == s.queue)
  {
    if c.Go? { GoExits(s, t, c.result); }
  }

  // ----- Building schedules -----

  lemma Then(s: State, steps: seq<Step>, t: ThreadId, c: Choice)
    requires CanRun(s, steps) && Enabled(Run(s, steps), t, c)
    ensures CanRun(s, steps + [Step(t, c)])
    ensures Run(s, steps + [Step(t, c)]) == Next(Run(s, steps), t, c)
  {
    var one := [Step(t, c)];
    var none: seq<Step> := one[1..];
    assert none == [];
    RunExtends(s, steps, one);
  }

  /** What an undisturbed submission makes of the state. */
  function Submitted(s: State, t: ThreadId, job: Job, deps: seq<JobId>): State {
    s.(edges := s.edges.(deps := s.edges.deps[job.id := deps]), tracker := s.tracker[job.id := Pending],
       described := s.described + {job.id},
       records := if s.attached then s.records[job.id := Pending] else s.records,
       queue := s.queue.Apply(Push(job)), threads := s.threads[t := Idle], places := s.places[job.id := Queued])
  }

  /** A region of a submission changes the shared data and moves its job and thread on. */
  lemma SubmitRegion(u: State, t: ThreadId, job: Job, phase: Phase, next: Phase)
    requires After(t, phase, Success) == Held(t, next) && !phase.SweepPersisting?
    requires phase.Registering? || phase in {Tracking, Describing, PersistingNew}
    requires t in u.threads
    ensures Enabled(u.Own(t, job, phase), t, Go(Success))
    ensures Next(u.Own(t, job, phase), t, Go(Success)) == Effect(u, job, phase).Own(t, job, next)
    ensures t in Effect(u, job, phase).threads
  {
    EffectIgnoresOwner(u, t, job, phase);
    OwnAgain(Effect(u, job, phase), t, job, phase, next);
  }

  lemma EffectIgnoresOwner(u: State, t: ThreadId, job: Job, phase: Phase)
    requires phase.Registering? || phase in {Tracking, Describing, PersistingNew}
    ensures Effect(u.Own(t, job, phase), job, phase) == Effect(u, job, phase).Own(t, job, phase)
  {
  }

  lemma OwnAgain(u: State, t: ThreadId, job: Job, phase: Phase, next: Phase)
    ensures u.Own(t, job, phase).Own(t, job, next) == u.Own(t, job, next)
  {
  }

  lemma LastRegion(u: State, t: ThreadId, job: Job)
    requires t in u.threads
    ensures Enabled(u.Own(t, job, Enqueueing), t, Go(Success))
    ensures Next(u.Own(t, job, Enqueueing), t, Go(Success))
            == Effect(u, job, Enqueueing).(threads := u.threads[t := Idle], places := u.places[job.id := Queued])
  {
    var s' := Advance(u.Own(t, job, Enqueueing), t, job, Enqueueing, Success);
    assert s'.threads == u.threads[t := Idle] && s'.places == u.places[job.id := Queued];
  }

  lemma SubmitRun(s: State, t: ThreadId, job: Job, deps: seq<JobId>) returns (steps: seq<Step>)
    requires Enabled(s, t, Submit(job, deps)) && !s.shutdown
    ensures CanRun(s, steps) && Run(s, steps) == Submitted(s, t, job, deps)
  {
    var go := Go(Success);
    steps := [];
    Then(s, steps, t, Submit(job, deps));
    steps := steps + [Step(t, Submit(job, deps))];
    SubmitRegion(s, t, job, Registering(deps), Tracking);
    var u1 := Effect(s, job, Registering(deps));
    Then(s, steps, t, go);
    steps := steps + [Step(t, go)];
    SubmitRegion(u1, t, job, Tracking, Describing);
    var u2 := Effect(u1, job, Tracking);
    Then(s, steps, t, go);
    steps := steps + [Step(t, go)];
    SubmitRegion(u2, t, job, Describing, PersistingNew);
    var u3 := Effect(u2, job, Describing);
    Then(s, steps, t, go);
    steps := steps + [Step(t, go)];
    SubmitRegion(u3, t, job, PersistingNew, Enqueueing);
    var u4 := Effect(u3, job, PersistingNew);
    Then(s, steps, t, go);
    steps := steps + [Step(t, go)];
    LastRegion(u4, t, job);
    Then(s, steps, t, go);
    steps := steps + [Step(t, go)];
  }

  // ----- What the code lets happen -----

  /** A new pipeline with one thread. */
  function NewPipeline(attached: bool): State {
    State(Queue([], 0), Edges(map[], {}, {}), map[], {}, map[], attached, map[], false, map[0 := Idle], map[], multiset{})
  }

  lemma FirstSubmission(attached: bool, job: Job, deps: seq<JobId>) returns (steps: seq<Step>)
    ensures Init(NewPipeline(attached)) && CanRun(NewPipeline(attached), steps)
    ensures var s := Run(NewPipeline(attached), steps);
            && s == Submitted(NewPipeline(attached), 0, job, deps)
            && s.queue.entries == [Entry(job, 0)]
  {
    steps := SubmitRun(NewPipeline(attached), 0, job, deps);
    var none: seq<Entry> := [];
    assert Insert(none, Entry(job, 0)) == [Entry(job, 0)];
  }

  /** A job that depends on itself, or on a job nobody submitted, is left behind: nothing can be
      taken, nobody holds a job, and it is still queued. */
  lemma LeftBehind(attached: bool, d: JobId) returns (steps: seq<Step>)
    ensures Init(NewPipeline(attached)) && CanRun(NewPipeline(attached), steps)
    ensures var s := Run(NewPipeline(attached), steps);
            AtRest(s, 0) && StuckPath(s, [1, d]) && IsQueued(s.queue.entries, 1)
  {
    steps := FirstSubmission(attached, Job(1, Normal), [d]);
    LoneJobWaits(Submitted(NewPipeline(attached), 0, Job(1, Normal), [d]), d);
  }

  lemma LoneJobWaits(s: State, d: JobId)
    requires s.queue.entries == [Entry(Job(1, Normal), 0)] && s.threads == map[0 := Idle] && s.places.Keys == {1}
    requires s.edges == Edges(map[1 := [d]], {}, {})
    ensures AtRest(s, 0) && StuckPath(s, [1, d]) && IsQueued(s.queue.entries, 1)
  {
    assert s.queue.entries[0].job.id == 1;
    assert s.edges.deps[1][0] == d && !Takeable(s, 1);
    TakeFindsIff(s, 0);
    assert [1, d][..1] == [1];
    assert DependencyPath(s.edges, [1, d]);
  }

  /** Workers do not wait for the queue to drain: after `stop` a worker returns although a job that
      is ready is queued. */
  lemma ReadyJobLeftQueued(attached: bool) returns (steps: seq<Step>)
    ensures Init(NewPipeline(attached)) && CanRun(NewPipeline(attached), steps)
    ensures var s := Run(NewPipeline(attached), steps);
            0 in s.threads && s.threads[0] == Exited && IsQueued(s.queue.entries, 1) && s.edges.IsReady(1)
  {
    steps := FirstSubmission(attached, Job(1, Normal), []);
    var s := Run(NewPipeline(attached), steps);
    assert s.queue.entries[0].job.id == 1;
    Then(NewPipeline(attached), steps, 0, Stop);
    var stopped := steps + [Step(0, Stop)];
    Then(NewPipeline(attached), stopped, 0, Work);
    steps := stopped + [Step(0, Work)];
  }

  /** A pipeline over a database with the records of an earlier one. */
  function Reopened(records: map<JobId, JobState>): State {
    NewPipeline(true).(records := records)
  }

  /** One region of the owner of a job, followed by another. */
  lemma GoOn(s: State, t: ThreadId, job: Job, phase: Phase)
    requires t in s.threads && s.threads[t] == Holding(job, phase)
    ensures Enabled(s, t, Go(Success))
    ensures var s' := Next(s, t, Go(Success));
            && (After(t, phase, Success).Held? ==> t in s'.threads && s'.threads[t] == Holding(job, After(t, phase, Success).phase))
            && s'.starts == Effect(s, job, phase).starts && s'.queue == Effect(s, job, phase).queue
            && s'.edges == Effect(s, job, phase).edges && s'.records == Effect(s, job, phase).records
  {
  }

  /** From the pop to the call of `execute`. */
  lemma PoppedStarts(s: State, job: Job) returns (steps: seq<Step>)
    requires 0 in s.threads && s.threads[0] == Holding(job, Starting)
    ensures CanRun(s, steps) && Run(s, steps).starts == s.starts + multiset{job.id}
  {
    var go := Go(Success);
    GoOn(s, 0, job, Starting);
    var s1 := Next(s, 0, go);
    GoOn(s1, 0, job, PersistingRunning);
    var s2 := Next(s1, 0, go);
    GoOn(s2, 0, job, Publishing);
    steps := [];
    Then(s, steps, 0, go);
    steps := steps + [Step(0, go)];
    Then(s, steps, 0, go);
    steps := steps + [Step(0, go)];
    Then(s, steps, 0, go);
    steps := steps + [Step(0, go)];
  }

  lemma LookAndPop(s: State, job: Job) returns (steps: seq<Step>)
    requires 0 in s.threads && s.threads[0] == Idle && !s.shutdown
    requires s.queue.entries == [Entry(job, 0)] && s.edges.IsReady(job.id) && !s.edges.IsBlocked(job.id)
    ensures CanRun(s, steps)
    ensures var s' := Run(s, steps); 0 in s'.threads && s'.threads[0] == Holding(job, Starting) && s'.starts == s.starts
  {
    steps := [];
    Then(s, steps, 0, Choice.Work);
    steps := steps + [Step(0, Choice.Work)];
    TakeOnly(s.Goto(0, Taking), job);
    Then(s, steps, 0, Go(Success));
    steps := steps + [Step(0, Go(Success))];
  }

  lemma LoneJobRuns(records: map<JobId, JobState>, id: JobId) returns (steps: seq<Step>)
    ensures Init(Reopened(records)) && CanRun(Reopened(records), steps)
    ensures Run(Reopened(records), steps).starts[id] == 1
  {
    var start, job := Reopened(records), Job(id, Normal);
    var first := SubmitRun(start, 0, job, []);
    var s1 := Submitted(start, 0, job, []);
    var none: seq<Entry> := [];
    assert Insert(none, Entry(job, 0)) == [Entry(job, 0)];
    var second := LookAndPop(s1, job);
    var s2 := Run(s1, second);
    var third := PoppedStarts(s2, job);
    RunExtends(start, first, second);
    RunExtends(start, first + second, third);
    steps := first + second + third;
  }

  /** Taking from a queue with one ready job. */
  lemma TakeOnly(s: State, job: Job)
    requires s.queue.entries == [Entry(job, 0)] && s.edges.IsReady(job.id) && !s.edges.IsBlocked(job.id)
    ensures TakeRegion(s, 0, Blocked(s.queue.entries, s.edges)) == s.Dequeue(0).Own(0, job, Starting)
  {
    var none: seq<Entry> := s.queue.entries[1..];
    assert none == [] && Blocked(none, s.edges) == [];
    assert Blocked(s.queue.entries, s.edges) == [];
    assert s.edges.ReadyTest()(job.id);
  }

  /** From taking a job out of the queue to the mark in the scheduler. */
  lemma CancelMarks(s: State, job: Job) returns (steps: seq<Step>)
    requires 0 in s.threads && s.threads[0] == Holding(job, CancelReporting)
    ensures CanRun(s, steps)
    ensures var s' := Run(s, steps);
            s'.edges == Apply(s.edges, Death(job.id)) && s'.queue == s.queue && s'.records == s.records
  {
    var go := Go(Success);
    GoOn(s, 0, job, CancelReporting);
    GoOn(Next(s, 0, go), 0, job, CancelMarking);
    steps := [];
    Then(s, steps, 0, go);
    steps := steps + [Step(0, go)];
    Then(s, steps, 0, go);
    steps := steps + [Step(0, go)];
  }

  lemma CancelTakes(s: State, a: Entry, rest: seq<Entry>) returns (steps: seq<Step>)
    requires 0 in s.threads && s.threads[0] == Idle && s.queue.entries == [a] + rest && a.job.id in s.tracker
    ensures CanRun(s, steps)
    ensures Run(s, steps) == s.Goto(0, Dequeueing(a.job.id)).Dequeue(0).Own(0, a.job, CancelReporting)
  {
    HeadTaken(s.Goto(0, Dequeueing(a.job.id)), a, rest);
    steps := [];
    Then(s, steps, 0, Cancel(a.job.id));
    steps := steps + [Step(0, Cancel(a.job.id))];
    Then(s, steps, 0, Go(Success));
    steps := steps + [Step(0, Go(Success))];
  }

  /** A cancel of the job at the head of the queue, up to the mark in the scheduler. */
  lemma CancelHead(s: State, a: Entry, rest: seq<Entry>) returns (steps: seq<Step>)
    requires 0 in s.threads && s.threads[0] == Idle && s.queue.entries == [a] + rest && a.job.id in s.tracker
    ensures CanRun(s, steps)
    ensures var s' := Run(s, steps);
            s'.edges == Apply(s.edges, Death(a.job.id)) && s'.queue.entries == rest && s'.records == s.records
  {
    var first := CancelTakes(s, a, rest);
    HeadTaken(s, a, rest);
    var second := CancelMarks(Run(s, first), a.job);
    RunExtends(s, first, second);
    steps := first + second;
  }

  lemma HeadTaken(s: State, a: Entry, rest: seq<Entry>)
    requires s.queue.entries == [a] + rest
    ensures DequeueRegion(s, 0, a.job.id) == s.Dequeue(0).Own(0, a.job, CancelReporting)
    ensures s.Dequeue(0).queue.entries == rest
  {
    assert SameId(a.job.id)(a.job.id) && FirstIndex(s.queue.entries, SameId(a.job.id)) == 0;
    assert RemoveAt([a] + rest, 0) == rest;
  }

  /** Two submissions, the second depending on the first, and a cancel of the first. */
  lemma DependencyCancelled() returns (steps: seq<Step>)
    ensures Init(NewPipeline(true)) && CanRun(NewPipeline(true), steps)
    ensures var s := Run(NewPipeline(true), steps);
            && s.edges.IsBlocked(2) && IsQueued(s.queue.entries, 2)
            && 2 in s.records && s.records[2] == Pending
  {
    var start := NewPipeline(true);
    var first := FirstSubmission(true, Job(1, Normal), []);
    var s1 := Submitted(start, 0, Job(1, Normal), []);
    var second := SubmitRun(s1, 0, Job(2, Normal), [1]);
    var s2 := Submitted(s1, 0, Job(2, Normal), [1]);
    var a, b := Entry(Job(1, Normal), 0), Entry(Job(2, Normal), 1);
    var none: seq<Entry> := [a][1..];
    assert none == [] && Insert(none, b) == [b] && s2.queue.entries == [a] + [b];
    var third := CancelHead(s2, a, [b]);
    RunExtends(start, first, second);
    RunExtends(start, first + second, third);
    steps := first + second + third;
    var s := Run(s2, third);
    assert s.queue.entries[0].job.id == 2;
    assert s.edges.deps[2][0] == 1 && 1 in s.edges.dead;
  }

  /** Dependencies are not persisted: a job whose dependency is dead, so that it could never run, is
      run by a pipeline that recovers it, because it is submitted there without any. */
  lemma RecoveredRunsRegardless() returns (before: seq<Step>, after: seq<Step>)
    ensures Init(NewPipeline(true)) && CanRun(NewPipeline(true), before)
    ensures var s := Run(NewPipeline(true), before);
            && s.edges.IsBlocked(2) && 2 in s.records && s.records[2] == Pending
            && Init(Reopened(s.records)) && CanRun(Reopened(s.records), after)
            && Run(Reopened(s.records), after).starts[2] == 1
  {
    before := DependencyCancelled();
    after := LoneJobRuns(Run(NewPipeline(true), before).records, 2);
  }

  /** A job submitted without dependencies, as recovery submits them all, is ready for good. */
  lemma NeverWaits(s: State, steps: seq<Step>, id: JobId)
    requires Reachable(s) && CanRun(s, steps) && id in s.edges.deps && s.edges.deps[id] == []
    ensures Run(s, steps).edges.IsReady(id) && !Run(s, steps).edges.IsBlocked(id)
  {
    ReachableInv(s);
    RunGrows(s, steps);
    assert Run(s, steps).edges.deps[id] == [];
  }

  // ----- Every pipeline comes to rest -----

  /** Only workers move, and every job that is executed ends as `results` says. */
  ghost predicate Unattended(s: State, steps: seq<Step>, results: JobId -> ExecResult)
    requires CanRun(s, steps)
    decreases |steps|
  {
    steps != [] ==>
      var t, c := steps[0].thread, steps[0].choice;
      && OnItsOwn(s, t, c, results)
      && Unattended(Next(s, t, c), steps[1..], results)
  }

  predicate OnItsOwn(s: State, t: ThreadId, c: Choice, results: JobId -> ExecResult)
    requires Enabled(s, t, c)
  {
    c == Work || (c.Go? && (s.threads[t].Holding? && s.threads[t].phase == Executing ==> c.result == results(s.threads[t].job.id)))
  }

  lemma First(s: State, t: ThreadId, c: Choice, rest: seq<Step>, results: JobId -> ExecResult)
    requires Enabled(s, t, c) && OnItsOwn(s, t, c, results)
    requires CanRun(Next(s, t, c), rest) && Unattended(Next(s, t, c), rest, results)
    ensures CanRun(s, [Step(t, c)] + rest) && Unattended(s, [Step(t, c)] + rest, results)
    ensures Run(s, [Step(t, c)] + rest) == Run(Next(s, t, c), rest)
  {
    assert ([Step(t, c)] + rest)[1..] == rest;
  }

  /** How many steps a thread that holds nothing is away from the head of its loop. */
  function Distance(pc: ProgramCounter): nat {
    match pc
    case Idle => 0
    case Resting => 1
    case Signalling(_) => 1
    case _ => 2
  }

  lemma HolderUses(s: State, u: ThreadId, job: Job, phase: Phase, result: ExecResult)
    requires Inv(s) && u in s.threads && s.threads[u] == Holding(job, phase)
    ensures job.id in s.places
    ensures PipelineLiveness.Work(s.places[job.id := After(u, phase, result)]) < PipelineLiveness.Work(s.places)
  {
    HolderView(s, u);
    MoveUsesWork(s.places, job.id, After(u, phase, result), u);
  }

  /** A holder of a job uses up work. */
  lemma HolderMoves(s: State, u: ThreadId, result: ExecResult)
    requires Inv(s) && u in s.threads && s.threads[u].Holding?
    ensures var s' := Next(s, u, Go(result));
            && PipelineLiveness.Work(s'.places) < PipelineLiveness.Work(s.places) && s'.shutdown == s.shutdown && s'.places.Keys == s.places.Keys
            && forall t :: t in s.threads ==> t in s'.threads && (s'.threads[t] == Exited ==> s.threads[t] == Exited)
  {
    var job, phase := s.threads[u].job, s.threads[u].phase;
    HolderUses(s, u, job, phase, result);
    AdvanceCounters(s, u, job, phase, result);
  }

  /** A take either gets a job, or rests. */
  lemma TakeOutcome(s: State, t: ThreadId, todo: seq<JobId>)
    requires Inv(s) && t in s.threads && !s.shutdown
    ensures var s' := TakeRegion(s, t, todo);
            && t in s'.threads && !s'.shutdown
            && ((s'.threads[t].Holding? && s'.places != s.places) || (s'.threads[t] == Resting && s'.places == s.places))
  {
    TakeFrame(s, t, todo);
    var k := FirstQueued(s.queue.entries, todo);
    var index := FirstIndex(s.queue.entries, s.edges.ReadyTest());
    if k < |todo| {
      SameIdIndex(s.queue.entries, todo[k]);
      QueuedIsAtRest(s, FirstIndex(s.queue.entries, SameId(todo[k])));
    } else if index < |s.queue.entries| {
      QueuedIsAtRest(s, index);
    }
  }

  lemma DequeueOutcome(s: State, t: ThreadId, id: JobId)
    requires Inv(s) && t in s.threads
    ensures var s' := DequeueRegion(s, t, id);
            && t in s'.threads && s'.shutdown == s.shutdown
            && ((s'.threads[t].Holding? && s'.places != s.places) || (s'.threads[t] == Signalling(id) && s'.places == s.places))
  {
    var index := FirstIndex(s.queue.entries, SameId(id));
    if index < |s.queue.entries| { QueuedIsAtRest(s, index); }
  }

  /** Nothing moved but the counter, nearer to the head of the loop; or a job moved. */
  ghost predicate Nearer(s: State, s': State, t: ThreadId)
    requires t in s.threads
  {
    && t in s'.threads && s'.threads[t] != Exited && !s'.shutdown
    && (s'.places != s.places || Distance(s'.threads[t]) < Distance(s.threads[t]))
  }

  lemma LooksNearer(s: State, t: ThreadId, todo: seq<JobId>)
    requires Inv(s) && !s.shutdown && t in s.threads && (s.threads[t].Taking? || s.threads[t].Sweeping?)
    ensures Nearer(s, TakeRegion(s, t, todo), t)
  {
    TakeOutcome(s, t, todo);
  }

  lemma CancelsNearer(s: State, t: ThreadId, id: JobId)
    requires Inv(s) && !s.shutdown && t in s.threads && s.threads[t] == Dequeueing(id)
    ensures Nearer(s, DequeueRegion(s, t, id), t)
  {
    DequeueOutcome(s, t, id);
  }

  lemma GoesNearer(s: State, t: ThreadId)
    requires Inv(s) && !s.shutdown && t in s.threads
    requires !s.threads[t].Idle? && !s.threads[t].Exited? && !s.threads[t].Holding?
    ensures Nearer(s, Next(s, t, Go(Success)), t)
  {
    match s.threads[t]
    case Taking => LooksNearer(s, t, Blocked(s.queue.entries, s.edges));
    case Sweeping(rest) => LooksNearer(s, t, rest);
    case Dequeueing(id) => CancelsNearer(s, t, id);
    case _ =>
  }

  /** A thread in the middle of an operation uses up work, or gets nearer to the head of its loop. */
  lemma ThreadMoves(s: State, t: ThreadId)
    requires Inv(s) && !s.shutdown && t in s.threads
    requires !s.threads[t].Idle? && !s.threads[t].Exited? && !s.threads[t].Holding?
    ensures var s' := Next(s, t, Go(Success));
            && t in s'.threads && s'.threads[t] != Exited && !s'.shutdown && s'.places.Keys == s.places.Keys
            && (PipelineLiveness.Work(s'.places) < PipelineLiveness.Work(s.places)
                || (s'.places == s.places && Distance(s'.threads[t]) < Distance(s.threads[t])))
  {
    StepUsesWork(s, t, Go(Success));
    var x := NextMoves(s, t, Go(Success));
    GoesNearer(s, t);
  }

  /** A worker at the head of its loop that would find work takes it in two steps. */
  lemma WorkIsTaken(s: State, t: ThreadId)
    requires Inv(s) && !s.shutdown && t in s.threads && s.threads[t] == Idle && FindsWork(s, t)
    ensures var s1 := Next(s, t, Work);
            && s1 == s.Goto(t, Taking) && Inv(s1)
            && var s2 := Next(s1, t, Go(Success));
            && t in s2.threads && s2.threads[t].Holding? && !s2.shutdown
            && PipelineLiveness.Work(s2.places) < PipelineLiveness.Work(s.places) && s2.places.Keys == s.places.Keys
  {
    NextKeepsInv(s, t, Work);
    var s1 := s.Goto(t, Taking);
    TakeFindsIff(s, t);
    TakeFindsIff(s1, t);
    assert forall id :: Takeable(s1, id) <==> Takeable(s, id);
    TakeOutcome(s1, t, Blocked(s1.queue.entries, s1.edges));
    StepUsesWork(s1, t, Go(Success));
    var x := NextMoves(s1, t, Go(Success));
  }

  /** As long as the pipeline is not stopped and one thread can work, whatever the jobs end with and
      without any further call, it can be run to rest; `FinalOutcome` then says what became of every
      job. */
  lemma {:induction false} ComesToRest(s: State, t: ThreadId, results: JobId -> ExecResult) returns (steps: seq<Step>)
    requires Inv(s) && !s.shutdown && t in s.threads && s.threads[t] != Exited
    ensures CanRun(s, steps) && Unattended(s, steps, results)
    ensures AtRest(Run(s, steps), t) && Run(s, steps).places.Keys == s.places.Keys
    decreases PipelineLiveness.Work(s.places), if t in s.threads then Distance(s.threads[t]) else 0
  {
    if u :| u in s.threads && s.threads[u].Holding? {
      var c := Go(results(s.threads[u].job.id));
      HolderMoves(s, u, c.result);
      NextKeepsInv(s, u, c);
      var rest := ComesToRest(Next(s, u, c), t, results);
      First(s, u, c, rest, results);
      steps := [Step(u, c)] + rest;
    } else if s.threads[t] != Idle {
      ThreadMoves(s, t);
      NextKeepsInv(s, t, Go(Success));
      var rest := ComesToRest(Next(s, t, Go(Success)), t, results);
      First(s, t, Go(Success), rest, results);
      steps := [Step(t, Go(Success))] + rest;
    } else if FindsWork(s, t) {
      WorkIsTaken(s, t);
      var s1 := Next(s, t, Work);
      NextKeepsInv(s1, t, Go(Success));
      var rest := ComesToRest(Next(s1, t, Go(Success)), t, results);
      First(s1, t, Go(Success), rest, results);
      First(s, t, Work, [Step(t, Go(Success))] + rest, results);
      steps := [Step(t, Work)] + ([Step(t, Go(Success))] + rest);
    } else {
      steps := [];
    }
  }

  /** From every reachable state of a pipeline that is not stopped: run it to rest, and every job has
      ended except those whose dependencies lead through the queue into a cycle or nowhere. */
  lemma Settles(s: State, t: ThreadId, results: JobId -> ExecResult) returns (steps: seq<Step>)
    requires Reachable(s) && !s.shutdown && t in s.threads && s.threads[t] != Exited
    ensures CanRun(s, steps) && Unattended(s, steps, results) && AtRest(Run(s, steps), t)
    ensures forall id :: id in s.places ==>
              id in Run(s, steps).places && (Run(s, steps).places[id].Ended? <==> !IsStuck(Run(s, steps), id))
  {
    ReachableInv(s);
    steps := ComesToRest(s, t, results);
    ReachableRun(s, steps);
    forall id | id in s.places
      ensures id in Run(s, steps).places && (Run(s, steps).places[id].Ended? <==> !IsStuck(Run(s, steps), id))
    {
      assert id in Run(s, steps).places.Keys;
      FinalOutcome(Run(s, steps), t, id);
    }
  }
}
