/** Lifecycle states of a pipeline job and their wire tags. */
module JobStates {
  import opened Bytes

  datatype JobState = Pending | Running | Completed | Failed | Cancelled {
    predicate IsTerminal() { Completed? || Failed? || Cancelled? }

    function Tag(): byte {
      match this
      case Pending => 0
      case Running => 1
      case Completed => 2
      case Failed => 3
      case Cancelled => 4
    }

    /** How far along its life a job is; a job never moves back. */
    function Progress(): nat {
      if Pending? then 0 else if Running? then 1 else 2
    }
  }

  function StateFromTag(tag: byte): Option<JobState> {
    match tag
    case 0 => Some(Pending)
    case 1 => Some(Running)
    case 2 => Some(Completed)
    case 3 => Some(Failed)
    case 4 => Some(Cancelled)
    case _ => None
  }
}

/** The background pipeline as a transition system. Any number of threads act as submitters,
    cancellers, stoppers and workers; one transition is one lock region of the program, so other
    threads may run wherever the program holds no lock. */
module Pipelines {
  import opened Bytes
  import opened JobQueues
  import opened Schedulers
  import opened JobStates

  type ThreadId = nat

  /** What `execute` came back with. */
  datatype ExecResult = Success | CancelledError | OtherError | Panic {
    function Verdict(): JobState {
      match this
      case Success => Completed
      case CancelledError => Cancelled
      case OtherError => Failed
      case Panic => Failed
    }
  }

  /** What the thread that owns a job does next with it. */
  datatype Phase =
    // submit_with_deps
    | Registering(deps: seq<JobId>) | Tracking | Describing | PersistingNew | Enqueueing
    // run_job
    | Starting | PersistingRunning | Publishing | Executing
    | Retiring(outcome: ExecResult) | Reporting(outcome: ExecResult)
    | Marking(outcome: ExecResult) | PersistingVerdict(outcome: ExecResult)
    // cancel, after taking the job out of the queue
    | CancelReporting | CancelMarking | CancelPersisting
    // the sweep of try_take; `rest` are the ids it still has to look at
    | SweepPersisting(rest: seq<JobId>)

  /** Where a thread stands between two lock regions. */
  datatype ProgramCounter =
    | Idle
    | Taking                      // worker, about to enter try_take
    | Sweeping(rest: seq<JobId>)  // worker, about to retake its locks in the middle of a sweep
    | Resting                     // worker, found nothing to do
    | Exited                      // worker, returned
    | Dequeueing(id: JobId)       // canceller, knows the job is tracked
    | Signalling(id: JobId)       // canceller, the job was not queued
    | Holding(job: Job, phase: Phase)

  datatype How = Ran(outcome: ExecResult) | Swept | CancelledByCaller {
    function Verdict(): JobState { if Ran? then outcome.Verdict() else Cancelled }
  }

  datatype Place = Held(thread: ThreadId, phase: Phase) | Queued | Ended(how: How)

  datatype State = State(
    queue: Queue,
    edges: Edges,
    tracker: map<JobId, JobState>,
    described: set<JobId>,          // jobs with submit-time metadata
    running: map<JobId, bool>,      // published reporters and whether their token is cancelled
    attached: bool,                 // a job database is attached
    records: map<JobId, JobState>,  // the persisted state column
    shutdown: bool,
    threads: map<ThreadId, ProgramCounter>,
    // History, read by no transition: where every job is, and how often `execute` was called.
    places: map<JobId, Place>,
    starts: multiset<JobId>)
  {
    function Goto(t: ThreadId, pc: ProgramCounter): State {
      this.(threads := threads[t := pc])
    }

    /** Thread `t` owns `job` and is at `phase`. */
    function Own(t: ThreadId, job: Job, phase: Phase): State {
      this.(threads := threads[t := Holding(job, phase)], places := places[job.id := Held(t, phase)])
    }

    /** `update_state`: unknown jobs are ignored. */
    function Track(id: JobId, state: JobState): State {
      if id in tracker then this.(tracker := tracker[id := state]) else this
    }

    /** `persist`: nothing without a database or without metadata. */
    function Persist(id: JobId, state: JobState): State {
      if attached && id in described then this.(records := records[id := state]) else this
    }

    function Mark(m: Schedulers.Mark): State {
      this.(edges := Apply(edges, m))
    }

    function Dequeue(index: nat): State
      requires index < |queue.entries|
    {
      this.(queue := Queue(RemoveAt(queue.entries, index), queue.nextSeq))
    }

    /** The sweep takes a blocked job out, tells the tracker and buries it for its dependents. */
    function SweepOut(index: nat): State
      requires index < |queue.entries|
    {
      var id := queue.entries[index].job.id;
      Dequeue(index).Track(id, Cancelled).Mark(Death(id))
    }
  }

  /** The queued ids that have a dead dependency, in dispatch order. */
  function Blocked(entries: seq<Entry>, edges: Edges): seq<JobId> {
    if entries == [] then []
    else (if edges.IsBlocked(entries[0].job.id) then [entries[0].job.id] else []) + Blocked(entries[1..], edges)
  }

  /** Position of the first id on the list that is still queued, or the length if none is. */
  function FirstQueued(entries: seq<Entry>, todo: seq<JobId>): (k: nat)
    ensures k <= |todo|
    ensures k < |todo| ==> FirstIndex(entries, SameId(todo[k])) < |entries|
  {
    if todo == [] || FirstIndex(entries, SameId(todo[0])) < |entries| then 0
    else 1 + FirstQueued(entries, todo[1..])
  }

  lemma {:induction false} FirstQueuedIsFirst(entries: seq<Entry>, todo: seq<JobId>)
    ensures forall i :: 0 <= i < FirstQueued(entries, todo) ==> FirstIndex(entries, SameId(todo[i])) == |entries|
  {
    if todo == [] || FirstIndex(entries, SameId(todo[0])) < |entries| {
    } else {
      FirstQueuedIsFirst(entries, todo[1..]);
      assert forall i :: 0 < i < |todo| ==> todo[i] == todo[1..][i - 1];
    }
  }

  /** One lock region of `try_take`: skip swept ids that left the queue, cancel the first one still
      there, and once none is left pop the first ready job. */
  function TakeRegion(s: State, t: ThreadId, todo: seq<JobId>): State {
    var k := FirstQueued(s.queue.entries, todo);
    if k < |todo| then
      var index := FirstIndex(s.queue.entries, SameId(todo[k]));
      s.SweepOut(index).Own(t, s.queue.entries[index].job, SweepPersisting(todo[k + 1..]))
    else PopRegion(s, t)
  }

  function PopRegion(s: State, t: ThreadId): State {
    var index := FirstIndex(s.queue.entries, s.edges.ReadyTest());
    if s.shutdown && s.queue.entries == [] then s.Goto(t, Exited)
    else if index < |s.queue.entries| then s.Dequeue(index).Own(t, s.queue.entries[index].job, Starting)
    else s.Goto(t, Resting)
  }

  /** What the next lock region of the owner of `job` does to the shared data. */
  function Effect(s: State, job: Job, phase: Phase): State {
    var id := job.id;
    match phase
    case Registering(deps) => s.(edges := s.edges.(deps := s.edges.deps[id := deps]))
    case Tracking => s.(tracker := s.tracker[id := Pending])
    case Describing => s.(described := s.described + {id})
    case PersistingNew => s.Persist(id, Pending)
    case Enqueueing => s.(queue := s.queue.Apply(Push(job)))
    case Starting => s.Track(id, Running)
    case PersistingRunning => s.Persist(id, Running)
    case Publishing => s.(running := s.running[id := false], starts := s.starts + multiset{id})
    case Executing => s
    case Retiring(_) => s.(running := s.running - {id})
    case Reporting(r) => s.Track(id, r.Verdict())
    case Marking(r) => s.Mark(if r.Verdict() == Completed then Completion(id) else Death(id))
    case PersistingVerdict(r) => s.Persist(id, r.Verdict())
    case CancelReporting => s.Track(id, Cancelled)
    case CancelMarking => s.Mark(Death(id))
    case CancelPersisting => s.Persist(id, Cancelled)
    case SweepPersisting(_) => s.Persist(id, Cancelled)
  }

  /** Where that region leaves the job. */
  function After(t: ThreadId, phase: Phase, result: ExecResult): Place {
    match phase
    case Registering(_) => Held(t, Tracking)
    case Tracking => Held(t, Describing)
    case Describing => Held(t, PersistingNew)
    case PersistingNew => Held(t, Enqueueing)
    case Enqueueing => Queued
    case Starting => Held(t, PersistingRunning)
    case PersistingRunning => Held(t, Publishing)
    case Publishing => Held(t, Executing)
    case Executing => Held(t, Retiring(result))
    case Retiring(r) => Held(t, Reporting(r))
    case Reporting(r) => Held(t, Marking(r))
    case Marking(r) => Held(t, PersistingVerdict(r))
    case PersistingVerdict(r) => Ended(Ran(r))
    case CancelReporting => Held(t, CancelMarking)
    case CancelMarking => Held(t, CancelPersisting)
    case CancelPersisting => Ended(CancelledByCaller)
    case SweepPersisting(_) => Ended(Swept)
  }

  /** The next lock region of the thread that owns `job`. */
  function Advance(s: State, t: ThreadId, job: Job, phase: Phase, result: ExecResult): State {
    var place := After(t, phase, result);
    var pc := if place.Held? then Holding(job, place.phase)
              else if phase.SweepPersisting? then Sweeping(phase.rest) else Idle;
    var s' := Effect(s, job, phase);
    s'.(threads := s.threads[t := pc], places := s.places[job.id := place])
  }

  /** `cancel`, the region under the queue lock. */
  function DequeueRegion(s: State, t: ThreadId, id: JobId): State {
    var index := FirstIndex(s.queue.entries, SameId(id));
    if index < |s.queue.entries| then s.Dequeue(index).Own(t, s.queue.entries[index].job, CancelReporting)
    else s.Goto(t, Signalling(id))
  }

  datatype Choice =
    | Submit(job: Job, deps: seq<JobId>)
    | Cancel(id: JobId)
    | Stop
    | Work
    | Go(result: ExecResult)  // go on with the operation in progress

  /** Job ids are fresh per pipeline; everything else is always possible. */
  predicate Enabled(s: State, t: ThreadId, c: Choice) {
    t in s.threads &&
    match c
    case Submit(job, _) => s.threads[t].Idle? && job.id !in s.places
    case Go(_) => !s.threads[t].Idle? && !s.threads[t].Exited?
    case _ => s.threads[t].Idle?
  }

  function Next(s: State, t: ThreadId, c: Choice): State
    requires Enabled(s, t, c)
  {
    match c
    case Submit(job, deps) => if s.shutdown then s else s.Own(t, job, Registering(deps))
    case Cancel(id) => if id in s.tracker then s.Goto(t, Dequeueing(id)) else s
    case Stop => s.(shutdown := true)
    case Work => if s.shutdown then s.Goto(t, Exited) else s.Goto(t, Taking)
    case Go(result) =>
      match s.threads[t]
      case Taking => TakeRegion(s, t, Blocked(s.queue.entries, s.edges))
      case Sweeping(rest) => TakeRegion(s, t, rest)
      case Resting => if s.shutdown && s.queue.entries == [] then s.Goto(t, Exited) else s.Goto(t, Idle)
      case Dequeueing(id) => DequeueRegion(s, t, id)
      case Signalling(id) =>
        if id in s.running then s.(running := s.running[id := true]).Goto(t, Idle) else s.Goto(t, Idle)
      case Holding(job, phase) => Advance(s, t, job, phase, result)
  }

  /** A freshly created pipeline; the database may hold records of earlier pipelines. */
  predicate Init(s: State) {
    && s.queue == Queue([], 0)
    && s.edges == Edges(map[], {}, {})
    && s.tracker == map[] && s.described == {} && s.running == map[] && !s.shutdown
    && s.places == map[] && s.starts == multiset{}
    && forall t :: t in s.threads ==> s.threads[t] == Idle
  }

  datatype Step = Step(thread: ThreadId, choice: Choice)

  /** `steps` is a schedule that can be run from `s`. */
  ghost predicate CanRun(s: State, steps: seq<Step>)
    decreases |steps|
  {
    steps != [] ==>
      Enabled(s, steps[0].thread, steps[0].choice)
      && CanRun(Next(s, steps[0].thread, steps[0].choice), steps[1..])
  }

  ghost function Run(s: State, steps: seq<Step>): State
    requires CanRun(s, steps)
    decreases |steps|
  {
    if steps == [] then s else Run(Next(s, steps[0].thread, steps[0].choice), steps[1..])
  }
}
