/** The invariant of the pipeline: seen from one job, the whole shared state is a function of
    where that job stands, whatever the other threads do. */
module PipelineInvariant {
  import opened Bytes
  import opened JobQueues
  import opened Schedulers
  import opened JobStates
  import opened Pipelines

  /** Everything the shared state says about one job. */
  datatype View = View(
    registered: bool, tracked: Option<JobState>, described: bool, queued: bool, published: bool,
    completed: bool, dead: bool, starts: nat)

  ghost predicate IsQueued(entries: seq<Entry>, id: JobId) {
    exists i :: 0 <= i < |entries| && entries[i].job.id == id
  }

  ghost predicate DistinctIds(entries: seq<Entry>) {
    forall i, j :: 0 <= i < j < |entries| ==> entries[i].job.id != entries[j].job.id
  }

  ghost function ViewOf(s: State, id: JobId): View {
    View(
      id in s.edges.deps,
      if id in s.tracker then Some(s.tracker[id]) else None,
      id in s.described,
      IsQueued(s.queue.entries, id),
      id in s.running,
      id in s.edges.completed,
      id in s.edges.dead,
      s.starts[id])
  }

  function WhereIs(s: State, id: JobId): Option<Place> {
    if id in s.places then Some(s.places[id]) else None
  }

  /** The view each stage of a job's life must show. */
  function ExpectedView(p: Option<Place>): View {
    match p
    case None => View(false, None, false, false, false, false, false, 0)
    case Some(Queued) => View(true, Some(Pending), true, true, false, false, false, 0)
    case Some(Ended(how)) =>
      View(true, Some(how.Verdict()), true, false, false,
           how.Verdict() == Completed, how.Verdict() != Completed, if how.Ran? then 1 else 0)
    case Some(Held(_, phase)) =>
      match phase
      case Registering(_) => View(false, None, false, false, false, false, false, 0)
      case Tracking => View(true, None, false, false, false, false, false, 0)
      case Describing => View(true, Some(Pending), false, false, false, false, false, 0)
      case PersistingNew => View(true, Some(Pending), true, false, false, false, false, 0)
      case Enqueueing => View(true, Some(Pending), true, false, false, false, false, 0)
      case Starting => View(true, Some(Pending), true, false, false, false, false, 0)
      case PersistingRunning => View(true, Some(Running), true, false, false, false, false, 0)
      case Publishing => View(true, Some(Running), true, false, false, false, false, 0)
      case Executing => View(true, Some(Running), true, false, true, false, false, 1)
      case Retiring(_) => View(true, Some(Running), true, false, true, false, false, 1)
      case Reporting(_) => View(true, Some(Running), true, false, false, false, false, 1)
      case Marking(r) => View(true, Some(r.Verdict()), true, false, false, false, false, 1)
      case PersistingVerdict(r) =>
        View(true, Some(r.Verdict()), true, false, false, r.Verdict() == Completed, r.Verdict() != Completed, 1)
      case CancelReporting => View(true, Some(Pending), true, false, false, false, false, 0)
      case CancelMarking => View(true, Some(Cancelled), true, false, false, false, false, 0)
      case CancelPersisting => View(true, Some(Cancelled), true, false, false, false, true, 0)
      case SweepPersisting(_) => View(true, Some(Cancelled), true, false, false, false, true, 0)
  }

  /** The database record each stage must show, once the submission wrote one. */
  function ExpectedRecord(p: Place): Option<JobState> {
    match p
    case Queued => Some(Pending)
    case Ended(how) => Some(how.Verdict())
    case Held(_, phase) =>
      match phase
      case Registering(_) => None
      case Tracking => None
      case Describing => None
      case PersistingNew => None
      case Publishing => Some(Running)
      case Executing => Some(Running)
      case Retiring(_) => Some(Running)
      case Reporting(_) => Some(Running)
      case Marking(_) => Some(Running)
      case PersistingVerdict(_) => Some(Running)
      case _ => Some(Pending)
  }

  /** A worker has the job, or it ran to an end. */
  predicate TakenToRun(p: Place) {
    match p
    case Queued => false
    case Ended(how) => how.Ran?
    case Held(_, phase) =>
      phase in {Starting, PersistingRunning, Publishing, Executing}
      || phase.Retiring? || phase.Reporting? || phase.Marking? || phase.PersistingVerdict?
  }

  /** The sweep took the job out. */
  predicate TakenBySweep(p: Place) {
    (p.Held? && p.phase.SweepPersisting?) || p == Ended(Swept)
  }

  /** A caller's `cancel` took the job out of the queue. */
  predicate TakenByCancel(p: Place) {
    (p.Held? && p.phase in {CancelReporting, CancelMarking, CancelPersisting}) || p == Ended(CancelledByCaller)
  }

  ghost predicate AllBlocked(s: State, ids: seq<JobId>) {
    forall i :: 0 <= i < |ids| ==> s.edges.IsBlocked(ids[i])
  }

  ghost predicate RecordOk(s: State, x: JobId, p: Place) {
    s.attached && ExpectedRecord(p).Some? ==> x in s.records && s.records[x] == ExpectedRecord(p).value
  }

  ghost predicate JobOk(s: State, id: JobId)
    requires id in s.places
  {
    var p := s.places[id];
    && (TakenToRun(p) ==> s.edges.IsReady(id))
    && (TakenBySweep(p) ==> s.edges.IsBlocked(id))
    && RecordOk(s, id, p)
    && (p.Held? ==> p.thread in s.threads && s.threads[p.thread].Holding?
                    && s.threads[p.thread].job.id == id && s.threads[p.thread].phase == p.phase)
  }

  ghost predicate ThreadOk(s: State, t: ThreadId)
    requires t in s.threads
  {
    match s.threads[t]
    case Holding(job, phase) =>
      job.id in s.places && s.places[job.id] == Held(t, phase)
      && (phase.SweepPersisting? ==> AllBlocked(s, phase.rest))
    case Sweeping(rest) => AllBlocked(s, rest)
    case Dequeueing(id) => id in s.places
    case Signalling(id) => id in s.places
    case _ => true
  }

  ghost predicate QueueOk(q: Queue) {
    q.Valid() && DistinctIds(q.entries)
  }

  ghost predicate Inv(s: State) {
    && QueueOk(s.queue)
    && (forall id :: ViewOf(s, id) == ExpectedView(WhereIs(s, id)))
    && (forall id :: id in s.places ==> JobOk(s, id))
    && (forall t :: t in s.threads ==> ThreadOk(s, t))
  }

  /** Dependency knowledge only grows. */
  ghost predicate EdgesGrow(a: Edges, b: Edges) {
    && (forall id :: id in a.deps ==> id in b.deps && b.deps[id] == a.deps[id])
    && a.completed <= b.completed && a.dead <= b.dead
  }

  /** From `s` to `s'` only thread `t` moved and only job `x` was touched. */
  ghost predicate Touches(s: State, s': State, t: ThreadId, x: JobId) {
    && QueueOk(s'.queue)
    && EdgesGrow(s.edges, s'.edges)
    && s'.attached == s.attached
    && t in s.threads && s'.threads.Keys == s.threads.Keys
    && (forall u :: u in s.threads && u != t ==> s'.threads[u] == s.threads[u])
    && (forall id :: id != x ==>
          && ViewOf(s', id) == ViewOf(s, id)
          && WhereIs(s', id) == WhereIs(s, id)
          && (id in s.records <==> id in s'.records)
          && (id in s.records ==> s'.records[id] == s.records[id]))
  }

  /** A place that thread `t` may hand over, or that nobody else holds. */
  ghost predicate FreeFor(s: State, t: ThreadId, x: JobId) {
    x in s.places && s.places[x].Held? ==> s.places[x].thread == t
  }

  lemma GrowthKeepsReadiness(a: Edges, b: Edges, id: JobId)
    requires EdgesGrow(a, b) && id in a.deps
    ensures a.IsReady(id) ==> b.IsReady(id)
    ensures a.IsBlocked(id) ==> b.IsBlocked(id)
  {
    if a.IsBlocked(id) {
      var i :| 0 <= i < |a.deps[id]| && a.deps[id][i] in a.dead;
      assert b.deps[id][i] in b.dead;
    }
  }

  /** A transition that touches one job keeps the invariant if it keeps it for that job and thread. */
  lemma TouchKeepsInv(s: State, s': State, t: ThreadId, x: JobId)
    requires Inv(s) && Touches(s, s', t, x) && FreeFor(s, t, x)
    requires s.threads[t].Holding? ==> s.threads[t].job.id == x
    requires ViewOf(s', x) == ExpectedView(WhereIs(s', x))
    requires x in s.places ==> x in s'.places
    requires x in s'.places ==> JobOk(s', x)
    requires ThreadOk(s', t)
    ensures Inv(s')
  {
    forall id | id in s'.places ensures JobOk(s', id) {
      if id != x {
        assert WhereIs(s', id) == WhereIs(s, id) && ViewOf(s, id) == ExpectedView(WhereIs(s, id));
        assert JobOk(s, id);
        if id in s.edges.deps { GrowthKeepsReadiness(s.edges, s'.edges, id); }
      }
    }
    forall u | u in s'.threads ensures ThreadOk(s', u) {
      if u != t {
        assert ThreadOk(s, u);
        match s.threads[u]
        case Holding(job, phase) =>
          if phase.SweepPersisting? { AllBlockedGrows(s, s', phase.rest); }
          assert job.id != x;
          assert WhereIs(s', job.id) == WhereIs(s, job.id);
        case Sweeping(rest) => AllBlockedGrows(s, s', rest);
        case Dequeueing(id) => assert WhereIs(s', id) == WhereIs(s, id) || id == x;
        case Signalling(id) => assert WhereIs(s', id) == WhereIs(s, id) || id == x;
        case _ =>
      }
    }
    forall id ensures ViewOf(s', id) == ExpectedView(WhereIs(s', id)) {
      if id != x {
        assert ViewOf(s', id) == ViewOf(s, id);
      }
    }
  }

  lemma AllBlockedGrows(s: State, s': State, ids: seq<JobId>)
    requires EdgesGrow(s.edges, s'.edges) && AllBlocked(s, ids)
    ensures AllBlocked(s', ids)
  {
    forall i | 0 <= i < |ids| ensures s'.edges.IsBlocked(ids[i]) {
      assert s.edges.IsBlocked(ids[i]);
      GrowthKeepsReadiness(s.edges, s'.edges, ids[i]);
    }
  }

  // ----- The queue -----

  lemma DequeueOk(q: Queue, index: nat)
    requires QueueOk(q) && index < |q.entries|
    ensures QueueOk(Queue(RemoveAt(q.entries, index), q.nextSeq))
    ensures forall id :: IsQueued(RemoveAt(q.entries, index), id) <==>
                         IsQueued(q.entries, id) && id != q.entries[index].job.id
  {
    RemoveKeepsOrder(q.entries, index, q.nextSeq);
    var r := RemoveAt(q.entries, index);
    assert forall i :: 0 <= i < |r| ==> r[i] == q.entries[if i < index then i else i + 1];
    forall id | IsQueued(q.entries, id) && id != q.entries[index].job.id ensures IsQueued(r, id) {
      var i :| 0 <= i < |q.entries| && q.entries[i].job.id == id;
      assert r[if i < index then i else i - 1].job.id == id;
    }
  }

  lemma EnqueueOk(q: Queue, job: Job)
    requires QueueOk(q) && !IsQueued(q.entries, job.id)
    ensures QueueOk(q.Apply(Push(job)))
    ensures forall id :: IsQueued(q.Apply(Push(job)).entries, id) <==> IsQueued(q.entries, id) || id == job.id
  {
    var e := Entry(job, q.nextSeq);
    var k := InsertKeepsOrder(q.entries, e);
    SpliceIds(q.entries, e, k);
  }

  lemma SpliceIds(entries: seq<Entry>, e: Entry, k: nat)
    requires k <= |entries| && DistinctIds(entries) && !IsQueued(entries, e.job.id)
    ensures DistinctIds(entries[..k] + [e] + entries[k..])
    ensures forall id :: IsQueued(entries[..k] + [e] + entries[k..], id) <==> IsQueued(entries, id) || id == e.job.id
  {
    var r := entries[..k] + [e] + entries[k..];
    assert forall i :: 0 <= i < |r| ==> r[i] == if i < k then entries[i] else if i == k then e else entries[i - 1];
    assert r[k].job.id == e.job.id;
    forall id | IsQueued(entries, id) ensures IsQueued(r, id) {
      var i :| 0 <= i < |entries| && entries[i].job.id == id;
      assert r[if i < k then i else i + 1].job.id == id;
    }
  }

  lemma {:induction false} BlockedAreBlocked(entries: seq<Entry>, edges: Edges)
    ensures forall i :: 0 <= i < |Blocked(entries, edges)| ==> edges.IsBlocked(Blocked(entries, edges)[i])
    ensures forall i :: 0 <= i < |entries| && edges.IsBlocked(entries[i].job.id) ==> entries[i].job.id in Blocked(entries, edges)
  {
    if entries == [] {
    } else {
      BlockedAreBlocked(entries[1..], edges);
    }
  }

  // ----- One transition -----

  lemma InitInv(s: State)
    requires Init(s)
    ensures Inv(s)
  {
  }

  lemma HolderView(s: State, t: ThreadId)
    requires Inv(s) && t in s.threads && s.threads[t].Holding?
    ensures var job, phase := s.threads[t].job, s.threads[t].phase;
            && WhereIs(s, job.id) == Some(Held(t, phase))
            && ViewOf(s, job.id) == ExpectedView(Some(Held(t, phase)))
            && JobOk(s, job.id)
  {
    assert ThreadOk(s, t);
    var id := s.threads[t].job.id;
    assert ViewOf(s, id) == ExpectedView(WhereIs(s, id));
  }

  /** `e` is what a region of the owner of `x` made of the shared data of `s`. */
  ghost predicate LocalTo(s: State, e: State, x: JobId) {
    && QueueOk(e.queue) && EdgesGrow(s.edges, e.edges)
    && e.attached == s.attached && e.threads == s.threads && e.places == s.places
    && (forall y :: y != x ==>
          && ViewOf(e, y) == ViewOf(s, y)
          && (y in s.records <==> y in e.records)
          && (y in s.records ==> e.records[y] == s.records[y]))
  }

  /** `e` shows of `y` what `s` does. */
  ghost predicate SameJob(s: State, e: State, y: JobId) {
    ViewOf(e, y) == ViewOf(s, y) && (y in s.records <==> y in e.records) && (y in s.records ==> e.records[y] == s.records[y])
  }

  lemma EnqueueFrame(s: State, job: Job, y: JobId)
    requires QueueOk(s.queue) && !IsQueued(s.queue.entries, job.id) && y != job.id
    ensures SameJob(s, Effect(s, job, Enqueueing), y)
  {
    EnqueueOk(s.queue, job);
  }

  lemma SubmittingFrame(s: State, job: Job, phase: Phase, y: JobId)
    requires (phase.Registering? || phase in {Tracking, Describing, PersistingNew}) && y != job.id
    ensures SameJob(s, Effect(s, job, phase), y)
  {
  }

  lemma RunningFrame(s: State, job: Job, phase: Phase, y: JobId)
    requires TakenToRun(Held(0, phase)) && y != job.id
    ensures SameJob(s, Effect(s, job, phase), y)
  {
  }

  lemma CancelledFrame(s: State, job: Job, phase: Phase, y: JobId)
    requires TakenByCancel(Held(0, phase)) && y != job.id
    ensures SameJob(s, Effect(s, job, phase), y)
  {
  }

  lemma SweptFrame(s: State, job: Job, rest: seq<JobId>, y: JobId)
    requires y != job.id
    ensures SameJob(s, Effect(s, job, SweepPersisting(rest)), y)
  {
  }

  lemma EffectFrame(s: State, job: Job, phase: Phase, y: JobId)
    requires QueueOk(s.queue) && (phase == Enqueueing ==> !IsQueued(s.queue.entries, job.id))
    requires y != job.id
    ensures SameJob(s, Effect(s, job, phase), y)
  {
    if phase == Enqueueing {
      EnqueueFrame(s, job, y);
    } else if TakenToRun(Held(0, phase)) {
      RunningFrame(s, job, phase, y);
    } else if TakenByCancel(Held(0, phase)) {
      CancelledFrame(s, job, phase, y);
    } else if phase.SweepPersisting? {
      SweptFrame(s, job, phase.rest, y);
    } else {
      SubmittingFrame(s, job, phase, y);
    }
  }

  lemma EffectKeepsQueue(s: State, job: Job, phase: Phase)
    requires QueueOk(s.queue) && (phase == Enqueueing ==> !IsQueued(s.queue.entries, job.id))
    ensures QueueOk(Effect(s, job, phase).queue)
  {
    if phase == Enqueueing { EnqueueOk(s.queue, job); }
  }

  /** Only three phases change what the scheduler knows. */
  lemma EffectEdges(s: State, job: Job, phase: Phase)
    requires !phase.Registering? && !phase.Marking? && phase != CancelMarking
    ensures Effect(s, job, phase).edges == s.edges
  {
  }

  lemma EffectKeepsRest(s: State, job: Job, phase: Phase)
    ensures var e := Effect(s, job, phase); e.attached == s.attached && e.threads == s.threads && e.places == s.places
  {
  }

  lemma EffectGrows(s: State, job: Job, phase: Phase)
    requires phase.Registering? ==> job.id !in s.edges.deps
    requires job.id !in s.edges.completed
             || !(phase.Marking? || phase == CancelMarking)
    ensures var e := Effect(s, job, phase);
            EdgesGrow(s.edges, e.edges)
            && e.attached == s.attached && e.threads == s.threads && e.places == s.places
  {
    EffectKeepsRest(s, job, phase);
    if phase.Registering? || phase.Marking? || phase == CancelMarking {
    } else {
      EffectEdges(s, job, phase);
    }
  }

  lemma EffectIsLocal(s: State, t: ThreadId, job: Job, phase: Phase)
    requires QueueOk(s.queue)
    requires ViewOf(s, job.id) == ExpectedView(Some(Held(t, phase)))
    ensures LocalTo(s, Effect(s, job, phase), job.id)
  {
    var v := ViewOf(s, job.id);
    assert v.registered == ExpectedView(Some(Held(t, phase))).registered;
    EffectGrows(s, job, phase);
    EffectKeepsQueue(s, job, phase);
    var e := Effect(s, job, phase);
    forall y | y != job.id
      ensures ViewOf(e, y) == ViewOf(s, y) && (y in s.records <==> y in e.records)
              && (y in s.records ==> e.records[y] == s.records[y])
    {
      assert ViewOf(s, job.id).queued == ExpectedView(Some(Held(t, phase))).queued;
      EffectFrame(s, job, phase, y);
    }
  }

  lemma EffectViewSubmitting(s: State, t: ThreadId, job: Job, phase: Phase, result: ExecResult)
    requires QueueOk(s.queue) && ViewOf(s, job.id) == ExpectedView(Some(Held(t, phase)))
    requires phase.Registering? || phase in {Tracking, Describing, PersistingNew, Enqueueing}
    ensures ViewOf(Effect(s, job, phase), job.id) == ExpectedView(Some(After(t, phase, result)))
  {
    if phase == Enqueueing { EnqueueOk(s.queue, job); }
  }

  lemma EffectViewRunning(s: State, t: ThreadId, job: Job, phase: Phase, result: ExecResult)
    requires ViewOf(s, job.id) == ExpectedView(Some(Held(t, phase)))
    requires TakenToRun(Held(t, phase))
    ensures ViewOf(Effect(s, job, phase), job.id) == ExpectedView(Some(After(t, phase, result)))
  {
  }

  lemma EffectViewRemoved(s: State, t: ThreadId, job: Job, phase: Phase, result: ExecResult)
    requires ViewOf(s, job.id) == ExpectedView(Some(Held(t, phase)))
    requires TakenByCancel(Held(t, phase)) || TakenBySweep(Held(t, phase))
    ensures ViewOf(Effect(s, job, phase), job.id) == ExpectedView(Some(After(t, phase, result)))
  {
  }

  /** A region of the owner takes the view of its job to the next stage. */
  lemma EffectView(s: State, t: ThreadId, job: Job, phase: Phase, result: ExecResult)
    requires QueueOk(s.queue)
    requires ViewOf(s, job.id) == ExpectedView(Some(Held(t, phase)))
    ensures ViewOf(Effect(s, job, phase), job.id) == ExpectedView(Some(After(t, phase, result)))
  {
    if TakenToRun(Held(t, phase)) {
      EffectViewRunning(s, t, job, phase, result);
    } else if TakenByCancel(Held(t, phase)) || TakenBySweep(Held(t, phase)) {
      EffectViewRemoved(s, t, job, phase, result);
    } else {
      EffectViewSubmitting(s, t, job, phase, result);
    }
  }

  /** A region of the owner keeps the record of its job as the stage requires. */
  lemma EffectRecord(s: State, t: ThreadId, job: Job, phase: Phase, result: ExecResult)
    requires ViewOf(s, job.id) == ExpectedView(Some(Held(t, phase)))
    requires RecordOk(s, job.id, Held(t, phase))
    ensures RecordOk(Effect(s, job, phase), job.id, After(t, phase, result))
  {
  }

  /** The stages of a job keep what was once established about its dependencies. */
  lemma AfterKeepsKind(t: ThreadId, phase: Phase, result: ExecResult)
    ensures TakenToRun(After(t, phase, result)) <==> TakenToRun(Held(t, phase))
    ensures TakenBySweep(After(t, phase, result)) <==> TakenBySweep(Held(t, phase))
    ensures TakenByCancel(After(t, phase, result)) <==> TakenByCancel(Held(t, phase))
    ensures After(t, phase, result).Held? ==> After(t, phase, result).thread == t && !After(t, phase, result).phase.SweepPersisting?
  {
  }

  /** A move of a thread that touches no job. */
  lemma GotoKeepsInv(s: State, s': State, t: ThreadId)
    requires Inv(s) && t in s.threads && !s.threads[t].Holding?
    requires t in s'.threads && s' == s.Goto(t, s'.threads[t]).(running := s'.running, shutdown := s'.shutdown)
    requires s'.running.Keys == s.running.Keys
    requires !s'.threads[t].Holding? && ThreadOk(s', t)
    ensures Inv(s')
  {
    forall id | id in s'.places ensures JobOk(s', id) {
      assert JobOk(s, id);
    }
    forall u | u in s'.threads ensures ThreadOk(s', u) {
      if u != t {
        assert ThreadOk(s, u);
        match s.threads[u]
        case Holding(job, phase) => if phase.SweepPersisting? { AllBlockedGrows(s, s', phase.rest); }
        case Sweeping(rest) => AllBlockedGrows(s, s', rest);
        case _ =>
      }
    }
    forall id ensures ViewOf(s', id) == ExpectedView(WhereIs(s', id)) {
      assert ViewOf(s, id) == ExpectedView(WhereIs(s, id));
    }
  }

  /** The program counter thread `t` may have once job `x` is at place `p`. */
  ghost predicate CounterFor(s: State, t: ThreadId, x: JobId, p: Place, pc: ProgramCounter) {
    if p.Held? then
      && p.thread == t && pc.Holding? && pc.job.id == x && pc.phase == p.phase
      && (p.phase.SweepPersisting? ==> AllBlocked(s, p.phase.rest))
    else
      pc.Idle? || (pc.Sweeping? && AllBlocked(s, pc.rest))
  }

  lemma MoveTouches(s: State, e: State, t: ThreadId, x: JobId, p: Place, pc: ProgramCounter)
    requires t in s.threads && LocalTo(s, e, x)
    ensures Touches(s, e.(threads := s.threads[t := pc], places := s.places[x := p]), t, x)
    ensures ViewOf(e.(threads := s.threads[t := pc], places := s.places[x := p]), x) == ViewOf(e, x)
  {
    var s' := e.(threads := s.threads[t := pc], places := s.places[x := p]);
    assert forall y :: ViewOf(s', y) == ViewOf(e, y);
  }

  /** The general transition: thread `t` changes the shared data of job `x` only and takes it to `p`. */
  lemma MoveJob(s: State, e: State, t: ThreadId, x: JobId, p: Place, pc: ProgramCounter)
    requires Inv(s) && t in s.threads && FreeFor(s, t, x)
    requires s.threads[t].Holding? ==> s.threads[t].job.id == x
    requires LocalTo(s, e, x) && ViewOf(e, x) == ExpectedView(Some(p)) && RecordOk(e, x, p)
    requires CounterFor(e, t, x, p, pc)
    requires TakenToRun(p) ==> e.edges.IsReady(x)
    requires TakenBySweep(p) ==> e.edges.IsBlocked(x)
    ensures var s' := e.(threads := s.threads[t := pc], places := s.places[x := p]);
            Inv(s') && Touches(s, s', t, x)
  {
    MoveTouches(s, e, t, x, p, pc);
    var s' := e.(threads := s.threads[t := pc], places := s.places[x := p]);
    assert s'.edges == e.edges && s'.places[x] == p && s'.threads[t] == pc;
    assert JobOk(s', x);
    TouchKeepsInv(s, s', t, x);
  }

  /** The owner of a job keeps the invariant with each of its lock regions. */
  lemma AdvanceKeepsInv(s: State, t: ThreadId, job: Job, phase: Phase, result: ExecResult)
    requires Inv(s) && t in s.threads && s.threads[t] == Holding(job, phase)
    ensures Inv(Advance(s, t, job, phase, result))
    ensures Touches(s, Advance(s, t, job, phase, result), t, job.id)
  {
    HolderView(s, t);
    EffectIsLocal(s, t, job, phase);
    EffectView(s, t, job, phase, result);
    EffectRecord(s, t, job, phase, result);
    AfterKeepsKind(t, phase, result);
    var p, e := After(t, phase, result), Effect(s, job, phase);
    if job.id in s.edges.deps { GrowthKeepsReadiness(s.edges, e.edges, job.id); }
    assert ThreadOk(s, t);
    if phase.SweepPersisting? { AllBlockedGrows(s, e, phase.rest); }
    MoveJob(s, e, t, job.id, p,
            if p.Held? then Holding(job, p.phase) else if phase.SweepPersisting? then Sweeping(phase.rest) else Idle);
  }

  // ----- Taking a job out of the queue -----

  lemma QueuedIsAtRest(s: State, index: nat)
    requires Inv(s) && index < |s.queue.entries|
    ensures var x := s.queue.entries[index].job.id;
            WhereIs(s, x) == Some(Queued) && ViewOf(s, x) == ExpectedView(Some(Queued)) && RecordOk(s, x, Queued)
  {
    var x := s.queue.entries[index].job.id;
    assert ViewOf(s, x).queued;
    assert ViewOf(s, x) == ExpectedView(WhereIs(s, x));
    assert JobOk(s, x);
  }

  lemma DequeueLocal(s: State, index: nat)
    requires Inv(s) && index < |s.queue.entries|
    ensures LocalTo(s, s.Dequeue(index), s.queue.entries[index].job.id)
    ensures ViewOf(s.Dequeue(index), s.queue.entries[index].job.id) == ExpectedView(Some(Queued)).(queued := false)
  {
    QueuedIsAtRest(s, index);
    DequeueOk(s.queue, index);
  }

  lemma SweepOutLocal(s: State, index: nat)
    requires Inv(s) && index < |s.queue.entries|
    ensures var x := s.queue.entries[index].job.id;
            LocalTo(s, s.SweepOut(index), x)
            && forall t, rest :: ViewOf(s.SweepOut(index), x) == ExpectedView(Some(Held(t, SweepPersisting(rest))))
  {
    DequeueLocal(s, index);
    QueuedIsAtRest(s, index);
    var x, d, e := s.queue.entries[index].job.id, s.Dequeue(index), s.SweepOut(index);
    assert forall y :: y != x ==> ViewOf(e, y) == ViewOf(d, y);
  }

  lemma PopKeepsInv(s: State, t: ThreadId)
    requires Inv(s) && t in s.threads && !s.threads[t].Holding?
    ensures Inv(PopRegion(s, t))
  {
    var index := FirstIndex(s.queue.entries, s.edges.ReadyTest());
    if s.shutdown && s.queue.entries == [] {
      GotoKeepsInv(s, s.Goto(t, Exited), t);
    } else if index < |s.queue.entries| {
      DequeueLocal(s, index);
      QueuedIsAtRest(s, index);
      var job := s.queue.entries[index].job;
      FirstIndexIsFirst(s.queue.entries, s.edges.ReadyTest());
      assert s.edges.ReadyTest()(job.id) && s.edges.IsReady(job.id);
      MoveJob(s, s.Dequeue(index), t, job.id, Held(t, Starting), Holding(job, Starting));
    } else {
      GotoKeepsInv(s, s.Goto(t, Resting), t);
    }
  }

  lemma SweepOutKeepsInv(s: State, t: ThreadId, index: nat, rest: seq<JobId>)
    requires Inv(s) && t in s.threads && !s.threads[t].Holding? && index < |s.queue.entries|
    requires s.edges.IsBlocked(s.queue.entries[index].job.id) && AllBlocked(s, rest)
    ensures Inv(s.SweepOut(index).Own(t, s.queue.entries[index].job, SweepPersisting(rest)))
  {
    SweepOutLocal(s, index);
    QueuedIsAtRest(s, index);
    var job, e := s.queue.entries[index].job, s.SweepOut(index);
    GrowthKeepsReadiness(s.edges, e.edges, job.id);
    AllBlockedGrows(s, e, rest);
    MoveJob(s, e, t, job.id, Held(t, SweepPersisting(rest)), Holding(job, SweepPersisting(rest)));
  }

  lemma TakeKeepsInv(s: State, t: ThreadId, todo: seq<JobId>)
    requires Inv(s) && t in s.threads && !s.threads[t].Holding? && AllBlocked(s, todo)
    ensures Inv(TakeRegion(s, t, todo))
  {
    var k := FirstQueued(s.queue.entries, todo);
    if k < |todo| {
      assert s.edges.IsBlocked(todo[k]);
      SameIdIndex(s.queue.entries, todo[k]);
      SweepOutKeepsInv(s, t, FirstIndex(s.queue.entries, SameId(todo[k])), todo[k + 1..]);
    } else {
      PopKeepsInv(s, t);
    }
  }

  lemma DequeueRegionKeepsInv(s: State, t: ThreadId, id: JobId)
    requires Inv(s) && t in s.threads && s.threads[t] == Dequeueing(id)
    ensures Inv(DequeueRegion(s, t, id))
  {
    var index := FirstIndex(s.queue.entries, SameId(id));
    assert ThreadOk(s, t);
    if index < |s.queue.entries| {
      DequeueLocal(s, index);
      QueuedIsAtRest(s, index);
      var job := s.queue.entries[index].job;
      MoveJob(s, s.Dequeue(index), t, job.id, Held(t, CancelReporting), Holding(job, CancelReporting));
    } else {
      GotoKeepsInv(s, s.Goto(t, Signalling(id)), t);
    }
  }

  lemma TrackedIsKnown(s: State, id: JobId)
    requires Inv(s) && (id in s.tracker || id in s.running)
    ensures id in s.places
  {
    assert ViewOf(s, id) == ExpectedView(WhereIs(s, id));
  }

  lemma StartKeepsInv(s: State, t: ThreadId, c: Choice)
    requires Inv(s) && Enabled(s, t, c) && !c.Go?
    ensures Inv(Next(s, t, c))
  {
    var s' := Next(s, t, c);
    match c
    case Submit(job, deps) =>
      if !s.shutdown {
        assert ViewOf(s, job.id) == ExpectedView(WhereIs(s, job.id));
        MoveJob(s, s, t, job.id, Held(t, Registering(deps)), Holding(job, Registering(deps)));
      }
    case Cancel(id) =>
      if id in s.tracker {
        TrackedIsKnown(s, id);
        GotoKeepsInv(s, s', t);
      }
    case Stop => GotoKeepsInv(s, s', t);
    case Work => GotoKeepsInv(s, s', t);
  }

  lemma RestKeepsInv(s: State, t: ThreadId)
    requires Inv(s) && t in s.threads && s.threads[t].Resting?
    ensures Inv(s.Goto(t, if s.shutdown && s.queue.entries == [] then Exited else Idle))
  {
    GotoKeepsInv(s, s.Goto(t, if s.shutdown && s.queue.entries == [] then Exited else Idle), t);
  }

  lemma SignalKeepsInv(s: State, t: ThreadId, id: JobId)
    requires Inv(s) && t in s.threads && s.threads[t] == Signalling(id)
    ensures Inv(if id in s.running then s.(running := s.running[id := true]).Goto(t, Idle) else s.Goto(t, Idle))
  {
    var running := if id in s.running then s.running[id := true] else s.running;
    GotoKeepsInv(s, s.(running := running).Goto(t, Idle), t);
  }

  lemma WaitKeepsInv(s: State, t: ThreadId, c: Choice)
    requires Inv(s) && Enabled(s, t, c) && c.Go? && (s.threads[t].Resting? || s.threads[t].Signalling?)
    ensures Inv(Next(s, t, c))
  {
    if s.threads[t].Resting? { RestKeepsInv(s, t); } else { SignalKeepsInv(s, t, s.threads[t].id); }
  }

  /** Every transition of every thread keeps the invariant. */
  lemma NextKeepsInv(s: State, t: ThreadId, c: Choice)
    requires Inv(s) && Enabled(s, t, c)
    ensures Inv(Next(s, t, c))
  {
    if !c.Go? {
      StartKeepsInv(s, t, c);
    } else {
      match s.threads[t]
      case Taking =>
        BlockedAreBlocked(s.queue.entries, s.edges);
        TakeKeepsInv(s, t, Blocked(s.queue.entries, s.edges));
      case Sweeping(rest) =>
        assert ThreadOk(s, t);
        TakeKeepsInv(s, t, rest);
      case Resting => WaitKeepsInv(s, t, c);
      case Dequeueing(id) => DequeueRegionKeepsInv(s, t, id);
      case Signalling(id) => WaitKeepsInv(s, t, c);
      case Holding(job, phase) => AdvanceKeepsInv(s, t, job, phase, c.result);
    }
  }

  lemma {:induction false} RunKeepsInv(s: State, steps: seq<Step>)
    requires Inv(s) && CanRun(s, steps)
    ensures Inv(Run(s, steps))
    decreases |steps|
  {
    if steps == [] {
    } else {
      NextKeepsInv(s, steps[0].thread, steps[0].choice);
      RunKeepsInv(Next(s, steps[0].thread, steps[0].choice), steps[1..]);
    }
  }
}
