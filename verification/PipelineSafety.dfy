/** What holds over every run of the pipeline, in every interleaving. */
module PipelineSafety {
  import opened Bytes
  import opened JobQueues
  import opened Schedulers
  import opened JobStates
  import opened Pipelines
  import opened PipelineInvariant

  ghost predicate Reachable(s: State) {
    exists start, steps :: Init(start) && CanRun(start, steps) && Run(start, steps) == s
  }

  lemma ReachableInv(s: State)
    requires Reachable(s)
    ensures Inv(s)
  {
    var start, steps :| Init(start) && CanRun(start, steps) && Run(start, steps) == s;
    InitInv(start);
    RunKeepsInv(start, steps);
  }

  /** What the invariant says about one known job. */
  lemma Known(s: State, id: JobId)
    requires Inv(s) && id in s.places
    ensures ViewOf(s, id) == ExpectedView(Some(s.places[id])) && JobOk(s, id)
  {
    assert ViewOf(s, id) == ExpectedView(WhereIs(s, id));
  }

  // ----- Ownership -----

  predicate Holds(s: State, t: ThreadId, id: JobId) {
    t in s.threads && s.threads[t].Holding? && s.threads[t].job.id == id
  }

  ghost predicate HeldBySome(s: State, id: JobId) {
    exists t :: Holds(s, t, id)
  }

  ghost predicate HasEnded(s: State, id: JobId) {
    id in s.places && s.places[id].Ended?
  }

  /** Every submitted job is in exactly one of: the queue, the hands of one thread, finished. No
      two threads hold the same job, and `execute` was called at most once for it. */
  lemma ExclusiveOwnership(s: State, id: JobId)
    requires Reachable(s) && id in s.places
    ensures HeldBySome(s, id) <==> !IsQueued(s.queue.entries, id) && !HasEnded(s, id)
    ensures IsQueued(s.queue.entries, id) <==> !HeldBySome(s, id) && !HasEnded(s, id)
    ensures DistinctIds(s.queue.entries)
    ensures forall t, u :: Holds(s, t, id) && Holds(s, u, id) ==> t == u
    ensures s.starts[id] <= 1
  {
    ReachableInv(s);
    Known(s, id);
    assert ViewOf(s, id).queued == IsQueued(s.queue.entries, id);
    assert ViewOf(s, id).starts == s.starts[id];
    forall t | Holds(s, t, id) ensures s.places[id] == Held(t, s.threads[t].phase) {
      assert ThreadOk(s, t);
    }
    if s.places[id].Held? { assert Holds(s, s.places[id].thread, id); }
  }

  /** The moves a job can make. */
  ghost predicate PlaceEdge(before: Option<Place>, after: Place, t: ThreadId) {
    match before
    case None => after.Held? && after.thread == t && after.phase.Registering?
    case Some(Queued) =>
      after.Held? && after.thread == t
      && (after.phase in {Starting, CancelReporting} || after.phase.SweepPersisting?)
    case Some(Held(u, phase)) => u == t && exists result :: after == After(t, phase, result)
    case Some(Ended(_)) => false
  }

  /** Exactly job `x` makes one legal move, or no job moves at all. */
  ghost predicate OneMoves(s: State, s': State, t: ThreadId, x: JobId) {
    || s'.places == s.places
    || (x in s'.places && s'.places == s.places[x := s'.places[x]] && PlaceEdge(WhereIs(s, x), s'.places[x], t))
  }

  lemma DequeuedMoves(s: State, t: ThreadId, index: nat)
    requires Inv(s) && index < |s.queue.entries|
    ensures var s', x := s.Dequeue(index).Own(t, s.queue.entries[index].job, Starting), s.queue.entries[index].job.id;
            OneMoves(s, s', t, x) && s'.places.Keys == s.places.Keys
  {
    QueuedIsAtRest(s, index);
  }

  lemma PopMoves(s: State, t: ThreadId) returns (x: JobId)
    requires Inv(s)
    ensures OneMoves(s, PopRegion(s, t), t, x)
    ensures PopRegion(s, t).places.Keys == s.places.Keys
  {
    x := 0;
    var index := FirstIndex(s.queue.entries, s.edges.ReadyTest());
    if s.shutdown && s.queue.entries == [] {
    } else if index < |s.queue.entries| {
      DequeuedMoves(s, t, index);
      x := s.queue.entries[index].job.id;
    }
  }

  lemma TakeMoves(s: State, t: ThreadId, todo: seq<JobId>) returns (x: JobId)
    requires Inv(s)
    ensures OneMoves(s, TakeRegion(s, t, todo), t, x)
    ensures TakeRegion(s, t, todo).places.Keys == s.places.Keys
  {
    var k := FirstQueued(s.queue.entries, todo);
    if k < |todo| {
      SameIdIndex(s.queue.entries, todo[k]);
      QueuedIsAtRest(s, FirstIndex(s.queue.entries, SameId(todo[k])));
      x := todo[k];
    } else {
      x := PopMoves(s, t);
    }
  }

  lemma AdvanceMoves(s: State, t: ThreadId, job: Job, phase: Phase, result: ExecResult)
    requires Inv(s) && t in s.threads && s.threads[t] == Holding(job, phase)
    ensures OneMoves(s, Advance(s, t, job, phase, result), t, job.id)
    ensures Advance(s, t, job, phase, result).places.Keys == s.places.Keys
  {
    HolderView(s, t);
  }

  lemma DequeueMoves(s: State, t: ThreadId, x: JobId)
    requires Inv(s) && t in s.threads && s.threads[t] == Dequeueing(x)
    ensures OneMoves(s, DequeueRegion(s, t, x), t, x)
    ensures DequeueRegion(s, t, x).places.Keys == s.places.Keys
  {
    var index := FirstIndex(s.queue.entries, SameId(x));
    SameIdIndex(s.queue.entries, x);
    if index < |s.queue.entries| { QueuedIsAtRest(s, index); }
  }

  /** A transition moves at most one job, along one edge of the job life cycle; only an accepted
      submission makes a new job known. */
  lemma NextMoves(s: State, t: ThreadId, c: Choice) returns (x: JobId)
    requires Inv(s) && Enabled(s, t, c)
    ensures OneMoves(s, Next(s, t, c), t, x)
    ensures Next(s, t, c).places.Keys == if c.Submit? && !s.shutdown then s.places.Keys + {c.job.id} else s.places.Keys
    ensures c.Submit? && !s.shutdown ==> x == c.job.id
  {
    x := 0;
    match c
    case Submit(job, deps) => x := job.id;
    case Go(result) =>
      match s.threads[t] {
        case Taking => x := TakeMoves(s, t, Blocked(s.queue.entries, s.edges));
        case Sweeping(rest) => x := TakeMoves(s, t, rest);
        case Dequeueing(id) => DequeueMoves(s, t, id); x := id;
        case Holding(job, phase) => AdvanceMoves(s, t, job, phase, result); x := job.id;
        case _ =>
      }
    case _ =>
  }

  ghost predicate Removed(s: State, id: JobId) {
    id in s.places && (TakenByCancel(s.places[id]) || TakenBySweep(s.places[id]))
  }

  lemma RemovedEdge(p: Place, p': Place, t: ThreadId)
    requires (TakenByCancel(p) || TakenBySweep(p)) && PlaceEdge(Some(p), p', t)
    ensures TakenByCancel(p') || TakenBySweep(p')
  {
  }

  lemma RemovedStep(s: State, t: ThreadId, c: Choice, id: JobId)
    requires Inv(s) && Enabled(s, t, c) && Removed(s, id)
    ensures Removed(Next(s, t, c), id)
  {
    var x := NextMoves(s, t, c);
    var places' := Next(s, t, c).places;
    if places' != s.places && x == id {
      RemovedEdge(s.places[id], places'[id], t);
    }
  }

  lemma {:induction false} RemovedStaysRemoved(s: State, steps: seq<Step>, id: JobId)
    requires Inv(s) && CanRun(s, steps) && Removed(s, id)
    ensures Inv(Run(s, steps)) && Removed(Run(s, steps), id)
    decreases |steps|
  {
    if steps == [] {
    } else {
      NextKeepsInv(s, steps[0].thread, steps[0].choice);
      RemovedStep(s, steps[0].thread, steps[0].choice, id);
      RemovedStaysRemoved(Next(s, steps[0].thread, steps[0].choice), steps[1..], id);
    }
  }

  /** A job that a caller's cancel or the sweep took out is never executed in any continuation. */
  lemma RemovedNeverRuns(s: State, steps: seq<Step>, id: JobId)
    requires Reachable(s) && CanRun(s, steps) && Removed(s, id)
    ensures Run(s, steps).starts[id] == 0
  {
    ReachableInv(s);
    RemovedStaysRemoved(s, steps, id);
    NeverStarted(Run(s, steps), id);
  }

  lemma NeverStarted(s: State, id: JobId)
    requires Inv(s) && Removed(s, id)
    ensures s.starts[id] == 0
  {
    Known(s, id);
    assert ViewOf(s, id).starts == s.starts[id];
  }

  // ----- What `execute` came back with -----

  /** The outcome of `execute` for a job, from its call's return on. */
  function OutcomeAt(p: Place): Option<ExecResult> {
    match p
    case Queued => None
    case Ended(how) => if how.Ran? then Some(how.outcome) else None
    case Held(_, phase) =>
      if phase.Retiring? || phase.Reporting? || phase.Marking? || phase.PersistingVerdict? then Some(phase.outcome) else None
  }

  function Returned(s: State, id: JobId): Option<ExecResult> {
    if id in s.places then OutcomeAt(s.places[id]) else None
  }

  lemma EdgeKeepsOutcome(p: Option<Place>, p': Place, t: ThreadId)
    requires PlaceEdge(p, p', t) && p != Some(Held(t, Executing))
    ensures OutcomeAt(p') == if p.Some? then OutcomeAt(p.value) else None
  {
  }

  /** The region in which `execute` returns is the only one that notes an outcome, and it notes what
      `execute` came back with. */
  lemma ReturnedStep(s: State, t: ThreadId, c: Choice, id: JobId)
    requires Reachable(s) && Enabled(s, t, c)
    ensures Returned(Next(s, t, c), id) ==
              if c.Go? && Holds(s, t, id) && s.threads[t].phase == Executing then Some(c.result) else Returned(s, id)
  {
    ReachableInv(s);
    var s' := Next(s, t, c);
    var x := NextMoves(s, t, c);
    if Holds(s, t, id) { HolderView(s, t); }
    if c.Go? && Holds(s, t, id) && s.threads[t].phase == Executing {
      assert s'.places[id] == Held(t, Retiring(c.result));
    } else if s'.places != s.places && x == id {
      if id in s.places { Known(s, id); }
      EdgeKeepsOutcome(WhereIs(s, id), s'.places[id], t);
    }
  }

  /** An outcome is never revised. */
  lemma {:induction false} ReturnedStays(s: State, steps: seq<Step>, id: JobId)
    requires Reachable(s) && CanRun(s, steps) && Returned(s, id).Some?
    ensures Returned(Run(s, steps), id) == Returned(s, id)
    decreases |steps|
  {
    if steps == [] {
    } else {
      var t, c := steps[0].thread, steps[0].choice;
      ReachableInv(s);
      if Holds(s, t, id) { HolderView(s, t); }
      ReturnedStep(s, t, c, id);
      ReachableNext(s, t, c);
      ReturnedStays(Next(s, t, c), steps[1..], id);
    }
  }

  /** The final state of a job, in the tracker and on record, as `execute` decides it: Completed if it
      succeeded, Cancelled if it came back with a cancellation, Failed after any other error and after a
      panic. A job it was never called for ends Cancelled. */
  predicate Decided(state: JobState, outcome: Option<ExecResult>) {
    && (state == Completed <==> outcome == Some(Success))
    && (state == Cancelled <==> outcome == Some(CancelledError) || outcome == None)
    && (state == Failed <==> outcome == Some(OtherError) || outcome == Some(Panic))
  }

  lemma OutcomeDecides(s: State, id: JobId)
    requires Reachable(s) && HasEnded(s, id)
    ensures id in s.tracker && Decided(s.tracker[id], Returned(s, id))
    ensures s.attached ==> id in s.records && Decided(s.records[id], Returned(s, id))
    ensures s.starts[id] == if Returned(s, id).Some? then 1 else 0
    ensures id in s.edges.completed <==> Returned(s, id) == Some(Success)
    ensures id in s.edges.dead <==> Returned(s, id) != Some(Success)
  {
    ReachableInv(s);
    Known(s, id);
    var v := ViewOf(s, id);
    assert v.starts == s.starts[id] && v.completed == (id in s.edges.completed) && v.dead == (id in s.edges.dead);
    assert v.tracked == if id in s.tracker then Some(s.tracker[id]) else None;
  }

  // ----- Dependencies -----

  /** A job that was started had every dependency completed: `execute` was called once for it and
      succeeded, and it never dies. Completion and death are exclusive. */
  lemma DependencySafety(s: State, id: JobId)
    requires Reachable(s)
    ensures s.edges.completed !! s.edges.dead
    ensures s.starts[id] > 0 ==>
              id in s.edges.deps && forall i :: 0 <= i < |s.edges.deps[id]| ==>
                var d := s.edges.deps[id][i];
                && d in s.tracker && s.tracker[d] == Completed && s.starts[d] == 1 && d !in s.edges.dead
                && Returned(s, d) == Some(Success)
  {
    ReachableInv(s);
    forall d ensures d in s.edges.completed ==>
                       && d !in s.edges.dead && d in s.tracker && s.tracker[d] == Completed && s.starts[d] == 1
                       && Returned(s, d) == Some(Success)
    {
      if d in s.edges.completed { CompletedView(s, d); }
    }
    assert ViewOf(s, id) == ExpectedView(WhereIs(s, id));
    assert ViewOf(s, id).starts == s.starts[id];
    if s.starts[id] > 0 {
      Known(s, id);
      assert TakenToRun(s.places[id]);
    }
  }

  lemma CompletedView(s: State, d: JobId)
    requires Inv(s) && d in s.edges.completed
    ensures d !in s.edges.dead && d in s.tracker && s.tracker[d] == Completed && s.starts[d] == 1
    ensures Returned(s, d) == Some(Success)
  {
    var v := ViewOf(s, d);
    assert v == ExpectedView(WhereIs(s, d));
    assert v.completed;
    assert v.tracked == Some(Completed) && v.starts == 1 && !v.dead;
  }

  /** `path` follows registered dependency edges. */
  ghost predicate DependencyPath(edges: Edges, path: seq<JobId>) {
    forall i :: 0 <= i < |path| - 1 ==> path[i] in edges.deps && path[i + 1] in edges.deps[path[i]]
  }

  /** A started job had all its transitive dependencies completed: `execute` succeeded for each. */
  lemma {:induction false} TransitiveDependencySafety(s: State, path: seq<JobId>)
    requires Reachable(s) && DependencyPath(s.edges, path) && |path| >= 2 && s.starts[path[0]] > 0
    ensures path[|path| - 1] in s.tracker && s.tracker[path[|path| - 1]] == Completed
    ensures Returned(s, path[|path| - 1]) == Some(Success)
    decreases |path|
  {
    DependencySafety(s, path[0]);
    assert path[1] in s.edges.deps[path[0]];
    if |path| == 2 {
    } else {
      forall i | 0 <= i < |path[1..]| - 1
        ensures path[1..][i] in s.edges.deps && path[1..][i + 1] in s.edges.deps[path[1..][i]]
      {
        assert path[i + 1] in s.edges.deps && path[i + 1 + 1] in s.edges.deps[path[i + 1]];
      }
      TransitiveDependencySafety(s, path[1..]);
    }
  }

  /** Knowledge about dependencies grows along every run. */
  lemma {:induction false} RunGrows(s: State, steps: seq<Step>)
    requires Inv(s) && CanRun(s, steps)
    ensures EdgesGrow(s.edges, Run(s, steps).edges)
    decreases |steps|
  {
    if steps == [] {
    } else {
      var t, c := steps[0].thread, steps[0].choice;
      NextKeepsInv(s, t, c);
      NextGrows(s, t, c);
      RunGrows(Next(s, t, c), steps[1..]);
    }
  }

  lemma SweepGrows(s: State, t: ThreadId, index: nat, rest: seq<JobId>)
    requires Inv(s) && index < |s.queue.entries|
    ensures EdgesGrow(s.edges, s.SweepOut(index).Own(t, s.queue.entries[index].job, SweepPersisting(rest)).edges)
  {
    SweepOutLocal(s, index);
  }

  lemma PopKeepsEdges(s: State, t: ThreadId)
    ensures PopRegion(s, t).edges == s.edges
  {
    if s.shutdown && s.queue.entries == [] {
    } else if FirstIndex(s.queue.entries, s.edges.ReadyTest()) < |s.queue.entries| {
    } else {
    }
  }

  lemma TakeGrows(s: State, t: ThreadId, todo: seq<JobId>)
    requires Inv(s)
    ensures EdgesGrow(s.edges, TakeRegion(s, t, todo).edges)
  {
    var k := FirstQueued(s.queue.entries, todo);
    if k < |todo| {
      SweepGrows(s, t, FirstIndex(s.queue.entries, SameId(todo[k])), todo[k + 1..]);
    } else {
      PopKeepsEdges(s, t);
    }
  }

  lemma AdvanceGrows(s: State, t: ThreadId, job: Job, phase: Phase, result: ExecResult)
    requires Inv(s) && t in s.threads && s.threads[t] == Holding(job, phase)
    ensures EdgesGrow(s.edges, Advance(s, t, job, phase, result).edges)
  {
    HolderView(s, t);
    var v := ViewOf(s, job.id);
    assert v.registered == ExpectedView(Some(Held(t, phase))).registered;
    EffectGrows(s, job, phase);
  }

  lemma DequeueGrows(s: State, t: ThreadId, id: JobId)
    ensures EdgesGrow(s.edges, DequeueRegion(s, t, id).edges)
  {
    if FirstIndex(s.queue.entries, SameId(id)) < |s.queue.entries| {} else {}
  }

  lemma GoGrows(s: State, t: ThreadId, result: ExecResult)
    requires Inv(s) && Enabled(s, t, Go(result))
    ensures EdgesGrow(s.edges, Next(s, t, Go(result)).edges)
  {
    match s.threads[t]
    case Taking => TakeGrows(s, t, Blocked(s.queue.entries, s.edges));
    case Sweeping(rest) => TakeGrows(s, t, rest);
    case Dequeueing(id) => DequeueGrows(s, t, id);
    case Holding(job, phase) => AdvanceGrows(s, t, job, phase, result);
    case _ =>
  }

  lemma NextGrows(s: State, t: ThreadId, c: Choice)
    requires Inv(s) && Enabled(s, t, c)
    ensures EdgesGrow(s.edges, Next(s, t, c).edges)
  {
    if c.Go? { GoGrows(s, t, c.result); }
  }

  lemma {:induction false} RunExtends(s: State, steps: seq<Step>, more: seq<Step>)
    requires CanRun(s, steps) && CanRun(Run(s, steps), more)
    ensures CanRun(s, steps + more) && Run(s, steps + more) == Run(Run(s, steps), more)
    decreases |steps|
  {
    if steps == [] {
      assert steps + more == more;
    } else {
      var all := steps + more;
      assert all[0] == steps[0] && all[1..] == steps[1..] + more;
      RunExtends(Next(s, steps[0].thread, steps[0].choice), steps[1..], more);
    }
  }

  lemma ReachableRun(s: State, steps: seq<Step>)
    requires Reachable(s) && CanRun(s, steps)
    ensures Reachable(Run(s, steps))
  {
    var start, before :| Init(start) && CanRun(start, before) && Run(start, before) == s;
    RunExtends(start, before, steps);
  }

  /** A job with a dead dependency is never executed: not so far, and not in any continuation,
      although the sweep that cancels it drops and retakes its locks. */
  lemma BlockedNeverRuns(s: State, steps: seq<Step>, id: JobId)
    requires Reachable(s) && CanRun(s, steps) && s.edges.IsBlocked(id)
    ensures Run(s, steps).starts[id] == 0
  {
    ReachableInv(s);
    RunGrows(s, steps);
    GrowthKeepsReadiness(s.edges, Run(s, steps).edges, id);
    ReachableRun(s, steps);
    DependencySafety(Run(s, steps), id);
  }

  // ----- Life cycle and crash consistency -----

  /** Pending to Running to a terminal state, or Pending straight to Cancelled. */
  predicate LegalChange(a: JobState, b: JobState) {
    || a == b
    || (a == Pending && (b == Running || b == Cancelled))
    || (a == Running && (b == Completed || b == Failed || b == Cancelled))
  }

  /** One transition changes the tracked state and the record of a job only along the life cycle. */
  lemma LifeCycleStep(s: State, t: ThreadId, c: Choice, id: JobId)
    requires Reachable(s) && Enabled(s, t, c) && id in s.places
    ensures var s' := Next(s, t, c);
            && (id in s.tracker ==> id in s'.tracker && LegalChange(s.tracker[id], s'.tracker[id]))
            && (s.attached && ExpectedRecord(s.places[id]).Some? ==>
                  id in s.records && id in s'.records && LegalChange(s.records[id], s'.records[id]))
  {
    ReachableInv(s);
    var s' := Next(s, t, c);
    NextKeepsInv(s, t, c);
    var x := NextMoves(s, t, c);
    Known(s, id);
    Known(s', id);
    assert s'.attached == s.attached by { NextKeepsAttachment(s, t, c); }
    var p, p' := s.places[id], s'.places[id];
    EdgeChangesLegally(p, p', t);
    assert ViewOf(s, id).tracked == ExpectedView(Some(p)).tracked;
    assert ViewOf(s', id).tracked == ExpectedView(Some(p')).tracked;
  }

  lemma EdgeTracksLegally(p: Place, p': Place, t: ThreadId)
    requires PlaceEdge(Some(p), p', t)
    ensures var a, b := ExpectedView(Some(p)).tracked, ExpectedView(Some(p')).tracked;
            a.Some? ==> b.Some? && LegalChange(a.value, b.value)
  {
  }

  lemma EdgeRecordsLegally(p: Place, p': Place, t: ThreadId)
    requires PlaceEdge(Some(p), p', t)
    ensures var a, b := ExpectedRecord(p), ExpectedRecord(p');
            a.Some? ==> b.Some? && LegalChange(a.value, b.value)
  {
  }

  lemma EdgeChangesLegally(p: Place, p': Place, t: ThreadId)
    requires p == p' || PlaceEdge(Some(p), p', t)
    ensures var a, b := ExpectedView(Some(p)).tracked, ExpectedView(Some(p')).tracked;
            a.Some? ==> b.Some? && LegalChange(a.value, b.value)
    ensures var a, b := ExpectedRecord(p), ExpectedRecord(p');
            a.Some? ==> b.Some? && LegalChange(a.value, b.value)
  {
    if p != p' {
      EdgeTracksLegally(p, p', t);
      EdgeRecordsLegally(p, p', t);
    }
  }

  /** What `try_take` never writes. */
  ghost predicate SameScalars(s: State, s': State) {
    s'.attached == s.attached && s'.running == s.running && s'.shutdown == s.shutdown && s'.starts == s.starts
  }

  lemma TakeFrame(s: State, t: ThreadId, todo: seq<JobId>)
    ensures SameScalars(s, TakeRegion(s, t, todo))
  {
    if FirstQueued(s.queue.entries, todo) < |todo| {
    } else if s.shutdown && s.queue.entries == [] {
    } else if FirstIndex(s.queue.entries, s.edges.ReadyTest()) < |s.queue.entries| {
    } else {
    }
  }

  /** What the owner of a job never writes. */
  ghost predicate SameFlags(s: State, e: State, id: JobId) {
    && e.attached == s.attached && e.shutdown == s.shutdown && e.threads == s.threads
    && (e.starts == s.starts || e.starts == s.starts + multiset{id})
  }

  lemma SubmitScalars(s: State, job: Job, phase: Phase)
    requires BeingSubmitted(Held(0, phase))
    ensures SameFlags(s, Effect(s, job, phase), job.id)
  {
  }

  lemma OwnerScalars(s: State, job: Job, phase: Phase)
    requires !BeingSubmitted(Held(0, phase))
    ensures SameFlags(s, Effect(s, job, phase), job.id)
  {
  }

  lemma EffectScalars(s: State, job: Job, phase: Phase)
    ensures SameFlags(s, Effect(s, job, phase), job.id)
  {
    if BeingSubmitted(Held(0, phase)) { SubmitScalars(s, job, phase); } else { OwnerScalars(s, job, phase); }
  }

  lemma GoKeepsAttachment(s: State, t: ThreadId, result: ExecResult)
    requires Enabled(s, t, Go(result))
    ensures Next(s, t, Go(result)).attached == s.attached && Next(s, t, Go(result)).shutdown == s.shutdown
  {
    match s.threads[t]
    case Taking => TakeFrame(s, t, Blocked(s.queue.entries, s.edges));
    case Sweeping(rest) => TakeFrame(s, t, rest);
    case Dequeueing(id) => DequeueFrame(s, t, id);
    case Holding(job, phase) => EffectScalars(s, job, phase);
    case _ =>
  }

  lemma DequeueFrame(s: State, t: ThreadId, id: JobId)
    ensures SameScalars(s, DequeueRegion(s, t, id))
  {
    if FirstIndex(s.queue.entries, SameId(id)) < |s.queue.entries| {} else {}
  }

  lemma NextKeepsAttachment(s: State, t: ThreadId, c: Choice)
    requires Enabled(s, t, c)
    ensures Next(s, t, c).attached == s.attached
    ensures s.shutdown ==> Next(s, t, c).shutdown
  {
    if c.Go? { GoKeepsAttachment(s, t, c.result); }
  }

  /** Along every run the tracked state of a job only moves forward, and a terminal state never
      changes again. */
  lemma {:induction false} LifeCycle(s: State, steps: seq<Step>, id: JobId)
    requires Reachable(s) && CanRun(s, steps) && id in s.tracker
    ensures var last := Run(s, steps);
            && id in last.tracker
            && s.tracker[id].Progress() <= last.tracker[id].Progress()
            && (s.tracker[id].IsTerminal() ==> last.tracker[id] == s.tracker[id])
    decreases |steps|
  {
    if steps == [] {
    } else {
      ReachableInv(s);
      TrackedIsKnown(s, id);
      LifeCycleStep(s, steps[0].thread, steps[0].choice, id);
      var s' := Next(s, steps[0].thread, steps[0].choice);
      ReachableNext(s, steps[0].thread, steps[0].choice);
      LifeCycle(s', steps[1..], id);
    }
  }

  lemma Forward(a: JobState, b: JobState, c: JobState)
    requires LegalChange(a, b) && b.Progress() <= c.Progress() && (b.IsTerminal() ==> c == b)
    ensures a.Progress() <= c.Progress() && (a.IsTerminal() ==> c == a)
  {
  }

  lemma WrittenStep(s: State, t: ThreadId, c: Choice, id: JobId)
    requires Reachable(s) && Enabled(s, t, c) && s.attached && id in s.places && ExpectedRecord(s.places[id]).Some?
    ensures var s' := Next(s, t, c);
            s'.attached && id in s'.places && ExpectedRecord(s'.places[id]).Some?
  {
    ReachableInv(s);
    Known(s, id);
    var x := NextMoves(s, t, c);
    NextKeepsAttachment(s, t, c);
    EdgeChangesLegally(s.places[id], Next(s, t, c).places[id], t);
  }

  /** The same for the database: once the submission has written the record, the record stays, only
      moves forward, and never changes after it is terminal. */
  lemma {:induction false} RecordLifeCycle(s: State, steps: seq<Step>, id: JobId)
    requires Reachable(s) && CanRun(s, steps)
    requires s.attached && id in s.places && ExpectedRecord(s.places[id]).Some?
    ensures var last := Run(s, steps);
            && id in s.records && id in last.records
            && s.records[id].Progress() <= last.records[id].Progress()
            && (s.records[id].IsTerminal() ==> last.records[id] == s.records[id])
    decreases |steps|
  {
    ReachableInv(s);
    Known(s, id);
    if steps == [] {
    } else {
      var s' := Next(s, steps[0].thread, steps[0].choice);
      LifeCycleStep(s, steps[0].thread, steps[0].choice, id);
      WrittenStep(s, steps[0].thread, steps[0].choice, id);
      ReachableNext(s, steps[0].thread, steps[0].choice);
      RecordLifeCycle(s', steps[1..], id);
      Forward(s.records[id], s'.records[id], Run(s', steps[1..]).records[id]);
    }
  }

  /** `submit` has not returned yet. */
  predicate BeingSubmitted(p: Place) {
    p.Held? && (p.phase.Registering? || p.phase in {Tracking, Describing, PersistingNew, Enqueueing})
  }

  /** Crash consistency: stop the machine in any reachable state with a database attached. The
      record of a job whose submission returned exists, never runs ahead of the tracker, is terminal
      exactly when the job is finished and then is its true outcome, and is Pending only if
      `execute` was never called. */
  lemma CrashConsistency(s: State, id: JobId)
    requires Reachable(s) && s.attached && id in s.places && !BeingSubmitted(s.places[id])
    ensures id in s.records && id in s.tracker
    ensures s.records[id].Progress() <= s.tracker[id].Progress()
    ensures s.records[id].IsTerminal() <==> s.places[id].Ended?
    ensures s.places[id].Ended? ==> s.records[id] == s.tracker[id] == s.places[id].how.Verdict()
    ensures s.records[id] == Pending ==> s.starts[id] == 0
    ensures s.records[id] == Completed ==> s.starts[id] == 1
  {
    ReachableInv(s);
    Known(s, id);
    var v := ViewOf(s, id);
    assert v.starts == s.starts[id];
    assert v.tracked == if id in s.tracker then Some(s.tracker[id]) else None;
  }

  /** Whenever a thread is about to persist a job, the job's metadata and tracker entry exist, so
      no record is skipped and the lookup cannot panic. */
  lemma PersistFindsJob(s: State, t: ThreadId)
    requires Reachable(s) && t in s.threads && s.threads[t].Holding?
    requires var phase := s.threads[t].phase;
             phase in {PersistingNew, PersistingRunning, CancelPersisting}
             || phase.PersistingVerdict? || phase.SweepPersisting?
    ensures s.threads[t].job.id in s.described && s.threads[t].job.id in s.tracker
  {
    ReachableInv(s);
    HolderView(s, t);
    var v := ViewOf(s, s.threads[t].job.id);
    assert v.described && v.tracked.Some?;
  }

  // ----- Cancellation and shutdown -----

  /** The two regions of `cancel` on a tracked job, without interference. */
  ghost function CancelAlone(s: State, t: ThreadId, id: JobId): State
    requires t in s.threads && s.threads[t] == Dequeueing(id)
  {
    var s1 := DequeueRegion(s, t, id);
    if t in s1.threads && s1.threads[t] == Signalling(id) then Next(s1, t, Go(Success)) else s1
  }

  lemma CancelQueued(s: State, t: ThreadId, id: JobId)
    requires Inv(s) && t in s.threads && s.threads[t] == Dequeueing(id) && IsQueued(s.queue.entries, id)
    ensures var s' := CancelAlone(s, t, id);
            id !in s.running && t in s'.threads && s'.threads[t].Holding? && id in s'.places && TakenByCancel(s'.places[id])
  {
    var index := FirstIndex(s.queue.entries, SameId(id));
    SameIdIndex(s.queue.entries, id);
    QueuedIsAtRest(s, index);
    assert ViewOf(s, id).published == (id in s.running);
  }

  lemma CancelNotQueued(s: State, t: ThreadId, id: JobId)
    requires t in s.threads && s.threads[t] == Dequeueing(id) && !IsQueued(s.queue.entries, id)
    ensures CancelAlone(s, t, id) ==
              (if id in s.running then s.(running := s.running[id := true]) else s).Goto(t, Idle)
  {
    var s1 := Next(s, t, Go(Success));
    assert s1 == s.Goto(t, Signalling(id)) by {
      SameIdIndex(s.queue.entries, id);
    }
    assert s1.threads[t := Idle] == s.threads[t := Idle];
  }

  lemma CancelRunning(s: State, t: ThreadId, id: JobId)
    requires Inv(s) && t in s.threads && s.threads[t] == Dequeueing(id) && !IsQueued(s.queue.entries, id)
    ensures CancelAlone(s, t, id) == s.Goto(t, Idle) <==> id in s.running ==> s.running[id]
    ensures id in s.running ==> Signalled(CancelAlone(s, t, id), id)
  {
    CancelNotQueued(s, t, id);
    var s' := CancelAlone(s, t, id);
    if id in s.running {
      TrackedIsKnown(s, id);
      Known(s, id);
      assert ViewOf(s, id).published && ViewOf(s, id).starts == s.starts[id];
      assert s'.running[id];
      assert s.running[id] ==> s.running[id := true] == s.running;
    }
  }

  /** A cancel is delivered exactly when the job is queued, or published and not yet signalled. In
      the gaps of a submission and between the pop and the publication of a job it does nothing. */
  lemma CancelDeliveredIff(s: State, t: ThreadId, id: JobId)
    requires Reachable(s) && t in s.threads && s.threads[t] == Dequeueing(id)
    ensures CancelAlone(s, t, id) != s.Goto(t, Idle) <==>
              IsQueued(s.queue.entries, id) || (id in s.running && !s.running[id])
    ensures IsQueued(s.queue.entries, id) ==> Removed(CancelAlone(s, t, id), id)
    ensures id in s.running ==> Signalled(CancelAlone(s, t, id), id)
  {
    ReachableInv(s);
    if IsQueued(s.queue.entries, id) { CancelQueued(s, t, id); } else { CancelRunning(s, t, id); }
  }

  /** Only the publication of a job puts a fresh token into the running map. */
  lemma EffectRunning(s: State, job: Job, phase: Phase, id: JobId)
    requires phase == Publishing ==> job.id != id
    ensures var e := Effect(s, job, phase);
            id in e.running ==> id in s.running && e.running[id] == s.running[id]
  {
  }

  lemma AdvanceRunning(s: State, t: ThreadId, job: Job, phase: Phase, result: ExecResult, id: JobId)
    requires Inv(s) && t in s.threads && s.threads[t] == Holding(job, phase) && s.starts[id] > 0
    ensures var s' := Advance(s, t, job, phase, result);
            id in s'.running ==> id in s.running && s'.running[id] == s.running[id]
  {
    HolderView(s, t);
    assert ViewOf(s, job.id).starts == s.starts[job.id];
    EffectRunning(s, job, phase, id);
  }

  lemma GoRunning(s: State, t: ThreadId, result: ExecResult, id: JobId)
    requires Inv(s) && Enabled(s, t, Go(result)) && s.starts[id] > 0
    ensures var s' := Next(s, t, Go(result));
            id in s'.running ==> s'.running[id] || (id in s.running && s'.running[id] == s.running[id])
  {
    match s.threads[t]
    case Taking => TakeFrame(s, t, Blocked(s.queue.entries, s.edges));
    case Sweeping(rest) => TakeFrame(s, t, rest);
    case Dequeueing(other) => DequeueFrame(s, t, other);
    case Holding(job, phase) => AdvanceRunning(s, t, job, phase, result, id);
    case _ =>
  }

  lemma NextRunning(s: State, t: ThreadId, c: Choice, id: JobId)
    requires Inv(s) && Enabled(s, t, c) && s.starts[id] > 0
    ensures var s' := Next(s, t, c);
            id in s'.running ==> s'.running[id] || (id in s.running && s'.running[id] == s.running[id])
  {
    if c.Go? { GoRunning(s, t, c.result, id); }
  }

  lemma EffectTokens(s: State, job: Job, phase: Phase, id: JobId)
    ensures var e := Effect(s, job, phase);
            id in e.running && e.running[id] ==> id in s.running && s.running[id]
  {
  }

  lemma GoTokens(s: State, t: ThreadId, result: ExecResult, id: JobId)
    requires Enabled(s, t, Go(result)) && s.threads[t] != Signalling(id)
    ensures var s' := Next(s, t, Go(result));
            id in s'.running && s'.running[id] ==> id in s.running && s.running[id]
  {
    match s.threads[t]
    case Taking => TakeFrame(s, t, Blocked(s.queue.entries, s.edges));
    case Sweeping(rest) => TakeFrame(s, t, rest);
    case Dequeueing(other) => DequeueFrame(s, t, other);
    case Holding(job, phase) => EffectTokens(s, job, phase, id);
    case _ =>
  }

  /** A token is published clear, and only a `cancel` of that job sets it. */
  lemma OnlyCancelSignals(s: State, t: ThreadId, c: Choice, id: JobId)
    requires Enabled(s, t, c) && !(id in s.running && s.running[id])
    ensures var s' := Next(s, t, c);
            id in s'.running && s'.running[id] ==> c.Go? && s.threads[t] == Signalling(id) && id in s.running
  {
    if c.Go? && s.threads[t] != Signalling(id) { GoTokens(s, t, c.result, id); }
  }

  /** The job was started, and if it is still published its token is cancelled. */
  ghost predicate Signalled(s: State, id: JobId) {
    id in s.places && s.starts[id] > 0 && (id in s.running ==> s.running[id])
  }

  lemma SignalStep(s: State, t: ThreadId, c: Choice, id: JobId)
    requires Inv(s) && Enabled(s, t, c) && Signalled(s, id)
    ensures Signalled(Next(s, t, c), id)
  {
    var x := NextMoves(s, t, c);
    NextRunning(s, t, c, id);
    NextStarts(s, t, c, id);
  }

  lemma GoStarts(s: State, t: ThreadId, result: ExecResult, id: JobId)
    requires Enabled(s, t, Go(result))
    ensures Next(s, t, Go(result)).starts[id] >= s.starts[id]
  {
    match s.threads[t]
    case Taking => TakeFrame(s, t, Blocked(s.queue.entries, s.edges));
    case Sweeping(rest) => TakeFrame(s, t, rest);
    case Dequeueing(other) => DequeueFrame(s, t, other);
    case Holding(job, phase) => EffectScalars(s, job, phase);
    case _ =>
  }

  lemma NextStarts(s: State, t: ThreadId, c: Choice, id: JobId)
    requires Enabled(s, t, c)
    ensures Next(s, t, c).starts[id] >= s.starts[id]
  {
    if c.Go? { GoStarts(s, t, c.result, id); }
  }

  /** Once signalled, the token of a running job is never cleared and the job never published anew. */
  lemma {:induction false} SignalStays(s: State, steps: seq<Step>, id: JobId)
    requires Inv(s) && CanRun(s, steps) && Signalled(s, id)
    ensures Signalled(Run(s, steps), id)
    decreases |steps|
  {
    if steps == [] {
    } else {
      NextKeepsInv(s, steps[0].thread, steps[0].choice);
      SignalStep(s, steps[0].thread, steps[0].choice, id);
      SignalStays(Next(s, steps[0].thread, steps[0].choice), steps[1..], id);
    }
  }

  /** After `stop`, no job is accepted any more. */
  lemma {:induction false} ShutdownAcceptsNothing(s: State, steps: seq<Step>)
    requires s.shutdown && Inv(s) && CanRun(s, steps)
    ensures Run(s, steps).shutdown && Run(s, steps).places.Keys == s.places.Keys
    decreases |steps|
  {
    if steps == [] {
    } else {
      var t, c := steps[0].thread, steps[0].choice;
      var s' := Next(s, t, c);
      NextKeepsAttachment(s, t, c);
      forall id ensures id in s'.places <==> id in s.places {
        var x := NextMoves(s, t, c);
      }
      NextKeepsInv(s, t, c);
      ShutdownAcceptsNothing(s', steps[1..]);
    }
  }

  // ----- Program counters -----

  lemma TakeKeepsCounters(s: State, t: ThreadId, todo: seq<JobId>, u: ThreadId)
    requires u != t && u in s.threads
    ensures u in TakeRegion(s, t, todo).threads && TakeRegion(s, t, todo).threads[u] == s.threads[u]
  {
    if FirstQueued(s.queue.entries, todo) < |todo| {
    } else if s.shutdown && s.queue.entries == [] {
    } else if FirstIndex(s.queue.entries, s.edges.ReadyTest()) < |s.queue.entries| {
    } else {
    }
  }

  lemma DequeueKeepsCounters(s: State, t: ThreadId, id: JobId, u: ThreadId)
    requires u != t && u in s.threads
    ensures u in DequeueRegion(s, t, id).threads && DequeueRegion(s, t, id).threads[u] == s.threads[u]
  {
    if FirstIndex(s.queue.entries, SameId(id)) < |s.queue.entries| {} else {}
  }

  lemma AdvanceKeepsCounters(s: State, t: ThreadId, job: Job, phase: Phase, result: ExecResult, u: ThreadId)
    requires u != t && u in s.threads
    ensures u in Advance(s, t, job, phase, result).threads && Advance(s, t, job, phase, result).threads[u] == s.threads[u]
  {
    EffectScalars(s, job, phase);
  }

  lemma GoKeepsCounters(s: State, t: ThreadId, result: ExecResult, u: ThreadId)
    requires Enabled(s, t, Go(result)) && u != t && u in s.threads
    ensures u in Next(s, t, Go(result)).threads && Next(s, t, Go(result)).threads[u] == s.threads[u]
  {
    match s.threads[t]
    case Taking => TakeKeepsCounters(s, t, Blocked(s.queue.entries, s.edges), u);
    case Sweeping(rest) => TakeKeepsCounters(s, t, rest, u);
    case Dequeueing(id) => DequeueKeepsCounters(s, t, id, u);
    case Holding(job, phase) => AdvanceKeepsCounters(s, t, job, phase, result, u);
    case _ =>
  }

  lemma NextKeepsCounters(s: State, t: ThreadId, c: Choice, u: ThreadId)
    requires Enabled(s, t, c) && u != t && u in s.threads
    ensures u in Next(s, t, c).threads && Next(s, t, c).threads[u] == s.threads[u]
  {
    if c.Go? { GoKeepsCounters(s, t, c.result, u); }
  }

  lemma ReachableNext(s: State, t: ThreadId, c: Choice)
    requires Reachable(s) && Enabled(s, t, c)
    ensures Reachable(Next(s, t, c))
  {
    var one := [Step(t, c)];
    var none: seq<Step> := one[1..];
    assert none == [] && CanRun(Next(s, t, c), none);
    assert CanRun(s, one) && Run(s, one) == Run(Next(s, t, c), none);
    ReachableRun(s, one);
  }
}
