/** Progress of the pipeline: work is bounded, and jobs with dependencies that cannot be met are never
    started. */
module PipelineLiveness {
  import opened Bytes
  import opened JobQueues
  import opened Schedulers
  import opened JobStates
  import opened Pipelines
  import opened PipelineInvariant
  import opened PipelineSafety

  // ----- Bounded work -----

  /** How many more lock regions can touch a job. */
  function Weight(p: Place): nat {
    match p
    case Ended(_) => 0
    case Queued => 9
    case Held(_, phase) =>
      match phase
      case Registering(_) => 14
      case Tracking => 13
      case Describing => 12
      case PersistingNew => 11
      case Enqueueing => 10
      case Starting => 8
      case PersistingRunning => 7
      case Publishing => 6
      case Executing => 5
      case Retiring(_) => 4
      case Reporting(_) => 3
      case Marking(_) => 2
      case PersistingVerdict(_) => 1
      case CancelReporting => 3
      case CancelMarking => 2
      case CancelPersisting => 1
      case SweepPersisting(_) => 1
  }

  /** The well-founded measure: all the work still ahead. */
  ghost function Work(places: map<JobId, Place>): nat
    decreases |places|
  {
    if places == map[] then 0
    else
      var id :| id in places;
      Weight(places[id]) + Work(places - {id})
  }

  lemma {:induction false} WorkWithout(places: map<JobId, Place>, x: JobId)
    requires x in places
    ensures Work(places) == Weight(places[x]) + Work(places - {x})
    decreases |places|
  {
    var id :| id in places && Work(places) == Weight(places[id]) + Work(places - {id});
    if id == x {
    } else {
      WorkWithout(places - {id}, x);
      WorkWithout(places - {x}, id);
      assert places - {id} - {x} == places - {x} - {id};
    }
  }

  lemma WorkWith(places: map<JobId, Place>, x: JobId, p: Place)
    ensures Work(places[x := p]) == Weight(p) + Work(places - {x})
    ensures x !in places ==> Work(places[x := p]) == Weight(p) + Work(places)
  {
    WorkWithout(places[x := p], x);
    assert places[x := p] - {x} == places - {x};
    if x !in places { assert places - {x} == places; }
  }

  lemma EdgeLowersWeight(before: Option<Place>, after: Place, t: ThreadId)
    requires PlaceEdge(before, after, t)
    ensures if before.Some? then Weight(after) < Weight(before.value) else Weight(after) == 14
  {
  }

  lemma MoveUsesWork(places: map<JobId, Place>, x: JobId, p: Place, t: ThreadId)
    requires PlaceEdge(if x in places then Some(places[x]) else None, p, t)
    ensures x in places ==> Work(places[x := p]) < Work(places)
    ensures x !in places ==> Work(places[x := p]) == Work(places) + 14
  {
    EdgeLowersWeight(if x in places then Some(places[x]) else None, p, t);
    WorkWith(places, x, p);
    if x in places { WorkWithout(places, x); }
  }

  /** Every take, sweep, finish or other region that moves a job uses up work; only an accepted
      submission brings new work. */
  lemma StepUsesWork(s: State, t: ThreadId, c: Choice)
    requires Inv(s) && Enabled(s, t, c)
    ensures var s' := Next(s, t, c);
            if c.Submit? && !s.shutdown then Work(s'.places) == Work(s.places) + 14
            else s'.places == s.places || Work(s'.places) < Work(s.places)
  {
    var x := NextMoves(s, t, c);
    var places' := Next(s, t, c).places;
    if places' != s.places {
      assert x in places';
      MoveUsesWork(s.places, x, places'[x], t);
    }
  }

  /** How many steps of a run moved a job. */
  ghost function Moves(s: State, steps: seq<Step>): nat
    requires CanRun(s, steps)
    decreases |steps|
  {
    if steps == [] then 0
    else
      var s' := Next(s, steps[0].thread, steps[0].choice);
      (if s'.places != s.places then 1 else 0) + Moves(s', steps[1..])
  }

  lemma StepAccount(s: State, t: ThreadId, c: Choice)
    requires Inv(s) && Enabled(s, t, c)
    ensures var places' := Next(s, t, c).places;
            s.places.Keys <= places'.Keys
            && (if places' != s.places then 1 else 0) + Work(places') <= Work(s.places) + 15 * (|places'| - |s.places|)
  {
    StepUsesWork(s, t, c);
    var x := NextMoves(s, t, c);
    KeysCount(s.places, Next(s, t, c).places, if c.Submit? && !s.shutdown then {c.job.id} else {});
  }

  /** Over any run, the steps that move a job are bounded by the work at the start plus fifteen per
      job submitted since; so a pipeline that gets no new jobs comes to rest. */
  lemma {:induction false} BoundedWork(s: State, steps: seq<Step>)
    requires Inv(s) && CanRun(s, steps)
    ensures s.places.Keys <= Run(s, steps).places.Keys
    ensures Moves(s, steps) + Work(Run(s, steps).places)
            <= Work(s.places) + 15 * (|Run(s, steps).places| - |s.places|)
    decreases |steps|
  {
    if steps == [] {
    } else {
      var s' := Next(s, steps[0].thread, steps[0].choice);
      NextKeepsInv(s, steps[0].thread, steps[0].choice);
      StepAccount(s, steps[0].thread, steps[0].choice);
      BoundedWork(s', steps[1..]);
    }
  }

  lemma KeysCount(a: map<JobId, Place>, b: map<JobId, Place>, added: set<JobId>)
    requires b.Keys == a.Keys + added && a.Keys !! added
    ensures |b| == |a| + |added|
  {
    assert |a.Keys| == |a| && |b.Keys| == |b|;
  }

  // ----- Dependencies that can never be met -----

  lemma {:induction false} StartedPathCompleted(s: State, path: seq<JobId>, k: nat)
    requires Inv(s) && DependencyPath(s.edges, path) && 0 < k < |path| && s.starts[path[0]] > 0
    ensures path[k] in s.edges.completed && s.starts[path[k]] == 1
  {
    if k <= 1 {
    } else {
      StartedPathCompleted(s, path, k - 1);
    }
    var y := path[k - 1];
    assert ViewOf(s, y) == ExpectedView(WhereIs(s, y));
    assert ViewOf(s, y).starts == s.starts[y];
    Known(s, y);
    assert path[k - 1 + 1] in s.edges.deps[y];
    CompletedView(s, path[k]);
  }

  /** `id` depends on itself, directly or not. */
  ghost predicate OnCycle(edges: Edges, path: seq<JobId>) {
    |path| >= 2 && DependencyPath(edges, path) && path[0] == path[|path| - 1]
  }

  ghost predicate NoCycleStarted(s: State) {
    forall path :: OnCycle(s.edges, path) ==> s.starts[path[0]] == 0
  }

  /** `s'` comes right after `s`: what was started in `s'` was registered before, and what is
      completed in `s'` was started before. */
  ghost predicate Follows(s: State, s': State) {
    && (forall y :: s'.starts[y] > 0 ==> y in s.edges.deps && y in s'.edges.deps && s'.edges.deps[y] == s.edges.deps[y])
    && (forall y :: y in s'.edges.completed ==> s.starts[y] > 0)
  }

  lemma CycleFollows(s: State, s': State)
    requires Inv(s') && NoCycleStarted(s) && Follows(s, s')
    ensures NoCycleStarted(s')
  {
    forall path | OnCycle(s'.edges, path) ensures s'.starts[path[0]] == 0 {
      if s'.starts[path[0]] > 0 {
        StartedPathCompleted(s', path, |path| - 1);
        forall k | 0 <= k < |path| - 1 ensures path[k] in s.edges.deps && path[k + 1] in s.edges.deps[path[k]] {
          if k > 0 { StartedPathCompleted(s', path, k); }
          assert s'.starts[path[k]] > 0;
        }
        assert OnCycle(s.edges, path);
      }
    }
  }

  lemma CycleStep(s: State, t: ThreadId, c: Choice)
    requires Inv(s) && NoCycleStarted(s) && Enabled(s, t, c)
    ensures NoCycleStarted(Next(s, t, c))
  {
    var s' := Next(s, t, c);
    NextKeepsInv(s, t, c);
    forall y ensures s'.starts[y] > 0 ==> y in s.edges.deps && y in s'.edges.deps && s'.edges.deps[y] == s.edges.deps[y] {
      if s'.starts[y] > 0 { StartedDepsOld(s, t, c, y); }
    }
    forall y | y in s'.edges.completed ensures s.starts[y] > 0 { CompletedNotJustStarted(s, t, c, y); }
    CycleFollows(s, s');
  }

  lemma EdgeHistory(before: Option<Place>, after: Place, t: ThreadId)
    requires before == Some(after) || PlaceEdge(before, after, t)
    ensures ExpectedView(Some(after)).starts > 0 ==> ExpectedView(before).registered
    ensures ExpectedView(Some(after)).completed ==> ExpectedView(before).starts > 0
  {
  }

  lemma JobHistory(s: State, t: ThreadId, c: Choice, y: JobId)
    requires Inv(s) && Enabled(s, t, c) && y in Next(s, t, c).places
    ensures ExpectedView(Some(Next(s, t, c).places[y])).starts > 0 ==> ExpectedView(WhereIs(s, y)).registered
    ensures ExpectedView(Some(Next(s, t, c).places[y])).completed ==> ExpectedView(WhereIs(s, y)).starts > 0
  {
    var x := NextMoves(s, t, c);
    EdgeHistory(WhereIs(s, y), Next(s, t, c).places[y], t);
  }

  /** A started job was registered before this step, with the same dependencies. */
  lemma StartedDepsOld(s: State, t: ThreadId, c: Choice, y: JobId)
    requires Inv(s) && Enabled(s, t, c) && Inv(Next(s, t, c)) && Next(s, t, c).starts[y] > 0
    ensures y in s.edges.deps && y in Next(s, t, c).edges.deps && Next(s, t, c).edges.deps[y] == s.edges.deps[y]
  {
    var s' := Next(s, t, c);
    NextGrows(s, t, c);
    assert ViewOf(s', y) == ExpectedView(WhereIs(s', y)) && ViewOf(s', y).starts == s'.starts[y];
    JobHistory(s, t, c, y);
    assert ViewOf(s, y) == ExpectedView(WhereIs(s, y)) && ViewOf(s, y).registered == (y in s.edges.deps);
  }

  /** A job whose execution only starts with this step is not completed yet. */
  lemma CompletedNotJustStarted(s: State, t: ThreadId, c: Choice, y: JobId)
    requires Inv(s) && Enabled(s, t, c) && Inv(Next(s, t, c)) && y in Next(s, t, c).edges.completed
    ensures s.starts[y] > 0
  {
    var s' := Next(s, t, c);
    assert ViewOf(s', y) == ExpectedView(WhereIs(s', y)) && ViewOf(s', y).completed;
    JobHistory(s, t, c, y);
    assert ViewOf(s, y) == ExpectedView(WhereIs(s, y)) && ViewOf(s, y).starts == s.starts[y];
  }

  lemma {:induction false} CycleRun(s: State, steps: seq<Step>)
    requires Inv(s) && NoCycleStarted(s) && CanRun(s, steps)
    ensures NoCycleStarted(Run(s, steps))
    decreases |steps|
  {
    if steps == [] {
    } else {
      NextKeepsInv(s, steps[0].thread, steps[0].choice);
      CycleStep(s, steps[0].thread, steps[0].choice);
      CycleRun(Next(s, steps[0].thread, steps[0].choice), steps[1..]);
    }
  }

  lemma CompletedIsKnown(s: State, d: JobId)
    requires Inv(s) && d in s.edges.completed
    ensures d in s.places
  {
    assert ViewOf(s, d) == ExpectedView(WhereIs(s, d)) && ViewOf(s, d).completed;
  }

  lemma CycleNeverStarted(s: State, cycle: seq<JobId>)
    requires Reachable(s) && OnCycle(s.edges, cycle)
    ensures s.starts[cycle[0]] == 0
  {
    var start, steps :| Init(start) && CanRun(start, steps) && Run(start, steps) == s;
    InitInv(start);
    CycleRun(start, steps);
  }

  /** `path` runs into itself, or into an id nobody submitted. */
  ghost predicate RunsAstray(s: State, path: seq<JobId>) {
    && |path| >= 2 && DependencyPath(s.edges, path)
    && (path[|path| - 1] !in s.places || path[|path| - 1] in path[..|path| - 1])
  }

  lemma SuffixPath(edges: Edges, path: seq<JobId>, k: nat)
    requires DependencyPath(edges, path) && k < |path|
    ensures DependencyPath(edges, path[k..])
  {
    var suffix := path[k..];
    forall i | 0 <= i < |suffix| - 1 ensures suffix[i] in edges.deps && suffix[i + 1] in edges.deps[suffix[i]] {
      assert path[k + i] in edges.deps && path[k + i + 1] in edges.deps[path[k + i]];
    }
  }

  /** The code checks no dependency: a job from which registered edges lead into a cycle, or to an
      id nobody submitted, is never started. */
  lemma AstrayNeverStarts(s: State, path: seq<JobId>)
    requires Reachable(s) && RunsAstray(s, path)
    ensures s.starts[path[0]] == 0
  {
    ReachableInv(s);
    var last := |path| - 1;
    if s.starts[path[0]] > 0 {
      StartedPathCompleted(s, path, last);
      CompletedIsKnown(s, path[last]);
      var k :| 0 <= k < last && path[k] == path[last];
      if k > 0 { StartedPathCompleted(s, path, k); }
      SuffixPath(s.edges, path, k);
      CycleNeverStarted(s, path[k..]);
    }
  }

  /** A cycle of dependencies is for good: no continuation ever starts a job that leads into it. */
  lemma CycleNeverRuns(s: State, steps: seq<Step>, path: seq<JobId>)
    requires Reachable(s) && CanRun(s, steps) && |path| >= 2 && DependencyPath(s.edges, path)
    requires path[|path| - 1] in path[..|path| - 1]
    ensures Run(s, steps).starts[path[0]] == 0
  {
    ReachableInv(s);
    RunGrows(s, steps);
    ReachableRun(s, steps);
    var s' := Run(s, steps);
    forall i | 0 <= i < |path| - 1 ensures path[i] in s'.edges.deps && path[i + 1] in s'.edges.deps[path[i]] {
      assert path[i] in s.edges.deps;
    }
    AstrayNeverStarts(s', path);
  }
}
