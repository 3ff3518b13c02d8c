/** The pipeline at rest: when nothing can be taken and nobody holds a job, which jobs are left behind,
    and what became of the others. */
module PipelineRest {
  import opened Bytes
  import opened JobQueues
  import opened Schedulers
  import opened JobStates
  import opened Pipelines
  import opened PipelineInvariant
  import opened PipelineSafety
  import opened PipelineLiveness

  // ----- What a take finds -----

  ghost predicate NobodyHolds(s: State) {
    forall t :: t in s.threads ==> !s.threads[t].Holding?
  }

  ghost function QueuedSet(entries: seq<Entry>): set<JobId> {
    set i | 0 <= i < |entries| :: entries[i].job.id
  }

  lemma {:induction false} QueuedSetSmall(entries: seq<Entry>)
    ensures |QueuedSet(entries)| <= |entries|
    ensures forall id :: id in QueuedSet(entries) <==> IsQueued(entries, id)
  {
    if entries == [] {
    } else {
      var n := |entries| - 1;
      QueuedSetSmall(entries[..n]);
      assert QueuedSet(entries) == QueuedSet(entries[..n]) + {entries[n].job.id};
    }
  }

  /** The job can be popped or swept right now. */
  predicate Takeable(s: State, id: JobId) {
    s.edges.IsReady(id) || s.edges.IsBlocked(id)
  }

  /** A worker that takes now gets a job, to run or to sweep. */
  ghost predicate FindsWork(s: State, t: ThreadId) {
    var s' := TakeRegion(s, t, Blocked(s.queue.entries, s.edges));
    t in s'.threads && s'.threads[t].Holding?
  }

  /** A take finds something to do exactly when some queued job is ready or blocked. */
  lemma TakeFindsIff(s: State, t: ThreadId)
    requires t in s.threads
    ensures FindsWork(s, t) <==> exists i :: 0 <= i < |s.queue.entries| && Takeable(s, s.queue.entries[i].job.id)
  {
    var entries := s.queue.entries;
    var todo := Blocked(entries, s.edges);
    BlockedAreBlocked(entries, s.edges);
    var k := FirstQueued(entries, todo);
    if k < |todo| {
      var index := FirstIndex(entries, SameId(todo[k]));
      SameIdIndex(entries, todo[k]);
      assert s.edges.IsBlocked(todo[k]) && entries[index].job.id == todo[k];
      assert Takeable(s, entries[index].job.id);
    } else {
      forall i | 0 <= i < |entries| ensures !s.edges.IsBlocked(entries[i].job.id) {
        if s.edges.IsBlocked(entries[i].job.id) {
          var j :| 0 <= j < |todo| && todo[j] == entries[i].job.id;
          FirstQueuedIsFirst(entries, todo);
          SameIdIndex(entries, todo[j]);
        }
      }
      var index := FirstIndex(entries, s.edges.ReadyTest());
      FirstIndexIsFirst(entries, s.edges.ReadyTest());
      if index < |entries| {
        assert s.edges.ReadyTest()(entries[index].job.id);
        assert Takeable(s, entries[index].job.id);
      } else {
        forall i | 0 <= i < |entries| ensures !Takeable(s, entries[i].job.id) {
          assert !s.edges.ReadyTest()(entries[i].job.id);
        }
      }
    }
  }

  /** A finished dependency is settled for the scheduler. */
  lemma EndedIsSettled(s: State, id: JobId)
    requires Inv(s) && id in s.places && s.places[id].Ended?
    ensures id in s.edges.completed <==> s.places[id].how == Ran(Success)
    ensures id in s.edges.completed || id in s.edges.dead
    ensures id in s.tracker && s.tracker[id] == s.places[id].how.Verdict()
    ensures s.starts[id] == if s.places[id].how.Ran? then 1 else 0
  {
    Known(s, id);
    var v := ViewOf(s, id);
    assert v.completed == (id in s.edges.completed) && v.dead == (id in s.edges.dead) && v.starts == s.starts[id];
    assert v.tracked == if id in s.tracker then Some(s.tracker[id]) else None;
  }

  lemma SettledElsewhere(s: State, d: JobId)
    requires Inv(s) && NobodyHolds(s) && d in s.places && !IsQueued(s.queue.entries, d)
    ensures s.places[d].Ended?
  {
    Known(s, d);
    assert ViewOf(s, d).queued == IsQueued(s.queue.entries, d);
  }

  // ----- Who is stuck -----

  /** Dependencies lead from job to job through the queue, into a job on the way already or to an id
      nobody submitted. */
  ghost predicate StuckPath(s: State, path: seq<JobId>) {
    && RunsAstray(s, path)
    && forall i :: 0 <= i < |path| - 1 ==> IsQueued(s.queue.entries, path[i])
  }

  ghost predicate IsStuck(s: State, id: JobId) {
    exists path :: StuckPath(s, path) && path[0] == id
  }

  /** Nobody holds a job, and a worker that looks finds none. */
  ghost predicate AtRest(s: State, t: ThreadId) {
    t in s.threads && NobodyHolds(s) && !FindsWork(s, t)
  }

  /** A queued job that can be neither run nor swept waits for a queued or an unknown one. */
  lemma Unsettled(s: State, id: JobId) returns (d: JobId)
    requires Inv(s) && NobodyHolds(s) && IsQueued(s.queue.entries, id) && !Takeable(s, id)
    ensures id in s.edges.deps && d in s.edges.deps[id]
    ensures d !in s.places || IsQueued(s.queue.entries, d)
  {
    var index :| 0 <= index < |s.queue.entries| && s.queue.entries[index].job.id == id;
    QueuedIsAtRest(s, index);
    assert ViewOf(s, id).registered;
    var i :| 0 <= i < |s.edges.deps[id]| && s.edges.deps[id][i] !in s.edges.completed;
    d := s.edges.deps[id][i];
    if d in s.places && !IsQueued(s.queue.entries, d) {
      SettledElsewhere(s, d);
      EndedIsSettled(s, d);
    }
  }

  ghost predicate AllQueued(s: State, path: seq<JobId>) {
    forall i :: 0 <= i < |path| ==> IsQueued(s.queue.entries, path[i])
  }

  ghost predicate NoRepeat(path: seq<JobId>) {
    forall i, j :: 0 <= i < j < |path| ==> path[i] != path[j]
  }

  lemma {:induction false} NoRepeatFits(path: seq<JobId>, ids: set<JobId>)
    requires NoRepeat(path) && forall i :: 0 <= i < |path| ==> path[i] in ids
    ensures |path| <= |ids|
  {
    if path == [] {
    } else {
      var n := |path| - 1;
      NoRepeatFits(path[..n], ids - {path[n]});
    }
  }

  /** Following unsettled dependencies through the queue must end in a repeat or outside. */
  lemma {:induction false} WalkGetsStuck(s: State, t: ThreadId, walk: seq<JobId>) returns (path: seq<JobId>)
    requires Inv(s) && AtRest(s, t)
    requires walk != [] && NoRepeat(walk) && AllQueued(s, walk) && DependencyPath(s.edges, walk)
    ensures StuckPath(s, path) && path[0] == walk[0]
    decreases |QueuedSet(s.queue.entries)| - |walk|
  {
    var last := walk[|walk| - 1];
    NotTakeable(s, t, last);
    var d := Unsettled(s, last);
    var longer := walk + [d];
    assert longer[..|longer| - 1] == walk;
    LongerPath(s.edges, walk, d);
    if d !in s.places || d in walk {
      path := longer;
    } else {
      QueuedSetSmall(s.queue.entries);
      NoRepeatFits(longer, QueuedSet(s.queue.entries));
      path := WalkGetsStuck(s, t, longer);
    }
  }

  lemma NotTakeable(s: State, t: ThreadId, id: JobId)
    requires AtRest(s, t) && IsQueued(s.queue.entries, id)
    ensures !Takeable(s, id)
  {
    var index :| 0 <= index < |s.queue.entries| && s.queue.entries[index].job.id == id;
    TakeFindsIff(s, t);
  }

  lemma LongerPath(edges: Edges, walk: seq<JobId>, d: JobId)
    requires walk != [] && DependencyPath(edges, walk) && walk[|walk| - 1] in edges.deps && d in edges.deps[walk[|walk| - 1]]
    ensures DependencyPath(edges, walk + [d])
  {
  }

  /** A stuck job is queued, and nothing it waits for on that path is completed. */
  lemma StuckIsNotReady(s: State, path: seq<JobId>)
    requires Inv(s) && StuckPath(s, path)
    ensures IsQueued(s.queue.entries, path[0]) && path[0] in s.places && s.places[path[0]] == Queued
    ensures !s.edges.IsReady(path[0])
  {
    QueuedIsWaiting(s, path[0]);
    assert path[1] in s.edges.deps[path[0]];
    if s.edges.IsReady(path[0]) {
      CompletedIsKnown(s, path[1]);
      CompletedIsNotQueued(s, path[1]);
    }
  }

  lemma QueuedIsWaiting(s: State, id: JobId)
    requires Inv(s) && IsQueued(s.queue.entries, id)
    ensures id in s.places && s.places[id] == Queued
  {
    var index :| 0 <= index < |s.queue.entries| && s.queue.entries[index].job.id == id;
    QueuedIsAtRest(s, index);
  }

  lemma CompletedIsNotQueued(s: State, id: JobId)
    requires Inv(s) && id in s.edges.completed
    ensures !IsQueued(s.queue.entries, id)
  {
    assert ViewOf(s, id) == ExpectedView(WhereIs(s, id));
    assert ViewOf(s, id).completed && ViewOf(s, id).queued == IsQueued(s.queue.entries, id);
  }

  /** While nobody holds a job, a worker that looks gets one, to run or to sweep, exactly when some
      queued job is blocked or not stuck. */
  lemma TakeFindsUnlessStuck(s: State, t: ThreadId)
    requires Reachable(s) && t in s.threads && NobodyHolds(s)
    ensures FindsWork(s, t) <==> exists id :: IsQueued(s.queue.entries, id) && (s.edges.IsBlocked(id) || !IsStuck(s, id))
  {
    ReachableInv(s);
    TakeFindsIff(s, t);
    if FindsWork(s, t) {
      var i :| 0 <= i < |s.queue.entries| && Takeable(s, s.queue.entries[i].job.id);
      var id := s.queue.entries[i].job.id;
      assert IsQueued(s.queue.entries, id);
      if !s.edges.IsBlocked(id) && IsStuck(s, id) {
        var path :| StuckPath(s, path) && path[0] == id;
        StuckIsNotReady(s, path);
      }
    } else {
      forall id | IsQueued(s.queue.entries, id) ensures !s.edges.IsBlocked(id) && IsStuck(s, id) {
        var i :| 0 <= i < |s.queue.entries| && s.queue.entries[i].job.id == id;
        assert !Takeable(s, id);
        var path := WalkGetsStuck(s, t, [id]);
      }
    }
  }

  // ----- The final outcome, job by job -----

  /** At rest, a job has not ended if and only if its dependencies lead through the queue into a
      cycle or to an id nobody submitted. */
  lemma LeftBehindIff(s: State, t: ThreadId, id: JobId)
    requires Reachable(s) && AtRest(s, t) && id in s.places
    ensures !s.places[id].Ended? <==> IsStuck(s, id)
    ensures !s.places[id].Ended? <==> IsQueued(s.queue.entries, id)
  {
    ReachableInv(s);
    if IsQueued(s.queue.entries, id) {
      QueuedIsWaiting(s, id);
      var path := WalkGetsStuck(s, t, [id]);
    } else {
      SettledElsewhere(s, id);
    }
    if IsStuck(s, id) {
      var path :| StuckPath(s, path) && path[0] == id;
      StuckIsNotReady(s, path);
    }
  }

  ghost predicate AllTransitiveCompleted(s: State, id: JobId) {
    forall path :: |path| >= 2 && DependencyPath(s.edges, path) && path[0] == id ==>
      path[|path| - 1] in s.tracker && s.tracker[path[|path| - 1]] == Completed
  }

  lemma RanOutcome(s: State, id: JobId)
    requires Reachable(s) && s.starts[id] > 0
    ensures AllTransitiveCompleted(s, id)
  {
    forall path | |path| >= 2 && DependencyPath(s.edges, path) && path[0] == id
      ensures path[|path| - 1] in s.tracker && s.tracker[path[|path| - 1]] == Completed
    {
      TransitiveDependencySafety(s, path);
    }
  }

  /** A dead job is known, and did not end Completed. */
  lemma DeadView(s: State, d: JobId)
    requires Inv(s) && d in s.edges.dead
    ensures d in s.tracker && s.tracker[d] != Completed
  {
    var v := ViewOf(s, d);
    assert v == ExpectedView(WhereIs(s, d)) && v.dead;
    assert v.tracked == if d in s.tracker then Some(s.tracker[d]) else None;
  }

  lemma SweptOutcome(s: State, id: JobId)
    requires Inv(s) && id in s.places && s.places[id] == Ended(Swept)
    ensures !AllTransitiveCompleted(s, id)
  {
    Known(s, id);
    assert s.edges.IsBlocked(id);
    var i :| 0 <= i < |s.edges.deps[id]| && s.edges.deps[id][i] in s.edges.dead;
    var path := [id, s.edges.deps[id][i]];
    DeadView(s, path[1]);
    assert DependencyPath(s.edges, path) && path[0] == id && path[|path| - 1] == path[1];
  }

  /** The outcome of every job at rest, whatever its own dependencies and those of the others are: it
      is left behind exactly when it is stuck; otherwise it ended in a terminal state, and unless a
      caller cancelled it, it was run if and only if all its transitive dependencies ended Completed. */
  lemma FinalOutcome(s: State, t: ThreadId, id: JobId)
    requires Reachable(s) && AtRest(s, t) && id in s.places
    ensures s.places[id].Ended? <==> !IsStuck(s, id)
    ensures s.places[id].Ended? ==> id in s.tracker && s.tracker[id].IsTerminal()
    ensures s.places[id].Ended? && s.places[id].how != CancelledByCaller ==>
              (s.starts[id] == 1 <==> AllTransitiveCompleted(s, id))
    ensures IsStuck(s, id) ==> IsQueued(s.queue.entries, id) && s.starts[id] == 0
  {
    ReachableInv(s);
    LeftBehindIff(s, t, id);
    assert JobOk(s, id);
    if s.places[id].Ended? {
      EndedIsSettled(s, id);
      if s.places[id].how.Ran? { RanOutcome(s, id); }
      if s.places[id].how == Swept { SweptOutcome(s, id); }
    } else {
      var path :| StuckPath(s, path) && path[0] == id;
      AstrayNeverStarts(s, path);
    }
  }

  // ----- Pipelines in which nothing is stuck -----

  ghost predicate Acyclic(edges: Edges) {
    forall path :: |path| >= 2 && DependencyPath(edges, path) ==> path[0] != path[|path| - 1]
  }

  ghost predicate DependenciesSubmitted(s: State) {
    forall id :: id in s.edges.deps ==> forall i :: 0 <= i < |s.edges.deps[id]| ==> s.edges.deps[id][i] in s.places
  }

  lemma RepeatIsCycle(edges: Edges, path: seq<JobId>, i: nat, j: nat)
    requires DependencyPath(edges, path) && i < j < |path| && path[i] == path[j]
    ensures !Acyclic(edges)
  {
    var cycle := path[i..j + 1];
    forall k | 0 <= k < |cycle| - 1 ensures cycle[k] in edges.deps && cycle[k + 1] in edges.deps[cycle[k]] {
      assert path[i + k] in edges.deps && path[i + k + 1] in edges.deps[path[i + k]];
    }
    assert DependencyPath(edges, cycle) && cycle[0] == cycle[|cycle| - 1];
  }

  lemma SoundIsNotStuck(s: State, id: JobId)
    requires Inv(s) && Acyclic(s.edges) && DependenciesSubmitted(s)
    ensures !IsStuck(s, id)
  {
    if IsStuck(s, id) {
      var path :| StuckPath(s, path) && path[0] == id;
      var last := |path| - 1;
      assert path[last - 1 + 1] in s.edges.deps[path[last - 1]];
      var k :| 0 <= k < last && path[k] == path[last];
      RepeatIsCycle(s.edges, path, k, last);
    }
  }

  /** With submitted, acyclic dependencies nothing is left behind: a non-empty queue always has work
      for a worker while nobody holds a job, and at rest every job has ended. */
  lemma NothingLeftBehind(s: State, t: ThreadId)
    requires Reachable(s) && t in s.threads && NobodyHolds(s)
    requires Acyclic(s.edges) && DependenciesSubmitted(s)
    ensures s.queue.entries != [] <==> FindsWork(s, t)
    ensures !FindsWork(s, t) ==> forall id :: id in s.places ==> s.places[id].Ended?
  {
    ReachableInv(s);
    TakeFindsIff(s, t);
    if s.queue.entries != [] {
      var id := s.queue.entries[0].job.id;
      assert IsQueued(s.queue.entries, id);
      SoundIsNotStuck(s, id);
      TakeFindsUnlessStuck(s, t);
    }
    if !FindsWork(s, t) {
      forall id | id in s.places ensures s.places[id].Ended? {
        SettledElsewhere(s, id);
      }
    }
  }
}
