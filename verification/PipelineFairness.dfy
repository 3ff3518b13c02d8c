/** Every fair schedule of the pipeline reaches rest. */
module PipelineFairness {
  import opened Bytes
  import opened JobQueues
  import opened Schedulers
  import opened JobStates
  import opened Pipelines
  import opened PipelineInvariant
  import opened PipelineSafety
  import opened PipelineLiveness
  import opened PipelineRest
  import opened PipelineSchedules

  ghost predicate LeadsTo(s: State, step: Step, s': State) {
    Enabled(s, step.thread, step.choice) && s' == Next(s, step.thread, step.choice)
  }

  /** An endless run: `steps(n)` leads from `states(n)` to the next state. */
  ghost predicate Endless(states: nat -> State, steps: nat -> Step) {
    forall n: nat :: LeadsTo(states(n), steps(n), states(n + 1))
  }

  /** Nobody submits or stops; callers may still cancel. */
  ghost predicate LeftAlone(states: nat -> State, steps: nat -> Step) {
    forall n: nat :: !states(n).shutdown && !steps(n).choice.Submit?
  }

  /** Thread `u` takes a step at `m` or later. */
  ghost predicate StepsAfter(steps: nat -> Step, u: ThreadId, n: nat) {
    exists m: nat :: n <= m && steps(m).thread == u
  }

  ghost predicate LooksAfter(steps: nat -> Step, t: ThreadId, n: nat) {
    exists m: nat :: n <= m && steps(m) == Step(t, Choice.Work)
  }

  /** A thread in the middle of an operation goes on some time, and worker `t` never stops coming back
      to the head of its loop. */
  ghost predicate Fair(states: nat -> State, steps: nat -> Step, t: ThreadId) {
    && (forall n: nat, u :: u in states(n).threads && !states(n).threads[u].Idle? && !states(n).threads[u].Exited? ==>
          StepsAfter(steps, u, n))
    && forall n: nat :: LooksAfter(steps, t, n)
  }

  lemma {:induction false} ReachableAt(states: nat -> State, steps: nat -> Step, n: nat)
    requires Endless(states, steps) && Reachable(states(0))
    ensures Reachable(states(n))
  {
    if n == 0 {
    } else {
      ReachableAt(states, steps, n - 1);
      assert LeadsTo(states(n - 1), steps(n - 1), states(n - 1 + 1));
      ReachableNext(states(n - 1), steps(n - 1).thread, steps(n - 1).choice);
    }
  }

  // ----- What one step does -----

  lemma StepRests(s: State, step: Step, s': State)
    requires Reachable(s) && LeadsTo(s, step, s') && !step.choice.Submit?
    ensures s'.places == s.places || PipelineLiveness.Work(s'.places) < PipelineLiveness.Work(s.places)
  {
    ReachableInv(s);
    StepUsesWork(s, step.thread, step.choice);
  }

  lemma StepElsewhere(s: State, step: Step, s': State, u: ThreadId)
    requires LeadsTo(s, step, s') && u in s.threads && step.thread != u
    ensures u in s'.threads && s'.threads[u] == s.threads[u]
  {
    NextKeepsCounters(s, step.thread, step.choice, u);
  }

  lemma HolderSteps(s: State, step: Step, s': State)
    requires Reachable(s) && LeadsTo(s, step, s') && s.threads[step.thread].Holding?
    ensures PipelineLiveness.Work(s'.places) < PipelineLiveness.Work(s.places)
  {
    ReachableInv(s);
    HolderMoves(s, step.thread, step.choice.result);
  }

  lemma LookSteps(s: State, t: ThreadId, s': State)
    requires LeadsTo(s, Step(t, Choice.Work), s') && !s.shutdown
    ensures t in s'.threads && s'.threads[t] == Taking
  {
  }

  /** A look while nobody holds a job, after which nobody holds one, found nothing. */
  lemma TakeSteps(s: State, step: Step, s': State)
    requires LeadsTo(s, step, s') && s.threads[step.thread] == Taking && NobodyHolds(s) && NobodyHolds(s')
    ensures AtRest(s, step.thread)
  {
    assert s' == TakeRegion(s, step.thread, Blocked(s.queue.entries, s.edges));
  }

  // ----- Whole schedules -----

  ghost function WorkAt(states: nat -> State, n: nat): nat { PipelineLiveness.Work(states(n).places) }

  /** From some moment on the work ahead falls no further. */
  lemma {:induction false} LeastWork(states: nat -> State, n: nat) returns (least: nat)
    ensures n <= least && forall m: nat :: least <= m ==> WorkAt(states, least) <= WorkAt(states, m)
    decreases WorkAt(states, n)
  {
    if m: nat :| n <= m && WorkAt(states, m) < WorkAt(states, n) {
      least := LeastWork(states, m);
    } else {
      least := n;
    }
  }

  /** After that no job moves. */
  lemma {:induction false} NothingMoves(states: nat -> State, steps: nat -> Step, n: nat, m: nat)
    requires Endless(states, steps) && LeftAlone(states, steps) && Reachable(states(0))
    requires n <= m && forall k: nat :: n <= k ==> WorkAt(states, n) <= WorkAt(states, k)
    ensures states(m).places == states(n).places
    decreases m
  {
    if m == n {
    } else {
      NothingMoves(states, steps, n, m - 1);
      ReachableAt(states, steps, m - 1);
      assert LeadsTo(states(m - 1), steps(m - 1), states(m - 1 + 1));
      StepRests(states(m - 1), steps(m - 1), states(m));
      assert WorkAt(states, n) <= WorkAt(states, m);
    }
  }

  /** The next step of a thread, until which it stands still. */
  lemma {:induction false} NextStepOf(states: nat -> State, steps: nat -> Step, u: ThreadId, n: nat, m: nat) returns (k: nat)
    requires Endless(states, steps) && n <= m && steps(m).thread == u && u in states(n).threads
    ensures n <= k <= m && steps(k).thread == u
    ensures u in states(k).threads && states(k).threads[u] == states(n).threads[u]
    decreases m - n
  {
    if steps(n).thread == u {
      k := n;
    } else {
      assert LeadsTo(states(n), steps(n), states(n + 1));
      StepElsewhere(states(n), steps(n), states(n + 1), u);
      k := NextStepOf(states, steps, u, n + 1, m);
    }
  }

  /** A thread that holds a job later uses up work. */
  lemma HolderUsesWork(states: nat -> State, steps: nat -> Step, t: ThreadId, n: nat, m: nat, u: ThreadId) returns (k: nat)
    requires Endless(states, steps) && LeftAlone(states, steps) && Fair(states, steps, t) && Reachable(states(0))
    requires n <= m && forall k: nat :: n <= k ==> WorkAt(states, n) <= WorkAt(states, k)
    requires u in states(m).threads && states(m).threads[u].Holding?
    ensures n <= k && WorkAt(states, k + 1) < WorkAt(states, n)
  {
    assert StepsAfter(steps, u, m);
    var later: nat :| m <= later && steps(later).thread == u;
    k := NextStepOf(states, steps, u, m, later);
    ReachableAt(states, steps, k);
    assert LeadsTo(states(k), steps(k), states(k + 1));
    HolderSteps(states(k), steps(k), states(k + 1));
    NothingMoves(states, steps, n, k);
  }

  /** While no job moves nobody holds one: its holder would go on some time. */
  lemma NobodyHoldsAt(states: nat -> State, steps: nat -> Step, t: ThreadId, n: nat, m: nat)
    requires Endless(states, steps) && LeftAlone(states, steps) && Fair(states, steps, t) && Reachable(states(0))
    requires n <= m && forall k: nat :: n <= k ==> WorkAt(states, n) <= WorkAt(states, k)
    ensures NobodyHolds(states(m))
  {
    if u :| u in states(m).threads && states(m).threads[u].Holding? {
      var k := HolderUsesWork(states, steps, t, n, m, u);
    }
  }

  /** Whatever the order in which threads run, whatever jobs end with and whatever is cancelled: if
      every thread in the middle of an operation goes on some time and one worker keeps looking, the
      pipeline reaches rest and no job moves any more; what is left behind is exactly what is stuck. */
  lemma FairReachesRest(states: nat -> State, steps: nat -> Step, t: ThreadId) returns (rest: nat)
    requires Endless(states, steps) && LeftAlone(states, steps) && Fair(states, steps, t) && Reachable(states(0))
    ensures AtRest(states(rest), t)
    ensures forall m: nat :: rest <= m ==> states(m).places == states(rest).places
    ensures forall id :: id in states(rest).places ==> (states(rest).places[id].Ended? <==> !IsStuck(states(rest), id))
  {
    var least := LeastWork(states, 0);
    rest := RestAfter(states, steps, t, least);
    ReachableAt(states, steps, rest);
    forall m: nat | rest <= m ensures states(m).places == states(rest).places {
      NothingMoves(states, steps, least, m);
      NothingMoves(states, steps, least, rest);
    }
    forall id | id in states(rest).places ensures states(rest).places[id].Ended? <==> !IsStuck(states(rest), id) {
      FinalOutcome(states(rest), t, id);
    }
  }

  lemma RestAfter(states: nat -> State, steps: nat -> Step, t: ThreadId, least: nat) returns (rest: nat)
    requires Endless(states, steps) && LeftAlone(states, steps) && Fair(states, steps, t) && Reachable(states(0))
    requires forall k: nat :: least <= k ==> WorkAt(states, least) <= WorkAt(states, k)
    ensures least <= rest && AtRest(states(rest), t)
  {
    assert LooksAfter(steps, t, least);
    var look: nat :| least <= look && steps(look) == Step(t, Choice.Work);
    assert LeadsTo(states(look), steps(look), states(look + 1)) && !states(look).shutdown;
    LookSteps(states(look), t, states(look + 1));
    assert StepsAfter(steps, t, look + 1);
    var later: nat :| look + 1 <= later && steps(later).thread == t;
    rest := NextStepOf(states, steps, t, look + 1, later);
    NobodyHoldsAt(states, steps, t, least, rest);
    NobodyHoldsAt(states, steps, t, least, rest + 1);
    assert LeadsTo(states(rest), steps(rest), states(rest + 1));
    TakeSteps(states(rest), steps(rest), states(rest + 1));
  }
}
