/** The progress registry of pipeline jobs and its blocking waits. */
module ProgressTrackers {
  import opened Bytes
  import opened JobQueues
  import opened JobStates

  datatype JobProgress = JobProgress(state: JobState, fraction: real, message: Option<string>, updatedMs: u64)

  function Clamp(fraction: real): real {
    if fraction < 0.0 then 0.0 else if fraction > 1.0 then 1.0 else fraction
  }

  /** The states a registry shows. */
  function States(jobs: map<JobId, JobProgress>): map<JobId, JobState> {
    map id | id in jobs :: jobs[id].state
  }

  class ProgressTracker {
    var jobs: map<JobId, JobProgress>

    constructor ()
      ensures jobs == map[]
    {
      jobs := map[];
    }

    method Register(id: JobId, now: u64)
      modifies this
      ensures jobs == old(jobs)[id := JobProgress(Pending, 0.0, None, now)]
      ensures States(jobs) == States(old(jobs))[id := Pending]
    {
      jobs := jobs[id := JobProgress(Pending, 0.0, None, now)];
    }

    /** Leaves every state alone; unknown jobs are ignored. */
    method UpdateFraction(id: JobId, fraction: real, message: Option<string>, now: u64)
      modifies this
      ensures jobs.Keys == old(jobs).Keys && States(jobs) == States(old(jobs))
      ensures id in jobs ==> jobs[id] == JobProgress(old(jobs)[id].state, jobs[id].fraction, message, now)
      ensures id in jobs ==> 0.0 <= jobs[id].fraction <= 1.0
      ensures id in jobs && 0.0 <= fraction <= 1.0 ==> jobs[id].fraction == fraction
      ensures id in jobs && fraction < 0.0 ==> jobs[id].fraction == 0.0
      ensures id in jobs && fraction > 1.0 ==> jobs[id].fraction == 1.0
      ensures forall other :: other in jobs && other != id ==> jobs[other] == old(jobs)[other]
    {
      if id in jobs {
        jobs := jobs[id := jobs[id].(fraction := Clamp(fraction), message := message, updatedMs := now)];
      }
    }

    /** Completion saturates the fraction; unknown jobs are ignored. */
    method UpdateState(id: JobId, state: JobState, now: u64)
      modifies this
      ensures jobs.Keys == old(jobs).Keys
      ensures id in jobs ==>
                States(jobs) == States(old(jobs))[id := state] && jobs[id].message == old(jobs)[id].message && jobs[id].updatedMs == now
                && jobs[id].fraction == if state == Completed then 1.0 else old(jobs)[id].fraction
      ensures id !in jobs ==> jobs == old(jobs)
      ensures forall other :: other in jobs && other != id ==> jobs[other] == old(jobs)[other]
    {
      if id in jobs {
        var fraction := if state == Completed then 1.0 else jobs[id].fraction;
        jobs := jobs[id := jobs[id].(state := state, fraction := fraction, updatedMs := now)];
      }
    }

    method Snapshot(id: JobId) returns (progress: Option<JobProgress>)
      ensures progress == if id in jobs then Some(jobs[id]) else None
    {
      progress := if id in jobs then Some(jobs[id]) else None;
    }
  }

  datatype WaitOutcome = Finished(progress: JobProgress) | Unknown | StillAsleep

  /** `wait_for`: `views[k]` is the registry this waiter sees when it holds the lock for the k-th
      time. It returns the first terminal snapshot, and only a terminal one. */
  method WaitFor(id: JobId, views: seq<map<JobId, JobProgress>>) returns (outcome: WaitOutcome)
    ensures outcome.Finished? <==> exists k :: 0 <= k < |views| && SeesTerminal(views, id, k)
    ensures outcome.Finished? ==> exists k :: 0 <= k < |views| && SeesTerminal(views, id, k) && outcome.progress == views[k][id]
    ensures outcome.Unknown? <==> exists k :: 0 <= k < |views| && Sleeps(views[..k], id) && id !in views[k]
    ensures outcome.StillAsleep? <==> Sleeps(views, id)
  {
    for k := 0 to |views|
      invariant Sleeps(views[..k], id)
    {
      assert forall j :: 0 <= j < k ==> views[..k][j] == views[j];
      if id !in views[k] {
        return Unknown;
      }
      if views[k][id].state.IsTerminal() {
        assert SeesTerminal(views, id, k);
        return Finished(views[k][id]);
      }
      assert views[..k + 1] == views[..k] + [views[k]];
    }
    assert views[..|views|] == views;
    outcome := StillAsleep;
  }

  ghost predicate Sleeps(views: seq<map<JobId, JobProgress>>, id: JobId) {
    forall j :: 0 <= j < |views| ==> id in views[j] && !views[j][id].state.IsTerminal()
  }

  /** The k-th look is the first to end the wait, with a terminal snapshot. */
  ghost predicate SeesTerminal(views: seq<map<JobId, JobProgress>>, id: JobId, k: nat)
    requires k < |views|
  {
    Sleeps(views[..k], id) && id in views[k] && views[k][id].state.IsTerminal()
  }
}

/** The condition-variable protocol of the registry: an update releases the lock before it
    notifies, and a waiter releases the lock as it falls asleep. */
module Wakeups {
  import opened Bytes
  import opened JobQueues
  import opened JobStates

  type ThreadId = nat

  datatype Goal = One(id: JobId) | All

  datatype Activity =
    | Outside
    | OwesNotify                        // updated the registry, has not called notify_all yet
    | Asleep(goal: Goal)
    | Awake(goal: Goal)                 // notified, timed out or woken spuriously; must retake the lock
    | Returned(goal: Goal, seen: map<JobId, JobState>)
    | Missing(id: JobId)
    | TimedOut

  datatype State = State(jobs: map<JobId, JobState>, threads: map<ThreadId, Activity>) {
    function Goto(t: ThreadId, a: Activity): State { this.(threads := threads[t := a]) }
  }

  predicate Met(jobs: map<JobId, JobState>, goal: Goal) {
    match goal
    case One(id) => id in jobs && jobs[id].IsTerminal()
    case All => forall id :: id in jobs ==> jobs[id].IsTerminal()
  }

  /** One pass of the wait loop under the lock. */
  function Look(s: State, t: ThreadId, goal: Goal, expired: bool): State {
    if Met(s.jobs, goal) then s.Goto(t, Returned(goal, s.jobs))
    else if goal.One? && goal.id !in s.jobs then s.Goto(t, Missing(goal.id))
    else if goal.All? && expired then s.Goto(t, TimedOut)
    else s.Goto(t, Asleep(goal))
  }

  function WakeAll(threads: map<ThreadId, Activity>): map<ThreadId, Activity> {
    map t | t in threads :: if threads[t].Asleep? then Awake(threads[t].goal) else threads[t]
  }

  datatype Choice =
    | Register(id: JobId)
    | Update(id: JobId, state: JobState)   // update_state
    | Report(id: JobId)                    // update_fraction
    | Notify
    | Wait(goal: Goal, expired: bool)
    | Wake                                 // timeout or spurious wakeup
    | Resume(expired: bool)

  predicate Enabled(s: State, t: ThreadId, c: Choice) {
    t in s.threads &&
    match c
    case Notify => s.threads[t].OwesNotify?
    case Wake => s.threads[t].Asleep?
    case Resume(_) => s.threads[t].Awake?
    case _ => s.threads[t].Outside?
  }

  function Next(s: State, t: ThreadId, c: Choice): State
    requires Enabled(s, t, c)
  {
    match c
    case Register(id) => s.(jobs := s.jobs[id := Pending])
    case Update(id, state) => s.(jobs := if id in s.jobs then s.jobs[id := state] else s.jobs).Goto(t, OwesNotify)
    case Report(_) => s.Goto(t, OwesNotify)
    case Notify => s.(threads := WakeAll(s.threads[t := Outside]))
    case Wait(goal, expired) => Look(s, t, goal, expired)
    case Wake => s.Goto(t, Awake(s.threads[t].goal))
    case Resume(expired) => Look(s, t, s.threads[t].goal, expired)
  }

  /** One thread made one step. */
  ghost predicate Follows(a: State, b: State) {
    exists t, c :: Enabled(a, t, c) && b == Next(a, t, c)
  }

  /** The states of one interleaving. */
  ghost predicate Interleaving(states: seq<State>) {
    states != [] && forall i :: 0 <= i < |states| - 1 ==> Follows(states[i], states[i + 1])
  }

  ghost predicate SomeoneOwes(s: State) {
    exists t :: t in s.threads && s.threads[t].OwesNotify?
  }

  ghost predicate Inv(s: State) {
    forall t :: t in s.threads ==>
      match s.threads[t]
      case Asleep(goal) => Met(s.jobs, goal) ==> SomeoneOwes(s)
      case Returned(goal, seen) => Met(seen, goal)
      case _ => true
  }

  lemma NextKeepsInv(s: State, t: ThreadId, c: Choice)
    requires Inv(s) && Enabled(s, t, c)
    ensures Inv(Next(s, t, c))
  {
    var s' := Next(s, t, c);
    if c.Update? || c.Report? {
      assert s'.threads[t].OwesNotify?;
    } else if !c.Notify? {
      forall u | u in s'.threads && s'.threads[u].Asleep? && Met(s'.jobs, s'.threads[u].goal)
        ensures SomeoneOwes(s')
      {
        if c.Register? {
          assert c.id in s'.jobs && !s'.jobs[c.id].IsTerminal();
          assert Met(s.jobs, s.threads[u].goal);
        }
        assert SomeoneOwes(s);
        var w :| w in s.threads && s.threads[w].OwesNotify?;
        assert w != t && s'.threads[w].OwesNotify?;
      }
    }
  }

  lemma {:induction false} InterleavingKeepsInv(states: seq<State>)
    requires Interleaving(states) && Inv(states[0])
    ensures Inv(states[|states| - 1])
  {
    var n := |states| - 1;
    if n == 0 {
    } else {
      InterleavingKeepsInv(states[..n]);
      assert Follows(states[n - 1], states[n - 1 + 1]);
      var t, c :| Enabled(states[n - 1], t, c) && states[n] == Next(states[n - 1], t, c);
      NextKeepsInv(states[n - 1], t, c);
    }
  }

  /** The job waited for, or every job, is Completed, Failed or Cancelled. */
  ghost predicate AllOver(seen: map<JobId, JobState>, goal: Goal) {
    && (goal.One? ==> goal.id in seen && (seen[goal.id] == Completed || seen[goal.id] == Failed || seen[goal.id] == Cancelled))
    && (goal.All? ==> forall id :: id in seen ==> seen[id] != Pending && seen[id] != Running)
  }

  /** No lost wakeup: start with nobody waiting and run any interleaving. A sleeper whose condition
      holds implies some thread still owes a notify; and every wait that returned saw its
      condition hold, so `wait_for` only ever returns a terminal snapshot. */
  lemma NoLostWakeup(states: seq<State>, t: ThreadId)
    requires Interleaving(states) && forall u :: u in states[0].threads ==> states[0].threads[u] == Outside
    requires t in states[|states| - 1].threads
    ensures var s := states[|states| - 1];
            && (s.threads[t].Asleep? && Met(s.jobs, s.threads[t].goal) ==> SomeoneOwes(s))
            && (s.threads[t].Returned? ==> Met(s.threads[t].seen, s.threads[t].goal) && AllOver(s.threads[t].seen, s.threads[t].goal))
  {
    InterleavingKeepsInv(states);
  }

  /** The notify that is owed is enough: it wakes the sleeper, and the look that follows returns. */
  lemma OwedNotifyServes(s: State, owing: ThreadId, t: ThreadId, expired: bool)
    requires Enabled(s, owing, Notify) && t in s.threads && s.threads[t].Asleep? && Met(s.jobs, s.threads[t].goal)
    ensures var woken := Next(s, owing, Notify);
            Enabled(woken, t, Resume(expired))
            && Next(woken, t, Resume(expired)).threads[t] == Returned(s.threads[t].goal, s.jobs)
  {
    assert t != owing;
  }
}
