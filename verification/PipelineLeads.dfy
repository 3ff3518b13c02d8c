/** Whole stretches of a run: one state leads to another by some schedule. What a thread knows of a
    state it saw stays true over such a stretch. */
module PipelineLeads {
  import opened Bytes
  import opened JobQueues
  import opened Schedulers
  import opened JobStates
  import opened Pipelines
  import opened PipelineInvariant
  import opened PipelineSafety

  /** Some schedule takes `s` to `s'`. */
  ghost predicate Leads(s: State, s': State) {
    exists steps: seq<Step> :: CanRun(s, steps) && Run(s, steps) == s'
  }

  /** Some schedule of threads other than `t` takes `s` to `s'`. */
  ghost predicate OthersLead(s: State, s': State, t: ThreadId) {
    exists steps: seq<Step> :: CanRun(s, steps) && Run(s, steps) == s' && forall i :: 0 <= i < |steps| ==> steps[i].thread != t
  }

  lemma LeadsReflexive(s: State, t: ThreadId)
    ensures Leads(s, s) && OthersLead(s, s, t)
  {
    var none: seq<Step> := [];
    assert CanRun(s, none) && Run(s, none) == s;
  }

  lemma LeadsTransitive(a: State, b: State, c: State)
    requires Leads(a, b) && Leads(b, c)
    ensures Leads(a, c)
  {
    var first :| CanRun(a, first) && Run(a, first) == b;
    var second :| CanRun(b, second) && Run(b, second) == c;
    RunExtends(a, first, second);
  }

  lemma LeadsInv(a: State, b: State)
    requires Inv(a) && Leads(a, b)
    ensures Inv(b)
  {
    var steps: seq<Step> :| CanRun(a, steps) && Run(a, steps) == b;
    RunKeepsInv(a, steps);
  }

  /** At some moment between the two states the shutdown flag was set and the queue empty. */
  ghost predicate DrainedBetween(a: State, b: State) {
    exists mid :: Leads(a, mid) && mid.shutdown && mid.queue.entries == [] && Leads(mid, b)
  }

  lemma DrainedAt(a: State, mid: State, b: State)
    requires Leads(a, mid) && mid.shutdown && mid.queue.entries == [] && Leads(mid, b)
    ensures DrainedBetween(a, b) && Leads(a, b)
  {
    LeadsTransitive(a, mid, b);
  }

  lemma StepLeads(a: State, b: State, t: ThreadId, c: Choice)
    requires Leads(a, b) && Enabled(b, t, c)
    ensures Leads(a, Next(b, t, c))
  {
    var one := [Step(t, c)];
    var none: seq<Step> := one[1..];
    assert none == [] && CanRun(Next(b, t, c), none) && Run(Next(b, t, c), none) == Next(b, t, c);
    assert CanRun(b, one) && Run(b, one) == Run(Next(b, t, c), none);
    LeadsTransitive(a, b, Next(b, t, c));
  }

  /** Other threads cannot move `t`. */
  lemma {:induction false} OthersRun(s: State, steps: seq<Step>, t: ThreadId)
    requires CanRun(s, steps) && t in s.threads
    requires forall i :: 0 <= i < |steps| ==> steps[i].thread != t
    ensures t in Run(s, steps).threads && Run(s, steps).threads[t] == s.threads[t]
    decreases |steps|
  {
    if steps == [] {
    } else {
      NextKeepsCounters(s, steps[0].thread, steps[0].choice, t);
      OthersRun(Next(s, steps[0].thread, steps[0].choice), steps[1..], t);
    }
  }

  lemma Interfered(a: State, s: State, s': State, t: ThreadId)
    requires Leads(a, s) && OthersLead(s, s', t) && t in s.threads
    ensures Leads(a, s') && t in s'.threads && s'.threads[t] == s.threads[t]
  {
    var steps: seq<Step> :| CanRun(s, steps) && Run(s, steps) == s' && forall i :: 0 <= i < |steps| ==> steps[i].thread != t;
    OthersRun(s, steps, t);
    LeadsTransitive(a, s, s');
  }

  lemma TakeKeepsThread(s: State, t: ThreadId, todo: seq<JobId>)
    requires t in s.threads
    ensures t in TakeRegion(s, t, todo).threads
  {
    if FirstQueued(s.queue.entries, todo) < |todo| {
    } else if s.shutdown && s.queue.entries == [] {
    } else if FirstIndex(s.queue.entries, s.edges.ReadyTest()) < |s.queue.entries| {
    } else {
    }
  }

  lemma NextKeepsThread(s: State, t: ThreadId, c: Choice)
    requires Enabled(s, t, c)
    ensures t in Next(s, t, c).threads
  {
    if c.Go? {
      match s.threads[t]
      case Taking => TakeKeepsThread(s, t, Blocked(s.queue.entries, s.edges));
      case Sweeping(rest) => TakeKeepsThread(s, t, rest);
      case Holding(job, phase) =>
      case _ =>
    }
  }

  // ----- What stays true -----

  lemma LeadsGrow(a: State, b: State)
    requires Inv(a) && Leads(a, b)
    ensures EdgesGrow(a.edges, b.edges)
  {
    var steps: seq<Step> :| CanRun(a, steps) && Run(a, steps) == b;
    RunGrows(a, steps);
  }

  lemma {:induction false} ShutdownStays(s: State, steps: seq<Step>)
    requires CanRun(s, steps) && s.shutdown
    ensures Run(s, steps).shutdown
    decreases |steps|
  {
    if steps == [] {
    } else {
      NextKeepsAttachment(s, steps[0].thread, steps[0].choice);
      ShutdownStays(Next(s, steps[0].thread, steps[0].choice), steps[1..]);
    }
  }

  lemma LeadsShutdown(a: State, b: State)
    requires Leads(a, b) && a.shutdown
    ensures b.shutdown
  {
    var steps: seq<Step> :| CanRun(a, steps) && Run(a, steps) == b;
    ShutdownStays(a, steps);
  }

  ghost predicate EndedAs(s: State, id: JobId, how: How) {
    id in s.places && s.places[id] == Ended(how)
  }

  lemma {:induction false} EndStays(s: State, steps: seq<Step>, id: JobId, how: How)
    requires Inv(s) && CanRun(s, steps) && EndedAs(s, id, how)
    ensures EndedAs(Run(s, steps), id, how)
    decreases |steps|
  {
    if steps == [] {
    } else {
      var t, c := steps[0].thread, steps[0].choice;
      var x := NextMoves(s, t, c);
      NextKeepsInv(s, t, c);
      EndStays(Next(s, t, c), steps[1..], id, how);
    }
  }

  lemma LeadsEnd(a: State, b: State, id: JobId, how: How)
    requires Inv(a) && Leads(a, b) && EndedAs(a, id, how)
    ensures EndedAs(b, id, how)
  {
    var steps: seq<Step> :| CanRun(a, steps) && Run(a, steps) == b;
    EndStays(a, steps, id, how);
  }

  /** The submission of the job has put it into the queue. */
  ghost predicate Enlisted(s: State, id: JobId) {
    id in s.places && !BeingSubmitted(s.places[id])
  }

  /** The job was in the queue once and is no more. */
  ghost predicate LeftQueue(s: State, id: JobId) {
    Enlisted(s, id) && s.places[id] != Queued
  }

  lemma EdgeLeaves(p: Place, p': Place, t: ThreadId)
    requires PlaceEdge(Some(p), p', t) && !BeingSubmitted(p)
    ensures !BeingSubmitted(p') && p' != Queued
  {
  }

  lemma {:induction false} StaysEnlisted(s: State, steps: seq<Step>, id: JobId)
    requires Inv(s) && CanRun(s, steps) && Enlisted(s, id)
    ensures Enlisted(Run(s, steps), id)
    decreases |steps|
  {
    if steps == [] {
    } else {
      var t, c := steps[0].thread, steps[0].choice;
      var x := NextMoves(s, t, c);
      NextKeepsInv(s, t, c);
      var s' := Next(s, t, c);
      if s'.places != s.places && x == id { EdgeLeaves(s.places[id], s'.places[id], t); }
      StaysEnlisted(s', steps[1..], id);
    }
  }

  lemma LeadsEnlisted(a: State, b: State, id: JobId)
    requires Inv(a) && Leads(a, b) && Enlisted(a, id)
    ensures Enlisted(b, id)
  {
    var steps: seq<Step> :| CanRun(a, steps) && Run(a, steps) == b;
    StaysEnlisted(a, steps, id);
  }

  lemma {:induction false} NeverQueuedAgain(s: State, steps: seq<Step>, id: JobId)
    requires Inv(s) && CanRun(s, steps) && LeftQueue(s, id)
    ensures LeftQueue(Run(s, steps), id)
    decreases |steps|
  {
    if steps == [] {
    } else {
      var t, c := steps[0].thread, steps[0].choice;
      var x := NextMoves(s, t, c);
      NextKeepsInv(s, t, c);
      var s' := Next(s, t, c);
      if s'.places != s.places && x == id { EdgeLeaves(s.places[id], s'.places[id], t); }
      NeverQueuedAgain(s', steps[1..], id);
    }
  }

  lemma LeadsLeft(a: State, b: State, id: JobId)
    requires Inv(a) && Leads(a, b) && LeftQueue(a, id)
    ensures LeftQueue(b, id) && !IsQueued(b.queue.entries, id)
  {
    var steps: seq<Step> :| CanRun(a, steps) && Run(a, steps) == b;
    NeverQueuedAgain(a, steps, id);
    LeadsInv(a, b);
    LeftIsNotQueued(b, id);
  }

  lemma LeftIsNotQueued(s: State, id: JobId)
    requires Inv(s) && LeftQueue(s, id)
    ensures !IsQueued(s.queue.entries, id)
  {
    Known(s, id);
    assert ViewOf(s, id).queued == IsQueued(s.queue.entries, id);
  }

  /** What everybody sees of a job: the tracker shows `state`, and so does the record if there is a
      database. */
  ghost predicate Shows(s: State, id: JobId, state: JobState) {
    id in s.tracker && s.tracker[id] == state && (s.attached ==> id in s.records && s.records[id] == state)
  }

  lemma QueuedShows(s: State, id: JobId)
    requires Inv(s) && id in s.places && s.places[id] == Queued
    ensures Shows(s, id, Pending)
  {
    Known(s, id);
    assert ViewOf(s, id).tracked == if id in s.tracker then Some(s.tracker[id]) else None;
  }

  lemma EndShows(s: State, id: JobId, how: How)
    requires Inv(s) && EndedAs(s, id, how)
    ensures how == Ran(Success) ==> Shows(s, id, Completed)
    ensures how == Ran(OtherError) || how == Ran(Panic) ==> Shows(s, id, Failed)
    ensures how == Ran(CancelledError) || !how.Ran? ==> Shows(s, id, Cancelled)
  {
    Known(s, id);
    assert ViewOf(s, id).tracked == if id in s.tracker then Some(s.tracker[id]) else None;
  }

  // ----- A look for work -----

  datatype Take = Found(job: Job) | Empty | Shutdown

  /** Where a worker stands after `try_take`. */
  ghost function CounterOf(take: Take): ProgramCounter {
    match take
    case Found(job) => Holding(job, Starting)
    case Empty => Resting
    case Shutdown => Exited
  }

  /** Thread `t` went on in `s`, and `s'` lies behind that region. */
  ghost predicate WentOn(s: State, t: ThreadId, s': State) {
    Enabled(s, t, Go(Success)) && Leads(Next(s, t, Go(Success)), s')
  }

  /** What the last region of a `try_take` found in `s`. */
  ghost predicate Finds(s: State, t: ThreadId, take: Take) {
    && Enabled(s, t, Go(Success))
    && t in Next(s, t, Go(Success)).threads && Next(s, t, Go(Success)).threads[t] == CounterOf(take)
    && FindsIn(s.queue.entries, s.edges, s.shutdown, take)
  }

  /** A ready job that was queued; none is ready; or nothing queued after a shutdown. */
  ghost predicate FindsIn(entries: seq<Entry>, edges: Edges, shutdown: bool, take: Take) {
    match take
    case Found(job) => (exists i :: 0 <= i < |entries| && entries[i].job == job) && edges.IsReady(job.id)
    case Empty => forall i :: 0 <= i < |entries| ==> !edges.IsReady(entries[i].job.id)
    case Shutdown => shutdown && entries == []
  }

  /** A `try_take`: `seen` is the state at its first region, `last` the one at its last. */
  datatype Look = Look(seen: State, last: State, take: Take)

  lemma {:induction false} BlockedAreQueued(entries: seq<Entry>, edges: Edges)
    ensures forall i :: 0 <= i < |Blocked(entries, edges)| ==> IsQueued(entries, Blocked(entries, edges)[i])
  {
    if entries == [] {
    } else {
      BlockedAreQueued(entries[1..], edges);
      forall i | 0 <= i < |Blocked(entries, edges)| ensures IsQueued(entries, Blocked(entries, edges)[i]) {
        var first := if edges.IsBlocked(entries[0].job.id) then 1 else 0;
        var id := Blocked(entries, edges)[i];
        if i < first {
          assert entries[0].job.id == id;
        } else {
          assert id == Blocked(entries[1..], edges)[i - first];
          var k :| 0 <= k < |entries[1..]| && entries[1..][k].job.id == id;
          assert entries[k + 1].job.id == id;
        }
      }
    }
  }

  ghost predicate AllLeft(s: State, ids: seq<JobId>) {
    forall i :: 0 <= i < |ids| ==> LeftQueue(s, ids[i])
  }

  lemma AllLeftStay(a: State, b: State, ids: seq<JobId>)
    requires Inv(a) && Leads(a, b) && AllLeft(a, ids)
    ensures AllLeft(b, ids)
  {
    forall i | 0 <= i < |ids| ensures LeftQueue(b, ids[i]) {
      LeadsLeft(a, b, ids[i]);
    }
  }

  /** Between `s` and `s'` thread `t` looked for work once: every job that was queued and blocked at
      the beginning left the queue, and then it found what `look` says. */
  ghost predicate Looked(look: Look, t: ThreadId, s: State, s': State) {
    && Leads(s, look.seen) && t in look.seen.threads && look.seen.threads[t] == Taking
    && WentOn(look.seen, t, s')
    && Leads(look.seen, look.last) && AllLeft(look.last, Blocked(look.seen.queue.entries, look.seen.edges))
    && Finds(look.last, t, look.take) && WentOn(look.last, t, s')
  }

  lemma WentOnLeads(s: State, t: ThreadId, s': State)
    requires WentOn(s, t, s')
    ensures Leads(s, s')
  {
    LeadsReflexive(s, t);
    StepLeads(s, s, t, Go(Success));
    LeadsTransitive(s, Next(s, t, Go(Success)), s');
  }

  lemma WentOnFurther(s: State, t: ThreadId, a: State, b: State)
    requires WentOn(s, t, a) && Leads(a, b)
    ensures WentOn(s, t, b)
  {
    LeadsTransitive(Next(s, t, Go(Success)), a, b);
  }

  lemma LookedFurther(look: Look, t: ThreadId, s: State, a: State, b: State)
    requires Looked(look, t, s, a) && Leads(a, b)
    ensures Looked(look, t, s, b)
  {
    WentOnFurther(look.seen, t, a, b);
    WentOnFurther(look.last, t, a, b);
  }

  lemma LookedSooner(look: Look, t: ThreadId, r: State, s: State, s': State)
    requires Leads(r, s) && Looked(look, t, s, s')
    ensures Looked(look, t, r, s') && Leads(r, look.last) && Leads(look.last, s') && Leads(r, s')
  {
    LeadsTransitive(r, s, look.seen);
    LeadsTransitive(r, look.seen, look.last);
    WentOnLeads(look.last, t, s');
    LeadsTransitive(r, look.last, s');
  }

  /** Where the look after look `i` begins, or `s` if there is none. */
  ghost function Following(looks: seq<Look>, i: nat, s: State): State {
    if i + 1 < |looks| then looks[i + 1].seen else s
  }

  /** Looks of thread `t` since `start`, each over before the next one begins. */
  ghost predicate Chained(looks: seq<Look>, t: ThreadId, start: State, s: State) {
    forall i :: 0 <= i < |looks| ==> Looked(looks[i], t, start, Following(looks, i, s))
  }

  lemma ChainGoesOn(looks: seq<Look>, t: ThreadId, start: State, s: State, look: Look, s': State)
    requires Leads(start, s) && Chained(looks, t, start, s) && Looked(look, t, s, s')
    ensures Chained(looks + [look], t, start, s')
  {
    var longer := looks + [look];
    LookedSooner(look, t, start, s, s');
    forall i | 0 <= i < |longer| ensures Looked(longer[i], t, start, Following(longer, i, s')) {
      if i < |looks| { assert Looked(looks[i], t, start, Following(looks, i, s)); }
      if i == |looks| - 1 { LookedFurther(looks[i], t, start, s, look.seen); }
    }
  }

  lemma ChainLasts(looks: seq<Look>, t: ThreadId, start: State, s: State, s': State)
    requires Chained(looks, t, start, s) && Leads(s, s')
    ensures Chained(looks, t, start, s')
  {
    forall i | 0 <= i < |looks| ensures Looked(looks[i], t, start, Following(looks, i, s')) {
      assert Looked(looks[i], t, start, Following(looks, i, s));
      if i == |looks| - 1 { LookedFurther(looks[i], t, start, s, s'); }
    }
  }
}
