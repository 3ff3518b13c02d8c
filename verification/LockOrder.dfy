/** Deadlock freedom: the lock scripts of all pipeline operations respect one order, so no reachable
    state has a cycle of threads waiting on each other. */
module LockOrder {

  type ThreadId = nat

  datatype Lock = QueueLock | SchedulerLock | DatabaseLock | SubmittedLock | RunningLock | TrackerLock {
    function Rank(): nat {
      match this
      case QueueLock => 0
      case SchedulerLock => 1
      case DatabaseLock => 2
      case SubmittedLock => 3
      case RunningLock => 4
      case TrackerLock => 5
    }
  }

  datatype Action = Acquire(lock: Lock) | Release(lock: Lock)

  type Script = seq<Action>

  function Region(lock: Lock): Script { [Acquire(lock), Release(lock)] }

  function Repeat(script: Script, times: nat): Script {
    if times == 0 then [] else script + Repeat(script, times - 1)
  }

  // ----- The operations, as sequences of lock actions -----

  /** How far one call of `persist` gets. */
  datatype PersistPath = NoDatabase | NoMetadata | Written

  function PersistScript(path: PersistPath): Script {
    match path
    case NoDatabase => Region(DatabaseLock)
    case NoMetadata => [Acquire(DatabaseLock)] + Region(SubmittedLock) + [Release(DatabaseLock)]
    case Written =>
      [Acquire(DatabaseLock), Acquire(SubmittedLock)] + Region(TrackerLock)
      + [Release(SubmittedLock), Release(DatabaseLock)]
  }

  /** A persist holds the database from its first action to its last, so that reading a job and writing
      its record are not interleaved with another persist. */
  lemma PersistIsOneRegion(path: PersistPath)
    ensures var script := PersistScript(path); var last := |script| - 1;
            && last > 0 && script[0] == Acquire(DatabaseLock) && script[last] == Release(DatabaseLock)
            && forall i :: 0 < i < last ==> script[i].lock != DatabaseLock
  {
  }

  datatype Operation =
    | Submit(path: PersistPath)
    | CancelUnknown
    | CancelQueued(path: PersistPath)
    | CancelRunning
    | TryTake(sweeps: seq<PersistPath>)   // one entry per job the sweep cancels
    | RunJob(running: PersistPath, nested: seq<Operation>, final: PersistPath)  // `nested`: what `execute` calls
    | IdleWait                            // the worker wait, which gives the queue lock back meanwhile
    | Report                              // a progress callback, or any look at the tracker
    | WaitForJob(wakeups: nat)            // wait_for and wait_all, looking again after each wakeup
    | AttachDatabase
    | CountQueued

  function SweepScript(sweeps: seq<PersistPath>): Script {
    if sweeps == [] then []
    else
      Region(TrackerLock) + [Release(QueueLock), Release(SchedulerLock)] + PersistScript(sweeps[0])
      + [Acquire(QueueLock), Acquire(SchedulerLock)] + SweepScript(sweeps[1..])
  }

  function ScriptOf(op: Operation): Script
    decreases op, 0
  {
    match op
    case Submit(path) =>
      Region(SchedulerLock) + Region(TrackerLock) + Region(SubmittedLock) + PersistScript(path) + Region(QueueLock)
    case CancelUnknown => Region(TrackerLock)
    case CancelQueued(path) =>
      Region(TrackerLock) + Region(QueueLock) + Region(TrackerLock) + Region(SchedulerLock) + PersistScript(path)
    case CancelRunning => Region(TrackerLock) + Region(QueueLock) + Region(RunningLock)
    case TryTake(sweeps) =>
      [Acquire(QueueLock), Acquire(SchedulerLock)] + SweepScript(sweeps) + [Release(SchedulerLock), Release(QueueLock)]
    case RunJob(running, nested, final) =>
      Region(TrackerLock) + PersistScript(running) + Region(RunningLock) + ScriptsOf(nested)
      + Region(RunningLock) + Region(TrackerLock) + Region(SchedulerLock) + PersistScript(final)
    case IdleWait => Region(QueueLock) + Region(QueueLock)
    case Report => Region(TrackerLock)
    case WaitForJob(wakeups) => Region(TrackerLock) + Repeat(Region(TrackerLock), wakeups)
    case AttachDatabase => Region(DatabaseLock)
    case CountQueued => Region(QueueLock)
  }

  function ScriptsOf(ops: seq<Operation>): Script
    decreases ops, 1
  {
    if ops == [] then [] else ScriptOf(ops[0]) + ScriptsOf(ops[1..])
  }

  // ----- The order -----

  /** Run from the locks in `held`, the script acquires only locks above all it holds, releases only
      locks it holds, and ends holding none. */
  ghost predicate Disciplined(held: set<Lock>, script: Script)
    decreases |script|
  {
    if script == [] then held == {}
    else
      match script[0]
      case Acquire(l) => (forall h :: h in held ==> h.Rank() < l.Rank()) && Disciplined(held + {l}, script[1..])
      case Release(l) => l in held && Disciplined(held - {l}, script[1..])
  }

  /** What `script` leaves held, if it is disciplined up to there. */
  ghost predicate Leads(held: set<Lock>, script: Script, after: set<Lock>)
    decreases |script|
  {
    if script == [] then held == after
    else
      match script[0]
      case Acquire(l) => (forall h :: h in held ==> h.Rank() < l.Rank()) && Leads(held + {l}, script[1..], after)
      case Release(l) => l in held && Leads(held - {l}, script[1..], after)
  }

  lemma {:induction false} LeadsAppend(a: set<Lock>, first: Script, b: set<Lock>, second: Script, c: set<Lock>)
    requires Leads(a, first, b) && Leads(b, second, c)
    ensures Leads(a, first + second, c)
    decreases |first|
  {
    if first == [] {
      assert first + second == second;
    } else {
      var all := first + second;
      assert all[0] == first[0] && all[1..] == first[1..] + second;
      match first[0]
      case Acquire(l) => LeadsAppend(a + {l}, first[1..], b, second, c);
      case Release(l) => LeadsAppend(a - {l}, first[1..], b, second, c);
    }
  }

  lemma {:induction false} LeadsDisciplined(held: set<Lock>, script: Script)
    requires Leads(held, script, {})
    ensures Disciplined(held, script)
    decreases |script|
  {
    if script == [] {
    } else {
      match script[0]
      case Acquire(l) => LeadsDisciplined(held + {l}, script[1..]);
      case Release(l) => LeadsDisciplined(held - {l}, script[1..]);
    }
  }

  lemma RegionLeads(held: set<Lock>, lock: Lock)
    requires forall h :: h in held ==> h.Rank() < lock.Rank()
    ensures Leads(held, Region(lock), held)
  {
    var script := Region(lock);
    assert script[1..] == [Release(lock)] && script[1..][1..] == [];
    assert lock !in held && held + {lock} - {lock} == held;
  }

  lemma OneLeads(held: set<Lock>, action: Action)
    requires action.Acquire? ==> forall h :: h in held ==> h.Rank() < action.lock.Rank()
    requires action.Release? ==> action.lock in held
    ensures Leads(held, [action], if action.Acquire? then held + {action.lock} else held - {action.lock})
  {
    assert [action][1..] == [];
  }

  lemma TwoLeads(held: set<Lock>, a: Action, b: Action, after: set<Lock>)
    requires Leads(held, [a], after) && Leads(after, [b], if b.Acquire? then after + {b.lock} else after - {b.lock})
    ensures Leads(held, [a, b], if b.Acquire? then after + {b.lock} else after - {b.lock})
  {
    LeadsAppend(held, [a], after, [b], if b.Acquire? then after + {b.lock} else after - {b.lock});
    assert [a] + [b] == [a, b];
  }

  lemma PersistLeads(path: PersistPath)
    ensures Leads({}, PersistScript(path), {})
  {
    var db, both := {DatabaseLock}, {DatabaseLock, SubmittedLock};
    OneLeads({}, Acquire(DatabaseLock));
    OneLeads(db, Release(DatabaseLock));
    assert {} + {DatabaseLock} == db && db - {DatabaseLock} == {};
    match path
    case NoDatabase => RegionLeads({}, DatabaseLock);
    case NoMetadata =>
      RegionLeads(db, SubmittedLock);
      LeadsAppend({}, [Acquire(DatabaseLock)], db, Region(SubmittedLock), db);
      LeadsAppend({}, [Acquire(DatabaseLock)] + Region(SubmittedLock), db, [Release(DatabaseLock)], {});
    case Written =>
      OneLeads(db, Acquire(SubmittedLock));
      OneLeads(both, Release(SubmittedLock));
      assert db + {SubmittedLock} == both && both - {SubmittedLock} == db;
      TwoLeads({}, Acquire(DatabaseLock), Acquire(SubmittedLock), db);
      TwoLeads(both, Release(SubmittedLock), Release(DatabaseLock), db);
      RegionLeads(both, TrackerLock);
      var begin, end := [Acquire(DatabaseLock), Acquire(SubmittedLock)], [Release(SubmittedLock), Release(DatabaseLock)];
      LeadsAppend({}, begin, both, Region(TrackerLock), both);
      LeadsAppend({}, begin + Region(TrackerLock), both, end, {});
  }

  lemma {:induction false} SweepLeads(sweeps: seq<PersistPath>)
    ensures Leads({QueueLock, SchedulerLock}, SweepScript(sweeps), {QueueLock, SchedulerLock})
  {
    var q, both := {QueueLock}, {QueueLock, SchedulerLock};
    if sweeps == [] {
    } else {
      var drop, retake := [Release(QueueLock), Release(SchedulerLock)], [Acquire(QueueLock), Acquire(SchedulerLock)];
      RegionLeads(both, TrackerLock);
      OneLeads(both, Release(QueueLock));
      assert both - {QueueLock} == {SchedulerLock} && {SchedulerLock} - {SchedulerLock} == {};
      OneLeads({SchedulerLock}, Release(SchedulerLock));
      TwoLeads(both, Release(QueueLock), Release(SchedulerLock), {SchedulerLock});
      PersistLeads(sweeps[0]);
      TakeLocksLeads();
      SweepLeads(sweeps[1..]);
      LeadsAppend(both, Region(TrackerLock), both, drop, {});
      LeadsAppend(both, Region(TrackerLock) + drop, {}, PersistScript(sweeps[0]), {});
      LeadsAppend(both, Region(TrackerLock) + drop + PersistScript(sweeps[0]), {}, retake, both);
      LeadsAppend(both, Region(TrackerLock) + drop + PersistScript(sweeps[0]) + retake, both, SweepScript(sweeps[1..]), both);
    }
  }

  lemma TakeLocksLeads()
    ensures Leads({}, [Acquire(QueueLock), Acquire(SchedulerLock)], {QueueLock, SchedulerLock})
    ensures Leads({QueueLock, SchedulerLock}, [Release(SchedulerLock), Release(QueueLock)], {})
  {
    var q, both := {QueueLock}, {QueueLock, SchedulerLock};
    OneLeads({}, Acquire(QueueLock));
    OneLeads(q, Acquire(SchedulerLock));
    assert {} + {QueueLock} == q && q + {SchedulerLock} == both && both - {SchedulerLock} == q && q - {QueueLock} == {};
    TwoLeads({}, Acquire(QueueLock), Acquire(SchedulerLock), q);
    OneLeads(both, Release(SchedulerLock));
    OneLeads(q, Release(QueueLock));
    TwoLeads(both, Release(SchedulerLock), Release(QueueLock), q);
  }

  /** A script made of parts that each start and end without locks. */
  lemma JoinLeads(a: Script, b: Script)
    requires Leads({}, a, {}) && Leads({}, b, {})
    ensures Leads({}, a + b, {})
  {
    LeadsAppend({}, a, {}, b, {});
  }

  lemma RegionsLead()
    ensures forall l :: Leads({}, Region(l), {})
  {
    forall l ensures Leads({}, Region(l), {}) { RegionLeads({}, l); }
  }

  lemma {:induction false} RepeatLeads(script: Script, times: nat)
    requires Leads({}, script, {})
    ensures Leads({}, Repeat(script, times), {})
  {
    if times == 0 {
    } else {
      RepeatLeads(script, times - 1);
      JoinLeads(script, Repeat(script, times - 1));
    }
  }

  /** Every operation respects the order queue, scheduler, database, submitted, running, tracker. */
  lemma {:induction false} OperationLeads(op: Operation)
    ensures Leads({}, ScriptOf(op), {})
    decreases op, 0
  {
    RegionsLead();
    var s, t, q, r, m := Region(SchedulerLock), Region(TrackerLock), Region(QueueLock), Region(RunningLock), Region(SubmittedLock);
    match op
    case Submit(path) =>
      PersistLeads(path);
      JoinLeads(s, t);
      JoinLeads(s + t, m);
      JoinLeads(s + t + m, PersistScript(path));
      JoinLeads(s + t + m + PersistScript(path), q);
    case CancelQueued(path) =>
      PersistLeads(path);
      JoinLeads(t, q);
      JoinLeads(t + q, t);
      JoinLeads(t + q + t, s);
      JoinLeads(t + q + t + s, PersistScript(path));
    case CancelRunning =>
      JoinLeads(t, q);
      JoinLeads(t + q, r);
    case TryTake(sweeps) =>
      var both := {QueueLock, SchedulerLock};
      var lock, unlock := [Acquire(QueueLock), Acquire(SchedulerLock)], [Release(SchedulerLock), Release(QueueLock)];
      TakeLocksLeads();
      SweepLeads(sweeps);
      LeadsAppend({}, lock, both, SweepScript(sweeps), both);
      LeadsAppend({}, lock + SweepScript(sweeps), both, unlock, {});
    case RunJob(running, nested, final) =>
      PersistLeads(running);
      PersistLeads(final);
      OperationsLead(nested);
      var head := t + PersistScript(running) + r + ScriptsOf(nested);
      JoinLeads(t, PersistScript(running));
      JoinLeads(t + PersistScript(running), r);
      JoinLeads(t + PersistScript(running) + r, ScriptsOf(nested));
      JoinLeads(head, r);
      JoinLeads(head + r, t);
      JoinLeads(head + r + t, s);
      JoinLeads(head + r + t + s, PersistScript(final));
    case IdleWait => JoinLeads(q, q);
    case WaitForJob(wakeups) =>
      RepeatLeads(t, wakeups);
      JoinLeads(t, Repeat(t, wakeups));
    case _ =>
  }

  lemma {:induction false} OperationsLead(ops: seq<Operation>)
    ensures Leads({}, ScriptsOf(ops), {})
    decreases ops, 1
  {
    if ops == [] {
    } else {
      OperationLeads(ops[0]);
      OperationsLead(ops[1..]);
      JoinLeads(ScriptOf(ops[0]), ScriptsOf(ops[1..]));
    }
  }

  // ----- Threads running operations -----

  /** Who holds each lock, and what every thread still has to do of its current operation. */
  datatype State = State(holders: map<Lock, ThreadId>, rest: map<ThreadId, Script>)

  datatype Move = Begin(op: Operation) | Advance

  ghost function HeldBy(s: State, t: ThreadId): set<Lock> {
    set l | l in s.holders && s.holders[l] == t
  }

  /** A thread can go on unless the lock it wants is taken. */
  ghost predicate CanAdvance(s: State, t: ThreadId) {
    t in s.rest && s.rest[t] != [] &&
    match s.rest[t][0]
    case Acquire(l) => l !in s.holders
    case Release(_) => true
  }

  ghost predicate Enabled(s: State, t: ThreadId, m: Move) {
    match m
    case Begin(_) => t in s.rest && s.rest[t] == []
    case Advance => CanAdvance(s, t)
  }

  ghost function Next(s: State, t: ThreadId, m: Move): State
    requires Enabled(s, t, m)
  {
    match m
    case Begin(op) => s.(rest := s.rest[t := ScriptOf(op)])
    case Advance =>
      var rest := s.rest[t := s.rest[t][1..]];
      match s.rest[t][0]
      case Acquire(l) => State(s.holders[l := t], rest)
      case Release(l) => State(s.holders - {l}, rest)
  }

  ghost predicate Orderly(s: State) {
    && (forall l :: l in s.holders ==> s.holders[l] in s.rest)
    && (forall t :: t in s.rest ==> Disciplined(HeldBy(s, t), s.rest[t]))
  }

  lemma NextOrderly(s: State, t: ThreadId, m: Move)
    requires Orderly(s) && Enabled(s, t, m)
    ensures Orderly(Next(s, t, m))
  {
    var s' := Next(s, t, m);
    forall u | u in s'.rest ensures Disciplined(HeldBy(s', u), s'.rest[u]) {
      assert Disciplined(HeldBy(s, u), s.rest[u]);
      if m.Begin? {
        assert HeldBy(s', u) == HeldBy(s, u);
        if u == t {
          OperationLeads(m.op);
          LeadsDisciplined({}, ScriptOf(m.op));
        }
      } else {
        match s.rest[t][0]
        case Acquire(l) => assert HeldBy(s', u) == if u == t then HeldBy(s, t) + {l} else HeldBy(s, u);
        case Release(l) =>
          assert l in HeldBy(s, t);
          assert HeldBy(s', u) == if u == t then HeldBy(s, t) - {l} else HeldBy(s, u);
      }
    }
  }

  ghost predicate Reaches(s: State, moves: seq<(ThreadId, Move)>, last: State)
    decreases |moves|
  {
    if moves == [] then s == last
    else Enabled(s, moves[0].0, moves[0].1) && Reaches(Next(s, moves[0].0, moves[0].1), moves[1..], last)
  }

  lemma {:induction false} ReachesOrderly(s: State, moves: seq<(ThreadId, Move)>, last: State)
    requires Orderly(s) && Reaches(s, moves, last)
    ensures Orderly(last)
    decreases |moves|
  {
    if moves == [] {
    } else {
      NextOrderly(s, moves[0].0, moves[0].1);
      ReachesOrderly(Next(s, moves[0].0, moves[0].1), moves[1..], last);
    }
  }

  /** `t` is blocked on a lock that `u` holds. */
  ghost predicate WaitsFor(s: State, t: ThreadId, u: ThreadId) {
    t in s.rest && s.rest[t] != [] && s.rest[t][0].Acquire?
    && s.rest[t][0].lock in s.holders && s.holders[s.rest[t][0].lock] == u
  }

  /** Rank of the lock `t` is about to acquire. */
  ghost function Wanted(s: State, t: ThreadId): nat {
    if t in s.rest && s.rest[t] != [] && s.rest[t][0].Acquire? then s.rest[t][0].lock.Rank() else 6
  }

  ghost predicate WaitChain(s: State, chain: seq<ThreadId>) {
    forall i :: 0 <= i < |chain| - 1 ==> WaitsFor(s, chain[i], chain[i + 1])
  }

  lemma WaitRises(s: State, t: ThreadId, u: ThreadId)
    requires Orderly(s) && WaitsFor(s, t, u)
    ensures u in s.rest && s.rest[u] != []
    ensures Wanted(s, u) > Wanted(s, t)
  {
    assert Disciplined(HeldBy(s, u), s.rest[u]);
    assert s.rest[t][0].lock in HeldBy(s, u);
  }

  lemma {:induction false} ChainRises(s: State, chain: seq<ThreadId>, k: nat)
    requires Orderly(s) && WaitChain(s, chain) && 0 < k < |chain| - 1
    ensures Wanted(s, chain[k]) > Wanted(s, chain[0])
  {
    assert WaitsFor(s, chain[0], chain[1]) && WaitsFor(s, chain[k - 1], chain[k - 1 + 1]) && WaitsFor(s, chain[k], chain[k + 1]);
    WaitRises(s, chain[k - 1], chain[k]);
    if k <= 1 {
    } else {
      ChainRises(s, chain, k - 1);
    }
  }

  /** No cycle of waiting threads, of any length, in any state any number of threads can reach. */
  lemma NoWaitCycle(start: State, moves: seq<(ThreadId, Move)>, s: State, chain: seq<ThreadId>)
    requires start.holders == map[] && (forall t :: t in start.rest ==> start.rest[t] == [])
    requires Reaches(start, moves, s)
    requires |chain| >= 2 && WaitChain(s, chain)
    ensures chain[0] != chain[|chain| - 1]
  {
    ReachesOrderly(start, moves, s);
    var last := |chain| - 1;
    assert WaitsFor(s, chain[last - 1], chain[last - 1 + 1]) && WaitsFor(s, chain[0], chain[0 + 1]);
    WaitRises(s, chain[last - 1], chain[last]);
    if last > 1 { ChainRises(s, chain, last - 1); }
  }

  lemma {:induction false} SomeoneAdvances(s: State, t: ThreadId) returns (u: ThreadId)
    requires Orderly(s) && t in s.rest && s.rest[t] != []
    ensures CanAdvance(s, u)
    decreases 6 - Wanted(s, t)
  {
    if CanAdvance(s, t) {
      u := t;
    } else {
      var v := s.holders[s.rest[t][0].lock];
      WaitRises(s, t, v);
      if s.rest[v][0].Release? { u := v; } else { u := SomeoneAdvances(s, v); }
    }
  }

  /** Deadlock freedom: as long as some thread is in the middle of an operation, some thread can
      take its next lock action. */
  lemma NoDeadlock(start: State, moves: seq<(ThreadId, Move)>, s: State, t: ThreadId)
    requires start.holders == map[] && (forall t :: t in start.rest ==> start.rest[t] == [])
    requires Reaches(start, moves, s)
    requires t in s.rest && s.rest[t] != []
    ensures exists u :: CanAdvance(s, u)
  {
    ReachesOrderly(start, moves, s);
    var u := SomeoneAdvances(s, t);
  }
}
