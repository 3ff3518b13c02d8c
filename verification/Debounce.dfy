/** File events, and the debouncer that keeps the latest one per path until the path is quiet. */
module Debouncing {
  import opened Bytes

  datatype Path = Path(name: string)

  datatype EventType = Created | Modified | Deleted | Renamed(from: Path)

  datatype FileEvent = FileEvent(kind: EventType, path: Path)

  // ----- The log of a debouncer -----

  datatype Push = Push(event: FileEvent, at: nat)

  /** The push with number `index` came out at time `at`, when `known` pushes had been made. */
  datatype Surfaced = Surfaced(index: nat, at: nat, known: nat)

  /** Everything a debouncer has been through; `pending` maps a path to the number of its push. */
  datatype Log = Log(window: nat, pushes: seq<Push>, pending: map<Path, nat>, surfaced: seq<Surfaced>, clock: nat) {
    ghost predicate HasIndices() {
      && (forall p :: p in pending ==> pending[p] < |pushes|)
      && forall k :: 0 <= k < |surfaced| ==> surfaced[k].index < |pushes|
    }

    function At(p: Path): nat requires p in pending && pending[p] < |pushes| { pushes[pending[p]].at }

    function ReadyAt(p: Path): nat requires p in pending && pending[p] < |pushes| { At(p) + window }
  }

  function Fresh(window: nat, clock: nat): Log { Log(window, [], map[], [], clock) }

  function Pushed(log: Log, event: FileEvent, now: nat): Log {
    log.(pushes := log.pushes + [Push(event, now)], pending := log.pending[event.path := |log.pushes|], clock := now)
  }

  /** The path has been quiet for the window, and no other has waited longer. */
  ghost predicate CanPop(log: Log, path: Path, now: nat) {
    && log.HasIndices() && path in log.pending && log.ReadyAt(path) <= now
    && forall p :: p in log.pending ==> log.ReadyAt(path) <= log.ReadyAt(p)
  }

  function Popped(log: Log, path: Path, now: nat): Log
    requires path in log.pending
  {
    log.(pending := log.pending - {path},
         surfaced := log.surfaced + [Surfaced(log.pending[path], now, |log.pushes|)], clock := now)
  }

  /** Push `i` is the last for its path among the first `n`. */
  ghost predicate IsLatest(pushes: seq<Push>, i: nat, n: nat) {
    i < n <= |pushes| && forall j :: i < j < n ==> pushes[j].event.path != pushes[i].event.path
  }

  ghost predicate IsSurfaced(log: Log, i: nat) {
    exists k :: 0 <= k < |log.surfaced| && log.surfaced[k].index == i
  }

  ghost predicate IsPending(log: Log, i: nat) {
    exists p :: p in log.pending && log.pending[p] == i
  }

  /** A later push for the same path replaced it before it came out. */
  ghost predicate IsSuperseded(log: Log, i: nat) {
    !IsSurfaced(log, i) && exists j :: i < j < |log.pushes| && log.pushes[j].event.path == log.pushes[i].event.path
  }

  // ----- What every run keeps -----

  ghost predicate ClockInv(log: Log) {
    && (forall i :: 0 <= i < |log.pushes| ==> log.pushes[i].at <= log.clock)
    && (forall k :: 0 <= k < |log.surfaced| ==> log.surfaced[k].at <= log.clock)
  }

  ghost predicate PendingInv(log: Log) {
    && log.HasIndices()
    && (forall p :: p in log.pending ==>
          IsLatest(log.pushes, log.pending[p], |log.pushes|) && log.pushes[log.pending[p]].event.path == p)
    && (forall p, k :: p in log.pending && 0 <= k < |log.surfaced| ==> log.surfaced[k].index != log.pending[p])
  }

  /** What has come out was the latest for its path, and at least one window old. */
  ghost predicate SurfacedInv(log: Log) {
    && log.HasIndices()
    && (forall k :: 0 <= k < |log.surfaced| ==> var s := log.surfaced[k];
          IsLatest(log.pushes, s.index, s.known) && log.pushes[s.index].at + log.window <= s.at)
    && (forall j, k :: 0 <= j < k < |log.surfaced| ==> log.surfaced[j].index != log.surfaced[k].index)
  }

  /** Nothing is lost: the latest push of every path is pending or has come out. */
  ghost predicate NothingLost(log: Log) {
    forall i :: 0 <= i < |log.pushes| && IsLatest(log.pushes, i, |log.pushes|) ==> IsPending(log, i) || IsSurfaced(log, i)
  }

  /** Events come out in the order of their pushes in time, and what is pending is not older. */
  ghost predicate OrderInv(log: Log) {
    && log.HasIndices()
    && (forall j, k :: 0 <= j < k < |log.surfaced| ==>
          log.pushes[log.surfaced[j].index].at <= log.pushes[log.surfaced[k].index].at)
    && (forall k, p :: 0 <= k < |log.surfaced| && p in log.pending ==>
          log.pushes[log.surfaced[k].index].at <= log.At(p))
  }

  ghost predicate Inv(log: Log) {
    ClockInv(log) && PendingInv(log) && SurfacedInv(log) && NothingLost(log) && OrderInv(log)
  }

  lemma FreshInv(window: nat, clock: nat)
    ensures Inv(Fresh(window, clock)) && Fresh(window, clock).HasIndices() && Entries(Fresh(window, clock)) == map[]
  {
    var entries := Entries(Fresh(window, clock));
    assert forall p :: p !in entries;
  }

  lemma PushKeepsLatest(pushes: seq<Push>, push: Push, i: nat, n: nat)
    ensures IsLatest(pushes, i, n) ==> IsLatest(pushes + [push], i, n)
    ensures i < |pushes| ==> (IsLatest(pushes + [push], i, |pushes| + 1)
                              <==> IsLatest(pushes, i, |pushes|) && pushes[i].event.path != push.event.path)
  {
    var more := pushes + [push];
    assert forall j :: 0 <= j < |pushes| ==> more[j] == pushes[j];
    assert more[|pushes|] == push;
  }

  lemma PushKeepsPending(log: Log, event: FileEvent, now: nat)
    requires PendingInv(log) && SurfacedInv(log)
    ensures PendingInv(Pushed(log, event, now))
  {
    var after, n, push := Pushed(log, event, now), |log.pushes|, Push(event, now);
    forall p | p in after.pending
      ensures IsLatest(after.pushes, after.pending[p], n + 1) && after.pushes[after.pending[p]].event.path == p
    {
      PushKeepsLatest(log.pushes, push, after.pending[p], n);
    }
  }

  lemma PushKeepsSurfaced(log: Log, event: FileEvent, now: nat)
    requires SurfacedInv(log)
    ensures SurfacedInv(Pushed(log, event, now))
  {
    forall k | 0 <= k < |log.surfaced|
      ensures IsLatest(log.pushes + [Push(event, now)], log.surfaced[k].index, log.surfaced[k].known)
    {
      PushKeepsLatest(log.pushes, Push(event, now), log.surfaced[k].index, log.surfaced[k].known);
    }
  }

  lemma PushLosesNothing(log: Log, event: FileEvent, now: nat)
    requires NothingLost(log) && PendingInv(log)
    ensures NothingLost(Pushed(log, event, now))
  {
    var after, n, push := Pushed(log, event, now), |log.pushes|, Push(event, now);
    assert after.pending[event.path] == n;
    forall i | 0 <= i < n && IsLatest(after.pushes, i, n + 1) ensures IsPending(after, i) || IsSurfaced(after, i) {
      PushKeepsLatest(log.pushes, push, i, n);
      if IsSurfaced(log, i) {
        var k :| 0 <= k < |log.surfaced| && log.surfaced[k].index == i;
        assert after.surfaced[k].index == i;
      } else {
        var p :| p in log.pending && log.pending[p] == i;
        assert after.pending[p] == i;
      }
    }
  }

  lemma PushKeepsOrder(log: Log, event: FileEvent, now: nat)
    requires OrderInv(log) && ClockInv(log) && SurfacedInv(log) && log.clock <= now
    ensures OrderInv(Pushed(log, event, now)) && ClockInv(Pushed(log, event, now))
  {
    var after := Pushed(log, event, now);
    assert forall i :: 0 <= i < |log.pushes| ==> after.pushes[i] == log.pushes[i];
  }

  lemma PushKeepsInv(log: Log, event: FileEvent, now: nat)
    requires Inv(log) && log.clock <= now
    ensures Inv(Pushed(log, event, now))
  {
    PushKeepsPending(log, event, now);
    PushKeepsSurfaced(log, event, now);
    PushLosesNothing(log, event, now);
    PushKeepsOrder(log, event, now);
  }

  lemma PopKeepsPending(log: Log, path: Path, now: nat)
    requires PendingInv(log) && path in log.pending
    ensures PendingInv(Popped(log, path, now))
  {
    var after, m := Popped(log, path, now), |log.surfaced|;
    assert after.surfaced[m].index == log.pending[path];
    assert forall k :: 0 <= k < m ==> after.surfaced[k] == log.surfaced[k];
    forall p | p in after.pending ensures after.pending[p] != log.pending[path] {
      assert log.pushes[log.pending[p]].event.path == p;
    }
  }

  lemma PopKeepsSurfaced(log: Log, path: Path, now: nat)
    requires PendingInv(log) && SurfacedInv(log) && CanPop(log, path, now)
    ensures SurfacedInv(Popped(log, path, now))
  {
    var after, m := Popped(log, path, now), |log.surfaced|;
    assert after.surfaced[m] == Surfaced(log.pending[path], now, |log.pushes|);
    assert forall k :: 0 <= k < m ==> after.surfaced[k] == log.surfaced[k];
  }

  lemma PopKeepsOrder(log: Log, path: Path, now: nat)
    requires ClockInv(log) && OrderInv(log) && log.clock <= now && CanPop(log, path, now)
    ensures ClockInv(Popped(log, path, now)) && OrderInv(Popped(log, path, now))
  {
    var after, m := Popped(log, path, now), |log.surfaced|;
    assert after.surfaced[m].index == log.pending[path];
    assert forall k :: 0 <= k < m ==> after.surfaced[k] == log.surfaced[k];
    assert forall p :: p in log.pending ==> log.ReadyAt(path) <= log.ReadyAt(p);
  }

  lemma PopLosesNothing(log: Log, path: Path, now: nat)
    requires NothingLost(log) && path in log.pending
    ensures NothingLost(Popped(log, path, now))
  {
    var after, m := Popped(log, path, now), |log.surfaced|;
    forall i | 0 <= i < |log.pushes| && IsLatest(log.pushes, i, |log.pushes|) ensures IsPending(after, i) || IsSurfaced(after, i) {
      if IsSurfaced(log, i) {
        var k :| 0 <= k < m && log.surfaced[k].index == i;
        assert after.surfaced[k].index == i;
      } else {
        var p :| p in log.pending && log.pending[p] == i;
        if p == path {
          assert after.surfaced[m].index == i;
        } else {
          assert after.pending[p] == i;
        }
      }
    }
  }

  lemma PopKeepsInv(log: Log, path: Path, now: nat)
    requires Inv(log) && log.clock <= now && CanPop(log, path, now)
    ensures Inv(Popped(log, path, now))
  {
    PopKeepsPending(log, path, now);
    PopKeepsSurfaced(log, path, now);
    PopKeepsOrder(log, path, now);
    PopLosesNothing(log, path, now);
  }

  /** Every push has exactly one fate: it came out, it was superseded, or it is pending. */
  lemma OneFate(log: Log, i: nat)
    requires Inv(log) && i < |log.pushes|
    ensures IsSurfaced(log, i) || IsSuperseded(log, i) || IsPending(log, i)
    ensures !(IsSurfaced(log, i) && IsSuperseded(log, i))
    ensures !(IsSurfaced(log, i) && IsPending(log, i))
    ensures !(IsSuperseded(log, i) && IsPending(log, i))
  {
  }

  /** Flushing a debouncer goes on in order: nothing pending is older than what came out. */
  lemma FlushGoesOn(log: Log, k: nat, p: Path)
    requires Inv(log) && k < |log.surfaced| && p in log.pending
    ensures log.pushes[log.surfaced[k].index].at <= log.At(p)
    ensures log.pushes[log.surfaced[k].index].event.path == p ==> log.surfaced[k].index < log.pending[p]
  {
    var i, j := log.surfaced[k].index, log.pending[p];
    assert IsLatest(log.pushes, j, |log.pushes|);
  }

  // ----- Whole runs -----

  /** A push, or a pop of something ready; the clock does not go back. */
  ghost predicate LogStep(a: Log, b: Log) {
    a.clock <= b.clock
    && ((exists e :: b == Pushed(a, e, b.clock)) || (exists p :: CanPop(a, p, b.clock) && b == Popped(a, p, b.clock)))
  }

  ghost predicate LogRun(logs: seq<Log>) {
    && logs != [] && logs[0] == Fresh(logs[0].window, logs[0].clock)
    && forall i :: 0 <= i < |logs| - 1 ==> LogStep(logs[i], logs[i + 1])
  }

  lemma {:induction false} RunKeepsInv(logs: seq<Log>)
    requires LogRun(logs)
    ensures Inv(logs[|logs| - 1])
  {
    var n := |logs| - 1;
    if n == 0 {
      FreshInv(logs[0].window, logs[0].clock);
    } else {
      RunKeepsInv(logs[..n]);
      var a, b := logs[n - 1], logs[n];
      assert LogStep(a, b);
      if p :| CanPop(a, p, b.clock) && b == Popped(a, p, b.clock) {
        PopKeepsInv(a, p, b.clock);
      } else {
        var e :| b == Pushed(a, e, b.clock);
        PushKeepsInv(a, e, b.clock);
      }
    }
  }

  /** The log of some run. */
  ghost predicate Reached(log: Log) {
    exists logs: seq<Log> :: LogRun(logs) && logs[|logs| - 1] == log
  }

  lemma ReachedInv(log: Log)
    requires Reached(log)
    ensures Inv(log)
  {
    var logs: seq<Log> :| LogRun(logs) && logs[|logs| - 1] == log;
    RunKeepsInv(logs);
  }

  lemma ReachedFresh(window: nat, clock: nat)
    ensures Reached(Fresh(window, clock))
  {
    var logs := [Fresh(window, clock)];
    assert LogRun(logs) && logs[|logs| - 1] == Fresh(window, clock);
  }

  lemma ReachedStep(log: Log, next: Log)
    requires Reached(log) && LogStep(log, next)
    ensures Reached(next)
  {
    var logs: seq<Log> :| LogRun(logs) && logs[|logs| - 1] == log;
    var more := logs + [next];
    forall i | 0 <= i < |more| - 1 ensures LogStep(more[i], more[i + 1]) {
      assert i < |logs| - 1 ==> LogStep(logs[i], logs[i + 1]);
    }
    assert LogRun(more) && more[|more| - 1] == next;
  }

  lemma ReachedPush(log: Log, event: FileEvent, now: nat)
    requires Reached(log) && log.clock <= now
    ensures Reached(Pushed(log, event, now))
  {
    assert LogStep(log, Pushed(log, event, now));
    ReachedStep(log, Pushed(log, event, now));
  }

  lemma ReachedPop(log: Log, path: Path, now: nat)
    requires Reached(log) && log.clock <= now && CanPop(log, path, now)
    ensures Reached(Popped(log, path, now))
  {
    assert LogStep(log, Popped(log, path, now));
    ReachedStep(log, Popped(log, path, now));
  }

  lemma PendingKey(log: Log, path: Path)
    requires Reached(log) && path in log.pending
    ensures log.pending[path] < |log.pushes| && log.pushes[log.pending[path]].event.path == path
  {
    ReachedInv(log);
  }

  /** Exactly one of the three. */
  predicate OneOf(a: bool, b: bool, c: bool) {
    (a || b || c) && !(a && b) && !(a && c) && !(b && c)
  }

  /** After any run: every push has exactly one fate; whatever came out was the latest for its path
      when it did, and at least one window old; and what came out, followed by what a flush would
      bring, is in order of the pushes. */
  lemma EveryRun(logs: seq<Log>)
    requires LogRun(logs)
    ensures var log := logs[|logs| - 1];
            && log.HasIndices()
            && (forall i :: 0 <= i < |log.pushes| ==> OneOf(IsSurfaced(log, i), IsSuperseded(log, i), IsPending(log, i)))
            && (forall k :: 0 <= k < |log.surfaced| ==> var s := log.surfaced[k];
                  IsLatest(log.pushes, s.index, s.known) && log.pushes[s.index].at + log.window <= s.at)
            && (forall j, k :: 0 <= j < k < |log.surfaced| ==>
                  log.pushes[log.surfaced[j].index].at <= log.pushes[log.surfaced[k].index].at)
            && (forall k, p :: 0 <= k < |log.surfaced| && p in log.pending ==>
                  log.pushes[log.surfaced[k].index].at <= log.At(p))
  {
    RunKeepsInv(logs);
    var log := logs[|logs| - 1];
    forall i | 0 <= i < |log.pushes| ensures OneOf(IsSurfaced(log, i), IsSuperseded(log, i), IsPending(log, i)) {
      OneFate(log, i);
    }
  }

  // ----- The debouncer -----

  datatype Entry = Entry(event: FileEvent, readyAt: nat)

  /** The entries with the pushes of the log. */
  ghost function Entries(log: Log): map<Path, Entry>
    requires log.HasIndices()
  {
    map p | p in log.pending :: Entry(log.pushes[log.pending[p]].event, log.ReadyAt(p))
  }

  lemma EntriesPushed(log: Log, event: FileEvent, now: nat)
    requires log.HasIndices()
    ensures Pushed(log, event, now).HasIndices()
    ensures Entries(Pushed(log, event, now)) == Entries(log)[event.path := Entry(event, now + log.window)]
  {
    var after := Pushed(log, event, now);
    assert forall i :: 0 <= i < |log.pushes| ==> after.pushes[i] == log.pushes[i];
  }

  lemma EntriesPopped(log: Log, path: Path, now: nat)
    requires log.HasIndices() && path in log.pending
    ensures Popped(log, path, now).HasIndices()
    ensures Entries(Popped(log, path, now)) == Entries(log) - {path}
  {
  }

  /** No path outside `left` is ready before the chosen one. */
  ghost predicate Chosen(pending: map<Path, Entry>, oldest: Option<Path>, left: set<Path>, now: nat) {
    match oldest
    case None => forall p :: p in pending && p !in left ==> pending[p].readyAt > now
    case Some(best) =>
      && best in pending && pending[best].readyAt <= now
      && forall p :: p in pending && p !in left ==> pending[best].readyAt <= pending[p].readyAt
  }

  lemma ChosenCanPop(log: Log, path: Path, now: nat)
    requires log.HasIndices() && Chosen(Entries(log), Some(path), {}, now)
    ensures CanPop(log, path, now)
  {
    forall p | p in log.pending ensures log.ReadyAt(path) <= log.ReadyAt(p) {
      assert p in Entries(log);
    }
  }

  function Insert(entries: seq<Entry>, e: Entry): seq<Entry> {
    if entries == [] || e.readyAt < entries[0].readyAt then [e] + entries
    else [entries[0]] + Insert(entries[1..], e)
  }

  function Events(entries: seq<Entry>): (events: seq<FileEvent>)
    ensures |events| == |entries| && forall i :: 0 <= i < |entries| ==> events[i] == entries[i].event
  {
    seq(|entries|, i requires 0 <= i < |entries| => entries[i].event)
  }

  ghost predicate InOrder(entries: seq<Entry>) {
    forall i, j :: 0 <= i < j < |entries| ==> entries[i].readyAt <= entries[j].readyAt
  }

  /** The entries are those of `pending`, one for each path. */
  ghost predicate Drained(entries: seq<Entry>, pending: map<Path, Entry>) {
    && |entries| == |pending|
    && forall e :: e in entries <==> e in pending.Values
  }

  lemma {:induction false} InsertHolds(entries: seq<Entry>, e: Entry)
    requires InOrder(entries)
    ensures InOrder(Insert(entries, e)) && |Insert(entries, e)| == |entries| + 1
    ensures forall x :: x in Insert(entries, e) <==> x == e || x in entries
  {
    if entries == [] || e.readyAt < entries[0].readyAt {
    } else {
      var rest := Insert(entries[1..], e);
      InsertHolds(entries[1..], e);
      assert forall x :: x in entries <==> x == entries[0] || x in entries[1..];
      assert forall x :: x in rest ==> entries[0].readyAt <= x.readyAt by {
        assert forall i :: 1 <= i < |entries| ==> entries[i] == entries[1..][i - 1];
      }
      assert forall i :: 0 <= i < |rest| ==> rest[i] in rest;
    }
  }

  /** The entries outside `left`. */
  ghost function Part(pending: map<Path, Entry>, left: set<Path>): map<Path, Entry> {
    map p | p in pending && p !in left :: pending[p]
  }

  lemma PartGrows(pending: map<Path, Entry>, left: set<Path>, p: Path)
    ensures p in pending && p in left ==> Part(pending, left - {p}) == Part(pending, left)[p := pending[p]]
    ensures Part(pending, {}) == pending && Part(pending, pending.Keys) == map[]
  {
  }

  lemma InsertDrains(entries: seq<Entry>, part: map<Path, Entry>, p: Path, e: Entry)
    requires InOrder(entries) && Drained(entries, part) && p !in part
    ensures InOrder(Insert(entries, e)) && Drained(Insert(entries, e), part[p := e])
  {
    InsertHolds(entries, e);
    var more := part[p := e];
    forall x: Entry ensures x in more.Values <==> x == e || x in part.Values {
      if x in part.Values {
        var q :| q in part && part[q] == x;
        assert more[q] == x;
      }
      assert more[p] == e;
    }
  }

  /** All entries, sorted by the time they become ready. */
  method Drain(pending: map<Path, Entry>) returns (sorted: seq<Entry>)
    ensures InOrder(sorted) && Drained(sorted, pending)
  {
    sorted := [];
    var left := pending.Keys;
    PartGrows(pending, left, Path(""));
    while left != {}
      invariant left <= pending.Keys && InOrder(sorted) && Drained(sorted, Part(pending, left))
      decreases left
    {
      var p :| p in left;
      PartGrows(pending, left, p);
      InsertDrains(sorted, Part(pending, left), p, pending[p]);
      sorted := Insert(sorted, pending[p]);
      left := left - {p};
    }
    PartGrows(pending, left, Path(""));
  }

  /** The map of a debouncer with this log. */
  ghost predicate Shows(log: Log, pending: map<Path, Entry>) {
    log.HasIndices() && pending == Entries(log)
  }

  /** Every entry is still inside its window. */
  ghost predicate AllYoung(pending: map<Path, Entry>, now: nat) {
    forall p :: p in pending ==> pending[p].readyAt > now
  }

  /** The last push of every pending path is less than a window ago. */
  ghost predicate NoneWaited(log: Log, now: nat) {
    log.HasIndices() && forall p :: p in log.pending ==> now < log.pushes[log.pending[p]].at + log.window
  }

  lemma YoungHaveNotWaited(log: Log, pending: map<Path, Entry>, now: nat)
    requires Shows(log, pending) && AllYoung(pending, now)
    ensures NoneWaited(log, now)
  {
    forall p | p in log.pending ensures now < log.pushes[log.pending[p]].at + log.window {
      assert p in pending;
    }
  }

  class EventDebouncer {
    const window: nat
    var pending: map<Path, Entry>
    ghost var log: Log

    ghost predicate Valid() reads this {
      Reached(log) && log.window == window && Shows(log, pending)
    }

    constructor (window: nat, ghost clock: nat)
      ensures Valid() && this.window == window && log == Fresh(window, clock)
    {
      FreshInv(window, clock);
      ReachedFresh(window, clock);
      this.window, pending, log := window, map[], Fresh(window, clock);
    }

    method Push(event: FileEvent, now: nat)
      requires Valid() && log.clock <= now
      modifies this
      ensures Valid() && log == Pushed(old(log), event, now)
      ensures pending == old(pending)[event.path := Entry(event, now + window)]
    {
      ReachedPush(log, event, now);
      EntriesPushed(log, event, now);
      pending := pending[event.path := Entry(event, now + window)];
      log := Pushed(log, event, now);
    }

    /** The entry that has been ready for longest; which of several equally old ones is open. */
    method PopReady(now: nat) returns (result: Option<FileEvent>)
      requires Valid() && log.clock <= now
      modifies this
      ensures Valid()
      ensures match result
              case None => log == old(log) && pending == old(pending) && AllYoung(pending, now) && NoneWaited(log, now)
              case Some(event) => CanPop(old(log), event.path, now) && log == Popped(old(log), event.path, now)
                                  && event == old(pending)[event.path].event
    {
      var oldest: Option<Path> := None;
      var left := pending.Keys;
      while left != {}
        invariant left <= pending.Keys
        invariant Chosen(pending, oldest, left, now)
        decreases left
      {
        var p :| p in left;
        if pending[p].readyAt <= now && (oldest == None || pending[p].readyAt < pending[oldest.value].readyAt) {
          oldest := Some(p);
        }
        left := left - {p};
      }
      if oldest == None {
        YoungHaveNotWaited(log, pending, now);
        return None;
      }
      var path := oldest.value;
      PendingKey(log, path);
      ChosenCanPop(log, path, now);
      EntriesPopped(log, path, now);
      ReachedPop(log, path, now);
      result := Some(pending[path].event);
      pending := pending - {path};
      log := Popped(log, path, now);
    }

    /** Everything pending, oldest first; which of several equally old ones is open. The debouncer
        starts again with an empty log. */
    method Flush() returns (events: seq<FileEvent>, ghost entries: seq<Entry>)
      requires Valid()
      modifies this
      ensures Valid() && log == Fresh(window, old(log).clock)
      ensures InOrder(entries) && Drained(entries, old(pending)) && events == Events(entries)
    {
      var sorted := Drain(pending);
      entries := sorted;
      events := Events(sorted);
      ghost var begun := Fresh(window, log.clock);
      FreshInv(window, log.clock);
      ReachedFresh(window, log.clock);
      pending := map[];
      log := begun;
    }
  }
}
