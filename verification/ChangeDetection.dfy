/** The polling backend: two snapshots of the watched trees and the events between them. */
module Polling {
  import opened Bytes
  import opened Debouncing

  datatype FileState = FileState(size: u64, modifiedMs: u64)

  type Snapshot = map<Path, FileState>

  /** What happened to a path between two snapshots. */
  function Change(before: Snapshot, after: Snapshot, p: Path): Option<EventType> {
    if p in before then
      if p !in after then Some(Deleted)
      else if after[p] != before[p] then Some(Modified)
      else None
    else if p in after then Some(Created)
    else None
  }

  /** One event for every path that changed, with what happened to it, and no other event. */
  ghost predicate IsDiff(before: Snapshot, after: Snapshot, events: seq<FileEvent>) {
    && (forall i, j :: 0 <= i < j < |events| ==> events[i].path != events[j].path)
    && (forall i :: 0 <= i < |events| ==> Change(before, after, events[i].path) == Some(events[i].kind))
    && forall p :: Change(before, after, p).Some? ==> HasPath(events, p)
  }

  ghost predicate HasPath(events: seq<FileEvent>, p: Path) {
    exists i :: 0 <= i < |events| && events[i].path == p
  }

  /** The scanner's comparison: first the old paths, then the new ones, each in any order. */
  method Diff(before: Snapshot, after: Snapshot) returns (events: seq<FileEvent>)
    ensures IsDiff(before, after, events)
    ensures forall e :: e in events ==>
              && (e.kind == Deleted <==> e.path in before && e.path !in after)
              && (e.kind == Created <==> e.path !in before && e.path in after)
              && (e.kind == Modified <==> e.path in before && e.path in after && before[e.path] != after[e.path])
  {
    events := [];
    var left := before.Keys;
    while left != {}
      invariant left <= before.Keys && DiffOf(before, after, before.Keys - left, events)
      decreases left
    {
      var p :| p in left;
      DiffGrows(before, after, before.Keys - left, events, p);
      if p !in after {
        events := events + [FileEvent(Deleted, p)];
      } else if after[p] != before[p] {
        events := events + [FileEvent(Modified, p)];
      }
      left := left - {p};
      assert before.Keys - left == before.Keys - (left + {p}) + {p};
    }
    left := after.Keys;
    assert before.Keys - {} == before.Keys;
    while left != {}
      invariant left <= after.Keys && DiffOf(before, after, before.Keys + (after.Keys - left), events)
      decreases left
    {
      var p :| p in left;
      var seen := before.Keys + (after.Keys - left);
      if p !in before {
        DiffGrows(before, after, seen, events, p);
        events := events + [FileEvent(Created, p)];
        assert seen + {p} == before.Keys + (after.Keys - (left - {p}));
      } else {
        assert seen == before.Keys + (after.Keys - (left - {p}));
      }
      left := left - {p};
    }
  }

  /** The same, for the paths looked at so far. */
  ghost predicate DiffOf(before: Snapshot, after: Snapshot, seen: set<Path>, events: seq<FileEvent>) {
    && (forall i, j :: 0 <= i < j < |events| ==> events[i].path != events[j].path)
    && (forall i :: 0 <= i < |events| ==> events[i].path in seen && Change(before, after, events[i].path) == Some(events[i].kind))
    && forall p :: p in seen && Change(before, after, p).Some? ==> HasPath(events, p)
  }

  lemma DiffGrows(before: Snapshot, after: Snapshot, seen: set<Path>, events: seq<FileEvent>, p: Path)
    requires DiffOf(before, after, seen, events) && p !in seen
    ensures match Change(before, after, p)
            case None => DiffOf(before, after, seen + {p}, events)
            case Some(kind) => DiffOf(before, after, seen + {p}, events + [FileEvent(kind, p)])
  {
    if Change(before, after, p).Some? {
      var more := events + [FileEvent(Change(before, after, p).value, p)];
      assert more[|events|].path == p;
      forall q | HasPath(events, q) ensures HasPath(more, q) {
        var i :| 0 <= i < |events| && events[i].path == q;
        assert more[i].path == q;
      }
    }
  }
}

/** From the polling scanner through the channel and the debouncer to a consumer. */
module ChangeDetection {
  import opened Bytes
  import opened Debouncing
  import opened Polling

  // ----- The pump: channel and debouncer -----

  datatype Pump = Pump(channel: seq<FileEvent>, log: Log)

  /** The watcher takes the oldest event out of the channel and feeds the debouncer. */
  ghost predicate Delivers(a: Pump, b: Pump) {
    && a.channel != [] && a.log.clock <= b.log.clock
    && b == Pump(a.channel[1..], Pushed(a.log, a.channel[0], b.log.clock))
  }

  /** The watcher hands an event that has been quiet for the window to the consumer. */
  ghost predicate Surfaces(a: Pump, b: Pump, event: FileEvent) {
    && a.log.clock <= b.log.clock && CanPop(a.log, event.path, b.log.clock)
    && event == a.log.pushes[a.log.pending[event.path]].event
    && b == Pump(a.channel, Popped(a.log, event.path, b.log.clock))
  }

  // ----- The whole system -----

  /** The scanner's snapshot and the events it has still to send; the pump; and a consumer that
      tracks which paths exist, and looks up their state in the scanner's snapshot when told. */
  datatype World = World(files: Snapshot, outbox: seq<FileEvent>, pump: Pump, believed: set<Path>, view: Snapshot)

  function Learn(believed: set<Path>, e: FileEvent): set<Path> {
    if e.kind == Deleted then believed - {e.path} else believed + {e.path}
  }

  function LookUp(view: Snapshot, files: Snapshot, e: FileEvent): Snapshot {
    if e.kind != Deleted && e.path in files then view[e.path := files[e.path]] else view - {e.path}
  }

  ghost predicate Scans(w: World, w': World) {
    w.outbox == [] && IsDiff(w.files, w'.files, w'.outbox) && w' == w.(files := w'.files, outbox := w'.outbox)
  }

  ghost predicate Sends(w: World, w': World) {
    w.outbox != [] && w' == w.(outbox := w.outbox[1..], pump := w.pump.(channel := w.pump.channel + [w.outbox[0]]))
  }

  ghost predicate Tells(w: World, w': World, e: FileEvent) {
    && Surfaces(w.pump, w'.pump, e)
    && w' == w.(pump := w'.pump, believed := Learn(w.believed, e), view := LookUp(w.view, w.files, e))
  }

  ghost predicate Step(w: World, w': World) {
    || Scans(w, w')
    || Sends(w, w')
    || (Delivers(w.pump, w'.pump) && w' == w.(pump := w'.pump))
    || exists e :: Tells(w, w', e)
  }

  ghost predicate Start(w: World) {
    && w.outbox == [] && w.pump.channel == [] && w.believed == w.files.Keys && w.view == w.files
    && w.pump.log == Fresh(w.pump.log.window, w.pump.log.clock)
  }

  ghost predicate Run(ws: seq<World>) {
    ws != [] && forall i :: 0 <= i < |ws| - 1 ==> Step(ws[i], ws[i + 1])
  }

  /** Nothing is on its way to the consumer. */
  ghost predicate Quiet(w: World) {
    w.outbox == [] && w.pump.channel == [] && w.pump.log.pending == map[]
  }

  // ----- The invariant -----

  function Last(events: seq<FileEvent>, p: Path): Option<FileEvent> {
    if events == [] then None
    else if events[|events| - 1].path == p then Some(events[|events| - 1])
    else Last(events[..|events| - 1], p)
  }

  lemma {:induction false} LastAppend(a: seq<FileEvent>, b: seq<FileEvent>, p: Path)
    ensures Last(a + b, p) == if Last(b, p).Some? then Last(b, p) else Last(a, p)
  {
    if b == [] {
      assert a + b == a;
    } else {
      assert (a + b)[..|a + b| - 1] == a + b[..|b| - 1];
      LastAppend(a, b[..|b| - 1], p);
    }
  }

  lemma {:induction false} LastInDiff(before: Snapshot, after: Snapshot, events: seq<FileEvent>, p: Path)
    requires forall i :: 0 <= i < |events| ==> Change(before, after, events[i].path) == Some(events[i].kind)
    ensures Last(events, p).Some? <==> HasPath(events, p)
    ensures Last(events, p).Some? ==> Change(before, after, p) == Some(Last(events, p).value.kind)
  {
    if events == [] || events[|events| - 1].path == p {
    } else {
      var rest := events[..|events| - 1];
      LastInDiff(before, after, rest, p);
      if HasPath(events, p) {
        var i :| 0 <= i < |events| && events[i].path == p;
        assert rest[i].path == p;
      }
      if HasPath(rest, p) {
        var i :| 0 <= i < |rest| && rest[i].path == p;
        assert events[i].path == p;
      }
    }
  }

  /** The newest event about a path that the consumer has not been told. */
  function InFlight(queue: seq<FileEvent>, log: Log, p: Path): Option<FileEvent>
    requires p in log.pending ==> log.pending[p] < |log.pushes|
  {
    if Last(queue, p).Some? then Last(queue, p)
    else if p in log.pending then Some(log.pushes[log.pending[p]].event)
    else None
  }

  function Queue(w: World): seq<FileEvent> { w.pump.channel + w.outbox }

  /** The newest event on its way tells whether the path exists; without one the consumer is right. */
  ghost predicate Told(w: World, p: Path)
    requires w.pump.log.HasIndices()
  {
    match InFlight(Queue(w), w.pump.log, p)
    case Some(e) => e.kind == Deleted <==> p !in w.files
    case None =>
      && (p in w.believed <==> p in w.files)
      && (p in w.view <==> p in w.files)
      && (p in w.files ==> w.view[p] == w.files[p])
  }

  ghost predicate WorldInv(w: World) {
    Inv(w.pump.log) && forall p :: Told(w, p)
  }

  lemma ScanKeeps(w: World, w': World)
    requires WorldInv(w) && Scans(w, w')
    ensures WorldInv(w')
  {
    forall p ensures Told(w', p) {
      assert Told(w, p);
      LastInDiff(w.files, w'.files, w'.outbox, p);
      LastAppend(w.pump.channel, w'.outbox, p);
      assert Queue(w) == w.pump.channel;
    }
  }

  lemma SendKeeps(w: World, w': World)
    requires WorldInv(w) && Sends(w, w')
    ensures WorldInv(w')
  {
    assert Queue(w') == Queue(w);
    forall p ensures Told(w', p) {
      assert Told(w, p);
    }
  }

  lemma DeliverKeeps(w: World, w': World)
    requires WorldInv(w) && Delivers(w.pump, w'.pump) && w' == w.(pump := w'.pump)
    ensures WorldInv(w')
  {
    var x, log, log' := w.pump.channel[0], w.pump.log, w'.pump.log;
    PushKeepsInv(log, x, log'.clock);
    assert Queue(w) == [x] + Queue(w');
    forall p ensures Told(w', p) {
      assert Told(w, p);
      LastAppend([x], Queue(w'), p);
      LastOfOne(x, p);
      PendingAfterPush(log, x, log'.clock, p);
    }
  }

  lemma LastOfOne(x: FileEvent, p: Path)
    ensures Last([x], p) == if x.path == p then Some(x) else None
  {
    var none := [x][..0];
    assert none == [];
  }

  lemma PendingAfterPush(log: Log, x: FileEvent, now: nat, p: Path)
    requires log.HasIndices()
    ensures var after := Pushed(log, x, now);
            && after.HasIndices()
            && (p in after.pending <==> p == x.path || p in log.pending)
            && (p in after.pending ==>
                  after.pushes[after.pending[p]].event == if p == x.path then x else log.pushes[log.pending[p]].event)
  {
  }

  lemma TellKeeps(w: World, w': World, e: FileEvent)
    requires WorldInv(w) && Tells(w, w', e)
    ensures WorldInv(w')
  {
    PopKeepsInv(w.pump.log, e.path, w'.pump.log.clock);
    assert Queue(w') == Queue(w);
    forall p ensures Told(w', p) {
      assert Told(w, p);
      if p == e.path { TellTold(w, w', e); } else { TellOthers(w, w', e, p); }
    }
  }

  lemma TellTold(w: World, w': World, e: FileEvent)
    requires w.pump.log.HasIndices() && w'.pump.log.HasIndices() && Told(w, e.path) && Tells(w, w', e)
    ensures Told(w', e.path)
  {
  }

  lemma TellOthers(w: World, w': World, e: FileEvent, p: Path)
    requires w.pump.log.HasIndices() && w'.pump.log.HasIndices() && Told(w, p) && Tells(w, w', e) && p != e.path
    ensures Told(w', p)
  {
  }

  lemma StepKeeps(w: World, w': World)
    requires WorldInv(w) && Step(w, w')
    ensures WorldInv(w')
  {
    if Scans(w, w') {
      ScanKeeps(w, w');
    } else if Sends(w, w') {
      SendKeeps(w, w');
    } else if Delivers(w.pump, w'.pump) && w' == w.(pump := w'.pump) {
      DeliverKeeps(w, w');
    } else {
      var e :| Tells(w, w', e);
      TellKeeps(w, w', e);
    }
  }

  lemma {:induction false} RunKeeps(ws: seq<World>)
    requires Run(ws) && Start(ws[0])
    ensures WorldInv(ws[|ws| - 1])
  {
    var n := |ws| - 1;
    if n == 0 {
      FreshInv(ws[0].pump.log.window, ws[0].pump.log.clock);
    } else {
      RunKeeps(ws[..n]);
      StepKeeps(ws[n - 1], ws[n]);
    }
  }

  /** Once nothing is on its way, the consumer believes in exactly the paths of the last snapshot and
      has seen the state of each, however the events were coalesced. */
  lemma QuietMeansRight(ws: seq<World>)
    requires Run(ws) && Start(ws[0]) && Quiet(ws[|ws| - 1])
    ensures var w := ws[|ws| - 1]; w.believed == w.files.Keys && w.view == w.files
  {
    RunKeeps(ws);
    QuietAgrees(ws[|ws| - 1]);
  }

  lemma QuietAgrees(w: World)
    requires WorldInv(w) && Quiet(w)
    ensures w.believed == w.files.Keys && w.view == w.files
  {
    forall p ensures (p in w.believed <==> p in w.files) && (p in w.view <==> p in w.files) && (p in w.files ==> w.view[p] == w.files[p]) {
      assert Told(w, p);
    }
  }

  // ----- Quiet can always be reached -----

  lemma OldestCanPop(log: Log) returns (path: Path)
    requires Inv(log) && log.pending != map[]
    ensures path in log.pending && forall p :: p in log.pending ==> log.ReadyAt(path) <= log.ReadyAt(p)
  {
    var left := log.pending.Keys;
    path :| path in log.pending;
    while left != {}
      invariant left <= log.pending.Keys && path in log.pending
      invariant forall p :: p in log.pending && p !in left ==> log.ReadyAt(path) <= log.ReadyAt(p)
      decreases left
    {
      var p :| p in left;
      if log.ReadyAt(p) < log.ReadyAt(path) {
        path := p;
      }
      left := left - {p};
    }
  }

  function Backlog(w: World): nat {
    3 * |w.outbox| + 2 * |w.pump.channel| + |w.pump.log.pending|
  }

  /** One step towards quiet that is always possible. */
  lemma Towards(w: World) returns (w': World)
    requires WorldInv(w) && !Quiet(w)
    ensures Step(w, w') && w'.files == w.files && Backlog(w') < Backlog(w)
  {
    var pump := w.pump;
    if w.outbox != [] {
      w' := w.(outbox := w.outbox[1..], pump := pump.(channel := pump.channel + [w.outbox[0]]));
      assert Sends(w, w');
    } else if pump.channel != [] {
      w' := w.(pump := Pump(pump.channel[1..], Pushed(pump.log, pump.channel[0], pump.log.clock)));
      assert Delivers(w.pump, w'.pump);
      assert |w'.pump.log.pending| <= |pump.log.pending| + 1;
    } else {
      var path := OldestCanPop(pump.log);
      var now := if pump.log.ReadyAt(path) > pump.log.clock then pump.log.ReadyAt(path) else pump.log.clock;
      var e := pump.log.pushes[pump.log.pending[path]].event;
      assert e.path == path;
      w' := w.(pump := Pump(pump.channel, Popped(pump.log, path, now)),
               believed := Learn(w.believed, e), view := LookUp(w.view, w.files, e));
      assert Tells(w, w', e);
    }
  }

  /** From every reachable state, without another change, the system comes to rest with the consumer
      in agreement with the snapshot. */
  lemma {:induction false} ComesToRest(w: World) returns (ws: seq<World>)
    requires WorldInv(w)
    ensures Run(ws) && ws[0] == w && Quiet(ws[|ws| - 1])
    ensures var end := ws[|ws| - 1]; end.files == w.files && end.believed == w.files.Keys && end.view == w.files
    decreases Backlog(w)
  {
    if Quiet(w) {
      ws := [w];
      QuietAgrees(w);
    } else {
      var next := Towards(w);
      StepKeeps(w, next);
      var rest := ComesToRest(next);
      RunFrom(w, rest);
      ws := [w] + rest;
    }
  }

  lemma RunFrom(w: World, rest: seq<World>)
    requires Run(rest) && Step(w, rest[0])
    ensures Run([w] + rest)
  {
    var ws := [w] + rest;
    forall i | 0 <= i < |ws| - 1 ensures Step(ws[i], ws[i + 1]) {
      if i > 0 {
        assert ws[i] == rest[i - 1] && ws[i + 1] == rest[i];
      }
    }
  }

  // ----- When the backend goes away -----

  /** `recv` on a closed, empty channel when no event is ready: all pending events, each of them still
      inside its window at `now`, are thrown away. */
  ghost predicate Closes(a: Pump, b: Pump, now: nat) {
    && a.channel == [] && a.log.HasIndices() && a.log.clock <= now
    && (forall p :: p in a.log.pending ==> a.log.ReadyAt(p) > now)
    && b == Pump([], Fresh(a.log.window, a.log.clock))
  }

  /** What the consumer would have made of the pending event of a path. */
  ghost predicate WouldChange(w: World, p: Path)
    requires w.pump.log.HasIndices() && p in w.pump.log.pending
  {
    var e := w.pump.log.pushes[w.pump.log.pending[p]].event;
    Learn(w.believed, e) != w.believed || LookUp(w.view, w.files, e) != w.view
  }

  ghost predicate RightAbout(w: World, p: Path) {
    && (p in w.believed <==> p in w.files)
    && (p in w.view <==> p in w.files)
    && (p in w.files ==> w.view[p] == w.files[p])
  }

  lemma PendingRightIff(w: World, p: Path)
    requires Inv(w.pump.log) && Told(w, p) && Queue(w) == [] && p in w.pump.log.pending
    ensures RightAbout(w, p) <==> !WouldChange(w, p)
  {
    var e := w.pump.log.pushes[w.pump.log.pending[p]].event;
    assert e.path == p && Last(Queue(w), p) == None;
    if e.kind == Deleted {
      assert (w.believed - {p} == w.believed) <==> p !in w.believed;
      assert (w.view - {p} == w.view) <==> p !in w.view;
    } else {
      assert (w.believed + {p} == w.believed) <==> p in w.believed;
      assert (w.view[p := w.files[p]] == w.view) <==> p in w.view && w.view[p] == w.files[p];
    }
  }

  /** Then the consumer is right about all paths and their states if and only if no event thrown away
      would have changed what it believes or has seen. */
  lemma ClosedRightIff(w: World, b: Pump, now: nat)
    requires WorldInv(w) && w.outbox == [] && Closes(w.pump, b, now)
    ensures Quiet(w.(pump := b))
    ensures w.believed == w.files.Keys && w.view == w.files <==>
              forall p :: p in w.pump.log.pending ==> !WouldChange(w, p)
  {
    assert Queue(w) == [];
    forall p ensures RightAbout(w, p) <==> (p in w.pump.log.pending ==> !WouldChange(w, p)) {
      assert Told(w, p);
      if p in w.pump.log.pending {
        PendingRightIff(w, p);
      }
    }
    RightAboutAll(w);
  }

  lemma RightAboutAll(w: World)
    ensures w.believed == w.files.Keys && w.view == w.files <==> forall p :: RightAbout(w, p)
  {
    if forall p :: RightAbout(w, p) {
      forall p ensures (p in w.view <==> p in w.files) && (p in w.believed <==> p in w.files) && (p in w.files ==> w.view[p] == w.files[p]) {
        assert RightAbout(w, p);
      }
    }
  }

  /** The scanner sees one change and sends its event, and the watcher takes it in. */
  lemma OneEventRun(window: nat, e: FileEvent, before: Snapshot, after: Snapshot) returns (ws: seq<World>)
    requires IsDiff(before, after, [e])
    requires Start(World(before, [], Pump([], Fresh(window, 0)), before.Keys, before))
    ensures Run(ws) && Start(ws[0])
    ensures ws[|ws| - 1] == World(after, [], Pump([], Pushed(Fresh(window, 0), e, 0)), before.Keys, before)
  {
    var w0 := World(before, [], Pump([], Fresh(window, 0)), before.Keys, before);
    var w1 := w0.(files := after, outbox := [e]);
    assert Scans(w0, w1);
    var w2 := w1.(outbox := [], pump := Pump([e], Fresh(window, 0)));
    assert [e][1..] == [] && [] + [e] == [e] && Sends(w1, w2);
    var w3 := w2.(pump := Pump([], Pushed(Fresh(window, 0), e, 0)));
    assert Delivers(w2.pump, w3.pump);
    ws := [w0, w1, w2, w3];
  }

  /** When the backend goes away inside the window, that event is dropped. */
  lemma YoungEventDropped(window: nat, e: FileEvent)
    requires window > 0
    ensures Closes(Pump([], Pushed(Fresh(window, 0), e, 0)), Pump([], Fresh(window, 0)), 0)
  {
  }

  /** A run in which closure loses an event for good: a file appears, the scanner reports it, the
      watcher has the event, and the backend goes away inside the window. */
  lemma ClosureLosesEvent(window: nat, p: Path, state: FileState) returns (ws: seq<World>, b: Pump)
    requires window > 0
    ensures Run(ws) && Start(ws[0])
    ensures var w := ws[|ws| - 1];
            && Closes(w.pump, b, 0) && w.outbox == [] && Quiet(w.(pump := b))
            && w.files == map[p := state] && w.believed == {}
  {
    var e := FileEvent(Created, p);
    assert [e][0].path == p;
    ws := OneEventRun(window, e, map[], map[p := state]);
    YoungEventDropped(window, e);
    b := Pump([], Fresh(window, 0));
  }

  /** A run in which closure loses a modification: the consumer believes in exactly the right paths,
      and keeps the old state of the file. */
  lemma ClosureLosesModification(window: nat, p: Path, before: FileState, after: FileState) returns (ws: seq<World>, b: Pump)
    requires window > 0 && before != after
    ensures Run(ws) && Start(ws[0])
    ensures var w := ws[|ws| - 1];
            && Closes(w.pump, b, 0) && w.outbox == [] && Quiet(w.(pump := b))
            && w.believed == w.files.Keys && w.files == map[p := after] && w.view == map[p := before]
  {
    var e := FileEvent(Modified, p);
    assert [e][0].path == p;
    ws := OneEventRun(window, e, map[p := before], map[p := after]);
    YoungEventDropped(window, e);
    b := Pump([], Fresh(window, 0));
  }

  // ----- The watcher -----

  /** The states a pump went through while events were only taken out of the channel. */
  ghost predicate Pumped(trace: seq<Pump>) {
    trace != [] && forall i :: 0 <= i < |trace| - 1 ==> Delivers(trace[i], trace[i + 1])
  }

  ghost predicate Pumps(a: Pump, trace: seq<Pump>, b: Pump) {
    Pumped(trace) && trace[0] == a && trace[|trace| - 1] == b
  }

  lemma PumpsOn(a: Pump, trace: seq<Pump>, b: Pump, c: Pump)
    requires Pumps(a, trace, b) && Delivers(b, c)
    ensures Pumps(a, trace + [c], c)
  {
  }

  /** The events of a channel reach the debouncer in their order, none is dropped. */
  lemma {:induction false} PumpedAll(trace: seq<Pump>)
    requires Pumped(trace)
    ensures var a, b, n := trace[0], trace[|trace| - 1], |trace| - 1;
            && n <= |a.channel| && b.channel == a.channel[n..]
            && |b.log.pushes| == |a.log.pushes| + n && a.log.pushes <= b.log.pushes
            && forall i :: 0 <= i < n ==> b.log.pushes[|a.log.pushes| + i].event == a.channel[i]
  {
    var n := |trace| - 1;
    if n == 0 {
    } else {
      PumpedAll(trace[..n]);
      assert Delivers(trace[n - 1], trace[n]);
    }
  }

  /** After `round` looks without an event, each took one event out of the channel while it held any. */
  ghost predicate Looked(a: Pump, trace: seq<Pump>, b: Pump, round: nat) {
    && Pumps(a, trace, b)
    && |trace| - 1 == (if round < |a.channel| then round else |a.channel|)
    && |b.channel| == |a.channel| - (|trace| - 1)
  }

  lemma LookedOn(a: Pump, trace: seq<Pump>, b: Pump, c: Pump, round: nat)
    requires Looked(a, trace, b, round) && Delivers(b, c)
    ensures Looked(a, trace + [c], c, round + 1) && round < |a.channel|
  {
    PumpsOn(a, trace, b, c);
  }

  lemma YoungIn(log: Log, pending: map<Path, Entry>, now: nat)
    requires log.HasIndices() && pending == Entries(log) && AllYoung(pending, now)
    ensures forall p :: p in log.pending ==> log.ReadyAt(p) > now
  {
    forall p | p in log.pending ensures log.ReadyAt(p) > now {
      assert p in pending;
    }
  }

  class MediaWatcher {
    /** What the backend has sent and the watcher has not yet taken, and whether the backend is gone. */
    var channel: seq<FileEvent>
    var closed: bool
    const debouncer: EventDebouncer
    /** The current time. */
    var now: nat

    ghost predicate Valid() reads this, debouncer {
      debouncer.Valid() && debouncer.log.clock <= now
    }

    ghost function View(): Pump reads this, debouncer { Pump(channel, debouncer.log) }

    constructor (window: nat, now: nat)
      ensures Valid() && channel == [] && !closed && View() == Pump([], Fresh(window, now)) && fresh(debouncer)
    {
      this.now, channel, closed := now, [], false;
      debouncer := new EventDebouncer(window, now);
    }

    /** Reading the clock takes time. */
    method Tick()
      modifies this`now
      ensures now >= old(now)
    {
      var later :| later >= now;
      now := later;
    }

    method Deliver()
      requires Valid() && channel != []
      modifies this`channel, this`now, debouncer
      ensures Valid() && Delivers(old(View()), View())
    {
      Tick();
      debouncer.Push(channel[0], now);
      channel := channel[1..];
    }

    method Surface() returns (event: Option<FileEvent>)
      requires Valid()
      modifies this`now, debouncer
      ensures Valid()
      ensures now >= old(now)
      ensures event.Some? ==> Surfaces(old(View()), View(), event.value) && debouncer.log.clock == now
      ensures event == None ==>
                View() == old(View()) && debouncer.pending == old(debouncer.pending) && AllYoung(debouncer.pending, now)
    {
      Tick();
      event := debouncer.PopReady(now);
    }

    /** Takes everything out of the channel; then at most one event comes out. If the backend is
        gone the pending events stay where they are. `trace` is what the pump went through. */
    method TryRecv() returns (result: Result<Option<FileEvent>>, ghost trace: seq<Pump>)
      requires Valid()
      modifies this`channel, this`now, debouncer
      ensures Valid() && channel == [] && Pumped(trace) && trace[0] == old(View())
      ensures match result
              case Err => closed && View() == trace[|trace| - 1]
              case Ok(None) => !closed && View() == trace[|trace| - 1]
              case Ok(Some(event)) => !closed && Surfaces(trace[|trace| - 1], View(), event)
      ensures result == Ok(None) ==> AllYoung(debouncer.pending, now)
    {
      trace := [View()];
      while channel != []
        invariant Valid() && Pumps(old(View()), trace, View())
        decreases |channel|
      {
        ghost var before := View();
        Deliver();
        PumpsOn(old(View()), trace, before, View());
        trace := trace + [View()];
      }
      if closed {
        return Err, trace;
      }
      var event := Surface();
      result := Ok(event);
    }

    /** The backend is gone: an event that is ready still comes out; if none is, and only then,
        everything pending is dropped. */
    method Close() returns (event: Option<FileEvent>)
      requires Valid() && channel == []
      modifies this`now, debouncer
      ensures Valid() && now >= old(now)
      ensures event == None <==> AllYoung(old(debouncer.pending), now)
      ensures event.Some? ==> Surfaces(old(View()), View(), event.value)
      ensures event == None ==> Closes(old(View()), View(), now)
    {
      ghost var before, held := debouncer.log, debouncer.pending;
      event := Surface();
      if event == None {
        YoungIn(before, held, now);
        var lost, entries := debouncer.Flush();
      } else {
        assert held[event.value.path].readyAt <= now;
      }
    }

    /** One round of `Recv`: an event if one is ready, or else the next one out of the channel. */
    method Round() returns (event: Option<FileEvent>, delivered: bool)
      requires Valid()
      modifies this`channel, this`now, debouncer
      ensures Valid()
      ensures event.Some? ==> Surfaces(old(View()), View(), event.value)
      ensures event == None ==> if delivered then Delivers(old(View()), View()) else View() == old(View()) && channel == []
      ensures event == None ==> (delivered <==> old(channel) != [])
      ensures event == None ==> AllYoung(old(debouncer.pending), old(now))
    {
      event := Surface();
      delivered := false;
      if event == None && channel != [] {
        Deliver();
        delivered := true;
      }
    }

    /** Blocks until an event is ready; `patience` bounds how often it looks. It fails only on a closed
        backend with no event ready, and then loses what is pending. */
    method Recv(patience: nat) returns (result: Result<Option<FileEvent>>, ghost trace: seq<Pump>)
      requires Valid()
      modifies this`channel, this`now, debouncer
      ensures Valid() && Pumped(trace) && trace[0] == old(View())
      ensures match result
              case Ok(Some(event)) => Surfaces(trace[|trace| - 1], View(), event)
              case Ok(None) => View() == trace[|trace| - 1]
              case Err => closed && Closes(trace[|trace| - 1], View(), now)
      ensures closed && patience > |old(channel)| ==> result != Ok(None)
      ensures result == Ok(None) ==> |trace| - 1 == if patience < |old(channel)| then patience else |old(channel)|
      ensures result == Ok(None) && patience > 0 ==> AllYoung(old(debouncer.pending), old(now))
    {
      ghost var start, held, began := View(), debouncer.pending, now;
      trace := [start];
      for round := 0 to patience
        invariant Valid() && Looked(start, trace, View(), round)
        invariant closed ==> round <= |start.channel|
        invariant if round == 0 then debouncer.pending == held && now == began else AllYoung(held, began)
      {
        ghost var before := View();
        var event, delivered := Round();
        if event.Some? {
          return Ok(event), trace;
        }
        if delivered {
          LookedOn(start, trace, before, View(), round);
          trace := trace + [View()];
        } else if closed {
          event := Close();
          return if event.Some? then Ok(event) else Err, trace;
        }
      }
      result := Ok(None);
    }
  }
}
