/** The worker daemons composed with the server: one tick loop per node, any number of runJob goroutines, requests that
    may be lost before or after the server processed them, and pollers that read the stored logs.
    The container runner is an arbitrary step: a run may end at any time with any result. */
module Agents {
  import opened Types
  import opened JobStatuses
  import opened JobLogs
  import opened Pumps
  import opened Handlers
  import opened Invariants

  // ---------------------------------------------------------------- state

  /** Where the tick loop is. Looked holds what it copied under the mutex: the busy flag and the cancel function. */
  datatype Loop =
    | Sleeping
    | Beat(target: Option<JobId>)
    | Looked(busy: bool, target: Option<JobId>, cancel: Option<nat>)

  /** The daemon's fields; a cancel function is named by the goroutine whose context it cancels. */
  datatype Daemon = Daemon(loop: Loop, runningId: Option<JobId>, cancelRun: Option<nat>)

  const NEW_DAEMON := Daemon(Sleeping, None, None)

  datatype Context = Live | Expired | Canceled

  /** Where a runJob goroutine is. InRun: inside runner.Run. Ending: complete was called, the deferred resets are due. */
  datatype Phase =
    | Spawned
    | Entered
    | InRun
    | Returned(code: int)
    | Reporting(code: int)
    | Ending
    | Gone

  datatype Goroutine = Goroutine(
    node: NodeId,
    job: JobId,
    phase: Phase,
    context: Context,
    cut: bool,               // the daemon called cancel() while the run had not returned
    pump: Pump,
    lines: seq<LogEntry>)    // every line emitted

  datatype Batch = Batch(run: nat, entries: seq<LogEntry>)

  datatype World = World(
    server: Server,
    daemons: map<NodeId, Daemon>,
    runs: seq<Goroutine>,
    net: set<Batch>,                     // every batch posted; each may arrive any number of times, or never
    seen: map<JobId, seq<LogEntry>>)    // what the poller of a job has read so far

  function DaemonOf(w: World, n: NodeId): Daemon { if n in w.daemons then w.daemons[n] else NEW_DAEMON }

  function ReadOf(w: World, j: JobId): seq<LogEntry> { if j in w.seen then w.seen[j] else [] }

  // ---------------------------------------------------------------- the daemon's atomic blocks

  /** Copying the fields under the mutex, after a heartbeat answered with target. */
  function Look(d: Daemon): Daemon
    requires d.loop.Beat?
  {
    d.(loop := Looked(d.runningId.Some?, d.loop.target, d.cancelRun))
  }

  function Sleep(d: Daemon): Daemon { d.(loop := Sleeping) }

  function Enter(d: Daemon, j: JobId, run: nat): Daemon { d.(runningId := Some(j), cancelRun := Some(run)) }

  /** The deferred reset; it does not look whose run the fields name. */
  function Leave(d: Daemon): Daemon { d.(runningId := None, cancelRun := None) }

  predicate Returnable(p: Phase) { p == Spawned || p == Entered || p == InRun }

  /** Calling a goroutine's cancel function. */
  function CancelContext(g: Goroutine): Goroutine {
    if g.context == Live then g.(context := Canceled, cut := g.cut || Returnable(g.phase)) else g
  }

  /** An error of the runner is never reported as exit code 0. */
  function ExitOfRun(code: int, failed: bool): int { if failed && code == 0 then 1 else code }

  /** A run whose context was cancelled is reported as -1. */
  function ExitOfReport(g: Goroutine, code: int): int { if g.context == Canceled then -1 else code }

  // ---------------------------------------------------------------- steps

  datatype Step =
    | Outside(request: Request)                          // a user's or administrator's request
    | HeartbeatOk(node: NodeId, now: Time)
    | HeartbeatLost(node: NodeId, now: Time)             // processed, response lost
    | LookAround(node: NodeId)
    | ActBusy(node: NodeId)                              // cancels if told to, and ends the tick
    | ClaimOk(node: NodeId, now: Time)
    | ClaimLost(node: NodeId, now: Time)                 // processed, response lost
    | ClaimFailed(node: NodeId)                          // never processed
    | EnterRun(run: nat)
    | StartRun(run: nat)
    | EndRun(run: nat, code: int, failed: bool)
    | Report(run: nat)
    | CompleteOk(run: nat, now: Time, now2: Time)        // processed; the daemon ignores the response
    | CompleteFailed(run: nat)                           // never processed
    | LeaveRun(run: nat)
    | Expire(run: nat)                                   // the max_duration timeout
    | Emit(run: nat, stream: Stream, content: string)
    | Flush(run: nat)
    | Deliver(batch: Batch)
    | Poll(job: JobId, limit: nat)

  predicate FromAgent(r: Request) { r.ReqHeartbeat? || r.ReqClaim? || r.ReqComplete? || r.ReqPushLogs? }

  ghost predicate Enabled(w: World, step: Step) {
    match step
    case Outside(r) => !FromAgent(r)
    case HeartbeatOk(n, now) => DaemonOf(w, n).loop.Sleeping? && n in w.server.nodes
    case HeartbeatLost(n, now) => DaemonOf(w, n).loop.Sleeping? && n in w.server.nodes
    case LookAround(n) => DaemonOf(w, n).loop.Beat?
    case ActBusy(n) => DaemonOf(w, n).loop.Looked? && DaemonOf(w, n).loop.busy
    case ClaimOk(n, now) => DaemonOf(w, n).loop.Looked? && !DaemonOf(w, n).loop.busy
    case ClaimLost(n, now) => DaemonOf(w, n).loop.Looked? && !DaemonOf(w, n).loop.busy
    case ClaimFailed(n) => DaemonOf(w, n).loop.Looked? && !DaemonOf(w, n).loop.busy
    case EnterRun(g) => g < |w.runs| && w.runs[g].phase == Spawned
    case StartRun(g) => g < |w.runs| && w.runs[g].phase == Entered
    case EndRun(g, code, failed) => g < |w.runs| && w.runs[g].phase == InRun
    case Report(g) => g < |w.runs| && w.runs[g].phase.Returned?
    case CompleteOk(g, now, now2) => g < |w.runs| && w.runs[g].phase.Reporting?
    case CompleteFailed(g) => g < |w.runs| && w.runs[g].phase.Reporting?
    case LeaveRun(g) => g < |w.runs| && w.runs[g].phase == Ending
    case Expire(g) => g < |w.runs| && w.runs[g].context == Live
    case Emit(g, stream, content) => g < |w.runs| && Active(w.runs[g]) && w.runs[g].phase != Spawned
    case Flush(g) => g < |w.runs| && w.runs[g].phase != Spawned
    case Deliver(b) => b in w.net && b.run < |w.runs|
    case Poll(j, limit) => true
  }

  function WithDaemon(w: World, n: NodeId, d: Daemon): World { w.(daemons := w.daemons[n := d]) }

  function WithRun(w: World, g: nat, r: Goroutine): World
    requires g < |w.runs|
  {
    w.(runs := w.runs[g := r])
  }

  function WithPhase(w: World, g: nat, p: Phase): World
    requires g < |w.runs|
  {
    WithRun(w, g, w.runs[g].(phase := p))
  }

  function Spawn(n: NodeId, j: JobId): Goroutine { Goroutine(n, j, Spawned, Live, false, EMPTY_PUMP, []) }

  /** The sequence number a poller asks to read after. */
  function CursorOf(read: seq<LogEntry>): int { if read == [] then -1 else read[|read| - 1].sequence }

  ghost function Next(w: World, step: Step): World
    requires Enabled(w, step)
  {
    match step
    case Outside(r) => w.(server := Handle(w.server, r))
    case HeartbeatOk(n, now) =>
      var o := Heartbeat(w.server, n, now);
      WithDaemon(w.(server := o.server), n, DaemonOf(w, n).(loop := Beat(o.value)))
    case HeartbeatLost(n, now) => w.(server := Handle(w.server, ReqHeartbeat(n, now)))
    case LookAround(n) => WithDaemon(w, n, Look(DaemonOf(w, n)))
    case ActBusy(n) =>
      var l := DaemonOf(w, n).loop;
      var w' := if l.target.Some? && l.cancel.Some? && l.cancel.value < |w.runs|
                then WithRun(w, l.cancel.value, CancelContext(w.runs[l.cancel.value])) else w;
      WithDaemon(w', n, Sleep(DaemonOf(w, n)))
    case ClaimOk(n, now) =>
      var o := Claim(w.server, n, now);
      var w' := WithDaemon(w.(server := Commit(w.server, o)), n, Sleep(DaemonOf(w, n)));
      if o.Ok? && o.value.Some? then w'.(runs := w.runs + [Spawn(n, o.value.value)]) else w'
    case ClaimLost(n, now) =>
      WithDaemon(w.(server := Handle(w.server, ReqClaim(n, now))), n, Sleep(DaemonOf(w, n)))
    case ClaimFailed(n) => WithDaemon(w, n, Sleep(DaemonOf(w, n)))
    case EnterRun(g) =>
      WithDaemon(WithPhase(w, g, Entered), w.runs[g].node, Enter(DaemonOf(w, w.runs[g].node), w.runs[g].job, g))
    case StartRun(g) => WithPhase(w, g, InRun)
    case EndRun(g, code, failed) => WithPhase(w, g, Returned(ExitOfRun(code, failed)))
    case Report(g) => WithPhase(w, g, Reporting(ExitOfReport(w.runs[g], w.runs[g].phase.code)))
    case CompleteOk(g, now, now2) =>
      var r := ReqComplete(w.runs[g].node, w.runs[g].job, w.runs[g].phase.code, now, now2);
      WithPhase(w.(server := Handle(w.server, r)), g, Ending)
    case CompleteFailed(g) => WithPhase(w, g, Ending)
    case LeaveRun(g) =>
      WithDaemon(WithRun(w, g, CancelContext(w.runs[g].(phase := Gone))), w.runs[g].node, Leave(DaemonOf(w, w.runs[g].node)))
    case Expire(g) => WithRun(w, g, w.runs[g].(context := Expired))
    case Emit(g, stream, content) =>
      var r := w.runs[g];
      WithRun(w, g, r.(pump := Emitted(r.pump, stream, content), lines := History(r.lines, r.pump, stream, content)))
    case Flush(g) =>
      if w.runs[g].pump.buf == [] then w
      else WithRun(w.(net := w.net + {Batch(g, w.runs[g].pump.buf)}), g, w.runs[g].(pump := Flushed(w.runs[g].pump)))
    case Deliver(b) =>
      w.(server := Handle(w.server, ReqPushLogs(w.runs[b.run].node, w.runs[b.run].job, b.entries)))
    case Poll(j, limit) =>
      w.(seen := w.seen[j := ReadOf(w, j) + ListAfter(LogOf(w.server, j), CursorOf(ReadOf(w, j)), limit)])
  }

  // ---------------------------------------------------------------- invariant

  /** A goroutine that has not yet called complete. */
  predicate Active(g: Goroutine) { g.phase != Ending && g.phase != Gone }

  ghost predicate Marked(s: Server, j: JobId) { j in s.jobs && s.jobs[j].cancelAt.Some? }

  /** A goroutine's job was given to its node, and as long as it is active the server holds it as running there. */
  ghost predicate Backed(s: Server, g: Goroutine) {
    && g.job in s.jobs && s.jobs[g.job].startedAt.Some?
    && (Active(g) ==> RunsOn(s.jobs[g.job], g.node))
    && (g.cut || (g.context == Canceled && Active(g)) ==> Marked(s, g.job))
  }

  ghost predicate RunsBacked(w: World) { forall g :: 0 <= g < |w.runs| ==> Backed(w.server, w.runs[g]) }

  /** No job is ever run twice. */
  ghost predicate JobsDistinct(w: World) {
    forall g, h :: 0 <= g < |w.runs| && 0 <= h < |w.runs| && w.runs[g].job == w.runs[h].job ==> g == h
  }

  function TargetOf(l: Loop): Option<JobId> {
    match l
    case Sleeping => None
    case Beat(target) => target
    case Looked(busy, target, cancel) => target
  }

  ghost predicate RefOk(w: World, n: NodeId, r: Option<nat>) {
    r.Some? ==> r.value < |w.runs| && w.runs[r.value].node == n
  }

  /** Job id and cancel function are installed and cleared together, and copied together. */
  predicate Paired(d: Daemon) {
    && (d.runningId.Some? <==> d.cancelRun.Some?)
    && (d.loop.Looked? ==> (d.loop.busy <==> d.loop.cancel.Some?))
  }

  /** Once a tick was told to cancel, every active run of its node has a cancel mark, whichever run it is. */
  ghost predicate DaemonOk(w: World, n: NodeId, d: Daemon) {
    && Paired(d)
    && RefOk(w, n, d.cancelRun)
    && (d.loop.Looked? ==> RefOk(w, n, d.loop.cancel))
    && (TargetOf(d.loop).Some? ==>
        forall g :: 0 <= g < |w.runs| && w.runs[g].node == n && Active(w.runs[g]) ==> Marked(w.server, w.runs[g].job))
  }

  ghost predicate DaemonsOk(w: World) { forall n :: n in w.daemons ==> DaemonOk(w, n, w.daemons[n]) }

  ghost predicate PumpsOk(w: World) {
    && (forall g :: 0 <= g < |w.runs| ==> Tracks(w.runs[g].pump, w.runs[g].lines))
    && (forall b :: b in w.net ==> b.run < |w.runs| && CutFrom(b.entries, w.runs[b.run].lines))
  }

  ghost predicate StoredFrom(w: World, j: JobId, g: int) {
    0 <= g < |w.runs| && w.runs[g].job == j && Faithful(LogOf(w.server, j), w.runs[g].lines)
  }

  /** What is stored for a job are lines of the one goroutine that ran it. */
  ghost predicate StoresOk(w: World) { forall j :: j in w.server.logs ==> exists g :: StoredFrom(w, j, g) }

  /** What a poller has read is stored, and ascending. */
  ghost predicate ReadOk(s: Server, j: JobId, read: seq<LogEntry>) {
    Ascending(read) && forall r :: r in read ==> r.sequence in LogOf(s, j) && LogOf(s, j)[r.sequence] == r
  }

  ghost predicate ReadsOk(w: World) { forall j :: j in w.seen ==> ReadOk(w.server, j, w.seen[j]) }

  ghost predicate Control(w: World) { Inv(w.server) && RunsBacked(w) && JobsDistinct(w) && DaemonsOk(w) }

  ghost predicate Logging(w: World) { PumpsOk(w) && StoresOk(w) && ReadsOk(w) }

  // ---------------------------------------------------------------- the server moves, the agents stay

  /** A request other than the completion of an active run's job keeps the agents backed. */
  lemma ServerMoves(w: World, r: Request)
    requires Control(w)
    requires !r.ReqComplete? || forall g :: 0 <= g < |w.runs| && w.runs[g].job == r.job ==> !Active(w.runs[g])
    ensures Control(w.(server := Handle(w.server, r)))
  {
    var w' := w.(server := Handle(w.server, r));
    InvStep(w.server, r);
    forall g | 0 <= g < |w.runs| ensures Backed(w'.server, w.runs[g]) {
      KeepsBacked(w.server, r, w.runs[g]);
    }
    forall n | n in w.daemons ensures DaemonOk(w', n, w.daemons[n]) {
      forall g | 0 <= g < |w.runs| ensures Marked(w.server, w.runs[g].job) ==> Marked(w'.server, w.runs[g].job) {
        assert Backed(w.server, w.runs[g]);
        RowStep(w.server, r, w.runs[g].job);
      }
    }
  }

  lemma KeepsBacked(s: Server, r: Request, g: Goroutine)
    requires Inv(s) && Backed(s, g)
    requires r.ReqComplete? && r.job == g.job ==> !Active(g)
    ensures Backed(Handle(s, r), g)
  {
    hide Handle, Inv;
    RowStep(s, r, g.job);
  }

  lemma HeartbeatIsSilent(s: Server, n: NodeId, now: Time)
    requires n in s.nodes
    ensures Handle(s, ReqHeartbeat(n, now)) == RecordHeartbeat(s, n, now)
    ensures RecordHeartbeat(s, n, now).jobs == s.jobs
  {}

  /** The heartbeat names the node's one running job, so every active run of the node is that job's. */
  lemma TargetMarksActive(w: World, n: NodeId, now: Time, g: nat)
    requires Control(w) && n in w.server.nodes && Heartbeat(w.server, n, now).value.Some?
    requires g < |w.runs| && w.runs[g].node == n && Active(w.runs[g])
    ensures Marked(w.server, w.runs[g].job)
  {}

  lemma ControlHeartbeat(w: World, n: NodeId, now: Time)
    requires Control(w) && Enabled(w, HeartbeatOk(n, now))
    ensures Control(Next(w, HeartbeatOk(n, now)))
  {
    HeartbeatIsSilent(w.server, n, now);
    ServerMoves(w, ReqHeartbeat(n, now));
    var w1, w' := w.(server := RecordHeartbeat(w.server, n, now)), Next(w, HeartbeatOk(n, now));
    if TargetOf(w'.daemons[n].loop).Some? {
      forall g | 0 <= g < |w.runs| && w.runs[g].node == n && Active(w.runs[g]) ensures Marked(w'.server, w.runs[g].job) {
        TargetMarksActive(w, n, now, g);
      }
    }
    DaemonReplaced(w1, n, w'.daemons[n]);
  }

  lemma DaemonReplaced(w: World, n: NodeId, d: Daemon)
    requires Control(w) && DaemonOk(w, n, d)
    ensures Control(WithDaemon(w, n, d))
  {}

  /** Replacing a goroutine by one that is no more active and still backed. */
  lemma RunReplaced(w: World, g: nat, r: Goroutine)
    requires Control(w) && g < |w.runs|
    requires r.node == w.runs[g].node && r.job == w.runs[g].job && (Active(r) ==> Active(w.runs[g])) && Backed(w.server, r)
    ensures Control(WithRun(w, g, r))
  {}

  lemma ControlClaim(w: World, n: NodeId, now: Time)
    requires Control(w) && Enabled(w, ClaimOk(n, now))
    ensures Control(Next(w, ClaimOk(n, now)))
  {
    ServerMoves(w, ReqClaim(n, now));
    var w1 := w.(server := Handle(w.server, ReqClaim(n, now)));
    DaemonIsOk(w1, n);
    DaemonReplaced(w1, n, Sleep(DaemonOf(w, n)));
    var o := Claim(w.server, n, now);
    if o.Ok? && o.value.Some? {
      var j := o.value.value;
      assert RowOk(w.server.users, w.server.nodes, w.server.jobs[j]);
      forall g | 0 <= g < |w.runs| ensures w.runs[g].job != j { assert Backed(w.server, w.runs[g]); }
      RunSpawned(WithDaemon(w1, n, Sleep(DaemonOf(w, n))), Spawn(n, j));
    }
  }

  lemma DaemonIsOk(w: World, n: NodeId)
    requires DaemonsOk(w)
    ensures DaemonOk(w, n, DaemonOf(w, n))
  {}

  lemma RunSpawned(w: World, r: Goroutine)
    requires Control(w) && Backed(w.server, r)
    requires forall g :: 0 <= g < |w.runs| ==> w.runs[g].job != r.job
    requires TargetOf(DaemonOf(w, r.node).loop) == None
    ensures Control(w.(runs := w.runs + [r]))
  {}

  lemma ControlCancel(w: World, n: NodeId)
    requires Control(w) && Enabled(w, ActBusy(n))
    ensures Control(Next(w, ActBusy(n)))
  {
    DaemonIsOk(w, n);
    var d := DaemonOf(w, n);
    var c := d.loop.cancel;
    if d.loop.target.Some? && c.Some? && c.value < |w.runs| {
      var g := w.runs[c.value];
      assert Backed(w.server, g);
      RunReplaced(w, c.value, CancelContext(g));
      var w1 := WithRun(w, c.value, CancelContext(g));
      DaemonIsOk(w1, n);
      DaemonReplaced(w1, n, Sleep(d));
    } else {
      DaemonReplaced(w, n, Sleep(d));
    }
  }

  lemma ControlComplete(w: World, g: nat, now: Time, now2: Time)
    requires Control(w) && Enabled(w, CompleteOk(g, now, now2))
    ensures Control(Next(w, CompleteOk(g, now, now2)))
  {
    assert Backed(w.server, w.runs[g]);
    RunReplaced(w, g, w.runs[g].(phase := Ending));
    ServerMoves(WithPhase(w, g, Ending), ReqComplete(w.runs[g].node, w.runs[g].job, w.runs[g].phase.code, now, now2));
  }

  lemma ControlPhase(w: World, g: nat, p: Phase)
    requires Control(w) && g < |w.runs| && (p != Ending && p != Gone ==> Active(w.runs[g]))
    ensures Control(WithPhase(w, g, p))
  {
    assert Backed(w.server, w.runs[g]);
    RunReplaced(w, g, w.runs[g].(phase := p));
  }

  /** The mutex-guarded assignments at the start and at the end of runJob. */
  lemma ControlDaemon(w: World, g: nat, entering: bool)
    requires Control(w) && g < |w.runs|
    ensures var n := w.runs[g].node; var d := DaemonOf(w, n);
      Control(WithDaemon(w, n, if entering then Enter(d, w.runs[g].job, g) else Leave(d)))
  {
    var n := w.runs[g].node;
    DaemonIsOk(w, n);
    DaemonReplaced(w, n, if entering then Enter(DaemonOf(w, n), w.runs[g].job, g) else Leave(DaemonOf(w, n)));
  }

  lemma ControlRun(w: World, g: nat, r: Goroutine)
    requires Control(w) && g < |w.runs|
    requires r.node == w.runs[g].node && r.job == w.runs[g].job && r.phase == w.runs[g].phase && r.cut == w.runs[g].cut
    requires r.context == w.runs[g].context || r.context == Expired
    ensures Control(WithRun(w, g, r))
  {
    assert Backed(w.server, w.runs[g]);
    RunReplaced(w, g, r);
  }

  lemma ControlNet(w: World, net: set<Batch>, seen: map<JobId, seq<LogEntry>>)
    requires Control(w)
    ensures Control(w.(net := net, seen := seen))
  {}

  lemma ControlLeave(w: World, g: nat)
    requires Control(w) && Enabled(w, LeaveRun(g))
    ensures Control(Next(w, LeaveRun(g)))
  {
    var r := CancelContext(w.runs[g].(phase := Gone));
    assert Backed(w.server, r) by { assert Backed(w.server, w.runs[g]); }
    hide Control, Backed;
    RunReplaced(w, g, r);
    ControlDaemon(WithRun(w, g, r), g, false);
  }

  /** Every step of server, daemons, goroutines and network keeps control. */
  lemma ControlStep(w: World, step: Step)
    requires Control(w) && Enabled(w, step)
    ensures Control(Next(w, step))
  {
    hide Control, DaemonsOk, Backed, RunsBacked, Handle;
    match step
    case Outside(r) => ServerMoves(w, r);
    case HeartbeatOk(n, now) => ControlHeartbeat(w, n, now);
    case HeartbeatLost(n, now) => ServerMoves(w, ReqHeartbeat(n, now));
    case LookAround(n) => ControlLoop(w, n, Look(DaemonOf(w, n)));
    case ActBusy(n) => ControlCancel(w, n);
    case ClaimOk(n, now) => ControlClaim(w, n, now);
    case ClaimLost(n, now) =>
      ServerMoves(w, ReqClaim(n, now));
      ControlLoop(w.(server := Handle(w.server, ReqClaim(n, now))), n, Sleep(DaemonOf(w, n)));
    case ClaimFailed(n) => ControlLoop(w, n, Sleep(DaemonOf(w, n)));
    case EnterRun(g) => ControlPhase(w, g, Entered); ControlDaemon(WithPhase(w, g, Entered), g, true);
    case StartRun(g) => ControlPhase(w, g, InRun);
    case EndRun(g, code, failed) => ControlPhase(w, g, Returned(ExitOfRun(code, failed)));
    case Report(g) => ControlPhase(w, g, Reporting(ExitOfReport(w.runs[g], w.runs[g].phase.code)));
    case CompleteOk(g, now, now2) => ControlComplete(w, g, now, now2);
    case CompleteFailed(g) => ControlPhase(w, g, Ending);
    case LeaveRun(g) => ControlLeave(w, g);
    case Expire(g) => ControlRun(w, g, Next(w, step).runs[g]);
    case Emit(g, stream, content) => ControlRun(w, g, Next(w, step).runs[g]);
    case Flush(g) =>
      var r := Next(w, step).runs[g];
      ControlRun(w, g, r);
      ControlNet(WithRun(w, g, r), Next(w, step).net, w.seen);
    case Deliver(b) => ServerMoves(w, ReqPushLogs(w.runs[b.run].node, w.runs[b.run].job, b.entries));
    case Poll(j, limit) => ControlNet(w, w.net, Next(w, step).seen);
  }

  /** The loop copies its daemon's fields, or goes back to sleep. */
  lemma ControlLoop(w: World, n: NodeId, d: Daemon)
    requires Control(w) && (d == Sleep(DaemonOf(w, n)) || (DaemonOf(w, n).loop.Beat? && d == Look(DaemonOf(w, n))))
    ensures Control(WithDaemon(w, n, d))
  {}
}
