/** What holds over every interleaving of server, daemons, goroutines and network. */
module AgentRuns {
  import opened Types
  import opened JobStatuses
  import opened JobLogs
  import opened Pumps
  import opened Handlers
  import opened Invariants
  import opened Agents

  // ---------------------------------------------------------------- logging

  ghost predicate LogsGrow(s: Server, s': Server) {
    forall j, k :: k in LogOf(s, j) ==> k in LogOf(s', j) && LogOf(s', j)[k] == LogOf(s, j)[k]
  }

  lemma ClaimLeavesLogs(s: Server, n: NodeId, now: Time)
    ensures Commit(s, Claim(s, n, now)).logs == s.logs
  {}

  lemma ReadStays(s: Server, s': Server, j: JobId, read: seq<LogEntry>)
    requires ReadOk(s, j, read) && LogsGrow(s, s')
    ensures ReadOk(s', j, read)
  {}

  /** Lines may be added to a goroutine, goroutines may be added: what was stored stays faithful. */
  ghost predicate HistoriesGrow(w: World, w': World) {
    && |w.runs| <= |w'.runs|
    && forall g :: 0 <= g < |w.runs| ==> w'.runs[g].job == w.runs[g].job && w.runs[g].lines <= w'.runs[g].lines
  }

  lemma StoresStay(w: World, w': World)
    requires StoresOk(w) && HistoriesGrow(w, w') && w'.server.logs == w.server.logs
    ensures StoresOk(w')
  {
    forall j | j in w'.server.logs ensures exists g :: StoredFrom(w', j, g) {
      var g :| StoredFrom(w, j, g);
      assert StoredFrom(w', j, g);
    }
  }

  lemma NetStays(w: World, w': World)
    requires PumpsOk(w) && HistoriesGrow(w, w') && w'.net == w.net
    ensures forall b :: b in w'.net ==> b.run < |w'.runs| && CutFrom(b.entries, w'.runs[b.run].lines)
  {}

  /** Steps that touch neither pumps, batches, stored lines nor reads. */
  lemma LoggingQuiet(w: World, w': World)
    requires Logging(w) && HistoriesGrow(w, w') && w'.server.logs == w.server.logs && w'.net == w.net && w'.seen == w.seen
    requires forall g :: 0 <= g < |w'.runs| ==> Tracks(w'.runs[g].pump, w'.runs[g].lines)
    ensures Logging(w')
  {
    StoresStay(w, w');
    NetStays(w, w');
    forall j | j in w'.seen ensures ReadOk(w'.server, j, w'.seen[j]) {
      ReadStays(w.server, w'.server, j, w.seen[j]);
    }
  }

  lemma LoggingEmit(w: World, g: nat, stream: Stream, content: string)
    requires Logging(w) && Enabled(w, Emit(g, stream, content))
    ensures Logging(Next(w, Emit(g, stream, content)))
  {
    EmitTracks(w.runs[g].pump, w.runs[g].lines, stream, content);
    LoggingQuiet(w, Next(w, Emit(g, stream, content)));
  }

  lemma LoggingFlush(w: World, g: nat)
    requires Logging(w) && Enabled(w, Flush(g))
    ensures Logging(Next(w, Flush(g)))
  {
    BufferIsCut(w.runs[g].pump, w.runs[g].lines);
    var w' := Next(w, Flush(g));
    StoresStay(w, w');
    forall j | j in w'.seen ensures ReadOk(w'.server, j, w'.seen[j]) {
      ReadStays(w.server, w'.server, j, w.seen[j]);
    }
  }

  lemma AppendGrows(s: Server, n: NodeId, j: JobId, entries: seq<LogEntry>)
    ensures var s' := Handle(s, ReqPushLogs(n, j, entries));
      && LogsGrow(s, s')
      && (forall k :: k != j ==> LogOf(s', k) == LogOf(s, k))
      && (LogOf(s', j) == LogOf(s, j) || LogOf(s', j) == Insert(LogOf(s, j), entries))
      && s'.logs.Keys <= s.logs.Keys + {j}
  {
    InsertGrows(LogOf(s, j), entries);
  }

  /** The job of a batch has one goroutine, so its stored lines and the batch are cut from the same history. */
  lemma LoggingDeliver(w: World, b: Batch)
    requires Control(w) && Logging(w) && Enabled(w, Deliver(b))
    ensures Logging(Next(w, Deliver(b)))
  {
    hide Handle, AppendLogs, Control;
    var w', j, n := Next(w, Deliver(b)), w.runs[b.run].job, w.runs[b.run].node;
    AppendGrows(w.server, n, j, b.entries);
    assert StoredFrom(w, j, b.run) by {
      if j in w.server.logs { OneStore(w, j, b.run); }
    }
    InsertFaithful(LogOf(w.server, j), b.entries, w.runs[b.run].lines);
    forall k | k in w'.server.logs ensures exists g :: StoredFrom(w', k, g) {
      var g :| (k == j && g == b.run) || (k != j && StoredFrom(w, k, g));
      assert StoredFrom(w', k, g);
    }
    forall k | k in w'.seen ensures ReadOk(w'.server, k, w'.seen[k]) {
      ReadStays(w.server, w'.server, k, w.seen[k]);
    }
  }

  lemma OneStore(w: World, j: JobId, g: nat)
    requires Control(w) && StoresOk(w) && j in w.server.logs && g < |w.runs| && w.runs[g].job == j
    ensures StoredFrom(w, j, g)
  {}

  lemma LoggingPoll(w: World, j: JobId, limit: nat)
    requires Control(w) && Logging(w)
    ensures Logging(Next(w, Poll(j, limit)))
  {
    var log, read := LogOf(w.server, j), ReadOf(w, j);
    ListAfterRows(log, CursorOf(read), limit);
    ReadExtends(w.server, j, read, ListAfter(log, CursorOf(read), limit));
    var w' := Next(w, Poll(j, limit));
    StoresStay(w, w');
  }

  lemma ReadExtends(s: Server, j: JobId, read: seq<LogEntry>, rows: seq<LogEntry>)
    requires ReadOk(s, j, read) && Ascending(rows)
    requires forall r :: r in rows ==> CursorOf(read) < r.sequence && r.sequence in LogOf(s, j) && LogOf(s, j)[r.sequence] == r
    ensures ReadOk(s, j, read + rows)
  {}

  lemma LoggingStep(w: World, step: Step)
    requires Control(w) && Logging(w) && Enabled(w, step)
    ensures Logging(Next(w, step))
  {
    hide Next, Enabled, Control, StoresOk, ReadsOk, HistoriesGrow, Tracks;
    match step
    case Emit(g, stream, content) => LoggingEmit(w, g, stream, content);
    case Flush(g) => LoggingFlush(w, g);
    case Deliver(b) => LoggingDeliver(w, b);
    case Poll(j, limit) => LoggingPoll(w, j, limit);
    case _ =>
      QuietSteps(w, step);
      LoggingQuiet(w, Next(w, step));
  }

  lemma NewPumpTracks()
    ensures Tracks(EMPTY_PUMP, [])
  {}

  predicate IsQuiet(step: Step) { !step.Emit? && !step.Flush? && !step.Deliver? && !step.Poll? }

  lemma QuietServer(w: World, step: Step)
    requires Enabled(w, step) && IsQuiet(step)
    ensures Next(w, step).server.logs == w.server.logs
  {
    hide Handle, Claim;
    match step
    case Outside(r) => OtherRequestsLeaveLogs(w.server, r);
    case ClaimOk(n, now) => ClaimLeavesLogs(w.server, n, now);
    case HeartbeatLost(n, now) => OtherRequestsLeaveLogs(w.server, ReqHeartbeat(n, now));
    case ClaimLost(n, now) => OtherRequestsLeaveLogs(w.server, ReqClaim(n, now));
    case CompleteOk(g, now, now2) =>
      OtherRequestsLeaveLogs(w.server, ReqComplete(w.runs[g].node, w.runs[g].job, w.runs[g].phase.code, now, now2));
    case _ =>
  }

  /** A goroutine of the step's outcome was there before with the same pump and lines, or starts with an empty pump. */
  lemma QuietGoroutine(w: World, step: Step, g: nat)
    requires Enabled(w, step) && IsQuiet(step)
    ensures var w' := Next(w, step);
      && |w.runs| <= |w'.runs| && w'.net == w.net && w'.seen == w.seen
      && (g < |w.runs| ==>
            w'.runs[g].job == w.runs[g].job && w'.runs[g].lines == w.runs[g].lines && w'.runs[g].pump == w.runs[g].pump)
      && (|w.runs| <= g < |w'.runs| ==> w'.runs[g].lines == [] && w'.runs[g].pump == EMPTY_PUMP)
  {
    hide Handle, Claim, Heartbeat;
  }

  lemma QuietSteps(w: World, step: Step)
    requires PumpsOk(w) && Enabled(w, step) && IsQuiet(step)
    ensures var w' := Next(w, step);
      && HistoriesGrow(w, w') && w'.server.logs == w.server.logs && w'.net == w.net && w'.seen == w.seen
      && forall g :: 0 <= g < |w'.runs| ==> Tracks(w'.runs[g].pump, w'.runs[g].lines)
  {
    NewPumpTracks();
    hide Next, Enabled, Tracks;
    QuietServer(w, step);
    QuietGoroutine(w, step, 0);
    forall g: nat { QuietGoroutine(w, step, g); }
  }

  // ---------------------------------------------------------------- runs

  ghost predicate EnabledRun(w: World, steps: seq<Step>)
    decreases |steps|
  {
    steps == [] || (Enabled(w, steps[0]) && EnabledRun(Next(w, steps[0]), steps[1..]))
  }

  ghost function RunSteps(w: World, steps: seq<Step>): World
    requires EnabledRun(w, steps)
    decreases |steps|
  {
    if steps == [] then w else RunSteps(Next(w, steps[0]), steps[1..])
  }

  ghost const START := World(EMPTY_SERVER, map[], [], {}, map[])

  lemma {:induction false} GoodRun(w: World, steps: seq<Step>)
    requires Control(w) && Logging(w) && EnabledRun(w, steps)
    ensures Control(RunSteps(w, steps)) && Logging(RunSteps(w, steps))
    decreases |steps|
  {
    if steps != [] {
      ControlStep(w, steps[0]);
      LoggingStep(w, steps[0]);
      GoodRun(Next(w, steps[0]), steps[1..]);
    }
  }

  /** In every interleaving: two calls of runner.Run in progress are on different nodes, and each is for a job that the
      server holds as running on that node. */
  lemma {:induction false} NoTwoRunsOnANode(steps: seq<Step>, g: nat, h: nat)
    requires EnabledRun(START, steps)
    requires g < |RunSteps(START, steps).runs| && h < |RunSteps(START, steps).runs|
    requires RunSteps(START, steps).runs[g].phase == InRun && RunSteps(START, steps).runs[h].phase == InRun
    ensures var w := RunSteps(START, steps);
      && w.runs[g].job in w.server.jobs && RunsOn(w.server.jobs[w.runs[g].job], w.runs[g].node)
      && (g != h ==> w.runs[g].node != w.runs[h].node)
  {
    GoodRun(START, steps);
    var w := RunSteps(START, steps);
    assert Backed(w.server, w.runs[g]) && Backed(w.server, w.runs[h]);
  }

  /** A run that the daemon cut short belongs to a job whose cancellation was requested; that job is still running at
      the server, or cancelled: never completed, never failed. */
  lemma {:induction false} OnlyCancelledJobsAreCut(steps: seq<Step>, g: nat)
    requires EnabledRun(START, steps) && g < |RunSteps(START, steps).runs| && RunSteps(START, steps).runs[g].cut
    ensures var w := RunSteps(START, steps);
      && Marked(w.server, w.runs[g].job)
      && (w.server.jobs[w.runs[g].job].status == Running || w.server.jobs[w.runs[g].job].status == JobStatus.Cancelled)
  {
    GoodRun(START, steps);
    var w := RunSteps(START, steps);
    assert Backed(w.server, w.runs[g]);
    assert RowOk(w.server.users, w.server.nodes, w.server.jobs[w.runs[g].job]);
  }

  /** A job is run by at most one goroutine ever, so two pumps never share its sequence numbers. */
  lemma {:induction false} OneGoroutinePerJob(steps: seq<Step>, g: nat, h: nat)
    requires EnabledRun(START, steps)
    requires g < |RunSteps(START, steps).runs| && h < |RunSteps(START, steps).runs|
    ensures var w := RunSteps(START, steps); w.runs[g].job == w.runs[h].job ==> g == h
  {
    GoodRun(START, steps);
  }

  // ---------------------------------------------------------------- what a poller sees

  /** The rows are some of the lines, each once, in the order of the lines. */
  ghost predicate InEmissionOrder(rows: seq<LogEntry>, lines: seq<LogEntry>, at: seq<nat>) {
    && |at| == |rows|
    && (forall i :: 0 <= i < |rows| ==> at[i] < |lines| && rows[i] == lines[at[i]])
    && (forall i, k :: 0 <= i < k < |rows| ==> at[i] < at[k])
  }

  /** End to end, whatever was lost, repeated or reordered: all that a poller has read for a job, over all its reads, are
      lines that the job's one goroutine emitted, in emission order and without repeats. */
  lemma {:induction false} PollerReadsInEmissionOrder(steps: seq<Step>, j: JobId)
    requires EnabledRun(START, steps) && ReadOf(RunSteps(START, steps), j) != []
    ensures var w := RunSteps(START, steps);
      exists g, at :: 0 <= g < |w.runs| && w.runs[g].job == j && InEmissionOrder(ReadOf(w, j), w.runs[g].lines, at)
  {
    GoodRun(START, steps);
    var w := RunSteps(START, steps);
    var rows := ReadOf(w, j);
    assert rows[0] in rows;
    assert j in w.server.logs;
    var g :| StoredFrom(w, j, g);
    var at := seq(|rows|, i requires 0 <= i < |rows| => rows[i].sequence);
    forall i | 0 <= i < |rows| ensures at[i] < |w.runs[g].lines| && rows[i] == w.runs[g].lines[at[i]] {
      assert rows[i] in rows;
    }
    assert InEmissionOrder(rows, w.runs[g].lines, at);
  }
}
