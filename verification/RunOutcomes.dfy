/** From what the container runner returns to the row the server ends with, over every run of the composed system; and what a
    lost answer leaves behind. */
module RunOutcomes {
  import opened Types
  import opened JobStatuses
  import opened Handlers
  import opened JobLogs
  import opened Pumps
  import opened Invariants
  import opened Agents
  import opened AgentRuns
  import opened Cancellations
  import LogRuns
  import Outcomes

  // ---------------------------------------------------------------- one goroutine along a run

  /** Every step in which a goroutine's phase or context changes, seen from that goroutine. */
  lemma GoroutineAfterStep(w: World, step: Step, g: nat)
    requires Enabled(w, step) && g < |w.runs|
    ensures g < |Next(w, step).runs|
    ensures var a, b := w.runs[g], Next(w, step).runs[g];
      && b.job == a.job && b.node == a.node
      && (a.phase.Returned? && step != Report(g) ==> b.phase == a.phase)
      && (a.phase.Reporting? && !Reports(step, g) ==> b.phase == a.phase)
      && (a.context == Expired ==> b.context == Expired)
      && (!Agents.Active(a) ==> !Agents.Active(b))
  {
    hide Handle, Claim, Heartbeat;
  }

  /** The completion call of g ends. */
  predicate Reports(step: Step, g: nat) { step == CompleteFailed(g) || (step.CompleteOk? && step.run == g) }

  /** The phase in which g waits stays until its own next step. */
  lemma {:induction false} PhaseStays(w: World, steps: seq<Step>, g: nat)
    requires EnabledRun(w, steps) && g < |w.runs| && (w.runs[g].phase.Returned? || w.runs[g].phase.Reporting?)
    requires forall i :: 0 <= i < |steps| ==> steps[i] != Report(g) && !Reports(steps[i], g)
    ensures g < |RunSteps(w, steps).runs| && RunSteps(w, steps).runs[g].phase == w.runs[g].phase
    ensures RunSteps(w, steps).runs[g].job == w.runs[g].job && RunSteps(w, steps).runs[g].node == w.runs[g].node
    decreases |steps|
  {
    if steps != [] {
      GoroutineAfterStep(w, steps[0], g);
      PhaseStays(Next(w, steps[0]), steps[1..], g);
    }
  }

  /** A run that hit its time limit is never taken for a cancelled one. */
  lemma {:induction false} TimeoutSticks(w: World, steps: seq<Step>, g: nat)
    requires EnabledRun(w, steps) && g < |w.runs| && w.runs[g].context == Expired
    ensures g < |RunSteps(w, steps).runs| && RunSteps(w, steps).runs[g].context == Expired
    decreases |steps|
  {
    if steps != [] {
      GoroutineAfterStep(w, steps[0], g);
      TimeoutSticks(Next(w, steps[0]), steps[1..], g);
    }
  }

  // ---------------------------------------------------------------- job rows along a run

  lemma RowAfterStep(w: World, step: Step, j: JobId)
    requires Control(w) && Enabled(w, step) && j in w.server.jobs
    ensures j in Next(w, step).server.jobs && Evolves(w.server.jobs[j], Next(w, step).server.jobs[j])
    ensures w.server.jobs[j].status == Running && Next(w, step).server.jobs[j].status != Running ==>
      step.CompleteOk? && w.runs[step.run].job == j
  {
    LogRuns.ServerMovesAsServed(w, step);
    hide Next, Handle, Inv;
    if LogRuns.Served(w, step).Some? { RowStep(w.server, LogRuns.Served(w, step).value, j); }
  }

  lemma {:induction false} RowAlongRun(w: World, steps: seq<Step>, j: JobId)
    requires Control(w) && EnabledRun(w, steps) && j in w.server.jobs
    ensures Control(RunSteps(w, steps))
    ensures j in RunSteps(w, steps).server.jobs && Evolves(w.server.jobs[j], RunSteps(w, steps).server.jobs[j])
    decreases |steps|
  {
    if steps != [] {
      RowAfterStep(w, steps[0], j);
      ControlStep(w, steps[0]);
      hide Control, Next, Enabled;
      RowAlongRun(Next(w, steps[0]), steps[1..], j);
    }
  }

  // ---------------------------------------------------------------- the outcome of a run

  /** The row's end, as the server recorded it: the exit code, and the status by mark and code. */
  ghost predicate EndedWith(job: Job, code: int) {
    && job.exitCode == Some(code) && job.completedAt.Some?
    && (job.status == Cancelled <==> job.cancelAt.Some?)
    && (job.status == Completed <==> job.cancelAt == None && code == 0)
    && (job.status == Failed <==> job.cancelAt == None && code != 0)
  }

  /** The report of g, sent with this code, is processed. */
  lemma ProcessedReport(w: World, g: nat, now: Time, now2: Time)
    requires Control(w) && Enabled(w, CompleteOk(g, now, now2))
    ensures var s' := Next(w, CompleteOk(g, now, now2)).server;
      w.runs[g].job in s'.jobs && EndedWith(s'.jobs[w.runs[g].job], w.runs[g].phase.code)
  {
    assert Backed(w.server, w.runs[g]);
    var n, j, code := w.runs[g].node, w.runs[g].job, w.runs[g].phase.code;
    Outcomes.CompleteIff(w.server, n, j, code, now, now2);
    LogRuns.ServerMovesAsServed(w, CompleteOk(g, now, now2));
    HandlesComplete(w.server, n, j, code, now, now2);
  }

  lemma HandlesComplete(s: Server, n: NodeId, j: JobId, code: int, now: Time, now2: Time)
    ensures Handle(s, ReqComplete(n, j, code, now, now2)) == Commit(s, Complete(s, n, j, code, now, now2))
  {}

  lemma EndStays(a: Job, b: Job, code: int)
    requires EndedWith(a, code) && Evolves(a, b)
    ensures EndedWith(b, code)
  {}

  /** The number that a runner's result becomes: an error without an exit code is 1, a cancelled context makes it -1. */
  lemma ReturnedCode(w: World, g: nat, code: int, failed: bool)
    requires g < |w.runs| && w.runs[g].phase == InRun
    ensures Enabled(w, EndRun(g, code, failed))
    ensures var w' := Next(w, EndRun(g, code, failed));
      && |w'.runs| == |w.runs| && w'.runs[g].job == w.runs[g].job && w'.runs[g].context == w.runs[g].context
      && w'.runs[g].phase == Returned(if failed && code == 0 then 1 else code)
  {}

  lemma ReportedCode(w: World, g: nat)
    requires g < |w.runs| && w.runs[g].phase.Returned?
    ensures Enabled(w, Report(g))
    ensures var w' := Next(w, Report(g));
      && |w'.runs| == |w.runs| && w'.runs[g].job == w.runs[g].job
      && w'.runs[g].phase == Reporting(if w.runs[g].context == Canceled then -1 else w.runs[g].phase.code)
  {}

  lemma ReportCanGo(w: World, g: nat, now: Time, now2: Time)
    requires g < |w.runs| && w.runs[g].phase.Reporting?
    ensures Enabled(w, CompleteOk(g, now, now2)) && Enabled(w, CompleteFailed(g))
  {}

  /** The runner of g ends with (code, failed) after the steps before; its report is made after mid, and processed after
      wait; later is whatever follows. The server's row then has ended, for good, with exit code -1 if g's context was
      cancelled when it reported, else 1 if the runner failed with code 0, else code; it is cancelled exactly if it was
      marked, and otherwise completed exactly if that number is 0. */
  lemma {:induction false} RunnerResultIsRecorded(before: seq<Step>, g: nat, code: int, failed: bool, mid: seq<Step>,
                                                  wait: seq<Step>, now: Time, now2: Time, later: seq<Step>)
    requires EnabledRun(START, before) && Enabled(RunSteps(START, before), EndRun(g, code, failed))
    requires var w1 := Next(RunSteps(START, before), EndRun(g, code, failed));
      && EnabledRun(w1, mid) && (forall i :: 0 <= i < |mid| ==> mid[i] != Report(g) && !Reports(mid[i], g))
      && Enabled(RunSteps(w1, mid), Report(g))
      && var w3 := Next(RunSteps(w1, mid), Report(g));
         && EnabledRun(w3, wait) && (forall i :: 0 <= i < |wait| ==> wait[i] != Report(g) && !Reports(wait[i], g))
         && Enabled(RunSteps(w3, wait), CompleteOk(g, now, now2))
         && EnabledRun(Next(RunSteps(w3, wait), CompleteOk(g, now, now2)), later)
    ensures var w := RunSteps(START, before);
      var w2 := RunSteps(Next(w, EndRun(g, code, failed)), mid);
      var end := RunSteps(Next(RunSteps(Next(w2, Report(g)), wait), CompleteOk(g, now, now2)), later);
      var number := if w2.runs[g].context == Canceled then -1 else if failed && code == 0 then 1 else code;
      && w.runs[g].job in end.server.jobs
      && EndedWith(end.server.jobs[w.runs[g].job], number)
  {
    var w := RunSteps(START, before);
    var w1 := Next(w, EndRun(g, code, failed));
    var w2 := RunSteps(w1, mid);
    var w3 := Next(w2, Report(g));
    var w4 := RunSteps(w3, wait);
    var w5 := Next(w4, CompleteOk(g, now, now2));
    ReturnedCode(w, g, code, failed);
    GoroutineAfterStep(w, EndRun(g, code, failed), g);
    PhaseStays(w1, mid, g);
    ReportedCode(w2, g);
    GoroutineAfterStep(w2, Report(g), g);
    PhaseStays(w3, wait, g);
    ControlAlongRun(START, before);
    ControlStep(w, EndRun(g, code, failed));
    ControlAlongRun(w1, mid);
    ControlStep(w2, Report(g));
    ControlAlongRun(w3, wait);
    ProcessedReport(w4, g, now, now2);
    ControlStep(w4, CompleteOk(g, now, now2));
    RowAlongRun(w5, later, w.runs[g].job);
    EndStays(w5.server.jobs[w.runs[g].job], RunSteps(w5, later).server.jobs[w.runs[g].job], w4.runs[g].phase.code);
  }

  /** A run in progress can end at any time with any result, be reported and be recorded. */
  lemma {:induction false} AnyResultCanBeRecorded(before: seq<Step>, g: nat, code: int, failed: bool, now: Time, now2: Time)
    requires EnabledRun(START, before) && g < |RunSteps(START, before).runs| && RunSteps(START, before).runs[g].phase == InRun
    ensures var w := RunSteps(START, before);
      && Enabled(w, EndRun(g, code, failed))
      && var w1 := Next(w, EndRun(g, code, failed));
      && Enabled(w1, Report(g))
      && var w2 := Next(w1, Report(g));
      && Enabled(w2, CompleteOk(g, now, now2)) && Enabled(w2, CompleteFailed(g))
      && var end := Next(w2, CompleteOk(g, now, now2));
      && w.runs[g].job in end.server.jobs
      && EndedWith(end.server.jobs[w.runs[g].job],
                   if w.runs[g].context == Canceled then -1 else if failed && code == 0 then 1 else code)
  {
    var w := RunSteps(START, before);
    ControlAlongRun(START, before);
    hide Next, Enabled, Control, EndedWith;
    ReturnedCode(w, g, code, failed);
    var w1 := Next(w, EndRun(g, code, failed));
    ControlStep(w, EndRun(g, code, failed));
    ReportedCode(w1, g);
    var w2 := Next(w1, Report(g));
    ControlStep(w1, Report(g));
    ReportCanGo(w2, g, now, now2);
    ProcessedReport(w2, g, now, now2);
  }

  /** The time limit can strike a live run at any time, changes nothing but its context, and is not a cancellation. */
  lemma TimeLimitStrikes(w: World, g: nat)
    requires g < |w.runs|
    ensures Enabled(w, Expire(g)) <==> w.runs[g].context == Live
    ensures w.runs[g].context == Live ==>
      var w' := Next(w, Expire(g));
      && w'.runs[g].context == Expired && |w'.runs| == |w.runs| && w'.runs[g].phase == w.runs[g].phase
      && w'.runs[g].cut == w.runs[g].cut && w'.runs[g].lines == w.runs[g].lines
      && (forall h :: 0 <= h < |w.runs| && h != g ==> w'.runs[h] == w.runs[h])
      && w'.server == w.server && w'.daemons == w.daemons && w'.net == w.net && w'.seen == w.seen
  {}

  /** A spawned goroutine can enter and start its container, its daemon then naming it; and one whose completion call is over
      can leave, the daemon then naming nothing. */
  lemma GoroutineProceeds(w: World, g: nat)
    requires g < |w.runs|
    ensures w.runs[g].phase == Spawned ==>
      && Enabled(w, EnterRun(g))
      && var w1 := Next(w, EnterRun(g));
      && DaemonOf(w1, w.runs[g].node) == Daemon(DaemonOf(w, w.runs[g].node).loop, Some(w.runs[g].job), Some(g))
      && Enabled(w1, StartRun(g))
      && Next(w1, StartRun(g)).runs == w.runs[g := w.runs[g].(phase := InRun)]
      && w1.server == w.server && Next(w1, StartRun(g)).server == w.server
    ensures w.runs[g].phase == Ending ==>
      && Enabled(w, LeaveRun(g))
      && var w1 := Next(w, LeaveRun(g));
      && DaemonOf(w1, w.runs[g].node) == Daemon(DaemonOf(w, w.runs[g].node).loop, None, None)
      && w1.runs[g].phase == Gone && w1.server == w.server
  {}

  /** Users and administrators can make any request at any time; only the daemons speak for themselves. */
  lemma UsersAskAnyTime(w: World, r: Request)
    ensures Enabled(w, Outside(r)) <==> !r.ReqHeartbeat? && !r.ReqClaim? && !r.ReqComplete? && !r.ReqPushLogs?
    ensures Enabled(w, Outside(r)) ==> Next(w, Outside(r)) == w.(server := Handle(w.server, r))
  {}

  /** A sleeping loop's heartbeat, if its answer is lost, stamps the node and leaves the daemon asleep. */
  lemma HeartbeatMayBeLost(w: World, n: NodeId, now: Time)
    requires DaemonOf(w, n).loop == Sleeping && n in w.server.nodes
    ensures Enabled(w, HeartbeatOk(n, now)) && Enabled(w, HeartbeatLost(n, now))
    ensures Next(w, HeartbeatLost(n, now)) ==
      w.(server := w.server.(nodes := w.server.nodes[n := w.server.nodes[n].(lastSeen := now)]))
  {}

  /** An idle tick's claim may be answered, processed with its answer lost, or never processed. Answered with a job, it starts
      one goroutine for that job; in the other cases no goroutine is started; and each time the loop sleeps again. */
  lemma IdleTickClaims(w: World, n: NodeId, now: Time)
    requires DaemonOf(w, n).loop.Looked? && !DaemonOf(w, n).loop.busy
    ensures Enabled(w, ClaimOk(n, now)) && Enabled(w, ClaimLost(n, now)) && Enabled(w, ClaimFailed(n))
    ensures var asleep := w.daemons[n := DaemonOf(w, n).(loop := Sleeping)];
      var o := Claim(w.server, n, now);
      && Next(w, ClaimFailed(n)) == w.(daemons := asleep)
      && Next(w, ClaimLost(n, now)) == w.(daemons := asleep, server := if o.Ok? then o.server else w.server)
      && Next(w, ClaimOk(n, now)) == w.(
           daemons := asleep,
           server := if o.Ok? then o.server else w.server,
           runs := if o.Ok? && o.value.Some? then w.runs + [Goroutine(n, o.value.value, Spawned, Live, false, EMPTY_PUMP, [])] else w.runs)
  {}

  /** A goroutine under way can emit at any time, its pump can be flushed at any time, and every posted batch can arrive at any
      time; a poll is always possible. An empty line is dropped, another is numbered by the lines before it and buffered; a
      flush posts the whole buffer. */
  lemma LinesFlow(w: World, g: nat, stream: Stream, content: string)
    requires PumpsOk(w) && g < |w.runs|
    ensures Underway(w.runs[g]) ==> Enabled(w, Emit(g, stream, content))
    ensures Underway(w.runs[g]) ==>
      var r, r' := w.runs[g], Next(w, Emit(g, stream, content)).runs[g];
      var more := if content == "" then [] else [LogEntry(stream, content, |r.lines|)];
      r'.lines == r.lines + more && r'.pump.buf == r.pump.buf + more
    ensures w.runs[g].phase != Spawned ==> Enabled(w, Flush(g))
    ensures w.runs[g].phase != Spawned ==>
      var w' := Next(w, Flush(g));
      && w'.runs[g].pump.buf == [] && w'.runs[g].lines == w.runs[g].lines
      && w'.net == w.net + if w.runs[g].pump.buf == [] then {} else {Batch(g, w.runs[g].pump.buf)}
    ensures forall b :: b in w.net ==> Enabled(w, Deliver(b))
    ensures forall j, limit :: Enabled(w, Poll(j, limit))
  {
    assert Tracks(w.runs[g].pump, w.runs[g].lines);
  }

  // ---------------------------------------------------------------- lost answers

  /** The server holds job j as running on n, and no goroutine will ever report it. */
  ghost predicate Stuck(w: World, j: JobId, n: NodeId) {
    && j in w.server.jobs && w.server.jobs[j].status == Running && w.server.jobs[j].assignedNode == Some(n)
    && forall g :: 0 <= g < |w.runs| && w.runs[g].job == j ==> !Agents.Active(w.runs[g])
  }

  lemma NewGoroutine(w: World, step: Step, g: nat)
    requires Control(w) && Enabled(w, step) && |w.runs| <= g < |Next(w, step).runs|
    ensures var j := Next(w, step).runs[g].job; j in w.server.jobs && w.server.jobs[j].status == Queued
  {
    hide Handle, Heartbeat, Control, Inv;
  }

  /** Nobody takes a stuck job out of running. */
  lemma NobodyReports(w: World, step: Step, j: JobId, n: NodeId)
    requires Stuck(w, j, n) && Enabled(w, step) && step.CompleteOk?
    ensures w.runs[step.run].job != j
  {}

  lemma StuckStep(w: World, step: Step, j: JobId, n: NodeId)
    requires Control(w) && Enabled(w, step) && Stuck(w, j, n)
    ensures Stuck(Next(w, step), j, n)
  {
    var w' := Next(w, step);
    RowAfterStep(w, step, j);
    if step.CompleteOk? { NobodyReports(w, step, j, n); }
    hide Next, Enabled, Control, Inv;
    forall g | 0 <= g < |w'.runs| && w'.runs[g].job == j ensures !Agents.Active(w'.runs[g]) {
      if g < |w.runs| { GoroutineAfterStep(w, step, g); } else { NewGoroutine(w, step, g); }
    }
  }

  lemma {:induction false} StuckForGood(w: World, steps: seq<Step>, j: JobId, n: NodeId)
    requires Control(w) && EnabledRun(w, steps) && Stuck(w, j, n)
    ensures Control(RunSteps(w, steps)) && Stuck(RunSteps(w, steps), j, n)
    decreases |steps|
  {
    if steps != [] {
      StuckStep(w, steps[0], j, n);
      ControlStep(w, steps[0]);
      hide Control, Next, Enabled, Stuck;
      StuckForGood(Next(w, steps[0]), steps[1..], j, n);
    }
  }

  /** A stuck job's node gets no job, however it asks. */
  lemma StuckNodeGetsNothing(w: World, j: JobId, n: NodeId, now: Time)
    requires Stuck(w, j, n)
    ensures Handle(w.server, ReqClaim(n, now)) == w.server
    ensures Enabled(w, ClaimOk(n, now)) ==> Next(w, ClaimOk(n, now)).runs == w.runs
  {
    assert Busy(w.server, n);
  }

  /** The answer to a granted claim is lost: the job that the claim took runs nowhere and stays running at the server for ever,
      and its node never gets a job again. */
  lemma {:induction false} LostClaimStallsNode(steps: seq<Step>, n: NodeId, now: Time, later: seq<Step>, now2: Time)
    requires EnabledRun(START, steps) && Enabled(RunSteps(START, steps), ClaimLost(n, now))
    requires var o := Claim(RunSteps(START, steps).server, n, now); o.Ok? && o.value.Some?
    requires EnabledRun(Next(RunSteps(START, steps), ClaimLost(n, now)), later)
    ensures var w := RunSteps(START, steps);
      var end := RunSteps(Next(w, ClaimLost(n, now)), later);
      && Stuck(end, Claim(w.server, n, now).value.value, n)
      && Handle(end.server, ReqClaim(n, now2)) == end.server
  {
    ControlAlongRun(START, steps);
    var w := RunSteps(START, steps);
    var w' := Next(w, ClaimLost(n, now));
    var j := Claim(w.server, n, now).value.value;
    ControlStep(w, ClaimLost(n, now));
    LogRuns.HandlesClaim(w.server, n, now);
    FreshJob(w, j);
    assert Stuck(w', j, n);
    StuckForGood(w', later, j, n);
    StuckNodeGetsNothing(RunSteps(w', later), j, n, now2);
  }

  /** A queued job has no goroutine. */
  lemma FreshJob(w: World, j: JobId)
    requires Control(w) && j in w.server.jobs && w.server.jobs[j].status == Queued
    ensures forall g :: 0 <= g < |w.runs| ==> w.runs[g].job != j
  {
    assert RowOk(w.server.users, w.server.nodes, w.server.jobs[j]);
    forall g | 0 <= g < |w.runs| ensures w.runs[g].job != j { assert Backed(w.server, w.runs[g]); }
  }

  /** A completion report that is never processed: the same. */
  lemma {:induction false} LostReportStallsNode(steps: seq<Step>, g: nat, later: seq<Step>, now: Time)
    requires EnabledRun(START, steps) && Enabled(RunSteps(START, steps), CompleteFailed(g))
    requires EnabledRun(Next(RunSteps(START, steps), CompleteFailed(g)), later)
    ensures var w := RunSteps(START, steps);
      var end := RunSteps(Next(w, CompleteFailed(g)), later);
      && Stuck(end, w.runs[g].job, w.runs[g].node)
      && Handle(end.server, ReqClaim(w.runs[g].node, now)) == end.server
  {
    ControlAlongRun(START, steps);
    var w := RunSteps(START, steps);
    var w' := Next(w, CompleteFailed(g));
    var j, n := w.runs[g].job, w.runs[g].node;
    ControlStep(w, CompleteFailed(g));
    assert Backed(w.server, w.runs[g]);
    assert Stuck(w', j, n);
    StuckForGood(w', later, j, n);
    StuckNodeGetsNothing(RunSteps(w', later), j, n, now);
  }
}
