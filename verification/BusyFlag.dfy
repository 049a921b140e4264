/** A reachable run of the composed system in which the daemon's busy flag says idle while a container run is in progress:
    the flag is set late by one goroutine and cleared by another. What keeps runs apart is the server's guard. */
module BusyFlag {
  import opened Types
  import opened JobStatuses
  import opened Ordering
  import opened JobLogs
  import opened Pumps
  import opened Handlers
  import opened Agents
  import opened AgentRuns

  lemma {:induction false} RunSnoc(w: World, steps: seq<Step>, step: Step)
    requires EnabledRun(w, steps) && Enabled(RunSteps(w, steps), step)
    ensures EnabledRun(w, steps + [step]) && RunSteps(w, steps + [step]) == Next(RunSteps(w, steps), step)
    decreases |steps|
  {
    if steps == [] {
      assert steps + [step] == [step];
    } else {
      assert (steps + [step])[1..] == steps[1..] + [step];
      RunSnoc(Next(w, steps[0]), steps[1..], step);
    }
  }

  ghost predicate Reachable(w: World) { exists steps :: EnabledRun(START, steps) && RunSteps(START, steps) == w }

  lemma Extend(w: World, step: Step)
    requires Reachable(w) && Enabled(w, step)
    ensures Reachable(Next(w, step))
  {
    var steps :| EnabledRun(START, steps) && RunSteps(START, steps) == w;
    RunSnoc(START, steps, step);
  }

  lemma Begin()
    ensures Reachable(START)
  {
    assert EnabledRun(START, []) && RunSteps(START, []) == START;
  }

  /** A user's request takes one step. */
  lemma Asked(w: World, r: Request) returns (w': World)
    requires Reachable(w) && !FromAgent(r)
    ensures Reachable(w') && w' == w.(server := Handle(w.server, r))
  {
    Extend(w, Outside(r));
    w' := Next(w, Outside(r));
  }

  /** Nothing was emitted, stored or read so far. */
  ghost predicate NoLogs(w: World) { w.net == {} && w.seen == map[] && w.server.logs == map[] }

  /** One approved user, and one node of theirs. */
  lemma OneNode() returns (w: World)
    ensures Reachable(w) && w.daemons == map[] && w.runs == [] && w.server.jobs == map[] && NoLogs(w)
    ensures w.server.users == map[0 := User(Active, true, 10)] && w.server.nodes == map[0 := Node(0, 1, Online, 1)]
  {
    Begin();
    hide Reachable;
    w := Asked(START, ReqSignUp(0));
    w := Asked(w, ReqApprove(0, true, 10));
    assert w.server.users == map[0 := User(Active, true, 10)];
    w := Asked(w, ReqCreateToken(0, 0, 0, 0));
    assert w.server.tokens == map[0 := Token(0, 0, CLAIM_TOKEN_TTL, None)];
    w := Asked(w, ReqRegister(0, 0, 0, 1, 1, 1, 1));
  }

  /** ... and two queued jobs. */
  lemma TwoJobsQueued() returns (w: World)
    ensures Reachable(w) && w.daemons == map[] && w.runs == [] && NoLogs(w)
    ensures 0 in w.server.nodes && w.server.nodes[0].status == Online && w.server.nodes[0].gpus == 1 && w.server.nodes[0].owner == 0
    ensures w.server.jobs == map[0 := Job(0, 1, 60, Queued, None, None, None, 0, None, None, None),
                                 1 := Job(0, 1, 60, Queued, None, None, None, 1, None, None, None)]
  {
    w := OneNode();
    hide Reachable;
    w := Asked(w, ReqSubmit(0, 0, 1, 60, None, 0));
    assert w.server.jobs == map[0 := Job(0, 1, 60, Queued, None, None, None, 0, None, None, None)];
    w := Asked(w, ReqSubmit(0, 1, 1, 60, None, 1));
  }

  /** A tick that finds the daemon idle and gets job j. */
  lemma ClaimTakes(w: World, j: JobId)
    requires Reachable(w) && DaemonOf(w, 0).loop.Looked? && !DaemonOf(w, 0).loop.busy
    requires 0 in w.server.nodes && w.server.nodes[0].status == Online && !Busy(w.server, 0)
    requires j in Candidates(w.server.jobs, 0, w.server.nodes[0].gpus)
    requires IsOldest(w.server.jobs, Candidates(w.server.jobs, 0, w.server.nodes[0].gpus), j)
    ensures Enabled(w, ClaimOk(0, 5)) && Reachable(Next(w, ClaimOk(0, 5)))
    ensures var w' := Next(w, ClaimOk(0, 5));
      && w'.server == Assign(w.server, 0, j, 5) && w'.runs == w.runs + [Spawn(0, j)]
      && w'.daemons == w.daemons[0 := Sleep(DaemonOf(w, 0))]
  {
    Extend(w, ClaimOk(0, 5));
    var c := Candidates(w.server.jobs, 0, w.server.nodes[0].gpus);
    assert Oldest(w.server.jobs, c) == j;
  }

  lemma TickLooks(w: World) returns (w': World)
    requires Reachable(w) && DaemonOf(w, 0).loop == Sleeping && 0 in w.server.nodes
    ensures Reachable(w') && w'.server.jobs == w.server.jobs && w'.runs == w.runs && 0 in w'.server.nodes
    ensures w'.server.nodes[0].status == w.server.nodes[0].status && w'.server.nodes[0].gpus == w.server.nodes[0].gpus
    ensures w'.server.nodes[0].owner == w.server.nodes[0].owner
    ensures DaemonOf(w', 0).loop.Looked? && DaemonOf(w', 0).loop.busy == DaemonOf(w, 0).runningId.Some?
    ensures DaemonOf(w', 0).runningId == DaemonOf(w, 0).runningId && DaemonOf(w', 0).cancelRun == DaemonOf(w, 0).cancelRun
    ensures NoLogs(w) ==> NoLogs(w')
  {
    Extend(w, HeartbeatOk(0, 5));
    w' := Next(w, HeartbeatOk(0, 5));
    Extend(w', LookAround(0));
    w' := Next(w', LookAround(0));
  }

  /** The first run, from before its goroutine has set the flag to after its completion was recorded. */
  lemma FirstRunCompletes(w: World) returns (w': World)
    requires Reachable(w) && |w.runs| == 1 && w.runs[0] == Spawn(0, 0) && 0 in w.server.nodes
    requires 0 in w.server.jobs && RunsOn(w.server.jobs[0], 0) && w.server.jobs[0].cancelAt == None
    requires w.server.jobs[0].startedAt == Some(5)
    ensures Reachable(w') && |w'.runs| == 1 && w'.runs[0].phase == Ending && w'.runs[0].node == 0
    ensures DaemonOf(w', 0).loop == DaemonOf(w, 0).loop && DaemonOf(w', 0).runningId == Some(0)
    ensures w'.server.nodes == w.server.nodes && 0 in w'.server.jobs && w'.server.jobs[0].status == Completed
    ensures w'.server.jobs == w.server.jobs[0 := w'.server.jobs[0]]
  {
    hide Reachable;
    Extend(w, EnterRun(0));
    w' := Next(w, EnterRun(0));
    Extend(w', StartRun(0));
    w' := Next(w', StartRun(0));
    Extend(w', EndRun(0, 0, false));
    w' := Next(w', EndRun(0, 0, false));
    Extend(w', Report(0));
    w' := Next(w', Report(0));
    Extend(w', CompleteOk(0, 6, 6));
    w' := Next(w', CompleteOk(0, 6, 6));
  }

  const SECOND_JOB := Job(0, 1, 60, Queued, None, None, None, 1, None, None, None)

  /** The first of the two jobs is claimed. */
  lemma FirstJobClaimed() returns (w: World)
    ensures Reachable(w) && NoLogs(w) && w.runs == [Spawn(0, 0)] && DaemonOf(w, 0).loop == Sleeping
    ensures DaemonOf(w, 0).runningId == None
    ensures 0 in w.server.nodes && w.server.nodes[0].status == Online && w.server.nodes[0].gpus == 1 && w.server.nodes[0].owner == 0
    ensures w.server.jobs.Keys == {0, 1} && w.server.jobs[1] == SECOND_JOB
    ensures RunsOn(w.server.jobs[0], 0) && w.server.jobs[0].cancelAt == None && w.server.jobs[0].startedAt == Some(5)
  {
    w := TwoJobsQueued();
    hide Reachable;
    w := TickLooks(w);
    assert Candidates(w.server.jobs, 0, 1) == {0, 1};
    ClaimTakes(w, 0);
    w := Next(w, ClaimOk(0, 5));
  }

  /** The next tick looks before the first goroutine has set the flag, and acts after that run has come and gone. */
  lemma StaleLook() returns (w: World)
    ensures Reachable(w) && |w.runs| == 1 && w.runs[0].phase == Ending && w.runs[0].node == 0
    ensures DaemonOf(w, 0).loop.Looked? && !DaemonOf(w, 0).loop.busy
    ensures 0 in w.server.nodes && w.server.nodes[0].status == Online && w.server.nodes[0].gpus == 1
    ensures w.server.jobs.Keys == {0, 1} && w.server.jobs[0].status == Completed && w.server.jobs[1] == SECOND_JOB
  {
    w := FirstJobClaimed();
    hide Reachable;
    w := TickLooks(w);
    w := FirstRunCompletes(w);
  }

  /** The busy flag can be clear while a run is in progress: the first goroutine's deferred reset clears the flag that
      the second one has set. */
  lemma BusyFlagCanLie()
    ensures exists w :: Reachable(w) && |w.runs| == 2 && w.runs[1].phase == InRun && w.runs[1].node == 0
              && DaemonOf(w, 0).runningId == None
  {
    var w := StaleLook();
    hide Reachable;
    assert Candidates(w.server.jobs, 0, 1) == {1};
    ClaimTakes(w, 1);
    w := Next(w, ClaimOk(0, 5));
    Extend(w, EnterRun(1));
    w := Next(w, EnterRun(1));
    Extend(w, StartRun(1));
    w := Next(w, StartRun(1));
    Extend(w, LeaveRun(0));
    w := Next(w, LeaveRun(0));
    assert w.runs[1].phase == InRun;
  }
}
