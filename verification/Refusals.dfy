/** Reachable runs in which the server refuses a posted batch of log lines, so that emitted lines are lost. */
module Refusals {
  import opened Types
  import opened JobStatuses
  import opened JobLogs
  import opened Pumps
  import opened Handlers
  import opened Agents
  import opened AgentRuns
  import opened BusyFlag
  import opened LogRuns

  /** The server's one node is running the job of the one goroutine. */
  ghost predicate OneRun(w: World, phase: Phase) {
    && |w.runs| == 1 && w.runs[0].node == 0 && w.runs[0].job == 0 && w.runs[0].phase == phase
    && 0 in w.server.nodes && 0 in w.server.jobs && w.server.jobs[0].assignedNode == Some(0)
    && w.server.jobs[0].cancelAt == None && w.server.jobs[0].status == Running && w.server.nodes[0].owner == 0
  }

  lemma EnteredRun() returns (w: World)
    ensures Reachable(w) && OneRun(w, Entered) && w.runs[0].pump == EMPTY_PUMP && w.runs[0].context == Live
    ensures w.server.jobs.Keys == {0, 1} && w.server.jobs[1].status == Queued
  {
    w := FirstJobClaimed();
    hide Reachable;
    Extend(w, EnterRun(0));
    w := Next(w, EnterRun(0));
  }

  lemma Emits(w: World, content: string) returns (w': World)
    requires Reachable(w) && OneRun(w, Entered) && content != ""
    ensures Reachable(w') && OneRun(w', Entered) && w'.server == w.server && w'.runs[0].context == w.runs[0].context
    ensures w'.runs[0].pump == Emitted(w.runs[0].pump, Stdout, content)
  {
    hide Reachable;
    Extend(w, Emit(0, Stdout, content));
    w' := Next(w, Emit(0, Stdout, content));
  }

  /** A line longer than the schema allows takes a short one with it, though the node is there and the job is its own. */
  lemma LongLineIsRefused()
    ensures exists w, b :: Reachable(w) && Enabled(w, Deliver(b)) && !Accepts(w, b)
              && LogEntry(Stdout, "a", 0) in b.entries
              && w.runs[b.run].node in w.server.nodes && w.runs[b.run].job in w.server.jobs
              && w.server.jobs[w.runs[b.run].job].assignedNode == Some(w.runs[b.run].node)
  {
    var w := EnteredRun();
    hide Reachable;
    var long := seq(MAX_CONTENT + 1, _ => 'x');
    w := Emits(w, "a");
    w := Emits(w, long);
    var b := Batch(0, w.runs[0].pump.buf);
    assert b.entries == [LogEntry(Stdout, "a", 0), LogEntry(Stdout, long, 1)];
    Extend(w, Flush(0));
    w := Next(w, Flush(0));
    assert b.entries[0] in b.entries && b.entries[1] in b.entries;
    assert Enabled(w, Deliver(b)) && !Accepts(w, b);
  }

  /** The run ends and is reported complete, with what was emitted still buffered. */
  lemma RunCompletes(w: World) returns (w': World)
    requires Reachable(w) && OneRun(w, Entered)
    ensures Reachable(w') && |w'.runs| == 1 && w'.runs[0] == w.runs[0].(phase := Ending)
    ensures w'.server.nodes == w.server.nodes && w'.server.jobs.Keys == w.server.jobs.Keys
    ensures Terminal(w'.server.jobs[0].status) && forall j :: j in w.server.jobs && j != 0 ==> w'.server.jobs[j] == w.server.jobs[j]
  {
    hide Reachable;
    Extend(w, StartRun(0));
    w' := Next(w, StartRun(0));
    Extend(w', EndRun(0, 0, false));
    w' := Next(w', EndRun(0, 0, false));
    Extend(w', Report(0));
    w' := Next(w', Report(0));
    Extend(w', CompleteOk(0, 6, 6));
    w' := Next(w', CompleteOk(0, 6, 6));
  }

  /** The last flush comes after the completion report; the owner may have deleted the idle node in between. */
  lemma TailIsRefused()
    ensures exists w, b :: Reachable(w) && Enabled(w, Deliver(b)) && !Accepts(w, b) && Postable(b.entries)
              && w.runs[b.run].job in w.server.jobs && Terminal(w.server.jobs[w.runs[b.run].job].status)
              && w.runs[b.run].node !in w.server.nodes
  {
    var w := EnteredRun();
    hide Reachable;
    w := Emits(w, "a");
    w := RunCompletes(w);
    var b := Batch(0, w.runs[0].pump.buf);
    assert b.entries == [LogEntry(Stdout, "a", 0)];
    w := Asked(w, ReqDeleteNode(0, 0, false));
    assert 0 !in w.server.nodes;
    Extend(w, Flush(0));
    w := Next(w, Flush(0));
    assert Enabled(w, Deliver(b)) && !Accepts(w, b);
  }
}
