/** A reachable run of the composed system in which one batch overtakes another, and a poller misses a stored line for good:
    the guarantee to read everything needs polls that read past no gap. */
module Overtaking {
  import opened Types
  import opened JobLogs
  import opened Pumps
  import opened Handlers
  import opened Agents
  import opened AgentRuns
  import opened BusyFlag
  import opened Delivery
  import opened LogRuns
  import opened LogReads

  const FIRST := LogEntry(Stdout, "a", 0)
  const SECOND := LogEntry(Stdout, "b", 1)

  /** One line, posted in a batch of its own. */
  lemma EmitAndPost(w: World, content: string) returns (w': World)
    requires Reachable(w) && |w.runs| == 1 && w.runs[0].phase == Entered && w.runs[0].pump.buf == [] && content != ""
    ensures Reachable(w')
    ensures var r, e := w.runs[0], LogEntry(Stdout, content, w.runs[0].pump.nextSeq);
      w' == w.(runs := [r.(pump := Pump([], r.pump.nextSeq + 1), lines := r.lines + [e])], net := w.net + {Batch(0, [e])})
  {
    hide Reachable;
    var r, e := w.runs[0], LogEntry(Stdout, content, w.runs[0].pump.nextSeq);
    assert r.pump.buf + [e] == [e];
    Extend(w, Emit(0, Stdout, content));
    w' := Next(w, Emit(0, Stdout, content));
    assert w'.runs == [r.(pump := Pump([e], r.pump.nextSeq + 1), lines := r.lines + [e])];
    Extend(w', Flush(0));
    w' := Next(w', Flush(0));
    assert w'.runs == [r.(pump := Pump([], r.pump.nextSeq + 1), lines := r.lines + [e])];
  }

  /** The job's goroutine has emitted two lines and posted each in a batch of its own. */
  lemma TwoBatchesPosted() returns (w: World)
    ensures Reachable(w) && w.seen == map[] && w.server.logs == map[]
    ensures |w.runs| == 1 && w.runs[0].node == 0 && w.runs[0].job == 0
    ensures w.runs[0].lines == [FIRST, SECOND] && w.runs[0].pump.buf == []
    ensures w.net == {Batch(0, [FIRST]), Batch(0, [SECOND])}
    ensures 0 in w.server.nodes && 0 in w.server.jobs && w.server.jobs[0].assignedNode == Some(0)
  {
    w := FirstJobClaimed();
    hide Reachable;
    Extend(w, EnterRun(0));
    w := Next(w, EnterRun(0));
    w := EmitAndPost(w, "a");
    w := EmitAndPost(w, "b");
  }

  lemma Arrives(w: World, b: Batch, e: LogEntry) returns (w': World)
    requires Reachable(w) && b in w.net && b.entries == [e] && 1 <= |e.content| <= MAX_CONTENT
    requires |w.runs| == 1 && b.run == 0
    requires w.runs[0].node == 0 && w.runs[0].job == 0
    requires 0 in w.server.nodes && 0 in w.server.jobs && w.server.jobs[0].assignedNode == Some(0)
    ensures Reachable(w') && w' == w.(server := w'.server)
    ensures w'.server == w.server.(logs := w.server.logs[0 := InsertRow(LogOf(w.server, 0), e)])
  {
    Extend(w, Deliver(b));
    w' := Next(w, Deliver(b));
    InsertOne(LogOf(w.server, 0), e);
  }

  lemma OnlyRow(log: JobLog, limit: nat, k: nat)
    requires log.Keys == {k} && limit > 0
    ensures ListAfter(log, -1, limit) == [log[k]]
  {
    assert k in Following(log, -1) && Least(Following(log, -1)) == k;
    assert forall x :: x in Following(log, k) ==> x in log.Keys && x > k;
  }

  /** Everything emitted is stored, and the poller that has read the second line has passed over the first for good. */
  lemma BatchesCanOvertake()
    ensures exists w :: Reachable(w) && FullyStored(w, 0) && w.runs[0].lines == [FIRST, SECOND]
              && ReadOf(w, w.runs[0].job) == [SECOND] && PassedOver(w, w.runs[0].job, 0)
  {
    var w := TwoBatchesPosted();
    hide Reachable;
    w := Arrives(w, Batch(0, [SECOND]), SECOND);
    OnlyRow(LogOf(w.server, 0), 500, 1);
    Extend(w, Poll(0, 500));
    w := Next(w, Poll(0, 500));
    w := Arrives(w, Batch(0, [FIRST]), FIRST);
    assert LogOf(w.server, 0) == map[1 := SECOND, 0 := FIRST];
    assert FullyStored(w, 0);
    assert ReadOf(w, 0) == [SECOND];
  }
}
