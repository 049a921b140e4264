/** What a poller that follows its cursor has read of a job's log, over every run of the composed system. */
module LogReads {
  import opened Types
  import opened JobLogs
  import opened Pumps
  import opened Handlers
  import opened Invariants
  import opened Agents
  import opened AgentRuns
  import opened Delivery
  import opened LogRuns

  // ---------------------------------------------------------------- what a poller has read

  /** The rows read carry the numbers 0, 1, 2, ... */
  ghost predicate Straight(read: seq<LogEntry>) { Consecutive(read, 0) }

  /** If the step is a poll of job j, it reads past no gap. */
  ghost predicate PollsOn(w: World, step: Step, j: JobId) {
    step.Poll? && step.job == j ==> SafePoll(LogOf(w.server, j), CursorOf(ReadOf(w, j)), step.limit)
  }

  /** No poll of job j along the run reads past a gap. */
  ghost predicate NoGapPassed(w: World, steps: seq<Step>, j: JobId)
    requires EnabledRun(w, steps)
    decreases |steps|
  {
    steps == [] || (PollsOn(w, steps[0], j) && NoGapPassed(Next(w, steps[0]), steps[1..], j))
  }

  lemma OtherStepsLeaveReads(w: World, step: Step, j: JobId)
    requires Enabled(w, step) && !(step.Poll? && step.job == j)
    ensures ReadOf(Next(w, step), j) == ReadOf(w, j)
  {
    if IsQuiet(step) {
      hide Next, Enabled;
      QuietGoroutine(w, step, 0);
    } else {
      hide Handle, Emitted, Flushed, History;
    }
  }

  lemma StraightAfterPoll(w: World, j: JobId, limit: nat)
    requires Control(w)
    ensures Straight(ReadOf(Next(w, Poll(j, limit)), j)) <==> Straight(ReadOf(w, j)) && PollsOn(w, Poll(j, limit), j)
  {
    var log, read := LogOf(w.server, j), ReadOf(w, j);
    var rows := ListAfter(log, CursorOf(read), limit);
    assert JobLogs.Keyed(log);
    assert ReadOf(Next(w, Poll(j, limit)), j) == read + rows;
    hide Control, Inv, Consecutive, SafePoll;
    ConsecutiveConcat(read, rows, 0);
    SafePollIff(log, CursorOf(read), limit);
    if Straight(read) { StraightCursor(read); }
  }

  lemma StraightCursor(read: seq<LogEntry>)
    requires Straight(read)
    ensures CursorOf(read) == |read| - 1
  {}

  lemma {:induction false} StraightAlongRun(w: World, steps: seq<Step>, j: JobId)
    requires Good(w) && EnabledRun(w, steps)
    ensures Straight(ReadOf(RunSteps(w, steps), j)) <==> Straight(ReadOf(w, j)) && NoGapPassed(w, steps, j)
    decreases |steps|
  {
    if steps != [] {
      GoodStep(w, steps[0]);
      if steps[0].Poll? && steps[0].job == j {
        StraightAfterPoll(w, j, steps[0].limit);
      } else {
        OtherStepsLeaveReads(w, steps[0], j);
      }
      hide Next, Enabled, Straight, SafePoll;
      StraightAlongRun(Next(w, steps[0]), steps[1..], j);
    }
  }

  lemma StraightPrefix(read: seq<LogEntry>, lines: seq<LogEntry>)
    requires Numbered(lines)
    requires forall i :: 0 <= i < |read| ==> read[i].sequence < |lines| && read[i] == lines[read[i].sequence]
    ensures Straight(read) <==> read <= lines
  {
    if Straight(read) && read != [] {
      assert read[|read| - 1].sequence == |read| - 1;
      assert forall i :: 0 <= i < |read| ==> read[i] == lines[i];
    }
  }

  lemma StraightIsPrefix(w: World, g: nat)
    requires Control(w) && Logging(w) && g < |w.runs|
    ensures Straight(ReadOf(w, w.runs[g].job)) <==> ReadOf(w, w.runs[g].job) <= w.runs[g].lines
  {
    LogIsFaithful(w, g);
    var read, lines := ReadOf(w, w.runs[g].job), w.runs[g].lines;
    forall i | 0 <= i < |read| ensures read[i].sequence < |lines| && read[i] == lines[read[i].sequence] {
      assert read[i] in read;
    }
    hide Control, Logging, Straight;
    StraightPrefix(read, lines);
  }

  /** What a poller has read is a prefix of the emitted lines exactly if no poll read past a gap; what one poll may read
      past is known before it, from the stored numbers, the cursor and the limit. */
  lemma {:induction false} ReadIsPrefixIff(steps: seq<Step>, g: nat)
    requires EnabledRun(START, steps) && g < |RunSteps(START, steps).runs|
    ensures var w := RunSteps(START, steps); var j := w.runs[g].job;
      ReadOf(w, j) <= w.runs[g].lines <==> NoGapPassed(START, steps, j)
  {
    var w := RunSteps(START, steps);
    GoodAlongRun(START, steps);
    StraightAlongRun(START, steps, w.runs[g].job);
    StraightIsPrefix(w, g);
  }

  /** One last poll with room leaves the poller with exactly the emitted lines if and only if nothing was lost and no poll
      before it read past a gap. */
  lemma {:induction false} PollerReadsAllIff(steps: seq<Step>, g: nat, limit: nat)
    requires EnabledRun(START, steps) && g < |RunSteps(START, steps).runs|
    requires var w := RunSteps(START, steps); |w.runs[g].lines| <= |ReadOf(w, w.runs[g].job)| + limit
    ensures var w := RunSteps(START, steps); var j := w.runs[g].job;
      ReadOf(Next(w, Poll(j, limit)), j) == w.runs[g].lines <==> NothingLost(steps, g) && NoGapPassed(START, steps, j)
  {
    var w := RunSteps(START, steps);
    var j := w.runs[g].job;
    GoodAlongRun(START, steps);
    ReadIsPrefixIff(steps, g);
    NothingLostIsFullyStored(steps, g);
    if FullyStored(w, g) {
      LastPoll(w, g, limit);
    } else if ReadOf(Next(w, Poll(j, limit)), j) == w.runs[g].lines {
      ReadRowsAreStored(w, g, limit);
      LogIsFaithful(w, g);
    }
  }

  lemma ReadRowsAreStored(w: World, g: nat, limit: nat)
    requires Good(w) && g < |w.runs|
    requires ReadOf(Next(w, Poll(w.runs[g].job, limit)), w.runs[g].job) == w.runs[g].lines
    ensures StoresAll(w, g)
  {
    var j, lines := w.runs[g].job, w.runs[g].lines;
    LoggingPoll(w, j, limit);
    LogIsFaithful(w, g);
    var w' := Next(w, Poll(j, limit));
    assert ReadOk(w'.server, j, w'.seen[j]);
    forall k: nat | k < |lines| ensures k in LogOf(w.server, j) { assert lines[k] in lines; }
  }

  lemma PrefixAndRest(read: seq<LogEntry>, rows: seq<LogEntry>, lines: seq<LogEntry>)
    ensures read <= lines && rows == lines[|read|..] ==> read + rows == lines
    ensures read + rows == lines ==> read <= lines
  {}

  /** The rows that the poll of a complete log returns after a prefix. */
  lemma RestIsRead(log: JobLog, lines: seq<LogEntry>, read: seq<LogEntry>, limit: nat)
    requires HoldsPrefix(log, lines, |lines|) && read <= lines && |lines| <= |read| + limit
    ensures ListAfter(log, CursorOf(read), limit) == lines[|read|..]
  {
    assert CursorOf(read) == |read| - 1 by {
      if read != [] { assert read[|read| - 1] == lines[|read| - 1]; }
    }
    PrefixRead(log, lines, |lines|, |read|, limit);
  }

  lemma PollAppends(w: World, j: JobId, limit: nat)
    ensures ReadOf(Next(w, Poll(j, limit)), j) == ReadOf(w, j) + ListAfter(LogOf(w.server, j), CursorOf(ReadOf(w, j)), limit)
  {}

  lemma LastPoll(w: World, g: nat, limit: nat)
    requires FullyStored(w, g) && |w.runs[g].lines| <= |ReadOf(w, w.runs[g].job)| + limit
    ensures var j := w.runs[g].job;
      ReadOf(Next(w, Poll(j, limit)), j) == w.runs[g].lines <==> ReadOf(w, j) <= w.runs[g].lines
  {
    var j, lines := w.runs[g].job, w.runs[g].lines;
    var log, read := LogOf(w.server, j), ReadOf(w, j);
    PollAppends(w, j, limit);
    assert HoldsPrefix(log, lines, |lines|);
    hide Next, HoldsPrefix, ListAfter;
    PrefixAndRest(read, ListAfter(log, CursorOf(read), limit), lines);
    if read <= lines { RestIsRead(log, lines, read, limit); }
  }

  // ---------------------------------------------------------------- batches in order

  /** If the step is an accepted batch of job j, it leaves no gap behind it. */
  ghost predicate JoinsOn(w: World, step: Step, j: JobId)
    requires Enabled(w, step)
  {
    step.Deliver? && w.runs[step.batch.run].job == j && Accepts(w, step.batch) ==> Joins(LogOf(w.server, j), step.batch.entries)
  }

  /** Along the run, every accepted batch of job j continues what is stored, or repeats some of it. */
  ghost predicate InOrder(w: World, steps: seq<Step>, j: JobId)
    requires EnabledRun(w, steps)
    decreases |steps|
  {
    steps == [] || (JoinsOn(w, steps[0], j) && InOrder(Next(w, steps[0]), steps[1..], j))
  }

  lemma GaplessDeliver(w: World, b: Batch)
    requires Good(w) && Enabled(w, Deliver(b)) && Gapless(LogOf(w.server, w.runs[b.run].job))
    requires Accepts(w, b) ==> Joins(LogOf(w.server, w.runs[b.run].job), b.entries)
    ensures Gapless(LogOf(Next(w, Deliver(b)).server, w.runs[b.run].job))
  {
    if Accepts(w, b) {
      LogIsFaithful(w, b.run);
      assert Piece(b.entries, w.runs[b.run].lines);
      hide Good, Gapless, Piece, Joins;
      JoiningStaysGapless(LogOf(w.server, w.runs[b.run].job), b.entries, w.runs[b.run].lines);
    }
  }

  lemma GaplessStep(w: World, step: Step, j: JobId)
    requires Good(w) && Enabled(w, step) && JoinsOn(w, step, j) && Gapless(LogOf(w.server, j))
    ensures Gapless(LogOf(Next(w, step).server, j))
  {
    if step.Deliver? && w.runs[step.batch.run].job == j {
      GaplessDeliver(w, step.batch);
    } else {
      OtherStepsLeaveLog(w, step, j);
    }
  }

  lemma {:induction false} InOrderPassesNoGap(w: World, steps: seq<Step>, j: JobId)
    requires Good(w) && EnabledRun(w, steps) && InOrder(w, steps, j) && Gapless(LogOf(w.server, j))
    ensures NoGapPassed(w, steps, j)
    decreases |steps|
  {
    if steps != [] {
      GoodStep(w, steps[0]);
      GaplessStep(w, steps[0], j);
      hide Good, Enabled, Next, Gapless, JoinsOn;
      if steps[0].Poll? { GaplessIsSafe(LogOf(w.server, j), CursorOf(ReadOf(w, j)), steps[0].limit); }
      InOrderPassesNoGap(Next(w, steps[0]), steps[1..], j);
    }
  }

  /** If the batches of a job arrive in order, repeats allowed, a poller has always read a prefix of the emitted lines,
      whenever it polls; and if nothing was lost either, one last poll with room has read every line. */
  lemma {:induction false} InOrderPollerMissesNothing(steps: seq<Step>, g: nat, limit: nat)
    requires EnabledRun(START, steps) && g < |RunSteps(START, steps).runs|
    requires InOrder(START, steps, RunSteps(START, steps).runs[g].job)
    ensures var w := RunSteps(START, steps); var j := w.runs[g].job;
      && ReadOf(w, j) <= w.runs[g].lines
      && (NothingLost(steps, g) && |w.runs[g].lines| <= |ReadOf(w, j)| + limit ==>
            ReadOf(Next(w, Poll(j, limit)), j) == w.runs[g].lines)
  {
    var w := RunSteps(START, steps);
    InOrderPassesNoGap(START, steps, w.runs[g].job);
    ReadIsPrefixIff(steps, g);
    if NothingLost(steps, g) && |w.runs[g].lines| <= |ReadOf(w, w.runs[g].job)| + limit { PollerReadsAllIff(steps, g, limit); }
  }

  // ---------------------------------------------------------------- a line passed over

  /** The poller of job j is past number k and has not read it. */
  ghost predicate PassedOver(w: World, j: JobId, k: nat) {
    k <= CursorOf(ReadOf(w, j)) && forall r :: r in ReadOf(w, j) ==> r.sequence != k
  }

  lemma PassedOverStep(w: World, step: Step, j: JobId, k: nat)
    requires Control(w) && Enabled(w, step) && PassedOver(w, j, k)
    ensures PassedOver(Next(w, step), j, k)
  {
    if step.Poll? && step.job == j {
      ListAfterRows(LogOf(w.server, j), CursorOf(ReadOf(w, j)), step.limit);
    } else {
      OtherStepsLeaveReads(w, step, j);
    }
  }

  /** A line that a poller has passed over is in none of its later reads, whatever happens afterwards. */
  lemma {:induction false} LateLineIsMissed(w: World, steps: seq<Step>, j: JobId, k: nat)
    requires Control(w) && EnabledRun(w, steps) && PassedOver(w, j, k)
    ensures PassedOver(RunSteps(w, steps), j, k)
    decreases |steps|
  {
    if steps != [] {
      ControlStep(w, steps[0]);
      PassedOverStep(w, steps[0], j, k);
      LateLineIsMissed(Next(w, steps[0]), steps[1..], j, k);
    }
  }

  /** From the empty system on: what a poller passed over in the first part of a run it has not read at the end. */
  lemma {:induction false} LateBatchIsMissed(before: seq<Step>, later: seq<Step>, j: JobId, k: nat)
    requires EnabledRun(START, before) && EnabledRun(RunSteps(START, before), later)
    requires PassedOver(RunSteps(START, before), j, k)
    ensures forall r :: r in ReadOf(RunSteps(RunSteps(START, before), later), j) ==> r.sequence != k
  {
    GoodRun(START, before);
    LateLineIsMissed(RunSteps(START, before), later, j, k);
  }
}
