/** The log of a job over every run of the composed system: what is posted, which posts the server accepts, and what is then
    stored. */
module LogRuns {
  import opened Types
  import opened JobLogs
  import opened Pumps
  import opened Handlers
  import opened Invariants
  import opened Agents
  import opened AgentRuns
  import opened Delivery
  import Outcomes

  // ---------------------------------------------------------------- one step

  /** The request that a step has the server process, if any. */
  ghost function Served(w: World, step: Step): Option<Request>
    requires Enabled(w, step)
  {
    match step
    case Outside(r) => Some(r)
    case HeartbeatOk(n, now) => Some(ReqHeartbeat(n, now))
    case HeartbeatLost(n, now) => Some(ReqHeartbeat(n, now))
    case ClaimOk(n, now) => Some(ReqClaim(n, now))
    case ClaimLost(n, now) => Some(ReqClaim(n, now))
    case CompleteOk(g, now, now2) => Some(ReqComplete(w.runs[g].node, w.runs[g].job, w.runs[g].phase.code, now, now2))
    case Deliver(b) => Some(ReqPushLogs(w.runs[b.run].node, w.runs[b.run].job, b.entries))
    case _ => None
  }

  lemma HandlesClaim(s: Server, n: NodeId, now: Time)
    ensures Handle(s, ReqClaim(n, now)) == Commit(s, Claim(s, n, now))
  {}

  lemma ServerMovesAsServed(w: World, step: Step)
    requires Enabled(w, step)
    ensures Next(w, step).server ==
      match Served(w, step) case Some(r) => Handle(w.server, r) case None => w.server
  {
    hide Handle, Claim, CancelTarget;
    match step
    case HeartbeatOk(n, now) => HeartbeatIsSilent(w.server, n, now);
    case ClaimOk(n, now) => HandlesClaim(w.server, n, now);
    case _ =>
  }

  /** Goroutines keep their job and node; a new one has not started. */
  lemma GoroutineStays(w: World, step: Step, g: nat)
    requires Enabled(w, step)
    ensures var w' := Next(w, step);
      && |w.runs| <= |w'.runs|
      && (g < |w.runs| ==> w'.runs[g].job == w.runs[g].job && w'.runs[g].node == w.runs[g].node)
      && (|w.runs| <= g < |w'.runs| ==> w'.runs[g].phase == Spawned)
  {
    hide Handle, Claim, Heartbeat;
  }

  lemma LogsGrowStep(w: World, step: Step)
    requires Enabled(w, step)
    ensures LogsGrow(w.server, Next(w, step).server)
  {
    ServerMovesAsServed(w, step);
    if step.Deliver? {
      var b := step.batch;
      AppendGrows(w.server, w.runs[b.run].node, w.runs[b.run].job, b.entries);
    } else if Served(w, step).Some? {
      OtherRequestsLeaveLogs(w.server, Served(w, step).value);
    }
  }

  lemma OtherStepsLeaveLog(w: World, step: Step, j: JobId)
    requires Enabled(w, step) && !(step.Deliver? && w.runs[step.batch.run].job == j)
    ensures LogOf(Next(w, step).server, j) == LogOf(w.server, j)
  {
    ServerMovesAsServed(w, step);
    hide Next, Handle;
    if step.Deliver? {
      AppendGrows(w.server, w.runs[step.batch.run].node, w.runs[step.batch.run].job, step.batch.entries);
    } else if Served(w, step).Some? {
      OtherRequestsLeaveLogs(w.server, Served(w, step).value);
    }
  }

  // ---------------------------------------------------------------- no line vanishes before it is posted

  ghost predicate Posted(w: World, g: nat, k: nat) {
    exists b :: b in w.net && b.run == g && Carries(b.entries, k)
  }

  /** Posted batches are consecutive lines that come before the buffered ones. */
  ghost predicate Pieces(w: World) {
    forall b :: b in w.net ==>
      && b.run < |w.runs| && Piece(b.entries, w.runs[b.run].lines)
      && b.entries[0].sequence + |b.entries| + |w.runs[b.run].pump.buf| <= |w.runs[b.run].lines|
  }

  /** Every line that has left the buffer was posted. */
  ghost predicate AllPosted(w: World) {
    forall g: nat, k: nat :: g < |w.runs| && k + |w.runs[g].pump.buf| < |w.runs[g].lines| ==> Posted(w, g, k)
  }

  /** No line was posted in two batches. */
  ghost predicate PostedOnce(w: World) {
    forall b, c, k :: b in w.net && c in w.net && b.run == c.run && Carries(b.entries, k) && Carries(c.entries, k) ==> b == c
  }

  ghost predicate Posting(w: World) { Pieces(w) && AllPosted(w) && PostedOnce(w) }

  lemma PieceOfLonger(batch: seq<LogEntry>, lines: seq<LogEntry>, lines': seq<LogEntry>)
    requires Piece(batch, lines) && lines <= lines'
    ensures Piece(batch, lines')
  {}

  lemma PieceCarries(batch: seq<LogEntry>, lines: seq<LogEntry>, k: nat)
    requires Numbered(lines) && Piece(batch, lines)
    ensures Carries(batch, k) <==> batch[0].sequence <= k < batch[0].sequence + |batch|
  {
    var m := batch[0].sequence;
    assert forall i :: 0 <= i < |batch| ==> batch[i] == lines[m + i];
    if m <= k < m + |batch| { assert batch[k - m].sequence == k; }
  }

  /** Lines may be added if they are buffered. */
  lemma PostingStays(w: World, w': World)
    requires Posting(w) && w'.net == w.net && |w.runs| <= |w'.runs|
    requires forall g :: 0 <= g < |w.runs| ==>
      && w.runs[g].lines <= w'.runs[g].lines
      && |w'.runs[g].lines| - |w'.runs[g].pump.buf| == |w.runs[g].lines| - |w.runs[g].pump.buf|
    requires forall g :: |w.runs| <= g < |w'.runs| ==> w'.runs[g].lines == []
    ensures Posting(w')
  {
    forall b | b in w'.net ensures b.run < |w'.runs| && Piece(b.entries, w'.runs[b.run].lines) {
      PieceOfLonger(b.entries, w.runs[b.run].lines, w'.runs[b.run].lines);
    }
    forall g: nat, k: nat | g < |w'.runs| && k + |w'.runs[g].pump.buf| < |w'.runs[g].lines| ensures Posted(w', g, k) {
      assert Posted(w, g, k);
    }
  }

  /** The flushed batch starts where all earlier ones have ended. */
  lemma FlushedIsNew(w: World, g: nat, b: Batch, k: nat)
    requires PumpsOk(w) && Pieces(w) && g < |w.runs| && b in w.net && b.run == g && Carries(w.runs[g].pump.buf, k)
    ensures !Carries(b.entries, k)
  {
    BufferIsCut(w.runs[g].pump, w.runs[g].lines);
    PieceCarries(b.entries, w.runs[g].lines, k);
  }

  lemma FlushedIsPosted(w: World, g: nat, h: nat, k: nat)
    requires PumpsOk(w) && AllPosted(w) && Enabled(w, Flush(g)) && w.runs[g].pump.buf != []
    requires var w' := Next(w, Flush(g)); h < |w'.runs| && k + |w'.runs[h].pump.buf| < |w'.runs[h].lines|
    ensures Posted(Next(w, Flush(g)), h, k)
  {
    var w', r := Next(w, Flush(g)), w.runs[g];
    var m := |r.lines| - |r.pump.buf|;
    if h == g && m <= k {
      BufferIsCut(r.pump, r.lines);
      assert r.pump.buf[k - m].sequence == k;
      assert Batch(g, r.pump.buf) in w'.net;
    } else {
      assert Posted(w, h, k);
    }
  }

  lemma FlushedPieces(w: World, g: nat)
    requires PumpsOk(w) && Pieces(w) && Enabled(w, Flush(g)) && w.runs[g].pump.buf != []
    ensures Pieces(Next(w, Flush(g)))
  {
    BufferIsCut(w.runs[g].pump, w.runs[g].lines);
    assert Piece(w.runs[g].pump.buf, w.runs[g].lines);
  }

  lemma PostingFlush(w: World, g: nat)
    requires PumpsOk(w) && Posting(w) && Enabled(w, Flush(g))
    ensures Posting(Next(w, Flush(g)))
  {
    var w', r := Next(w, Flush(g)), w.runs[g];
    if r.pump.buf != [] {
      BufferIsCut(r.pump, r.lines);
      FlushedPieces(w, g);
      hide Pieces;
      forall h: nat, k: nat | h < |w'.runs| && k + |w'.runs[h].pump.buf| < |w'.runs[h].lines| ensures Posted(w', h, k) {
        FlushedIsPosted(w, g, h, k);
      }
      forall b, k | b in w.net && b.run == g && Carries(r.pump.buf, k) ensures !Carries(b.entries, k) {
        FlushedIsNew(w, g, b, k);
      }
    }
  }

  lemma PostingQuiet(w: World, step: Step)
    requires Posting(w) && Enabled(w, step) && IsQuiet(step)
    ensures Posting(Next(w, step))
  {
    hide Next, Enabled, Posting;
    QuietGoroutine(w, step, 0);
    forall g: nat { QuietGoroutine(w, step, g); }
    PostingStays(w, Next(w, step));
  }

  lemma PostingEmit(w: World, step: Step)
    requires PumpsOk(w) && Posting(w) && Enabled(w, step) && step.Emit?
    ensures Posting(Next(w, step))
  {
    var r := w.runs[step.run];
    assert r.lines <= History(r.lines, r.pump, step.stream, step.content);
    hide Posting;
    PostingStays(w, Next(w, step));
  }

  lemma PostingStep(w: World, step: Step)
    requires PumpsOk(w) && Posting(w) && Enabled(w, step)
    ensures Posting(Next(w, step))
  {
    if step.Flush? {
      PostingFlush(w, step.run);
    } else if step.Emit? {
      PostingEmit(w, step);
    } else if step.Deliver? || step.Poll? {
      hide Posting, Handle;
      PostingStays(w, Next(w, step));
    } else {
      PostingQuiet(w, step);
    }
  }

  // ---------------------------------------------------------------- runs

  ghost predicate Good(w: World) { Control(w) && Logging(w) && Posting(w) }

  lemma GoodStep(w: World, step: Step)
    requires Good(w) && Enabled(w, step)
    ensures Good(Next(w, step))
  {
    ControlStep(w, step);
    LoggingStep(w, step);
    PostingStep(w, step);
  }

  lemma {:induction false} GoodAlongRun(w: World, steps: seq<Step>)
    requires Good(w) && EnabledRun(w, steps)
    ensures Good(RunSteps(w, steps))
    decreases |steps|
  {
    if steps != [] {
      GoodStep(w, steps[0]);
      GoodAlongRun(Next(w, steps[0]), steps[1..]);
    }
  }

  /** In every interleaving, every emitted line is still in the buffer or in a posted batch. */
  lemma {:induction false} NoLineVanishes(steps: seq<Step>, g: nat, k: nat)
    requires EnabledRun(START, steps) && g < |RunSteps(START, steps).runs| && k < |RunSteps(START, steps).runs[g].lines|
    ensures var w := RunSteps(START, steps);
      w.runs[g].lines[k] in w.runs[g].pump.buf || Posted(w, g, k)
  {
    GoodAlongRun(START, steps);
    var r := RunSteps(START, steps).runs[g];
    var m := |r.lines| - |r.pump.buf|;
    assert Tracks(r.pump, r.lines);
    if m <= k { assert r.pump.buf[k - m] == r.lines[k]; }
  }

  // ---------------------------------------------------------------- which posts are accepted

  ghost predicate Accepts(w: World, b: Batch)
    requires Enabled(w, Deliver(b))
  {
    PushLogs(w.server, w.runs[b.run].node, w.runs[b.run].job, b.entries).Ok?
  }

  ghost predicate Deletes(step: Step, n: NodeId) {
    step.Outside? && step.request.ReqDeleteNode? && step.request.node == n
  }

  /** A goroutine's job is its node's, or nobody's. */
  ghost predicate InPlace(w: World) {
    forall g :: 0 <= g < |w.runs| ==>
      && w.runs[g].job in w.server.jobs
      && w.server.jobs[w.runs[g].job].assignedNode in {Some(w.runs[g].node), None}
  }

  /** The jobs of node n's goroutines are still assigned to it. */
  ghost predicate Kept(w: World, n: NodeId) {
    forall g :: 0 <= g < |w.runs| && w.runs[g].node == n ==>
      w.runs[g].job in w.server.jobs && w.server.jobs[w.runs[g].job].assignedNode == Some(n)
  }

  lemma NodeAfterStep(w: World, step: Step, j: JobId)
    requires Inv(w.server) && Enabled(w, step) && j in w.server.jobs && w.server.jobs[j].startedAt.Some?
    ensures j in Next(w, step).server.jobs
    ensures var a, b := w.server.jobs[j].assignedNode, Next(w, step).server.jobs[j].assignedNode;
      b == a || (b == None && a.Some? && Deletes(step, a.value))
  {
    ServerMovesAsServed(w, step);
    hide Next, Handle, Inv;
    if Served(w, step).Some? { StartedKeepsNode(w.server, Served(w, step).value, j); }
  }

  lemma PlaceAfterStep(w: World, step: Step, g: nat)
    requires Control(w) && Enabled(w, step) && g < |Next(w, step).runs|
    ensures var w' := Next(w, step);
      var j, n := w'.runs[g].job, w'.runs[g].node;
      && j in w'.server.jobs
      && (g >= |w.runs| ==> w'.server.jobs[j].assignedNode == Some(n))
      && (g < |w.runs| ==>
            && w.runs[g].job == j && w.runs[g].node == n && j in w.server.jobs
            && var a, b := w.server.jobs[j].assignedNode, w'.server.jobs[j].assignedNode;
               b == a || (b == None && a.Some? && Deletes(step, a.value)))
  {
    hide Next, Enabled, Inv;
    GoroutineStays(w, step, g);
    ControlStep(w, step);
    assert Backed(Next(w, step).server, Next(w, step).runs[g]);
    if g < |w.runs| {
      assert Backed(w.server, w.runs[g]);
      NodeAfterStep(w, step, w.runs[g].job);
    }
  }

  lemma PlacesStep(w: World, step: Step, n: NodeId)
    requires Control(w) && Enabled(w, step) && InPlace(w)
    ensures InPlace(Next(w, step))
    ensures Kept(w, n) && !Deletes(step, n) ==> Kept(Next(w, step), n)
  {
    hide Control, Enabled, Next;
    forall g: nat | g < |Next(w, step).runs| { PlaceAfterStep(w, step, g); }
  }

  lemma {:induction false} PlacesAlongRun(w: World, steps: seq<Step>, n: NodeId)
    requires Control(w) && EnabledRun(w, steps) && InPlace(w)
    ensures InPlace(RunSteps(w, steps))
    ensures Kept(w, n) && (forall i :: 0 <= i < |steps| ==> !Deletes(steps[i], n)) ==> Kept(RunSteps(w, steps), n)
    decreases |steps|
  {
    if steps != [] {
      ControlStep(w, steps[0]);
      PlacesStep(w, steps[0], n);
      hide Control, Enabled, Next, InPlace, Kept;
      PlacesAlongRun(Next(w, steps[0]), steps[1..], n);
    }
  }

  /** The schema's bound on a line; the daemon emits longer ones. */
  ghost predicate AllShort(lines: seq<LogEntry>) { forall k :: 0 <= k < |lines| ==> |lines[k].content| <= MAX_CONTENT }

  ghost predicate ShortSoFar(w: World, g: nat) { g < |w.runs| ==> AllShort(w.runs[g].lines) }

  /** The step emits no line of goroutine g beyond the bound. */
  predicate EmitsShort(step: Step, g: nat) { step.Emit? && step.run == g ==> |step.content| <= MAX_CONTENT }

  lemma ShortAfterStep(w: World, step: Step, g: nat)
    requires Enabled(w, step) && ShortSoFar(w, g) && EmitsShort(step, g)
    ensures ShortSoFar(Next(w, step), g)
  {
    if IsQuiet(step) {
      hide Next, Enabled;
      QuietGoroutine(w, step, g);
    } else {
      hide Handle;
    }
  }

  lemma {:induction false} ShortAlongRun(w: World, steps: seq<Step>, g: nat)
    requires EnabledRun(w, steps) && ShortSoFar(w, g) && forall i :: 0 <= i < |steps| ==> EmitsShort(steps[i], g)
    ensures ShortSoFar(RunSteps(w, steps), g)
    decreases |steps|
  {
    if steps != [] {
      ShortAfterStep(w, steps[0], g);
      ShortAlongRun(Next(w, steps[0]), steps[1..], g);
    }
  }

  /** A posted batch is within the schema's bounds exactly if none of its lines is too long. */
  lemma PostableIff(w: World, b: Batch)
    requires PumpsOk(w) && Pieces(w) && b in w.net
    ensures Postable(b.entries) <==> AllShort(b.entries)
    ensures AllShort(w.runs[b.run].lines) ==> Postable(b.entries)
  {
    var lines, m := w.runs[b.run].lines, b.entries[0].sequence;
    assert Tracks(w.runs[b.run].pump, lines);
    assert forall i :: 0 <= i < |b.entries| ==> b.entries[i] == lines[m + i];
    forall i | 0 <= i < |b.entries| ensures 1 <= |b.entries[i].content| { assert lines[m + i].content != ""; }
    if Postable(b.entries) {
      forall i | 0 <= i < |b.entries| ensures |b.entries[i].content| <= MAX_CONTENT { assert b.entries[i] in b.entries; }
    }
  }

  lemma AcceptsIff(w: World, b: Batch)
    requires Good(w) && InPlace(w) && Enabled(w, Deliver(b))
    ensures var j, n := w.runs[b.run].job, w.runs[b.run].node;
      && j in w.server.jobs && w.server.jobs[j].assignedNode in {Some(n), None}
      && (Accepts(w, b) <==> w.server.jobs[j].assignedNode == Some(n) && AllShort(b.entries))
      && (w.server.jobs[j].assignedNode == Some(n) && AllShort(w.runs[b.run].lines) ==> Accepts(w, b))
  {
    var j, n := w.runs[b.run].job, w.runs[b.run].node;
    Outcomes.PushLogsIff(w.server, n, j, b.entries);
    PostableIff(w, b);
    hide PushLogs, Postable, AllShort, Control, Logging;
  }

  /** A batch is accepted exactly if its job is still assigned to the node that ran it and none of its lines is longer than
      the schema allows. Nothing but the node's deletion ends the first, and the second is known when a line is emitted: as
      long as nobody deletes the node and no line of the goroutine is too long, every batch that arrives is accepted. */
  lemma {:induction false} BatchAcceptedIff(steps: seq<Step>, b: Batch)
    requires EnabledRun(START, steps) && Enabled(RunSteps(START, steps), Deliver(b))
    ensures var w := RunSteps(START, steps);
      var j, n := w.runs[b.run].job, w.runs[b.run].node;
      && j in w.server.jobs && w.server.jobs[j].assignedNode in {Some(n), None}
      && (Accepts(w, b) <==> w.server.jobs[j].assignedNode == Some(n) && AllShort(b.entries))
      && ((forall i :: 0 <= i < |steps| ==> !Deletes(steps[i], n) && EmitsShort(steps[i], b.run)) ==> Accepts(w, b))
  {
    var w := RunSteps(START, steps);
    var n := w.runs[b.run].node;
    GoodAlongRun(START, steps);
    PlacesAlongRun(START, steps, n);
    AcceptsIff(w, b);
    if forall i :: 0 <= i < |steps| ==> !Deletes(steps[i], n) && EmitsShort(steps[i], b.run) {
      ShortAlongRun(START, steps, b.run);
    }
  }

  // ---------------------------------------------------------------- accepted batches stay stored

  /** The batches that the server accepted along a run. */
  ghost function Accepted(w: World, steps: seq<Step>): set<Batch>
    requires EnabledRun(w, steps)
    decreases |steps|
  {
    if steps == [] then {}
    else (if steps[0].Deliver? && Accepts(w, steps[0].batch) then {steps[0].batch} else {}) + Accepted(Next(w, steps[0]), steps[1..])
  }

  ghost predicate StoresBatch(w: World, b: Batch) {
    b.run < |w.runs| && forall k: nat :: Carries(b.entries, k) ==> k in LogOf(w.server, w.runs[b.run].job)
  }

  lemma StoredStays(w: World, step: Step, b: Batch)
    requires Enabled(w, step) && StoresBatch(w, b)
    ensures StoresBatch(Next(w, step), b)
  {
    LogsGrowStep(w, step);
    GoroutineStays(w, step, b.run);
  }

  lemma AcceptedIsStored(w: World, b: Batch)
    requires Enabled(w, Deliver(b)) && Accepts(w, b)
    ensures StoresBatch(Next(w, Deliver(b)), b)
  {
    forall k: nat { InsertKeys(LogOf(w.server, w.runs[b.run].job), b.entries, k); }
  }

  lemma {:induction false} StoredAlongRun(w: World, steps: seq<Step>, b: Batch)
    requires EnabledRun(w, steps) && (StoresBatch(w, b) || b in Accepted(w, steps))
    ensures StoresBatch(RunSteps(w, steps), b)
    decreases |steps|
  {
    if steps != [] {
      hide Next, Enabled, StoresBatch, Accepts;
      if StoresBatch(w, b) {
        StoredStays(w, steps[0], b);
      } else if steps[0].Deliver? && steps[0].batch == b && Accepts(w, b) {
        AcceptedIsStored(w, b);
      }
      StoredAlongRun(Next(w, steps[0]), steps[1..], b);
    }
  }

  /** The goroutine has nothing left in its buffer, and all it posted was accepted along the run. */
  ghost predicate NothingLost(steps: seq<Step>, g: nat)
    requires EnabledRun(START, steps)
  {
    var w := RunSteps(START, steps);
    && g < |w.runs| && w.runs[g].pump.buf == []
    && forall b :: b in w.net && b.run == g ==> b in Accepted(START, steps)
  }

  ghost predicate FullyStored(w: World, g: nat) {
    && g < |w.runs|
    && HoldsPrefix(LogOf(w.server, w.runs[g].job), w.runs[g].lines, |w.runs[g].lines|)
  }

  /** Every stored number came with a batch of the job's goroutine that is among these. */
  ghost predicate Brought(w: World, done: set<Batch>) {
    forall j, k: nat :: k in LogOf(w.server, j) ==> exists b :: Brings(w, done, b, j, k)
  }

  ghost predicate Brings(w: World, done: set<Batch>, b: Batch, j: JobId, k: nat) {
    b in done && b in w.net && b.run < |w.runs| && w.runs[b.run].job == j && Carries(b.entries, k)
  }

  lemma NetGrows(w: World, step: Step, b: Batch)
    requires Enabled(w, step) && b in w.net
    ensures b in Next(w, step).net
  {
    hide Handle, Claim, Heartbeat;
  }

  lemma BringsStays(w: World, step: Step, done: set<Batch>, done': set<Batch>, b: Batch, j: JobId, k: nat)
    requires Enabled(w, step) && Brings(w, done, b, j, k) && done <= done'
    ensures Brings(Next(w, step), done', b, j, k)
  {
    hide Next, Enabled;
    NetGrows(w, step, b);
    GoroutineStays(w, step, b.run);
  }

  /** What a step adds to a log came with the batch that it delivers, which was accepted. */
  lemma NewlyStored(w: World, step: Step, j: JobId, k: nat)
    requires Enabled(w, step) && k in LogOf(Next(w, step).server, j) && k !in LogOf(w.server, j)
    ensures step.Deliver? && Accepts(w, step.batch) && w.runs[step.batch.run].job == j && Carries(step.batch.entries, k)
  {
    if step.Deliver? && w.runs[step.batch.run].job == j {
      InsertKeys(LogOf(w.server, j), step.batch.entries, k);
    } else {
      OtherStepsLeaveLog(w, step, j);
    }
  }

  lemma BroughtStep(w: World, step: Step, done: set<Batch>, done': set<Batch>)
    requires Enabled(w, step) && Brought(w, done) && done <= done'
    requires step.Deliver? && Accepts(w, step.batch) ==> step.batch in done'
    ensures Brought(Next(w, step), done')
  {
    hide Next, Enabled, Accepts;
    var w' := Next(w, step);
    forall j, k: nat | k in LogOf(w'.server, j) ensures exists b :: Brings(w', done', b, j, k) {
      if k in LogOf(w.server, j) {
        var b :| Brings(w, done, b, j, k);
        BringsStays(w, step, done, done', b, j, k);
      } else {
        NewlyStored(w, step, j, k);
        DeliveredBrings(w, step.batch, done', j, k);
      }
    }
  }

  lemma DeliveredBrings(w: World, b: Batch, done: set<Batch>, j: JobId, k: nat)
    requires Enabled(w, Deliver(b)) && b in done && w.runs[b.run].job == j && Carries(b.entries, k)
    ensures Brings(Next(w, Deliver(b)), done, b, j, k)
  {}

  lemma {:induction false} BroughtAlongRun(w: World, steps: seq<Step>, done: set<Batch>)
    requires EnabledRun(w, steps) && Brought(w, done)
    ensures Brought(RunSteps(w, steps), done + Accepted(w, steps))
    decreases |steps|
  {
    if steps != [] {
      var now := if steps[0].Deliver? && Accepts(w, steps[0].batch) then {steps[0].batch} else {};
      BroughtStep(w, steps[0], done, done + now);
      BroughtAlongRun(Next(w, steps[0]), steps[1..], done + now);
      assert done + now + Accepted(Next(w, steps[0]), steps[1..]) == done + Accepted(w, steps);
    } else {
      assert done + Accepted(w, steps) == done;
    }
  }

  /** Each number below |lines| is stored. */
  ghost predicate StoresAll(w: World, g: nat)
    requires g < |w.runs|
  {
    forall k: nat :: k < |w.runs[g].lines| ==> k in LogOf(w.server, w.runs[g].job)
  }

  /** All lines are stored exactly if nothing was lost: a stored line was in an accepted batch, which ends before the buffer,
      and no other batch carries it. */
  lemma {:induction false} StoresAllIff(steps: seq<Step>, g: nat)
    requires EnabledRun(START, steps) && g < |RunSteps(START, steps).runs|
    ensures StoresAll(RunSteps(START, steps), g) <==> NothingLost(steps, g)
  {
    var w := RunSteps(START, steps);
    GoodAlongRun(START, steps);
    BroughtAlongRun(START, steps, {});
    assert {} + Accepted(START, steps) == Accepted(START, steps);
    if StoresAll(w, g) {
      StoredIsFlushed(w, Accepted(START, steps), g);
      forall b | b in w.net && b.run == g { StoredIsAccepted(w, Accepted(START, steps), b); }
    }
    if NothingLost(steps, g) {
      forall k: nat | k < |w.runs[g].lines| ensures k in LogOf(w.server, w.runs[g].job) {
        assert Posted(w, g, k);
        var b :| b in w.net && b.run == g && Carries(b.entries, k);
        StoredAlongRun(START, steps, b);
      }
    }
  }

  /** The batch of its own goroutine that brought a stored line. */
  lemma OwnBatch(w: World, done: set<Batch>, g: nat, k: nat) returns (b: Batch)
    requires JobsDistinct(w) && Brought(w, done) && g < |w.runs| && k in LogOf(w.server, w.runs[g].job)
    ensures b in done && b in w.net && b.run == g && Carries(b.entries, k)
  {
    b :| Brings(w, done, b, w.runs[g].job, k);
  }

  /** The last line was posted, so nothing is buffered. */
  lemma StoredIsFlushed(w: World, done: set<Batch>, g: nat)
    requires Good(w) && Brought(w, done) && g < |w.runs| && StoresAll(w, g)
    ensures w.runs[g].pump.buf == []
  {
    var lines := w.runs[g].lines;
    assert Tracks(w.runs[g].pump, lines);
    if lines != [] {
      var last := OwnBatch(w, done, g, |lines| - 1);
      assert Pieces(w);
      hide Good, Brought, StoresAll, Control, Logging, AllPosted, PostedOnce;
      PieceCarries(last.entries, lines, |lines| - 1);
    }
  }

  /** The one batch that carries a stored line is the one that brought it. */
  lemma StoredIsAccepted(w: World, done: set<Batch>, b: Batch)
    requires Good(w) && Brought(w, done) && b in w.net && b.run < |w.runs| && StoresAll(w, b.run)
    ensures b in done
  {
    var k := b.entries[0].sequence;
    assert Carries(b.entries, k);
    assert k < |w.runs[b.run].lines|;
    var c := OwnBatch(w, done, b.run, k);
    assert PostedOnce(w);
    hide Good, Brought, StoresAll, Control, Logging, AllPosted, Pieces;
  }

  lemma {:induction false} NothingLostIsFullyStored(steps: seq<Step>, g: nat)
    requires EnabledRun(START, steps) && g < |RunSteps(START, steps).runs|
    ensures NothingLost(steps, g) <==> FullyStored(RunSteps(START, steps), g)
  {
    GoodAlongRun(START, steps);
    StoresAllIff(steps, g);
    LogIsFaithful(RunSteps(START, steps), g);
  }

  lemma LogIsFaithful(w: World, g: nat)
    requires Control(w) && Logging(w) && g < |w.runs|
    ensures Numbered(w.runs[g].lines) && Faithful(LogOf(w.server, w.runs[g].job), w.runs[g].lines)
  {
    assert Tracks(w.runs[g].pump, w.runs[g].lines);
    if w.runs[g].job in w.server.logs { OneStore(w, w.runs[g].job, g); }
  }

  /** A read of the job from the start, with room, returns exactly the emitted lines if and only if the buffer is flushed and
      every posted batch was accepted, in whatever order and however often. */
  lemma {:induction false} LogIsCompleteIff(steps: seq<Step>, g: nat, limit: nat)
    requires EnabledRun(START, steps) && g < |RunSteps(START, steps).runs| && |RunSteps(START, steps).runs[g].lines| <= limit
    ensures var w := RunSteps(START, steps);
      ListAfter(LogOf(w.server, w.runs[g].job), -1, limit) == w.runs[g].lines <==> NothingLost(steps, g)
  {
    var w := RunSteps(START, steps);
    GoodAlongRun(START, steps);
    StoresAllIff(steps, g);
    LogIsFaithful(w, g);
    assert JobLogs.Keyed(LogOf(w.server, w.runs[g].job));
    hide Good, NothingLost, Control, Logging;
    WholeReadIff(LogOf(w.server, w.runs[g].job), w.runs[g].lines, limit);
  }

  lemma WholeReadIff(log: JobLog, lines: seq<LogEntry>, limit: nat)
    requires Numbered(lines) && Faithful(log, lines) && JobLogs.Keyed(log) && |lines| <= limit
    ensures ListAfter(log, -1, limit) == lines <==> forall k: nat :: k < |lines| ==> k in log
  {
    if forall k: nat :: k < |lines| ==> k in log {
      WholeRead(log, lines, limit);
    } else if ListAfter(log, -1, limit) == lines {
      ListAfterRows(log, -1, limit);
      forall k: nat | k < |lines| ensures k in log { assert lines[k] in lines; }
    }
  }

  // ---------------------------------------------------------------- nothing is lost if everything arrives

  lemma {:induction false} GoroutineStaysAlongRun(w: World, steps: seq<Step>, g: nat)
    requires EnabledRun(w, steps) && g < |w.runs|
    ensures g < |RunSteps(w, steps).runs| && RunSteps(w, steps).runs[g].node == w.runs[g].node
    ensures RunSteps(w, steps).runs[g].job == w.runs[g].job
    decreases |steps|
  {
    if steps != [] {
      GoroutineStays(w, steps[0], g);
      GoroutineStaysAlongRun(Next(w, steps[0]), steps[1..], g);
    }
  }

  /** Along a run without a deletion of node n and without an overlong line of g, what arrives is accepted. */
  lemma {:induction false} ArrivedIsAccepted(w: World, steps: seq<Step>, b: Batch, n: NodeId)
    requires Good(w) && InPlace(w) && Kept(w, n) && EnabledRun(w, steps) && ShortSoFar(w, b.run)
    requires forall i :: 0 <= i < |steps| ==> !Deletes(steps[i], n) && EmitsShort(steps[i], b.run)
    requires b.run < |RunSteps(w, steps).runs| && RunSteps(w, steps).runs[b.run].node == n
    requires Deliver(b) in steps
    ensures b in Accepted(w, steps)
    decreases |steps|
  {
    var w' := Next(w, steps[0]);
    if steps[0] == Deliver(b) {
      GoroutineStaysAlongRun(w, steps, b.run);
      AcceptsIff(w, b);
    } else {
      assert Deliver(b) in steps[1..];
      GoodStep(w, steps[0]);
      ShortAfterStep(w, steps[0], b.run);
      PlacesStep(w, steps[0], n);
      hide Good, InPlace, Kept, ShortSoFar, Accepts, Next, Enabled;
      ArrivedIsAccepted(w', steps[1..], b, n);
    }
  }

  /** If the buffer is flushed, every posted batch has arrived at least once, no line was too long and nobody deleted the
      node, then nothing was lost, whatever the order. */
  lemma {:induction false} AllArrivedLosesNothing(steps: seq<Step>, g: nat)
    requires EnabledRun(START, steps) && g < |RunSteps(START, steps).runs| && RunSteps(START, steps).runs[g].pump.buf == []
    requires forall i :: 0 <= i < |steps| ==> !Deletes(steps[i], RunSteps(START, steps).runs[g].node) && EmitsShort(steps[i], g)
    requires forall b :: b in RunSteps(START, steps).net && b.run == g ==> Deliver(b) in steps
    ensures NothingLost(steps, g)
  {
    var w := RunSteps(START, steps);
    forall b | b in w.net && b.run == g ensures b in Accepted(START, steps) {
      ArrivedIsAccepted(START, steps, b, w.runs[g].node);
    }
  }
}
