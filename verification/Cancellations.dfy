/** When the daemon's busy flag names the run in progress, and when a cancellation reaches it: a run may be hidden from its
    tick loop by the deferred reset of an earlier goroutine, and then stays hidden. */
module Cancellations {
  import opened Types
  import opened JobStatuses
  import opened Handlers
  import opened Invariants
  import opened Agents
  import opened AgentRuns
  import Outcomes

  // ---------------------------------------------------------------- hidden runs

  /** A goroutine of g's node leaves, resetting the daemon's fields. */
  ghost predicate Resets(w: World, step: Step, g: nat)
    requires Enabled(w, step)
  {
    step.LeaveRun? && g < |w.runs| && w.runs[step.run].node == w.runs[g].node
  }

  /** Whether, since the last entry of g, a goroutine of its node has left; before: whether so at the start of the run. */
  ghost predicate LeftSince(w: World, steps: seq<Step>, g: nat, before: bool)
    requires EnabledRun(w, steps)
    decreases |steps|
  {
    if steps == [] then before
    else LeftSince(Next(w, steps[0]), steps[1..], g, LeftNow(w, steps[0], g, before))
  }

  ghost predicate LeftNow(w: World, step: Step, g: nat, before: bool)
    requires Enabled(w, step)
  {
    Resets(w, step, g) || (before && step != EnterRun(g))
  }

  /** Over the whole run: some goroutine of g's node has left since g entered. */
  ghost predicate Hidden(steps: seq<Step>, g: nat)
    requires EnabledRun(START, steps)
  {
    LeftSince(START, steps, g, false)
  }

  /** g has set the daemon's fields, and has not yet reported. */
  predicate Underway(g: Goroutine) { Agents.Active(g) && g.phase != Spawned }

  /** The fields name g, or nothing if a goroutine has left since. */
  ghost predicate FieldsOk(w: World, g: nat, left: bool) {
    g < |w.runs| && Underway(w.runs[g]) ==>
      var d := DaemonOf(w, w.runs[g].node);
      if left then d.runningId == None && d.cancelRun == None else d.runningId == Some(w.runs[g].job) && d.cancelRun == Some(g)
  }

  /** The server gives a node one job at a time. */
  lemma OneActivePerNode(w: World, g: nat, h: nat)
    requires Control(w) && g < |w.runs| && h < |w.runs| && w.runs[g].node == w.runs[h].node
    requires Agents.Active(w.runs[g]) && Agents.Active(w.runs[h])
    ensures g == h
  {
    assert Backed(w.server, w.runs[g]) && Backed(w.server, w.runs[h]);
  }

  /** Only entering and leaving goroutines change the two fields, those of their own node. */
  lemma OthersLeaveFields(w: World, step: Step, n: NodeId)
    requires Enabled(w, step)
    requires (step.EnterRun? || step.LeaveRun?) ==> w.runs[step.run].node != n
    ensures DaemonOf(Next(w, step), n).runningId == DaemonOf(w, n).runningId
    ensures DaemonOf(Next(w, step), n).cancelRun == DaemonOf(w, n).cancelRun
  {
    hide Handle, Claim, Heartbeat;
  }

  /** A goroutine gets under way by entering, and by nothing else. */
  lemma UnderwayBefore(w: World, step: Step, g: nat)
    requires Enabled(w, step) && g < |Next(w, step).runs| && Underway(Next(w, step).runs[g]) && step != EnterRun(g)
    ensures g < |w.runs| && Underway(w.runs[g])
    ensures Next(w, step).runs[g].node == w.runs[g].node && Next(w, step).runs[g].job == w.runs[g].job
  {
    hide Handle, Claim, Heartbeat;
  }

  lemma FieldsStep(w: World, step: Step, g: nat, left: bool)
    requires Control(w) && Enabled(w, step) && FieldsOk(w, g, left)
    ensures FieldsOk(Next(w, step), g, LeftNow(w, step, g, left))
  {
    var w' := Next(w, step);
    if g < |w'.runs| && Underway(w'.runs[g]) && step != EnterRun(g) {
      UnderwayBefore(w, step, g);
      var n := w.runs[g].node;
      if step.EnterRun? && w.runs[step.run].node == n {
        OneActivePerNode(w, g, step.run);
      } else if !(step.LeaveRun? && w.runs[step.run].node == n) {
        OthersLeaveFields(w, step, n);
      }
    }
  }

  lemma {:induction false} FieldsAlongRun(w: World, steps: seq<Step>, g: nat, left: bool)
    requires Control(w) && EnabledRun(w, steps) && FieldsOk(w, g, left)
    ensures Control(RunSteps(w, steps)) && FieldsOk(RunSteps(w, steps), g, LeftSince(w, steps, g, left))
    decreases |steps|
  {
    if steps != [] {
      FieldsStep(w, steps[0], g, left);
      ControlStep(w, steps[0]);
      FieldsAlongRun(Next(w, steps[0]), steps[1..], g, LeftNow(w, steps[0], g, left));
    }
  }

  /** While a run is in progress, the busy flag is set if and only if no goroutine of its node has left since it entered, and
      then both fields name it. */
  lemma {:induction false} FlagNamesRunIff(steps: seq<Step>, g: nat)
    requires EnabledRun(START, steps) && g < |RunSteps(START, steps).runs| && Underway(RunSteps(START, steps).runs[g])
    ensures var w := RunSteps(START, steps); var d := DaemonOf(w, w.runs[g].node);
      && (d.runningId.Some? <==> !Hidden(steps, g))
      && (d.cancelRun.Some? <==> !Hidden(steps, g))
      && (d.runningId.Some? ==> d.runningId == Some(w.runs[g].job) && d.cancelRun == Some(g))
  {
    FieldsAlongRun(START, steps, g, false);
  }

  // ---------------------------------------------------------------- the tick that is told to cancel

  /** A step of n's tick loop after it has looked. */
  predicate Acts(step: Step, n: NodeId) {
    step == ActBusy(n) || step == ClaimFailed(n) || (step.ClaimOk? && step.node == n) || (step.ClaimLost? && step.node == n)
  }

  lemma LoopStays(w: World, step: Step, n: NodeId)
    requires Enabled(w, step) && DaemonOf(w, n).loop.Looked? && !Acts(step, n)
    ensures DaemonOf(Next(w, step), n).loop == DaemonOf(w, n).loop
  {
    hide Handle, Claim, Heartbeat;
  }

  lemma {:induction false} LoopStaysAlongRun(w: World, steps: seq<Step>, n: NodeId)
    requires EnabledRun(w, steps) && DaemonOf(w, n).loop.Looked? && forall i :: 0 <= i < |steps| ==> !Acts(steps[i], n)
    ensures DaemonOf(RunSteps(w, steps), n).loop == DaemonOf(w, n).loop
    decreases |steps|
  {
    if steps != [] {
      LoopStays(w, steps[0], n);
      LoopStaysAlongRun(Next(w, steps[0]), steps[1..], n);
    }
  }

  lemma {:induction false} ControlAlongRun(w: World, steps: seq<Step>)
    requires Control(w) && EnabledRun(w, steps)
    ensures Control(RunSteps(w, steps))
    decreases |steps|
  {
    if steps != [] {
      ControlStep(w, steps[0]);
      ControlAlongRun(Next(w, steps[0]), steps[1..]);
    }
  }

  /** A claim by a node with an active goroutine gets nothing. */
  lemma ClaimIsRefused(w: World, n: NodeId, now: Time, g: nat)
    requires Control(w) && Enabled(w, ClaimOk(n, now))
    requires g < |w.runs| && w.runs[g].node == n && Agents.Active(w.runs[g])
    ensures Next(w, ClaimOk(n, now)).runs == w.runs
  {
    assert Backed(w.server, w.runs[g]);
    assert Busy(w.server, n);
  }

  /** The step cancels g's context and no other, and cuts g short if it was in progress with a live context. */
  ghost predicate Cuts(w: World, step: Step, g: nat)
    requires Enabled(w, step) && g < |w.runs|
  {
    var w' := Next(w, step);
    && |w'.runs| == |w.runs| && w'.runs[g].context != Live
    && (w.runs[g].context == Live && Returnable(w.runs[g].phase) ==> w'.runs[g].cut && w'.runs[g].context == Canceled)
    && forall h :: 0 <= h < |w.runs| && h != g ==> w'.runs[h] == w.runs[h]
  }

  lemma LookCopies(w: World, g: nat, left: bool)
    requires g < |w.runs| && Underway(w.runs[g]) && FieldsOk(w, g, left) && DaemonOf(w, w.runs[g].node).loop.Beat?
    ensures var n := w.runs[g].node;
      DaemonOf(Next(w, LookAround(n)), n).loop == Looked(!left, DaemonOf(w, n).loop.target, if left then None else Some(g))
  {}

  /** A tick told to cancel that holds a cancel function calls it, and claims nothing. */
  lemma HeldTick(w: World, n: NodeId, now: Time)
    requires Control(w) && DaemonOf(w, n).loop.Looked? && DaemonOf(w, n).loop.target.Some? && DaemonOf(w, n).loop.cancel.Some?
    ensures var c := DaemonOf(w, n).loop.cancel.value;
      && Enabled(w, ActBusy(n)) && !Enabled(w, ClaimOk(n, now))
      && c < |w.runs| && w.runs[c].node == n && Cuts(w, ActBusy(n), c)
      && (Agents.Active(w.runs[c]) ==> Marked(w.server, w.runs[c].job))
  {
    DaemonIsOk(w, n);
  }

  /** A tick that holds none calls none, and claims; with a job of the node under way, in vain. */
  lemma ClearTick(w: World, n: NodeId, now: Time)
    requires Control(w) && DaemonOf(w, n).loop.Looked? && DaemonOf(w, n).loop.cancel == None
    ensures !Enabled(w, ActBusy(n)) && Enabled(w, ClaimOk(n, now))
    ensures forall g :: 0 <= g < |w.runs| && w.runs[g].node == n && Agents.Active(w.runs[g]) ==>
      Next(w, ClaimOk(n, now)).runs == w.runs
  {
    DaemonIsOk(w, n);
    forall g | 0 <= g < |w.runs| && w.runs[g].node == n && Agents.Active(w.runs[g])
      ensures Next(w, ClaimOk(n, now)).runs == w.runs
    {
      ClaimIsRefused(w, n, now, g);
    }
  }

  /** Every tick that was told to cancel either calls a cancel function, one of its own node's goroutines, whose job is marked
      if it has yet to report, and stops that context and no other; or it holds none, and then claims, in vain if a job of
      the node is under way. */
  lemma {:induction false} ToldTickActs(steps: seq<Step>, n: NodeId, now: Time)
    requires EnabledRun(START, steps)
    requires var l := DaemonOf(RunSteps(START, steps), n).loop; l.Looked? && l.target.Some?
    ensures var w := RunSteps(START, steps); var c := DaemonOf(w, n).loop.cancel;
      && (Enabled(w, ActBusy(n)) <==> c.Some?) && (Enabled(w, ClaimOk(n, now)) <==> c == None)
      && (c.Some? ==> c.value < |w.runs| && w.runs[c.value].node == n && Cuts(w, ActBusy(n), c.value)
                      && (Agents.Active(w.runs[c.value]) ==> Marked(w.server, w.runs[c.value].job)))
      && (c == None ==> forall g :: 0 <= g < |w.runs| && w.runs[g].node == n && Agents.Active(w.runs[g]) ==>
            Next(w, ClaimOk(n, now)).runs == w.runs)
  {
    ControlAlongRun(START, steps);
    var w := RunSteps(START, steps);
    hide Next, Enabled, Control, Cuts;
    if DaemonOf(w, n).loop.cancel.Some? { HeldTick(w, n, now); } else { ClearTick(w, n, now); }
  }

  /** A tick told to cancel looks while a run of its node is in progress, and acts after any steps of the others: it calls
      cancel, and on that run, if and only if the run was not hidden when the tick looked; a run still in progress is then
      cut short. Otherwise the tick claims instead, and as long as the run has not reported, the server refuses and no
      goroutine is touched: the cancellation is dropped. */
  lemma {:induction false} CancellationReachesRunIff(steps: seq<Step>, g: nat, mid: seq<Step>, now: Time)
    requires EnabledRun(START, steps) && g < |RunSteps(START, steps).runs| && Underway(RunSteps(START, steps).runs[g])
    requires var w := RunSteps(START, steps); var n := w.runs[g].node;
      && DaemonOf(w, n).loop.Beat? && DaemonOf(w, n).loop.target.Some?
      && EnabledRun(Next(w, LookAround(n)), mid) && forall i :: 0 <= i < |mid| ==> !Acts(mid[i], n)
    ensures var w := RunSteps(START, steps); var n := w.runs[g].node;
      var w2 := RunSteps(Next(w, LookAround(n)), mid);
      && g < |w2.runs| && w2.runs[g].node == n
      && (Enabled(w2, ActBusy(n)) <==> !Hidden(steps, g))
      && (Enabled(w2, ClaimOk(n, now)) <==> Hidden(steps, g))
      && (!Hidden(steps, g) ==> Cuts(w2, ActBusy(n), g))
      && (Hidden(steps, g) && Agents.Active(w2.runs[g]) ==> Next(w2, ClaimOk(n, now)).runs == w2.runs)
  {
    var w := RunSteps(START, steps);
    var n := w.runs[g].node;
    var w1 := Next(w, LookAround(n));
    var w2 := RunSteps(w1, mid);
    FieldsAlongRun(START, steps, g, false);
    LookCopies(w, g, Hidden(steps, g));
    ControlStep(w, LookAround(n));
    ControlAlongRun(w1, mid);
    LoopStaysAlongRun(w1, mid, n);
    NodesStay(w1, mid, g);
    hide Next, Enabled, Control, Cuts;
    if Hidden(steps, g) { ClearTick(w2, n, now); } else { HeldTick(w2, n, now); }
  }

  lemma NodeStays(w: World, step: Step, g: nat)
    requires Enabled(w, step) && g < |w.runs|
    ensures g < |Next(w, step).runs| && Next(w, step).runs[g].node == w.runs[g].node
  {
    hide Handle, Claim, Heartbeat;
  }

  lemma {:induction false} NodesStay(w: World, steps: seq<Step>, g: nat)
    requires EnabledRun(w, steps) && g < |w.runs|
    ensures g < |RunSteps(w, steps).runs| && RunSteps(w, steps).runs[g].node == w.runs[g].node
    decreases |steps|
  {
    if steps != [] {
      NodeStays(w, steps[0], g);
      NodesStay(Next(w, steps[0]), steps[1..], g);
    }
  }

  /** What the answer to a heartbeat carries while g is under way: its job if that is marked, else nothing. */
  lemma HeartbeatTells(w: World, g: nat, now: Time)
    requires Control(w) && g < |w.runs| && Agents.Active(w.runs[g]) && DaemonOf(w, w.runs[g].node).loop == Sleeping
    ensures var n := w.runs[g].node;
      && Enabled(w, HeartbeatOk(n, now))
      && var w' := Next(w, HeartbeatOk(n, now));
      && w'.runs == w.runs
      && DaemonOf(w', n) == DaemonOf(w, n).(loop := Beat(if Marked(w.server, w.runs[g].job) then Some(w.runs[g].job) else None))
  {
    var n := w.runs[g].node;
    assert Backed(w.server, w.runs[g]);
    assert RowOk(w.server.users, w.server.nodes, w.server.jobs[w.runs[g].job]);
    Outcomes.HeartbeatNamesIff(w.server, n, now, w.runs[g].job);
    var o := Heartbeat(w.server, n, now);
    if o.value.Some? { Outcomes.HeartbeatNamesIff(w.server, n, now, o.value.value); }
  }

  /** One undisturbed tick, while a live run that is not hidden is in progress: it is possible, and cancels that run if and only
      if the user or an administrator has asked for it. */
  lemma {:induction false} TickCancelsIffMarked(steps: seq<Step>, g: nat, now: Time)
    requires EnabledRun(START, steps) && g < |RunSteps(START, steps).runs| && !Hidden(steps, g)
    requires var w := RunSteps(START, steps);
      w.runs[g].phase == InRun && w.runs[g].context == Live && DaemonOf(w, w.runs[g].node).loop == Sleeping
    ensures var w := RunSteps(START, steps); var n := w.runs[g].node;
      && Enabled(w, HeartbeatOk(n, now))
      && var w1 := Next(w, HeartbeatOk(n, now));
      && Enabled(w1, LookAround(n))
      && var w2 := Next(w1, LookAround(n));
      && Enabled(w2, ActBusy(n))
      && var r := Next(w2, ActBusy(n)).runs;
      && |r| == |w.runs| && (forall h :: 0 <= h < |r| && h != g ==> r[h] == w.runs[h])
      && r[g] == if Marked(w.server, w.runs[g].job) then w.runs[g].(context := Canceled, cut := true) else w.runs[g]
  {
    var w := RunSteps(START, steps);
    FieldsAlongRun(START, steps, g, false);
    HeartbeatTells(w, g, now);
  }

  // ---------------------------------------------------------------- hidden for good

  /** g's cancel function is in no hands: g is hidden, or past being cut. */
  ghost predicate OutOfReach(w: World, g: nat) {
    && g < |w.runs| && w.runs[g].phase != Spawned
    && (Returnable(w.runs[g].phase) ==>
          var d := DaemonOf(w, w.runs[g].node);
          d.cancelRun == None && (d.loop.Looked? ==> d.loop.cancel != Some(g)))
  }

  /** Cancel functions of g are held by the daemon of g's node only. */
  lemma ForeignTickSpares(w: World, n: NodeId, g: nat)
    requires Control(w) && Enabled(w, ActBusy(n)) && g < |w.runs| && w.runs[g].node != n
    ensures Next(w, ActBusy(n)).runs[g] == w.runs[g]
  {
    DaemonIsOk(w, n);
  }

  lemma OutOfReachStep(w: World, step: Step, g: nat)
    requires Control(w) && Enabled(w, step) && OutOfReach(w, g)
    ensures OutOfReach(Next(w, step), g) && Next(w, step).runs[g].cut == w.runs[g].cut
  {
    var n := w.runs[g].node;
    NodeStays(w, step, g);
    CutOnlyByTick(w, step, g);
    if step.ActBusy? && step.node != n { ForeignTickSpares(w, step.node, g); }
    if Returnable(Next(w, step).runs[g].phase) {
      if step.EnterRun? && w.runs[step.run].node == n {
        OneActivePerNode(w, g, step.run);
      } else if step.LeaveRun? && w.runs[step.run].node == n {
        LeaveClears(w, step.run);
      } else {
        OthersLeaveFields(w, step, n);
        LookedFromFields(w, step, n);
      }
    }
  }

  lemma LeaveClears(w: World, g: nat)
    requires Enabled(w, LeaveRun(g))
    ensures var d, d' := DaemonOf(w, w.runs[g].node), DaemonOf(Next(w, LeaveRun(g)), w.runs[g].node);
      d'.cancelRun == None && d'.loop == d.loop
  {}

  /** What a tick holds it held before, or has just copied. */
  lemma LookedFromFields(w: World, step: Step, n: NodeId)
    requires Enabled(w, step)
    ensures var d, d' := DaemonOf(w, n), DaemonOf(Next(w, step), n);
      d'.loop.Looked? ==> (d.loop.Looked? && d'.loop == d.loop) || d'.loop.cancel == d.cancelRun
  {
    hide Handle, Claim, Heartbeat;
  }

  /** Only a busy tick that holds g's cancel function cuts g; and no step takes g back to being cuttable. */
  lemma CutOnlyByTick(w: World, step: Step, g: nat)
    requires Enabled(w, step) && g < |w.runs| && w.runs[g].phase != Spawned
    ensures var a, b := w.runs[g], Next(w, step).runs[g];
      && b.phase != Spawned && (Returnable(b.phase) ==> Returnable(a.phase))
      && (b.cut != a.cut ==> Returnable(a.phase) && step.ActBusy? && DaemonOf(w, step.node).loop.cancel == Some(g))
  {
    hide Handle, Claim, Heartbeat;
  }

  lemma {:induction false} OutOfReachAlongRun(w: World, steps: seq<Step>, g: nat)
    requires Control(w) && EnabledRun(w, steps) && OutOfReach(w, g)
    ensures g < |RunSteps(w, steps).runs| && RunSteps(w, steps).runs[g].cut == w.runs[g].cut
    decreases |steps|
  {
    if steps != [] {
      OutOfReachStep(w, steps[0], g);
      ControlStep(w, steps[0]);
      OutOfReachAlongRun(Next(w, steps[0]), steps[1..], g);
    }
  }

  /** A run that is hidden while no tick holds its cancel function is never cut short, whatever happens afterwards: no
      cancellation can reach it any more. */
  lemma {:induction false} HiddenRunIsNeverCut(steps: seq<Step>, later: seq<Step>, g: nat)
    requires EnabledRun(START, steps) && g < |RunSteps(START, steps).runs| && Underway(RunSteps(START, steps).runs[g])
    requires var w := RunSteps(START, steps); var d := DaemonOf(w, w.runs[g].node);
      Hidden(steps, g) && (d.loop.Looked? ==> d.loop.cancel != Some(g)) && EnabledRun(w, later)
    ensures var w := RunSteps(START, steps);
      g < |RunSteps(w, later).runs| && RunSteps(w, later).runs[g].cut == w.runs[g].cut
  {
    FieldsAlongRun(START, steps, g, false);
    OutOfReachAlongRun(RunSteps(START, steps), later, g);
  }
}
