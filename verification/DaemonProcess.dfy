/** The daemon as the agent process holds it: two mutex-guarded fields, and the tick loop's local copies. Each method is
    one block that the mutex, or the single tick loop, makes atomic. */
module DaemonProcess {
  import opened Types
  import opened Agents
  import opened AgentRuns
  import opened Cancellations

  class Process {
    var loop: Loop
    var runningId: Option<JobId>
    var cancelRun: Option<nat>

    ghost function View(): Daemon reads this { Daemon(loop, runningId, cancelRun) }

    ghost predicate Valid() reads this { Paired(View()) }

    constructor ()
      ensures Valid() && View() == NEW_DAEMON
    {
      loop, runningId, cancelRun := Sleeping, None, None;
    }

    method HeartbeatAnswered(target: Option<JobId>)
      requires Valid() && loop == Sleeping
      modifies this
      ensures Valid() && View() == old(View()).(loop := Beat(target))
    {
      loop := Beat(target);
    }

    /** Under the mutex: busy, the cancel target, and the cancel function are copied. */
    method LookAround()
      requires Valid() && loop.Beat?
      modifies this
      ensures Valid() && View() == Look(old(View()))
    {
      var busy := runningId != None;
      var cancel := cancelRun;
      loop := Looked(busy, loop.target, cancel);
    }

    /** The busy half of a tick: the copied cancel function is called exactly if the heartbeat named a job; never a claim. */
    method FinishBusyTick() returns (cancelled: Option<nat>)
      requires Valid() && loop.Looked? && loop.busy
      modifies this
      ensures Valid() && View() == Sleep(old(View()))
      ensures cancelled.Some? <==> old(loop).target.Some?
      ensures cancelled.Some? ==> cancelled == old(loop).cancel
    {
      cancelled := None;
      if loop.target.Some? && loop.cancel.Some? {
        cancelled := loop.cancel;
      }
      loop := Sleeping;
    }

    /** The idle half of a tick, after the claim was answered, refused or lost. */
    method FinishIdleTick()
      requires Valid() && loop.Looked? && !loop.busy
      modifies this
      ensures Valid() && View() == Sleep(old(View()))
    {
      loop := Sleeping;
    }

    method BeginRun(j: JobId, run: nat)
      requires Valid()
      modifies this
      ensures Valid() && View() == Enter(old(View()), j, run)
    {
      runningId := Some(j);
      cancelRun := Some(run);
    }

    /** The deferred reset of runJob. */
    method EndRun()
      requires Valid()
      modifies this
      ensures Valid() && View() == Leave(old(View()))
    {
      runningId := None;
      cancelRun := None;
    }

    /** A whole tick, in any reachable state, whose heartbeat is answered with a job to cancel: it calls the cancel function
        of the run under way if and only if no goroutine of the node has left since that run entered. */
    method TickToldToCancel(ghost steps: seq<Step>, ghost g: nat, target: JobId) returns (cancelled: Option<nat>)
      requires EnabledRun(START, steps) && g < |RunSteps(START, steps).runs| && Underway(RunSteps(START, steps).runs[g])
      requires Valid() && loop == Sleeping
      requires View() == DaemonOf(RunSteps(START, steps), RunSteps(START, steps).runs[g].node)
      modifies this
      ensures Valid() && loop == Sleeping && runningId == old(runningId) && cancelRun == old(cancelRun)
      ensures cancelled == if Hidden(steps, g) then None else Some(g)
    {
      FlagNamesRunIff(steps, g);
      HeartbeatAnswered(Some(target));
      LookAround();
      if loop.busy {
        cancelled := FinishBusyTick();
      } else {
        cancelled := None;
        FinishIdleTick();
      }
    }
  }
}
