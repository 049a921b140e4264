/** Fairness of the queue, and quiescence of a draining node. */
module Scheduling {
  import opened Types
  import opened JobStatuses
  import opened Ordering
  import opened Handlers
  import opened Invariants

  // ---------------------------------------------------------------- what a claim takes

  /** A granted claim takes a queued job that fits the idle node, and among those the one created first, by identifier where
      times are equal; nothing else changes. */
  lemma ClaimTakesOldest(s: Server, n: NodeId, now: Time)
    requires Claim(s, n, now).Ok? && Claim(s, n, now).value.Some?
    ensures var s', j := Claim(s, n, now).server, Claim(s, n, now).value.value;
      && n in s.nodes && s.nodes[n].status == Online
      && (forall k :: k in s.jobs ==> !(s.jobs[k].status == Running && s.jobs[k].assignedNode == Some(n)))
      && j in s.jobs && CouldRun(s.jobs[j], n, s.nodes[n].gpus)
      && (forall k :: k in s.jobs && k != j && CouldRun(s.jobs[k], n, s.nodes[n].gpus) ==>
            s.jobs[j].createdAt < s.jobs[k].createdAt || (s.jobs[j].createdAt == s.jobs[k].createdAt && j < k))
      && s' == s.(jobs := s.jobs[j := s.jobs[j].(status := Running, assignedNode := Some(n), startedAt := Some(now))],
                  audit := s.audit + [JobAssigned(s.jobs[j].user, j, n, s.jobs[j].gpus)])
  {
    assert forall k :: k in s.jobs && CouldRun(s.jobs[k], n, s.nodes[n].gpus) ==> k in Candidates(s.jobs, n, s.nodes[n].gpus);
    assert !Busy(s, n);
  }

  /** A claim is refused exactly when the node is draining, busy, or nothing queued fits it; then nothing changes. */
  lemma ClaimRefusedIff(s: Server, n: NodeId, now: Time)
    requires n in s.nodes
    ensures Claim(s, n, now).Ok?
    ensures Claim(s, n, now).value == None <==>
      || s.nodes[n].status == Draining
      || (exists j :: j in s.jobs && s.jobs[j].status == Running && s.jobs[j].assignedNode == Some(n))
      || (forall j :: j in s.jobs ==> !CouldRun(s.jobs[j], n, s.nodes[n].gpus))
    ensures Claim(s, n, now).value == None ==> Claim(s, n, now).server == s
  {
    assert Busy(s, n) <==> exists j :: j in s.jobs && s.jobs[j].status == Running && s.jobs[j].assignedNode == Some(n);
    if j :| j in s.jobs && CouldRun(s.jobs[j], n, s.nodes[n].gpus) {
      assert j in Candidates(s.jobs, n, s.nodes[n].gpus);
    }
  }

  // ---------------------------------------------------------------- bounded waiting

  ghost predicate IsQueued(s: Server, j: JobId) { j in s.jobs && s.jobs[j].status == Queued }

  /** The queued jobs in front of j. */
  function Ahead(s: Server, j: JobId): set<JobId>
    requires j in s.jobs
  {
    set k | k in s.jobs && s.jobs[k].status == Queued
            && (s.jobs[k].createdAt < s.jobs[j].createdAt || (s.jobs[k].createdAt == s.jobs[j].createdAt && k < j))
  }

  /** A successful claim by a node that could have taken j. */
  ghost predicate EligibleClaim(s: Server, r: Request, j: JobId)
    requires j in s.jobs
  {
    && r.ReqClaim? && Claim(s, r.node, r.now).Ok? && Claim(s, r.node, r.now).value.Some?
    && r.node in s.nodes && s.jobs[j].gpus <= s.nodes[r.node].gpus
    && (s.jobs[j].preferredNode == None || s.jobs[j].preferredNode == Some(r.node))
  }

  /** A job submitted now sorts after the waiting job j. */
  ghost predicate SortsAfter(s: Server, r: Request, j: JobId)
    requires j in s.jobs
  {
    r.ReqSubmit? ==> s.jobs[j].createdAt < r.now || (s.jobs[j].createdAt == r.now && j < r.job)
  }

  lemma AheadNeverGrows(s: Server, r: Request, j: JobId)
    requires Inv(s) && j in s.jobs && SortsAfter(s, r, j)
    ensures j in Handle(s, r).jobs && Ahead(Handle(s, r), j) <= Ahead(s, j)
  {
    var s' := Handle(s, r);
    RowStep(s, r, j);
    forall k | k in Ahead(s', j)
      ensures k in Ahead(s, j)
    {
      if k in s.jobs {
        RowStep(s, r, k);
      } else {
        NewRowsAreSubmitted(s, r, k);
      }
    }
  }

  lemma NewRowsAreSubmitted(s: Server, r: Request, k: JobId)
    requires k !in s.jobs && k in Handle(s, r).jobs
    ensures r.ReqSubmit? && k == r.job
    ensures Handle(s, r).jobs[k].createdAt == r.now && Handle(s, r).jobs[k].status == Queued
  {
    if !TouchesJobs(r) { OtherRequestsLeaveJobs(s, r); }
  }

  /** An eligible node's claim takes j itself or exactly one job in front of it. */
  lemma EligibleClaimAdvances(s: Server, r: Request, j: JobId)
    requires Inv(s) && IsQueued(s, j) && EligibleClaim(s, r, j)
    ensures var s' := Handle(s, r);
      && j in s'.jobs
      && (s'.jobs[j].status == Running ==> s'.jobs[j].assignedNode == Some(r.node))
      && (s'.jobs[j].status != Running ==> IsQueued(s', j) && |Ahead(s', j)| == |Ahead(s, j)| - 1)
  {
    var s' := Handle(s, r);
    ClaimTakesOldest(s, r.node, r.now);
    var k := Claim(s, r.node, r.now).value.value;
    if k != j {
      assert CouldRun(s.jobs[j], r.node, s.nodes[r.node].gpus);
      assert Ahead(s', j) == Ahead(s, j) - {k};
    }
  }

  /** Successful claims by nodes eligible for j while it waits. */
  ghost function EligibleClaims(s: Server, rs: seq<Request>, j: JobId): nat
    decreases |rs|
  {
    if rs == [] || !IsQueued(s, j) then 0
    else (if EligibleClaim(s, rs[0], j) then 1 else 0) + EligibleClaims(Handle(s, rs[0]), rs[1..], j)
  }

  ghost predicate AllSortAfter(s: Server, rs: seq<Request>, j: JobId)
    decreases |rs|
  {
    rs == [] || (j in s.jobs && SortsAfter(s, rs[0], j) && AllSortAfter(Handle(s, rs[0]), rs[1..], j))
  }

  /** Along any run in which newer submissions sort after j: as long as j waits, every eligible node's claim has
      shortened the line, and by the (|Ahead| + 1)-th of them j has been given to a node; deletions of nodes, which may
      unpin older jobs, do not break this. */
  lemma {:induction false} BoundedWaiting(s: Server, rs: seq<Request>, j: JobId)
    requires Inv(s) && IsQueued(s, j) && AllSortAfter(s, rs, j)
    ensures EligibleClaims(s, rs, j) <= |Ahead(s, j)| + 1
    ensures j in Run(s, rs).jobs
    ensures EligibleClaims(s, rs, j) == |Ahead(s, j)| + 1 ==> Run(s, rs).jobs[j].startedAt.Some?
    ensures IsQueued(Run(s, rs), j) ==> EligibleClaims(s, rs, j) + |Ahead(Run(s, rs), j)| <= |Ahead(s, j)|
    decreases |rs|
  {
    if rs != [] {
      var s' := Handle(s, rs[0]);
      InvStep(s, rs[0]);
      AheadNeverGrows(s, rs[0], j);
      CardinalityLe(Ahead(s', j), Ahead(s, j));
      if EligibleClaim(s, rs[0], j) { EligibleClaimAdvances(s, rs[0], j); }
      if IsQueued(s', j) {
        BoundedWaiting(s', rs[1..], j);
      } else {
        RowStep(s, rs[0], j);
        RowRun(s', rs[1..], j);
        assert RowOk(s'.users, s'.nodes, s'.jobs[j]);
      }
    }
  }

  lemma CardinalityLe(a: set<JobId>, b: set<JobId>)
    requires a <= b
    ensures |a| <= |b|
  {
    assert |b| == |a| + |b - a| by { assert b == a + (b - a); }
  }

  // ---------------------------------------------------------------- draining

  ghost function RunningOn(s: Server, n: NodeId): set<JobId> { set j | j in s.jobs && RunsOn(s.jobs[j], n) }

  /** The node is draining, or already gone. */
  ghost predicate Quiet(s: Server, n: NodeId) { n in s.nodes ==> s.nodes[n].status == Draining }

  /** Not an undrain of n, and no new node under n's identifier. */
  predicate LeavesDrained(r: Request, n: NodeId) {
    !(r.ReqUndrain? && r.node == n) && !(r.ReqRegister? && r.node == n)
  }

  /** A drain that is granted: by the owner, by an administrator, or forced. */
  ghost predicate Drains(s: Server, r: Request, n: NodeId) {
    (r.ReqDrain? && r.node == n && Owned(s, r.user, n, r.asAdmin)) || (r.ReqForceDrain? && r.node == n && n in s.nodes)
  }

  lemma DrainEstablishesQuiet(s: Server, r: Request, n: NodeId)
    requires Drains(s, r, n)
    ensures Quiet(Handle(s, r), n) && LeavesDrained(r, n)
    ensures Handle(s, r).jobs == s.jobs
  {}

  lemma QuietStep(s: Server, r: Request, n: NodeId)
    requires Quiet(s, n) && LeavesDrained(r, n)
    ensures Quiet(Handle(s, r), n)
  {
    if !TouchesNodes(r) { OtherRequestsLeaveNodes(s, r); }
  }

  /** Only a granted claim gives a job to a node. */
  lemma AssignedByClaim(s: Server, r: Request, j: JobId)
    requires j in s.jobs && j in Handle(s, r).jobs && Handle(s, r).jobs[j].assignedNode.Some?
    requires Handle(s, r).jobs[j].assignedNode != s.jobs[j].assignedNode
    ensures r.ReqClaim? && Handle(s, r).jobs[j].assignedNode == Some(r.node)
    ensures r.node in s.nodes && s.nodes[r.node].status == Online
  {
    if r.ReqClaim? {
      ClaimAssigns(s, r.node, r.now, j);
    } else if r.ReqDeleteNode? {
      DeletionKeepsNode(s, r, j);
    } else if r.ReqComplete? {
      CompletionKeepsNode(s, r, j);
    } else if TouchesJobs(r) {
      OthersKeepNode(s, r, j);
    } else {
      OtherRequestsLeaveJobs(s, r);
    }
  }

  lemma ClaimAssigns(s: Server, n: NodeId, now: Time, j: JobId)
    requires j in s.jobs
    ensures var s' := Commit(s, Claim(s, n, now));
      && j in s'.jobs
      && (s'.jobs[j].assignedNode != s.jobs[j].assignedNode ==>
            s'.jobs[j].assignedNode == Some(n) && n in s.nodes && s.nodes[n].status == Online)
  {}

  lemma NothingNewAssigned(s: Server, r: Request, n: NodeId, j: JobId)
    requires Inv(s) && Quiet(s, n) && LeavesDrained(r, n)
    requires j in Handle(s, r).jobs && Handle(s, r).jobs[j].assignedNode == Some(n)
    ensures j in s.jobs && s.jobs[j].assignedNode == Some(n)
    ensures RunsOn(Handle(s, r).jobs[j], n) ==> RunsOn(s.jobs[j], n)
  {
    if j !in s.jobs {
      NewRowsAreSubmitted(s, r, j);
    } else {
      hide Handle;
      RowStep(s, r, j);
      if s.jobs[j].assignedNode != Some(n) { AssignedByClaim(s, r, j); }
      assert Terminal(s.jobs[j].status) || s.jobs[j].status == Running by { assert RowOk(s.users, s.nodes, s.jobs[j]); }
    }
  }

  /** n is quiet in every state along the run. */
  lemma {:induction false} QuietRun(s: Server, rs: seq<Request>, n: NodeId, j: JobId)
    requires Inv(s) && Quiet(s, n)
    requires forall i :: 0 <= i < |rs| ==> LeavesDrained(rs[i], n)
    requires j in Run(s, rs).jobs && Run(s, rs).jobs[j].assignedNode == Some(n)
    ensures j in s.jobs && s.jobs[j].assignedNode == Some(n)
    ensures RunsOn(Run(s, rs).jobs[j], n) ==> RunsOn(s.jobs[j], n)
    decreases |rs|
  {
    if rs != [] {
      InvStep(s, rs[0]);
      QuietStep(s, rs[0], n);
      QuietRun(Handle(s, rs[0]), rs[1..], n, j);
      NothingNewAssigned(s, rs[0], n, j);
    }
  }

  lemma {:induction false} StaysQuiet(s: Server, rs: seq<Request>, n: NodeId)
    requires Quiet(s, n) && forall i :: 0 <= i < |rs| ==> LeavesDrained(rs[i], n)
    ensures Quiet(Run(s, rs), n)
    decreases |rs|
  {
    if rs != [] {
      QuietStep(s, rs[0], n);
      StaysQuiet(Handle(s, rs[0]), rs[1..], n);
    }
  }

  /** From a drain until an undrain, no job becomes assigned to the node and its running set only shrinks; once it is
      empty it stays empty. */
  lemma {:induction false} DrainQuiesces(s: Server, rs: seq<Request>, n: NodeId)
    requires Inv(s) && Quiet(s, n)
    requires forall i :: 0 <= i < |rs| ==> LeavesDrained(rs[i], n)
    ensures Quiet(Run(s, rs), n)
    ensures RunningOn(Run(s, rs), n) <= RunningOn(s, n)
    ensures forall j :: j in Run(s, rs).jobs && Run(s, rs).jobs[j].assignedNode == Some(n) ==>
              j in s.jobs && s.jobs[j].assignedNode == Some(n)
  {
    StaysQuiet(s, rs, n);
    forall j | j in Run(s, rs).jobs && Run(s, rs).jobs[j].assignedNode == Some(n)
      ensures j in s.jobs && s.jobs[j].assignedNode == Some(n)
      ensures RunsOn(Run(s, rs).jobs[j], n) ==> RunsOn(s.jobs[j], n)
    {
      QuietRun(s, rs, n, j);
    }
  }

  /** The owner can delete a node exactly when it runs nothing, and the deletion orphans no running job: every job
      that was running still runs, on the node it ran on. */
  lemma DeleteWhenIdle(s: Server, u: UserId, n: NodeId)
    requires Inv(s) && Owned(s, u, n, false)
    ensures DeleteNode(s, u, n, false).Ok? <==> RunningOn(s, n) == {}
    ensures DeleteNode(s, u, n, false).Ok? ==>
      var s' := DeleteNode(s, u, n, false).server;
      && n !in s'.nodes
      && (forall j :: j in s.jobs && s.jobs[j].status == Running ==>
            s'.jobs[j].status == Running && s'.jobs[j].assignedNode == s.jobs[j].assignedNode && s'.jobs[j].assignedNode.value in s'.nodes)
      && (forall j :: j in s'.jobs ==> s'.jobs[j].assignedNode != Some(n) && s'.jobs[j].preferredNode != Some(n))
  {
    assert Busy(s, n) <==> RunningOn(s, n) != {} by {
      if Busy(s, n) {
        var j :| j in s.jobs && RunsOn(s.jobs[j], n);
        assert j in RunningOn(s, n);
      }
    }
    if DeleteNode(s, u, n, false).Ok? {
      forall j | j in s.jobs && s.jobs[j].status == Running
        ensures RowOk(s.users, s.nodes, s.jobs[j]) && s.jobs[j].assignedNode != Some(n)
      {
        assert j !in RunningOn(s, n);
      }
    }
  }

  /** Nobody else becomes the node's owner. */
  lemma {:induction false} OwnerStays(s: Server, rs: seq<Request>, n: NodeId, u: UserId)
    requires n in s.nodes ==> s.nodes[n].owner == u
    requires forall i :: 0 <= i < |rs| ==> LeavesDrained(rs[i], n)
    ensures n in Run(s, rs).nodes ==> Run(s, rs).nodes[n].owner == u
    decreases |rs|
  {
    if rs != [] {
      OwnerStep(s, rs[0], n, u);
      OwnerStays(Handle(s, rs[0]), rs[1..], n, u);
    }
  }

  lemma OwnerStep(s: Server, r: Request, n: NodeId, u: UserId)
    requires (n in s.nodes ==> s.nodes[n].owner == u) && LeavesDrained(r, n)
    ensures n in Handle(s, r).nodes ==> Handle(s, r).nodes[n].owner == u
  {
    if !TouchesNodes(r) { OtherRequestsLeaveNodes(s, r); }
  }

  /** From a granted drain on, until an undrain: the node's running jobs are some of those it ran at the drain; and once
      they have ended, the node stays idle, and its owner's deletion succeeds at any later time that it is still there. */
  lemma {:induction false} DrainedNodeCanBeDeleted(s: Server, drain: Request, rs: seq<Request>, later: seq<Request>, n: NodeId, u: UserId)
    requires Inv(s) && Drains(s, drain, n) && s.nodes[n].owner == u
    requires forall i :: 0 <= i < |rs| ==> LeavesDrained(rs[i], n)
    requires forall i :: 0 <= i < |later| ==> LeavesDrained(later[i], n)
    ensures var m := Run(Handle(s, drain), rs);
      var e := Run(m, later);
      && RunningOn(m, n) <= RunningOn(s, n)
      && (RunningOn(m, n) == {} ==> RunningOn(e, n) == {})
      && (RunningOn(m, n) == {} && n in e.nodes ==> DeleteNode(e, u, n, false).Ok?)
  {
    var d := Handle(s, drain);
    DrainEstablishesQuiet(s, drain, n);
    InvStep(s, drain);
    DrainQuiesces(d, rs, n);
    var m := Run(d, rs);
    InvRun(d, rs);
    DrainQuiesces(m, later, n);
    InvRun(m, later);
    OwnerStep(s, drain, n, u);
    OwnerStays(d, rs, n, u);
    OwnerStays(m, later, n, u);
    var e := Run(m, later);
    if n in e.nodes { DeleteWhenIdle(e, u, n); }
  }
}
