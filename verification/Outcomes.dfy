/** When a request is granted, exactly, and what it is worth to its caller. */
module Outcomes {
  import opened Types
  import opened JobStatuses
  import opened JobLogs
  import opened Handlers
  import opened Invariants
  import opened Billing

  /** A submission is accepted exactly from an active user who owns max(1, ceil(gpus * max_duration / 3600)) credits,
      for a fresh job whose preferred node, if any, exists; it queues the job as asked for, and takes no credits. */
  lemma SubmitIff(s: Server, u: UserId, j: JobId, gpus: Gpus, maxSeconds: Seconds, preferred: Option<NodeId>, now: Time)
    ensures 0 <= gpus * maxSeconds * SECOND
    ensures Submit(s, u, j, gpus, maxSeconds, preferred, now).Ok? <==>
      && u in s.users && s.users[u].status == Active
      && Max(1, CeilHours(gpus * maxSeconds * SECOND)) <= s.users[u].credits
      && j !in s.jobs && (preferred.Some? ==> preferred.value in s.nodes)
    ensures Submit(s, u, j, gpus, maxSeconds, preferred, now) == Err(InsufficientCredits) <==>
      u in s.users && s.users[u].status == Active && s.users[u].credits * 3600 < gpus * maxSeconds
    ensures var o := Submit(s, u, j, gpus, maxSeconds, preferred, now);
      o.Ok? ==>
        && o.server.jobs == s.jobs[j := Job(u, gpus, maxSeconds, Queued, None, None, preferred, now, None, None, None)]
        && o.server == s.(jobs := o.server.jobs, audit := s.audit + [JobSubmitted(u, j, gpus, maxSeconds, preferred)])
  {
    if u in s.users {
      FundedIffCeiling(s.users[u].credits, gpus, maxSeconds);
    } else {
      FundedIffCeiling(0, gpus, maxSeconds);
    }
  }

  /** What each account request makes of the user's row; only these and the audit change, and grant-admin tells nobody.
      Viewing the audit changes no row, but is itself written down. */
  lemma AccountRows(s: Server, u: UserId, canHost: bool, credits: nat, count: nat)
    ensures Handle(s, ReqViewAudit(u, count)) == if u in s.users then s.(audit := s.audit + [AuditViewed(u, count)]) else s
    ensures var n, a, d, g := Handle(s, ReqSignUp(u)), Handle(s, ReqApprove(u, canHost, credits)),
                              Handle(s, ReqSuspend(u)), Handle(s, ReqGrantAdmin(u));
      if u in s.users then
        var row := s.users[u];
        && n == s
        && a == s.(users := s.users[u := User(Active, canHost, credits)], audit := s.audit + [Approved(u, canHost, credits)])
        && d == s.(users := s.users[u := User(Suspended, row.canHost, row.credits)], audit := s.audit + [UserSuspended(u)])
        && g == s.(users := s.users[u := User(Active, row.canHost, row.credits)])
      else
        n == s.(users := s.users[u := User(Pending, false, 0)], audit := s.audit + [SignedUp(u)]) && a == d == g == s
  {}

  /** Requests that activate u's account. */
  predicate Activates(r: Request, u: UserId) { (r.ReqApprove? || r.ReqGrantAdmin?) && r.user == u }

  /** Whether an existing user's account is active after a request. */
  function ActiveSays(before: bool, r: Request, u: UserId): bool {
    if Activates(r, u) then true
    else if r.ReqSuspend? && r.user == u then false
    else before
  }

  function HostSays(before: bool, r: Request, u: UserId): bool {
    if r.ReqApprove? && r.user == u then r.canHost else before
  }

  /** The last word of a run on u's account. */
  function ActiveAfter(before: bool, rs: seq<Request>, u: UserId): bool
    decreases |rs|
  {
    if rs == [] then before else ActiveAfter(ActiveSays(before, rs[0], u), rs[1..], u)
  }

  function HostAfter(before: bool, rs: seq<Request>, u: UserId): bool
    decreases |rs|
  {
    if rs == [] then before else HostAfter(HostSays(before, rs[0], u), rs[1..], u)
  }

  ghost predicate HasRights(s: Server, u: UserId, active: bool, host: bool) {
    u in s.users && (s.users[u].status == Active <==> active) && s.users[u].canHost == host
  }

  lemma RightsStep(s: Server, r: Request, u: UserId, active: bool, host: bool)
    requires HasRights(s, u, active, host)
    ensures HasRights(Handle(s, r), u, ActiveSays(active, r, u), HostSays(host, r, u))
  {
    if !TouchesUsers(r) { OtherRequestsLeaveUsers(s, r); }
  }

  lemma {:induction false} RightsRun(s: Server, rs: seq<Request>, u: UserId, active: bool, host: bool)
    requires HasRights(s, u, active, host)
    ensures HasRights(Run(s, rs), u, ActiveAfter(active, rs, u), HostAfter(host, rs, u))
    decreases |rs|
  {
    if rs != [] {
      RightsStep(s, rs[0], u, active, host);
      RightsRun(Handle(s, rs[0]), rs[1..], u, ActiveSays(active, rs[0], u), HostSays(host, rs[0], u));
    }
  }

  /** After any run: submissions are barred exactly if the last word on the account was not an approval or a grant-admin,
      and claim tokens exactly if the last approval did not make the user a host. */
  lemma RightsFollowLastWord(s: Server, rs: seq<Request>, u: UserId, j: JobId, gpus: Gpus, maxSeconds: Seconds,
                             preferred: Option<NodeId>, now: Time, prefix: Prefix, secret: nat)
    requires u in s.users
    ensures Submit(Run(s, rs), u, j, gpus, maxSeconds, preferred, now) == Err(AccountNotActive) <==>
      !ActiveAfter(s.users[u].status == Active, rs, u)
    ensures CreateToken(Run(s, rs), u, prefix, secret, now) == Err(NotAHost) <==> !HostAfter(s.users[u].canHost, rs, u)
  {
    RightsRun(s, rs, u, s.users[u].status == Active, s.users[u].canHost);
  }

  lemma {:induction false} NeverActivated(rs: seq<Request>, u: UserId)
    requires forall i :: 0 <= i < |rs| ==> !Activates(rs[i], u)
    ensures !ActiveAfter(false, rs, u)
    decreases |rs|
  {
    if rs != [] { NeverActivated(rs[1..], u); }
  }

  /** A new user, and a suspended one, is barred from submitting exactly until the last word is an approval or a
      grant-admin; in particular as long as there was neither. */
  lemma OnlyActivatedSubmit(s: Server, first: Request, rs: seq<Request>, u: UserId, j: JobId, gpus: Gpus,
                            maxSeconds: Seconds, preferred: Option<NodeId>, now: Time)
    requires (first == ReqSignUp(u) && u !in s.users) || (first == ReqSuspend(u) && u in s.users)
    ensures var o := Submit(Run(Handle(s, first), rs), u, j, gpus, maxSeconds, preferred, now);
      && (o == Err(AccountNotActive) <==> !ActiveAfter(false, rs, u))
      && ((forall i :: 0 <= i < |rs| ==> !Activates(rs[i], u)) ==> o == Err(AccountNotActive))
  {
    RightsFollowLastWord(Handle(s, first), rs, u, j, gpus, maxSeconds, preferred, now, 0, 0);
    if forall i :: 0 <= i < |rs| ==> !Activates(rs[i], u) { NeverActivated(rs, u); }
  }

  /** A completion report is accepted exactly from the node that the job is running on; a requested cancellation decides
      the outcome before the exit code does; and the owner is charged, down to zero credits, the least whole number of hours,
      at least one, that covers the elapsed microseconds times the GPUs, which is what the audit row says. */
  lemma CompleteIff(s: Server, n: NodeId, j: JobId, exitCode: int, t1: Time, t2: Time)
    requires Inv(s)
    ensures var o := Complete(s, n, j, exitCode, t1, t2);
      && (o.Ok? <==> j in s.jobs && s.jobs[j].status == Running && s.jobs[j].assignedNode == Some(n))
      && (o.Ok? ==>
        var job := s.jobs[j];
        && job.user in s.users && job.startedAt.Some?
        && (o.value == Cancelled <==> job.cancelAt.Some?)
        && (o.value == Completed <==> job.cancelAt == None && exitCode == 0)
        && (o.value == Failed <==> job.cancelAt == None && exitCode != 0)
        && o.server.jobs == s.jobs[j := job.(status := o.value, exitCode := Some(exitCode), completedAt := Some(t2))]
        && o.server.nodes == s.nodes && o.server.tokens == s.tokens && o.server.logs == s.logs)
    ensures var o := Complete(s, n, j, exitCode, t1, t2);
      o.Ok? ==>
        exists b ::
          && Charged(s, o.server, j, b)
          && o.server.audit == s.audit + [JobEnded(o.value, s.jobs[j].user, j, n, exitCode, b)]
          && 1 <= b
          && forall h :: 1 <= h ==> (b <= h <==> (t1 - s.jobs[j].startedAt.value) * s.jobs[j].gpus <= h * 3_600_000_000)
  {
    if j in s.jobs {
      var job := s.jobs[j];
      assert RowOk(s.users, s.nodes, job);
      if Complete(s, n, j, exitCode, t1, t2).Ok? {
        BillIff(job.startedAt.value, t1, job.gpus);
        assert Charged(s, Complete(s, n, j, exitCode, t1, t2).server, j, BillAt(job, t1));
      }
    }
  }

  /** The owner of job j is charged b, down to zero, and nobody else anything. */
  ghost predicate Charged(s: Server, s': Server, j: JobId, b: int) {
    && j in s.jobs && s.jobs[j].user in s.users
    && var u := s.jobs[j].user;
       s'.users == s.users[u := s.users[u].(credits := if s.users[u].credits < b then 0 else s.users[u].credits - b)]
  }

  ghost predicate SameTables(a: Server, b: Server) {
    a.users == b.users && a.nodes == b.nodes && a.tokens == b.tokens && a.jobs == b.jobs && a.logs == b.logs
  }

  /** Cancelling works exactly on one's own live job: a queued one ends at once and is never billed, a running one is only
      marked, and keeps the time of the first request; a force-kill does the same to any live job. */
  lemma CancelIff(s: Server, u: UserId, j: JobId, now: Time)
    requires Inv(s)
    ensures var o, k := Cancel(s, u, j, now), ForceKill(s, j, now);
      && (o.Ok? <==> j in s.jobs && s.jobs[j].user == u && s.jobs[j].status in {Queued, Running})
      && (k.Ok? <==> j in s.jobs && s.jobs[j].status in {Queued, Running})
      && (o.Ok? ==>
        var a, b := s.jobs[j], o.server.jobs[j];
        && SameTables(o.server, k.server)
        && SameTables(o.server.(jobs := s.jobs), s) && o.server.jobs == s.jobs[j := b]
        && (a.status == Queued ==> b == a.(status := Cancelled, completedAt := Some(now)) && b.startedAt == None && b.exitCode == None)
        && (a.status == Running ==> b == a.(cancelAt := if a.cancelAt.Some? then a.cancelAt else Some(now))))
  {}

  /** A batch of log entries is accepted exactly if every entry is within the schema's bounds and the job is assigned to the
      node (an empty batch asks for the node only); one entry too long refuses them all. An accepted batch touches that
      job's log only, and the answer is the log's growth. */
  lemma PushLogsIff(s: Server, n: NodeId, j: JobId, entries: seq<LogEntry>)
    requires Inv(s)
    ensures var o := PushLogs(s, n, j, entries);
      && (o.Ok? <==> (forall e :: e in entries ==> 1 <= |e.content| <= 65536) && if entries == [] then n in s.nodes else j in s.jobs && s.jobs[j].assignedNode == Some(n))
      && (o.Ok? ==>
        && o.server == s.(logs := o.server.logs)
        && |LogOf(o.server, j)| == |LogOf(s, j)| + o.value
        && (forall k :: Carries(entries, k) ==> k in LogOf(o.server, j))
        && (forall i :: i != j ==> LogOf(o.server, i) == LogOf(s, i)))
  {
    InsertGrows(LogOf(s, j), entries);
    forall k { InsertKeys(LogOf(s, j), entries, k); }
    if j in s.jobs { assert RowOk(s.users, s.nodes, s.jobs[j]); }
  }

  /** Once a job's cancellation was requested, whatever happens it ends, if it ends, as cancelled. */
  lemma {:induction false} CancelRequestIsFinal(s: Server, rs: seq<Request>, j: JobId)
    requires Inv(s) && j in s.jobs && s.jobs[j].cancelAt.Some?
    ensures var s' := Run(s, rs);
      && j in s'.jobs && s'.jobs[j].cancelAt == s.jobs[j].cancelAt
      && (s'.jobs[j].status == Running || s'.jobs[j].status == Cancelled)
  {
    RowRun(s, rs, j);
    InvRun(s, rs);
    var s' := Run(s, rs);
    assert RowOk(s'.users, s'.nodes, s'.jobs[j]);
  }

  /** A heartbeat is answered exactly to an existing node; it stamps the node's row and nothing else, and names a job exactly
      when that is running on the node with a cancel mark. */
  lemma HeartbeatNamesIff(s: Server, n: NodeId, now: Time, j: JobId)
    requires Inv(s)
    ensures var o := Heartbeat(s, n, now);
      && (o.Ok? <==> n in s.nodes)
      && (o.Ok? ==>
        && o.server == s.(nodes := s.nodes[n := s.nodes[n].(lastSeen := now)])
        && (o.value == Some(j) <==>
              j in s.jobs && s.jobs[j].status == Running && s.jobs[j].assignedNode == Some(n) && s.jobs[j].cancelAt.Some?))
  {}

  // ---------------------------------------------------------------- who may act on a node

  /** Draining works for the owner, an administrator and by force, undraining for the owner on a draining node only; each sets
      the status and nothing else, and an audit row is written exactly if the status changes. */
  lemma DrainIff(s: Server, u: UserId, n: NodeId, asAdmin: bool)
    ensures var o, f, d := Drain(s, u, n, asAdmin), ForceDrain(s, n), Undrain(s, u, n);
      && (o.Ok? <==> n in s.nodes && (asAdmin || s.nodes[n].owner == u))
      && (f.Ok? <==> n in s.nodes)
      && (d.Ok? <==> n in s.nodes && s.nodes[n].owner == u && s.nodes[n].status == Draining)
      && (o.Ok? ==> SetsStatus(s, o.server, n, Draining))
      && (f.Ok? ==> SetsStatus(s, f.server, n, Draining))
      && (d.Ok? ==> SetsStatus(s, d.server, n, Online))
  {}

  ghost predicate SetsStatus(s: Server, s': Server, n: NodeId, status: NodeStatus)
    requires n in s.nodes
  {
    && s'.nodes == s.nodes[n := s.nodes[n].(status := status)]
    && s'.users == s.users && s'.tokens == s.tokens && s'.jobs == s.jobs && s'.logs == s.logs
    && (s'.audit == s.audit <==> s.nodes[n].status == status)
  }

  /** Deletion works exactly for the owner or an administrator of a node on which nothing runs; then the row goes, and every
      job forgets it as its node and as its wish, and nothing else. A refusal changes nothing. */
  lemma DeleteNodeIff(s: Server, u: UserId, n: NodeId, asAdmin: bool)
    ensures var o := DeleteNode(s, u, n, asAdmin);
      && (o.Ok? <==>
        && n in s.nodes && (asAdmin || s.nodes[n].owner == u)
        && forall j :: j in s.jobs ==> !(s.jobs[j].status == Running && s.jobs[j].assignedNode == Some(n)))
      && (!o.Ok? ==> Handle(s, ReqDeleteNode(u, n, asAdmin)) == s)
      && (o.Ok? ==>
        && o.server.nodes == s.nodes - {n} && o.server.jobs.Keys == s.jobs.Keys
        && o.server.users == s.users && o.server.tokens == s.tokens && o.server.logs == s.logs
        && o.server.audit == s.audit + [NodeRemoved(s.nodes[n].owner, n)])
    ensures var o := DeleteNode(s, u, n, asAdmin);
      o.Ok? ==> forall j :: j in s.jobs ==>
        o.server.jobs[j] == s.jobs[j].(
          assignedNode := if s.jobs[j].assignedNode == Some(n) then None else s.jobs[j].assignedNode,
          preferredNode := if s.jobs[j].preferredNode == Some(n) then None else s.jobs[j].preferredNode)
  {
    if n in s.nodes {
      assert Busy(s, n) <==> exists j :: j in s.jobs && s.jobs[j].status == Running && s.jobs[j].assignedNode == Some(n);
    }
  }

  /** A request about n, as the user u who owns it or as an administrator. */
  predicate MayDelete(r: Request, n: NodeId, u: UserId) { r.ReqDeleteNode? && r.node == n && (r.asAdmin || r.user == u) }

  predicate MaySwitch(r: Request, n: NodeId, u: UserId) {
    || (r.ReqDrain? && r.node == n && (r.asAdmin || r.user == u))
    || (r.ReqForceDrain? && r.node == n)
    || (r.ReqUndrain? && r.node == n && r.user == u)
  }

  ghost predicate NodeKept(s: Server, n: NodeId, u: UserId, gpus: NodeGpus) {
    n in s.nodes && s.nodes[n].owner == u && s.nodes[n].gpus == gpus
  }

  lemma NodeKeptStep(s: Server, r: Request, n: NodeId, u: UserId, gpus: NodeGpus)
    requires NodeKept(s, n, u, gpus) && !MayDelete(r, n, u)
    ensures NodeKept(Handle(s, r), n, u, gpus)
    ensures !MaySwitch(r, n, u) ==> Handle(s, r).nodes[n].status == s.nodes[n].status
  {
    if !TouchesNodes(r) { OtherRequestsLeaveNodes(s, r); }
  }

  /** Whatever anybody asks: unless its owner or an administrator deletes it, a node stays, under the same owner; and unless
      one of them (or a force-drain) switches it, it keeps its status. */
  lemma {:induction false} StrangersLeaveNode(s: Server, rs: seq<Request>, n: NodeId)
    requires n in s.nodes
    requires forall i :: 0 <= i < |rs| ==> !MayDelete(rs[i], n, s.nodes[n].owner)
    ensures NodeKept(Run(s, rs), n, s.nodes[n].owner, s.nodes[n].gpus)
    ensures (forall i :: 0 <= i < |rs| ==> !MaySwitch(rs[i], n, s.nodes[n].owner)) ==>
      Run(s, rs).nodes[n].status == s.nodes[n].status
    decreases |rs|
  {
    if rs != [] {
      NodeKeptStep(s, rs[0], n, s.nodes[n].owner, s.nodes[n].gpus);
      StrangersLeaveNode(Handle(s, rs[0]), rs[1..], n);
    }
  }
}
