/** What every reachable state of the database satisfies, and how a job row may change along a run. */
module Invariants {
  import opened Types
  import opened JobStatuses
  import opened Ordering
  import opened JobLogs
  import opened Handlers
  import Billing

  /** The foreign keys of a job row point at existing rows. */
  ghost predicate Linked(users: map<UserId, User>, nodes: map<NodeId, Node>, job: Job) {
    && job.user in users
    && (job.assignedNode.Some? ==> job.assignedNode.value in nodes)
    && (job.preferredNode.Some? ==> job.preferredNode.value in nodes)
  }

  /** What each status says about the rest of the row. */
  ghost predicate WellFormedRow(job: Job) {
    match job.status
    case Queued =>
      job.assignedNode == None && job.startedAt == None && job.completedAt == None && job.cancelAt == None && job.exitCode == None
    case Running =>
      && job.startedAt.Some? && job.completedAt == None && job.exitCode == None && job.assignedNode.Some?
      && (job.preferredNode == None || job.preferredNode == job.assignedNode)
    case Completed =>
      job.startedAt.Some? && job.completedAt.Some? && job.exitCode == Some(0) && job.cancelAt == None
    case Failed =>
      job.startedAt.Some? && job.completedAt.Some? && job.exitCode.Some? && job.exitCode != Some(0) && job.cancelAt == None
    case Cancelled =>
      && job.completedAt.Some?
      && (job.startedAt.Some? <==> job.cancelAt.Some?) && (job.startedAt.Some? <==> job.exitCode.Some?)
      && (job.startedAt == None ==> job.assignedNode == None)
  }

  ghost predicate Capable(nodes: map<NodeId, Node>, job: Job) {
    job.status == Running && job.assignedNode.Some? && job.assignedNode.value in nodes ==>
      job.gpus <= nodes[job.assignedNode.value].gpus
  }

  ghost predicate RowOk(users: map<UserId, User>, nodes: map<NodeId, Node>, job: Job) {
    Linked(users, nodes, job) && WellFormedRow(job) && Capable(nodes, job)
  }

  ghost predicate RowsOk(s: Server) { forall j :: j in s.jobs ==> RowOk(s.users, s.nodes, s.jobs[j]) }

  ghost predicate OneRunningPerNode(s: Server) {
    forall j, k, n :: j in s.jobs && k in s.jobs && RunsOn(s.jobs[j], n) && RunsOn(s.jobs[k], n) ==> j == k
  }

  /** Lines are stored only for jobs that some node was given, each under its own number. */
  ghost predicate LogsOk(s: Server) {
    forall j :: j in s.logs ==> j in s.jobs && s.jobs[j].startedAt.Some? && Keyed(s.logs[j])
  }

  ghost predicate CreditsOk(s: Server) { forall u :: u in s.users ==> 0 <= s.users[u].credits }

  ghost predicate Inv(s: Server) { RowsOk(s) && OneRunningPerNode(s) && LogsOk(s) && CreditsOk(s) }

  /** The row waits, asks for no more than the capacity, and wishes for no other node. */
  predicate CouldRun(job: Job, n: NodeId, capacity: NodeGpus) {
    job.status == Queued && job.gpus <= capacity && (job.preferredNode == None || job.preferredNode == Some(n))
  }

  lemma {:induction false} InsertKeyed(log: JobLog, entries: seq<LogEntry>)
    requires Keyed(log)
    ensures Keyed(Insert(log, entries))
    decreases |entries|
  {
    if entries != [] {
      InsertKeyed(InsertRow(log, entries[0]), entries[1..]);
    }
  }

  /** Replacing one row: rows stay fine, and a row that newly runs on a node runs there alone. */
  lemma ReplaceRow(s: Server, j: JobId, job: Job, users: map<UserId, User>)
    requires Inv(s) && RowOk(users, s.nodes, job)
    requires s.users.Keys <= users.Keys && forall u :: u in users ==> 0 <= users[u].credits
    requires forall n :: RunsOn(job, n) ==> j in s.jobs && (RunsOn(s.jobs[j], n) || !Busy(s, n))
    requires j in s.logs ==> job.startedAt.Some?
    ensures Inv(s.(jobs := s.jobs[j := job], users := users))
  {}

  lemma InvAssign(s: Server, n: NodeId, j: JobId, now: Time)
    requires Inv(s) && Winnable(s, n, j)
    ensures Inv(Assign(s, n, j, now))
  {}

  lemma InvClaim(s: Server, n: NodeId, now: Time)
    requires Inv(s)
    ensures Inv(Commit(s, Claim(s, n, now)))
  {
    var o := Claim(s, n, now);
    if o.Ok? && o.value.Some? { InvAssign(s, n, o.value.value, now); }
  }

  lemma InvComplete(s: Server, n: NodeId, j: JobId, exitCode: int, t1: Time, t2: Time)
    requires Inv(s)
    ensures Inv(Commit(s, Complete(s, n, j, exitCode, t1, t2)))
  {
    var o := Complete(s, n, j, exitCode, t1, t2);
    if o.Ok? {
      var job := s.jobs[j];
      assert RowOk(s.users, s.nodes, job);
      ReplaceRow(s, j, MarkTerminal(job, Target(job, exitCode), Some(exitCode), t2), Charge(s.users, job.user, BillAt(job, t1)));
    }
  }

  lemma InvCancelRow(s: Server, j: JobId, now: Time)
    requires Inv(s) && j in s.jobs && !Terminal(s.jobs[j].status)
    ensures Inv(s.(jobs := s.jobs[j := CancelRow(s.jobs[j], now)]))
  {
    assert RowOk(s.users, s.nodes, s.jobs[j]);
    ReplaceRow(s, j, CancelRow(s.jobs[j], now), s.users);
    assert s.(jobs := s.jobs[j := CancelRow(s.jobs[j], now)]) == s.(jobs := s.jobs[j := CancelRow(s.jobs[j], now)], users := s.users);
  }

  lemma InvSubmit(s: Server, u: UserId, j: JobId, gpus: Gpus, maxSeconds: Seconds, preferred: Option<NodeId>, now: Time)
    requires Inv(s)
    ensures Inv(Commit(s, Submit(s, u, j, gpus, maxSeconds, preferred, now)))
  {
    var o := Submit(s, u, j, gpus, maxSeconds, preferred, now);
    if o.Ok? {
      ReplaceRow(s, j, o.server.jobs[j], s.users);
    }
  }

  /** Setting both foreign keys to null when a node goes keeps every row well formed: the node ran nothing. */
  lemma InvDeleteNode(s: Server, u: UserId, n: NodeId, asAdmin: bool)
    requires Inv(s)
    ensures Inv(Commit(s, DeleteNode(s, u, n, asAdmin)))
  {
    var o := DeleteNode(s, u, n, asAdmin);
    if o.Ok? {
      var s' := o.server;
      forall j | j in s'.jobs
        ensures RowOk(s'.users, s'.nodes, s'.jobs[j])
        ensures forall m :: RunsOn(s'.jobs[j], m) ==> RunsOn(s.jobs[j], m)
      {
        assert RowOk(s.users, s.nodes, s.jobs[j]);
        assert !RunsOn(s.jobs[j], n);
      }
    }
  }

  lemma InvNodeRow(s: Server, n: NodeId, node: Node)
    requires Inv(s) && (n in s.nodes ==> node.gpus == s.nodes[n].gpus)
    ensures Inv(s.(nodes := s.nodes[n := node]))
  {}

  lemma InvUserRow(s: Server, u: UserId, user: User)
    requires Inv(s) && 0 <= user.credits
    ensures Inv(s.(users := s.users[u := user]))
  {}

  lemma InvAppendLogs(s: Server, n: NodeId, j: JobId, entries: seq<LogEntry>)
    requires Inv(s)
    ensures Inv(Commit(s, AppendLogs(s, n, j, entries)))
  {
    if AppendLogs(s, n, j, entries).Ok? {
      InsertKeyed(LogOf(s, j), entries);
      assert RowOk(s.users, s.nodes, s.jobs[j]);
    }
  }

  lemma InvAudit(s: Server, e: Event)
    requires Inv(s)
    ensures Inv(Audit(s, e))
  {}

  lemma InvUsers(s: Server, r: Request)
    requires Inv(s) && (r.ReqSignUp? || r.ReqApprove? || r.ReqSuspend? || r.ReqGrantAdmin? || r.ReqViewAudit? || r.ReqCreateToken?)
    ensures Inv(Handle(s, r))
  {
    match r
    case ReqSignUp(u) => InvUserRow(s, u, User(Pending, false, 0));
    case ReqApprove(u, canHost, credits) => InvUserRow(s, u, User(Active, canHost, credits));
    case ReqSuspend(u) => if u in s.users { InvUserRow(s, u, s.users[u].(status := Suspended)); }
    case ReqGrantAdmin(u) => if u in s.users { InvUserRow(s, u, s.users[u].(status := Active)); }
    case ReqViewAudit(u, count) =>
    case ReqCreateToken(u, prefix, secret, now) =>
  }

  lemma InvStatus(s: Server, r: Request)
    requires Inv(s) && (r.ReqDrain? || r.ReqForceDrain? || r.ReqUndrain?)
    ensures Inv(Handle(s, r))
  {
    if r.node in s.nodes { InvNodeRow(s, r.node, Handle(s, r).nodes[r.node]); }
  }

  lemma InvRegister(s: Server, r: Request)
    requires Inv(s) && r.ReqRegister?
    ensures Inv(Handle(s, r))
  {
    var s' := Handle(s, r);
    if r.node in s'.nodes { InvNodeRow(s, r.node, s'.nodes[r.node]); }
  }

  lemma InvHeartbeat(s: Server, n: NodeId, now: Time)
    requires Inv(s)
    ensures Inv(Commit(s, Heartbeat(s, n, now)))
  {
    if n in s.nodes { InvNodeRow(s, n, s.nodes[n].(lastSeen := now)); }
  }

  lemma InvCancel(s: Server, r: Request)
    requires Inv(s) && (r.ReqCancel? || r.ReqForceKill?)
    ensures Inv(Handle(s, r))
  {
    hide Inv;
    var s' := Handle(s, r);
    if s' != s {
      InvCancelRow(s, r.job, r.now);
      InvAudit(s.(jobs := s.jobs[r.job := CancelRow(s.jobs[r.job], r.now)]), s'.audit[|s.audit|]);
    }
  }

  /** Every request, granted or refused, keeps the invariant. */
  lemma InvStep(s: Server, r: Request)
    requires Inv(s)
    ensures Inv(Handle(s, r))
  {
    hide Inv;
    match r
    case ReqDeleteNode(u, n, asAdmin) => InvDeleteNode(s, u, n, asAdmin);
    case ReqSubmit(u, j, gpus, maxSeconds, preferred, now) => InvSubmit(s, u, j, gpus, maxSeconds, preferred, now);
    case ReqClaim(n, now) => InvClaim(s, n, now);
    case ReqComplete(n, j, exitCode, t1, t2) => InvComplete(s, n, j, exitCode, t1, t2);
    case ReqPushLogs(n, j, entries) => InvAppendLogs(s, n, j, entries);
    case ReqCancel(_, _, _) => InvCancel(s, r);
    case ReqForceKill(_, _) => InvCancel(s, r);
    case ReqRegister(_, _, _, _, _, _, _) => InvRegister(s, r);
    case ReqHeartbeat(n, now) => InvHeartbeat(s, n, now);
    case ReqDrain(_, _, _) => InvStatus(s, r);
    case ReqForceDrain(_) => InvStatus(s, r);
    case ReqUndrain(_, _) => InvStatus(s, r);
    case _ => InvUsers(s, r);
  }

  lemma {:induction false} InvRun(s: Server, rs: seq<Request>)
    requires Inv(s)
    ensures Inv(Run(s, rs))
    decreases |rs|
  {
    if rs != [] {
      InvStep(s, rs[0]);
      InvRun(Handle(s, rs[0]), rs[1..]);
    }
  }

  /** Every run from the empty database. */
  lemma {:induction false} ReachableInv(rs: seq<Request>)
    ensures Inv(Run(EMPTY_SERVER, rs))
  {
    InvRun(EMPTY_SERVER, rs);
  }

  // ---------------------------------------------------------------- how a row changes

  /** A row keeps what was submitted; start time and cancel mark are written once; a terminal row is frozen. */
  ghost predicate Evolves(a: Job, b: Job) {
    && a.user == b.user && a.gpus == b.gpus && a.maxSeconds == b.maxSeconds && a.createdAt == b.createdAt
    && (b.preferredNode == a.preferredNode || b.preferredNode == None)
    && (a.startedAt.Some? ==> b.startedAt == a.startedAt)
    && (a.cancelAt.Some? ==> b.cancelAt == a.cancelAt)
    && (Terminal(a.status) ==>
        b.status == a.status && b.exitCode == a.exitCode && b.completedAt == a.completedAt
        && b.startedAt == a.startedAt && b.cancelAt == a.cancelAt)
    && (a.status == Running && b.status == Running ==> b.assignedNode == a.assignedNode)
    && Rank(b.status) <= Rank(a.status) && (Rank(b.status) == Rank(a.status) ==> b.status == a.status)
  }

  ghost predicate StepOk(s: Server, r: Request, s': Server, j: JobId)
    requires j in s.jobs
  {
    && j in s'.jobs
    && Evolves(s.jobs[j], s'.jobs[j])
    && (s.jobs[j].status == s'.jobs[j].status || Allowed(s.jobs[j].status, s'.jobs[j].status))
    && (s.jobs[j].status == Running && s'.jobs[j].status != Running ==>
        r.ReqComplete? && r.job == j && s.jobs[j].assignedNode == Some(r.node))
  }

  predicate TouchesJobs(r: Request) {
    r.ReqDeleteNode? || r.ReqSubmit? || r.ReqClaim? || r.ReqComplete? || r.ReqCancel? || r.ReqForceKill?
  }

  lemma OtherRequestsLeaveJobs(s: Server, r: Request)
    requires !TouchesJobs(r)
    ensures Handle(s, r).jobs == s.jobs
  {}

  predicate TouchesUsers(r: Request) {
    r.ReqSignUp? || r.ReqApprove? || r.ReqSuspend? || r.ReqGrantAdmin? || r.ReqComplete?
  }

  predicate TouchesTokens(r: Request) { r.ReqCreateToken? || r.ReqRegister? }

  predicate TouchesNodes(r: Request) {
    r.ReqRegister? || r.ReqHeartbeat? || r.ReqDrain? || r.ReqForceDrain? || r.ReqUndrain? || r.ReqDeleteNode?
  }

  lemma OtherRequestsLeaveUsers(s: Server, r: Request)
    requires !TouchesUsers(r)
    ensures Handle(s, r).users == s.users
  {}

  lemma JobRequestsLeaveTokens(s: Server, r: Request)
    requires TouchesJobs(r)
    ensures Handle(s, r).tokens == s.tokens
  {}

  lemma JobRequestsLeaveLogs(s: Server, r: Request)
    requires TouchesJobs(r)
    ensures Handle(s, r).logs == s.logs
  {}

  lemma OtherRequestsLeaveTokens(s: Server, r: Request)
    requires !TouchesTokens(r)
    ensures Handle(s, r).tokens == s.tokens
  {
    if TouchesJobs(r) { JobRequestsLeaveTokens(s, r); }
  }

  lemma OtherRequestsLeaveNodes(s: Server, r: Request)
    requires !TouchesNodes(r)
    ensures Handle(s, r).nodes == s.nodes
  {}

  lemma OtherRequestsLeaveLogs(s: Server, r: Request)
    requires !r.ReqPushLogs?
    ensures Handle(s, r).logs == s.logs
  {
    if TouchesJobs(r) { JobRequestsLeaveLogs(s, r); }
  }

  lemma RowSame(s: Server, r: Request, s': Server, j: JobId)
    requires j in s.jobs && s'.jobs == s.jobs
    ensures StepOk(s, r, s', j)
  {}

  lemma RowClaim(s: Server, n: NodeId, now: Time, j: JobId)
    requires Inv(s) && j in s.jobs
    ensures StepOk(s, ReqClaim(n, now), Commit(s, Claim(s, n, now)), j)
  {}

  lemma RowComplete(s: Server, n: NodeId, k: JobId, exitCode: int, t1: Time, t2: Time, j: JobId)
    requires Inv(s) && j in s.jobs
    ensures StepOk(s, ReqComplete(n, k, exitCode, t1, t2), Commit(s, Complete(s, n, k, exitCode, t1, t2)), j)
  {}

  lemma RowSubmit(s: Server, u: UserId, k: JobId, gpus: Gpus, maxSeconds: Seconds, preferred: Option<NodeId>, now: Time, j: JobId)
    requires j in s.jobs
    ensures StepOk(s, ReqSubmit(u, k, gpus, maxSeconds, preferred, now),
                   Commit(s, Submit(s, u, k, gpus, maxSeconds, preferred, now)), j)
  {}

  lemma RowDelete(s: Server, u: UserId, n: NodeId, asAdmin: bool, j: JobId)
    requires Inv(s) && j in s.jobs
    ensures StepOk(s, ReqDeleteNode(u, n, asAdmin), Commit(s, DeleteNode(s, u, n, asAdmin)), j)
  {}

  lemma RowCancel(s: Server, r: Request, s': Server, k: JobId, now: Time, j: JobId)
    requires Inv(s) && j in s.jobs && k in s.jobs && !Terminal(s.jobs[k].status)
    requires s'.jobs == s.jobs[k := CancelRow(s.jobs[k], now)]
    ensures StepOk(s, r, s', j)
  {}

  /** One request: a row never disappears, evolves, and changes status along an allowed transition only;
      only its node's completion report takes a job out of Running. */
  lemma RowStep(s: Server, r: Request, j: JobId)
    requires Inv(s) && j in s.jobs
    ensures StepOk(s, r, Handle(s, r), j)
    ensures var a, b := s.jobs[j].status, Handle(s, r).jobs[j].status;
      b == a || (a == Queued && b in {Running, Cancelled}) || (a == Running && b in {Completed, Failed, Cancelled})
  {
    AllowedAre(s.jobs[j].status);
    assert StepOk(s, r, Handle(s, r), j) by { RowStepOk(s, r, j); }
  }

  lemma AllowedAre(a: JobStatus)
    ensures forall b :: Allowed(a, b) <==> (a == Queued && b in {Running, Cancelled}) || (a == Running && b in {Completed, Failed, Cancelled})
  {}

  lemma RowStepOk(s: Server, r: Request, j: JobId)
    requires Inv(s) && j in s.jobs
    ensures StepOk(s, r, Handle(s, r), j)
  {
    hide StepOk, Inv;
    var s' := Handle(s, r);
    if s'.jobs == s.jobs {
      RowSame(s, r, s', j);
    } else {
      match r
      case ReqDeleteNode(u, n, asAdmin) => RowDelete(s, u, n, asAdmin, j);
      case ReqSubmit(u, k, gpus, maxSeconds, preferred, now) => RowSubmit(s, u, k, gpus, maxSeconds, preferred, now, j);
      case ReqClaim(n, now) => RowClaim(s, n, now, j);
      case ReqComplete(n, k, exitCode, t1, t2) => RowComplete(s, n, k, exitCode, t1, t2, j);
      case ReqCancel(u, k, now) => RowCancel(s, r, s', k, now, j);
      case ReqForceKill(k, now) => RowCancel(s, r, s', k, now, j);
      case _ => OtherRequestsLeaveJobs(s, r);
    }
  }

  ghost predicate KeepsNode(s: Server, r: Request, s': Server, j: JobId)
    requires j in s.jobs
  {
    && j in s'.jobs
    && (s'.jobs[j].assignedNode == s.jobs[j].assignedNode ||
        (s'.jobs[j].assignedNode == None && r.ReqDeleteNode? && s.jobs[j].assignedNode == Some(r.node)))
  }

  lemma ClaimKeepsNode(s: Server, r: Request, j: JobId)
    requires Inv(s) && r.ReqClaim? && j in s.jobs && s.jobs[j].startedAt.Some?
    ensures KeepsNode(s, r, Commit(s, Claim(s, r.node, r.now)), j)
  {
    assert RowOk(s.users, s.nodes, s.jobs[j]);
  }

  lemma DeletionKeepsNode(s: Server, r: Request, j: JobId)
    requires r.ReqDeleteNode? && j in s.jobs
    ensures KeepsNode(s, r, Commit(s, DeleteNode(s, r.user, r.node, r.asAdmin)), j)
  {}

  lemma CompletionKeepsNode(s: Server, r: Request, j: JobId)
    requires r.ReqComplete? && j in s.jobs
    ensures KeepsNode(s, r, Commit(s, Complete(s, r.node, r.job, r.exitCode, r.now, r.now2)), j)
  {}

  lemma OthersKeepNode(s: Server, r: Request, j: JobId)
    requires (r.ReqSubmit? || r.ReqCancel? || r.ReqForceKill?) && j in s.jobs
    ensures KeepsNode(s, r, Handle(s, r), j)
  {}

  /** A job that was given to a node stays that node's, until the node is deleted; then it is no node's. */
  lemma StartedKeepsNode(s: Server, r: Request, j: JobId)
    requires Inv(s) && j in s.jobs && s.jobs[j].startedAt.Some?
    ensures KeepsNode(s, r, Handle(s, r), j)
  {
    hide Inv, Claim, DeleteNode, Complete, Submit, Cancel, ForceKill;
    if r.ReqClaim? {
      ClaimKeepsNode(s, r, j);
    } else if r.ReqDeleteNode? {
      DeletionKeepsNode(s, r, j);
    } else if r.ReqComplete? {
      CompletionKeepsNode(s, r, j);
    } else if TouchesJobs(r) {
      OthersKeepNode(s, r, j);
    } else {
      OtherRequestsLeaveJobs(s, r);
    }
  }

  /** Over a whole run: statuses only move forward, and a terminal row keeps its status, exit code and end time. */
  lemma {:induction false} RowRun(s: Server, rs: seq<Request>, j: JobId)
    requires Inv(s) && j in s.jobs
    ensures j in Run(s, rs).jobs
    ensures Evolves(s.jobs[j], Run(s, rs).jobs[j])
    decreases |rs|
  {
    if rs != [] {
      RowStep(s, rs[0], j);
      InvStep(s, rs[0]);
      RowRun(Handle(s, rs[0]), rs[1..], j);
    }
  }
}
