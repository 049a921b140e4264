/** Each service call as one atomic transaction: the state it commits, or the error that rolls it back.
    Clock reads are arguments; a call that reads the clock twice takes two. */
module Handlers {
  import opened Types
  import opened JobStatuses
  import opened Ordering
  import opened JobLogs
  import Billing

  datatype Outcome<+T> = Ok(server: Server, value: T) | Err(error: Error)

  const CLAIM_TOKEN_TTL: int := 24 * Billing.HOUR

  function Audit(s: Server, e: Event): Server { s.(audit := s.audit + [e]) }

  // ---------------------------------------------------------------- users

  function SignUp(s: Server, u: UserId): Outcome<()> {
    if u in s.users then Err(Constraint)
    else Ok(Audit(s.(users := s.users[u := User(Pending, false, 0)]), SignedUp(u)), ())
  }

  function Approve(s: Server, u: UserId, canHost: bool, credits: nat): Outcome<()> {
    if u !in s.users then Err(UserNotFound)
    else Ok(Audit(s.(users := s.users[u := User(Active, canHost, credits)]), Approved(u, canHost, credits)), ())
  }

  function Suspend(s: Server, u: UserId): Outcome<()> {
    if u !in s.users then Err(UserNotFound)
    else Ok(Audit(s.(users := s.users[u := s.users[u].(status := Suspended)]), UserSuspended(u)), ())
  }

  /** The operator's grant-admin command: it activates the account and writes no audit row. */
  function GrantAdmin(s: Server, u: UserId): Outcome<()> {
    if u !in s.users then Err(UserNotFound)
    else Ok(s.(users := s.users[u := s.users[u].(status := Active)]), ())
  }

  function ViewAudit(s: Server, u: UserId, count: nat): Outcome<()> {
    if u !in s.users then Err(Unauthenticated) else Ok(Audit(s, AuditViewed(u, count)), ())
  }

  // ---------------------------------------------------------------- nodes

  function CreateToken(s: Server, u: UserId, prefix: Prefix, secret: nat, now: Time): Outcome<()> {
    if u !in s.users then Err(Unauthenticated)
    else if !s.users[u].canHost then Err(NotAHost)
    else if prefix in s.tokens then Err(Constraint)
    else
      var token := Token(u, secret, now + CLAIM_TOKEN_TTL, None);
      Ok(Audit(s.(tokens := s.tokens[prefix := token]), TokenCreated(u, prefix)), ())
  }

  /** now1 is compared with the expiry, now2 stamps last_seen, now3 the token's consumption. */
  function Register(s: Server, prefix: Prefix, secret: nat, n: NodeId, gpus: NodeGpus,
                    now1: Time, now2: Time, now3: Time): Outcome<()> {
    if prefix !in s.tokens || s.tokens[prefix].secret != secret then Err(UnknownToken)
    else
      var token := s.tokens[prefix];
      if token.consumedAt.Some? then Err(TokenAlreadyUsed)
      else if token.expiresAt <= now1 then Err(TokenExpired)
      else if n in s.nodes then Err(Constraint)
      else
        var s' := s.(nodes := s.nodes[n := Node(token.owner, gpus, Online, now2)],
                     tokens := s.tokens[prefix := token.(consumedAt := Some(now3))]);
        Ok(Audit(s', NodeRegistered(token.owner, n, gpus, prefix)), ())
  }

  function RecordHeartbeat(s: Server, n: NodeId, now: Time): Server
    requires n in s.nodes
  {
    s.(nodes := s.nodes[n := s.nodes[n].(lastSeen := now)])
  }

  ghost predicate RunsOn(job: Job, n: NodeId) { job.status == Running && job.assignedNode == Some(n) }

  ghost predicate Busy(s: Server, n: NodeId) { exists j :: j in s.jobs && RunsOn(s.jobs[j], n) }

  /** The cancel_job_id of a heartbeat response: the node's running job if its cancellation was requested. */
  ghost function CancelTarget(s: Server, n: NodeId): Option<JobId> {
    if Busy(s, n) then
      var j :| j in s.jobs && RunsOn(s.jobs[j], n);
      if s.jobs[j].cancelAt.Some? then Some(j) else None
    else None
  }

  ghost function Heartbeat(s: Server, n: NodeId, now: Time): Outcome<Option<JobId>> {
    if n !in s.nodes then Err(Unauthenticated)
    else Ok(RecordHeartbeat(s, n, now), CancelTarget(RecordHeartbeat(s, n, now), n))
  }

  function SetStatus(s: Server, n: NodeId, status: NodeStatus): Server
    requires n in s.nodes
  {
    s.(nodes := s.nodes[n := s.nodes[n].(status := status)])
  }

  /** Whether the caller may act on the node: its owner, or an administrator. */
  predicate Owned(s: Server, owner: UserId, n: NodeId, asAdmin: bool) {
    n in s.nodes && (asAdmin || s.nodes[n].owner == owner)
  }

  function Drain(s: Server, owner: UserId, n: NodeId, asAdmin: bool): Outcome<()> {
    if !Owned(s, owner, n, asAdmin) then Err(NodeNotFound)
    else if s.nodes[n].status == Draining then Ok(s, ())
    else Ok(Audit(SetStatus(s, n, Draining), NodeDrained(s.nodes[n].owner, n)), ())
  }

  function ForceDrain(s: Server, n: NodeId): Outcome<()> {
    if n !in s.nodes then Err(NodeNotFound)
    else if s.nodes[n].status == Draining then Ok(s, ())
    else Ok(Audit(SetStatus(s, n, Draining), NodeForceDrained(s.nodes[n].owner, n)), ())
  }

  function Undrain(s: Server, owner: UserId, n: NodeId): Outcome<()> {
    if !Owned(s, owner, n, false) then Err(NodeNotFound)
    else if s.nodes[n].status != Draining then Err(NodeNotDraining)
    else Ok(Audit(SetStatus(s, n, Online), NodeUndrained(s.nodes[n].owner, n)), ())
  }

  function Unlink(o: Option<NodeId>, n: NodeId): Option<NodeId> { if o == Some(n) then None else o }

  function UnlinkJob(job: Job, n: NodeId): Job {
    job.(assignedNode := Unlink(job.assignedNode, n), preferredNode := Unlink(job.preferredNode, n))
  }

  /** The row goes, and both foreign keys of every job row are ON DELETE SET NULL. */
  function RemoveNode(s: Server, n: NodeId): Server {
    s.(nodes := s.nodes - {n}, jobs := map j | j in s.jobs :: UnlinkJob(s.jobs[j], n))
  }

  ghost function DeleteNode(s: Server, owner: UserId, n: NodeId, asAdmin: bool): Outcome<()> {
    if !Owned(s, owner, n, asAdmin) then Err(NodeNotFound)
    else if Busy(s, n) then Err(NodeBusy)
    else Ok(RemoveNode(Audit(s, NodeRemoved(s.nodes[n].owner, n)), n), ())
  }

  // ---------------------------------------------------------------- jobs

  function Submit(s: Server, u: UserId, j: JobId, gpus: Gpus, maxSeconds: Seconds,
                  preferred: Option<NodeId>, createdAt: Time): Outcome<()> {
    if u !in s.users then Err(Unauthenticated)
    else if s.users[u].status != Active then Err(AccountNotActive)
    else if !Billing.Funded(s.users[u].credits, gpus, maxSeconds) then Err(InsufficientCredits)
    else if j in s.jobs || (preferred.Some? && preferred.value !in s.nodes) then Err(Constraint)
    else
      var job := Job(u, gpus, maxSeconds, Queued, None, None, preferred, createdAt, None, None, None);
      Ok(Audit(s.(jobs := s.jobs[j := job]), JobSubmitted(u, j, gpus, maxSeconds, preferred)), ())
  }

  predicate Fits(job: Job, n: NodeId, capacity: NodeGpus) {
    job.gpus <= capacity && (job.preferredNode == None || job.preferredNode == Some(n))
  }

  /** The WHERE clause of the claim query. */
  predicate Claimable(job: Job, n: NodeId, capacity: NodeGpus) { job.status == Queued && Fits(job, n, capacity) }

  function Candidates(jobs: map<JobId, Job>, n: NodeId, capacity: NodeGpus): set<JobId> {
    set j | j in jobs && Claimable(jobs[j], n, capacity)
  }

  function Started(job: Job, n: NodeId, now: Time): Job {
    job.(status := Running, assignedNode := Some(n), startedAt := Some(now))
  }

  /** The committed effect of winning job j. */
  function Assign(s: Server, n: NodeId, j: JobId, now: Time): Server
    requires j in s.jobs
  {
    Audit(s.(jobs := s.jobs[j := Started(s.jobs[j], n, now)]), JobAssigned(s.jobs[j].user, j, n, s.jobs[j].gpus))
  }

  /** Node n may be given job j: what the claim's checks and its WHERE clause establish. */
  ghost predicate Winnable(s: Server, n: NodeId, j: JobId) {
    && n in s.nodes && s.nodes[n].status == Online && !Busy(s, n)
    && j in s.jobs && Claimable(s.jobs[j], n, s.nodes[n].gpus)
  }

  ghost function Claim(s: Server, n: NodeId, now: Time): Outcome<Option<JobId>> {
    if n !in s.nodes then Err(Unauthenticated)
    else if s.nodes[n].status == Draining || Busy(s, n) then Ok(s, None)
    else
      var c := Candidates(s.jobs, n, s.nodes[n].gpus);
      if c == {} then Ok(s, None) else Ok(Assign(s, n, Oldest(s.jobs, c), now), Some(Oldest(s.jobs, c)))
  }

  function Target(job: Job, exitCode: int): JobStatus {
    if job.cancelAt.Some? then Cancelled else if exitCode == 0 then Completed else Failed
  }

  function MarkTerminal(job: Job, status: JobStatus, exitCode: Option<int>, now: Time): Job {
    job.(status := status, exitCode := exitCode, completedAt := Some(now))
  }

  function Charge(users: map<UserId, User>, u: UserId, billed: int): map<UserId, User> {
    if u in users then users[u := users[u].(credits := Billing.Spend(users[u].credits, billed))] else users
  }

  function BillAt(job: Job, t1: Time): int {
    Billing.Bill(if job.startedAt.Some? then job.startedAt.value else t1, t1, job.gpus)
  }

  /** t1 is the clock read for billing, t2 the one that stamps completed_at. */
  function Complete(s: Server, n: NodeId, j: JobId, exitCode: int, t1: Time, t2: Time): Outcome<JobStatus> {
    if n !in s.nodes then Err(Unauthenticated)
    else if j !in s.jobs || s.jobs[j].assignedNode != Some(n) then Err(JobNotFound)
    else
      var job := s.jobs[j];
      var target := Target(job, exitCode);
      if !Allowed(job.status, target) then Err(InvalidJobTransition)
      else
        var billed := BillAt(job, t1);
        var s' := s.(users := Charge(s.users, job.user, billed),
                     jobs := s.jobs[j := MarkTerminal(job, target, Some(exitCode), t2)]);
        Ok(Audit(s', JobEnded(target, job.user, j, n, exitCode, billed)), target)
  }

  function CancelRow(job: Job, now: Time): Job {
    if job.status == Queued then MarkTerminal(job, Cancelled, None, now)
    else if job.cancelAt == None then job.(cancelAt := Some(now))
    else job
  }

  function Cancel(s: Server, u: UserId, j: JobId, now: Time): Outcome<()> {
    if j !in s.jobs || s.jobs[j].user != u then Err(JobNotFound)
    else if Terminal(s.jobs[j].status) then Err(InvalidJobTransition)
    else
      var s' := s.(jobs := s.jobs[j := CancelRow(s.jobs[j], now)]);
      Ok(Audit(s', JobCancelled(u, j, s.jobs[j].status)), ())
  }

  function ForceKill(s: Server, j: JobId, now: Time): Outcome<()> {
    if j !in s.jobs then Err(JobNotFound)
    else if Terminal(s.jobs[j].status) then Err(InvalidJobTransition)
    else
      var s' := s.(jobs := s.jobs[j := CancelRow(s.jobs[j], now)]);
      Ok(Audit(s', JobForceKilled(s.jobs[j].user, j, s.jobs[j].status)), ())
  }

  // ---------------------------------------------------------------- logs

  function LogOf(s: Server, j: JobId): JobLog { if j in s.logs then s.logs[j] else map[] }

  function AppendLogs(s: Server, n: NodeId, j: JobId, entries: seq<LogEntry>): Outcome<nat> {
    if n !in s.nodes then Err(Unauthenticated)
    else if j !in s.jobs || s.jobs[j].assignedNode != Some(n) then Err(JobNotFound)
    else
      Ok(s.(logs := s.logs[j := Insert(LogOf(s, j), entries)]), Inserted(LogOf(s, j), entries))
  }

  /** The endpoint in front of it: one entry that the schema refuses refuses the batch, an empty batch asks nothing. */
  function PushLogs(s: Server, n: NodeId, j: JobId, entries: seq<LogEntry>): Outcome<nat> {
    if n !in s.nodes then Err(Unauthenticated)
    else if !Postable(entries) then Err(InvalidEntries)
    else if entries == [] then Ok(s, 0)
    else AppendLogs(s, n, j, entries)
  }

  // ---------------------------------------------------------------- requests

  datatype Request =
    | ReqSignUp(user: UserId)
    | ReqApprove(user: UserId, canHost: bool, credits: nat)
    | ReqSuspend(user: UserId)
    | ReqGrantAdmin(user: UserId)
    | ReqViewAudit(user: UserId, count: nat)
    | ReqCreateToken(user: UserId, prefix: Prefix, secret: nat, now: Time)
    | ReqRegister(prefix: Prefix, secret: nat, node: NodeId, capacity: NodeGpus, now: Time, now2: Time, now3: Time)
    | ReqHeartbeat(node: NodeId, now: Time)
    | ReqDrain(user: UserId, node: NodeId, asAdmin: bool)
    | ReqForceDrain(node: NodeId)
    | ReqUndrain(user: UserId, node: NodeId)
    | ReqDeleteNode(user: UserId, node: NodeId, asAdmin: bool)
    | ReqSubmit(user: UserId, job: JobId, gpus: Gpus, maxSeconds: Seconds, preferred: Option<NodeId>, now: Time)
    | ReqClaim(node: NodeId, now: Time)
    | ReqComplete(node: NodeId, job: JobId, exitCode: int, now: Time, now2: Time)
    | ReqCancel(user: UserId, job: JobId, now: Time)
    | ReqForceKill(job: JobId, now: Time)
    | ReqPushLogs(node: NodeId, job: JobId, entries: seq<LogEntry>)

  /** The state an outcome leaves behind: an error rolls the transaction back. */
  function Commit<T>(s: Server, o: Outcome<T>): Server { if o.Ok? then o.server else s }

  ghost function Handle(s: Server, r: Request): Server {
    match r
    case ReqSignUp(u) => Commit(s, SignUp(s, u))
    case ReqApprove(u, canHost, credits) => Commit(s, Approve(s, u, canHost, credits))
    case ReqSuspend(u) => Commit(s, Suspend(s, u))
    case ReqGrantAdmin(u) => Commit(s, GrantAdmin(s, u))
    case ReqViewAudit(u, count) => Commit(s, ViewAudit(s, u, count))
    case ReqCreateToken(u, prefix, secret, now) => Commit(s, CreateToken(s, u, prefix, secret, now))
    case ReqRegister(prefix, secret, n, gpus, t1, t2, t3) => Commit(s, Register(s, prefix, secret, n, gpus, t1, t2, t3))
    case ReqHeartbeat(n, now) => Commit(s, Heartbeat(s, n, now))
    case ReqDrain(u, n, asAdmin) => Commit(s, Drain(s, u, n, asAdmin))
    case ReqForceDrain(n) => Commit(s, ForceDrain(s, n))
    case ReqUndrain(u, n) => Commit(s, Undrain(s, u, n))
    case ReqDeleteNode(u, n, asAdmin) => Commit(s, DeleteNode(s, u, n, asAdmin))
    case ReqSubmit(u, j, gpus, maxSeconds, preferred, now) => Commit(s, Submit(s, u, j, gpus, maxSeconds, preferred, now))
    case ReqClaim(n, now) => Commit(s, Claim(s, n, now))
    case ReqComplete(n, j, exitCode, t1, t2) => Commit(s, Complete(s, n, j, exitCode, t1, t2))
    case ReqCancel(u, j, now) => Commit(s, Cancel(s, u, j, now))
    case ReqForceKill(j, now) => Commit(s, ForceKill(s, j, now))
    case ReqPushLogs(n, j, entries) => Commit(s, PushLogs(s, n, j, entries))
  }

  /** The state after a run of requests. */
  ghost function Run(s: Server, rs: seq<Request>): Server
    decreases |rs|
  {
    if rs == [] then s else Run(Handle(s, rs[0]), rs[1..])
  }
}
