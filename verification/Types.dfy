/** The rows of the control plane's tables, its audit events and its errors.
    Identifiers are UUIDs in the source; only their equality and order matter, so they are naturals here.
    Times are microseconds. */
module Types {
  datatype Option<+T> = None | Some(value: T)

  datatype Result<+T> = Success(value: T) | Failure(error: Error)

  type UserId = nat
  type NodeId = nat
  type JobId = nat
  type Prefix = nat
  type Time = int

  // Bounds that the request schemas enforce before a service is called.
  type Gpus = g: int | 1 <= g <= 64 witness 1
  type Seconds = d: int | 1 <= d <= 604800 witness 1
  type NodeGpus = g: int | 1 <= g witness 1

  datatype Error =
    | Unauthenticated        // the request's user or agent token resolves to no row
    | AccountNotActive
    | InsufficientCredits
    | JobNotFound
    | InvalidJobTransition
    | NodeNotFound
    | NodeBusy
    | NodeNotDraining
    | NotAHost
    | UnknownToken
    | TokenAlreadyUsed
    | TokenExpired
    | UserNotFound
    | InvalidEntries         // a log entry that the request schema refuses, and its whole batch with it
    | Constraint             // a primary key, unique or foreign key violation

  datatype UserStatus = Pending | Active | Suspended

  datatype User = User(status: UserStatus, canHost: bool, credits: int)

  datatype NodeStatus = Online | Draining

  datatype Node = Node(owner: UserId, gpus: NodeGpus, status: NodeStatus, lastSeen: Time)

  datatype Token = Token(owner: UserId, secret: nat, expiresAt: Time, consumedAt: Option<Time>)

  datatype JobStatus = Queued | Running | Completed | Failed | Cancelled

  datatype Job = Job(
    user: UserId,
    gpus: Gpus,
    maxSeconds: Seconds,
    status: JobStatus,
    exitCode: Option<int>,
    assignedNode: Option<NodeId>,
    preferredNode: Option<NodeId>,
    createdAt: Time,
    startedAt: Option<Time>,
    completedAt: Option<Time>,
    cancelAt: Option<Time>)

  datatype Stream = Stdout | Stderr | System

  datatype LogEntry = LogEntry(stream: Stream, content: string, sequence: nat)

  type JobLog = map<nat, LogEntry>

  /** One row of the audit table: the event type with the fields of its event data that the model needs. */
  datatype Event =
    | SignedUp(user: UserId)
    | Approved(user: UserId, canHost: bool, credits: nat)
    | UserSuspended(user: UserId)
    | TokenCreated(user: UserId, prefix: Prefix)
    | NodeRegistered(user: UserId, node: NodeId, capacity: NodeGpus, prefix: Prefix)
    | NodeDrained(user: UserId, node: NodeId)
    | NodeForceDrained(user: UserId, node: NodeId)
    | NodeUndrained(user: UserId, node: NodeId)
    | NodeRemoved(user: UserId, node: NodeId)
    | JobSubmitted(user: UserId, job: JobId, gpus: Gpus, maxSeconds: Seconds, preferred: Option<NodeId>)
    | JobAssigned(user: UserId, job: JobId, node: NodeId, gpus: Gpus)
    | JobEnded(target: JobStatus, user: UserId, job: JobId, node: NodeId, exitCode: int, billed: int)
    | JobCancelled(user: UserId, job: JobId, phase: JobStatus)
    | JobForceKilled(user: UserId, job: JobId, phase: JobStatus)
    | AuditViewed(user: UserId, count: nat)

  /** The committed contents of the database. */
  datatype Server = Server(
    users: map<UserId, User>,
    nodes: map<NodeId, Node>,
    tokens: map<Prefix, Token>,
    jobs: map<JobId, Job>,
    logs: map<JobId, JobLog>,
    audit: seq<Event>)

  const EMPTY_SERVER := Server(map[], map[], map[], map[], map[], [])
}
