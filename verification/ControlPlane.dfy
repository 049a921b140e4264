/** The services over their tables, step by step as the source runs them inside one transaction: repository calls that
    change one row, in the source's order. Each service method is proved to leave exactly the state, and give exactly
    the answer, of its transaction in Handlers. */
module ControlPlane {
  import opened Types
  import opened JobStatuses
  import opened Ordering
  import opened JobLogs
  import opened Handlers
  import opened Invariants
  import Billing

  class Database {
    var users: map<UserId, User>
    var nodes: map<NodeId, Node>
    var tokens: map<Prefix, Token>
    var jobs: map<JobId, Job>
    var logs: map<JobId, JobLog>
    var audit: seq<Event>

    ghost function State(): Server reads this { Server(users, nodes, tokens, jobs, logs, audit) }

    ghost predicate Valid() reads this { Inv(State()) }

    /** The method answered o and left its state behind; an error left everything as it was. */
    ghost predicate Served<T(!new)>(before: Server, r: Result<T>, o: Outcome<T>) reads this {
      match o
      case Ok(s, v) => State() == s && r == Success(v)
      case Err(e) => State() == before && r == Failure(e)
    }

    constructor ()
      ensures Valid() && State() == EMPTY_SERVER
    {
      users, nodes, tokens, jobs, logs, audit := map[], map[], map[], map[], map[], [];
    }

    // -------------------------------------------------------------- repositories

    method CreateAudit(e: Event)
      modifies this`audit
      ensures audit == old(audit) + [e]
    {
      audit := audit + [e];
    }

    method MarkTerminal(j: JobId, status: JobStatus, exitCode: Option<int>, now: Time)
      requires j in jobs
      modifies this`jobs
      ensures jobs == old(jobs)[j := Handlers.MarkTerminal(old(jobs)[j], status, exitCode, now)]
    {
      var job := jobs[j];
      job := job.(status := status);
      job := job.(exitCode := exitCode);
      job := job.(completedAt := Some(now));
      jobs := jobs[j := job];
    }

    method RequestCancel(j: JobId, now: Time)
      requires j in jobs
      modifies this`jobs
      ensures jobs == old(jobs)[j := old(jobs)[j].(cancelAt := Some(now))]
    {
      jobs := jobs[j := jobs[j].(cancelAt := Some(now))];
    }

    /** WHERE assigned_node_id = n AND status = 'running' LIMIT 1. */
    method GetRunningForNode(n: NodeId) returns (running: Option<JobId>)
      ensures running == None <==> !Busy(State(), n)
      ensures running == None <==> forall j :: j in jobs ==> !(jobs[j].status == Running && jobs[j].assignedNode == Some(n))
      ensures running.Some? ==>
        running.value in jobs && jobs[running.value].status == Running && jobs[running.value].assignedNode == Some(n)
    {
      var found := set j | j in jobs && jobs[j].status == Running && jobs[j].assignedNode == Some(n);
      if found == {} {
        assert forall j :: j in jobs && RunsOn(jobs[j], n) ==> j in found;
        return None;
      }
      var j :| j in found;
      return Some(j);
    }

    /** The oldest claimable row, which then becomes the node's. */
    method ClaimNextForNode(n: NodeId, capacity: NodeGpus, now: Time) returns (claimed: Option<JobId>)
      modifies this`jobs
      ensures var c := Candidates(old(jobs), n, capacity);
        if c == {} then claimed == None && jobs == old(jobs)
        else claimed == Some(Oldest(old(jobs), c)) && jobs == old(jobs)[claimed.value := Started(old(jobs)[claimed.value], n, now)]
      ensures claimed == None <==> forall k :: k in old(jobs) ==> !CouldRun(old(jobs)[k], n, capacity)
      ensures claimed.Some? ==>
        && claimed.value in old(jobs) && CouldRun(old(jobs)[claimed.value], n, capacity)
        && (forall k :: k in old(jobs) && k != claimed.value && CouldRun(old(jobs)[k], n, capacity) ==>
              var a, b := old(jobs)[claimed.value].createdAt, old(jobs)[k].createdAt; a < b || (a == b && claimed.value < k))
    {
      var c := Candidates(jobs, n, capacity);
      assert forall k :: k in c <==> k in jobs && CouldRun(jobs[k], n, capacity);
      if c == {} { return None; }
      OldestExists(jobs, c);
      var j :| j in c && forall k :: k in c && k != j ==> Less(Key(jobs[j].createdAt, j), Key(jobs[k].createdAt, k));
      OldestIsUnique(jobs, c, j);
      var job := jobs[j];
      job := job.(status := Running);
      job := job.(assignedNode := Some(n));
      job := job.(startedAt := Some(now));
      jobs := jobs[j := job];
      return Some(j);
    }

    lemma OldestIsUnique(rows: map<JobId, Job>, c: set<JobId>, j: JobId)
      requires c <= rows.Keys && j in c
      requires forall k :: k in c && k != j ==> Less(Key(rows[j].createdAt, j), Key(rows[k].createdAt, k))
      ensures Oldest(rows, c) == j
    {}

    method SetNodeStatus(n: NodeId, status: NodeStatus)
      requires n in nodes
      modifies this`nodes
      ensures nodes == old(nodes)[n := old(nodes)[n].(status := status)]
    {
      nodes := nodes[n := nodes[n].(status := status)];
    }

    /** DELETE FROM nodes, with the foreign keys of both job columns set to null. */
    method DeleteNodeRow(n: NodeId)
      modifies this`nodes, this`jobs
      ensures nodes == old(nodes) - {n}
      ensures jobs == map j | j in old(jobs) :: UnlinkJob(old(jobs)[j], n)
    {
      nodes := nodes - {n};
      jobs := map j | j in jobs :: UnlinkJob(jobs[j], n);
    }

    /** INSERT ... ON CONFLICT DO NOTHING, one row after the other; the count is the statement's row count. */
    method AppendRows(j: JobId, entries: seq<LogEntry>) returns (inserted: nat)
      modifies this`logs
      ensures logs == old(logs)[j := Insert(LogOf(old(State()), j), entries)]
      ensures inserted == Inserted(LogOf(old(State()), j), entries)
      ensures |logs[j]| == |LogOf(old(State()), j)| + inserted
    {
      ghost var start := LogOf(State(), j);
      var log: JobLog := if j in logs then logs[j] else map[];
      inserted := 0;
      for i := 0 to |entries|
        invariant Insert(log, entries[i..]) == Insert(start, entries)
        invariant inserted + Inserted(log, entries[i..]) == Inserted(start, entries)
      {
        assert entries[i..][0] == entries[i] && entries[i..][1..] == entries[i + 1..];
        if entries[i].sequence !in log {
          log := log[entries[i].sequence := entries[i]];
          inserted := inserted + 1;
        }
      }
      assert entries[|entries|..] == [];
      InsertGrows(start, entries);
      logs := logs[j := log];
    }

    // -------------------------------------------------------------- users

    method SignUp(u: UserId) returns (r: Result<()>)
      requires Valid()
      modifies this
      ensures Valid() && Served(old(State()), r, Handlers.SignUp(old(State()), u))
    {
      InvStep(State(), ReqSignUp(u));
      if u in users { return Failure(Constraint); }
      users := users[u := User(Pending, false, 0)];
      CreateAudit(SignedUp(u));
      return Success(());
    }

    method ApproveUser(u: UserId, canHost: bool, credits: nat) returns (r: Result<()>)
      requires Valid()
      modifies this
      ensures Valid() && Served(old(State()), r, Handlers.Approve(old(State()), u, canHost, credits))
    {
      InvStep(State(), ReqApprove(u, canHost, credits));
      if u !in users { return Failure(UserNotFound); }
      var user := users[u];
      user := user.(status := Active);
      user := user.(canHost := canHost);
      user := user.(credits := credits);
      users := users[u := user];
      CreateAudit(Approved(u, canHost, credits));
      return Success(());
    }

    method SuspendUser(u: UserId) returns (r: Result<()>)
      requires Valid()
      modifies this
      ensures Valid() && Served(old(State()), r, Handlers.Suspend(old(State()), u))
    {
      InvStep(State(), ReqSuspend(u));
      if u !in users { return Failure(UserNotFound); }
      users := users[u := users[u].(status := Suspended)];
      CreateAudit(UserSuspended(u));
      return Success(());
    }

    /** The grant-admin command, run by an operator beside the services. */
    method GrantAdmin(u: UserId) returns (r: Result<()>)
      requires Valid()
      modifies this
      ensures Valid() && Served(old(State()), r, Handlers.GrantAdmin(old(State()), u))
    {
      InvStep(State(), ReqGrantAdmin(u));
      if u !in users { return Failure(UserNotFound); }
      users := users[u := users[u].(status := Active)];
      return Success(());
    }

    // -------------------------------------------------------------- nodes

    method CreateClaimToken(u: UserId, prefix: Prefix, secret: nat, now: Time) returns (r: Result<()>)
      requires Valid()
      modifies this
      ensures Valid() && Served(old(State()), r, Handlers.CreateToken(old(State()), u, prefix, secret, now))
    {
      InvStep(State(), ReqCreateToken(u, prefix, secret, now));
      if u !in users { return Failure(Unauthenticated); }
      if !users[u].canHost { return Failure(NotAHost); }
      if prefix in tokens { return Failure(Constraint); }
      tokens := tokens[prefix := Token(u, secret, now + CLAIM_TOKEN_TTL, None)];
      CreateAudit(TokenCreated(u, prefix));
      return Success(());
    }

    method RegisterNode(prefix: Prefix, secret: nat, n: NodeId, gpus: NodeGpus, now1: Time, now2: Time, now3: Time)
      returns (r: Result<()>)
      requires Valid()
      modifies this
      ensures Valid() && Served(old(State()), r, Handlers.Register(old(State()), prefix, secret, n, gpus, now1, now2, now3))
    {
      InvStep(State(), ReqRegister(prefix, secret, n, gpus, now1, now2, now3));
      if prefix !in tokens { return Failure(UnknownToken); }
      var token := tokens[prefix];
      if token.secret != secret { return Failure(UnknownToken); }
      if token.consumedAt.Some? { return Failure(TokenAlreadyUsed); }
      if token.expiresAt <= now1 { return Failure(TokenExpired); }
      if n in nodes { return Failure(Constraint); }
      nodes := nodes[n := Node(token.owner, gpus, Online, now2)];
      tokens := tokens[prefix := token.(consumedAt := Some(now3))];
      CreateAudit(NodeRegistered(token.owner, n, gpus, prefix));
      return Success(());
    }

    /** The answer carries the node's running job if its cancellation was requested, else nothing. */
    method Heartbeat(n: NodeId, now: Time) returns (r: Result<Option<JobId>>)
      requires Valid()
      modifies this
      ensures Valid() && Served(old(State()), r, Handlers.Heartbeat(old(State()), n, now))
    {
      InvStep(State(), ReqHeartbeat(n, now));
      if n !in nodes { return Failure(Unauthenticated); }
      nodes := nodes[n := nodes[n].(lastSeen := now)];
      var current := GetRunningForNode(n);
      return Success(if current.Some? && jobs[current.value].cancelAt.Some? then current else None);
    }

    method DrainNode(owner: UserId, n: NodeId, asAdmin: bool) returns (r: Result<()>)
      requires Valid()
      modifies this
      ensures Valid() && Served(old(State()), r, Handlers.Drain(old(State()), owner, n, asAdmin))
    {
      InvStep(State(), ReqDrain(owner, n, asAdmin));
      if n !in nodes { return Failure(NodeNotFound); }
      if !asAdmin && nodes[n].owner != owner { return Failure(NodeNotFound); }
      if nodes[n].status != Draining {
        SetNodeStatus(n, Draining);
        CreateAudit(NodeDrained(nodes[n].owner, n));
      }
      return Success(());
    }

    method AdminForceDrain(n: NodeId) returns (r: Result<()>)
      requires Valid()
      modifies this
      ensures Valid() && Served(old(State()), r, Handlers.ForceDrain(old(State()), n))
    {
      InvStep(State(), ReqForceDrain(n));
      if n !in nodes { return Failure(NodeNotFound); }
      if nodes[n].status != Draining {
        SetNodeStatus(n, Draining);
        CreateAudit(NodeForceDrained(nodes[n].owner, n));
      }
      return Success(());
    }

    method UndrainNode(owner: UserId, n: NodeId) returns (r: Result<()>)
      requires Valid()
      modifies this
      ensures Valid() && Served(old(State()), r, Handlers.Undrain(old(State()), owner, n))
    {
      InvStep(State(), ReqUndrain(owner, n));
      if n !in nodes || nodes[n].owner != owner { return Failure(NodeNotFound); }
      if nodes[n].status != Draining { return Failure(NodeNotDraining); }
      SetNodeStatus(n, Online);
      CreateAudit(NodeUndrained(nodes[n].owner, n));
      return Success(());
    }

    method DeleteNode(owner: UserId, n: NodeId, asAdmin: bool) returns (r: Result<()>)
      requires Valid()
      modifies this
      ensures Valid() && Served(old(State()), r, Handlers.DeleteNode(old(State()), owner, n, asAdmin))
    {
      hide Inv;
      InvDeleteNode(State(), owner, n, asAdmin);
      if n !in nodes { return Failure(NodeNotFound); }
      if !asAdmin && nodes[n].owner != owner { return Failure(NodeNotFound); }
      var running := GetRunningForNode(n);
      if running.Some? { return Failure(NodeBusy); }
      CreateAudit(NodeRemoved(nodes[n].owner, n));
      DeleteNodeRow(n);
      assert jobs == RemoveNode(old(State()), n).jobs;
      return Success(());
    }

    // -------------------------------------------------------------- jobs

    method Submit(u: UserId, j: JobId, gpus: Gpus, maxSeconds: Seconds, preferred: Option<NodeId>, createdAt: Time)
      returns (r: Result<()>)
      requires Valid()
      modifies this
      ensures Valid() && Served(old(State()), r, Handlers.Submit(old(State()), u, j, gpus, maxSeconds, preferred, createdAt))
    {
      hide Inv;
      InvSubmit(State(), u, j, gpus, maxSeconds, preferred, createdAt);
      if u !in users { return Failure(Unauthenticated); }
      if users[u].status != Active { return Failure(AccountNotActive); }
      if users[u].credits * 3600 < gpus * maxSeconds { return Failure(InsufficientCredits); }
      if j in jobs { return Failure(Constraint); }
      if preferred.Some? && preferred.value !in nodes { return Failure(Constraint); }
      jobs := jobs[j := Job(u, gpus, maxSeconds, Queued, None, None, preferred, createdAt, None, None, None)];
      CreateAudit(JobSubmitted(u, j, gpus, maxSeconds, preferred));
      return Success(());
    }

    method ClaimForNode(n: NodeId, now: Time) returns (r: Result<Option<JobId>>)
      requires Valid()
      modifies this
      ensures Valid() && Served(old(State()), r, Handlers.Claim(old(State()), n, now))
    {
      hide Inv;
      InvClaim(State(), n, now);
      if n !in nodes { return Failure(Unauthenticated); }
      if nodes[n].status == Draining { return Success(None); }
      var existing := GetRunningForNode(n);
      if existing.Some? { return Success(None); }
      var claimed := ClaimNextForNode(n, nodes[n].gpus, now);
      if claimed == None { return Success(None); }
      var job := jobs[claimed.value];
      CreateAudit(JobAssigned(job.user, claimed.value, n, job.gpus));
      return Success(claimed);
    }

    method CompleteJob(n: NodeId, j: JobId, exitCode: int, t1: Time, t2: Time) returns (r: Result<JobStatus>)
      requires Valid()
      modifies this
      ensures Valid() && Served(old(State()), r, Handlers.Complete(old(State()), n, j, exitCode, t1, t2))
    {
      hide Inv;
      InvComplete(State(), n, j, exitCode, t1, t2);
      if n !in nodes { return Failure(Unauthenticated); }
      if j !in jobs || jobs[j].assignedNode != Some(n) { return Failure(JobNotFound); }
      var job := jobs[j];
      var target := Failed;
      if job.cancelAt.Some? {
        target := Cancelled;
      } else if exitCode == 0 {
        target := Completed;
      }
      if !Allowed(job.status, target) { return Failure(InvalidJobTransition); }
      var billed := Billing.Bill(if job.startedAt.Some? then job.startedAt.value else t1, t1, job.gpus);
      if job.user in users {
        var user := users[job.user];
        users := users[job.user := user.(credits := Billing.Max(0, user.credits - billed))];
      }
      MarkTerminal(j, target, Some(exitCode), t2);
      CreateAudit(JobEnded(target, job.user, j, n, exitCode, billed));
      return Success(target);
    }

    /** The part that cancel and force-kill share; the event is the caller's. */
    method CancelOrRequestCancel(j: JobId, now: Time, event: Event) returns (r: Result<()>)
      requires j in jobs
      modifies this`jobs, this`audit
      ensures if Terminal(old(jobs)[j].status) then r == Failure(InvalidJobTransition) && State() == old(State())
        else r == Success(()) && jobs == old(jobs)[j := CancelRow(old(jobs)[j], now)] && audit == old(audit) + [event]
    {
      var job := jobs[j];
      if Terminal(job.status) { return Failure(InvalidJobTransition); }
      if job.status == Queued {
        MarkTerminal(j, Cancelled, None, now);
      } else {
        if job.cancelAt == None { RequestCancel(j, now); }
      }
      CreateAudit(event);
      return Success(());
    }

    method CancelJob(u: UserId, j: JobId, now: Time) returns (r: Result<()>)
      requires Valid()
      modifies this
      ensures Valid() && Served(old(State()), r, Handlers.Cancel(old(State()), u, j, now))
    {
      hide Inv;
      InvStep(State(), ReqCancel(u, j, now));
      if j !in jobs || jobs[j].user != u { return Failure(JobNotFound); }
      r := CancelOrRequestCancel(j, now, JobCancelled(u, j, jobs[j].status));
    }

    method AdminForceKill(j: JobId, now: Time) returns (r: Result<()>)
      requires Valid()
      modifies this
      ensures Valid() && Served(old(State()), r, Handlers.ForceKill(old(State()), j, now))
    {
      hide Inv;
      InvStep(State(), ReqForceKill(j, now));
      if j !in jobs { return Failure(JobNotFound); }
      r := CancelOrRequestCancel(j, now, JobForceKilled(jobs[j].user, j, jobs[j].status));
    }

    method AppendLogs(n: NodeId, j: JobId, entries: seq<LogEntry>) returns (r: Result<nat>)
      requires Valid()
      modifies this
      ensures Valid() && Served(old(State()), r, Handlers.AppendLogs(old(State()), n, j, entries))
    {
      InvAppendLogs(State(), n, j, entries);
      if n !in nodes { return Failure(Unauthenticated); }
      if j !in jobs || jobs[j].assignedNode != Some(n) { return Failure(JobNotFound); }
      var inserted := AppendRows(j, entries);
      return Success(inserted);
    }

    /** The endpoint, which answers an empty batch without asking for the job. */
    method PushLogs(n: NodeId, j: JobId, entries: seq<LogEntry>) returns (r: Result<nat>)
      requires Valid()
      modifies this
      ensures Valid() && Served(old(State()), r, Handlers.PushLogs(old(State()), n, j, entries))
    {
      if n !in nodes { return Failure(Unauthenticated); }
      for i := 0 to |entries|
        invariant State() == old(State()) && forall k :: 0 <= k < i ==> 1 <= |entries[k].content| <= MAX_CONTENT
      {
        if entries[i].content == "" || |entries[i].content| > MAX_CONTENT {
          assert entries[i] in entries;
          return Failure(InvalidEntries);
        }
      }
      if entries == [] { return Success(0); }
      r := AppendLogs(n, j, entries);
    }
  }
}
