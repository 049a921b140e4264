/** The audit table read as a ledger: replaying its rows from nothing rebuilds the rest of the database. */
module Ledger {
  import opened Types
  import opened JobStatuses
  import opened Ordering
  import opened Handlers
  import opened Invariants
  import Billing

  datatype JobEntry = JobEntry(
    user: UserId,
    status: JobStatus,
    assignedNode: Option<NodeId>,
    preferredNode: Option<NodeId>,
    exitCode: Option<int>,
    cancelRequested: bool)

  datatype NodeEntry = NodeEntry(owner: UserId, gpus: NodeGpus, draining: bool)

  datatype TokenEntry = TokenEntry(owner: UserId, used: bool)

  datatype Books = Books(
    credits: map<UserId, int>,
    nodes: map<NodeId, NodeEntry>,
    tokens: map<Prefix, TokenEntry>,
    jobs: map<JobId, JobEntry>)

  const BLANK := Books(map[], map[], map[], map[])

  /** What the ledger should say about a database. */
  function JobView(job: Job): JobEntry {
    JobEntry(job.user, job.status, job.assignedNode, job.preferredNode, job.exitCode, job.cancelAt.Some?)
  }

  function NodeView(node: Node): NodeEntry { NodeEntry(node.owner, node.gpus, node.status == Draining) }

  function TokenView(token: Token): TokenEntry { TokenEntry(token.owner, token.consumedAt.Some?) }

  function View(s: Server): Books {
    Books(map u | u in s.users :: s.users[u].credits,
          map n | n in s.nodes :: NodeView(s.nodes[n]),
          map p | p in s.tokens :: TokenView(s.tokens[p]),
          map j | j in s.jobs :: JobView(s.jobs[j]))
  }

  function UnlinkEntry(e: JobEntry, n: NodeId): JobEntry {
    e.(assignedNode := Unlink(e.assignedNode, n), preferredNode := Unlink(e.preferredNode, n))
  }

  /** Both cancellation events: a queued job ends, a running one is only marked. */
  function CancelEntry(e: JobEntry, phase: JobStatus): JobEntry {
    if phase == Queued then e.(status := Cancelled) else e.(cancelRequested := true)
  }

  /** Reading one audit row. */
  function Post(b: Books, e: Event): Books {
    match e
    case SignedUp(u) => b.(credits := b.credits[u := 0])
    case Approved(u, canHost, credits) => b.(credits := b.credits[u := credits])
    case TokenCreated(u, p) => b.(tokens := b.tokens[p := TokenEntry(u, false)])
    case NodeRegistered(u, n, gpus, p) =>
      b.(nodes := b.nodes[n := NodeEntry(u, gpus, false)], tokens := b.tokens[p := TokenEntry(u, true)])
    case NodeDrained(u, n) => if n in b.nodes then b.(nodes := b.nodes[n := b.nodes[n].(draining := true)]) else b
    case NodeForceDrained(u, n) => if n in b.nodes then b.(nodes := b.nodes[n := b.nodes[n].(draining := true)]) else b
    case NodeUndrained(u, n) => if n in b.nodes then b.(nodes := b.nodes[n := b.nodes[n].(draining := false)]) else b
    case NodeRemoved(u, n) => b.(nodes := b.nodes - {n}, jobs := map j | j in b.jobs :: UnlinkEntry(b.jobs[j], n))
    case JobSubmitted(u, j, gpus, maxSeconds, preferred) =>
      b.(jobs := b.jobs[j := JobEntry(u, Queued, None, preferred, None, false)])
    case JobAssigned(u, j, n, gpus) =>
      if j in b.jobs then b.(jobs := b.jobs[j := b.jobs[j].(status := Running, assignedNode := Some(n))]) else b
    case JobEnded(target, u, j, n, exitCode, billed) =>
      if j in b.jobs then
        b.(jobs := b.jobs[j := b.jobs[j].(status := target, exitCode := Some(exitCode))],
           credits := if u in b.credits then b.credits[u := Billing.Spend(b.credits[u], billed)] else b.credits)
      else b
    case JobCancelled(u, j, phase) => if j in b.jobs then b.(jobs := b.jobs[j := CancelEntry(b.jobs[j], phase)]) else b
    case JobForceKilled(u, j, phase) => if j in b.jobs then b.(jobs := b.jobs[j := CancelEntry(b.jobs[j], phase)]) else b
    case UserSuspended(u) => b
    case AuditViewed(u, count) => b
  }

  /** A row that makes sense where it stands: an auditor's check, made against the books so far. */
  predicate Legal(b: Books, e: Event) {
    match e
    case SignedUp(u) => u !in b.credits
    case Approved(u, canHost, credits) => u in b.credits
    case TokenCreated(u, p) => u in b.credits && p !in b.tokens
    case NodeRegistered(u, n, gpus, p) => n !in b.nodes && p in b.tokens && b.tokens[p] == TokenEntry(u, false)
    case NodeDrained(u, n) => n in b.nodes && b.nodes[n].owner == u && !b.nodes[n].draining
    case NodeForceDrained(u, n) => n in b.nodes && b.nodes[n].owner == u && !b.nodes[n].draining
    case NodeUndrained(u, n) => n in b.nodes && b.nodes[n].owner == u && b.nodes[n].draining
    case NodeRemoved(u, n) =>
      && n in b.nodes && b.nodes[n].owner == u
      && forall j :: j in b.jobs ==> !(b.jobs[j].status == Running && b.jobs[j].assignedNode == Some(n))
    case JobSubmitted(u, j, gpus, maxSeconds, preferred) =>
      && j !in b.jobs && (preferred.Some? ==> preferred.value in b.nodes)
      && u in b.credits && Billing.Funded(b.credits[u], gpus, maxSeconds)
    case JobAssigned(u, j, n, gpus) =>
      && j in b.jobs && b.jobs[j].user == u && Allowed(b.jobs[j].status, Running)
      && n in b.nodes && gpus <= b.nodes[n].gpus && !b.nodes[n].draining
      && (b.jobs[j].preferredNode == None || b.jobs[j].preferredNode == Some(n))
      && forall k :: k in b.jobs ==> !(b.jobs[k].status == Running && b.jobs[k].assignedNode == Some(n))
    case JobEnded(target, u, j, n, exitCode, billed) =>
      && j in b.jobs && b.jobs[j].user == u && b.jobs[j].assignedNode == Some(n) && 1 <= billed
      && b.jobs[j].status == Running
      && target == (if b.jobs[j].cancelRequested then Cancelled else if exitCode == 0 then Completed else Failed)
    case JobCancelled(u, j, phase) => j in b.jobs && b.jobs[j].user == u && b.jobs[j].status == phase && !Terminal(phase)
    case JobForceKilled(u, j, phase) => j in b.jobs && b.jobs[j].user == u && b.jobs[j].status == phase && !Terminal(phase)
    case UserSuspended(u) => u in b.credits
    case AuditViewed(u, count) => u in b.credits
  }

  function Replay(audit: seq<Event>): Books
    decreases |audit|
  {
    if audit == [] then BLANK else Post(Replay(audit[..|audit| - 1]), audit[|audit| - 1])
  }

  /** Every row is legal where it stands. */
  predicate Lawful(audit: seq<Event>)
    decreases |audit|
  {
    audit == [] || (Lawful(audit[..|audit| - 1]) && Legal(Replay(audit[..|audit| - 1]), audit[|audit| - 1]))
  }

  lemma Snoc(audit: seq<Event>, e: Event)
    ensures Replay(audit + [e]) == Post(Replay(audit), e)
    ensures Lawful(audit + [e]) <==> Lawful(audit) && Legal(Replay(audit), e)
  {}

  // ---------------------------------------------------------------- one request, at most one row

  /** The state moved from s to s' exactly as one new audit row e tells it. */
  ghost predicate Tells(s: Server, e: Event, s': Server) {
    s'.audit == s.audit + [e] && Legal(View(s), e) && View(s') == Post(View(s), e)
  }

  /** Each request appends at most one row, and the row tells exactly what the request did. */
  ghost predicate Told(s: Server, s': Server) {
    (s'.audit == s.audit && View(s') == View(s)) || exists e :: Tells(s, e, s')
  }

  lemma ViewOfRemoval(s: Server, n: NodeId)
    ensures View(RemoveNode(s, n)).jobs == map j | j in View(s).jobs :: UnlinkEntry(View(s).jobs[j], n)
    ensures View(RemoveNode(s, n)).nodes == View(s).nodes - {n}
  {}

  lemma ToldDelete(s: Server, u: UserId, n: NodeId, asAdmin: bool)
    ensures Told(s, Commit(s, DeleteNode(s, u, n, asAdmin)))
  {
    var o := DeleteNode(s, u, n, asAdmin);
    if o.Ok? {
      var e := NodeRemoved(s.nodes[n].owner, n);
      forall j | j in View(s).jobs
        ensures !(View(s).jobs[j].status == Running && View(s).jobs[j].assignedNode == Some(n))
      {
        assert !RunsOn(s.jobs[j], n);
      }
      ViewOfRemoval(Audit(s, e), n);
      assert View(Audit(s, e)) == View(s);
      assert Tells(s, e, o.server);
    }
  }

  lemma ToldAssign(s: Server, n: NodeId, j: JobId, now: Time)
    requires Winnable(s, n, j)
    ensures Tells(s, JobAssigned(s.jobs[j].user, j, n, s.jobs[j].gpus), Assign(s, n, j, now))
  {}

  lemma ToldClaim(s: Server, n: NodeId, now: Time)
    ensures Told(s, Commit(s, Claim(s, n, now)))
  {
    var o := Claim(s, n, now);
    if o.Ok? && o.value.Some? { ToldAssign(s, n, o.value.value, now); }
  }

  lemma EndedView(s: Server, s': Server, e: Event)
    requires e.JobEnded? && e.job in s.jobs && e.user in s.users
    requires exists t :: s' == Audit(s.(users := Charge(s.users, e.user, e.billed),
      jobs := s.jobs[e.job := MarkTerminal(s.jobs[e.job], e.target, Some(e.exitCode), t)]), e)
    ensures View(s') == Post(View(s), e)
  {}

  lemma ToldComplete(s: Server, n: NodeId, j: JobId, exitCode: int, t1: Time, t2: Time)
    requires Inv(s)
    ensures Told(s, Commit(s, Complete(s, n, j, exitCode, t1, t2)))
  {
    var o := Complete(s, n, j, exitCode, t1, t2);
    if o.Ok? {
      var job := s.jobs[j];
      assert RowOk(s.users, s.nodes, job);
      var e := JobEnded(o.value, job.user, j, n, exitCode, BillAt(job, t1));
      assert Legal(View(s), e);
      EndedView(s, o.server, e);
      assert Tells(s, e, o.server);
    }
  }

  /** Either cancellation event tells what happened to the row. */
  lemma ToldCancelRow(s: Server, j: JobId, now: Time, e: Event)
    requires Inv(s) && j in s.jobs && !Terminal(s.jobs[j].status)
    requires e == JobCancelled(s.jobs[j].user, j, s.jobs[j].status) || e == JobForceKilled(s.jobs[j].user, j, s.jobs[j].status)
    ensures Tells(s, e, Audit(s.(jobs := s.jobs[j := CancelRow(s.jobs[j], now)]), e))
  {
    assert RowOk(s.users, s.nodes, s.jobs[j]);
    var s' := Audit(s.(jobs := s.jobs[j := CancelRow(s.jobs[j], now)]), e);
    assert JobView(s'.jobs[j]) == CancelEntry(JobView(s.jobs[j]), s.jobs[j].status);
    assert View(s').jobs == View(s).jobs[j := JobView(s'.jobs[j])];
  }

  lemma ToldCancel(s: Server, u: UserId, j: JobId, now: Time)
    requires Inv(s)
    ensures Told(s, Commit(s, Cancel(s, u, j, now)))
  {
    hide Inv, Tells;
    if Cancel(s, u, j, now).Ok? { ToldCancelRow(s, j, now, JobCancelled(u, j, s.jobs[j].status)); }
  }

  lemma ToldForceKill(s: Server, j: JobId, now: Time)
    requires Inv(s)
    ensures Told(s, Commit(s, ForceKill(s, j, now)))
  {
    hide Inv, Tells;
    if ForceKill(s, j, now).Ok? { ToldCancelRow(s, j, now, JobForceKilled(s.jobs[j].user, j, s.jobs[j].status)); }
  }

  lemma ToldSubmit(s: Server, u: UserId, j: JobId, gpus: Gpus, maxSeconds: Seconds, preferred: Option<NodeId>, now: Time)
    ensures Told(s, Commit(s, Submit(s, u, j, gpus, maxSeconds, preferred, now)))
  {
    var o := Submit(s, u, j, gpus, maxSeconds, preferred, now);
    if o.Ok? {
      assert Tells(s, JobSubmitted(u, j, gpus, maxSeconds, preferred), o.server);
    }
  }

  lemma ToldUser(s: Server, u: UserId, user: User, e: Event)
    requires e == SignedUp(u) || e == UserSuspended(u) || (e.Approved? && e.user == u)
    requires Legal(View(s), e)
    requires user.credits == if e.SignedUp? then 0 else if e.Approved? then e.credits else s.users[u].credits
    ensures Told(s, Audit(s.(users := s.users[u := user]), e))
  {
    assert Tells(s, e, Audit(s.(users := s.users[u := user]), e));
  }

  lemma ToldUsers(s: Server, r: Request)
    requires r.ReqSignUp? || r.ReqApprove? || r.ReqSuspend?
    ensures Told(s, Handle(s, r))
  {
    var s' := Handle(s, r);
    if s' == s {
      ToldNothing(s, s');
    } else {
      ToldUser(s, r.user, s'.users[r.user], s'.audit[|s.audit|]);
    }
  }

  lemma ToldGrant(s: Server, u: UserId)
    ensures Told(s, Commit(s, GrantAdmin(s, u)))
  {}

  lemma ToldTokens(s: Server, r: Request)
    requires r.ReqViewAudit? || r.ReqCreateToken?
    ensures Told(s, Handle(s, r))
  {
    var s' := Handle(s, r);
    if s'.audit != s.audit { assert Tells(s, s'.audit[|s.audit|], s'); }
  }

  lemma ToldStatus(s: Server, n: NodeId, status: NodeStatus, e: Event)
    requires n in s.nodes && (e == NodeDrained(s.nodes[n].owner, n) || e == NodeForceDrained(s.nodes[n].owner, n) ||
                              e == NodeUndrained(s.nodes[n].owner, n))
    requires e.NodeUndrained? <==> status == Online
    requires s.nodes[n].status != status
    ensures Told(s, Audit(SetStatus(s, n, status), e))
  {
    assert Tells(s, e, Audit(SetStatus(s, n, status), e));
  }

  lemma ToldRegister(s: Server, r: Request)
    requires r.ReqRegister?
    ensures Told(s, Handle(s, r))
  {
    var s' := Handle(s, r);
    if s'.audit != s.audit {
      assert Tells(s, NodeRegistered(s.tokens[r.prefix].owner, r.node, r.capacity, r.prefix), s');
    }
  }

  lemma ToldDrain(s: Server, r: Request, n: NodeId)
    requires (r.ReqDrain? || r.ReqForceDrain? || r.ReqUndrain?) && r.node == n
    ensures Told(s, Handle(s, r))
  {
    var s' := Handle(s, r);
    if s'.audit == s.audit {
      ToldNothing(s, s');
    } else {
      ToldStatus(s, n, s'.nodes[n].status, s'.audit[|s.audit|]);
    }
  }

  lemma ToldHeartbeat(s: Server, n: NodeId, now: Time)
    requires n in s.nodes
    ensures Told(s, RecordHeartbeat(s, n, now))
  {}

  lemma ToldStep(s: Server, r: Request)
    requires Inv(s)
    ensures Told(s, Handle(s, r))
  {
    hide Told, Inv;
    match r
    case ReqDeleteNode(u, n, asAdmin) => ToldDelete(s, u, n, asAdmin);
    case ReqSubmit(u, j, gpus, maxSeconds, preferred, now) => ToldSubmit(s, u, j, gpus, maxSeconds, preferred, now);
    case ReqClaim(n, now) => ToldClaim(s, n, now);
    case ReqComplete(n, j, exitCode, t1, t2) => ToldComplete(s, n, j, exitCode, t1, t2);
    case ReqCancel(u, j, now) => ToldCancel(s, u, j, now);
    case ReqForceKill(j, now) => ToldForceKill(s, j, now);
    case ReqPushLogs(n, j, entries) => ToldNothing(s, Handle(s, r));
    case ReqRegister(_, _, _, _, _, _, _) => ToldRegister(s, r);
    case ReqDrain(u, n, asAdmin) => ToldDrain(s, r, n);
    case ReqForceDrain(n) => ToldDrain(s, r, n);
    case ReqUndrain(u, n) => ToldDrain(s, r, n);
    case ReqHeartbeat(n, now) => if n in s.nodes { ToldHeartbeat(s, n, now); } else { ToldNothing(s, s); }
    case ReqGrantAdmin(u) => ToldGrant(s, u);
    case ReqViewAudit(_, _) => ToldTokens(s, r);
    case ReqCreateToken(_, _, _, _) => ToldTokens(s, r);
    case _ => ToldUsers(s, r);
  }

  lemma ToldNothing(s: Server, s': Server)
    requires s'.audit == s.audit && View(s') == View(s)
    ensures Told(s, s')
  {}

  /** The books balance: the replayed ledger is the database's view, and every row is legal. */
  ghost predicate Balanced(s: Server) { Replay(s.audit) == View(s) && Lawful(s.audit) }

  /** Each request adds at most one row, which tells exactly what it did, and the books stay balanced. */
  lemma BalancedStep(s: Server, r: Request)
    requires Inv(s) && Balanced(s)
    ensures Balanced(Handle(s, r))
    ensures Handle(s, r).audit == s.audit || exists e :: Handle(s, r).audit == s.audit + [e] && Tells(s, e, Handle(s, r))
  {
    ToldStep(s, r);
    var s' := Handle(s, r);
    if !(s'.audit == s.audit && View(s') == View(s)) {
      var e :| Tells(s, e, s');
      Snoc(s.audit, e);
    }
  }

  lemma {:induction false} BalancedRun(s: Server, rs: seq<Request>)
    requires Inv(s) && Balanced(s)
    ensures Inv(Run(s, rs)) && Balanced(Run(s, rs))
    decreases |rs|
  {
    if rs != [] {
      InvStep(s, rs[0]);
      BalancedStep(s, rs[0]);
      BalancedRun(Handle(s, rs[0]), rs[1..]);
    }
  }

  /** In every reachable state, replaying the audit table from nothing reproduces every job's status, nodes, exit
      code and cancel mark, every user's credits, and every node and claim token; and no row is out of place. */
  lemma {:induction false} AuditIsFaithful(rs: seq<Request>)
    ensures var s := Run(EMPTY_SERVER, rs); Replay(s.audit) == View(s) && Lawful(s.audit)
  {
    BalancedRun(EMPTY_SERVER, rs);
  }
}
