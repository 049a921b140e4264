/** Claims at the grain of SELECT ... FOR UPDATE SKIP LOCKED: check, pick and lock, then commit or roll back.
    Claims of different nodes interleave freely; other requests are atomic and keep away from locked rows and
    from nodes with a claim in flight. */
module RowLocks {
  import opened Types
  import opened JobStatuses
  import opened Ordering
  import opened Handlers
  import opened Invariants
  import opened Ledger
  import opened Accounting
  import Scheduling

  /** A row lock, with the holder's uncommitted start time. */
  datatype Lock = Lock(node: NodeId, now: Time)

  /** db is what other transactions see; a claim in flight has passed its checks or holds one row. */
  datatype Claiming = Claiming(db: Server, checked: set<NodeId>, locks: map<JobId, Lock>)

  datatype Step =
    | Check(node: NodeId)
    | Pick(node: NodeId, now: Time)
    | CommitClaim(job: JobId)
    | Abandon(node: NodeId)
    | RollBack(job: JobId)
    | Other(request: Request)

  ghost predicate Holds(c: Claiming, n: NodeId) { exists j :: j in c.locks && c.locks[j].node == n }

  ghost predicate InFlight(c: Claiming, n: NodeId) { n in c.checked || Holds(c, n) }

  /** Requests that share no row with a claim in flight. */
  ghost predicate Away(c: Claiming, r: Request) {
    && !r.ReqClaim?
    && (r.ReqComplete? || r.ReqCancel? || r.ReqForceKill? || r.ReqPushLogs? ==> r.job !in c.locks)
    && (r.ReqDrain? || r.ReqForceDrain? || r.ReqUndrain? || r.ReqDeleteNode? ==> !InFlight(c, r.node))
  }

  /** A node has one claim in flight at most: its daemon claims from a single loop. */
  ghost predicate Enabled(c: Claiming, step: Step) {
    match step
    case Check(n) => n in c.db.nodes && !InFlight(c, n)
    case Pick(n, now) => n in c.checked && n in c.db.nodes
    case CommitClaim(j) => j in c.locks && j in c.db.jobs
    case Abandon(n) => n in c.checked
    case RollBack(j) => j in c.locks
    case Other(r) => Away(c, r)
  }

  /** Rows another transaction holds are skipped. */
  function Unlocked(c: Claiming, n: NodeId): set<JobId>
    requires n in c.db.nodes
  {
    Candidates(c.db.jobs, n, c.db.nodes[n].gpus) - c.locks.Keys
  }

  ghost function Next(c: Claiming, step: Step): Claiming
    requires Enabled(c, step)
  {
    match step
    case Check(n) =>
      if c.db.nodes[n].status == Draining || Busy(c.db, n) then c else c.(checked := c.checked + {n})
    case Pick(n, now) =>
      var free := Unlocked(c, n);
      if free == {} then c.(checked := c.checked - {n})
      else c.(checked := c.checked - {n}, locks := c.locks[Oldest(c.db.jobs, free) := Lock(n, now)])
    case CommitClaim(j) =>
      c.(db := Assign(c.db, c.locks[j].node, j, c.locks[j].now), locks := c.locks - {j})
    case Abandon(n) => c.(checked := c.checked - {n})
    case RollBack(j) => c.(locks := c.locks - {j})
    case Other(r) => c.(db := Handle(c.db, r))
  }

  // ---------------------------------------------------------------- safety, with rollbacks

  ghost predicate Idle(c: Claiming, n: NodeId) {
    n in c.db.nodes && c.db.nodes[n].status == Online && !Busy(c.db, n)
  }

  ghost predicate LocksOk(c: Claiming) {
    && (forall n :: n in c.checked ==> Idle(c, n) && !Holds(c, n))
    && (forall j :: j in c.locks ==> Winnable(c.db, c.locks[j].node, j))
    && (forall j, k :: j in c.locks && k in c.locks && c.locks[j].node == c.locks[k].node ==> j == k)
  }

  ghost predicate Safe(c: Claiming) { Inv(c.db) && Balanced(c.db) && LocksOk(c) }

  /** A request that keeps away leaves the row of a node with a claim in flight, but for its heartbeat stamp. */
  lemma AwayKeepsNode(c: Claiming, r: Request, n: NodeId)
    requires Away(c, r) && InFlight(c, n) && n in c.db.nodes
    ensures n in Handle(c.db, r).nodes
    ensures Handle(c.db, r).nodes[n].status == c.db.nodes[n].status && Handle(c.db, r).nodes[n].gpus == c.db.nodes[n].gpus
  {
    if !TouchesNodes(r) { OtherRequestsLeaveNodes(c.db, r); }
  }

  lemma AwayKeepsWinnable(c: Claiming, r: Request, n: NodeId)
    requires Inv(c.db) && Away(c, r) && InFlight(c, n) && Idle(c, n)
    ensures Idle(c.(db := Handle(c.db, r)), n)
    ensures Handle(c.db, r).nodes[n].gpus == c.db.nodes[n].gpus
  {
    AwayKeepsNode(c, r, n);
    hide Handle, Inv;
    var s' := Handle(c.db, r);
    if Busy(s', n) {
      var j :| j in s'.jobs && RunsOn(s'.jobs[j], n);
      StaysIdle(c.db, r, n, j);
    }
  }

  lemma StaysIdle(s: Server, r: Request, n: NodeId, j: JobId)
    requires Inv(s) && !r.ReqClaim? && j in Handle(s, r).jobs && RunsOn(Handle(s, r).jobs[j], n)
    ensures j in s.jobs && RunsOn(s.jobs[j], n)
  {
    hide Handle;
    if j !in s.jobs {
      Scheduling.NewRowsAreSubmitted(s, r, j);
    } else {
      RowStep(s, r, j);
      assert RowOk(s.users, s.nodes, s.jobs[j]);
      if s.jobs[j].assignedNode != Some(n) { Scheduling.AssignedByClaim(s, r, j); }
    }
  }

  lemma AwayKeepsRow(c: Claiming, r: Request, j: JobId)
    requires Inv(c.db) && Away(c, r) && j in c.locks && Winnable(c.db, c.locks[j].node, j)
    ensures j in Handle(c.db, r).jobs && Handle(c.db, r).jobs[j] == c.db.jobs[j]
  {
    if !TouchesJobs(r) {
      OtherRequestsLeaveJobs(c.db, r);
    } else if r.ReqDeleteNode? {
      DeletionKeepsRow(c, r, j);
    }
  }

  lemma DeletionKeepsRow(c: Claiming, r: Request, j: JobId)
    requires Inv(c.db) && Away(c, r) && r.ReqDeleteNode? && j in c.locks && Winnable(c.db, c.locks[j].node, j)
    ensures j in Handle(c.db, r).jobs && Handle(c.db, r).jobs[j] == c.db.jobs[j]
  {
    assert Holds(c, c.locks[j].node);
    assert RowOk(c.db.users, c.db.nodes, c.db.jobs[j]);
  }

  lemma SafeOther(c: Claiming, r: Request)
    requires Safe(c) && Away(c, r)
    ensures Safe(c.(db := Handle(c.db, r)))
  {
    InvStep(c.db, r);
    BalancedStep(c.db, r);
    var c' := c.(db := Handle(c.db, r));
    forall n | n in c.checked ensures Idle(c', n) && !Holds(c', n) { AwayKeepsWinnable(c, r, n); }
    forall j | j in c.locks ensures Winnable(c'.db, c.locks[j].node, j) {
      assert Holds(c, c.locks[j].node);
      AwayKeepsWinnable(c, r, c.locks[j].node);
      AwayKeepsRow(c, r, j);
    }
  }

  lemma CommitKeepsIdle(c: Claiming, j: JobId, m: NodeId)
    requires LocksOk(c) && j in c.locks && m != c.locks[j].node && Idle(c, m)
    ensures Idle(Next(c, CommitClaim(j)), m)
  {}

  lemma CommitKeepsLocks(c: Claiming, j: JobId)
    requires LocksOk(c) && j in c.locks
    ensures LocksOk(Next(c, CommitClaim(j)))
  {
    var c' := Next(c, CommitClaim(j));
    assert Holds(c, c.locks[j].node);
    forall m | m in c'.checked ensures Idle(c', m) && !Holds(c', m) {
      CommitKeepsIdle(c, j, m);
      assert !Holds(c, m);
    }
    forall k | k in c'.locks ensures Winnable(c'.db, c'.locks[k].node, k) {
      assert Winnable(c.db, c.locks[k].node, k);
      CommitKeepsIdle(c, j, c.locks[k].node);
    }
  }

  lemma SafeCommit(c: Claiming, j: JobId)
    requires Safe(c) && j in c.locks
    ensures Safe(Next(c, CommitClaim(j)))
  {
    var n, now := c.locks[j].node, c.locks[j].now;
    CommitKeepsLocks(c, j);
    InvAssign(c.db, n, j, now);
    ToldAssign(c.db, n, j, now);
    Snoc(c.db.audit, JobAssigned(c.db.jobs[j].user, j, n, c.db.jobs[j].gpus));
  }

  lemma SafeStep(c: Claiming, step: Step)
    requires Safe(c) && Enabled(c, step)
    ensures Safe(Next(c, step))
  {
    match step
    case Check(n) =>
    case Pick(n, now) =>
      var free := Unlocked(c, n);
      if free != {} {
        var j := Oldest(c.db.jobs, free);
        assert Winnable(c.db, n, j) && j !in c.locks;
        forall m | m in c.checked - {n} ensures !Holds(Next(c, step), m) {
          assert !Holds(c, m);
        }
      }
    case CommitClaim(j) => SafeCommit(c, j);
    case Abandon(n) =>
    case RollBack(j) =>
    case Other(r) => SafeOther(c, r);
  }

  ghost predicate EnabledRun(c: Claiming, steps: seq<Step>)
    decreases |steps|
  {
    steps == [] || (Enabled(c, steps[0]) && EnabledRun(Next(c, steps[0]), steps[1..]))
  }

  ghost function RunSteps(c: Claiming, steps: seq<Step>): Claiming
    requires EnabledRun(c, steps)
    decreases |steps|
  {
    if steps == [] then c else RunSteps(Next(c, steps[0]), steps[1..])
  }

  lemma {:induction false} SafeRun(c: Claiming, steps: seq<Step>)
    requires Safe(c) && EnabledRun(c, steps)
    ensures Safe(RunSteps(c, steps))
    decreases |steps|
  {
    if steps != [] {
      SafeStep(c, steps[0]);
      SafeRun(Next(c, steps[0]), steps[1..]);
    }
  }

  ghost const START := Claiming(EMPTY_SERVER, {}, map[])

  /** In every interleaving, rollbacks included: the database invariant holds, so a node runs at most one job; no job
      is won by two claims; and the row a claim holds is queued, fits its node, and its node is idle. */
  lemma {:induction false} InterleavedClaimsAreSafe(steps: seq<Step>, j: JobId)
    requires EnabledRun(START, steps)
    ensures var c := RunSteps(START, steps);
      && Inv(c.db) && Lawful(c.db.audit)
      && Assignments(c.db.audit, j) <= 1
      && (j in c.locks ==> Winnable(c.db, c.locks[j].node, j) && Assignments(c.db.audit, j) == 0)
  {
    SafeRun(START, steps);
    var c := RunSteps(START, steps);
    CountsFollowBooks(c.db.audit, j);
    if j in c.locks {
      assert RowOk(c.db.users, c.db.nodes, c.db.jobs[j]);
      assert View(c.db).jobs[j] == JobView(c.db.jobs[j]);
    }
  }

  // ---------------------------------------------------------------- what each step of a claim does

  /** No claim is checked, and no row locked. */
  predicate NoneInFlight(c: Claiming) { c.checked == {} && c.locks == map[] }

  /** A check is possible exactly for an existing node with no claim of its own in flight, and admits it exactly if the row
      says online and no job row is running on it, whatever other claims hold. */
  lemma CheckAdmitsIff(c: Claiming, n: NodeId)
    ensures Enabled(c, Check(n)) <==>
      n in c.db.nodes && n !in c.checked && forall j :: j in c.locks ==> c.locks[j].node != n
    ensures Enabled(c, Check(n)) ==>
      var c' := Next(c, Check(n));
      && c'.db == c.db && c'.locks == c.locks && c.checked <= c'.checked <= c.checked + {n}
      && (n in c'.checked <==>
        && c.db.nodes[n].status == Online
        && forall j :: j in c.db.jobs ==> !(c.db.jobs[j].status == Running && c.db.jobs[j].assignedNode == Some(n)))
  {
    assert Holds(c, n) <==> exists j :: j in c.locks && c.locks[j].node == n;
    assert Busy(c.db, n) <==> exists j :: j in c.db.jobs && c.db.jobs[j].status == Running && c.db.jobs[j].assignedNode == Some(n);
  }

  /** A checked claim can pick at any time: it locks the oldest row that could run on the node and that nobody holds, and
      gives up exactly if there is none. */
  lemma PickLocksOldestFree(c: Claiming, n: NodeId, now: Time)
    requires n in c.checked && n in c.db.nodes
    ensures Enabled(c, Pick(n, now))
    ensures var c' := Next(c, Pick(n, now));
      && c'.db == c.db && c'.checked == c.checked - {n}
      && (c'.locks == c.locks <==> forall j :: j in c.db.jobs && j !in c.locks ==> !CouldRun(c.db.jobs[j], n, c.db.nodes[n].gpus))
      && (c'.locks != c.locks ==>
            exists j :: OldestFree(c, n, j) && c'.locks == c.locks[j := Lock(n, now)])
  {
    var free := Unlocked(c, n);
    assert forall j :: j in free <==> j in c.db.jobs && j !in c.locks && CouldRun(c.db.jobs[j], n, c.db.nodes[n].gpus);
    if free != {} {
      var j := Oldest(c.db.jobs, free);
      assert OldestFree(c, n, j);
      assert j in Next(c, Pick(n, now)).locks;
    }
  }

  ghost predicate OldestFree(c: Claiming, n: NodeId, j: JobId)
    requires n in c.db.nodes
  {
    && j in c.db.jobs && j !in c.locks && CouldRun(c.db.jobs[j], n, c.db.nodes[n].gpus)
    && forall k :: k in c.db.jobs && k !in c.locks && k != j && CouldRun(c.db.jobs[k], n, c.db.nodes[n].gpus) ==>
         var a, b := c.db.jobs[j].createdAt, c.db.jobs[k].createdAt; a < b || (a == b && j < k)
  }

  /** A held lock can be committed or rolled back at any time, a checked claim abandoned; giving up changes no table, and the
      row can be picked again. */
  lemma HeldClaimEnds(c: Claiming, j: JobId)
    requires LocksOk(c) && j in c.locks
    ensures Enabled(c, CommitClaim(j)) && Enabled(c, RollBack(j))
    ensures var c' := Next(c, RollBack(j)); c'.db == c.db && c'.checked == c.checked && c'.locks == c.locks - {j}
    ensures forall n :: n in c.db.nodes && CouldRun(c.db.jobs[j], n, c.db.nodes[n].gpus) ==> j in Unlocked(Next(c, RollBack(j)), n)
    ensures var c' := Next(c, CommitClaim(j));
      && c'.checked == c.checked && c'.locks == c.locks - {j} && c'.db.jobs.Keys == c.db.jobs.Keys
      && c'.db.jobs[j].status == Running && c'.db.jobs[j].assignedNode == Some(c.locks[j].node)
      && c'.db.jobs[j].startedAt == Some(c.locks[j].now)
      && forall k :: k in c.db.jobs && k != j ==> c'.db.jobs[k] == c.db.jobs[k]
  {}

  lemma AbandonChangesNothing(c: Claiming, n: NodeId)
    requires n in c.checked
    ensures Enabled(c, Abandon(n)) && Next(c, Abandon(n)) == c.(checked := c.checked - {n})
  {}

  /** Any other request can be made while claims are in flight, unless it names a locked row or would switch or delete a node
      whose own claim is in flight; and it does what it does alone. */
  lemma OtherRunsIff(c: Claiming, r: Request)
    ensures Enabled(c, Other(r)) <==>
      && !r.ReqClaim?
      && (r.ReqComplete? || r.ReqCancel? || r.ReqForceKill? || r.ReqPushLogs? ==> r.job !in c.locks)
      && (r.ReqDrain? || r.ReqForceDrain? || r.ReqUndrain? || r.ReqDeleteNode? ==>
            r.node !in c.checked && forall j :: j in c.locks ==> c.locks[j].node != r.node)
    ensures Enabled(c, Other(r)) ==> Next(c, Other(r)) == c.(db := Handle(c.db, r))
  {}

  /** From a state with no claim in flight, a claim of an existing node can run through, and leaves what the atomic claim
      leaves. */
  lemma ClaimRunsThrough(c: Claiming, n: NodeId, now: Time)
    requires NoneInFlight(c) && Safe(c) && n in c.db.nodes
    ensures Enabled(c, Check(n))
    ensures var c1 := Next(c, Check(n));
      && (n !in c1.checked ==> c1 == c && c.db == Handle(c.db, ReqClaim(n, now)))
      && (n in c1.checked ==>
        && Enabled(c1, Pick(n, now))
        && var c2 := Next(c1, Pick(n, now));
           && (c2.locks == map[] ==> NoneInFlight(c2) && c2.db == Handle(c.db, ReqClaim(n, now)))
           && (forall j :: j in c2.locks ==>
             && Enabled(c2, CommitClaim(j))
             && NoneInFlight(Next(c2, CommitClaim(j)))
             && Next(c2, CommitClaim(j)).db == Handle(c.db, ReqClaim(n, now))))
  {
    CheckAdmitsIff(c, n);
    var c1 := Next(c, Check(n));
    if n in c1.checked {
      assert Unlocked(c1, n) == Candidates(c.db.jobs, n, c.db.nodes[n].gpus);
      PickLocksOldestFree(c1, n, now);
      var c2 := Next(c1, Pick(n, now));
      SafeStep(c, Check(n));
      SafeStep(c1, Pick(n, now));
      forall j | j in c2.locks ensures Enabled(c2, CommitClaim(j)) { assert Winnable(c2.db, c2.locks[j].node, j); }
    }
  }

  // ---------------------------------------------------------------- serialization, without rollbacks

  /** The job table as if every held claim had committed when it locked its row. */
  function SettledJobs(c: Claiming): map<JobId, Job> {
    map j | j in c.db.jobs :: if j in c.locks then Started(c.db.jobs[j], c.locks[j].node, c.locks[j].now) else c.db.jobs[j]
  }

  /** The audit row a held claim has still to commit. */
  predicate Pending(c: Claiming, e: Event) {
    && e.JobAssigned? && e.job in c.locks && e.job in c.db.jobs
    && e == JobAssigned(c.db.jobs[e.job].user, e.job, c.locks[e.job].node, c.db.jobs[e.job].gpus)
  }

  /** The serial server s and the interleaved one agree, up to the claims that are still held. */
  ghost predicate Agrees(c: Claiming, s: Server) {
    && s.users == c.db.users && s.nodes == c.db.nodes && s.tokens == c.db.tokens && s.logs == c.db.logs
    && s.jobs == SettledJobs(c)
    && forall e :: multiset(s.audit)[e] == multiset(c.db.audit)[e] + One(Pending(c, e))
  }

  /** The serial counterpart of a step: a claim happens where it picks its row. */
  function SerialStep(step: Step): seq<Request> {
    match step
    case Pick(n, now) => [ReqClaim(n, now)]
    case Other(r) => [r]
    case _ => []
  }

  function Serial(steps: seq<Step>): seq<Request>
    decreases |steps|
  {
    if steps == [] then [] else SerialStep(steps[0]) + Serial(steps[1..])
  }

  lemma OldestAgrees(a: map<JobId, Job>, b: map<JobId, Job>, candidates: set<JobId>)
    requires candidates <= a.Keys && candidates <= b.Keys && candidates != {}
    requires forall j :: j in candidates ==> a[j].createdAt == b[j].createdAt
    ensures Oldest(a, candidates) == Oldest(b, candidates)
  {}

  lemma BagSnoc(a: seq<Event>, e: Event, x: Event)
    ensures multiset(a + [e])[x] == multiset(a)[x] + One(x == e)
  {}

  lemma SettledIdle(c: Claiming, s: Server, n: NodeId)
    requires LocksOk(c) && Agrees(c, s) && n in c.checked
    ensures !Busy(s, n)
  {}

  /** The serial claim sees as candidates exactly the unlocked ones. */
  lemma SameCandidates(c: Claiming, s: Server, n: NodeId)
    requires LocksOk(c) && Agrees(c, s) && n in c.checked
    ensures Candidates(s.jobs, n, s.nodes[n].gpus) == Unlocked(c, n)
  {}

  /** The atomic claim on the serial server takes the row that the interleaved one locks. */
  lemma SerialClaim(c: Claiming, s: Server, n: NodeId, now: Time)
    requires LocksOk(c) && Agrees(c, s) && n in c.checked
    ensures Handle(s, ReqClaim(n, now)) ==
      if Unlocked(c, n) == {} then s else Assign(s, n, Oldest(c.db.jobs, Unlocked(c, n)), now)
  {
    SettledIdle(c, s, n);
    SameCandidates(c, s, n);
    assert s.nodes[n].status == Online by { assert Idle(c, n); }
    if Unlocked(c, n) != {} { OldestAgrees(c.db.jobs, s.jobs, Unlocked(c, n)); }
  }

  lemma LockedAgrees(c: Claiming, s: Server, n: NodeId, j: JobId, now: Time)
    requires Agrees(c, s) && j in c.db.jobs && j !in c.locks
    ensures Agrees(c.(checked := c.checked - {n}, locks := c.locks[j := Lock(n, now)]), Assign(s, n, j, now))
  {}

  /** Locking a row is the moment at which the atomic claim happens. */
  lemma PickIsClaim(c: Claiming, s: Server, n: NodeId, now: Time)
    requires LocksOk(c) && Agrees(c, s) && n in c.checked
    ensures Agrees(Next(c, Pick(n, now)), Handle(s, ReqClaim(n, now)))
  {
    SerialClaim(c, s, n, now);
    if Unlocked(c, n) != {} { LockedAgrees(c, s, n, Oldest(c.db.jobs, Unlocked(c, n)), now); }
  }

  /** Committing changes nothing that the serial run has not done already. */
  lemma CommitIsSilent(c: Claiming, s: Server, j: JobId)
    requires LocksOk(c) && Agrees(c, s) && j in c.locks
    ensures Agrees(Next(c, CommitClaim(j)), s)
  {
    var c' := Next(c, CommitClaim(j));
    var e := JobAssigned(c.db.jobs[j].user, j, c.locks[j].node, c.db.jobs[j].gpus);
    assert s.jobs == SettledJobs(c');
    forall x ensures multiset(s.audit)[x] == multiset(c'.db.audit)[x] + One(Pending(c', x)) {
      BagSnoc(c.db.audit, e, x);
      assert Pending(c, x) <==> Pending(c', x) || x == e;
    }
  }

  /** Both audits stay, or both gain the same row. */
  ghost predicate SameNews(a: Server, a': Server, b: Server, b': Server) {
    (a'.audit == a.audit && b'.audit == b.audit) || exists e :: a'.audit == a.audit + [e] && b'.audit == b.audit + [e]
  }

  ghost predicate SameTables(c: Claiming, s: Server) {
    && s.users == c.db.users && s.nodes == c.db.nodes && s.tokens == c.db.tokens && s.logs == c.db.logs
    && s.jobs == SettledJobs(c)
  }

  lemma NewsAgree(c: Claiming, s: Server, c': Claiming, s': Server)
    requires Agrees(c, s) && c'.locks == c.locks && SameTables(c', s') && SameNews(c.db, c'.db, s, s')
    requires forall j :: j in c.locks && j in c'.db.jobs ==> j in c.db.jobs && c'.db.jobs[j] == c.db.jobs[j]
    requires forall j :: j in c.locks && j in c.db.jobs ==> j in c'.db.jobs
    ensures Agrees(c', s')
  {}

  /** A request that keeps away does the same on both sides, and writes the same audit row. */
  ghost predicate Commutes(c: Claiming, s: Server, r: Request) {
    && SameTables(c.(db := Handle(c.db, r)), Handle(s, r))
    && SameNews(c.db, Handle(c.db, r), s, Handle(s, r))
  }

  predicate AdminOnly(r: Request) { !TouchesJobs(r) && !r.ReqPushLogs? }

  ghost predicate SameDirectory(a: Server, b: Server) { a.users == b.users && a.nodes == b.nodes && a.tokens == b.tokens }

  lemma DrainDirectory(a: Server, b: Server, u: UserId, n: NodeId, asAdmin: bool)
    requires SameDirectory(a, b)
    ensures SameDirectory(Commit(a, Drain(a, u, n, asAdmin)), Commit(b, Drain(b, u, n, asAdmin)))
  {}

  lemma ForceDrainDirectory(a: Server, b: Server, n: NodeId)
    requires SameDirectory(a, b)
    ensures SameDirectory(Commit(a, ForceDrain(a, n)), Commit(b, ForceDrain(b, n)))
  {}

  lemma UndrainDirectory(a: Server, b: Server, u: UserId, n: NodeId)
    requires SameDirectory(a, b)
    ensures SameDirectory(Commit(a, Undrain(a, u, n)), Commit(b, Undrain(b, u, n)))
  {}

  /** Requests about users, nodes and tokens read those tables only. */
  lemma AdminDirectory(a: Server, b: Server, r: Request)
    requires AdminOnly(r) && SameDirectory(a, b)
    ensures SameDirectory(Handle(a, r), Handle(b, r))
  {
    if r.ReqDrain? {
      DrainDirectory(a, b, r.user, r.node, r.asAdmin);
    } else if r.ReqForceDrain? {
      ForceDrainDirectory(a, b, r.node);
    } else if r.ReqUndrain? {
      UndrainDirectory(a, b, r.user, r.node);
    }
  }

  lemma DrainNews(a: Server, b: Server, r: Request)
    requires r.ReqDrain? && SameDirectory(a, b)
    ensures SameNews(a, Handle(a, r), b, Handle(b, r))
  {}

  lemma ForceDrainNews(a: Server, b: Server, r: Request)
    requires r.ReqForceDrain? && SameDirectory(a, b)
    ensures SameNews(a, Handle(a, r), b, Handle(b, r))
  {}

  lemma UndrainNews(a: Server, b: Server, r: Request)
    requires r.ReqUndrain? && SameDirectory(a, b)
    ensures SameNews(a, Handle(a, r), b, Handle(b, r))
  {}

  lemma AdminNews(a: Server, b: Server, r: Request)
    requires AdminOnly(r) && SameDirectory(a, b)
    ensures SameNews(a, Handle(a, r), b, Handle(b, r))
  {
    if r.ReqDrain? {
      DrainNews(a, b, r);
    } else if r.ReqForceDrain? {
      ForceDrainNews(a, b, r);
    } else if r.ReqUndrain? {
      UndrainNews(a, b, r);
    }
  }

  lemma CommutesAdmin(c: Claiming, s: Server, r: Request)
    requires SameTables(c, s) && AdminOnly(r)
    ensures Commutes(c, s, r)
  {
    hide Handle;
    AdminDirectory(c.db, s, r);
    OtherRequestsLeaveJobs(c.db, r);
    OtherRequestsLeaveJobs(s, r);
    OtherRequestsLeaveLogs(c.db, r);
    OtherRequestsLeaveLogs(s, r);
    AdminNews(c.db, s, r);
  }

  lemma CommutesLogs(c: Claiming, s: Server, r: Request)
    requires SameTables(c, s) && Away(c, r) && r.ReqPushLogs?
    ensures Commutes(c, s, r)
  {}

  lemma CommutesSubmit(c: Claiming, s: Server, r: Request)
    requires SameTables(c, s) && r.ReqSubmit? && c.locks.Keys <= c.db.jobs.Keys
    ensures Commutes(c, s, r)
  {}

  lemma CommutesComplete(c: Claiming, s: Server, r: Request)
    requires SameTables(c, s) && Away(c, r) && r.ReqComplete?
    ensures Commutes(c, s, r)
  {}

  /** Replacing the same unlocked row on both sides. */
  lemma SettledUpdate(c: Claiming, j: JobId, job: Job)
    requires j !in c.locks
    ensures SettledJobs(c.(db := c.db.(jobs := c.db.jobs[j := job]))) == SettledJobs(c)[j := job]
  {}

  lemma CommutesCancel(c: Claiming, s: Server, u: UserId, j: JobId, now: Time)
    requires SameTables(c, s) && Away(c, ReqCancel(u, j, now))
    ensures Commutes(c, s, ReqCancel(u, j, now))
  {
    assert j in s.jobs <==> j in c.db.jobs;
    if j in c.db.jobs {
      assert s.jobs[j] == c.db.jobs[j];
      SettledUpdate(c, j, CancelRow(s.jobs[j], now));
    }
  }

  lemma CommutesForceKill(c: Claiming, s: Server, j: JobId, now: Time)
    requires SameTables(c, s) && Away(c, ReqForceKill(j, now))
    ensures Commutes(c, s, ReqForceKill(j, now))
  {
    assert j in s.jobs <==> j in c.db.jobs;
    if j in c.db.jobs {
      assert s.jobs[j] == c.db.jobs[j];
      SettledUpdate(c, j, CancelRow(s.jobs[j], now));
    }
  }

  lemma SameBusy(c: Claiming, s: Server, n: NodeId)
    requires LocksOk(c) && SameTables(c, s) && !Holds(c, n)
    ensures Busy(s, n) <==> Busy(c.db, n)
  {
    forall k | k in s.jobs ensures RunsOn(s.jobs[k], n) <==> k !in c.locks && RunsOn(c.db.jobs[k], n) {}
    if Busy(c.db, n) {
      var k :| k in c.db.jobs && RunsOn(c.db.jobs[k], n);
      assert k in s.jobs && k !in c.locks;
    }
  }

  lemma SettledUnlink(c: Claiming, s: Server, n: NodeId)
    requires LocksOk(c) && SameTables(c, s) && !Holds(c, n) && n in c.db.nodes
    ensures SettledJobs(c.(db := RemoveNode(c.db, n))) == RemoveNode(s, n).jobs
  {}

  lemma CommutesDelete(c: Claiming, s: Server, u: UserId, n: NodeId, asAdmin: bool)
    requires LocksOk(c) && SameTables(c, s) && Away(c, ReqDeleteNode(u, n, asAdmin))
    ensures Commutes(c, s, ReqDeleteNode(u, n, asAdmin))
  {
    SameBusy(c, s, n);
    if n in c.db.nodes { SettledUnlink(c, s, n); }
  }

  lemma OtherCommutes(c: Claiming, s: Server, r: Request)
    requires LocksOk(c) && SameTables(c, s) && Away(c, r)
    ensures Commutes(c, s, r)
  {
    hide Commutes, SameTables;
    match r
    case ReqPushLogs(_, _, _) => CommutesLogs(c, s, r);
    case ReqSubmit(_, _, _, _, _, _) => CommutesSubmit(c, s, r);
    case ReqComplete(_, _, _, _, _) => CommutesComplete(c, s, r);
    case ReqCancel(u, j, now) => CommutesCancel(c, s, u, j, now);
    case ReqForceKill(j, now) => CommutesForceKill(c, s, j, now);
    case ReqDeleteNode(u, n, asAdmin) => CommutesDelete(c, s, u, n, asAdmin);
    case _ => CommutesAdmin(c, s, r);
  }

  lemma OtherAgrees(c: Claiming, s: Server, r: Request)
    requires Safe(c) && Agrees(c, s) && Away(c, r)
    ensures Agrees(c.(db := Handle(c.db, r)), Handle(s, r))
  {
    OtherCommutes(c, s, r);
    forall j | j in c.locks { AwayKeepsRow(c, r, j); }
    NewsAgree(c, s, c.(db := Handle(c.db, r)), Handle(s, r));
  }

  predicate NoRollbacks(steps: seq<Step>) {
    forall i :: 0 <= i < |steps| ==> !steps[i].Abandon? && !steps[i].RollBack?
  }

  lemma {:induction false} RunConcat(s: Server, a: seq<Request>, b: seq<Request>)
    ensures Run(s, a + b) == Run(Run(s, a), b)
    decreases |a|
  {
    if a == [] {
      assert a + b == b;
    } else {
      assert (a + b)[1..] == a[1..] + b;
      RunConcat(Handle(s, a[0]), a[1..], b);
    }
  }

  lemma RunOne(s: Server, r: Request)
    ensures Run(s, [r]) == Handle(s, r)
  {}

  lemma AgreesStep(c: Claiming, s: Server, step: Step)
    requires Safe(c) && Agrees(c, s) && Enabled(c, step) && !step.Abandon? && !step.RollBack?
    ensures Agrees(Next(c, step), Run(s, SerialStep(step)))
  {
    match step
    case Check(n) =>
    case Pick(n, now) =>
      PickIsClaim(c, s, n, now);
      RunOne(s, ReqClaim(n, now));
    case CommitClaim(j) => CommitIsSilent(c, s, j);
    case Other(r) =>
      OtherAgrees(c, s, r);
      RunOne(s, r);
  }

  lemma {:induction false} AgreesAlongRun(c: Claiming, s: Server, steps: seq<Step>)
    requires Safe(c) && Agrees(c, s) && EnabledRun(c, steps) && NoRollbacks(steps)
    ensures Agrees(RunSteps(c, steps), Run(s, Serial(steps)))
    decreases |steps|
  {
    if steps != [] {
      hide Safe, Agrees, Enabled;
      SafeStep(c, steps[0]);
      AgreesStep(c, s, steps[0]);
      AgreesAlongRun(Next(c, steps[0]), Run(s, SerialStep(steps[0])), steps[1..]);
      RunConcat(s, SerialStep(steps[0]), Serial(steps[1..]));
    }
  }

  /** Without rollbacks, any interleaving of claims and other requests, once no claim is in flight, has left exactly the
      database that the same requests leave one at a time, each claim placed where it locked its row: every table is
      equal, and the audits hold the same rows. */
  lemma {:induction false} InterleavingIsSerial(steps: seq<Step>)
    requires EnabledRun(START, steps) && NoRollbacks(steps)
    requires RunSteps(START, steps).locks == map[]
    ensures var c, s := RunSteps(START, steps), Run(EMPTY_SERVER, Serial(steps));
      && c.db.jobs == s.jobs && c.db.users == s.users && c.db.nodes == s.nodes && c.db.tokens == s.tokens && c.db.logs == s.logs
      && multiset(c.db.audit) == multiset(s.audit)
  {
    assert Agrees(START, EMPTY_SERVER) by {
      assert SettledJobs(START) == map[];
    }
    AgreesAlongRun(START, EMPTY_SERVER, steps);
    var c, s := RunSteps(START, steps), Run(EMPTY_SERVER, Serial(steps));
    assert SettledJobs(c) == c.db.jobs;
    forall e ensures multiset(c.db.audit)[e] == multiset(s.audit)[e] {
      assert !Pending(c, e);
    }
  }
}
