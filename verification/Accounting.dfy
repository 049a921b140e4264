/** Credits, bills and job counts: what a lawful ledger implies, and hence what holds in every reachable state. */
module Accounting {
  import opened Types
  import opened JobStatuses
  import opened Handlers
  import opened Invariants
  import opened Ledger
  import opened Billing

  // ---------------------------------------------------------------- how often

  function One(b: bool): nat { if b then 1 else 0 }

  /** How many rows of the audit assign job j to a node. */
  function Assignments(a: seq<Event>, j: JobId): nat
    decreases |a|
  {
    if a == [] then 0
    else Assignments(a[..|a| - 1], j) + One(a[|a| - 1].JobAssigned? && a[|a| - 1].job == j)
  }

  /** How many rows of the audit end, and bill, a run of job j. */
  function Endings(a: seq<Event>, j: JobId): nat
    decreases |a|
  {
    if a == [] then 0
    else Endings(a[..|a| - 1], j) + One(a[|a| - 1].JobEnded? && a[|a| - 1].job == j)
  }

  ghost predicate WasAssigned(b: Books, j: JobId) { j in b.jobs && (b.jobs[j].status == Running || b.jobs[j].exitCode.Some?) }

  ghost predicate WasEnded(b: Books, j: JobId) { j in b.jobs && b.jobs[j].exitCode.Some? }

  /** A live job has no exit code yet. */
  ghost predicate LiveHasNoExit(b: Books) {
    forall j :: j in b.jobs && b.jobs[j].exitCode.Some? ==> Terminal(b.jobs[j].status)
  }

  /** Only its own events change what the books say of job j's run. */
  lemma EntryOfPost(b: Books, e: Event, j: JobId)
    requires Legal(b, e) && LiveHasNoExit(b)
    ensures WasAssigned(Post(b, e), j) <==> WasAssigned(b, j) || (e.JobAssigned? && e.job == j)
    ensures WasEnded(Post(b, e), j) <==> WasEnded(b, j) || (e.JobEnded? && e.job == j)
    ensures e.JobAssigned? && e.job == j ==> !WasAssigned(b, j)
    ensures e.JobEnded? && e.job == j ==> !WasEnded(b, j)
    ensures j in Post(b, e).jobs && Post(b, e).jobs[j].exitCode.Some? ==> Terminal(Post(b, e).jobs[j].status)
  {}

  lemma {:induction false} CountsFollowBooks(a: seq<Event>, j: JobId)
    requires Lawful(a)
    ensures LiveHasNoExit(Replay(a))
    ensures Assignments(a, j) == One(WasAssigned(Replay(a), j))
    ensures Endings(a, j) == One(WasEnded(Replay(a), j))
    decreases |a|
  {
    if a != [] {
      var b, e := Replay(a[..|a| - 1]), a[|a| - 1];
      CountsFollowBooks(a[..|a| - 1], j);
      hide Legal, Post;
      forall k { EntryOfPost(b, e, k); }
    }
  }

  /** Over any run a job is assigned at most once and billed at most once; it is billed exactly when its run was
      reported complete, which is when the row has both a start and an exit code. */
  lemma {:induction false} AssignedOnceBilledOnce(rs: seq<Request>, j: JobId)
    ensures var s := Run(EMPTY_SERVER, rs);
      && Assignments(s.audit, j) == One(j in s.jobs && s.jobs[j].startedAt.Some?)
      && Endings(s.audit, j) == One(j in s.jobs && s.jobs[j].startedAt.Some? && Terminal(s.jobs[j].status))
  {
    var s := Run(EMPTY_SERVER, rs);
    ReachableInv(rs);
    AuditIsFaithful(rs);
    CountsFollowBooks(s.audit, j);
    if j in s.jobs {
      assert RowOk(s.users, s.nodes, s.jobs[j]);
      assert View(s).jobs[j] == JobView(s.jobs[j]);
    }
  }

  // ---------------------------------------------------------------- the rank argument

  function Count(a: seq<Event>, what: Event -> bool): nat
    decreases |a|
  {
    if a == [] then 0 else Count(a[..|a| - 1], what) + One(what(a[|a| - 1]))
  }

  function Submissions(a: seq<Event>): nat { Count(a, (e: Event) => e.JobSubmitted?) }

  function Claims(a: seq<Event>): nat { Count(a, (e: Event) => e.JobAssigned?) }

  function Completions(a: seq<Event>): nat { Count(a, (e: Event) => e.JobEnded?) }

  predicate DropsQueued(e: Event) { (e.JobCancelled? || e.JobForceKilled?) && e.phase == Queued }

  function QueuedCancels(a: seq<Event>): nat { Count(a, DropsQueued) }

  function WithStatus(b: Books, status: JobStatus): set<JobId> { set j | j in b.jobs && b.jobs[j].status == status }

  ghost predicate SameStatuses(b: Books, c: Books) {
    b.jobs.Keys == c.jobs.Keys && forall j :: j in b.jobs ==> b.jobs[j].status == c.jobs[j].status
  }

  lemma CardWithout(s: set<JobId>, j: JobId)
    ensures |s - {j}| == |s| - One(j in s)
  {}

  /** Replacing one entry moves one job between the status sets. */
  lemma EntryMoves(b: Books, c: Books, j: JobId, entry: JobEntry, status: JobStatus)
    requires c.jobs == b.jobs[j := entry]
    ensures |WithStatus(c, status)| ==
      |WithStatus(b, status)| + One(entry.status == status) - One(j in b.jobs && b.jobs[j].status == status)
  {
    forall k | k != j ensures k in WithStatus(b, status) <==> k in WithStatus(c, status) {}
    assert WithStatus(b, status) - {j} == WithStatus(c, status) - {j};
    CardWithout(WithStatus(b, status), j);
    CardWithout(WithStatus(c, status), j);
  }

  /** The steps that the live jobs can still take. */
  function StepsLeft(b: Books): nat { 2 * |WithStatus(b, Queued)| + |WithStatus(b, Running)| }

  lemma RankOfPost(b: Books, e: Event)
    requires Legal(b, e)
    ensures 2 * One(e.JobSubmitted?) + StepsLeft(b)
      == One(e.JobAssigned?) + One(e.JobEnded?) + 2 * One(DropsQueued(e)) + StepsLeft(Post(b, e))
  {
    var c := Post(b, e);
    if e.JobSubmitted? || e.JobAssigned? || e.JobEnded? || e.JobCancelled? || e.JobForceKilled? {
      EntryMoves(b, c, e.job, c.jobs[e.job], Queued);
      EntryMoves(b, c, e.job, c.jobs[e.job], Running);
    } else {
      assert SameStatuses(b, c);
      assert WithStatus(c, Queued) == WithStatus(b, Queued) && WithStatus(c, Running) == WithStatus(b, Running);
    }
  }

  /** Every submission brings two steps; claims, completions and queued cancellations use them up exactly. */
  lemma {:induction false} RankBalance(a: seq<Event>)
    requires Lawful(a)
    ensures 2 * Submissions(a) == Claims(a) + Completions(a) + 2 * QueuedCancels(a) + StepsLeft(Replay(a))
    decreases |a|
  {
    if a != [] {
      RankBalance(a[..|a| - 1]);
      RankOfPost(Replay(a[..|a| - 1]), a[|a| - 1]);
    } else {
      assert WithStatus(Replay(a), Queued) == {} == WithStatus(Replay(a), Running);
    }
  }

  /** Over any run, claims plus completions plus queued cancellations are at most twice the submissions,
      and the missing steps are those the live jobs still have. */
  lemma {:induction false} StepsBoundedBySubmissions(rs: seq<Request>)
    ensures var s := Run(EMPTY_SERVER, rs);
      && Claims(s.audit) + Completions(s.audit) + QueuedCancels(s.audit) <= 2 * Submissions(s.audit)
      && 2 * Submissions(s.audit) == Claims(s.audit) + Completions(s.audit) + 2 * QueuedCancels(s.audit)
         + 2 * |set j | j in s.jobs && s.jobs[j].status == Queued| + |set j | j in s.jobs && s.jobs[j].status == Running|
  {
    var s := Run(EMPTY_SERVER, rs);
    AuditIsFaithful(rs);
    RankBalance(s.audit);
    assert WithStatus(View(s), Queued) == set j | j in s.jobs && s.jobs[j].status == Queued;
    assert WithStatus(View(s), Running) == set j | j in s.jobs && s.jobs[j].status == Running;
  }

  // ---------------------------------------------------------------- conservation of credits

  predicate Grants(e: Event, u: UserId) { (e.Approved? || e.SignedUp?) && e.user == u }

  function BillOf(e: Event, u: UserId): int { if e.JobEnded? && e.user == u then e.billed else 0 }

  /** The credits of u's last approval. */
  function Granted(a: seq<Event>, u: UserId): int
    decreases |a|
  {
    if a == [] then 0
    else
      var e := a[|a| - 1];
      if Grants(e, u) then (if e.Approved? then e.credits else 0) else Granted(a[..|a| - 1], u)
  }

  /** The sum of u's bills since then. */
  function BilledSince(a: seq<Event>, u: UserId): int
    decreases |a|
  {
    if a == [] || Grants(a[|a| - 1], u) then 0
    else BilledSince(a[..|a| - 1], u) + BillOf(a[|a| - 1], u)
  }

  ghost predicate OwnersKnown(b: Books) { forall j :: j in b.jobs ==> b.jobs[j].user in b.credits }

  /** One row: a grant sets u's credits, a bill of u is taken off and clamped, anything else leaves them. */
  lemma CreditsOfPost(b: Books, e: Event, u: UserId)
    requires Legal(b, e) && OwnersKnown(b)
    ensures OwnersKnown(Post(b, e)) && 0 <= BillOf(e, u)
    ensures u in Post(b, e).credits <==> u in b.credits || Grants(e, u)
    ensures u in Post(b, e).credits ==>
      Post(b, e).credits[u] == if Grants(e, u) then (if e.Approved? then e.credits else 0)
                               else if BillOf(e, u) > 0 then Spend(b.credits[u], BillOf(e, u)) else b.credits[u]
    ensures BillOf(e, u) > 0 ==> u in b.credits
  {}

  /** Clamping each bill at zero is the same as clamping their sum: only the total matters, not the order. */
  lemma {:induction false} BooksConserve(a: seq<Event>, u: UserId)
    requires Lawful(a)
    ensures 0 <= BilledSince(a, u) && 0 <= Granted(a, u)
    ensures u in Replay(a).credits ==> Replay(a).credits[u] == Max(0, Granted(a, u) - BilledSince(a, u))
    ensures u !in Replay(a).credits ==> BilledSince(a, u) == 0 == Granted(a, u)
    ensures OwnersKnown(Replay(a))
    decreases |a|
  {
    if a != [] {
      BooksConserve(a[..|a| - 1], u);
      CreditsOfPost(Replay(a[..|a| - 1]), a[|a| - 1], u);
      hide Legal, Post;
    }
  }

  /** In every reachable state: credits are never negative, equal max(0, granted - billed), and the sum of the bills
      is what was spent plus an exact unpaid shortfall, which is positive only when the credits are used up. */
  lemma {:induction false} CreditsConserved(rs: seq<Request>, u: UserId)
    requires u in Run(EMPTY_SERVER, rs).users
    ensures var s := Run(EMPTY_SERVER, rs);
      var granted, billed, left := Granted(s.audit, u), BilledSince(s.audit, u), s.users[u].credits;
      var shortfall := Max(0, billed - granted);
      && 0 <= left == Max(0, granted - billed)
      && billed == (granted - left) + shortfall
      && (shortfall > 0 ==> left == 0)
  {
    var s := Run(EMPTY_SERVER, rs);
    AuditIsFaithful(rs);
    BooksConserve(s.audit, u);
    assert View(s).credits[u] == s.users[u].credits;
  }

  // ---------------------------------------------------------------- funded submissions

  /** All bills of u ever. */
  function BilledTotal(a: seq<Event>, u: UserId): int
    decreases |a|
  {
    if a == [] then 0 else BilledTotal(a[..|a| - 1], u) + BillOf(a[|a| - 1], u)
  }

  lemma BilledTotalSnoc(a: seq<Event>, e: Event, u: UserId)
    ensures BilledTotal(a + [e], u) == BilledTotal(a, u) + BillOf(e, u)
  {}

  ghost predicate Live(s: Server, u: UserId, j: JobId) {
    j in s.jobs && s.jobs[j].user == u && !Terminal(s.jobs[j].status)
  }

  /** u has at most one live job, and the credits cover it. */
  ghost predicate Covered(s: Server, u: UserId) {
    && u in s.users
    && (forall j, k :: Live(s, u, j) && Live(s, u, k) ==> j == k)
    && (forall j :: Live(s, u, j) ==> Funded(s.users[u].credits, s.jobs[j].gpus, s.jobs[j].maxSeconds))
  }

  /** u is not approved anew, submits only with no live job, and every run of u's jobs ends in time. */
  ghost predicate Frugal(s: Server, r: Request, u: UserId) {
    && !(r.ReqApprove? && r.user == u)
    && (r.ReqSubmit? && r.user == u ==> forall j :: !Live(s, u, j))
    && (r.ReqComplete? && r.job in s.jobs && s.jobs[r.job].user == u && s.jobs[r.job].startedAt.Some? ==>
          r.now - s.jobs[r.job].startedAt.value <= s.jobs[r.job].maxSeconds * SECOND)
  }

  ghost predicate FrugalRun(s: Server, rs: seq<Request>, u: UserId)
    decreases |rs|
  {
    rs == [] || (Frugal(s, rs[0], u) && FrugalRun(Handle(s, rs[0]), rs[1..], u))
  }

  /** u stays covered and pays exactly what the audit bills. */
  ghost predicate PaysInFull(s: Server, s': Server, u: UserId)
    requires u in s.users
  {
    Covered(s', u) && s'.users[u].credits == s.users[u].credits - (BilledTotal(s'.audit, u) - BilledTotal(s.audit, u))
  }

  /** The live jobs of u after a completion. */
  lemma LiveAfterComplete(s: Server, n: NodeId, j: JobId, exitCode: int, t1: Time, t2: Time, u: UserId, k: JobId)
    requires Inv(s) && Complete(s, n, j, exitCode, t1, t2).Ok?
    ensures var s' := Complete(s, n, j, exitCode, t1, t2).server;
      && (Live(s', u, k) <==> Live(s, u, k) && k != j)
      && (Live(s', u, k) ==> s'.jobs[k] == s.jobs[k])
  {}

  /** The money of u after a completion: the job's owner pays, nobody else. */
  lemma MoneyAfterComplete(s: Server, n: NodeId, j: JobId, exitCode: int, t1: Time, t2: Time, u: UserId)
    requires Inv(s) && u in s.users && Complete(s, n, j, exitCode, t1, t2).Ok?
    ensures var s' := Complete(s, n, j, exitCode, t1, t2).server;
      var bill := BillAt(s.jobs[j], t1);
      var owes := s.jobs[j].user == u;
      && s.jobs[j].startedAt.Some? && !Terminal(s.jobs[j].status)
      && u in s'.users && s'.users[u].credits == (if owes then Spend(s.users[u].credits, bill) else s.users[u].credits)
      && BilledTotal(s'.audit, u) == BilledTotal(s.audit, u) + (if owes then bill else 0)
  {}

  lemma FrugalComplete(s: Server, n: NodeId, j: JobId, exitCode: int, t1: Time, t2: Time, u: UserId)
    requires Inv(s) && Covered(s, u) && Frugal(s, ReqComplete(n, j, exitCode, t1, t2), u)
    ensures PaysInFull(s, Commit(s, Complete(s, n, j, exitCode, t1, t2)), u)
  {
    var o := Complete(s, n, j, exitCode, t1, t2);
    if o.Ok? {
      MoneyAfterComplete(s, n, j, exitCode, t1, t2, u);
      forall k { LiveAfterComplete(s, n, j, exitCode, t1, t2, u, k); }
      var job := s.jobs[j];
      if job.user == u {
        assert Live(s, u, j);
        FundedCoversBill(s.users[u].credits, job.gpus, job.maxSeconds, job.startedAt.value, t1);
      }
    }
  }

  lemma FrugalSubmit(s: Server, v: UserId, j: JobId, gpus: Gpus, maxSeconds: Seconds, preferred: Option<NodeId>, now: Time, u: UserId)
    requires Covered(s, u) && Frugal(s, ReqSubmit(v, j, gpus, maxSeconds, preferred, now), u)
    ensures PaysInFull(s, Commit(s, Submit(s, v, j, gpus, maxSeconds, preferred, now)), u)
  {
    var o := Submit(s, v, j, gpus, maxSeconds, preferred, now);
    if o.Ok? {
      BilledTotalSnoc(s.audit, JobSubmitted(v, j, gpus, maxSeconds, preferred), u);
      assert forall k :: Live(o.server, u, k) && k != j ==> Live(s, u, k);
    }
  }

  /** At most one row is added, and it bills nothing. */
  ghost predicate BillsNothing(a: seq<Event>, a': seq<Event>) {
    a' == a || exists e :: a' == a + [e] && !e.JobEnded?
  }

  lemma AdminBillsNothing(s: Server, r: Request)
    requires !TouchesJobs(r)
    ensures BillsNothing(s.audit, Handle(s, r).audit)
  {}

  lemma JobsBillNothing(s: Server, r: Request)
    requires TouchesJobs(r) && !r.ReqComplete?
    ensures BillsNothing(s.audit, Handle(s, r).audit)
  {}

  /** Only a completion writes a bill. */
  lemma OthersEndNothing(s: Server, r: Request)
    requires !r.ReqComplete?
    ensures BillsNothing(s.audit, Handle(s, r).audit)
  {
    hide BillsNothing;
    if TouchesJobs(r) { JobsBillNothing(s, r); } else { AdminBillsNothing(s, r); }
  }

  /** The other requests leave credits alone, and bring no live job. */
  lemma OthersLeaveCredits(s: Server, r: Request, u: UserId)
    requires u in s.users && !r.ReqComplete? && !(r.ReqApprove? && r.user == u)
    ensures u in Handle(s, r).users && Handle(s, r).users[u].credits == s.users[u].credits
  {
    if !TouchesUsers(r) { OtherRequestsLeaveUsers(s, r); }
  }

  lemma OthersBringNoJob(s: Server, r: Request)
    requires !r.ReqSubmit?
    ensures Handle(s, r).jobs.Keys == s.jobs.Keys
  {
    if !TouchesJobs(r) { OtherRequestsLeaveJobs(s, r); }
  }

  lemma BillsNothingTotal(a: seq<Event>, a': seq<Event>, u: UserId)
    requires BillsNothing(a, a')
    ensures BilledTotal(a', u) == BilledTotal(a, u)
  {
    if a' != a {
      var e :| a' == a + [e] && !e.JobEnded?;
      BilledTotalSnoc(a, e, u);
    }
  }

  lemma BillsNothingFor(a: seq<Event>, a': seq<Event>, j: JobId)
    requires BillsNothing(a, a')
    ensures BilledFor(a', j) == BilledFor(a, j)
  {
    if a' != a {
      var e :| a' == a + [e] && !e.JobEnded?;
      BilledForSnoc(a, e, j);
    }
  }

  lemma FrugalStep(s: Server, r: Request, u: UserId)
    requires Inv(s) && Covered(s, u) && Frugal(s, r, u)
    ensures PaysInFull(s, Handle(s, r), u)
  {
    if r.ReqComplete? {
      FrugalComplete(s, r.node, r.job, r.exitCode, r.now, r.now2, u);
    } else if r.ReqSubmit? {
      FrugalSubmit(s, r.user, r.job, r.gpus, r.maxSeconds, r.preferred, r.now, u);
    } else {
      OthersLeaveCredits(s, r, u);
      OthersBringNoJob(s, r);
      OthersEndNothing(s, r);
      var s' := Handle(s, r);
      BillsNothingTotal(s.audit, s'.audit, u);
      forall j | Live(s', u, j)
        ensures Live(s, u, j) && s'.jobs[j].gpus == s.jobs[j].gpus && s'.jobs[j].maxSeconds == s.jobs[j].maxSeconds
      {
        RowStep(s, r, j);
      }
    }
  }

  /** A covered user who keeps one live job at a time never meets the clamp: over the whole run the credits fall by
      exactly the bills. */
  lemma {:induction false} FrugalRunPaysInFull(s: Server, rs: seq<Request>, u: UserId)
    requires Inv(s) && Covered(s, u) && FrugalRun(s, rs, u)
    ensures PaysInFull(s, Run(s, rs), u)
    decreases |rs|
  {
    if rs != [] {
      FrugalStep(s, rs[0], u);
      InvStep(s, rs[0]);
      FrugalRunPaysInFull(Handle(s, rs[0]), rs[1..], u);
    }
  }

  // ---------------------------------------------------------------- the dashboard

  /** What the audit billed for job j. */
  function BilledFor(a: seq<Event>, j: JobId): int
    decreases |a|
  {
    if a == [] then 0
    else BilledFor(a[..|a| - 1], j) + (if a[|a| - 1].JobEnded? && a[|a| - 1].job == j then a[|a| - 1].billed else 0)
  }

  lemma BilledForSnoc(a: seq<Event>, e: Event, j: JobId)
    ensures BilledFor(a + [e], j) == BilledFor(a, j) + (if e.JobEnded? && e.job == j then e.billed else 0)
  {}

  /** The dashboard's figure for a row: rows without a start or an end are skipped. */
  function ServedHours(job: Job): int {
    if job.startedAt.Some? && job.completedAt.Some? then Bill(job.startedAt.value, job.completedAt.value, job.gpus) else 0
  }

  /** Every terminal row shows at least what was billed for it, and rows not yet ended were not billed. */
  ghost predicate NeverUnderReports(s: Server) {
    && (forall j :: j in s.jobs && Terminal(s.jobs[j].status) ==> BilledFor(s.audit, j) <= ServedHours(s.jobs[j]))
    && (forall j :: j !in s.jobs || !Terminal(s.jobs[j].status) ==> BilledFor(s.audit, j) == 0)
  }

  /** Within one completion the second clock read is not before the first. */
  predicate OrderedClock(r: Request) { r.ReqComplete? ==> r.now <= r.now2 }

  /** For the job just ended, the dashboard shows at least the bill and at most ceil((t2 - t1) * gpus) hours more. */
  lemma DashboardOfCompletion(s: Server, n: NodeId, j: JobId, exitCode: int, t1: Time, t2: Time)
    requires Inv(s) && t1 <= t2 && Complete(s, n, j, exitCode, t1, t2).Ok?
    ensures var s' := Complete(s, n, j, exitCode, t1, t2).server;
      && s'.audit[|s.audit|].JobEnded? && 0 <= (t2 - t1) * s.jobs[j].gpus
      && s'.audit[|s.audit|].billed <= ServedHours(s'.jobs[j])
      && ServedHours(s'.jobs[j]) <= s'.audit[|s.audit|].billed + CeilHours((t2 - t1) * s.jobs[j].gpus)
  {
    assert RowOk(s.users, s.nodes, s.jobs[j]);
    DashboardGap(s.jobs[j].startedAt.value, t1, t2, s.jobs[j].gpus);
  }

  /** A completion ends its one job and writes its one bill. */
  lemma CompletionFrame(s: Server, n: NodeId, j: JobId, exitCode: int, t1: Time, t2: Time)
    requires Inv(s) && Complete(s, n, j, exitCode, t1, t2).Ok?
    ensures var s' := Complete(s, n, j, exitCode, t1, t2).server;
      && !Terminal(s.jobs[j].status) && Terminal(s'.jobs[j].status) && s'.jobs.Keys == s.jobs.Keys
      && (forall k :: k in s.jobs && k != j ==> s'.jobs[k] == s.jobs[k])
      && |s'.audit| == |s.audit| + 1 && s'.audit == s.audit + [s'.audit[|s.audit|]]
      && s'.audit[|s.audit|].JobEnded? && s'.audit[|s.audit|].job == j
  {}

  lemma ReportsComplete(s: Server, n: NodeId, j: JobId, exitCode: int, t1: Time, t2: Time)
    requires Inv(s) && NeverUnderReports(s) && t1 <= t2
    ensures NeverUnderReports(Commit(s, Complete(s, n, j, exitCode, t1, t2)))
  {
    var o := Complete(s, n, j, exitCode, t1, t2);
    if o.Ok? {
      DashboardOfCompletion(s, n, j, exitCode, t1, t2);
      CompletionFrame(s, n, j, exitCode, t1, t2);
      hide Complete, Inv, ServedHours;
      var e := o.server.audit[|s.audit|];
      forall k ensures BilledFor(o.server.audit, k) == BilledFor(s.audit, k) + (if k == j then e.billed else 0) {
        BilledForSnoc(s.audit, e, k);
      }
    }
  }

  lemma OthersBillNothing(s: Server, r: Request, j: JobId)
    requires !r.ReqComplete?
    ensures BilledFor(Handle(s, r).audit, j) == BilledFor(s.audit, j)
  {
    OthersEndNothing(s, r);
    BillsNothingFor(s.audit, Handle(s, r).audit, j);
  }

  lemma ReportsStep(s: Server, r: Request)
    requires Inv(s) && NeverUnderReports(s) && OrderedClock(r)
    ensures NeverUnderReports(Handle(s, r))
  {
    if r.ReqComplete? {
      ReportsComplete(s, r.node, r.job, r.exitCode, r.now, r.now2);
    } else {
      var s' := Handle(s, r);
      forall j
        ensures j in s'.jobs && Terminal(s'.jobs[j].status) ==> BilledFor(s'.audit, j) <= ServedHours(s'.jobs[j])
        ensures j !in s'.jobs || !Terminal(s'.jobs[j].status) ==> BilledFor(s'.audit, j) == 0
      {
        OthersBillNothing(s, r, j);
        if j in s.jobs {
          RowStep(s, r, j);
          NewlyEnded(s'.jobs[j]);
        }
      }
    }
  }

  lemma NewlyEnded(job: Job)
    ensures 0 <= ServedHours(job)
  {}

  lemma {:induction false} ReportsRun(s: Server, rs: seq<Request>)
    requires Inv(s) && NeverUnderReports(s) && forall i :: 0 <= i < |rs| ==> OrderedClock(rs[i])
    ensures NeverUnderReports(Run(s, rs))
    decreases |rs|
  {
    if rs != [] {
      ReportsStep(s, rs[0]);
      InvStep(s, rs[0]);
      ReportsRun(Handle(s, rs[0]), rs[1..]);
    }
  }

  /** The dashboard's loop over the rows of its window. */
  function ServedTotal(rows: seq<Job>): int
    decreases |rows|
  {
    if rows == [] then 0 else ServedTotal(rows[..|rows| - 1]) + ServedHours(rows[|rows| - 1])
  }

  function BilledForAll(a: seq<Event>, js: seq<JobId>): int
    decreases |js|
  {
    if js == [] then 0 else BilledForAll(a, js[..|js| - 1]) + BilledFor(a, js[|js| - 1])
  }

  lemma {:induction false} TotalNeverUnderReports(s: Server, js: seq<JobId>)
    requires NeverUnderReports(s) && forall j :: j in js ==> j in s.jobs && Terminal(s.jobs[j].status)
    ensures BilledForAll(s.audit, js) <= ServedTotal(seq(|js|, i requires 0 <= i < |js| && js[i] in s.jobs => s.jobs[js[i]]))
    decreases |js|
  {
    if js != [] {
      var rows := seq(|js|, i requires 0 <= i < |js| && js[i] in s.jobs => s.jobs[js[i]]);
      var init := js[..|js| - 1];
      TotalNeverUnderReports(s, init);
      assert rows[..|js| - 1] == seq(|init|, i requires 0 <= i < |init| && init[i] in s.jobs => s.jobs[init[i]]);
    }
  }

  /** Summed over any window of ended jobs, in any reachable state, the dashboard never under-reports billed hours. */
  lemma {:induction false} DashboardNeverUnderReports(rs: seq<Request>, js: seq<JobId>)
    requires forall i :: 0 <= i < |rs| ==> OrderedClock(rs[i])
    requires forall j :: j in js ==> j in Run(EMPTY_SERVER, rs).jobs && Terminal(Run(EMPTY_SERVER, rs).jobs[j].status)
    ensures var s := Run(EMPTY_SERVER, rs);
      BilledForAll(s.audit, js) <= ServedTotal(seq(|js|, i requires 0 <= i < |js| && js[i] in s.jobs => s.jobs[js[i]]))
  {
    ReportsRun(EMPTY_SERVER, rs);
    TotalNeverUnderReports(Run(EMPTY_SERVER, rs), js);
  }
}
