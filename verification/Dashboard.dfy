/** The dashboard's GPU-hour figure: the jobs that ended in its window, summed in a loop. */
module Dashboard {
  import opened Types
  import opened JobStatuses
  import opened Handlers
  import opened Billing
  import opened Accounting

  /** The WHERE clause of the query: terminal, and ended at or after the cutoff. */
  predicate InWindow(job: Job, cutoff: Time) {
    Terminal(job.status) && job.completedAt.Some? && cutoff <= job.completedAt.value
  }

  function Window(table: seq<Job>, cutoff: Time): seq<Job>
    decreases |table|
  {
    if table == [] then []
    else Window(table[..|table| - 1], cutoff) + if InWindow(table[|table| - 1], cutoff) then [table[|table| - 1]] else []
  }

  lemma {:induction false} FigureAdds(a: seq<Job>, b: seq<Job>, cutoff: Time)
    ensures ServedTotal(Window(a + b, cutoff)) == ServedTotal(Window(a, cutoff)) + ServedTotal(Window(b, cutoff))
    decreases |b|
  {
    if b == [] {
      assert a + b == a;
    } else {
      var last := b[|b| - 1];
      assert (a + b)[..|a + b| - 1] == a + b[..|b| - 1];
      FigureAdds(a, b[..|b| - 1], cutoff);
      TotalSnoc(Window(a + b[..|b| - 1], cutoff), last);
      TotalSnoc(Window(b[..|b| - 1], cutoff), last);
    }
  }

  lemma TotalSnoc(rows: seq<Job>, job: Job)
    ensures ServedTotal(rows + [job]) == ServedTotal(rows) + ServedHours(job) && rows + [] == rows
  {
    assert (rows + [job])[..|rows|] == rows;
  }

  lemma HoursOfRow(job: Job)
    requires job.startedAt.Some? && job.completedAt.Some?
    ensures 1 <= ServedHours(job)
    ensures forall k :: 1 <= k ==>
      (ServedHours(job) <= k <==> (job.completedAt.value - job.startedAt.value) * job.gpus <= k * 3_600_000_000)
  {
    BillIff(job.startedAt.value, job.completedAt.value, job.gpus);
    hide Bill;
  }

  lemma WindowOfRow(job: Job, cutoff: Time)
    ensures Window([job], cutoff) ==
      if job.status in {Completed, Failed, Cancelled} && job.completedAt.Some? && cutoff <= job.completedAt.value then [job] else []
  {
    assert [job][..0] == [];
  }

  /** What one row adds to the figure: the least whole number of hours, at least one, that covers its time times its GPUs, if
      it ended at or after the cutoff and was started; otherwise nothing. The figure of a table is the sum over its rows. */
  lemma FigureOfRow(rows: seq<Job>, job: Job, cutoff: Time)
    ensures var h := ServedTotal(Window(rows + [job], cutoff)) - ServedTotal(Window(rows, cutoff));
      if && job.status in {Completed, Failed, Cancelled} && job.completedAt.Some? && cutoff <= job.completedAt.value
         && job.startedAt.Some?
      then 1 <= h && forall k :: 1 <= k ==> (h <= k <==> (job.completedAt.value - job.startedAt.value) * job.gpus <= k * 3_600_000_000)
      else h == 0
    ensures ServedTotal(Window([], cutoff)) == 0
  {
    FigureAdds(rows, [job], cutoff);
    WindowOfRow(job, cutoff);
    TotalSnoc([], job);
    assert [] + [job] == [job];
    if job.startedAt.Some? && job.completedAt.Some? { HoursOfRow(job); }
    hide Window, InWindow, Bill;
  }

  method GpuHoursServed(table: seq<Job>, cutoff: Time) returns (hours: int)
    ensures hours == ServedTotal(Window(table, cutoff))
  {
    var completed := Window(table, cutoff);
    hours := 0;
    for i := 0 to |completed|
      invariant hours == ServedTotal(completed[..i])
    {
      assert completed[..i + 1][..i] == completed[..i];
      var job := completed[i];
      if job.startedAt == None || job.completedAt == None { continue; }
      hours := hours + Bill(job.startedAt.value, job.completedAt.value, job.gpus);
    }
    assert completed[..|completed|] == completed;
  }

  /** The jobs of a list that ended in the window. */
  function EndedSince(jobs: map<JobId, Job>, js: seq<JobId>, cutoff: Time): seq<JobId>
    decreases |js|
  {
    if js == [] then []
    else
      var j := js[|js| - 1];
      EndedSince(jobs, js[..|js| - 1], cutoff) + if j in jobs && InWindow(jobs[j], cutoff) then [j] else []
  }

  /** Rows of the table in the order of js. */
  ghost predicate ListsRows(jobs: map<JobId, Job>, js: seq<JobId>, table: seq<Job>) {
    |table| == |js| && forall i :: 0 <= i < |js| ==> js[i] in jobs && table[i] == jobs[js[i]]
  }

  lemma {:induction false} WindowListsEnded(jobs: map<JobId, Job>, js: seq<JobId>, table: seq<Job>, cutoff: Time)
    requires ListsRows(jobs, js, table)
    ensures ListsRows(jobs, EndedSince(jobs, js, cutoff), Window(table, cutoff))
    ensures forall j :: j in EndedSince(jobs, js, cutoff) <==> j in js && InWindow(jobs[j], cutoff)
    decreases |js|
  {
    if js != [] {
      WindowListsEnded(jobs, js[..|js| - 1], table[..|js| - 1], cutoff);
      assert js == js[..|js| - 1] + [js[|js| - 1]];
    }
  }

  /** In every reachable state, over the rows of the job table, the figure is at least what the audit billed for exactly
      the jobs that ended at or after the cutoff. */
  method ServedAtLeastBilled(ghost rs: seq<Request>, ghost js: seq<JobId>, table: seq<Job>, cutoff: Time) returns (hours: int)
    requires forall i :: 0 <= i < |rs| ==> OrderedClock(rs[i])
    requires ListsRows(Run(EMPTY_SERVER, rs).jobs, js, table)
    ensures var s := Run(EMPTY_SERVER, rs);
      && BilledForAll(s.audit, EndedSince(s.jobs, js, cutoff)) <= hours
      && forall j :: j in EndedSince(s.jobs, js, cutoff) <==>
           && j in js && s.jobs[j].status in {Completed, Failed, Cancelled}
           && s.jobs[j].completedAt.Some? && cutoff <= s.jobs[j].completedAt.value
  {
    hours := GpuHoursServed(table, cutoff);
    ghost var s := Run(EMPTY_SERVER, rs);
    ghost var ended := EndedSince(s.jobs, js, cutoff);
    WindowListsEnded(s.jobs, js, table, cutoff);
    DashboardNeverUnderReports(rs, ended);
    assert Window(table, cutoff) == seq(|ended|, i requires 0 <= i < |ended| && ended[i] in s.jobs => s.jobs[ended[i]]);
  }
}
