/** The index order (created_at, id) that claiming and keyset pagination share. */
module Ordering {
  import opened Types

  datatype Key = Key(at: Time, id: nat)

  predicate Less(a: Key, b: Key) { a.at < b.at || (a.at == b.at && a.id < b.id) }

  function KeyOf(jobs: map<JobId, Job>, j: JobId): Key
    requires j in jobs
  {
    Key(jobs[j].createdAt, j)
  }

  /** j is what ORDER BY created_at, id LIMIT 1 returns among the candidates. */
  ghost predicate IsOldest(jobs: map<JobId, Job>, candidates: set<JobId>, j: JobId)
    requires candidates <= jobs.Keys
  {
    j in candidates && forall k :: k in candidates && k != j ==> Less(KeyOf(jobs, j), KeyOf(jobs, k))
  }

  lemma {:induction false} OldestExists(jobs: map<JobId, Job>, candidates: set<JobId>)
    requires candidates <= jobs.Keys && candidates != {}
    ensures exists j :: IsOldest(jobs, candidates, j)
  {
    var k :| k in candidates;
    var rest := candidates - {k};
    if rest == {} {
      assert candidates == {k};
      assert IsOldest(jobs, candidates, k);
    } else {
      OldestExists(jobs, rest);
      var m :| IsOldest(jobs, rest, m);
      var j := if Less(KeyOf(jobs, k), KeyOf(jobs, m)) then k else m;
      assert IsOldest(jobs, candidates, j);
    }
  }

  ghost function Oldest(jobs: map<JobId, Job>, candidates: set<JobId>): (j: JobId)
    requires candidates <= jobs.Keys && candidates != {}
    ensures IsOldest(jobs, candidates, j)
  {
    OldestExists(jobs, candidates);
    var j :| IsOldest(jobs, candidates, j);
    j
  }
}
