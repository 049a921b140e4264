/** The job_logs table of one job: inserting a batch, and reading what follows a sequence number. */
module JobLogs {
  import opened Types

  const MAX_CONTENT: int := 64 * 1024

  /** What the request schema asks of a batch: every entry has between one and MAX_CONTENT characters. */
  predicate Postable(entries: seq<LogEntry>) { forall e :: e in entries ==> 1 <= |e.content| <= MAX_CONTENT }

  function InsertRow(log: JobLog, e: LogEntry): JobLog { if e.sequence in log then log else log[e.sequence := e] }

  /** INSERT ... ON CONFLICT (job_id, sequence) DO NOTHING: the first row of a sequence number stays. */
  function Insert(log: JobLog, entries: seq<LogEntry>): JobLog
    decreases |entries|
  {
    if entries == [] then log else Insert(InsertRow(log, entries[0]), entries[1..])
  }

  /** The statement's row count. */
  function Inserted(log: JobLog, entries: seq<LogEntry>): nat
    decreases |entries|
  {
    if entries == [] then 0
    else (if entries[0].sequence in log then 0 else 1) + Inserted(InsertRow(log, entries[0]), entries[1..])
  }

  /** Every row is one of the source's lines, stored under the line's own number. */
  ghost predicate Faithful(log: JobLog, lines: seq<LogEntry>) {
    forall k :: k in log ==> k < |lines| && log[k] == lines[k]
  }

  /** The lines of one pump: the k-th line carries sequence number k. */
  ghost predicate Numbered(lines: seq<LogEntry>) {
    forall k :: 0 <= k < |lines| ==> lines[k].sequence == k
  }

  /** Every entry of the batch is one of the lines. */
  ghost predicate CutFrom(batch: seq<LogEntry>, lines: seq<LogEntry>) {
    forall i :: 0 <= i < |batch| ==> batch[i].sequence < |lines| && batch[i] == lines[batch[i].sequence]
  }

  ghost predicate Carries(batch: seq<LogEntry>, k: nat) {
    exists i :: 0 <= i < |batch| && batch[i].sequence == k
  }

  /** The returned count is the growth of the table, and no stored row changes. */
  lemma {:induction false} InsertGrows(log: JobLog, entries: seq<LogEntry>)
    ensures |Insert(log, entries)| == |log| + Inserted(log, entries)
    ensures forall k :: k in log ==> k in Insert(log, entries) && Insert(log, entries)[k] == log[k]
    decreases |entries|
  {
    if entries != [] {
      var log' := InsertRow(log, entries[0]);
      InsertGrows(log', entries[1..]);
      forall k | k in log
        ensures k in Insert(log, entries) && Insert(log, entries)[k] == log[k]
      {
        assert k in log' && log'[k] == log[k];
      }
    }
  }

  /** Keys after an insert: the old ones and those the batch carries. */
  lemma {:induction false} InsertKeys(log: JobLog, entries: seq<LogEntry>, k: nat)
    ensures k in Insert(log, entries) <==> k in log || Carries(entries, k)
    decreases |entries|
  {
    if entries != [] {
      var log' := InsertRow(log, entries[0]);
      InsertKeys(log', entries[1..], k);
      if Carries(entries, k) {
        var i :| 0 <= i < |entries| && entries[i].sequence == k;
        if i > 0 { assert entries[1..][i - 1].sequence == k; }
      }
      if Carries(entries[1..], k) {
        var i :| 0 <= i < |entries[1..]| && entries[1..][i].sequence == k;
        assert entries[i + 1].sequence == k;
      }
    }
  }

  lemma {:induction false} InsertFaithful(log: JobLog, entries: seq<LogEntry>, lines: seq<LogEntry>)
    requires Faithful(log, lines) && CutFrom(entries, lines)
    ensures Faithful(Insert(log, entries), lines)
    decreases |entries|
  {
    if entries != [] {
      assert entries[0] == lines[entries[0].sequence];
      forall i | 0 <= i < |entries[1..]|
        ensures entries[1..][i].sequence < |lines| && entries[1..][i] == lines[entries[1..][i].sequence]
      {
        assert entries[1..][i] == entries[i + 1];
      }
      InsertFaithful(InsertRow(log, entries[0]), entries[1..], lines);
    }
  }

  /** The table after a sequence of batches. */
  function InsertAll(log: JobLog, batches: seq<seq<LogEntry>>): JobLog
    decreases |batches|
  {
    if batches == [] then log else InsertAll(Insert(log, batches[0]), batches[1..])
  }

  /** The sum of the row counts those inserts returned. */
  function InsertedAll(log: JobLog, batches: seq<seq<LogEntry>>): nat
    decreases |batches|
  {
    if batches == [] then 0 else Inserted(log, batches[0]) + InsertedAll(Insert(log, batches[0]), batches[1..])
  }

  ghost predicate CarriesAny(batches: seq<seq<LogEntry>>, k: nat) {
    exists b :: b in batches && Carries(b, k)
  }

  /** Whatever the order and repetition of the batches of one pump, the table is exactly their union keyed by
      sequence number, and the returned counts sum to its growth. */
  lemma {:induction false} InsertAllIsUnion(log: JobLog, batches: seq<seq<LogEntry>>, lines: seq<LogEntry>)
    requires Faithful(log, lines)
    requires forall b :: b in batches ==> CutFrom(b, lines)
    ensures Faithful(InsertAll(log, batches), lines)
    ensures forall k: nat :: k in InsertAll(log, batches) <==> k in log || CarriesAny(batches, k)
    ensures |InsertAll(log, batches)| == |log| + InsertedAll(log, batches)
    decreases |batches|
  {
    if batches != [] {
      var b, rest := batches[0], batches[1..];
      var log' := Insert(log, b);
      InsertFaithful(log, b, lines);
      InsertGrows(log, b);
      InsertAllIsUnion(log', rest, lines);
      forall k: nat
        ensures k in InsertAll(log, batches) <==> k in log || CarriesAny(batches, k)
      {
        InsertKeys(log, b, k);
        assert CarriesAny(batches, k) <==> Carries(b, k) || CarriesAny(rest, k) by {
          if CarriesAny(batches, k) {
            var c :| c in batches && Carries(c, k);
            assert c == b || c in rest;
          }
          if CarriesAny(rest, k) {
            var c :| c in rest && Carries(c, k);
            assert c in batches;
          }
        }
      }
    }
  }

  /** Two deliveries of the same batches of one pump, in any order and with any repetitions, store the same table. */
  lemma OrderAndRepetitionIrrelevant(one: seq<seq<LogEntry>>, two: seq<seq<LogEntry>>, lines: seq<LogEntry>)
    requires forall b :: b in one ==> CutFrom(b, lines)
    requires forall b :: b in one <==> b in two
    ensures InsertAll(map[], one) == InsertAll(map[], two)
  {
    InsertAllIsUnion(map[], one, lines);
    InsertAllIsUnion(map[], two, lines);
    var l1, l2 := InsertAll(map[], one), InsertAll(map[], two);
    forall k: nat
      ensures k in l1 <==> k in l2
    {
      assert CarriesAny(one, k) <==> CarriesAny(two, k);
    }
    assert l1.Keys == l2.Keys;
  }

  lemma InsertOne(log: JobLog, e: LogEntry)
    ensures Insert(log, [e]) == InsertRow(log, e)
  {}

  /** Without a common pump the order does matter: the first batch to arrive wins a sequence number. */
  lemma FirstWriteWins(x: LogEntry, y: LogEntry)
    requires x.sequence == y.sequence && x != y
    ensures Insert(Insert(map[], [x]), [y]) != Insert(Insert(map[], [y]), [x])
  {}

  // ---------------------------------------------------------------- reading

  ghost predicate Ascending(rows: seq<LogEntry>) {
    forall i, k :: 0 <= i < k < |rows| ==> rows[i].sequence < rows[k].sequence
  }

  function Following(log: JobLog, after: int): set<nat> { set k | k in log && after < k }

  ghost predicate IsLeast(ks: set<nat>, m: nat) { m in ks && forall k :: k in ks ==> m <= k }

  lemma {:induction false} LeastExists(ks: set<nat>)
    requires ks != {}
    ensures exists m :: IsLeast(ks, m)
    decreases |ks|
  {
    var k :| k in ks;
    var rest := ks - {k};
    if rest == {} {
      assert ks == {k};
      assert IsLeast(ks, k);
    } else {
      LeastExists(rest);
      var m :| IsLeast(rest, m);
      assert forall x :: x in ks ==> x == k || x in rest;
      assert IsLeast(ks, if k < m then k else m);
    }
  }

  ghost function Least(ks: set<nat>): (m: nat)
    requires ks != {}
    ensures IsLeast(ks, m)
  {
    LeastExists(ks);
    var m :| IsLeast(ks, m);
    m
  }

  /** WHERE sequence > after ORDER BY sequence LIMIT limit. */
  ghost function ListAfter(log: JobLog, after: int, limit: nat): seq<LogEntry>
    decreases limit
  {
    var ks := Following(log, after);
    if limit == 0 || ks == {} then [] else [log[Least(ks)]] + ListAfter(log, Least(ks), limit - 1)
  }

  /** Rows sit under their own sequence number. */
  ghost predicate Keyed(log: JobLog) { forall k :: k in log ==> log[k].sequence == k }

  /** The read got as far as sequence number k: it ended before its limit, or at or after k. */
  ghost predicate Reached(rows: seq<LogEntry>, limit: nat, k: nat) {
    |rows| < limit || (|rows| > 0 && k <= rows[|rows| - 1].sequence)
  }

  /** A read returns stored rows that follow the cursor, in ascending order. */
  lemma {:induction false} ListAfterRows(log: JobLog, after: int, limit: nat)
    requires Keyed(log)
    ensures |ListAfter(log, after, limit)| <= limit
    ensures forall r :: r in ListAfter(log, after, limit) ==> after < r.sequence && r.sequence in log && r == log[r.sequence]
    ensures Ascending(ListAfter(log, after, limit))
    decreases limit
  {
    var ks := Following(log, after);
    if limit > 0 && ks != {} {
      var m := Least(ks);
      ListAfterRows(log, m, limit - 1);
      var rows, rest := ListAfter(log, after, limit), ListAfter(log, m, limit - 1);
      assert rows == [log[m]] + rest;
      forall i, k | 0 <= i < k < |rows|
        ensures rows[i].sequence < rows[k].sequence
      {
        assert rows[k] == rest[k - 1];
        if i > 0 { assert rows[i] == rest[i - 1]; }
      }
    }
  }

  /** On its way a read skips no stored row. */
  lemma {:induction false} ListAfterSkipsNone(log: JobLog, after: int, limit: nat, k: nat)
    requires Keyed(log)
    requires k in log && after < k && Reached(ListAfter(log, after, limit), limit, k)
    ensures log[k] in ListAfter(log, after, limit)
    decreases limit
  {
    var ks := Following(log, after);
    assert k in ks;
    if limit > 0 {
      var m := Least(ks);
      var rows, rest := ListAfter(log, after, limit), ListAfter(log, m, limit - 1);
      assert rows == [log[m]] + rest;
      if k != m {
        assert |rest| > 0 ==> rest[|rest| - 1] == rows[|rows| - 1];
        ListAfterSkipsNone(log, m, limit - 1, k);
      }
    }
  }
}
