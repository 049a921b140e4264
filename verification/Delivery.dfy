/** From the lines of one pump to what a reader of the stored log gets. */
module Delivery {
  import opened Types
  import opened JobLogs

  /** The table holds exactly the first m lines. */
  ghost predicate HoldsPrefix(log: JobLog, lines: seq<LogEntry>, m: nat) {
    Numbered(lines) && m <= |lines| && Faithful(log, lines) && forall k: nat :: k in log <==> k < m
  }

  function Min(a: int, b: int): int { if a < b then a else b }

  /** Reading such a table after line p - 1 returns the next lines, up to the limit. */
  lemma {:induction false} PrefixRead(log: JobLog, lines: seq<LogEntry>, m: nat, p: nat, limit: nat)
    requires HoldsPrefix(log, lines, m) && p <= m
    ensures ListAfter(log, p - 1, limit) == lines[p..Min(m, p + limit)]
    decreases limit
  {
    var ks := Following(log, p - 1);
    if p < m { assert p in ks; }
    if limit > 0 && ks != {} {
      assert p < m && Least(ks) == p;
      PrefixRead(log, lines, m, p + 1, limit - 1);
    }
  }

  lemma WholeRead(log: JobLog, lines: seq<LogEntry>, limit: nat)
    requires Numbered(lines) && Faithful(log, lines) && |lines| <= limit
    requires forall k: nat :: k < |lines| ==> k in log
    ensures ListAfter(log, -1, limit) == lines
  {
    PrefixRead(log, lines, |lines|, 0, limit);
    assert lines[0..|lines|] == lines;
  }

  /** When every batch cut from a pump has arrived, in whatever order and however often, a read from the start that is
      not cut off by its limit returns every emitted line, in emission order. */
  lemma FreshReadIsComplete(batches: seq<seq<LogEntry>>, lines: seq<LogEntry>, limit: nat)
    requires Numbered(lines) && |lines| <= limit
    requires forall b :: b in batches ==> CutFrom(b, lines)
    requires forall k: nat :: k < |lines| ==> CarriesAny(batches, k)
    ensures ListAfter(InsertAll(map[], batches), -1, limit) == lines
  {
    InsertAllIsUnion(map[], batches, lines);
    WholeRead(InsertAll(map[], batches), lines, limit);
  }

  // ---------------------------------------------------------------- a poll that follows its cursor

  /** The first number from k on under which nothing is stored. */
  function FirstGap(log: JobLog, k: nat): (q: nat)
    ensures k <= q && q !in log && forall i :: k <= i < q ==> i in log
    decreases Following(log, k - 1)
  {
    if k in log then
      assert k in Following(log, k - 1) && k !in Following(log, k);
      FirstGap(log, k + 1)
    else k
  }

  /** Before a read after a number: nothing is stored beyond the first gap, or the page is full before it. */
  predicate SafePoll(log: JobLog, after: int, limit: nat)
    requires -1 <= after
  {
    var q := FirstGap(log, after + 1);
    (forall k :: k in log ==> k < q) || after + limit < q
  }

  /** The rows carry the numbers from, from + 1, from + 2, ... */
  ghost predicate Consecutive(rows: seq<LogEntry>, from: int) {
    forall i :: 0 <= i < |rows| ==> rows[i].sequence == from + i
  }

  lemma ConsecutiveConcat(a: seq<LogEntry>, b: seq<LogEntry>, from: int)
    ensures Consecutive(a + b, from) <==> Consecutive(a, from) && Consecutive(b, from + |a|)
  {
    assert forall i :: 0 <= i < |a| ==> (a + b)[i] == a[i];
    if Consecutive(a + b, from) {
      forall i | 0 <= i < |b| ensures b[i].sequence == from + |a| + i { assert (a + b)[|a| + i] == b[i]; }
    }
  }

  /** A read returns consecutive numbers from its cursor on exactly if it was safe. */
  lemma {:induction false} SafePollIff(log: JobLog, after: int, limit: nat)
    requires Keyed(log) && -1 <= after
    ensures SafePoll(log, after, limit) <==> Consecutive(ListAfter(log, after, limit), after + 1)
    decreases limit
  {
    var ks, q, rows := Following(log, after), FirstGap(log, after + 1), ListAfter(log, after, limit);
    if limit > 0 && ks != {} {
      var m := Least(ks);
      var rest := ListAfter(log, m, limit - 1);
      assert rows == [log[m]] + rest;
      ConsecutiveConcat([log[m]], rest, after + 1);
      assert [log[m]][0].sequence == m;
      if m == after + 1 {
        SafePollIff(log, m, limit - 1);
        assert FirstGap(log, m + 1) == q;
      } else {
        assert m in ks && after + 1 !in ks;
        assert q == after + 1;
      }
    } else if limit > 0 {
      assert forall k :: k in log ==> k !in ks;
    }
  }

  /** No number is missing below a stored one. */
  ghost predicate Gapless(log: JobLog) { forall k, i: nat :: k in log && i < k ==> i in log }

  lemma GaplessIsSafe(log: JobLog, after: int, limit: nat)
    requires Gapless(log) && -1 <= after
    ensures SafePoll(log, after, limit)
  {}

  /** Consecutive lines, as a flush takes them from the buffer. */
  ghost predicate Piece(batch: seq<LogEntry>, lines: seq<LogEntry>) {
    && batch != [] && batch[0].sequence + |batch| <= |lines|
    && batch == lines[batch[0].sequence..batch[0].sequence + |batch|]
  }

  /** The batch starts at the end of what is stored, or repeats some of it: no number below its first is missing. */
  ghost predicate Joins(log: JobLog, batch: seq<LogEntry>) {
    batch != [] ==> forall k: nat :: k < batch[0].sequence ==> k in log
  }

  /** Such a batch leaves no gap. */
  lemma JoiningStaysGapless(log: JobLog, batch: seq<LogEntry>, lines: seq<LogEntry>)
    requires Numbered(lines) && Piece(batch, lines) && Gapless(log) && Joins(log, batch)
    ensures Gapless(Insert(log, batch))
  {
    forall k, i: nat | k in Insert(log, batch) && i < k ensures i in Insert(log, batch) {
      InsertKeys(log, batch, k);
      InsertKeys(log, batch, i);
      var m := batch[0].sequence;
      assert forall x :: 0 <= x < |batch| ==> batch[x] == lines[m + x];
      if m <= i < m + |batch| { assert batch[i - m].sequence == i; }
    }
  }
}
