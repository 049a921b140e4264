/** The per-job log pump of the daemon: numbers the emitted lines, buffers them, and cuts the buffer into batches. */
module Pumps {
  import opened Types
  import opened JobLogs

  datatype Pump = Pump(buf: seq<LogEntry>, nextSeq: nat)

  const EMPTY_PUMP := Pump([], 0)

  function Emitted(p: Pump, stream: Stream, content: string): Pump {
    if content == "" then p else Pump(p.buf + [LogEntry(stream, content, p.nextSeq)], p.nextSeq + 1)
  }

  function Flushed(p: Pump): Pump { p.(buf := []) }

  /** What an emission adds to the history of lines: nothing for an empty line. */
  function History(lines: seq<LogEntry>, p: Pump, stream: Stream, content: string): seq<LogEntry> {
    if content == "" then lines else lines + [LogEntry(stream, content, p.nextSeq)]
  }

  /** The buffer is the tail of the numbered history. */
  ghost predicate Tracks(p: Pump, lines: seq<LogEntry>) {
    && Numbered(lines) && p.nextSeq == |lines|
    && |p.buf| <= |lines| && p.buf == lines[|lines| - |p.buf|..]
    && (forall k :: 0 <= k < |lines| ==> lines[k].content != "")
  }

  lemma EmitTracks(p: Pump, lines: seq<LogEntry>, stream: Stream, content: string)
    requires Tracks(p, lines)
    ensures Tracks(Emitted(p, stream, content), History(lines, p, stream, content))
  {}

  /** A flushed batch is cut from the history: consecutive lines, each under its own number. */
  lemma BufferIsCut(p: Pump, lines: seq<LogEntry>)
    requires Tracks(p, lines)
    ensures CutFrom(p.buf, lines)
    ensures forall i :: 0 <= i < |p.buf| ==> p.buf[i].sequence == |lines| - |p.buf| + i
  {}

  /** The pump as the daemon holds it: two fields under one mutex. */
  class LogPump {
    var buf: seq<LogEntry>
    var nextSeq: nat
    ghost var lines: seq<LogEntry>   // every line emitted so far

    ghost function View(): Pump reads this { Pump(buf, nextSeq) }

    ghost predicate Valid() reads this { Tracks(View(), lines) }

    constructor ()
      ensures Valid() && View() == EMPTY_PUMP && lines == []
    {
      buf, nextSeq, lines := [], 0, [];
    }

    method Emit(stream: Stream, content: string)
      requires Valid()
      modifies this
      ensures Valid()
      ensures View() == Emitted(old(View()), stream, content)
      ensures content == "" ==> lines == old(lines)
      ensures content != "" ==> lines == old(lines) + [LogEntry(stream, content, |old(lines)|)]
    {
      EmitTracks(View(), lines, stream, content);
      if content == "" { return; }
      lines := lines + [LogEntry(stream, content, nextSeq)];
      buf := buf + [LogEntry(stream, content, nextSeq)];
      nextSeq := nextSeq + 1;
    }

    /** Takes the whole buffer as one batch; an empty buffer sends nothing. */
    method Flush() returns (batch: seq<LogEntry>)
      requires Valid()
      modifies this
      ensures Valid() && lines == old(lines)
      ensures batch == old(buf) && View() == Flushed(old(View()))
      ensures CutFrom(batch, lines)
    {
      BufferIsCut(View(), lines);
      batch := buf;
      if |buf| == 0 { return; }
      buf := [];
    }
  }
}
