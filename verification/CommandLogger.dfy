/**
 The agent's batching command logger. Handed-off batches and the buffer together always
 hold exactly the accepted messages, in order.
 */
module CommandLogger {

  datatype Entry = Entry(level: string, message: string)

  const BATCH: nat := 50

  /** `sent` are the batches handed to the uploader, oldest first. */
  datatype Buffer = Buffer(entries: seq<Entry>, armed: bool, closed: bool, sent: seq<seq<Entry>>)

  /** Any timer may fire, also one that was stopped too late. */
  datatype LogEvent = Log(entry: Entry) | TimerFires | FlushCall | CloseCall

  function Flushed(b: Buffer): Buffer {
    if |b.entries| == 0 then b else Buffer([], false, b.closed, b.sent + [b.entries])
  }

  function Logged(b: Buffer, e: Entry): Buffer {
    if b.closed then b
    else
      var more := b.(entries := b.entries + [e]);
      if |more.entries| >= BATCH then Flushed(more) else more.(armed := true)
  }

  function Closed(b: Buffer): Buffer {
    Flushed(b.(closed := true))
  }

  class Logger {
    var entries: seq<Entry>
    var armed: bool
    var closed: bool
    var sent: seq<seq<Entry>>

    constructor ()
      ensures State() == Buffer([], false, false, [])
    {
      entries, armed, closed, sent := [], false, false, [];
    }

    function State(): Buffer
      reads this
    {
      Buffer(entries, armed, closed, sent)
    }

    method LogMessage(e: Entry)
      modifies this
      ensures State() == Logged(old(State()), e)
    {
      if closed {
        return;
      }
      entries := entries + [e];
      if |entries| >= BATCH {
        FlushLocked();
      } else if !armed {
        armed := true;
      }
    }

    method FlushLocked()
      modifies this
      ensures State() == Flushed(old(State()))
    {
      if |entries| == 0 {
        return;
      }
      if armed {
        armed := false;
      }
      sent := sent + [entries];
      entries := [];
    }

    method Flush()
      modifies this
      ensures State() == Flushed(old(State()))
    {
      FlushLocked();
    }

    method Close()
      modifies this
      ensures State() == Closed(old(State()))
    {
      closed := true;
      FlushLocked();
    }
  }

  function LoggerStep(b: Buffer, e: LogEvent): Buffer {
    match e
    case Log(entry) => Logged(b, entry)
    case TimerFires => Flushed(b)
    case FlushCall => Flushed(b)
    case CloseCall => Closed(b)
  }

  function LoggerRun(run: seq<LogEvent>): Buffer {
    if |run| == 0 then Buffer([], false, false, []) else LoggerStep(LoggerRun(run[..|run| - 1]), run[|run| - 1])
  }

  /** The messages logged before the first close. */
  function Accepted(run: seq<LogEvent>): seq<Entry> {
    if |run| == 0 then []
    else
      var before := run[..|run| - 1];
      Accepted(before) + if run[|run| - 1].Log? && CloseCall !in before then [run[|run| - 1].entry] else []
  }

  function Joined(batches: seq<seq<Entry>>): seq<Entry> {
    if |batches| == 0 then [] else Joined(batches[..|batches| - 1]) + batches[|batches| - 1]
  }

  ghost predicate InOrder(b: Buffer, run: seq<LogEvent>) {
    && Joined(b.sent) + b.entries == Accepted(run)
    && (forall s <- b.sent :: 1 <= |s| <= BATCH) && |b.entries| < BATCH
    && (|b.entries| > 0 <==> b.armed)
    && (b.closed <==> CloseCall in run) && (b.closed ==> b.entries == [])
  }

  lemma RunSnoc(run: seq<LogEvent>, e: LogEvent)
    ensures LoggerRun(run + [e]) == LoggerStep(LoggerRun(run), e)
    ensures Accepted(run + [e]) == Accepted(run) + if e.Log? && CloseCall !in run then [e.entry] else []
    ensures CloseCall in run + [e] <==> CloseCall in run || e == CloseCall
  {
  }

  lemma LoggedContent(b: Buffer, entry: Entry)
    requires !b.closed
    ensures Joined(Logged(b, entry).sent) + Logged(b, entry).entries == Joined(b.sent) + b.entries + [entry]
  {
  }

  lemma OtherKeeps(b: Buffer, run: seq<LogEvent>, e: LogEvent)
    requires InOrder(b, run) && !e.Log?
    ensures InOrder(LoggerStep(b, e), run + [e])
  {
  }

  /**
   No message is lost, doubled or reordered between the buffer and the batches; a batch holds
   1 to 50; a message in the buffer always has a timer armed to flush it; and after a close
   the buffer is empty for good.
   */
  lemma {:induction false} Conservation(run: seq<LogEvent>)
    ensures InOrder(LoggerRun(run), run)
  {
    if |run| > 0 {
      var before, e := run[..|run| - 1], run[|run| - 1];
      Conservation(before);
      assert run == before + [e];
      RunSnoc(before, e);
      if !e.Log? {
        OtherKeeps(LoggerRun(before), before, e);
      } else if LoggerRun(before).closed {
        assert Accepted(before) + [] == Accepted(before);
      } else {
        LoggedContent(LoggerRun(before), e.entry);
      }
    }
  }

  /** Firing the armed timer empties the buffer into one more batch: nothing is stranded. */
  lemma TimerDrains(run: seq<LogEvent>)
    ensures var b := LoggerRun(run); var after := LoggerRun(run + [TimerFires]);
            after.entries == [] && !after.armed && Joined(after.sent) == Accepted(run)
  {
    assert (run + [TimerFires])[..|run|] == run;
    Conservation(run);
    Conservation(run + [TimerFires]);
    assert Accepted(run + [TimerFires]) == Accepted(run) + [];
  }

  /** A message is handed off with the 49 before it, or waits under an armed timer; after a close it is ignored. */
  lemma FiftiethFlushes(run: seq<LogEvent>, e: Entry)
    ensures var b := LoggerRun(run); var after := LoggerRun(run + [Log(e)]);
            if b.closed then after == b
            else if |b.entries| == 49
            then after == Buffer([], false, false, b.sent + [b.entries + [e]]) && |b.entries + [e]| == 50
            else |b.entries| < 49 && after == Buffer(b.entries + [e], true, false, b.sent)
  {
    RunSnoc(run, Log(e));
    Conservation(run);
  }
}
