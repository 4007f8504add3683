/**
 * ScreenFrameMetrixWriter: the listener the dumper attaches to a window. It
 * owns one FileWriter, opened on its metrics file when the writer is built,
 * appends one line per event and flushes it, and closes the FileWriter when
 * finished. Every I/O failure is caught and printed, so each operation either
 * has its effect or none.
 */
module Writer {
  import opened Wrappers
  import opened Record
  import opened Strings

  /**
   * The `fileWriter` field and what it has put in its file.
   * Absent: `new FileWriter(file)` threw, so the field stayed null.
   * Open(text): usable; opening truncated the file, so text, everything appended
   *   and flushed since, is the file's content.
   * Closed(text): close() succeeded; from now on every append throws an
   *   IOException, which is caught.
   */
  datatype Sink = Absent | Open(text: string) | Closed(text: string)

  /** The sink after writeOutEvent(event). */
  function Appended(sink: Sink, event: string): Sink {
    match sink
    case Open(t) => Open(t + event + "\n")
    case _ => sink
  }

  /** The sink after finish(). */
  function Finished(sink: Sink): Sink {
    match sink
    case Open(t) => Closed(t)
    case _ => sink
  }

  /** One call on a writer, as the window and the dumper make them. */
  datatype Call = Event(event: string) | Finish

  /** The sink after a sequence of calls, in order. */
  function Run(sink: Sink, calls: seq<Call>): Sink
    decreases |calls|
  {
    if calls == [] then sink
    else
      var next := match calls[0]
        case Event(e) => Appended(sink, e)
        case Finish => Finished(sink);
      Run(next, calls[1..])
  }

  /**
   * A file is only ever appended to: whatever a writer has written stays, in
   * place, through any later calls; a writer that failed to open stays without
   * a file; a finished writer changes no more.
   */
  lemma {:induction false} RunAppendsOnly(sink: Sink, calls: seq<Call>)
    ensures sink.Absent? ==> Run(sink, calls) == Absent
    ensures sink.Closed? ==> Run(sink, calls) == sink
    ensures sink.Open? ==> !Run(sink, calls).Absent? && sink.text <= Run(sink, calls).text
    decreases |calls|
  {
    if calls != [] {
      var next := match calls[0]
        case Event(e) => Appended(sink, e)
        case Finish => Finished(sink);
      RunAppendsOnly(next, calls[1..]);
    }
  }

  /** The sink after writeOutEvent for each event, in order. */
  function Written(sink: Sink, events: seq<string>): Sink
    decreases |events|
  {
    if events == [] then sink else Written(Appended(sink, events[0]), events[1..])
  }

  /** An open sink ends up holding its old text followed by every event, each terminated by a line break. */
  lemma {:induction false} WrittenOpen(t: string, events: seq<string>)
    ensures Written(Open(t), events) == Open(t + Terminated(events, '\n'))
    decreases |events|
  {
    if events != [] {
      var line := events[0] + "\n";
      var rest := Terminated(events[1..], '\n');
      assert Appended(Open(t), events[0]) == Open(t + line);
      WrittenOpen(t + line, events[1..]);
      assert Terminated(events, '\n') == line + rest;
      assert t + line + rest == t + (line + rest);
    } else {
      assert t + Terminated(events, '\n') == t;
    }
  }

  /**
   * A writer that opened its file and then received one callback per sample
   * holds exactly one record per sample, in delivery order, each reading back
   * as that sample's printed values; with no sample the file is empty.
   */
  lemma FreshWriterHoldsRecords(samples: seq<Sample>)
    ensures Written(Open(""), Records(samples)) == Open(LogText(samples))
    ensures ParseLog(LogText(samples)) == Some(PrintedAll(samples))
    ensures samples == [] ==> LogText(samples) == ""
  {
    WrittenOpen("", Records(samples));
    assert "" + LogText(samples) == LogText(samples);
    LogRoundTrip(samples);
    if samples == [] {
      assert Records(samples) == [];
    }
  }

  class ScreenFrameMetrixWriter {
    /** The metrics file the FileWriter was opened on. */
    const file: string
    var sink: Sink

    /** `new ScreenFrameMetrixWriter(file)`; `opens` says whether `new FileWriter(file)` succeeded. */
    constructor (file: string, opens: bool)
      ensures this.file == file
      ensures sink == if opens then Open("") else Absent
    {
      this.file := file;
      sink := if opens then Open("") else Absent;
    }

    /** Formats the sample's metrics by METRIC_DATA_FORMAT and writes the record out. */
    method OnFrameMetricsAvailable(sample: Sample)
      modifies this
      ensures sink == Appended(old(sink), FormatRecord(sample))
    {
      WriteOutEvent(FormatRecord(sample));
    }

    /** Appends the event and a line break, then flushes; nothing happens without an open FileWriter. */
    method WriteOutEvent(event: string)
      modifies this
      ensures sink == Appended(old(sink), event)
    {
      if sink.Absent? {
        return;
      }
      if sink.Open? {
        sink := Open(sink.text + event + "\n");
      }
      // On a closed FileWriter the append throws an IOException, which is caught.
    }

    /** Closes the FileWriter; nothing happens without one, and closing twice is harmless. */
    method Finish()
      modifies this
      ensures sink == Finished(old(sink))
    {
      if sink.Absent? {
        return;
      }
      sink := Closed(sink.text);
    }
  }
}
