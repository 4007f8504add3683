/**
 * What FrameMetricsDumper writes: one text record per frame sample, laid out by
 * METRIC_DATA_FORMAT, and the name of the file the records of one screen go to,
 * laid out by FILE_NAME_PATTERN. Both are String.format calls under Locale.US;
 * the format strings are given here as the pieces `java.util.Formatter` reads
 * them as. Readers of a record and of a whole file are the partners the layout
 * is proved against.
 */
module Record {
  import opened Wrappers
  import opened Numerals
  import opened Strings
  import opened Formatter

  /** One FrameMetrics callback: the ten metrics the listener reads, in the order it passes them. */
  datatype Sample = Sample(
    animationDuration: Int64,
    commandIssueDuration: Int64,
    drawDuration: Int64,
    firstDrawFrame: Int64,
    inputHandlingDuration: Int64,
    layoutMeasureDuration: Int64,
    swapBuffersDuration: Int64,
    syncDuration: Int64,
    totalDuration: Int64,
    unknownDelayDuration: Int64)

  /** The argument list of the String.format call in onFrameMetricsAvailable: %1$ .. %10$ in this order. */
  function SampleArgs(s: Sample): seq<Value> {
    [LongValue(s.animationDuration), LongValue(s.commandIssueDuration), LongValue(s.drawDuration),
     LongValue(s.firstDrawFrame), LongValue(s.inputHandlingDuration), LongValue(s.layoutMeasureDuration),
     LongValue(s.swapBuffersDuration), LongValue(s.syncDuration), LongValue(s.totalDuration),
     LongValue(s.unknownDelayDuration)]
  }

  /** The first line of every record. */
  const RecordTag := "FM:"

  /** The argument indices of the data line of METRIC_DATA_FORMAT, in the order they occur. */
  const MetricDataRefs: seq<nat> := [1, 2, 3, 4, 5, 6, 7, 8, 8, 10]

  /**
   * METRIC_DATA_FORMAT: "FM:\n%1$d %2$d %3$d %4$d %5$d %6$d %7$d %8$d %8$d %10$d",
   * that is the tag line, then `%i$d` for each index i of MetricDataRefs, separated
   * by single spaces. The ninth specifier names argument 8 again and no specifier
   * names argument 9.
   */
  const MetricDataFormat: seq<Spec> := [Literal(RecordTag + "\n")] + SpaceSeparated(MetricDataRefs)

  /**
   * The values a record shows, in order: the first eight metrics, SYNC_DURATION
   * a second time, then UNKNOWN_DELAY_DURATION. TOTAL_DURATION is not among them.
   */
  function Printed(s: Sample): seq<int> {
    [s.animationDuration, s.commandIssueDuration, s.drawDuration, s.firstDrawFrame,
     s.inputHandlingDuration, s.layoutMeasureDuration, s.swapBuffersDuration, s.syncDuration,
     s.syncDuration, s.unknownDelayDuration]
  }

  /** The second line of a record. */
  function DataLine(s: Sample): string {
    Join(Decimals(Printed(s)), ' ')
  }

  /** The indices of METRIC_DATA_FORMAT pick exactly the printed values out of a sample's arguments. */
  lemma PickedSampleArgs(s: Sample)
    ensures PicksLongs(MetricDataRefs, SampleArgs(s))
    ensures Picked(MetricDataRefs, SampleArgs(s)) == Printed(s)
  {
    var args := SampleArgs(s);
    var refs := MetricDataRefs;
    assert |args| == 10;
    assert forall k :: 0 <= k < 10 ==> 1 <= refs[k] <= 10;
    assert forall i :: 0 <= i < 10 ==> args[i].LongValue?;
    assert PicksLongs(refs, args);
    var p := Picked(refs, args);
    assert forall k :: 0 <= k < 10 ==> p[k] == Printed(s)[k];
  }

  /** Evaluating METRIC_DATA_FORMAT on a sample's arguments never throws and gives the tag line, then the data line. */
  lemma RecordLayout(s: Sample)
    ensures Format(MetricDataFormat, SampleArgs(s)) == Some(RecordTag + "\n" + DataLine(s))
  {
    var args := SampleArgs(s);
    PickedSampleArgs(s);
    FormatSpaceSeparated(MetricDataRefs, args);
    FormatCons(Literal(RecordTag + "\n"), SpaceSeparated(MetricDataRefs), args);
  }

  /** The text onFrameMetricsAvailable hands to writeOutEvent for one sample. */
  function FormatRecord(s: Sample): (r: string)
    ensures r == RecordTag + "\n" + DataLine(s)
  {
    RecordLayout(s);
    Format(MetricDataFormat, SampleArgs(s)).value
  }

  /** A joined line of `%d` fields contains no line break. */
  lemma {:induction false} JoinedFieldsAvoid(xs: seq<int>, c: char)
    requires c != ' ' && c != '-' && !IsDigit(c)
    ensures c !in Join(Decimals(xs), ' ')
  {
    if |xs| == 1 {
      DecimalAvoids(xs[0], c);
    } else if |xs| > 1 {
      DecimalAvoids(xs[0], c);
      assert Decimals(xs)[1..] == Decimals(xs[1..]);
      JoinedFieldsAvoid(xs[1..], c);
    }
  }

  /** No `%d` field contains a space. */
  lemma DecimalsAvoidSpace(xs: seq<int>)
    ensures NoneContains(Decimals(xs), ' ')
  {
    forall i | 0 <= i < |xs|
      ensures ' ' !in Decimals(xs)[i]
    {
      DecimalAvoids(xs[i], ' ');
    }
  }

  /** Reads one record: the tag line, then space-separated `%d` fields. */
  function ParseRecord(r: string): Option<seq<int>> {
    var lines := Split(r, '\n');
    if |lines| == 2 && lines[0] == RecordTag then ParseDecimals(Split(lines[1], ' ')) else None
  }

  lemma DataLineFields(s: Sample)
    ensures '\n' !in DataLine(s)
    ensures ParseDecimals(Split(DataLine(s), ' ')) == Some(Printed(s))
  {
    JoinedFieldsAvoid(Printed(s), '\n');
    DecimalsAvoidSpace(Printed(s));
    SplitJoin(Decimals(Printed(s)), ' ');
    DecimalsRoundTrip(Printed(s));
  }

  /**
   * Reading a record back gives exactly the printed values: the first eight
   * metrics, SYNC_DURATION again, and UNKNOWN_DELAY_DURATION.
   */
  lemma RecordRoundTrip(s: Sample)
    ensures ParseRecord(FormatRecord(s)) == Some(Printed(s))
    ensures |Printed(s)| == 10 && Printed(s)[8] == Printed(s)[7] == s.syncDuration
  {
    RecordSplitsInTwo(s);
    DataLineFields(s);
  }

  /** A record is two lines: the tag and the data line. */
  lemma RecordSplitsInTwo(s: Sample)
    ensures Split(FormatRecord(s), '\n') == [RecordTag, DataLine(s)]
  {
    var d := DataLine(s);
    DataLineFields(s);
    SplitField(RecordTag, d, '\n');
    SplitWithout(d, '\n');
    assert FormatRecord(s) == RecordTag + ['\n'] + d;
  }

  /**
   * Two samples give the same record exactly when they agree on every metric
   * except TOTAL_DURATION: the record is blind to TOTAL_DURATION and to nothing else.
   */
  lemma RecordIgnoresOnlyTotal(s: Sample, t: Sample)
    ensures FormatRecord(s) == FormatRecord(t) <==> s.(totalDuration := 0) == t.(totalDuration := 0)
  {
    if FormatRecord(s) == FormatRecord(t) {
      RecordRoundTrip(s);
      RecordRoundTrip(t);
      assert Printed(s) == Printed(t);
      assert Printed(s)[0] == Printed(t)[0];
    }
    if s.(totalDuration := 0) == t.(totalDuration := 0) {
      assert Printed(s) == Printed(t);
    }
  }

  lemma ExampleFields(s: Sample)
    requires s == Sample(10, 2, 3, 1, 4, 5, 6, 7, 9, 0)
    ensures Decimals(Printed(s)) == ["10", "2", "3", "1", "4", "5", "6", "7", "7", "0"]
  {
    assert Printed(s) == [10, 2, 3, 1, 4, 5, 6, 7, 7, 0];
    assert NatDigits(10) == "10";
  }

  lemma ExampleDataLineHead()
    ensures Join(["10", "2", "3", "1"], ' ') == "10 2 3 1"
  {
  }

  lemma ExampleDataLineTail()
    ensures Join(["4", "5", "6", "7", "7", "0"], ' ') == "4 5 6 7 7 0"
  {
  }

  /** The data line of the example: the two halves joined by one space. */
  lemma ExampleDataLine(parts: seq<string>, line: string)
    requires parts == ["10", "2", "3", "1", "4", "5", "6", "7", "7", "0"]
    requires line == "10 2 3 1 4 5 6 7 7 0"
    ensures Join(parts, ' ') == line
  {
    var head, tail := parts[..4], parts[4..];
    assert parts == head + tail;
    assert head == ["10", "2", "3", "1"];
    assert tail == ["4", "5", "6", "7", "7", "0"];
    ExampleDataLineHead();
    ExampleDataLineTail();
    JoinAppend(head, tail, ' ');
    assert "10 2 3 1" + [' '] + "4 5 6 7 7 0" == line;
  }

  /** The record of the sample (10, 2, 3, 1, 4, 5, 6, 7, 9, 0): the ninth number is 7, and 9 does not occur. */
  lemma ExampleRecord(s: Sample)
    requires s == Sample(10, 2, 3, 1, 4, 5, 6, 7, 9, 0)
    ensures FormatRecord(s) == "FM:\n10 2 3 1 4 5 6 7 7 0"
  {
    var line := "10 2 3 1 4 5 6 7 7 0";
    ExampleFields(s);
    ExampleDataLine(Decimals(Printed(s)), line);
    ExampleText(RecordTag, line);
  }

  lemma ExampleText(tag: string, line: string)
    requires tag == RecordTag && line == "10 2 3 1 4 5 6 7 7 0"
    ensures tag + "\n" + line == "FM:\n10 2 3 1 4 5 6 7 7 0"
  {
  }

  /** The text a file holds after one record per sample: each record followed by "\n". */
  function LogText(samples: seq<Sample>): string {
    Terminated(Records(samples), '\n')
  }

  /** The record of each sample, in delivery order. */
  function Records(samples: seq<Sample>): seq<string> {
    seq(|samples|, k requires 0 <= k < |samples| => FormatRecord(samples[k]))
  }

  /** The lines of that text: tag line and data line per sample. */
  function LogLines(samples: seq<Sample>): seq<string> {
    if samples == [] then [] else [RecordTag, DataLine(samples[0])] + LogLines(samples[1..])
  }

  /** The printed values of each sample, in delivery order. */
  function PrintedAll(samples: seq<Sample>): seq<seq<int>> {
    seq(|samples|, k requires 0 <= k < |samples| => Printed(samples[k]))
  }

  /** Reads tag-line/data-line pairs. */
  function ParseBlocks(lines: seq<string>): Option<seq<seq<int>>> {
    if lines == [] then Some([])
    else if |lines| >= 2 && lines[0] == RecordTag then
      match (ParseDecimals(Split(lines[1], ' ')), ParseBlocks(lines[2..]))
      case (Some(fields), Some(rest)) => Some([fields] + rest)
      case _ => None
    else None
  }

  /** Reads a whole metrics file: newline-terminated lines forming tag-line/data-line pairs. */
  function ParseLog(text: string): Option<seq<seq<int>>> {
    var lines := Split(text, '\n');
    if lines[|lines| - 1] != "" then None else ParseBlocks(lines[..|lines| - 1])
  }

  lemma {:induction false} LogLinesAvoidNewline(samples: seq<Sample>)
    ensures NoneContains(LogLines(samples), '\n')
  {
    if samples != [] {
      LogLinesAvoidNewline(samples[1..]);
      DataLineFields(samples[0]);
      var lines := LogLines(samples);
      assert lines[2..] == LogLines(samples[1..]);
      forall i | 0 <= i < |lines|
        ensures '\n' !in lines[i]
      {
        if i >= 2 {
          assert lines[i] == lines[2..][i - 2];
        }
      }
    }
  }

  lemma {:induction false} RecordsLines(samples: seq<Sample>)
    ensures Terminated(Records(samples), '\n') == Terminated(LogLines(samples), '\n')
  {
    if samples != [] {
      var s := samples[0];
      var rest := samples[1..];
      RecordsLines(rest);
      assert Records(samples) == [FormatRecord(s)] + Records(rest);
      TerminatedCons(FormatRecord(s), Records(rest), '\n');
      TerminatedCons(FormatRecord(s), LogLines(rest), '\n');
      assert FormatRecord(s) == RecordTag + ['\n'] + DataLine(s);
      TerminatedSplitFirst(RecordTag, DataLine(s), LogLines(rest), '\n');
    } else {
      assert Records(samples) == [];
    }
  }

  lemma {:induction false} LogLinesBlocks(samples: seq<Sample>)
    ensures ParseBlocks(LogLines(samples)) == Some(PrintedAll(samples))
  {
    if samples != [] {
      var s := samples[0];
      var rest := samples[1..];
      LogLinesBlocks(rest);
      DataLineFields(s);
      var lines := LogLines(samples);
      assert lines[0] == RecordTag && lines[1] == DataLine(s);
      assert lines[2..] == LogLines(rest);
      assert PrintedAll(samples) == [Printed(s)] + PrintedAll(rest);
    } else {
      assert PrintedAll(samples) == [];
    }
  }

  /**
   * A file holding the records of a sequence of samples reads back as exactly
   * one block per sample, in delivery order, each with that sample's printed values.
   */
  lemma LogRoundTrip(samples: seq<Sample>)
    ensures ParseLog(LogText(samples)) == Some(PrintedAll(samples))
  {
    RecordsLines(samples);
    LogLinesAvoidNewline(samples);
    LogLinesBlocks(samples);
    SplitTerminated(LogLines(samples), '\n');
    var lines := LogLines(samples) + [""];
    assert lines[..|lines| - 1] == LogLines(samples);
  }

  /** The extension of every metrics file. */
  const MetricsExt := ".mtx"

  /** FILE_NAME_PATTERN: "%1$s_%2$s_%3$s" + METRICS_EXT (app label, screen name, variant). */
  const FileNamePattern: seq<Spec> := [Arg(1, S), Literal("_"), Arg(2, S), Literal("_"), Arg(3, S), Literal(MetricsExt)]

  /** The step-by-step evaluation of FILE_NAME_PATTERN on which FileName rests. */
  lemma FileNameLayout(appLabel: string, screenName: string, variant: string)
    ensures Format(FileNamePattern, [StringValue(appLabel), StringValue(screenName), StringValue(variant)])
         == Some(appLabel + "_" + screenName + "_" + variant + MetricsExt)
  {
    var args := [StringValue(appLabel), StringValue(screenName), StringValue(variant)];
    var p := FileNamePattern;
    assert Format(p[6..], args) == Some("");
    FormatCons(p[5], p[6..], args);
    assert [p[5]] + p[6..] == p[5..];
    assert MetricsExt + "" == MetricsExt;
    assert Format(p[5..], args) == Some(MetricsExt);
    FormatCons(p[4], p[5..], args);
    assert [p[4]] + p[5..] == p[4..];
    var t4 := variant + MetricsExt;
    assert Format(p[4..], args) == Some(t4);
    FormatCons(p[3], p[4..], args);
    assert [p[3]] + p[4..] == p[3..];
    var t3 := "_" + t4;
    assert Format(p[3..], args) == Some(t3);
    FormatCons(p[2], p[3..], args);
    assert [p[2]] + p[3..] == p[2..];
    var t2 := screenName + t3;
    assert Format(p[2..], args) == Some(t2);
    FormatCons(p[1], p[2..], args);
    assert [p[1]] + p[2..] == p[1..];
    var t1 := "_" + t2;
    assert Format(p[1..], args) == Some(t1);
    FormatCons(p[0], p[1..], args);
    assert [p[0]] + p[1..] == p;
    assert Format(p, args) == Some(appLabel + t1);
    assert appLabel + t1 == appLabel + "_" + screenName + "_" + variant + MetricsExt;
  }

  /** The name of the metrics file for one screen class of one app label and variant. */
  function FileName(appLabel: string, screenName: string, variant: string): (r: string)
    ensures r == appLabel + "_" + screenName + "_" + variant + ".mtx"
  {
    FileNameLayout(appLabel, screenName, variant);
    Format(FileNamePattern, [StringValue(appLabel), StringValue(screenName), StringValue(variant)]).value
  }

  /** When no component contains '_', the three components can be read back from the name. */
  lemma FileNameComponents(appLabel: string, screenName: string, variant: string)
    requires '_' !in appLabel && '_' !in screenName && '_' !in variant
    ensures Split(FileName(appLabel, screenName, variant), '_') == [appLabel, screenName, variant + ".mtx"]
  {
    var last := variant + ".mtx";
    var tail := screenName + ['_'] + last;
    assert FileName(appLabel, screenName, variant) == appLabel + ['_'] + tail;
    SplitWithout(last, '_');
    SplitField(screenName, last, '_');
    assert Split(tail, '_') == [screenName, last];
    SplitField(appLabel, tail, '_');
  }
}
