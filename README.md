# FrameMetricsDumper in Dafny

FrameMetricsDumper is an Android library class that records per-frame rendering
metrics (`android.view.FrameMetrics`, available from SDK level N) to one text
file per screen. A process-wide singleton resolves a `framemetrics` directory
under external storage and looks up the application label. For each activity
it is asked to track, it attaches a `ScreenFrameMetrixWriter` listener to the
activity's window. Every frame callback makes that listener append a two-line
record to the file `<appLabel>_<ScreenSimpleName>_<variant>.mtx`.

The project models that class as written, including these details:

- **Record layout.** `METRIC_DATA_FORMAT` is `"FM:\n%1$d ... %8$d %8$d %10$d"`.
  It prints SYNC_DURATION twice and never prints TOTAL_DURATION (argument 9).
  The model formats records with that format string, given as the literal and
  `%n$d` pieces `java.util.Formatter` reads it as, and
  `Record.RecordIgnoresOnlyTotal` proves that a record is blind to
  TOTAL_DURATION and to nothing else.
- **The listener map.** `metricsListeners` is never inserted into, so:
  - every `trackMetricsFor` builds a fresh writer on the same file and attaches
    one more listener;
  - `endMetricsListeningFor` always returns early.

  `Dumper.TrackTwiceThenEnd` shows the result: two listeners, two distinct
  writers on one file, and nothing detached or closed.
- **Error handling.** Every `IOException` in the writer is caught. A writer
  whose `FileWriter` could not be opened therefore ignores every call, and a
  closed writer keeps its file as it was.

Modules:

| module | file | what it holds |
|---|---|---|
| `Wrappers` | wrappers.dfy | `Option` and `Result` |
| `Numerals` | decimal.dfy | `%d` rendering of a long (`Decimal`) and the parser that reads it back |
| `Strings` | strings.dfy | `Join`, `Split` and newline-terminated text, with their round-trip lemmas |
| `Formatter` | format.dfy | positional `String.format` (`%n$d`, `%n$s`, literal text): failures, and the shape of space-separated `%d` lists |
| `Record` | record.dfy | the sample, `METRIC_DATA_FORMAT`, the record and file-log round trips, `FILE_NAME_PATTERN` |
| `Writer` | writer.dfy | `ScreenFrameMetrixWriter` as a class over its sink (absent, open or closed file) |
| `Dumper` | dumper.dfy | windows and activities, `getAppLabel`, path building, `FrameMetricsDumper`, the `INSTANCE` singleton, scenarios |

The surroundings become explicit inputs:

- the SDK level (`sdkInt`);
- whether `new FileWriter(file)` succeeds (`opens`, `fileOpens`);
- the looper thread's `Handler`, an opaque value;
- what `PackageManager` knows, a map from package name to label;
- the external storage directory.

## Model

| member | source | states |
|---|---|---|
| Numerals.Decimal | FrameMetrixDumper/app/src/main/java/com/mikekudzin/framemetrixdumper/FrameMetricsDumper.java:159 | `%d` under `Locale.US` prints an optional minus sign then digits, with the sign present exactly for negative values and no leading zero except in `0` itself |
| Numerals.DecimalRoundTrip | FrameMetrixDumper/app/src/main/java/com/mikekudzin/framemetrixdumper/FrameMetricsDumper.java:159 | every field a `%d` prints reads back as the value that was printed |
| Formatter.FormatSucceeds | FrameMetrixDumper/app/src/main/java/com/mikekudzin/framemetrixdumper/FrameMetricsDumper.java:188-198 | `String.format` produces text exactly when every specifier's argument index exists and no `%d` is given a string; otherwise it throws |
| Formatter.FormatSpaceSeparated | FrameMetrixDumper/app/src/main/java/com/mikekudzin/framemetrixdumper/FrameMetricsDumper.java:159 | a run of `%n$d` separated by single spaces prints the referenced longs, in reference order, joined by single spaces |
| Record.PickedSampleArgs | FrameMetrixDumper/app/src/main/java/com/mikekudzin/framemetrixdumper/FrameMetricsDumper.java:159 | the indices of `METRIC_DATA_FORMAT` all point at long arguments and pick the first eight metrics, SYNC_DURATION again, then UNKNOWN_DELAY_DURATION |
| Record.FormatRecord | FrameMetrixDumper/app/src/main/java/com/mikekudzin/framemetrixdumper/FrameMetricsDumper.java:159 | formatting a sample never fails, and gives the tag line `FM:`, a line break, then the printed values separated by single spaces |
| Record.RecordRoundTrip | FrameMetrixDumper/app/src/main/java/com/mikekudzin/framemetrixdumper/FrameMetricsDumper.java:159 | a record reads back as exactly ten values, whose ninth equals the eighth (SYNC_DURATION) |
| Record.RecordIgnoresOnlyTotal | FrameMetrixDumper/app/src/main/java/com/mikekudzin/framemetrixdumper/FrameMetricsDumper.java:159 | two samples give the same record if and only if they agree on every metric except TOTAL_DURATION |
| Record.ExampleRecord | FrameMetrixDumper/app/src/main/java/com/mikekudzin/framemetrixdumper/FrameMetricsDumper.java:188-198 | the sample (10, 2, 3, 1, 4, 5, 6, 7, 9, 0) is written as `FM:\n10 2 3 1 4 5 6 7 7 0`: 9 is lost and 7 repeated |
| Record.LogRoundTrip | FrameMetrixDumper/app/src/main/java/com/mikekudzin/framemetrixdumper/FrameMetricsDumper.java:201-211 | a file of newline-terminated records reads back as one block per sample, in order, each holding that sample's printed values |
| Record.FileName | FrameMetrixDumper/app/src/main/java/com/mikekudzin/framemetrixdumper/FrameMetricsDumper.java:97 | the metrics file name is always `appLabel_simpleName_variant.mtx` |
| Record.FileNameComponents | FrameMetrixDumper/app/src/main/java/com/mikekudzin/framemetrixdumper/FrameMetricsDumper.java:33 | when no component contains `_`, splitting the file name at `_` gives back the label, the screen name, and the variant with `.mtx` |
| Writer.RunAppendsOnly | FrameMetrixDumper/app/src/main/java/com/mikekudzin/framemetrixdumper/FrameMetricsDumper.java:201-222 | over any sequence of writeOutEvent and finish calls, a writer without a FileWriter stays without one, a closed writer changes no more, and an open writer's text only grows at its end |
| Writer.WrittenOpen | FrameMetrixDumper/app/src/main/java/com/mikekudzin/framemetrixdumper/FrameMetricsDumper.java:201-211 | writing events to an open file leaves the old text followed by every event, each with its own line break, in call order |
| Writer.FreshWriterHoldsRecords | FrameMetrixDumper/app/src/main/java/com/mikekudzin/framemetrixdumper/FrameMetricsDumper.java:161-211 | a freshly opened writer fed one callback per sample holds one record per sample, reading back as those samples' printed values; with no samples its file is empty |
| Writer.ScreenFrameMetrixWriter.constructor | FrameMetrixDumper/app/src/main/java/com/mikekudzin/framemetrixdumper/FrameMetricsDumper.java:161-167 | the writer keeps its file; the FileWriter is open on an emptied file when opening succeeds, and absent when it throws |
| Writer.ScreenFrameMetrixWriter.OnFrameMetricsAvailable | FrameMetrixDumper/app/src/main/java/com/mikekudzin/framemetrixdumper/FrameMetricsDumper.java:170-199 | each callback writes out exactly the sample's record, formatted by `METRIC_DATA_FORMAT` |
| Writer.ScreenFrameMetrixWriter.WriteOutEvent | FrameMetrixDumper/app/src/main/java/com/mikekudzin/framemetrixdumper/FrameMetricsDumper.java:201-211 | an open file gains the event and a line break; without a FileWriter, or after close, nothing changes |
| Writer.ScreenFrameMetrixWriter.Finish | FrameMetrixDumper/app/src/main/java/com/mikekudzin/framemetrixdumper/FrameMetricsDumper.java:213-222 | an open FileWriter is closed and keeps its text; without one, or when already closed, nothing changes |
| Dumper.Detach | FrameMetrixDumper/app/src/main/java/com/mikekudzin/framemetrixdumper/FrameMetricsDumper.java:123 | removing a listener that has registrations drops exactly its first registration and keeps every other registration, with its handler, in order. A listener without registrations leaves the list unchanged |
| Dumper.DetachKeepsOthers | FrameMetrixDumper/app/src/main/java/com/mikekudzin/framemetrixdumper/FrameMetricsDumper.java:123 | removing one listener leaves the number of registrations of every other listener unchanged |
| Dumper.DetachUndoesAttach | FrameMetrixDumper/app/src/main/java/com/mikekudzin/framemetrixdumper/FrameMetricsDumper.java:110-123 | removing a listener that was added once, last, restores the window's previous listeners |
| Dumper.UnknownPackageFileName | FrameMetrixDumper/app/src/main/java/com/mikekudzin/framemetrixdumper/FrameMetricsDumper.java:63-71 | when the package manager does not know the package, the label is `Unknown`, so every metrics file is named `Unknown_<screen>_<variant>.mtx` |
| Dumper.TrackUnknownPackage | FrameMetrixDumper/app/src/main/java/com/mikekudzin/framemetrixdumper/FrameMetricsDumper.java:87-111 | a dumper built for an unknown package tracks a screen into `framemetrics/Unknown_<screen>_<variant>.mtx` under external storage |
| Dumper.ChildPath | FrameMetrixDumper/app/src/main/java/com/mikekudzin/framemetrixdumper/FrameMetricsDumper.java:50 | a child path starts with the parent path, ends with `/` then the child name, and is exactly as long as the parent and the child together when the parent already ends in `/`, and one character longer otherwise, so that one separator joins them |
| Dumper.ChildPathDetermined | FrameMetrixDumper/app/src/main/java/com/mikekudzin/framemetrixdumper/FrameMetricsDumper.java:98 | any path meeting ChildPath's contract is the parent, then `/` unless the parent already ends in `/`, then the child: the contract fixes the path |
| Dumper.FrameMetricsDumper.constructor | FrameMetrixDumper/app/src/main/java/com/mikekudzin/framemetrixdumper/FrameMetricsDumper.java:42-71 | the dumper keeps the variant and the handler, and its directory is `framemetrics` under external storage. Its label is the package's label when the package manager knows the package, and `Unknown` otherwise. No listener is tracked |
| Dumper.FrameMetricsDumper.TrackMetricsFor | FrameMetrixDumper/app/src/main/java/com/mikekudzin/framemetrixdumper/FrameMetricsDumper.java:87-111 | below SDK N the window is untouched. Otherwise exactly one registration on the dumper's handler is appended, holding either the tracked writer or a fresh writer on the activity's metrics file; that writer's registrations grow by exactly one. `metricsListeners` is never changed |
| Dumper.FrameMetricsDumper.EndMetricsListeningFor | FrameMetrixDumper/app/src/main/java/com/mikekudzin/framemetrixdumper/FrameMetricsDumper.java:113-126 | below SDK N, or for an untracked activity, nothing changes. Otherwise the tracked writer is removed from the window and finished, and its entry is removed |
| Dumper.Instance.GetInstance | FrameMetrixDumper/app/src/main/java/com/mikekudzin/framemetrixdumper/FrameMetricsDumper.java:73-78 | the first call builds the dumper from its arguments, with the package's label or `Unknown`, and stores it. Later calls return the stored dumper whatever their arguments |
| Dumper.Instance.GetInitializedInstance | FrameMetrixDumper/app/src/main/java/com/mikekudzin/framemetrixdumper/FrameMetricsDumper.java:80-85 | fails with the "should be instantiated first" message exactly when no dumper was built, and otherwise returns the stored one |
| Dumper.TrackTwiceThenEnd | FrameMetrixDumper/app/src/main/java/com/mikekudzin/framemetrixdumper/FrameMetricsDumper.java:87-126 | tracking a screen twice and then ending it leaves two listeners, two distinct writers on one file, none tracked, and both writers still as opened |
| Dumper.DemoScenario | FrameMetrixDumper/app/src/main/java/com/mikekudzin/framemetrixdumper/FrameMetricsDumper.java:28-33 | app "Demo", variant "debug", screen "MainScreen" and one sample write `/sdcard/framemetrics/Demo_MainScreen_debug.mtx`, holding the single record with SYNC_DURATION twice; ending leaves it open |
| Dumper.FirstCallWins | FrameMetrixDumper/app/src/main/java/com/mikekudzin/framemetrixdumper/FrameMetricsDumper.java:73-85 | the no-argument `getInstance` fails before initialisation; afterwards the first variant given is kept for good and the same dumper is returned |

## Left out

- LooperThread is not modelled: its thread, `Looper.prepare`/`loop` and `stopThread`. The Handler is an opaque input. The race in which `getHandler()` is still null when `trackMetricsFor` runs is not modelled.
- `volatile` and `synchronized` on the singleton are not modelled, nor is any concurrency. Listener callbacks are modelled as calls made one at a time.
- Creating the metrics directory (`mkdirs`) and the file (`createNewFile`) is not modelled. Only whether `new FileWriter(file)` succeeds is an input.
- Failures of `append`/`flush` on an open FileWriter are not modelled: an open writer always appends.
- Printing stack traces is not modelled.
- Two writers on one file are two independent sinks. The file truncation the second `FileWriter` causes, and the interleaving of their appends in the shared file, are not modelled.
- `context.getApplicationContext()` is not modelled: the context is taken as given.
- `PackageManager.getApplicationLabel` is modelled as a map lookup, not as a `CharSequence` to be cast.
- Dumper.ChildPath: only the trailing-separator rule of `java.io.File` is modelled, and an empty parent gives `/` then the child, as `File` resolves it. A child that starts with `/` (an app label such as `/x`) gets a second separator in the model, where `File` joins with one. Duplicate or trailing separators inside the child are not collapsed either.
- Window.removeOnFrameMetricsAvailableListener throws on Android when the listener is not registered. Dumper.Detach leaves the list unchanged in that case instead. The dumper never reaches that case, because its map is always empty.
- The commented-out StringBuilder code in `onFrameMetricsAvailable` is not modelled.
- FrameMetrics values are 64-bit longs (`Int64`). `getMetric` itself, and which metric ids a platform reports, are not modelled.
- Formatter.Render: an explicit argument index of 0 (`%0$d`) is treated as a failure. Java's Formatter instead treats it as an ordinary next-argument specifier. Neither format string of the class uses index 0.
- Locale handling beyond `Locale.US` digits, and `%s` on anything other than a string or a long, are not modelled.
