/**
 * FrameMetricsDumper: the process-wide registry that starts and stops frame
 * metrics collection per activity. Android's side is reduced to what the
 * dumper touches: the SDK level, an activity's class simple name and window,
 * the listeners added to that window, the package label lookup, the external
 * storage directory, and the Handler of the dumper's looper thread.
 */
module Dumper {
  import opened Wrappers
  import opened Record
  import opened Writer

  /** Build.VERSION_CODES.N, the first SDK level that delivers frame metrics. */
  const VersionCodeN := 24

  /** DUMPS_SUBDIR, the directory under external storage that holds the metrics files. */
  const DumpsSubdir := "framemetrics"

  /** The label getAppLabel falls back to when the package lookup fails. */
  const UnknownLabel := "Unknown"

  /** The message of the RuntimeException getInstance() throws before initialisation. */
  const NotInstantiatedMessage := "FrameMetricsDumper should be instantiated first with context and variant"

  /** An opaque stand-in for the Handler of the dumper's LooperThread. */
  datatype Handler = Handler(id: nat)

  /** One OnFrameMetricsAvailableListener added to a window, with the Handler it is called on. */
  datatype Registration = Registration(listener: ScreenFrameMetrixWriter, handler: Handler)

  /** The part of an android.view.Window the dumper changes: its frame metrics listeners, in the order added. */
  class Window {
    var registrations: seq<Registration>

    constructor ()
      ensures registrations == []
    {
      registrations := [];
    }
  }

  /** An activity: the simple name of its class and its window. */
  class Activity {
    const simpleName: string
    const window: Window

    constructor (simpleName: string)
      ensures this.simpleName == simpleName
      ensures fresh(window) && window.registrations == []
    {
      this.simpleName := simpleName;
      window := new Window();
    }
  }

  /** How many of the registrations are of this listener. */
  function Count(regs: seq<Registration>, listener: ScreenFrameMetrixWriter): nat {
    if regs == [] then 0
    else (if regs[0].listener == listener then 1 else 0) + Count(regs[1..], listener)
  }

  /** Window.removeOnFrameMetricsAvailableListener: drops the first registration of the listener. */
  function Detach(regs: seq<Registration>, listener: ScreenFrameMetrixWriter): (r: seq<Registration>)
    ensures Count(regs, listener) == 0 ==> r == regs
    ensures Count(regs, listener) > 0 ==> |r| == |regs| - 1 && Count(r, listener) == Count(regs, listener) - 1
    ensures Count(regs, listener) > 0 ==> exists i :: RemovedAt(regs, listener, i, r)
  {
    if regs == [] then []
    else if regs[0].listener == listener then
      assert RemovedAt(regs, listener, 0, regs[1..]);
      regs[1..]
    else
      var rest := Detach(regs[1..], listener);
      if Count(regs, listener) > 0 then
        var j :| RemovedAt(regs[1..], listener, j, rest);
        RemovedAtCons(regs, listener, j, rest);
        [regs[0]] + rest
      else
        [regs[0]] + rest
  }

  /** `r` is `regs` without its entry at `i`, which is the first registration of the listener. */
  predicate RemovedAt(regs: seq<Registration>, listener: ScreenFrameMetrixWriter, i: int, r: seq<Registration>) {
    && 0 <= i < |regs| && regs[i].listener == listener && Count(regs[..i], listener) == 0
    && r == regs[..i] + regs[i + 1..]
  }

  lemma RemovedAtCons(regs: seq<Registration>, listener: ScreenFrameMetrixWriter, j: int, rest: seq<Registration>)
    requires regs != [] && regs[0].listener != listener && RemovedAt(regs[1..], listener, j, rest)
    ensures RemovedAt(regs, listener, j + 1, [regs[0]] + rest)
  {
    assert regs[..j + 1][1..] == regs[1..][..j];
    assert [regs[0]] + rest == regs[..j + 1] + regs[j + 2..];
  }

  /** Removing one listener leaves the registrations of every other listener as they were. */
  lemma {:induction false} DetachKeepsOthers(regs: seq<Registration>, listener: ScreenFrameMetrixWriter, other: ScreenFrameMetrixWriter)
    requires other != listener
    ensures Count(Detach(regs, listener), other) == Count(regs, other)
  {
    if regs != [] && regs[0].listener != listener {
      DetachKeepsOthers(regs[1..], listener, other);
      assert ([regs[0]] + Detach(regs[1..], listener))[1..] == Detach(regs[1..], listener);
    }
  }

  /** Adding a registration adds one to its own listener's count and nothing to any other's. */
  lemma {:induction false} CountAppend(regs: seq<Registration>, reg: Registration, listener: ScreenFrameMetrixWriter)
    ensures Count(regs + [reg], listener) == Count(regs, listener) + (if reg.listener == listener then 1 else 0)
  {
    if regs != [] {
      assert (regs + [reg])[1..] == regs[1..] + [reg];
      CountAppend(regs[1..], reg, listener);
    } else {
      assert [] + [reg] == [reg];
    }
  }

  /** Removing a listener that was added once, last, restores the window's previous listeners. */
  lemma {:induction false} DetachUndoesAttach(regs: seq<Registration>, reg: Registration)
    requires Count(regs, reg.listener) == 0
    ensures Detach(regs + [reg], reg.listener) == regs
  {
    if regs != [] {
      assert (regs + [reg])[1..] == regs[1..] + [reg];
      DetachUndoesAttach(regs[1..], reg);
    }
  }

  /** What the dumper reads through its Context. */
  datatype Context = Context(
    packageName: string,                  // context.getApplicationInfo().packageName
    installedLabels: map<string, string>, // the application label PackageManager reports per installed package
    externalStorageDirectory: string)     // Environment.getExternalStorageDirectory()

  /** getAppLabel: the package's application label, or "Unknown" when the lookup throws NameNotFoundException. */
  function AppLabel(ctx: Context): string {
    if ctx.packageName in ctx.installedLabels then ctx.installedLabels[ctx.packageName] else UnknownLabel
  }

  /** `new File(parent, child).getPath()`: the child under the parent, with one separator between them. */
  function ChildPath(parent: string, child: string): (path: string)
    ensures parent <= path
    ensures |path| > |child| && path[|path| - |child| - 1..] == "/" + child
    ensures |path| == |parent| + |child| + (if parent != [] && parent[|parent| - 1] == '/' then 0 else 1)
  {
    if parent != [] && parent[|parent| - 1] == '/' then
      assert (parent + child)[|parent| - 1..] == [parent[|parent| - 1]] + child;
      parent + child
    else
      assert (parent + "/" + child)[|parent|..] == "/" + child;
      parent + "/" + child
  }

  /** The contract of ChildPath leaves one path: the parent, a separator unless it already ends in one, and the child. */
  lemma ChildPathDetermined(parent: string, child: string, path: string)
    requires parent <= path
    requires |path| > |child| && path[|path| - |child| - 1..] == "/" + child
    requires |path| == |parent| + |child| + (if parent != [] && parent[|parent| - 1] == '/' then 0 else 1)
    ensures path == if parent != [] && parent[|parent| - 1] == '/' then parent + child else parent + "/" + child
  {
    var joined := if parent != [] && parent[|parent| - 1] == '/' then parent + child else parent + "/" + child;
    forall k | 0 <= k < |path|
      ensures path[k] == joined[k]
    {
      if k < |parent| {
        assert path[k] == parent[k];
      } else {
        assert path[k] == path[|path| - |child| - 1..][k - (|path| - |child| - 1)];
      }
    }
  }

  class FrameMetricsDumper {
    const variant: string
    const metricsDirPath: string
    const appLabel: string
    /** The Handler of looperThread, on which every listener is called. */
    const handler: Handler
    var metricsListeners: map<Activity, ScreenFrameMetrixWriter>

    /**
     * The private constructor FrameMetricsDumper(context, variant): resolves the
     * metrics directory, starts the looper thread (whose Handler is given) and
     * looks up the app label. Creating the directory is not modelled.
     */
    constructor (ctx: Context, variant: string, handler: Handler)
      ensures this.variant == variant
      ensures metricsDirPath == ChildPath(ctx.externalStorageDirectory, DumpsSubdir)
      ensures appLabel == AppLabel(ctx)
      ensures ctx.packageName in ctx.installedLabels ==> appLabel == ctx.installedLabels[ctx.packageName]
      ensures ctx.packageName !in ctx.installedLabels ==> appLabel == UnknownLabel
      ensures this.handler == handler
      ensures metricsListeners == map[]
    {
      this.variant := variant;
      metricsDirPath := ChildPath(ctx.externalStorageDirectory, DumpsSubdir);
      appLabel := AppLabel(ctx);
      this.handler := handler;
      metricsListeners := map[];
    }

    /** The metrics file trackMetricsFor opens for an activity. */
    function MetricsFile(activity: Activity): string {
      ChildPath(metricsDirPath, FileName(appLabel, activity.simpleName, variant))
    }

    /**
     * trackMetricsFor: below SDK level N nothing happens. Otherwise the writer
     * registered for the activity is reused, or else a new writer is opened on the
     * activity's metrics file, and that writer is added to the activity's window.
     * The new writer is never put into metricsListeners.
     */
    method TrackMetricsFor(activity: Activity, sdkInt: int, fileOpens: bool)
      modifies activity.window
      ensures metricsListeners == old(metricsListeners)
      ensures sdkInt < VersionCodeN ==> activity.window.registrations == old(activity.window.registrations)
      ensures sdkInt >= VersionCodeN ==>
        var before := old(activity.window.registrations);
        var regs := activity.window.registrations;
        && |regs| == |before| + 1
        && regs[..|before|] == before
        && regs[|before|].handler == handler
        && Count(regs, regs[|before|].listener) == Count(before, regs[|before|].listener) + 1
        && (activity in metricsListeners ==> regs[|before|].listener == metricsListeners[activity])
        && (activity !in metricsListeners ==>
              && fresh(regs[|before|].listener)
              && regs[|before|].listener.file == MetricsFile(activity)
              && regs[|before|].listener.sink == if fileOpens then Open("") else Absent)
    {
      if sdkInt < VersionCodeN {
        return;
      }
      var metricsListener: ScreenFrameMetrixWriter;
      if activity in metricsListeners {
        metricsListener := metricsListeners[activity];
      } else {
        var fileName := FileName(appLabel, activity.simpleName, variant);
        metricsListener := new ScreenFrameMetrixWriter(ChildPath(metricsDirPath, fileName), fileOpens);
      }
      var registration := Registration(metricsListener, handler);
      CountAppend(activity.window.registrations, registration, metricsListener);
      activity.window.registrations := activity.window.registrations + [registration];
    }

    /**
     * endMetricsListeningFor: below SDK level N, or when no writer is registered
     * for the activity, nothing happens. Otherwise that writer is removed from
     * the activity's window, finished, and its entry removed from metricsListeners.
     */
    method EndMetricsListeningFor(activity: Activity, sdkInt: int)
      modifies this, activity.window, if activity in metricsListeners then {metricsListeners[activity]} else {}
      ensures sdkInt < VersionCodeN || activity !in old(metricsListeners) ==>
        && metricsListeners == old(metricsListeners)
        && activity.window.registrations == old(activity.window.registrations)
        && (activity in metricsListeners ==> unchanged(metricsListeners[activity]))
      ensures sdkInt >= VersionCodeN && activity in old(metricsListeners) ==>
        var writer := old(metricsListeners)[activity];
        && activity.window.registrations == Detach(old(activity.window.registrations), writer)
        && writer.sink == Finished(old(writer.sink))
        && metricsListeners == old(metricsListeners) - {activity}
    {
      if sdkInt < VersionCodeN {
        return;
      }
      if activity !in metricsListeners {
        return;
      }
      var metricsListener := metricsListeners[activity];
      activity.window.registrations := Detach(activity.window.registrations, metricsListener);
      metricsListener.Finish();
      metricsListeners := metricsListeners - {activity};
    }
  }

  /** The static INSTANCE field of FrameMetricsDumper and the two getInstance overloads that read it. */
  class Instance {
    var instance: FrameMetricsDumper?

    constructor ()
      ensures instance == null
    {
      instance := null;
    }

    /**
     * getInstance(context, variant): the first call builds the dumper from its
     * arguments; every later call returns that dumper, whatever its arguments.
     */
    method GetInstance(ctx: Context, variant: string, handler: Handler) returns (dumper: FrameMetricsDumper)
      modifies this
      ensures old(instance) != null ==> dumper == old(instance) && instance == old(instance)
      ensures old(instance) == null ==>
        && fresh(dumper) && instance == dumper
        && dumper.variant == variant && dumper.appLabel == AppLabel(ctx) && dumper.handler == handler
        && (ctx.packageName in ctx.installedLabels ==> dumper.appLabel == ctx.installedLabels[ctx.packageName])
        && (ctx.packageName !in ctx.installedLabels ==> dumper.appLabel == UnknownLabel)
        && dumper.metricsDirPath == ChildPath(ctx.externalStorageDirectory, DumpsSubdir)
        && dumper.metricsListeners == map[]
    {
      if instance == null {
        instance := new FrameMetricsDumper(ctx, variant, handler);
      }
      dumper := instance;
    }

    /** getInstance(): the dumper, or the RuntimeException thrown when none was built yet. */
    method GetInitializedInstance() returns (r: Result<FrameMetricsDumper, string>)
      ensures r.Failure? <==> instance == null
      ensures r.Success? ==> r.value == instance
      ensures r.Failure? ==> r.error == NotInstantiatedMessage
    {
      if instance == null {
        return Failure(NotInstantiatedMessage);
      }
      return Success(instance);
    }
  }

  /**
   * Starting twice and then stopping one screen, as the code is written: the
   * window ends up with two listeners, two distinct writers opened on the same
   * file, none of them registered, and stopping detaches and closes nothing.
   */
  method TrackTwiceThenEnd(ctx: Context, variant: string, handler: Handler, screen: string, sdkInt: int, fileOpens: bool)
    returns (registrations: nat, distinctWriters: bool, sameFile: bool, tracked: nat, firstSink: Sink, secondSink: Sink)
    requires sdkInt >= VersionCodeN
    ensures registrations == 2 && distinctWriters && sameFile && tracked == 0
    ensures firstSink == if fileOpens then Open("") else Absent
    ensures secondSink == if fileOpens then Open("") else Absent
  {
    var dumper := new FrameMetricsDumper(ctx, variant, handler);
    var activity := new Activity(screen);
    dumper.TrackMetricsFor(activity, sdkInt, fileOpens);
    dumper.TrackMetricsFor(activity, sdkInt, fileOpens);
    dumper.EndMetricsListeningFor(activity, sdkInt);
    var regs := activity.window.registrations;
    registrations := |regs|;
    distinctWriters := regs[0].listener != regs[1].listener;
    sameFile := regs[0].listener.file == regs[1].listener.file;
    tracked := |dumper.metricsListeners|;
    firstSink := regs[0].listener.sink;
    secondSink := regs[1].listener.sink;
  }

  /** When the package manager does not know the package, every metrics file is named after the label "Unknown". */
  lemma UnknownPackageFileName(ctx: Context, screen: string, variant: string)
    requires ctx.packageName !in ctx.installedLabels
    ensures FileName(AppLabel(ctx), screen, variant) == "Unknown_" + screen + "_" + variant + ".mtx"
  {
    assert AppLabel(ctx) == "Unknown";
    assert "Unknown" + "_" + screen == "Unknown_" + screen;
  }

  /**
   * A dumper built for a package the package manager does not know tracks a
   * screen into framemetrics/Unknown_<screen>_<variant>.mtx.
   */
  method TrackUnknownPackage(ctx: Context, variant: string, handler: Handler, screen: string) returns (file: string)
    requires ctx.packageName !in ctx.installedLabels
    ensures file == ChildPath(ChildPath(ctx.externalStorageDirectory, DumpsSubdir), "Unknown_" + screen + "_" + variant + ".mtx")
  {
    var dumper := new FrameMetricsDumper(ctx, variant, handler);
    var activity := new Activity(screen);
    dumper.TrackMetricsFor(activity, VersionCodeN, true);
    UnknownPackageFileName(ctx, screen, variant);
    file := activity.window.registrations[0].listener.file;
  }

  lemma DemoFile(root: string, appLabel: string, screen: string, variant: string)
    requires root == "/sdcard" && appLabel == "Demo" && screen == "MainScreen" && variant == "debug"
    ensures ChildPath(ChildPath(root, DumpsSubdir), FileName(appLabel, screen, variant))
         == "/sdcard/framemetrics/Demo_MainScreen_debug.mtx"
  {
    assert ChildPath(root, DumpsSubdir) == "/sdcard/framemetrics";
    assert FileName(appLabel, screen, variant) == "Demo_MainScreen_debug.mtx";
    DemoPath(ChildPath(root, DumpsSubdir), FileName(appLabel, screen, variant));
  }

  lemma DemoPath(dir: string, name: string)
    requires dir == "/sdcard/framemetrics" && name == "Demo_MainScreen_debug.mtx"
    ensures ChildPath(dir, name) == "/sdcard/framemetrics/Demo_MainScreen_debug.mtx"
  {
    assert dir[|dir| - 1] == 's';
  }

  lemma DemoContent(sample: Sample)
    requires sample == Sample(10, 2, 3, 1, 4, 5, 6, 7, 9, 0)
    ensures Appended(Open(""), FormatRecord(sample)) == Open("FM:\n10 2 3 1 4 5 6 7 7 0\n")
  {
    ExampleRecord(sample);
    var record := FormatRecord(sample);
    assert "" + record + "\n" == "FM:\n10 2 3 1 4 5 6 7 7 0\n";
  }

  /**
   * App label "Demo", variant "debug", screen "MainScreen", one sample
   * (10, 2, 3, 1, 4, 5, 6, 7, 9, 0) delivered, then tracking ended: the file is
   * named Demo_MainScreen_debug.mtx and holds one record whose ninth number
   * repeats the eighth; the writer is left open.
   */
  method DemoScenario(sample: Sample) returns (file: string, sink: Sink)
    requires sample == Sample(10, 2, 3, 1, 4, 5, 6, 7, 9, 0)
    ensures file == "/sdcard/framemetrics/Demo_MainScreen_debug.mtx"
    ensures sink == Open("FM:\n10 2 3 1 4 5 6 7 7 0\n")
  {
    var ctx := Context("com.example.demo", map["com.example.demo" := "Demo"], "/sdcard");
    var dumper := new FrameMetricsDumper(ctx, "debug", Handler(0));
    var activity := new Activity("MainScreen");
    dumper.TrackMetricsFor(activity, VersionCodeN, true);
    var writer := activity.window.registrations[0].listener;
    writer.OnFrameMetricsAvailable(sample);
    dumper.EndMetricsListeningFor(activity, VersionCodeN);
    DemoFile(ctx.externalStorageDirectory, dumper.appLabel, activity.simpleName, dumper.variant);
    DemoContent(sample);
    file := writer.file;
    sink := writer.sink;
  }

  /**
   * getInstance() throws before initialisation; afterwards the first
   * getInstance(context, variant) fixes the dumper and its variant for good.
   */
  method FirstCallWins(ctx: Context, first: string, second: string, handler: Handler)
    returns (failedBefore: bool, same: bool, variant: string)
    ensures failedBefore && same && variant == first
  {
    var statics := new Instance();
    var before := statics.GetInitializedInstance();
    failedBefore := before.Failure?;
    var a := statics.GetInstance(ctx, first, handler);
    var b := statics.GetInstance(ctx, second, handler);
    var after := statics.GetInitializedInstance();
    same := a == b && after == Success(a);
    variant := b.variant;
  }
}
