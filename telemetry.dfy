/** The telemetry sink selector (`TelemetryLogger` in telemetry.py): a
    comma-separated mode string decides which handlers are attached to the
    three loggers of a service, one per channel (logs, metrics, traces).

    The specification is a set of functions on handler lists
    (`Configure`, built from `Fold` and `Step`); the `TelemetryLogger`
    class does the same work step by step on three `Logger` objects and
    its constructor is proved to leave exactly `Configure`'s lists behind.
    What the cloud services and the logger hierarchy answer is an input
    (`Platform`). */
module Telemetry {
  import opened Basics
  import opened Text
  import CloudWatch

  /** The three channels, in the order the source walks its loggers. */
  datatype Channel = Logs | Metrics | Traces

  const Channels: seq<Channel> := [Logs, Metrics, Traces]

  function Index(c: Channel): nat
  {
    match c
    case Logs => 0
    case Metrics => 1
    case Traces => 2
  }

  /** The data-type part of a CloudWatch stream name. */
  function DataType(c: Channel): string
  {
    match c
    case Logs => "logs"
    case Metrics => "metrics"
    case Traces => "traces"
  }

  /** The file a channel is written to by the local backend. */
  function FileName(c: Channel): string
  {
    match c
    case Logs => "application.log"
    case Metrics => "metrics.log"
    case Traces => "traces.log"
  }

  /** `logging.INFO` and `logging.ERROR`. */
  const INFO: int := 20
  const ERROR: int := 40

  /** Rotation bounds of the local files: 10 MiB per file, five backups. */
  const MaxBytes: int := 10 * 1024 * 1024
  const BackupCount: int := 5

  /** A handler attached to a logger, identified by where it writes. */
  datatype HandlerKind =
    | Console                                  // a stream handler on standard output
    | RotatingFile(path: string, maxBytes: int, backupCount: int)
    | CloudWatchStream(logGroup: string, logStream: string)

  /** One sequence per channel. */
  datatype PerChannel<T> = PerChannel(logs: seq<T>, metrics: seq<T>, traces: seq<T>)
  {
    function Get(c: Channel): seq<T>
    {
      match c
      case Logs => logs
      case Metrics => metrics
      case Traces => traces
    }

    function Append(c: Channel, x: T): PerChannel<T>
    {
      match c
      case Logs => this.(logs := logs + [x])
      case Metrics => this.(metrics := metrics + [x])
      case Traces => this.(traces := traces + [x])
    }
  }

  type Handlers = PerChannel<HandlerKind>

  const NoHandlers: Handlers := PerChannel([], [], [])

  /** The backend a mode selects; anything else is unknown and skipped. */
  datatype Mode = ConsoleMode | LocalMode | CloudWatchMode | AzureMode | UnknownMode(name: string)

  /** What the constructor writes to standard error. */
  datatype Notice =
    | UnknownModeWarning(mode: string)
    | CloudWatchFallback
    | LogExporterFailed
    | AzureFallback

  /** The identity of the service a logger belongs to. */
  datatype Settings = Settings(serviceName: string, envName: string, appName: string)

  /** What the Azure setup meets for one `azure_monitor` mode: the error
      `configure_azure_monitor` raises, if any; whether setting up the log
      exporter raises; whether HTTP instrumentation raises; and the channels whose ancestor loggers already have handlers,
      which is what `hasHandlers()` sees beyond the logger itself. */
  datatype AzureProbe = AzureProbe(
    monitorError: Option<string>,
    exporterRaises: bool,
    instrumentationRaises: bool,
    ancestorsHandled: set<Channel>)

  /** The world the constructor runs in. `aws(i, c)` is what AWS answers
      while the handler for channel `c` of the `i`-th mode is built, and
      `azure(i)` what the `i`-th mode's Azure setup meets. */
  datatype Platform = Platform(
    environ: Environ,
    hasBoto3: bool,
    hasAzure: bool,
    rootLogsUsable: bool,     // whether `/logs` exists or can be created
    hostname: string,
    today: string,            // the date as `%Y/%m/%d`
    aws: (nat, Channel) -> CloudWatch.Probe,
    azure: nat -> AzureProbe)

  function SettingsFor(serviceName: string, environ: Environ): Settings
  {
    Settings(serviceName, Getenv(environ, "ENV_NAME", "development"),
             Getenv(environ, "APP_NAME", "useless-calculator"))
  }

  /** The mode string: the argument unless it is absent or empty, then
      `TELEMETRY_MODE`, then `console`. */
  function EffectiveMode(arg: Option<string>, environ: Environ): string
  {
    if arg.Some? && arg.value != "" then arg.value
    else Getenv(environ, "TELEMETRY_MODE", "console")
  }

  // ---------------------------------------------------------------------
  // Mode parsing and dispatch

  /** The mode list: the string split at every comma, each piece stripped. */
  function ParseModes(telemetryMode: string): (r: seq<string>)
    ensures |r| == Count(telemetryMode, ',') + 1
    ensures forall i :: 0 <= i < |r| ==> ',' !in r[i]
  {
    var pieces := Split(telemetryMode, ',');
    seq(|pieces|, i requires 0 <= i < |pieces| => Strip(pieces[i]))
  }

  /** A mode is matched after lower-casing. */
  function Classify(mode: string): Mode
  {
    var m := Lower(mode);
    if m == "console" then ConsoleMode
    else if m == "local" then LocalMode
    else if m == "aws_cloudwatch" then CloudWatchMode
    else if m == "azure_monitor" then AzureMode
    else UnknownMode(m)
  }

  /** Comma-joined pieces are parsed back one mode per piece, in order, each
      stripped of its surrounding whitespace. */
  lemma ParseModesOfJoin(pieces: seq<string>)
    requires |pieces| >= 1
    requires forall i :: 0 <= i < |pieces| ==> ',' !in pieces[i]
    ensures |ParseModes(Join(pieces, ','))| == |pieces|
    ensures forall i :: 0 <= i < |pieces| ==> ParseModes(Join(pieces, ','))[i] == Strip(pieces[i])
  {
    SplitJoin(pieces, ',');
  }

  /** A mode list that is already stripped survives joining and parsing. */
  lemma ModesRoundTrip(modes: seq<string>)
    requires |modes| >= 1
    requires forall i :: 0 <= i < |modes| ==> ',' !in modes[i] && Strip(modes[i]) == modes[i]
    ensures ParseModes(Join(modes, ',')) == modes
  {
    ParseModesOfJoin(modes);
  }

  // ---------------------------------------------------------------------
  // The specification of the constructor, on handler lists

  /** `per[j]` appended to the `j`-th channel, for every `j < k`. */
  function AddFirst(h: Handlers, per: seq<HandlerKind>, k: nat): Handlers
    requires k <= 3 <= |per|
  {
    if k == 0 then h else AddFirst(h, per, k - 1).Append(Channels[k - 1], per[k - 1])
  }

  const ConsoleHandlers: seq<HandlerKind> := [Console, Console, Console]

  function ConsoleStep(h: Handlers): Handlers
  {
    AddFirst(h, ConsoleHandlers, 3)
  }

  /** `<base>/<env>/<app>/<service>`, where the base is `/logs` when usable
      and `logs` (from `./logs`) otherwise. */
  function LocalDir(s: Settings, p: Platform): string
  {
    var base := if p.rootLogsUsable then "/logs" else "logs";
    JoinPath(JoinPath(JoinPath(base, s.envName), s.appName), s.serviceName)
  }

  function LocalFile(s: Settings, p: Platform, c: Channel): HandlerKind
  {
    RotatingFile(JoinPath(LocalDir(s, p), FileName(c)), MaxBytes, BackupCount)
  }

  function LocalHandlers(s: Settings, p: Platform): seq<HandlerKind>
  {
    [LocalFile(s, p, Logs), LocalFile(s, p, Metrics), LocalFile(s, p, Traces)]
  }

  function LocalStep(h: Handlers, s: Settings, p: Platform): Handlers
  {
    AddFirst(h, LocalHandlers(s, p), 3)
  }

  function Stream(s: Settings, p: Platform, c: Channel): HandlerKind
  {
    CloudWatchStream(
      CloudWatch.LogGroup(Getenv(p.environ, "ENV_NAME", "development"), s.serviceName),
      CloudWatch.LogStream(DataType(c), p.hostname, p.today))
  }

  function StreamHandlers(s: Settings, p: Platform): seq<HandlerKind>
  {
    [Stream(s, p, Logs), Stream(s, p, Metrics), Stream(s, p, Traces)]
  }

  /** The first channel, from the `k`-th on, whose CloudWatch handler fails
      to construct for the `i`-th mode; 3 when none does. */
  function FirstRaise(p: Platform, i: nat, k: nat): (r: nat)
    requires k <= 3
    ensures k <= r <= 3
    decreases 3 - k
  {
    if k == 3 then 3
    else if CloudWatch.ConstructionRaises(p.hasBoto3, p.aws(i, Channels[k])) then k
    else FirstRaise(p, i, k + 1)
  }

  /** Handlers built before the failing one stay attached; a failure then
      adds a console handler to every channel. */
  function CloudWatchStep(h: Handlers, s: Settings, p: Platform, i: nat): Handlers
  {
    var k := FirstRaise(p, i, 0);
    var attached := AddFirst(h, StreamHandlers(s, p), k);
    if k < 3 then ConsoleStep(attached) else attached
  }

  /** Whether the Azure setup gets as far as the log exporter: the
      libraries are there, the connection string is set and not empty, and
      `configure_azure_monitor` raised nothing but a `logging_formatter`
      error, which it ignores. */
  predicate ExporterReached(p: Platform, probe: AzureProbe)
  {
    var cs := Lookup(p.environ, "APPLICATIONINSIGHTS_CONNECTION_STRING");
    && p.hasAzure
    && cs.Some? && cs.value != ""
    && !(probe.monitorError.Some? && !Contains(probe.monitorError.value, "logging_formatter"))
  }

  /** Whether the Azure setup raises: it stops before the log exporter, or
      instrumentation fails. A log-exporter failure is swallowed. */
  predicate AzureRaises(p: Platform, probe: AzureProbe)
  {
    !ExporterReached(p, probe) || probe.instrumentationRaises
  }

  /** The line a swallowed log-exporter failure writes to standard error. */
  function ExporterNotice(p: Platform, probe: AzureProbe): seq<Notice>
  {
    if ExporterReached(p, probe) && probe.exporterRaises then [LogExporterFailed] else []
  }

  /** What the Azure setup writes to standard error: the log-exporter
      failure, if reached, then the fallback notice if the setup raised. */
  function AzureNotices(p: Platform, probe: AzureProbe): seq<Notice>
  {
    ExporterNotice(p, probe) + (if AzureRaises(p, probe) then [AzureFallback] else [])
  }

  /** The fallback loggers of a successful Azure setup: a console handler on
      each of the first `k` channels that has no handler of its own and no
      ancestor with one. */
  function AttachFallback(h: Handlers, anc: set<Channel>, k: nat): Handlers
    requires k <= 3
  {
    if k == 0 then h
    else
      var h' := AttachFallback(h, anc, k - 1);
      var c := Channels[k - 1];
      if h'.Get(c) == [] && c !in anc then h'.Append(c, Console) else h'
  }

  function AzureStep(h: Handlers, p: Platform, i: nat): Handlers
  {
    var probe := p.azure(i);
    if AzureRaises(p, probe) then ConsoleStep(h)
    else AttachFallback(h, probe.ancestorsHandled, 3)
  }

  /** What the `i`-th mode does to the handler lists. */
  function Step(h: Handlers, s: Settings, p: Platform, mode: string, i: nat): Handlers
  {
    match Classify(mode)
    case ConsoleMode => ConsoleStep(h)
    case LocalMode => LocalStep(h, s, p)
    case CloudWatchMode => CloudWatchStep(h, s, p, i)
    case AzureMode => AzureStep(h, p, i)
    case UnknownMode(_) => h
  }

  /** The handler lists after the first `n` modes, starting from none. */
  function Fold(s: Settings, p: Platform, modes: seq<string>, n: nat): Handlers
    requires n <= |modes|
  {
    if n == 0 then NoHandlers else Step(Fold(s, p, modes, n - 1), s, p, modes[n - 1], n - 1)
  }

  /** The handler lists a construction leaves: every mode in order, then a
      console handler on every channel if the logs channel is still empty. */
  function Configure(s: Settings, p: Platform, modes: seq<string>): Handlers
  {
    var h := Fold(s, p, modes, |modes|);
    if h.logs == [] then ConsoleStep(h) else h
  }

  /** What the `i`-th mode writes to standard error. */
  function StepNotices(p: Platform, mode: string, i: nat): seq<Notice>
  {
    match Classify(mode)
    case CloudWatchMode => if FirstRaise(p, i, 0) < 3 then [CloudWatchFallback] else []
    case AzureMode => AzureNotices(p, p.azure(i))
    case UnknownMode(m) => [UnknownModeWarning(m)]
    case _ => []
  }

  function NoticesOf(p: Platform, modes: seq<string>, n: nat): seq<Notice>
    requires n <= |modes|
  {
    if n == 0 then [] else NoticesOf(p, modes, n - 1) + StepNotices(p, modes[n - 1], n - 1)
  }

  // ---------------------------------------------------------------------
  // Properties of the specification

  /** Appending to the first `k` channels touches each channel at most once,
      at its end. */
  lemma {:induction false} AddFirstGet(h: Handlers, per: seq<HandlerKind>, k: nat, c: Channel)
    requires k <= 3 <= |per|
    ensures AddFirst(h, per, k).Get(c) == h.Get(c) + (if Index(c) < k then [per[Index(c)]] else [])
  {
    if k > 0 {
      AddFirstGet(h, per, k - 1, c);
    }
  }

  lemma {:induction false} AttachFallbackGet(h: Handlers, anc: set<Channel>, k: nat, c: Channel)
    requires k <= 3
    ensures AttachFallback(h, anc, k).Get(c)
         == h.Get(c) + (if Index(c) < k && h.Get(c) == [] && c !in anc then [Console] else [])
  {
    if k > 0 {
      AttachFallbackGet(h, anc, k - 1, c);
      var c' := Channels[k - 1];
      AttachFallbackGet(h, anc, k - 1, c');
    }
  }

  /** `console` appends exactly one console handler to each channel. */
  lemma ConsoleAddsOneEach(h: Handlers, s: Settings, p: Platform, mode: string, i: nat, c: Channel)
    requires Classify(mode) == ConsoleMode
    ensures Step(h, s, p, mode, i).Get(c) == h.Get(c) + [Console]
  {
    AddFirstGet(h, ConsoleHandlers, 3, c);
  }

  /** `local` appends to each channel its own rotating file under
      `<base>/<env>/<app>/<service>`. */
  lemma LocalAddsOneFileEach(h: Handlers, s: Settings, p: Platform, mode: string, i: nat, c: Channel)
    requires Classify(mode) == LocalMode
    ensures Step(h, s, p, mode, i).Get(c) == h.Get(c) + [LocalFile(s, p, c)]
    ensures LocalFile(s, p, c) == RotatingFile(JoinPath(LocalDir(s, p), FileName(c)), 10485760, 5)
  {
    AddFirstGet(h, LocalHandlers(s, p), 3, c);
    assert LocalHandlers(s, p)[Index(c)] == LocalFile(s, p, c);
  }

  /** An unrecognised mode leaves every channel as it was. */
  lemma UnknownModeAddsNothing(h: Handlers, s: Settings, p: Platform, mode: string, i: nat)
    requires Classify(mode).UnknownMode?
    ensures Step(h, s, p, mode, i) == h
    ensures StepNotices(p, mode, i) == [UnknownModeWarning(Lower(mode))]
  {
  }

  /** A CloudWatch setup that succeeds attaches one stream per channel,
      named after the channel's data type. */
  lemma CloudWatchSuccess(h: Handlers, s: Settings, p: Platform, mode: string, i: nat, c: Channel)
    requires Classify(mode) == CloudWatchMode
    requires forall k :: 0 <= k < 3 ==> !CloudWatch.ConstructionRaises(p.hasBoto3, p.aws(i, Channels[k]))
    ensures Step(h, s, p, mode, i).Get(c) == h.Get(c) + [Stream(s, p, c)]
    ensures StepNotices(p, mode, i) == []
  {
    assert FirstRaise(p, i, 2) == 3;
    AddFirstGet(h, StreamHandlers(s, p), 3, c);
  }

  /** A CloudWatch failure while building the `k`-th handler does not
      propagate: the handlers built before it stay attached and every
      channel then gets a console handler. */
  lemma CloudWatchFailureKeepsEarlierHandlers(h: Handlers, s: Settings, p: Platform, mode: string,
                                              i: nat, k: nat, c: Channel)
    requires Classify(mode) == CloudWatchMode
    requires k < 3 && CloudWatch.ConstructionRaises(p.hasBoto3, p.aws(i, Channels[k]))
    requires forall j :: 0 <= j < k ==> !CloudWatch.ConstructionRaises(p.hasBoto3, p.aws(i, Channels[j]))
    ensures Step(h, s, p, mode, i).Get(c)
         == h.Get(c) + (if Index(c) < k then [Stream(s, p, c)] else []) + [Console]
    ensures StepNotices(p, mode, i) == [CloudWatchFallback]
  {
    FirstRaiseFinds(p, i, k, 0);
    var attached := AddFirst(h, StreamHandlers(s, p), k);
    AddFirstGet(h, StreamHandlers(s, p), k, c);
    AddFirstGet(attached, ConsoleHandlers, 3, c);
  }

  lemma {:induction false} FirstRaiseFinds(p: Platform, i: nat, k: nat, from: nat)
    requires from <= k < 3 && CloudWatch.ConstructionRaises(p.hasBoto3, p.aws(i, Channels[k]))
    requires forall j :: from <= j < k ==> !CloudWatch.ConstructionRaises(p.hasBoto3, p.aws(i, Channels[j]))
    ensures FirstRaise(p, i, from) == k
    decreases k - from
  {
    if from < k {
      FirstRaiseFinds(p, i, k, from + 1);
    }
  }

  /** A failing Azure setup does not propagate: every channel gets a console
      handler instead. */
  lemma AzureFailureFallsBack(h: Handlers, s: Settings, p: Platform, mode: string, i: nat, c: Channel)
    requires Classify(mode) == AzureMode && AzureRaises(p, p.azure(i))
    ensures Step(h, s, p, mode, i).Get(c) == h.Get(c) + [Console]
    ensures StepNotices(p, mode, i) == ExporterNotice(p, p.azure(i)) + [AzureFallback]
    ensures !ExporterReached(p, p.azure(i)) ==> StepNotices(p, mode, i) == [AzureFallback]
  {
    AddFirstGet(h, ConsoleHandlers, 3, c);
  }

  /** A successful Azure setup adds a console handler exactly to the
      channels that have no handler themselves and no ancestor with one. */
  lemma AzureSuccessAttachesFallbacks(h: Handlers, s: Settings, p: Platform, mode: string, i: nat, c: Channel)
    requires Classify(mode) == AzureMode && !AzureRaises(p, p.azure(i))
    ensures Step(h, s, p, mode, i).Get(c)
         == h.Get(c) + (if h.Get(c) == [] && c !in p.azure(i).ancestorsHandled then [Console] else [])
    ensures StepNotices(p, mode, i) == (if p.azure(i).exporterRaises then [LogExporterFailed] else [])
  {
    AttachFallbackGet(h, p.azure(i).ancestorsHandled, 3, c);
  }

  /** A failing log exporter does not stop the Azure setup: with working
      instrumentation the fallback loggers are still attached, and the only
      line on standard error is the exporter's. */
  lemma ExporterFailureSwallowed(h: Handlers, s: Settings, p: Platform, mode: string, i: nat)
    requires Classify(mode) == AzureMode && ExporterReached(p, p.azure(i))
    requires p.azure(i).exporterRaises && !p.azure(i).instrumentationRaises
    ensures !AzureRaises(p, p.azure(i))
    ensures Step(h, s, p, mode, i) == AttachFallback(h, p.azure(i).ancestorsHandled, 3)
    ensures StepNotices(p, mode, i) == [LogExporterFailed]
  {
  }

  /** No mode removes a handler: every channel's list only grows at its end. */
  lemma StepExtends(h: Handlers, s: Settings, p: Platform, mode: string, i: nat, c: Channel)
    ensures h.Get(c) <= Step(h, s, p, mode, i).Get(c)
  {
    match Classify(mode)
    case ConsoleMode => ConsoleAddsOneEach(h, s, p, mode, i, c);
    case LocalMode => LocalAddsOneFileEach(h, s, p, mode, i, c);
    case CloudWatchMode =>
      var k := FirstRaise(p, i, 0);
      var attached := AddFirst(h, StreamHandlers(s, p), k);
      AddFirstGet(h, StreamHandlers(s, p), k, c);
      AddFirstGet(attached, ConsoleHandlers, 3, c);
    case AzureMode =>
      AddFirstGet(h, ConsoleHandlers, 3, c);
      AttachFallbackGet(h, p.azure(i).ancestorsHandled, 3, c);
    case UnknownMode(_) =>
  }

  /** Handlers attached by earlier modes stay attached through later ones. */
  lemma {:induction false} FoldExtends(s: Settings, p: Platform, modes: seq<string>, n: nat, m: nat, c: Channel)
    requires n <= m <= |modes|
    ensures Fold(s, p, modes, n).Get(c) <= Fold(s, p, modes, m).Get(c)
    decreases m - n
  {
    if n < m {
      FoldExtends(s, p, modes, n, m - 1, c);
      FoldStepExtends(s, p, modes, m, c);
      PrefixTransitive(Fold(s, p, modes, n).Get(c), Fold(s, p, modes, m - 1).Get(c), Fold(s, p, modes, m).Get(c));
    }
  }

  /** One more mode is one more step, with its notices after the earlier
      ones. */
  lemma FoldNext(s: Settings, p: Platform, modes: seq<string>, n: nat)
    requires n < |modes|
    ensures Fold(s, p, modes, n + 1) == Step(Fold(s, p, modes, n), s, p, modes[n], n)
    ensures NoticesOf(p, modes, n + 1) == NoticesOf(p, modes, n) + StepNotices(p, modes[n], n)
  {
  }

  lemma FoldStepExtends(s: Settings, p: Platform, modes: seq<string>, m: nat, c: Channel)
    requires 0 < m <= |modes|
    ensures Fold(s, p, modes, m - 1).Get(c) <= Fold(s, p, modes, m).Get(c)
  {
    StepExtends(Fold(s, p, modes, m - 1), s, p, modes[m - 1], m - 1, c);
  }

  lemma PrefixTransitive<T>(a: seq<T>, b: seq<T>, d: seq<T>)
    requires a <= b && b <= d
    ensures a <= d
  {
    assert a == b[..|a|];
    assert b[..|a|] == d[..|a|];
  }

  /** After construction the logs channel is never empty. */
  lemma LogsNeverEmpty(s: Settings, p: Platform, modes: seq<string>)
    ensures Configure(s, p, modes).logs != []
  {
    var h := Fold(s, p, modes, |modes|);
    if h.logs == [] {
      AddFirstGet(h, ConsoleHandlers, 3, Logs);
    }
  }

  /** The final fallback looks at the logs channel only: when some mode
      attached a logs handler nothing more is added, otherwise every channel
      gets a console handler, whatever the other channels already hold. */
  lemma FinalFallback(s: Settings, p: Platform, modes: seq<string>, c: Channel)
    ensures Fold(s, p, modes, |modes|).logs != [] ==> Configure(s, p, modes) == Fold(s, p, modes, |modes|)
    ensures Fold(s, p, modes, |modes|).logs == [] ==>
              Configure(s, p, modes).Get(c) == Fold(s, p, modes, |modes|).Get(c) + [Console]
  {
    AddFirstGet(Fold(s, p, modes, |modes|), ConsoleHandlers, 3, c);
  }

  /** Modes that are all unrecognised attach nothing themselves ... */
  lemma {:induction false} UnknownModesAttachNothing(s: Settings, p: Platform, modes: seq<string>, n: nat)
    requires n <= |modes|
    requires forall i :: 0 <= i < |modes| ==> Classify(modes[i]).UnknownMode?
    ensures Fold(s, p, modes, n) == NoHandlers
  {
    if n > 0 {
      UnknownModesAttachNothing(s, p, modes, n - 1);
    }
  }

  /** ... so the result is exactly one console handler per channel. */
  lemma OnlyUnknownModesGiveOneConsoleEach(s: Settings, p: Platform, modes: seq<string>)
    requires forall i :: 0 <= i < |modes| ==> Classify(modes[i]).UnknownMode?
    ensures Configure(s, p, modes) == PerChannel([Console], [Console], [Console])
  {
    UnknownModesAttachNothing(s, p, modes, |modes|);
  }

  /** An empty mode string behaves as an unrecognised one: it parses to a
      single empty mode and ends with one console handler per channel. */
  lemma EmptyModeStringGivesOneConsoleEach(s: Settings, p: Platform)
    ensures ParseModes("") == [""]
    ensures Configure(s, p, ParseModes("")) == PerChannel([Console], [Console], [Console])
  {
    assert Classify("") == UnknownMode("");
    OnlyUnknownModesGiveOneConsoleEach(s, p, [""]);
  }

  lemma {:induction false} SameChannels<T>(a: PerChannel<T>, b: PerChannel<T>)
    requires forall c :: a.Get(c) == b.Get(c)
    ensures a == b
  {
    assert a.Get(Logs) == b.Get(Logs);
    assert a.Get(Metrics) == b.Get(Metrics);
    assert a.Get(Traces) == b.Get(Traces);
  }

  /** Two comma-separated modes parse to the two stripped pieces. */
  lemma ParseTwoModes(a: string, b: string)
    requires ',' !in a && ',' !in b
    ensures ParseModes(a + [','] + b) == [Strip(a), Strip(b)]
  {
    assert Join([a, b], ',') == a + [','] + b;
    ParseModesOfJoin([a, b]);
  }

  /** Matching ignores ASCII case: `Console` is the console mode and
      `LOCAL` the local one. */
  lemma ClassifyMixedCase()
    ensures Classify("Console") == ConsoleMode && Classify("LOCAL") == LocalMode
  {
    LowerConsole();
    LowerLocal();
  }

  lemma LowerConsole()
    ensures Lower("Console") == "console"
  {
  }

  lemma LowerLocal()
    ensures Lower("LOCAL") == "local"
  {
  }

  /** Padding around a mode is stripped: `" Console "` is `Console`. */
  lemma StripPaddedConsole()
    ensures Strip(" Console ") == "Console"
  {
    assert " Console " == " " + "Console" + " ";
    StripPadded(" ", "Console", " ");
  }

  /** A console mode followed by a local mode: each channel holds a console
      handler, then its own file. */
  lemma ConsoleThenLocal(s: Settings, p: Platform, modes: seq<string>)
    requires |modes| == 2 && Classify(modes[0]) == ConsoleMode && Classify(modes[1]) == LocalMode
    ensures Configure(s, p, modes)
         == PerChannel([Console, LocalFile(s, p, Logs)],
                       [Console, LocalFile(s, p, Metrics)],
                       [Console, LocalFile(s, p, Traces)])
  {
    var h1 := Fold(s, p, modes, 1);
    var h2 := Fold(s, p, modes, 2);
    FoldNext(s, p, modes, 0);
    FoldNext(s, p, modes, 1);
    forall c ensures h2.Get(c) == [Console, LocalFile(s, p, c)] {
      ConsoleAddsOneEach(NoHandlers, s, p, modes[0], 0, c);
      LocalAddsOneFileEach(h1, s, p, modes[1], 1, c);
      assert NoHandlers.Get(c) == [];
    }
    SameChannels(h2, PerChannel([Console, LocalFile(s, p, Logs)],
                                [Console, LocalFile(s, p, Metrics)],
                                [Console, LocalFile(s, p, Traces)]));
  }

  /** Modes whose stripped forms are `Console` and `LOCAL`, as in
      `" Console ,LOCAL"` (see `StripPaddedConsole` and `StripLocal`),
      select the console backend, then the local one. */
  lemma MixedCaseModesInOrder(s: Settings, p: Platform, a: string, b: string)
    requires ',' !in a && ',' !in b
    requires Strip(a) == "Console" && Strip(b) == "LOCAL"
    ensures Configure(s, p, ParseModes(a + [','] + b))
         == PerChannel([Console, LocalFile(s, p, Logs)],
                       [Console, LocalFile(s, p, Metrics)],
                       [Console, LocalFile(s, p, Traces)])
  {
    ClassifyMixedCase();
    ConsoleModeThenLocalMode(s, p, a, b);
  }

  /** `LOCAL` strips to itself. */
  lemma StripLocal()
    ensures Strip("LOCAL") == "LOCAL"
  {
    var b := "LOCAL";
    StripWord(b);
  }

  /** A console mode, a comma and a local mode: each channel holds a console
      handler, then its own file. */
  lemma ConsoleModeThenLocalMode(s: Settings, p: Platform, a: string, b: string)
    requires ',' !in a && ',' !in b
    requires Classify(Strip(a)) == ConsoleMode && Classify(Strip(b)) == LocalMode
    ensures Configure(s, p, ParseModes(a + [','] + b))
         == PerChannel([Console, LocalFile(s, p, Logs)],
                       [Console, LocalFile(s, p, Metrics)],
                       [Console, LocalFile(s, p, Traces)])
  {
    ParseTwoModes(a, b);
    ConsoleThenLocal(s, p, ParseModes(a + [','] + b));
  }

  /** Two console modes: two console handlers per channel. */
  lemma TwoConsoleModes(s: Settings, p: Platform, modes: seq<string>)
    requires |modes| == 2 && Classify(modes[0]) == ConsoleMode && Classify(modes[1]) == ConsoleMode
    ensures Configure(s, p, modes) == PerChannel([Console, Console], [Console, Console], [Console, Console])
  {
    var h1 := Fold(s, p, modes, 1);
    var h2 := Fold(s, p, modes, 2);
    FoldNext(s, p, modes, 0);
    FoldNext(s, p, modes, 1);
    forall c ensures h2.Get(c) == [Console, Console] {
      assert NoHandlers.Get(c) == [];
      ConsoleAddsOneEach(NoHandlers, s, p, modes[0], 0, c);
      ConsoleAddsOneEach(h1, s, p, modes[1], 1, c);
    }
    SameChannels(h2, PerChannel([Console, Console], [Console, Console], [Console, Console]));
  }

  /** A repeated mode is not de-duplicated: a console mode given twice
      gives two console handlers per channel. */
  lemma RepeatedModeNotDeduplicated(s: Settings, p: Platform, m: string)
    requires ',' !in m && Classify(Strip(m)) == ConsoleMode
    ensures Configure(s, p, ParseModes(m + [','] + m))
         == PerChannel([Console, Console], [Console, Console], [Console, Console])
  {
    ParseTwoModes(m, m);
    TwoConsoleModes(s, p, ParseModes(m + [','] + m));
  }

  /** `"console,console"` gives two console handlers per channel. */
  lemma RepeatedConsoleGivesTwoEach(s: Settings, p: Platform, m: string)
    requires m == "console"
    ensures Configure(s, p, ParseModes(m + [','] + m))
         == PerChannel([Console, Console], [Console, Console], [Console, Console])
  {
    assert ',' !in m;
    assert Classify(Strip(m)) == ConsoleMode by {
      StripWord(m);
      ClassifyConsole();
    }
    RepeatedModeNotDeduplicated(s, p, m);
  }

  lemma ClassifyConsole()
    ensures Classify("console") == ConsoleMode
  {
    LowerLowercase();
  }

  lemma LowerLowercase()
    ensures Lower("console") == "console"
  {
  }

  // ---------------------------------------------------------------------
  // Structured records

  const IdentityKeys: set<string> := {"env_name", "app_name", "service_name", "timestamp"}

  /** The metrics record: every caller key, plus the identity fields, which
      win over caller keys of the same name. */
  function MetricsRecord(metrics: map<string, Json>, s: Settings, timestamp: string): (r: map<string, Json>)
    ensures r.Keys == metrics.Keys + IdentityKeys
    ensures r["env_name"] == JString(s.envName) && r["app_name"] == JString(s.appName)
    ensures r["service_name"] == JString(s.serviceName) && r["timestamp"] == JString(timestamp)
    ensures forall k :: k in metrics && k !in IdentityKeys ==> r[k] == metrics[k]
  {
    metrics + map["env_name" := JString(s.envName), "app_name" := JString(s.appName),
                  "service_name" := JString(s.serviceName), "timestamp" := JString(timestamp)]
  }

  /** Building a metrics record from a metrics record changes nothing. */
  lemma MetricsRecordIdempotent(metrics: map<string, Json>, s: Settings, timestamp: string)
    ensures MetricsRecord(MetricsRecord(metrics, s, timestamp), s, timestamp) == MetricsRecord(metrics, s, timestamp)
  {
    var r := MetricsRecord(metrics, s, timestamp);
    var r2 := MetricsRecord(r, s, timestamp);
    assert forall k :: k in r2 ==> r2[k] == r[k];
  }

  const TraceKeys: set<string> :=
    {"trace_id", "span_id", "operation", "duration_ms", "service", "env_name", "app_name", "timestamp", "metadata"}

  /** The trace record; absent (or empty) metadata is written as `{}`. */
  function TraceRecord(traceId: string, spanId: string, operation: string, durationMs: real,
                       metadata: Option<map<string, Json>>, s: Settings, timestamp: string): (r: map<string, Json>)
    ensures r.Keys == TraceKeys
    ensures r["trace_id"] == JString(traceId) && r["span_id"] == JString(spanId)
    ensures r["operation"] == JString(operation) && r["duration_ms"] == JFloat(durationMs)
    ensures r["service"] == JString(s.serviceName) && r["env_name"] == JString(s.envName)
    ensures r["app_name"] == JString(s.appName) && r["timestamp"] == JString(timestamp)
    ensures r["metadata"] == JObject(if metadata.Some? then metadata.value else map[])
  {
    map["trace_id" := JString(traceId), "span_id" := JString(spanId),
        "operation" := JString(operation), "duration_ms" := JFloat(durationMs),
        "service" := JString(s.serviceName), "env_name" := JString(s.envName),
        "app_name" := JString(s.appName), "timestamp" := JString(timestamp),
        "metadata" := JObject(if metadata.Some? && metadata.value != map[] then metadata.value else map[])]
  }

  /** Leaving metadata out and passing `{}` give the same record. */
  lemma TraceMetadataDefaultsToEmpty(traceId: string, spanId: string, operation: string, durationMs: real,
                                     s: Settings, timestamp: string)
    ensures TraceRecord(traceId, spanId, operation, durationMs, None, s, timestamp)
         == TraceRecord(traceId, spanId, operation, durationMs, Some(map[]), s, timestamp)
  {
  }

  const ErrorKeys: set<string> :=
    {"error_type", "error_message", "traceback", "service", "env_name", "app_name", "timestamp", "context"}

  /** The error record; absent (or empty) context is written as `{}`. */
  function ErrorRecord(errorType: string, errorMessage: string, traceback: string,
                       context: Option<map<string, Json>>, s: Settings, timestamp: string): (r: map<string, Json>)
    ensures r.Keys == ErrorKeys
    ensures r["error_type"] == JString(errorType) && r["error_message"] == JString(errorMessage)
    ensures r["traceback"] == JString(traceback) && r["service"] == JString(s.serviceName)
    ensures r["env_name"] == JString(s.envName) && r["app_name"] == JString(s.appName)
    ensures r["timestamp"] == JString(timestamp)
    ensures r["context"] == JObject(if context.Some? then context.value else map[])
  {
    map["error_type" := JString(errorType), "error_message" := JString(errorMessage),
        "traceback" := JString(traceback), "service" := JString(s.serviceName),
        "env_name" := JString(s.envName), "app_name" := JString(s.appName),
        "timestamp" := JString(timestamp),
        "context" := JObject(if context.Some? && context.value != map[] then context.value else map[])]
  }

  /** One record a logger passed on to its handlers: its level, the tag
      that starts the message, and the structured payload after the tag. */
  datatype LogRecord = LogRecord(level: int, tag: string, payload: map<string, Json>)

  type Records = PerChannel<LogRecord>

  // ---------------------------------------------------------------------
  // The loggers

  /** A named logger of the logging registry: its handlers, its level and
      the records it has passed on. The same object is returned for the same
      name, so a logger can already hold handlers when a new
      `TelemetryLogger` picks it up. */
  class Logger {
    const name: string
    var handlers: seq<HandlerKind>
    var level: int
    var records: seq<LogRecord>

    constructor (name: string)
      ensures this.name == name && handlers == [] && level == 0 && records == []
    {
      this.name := name;
      handlers := [];
      level := 0;
      records := [];
    }

    method AddHandler(h: HandlerKind)
      modifies this
      ensures handlers == old(handlers) + [h]
      ensures level == old(level) && records == old(records)
    {
      handlers := handlers + [h];
    }

    method ClearHandlers()
      modifies this
      ensures handlers == [] && level == old(level) && records == old(records)
    {
      handlers := [];
    }

    method SetLevel(l: int)
      modifies this
      ensures level == l && handlers == old(handlers) && records == old(records)
    {
      level := l;
    }

    /** A record at `lvl` is passed on when the logger's own level lets it.
        A logger at NOTSET (0) would defer to its ancestors' level, which is
        not modelled, so the level must be set. */
    method Log(lvl: int, tag: string, payload: map<string, Json>)
      requires level != 0
      modifies this
      ensures records == old(records) + (if lvl >= level then [LogRecord(lvl, tag, payload)] else [])
      ensures handlers == old(handlers) && level == old(level)
    {
      if lvl >= level {
        records := records + [LogRecord(lvl, tag, payload)];
      }
    }
  }

  /** The three logger names of a service are pairwise different. */
  lemma LoggerNamesDiffer(serviceName: string)
    ensures serviceName + ".logs" != serviceName + ".metrics"
    ensures serviceName + ".logs" != serviceName + ".traces"
    ensures serviceName + ".metrics" != serviceName + ".traces"
  {
    assert |serviceName + ".logs"| != |serviceName + ".metrics"|;
    assert |serviceName + ".logs"| != |serviceName + ".traces"|;
    assert (serviceName + ".metrics")[|serviceName| + 1] != (serviceName + ".traces")[|serviceName| + 1];
  }

  class TelemetryLogger {
    const serviceName: string
    const telemetryMode: string
    const envName: string
    const appName: string
    const platform: Platform
    const logsLogger: Logger
    const metricsLogger: Logger
    const tracesLogger: Logger
    /** Lines the constructor wrote to standard error. */
    var notices: seq<Notice>

    ghost predicate Distinct()
    {
      logsLogger != metricsLogger && logsLogger != tracesLogger && metricsLogger != tracesLogger
    }

    ghost predicate Valid()
      reads logsLogger, metricsLogger, tracesLogger
    {
      && Distinct()
      && logsLogger.level == INFO && metricsLogger.level == INFO && tracesLogger.level == INFO
    }

    function Identity(): Settings
    {
      Settings(serviceName, envName, appName)
    }

    function LoggerOf(c: Channel): Logger
    {
      match c
      case Logs => logsLogger
      case Metrics => metricsLogger
      case Traces => tracesLogger
    }

    /** The three handler lists. */
    function Lists(): Handlers
      reads logsLogger, metricsLogger, tracesLogger
    {
      PerChannel(logsLogger.handlers, metricsLogger.handlers, tracesLogger.handlers)
    }

    /** The records passed on so far, per channel. */
    function Emitted(): Records
      reads logsLogger, metricsLogger, tracesLogger
    {
      PerChannel(logsLogger.records, metricsLogger.records, tracesLogger.records)
    }

    /** Picks up the loggers named `<service>.logs`, `<service>.metrics`
        and `<service>.traces`, clears whatever handlers they hold, and
        configures them from the mode string. The handler lists it leaves
        depend on the modes and the platform only, never on the handlers
        the loggers held before. */
    constructor (serviceName: string, telemetryMode: Option<string>, platform: Platform,
                 logs: Logger, metrics: Logger, traces: Logger)
      requires logs.name == serviceName + ".logs"
      requires metrics.name == serviceName + ".metrics"
      requires traces.name == serviceName + ".traces"
      modifies logs, metrics, traces
      ensures Valid()
      ensures logsLogger == logs && metricsLogger == metrics && tracesLogger == traces
      ensures this.serviceName == serviceName && this.platform == platform
      ensures this.telemetryMode == EffectiveMode(telemetryMode, platform.environ)
      ensures Identity() == SettingsFor(serviceName, platform.environ)
      ensures Lists() == Configure(Identity(), platform, ParseModes(this.telemetryMode))
      ensures notices == NoticesOf(platform, ParseModes(this.telemetryMode), |ParseModes(this.telemetryMode)|)
      ensures logs.records == old(logs.records) && metrics.records == old(metrics.records)
      ensures traces.records == old(traces.records)
    {
      this.serviceName := serviceName;
      this.telemetryMode := EffectiveMode(telemetryMode, platform.environ);
      envName := Getenv(platform.environ, "ENV_NAME", "development");
      appName := Getenv(platform.environ, "APP_NAME", "useless-calculator");
      this.platform := platform;
      logsLogger := logs;
      metricsLogger := metrics;
      tracesLogger := traces;
      notices := [];
      new;
      LoggerNamesDiffer(serviceName);
      ClearAll();
      var modes := ParseModes(this.telemetryMode);
      ConfigureModes(modes);
      if logsLogger.handlers == [] {
        AddConsoleHandler();
      }
    }

    /** Dispatches every mode in order, starting from empty handler lists. */
    method ConfigureModes(modes: seq<string>)
      requires Valid() && Lists() == NoHandlers && notices == []
      modifies this, logsLogger, metricsLogger, tracesLogger
      ensures Valid()
      ensures Lists() == Fold(Identity(), platform, modes, |modes|)
      ensures notices == NoticesOf(platform, modes, |modes|)
      ensures Emitted() == old(Emitted())
    {
      var i := 0;
      while i < |modes|
        invariant 0 <= i <= |modes|
        invariant Valid()
        invariant Lists() == Fold(Identity(), platform, modes, i)
        invariant notices == NoticesOf(platform, modes, i)
        invariant Emitted() == old(Emitted())
      {
        ConfigureHandler(modes[i], i);
        FoldNext(Identity(), platform, modes, i);
        i := i + 1;
      }
    }

    /** Empties the three handler lists and sets each logger to `INFO`. */
    method ClearAll()
      requires Distinct()
      modifies logsLogger, metricsLogger, tracesLogger
      ensures Valid() && Lists() == NoHandlers
      ensures Emitted() == old(Emitted())
    {
      for k := 0 to 3
        invariant forall j :: 0 <= j < k ==> LoggerOf(Channels[j]).handlers == []
        invariant forall j :: 0 <= j < k ==> LoggerOf(Channels[j]).level == INFO
        invariant Emitted() == old(Emitted())
      {
        var logger := LoggerOf(Channels[k]);
        logger.ClearHandlers();
        logger.SetLevel(INFO);
      }
      assert LoggerOf(Channels[0]) == logsLogger;
      assert LoggerOf(Channels[1]) == metricsLogger;
      assert LoggerOf(Channels[2]) == tracesLogger;
    }

    method AddTo(c: Channel, h: HandlerKind)
      requires Valid()
      modifies logsLogger, metricsLogger, tracesLogger
      ensures Valid()
      ensures Lists() == old(Lists()).Append(c, h)
      ensures Emitted() == old(Emitted())
    {
      LoggerOf(c).AddHandler(h);
    }

    /** Appends `per[j]` to the `j`-th channel, for each channel in turn. */
    method AddEach(per: seq<HandlerKind>)
      requires Valid() && |per| == 3
      modifies logsLogger, metricsLogger, tracesLogger
      ensures Valid()
      ensures Lists() == AddFirst(old(Lists()), per, 3)
      ensures Emitted() == old(Emitted())
    {
      for k := 0 to 3
        invariant Valid()
        invariant Lists() == AddFirst(old(Lists()), per, k)
        invariant Emitted() == old(Emitted())
      {
        AddTo(Channels[k], per[k]);
      }
    }

    method ConfigureHandler(mode: string, i: nat)
      requires Valid()
      modifies this, logsLogger, metricsLogger, tracesLogger
      ensures Valid()
      ensures Lists() == Step(old(Lists()), Identity(), platform, mode, i)
      ensures notices == old(notices) + StepNotices(platform, mode, i)
      ensures Emitted() == old(Emitted())
    {
      var m := Classify(mode);
      match m
      case ConsoleMode => AddConsoleHandler();
      case LocalMode => AddLocalHandler();
      case CloudWatchMode => AddCloudWatchHandler(i);
      case AzureMode => AddAzureHandler(i);
      case UnknownMode(name) => notices := notices + [UnknownModeWarning(name)];
    }

    method AddConsoleHandler()
      requires Valid()
      modifies logsLogger, metricsLogger, tracesLogger
      ensures Valid()
      ensures Lists() == ConsoleStep(old(Lists()))
      ensures Emitted() == old(Emitted())
    {
      AddEach(ConsoleHandlers);
    }

    method AddLocalHandler()
      requires Valid()
      modifies logsLogger, metricsLogger, tracesLogger
      ensures Valid()
      ensures Lists() == LocalStep(old(Lists()), Identity(), platform)
      ensures Emitted() == old(Emitted())
    {
      var base := if platform.rootLogsUsable then "/logs" else "logs";
      var dir := JoinPath(JoinPath(JoinPath(base, envName), appName), serviceName);
      var files := [RotatingFile(JoinPath(dir, "application.log"), MaxBytes, BackupCount),
                    RotatingFile(JoinPath(dir, "metrics.log"), MaxBytes, BackupCount),
                    RotatingFile(JoinPath(dir, "traces.log"), MaxBytes, BackupCount)];
      AddEach(files);
    }

    /** Builds one CloudWatch handler per channel in turn; the first that
        fails to construct stops the loop, and a console handler is then
        added to every channel. */
    method AddCloudWatchHandler(i: nat)
      requires Valid()
      modifies this, logsLogger, metricsLogger, tracesLogger
      ensures Valid()
      ensures Lists() == CloudWatchStep(old(Lists()), Identity(), platform, i)
      ensures notices == old(notices) + (if FirstRaise(platform, i, 0) < 3 then [CloudWatchFallback] else [])
      ensures Emitted() == old(Emitted())
    {
      var k := 0;
      var failed := false;
      while k < 3 && !failed
        invariant 0 <= k <= 3
        invariant failed ==> k < 3
        invariant Valid()
        invariant FirstRaise(platform, i, 0) == if failed then k else FirstRaise(platform, i, k)
        invariant Lists() == AddFirst(old(Lists()), StreamHandlers(Identity(), platform), k)
        invariant notices == old(notices)
        invariant Emitted() == old(Emitted())
        decreases 3 - k, if failed then 0 else 1
      {
        var c := Channels[k];
        var probe := platform.aws(i, c);
        if CloudWatch.ConstructionRaises(platform.hasBoto3, probe) {
          failed := true;
        } else {
          var handler := new CloudWatch.CloudWatchHandler(serviceName, DataType(c), None, platform.environ,
                                                          platform.hostname, platform.today, platform.hasBoto3, probe);
          AddTo(c, CloudWatchStream(handler.logGroup, handler.logStream));
          k := k + 1;
        }
      }
      if failed {
        notices := notices + [CloudWatchFallback];
        AddConsoleHandler();
      }
    }

    method AddAzureHandler(i: nat)
      requires Valid()
      modifies this, logsLogger, metricsLogger, tracesLogger
      ensures Valid()
      ensures Lists() == AzureStep(old(Lists()), platform, i)
      ensures notices == old(notices) + AzureNotices(platform, platform.azure(i))
      ensures Emitted() == old(Emitted())
    {
      var probe := platform.azure(i);
      if !ExporterReached(platform, probe) {
        notices := notices + [AzureFallback];
        AddConsoleHandler();
      } else {
        if probe.exporterRaises {
          notices := notices + [LogExporterFailed];
        }
        if probe.instrumentationRaises {
          notices := notices + [AzureFallback];
          AddConsoleHandler();
        } else {
          AttachFallbackLoggers(probe.ancestorsHandled);
        }
      }
    }

    /** A console handler for each logger that has no handlers, counting
        those of its ancestors (`not logger.hasHandlers()`). */
    method AttachFallbackLoggers(ancestorsHandled: set<Channel>)
      requires Valid()
      modifies logsLogger, metricsLogger, tracesLogger
      ensures Valid()
      ensures Lists() == AttachFallback(old(Lists()), ancestorsHandled, 3)
      ensures Emitted() == old(Emitted())
    {
      for k := 0 to 3
        invariant Valid()
        invariant Lists() == AttachFallback(old(Lists()), ancestorsHandled, k)
        invariant Emitted() == old(Emitted())
      {
        var c := Channels[k];
        var logger := LoggerOf(c);
        if logger.handlers == [] && c !in ancestorsHandled {
          AddTo(c, Console);
        }
      }
    }

    /** Writes one metrics record to the metrics channel. */
    method LogMetrics(metrics: map<string, Json>, now: string)
      requires Valid()
      modifies metricsLogger
      ensures Valid() && Lists() == old(Lists())
      ensures Emitted() == old(Emitted()).Append(Metrics, LogRecord(INFO, "METRICS", MetricsRecord(metrics, Identity(), now)))
    {
      var enhanced := metrics + map["env_name" := JString(envName), "app_name" := JString(appName),
                                    "service_name" := JString(serviceName), "timestamp" := JString(now)];
      metricsLogger.Log(INFO, "METRICS", enhanced);
    }

    /** Writes one trace record to the traces channel. */
    method LogTrace(traceId: string, spanId: string, operation: string, durationMs: real,
                    metadata: Option<map<string, Json>>, now: string)
      requires Valid()
      modifies tracesLogger
      ensures Valid() && Lists() == old(Lists())
      ensures Emitted() == old(Emitted()).Append(Traces,
                LogRecord(INFO, "TRACE", TraceRecord(traceId, spanId, operation, durationMs, metadata, Identity(), now)))
    {
      var data := TraceRecord(traceId, spanId, operation, durationMs, metadata, Identity(), now);
      tracesLogger.Log(INFO, "TRACE", data);
    }

    /** Writes one error record, at `ERROR`, to the logs channel. */
    method LogErrorWithTrace(errorType: string, errorMessage: string, traceback: string,
                             context: Option<map<string, Json>>, now: string)
      requires Valid()
      modifies logsLogger
      ensures Valid() && Lists() == old(Lists())
      ensures Emitted() == old(Emitted()).Append(Logs,
                LogRecord(ERROR, "ERROR_TRACE", ErrorRecord(errorType, errorMessage, traceback, context, Identity(), now)))
    {
      var data := ErrorRecord(errorType, errorMessage, traceback, context, Identity(), now);
      logsLogger.Log(ERROR, "ERROR_TRACE", data);
    }
  }
}
