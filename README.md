# useless-calculator: telemetry sink selection and the calculator front end

This project models two pieces of the useless-calculator repository in
Dafny and proves properties of them.

**Telemetry (`telemetry.py`).** A `TelemetryLogger` picks up three named
loggers for a service: `<service>.logs`, `<service>.metrics` and
`<service>.traces`. It clears their handlers and sets their level to INFO.
It then reads a comma-separated mode string. The string comes from the
argument, else from `TELEMETRY_MODE`, else it is `console`. Each mode is
stripped, lower-cased and dispatched in order:

- `console` adds a standard-output handler to every logger.
- `local` adds a rotating file per logger under
  `<base>/<env>/<app>/<service>`.
- `aws_cloudwatch` adds one CloudWatch handler per logger. If one fails,
  it falls back to console.
- `azure_monitor` sets up Azure Monitor. On success it attaches console
  handlers to loggers with none; on failure it falls back to console.
- Any other mode is skipped with a warning.

If the logs logger still has no handler at the end, every logger gets a
console handler. The project also models the `CloudWatchHandler` itself:
its log group and stream names, when its construction raises, and how
`emit` threads the upload sequence token. It also models the three
structured records (`log_metrics`, `log_trace`, `log_error_with_trace`).

The model has two layers:

- A specification made of functions on handler lists. `Configure` is
  built from `Fold` over `Step`.
- A `TelemetryLogger` class that does the same work step by step on three
  `Logger` objects.

The class constructor is proved to leave exactly `Configure`'s handler
lists and `NoticesOf`'s standard-error notices. Lemmas about `Configure`
state what the source promises.

Everything outside the process is an input, bundled in `Platform`:

- the environment;
- whether boto3 and the Azure libraries are installed;
- whether `/logs` is usable;
- the host name and the date;
- what AWS answers for each handler built;
- what the Azure setup meets for each `azure_monitor` mode.

**Front end (`app.py`).** There are four operation pages: add, divide,
multi and sub. A `GET` on a page renders it blank (`show` is 0). A `POST`
takes two optional integer form fields. If either is falsy, meaning absent
or zero, the blank page is rendered and no call is made. Otherwise the
handler calls the operation's back-end URL once with both operands. That
URL is read from `<OP>_URL_ENDPOINT` when the module is imported. The page
is then rendered with `show` 1 and the response body text as `answer`,
whatever the status code. A call that raises makes the handler raise, and
FastAPI answers with a server error. This includes a call made while the
endpoint variable is unset. The back end is an input function
`Call -> Reply`.

Where the code and its tests disagree, the model follows the code:

- The operand guard is a truthiness test. An operand of 0 is handled
  exactly like a missing one (`App.ZeroIsMissing`), so `10 / 0` never
  reaches the divide service and no "Cannot divide by zero" text is shown
  (`App.DivideByZeroNotForwarded`). The test at test_app.py:59-70 expects
  otherwise.
- The handlers have no request timeout, no handling of back-end errors
  and no `/health` route. The tests at test_app.py:16-27 and
  test_app.py:72-80 assume some of these.

Files:

- `basics.dfy`: `Option`, JSON values, and the environment with
  `os.environ.get`.
- `text.dfy`: Python's `split`, `strip`, `lower` and `pathlib` joining.
- `cloudwatch.dfy`: `CloudWatchHandler`.
- `telemetry.dfy`: `TelemetryLogger` and its specification.
- `app.dfy`: the front-end handlers.

## Model

| member | source | states |
|---|---|---|
| Text.Split | telemetry.py:159 | `str.split(',')` gives one more piece than there are commas, and no piece holds a comma |
| Text.Join | telemetry.py:159 | `sep.join`: the pieces with the separator between each pair, used as the inverse of `split` |
| Text.JoinSplit | telemetry.py:159 | joining the pieces with the separator gives back the original string |
| Text.SplitConcat | telemetry.py:159 | splitting `a + sep + b` gives the pieces of `a` followed by the pieces of `b` |
| Text.SplitNoSep | telemetry.py:159 | a string without the separator splits into itself alone |
| Text.SplitJoin | telemetry.py:159 | splitting undoes joining when no piece holds the separator |
| Text.TrimStart | telemetry.py:159 | `lstrip()` keeps a suffix, drops only whitespace, and leaves no leading whitespace |
| Text.TrimEnd | telemetry.py:159 | `rstrip()` keeps a prefix, drops only whitespace, and leaves no trailing whitespace |
| Text.Strip | telemetry.py:159 | `strip()` is `lstrip()` followed by `rstrip()` over Python's whitespace set |
| Text.TrimStartPadded | telemetry.py:159 | `lstrip()` of whitespace followed by a word that starts with non-whitespace is that word |
| Text.TrimEndPadded | telemetry.py:159 | `rstrip()` of a word followed by whitespace is that word |
| Text.StripPadded | telemetry.py:159 | `strip()` of a word padded with whitespace is exactly the word |
| Text.StripWord | telemetry.py:159 | a word without surrounding whitespace strips to itself |
| Text.StripIdempotent | telemetry.py:159 | stripping twice is stripping once |
| Text.Lower | telemetry.py:174 | `lower()` keeps the length and lower-cases each ASCII letter in place |
| Text.JoinPath | telemetry.py:207-218 | `pathlib`'s `/`: an empty component adds nothing, an absolute one replaces the path, any other is appended after a `/` |
| CloudWatch.LogGroup | telemetry.py:54 | the log group `/aws/microservice/<env>/<service>` |
| CloudWatch.LogStream | telemetry.py:59 | the log stream `<data type>/<host>/<date>` |
| CloudWatch.LogGroupSegments | telemetry.py:54 | the log group's `/`-segments are `"", aws, microservice`, then the environment's, then the service's |
| CloudWatch.GroupPrefix | telemetry.py:54 | the fixed prefix `/aws/microservice/` ends in `/` and splits into `"", aws, microservice` |
| CloudWatch.RootedTwoSegments | telemetry.py:54 | `/a/b` splits into an empty segment, `a` and `b` |
| CloudWatch.LogStreamSegments | telemetry.py:59 | the log stream's `/`-segments are the data type's, the host's and the date's |
| CloudWatch.StreamsDifferPerDataType | telemetry.py:59 | handlers for different data types on one host and day write to different streams |
| CloudWatch.ConstructionRaises | telemetry.py:46-108 | construction raises when boto3 is missing, the client cannot be created, a create call fails other than with "already exists", or describe raises something other than a `ClientError` |
| CloudWatch.Escapes | telemetry.py:76-95 | a create call's exception escapes unless it is a `ClientError` with code `ResourceAlreadyExistsException` |
| CloudWatch.Construct | telemetry.py:44-108 | the constructor step by step: boto3 check, client, log group, log stream, then describe, which swallows a `ClientError` and leaves the token unset |
| CloudWatch.ConstructMatchesRaises | telemetry.py:44-108 | the step-by-step construction raises exactly when `ConstructionRaises` holds, and a built handler starts from `InitialToken` |
| CloudWatch.InitialToken | telemetry.py:97-108 | the starting token is the first listed stream's token when any stream is listed, and none otherwise |
| CloudWatch.RequestFor | telemetry.py:113-125 | the request names the handler's group and stream, carries one event, and carries the token exactly when the token is truthy |
| CloudWatch.TokenAfter | telemetry.py:127-132 | one `emit` replaces the token with the answer's `nextSequenceToken`, possibly none, and keeps it when the call raises |
| CloudWatch.TokenAfterAll | telemetry.py:124-132 | the token after a run of `emit` calls, one `TokenAfter` per call in order |
| CloudWatch.TokenIsLastAnswer | telemetry.py:124-132 | after a run of `emit` calls the token is the next token of the last call that answered |
| CloudWatch.TokenUnchangedByFailures | telemetry.py:127-132 | calls that all raise leave the token as it was |
| CloudWatch.CloudWatchHandler.constructor | telemetry.py:44-72 | for a construction that does not raise: group `/aws/microservice/<ENV_NAME or development>/<service>`, stream `<type>/<host>/<date>`, region from the argument, else `AWS_DEFAULT_REGION`, else `us-east-1`, and the token `Construct` builds with |
| CloudWatch.CloudWatchHandler.Emit | telemetry.py:110-132 | sends the request `RequestFor` gives; an answer replaces the token, and a raise is swallowed, keeps the token and writes one notice |
| Telemetry.EffectiveMode | telemetry.py:144 | the mode string is the argument unless absent or empty, then `TELEMETRY_MODE`, then `console` |
| Telemetry.SettingsFor | telemetry.py:145-146 | the environment name from `ENV_NAME`, else `development`; the application name from `APP_NAME`, else `useless-calculator` |
| Telemetry.ParseModes | telemetry.py:159 | one mode per comma-separated piece, and no mode holds a comma |
| Telemetry.ParseModesOfJoin | telemetry.py:159 | comma-joined pieces parse back one stripped mode per piece, in order |
| Telemetry.ModesRoundTrip | telemetry.py:159 | an already stripped, comma-free mode list survives joining and parsing |
| Telemetry.Classify | telemetry.py:174-185 | the mode, lower-cased, selects console, local, CloudWatch or Azure, and anything else is unknown under its lower-cased name |
| Telemetry.ConsoleStep | telemetry.py:187-192 | one console handler appended to each of the three loggers, in order |
| Telemetry.LocalDir | telemetry.py:198-207 | `<base>/<env>/<app>/<service>`, where the base is `/logs` when usable and `logs` otherwise |
| Telemetry.LocalFile | telemetry.py:210-227 | a channel's rotating file: its file name under `LocalDir`, 10 MiB per file, five backups |
| Telemetry.LocalStep | telemetry.py:210-227 | each channel's own rotating file appended to its logger |
| Telemetry.Stream | telemetry.py:50-59 | a channel's CloudWatch handler writes to the service's log group and the stream named by the channel's data type |
| Telemetry.CloudWatchStep | telemetry.py:231-249 | handlers are attached in channel order up to the first that fails to construct; a failure then adds a console handler to every channel |
| Telemetry.ExporterReached | telemetry.py:253-266 | the Azure setup reaches the log exporter when the libraries are present, the connection string is set and not empty, and `configure_azure_monitor` re-raised nothing |
| Telemetry.AzureRaises | telemetry.py:251-294 | the Azure setup raises when it stops before the log exporter or when instrumentation fails; an exporter failure does not count |
| Telemetry.ExporterNotice | telemetry.py:315-343 | a reached log exporter that fails writes one line to standard error and is swallowed |
| Telemetry.AzureNotices | telemetry.py:251-273 | the Azure setup writes the exporter's failure line first, if any, then the fallback line if the setup raised |
| Telemetry.AttachFallback | telemetry.py:306-312 | a console handler for each logger, in order, that has no handler of its own and no handled ancestor |
| Telemetry.AzureStep | telemetry.py:251-273 | a raising setup falls back to console on every channel; otherwise the fallback loggers are attached |
| Telemetry.Step | telemetry.py:172-185 | a mode's effect on the handler lists, chosen by `Classify` |
| Telemetry.StepNotices | telemetry.py:172-185 | a mode's lines on standard error: the CloudWatch fallback, the Azure lines, or the unknown-mode warning |
| Telemetry.Fold | telemetry.py:162-163 | the handler lists after the first `n` modes, each applied in order to the lists before it |
| Telemetry.NoticesOf | telemetry.py:162-163 | the standard-error lines of the first `n` modes, in order |
| Telemetry.Configure | telemetry.py:159-167 | all modes in order, then a console handler on every channel if the logs logger has none |
| Telemetry.FirstRaise | telemetry.py:241-244 | the index of the first failing CloudWatch handler lies between the start and 3 |
| Telemetry.FirstRaiseFinds | telemetry.py:241-244 | when handler `k` fails and none before it does, the loop stops at `k` |
| Telemetry.AddFirstGet | telemetry.py:189-192 | appending per channel touches each channel at most once, at its end |
| Telemetry.AttachFallbackGet | telemetry.py:306-312 | the fallback pass adds a console handler exactly to the channels with no handler of their own and no handled ancestor |
| Telemetry.ConsoleAddsOneEach | telemetry.py:187-193 | `console` appends exactly one console handler to each channel |
| Telemetry.LocalAddsOneFileEach | telemetry.py:195-229 | `local` appends to each channel one 10 MiB, five-backup rotating file `<base>/<env>/<app>/<service>/<file>` |
| Telemetry.UnknownModeAddsNothing | telemetry.py:184-185 | an unknown mode changes no handler list and writes one warning naming the lower-cased mode |
| Telemetry.CloudWatchSuccess | telemetry.py:231-246 | a CloudWatch setup in which no handler fails appends one stream per channel, named after that channel's data type, and writes no notice |
| Telemetry.CloudWatchFailureKeepsEarlierHandlers | telemetry.py:231-249 | a failure at handler `k` keeps the streams already attached to the first `k` channels, then gives every channel a console handler, with one fallback notice |
| Telemetry.AzureFailureFallsBack | telemetry.py:251-273 | a failing Azure setup gives every channel a console handler and writes the fallback notice, after the exporter's line when the exporter was reached and failed |
| Telemetry.AzureSuccessAttachesFallbacks | telemetry.py:251-273 | a successful Azure setup adds a console handler only to channels with no handler of their own and no handled ancestor; its only possible notice is the exporter's failure |
| Telemetry.ExporterFailureSwallowed | telemetry.py:266-343 | a failing log exporter with working instrumentation still attaches the fallback loggers, and its line is the only notice |
| Telemetry.StepExtends | telemetry.py:172-185 | no mode removes a handler; each channel's list only grows at its end |
| Telemetry.FoldStepExtends | telemetry.py:162-163 | one more mode keeps every handler already attached |
| Telemetry.FoldExtends | telemetry.py:162-163 | handlers attached by earlier modes stay attached through later modes |
| Telemetry.LogsNeverEmpty | telemetry.py:165-167 | after construction the logs channel always has a handler |
| Telemetry.FinalFallback | telemetry.py:165-167 | the final fallback looks only at the logs channel: it adds nothing if logs has a handler, and otherwise adds one console handler to every channel |
| Telemetry.UnknownModesAttachNothing | telemetry.py:162-163 | a list of only unknown modes attaches nothing |
| Telemetry.OnlyUnknownModesGiveOneConsoleEach | telemetry.py:162-167 | a list of only unknown modes ends with exactly one console handler per channel |
| Telemetry.EmptyModeStringGivesOneConsoleEach | telemetry.py:159-167 | an empty mode string parses to one empty mode and ends with one console handler per channel |
| Telemetry.ParseTwoModes | telemetry.py:159 | `a,b` parses to the stripped `a` and the stripped `b` |
| Telemetry.StripPaddedConsole | telemetry.py:159 | `" Console "` strips to `Console` |
| Telemetry.StripLocal | telemetry.py:159 | `LOCAL` strips to itself |
| Telemetry.ClassifyMixedCase | telemetry.py:174-179 | matching ignores ASCII case: `Console` is console and `LOCAL` is local |
| Telemetry.LowerConsole | telemetry.py:174 | `Console` lower-cases to `console` |
| Telemetry.LowerLocal | telemetry.py:174 | `LOCAL` lower-cases to `local` |
| Telemetry.ConsoleThenLocal | telemetry.py:162-163 | a console mode then a local mode leave each channel with a console handler followed by its own file |
| Telemetry.ConsoleModeThenLocalMode | telemetry.py:159-179 | `a,b` where `a` strips to a console mode and `b` to a local mode gives each channel a console handler, then its file |
| Telemetry.MixedCaseModesInOrder | telemetry.py:159-179 | modes that strip to `Console` and `LOCAL`, as `" Console ,LOCAL"` does, give each channel a console handler, then its file, in that order |
| Telemetry.TwoConsoleModes | telemetry.py:162-163 | two console modes give two console handlers per channel |
| Telemetry.RepeatedModeNotDeduplicated | telemetry.py:159-192 | a console mode written twice, `m,m`, gives two console handlers per channel |
| Telemetry.RepeatedConsoleGivesTwoEach | telemetry.py:159-192 | `"console,console"` gives two console handlers per channel |
| Telemetry.ClassifyConsole | telemetry.py:174-177 | `console` selects the console backend |
| Telemetry.LowerLowercase | telemetry.py:174 | `console` lower-cases to itself |
| Telemetry.MetricsRecord | telemetry.py:356-366 | the metrics record holds every caller key plus the identity keys; identity values win, and other caller values are kept |
| Telemetry.MetricsRecordIdempotent | telemetry.py:359-365 | enriching an already enriched record changes nothing |
| Telemetry.TraceRecord | telemetry.py:368-381 | the trace record has exactly the nine trace keys with the given values; absent metadata becomes `{}` |
| Telemetry.TraceMetadataDefaultsToEmpty | telemetry.py:379 | leaving metadata out and passing `{}` give the same record |
| Telemetry.ErrorRecord | telemetry.py:383-395 | the error record has exactly the eight error keys with the given values; absent context becomes `{}` |
| Telemetry.Logger.constructor | telemetry.py:149-151 | a fresh logger of the registry has no handlers and no records |
| Telemetry.Logger.AddHandler | telemetry.py:192 | `addHandler` appends one handler at the end and changes nothing else |
| Telemetry.Logger.ClearHandlers | telemetry.py:155 | `handlers.clear()` empties the handler list only |
| Telemetry.Logger.SetLevel | telemetry.py:156 | `setLevel` sets the level only |
| Telemetry.Logger.Log | telemetry.py:366 | a record at or above the logger's set level is passed on; the handlers stay as they are |
| Telemetry.LoggerNamesDiffer | telemetry.py:149-151 | the three logger names of a service are pairwise different, so the three loggers are distinct objects |
| Telemetry.TelemetryLogger.constructor | telemetry.py:142-170 | the mode string is the argument, else `TELEMETRY_MODE`, else `console`; the handler lists are exactly `Configure` of the parsed modes, whatever the loggers held before; the notices are exactly `NoticesOf`; every logger is at INFO |
| Telemetry.TelemetryLogger.ConfigureModes | telemetry.py:162-163 | the modes are dispatched in order, giving `Fold`'s handler lists and `NoticesOf`'s notices |
| Telemetry.TelemetryLogger.ClearAll | telemetry.py:154-156 | every logger ends with no handlers and level INFO |
| Telemetry.TelemetryLogger.AddTo | telemetry.py:192 | one handler is appended to one channel only |
| Telemetry.TelemetryLogger.AddEach | telemetry.py:189-192 | each of the three loggers gets its own handler appended |
| Telemetry.TelemetryLogger.ConfigureHandler | telemetry.py:172-185 | a mode's effect on the lists and notices is `Step`'s and `StepNotices`'s |
| Telemetry.TelemetryLogger.AddConsoleHandler | telemetry.py:187-193 | one console handler is added per logger |
| Telemetry.TelemetryLogger.AddLocalHandler | telemetry.py:195-229 | one rotating file per logger is added, under `/logs` or `logs` |
| Telemetry.TelemetryLogger.AddCloudWatchHandler | telemetry.py:231-249 | handlers are built in channel order until the first failure, and a failure then adds console handlers and one notice |
| Telemetry.TelemetryLogger.AddAzureHandler | telemetry.py:251-343 | the lists become `AzureStep`'s and the notices grow by `AzureNotices`: an exporter failure is written and swallowed, a raising setup falls back to console, otherwise fallback loggers are attached |
| Telemetry.TelemetryLogger.AttachFallbackLoggers | telemetry.py:306-312 | a logger gets a console handler exactly when `hasHandlers()` is false |
| Telemetry.TelemetryLogger.LogMetrics | telemetry.py:356-366 | one INFO `METRICS` record, built by `MetricsRecord`, goes to the metrics channel only |
| Telemetry.TelemetryLogger.LogTrace | telemetry.py:368-381 | one INFO `TRACE` record, built by `TraceRecord`, goes to the traces channel only |
| Telemetry.TelemetryLogger.LogErrorWithTrace | telemetry.py:383-395 | one ERROR `ERROR_TRACE` record, built by `ErrorRecord`, goes to the logs channel only |
| App.Endpoint | app.py:12-15 | an operation's URL is its variable's value when set, and none otherwise |
| App.Route | app.py:23-84 | a path leads to the operation served there, and to none when no operation page has that path |
| App.RouteTable | app.py:12-84 | each operation's path leads back to it; paths, endpoint variables and templates are pairwise distinct |
| App.Falsy | app.py:30 | an operand is falsy when it is absent or zero |
| App.Index | app.py:18-20 | the index page has no `show` and no `answer` and is no operation's template |
| App.Blank | app.py:23-26 | a GET on an operation page renders its own template with `show` 0 and no answer |
| App.ReplyTo | app.py:35 | a call with no URL raises without reaching a back end; any other call gets the back end's reply |
| App.Post | app.py:28-36 | no call iff an operand is falsy, and then the blank page; otherwise exactly one call with both operands to the route's endpoint, then `show` 1 with the body verbatim, or a server error iff the call raises |
| App.Serve | app.py:17-84 | requests are routed to the index, the blank pages and the POST handlers, each with its own endpoint; other paths match no handler |
| App.ZeroIsMissing | app.py:30 | an operand of 0 on either side is handled exactly like a missing one |
| App.DivideByZeroNotForwarded | app.py:46-48 | dividing by zero renders the blank divide page and calls nothing |
| App.EmptyFormRendersBlank | app.py:29-32 | posting an empty form renders the blank page and calls nothing |
| App.AnswerVerbatim | app.py:33-36 | with both operands non-zero, the route's own endpoint is called once, and the body is rendered as it came, whatever the status |
| App.UnsetEndpointRaises | app.py:12-35 | an unset endpoint variable makes a forwarded request end in a server error |
| App.HandlersDifferOnlyInTemplate | app.py:28-84 | the four POST handlers make the same calls and differ only in their template |
| App.GetCallsNothing | app.py:17-74 | a GET calls no back end and shows no answer |

## Left out

- Output text and formatting are left out. This covers log formatters,
  JSON serialisation of records, the `print` lines on standard output,
  and the wording of standard-error messages. Standard-error lines appear
  only as `Notice` values and as `CloudWatchHandler.errorNotices`.
- What handlers do with records is left out: writing, rotating files and
  sending to AWS. The constructor records which handlers are attached.
  `CloudWatchHandler.Emit` models one send against an input `put`.
- Clocks, the host name and the date are inputs. So are `record.created`
  and the timestamps of records.
- Creating directories is not modelled. Whether `/logs` is usable is an
  input, and a failure to create the service directory or open a log
  file, which would propagate, is not modelled.
- The stored attributes for `self.logger` and `get_logger` are not
  modelled; they are plain aliases of the logs logger.
- Telemetry.LocalDir: joins path components as `pathlib` does for plain
  names and absolute components only. Names holding `..` or repeated
  slashes are not normalised further.
- Text.Lower: lower-cases ASCII letters only. Non-ASCII mode strings can
  therefore classify as unknown where Python's Unicode `lower()` would
  lower them. This makes no difference for the four recognised modes.
- The logging hierarchy is an input, `AzureProbe.ancestorsHandled`, per
  `azure_monitor` mode. This includes the root handler that an earlier
  `logging.basicConfig` may have added. Propagation of records to
  ancestor loggers is not modelled.
- Telemetry.Logger.AddHandler: Python skips a handler object that is already
  attached. Every handler the constructor attaches is a new object, so
  the model always appends.
- The Azure SDK calls are summarised by whether each raises:
  `configure_azure_monitor`, the log exporter and instrumentation.
  Their resource attributes, the exporter wiring and `basicConfig` are
  not modelled.
- Telemetry.Logger.Log: a logger at NOTSET would defer to its ancestors'
  level. The hierarchy's levels are not modelled, so `Log` requires a set
  level; every logger is at INFO whenever it logs.
- Telemetry.Platform: CloudWatch outcomes are indexed by mode position
  and channel. One AWS account's state cannot be shared across repeated
  `aws_cloudwatch` modes other than by giving equal answers.
- `create_telemetry_logger` and the `__main__` demo are not modelled. The
  first is a one-line wrapper of the constructor, and the second is
  example usage.
- FastAPI is not modelled: form parsing (non-integer fields give 422
  before the handler runs), 404 and 405 answers, static files, Jinja2
  rendering and the `request` context entry.
- App.Reply: what the back end answers, including connection errors, is
  an input. The `requests` library, its retries and its encoding of
  parameters are not modelled.
