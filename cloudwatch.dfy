/** The AWS CloudWatch Logs handler of the telemetry module: where its log
    group and log stream are named, when constructing it fails, and how
    `emit` threads the upload sequence token from one `put_log_events`
    call to the next. The AWS client is not modelled: what AWS answers is
    an input. */
module CloudWatch {
  import opened Basics
  import opened Text

  /** An exception raised by the AWS client: a `ClientError` carrying its
      error code, or any other exception. */
  datatype AwsError = ClientError(code: string) | OtherError

  /** The answer to `describe_log_streams`: the `uploadSequenceToken` of
      every stream listed (`None` where a stream has none), or an error. */
  datatype Describe = Streams(tokens: seq<Option<string>>) | DescribeFailed(error: AwsError)

  /** What AWS answers while one handler is constructed: whether creating
      the client, the log group and the log stream raised, and what
      `describe_log_streams` returned. */
  datatype Probe = Probe(
    clientError: Option<AwsError>,
    createGroup: Option<AwsError>,
    createStream: Option<AwsError>,
    describe: Describe)

  /** The one error code the create calls tolerate. */
  const AlreadyExists: string := "ResourceAlreadyExistsException"

  /** One log group per environment and service. */
  function LogGroup(envName: string, serviceName: string): string
  {
    "/aws/microservice/" + envName + "/" + serviceName
  }

  /** One log stream per data type, host and day. */
  function LogStream(dataType: string, hostname: string, date: string): string
  {
    dataType + "/" + hostname + "/" + date
  }

  /** The `/`-separated segments of a log group are the fixed prefix, then
      those of the environment name, then those of the service name. */
  lemma LogGroupSegments(envName: string, serviceName: string)
    ensures Split(LogGroup(envName, serviceName), '/')
         == ["", "aws", "microservice"] + Split(envName, '/') + Split(serviceName, '/')
  {
    var q := "/aws/microservice";
    GroupPrefix();
    assert LogGroup(envName, serviceName) == q + ['/'] + envName + ['/'] + serviceName;
    SplitConcat(q + ['/'] + envName, serviceName, '/');
    SplitConcat(q, envName, '/');
  }

  /** The fixed prefix of every log group, `/aws/microservice/`. */
  lemma GroupPrefix()
    ensures "/aws/microservice/" == "/aws/microservice" + ['/']
    ensures Split("/aws/microservice", '/') == ["", "aws", "microservice"]
  {
    var a, m := "aws", "microservice";
    RootedTwoSegments(a, m);
    assert "/aws/microservice" == [] + ['/'] + a + ['/'] + m;
  }

  /** `/a/b` splits into an empty segment, then `a`, then `b`. */
  lemma RootedTwoSegments(a: string, b: string)
    requires '/' !in a && '/' !in b
    ensures Split([] + ['/'] + a + ['/'] + b, '/') == ["", a, b]
  {
    SplitConcat([] + ['/'] + a, b, '/');
    SplitConcat([], a, '/');
    SplitNoSep(a, '/');
    SplitNoSep(b, '/');
  }

  /** The `/`-separated segments of a log stream are those of the data type,
      then of the host name, then of the date. */
  lemma LogStreamSegments(dataType: string, hostname: string, date: string)
    ensures Split(LogStream(dataType, hostname, date), '/')
         == Split(dataType, '/') + Split(hostname, '/') + Split(date, '/')
  {
    var tail := hostname + ['/'] + date;
    assert LogStream(dataType, hostname, date) == dataType + ['/'] + tail;
    SplitConcat(dataType, tail, '/');
    SplitConcat(hostname, date, '/');
  }

  /** Handlers for different data types on the same host and day write to
      different streams of the group. */
  lemma StreamsDifferPerDataType(d1: string, d2: string, hostname: string, date: string)
    requires '/' !in d1 && '/' !in d2 && d1 != d2
    ensures LogStream(d1, hostname, date) != LogStream(d2, hostname, date)
  {
    LogStreamSegments(d1, hostname, date);
    LogStreamSegments(d2, hostname, date);
    SplitNoSep(d1, '/');
    SplitNoSep(d2, '/');
    assert Split(LogStream(d1, hostname, date), '/')[0] == d1;
    assert Split(LogStream(d2, hostname, date), '/')[0] == d2;
  }

  /** Whether an exception from a create call escapes: an "already exists"
      `ClientError` is swallowed, every other exception is re-raised. */
  predicate Escapes(e: Option<AwsError>)
  {
    e.Some? && e.value != ClientError(AlreadyExists)
  }

  /** Whether `CloudWatchHandler(...)` raises: boto3 is missing, the client
      cannot be created, a create call fails other than with "already
      exists", or `describe_log_streams` raises something other than a
      `ClientError` (a `ClientError` there is swallowed). */
  predicate ConstructionRaises(hasBoto3: bool, p: Probe)
  {
    || !hasBoto3
    || p.clientError.Some?
    || Escapes(p.createGroup)
    || Escapes(p.createStream)
    || (p.describe.DescribeFailed? && !p.describe.error.ClientError?)
  }

  /** What constructing a handler comes to: it raises, or it is built with
      its starting sequence token. */
  datatype Construction = Raises | Built(token: Option<string>)

  /** `CloudWatchHandler.__init__` step by step: the boto3 check, the
      client, `_ensure_log_group_exists` and `_ensure_log_stream_exists`
      (each swallowing only an "already exists" `ClientError`), then
      `_get_sequence_token`, which swallows every `ClientError` and keeps
      the token unset. */
  function Construct(hasBoto3: bool, p: Probe): Construction
  {
    if !hasBoto3 then Raises
    else if p.clientError.Some? then Raises
    else if Escapes(p.createGroup) then Raises
    else if Escapes(p.createStream) then Raises
    else
      match p.describe
      case Streams(tokens) => Built(if |tokens| > 0 then tokens[0] else None)
      case DescribeFailed(e) => if e.ClientError? then Built(None) else Raises
  }

  /** The step-by-step construction raises exactly when `ConstructionRaises`
      says so, and a built handler starts from `InitialToken`. */
  lemma ConstructMatchesRaises(hasBoto3: bool, p: Probe)
    ensures Construct(hasBoto3, p).Raises? <==> ConstructionRaises(hasBoto3, p)
    ensures Construct(hasBoto3, p).Built? ==> Construct(hasBoto3, p).token == InitialToken(p.describe)
  {
  }

  /** The sequence token found at construction: the first listed stream's
      token when the describe call lists any stream, otherwise none. */
  function InitialToken(d: Describe): (t: Option<string>)
    ensures t.Some? ==> d.Streams? && |d.tokens| > 0 && d.tokens[0] == t
    ensures (d.Streams? && |d.tokens| > 0) ==> t == d.tokens[0]
  {
    match d
    case Streams(tokens) => if |tokens| > 0 then tokens[0] else None
    case DescribeFailed(_) => None
  }

  /** One log event: its time in milliseconds and its formatted message. */
  datatype Event = Event(timestamp: int, message: string)

  /** The arguments of one `put_log_events` call. */
  datatype PutRequest = PutRequest(
    logGroupName: string,
    logStreamName: string,
    logEvents: seq<Event>,
    sequenceToken: Option<string>)

  /** What one `put_log_events` call does: it answers, possibly with a next
      sequence token, or it raises. */
  datatype PutResult = Accepted(nextSequenceToken: Option<string>) | Raised

  /** Python truth of an optional string: set and not empty. */
  predicate Truthy(t: Option<string>)
  {
    t.Some? && t.value != ""
  }

  /** The request `emit` sends for one event. */
  function RequestFor(logGroup: string, logStream: string, e: Event, token: Option<string>): (r: PutRequest)
    ensures r.logGroupName == logGroup && r.logStreamName == logStream
    ensures r.logEvents == [e]
    ensures r.sequenceToken.Some? <==> Truthy(token)
    ensures r.sequenceToken.Some? ==> r.sequenceToken == token
  {
    PutRequest(logGroup, logStream, [e], if Truthy(token) then token else None)
  }

  /** The token after one `emit`: the answer's next token (possibly none)
      when the call answered, the same token when it raised. */
  function TokenAfter(token: Option<string>, result: PutResult): Option<string>
  {
    match result
    case Accepted(next) => next
    case Raised => token
  }

  /** The token after a run of `emit` calls with these results. */
  function TokenAfterAll(token: Option<string>, results: seq<PutResult>): Option<string>
    decreases |results|
  {
    if results == [] then token
    else TokenAfterAll(TokenAfter(token, results[0]), results[1..])
  }

  /** After a run of calls the token is the next token of the LAST call that
      answered; failed calls leave it alone, and a run in which every call
      failed leaves the initial token in place. */
  lemma {:induction false} TokenIsLastAnswer(token: Option<string>, results: seq<PutResult>, k: nat)
    requires k < |results| && results[k].Accepted?
    requires forall j :: k < j < |results| ==> results[j].Raised?
    ensures TokenAfterAll(token, results) == results[k].nextSequenceToken
    decreases |results|
  {
    if k == 0 {
      TokenUnchangedByFailures(TokenAfter(token, results[0]), results[1..]);
    } else {
      TokenIsLastAnswer(TokenAfter(token, results[0]), results[1..], k - 1);
    }
  }

  lemma {:induction false} TokenUnchangedByFailures(token: Option<string>, results: seq<PutResult>)
    requires forall j :: 0 <= j < |results| ==> results[j].Raised?
    ensures TokenAfterAll(token, results) == token
    decreases |results|
  {
    if results != [] {
      TokenUnchangedByFailures(token, results[1..]);
    }
  }

  /** The handler object: its names are fixed at construction, its sequence
      token changes with every `emit`. */
  class CloudWatchHandler {
    const serviceName: string
    const dataType: string
    const logGroup: string
    const logStream: string
    const region: string
    var sequenceToken: Option<string>
    /** Notices `emit` has written to standard error. */
    var errorNotices: nat

    /** A handler whose construction did not raise: boto3 is present and
        `ConstructionRaises` does not hold of what AWS answered. The log group takes the environment name from `ENV_NAME`, the stream
        the host name and the day at construction time; an empty or absent
        region falls back to `AWS_DEFAULT_REGION`, then to `us-east-1`. */
    constructor (serviceName: string, dataType: string, region: Option<string>,
                 environ: Environ, hostname: string, today: string, hasBoto3: bool, probe: Probe)
      requires hasBoto3 && !ConstructionRaises(hasBoto3, probe)
      ensures this.serviceName == serviceName && this.dataType == dataType
      ensures logGroup == LogGroup(Getenv(environ, "ENV_NAME", "development"), serviceName)
      ensures logStream == LogStream(dataType, hostname, today)
      ensures region.Some? && region.value != "" ==> this.region == region.value
      ensures !(region.Some? && region.value != "") ==>
                this.region == Getenv(environ, "AWS_DEFAULT_REGION", "us-east-1")
      ensures Construct(hasBoto3, probe) == Built(sequenceToken)
      ensures sequenceToken == InitialToken(probe.describe)
      ensures errorNotices == 0
    {
      this.serviceName := serviceName;
      this.dataType := dataType;
      var envName := Getenv(environ, "ENV_NAME", "development");
      logGroup := "/aws/microservice/" + envName + "/" + serviceName;
      logStream := dataType + "/" + hostname + "/" + today;
      this.region := if region.Some? && region.value != "" then region.value
                     else Getenv(environ, "AWS_DEFAULT_REGION", "us-east-1");
      var token: Option<string> := None;
      if probe.describe.Streams? && |probe.describe.tokens| > 0 {
        token := probe.describe.tokens[0];
      }
      sequenceToken := token;
      errorNotices := 0;
    }

    /** Sends one event. The request carries the current token only when it
        is set and not empty; an answer replaces the token with the answer's
        next token, and a raised call is swallowed, leaving the token as it
        was and writing one notice to standard error. `put` stands for AWS. */
    method Emit(e: Event, put: PutRequest -> PutResult) returns (sent: PutRequest)
      modifies this
      ensures sent == RequestFor(logGroup, logStream, e, old(sequenceToken))
      ensures sequenceToken == TokenAfter(old(sequenceToken), put(sent))
      ensures errorNotices == old(errorNotices) + (if put(sent).Raised? then 1 else 0)
    {
      var token: Option<string> := None;
      if sequenceToken.Some? && sequenceToken.value != "" {
        token := sequenceToken;
      }
      sent := PutRequest(logGroup, logStream, [e], token);
      var response := put(sent);
      if response.Accepted? {
        sequenceToken := response.nextSequenceToken;
      } else {
        errorNotices := errorNotices + 1;
      }
    }
  }
}
