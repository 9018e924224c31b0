/** The remote logger: level filtering, the line format, the bounded buffer of
    entries waiting to be shipped, the two-step flush and the retry policy of
    the submission request. */
module Logger {
  import opened Js

  // ---------------------------------------------------------------------------
  // Levels

  datatype LogLevel = DEBUG | INFO | WARN | ERROR

  /** The severity names the logs API accepts. */
  datatype ApiLogLevel = ApiDebug | ApiInfo | ApiWarning | ApiError | ApiCritical

  /** `LOG_LEVELS`: DEBUG < INFO < WARN < ERROR. */
  function Rank(l: LogLevel): nat {
    match l
    case DEBUG => 0
    case INFO => 1
    case WARN => 2
    case ERROR => 3
  }

  /** The level's own name, as the remote-level setting spells it. */
  function Name(l: LogLevel): string {
    match l
    case DEBUG => "DEBUG"
    case INFO => "INFO"
    case WARN => "WARN"
    case ERROR => "ERROR"
  }

  /** `LOG_LEVEL_DISPLAY`: the name printed at the head of a console line. */
  function Display(l: LogLevel): string {
    match l
    case DEBUG => "DEBUG"
    case INFO => "INFO"
    case WARN => "WARNING"
    case ERROR => "ERROR"
  }

  /** `LOG_LEVEL_API`: the level an entry carries to the logs API. */
  function ApiLevel(l: LogLevel): ApiLogLevel {
    match l
    case DEBUG => ApiDebug
    case INFO => ApiInfo
    case WARN => ApiWarning
    case ERROR => ApiError
  }

  function ApiName(a: ApiLogLevel): string {
    match a
    case ApiDebug => "debug"
    case ApiInfo => "info"
    case ApiWarning => "warning"
    case ApiError => "error"
    case ApiCritical => "critical"
  }

  /** The ranking is a strict total order, and the API mapping loses no
      level and never produces `critical`. */
  lemma LevelTables(a: LogLevel, b: LogLevel)
    ensures Rank(a) == Rank(b) <==> a == b
    ensures ApiLevel(a) == ApiLevel(b) <==> a == b
    ensures ApiLevel(a) != ApiCritical
    ensures ApiName(ApiLevel(WARN)) == "warning" && Display(WARN) == "WARNING"
  {
  }

  /** The remote-level setting: the raw value (or `ERROR` when it is unset),
      upper-cased, if it names a level, and `ERROR` otherwise. */
  function ParseRemoteLevel(env: Option<string>): (r: LogLevel)
    ensures Upper(env.GetOr("ERROR")) == Name(r) || (r == ERROR && forall l :: Name(l) != Upper(env.GetOr("ERROR")))
  {
    var wanted := Upper(env.GetOr("ERROR"));
    if wanted == "DEBUG" then DEBUG
    else if wanted == "INFO" then INFO
    else if wanted == "WARN" then WARN
    else ERROR
  }

  /** Every level name is read back as that level, in any letter case. */
  lemma ParseRemoteLevelOfName(l: LogLevel, spelled: string)
    requires |spelled| == |Name(l)|
    requires forall i :: 0 <= i < |spelled| ==> UpperChar(spelled[i]) == Name(l)[i]
    ensures ParseRemoteLevel(Some(spelled)) == l
  {
    assert Upper(spelled) == Name(l);
  }

  /** An unset remote level means ERROR. */
  lemma ParseRemoteLevelDefault()
    ensures ParseRemoteLevel(None) == ERROR
  {
    assert Upper("ERROR") == "ERROR";
  }

  // ---------------------------------------------------------------------------
  // Configuration and filtering

  datatype LoggerConfig = LoggerConfig(
    minLevel: LogLevel,
    minRemoteLevel: LogLevel,
    enabled: bool,
    remoteEnabled: bool,
    flushInterval: nat,
    maxBufferSize: nat,
    maxRetries: nat,
    retryBaseDelay: nat)

  /** `shouldLog`: the console line is printed. */
  predicate ShouldLog(c: LoggerConfig, level: LogLevel) {
    c.enabled && Rank(level) >= Rank(c.minLevel)
  }

  /** `shouldLogRemote`: the entry is buffered for the logs API. */
  predicate ShouldLogRemote(c: LoggerConfig, level: LogLevel) {
    c.remoteEnabled && Rank(level) >= Rank(c.minRemoteLevel)
  }

  /** Both filters are thresholds: a level passes exactly when it is at least
      the minimum, so every more severe level passes too, ERROR passes
      whenever the filter is on, and nothing passes while it is off. */
  lemma FiltersAreThresholds(c: LoggerConfig, a: LogLevel, b: LogLevel)
    ensures ShouldLog(c, a) && Rank(a) <= Rank(b) ==> ShouldLog(c, b)
    ensures ShouldLogRemote(c, a) && Rank(a) <= Rank(b) ==> ShouldLogRemote(c, b)
    ensures ShouldLog(c, a) <==> c.enabled && (a == c.minLevel || Rank(a) > Rank(c.minLevel))
    ensures ShouldLogRemote(c, a) <==> c.remoteEnabled && (a == c.minRemoteLevel || Rank(a) > Rank(c.minRemoteLevel))
    ensures ShouldLog(c, ERROR) <==> c.enabled
    ensures ShouldLogRemote(c, ERROR) <==> c.remoteEnabled
  {
  }

  // ---------------------------------------------------------------------------
  // Message text

  /** One argument of `argsToMessage`: strings verbatim, errors as
      `name: message`, everything else as its JSON text, or `String(arg)` when
      serialisation throws. `JSON.stringify(undefined)` gives no string, and
      joining renders that gap as the empty string. */
  function ArgText(arg: JsValue, json: JsValue -> Option<string>): (r: string)
    ensures arg.Str? ==> r == arg.s
    ensures arg.ErrorValue? ==> r == arg.name + ": " + arg.message
    ensures arg.Obj? ==> r == json(arg).GetOr("[object Object]")
    ensures arg.Null? || arg.Bool? || arg.Num? ==> r == JsToString(arg)
    ensures arg.Undefined? ==> r == ""
  {
    match arg
    case Str(s) => s
    case ErrorValue(name, message) => name + ": " + message
    case Undefined => ""
    case Obj(_) => json(arg).GetOr(JsToString(arg))
    case _ => JsToString(arg)
  }

  function Pieces(args: seq<JsValue>, json: JsValue -> Option<string>): (r: seq<string>)
    ensures |r| == |args|
    ensures forall i :: 0 <= i < |args| ==> r[i] == ArgText(args[i], json)
  {
    seq(|args|, i requires 0 <= i < |args| => ArgText(args[i], json))
  }

  /** `pieces.join(sep)` */
  function Join(pieces: seq<string>, sep: string): string
    decreases |pieces|
  {
    if |pieces| == 0 then ""
    else if |pieces| == 1 then pieces[0]
    else pieces[0] + sep + Join(pieces[1..], sep)
  }

  /** Splitting at every space: the inverse of joining space-free pieces. */
  function Split(s: string): (r: seq<string>)
    ensures |r| >= 1
    decreases |s|
  {
    if ' ' in s then
      var i := IndexOf(s, ' ');
      [s[..i]] + Split(s[i + 1..])
    else
      [s]
  }

  /** Splitting a text that starts with a space-free piece and a space. */
  lemma SplitAfterPiece(piece: string, rest: string)
    requires ' ' !in piece
    ensures Split(piece + [' '] + rest) == [piece] + Split(rest)
  {
    var s := piece + [' '] + rest;
    IndexOfAfterPrefix(piece, ' ', rest);
    assert s[..|piece|] == piece;
    assert s[|piece| + 1..] == rest;
  }

  /** Joining with one space loses nothing: pieces without spaces are read
      back one for one. */
  lemma {:induction false} SplitJoin(pieces: seq<string>)
    requires |pieces| >= 1
    requires forall k :: 0 <= k < |pieces| ==> ' ' !in pieces[k]
    ensures Split(Join(pieces, " ")) == pieces
    decreases |pieces|
  {
    if |pieces| > 1 {
      var rest := Join(pieces[1..], " ");
      assert Join(pieces, " ") == pieces[0] + [' '] + rest;
      SplitAfterPiece(pieces[0], rest);
      SplitJoin(pieces[1..]);
      assert pieces == [pieces[0]] + pieces[1..];
    }
  }

  /** `argsToMessage(args)` */
  function ArgsToMessage(args: seq<JsValue>, json: JsValue -> Option<string>): string {
    Join(Pieces(args, json), " ")
  }

  /** Each argument contributes its own text, in order, separated by single
      spaces. */
  lemma ArgsToMessageRoundTrip(args: seq<JsValue>, json: JsValue -> Option<string>)
    requires |args| >= 1
    requires forall k :: 0 <= k < |args| ==> ' ' !in ArgText(args[k], json)
    ensures Split(ArgsToMessage(args, json)) == Pieces(args, json)
  {
    SplitJoin(Pieces(args, json));
  }

  /** The message a `logger.*` call records: the message alone without extra
      arguments, otherwise the message, one space and the rendered arguments. */
  function FullMessage(message: string, args: seq<JsValue>, json: JsValue -> Option<string>): string {
    if |args| > 0 then message + " " + ArgsToMessage(args, json) else message
  }

  /** The leading message is one more piece of the same space-joined text. */
  lemma FullMessageIsJoin(message: string, args: seq<JsValue>, json: JsValue -> Option<string>)
    ensures FullMessage(message, args, json) == Join([message] + Pieces(args, json), " ")
  {
    var all := [message] + Pieces(args, json);
    if |args| > 0 {
      assert all[1..] == Pieces(args, json);
    }
  }

  /** `formatMessage(level, message)` at the given ISO-8601 time. */
  function FormatMessage(level: LogLevel, timestamp: string, message: string): string {
    Display(level) + ": " + timestamp + " - " + message
  }

  function LevelOfDisplay(d: string): Option<LogLevel> {
    if d == "DEBUG" then Some(DEBUG)
    else if d == "INFO" then Some(INFO)
    else if d == "WARNING" then Some(WARN)
    else if d == "ERROR" then Some(ERROR)
    else None
  }

  datatype ParsedLine = ParsedLine(level: LogLevel, timestamp: string, message: string)

  /** Reads a console line back into its level, time and message. */
  function ParseLine(line: string): Option<ParsedLine> {
    if ':' !in line then None
    else
      var i := IndexOf(line, ':');
      var level := LevelOfDisplay(line[..i]);
      if level.None? || |line| < i + 2 || line[i..i + 2] != ": " then None
      else ParseStamped(level.value, line[i + 2..])
  }

  /** The part of a console line after `<level>: `. */
  function ParseStamped(level: LogLevel, rest: string): Option<ParsedLine> {
    if ' ' !in rest then None
    else
      var j := IndexOf(rest, ' ');
      if |rest| < j + 3 || rest[j..j + 3] != " - " then None
      else Some(ParsedLine(level, rest[..j], rest[j + 3..]))
  }

  lemma ParseStampedRoundTrip(level: LogLevel, timestamp: string, message: string)
    requires ' ' !in timestamp
    ensures ParseStamped(level, timestamp + " - " + message) == Some(ParsedLine(level, timestamp, message))
  {
    var rest := timestamp + " - " + message;
    assert rest == timestamp + [' '] + ("- " + message);
    IndexOfAfterPrefix(timestamp, ' ', "- " + message);
    assert rest[..|timestamp|] == timestamp;
    assert rest[|timestamp|..|timestamp| + 3] == " - ";
    assert rest[|timestamp| + 3..] == message;
  }

  lemma ParseLineAfterLevel(d: string, level: LogLevel, rest: string)
    requires LevelOfDisplay(d) == Some(level) && ':' !in d
    ensures ParseLine(d + ": " + rest) == ParseStamped(level, rest)
  {
    var line := d + ": " + rest;
    assert line == d + [':'] + (" " + rest);
    IndexOfAfterPrefix(d, ':', " " + rest);
    assert line[..|d|] == d;
    assert line[|d|..|d| + 2] == ": ";
    assert line[|d| + 2..] == rest;
  }

  /** The console format is unambiguous: level, time (which has no spaces in
      ISO-8601) and message, whatever the message holds, are read back. */
  lemma FormatMessageRoundTrip(level: LogLevel, timestamp: string, message: string)
    requires ' ' !in timestamp
    ensures ParseLine(FormatMessage(level, timestamp, message)) == Some(ParsedLine(level, timestamp, message))
  {
    var d := Display(level);
    var rest := timestamp + " - " + message;
    assert ':' !in d && LevelOfDisplay(d) == Some(level);
    assert FormatMessage(level, timestamp, message) == d + ": " + rest;
    ParseLineAfterLevel(d, level, rest);
    ParseStampedRoundTrip(level, timestamp, message);
  }

  // ---------------------------------------------------------------------------
  // Endpoint

  function ApiPath(serviceId: string): string {
    "/api/v1/services/" + serviceId + "/logs/submit"
  }

  /** `getLogsEndpoint()`: the backend's solutions API when a base URL is
      set, otherwise the development proxy path. */
  function GetLogsEndpoint(baseUrl: string, proxyEndpoint: string, serviceId: string): (r: string)
    ensures baseUrl != "" ==> r == baseUrl + "/solutions-api" + ApiPath(serviceId)
    ensures baseUrl == "" ==> r == proxyEndpoint + ApiPath(serviceId)
  {
    var apiPath := ApiPath(serviceId);
    if baseUrl != "" then baseUrl + "/solutions-api" + apiPath else proxyEndpoint + apiPath
  }

  /** Different services never share an endpoint. */
  lemma EndpointDeterminesService(baseUrl: string, proxyEndpoint: string, s1: string, s2: string)
    requires GetLogsEndpoint(baseUrl, proxyEndpoint, s1) == GetLogsEndpoint(baseUrl, proxyEndpoint, s2)
    ensures s1 == s2
  {
    var head := if baseUrl != "" then baseUrl + "/solutions-api" else proxyEndpoint;
    var e1 := GetLogsEndpoint(baseUrl, proxyEndpoint, s1);
    var e2 := GetLogsEndpoint(baseUrl, proxyEndpoint, s2);
    assert e1 == head + "/api/v1/services/" + s1 + "/logs/submit";
    assert e2 == head + "/api/v1/services/" + s2 + "/logs/submit";
    assert |s1| == |s2|;
    var from := |head| + |"/api/v1/services/"|;
    assert e1[from..from + |s1|] == s1;
    assert e2[from..from + |s2|] == s2;
  }

  // ---------------------------------------------------------------------------
  // Buffer trimming

  /** `s.slice(-k)`: the last k elements; note that `-0` is `0`, so k == 0
      keeps everything. */
  function SliceFromEnd<T>(s: seq<T>, k: nat): (r: seq<T>)
    ensures k == 0 || |s| <= k ==> r == s
    ensures 0 < k < |s| ==> r == s[|s| - k..]
  {
    if k == 0 || |s| <= k then s else s[|s| - k..]
  }

  /** With a positive bound the slice keeps exactly the newest `min(|s|, k)`
      elements, in their original order. */
  lemma SliceFromEndNewest<T>(s: seq<T>, k: nat)
    requires k > 0
    ensures |SliceFromEnd(s, k)| == if |s| <= k then |s| else k
    ensures SliceFromEnd(s, k) == s[|s| - |SliceFromEnd(s, k)|..]
  {
  }

  // ---------------------------------------------------------------------------
  // Submission with retries

  datatype LogEntry = LogEntry(message: string, logLevel: ApiLogLevel, timestamp: int)

  /** How one submission attempt ends: an HTTP status, or an exception. */
  datatype Outcome = Responded(status: int) | Threw

  /** Rate limiting and exceptions are retried; other statuses are final. */
  predicate Retryable(o: Outcome) {
    o == Responded(429) || o.Threw?
  }

  /** The result of `sendLogs`, the number of requests it made and the
      back-off delays it waited, in order. */
  datatype SendResult = SendResult(ok: bool, attempts: nat, delays: seq<int>)

  function Pow2(n: nat): (r: nat)
    ensures r >= 1
  {
    if n == 0 then 1 else 2 * Pow2(n - 1)
  }

  /** The back-off before the request made with retry count k + 1. */
  function Delay(c: LoggerConfig, k: nat): int {
    c.retryBaseDelay * Pow2(k)
  }

  function RetriesLeft(c: LoggerConfig, retryCount: nat): nat {
    if retryCount < c.maxRetries then c.maxRetries - retryCount else 0
  }

  /** `sendLogs(logs, retryCount)`, where `outcome(k)` is how the request made
      with retry count k ends. Nothing is sent, and the result is true, for an
      empty batch or missing credentials; otherwise every request but the
      first is preceded by one wait, and the retry count never passes
      `maxRetries`. */
  function SendLogs(logs: seq<LogEntry>, apiKey: string, serviceId: string, c: LoggerConfig,
                    outcome: nat -> Outcome, retryCount: nat): (r: SendResult)
    ensures r.attempts == 0 <==> |logs| == 0 || apiKey == "" || serviceId == ""
    ensures r.attempts == 0 ==> r.ok && r.delays == []
    ensures r.attempts > 0 ==> r.attempts == |r.delays| + 1
    ensures r.attempts <= RetriesLeft(c, retryCount) + 1
    decreases RetriesLeft(c, retryCount)
  {
    if |logs| == 0 || apiKey == "" || serviceId == "" then SendResult(true, 0, [])
    else
      var o := outcome(retryCount);
      if o == Responded(204) then SendResult(true, 1, [])
      else if Retryable(o) && retryCount < c.maxRetries then
        var rest := SendLogs(logs, apiKey, serviceId, c, outcome, retryCount + 1);
        SendResult(rest.ok, rest.attempts + 1, [Delay(c, retryCount)] + rest.delays)
      else SendResult(false, 1, [])
  }

  /** Wait i follows a rate-limit answer or an exception of request i while
      retries were left, and lasts `retryBaseDelay * 2^(retryCount + i)`. */
  lemma {:induction false} SendLogsDelayAt(logs: seq<LogEntry>, apiKey: string, serviceId: string, c: LoggerConfig,
                                           outcome: nat -> Outcome, retryCount: nat, i: nat)
    requires i < |SendLogs(logs, apiKey, serviceId, c, outcome, retryCount).delays|
    ensures SendLogs(logs, apiKey, serviceId, c, outcome, retryCount).delays[i] == Delay(c, retryCount + i)
    ensures Retryable(outcome(retryCount + i)) && retryCount + i < c.maxRetries
    decreases i
  {
    var r := SendLogs(logs, apiKey, serviceId, c, outcome, retryCount);
    var rest := SendLogs(logs, apiKey, serviceId, c, outcome, retryCount + 1);
    // A wait exists only in the retrying branch.
    assert outcome(retryCount) != Responded(204) && Retryable(outcome(retryCount)) && retryCount < c.maxRetries;
    assert r.delays == [Delay(c, retryCount)] + rest.delays;
    if i > 0 {
      assert r.delays[i] == rest.delays[i - 1];
      SendLogsDelayAt(logs, apiKey, serviceId, c, outcome, retryCount + 1, i - 1);
      assert (retryCount + 1) + (i - 1) == retryCount + i;
    }
  }

  /** The result is true exactly when the last request answered 204, and a
      failed send ends on a final outcome or with the retries used up. */
  lemma {:induction false} SendLogsLastOutcome(logs: seq<LogEntry>, apiKey: string, serviceId: string, c: LoggerConfig,
                                               outcome: nat -> Outcome, retryCount: nat)
    ensures var r := SendLogs(logs, apiKey, serviceId, c, outcome, retryCount);
      && (r.attempts > 0 ==> (r.ok <==> outcome(retryCount + r.attempts - 1) == Responded(204)))
      && (r.attempts > 0 && !r.ok ==>
            !Retryable(outcome(retryCount + r.attempts - 1)) || retryCount + r.attempts - 1 >= c.maxRetries)
    decreases RetriesLeft(c, retryCount)
  {
    var r := SendLogs(logs, apiKey, serviceId, c, outcome, retryCount);
    if |logs| > 0 && apiKey != "" && serviceId != "" {
      var o := outcome(retryCount);
      if o != Responded(204) && Retryable(o) && retryCount < c.maxRetries {
        var rest := SendLogs(logs, apiKey, serviceId, c, outcome, retryCount + 1);
        SendLogsLastOutcome(logs, apiKey, serviceId, c, outcome, retryCount + 1);
        assert r.attempts == rest.attempts + 1 && r.ok == rest.ok;
        assert retryCount + r.attempts - 1 == (retryCount + 1) + rest.attempts - 1;
      }
    }
  }

  /** A wait of `d` before the request with retry count k + 1: it lasts
      `retryBaseDelay * 2^k` and follows a retryable outcome of the request
      with retry count k, made while retries were left. */
  ghost predicate WaitFollowsPolicy(d: int, c: LoggerConfig, outcome: nat -> Outcome, k: nat) {
    && d == Delay(c, k)
    && Retryable(outcome(k))
    && k < c.maxRetries
  }

  /** Every wait of a send that started at `retryCount` follows the policy. */
  ghost predicate WaitsFollowPolicy(delays: seq<int>, c: LoggerConfig, outcome: nat -> Outcome, retryCount: nat) {
    forall i :: 0 <= i < |delays| ==> WaitFollowsPolicy(delays[i], c, outcome, retryCount + i)
  }

  /** The retry policy as a whole: every wait, and how the send ends. */
  lemma SendLogsPolicy(logs: seq<LogEntry>, apiKey: string, serviceId: string, c: LoggerConfig,
                       outcome: nat -> Outcome, retryCount: nat)
    ensures var r := SendLogs(logs, apiKey, serviceId, c, outcome, retryCount);
      && WaitsFollowPolicy(r.delays, c, outcome, retryCount)
      && (r.attempts > 0 ==> (r.ok <==> outcome(retryCount + r.attempts - 1) == Responded(204)))
      && (r.attempts > 0 && !r.ok ==>
            !Retryable(outcome(retryCount + r.attempts - 1)) || retryCount + r.attempts - 1 >= c.maxRetries)
  {
    var r := SendLogs(logs, apiKey, serviceId, c, outcome, retryCount);
    forall i | 0 <= i < |r.delays|
      ensures WaitFollowsPolicy(r.delays[i], c, outcome, retryCount + i)
    {
      SendLogsDelayAt(logs, apiKey, serviceId, c, outcome, retryCount, i);
    }
    SendLogsLastOutcome(logs, apiKey, serviceId, c, outcome, retryCount);
  }

  /** With the default three retries, a batch is tried at most four times and
      the waits are 1 s, 2 s and 4 s. */
  lemma SendLogsWaits(logs: seq<LogEntry>, apiKey: string, serviceId: string,
                                         c: LoggerConfig, outcome: nat -> Outcome)
    requires c.maxRetries == 3 && c.retryBaseDelay == 1000
    ensures var r := SendLogs(logs, apiKey, serviceId, c, outcome, 0);
      r.attempts <= 4 && r.delays <= [1000, 2000, 4000]
  {
    var r := SendLogs(logs, apiKey, serviceId, c, outcome, 0);
    SendLogsPolicy(logs, apiKey, serviceId, c, outcome, 0);
    assert Delay(c, 0) == 1000 && Delay(c, 1) == 2000 && Delay(c, 2) == 4000;
    assert forall i :: 0 <= i < |r.delays| ==> r.delays[i] == [1000, 2000, 4000][i];
  }

  /** A batch flushed without credentials is reported as sent although no
      request was made. */
  lemma SendLogsWithoutCredentials(logs: seq<LogEntry>, serviceId: string, c: LoggerConfig, outcome: nat -> Outcome)
    ensures SendLogs(logs, "", serviceId, c, outcome, 0) == SendResult(true, 0, [])
  {
  }

  // ---------------------------------------------------------------------------
  // The logger object

  /** The patched console entry points. */
  datatype ConsoleMethod = ConsoleLog | ConsoleDebug | ConsoleInfo | ConsoleWarn | ConsoleError

  /** The level each patched console method logs at (`console.log` is INFO). */
  function ConsoleLevel(m: ConsoleMethod): LogLevel {
    match m
    case ConsoleLog => INFO
    case ConsoleDebug => DEBUG
    case ConsoleInfo => INFO
    case ConsoleWarn => WARN
    case ConsoleError => ERROR
  }

  /** The `sendBeacon` call of `flushSync`. */
  datatype Beacon = Beacon(url: string, logs: seq<LogEntry>)

  const DefaultProxyEndpoint := "/_debug"
  const FlushFailedWarning := "Failed to send logs to backend, will retry later"

  /** `Math.floor(Date.now() / 1000)` */
  function UnixSeconds(millis: int): int {
    millis / 1000
  }

  class RemoteLogger {
    var config: LoggerConfig
    var logBuffer: seq<LogEntry>
    var isFlushingInProgress: bool
    /** Whether a flush interval is installed. */
    var flushTimer: bool
    /** The batch taken by a flush whose request has not completed. */
    var inFlight: seq<LogEntry>
    /** Whether the console methods are the patched ones. */
    var consoleOverridden: bool
    const apiKey: string
    const serviceId: string
    const logsApiBaseUrl: string
    const proxyEndpoint: string
    /** `JSON.stringify` on an object: its text, or None when it throws. */
    const json: JsValue -> Option<string>

    /** The buffer never exceeds its bound; a batch exists only while a flush
        is in progress and is no larger than the buffer it came from; the
        interval is installed exactly while remote logging is on. */
    ghost predicate Valid()
      reads this
    {
      && config.maxBufferSize == 100
      && config.maxRetries == 3
      && config.retryBaseDelay == 1000
      && config.flushInterval == 5000
      && |logBuffer| <= config.maxBufferSize
      && |inFlight| <= config.maxBufferSize
      && (!isFlushingInProgress ==> inFlight == [])
      && flushTimer == config.remoteEnabled
    }

    /** Module initialisation from the build-time settings (None for an
        unset one): the console is patched and the interval is installed
        when remote logging starts enabled. */
    constructor (isDev: Option<bool>, apiKeyEnv: Option<string>, serviceIdEnv: Option<string>,
                 baseUrlEnv: Option<string>, proxyEnv: Option<string>, remoteLevelEnv: Option<string>,
                 json: JsValue -> Option<string>)
      ensures Valid()
      ensures apiKey == apiKeyEnv.GetOr("") && serviceId == serviceIdEnv.GetOr("")
      ensures logsApiBaseUrl == baseUrlEnv.GetOr("") && proxyEndpoint == proxyEnv.GetOr(DefaultProxyEndpoint)
      ensures this.json == json
      ensures config.minLevel == (if isDev.GetOr(false) then DEBUG else INFO)
      ensures config.minRemoteLevel == ParseRemoteLevel(remoteLevelEnv)
      ensures config.enabled
      ensures config.remoteEnabled <==> apiKey != "" && serviceId != ""
      ensures logBuffer == [] && inFlight == [] && !isFlushingInProgress && consoleOverridden
      ensures flushTimer == config.remoteEnabled
    {
      apiKey := apiKeyEnv.GetOr("");
      serviceId := serviceIdEnv.GetOr("");
      logsApiBaseUrl := baseUrlEnv.GetOr("");
      proxyEndpoint := proxyEnv.GetOr(DefaultProxyEndpoint);
      this.json := json;
      var remoteEnabled := apiKeyEnv.GetOr("") != "" && serviceIdEnv.GetOr("") != "";
      config := LoggerConfig(if isDev.GetOr(false) then DEBUG else INFO, ParseRemoteLevel(remoteLevelEnv),
                             true, remoteEnabled, 5000, 100, 3, 1000);
      logBuffer := [];
      inFlight := [];
      isFlushingInProgress := false;
      consoleOverridden := true;
      flushTimer := remoteEnabled;
    }

    /** `addToBuffer(level, message)` at the given clock reading in
        milliseconds: nothing unless the level goes remote; otherwise one entry
        is appended and, past the bound, only the newest entries are kept. */
    method AddToBuffer(level: LogLevel, message: string, millis: int)
      requires Valid()
      modifies this`logBuffer
      ensures Valid()
      ensures !ShouldLogRemote(config, level) ==> logBuffer == old(logBuffer)
      ensures ShouldLogRemote(config, level) ==>
        var all := old(logBuffer) + [LogEntry(message, ApiLevel(level), UnixSeconds(millis))];
        && |logBuffer| == (if |all| <= config.maxBufferSize then |all| else config.maxBufferSize)
        && logBuffer == all[|all| - |logBuffer|..]
    {
      if !ShouldLogRemote(config, level) {
        return;
      }
      logBuffer := logBuffer + [LogEntry(message, ApiLevel(level), UnixSeconds(millis))];
      if |logBuffer| > config.maxBufferSize {
        logBuffer := SliceFromEnd(logBuffer, config.maxBufferSize);
      }
    }

    /** Prints (returning the formatted console line) and buffers one
        message at one level, if the console filter lets it through. */
    method Emit(level: LogLevel, message: string, timestamp: string, millis: int) returns (line: Option<string>)
      requires Valid()
      modifies this`logBuffer
      ensures Valid()
      ensures !ShouldLog(config, level) ==> line == None && logBuffer == old(logBuffer)
      ensures ShouldLog(config, level) ==> line == Some(FormatMessage(level, timestamp, message))
      ensures ShouldLog(config, level) && ShouldLogRemote(config, level) ==>
        logBuffer == SliceFromEnd(old(logBuffer) + [LogEntry(message, ApiLevel(level), UnixSeconds(millis))], config.maxBufferSize)
      ensures !ShouldLogRemote(config, level) ==> logBuffer == old(logBuffer)
    {
      if !ShouldLog(config, level) {
        return None;
      }
      line := Some(FormatMessage(level, timestamp, message));
      AddToBuffer(level, message, millis);
    }

    /** `logger.debug/info/warn/error(message, ...args)`. */
    method Log(level: LogLevel, message: string, args: seq<JsValue>, timestamp: string, millis: int)
      returns (line: Option<string>)
      requires Valid()
      modifies this`logBuffer
      ensures Valid()
      ensures !ShouldLog(config, level) ==> line == None && logBuffer == old(logBuffer)
      ensures ShouldLog(config, level) ==> line == Some(FormatMessage(level, timestamp, FullMessage(message, args, json)))
      ensures ShouldLog(config, level) && ShouldLogRemote(config, level) ==>
        logBuffer == SliceFromEnd(old(logBuffer) + [LogEntry(FullMessage(message, args, json), ApiLevel(level), UnixSeconds(millis))],
                                  config.maxBufferSize)
      ensures !ShouldLogRemote(config, level) ==> logBuffer == old(logBuffer)
    {
      line := Emit(level, FullMessage(message, args, json), timestamp, millis);
    }

    /** A call of a console method. Patched, it logs the rendered arguments
        at the method's level; after `restoreConsole` the native method runs
        and the logger sees nothing. */
    method ConsoleCall(m: ConsoleMethod, args: seq<JsValue>, timestamp: string, millis: int)
      returns (line: Option<string>)
      requires Valid()
      modifies this`logBuffer
      ensures Valid()
      ensures !consoleOverridden || !ShouldLog(config, ConsoleLevel(m)) ==> line == None && logBuffer == old(logBuffer)
      ensures consoleOverridden && ShouldLog(config, ConsoleLevel(m)) ==>
        line == Some(FormatMessage(ConsoleLevel(m), timestamp, ArgsToMessage(args, json)))
      ensures consoleOverridden && ShouldLog(config, ConsoleLevel(m)) && ShouldLogRemote(config, ConsoleLevel(m)) ==>
        logBuffer == SliceFromEnd(old(logBuffer) + [LogEntry(ArgsToMessage(args, json), ApiLevel(ConsoleLevel(m)), UnixSeconds(millis))],
                                  config.maxBufferSize)
      ensures !ShouldLogRemote(config, ConsoleLevel(m)) ==> logBuffer == old(logBuffer)
    {
      if !consoleOverridden {
        return None;
      }
      line := Emit(ConsoleLevel(m), ArgsToMessage(args, json), timestamp, millis);
    }

    /** `restoreConsole()` */
    method RestoreConsole()
      modifies this`consoleOverridden
      ensures !consoleOverridden
    {
      consoleOverridden := false;
    }

    /** `window.onerror`: always printed at ERROR, whatever the console
        filter, and buffered when ERROR goes remote. */
    method OnUncaughtError(message: JsValue, source: JsValue, lineno: JsValue, colno: JsValue, error: JsValue,
                           timestamp: string, millis: int)
      returns (line: string)
      requires Valid()
      modifies this`logBuffer
      ensures Valid()
      ensures var text := "Uncaught error: " + UncaughtText(message, source, lineno, colno, error);
        && line == FormatMessage(ERROR, timestamp, text)
        && (ShouldLogRemote(config, ERROR) ==>
             logBuffer == SliceFromEnd(old(logBuffer) + [LogEntry(text, ApiError, UnixSeconds(millis))], config.maxBufferSize))
        && (!ShouldLogRemote(config, ERROR) ==> logBuffer == old(logBuffer))
    {
      var text := "Uncaught error: " + UncaughtText(message, source, lineno, colno, error);
      line := FormatMessage(ERROR, timestamp, text);
      AddToBuffer(ERROR, text, millis);
    }

    /** The `unhandledrejection` listener: like `onerror`, with the reason
        rendered as `name: message` for an error and `String(reason)`
        otherwise. */
    method OnUnhandledRejection(reason: JsValue, timestamp: string, millis: int) returns (line: string)
      requires Valid()
      modifies this`logBuffer
      ensures Valid()
      ensures var text := "Unhandled promise rejection: " + ReasonText(reason);
        && line == FormatMessage(ERROR, timestamp, text)
        && (ShouldLogRemote(config, ERROR) ==>
             logBuffer == SliceFromEnd(old(logBuffer) + [LogEntry(text, ApiError, UnixSeconds(millis))], config.maxBufferSize))
        && (!ShouldLogRemote(config, ERROR) ==> logBuffer == old(logBuffer))
    {
      var text := "Unhandled promise rejection: " + ReasonText(reason);
      line := FormatMessage(ERROR, timestamp, text);
      AddToBuffer(ERROR, text, millis);
    }

    // -------------------------------------------------------------------------
    // Flushing

    /** The first half of `flush()`: nothing when the buffer is empty or a
        flush is in progress; otherwise the whole buffer becomes the batch and
        the buffer is emptied. */
    method BeginFlush() returns (started: bool)
      requires Valid()
      modifies this`logBuffer, this`inFlight, this`isFlushingInProgress
      ensures Valid()
      ensures started <==> |old(logBuffer)| > 0 && !old(isFlushingInProgress)
      ensures !started ==> unchanged(this)
      ensures started ==> isFlushingInProgress && inFlight == old(logBuffer) && logBuffer == []
    {
      if |logBuffer| == 0 || isFlushingInProgress {
        return false;
      }
      isFlushingInProgress := true;
      inFlight := logBuffer;
      logBuffer := [];
      started := true;
    }

    /** The second half of `flush()`, once the request has settled: on
        success the batch is gone and only entries logged meanwhile remain; on
        failure the batch goes back ahead of them, trimmed to the newest
        entries, and a warning is printed. Either way the flag is cleared. */
    method EndFlush(success: bool) returns (warning: Option<string>)
      requires Valid() && isFlushingInProgress
      modifies this`logBuffer, this`inFlight, this`isFlushingInProgress
      ensures Valid()
      ensures !isFlushingInProgress && inFlight == []
      ensures success ==> logBuffer == old(logBuffer) && warning == None
      ensures !success ==> warning == Some(FlushFailedWarning)
      ensures !success ==>
        var all := old(inFlight) + old(logBuffer);
        && |logBuffer| == (if |all| <= config.maxBufferSize then |all| else config.maxBufferSize)
        && logBuffer == all[|all| - |logBuffer|..]
    {
      warning := None;
      if !success {
        logBuffer := SliceFromEnd(inFlight + logBuffer, config.maxBufferSize);
        warning := Some(FlushFailedWarning);
      }
      isFlushingInProgress := false;
      inFlight := [];
    }

    /** `flush()` run to completion with nothing logged during the request,
        where `outcome` says how each request ends: a failed batch comes back
        whole, a successful one is gone. */
    method Flush(outcome: nat -> Outcome) returns (result: Option<SendResult>)
      requires Valid()
      modifies this`logBuffer, this`inFlight, this`isFlushingInProgress
      ensures Valid()
      ensures |old(logBuffer)| == 0 || old(isFlushingInProgress) ==> result == None && unchanged(this)
      ensures |old(logBuffer)| > 0 && !old(isFlushingInProgress) ==>
        && result == Some(SendLogs(old(logBuffer), apiKey, serviceId, config, outcome, 0))
        && !isFlushingInProgress
        && logBuffer == (if result.value.ok then [] else old(logBuffer))
    {
      var started := BeginFlush();
      if !started {
        return None;
      }
      var sent := SendLogs(inFlight, apiKey, serviceId, config, outcome, 0);
      var _ := EndFlush(sent.ok);
      result := Some(sent);
    }

    /** `flushSync()` on page hide or unload: with entries and credentials,
        the whole buffer is handed to one beacon addressed to the endpoint
        with the key in the query string, and the buffer is emptied;
        otherwise nothing happens. */
    method FlushSync() returns (beacon: Option<Beacon>)
      requires Valid()
      modifies this`logBuffer
      ensures Valid()
      ensures |old(logBuffer)| == 0 || apiKey == "" || serviceId == "" ==> beacon == None && logBuffer == old(logBuffer)
      ensures |old(logBuffer)| > 0 && apiKey != "" && serviceId != "" ==>
        && beacon == Some(Beacon(GetLogsEndpoint(logsApiBaseUrl, proxyEndpoint, serviceId) + "?api_key=" + apiKey, old(logBuffer)))
        && logBuffer == []
    {
      if |logBuffer| == 0 || apiKey == "" || serviceId == "" {
        return None;
      }
      var logs := logBuffer;
      logBuffer := [];
      beacon := Some(Beacon(GetLogsEndpoint(logsApiBaseUrl, proxyEndpoint, serviceId) + "?api_key=" + apiKey, logs));
    }

    // -------------------------------------------------------------------------
    // Timer and settings

    /** `startFlushTimer()`: installs the interval once. */
    method StartFlushTimer()
      modifies this`flushTimer
      ensures flushTimer
    {
      if flushTimer {
        return;
      }
      flushTimer := true;
    }

    /** `stopFlushTimer()` */
    method StopFlushTimer()
      modifies this`flushTimer
      ensures !flushTimer
    {
      if flushTimer {
        flushTimer := false;
      }
    }

    method SetLevel(level: LogLevel)
      requires Valid()
      modifies this`config
      ensures Valid()
      ensures config == old(config).(minLevel := level)
    {
      config := config.(minLevel := level);
    }

    method SetRemoteLevel(level: LogLevel)
      requires Valid()
      modifies this`config
      ensures Valid()
      ensures config == old(config).(minRemoteLevel := level)
    {
      config := config.(minRemoteLevel := level);
    }

    method SetEnabled(enabled: bool)
      requires Valid()
      modifies this`config
      ensures Valid()
      ensures config == old(config).(enabled := enabled)
    {
      config := config.(enabled := enabled);
    }

    /** `setRemoteEnabled(b)`: the interval runs exactly when remote logging
        is on. */
    method SetRemoteEnabled(enabled: bool)
      requires Valid()
      modifies this`config, this`flushTimer
      ensures Valid()
      ensures config == old(config).(remoteEnabled := enabled)
      ensures flushTimer == enabled
    {
      config := config.(remoteEnabled := enabled);
      if enabled {
        StartFlushTimer();
      } else {
        StopFlushTimer();
      }
    }

    /** `getBufferSize()` */
    method GetBufferSize() returns (n: nat)
      requires Valid()
      ensures n == |logBuffer| && n <= 100
    {
      n := |logBuffer|;
    }
  }

  /** The text `window.onerror` reports: `name: message` of the error object
      when one is given, otherwise `String(message)`, followed by
      ` at source:line:column` when a source is known. */
  function UncaughtText(message: JsValue, source: JsValue, lineno: JsValue, colno: JsValue, error: JsValue): string {
    var errorMessage :=
      if Truthy(error) then JsToString(Get(error, "name")) + ": " + JsToString(Get(error, "message"))
      else JsToString(message);
    var location :=
      if Truthy(source) then " at " + JsToString(source) + ":" + JsToString(lineno) + ":" + JsToString(colno)
      else "";
    errorMessage + location
  }

  /** The reason text of an unhandled rejection. */
  function ReasonText(reason: JsValue): string {
    match reason
    case ErrorValue(name, message) => name + ": " + message
    case _ => JsToString(reason)
  }
}
