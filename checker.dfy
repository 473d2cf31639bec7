/**
 * A single check (internal/checker/checker.go): its construction defaults
 * and how one run of its command becomes a history item.
 *
 * Running the command is outside the model: Check receives the outcome of
 * `cmd.Run()` as a RunOutcome, together with the combined output, the clock
 * reading taken afterwards and the measured duration.
 */
module Checker {
  import opened Wrappers
  import opened Text
  import History

  /** A time.Duration: nanoseconds. */
  type Duration = int

  const Millisecond: Duration := 1_000_000
  const Minute: Duration := 60_000_000_000

  /** logger.LogLevel values. */
  const LevelNone: int := -1
  const LevelInfo: int := 0
  const LevelDebug: int := 1

  /** Duration.Milliseconds: the whole number of milliseconds, truncated toward zero. */
  function Milliseconds(d: Duration): (ms: int)
    ensures d >= 0 ==> 0 <= ms * Millisecond <= d < (ms + 1) * Millisecond
    ensures d < 0 ==> (ms - 1) * Millisecond < d <= ms * Millisecond <= 0
  {
    if d >= 0 then d / Millisecond else -((-d) / Millisecond)
  }

  /** A timeout counts as unset exactly when it is shorter than one millisecond either way. */
  lemma NoWholeMillisecondIff(d: Duration)
    ensures Milliseconds(d) == 0 <==> -Millisecond < d < Millisecond
  {
  }

  /** The timeout New keeps (checker.go:43-45). */
  function EffectiveTimeout(d: Duration): (t: Duration)
    ensures Milliseconds(d) == 0 ==> t == Minute
    ensures Milliseconds(d) != 0 ==> t == d
  {
    if Milliseconds(d) == 0 then Minute else d
  }

  /** What `cmd.Run()` returned. */
  datatype RunOutcome =
    | Exited(code: int)             // an *exec.ExitError with this ExitCode()
    | RunFailed(reason: string)     // any other error, as printed by %v
    | Succeeded(stdout: seq<byte>)  // nil error, with the bytes written to stdout

  const MetricParsePrefix := "Failed to parse metric from output: "

  /** The text of the *strconv.NumError returned by ParseInt for this input. */
  function ParseErrorText(s: seq<byte>, e: NumError): string {
    "strconv.ParseInt: parsing " + Quote(s) + ": " + e.Text()
  }

  class Checker {
    const group: string
    const name: string
    const kind: string
    const cmd: string
    const metricUnit: string
    const interval: Duration
    var cmdTimeout: Duration
    /** The level and prefix of the checker's logger. */
    var logLevel: int
    var logPrefix: string

    /** New (checker.go:42-51): a timeout under one millisecond becomes one minute; logging starts at info. */
    constructor New(group: string, name: string, kind: string, cmd: string, metricUnit: string,
                    interval: Duration, cmdTimeout: Duration)
      ensures this.group == group && this.name == name && this.kind == kind && this.cmd == cmd
      ensures this.metricUnit == metricUnit && this.interval == interval
      ensures this.cmdTimeout == EffectiveTimeout(cmdTimeout)
      ensures logLevel == LevelInfo && logPrefix == group + ":" + name + ":"
    {
      this.group := group;
      this.name := name;
      this.kind := kind;
      this.cmd := cmd;
      this.metricUnit := metricUnit;
      this.interval := interval;
      this.cmdTimeout := if Milliseconds(cmdTimeout) == 0 then Minute else cmdTimeout;
      logLevel := LevelInfo;
      logPrefix := group + ":" + name + ":";
    }

    /** SetLogLevel (checker.go:61-66): a new logger at `level`, prefixed "group:name:". */
    method SetLogLevel(level: int)
      modifies this
      ensures logLevel == level && logPrefix == group + ":" + name + ":"
      ensures cmdTimeout == old(cmdTimeout)
    {
      logLevel := level;
      logPrefix := group + ":" + name + ":";
    }

    /**
     * Check (checker.go:68-129): the item for one run. The item always
     * carries the checker's group, name, type and unit and the run's output
     * and times. An exit error or any other run error is unhealthy with a
     * message; a clean exit is healthy, and for a metric check its stdout
     * must be a base-10 int64 or the item records the parse error and keeps
     * metric 0.
     */
    function Check(outcome: RunOutcome, output: seq<byte>, createdAt: nat, duration: Duration): (item: History.Item)
      reads this
      ensures item.group == group && item.name == name && item.kind == kind && item.metricUnit == metricUnit
      ensures item.output == output && item.createdAt == createdAt && item.duration == duration
      ensures item.status == "healthy" || item.status == "unhealthy"
      ensures item.status == "unhealthy" <==> !outcome.Succeeded?
      ensures outcome.Exited? ==> item.error == "Process exited with status " + FormatInt(outcome.code)
      ensures outcome.RunFailed? ==> item.error == "Failed to run: #" + outcome.reason
      ensures !outcome.Succeeded? || kind != "metric" ==> item.metric == 0
      ensures outcome.Succeeded? && kind != "metric" ==> item.error == ""
      ensures outcome.Succeeded? && kind == "metric" ==>
                match ParseInt64(BytesToString(outcome.stdout))
                case Success(n) => item.metric == n && item.error == ""
                case Failure(e) => item.metric == 0 && item.error == MetricParsePrefix + ParseErrorText(outcome.stdout, e)
    {
      var item := History.Item(group, name, kind, output, createdAt, duration, 0, metricUnit, "", "");
      match outcome
      case Exited(code) =>
        item.(status := "unhealthy", error := "Process exited with status " + FormatInt(code))
      case RunFailed(reason) =>
        item.(status := "unhealthy", error := "Failed to run: #" + reason)
      case Succeeded(stdout) =>
        if kind != "metric" then item.(status := "healthy")
        else
          match ParseInt64(BytesToString(stdout))
          case Success(n) => item.(status := "healthy", metric := n)
          case Failure(e) => item.(status := "healthy", error := MetricParsePrefix + ParseErrorText(stdout, e))
    }
  }

  /** A metric command that prints exactly the decimal text of an int64 records that value. */
  lemma MetricRecorded(c: Checker, n: int, output: seq<byte>, createdAt: nat, duration: Duration)
    requires c.kind == "metric" && IsInt64(n)
    ensures var item := c.Check(Succeeded(StringToBytes(FormatInt(n))), output, createdAt, duration);
            item.status == "healthy" && item.metric == n && item.error == ""
  {
    ParseFormatRoundTrip(n);
  }

  /**
   * A metric command that ends its output with a newline, as `echo` does,
   * stays healthy but records a syntax error and metric 0: stdout is parsed
   * without trimming.
   */
  lemma EchoedMetricNotRecorded(c: Checker, n: int, output: seq<byte>, createdAt: nat, duration: Duration)
    requires c.kind == "metric" && IsInt64(n)
    ensures var stdout := StringToBytes(FormatInt(n) + "\n");
            var item := c.Check(Succeeded(stdout), output, createdAt, duration);
            && item.status == "healthy" && item.metric == 0
            && item.error == MetricParsePrefix + ParseErrorText(stdout, ErrSyntax)
  {
    TrailingNewlineRejected(n);
  }
}
