/**
 * Loading a patrol from its configuration (config.go): the page defaults,
 * the log-level names, the notification handler maps, the defaults and
 * checks applied to every configured check with the first problem found
 * reported, and the list form of a check command.
 *
 * YAML decoding is outside the model: FromConfig starts from the decoded
 * configRaw, and a service map is given as its entries in the order Go's
 * map iteration visits them. The file system is a function from path to
 * what opening and reading that path yields.
 */
module Config {
  import opened Wrappers
  import opened Text
  import History
  import Checker
  import Patrol

  type Duration = Checker.Duration

  const Second: Duration := 1_000_000_000
  const DefaultPort: int := 8080
  const DefaultLogLevel := "info"
  const DefaultKind := "boolean"
  const DefaultMaxRetries: int := 3
  const Uint32Modulus: int := 0x1_0000_0000

  const DbMissing := "'db' propery must be specified in config file"
  const NoServices := "Config file contains no services"

  /** What the YAML node under `cmd` decoded as. */
  datatype CmdNode = CmdList(parts: seq<string>) | CmdScalar(text: string) | CmdInvalid(reason: string)

  /** checkCmd.UnmarshalYAML (config.go:23-35): a list is joined with ";", a string kept, anything else refused. */
  function CheckCmd(node: CmdNode): (r: Result<string, string>)
    ensures r.Success? <==> !node.CmdInvalid?
    ensures node.CmdInvalid? ==> r.error == node.reason
  {
    match node
    case CmdList(parts) => Success(Join(parts, ';'))
    case CmdScalar(text) => Success(text)
    case CmdInvalid(reason) => Failure(reason)
  }

  /**
   * A list of commands without ";" in them can be recovered from the joined
   * command, and a one-element list is the same command as the string.
   */
  lemma CmdListSplits(parts: seq<string>)
    requires |parts| > 0 && forall i | 0 <= i < |parts| :: ';' !in parts[i]
    ensures CheckCmd(CmdList(parts)).Success?
    ensures Split(CheckCmd(CmdList(parts)).value, ';') == parts
    ensures |parts| == 1 ==> CheckCmd(CmdList(parts)) == CheckCmd(CmdScalar(parts[0]))
  {
    SplitJoin(parts, ';');
  }

  /** An empty list decodes to the empty command, which FromConfig reports as missing. */
  lemma EmptyCmdListIsMissing()
    ensures CheckCmd(CmdList([])) == Success("")
  {
  }

  /** getLogLevel (config.go:198-209). */
  function LogLevelOf(level: string): (r: Result<int, string>)
    ensures r.Success? <==> level == "none" || level == "info" || level == "debug"
    ensures r.Success? ==> Checker.LevelNone <= r.value <= Checker.LevelDebug
    ensures r.Failure? ==> r.error == "Unrecognized log level: '" + level + "'"
    ensures level == "none" ==> r == Success(Checker.LevelNone)
    ensures level == "info" ==> r == Success(Checker.LevelInfo)
    ensures level == "debug" ==> r == Success(Checker.LevelDebug)
  {
    if level == "none" then Success(Checker.LevelNone)
    else if level == "info" then Success(Checker.LevelInfo)
    else if level == "debug" then Success(Checker.LevelDebug)
    else Failure("Unrecognized log level: '" + level + "'")
  }

  /** The configuration name of each level. */
  function LevelName(level: int): string
    requires Checker.LevelNone <= level <= Checker.LevelDebug
  {
    if level == Checker.LevelNone then "none" else if level == Checker.LevelInfo then "info" else "debug"
  }

  /** The names and the levels are in one-to-one correspondence. */
  lemma LogLevelNames(level: int, name: string)
    requires Checker.LevelNone <= level <= Checker.LevelDebug
    ensures LogLevelOf(LevelName(level)) == Success(level)
    ensures LogLevelOf(name).Success? ==> LevelName(LogLevelOf(name).value) == name
  {
  }

  /** EventHandlers as config.go:103-107 and 187-191 build them from the three handler lists. */
  function Handlers(onSuccess: seq<Patrol.Handler>, onRecovered: seq<Patrol.Handler>, onFailure: seq<Patrol.Handler>): Patrol.EventHandlers {
    map["healthy" := onSuccess, "recovered" := onRecovered, "unhealthy" := onFailure]
  }

  /**
   * Through Patrol's dispatch, the global lists (raw.OnSuccess, OnRecovered
   * and OnFailure, config.go:103-107) run for "healthy", "recovered" and
   * "unhealthy", followed by the group's own lists (groupConfig.OnSuccess,
   * OnRecovered and OnFailure, config.go:187-191), and any other status runs
   * nothing.
   */
  lemma HandlersDispatch(global: Patrol.EventHandlers, byGroup: map<string, Patrol.EventHandlers>, group: string,
                         globalSuccess: seq<Patrol.Handler>, globalRecovered: seq<Patrol.Handler>,
                         globalFailure: seq<Patrol.Handler>,
                         onSuccess: seq<Patrol.Handler>, onRecovered: seq<Patrol.Handler>, onFailure: seq<Patrol.Handler>,
                         status: string)
    requires global == Handlers(globalSuccess, globalRecovered, globalFailure)
    requires group in byGroup && byGroup[group] == Handlers(onSuccess, onRecovered, onFailure)
    ensures status == "healthy" ==> Patrol.Dispatch(Some(global), byGroup, status, group) == globalSuccess + onSuccess
    ensures status == "recovered" ==> Patrol.Dispatch(Some(global), byGroup, status, group) == globalRecovered + onRecovered
    ensures status == "unhealthy" ==> Patrol.Dispatch(Some(global), byGroup, status, group) == globalFailure + onFailure
    ensures status !in {"healthy", "recovered", "unhealthy"} ==> Patrol.Dispatch(Some(global), byGroup, status, group) == []
  {
  }

  /** One entry of a service's `checks` list. */
  datatype CheckRaw = CheckRaw(
    name: string,
    interval: Duration,
    timeout: Duration,
    cmd: string,
    kind: string,
    metricUnit: string,
    maxRetries: Option<int>,
    retryInterval: Duration)

  /** One service: its checks and its handler lists. */
  datatype ServiceRaw = ServiceRaw(
    checks: seq<CheckRaw>,
    onFailure: seq<Patrol.Handler>,
    onRecovered: seq<Patrol.Handler>,
    onSuccess: seq<Patrol.Handler>)

  /** configRaw; `Compact` belongs to options the shown history file does not have. */
  datatype ConfigRaw = ConfigRaw(
    name: string,
    port: int,
    https: Patrol.HttpsOptions,
    db: string,
    logLevel: string,
    services: seq<(string, ServiceRaw)>,
    onFailure: seq<Patrol.Handler>,
    onRecovered: seq<Patrol.Handler>,
    onSuccess: seq<Patrol.Handler>)

  /** The entries of a Go map have distinct keys. */
  predicate DistinctGroups(services: seq<(string, ServiceRaw)>) {
    forall i, j | 0 <= i < j < |services| :: services[i].0 != services[j].0
  }

  /** The page settings FromConfig derives before opening the history file. */
  datatype Settings = Settings(name: string, port: nat, logLevel: int)

  /**
   * config.go:80-96 and the uint32 conversion at line 100: an empty name is
   * "Statuspage", a port that is not positive is 8080, an empty db is an
   * error, an empty level is "info" and an unknown one an error.
   */
  function PageSettings(raw: ConfigRaw): (r: Result<Settings, string>)
    ensures raw.db == "" ==> r == Failure(DbMissing)
    ensures r.Success? <==> raw.db != "" && (raw.logLevel == "" || LogLevelOf(raw.logLevel).Success?)
    ensures raw.db != "" && raw.logLevel != "" && r.Failure? ==> r == Failure(LogLevelOf(raw.logLevel).error)
    ensures r.Success? ==> r.value.name != "" && (raw.name != "" ==> r.value.name == raw.name)
    ensures r.Success? && raw.name == "" ==> r.value.name == Patrol.DefaultName
    ensures r.Success? ==> r.value.port == (if raw.port <= 0 then DefaultPort else raw.port) % Uint32Modulus
    ensures r.Success? ==> r.value.port < Uint32Modulus
    ensures r.Success? && 0 < raw.port < Uint32Modulus ==> r.value.port == raw.port
    ensures r.Success? && raw.port <= 0 ==> r.value.port == DefaultPort
    ensures r.Success? && raw.logLevel == "" ==> r.value.logLevel == Checker.LevelInfo
  {
    var name := if raw.name == "" then Patrol.DefaultName else raw.name;
    var port := if raw.port <= 0 then DefaultPort else raw.port;
    if raw.db == "" then Failure(DbMissing)
    else
      match LogLevelOf(if raw.logLevel == "" then DefaultLogLevel else raw.logLevel)
      case Failure(e) => Failure(e)
      case Success(level) => Success(Settings(name, port % Uint32Modulus, level))
  }

  /** The check after config.go:142-170 filled in its type, interval, timeout and retry interval. */
  function WithDefaults(c: CheckRaw): (d: CheckRaw)
    ensures d.name == c.name && d.cmd == c.cmd && d.metricUnit == c.metricUnit && d.maxRetries == c.maxRetries
    ensures d.kind != "" && d.interval != 0 && d.timeout != 0 && d.retryInterval > 0
    ensures c.kind != "" ==> d.kind == c.kind
    ensures c.interval != 0 ==> d.interval == c.interval
    ensures c.timeout != 0 ==> d.timeout == c.timeout
    ensures c.retryInterval > 0 ==> d.retryInterval == c.retryInterval
    ensures c.kind == "" ==> d.kind == DefaultKind
    ensures c.interval == 0 ==> d.interval == 60 * Second
    ensures c.timeout == 0 ==> d.timeout == 3 * Checker.Minute
    ensures c.retryInterval <= 0 ==> d.retryInterval == Checker.Minute
  {
    c.(kind := if c.kind == "" then DefaultKind else c.kind,
       interval := if c.interval == 0 then 60 * Second else c.interval,
       timeout := if c.timeout == 0 then 3 * Checker.Minute else c.timeout,
       retryInterval := if c.retryInterval <= 0 then Checker.Minute else c.retryInterval)
  }

  /** Filling in defaults twice changes nothing more. */
  lemma WithDefaultsIdempotent(c: CheckRaw)
    ensures WithDefaults(WithDefaults(c)) == WithDefaults(c)
  {
  }

  /** The problem config.go:145-156 reports for the idx-th check of a group, if any. */
  function CheckProblem(group: string, idx: nat, c: CheckRaw): (e: Option<string>)
    ensures e.None? <==> c.name != "" && c.cmd != "" && (c.kind == "metric" ==> c.metricUnit != "")
  {
    var kind := if c.kind == "" then DefaultKind else c.kind;
    if c.name == "" then Some(FormatNat(idx) + "-th check missing name in " + group)
    else if c.cmd == "" then Some(FormatNat(idx) + "-th check missing cmd in " + group)
    else if kind == "metric" && c.metricUnit == "" then Some(FormatNat(idx) + "-th check is of type metric but is missing unit in " + group)
    else None
  }

  /** What config.go:173-184 hands to checker.New for one check. */
  datatype CheckSpec = CheckSpec(
    group: string,
    name: string,
    kind: string,
    cmd: string,
    metricUnit: string,
    maxRetries: int,
    retryInterval: Duration,
    interval: Duration,
    timeout: Duration)

  /** The spec of one check: its own fields with the defaults filled in, and 3 retries when none is given. */
  function SpecOf(group: string, c: CheckRaw): (s: CheckSpec)
    ensures s.group == group && s.name == c.name && s.cmd == c.cmd && s.metricUnit == c.metricUnit
    ensures c.maxRetries.Some? ==> s.maxRetries == c.maxRetries.value
    ensures c.maxRetries.None? ==> s.maxRetries == DefaultMaxRetries
    ensures s.kind == WithDefaults(c).kind && s.interval == WithDefaults(c).interval
    ensures s.timeout == WithDefaults(c).timeout && s.retryInterval == WithDefaults(c).retryInterval
  {
    var d := WithDefaults(c);
    CheckSpec(group, d.name, d.kind, d.cmd, d.metricUnit,
              if d.maxRetries.Some? then d.maxRetries.value else DefaultMaxRetries,
              d.retryInterval, d.interval, d.timeout)
  }

  /** A result with some specs put in front of its own. */
  function Prepend(acc: seq<CheckSpec>, r: Result<seq<CheckSpec>, string>): Result<seq<CheckSpec>, string> {
    match r
    case Success(s) => Success(acc + s)
    case Failure(e) => Failure(e)
  }

  /** The checks of one group from position i on: their specs, or the first problem. */
  function ChecksFrom(group: string, checks: seq<CheckRaw>, i: nat): Result<seq<CheckSpec>, string>
    requires i <= |checks|
    decreases |checks| - i
  {
    if i == |checks| then Success([])
    else
      match CheckProblem(group, i, checks[i])
      case Some(e) => Failure(e)
      case None => Prepend([SpecOf(group, checks[i])], ChecksFrom(group, checks, i + 1))
  }

  function EmptyGroup(group: string): string {
    "Empty group '" + group + "' defined in config"
  }

  /** The services from position i on, in iteration order: an empty group or a bad check stops. */
  function ServicesFrom(services: seq<(string, ServiceRaw)>, i: nat): Result<seq<CheckSpec>, string>
    requires i <= |services|
    decreases |services| - i
  {
    if i == |services| then Success([])
    else if |services[i].1.checks| == 0 then Failure(EmptyGroup(services[i].0))
    else
      match ChecksFrom(services[i].0, services[i].1.checks, 0)
      case Failure(e) => Failure(e)
      case Success(specs) => Prepend(specs, ServicesFrom(services, i + 1))
  }

  /** config.go:131-185: the checkers to create, in order, or the first error. */
  function Plan(services: seq<(string, ServiceRaw)>): Result<seq<CheckSpec>, string> {
    if |services| == 0 then Failure(NoServices) else ServicesFrom(services, 0)
  }

  /** A check passes validation. */
  predicate GoodCheck(c: CheckRaw) {
    c.name != "" && c.cmd != "" && (c.kind == "metric" ==> c.metricUnit != "")
  }

  /** Every group has checks and every check passes validation. */
  predicate GoodServices(services: seq<(string, ServiceRaw)>, i: nat)
    requires i <= |services|
  {
    forall k | i <= k < |services| ::
      |services[k].1.checks| > 0 && forall j | 0 <= j < |services[k].1.checks| :: GoodCheck(services[k].1.checks[j])
  }

  /** The specs of one group's checks, each with its defaults. */
  function GroupSpecs(group: string, checks: seq<CheckRaw>): (s: seq<CheckSpec>)
    ensures |s| == |checks| && forall j | 0 <= j < |checks| :: s[j] == SpecOf(group, checks[j])
  {
    seq(|checks|, j requires 0 <= j < |checks| => SpecOf(group, checks[j]))
  }

  /** The specs of all services from position i on, group after group. */
  function AllSpecs(services: seq<(string, ServiceRaw)>, i: nat): seq<CheckSpec>
    requires i <= |services|
    decreases |services| - i
  {
    if i == |services| then [] else GroupSpecs(services[i].0, services[i].1.checks) + AllSpecs(services, i + 1)
  }

  lemma {:induction false} ChecksFromIff(group: string, checks: seq<CheckRaw>, i: nat)
    requires i <= |checks|
    ensures ChecksFrom(group, checks, i).Success? <==> forall j | i <= j < |checks| :: GoodCheck(checks[j])
    ensures ChecksFrom(group, checks, i).Success? ==> ChecksFrom(group, checks, i).value == GroupSpecs(group, checks)[i..]
    decreases |checks| - i
  {
    if i < |checks| {
      ChecksFromIff(group, checks, i + 1);
      var all := GroupSpecs(group, checks);
      assert all[i..] == [all[i]] + all[i + 1..];
    }
  }

  lemma {:induction false} ServicesFromIff(services: seq<(string, ServiceRaw)>, i: nat)
    requires i <= |services|
    ensures ServicesFrom(services, i).Success? <==> GoodServices(services, i)
    ensures ServicesFrom(services, i).Success? ==> ServicesFrom(services, i).value == AllSpecs(services, i)
    decreases |services| - i
  {
    if i < |services| {
      ServicesFromIff(services, i + 1);
      ChecksFromIff(services[i].0, services[i].1.checks, 0);
      assert GroupSpecs(services[i].0, services[i].1.checks)[0..] == GroupSpecs(services[i].0, services[i].1.checks);
    }
  }

  /**
   * The configuration is accepted exactly when there is a service, every
   * group has a check and every check has a name, a command and, for a
   * metric, a unit; the checkers are then all checks, group after group,
   * each with its defaults.
   */
  lemma PlanSucceedsIff(services: seq<(string, ServiceRaw)>)
    ensures Plan(services).Success? <==> |services| > 0 && GoodServices(services, 0)
    ensures Plan(services).Success? ==> Plan(services).value == AllSpecs(services, 0)
  {
    ServicesFromIff(services, 0);
  }

  /** Every check FromConfig hands on has a type, an interval, a timeout and a positive retry interval. */
  lemma {:induction false} AllSpecsComplete(services: seq<(string, ServiceRaw)>, i: nat)
    requires i <= |services| && GoodServices(services, i)
    ensures forall s | s in AllSpecs(services, i) ::
              && s.name != "" && s.cmd != "" && s.kind != "" && (s.kind == "metric" ==> s.metricUnit != "")
              && s.interval != 0 && s.timeout != 0 && s.retryInterval > 0
    decreases |services| - i
  {
    if i < |services| {
      AllSpecsComplete(services, i + 1);
      var group := GroupSpecs(services[i].0, services[i].1.checks);
      forall s | s in group
        ensures && s.name != "" && s.cmd != "" && s.kind != "" && (s.kind == "metric" ==> s.metricUnit != "")
                && s.interval != 0 && s.timeout != 0 && s.retryInterval > 0
      {
        var j :| 0 <= j < |group| && group[j] == s;
        assert GoodCheck(services[i].1.checks[j]);
      }
    }
  }

  /** The group handler map after the first n services (config.go:187-191). */
  function GroupHandlers(services: seq<(string, ServiceRaw)>, n: nat): map<string, Patrol.EventHandlers>
    requires n <= |services|
  {
    if n == 0 then map[]
    else
      var (group, svc) := services[n - 1];
      GroupHandlers(services, n - 1)[group := Handlers(svc.onSuccess, svc.onRecovered, svc.onFailure)]
  }

  /** Every processed group, and only those, has an entry. */
  lemma {:induction false} GroupHandlersDomain(services: seq<(string, ServiceRaw)>, n: nat)
    requires n <= |services|
    ensures forall g :: g in GroupHandlers(services, n) <==> exists i | 0 <= i < n :: services[i].0 == g
  {
    if n > 0 {
      GroupHandlersDomain(services, n - 1);
      var prev := GroupHandlers(services, n - 1);
      var (group, svc) := services[n - 1];
      assert GroupHandlers(services, n) == prev[group := Handlers(svc.onSuccess, svc.onRecovered, svc.onFailure)];
      forall g ensures g in GroupHandlers(services, n) <==> exists i | 0 <= i < n :: services[i].0 == g {
        if g in prev {
          var i :| 0 <= i < n - 1 && services[i].0 == g;
          assert 0 <= i < n && services[i].0 == g;
        }
      }
    }
  }

  /** With distinct group names, every processed group maps to its own three lists. */
  lemma {:induction false} GroupHandlersValues(services: seq<(string, ServiceRaw)>, n: nat)
    requires n <= |services| && DistinctGroups(services)
    ensures forall i | 0 <= i < n ::
              && services[i].0 in GroupHandlers(services, n)
              && GroupHandlers(services, n)[services[i].0] ==
                 Handlers(services[i].1.onSuccess, services[i].1.onRecovered, services[i].1.onFailure)
  {
    if n > 0 {
      GroupHandlersValues(services, n - 1);
      var prev := GroupHandlers(services, n - 1);
      var (group, svc) := services[n - 1];
      assert GroupHandlers(services, n) == prev[group := Handlers(svc.onSuccess, svc.onRecovered, svc.onFailure)];
      forall i | 0 <= i < n - 1
        ensures GroupHandlers(services, n)[services[i].0] ==
                Handlers(services[i].1.onSuccess, services[i].1.onRecovered, services[i].1.onFailure)
      {
        assert services[i].0 != group;
      }
    }
  }

  /** A service after FromConfig wrote its checks' defaults back (config.go:172). */
  function NormalisedService(svc: ServiceRaw): (n: ServiceRaw)
    ensures |n.checks| == |svc.checks|
  {
    svc.(checks := seq(|svc.checks|, j requires 0 <= j < |svc.checks| => WithDefaults(svc.checks[j])))
  }

  /** The configRaw FromConfig returns after a successful load. */
  function Normalised(raw: ConfigRaw): ConfigRaw {
    raw.(name := if raw.name == "" then Patrol.DefaultName else raw.name,
         port := if raw.port <= 0 then DefaultPort else raw.port,
         logLevel := if raw.logLevel == "" then DefaultLogLevel else raw.logLevel,
         services := seq(|raw.services|, i requires 0 <= i < |raw.services| =>
                           (raw.services[i].0, NormalisedService(raw.services[i].1))))
  }

  /** Normalising a loaded configuration again changes nothing. */
  lemma NormalisedIdempotent(raw: ConfigRaw)
    ensures Normalised(Normalised(raw)) == Normalised(raw)
  {
    var once := Normalised(raw);
    var twice := Normalised(once);
    forall i | 0 <= i < |raw.services| ensures twice.services[i] == once.services[i] {
      var checks := once.services[i].1.checks;
      forall j | 0 <= j < |checks| ensures WithDefaults(checks[j]) == checks[j] {
        WithDefaultsIdempotent(raw.services[i].1.checks[j]);
      }
      assert NormalisedService(once.services[i].1).checks == checks;
    }
  }

  /** A created checker carries its spec; checker.New replaces a timeout under one millisecond. */
  predicate Built(c: Checker.Checker, s: CheckSpec)
    reads c
  {
    && c.group == s.group && c.name == s.name && c.kind == s.kind && c.cmd == s.cmd
    && c.metricUnit == s.metricUnit && c.interval == s.interval
    && c.cmdTimeout == Checker.EffectiveTimeout(s.timeout)
  }

  /** Which file history.New opens: the db entry unless history options were passed. */
  function HistoryPath(raw: ConfigRaw, historyOptions: Option<History.NewOptions>): string {
    if historyOptions.None? then raw.db else historyOptions.value.file
  }

  datatype ConfigError = Invalid(message: string) | HistoryFailed(cause: History.OpenError)

  /** The history file could be opened and replayed. */
  predicate Opens(codec: History.Codec, opening: Result<seq<byte>, string>) {
    opening.Success? && History.Replay(codec.decode, opening.value).Success?
  }

  /** The first problem of one service entry, if any. */
  function GroupProblem(group: string, svc: ServiceRaw): Option<string> {
    if |svc.checks| == 0 then Some(EmptyGroup(group))
    else match ChecksFrom(group, svc.checks, 0)
      case Failure(e) => Some(e)
      case Success(_) => None
  }

  /** Past good checks, the first problem found is the one reported. */
  lemma {:induction false} ChecksFromFirstProblem(group: string, checks: seq<CheckRaw>, i: nat, idx: nat)
    requires i <= idx < |checks| && CheckProblem(group, idx, checks[idx]).Some?
    requires forall j | i <= j < idx :: GoodCheck(checks[j])
    ensures ChecksFrom(group, checks, i) == Failure(CheckProblem(group, idx, checks[idx]).value)
    decreases idx - i
  {
    var e := CheckProblem(group, i, checks[i]);
    if i < idx {
      assert GoodCheck(checks[i]) && e.None?;
      ChecksFromFirstProblem(group, checks, i + 1, idx);
      assert ChecksFrom(group, checks, i) == Prepend([SpecOf(group, checks[i])], ChecksFrom(group, checks, i + 1));
    } else {
      assert e.Some? && ChecksFrom(group, checks, i) == Failure(e.value);
    }
  }

  /** A group whose checks are good up to a bad one reports that one. */
  lemma FirstBadCheckReported(group: string, svc: ServiceRaw, idx: nat)
    requires idx < |svc.checks| && CheckProblem(group, idx, svc.checks[idx]).Some?
    requires forall j | 0 <= j < idx :: GoodCheck(svc.checks[j])
    ensures GroupProblem(group, svc) == CheckProblem(group, idx, svc.checks[idx])
  {
    ChecksFromFirstProblem(group, svc.checks, 0, idx);
  }

  /** Past good services, the first problem found is the one reported. */
  lemma {:induction false} ServicesFromFirstProblem(services: seq<(string, ServiceRaw)>, i: nat, gi: nat)
    requires i <= gi < |services| && GroupProblem(services[gi].0, services[gi].1).Some?
    requires forall k | i <= k < gi :: GroupProblem(services[k].0, services[k].1).None?
    ensures ServicesFrom(services, i) == Failure(GroupProblem(services[gi].0, services[gi].1).value)
    decreases gi - i
  {
    if i < gi {
      ServicesFromFirstProblem(services, i + 1, gi);
    }
  }

  /**
   * One check of the inner loop of FromConfig (config.go:142-184): the
   * first problem with the check, or the check with its defaults and a new
   * checker for it.
   */
  method BuildCheck(group: string, idx: nat, checkConfig: CheckRaw) returns (problem: Option<string>, written: CheckRaw, c: Option<Checker.Checker>)
    ensures problem == CheckProblem(group, idx, checkConfig)
    ensures problem.None? ==> && written == WithDefaults(checkConfig)
                              && c.Some? && fresh(c.value) && Built(c.value, SpecOf(group, checkConfig))
  {
    written := checkConfig;
    if written.kind == "" {
      written := written.(kind := DefaultKind);
    }
    if written.name == "" {
      return Some(FormatNat(idx) + "-th check missing name in " + group), written, None;
    }
    if written.cmd == "" {
      return Some(FormatNat(idx) + "-th check missing cmd in " + group), written, None;
    }
    if written.kind == "metric" && written.metricUnit == "" {
      return Some(FormatNat(idx) + "-th check is of type metric but is missing unit in " + group), written, None;
    }
    if written.interval == 0 {
      written := written.(interval := 60 * Second);
    }
    if written.timeout == 0 {
      written := written.(timeout := 3 * Checker.Minute);
    }
    var maxRetries := DefaultMaxRetries;   // handed to checkers with retries, which checker.go does not have
    if written.maxRetries.Some? {
      maxRetries := written.maxRetries.value;
    }
    if written.retryInterval <= 0 {
      written := written.(retryInterval := Checker.Minute);
    }
    var checker := new Checker.Checker.New(group, written.name, written.kind, written.cmd,
                                           written.metricUnit, written.interval, written.timeout);
    return None, written, Some(checker);
  }

  /**
   * The inner loop of FromConfig (config.go:141-185) over one group:
   * its first problem, or the group with its checks' defaults written back
   * and one new checker per check.
   */
  method BuildChecks(group: string, groupConfig: ServiceRaw) returns (problem: Option<string>, written: ServiceRaw, built: seq<Checker.Checker>)
    requires |groupConfig.checks| > 0
    ensures problem == GroupProblem(group, groupConfig)
    ensures problem.None? ==> && written == NormalisedService(groupConfig)
                              && |built| == |groupConfig.checks|
                              && forall k | 0 <= k < |built| :: fresh(built[k]) && Built(built[k], SpecOf(group, groupConfig.checks[k]))
  {
    var checks := groupConfig.checks;
    written := groupConfig;
    built := [];
    var idx := 0;
    while idx < |checks|
      invariant 0 <= idx <= |checks| == |groupConfig.checks|
      invariant forall j | 0 <= j < idx :: checks[j] == WithDefaults(groupConfig.checks[j]) && GoodCheck(groupConfig.checks[j])
      invariant forall j | idx <= j < |checks| :: checks[j] == groupConfig.checks[j]
      invariant |built| == idx
      invariant forall k | 0 <= k < idx :: fresh(built[k]) && Built(built[k], SpecOf(group, groupConfig.checks[k]))
    {
      var checkProblem, checkConfig, c := BuildCheck(group, idx, checks[idx]);
      if checkProblem.Some? {
        FirstBadCheckReported(group, groupConfig, idx);
        return checkProblem, written, built;
      }
      checks := checks[idx := checkConfig];     // groupConfig.Checks[idx] = checkConfig writes through to raw
      built := built + [c.value];
      idx := idx + 1;
    }
    ChecksFromIff(group, groupConfig.checks, 0);
    written := groupConfig.(checks := checks);
    assert written.checks == NormalisedService(groupConfig).checks;
    return None, written, built;
  }

  /** A group without a problem has a check, and every check is good. */
  lemma GoodGroup(group: string, svc: ServiceRaw)
    requires GroupProblem(group, svc).None?
    ensures |svc.checks| > 0 && forall j | 0 <= j < |svc.checks| :: GoodCheck(svc.checks[j])
  {
    ChecksFromIff(group, svc.checks, 0);
  }

  /** Services whose groups show no problem pass as a whole. */
  lemma NoGroupProblemPasses(services: seq<(string, ServiceRaw)>)
    requires forall k | 0 <= k < |services| :: GroupProblem(services[k].0, services[k].1).None?
    ensures ServicesFrom(services, 0).Success?
  {
    ServicesFromIff(services, 0);
    forall k | 0 <= k < |services|
      ensures |services[k].1.checks| > 0 && forall j | 0 <= j < |services[k].1.checks| :: GoodCheck(services[k].1.checks[j])
    {
      GoodGroup(services[k].0, services[k].1);
    }
  }

  /** The problem of a list of services, if any. */
  function ServicesProblem(services: seq<(string, ServiceRaw)>): Option<string> {
    if ServicesFrom(services, 0).Failure? then Some(ServicesFrom(services, 0).error) else None
  }

  /** What the services loop has done after the first gi groups. */
  predicate Processed(services: seq<(string, ServiceRaw)>, gi: nat, normalised: seq<(string, ServiceRaw)>,
                      byGroup: map<string, Patrol.EventHandlers>, specs: seq<CheckSpec>)
    requires gi <= |services|
  {
    && |normalised| == |services|
    && (forall k | 0 <= k < gi :: normalised[k] == (services[k].0, NormalisedService(services[k].1)))
    && (forall k | 0 <= k < gi :: GroupProblem(services[k].0, services[k].1).None?)
    && byGroup == GroupHandlers(services, gi)
    && AllSpecs(services, 0) == specs + AllSpecs(services, gi)
  }

  /** Processing one more good group extends the loop's state by that group. */
  lemma ProcessedStep(services: seq<(string, ServiceRaw)>, gi: nat, normalised: seq<(string, ServiceRaw)>,
                      byGroup: map<string, Patrol.EventHandlers>, specs: seq<CheckSpec>, written: ServiceRaw)
    requires gi < |services| && Processed(services, gi, normalised, byGroup, specs)
    requires GroupProblem(services[gi].0, services[gi].1).None? && written == NormalisedService(services[gi].1)
    ensures Processed(services, gi + 1, normalised[gi := (services[gi].0, written)],
                      byGroup[services[gi].0 := Handlers(written.onSuccess, written.onRecovered, written.onFailure)],
                      specs + GroupSpecs(services[gi].0, services[gi].1.checks))
  {
    var (group, svc) := services[gi];
    var normalised' := normalised[gi := (group, written)];
    var groupSpecs := GroupSpecs(group, svc.checks);
    var rest := AllSpecs(services, gi + 1);
    assert AllSpecs(services, gi) == groupSpecs + rest;
    assert specs + (groupSpecs + rest) == (specs + groupSpecs) + rest;
    assert forall k | 0 <= k < gi + 1 :: normalised'[k] == (services[k].0, NormalisedService(services[k].1));
    assert forall k | 0 <= k < gi + 1 :: GroupProblem(services[k].0, services[k].1).None?;
    assert written.onSuccess == svc.onSuccess && written.onRecovered == svc.onRecovered && written.onFailure == svc.onFailure;
    assert GroupHandlers(services, gi + 1) == byGroup[group := Handlers(svc.onSuccess, svc.onRecovered, svc.onFailure)];
  }

  /** Appending a group's checkers to the list built so far keeps every position's spec. */
  lemma BuiltConcat(built: seq<Checker.Checker>, specs: seq<CheckSpec>, more: seq<Checker.Checker>, moreSpecs: seq<CheckSpec>)
    requires |built| == |specs| && |more| == |moreSpecs|
    requires forall j | 0 <= j < |more| :: Built(more[j], moreSpecs[j])
    ensures forall k | 0 <= k < |built| :: (built + more)[k] == built[k] && (specs + moreSpecs)[k] == specs[k]
    ensures forall k | |built| <= k < |built| + |more| ::
              (built + more)[k] == more[k - |built|] && Built((built + more)[k], (specs + moreSpecs)[k])
  {
    forall k | |built| <= k < |built| + |more|
      ensures (built + more)[k] == more[k - |built|] && Built((built + more)[k], (specs + moreSpecs)[k])
    {
      assert (specs + moreSpecs)[k] == moreSpecs[k - |built|];
    }
  }

  /**
   * One pass of the services loop (config.go:136-191) over the group at gi:
   * its problem, or the loop's state with that group written back, its
   * checkers created and its handlers filed.
   */
  method BuildGroup(services: seq<(string, ServiceRaw)>, gi: nat, normalised: seq<(string, ServiceRaw)>,
                    byGroup: map<string, Patrol.EventHandlers>, built: seq<Checker.Checker>, ghost specs: seq<CheckSpec>)
    returns (problem: Option<string>, normalised': seq<(string, ServiceRaw)>, byGroup': map<string, Patrol.EventHandlers>,
             built': seq<Checker.Checker>, ghost specs': seq<CheckSpec>)
    requires gi < |services| && Processed(services, gi, normalised, byGroup, specs) && |built| == |specs|
    ensures problem == GroupProblem(services[gi].0, services[gi].1)
    ensures problem.None? ==> && Processed(services, gi + 1, normalised', byGroup', specs')
                              && |built'| == |specs'| && |built| <= |built'|
                              && (forall k | 0 <= k < |built| :: built'[k] == built[k] && specs'[k] == specs[k])
                              && forall k | |built| <= k < |built'| :: fresh(built'[k]) && Built(built'[k], specs'[k])
  {
    var group := services[gi].0;
    var groupConfig := services[gi].1;
    normalised', byGroup', built', specs' := normalised, byGroup, built, specs;
    if |groupConfig.checks| == 0 {
      return Some(EmptyGroup(group)), normalised', byGroup', built', specs';
    }
    var groupBuilt;
    problem, groupConfig, groupBuilt := BuildChecks(group, groupConfig);
    if problem.Some? {
      return problem, normalised', byGroup', built', specs';
    }
    normalised' := normalised[gi := (group, groupConfig)];
    byGroup' := byGroup[group := Handlers(groupConfig.onSuccess, groupConfig.onRecovered, groupConfig.onFailure)];
    ghost var groupSpecs := GroupSpecs(group, services[gi].1.checks);
    ProcessedStep(services, gi, normalised, byGroup, specs, groupConfig);
    BuiltConcat(built, specs, groupBuilt, groupSpecs);
    specs' := specs + groupSpecs;
    built' := built + groupBuilt;
  }

  /**
   * The outer loop of FromConfig (config.go:135-192) in map iteration order:
   * the first problem, or the services with their defaults written back, the
   * checkers of all groups in order and the group handler map.
   */
  method BuildServices(services: seq<(string, ServiceRaw)>)
    returns (problem: Option<string>, normalised: seq<(string, ServiceRaw)>, built: seq<Checker.Checker>,
             byGroup: map<string, Patrol.EventHandlers>)
    ensures problem == ServicesProblem(services)
    ensures problem.None? ==> && |normalised| == |services|
                              && (forall k | 0 <= k < |services| :: normalised[k] == (services[k].0, NormalisedService(services[k].1)))
                              && byGroup == GroupHandlers(services, |services|)
                              && |built| == |AllSpecs(services, 0)|
                              && forall k | 0 <= k < |built| :: fresh(built[k]) && Built(built[k], AllSpecs(services, 0)[k])
  {
    normalised := services;
    built := [];
    byGroup := map[];
    ghost var specs: seq<CheckSpec> := [];
    var gi := 0;
    while gi < |services|
      invariant 0 <= gi <= |services|
      invariant Processed(services, gi, normalised, byGroup, specs)
      invariant |built| == |specs|
      invariant forall k | 0 <= k < |built| :: fresh(built[k]) && Built(built[k], specs[k])
    {
      var groupProblem;
      assert forall k | 0 <= k < gi :: GroupProblem(services[k].0, services[k].1).None?;
      groupProblem, normalised, byGroup, built, specs := BuildGroup(services, gi, normalised, byGroup, built, specs);
      if groupProblem.Some? {
        ServicesFromFirstProblem(services, 0, gi);
        return groupProblem, normalised, built, byGroup;
      }
      gi := gi + 1;
    }
    SpecsComplete(services, specs);
    NoGroupProblemPasses(services);
    return None, normalised, built, byGroup;
  }

  /** The services BuildServices writes back are those of Normalised. */
  lemma NormalisedServices(raw: ConfigRaw, services: seq<(string, ServiceRaw)>)
    requires |services| == |raw.services|
    requires forall k | 0 <= k < |raw.services| :: services[k] == (raw.services[k].0, NormalisedService(raw.services[k].1))
    ensures services == Normalised(raw).services
  {
  }

  /** After the last group the specs gathered are all the specs. */
  lemma SpecsComplete(services: seq<(string, ServiceRaw)>, specs: seq<CheckSpec>)
    requires AllSpecs(services, 0) == specs + AllSpecs(services, |services|)
    ensures AllSpecs(services, 0) == specs
  {
    assert AllSpecs(services, |services|) == [];
    assert specs + [] == specs;
  }

  /** The error FromConfig returns once the page settings are accepted (config.go:126-134, 135-192). */
  function LaterProblem(raw: ConfigRaw, historyOptions: Option<History.NewOptions>, codec: History.Codec,
                        files: string -> Result<seq<byte>, string>): Option<ConfigError>
  {
    var opening := files(HistoryPath(raw, historyOptions));
    if opening.Failure? then Some(HistoryFailed(History.OpenFailed(opening.error)))
    else if !Opens(codec, opening) then Some(HistoryFailed(History.UnmarshalFailed))
    else if Plan(raw.services).Failure? then Some(Invalid(Plan(raw.services).error))
    else None
  }

  /**
   * The error FromConfig (config.go:74-196) returns, if any: the page
   * settings are checked first, then the history file is opened, then the
   * services are checked.
   */
  function Verdict(raw: ConfigRaw, historyOptions: Option<History.NewOptions>, codec: History.Codec,
                   files: string -> Result<seq<byte>, string>): Option<ConfigError>
  {
    if PageSettings(raw).Failure? then Some(Invalid(PageSettings(raw).error))
    else LaterProblem(raw, historyOptions, codec, files)
  }

  /**
   * A configuration loads exactly when it names a db file that opens and
   * replays, its log level is empty or known, it has a service, every
   * group has a check and every check is complete.
   */
  lemma VerdictNoneIff(raw: ConfigRaw, historyOptions: Option<History.NewOptions>, codec: History.Codec,
                       files: string -> Result<seq<byte>, string>)
    ensures Verdict(raw, historyOptions, codec, files).None? <==>
              && raw.db != "" && (raw.logLevel == "" || LogLevelOf(raw.logLevel).Success?)
              && Opens(codec, files(HistoryPath(raw, historyOptions)))
              && |raw.services| > 0 && GoodServices(raw.services, 0)
  {
    PlanSucceedsIff(raw.services);
  }

  /**
   * FromConfig (config.go:74-196) on decoded configuration: the error the
   * source returns, or a patrol whose checkers are the planned checks in
   * order, with the configured handler maps, and the configuration with its
   * defaults written back.
   */
  method FromConfig(raw: ConfigRaw, historyOptions: Option<History.NewOptions>, codec: History.Codec,
                    files: string -> Result<seq<byte>, string>)
    returns (r: Result<Patrol.Patrol, ConfigError>, out: ConfigRaw)
    ensures r.Failure? <==> Verdict(raw, historyOptions, codec, files).Some?
    ensures r.Failure? ==> r.error == Verdict(raw, historyOptions, codec, files).value
    ensures r.Success? ==> && fresh(r.value) && out == Normalised(raw)
                           && r.value.name == PageSettings(raw).value.name
                           && r.value.port == PageSettings(raw).value.port
                           && r.value.logLevel == PageSettings(raw).value.logLevel
                           && r.value.https == (if raw.https.cert != "" && raw.https.key != "" then Some(raw.https) else None)
                           && r.value.globalEventHandlers == Some(Handlers(raw.onSuccess, raw.onRecovered, raw.onFailure))
                           && r.value.groupEventHandlers == GroupHandlers(raw.services, |raw.services|)
    ensures r.Success? ==> && |r.value.checkers| == |Plan(raw.services).value|
                           && forall k | 0 <= k < |r.value.checkers| ::
                                && fresh(r.value.checkers[k])
                                && Built(r.value.checkers[k], Plan(raw.services).value[k])
                                && r.value.checkers[k].logLevel == PageSettings(raw).value.logLevel
  {
    out := raw;
    if out.name == "" {
      out := out.(name := Patrol.DefaultName);
    }
    if out.port <= 0 {
      out := out.(port := DefaultPort);
    }
    if out.db == "" {
      return Failure(Invalid(DbMissing)), out;
    }
    if out.logLevel == "" {
      out := out.(logLevel := DefaultLogLevel);
    }
    var level := LogLevelOf(out.logLevel);
    if level.Failure? {
      return Failure(Invalid(level.error)), out;
    }
    var settings := Settings(out.name, out.port % Uint32Modulus, level.value);
    assert PageSettings(raw) == Success(settings);
    r, out := Assemble(raw, out, settings, historyOptions, codec, files);
  }

  /**
   * The rest of FromConfig (config.go:98-195) once the page settings are
   * accepted: open the history file, build the checkers, create the patrol.
   */
  method Assemble(raw: ConfigRaw, header: ConfigRaw, settings: Settings, historyOptions: Option<History.NewOptions>,
                  codec: History.Codec, files: string -> Result<seq<byte>, string>)
    returns (r: Result<Patrol.Patrol, ConfigError>, out: ConfigRaw)
    requires PageSettings(raw) == Success(settings) && header == Normalised(raw).(services := raw.services)
    ensures r.Failure? <==> LaterProblem(raw, historyOptions, codec, files).Some?
    ensures r.Failure? ==> r.error == LaterProblem(raw, historyOptions, codec, files).value
    ensures r.Success? ==> && fresh(r.value) && out == Normalised(raw)
                           && r.value.name == settings.name && r.value.port == settings.port
                           && r.value.logLevel == settings.logLevel
                           && r.value.https == (if raw.https.cert != "" && raw.https.key != "" then Some(raw.https) else None)
                           && r.value.globalEventHandlers == Some(Handlers(raw.onSuccess, raw.onRecovered, raw.onFailure))
                           && r.value.groupEventHandlers == GroupHandlers(raw.services, |raw.services|)
    ensures r.Success? ==> && |r.value.checkers| == |Plan(raw.services).value|
                           && forall k | 0 <= k < |r.value.checkers| ::
                                && fresh(r.value.checkers[k])
                                && Built(r.value.checkers[k], Plan(raw.services).value[k])
                                && r.value.checkers[k].logLevel == settings.logLevel
  {
    out := header;
    var https := if raw.https.cert != "" && raw.https.key != "" then Some(raw.https) else None;
    var maxEntries := if historyOptions.None? then 0 else historyOptions.value.maxEntries;
    var opening := files(HistoryPath(raw, historyOptions));
    var historyFile := History.HistoryFile.New(codec, maxEntries, opening);
    if historyFile.Failure? {
      return Failure(HistoryFailed(historyFile.error)), out;
    }
    if |raw.services| == 0 {
      return Failure(Invalid(NoServices)), out;
    }
    var problem, services, checkers, byGroup := BuildServices(raw.services);
    if problem.Some? {
      return Failure(Invalid(problem.value)), out;
    }
    PlanSucceedsIff(raw.services);
    out := out.(services := services);
    NormalisedServices(raw, services);
    var options := Patrol.CreateOptions(settings.port, https, settings.name, maxEntries, checkers, settings.logLevel,
                                        byGroup, Some(Handlers(raw.onSuccess, raw.onRecovered, raw.onFailure)));
    var created := Patrol.Patrol.New(options, Some(historyFile.value), codec, opening);
    assert created.Success?;
    return Success(created.value), out;
  }
}
