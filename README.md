# patrol, modelled in Dafny

patrol is a small status-page service. This project models two parts of it.

The Go daemon runs every configured check as a subprocess on a schedule. It
records each result as an item in an append-only JSON-lines history file, keeps
an in-memory index of that file (one newest-first list per group, with items of
the same id replaced in place), and dispatches the recovered, healthy and
unhealthy handlers. The `patrol list` command prints filtered history items.

The JavaScript API server validates its YAML configuration at startup. It
derives Docker container names for the checks, keeps one result row per check
and day in nedb, and schedules runs through a min-heap of tasks ordered by their
ready time. The web client's Redux store and its `useAsyncAction` reducer track
the fetches.

The modules follow the source files:

- `History` (internal/history/history.go): the history file and its index, as a
  class `HistoryFile`.
- `Checker` (internal/checker/checker.go): a class whose `Check` turns one run
  of the command into an item.
- `Patrol` (patrol.go): a class holding the checkers and the
  handler tables.
- `Config` (config.go): decoding and validating a configuration
  into a patrol.
- `Cli` (cmd/patrol/patrol.go): the loops of the `list` action.
- `Queue` (packages/api/src/queue.js): the task heap, as a class over a
  multiset.
- `ApiChecker` (packages/api/src/checker.js): container names, result rows and
  the tasks that schedule runs.
- `ApiConfig` (packages/api/src/patrol.js): startup validation of the
  configuration.
- `Notifiers` (packages/api/src/notifiers.js): the notifier table and its
  validators.
- `ReduxStore` (packages/web/src/redux/store.jsx): the store's reducer.
- `AsyncState` (packages/web/src/state.jsx): the async-action reducer and the
  hook state around it.

Three support modules hold what the others share:

- `Wrappers`: Option and Result.
- `Text`: Go's `%d`, `strconv.ParseInt`, `strconv.Quote`, `strings.Split` and
  `strings.Join`, and ASCII lower-casing.
- `Js`: JavaScript values with their `typeof`, truthiness and property access.

Some inputs are parameters rather than effects:

- the clock of both programs;
- the file system;
- the subprocess's output and exit status;
- Docker's answers;
- the rows nedb returns;
- the JSON codec of the history file. It is a pair of functions. The round trip
  it is relied on for is a predicate (`History.Sound`) that the lemmas take as a
  hypothesis.

Some details of the code that the model follows:

- `Append` does not set `CreatedAt`.
- Retention is never enforced: `maxEntries` is stored at history.go:113 and
  never read.
- A malformed line in the history file aborts the open without a line number.
- A metric's output is read with `strconv.ParseInt(…, 10, 64)` only, so a
  decimal fraction is a parse error.

## Model

| member | source | states |
|---|---|---|
| History.IdsEqualIff | internal/history/history.go:208-212 | For names without NUL, two items share an id exactly when they are of the same group and check and fall in the same bucket (the same day for boolean items, the same nanosecond for others). |
| History.DistinctTimesDistinctIds | internal/history/history.go:208-212 | Non-boolean items of one check at different nanoseconds never share an id. |
| History.InsertPos | internal/history/history.go:230-241 | The walk stops before the first node whose CreatedAt is not after the new item's, or at the tail; every node before it is strictly newer. |
| History.AddKeepsWellFormed | internal/history/history.go:199-251 | addItem keeps every container well formed: one node per id, every node in the id map under its own id, every mapped id on the chain. |
| History.UpsertReplacesInPlace | internal/history/history.go:214-219 | An item whose id is present replaces exactly that node's value; the chain keeps its length and the order of its ids. |
| History.InsertSorted | internal/history/history.go:221-247 | A new id gets exactly one new node at InsertPos, and a newest-first chain stays newest first. |
| History.AddChangesOnlyItsId | internal/history/history.go:199-219 | Every other group's container and every other id of the item's group are unchanged. |
| History.IncreasingReadsBackNewestFirst | internal/history/history_test.go:54-60 | Items of one non-boolean check added with strictly increasing timestamps read back in reverse order of addition. |
| History.UpsertCanBreakNewestFirst | internal/history/history.go:214-250 | A boolean item updated later the same day keeps its node but takes the newer CreatedAt, so a chain need not stay newest first. |
| History.SameDayRunsShareAnId | internal/history/history.go:208-212 | Two same-day runs of a boolean check share an id. A metric item can be added between them. |
| History.RelinkAsWrittenCycles | internal/history/history.go:214-241 | As written, a metric item whose id is already on the chain re-links that node ahead of itself, and the chain becomes a cycle. |
| History.BadLineAbortsReplay | internal/history/history.go:120-128 | One line that does not unmarshal makes the whole open fail. |
| History.WriteAppendsLines | internal/history/history.go:45-55 | Appending a batch of records to a file whose last line is terminated appends exactly one line per record. |
| History.WriteKeepsReplay | internal/history/history.go:173-185 | Writing a batch and then indexing it leaves the index equal to what reopening the file rebuilds. |
| History.FirstUnencodable | internal/history/history.go:157-171 | The index of the first item that does not serialise, or the length. All items before it serialise. |
| History.AsWrittenTakesOneRequest | internal/history/history.go:160-171 | As written, the gathering loop never runs, since `err` is nil when it is tested; a pass takes only the request it was woken for, whatever is queued behind it. |
| History.BatchTakesQueued | internal/history/history.go:157-171 | The intended loop takes at least the first request queued behind one that serialises, and all of them when all serialise, so it never agrees with the loop as written when something is queued. |
| History.HistoryFile.New | internal/history/history.go:96-143 | Opening fails on a file error or a line that does not unmarshal. Otherwise the index is the replay of every line through addItem, in file order, and the write lock is free. |
| History.HistoryFile.AddItem | internal/history/history.go:199-251 | The index becomes Add(old index, item), and the index stays well formed. |
| History.HistoryFile.Serve | internal/history/history.go:151-189 | One pass of the writer as written. While the write lock is held the pass blocks. Otherwise it takes the lock, and its batch is the request alone. A request that does not serialise is acked with the error and the lock stays held. A failed copy releases the lock and leaves the log and index as they were (the panic and a partial write are left out). Otherwise the file gains the request's line, then the index gains the item, and the lock is released. An index equal to what reopening rebuilds stays so. |
| History.HistoryFile.ServeBatch | internal/history/history.go:151-189 | The pass as intended: the batch is Batch of the request and the queue, and the lock is released on every path. A record that does not serialise, or a failed copy, leaves file and index unchanged. Otherwise the file gains the batch's bytes, then the index gains its items in order. An index equal to what reopening rebuilds stays so. |
| History.HistoryFile.GetGroupItems | internal/history/history.go:276-286 | Waiting while the write lock is held, since RLock blocks. Otherwise a copy of the group's chain, head to tail; None for a group without a container, where the Go code dereferences a nil pointer. |
| History.HistoryFile.GetGroups | internal/history/history.go:262-274 | Waiting exactly while the write lock is held. Otherwise every group of the index exactly once. |
| History.LinkNode | internal/history/history.go:221-247 | The loop links the new node at InsertPos of the chain and leaves every other node in order. |
| History.Collect | internal/history/history.go:150-172 | The records are Batch: the first request, then the queued ones up to and including the first that does not serialise. The bytes are every record's writeTo in turn, present exactly when all of them serialise. |
| Checker.NoWholeMillisecondIff | internal/checker/checker.go:43-45 | A timeout is treated as unset exactly when it is shorter than one millisecond in either direction. |
| Checker.EffectiveTimeout | internal/checker/checker.go:43-45 | The kept timeout is one minute when the given one has no whole millisecond, else the given one. |
| Checker.Checker.New | internal/checker/checker.go:42-51 | The checker keeps its group, name, type, command, unit and interval and the effective timeout, and logs at info with the prefix "group:name:". |
| Checker.Checker.SetLogLevel | internal/checker/checker.go:61-66 | The logger takes the given level and keeps the prefix "group:name:"; the timeout is unchanged. |
| Checker.Checker.Check | internal/checker/checker.go:68-129 | The item carries the checker's group, name, type and unit and the run's output and times. An exit status sets "Process exited with status %d", another run failure "Failed to run: …". Otherwise the item is healthy, and for a metric it holds ParseInt of stdout or the parse error with 0. |
| Checker.MetricRecorded | internal/checker/checker.go:117-123 | A metric command that prints exactly the `%d` text of an int64 records that value with no error. |
| Checker.EchoedMetricNotRecorded | internal/checker/checker.go:117-123 | A metric command whose output ends in a newline stays healthy but records a syntax error and metric 0. |
| Text.ParseFormatRoundTrip | internal/checker/checker.go:118 | ParseInt64(FormatInt(n)) == n for every int64 n. |
| Text.TrailingNewlineRejected | internal/checker/checker.go:118 | A decimal text followed by a newline is a syntax error. |
| Text.FormatInt | internal/checker/checker.go:110 | `%d`: a minus sign for negative values, then the digits without leading zeros. |
| Text.Quote | internal/checker/checker.go:118 | strconv.Quote as the ParseInt error shows the output: the text between double quotes, and plain printable ASCII kept as it is. |
| Text.PlainQuotedAsIs | internal/checker/checker.go:118 | Printable ASCII other than the quote and the backslash is quoted as itself. |
| Text.SplitJoin | config.go:26 | Splitting at ";" recovers parts that were joined with ";" and contain none. |
| Patrol.RegisteredGroups | patrol.go:84-91 | Group g maps to check name n exactly when some checker has this group and name; every entry is true. |
| Patrol.Patrol.New | patrol.go:83-121 | A given history file is used as it is. Without one, a file is opened and an open error is returned; an opened log starts the patrol exactly when it replays, with the replayed index and the write lock free, and a log that does not replay is UnmarshalFailed. The patrol keeps the options' checkers, handler tables and address. An empty name becomes "Statuspage", and every checker takes the options' log level. |
| Patrol.Patrol.SetLogLevel | patrol.go:141-148 | The patrol, its history file and every checker end at the given level. |
| Patrol.DispatchOnlyMatching | patrol.go:153-168 | Only handlers filed under this status, globally or for this group, run. With none filed, none run. |
| Patrol.DispatchOrder | patrol.go:153-168 | Every global handler runs before every group handler, each list in its own order. |
| Patrol.NilGlobalIsEmpty | patrol.go:153-168 | A nil global table selects the same handlers as an empty one. |
| Patrol.Patrol.OnCheckerStatus | patrol.go:150-169 | The handlers run are Dispatch of the status and group, in order, and nothing else changes. |
| Patrol.Patrol.Start | patrol.go:171-174 | Panics with "Cannot start patrol with zero checkers" exactly when there are no checkers. |
| Config.CheckCmd | config.go:23-35 | A list is joined with ";", a string is kept, and any other node is refused. |
| Config.CmdListSplits | config.go:23-35 | A list of commands without ";" is recovered from the joined command, and a one-element list equals the string form. |
| Config.EmptyCmdListIsMissing | config.go:23-35 | An empty list decodes to the empty command. |
| Config.LogLevelOf | config.go:198-209 | The three names none, info and debug map to their own levels; any other name is an error naming it. |
| Config.LogLevelNames | config.go:198-209 | Names and levels correspond one to one. |
| Config.PageSettings | config.go:80-100 | An empty name becomes "Statuspage", a port that is not positive becomes 8080, an empty db is an error, and an empty log level is info. The kept port is the defaulted one truncated to 32 bits. |
| Config.HandlersDispatch | config.go:103-107 | Through Patrol's dispatch, the global table's on_success, on_recovered and on_failure lists run for healthy, recovered and unhealthy, each followed by the same status's list from the group's own table (built at config.go:187-191 from the group's lists, which may differ), and any other status runs nothing. |
| Config.WithDefaults | config.go:142-170 | An empty type becomes "boolean", a zero interval 60 seconds, a zero timeout 3 minutes and a retry interval that is not positive 1 minute; set fields are kept, and so are name, command, unit and retries. |
| Config.WithDefaultsIdempotent | config.go:142-170 | Filling in defaults twice changes nothing more. |
| Config.SpecOf | config.go:164-184 | The spec handed to checker.New carries the group, the check's name, command and unit and its defaulted type, interval, timeout and retry interval; maxRetries is the given one, or 3 when none is given. |
| Config.CheckProblem | config.go:145-156 | A check has a problem exactly when it lacks its name, its command, or (as a metric) its unit. |
| Config.ChecksFromIff | config.go:131-185 | A group's checks pass exactly when every check is good. |
| Config.ServicesFromIff | config.go:131-185 | The services pass exactly when every group has a check and every check is good. |
| Config.PlanSucceedsIff | config.go:131-185 | A configuration is accepted exactly when it has a service, every group has a check, and every check has a name, a command and, for a metric, a unit. |
| Config.AllSpecsComplete | config.go:131-185 | Every check handed on has a type, an interval, a timeout and a positive retry interval. |
| Config.GroupHandlersDomain | config.go:187-191 | Exactly the processed groups have a handler entry. |
| Config.GroupHandlersValues | config.go:187-191 | With distinct group names, each processed group maps to its own three lists. |
| Config.NormalisedIdempotent | config.go:80-92 | Normalising an already loaded configuration again changes nothing. |
| Config.ChecksFromFirstProblem | config.go:135-156 | After good checks, the first problem found is the one reported. |
| Config.FirstBadCheckReported | config.go:135-156 | A group whose checks are good up to a bad one reports that one. |
| Config.ServicesFromFirstProblem | config.go:135-156 | After good services, the first problem found is the one reported. |
| Config.BuildCheck | config.go:142-184 | The first problem with one check; otherwise the check with defaults and a new checker for it. |
| Config.BuildChecks | config.go:141-185 | The group's first problem; otherwise the group with its defaults written back and one checker per check, in order. |
| Config.BuildGroup | config.go:136-191 | The group's problem; otherwise the loop state extended by exactly that group, its checkers and its handler entry. |
| Config.BuildServices | config.go:135-192 | The first problem in iteration order; otherwise the normalised services, every planned checker in order, and the handler table. |
| Config.VerdictNoneIff | config.go:74-196 | A configuration loads exactly when its page settings are accepted, its db file opens and replays, its log level is empty or known, and its services pass. |
| Config.FromConfig | config.go:74-196 | The error the source returns; otherwise a patrol whose checkers are the planned checks in order, with the normalised configuration. |
| Config.Assemble | config.go:98-195 | Once the page settings are accepted: the history open error, the services' first problem, or the patrol built from them. |
| Cli.SliceContains | cmd/patrol/patrol.go:86-96 | True exactly when the filter is empty or holds the string. |
| Cli.PrintItems | cmd/patrol/patrol.go:142-155 | The check's selected items are printed after those already printed, stopping once the count reaches the limit. |
| Cli.List | cmd/patrol/patrol.go:138-158 | The printed items are the first Limit(count) matches in visiting order. |
| Cli.MatchingMembers | cmd/patrol/patrol.go:141-156 | An item is a match exactly when the group, check, type and status filters all accept it. |
| Cli.ItemsMatchingMembers | cmd/patrol/patrol.go:141-156 | An item is a match of one check exactly when it is one of its items and the type and status filters accept it. |
| Cli.ChecksMatchingMembers | cmd/patrol/patrol.go:141-156 | A match of a group comes from a check the check filter accepts. |
| Cli.StopIsPrefix | cmd/patrol/patrol.go:141-156 | Wherever the innermost loop stops, what has been printed is a prefix of all the matches. |
| Cli.Limit | cmd/patrol/patrol.go:141-156 | At most `count` matches are printed; a count of 0 or less prints at most one, because the test follows the print. |
| Queue.Normalise | packages/api/src/queue.js:11-22 | A bare function becomes a task ready now. A falsy readyAt becomes now, and the task's job is kept. |
| Queue.FunctionIsTaskReadyNow | packages/api/src/queue.js:11-22 | Enqueue(fn) stores what Enqueue({readyAt: now, run: fn}) stores. |
| Queue.TaskQueue.constructor | packages/api/src/queue.js:6-8 | The queue starts empty. |
| Queue.TaskQueue.Enqueue | packages/api/src/queue.js:11-25 | Exactly one normalised task is added. |
| Queue.MinExists | packages/api/src/queue.js:6-8 | Every non-empty queue has a task of minimal readyAt for the heap to pop. |
| Queue.TaskQueue.WorkStep | packages/api/src/queue.js:30-43 | An empty queue is idle. Otherwise a task of minimal readyAt is popped; one not yet due is pushed back and the queue is unchanged, any other is removed and run. |
| Queue.PushBackSkipsNothing | packages/api/src/queue.js:31-40 | When the earliest task is not due and every readyAt is truthy, no task in the queue is due. |
| Queue.RanOnlyWhenDue | packages/api/src/queue.js:36-42 | A task that runs has readyAt at or before now, or a readyAt of 0. |
| ApiChecker.ContainerName | packages/api/src/checker.js:28-30 | `patrol-${service}-${check}`, lower-cased, with every run of non-word characters replaced by one underscore. |
| ApiChecker.ContainerNameOfPlainNames | packages/api/src/checker.js:28-30 | For lower-case word names, the container name is patrol_service_check. |
| ApiChecker.UnderscoredKeepsWords | packages/api/src/checker.js:28-30 | A string of word characters is left alone. |
| ApiChecker.UnderscoredIdempotent | packages/api/src/checker.js:28-30 | Replacing twice is the same as replacing once. |
| ApiChecker.RunBecomesUnderscore | packages/api/src/checker.js:28-30 | Word characters are kept, and a whole run of non-word characters becomes a single underscore. |
| ApiChecker.LowerKeeps | packages/api/src/checker.js:28-30 | Lower-casing a string without upper-case letters leaves it as it is. |
| ApiChecker.ContainerNamesCanCollide | packages/api/src/checker.js:28-30 | Different service and check names can share a container name. |
| ApiChecker.FirstRunAt | packages/api/src/checker.js:128-151 | After a previous run still within the interval, the first run is due that run's time plus the interval; otherwise it is due now. |
| ApiChecker.InitServiceCheck | packages/api/src/checker.js:128-151 | Exactly one update task for the check is queued, due at FirstRunAt. |
| ApiChecker.Upsert | packages/api/src/checker.js:84-102 | The first row matching the service, check and day is replaced; if none matches, the row is added. |
| ApiChecker.UpsertOnePerDay | packages/api/src/checker.js:84-102 | The upsert keeps at most one row per check and day of the month. It holds the new row and keeps every row of another check or day. |
| ApiChecker.UpsertSameDayReplaces | packages/api/src/checker.js:84-102 | A second run on the same day of the month replaces the first run's row. |
| ApiChecker.UpsertMembers | packages/api/src/checker.js:84-102 | Every row is either the new row or an old one, and every old row that does not match is kept. |
| ApiChecker.Status | packages/api/src/checker.js:69-76 | A run is healthy unless container.wait() threw. |
| ApiChecker.NotificationChoice | packages/api/src/checker.js:104-110 | The list sendNotifications is called with: with notifications configured, on_failure for an unhealthy run and on_success otherwise. Without them: no call. |
| ApiChecker.NextRunDue | packages/api/src/checker.js:120-125 | When the clock reading is truthy, the next run is due interval milliseconds after it. |
| ApiChecker.UpdateServiceCheck | packages/api/src/checker.js:20-126 | The run as written. Whatever happens, exactly one next run is queued, at the clock plus the interval. A failing setup step, or a remove failure other than "no such container", halts the run with no status. Otherwise the status is healthy unless wait threw. A failed store halts with the rows unchanged. A good store upserts the day's row. With notifications configured, sendNotifications is called with NotificationChoice and, being undefined, throws: the run halts without removing the container. Without them the container is removed, and a failed removal halts the run. |
| ApiChecker.EnqueueChecks | packages/api/src/checker.js:158-166 | One init task is queued per check of the service, in order. |
| ApiChecker.StartWithConfig | packages/api/src/checker.js:153-169 | One init task per check of each service, in visiting order, each due now. |
| ApiChecker.InitTasksCount | packages/api/src/checker.js:153-169 | The number of queued tasks is the total number of checks. |
| ApiChecker.ChecksInitTasks | packages/api/src/checker.js:153-169 | Each check's task is its init job. |
| ApiConfig.IdentityErrors | packages/api/src/patrol.js:78-89 | The name is checked first, and cmd only when the name is valid. |
| ApiConfig.IntervalWritten | packages/api/src/patrol.js:92-96 | An undefined interval becomes 60000 and a string becomes ms of it; anything else is left. |
| ApiConfig.WithInterval | packages/api/src/patrol.js:92-96 | The check with that interval written, or None when `ms("")` or the write throws. |
| ApiConfig.WithImage | packages/api/src/patrol.js:104-106 | A falsy image becomes the default image, or None when the write throws. |
| ApiConfig.NoCheckErrors | packages/api/src/patrol.js:78-113 | A check with a valid name, cmd, interval and image reports no error. |
| ApiConfig.NormaliseCheck | packages/api/src/patrol.js:76-113 | One iteration of the check loop: the errors reported and the rewritten check. Reading a property of null or undefined throws, as does writing to a primitive in strict mode, and an empty interval string throws in ms after the name or cmd error is printed. |
| ApiConfig.CheckService | packages/api/src/patrol.js:75-114 | The check loop of one service gives ChecksPass: the errors of every check in order, or the first throw. |
| ApiConfig.CheckServices | packages/api/src/patrol.js:71-120 | Each array of checks is normalised and anything else is reported under its name: ServicesPass. |
| ApiConfig.ChecksCrashSticks | packages/api/src/patrol.js:75-114 | Once a check throws, longer prefixes end with the same throw. |
| ApiConfig.ServicesCrashSticks | packages/api/src/patrol.js:71-120 | Once a service throws, longer prefixes end with the same throw. |
| ApiConfig.ServicesPassValid | packages/api/src/patrol.js:71-120 | With no error and no throw, every service is an array of checks that pass validation. |
| ApiConfig.NonArrayServiceReported | packages/api/src/patrol.js:115-118 | A service that is not an array is reported under its own name. |
| ApiConfig.DbDefault | packages/api/src/patrol.js:52-59 | The directory of the config file followed by "/db". |
| ApiConfig.Prepare | packages/api/src/patrol.js:52-59 | The decoded configuration with dbDirectory defaulted, or None when reading, decoding or the property write threw. |
| ApiConfig.NullServicesAccepted | packages/api/src/patrol.js:62-68 | The test as written lets exactly one value through that the dictionary test refuses: null. |
| ApiConfig.NotDictionaryStops | packages/api/src/patrol.js:62-68 | Services that fail the version's test stop startup with the services message last: as written anything whose typeof is not "object", or an array; corrected anything that is not a dictionary. |
| ApiConfig.NotificationStage | packages/api/src/patrol.js:123-136 | Nothing for a falsy section, the dictionary error for one whose typeof is not "object", nothing without a truthy on_success. With one, as written the call of the missing normalizeNotifications throws; corrected, its errors are printed when truthy. |
| ApiConfig.WithWeb | packages/api/src/patrol.js:139-145 | A falsy web section becomes the default one and a falsy title the default title; writing on a primitive section throws. |
| ApiConfig.FinishConfig | packages/api/src/patrol.js:123-151 | As written: the notification stage, where a truthy on_success throws, then the web section completed and a title that is not a string reported, as Remaining states. |
| ApiConfig.ConcludeChecks | packages/api/src/patrol.js:123-155 | As written: a throw in the notification or web stage crashes; after any error a blank line and the rejection; otherwise the configuration goes on with its web section completed. |
| ApiConfig.ConcludeStarted | packages/api/src/patrol.js:139-155 | Startup goes on only when nothing was printed before and the notifications and web title show no error, with the web section completed. |
| ApiConfig.ConcludeValid | packages/api/src/patrol.js:139-155 | A configuration whose services passed goes on only as a valid configuration, with nothing printed, listening on config.port or 8080. |
| ApiConfig.ValidateConfig | packages/api/src/patrol.js:61-155 | As written: the typeof test on the services, where null passes, visits nothing and writes nothing back; a service named "hasOwnProperty" that is not a function crashes the loop; then the service, notification and web checks, as Validate states. |
| ApiConfig.ValidateEnds | packages/api/src/patrol.js:61-155 | The checks end in a rejection after at least one error and a blank line, or with the services message alone exactly when the version's services test refuses, or the configuration goes on. |
| ApiConfig.ValidateStartedIsValid | packages/api/src/patrol.js:61-155 | The checks go on only for a valid configuration, whose services are null or a dictionary of valid checks, and then print nothing; corrected, the services are a dictionary. |
| ApiConfig.Launch | packages/api/src/patrol.js:40-155 | As written: what startup prints to stderr and how it ends, given the file contents and the decoder. |
| ApiConfig.StartedIsValid | packages/api/src/patrol.js:40-155 | Startup goes on only with a valid configuration and nothing printed beyond the unrecognised arguments, and then listens on config.port or 8080; corrected, only with a dictionary of services. |
| ApiConfig.ErrorsStopStartup | packages/api/src/patrol.js:40-155 | Every error found stops startup after a blank line, before the database and the server start. |
| ApiConfig.ShadowedHasOwnCrashes | packages/api/src/patrol.js:71-72 | A service named "hasOwnProperty" whose value is an array of checks shadows the inherited method, so `services.hasOwnProperty(name)` throws and startup crashes before anything is printed, in either version. |
| ApiConfig.NullServicesStart | packages/api/src/patrol.js:62-120 | As written, a configuration with `services: null` starts with nothing printed; corrected, it stops with the services message alone. |
| ApiConfig.OnSuccessCrashes | packages/api/src/patrol.js:123-131 | As written, a truthy on_success list makes startup throw before anything of the notification or web stage is printed. |
| ApiConfig.OnSuccessReported | packages/api/src/patrol.js:123-136 | Corrected, the validator's errors for a truthy on_success list are the first line after the services and startup does not go on. |
| Notifiers.NotifierEntry | packages/api/src/notifiers.js:1-17 | `Notifiers[key]`: the webhook notifier, an inherited member of Object.prototype, or undefined. |
| Notifiers.WebhookNotInherited | packages/api/src/notifiers.js:1-14 | The table's own key is none of the inherited ones. |
| Notifiers.WebhookVerdict | packages/api/src/notifiers.js:3-12 | For an object: valid exactly when the url is a string and the method is falsy or a string. Only the method is written, defaulted to "get" when falsy, and only once the url is a string. |
| Notifiers.NormalizeWebhook | packages/api/src/notifiers.js:3-12 | For an object, the verdict and the object afterwards are WebhookVerdict: the url must be a string, a falsy method becomes "get" and is written back, and a method that is still not a string is refused. A null or undefined notification throws. |
| Notifiers.NormalizeNotification | packages/api/src/notifiers.js:16-22 | As written: a non-string type, or one whose lookup is falsy, is refused with the list of known types. An inherited member such as "constructor" passes the test, and the call then throws a TypeError. For an object of type "webhook", the notifier is stored and the result is WebhookVerdict of the notification with it. |
| Notifiers.NormalizeNotificationOwn | packages/api/src/notifiers.js:16-22 | Every type other than "webhook" is refused with the message and the notification unchanged. For an object of type "webhook", the notifier is stored and the result is WebhookVerdict of the notification with it. |
| ReduxStore.Reduce | packages/web/src/redux/store.jsx:30-107 | A history action throws exactly when its service or check is falsy, with the message for the first one missing. |
| ReduxStore.InitialState | packages/web/src/redux/store.jsx:24-30 | An undefined state becomes the default: idle checks and no history. |
| ReduxStore.UnknownActionSameState | packages/web/src/redux/store.jsx:105-106 | An unknown action returns the state it was given. |
| ReduxStore.ChecksActionEffect | packages/web/src/redux/store.jsx:32-46 | A checks action touches only `checks`. Inprogress and error keep the old result; success takes the action's result. |
| ReduxStore.HistoryActionFrame | packages/web/src/redux/store.jsx:48-103 | A history action writes only the entry service + "-" + check. Every other entry and `checks` are unchanged. |
| ReduxStore.HistoryResultKept | packages/web/src/redux/store.jsx:48-103 | Invalidate, fetch and error keep the stored result; success replaces it. Each action sets its status. |
| ReduxStore.ReduceIdempotent | packages/web/src/redux/store.jsx:30-107 | Applying an action twice gives what applying it once gives. |
| ReduxStore.IndependentActionsCommute | packages/web/src/redux/store.jsx:30-107 | Two history actions on different keys commute, and so does a checks action with a history action. |
| ReduxStore.HistoryKeysCanCollide | packages/web/src/redux/store.jsx:55 | Service "a-b" with check "c" and service "a" with check "b-c" share one history entry. |
| AsyncState.Reduce | packages/web/src/state.jsx:66-106 | The reducer throws exactly on an unknown action, on FETCH while a fetch is in progress, or on CANCEL of a promise whose cancel is not a function. Only FETCH records arguments, and cancel is called only on a truthy promise. |
| AsyncState.FetchOutcome | packages/web/src/state.jsx:68-77 | FETCH throws exactly during a fetch in progress. Otherwise it records the arguments and clears the result and the error. |
| AsyncState.SettleFromAnyState | packages/web/src/state.jsx:79-89 | SET_RESULT and ERROR succeed from every state and keep only the value they carry. |
| AsyncState.CancelIsReset | packages/web/src/state.jsx:91-99 | CANCEL gives the idle state, as RESET does. It calls cancel exactly when the promise has one. |
| AsyncState.UnknownActionThrows | packages/web/src/state.jsx:101-104 | Any other action type throws a message naming it. |
| AsyncState.NoDoubleFetch | packages/web/src/state.jsx:68-77 | Reducing a second FETCH on the state a successful one produced throws. |
| AsyncState.Run | packages/web/src/state.jsx:66-106 | From a state holding no promise, every state reached holds none and cancel is never called. |
| AsyncState.CancelNeverCalls | packages/web/src/state.jsx:66-110 | From the initial state, no sequence of actions reaches a state in which CANCEL calls cancel. |
| AsyncState.AsyncAction.constructor | packages/web/src/state.jsx:107-109 | The hook starts idle, and so does its first render, with no arguments and no cancel calls. |
| AsyncState.AsyncAction.Render | packages/web/src/state.jsx:24-27 | A render hands the stored state to the next dispatch and changes nothing else. |
| AsyncState.AsyncAction.Dispatch | packages/web/src/state.jsx:24-33 | The reducer runs on the state of the last render, not the stored one. A throwing reducer stores nothing. Otherwise the stored state becomes the reducer's, FETCH's arguments are stored, and each cancel call is counted. |
| AsyncState.AsyncAction.FetchTwiceInOneRender | packages/web/src/state.jsx:24-31 | Two FETCH dispatches between renders both reduce the same idle snapshot: neither throws, and the second arguments are kept. |

## Left out

- Concurrency and timing are not modelled:
  - the Go goroutines of Checker.Run (checker.go:131-148), Checker.Close (150-153), Patrol's HTTP servers (patrol.go:180-207), Stop (210-220) and Close (222-226);
  - the history writer's channel and Append (history.go:253-260), sendError (57-61) and Close (288-292);
  - the JavaScript workers and `sleep` of queue.js:9 and 27-29.
  
  Each operation is one iteration, with the clock as a parameter.
- Plain text rendering: Item.String (history.go:30-43) and Patrol.String (patrol.go:123-139) format text for people and state nothing checked.
- Logging: the logger lines are left out, and so is the logger object. A log level is a field.
- File and process I/O:
  - the file system is a map from path to contents, and FromConfigFile (config.go:66-72) and the YAML decoding (line 75) are left out; FromConfig takes the decoded configuration;
  - the subprocess of Check is its output and exit status.
- The functions the Go code calls on the history file but history.go does not define (GetData in patrol.go:138 of cmd/patrol, SetLogLevel at patrol.go:144, AddChecker at checker.go:49, Compact and the LogLevel option at config.go:115-116) are not part of this model. The list data is a parameter, and the history log level is a field.
- The `checkconfig` and `run` commands and `main` of cmd/patrol/patrol.go.
- History retention: `maxEntries` is stored and never read, so nothing is evicted.
- History.AddItem: an existing id is always replaced in place. The metric re-link that history.go writes is modelled separately, as RelinkAsWritten (see Findings).
- History.HistoryFile.GetGroupItems: the nil-pointer panic for a group without a container is the result None.
- History.HistoryFile.New: each line of the log is decoded on its own. The source unmarshals every line into one `Item` declared before the loop (history.go:118-122), so a line that omits a field keeps the previous line's value for it. Lines the daemon writes carry every field, so only logs edited by hand or written by another program differ.
- History.Item: `createdAt` is a natural number of nanoseconds, so only times from 1970 up to the int64 limit in 2262 are modelled. Before 1970, UnixNano is negative, and the day bucket of history.go:209 rounds toward zero, so 1969-12-31 and 1970-01-01 share bucket 0. After 2262, UnixNano overflows. The daemon stamps items with the current time, so only logs it did not write are affected.
- History.HistoryFile.Serve: a failed copy unlocks and then panics (history.go:181-183), which ends the daemon, and io.Copy may already have written part of the batch to the file; the model leaves the log and index unchanged and has the pass return.
- History.HistoryFile.GetGroups: `len(file.data)` is read before RLock is taken; that race is not modelled.
- History.HistoryFile: a reader or a pass that waits for good on rwMux is the answer Waiting or Blocked; the goroutines themselves are not modelled.
- The JSON codec is abstract; its round trip is the hypothesis `Sound`.
- Docker (dockerImageExists, pull, createContainer, attach, start, wait and remove in checker.js) and nedb (findOne, update) appear through the answers they give, as parameters. Log streaming (stream.pipe) is left out.
- ApiChecker.Upsert: the "day" is the day of the month the source computes, taken as a number. Time zones and the Date object are left out.
- Queue.TaskQueue.WorkStep: among tasks of equal readyAt, which one the heap pops is left open.
- JavaScript numbers are integers here. The `ms` package is a parameter on non-empty strings (`ms("")` throws), and `path.resolve` is modelled only for absolute, normalised paths.
- The order of for-in keys and of Go map iteration is a sequence-valued parameter. The order of the Redux store's keys is not modelled.
- ApiChecker.ContainerName: `toLowerCase` is modelled for ASCII only.
- ApiConfig: initDB, createApp and server.listen (patrol.js:157-167) are left out, beyond the port they would listen on, and so are starting the queue (170-179) and yargs' showHelp text.
- The JavaScript modules are taken as compiled to CommonJS, as Babel does: a named import that notifiers.js does not export (sendNotifications in checker.js, normalizeNotifications in patrol.js) is undefined, and calling it throws a TypeError. Under native ES modules the import would fail when the modules are linked.
- ApiConfig: what an exported normalizeNotifications would return is not known, so the corrected version takes it as the parameter of `Corrected`. The methods model the code as written only.
- ApiConfig.NormaliseCheck: checks shared through YAML aliases (`[*c, *c]`) are normalised as independent values; the source rewrites the one shared object in place, so a later visit sees the interval already written and reports nothing about it.
- ApiConfig.CheckServices: the own-key test is the crash of Validate for a service named "hasOwnProperty" (patrol.js:72); the same call in startWithConfig (checker.js:157) is not reached with such a configuration, because startup crashes first, and ApiChecker.StartWithConfig takes the services as a list of named check lists.
- ApiChecker.UpdateServiceCheck: only the run as written is modelled; with an exported sendNotifications the run would go on to remove the container, and that run has no member of its own.
- Text.Quote: bytes from 0x80 up are written as `\xNN`, where strconv.Quote keeps valid printable UTF-8 as it is; runes are not modelled.
- The Redux devtools enhancer (store.jsx:109-112), and the effects and hooks of state.jsx from line 111 (useEffect, useDemoMode, useQueryParam, useAsync).

## Findings

| source | as written | input that shows it | evidently intended | confidence | as-written member | corrected member |
|---|---|---|---|---|---|---|
| internal/history/history.go:221 | `item.Type == "metric" \|\| !exists` sends a metric item whose id is already indexed down the insert path, which links the existing node in again | a history file with the same metric line twice (same group, name and CreatedAt) | an existing id replaces its node's value, as for other types | not executed | History.RelinkAsWrittenCycles | History.UpsertReplacesInPlace |
| internal/history/history.go:163 | the batching loop runs while `collect && err != nil`, and `err` is nil there; a gathered request would write `req.item` again | any request queued behind another: each pass takes exactly one | gather queued requests until one fails to serialise, writing each one's own item | not executed | History.AsWrittenTakesOneRequest | History.HistoryFile.ServeBatch |
| internal/history/history.go:157-158 | a request whose writeTo fails is acked by sendError and the pass returns without `rwMux.Unlock()`, so the next pass and every reader wait for good | an item whose CreatedAt lies after the year 9999, which json.Marshal refuses | release the lock before acking the error | not executed | History.HistoryFile.Serve | History.HistoryFile.ServeBatch |
| packages/api/src/patrol.js:62 | `typeof config.services !== 'object'` lets `services: null` through, since `typeof null` is "object" | a configuration with `services:` left empty | refuse anything that is not a dictionary with the services message | not executed | ApiConfig.NullServicesStart | ApiConfig.StartedIsValid |
| packages/api/src/patrol.js:15 | normalizeNotifications is imported from notifiers.js, which exports only normalizeNotification, so the call at line 129 throws | a configuration whose notifications have a non-empty on_success list | validate the on_success list and print its errors | not executed | ApiConfig.OnSuccessCrashes | ApiConfig.OnSuccessReported |
| packages/api/src/notifiers.js:17 | `!Notifiers[notification.type]` finds inherited members of Object.prototype, so the call at line 21 throws | a notification `{type: "constructor"}` | refuse every type that is not an own key of the table | not executed | Notifiers.NormalizeNotification | Notifiers.NormalizeNotificationOwn |
