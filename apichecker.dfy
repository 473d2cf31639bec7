/**
 * Scheduling and recording of service checks in the API
 * (packages/api/src/checker.js): the Docker container name of a check,
 * when its first run is queued, and what one run records, notifies and
 * queues next.
 *
 * Docker, the nedb collection API and the clock are outside the model: a
 * run receives what the Docker calls did as a DockerRun and the clock
 * readings as a Clock. The `Checks` collection is a sequence of stored
 * rows in insertion order.
 */
module ApiChecker {
  import opened Wrappers
  import opened Text
  import opened Js
  import Queue

  /** `\w` without the `u` flag: ASCII letters, digits and underscore. */
  predicate IsWord(c: char) {
    'a' <= c <= 'z' || 'A' <= c <= 'Z' || '0' <= c <= '9' || c == '_'
  }

  predicate AllWord(s: string) {
    forall i | 0 <= i < |s| :: IsWord(s[i])
  }

  predicate NoWord(s: string) {
    forall i | 0 <= i < |s| :: !IsWord(s[i])
  }

  /** Length of the run of non-word characters at the start of s. */
  function RunEnd(s: string): (k: nat)
    ensures k <= |s|
    ensures forall i | 0 <= i < k :: !IsWord(s[i])
    ensures k < |s| ==> IsWord(s[k])
    ensures |s| > 0 && !IsWord(s[0]) ==> k >= 1
    decreases |s|
  {
    if |s| == 0 || IsWord(s[0]) then 0
    else
      var k := 1 + RunEnd(s[1..]);
      assert forall i | 1 <= i < k :: s[i] == s[1..][i - 1];
      k
  }

  /** `s.replace(/[^\w]+/g, '_')`: every maximal run of non-word characters becomes one underscore. */
  function Underscored(s: string): (r: string)
    ensures AllWord(r)
    decreases |s|
  {
    if |s| == 0 then ""
    else if IsWord(s[0]) then [s[0]] + Underscored(s[1..])
    else "_" + Underscored(s[RunEnd(s)..])
  }

  /** A string of word characters is left as it is. */
  lemma {:induction false} UnderscoredKeepsWords(s: string)
    requires AllWord(s)
    ensures Underscored(s) == s
    decreases |s|
  {
    if |s| > 0 {
      assert AllWord(s[1..]) by {
        assert forall i | 0 <= i < |s| - 1 :: s[1..][i] == s[i + 1];
      }
      UnderscoredKeepsWords(s[1..]);
    }
  }

  /** Replacing twice is replacing once. */
  lemma UnderscoredIdempotent(s: string)
    ensures Underscored(Underscored(s)) == Underscored(s)
  {
    UnderscoredKeepsWords(Underscored(s));
  }

  /**
   * Word characters before a run of non-word characters are kept, and the
   * whole run becomes a single underscore.
   */
  lemma {:induction false} RunBecomesUnderscore(w: string, run: string, rest: string)
    requires AllWord(w) && |run| > 0 && NoWord(run)
    requires |rest| > 0 ==> IsWord(rest[0])
    ensures Underscored(w + run + rest) == w + "_" + Underscored(rest)
    decreases |w|
  {
    var s := w + run + rest;
    if |w| == 0 {
      assert s == run + rest;
      assert RunEnd(s) == |run| by {
        RunEndAt(s, |run|);
      }
      assert s[|run|..] == rest;
    } else {
      assert s[1..] == w[1..] + run + rest;
      assert AllWord(w[1..]) by {
        assert forall i | 0 <= i < |w| - 1 :: w[1..][i] == w[i + 1];
      }
      RunBecomesUnderscore(w[1..], run, rest);
      assert s[0] == w[0] && IsWord(s[0]);
      assert Underscored(s) == [w[0]] + (w[1..] + "_" + Underscored(rest));
      assert w == [w[0]] + w[1..];
    }
  }

  lemma {:induction false} RunEndAt(s: string, k: nat)
    requires k <= |s| && (forall i | 0 <= i < k :: !IsWord(s[i])) && (k < |s| ==> IsWord(s[k]))
    ensures RunEnd(s) == k
    decreases k
  {
    if k > 0 {
      RunEndAt(s[1..], k - 1);
    }
  }

  /** `patrol-${service}-${check}` lower-cased, with non-word runs replaced (checker.js:28-30). */
  function ContainerName(service: string, check: string): (name: string)
    ensures AllWord(name)
    ensures NoUpper(name)
  {
    var lowered := Lower("patrol-" + service + "-" + check);
    var name := Underscored(lowered);
    assert NoUpper(lowered);
    UnderscoredNoUpper(lowered);
    name
  }

  lemma {:induction false} UnderscoredNoUpper(s: string)
    requires NoUpper(s)
    ensures NoUpper(Underscored(s))
    decreases |s|
  {
    if |s| > 0 {
      var next := if IsWord(s[0]) then s[1..] else s[RunEnd(s)..];
      assert forall i | 0 <= i < |next| :: next[i] == s[i + |s| - |next|];
      UnderscoredNoUpper(next);
    }
  }

  /** A non-empty name of word characters without upper-case letters. */
  predicate PlainName(s: string) {
    |s| > 0 && AllWord(s) && NoUpper(s)
  }

  /** For names made of lower-case word characters the container name is patrol_<service>_<check>. */
  lemma ContainerNameOfPlainNames(service: string, check: string)
    requires PlainName(service) && PlainName(check)
    ensures ContainerName(service, check) == "patrol" + "_" + service + "_" + check
  {
    var tail := service + "-" + check;
    PlainNamesLowered(service, check);
    PlainNamesUnderscored(service, check);
    assert tail[0] == service[0];
    PatrolPrefix(tail);
    Regroup("patrol", service, check);
  }

  lemma Regroup(prefix: string, service: string, check: string)
    ensures prefix + "_" + (service + "_" + check) == prefix + "_" + service + "_" + check
  {
  }

  lemma PatrolPrefix(tail: string)
    requires |tail| > 0 && IsWord(tail[0])
    ensures Underscored("patrol" + "-" + tail) == "patrol" + "_" + Underscored(tail)
  {
    Separators();
    RunBecomesUnderscore("patrol", "-", tail);
  }

  /** The literal parts of a container name: "patrol" is a word and "-" is not. */
  lemma Separators()
    ensures AllWord("patrol") && NoWord("-")
  {
    var w := "patrol";
    assert w[0] == 'p' && w[1] == 'a' && w[2] == 't' && w[3] == 'r' && w[4] == 'o' && w[5] == 'l';
    forall i | 0 <= i < |w| ensures IsWord(w[i]) {
      if i == 0 {} else if i == 1 {} else if i == 2 {} else if i == 3 {} else if i == 4 {} else {}
    }
  }

  lemma PlainNamesLowered(service: string, check: string)
    requires PlainName(service) && PlainName(check)
    ensures Lower("patrol-" + service + "-" + check) == "patrol" + "-" + (service + "-" + check)
  {
    var s := "patrol" + "-" + (service + "-" + check);
    assert "patrol-" + service + "-" + check == s;
    NoUpperConcat(service, "-");
    NoUpperConcat(service + "-", check);
    NoUpperConcat("patrol-", service + "-" + check);
    LowerKeeps(s);
  }

  lemma PlainNamesUnderscored(service: string, check: string)
    requires PlainName(service) && PlainName(check)
    ensures Underscored(service + "-" + check) == service + "_" + check
  {
    UnderscoredKeepsWords(check);
    Separators();
    RunBecomesUnderscore(service, "-", check);
  }

  /** No upper-case ASCII letter. */
  predicate NoUpper(s: string) {
    forall i | 0 <= i < |s| :: !('A' <= s[i] <= 'Z')
  }

  lemma NoUpperConcat(a: string, b: string)
    requires NoUpper(a) && NoUpper(b)
    ensures NoUpper(a + b)
  {
    assert forall i | |a| <= i < |a + b| :: (a + b)[i] == b[i - |a|];
  }

  /** Lower-casing leaves a string without upper-case letters as it is. */
  lemma LowerKeeps(s: string)
    requires NoUpper(s)
    ensures Lower(s) == s
  {
  }

  /**
   * Different service and check names can share a container name, and then
   * each run removes the other's container.
   */
  lemma ContainerNamesCanCollide()
    ensures ContainerName("a-b", "c") == ContainerName("a", "b-c")
  {
    assert "patrol-" + "a-b" + "-" + "c" == "patrol-" + "a" + "-" + "b-c";
  }

  /** A check as startWithConfig finds it in the validated configuration. */
  datatype CheckConfig = CheckConfig(name: string, cmd: string, image: string, interval: int)

  /** The serviceCheck object: the service name, its check, and the configuration's notifications. */
  datatype ServiceCheck = ServiceCheck(service: string, check: CheckConfig, notifications: Value)

  /** `() => updateServiceCheck(serviceCheck)`. */
  function UpdateJob(sc: ServiceCheck): Queue.Job {
    Queue.Job("updateServiceCheck", sc.service, sc.check.name)
  }

  /** `() => initServiceCheck({service, check, notifications})`. */
  function InitJob(service: string, check: CheckConfig): Queue.Job {
    Queue.Job("initServiceCheck", service, check.name)
  }

  /**
   * When the first run of a check is due (checker.js:128-151): a previous
   * run that is still fresh puts it at that run's time plus the interval,
   * anything else makes it due now; never earlier than now.
   */
  function FirstRunAt(lastCreatedAt: Option<int>, interval: int, now: nat): (t: int)
    ensures t >= now
    ensures lastCreatedAt.None? ==> t == now
    ensures lastCreatedAt.Some? ==> t >= lastCreatedAt.value + interval && (t == now || t == lastCreatedAt.value + interval)
  {
    if lastCreatedAt.Some? && now < lastCreatedAt.value + interval then lastCreatedAt.value + interval else now
  }

  /**
   * initServiceCheck: exactly one update task for the check is queued, due
   * at FirstRunAt. `lastCreatedAt` is the createdAt of the row findOne
   * returned, None when it returned none.
   */
  method InitServiceCheck(q: Queue.TaskQueue, sc: ServiceCheck, lastCreatedAt: Option<int>, now: nat)
    requires q.Valid()
    modifies q
    ensures q.Valid()
    ensures q.tasks == old(q.tasks) + multiset{Queue.Task(Some(FirstRunAt(lastCreatedAt, sc.check.interval, now)), UpdateJob(sc))}
  {
    if lastCreatedAt.Some? && now < lastCreatedAt.value + sc.check.interval {
      q.Enqueue(Queue.ObjectTask(Queue.Task(Some(lastCreatedAt.value + sc.check.interval), UpdateJob(sc))), now);
      return;
    }
    q.Enqueue(Queue.FunctionTask(UpdateJob(sc)), now);
  }

  /** A stored run of a check. utcDayOfMonth is `new Date().getDate()`. */
  datatype Row = Row(service: string, check: string, createdAt: int, utcDayOfMonth: int, duration: int,
                     serviceStatus: string, serviceError: Value)

  /** The selector of the upsert: service, check and day of the month. */
  predicate Matches(r: Row, service: string, check: string, day: int) {
    r.service == service && r.check == check && r.utcDayOfMonth == day
  }

  /** nedb's update with upsert and no operators: the first matching row is replaced, or the row is added. */
  function Upsert(rows: seq<Row>, service: string, check: string, day: int, row: Row): (r: seq<Row>)
    ensures |r| == |rows| || |r| == |rows| + 1
    ensures row in r
  {
    if |rows| == 0 then [row]
    else if Matches(rows[0], service, check, day) then [row] + rows[1..]
    else [rows[0]] + Upsert(rows[1..], service, check, day, row)
  }

  /** At most one row per check and day of the month. */
  predicate OnePerDay(rows: seq<Row>) {
    forall i, j | 0 <= i < j < |rows| ::
      !(rows[i].service == rows[j].service && rows[i].check == rows[j].check && rows[i].utcDayOfMonth == rows[j].utcDayOfMonth)
  }

  /**
   * The upsert keeps one row per check and day of the month, holds the new
   * row, and keeps every row of another check or day.
   */
  lemma {:induction false} UpsertOnePerDay(rows: seq<Row>, day: int, row: Row)
    requires OnePerDay(rows) && row.utcDayOfMonth == day
    ensures OnePerDay(Upsert(rows, row.service, row.check, day, row))
    ensures forall x | x in rows && !Matches(x, row.service, row.check, day) :: x in Upsert(rows, row.service, row.check, day, row)
  {
    UpsertMembers(rows, row.service, row.check, day, row);
    if |rows| > 0 {
      var rest := rows[1..];
      assert OnePerDay(rest) by {
        forall i, j | 0 <= i < j < |rest| ensures
          !(rest[i].service == rest[j].service && rest[i].check == rest[j].check && rest[i].utcDayOfMonth == rest[j].utcDayOfMonth)
        {
          assert rest[i] == rows[i + 1] && rest[j] == rows[j + 1];
        }
      }
      if !Matches(rows[0], row.service, row.check, day) {
        UpsertOnePerDay(rest, day, row);
        UpsertMembers(rest, row.service, row.check, day, row);
        HeadDistinct(rows, day, row);
        ConsOnePerDay(rows[0], Upsert(rest, row.service, row.check, day, row));
      } else {
        assert OnePerDay([row] + rest) by {
          ConsOnePerDay(row, rest);
        }
      }
    }
  }

  /** The first row's check and day occur nowhere else in the upsert of the remaining rows. */
  lemma HeadDistinct(rows: seq<Row>, day: int, row: Row)
    requires |rows| > 0 && OnePerDay(rows) && row.utcDayOfMonth == day && !Matches(rows[0], row.service, row.check, day)
    requires forall x | x in Upsert(rows[1..], row.service, row.check, day, row) :: x == row || x in rows[1..]
    ensures forall x | x in Upsert(rows[1..], row.service, row.check, day, row) ::
              !(x.service == rows[0].service && x.check == rows[0].check && x.utcDayOfMonth == rows[0].utcDayOfMonth)
  {
    forall x | x in Upsert(rows[1..], row.service, row.check, day, row)
      ensures !(x.service == rows[0].service && x.check == rows[0].check && x.utcDayOfMonth == rows[0].utcDayOfMonth)
    {
      if x != row {
        var k :| 0 <= k < |rows[1..]| && rows[1..][k] == x;
        assert rows[k + 1] == x;
      }
    }
  }

  /** A row in front of rows that keep one per day, none sharing its check and day. */
  lemma ConsOnePerDay(head: Row, rest: seq<Row>)
    requires OnePerDay(rest)
    requires forall x | x in rest :: !(x.service == head.service && x.check == head.check && x.utcDayOfMonth == head.utcDayOfMonth)
    ensures OnePerDay([head] + rest)
  {
    var r := [head] + rest;
    forall i, j | 0 <= i < j < |r|
      ensures !(r[i].service == r[j].service && r[i].check == r[j].check && r[i].utcDayOfMonth == r[j].utcDayOfMonth)
    {
      if i == 0 {
        assert r[j] == rest[j - 1] && r[j] in rest;
      } else {
        assert r[i] == rest[i - 1] && r[j] == rest[j - 1];
      }
    }
  }

  /** A second run on the same day of the month replaces the first one's row. */
  lemma {:induction false} UpsertSameDayReplaces(rows: seq<Row>, service: string, check: string, day: int, first: Row, second: Row)
    requires Matches(first, service, check, day)
    ensures Upsert(Upsert(rows, service, check, day, first), service, check, day, second)
            == Upsert(rows, service, check, day, second)
  {
    if |rows| > 0 && !Matches(rows[0], service, check, day) {
      UpsertSameDayReplaces(rows[1..], service, check, day, first, second);
      assert ([rows[0]] + Upsert(rows[1..], service, check, day, first))[1..] == Upsert(rows[1..], service, check, day, first);
    }
  }

  /** Every row of the result is the new one or an old one, and every old non-matching row is kept. */
  lemma {:induction false} UpsertMembers(rows: seq<Row>, service: string, check: string, day: int, row: Row)
    ensures forall x | x in Upsert(rows, service, check, day, row) :: x == row || x in rows
    ensures forall x | x in rows && !Matches(x, service, check, day) :: x in Upsert(rows, service, check, day, row)
  {
    if |rows| > 0 {
      UpsertMembers(rows[1..], service, check, day, row);
    }
  }

  /**
   * What the Docker calls of one run did: the error removing an old
   * container of the same name (None when it was removed), whether pulling,
   * creating, attaching or starting threw, what `container.wait()` threw
   * (None when it returned), whether the collection update threw, and
   * whether the final `container.remove()` threw.
   */
  datatype DockerRun = DockerRun(removeError: Option<string>, setupFailed: bool, waitError: Option<Value>, storeFailed: bool,
                                 finalRemoveFailed: bool)

  /**
   * The clock readings of one run: startedAt, the day of the month used by
   * the selector and by the stored row, createdAt, the reading the
   * duration is taken at, and the reading of the finally block.
   */
  datatype Clock = Clock(startedAt: int, selectorDay: int, rowDay: int, createdAt: int, endedAt: int, finallyAt: nat)

  /** A run is healthy unless container.wait() threw (checker.js:69-76). */
  function Status(waitError: Option<Value>): (s: string)
    ensures s == "unhealthy" <==> waitError.Some?
    ensures s == "healthy" || s == "unhealthy"
  {
    if waitError.Some? then "unhealthy" else "healthy"
  }

  /**
   * The list passed to sendNotifications (checker.js:104-110): with
   * notifications configured, on_failure for an unhealthy run and
   * on_success for any other; without them, none.
   */
  function NotificationChoice(notifications: Value, status: string): (sent: Option<Value>)
    ensures sent.Some? <==> Truthy(notifications)
    ensures sent.Some? && status == "unhealthy" ==> sent.value == Prop(notifications, "on_failure")
    ensures sent.Some? && status != "unhealthy" ==> sent.value == Prop(notifications, "on_success")
  {
    if !Truthy(notifications) then None
    else if status == "unhealthy" then Some(Prop(notifications, "on_failure"))
    else Some(Prop(notifications, "on_success"))
  }

  /** The task the finally block queues: the same update, interval milliseconds after its reading of the clock. */
  function NextRun(sc: ServiceCheck, finallyAt: nat): Queue.Task {
    Queue.Normalise(Queue.ObjectTask(Queue.Task(Some(finallyAt + sc.check.interval), UpdateJob(sc))), finallyAt)
  }

  /** The next run is due interval milliseconds later, when that reading is truthy. */
  lemma NextRunDue(sc: ServiceCheck, finallyAt: nat)
    requires finallyAt + sc.check.interval != 0
    ensures NextRun(sc, finallyAt) == Queue.Task(Some(finallyAt + sc.check.interval), UpdateJob(sc))
  {
  }

  /**
   * What one run of updateServiceCheck produced besides the queued task:
   * the status, the rows, the list sendNotifications was called with,
   * whether the container was removed at the end, and whether the run
   * ended in the catch block.
   */
  datatype RunRecord = RunRecord(status: Option<string>, rows: seq<Row>, attempted: Option<Value>, removed: bool, halted: bool)

  /**
   * updateServiceCheck as written (checker.js:20-126). A failure to remove
   * an old container other than "no such container", or any failing setup
   * step, halts the run before anything is stored. Otherwise the status is
   * recorded by an upsert on service, check and day of the month. With
   * notifications configured, the chosen list is passed to sendNotifications,
   * which notifiers.js does not export, so the call throws and the run
   * halts before the container is removed; otherwise the container is
   * removed, and a failure of that halts the run too. Whatever happened,
   * the finally block queues the next run at the clock plus the interval.
   */
  method UpdateServiceCheck(q: Queue.TaskQueue, sc: ServiceCheck, rows: seq<Row>, docker: DockerRun, clock: Clock)
    returns (record: RunRecord)
    requires q.Valid()
    modifies q
    ensures q.Valid() && q.tasks == old(q.tasks) + multiset{NextRun(sc, clock.finallyAt)}
    ensures var reached := (docker.removeError.None? || Contains(docker.removeError.value, "no such container")) && !docker.setupFailed;
            && (record.status.Some? <==> reached)
            && (reached ==> record.status == Some(Status(docker.waitError)))
            && (!reached || docker.storeFailed ==>
                  record.rows == rows && record.attempted.None? && !record.removed && record.halted)
            && (reached && !docker.storeFailed ==>
                  && record.rows == Upsert(rows, sc.service, sc.check.name, clock.selectorDay,
                                           Row(sc.service, sc.check.name, clock.createdAt, clock.rowDay,
                                               clock.endedAt - clock.startedAt, Status(docker.waitError),
                                               if docker.waitError.Some? then docker.waitError.value else Undefined))
                  && record.attempted == NotificationChoice(sc.notifications, Status(docker.waitError))
                  && (record.halted <==> Truthy(sc.notifications) || docker.finalRemoveFailed)
                  && record.removed == !record.halted)
  {
    record := RunRecord(None, rows, None, false, true);
    var name := ContainerName(sc.service, sc.check.name);
    if docker.removeError.Some? && !Contains(docker.removeError.value, "no such container") {
      q.Enqueue(Queue.ObjectTask(Queue.Task(Some(clock.finallyAt + sc.check.interval), UpdateJob(sc))), clock.finallyAt);
      return;
    }
    if docker.setupFailed {
      q.Enqueue(Queue.ObjectTask(Queue.Task(Some(clock.finallyAt + sc.check.interval), UpdateJob(sc))), clock.finallyAt);
      return;
    }
    var serviceStatus := "healthy";
    var serviceError := Undefined;
    if docker.waitError.Some? {
      serviceStatus := "unhealthy";
      serviceError := docker.waitError.value;
    }
    record := record.(status := Some(serviceStatus));
    if docker.storeFailed {
      q.Enqueue(Queue.ObjectTask(Queue.Task(Some(clock.finallyAt + sc.check.interval), UpdateJob(sc))), clock.finallyAt);
      return;
    }
    var row := Row(sc.service, sc.check.name, clock.createdAt, clock.rowDay, clock.endedAt - clock.startedAt,
                   serviceStatus, serviceError);
    record := record.(rows := Upsert(rows, sc.service, sc.check.name, clock.selectorDay, row));
    if Truthy(sc.notifications) {
      if serviceStatus == "unhealthy" {
        record := record.(attempted := Some(Prop(sc.notifications, "on_failure")));
      } else {
        record := record.(attempted := Some(Prop(sc.notifications, "on_success")));
      }
      // sendNotifications is undefined: calling it throws into the catch block
      q.Enqueue(Queue.ObjectTask(Queue.Task(Some(clock.finallyAt + sc.check.interval), UpdateJob(sc))), clock.finallyAt);
      return;
    }
    if docker.finalRemoveFailed {
      q.Enqueue(Queue.ObjectTask(Queue.Task(Some(clock.finallyAt + sc.check.interval), UpdateJob(sc))), clock.finallyAt);
      return;
    }
    record := record.(removed := true, halted := false);
    q.Enqueue(Queue.ObjectTask(Queue.Task(Some(clock.finallyAt + sc.check.interval), UpdateJob(sc))), clock.finallyAt);
  }

  /** The init tasks startWithConfig queues for the first i services, in order. */
  function InitTasks(services: seq<(string, seq<CheckConfig>)>, now: int): (ts: seq<Queue.Task>)
    ensures forall t | t in ts :: t.readyAt.Some? && t.run.fn == "initServiceCheck"
  {
    if |services| == 0 then []
    else
      var (name, checks) := services[|services| - 1];
      InitTasks(services[..|services| - 1], now) + ChecksInitTasks(name, checks, now)
  }

  function ChecksInitTasks(name: string, checks: seq<CheckConfig>, now: int): (ts: seq<Queue.Task>)
    ensures |ts| == |checks|
    ensures forall i | 0 <= i < |checks| :: ts[i] == Queue.Normalise(Queue.FunctionTask(InitJob(name, checks[i])), now)
  {
    if |checks| == 0 then []
    else ChecksInitTasks(name, checks[..|checks| - 1], now) + [Queue.Normalise(Queue.FunctionTask(InitJob(name, checks[|checks| - 1])), now)]
  }

  /** One init task per check of every service. */
  function CheckCount(services: seq<(string, seq<CheckConfig>)>): nat {
    if |services| == 0 then 0 else CheckCount(services[..|services| - 1]) + |services[|services| - 1].1|
  }

  lemma {:induction false} InitTasksCount(services: seq<(string, seq<CheckConfig>)>, now: int)
    ensures |InitTasks(services, now)| == CheckCount(services)
  {
    if |services| > 0 {
      InitTasksCount(services[..|services| - 1], now);
    }
  }

  lemma ChecksInitStep(name: string, checks: seq<CheckConfig>, ci: nat, now: int)
    requires ci < |checks|
    ensures ChecksInitTasks(name, checks[..ci + 1], now)
            == ChecksInitTasks(name, checks[..ci], now) + [Queue.Normalise(Queue.FunctionTask(InitJob(name, checks[ci])), now)]
  {
    assert checks[..ci + 1][..ci] == checks[..ci];
  }

  lemma InitStep(services: seq<(string, seq<CheckConfig>)>, si: nat, now: int)
    requires si < |services|
    ensures InitTasks(services[..si + 1], now) == InitTasks(services[..si], now) + ChecksInitTasks(services[si].0, services[si].1, now)
  {
    assert services[..si + 1][..si] == services[..si];
  }

  /** The inner loop of startWithConfig (checker.js:158-166): one init task per check, in order. */
  method EnqueueChecks(q: Queue.TaskQueue, name: string, checks: seq<CheckConfig>, now: nat)
    requires q.Valid()
    modifies q
    ensures q.Valid() && q.tasks == old(q.tasks) + multiset(ChecksInitTasks(name, checks, now))
  {
    var ci := 0;
    while ci < |checks|
      invariant 0 <= ci <= |checks|
      invariant q.Valid() && q.tasks == old(q.tasks) + multiset(ChecksInitTasks(name, checks[..ci], now))
    {
      ChecksInitStep(name, checks, ci, now);
      q.Enqueue(Queue.FunctionTask(InitJob(name, checks[ci])), now);
      ci := ci + 1;
    }
    assert checks[..ci] == checks;
  }

  /**
   * startWithConfig (checker.js:153-169): one task per check of each
   * service, in the order the services and their checks are visited, each
   * due now and running initServiceCheck for that check.
   */
  method StartWithConfig(q: Queue.TaskQueue, services: seq<(string, seq<CheckConfig>)>, now: nat)
    requires q.Valid()
    modifies q
    ensures q.Valid() && q.tasks == old(q.tasks) + multiset(InitTasks(services, now))
  {
    var si := 0;
    while si < |services|
      invariant 0 <= si <= |services|
      invariant q.Valid() && q.tasks == old(q.tasks) + multiset(InitTasks(services[..si], now))
    {
      var name := services[si].0;
      var checks := services[si].1;
      EnqueueChecks(q, name, checks, now);
      InitStep(services, si, now);
      si := si + 1;
    }
    assert services[..si] == services;
  }
}
