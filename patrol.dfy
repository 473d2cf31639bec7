/**
 * The patrol instance of patrol.go: the set of registered checks, the
 * page name default, the log level forced onto everything it manages,
 * which notification handlers a status change runs, and the refusal to
 * start without checkers.
 */
module Patrol {
  import opened Wrappers
  import Text
  import History
  import Checker

  /** A notification handler (*singleNotificationConfig), by identity. */
  datatype Handler = Handler(id: nat)

  /** EventHandlers: status to the handlers to run, in order. */
  type EventHandlers = map<string, seq<Handler>>

  const DefaultName := "Statuspage"

  /** HTTPS certificate and key file names. */
  datatype HttpsOptions = HttpsOptions(cert: string, key: string)

  /** CreatePatrolOptions; an absent GlobalEventHandlers map (nil) is None. */
  datatype CreateOptions = CreateOptions(
    port: nat,
    https: Option<HttpsOptions>,
    name: string,
    maxEntries: int,
    checkers: seq<Checker.Checker>,
    logLevel: int,
    groupEventHandlers: map<string, EventHandlers>,
    globalEventHandlers: Option<EventHandlers>)

  /** The set of checkers as a frame. */
  function Objects(checkers: seq<Checker.Checker>): set<Checker.Checker> {
    set i | 0 <= i < |checkers| :: checkers[i]
  }

  /** Some checker among the first k has this group and name. */
  predicate Registered(checkers: seq<Checker.Checker>, k: nat, g: string, n: string)
    requires k <= |checkers|
  {
    exists j | 0 <= j < k :: checkers[j].group == g && checkers[j].name == n
  }

  /**
   * The registered groups (patrol.go:84-91): group to check name to true,
   * built one checker at a time.
   */
  method RegisteredGroups(checkers: seq<Checker.Checker>) returns (groups: map<string, map<string, bool>>)
    ensures forall g, n :: (g in groups && n in groups[g]) <==> Registered(checkers, |checkers|, g, n)
    ensures forall g, n | g in groups && n in groups[g] :: groups[g][n]
  {
    groups := map[];
    var i := 0;
    while i < |checkers|
      invariant 0 <= i <= |checkers|
      invariant forall g, n :: (g in groups && n in groups[g]) <==> Registered(checkers, i, g, n)
      invariant forall g, n | g in groups && n in groups[g] :: groups[g][n]
    {
      var c := checkers[i];
      ghost var before := groups;
      if c.group !in groups {
        groups := groups[c.group := map[]];
      }
      groups := groups[c.group := groups[c.group][c.name := true]];
      i := i + 1;
      forall g, n ensures (g in groups && n in groups[g]) <==> Registered(checkers, i, g, n) {
        if g == c.group && n == c.name {
          assert checkers[i - 1].group == g && checkers[i - 1].name == n;
        } else {
          assert (g in groups && n in groups[g]) <==> (g in before && n in before[g]);
          assert (g in before && n in before[g]) <==> Registered(checkers, i - 1, g, n);
          if Registered(checkers, i, g, n) {
            var j :| 0 <= j < i && checkers[j].group == g && checkers[j].name == n;
            assert j < i - 1;
          }
        }
      }
    }
  }

  /** The handlers OnCheckerStatus runs: the global ones for the status, then the group's. */
  function Dispatch(global: Option<EventHandlers>, byGroup: map<string, EventHandlers>, status: string, group: string): seq<Handler> {
    (if global.Some? && status in global.value then global.value[status] else [])
    + (if group in byGroup && status in byGroup[group] then byGroup[group][status] else [])
  }

  /**
   * Only handlers filed under this status, globally or for this group, run;
   * with nothing filed under it nothing runs.
   */
  lemma DispatchOnlyMatching(global: Option<EventHandlers>, byGroup: map<string, EventHandlers>, status: string, group: string)
    ensures forall h | h in Dispatch(global, byGroup, status, group) ::
              (global.Some? && status in global.value && h in global.value[status])
              || (group in byGroup && status in byGroup[group] && h in byGroup[group][status])
    ensures ((global.None? || status !in global.value) && (group !in byGroup || status !in byGroup[group]))
              ==> Dispatch(global, byGroup, status, group) == []
  {
  }

  /** Every global handler for the status runs before every group handler, each list in its own order. */
  lemma DispatchOrder(global: EventHandlers, byGroup: map<string, EventHandlers>, status: string, group: string)
    requires status in global && group in byGroup && status in byGroup[group]
    ensures var ran := Dispatch(Some(global), byGroup, status, group);
            && ran[..|global[status]|] == global[status]
            && ran[|global[status]|..] == byGroup[group][status]
  {
  }

  /** A nil global map and an empty one select the same handlers: the nil check only skips a lookup. */
  lemma NilGlobalIsEmpty(byGroup: map<string, EventHandlers>, status: string, group: string)
    ensures Dispatch(None, byGroup, status, group) == Dispatch(Some(map[]), byGroup, status, group)
  {
  }

  class Patrol {
    var name: string
    const port: nat
    const https: Option<HttpsOptions>
    const checkers: seq<Checker.Checker>
    var logLevel: int
    /**
     * The level patrol.go:144 forces onto the history file through a
     * SetLogLevel method that history.go does not define.
     */
    var historyLogLevel: int
    const groupEventHandlers: map<string, EventHandlers>
    const globalEventHandlers: Option<EventHandlers>
    const history: History.HistoryFile

    constructor Init(options: CreateOptions, history: History.HistoryFile)
      ensures name == options.name && port == options.port && https == options.https
      ensures checkers == options.checkers && logLevel == options.logLevel && historyLogLevel == options.logLevel
      ensures groupEventHandlers == options.groupEventHandlers && globalEventHandlers == options.globalEventHandlers
      ensures this.history == history
    {
      name := options.name;
      port := options.port;
      https := options.https;
      checkers := options.checkers;
      logLevel := options.logLevel;
      historyLogLevel := options.logLevel;
      groupEventHandlers := options.groupEventHandlers;
      globalEventHandlers := options.globalEventHandlers;
      this.history := history;
    }

    /**
     * New (patrol.go:83-121): without a history file, the registered groups
     * are built and a history file is opened, and an error opening it is
     * returned; an empty name becomes "Statuspage"; the options' log level
     * is forced onto the checkers.
     */
    static method New(options: CreateOptions, historyFile: Option<History.HistoryFile>, codec: History.Codec,
                      openResult: Result<seq<Text.byte>, string>)
      returns (r: Result<Patrol, History.OpenError>)
      modifies Objects(options.checkers)
      ensures historyFile.Some? ==> r.Success? && r.value.history == historyFile.value
      ensures historyFile.None? && openResult.Failure? ==> r == Failure(History.OpenFailed(openResult.error))
      ensures historyFile.None? && openResult.Success? ==>
                (r.Success? <==> History.Replay(codec.decode, openResult.value).Success?)
      ensures historyFile.None? && openResult.Success? && r.Failure? ==> r.error == History.UnmarshalFailed
      ensures historyFile.None? && r.Success? ==>
                && fresh(r.value.history) && r.value.history.Valid() && r.value.history.codec == codec
                && r.value.history.log == openResult.value && !r.value.history.writeLocked
                && History.Replay(codec.decode, openResult.value) == Success(r.value.history.data)
      ensures r.Success? ==> && fresh(r.value)
                             && r.value.name == (if options.name == "" then DefaultName else options.name)
                             && r.value.port == options.port && r.value.https == options.https
                             && r.value.checkers == options.checkers
                             && r.value.logLevel == options.logLevel
                             && r.value.groupEventHandlers == options.groupEventHandlers
                             && r.value.globalEventHandlers == options.globalEventHandlers
      ensures r.Success? ==> forall i | 0 <= i < |options.checkers| :: options.checkers[i].logLevel == options.logLevel
      ensures forall i | 0 <= i < |options.checkers| :: options.checkers[i].cmdTimeout == old(options.checkers[i].cmdTimeout)
    {
      var file: History.HistoryFile;
      if historyFile.None? {
        var groups := RegisteredGroups(options.checkers);   // passed to history.New, which does not read it
        var opening := History.HistoryFile.New(codec, options.maxEntries, openResult);
        if opening.Failure? {
          return Failure(opening.error);
        }
        file := opening.value;
      } else {
        file := historyFile.value;
      }
      var p := new Patrol.Init(options, file);
      if p.name == "" {
        p.name := DefaultName;
      }
      p.SetLogLevel(options.logLevel);
      return Success(p);
    }

    /** SetLogLevel (patrol.go:141-148): the same level on the patrol, its history file and every checker. */
    method SetLogLevel(level: int)
      modifies this, Objects(checkers)
      ensures logLevel == level && historyLogLevel == level && name == old(name)
      ensures forall i | 0 <= i < |checkers| :: checkers[i].logLevel == level
      ensures forall i | 0 <= i < |checkers| :: checkers[i].cmdTimeout == old(checkers[i].cmdTimeout)
    {
      logLevel := level;
      historyLogLevel := level;
      var i := 0;
      while i < |checkers|
        invariant 0 <= i <= |checkers|
        invariant logLevel == level && historyLogLevel == level && name == old(name)
        invariant forall j | 0 <= j < i :: checkers[j].logLevel == level
        invariant forall j | 0 <= j < |checkers| :: checkers[j].cmdTimeout == old(checkers[j].cmdTimeout)
      {
        checkers[i].SetLogLevel(level);
        i := i + 1;
      }
    }

    /** OnCheckerStatus (patrol.go:150-169): run the selected handlers; the result is the handlers run, in order. */
    method OnCheckerStatus(status: string, group: string, checker: string) returns (ran: seq<Handler>)
      ensures ran == Dispatch(globalEventHandlers, groupEventHandlers, status, group)
    {
      ran := [];
      if globalEventHandlers.Some? && status in globalEventHandlers.value {
        var handlers := globalEventHandlers.value[status];
        var i := 0;
        while i < |handlers|
          invariant 0 <= i <= |handlers| && ran == handlers[..i]
        {
          ran := ran + [handlers[i]];
          i := i + 1;
        }
        assert handlers[..|handlers|] == handlers;
      }
      ghost var globalRan := ran;
      if group in groupEventHandlers && status in groupEventHandlers[group] {
        var handlers := groupEventHandlers[group][status];
        var i := 0;
        while i < |handlers|
          invariant 0 <= i <= |handlers| && ran == globalRan + handlers[..i]
        {
          ran := ran + [handlers[i]];
          i := i + 1;
        }
        assert handlers[..|handlers|] == handlers;
      }
    }

    /** Start (patrol.go:171-174): with no checkers it panics with this message; otherwise it starts them. */
    method Start() returns (panicked: Option<string>)
      ensures panicked.Some? <==> |checkers| == 0
      ensures panicked.Some? ==> panicked.value == "Cannot start patrol with zero checkers"
    {
      if |checkers| == 0 {
        return Some("Cannot start patrol with zero checkers");
      }
      return None;
    }
  }
}
