/**
 * Startup of the API (packages/api/src/patrol.js, the start of `main`):
 * the command line is checked, the loaded configuration is normalised in
 * place (dbDirectory, each check's interval and image, the web section) and
 * validated, and any error stops startup before the database and the
 * server are started.
 *
 * Reading the file and YAML decoding are outside the model: `loaded` is
 * the decoded configuration, None when reading or decoding threw. The `ms`
 * duration parser is the parameter `ms` on non-empty strings; `ms("")`
 * throws.
 *
 * Two versions of main are modelled (Version). As written, the services
 * test lets null through, and the call at patrol.js:129 throws, since
 * notifiers.js exports no normalizeNotifications. Corrected, the services
 * must be a dictionary and the call returns the validator's errors, a
 * parameter of the version. The methods model the code as written.
 */
module ApiConfig {
  import opened Wrappers
  import opened Text
  import opened Js

  const DefaultInterval := 60 * 1000
  const DefaultImage := "byrnedo/alpine-curl"
  const DefaultTitle := "System Status"
  /** defaultWebConfig (patrol.js:19-23). */
  const DefaultWeb: Value := Obj([("port", Num(1234)), ("apiPort", Num(8080)), ("title", Str(DefaultTitle))])
  const DefaultPort := 8080

  /** A line main writes to stderr. */
  datatype Message =
    | Unrecognized(args: seq<string>)
    | NotAbsolute
    | ServicesNotDictionary
    | BadName(service: string, index: nat)
    | BadCmd(service: string, index: nat)
    | BadInterval(service: string, index: nat)
    | BadImage(service: string, index: nat)
    | NotArray(name: string)
    | NotificationsNotDictionary
    | OnSuccess(errors: Value)
    | TitleNotString
    | Blank

  function CheckField(service: string, index: nat, field: string): string {
    "Error: 'services." + service + "[" + FormatNat(index) + "]." + field + "'"
  }

  /** The text of each line (patrol.js:41-150). */
  function Render(m: Message): string {
    match m
    case Unrecognized(args) => "Unrecognized commands: [" + Join(args, ',') + "]"
    case NotAbsolute => "Config file must be an absolute path"
    case ServicesNotDictionary => "'services' property must be provided at the top-level, as a dictionary"
    case BadName(service, index) => CheckField(service, index, "name") + " must be a valid string"
    case BadCmd(service, index) => CheckField(service, index, "cmd") + " must be a valid string"
    case BadInterval(service, index) => CheckField(service, index, "interval") + " is not a valid time interval"
    case BadImage(service, index) => CheckField(service, index, "image") + " must be a valid docker image"
    case NotArray(name) => "Error: 'services." + name + "' should be an array of checks"
    case NotificationsNotDictionary => "Error: 'notifications' should be a dictionary"
    case OnSuccess(errors) => ToString(errors)
    case TitleNotString => "web.title should be a string"
    case Blank => ""
  }

  /** `typeof v === 'string' && v`: a non-empty string. */
  predicate ValidString(v: Value) {
    v.Str? && v.s != ""
  }

  /** The name is checked first, and cmd only when the name is valid (patrol.js:78-89). */
  function IdentityErrors(service: string, index: nat, check: Value): (e: seq<Message>)
    requires !Nullish(check)
    ensures e == [] <==> ValidString(Prop(check, "name")) && ValidString(Prop(check, "cmd"))
    ensures !ValidString(Prop(check, "name")) ==> e == [BadName(service, index)]
    ensures ValidString(Prop(check, "name")) && !ValidString(Prop(check, "cmd")) ==> e == [BadCmd(service, index)]
  {
    if !Prop(check, "name").Str? || !Truthy(Prop(check, "name")) then [BadName(service, index)]
    else if !Prop(check, "cmd").Str? || !Truthy(Prop(check, "cmd")) then [BadCmd(service, index)]
    else []
  }

  /** What `ms` gives back: a number of milliseconds, or undefined for a string it does not recognise. */
  function MsValue(r: Option<int>): Value {
    if r.Some? then Num(r.value) else Undefined
  }

  /** The interval written back (patrol.js:92-96): 60000 for undefined, ms(s) for a string; None leaves it. */
  function IntervalWritten(given: Value, ms: string -> Option<int>): (w: Option<Value>)
    ensures w.Some? <==> given.Undefined? || given.Str?
  {
    if given.Undefined? then Some(Num(DefaultInterval))
    else if given.Str? then Some(MsValue(ms(given.s)))
    else None
  }

  /** The outcome of normalising one check, or one list of checks. */
  datatype Pass = Pass(errors: seq<Message>, value: Value, crashed: bool)

  /** A check that passes validation: an object with a name and a cmd, a number interval and an image name. */
  predicate CheckValid(v: Value) {
    && (v.Obj? || v.Arr?)
    && ValidString(Prop(v, "name")) && ValidString(Prop(v, "cmd"))
    && Prop(v, "interval").Num? && ValidString(Prop(v, "image"))
  }

  /** `ms("")` throws: the ms package parses only a non-empty string. */
  predicate MsThrows(given: Value) {
    given == Str("")
  }

  /** The check after the interval rewrite (patrol.js:92-96); None when ms or the write throws. */
  function WithInterval(check: Value, ms: string -> Option<int>): (r: Option<Value>)
    requires !Nullish(check)
    ensures r.Some? <==> !MsThrows(Prop(check, "interval"))
                         && (check.Obj? || check.Arr? || IntervalWritten(Prop(check, "interval"), ms).None?)
    ensures r.Some? ==> !Nullish(r.value) && (r.value.Obj? || r.value.Arr? <==> check.Obj? || check.Arr?)
    ensures r.Some? ==> var w := IntervalWritten(Prop(check, "interval"), ms);
                        Prop(r.value, "interval") == (if w.Some? then w.value else Prop(check, "interval"))
    ensures r.Some? ==> forall k | k != "interval" :: Prop(r.value, k) == Prop(check, k)
  {
    var w := IntervalWritten(Prop(check, "interval"), ms);
    if MsThrows(Prop(check, "interval")) then None
    else if w.Some? then SetProp(check, "interval", w.value) else Some(check)
  }

  /** The check after the image default (patrol.js:104-106); None when writing it throws. */
  function WithImage(check: Value): (r: Option<Value>)
    requires !Nullish(check)
    ensures r.Some? <==> check.Obj? || check.Arr? || Truthy(Prop(check, "image"))
    ensures r.Some? ==> !Nullish(r.value) && (r.value.Obj? || r.value.Arr? <==> check.Obj? || check.Arr?)
    ensures r.Some? ==> Prop(r.value, "image") == (if Truthy(Prop(check, "image")) then Prop(check, "image") else Str(DefaultImage))
    ensures r.Some? ==> forall k | k != "image" :: Prop(r.value, k) == Prop(check, k)
  {
    if Truthy(Prop(check, "image")) then Some(check) else SetProp(check, "image", Str(DefaultImage))
  }

  /** The errors reported for a check once its interval is rewritten (patrol.js:78-111). */
  function CheckErrors(service: string, index: nat, check: Value, interval: Value): seq<Message>
    requires !Nullish(check)
  {
    var image := Prop(check, "image");
    IdentityErrors(service, index, check)
    + (if !interval.Num? then [BadInterval(service, index)] else [])
    + (if Truthy(image) && !image.Str? then [BadImage(service, index)] else [])
  }

  lemma NoCheckErrors(service: string, index: nat, check: Value, interval: Value)
    requires !Nullish(check)
    ensures CheckErrors(service, index, check, interval) == [] <==>
              && ValidString(Prop(check, "name")) && ValidString(Prop(check, "cmd")) && interval.Num?
              && (Truthy(Prop(check, "image")) ==> Prop(check, "image").Str?)
  {
  }

  /** The check properties main reads and writes are distinct names. */
  lemma KeysDistinct()
    ensures "name" != "image" && "name" != "interval" && "cmd" != "image" && "cmd" != "interval"
    ensures "interval" != "image"
  {
  }

  /**
   * One iteration of the check loop (patrol.js:76-113). Reading a property
   * of a null or undefined check throws, and in strict mode so does
   * writing one on a primitive; an object is normalised in place.
   */
  function NormaliseCheck(service: string, index: nat, check: Value, ms: string -> Option<int>): (p: Pass)
    ensures p.crashed <==> !(check.Obj? || check.Arr?) || MsThrows(Prop(check, "interval"))
    ensures Nullish(check) ==> p.errors == []
    ensures !Nullish(check) && MsThrows(Prop(check, "interval")) ==> p.errors == IdentityErrors(service, index, check)
    ensures !p.crashed ==>
              var interval := IntervalWritten(Prop(check, "interval"), ms);
              var image := Prop(check, "image");
              && (p.value.Obj? || p.value.Arr?)
              && Prop(p.value, "interval") == (if interval.Some? then interval.value else Prop(check, "interval"))
              && Prop(p.value, "image") == (if Truthy(image) then image else Str(DefaultImage))
              && (forall k | k != "interval" && k != "image" :: Prop(p.value, k) == Prop(check, k))
              && p.errors == CheckErrors(service, index, check, Prop(p.value, "interval"))
    ensures !p.crashed && p.errors == [] ==> CheckValid(p.value)
  {
    if Nullish(check) then Pass([], check, true)
    else
      match WithInterval(check, ms)
      case None => Pass(IdentityErrors(service, index, check), check, true)
      case Some(v1) =>
        assert Prop(v1, "image") == Prop(check, "image") by { assert "image" != "interval"; }
        var errors := CheckErrors(service, index, check, Prop(v1, "interval"));
        match WithImage(v1)
        case None => Pass(errors, v1, true)
        case Some(v2) =>
          assert Prop(v2, "interval") == Prop(v1, "interval") by { assert "interval" != "image"; }
          KeysDistinct();
          assert Prop(v1, "name") == Prop(check, "name");
          assert Prop(v2, "name") == Prop(v1, "name");
          assert Prop(v1, "cmd") == Prop(check, "cmd");
          assert Prop(v2, "cmd") == Prop(v1, "cmd");
          NoCheckErrors(service, index, check, Prop(v1, "interval"));
          Pass(errors, v2, !(check.Obj? || check.Arr?))
  }

  /** The checks of one service after its loop: errors in order, the normalised checks, and whether it threw. */
  datatype ChecksResult = ChecksResult(errors: seq<Message>, items: seq<Value>, crashed: bool)

  function ChecksPass(service: string, items: seq<Value>, ms: string -> Option<int>): (r: ChecksResult)
    ensures !r.crashed ==> |r.items| == |items|
  {
    if |items| == 0 then ChecksResult([], [], false)
    else
      var prev := ChecksPass(service, items[..|items| - 1], ms);
      if prev.crashed then prev
      else
        var p := NormaliseCheck(service, |items| - 1, items[|items| - 1], ms);
        ChecksResult(prev.errors + p.errors, if p.crashed then prev.items else prev.items + [p.value], p.crashed)
  }

  /** The services after the outer loop (patrol.js:71-120). */
  datatype ServicesResult = ServicesResult(errors: seq<Message>, entries: Props, crashed: bool)

  function ServicesPass(entries: Props, ms: string -> Option<int>): (r: ServicesResult)
    ensures !r.crashed ==> |r.entries| == |entries|
  {
    if |entries| == 0 then ServicesResult([], [], false)
    else
      var prev := ServicesPass(entries[..|entries| - 1], ms);
      if prev.crashed then prev
      else
        var (name, v) := entries[|entries| - 1];
        if v.Arr? then
          var c := ChecksPass(name, v.items, ms);
          ServicesResult(prev.errors + c.errors, if c.crashed then prev.entries else prev.entries + [(name, Arr(c.items, v.props))], c.crashed)
        else ServicesResult(prev.errors + [NotArray(name)], prev.entries + [(name, v)], false)
  }

  /** Once a check throws, the loop is over: longer prefixes end the same way. */
  lemma {:induction false} ChecksCrashSticks(service: string, items: seq<Value>, ms: string -> Option<int>, k: nat)
    requires k <= |items| && ChecksPass(service, items[..k], ms).crashed
    ensures ChecksPass(service, items, ms) == ChecksPass(service, items[..k], ms)
    decreases |items| - k
  {
    if k < |items| {
      var next := items[..k + 1];
      assert next[..|next| - 1] == items[..k];
      ChecksCrashStep(service, next, ms);
      ChecksCrashSticks(service, items, ms, k + 1);
    } else {
      assert items[..k] == items;
    }
  }

  lemma ChecksCrashStep(service: string, items: seq<Value>, ms: string -> Option<int>)
    requires |items| > 0 && ChecksPass(service, items[..|items| - 1], ms).crashed
    ensures ChecksPass(service, items, ms) == ChecksPass(service, items[..|items| - 1], ms)
  {
  }

  lemma {:induction false} ServicesCrashSticks(entries: Props, ms: string -> Option<int>, k: nat)
    requires k <= |entries| && ServicesPass(entries[..k], ms).crashed
    ensures ServicesPass(entries, ms) == ServicesPass(entries[..k], ms)
    decreases |entries| - k
  {
    if k < |entries| {
      assert entries[..k + 1][..k] == entries[..k];
      ServicesCrashSticks(entries, ms, k + 1);
    } else {
      assert entries[..k] == entries;
    }
  }

  /** Every service is an array of valid checks. */
  predicate ServicesValid(entries: Props) {
    forall i | 0 <= i < |entries| :: entries[i].1.Arr? && forall j | 0 <= j < |entries[i].1.items| :: CheckValid(entries[i].1.items[j])
  }

  lemma {:induction false} ChecksPassValid(service: string, items: seq<Value>, ms: string -> Option<int>)
    ensures var r := ChecksPass(service, items, ms);
            !r.crashed && r.errors == [] ==> forall j | 0 <= j < |r.items| :: CheckValid(r.items[j])
  {
    if |items| > 0 {
      ChecksPassValid(service, items[..|items| - 1], ms);
    }
  }

  /** With no error and no throw, the services are arrays of checks that pass validation. */
  lemma {:induction false} ServicesPassValid(entries: Props, ms: string -> Option<int>)
    ensures var r := ServicesPass(entries, ms);
            !r.crashed && r.errors == [] ==> ServicesValid(r.entries)
  {
    if |entries| > 0 {
      var init := entries[..|entries| - 1];
      ServicesPassValid(init, ms);
      var v := entries[|entries| - 1].1;
      if v.Arr? {
        ChecksPassValid(entries[|entries| - 1].0, v.items, ms);
      }
    }
  }

  /** A service that is not an array is reported, under its own name. */
  lemma {:induction false} NonArrayServiceReported(entries: Props, ms: string -> Option<int>, i: nat)
    requires i < |entries| && !entries[i].1.Arr?
    requires !ServicesPass(entries, ms).crashed
    ensures NotArray(entries[i].0) in ServicesPass(entries, ms).errors
    decreases |entries|
  {
    var init := entries[..|entries| - 1];
    assert !ServicesPass(init, ms).crashed;
    if i < |entries| - 1 {
      assert init[i] == entries[i];
      NonArrayServiceReported(init, ms, i);
    }
  }

  /** The config file must be given by an absolute path (patrol.js:45). */
  predicate Absolute(path: string) {
    |path| > 0 && path[0] == '/'
  }

  /** Index of the last '/' in s. */
  function LastSlash(s: string): (k: nat)
    requires '/' in s
    ensures k < |s| && s[k] == '/' && forall i | k < i < |s| :: s[i] != '/'
  {
    if s[|s| - 1] == '/' then |s| - 1
    else
      assert '/' in s[..|s| - 1] by {
        var j :| 0 <= j < |s| && s[j] == '/';
        assert s[..|s| - 1][j] == '/';
      }
      LastSlash(s[..|s| - 1])
  }

  /**
   * `path.resolve(path.dirname(p), 'db')` for an absolute, normalised path:
   * the directory of the config file, followed by "/db".
   */
  function DbDefault(path: string): (d: string)
    requires Absolute(path)
    ensures Absolute(d) && |d| >= 3 && d[|d| - 3..] == "/db"
  {
    assert path[0] == '/';
    var k := LastSlash(path);
    if k == 0 then "/db" else path[..k] + "/db"
  }

  /**
   * The configuration once read and given a dbDirectory (patrol.js:52-59);
   * None when reading, decoding or the property access threw.
   */
  function Prepare(path: string, loaded: Option<Value>): (c: Option<Value>)
    requires Absolute(path)
    ensures c.Some? ==> (c.value.Obj? || c.value.Arr?) && Truthy(Prop(c.value, "dbDirectory"))
  {
    if loaded.None? || Nullish(loaded.value) then None
    else if Truthy(Prop(loaded.value, "dbDirectory")) then
      if loaded.value.Obj? || loaded.value.Arr? then loaded else None
    else SetProp(loaded.value, "dbDirectory", Str(DbDefault(path)))
  }

  /** Which main: the code as written, or as evidently intended with what normalizeNotifications would return. */
  datatype Version = AsWritten | Corrected(onSuccessErrors: Value)

  /**
   * The services test (patrol.js:62), corrected: a dictionary is a
   * non-null object that is not an array.
   */
  predicate ServicesAccepted(v: Value) {
    v.Obj?
  }

  /** The test as written: `typeof v !== 'object' || Array.isArray(v)` refuses. */
  predicate ServicesAcceptedAsWritten(v: Value) {
    IsObjectType(v) && !v.Arr?
  }

  predicate ServicesTest(version: Version, v: Value) {
    if version.AsWritten? then ServicesAcceptedAsWritten(v) else ServicesAccepted(v)
  }

  /**
   * The written test lets exactly one more value through than a dictionary
   * test: null, for which the for-in loop visits nothing and startup goes
   * on without services or errors.
   */
  lemma NullServicesAccepted(v: Value)
    ensures ServicesAcceptedAsWritten(v) <==> ServicesAccepted(v) || v == Null
    ensures ServicesAcceptedAsWritten(Null) && !ServicesAccepted(Null)
  {
  }

  /** A notifications dictionary with a truthy on_success list (patrol.js:123-128). */
  predicate OnSuccessGiven(notifications: Value) {
    Truthy(notifications) && IsObjectType(notifications) && Truthy(Prop(notifications, "on_success"))
  }

  /**
   * The notification checks (patrol.js:123-136): the lines printed, or None
   * when they throw. Only on_success is looked at. As written, a truthy
   * on_success calls normalizeNotifications, which notifiers.js does not
   * export, so the call throws; corrected, its errors are printed when
   * truthy.
   */
  function NotificationStage(notifications: Value, version: Version): (r: Option<seq<Message>>)
    ensures !Truthy(notifications) ==> r == Some([])
    ensures Truthy(notifications) && !IsObjectType(notifications) ==> r == Some([NotificationsNotDictionary])
    ensures Truthy(notifications) && IsObjectType(notifications) && !OnSuccessGiven(notifications) ==> r == Some([])
    ensures OnSuccessGiven(notifications) && version.AsWritten? ==> r == None
    ensures OnSuccessGiven(notifications) && version.Corrected? ==>
              r == Some(if Truthy(version.onSuccessErrors) then [OnSuccess(version.onSuccessErrors)] else [])
  {
    if !Truthy(notifications) then Some([])
    else if !IsObjectType(notifications) then Some([NotificationsNotDictionary])
    else if !Truthy(Prop(notifications, "on_success")) then Some([])
    else match version
      case AsWritten => None
      case Corrected(e) => Some(if Truthy(e) then [OnSuccess(e)] else [])
  }

  /**
   * The web section (patrol.js:139-145): a falsy one becomes
   * defaultWebConfig, a falsy title the default title; writing the title
   * on a primitive section throws.
   */
  function WithWeb(config: Value): (r: Option<Value>)
    requires config.Obj? || config.Arr?
    ensures r.Some? ==> (r.value.Obj? || r.value.Arr?) && Truthy(Prop(r.value, "web"))
    ensures r.Some? ==> forall k | k != "web" :: Prop(r.value, k) == Prop(config, k)
    ensures r.Some? && !Truthy(Prop(config, "web")) ==> Prop(r.value, "web") == DefaultWeb
    ensures r.Some? ==> Truthy(Prop(Prop(r.value, "web"), "title"))
    ensures r.Some? && Truthy(Prop(config, "web")) && Truthy(Prop(Prop(config, "web"), "title")) ==> r == Some(config)
  {
    DefaultWebTitle();
    var c1 := if Truthy(Prop(config, "web")) then config else SetProp(config, "web", DefaultWeb).value;
    var web := Prop(c1, "web");
    if Truthy(Prop(web, "title")) then Some(c1)
    else
      match SetProp(web, "title", Str(DefaultTitle))
      case None => None
      case Some(w) => SetProp(c1, "web", w)
  }

  lemma DefaultWebTitle()
    ensures Prop(DefaultWeb, "title") == Str(DefaultTitle)
  {
    var props := DefaultWeb.props;
    assert props[0].0 != "title" && props[1].0 != "title" && props[2] == ("title", Str(DefaultTitle));
    assert Lookup(props[2..], "title") == Str(DefaultTitle);
    assert props[1..][1..] == props[2..];
    assert Lookup(props[1..], "title") == Str(DefaultTitle);
  }

  /**
   * The notification and web stages (patrol.js:123-151): the lines they
   * print, and the configuration afterwards, None when the notification
   * call or the title write threw.
   */
  function Remaining(config: Value, version: Version): (r: (Option<Value>, seq<Message>))
    requires config.Obj? || config.Arr?
  {
    match NotificationStage(Prop(config, "notifications"), version)
    case None => (None, [])
    case Some(ne) =>
      match WithWeb(config)
      case None => (None, ne)
      case Some(c2) =>
        var te := if !Prop(Prop(c2, "web"), "title").Str? then [TitleNotString] else [];
        (Some(c2), ne + te)
  }

  /** `config.port || 8080` (patrol.js:165). */
  function ListenPort(config: Value): Value
    requires !Nullish(config)
  {
    if Truthy(Prop(config, "port")) then Prop(config, "port") else Num(DefaultPort)
  }

  datatype Outcome =
    | BadPath
    | Crashed
    | BadServices
    | Rejected
    | Started(config: Value, port: Value)

  /** The object has an own property named key. */
  function HasKey(props: Props, key: string): (b: bool)
    ensures b <==> exists i | 0 <= i < |props| :: props[i].0 == key
  {
    if |props| == 0 then false
    else if props[0].0 == key then true
    else
      assert forall i | 1 <= i < |props| :: props[i] == props[1..][i - 1];
      HasKey(props[1..], key)
  }

  /**
   * `config.services.hasOwnProperty(name)` (patrol.js:72) throws when a
   * service named "hasOwnProperty" shadows the inherited method with
   * something that is not a function; the for-in visits at least that key,
   * so the first call throws.
   */
  predicate HasOwnCallThrows(services: Value) {
    services.Obj? && HasKey(services.props, "hasOwnProperty") && !Lookup(services.props, "hasOwnProperty").Fn?
  }

  /**
   * The checks of a prepared configuration (patrol.js:61-155): how startup
   * ends and the lines printed on the way. Null services pass the written
   * test, the loop visits nothing and nothing is written back.
   */
  function Validate(config: Value, ms: string -> Option<int>, version: Version): (Outcome, seq<Message>)
    requires config.Obj? || config.Arr?
  {
    var services := Prop(config, "services");
    if !ServicesTest(version, services) then (BadServices, [ServicesNotDictionary])
    else if HasOwnCallThrows(services) then (Crashed, [])
    else
      var sp := ServicesPass(if services.Obj? then services.props else [], ms);
      if sp.crashed then (Crashed, sp.errors)
      else
        var c1 := if services.Obj? then SetProp(config, "services", Obj(sp.entries)).value else config;
        var (outcome, lines) := Conclude(c1, sp.errors, version);
        (outcome, sp.errors + lines)
  }

  /**
   * The end of the checks, after the services (patrol.js:123-155), given
   * the service errors already printed.
   */
  function Conclude(config: Value, earlier: seq<Message>, version: Version): (Outcome, seq<Message>)
    requires config.Obj? || config.Arr?
  {
    match Remaining(config, version)
    case (None, later) => (Crashed, later)
    case (Some(c), later) =>
      if |earlier| > 0 || |later| > 0 then (Rejected, later + [Blank])
      else (Started(c, ListenPort(c)), [])
  }

  /** What startup prints to stderr and how it ends. */
  function Startup(configPath: string, extraArgs: seq<string>, loaded: Option<Value>, ms: string -> Option<int>,
                   version: Version): (Outcome, seq<Message>)
  {
    var pre := if |extraArgs| != 0 then [Unrecognized(extraArgs)] else [];
    if !Absolute(configPath) then (BadPath, pre + [NotAbsolute])
    else match Prepare(configPath, loaded)
      case None => (Crashed, pre)
      case Some(config) =>
        var (outcome, lines) := Validate(config, ms, version);
        (outcome, pre + lines)
  }

  /** Services startup goes on with: a dictionary of arrays of valid checks, or null as written. */
  predicate ServicesReady(services: Value) {
    services == Null || (services.Obj? && ServicesValid(services.props))
  }

  /** A configuration startup goes on with. */
  predicate ConfigValid(c: Value) {
    && (c.Obj? || c.Arr?)
    && Truthy(Prop(c, "dbDirectory"))
    && ServicesReady(Prop(c, "services"))
    && Truthy(Prop(c, "web"))
    && Prop(Prop(c, "web"), "title").Str? && Truthy(Prop(Prop(c, "web"), "title"))
  }

  /** The checks end in startup only after no error at all, with the web section completed. */
  lemma ConcludeStarted(config: Value, earlier: seq<Message>, version: Version)
    requires config.Obj? || config.Arr?
    ensures var (outcome, lines) := Conclude(config, earlier, version);
            outcome.Started? ==>
              && earlier == [] && lines == [] && outcome.port == ListenPort(outcome.config)
              && (outcome.config.Obj? || outcome.config.Arr?)
              && (forall k | k != "web" :: Prop(outcome.config, k) == Prop(config, k))
              && Truthy(Prop(outcome.config, "web"))
              && Prop(Prop(outcome.config, "web"), "title").Str? && Truthy(Prop(Prop(outcome.config, "web"), "title"))
  {
  }

  /** What the last checks keep of a configuration whose services passed. */
  lemma ConcludeValid(config: Value, earlier: seq<Message>, version: Version)
    requires config.Obj? || config.Arr?
    requires Truthy(Prop(config, "dbDirectory"))
    requires ServicesReady(Prop(config, "services"))
    ensures var (outcome, lines) := Conclude(config, earlier, version);
            outcome.Started? ==>
              && ConfigValid(outcome.config) && outcome.port == ListenPort(outcome.config) && earlier == [] && lines == []
              && Prop(outcome.config, "services") == Prop(config, "services")
  {
    ConcludeStarted(config, earlier, version);
    var outcome := Conclude(config, earlier, version).0;
    if outcome.Started? {
      assert "services" != "web" && "dbDirectory" != "web";
      assert Prop(outcome.config, "services") == Prop(config, "services");
      assert Prop(outcome.config, "dbDirectory") == Prop(config, "dbDirectory");
    }
  }

  /** Writing the checked services back keeps the database directory. */
  lemma ServicesWritten(config: Value, services: Value)
    requires config.Obj? || config.Arr?
    ensures Prop(SetProp(config, "services", services).value, "dbDirectory") == Prop(config, "dbDirectory")
  {
    assert "dbDirectory" != "services";
  }

  /**
   * The configuration checks go on only with a valid configuration,
   * printing nothing; corrected, only with a dictionary of services.
   */
  lemma ValidateStartedIsValid(config: Value, ms: string -> Option<int>, version: Version)
    requires (config.Obj? || config.Arr?) && Truthy(Prop(config, "dbDirectory"))
    ensures var (outcome, lines) := Validate(config, ms, version);
            outcome.Started? ==>
              && ConfigValid(outcome.config) && outcome.port == ListenPort(outcome.config) && lines == []
              && (version.Corrected? ==> Prop(outcome.config, "services").Obj?)
  {
    var services := Prop(config, "services");
    if ServicesTest(version, services) && !HasOwnCallThrows(services) {
      var entries := if services.Obj? then services.props else [];
      var sp := ServicesPass(entries, ms);
      if !sp.crashed {
        ServicesPassValid(entries, ms);
        var c1 := if services.Obj? then SetProp(config, "services", Obj(sp.entries)).value else config;
        if services.Obj? {
          ServicesWritten(config, Obj(sp.entries));
        }
        assert Validate(config, ms, version)
               == (Conclude(c1, sp.errors, version).0, sp.errors + Conclude(c1, sp.errors, version).1);
        if sp.errors == [] {
          ConcludeValid(c1, sp.errors, version);
        } else {
          ConcludeStarted(c1, sp.errors, version);
        }
      }
    }
  }

  /**
   * Startup goes on only with a valid configuration and no error printed,
   * and then listens on config.port or 8080; corrected, only with a
   * dictionary of services.
   */
  lemma StartedIsValid(configPath: string, extraArgs: seq<string>, loaded: Option<Value>, ms: string -> Option<int>,
                       version: Version)
    ensures var (outcome, stderr) := Startup(configPath, extraArgs, loaded, ms, version);
            outcome.Started? ==>
              && ConfigValid(outcome.config) && !Nullish(outcome.config)
              && outcome.port == ListenPort(outcome.config)
              && stderr == (if |extraArgs| != 0 then [Unrecognized(extraArgs)] else [])
              && (version.Corrected? ==> Prop(outcome.config, "services").Obj?)
  {
    if Absolute(configPath) && Prepare(configPath, loaded).Some? {
      ValidateStartedIsValid(Prepare(configPath, loaded).value, ms, version);
    }
  }

  /** Every error found stops startup after a blank line, before the database and server start. */
  lemma ErrorsStopStartup(configPath: string, extraArgs: seq<string>, loaded: Option<Value>, ms: string -> Option<int>,
                          version: Version)
    ensures var (outcome, stderr) := Startup(configPath, extraArgs, loaded, ms, version);
            && (outcome.Rejected? ==> |stderr| >= 2 && stderr[|stderr| - 1] == Blank)
            && (outcome.BadPath? <==> !Absolute(configPath))
            && (outcome.BadPath? ==> stderr[|stderr| - 1] == NotAbsolute)
            && (outcome.BadServices? ==> stderr[|stderr| - 1] == ServicesNotDictionary)
  {
    if Absolute(configPath) && Prepare(configPath, loaded).Some? {
      ValidateEnds(Prepare(configPath, loaded).value, ms, version);
    }
  }

  /** How the checks end: a rejection after at least one error and a blank line, or the services message alone. */
  lemma ValidateEnds(config: Value, ms: string -> Option<int>, version: Version)
    requires config.Obj? || config.Arr?
    ensures var (outcome, lines) := Validate(config, ms, version);
            && !outcome.BadPath?
            && (outcome.Rejected? ==> |lines| >= 2 && lines[|lines| - 1] == Blank)
            && (outcome.BadServices? <==> !ServicesTest(version, Prop(config, "services")))
            && (outcome.BadServices? ==> lines == [ServicesNotDictionary])
  {
    var services := Prop(config, "services");
    if ServicesTest(version, services) && !HasOwnCallThrows(services) {
      var sp := ServicesPass(if services.Obj? then services.props else [], ms);
      if !sp.crashed {
        var c1 := if services.Obj? then SetProp(config, "services", Obj(sp.entries)).value else config;
        var (outcome, later) := Conclude(c1, sp.errors, version);
        assert outcome.Rejected? ==> later == Remaining(c1, version).1 + [Blank];
      }
    }
  }

  /** A configuration whose services fail the version's test stops startup with its message. */
  lemma NotDictionaryStops(configPath: string, extraArgs: seq<string>, loaded: Option<Value>, ms: string -> Option<int>,
                           version: Version)
    requires Absolute(configPath) && Prepare(configPath, loaded).Some?
    requires !ServicesTest(version, Prop(Prepare(configPath, loaded).value, "services"))
    ensures Startup(configPath, extraArgs, loaded, ms, version).0 == BadServices
    ensures Startup(configPath, extraArgs, loaded, ms, version).1[|Startup(configPath, extraArgs, loaded, ms, version).1| - 1]
            == ServicesNotDictionary
  {
  }

  /**
   * A service named "hasOwnProperty" (an array of checks in YAML) makes
   * startup throw before anything about the services is printed.
   */
  lemma ShadowedHasOwnCrashes(config: Value, ms: string -> Option<int>, version: Version, checks: seq<Value>)
    requires config.Obj? || config.Arr?
    requires var services := Prop(config, "services");
             services.Obj? && Lookup(services.props, "hasOwnProperty") == Arr(checks, [])
    ensures Validate(config, ms, version) == (Crashed, [])
  {
    var props := Prop(config, "services").props;
    assert HasKey(props, "hasOwnProperty") by {
      LookupFound(props, "hasOwnProperty");
    }
  }

  /** A key whose lookup is not undefined is an own key. */
  lemma {:induction false} LookupFound(props: Props, key: string)
    requires Lookup(props, key) != Undefined
    ensures HasKey(props, key)
  {
    if props[0].0 != key {
      LookupFound(props[1..], key);
    }
  }

  /** A configuration with `services: null` and nothing else to check. */
  const NullServices: Value := Obj([("dbDirectory", Str("/db")), ("services", Null)])

  lemma NullServicesProps()
    ensures Prop(NullServices, "services") == Null && Prop(NullServices, "dbDirectory") == Str("/db")
    ensures Prop(NullServices, "notifications") == Undefined && Prop(NullServices, "web") == Undefined
  {
    var props := NullServices.props;
    assert props[1..][1..] == [];
    assert props[0].0 != "services" && props[1].0 == "services";
    assert props[0].0 != "notifications" && props[1].0 != "notifications";
    assert props[0].0 != "web" && props[1].0 != "web";
  }

  /**
   * As written, `services: null` starts the API with no services and
   * nothing printed; corrected, it is refused with the services message.
   */
  lemma NullServicesStart(ms: string -> Option<int>, e: Value)
    ensures Startup("/etc/patrol.yml", [], Some(NullServices), ms, AsWritten).0.Started?
    ensures Startup("/etc/patrol.yml", [], Some(NullServices), ms, AsWritten).1 == []
    ensures Startup("/etc/patrol.yml", [], Some(NullServices), ms, Corrected(e)) == (BadServices, [ServicesNotDictionary])
  {
    NullServicesProps();
    DefaultWebTitle();
    assert Prepare("/etc/patrol.yml", Some(NullServices)) == Some(NullServices);
    var c2 := SetProp(NullServices, "web", DefaultWeb).value;
    assert Prop(c2, "web") == DefaultWeb;
    assert WithWeb(NullServices) == Some(c2);
    assert Absolute("/etc/patrol.yml");
    assert !ServicesTest(Corrected(e), Null);
    assert Validate(NullServices, ms, Corrected(e)) == (BadServices, [ServicesNotDictionary]);
    assert [] + [ServicesNotDictionary] == [ServicesNotDictionary];
  }

  /**
   * As written, a truthy on_success list makes startup throw at the call of
   * the missing normalizeNotifications, before the web checks and before
   * anything of its own is printed.
   */
  lemma OnSuccessCrashes(config: Value, earlier: seq<Message>)
    requires config.Obj? || config.Arr?
    requires OnSuccessGiven(Prop(config, "notifications"))
    ensures Conclude(config, earlier, AsWritten) == (Crashed, [])
  {
  }

  /**
   * Corrected, the validator's errors for a truthy on_success list are the
   * first line printed after the services, and startup does not go on.
   */
  lemma OnSuccessReported(config: Value, earlier: seq<Message>, errors: Value)
    requires config.Obj? || config.Arr?
    requires OnSuccessGiven(Prop(config, "notifications"))
    requires Truthy(errors)
    ensures var (outcome, lines) := Conclude(config, earlier, Corrected(errors));
            !outcome.Started? && |lines| > 0 && lines[0] == OnSuccess(errors)
  {
  }

  /** The check loop of one service (patrol.js:75-114). */
  method CheckService(service: string, items: seq<Value>, ms: string -> Option<int>) returns (r: ChecksResult)
    ensures r == ChecksPass(service, items, ms)
  {
    var errors: seq<Message> := [];
    var written: seq<Value> := [];
    var index := 0;
    while index < |items|
      invariant 0 <= index <= |items|
      invariant ChecksPass(service, items[..index], ms) == ChecksResult(errors, written, false)
    {
      assert items[..index + 1][..index] == items[..index];
      var p := NormaliseCheck(service, index, items[index], ms);
      errors := errors + p.errors;
      if p.crashed {
        ChecksCrashSticks(service, items, ms, index + 1);
        return ChecksResult(errors, written, true);
      }
      written := written + [p.value];
      index := index + 1;
    }
    assert items[..index] == items;
    return ChecksResult(errors, written, false);
  }

  /** The service loop (patrol.js:71-120): each array of checks is normalised, anything else reported. */
  method CheckServices(entries: Props, ms: string -> Option<int>) returns (r: ServicesResult)
    ensures r == ServicesPass(entries, ms)
  {
    var errors: seq<Message> := [];
    var written: Props := [];
    var i := 0;
    while i < |entries|
      invariant 0 <= i <= |entries|
      invariant ServicesPass(entries[..i], ms) == ServicesResult(errors, written, false)
    {
      assert entries[..i + 1][..i] == entries[..i];
      var name := entries[i].0;
      var service := entries[i].1;
      if service.Arr? {
        var c := CheckService(name, service.items, ms);
        errors := errors + c.errors;
        if c.crashed {
          ServicesCrashSticks(entries, ms, i + 1);
          return ServicesResult(errors, written, true);
        }
        written := written + [(name, Arr(c.items, service.props))];
      } else {
        errors := errors + [NotArray(name)];
        written := written + [(name, service)];
      }
      i := i + 1;
    }
    assert entries[..i] == entries;
    return ServicesResult(errors, written, false);
  }

  /** The notification and web checks of main as written (patrol.js:123-151). */
  method FinishConfig(config: Value) returns (finished: Option<Value>, printed: seq<Message>)
    requires config.Obj? || config.Arr?
    ensures finished == Remaining(config, AsWritten).0 && printed == Remaining(config, AsWritten).1
  {
    printed := [];
    var notifications := Prop(config, "notifications");
    if Truthy(notifications) {
      if !IsObjectType(notifications) {
        printed := [NotificationsNotDictionary];
      } else if Truthy(Prop(notifications, "on_success")) {
        return None, printed;                 // normalizeNotifications is not a function
      }
    }
    assert NotificationStage(notifications, AsWritten) == Some(printed);
    var c := config;
    if !Truthy(Prop(c, "web")) {
      c := SetProp(c, "web", DefaultWeb).value;
    }
    var web := Prop(c, "web");
    if !Truthy(Prop(web, "title")) {
      var w := SetProp(web, "title", Str(DefaultTitle));
      if w.None? {
        return None, printed;
      }
      c := SetProp(c, "web", w.value).value;
      web := w.value;
    }
    assert WithWeb(config) == Some(c);
    if !Prop(web, "title").Str? {
      printed := printed + [TitleNotString];
    }
    return Some(c), printed;
  }

  /**
   * main up to the start of the database as written (patrol.js:40-155):
   * what it prints to stderr and how it ends, given the decoded
   * configuration.
   */
  method Launch(configPath: string, extraArgs: seq<string>, loaded: Option<Value>, ms: string -> Option<int>)
    returns (outcome: Outcome, stderr: seq<Message>)
    ensures outcome == Startup(configPath, extraArgs, loaded, ms, AsWritten).0
    ensures stderr == Startup(configPath, extraArgs, loaded, ms, AsWritten).1
  {
    stderr := if |extraArgs| != 0 then [Unrecognized(extraArgs)] else [];
    if |configPath| == 0 || configPath[0] != '/' {
      stderr := stderr + [NotAbsolute];
      return BadPath, stderr;
    }
    if loaded.None? || Nullish(loaded.value) {
      return Crashed, stderr;
    }
    var config := loaded.value;
    if !Truthy(Prop(config, "dbDirectory")) {
      var w := SetProp(config, "dbDirectory", Str(DbDefault(configPath)));
      if w.None? {
        return Crashed, stderr;
      }
      config := w.value;
    }
    assert Prepare(configPath, loaded) == Some(config);
    var lines;
    outcome, lines := ValidateConfig(config, ms);
    stderr := stderr + lines;
  }

  /** The checks of main after the configuration is read, as written (patrol.js:61-155). */
  method ValidateConfig(config: Value, ms: string -> Option<int>) returns (outcome: Outcome, lines: seq<Message>)
    requires config.Obj? || config.Arr?
    ensures outcome == Validate(config, ms, AsWritten).0 && lines == Validate(config, ms, AsWritten).1
  {
    var services := Prop(config, "services");
    if !IsObjectType(services) || services.Arr? {
      return BadServices, [ServicesNotDictionary];
    }
    if services.Obj? && HasKey(services.props, "hasOwnProperty") && !Lookup(services.props, "hasOwnProperty").Fn? {
      return Crashed, [];                     // services.hasOwnProperty is not a function
    }
    var sp := CheckServices(if services.Obj? then services.props else [], ms);
    if sp.crashed {
      return Crashed, sp.errors;
    }
    var c := config;
    if services.Obj? {
      c := SetProp(config, "services", Obj(sp.entries)).value;
    }
    var rest;
    outcome, rest := ConcludeChecks(c, |sp.errors| > 0, sp.errors);
    lines := sp.errors + rest;
  }

  /** The rest of main's checks as written; hasErrors says whether a service error was printed. */
  method ConcludeChecks(config: Value, hasErrors: bool, ghost earlier: seq<Message>)
    returns (outcome: Outcome, lines: seq<Message>)
    requires config.Obj? || config.Arr?
    requires hasErrors <==> |earlier| > 0
    ensures outcome == Conclude(config, earlier, AsWritten).0 && lines == Conclude(config, earlier, AsWritten).1
  {
    var finished, later := FinishConfig(config);
    lines := later;
    if finished.None? {
      return Crashed, lines;
    }
    var c := finished.value;
    if hasErrors || |later| > 0 {
      lines := lines + [Blank];
      return Rejected, lines;
    }
    return Started(c, ListenPort(c)), lines;
  }
}
