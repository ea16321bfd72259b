/**
 * The instrumented client `PHPRedis`: a proxy over the native client that
 * connects lazily (with one retry), logs every command outside a fixed
 * exemption set, and turns an error left on the native client into a
 * `RedisCommunicationException`.
 *
 * The pure functions `DispatchSpec`, `ConnectSpec` and `CallSpec` say what
 * one step does to the native client's state; the methods of class
 * `PHPRedis` do the same step by step on the object's fields and are proved
 * to agree with them; the lemmas state what the source promises about
 * those functions.
 */
module Client {
  import opened PhpStrings
  import opened Native
  import Logger
  import opened Wrappers

  /** One connection's configuration. */
  datatype Parameters = Parameters(
    host: string,
    port: int,
    database: int,
    timeout: int,
    prefix: string,
    auth: Option<string>,
    skipEnv: bool)

  /** The defaults the bundle's configuration tree fills in. */
  function DefaultParameters(): Parameters {
    Parameters("127.0.0.1", 6379, 0, 0, "", None, false)
  }

  /** What a call returns, or the message of the `RedisCommunicationException`
      it throws (connection failures and command failures share that class). */
  datatype Outcome = Ok(value: Value) | CommFailure(message: string)

  const CommandFailedMessage := "Redis command failed: "
  const ConnectFailedMessage := "Could not connect to Redis: "
  const ComplexArgument := "[.. complex type ..]"
  const MaxCommandLength: nat := 256

  /** `\Redis::OPT_SERIALIZER`, `\Redis::OPT_PREFIX` and
      `\Redis::SERIALIZER_PHP`, in the string form they are passed in. */
  const OptSerializer := "1"
  const OptPrefix := "2"
  const SerializerPhp := "1"

  /** The commands `_connect` and `setPrefix` send through `makeCall`. */
  const AuthCommand := "auth"
  const SelectCommand := "select"
  const SetOptionCommand := "setOption"

  /** Lower-cased names of the commands that are never logged. */
  const LogExempt: set<string> := {"open", "popen", "close", "setoption", "getoption", "auth", "select"}

  predicate Loggable(name: string) {
    Lower(name) !in LogExempt
  }

  /** The names `makeCall` returns on without doing anything (compared
      case-sensitively). */
  predicate IsConnectCommand(name: string) {
    name == "connect" || name == "pconnect"
  }

  /** The exemption test ignores case. */
  lemma LoggableIgnoresCase(name: string)
    ensures Loggable(Upper(name)) == Loggable(name)
  {
    LowerOfUpper(name);
  }

  /** The commands `_connect` and `setPrefix` issue are all exempt. */
  lemma SetupCommandsExempt()
    ensures !Loggable(AuthCommand) && !Loggable(SelectCommand) && !Loggable(SetOptionCommand)
  {
    assert Lower(AuthCommand) == "auth";
    assert Lower(SelectCommand) == "select";
    assert Lower(SetOptionCommand) == "setoption";
  }

  // ---------------------------------------------------------------------
  // Prefix derivation (constructor)

  /** The namespace derived from the connection name and environment: it
      always starts with the name and ends with a colon. */
  function DerivedPrefix(name: string, environment: string, skipEnv: bool): (r: string)
    ensures |r| > |name| && r[..|name|] == name && r[|r| - 1] == ':'
    ensures skipEnv ==> |r| == |name| + 1
    ensures !skipEnv ==> r[|name|] == '.' && r[|name| + 1..|r| - 1] == environment
  {
    if skipEnv then name + ":" else name + "." + environment + ":"
  }

  /** The stored prefix: the derived one, behind the configured prefix and a
      dot when a non-empty prefix was configured. */
  function StoredPrefix(configured: string, derived: string): (r: string)
    ensures |r| >= |derived| && r[|r| - |derived|..] == derived
    ensures IsEmpty(configured) ==> r == derived
    ensures !IsEmpty(configured) ==>
      (|r| == |configured| + 1 + |derived| && r[..|configured|] == configured && r[|configured|] == '.')
  {
    if IsEmpty(configured) then derived else configured + "." + derived
  }

  /** Connection "cache" in environment "test" with the default parameters. */
  lemma DefaultPrefixExample()
    ensures StoredPrefix(DefaultParameters().prefix, DerivedPrefix("cache", "test", DefaultParameters().skipEnv)) == "cache.test:"
  {
    var derived := DerivedPrefix("cache", "test", false);
    assert derived == "cache" + "." + "test" + ":";
    assert IsEmpty(DefaultParameters().prefix);
  }

  // ---------------------------------------------------------------------
  // Command rendering (getCommandString)

  function ArgText(a: Arg): string {
    match a
    case Scalar(t) => t
    case Complex => ComplexArgument
  }

  function ArgTexts(args: seq<Arg>): (r: seq<string>)
    ensures |r| == |args|
  {
    seq(|args|, i requires 0 <= i < |args| => ArgText(args[i]))
  }

  /** The whole rendering before it is cut to length. */
  function FullCommandText(command: string, prefix: string, args: seq<Arg>): string {
    Trim(Upper(command) + " " + prefix + Join(" ", ArgTexts(args)))
  }

  /** The text logged for a command. */
  function RenderCommand(command: string, prefix: string, args: seq<Arg>): string {
    Cut(FullCommandText(command, prefix, args), MaxCommandLength)
  }

  /** The logged text is never longer than 256 characters, never starts with
      whitespace, and is a leading piece of the full rendering: all of it when
      that fits, its first 256 characters otherwise. */
  lemma RenderCommandBounds(command: string, prefix: string, args: seq<Arg>)
    ensures var r, full := RenderCommand(command, prefix, args), FullCommandText(command, prefix, args);
      && |r| <= MaxCommandLength
      && |r| <= |full| && r == full[..|r|]
      && (|full| <= MaxCommandLength ==> r == full)
      && (|full| > MaxCommandLength ==> |r| == MaxCommandLength)
      && (|r| > 0 ==> !IsTrimmed(r[0]))
  {
  }

  /** `SET` on "user:1", "alice" under prefix "app.test:": the prefix abuts
      the first argument. */
  lemma RenderExample()
    ensures RenderCommand("set", "app.test:", [Scalar("user:1"), Scalar("alice")]) == "SET app.test:user:1 alice"
  {
    var full := "SET app.test:user:1 alice";
    RenderExamplePieces();
    assert "SET" + " " + "app.test:" + "user:1 alice" == full;
    TrimFixesTrimmed(full);
  }

  lemma RenderExamplePieces()
    ensures Upper("set") == "SET"
    ensures Join(" ", ArgTexts([Scalar("user:1"), Scalar("alice")])) == "user:1 alice"
  {
    assert Upper("set")[0] == 'S' && Upper("set")[1] == 'E' && Upper("set")[2] == 'T';
    assert ArgTexts([Scalar("user:1"), Scalar("alice")]) == ["user:1", "alice"];
    assert ["user:1", "alice"][1..] == ["alice"];
  }

  // ---------------------------------------------------------------------
  // The specification of one step

  /** A log line `makeCall` hands to the logger (if one is set). */
  datatype LogLine = LogLine(command: string, isError: bool)

  datatype DispatchStep = DispatchStep(outcome: Outcome, backend: Backend, logged: Option<LogLine>)

  /** `makeCall` once connected and past the connect/pconnect test: execute,
      inspect and clear the last error, decide what to log, throw or pass the
      result through. */
  function DispatchSpec(prefix: string, b: Backend, name: string, args: seq<Arg>): DispatchStep {
    var e := Execute(b, name, args);
    var error := e.backend.lastError;
    var isError := Truthy(error);
    DispatchStep(
      if isError then CommFailure(CommandFailedMessage + error) else Ok(e.value),
      if isError then ClearLastError(e.backend) else e.backend,
      if Loggable(name) then Some(LogLine(RenderCommand(name, prefix, args), isError)) else None)
  }

  datatype ConnectStep = ConnectStep(outcome: Outcome, connected: bool, backend: Backend)

  /** The end of `_connect` when it does not return true: read and clear the
      last error and throw. */
  function ConnectFailure(connected: bool, b: Backend): ConnectStep {
    ConnectStep(CommFailure(ConnectFailedMessage + b.lastError), connected, ClearLastError(b))
  }

  /** `auth` when a credential is set (PHP truthiness); its reply is ignored
      unless it throws. */
  function AuthSpec(p: Parameters, b: Backend): DispatchStep {
    if p.auth.Some? && Truthy(p.auth.value)
    then DispatchSpec(p.prefix, b, AuthCommand, [Scalar(p.auth.value)])
    else DispatchStep(Ok(Null), b, None)
  }

  /** The two `setOption` calls of a successful `_connect`, then `return true`. */
  function OptionsSpec(p: Parameters, b: Backend): ConnectStep {
    var o1 := DispatchSpec(p.prefix, b, SetOptionCommand, [Scalar(OptPrefix), Scalar(p.prefix)]);
    if o1.outcome.CommFailure? then ConnectStep(o1.outcome, true, o1.backend)
    else
      var o2 := DispatchSpec(p.prefix, o1.backend, SetOptionCommand, [Scalar(OptSerializer), Scalar(SerializerPhp)]);
      if o2.outcome.CommFailure? then ConnectStep(o2.outcome, true, o2.backend)
      else ConnectStep(Ok(Bool(true)), true, o2.backend)
  }

  /** The part of `_connect` after a successful connect: authenticate when
      a credential is set, select the database and, when that answers true,
      set the prefix and serializer options and return true. A failure
      thrown by one of these calls ends `_connect` with that failure; a
      false answer to `select` falls through to the connection failure. */
  function SetupSpec(p: Parameters, b: Backend): ConnectStep {
    var a := AuthSpec(p, b);
    if a.outcome.CommFailure? then ConnectStep(a.outcome, true, a.backend)
    else SelectSpec(p, a.backend)
  }

  /** `select` the database; on a true answer set the options, on a false
      one fall through to the connection failure. */
  function SelectSpec(p: Parameters, b: Backend): ConnectStep {
    var s := DispatchSpec(p.prefix, b, SelectCommand, [Scalar(IntToString(p.database))]);
    if s.outcome.CommFailure? then ConnectStep(s.outcome, true, s.backend)
    else if IsTrue(s.outcome.value) then OptionsSpec(p, s.backend)
    else ConnectFailure(true, s.backend)
  }

  /** `_connect($bailOnError)`. */
  function ConnectSpec(p: Parameters, b: Backend, bailOnError: bool): ConnectStep
    decreases if bailOnError then 0 else 1
  {
    var c := AttemptConnect(b, p.host, p.port, p.timeout);
    if c.ok then SetupSpec(p, c.backend)
    else if !bailOnError then
      var retry := ConnectSpec(p, c.backend, true);
      if retry.outcome.CommFailure? then retry
      else ConnectFailure(retry.connected, retry.backend)
    else ConnectFailure(false, c.backend)
  }

  datatype CallStep = CallStep(outcome: Outcome, connected: bool, backend: Backend, logged: Option<LogLine>)

  /** `makeCall` after the connection is known to be up. */
  function ConnectedCall(prefix: string, connected: bool, b: Backend, name: string, args: seq<Arg>): CallStep {
    if IsConnectCommand(name) then CallStep(Ok(Null), connected, b, None)
    else
      var d := DispatchSpec(prefix, b, name, args);
      CallStep(d.outcome, connected, d.backend, d.logged)
  }

  /** `makeCall($name, $arguments)`. */
  function CallSpec(p: Parameters, connected: bool, b: Backend, name: string, args: seq<Arg>): CallStep {
    if !connected then
      var c := ConnectSpec(p, b, false);
      if c.outcome.CommFailure? then CallStep(c.outcome, c.connected, c.backend, None)
      else ConnectedCall(p.prefix, c.connected, c.backend, name, args)
    else ConnectedCall(p.prefix, connected, b, name, args)
  }

  /** What a log line does to the logger's state. */
  function LogEffect(s: Logger.LogState, hasPsr: bool, line: Option<LogLine>, elapsedMs: real, conn: string): Logger.LogState {
    match line
    case None => s
    case Some(l) => Logger.Logged(s, hasPsr, Logger.CommandRecord(l.command, elapsedMs, conn, l.isError))
  }

  // ---------------------------------------------------------------------
  // Key builder (generateKey)

  /** An argument of `generateKey`: a scalar in string form, or an array of them. */
  datatype KeyArg = Part(text: string) | Parts(items: seq<string>)

  /** `implode` turns an array into the word "Array". */
  function KeyText(a: KeyArg): string {
    match a
    case Part(t) => t
    case Parts(_) => "Array"
  }

  function KeyTexts(args: seq<KeyArg>): (r: seq<string>)
    ensures |r| == |args|
  {
    seq(|args|, i requires 0 <= i < |args| => KeyText(args[i]))
  }

  /** `generateKey(...)`: the arguments joined by colons, or the elements of
      the first argument when that is an array. */
  function GenerateKey(args: seq<KeyArg>): string {
    if |args| > 0 && args[0].Parts? then Join(":", args[0].items) else Join(":", KeyTexts(args))
  }

  /** Scalars without colons come back out of the key by splitting it. */
  lemma GenerateKeySplits(args: seq<KeyArg>)
    requires |args| > 0
    requires forall i :: 0 <= i < |args| ==> args[i].Part? && ':' !in args[i].text
    ensures Split(':', GenerateKey(args)) == KeyTexts(args)
    ensures forall i :: 0 <= i < |args| ==> Split(':', GenerateKey(args))[i] == args[i].text
  {
    SplitJoin(':', KeyTexts(args));
  }

  /** When the first argument is an array, the key is made of its elements
      alone and the other arguments are ignored. */
  lemma GenerateKeyFromArray(items: seq<string>, rest: seq<KeyArg>)
    requires |items| > 0
    requires forall i :: 0 <= i < |items| ==> ':' !in items[i]
    ensures Split(':', GenerateKey([Parts(items)] + rest)) == items
  {
    SplitJoin(':', items);
  }

  lemma GenerateKeyExamples()
    ensures GenerateKey([Part("user"), Part("1"), Part("profile")]) == "user:1:profile"
    ensures GenerateKey([Parts(["a", "b", "c"])]) == "a:b:c"
  {
    assert KeyTexts([Part("user"), Part("1"), Part("profile")]) == ["user", "1", "profile"];
  }

  // ---------------------------------------------------------------------
  // The client object

  class PHPRedis {
    /** Name of the connection, used in log records. */
    const name: string
    var parameters: Parameters
    var connected: bool
    var logger: Logger.Logger?
    /** The state of the native client this class extends. */
    var native: Backend

    ghost predicate Valid()
      reads this, logger
    {
      logger != null ==> logger.Valid()
    }

    /** `__construct($name, $environment, $parameters)`; `backend` is the
        native client's initial state. */
    constructor (name: string, environment: string, parameters: Parameters, backend: Backend)
      ensures Valid()
      ensures this.name == name && !connected && logger == null && native == backend
      ensures this.parameters == parameters.(prefix :=
        StoredPrefix(parameters.prefix, DerivedPrefix(name, environment, parameters.skipEnv)))
    {
      var prefix;
      if parameters.skipEnv {
        prefix := name + ":";
      } else {
        prefix := name + "." + environment + ":";
      }
      var params := parameters;
      if IsEmpty(params.prefix) {
        params := params.(prefix := prefix);
      } else {
        params := params.(prefix := params.prefix + "." + prefix);
      }
      this.name := name;
      this.parameters := params;
      connected := false;
      logger := null;
      native := backend;
    }

    /** `getPrefix()`. */
    function GetPrefix(): string
      reads this
    {
      parameters.prefix
    }

    /** `setPrefix($s)`: stores the prefix and, only when connected, applies
        it to the connection with `setOption`, whose failure is thrown. */
    method SetPrefix(s: string) returns (r: Outcome)
      requires Valid()
      modifies this`parameters, this`connected, this`native, logger
      ensures Valid() && logger == old(logger)
      ensures GetPrefix() == s && parameters == old(parameters).(prefix := s)
      ensures connected == old(connected)
      ensures !old(connected) ==> r == Ok(Null) && native == old(native)
      ensures old(connected) ==>
        var c := ConnectedCall(s, true, old(native), SetOptionCommand, [Scalar(OptPrefix), Scalar(s)]);
        native == c.backend && r == (if c.outcome.CommFailure? then c.outcome else Ok(Null))
      ensures logger != null ==> logger.State() == old(logger.State())
    {
      SetupCommandsExempt();
      parameters := parameters.(prefix := s);
      r := Ok(Null);
      if connected {
        var o := MakeCall(SetOptionCommand, [Scalar(OptPrefix), Scalar(parameters.prefix)], 0.0);
        assert CallSpec(parameters, true, old(native), SetOptionCommand, [Scalar(OptPrefix), Scalar(s)])
          == ConnectedCall(s, true, old(native), SetOptionCommand, [Scalar(OptPrefix), Scalar(s)]);
        if o.CommFailure? {
          r := o;
        }
      }
    }

    /** `setLogger($logger)`. */
    method SetLogger(l: Logger.Logger)
      requires l.Valid()
      modifies this`logger
      ensures Valid() && logger == l
    {
      logger := l;
    }

    /** `makeCall($name, $arguments)`; `elapsedMs` is the time the clock
        would measure around the native call. */
    method MakeCall(commandName: string, args: seq<Arg>, elapsedMs: real) returns (r: Outcome)
      requires Valid()
      modifies this`connected, this`native, logger
      ensures Valid() && logger == old(logger)
      ensures var c := CallSpec(parameters, old(connected), old(native), commandName, args);
        && r == c.outcome && connected == c.connected && native == c.backend
        && (logger != null ==>
              logger.State() == LogEffect(old(logger.State()), logger.hasPsrLogger, c.logged, elapsedMs, name))
    {
      if !connected {
        var c := Connect(false);
        if c.CommFailure? {
          return c;
        }
      }
      if commandName == "connect" || commandName == "pconnect" {
        return Ok(Null);
      }
      r := Dispatch(commandName, args, elapsedMs);
    }

    /** The part of `makeCall` after the connection check and the
        connect/pconnect test; `_connect`'s own `auth`, `select` and
        `setOption` calls run only this part, since they are made while
        `connected` is true. */
    method Dispatch(commandName: string, args: seq<Arg>, elapsedMs: real) returns (r: Outcome)
      requires Valid()
      modifies this`native, logger
      ensures Valid() && logger == old(logger)
      ensures var d := DispatchSpec(parameters.prefix, old(native), commandName, args);
        && r == d.outcome && native == d.backend
        && (logger != null ==>
              logger.State() == LogEffect(old(logger.State()), logger.hasPsrLogger, d.logged, elapsedMs, name))
      ensures !Loggable(commandName) && logger != null ==> logger.State() == old(logger.State())
    {
      var log := Loggable(commandName);
      var e := Execute(native, commandName, args);
      native := e.backend;
      var error := native.lastError;
      var isError := false;
      if Truthy(error) {
        native := ClearLastError(native);
        isError := true;
      }
      if log && logger != null {
        var text := CommandString(commandName, args);
        logger.LogCommand(text, elapsedMs, name, isError);
      }
      if isError {
        return CommFailure(CommandFailedMessage + error);
      }
      r := Ok(e.value);
    }

    /** `_connect($bailOnError)`: the wait before the retry is not modelled. */
    method Connect(bailOnError: bool) returns (r: Outcome)
      requires Valid()
      modifies this`connected, this`native, logger
      decreases if bailOnError then 0 else 1
      ensures Valid() && logger == old(logger)
      ensures var c := ConnectSpec(parameters, old(native), bailOnError);
        r == c.outcome && connected == c.connected && native == c.backend
      ensures logger != null ==> logger.State() == old(logger.State())
    {
      var c := AttemptConnect(native, parameters.host, parameters.port, parameters.timeout);
      native := c.backend;
      connected := c.ok;
      if connected {
        r := Setup();
        return;
      } else if !bailOnError {
        var retry := Connect(true);
        if retry.CommFailure? {
          return retry;
        }
      }
      var error := native.lastError;
      native := ClearLastError(native);
      r := CommFailure(ConnectFailedMessage + error);
    }

    /** The body of `_connect`'s success branch, run with `connected` true;
        it returns true only when every step succeeded, and otherwise falls
        through to the connection failure. */
    method Setup() returns (r: Outcome)
      requires Valid() && connected
      modifies this`connected, this`native, logger
      ensures Valid() && logger == old(logger)
      ensures var c := SetupSpec(parameters, old(native));
        r == c.outcome && connected == c.connected && native == c.backend
      ensures logger != null ==> logger.State() == old(logger.State())
    {
      SetupCommandsExempt();
      ghost var b0 := native;
      if parameters.auth.Some? && Truthy(parameters.auth.value) {
        var a := Dispatch(AuthCommand, [Scalar(parameters.auth.value)], 0.0);
        if a.CommFailure? {
          return a;
        }
      }
      assert native == AuthSpec(parameters, b0).backend && AuthSpec(parameters, b0).outcome.Ok?;
      var s := Dispatch(SelectCommand, [Scalar(IntToString(parameters.database))], 0.0);
      if s.CommFailure? {
        return s;
      }
      if IsTrue(s.value) {
        r := ApplyOptions();
        return;
      }
      var error := native.lastError;
      native := ClearLastError(native);
      r := CommFailure(ConnectFailedMessage + error);
    }

    /** The default options `_connect` sets once the database is selected,
        followed by `return true`. */
    method ApplyOptions() returns (r: Outcome)
      requires Valid() && connected
      modifies this`native, logger
      ensures Valid() && logger == old(logger)
      ensures var c := OptionsSpec(parameters, old(native));
        r == c.outcome && connected == c.connected && native == c.backend
      ensures logger != null ==> logger.State() == old(logger.State())
    {
      SetupCommandsExempt();
      var o := Dispatch(SetOptionCommand, [Scalar(OptPrefix), Scalar(parameters.prefix)], 0.0);
      if o.CommFailure? {
        return o;
      }
      o := Dispatch(SetOptionCommand, [Scalar(OptSerializer), Scalar(SerializerPhp)], 0.0);
      if o.CommFailure? {
        return o;
      }
      r := Ok(Bool(true));
    }

    /** `getCommandString($command, $arguments)`. */
    method CommandString(command: string, args: seq<Arg>) returns (s: string)
      ensures s == RenderCommand(command, parameters.prefix, args)
    {
      var list: seq<string> := [];
      var i := 0;
      while i < |args|
        invariant 0 <= i <= |args|
        invariant |list| == i
        invariant forall j :: 0 <= j < i ==> list[j] == ArgText(args[j])
      {
        var text := if args[i].Scalar? then args[i].text else ComplexArgument;
        list := list + [text];
        i := i + 1;
      }
      assert list == ArgTexts(args);
      s := Cut(Trim(Upper(command) + " " + GetPrefix() + Join(" ", list)), MaxCommandLength);
    }
  }
}
