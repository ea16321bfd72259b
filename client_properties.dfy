/**
 * What the client promises, stated over the specification functions of
 * module Client: the connect state machine's attempts and outcomes, the
 * dispatcher's error handling and logging decision, and how the two
 * compose in `makeCall`.
 */
module ClientProperties {
  import opened PhpStrings
  import opened Native
  import opened Client
  import Logger
  import opened Wrappers

  /** `u` is `t` followed by further calls. */
  predicate Extends(t: seq<Call>, u: seq<Call>) {
    |t| <= |u| && u[..|t|] == t
  }

  lemma ExtendsTransitive(t: seq<Call>, u: seq<Call>, v: seq<Call>)
    requires Extends(t, u) && Extends(u, v)
    ensures Extends(t, v)
  {
    assert v[..|t|] == v[..|u|][..|t|];
  }

  lemma {:induction false} NoConnectAppended(t: seq<Call>, c: Call)
    requires c.CommandCall?
    ensures ConnectCount(t + [c]) == ConnectCount(t)
  {
    assert (t + [c])[..|t|] == t;
  }

  // ---------------------------------------------------------------------
  // Dispatch

  /** One dispatch sends exactly the given command to the server and no
      connect; with an error left on the client it clears it and fails with
      "Redis command failed: " and the error, otherwise it passes the reply
      through unchanged; it asks for a log line exactly when the command is
      loggable, marked as an error exactly when it fails. */
  lemma DispatchEffect(prefix: string, b: Backend, name: string, args: seq<Arg>)
    ensures var d, e := DispatchSpec(prefix, b, name, args), Execute(b, name, args);
      && d.backend.trace == b.trace + [CommandCall(name, args)]
      && Extends(b.trace, d.backend.trace)
      && ConnectCount(d.backend.trace) == ConnectCount(b.trace)
      && d.backend.connects == b.connects
      && (Truthy(e.backend.lastError) ==>
            d.outcome == CommFailure(CommandFailedMessage + e.backend.lastError) && d.backend.lastError == "")
      && (!Truthy(e.backend.lastError) ==> d.outcome == Ok(e.value) && d.backend == e.backend)
      && (d.logged.Some? <==> Loggable(name))
      && (d.logged.Some? ==> d.logged.value == LogLine(RenderCommand(name, prefix, args), d.outcome.CommFailure?))
  {
    NoConnectAppended(b.trace, CommandCall(name, args));
    assert (b.trace + [CommandCall(name, args)])[..|b.trace|] == b.trace;
  }

  /** A failure message is one of the two the client throws. */
  predicate IsClientFailure(o: Outcome) {
    o.CommFailure? ==>
      (|o.message| >= |CommandFailedMessage| && o.message[..|CommandFailedMessage|] == CommandFailedMessage)
      || (|o.message| >= |ConnectFailedMessage| && o.message[..|ConnectFailedMessage|] == ConnectFailedMessage)
  }

  // ---------------------------------------------------------------------
  // _connect

  /** The two `setOption` calls: no connect attempt, a failure leaves no
      error behind, and success returns true with those two calls last. */
  lemma OptionsEffect(p: Parameters, b: Backend)
    ensures var s := OptionsSpec(p, b);
      && s.connected
      && Extends(b.trace, s.backend.trace)
      && ConnectCount(s.backend.trace) == ConnectCount(b.trace)
      && IsClientFailure(s.outcome)
      && (s.outcome.CommFailure? ==> s.backend.lastError == "")
      && (s.outcome.Ok? ==>
            && s.outcome == Ok(Bool(true))
            && s.backend.trace == b.trace + [
                 CommandCall(SetOptionCommand, [Scalar(OptPrefix), Scalar(p.prefix)]),
                 CommandCall(SetOptionCommand, [Scalar(OptSerializer), Scalar(SerializerPhp)])])
  {
    var o1 := DispatchSpec(p.prefix, b, SetOptionCommand, [Scalar(OptPrefix), Scalar(p.prefix)]);
    DispatchEffect(p.prefix, b, SetOptionCommand, [Scalar(OptPrefix), Scalar(p.prefix)]);
    if o1.outcome.Ok? {
      DispatchEffect(p.prefix, o1.backend, SetOptionCommand, [Scalar(OptSerializer), Scalar(SerializerPhp)]);
      ExtendsTransitive(b.trace, o1.backend.trace, OptionsSpec(p, b).backend.trace);
    }
  }

  /** `select` and what follows it: no connect attempt, `connected` stays
      true, a failure leaves no error behind, and success means `select` and
      the two `setOption` calls were the last three calls. */
  lemma SelectEffect(p: Parameters, b: Backend)
    ensures var s := SelectSpec(p, b);
      && s.connected
      && Extends(b.trace, s.backend.trace)
      && ConnectCount(s.backend.trace) == ConnectCount(b.trace)
      && IsClientFailure(s.outcome)
      && (s.outcome.CommFailure? ==> s.backend.lastError == "")
      && (s.outcome.Ok? ==>
            && s.outcome == Ok(Bool(true))
            && s.backend.trace == b.trace + [
                 CommandCall(SelectCommand, [Scalar(IntToString(p.database))]),
                 CommandCall(SetOptionCommand, [Scalar(OptPrefix), Scalar(p.prefix)]),
                 CommandCall(SetOptionCommand, [Scalar(OptSerializer), Scalar(SerializerPhp)])])
  {
    var sel := DispatchSpec(p.prefix, b, SelectCommand, [Scalar(IntToString(p.database))]);
    DispatchEffect(p.prefix, b, SelectCommand, [Scalar(IntToString(p.database))]);
    if sel.outcome.Ok? && IsTrue(sel.outcome.value) {
      OptionsEffect(p, sel.backend);
      ExtendsTransitive(b.trace, sel.backend.trace, OptionsSpec(p, sel.backend).backend.trace);
    }
  }

  /** After a successful connect: no further connect attempt, `connected`
      stays true whatever happens, a failure leaves no error behind, and
      success means `select`, `setOption(OPT_PREFIX, prefix)` and
      `setOption(OPT_SERIALIZER, SERIALIZER_PHP)` were the last three calls. */
  lemma SetupEffect(p: Parameters, b: Backend)
    ensures var s := SetupSpec(p, b);
      && s.connected
      && Extends(b.trace, s.backend.trace)
      && ConnectCount(s.backend.trace) == ConnectCount(b.trace)
      && IsClientFailure(s.outcome)
      && (s.outcome.CommFailure? ==> s.backend.lastError == "")
      && (s.outcome.Ok? ==>
            && s.outcome == Ok(Bool(true))
            && |s.backend.trace| >= |b.trace| + 3
            && s.backend.trace[|s.backend.trace| - 3..] == [
                 CommandCall(SelectCommand, [Scalar(IntToString(p.database))]),
                 CommandCall(SetOptionCommand, [Scalar(OptPrefix), Scalar(p.prefix)]),
                 CommandCall(SetOptionCommand, [Scalar(OptSerializer), Scalar(SerializerPhp)])])
  {
    var a := AuthSpec(p, b);
    if p.auth.Some? && Truthy(p.auth.value) {
      DispatchEffect(p.prefix, b, AuthCommand, [Scalar(p.auth.value)]);
    }
    assert Extends(b.trace, a.backend.trace) && ConnectCount(a.backend.trace) == ConnectCount(b.trace);
    if a.outcome.Ok? {
      SelectEffect(p, a.backend);
      ExtendsTransitive(b.trace, a.backend.trace, SelectSpec(p, a.backend).backend.trace);
    }
  }

  /** `_connect` makes one connect attempt, and a second one only when the
      first failed and it is not already the retry; what it sent starts with
      that attempt. */
  lemma {:induction false} ConnectAttempts(p: Parameters, b: Backend, bailOnError: bool)
    ensures var c, first := ConnectSpec(p, b, bailOnError), AttemptConnect(b, p.host, p.port, p.timeout);
      && Extends(b.trace, c.backend.trace)
      && |c.backend.trace| > |b.trace|
      && c.backend.trace[|b.trace|] == ConnectCall(p.host, p.port, p.timeout)
      && ConnectCount(c.backend.trace) == ConnectCount(b.trace) + (if first.ok || bailOnError then 1 else 2)
    decreases if bailOnError then 0 else 1
  {
    var first := AttemptConnect(b, p.host, p.port, p.timeout);
    var c := ConnectSpec(p, b, bailOnError);
    assert first.backend.trace == b.trace + [ConnectCall(p.host, p.port, p.timeout)];
    assert Extends(b.trace, first.backend.trace);
    ConnectCountAppend(b.trace, [ConnectCall(p.host, p.port, p.timeout)]);
    if first.ok {
      SetupEffect(p, first.backend);
      ExtendsTransitive(b.trace, first.backend.trace, c.backend.trace);
      assert c.backend.trace[|b.trace|] == c.backend.trace[..|first.backend.trace|][|b.trace|];
    } else if !bailOnError {
      var retry := ConnectSpec(p, first.backend, true);
      ConnectAttempts(p, first.backend, true);
      ExtendsTransitive(b.trace, first.backend.trace, retry.backend.trace);
      assert c.backend.trace == retry.backend.trace;
      assert c.backend.trace[|b.trace|] == c.backend.trace[..|first.backend.trace|][|b.trace|];
    }
  }

  /** The outcomes of `_connect`:
      - it succeeds only when the first attempt connected, and then it has
        set the prefix and serializer options and returns true;
      - after a failed first attempt it always fails, even when the retry
        went through (the retry's result is discarded);
      - `connected` is the result of the last connect attempt made;
      - every failure leaves no error behind and carries one of the two
        failure messages. */
  lemma {:induction false} ConnectOutcomes(p: Parameters, b: Backend, bailOnError: bool)
    ensures var c, first := ConnectSpec(p, b, bailOnError), AttemptConnect(b, p.host, p.port, p.timeout);
      && (c.outcome.Ok? ==>
            && first.ok && c.connected && c.outcome == Ok(Bool(true))
            && |c.backend.trace| >= 2
            && c.backend.trace[|c.backend.trace| - 2..] == [
                 CommandCall(SetOptionCommand, [Scalar(OptPrefix), Scalar(p.prefix)]),
                 CommandCall(SetOptionCommand, [Scalar(OptSerializer), Scalar(SerializerPhp)])])
      && (!first.ok && !bailOnError ==> c.outcome.CommFailure?)
      && (first.ok || bailOnError ==> c.connected == first.ok)
      && (!first.ok && !bailOnError ==>
            c.connected == AttemptConnect(first.backend, p.host, p.port, p.timeout).ok)
      && (c.outcome.CommFailure? ==> c.backend.lastError == "")
      && IsClientFailure(c.outcome)
    decreases if bailOnError then 0 else 1
  {
    var first := AttemptConnect(b, p.host, p.port, p.timeout);
    if first.ok {
      SetupEffect(p, first.backend);
      var s := SetupSpec(p, first.backend);
      if s.outcome.Ok? {
        var n := |s.backend.trace|;
        assert s.backend.trace[n - 2..] == s.backend.trace[n - 3..][1..];
      }
    } else if !bailOnError {
      ConnectOutcomes(p, first.backend, true);
    }
  }

  /** The quirk of the retry: when the first attempt fails without leaving an
      error text and the retry connects and sets everything up, `_connect`
      still throws "Could not connect to Redis: ", yet leaves `connected`
      true. */
  lemma RetrySuccessStillThrows(p: Parameters, b: Backend)
    requires !AttemptConnect(b, p.host, p.port, p.timeout).ok
    requires var second := AttemptConnect(AttemptConnect(b, p.host, p.port, p.timeout).backend, p.host, p.port, p.timeout);
      second.ok && SetupSpec(p, second.backend).outcome.Ok?
    ensures var c := ConnectSpec(p, b, false);
      && c.connected
      && c.outcome.CommFailure?
      && |c.outcome.message| >= |ConnectFailedMessage|
      && c.outcome.message[..|ConnectFailedMessage|] == ConnectFailedMessage
  {
  }

  /** A `select` that answers false without an error fails the connection
      with "Could not connect to Redis: " yet leaves `connected` true. */
  lemma SelectRefusedKeepsConnected(p: Parameters, b: Backend)
    requires AttemptConnect(b, p.host, p.port, p.timeout).ok
    requires var a := AuthSpec(p, AttemptConnect(b, p.host, p.port, p.timeout).backend);
      && a.outcome.Ok?
      && var s := DispatchSpec(p.prefix, a.backend, SelectCommand, [Scalar(IntToString(p.database))]);
      s.outcome.Ok? && !IsTrue(s.outcome.value)
    ensures var a := AuthSpec(p, AttemptConnect(b, p.host, p.port, p.timeout).backend);
      var s := DispatchSpec(p.prefix, a.backend, SelectCommand, [Scalar(IntToString(p.database))]);
      var c := ConnectSpec(p, b, false);
      && c.connected
      && c.outcome == CommFailure(ConnectFailedMessage + s.backend.lastError)
      && c.backend.lastError == ""
  {
  }

  /** The error text a command leaves on the native client. */
  function LeftError(b: Backend, name: string, args: seq<Arg>): string {
    Execute(b, name, args).backend.lastError
  }

  /** Both connect attempts fail: `_connect` throws "Could not connect to
      Redis: " followed by the native error left after the second attempt,
      clears that error, and stays disconnected. */
  lemma BothAttemptsFail(p: Parameters, b: Backend)
    requires !AttemptConnect(b, p.host, p.port, p.timeout).ok
    requires !AttemptConnect(AttemptConnect(b, p.host, p.port, p.timeout).backend, p.host, p.port, p.timeout).ok
    ensures var second := AttemptConnect(AttemptConnect(b, p.host, p.port, p.timeout).backend, p.host, p.port, p.timeout);
      var c := ConnectSpec(p, b, false);
      && c.outcome == CommFailure(ConnectFailedMessage + second.backend.lastError)
      && !c.connected
      && c.backend.lastError == ""
  {
  }

  /** The retry itself fails: "Could not connect to Redis: " followed by the
      native error left after that attempt, and disconnected. */
  lemma RetryAttemptFails(p: Parameters, b: Backend)
    requires !AttemptConnect(b, p.host, p.port, p.timeout).ok
    ensures var first, c := AttemptConnect(b, p.host, p.port, p.timeout), ConnectSpec(p, b, true);
      && c.outcome == CommFailure(ConnectFailedMessage + first.backend.lastError)
      && !c.connected
      && c.backend.lastError == ""
  {
  }

  /** An error left by `auth` right after connecting is thrown by `_connect`
      as "Redis command failed: " and that error; `connected` stays true. */
  lemma ConnectAuthError(p: Parameters, b: Backend, bailOnError: bool)
    requires AttemptConnect(b, p.host, p.port, p.timeout).ok
    requires p.auth.Some? && Truthy(p.auth.value)
    requires Truthy(LeftError(AttemptConnect(b, p.host, p.port, p.timeout).backend, AuthCommand, [Scalar(p.auth.value)]))
    ensures var e := LeftError(AttemptConnect(b, p.host, p.port, p.timeout).backend, AuthCommand, [Scalar(p.auth.value)]);
      var c := ConnectSpec(p, b, bailOnError);
      && c.outcome == CommFailure(CommandFailedMessage + e)
      && c.connected
      && c.backend.lastError == ""
  {
  }

  /** An error left by `select` is thrown as "Redis command failed: " and
      that error; `connected` stays true. */
  lemma ConnectSelectError(p: Parameters, b: Backend, bailOnError: bool)
    requires AttemptConnect(b, p.host, p.port, p.timeout).ok
    requires AuthSpec(p, AttemptConnect(b, p.host, p.port, p.timeout).backend).outcome.Ok?
    requires Truthy(LeftError(AuthSpec(p, AttemptConnect(b, p.host, p.port, p.timeout).backend).backend,
                              SelectCommand, [Scalar(IntToString(p.database))]))
    ensures var a := AuthSpec(p, AttemptConnect(b, p.host, p.port, p.timeout).backend);
      var e := LeftError(a.backend, SelectCommand, [Scalar(IntToString(p.database))]);
      var c := ConnectSpec(p, b, bailOnError);
      && c.outcome == CommFailure(CommandFailedMessage + e)
      && c.connected
      && c.backend.lastError == ""
  {
  }

  /** Once `select` answered true, an error left by either `setOption` call
      is thrown as "Redis command failed: " and that error; `connected` stays
      true. */
  lemma ConnectOptionError(p: Parameters, b: Backend, bailOnError: bool)
    requires AttemptConnect(b, p.host, p.port, p.timeout).ok
    requires AuthSpec(p, AttemptConnect(b, p.host, p.port, p.timeout).backend).outcome.Ok?
    requires var s := DispatchSpec(p.prefix, AuthSpec(p, AttemptConnect(b, p.host, p.port, p.timeout).backend).backend,
                                   SelectCommand, [Scalar(IntToString(p.database))]);
      s.outcome.Ok? && IsTrue(s.outcome.value)
    ensures var a := AuthSpec(p, AttemptConnect(b, p.host, p.port, p.timeout).backend);
      var s := DispatchSpec(p.prefix, a.backend, SelectCommand, [Scalar(IntToString(p.database))]);
      var e1 := LeftError(s.backend, SetOptionCommand, [Scalar(OptPrefix), Scalar(p.prefix)]);
      var o1 := DispatchSpec(p.prefix, s.backend, SetOptionCommand, [Scalar(OptPrefix), Scalar(p.prefix)]);
      var e2 := LeftError(o1.backend, SetOptionCommand, [Scalar(OptSerializer), Scalar(SerializerPhp)]);
      var c := ConnectSpec(p, b, bailOnError);
      && c.connected
      && (Truthy(e1) ==> c.outcome == CommFailure(CommandFailedMessage + e1))
      && (!Truthy(e1) && Truthy(e2) ==> c.outcome == CommFailure(CommandFailedMessage + e2))
      && (!Truthy(e1) && !Truthy(e2) ==> c.outcome == Ok(Bool(true)))
  {
  }

  // ---------------------------------------------------------------------
  // makeCall

  /** `makeCall` runs `_connect` only when not connected; once connected no
      call makes another connect attempt. */
  lemma CallConnectsOnlyWhenDisconnected(p: Parameters, connected: bool, b: Backend, name: string, args: seq<Arg>)
    ensures var c := CallSpec(p, connected, b, name, args);
      && Extends(b.trace, c.backend.trace)
      && (connected ==> c.connected && ConnectCount(c.backend.trace) == ConnectCount(b.trace))
      && (!connected ==> ConnectCount(b.trace) + 1 <= ConnectCount(c.backend.trace) <= ConnectCount(b.trace) + 2)
  {
    if connected {
      if !IsConnectCommand(name) {
        DispatchEffect(p.prefix, b, name, args);
      }
    } else {
      var k := ConnectSpec(p, b, false);
      ConnectAttempts(p, b, false);
      if k.outcome.Ok? && !IsConnectCommand(name) {
        DispatchEffect(p.prefix, k.backend, name, args);
        ExtendsTransitive(b.trace, k.backend.trace, CallSpec(p, connected, b, name, args).backend.trace);
      }
    }
  }

  /** `connect` and `pconnect` execute and log nothing once the connection is
      up: the call changes nothing and returns null. */
  lemma ConnectCommandsDoNothing(p: Parameters, b: Backend, name: string, args: seq<Arg>)
    requires IsConnectCommand(name)
    ensures CallSpec(p, true, b, name, args) == CallStep(Ok(Null), true, b, None)
    ensures var k := ConnectSpec(p, b, false);
      k.outcome.Ok? ==> CallSpec(p, false, b, name, args) == CallStep(Ok(Null), k.connected, k.backend, None)
  {
  }

  /** A call asks for exactly one log line if and only if its command is not
      exempt, is not connect or pconnect, and the connection is (or comes) up;
      the line is marked as an error exactly when the call fails. An exempt
      command never produces one, whether it succeeds or fails. */
  lemma LoggedExactlyWhenLoggable(p: Parameters, connected: bool, b: Backend, name: string, args: seq<Arg>)
    ensures var c := CallSpec(p, connected, b, name, args);
      && (c.logged.Some? <==>
            Loggable(name) && !IsConnectCommand(name) && (connected || ConnectSpec(p, b, false).outcome.Ok?))
      && (c.logged.Some? ==>
            c.logged.value == LogLine(RenderCommand(name, p.prefix, args), c.outcome.CommFailure?))
      && (Lower(name) in LogExempt ==> c.logged.None?)
  {
    if connected {
      DispatchEffect(p.prefix, b, name, args);
    } else {
      var k := ConnectSpec(p, b, false);
      if k.outcome.Ok? {
        DispatchEffect(p.prefix, k.backend, name, args);
      }
    }
  }

  /** When a connected call's command leaves an error on the client, the
      call fails with "Redis command failed: " and that error, the client's
      error is cleared so the next call does not see it, and the log line (if
      any) is marked as an error. Otherwise the reply is returned unchanged. */
  lemma CommandErrorIsReportedOnce(p: Parameters, b: Backend, name: string, args: seq<Arg>)
    requires !IsConnectCommand(name)
    ensures var c, e := CallSpec(p, true, b, name, args), Execute(b, name, args);
      && (Truthy(e.backend.lastError) ==>
            && c.outcome == CommFailure(CommandFailedMessage + e.backend.lastError)
            && c.backend.lastError == ""
            && (Loggable(name) ==> c.logged.Some? && c.logged.value.isError))
      && (!Truthy(e.backend.lastError) ==>
            c.outcome == Ok(e.value) && (Loggable(name) ==> c.logged.Some? && !c.logged.value.isError))
  {
    DispatchEffect(p.prefix, b, name, args);
  }

  /** Two calls in a row: once the first has succeeded the connection is up,
      so the second makes no connect attempt. */
  lemma SecondCallDoesNotConnect(p: Parameters, connected: bool, b: Backend,
                                 n1: string, a1: seq<Arg>, n2: string, a2: seq<Arg>)
    requires CallSpec(p, connected, b, n1, a1).outcome.Ok?
    ensures var c1 := CallSpec(p, connected, b, n1, a1);
      && c1.connected
      && ConnectCount(CallSpec(p, c1.connected, c1.backend, n2, a2).backend.trace) == ConnectCount(c1.backend.trace)
  {
    var c1 := CallSpec(p, connected, b, n1, a1);
    if !connected {
      ConnectOutcomes(p, b, false);
    }
    CallConnectsOnlyWhenDisconnected(p, c1.connected, c1.backend, n2, a2);
  }

  /** The logger sees one `logCommand` per requested log line: the counter
      goes up by one exactly when a line was requested. */
  lemma LogEffectCounts(s: Logger.LogState, hasPsr: bool, line: Option<LogLine>, elapsedMs: real, conn: string)
    requires Logger.Consistent(s, hasPsr)
    ensures var t := LogEffect(s, hasPsr, line, elapsedMs, conn);
      && Logger.Consistent(t, hasPsr)
      && t.count == s.count + (if line.Some? then 1 else 0)
      && (line.Some? && hasPsr ==>
            t.commands == s.commands + [Logger.CommandRecord(line.value.command, elapsedMs, conn, line.value.isError)])
      && (line.None? || !hasPsr ==> t.commands == s.commands)
  {
    if line.Some? {
      Logger.LoggedKeepsConsistent(s, hasPsr, Logger.CommandRecord(line.value.command, elapsedMs, conn, line.value.isError));
    }
  }
}
