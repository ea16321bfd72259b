# phpredis-bundle: a Dafny model of the instrumented Redis client

The Symfony bundle `pompdelux/phpredis-bundle` wraps the native `\Redis`
client in `PHPRedis`. This proxy connects lazily, retrying once. It logs every
command outside a fixed exemption set to a `Logger` and turns an error left on
the native client into a `RedisCommunicationException`. A profiler data
collector then reads the logger's records back.

The project models these parts:

- `php_strings.dfy` (module `PhpStrings`): the PHP string builtins the core relies on. These are truthiness, `empty`, ASCII `strtoupper`/`strtolower`, `trim`, `implode`/`explode` on one separator, and `mb_substr($s, 0, n)`.
- `native.dfy` (module `Native`): the native client, modelled as a value.
  - Connect results and command replies are scripted queues.
  - The client holds its last error.
  - It keeps a trace of every call made to it.
  - Replies are PHP values.
- `logger.dfy` (module `Logger`): class `Logger`, with its `LogState` specification.
  - The invariant `Consistent` holds in every reachable state.
  - Lemmas cover one `logCommand` call and a series of calls.
- `phpredis.dfy` (module `Client`): class `PHPRedis`.
  - The constructor derives the prefix.
  - The methods are `getPrefix`, `setPrefix`, `setLogger`, `makeCall`, `_connect` and `getCommandString`.
  - `generateKey` is a function.
  - The pure functions `DispatchSpec`, `SetupSpec`, `SelectSpec`, `ConnectSpec` and `CallSpec` say what each step does to the native client. Each method is proved to agree with its function.
- `client_properties.dfy` (module `ClientProperties`): what the client promises, stated over those functions.
  - The number of connect attempts, and the possible outcomes.
  - Errors are reported once and then cleared.
  - A command is logged exactly when it is loggable.
  - Once connected, no further connect is attempted.
- `data_collector.dfy` (module `DataCollector`): class `PHPRedisDataCollector`.
  - `collect` takes a snapshot of the logger's records.
  - It provides `getCommands`, `getCommandCount`, `getName`, and a `getTime` loop proved to compute `TotalMs`.
  - Lemmas show the total does not depend on the order of addition and bounds every single duration.

`makeCall` is modelled in two parts:

- `MakeCall`: the connection check and the `connect`/`pconnect` short-circuit.
- `Dispatch`: executing the native call, the error check, logging, and throwing.

`_connect` sends `auth`, `select` and `setOption` through the public wrappers, which call `makeCall`. At that point `connected` is already true, so only the `Dispatch` part does anything. `Setup` and `ApplyOptions` therefore call `Dispatch` directly.

In three places the code behaves otherwise than one would expect of a lazy connection with one retry. The model follows the code:

- A failed first connect followed by a successful retry still throws "Could not connect to Redis: ". The result of `_connect(true)` is discarded, and `connected` is left true (`RetrySuccessStillThrows`). This shows in full only when the first failure leaves no error text. If it leaves one, the model keeps that text through the successful reconnect, so the retry's `select` finds it and throws it as "Redis command failed: " (see the native client line under "## Left out").
- `select` answering false throws "Could not connect to Redis: " but leaves `connected` true (`SelectRefusedKeepsConnected`).
- A failure of `auth`, `select` or `setOption` during `_connect` is thrown as "Redis command failed: ", and `connected` stays true.

## Model

| member | source | states |
|---|---|---|
| Client.PHPRedis.constructor | Client/PHPRedis.php:55-73 | The prefix is `name:` with `skip_env`, `name.env:` otherwise, behind the configured prefix and a dot when one is set (non-empty by PHP `empty`). The client starts disconnected with no logger. |
| Client.DerivedPrefix | Client/PHPRedis.php:59-63 | The derived prefix starts with the name and ends with a colon. It is exactly `name:` with `skip_env`; otherwise a dot and the environment come between. |
| Client.StoredPrefix | Client/PHPRedis.php:65-69 | The stored prefix ends with the derived one. It equals it when the configured prefix is empty; otherwise it is the configured prefix, a dot, then the derived one. |
| Client.DefaultPrefixExample | DependencyInjection/Configuration.php:32-38 | With the configuration defaults, connection "cache" in environment "test" gets prefix "cache.test:". |
| Client.PHPRedis.SetPrefix | Client/PHPRedis.php:91-98 | Stores the new prefix. When disconnected, nothing else changes. When connected, it sends exactly `setOption(OPT_PREFIX, s)` and throws that call's failure. It never logs (setOption is exempt). |
| Client.PHPRedis.SetLogger | Client/PHPRedis.php:105-108 | Installs the logger. |
| Client.PHPRedis.MakeCall | Client/PHPRedis.php:121-166 | Result, connection flag and native state are those of `CallSpec`. The logger's new state is its old state plus exactly the log line `CallSpec` asks for, timed with the given duration and tagged with the connection name. |
| Client.PHPRedis.Dispatch | Client/PHPRedis.php:132-165 | Agrees with `DispatchSpec`. An exempt command leaves the logger unchanged. |
| Client.PHPRedis.Connect | Client/PHPRedis.php:194-228 | Agrees with `ConnectSpec` and never changes the logger. |
| Client.PHPRedis.Setup | Client/PHPRedis.php:202-213 | The success branch of `_connect` agrees with `SetupSpec`. The logger is unchanged. |
| Client.PHPRedis.ApplyOptions | Client/PHPRedis.php:208-212 | The two default `setOption` calls, then true, agreeing with `OptionsSpec`. The logger is unchanged. |
| Client.PHPRedis.CommandString | Client/PHPRedis.php:239-247 | The loop builds the argument texts (`[.. complex type ..]` for non-scalars). The result is `RenderCommand` of the command, prefix and arguments. |
| Client.RenderCommandBounds | Client/PHPRedis.php:246 | The logged text is at most 256 characters and does not start with whitespace. It is a leading piece of the untruncated rendering: all of it when that fits, otherwise its first 256 characters. |
| Client.RenderExample | Client/PHPRedis.php:246 | `set user:1 alice` under prefix `app.test:` renders as `SET app.test:user:1 alice`: the prefix abuts the first argument. |
| Client.LoggableIgnoresCase | Client/PHPRedis.php:132-143 | Whether a command is logged does not depend on the case of its name. |
| Client.SetupCommandsExempt | Client/PHPRedis.php:133-143 | `auth`, `select` and `setOption` are in the exemption set. |
| Client.GenerateKeySplits | Client/PHPRedis.php:174-183 | For scalar parts without colons, splitting the key on ':' gives back exactly the parts, in order. |
| Client.GenerateKeyFromArray | Client/PHPRedis.php:178-182 | When the first argument is an array, the key is made from its elements alone. Splitting it gives them back and the other arguments are ignored. |
| Client.GenerateKeyExamples | Client/PHPRedis.php:174-183 | `generateKey('user', 1, 'profile')` is `user:1:profile`, and `generateKey(['a','b','c'])` is `a:b:c`. |
| Client.GenerateKey | Client/PHPRedis.php:174-183 | The arguments' texts joined by ':' (an array argument gives "Array"), or the first argument's elements joined by ':' when that argument is an array. Its properties are stated by `GenerateKeySplits`, `GenerateKeyFromArray` and `GenerateKeyExamples`. |
| Client.PHPRedis.GetPrefix | Client/PHPRedis.php:81-84 | The stored prefix. Its value is fixed by the constructor's and `SetPrefix`'s contracts. |
| Client.Loggable | Client/PHPRedis.php:132-143 | A command is logged unless its lower-cased name is open, popen, close, setoption, getoption, auth or select. |
| Client.IsConnectCommand | Client/PHPRedis.php:127-130 | `makeCall` returns at once for exactly the names `connect` and `pconnect`, compared case-sensitively. |
| ClientProperties.DispatchEffect | Client/PHPRedis.php:132-165 | Exactly the given command is sent and no connect. An error left behind is cleared and thrown as "Redis command failed: " plus the error. Otherwise the reply passes through unchanged. A log line is produced iff the command is loggable, marked as an error iff the call fails. |
| ClientProperties.OptionsEffect | Client/PHPRedis.php:208-212 | Setting the options makes no connect attempt and keeps the connection. A failure leaves no error behind. Success returns true with the two `setOption` calls as the last ones sent. |
| ClientProperties.SelectEffect | Client/PHPRedis.php:207-213 | `select` and what follows it make no connect attempt and keep `connected` true. A failure leaves no error behind and carries one of the two client messages. Success returns true and the last three calls sent are `select` and the two `setOption` calls. |
| ClientProperties.SetupEffect | Client/PHPRedis.php:202-213 | After a successful connect: no further connect attempt. `connected` stays true whatever follows. Every failure carries one of the two client messages and leaves no error behind. Success returns true, with `select`, `setOption(OPT_PREFIX)` and `setOption(OPT_SERIALIZER, SERIALIZER_PHP)` as the last three calls. The exact message of each failure path is stated by `ConnectAuthError`, `ConnectSelectError`, `ConnectOptionError` and `SelectRefusedKeepsConnected`. |
| ClientProperties.ConnectAttempts | Client/PHPRedis.php:194-218 | `_connect` makes exactly one connect attempt, or two when the first failed and this is not the retry. The first call sent is that connect. |
| ClientProperties.ConnectOutcomes | Client/PHPRedis.php:194-228 | Success only when the first attempt connected, returning true after setting both options. After a failed first attempt it always throws. `connected` is the result of the last attempt. A failure clears the native error and carries one of the two messages. The exact messages of the failed connects are stated by `BothAttemptsFail` and `RetryAttemptFails`. |
| ClientProperties.RetrySuccessStillThrows | Client/PHPRedis.php:214-227 | A first attempt fails and the retry fully succeeds: `_connect` still throws "Could not connect to Redis: ", and `connected` is true. |
| ClientProperties.SelectRefusedKeepsConnected | Client/PHPRedis.php:202-227 | `select` answers false without an error: the throw is "Could not connect to Redis: " followed by the native error text, that error is cleared, and `connected` stays true. |
| ClientProperties.BothAttemptsFail | Client/PHPRedis.php:194-227 | Both connect attempts fail: the throw is "Could not connect to Redis: " followed by the native error left after the second attempt, that error is cleared, and the client is disconnected. |
| ClientProperties.RetryAttemptFails | Client/PHPRedis.php:194-227 | The retry (`bailOnError` true) fails to connect: the throw is "Could not connect to Redis: " followed by the native error of that attempt, which is cleared, and the client is disconnected. |
| ClientProperties.ConnectAuthError | Client/PHPRedis.php:202-205 | After connecting, an error left by `auth` is thrown as "Redis command failed: " followed by that error (through `makeCall`, lines 152-162), the error is cleared, and `connected` stays true. |
| ClientProperties.ConnectSelectError | Client/PHPRedis.php:207 | An error left by `select` is thrown as "Redis command failed: " followed by that error. The error is cleared and `connected` stays true. |
| ClientProperties.ConnectOptionError | Client/PHPRedis.php:207-212 | Once `select` answered true, an error left by the first or else the second `setOption` is thrown as "Redis command failed: " followed by that error. Without either error `_connect` returns true. `connected` stays true. |
| ClientProperties.CallConnectsOnlyWhenDisconnected | Client/PHPRedis.php:123-125 | A connected call makes no connect attempt and stays connected. A disconnected call makes one or two attempts. The trace only grows. |
| ClientProperties.ConnectCommandsDoNothing | Client/PHPRedis.php:127-130 | `connect`/`pconnect` return null with no native call and no log line, once the connection is up. |
| ClientProperties.LoggedExactlyWhenLoggable | Client/PHPRedis.php:132-159 | A call produces a log line iff the command is not exempt, is not connect/pconnect, and the connection is or comes up. The line is the rendered command, marked as an error iff the call fails. An exempt command is never logged. |
| ClientProperties.CommandErrorIsReportedOnce | Client/PHPRedis.php:151-165 | An error left by the command is thrown with "Redis command failed: ", the native error is cleared, and a loggable command's line is marked as an error. Without an error, the reply is returned and the line is not marked. |
| ClientProperties.SecondCallDoesNotConnect | Client/PHPRedis.php:123-125 | After one successful call the client is connected, and the next call makes no connect attempt. |
| ClientProperties.LogEffectCounts | Logger/Logger.php:47-65 | One requested log line raises the counter by one and, with a PSR logger, appends exactly that record. No line changes nothing. Consistency is kept. |
| Logger.PsrCallFor | Logger/Logger.php:59-63 | A failed command is reported with `error`, any other with `debug`, naming the command. |
| Logger.Initial | Logger/Logger.php:20-25 | A fresh log (count 0, no records) is consistent with or without a PSR logger. |
| Logger.Logger.constructor | Logger/Logger.php:33-36 | A new logger is in the initial state and remembers whether it has a PSR logger. |
| Logger.Logger.LogCommand | Logger/Logger.php:47-65 | The counter always goes up by one. With a PSR logger, the record is appended and one `error`/`debug` call is made; without one, nothing else changes. The invariant is kept. |
| Logger.LoggedKeepsConsistent | Logger/Logger.php:47-65 | One `logCommand` keeps the state consistent, adds one to the counter, and appends exactly the given record (with a PSR logger) or none. |
| Logger.LoggedAllEffect | Logger/Logger.php:47-65 | After N calls the counter has grown by N. With a PSR logger the records are the logged ones in call order; without one there are none. |
| Logger.CountBoundsRecords | Logger/Logger.php:20-25 | The counter is never below the number of records, and equals it with a PSR logger. |
| Logger.Logger.GetNbCommands | Logger/Logger.php:73-76 | The counter, at least the number of records, and equal to it with a PSR logger. |
| Logger.Logger.GetCommands | Logger/Logger.php:84-87 | The records: as many as the counter with a PSR logger, none without one. |
| DataCollector.PHPRedisDataCollector.constructor | DataCollector/PHPRedisDataCollector.php:25-28 | Keeps the logger. Nothing is collected yet. |
| DataCollector.PHPRedisDataCollector.Collect | DataCollector/PHPRedisDataCollector.php:33-38 | The collected data is the logger's records at this moment. |
| DataCollector.PHPRedisDataCollector.GetCommands | DataCollector/PHPRedisDataCollector.php:45-48 | The collected records, or nothing before any `collect`. Their contents are fixed by `Collect`'s contract. |
| DataCollector.LoggingAfterCollect | DataCollector/PHPRedisDataCollector.php:33-38 | Logging after `collect` does not change the collected snapshot. |
| DataCollector.PHPRedisDataCollector.GetCommandCount | DataCollector/PHPRedisDataCollector.php:55-58 | The number of collected records, 0 before any `collect`. |
| DataCollector.PHPRedisDataCollector.GetTime | DataCollector/PHPRedisDataCollector.php:65-73 | The loop's total is `TotalMs` of the collected records. It is 0 before any `collect` and for no records. |
| DataCollector.TotalMsAppend | DataCollector/PHPRedisDataCollector.php:67-70 | The total of a concatenation is the sum of the totals. |
| DataCollector.TotalMsOrderIrrelevant | DataCollector/PHPRedisDataCollector.php:67-70 | Adding from the left or from the right gives the same total. |
| DataCollector.TotalMsBoundsEach | DataCollector/PHPRedisDataCollector.php:67-70 | With non-negative durations, the total is at least each single duration. |
| DataCollector.TotalMsNonNegative | DataCollector/PHPRedisDataCollector.php:67-70 | With non-negative durations, the total is non-negative. |
| DataCollector.PHPRedisDataCollector.GetName | DataCollector/PHPRedisDataCollector.php:78-81 | The collector's name is "phpredis". |
| PhpStrings.TrimIsSlice | Client/PHPRedis.php:246 | `trim` removes exactly the leading and trailing whitespace (space, tab, newline, carriage return, NUL, vertical tab) and keeps the middle. |
| PhpStrings.TrimIdempotent | Client/PHPRedis.php:246 | Trimming twice is trimming once. |
| PhpStrings.SplitJoin | Client/PHPRedis.php:182 | `explode` undoes `implode` on pieces that do not contain the separator. |
| PhpStrings.Cut | Client/PHPRedis.php:246 | `mb_substr($s, 0, n)` is the first n characters: the whole string when it is shorter, exactly n characters otherwise. |
| Native.ConnectCountAppend | Client/PHPRedis.php:196-200 | The number of connect attempts in a concatenated trace is the sum of the two counts. |

## Left out

- The roughly 180 one-line forwarding wrappers (`get`, `set`, …, Client/PHPRedis.php:253-1736) are not modelled. Each is `makeCall(<name>, args)`, and `MakeCall` covers them over any command name. The wrappers `_connect` uses (`auth`, `select`, `setOption`) are covered through `Dispatch`.
- The native `\Redis` extension is foreign code. Its `connect`, `getLastError`, `clearLastError` and `parent::<name>` are a scripted `Backend` value. An empty script means a failed connect or a null reply. The model assumes that a call reporting no error, a successful `connect` included, keeps the stored last error as it was (`RecordError`); what the native client really does there is not part of this model.
- The `InvalidArgumentException` that `makeCall` documents for an unknown command comes from the native dispatch and is not modelled.
- `microtime` is not modelled: the measured duration is an input of `MakeCall`. `_connect`'s internal calls pass 0.0, and those calls are never logged.
- `usleep(1000)` before the retry is not modelled, because it has no effect on the state.
- `$this->logger->err(...)` in `_connect` (Client/PHPRedis.php:223-225) is not modelled. It goes through `Logger::__call` to a method of the PSR logger, which the model cannot see, and it does not change the log's state.
- `Logger::__call` (Logger/Logger.php:98-103) forwards to the PSR logger dynamically and is not modelled.
- The PSR messages' text is not modelled. A PSR call is recorded only as `debug` or `error` plus the command.
- Unicode is not modelled: `strtoupper` is ASCII and `mb_substr` counts code points as characters. Scalar arguments are taken as already converted to strings, and arrays and objects as the one `Complex` argument.
- `timeout ?: 0` and a missing or null configuration key are not modelled. Parameters are a complete record, because the configuration tree fills in every key.
- PHP 8's `TypeError` from `count(null)` in `getCommandCount` before any `collect` is not modelled: the model follows PHP 7, where the count is 0.
- Floating-point rounding in `getTime` is not modelled: durations are reals.
- DependencyInjection/PHPRedisExtension.php is not part of this model, since it is container wiring. From DependencyInjection/Configuration.php only the defaults are used (`DefaultParameters`).
- The Symfony `DataCollector` base class and `collect`'s `Request`/`Response`/exception arguments are not modelled; they do not affect the data. The null check on the logger in `collect` is always true, so it is not modelled either.
- Concurrency is not modelled, because one instance is used from one execution context.
