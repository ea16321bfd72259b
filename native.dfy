/**
 * The native `\Redis` client that `PHPRedis` extends, reduced to what the
 * proxy observes of it: a connect call that succeeds or fails, command
 * execution that yields a value, and a last-error string that persists
 * until `clearLastError` resets it. Its behaviour is scripted: the outcome
 * of each connect attempt and the reply to each executed command are taken
 * in order from two queues, and every call is appended to a trace so that
 * properties can speak about what was sent to the server.
 */
module Native {
  import opened PhpStrings

  /** A command reply, treated as opaque except for PHP truthiness. */
  datatype Value = Null | Bool(b: bool) | Int(i: int) | Str(s: string) | List(items: seq<Value>)

  /** PHP's conversion of a reply to bool. */
  predicate IsTrue(v: Value) {
    match v
    case Null => false
    case Bool(b) => b
    case Int(i) => i != 0
    case Str(s) => PhpStrings.Truthy(s)
    case List(items) => |items| > 0
  }

  /** A command argument: a scalar already converted to its string form, or
      anything else (array, object). */
  datatype Arg = Scalar(text: string) | Complex

  /** The scripted result of one connect attempt, with the error text it
      leaves behind ("" for none). */
  datatype ConnectOutcome = ConnectOutcome(ok: bool, error: string)

  /** The scripted reply to one executed command, with its error text. */
  datatype Reply = Reply(value: Value, error: string)

  datatype Call =
    | ConnectCall(host: string, port: int, timeout: int)
    | CommandCall(name: string, args: seq<Arg>)

  datatype Backend = Backend(
    connects: seq<ConnectOutcome>,
    replies: seq<Reply>,
    lastError: string,
    trace: seq<Call>)

  datatype Connected = Connected(ok: bool, backend: Backend)
  datatype Executed = Executed(value: Value, backend: Backend)

  /** A reported error replaces the stored one; no error keeps it. */
  function RecordError(stored: string, reported: string): string {
    if reported == "" then stored else reported
  }

  /** `connect($host, $port, $timeout)`. Past the end of the script every
      attempt fails without an error text. */
  function AttemptConnect(b: Backend, host: string, port: int, timeout: int): Connected {
    var o := if |b.connects| > 0 then b.connects[0] else ConnectOutcome(false, "");
    Connected(o.ok, b.(
      connects := if |b.connects| > 0 then b.connects[1..] else [],
      lastError := RecordError(b.lastError, o.error),
      trace := b.trace + [ConnectCall(host, port, timeout)]))
  }

  /** `parent::<name>(...$args)`. Past the end of the script every command
      replies null without an error text. */
  function Execute(b: Backend, name: string, args: seq<Arg>): Executed {
    var o := if |b.replies| > 0 then b.replies[0] else Reply(Null, "");
    Executed(o.value, b.(
      replies := if |b.replies| > 0 then b.replies[1..] else [],
      lastError := RecordError(b.lastError, o.error),
      trace := b.trace + [CommandCall(name, args)]))
  }

  /** `clearLastError()`. */
  function ClearLastError(b: Backend): Backend {
    b.(lastError := "")
  }

  /** How many connect attempts a trace holds. */
  function ConnectCount(t: seq<Call>): nat {
    if t == [] then 0
    else ConnectCount(t[..|t| - 1]) + (if t[|t| - 1].ConnectCall? then 1 else 0)
  }

  lemma {:induction false} ConnectCountAppend(t: seq<Call>, u: seq<Call>)
    ensures ConnectCount(t + u) == ConnectCount(t) + ConnectCount(u)
    decreases |u|
  {
    if u == [] {
      assert t + u == t;
    } else {
      var u' := u[..|u| - 1];
      assert (t + u)[..|t + u| - 1] == t + u';
      ConnectCountAppend(t, u');
    }
  }
}
