/**
 * The bundle's command log: a counter of every logged command and, when a
 * PSR logger was given at construction, the list of command records plus
 * one `debug` or `error` call on that PSR logger per record.
 */
module Logger {

  /** One entry of the log: `['cmd', 'executionMS', 'conn', 'error']`. */
  datatype CommandRecord = CommandRecord(cmd: string, executionMs: real, conn: string, error: bool)

  /** A call made on the PSR logger (its message text is not modelled). */
  datatype PsrCall = Debug(command: string) | Error(command: string)

  function PsrCallFor(r: CommandRecord): (c: PsrCall)
    ensures c.command == r.cmd
    ensures c.Error? <==> r.error
  {
    if r.error then Error(r.cmd) else Debug(r.cmd)
  }

  /** The observable state of a logger. */
  datatype LogState = LogState(count: nat, commands: seq<CommandRecord>, psrCalls: seq<PsrCall>)

  /** What every reachable state satisfies: with a PSR logger each logged
      command left exactly one record, without one no record is ever kept;
      each record was reported to the PSR logger, in the same order. */
  predicate Consistent(s: LogState, hasPsr: bool) {
    && (if hasPsr then s.count == |s.commands| else s.commands == [])
    && |s.psrCalls| == |s.commands|
    && forall i :: 0 <= i < |s.commands| ==> s.psrCalls[i] == PsrCallFor(s.commands[i])
  }

  /** A fresh logger: `$commandCount = 0`, `$commands = array()`. */
  function Initial(): (s: LogState)
    ensures forall hasPsr: bool :: Consistent(s, hasPsr)
  {
    LogState(0, [], [])
  }

  /** The effect of one `logCommand`. */
  function Logged(s: LogState, hasPsr: bool, r: CommandRecord): LogState {
    LogState(
      s.count + 1,
      if hasPsr then s.commands + [r] else s.commands,
      if hasPsr then s.psrCalls + [PsrCallFor(r)] else s.psrCalls)
  }

  /** The counter never falls behind the stored records. */
  lemma CountBoundsRecords(s: LogState, hasPsr: bool)
    requires Consistent(s, hasPsr)
    ensures s.count >= |s.commands|
    ensures hasPsr ==> s.count == |s.commands|
  {
  }

  /** One `logCommand` keeps a consistent state consistent, adds exactly one
      to the counter, and, with a PSR logger, appends exactly the given
      record at the end and leaves the earlier ones as they were. */
  lemma LoggedKeepsConsistent(s: LogState, hasPsr: bool, r: CommandRecord)
    requires Consistent(s, hasPsr)
    ensures Consistent(Logged(s, hasPsr, r), hasPsr)
    ensures Logged(s, hasPsr, r).count == s.count + 1
    ensures hasPsr ==> Logged(s, hasPsr, r).commands == s.commands + [r]
    ensures !hasPsr ==> Logged(s, hasPsr, r).commands == s.commands
  {
  }

  /** The effect of logging the records `rs` one after the other. */
  function LoggedAll(s: LogState, hasPsr: bool, rs: seq<CommandRecord>): LogState
    decreases |rs|
  {
    if rs == [] then s else LoggedAll(Logged(s, hasPsr, rs[0]), hasPsr, rs[1..])
  }

  /** After N commands have been logged the counter has grown by N and, with
      a PSR logger, the records are exactly the logged ones in call order. */
  lemma {:induction false} LoggedAllEffect(s: LogState, hasPsr: bool, rs: seq<CommandRecord>)
    requires Consistent(s, hasPsr)
    ensures Consistent(LoggedAll(s, hasPsr, rs), hasPsr)
    ensures LoggedAll(s, hasPsr, rs).count == s.count + |rs|
    ensures LoggedAll(s, hasPsr, rs).commands == s.commands + (if hasPsr then rs else [])
    decreases |rs|
  {
    if rs != [] {
      LoggedKeepsConsistent(s, hasPsr, rs[0]);
      LoggedAllEffect(Logged(s, hasPsr, rs[0]), hasPsr, rs[1..]);
      assert [rs[0]] + rs[1..] == rs;
      assert s.commands + [rs[0]] + rs[1..] == s.commands + rs;
    }
  }

  class Logger {
    /** Whether a PSR logger was passed to the constructor. */
    const hasPsrLogger: bool
    var commandCount: nat
    var commands: seq<CommandRecord>
    /** The calls made on the PSR logger so far. */
    var psrCalls: seq<PsrCall>

    function State(): LogState
      reads this
    {
      LogState(commandCount, commands, psrCalls)
    }

    ghost predicate Valid()
      reads this
    {
      Consistent(State(), hasPsrLogger)
    }

    constructor (hasPsrLogger: bool)
      ensures Valid()
      ensures this.hasPsrLogger == hasPsrLogger
      ensures State() == Initial()
    {
      this.hasPsrLogger := hasPsrLogger;
      commandCount := 0;
      commands := [];
      psrCalls := [];
    }

    /** `logCommand($command, $duration, $connection, $error)`. */
    method LogCommand(command: string, duration: real, connection: string, error: bool)
      requires Valid()
      modifies this
      ensures Valid()
      ensures State() == Logged(old(State()), hasPsrLogger, CommandRecord(command, duration, connection, error))
    {
      commandCount := commandCount + 1;
      if hasPsrLogger {
        commands := commands + [CommandRecord(command, duration, connection, error)];
        if error {
          psrCalls := psrCalls + [Error(command)];
        } else {
          psrCalls := psrCalls + [Debug(command)];
        }
      }
    }

    /** `getNbCommands()`: the counter, never less than the number of stored
        records and equal to it when a PSR logger is present. */
    function GetNbCommands(): (n: nat)
      reads this
      requires Valid()
      ensures n >= |commands|
      ensures hasPsrLogger ==> n == |commands|
    {
      commandCount
    }

    /** `getCommands()`: the records in insertion order; always empty without
        a PSR logger. */
    function GetCommands(): (r: seq<CommandRecord>)
      reads this
      requires Valid()
      ensures hasPsrLogger ==> |r| == commandCount
      ensures !hasPsrLogger ==> r == []
    {
      commands
    }
  }
}
