/**
 * The profiler collector: `collect` takes a copy of the logger's records,
 * and the panel reads that copy back, counts it and sums its durations.
 */
module DataCollector {
  import Logger
  import opened Wrappers

  /** The sum of the durations, added from left to right as the `foreach`
      in `getTime` does. */
  function TotalMs(records: seq<Logger.CommandRecord>): real
    decreases |records|
  {
    if records == [] then 0.0
    else TotalMs(records[..|records| - 1]) + records[|records| - 1].executionMs
  }

  /** The same sum added from the right: the order of the additions does not
      change it. */
  function TotalMsFromRight(records: seq<Logger.CommandRecord>): real
    decreases |records|
  {
    if records == [] then 0.0 else records[0].executionMs + TotalMsFromRight(records[1..])
  }

  lemma {:induction false} TotalMsAppend(a: seq<Logger.CommandRecord>, b: seq<Logger.CommandRecord>)
    ensures TotalMs(a + b) == TotalMs(a) + TotalMs(b)
    decreases |b|
  {
    if b != [] {
      var b' := b[..|b| - 1];
      assert (a + b)[..|a + b| - 1] == a + b';
      TotalMsAppend(a, b');
    } else {
      assert a + b == a;
    }
  }

  lemma {:induction false} TotalMsOrderIrrelevant(records: seq<Logger.CommandRecord>)
    ensures TotalMs(records) == TotalMsFromRight(records)
    decreases |records|
  {
    if records != [] {
      TotalMsOrderIrrelevant(records[1..]);
      TotalMsAppend([records[0]], records[1..]);
      assert [records[0]] + records[1..] == records;
      assert [records[0]][..0] == [];
    }
  }

  /** With no negative duration the total is at least every single one. */
  lemma {:induction false} TotalMsBoundsEach(records: seq<Logger.CommandRecord>, k: nat)
    requires forall i :: 0 <= i < |records| ==> records[i].executionMs >= 0.0
    requires k < |records|
    ensures TotalMs(records) >= records[k].executionMs >= 0.0
    decreases |records|
  {
    var last := |records| - 1;
    if k < last {
      TotalMsBoundsEach(records[..last], k);
    } else {
      TotalMsNonNegative(records[..last]);
    }
  }

  lemma {:induction false} TotalMsNonNegative(records: seq<Logger.CommandRecord>)
    requires forall i :: 0 <= i < |records| ==> records[i].executionMs >= 0.0
    ensures TotalMs(records) >= 0.0
    decreases |records|
  {
    if records != [] {
      TotalMsNonNegative(records[..|records| - 1]);
    }
  }

  class PHPRedisDataCollector {
    const logger: Logger.Logger
    /** `$this->data['commands']`: absent until the first `collect`. */
    var data: Option<seq<Logger.CommandRecord>>

    constructor (logger: Logger.Logger)
      ensures this.logger == logger && data == None
    {
      this.logger := logger;
      data := None;
    }

    /** `collect(...)`: replaces whatever was collected before by a copy of the
        logger's records at this moment; a PHP array is a value, so later
        logging does not reach the copy. */
    method Collect()
      requires logger.Valid()
      modifies this`data
      ensures data == Some(logger.GetCommands())
    {
      data := Some(logger.GetCommands());
    }

    /** `getCommands()`: the collected records, null before any `collect`. */
    function GetCommands(): Option<seq<Logger.CommandRecord>>
      reads this
    {
      data
    }

    /** `getCommandCount()`: the number of collected records (`count(null)`
        is 0 before any `collect`). */
    function GetCommandCount(): (n: nat)
      reads this
      ensures data.Some? ==> n == |data.value|
      ensures data.None? ==> n == 0
    {
      if data.Some? then |data.value| else 0
    }

    /** `getTime()`: the durations of the collected records added up in
        order; 0 for an empty list and before any `collect`. */
    method GetTime() returns (time: real)
      ensures data.Some? ==> time == TotalMs(data.value)
      ensures data.None? || data.value == [] ==> time == 0.0
    {
      time := 0.0;
      if data.None? {
        return;
      }
      var commands := data.value;
      var i := 0;
      while i < |commands|
        invariant 0 <= i <= |commands|
        invariant time == TotalMs(commands[..i])
      {
        assert commands[..i + 1][..i] == commands[..i];
        time := time + commands[i].executionMs;
        i := i + 1;
      }
      assert commands[..i] == commands;
    }

    /** `getName()`. */
    function GetName(): (name: string)
      ensures name == "phpredis"
    {
      "phpredis"
    }
  }

  /** Logging after `collect` leaves the collected snapshot as it was. */
  method LoggingAfterCollect(c: PHPRedisDataCollector, command: string, duration: real, connection: string, error: bool)
    requires c.logger.Valid()
    modifies c, c.logger
    ensures c.GetCommands() == Some(old(c.logger.GetCommands()))
    ensures c.logger.Valid()
  {
    c.Collect();
    c.logger.LogCommand(command, duration, connection, error);
  }
}
