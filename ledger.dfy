/** The ledger submitter (`IoTBlockchainConnector`): how one status update is
    turned into an external command and its exit status into a boolean, and
    how the consumer loop drains the queue with at most one retry per event.
    The external command itself is an oracle: the outcome of the `n`-th
    update call (0-based) running a given argument vector. */
module Ledger {
  import opened Wrappers
  import opened Records
  import opened EventQueue

  /** What running the external command produced: an exit status, or an
      exception (timeout, missing executable, any other failure). */
  datatype RunOutcome = Exited(returnCode: int) | Raised

  type LedgerOracle = (seq<string>, nat) -> RunOutcome

  const ChaincodeName: string := "parking"

  /** The three chaincode arguments of one status update. */
  datatype UpdateArgs = UpdateArgs(slotId: string, occupied: bool, location: string)

  function OccupiedString(occupied: bool): string {
    if occupied then "true" else "false"
  }

  const ParamPrefix: string := "\"UpdateStatus\",\""
  const ParamSeparator: string := "\",\""

  /** The quoted occupancy field with the separators around it. */
  function OccupiedField(occupied: bool): string {
    ParamSeparator + OccupiedString(occupied) + ParamSeparator
  }

  /** The `-p` value `"UpdateStatus","<slot>","true|false","<location>"`. */
  function ParamString(a: UpdateArgs): string {
    ParamPrefix + (a.slotId + (OccupiedField(a.occupied) + (a.location + "\"")))
  }

  predicate StartsWith(s: string, p: string) {
    |p| <= |s| && s[..|p|] == p
  }

  /** The index of the first double quote in `s`, or `|s|` if there is none. */
  function QuoteIndex(s: string): (k: nat)
    ensures k <= |s|
    ensures forall i | 0 <= i < k :: s[i] != '"'
    ensures k < |s| ==> s[k] == '"'
  {
    if s == [] then 0 else if s[0] == '"' then 0 else 1 + QuoteIndex(s[1..])
  }

  /** Reads a parameter string back into its arguments; the inverse of
      `ParamString` on arguments free of double quotes. */
  function ParseParams(p: string): Option<UpdateArgs> {
    if !StartsWith(p, ParamPrefix) then None
    else
      var rest := p[|ParamPrefix|..];
      var k := QuoteIndex(rest);
      ParseOccupied(rest[..k], rest[k..])
  }

  /** The occupancy field after the slot, then the location. */
  function ParseOccupied(slotId: string, tail: string): Option<UpdateArgs> {
    if StartsWith(tail, OccupiedField(true)) then ParseLocation(slotId, true, tail[|OccupiedField(true)|..])
    else if StartsWith(tail, OccupiedField(false)) then ParseLocation(slotId, false, tail[|OccupiedField(false)|..])
    else None
  }

  /** The location: everything up to the closing quote, which ends the string. */
  function ParseLocation(slotId: string, occupied: bool, last: string): Option<UpdateArgs> {
    if last == [] || last[|last| - 1] != '"' || '"' in last[..|last| - 1] then None
    else Some(UpdateArgs(slotId, occupied, last[..|last| - 1]))
  }

  predicate QuoteFree(a: UpdateArgs) {
    '"' !in a.slotId && '"' !in a.location
  }

  lemma StartsWithAppend(a: string, b: string)
    ensures StartsWith(a + b, a) && (a + b)[|a|..] == b
  {
    assert (a + b)[..|a|] == a;
  }

  lemma {:induction false} QuoteIndexAppend(x: string, y: string)
    requires '"' !in x && y != [] && y[0] == '"'
    ensures QuoteIndex(x + y) == |x|
  {
    if x != [] {
      assert (x + y)[0] == x[0] && (x + y)[1..] == x[1..] + y;
      QuoteIndexAppend(x[1..], y);
    }
  }

  lemma ParseLocationRoundTrip(slotId: string, occupied: bool, location: string)
    requires '"' !in location
    ensures ParseLocation(slotId, occupied, location + "\"") == Some(UpdateArgs(slotId, occupied, location))
  {
    var last := location + "\"";
    assert last[..|last| - 1] == location;
  }

  lemma ParseOccupiedRoundTrip(slotId: string, occupied: bool, last: string)
    ensures ParseOccupied(slotId, OccupiedField(occupied) + last) == ParseLocation(slotId, occupied, last)
  {
    var tail := OccupiedField(occupied) + last;
    StartsWithAppend(OccupiedField(occupied), last);
    if !occupied {
      assert tail[3] == 'f' && OccupiedField(true)[3] == 't';
      assert !StartsWith(tail, OccupiedField(true));
    }
  }

  /** The parameter string determines the update exactly: parsing it gives
      back the slot, the occupancy flag and the location. */
  lemma ParamStringRoundTrip(a: UpdateArgs)
    requires QuoteFree(a)
    ensures ParseParams(ParamString(a)) == Some(a)
  {
    var last := a.location + "\"";
    var tail := OccupiedField(a.occupied) + last;
    var rest := a.slotId + tail;
    StartsWithAppend(ParamPrefix, rest);
    QuoteIndexAppend(a.slotId, tail);
    StartsWithAppend(a.slotId, tail);
    assert rest[..|a.slotId|] == a.slotId;
    ParseOccupiedRoundTrip(a.slotId, a.occupied, last);
    ParseLocationRoundTrip(a.slotId, a.occupied, a.location);
  }

  lemma ParseLocationComplete(slotId: string, occupied: bool, last: string)
    requires ParseLocation(slotId, occupied, last).Some?
    ensures var a := ParseLocation(slotId, occupied, last).value;
      a.slotId == slotId && a.occupied == occupied && '"' !in a.location && last == a.location + "\""
  {
    assert last == last[..|last| - 1] + [last[|last| - 1]];
  }

  lemma ParseOccupiedComplete(slotId: string, tail: string)
    requires ParseOccupied(slotId, tail).Some?
    ensures var a := ParseOccupied(slotId, tail).value;
      a.slotId == slotId && '"' !in a.location
      && tail == OccupiedField(a.occupied) + (a.location + "\"")
  {
    var occupied := StartsWith(tail, OccupiedField(true));
    var field := OccupiedField(occupied);
    assert StartsWith(tail, field);
    var last := tail[|field|..];
    assert tail == field + last;
    ParseLocationComplete(slotId, occupied, last);
  }

  /** Conversely, every string the parser accepts is the parameter string of
      the arguments it yields. */
  lemma ParamStringComplete(p: string)
    requires ParseParams(p).Some?
    ensures var a := ParseParams(p).value; QuoteFree(a) && ParamString(a) == p
  {
    var rest := p[|ParamPrefix|..];
    assert p == ParamPrefix + rest;
    var k := QuoteIndex(rest);
    var slotId, tail := rest[..k], rest[k..];
    assert rest == slotId + tail;
    ParseOccupiedComplete(slotId, tail);
    assert '"' !in slotId by {
      forall i | 0 <= i < |slotId| ensures slotId[i] != '"' {
        assert slotId[i] == rest[i];
      }
    }
  }

  /** The argument vector `minifab_cmd + ["invoke", "-n", chaincode, "-p", param]`. */
  function LedgerCommand(minifabCmd: seq<string>, chaincodeName: string, param: string): (argv: seq<string>)
    ensures |argv| == |minifabCmd| + 5 && argv[..|minifabCmd|] == minifabCmd
    ensures argv[|minifabCmd|] == "invoke" && argv[|argv| - 1] == param
  {
    minifabCmd + ["invoke", "-n", chaincodeName, "-p", param]
  }

  /** The command an update runs, or `None` when no ledger command was
      detected (concatenating onto `None` raises before anything runs). */
  function Invocation(minifabCmd: Option<seq<string>>, chaincodeName: string, a: UpdateArgs): Option<seq<string>> {
    match minifabCmd
    case None => None
    case Some(prefix) => Some(LedgerCommand(prefix, chaincodeName, ParamString(a)))
  }

  /** `update_blockchain`'s result when it is the `n`-th update call: true
      exactly when a command ran and exited with status 0. */
  function UpdateSucceeds(minifabCmd: Option<seq<string>>, chaincodeName: string, a: UpdateArgs,
                          ledger: LedgerOracle, n: nat): (ok: bool)
    ensures ok ==> minifabCmd.Some?
    ensures minifabCmd.Some? ==>
      (ok <==> ledger(LedgerCommand(minifabCmd.value, chaincodeName, ParamString(a)), n) == Exited(0))
  {
    match Invocation(minifabCmd, chaincodeName, a)
    case None => false
    case Some(argv) => ledger(argv, n) == Exited(0)
  }

  function EventArgs(e: ParkingEvent): UpdateArgs {
    UpdateArgs(e.slotId, e.occupied, e.location)
  }

  /** One call of `update_blockchain`: its arguments and its result. */
  datatype Attempt = Attempt(args: UpdateArgs, ok: bool)

  /** The update calls the consumer makes for one dequeued event, the first
      being the `n`-th update call overall: one call, and a second only when
      the first failed; the second result is not acted upon. */
  function DeliverEvent(e: ParkingEvent, minifabCmd: Option<seq<string>>, chaincodeName: string,
                        ledger: LedgerOracle, n: nat): (r: seq<Attempt>)
    ensures 1 <= |r| <= 2
    ensures |r| == 2 <==> !r[0].ok
    ensures forall i | 0 <= i < |r| :: r[i].args == EventArgs(e)
  {
    var first := UpdateSucceeds(minifabCmd, chaincodeName, EventArgs(e), ledger, n);
    if first then [Attempt(EventArgs(e), true)]
    else [Attempt(EventArgs(e), false),
          Attempt(EventArgs(e), UpdateSucceeds(minifabCmd, chaincodeName, EventArgs(e), ledger, n + 1))]
  }

  /** The update calls for a sequence of events delivered in order; the
      calls for each event are numbered after those of the events before it. */
  function Deliveries(events: seq<ParkingEvent>, minifabCmd: Option<seq<string>>, chaincodeName: string,
                      ledger: LedgerOracle, n: nat): (r: seq<Attempt>)
    ensures |events| <= |r| <= 2 * |events|
  {
    if events == [] then []
    else
      var m := |events| - 1;
      var prior := Deliveries(events[..m], minifabCmd, chaincodeName, ledger, n);
      prior + DeliverEvent(events[m], minifabCmd, chaincodeName, ledger, n + |prior|)
  }

  /** A ledger that always fails, or no ledger command at all: every event
      costs exactly two calls and all of them fail. */
  lemma {:induction false} DeliveriesAlwaysFailing(events: seq<ParkingEvent>, minifabCmd: Option<seq<string>>,
                                                   chaincodeName: string, ledger: LedgerOracle, n: nat)
    requires minifabCmd.None? || forall argv, k :: ledger(argv, k) != Exited(0)
    ensures var r := Deliveries(events, minifabCmd, chaincodeName, ledger, n);
      |r| == 2 * |events| && forall a | a in r :: !a.ok
  {
    if events != [] {
      DeliveriesAlwaysFailing(events[..|events| - 1], minifabCmd, chaincodeName, ledger, n);
    }
  }

  /** A ledger that always succeeds: one call per event, in queue order, each
      successful. */
  lemma {:induction false} DeliveriesAlwaysSucceeding(events: seq<ParkingEvent>, prefix: seq<string>,
                                                      chaincodeName: string, ledger: LedgerOracle, n: nat)
    requires forall argv, k :: ledger(argv, k) == Exited(0)
    ensures var r := Deliveries(events, Some(prefix), chaincodeName, ledger, n);
      |r| == |events| && forall i | 0 <= i < |r| :: r[i] == Attempt(EventArgs(events[i]), true)
  {
    if events != [] {
      var m := |events| - 1;
      DeliveriesAlwaysSucceeding(events[..m], prefix, chaincodeName, ledger, n);
    }
  }

  /** A ledger that fails the first call for an event and accepts the retry:
      exactly two calls, the second one successful. */
  lemma FailThenSucceed(e: ParkingEvent, prefix: seq<string>, chaincodeName: string, ledger: LedgerOracle, n: nat)
    requires var argv := LedgerCommand(prefix, chaincodeName, ParamString(EventArgs(e)));
      ledger(argv, n) != Exited(0) && ledger(argv, n + 1) == Exited(0)
    ensures DeliverEvent(e, Some(prefix), chaincodeName, ledger, n)
         == [Attempt(EventArgs(e), false), Attempt(EventArgs(e), true)]
  {
  }

  /** The connector: the detected ledger command, the queue, the run flag the
      driver clears to stop the consumer, and the record of every update call
      (each call writes one success or failure line to the log). */
  class IoTBlockchainConnector {
    const minifabPath: string
    const chaincodeName: string
    const minifabCmd: Option<seq<string>>
    const transactionQueue: TransactionQueue
    var isRunning: bool
    var attempts: seq<Attempt>

    ghost predicate Valid()
      reads this, transactionQueue
    {
      transactionQueue.Balanced()
    }

    /** `minifabCmd` is what command detection found; detection itself probes
        the file system and is not modelled. */
    constructor (minifabPath: string, minifabCmd: Option<seq<string>>)
      ensures Valid() && fresh(transactionQueue)
      ensures this.minifabPath == minifabPath && this.minifabCmd == minifabCmd
      ensures chaincodeName == ChaincodeName
      ensures transactionQueue.items == [] && transactionQueue.unfinishedTasks == 0
      ensures !isRunning && attempts == []
    {
      this.minifabPath := minifabPath;
      this.chaincodeName := ChaincodeName;
      this.minifabCmd := minifabCmd;
      transactionQueue := new TransactionQueue();
      isRunning := false;
      attempts := [];
    }

    /** `update_blockchain`: build the command, run it, report success iff
        it exited with status 0; any exception counts as failure. */
    method UpdateBlockchain(slotId: string, occupied: bool, location: string, ledger: LedgerOracle)
      returns (ok: bool)
      modifies this`attempts
      ensures ok == UpdateSucceeds(minifabCmd, chaincodeName, UpdateArgs(slotId, occupied, location),
                                   ledger, |old(attempts)|)
      ensures attempts == old(attempts) + [Attempt(UpdateArgs(slotId, occupied, location), ok)]
    {
      var n := |attempts|;
      match minifabCmd {
        case None =>
          ok := false;
        case Some(prefix) =>
          var param := ParamString(UpdateArgs(slotId, occupied, location));
          var cmd := LedgerCommand(prefix, chaincodeName, param);
          var result := ledger(cmd, n);
          ok := result.Exited? && result.returnCode == 0;
      }
      attempts := attempts + [Attempt(UpdateArgs(slotId, occupied, location), ok)];
    }

    /** The body of one consumer round for a dequeued event: one update call,
        and after a failure exactly one more whose result is ignored. */
    method SubmitWithRetry(event: ParkingEvent, ledger: LedgerOracle)
      modifies this`attempts
      ensures attempts == old(attempts) + DeliverEvent(event, minifabCmd, chaincodeName, ledger, |old(attempts)|)
    {
      var success := UpdateBlockchain(event.slotId, event.occupied, event.location, ledger);
      if !success {
        var _ := UpdateBlockchain(event.slotId, event.occupied, event.location, ledger);
      }
    }

    /** One round of the consumer on a non-empty queue: take the head, submit
        it with one retry, call `task_done`. On an empty queue `get` times
        out and nothing changes. */
    method ConsumeOne(ledger: LedgerOracle) returns (took: bool)
      requires Valid()
      modifies this`attempts, transactionQueue
      ensures Valid()
      ensures took <==> old(transactionQueue.items) != []
      ensures took ==> (
        && transactionQueue.items == old(transactionQueue.items)[1..]
        && transactionQueue.unfinishedTasks == old(transactionQueue.unfinishedTasks) - 1
        && attempts == old(attempts) + DeliverEvent(old(transactionQueue.items)[0], minifabCmd,
                                                    chaincodeName, ledger, |old(attempts)|))
      ensures !took ==> (
        && transactionQueue.items == old(transactionQueue.items)
        && transactionQueue.unfinishedTasks == old(transactionQueue.unfinishedTasks)
        && attempts == old(attempts))
    {
      var next := transactionQueue.Get();
      took := next.Some?;
      if took {
        SubmitWithRetry(next.value, ledger);
        var _ := transactionQueue.TaskDone();
      }
    }

    /** The consumer has delivered the first `k` events of `queued`, the
        queue contents it started from. */
    ghost predicate Drained(queued: seq<ParkingEvent>, log0: seq<Attempt>, unfinished0: nat,
                            ledger: LedgerOracle, k: nat)
      reads this, transactionQueue
    {
      && k <= |queued|
      && Valid()
      && transactionQueue.items == queued[k..]
      && transactionQueue.unfinishedTasks == unfinished0 - k
      && attempts == log0 + Deliveries(queued[..k], minifabCmd, chaincodeName, ledger, |log0|)
    }

    /** One consumer round, in terms of the events delivered so far. */
    method ConsumeRound(ghost queued: seq<ParkingEvent>, ghost log0: seq<Attempt>, ghost unfinished0: nat,
                        ledger: LedgerOracle, ghost k: nat)
      returns (took: bool)
      requires Drained(queued, log0, unfinished0, ledger, k)
      modifies this`attempts, transactionQueue
      ensures took <==> k < |queued|
      ensures took ==> Drained(queued, log0, unfinished0, ledger, k + 1)
      ensures !took ==> Drained(queued, log0, unfinished0, ledger, k)
    {
      took := ConsumeOne(ledger);
      if took {
        DeliveriesExtend(log0, queued, k, minifabCmd, chaincodeName, ledger);
        assert queued[k..][0] == queued[k];
        assert queued[k..][1..] == queued[k + 1..];
      }
    }

    /** `process_transaction_queue`, the consumer loop. The other thread
        clears `is_running` once the loop has gone round `stopAfter` times.
        Each round takes the head of the queue, if any, makes one update call
        and a second only if the first failed, and calls `task_done`; an
        event is never put back. An empty queue only costs the round. */
    method ProcessTransactionQueue(ledger: LedgerOracle, stopAfter: nat)
      requires Valid()
      modifies this, transactionQueue
      ensures Valid() && !isRunning
      ensures var k := if old(isRunning) then Min(stopAfter, |old(transactionQueue.items)|) else 0;
        && transactionQueue.items == old(transactionQueue.items)[k..]
        && transactionQueue.unfinishedTasks == old(transactionQueue.unfinishedTasks) - k
        && attempts == old(attempts) + Deliveries(old(transactionQueue.items)[..k], minifabCmd,
                                                  chaincodeName, ledger, |old(attempts)|)
    {
      ghost var queued := transactionQueue.items;
      ghost var log0 := attempts;
      ghost var unfinished0 := transactionQueue.unfinishedTasks;
      ghost var running0 := isRunning;
      ghost var k := 0;
      var rounds := 0;
      assert log0 + [] == log0 && queued[..0] == [] && queued[0..] == queued;
      while isRunning
        invariant rounds <= stopAfter
        invariant !running0 ==> !isRunning
        invariant running0 && !isRunning ==> rounds == stopAfter
        invariant k == (if running0 then Min(rounds, |queued|) else 0)
        invariant Drained(queued, log0, unfinished0, ledger, k)
        decreases stopAfter - rounds + (if isRunning then 1 else 0)
      {
        if rounds == stopAfter {
          isRunning := false;
        } else {
          var took := ConsumeRound(queued, log0, unfinished0, ledger, k);
          if took {
            k := k + 1;
          }
          rounds := rounds + 1;
        }
      }
    }
  }

  /** Delivering one more event of a queue adds that event's calls at the end. */
  lemma DeliveriesSnoc(events: seq<ParkingEvent>, k: nat, minifabCmd: Option<seq<string>>,
                       chaincodeName: string, ledger: LedgerOracle, n: nat)
    requires k < |events|
    ensures var done := Deliveries(events[..k], minifabCmd, chaincodeName, ledger, n);
      Deliveries(events[..k + 1], minifabCmd, chaincodeName, ledger, n)
        == done + DeliverEvent(events[k], minifabCmd, chaincodeName, ledger, n + |done|)
  {
    var prefix := events[..k + 1];
    assert prefix[..k] == events[..k];
    assert prefix[k] == events[k];
  }

  /** The log after the consumer delivers the `k`-th event of `events`,
      starting from the log for the events before it. */
  lemma DeliveriesExtend(log: seq<Attempt>, events: seq<ParkingEvent>, k: nat, minifabCmd: Option<seq<string>>,
                         chaincodeName: string, ledger: LedgerOracle)
    requires k < |events|
    ensures var before := log + Deliveries(events[..k], minifabCmd, chaincodeName, ledger, |log|);
      before + DeliverEvent(events[k], minifabCmd, chaincodeName, ledger, |before|)
        == log + Deliveries(events[..k + 1], minifabCmd, chaincodeName, ledger, |log|)
  {
    var done := Deliveries(events[..k], minifabCmd, chaincodeName, ledger, |log|);
    var step := DeliverEvent(events[k], minifabCmd, chaincodeName, ledger, |log| + |done|);
    assert DeliverEvent(events[k], minifabCmd, chaincodeName, ledger, |log + done|) == step;
    DeliveriesSnoc(events, k, minifabCmd, chaincodeName, ledger, |log|);
    AppendAssoc(log, done, step);
  }

  function Min(a: nat, b: nat): nat {
    if a <= b then a else b
  }
}
