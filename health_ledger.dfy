/**
 * What the client sees of the session ledger: the `sessions(id)` record,
 * `nextSessionId`, the indexed `SessionCreated(sessionId)` event and the
 * logs of a transaction receipt.
 */
module HealthLedger {
  import opened Wrappers
  import opened Addresses

  /** A ciphertext handle (a `bytes32`) as the hex string ethers returns. */
  type Handle = string

  const ZeroHandle: Handle := "0x0000000000000000000000000000000000000000000000000000000000000000"

  /**
   * The outputs of `sessions(uint256)`, in ABI order. The ABI's `exists`
   * flag is called `present` here, `exists` being a Dafny keyword.
   */
  datatype SessionRecord = SessionRecord(
    user: string,
    present: bool,
    weight: Handle,
    height: Handle,
    exercise: Handle,
    diet: Handle,
    result: Handle,
    resultReady: bool)

  /** The record a read of an id that was never allocated yields: all fields zero. */
  const EmptySession: SessionRecord :=
    SessionRecord(ZeroAddress, false, ZeroHandle, ZeroHandle, ZeroHandle, ZeroHandle, ZeroHandle, false)

  /**
   * A snapshot of the ledger as one scan sees it. `slots[i] == Failure(m)`
   * means that the read of `sessions(i)` throws with message `m`; ids at or past `|slots|` read as
   * the empty record. `creationStamps[i]` is the timestamp of the block
   * holding the `SessionCreated(i)` event, when the event lookup succeeds.
   */
  datatype Ledger = Ledger(
    nextSessionId: nat,
    slots: seq<Result<SessionRecord, string>>,
    creationStamps: map<nat, nat>)

  /** `sessions(id)`: `None` when the read throws. */
  function ReadSession(ledger: Ledger, id: nat): Option<SessionRecord> {
    if id >= |ledger.slots| then Some(EmptySession)
    else if ledger.slots[id].Success? then Some(ledger.slots[id].value)
    else None
  }

  /** The message of a `sessions(id)` read that throws. */
  function ReadError(ledger: Ledger, id: nat): string
    requires ReadSession(ledger, id).None?
  {
    ledger.slots[id].error
  }

  /** `block?.timestamp` is falsy for a missing block and for timestamp 0. */
  function Stamp(timestamp: nat): Option<nat> {
    if timestamp == 0 then None else Some(timestamp)
  }

  /** The `createdAt` the discovery scan finds for an id; absent when the lookup fails or finds nothing. */
  function CreationStamp(ledger: Ledger, id: nat): Option<nat> {
    if id in ledger.creationStamps then Stamp(ledger.creationStamps[id]) else None
  }

  /** Name of the creation event in the ledger contract's ABI. */
  const SessionCreatedEvent: string := "SessionCreated"

  /**
   * A receipt log as the health contract's interface parses it:
   * `Unrecognised` where `parseLog` returns null, `Malformed` where it
   * throws, otherwise the event name and its first argument.
   */
  datatype LogEntry = Unrecognised | Malformed | Decoded(name: string, arg0: nat)

  predicate IsCreation(e: LogEntry) {
    e.Decoded? && e.name == SessionCreatedEvent
  }

  /** The argument of the first `SessionCreated` log, if any. */
  function FirstCreationId(logs: seq<LogEntry>): Option<nat> {
    if logs == [] then None
    else if IsCreation(logs[0]) then Some(logs[0].arg0)
    else FirstCreationId(logs[1..])
  }

  /** `k` is the position of the first creation log. */
  predicate FirstCreationAt(logs: seq<LogEntry>, k: int) {
    0 <= k < |logs| && IsCreation(logs[k]) && forall j :: 0 <= j < k ==> !IsCreation(logs[j])
  }

  /**
   * `FirstCreationId` finds nothing exactly when no log is a creation, and
   * otherwise returns the argument of the earliest one.
   */
  lemma {:induction false} FirstCreationIdSpec(logs: seq<LogEntry>)
    ensures FirstCreationId(logs).None? <==> forall k :: 0 <= k < |logs| ==> !IsCreation(logs[k])
    ensures FirstCreationId(logs).Some? ==>
      exists k :: FirstCreationAt(logs, k) && logs[k].arg0 == FirstCreationId(logs).value
  {
    if logs != [] && !IsCreation(logs[0]) {
      FirstCreationIdSpec(logs[1..]);
      if FirstCreationId(logs[1..]).Some? {
        var k :| FirstCreationAt(logs[1..], k) && logs[1..][k].arg0 == FirstCreationId(logs[1..]).value;
        assert FirstCreationAt(logs, k + 1);
      } else {
        forall k | 0 <= k < |logs| ensures !IsCreation(logs[k]) {
          if k > 0 { assert logs[k] == logs[1..][k - 1]; }
        }
      }
    } else if logs != [] {
      assert FirstCreationAt(logs, 0);
    }
  }

  /** Logs after the first creation log do not change the recovered id. */
  lemma {:induction false} LaterLogsIgnored(logs: seq<LogEntry>, more: seq<LogEntry>)
    requires FirstCreationId(logs).Some?
    ensures FirstCreationId(logs + more) == FirstCreationId(logs)
  {
    if !IsCreation(logs[0]) {
      assert (logs + more)[1..] == logs[1..] + more;
      LaterLogsIgnored(logs[1..], more);
    }
  }
}
