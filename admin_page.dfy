/**
 * The admin page (`Admin.tsx`): the statistics it counts over the session
 * table, the case-insensitive owner check, and the address guards in front
 * of the two owner transactions.
 */
module AdminPage {
  import opened Wrappers
  import opened Addresses
  import opened HealthLedger
  import opened HealthClient

  /* ---------------------------------------------------------------------
   * Session statistics
   * ------------------------------------------------------------------- */

  /** A readable session that exists and has its result. */
  predicate IsCompleted(s: Option<SessionRecord>) {
    s.Some? && s.value.present && s.value.resultReady
  }

  /** A readable session that exists, waits for its result and has an owner. */
  predicate IsPending(s: Option<SessionRecord>) {
    s.Some? && s.value.present && !s.value.resultReady && s.value.user != ZeroAddress
  }

  /** The ids below `n` whose sessions are completed. */
  ghost function CompletedIds(ledger: Ledger, n: nat): set<nat> {
    set i: nat | i < n && IsCompleted(ReadSession(ledger, i))
  }

  /** The ids below `n` whose sessions are pending. */
  ghost function PendingIds(ledger: Ledger, n: nat): set<nat> {
    set i: nat | i < n && IsPending(ReadSession(ledger, i))
  }

  /** Going from `n` to `n + 1` ids adds id `n` to the set it belongs to, and nothing else. */
  lemma CountStep(ledger: Ledger, n: nat)
    ensures CompletedIds(ledger, n + 1) ==
      CompletedIds(ledger, n) + (if IsCompleted(ReadSession(ledger, n)) then {n} else {})
    ensures PendingIds(ledger, n + 1) ==
      PendingIds(ledger, n) + (if IsPending(ReadSession(ledger, n)) then {n} else {})
    ensures n !in CompletedIds(ledger, n) && n !in PendingIds(ledger, n)
  {
  }

  /** So each id scanned adds one to at most one of the two counts. */
  lemma CountStepSizes(ledger: Ledger, n: nat)
    ensures |CompletedIds(ledger, n + 1)| == |CompletedIds(ledger, n)| + if IsCompleted(ReadSession(ledger, n)) then 1 else 0
    ensures |PendingIds(ledger, n + 1)| == |PendingIds(ledger, n)| + if IsPending(ReadSession(ledger, n)) then 1 else 0
  {
    CountStep(ledger, n);
    if IsCompleted(ReadSession(ledger, n)) {
      assert |CompletedIds(ledger, n) + {n}| == |CompletedIds(ledger, n)| + 1;
    }
    if IsPending(ReadSession(ledger, n)) {
      assert |PendingIds(ledger, n) + {n}| == |PendingIds(ledger, n)| + 1;
    }
  }

  /** The number of completed sessions among the ids below `n`, counted one id at a time. */
  function Completed(ledger: Ledger, n: nat): nat {
    if n == 0 then 0
    else Completed(ledger, n - 1) + if IsCompleted(ReadSession(ledger, n - 1)) then 1 else 0
  }

  /** The number of pending sessions among the ids below `n`, counted one id at a time. */
  function Pending(ledger: Ledger, n: nat): nat {
    if n == 0 then 0
    else Pending(ledger, n - 1) + if IsPending(ReadSession(ledger, n - 1)) then 1 else 0
  }

  /** The running counts are the sizes of the sets of completed and pending ids. */
  lemma {:induction false} CountsAreSetSizes(ledger: Ledger, n: nat)
    ensures Completed(ledger, n) == |CompletedIds(ledger, n)|
    ensures Pending(ledger, n) == |PendingIds(ledger, n)|
  {
    if n > 0 {
      CountsAreSetSizes(ledger, n - 1);
      CountStepSizes(ledger, n - 1);
    }
  }

  /**
   * No session is both completed and pending, so the two counts together
   * never exceed the number of ids scanned.
   */
  lemma {:induction false} CountsWithinTotal(ledger: Ledger, n: nat)
    ensures |CompletedIds(ledger, n)| + |PendingIds(ledger, n)| <= n
  {
    if n > 0 {
      CountsWithinTotal(ledger, n - 1);
      CountStepSizes(ledger, n - 1);
    }
  }

  /**
   * The counting loop of `loadData`: one read per id below
   * `nextSessionId`; a read that fails skips its id.
   */
  method CountSessions(ledger: Ledger) returns (completed: nat, pending: nat)
    ensures completed == Completed(ledger, ledger.nextSessionId)
    ensures pending == Pending(ledger, ledger.nextSessionId)
  {
    completed, pending := 0, 0;
    var i := 0;
    while i < ledger.nextSessionId
      invariant i <= ledger.nextSessionId
      invariant completed == Completed(ledger, i)
      invariant pending == Pending(ledger, i)
    {
      var session := ReadSession(ledger, i);
      if session.Some? {
        if session.value.present {
          if session.value.resultReady {
            completed := completed + 1;
          } else if session.value.user != ZeroAddress {
            pending := pending + 1;
          }
        }
      }
      i := i + 1;
    }
  }

  /* ---------------------------------------------------------------------
   * The admin panel
   * ------------------------------------------------------------------- */

  /** The contract reads of `loadData` and the two transactions, each of which can throw. */
  datatype AdminStep = OwnerRead | OracleRead | BalanceRead | NextIdRead | WithdrawSend | WithdrawWait | OracleSend | OracleWait

  /** What the health contract answers and which steps throw. */
  datatype AdminEnv = AdminEnv(
    owner: string,
    backendOracle: string,
    contractBalance: nat,
    failures: map<AdminStep, string>)

  /** The four reads of `loadData` succeed. */
  predicate ReadsSucceed(env: AdminEnv) {
    OwnerRead !in env.failures && OracleRead !in env.failures &&
    BalanceRead !in env.failures && NextIdRead !in env.failures
  }

  /** The message of the first read that throws. */
  function FirstReadFailure(env: AdminEnv): string
    requires !ReadsSucceed(env)
  {
    if OwnerRead in env.failures then env.failures[OwnerRead]
    else if OracleRead in env.failures then env.failures[OracleRead]
    else if BalanceRead in env.failures then env.failures[BalanceRead]
    else env.failures[NextIdRead]
  }

  /** The transactions the owner sends. */
  datatype Tx = WithdrawFees(to: string) | SetBackendOracle(oracle: string)

  /** The confirmations the page shows. */
  datatype Notice = Sent | Withdrew(amount: nat, to: string) | OracleUpdated(oracle: string)

  const InvalidAddress: string := "Invalid address"

  /** An address field passes `!a || !ethers.isAddress(a)` only when it is a valid address. */
  predicate AddressGuardPasses(a: string) {
    a != "" && IsAddress(a)
  }

  /** What the admin page holds. */
  datatype AdminView = AdminView(
    owner: string,
    backendOracle: string,
    contractBalance: nat,
    userAddress: string,
    isOwner: bool,
    error: Option<string>,
    success: Option<Notice>,
    totalSessions: nat,
    completedSessions: nat,
    pendingSessions: nat,
    withdrawAddress: string,
    newBackendOracle: string)

  /**
   * `loadData`: without a signer or a deployed contract nothing changes;
   * otherwise the caller's address is recorded, then the four contract
   * reads, the owner check and the session statistics. A read that throws
   * leaves its message in `error` and stops there.
   */
  ghost function Loaded(s: AdminView, ctx: Context, ledger: Ledger, env: AdminEnv): AdminView {
    if !ctx.hasSigner || HealthAddress(ctx).None? then s
    else if !ReadsSucceed(env) then s.(userAddress := ctx.user, error := Some(FirstReadFailure(env)))
    else s.(userAddress := ctx.user, owner := env.owner, backendOracle := env.backendOracle,
            contractBalance := env.contractBalance, isOwner := SameIgnoringCase(ctx.user, env.owner),
            totalSessions := ledger.nextSessionId,
            completedSessions := Completed(ledger, ledger.nextSessionId),
            pendingSessions := Pending(ledger, ledger.nextSessionId))
  }

  /**
   * After a load that succeeds, the owner flag holds exactly when the
   * caller's address equals the owner's ignoring case, the total is
   * `nextSessionId`, and completed and pending sessions together are no
   * more than the total.
   */
  lemma LoadedStats(s: AdminView, ctx: Context, ledger: Ledger, env: AdminEnv)
    requires ctx.hasSigner && HealthAddress(ctx).Some? && ReadsSucceed(env)
    ensures var t := Loaded(s, ctx, ledger, env);
      && (t.isOwner <==> Lower(ctx.user) == Lower(env.owner))
      && t.totalSessions == ledger.nextSessionId
      && t.completedSessions == |CompletedIds(ledger, ledger.nextSessionId)|
      && t.pendingSessions == |PendingIds(ledger, ledger.nextSessionId)|
      && t.completedSessions + t.pendingSessions <= t.totalSessions
  {
    CountsAreSetSizes(ledger, ledger.nextSessionId);
    CountsWithinTotal(ledger, ledger.nextSessionId);
  }

  /** The outcome of one owner transaction once its guard has passed. */
  datatype TxOutcome = TxOutcome(error: Option<string>, success: Option<Notice>, confirmed: bool)

  /**
   * A send that throws shows its message; otherwise "sent" is shown, then a
   * confirmation that throws shows its message, and a confirmed one shows
   * `done`.
   */
  function SendTx(send: AdminStep, wait: AdminStep, env: AdminEnv, done: Notice): TxOutcome {
    if send in env.failures then TxOutcome(Some(env.failures[send]), None, false)
    else if wait in env.failures then TxOutcome(Some(env.failures[wait]), Some(Sent), false)
    else TxOutcome(None, Some(done), true)
  }

  /** What the page holds after a handler, and the transactions it sent. */
  datatype Handled = Handled(view: AdminView, txs: seq<Tx>)

  /**
   * `handleWithdraw`: an empty or invalid address is refused before any
   * transaction; otherwise the fees are withdrawn to it and the field is
   * cleared once the transaction is confirmed.
   */
  function Withdrawn(s: AdminView, ctx: Context, env: AdminEnv): Handled {
    var to := s.withdrawAddress;
    if !AddressGuardPasses(to) then Handled(s.(error := Some(InvalidAddress)), [])
    else if HealthAddress(ctx).None? then Handled(s.(error := None, success := None), [])
    else
      var t := SendTx(WithdrawSend, WithdrawWait, env, Withdrew(s.contractBalance, to));
      Handled(s.(error := t.error, success := t.success, withdrawAddress := if t.confirmed then "" else to),
              [WithdrawFees(to)])
  }

  /**
   * `handleUpdateBackendOracle`: an empty or invalid address is refused
   * before any transaction; otherwise the oracle is replaced by it and the
   * field is cleared once the transaction is confirmed.
   */
  function OracleReplaced(s: AdminView, ctx: Context, env: AdminEnv): Handled {
    var oracle := s.newBackendOracle;
    if !AddressGuardPasses(oracle) then Handled(s.(error := Some(InvalidAddress)), [])
    else if HealthAddress(ctx).None? then Handled(s.(error := None, success := None), [])
    else
      var t := SendTx(OracleSend, OracleWait, env, OracleUpdated(oracle));
      Handled(s.(error := t.error, success := t.success, newBackendOracle := if t.confirmed then "" else oracle),
              [SetBackendOracle(oracle)])
  }

  /**
   * Each handler sends at most one transaction, only with an address that
   * passed the guard, and to exactly that address; a refused address shows
   * "Invalid address" and changes nothing else.
   */
  lemma GuardsBeforeTransactions(s: AdminView, ctx: Context, env: AdminEnv)
    ensures var h := Withdrawn(s, ctx, env);
      && (h.txs != [] ==> AddressGuardPasses(s.withdrawAddress) && h.txs == [WithdrawFees(s.withdrawAddress)])
      && (!AddressGuardPasses(s.withdrawAddress) ==> h == Handled(s.(error := Some(InvalidAddress)), []))
    ensures var h := OracleReplaced(s, ctx, env);
      && (h.txs != [] ==> AddressGuardPasses(s.newBackendOracle) && h.txs == [SetBackendOracle(s.newBackendOracle)])
      && (!AddressGuardPasses(s.newBackendOracle) ==> h == Handled(s.(error := Some(InvalidAddress)), []))
  {
  }

  /** The guard's emptiness test adds nothing: an address that passes it is a forty-digit address. */
  lemma GuardedAddressesAreValid(a: string)
    requires AddressGuardPasses(a)
    ensures Normalize(a).Some? && |a| >= 40
  {
    NormalizeShape(a);
  }

  class AdminPanel {
    var owner: string
    var backendOracle: string
    var contractBalance: nat
    var userAddress: string
    var isOwner: bool
    var error: Option<string>
    var success: Option<Notice>
    var totalSessions: nat
    var completedSessions: nat
    var pendingSessions: nat
    var withdrawAddress: string
    var newBackendOracle: string

    function View(): AdminView
      reads this
    {
      AdminView(owner, backendOracle, contractBalance, userAddress, isOwner, error, success,
                totalSessions, completedSessions, pendingSessions, withdrawAddress, newBackendOracle)
    }

    constructor ()
      ensures View() == AdminView("", "", 0, "", false, None, None, 0, 0, 0, "", "")
    {
      owner, backendOracle, contractBalance, userAddress, isOwner := "", "", 0, "", false;
      error, success := None, None;
      totalSessions, completedSessions, pendingSessions := 0, 0, 0;
      withdrawAddress, newBackendOracle := "", "";
    }

    method LoadData(ctx: Context, ledger: Ledger, env: AdminEnv)
      modifies this
      ensures View() == Loaded(old(View()), ctx, ledger, env)
    {
      if ctx.hasSigner && HealthAddress(ctx).Some? {
        userAddress := ctx.user;
        if !ReadsSucceed(env) {
          error := Some(FirstReadFailure(env));
        } else {
          RecordContractInfo(ctx.user, env);
          RecordStats(ledger);
        }
      }
    }

    /** The reading half of `loadData`: the contract's owner, oracle and balance, and the owner check. */
    method RecordContractInfo(address: string, env: AdminEnv)
      modifies this`owner, this`backendOracle, this`contractBalance, this`isOwner
      ensures owner == env.owner && backendOracle == env.backendOracle && contractBalance == env.contractBalance
      ensures isOwner == SameIgnoringCase(address, env.owner)
    {
      owner := env.owner;
      backendOracle := env.backendOracle;
      contractBalance := env.contractBalance;
      isOwner := SameIgnoringCase(address, env.owner);
    }

    /** The counting half of `loadData`: the three statistics from one scan of the session table. */
    method RecordStats(ledger: Ledger)
      modifies this`totalSessions, this`completedSessions, this`pendingSessions
      ensures totalSessions == ledger.nextSessionId
      ensures completedSessions == Completed(ledger, ledger.nextSessionId)
      ensures pendingSessions == Pending(ledger, ledger.nextSessionId)
    {
      var completed, pending := CountSessions(ledger);
      totalSessions := ledger.nextSessionId;
      completedSessions := completed;
      pendingSessions := pending;
    }

    method HandleWithdraw(ctx: Context, env: AdminEnv) returns (txs: seq<Tx>)
      modifies this`error, this`success, this`withdrawAddress
      ensures Handled(View(), txs) == Withdrawn(old(View()), ctx, env)
    {
      if withdrawAddress == "" || !IsAddress(withdrawAddress) {
        error := Some(InvalidAddress);
        return [];
      }
      error := None;
      success := None;
      var contract := HealthAddress(ctx);
      if contract.None? {
        return [];
      }
      txs := [WithdrawFees(withdrawAddress)];
      if WithdrawSend in env.failures {
        error := Some(env.failures[WithdrawSend]);
        return;
      }
      success := Some(Sent);
      if WithdrawWait in env.failures {
        error := Some(env.failures[WithdrawWait]);
        return;
      }
      success := Some(Withdrew(contractBalance, withdrawAddress));
      withdrawAddress := "";
    }

    method HandleUpdateBackendOracle(ctx: Context, env: AdminEnv) returns (txs: seq<Tx>)
      modifies this`error, this`success, this`newBackendOracle
      ensures Handled(View(), txs) == OracleReplaced(old(View()), ctx, env)
    {
      if newBackendOracle == "" || !IsAddress(newBackendOracle) {
        error := Some(InvalidAddress);
        return [];
      }
      error := None;
      success := None;
      var contract := HealthAddress(ctx);
      if contract.None? {
        return [];
      }
      txs := [SetBackendOracle(newBackendOracle)];
      if OracleSend in env.failures {
        error := Some(env.failures[OracleSend]);
        return;
      }
      success := Some(Sent);
      if OracleWait in env.failures {
        error := Some(env.failures[OracleWait]);
        return;
      }
      success := Some(OracleUpdated(newBackendOracle));
      newBackendOracle := "";
    }
  }
}
