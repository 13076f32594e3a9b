/**
 * `createSessionAndSubmit`: the fee preflight, creation of the session and
 * recovery of its id from the receipt, encoding of the four inputs, and
 * their encrypted submission.
 */
module SessionCreation {
  import opened Wrappers
  import opened Addresses
  import opened HealthLedger
  import opened HealthClient

  /* ---------------------------------------------------------------------
   * Input encoding
   * ------------------------------------------------------------------- */

  /** The four numbers `createSessionAndSubmit` receives. */
  datatype HealthInput = HealthInput(weight: real, height: real, exercise: int, diet: int)

  /** `Math.floor(x * 100)`: a weight or height in hundredths. */
  function Centi(x: real): int {
    (x * 100.0).Floor
  }

  /** The batch in the order the builder receives it. */
  function EncodeBatch(input: HealthInput): seq<Plain> {
    [U64(Centi(input.weight)), U64(Centi(input.height)), U8(input.exercise), U8(input.diet)]
  }

  predicate Encodable(p: Plain) {
    match p
    case U64(n) => 0 <= n < U64Bound
    case U8(n) => 0 <= n < U8Bound
  }

  predicate BatchEncodable(batch: seq<Plain>) {
    forall k :: 0 <= k < |batch| ==> Encodable(batch[k])
  }

  /** Decoding a scaled value recovers the original to within a hundredth, never above it. */
  lemma CentiWithinHundredth(x: real)
    ensures x - 0.01 < Centi(x) as real / 100.0 <= x
  {
    var y := x * 100.0;
    assert y - 1.0 < y.Floor as real <= y;
  }

  /** Values in (0, 300] scale into [0, 30000], well inside the 64-bit range. */
  lemma CentiOfMeasurement(x: real)
    requires 0.0 < x <= 300.0
    ensures 0 <= Centi(x) <= 30000
    ensures 0 <= Centi(x) < U64Bound
  {
    var y := x * 100.0;
    assert 0.0 < y <= 30000.0;
    assert y.Floor as real <= y < y.Floor as real + 1.0;
  }

  /** The worked example: 70.5 kg, 175.0 cm, exercise 3, diet 7. */
  lemma EncodeExample()
    ensures EncodeBatch(HealthInput(70.5, 175.0, 3, 7)) == [U64(7050), U64(17500), U8(3), U8(7)]
  {
    assert 70.5 * 100.0 == 7050 as real;
    assert 175.0 * 100.0 == 17500 as real;
  }

  /* ---------------------------------------------------------------------
   * createSessionAndSubmit
   * ------------------------------------------------------------------- */

  /** What the outside world answers during one creation. */
  datatype Encrypted = Encrypted(handles: seq<Handle>, inputProof: Handle)

  datatype CreateEnv = CreateEnv(
    balance: nat,
    allowance: nat,
    receiptLogs: Option<seq<LogEntry>>,
    blockNumber: nat,
    blockTimestamp: nat,
    encrypted: Encrypted,
    failures: map<Step, string>)

  datatype Created = Created(sessionId: nat, createdAt: Option<nat>)

  /** The session id the creation receipt yields, if any. */
  function RecoveredId(env: CreateEnv): Option<nat> {
    match env.receiptLogs
    case None => None
    case Some(logs) => FirstCreationId(logs)
  }

  /**
   * Balance read, allowance read, approve, create, block read, encrypt and
   * submit happen in this order, each at most once, and nothing else.
   */
  predicate InCreationOrder(calls: seq<Call>) {
    RanksWithin(Creation, calls, 0, 7) && StrictlyRanked(Creation, calls)
  }

  predicate Approved(calls: seq<Call>) {
    exists c :: c in calls && c.Approve?
  }

  /** The fee preflight reads the balance and the allowance and finds the balance sufficient. */
  predicate FeeReadsPass(env: CreateEnv) {
    BalanceStep !in env.failures && env.balance >= VisitFee && AllowanceStep !in env.failures
  }

  /** The submission carries the first four handles in batch order, and the proof. */
  predicate SubmitsHandles(c: Call, e: Encrypted)
    requires c.SubmitEncryptedInput?
  {
    |e.handles| >= 4 &&
    c.weight == e.handles[0] && c.height == e.handles[1] &&
    c.exercise == e.handles[2] && c.diet == e.handles[3] && c.proof == e.inputProof
  }

  /** Every approval is of exactly the fee, to the health contract. */
  predicate ApprovesExactFee(calls: seq<Call>, health: string) {
    forall c | c in calls && c.Approve? :: c == Approve(health, VisitFee)
  }

  /**
   * Every encryption request carries the encoded input, in range, bound to
   * the normalised contract and owner addresses.
   */
  predicate EncryptsInput(calls: seq<Call>, health: string, user: string, input: HealthInput) {
    forall c | c in calls && c.Encrypt? :: EncryptsFor(c, health, user, input)
  }

  /** One encryption request carries the encoded input, in range, for the normalised addresses. */
  predicate EncryptsFor(c: Call, health: string, user: string, input: HealthInput)
    requires c.Encrypt?
  {
    && c.batch == EncodeBatch(input) && BatchEncodable(c.batch)
    && Some(c.contract) == Normalize(health) && Some(c.user) == Normalize(user)
  }

  /** Every submission is for session `id` and carries the engine's handles and proof. */
  predicate SubmitsFor(calls: seq<Call>, id: nat, e: Encrypted) {
    forall c | c in calls && c.SubmitEncryptedInput? :: c.sessionId == id && SubmitsHandles(c, e)
  }

  /** Nothing was encrypted or submitted. */
  predicate NothingEncrypted(calls: seq<Call>) {
    forall c | c in calls :: !c.Encrypt? && !c.SubmitEncryptedInput?
  }

  /** `receiptCreate.logs` scanned for the first log that parses as `SessionCreated`. */
  method ScanCreationLogs(logs: Option<seq<LogEntry>>) returns (sessionId: Option<nat>)
    ensures logs.None? ==> sessionId.None?
    ensures logs.Some? ==> sessionId == FirstCreationId(logs.value)
  {
    sessionId := None;
    if logs.Some? {
      var entries := logs.value;
      var k := 0;
      while k < |entries|
        invariant 0 <= k <= |entries|
        invariant sessionId.None? ==> FirstCreationId(entries) == FirstCreationId(entries[k..])
        invariant sessionId.Some? ==> sessionId == FirstCreationId(entries)
      {
        assert entries[k..][1..] == entries[k + 1..];
        var entry := entries[k];
        if entry.Decoded? && entry.name == SessionCreatedEvent {
          sessionId := Some(entry.arg0);
          break;
        }
        k := k + 1;
      }
    }
  }

  /** A provider is at hand to read the inclusion block: the signer's own or the read-only one. */
  predicate HasProvider(ctx: Context) {
    ctx.signerHasProvider || ctx.hasReadonlyProvider
  }

  /** The encryption request for the input, bound to the normalised contract and owner. */
  function EncryptCall(health: string, user: string, input: HealthInput): Call
    requires Normalize(health).Some? && Normalize(user).Some?
  {
    Encrypt(Normalize(health).value, Normalize(user).value, EncodeBatch(input))
  }

  /** The submission of the four handles, in batch order, and the proof for session `id`. */
  function SubmitCall(id: nat, e: Encrypted): Call
    requires |e.handles| >= 4
  {
    SubmitEncryptedInput(id, e.handles[0], e.handles[1], e.handles[2], e.handles[3], e.inputProof)
  }

  /** The failure of a step that threw. */
  function Thrown<T>(env: CreateEnv, step: Step): Result<T, Error>
    requires step in env.failures
  {
    Failure(Rejected(step, env.failures[step]))
  }

  /** Some call submitted the encrypted input. */
  predicate Submitted(calls: seq<Call>) {
    exists c :: c in calls && c.SubmitEncryptedInput?
  }

  /**
   * What `createSessionAndSubmit` does: without the instance, the signer or
   * a chain it throws "FHEVM or signer not ready", and without the health
   * or the USDC contract "Contracts not available", both before any call;
   * otherwise it does what `CreateRun` describes.
   */
  function CreateSessionRun(ctx: Context, env: CreateEnv, input: HealthInput): Run<Created> {
    if !Ready(ctx) then Run(Failure(NotReady), [])
    else if !FeeContractsKnown(ctx) then Run(Failure(ContractsUnavailable), [])
    else CreateRun(ctx, GetContracts(ctx).value.health, env, input)
  }

  /**
   * What `createSessionAndSubmit` does once the instance, the signer, the
   * chain and both contracts are known, the health contract being at
   * `health`: the fee preflight, then the creation.
   */
  function CreateRun(ctx: Context, health: string, env: CreateEnv, input: HealthInput): Run<Created> {
    var fee := FeeStage(ctx.user, health, env);
    if fee.result.Failure? then Run(Failure(fee.result.error), fee.calls)
    else After(fee.calls, CreateStage(ctx, health, env, input))
  }

  /**
   * Check that `user` holds the fee and approve the health contract for it
   * when the allowance is short.
   */
  function FeeStage(user: string, health: string, env: CreateEnv): Run<()> {
    var balanceRead := [BalanceOf(user)];
    if BalanceStep in env.failures then Run(Thrown(env, BalanceStep), balanceRead)
    else if env.balance < VisitFee then Run(Failure(InsufficientBalance), balanceRead)
    else
      var allowanceRead := balanceRead + [Allowance(user, health)];
      if AllowanceStep in env.failures then Run(Thrown(env, AllowanceStep), allowanceRead)
      else if env.allowance >= VisitFee then Run(Success(()), allowanceRead)
      else
        var approved := allowanceRead + [Approve(health, VisitFee)];
        if ApproveStep in env.failures then Run(Thrown(env, ApproveStep), approved)
        else Run(Success(()), approved)
  }

  /**
   * Create the session, recover its id from the receipt, read the block's
   * time when a provider is at hand, then encrypt and submit.
   */
  function CreateStage(ctx: Context, health: string, env: CreateEnv, input: HealthInput): Run<Created> {
    var created := [CreateSession];
    if CreateStep in env.failures then Run(Thrown(env, CreateStep), created)
    else if RecoveredId(env).None? then Run(Failure(NoSessionId), created)
    else
      var id := RecoveredId(env).value;
      if !HasProvider(ctx) then After(created, SubmitStage(health, ctx.user, env, input, id, None))
      else
        var stamped := created + [GetBlock(env.blockNumber)];
        if BlockStep in env.failures then Run(Thrown(env, BlockStep), stamped)
        else After(stamped, SubmitStage(health, ctx.user, env, input, id, Stamp(env.blockTimestamp)))
  }

  /**
   * Normalise both addresses, encode and encrypt the input, and submit its
   * four handles and proof for session `id`.
   */
  function SubmitStage(health: string, user: string, env: CreateEnv, input: HealthInput,
                       id: nat, createdAt: Option<nat>): Run<Created> {
    if Normalize(health).None? then Run(Failure(BadAddress(health)), [])
    else if Normalize(user).None? then Run(Failure(BadAddress(user)), [])
    else if !BatchEncodable(EncodeBatch(input)) then Run(Failure(ValueOutOfRange), [])
    else
      var encrypted := [EncryptCall(health, user, input)];
      if EncryptStep in env.failures then Run(Thrown(env, EncryptStep), encrypted)
      else if |env.encrypted.handles| < 4 then Run(Failure(MissingHandles), encrypted)
      else
        var submitted := encrypted + [SubmitCall(id, env.encrypted)];
        if SubmitStep in env.failures then Run(Thrown(env, SubmitStep), submitted)
        else Run(Success(Created(id, createdAt)), submitted)
  }

  /** The submission stage encrypts, then submits: nothing else. */
  lemma SubmitStageOrdered(health: string, user: string, env: CreateEnv, input: HealthInput,
                           id: nat, createdAt: Option<nat>)
    ensures var run := SubmitStage(health, user, env, input, id, createdAt);
      StrictlyRanked(Creation, run.calls) && RanksWithin(Creation, run.calls, 5, 7)
  {
    var calls := SubmitStage(health, user, env, input, id, createdAt).calls;
    if Normalize(health).Some? && Normalize(user).Some? && BatchEncodable(EncodeBatch(input)) {
      var enc := EncryptCall(health, user, input);
      assert Rank(Creation, enc) == 5;
      if EncryptStep !in env.failures && |env.encrypted.handles| >= 4 {
        var sub := SubmitCall(id, env.encrypted);
        assert Rank(Creation, sub) == 6;
        assert calls == [enc, sub];
      } else {
        assert calls == [enc];
      }
    } else {
      assert calls == [];
    }
  }

  /** What the submission stage encrypts and submits, and when it succeeds. */
  lemma SubmitStageContent(health: string, user: string, env: CreateEnv, input: HealthInput,
                           id: nat, createdAt: Option<nat>)
    ensures var run := SubmitStage(health, user, env, input, id, createdAt);
      && EncryptsInput(run.calls, health, user, input) && SubmitsFor(run.calls, id, env.encrypted)
      && (run.result.Success? <==> Submitted(run.calls) && SubmitStep !in env.failures)
      && (run.result.Success? ==> run.result.value == Created(id, createdAt))
  {
    if Normalize(health).Some? && Normalize(user).Some? && BatchEncodable(EncodeBatch(input)) {
      var enc := EncryptCall(health, user, input);
      assert EncryptsFor(enc, health, user, input);
      if EncryptStep !in env.failures && |env.encrypted.handles| >= 4 {
        var sub := SubmitCall(id, env.encrypted);
        assert SubmitsHandles(sub, env.encrypted);
        var calls := SubmitStage(health, user, env, input, id, createdAt).calls;
        assert calls == [enc, sub] && calls[1] == sub;
        assert Submitted(calls);
      }
    }
  }

  /**
   * The creation stage starts with the create call, then reads the block,
   * encrypts and submits, in that order.
   */
  lemma CreateStageOrdered(ctx: Context, health: string, env: CreateEnv, input: HealthInput)
    ensures var run := CreateStage(ctx, health, env, input);
      && StrictlyRanked(Creation, run.calls) && RanksWithin(Creation, run.calls, 3, 7)
      && run.calls[0] == CreateSession
  {
    assert Rank(Creation, CreateSession) == 3;
    if CreateStep !in env.failures && RecoveredId(env).Some? {
      var id := RecoveredId(env).value;
      if !HasProvider(ctx) {
        assert CreateStage(ctx, health, env, input) == After([CreateSession], SubmitStage(health, ctx.user, env, input, id, None));
        SubmitAfter(health, ctx.user, env, input, id, None, [CreateSession]);
      } else if BlockStep !in env.failures {
        var stamped := [CreateSession, GetBlock(env.blockNumber)];
        assert CreateStage(ctx, health, env, input) == After(stamped, SubmitStage(health, ctx.user, env, input, id, Stamp(env.blockTimestamp)));
        assert Rank(Creation, GetBlock(env.blockNumber)) == 4;
        SubmitAfter(health, ctx.user, env, input, id, Stamp(env.blockTimestamp), stamped);
      }
    }
  }

  /** The submission stage may follow any ranked trace of steps before encryption. */
  lemma SubmitAfter(health: string, user: string, env: CreateEnv, input: HealthInput,
                    id: nat, createdAt: Option<nat>, prior: seq<Call>)
    requires StrictlyRanked(Creation, prior) && RanksWithin(Creation, prior, 3, 5) && |prior| > 0
    ensures var run := After(prior, SubmitStage(health, user, env, input, id, createdAt));
      StrictlyRanked(Creation, run.calls) && RanksWithin(Creation, run.calls, 3, 7) && run.calls[0] == prior[0]
  {
    SubmitStageOrdered(health, user, env, input, id, createdAt);
    RankedConcat(Creation, prior, SubmitStage(health, user, env, input, id, createdAt).calls, 3, 5, 7);
  }

  /**
   * Nothing is encrypted or submitted without a recovered session id; with
   * one, the input is encrypted and submitted for it, and success carries
   * the id and the block's time.
   */
  lemma CreateStageContent(ctx: Context, health: string, env: CreateEnv, input: HealthInput)
    ensures var run := CreateStage(ctx, health, env, input);
      && EncryptsInput(run.calls, health, ctx.user, input)
      && (CreateStep !in env.failures && RecoveredId(env).None? ==> run == Run(Failure(NoSessionId), [CreateSession]))
      && (RecoveredId(env).None? ==> NothingEncrypted(run.calls))
      && (RecoveredId(env).Some? ==> SubmitsFor(run.calls, RecoveredId(env).value, env.encrypted))
      && (run.result.Success? <==> Submitted(run.calls) && SubmitStep !in env.failures)
      && (run.result.Success? ==> run.result.value.sessionId == RecoveredId(env).value)
      && (run.result.Success? ==>
            run.result.value.createdAt == if HasProvider(ctx) then Stamp(env.blockTimestamp) else None)
  {
    if CreateStep !in env.failures && RecoveredId(env).Some? {
      var id := RecoveredId(env).value;
      var stamp := if HasProvider(ctx) then Stamp(env.blockTimestamp) else None;
      SubmitStageContent(health, ctx.user, env, input, id, stamp);
    }
  }

  /** The preflight reads the balance, then the allowance, then approves, starting with the balance read. */
  lemma FeeStageOrdered(user: string, health: string, env: CreateEnv)
    ensures var run := FeeStage(user, health, env);
      && StrictlyRanked(Creation, run.calls) && RanksWithin(Creation, run.calls, 0, 3)
      && run.calls[0] == BalanceOf(user)
  {
    assert Rank(Creation, BalanceOf(user)) == 0 && Rank(Creation, Allowance(user, health)) == 1;
    assert Rank(Creation, Approve(health, VisitFee)) == 2;
  }

  /**
   * Balance read, allowance read, approve, create, block read, encrypt and
   * submit happen in this order, each at most once, starting with the
   * balance read.
   */
  lemma CreateRunOrdered(ctx: Context, health: string, env: CreateEnv, input: HealthInput)
    ensures var run := CreateRun(ctx, health, env, input);
      InCreationOrder(run.calls) && run.calls[0] == BalanceOf(ctx.user)
  {
    var fee := FeeStage(ctx.user, health, env);
    FeeStageOrdered(ctx.user, health, env);
    if fee.result.Success? {
      var stage := CreateStage(ctx, health, env, input);
      CreateStageOrdered(ctx, health, env, input);
      RankedConcat(Creation, fee.calls, stage.calls, 0, 3, 7);
    }
  }

  /**
   * The preflight stops at the balance read when the balance is short,
   * approves only the exact fee and only when the allowance is short, and
   * lets the creation go ahead exactly when its reads and its approval
   * succeed.
   */
  lemma FeeStageContent(user: string, health: string, env: CreateEnv)
    ensures var run := FeeStage(user, health, env);
      && (BalanceStep !in env.failures && env.balance < VisitFee ==>
            run == Run(Failure(InsufficientBalance), [BalanceOf(user)]))
      && ApprovesExactFee(run.calls, health)
      && (Approved(run.calls) <==> FeeReadsPass(env) && env.allowance < VisitFee)
      && (run.result.Success? <==>
            FeeReadsPass(env) && (env.allowance >= VisitFee || ApproveStep !in env.failures))
  {
    var run := FeeStage(user, health, env);
    if FeeReadsPass(env) && env.allowance < VisitFee {
      assert run.calls[2] == Approve(health, VisitFee);
    }
  }

  /** Whether a session is created depends on the preflight alone. */
  lemma CreateRunFeeGate(ctx: Context, health: string, env: CreateEnv, input: HealthInput)
    ensures var run := CreateRun(ctx, health, env, input);
      && (BalanceStep !in env.failures && env.balance < VisitFee ==>
            run == Run(Failure(InsufficientBalance), [BalanceOf(ctx.user)]))
      && ApprovesExactFee(run.calls, health)
      && (Approved(run.calls) <==> FeeReadsPass(env) && env.allowance < VisitFee)
      && (CreateSession in run.calls <==>
            FeeReadsPass(env) && (env.allowance >= VisitFee || ApproveStep !in env.failures))
  {
    var fee := FeeStage(ctx.user, health, env);
    FeeStageContent(ctx.user, health, env);
    FeeStageOrdered(ctx.user, health, env);
    assert CreateSession !in fee.calls by {
      assert Rank(Creation, CreateSession) == 3;
    }
    if fee.result.Success? {
      var stage := CreateStage(ctx, health, env, input);
      CreateStageOrdered(ctx, health, env, input);
      assert forall c | c in stage.calls :: !c.Approve?;
      assert CreateSession in stage.calls;
    }
  }

  /**
   * Nothing is encrypted or submitted unless the receipt yields a session
   * id; when it does, the encoded input is encrypted for the normalised
   * addresses and its handles are submitted for that id.
   */
  lemma CreateRunSubmission(ctx: Context, health: string, env: CreateEnv, input: HealthInput)
    ensures var run := CreateRun(ctx, health, env, input);
      && EncryptsInput(run.calls, health, ctx.user, input)
      && (RecoveredId(env).None? ==> NothingEncrypted(run.calls))
      && (RecoveredId(env).Some? ==> SubmitsFor(run.calls, RecoveredId(env).value, env.encrypted))
  {
    var fee := FeeStage(ctx.user, health, env);
    FeeStageOrdered(ctx.user, health, env);
    assert forall c | c in fee.calls :: !c.Encrypt? && !c.SubmitEncryptedInput?;
    CreateStageContent(ctx, health, env, input);
  }

  /**
   * The creation succeeds exactly when the submission goes out and does not
   * throw, and then returns the recovered id and the block's time.
   */
  lemma CreateRunOutcome(ctx: Context, health: string, env: CreateEnv, input: HealthInput)
    ensures var run := CreateRun(ctx, health, env, input);
      && (FeeStage(ctx.user, health, env).result.Success? && CreateStep !in env.failures && RecoveredId(env).None? ==>
            run == Run(Failure(NoSessionId), FeeStage(ctx.user, health, env).calls + [CreateSession]))
      && (run.result.Success? <==> Submitted(run.calls) && SubmitStep !in env.failures)
      && (run.result.Success? ==> RecoveredId(env).Some? && run.result.value.sessionId == RecoveredId(env).value)
      && (run.result.Success? ==>
            run.result.value.createdAt == if HasProvider(ctx) then Stamp(env.blockTimestamp) else None)
  {
    var fee := FeeStage(ctx.user, health, env);
    FeeStageOrdered(ctx.user, health, env);
    assert !Submitted(fee.calls);
    CreateStageContent(ctx, health, env, input);
  }

  /**
   * `createSessionAndSubmit`: the guards on the wallet context and the
   * contracts, then the preflight, creation, id recovery, block read,
   * encryption and submission, each external call recorded as it is made.
   */
  method CreateSessionAndSubmit(ctx: Context, env: CreateEnv, input: HealthInput)
    returns (r: Result<Created, Error>, calls: seq<Call>)
    ensures Run(r, calls) == CreateSessionRun(ctx, env, input)
  {
    if !Ready(ctx) {
      return Failure(NotReady), [];
    }
    var contracts := GetContracts(ctx);
    if contracts.None? || contracts.value.usdc.None? {
      return Failure(ContractsUnavailable), [];
    }
    var health := contracts.value.health;
    var paid, feeCalls := PayFee(ctx.user, health, env);
    if paid.Failure? {
      return Failure(paid.error), feeCalls;
    }
    var createCalls;
    r, createCalls := CreateAndSubmit(ctx, health, env, input);
    calls := feeCalls + createCalls;
  }

  /** The balance check and the approval of the fee when the allowance is short. */
  method PayFee(user: string, health: string, env: CreateEnv) returns (r: Result<(), Error>, calls: seq<Call>)
    ensures Run(r, calls) == FeeStage(user, health, env)
  {
    calls := [BalanceOf(user)];
    if BalanceStep in env.failures {
      return Thrown(env, BalanceStep), calls;
    }
    if env.balance < VisitFee {
      return Failure(InsufficientBalance), calls;
    }
    calls := calls + [Allowance(user, health)];
    if AllowanceStep in env.failures {
      return Thrown(env, AllowanceStep), calls;
    }
    if env.allowance < VisitFee {
      calls := calls + [Approve(health, VisitFee)];
      if ApproveStep in env.failures {
        return Thrown(env, ApproveStep), calls;
      }
    }
    r := Success(());
  }

  /** Creation of the session, recovery of its id from the receipt, and the block read. */
  method CreateAndSubmit(ctx: Context, health: string, env: CreateEnv, input: HealthInput)
    returns (r: Result<Created, Error>, calls: seq<Call>)
    ensures Run(r, calls) == CreateStage(ctx, health, env, input)
  {
    calls := [CreateSession];
    if CreateStep in env.failures {
      return Thrown(env, CreateStep), calls;
    }
    var sessionId := ScanCreationLogs(env.receiptLogs);
    if sessionId.None? {
      return Failure(NoSessionId), calls;
    }
    var createdAt: Option<nat> := None;
    if HasProvider(ctx) {
      calls := calls + [GetBlock(env.blockNumber)];
      if BlockStep in env.failures {
        return Thrown(env, BlockStep), calls;
      }
      createdAt := Stamp(env.blockTimestamp);
    }
    var submitCalls;
    r, submitCalls := EncryptAndSubmit(health, ctx.user, env, input, sessionId.value, createdAt);
    calls := calls + submitCalls;
  }

  /** Encryption of the four inputs for the normalised addresses, and their submission. */
  method EncryptAndSubmit(health: string, user: string, env: CreateEnv, input: HealthInput,
                          sessionId: nat, createdAt: Option<nat>)
    returns (r: Result<Created, Error>, calls: seq<Call>)
    ensures Run(r, calls) == SubmitStage(health, user, env, input, sessionId, createdAt)
  {
    calls := [];
    var contract := Normalize(health);
    if contract.None? {
      return Failure(BadAddress(health)), calls;
    }
    var owner := Normalize(user);
    if owner.None? {
      return Failure(BadAddress(user)), calls;
    }
    var batch := EncodeBatch(input);
    if !BatchEncodable(batch) {
      return Failure(ValueOutOfRange), calls;
    }
    calls := calls + [Encrypt(contract.value, owner.value, batch)];
    if EncryptStep in env.failures {
      return Thrown(env, EncryptStep), calls;
    }
    var handles := env.encrypted.handles;
    if |handles| < 4 {
      return Failure(MissingHandles), calls;
    }
    calls := calls + [SubmitEncryptedInput(sessionId, handles[0], handles[1], handles[2], handles[3],
                                           env.encrypted.inputProof)];
    if SubmitStep in env.failures {
      return Thrown(env, SubmitStep), calls;
    }
    r := Success(Created(sessionId, createdAt));
  }
}
