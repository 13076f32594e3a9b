/**
 * What the session client (`useHealthSessions`) shares between its
 * operations: the wallet context and contract lookup, the calls it makes
 * to the outside world, the order those calls must follow, and its errors.
 *
 * Every call the client makes (token contract, health contract, provider,
 * encryption engine, signer) is appended to a trace of `Call`s; what the
 * outside world answers is scripted by an environment value. A step named
 * in the environment's `failures` map throws with the given message.
 */
module HealthClient {
  import opened Wrappers
  import opened HealthLedger

  /** `ethers.parseUnits("10", 6)`: ten tokens of a six-decimal coin. */
  const VisitFee: nat := 10_000_000

  /** Exclusive upper bounds of the values `add64` and `add8` accept. */
  const U64Bound: int := 0x1_0000_0000_0000_0000
  const U8Bound: int := 0x100

  /** Validity of a decryption grant, passed as the string "10". */
  const GrantDurationDays: string := "10"

  /* ---------------------------------------------------------------------
   * Context and contract lookup
   * ------------------------------------------------------------------- */

  /**
   * The ambient wallet state the hook is built from: which of the FHE
   * instance, signer and read-only provider are present, whether the
   * signer has a provider of its own, the chain id, the signer's address,
   * and the deployment tables of the health and token contracts.
   */
  datatype Context = Context(
    hasInstance: bool,
    hasSigner: bool,
    hasReadonlyProvider: bool,
    signerHasProvider: bool,
    chainId: Option<int>,
    user: string,
    healthDeployments: map<int, string>,
    usdcDeployments: map<int, string>)

  /** `!chainId` is false: a chain id is present and is not 0. */
  predicate ChainSelected(chainId: Option<int>) {
    chainId.Some? && chainId.value != 0
  }

  /** The guard `fhevmInstance && ethersSigner && chainId`. */
  predicate Ready(ctx: Context) {
    ctx.hasInstance && ctx.hasSigner && ChainSelected(ctx.chainId)
  }

  /** A deployment-table entry, unless it is missing or the empty string. */
  function DeployedAt(table: map<int, string>, chainId: int): Option<string> {
    if chainId in table && table[chainId] != "" then Some(table[chainId]) else None
  }

  /** The health contract's address, as the first half of `getContracts` finds it. */
  function HealthAddress(ctx: Context): Option<string> {
    if !(ctx.hasSigner || ctx.hasReadonlyProvider) || !ChainSelected(ctx.chainId) then None
    else DeployedAt(ctx.healthDeployments, ctx.chainId.value)
  }

  datatype Contracts = Contracts(health: string, usdc: Option<string>)

  /** `getContracts`: both contract addresses for the current chain. */
  function GetContracts(ctx: Context): (r: Option<Contracts>)
    ensures r.Some? <==>
      (ctx.hasSigner || ctx.hasReadonlyProvider) && ChainSelected(ctx.chainId) &&
      ctx.chainId.value in ctx.healthDeployments && ctx.healthDeployments[ctx.chainId.value] != ""
    ensures r.Some? ==> r.value.health == ctx.healthDeployments[ctx.chainId.value]
    ensures r.Some? ==>
      (r.value.usdc.Some? <==>
        ctx.chainId.value in ctx.usdcDeployments && ctx.usdcDeployments[ctx.chainId.value] != "")
    ensures r.Some? && r.value.usdc.Some? ==> r.value.usdc.value == ctx.usdcDeployments[ctx.chainId.value]
  {
    match HealthAddress(ctx)
    case None => None
    case Some(health) => Some(Contracts(health, DeployedAt(ctx.usdcDeployments, ctx.chainId.value)))
  }

  /** Both contracts are known, as session creation needs. */
  predicate FeeContractsKnown(ctx: Context) {
    GetContracts(ctx).Some? && GetContracts(ctx).value.usdc.Some?
  }

  /* ---------------------------------------------------------------------
   * Calls, failures and errors
   * ------------------------------------------------------------------- */

  /** The external steps that can throw. */
  datatype Step =
    | BalanceStep | AllowanceStep | ApproveStep | CreateStep | BlockStep | EncryptStep | SubmitStep
    | ResultStep | SignStep | DecryptStep | NextIdStep

  /** A plaintext queued on the encrypted-input builder by `add64` or `add8`. */
  datatype Plain = U64(n: int) | U8(n: int)

  datatype DecryptRequest = DecryptRequest(handle: Handle, contractAddress: string)

  /** The EIP-712 user-decryption grant: public key, contracts, start (seconds) and duration (days). */
  datatype Grant = Grant(publicKey: string, contractAddresses: seq<string>, startTimestamp: nat, durationDays: string)

  /** The calls the client makes, each await taken as one step. */
  datatype Call =
    | BalanceOf(owner: string)
    | Allowance(owner: string, spender: string)
    | Approve(spender: string, amount: nat)
    | CreateSession
    | GetBlock(blockNumber: nat)
    | Encrypt(contract: string, user: string, batch: seq<Plain>)
    | SubmitEncryptedInput(sessionId: nat, weight: Handle, height: Handle, exercise: Handle, diet: Handle, proof: Handle)
    | Sessions(sessionId: nat)
    | GetEncryptedResult(sessionId: nat)
    | GenerateKeypair
    | SignTypedData(grant: Grant)
    | UserDecrypt(
        requests: seq<DecryptRequest>, privateKey: string, publicKey: string, signature: string,
        contractAddresses: seq<string>, user: string, startTimestamp: nat, durationDays: string)

  /* ---------------------------------------------------------------------
   * Order of calls
   * ------------------------------------------------------------------- */

  /** The two chains whose order is mandatory. */
  datatype Chain = Creation | Decryption

  /**
   * Position of each call in its chain: balance read, allowance read,
   * approve, create, block read, encrypt, submit for creation; session read,
   * handle fetch, key generation, signing, decryption for decryption. Calls
   * outside the chain rank last.
   */
  function Rank(chain: Chain, c: Call): nat {
    match chain
    case Creation =>
      (match c
       case BalanceOf(_) => 0
       case Allowance(_, _) => 1
       case Approve(_, _) => 2
       case CreateSession => 3
       case GetBlock(_) => 4
       case Encrypt(_, _, _) => 5
       case SubmitEncryptedInput(_, _, _, _, _, _) => 6
       case _ => 7)
    case Decryption =>
      (match c
       case Sessions(_) => 0
       case GetEncryptedResult(_) => 1
       case GenerateKeypair => 2
       case SignTypedData(_) => 3
       case UserDecrypt(_, _, _, _, _, _, _, _) => 4
       case _ => 5)
  }

  /** Every call has a rank in [lo, hi). */
  predicate RanksWithin(chain: Chain, calls: seq<Call>, lo: nat, hi: nat) {
    forall c | c in calls :: lo <= Rank(chain, c) < hi
  }

  /** Each call ranks above every call before it: no step repeats or comes back. */
  predicate StrictlyRanked(chain: Chain, calls: seq<Call>) {
    forall i, j | 0 <= i < j < |calls| :: Rank(chain, calls[i]) < Rank(chain, calls[j])
  }

  /** A ranked trace followed by a ranked trace of later steps is ranked. */
  lemma RankedConcat(chain: Chain, a: seq<Call>, b: seq<Call>, lo: nat, mid: nat, hi: nat)
    requires lo <= mid <= hi
    requires StrictlyRanked(chain, a) && RanksWithin(chain, a, lo, mid)
    requires StrictlyRanked(chain, b) && RanksWithin(chain, b, mid, hi)
    ensures StrictlyRanked(chain, a + b) && RanksWithin(chain, a + b, lo, hi)
  {
    forall i, j | 0 <= i < j < |a + b|
      ensures Rank(chain, (a + b)[i]) < Rank(chain, (a + b)[j])
    {
      if j < |a| {
        assert (a + b)[i] == a[i] && (a + b)[j] == a[j];
      } else if i < |a| {
        assert (a + b)[i] == a[i] && a[i] in a;
        assert (a + b)[j] == b[j - |a|] && b[j - |a|] in b;
      } else {
        assert (a + b)[i] == b[i - |a|] && (a + b)[j] == b[j - |a|];
      }
    }
  }

  /** A prefix of a ranked trace is ranked. */
  lemma RankedPrefix(chain: Chain, calls: seq<Call>, n: nat, lo: nat, hi: nat)
    requires StrictlyRanked(chain, calls) && RanksWithin(chain, calls, lo, hi) && n <= |calls|
    ensures StrictlyRanked(chain, calls[..n]) && RanksWithin(chain, calls[..n], lo, hi)
  {
    assert forall c | c in calls[..n] :: c in calls;
  }

  datatype Error =
    | NotReady                        // "FHEVM or signer not ready"
    | ContractsUnavailable            // "Contracts not available"
    | InsufficientBalance             // "Insufficient USDC balance (need 10 USDC)"
    | NoSessionId                     // "Unable to get session ID"
    | InvalidHandle                   // "Invalid ciphertext handle"
    | SessionUnreadable(id: nat, message: string)  // the read of sessions(id) threw
    | BadAddress(address: string)     // getAddress threw
    | ValueOutOfRange                 // add64 or add8 threw
    | MissingHandles                  // fewer than four handles to hexlify
    | Rejected(step: Step, message: string)  // an external call threw

  /** The `message` of the thrown error, as the pages display it. */
  function Message(e: Error): string {
    match e
    case NotReady => "FHEVM or signer not ready"
    case ContractsUnavailable => "Contracts not available"
    case InsufficientBalance => "Insufficient USDC balance (need 10 USDC)"
    case NoSessionId => "Unable to get session ID"
    case InvalidHandle => "Invalid ciphertext handle"
    case SessionUnreadable(_, message) => message
    case BadAddress(_) => "invalid address"
    case ValueOutOfRange => "value out of range"
    case MissingHandles => "invalid BytesLike value"
    case Rejected(_, message) => message
  }

  /** An outcome of the client: what it returns or throws, and the calls it made. */
  datatype Run<T> = Run(result: Result<T, Error>, calls: seq<Call>)

  /** A run whose calls follow the calls already made. */
  function After<T>(prior: seq<Call>, run: Run<T>): Run<T> {
    Run(run.result, prior + run.calls)
  }
}
