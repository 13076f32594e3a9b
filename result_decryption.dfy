/**
 * `decryptResult`: the pending gate on `resultReady`, the signed
 * decryption grant, and the interpretation of the decrypted output.
 */
module ResultDecryption {
  import opened Wrappers
  import opened HealthLedger
  import opened HealthClient

  /* ---------------------------------------------------------------------
   * decryptResult
   * ------------------------------------------------------------------- */

  datatype Keypair = Keypair(privateKey: string, publicKey: string)

  /** A cleartext `userDecrypt` returns for a handle: a boolean or an integer. */
  datatype Clear = ClearBool(b: bool) | ClearInt(n: nat)

  /** What the outside world answers during one decryption. */
  datatype DecryptEnv = DecryptEnv(
    resultHandle: Handle,          // what `getEncryptedResult` returns
    keypair: Keypair,              // what `generateKeypair` returns
    nowMillis: nat,                // `Date.now()`
    signature: string,             // what `signTypedData` returns
    outputs: map<Handle, Clear>,   // what `userDecrypt` returns
    failures: map<Step, string>)

  /** "0x" occurs in `s` at position `i`. */
  predicate ZeroXAt(s: string, i: int) {
    0 <= i < |s| - 1 && s[i] == '0' && s[i + 1] == 'x'
  }

  /** `s.replace("0x", "")`: removes the first occurrence of "0x", wherever it is. */
  function StripFirst0x(s: string): (r: string)
    ensures ZeroXAt(s, 0) ==> r == s[2..]
    ensures |r| == |s| || |r| == |s| - 2
  {
    if |s| < 2 then s
    else if ZeroXAt(s, 0) then s[2..]
    else [s[0]] + StripFirst0x(s[1..])
  }

  /** Without an occurrence of "0x" the string is unchanged. */
  lemma {:induction false} StripFirst0xAbsent(s: string)
    requires forall i :: !ZeroXAt(s, i)
    ensures StripFirst0x(s) == s
  {
    if |s| >= 2 {
      var t := s[1..];
      assert forall i :: ZeroXAt(t, i) ==> ZeroXAt(s, i + 1);
      StripFirst0xAbsent(t);
      assert [s[0]] + t == s;
    }
  }

  /** With a first occurrence at `k`, exactly that occurrence is cut out. */
  lemma {:induction false} StripFirst0xAt(s: string, k: nat)
    requires ZeroXAt(s, k) && forall j | 0 <= j < k :: !ZeroXAt(s, j)
    ensures StripFirst0x(s) == s[..k] + s[k + 2..]
  {
    if k > 0 {
      var t := s[1..];
      assert ZeroXAt(t, k - 1);
      forall j | 0 <= j < k - 1
        ensures !ZeroXAt(t, j)
      {
        assert !ZeroXAt(s, j + 1);
      }
      StripFirst0xAt(t, k - 1);
      assert [s[0]] + t[..k - 1] == s[..k];
      assert t[k + 1..] == s[k + 2..];
    }
  }

  /** A "0x"-prefixed signature, whatever follows the prefix, loses exactly its prefix. */
  lemma StripSignaturePrefix(digits: string)
    ensures StripFirst0x("0x" + digits) == digits
  {
    assert ("0x" + digits)[..2] == "0x" && ("0x" + digits)[2..] == digits;
  }

  /** `out[handle]`: a missing entry or a boolean is still pending; an integer is the result. */
  function Interpret(outputs: map<Handle, Clear>, handle: Handle): (r: Option<nat>)
    ensures r.Some? <==> handle in outputs && outputs[handle].ClearInt?
    ensures r.Some? ==> outputs[handle] == ClearInt(r.value)
  {
    if handle in outputs && outputs[handle].ClearInt? then Some(outputs[handle].n) else None
  }

  /** The grant the caller signs: the fresh public key, only the health contract, start now, ten days. */
  function DecryptGrant(health: string, env: DecryptEnv): Grant {
    Grant(env.keypair.publicKey, [health], env.nowMillis / 1000, GrantDurationDays)
  }

  /**
   * The `userDecrypt` call is authorised by grant `g`: it presents the same
   * public key, contract list, start and duration that were signed.
   */
  predicate AuthorisedBy(c: Call, g: Grant)
    requires c.UserDecrypt?
  {
    c.publicKey == g.publicKey && c.contractAddresses == g.contractAddresses &&
    c.startTimestamp == g.startTimestamp && c.durationDays == g.durationDays
  }

  /**
   * The `userDecrypt` call asks for exactly the result handle under the
   * health contract, with the fresh private key, the signature without its
   * "0x", and the caller's address.
   */
  predicate RequestsResult(c: Call, health: string, user: string, env: DecryptEnv)
    requires c.UserDecrypt?
  {
    c.requests == [DecryptRequest(env.resultHandle, health)] &&
    c.privateKey == env.keypair.privateKey && c.signature == StripFirst0x(env.signature) &&
    c.user == user
  }

  /** The session can be read and reports its result ready. */
  predicate ResultReady(ledger: Ledger, id: nat) {
    ReadSession(ledger, id).Some? && ReadSession(ledger, id).value.resultReady
  }

  /** Read, handle fetch, key generation, signing and decryption, in this order, each at most once. */
  predicate InDecryptOrder(calls: seq<Call>) {
    RanksWithin(Decryption, calls, 0, 5) && StrictlyRanked(Decryption, calls)
  }

  /** The decryption call for the result handle under grant `DecryptGrant(health, env)`. */
  function DecryptCall(health: string, user: string, env: DecryptEnv): (c: Call)
    ensures c.UserDecrypt? && AuthorisedBy(c, DecryptGrant(health, env)) && RequestsResult(c, health, user, env)
  {
    var g := DecryptGrant(health, env);
    UserDecrypt([DecryptRequest(env.resultHandle, health)], env.keypair.privateKey, g.publicKey,
                StripFirst0x(env.signature), g.contractAddresses, user, g.startTimestamp, g.durationDays)
  }

  /**
   * What `decryptResult` does once its guards pass, for the health contract
   * at `health` and the signer `user`: read the session, stop as pending
   * unless its result is ready, fetch the handle, sign a fresh grant and
   * decrypt.
   */
  function DecryptRun(health: string, user: string, ledger: Ledger, env: DecryptEnv, id: nat): Run<Option<nat>> {
    var read := [Sessions(id)];
    if ReadSession(ledger, id).None? then Run(Failure(SessionUnreadable(id, ReadError(ledger, id))), read)
    else if !ReadSession(ledger, id).value.resultReady then Run(Success(None), read)
    else
      var fetched := read + [GetEncryptedResult(id)];
      if ResultStep in env.failures then Run(Failure(Rejected(ResultStep, env.failures[ResultStep])), fetched)
      else if env.resultHandle == "" then Run(Failure(InvalidHandle), fetched)
      else
        var signed := fetched + [GenerateKeypair, SignTypedData(DecryptGrant(health, env))];
        if SignStep in env.failures then Run(Failure(Rejected(SignStep, env.failures[SignStep])), signed)
        else
          var decrypted := signed + [DecryptCall(health, user, env)];
          if DecryptStep in env.failures then Run(Failure(Rejected(DecryptStep, env.failures[DecryptStep])), decrypted)
          else Run(Success(Interpret(env.outputs, env.resultHandle)), decrypted)
  }

  /** Read, handle fetch, key generation, signing and decryption happen in this order, each at most once. */
  lemma DecryptRunOrdered(health: string, user: string, ledger: Ledger, env: DecryptEnv, id: nat)
    ensures var run := DecryptRun(health, user, ledger, env, id);
      InDecryptOrder(run.calls) && run.calls[0] == Sessions(id)
  {
    var run := DecryptRun(health, user, ledger, env, id);
    var full := [Sessions(id), GetEncryptedResult(id), GenerateKeypair, SignTypedData(DecryptGrant(health, env)),
                 DecryptCall(health, user, env)];
    assert forall i | 0 <= i < 5 :: Rank(Decryption, full[i]) == i;
    assert run.calls == full[..|run.calls|] && 1 <= |run.calls| <= 5;
    RankedPrefix(Decryption, full, |run.calls|, 0, 5);
  }

  /**
   * The pending gate: an unreadable session fails the read, a session that
   * is not ready is pending after the read alone, and only a ready session
   * with a non-empty handle gets a keypair. An empty handle is the
   * "Invalid ciphertext handle" error.
   */
  lemma DecryptRunGate(health: string, user: string, ledger: Ledger, env: DecryptEnv, id: nat)
    ensures var run := DecryptRun(health, user, ledger, env, id);
      && (ReadSession(ledger, id).None? ==> run == Run(Failure(SessionUnreadable(id, ReadError(ledger, id))), [Sessions(id)]))
      && (ReadSession(ledger, id).Some? && !ResultReady(ledger, id) ==> run == Run(Success(None), [Sessions(id)]))
      && (GetEncryptedResult(id) in run.calls <==> ResultReady(ledger, id))
      && (GenerateKeypair in run.calls <==>
            ResultReady(ledger, id) && ResultStep !in env.failures && env.resultHandle != "")
      && (run.result == Failure(InvalidHandle) <==>
            ResultReady(ledger, id) && ResultStep !in env.failures && env.resultHandle == "")
  {
    var run := DecryptRun(health, user, ledger, env, id);
    if ResultReady(ledger, id) {
      assert run.calls[1] == GetEncryptedResult(id);
      if ResultStep !in env.failures && env.resultHandle != "" {
        assert run.calls[2] == GenerateKeypair;
      }
    }
  }

  /**
   * Every decryption presents the signed grant, which names only the health
   * contract, starts at the current second and lasts ten days, and asks
   * for exactly the result handle.
   */
  lemma DecryptRunAuthorised(health: string, user: string, ledger: Ledger, env: DecryptEnv, id: nat)
    ensures var run := DecryptRun(health, user, ledger, env, id);
      && (forall c | c in run.calls && c.SignTypedData? :: c.grant == DecryptGrant(health, env))
      && (forall c | c in run.calls && c.UserDecrypt? ::
            && SignTypedData(DecryptGrant(health, env)) in run.calls && SignStep !in env.failures
            && AuthorisedBy(c, DecryptGrant(health, env)) && RequestsResult(c, health, user, env))
  {
    var run := DecryptRun(health, user, ledger, env, id);
    if |run.calls| > 3 {
      assert run.calls[3] == SignTypedData(DecryptGrant(health, env));
    }
  }

  /**
   * A value comes back exactly when the decryption succeeds and its output
   * for the handle is an integer; a missing or boolean output is pending.
   */
  lemma DecryptRunOutcome(health: string, user: string, ledger: Ledger, env: DecryptEnv, id: nat)
    ensures var run := DecryptRun(health, user, ledger, env, id);
      && (run.result.Success? && run.result.value.Some? <==>
            DecryptCall(health, user, env) in run.calls && DecryptStep !in env.failures &&
            Interpret(env.outputs, env.resultHandle).Some?)
      && (DecryptCall(health, user, env) in run.calls && DecryptStep !in env.failures ==>
            run.result == Success(Interpret(env.outputs, env.resultHandle)))
  {
    var run := DecryptRun(health, user, ledger, env, id);
    if |run.calls| == 5 {
      assert run.calls[4] == DecryptCall(health, user, env);
    }
  }

  /**
   * What `decryptResult` does: without the instance, the signer, a chain
   * or the health contract it returns `null` before any call; otherwise it
   * does what `DecryptRun` describes for the health contract and the caller.
   */
  function DecryptResultRun(ctx: Context, ledger: Ledger, env: DecryptEnv, id: nat): Run<Option<nat>> {
    if !Ready(ctx) || HealthAddress(ctx).None? then Run(Success(None), [])
    else DecryptRun(HealthAddress(ctx).value, ctx.user, ledger, env, id)
  }

  /**
   * `decryptResult`: `None` is the pending outcome. Without the instance,
   * the signer, a chain or the health contract it is pending before any
   * call; otherwise it does what `DecryptRun` describes.
   */
  method DecryptResult(ctx: Context, ledger: Ledger, env: DecryptEnv, sessionId: nat)
    returns (r: Result<Option<nat>, Error>, calls: seq<Call>)
    ensures Run(r, calls) == DecryptResultRun(ctx, ledger, env, sessionId)
  {
    calls := [];
    if !Ready(ctx) {
      return Success(None), calls;
    }
    var health := HealthAddress(ctx);
    if health.None? {
      return Success(None), calls;
    }

    // The session's status is read before anything else.
    calls := calls + [Sessions(sessionId)];
    var s := ReadSession(ledger, sessionId);
    if s.None? {
      return Failure(SessionUnreadable(sessionId, ReadError(ledger, sessionId))), calls;
    }
    if !s.value.resultReady {
      return Success(None), calls;
    }

    // The encrypted result's handle.
    calls := calls + [GetEncryptedResult(sessionId)];
    if ResultStep in env.failures {
      return Failure(Rejected(ResultStep, env.failures[ResultStep])), calls;
    }
    var handle := env.resultHandle;
    if handle == "" {
      return Failure(InvalidHandle), calls;
    }

    // A fresh keypair and a signed grant for this contract.
    var keys := env.keypair;
    var startTimestamp := env.nowMillis / 1000;
    var grant := Grant(keys.publicKey, [health.value], startTimestamp, GrantDurationDays);
    calls := calls + [GenerateKeypair, SignTypedData(grant)];
    if SignStep in env.failures {
      return Failure(Rejected(SignStep, env.failures[SignStep])), calls;
    }

    // The relayer decrypts the handle for the signer.
    calls := calls + [UserDecrypt([DecryptRequest(handle, health.value)], keys.privateKey, keys.publicKey,
                                  StripFirst0x(env.signature), [health.value], ctx.user,
                                  startTimestamp, GrantDurationDays)];
    if DecryptStep in env.failures {
      return Failure(Rejected(DecryptStep, env.failures[DecryptStep])), calls;
    }
    var value := if handle in env.outputs then Some(env.outputs[handle]) else None;
    if value.None? || value.value.ClearBool? {
      return Success(None), calls;
    }
    r := Success(Some(value.value.n));
  }
}
