# Encrypted health sessions: client model

This project models the browser client of the encrypted health-check
dApp in Dafny:

- **The hook `useHealthSessions`.** It finds the deployed contracts and
  pays the visit fee in USDC. It creates a session, then encrypts the
  patient's four answers and submits them for that session. It also
  lists the caller's sessions, newest first, and decrypts a session's
  risk score through a user-decryption grant.
- **The patient page (`Create.tsx`).** Its form validates the four
  inputs before any network call and resets after a successful
  submission. Its status panel shows a decrypted risk score with its
  colour and advice, or "pending".
- **The admin page (`Admin.tsx`).** It loads the contract's owner,
  oracle and balance, and checks whether the caller is the owner,
  ignoring case. It counts completed and pending sessions, and guards
  the two owner transactions with an address check.

### Modelling approach

- **Calls.** The hook's creation and decryption chains record every
  external call they make (contract read, transaction, block read,
  encryption, signature, decryption) in a returned trace
  `calls: seq<Call>`. The signer's `getAddress()` is not a recorded
  call: the caller's address is part of the context. The discovery
  scan and the admin page's reads are not traced either (see
  "## Left out"); the admin page's two transactions go into their own
  list `txs: seq<Tx>`.
- **The outside world.** What the outside world answers is an
  environment value, passed in. Its `failures` map says which awaited
  step throws and with what message.
- **The hook.** Its operations are methods.
  `CreateSessionAndSubmit` is proved equal to the specification
  function `CreateSessionRun`, which applies the hook's guards and then
  runs `CreateRun`, built from the stages `FeeStage`, `CreateStage`
  and `SubmitStage`. `DecryptResult` is proved equal to
  `DecryptResultRun`, which applies the guards and then runs
  `DecryptRun`. Lemmas then state what those functions guarantee: call
  order, the fee gate, the content of each encryption and submission,
  and the outcome. `FetchMySessions` has no specification function:
  its `ensures` state its result directly (which rows, in what order,
  and the failure cases).
- **The two pages.** They are classes whose fields are the React
  state. The form's submit handler and the admin handlers are proved
  to leave the page in the state given by a specification function of
  the old state: `AfterSubmit`, `Loaded`, `Withdrawn`,
  `OracleReplaced`. Lemmas about those functions state the guarantees.
  The status panel's `OpenStatusModal` states its new fields and what
  the panel then shows directly.

### Modules and files

| Module | File | Contents |
|---|---|---|
| `Wrappers` | `wrappers.dfy` | `Option` and `Result`. |
| `Addresses` | `addresses.dfy` | The address shape `getAddress` accepts, its normal form, and ASCII lower-casing. |
| `HealthLedger` | `health_ledger.dfy` | The on-chain session records as the client reads them, and the receipt logs of `createSession`. |
| `HealthClient` | `health_client.dfy` | `getContracts`, the call and error vocabulary, and call order by rank. |
| `SessionCreation` | `session_creation.dfy` | `createSessionAndSubmit`. |
| `SessionDiscovery` | `session_discovery.dfy` | `fetchMySessions`. |
| `ResultDecryption` | `result_decryption.dfy` | `decryptResult`. |
| `CreatePage` | `create_page.dfy` | `Create.tsx`. |
| `AdminPage` | `admin_page.dfy` | `Admin.tsx`. |

Measurements are reals and scores are integers. Addresses are strings.
Token amounts are whole base units: the visit fee is 10 USDC at 6
decimals, `10_000_000`.

## Model

| member | source | states |
|---|---|---|
| HealthClient.GetContracts | packages/site/hooks/useHealthSessions.tsx:21-34 | Contracts are found exactly when a signer or read-only provider exists, a non-zero chain is selected and the health deployment for it is non-empty; the health address is that entry; the USDC address is present exactly when its own deployment entry is non-empty, and is that entry |
| HealthClient.RankedConcat | packages/site/hooks/useHealthSessions.tsx:46-98 | Joining a strictly ordered trace to a strictly ordered trace of later steps gives a strictly ordered trace (the composition step behind the ordering lemmas) |
| HealthClient.RankedPrefix | packages/site/hooks/useHealthSessions.tsx:46-98 | Every prefix of a strictly ordered trace is strictly ordered within the same rank range |
| HealthLedger.FirstCreationIdSpec | packages/site/hooks/useHealthSessions.tsx:60-72 | The receipt scan finds no id exactly when no log parses as `SessionCreated`; otherwise it returns the first argument of the earliest such log |
| HealthLedger.LaterLogsIgnored | packages/site/hooks/useHealthSessions.tsx:62-68 | Once a `SessionCreated` log is found, logs after it cannot change the id (the `break`) |
| SessionCreation.ScanCreationLogs | packages/site/hooks/useHealthSessions.tsx:60-71 | The loop over receipt logs: no logs gives no id, otherwise the id of the first creation log |
| SessionCreation.CentiWithinHundredth | packages/site/hooks/useHealthSessions.tsx:86-87 | `Math.floor(x * 100)`, read back as hundredths, is within one hundredth of x and never above it |
| SessionCreation.CentiOfMeasurement | packages/site/hooks/useHealthSessions.tsx:86-87 | A weight or height in (0, 300] encodes to 0..30000, inside the 64-bit range of `add64` |
| SessionCreation.EncodeExample | packages/site/hooks/useHealthSessions.tsx:85-89 | The builder receives 70.5 kg, 175 cm, exercise 3, diet 7 as `add64(7050)`, `add64(17500)`, `add8(3)`, `add8(7)`, in that order |
| SessionCreation.SubmitStageOrdered | packages/site/hooks/useHealthSessions.tsx:83-98 | The submission stage makes at most an encryption then a submission, in that order |
| SessionCreation.SubmitStageContent | packages/site/hooks/useHealthSessions.tsx:83-100 | The submission stage encrypts the encoded input for the normalised contract and user, submits the four handles and proof for the given id, and succeeds exactly when it submitted and the submission did not throw |
| SessionCreation.SubmitAfter | packages/site/hooks/useHealthSessions.tsx:56-98 | Creation and block-read calls followed by the submission stage stay strictly ordered |
| SessionCreation.CreateStageOrdered | packages/site/hooks/useHealthSessions.tsx:56-98 | The creation stage starts with `createSession` and then calls block read, encryption and submission at most once each, in that order |
| SessionCreation.CreateStageContent | packages/site/hooks/useHealthSessions.tsx:56-100 | When `createSession` succeeds but no receipt log is a `SessionCreated` event, the stage fails with "Unable to get session ID" right after that one call; without a recovered id nothing is encrypted or submitted; with one, any submission is for that id; success carries that id and the block timestamp (or none without a provider) |
| SessionCreation.FeeStageOrdered | packages/site/hooks/useHealthSessions.tsx:46-53 | The fee preflight starts with the balance read, then the allowance read, then at most one approve |
| SessionCreation.FeeStageContent | packages/site/hooks/useHealthSessions.tsx:46-53 | A short balance stops after the balance read with the insufficient-balance error; any approve is for exactly the fee to the health contract; approve happens exactly when both reads pass and the allowance is short; the preflight passes exactly when both reads pass and the allowance suffices or the approve does not throw |
| SessionCreation.CreateRunOrdered | packages/site/hooks/useHealthSessions.tsx:43-98 | A whole creation run starts with the caller's balance read and makes balance, allowance, approve, create, block, encrypt and submit calls each at most once and in that order |
| SessionCreation.CreateRunFeeGate | packages/site/hooks/useHealthSessions.tsx:44-56 | The fee gate of the whole run: insufficient balance makes only the balance read; approvals are exactly the fee; approve happens exactly when the reads pass and allowance is short; `createSession` is called exactly when the fee is covered |
| SessionCreation.CreateRunSubmission | packages/site/hooks/useHealthSessions.tsx:72-98 | Every encryption carries the encoded input for the normalised addresses; with no recovered id nothing is encrypted or submitted; otherwise every submission is for the recovered id with the encryption's handles |
| SessionCreation.CreateRunOutcome | packages/site/hooks/useHealthSessions.tsx:55-100 | When the fee preflight passes and `createSession` succeeds but no id is recovered, the run fails with "Unable to get session ID" after the preflight's calls and `createSession`; the run succeeds exactly when it submitted and the submission did not throw, and then returns the recovered id and the block's `createdAt` when a provider exists |
| SessionCreation.PayFee | packages/site/hooks/useHealthSessions.tsx:46-53 | The fee preflight as statements, proved equal to `FeeStage` |
| SessionCreation.CreateAndSubmit | packages/site/hooks/useHealthSessions.tsx:55-100 | Create, recover the id, read the block, then encrypt and submit, proved equal to `CreateStage` |
| SessionCreation.EncryptAndSubmit | packages/site/hooks/useHealthSessions.tsx:82-100 | Normalise, encode, encrypt and submit, proved equal to `SubmitStage` |
| SessionCreation.CreateSessionAndSubmit | packages/site/hooks/useHealthSessions.tsx:37-103 | Result and calls are exactly `CreateSessionRun`: not ready fails with "FHEVM or signer not ready" and calls nothing; no health or USDC contract fails with "Contracts not available" and calls nothing; otherwise `CreateRun`, about which the lemmas above hold |
| SessionDiscovery.ListedBelowSpec | packages/site/hooks/useHealthSessions.tsx:114-133 | The scan below k pushes rows in ascending id order, and a row is pushed exactly when its id is below k, its read succeeds, it exists and its owner normalises to the caller's address |
| SessionDiscovery.InsertSmallest | packages/site/hooks/useHealthSessions.tsx:135 | Inserting a row whose id is below all others puts it last |
| SessionDiscovery.SortOfAscending | packages/site/hooks/useHealthSessions.tsx:135 | Sorting by descending id a list already in ascending order yields its reverse |
| SessionDiscovery.ReverseOfAscending | packages/site/hooks/useHealthSessions.tsx:135 | The reverse of an ascending list is descending and holds the same rows |
| SessionDiscovery.FetchMySessions | packages/site/hooks/useHealthSessions.tsx:105-136 | No signer, no read-only provider or no contract gives `[]`; a `nextSessionId` read that throws rejects the call with its message; otherwise it succeeds, and the rows are strictly descending by id and are exactly the caller's existing, readable sessions below `nextSessionId`, each with its result flag and creation time |
| ResultDecryption.StripFirst0x | packages/site/hooks/useHealthSessions.tsx:171 | `replace("0x", "")` drops a leading "0x" and otherwise shortens by two or not at all |
| ResultDecryption.StripFirst0xAbsent | packages/site/hooks/useHealthSessions.tsx:171 | A string without "0x" is unchanged |
| ResultDecryption.StripFirst0xAt | packages/site/hooks/useHealthSessions.tsx:171 | Only the first occurrence of "0x" is removed, wherever it is |
| ResultDecryption.StripSignaturePrefix | packages/site/hooks/useHealthSessions.tsx:159-171 | Any "0x"-prefixed string, such as the signature, loses exactly its prefix |
| ResultDecryption.Interpret | packages/site/hooks/useHealthSessions.tsx:178-180 | A decrypted value is returned exactly when the output holds a non-boolean value for the handle, and it is that value |
| ResultDecryption.DecryptCall | packages/site/hooks/useHealthSessions.tsx:153-176 | The `userDecrypt` call presents the signed grant's public key, contracts, start and duration, and asks for the result handle at the health contract for the caller |
| ResultDecryption.DecryptRunOrdered | packages/site/hooks/useHealthSessions.tsx:144-176 | The session read comes first, then handle fetch, key generation, signing and decryption, each at most once and in that order |
| ResultDecryption.DecryptRunGate | packages/site/hooks/useHealthSessions.tsx:144-151 | A read that throws fails with that read's message and only the read made; a session without a result yields `null` after only the read; the handle is fetched exactly when the result is ready; keys are made exactly when the handle fetch succeeds with a non-empty handle; the invalid-handle error happens exactly for an empty handle |
| ResultDecryption.DecryptRunAuthorised | packages/site/hooks/useHealthSessions.tsx:153-176 | Every signature is over the grant for this contract, key and start time; every decryption follows a successful signature of that grant and is authorised by it |
| ResultDecryption.DecryptRunOutcome | packages/site/hooks/useHealthSessions.tsx:167-180 | A number is returned exactly when decryption ran without throwing and produced a non-boolean value for the handle; once decryption runs, the result is that interpretation |
| ResultDecryption.DecryptResult | packages/site/hooks/useHealthSessions.tsx:138-183 | Result and calls are exactly `DecryptResultRun`: not ready or no contract gives `null` with no calls; otherwise `DecryptRun` for the health contract and the caller |
| CreatePage.Validate | packages/site/components/Create.tsx:57-75 | Input passes exactly when weight and height are numbers in (0, 300], exercise in 1..5 and diet in 1..10, and then carries those values; otherwise the message of the first failing guard, in source order |
| CreatePage.ValidatedIsEncodable | packages/site/components/Create.tsx:57-85 | Every validated input encodes within the 64- and 8-bit ranges of the encryption builder |
| CreatePage.SubmitGuardsFirst | packages/site/components/Create.tsx:45-99 | No call is made unless the context is ready and all four fields pass, and then the first call is the caller's balance read; a refused submission changes only the error; an attempted one ends in success, with the fields cleared, exactly when the session was created and submitted |
| CreatePage.CreateForm.HandleSubmit | packages/site/components/Create.tsx:45-99 | The form's new state and calls are exactly `AfterSubmit` of its old state: not-ready message, first validation message, reset fields and success status with `createdAt` kept when absent, or the error's message with error status |
| CreatePage.DecimalRoundTrip | packages/site/components/Create.tsx:261 | `value.toString()` of a decrypted score is a non-empty digit string that `Number` reads back as the same score |
| CreatePage.ToneOf | packages/site/components/Create.tsx:405-420 | Green exactly for risk 0, yellow exactly for risk 1, red otherwise |
| CreatePage.NoteOf | packages/site/components/Create.tsx:421-428 | A note is shown exactly for risks 0, 1 and 2 |
| CreatePage.ScoreShown | packages/site/components/Create.tsx:401-445 | The panel shows "pending" exactly for a `null` result; any number, 0 included, stored as its decimal string shows as a score with that number's tone and note |
| CreatePage.StatusPanel.OpenStatusModal | packages/site/components/Create.tsx:250-268 | The panel opens on the session and stops decrypting; its calls are the decryption's; `null` leaves no result and no error, a number stores its decimal string, a failure stores the thrown message; the panel then shows the number as a score with its tone and note, and shows "pending" for `null` or a failure |
| AdminPage.CountStepSizes | packages/site/components/Admin.tsx:77-96 | Scanning one more id adds one to the completed or pending set size exactly when that id's session is completed or pending |
| AdminPage.CountsAreSetSizes | packages/site/components/Admin.tsx:77-96 | The running counts equal the numbers of completed and of pending ids scanned |
| AdminPage.CountsWithinTotal | packages/site/components/Admin.tsx:77-96 | Completed and pending together never exceed the number of ids scanned |
| AdminPage.CountSessions | packages/site/components/Admin.tsx:77-96 | The counting loop yields the completed and pending counts over all ids below `nextSessionId` |
| AdminPage.LoadedStats | packages/site/components/Admin.tsx:70-100 | After a successful load, the owner flag holds exactly when caller and owner agree ignoring case; the total is `nextSessionId`; completed and pending are the sizes of the completed and pending id sets and together at most the total |
| AdminPage.AdminPanel.RecordContractInfo | packages/site/components/Admin.tsx:70-74 | Stores the owner, oracle and balance that were read, and sets the owner flag to case-insensitive equality of caller and owner; nothing else changes |
| AdminPage.AdminPanel.RecordStats | packages/site/components/Admin.tsx:75-100 | Stores `nextSessionId` as the total and the counting loop's completed and pending counts; nothing else changes |
| AdminPage.AdminPanel.LoadData | packages/site/components/Admin.tsx:53-103 | The page's new state is exactly `Loaded` of its old state: nothing without a signer or contract, the caller's address and the first read's error when a read throws, otherwise owner, oracle, balance, owner flag and the three statistics |
| AdminPage.GuardsBeforeTransactions | packages/site/components/Admin.tsx:136-197 | Each handler sends at most one transaction, only to an address that passed the guard; a refused address shows "Invalid address" and changes nothing else |
| AdminPage.GuardedAddressesAreValid | packages/site/components/Admin.tsx:137 | An address that passes the guard is a forty-digit address that normalises |
| AdminPage.AdminPanel.HandleWithdraw | packages/site/components/Admin.tsx:136-165 | New state and transactions are exactly `Withdrawn`: refused, no contract, send failed, sent but not confirmed, or withdrawn with the field cleared |
| AdminPage.AdminPanel.HandleUpdateBackendOracle | packages/site/components/Admin.tsx:168-197 | New state and transactions are exactly `OracleReplaced`, with the same cases as the withdrawal |
| Addresses.NormalizeShape | packages/site/hooks/useHealthSessions.tsx:83-84 | `getAddress` accepts exactly forty hex digits with or without "0x", and yields a prefixed lower-case forty-digit string |
| Addresses.NormalizeIdempotent | packages/site/hooks/useHealthSessions.tsx:119 | Normalising a normalised address changes nothing |
| Addresses.NormalizeAgreesWithCaseInsensitive | packages/site/components/Admin.tsx:74 | For prefixed addresses, the discovery scan's `getAddress` equality and the admin page's lower-case equality agree |
| Addresses.EmptyIsNotAddress | packages/site/components/Admin.tsx:137 | The empty string is not an address, so the `!address` half of the guard adds nothing |

## Left out

- Floating point: `parseFloat` and `parseInt` are parameters of the form handler, with `None` for `NaN`. Measurements are exact reals, so IEEE rounding of `x * 100` is not modelled.
- The EIP-55 checksum: `getAddress` and `isAddress` accept any letter case here, with the normal form written in lower case. ethers rejects mixed-case strings with a wrong checksum; this model accepts them. ethers also accepts the ICAP form (`XE…`); this model rejects it.
- Dates and text formatting: `toLocaleString` of block times is not modelled; `createdAt` stays a timestamp in seconds. `formatUnits` of the contract balance is not modelled; the balance stays in base units. The success notices are datatype values, not formatted strings.
- Loading flags (`loading`, `withdrawLoading`, `updateOracleLoading`) and the `finally` blocks that reset them are not modelled.
- The 1.5-second `setTimeout` after a successful submission and the callbacks it runs are not modelled.
- The `useEffect` subscriptions (`Admin.tsx` lines 105-133) are not modelled.
- AdminPage.AdminPanel.HandleWithdraw: does not model the `loadData` refresh after a confirmed withdrawal; call `LoadData` after it to follow that.
- AdminPage.AdminPanel.HandleUpdateBackendOracle: does not model the `loadData` refresh after a confirmed update.
- `Number(nextSessionId)` and `Number(args[0])` precision: ids are unbounded naturals.
- AdminPage.AdminPanel.LoadData: its contract reads (`owner`, `backendOracle`, `nextSessionId`, the balance and each `sessions(i)`) are not recorded as calls; their answers come from the environment and the ledger snapshot, and a read that throws is modelled by its message. Only the page's state after the load is stated.
- The signer's `getAddress()` awaits are not recorded as calls: the caller's address is an input of each operation.
- The discovery scan's `nextSessionId` read, per-session reads and event queries are not recorded as calls. A `nextSessionId` read that throws is modelled, as a failure outcome. The ledger snapshot answers the other reads: `CreationStamp` is absent when the query fails or finds nothing.
- Keypair generation, EIP-712 encoding and the relayer are not modelled. Their results are environment values; only the fields the client passes on are checked.
- The wording of errors thrown by libraries (`getAddress`, the encryption builder, `hexlify`) is not modelled. They are the datatype errors `BadAddress`, `ValueOutOfRange` and `MissingHandles`. Messages thrown by contract calls come from the environment, and those of `sessions(id)` reads from the ledger snapshot.
- The encrypted-input builder is not modelled as an object. Its `add64`/`add8` sequence is the batch value carried by the encryption call.
- CreatePage.ParseNumber: reads only plain digit strings, which is all `bigint.toString()` produces; other inputs of `Number` are not modelled.
- CreatePage.Validate: follows the code, not the message. The messages say "between 1-300", but the guards accept any weight or height above 0 up to 300, such as 0.5.
- Addresses.Lower: lower-cases ASCII letters only, where JavaScript's `toLowerCase` lower-cases all of Unicode. The admin page compares two address strings returned by ethers, which are ASCII, so the owner check (`LoadedStats`' "ignoring case") is ASCII case-insensitive equality.
- Concurrency between handlers, and React re-rendering, are not modelled: each handler runs to completion on the state it starts from.
