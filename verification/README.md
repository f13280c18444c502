# Agent keys: verified models of the dense cores

Dafny models of the parts of the repository where bytes must read back in one way only, where asynchronous code must
survive every interleaving, where crashes must leave local state usable, and where a catalog and its validator must
agree. `dafny verify dfyconfig.toml` checks everything; there is one module per core file, or a few where one protocol
has several results.

- **Byte encodings.** RLP (Ethereum Yellow Paper, Appendix B) and EIP-155 signing: `ByteStrings`, `Rlp`,
  `LegacyTransaction`. The `verifyAssertion` call (Solidity Contract ABI Specification, "Formal Specification of the
  Encoding"): `EvmWords`, `AccountSigner`. `paymasterAndData` and the digest signed over it: `Sponsor`. Unpadded
  base64url (section 5 of RFC 4648) and hex: `Hex`, `WebAuthn`. Decimal balances: `Decimals`, `WeiUnits`. Each encoder
  has a strict reader as its independent specification, and the two are inverse to each other.
- **Asynchronous protocols.** The contact-registry backup protocol: `Gateway` (the code, the server, the events),
  `GatewayQueue`, `GatewayAgreement`, `GatewayHarmless`, `GatewayReplacement`, `GatewayFailure`, `GatewayRecovery`,
  `GatewayBackups`, `GatewayBoundary`, `GatewayTwoConsoles`. The console session: `ConsoleSession`. Its read side:
  `ConsoleRead`. The bundler's submit path: `Bundler`. Every await is a step between which any other event may happen; a
  class holds the source's mutable variables, its methods are proved equal to step functions, and the results are about
  all runs of those.
- **Reconcilers and local state.** `LeaseSweeper`, `AuditAnchor`, `ServiceManifest`, `IdentityStore`.
- **Lattices and fixpoints.** `Catalogs` and `Validators`; `Affected`, with `Ordering`.

## Where the obvious claim is false

- A verifier reads the chain id back from `v` if and only if the recovery id is 0 or 1
  (`LegacyTransaction.ReconstructExactly`, `RecoveryIdTwoCollides`).
- Registry agreement holds as long as no request that was left behind, by a new access object or by a failure, takes
  effect under the eyes of a later session (`GatewayAgreement.RegistryAgreement`). Which requests can do so is exact:
  an unanswered mutation, login poll or restore, or the unanswered backup of an emptied gate over a copy with contents.
  `setHostedGatewayAccess` leaves one behind when it brings a new access object while the request is on its way
  (`GatewayReplacement.ReplacementExactly`, `DangerIsReached`). So does an await that fails before the answer, with the
  access object still in place (`GatewayFailure.FailureExactly`, `FailureIsReached`). A request that is turned down for
  good never does (`GatewayFailure.DeclinedNeverSpoils`).
- The reconcile path exports the gate before it reads the copy, so the claim about newer backups covers the mutation
  path only. `GatewayBoundary.ReconcileReplacesNewerExactly` says by events when the other path makes the copy older;
  `GatewayTwoConsoles.ReportedBackupIsReplaced` is a run of two consoles in which it does.
- A mutation whose backup failed survives the next listing only if it did not leave the gate empty over a copy with
  contents (`GatewayBoundary.ChangeSurvivesReconcileExactly`, `GatewayRecovery.FailedBackupExactly`).
- The read hook's guard protects from the moment the scope effect has run, not from the render on
  (`ConsoleRead.DeliveryExactly`, `RenderedButNotCommitted`).
- Floors never drop, entities may: an overlay can move an entity to a safe category (`Catalogs.EntityDropsExactly`,
  `StripeDrops`).
- The broker signs over 64-bit validity times, the layout keeps 48 bits (`Sponsor.VerifierAgreesExactly`,
  `WindowBeyond48BitsIsLost`).
- At most one audit send is at most one: a run that dies between journal and send strands its hash
  (`AuditAnchor.StrandedForGood`).
- A disk policy set alone is stored without the validation every run makes: a policy short enough as typed may be too
  long as stored, and no plain run completes afterwards (`ServiceManifest.PlainRerunExactly`, `LongPolicyLocksOut`,
  `OneMemberGrowsExactly`).
- A stack's older key is adopted once, unless the console writes it anew (`IdentityStore.ChainKeyReturnsExactly`).

## Assumptions

- Keccak, ECDSA, the URL parser, cron entries and the chain's verdict on a receipt are function or value parameters.
- The gateway server and the storage of copies act on a request at most once, at any time, whether or not its failure
  has been reported by then, or turn it down for good. Registry revisions are never used twice (a revision is the hash
  of a freshly encrypted envelope). The await after reconciling is modelled too.
- The bundler's account is used by this bundler only, an answered nonce is the node's pending count, and a broadcast
  whose reply is lost, or whose caller goes away, was accepted by then or never will be.
- Owner runs and `prepare` runs are serialized by the operation lock, and a file replacement is atomic; a crash
  between steps is a run that ends there. Listeners that pick browser ports stay open, so no port is handed out twice.
- A React render and the run of its effects are separate steps in `ConsoleRead`; in `ConsoleSession` an unmount and a
  mount are. Callers may hold a `refresh` of an earlier client.
- A validated output is its JSON tree together with what it parses to; confidence and amounts are reals.

## Model

| member | source | states |
|---|---|---|
| `ByteStrings.StripLeadingZeros` | crates/agentkeys-bundler/src/legacy_tx.rs:51-54 | the kept part starts at the first non-zero byte; zero becomes the empty string |
| `ByteStrings.MinimalBigEndian` | crates/agentkeys-bundler/src/legacy_tx.rs:51-59 | full width then stripped is the unique minimal big-endian form of the number |
| `ByteStrings.MinimalUnique` | crates/agentkeys-bundler/src/legacy_tx.rs:51-59 | two minimal byte strings that denote one number are one string |
| `Rlp.RlpBytes` | crates/agentkeys-bundler/src/legacy_tx.rs:14-31 | the bytes written are the item with that payload, in the one-byte, short and long forms |
| `Rlp.RlpList` | crates/agentkeys-bundler/src/legacy_tx.rs:33-49 | the bytes written are the list item over the concatenated items |
| `Rlp.ReadExact` | crates/agentkeys-bundler/src/legacy_tx.rs:14-49 | a strict reader returns an item and a suffix if and only if the input is the writer's bytes for that item followed by that suffix |
| `Rlp.DecodeExact` | crates/agentkeys-bundler/src/legacy_tx.rs:14-49 | a strict decoder accepts a byte string as a document, at any nesting depth, if and only if it is what the writer produces for it |
| `Rlp.PrefixFree` | crates/agentkeys-bundler/src/legacy_tx.rs:14-49 | no document's encoding is a proper prefix of another document's |
| `Rlp.ConcatOfEncodings` | crates/agentkeys-bundler/src/legacy_tx.rs:33-49 | handing the list writer the encodings of documents builds the encoding of their list |
| `LegacyTransaction.RlpUint` | crates/agentkeys-bundler/src/legacy_tx.rs:57-59 | an integer is written as the RLP string of its minimal bytes |
| `LegacyTransaction.BaseFields` | crates/agentkeys-bundler/src/legacy_tx.rs:74-84 | the six fields in order, each as its RLP string, the address as 20 bytes |
| `LegacyTransaction.SigningHash` | crates/agentkeys-bundler/src/legacy_tx.rs:86-93 | the hash is taken over the encoding of the nine-field EIP-155 list |
| `LegacyTransaction.Sign` | crates/agentkeys-bundler/src/legacy_tx.rs:96-110 | the raw bytes encode the signed list, with v = 35 + 2·chain + recovery id inside u128; a refusing signer gives no transaction |
| `LegacyTransaction.SigningPayloadInjective` | crates/agentkeys-bundler/src/legacy_tx.rs:74-93 | two transactions hashed from the same bytes agree in all seven fields |
| `LegacyTransaction.DecodeRecoversFields` | crates/agentkeys-bundler/src/legacy_tx.rs:96-110 | strictly decoding the raw bytes gives back nonce, gas price, gas limit, to, value, data, v, and r and s padded to 32 bytes |
| `LegacyTransaction.ReconstructExactly` | crates/agentkeys-bundler/src/legacy_tx.rs:96-110 | a verifier recovers the transaction with its chain id, and the recovery id, if and only if the recovery id is 0 or 1 |
| `LegacyTransaction.ReconstructShifts` | crates/agentkeys-bundler/src/legacy_tx.rs:96-110 | above 1 the verifier sees the same transaction on the next chain with the recovery id two lower, and at the top of the range of chain ids it sees nothing |
| `LegacyTransaction.SamePayloadExactly` | crates/agentkeys-bundler/src/legacy_tx.rs:86-110 | the verifier hashes the very payload that was signed if and only if the recovery id is 0 or 1 |
| `LegacyTransaction.RecoveryIdTwoCollides` | crates/agentkeys-bundler/src/legacy_tx.rs:96-110 | concrete failure: recovery id 2 on chain 1 is byte for byte recovery id 0 on chain 2 |
| `Gateway.RegistryIsEmpty` | apps/parent-control/lib/gatewayClient.ts:189-198 | the scan refuses exactly the malformed documents and finds exactly the empty ones |
| `Gateway.HostedGateway.SetHostedGatewayAccess` | apps/parent-control/lib/gatewayClient.ts:146-150 | new access, no reconciled session, a fresh queue; nothing else changes |
| `Gateway.HostedGateway.CheckHostedSession` | apps/parent-control/lib/gatewayClient.ts:206-210 | true exactly while the console still has this access object and that object this session |
| `Gateway.HostedGateway.Enqueue` | apps/parent-control/lib/gatewayClient.ts:285-289 | a serialized call is chained behind the last one of its queue |
| `Gateway.HostedGateway.StartExecution` | apps/parent-control/lib/gatewayClient.ts:240-249 | up to the first await the fields and the call become what the step function says |
| `Gateway.HostedGateway.FinishReconciling` | apps/parent-control/lib/gatewayClient.ts:231-232 | the session is marked reconciled only if it still holds |
| `Gateway.HostedGateway.ContinueReading` | apps/parent-control/lib/gatewayClient.ts:224-230 | save, restore or neither, by the two emptiness scans |
| `Gateway.HostedGateway.ContinueExecution` | apps/parent-control/lib/gatewayClient.ts:212-279 | each stretch of code between two awaits changes the fields and the call as the step function says |
| `Gateway.HostedGateway.Catch` | apps/parent-control/lib/gatewayClient.ts:265-278 | the outcome reported for an error, by what was applied and backed up; the reconciled session is forgotten |
| `GatewayQueue.OneAtATimeInCallOrder` | apps/parent-control/lib/gatewayClient.ts:281-290 | in every run of any number of consoles, a serialized call that has begun finds every earlier call of its queue ended, whatever failed |
| `GatewayAgreement.RegistryAgreement` | apps/parent-control/lib/gatewayClient.ts:206-290 | one console, every interleaving of calls, session changes, new access objects no pending call holds, failures, refusals and late replies, in which no request of an earlier queue or of a failed call takes effect under the session's eyes (changes a side of an account that a call under way or a reconciled session relies on): whenever no serialized call is under way and a session is marked reconciled, gate and copy are equal or both empty |
| `GatewayHarmless.HarmlessAgreement` | apps/parent-control/lib/gatewayClient.ts:206-290 | every run that leaves no dangerous request behind, neither by a new access object nor by a failure, is such a run |
| `GatewayBackups.BackupNeverReplacesNewer` | apps/parent-control/lib/gatewayClient.ts:250-258 | any number of consoles: a backup after a mutation, late ones included, replaces only a copy of the same or an older gate |
| `GatewayBackups.ReportsAreTrue` | apps/parent-control/lib/gatewayClient.ts:240-279 | any number of consoles: a reported failed backup means the gate got the change; a success or a failed follow-through of a change means the backup landed and wrote a version of the gate no older than the one the change made |
| `GatewayBoundary.ChangeSurvivesReconcileExactly` | apps/parent-control/lib/gatewayClient.ts:220-233 | a change without backup survives the next reconcile if and only if it did not leave the gate empty over a non-empty copy; the sides agree afterwards either way |
| `GatewayBoundary.ReconcileReplacesNewerExactly` | apps/parent-control/lib/gatewayClient.ts:220-233 | any number of consoles, every run: the copy a reconcile writes is older than the one it read if and only if, between its export and its read, writes of the copy landed of which the last carried a gate that had changed since the export |
| `GatewayRecovery.FailedBackupExactly` | apps/parent-control/lib/gatewayClient.ts:220-279 | in every run: a mutation whose backup is turned down is reported as a failed backup with its change on the gate, and the next listing keeps the change if and only if it did not leave the gate empty over a copy with contents; the sides agree afterwards either way |
| `GatewayRecovery.RefusedCallRecovers` | apps/parent-control/lib/gatewayClient.ts:220-279 | the same decision after any refused request of the console's last call, a refused restore included |
| `GatewayTwoConsoles.ReportedBackupIsReplaced` | apps/parent-control/lib/gatewayClient.ts:220-279 | a concrete run of two consoles from their logins on: a mutation is applied, backed up and reported as a success, then the other console's listing writes the older registry it had exported over that backup |
| `GatewayReplacement.ReplacementExactly` | apps/parent-control/lib/gatewayClient.ts:146-150 | one console: in every world a harmless run leads to, with valid documents: bringing an access object no pending call holds lets some continuation end idle, reconciled and in disagreement if and only if a request on its way, of a call that has ended or not, is an unanswered mutation, login poll or restore, or the unanswered backup of an emptied gate over a copy with contents still at its baseline |
| `GatewayReplacement.MidCallReplacementBreaksAgreement` | apps/parent-control/lib/gatewayClient.ts:146-150 | the failing continuation, from every orderly world with such a request, reached or not, and for every login of the same account in the new object |
| `GatewayReplacement.DangerIsReached` | apps/parent-control/lib/gatewayClient.ts:146-150 | such a world is reached from a fresh console at first contact, and the replacement then leads to disagreement |
| `GatewayFailure.FailureExactly` | apps/parent-control/lib/gatewayClient.ts:260-279 | one console: in every world a harmless run leads to, with valid documents: a failing await lets some continuation end idle, reconciled and in disagreement if and only if the call holds its console's access object and its request is undecided and such a one; never if the request was answered or turned down; no new access object is needed |
| `GatewayFailure.DeclinedNeverSpoils` | apps/parent-control/lib/gatewayClient.ts:256-279 | a request turned down for good lets no harmless continuation disagree, before or after its call fails |
| `GatewayFailure.FailureIsReached` | apps/parent-control/lib/gatewayClient.ts:260-279 | such a failure is reached from a fresh console at first contact, reported as an unavailable registry |
| `AccountSigner.EncodeVerifyAssertionCall` | crates/agentkeys-broker-server/src/account_signer.rs:51-94 | the data is nine head words and two length-prefixed, zero-padded tails at the offsets the head states |
| `AccountSigner.DecodeExact` | crates/agentkeys-broker-server/src/account_signer.rs:51-94 | a strict reader accepts the data for nine arguments if and only if it is the encoder's data for them |
| `AccountSigner.ReadAccepts` | crates/agentkeys-broker-server/src/account_signer.rs:19-94 | reading by head offsets alone gives back all nine arguments and the two offsets |
| `AccountSigner.EncodingInjective` | crates/agentkeys-broker-server/src/account_signer.rs:51-94 | calls with the same bytes have the same nine arguments |
| `AccountSigner.Layout` | crates/agentkeys-broker-server/src/account_signer.rs:57-90 | head and tails are 32-byte aligned, adjacent, disjoint and cover the data |
| `AccountSigner.U64OfWordExact` | crates/agentkeys-broker-server/src/account_signer.rs:33-41 | a word reads as a u64 if and only if it is that number's word |
| `AccountSigner.ReadLiveSigner` | crates/agentkeys-broker-server/src/account_signer.rs:101-154 | the row is used only if active and, where the account counts generations, of the current one |
| `AccountSigner.ResolveAssertionSigner` | crates/agentkeys-broker-server/src/account_signer.rs:226-271 | the asserted credential first; the legacy one only after a row for the asserted one that is wholly blank and inactive |
| `ConsoleSession.Hook.Refresh` | apps/parent-control/lib/useConsoleSession.ts:34-97 | ignored while reauthentication is required or a refresh pends, unless forced; otherwise a new version and a new pending operation |
| `ConsoleSession.Hook.Pause` | apps/parent-control/lib/useConsoleSession.ts:28-33 | reauthentication required, version bumped, pending dropped, login published |
| `ConsoleSession.Hook.Effect` | apps/parent-control/lib/useConsoleSession.ts:99-101 | checking is published, then an unforced refresh |
| `ConsoleSession.Hook.Cleanup` | apps/parent-control/lib/useConsoleSession.ts:107-109 | version bumped and pending dropped, nothing published |
| `ConsoleSession.Hook.OnStack` | apps/parent-control/lib/useConsoleSession.ts:41-44 | a failed stack lookup ends the refresh in the catch block, a success moves it on |
| `ConsoleSession.Hook.OnOnboarding` | apps/parent-control/lib/useConsoleSession.ts:45-62 | the branches after the onboarding state, in order, with their publications |
| `ConsoleSession.Hook.OnRegistration` | apps/parent-control/lib/useConsoleSession.ts:63-78 | the branches after the binding probe, in order, with their publications |
| `ConsoleSession.Hook.Settle` | apps/parent-control/lib/useConsoleSession.ts:79-87 | login when unregistered; otherwise ready, keeping the key of the same ready account and taking a new generation for any other |
| `ConsoleSession.Hook.Return` | apps/parent-control/lib/useConsoleSession.ts:91-93 | pending is cleared only by the latest version |
| `ConsoleSession.KeysAreStableAndNeverReused` | apps/parent-control/lib/useConsoleSession.ts:28-114 | in every run: pending is exactly the running refresh of the latest version; consecutive ready sessions of one account share their key; a key seen twice was held throughout; ready if and only if there is a key |
| `ConsoleSession.StaleRepliesAreSilent` | apps/parent-control/lib/useConsoleSession.ts:46-93 | a reply to a refresh without the latest version changes nothing but that refresh, which never answers true |
| `ConsoleSession.PauseHoldsUntilForced` | apps/parent-control/lib/useConsoleSession.ts:28-36 | after a pause in any run, whatever was in flight, the console shows login or checking and no key until a forced refresh |
| `ConsoleSession.ReadyIsEarned` | apps/parent-control/lib/useConsoleSession.ts:34-97 | in every run, a ready session was earned by a reply to the then latest refresh that is evidence for exactly its account (the demo flag, a verified, active and registered hosted account, or an on-chain binding of an account the onboarding state had named to the same refresh, verified and active), and has been shown unchanged ever since |
| `ConsoleRead.ScopesAreDistinct` | apps/parent-control/lib/useConsoleRead.ts:8 | different session keys or revisions give different scopes, colons in keys notwithstanding |
| `ConsoleRead.Reader.Commit` | apps/parent-control/lib/useConsoleRead.ts:15-41 | cleanup and body of the scope effect, then the load effect, each only when its dependencies changed |
| `ConsoleRead.Reader.OnReply` | apps/parent-control/lib/useConsoleRead.ts:25-40 | a reply of another generation is dropped; otherwise callback and state follow the result |
| `ConsoleRead.Reader.Render` | apps/parent-control/lib/useConsoleRead.ts:42 | what the component is handed for the rendered scope |
| `ConsoleRead.EarlierActivationsNeverDeliver` | apps/parent-control/lib/useConsoleRead.ts:15-40 | once the scope effect has run for a changed scope, no load started before ever calls a callback again, over any further run, back to the old scope included |
| `ConsoleRead.DeliveriesMatchTheActivation` | apps/parent-control/lib/useConsoleRead.ts:15-40 | in every run each delivered load was for the scope whose effects ran last, and each activation starts at most one load |
| `ConsoleRead.DeliveryExactly` | apps/parent-control/lib/useConsoleRead.ts:25-38 | a reply reaches its callback if and only if its load belongs to the current activation; the callback is that scope's own if and only if no newer scope was rendered meanwhile |
| `ConsoleRead.RenderedButNotCommitted` | apps/parent-control/lib/useConsoleRead.ts:10-19 | concrete failure: between a render for a new scope and its effects, a late reply of the old scope reaches the new scope's callback |
| `ConsoleRead.ReturnedIsTheCurrentLoad` | apps/parent-control/lib/useConsoleRead.ts:42 | the returned state is never another scope's, and once the activation has started its load it is exactly how that load stands |
| `Bundler.BundlerState.TakeLock` | crates/agentkeys-bundler/src/server.rs:516-517 | only a free lock is taken; the submit goes on to the nonce |
| `Bundler.BundlerState.OnNonce` | crates/agentkeys-bundler/src/server.rs:519-541 | after the nonce: fail, price at once, or ask for the gas price |
| `Bundler.BundlerState.OnGas` | crates/agentkeys-bundler/src/server.rs:531-552 | a quarter on top of the quote in 128-bit arithmetic, then sign and broadcast, or fail |
| `Bundler.HeadroomExactly` | crates/agentkeys-bundler/src/server.rs:529-538 | the price is the quote and a quarter of it if and only if the multiplication fits 128 bits; beyond that it wraps to less than the quote |
| `Bundler.BundlerState.OnBroadcast` | crates/agentkeys-bundler/src/server.rs:550-560 | an accepted broadcast goes on to its record, any other ends the submit |
| `Bundler.BundlerState.Insert` | crates/agentkeys-bundler/src/server.rs:565-573 | the record under the operation's hash, then the lock is released |
| `Bundler.BundlerState.GetReceipt` | crates/agentkeys-bundler/src/server.rs:580-629 | null, failure or receipt for a hash in any letter case, with the reason of a revert |
| `Bundler.NonceDiscipline` | crates/agentkeys-bundler/src/server.rs:516-573 | in every run of concurrent submits with failures, lost replies and dropped connections: accepted transactions carry consecutive nonces, each submit causes at most one, for its own operation, and a broadcast on its way holds exactly the nonce the node expects |
| `Bundler.OneSubmitAtATime` | crates/agentkeys-bundler/src/server.rs:516-574 | at most one submit is ever between reading the nonce and recording |
| `Bundler.ReceiptsAreTrue` | crates/agentkeys-bundler/src/server.rs:580-629 | a receipt is given only for a recorded broadcast the node accepted, of the asked hash, for that very transaction |
| `Bundler.AnsweredSubmitsAreKnown` | crates/agentkeys-bundler/src/server.rs:565-604 | for a hash a submit has answered with, null is answered if and only if the transaction is not mined |
| `Bundler.LookupIgnoresCase` | crates/agentkeys-bundler/src/server.rs:586-591 | the lower-cased text is the recorded key and names one hash only |
| `WeiUnits.UnitsAreExact` | crates/agentkeys-bundler/src/server.rs:256-267 | for any number of decimals, 18 for wei: the text reads back to exactly the count of base units, and its fraction never ends in a zero |
| `Affected.Select` | scripts/terrier_local/affected.py:52-127 | the report, or the refusal, the specification gives for the workspace and the files |
| `Affected.ReportExactly` | scripts/terrier_local/affected.py:52-127 | refused for the same changes as the selection, naming the first package without a mapping; otherwise every list holds exactly what is selected, components and packages each once in ascending order, suites package by package, a reason for each changed path and no other |
| `Affected.ClaimPaths` | scripts/terrier_local/affected.py:64-94 | the claims and reasons of all changed paths, or a path nobody owns |
| `Affected.Close` | scripts/terrier_local/affected.py:95-101 | the loop ends, with the closure as its result; the measure is the packages not yet affected |
| `Affected.GatherPackages` | scripts/terrier_local/affected.py:102-125 | all packages' suites, builds and deferred suites in order, or the first unmapped package |
| `Affected.ClosureIsLeast` | scripts/terrier_local/affected.py:95-101 | the least set with the claimed packages that is closed under path-dependency consumers |
| `Affected.ClosureIsReachability` | scripts/terrier_local/affected.py:95-101 | a package is selected if and only if a chain of path dependencies leads from it to a claimed package |
| `Affected.TestFilesAreOwned` | scripts/terrier_local/affected.py:65-70 | a path under a package's tests belongs to that package whatever else it matches |
| `Affected.UnionExactly` | scripts/terrier_local/affected.py:52-127 | a combined change is selectable if and only if both parts are, and selects exactly the union: packages, components, suites, builds and deferred suites |
| `LeaseSweeper.DecideExactly` | crates/agentkeys-broker-server/src/lease_sweeper.rs:170-189 | the decision by what the list contains: create for none, rotate when some lease ends within the margin, forced within both margins |
| `LeaseSweeper.DecideIgnoresOrder` | crates/agentkeys-broker-server/src/lease_sweeper.rs:170-189 | order and repetition in the list do not matter |
| `LeaseSweeper.DecideNeverWeakens` | crates/agentkeys-broker-server/src/lease_sweeper.rs:170-189 | for the same runtimes the decision never weakens as time passes |
| `LeaseSweeper.ScheduleTickDueWithin` | crates/agentkeys-broker-server/src/lease_sweeper.rs:99-131 | true if and only if some minute of the window is due for some entry |
| `LeaseSweeper.SweepOnce` | crates/agentkeys-broker-server/src/lease_sweeper.rs:230-403 | the acts of one pass are the rows' own acts in order; an unreadable list or configuration acts on nothing |
| `LeaseSweeper.ActsExactly` | crates/agentkeys-broker-server/src/lease_sweeper.rs:251-402 | a row is acted on if and only if the row alone calls for it, at most once, whatever fails for others |
| `LeaseSweeper.ActsAreAuthorized` | crates/agentkeys-broker-server/src/lease_sweeper.rs:251-332 | every act has a positive chain reading of an active agent binding, for the accounts it names, and the availability policy allows it |
| `LeaseSweeper.EveryTickIsSeen` | crates/agentkeys-broker-server/src/lease_sweeper.rs:99-131 | with sweeps at most interval + rotate margin apart, every due minute lies in the window of a sweep no later than it, which sees a tick |
| `LeaseSweeper.EveryTickIsActedOn` | crates/agentkeys-broker-server/src/lease_sweeper.rs:230-403 | the same for what sweeps do: a scheduled, authorized row without a runtime, listed in every sweep, gets its cold creation for its own accounts from a sweep no later than the due minute |
| `LeaseSweeper.MinuteSeenExactly` | crates/agentkeys-broker-server/src/lease_sweeper.rs:316-321 | a minute between two sweeps is seen in time if and only if the earlier one's window reaches it |
| `LeaseSweeper.EveryLeaseIsForced` | crates/agentkeys-broker-server/src/lease_sweeper.rs:170-189 | with sweeps no further apart than both margins, a known lease meets a forced rotation no later than its expiry |
| `LeaseSweeper.EveryLeaseIsActedOn` | crates/agentkeys-broker-server/src/lease_sweeper.rs:230-403 | the same for what sweeps do: an always-on, authorized row listed in every sweep gets a forced rotation for its own accounts no later than its lease's expiry, whatever the other rows do |
| `LeaseSweeper.ForcedExactly` | crates/agentkeys-broker-server/src/lease_sweeper.rs:182-185 | a lone lease is forced in time if and only if its last sweep comes within both margins |
| `LeaseSweeper.ConfiguredCadence` | crates/agentkeys-broker-server/src/lease_sweeper.rs:47-76 | bounds of every configuration; the defaults satisfy both guarantees for sweeps of up to five minutes |
| `Catalogs.Catalog.ApplyOverlay` | crates/agentkeys-catalog/src/lib.rs:306-321 | both loops, in place, leave the content the specification gives |
| `Catalogs.FloorIsTheMaximum` | crates/agentkeys-catalog/src/lib.rs:239-321 | after any overlays a category's floor is the maximum of its start and all proposals; the version counts and saturates |
| `Catalogs.FloorsIgnoreOrder` | crates/agentkeys-catalog/src/lib.rs:306-321 | floors depend only on which overlays were applied, and never drop |
| `Catalogs.TagCarriesTheFloor` | crates/agentkeys-catalog/src/lib.rs:289-300 | after any overlays every tag, misses included, carries its category's floor |
| `Catalogs.NamespaceNeverDrops` | crates/agentkeys-catalog/src/lib.rs:274-283 | no overlay lowers the tier of a namespace |
| `Catalogs.EntityDropsExactly` | crates/agentkeys-catalog/src/lib.rs:306-319 | an entity's tier drops if and only if it was sensitive and the overlay's last entry for it names a category that is and stays safe |
| `Catalogs.StripeDrops` | crates/agentkeys-catalog/src/lib.rs:306-319 | concrete: an overlay files a bundled sensitive entity under a safe category, and its tier drops |
| `Validators.ScanForbiddenKeys` | crates/agentkeys-catalog/src/validate.rs:178-198 | the report grows by the scan's findings |
| `Validators.ForbiddenKeysExactly` | crates/agentkeys-catalog/src/validate.rs:178-198 | findings correspond one to one to the occurrences of forbidden keys at any depth, each naming its key |
| `Validators.ValidateTag` | crates/agentkeys-catalog/src/validate.rs:241-275 | the checks of a tag in order, the adversarial ones last |
| `Validators.ValidateCompile` | crates/agentkeys-catalog/src/validate.rs:277-292 | the engine check, then one floor check per proposal |
| `Validators.ValidateRequest` | crates/agentkeys-catalog/src/validate.rs:294-383 | the checks of a request in order, the adversarial ones last |
| `Validators.ValidateOutput` | crates/agentkeys-catalog/src/validate.rs:155-176 | forbidden keys, then the mode's checks |
| `Validators.ValidateGrounding` | crates/agentkeys-catalog/src/validate.rs:411-508 | the findings against the runtime facts |
| `Validators.OverlaidAcceptanceExactly` | crates/agentkeys-catalog/src/validate.rs:155-383 | accepted under an overlaid catalog if and only if accepted under the base and every claim meets the overlaid floors |
| `Validators.AdversarialIsStricter` | crates/agentkeys-catalog/src/validate.rs:155-383 | the ordinary report is a prefix of the adversarial one |
| `Validators.BaseExactly` | crates/agentkeys-catalog/src/validate.rs:230-239 | an engine's base is a given name if and only if the engine is that name, alone or before a colon |
| `Validators.CatalogTagsPass` | crates/agentkeys-catalog/src/validate.rs:155-508 | after any overlays every tag of the catalog validates, is grounded on every fact naming its entity, and passes the adversarial bar if and only if the entity is unknown |
| `Sponsor.AssemblePaymasterAndData` | crates/agentkeys-broker-server/src/sponsor.rs:39-60 | 129 bytes that slice back into paymaster, both gas limits, the low 48 bits of both times, and the signature; refused exactly without a 65-byte signature |
| `Sponsor.ReadBackInjective` | crates/agentkeys-broker-server/src/sponsor.rs:36-60 | the slices determine every byte |
| `Sponsor.AssembleUserOp` | crates/agentkeys-broker-server/src/sponsored_accept.rs:318-386 | the digest the broker signed is the digest of the finished operation; unsponsored operations carry nothing; when it fails |
| `Sponsor.VerifierAgreesExactly` | crates/agentkeys-broker-server/src/sponsored_accept.rs:306-367 | a verifier that sees only the finished operation arrives at the signed preimage if and only if both validity times are below 2^48 |
| `Sponsor.WindowBeyond48BitsIsLost` | crates/agentkeys-broker-server/src/sponsored_accept.rs:306-367 | concrete: a validity time of 2^48 reads back as zero, and the verifier's preimage is not the signed one |
| `Sponsor.SignatureBinds` | crates/agentkeys-core/src/erc4337.rs:1051-1077 | equal preimages mean equal fields, up to the hashes of call data and init code |
| `Sponsor.SiblingsDiffer` | crates/agentkeys-broker-server/src/sponsored_accept.rs:306-386 | two operations of the same parameters differ only through call data and init code |
| `WebAuthn.Base64UrlEncode` | apps/parent-control/lib/webauthn.ts:21-26 | the loop, `btoa` and the three replacements write the sextets of the bytes in the URL-safe alphabet |
| `WebAuthn.Base64UrlDecode` | apps/parent-control/lib/webauthn.ts:13-19 | padding, the replacements, the forgiving `atob` and the loop compute the decoder's bytes; when it throws |
| `WebAuthn.EncodeIsUrlText` | apps/parent-control/lib/webauthn.ts:21-26 | the text is the sextets in the URL-safe alphabet and nothing else |
| `WebAuthn.DecodeUrlText` | apps/parent-control/lib/webauthn.ts:13-19 | unpadded URL-safe text decodes to its whole octets unless one character is left over |
| `WebAuthn.DecodeEncode` | apps/parent-control/lib/webauthn.ts:13-26 | decoding gives back every byte string; alphabet and length ceil(4n/3) of the text |
| `WebAuthn.EncodeInjective` | apps/parent-control/lib/webauthn.ts:21-26 | different byte strings have different texts |
| `WebAuthn.EncodeDecodeExactly` | apps/parent-control/lib/webauthn.ts:13-26 | encoding the decoded gives the text back if and only if the text is canonical |
| `WebAuthn.HexToBytes` | apps/parent-control/lib/webauthn.ts:83-88 | each pair of characters through `parseInt` and the 8-bit store |
| `WebAuthn.HexRoundTrip` | apps/parent-control/lib/webauthn.ts:83-88 | reading hex text, with or without the prefix, gives back the bytes it was written from |
| `IdentityStore.Store.SetActiveStack` | apps/parent-control/lib/identityStore.ts:136-165 | binding, mirrors and the migration loop leave the state the specification gives |
| `IdentityStore.Store.EnsureActiveStack` | apps/parent-control/lib/identityStore.ts:177-188 | binds only when nothing is bound and a chain is known |
| `IdentityStore.Store.ClearMasterIdentity` | apps/parent-control/lib/identityStore.ts:124-128 | the three clears, one after the other |
| `IdentityStore.KeysAreDistinct` | apps/parent-control/lib/identityStore.ts:59-64 | keys of different bases, chains or brokers differ, for chain names without an at sign |
| `IdentityStore.AtSignsMayClash` | apps/parent-control/lib/identityStore.ts:59-64 | with an at sign in the chain name two stacks share a key |
| `IdentityStore.ReadsFirstPresent` | apps/parent-control/lib/identityStore.ts:136-165 | after binding, each pointer reads as the first present of own key, chain key, bare key |
| `IdentityStore.BindIdempotent` | apps/parent-control/lib/identityStore.ts:136-165 | binding the same stack twice is binding it once |
| `IdentityStore.OtherStacksUntouched` | apps/parent-control/lib/identityStore.ts:136-165 | no key of another chain, or of another broker on the same chain, changes |
| `IdentityStore.AdoptedAtMostOnce` | apps/parent-control/lib/identityStore.ts:149-164 | the adopter holds the value, and over any further run of switches, reloads, writes and clears no stack adopts that key again, for chain names without an at sign, and for a chain key provided the pointer is not written while that chain is bound without a broker |
| `IdentityStore.ChainKeyReturnsExactly` | apps/parent-control/lib/identityStore.ts:76-165 | with both older keys gone, an event makes the chain key anew if and only if it writes that pointer while the chain is bound without a broker |
| `IdentityStore.ClearOnlyTheActiveStack` | apps/parent-control/lib/identityStore.ts:124-128 | a reset empties the active pointers and leaves every other stack's key |
| `AuditAnchor.Anchors.Audit` | scripts/terrier_local/owner.py:131-184 | one run's journal and sends, for every point at which it fails or dies |
| `AuditAnchor.AtMostOneSend` | scripts/terrier_local/owner.py:131-180 | over any sequence of runs and crashes at most one send per owner and hash, in any spelling, each journaled first |
| `AuditAnchor.StrandedForGood` | scripts/terrier_local/owner.py:131-174 | the first run past its plan sends, in any continuation, if and only if it did not die between journal and send; the journal keeps its owner and deployment |
| `ServiceManifest.Services.PrepareKeys` | scripts/terrier_local/services.py:142-197 | the key files, one after the other, up to the first that fails |
| `ServiceManifest.Services.Prepare` | scripts/terrier_local/services.py:120-205 | manifest, keys and ports as the specification gives them, for every point of failure |
| `ServiceManifest.BindingsAreFixed` | scripts/terrier_local/services.py:120-235 | over any runs, crashes, stops and losses: deployment, broker port, assigned namespace and socket never change, nor browser ports unless an older schema is stopped |
| `ServiceManifest.ExistingKeysAreKept` | scripts/terrier_local/services.py:142-197 | a key file that is not lost keeps its contents for ever |
| `ServiceManifest.RequiredKeysAreNeverReplaced` | scripts/terrier_local/services.py:142-197 | a file an initialized manifest of sufficient version demands is never created anew |
| `ServiceManifest.CompletedRunsHaveAllKeys` | scripts/terrier_local/services.py:142-197 | a completed run had every demanded file and leaves every file |
| `ServiceManifest.PickAllExactly` | scripts/terrier_local/services.py:107-117 | picked browser ports pass the validation every later run makes |
| `ServiceManifest.PlainRerunExactly` | scripts/terrier_local/services.py:120-235 | after a completed run a plain run completes and changes nothing if and only if the first did not set a disk policy alone that is over the limit as stored |
| `ServiceManifest.LongPolicyLocksOut` | scripts/terrier_local/services.py:216-243 | a policy within the limit as typed and over it as stored: the run that sets it completes, no plain run after it does |
| `ServiceManifest.OneMemberGrowsExactly` | scripts/terrier_local/services.py:216-243 | a policy of one text, free of quotes, backslashes and control characters, is such a policy if and only if its length is within the two bounds, counting what `json.dumps` escapes |
| `ServiceManifest.LongPolicyExists` | scripts/terrier_local/services.py:216-243 | concrete: a thousand letters é are 1008 characters as typed and 6009 as stored |

## Left out

- HTTP, sockets, subprocesses, JSON parsing, file permissions and storage quotas: their replies and failures are inputs.
- `Affected`: the texts of the refusals; `cargo metadata` is an input.
- `AccountSigner`: the selector, the hex text around the call and the signature check behind the chosen key.
- `Bundler`: parameter checks before the lock, the `handleOps` calldata (an operation carries its own) and the gas
  floor of the health page.
- Bundler.BundlerState.OnGas: the panic of a build with overflow checks, where the multiplication wraps here; such a
  submit is a dropped one.
- `ConsoleSession`: detail texts and e-mail; timers and focus events are plain refreshes.
- `ConsoleRead`: detail texts; the pattern that recognises an expired session in them is a flag of the reply.
- `Gateway`: the mapping from routes to operations and the detail texts.
- `Catalogs`: overlay signatures; trimming and lower-casing are modelled on ASCII.
- `Validators`: floating point, so a confidence within rounding of a threshold is not modelled.
- `LeaseSweeper`: the calendar (a cron entry is any set of local minutes), overflow of 64-bit times, logging.
- `Sponsor`: the call data builders behind the `assemble_*` siblings; they differ in those arguments only.
- `WebAuthn`: credential options and payloads, which only rearrange fields.
- `IdentityStore`: storage that is missing or full, where every access does nothing.
- `AuditAnchor`: the other owner actions, which keep no journal.
- `ServiceManifest`: the model runner's and the website's configuration (inputs), and loss of the manifest itself; what
  a typed policy reads as is an input, but for the one-member policies; white space in an image name is ASCII.
