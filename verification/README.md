# emvault-pkcs11: the signing engine

A model of the signing engine of `emvault-pkcs11` and proofs of what it guarantees. The engine is
one stateful system: a PKCS#11 token, a signer whose clones share it behind a mutex, and a PSBT or
PSET that is rewritten in place. Around it stand the codecs it relies on, the sig-rate limiter it
keeps on the token, and the fleets its signers are built from.

`dafny verify dfyconfig.toml` checks everything.

## How the model is laid out

Every operation that changes state appears twice. A function takes the token state before a call
to the result and the token state after it (`Ran`, `Plan`, `Call`). The class or method beside it
does the same work statement by statement, and its postcondition equates the two. What the engine
promises is then proved about the functions, as lemmas over all inputs and all runs. Definitions
that function and method share, such as the search for our origin, the labels, the defaults and the
parsers, have a lemma each that says what they mean in fields, literals and library functions alone.

| file | what it models |
|---|---|
| `Results` | options, results, the causes of failure |
| `Bip32`, `Der`, `Ecdsa`, `Base64`, `Text` | child numbers and paths, OCTET STRINGs, compact and low-S signatures, base64, decimals and separators |
| `Labels` | names of token objects |
| `Policy` | the policy and its check against a transaction |
| `Token` (module `TokenModel`) | the token: objects, fresh handles, calls that are refused, a log of signatures |
| `Store` | the policy and sig-rate records: load, and replace by destroying and creating |
| `SigRate` | the trailing-hour counter and the check that persists it |
| `CounterLoss` | exactly when a check loses the counter, and what that costs |
| `Backend` | path derivation, key ceremony, lookup, deletion |
| `Psbt` (module `PsbtModel`), `Signer` | PSBTs and `sign_transaction` |
| `SigningEffect`, `SigningTheorems` | what one signing call does to token and PSBT |
| `TaprootCleanup` | exactly when a taproot input leaves its leaf key on the token |
| `SignedLog` | what the token is asked to sign |
| `Cosigners` | several signers in turn |
| `Elements` | `sign_pset`, and its relation to the Bitcoin loop |
| `Clones` | clones as interleaved processes |
| `RateCalls` | what one call does to the sig-rate counter, from any token |
| `RateBound`, `RateLoss` | the ceiling over whole runs of clones, from any token, and which runs keep it |
| `CloneChecks` | what a clone counts at its check, in the middle of an interleaving |
| `Fleet`, `Discovery` | the duplicate guard and the scan of the environment |

## What is assumed

- The token. Handles are fresh and increasing; a refused call changes nothing; a search returns
  each match once, in an arbitrary order that may differ from call to call (`Env.order`,
  `Enumerates`). Any call may be refused (`Env.fails`, indexed by the number of the call). Signing
  may depend on a nonce: the number of the call is an argument of the signing functions.
- The clock is read between two token calls and is any function of the call number. Lemmas that
  need it not to run backwards say `ClockMonotone`.
- Cryptography and foreign libraries are arbitrary functions: ECDSA and Schnorr signing, the
  sighash algorithms and the decoding of sighash types (`Library`, `ElementsLibrary`), public
  points, fingerprints, masters from seeds. A private key is the pair of a master and a path, and
  child derivation appends one segment.
- The two JSON documents decode to what was encoded; any other bytes decode to neither. Lemmas about
  runs begin with policy records whose ceilings are at most m (`Usable`). The bounds on a run hold
  from any sig-rate records, several, unreadable or none; those that relate the counter to the
  history begin with at most one, any list in it (`CounterIs`).
- The two origin maps of a PSBT input are listed in the order they iterate. The results about several
  cosigners add that no key occurs twice in them, as in any map.
- A path is displayed as its segments joined by slashes, a hardened one with an apostrophe.

## Where the code and its comments differ

The model follows the code.

- The rate check comes after the loop, counts calls rather than signatures, and does not undo the
  signatures of a call it rejects (`CeilingComesTooLate`, `RecordedIff`).
- "Atomically check-and-update" is destroy, then create. A check loses the counter if and only if
  the token serves it up to the last destroy and refuses the create (`CheckLosesIff`, and
  `CheckCutIff` for any number of records). The bound over a run is the ceiling for each unbroken
  life of the counter (`ClonesWindowBound`), hence the ceiling itself as long as no such create is
  refused (`LossesIff`, `ClonesWindowBoundUncut`); a token that refuses nothing is one case
  (`UnrefusedUncut`). After one that is, a whole ceiling's worth of further checks passes at once
  (`LostCounterOvershoots`).
- Only the length of an input path is compared with the federation path. The key used is the one at
  the input's path exactly when the path does start with the federation path (`StrippedPathKey`).
- A derivation leaves its intermediate keys in the session (`TokenAccounting`). A taproot input
  releases the leaf key it derived if and only if all prevouts, the sighash type and every leaf's
  sighash are there and neither a signature nor the destroy is refused (`LeafKeyReleasedIff`); one
  input of the transaction without a witness UTXO is enough to leave it (`MissingPrevoutKeepsLeafKey`).
- `sign_pset` reads the policy for its ceiling only (`PsetIgnoresRules`). It is said to sign
  identically to the Bitcoin branch, but takes a sighash type it cannot decode for ALL where that one
  fails: on inputs that ask for the same signature the two give the same result if and only if no
  origin is ours, its path is too short, or the type is absent or decodes (`ParityIff`).
- The template of a master key appends `/priv` to a label that is complete already, so `load` does not
  find what `derive_from_seed` made (`LoadMissesCeremony`); and the fingerprint `load` keeps is that of
  the key it found, not of a master (`LoadFingerprint`).
- The lenient decoder is said to accept raw uncompressed points; it never returns one
  (`RawUncompressedPointLost`).
- The fleet guard compares formatted text. Bars in vendor or library names can make it reject a
  fleet with different members; `IdentityInjectiveIff` says exactly when.

## Model

| member | source | states |
|---|---|---|
| `SigningTheorems.TokenAccounting` | src/signer.rs:544-691 | whatever the outcome, signing destroys only what it created: every earlier object survives, the sig-rate record aside, new objects are session keys, and the federation key stays usable; an Ok call with no refused token call leaves exactly max(0, k - 1) new session keys per signed input, k being the relative path length |
| `SigningTheorems.ExactEffect` | src/signer.rs:565-683 | only our own signature entries of an input can change, on any outcome; an Ok call fills exactly one public key per P2WSH input with our fingerprint, exactly our (x-only key, leaf) pairs per taproot input, and nothing elsewhere, each with a signature made for this PSBT in place of whatever was stored there |
| `SigningEffect.KeysMeaning` | src/signer.rs:569-588 | those keys in terms of the two origin maps: without taproot data the public key of an origin with our fingerprint if there is one anywhere in the map, with taproot data the leaves of such an origin |
| `SigningEffect.ExpectsMeaning` | src/signer.rs:418-462 | an input has keys of ours exactly when some origin has our fingerprint and, with taproot data, the first such lists a leaf |
| `PsbtModel.FirstOrigin` | src/signer.rs:584-588 | an origin is found if and only if some entry of the map has our fingerprint, and then it is the first that does |
| `PsbtModel.FirstTapOrigin` | src/signer.rs:426-433 | the same for the taproot map |
| `SigningTheorems.SignAgain` | src/signer.rs:544-691 | a second call, on any later token and with any outcome, changes no key set |
| `SigningTheorems.EcdsaSoundness` | src/signer.rs:584-682 | every ECDSA signature in the resulting PSBT was there before, or is by the key at the full path of our origin over the sighash recomputed from the resulting PSBT with the sighash type stored beside it; after an Ok call the entry under our own key is of the second kind, whatever was there before |
| `SigningTheorems.SchnorrSoundness` | src/signer.rs:418-536 | the same for Schnorr signatures, replacement and stored sighash type included, their leaf among ours, the sighash committing to all prevouts of the resulting PSBT |
| `Signer.TaskMeaning` | src/signer.rs:609-640 | the message of a P2WSH input is the sighash of that index with that input's script, value and sighash type, 1 when none is stored |
| `Signer.TapContextMeaning` | src/signer.rs:472-505 | the message of a leaf is the sighash of that index with all outputs spent, in the order of the inputs, the leaf and the input's sighash type, 0 when none is stored; it exists only if no output is missing and the type decodes |
| `PsbtModel.PrevoutsMeaning` | src/signer.rs:472-484 | the prevouts are the witness UTXOs of all inputs in their order, or the first missing one is reported |
| `SignedLog.SignedOnlyOwnInputs` | src/signer.rs:544-691 | whatever the outcome, every signature the token made, kept or thrown away, is by the key used for our origin of some input over that input's message |
| `SignedLog.SignedOnlyOwnPsetInputs` | src/elements.rs:34-161 | the same for a PSET call; what does not extract to a transaction is not signed at all |
| `SignedLog.LeavesLog` | src/signer.rs:499-528 | every Schnorr signature of the loop over leaves is by the transport's key over the sighash of one of the leaves |
| `SigningTheorems.SchnorrTransportsAgree` | src/signer.rs:463-518 | the derived handle and the (label, full path) given to the backend name the same key, that of the full path |
| `SigningTheorems.StrippedPathKey` | src/signer.rs:598-607 | stripping by length yields the key at the input's path if and only if that path starts with the federation path |
| `SigningTheorems.CeremonyMakesSigner` | src/signer.rs:129-165 | a successful ceremony yields a signer that meets the premises of the soundness results, with the fingerprint of the seed's master |
| `SigningTheorems.PolicyGate` | src/signer.rs:555-559 | a PSBT the stored policy rejects leaves PSBT, objects and signature log alone; if anything was signed, the policy was read and permits the PSBT, and the policy records are untouched, so that with at most one of them a later read is refused or permits the PSBT again |
| `SigningTheorems.StoredPolicyGate` | src/signer.rs:555-559 | with one policy on the token under `emvault.v1.<label>.policy`, the loop is entered if and only if that record is read and that policy permits the PSBT; otherwise PSBT, objects and log stay |
| `SigningTheorems.NoPolicyGate` | src/policy.rs:163-185 | with no record there is no rule |
| `SigningTheorems.CeilingComesTooLate` | src/signer.rs:685-688 | among policies that let the PSBT through, the ceiling changes neither the signatures left in the PSBT nor what was signed |
| `SigningTheorems.CallAddsAll` | src/signer.rs:565-683 | the resulting inputs are the old ones with the loop's additions merged in, or unchanged if the gate refused |
| `SigningEffect.SignAtEffect` | src/signer.rs:642-674 | a signature made for a relative path is by the key at its end; earlier objects are untouched, at most that signature enters the log, and k segments leave k - 1 keys behind |
| `SigningEffect.FailedSignatureReleases` | src/signer.rs:656-673 | the leaf handle is destroyed also when signing fails, unless the token refuses that very destroy |
| `TaprootCleanup.LeafKeyReleasedIff` | src/signer.rs:463-535 | a taproot input whose derivation is served ends without its leaf key on the token if and only if every witness UTXO, the sighash type and every leaf's sighash are there and no signature nor the destroy is refused; otherwise every key it derived stays |
| `TaprootCleanup.MissingPrevoutKeepsLeafKey` | src/signer.rs:472-484 | any input of the transaction without a witness UTXO makes the call fail with all derived keys left on the token |
| `TaprootCleanup.HandleReleasedIff` | src/signer.rs:472-535 | the same from the derived handle on, for any handle but the federation one |
| `TaprootCleanup.LeavesOkIff` | src/signer.rs:499-528 | the loop over leaves succeeds if and only if every leaf has a sighash and the token serves one call per leaf; objects are untouched |
| `TaprootCleanup.FailedTaprootKeepsHandle` | src/signer.rs:472-535 | a taproot input that fails after its derivation destroys nothing |
| `SigningEffect.SigningHandleEffect` | src/signer.rs:463-470 | the handle is the federation handle for an empty relative path and otherwise a new one, and denotes the key at the end of the path |
| `SigningEffect.SignEcdsaEffect` | src/ecdsa.rs:31-49 | the token's objects are untouched, one signature by that key is logged at most, and an accepted one is low-S already |
| `SigningEffect.SignLeavesEffect` | src/signer.rs:499-528 | each leaf gets a signature by the one key over its own sighash; on success the filled keys are exactly the leaves |
| `SigningEffect.SignFromToken` | src/signer.rs:565-683 | the loop only adds session keys, exactly the total leftover when it succeeds with no refused call |
| `SigningEffect.SignFromSigs` | src/signer.rs:565-683 | what the loop adds to any input is sound, within the keys expected there, and exactly those keys when the loop succeeds |
| `SigningEffect.SignFromReports` | src/signer.rs:563-685 | a loop that succeeds reports a signature if and only if some input has an origin of ours to sign for |
| `Signer.EcdsaTaskOf` | src/signer.rs:584-640 | there is something to sign exactly when an origin carries our fingerprint, and then it is that origin's key and path, no shorter than the federation path |
| `Signer.Pkcs11Signer.SignTransactionInPlace` | src/signer.rs:544-691 | result, token and PSBT after the call in place |
| `Signer.Pkcs11Signer.SignInputs` | src/signer.rs:565-683 | the loop over inputs, stopping at the first error with the earlier signatures kept |
| `Signer.Pkcs11Signer.SignNext` | src/signer.rs:565-683 | one turn of that loop |
| `Signer.Pkcs11Signer.SignOneInput` | src/signer.rs:569-582 | the choice between taproot and P2WSH |
| `Signer.Pkcs11Signer.SignP2wshInput` | src/signer.rs:584-682 | one P2WSH input: checks in order, then sign and insert |
| `Signer.Pkcs11Signer.SignTaprootInput` | src/signer.rs:418-470 | one taproot input up to its handle |
| `Signer.Pkcs11Signer.SignTapLeaves` | src/signer.rs:472-535 | the loop over leaves, and the cleanup only a success reaches |
| `Signer.Pkcs11Signer.ReadTapContext` | src/signer.rs:472-492 | the loop gathering the prevouts, then the sighash type |
| `Signer.Pkcs11Signer.SignAllLeaves` | src/signer.rs:499-528 | the loop over leaves |
| `Signer.Pkcs11Signer.SignTapLeaf` | src/signer.rs:500-527 | one leaf |
| `Signer.Pkcs11Signer.SignDigest` | src/signer.rs:642-674 | derive, sign, destroy, and only then look at the result |
| `Signer.Pkcs11Signer.SignWithLowS` | src/ecdsa.rs:31-49 | length check, compact parse and low-S of what the token returned |
| `Cosigners.CosignerOrderIrrelevant` | src/signer.rs:544-691 | cosigners with pairwise different fingerprints, each on its own token, leave the same PSBT in every order, whichever calls fail |
| `Cosigners.EveryCosignerSigned` | src/signer.rs:544-691 | whatever the others do before and after, the final PSBT holds, under every key of every cosigner whose call succeeded, a signature that cosigner's call made |
| `Cosigners.ThresholdMet` | src/signer.rs:676-681 | so a P2WSH input ends with at least as many signatures as cosigners of it that succeeded |
| `Cosigners.SignInTurnMerges` | src/signer.rs:676-681 | signing in turn is merging, key by key, what each cosigner adds to the original PSBT |
| `Cosigners.AddsIgnoreSignatures` | src/signer.rs:565-683 | no call reads the signatures another writes |
| `Cosigners.KeysDisjoint` | src/signer.rs:426-433 | different fingerprints fill different keys |
| `Elements.InputsSimulate` | src/elements.rs:53-152 | on an input mirrored between PSBT and PSET both branches give the same result, the same token and the same signature under the same key |
| `Elements.LoopsSimulate` | src/elements.rs:52-153 | on mirrored inputs the two loops make the same token calls and fail at the same input for the same cause; the PSET count is positive if and only if the Bitcoin loop signed |
| `Elements.AddsSimulate` | src/elements.rs:52-153 | and they fill the same keys, input by input |
| `Elements.CallsSimulate` | src/elements.rs:34-161 | whole calls leave the same token, agree on success, cause and recorded timestamp |
| `Elements.CallsFillAlike` | src/elements.rs:131-152 | whole calls fill the same keys, the PSET with the DER bytes and flag byte of the PSBT's signature |
| `Elements.ParityIff` | src/elements.rs:53-152 | on inputs that correspond in all but the decoding of the sighash type, both branches give the same result if and only if no origin is ours, its path is too short, or the type is absent or decodes; otherwise the Bitcoin branch fails before any token call |
| `Elements.ReturnedCount` | src/elements.rs:51-160 | the returned count is the number of inputs with an origin that has our fingerprint |
| `Elements.PsetCallSound` | src/elements.rs:34-161 | the resulting PSET is the old one with entries laid over it, each by the key used for our path over that input's sighash, under our key only, and under all of ours if the call is Ok; no other field changes |
| `Elements.PsetExactEffect` | src/elements.rs:52-153 | on any outcome only the entry under our own key can change; an Ok call leaves on every input the old keys and our origin's key exactly when there is one |
| `Elements.PsetTokenAccounting` | src/elements.rs:106-129 | a PSET call, too, keeps every earlier object, the sig-rate record aside; an Ok call with no refused token call leaves exactly the intermediate keys of the inputs it signed |
| `Elements.PsetSignedByMaster` | src/elements.rs:53-152 | for a signer on a master's federation key, every new entry is our public key with the DER bytes of a signature by the key at the full path of our origin, and after an Ok call the entry under our own key is new |
| `Elements.PsetTaskOf` | src/elements.rs:53-104 | there is something to sign exactly when an origin carries our fingerprint, with a path no shorter than the federation path |
| `Elements.PsetTaskMeaning` | src/elements.rs:72-104 | the message is the sighash of that index with that input's script, amount and sighash type, 1 when none is stored or the stored one does not decode |
| `Elements.ElementsSigner.SignPsetInPlace` | src/elements.rs:34-161 | result, token and PSET after the call in place |
| `Elements.ElementsSigner.SignPsetInputs` | src/elements.rs:52-153 | the loop over inputs and its count |
| `Elements.ElementsSigner.SignOnePsetInput` | src/elements.rs:106-152 | one input: derive, sign, destroy, encode, insert |
| `Elements.ElementsSigner.ReadTask` | src/elements.rs:53-104 | one input up to its sighash |
| `Clones.ClonesLinearize` | src/signer.rs:92-106 | for every interleaving of any number of clones: whenever the lock is free, token and results are those of the calls run one after the other in the order they took the lock |
| `Clones.AdvanceKeepsFinish` | src/signer.rs:544-691 | a step of a process never changes where its call ends, so the steps are the call cut into pieces |
| `Clones.StepKeepsLinear` | src/signer.rs:550-553 | no step of any process breaks the correspondence with the serial history |
| `Clones.CallEnds` | src/policy.rs:302-323 | a process left alone comes to release the lock with the outcome of the undisturbed call |
| `Clones.CallCompletes` | src/signer.rs:550-553 | from any state with the lock free, any idle process can run any call to its end: the lock is free again, the token is as the whole call leaves it, and its verdict is the last event |
| `RateBound.ClonesWindowBound` | src/policy.rs:302-323 | over every interleaving of clones, whatever records the token held before, the Ok calls recorded in any hour, both ends included, number at most m for each life of the counter, m bounding every ceiling in force |
| `RateLoss.ClonesWindowBoundUncut` | src/policy.rs:302-323 | at most m, from any token, for as long as no save of the counter is refused its create after the destroys; any other call may be refused |
| `RateLoss.LossesIff` | src/policy.rs:263-290 | from any token, a run keeps its counter if and only if no save of it is cut between the destroys and the create |
| `RateLoss.JobLosesIff` | src/policy.rs:302-323 | one call of any kind loses the counter if and only if it comes to a rate check under a ceiling and that check's save is cut |
| `RateBound.SerialWindowBound` | src/policy.rs:302-323 | the same bound for calls run one after the other, from any token |
| `CloneChecks.CheckCountsHistory` | src/policy.rs:302-323 | in every interleaving, with no save cut before: what a clone counts at its check is the starting list and all calls returned Ok under a ceiling, of all clones, in the hour before; it goes on to record if and only if they are fewer than its ceiling |
| `RateBound.CounterRefinesHistory` | src/policy.rs:129-138 | from a sorted list not ahead of the clock and with no counter lost, at every check the pruned list has as many entries as that list and the whole history of the run have in the trailing hour |
| `RateBound.CounterNeverOutgrows` | src/policy.rs:310-321 | under any clock, any changes of policy and from any token, no stored list grows beyond the largest ceiling ever in force and the lists the run began with |
| `RateBound.ListOrCeiling` | src/policy.rs:310-321 | from one readable list: it is still there, or what replaced it is no longer than the largest ceiling ever in force |
| `RateBound.CounterPanicUnreachable` | src/policy.rs:129-133 | so the conversion of the count to 32 bits never panics in a run that began below 2^32 entries, whatever policy and whichever of several records is read |
| `RateBound.ClonesNeverPanic` | src/policy.rs:129-133 | and in no interleaving does a call return with that panic |
| `RateCalls.RecordedIff` | src/signer.rs:685-688 | a call records one timestamp if and only if it is Ok, a ceiling is set, and some input has an origin with our fingerprint, with taproot data one that lists a leaf |
| `RateCalls.RecordedPsetIff` | src/elements.rs:155-158 | the same for a PSET call: it is Ok, a ceiling is set, and some input carries our fingerprint |
| `RateCalls.CheckDecides` | src/policy.rs:302-323 | from any token, one call of any kind comes to its rate check with the sig-rate records it began with and then ends as that check does, or it records nothing and leaves them alone |
| `RateCalls.AnyStep` | src/policy.rs:302-323 | from any token, a call that records was admitted on some list under the policy in force, at a time between its token calls, and leaves exactly one record with the admitted list |
| `RateCalls.JobStep` | src/policy.rs:302-323 | one call of any kind leaves the counter as it was, loses it after a refused token call, or replaces it by the list admitted under the policy in force |
| `RateCalls.WritePolicyDecides` | src/signer.rs:305-308 | replacing the policy does not touch the counter |
| `SigRate.PrunedCountsHistory` | src/policy.rs:129-133 | the pruned list counts exactly the recorded timestamps in the trailing hour, stays a suffix of the history, and each prune drops a prefix |
| `SigRate.AdmitKeepsSpacing` | src/policy.rs:314-320 | admitting a call under a ceiling of at most m keeps any m + 1 recorded calls more than an hour apart |
| `SigRate.SpacedWindow` | src/policy.rs:129-133 | so any closed hour holds at most m |
| `SigRate.CheckAndRecordEffect` | src/policy.rs:302-323 | the check reads the time between two token calls, stores exactly the admitted list and touches no other object; on an error the list is kept or gone (`CounterLoss.CheckLosesIff` says which) |
| `SigRate.AdmitBehind` | src/policy.rs:314-320 | entries in front of a list only make admission harder, and stay in front of what is admitted |
| `CounterLoss.CheckOkIff` | src/policy.rs:302-323 | a check passes if and only if the token serves all its calls and the list admits it at the time read |
| `CounterLoss.CheckLosesIff` | src/policy.rs:302-323 | a check loses a stored counter if and only if a ceiling is set, the token serves load, search and destroy, the list is admitted, and the create is refused |
| `CounterLoss.CheckCutIff` | src/policy.rs:302-323 | the same from any token: however many records there are and whatever they say, all of them are lost if and only if a ceiling is set, the load succeeds and is admitted, every destroy is served and the create is refused |
| `CounterLoss.LostCounterOvershoots` | src/policy.rs:263-290 | for every ceiling and every list, after such a loss exactly a whole ceiling's worth of further checks at the same time is let through |
| `CounterLoss.OneRefusalOvershoots` | src/policy.rs:263-290 | from an empty token, one refused create lets k + max checks of one instant through, for every 0 < k < max |
| `SigRate.RetainSorted` | src/policy.rs:131 | on a sorted list `retain` drops exactly the entries before the cutoff, a prefix |
| `SigRate.SigRateCounter.PruneAndCount` | src/policy.rs:129-133 | the list after pruning, and its length where it fits 32 bits |
| `SigRate.SigRateCounter.Record` | src/policy.rs:136-138 | appends the timestamp |
| `SigRate.CheckAndRecordSigrate` | src/policy.rs:302-323 | result and token after the check |
| `Store.SaveEffect` | src/policy.rs:194-221 | an Ok save leaves exactly one record under its label, the new one, however many were there; a failed one removed some old ones; nothing else changes |
| `Store.ReplaceThenRead` | src/policy.rs:163-221 | a later load returns what was saved, or is refused by the token |
| `Store.SaveIsOldNewOrNone` | src/policy.rs:263-290 | from at most one record, whatever call fails, the records left are the old one, the new one, or none |
| `Store.LoadSees` | src/policy.rs:163-185 | a load returns nothing only if there is no record, and otherwise the value of one of them |
| `Store.LoadOne` | src/policy.rs:163-185 | with no record a load makes one call and returns nothing, with one it makes two and returns its value, unless a call is refused |
| `Store.StoredPolicy` | src/policy.rs:163-185 | the policy in force is the one stored under `emvault.v1.<label>.policy`, field for field, and without a record one with no rule; other bytes are a serialization error |
| `Store.StoredSigrate` | src/policy.rs:232-254 | the same for the list under `emvault.v1.<label>.sigrate` |
| `Store.SameRecordSameLoad` | src/policy.rs:163-185 | with at most one record, any two loads that are not refused agree |
| `Store.NamespacesSeparate` | src/policy.rs:147-152 | saving under one label and suffix leaves the records of every other as they were |
| `Store.SaveKeepsObjects` | src/policy.rs:194-221 | an object a save leaves in place is unchanged |
| `Store.SaveValue` | src/policy.rs:263-290 | result and token after the destroys and the create |
| `Store.LoadValue` | src/policy.rs:232-254 | the first match's value, or none |
| `Store.LoadPolicyFrom` | src/policy.rs:163-185 | the stored policy, the permissive one when there is none |
| `Store.LoadSigrateFrom` | src/policy.rs:232-254 | the stored list, the empty one when there is none |
| `Policy.Verdict` | src/policy.rs:71-110 | accepted if and only if the outputs sum to at most the limit, every whitelist entry is on the network, and every output script is that of an entry |
| `Policy.TotalIsSum` | src/policy.rs:77-86 | the amount compared with the limit is the sum of the outputs' values |
| `Policy.CheckAgainstPsbt` | src/policy.rs:71-110 | the fold that panics past the amount type, then the two loops, decide as `Verdict` does |
| `Labels.ObjectLabelInjective` | src/key_ops.rs:59-67 | the label builders are injective and their four namespaces disjoint, for any labels |
| `Labels.LabelText` | src/key_ops.rs:59-67 | the four labels spelled out, and the label a master is stored under |
| `Labels.MasterLabelNeverLookedUp` | src/backend/mod.rs:535-546 | the label a master is stored under is none that a lookup asks for |
| `Backend.DeriveEffect` | src/backend/mod.rs:386-397 | a derived handle denotes the key at the end of the path and is new; earlier objects survive; each segment leaves one session object |
| `Backend.DeriveConcat` | src/backend/mod.rs:386-397 | deriving along p and then q is deriving along p + q, failures included |
| `Backend.DeriveOkIff` | src/backend/mod.rs:386-397 | a derivation succeeds if and only if the token serves one call per segment |
| `Backend.ReadBackLastSegment` | src/backend/mod.rs:461-474 | the child number read back from a derived key is the last segment of its path |
| `Backend.ReadXpubIff` | src/backend/mod.rs:399-493 | a read succeeds if and only if it is served, the point decodes to one on the curve, and the word has four bytes; it returns that point and the child number of that word |
| `Backend.MasterKeyEffect` | src/backend/mod.rs:336-384 | the temporary seed object is gone whether or not the derivation succeeds, unless its destroy is refused; the fingerprint is that of the seed's master |
| `Backend.CeremonyEffect` | src/signer.rs:129-165 | after a ceremony the handle denotes the key at the federation path of the master of the 64-byte seed, of 64 zero bytes for an empty one; any other length is refused before any call; nothing on the token is lost |
| `Backend.CeremonyHidden` | src/backend/mod.rs:535-546 | on every token and for every label, a ceremony leaves what the lookup matches as it was |
| `Backend.LoadMissesCeremony` | src/signer.rs:174-199 | so a lookup after the ceremony answers as one before it; where there was no key, `load` reports none |
| `Backend.LoadFingerprint` | src/signer.rs:174-199 | `load` succeeds only on a unique match and keeps that key's own fingerprint |
| `Backend.DeleteKeyEffect` | src/key_ops.rs:118-138 | a deletion removes only the private and public objects of its label, all of them when Ok |
| `Backend.DeriveAlong` | src/backend/mod.rs:386-397 | result and token after the loop over segments |
| `Backend.MakeMasterKey` | src/backend/mod.rs:336-384 | result and token after create, derive, destroy and the two reads |
| `Backend.DeriveSigner` | src/signer.rs:129-165 | result and token after a ceremony |
| `Backend.LoadSigner` | src/key_ops.rs:78-102 | result and token after lookup and reads: not found, ambiguous, or loaded |
| `Backend.ReadXpubOf` | src/backend/mod.rs:399-493 | point and child number of a key, or which of them is malformed |
| `Backend.FingerprintOf` | src/backend/mod.rs:495-515 | the fingerprint of whatever key the handle denotes |
| `Backend.DeleteKeyObjects` | src/key_ops.rs:118-138 | result and token after both rounds of destroys |
| `Backend.DeleteNamedObjects` | src/key_ops.rs:125-135 | result and token after one round |
| `Bip32.ChildWordRoundTrip` | src/backend/mod.rs:304-308 | the word sent for a child number is read back as that child number if and only if its index is below 2^31 |
| `Bip32.ChildWordValue` | src/backend/mod.rs:304-308 | the bytes are the index in little-endian order, plus 2^31 for a hardened segment |
| `Bip32.ChildWordReadBack` | src/backend/mod.rs:461-474 | every four-byte attribute reads as exactly one child number, which re-encodes to it |
| `Der.Encode` | src/key_ops.rs:184-199 | tag, shortest length octets and content, or a panic from 65536 bytes on |
| `Der.DecodeEncode` | src/key_ops.rs:153-174 | decoding an encoding with any tail gives back the content |
| `Der.EncodePrefixFree` | src/key_ops.rs:184-199 | the encoding is injective, and none is a prefix of another |
| `Der.EncodeShortest` | src/key_ops.rs:184-199 | no DER input the decoder reads as this content is shorter |
| `Der.DecodeTagged` | src/key_ops.rs:153-174 | a tagged input decodes exactly to the content that follows a length of one, two or three octets, minimal or not |
| `Der.DecodeIdentity` | src/key_ops.rs:153-174 | decoding is the identity exactly on non-empty inputs of length 1 or without the tag; otherwise a result is at least two bytes shorter |
| `Der.RawUncompressedPointLost` | src/key_ops.rs:153-174 | a raw 65-byte uncompressed point is never returned as it is |
| `Ecdsa.FromToken` | src/ecdsa.rs:36-48 | 64 bytes with reduced halves are accepted; r is kept, s comes out as s or n - s, at most n/2, and normalising again changes nothing |
| `Ecdsa.BigEndianWeights` | src/ecdsa.rs:36-43 | the halves are read as big-endian numbers |
| `Ecdsa.NormalizeIsCanonical` | src/ecdsa.rs:47 | two signatures normalise alike if and only if they are the two forms of one |
| `Base64.DecodeEncoded` | tests/common/rpc.rs:202-224 | a strict decoder recovers every input, so the encoder is injective |
| `Base64.EncodeDecoded` | tests/common/rpc.rs:202-224 | whatever the strict decoder accepts is the encoding of what it returns |
| `Base64.EncodedShape` | tests/common/rpc.rs:202-224 | four symbols per chunk begun, all in the alphabet but the padding at the very end |
| `Base64.Encode` | tests/common/rpc.rs:202-224 | the loop over three-byte chunks |
| `Base64.PushChunk` | tests/common/rpc.rs:206-221 | the four symbols of one chunk |
| `Fleet.Validate` | src/fleet.rs:151-171 | Ok if and only if no two identities are equal; otherwise it names the lexicographically first equal pair |
| `Fleet.IdentitySpelled` | src/fleet.rs:152-160 | the text compared is vendor, library, slot and path with bars between them |
| `Fleet.PathSpelled` | src/fleet.rs:158 | a path in it is its indices in digits, hardened ones with an apostrophe, with slashes between them |
| `Fleet.CollisionMeaning` | src/fleet.rs:151-171 | members with the same vendor, library, slot and path always collide; in a fleet without confusable members only they do |
| `Fleet.IdentityInjectiveIff` | src/fleet.rs:152-160 | two (vendor, library) pairs are told apart under all slots and paths if and only if their texts are not confusable |
| `Fleet.NoBarsNotConfusable` | src/fleet.rs:152-160 | vendors and libraries without bars are never confusable |
| `Fleet.SlotInjective` | src/config.rs:115-122 | the displayed slot determines the slot |
| `Fleet.PathInjective` | src/fleet.rs:158 | the displayed path determines the path |
| `Discovery.FromEnv` | src/fleet.rs:189-240 | the scan ends on every environment, with what `Discovered` describes |
| `Discovery.OkReachesFirstGap` | src/fleet.rs:193-239 | on Ok there is at least one member; member i has the fields that `EMVAULT_FLEET_i_...` say, and the vendor variable of the next index is unset |
| `Discovery.ScanStopsAtGap` | src/fleet.rs:193 | the answer is unique and depends only on the network and the variables up to the first gap |
| `Discovery.MemberDependsOnIndex` | src/fleet.rs:194-238 | a member is built only from the variables with its index and the network |
| `Discovery.WritingElsewhere` | src/fleet.rs:273-275 | setting a variable of one index changes no other member, and not the network |
| `Discovery.FKeyInjective` | src/fleet.rs:273-275 | no two (index, field) pairs share a variable |
| `Discovery.FKeyText` | src/fleet.rs:273-275 | the variable of a field with index i is `EMVAULT_FLEET_`, i in digits, an underscore, the field |
| `Discovery.MemberReads` | src/fleet.rs:194-233 | every field of a member is the value of the variable of that name with its index; a slot label wins over a slot number, an unset key means the shim |
| `Discovery.NetworkRead` | src/fleet.rs:190 | the network is that of `EMVAULT_FLEET_NETWORK`, testnet when it is unset or empty |
| `Discovery.NetworkNames` | src/fleet.rs:325-335 | a text names a network, in any case and with blanks around it, if and only if it is one of its names |
| `Discovery.KeyInits` | src/fleet.rs:306-323 | what a key field asks for: load, shim or nothing, or a seed in hex |
| `Discovery.VendorsShrink` | src/fleet.rs:193-234 | each turn of the scan uses up a vendor variable, the measure of its termination |
| `Discovery.DescribedIsDiscovered` | src/fleet.rs:189-240 | a fleet written into the environment is discovered as it was written, if parsers and registrars accept it |
| `Discovery.WrittenDescribes` | src/fleet.rs:273-275 | writing member after member overwrites nothing |
| `Discovery.ReadMember` | src/fleet.rs:194-233 | one turn: the fields in order, the first error, or the member |
| `Text.ParseDecimal` | src/fleet.rs:294-296 | a displayed 64-bit number parses back to itself |
| `Text.NumeralIsDecimal` | src/fleet.rs:274 | there is one way to display a number in digits |
| `Text.TrimMeaning` | src/fleet.rs:307 | trimming takes blanks off both ends, all of them and nothing else |
| `Text.BlankCodePoints` | src/fleet.rs:307 | the blanks are the Unicode characters with the property White_Space |
| `Text.LowerMeaning` | src/fleet.rs:326 | lowering changes the 26 capital letters to their small forms and nothing else |
| `TokenModel.Token.DestroyObject` | src/signer.rs:669-671 | refused, or the object is gone |
| `TokenModel.Token.DeriveChildKey` | src/backend/mod.rs:298-316 | refused, or a new session key one segment below the parent |

## Left out

- Real cryptography, the sighash algorithms, HASH160, and the parsing of PSBTs, PSETs, addresses, paths and JSON: parameters, as listed under "What is assumed".
- Sessions, library loading, login and the resolution of slots; two independent sessions on one token.
- Poisoning of the mutex: a panic under the lock (an amount overflow, the 32-bit conversion) ends the call, and later calls are not modelled as failing for it.
- Finer steps in `Clones`: a whole signing loop is one step of a process there, as is each load; only the replacement of a record goes token call by token call. The lock is held throughout.
- The wording of errors; the model keeps the cause and the input index.
- ReadXpubOf: keeps point and child number only; chain code, depth, parent fingerprint with their missing or malformed cases, and the loop that sorts attributes, are not modelled.
- `NetworkPatchedSigner`, the descriptor key, capabilities, health check and plain getters.
- `build_signers`, which validates and then opens a session per member.
- Hex decoding of a seed (a parameter of the scan), environment values that are not text (absent, as in the code), and secrets kept in zeroised strings.
- The display of a library path: the model starts from the displayed text.
- Attributes of key objects that no modelled call reads.
