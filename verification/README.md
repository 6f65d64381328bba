# Verified model of the evidence and dispatch protocols

This project models, in Dafny, the parts of the repository that other parts rely on for safety,
and proves what they promise:

* **Payments.** A durable claim journal, a provider ledger and a custody collector, connected by
  messages that can be lost, delayed or repeated. `PaymentModel` gives each database transaction
  as a function of the old state, `PaymentStores` is the same as classes that change their tables
  step by step, `PaymentProtocol` is the state machine of all processes together, and
  `PaymentSteps` and `PaymentSafety` prove what holds after every schedule of every length, and
  `PaymentProgress` that a submission can always be carried through.  Each process is opened
  with a generation and a gate configuration of its own. `PaymentAnswers` says what each
  transaction answers and writes, from balances, rows and dates alone.
  `Admission` is the gate's decision and its retained proof; `PaymentEvidence` is the
  retrospective assessment of a payment, and `PaymentClaims` says when each of its claims is
  upheld or contradicted.
* **Merkle trees.** The tree hash and audit paths of RFC 6962 (sections 2.1 and 2.1.1), and the
  two inclusion verifiers: the loop over the bits of two indices of RFC 9162 (section 2.1.3.2) and
  the recursion with a cursor. `BatchCompleteness`, `ScopeAccounting` and `EvidencePack` are the
  three checkers built on them.
* **One-shot actions.** Local erasure (`ErasureProvider`, `ErasureRuns`) and the gated upload
  (`UploadGate`): long procedures with an exit at every failure, over a claim journal.
  `UploadAuthorization` puts the transfer assessor behind the upload gate.
* **Transfer assessment** (`TransferAssessment`, `TransferVerdicts`) and the **hash-chained
  editor** (`PublicationEditor`, `PublicationRules`).

Most verdicts are stated twice: once as the predicate that a procedure is proved to compute, and
once as a lemma that ties this predicate to signatures, rows, amounts and dates without any of
its helpers (the lemmas named `...When`, `...Exactly`, `...Upheld` or `...Contradicted`).

How the outside world appears:

* Digests and canonical encodings. In the Merkle modules and the editor the hash is an arbitrary
  function, and a result that needs collision resistance says "or these two collide" and names the
  trees, the path or the lists that the colliding pair comes from. In the other modules a digest
  is the value it is taken of, or an arbitrary function.
* Signatures. A statement carries the key that signed it, or a flag that its signature verifies.
  In the payment protocol a reply that carries a store's key must be one that this store signed.
* Transactions. Each is one step that commits or rolls back as a whole; rolling back is a
  parameter (`commit`). Crashes, lost replies and repeated deliveries are actions of the schedule.
* Clock readings, measurements, failing calls and random identifiers are parameters, so every
  statement holds for all of them.

Two places where the code needs care:

* The erasure provider keeps an acknowledgement in a result whose persistence failed, and drops
  attestation and receipt; `ErasureProvider.Delete` shows that its own offline checker accepts
  every such result.
* A "revoked" status can never support an admission, although the code reads its revocation time:
  a revocation may not postdate the observation, and the observation may not postdate the
  admission (`Admission.RevokedNeverAuthorizes`). The same holds for the retrospective
  assessment (`PaymentEvidence.RevokedIsNeverValid`).

## Model

| member | source | states |
|---|---|---|
| MerkleTree.SplitLogOfPow2 | experiments/declared-scope-verifier/scope_verifier/crypto.py:131-132 | the split point of a perfect tree is exactly its half |
| MerkleTree.Split | experiments/declared-scope-verifier/scope_verifier/crypto.py:131-132 | the split point leaves a non-empty right part that is no larger than the left |
| MerkleTree.RootSplitsAtPowerOfTwo | experiments/declared-scope-verifier/scope_verifier/crypto.py:135-141 | the hash of n leaves joins, in this order, the hash of the first 2^m and the hash of the rest, for the largest power of two below n |
| MerkleTree.PathSplitsAtPowerOfTwo | experiments/declared-scope-verifier/scope_verifier/crypto.py:144-152 | the last sibling of an audit path is the hash of the half that the leaf is not in, and the rest is its path in its own half |
| MerkleTree.HonestPathClimbs | experiments/declared-scope-verifier/scope_verifier/crypto.py:135-152 | completeness: the audit path of leaf i has the length of its depth and leads from the leaf to the tree hash |
| MerkleTree.OnlyHonestPathClimbs | experiments/declared-scope-verifier/scope_verifier/crypto.py:135-152 | soundness: whatever leads to the root at position i is leaf i with its own audit path, or a node on that way collides with a node of the tree |
| MerkleTree.RootDeterminesLeaves | experiments/vcp-v1.2-integrity-alignment/probe.py:81-88 | equal roots over equally many leaves mean equal leaves, or a node of one tree collides with a node of the other |
| MerkleTree.DepthBound | experiments/vcp-v1.2-integrity-alignment/probe.py:91-97 | a path is never longer than the bit length of the last index |
| InclusionVerifiers.Strict | experiments/vcp-v1.2-integrity-alignment/probe.py:100-119 | the loop over the bits of the two indices computes the bottom-up climb |
| InclusionVerifiers.Inclusion | experiments/declared-scope-verifier/scope_verifier/crypto.py:155-179 | the recursion with a moving cursor, its size and path limits and its error exits |
| InclusionVerifiers.ProofReader.Fold | experiments/declared-scope-verifier/scope_verifier/crypto.py:163-175 | one recursive call reads its siblings at the cursor and advances it by exactly those |
| InclusionVerifiers.FoldClimbs | experiments/declared-scope-verifier/scope_verifier/crypto.py:163-175 | the recursion takes exactly the next depth-many siblings and climbs with them, or fails if there are fewer |
| InclusionVerifiers.HighBit | experiments/vcp-v1.2-integrity-alignment/probe.py:104-118 | prefixing both indices with one higher bit does not change the climb of the loop below it |
| InclusionVerifiers.PerfectSubtree | experiments/vcp-v1.2-integrity-alignment/probe.py:104-118 | over a perfect subtree the loop consumes one sibling per level and one bit of both indices |
| InclusionVerifiers.LoopClimbs | experiments/vcp-v1.2-integrity-alignment/probe.py:104-119 | a path of the right length takes the loop exactly to the root of the climb |
| InclusionVerifiers.LoopAcceptsExactly | experiments/vcp-v1.2-integrity-alignment/probe.py:100-119 | the loop accepts if and only if the index is in range, the path has the right length and it climbs to the root |
| InclusionVerifiers.VerifiersAgree | experiments/declared-scope-verifier/scope_verifier/crypto.py:155-179 | for every leaf, index, size, path and root the recursion raises exactly outside its number limits, and else answers as the loop does |
| InclusionVerifiers.PathsFit | experiments/declared-scope-verifier/scope_verifier/crypto.py:155-162 | within the size limit an honest path has at most 14 siblings, so the cap of 64 rejects none |
| InclusionVerifiers.AcceptsExactlyHonestProofs | experiments/declared-scope-verifier/scope_verifier/crypto.py:144-179 | against the root of some leaves both verifiers accept every honest proof, and whatever either accepts is honest or shows a collision on its own path |
| BatchCompleteness.Reconcile | experiments/declared-scope-verifier/scope_verifier/verifier.py:120-196 | an error exactly for numbers or lists beyond their limits; "verified" exactly for a grounded index, a covering delivery and good events, and "failed" exactly for a grounded index without covering |
| BatchCompleteness.CheckEvent | experiments/declared-scope-verifier/scope_verifier/verifier.py:144-158 | the checks on one delivered event: signature and source, hash, index identity and inclusion |
| BatchCompleteness.CoversWhen | experiments/declared-scope-verifier/scope_verifier/verifier.py:190-196 | a delivery covers the batch exactly when it has as many events, at different positions within it, under different ids, which are the ids of the index |
| BatchCompleteness.IndexGoodWhen | experiments/declared-scope-verifier/scope_verifier/verifier.py:120-132 | an index is grounded exactly when its digest, tree, count, ends and policy are the anchored ones and no id comes twice |
| BatchCompleteness.EventGoodWhen | experiments/declared-scope-verifier/scope_verifier/verifier.py:144-158 | an event passes exactly when it and its source are signed, its hash is its own, the index names it at its position, and its path has the depth of that position and climbs to the anchored root |
| BatchCompleteness.VerifiedIsTheBatch | experiments/declared-scope-verifier/scope_verifier/verifier.py:190-196 | a verified delivery is a permutation of the anchored batch; sorted by index it reproduces the anchored root |
| BatchCompleteness.VerifiedDeliversOnceEach | experiments/declared-scope-verifier/scope_verifier/verifier.py:190-196 | a delivery that repeats or omits an index is never verified |
| BatchCompleteness.AnchorDeterminesDelivery | experiments/declared-scope-verifier/scope_verifier/verifier.py:124-131 | two verified deliveries of one anchor carry the same body at each index, or these bodies share a leaf hash, or nodes of the two trees collide |
| ScopeAccounting.Judge | experiments/declared-scope-verifier/scope_verifier/verifier.py:382-448 | the cascade of branches over one obligation finds it satisfied, violated or unresolved exactly by the declarative conditions |
| ScopeAccounting.FulfilledWhen | experiments/declared-scope-verifier/scope_verifier/verifier.py:382-448 | an obligation is fulfilled exactly by the one valid record it asks for, shown as included, or by the one valid commitment proof, shown as withheld; a notification has to be due and in time |
| ScopeAccounting.ViolatedWhen | experiments/declared-scope-verifier/scope_verifier/verifier.py:382-448 | an obligation is violated exactly by a valid but wrong record or proof, or after the delivery is over by repetition, by withholding what is owed in full, or by silence; never together with being fulfilled |
| ScopeAccounting.Combine | experiments/declared-scope-verifier/scope_verifier/verifier.py:361-369 | inventory and pinned obligations merge by id; it fails exactly when two of one id differ |
| ScopeAccounting.Account | experiments/declared-scope-verifier/scope_verifier/verifier.py:352-467 | an input is rejected exactly when its ids conflict, exceed the limit or name an unknown state; otherwise the report is exactly the books over the combined obligations, relationships and open points |
| ScopeAccounting.EveryObligationCountsOnce | experiments/declared-scope-verifier/scope_verifier/verifier.py:382-448 | satisfied, violated and unresolved obligations add up to all of them, and so do the presentation states |
| ScopeAccounting.MetExactly | experiments/declared-scope-verifier/scope_verifier/verifier.py:217-223 | the result is "met" if and only if every obligation is fulfilled and nothing else is open or violated |
| ScopeAccounting.NotMetExactly | experiments/declared-scope-verifier/scope_verifier/verifier.py:217-223 | the result is "not met" if and only if something was recorded against the scope, an obligation is violated or related records disagree |
| ScopeAccounting.NothingElseOpenWhen | experiments/declared-scope-verifier/scope_verifier/verifier.py:198-223 | what "met" needs besides the obligations: inventory, closed source without gaps, final manifest, verified checks, agreeing relations |
| ScopeAccounting.MetLeavesNothingOut | experiments/declared-scope-verifier/scope_verifier/verifier.py:467-467 | "met" means satisfied equals expected, every obligation is in the manifest, and each has exactly one authentic record or proof |
| EvidencePack.CheckSequence | interop/vap-evidence-pack-demo/verify_python.py:276-286 | accepts exactly contiguous numbers, pairwise distinct ids and nondecreasing times inside the window |
| EvidencePack.CheckPairs | interop/vap-evidence-pack-demo/verify_python.py:302-313 | accepts exactly the event lists in which attempts and outcomes pair up and number as expected |
| EvidencePack.VerifyPack | interop/vap-evidence-pack-demo/verify_python.py:264-314 | accepts exactly the packs that meet the declarative reading of all checks |
| EvidencePack.EndorsedWhen | interop/vap-evidence-pack-demo/verify_python.py:264-301 | a pack is endorsed exactly when three different keys signed its root, its count and its scope, none before the end of it |
| EvidencePack.AcceptedWhen | interop/vap-evidence-pack-demo/verify_python.py:264-314 | a pack is accepted exactly when it is endorsed, its events are in order and number twice the expected attempts, and each has just one partner |
| EvidencePack.EventsWhen | interop/vap-evidence-pack-demo/verify_python.py:276-286 | events are the producer's and in sequence exactly when each is signed by it, numbered by its place and within scope and window, no id repeats and time never runs back |
| EvidencePack.PairedWhen | interop/vap-evidence-pack-demo/verify_python.py:302-313 | events pair up exactly when there are two per expected attempt and each has just one partner, the outcome after its attempt |
| EvidencePack.AcceptedIsBijection | interop/vap-evidence-pack-demo/verify_python.py:302-313 | accepted events number twice the expected attempts, and an involution joins each attempt to its own later outcome |
| EvidencePack.AnchorFixesEvents | interop/vap-evidence-pack-demo/verify_python.py:287-301 | two accepted packs whose anchor receipts name one root and one count hold the same events, or events at one place share a leaf hash, or nodes of the two trees collide |
| Admission.Decision.Verified | experiments/payment-authorization-pilot/authorization_gate.py:216-248 | a slot counts exactly when it is authenticated for its role and not dated after the admission; otherwise it only leaves the decision unknown |
| Admission.Assess | experiments/payment-authorization-pilot/authorization_gate.py:251-328 | AUTHORIZED exactly when everything required holds on usable evidence, DENIED exactly when something contradicts it |
| Admission.SupportedWhen | experiments/payment-authorization-pilot/authorization_gate.py:251-328 | support is exactly two approvals of this request under the gate's policy by two different eligible persons and an active status that names both, was taken after both and is still fresh |
| Admission.ContradictedWhen | experiments/payment-authorization-pilot/authorization_gate.py:251-328 | a contradiction is exactly a policy mismatch, an unfit authentic approval, two that are not independent, or an authentic status that is adverse or disagrees with an authentic approval |
| Admission.AuthenticWhen | experiments/payment-authorization-pilot/authorization_gate.py:216-248 | a slot is authentic exactly when a key configured for it signed a readable statement of its kind, made by the time |
| Admission.AuthorizedByTwoPersons | experiments/payment-authorization-pilot/authorization_gate.py:251-328 | an authorization rests on all three slots and on two different configured persons |
| Admission.AuthorizedTimesAreOneInterval | experiments/payment-authorization-pilot/authorization_gate.py:251-328 | the authorizing times of fixed evidence are exactly one half-open interval, read off its dates |
| Admission.RevokedNeverAuthorizes | experiments/payment-authorization-pilot/authorization_gate.py:311-321 | a revoked status never supports an admission, and with a revocation time it denies it |
| Admission.RecheckRecord | experiments/payment-authorization-pilot/authorization_gate.py:337-393 | a proof record is supported exactly when its own inputs reproduce the identical recorded decision and it admits |
| Admission.AdmittedRecordRechecks | experiments/payment-authorization-pilot/authorization_gate.py:449-460 | every record that a configured gate's admission writes rechecks, to the identical decision |
| Admission.RechecksWhen | experiments/payment-authorization-pilot/authorization_gate.py:337-393 | a record is relied on exactly when its gate limits the age of a status, its slots support its request at the time of admission, and its decision says just that |
| PaymentModel.FindIsExact | experiments/payment-runtime-pilot/payment_runtime.py:286-299 | a lookup finds the row of exactly this request, a conflict when only one identity matches, and nothing otherwise |
| PaymentStores.ProviderStore.Open | experiments/payment-runtime-pilot/payment_runtime.py:254-274 | reopening accepts the same or a later generation and refuses another configuration for one epoch |
| PaymentStores.ProviderStore.ApplyPayment | experiments/payment-runtime-pilot/payment_runtime.py:435-474 | the POST transaction on the tables is the modelled one: replay, conflict, fencing, decision, balances, effect and receipt |
| PaymentAnswers.PostSettlesExactly | experiments/payment-runtime-pilot/payment_runtime.py:435-474 | a new payment is answered 200 with a receipt that reports settled if and only if both accounts exist, the payer has the amount and the beneficiary's new balance has at most 78 digits; otherwise the receipt names the reason |
| PaymentAnswers.PostMovesExactly | experiments/payment-runtime-pilot/payment_runtime.py:435-474 | a settled payment moves exactly its amount between the two accounts and adds one effect; a failed one changes no balance and adds none |
| PaymentAnswers.PostOtherwise | experiments/payment-runtime-pilot/payment_runtime.py:435-474 | a stored request is answered with its stored receipt, a used identity with 409, a malformed, foreign or stale request with 400, a lost transaction not at all; the ledger stays as it is |
| PaymentAnswers.LimitIs78Digits | experiments/payment-runtime-pilot/payment_runtime.py:126-128 | a balance is within the limit exactly when its decimal form has at most 78 digits |
| PaymentStores.CollectorStore.Collect | experiments/payment-collector-pilot/payment_collector.py:313-337 | the collector's transaction: the same package gets its saved acknowledgement, another of its kind is refused |
| PaymentAnswers.CollectorKeepsExactly | experiments/payment-collector-pilot/payment_collector.py:313-337 | a row is added exactly for the first package of its kind about its own request, in the current epoch, and acknowledged with the collector's key |
| PaymentStores.DispatchJournal.Claim | experiments/payment-runtime-pilot/payment_runtime.py:727-758 | the claim transaction under the claiming process's own gate: claim and admission proof commit or roll back together |
| PaymentAnswers.ClaimIsMadeExactly | experiments/payment-runtime-pilot/payment_runtime.py:727-758 | a new claim is made exactly in the current generation and context and, behind a gate, on usable evidence that supports it; it adds one row and its proof |
| PaymentAnswers.UsedIsNotClaimed | experiments/payment-runtime-pilot/payment_runtime.py:727-740 | a used identity gets the existing row or a conflict, and nothing is written |
| PaymentStores.DispatchJournal.StoreReceipt | experiments/payment-runtime-pilot/payment_runtime.py:784-807 | a verified receipt ends an unresolved row once; a different one for a terminal row is refused |
| PaymentAnswers.ReceiptIsStoredExactly | experiments/payment-runtime-pilot/payment_runtime.py:784-807 | a good receipt ends an unresolved claim as it says; for a resolved one it has to be the very same receipt; anything else is refused |
| PaymentAnswers.ReceiptIsGoodExactly | experiments/payment-runtime-pilot/payment_runtime.py:332-366 | a receipt is good exactly when the provider signed it about this request and it is a settlement with its effect or a failure with a listed reason |
| PaymentStores.DispatchJournal.Persist | experiments/payment-collector-pilot/payment_collector.py:588-622 | a custody observation is stored, a marker only for an unresolved claim that has none |
| PaymentAnswers.ObservationIsKeptExactly | experiments/payment-collector-pilot/payment_collector.py:588-622 | an observation is kept exactly in the current custody epoch for a claimed request; before the dispatch only once, for an unresolved claim, with the admission record |
| PaymentAnswers.AcknowledgementIsGoodExactly | experiments/payment-collector-pilot/payment_collector.py:198-246 | an acknowledgement is the collector's, for this package and from no later epoch; a readback repeats both in the current epoch |
| PaymentInvariants.ClaimKeeps | experiments/payment-runtime-pilot/payment_runtime.py:727-758 | a claim under any configured gate keeps identities distinct, generations fenced and every claim proven |
| PaymentInvariants.StoreReceiptKeeps | experiments/payment-runtime-pilot/payment_runtime.py:784-807 | storing a receipt keeps terminal rows verified by their own receipts |
| PaymentInvariants.ClaimsAreExactlyProofs | experiments/payment-authorization-pilot/authorization_gate.py:449-470 | in a gated journal a claim row exists if and only if its proof row exists, and the reader finds it |
| PaymentInvariants.PostPaymentKeeps | experiments/payment-runtime-pilot/payment_runtime.py:435-474 | a POST keeps the ledger's account: balances from effects, effects from settled payments, distinct identities |
| PaymentInvariants.LookupIsExact | experiments/payment-runtime-pilot/payment_runtime.py:478-497 | the lookup serves a stored receipt for its exact request and for nothing else, and it verifies |
| PaymentAnswers.LookupAnswers | experiments/payment-runtime-pilot/payment_runtime.py:478-497 | the lookup answers a stored request with its receipt, a used identity with 409 and everything else with 404 |
| PaymentInvariants.PaymentConservesTotal | experiments/payment-runtime-pilot/payment_runtime.py:435-474 | a payment, settled or failed or rolled back, leaves the total of all balances unchanged |
| PaymentInvariants.EffectsAreSettledPayments | experiments/payment-runtime-pilot/payment_runtime.py:435-474 | a request has an effect if and only if its payment settled |
| PaymentSteps.StepKeepsInv | experiments/payment-runtime-pilot/payment_runtime.py:830-921 | every action of every process keeps the protocol invariant |
| PaymentSteps.StepExtends | experiments/payment-runtime-pilot/payment_runtime.py:662-699 | no action takes back a row, a proof, a stored receipt or a generation |
| PaymentSafety.OnePostOneEffect | experiments/payment-runtime-pilot/payment_runtime.py:830-873 | in every reachable state a request has at most one POST and one effect, in the order claim, POST, effect |
| PaymentSafety.NothingRearms | experiments/payment-collector-pilot/payment_collector.py:723-776 | once the claiming call is gone, no schedule of restarts, resubmissions, reconciliations or recoveries makes a POST or a marker |
| PaymentSafety.SettledMeansEffect | experiments/payment-runtime-pilot/payment_runtime.py:784-807 | a SETTLED row means that the effect exists, with the provider's own receipt |
| PaymentSafety.FailedMeansNever | experiments/payment-runtime-pilot/payment_runtime.py:784-807 | a FAILED row means that no later schedule ever produces the effect |
| PaymentSafety.TerminalNeverChanges | experiments/payment-runtime-pilot/payment_runtime.py:670-692 | a stored terminal result and its receipt are never changed by any schedule |
| PaymentSafety.ReconciliationResolves | experiments/payment-runtime-pilot/payment_runtime.py:891-921 | one undisturbed reconciliation of an unresolved claim stores exactly the provider's receipt and posts nothing |
| PaymentSafety.GenerationFencing | experiments/payment-runtime-pilot/payment_runtime.py:254-283 | in both stores the generation never goes back, one epoch has one configuration, rows appear in epoch order, and no stale process adds a row |
| PaymentSafety.TotalIsConstant | experiments/payment-runtime-pilot/payment_runtime.py:435-474 | the total of the balances is the same after every schedule |
| PaymentSafety.LedgerIsAccounted | experiments/payment-runtime-pilot/payment_runtime.py:392-408 | each balance is its initial value plus incoming minus outgoing effects, within the 78-digit bound; identities are used once; every payment was claimed |
| PaymentSafety.EveryClaimIsProven | experiments/payment-authorization-pilot/authorization_gate.py:523-550 | behind whatever gates the processes were opened with, claims and proofs correspond one to one, and a reader finds for every claim the record that rechecks under its own recorded configuration to the identical decision |
| PaymentSafety.ProofOutlivesItsGate | experiments/payment-authorization-pilot/authorization_gate.py:337-343 | whatever gates later processes bring, the reader goes on finding the very record that was made at the claim |
| PaymentSafety.AnyGateMayClaim | experiments/payment-authorization-pilot/authorization_gate.py:396-411 | a process opened with any configured gate in a generation not behind the store's commits a new claim that this gate admits, and the proof names it |
| PaymentSafety.CustodyBeforePost | experiments/payment-collector-pilot/payment_collector.py:723-745 | a POST is preceded, in this order, by the proven claim, the collector's row with exactly that package, and the committed marker |
| PaymentProgress.SubmissionIsCarriedOut | experiments/payment-runtime-pilot/payment_runtime.py:830-873 | from every reachable state in which a request is fresh and, behind a gate, admitted, a schedule exists that claims it, takes it into custody where due, posts it once and ends its row as settled, with its effect, if and only if the ledger can pay |
| PaymentProgress.IdentitiesAreUsedOnce | experiments/payment-runtime-pilot/payment_runtime.py:286-299 | after every schedule no operation id and no key has two rows, in the journal or in the ledger |
| PaymentProgress.CallsProceedInOrder | experiments/payment-collector-pilot/payment_collector.py:723-776 | every action takes a call one step on in the order claim, custody, POST, reply, storage (or lookup, reply, storage; or recovery), under the condition of that step, or leaves it, or ends it |
| PaymentProgress.OpeningsWhen | experiments/payment-runtime-pilot/payment_runtime.py:254-283 | opening a store or a custody side takes effect exactly if its epoch is not behind the stored one, and then starts idle; a gated adapter also needs a positive freshness limit |
| PaymentProgress.ForgeriesEndTheCall | experiments/payment-runtime-pilot/payment_runtime.py:830-873 | a receipt, acknowledgement or readback that the right store did not sign ends the call that waited for it |
| PaymentProgress.ClaimsAreSound | experiments/payment-runtime-pilot/payment_runtime.py:727-758 | after every schedule, only well-formed requests of the installation's own context are claimed |
| PaymentEvidence.Checks.Bind | experiments/payment-api-evidence/payment_evidence.py:366-376 | a reference fails a claim only when an authenticated record has another digest, and leaves it open when there is none |
| PaymentEvidence.Checks.CheckAuthorization | experiments/payment-api-evidence/payment_evidence.py:408-486 | the accumulated reasons give exactly the declarative verdict on the authorization |
| PaymentEvidence.Checks.CheckExecution | experiments/payment-api-evidence/payment_evidence.py:489-525 | likewise for the execution, whose outcome is reported only without any open question |
| PaymentEvidence.Checks.CheckControlState | experiments/payment-api-evidence/payment_evidence.py:528-587 | likewise for routes, retention and the collector's checkpoint |
| PaymentEvidence.Checks.CheckIntegrity | experiments/payment-api-evidence/payment_evidence.py:637-643 | a broken envelope makes the integrity INVALID, an untrusted one or none at all leaves it open |
| PaymentEvidence.VerifyBundle | experiments/payment-api-evidence/payment_evidence.py:618-665 | an unreadable bundle is reported as such; otherwise later records are set aside and the claims assessed on the rest |
| PaymentClaims.OutcomeIsTheReceipts | experiments/payment-api-evidence/payment_evidence.py:489-525 | the outcome is the status of the supplied receipt, reported exactly when nothing contradicts the execution and all its records are known; a settlement is confirmed exactly for a VALID execution whose receipt says settled |
| PaymentClaims.KnownThen | experiments/payment-api-evidence/payment_evidence.py:644-665 | a record is known exactly from its own date on; a policy carries none |
| PaymentClaims.AuthorizationUpheld | experiments/payment-api-evidence/payment_evidence.py:408-486 | VALID exactly when two different persons approved this operation, a status taken after both and fresh at the dispatch reports the credential active, the policy allows it and all references are right |
| PaymentClaims.AuthorizationContradicted | experiments/payment-api-evidence/payment_evidence.py:408-486 | INVALID exactly when one of the known records contradicts the dispatch, field by field |
| PaymentClaims.ExecutionContradicted | experiments/payment-api-evidence/payment_evidence.py:489-525 | INVALID exactly for other bytes than the approved ones, a reference to another record than the supplied one, or a receipt about something else or dated before the dispatch |
| PaymentClaims.ExecutionUpheld | experiments/payment-api-evidence/payment_evidence.py:489-525 | VALID exactly when nothing contradicts the execution, all its records are known and the provider reported a final outcome |
| PaymentClaims.ControlUpheld | experiments/payment-api-evidence/payment_evidence.py:528-587 | VALID exactly when the four routes, and no others, were seen in their required states just before the dispatch, and the collector retained every supplied record by its checkpoint, without gaps |
| PaymentClaims.ControlContradicted | experiments/payment-api-evidence/payment_evidence.py:528-587 | INVALID exactly when a known record shows another runtime, policy scope or configuration, a route in a wrong state, or evidence mislaid or made after the checkpoint |
| PaymentEvidence.DecidedStaysDecided | experiments/payment-api-evidence/payment_evidence.py:644-665 | a claim that is VALID or INVALID at one time is the same at every later time; integrity does not depend on time; a confirmed settlement stays confirmed |
| PaymentEvidence.DroppingNeverInvalidates | experiments/payment-api-evidence/payment_evidence.py:366-376 | leaving authenticated records out never makes a claim INVALID |
| PaymentEvidence.RevokedIsNeverValid | experiments/payment-api-evidence/payment_evidence.py:476-483 | a status that reports a revocation never supports a VALID authorization |
| TransferAssessment.SelectPolicy | experiments/incident-evidence-assessor/incident_assessor/transfer.py:71-81 | finds a pinned policy that is effective at the time exactly if there is one, and then the one with the largest time and id |
| TransferAssessment.SelectDecision | experiments/incident-evidence-assessor/incident_assessor/transfer.py:84-94 | finds the latest decisions in their windows, a conflict exactly when they disagree, and otherwise the one with the least id |
| TransferAssessment.HealthAt | experiments/incident-evidence-assessor/incident_assessor/transfer.py:129-136 | whether the collector was checked in time, and whether any check was bad |
| TransferAssessment.Evaluate | experiments/incident-evidence-assessor/incident_assessor/transfer.py:139-306 | the result that the stages overwrite step by step is the declarative assessment of the set of records |
| TransferAssessment.AllowsExactly | experiments/incident-evidence-assessor/incident_assessor/transfer.py:139-306 | ALLOW if and only if the operation is not later than the evaluation, the transfer is authorized at its time, and every observed action was authorized at its own |
| TransferVerdicts.AllowedWhen | experiments/incident-evidence-assessor/incident_assessor/transfer.py:66-306 | ALLOW if and only if, at the operation time and at the own time of every action seen, the pinned policy was recorded and in its interval and grants the target, the last word recorded is a permit not expired, and a demanded collector was checked and good |
| TransferVerdicts.DeniedWhen | experiments/incident-evidence-assessor/incident_assessor/transfer.py:66-306 | DENY if and only if the transfer was forbidden by grant, decision or collector at the operation time or when it was done, or does not stand and is permitted for other bytes |
| TransferVerdicts.LastWordDecides | experiments/incident-evidence-assessor/incident_assessor/transfer.py:84-94 | the latest decisions agree on an answer exactly when some current decision gives it and none recorded with it or later says otherwise |
| TransferVerdicts.BindingMeans | experiments/incident-evidence-assessor/incident_assessor/transfer.py:139-187 | when the binding is a match, a payload mismatch, a named grant failure or unresolved |
| TransferVerdicts.FailureIsFirstMiss | experiments/incident-evidence-assessor/incident_assessor/transfer.py:102-115 | the grant failure is the first dimension, in the fixed order, in which some grant alone differs from the target |
| TransferVerdicts.ReportedOfActions | experiments/incident-evidence-assessor/incident_assessor/transfer.py:228-294 | a violation exactly when something was done while forbidden; the observed verdict is UNKNOWN, ALLOW or DENY exactly when nothing was done, all was in order, or something was forbidden |
| TransferVerdicts.ReportedOfTransfer | experiments/incident-evidence-assessor/incident_assessor/transfer.py:215-306 | observed egress, dispatch alone, or an absence that only complete statements of a managed route support; reconciliation exactly when a timeout follows a dispatch |
| TransferAssessment.NeverUpgraded | experiments/incident-evidence-assessor/incident_assessor/transfer.py:228-270 | observed events never improve on the proposed verdict, and the two action fields always agree with the final one |
| TransferAssessment.EvaluateBoth | experiments/incident-evidence-assessor/incident_assessor/transfer.py:139-306 | permuting the records changes no assessment |
| ErasureProvider.Persist | experiments/incident-erasure-pilot/erasure_pilot/provider.py:368-382 | a result stands only if the journal acknowledged exactly it; otherwise nothing stays asserted |
| ErasureProvider.Delete | experiments/incident-erasure-pilot/erasure_pilot/provider.py:403-520 | every exit: an earlier claim found by either lookup or by the claim answers replay or conflict by its fingerprint; an attempt is reported exactly when it was due; a removal is confirmed if and only if it was observed, signed, held by the journal and the directory closed; and the offline checker accepts every result |
| ErasureProvider.UnlinkWhen | experiments/incident-erasure-pilot/erasure_pilot/provider.py:413-488 | an unlink is entered exactly at the end of one chain of times within the erasure task's interval and both keys', for an unclaimed request whose object was twice measured as bound and whose fresh row the journal acknowledged |
| ErasureProvider.HandedWhen | experiments/incident-erasure-pilot/erasure_pilot/provider.py:445-507 | which terminal state a call hands to its journal after its own claim, with which statements |
| ErasureProvider.RowCounts | experiments/incident-erasure-pilot/erasure_pilot/provider.py:242-261 | a journal row counts exactly when its own task was authorized at its request and its terminal state is that of a well-formed result |
| ErasureProvider.ConfirmationChecks | experiments/incident-erasure-pilot/erasure_pilot/adapter.py:182-250 | the checker accepts a confirmation exactly when its three statements are about this task and object, name the one location and the six exclusions, and bear one chain of times within the erasure task's interval, both keys' and the cutoff |
| ErasureProvider.OtherResultChecks | experiments/incident-erasure-pilot/erasure_pilot/adapter.py:182-250 | every other result is accepted exactly when it claims no removal and, unless the outcome is unknown, no attempt, and its acknowledgement is a timely one of this task |
| ErasureProvider.EnterUnlink | experiments/incident-erasure-pilot/erasure_pilot/provider.py:475-506 | past the unlink, confirmation is given only for an observed absence with a persisted result |
| ErasureRuns.ErasureJournal.Claim | experiments/incident-erasure-pilot/erasure_pilot/provider.py:279-310 | the claim transaction: a new intent, a replay or a conflict, or nothing at all |
| ErasureRuns.ClaimRowWhen | experiments/incident-erasure-pilot/erasure_pilot/provider.py:279-310 | a claim writes a row exactly for a request that has none; an earlier valid row comes back as it is, told to be this task's or another's |
| ErasureRuns.ErasureJournal.Finish | experiments/incident-erasure-pilot/erasure_pilot/provider.py:312-338 | the finish transaction ends an unfinished row once |
| ErasureRuns.FinishRowWhen | experiments/incident-erasure-pilot/erasure_pilot/provider.py:312-338 | a finish ends exactly a valid row without a result, with a well-formed terminal one, and changes no other row |
| ErasureRuns.JournalRepliesFit | experiments/incident-erasure-pilot/erasure_pilot/provider.py:279-382 | the claim reply that lets the procedure go on is exactly that of a request without a row, and an acknowledged finish is the row it compares with |
| ErasureRuns.StepKeeps | experiments/incident-erasure-pilot/erasure_pilot/provider.py:279-382 | claims, unlinks, finishes and crashes keep the journal's invariant |
| ErasureRuns.OneShot | experiments/incident-erasure-pilot/erasure_pilot/provider.py:403-520 | over every schedule: at most one unlink per request, after exactly its task's intent and before its one terminal result, which then stays and reports an attempt if and only if the unlink came before it |
| ErasureRuns.AtMostOneAttempt | experiments/incident-erasure-pilot/erasure_pilot/provider.py:403-520 | of two `delete` calls for one request over one journal history, at most one returns a result that reports an attempt |
| UploadGate.Collector.Accept | experiments/incident-collector-pilot/collector_pilot/collector.py:175-211 | an intent is saved once, the same one gets its saved receipt, another under either identifier is refused |
| UploadGate.AcceptedExactly | experiments/incident-collector-pilot/collector_pilot/collector.py:175-211 | a row is added exactly for an intent both of whose identifiers are new; a kept intent gets its own receipt again; anything else is refused |
| UploadGate.LookedUpExactly | experiments/incident-collector-pilot/collector_pilot/collector.py:214-236 | a status carries no receipt for a new intent, the saved one for a kept intent, and is refused otherwise |
| UploadGate.Collector.Lookup | experiments/incident-collector-pilot/collector_pilot/collector.py:214-236 | a status carries the saved receipt of exactly the queried intent |
| UploadGate.IssuedReceiptsAreDurable | experiments/incident-collector-pilot/collector_pilot/collector.py:154-236 | whatever receipt the collector hands out is in its committed row for that intent, for good |
| UploadGate.Execute | experiments/incident-collector-pilot/collector_pilot/gateway.py:357-525 | the send is attempted exactly when claim, verified receipt, fresh readback of that receipt, final permit and pins all held; a receipt is confirmed exactly when it then came back in order and the journal kept the outcome; every other state and journal state has its exact condition |
| UploadGate.SendWhen | experiments/incident-collector-pilot/collector_pilot/gateway.py:424-500 | a send is entered exactly when the journal has just stored this call's intent, the collector acknowledged it and read the same receipt back, the second verdict rests on the same permit, and all times form one chain within the key's validity |
| UploadGate.ReportedWhen | experiments/incident-collector-pilot/collector_pilot/gateway.py:235-525 | which state and journal state a call reports: an earlier claim answers by its target, and after a claim of its own the outcome stands only if the journal took it |
| UploadGate.AfterSend | experiments/incident-collector-pilot/collector_pilot/gateway.py:492-525 | after the send the outcome is confirmed if and only if the send was observed in order, the key was still valid, the receiver's receipt verified and the journal acknowledged; otherwise it is unknown |
| UploadGate.ReceiptBackWhen | experiments/incident-collector-pilot/collector_pilot/gateway.py:324-344 | a receipt counts exactly when it verified, the send was reported within the call and the gateway's key was still valid afterwards |
| UploadGate.Reconcile | experiments/incident-collector-pilot/collector_pilot/gateway.py:527-569 | reconciliation only reads: not found and unavailable follow the journal, not established exactly without a fresh genuine status, and a found record carries the receipt for the journal's own intent |
| UploadGate.StatusCountsWhen | experiments/incident-collector-pilot/collector_pilot/gateway.py:527-569 | a reconciliation relies exactly on a successful, genuine answer to its own query about the saved intent, in time |
| UploadGate.JournalRepliesFit | experiments/incident-upload-pilot/upload_pilot/journal.py:125-157 | a claim is acknowledged as new once, with the row that is then stored; later ones get that row and whether it is for the same target |
| UploadGate.FirstResultStays | experiments/incident-upload-pilot/upload_pilot/journal.py:159-190 | a result is written once, and no other row changes |
| UploadGate.AttemptTimesAreOrdered | experiments/incident-collector-pilot/collector_pilot/gateway.py:424-500 | before a send, admission, collection, query, check and final times are ordered and the key was valid |
| UploadGate.AtMostOneSend | experiments/incident-collector-pilot/collector_pilot/gateway.py:399-423 | of any number of calls for one request, at most one enters the send |
| UploadGate.SendIsBacked | experiments/incident-collector-pilot/collector_pilot/gateway.py:426-475 | behind a send stands a committed collector row with exactly this call's intent and receipt |
| UploadAuthorization.Authorize | experiments/incident-collector-pilot/collector_pilot/gateway.py:49-75 | a frame authorizes exactly when the assessor's verdict, health and binding are the expected ones and a permit under a collector-requiring policy stands; it is the latest decision, the one with the least id among several |
| UploadAuthorization.NoCheckReviews | experiments/incident-collector-pilot/collector_pilot/gateway.py:384-388 | at admission, before any check of the collector, a standing permit leads to REVIEW |
| UploadAuthorization.GoodCheckAllows | experiments/incident-collector-pilot/collector_pilot/gateway.py:476-489 | with the gateway's own good check, policies and decisions lead to ALLOW if and only if a permit stands at the final time |
| UploadAuthorization.ExecuteAssessed | experiments/incident-collector-pilot/collector_pilot/gateway.py:357-500 | an attempted send means that the assessor allowed at the final time, on the very permit named in the collected intent, which stood at admission too |
| PublicationEditor.PutFacts | experiments/incident-publication-pilot/publication_pilot/editor.py:159-161 | writing a block replaces its text in place or appends it, and touches no other block |
| PublicationEditor.ReplayMeaning | experiments/incident-publication-pilot/publication_pilot/editor.py:216-237 | a replay yields the written blocks in the order of their first writes, each with the text of its last writer |
| PublicationEditor.DraftContinues | experiments/incident-publication-pilot/publication_pilot/editor.py:158-175 | the operation that a write appends continues the chain, whose replay is the new state |
| PublicationEditor.Editor.SetBlock | experiments/incident-publication-pilot/publication_pilot/editor.py:147-176 | a write succeeds exactly within the limits and then appends one linked operation; otherwise nothing changes |
| PublicationRules.MayWriteWhen | experiments/incident-publication-pilot/publication_pilot/editor.py:147-176 | a block may be set exactly with a well-formed id and text, room for one more operation and for the block, a clock that has not gone back, and a draft that leaves room for the checkpoint |
| PublicationEditor.Editor.Snapshot | experiments/incident-publication-pilot/publication_pilot/editor.py:178-196 | every snapshot of an editor is one that the verifier accepts, and replays to the editor's ordered blocks |
| PublicationEditor.ClosingIsAccepted | experiments/incident-publication-pilot/publication_pilot/editor.py:178-196 | the snapshot of any consistent state is accepted |
| PublicationEditor.VerifySnapshot | experiments/incident-publication-pilot/publication_pilot/editor.py:199-261 | accepts exactly the snapshots that meet the declarative reading, with exactly the replayed view |
| PublicationRules.AcceptedWhen | experiments/incident-publication-pilot/publication_pilot/editor.py:199-261 | a snapshot is accepted exactly when its operations are a chain of at most 64 and its signed checkpoint names their number, their head, the document they replay to and no earlier time |
| PublicationRules.LinkWhen | experiments/incident-publication-pilot/publication_pilot/editor.py:216-237 | an operation continues a chain exactly when the collector signed it as the next one, from the digest of the document so far to the digest with its block set, within the limits |
| PublicationRules.ViewWhen | experiments/incident-publication-pilot/publication_pilot/editor.py:238-261 | the view is the replayed blocks, the AI activities of any operation, and an adoption for exactly the blocks last written by one |
| PublicationRules.IdentifierWhen | experiments/incident-publication-pilot/publication_pilot/protocol.py:30-33 | an identifier is 1 to 64 letters, digits, underscores and hyphens, starting with a letter or a digit |
| PublicationRules.DecimalReads | experiments/incident-publication-pilot/publication_pilot/editor.py:122-125 | the sequence number in a revision label reads back as itself |
| PublicationEditor.ReplayChain | experiments/incident-publication-pilot/publication_pilot/editor.py:218-237 | the replay loop succeeds exactly on a linked chain and ends with its document, last writers, activities and head |
| PublicationEditor.HeadCommitsToHistory | experiments/incident-publication-pilot/publication_pilot/editor.py:219-237 | accepted snapshots with one chain head have identical operation lists, or show a collision |
| PublicationEditor.VerifiedViewsRender | experiments/incident-publication-pilot/publication_pilot/editor.py:278-305 | every verified view passes the renderer's own check, with its labels, digests and sorted activities |

## Left out

- HTTP servers and clients, process start, command lines, demos and fixtures: only which messages are sent, lost or delivered is modelled.
- SQLite locking and durability, file permissions, and the races between measuring and unlinking a file: a transaction is atomic and a measurement is a parameter.
- SHA-256, Ed25519, canonical JSON, calendar parsing, Unicode normalisation and the shape validators: arbitrary functions, flags or datatypes.
- The wording of results, reasons and findings: verdicts, states and exact conditions are modelled, the sorted lists of reason strings are not (the lists themselves are, as whether they are empty).
- Several fields that a comparison treats alike are grouped into one value, such as the nine runtime fields of a payment operation; the separate reason per field is not modelled.
- PaymentSafety.EveryClaimIsProven: about a journal that is written through the gate only, as a claim made by a native adapter has no proof; which adapter writes is fixed for a run, as are the identities that the stores pin (context, provider, collector).
- PaymentStores.CollectorStore.Collect: the nonce of a readback is not modelled; a readback is bound to the package, the acknowledgement and the epoch.
- PaymentEvidence.VerifyBundle: the copy of the receipt's status in `reported_status` and the lists of evidence references are not modelled; reading a bundle is not modelled; what is read comes as a case with its authenticated records, and a bundle that cannot be read as nothing.
- InclusionVerifiers.Inclusion: siblings and root are digests already; the input errors for strings that are not 64 lower-case hexadecimal digits are not modelled.
- EvidencePack.VerifyPack: the per-event payload hash and signature are one flag, and the shapes of strings and timestamps are not modelled.
- TransferAssessment.Evaluate: the list of findings and the two fields that are always UNKNOWN are not modelled.
- BatchCompleteness.Reconcile: the other requirement rows of the same function, such as INT-001 and INT-005, and the shape errors of its inputs are not modelled.
- ScopeAccounting.Account: the authentication of the scope and its sidecars, receipt timing and the early exits before them enter as flags and as points already recorded.
- ErasureProvider.Delete: inode and namespace checks are one flag each; `validate_task` and the two observer statements of the offline checker are not modelled beyond the provider's result.
- UploadAuthorization.Authorize: the assessor's evidence-integrity verdict is not modelled, the records count as eligible; nor is the selection by the one finding, which the standing permit stands for.
- UploadGate.Execute: the contents of the final and postflight assessment frames are not modelled beyond the permit they rest on.
- PublicationEditor.VerifySnapshot: key identifiers are any strings; rendering to HTML and the disclosure text are not modelled.
- `incident_assessor/evidence.py` and `incident_assessor/erasure.py`, `wallet_evidence.py`, `publication.py`, `incident_response.py`, `cross_party.py` and `exports.py` are not part of this model.
