# Offline guarantee protocol: model and proofs

An owner locks collateral, goes offline, and pays merchants with signed credentials that each spend part of
what the previous one left. Credentials may fork: two of them may spend the same state twice. Merchants submit
what they hold, the program files it, and finalization divides the locked collateral among all distinct
payments. This project models the program that does so, the off-chain code that must agree with it, the
durable stores of the devices, the relayer that prepares submissions, and the QR transfer of credentials.

## How the model is built

**The program.** `Program.OfflineGuarantee` is a class holding the accounts as the program stores them
(`Accounts`): sessions, claims with their links, edges, fork records, profile, vault and token balance. Each
instruction is a method that changes those accounts step by step and returns `Ok` or its fault. A ghost field
holds an abstract world (`Protocol`): per session the terms, the map from credential hashes to payment states
filed so far, and the sets classified, scanned and settled. `Valid()` says that the accounts are exactly the view of that
world and that the world satisfies the invariant (`Invariants`). Every instruction is proved to succeed
exactly when its guard holds of the world, to move the world as specified, and to change nothing on error.
The properties of whole runs (`Runs`, `Payments`, `Forks`, `Confluence`, `Leaves`, `Liveness`, `Links`,
`Representatives`) are then about sequences of those steps, and where they speak of account fields they go
through the view. What the guards themselves are worth is said without them, in terms of what a run did
before: what must have come first (`Histories`, `Orderings`), when each instruction goes through
(`Admissions`), and what status, profile and records tell of the run (`Statuses`, `Profiles`, `Records`).

State hashes are a free datatype: the root of a session's terms, or a payment on a previous state. Credential
hashes and keys are natural numbers, in the order the program compares their bytes. Addresses are terms over
their seeds. The clock only moves forward. Amounts and counters are unbounded integers with every u32 and
u64 check written out.

**Off-chain.** `Credentials` creates and validates payments and bundles, and `Endorsements` spells out what
acceptance guarantees, fault by fault, and that the terms accepted are those the program creates; `OfflineLedger` builds the state
graph with a worklist loop, specified in `StateGraphs` and characterized in `GraphTheorems`;
`Reconciliation` and `Allocation` find conflicts and divide the cover. `Agreement` relates all of it to the
accounts after any run that submitted the same credentials (`Disagreement` shows where they part), `Submission`
shows that an accepted bundle can be submitted, and `Relayer` that the accounts the relayer names are the ones the program accepts.

**Stores.** `Storage.Device` performs one storage operation at a time on two areas. Each operation draws a
fate: it succeeds, it throws having been applied or not, or the process dies there, having applied it or not.
A ghost log records the snapshots whose committed pointer was written. `MerchantStorage` serializes updates on
top of it; a run of queued calls is described by the log before and after each call and what its caller was told.

**Transfer.** `Base64`, `Codec`, `Frames`, `Transport` and `Messages` follow a bundle, challenge or receipt through
fixed-width records, the text of its frames, scanning in any order, and back; `Wire` says which byte and letter is
where. The hash of a payload is any function to 32 bytes.

## Results that differ from what one would expect

- `begin_finalization` accepts a session that allocation has marked conflicted (lib.rs:621-627, 1318-1319), so
  finalization can begin again after it has completed. `Payments.CompleteForever`, `ReleasedOnce`, `PaidOnce` and
  `Liveness.StepsBounded` hold all the same.
- docs/protocol.md (lines 316 and 391) and docs/adr/0011-economic-state-edge-idempotency.md say the least credential hash
  represents an edge. On-chain it does (`Representatives.OneRepresentative`). `buildStateGraph` does not always keep it:
  `GraphTheorems.KeepsGreaterWrapper` gives an input and `LeastKeptIff` the exact condition on the credentials: for
  every payment after the first, its wrappers lie on one side of the least wrapper of the payment before it. So
  off-chain claims equal the on-chain ones exactly under that condition (`Agreement.SameClaimsIff`), and
  `Disagreement.ClaimsCanDiffer` is a whole run on which they differ. Payments, exposure and conflicts agree always.
- Before the first commit, storage operations that throw while the process carries on can make a later load
  corrupt (`Storage.FailuresCanDiverge`), and then for good (`DivergedRun`). Crashes alone never do, and after a
  commit neither does (`CrashRun`, `FailureRun`).
- `validateCertificateChain` accepts a certificate over the all-zero session identifier or device key, which
  `create_offline_session` refuses: `Endorsements.CertifiedCreatableIff`. All other accepted terms are creatable.
- A merchant snapshot whose pending challenge is the text `null` does not survive storage
  (`MerchantStorage.SnapshotRoundTrip`).
- Finalization can be held up by two lifetime counters, the profile's successful sessions (u32) and the
  vault's total settled (u64), and by nothing else (`Liveness.NeverStuck`). `Standstill.CountersRunOut` and
  `Exhaustion.SettlementsRunOut` are runs that reach one and the other.

## Model

| member | source | states |
|---|---|---|
| Program.OfflineGuarantee.SubmitClaim | programs/offline-guarantee/src/lib.rs:307-613 | Succeeds exactly for a signed legal payment of a session with a registered device authorization, at the right addresses and list position, and not while paused (in terms of what was submitted before: `Admissions.SubmitAdmitted`); the accounts afterwards are those of the session with the one credential filed, and untouched on error |
| Program.FileClaim | programs/offline-guarantee/src/lib.rs:394-584 | The account work of a submission: accepted exactly when the presented representative, parent and both neighbours are the right ones and the counters fit; claims, edge, fork and session afterwards are the ones recorded, and no status or link update is lost when the superseded representative is also a neighbour |
| Program.RecordWrapper | programs/offline-guarantee/src/lib.rs:394-446 | A known edge accepts only its current representative as witness; the lesser credential hash becomes or stays representative and the other claim is rejected |
| Program.RecordNewEdge | programs/offline-guarantee/src/lib.rs:447-571 | A new edge needs its true parent, room in the exposure and in the counters; it is written with its sums and its fork record, and confirms a fork when it is the second child |
| Program.RegisterForkChild | programs/offline-guarantee/src/lib.rs:1049-1143 | The first child creates the record, every later one is counted, and exactly the second one sets the fork flag, marks the session and disables the profile |
| ClaimList.InsertClaimInOrder | programs/offline-guarantee/src/lib.rs:1145-1241 | Accepts exactly the true predecessor and successor of the new hash among the listed ones, and leaves both links, head, tail and count of the enlarged sorted list |
| ClaimList.NeighboursBetween | programs/offline-guarantee/src/lib.rs:1196-1232 | Two presented accounts are the neighbours of a hash iff they link to each other and enclose it |
| ClaimList.SplicedLinked | programs/offline-guarantee/src/lib.rs:1145-1241 | Splicing a hash in keeps every link of a sorted doubly linked list right |
| Program.ValidateClaimPayload | programs/offline-guarantee/src/claims.rs:210-303 | Passes exactly when every field, domain, time, amount and state-hash condition holds |
| Program.ReachableParent | programs/offline-guarantee/src/lib.rs:1371-1415 | On a well-formed book the parent check passes exactly for the session at sequence one, or for the account of the filed parent edge whose remaining amount the payment continues |
| Program.OfflineGuarantee.SetPaused | programs/offline-guarantee/src/lib.rs:72-85 | Succeeds exactly for the admin, and for the emergency authority when it pauses |
| Program.OfflineGuarantee.DepositCollateral | programs/offline-guarantee/src/lib.rs:141-171 | Deposits an amount the owner has, or fails changing nothing |
| Program.OfflineGuarantee.CreateOfflineSession | programs/offline-guarantee/src/lib.rs:173-283 | Fails unless the owner has access, no open session and the unreserved collateral for an economical one; reserves the cap |
| Program.OfflineGuarantee.RegisterDeviceAuthorization | programs/offline-guarantee/src/lib.rs:285-305 | Succeeds exactly when the protocol is not paused, the material is non-zero and none was registered before; marks the session authorized |
| Program.OfflineGuarantee.BeginFinalization | programs/offline-guarantee/src/lib.rs:615-657 | Accepted past the deadline while claims are collected, paused or not (`Admissions.BeginAdmitted`), and for a second time after allocation; an empty session completes at once |
| Program.OfflineGuarantee.ClassifyEdge | programs/offline-guarantee/src/lib.rs:659-741 | Accepted exactly for an unclassified edge with its own fork record and its classified parent or the session; records the rounded-down share and the inherited conflict, and no arithmetic guard fails |
| Program.OfflineGuarantee.AllocateNextClaim | programs/offline-guarantee/src/lib.rs:743-871 | Accepted exactly for the claim at the cursor; grants a share with its unit of dust or passes a rejected wrapper, and the last claim completes allocation |
| Program.OfflineGuarantee.SettleClaim | programs/offline-guarantee/src/lib.rs:873-976 | Pays a claim once, what the allocation owes it, into a token account of the merchant it names and of no one else; that amount never exceeds reserve, deposits or balance |
| Program.OfflineGuarantee.CloseSession | programs/offline-guarantee/src/lib.rs:978-992 | Closes exactly when every positive allocation is settled |
| Program.OfflineGuarantee.WithdrawCollateral | programs/offline-guarantee/src/lib.rs:994-1046 | Withdraws only collateral that is not reserved |
| Program.CompleteAllocation | programs/offline-guarantee/src/lib.rs:1287-1340 | Its guards, and the final status: insolvent, conflicted or reconciling; the surplus of the cap leaves the reserve |
| Program.ScanClaim | programs/offline-guarantee/src/lib.rs:743-871 | On a reachable session the scan of the next claim succeeds: base total within coverage, allocation within the amount, no counter overflows |
| Program.Classify | programs/offline-guarantee/src/lib.rs:659-741 | Only the presented fork record and parent can refuse an unclassified edge; the ledger afterwards is the view of the session with one more edge classified |
| Program.PayClaim | programs/offline-guarantee/src/lib.rs:873-976 | Only the lifetime settlement counter can refuse an admissible payment; the three subtractions and the transfer always go through |
| Program.CloseSessionState | programs/offline-guarantee/src/lib.rs:1342-1369 | Counts a session as successful when it has neither fork nor shortfall, and frees the owner |
| Runs.RunKeeps | programs/offline-guarantee/src/lib.rs:141-1046 | Every run of instructions keeps the whole invariant of vault, profile and all sessions |
| Runs.SolventOverRuns | programs/offline-guarantee/src/lib.rs:141-1046 | After every run reserved <= deposited <= token balance, at most one session of the owner is open, and the reserve is its cap before allocation, what is allocated and unsettled after, and zero with none open |
| Runs.SettlementsAffordable | programs/offline-guarantee/src/lib.rs:905-960 | On every reachable world an admissible settlement never fails for lack of funds |
| Payments.CompleteForever | programs/offline-guarantee/src/lib.rs:615-657 | Once allocation is complete it stays so with the same claims, although finalization can be begun again |
| Payments.PaidOnce | programs/offline-guarantee/src/lib.rs:873-976 | No run pays a claim twice, and it pays exactly what the allocation owes |
| Payments.PaidInFull | programs/offline-guarantee/src/lib.rs:873-992 | By the time a session is closed each representative has received exactly its share and each duplicate nothing |
| Payments.ReleasedOnce | programs/offline-guarantee/src/lib.rs:1287-1340 | The surplus leaves the reserve exactly once over any run, however often finalization is begun again |
| Payments.CapUsedUp | programs/offline-guarantee/src/lib.rs:743-992 | From collecting to closed, payments equal min(exposure, cap), and payments plus released surplus equal the cap |
| Payments.TokensConserved | programs/offline-guarantee/src/lib.rs:141-1046 | The vault balance changes by what is sent in, withdrawn and paid, and by nothing else |
| Payments.BooksBalance | programs/offline-guarantee/src/lib.rs:141-1046 | Over any run the recorded deposit is deposits less withdrawals and payments, the recorded total of settlements is the payments, and the balance exceeds the deposit by exactly what was sent directly |
| Histories.SubmittedOnceAuthorized | programs/offline-guarantee/src/lib.rs:307-326 | In every run a submitted claim comes after the creation of its session and after a registration of non-zero device material for it; between a pause and the next resumption nothing is submitted, created, authorized, deposited or withdrawn |
| Histories.CreatedBefore | programs/offline-guarantee/src/lib.rs:173-283 | Every session of a run was created by it on terms in numbers: collateral of three limits or more, at most 10800 seconds to spend and 21600 more to claim, 32 payments deep, ended by the identity's expiry, for a device that is not the owner |
| Histories.SubmittedPayments | programs/offline-guarantee/src/claims.rs:210-303 | Every claim filed in a run is a signed payment of the session as created, continues the genesis state or a payment submitted before it with what that one left, and has a hash submitted once |
| Orderings.BegunAfterDeadline | programs/offline-guarantee/src/lib.rs:615-657 | Finalization begins only after the six hours of the claim period, and no claim of the session is filed afterwards |
| Orderings.ClassifiedInOrder | programs/offline-guarantee/src/lib.rs:659-741 | In every run an edge is classified once, after finalization began and after its parent, against the fork record its own credential names |
| Orderings.AllocatedInOrder | programs/offline-guarantee/src/lib.rs:743-871 | In every run a claim is allocated once, after every submitted claim was classified, and in strictly increasing order of hashes with none left out |
| Orderings.SettledInOrder | programs/offline-guarantee/src/lib.rs:873-976 | In every run a payment goes to the merchant of a submitted credential, the one with the least hash for its edge, once, and after every submitted claim was allocated |
| Orderings.ClosedInOrder | programs/offline-guarantee/src/lib.rs:978-992 | In every run a session is closed after every submitted claim was allocated, and nothing but a late device authorization is done to it afterwards |
| Profiles.ProfileTells | programs/offline-guarantee/src/lib.rs:1049-1369 | After every run access is enabled exactly while no session has a fork; at most one ever has, and the conflict count is the number of its branchings; the success count is the number of sessions closed unforked and covered; the active session is the open one |
| Profiles.RevokedWhen | programs/offline-guarantee/src/lib.rs:1075-1095 | Access is lost by one submission, and the profile keeps the time of that one |
| Statuses.StatusTells | programs/offline-guarantee/src/lib.rs:585-657 | The status at every point of every run, from its history: conflicted from the first fork, in the claim window from the first late claim, reconciling until all is allocated, then insolvent exactly when overdrawn and conflicted exactly when forked and begun once |
| Records.CredentialRecorded | programs/offline-guarantee/src/lib.rs:482-558 | Every submitted credential stays on record field by field in its claim and edge accounts |
| Records.AmountsRecorded | programs/offline-guarantee/src/lib.rs:873-976 | The session account counts the submissions and payments of the run, and each claim and edge account the payment made on it |
| Records.ClaimTells | programs/offline-guarantee/src/lib.rs:394-976 | Status and allocation of every claim account from the history: rejected under a smaller hash for its edge, submitted until allocated, then owed its share, paid once that is settled |
| Records.ConflictsCounted | programs/offline-guarantee/src/lib.rs:743-871 | The session account counts exactly the allocated claims of conflicting edges |
| Admissions.DepositAdmitted | programs/offline-guarantee/src/lib.rs:141-171 | After any run a deposit is refused only while paused, for an amount the depositor lacks, or for want of room in the balance |
| Admissions.WithdrawAdmitted | programs/offline-guarantee/src/lib.rs:994-1046 | After any run the owner can withdraw exactly what the open session does not hold, unless paused |
| Admissions.CreateAdmitted | programs/offline-guarantee/src/lib.rs:173-283 | After any run a session can be created if and only if not paused, every earlier one is closed and unforked, the terms are legal in numbers and within the identity's life, and the deposit covers them |
| Admissions.AuthorizeAdmitted | programs/offline-guarantee/src/lib.rs:285-305 | After any run a device can be authorized if and only if not paused and none was for that session |
| Admissions.SubmitAdmitted | programs/offline-guarantee/src/lib.rs:307-613 | After any run some accounts let a credential be filed if and only if it is a legal payment of an authorized session, its hash is new, its edge or its parent was submitted, and the counters have room |
| Admissions.BeginAdmitted | programs/offline-guarantee/src/lib.rs:615-627 | After any run finalization of an open session can begin if and only if its deadline has passed and it was not begun before, or ended conflicted; whatever the pause flag |
| Admissions.DeadlineOpensFinalization | programs/offline-guarantee/src/lib.rs:615-627 | Every open session past its deadline whose finalization has not begun can begin it, paused or not |
| Links.OneList | programs/offline-guarantee/src/lib.rs:1145-1241 | On every reachable session, walking forward from the head and backward from the tail both visit all claims, strictly increasing in hash, as many as the submitted count |
| Representatives.OneRepresentative | programs/offline-guarantee/src/lib.rs:394-584 | On every reachable session each edge has exactly one non-rejected claim, its least wrapper; the wrapper count is the number of its claims; the exposure is the sum over distinct edges |
| Forks.ForkConfirmed | programs/offline-guarantee/src/lib.rs:1049-1143 | The fork flag holds iff two distinct edges share parent and sequence, and every branch count is the number of such children |
| Forks.ForkLocksOut | programs/offline-guarantee/src/lib.rs:181-189 | From a fork on, in every later world access is disabled and no session is created |
| Confluence.SameCredentialsSameBook | programs/offline-guarantee/src/lib.rs:307-613 | Runs that submit the same credentials file the same book |
| Confluence.SubmissionOrderIrrelevant | programs/offline-guarantee/src/lib.rs:307-613 | Runs that submit the same credentials in different orders end with the same claims, links, edges, representatives, exposure and branch counts at the same stage of finalization, and agree on the fork mark |
| Confluence.SamePaidAmounts | programs/offline-guarantee/src/lib.rs:743-976 | Such runs pay every credential hash the same amount by the time the session is closed |
| Leaves.LeafBudget | programs/offline-guarantee/src/lib.rs:1371-1415 | Over a tree of legal payments, exposure plus what the leaves leave unspent is at most the limit for each leaf |
| Leaves.ExposureWithinLeaves | programs/offline-guarantee/src/claims.rs:258-267 | Unique exposure is at most the branch limit times the number of leaves |
| Leaves.UnforkedIsCovered | programs/offline-guarantee/src/math.rs:7-29 | On every reachable session without a fork exposure is within one limit, three limits within the cap, and every claim is owed its whole amount |
| Leaves.InsolvencyNeedsFork | programs/offline-guarantee/src/lib.rs:1311-1319 | A reachable insolvent session has a fork and at least four leaves |
| Liveness.NeverStuck | programs/offline-guarantee/src/lib.rs:615-992 | A reachable frozen session that is not closed can take a finalization step, paused or not, if and only if the two lifetime counters have room |
| Standstill.CountersRunOut | programs/offline-guarantee/src/lib.rs:1342-1369 | A run from the start, closing empty sessions one after another, after which a frozen session can take no step: the count of successes is full |
| Exhaustion.SettlementsRunOut | programs/offline-guarantee/src/lib.rs:873-976 | A run from the start after which a frozen session owes a payment that nothing can settle: the total settled from collateral is full |
| Liveness.WorkDecreases | programs/offline-guarantee/src/lib.rs:615-992 | Every finalization step leaves strictly less work |
| Liveness.StepsBounded | programs/offline-guarantee/src/lib.rs:615-992 | No run, however interleaved and however often finalization is begun again, takes more finalization steps than there was work |
| Liveness.ReachesClosed | programs/offline-guarantee/src/lib.rs:615-992 | With room in the counters finalization steps alone bring a frozen session to Closed |
| Admissions.DeadlineReachesClosed | programs/offline-guarantee/src/lib.rs:615-992 | Every open session past its deadline reaches Closed by at most one begin_finalization and then finalization steps, given room in the counters; the pause flag plays no part |
| ProRata.CheckedBaseAllocation | programs/offline-guarantee/src/math.rs:81-96 | Defined exactly when the exposure is positive, covers the amount and the share fits in u64 |
| ProRata.RemainderBounds | programs/offline-guarantee/src/math.rs:81-96 | Base shares total at most the coverage, and the dust is less than the number of claims |
| ProRata.PayoutBounds | programs/offline-guarantee/src/math.rs:77-96 | No payout exceeds its claim; each is within one unit of the exact share |
| ProRata.PrefixPayout | programs/offline-guarantee/src/lib.rs:743-842 | Paying the least hashes first distributes their base shares and one unit of dust each up to the remainder |
| ProRata.PayoutsTotal | programs/offline-guarantee/src/math.rs:77-96 | Together the payouts are exactly min(exposure, cap) |
| Credentials.ValidateCertificateChain | packages/credentials/src/index.ts:104-118 | Accepts exactly certificates the owner and the trusted issuer endorse, with sensible terms; `Endorsements` says what that is: both signatures, one set of terms, and terms the program creates sessions with |
| Endorsements.AcceptedChain | packages/credentials/src/index.ts:104-118 | What an accepted chain is, in numbers: both signatures, the trusted issuer, an owner that is not the device, one set of terms on both sides |
| Endorsements.SpoiledAuthorization | packages/credentials/src/index.ts:104-116 | From an accepted chain, spoiling the owner's signature or any one term or domain field of the authorization makes it refused, with the code of that fault |
| Endorsements.SpoiledCertificate | packages/credentials/src/index.ts:104-118 | The same for the issuer's signature, the issuer, and every term and domain field of the certificate |
| Endorsements.OneAuthorization | packages/credentials/src/index.ts:111-116 | A certificate is good for one authorization only |
| Endorsements.CertifiedCreatable | programs/offline-guarantee/src/lib.rs:173-283 | The terms of an accepted certificate with non-zero session and device are terms some run of the program creates a session with |
| Endorsements.CertifiedCreatableIff | programs/offline-guarantee/src/lib.rs:173-283 | The terms of an accepted certificate are those of a session the program can have if and only if its session identifier and device key are not zero |
| Endorsements.CreatedCertifies | packages/credentials/src/index.ts:104-118 | Conversely, for every session a run creates, a certificate over its terms is accepted |
| Credentials.ValidatePaymentCredential | packages/credentials/src/index.ts:160-177 | Accepts exactly the payments bound to a trusted certificate that spend part of what the parent leaves, and returns the state they lead to |
| Credentials.CreatedValidates | packages/credentials/src/index.ts:135-177 | A step to WalletBundleAccepted: what createPaymentCredential returns validates against the same parent |
| Credentials.ValidIsCreatable | packages/credentials/src/index.ts:135-177 | The converse step: every payment that validates is the one that would have been created |
| Endorsements.SpoiledPayment | packages/credentials/src/index.ts:160-177 | From a valid payment, spoiling the signature or any one field makes it refused, with the code of that fault |
| Endorsements.SpoiledCreation | packages/credentials/src/index.ts:135-158 | From a creation that succeeds, spoiling any one thing makes it refused, with the code of that fault |
| Credentials.ChainFacts | packages/credentials/src/index.ts:179-191 | Every initial part of a chain is a chain; amounts spent plus the remaining amount are constant; sequence counts payments |
| Credentials.ValidateCredentialProofBundle | packages/credentials/src/index.ts:179-191 | Accepts exactly a valid certificate over its own genesis state with a chain of at most maxDepth payments; both signatures are then verified and the device key is not the owner |
| Credentials.BundleFacts | packages/credentials/src/index.ts:179-191 | Accepted bundles are closed under dropping last payments and never spend more than the limit |
| Endorsements.BundleSpelledOut | packages/credentials/src/index.ts:179-191 | Every payment of an accepted bundle, term by term: signed by the authorized device, continuing the payment before it, with what the limit leaves after all before it |
| Credentials.WalletBundleAccepted | packages/credentials/src/index.ts:135-191 | A bundle built by successive creations is accepted |
| Credentials.ValidateMerchantResponse | packages/transports/src/index.ts:71-100 | A merchant accepts exactly the valid bundles whose last payment answers its challenge: signed, to it, at its device, for its amount, in its environment, under two verified signatures; and learns the state they end in |
| Credentials.AnswerAccepted | packages/credentials/src/index.ts:135-191 | Answering a challenge on top of an accepted bundle gives a bundle that is accepted again and answers it |
| Credentials.PayloadAgrees | programs/offline-guarantee/src/claims.rs:210-303 | A step to Submission.BundleSubmits: before the deadline, off-chain validation of a payment and the payload check of the program agree |
| Submission.ChainSubmits | programs/offline-guarantee/src/lib.rs:307-613 | Submitting a chain in order, some of it perhaps filed already, succeeds at every step |
| Submission.BundleSubmits | programs/offline-guarantee/src/lib.rs:307-613 | Submitting an accepted bundle in order to an open authorized session with the certificate's terms files every payment: no payload, parent or list check fails |
| OfflineLedger.BuildStateGraph | packages/offline-ledger/src/index.ts:238-327 | Fails exactly for an invalid certificate or genesis commitment, and otherwise terminates with the specified graph, both signatures verified; whom its edges pay is `GraphTheorems.EdgesCommit` |
| OfflineLedger.RunPass | packages/offline-ledger/src/index.ts:273-299 | One pass of the worklist, and it progresses exactly when fewer credentials are deferred than it was given |
| OfflineLedger.CollectDistinct | packages/offline-ledger/src/index.ts:243-266 | The distinct credentials, the repeats and the unhashable ones |
| StateGraphs.GraphIsReachable | packages/offline-ledger/src/index.ts:238-327 | The nodes are the genesis state and exactly the states reachable from it by valid transitions; the accepted wrapper of each is the one a direct description names |
| GraphTheorems.EachAccountedOnce | packages/offline-ledger/src/index.ts:238-327 | Every distinct credential is exactly one of: an edge, a duplicate of the kept wrapper, a rejection with its first error, or an orphan |
| GraphTheorems.NoCollision | packages/offline-ledger/src/index.ts:286-289 | STATE_HASH_COLLISION is never reported |
| GraphTheorems.InputOrderIrrelevant | packages/offline-ledger/src/index.ts:238-327 | Nodes, edges, duplicates and rejections are the same for every order of arrival |
| GraphTheorems.GraphIsTree | packages/offline-ledger/src/index.ts:166-195 | The nodes form a tree in which sequence is depth and the remaining amount is the limit less the amounts on the path |
| GraphTheorems.EdgesCommit | packages/offline-ledger/src/index.ts:166-195 | Every accepted edge names the parent, sequence, merchant and amount its child state commits to, and the hash of a received credential for that payment |
| GraphTheorems.EdgesListed | packages/offline-ledger/src/index.ts:271-300 | The edge list holds the accepted edges, one for each state |
| GraphTheorems.NodesHold | packages/offline-ledger/src/index.ts:186-195 | Every node holds its depth and the limit less what its path spends |
| GraphTheorems.RepeatsListed | packages/offline-ledger/src/index.ts:243-266 | All but one of the copies of a credential are listed as duplicates, and every unreadable one with its error |
| GraphTheorems.KeepsLeastIff | packages/offline-ledger/src/index.ts:271-300 | The kept wrapper is the least one if and only if the payment leaves genesis, or no wrapper follows the one kept for its parent, or all do |
| GraphTheorems.LeastKeptIff | packages/offline-ledger/src/index.ts:271-300 | The least wrapper is kept of every payment if and only if the credentials are aligned: for every later payment, no wrapper comes after the least wrapper of the payment before it, or all do |
| GraphTheorems.KeepsGreaterWrapper | packages/offline-ledger/src/index.ts:238-300 | An input buildStateGraph takes on which the kept wrapper is not the least |
| Reconciliation.DetectForks | packages/offline-ledger/src/index.ts:205-232 | Reports exactly the parents with two or more distinct children at one sequence, each with all its children and their credential hashes |
| Reconciliation.ConflictingChildHashes | packages/reconciliation/src/index.ts:182-201 | The loop ends with exactly the edges that have a sibling or descend from one that has, in whatever order the edges come |
| Reconciliation.FixedPoint | packages/reconciliation/src/index.ts:182-201 | A set closed under children that holds every forked edge holds every tainted one |
| Allocation.CheckClaims | packages/reconciliation/src/index.ts:118-132 | Accepts exactly positive u64 amounts with distinct hashes and a u64 total |
| Allocation.AllocateDeterministicCoverage | packages/reconciliation/src/index.ts:112-180 | Accepts exactly well-formed input, none of its three internal throws happens, and each claim is paid by the allocation rule of the program |
| Allocation.PermutationIrrelevant | packages/reconciliation/src/index.ts:112-180 | Permuting the claims changes nothing in the result |
| Allocation.SharesAreFair | packages/reconciliation/src/index.ts:133-180 | Every payout is within its claim and one unit of the exact share; dust is less than the number of claims |
| Agreement.ForksNameKept | packages/offline-ledger/src/index.ts:205-232 | The credential hash a fork point names for a child is that of the wrapper the graph kept |
| Agreement.RunSound | programs/offline-guarantee/src/lib.rs:307-613 | Every credential a run submits for a session is a sound transition off-chain |
| Agreement.SamePayments | packages/offline-ledger/src/index.ts:238-327 | Over the credentials a run submitted, graph nodes below genesis are the session's edges, exposures are equal and nothing submitted is rejected |
| Agreement.SameConflicts | programs/offline-guarantee/src/lib.rs:659-741 | Whatever the order of classification, a classified edge is conflicting on-chain iff it is in the off-chain fixed point |
| Agreement.SameClaimsIff | packages/reconciliation/src/index.ts:223-246 | The claims reconciled off-chain are the session's economic claims if and only if the credentials are aligned, a condition on the input |
| Agreement.SamePayouts | packages/reconciliation/src/index.ts:112-180 | On aligned credentials every line of the mirror names the merchant and amount of its claim account and pays the amount allocated on-chain, and insolvency agrees |
| Disagreement.ClaimsCanDiffer | packages/offline-ledger/src/index.ts:271-300 | A run from the start over an accepted certificate after which the off-chain claims are not the ones the program pays |
| Relayer.ListCheckExact | apps/claim-relayer/src/claim-relayer.ts:148-172 | On authentic accounts the list check passes exactly when the listing, sorted, is the whole authoritative list in order |
| Relayer.PlanIsRight | apps/claim-relayer/src/claim-relayer.ts:201-308 | Whatever request is planned is for a session of the owner and signed by its device, and the plan names the predecessor, successor, representative and parent, for any credential; one that continues nothing filed is never planned |
| Relayer.PlanIsTheOnlyOne | apps/claim-relayer/src/claim-relayer.ts:257-282 | Whenever any accounts make the submission succeed, the request for it passes every check of plan, which names those accounts, and its own choice succeeds |
| Relayer.PlannedMeans | apps/claim-relayer/src/claim-relayer.ts:201-255 | A planned request is for this environment and cluster, names the accounts derived from its own credential, and that is a signed payment of this program for a session of the owner and device |
| Relayer.SpoiledRequest | apps/claim-relayer/src/claim-relayer.ts:201-250 | From a planned request, spoiling any one part makes it refused, with the code of that fault |
| Storage.Device.LoadEmpty | packages/mobile-storage/src/index.ts:195-231 | Without a committed pointer load rolls back what was prepared, and is corrupt only when manifest and journal diverge |
| Storage.Device.LoadCommitted | packages/mobile-storage/src/index.ts:232-289 | Behind a pointer load returns the last committed snapshot, all of one generation, or throws reading it |
| Storage.Device.Load | packages/mobile-storage/src/index.ts:195-289 | Never changes a committed pointer or a component file; what it returns is the last snapshot whose pointer was written |
| Storage.Device.Commit | packages/mobile-storage/src/index.ts:293-348 | However it ends, the durable snapshot is the old one or all of the new one, and the components of the old generation are still in place; a generation reported saved is the one committed, among the candidates and not the previous one |
| Storage.Device.Write | packages/mobile-storage/src/index.ts:324-345 | The writes in order, the pointer last: until then the old snapshot is intact |
| Storage.Device.Recover | packages/mobile-storage/src/index.ts:258-289 | Leftovers of the committed generation are finished, others rolled back; clean is reported exactly when there was nothing, and success leaves nothing |
| Storage.Device.Choose | packages/mobile-storage/src/index.ts:302-310 | The new generation differs from the current one |
| Storage.CrashRun | packages/mobile-storage/src/index.ts:195-348 | Over every sequence of loads and commits, dying between any two operations, no load is corrupt, each returns exactly the last snapshot whose pointer was written, and no more calls go unanswered than the process dies |
| Storage.FailureRun | packages/mobile-storage/src/index.ts:195-348 | Once a commit exists the same holds when operations throw and the process carries on, a load being corrupt only if reading threw |
| Storage.LoadTwice | packages/mobile-storage/src/index.ts:195-289 | A second load after a clean one returns the same snapshot and leaves the disk as it was |
| Storage.FailuresCanDiverge | packages/mobile-storage/src/index.ts:219-228 | Before the first commit a failed journal removal and a failed journal write do lead to a corrupt load |
| Storage.DivergingRun | packages/mobile-storage/src/index.ts:219-228 | Every step of that failing run, on values |
| Storage.DivergedRun | packages/mobile-storage/src/index.ts:219-228 | Divergence is permanent: no call changes anything again, every commit fails and no load returns a snapshot or an empty store |
| MerchantStorage.SnapshotRoundTrip | apps/merchant-mobile/src/merchant-crash-storage.ts:56-77 | A step to the store contracts: a snapshot survives storage iff its challenge is not the text null; stored components always survive decoding |
| Wire.StoredUnder | apps/merchant-mobile/src/merchant-crash-storage.ts:56-63 | Under which names the parts of a snapshot are stored |
| MerchantStorage.Merchant.RawLoad | apps/merchant-mobile/src/merchant-crash-storage.ts:65-91 | Returns what is durable, or migrates the legacy snapshot, or finds nothing; refuses only bad legacy state |
| MerchantStorage.Merchant.Initialize | apps/merchant-mobile/src/merchant-crash-storage.ts:95-101 | Creates a snapshot only when there is none |
| MerchantStorage.Merchant.Update | apps/merchant-mobile/src/merchant-crash-storage.ts:102-108 | Writes all of the mutated snapshot or none of it; an answer means it is durable; with crashes only, it fails by dying or because it had to |
| MerchantStorage.QueueRun | apps/merchant-mobile/src/merchant-crash-storage.ts:48-109 | Over any queue of calls with failures and crashes each call takes full effect or none and is answered accordingly, what is durable is the fold of the written mutations from the first entry, and with crashes only no more calls are lost than the process dies |
| MerchantStorage.DurableIsFold | apps/merchant-mobile/src/merchant-crash-storage.ts:48-109 | The logs of such a queue: nothing written is lost, and the last entry is the fold in queue order of the mutations written |
| MerchantStorage.AnswersAreFolds | apps/merchant-mobile/src/merchant-crash-storage.ts:95-108 | What a caller is told is the fold of the mutations written so far, its own the last |
| MerchantStorage.AppKeepsTogether | apps/merchant-mobile/App.tsx:150-186 | What each mutation of the app takes at the snapshot it is applied to, exactly: a new challenge must not be answered by the claims stored then, receiving a claim takes nothing, changing claims must not answer the pending challenge |
| MerchantStorage.AppKeepsAll | apps/merchant-mobile/App.tsx:150-278 | A queue of the app's mutations, each judged at the snapshot it is applied to, keeps claims and challenges together |
| MerchantStorage.MovesSet | apps/merchant-mobile/App.tsx:150-278 | What each mutation of the app sets and what it leaves |
| MerchantStorage.NeverSeparated | apps/merchant-mobile/src/merchant-crash-storage.ts:48-109 | Over such a queue, with any failures and crashes, no snapshot that was ever durable or loaded holds a claim while the challenge it answers is still pending |
| MerchantStorage.ClearedMeansStored | apps/merchant-mobile/App.tsx:150-278 | Over a queue of the app's calls with any failures and crashes, between durable snapshots that follow one another no challenge is cleared without a stored claim that answers it, a new challenge leaves the claims alone, and the secret stays |
| MerchantStorage.FirstSnapshot | apps/merchant-mobile/src/merchant-crash-storage.ts:78-101 | The first snapshot a store ever holds is the legacy one part by part, or the empty one initialize was given a secret for |
| Base64.Base64UrlEncode | packages/transports/src/index.ts:134-147 | Packs three bytes at a time into the specified sextets |
| Base64.Base64UrlDecode | packages/transports/src/index.ts:149-172 | Succeeds exactly on canonical texts, and the result is the one byte sequence that encodes to the input |
| Base64.EncodedCanonical | packages/transports/src/index.ts:134-172 | Every encoding is canonical and decodes to what it encodes |
| Base64.CanonicalEncoded | packages/transports/src/index.ts:134-172 | Every canonical text is the encoding of what it decodes to, the one- and two-byte tails included |
| Base64.EncodingInjective | packages/transports/src/index.ts:134-147 | Two byte sequences never share an encoding |
| Wire.LettersCarryBits | packages/transports/src/index.ts:134-147 | Each three bytes and the four letters they become are one 24-bit number; tails are padded with zero bits |
| Codec.DecodeEncode | packages/canonical-codec/src/index.ts:211-215 | Decoding a record gives back the encoded values, for every fixed-width schema |
| Codec.EncodeDecode | packages/canonical-codec/src/index.ts:303-309 | Every byte sequence of the schema's width is the encoding of what it decodes to |
| Wire.FieldAt | packages/canonical-codec/src/index.ts:211-215 | In every record each field lies whole at the sum of the widths before it |
| Wire.LittleEndianAt | packages/canonical-codec/src/index.ts:211-215 | Byte i of an integer is its digit i in base 256 |
| Codec.StrictDecode | packages/canonical-codec/src/index.ts:303-309 | Succeeds exactly on the right length; encoding again never differs |
| Codec.DecodeRecord | packages/canonical-codec/src/index.ts:303-327 | The record decoders succeed exactly on encodings of records whose domain passes the assertions, and return the record encoded |
| Codec.Widths | packages/canonical-codec/src/index.ts:158-170 | The field widths add up to the declared lengths of the three records |
| Wire.HeaderBytes | packages/canonical-codec/src/index.ts:37-46 | The 110 bytes every signed record starts with |
| Wire.CredentialParties | programs/offline-guarantee/src/claims.rs:13-53 | Where the parties of a payment lie on the wire: the device key at byte 178, where the signature check of the program reads it |
| Wire.CredentialTransition | programs/offline-guarantee/src/claims.rs:13-53 | Where its transition lies, and that the signature follows the 410 bytes of payload |
| Wire.AuthorizationBytes | packages/canonical-codec/src/index.ts:50-62 | Where every field of a device authorization lies |
| Wire.CertificateTerms | packages/canonical-codec/src/index.ts:64-84 | Where the terms of a session certificate lie |
| Wire.CertificateProof | packages/canonical-codec/src/index.ts:64-84 | Where its times, hashes, issuer and signature lie |
| Wire.StatesDetermined | programs/offline-guarantee/src/claims.rs:55-91 | The bytes a state hash is taken of determine the state, genesis and payment states never share them; so states are as free as their fields |
| Codec.BundleLength | packages/canonical-codec/src/index.ts:272-287 | The length of an encoded bundle, always within the transfer limit |
| Codec.DecodeBundle | packages/transports/src/index.ts:250-269 | Succeeds exactly on encodings of bundles that fit, and returns the bundle encoded |
| Codec.BundlesInjective | packages/canonical-codec/src/index.ts:278-287 | Two bundles never share an encoding |
| Frames.ParseFrame | packages/transports/src/index.ts:288-305 | Accepts exactly the texts of legal frames, and reads the frame written: fields, canonical numerals, lower-case hash, canonical chunk |
| Frames.WrittenInjective | packages/transports/src/index.ts:321-332 | Two legal frames never share a text |
| Frames.SplitBack | packages/transports/src/index.ts:288-290 | Splitting at dots gives back the fields joined |
| Frames.NumeralBack | packages/transports/src/index.ts:295-297 | A canonical numeral is the one of its value |
| Frames.BytesBack | packages/transports/src/index.ts:121-130 | A lower-case hexadecimal text is the one of its bytes |
| Wire.HexAt | packages/transports/src/index.ts:117-119 | Two lower-case hexadecimal digits for each byte, the greater first |
| Wire.SecretsAreBytes | apps/merchant-mobile/src/merchant-crash-storage.ts:3-27 | The secrets the merchant store accepts are exactly the lower-case hexadecimal texts of 32 bytes |
| Wire.FrameText | packages/transports/src/index.ts:321-332 | The text of a frame, field by field |
| Transport.FramePayload | packages/transports/src/index.ts:321-332 | Succeeds exactly on a non-empty payload within the limits, with the text of one frame for each slice |
| Transport.FramableIs | packages/transports/src/index.ts:321-332 | A payload can be framed exactly when it is not empty, at most 64 KiB and at most 128 chunks |
| Transport.Assemble | packages/transports/src/index.ts:334-361 | The loop gathers, joins and checks as specified, with every error case |
| Transport.AssembleFramed | packages/transports/src/index.ts:321-361 | Frames of one payload, in any order and with any repeats, assemble to it if every index is among them and are reported incomplete otherwise |
| Transport.AssembledMatches | packages/transports/src/index.ts:334-361 | Whatever frames are assembled, all declare one kind, count and digest, every index was scanned, and the bytes match the digest |
| Transport.NextFrameFaults | packages/transports/src/index.ts:334-352 | The first frame that does not go with those before it ends the transfer with the code of its fault |
| Transport.BundleFrames | packages/transports/src/index.ts:250-332 | Which legal bundles fit in 128 frames, and that all do at the default chunk size |
| Transport.ReceiveCredential | packages/transports/src/index.ts:311-361 | A bundle sent and scanned in any order is received unchanged, or reported incomplete |
| Messages.ChallengeBack | packages/transports/src/index.ts:200-247 | Decoding accepts exactly the encodings of legal challenges, and gives the challenge back |
| Messages.DecodedChallenge | packages/transports/src/index.ts:226-247 | What is decoded has 170 bytes, version one, a known network, a positive 64-bit amount and a challenge that is not all zero |
| Wire.ChallengeBytes | packages/transports/src/index.ts:200-224 | Where every field of a challenge lies |
| Messages.ReceiptBack | packages/transports/src/index.ts:271-286 | The same for receipts |
| Wire.ReceiptBytes | packages/transports/src/index.ts:271-286 | Where the parts of a receipt lie |
| Messages.ReceiveChallenge | packages/transports/src/index.ts:311-361 | A challenge always fits in frames and is received unchanged, or reported incomplete |

## Left out

- SHA-256 and Ed25519: hashes are free terms or given numbers, and `signed` and `verified` flags say that a signature checks; the instructions-sysvar parser is part of that flag.
- Accounts, rent, PDA bumps, token-program calls and events: account updates and balance changes are atomic, and initialize_protocol, create_user_profile and create_vault only set the initial world.
- Several owners: the world is the vault, profile and sessions of one owner; instructions of other owners touch none of them.
- `resolution_hash`, `stateGraphCommitment`, submission slots, timestamps of records and bumps: no economic effect.
- `applyPayment`, `detectAuthenticatedFork`, identity attestations and decideSessionAccess: single checks over functions that are modelled.
- Order of the lists a state graph returns: nodes and edges are sets and maps, duplicates and rejections multisets, fork points a set with a map of branches; the final sorts are not modelled, and malformed credentials are a multiset because their diagnostic key omits domain fields.
- Relayer.PlanIsRight: the JSON and hexadecimal syntax of a request, the in-flight map, RPC retries, HTTP and rate limits are not modelled; the node's answers are arbitrary authentic accounts.
- Storage.Device.Load: manifests, journals and components are datatypes; JSON, regular expressions and component digests are not modelled, a damaged record being one that cannot be read.
- MerchantStorage.Merchant.RawLoad: the legacy snapshot is a constant of the device with a challenge other than the text null, and the promise queue is the sequence of calls.
- Frames.ParseFrame: which of its checks refused a text is not told apart, and numerals are unbounded where the source reads a double, which makes no difference below 128.
- Codec.DecodeBundle: the fields of a decoded record keep their order in a list of values; naming them is not modelled.
- React Native screens, cameras, key stores, provisioning, claim history and synchronization: input and output.
