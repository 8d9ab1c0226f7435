# Harness control plane: a verified model

The control plane compiles approved tenant demands into profiles, reviews, locks and distributes them,
and shows the status of what is installed. This project models the parts of it that keep state and the
two codecs, and proves what they are for. Check it with `dafny verify dfyconfig.toml`.

The six parts, each in its own group of modules:

- **The compilation queue** (`Queue*`): a lease-fenced job queue with retries and dead letters, a
  transactional outbox and a deduplicating inbox. Each call is a total function on the contents of the
  store that returns or raises; `QueueCommits` proves that each makes one commit or none, and everything
  else is proved of runs of commits. `QueueStore` has the store and the worker as classes that are
  updated in place, and proves their methods equal to those functions.
- **Canonical JSON** (`Json*`): the reader that refuses repeated keys, against a grammar of trees that
  is written without the reader, and the canonical printer. `JsonReader` is the reader with its offset.
- **The audit chain** (`AuditChain`): the hash chain per tenant, with its verifier and its append.
- **Demand approval** (`Demand*`): create, validate, request approval and decide, with entity tags and
  idempotent replay, over the audit chain. `DemandStore` is the store as a class.
- **Harness status** (`Status*`): derivation and validation of snapshots, ordered ingest, reading with a
  clock and outages, and the paged portfolio. `StatusStore` is the store as a class.
- **The ustar reader** (`Ustar*`): the bounded archive reader and the writer of its fixtures, down to
  octal fields and UTF-8. `UstarReader` is the loop with its offset.
- **Profiles and operations** (`Profile*`): approval and lock of a profile, the bundle of a lock, and the
  operation of a bundle, in two stores of which one calls the other. `ProfileStore` has both as classes.

Conventions. Random identifiers and lease tokens are parameters of the calls that draw them; a run is
feasible if every call draws identifiers that were not drawn before. Clocks are integers and parameters.
A digest is the value it was taken of, so it is injective by construction; only the audit chain takes its
digest function as a parameter, about which nothing is assumed, and there equal heads are proved to mean
equal histories or a collision between records of the two chains. Identifiers are numbers where the
program only compares their fixed-width hexadecimal text. The answers of a compiler, a policy hook or a
source resolver are parameters, arbitrary unless a result says otherwise.

Where the obvious stronger claim is false of the program, the project has the input that shows it and the
exact condition:

- a job can be attempted more than three times (`QueueEdges.AttemptsAreUnbounded`,
  `QueueResults.FourthAttemptExactly`);
- the outbox can be delivered in an order that the inbox refuses (`QueueDrain.OrderCanFail`,
  `QueueDrain.DrainsExactlyWhenDeliverable`);
- a succeeded operation can refer to outputs that are not stored (`QueueEdges.ReferenceCanDiffer`,
  `QueueResults.ReferenceAgreesExactly`);
- an admitted snapshot may be unreadable (`StatusRefinement.PlaneBindingsAreNotChecked`,
  `StatusRefinement.MaterializesExactly`, `StatusRefinement.AdmittedReadsExactly`);
- a validated digest survives the expiry of its approval (`DemandRuns.ExpiredFromStart`,
  `DemandHistory.BlockedKeepsDigestExactly`);
- a pending profile can get stuck (`ProfileRuns.StuckIsReachable`, `ProfileLocking.LockableExactly`), and a
  decision can raise and yet write (`ProfileLocking.RaisesAndWritesExactly`);
- a worker that drives a bundle operation can break its pairing for good
  (`ProfileRuns.BreakingIsReachable`, `ProfileWorkers.WorkerKeepsExactly`, `ProfileWorkers.BrokenForEver`);
- one unreadable snapshot refuses the whole portfolio (`StatusRuns.OneUnreadableRefusesAll`,
  `StatusPages.PortfolioRefusedExactly`);
- a delivery can raise and yet write (`QueueDrain.DeliveryRaisesAndWrites`,
  `QueueResults.RaisingWritesExactly`);
- a safe path that begins with a byte order mark is lost by the archive reader
  (`UstarRoundTrip.MarkedPathIsLost`, `UstarRoundTrip.RoundTripExactly`). The reader's text decoder drops
  the mark; nothing in the repository mentions this.

## Model

| member | source | states |
|---|---|---|
| QueueInvariant.Lockstep | workers/profile-compiler/profile_compiler/domain.py:204-343 | After any run from the empty store: QUEUED pairs with PENDING at version 1, LEASED and RETRY_WAIT with RUNNING at version 2, SUCCEEDED with SUCCEEDED and DEAD_LETTERED with FAILED at version 3; RETRY_WAIT means attempt 1 or 2; and the operation has emitted exactly one event for each sequence 2 to its version |
| QueueInvariant.RunKeepsInvariant | workers/profile-compiler/profile_compiler/domain.py:143-443 | The invariant behind all results about the queue holds after any interleaving of calls with any arguments, where events enter the inbox by delivery |
| QueueCommits.EveryStepIsOneCommit | workers/profile-compiler/profile_compiler/domain.py:161-164 | Every call of a run, whatever it is given, either makes exactly one of seven commits or changes at most the failpoint that stopped it; nothing is half written |
| QueueOrder.ExactlyOnceInOrder | workers/profile-compiler/profile_compiler/domain.py:373-443 | Over any run after which each operation's events are published in the order of their sequence (by time, then identifier), with crashes after delivery and failpoints anywhere, and calls that change no operation at any time: no event is accepted twice, none would be refused, accepted events of an operation are a prefix of those emitted, and a drained outbox is the inbox |
| QueueOrder.EndingLaterPublishesInOrder | workers/profile-compiler/profile_compiler/domain.py:404-416 | After any run in which each call that ends an operation does so later than the operation's previous transition, every operation's events are published in the order of their sequence |
| QueueOrder.RefusedExactly | workers/profile-compiler/profile_compiler/domain.py:418-443 | The inbox refuses an emitted event if and only if it was not accepted yet and a later event of its operation was |
| QueueDelivery.RunKeepsLedger | workers/profile-compiler/profile_compiler/domain.py:404-443 | After any run whose events enter the inbox by delivery: the inbox holds only emitted events, each under its own key, receipts are only of accepted events, last sequences are the greatest accepted, and the audit log counts acceptances |
| QueueDrain.DrainsExactlyWhenDeliverable | workers/profile-compiler/profile_compiler/domain.py:404-416 | In every reachable store without armed failpoints, repeated delivery ends with every event accepted and receipted if and only if no pending event is published before an earlier one of its operation |
| QueueDrain.OrderCanFail | workers/profile-compiler/profile_compiler/domain.py:406-409 | Three calls at one instant after which delivery ends in a refusal: ties of the publication time are broken by a random id |
| QueueLeases.FencedForever | workers/profile-compiler/profile_compiler/domain.py:204-257 | Once a token is not the job's live lease, then after any further calls in time order nobody holds the job under it, and every call that uses it leaves the whole store unchanged |
| QueueLeases.LeasesDoNotOverlap | workers/profile-compiler/profile_compiler/domain.py:345-355 | Two leases of one job never alternate: once the second has been live the first is never live again |
| QueueLeases.HandedOverAfterExpiry | workers/profile-compiler/profile_compiler/domain.py:205-219 | A lease is replaced by one with another token only at or after its expiry |
| QueueService.BackoffIsKept | workers/profile-compiler/profile_compiler/domain.py:243-257 | A job put off after its first attempt is left exactly as it is for 5 seconds, after its second for 30, whatever is called in time order meanwhile, and can be claimed from then on |
| QueueService.ClaimServesFirst | workers/profile-compiler/profile_compiler/domain.py:204-219 | When a job is claimable a claim takes one, none has been available for longer than the one it takes, and the worker then passes the lease check under its token for exactly the length of the lease |
| QueueService.TwoRetriesPerJob | workers/profile-compiler/profile_compiler/domain.py:243-257 | Over any run a job is put off at most twice, and only a retry puts one off |
| QueueProgress.PassNeverRaises | workers/profile-compiler/profile_compiler/domain.py:453-489 | With well-formed compiler reason codes and no failpoint, a worker pass on a reachable store never raises; it is idle exactly when no job is claimable, and then changes nothing; otherwise it ends in one of the three other outcomes and lowers the potential |
| QueueProgress.CompletedPassSpends | workers/profile-compiler/profile_compiler/domain.py:453-489 | Failpoints or not, a completed pass that found a job lowers the sum of the potentials |
| QueueProgress.PassIsItsCalls | workers/profile-compiler/profile_compiler/domain.py:453-489 | A worker pass leaves what the sequence of its store calls leaves, so that all results about runs of calls cover passes |
| QueueProgress.ThreePassesPerJob | workers/profile-compiler/profile_compiler/domain.py:26-27 | Whatever the compiler answers and however many claimed workers crash, at most three passes per created job complete without being idle |
| QueueLiveness.EveryJobEnds | workers/profile-compiler/profile_compiler/domain.py:453-489 | From every reachable state without armed failpoints there is an instant such that any passes of any workers, whatever the compilers answer, leave every job of an organization succeeded or dead-lettered, if those for it start no earlier, are 31 seconds apart and number three for each of its unfinished jobs; passes for other organizations may come in between |
| QueueLiveness.JobsCanEnd | workers/profile-compiler/profile_compiler/domain.py:453-489 | Such passes exist from every such state |
| QueueProgress.CommitKeepsTotal | workers/profile-compiler/profile_compiler/domain.py:166-202 | The sum of the potentials is raised only by creating a job, and then by three |
| QueueResults.RowsAreAlwaysFound | workers/profile-compiler/profile_compiler/domain.py:221-231 | In a reachable store no call fails to find an operation or a profile revision it looks up, and no leased job finds its operation ended |
| QueueResults.RevisionsAreForever | workers/profile-compiler/profile_compiler/domain.py:306-337 | Revisions and bindings are write-once: over any run, what was stored under a key or a binding stays as it is |
| QueueResults.TerminalStaysForever | workers/profile-compiler/profile_compiler/domain.py:259-343 | A job that has succeeded or been dead-lettered is never changed again |
| QueueResults.SuccessIsReplayed | workers/profile-compiler/profile_compiler/domain.py:301-303 | The result key of a succeeded job names a stored revision with the job's binding for good, and succeeding again with any token, time and outputs returns that revision and changes nothing |
| QueueResults.ReferenceAgreesExactly | workers/profile-compiler/profile_compiler/domain.py:310-328 | After a success, the operation refers to the stored revision if and only if the binding was new or the new outputs agree with what is stored |
| QueueEdges.ReferenceCanDiffer | workers/profile-compiler/profile_compiler/domain.py:310-328 | For any two documents whose bytes differ, a run after which a succeeded operation refers to a digest that is not that of the stored revision |
| QueueResults.FourthAttemptExactly | workers/profile-compiler/profile_compiler/domain.py:204-219 | A claim takes a job past its third attempt if and only if it takes over an expired lease of a third or later attempt |
| QueueEdges.AttemptsAreUnbounded | workers/profile-compiler/profile_compiler/domain.py:204-219 | For every n there is a run of claims a minute apart, with leases of a minute, after which a job has been attempted n times |
| QueueResults.RaisingWritesExactly | workers/profile-compiler/profile_compiler/domain.py:404-443 | A call raises and yet has written if and only if it is a delivery whose next event passes every check of the inbox (source, partition, new identifier, sequence, no failpoint) and which a crash or a failpoint stops before the receipt; every other call that raises has changed nothing but a failpoint it tripped |
| QueueDrain.DeliveryRaisesAndWrites | workers/profile-compiler/profile_compiler/domain.py:404-416 | Two calls and a delivery that crashes: it raises, the inbox has the event and the outbox no receipt; delivering again adds the receipt and leaves the inbox as it is |
| QueueResults.DirectAcceptKeepsInvariant | workers/profile-compiler/profile_compiler/domain.py:418-443 | Handing any event directly to the inbox changes only the inbox, its sequences and the audit, and keeps the invariant of jobs and operations |
| QueueStore.CompilationStore.Create | workers/profile-compiler/profile_compiler/domain.py:166-202 | The method in place does what the model's call does: result, refusal and whole new contents |
| QueueStore.CompilationStore.SelectJob | workers/profile-compiler/profile_compiler/domain.py:205-214 | The loop over the jobs finds the claimable job that comes first by availability, creation and id, or none exactly when none is claimable |
| QueueStore.CompilationStore.Claim | workers/profile-compiler/profile_compiler/domain.py:204-234 | The method does what the model's claim does, on the whole contents |
| QueueStore.CompilationStore.Fenced | workers/profile-compiler/profile_compiler/domain.py:345-355 | The lease check answers as the model's, and changes nothing |
| QueueStore.CompilationStore.Extend | workers/profile-compiler/profile_compiler/domain.py:236-241 | The method does what the model's extension does, on the whole contents |
| QueueStore.CompilationStore.Retry | workers/profile-compiler/profile_compiler/domain.py:243-257 | The method does what the model's retry does, also when it gives up |
| QueueStore.CompilationStore.Fail | workers/profile-compiler/profile_compiler/domain.py:259-290 | The method does what the model's failure does, on the whole contents |
| QueueStore.CompilationStore.Succeed | workers/profile-compiler/profile_compiler/domain.py:292-343 | The method does what the model's success does, for a new and for a known binding |
| QueueStore.CompilationStore.AcceptEvent | workers/profile-compiler/profile_compiler/domain.py:418-443 | The method does what the model's inbox does, in every refusal, for a new and for a repeated event |
| QueueStore.CompilationStore.SelectEvent | workers/profile-compiler/profile_compiler/domain.py:405-409 | The loop over the outbox finds the pending event that comes first by time and id, or none exactly when all have receipts |
| QueueStore.CompilationStore.DeliverNext | workers/profile-compiler/profile_compiler/domain.py:404-416 | The method delivers to the inbox and records the receipt as the model does, also when it crashes in between |
| QueueStore.CompilerWorker.RunOnce | workers/profile-compiler/profile_compiler/domain.py:453-489 | The worker's pass does what the model's pass does, on the whole contents |
| JsonSoundness.ParseIsTheGrammar | apps/control-web/src/lib/foundation/canonical.ts:10-122 | The reader returns v if and only if the text is within the limit, is a JSON text by a grammar written independently of the reader (sections 2 to 7 of RFC 8259, with the wider white space of the source), means v, and v has no repeated decoded key and no infinite number |
| JsonSoundness.MeaningIsUnique | apps/control-web/src/lib/foundation/canonical.ts:10-122 | An admissible text has one meaning |
| JsonCompleteness.WellFormedTextsAreRead | apps/control-web/src/lib/foundation/canonical.ts:10-122 | Every text of the grammar is accepted with its value, or refused for a repeated key or an infinite number and for nothing else |
| JsonSoundness.AcceptedTextsAreWellFormed | apps/control-web/src/lib/foundation/canonical.ts:15-20 | Whatever is accepted is a text of the grammar with an admissible value |
| JsonReader.JsonReader.Value | apps/control-web/src/lib/foundation/canonical.ts:26-36 | The recursive method on the offset reads what the functional reader reads and leaves the offset where it ends, or refuses alike |
| JsonReader.JsonReader.ReadString | apps/control-web/src/lib/foundation/canonical.ts:44-65 | The scan for the closing quote and the decoding of escapes agree with the functional reader |
| JsonReader.JsonReader.ReadNumber | apps/control-web/src/lib/foundation/canonical.ts:67-74 | The number token and its value agree with the functional reader |
| JsonReader.JsonReader.ReadArray | apps/control-web/src/lib/foundation/canonical.ts:76-91 | The loop over the items agrees with the functional reader |
| JsonReader.JsonReader.ReadObject | apps/control-web/src/lib/foundation/canonical.ts:93-116 | The loop over the members, with its set of known keys, agrees with the functional reader, also in refusing a repeated key |
| JsonReader.ParseJsonNoDuplicates | apps/control-web/src/lib/foundation/canonical.ts:119-122 | The entry point returns exactly what the functional reader returns, or refuses a text over the byte limit |
| JsonPrinter.PrintedIsRead | apps/control-web/src/lib/foundation/canonical.ts:138-140 | The reader undoes the printer: for null, booleans, integers, strings, arrays and distinct-key objects the printed text is read as the same value, or refused for its size only |
| JsonCanonical.NormalizedIsSame | apps/control-web/src/lib/foundation/canonical.ts:124-136 | Normalising changes nothing but the order of members, and leaves every object's members strictly ascending |
| JsonCanonical.SameNormalForm | apps/control-web/src/lib/foundation/canonical.ts:124-136 | Two values have one normal form if and only if they differ in nothing but the order of members |
| JsonCanonical.CanonicalRoundTrip | apps/control-web/src/lib/foundation/canonical.ts:138-140 | Reading a canonical text gives the value back up to the order of members |
| JsonCanonical.CanonicalIsAFixedPoint | apps/control-web/src/lib/foundation/canonical.ts:138-140 | Printing canonically what was read from a canonical text gives that text again |
| JsonCanonical.CanonicalIsInjectiveUpToOrder | apps/control-web/src/lib/foundation/canonical.ts:138-140 | Two values have one canonical text if and only if they differ in nothing but the order of members |
| AuditChain.VerifyAuditChain | apps/control-web/src/lib/security/audit-chain.ts:54-74 | The verifier's loop finds the first record that does not link: the verified length, the head digest there, and validity if and only if the whole is a chain |
| AuditChain.VerifiedPrefixIsLongest | apps/control-web/src/lib/security/audit-chain.ts:54-74 | A prefix of the records is a chain if and only if it is no longer than the verified length |
| AuditChain.HeadCommitsToHistory | apps/control-web/src/lib/security/audit-chain.ts:54-74 | Two chains valid for one organization with one head digest are equal record by record, or two different records of theirs have one digest, or a record of one of them has the digest of the empty text |
| AuditChain.AppendKeepsChain | apps/control-web/src/lib/security/audit-chain.ts:79-110 | A batch without fault always extends a chain to a chain, so the check after appending never fails |
| AuditChain.FaultlessExactly | apps/control-web/src/lib/security/audit-chain.ts:91-97 | A batch is without fault if and only if all facts are the tenant's and their event ids are new and distinct |
| AuditChain.SealBatch | apps/control-web/src/lib/security/audit-chain.ts:84-104 | The loop that numbers, links and digests a batch agrees with its recursive definition, and stops at the first fault with that fault |
| AuditChain.TenantAuditChain.Append | apps/control-web/src/lib/security/audit-chain.ts:79-110 | Appending adds the sealed batch to its tenant's chain and to no other, or refuses and changes nothing; chains stay valid |
| DemandQuorum.QuorumSafety | apps/control-web/src/lib/demands/service.ts:754-852 | After any run, an approved demand rests on an approved approval with exactly the required number of approving decisions and no rejection, by distinct eligible reviewers other than the requester, bound to the digest of the demand's unchanged resource |
| DemandQuorum.PendingPairsAndCanFinish | apps/control-web/src/lib/demands/service.ts:678-852 | After any run, a pending approval is awaited by exactly one demand, and the eligible reviewers who have not decided are at least as many as the missing decisions |
| DemandQuorum.QuorumIsReachable | apps/control-web/src/lib/demands/service.ts:754-852 | From every reachable state, an unexpired pending approval is approved by exactly the missing number of votes, and its demand with it |
| DemandQuorum.ValidationPassesExactly | apps/control-web/src/lib/demands/service.ts:581-676 | Validation succeeds if and only if the source resolves to the referenced, ready and unexpired one of the organization with the same attestation and no prerequisite is rejected |
| DemandInvariant.PolicyAdmittedExactly | apps/control-web/src/lib/demands/service.ts:409-432 | A policy is admitted if and only if it is offered, unexpired, requires between one decision and as many as its at most 32 distinct reviewers, and neither lists the requester nor lets them review |
| DemandQuorum.ExpiryKeepsValidatedDigest | apps/control-web/src/lib/demands/service.ts:785-817 | A decision after expiry blocks the demand, which keeps the digest that had been validated |
| DemandRuns.ApprovedFromStart | apps/control-web/src/lib/demands/service.ts:754-852 | From the empty store, for every input with accepted prerequisites and every admissible policy: three calls and as many votes as the policy requires approve the demand |
| DemandRuns.ExpiredFromStart | apps/control-web/src/lib/demands/service.ts:785-817 | From the empty store, for the same inputs and policies and every late decision of an eligible reviewer: three calls and that decision leave the demand blocked with its validated digest |
| DemandHistory.BlockedKeepsDigestExactly | apps/control-web/src/lib/demands/service.ts:785-817 | A blocked demand carries a validated digest if and only if the last event about it is the expiry of its approval |
| DemandAudit.RunKeepsInvariant | apps/control-web/src/lib/demands/service.ts:449-852 | After any run rows are lawful, the audit log tells every row, and every identifier in use was drawn |
| DemandHistory.AuditTellsEveryRow | apps/control-web/src/lib/demands/service.ts:318-327 | After any run, the audit events about a row are as many as its revision, the last carries the digest of the row as it is, each step is one of the transition table or a renewed blocking, and there are no events about anything else |
| DemandAudit.AuditNeverRefuses | apps/control-web/src/lib/demands/service.ts:486-493 | With fresh event ids the audit chain never refuses: a call that passes its checks fails only by the injected failure, and otherwise commits |
| DemandInvariant.EveryCallIsOneCommit | apps/control-web/src/lib/demands/service.ts:526-852 | A call either commits the one change it proposes or leaves every row, finding, event and remembered response as it was |
| DemandHistory.RaisingChangesNothing | apps/control-web/src/lib/demands/service.ts:486-493 | A call that raises leaves rows, findings, audit and remembered responses untouched |
| DemandHistory.OneCommitPerTag | apps/control-web/src/lib/demands/service.ts:516-524 | For one row and one If-Match value at most one call ever commits |
| DemandHistory.SupersededDemandTagIsRefused | apps/control-web/src/lib/demands/service.ts:516-519 | Once a demand has changed, its former tag is refused for ever |
| DemandHistory.SupersededApprovalTagIsRefused | apps/control-web/src/lib/demands/service.ts:521-524 | Once an approval has changed, its former tag is refused for ever |
| DemandHistory.AnswersAreForEver | apps/control-web/src/lib/demands/service.ts:468-484 | Repeating an answered key and fingerprint returns the stored response for ever and changes nothing; the key with another fingerprint is always refused |
| DemandHistory.TerminalRowsNeverChange | apps/control-web/src/lib/demands/service.ts:37-48 | Approved and rejected demands, and approvals that are not pending, stay exactly as they are |
| DemandHistory.RunGrows | apps/control-web/src/lib/demands/service.ts:449-852 | Over any run no row, event, finding or response is lost, and a row changes only with its revision |
| DemandStore.DemandApprovalStore.CommitAudit | apps/control-web/src/lib/demands/service.ts:486-493 | The audit takes a batch or refuses it; the chain stays valid and holds exactly the tenant's events |
| DemandStore.DemandApprovalStore.CreateDemand | apps/control-web/src/lib/demands/service.ts:526-574 | The method does what the model's call does: response, refusal and whole new contents |
| DemandStore.DemandApprovalStore.CollectProblems | apps/control-web/src/lib/demands/service.ts:594-641 | The findings collected one by one are those of the model |
| DemandStore.DemandApprovalStore.ValidateDemand | apps/control-web/src/lib/demands/service.ts:581-676 | The method does what the model's validation does, on the whole contents |
| DemandStore.DemandApprovalStore.RequestDemandApproval | apps/control-web/src/lib/demands/service.ts:678-747 | The method does what the model's request does, on the whole contents |
| DemandStore.DemandApprovalStore.DecideApproval | apps/control-web/src/lib/demands/service.ts:754-852 | The method does what the model's decision does, for a vote, a settlement and an expiry |
| StatusOrder.StatusNeverImprovesByWaiting | apps/control-web/src/lib/harness-status/projection-store.ts:256-304 | A snapshot that can be read can be read at every later time and with more sources out; each harness is then as it was or blocked where it was ready or degraded, and no plane nor the overview has a better rank |
| StatusOrder.WorstAggregateIsWorst | apps/control-web/src/lib/harness-status/aggregation.ts:104-106 | Sorting by rank and taking the first gives the maximum rank of the list, EMPTY for none |
| StatusOrder.WorstPlaneIsWorst | apps/control-web/src/lib/harness-status/projection-store.ts:291-295 | So does the running maximum over the planes |
| StatusMeaning.PassingNeverHurtsReaders | apps/control-web/src/lib/harness-status/projection-store.ts:256-304 | Whatever snapshot is read, at any time and with any outages: if one axis of one harness passed instead, it could be read as well, and no harness, no plane and not the overview would rank worse |
| StatusRefinement.MaterializesExactly | apps/control-web/src/lib/harness-status/projection-store.ts:256-304 | Any snapshot, at any time and with any outages, can be read if and only if it has no binding, or the bindings of its overview, harnesses and planes are all valid and none was projected later |
| StatusRefinement.AdmittedReadsExactly | apps/control-web/src/lib/harness-status/projection-store.ts:256-304 | From its admission on, with any outages, an admitted snapshot can be read if and only if the bindings of its planes are valid and none was projected later |
| StatusRefinement.ReadingRefinesValidation | apps/control-web/src/lib/harness-status/projection-store.ts:256-304 | At the instant of admission with no outage, a snapshot can be read if and only if every plane's own binding derives a freshness, and then shows the harnesses as submitted and each plane its validated aggregate under its own freshness |
| StatusRefinement.SharedBindingIsReproduced | apps/control-web/src/lib/harness-status/aggregation.ts:127-164 | With one shared binding and no outage, reading at the instant of admission reproduces the validated aggregate of every harness, plane and the overview |
| StatusRefinement.OverviewDominates | apps/control-web/src/lib/harness-status/aggregation.ts:104-125 | Whenever an admitted snapshot is read, the overview ranks at least as high as every plane and every harness, and a plane as high as its harnesses |
| StatusSample.SomethingIsAdmitted | apps/control-web/src/lib/harness-status/aggregation.ts:127-164 | For every organization and instant some snapshot is admitted whose parts share one binding |
| StatusRefinement.PlaneIgnoresOrder | apps/control-web/src/lib/harness-status/aggregation.ts:108-125 | A plane's aggregate does not depend on the order of its harnesses |
| StatusRefinement.PlaneBindingsAreNotChecked | apps/control-web/src/lib/harness-status/projection-store.ts:145 | Every admitted snapshot has an equally admitted twin with another plane binding that can never be read, whatever the time and the outages |
| StatusPages.PortfolioIsPartitioned | apps/control-web/src/lib/harness-status/projection-store.ts:202-230 | After any run, at any time at which every stored snapshot can be read, for any filter and limit: the pages got by following the next cursor are all full but the last, and joined they are one sorted listing with exactly one record, as it is read then, of each organization that the filter lets through |
| StatusPages.PortfolioRefusedExactly | apps/control-web/src/lib/harness-status/projection-store.ts:202-204 | With a limit in range the portfolio is refused if and only if some stored snapshot holds a binding that is invalid or was projected later, and then on every page |
| StatusRuns.OneUnreadableRefusesAll | apps/control-web/src/lib/harness-status/projection-store.ts:202-204 | For any two organizations and any instant: after one summary the portfolio has a first page from then on; after a second, admitted for the other organization, it is refused for every query, cursor and time, although the first organization can still be read |
| StatusIngest.IngestAccounting | apps/control-web/src/lib/harness-status/projection-store.ts:123-173 | After any run each source's sequence counts its applied summaries, whose cursors strictly ascend; all sequences add up to the recorded event ids; binding fields never change; every stored snapshot was admitted and names its own organization |
| StatusIngest.AppliedOnlyOnce | apps/control-web/src/lib/harness-status/projection-store.ts:123-173 | A summary that was applied at some step of a run is never applied again after it: submitted by anybody at any time it is taken for a repetition if it passes the checks and refused otherwise, and the store stays as it is |
| StatusIngest.OutagesOnlyWorsen | apps/control-web/src/lib/harness-status/projection-store.ts:175-180 | Marking a source unavailable and waiting keep an organization readable and lower no rank |
| StatusIngest.EveryReadIsDominated | apps/control-web/src/lib/harness-status/projection-store.ts:256-304 | After any run, whatever can be read has an overview that dominates its planes and harnesses |
| StatusStore.ProjectionStore.TakeSummary | apps/control-web/src/lib/harness-status/projection-store.ts:123-173 | The method does what the model's ingest does: applied, replayed or refused, on the whole contents |
| StatusStore.ProjectionStore.MarkSourceUnavailable | apps/control-web/src/lib/harness-status/projection-store.ts:175-180 | The method does what the model's marking does, on the whole contents |
| UstarRoundTrip.RoundTripExactly | apps/control-web/src/lib/questionnaire/archive.ts:53-106 | An archive of 1 to 256 distinct safe paths of at most 100 bytes with UTF-8 contents within the limits is read back as exactly those files if and only if no path begins with a byte order mark |
| UstarRoundTrip.MarkedPathIsLost | apps/control-web/src/lib/questionnaire/archive.ts:12-21 | A safe path that begins with a byte order mark is read back as another path |
| UstarRoundTrip.FieldsNeverOverflow | tests/questionnaire/fixture.ts:59-81 | The octal checksum never overflows its six digits, nor a size within the limit its eleven |
| UstarRoundTrip.HeaderIsAnnounced | tests/questionnaire/fixture.ts:59-81 | A written header is not all zeros, has the right checksum, and announces its path without a leading mark and its size |
| UstarRoundTrip.EntryIsRead | apps/control-web/src/lib/questionnaire/archive.ts:66-99 | Reading a written entry in front of any rest adds its content under its path, or refuses it for a repeated or unsafe path or for being one file too many |
| UstarRoundTrip.ReadFilesAreBounded | apps/control-web/src/lib/questionnaire/archive.ts:35-47 | On every input, what is read is 1 to 256 files under safe paths, each valid UTF-8 of at most 2 MiB |
| UstarReader.ReadBoundedTar | apps/control-web/src/lib/questionnaire/archive.ts:53-106 | The loop with its offset returns on every input exactly what the functional reader returns; the offset stays block-aligned and within bounds, and the loop ends |
| UstarText.DecodeEncode | apps/control-web/src/lib/questionnaire/archive.ts:12-21 | Decoding UTF-8 undoes encoding for every sequence of scalar values |
| UstarText.OctalFieldRoundTrip | apps/control-web/src/lib/questionnaire/archive.ts:23-29 | A zero-padded octal field followed by NUL is read as its number |
| ProfileResults.LockRestsOnQuorum | apps/control-web/src/lib/profiles/service.ts:566-628 | After any run, whatever workers do to operations, a locked profile has a lock over its review digest and an approved approval of it, with an exact quorum of distinct eligible reviewers other than the requester |
| ProfileResults.OneBundlePerLock | apps/control-web/src/lib/profiles/service.ts:645-647 | After any run, whatever workers do, a lock has at most one bundle |
| ProfileResults.BundlesAndOperationsAgree | apps/control-web/src/lib/profiles/service.ts:630-756 | After any run in which only this store drives bundle operations, a requested bundle pairs with its pending operation at revision 1, a signed one with its succeeded operation at revision 3 carrying its one release, and every bundle operation is some bundle's |
| ProfileResults.InboxAddsUp | apps/control-web/src/lib/profiles/service.ts:700-756 | After any run, whatever workers do, the inbox holds as many events as there are signed bundles and as the source sequences add up to, and each event tells what its bundle says |
| ProfileResults.ReportTakenExactly | apps/control-web/src/lib/profiles/service.ts:700-756 | In any reachable state, also one with a broken pairing, a report is taken if and only if an allowed source speaks for itself and in time, the report is new, next in sequence, about a requested bundle whose operation is still pending and with a release of what was reviewed, and neither audit fails; the remaining checks of the profile never fail |
| ProfileResults.ReportTakenWhenPaired | apps/control-web/src/lib/profiles/service.ts:700-756 | As long as only this store drives bundle operations, the same without asking for the operation, which is then always still pending |
| ProfileWorkers.WorkerKeepsExactly | apps/control-web/src/lib/operations/service.ts:360-398 | As long as bundles and operations are in step, a worker transition keeps them so if and only if it is not one of a pending bundle operation to RUNNING or CANCELLED, with a well-formed reason and without results or failure, that the audit takes |
| ProfileWorkers.BrokenForEver | apps/control-web/src/lib/operations/service.ts:326-332 | Once a transition has broken a pairing, then after any further calls, of workers too, the bundle is requested as it was, out of step, and no report of it is taken |
| ProfileRuns.BreakingIsReachable | apps/control-web/src/lib/operations/service.ts:360-398 | A run of five calls from empty stores to a requested bundle whose operation a worker may set running or cancel, which breaks the pairing |
| ProfileLocking.LockableExactly | apps/control-web/src/lib/profiles/service.ts:495-628 | In any reachable state, whatever workers have done, a profile in APPROVAL_PENDING can still be locked by calls in clock order, and can leave that state at all, if and only if its approval is pending or approved and has not expired |
| ProfileLocking.LockIsReachable | apps/control-web/src/lib/profiles/service.ts:425-628 | From every reachable state, whatever workers have done, such a profile is locked by the missing votes and a lock, also past an injected audit failure |
| ProfileExpiry.StuckForEver | apps/control-web/src/lib/profiles/service.ts:519-528 | Otherwise the profile stays exactly as it is for ever, whatever is called in clock order, by workers too; at most its approval is written off as expired |
| ProfileLocking.RaisesAndWritesExactly | apps/control-web/src/lib/profiles/service.ts:519-528 | A decision raises and yet writes a row if and only if it is a new request with the tag of a pending approval, at or after its expiry, that the audit takes; then the profile is stuck |
| ProfileRuns.StuckIsReachable | apps/control-web/src/lib/profiles/service.ts:519-528 | Runs from empty stores in which a profile gets stuck: nobody votes in time, somebody votes too late, nobody locks in time |
| ProfileBundles.RunKeepsInvariant | apps/control-web/src/lib/profiles/service.ts:333-756 | The invariant that adds the pairing of bundles and operations holds after any run in which only this store drives bundle operations |
| ProfileBundles.RunKeepsSound | apps/control-web/src/lib/profiles/service.ts:333-756 | The invariant on profiles, approvals, locks, bundles and the inbox holds after any run of the calls of both stores, whatever workers do to operations |
| ProfileStore.OperationStore.Create | apps/control-web/src/lib/operations/service.ts:284-324 | The method does what the model's call does: row, refusal and whole new contents |
| ProfileStore.OperationStore.CompleteBundle | apps/control-web/src/lib/operations/service.ts:326-358 | A pending bundle operation runs and succeeds in one step with two events; anything else is refused and changes nothing |
| ProfileStore.OperationStore.ApplyWorkerTransition | apps/control-web/src/lib/operations/service.ts:360-398 | The method does what the model's transition does, in every refusal |
| ProfileStore.ProfileLifecycleStore.Register | apps/control-web/src/lib/profiles/service.ts:353-397 | The method does what the model's registration does, in every refusal |
| ProfileStore.ProfileLifecycleStore.RequestApproval | apps/control-web/src/lib/profiles/service.ts:425-485 | The method does what the model's request does, on the contents of both stores |
| ProfileStore.ProfileLifecycleStore.Decide | apps/control-web/src/lib/profiles/service.ts:495-564 | The method does what the model's decision does, for a vote, a settlement and an expiry |
| ProfileStore.ProfileLifecycleStore.LockProfile | apps/control-web/src/lib/profiles/service.ts:566-628 | The method does what the model's lock does, on the contents of both stores |
| ProfileStore.ProfileLifecycleStore.RequestBundle | apps/control-web/src/lib/profiles/service.ts:630-690 | The method does what the model's bundle request does, on the contents of both stores, in every refusal of either |
| ProfileStore.ProfileLifecycleStore.ReportSignedBundle | apps/control-web/src/lib/profiles/service.ts:700-756 | The method does what the model's report does, on the contents of both stores, in every refusal of either |

## Left out

- JsonPrinter.PrintedIsRead: numbers are the integers a double holds exactly; printing of other doubles by the shortest-digits rule is not part of this model.
- JsonSoundness.ParseIsTheGrammar: a number is the real that its digits spell; rounding to a double is not modelled, except that what would round to infinity is refused.
- JsonReader.JsonReader.ReadNumber: the value is the real that the digits spell, not the nearest double.
- JsonCanonical.NormalizedIsSame: members are ordered by an arbitrary strict total order on keys; ties of the host's locale comparison, the key `__proto__` and integer-like keys are not modelled.
- `closedObject` and `sha256` of the canonical module: the first is a chain of key checks, the second a library call.
- QueueCommits.EveryStepIsOneCommit: a direct call of `accept_event` with an event of the caller's choice is not among the calls of a run; `QueueResults.DirectAcceptKeepsInvariant` says what it leaves alone.
- QueueInvariant.RunKeepsInvariant: the same holds for its runs.
- QueueDelivery.RunKeepsLedger: the inbox is entered only by delivery from the outbox; an event from elsewhere would be in the inbox without having been emitted.
- QueueOrder.ExactlyOnceInOrder: so are its inbox and its runs.
- QueueStore.CompilationStore.Create: compile request, catalog resources, actor, correlation and idempotency columns are only copied by the program and are not part of the rows.
- QueueStore.CompilationStore.DeliverNext: the sink is the inbox of the same store; other sinks are not modelled.
- QueueStore.CompilationStore.Succeed: of the six outputs only the set of names, profile.json and what it says about its digest and id are modelled; the canonical text of a result key, which ends in a newline here and not in the web code, is idealised as injective on both sides separately.
- AuditChain.TenantAuditChain.Append: the field shapes of a fact (patterns of ids, digests, times) are assumed valid.
- DemandStore.DemandApprovalStore.CollectProblems: the findings are in the order they are found; the program sorts them by reason and subject before numbering, which changes their order only.
- DemandStore.DemandApprovalStore.CreateDemand: the shapes of the request's members are assumed valid, members that are only copied are one opaque value, and the list of prerequisite decision records is left out.
- DemandStore.DemandApprovalStore.CommitAudit: the chain belongs to this store alone; the program can share one chain among several stores.
- Projections: a response body is the row it shows; the public projections of demands, approvals, profiles, locks, bundles and operations are not modelled.
- StatusStore.ProjectionStore.TakeSummary: the admission policy's answer is a parameter; freezing of snapshots and evidence references are not modelled.
- StatusRefinement.ReadingRefinesValidation: the order of cursors inside a binding, priority findings and state counts are left out of snapshots.
- StatusPages.PortfolioIsPartitioned: listing order is an arbitrary comparison by the host's locale (the listing is sorted when it is a weak order); of a record only what is read of it is kept, not the counts shown beside it.
- The operator audit log of the status store: an append with a counter.
- UstarReader.ReadBoundedTar: the gzip envelope is not part of this model; the bytes are those inside it. The reader's comparison with the normalised path is implied by its check of the segments and is not repeated.
- UstarRoundTrip.RoundTripExactly: paths are sequences of Unicode scalar values, so lone surrogates in a path are not modelled.
- ProfileStore.ProfileLifecycleStore.Register: a registration carries what profile.json says as parsed fields; document parsing and the shapes of its members are not modelled, nor is the hook that tampers with outputs for tests.
- ProfileStore.OperationStore.Create: a compilation operation is created without the demand, compile input and idempotency checks of `requestCompilation`, which touch no bundle; the queued jobs and audit lists of the operation store are left out.
- ProfileStore.ProfileLifecycleStore.RequestBundle: the audit of both stores is a flag that makes the next commit fail; audit lists, audit chains and the outbox of digest records are left out, because the chain is proved once and never refuses fresh events.
- ProfileStore.OperationStore.ApplyWorkerTransition: the shapes of result references and of a failure are assumed valid; the reason code is checked.
- ProfileBundles.RunKeepsInvariant: the pairing of bundles and operations assumes that no worker transition is applied to a bundle operation; `ProfileWorkers` says exactly what happens otherwise.
- The PostgreSQL store, SQL migrations, HTTP handlers, pages, sign-in, signature checks, the questionnaire session and pack modules, continuous-integration scripts: the first needs the semantics of a database, the others are input and output, libraries, or long chains of single refusals.
