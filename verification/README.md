# Paper2Agent and gateway: models and proofs

This project models the parts of the repository that move money or must not lose
track of it, and proves properties of those models. Each area is a few modules;
the first doc comment of every file says what it stands for.

**Publisher journal and its protocol with the chain.** `Ledger` is the UTxO chain
with blocks, rollbacks and script failures. `PublisherTables` is the database
schema as guards on writes, `PublisherStore` the store operations as functions of
the stored state, `PublisherDatabase` the store object, `AdvertMigration` the
rebuild of the old journal, from which `MigratedBoot` starts the service.
`AdvertCheck` holds the checks before a broadcast and
what they mean for the wallet. `PublisherService` and `PublisherProtocol` are the
service as a step system in which each operation carries the transaction it built
from the journaling hook to the network. `PublisherSafety`, `PublisherServing`,
`PublisherRows` and `PublisherDebits` are its theorems over whole runs, and
`PublisherOutcomes` says where each operation leads. `ChainFinality` says what stays
and what stays away on every chain a node can come to adopt; `RetiredVerdict` and
`RetiredRollback` apply it to the retired verdict.

**Control service.** `ControlStore`, `ControlDatabase` and `ControlEvents` are the
guarded job table and its bounded event log, `ControlService` the step system,
`ControlRestart` the two start-up loops, `ControlSafety` the theorems over runs, and
`ControlOutcomes` what each step leaves in its job. `Handshake`
composes the control service with the publisher over an unreliable network.

**Gateway.** `EscrowRecovery` and `EscrowSafety` are the recovery of interrupted
payments from a lagging indexer; `ExpiredPayment` and `ExpiredRollback` say how far
its verdict survives rollbacks. `Sweeper` is one pass of the custody sweeper,
`SweeperPass` says exactly what a pass does for each output, and `SweeperBilling`
ties its closes and bills to what happened to the escrows on the chain.

**Smaller algorithms.** `PromiseLock` (the per-key lock of chained promises),
`ContextCompaction` over `JsonText` (in-place compaction with byte accounting),
`Base64`, and `PackagePaths`, `PackageFiles`, `PackageInventory`, `PackageTree`.

## Model assumptions

- A transaction's hash is the transaction itself, so hashes do not collide and an
  output reference determines its output.
- A transaction enters only blocks in slots strictly below its upper bound, only
  while its inputs and collateral are unspent, and it has at least one input. A
  rollback reaches at most 43,200 slots behind the highest tip. Where a statement
  says "append-only" there are none.
- One chain read is one snapshot: some chain the node had adopted since the
  operation began.
- The shared posting and retiring flows call the journaling hook before any
  broadcast.
- Database transactions are atomic and durable; a crash or another operation can fall
  between any two of them, also between the two that one chain read leads to.
- The slots of a chain's blocks rise.
- Slot wallets are not advert addresses. Where a statement says that only journaled
  transactions spend advert outputs, this is because they need the slot key.
- A wallet outcome "expired" means that the tip passed the validity end; "rejected"
  means that no block can hold the transaction. Each gateway key has its own wallet, and
  the indexer lists each output once, for one key.
- For the debit bounds, declared collateral follows the sum rule of CIP-40.
- Posting a receipt hash to a job stores a digest, which is never the empty text
  (`gateway/src/openai/responses.ts:351-353`).
- A publisher run starts from any journal that satisfies the service invariant, with rows
  as the service writes them (`PublisherService.RowsOk`), and whose expired adverts are dead on the adopted chain, empty and migrated ones among them
  (`MigratedBoot.MigratedTablesBoot`). The composed runs of `Handshake` start from empty
  tables.

## Where the code does not do what its text says

- The expiry message says that no funds moved. The evidence reads inputs only; a
  failed script can have taken the collateral. It holds on every later chain exactly
  when the transaction pledges nothing or pledges one of its inputs
  (`Ledger.NoFundsMovedExactly`, `Ledger.ExpiredCanHaveLostCollateral`).
- The advert check and the retirement check read no collateral return, so an accepted
  transaction can lose more than the approval on script failure: exactly when a
  declared total comes with a return to someone else and the pledges exceed the
  approval (`AdvertCheck.AdvertLossWithinApprovalExactly`,
  `AdvertCheck.CollateralReturnIsNotChecked`).
- A missing advert output is recorded as retired for good. A rollback can bring it
  back. Where the chain that was read shows the output as spent, or shows the outputs
  that the advert transaction needs (spent or not), the verdict is final exactly when
  the spend is behind the deepest rollback, or the transaction is off the chain and
  malformed, too late, or without an output it needs for good; on any other chain,
  exactly when no single block after the deepest rollback can show the output
  (`RetiredVerdict.RetiredVerdictHoldsExactly`, `ChainFinality.OneBlockDecides`,
  `RetiredVerdict.RetiredMarginExactly`, `RetiredRollback.RollbackDefeatsRetiredVerdict`).
- Recovery's "expired without payment" needs an append-only chain; with rollbacks it
  would need the tip 43,199 slots past the validity end
  (`ExpiredPayment.VerdictSurvivesRollbacksExactly`,
  `ExpiredRollback.RollbackDefeatsExpiredVerdict`).
- The sweeper finds a row's session by posting time, so two escrows posted at the
  same time can close and bill the wrong session; it finds the right one exactly when
  no session's posting time is shared (`Sweeper.RowFindsItsSessionExactly`,
  `Sweeper.SharedTimeClosesAnotherSession`).
- The sweeper says that a refund counts as a reclaim for the session. A Submitted
  output that is just gone is billed as completed, also when a refund whose wait
  failed took it (`SweeperBilling.BillIsRightExactly`,
  `SweeperBilling.RefundLandingLateIsBilled`).

## Model

| member | source | states |
|---|---|---|
| Ledger.ExpiredNeverEnters | paper2agent/src/publisher.ts:83-87 | A transaction whose inputs were unspent in a snapshot more than the finality margin past its validity end is on no chain that the node adopts later, for every run of blocks and rollbacks |
| Ledger.MarginIsSoundExactly | paper2agent/src/publisher.ts:83-87 | A finality margin is sound for every run exactly when it is at least the rollback depth less two slots; the chosen margin is the rollback depth, two slots more than needed |
| Ledger.NoFundsMovedExactly | paper2agent/src/publisher.ts:1636-1640 | For a transaction that a block can still carry, the expiry evidence proves on every later chain that no funds moved exactly when the signed bytes pledge no collateral or one pledge is also an input |
| Ledger.UnspentPledgeProvesIt | paper2agent/src/publisher.ts:1188-1214 | With the expiry evidence, one pledge still unspent in the same snapshot proves that no funds moved |
| Ledger.ExpiredCanHaveLostCollateral | paper2agent/src/publisher.ts:1636-1640 | A concrete chain on which the "no funds moved" evidence holds although the collateral is spent |
| PublisherTables.SchemaProtectsMoney | paper2agent/src/publisher-store.ts:201-257 | Whatever sequence of inserts, updates and deletes a program attempts: two publications that hold a slot and two live adverts of one layout never share a slot, no transaction is journaled twice, nothing signed is dropped, re-signed or made signable again, and no confirmation, switch or end is taken back |
| PublisherTables.NoWriteChangesInputs | paper2agent/src/publisher-store.ts:254-257 | Whatever one write a program attempts, a publication that has not failed keeps its slot, request, terms, artifact and bundle |
| PublisherStore.CreateKeeps | paper2agent/src/publisher-store.ts:404-417 | Starting a preparation keeps the whole journal invariant and rewrites nothing |
| PublisherStore.RetryKeeps | paper2agent/src/publisher-store.ts:420-436 | Restarting an unsigned failed preparation keeps the journal invariant and rewrites nothing signed |
| PublisherStore.UpdateKeeps | paper2agent/src/publisher-store.ts:439-448 | A compare-and-set phase update keeps the journal invariant |
| PublisherStore.JournalKeeps | paper2agent/src/publisher-store.ts:451-461 | Journaling the publish advert keeps the journal invariant: generation 1 appears together with the transaction of its publication |
| PublisherStore.JournalReadvertKeeps | paper2agent/src/publisher-store.ts:467-487 | A re-advertisement takes the next generation and keeps the journal invariant |
| PublisherStore.ConfirmKeeps | paper2agent/src/publisher-store.ts:506-509 | A confirmation is set at most once |
| PublisherStore.SwitchKeeps | paper2agent/src/publisher-store.ts:512-519 | A switch is set at most once, on a confirmed live advert |
| PublisherStore.ExpireKeeps | paper2agent/src/publisher-store.ts:522-525 | An end is set at most once, with its reason |
| PublisherStore.JournalRetirementKeeps | paper2agent/src/publisher-store.ts:528-535 | A retirement attempt is added for a live advert only |
| PublisherStore.RetireKeeps | paper2agent/src/publisher-store.ts:547-556 | Retiring confirms the named attempt, ends the advert once and rewrites nothing |
| PublisherStore.RecoverKeeps | paper2agent/src/publisher-store.ts:563-576 | Boot recovery keeps the journal invariant and rewrites nothing signed |
| PublisherStore.RecoverSettlesPhases | paper2agent/src/publisher-store.ts:558-576 | Boot recovery sends an interrupted preparation to failed, an unsigned publish to prepared and a signed unconfirmed one to confirmation pending; a confirmed publish, every other row, the adverts and the retirements stay, and recovering again changes nothing |
| PublisherStore.RecoverIsThreeUpdates | paper2agent/src/publisher-store.ts:564-575 | The three bulk updates in their order equal the row-by-row recovery |
| PublisherStore.JournalSucceedsExactly | paper2agent/src/publisher-store.ts:451-461 | Journaling the publish advert succeeds exactly for an unsigned publishing publication of the same slot with a new transaction; the per-layout index can never refuse it |
| PublisherStore.NextGenerationIsNext | paper2agent/src/publisher-store.ts:474-477 | The next generation of a signed publication is free and follows an existing one |
| PublisherStore.GenerationsAreOneToN | paper2agent/src/publisher-store.ts:501-504 | The generations of a publication are exactly 1 to n |
| PublisherStore.ServingExistsExactly | paper2agent/src/publisher.ts:107-116 | A publication has an advert to serve exactly when a live advert is its first or is confirmed |
| PublisherStore.SwitchedServes | paper2agent/src/publisher.ts:111-116 | With a switched live advert, a switched live advert is served |
| PublisherStore.PublishServes | paper2agent/src/publisher.ts:111-116 | Without a switched live advert the live publish advert is served |
| PublisherStore.ServesByPreference | paper2agent/src/publisher.ts:107-116 | The served advert is the newest that is live and switched; without one generation 1 if live; and failing that the newest that is live and confirmed |
| PublisherStore.LiveIdentityAdvertFinds | paper2agent/src/publisher.ts:118-121 | The lookup finds a live identity advert exactly when there is one |
| PublisherDatabase.PaperPublisherStore.constructor | paper2agent/src/publisher-store.ts:363-379 | A new store is empty and valid |
| PublisherDatabase.PaperPublisherStore.Create | paper2agent/src/publisher-store.ts:404-417 | The new tables are those of the operation on the old ones, or unchanged with the conflict error |
| PublisherDatabase.PaperPublisherStore.Retry | paper2agent/src/publisher-store.ts:420-436 | The same for a repeated preparation |
| PublisherDatabase.PaperPublisherStore.Update | paper2agent/src/publisher-store.ts:439-448 | The same for a phase update |
| PublisherDatabase.PaperPublisherStore.Journal | paper2agent/src/publisher-store.ts:451-461 | Both writes or neither: a publication that is not signable rolls the inserted advert back |
| PublisherDatabase.PaperPublisherStore.JournalReadvert | paper2agent/src/publisher-store.ts:467-487 | The stored advert has the next generation, or nothing changed |
| PublisherDatabase.PaperPublisherStore.ConfirmAdvert | paper2agent/src/publisher-store.ts:506-509 | Sets the confirmation if it is not set |
| PublisherDatabase.PaperPublisherStore.SwitchAdvert | paper2agent/src/publisher-store.ts:512-519 | Sets the switch once; fails unless the advert is or was switched |
| PublisherDatabase.PaperPublisherStore.ExpireAdvert | paper2agent/src/publisher-store.ts:522-525 | Ends an unconfirmed live advert as expired |
| PublisherDatabase.PaperPublisherStore.JournalRetirement | paper2agent/src/publisher-store.ts:528-535 | Adds the attempt, or fails without a change |
| PublisherDatabase.PaperPublisherStore.RetireAdvert | paper2agent/src/publisher-store.ts:547-556 | Confirms the attempt and ends the advert in one transaction |
| PublisherDatabase.PaperPublisherStore.Recover | paper2agent/src/publisher-store.ts:563-576 | The three updates reach the recovered tables; each publication has the phase that its old phase, its signature and its confirmation call for |
| AdvertMigration.MigrateAdvertJournal | paper2agent/src/publisher-store.ts:327-358 | The migration loop copies every old row, column by column, as generation 1, ended as expired exactly for a failed publication, and succeeds exactly when every row has its publication |
| AdvertMigration.MigrationEstablishesJournal | paper2agent/src/publisher-store.ts:320-358 | The migrated tables satisfy the whole journal invariant of the new layout |
| MigratedBoot.MigratedTablesBoot | paper2agent/src/publisher-store.ts:327-358 | Tables migrated from an old journal of checked rows are a first state of the runs that the theorems speak of |
| AdvertCheck.SumFromWallet | paper2agent/src/publisher.ts:1568-1577 | The loop accepts exactly visible wallet outputs and returns their sum and list |
| AdvertCheck.SumOutputs | paper2agent/src/publisher.ts:1588-1588 | The sum of the change outputs |
| AdvertCheck.CheckAdvert | paper2agent/src/publisher.ts:1537-1601 | Accepts exactly a transaction whose first output holds at least the bond of the supplier at the address of its layout with every approved offer field and the approved agent, that moves only visible wallet outputs back to the wallet, and whose worst case is within the approval; each error has its own condition |
| AdvertCheck.CheckRetirement | paper2agent/src/publisher.ts:1322-1361 | Accepts exactly a transaction that spends the advert, otherwise only visible outputs of the wallet, pays only the wallet and has its worst case within the approval |
| AdvertCheck.AdvertSuccessCostsTheDebit | paper2agent/src/publisher.ts:1587-1600 | When a checked advert transaction succeeds the wallet loses exactly the recorded debit, which is the deposit plus the fee |
| AdvertCheck.RetirementSuccessReturnsTheDeposit | paper2agent/src/publisher.ts:1346-1361 | When a checked retirement succeeds the wallet gains the deposit and pays the fee |
| AdvertCheck.FailureCostsTheCollateral | paper2agent/src/publisher.ts:1586-1588 | When a script fails and the collateral return comes back, the wallet loses at most the counted collateral, and exactly a declared total |
| AdvertCheck.AdvertLossWithinApprovalExactly | paper2agent/src/publisher.ts:1578-1594 | A checked advert transaction that succeeds costs no more than the approval; when its script fails, the loss is within it exactly when no collateral return pays someone else or the pledges alone are within the approval |
| AdvertCheck.RetirementLossWithinApprovalExactly | paper2agent/src/publisher.ts:1338-1354 | The same for a checked retirement |
| AdvertCheck.CollateralReturnIsNotChecked | paper2agent/src/publisher.ts:1578-1588 | A concrete accepted transaction whose collateral return pays someone else and loses more than the approval on script failure |
| PublisherService.CheckedAdvertIsRow | paper2agent/src/publisher.ts:1537-1601 | What the advert check accepted is a checked journal row of its slot |
| PublisherService.CheckedRetirementIsRow | paper2agent/src/publisher.ts:1322-1361 | What the retirement check accepted is a checked retirement row |
| PublisherService.RecordEvidenceKeeps | paper2agent/src/publisher.ts:1604-1640 | The first write for chain evidence on a publish advert, in every branch, keeps the service invariant, undoes nothing and touches only that advert |
| PublisherService.RecordPhaseKeeps | paper2agent/src/publisher.ts:1626-1640 | The second write, of the phase, keeps it too, whatever happened between the two |
| PublisherService.CrashBetweenWritesIsRepaired | paper2agent/src/publisher.ts:1625-1640 | After a crash between the two writes boot recovery leaves the publication resolvable, and the same evidence read again leads to the lost phase: publishing for an unspent output, failed for an unconfirmed advert past its bound and margin with all wallet inputs unspent, and no phase otherwise |
| PublisherService.ResolveReadvertKeeps | paper2agent/src/publisher.ts:1188-1221 | The same for an unconfirmed re-advertisement |
| PublisherService.SettleKeeps | paper2agent/src/publisher.ts:1255-1266 | The same for a missing advert output |
| PublisherService.FinishStartKeeps | paper2agent/src/publisher.ts:1694-1697 | A supplier start publishes only a publication whose first advert is confirmed |
| PublisherRows.NextKeepsRows | paper2agent/src/publisher-store.ts:404-461 | Every step keeps what a phase says about the other columns and that every journaled advert offers the approved terms |
| PublisherRows.PhasesSayWhatIsThere | paper2agent/src/publisher.ts:626-669 | In every state of every run a prepared or publishing publication has its image and preparation time, one that waits or is published has signed, and a signed one is exactly one with a publish advert |
| PublisherRows.AdvertsOfferTheApprovedTerms | paper2agent/src/publisher.ts:1135-1147 | In every run each journaled advert of any generation offers exactly the approved price, bonds, model and artifact from the endpoint and key of its slot |
| PublisherRows.AdvertOutputHoldsItsBond | paper2agent/src/publisher.ts:1550-1556 | In every run the output of each journaled advert holds at least the approved bond of the supplier, at the address of its layout and with an agent exactly in the identity layout |
| PublisherOutcomes.ResolutionOutcome | paper2agent/src/publisher.ts:1604-1649 | A whole resolution with anything else in between: an unspent journaled output confirms the advert and leads to publishing; for an unconfirmed advert all wallet inputs unspent past the bound and the margin end it as expired and lead to failed; a missing advert leads to prepared; nothing else changes an advert or the phase |
| PublisherOutcomes.ReadvertEvidenceDecides | paper2agent/src/publisher.ts:1188-1217 | The evidence of a further generation confirms it, ends it as expired, or changes nothing, under the same conditions |
| PublisherOutcomes.PreparationStarts | paper2agent/src/publisher-store.ts:404-436 | A preparation starts exactly for a new or a failed, unsigned publication in a slot that no other one holds, with the given inputs and without an earlier image |
| PublisherOutcomes.PreparationEnds | paper2agent/src/publisher.ts:626-669 | A built image prepares the publication, and a failed build fails it |
| PublisherOutcomes.PublishJournals | paper2agent/src/publisher.ts:1508-1515 | Before a publish submits, the built transaction is in the journal as generation 1 under the approved maximum, and in its publication, which had signed none |
| PublisherOutcomes.FailedPublishOutcome | paper2agent/src/publisher.ts:1516-1534 | A publish that fails leaves the publication waiting for evidence when it has signed, and prepared when it has not |
| PublisherOutcomes.ConfirmationOutcome | paper2agent/src/publisher-store.ts:506-509 | A confirmed submission confirms exactly the journaled advert that it submitted |
| PublisherOutcomes.ReadvertSucceedsExactly | paper2agent/src/publisher-store.ts:467-487 | A re-advertisement is journaled exactly for a published, signed slot without a live advert of its layout and with a new transaction |
| PublisherOutcomes.RetirementSucceedsExactly | paper2agent/src/publisher-store.ts:528-535 | An attempt to retire is journaled exactly for a live advert and a new transaction |
| PublisherOutcomes.ReadvertJournals | paper2agent/src/publisher.ts:1149-1180 | The next generation offers what the first one does, active, for the approved agent and under the approved maximum |
| PublisherOutcomes.SwitchOutcome | paper2agent/src/publisher.ts:909-945 | A switch is set exactly on a live, confirmed identity advert seen on chain, and then a switched advert is served |
| PublisherOutcomes.SettleOutcome | paper2agent/src/publisher.ts:1255-1266 | A settling read retires the advert and confirms the named attempt exactly when the output is missing |
| PublisherOutcomes.RetirementJournals | paper2agent/src/publisher.ts:1290-1300 | Before a retirement submits, the built transaction is an unconfirmed attempt on the live advert |
| PublisherOutcomes.RetirementOutcome | paper2agent/src/publisher-store.ts:547-556 | A retirement in a block ends its advert and confirms the attempt that was submitted |
| PublisherOutcomes.StartOutcome | paper2agent/src/publisher.ts:1678-1702 | A supplier that serves publishes its publication, once, with the publishing time |
| PublisherSafety.NextKeeps | paper2agent/src/publisher.ts:582-596 | One inductive invariant of journal, chain history, running operations and submitted transactions is kept by every step: operations one database write or one submission at a time, chain moves with rollbacks, crashes with boot recovery |
| PublisherSafety.NeverTwiceOnChain | paper2agent/src/publisher-store.ts:201-205 | In every run, over crashes, expired attempts and rollbacks, a slot has at most one legacy-layout and at most one identity-layout advert transaction on the chain |
| PublisherSafety.SignedOnce | paper2agent/src/publisher.ts:665-669 | A journaled advert and its signed bytes never change, so generation 1 is signed at most once |
| PublisherSafety.BroadcastWasJournaledEarlier | paper2agent/src/publisher.ts:520-523 | Whatever an operation submitted to the network was in the journal in an earlier state in which it had not been submitted, and it never leaves the journal |
| PublisherSafety.ExpiredStaysOffChain | paper2agent/src/publisher.ts:1207-1211 | An advert that ended as expired is on no chain adopted from then on |
| PublisherServing.JournaledSpendIsRetirement | paper2agent/src/publisher.ts:1250-1254 | A journaled transaction that spends an advert output is a retirement of that advert |
| PublisherServing.PublishedSlotAlwaysServes | paper2agent/src/publisher.ts:107-116 | On an append-only chain a published slot always has an advert to serve, and it is live, confirmed, on the chain and unspent |
| PublisherServing.ServingChangesAtMostOnce | paper2agent/src/publisher.ts:901-908 | What a published slot serves changes at most once, from the publish advert to the switched identity advert |
| PublisherServing.RetirementFollowsSwitch | paper2agent/src/publisher.ts:947-956 | A retirement is journaled only for the legacy advert of a published slot that serves another, switched advert from then on; also under rollbacks |
| ChainFinality.SpendStaysExactly | paper2agent/src/publisher.ts:1250-1265 | A spend stays on every chain the node can come to adopt exactly when its block is behind the deepest rollback |
| ChainFinality.AbsenceStaysExactly | paper2agent/src/publisher.ts:1250-1265 | The output of a transaction that is off the chain stays away from every later chain exactly when no block can carry it, the first slot after the deepest rollback is too late for it, or one of the outputs it needs is spent behind that rollback or by a block its other needs come from |
| ChainFinality.OneBlockDecides | paper2agent/src/publisher.ts:1250-1265 | For every output and every chain: some later chain, after any blocks and rollbacks, shows the output unspent exactly when one block after the deepest rollback can show it |
| RetiredVerdict.RetiredVerdictHoldsExactly | paper2agent/src/publisher.ts:1250-1265 | The retired verdict of one chain read holds on every later chain exactly when a block behind the deepest rollback spent the output, or its transaction is off the chain and malformed, too late, or without an output it needs for good |
| RetiredVerdict.RetiredMarginExactly | paper2agent/src/publisher.ts:1250-1265 | For all chains and transactions: evidence for the retired verdict is sound exactly when it is as old as the rollback depth; the code asks for none |
| RetiredVerdict.RetiredVerdictStays | paper2agent/src/publisher.ts:1255-1266 | In every run, an advert that a settling read missed and that was gone for good is recorded as retired, and no chain adopted later shows its output |
| RetiredRollback.RollbackDefeatsRetiredVerdict | paper2agent/src/publisher.ts:1250-1265 | A whole run of the publisher in which a settling read during a fork records the advert as retired and its output is unspent again afterwards |
| PublisherDebits.AdvertRowCosts | paper2agent/src/publisher.ts:1595-1600 | A journaled advert costs the wallet exactly its recorded debit on success, and on script failure no more than its approval exactly when that failure is covered |
| PublisherDebits.RetirementRowCosts | paper2agent/src/publisher.ts:1355-1361 | The same for a journaled retirement |
| PublisherDebits.LossWithinApprovals | paper2agent/src/publisher.ts:1586-1594 | On every chain of every run the journaled transactions of a slot have cost its wallet at most the sum of their approvals, where each failed one was covered |
| Handshake.SignedAtMostOncePerJob | paper2agent/src/control.ts:1006-1051 | With both services crashing and messages lost, delayed or duplicated, all generation-1 signatures of a job ever seen are the same one |
| Handshake.BroadcastWasJournaledEarlier | paper2agent/src/publisher.ts:1508-1515 | In the composed system, too, every submitted transaction was journaled in an earlier state and stays journaled |
| Handshake.BroadcastAdvertWasApproved | paper2agent/src/control.ts:1010-1034 | Every submitted publish advert was signed, in an earlier state, for the approved artifact and within an approval that the control service had recorded and sent |
| Handshake.SignatureWasApproved | paper2agent/src/control.ts:1010-1034 | A signed publish advert is for the artifact that the operator approved and that is still the approved one, and its worst-case debit is within an approval that the control service recorded before sending it |
| ControlStore.NextIsDetermined | paper2agent/src/store.ts:260-264 | The query for the next build has exactly one answer: the queued job with the least queuing time, one without a time first, and then the least row |
| ControlDatabase.PaperControlStore.constructor | paper2agent/src/store.ts:213-229 | A new store is empty |
| ControlDatabase.PaperControlStore.Create | paper2agent/src/store.ts:231-240 | A job starts queued at attempt 1 with its first event |
| ControlDatabase.PaperControlStore.Transition | paper2agent/src/store.ts:293-322 | Patch and event in one step exactly when the guard holds; otherwise nothing changes |
| ControlDatabase.PaperControlStore.InsertEvent | paper2agent/src/store.ts:337-352 | The event gets the next number, is stored, and events older than the newest 1000 go |
| ControlDatabase.PaperControlStore.BuilderSettled | paper2agent/src/store.ts:283-286 | Only the marker of the same attempt is cleared |
| ControlEvents.CreateStartsLog | paper2agent/src/store.ts:231-240 | A new job has a log that holds exactly its first event |
| ControlEvents.InsertKeepsLog | paper2agent/src/store.ts:337-352 | The stored events are always the contiguous last min(n, 1000) of the history |
| ControlEvents.TransitionKeepsLog | paper2agent/src/store.ts:297-322 | A transition records its event, a refused one records nothing, and other jobs keep their logs |
| ControlEvents.PageIsSlice | paper2agent/src/store.ts:328-331 | A page is a contiguous slice of the history |
| ControlEvents.ReadContinuesExactly | paper2agent/src/control.ts:867-873 | A read continues where the reader was exactly when at most 1000 events lie beyond its cursor; a later read loses events for good |
| ControlEvents.ReaderSeesEveryEventExactly | paper2agent/src/control.ts:867-873 | Over any interleaving a reader that follows next_seq has seen every event up to its cursor once and in order exactly when all its reads came in time |
| ControlRestart.Recover | paper2agent/src/control.ts:1161-1180 | The restart loops are one recovery of every job: builds end as interrupted and a publish in flight becomes pending |
| ControlRestart.ClearMarkers | paper2agent/src/control.ts:764-765 | Clearing the markers one by one clears exactly the handed calls |
| ControlSafety.NextKeeps | paper2agent/src/control.ts:718-723 | One inductive invariant of the job table, the builder calls, the waiting operations and the sent requests is kept by every step |
| ControlSafety.RestartEndsBuilds | paper2agent/src/control.ts:1161-1180 | After restart recovery no job is building and no publish is believed in flight |
| ControlSafety.MarkersAreTheOpenCalls | paper2agent/src/store.ts:277-286 | In every reachable state the markers are exactly the builder calls begun and not settled, and there is at most one in the whole table |
| ControlSafety.NoBuildWhileOneIsOpen | paper2agent/src/control.ts:1182-1204 | A build starts only when no builder call is open, not even one from before a crash |
| ControlSafety.StartHandsExactlyTheOpenCalls | paper2agent/src/control.ts:752-770 | Start gives recovery exactly the attempts whose builder call never settled |
| ControlSafety.EachAttemptBuildsOnce | paper2agent/src/control.ts:1183-1205 | Each attempt of a job starts the builder at most once over all restarts |
| ControlSafety.AttemptsOnlyGrow | paper2agent/src/control.ts:839-846 | Attempts of a job only grow |
| ControlSafety.LateReportChangesNothing | paper2agent/src/control.ts:1207-1298 | Over all runs: once an attempt was cancelled, interrupted, finished or superseded, whatever it reports at any later time changes no job beyond its event counter and builder marker |
| ControlSafety.OverStaysOver | paper2agent/src/control.ts:839-865 | An attempt that is over never runs again, over all restarts |
| ControlSafety.BegunAndNotRunningIsOver | paper2agent/src/control.ts:1183-1205 | A builder call that was started for an attempt that is not running speaks for an attempt that is over |
| ControlSafety.PauseOnlyWhileBuilding | paper2agent/src/control.ts:1270-1298 | A pause exists only while a job is building or verifying |
| ControlSafety.ApprovalFreezes | paper2agent/src/control.ts:903-951 | Once approved, attempt, artifact and review never change and every digest stored for publication is the approved one |
| ControlSafety.PublicationNamesApprovedArtifact | paper2agent/src/control.ts:299-307 | Publication terms or a publication record exist only for an approved job and name its reviewed digest |
| ControlOutcomes.CreateOutcome | paper2agent/src/control.ts:807-823 | A new job is queued as attempt 1 and has nothing else yet |
| ControlOutcomes.RequestOutcome | paper2agent/src/control.ts:826-849 | A requested build is the next attempt at the end of the queue, with everything of the last one cleared |
| ControlOutcomes.CancelOutcome | paper2agent/src/control.ts:852-864 | A cancelled job leaves the queue, and a running build of that attempt is told to stop unless it was already |
| ControlOutcomes.BuildRequestsExactly | paper2agent/src/control.ts:826-858 | A rebuild can be requested exactly for a job that is not queued, running or under review and was not prepared for publication, and a cancellation exactly for a queued or running one |
| ControlOutcomes.PumpOutcome | paper2agent/src/control.ts:1183-1205 | The oldest queued job starts to build, marked with its attempt |
| ControlOutcomes.LogOutcome | paper2agent/src/control.ts:1260-1268 | A log line of the running attempt is recorded, and a first line of verification moves the job on |
| ControlOutcomes.ShortfallOutcome | paper2agent/src/control.ts:1271-1289 | Missing funds pause a running attempt from the first report on; later reports refresh what is shown and log nothing |
| ControlOutcomes.FundsOutcome | paper2agent/src/control.ts:1291-1298 | Restored funds end the pause |
| ControlOutcomes.SuccessOutcome | paper2agent/src/control.ts:1224-1236 | A build that succeeds while its attempt runs waits for review with exactly its verified output; a late one changes nothing |
| ControlOutcomes.FailureOutcome | paper2agent/src/control.ts:1237-1251 | A failed build is interrupted on shutdown and failed otherwise, with its reason; a cancelled one keeps its state, and a pending cleanup holds back further builds |
| ControlOutcomes.ReviewOutcome | paper2agent/src/control.ts:904-951 | The decision is stored with the digest that was shown, only while that attempt awaits review |
| ControlOutcomes.PrepareOutcome | paper2agent/src/control.ts:978-990 | The terms are frozen in the job before the request with them and the approved artifact is sent |
| ControlOutcomes.PublishOutcome | paper2agent/src/control.ts:1024-1034 | The publish is stored as under way before its request is sent |
| ControlOutcomes.ReplyOutcome | paper2agent/src/control.ts:1122-1131 | A reply is stored for the approved attempt that asked, and only if it names the terms that were sent |
| ControlOutcomes.RepliesExactly | paper2agent/src/control.ts:1122-1131 | A reply ends the wait exactly when it names the terms that were sent and is no preparation under way |
| ControlOutcomes.RefusalOutcome | paper2agent/src/control.ts:991-995 | A refused preparation leaves its reason and nothing else |
| ControlOutcomes.PublicationBeginsExactly | paper2agent/src/control.ts:961-1022 | A preparation begins exactly for the approved digest, with nothing else under way, while nothing was prepared or what was prepared failed unsigned; a publish exactly for the approved digest of a prepared or failed record |
| ControlOutcomes.RestartOutcome | paper2agent/src/control.ts:1162-1180 | A restart interrupts every running build and leaves a publish in flight waiting for its outcome; nothing else changes |
| PromiseLock.MutualExclusion | paper2agent/src/publisher.ts:1424-1435 | At most one task of a key is between its start and its end |
| PromiseLock.FirstComeFirstServed | paper2agent/src/publisher.ts:1424-1435 | Tasks of a key start in call order, each after every earlier one ended |
| PromiseLock.NoEntryMeansFree | paper2agent/src/publisher.ts:989-993 | A key without a table entry has no unfinished task, so looking it up is a sound test |
| PromiseLock.IdleMeansNothingRuns | paper2agent/src/publisher.ts:1034-1037 | No tracked tail is left exactly when every call made has ended |
| PromiseLock.FirstUnfinishedCanMove | paper2agent/src/publisher.ts:1425-1426 | The first unfinished call of a key can always take its next step, whatever earlier tasks rejected |
| PromiseLock.QuietMeansAllDone | paper2agent/src/publisher.ts:1424-1435 | When nothing is left to happen every task has ended and the table is empty |
| PromiseLock.PublisherLocks.constructor | paper2agent/src/publisher.ts:545-546 | No calls |
| PromiseLock.PublisherLocks.Exclusive | paper2agent/src/publisher.ts:1424-1430 | Chains the call to the tail in the table and puts its own tail there |
| PromiseLock.PublisherLocks.Start | paper2agent/src/publisher.ts:1425-1425 | A task starts once the tail it waits for is resolved |
| PromiseLock.PublisherLocks.Finish | paper2agent/src/publisher.ts:1425-1425 | A task ends, resolved or rejected |
| PromiseLock.PublisherLocks.SettleTail | paper2agent/src/publisher.ts:1426-1426 | The tail resolves after either end |
| PromiseLock.PublisherLocks.Cleanup | paper2agent/src/publisher.ts:1429-1432 | The entry goes only if it is still this tail |
| JsonText.UnescapeEscape | paper2agent/src/agent.ts:194-195 | Reading back an escaped string gives the string (section 7 of RFC 8259) |
| JsonText.EscapeIsShortest | paper2agent/src/agent.ts:194-195 | Of all texts that read back as a string without lone surrogates, its escaped form is a shortest one, so the counted bytes are those of the serialized form |
| JsonText.LoneSurrogateIsEscaped | paper2agent/src/agent.ts:194-195 | A lone surrogate, and only it, is written as a six-unit escape |
| JsonText.UnitBytesIsLeast | paper2agent/src/agent.ts:199-199 | A unit counts as many bytes as its UTF-8 form needs (section 3 of RFC 3629) |
| JsonText.QuotedCountsAlone | paper2agent/src/agent.ts:194-195 | The bytes of a quoted string count for themselves wherever it stands in a text |
| ContextCompaction.ContentCounts | paper2agent/src/agent.ts:194-202 | Replacing a content changes the serialized size by exactly the difference of the two quoted strings |
| ContextCompaction.ArgumentsCount | paper2agent/src/agent.ts:203-208 | The same for the arguments of one tool call |
| ContextCompaction.FindLatest | paper2agent/src/agent.ts:187-188 | Finds the newest assistant message with tool calls after the first two messages, and index 1 or the end without one |
| ContextCompaction.ShortenMessage | paper2agent/src/agent.ts:197-209 | In place: the message becomes its shortened form, the running size is the true size, and it falls exactly when the message changed |
| ContextCompaction.ShortenOneCall | paper2agent/src/agent.ts:203-208 | In place: one more tool call is shortened if that saves bytes |
| ContextCompaction.CompactContext | paper2agent/src/agent.ts:179-211 | In place: the running size equals the true serialized size, never grows, the pass stops exactly at the target or the latest turn, and the count is the number of messages that differ from before |
| ContextCompaction.CompactionCutsExactly | paper2agent/src/agent.ts:189-211 | Of the messages it looks at, a pass cuts exactly the results of tools and the arguments of calls that are longer than 600 units and have a shorter short form, to that form; the newest turn with tool calls and everything after it stays, and the pass ends before it only within the target |
| ContextCompaction.ShortContentReads | paper2agent/src/agent.ts:198-200 | A reader of a shortened result finds the first 200 units of the old one |
| ContextCompaction.ShortArgumentsRead | paper2agent/src/agent.ts:173-177 | A reader of shortened arguments finds the path, if there was one, and the length of the old ones |
| ContextCompaction.CompactionKeepsShape | paper2agent/src/agent.ts:179-185 | Message count, order, roles, identifiers, the first two messages and the latest turn are unchanged |
| ContextCompaction.OnlyLargeIsCut | paper2agent/src/agent.ts:235-237 | Over a run a message changes only while the conversation has passed the trigger size, and only behind the place where the next compaction starts |
| ContextCompaction.NoMessageIsVisitedTwice | paper2agent/src/agent.ts:232-245 | Over a whole run no message is looked at twice and a passed message never changes again |
| Base64.DecodeUndoesEncode | paper2agent/src/publisher.ts:323-324 | Decoding an encoding gives the bytes back |
| Base64.DecodeLength | paper2agent/src/publisher.ts:319-320 | The padding-based size formula equals the decoded length |
| Base64.CanonicalExactly | paper2agent/src/publisher.ts:324-325 | Re-encoding gives the text back exactly when the unused bits are zero (section 3.5 of RFC 4648) |
| Base64.AcceptsExactlyTheEncodings | paper2agent/src/publisher.ts:317-327 | A text is accepted with its bytes exactly when it is the encoding of at most 64 MiB |
| Base64.RefusesLargeExactly | paper2agent/src/publisher.ts:320-322 | An encoding is refused as too large exactly when its bytes exceed 64 MiB |
| Base64.TestVectors | paper2agent/src/publisher.ts:324-325 | The encoding gives the test vectors of section 10 of RFC 4648 and its last two characters |
| PackagePaths.JoinSplit | paper2agent/src/archive.ts:18-18 | Splitting at slashes and joining are inverse |
| PackagePaths.PathIsIdempotent | paper2agent/src/archive.ts:15-22 | An accepted path is normal and normalizing it again changes nothing |
| PackagePaths.AcceptsExactlyNormalNames | paper2agent/src/archive.ts:15-22 | The accepted inputs are exactly the ways to write a normal name, and each yields that name |
| PackagePaths.KeptExactly | paper2agent/src/archive.ts:15-22 | The paths that are kept as they are: 1 to 1024 units, relative, without control characters, deletes and backslashes, and with no part that is empty, "." or ".." |
| PackagePaths.StaysBelowAnyRoot | paper2agent/src/archive.ts:15-22 | Joined to any root, an accepted path lies strictly below it, at exactly its own parts |
| PackageFiles.SortSorts | paper2agent/src/archive.ts:114-114 | Sorting by path orders the files and keeps each of them |
| PackageFiles.SortedOrderIsUnique | paper2agent/src/archive.ts:114-119 | Files with distinct paths have one sorted order |
| PackageFiles.AcceptsExactlyPermutations | paper2agent/src/archive.ts:117-124 | The sorted comparison accepts exactly the permutations of the inventory |
| PackageFiles.LessExactly | paper2agent/src/archive.ts:114-114 | The order is that of the first place where the paths differ or the first one ends |
| PackageInventory.Inventory.constructor | paper2agent/src/archive.ts:93-95 | No files, no bytes, no entries |
| PackageInventory.Inventory.Take | paper2agent/src/archive.ts:98-108 | One entry and all below it: accepted exactly when name, kind, depth, count and size fit, with exact totals and files |
| PackageInventory.Inventory.Walk | paper2agent/src/archive.ts:92-115 | A directory is accepted exactly when it fits the limits, and the walk lists exactly its files |
| PackageInventory.PathsDistinct | paper2agent/src/archive.ts:92-115 | The inventory of a real directory has no path twice |
| PackageInventory.ListingBelow | paper2agent/src/archive.ts:98-101 | Every listed file lies below an entry of its directory and has a normal path |
| PackageInventory.VerifyPackageFiles | paper2agent/src/archive.ts:117-124 | Verification accepts exactly when the directory fits the limits and the reviewed list is a permutation of its files |
| PackageTree.TakesExactly | paper2agent/src/archive.ts:97-111 | The walk takes exactly the trees of files and directories with normal paths whose directories are at most 64 levels deep; a link or a special file anywhere refuses the whole |
| PackageTree.ListsExactlyTheFiles | paper2agent/src/archive.ts:102-110 | The inventory lists exactly the files of the tree, each with its size and digest under the names that lead to it |
| PackageTree.CountsEveryPlace | paper2agent/src/archive.ts:99-99 | The counted entries are the files and directories at every depth |
| PackageTree.FitsExactly | paper2agent/src/archive.ts:92-115 | A real directory fits exactly when it holds only files and directories, at most 64 MiB in the listed files and at most 10,000 entries |
| EscrowSafety.CaughtUpProvesAbsence | gateway/src/oneShotJobs.ts:247-260 | An indexer synced past the validity end that shows nothing proves that the escrow was never funded |
| EscrowSafety.NextKeeps | gateway/src/oneShotJobs.ts:199-321 | One inductive invariant of chain, indexer, jobs and recoveries is kept by every step, crashes included |
| EscrowSafety.RecordedOutcomeIsTheFate | gateway/src/oneShotJobs.ts:161-185 | Every outcome that recovery records agrees with the escrow from then on: completed was paid out, reclaimed went back, never paid is on no block now or later |
| EscrowSafety.AcceptNeedsTheVerifiedReceipt | gateway/src/oneShotJobs.ts:293-302 | Recovery signs an Accept only for a Submitted escrow at its newest output; for a new escrow only with a verified receipt hash, and never against a stored hash |
| EscrowSafety.SendsOnlyWhatIsDue | gateway/src/oneShotJobs.ts:265-310 | In every run whatever recovery sends spends the newest output of an escrow between the buyer and the supplier of its job: a Reclaim only before a result and a minute after the delivery time, a RefundRevoked only of a new escrow |
| EscrowSafety.VisibleExactly | gateway/src/oneShotJobs.ts:205-217 | An indexer synced to a slot shows exactly the events in blocks up to that slot |
| ExpiredPayment.AppendOnlyVerdictIsSound | gateway/src/oneShotJobs.ts:245-261 | On an append-only chain the tip at the validity end and an absent transaction mean that it is on no later chain |
| ExpiredPayment.VerdictSurvivesRollbacksExactly | gateway/src/oneShotJobs.ts:245-261 | With rollbacks the verdict is sound exactly when the tip is at least the rollback depth less one slot past the validity end; the code asks for none |
| ExpiredRollback.RollbackDefeatsExpiredVerdict | gateway/src/oneShotJobs.ts:236-263 | A whole run in which recovery records a job as never paid, and after a rollback a block funds its escrow |
| Sweeper.Protect | gateway/src/oneShotJobs.ts:204-220 | Exactly the keys of funded unfinished jobs are protected, and exactly their escrows and the outputs that the indexer names for them |
| Sweeper.GatewaySweeper.CloseSessionRow | gateway/src/sweeper.ts:114-141 | Closes an open or invalidated session with one record; what this guarantees over a pass is SessionsCloseOnce and PassEndsSessions |
| Sweeper.GatewaySweeper.SweepOne | gateway/src/sweeper.ts:220-319 | One output, in the state-changing form of the specification; what it sends, remembers and closes is RowSends and RowEndsSession, and what its closes mean is ClosesSayWhatHappened |
| Sweeper.GatewaySweeper.RunSweepOnce | gateway/src/sweeper.ts:183-322 | The nested loops are the specified pass over unprotected keys and their rows; what that pass does is PassSendsExactly, PassRemembersExactly and PassEndsSessions |
| Sweeper.PassSpendsOk | gateway/src/sweeper.ts:202-312 | Every transaction of a pass is for an unprotected output of an unprotected key and of a kind that its state allows |
| Sweeper.SweepSparesFundedJobs | gateway/src/sweeper.ts:203-225 | A pass spends no output of a job that was funded and unfinished when it began, not even one the indexer could not name |
| Sweeper.SessionsCloseOnce | gateway/src/sweeper.ts:114-141 | Over any pass a session is closed and billed at most once |
| SweeperPass.RowSends | gateway/src/sweeper.ts:220-312 | One look at an output sends exactly what is due for it, remembers it exactly when it is done, and notes an unheld receipt |
| SweeperPass.PassSendsExactly | gateway/src/sweeper.ts:202-312 | Over a whole pass a Reclaim is sent exactly for a listed output that is unprotected, not remembered, 90 seconds old, Open or Claimed, and past 11 minutes, or 35 in a session, and a minute past its delivery time; RefundRevoked and Accept exactly in their cases; one transaction at most |
| SweeperPass.PassRemembersExactly | gateway/src/sweeper.ts:227-312 | With room in the memory a pass remembers exactly what it remembered before and the outputs it looked at that are gone, refused for good, or whose transaction confirmed |
| SweeperPass.RowEndsSession | gateway/src/sweeper.ts:114-160 | A session closes exactly when its escrow was paid, refused for good, or went back while no live ticket keeps it open; once, with one record that bills the price exactly when it was paid |
| SweeperPass.PassEndsSessions | gateway/src/sweeper.ts:114-160 | Over a whole pass the session of an output that ends it is closed, with one record if it was open |
| SweeperBilling.ClosesSayWhatHappened | gateway/src/sweeper.ts:230-312 | Tied to the chain: a session recorded as returned has an escrow that went back; a billed one has an escrow that is gone and that paid the supplier exactly when no RefundRevoked took it; a remembered output is gone or its receipt was refused |
| SweeperBilling.BillIsRightExactly | gateway/src/sweeper.ts:230-291 | What the sweeper knows when it bills implies that the supplier was paid exactly for a legacy escrow, or when its own Accept confirmed |
| SweeperBilling.PassBillsArePaid | gateway/src/sweeper.ts:202-312 | Over a whole pass every bill is for a listed session of the key whose own escrow paid the supplier, where posting times name the sessions and no refund took a Submitted output |
| SweeperBilling.RefundLandingLateIsBilled | gateway/src/sweeper.ts:230-249 | Two concrete passes: a refund whose wait failed lands later, and the next pass bills the session as completed although its escrow went back |
| SweeperBilling.RunIsLawful | gateway/src/oneShotJobs.ts:199-321 | Every chain of the recovery model obeys the validator, so the billing results apply to all of them |
| Sweeper.RememberedForLong | gateway/src/sweeper.ts:97-107 | A remembered output is forgotten only after as many others as the memory holds |
| Sweeper.RowFindsItsSessionExactly | gateway/src/sweeper.ts:212-228 | Every row finds the session of its own escrow exactly when no posting time of a listed session is shared with another escrow of the key |
| Sweeper.SharedTimeClosesAnotherSession | gateway/src/sweeper.ts:212-228 | A concrete pass in which two escrows share a posting time and the wrong session is closed and billed |

## Left out

- Identity record registration of a slot (the `slot_records` table and its two
  operations): a second, smaller journal with a wall-clock window.
- Express routes, HTTP clients, supplier child processes and their draining, Docker
  images, the chain provider and the indexer: they appear as steps or parameters.
- Signing, hashing, CBOR and bech32: a transaction is its inputs, outputs, collateral,
  fee and validity end; an advert datum is its approved fields, time and agent.
- SQL as a language: tables are maps, triggers and indexes are guards on writes.
- Error texts, `deposit_address` and the read-only views; a text that is only stored
  and compared is a number.
- Which earlier retirement attempt is sent again: the model lets the service sign a
  new one at any time after the legacy advert was admitted, which allows more runs.
- SchemaProtectsMoney: its writes are inserts, updates and deletes of rows; a REPLACE,
  and an update of a publication's own identifier, are not among them.
- RetiredVerdictHoldsExactly: where the chain that was read does not even show the
  outputs that the advert transaction needs, the exact condition is the one of
  `ChainFinality.OneBlockDecides`, which quantifies over one block.
- PublishedSlotAlwaysServes: its append-only runs start from a journal whose confirmed
  and retired adverts agree with the chain.
- Reconfiguration of a slot between runs, and with it the refusals for a slot whose
  wallet or endpoint changed: the configuration is fixed for a run.
- A failed build whose cleanup is pending writes its log line and its transition in two
  database transactions; the control model takes them as one step.
- Wall-clock waits, retry sleeps and the queue capacity of the control service.
- The migrations of the control store; their old rows may lack an artifact.
- The miss, pause and chain-wait counters of `runCodingAgent`: small bookkeeping.
- `extractPackage`, `createPackage` and `packageZip`: archive formats and streams; the
  path, inventory and comparison rules they share are modelled.
- Parsing of tool-call arguments: the path they name is a parameter of compaction.
- Admission, supplier reservation and the request path of one-shot jobs: they appear
  as steps that change a job before recovery owns it.
- `requestSupplierEnd` and the idle-session janitor of the sweeper: the refusal after
  it is a parameter.
- PublisherProtocol: operations are not forced to end; statements are about safety only.
