# Kumbara: the ownerless bridge and everything that drives it

Kumbara moves lira into a savings vault and back through throwaway Stellar accounts. For each deposit or
withdrawal the server builds a *bridge*: an account that, once locked, nobody can act for except through two
or three envelopes signed before the lock. This project models

* the part of the Stellar ledger such an account lives on (sequence numbers, weights, thresholds, one-time
  pre-authorized signers, a USDC trustline, sponsored reserves as in CAP-0033), under an adversary who submits
  anything, with any keys, in any order (`Ledger`, `Replay`, `Reserves`);
* the bridge itself: a small machine of its remaining possibilities, and the proof that the ledger refines it
  over unbounded runs (`Bridge`, `Envelopes`, `Authority`), and its construction, from a fresh key to a wiped
  one, with retries, lost replies and late inclusions (`Setup`, `Landing`), and its life on the ledger's own log
  (`Lives`);
* the deposit and withdrawal pipelines over stored records, and what the records' claims mean on the ledger
  (`Deposit`, `DepositFacts`, `DepositOutcomes`, `Withdraw`, `WithdrawFacts`, `WithdrawOutcomes`);
* the leases that let invocations sharing only a database rewrite those records, and the proof that what they
  save is a run of the sequential machine (`Lease`, `Sections`), put together in `Together`, `EndToEnd` and
  `PayoutEndToEnd`;
* recovery and driving (`Sweep`, `SweepOutcomes`, `OnLedger`, `Driver`, `Driving`), and the arithmetic and encodings around it
  (`Amounts`, `Vault`, `RateLimit`, `Cbor`, `Metrics`).

Operations that update state in the program are classes and methods here, proved against functions; the
properties are lemmas about those functions.

## Hypotheses

* One monotone clock. A leased section saves before its lease expires: saves are not fenced by the token, and
  `Sections.OverrunLosesAnUpdate` shows that the hypothesis is needed.
* RPC reads are truthful when they answer (of an address whose bridge is gone that may be another account, see
  `OnLedger.ReadsAreTruthful`), and a hash returned by the relay is that of the envelope it was given.
  `Landing.Network.SubmitPreauthorized` establishes under these what the pipelines assume of a reported
  submission (`TruthfulOnLedger` in the end-to-end modules, `Truthful` in the Facts modules).
* Hashes are injective: a transaction stands for its own hash.
* Until `createLandingAccount` returns, the landing key's signatures are only on what it has broadcast and on
  sequence-0 challenges; anybody submits anything else. After the lock there is no such limit: the master key
  may be in anybody's hands.

## What the proofs found out about the code

* A resumed amount mismatch is documented as succeeding "once topped up" (lib/deposit.server.ts:460-467). The
  forward is submitted without reading the balance, and against a short balance it spends the only slot it has;
  no later top-up helps (`Bridge.ForwardOutcome`).
* `cancelDeposit` submits the abort without reading the balance (lib/deposit.server.ts:442-449). That strands
  the money exactly when there is some (`Bridge.AbortOutcome`), and returns the reserves exactly when there is
  none and a ledger has closed since the account's creation (`OnLedger.AbortOnLedger`).
* "Certain to apply" (lib/sweep.server.ts:106-108) needs one thing that the sweep does not check: an account
  cannot be merged in the ledger that created it, and an envelope submitted then burns its slot
  (`OnLedger.SweepMergesOnLedger`). The candidates of a sweep are normally older than that.
* The sweep takes no lease and saves the record as it listed it: a report or a status change made in between is
  lost (`Driving.StaleSweepLosesAReport`, `Driving.WhatAStaleSaveKeeps`).
* The `merged-out-of-band` mark says that a read did not answer: a deposit that was paid can carry it in its
  abort field (`Sweep.OutOfBandIsNotAborted`). It is right exactly when the account is gone and the plan's
  cleanup transaction did not go through (`Sweep.WhatTheMarkMeans`). A recorded abort *transaction* does mean
  the forward never applied.
* `bridgeSequence` answers null for a merged account and for a failed read alike: a sweep writes a living bridge
  off exactly when its read fails (`Sweep.FailedReadWritesOffALiveBridge`).
* When the reply to a withdrawal's payment is lost, the record ends failed, unless the address holds the amount
  a second time and a resubmission is reported as a success (`WithdrawFacts.LostReplyNeverRecovers`,
  `WhenALostReplyIsMadeUpFor`, `ALostReply`).
* When the reply to a deposit's forward is lost and no resubmission is reported as a success, the record ends
  failed although the kumbara was paid, and the sweep, which takes it for one to abort, never reclaims the
  reserves (`Sweep.LostForwardReply`, `SweepGivesUp`, `WhenAnUnheardForwardIsMadeUpFor`, `ALostForwardReply`).
* The `landed` check of a creation asks whether the account exists, not whether our transaction made it
  (`Setup.SomebodyElseCreates`). The plan returned then locks an account without a trustline, which can never
  receive, pay or be merged (`Setup.BareForever`); a locked bridge is usable exactly when it has the trustline
  (`Setup.UsableIffTrustline`), and `CreateLandingAccount` ends with it exactly when our creation went through.
  This arises on the way out; on the way in, the zero-amount transfer that is simulated for the footprint
  (lib/landing/landing.ts:251-257) should fail first, and its answer is arbitrary here.
* Saves are not fenced: a section that outlives its lease can undo its successor's save
  (`Sections.OverrunLosesAnUpdate`). Checking the token at the save would be enough
  (`Sections.FencedLosesNoUpdate`).
* A living bridge carries two reserves for itself, one for the trustline and one per remaining signer: five or
  six after the lock (`Authority.ReservesOfABridge`), not the three to four of the comment at
  lib/landing.server.ts:39.
* Asking for the whole position by amount asks for one share more than is held, exactly when rounding it down
  loses less than a share's worth (`Vault.WholePositionAsksOneTooMany`), as lib/autopilot.ts:32-39 warns.
* The onboarding curve counts an account dated after now if its bar already exists
  (`Metrics.BarsHoldTheWindow`).

## Model

| member | source | states |
|---|---|---|
| Authority.OnlyTheEnvelopes | lib/landing/landing.ts:383-396 | After the lock, whoever holds whatever keys: a valid transaction that acts for the bridge is its forward, cleanup or abort, in its own slot. |
| Authority.SignersNeverChange | lib/landing/landing.ts:383-396 | The signers of a living bridge are weight-1 envelopes; master weight 1 and all thresholds 2 stay. |
| Authority.ExactlyTheCoSignature | lib/landing/landing.ts:364-379 | An envelope is valid if and only if the landing key alone has signed it. |
| Authority.LedgerRefinesBridge | lib/landing/landing.ts:355-399 | Over any run of an adversarial ledger, what happens to a locked account is a run of the bridge machine, and the log agrees with it on what went through. |
| Authority.UsdcConservation | lib/landing/landing.ts:278-284 | Everything accepted is the balance plus what left; what left is nothing or one payment of exactly the planned amount to the planned destination; a merged bridge was empty. |
| Authority.EachEnvelopeOnce | lib/landing/landing.ts:358-379 | Over any run each envelope enters the ledger at most once, and forward and abort never both. |
| Authority.ReservesOfABridge | lib/landing/landing.ts:383-396 | The reserves a living bridge locks on the sponsor. |
| Authority.StepRefines | lib/landing/landing.ts:355-399 | One ledger step of any kind is at most one move of the bridge and keeps account, balance and slots in agreement with it. |
| Authority.MergeGoesThrough | lib/landing/landing.ts:367-379 | An abort or cleanup in its slot takes the account away if and only if it is empty, the sponsor exists and a ledger has closed since its creation; otherwise the slot is burnt. |
| Authority.ForwardGoesThrough | lib/landing/landing.ts:364-366 | A forward in its slot pays the planned amount to the planned destination if and only if the bridge holds it and the destination can receive it; the slot is spent either way. |
| Authority.ALedgerHasClosed | lib/landing/landing.ts:367-379 | The ledger's sequence condition on a merge is that a ledger has closed since the account was created. |
| Lives.BooksBalance | lib/landing/landing.ts:358-399 | In every run from the lock, up to the merge: what the log says left the bridge is the planned payment if the forward applied and nothing otherwise, and everything it accepted is what it holds plus that. |
| Lives.LifeStory | lib/landing/landing.ts:358-399 | The account exists until its merge and is gone right after it; until then the books kept for it are those of the log. |
| Bridge.Conservation | lib/landing/landing.ts:364-379 | On the bridge machine: received is balance plus sent, sent is zero or the amount, and a spent first slot never pays again. |
| Bridge.RunIsMonotone | lib/landing/landing.ts:358-379 | A spent slot keeps its outcome for good, and a merged bridge never changes. |
| Bridge.HowItEnded | lib/sweep.server.ts:97-103 | A gone bridge was aborted if and only if its cleanup transaction did not go through, which anyone can look up. |
| Bridge.StrandedForever | lib/sweep.server.ts:106-108 | Money in a bridge whose forward slot is spent stays there over every later run. |
| Bridge.AbortOutcome | lib/deposit.server.ts:442-449 | As far as the bridge itself decides: exactly when a blind abort strands money, and exactly when it takes the bridge away. OnLedger.AbortOnLedger adds what the ledger asks. |
| OnLedger.AbortOnLedger | lib/deposit.server.ts:442-449 | On the ledger: the abort of a cancel takes the account away if and only if nothing was paid in, the sponsor exists and a ledger has closed since the creation; it strands money if and only if there is some. |
| Bridge.ForwardOutcome | lib/deposit.server.ts:460-481 | A forward pays exactly when the bridge holds the amount at that moment; a short one is never revived. |
| Replay.AtMostOnce | lib/landing/landing.ts:187-191 | Over every run, one transaction per account and sequence number, hence every transaction at most once. |
| Replay.DeadStaysDead | lib/landing/landing.ts:225-230 | A transaction whose slot has passed without it can never enter later. |
| Reserves.SponsoringIsTheSum | lib/landing.server.ts:46-66 | Over any interleaving on any number of accounts, the sponsor's count equals the sum of what live accounts carry. |
| Reserves.AllMergedRestoresBalance | lib/landing.server.ts:50-66 | Once every sponsored account is merged, the spendable balance is what it was, less the fees. |
| Reserves.EachReserveCosts | lib/landing.server.ts:61-66 | One XLM is kept back, and half an XLM more for each subentry and each carried reserve. |
| Setup.NothingWithoutTheKey | lib/landing/landing.ts:292-299 | Before the lock nothing acts for the account without its key's signature. |
| Setup.NeedsTheKey | lib/landing/landing.ts:292-399 | At any moment of the construction, nothing acts for the account without its key's signature, and after the lock only what the account is the source of. |
| Setup.ChallengeIsNeverValid | lib/landing/landing.ts:327-331 | The sequence-0 challenges that the key signs can never be submitted. |
| Setup.UnsentNeverEnters | lib/landing/landing.ts:292-399 | Over any run in which anybody submits anything, with the key's signature only on what was broadcast or on challenges, nothing else acting for the account ever enters. |
| Setup.CreateOnMissing | lib/landing/landing.ts:297-319 | A creation that finds no account makes one with a sponsored trustline, or makes nothing. |
| Setup.CreateOnExisting | lib/landing/landing.ts:311-318 | A creation that finds the account there fails and leaves it as it was. |
| Setup.WorldKeepsPreLock | lib/landing/landing.ts:297-353 | Until the lock is broadcast the account stays as created and its sequence stands still, whatever anybody submits without the key's signature. |
| Setup.UndoOutcome | lib/landing/landing.ts:335-347 | The merge back takes the account away exactly when it is empty and a ledger has closed since its creation; otherwise it is unchanged. |
| Setup.LockStep | lib/landing/landing.ts:383-399 | The lock takes hold completely or leaves the account as it was. |
| Setup.WorldKeepsLocking | lib/landing/landing.ts:355-399 | From the sequence read to the return, with lock attempts in flight and anybody submitting anything without the key's signature, the account is unlocked at that sequence or locked with no envelope used. |
| Setup.UsableIffTrustline | lib/landing/landing.ts:383-399 | A locked bridge can still pay its forward on some run if and only if the account has the trustline. |
| Setup.BareForever | lib/landing/landing.ts:311-318 | Over every run, an account locked without a trustline receives nothing, none of its envelopes ever goes through, and it is never merged. |
| Setup.SomebodyElseCreates | lib/landing/landing.ts:311-318 | A concrete ledger on which somebody else creates the account, our creation fails, and the account nevertheless exists, without a trustline. |
| Landing.Keypair.Wipe | lib/landing/landing.ts:135-144 | All secret bytes are zero, in place. |
| Landing.Network.Submit | lib/landing/landing.ts:191-223 | A reported success means that the transaction applied, or that the caller's check saw the account; a bad-sequence rejection means that nothing was included; and it gives up only after a refusal, an included failure, or two broadcasts that were lost sight of. |
| Landing.Network.SubmitSponsored | lib/landing/landing.ts:231-248 | Of the up to three rebuilt transactions at most the last can ever be in the ledger, now or later; success names it; failure has one of three reasons: the sponsor could not be read, the last build was given up, or three builds collided. |
| Landing.Network.SubmitPreauthorized | lib/landing/landing.ts:440-454 | The relay is asked first, and only its refusal leads to a direct submission. Reported success means that this envelope applied. |
| Landing.Network.BeforeLock | lib/landing/landing.ts:322-334 | The key signs sequence-0 challenges only; the first other one ends the conversation, and otherwise the answer is the anchor's. |
| Landing.Network.CreateBridge | lib/landing/landing.ts:297-319 | Only creations were broadcast and the account is missing or as created, whatever was reported. |
| Landing.Network.LockBridge | lib/landing/landing.ts:382-399 | From an account that waits for it, reported success means that it is locked with no envelope used, and has the trustline it had or none as before; on any outcome it is locked or still waiting. |
| Landing.Network.Undo | lib/landing/landing.ts:335-347 | The merge back is broadcast unless the sponsor cannot be read; it counts as done only when it applied, and nothing else is broadcast. |
| Landing.Network.CreateLandingAccount | lib/landing/landing.ts:286-430 | The key is wiped on every path. A returned plan is the one for the sequence read, on a run in which anybody submitted anything but the key's signature was on nothing that was not broadcast; the account is locked at that sequence, its signers are exactly the payment to the anchor's destination with its amount and memo, the cleanup and, when abortable, the abort, none ever used; and it has a trustline if and only if it was our creation that made it. Without a plan something was refused; only creations and the merge back, which a refusing anchor always leads to, were broadcast, or the account is locked or waits for its lock. |
| Landing.Network.Prepare | lib/landing/landing.ts:292-352 | Before the lock: the creation and the conversation end in exactly what the anchor asked, or something was refused; a refusing anchor leads to the merge back. |
| Landing.Network.BuildAndLock | lib/landing/landing.ts:353-399 | From the sequence read to the lock: a plan means a locked account ready for exactly that, after a successful simulation on the way in; otherwise something was refused. |
| Landing.LockedMeansPreauthorized | lib/landing/landing.ts:278-284 | The signers of a locked account, spelled out transaction by transaction, for both kinds: source, sequence, one payment, memo. |
| Amounts.StroopsRoundTrip | lib/withdraw.server.ts:100-104 | toStroops(fromStroops(x)) is x for every x. |
| Amounts.CentsRoundTrip | lib/deposit.server.ts:114-118 | toCents(fromCents(x)) is x for every x. |
| Amounts.ToStroopsIsFloor | lib/deposit.server.ts:119-122 | Reading a digit string gives the floor of its value in stroops, exactly its value up to seven decimals. |
| Amounts.AmountSurvivesThePipeline | lib/withdraw.server.ts:169-175 | An accepted amount keeps its exact value through record, bridge plan and payment. |
| Amounts.PrintedForm | lib/landing/landing.ts:154-156 | A printed amount has exactly its decimals behind a whole part without leading zeros. |
| Amounts.OnlyTwoPartsAreRead | lib/withdraw.server.ts:100-103 | What follows a second dot is not read. |
| Amounts.WhenNoAmount | lib/withdraw.server.ts:100-103 | A string is an amount if and only if all that is read of it is digits. |
| Vault.PaysEnough | lib/vault.ts:77-81 | Burning the computed shares pays at least the amount, and at most (2A-1)/S more. |
| Vault.AtMostOneBeyond | lib/vault.ts:72-81 | Asking for what s shares are worth asks for at most s + 1 shares. |
| Vault.WholePositionAsksOneTooMany | lib/autopilot.ts:32-39 | Asking for a whole position asks for one share too many if and only if the stroops lost in rounding it are fewer than a share is worth in the vault's units; so whenever a share is worth a stroop or more. |
| Vault.FewerWouldNotDo | lib/vault.ts:72-81 | Two shares fewer would not pay the amount. |
| Vault.EmptyVault | lib/vault.ts:77-78 | Without shares or assets a share is a stroop. |
| Deposit.DepositRow.AdvanceDeposit | lib/deposit.server.ts:378-398 | The stored record after a poll: one step with its history entry, or one more attempt, or failed for good. |
| Deposit.DepositRow.CancelDeposit | lib/deposit.server.ts:436-458 | The stored record after a cancel, and exactly when it is refused. |
| Deposit.DepositRow.ResumeDeposit | lib/deposit.server.ts:468-484 | The stored record after a resume, and exactly when it is refused. |
| Deposit.DepositRow.RecordVaultDeposit | lib/deposit.server.ts:497-520 | The stored record after the browser's report, and exactly when it is refused. |
| Deposit.DepositRow.StampBankPlayed | lib/demo-bank.ts:101-112 | The bank's stamp sets its own mark once and touches nothing else. |
| DepositOutcomes.WhenAPollFails | lib/deposit.server.ts:298-334 | A poll fails a waiting deposit for exactly the listed reasons (expired token, last failed try, missing trustline, each of the anchor's six failures in its own word, an amount that is not the quoted one or no number), and records which. |
| DepositOutcomes.WhenAPollIsPaid | lib/deposit.server.ts:319-327 | A poll reaches onramp_paid if and only if the anchor says completed with exactly the quoted amount. |
| DepositOutcomes.StatusAfterPoll | lib/deposit.server.ts:298-334 | The status after any poll: failed for a reason, paid once completed, and otherwise one status further or where it was. |
| DepositOutcomes.WhenAPollMovesOn | lib/deposit.server.ts:328-332 | The two statuses in between are entered one at a time, if and only if the anchor says it is working. |
| DepositOutcomes.WhatAPollRecords | lib/deposit.server.ts:305-327 | What an answered poll records of the money, and that it touches no hash. |
| DepositOutcomes.WhenKycIsAnswered | lib/deposit.server.ts:307-311 | More KYC is answered on a test network only, three times at most, and each answer is counted. |
| DepositOutcomes.WhatAFaultLeaves | lib/deposit.server.ts:385-396 | A failed try is counted and dated and changes nothing else; the sixth, or one that is not transient, fails the deposit with its code. |
| DepositOutcomes.WhenAPollFaults | lib/deposit.server.ts:298-303 | An expired token and an anchor that does not answer are such failed tries. |
| DepositOutcomes.WhenSomethingIsMissing | lib/deposit.server.ts:400-412 | A record without the anchor's transaction or its plan fails at once, with its own code. |
| DepositOutcomes.WhenForwarded | lib/deposit.server.ts:408-412 | A forward that is reported records its own hash and nothing else; one that is not is a failed try. |
| DepositOutcomes.WhenCleanedUp | lib/deposit.server.ts:413-422 | The cleanup never holds a deposit up: it reaches the wallet, with the hash if it was reported and a mark otherwise. |
| DepositOutcomes.WhenThereIsNothingToDo | lib/deposit.server.ts:378-382 | Polls leave finished deposits and those in the wallet alone. |
| DepositOutcomes.WhenCancelIsRefused | lib/deposit.server.ts:436-458 | A cancel is refused if and only if money is already moving, and does nothing to a finished deposit. |
| DepositOutcomes.WhereACancelLeads | lib/deposit.server.ts:440-455 | Before the anchor works a cancel is for good, with the abort submitted from the first status only; after that it only abandons, and keeps everything. |
| DepositOutcomes.AbandonedComesBack | lib/deposit.server.ts:453-475 | What was abandoned and resumed waits for the anchor again, with all tries and nothing lost. |
| DepositOutcomes.WhenResumeIsRefused | lib/deposit.server.ts:468-484 | Only abandoned deposits and amount mismatches can be resumed. |
| DepositOutcomes.MismatchComesBack | lib/deposit.server.ts:477-481 | A mismatch goes back to the forward with all tries again and its error taken back. |
| DepositOutcomes.WhenReported | lib/deposit.server.ts:497-503 | The first vault report moves the deposit on, later ones change nothing, and any other status refuses it. |
| DepositOutcomes.StampStays | lib/demo-bank.ts:101-112 | The stamp is all that a stamp changes, and no other writer takes it back. |
| DepositOutcomes.NewDeposit | lib/deposit.server.ts:262-290 | A new deposit waits on its own plan for the amount it was opened for, and claims nothing. |
| DepositFacts.DoKeepsRecord | lib/deposit.server.ts:378-520 | Every section keeps the history a path of the status graph ending at the status, live ranks never falling, fewer than six attempts, and a forward hash exactly past the forward. |
| DepositFacts.HowOnrampPaidIsEntered | lib/deposit.server.ts:319-327 | onramp_paid is entered with exactly the quoted amount or by resuming an amount mismatch. |
| DepositFacts.DoKeepsAgreement | lib/deposit.server.ts:408-449 | No section makes a false claim about the ledger. |
| DepositFacts.WorldKeepsAgreement | lib/deposit.server.ts:408-449 | The ledger moving on never makes a recorded claim false. |
| DepositFacts.ForwardedMeansExactlyPaid | lib/deposit.server.ts:408-424 | Past the forward the kumbara received exactly the quoted stroops, and there is no abort. |
| DepositFacts.AbortedMeansNeverForwarded | lib/deposit.server.ts:442-449 | A recorded abort transaction: the forward never applied, never will, and the bridge is merged. |
| Lease.LeaseTable.AcquireLease | lib/db/store.ts:272-282 | Takes the row with a token of its own if and only if there is none or it has expired, else leaves it; other keys untouched. |
| Lease.LeaseTable.ReleaseLease | lib/db/store.ts:284-286 | The row is gone afterwards if and only if it was not there or carried the token; other keys untouched. |
| Lease.ReleaseFrees | lib/db/store.ts:284-286 | After the holder's release the next acquire succeeds at any clock value. |
| Lease.HeldUntilItExpires | lib/db/store.ts:272-282 | A lease that nobody released keeps others out exactly until it expires. |
| Lease.LeaseTable.AcquireWaiting | lib/db/store.ts:295-302 | Returns holding the lease, or after the whole wait with the lease still held by another. |
| Sections.MutualExclusion | lib/db/store.ts:272-282 | At most one invocation is inside its section with an unexpired lease. |
| Sections.KeepsOwned | lib/db/store.ts:272-308 | Every step of every invocation, crash and takeover keeps the ownership invariant, including that what was loaded is what is stored. |
| Sections.StaleReleaseFreesNobody | lib/db/store.ts:284-286 | A release with a stale token leaves the current holder in place. |
| Sections.ReleaseEnablesTheNext | lib/db/store.ts:284-308 | The holder's release lets every idle invocation in at once. |
| Sections.CrashBlocksUntilExpiry | lib/db/store.ts:272-282 | A holder that crashed keeps the others out until its lease has run out, and no longer. |
| Sections.NoLostUpdate | lib/db/store.ts:288-308 | For any number of interleaved invocations the saved records form a run of the sequential machine. |
| Sections.ConcurrentInvariant | lib/db/store.ts:288-308 | Whatever the sequential machine and the world keep, the concurrent system keeps. |
| Sections.OverrunLosesAnUpdate | lib/db/store.ts:272-308 | The overrun section of a concrete run, taken over after its lease expired, can save over its successor: the saved records are then no run of the machine. A fenced save would be refused. |
| Sections.TakeoverRuns | lib/db/store.ts:272-308 | Up to that save the state is reached by a run in which no section saves after its lease has expired. |
| Sections.FencedLosesNoUpdate | lib/db/store.ts:284-308 | If a save asked for its own token in the row, no update would be lost however long sections take and whatever the clock does. |
| Together.RecordsAreAccounted | lib/db/store.ts:288-308 | For any pipeline whose truthful sections keep its claims: in every reachable state of the whole system the record is well-formed, its claims are true of the bridge's run on the ledger, the books balance, and what was saved is a run of the sequential machine. |
| EndToEnd.DepositsAreSound | lib/deposit.server.ts:378-520 | In every reachable state of leased, crashing, interleaved invocations over an adversarial ledger since the lock: the record is well-formed, what was saved is a run of the sequential machine, the books of the bridge balance over its whole life, past the forward the planned payment is the one thing that left, and a recorded abort means that nothing left and the bridge is gone. |
| PayoutEndToEnd.WithdrawalsAreSound | lib/withdraw.server.ts:236-287 | The same for withdrawals once the bridge is on record: with a recorded payment, exactly the recorded amount left for the anchor's account and nothing else. |
| Withdraw.WithdrawalRow.AdvanceWithdrawal | lib/withdraw.server.ts:236-255 | The stored record after a poll. |
| Withdraw.WithdrawalRow.RecordUsdcSent | lib/withdraw.server.ts:398-412 | The stored record after the browser's report. |
| Withdraw.WithdrawalRow.RecordVaultTx | lib/withdraw.server.ts:416-426 | The stored record after the vault report, and exactly when it is refused. |
| WithdrawOutcomes.NewWithdrawal | lib/withdraw.server.ts:169-212 | A new withdrawal is for exactly the stroops that were typed. |
| WithdrawOutcomes.WhenBuilt | lib/withdraw.server.ts:259-265 | It waits for its USDC if and only if it needs no bridge or the bridge was built, for its own amount and not abortable; a missing anchor is tried again. |
| WithdrawOutcomes.WhenSentToAnAddress | lib/withdraw.server.ts:267-268 | One to an address is completed once the USDC is reported sent. |
| WithdrawOutcomes.WhenPaid | lib/withdraw.server.ts:267-281 | The payment is recorded, with its own hash, if and only if the balance read covers it and the submission is reported. |
| WithdrawOutcomes.WhenShort | lib/withdraw.server.ts:272-278 | Short of the amount it waits sixty times, and the sixty-first fails it. |
| WithdrawOutcomes.WhenCompleted | lib/withdraw.server.ts:364-396 | A paid withdrawal is completed if and only if the anchor says completed; then its amounts are the anchor's and the cleanup is recorded or marked as failed. |
| WithdrawOutcomes.WhenThePayoutFails | lib/withdraw.server.ts:351-362 | It fails when its token has run out, when the anchor gave up, with the anchor's own word, on a last failed try, and after 120 waits, and for no other reason. |
| WithdrawOutcomes.WhenThePayoutWaits | lib/withdraw.server.ts:358-362 | Any other answer is one more wait. |
| WithdrawOutcomes.WhatAFaultLeaves | lib/withdraw.server.ts:242-252 | A failed try is counted and dated and changes nothing else; the sixth, or one that is not transient, fails the withdrawal. |
| WithdrawOutcomes.WhenThereIsNothingToDo | lib/withdraw.server.ts:236-239 | Polls leave alone what waits for the browser and what is finished. |
| WithdrawOutcomes.WhenUsdcIsReported | lib/withdraw.server.ts:398-412 | The report that the USDC was sent counts once, while it is awaited, with both hashes in their places. |
| WithdrawOutcomes.WhenTheVaultIsReported | lib/withdraw.server.ts:416-426 | The vault transaction is remembered once, before the USDC is sent, and refused after it unless known. |
| WithdrawFacts.DoKeepsRecord | lib/withdraw.server.ts:236-396 | Every section keeps history, attempts below six, waits within sixty and a hundred and twenty, and a bridge for exactly the recorded amount. |
| WithdrawFacts.EveryPollDecreases | lib/withdraw.server.ts:236-287 | Every poll that does anything decreases the measure, whatever the outside answers. |
| WithdrawFacts.PollingEnds | lib/withdraw.server.ts:351-362 | As many polls as the measure says always reach awaiting_usdc or a final status. |
| WithdrawFacts.RemainingBounds | lib/withdraw.server.ts:35-36 | The measure is at most 133, and zero exactly when there is nothing left to poll. |
| WithdrawFacts.DoKeepsAgreement | lib/withdraw.server.ts:267-281 | No section makes a false claim about the bridge. |
| WithdrawFacts.CompletedMeansPaid | lib/withdraw.server.ts:364-396 | A completed anchor withdrawal sent the treasury exactly the recorded amount. |
| WithdrawFacts.PaymentIsCovered | lib/withdraw.server.ts:267-281 | The payment is only submitted when the balance read covers it, so nothing of the bridge's own can fail it. |
| OnLedger.PaymentOnLedger | lib/withdraw.server.ts:267-281 | On a still ledger the payment that a poll submits goes through if and only if the treasury can receive it. |
| WithdrawFacts.LostReplyNeverRecovers | lib/withdraw.server.ts:267-281 | After a lost payment reply, over any run of sections, failing reads, submissions and payments in which no poll finds the whole amount at the address again, the record stays unpaid, and after its remaining polls it has failed. |
| WithdrawFacts.WhenALostReplyIsMadeUpFor | lib/withdraw.server.ts:267-281 | A poll records a payment after a lost reply if and only if it finds the amount at the address a second time and a resubmission is reported as a success; while the bridge lives, that is when it was paid twice the amount. |
| WithdrawFacts.ALostReply | lib/withdraw.server.ts:267-281 | The concrete run that loses the reply: bridge built, USDC reported, payment applied, a timeout. |
| Sweep.SubmitsOnlyWhatMerges | lib/sweep.server.ts:104-153 | Every envelope the sweep submits is the next one of an empty living bridge: nothing of the bridge's own can fail it. |
| OnLedger.SweepMergesOnLedger | lib/sweep.server.ts:104-153 | If the ledger does not move between the checks and the submit, the account is there, the envelope is at its next sequence, and it merges the bridge if and only if the sponsor exists and a ledger has closed since the account's creation. |
| OnLedger.SequenceCheck | lib/sweep.server.ts:104-111 | The sequence check on the account read is the check on the bridge's spent slots, and an account created at the address of a merged bridge never passes it. |
| OnLedger.ReadsAreTruthful | lib/sweep.server.ts:44-51 | Reads of the ledger are truthful of the bridge, also when somebody else's account is at its address. |
| Sweep.LeavesOthersAlone | lib/sweep.server.ts:104-121 | A bridge that holds USDC or whose sequence moved is never touched, and its record is left alone if and only if its read answered. |
| Sweep.SweepKeepsDeposit | lib/sweep.server.ts:92-162 | A sweep item keeps deposit records well-formed and their claims true, whether or not its reads answer. |
| Sweep.SweepKeepsWithdrawal | lib/sweep.server.ts:92-162 | The same for withdrawals, whose records a sweep only marks. |
| Sweep.FailedReadWritesOffALiveBridge | lib/sweep.server.ts:44-51 | A living bridge is written off, never to be looked at again, if and only if its account read fails. |
| Sweep.OutOfBandIsNotAborted | lib/sweep.server.ts:94-103 | A paid deposit can carry the out-of-band mark in its abort field. |
| Sweep.WhatTheMarkMeans | lib/sweep.server.ts:94-103 | A mark in the abort field is right if and only if the account is gone and the plan's cleanup transaction did not go through. |
| Sweep.PassIsSafe | lib/sweep.server.ts:76-164 | In a pass over true records with truthful reads, everything submitted is sure to apply and merge, and all records stay true. |
| Sweep.PassBounds | lib/sweep.server.ts:104-164 | At most twelve submits, no more merges than submits, one item per record with an envelope, and merged plus skipped is examined. |
| Sweep.TurnsAt | lib/sweep.server.ts:92-162 | A pass makes of each record and bridge exactly what its own item makes of it after the submits before, and touches no other. |
| SweepOutcomes.WhoIsSwept | lib/sweep.server.ts:79-89 | Deposits on their way and abandoned ones are never swept, finished ones always, waiting ones only once stale. |
| SweepOutcomes.WhichEnvelope | lib/sweep.server.ts:60-74 | Among candidates the cleanup is for those past their forward and the abort for the others, none where either is recorded. |
| SweepOutcomes.WhichEnvelopeOfAWithdrawal | lib/sweep.server.ts:71-73 | For withdrawals the cleanup after the payment, until it is recorded. |
| SweepOutcomes.WhenSubmitted | lib/sweep.server.ts:104-138 | Something is submitted if and only if the account was read, the sequence is the next, the balance was read as zero and fewer than twelve were submitted. |
| SweepOutcomes.WhyNothingIsSubmitted | lib/sweep.server.ts:92-134 | An item that submits nothing says why and leaves the bridge alone. |
| SweepOutcomes.WhenMerged | lib/sweep.server.ts:138-160 | Merged is what went through and was heard of; any other submission is reported as failed and writes nothing. |
| SweepOutcomes.WhenNothingIsWritten | lib/sweep.server.ts:92-162 | Only a merge and an unanswered read write anything. |
| SweepOutcomes.WhatAMergeRecords | lib/sweep.server.ts:139-146 | A merge records its transaction in its own field, takes an earlier failure back and touches no other hash. |
| SweepOutcomes.WaitingIsClosed | lib/sweep.server.ts:147-153 | A deposit that was still waiting when its bridge was merged is cancelled, with where it stood and its history. |
| SweepOutcomes.OthersStayAsTheyAre | lib/sweep.server.ts:147-153 | Any other deposit keeps its status and history. |
| SweepOutcomes.WhatAMergeRecordsOfAWithdrawal | lib/sweep.server.ts:139-146 | A withdrawal records the cleanup. |
| SweepOutcomes.WaitingWasNeverAborted | lib/sweep.server.ts:147-153 | Over any life, a deposit that is still polled, or can be resumed to be, has no abort transaction on record. |
| Sweep.SweepPass.SweepBridges | lib/sweep.server.ts:76-164 | The pass is the fold of its turns, records, bridges, items and counts alike; examined is the number of records with an envelope and of items, merged plus skipped is examined, and there are twelve submits at most. |
| Sweep.DepositLife | lib/deposit.server.ts:378-520 | Over a whole life of polls, cancels, resumes, reports, stamps, sweeps, failing reads and ledger moves in any order, the record stays well-formed and its forward and recorded transactions went through; out-of-band marks are on bridges that are gone as long as reads of living accounts answer. |
| Sweep.LostForwardReply | lib/deposit.server.ts:408-412 | After a lost reply to a deposit's forward, unless a resubmission is reported as a success, the record ends failed after at most six polls although the kumbara was paid, over any run. |
| Sweep.SweepGivesUp | lib/sweep.server.ts:60-108 | For such a record the sweep picks the abort, finds the sequence moved, and never submits anything: the reserves stay. |
| Sweep.WhenAnUnheardForwardIsMadeUpFor | lib/deposit.server.ts:408-412 | Such a record learns of its forward if and only if a resubmission is reported as a success. |
| Sweep.ALostForwardReply | lib/deposit.server.ts:408-412 | The concrete run that loses the reply: the anchor pays, the forward applies, a timeout. |
| Driver.Collect | lib/pipeline.server.ts:90-101 | The pages' rows, each id at its first occurrence only. |
| Driver.FirstsAreTheFirst | lib/pipeline.server.ts:90-101 | Those rows have distinct ids, miss none, and are each the first listed with their id. |
| Driver.PageIsComplete | lib/pipeline.server.ts:90-101 | A page holds rows of its status only, and every one of them unless it has 25. |
| Driver.Pipeline.Advance | lib/deposit.server.ts:378-398 | An advance amid other writers that gets the lease leaves what its section makes of the record as it then stands; without the lease the stored record; good and later in its own life either way. |
| Driver.Pipeline.Drive | lib/pipeline.server.ts:63-88 | No advance starts at or after the deadline, and none after a failure within the last ten seconds; every step ran on its answer and the record only moved on; it stopped because the status is not the driver's, a step left it where it was, or time was up, never because of the six-step cap. |
| Driver.Pipeline.Tick | lib/pipeline.server.ts:104-131 | For each driveable status in turn the first rows of the store as it then stood; of those rows each id once and in order, every one given its turn unless the budget is spent; no turn and no advance begins after it, and a record takes no step only after a failure within the last ten seconds or because time was up. |
| Driving.LaterIsAPath | lib/pipeline.server.ts:63-88 | What happens to a deposit between two looks is a path of the status graph along which live statuses only climb. |
| Driving.DepositsAreLawful | lib/pipeline.server.ts:4-12 | Deposits obey the driver's laws: at most five steps from awaiting_transfer to in_wallet, whoever else writes. |
| Driving.WithdrawalsAreLawful | lib/pipeline.server.ts:4-12 | So do withdrawals, whose statuses never come back. |
| Driving.WhatAStaleSaveKeeps | lib/sweep.server.ts:82-153 | The sweep's unleased save keeps the status changes made since its listing if and only if there were none or it makes the very same one; all but its marks goes back to what was listed. |
| Driving.StaleSweepLosesAReport | lib/sweep.server.ts:82-153 | A vault report that arrives between the listing and the save is lost. |
| Cbor.RoundTrip | spikes/lib/passkey.ts:55-71 | Decoding an encoded value followed by anything gives back the value and what follows, for all nested values (RFC 8949, sections 3 and 3.1). |
| Cbor.PrefixFree | spikes/lib/passkey.ts:55-71 | No encoding is a prefix of another's, so the encoding is injective. |
| Cbor.WhenEncoded | spikes/lib/passkey.ts:38-71 | A value is encoded if and only if every number and length in it fits 32 bits. |
| Cbor.HeadIsShortest | spikes/lib/passkey.ts:38-51 | Every head is the shortest that decodes to its content (RFC 8949, section 4.1). |
| Cbor.CborUint | spikes/lib/passkey.ts:38-51 | The filled buffer is the head, and a value past 32 bits is refused. |
| Cbor.CborEncode | spikes/lib/passkey.ts:55-71 | Pushing parts one entry at a time gives the recursive encoding. |
| RateLimit.Limiter.RateLimitHit | lib/db/store.ts:314-323 | The verdict, the count and the rows after one call. |
| RateLimit.NoWindowExceedsTheLimit | lib/db/store.ts:314-323 | No closed window of the configured length ever holds more than the limit of allowed hits. |
| RateLimit.AnswersByTheFullLog | lib/db/store.ts:314-323 | The pruned rows answer every call as the full log of allowed hits would. |
| RateLimit.WhenAllowed | lib/db/store.ts:314-323 | A call is allowed if and only if there is no limit or fewer hits than it were allowed in the closed window up to it. |
| Metrics.Funnel | lib/metrics.server.ts:141-162 | Counts are the records that reached each stage, drop-offs the records that stopped there, exits the records by status outside the stages. |
| Metrics.CountsNeverRise | lib/metrics.server.ts:141-162 | Later stages never count more records than earlier ones. |
| Metrics.DropOffsTelescope | lib/metrics.server.ts:155-160 | The drop-offs add up to the first count less the last. |
| Metrics.LiveDepositStage | lib/metrics.server.ts:125-127 | A deposit not in an exit status counts for exactly the stages up to its current one. |
| Metrics.StagesInStatuses | lib/metrics.server.ts:125-127 | What each stage counts, status by status. |
| Metrics.OnboardingCurve | lib/metrics.server.ts:216-237 | The bars cover the window up to now, with the narrowest of the four widths that needs at most 200, or else a day; at most 201 of them unless a bar is a day; each counts its own interval. |
| Metrics.BarsHoldTheWindow | lib/metrics.server.ts:222-237 | The bars hold every account of the window if and only if none is dated past the end of the last bar. |
| Metrics.WhereTheWindowStarts | lib/metrics.server.ts:218-227 | The window starts with the first event, or where asked if that is later and not in the future; it spans a quarter of an hour at least. |
| Metrics.SinceIsTheWindow | lib/metrics.server.ts:168-169 | Exactly the events since the window's start are counted. |

## Left out

- Sweep and leases: the sweep takes no lease, so outside `Driving.WhatAStaleSaveKeeps` each item is one atomic event, beside `Sections` and the end-to-end results.
- PayoutEndToEnd.WithdrawalsAreSound: starts when the reverse bridge is locked and on record; that the record's plan is the one that was locked is its first agreement with the ledger.
- Landing.Network.Interfere: its body does nothing, its contract allows any steps of the world; callers rely on the contract alone.
- Driver.Pipeline.Tick: one kind of record per pass; the program runs deposits and then withdrawals under one global lease, with `autoPlayBank` as one more outside writer here.
- Cbor.RoundTrip: integers and byte strings only; the UTF-8 encoding of text is taken as given, and maps may repeat a key.
- WithdrawFacts.RemainingBounds: a poll that saves nothing because the process died is not counted.
- Ledger: transaction fees, XLM balances, time bounds, Soroban footprints and resources, fee bumps, the twenty-signer limit, revoked sponsorships and the issuer's clawback or deauthorization. Any failure for such reasons is the arbitrary `fault` of a step.
- Relay, HTTP, the SEP-10/12/38/6 clients, discovery and health checks: their answers are arbitrary inputs.
- Saves that commit and still report an error, and non-atomic SQL sequences: each database call is atomic.
- Timestamps inside histories, messages, and record fields that no decision reads.
- Sums of history-based timings, medians, percentages and the rest of the metrics snapshot: floating point or plain sums.
- Amount strings in other forms that the parser of big integers takes (signs, hexadecimal, blanks): every caller checks the format first.
- The secret scan, admin tokens, cookies, credentials, profiles, the event log and the user interface.
