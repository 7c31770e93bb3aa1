# The money protocol of a ZAR to UCTUSD remittance platform

The platform takes rand from a sender, pays UCTUSD on the XRP Ledger to a recipient's wallet, and
later burns UCTUSD from that wallet against a simulated fiat payout. Two state machines share one
wallet row per recipient and meet a ledger that is seen only partially:

- **Settlement**: `queued -> processing -> completed | failed`. The payment's hash and ledger range
  are persisted before submission; one commit completes the row and credits the wallet. An admin may
  re-send only what the ledger proves dead, and archives it first.
- **Cash-out**: `requested -> approved -> completed | failed`. Approval debits the wallet; only the
  transition from approved to failed restores it. The worker's claim is a time stamp. A burn whose
  outcome nobody saw is held until the ledger decides, and a sweep revives rows that have no message.

This project proves that, whatever interleaving of web requests, duplicate and lost messages, dying
workers, admins and ledger events happens, money moves exactly once; and that the arithmetic and the
text parsing that decide about money do what they claim.

## How it is built

| files | what they hold |
|---|---|
| `Fx`, `FxLaws` | fixed-point pricing and what it promises |
| `Limits`, `Luhn`, `CompleteLedgers`, `Outcomes` | sender limits, the card check, the `complete_ledgers` text, the classification of submission results |
| `Xrpl` | signed transactions, the ledger, evidence, and the proof that a transaction is dead |
| `Rows` | the database rows and every commit on them, as functions |
| `Jobs`, `Database` | a worker's or admin's whole job, and a class `Store` whose methods run these commits in place and are proved equal to the functions |
| `JobLaws`, `Desks` | what each way a job, a reconcile, a retry, a booking or a request can go leaves on the rows and in the wallets, field by field and in both directions |
| `Machine` | the protocol: every actor's atomic steps, with a program counter for each worker and admin page, and ledger truth beside the rows |
| `JobRuns` | each path of a job, a reconcile or a retry in `Database` is a run of `Machine` |
| `Invariant`, `Frames`, `Preservation` | what every reachable state satisfies |
| `Money`, `Refinement` | the exactly-once machine, and the proof that the protocol simulates it |
| `History`, `Guarantees`, `Bounds`, `Counting`, `Timing`, `Pages` | the promises, over all runs |
| `Progress`, `Delivery`, `Endings` | how cash-outs and remittances end, and exactly which ones still can |
| `StaleReads` (E1), `Overdue` and `OverduePay` (E2), `Ambiguity` (E3), `Evidence` and `SplitReads` (E5), `Collisions` (E7) | what these five assumptions are for: the exact condition under which a violation does no harm, and a run from an empty platform in which it does; E4 and E6 are taken as they are |
| `Witness` | runs from an empty platform to the states those runs start from |

One database transaction is one atomic step. A worker is Claimed, Persisted (hash stored, nothing
sent) or Sent, and may die between any two steps. An admin's reconcile or retry is three steps (read,
look at the ledger, commit) that anything may interleave with. Money is an integer number of the
smallest unit of its column (cents, micro-UCTUSD, millionths), times are microseconds, a row's
position is its id, wallets are keyed by their unique user, and a hash is a position in the register
of everything ever signed. A worker may be refused or fail transiently before signing at any time.
A settlement message may be delivered at any time, any number of times or never, and its enqueue
may deliver and still raise; a burn message may be delivered any number of times once it was enqueued.

## What the environment must provide

- **E1** A locked read returns the current row. Three commits write "the balance I loaded plus my
  amount" after a `FOR UPDATE` select that does not reload an object already in the session
  (`expire_on_commit` is off): the credit, after `provision_wallet` loaded the wallet
  (`app/workers/settlement_worker.py:283`, then `:144-161`); the restore, after `process_burn` loaded it
  (`app/workers/cashout_worker.py:253`, then `:195-198`); and the debit in `approve`, listed as an open
  risk in `docs/process/AUDIT.md:42-43`. So E1 is not a formality: two settlements of one recipient on
  two workers can lose a credit, and `StaleReads.LostCredit` is that run. `StaleReads.StaleCommitExactly`
  says when a commit is right all the same: exactly if the balance did not change between the read and
  the commit. The theorems are about the protocol as designed, with current rows.
- **E2** A job takes its last step before its claim is ten minutes old (the job timeout is five). Both
  workers persist a signature without looking at the row again. For burns, `Overdue.WithoutE2` is a run
  with two successful burns of one request, and `Overdue.LateSignExactly` says that an overdue worker may
  still sign exactly if the row is approved and unsigned and nobody alive holds its claim, which its own
  claim stamp on the row shows (`OwnStampIsEnough`); `LateSignIsFreeExactly` says the same in money, and
  `LateReleaseExactly` covers `release_claim`. For settlements, `OverduePay.WithoutE2` is a run with two
  successful payments of one remittance, and `OverduePay.LatePayExactly` the condition: the row is
  unsigned, processing or failed, and nobody alive works on it.
- **E3** Enqueuing a burn that raises delivered nothing, and an approval finishes publishing within
  the two-minute grace. The code itself says that Redis may accept a job and still raise
  (`app/services/cashin_service.py:209-217`), and `_publish` of the cash-out desk restores on status
  approved alone. `Ambiguity.WithoutE3` is a run with a restored reserve whose burn succeeds.
  `Ambiguity.LateRestoreExactly`: a restore is right exactly if no burn can still land, which for an
  unsigned row means that nobody alive holds its claim. `Ambiguity.GuardIsSafeExactly`: among guards that
  look at whether a burn is signed, at the age of the claim and at whether the recorded range is empty,
  the right ones are those that pass only rows with an empty range, and unsigned rows whose claim is
  absent or at least ten minutes old. The worker's own test for a claimable row is one of them.
- **E4** Ledger rules: the index only grows; a transaction is included at most once, only if it was
  sent and is well formed, at an index after the one read before signing and up to its
  LastLedgerSequence; validated results are final; wallets move only through the platform.
- **E5** The lookup, the latest index and `complete_ledgers` describe one validated state. The code
  makes three requests, the lookup first. `Evidence.SplitReadsExactly` gives the exact condition
  under which separate reads are still a proof: the server that answered the lookup had itself
  passed the deadline with full history (or the range is empty). `SplitReads.WithoutE5` is a run with
  two successful payments of one remittance.
- **E6** Persisting hash and range commits fully or raises with nothing written.
- **E7** Two writes of one transaction row carry different time stamps, which the `updated_at` guard
  of a retry needs. `Collisions.ResendForgetsExactly`: under a collision a re-send keeps every signed
  payment traceable exactly if the status moved or no worker signed for the row since it was read.
  `Collisions.WithoutE7` is a run in which a hash is lost and one remittance is paid twice.

The balance check of the ledger itself is part of E4: a burn succeeds only if its account holds the
amount. `Guarantees.BurnIsFunded` proves that every approved burn is.

## Results worth knowing

- The bound in "a ZAR round trip never gains a cent" is exact: it holds for every configuration and
  send if and only if the market rate is at most 10 000 ZAR per USD (`FxLaws.RoundTripExactly`).
- `approve`'s insufficient-balance refusal is unreachable (`Guarantees.ApproveNeverShort`), and so is
  the branch of `complete_settlement` for a missing wallet row (`Guarantees.NoOrphanedPayment`).
- `process_burn` answers a missing wallet row by failing the request, but the restore then raises on
  the same missing row and rolls the transition back; the model follows the code
  (`Database.Store.FailAndRestore`). No reachable state has such a request.

## Model

| member | source | states |
|---|---|---|
| Guarantees.CacheVersusLedger | app/models/wallet.py:35-38 | On every run, for every wallet: ledger balance minus cached balance is exactly the validated payments not yet completed plus the approved requests whose burn has not validated as a success; so 0 <= cache <= ledger |
| Guarantees.CacheIsExactAtRest | app/models/wallet.py:35-38 | With no such payment and no such request, cache and ledger are equal |
| Guarantees.Conservation | app/services/cashout_service.py:272-305 | Every balance is the settlements credited to it minus its approved and completed cash-outs, and covers its pending requests, so it is never negative |
| Guarantees.ApproveNeverShort | app/services/cashout_service.py:280-285 | Approving any pending request of any reachable state succeeds: neither the wallet nor the balance refusal can happen |
| Guarantees.BurnIsFunded | app/services/cashout_service.py:287-305 | An approved request whose burn has not landed is covered by the recipient's balance on the ledger |
| Guarantees.FailedCashOutNeverBurns | app/workers/cashout_worker.py:162-203 | Once a cash-out is failed its row never changes again, and no burn signed for it, then or later, is or ever becomes a success |
| Guarantees.CompletedCashOutBurnt | app/workers/cashout_worker.py:124-159 | A completed cash-out was paid out, its hash is a validated success for its own user, amount and range, and no other burn was ever signed for it |
| Guarantees.CashOutResolvesOnce | app/models/cashout.py:46-49 | On any run a cash-out is reserved at most once, and is restored, paid out or rejected at most once in all |
| Guarantees.AtMostOnePaymentSucceeds | app/services/cashin_service.py:398-434 | Over any number of retries, two successful payments of one transaction are the same payment |
| Guarantees.PaidAndCreditedOnce | app/workers/settlement_worker.py:114-165 | On any run a transaction is paid at most once and credited at most once |
| Guarantees.ArchivedNeverLands | app/services/cashin_service.py:370-395 | A retired attempt stays in the history, in place, and is dead in every later state |
| Guarantees.NoOrphanedPayment | app/workers/settlement_worker.py:144-161 | A successful payment is the live hash of its row, the row is processing, failed or completed, and the recipient's wallet row exists |
| Guarantees.TrailIsComplete | app/models/transaction.py:103-121 | The archived hashes and then the live one are exactly the hashes ever signed for the transaction, each once, in signing order, each with the range it was signed with |
| Refinement.StepSimulates | app/services/cashout_service.py:272-305 | Every atomic step of every actor is one event of the exactly-once machine, possible there, with the same balances and rows, or changes nothing that machine sees |
| Refinement.RunSimulates | app/workers/settlement_worker.py:81-111 | Every run, with duplicated, lost and reordered messages, crashes and repeated sweeps, is a run of the exactly-once machine ending in the same books |
| Refinement.IncludeSimulates | app/workers/settlement_worker.py:265-293 | A payment or burn that the ledger validates is that of its row's live hash, and the row was still waiting for it |
| Refinement.ResendSimulates | app/services/cashin_service.py:436-461 | A re-send of a dead attempt moves no money |
| Money.StepKeepsSound | app/models/cashout.py:46-49 | Each event of the exactly-once machine keeps every wallet's cache, ledger balance and pending total in balance |
| Money.LedgerMinusCache | app/models/wallet.py:35-38 | In sound books the ledger exceeds the cache by exactly what is in flight |
| Money.RequestsAreCovered | app/services/cashout_service.py:147-161 | In sound books the cache covers each pending request |
| Money.ReservesAreFunded | app/models/cashout.py:46-49 | In sound books the ledger balance covers each reserved burn |
| Money.AtMostOnce | app/workers/cashout_worker.py:171-174 | In any run at most one of a set of alternative moves of one row happens, and at most once |
| Preservation.RunKeepsInv | app/workers/cashout_worker.py:84-121 | The row, job, page and message invariant holds at the end of every run |
| Preservation.ClaimableIsIdle | app/workers/cashout_worker.py:52-55 | A row that a burn worker may claim has no live worker |
| Preservation.PayPersistKeeps | app/workers/settlement_worker.py:267-280 | Persisting hash and range for a payment keeps every other row, job and page right |
| Preservation.BurnPersistKeeps | app/workers/cashout_worker.py:260-272 | The same for a burn, whose worker is the only owner of the row |
| Preservation.ResentRowOk | app/services/cashin_service.py:370-395 | Archiving a dead attempt forgets no hash and keeps the history dead, ranged and in order |
| Preservation.LandedIsLive | app/services/cashin_service.py:426-434 | A payment that succeeded is the live attempt of its row |
| History.RunEvolves | app/models/cashout.py:42-49 | Over any run, terms, final rows, recorded burn hashes, validated results and the history are never rewritten |
| Timing.UnsignedIsNeverForgotten | app/services/cashout_service.py:418-435 | In every reachable state, whoever else is alive: an unsigned approved cash-out is selected by the sweep from an instant at most ten minutes away, and is claimable whenever it is selected; before that, a row still publishing is within its grace, a live worker on it holds its claim, and the sweep takes neither |
| Timing.SelectableWithinTenMinutes | app/services/cashout_service.py:398-416 | On every continuation of every run: once the clock has moved more than ten minutes, such a row is final, or signed, or was claimed again in between, or is selected by the sweep and claimable |
| Progress.SweepRevives | app/services/cashout_service.py:418-448 | From every reachable state, even if every process dies at once, an unsigned approved row is under a live worker again within ten minutes and a microsecond |
| Progress.EvidenceEnds | app/services/cashout_service.py:363-389 | Whatever others do between a reconcile's look and its commit: once the hash was found, or is past its deadline with full history, the commit leaves the request completed or failed |
| Progress.ReconcileResolves | app/services/cashout_service.py:372-389 | Past the deadline, three steps of one admin with full history end a signed cash-out, with everybody else alive |
| Progress.NoCashOutIsStranded | app/services/cashout_service.py:398-416 | From every reachable state, after the death of every process, an approved cash-out that can end without its worker is brought to completed or failed within ten minutes and a microsecond |
| Endings.CashOutCanEndExactly | app/services/cashout_service.py:372-389 | In every reachable state an approved cash-out has a run that ends it if and only if nothing is signed, or the burn has a result or a deadline, or is with a live worker, or was sent and is well formed |
| Progress.RankNeverRises | app/workers/cashout_worker.py:94-114 | The distance of a cash-out from its end never grows, over any run |
| Progress.WorkerPassLowersRank | app/workers/cashout_worker.py:226-238 | A claim followed by anything but a death strictly lowers that distance |
| Bounds.UnwatchedBurnsAreHeld | app/workers/cashout_worker.py:206-223 | A signed, approved cash-out that no worker watches, and whose workers all lived, is held as awaiting the ledger |
| Delivery.QueuedIsDelivered | app/workers/settlement_worker.py:245-327 | A queued settlement can be claimed, signed, persisted, submitted, validated and completed with everybody else alive and undisturbed |
| Delivery.RetryCredits | app/services/cashin_service.py:421-430 | A validated payment of a failed or stuck row is credited, in full, by the three steps of one retry, with everybody else alive |
| Delivery.Resends | app/services/cashin_service.py:436-468 | A failed or stuck row whose attempt is dead or was never signed goes back to queued by one retry, with everybody else alive |
| Pages.RetryCommitSettles | app/services/cashin_service.py:426-430 | Every retry that has seen its payment landed leaves the row completed, however long its commit takes and whatever others did; it credits in full unless that was done |
| Delivery.NoRemittanceIsStranded | app/services/cashin_service.py:406-420 | From every reachable state, after the death of every process, a remittance that can be completed without its worker is completed by its message or by one retry |
| Endings.RemittanceCanCompleteExactly | app/services/cashin_service.py:340-367 | In every reachable state a remittance has a run that completes it if and only if its cash-in has not failed and its payment is unsigned, has a result or a deadline, or is well formed and was sent or is with a live worker |
| Bounds.AttemptsAreBounded | app/workers/settlement_worker.py:210-242 | The attempts column of a queued settlement is below three, and that of a burn at most three plus one per dead worker |
| Counting.ClaimsAreCounted | app/workers/settlement_worker.py:101-104 | In every run the number of claims of a burn, and of a settlement since its last re-send, is exactly its attempts column; so at most three plus one per dead worker, and at most three |
| Bounds.DelaysAreInTheTable | app/workers/cashout_worker.py:230-236 | Whenever a worker may re-queue, its delay is the table entry of its attempt, in both workers |
| Bounds.LimitsAreNeverExceeded | app/services/limit_service.py:118-171 | On every run, what a sender has booked and not failed in any local day or month stays within the tier's limit |
| Limits.InsertKeepsLimit | app/services/cashin_service.py:150-206 | A send that passed the check keeps every window within its limit even when a window edge falls between check and insert |
| Limits.DecisionsKeepLimit | app/services/limit_service.py:68-84 | Confirming, failing or expiring cash-ins never pushes a window over its limit |
| Limits.RemainingIsWhatCanBeSent | app/services/limit_service.py:145-171 | The remaining figures reported are exactly the most that the same check allows |
| Limits.SumIsTheWindow | app/services/limit_service.py:68-84 | With no row dated after the clock, what is summed since a window began is exactly what was booked in that window |
| Desks.LimitCheckExactly | app/services/limit_service.py:118-171 | On every run, a send is allowed if and only if the tier has a limit and, with it, the current day's and the current month's bookings stay within the two limits |
| Desks.RemainingExactly | app/services/limit_service.py:145-148 | On every run, what is reported as remaining is what the limits leave of the current day and month, never negative |
| Desks.RemittanceIsBookedExactly | app/services/cashin_service.py:165-206 | A remittance is booked if and only if it is quoted at the very rate, fee and amount the sender accepted and the limits allow it; the new row carries that quote, pending or declined, with nothing queued, and nothing else changes |
| Desks.ExpiryExactly | app/services/cashin_service.py:314-333 | The expiry fails exactly the pending cash-ins booked more than 24 hours ago and changes no other row |
| Desks.RequestIsAcceptedExactly | app/services/cashout_service.py:201-237 | A cash-out is accepted if and only if the wallet's balance covers it and everything pending, it has a price, and that is still the price shown; it is recorded at that price and no balance moves |
| Xrpl.DeathProofSound | app/services/cashin_service.py:340-367 | Not found, newest ledger past the deadline and full coverage of the range: the transaction is in no ledger |
| Xrpl.DeadIsForever | app/services/xrpl_service.py:86-98 | A dead transaction can be included at no later index, even if its worker submits it only then |
| Xrpl.VerdictSound | app/services/cashout_service.py:347-352 | Reconcile's completed means the burn succeeded, its failed means the burn is dead |
| Xrpl.VerdictComplete | app/services/cashout_service.py:372-389 | Past the deadline with full coverage, reconcile always decides |
| Evidence.SplitReadsExactly | app/services/cashin_service.py:427-434 | Reading deadline and coverage after the lookup proves death if and only if the answering server had passed the deadline with every ledger of the range, or the range is empty |
| Evidence.LateInclusion | app/services/cashout_service.py:363-381 | A transaction validated between the lookup and the later reads breaks the proof |
| Evidence.HiddenInclusion | app/services/cashin_service.py:363-367 | So does one in a ledger that the server answering the lookup did not hold |
| Collisions.ResendForgetsExactly | app/services/cashin_service.py:436-461 | In every reachable state with an admin about to re-send a row as read earlier in the run, if the last write carried the stamp that was read: every signed payment stays traceable if and only if the status moved or no worker signed for the row since the read |
| Collisions.WithoutE7 | app/services/cashin_service.py:436-461 | From an empty platform, two admins and colliding stamps erase a signed hash, and one remittance is paid twice |
| SplitReads.SplitRetryPaysTwice | app/services/cashin_service.py:426-434 | In every reachable state where a retry's lookup found nothing and the payment can still be validated, later reads of deadline and coverage have a run to two successful payments |
| SplitReads.SplitReconcileRestoresBurnt | app/services/cashout_service.py:363-389 | In every reachable state where a reconcile's lookup found nothing and the burn can still be validated, later reads have a run to a restored cash-out whose burn succeeded |
| SplitReads.WithoutE5 | app/services/cashin_service.py:426-434 | From an empty platform, split reads pay one remittance twice |
| StaleReads.StaleCommitExactly | app/workers/settlement_worker.py:144-161 | Whatever commit moves a balance, and whatever happens between a session's read and it: the books are right if and only if the balance did not change between |
| StaleReads.LostCredit | app/workers/settlement_worker.py:282-293 | From an empty platform, two settlements of one recipient on two workers lose one of the credits |
| Overdue.LateSignExactly | app/workers/cashout_worker.py:260-272 | In every reachable state, an overdue worker's unconditional persist keeps the cash-out signed once over all continuations if and only if it is approved and unsigned and nobody alive holds its claim |
| Overdue.LateSignIsFreeExactly | app/workers/cashout_worker.py:24-26 | In money: over all continuations of a late signature no cash-out is burnt twice and none is burnt and failed, if and only if it is approved and unsigned and nobody alive holds its claim (for a final one, given that the account can bear one more burn; for a signed approved one, while its recorded burn has landed or can) |
| Overdue.OwnStampIsEnough | app/workers/cashout_worker.py:84-103 | If the row still carries the overdue worker's claim, or none, the late signature is harmless |
| Overdue.LateReleaseExactly | app/workers/cashout_worker.py:117-121 | A late release of the claim keeps it signed once over all continuations if and only if no live worker still has to sign |
| Overdue.WithoutE2 | app/workers/cashout_worker.py:52-55 | From an empty platform, a job that outlives its claim leads to two successful burns of one cash-out |
| OverduePay.LatePayExactly | app/workers/settlement_worker.py:267-280 | In every reachable state, an overdue settlement worker's unconditional persist keeps the row soundly paid over all continuations (every payment on the row, only the live one alive, nothing jammed) if and only if it is unsigned, processing or failed, and nobody alive works on it |
| OverduePay.WithoutE2 | app/services/cashin_service.py:291 | From an empty platform, a worker that outlives its claim and a re-send lead to two successful payments of one remittance |
| Ambiguity.LateRestoreExactly | app/services/cashout_service.py:240-248 | In every reachable state, a publisher's restore keeps "no burn of it ever succeeds" over all continuations if and only if no burn can still land; for an unsigned row, if and only if nobody alive holds the claim |
| Ambiguity.GuardIsSafeExactly | app/services/cashout_service.py:240-248 | Among guards on signature, claim age and empty range, those that make every restore right are exactly the ones that pass, of the rows that can occur, only unsigned ones whose claim is absent or at least ten minutes old, and ones with an empty range |
| Ambiguity.ClaimableMayBeRestored | app/workers/cashout_worker.py:95-103 | In every reachable state, a row that a worker may claim may be restored: no burn of it ever succeeds |
| Ambiguity.ClearExactly | app/workers/cashout_worker.py:52-55 | Such a row is claimable, or its claim is exactly ten minutes old, or its range is empty |
| Ambiguity.WithoutE3 | app/services/cashin_service.py:209-217 | From an empty platform, a burn enqueue that delivers and raises leads to a failed, restored cash-out whose burn succeeds |
| Outcomes.UnsetOutcomeIsConservative | app/services/xrpl_service.py:120-142 | A result with no outcome is a success exactly if it says so, retryable exactly if it failed unsigned, and never a proven failure |
| Outcomes.FailedExactly | app/services/xrpl_service.py:182-210 | FAILED is reported if and only if a reliable-submission error carries a validated failure or a malformed rejection; everything else is UNKNOWN |
| Outcomes.ValidatedFailureExactly | app/services/xrpl_service.py:72-75 | Exactly the texts of a validated failure are read as one, with their code |
| Outcomes.MalformedExactly | app/services/xrpl_service.py:76-78 | Exactly the texts that start with a malformed code and a colon are read as a rejection, with that code |
| Outcomes.QuotedCodeIsUnknown | app/services/xrpl_service.py:57-66 | Every message that starts neither like a validated failure nor like a malformed code is UNKNOWN, whatever codes it quotes |
| Outcomes.TimeoutIsUnknown | app/services/xrpl_service.py:204-208 | The deadline message is a timeout with outcome UNKNOWN for every preliminary code |
| CompleteLedgers.ParseCompleteLedgers | app/services/xrpl_service.py:439-454 | The loop returns the ranges of the readable chunks, in order |
| CompleteLedgers.ParseUndoesPrint | app/services/xrpl_service.py:439-454 | Parsing the printed form of an interval list of any length gives the list back |
| CompleteLedgers.ChunkRangeExactly | app/services/xrpl_service.py:442-453 | A chunk contributes a range if and only if, without surrounding blanks, it is one number or two joined by its first dash |
| CompleteLedgers.ParseIntExactly | app/services/xrpl_service.py:447-451 | A text is read as a number if and only if, stripped, it is an optional sign and digits with single underscores between them, and then as the number they denote |
| CompleteLedgers.SplitExactly | app/services/xrpl_service.py:442 | Joined again at the commas, the chunks are the text |
| CompleteLedgers.StripExactly | app/services/xrpl_service.py:443 | Stripping takes away exactly the surrounding blanks |
| CompleteLedgers.UnreadableChunkIsIgnored | app/services/xrpl_service.py:452-453 | A chunk that cannot be read adds nothing wherever it stands |
| CompleteLedgers.CoverageHasAWitness | app/services/xrpl_service.py:457-471 | Coverage is reported if and only if some single chunk reads as a covering range, so an unreadable one can never create it |
| CompleteLedgers.CoverageReportsEveryLedger | app/services/xrpl_service.py:460-466 | Coverage of a window reports every ledger in it |
| FxLaws.QuoteAccountsForTheSend | app/services/fx_service.py:161-223 | Fee plus net is the send; UCTUSD is within half a micro-unit of the exact conversion and is accepted unchanged by the ledger amount; a refusal means nothing is left to convert |
| FxLaws.QuoteUsesTheConfiguration | app/services/fx_service.py:179-210 | The send is the amount entered to the cent, the fee the fixed part plus the share, the rate the market rate with the margin, the payout what the cash-out fee leaves, each to its nearest unit |
| FxLaws.QuoteIsGivenExactly | app/services/fx_service.py:226-248 | A send is quoted if and only if it reaches the configured minimum and at least half a micro-UCTUSD is left after the fee |
| FxLaws.CashoutPaysWhatIsLeft | app/services/fx_service.py:139-158 | A dollar cash-out pays exactly the amount less its fee, a rand one that difference at the market rate to the nearest cent; a cash-out is refused if and only if that rounds to nothing |
| FxLaws.QuotesAreMonotone | app/services/fx_service.py:226-248 | With a percentage fee of at most 100%, a larger send converts to no less, and sends above an accepted one are accepted |
| FxLaws.RoundTripExactly | app/services/fx_service.py:139-158 | The ZAR payout estimate never exceeds the net ZAR converted, for any configuration and send, if and only if the market rate is at most 10 000 |
| FxLaws.RoundTripNeverGains | app/services/fx_service.py:179-210 | The same for one configuration and send, through all four roundings |
| FxLaws.CashoutFeeHasItsFloor | app/services/fx_service.py:125-136 | The fee is the larger of floor and percentage to the nearest micro-dollar, and grows no faster than the amount |
| FxLaws.PayoutsAreMonotone | app/services/cashout_service.py:118-144 | A larger cash-out never pays less, and amounts above an accepted one are accepted |
| FxLaws.PricedCashoutIsPositive | app/services/cashout_service.py:130-135 | A priced cash-out exceeds its fee and pays something |
| FxLaws.ParsedAmountIsUsable | app/services/cashout_service.py:80-107 | An accepted amount is within half a micro-unit of what was typed and reaches the ledger unchanged; a refusal means less than half a micro-unit |
| Fx.HalfUp | app/services/fx_service.py:25-26 | The result is within half a step of the exact fraction, ties go away from zero |
| Fx.HalfUpUnique | app/services/fx_service.py:25-26 | Only one integer meets that description |
| Luhn.LuhnOk | app/services/cashin_service.py:92-99 | The loop decides whether the weighted digit total is a multiple of ten |
| Luhn.WeightsAre | app/services/cashin_service.py:92-99 | A digit at an odd place from the right weighs the digit sum of its double, any other itself |
| Luhn.TestCardIsValid | app/services/cashin_service.py:108-109 | The test card, eight times 42, is valid |
| Luhn.DeclinedCardIsValid | app/services/cashin_service.py:35-36 | So is the card that is always declined |
| Luhn.SingleErrorDetected | app/services/cashin_service.py:92-99 | Changing any one digit of a valid number of any length makes it invalid |
| Luhn.TranspositionDetected | app/services/cashin_service.py:92-99 | Swapping two neighbours of a valid number stays valid if and only if they are equal or are 0 and 9 |
| Luhn.CheckDigitIsUnique | app/services/cashin_service.py:92-99 | Exactly one check digit completes any prefix |
| Jobs.SweepIsExact | app/services/cashout_service.py:418-448 | The sweep republishes exactly the approved, unsigned rows past their window that the queue takes, and each is claimable at once |
| JobLaws.ResolutionExactly | app/services/xrpl_service.py:251-262 | A signed job concludes success exactly from a validated tesSUCCESS, failure exactly from another validated code or a message that proves it, and never that nothing was submitted |
| JobLaws.TrueAnswersDecide | app/workers/cashout_worker.py:291-307 | If the answer is true of the transaction, success is concluded only of one that succeeded, failure only of one that was rejected or is malformed, and a validated answer decides |
| JobLaws.BurnJobExactly | app/workers/cashout_worker.py:241-313 | A burn message for a claimable row: paid out with no balance moved on success; failed with the amount back on proof of failure, a bad amount or a third transient failure; held on no proof; released with its delay on an earlier transient failure; hash and range recorded exactly if signed |
| JobLaws.OtherBurnJobs | app/workers/cashout_worker.py:248-256 | Any other burn message is skipped or raises, and moves no balance |
| JobLaws.PayJobExactly | app/workers/settlement_worker.py:245-327 | A settlement message for a claimable row: credited in full on success, failed on any other signed end, a bad amount or a third transient failure, queued again with its delay before that; no other balance moves |
| JobLaws.ReconcileExactly | app/services/cashout_service.py:358-389 | For every row and answer: tesSUCCESS completes and moves no balance; any other code, or none past the deadline with full history, fails the row and returns the amount; otherwise nothing changes |
| JobLaws.RetryExactly | app/services/cashin_service.py:421-461 | For every row and answer: credited if and only if something was signed and the answer is tesSUCCESS; re-sent, archive and all, if and only if nothing was signed, the answer is another code, or it is none and the range has lapsed; refused otherwise, changing nothing |
| JobRuns.ReconcilePageIsTheJob | app/services/cashout_service.py:363-389 | An admin's look leaves something to commit exactly if the evidence decides, and the commit does exactly what the job does |
| JobRuns.RetryPageIsTheJob | app/services/cashin_service.py:426-461 | The same for a retry: landed, dead or refused exactly as the evidence says |
| JobRuns.SignedBurnIsARun | app/workers/cashout_worker.py:274-313 | A burn job that signs and gets an answer that is true on the ledger leaves exactly the rows of a run of the protocol, whatever time and ledger do meanwhile |
| JobRuns.UnsignedBurnIsARun | app/workers/cashout_worker.py:274-289 | So does one that signs nothing |
| JobRuns.SignedPaymentIsARun | app/workers/settlement_worker.py:282-327 | A settlement job that signs and gets an answer that is true on the ledger leaves exactly the rows of a run of the protocol |
| JobRuns.UnsignedPaymentIsARun | app/workers/settlement_worker.py:282-308 | So does one without a trusted wallet, with an unusable amount, or that fails before the hash is kept |
| JobRuns.ReconcileIsARun | app/services/cashout_service.py:338-389 | An uninterrupted reconcile leaves exactly the rows of a run of the protocol |
| JobRuns.RetryIsARun | app/services/cashin_service.py:398-468 | So does an uninterrupted retry, up to its commit |
| Database.Store.CreateRequest | app/services/cashout_service.py:182-237 | Refuses, changing nothing, or appends one pending request priced now; accepted only within balance less pending requests |
| Database.Store.Approve | app/services/cashout_service.py:251-310 | Debits and approves in one transaction, or refuses for the first reason that applies and changes nothing |
| Database.Store.Reject | app/services/cashout_service.py:313-335 | Fails a pending request without touching any balance |
| Database.Store.Reconcile | app/services/cashout_service.py:338-389 | Does and answers for every row and every evidence what JobLaws.ReconcileExactly says |
| Database.Store.SweepUnpublished | app/services/cashout_service.py:392-448 | The loop republishes the selected rows the queue accepts, in order, and changes no row |
| Database.Store.ClaimBurn | app/workers/cashout_worker.py:84-114 | Claims and counts an attempt if and only if the row is approved, unsigned and not freshly claimed |
| Database.Store.ReleaseClaim | app/workers/cashout_worker.py:117-121 | Clears the claim stamp and nothing else |
| Database.Store.RememberBurn | app/workers/cashout_worker.py:260-272 | Hash and both ends of the range land together |
| Database.Store.CompleteBurn | app/workers/cashout_worker.py:124-159 | Completes and pays out an approved row once; no balance moves; otherwise changes nothing |
| Database.Store.FailAndRestore | app/workers/cashout_worker.py:162-203 | Fails an approved row and returns its amount to the wallet together; otherwise, or without a wallet row, nothing changes |
| Database.Store.HoldUnknown | app/workers/cashout_worker.py:206-223 | Marks an approved row as held and keeps status, hash and balance |
| Database.Store.RetryOrFailBurn | app/workers/cashout_worker.py:226-238 | Releases the claim with the delay of that attempt, or fails and restores after the third |
| Database.Store.ProcessBurn | app/workers/cashout_worker.py:241-313 | One message, start to end, as JobLaws.BurnJobExactly describes; a claimed row answered tesSUCCESS ends completed with no balance moved, one answered with any other validated code ends failed with the amount returned |
| Database.Store.ClaimPay | app/workers/settlement_worker.py:81-111 | Claims and counts an attempt if and only if the row is queued, received and unsigned |
| Database.Store.RememberPay | app/workers/settlement_worker.py:267-280 | Hash and both ends of the range land together |
| Database.Store.CompleteSettlement | app/workers/settlement_worker.py:114-165 | Completes from the expected status and credits the recipient's wallet, if it exists, together; otherwise changes nothing |
| Database.Store.FailSettlement | app/workers/settlement_worker.py:168-207 | Fails from the expected status only, keeping the hash unless one is given |
| Database.Store.RetryOrFailPay | app/workers/settlement_worker.py:210-242 | Back to queued with the delay of that attempt while still processing, or failed after the third |
| Database.Store.ProvisionWallet | app/services/xrpl_service.py:330-365 | Reuses or creates the one wallet row, never touching a balance; the trust line is set once and stays |
| Database.Store.ProcessSettlement | app/workers/settlement_worker.py:245-327 | One message, start to end, as JobLaws.PayJobExactly describes; a claimed row answered tesSUCCESS ends completed and credited, one answered with any other validated code ends failed with no balance moved |
| Database.Store.MarkReceived | app/services/cashin_service.py:231-263 | A pending cash-in becomes received and queued, once |
| Database.Store.MarkCashinFailed | app/services/cashin_service.py:266-288 | A pending cash-in becomes failed, once |
| Database.Store.ExpireStaleCashins | app/services/cashin_service.py:301-337 | Fails exactly the pending rows older than the window and reports how many |
| Database.Store.Resend | app/services/cashin_service.py:436-464 | Re-queues with a clean attempt and the archive, only if the row is still as it was read |
| Database.Store.RetrySettlement | app/services/cashin_service.py:398-464 | Does and answers for every row and every evidence what JobLaws.RetryExactly says |

## Left out

- Progress.NoCashOutIsStranded: states that a finishing run exists, not that a scheduler takes it; what holds on every run is Timing.SelectableWithinTenMinutes and Progress.EvidenceEnds.
- Delivery.NoRemittanceIsStranded: likewise; the treasury's own balance is not modelled, so a payment can always be validated.
- Delivery.QueuedIsDelivered: needs three microseconds before the nearest deadline of another process, since E2 lets no deadline pass.
- Bounds.LimitsAreNeverExceeded: tier limits are fixed during a run, and every sender is on the one tier that `create_remittance` requires.
- CompleteLedgers.ParseCompleteLedgers: blanks and digits are ASCII; Python also accepts other Unicode blanks and digits.
- FxLaws.ParsedAmountIsUsable: starts from the exact decimal; its text syntax, the finiteness test and the 28-digit context of Decimal are not modelled.
- Outcomes.FailedExactly: the exception's type test is a parameter; the wording is that of xrpl-py 4.0.0.
- Database.Store.ProcessSettlement: the recipient column is never null in the model, so the `recipient_not_registered` branch is absent; `create_remittance` always sets it.
- Database.Store.CreateRequest: the missing fee configuration and the KYC, beneficiary and recipient checks of both desks are refusals before any write and are left out.
- JobRuns.SignedBurnIsARun: what a worker is told must be true of the ledger (E4): a validated code is the transaction's own, and a client error means what its text says.
- Overdue.LateSignIsFreeExactly: an approved row whose recorded burn can no longer land is covered by Overdue.LateSignExactly only; there it depends on who still holds evidence about the old burn.
- OverduePay.LatePayExactly: nobody alive is in the last microsecond of its time, since E7 keeps such a worker from writing again; other late writes of a settlement worker are conditional on status processing and are not analysed.
- Overdue.LateSignExactly: what an overdue worker makes of the ledger's answer is not part of the late step; its later commits are conditional on status approved, and reconcile covers their absence.
- StaleReads.StaleCommitExactly: models the loaded balance as a number remembered by the session, not SQLAlchemy's identity map.
- A re-queue that raises after the claim was released: the row is as after a lost message, which the sweep revives.
- Treasury sequence numbers and the Redis lock: uniqueness of payments does not rest on them in the model.
- The SQLAlchemy identity map, isolation levels and failed commits: covered by E1 and E6.
- XRPL client code, key handling, faucet and trust-line transactions, Redis and RQ: replaced by E2 to E4 and steps that may happen at any time.
- Time zones and calendar arithmetic: a day or month start is any monotone function of the clock that never exceeds it.
- Card checks other than the Luhn digit sum, message texts, logging, AML flags, monitors, lists, counts and labels: they move no money.
- Editing the fee configuration or a tier: every quote and request carries a snapshot of the configuration in force, which may differ from one step to the next.
- Routers, templates, sessions, authentication, profiles and front-end code.
