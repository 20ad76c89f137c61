# A ticketing back end, modelled and proved

The back end sells tickets of events kept on a ledger that may accept, refuse or
leave a write without a verdict. Its guarantees are about requests that race:
holds, granted issuances and paid checkouts compete for an event's capacity, its
classes' quotas and its seats; payments arrive late or twice; organisers close
sales while buyers pay; readers copy the ledger's log; schedulers stop half-way.

## How it is modelled

**The primary sale** (`SaleProtocol.dfy` and the other `Sale*.dfy`) is one event's
sale as a state machine. The tables are maps; a step is one committed statement,
one exchange with the payment provider or the ledger, or one transaction's progress
to its next statement, so the steps of different requests interleave freely between
statements. What restrains them is what restrains the program: the event's
allocation lock, the row locks on holds, the store's unique indexes, and conditional
updates. A transaction's own writes are seen by others only when it commits, and a
crash or a refusal rolls it back at any stage. A run is a sequence of enabled steps
(`IsRun`, `After`); the main results hold at the end of every run from a new event.

* `SaleLocks`, `SaleRoom`, `SaleQuiet`, `SaleProgress`, `SaleCommit`: who may be
  where, and why what an allocation counted under the lock is still there when it
  records its own, although releases, lapses and extensions take no event lock.
  `Window` is what an allocation may rely on at each stage.
* `SaleMoney`, `SaleMoneySteps`, `SaleDeskSteps`, `SaleOutcomeSteps`: what hosted
  checkouts, sales, refunds and ledger writes have to do with each other.
* `SaleClosing`: what `releaseAll` has still to visit while it runs.
* `SaleSafety` puts these together; `SaleTheorems`, `SaleHolds`, `SaleVerdicts` and
  `SaleAnswers` state the results: what is never exceeded, how a hold lives, and what each
  verdict comes to.
* `SaleOutcomes` and `SaleRefunds` follow every payment to its outcome and every
  ticket of a cancelled event to its refund.
* `SaleStaleAnswer`, `SaleStatusCount`, `SaleOutcomes` and `SaleRefunds` each hold a
  promise that fails, with a concrete run that breaks it and the exact condition under
  which it is kept.
* `Payments` runs the operations from start to end as methods of a class over that
  machine, in the program's order; `PaymentEffects` says what each comes to.

**The derived copy** (`LedgerFacts`, `DerivedRows`, `DerivedReader`, `DerivedReaders`,
`DerivedFacts`): the tables are a class whose methods change them row by row, proved
equal to a function of one record; `DerivedRows` says from the log alone what every row
then is; the reader is a class whose batches commit whole or not at all; any number of
readers is a state machine around the position's row lock.

**Capacity proofs** (`CapacityProofs`) are a state machine of one event's queue.
**Admission flags** (`AdmissionFlags`) page, group and match with loops, proved equal
to a function of the reports and one log prefix, and each cause to be what the reports
and the log say. **Scheduled finish** (`FinishSchedule`, and what each pass comes to in
`FinishOutcomes`), **operator sessions** (`OperatorSessions`), **checkout pairing**
(`CheckoutPairing`) and **invitations** (`Invitations`) are state machines like the
sale. **The sponsor relay** is `SponsorRelay` (decisions whose reads see a copy that
advances between them), `SponsorRegistrations` with `RegistrationLimiter` (a class with
its map and its sweep), and `Scale` and `Sponsorship` (the codec; SCALE is the Polkadot Protocol
Specification, SCALE Codec, "Length and Compact Encoding").

## What is assumed

* A hosted checkout's end at the provider is final, `paid` included, and the answer
  carries the hold it was created for.
* The ledger issues tickets only of an active event, one per seat; a refused write
  did not land, one without a verdict may land later; an event is never active again
  once it was not; only this back end issues for it.
* A capacity write has its verdict while the event's lock is held. In the sale an
  approved proof raises the bound; `CapacityProofs` says when that is so.
* One clock that never goes back; for the scheduled finish, a ledger clock that runs
  less than the margin behind it. A running finish keeps its run lock.
* Owners of events, a ticket's event and a registration's decoding are functions of
  the log; log cursors are distinct.
* A zone's kind does not change while allocations of its seats run: an allocation reads
  whether its zone is seated before it locks (`src/events/issuance.ts:217-230`).
* Signatures and digests are ideal.

## Where the code keeps less than its documentation says

* `src/sales/payment.ts:748-834` leaves no hosted checkout payable, but a row may be
  marked open again afterwards: a webhook that asked the provider before the checkout
  was cancelled records its answer later (`src/sales/payment.ts:557-581`).
  `SaleStaleAnswer.ALateAnswerReopensARow` is such a run;
  `SaleStaleAnswer.RowsStayClosedExactlyWhen` says exactly when rows stay closed.
* `src/events/capacity.ts:78-95` writes the lower bound before the lapses it counted
  on are committed. If it stops in between, holds past their lifetime are recorded as
  outstanding above the bound. Holds that still stand (not expired, or being paid)
  never exceed it: `SaleTheorems.NeverOverAllocated`. What is recorded never does
  unless a decrease is lost like that: `SaleStatusCount.RecordedFitsCapacity`, and the
  run in `SaleStatusCount.ALostDecreaseExceedsByStatus`. A decrease is safe to lose
  exactly if its bound covers what is recorded before its own lapses, which is what
  it would have to count: `SaleStatusCount.LostDecreaseFitsExactlyWhen`.
* `src/sales/cancellation-refunds.ts:40-47` promises a refund for every purchased ticket
  of a cancelled event, but lists only sales issued or left without a verdict (lines
  69-78). A ticket on the ledger whose sale is still issuing then, and becomes issued
  later or never, is not refunded, and `releaseAll` does not wait for it:
  `SaleRefunds.ATicketMayBeLeft`. Every ticket has its refund, and keeps it, exactly when
  none of a sale still issuing was on the ledger when the recording listed:
  `SaleRefunds.RefundedExactlyWhen`.
* A `pay` that finds its checkout paid commits that status and reconciles the payment
  afterwards, once, without passing a failure on (`src/sales/payment.ts:620-626` and line 691),
  while the sweep visits only open rows (lines 851-857). So a checkout recorded as paid
  may be left with neither a sale nor a refund: `SaleOutcomes.AFoundPaymentMayBeLeft`.
  That is the only way, and it is settled exactly when a transaction of the payment
  commits: `SaleOutcomes.OneOutcomePerPayment`.
* A capacity request is checked to be an increase before it enters the queue and not
  when it is approved (`src/proofs/service.ts:121-208`). Approved after another one that
  raised the capacity in between, it lowers it, without any count:
  `CapacityProofs.ASecondApprovalMayLower`. Every approval raises exactly if the request's
  bound is no lower than the capacity when it enters the queue:
  `CapacityProofs.ApprovalsRaiseExactlyWhen`.
* Setting a finish schedule again keeps its id (`src/events/finish-schedule.ts:305-313`),
  so a later run can be settled by an earlier run's refusal
  (`src/events/finish-schedule.ts:236-255`): `FinishSchedule.ASecondRefusalBreaksIt`.
  Whatever happened before, setting an open event's schedule is safe exactly if none of
  its earlier submissions was refused: `FinishSchedule.SettingAgainIsSafeExactlyWhen`.
* A settling pass asks the ledger first (`src/events/finish-schedule.ts:219`) and reads the
  clock last (line 256). A submission accepted in between, at the end of its lifetime, is
  taken for one that never landed: the run is scheduled again, submits a second time, and
  the finish that succeeded is recorded refused: `FinishOutcomes.AnAcceptedFinishMayBeRefused`.
  Scheduling it again is safe exactly if none was accepted since the ledger was asked:
  `FinishOutcomes.SchedulingAgainIsSafeExactlyWhen`.

## Model

| member | source | states |
|---|---|---|
| Allocation.CapacityRoomMeans | src/sales/allocation.ts:189-226 | the event has room exactly when one more allocation on top of all live holds, counted grants and any tickets the ledger counts ahead of Kippu stays within the bound |
| Allocation.QuotaRoomMeans | src/sales/allocation.ts:232-244 | a class has room exactly when one more allocation of it stays within its quota |
| Allocation.AllocatedCountMeans | src/sales/allocation.ts:203-206 | a bound the allocated count fits under holds every live hold, every counted grant and every ticket the ledger counts |
| Allocation.CountsAddUp | src/sales/allocation.ts:139-181 | the holds counted apart by status are together the live ones, of the event and of the class |
| SaleLocks.ProgressKeepsLocks | src/sales/allocation.ts:30-51 | only the lock's holder is past waiting, and a locked hold row is its transaction's, while transactions progress |
| SaleLocks.CommitKeepsLocks | src/sales/allocation.ts:30-51 | the same across every commit under the event's lock |
| SaleLocks.TillKeepsLocks | src/sales/payment.ts:591-728 | the same across payments being started and holds being ended, which lock only a row |
| SaleQuiet.DeskIsQuiet | src/sales/holds.ts:174-206 | releases, lapses and extensions outside the event's lock only ease what stands against its room, and leave rows an allocation swept alone |
| SaleQuiet.TillIsQuiet | src/sales/payment.ts:591-728 | so do starting a payment and ending a hold, the extension of a hold that expired meanwhile included |
| SaleQuiet.OutcomeIsQuiet | src/sales/payment.ts:396-468 | so do the outcomes of issuances |
| SaleRoom.QuietKeepsWindows | src/sales/holds.ts:84-129 | what an allocation read or counted under the lock may still be relied on after any such step |
| SaleProgress.ProgressKeepsWindows | src/sales/allocation.ts:139-181 | what it reads holds when it reads it, its lapses recorded first |
| SaleCommit.PlaceKeepsRoom | src/sales/holds.ts:80-163 | a placed hold fits capacity, quota and seat although only its counts were read, earlier |
| SaleCommit.SellKeepsRoom | src/sales/payment.ts:327-379 | a payment that takes its hold's place, also a lapsed or released one's, fits capacity, quota and seat |
| SaleCommit.ReserveFitsCapacity | src/events/issuance.ts:109-131 | a granted issuance reserved fits the capacity |
| SaleCommit.ReserveFitsQuota | src/events/issuance.ts:132-137 | and its class's quota |
| SaleCommit.ReserveFitsSeat | src/events/issuance.ts:111-121 | and its seat |
| SaleCommit.ShrinkKeepsRoom | src/events/capacity.ts:55-95 | a decreased capacity holds everything that stands, before its lapses are committed |
| SaleCommit.CommitKeepsRoom | src/sales/allocation.ts:30-51 | every commit under the lock keeps seats, quotas and capacity, and every waiting request's ground |
| SaleMoneySteps.CommitKeepsBooks | src/sales/payment.ts:254-387 | every commit keeps checkouts, sales, refunds and writes in agreement, and what other requests know of them |
| SaleDeskSteps.TillKeepsBooks | src/sales/payment.ts:591-728 | so does every step of starting a payment or ending a hold; at most one open hosted checkout a hold |
| SaleDeskSteps.RecordKeepsBooks | src/sales/payment.ts:210-216 | so does recording a provider's answer, however old |
| SaleOutcomeSteps.OutcomeKeepsBooks | src/sales/payment.ts:396-555 | so do verdicts, lost verdicts, issuance outcomes and cancellation refunds; what each verdict records is `SaleVerdicts` |
| SaleOutcomeSteps.RejectEntitles | src/sales/payment.ts:434-455 | a rejected sale's payment had no refund yet, and what it asked is what was taken |
| SaleSafety.StepKeepsSafe | src/sales/payment.ts:254-834 | every step of every request keeps all of it |
| SaleSafety.ReachedIsSafe | src/sales/payment.ts:254-834 | so it holds in every state any run reaches from a new event |
| SaleTheorems.NeverOverAllocated | src/sales/allocation.ts:139-244 | in every reachable state a seat has at most one claim, no class exceeds its quota whatever the event's status, and an active event's standing holds and counted grants never exceed its capacity |
| SaleTheorems.LedgerWithinCapacity | src/sales/allocation.ts:183-226 | hence the ledger never counts more tickets of an active event than its capacity |
| SaleTheorems.HoldsMatchSales | src/sales/payment.ts:369-443 | a hold is issuing or confirmed exactly when it has a sale not rejected, never two, and confirmed exactly when that sale is issued |
| SaleOutcomes.OneOutcomePerPayment | src/sales/payment.ts:254-379 | every payment, over every run: it is handled exactly when one of its transactions committed; recorded as paid and not handled, it was found by a `pay`; handled, it was verified paid and has exactly one of a sale and a direct refund, and never two sales |
| SaleOutcomes.MoneyIsConserved | src/sales/payment.ts:292-455 | a payment settled by a transaction of its own, or recorded as paid and not merely found by a `pay`, is backed by an issued ticket whose face value is what was paid, by one refund of exactly that, or by a sale in doubt; ticket and refund go together only once the event was cancelled |
| SaleOutcomes.AFoundPaymentMayBeLeft | src/sales/payment.ts:614-692 | a run that ends with a checkout recorded as paid, neither sale nor refund for it, and no request at work |
| SaleTheorems.RunIsFinal | src/sales/payment.ts:226-251 | over any run refunds, tickets on the ledger and finished sales never change |
| SaleTheorems.RefundingAgainAddsNothing | src/sales/cancellation-refunds.ts:112-145 | a ticket's cancellation refund, once recorded, is there unchanged after any run, and recording it again then changes nothing |
| SaleTheorems.CommittingHandles | src/sales/payment.ts:276-379 | a payment whose transaction commits is handled and its row says paid |
| SaleTheorems.UnhandledIsDecided | src/sales/payment.ts:292-325 | an unhandled payment is found of another amount or its sales closed, never both, and goes on exactly when neither |
| SaleTheorems.CountedIsDecided | src/sales/payment.ts:335-379 | having read what it reads it is sold or refunded: never both, never neither |
| SaleTheorems.ReturnedReleasedAll | src/sales/payment.ts:748-834 | once `releaseAll` has returned, however requests interleaved with it, no hold is outstanding, nothing is payable at the provider and no payment is under way past its closed check |
| SaleTheorems.NothingStartsUntilReopened | src/sales/payment.ts:748-843 | until sales reopen that stays so and no sale starts |
| SaleClosing.ReturnedMeansReleased | src/sales/payment.ts:769-823 | listed and visited, nothing outstanding or payable is left |
| SaleClosing.PayCommitKeepsDrain | src/sales/payment.ts:610-684 | a payment that passed its closed check before the closure leaves its checkout on the list still to visit |
| SaleClosing.EndCommitKeepsHolds | src/sales/payment.ts:783-818 | a visited hold is over, or its payment is kept for reconciliation |
| SaleStaleAnswer.RowsStayClosedExactlyWhen | src/sales/payment.ts:557-581 | after `releaseAll` returned, rows stay closed on every run that does not reopen exactly when none is open and no answer "open" is still to be recorded |
| SaleStaleAnswer.ALateAnswerReopensARow | src/sales/payment.ts:557-581 | a run on which they do not |
| SaleStatusCount.RecordedFitsCapacity | src/events/capacity.ts:55-95 | while no decrease is lost after its write, everything recorded, expired holds included, fits the capacity, but for lapses a decrease is about to commit |
| SaleStatusCount.CoveringDecreasesFit | src/events/capacity.ts:55-95 | when every bound written to the ledger of an event on sale covers what is recorded before the decrease's own lapses, what is recorded fits the capacity in every reachable state, decreases lost at any point included |
| SaleStatusCount.LostDecreaseFitsExactlyWhen | src/events/capacity.ts:78-95 | from a decrease's write on, what is recorded fits on every run whose further decreases cover what is recorded, the loss of this one included, exactly when live holds and counted grants recorded before its lapses fit the bound it writes |
| SaleStatusCount.ALostDecreaseExceedsByStatus | src/events/capacity.ts:78-95 | a run on which it does not |
| SaleHolds.HoldsLiveOnce | src/sales/holds.ts:19-206 | over any run a hold keeps class, seat and price, is extended at most once and by five minutes, is never outstanding again, stays confirmed, and is recorded lapsed only past its lifetime |
| SaleHolds.AReleasedHoldIsOver | src/sales/holds.ts:185-195 | a release ends the hold if it was outstanding, as lapsed exactly past its lifetime; it no longer counts, its seat is free, and every other hold is as it was |
| SaleHolds.LapsedHoldsAreOver | src/sales/holds.ts:197-204 | a sweep takes exactly the outstanding holds past their lifetime that it names from those that count |
| SaleHolds.AnExtendedHoldStandsLonger | src/sales/holds.ts:174-183 | an extension lets the hold stand five minutes longer, and cannot be made again |
| SaleVerdicts.AGrantIsItsHistory | src/events/issuance.ts:86-268 | over every run a granted issuance's row is what happened to it says: reserved pending, once ended recorded as it ended, deleted when nothing was signed |
| SaleVerdicts.AVerdictFreesExactlyWhen | src/events/issuance.ts:155-174 | in every reachable state a verdict takes the grant from those that count, and frees its seat, exactly if the ledger refused it; every other grant and table is as it was |
| SaleVerdicts.ARefusedOneTakesNothing | src/sales/allocation.ts:139-244 | after any run a grant whose refusal was recorded takes no room: a hold or another grant has its place exactly as if it had never been reserved |
| SaleVerdicts.ASaleIsItsHistory | src/sales/payment.ts:369-468 | over every run a sale is not there, started, or started and over once, its row says which, and hold, ledger write and refund agree with it |
| SaleVerdicts.CapacityIsTheLastWritten | src/events/capacity.ts:55-95 | after any run the event's capacity is the last bound written to the ledger |
| SaleAnswers.AWriteIsItsFirstVerdict | src/events/issuance.ts:199-268 | over every run an issuance's write has landed or is refused as its first verdict said, whatever is recorded later; without one it is in flight exactly if it was signed |
| SaleAnswers.ACheckoutIsItsFirstEnding | src/sales/payment.ts:591-867 | over every run a hosted checkout is at the provider as it first ended: paid with what was taken, expired or cancelled, however often it is cancelled afterwards; and open exactly if nothing ended it |
| Payments.Desk.TakePlace | src/sales/payment.ts:254-387 | only records a handled payment as paid; otherwise refunds exactly what was taken for another amount, then for closed sales, ending the hold; then starts its sale, its hold issuing, exactly when the hold is outstanding and unexpired, or ended while the ledger answers for an active event with its seat free and room for one more, and else refunds for a place gone; nothing else changes but the lapses |
| Payments.Desk.Place | src/sales/holds.ts:76-163 | a hold is placed, for ten minutes from now, exactly when its seat is free and one more fits capacity and quota on top of everything unexpired; a hold still outstanding is kept, an ended one refused; a refusal records only the lapses |
| Payments.Desk.Reserve | src/events/issuance.ts:86-153 | a granted issuance is reserved exactly when its seat is free and one more fits; a refusal leaves everything as it was |
| Payments.Desk.DecreaseCapacity | src/events/capacity.ts:55-95 | an increase is refused, a bound below what is allocated is refused on an event on sale, anything else is taken and the lapses committed |
| Payments.Desk.Pay | src/sales/payment.ts:591-694 | refused for a hold that is over, then for closed sales; the open checkout is used again, or replaced by one for the hold's price, which extends the hold by five minutes once, or, found paid, recorded as paid and then reconciled as `TakePlace` does, unless that fails |
| Payments.Desk.Cancel | src/sales/payment.ts:696-728 | the hold is over, lapsed past its lifetime and released before, and its checkout recorded as it ended; a checkout that turned out paid leaves everything as it was and is then reconciled, unless that fails |
| Payments.Desk.ReleaseAll | src/sales/payment.ts:748-834 | run alone it ends, with everything released, every payment found on the way handled, and no sale started |
| Payments.Desk.Visit | src/sales/payment.ts:783-818 | the hold is off the list, released if outstanding, and its open checkout cancelled and recorded as it ended; unless that turned out paid: then the hold stays and the payment is kept for reconciliation; nothing else changes |
| Payments.Desk.Sweep | src/sales/payment.ts:845-867 | every expired hold is recorded lapsed and no other hold changed, but for ended holds a payment found on the way takes again; none of the ended holds' checkouts stays open, here or at the provider |
| SaleRefunds.RefundedExactlyWhen | src/sales/cancellation-refunds.ts:41-141 | however the recording interleaves with everything else: once it has returned, every purchased ticket on the ledger has its refund and keeps it, exactly when no ticket on the ledger was of a sale still issuing when it listed |
| SaleRefunds.ATicketMayBeLeft | src/sales/cancellation-refunds.ts:69-81 | a run on which everything is released, the event cancelled and its refunds recorded while a sale becomes issued, whose ticket is left without a refund |
| Payments.Desk.RecordCancellationRefunds | src/sales/cancellation-refunds.ts:55-146 | refuses any event not cancelled; refunds once every ticket on the ledger of a sale issued or left without a verdict, counts what it recorded, and run again records nothing; every purchased ticket on the ledger is then refunded exactly when none is of a sale still issuing |
| Payments.Desk.ChangeStatus | src/events/status.ts:63-80 | everything is released before the write of an event on sale; sales reopen exactly on a refusal and stay closed without a verdict |
| LedgerFacts.Tables.Apply | src/derived/ledger-facts.ts:323-334 | row by row, a record leaves the tables as the projection's function of them, whose rows `DerivedRows.CopySaysTheLog` gives from the log alone; it fails when a row the log implies is missing or already there |
| LedgerFacts.Tables.Attend | src/derived/ledger-facts.ts:255-304 | the ticket's count, the attendance row and the consumed pass change together |
| LedgerFacts.Tables.Transfer | src/derived/ledger-facts.ts:203-228 | the holder changes and the transfer names the holder it left |
| LedgerFacts.Tables.Issue | src/derived/ledger-facts.ts:166-202 | a ticket is added and its event's count raised together |
| LedgerFacts.WithoutZoneRemoves | src/derived/ledger-facts.ts:151-165 | removing a zone removes it wherever it is and nothing else |
| LedgerFacts.WithoutZoneKeepsOrder | src/derived/ledger-facts.ts:151-165 | every other zone is kept in its place between those before and those after it |
| DerivedRows.CopySaysTheLog | src/derived/ledger-facts.ts:94-304 | over every log, every row of the copy of its first n records from those records alone: an event's status and capacity are the last set, its zones those brought and not removed since, in order, its count its issuances; a ticket's holder is the last receiver, each restriction is cleared exactly by a record naming it, its attendance is its admissions; transfers, consumed passes and credentials are their records' |
| DerivedRows.CopyFollowsExactlyWhen | src/derived/ledger-facts.ts:94-336 | there is a copy of the first n records exactly if each of them follows from those before it: its event, ticket or owner is there, and nothing it brings is there already |
| DerivedReader.CopyIsGapFree | src/derived/reader.ts:177-188 | the fold over n records has the n-th record's cursor and one row for each sequence below n |
| DerivedReader.ApplyRecords | src/derived/reader.ts:177-184 | applying a page record by record gives the fold that much further; it is not projectable exactly if the fold is not defined there, and lost exactly if the connection is lost before a record it comes to |
| DerivedReader.Reader.Step | src/derived/reader.ts:140-204 | each outcome exactly from its cause: a read error if the ledger failed, a contract error for a page over the batch or with another cursor, the head for an empty page, which is the log's end; otherwise the whole page is committed, unless a record cannot be applied or the connection is lost, and then nothing is, but for a loss while committing |
| DerivedReader.Reader.CatchUp | src/derived/reader.ts:286-293 | whatever the ledger answers and wherever the connection is lost, it ends; in a read error exactly if the last pull failed; of an accepted log, when every pull answers and nothing is lost, at the log's end having applied every record left |
| DerivedReaders.CommittedCopyIsTheFold | src/derived/reader.ts:140-204 | for every batch size, number of readers and failure point, the committed copy is the plain fold of the projections over the records before its position |
| DerivedReaders.CopyOnlyAdvances | src/derived/reader.ts:185-192 | no event takes the copy back |
| DerivedFacts.TransfersChain | src/derived/ledger-facts.ts:203-228 | of every accepted log, each ticket's transfers form a chain from its issued holder to its current one |
| DerivedFacts.CopyCounts | src/derived/ledger-facts.ts:166-304 | each event's issued count is its number of tickets; each ticket's attendances, attendance count and consumed passes are equal |
| DerivedFacts.RestrictionsOnlyClear | src/derived/ledger-facts.ts:229-242 | from any prefix to a longer one a ticket keeps its event and terms, and restrictions are only cleared |
| AdmissionFlags.ReportsFor | src/derived/admission-flags.ts:51-63 | paging gathers every report of the event, whatever the page size |
| AdmissionFlags.MatchAdmissionFlags | src/derived/admission-flags.ts:73-182 | from the organiser's reports and the log before the position read first, however far the copy advances meanwhile: a report is flagged exactly if it was rejected, its gate's clock is off, or it can never be recorded; each of the five causes exactly when its evidence is there; and it lists the transfers away from the holder and the other reports of the pass |
| AdmissionFlags.LaterReadsAgree | src/derived/admission-flags.ts:103-151 | a later copy's answers, kept below that position, are the earlier copy's |
| AdmissionFlags.NotRecordedIsForGood | src/derived/admission-flags.ts:101-117 | once a report is flagged not recorded, no log that keeps the ledger's clock, window and lag limits records that pass |
| AdmissionFlags.UntilTheDeadlineItMayBeRecorded | src/derived/admission-flags.ts:109-117 | until the deadline has passed some such log still records it |
| FinishSchedule.ScheduledFinishIsSafe | src/events/finish-schedule.ts:147-388 | for a schedule not set again after a refusal, with any schedulers stopping anywhere, at most one submission may still be accepted, finished means the event is, and of a scheduled, refused or cancelled one nothing can land; what a run and a pass record is `FinishOutcomes` |
| FinishSchedule.StaleMeansNoneMayLand | src/events/finish-schedule.ts:256-264 | a pass that finds every unanswered submission past its lifetime and the margin finds none that may land |
| FinishSchedule.ASecondRefusalBreaksIt | src/events/finish-schedule.ts:226-255 | a run set again after a refusal that is recorded refused while its submission may land, and then has two that may |
| FinishSchedule.SettingAgainIsSafeExactlyWhen | src/events/finish-schedule.ts:226-313 | in every reachable state in which an open event's schedule may be set, earlier settings after a refusal included: from then on, until it is set again, recorded refused means nothing of it can land, exactly if the audit log holds no refusal of it |
| FinishOutcomes.ASettlingPassEnds | src/events/finish-schedule.ts:202-289 | in every reachable state, whatever else happens until the pass is over: finished exactly if the ledger had the event finished when asked; otherwise refused exactly if the audit log has a refusal; otherwise scheduled again, unless left running, as it must be while a submission may still land |
| FinishOutcomes.AnUndisturbedPass | src/events/finish-schedule.ts:216-264 | such a pass can be made in every reachable state and records exactly that |
| FinishOutcomes.ALiveRunEnds | src/events/finish-schedule.ts:147-200 | a claimed run makes at most one submission; it is recorded finished exactly if the ledger accepted it and said so, refused exactly if it was refused or nothing was signed, and left running exactly if it stopped or had no verdict |
| FinishOutcomes.RefusedMeans | src/events/finish-schedule.ts:182-255 | over every run: recorded refused, a submission of it was refused by the ledger, or it was refused before one was signed |
| FinishOutcomes.ACancelledFinishNeverRuns | src/events/finish-schedule.ts:323-339 | cancelled before it runs, it stays so and nothing is submitted for it until it is set again |
| FinishOutcomes.AnAcceptedFinishIsNeverRefused | src/events/finish-schedule.ts:216-264 | over every run in which no submission lands behind a settling pass: once one is accepted the schedule is running or finished, none is refused and none more is made |
| FinishOutcomes.SchedulingAgainIsSafeExactlyWhen | src/events/finish-schedule.ts:219-263 | in every reachable state in which a pass schedules a run again, of a schedule not set again after a refusal: from then on, until it is set again or a submission lands behind a later pass, an accepted finish is never recorded refused, exactly if none was accepted since the pass asked the ledger |
| FinishOutcomes.AnAcceptedFinishMayBeRefused | src/events/finish-schedule.ts:219-263 | a run on which it is |
| Scale.CompactReads | packages/sponsorship/src/sponsorship.ts:93-107 | reading a compact integer gives it back and what follows it, in each of its four forms |
| Scale.BytesRoundTrip | packages/sponsorship/src/sponsorship.ts:146-151 | an id in hex is given back by its bytes |
| Sponsorship.DecodeInvertsEncode | packages/sponsorship/src/sponsorship.ts:176-221 | decoding inverts encoding for every target, every cost from 0 to 2^128-1 and every authorisation |
| Sponsorship.OnlyCanonicalDecodes | packages/sponsorship/src/sponsorship.ts:184-221 | exactly the canonical encodings decode, each to what it encodes |
| Sponsorship.PayloadIsInjective | packages/sponsorship/src/sponsorship.ts:125-173 | signing payloads agree only for the same kind, id, digest and cost |
| Sponsorship.Concat | packages/sponsorship/src/sponsorship.ts:157-165 | the array holds the parts one after another |
| Sponsorship.PayloadBytes | packages/sponsorship/src/sponsorship.ts:168-173 | the bytes put together are the signing payload |
| Sponsorship.EqualBytes | packages/sponsorship/src/sponsorship.ts:153-155 | compares as it should |
| Sponsorship.VerifiesOnlyWhatWasUndertaken | packages/sponsorship/src/sponsorship.ts:274-322 | a sponsorship verifies only for the input, and at the cost, a configured sponsor undertook |
| Sponsorship.WhatIsIssuedVerifies | packages/sponsorship/src/sponsorship.ts:234-242 | and what is issued for an input verifies for it |
| Sponsorship.VerifiesExactlyWhen | packages/sponsorship/src/sponsorship.ts:274-322 | bytes verify exactly if they are the encoding of a sponsorship of that input at that cost, signed with a P-256 authorisation by that configured sponsor; what is malformed, of another id or of another input is told apart exactly |
| RegistrationLimiter.Limiter.Decide | src/sponsor/entitlements.ts:207-222 | a registration is sponsored exactly when the whole history has fewer than the limit in the window ending now |
| RegistrationLimiter.Limiter.Sweep | src/sponsor/entitlements.ts:107-114 | forgetting changes no account's recent registrations |
| RegistrationLimiter.Limiter.NeverMoreThanTheLimit | src/sponsor/entitlements.ts:207-222 | no window of the length ever contains more sponsored registrations of an account than the limit |
| RegistrationLimiter.SpacedIsBounded | src/sponsor/entitlements.ts:210-217 | spacing each registration a window after the one a limit before it bounds every window |
| SponsorRelay.Relay | src/sponsor/relay.ts:95-134 | sponsored exactly when the first decision entitles, or, with a cursor the copy came to reflect, the second does; refused exactly when the last one due was made and does not; lagging exactly when the wait ran out |
| SponsorRelay.EntitledMeansAttributable | src/sponsor/entitlements.ts:120-247 | any input but a registration is entitled exactly when its signer, verified by a registered credential, owns the event, may create it, or holds a ticket that can be transferred, or, for a pass, the ticket's event is not over |
| SponsorRelay.RefusalMeans | src/sponsor/entitlements.ts:120-247 | a refusal of any input but a registration gives its cause, and each cause is given exactly when it is there |
| SponsorRelay.EntitledFromExactlyWhen | src/sponsor/entitlements.ts:120-247 | an input entitled by the copy at its cursor stays entitled by every later copy exactly as long as the ticket it transfers keeps its holder, or its pass's event is not over; any other input but a registration stays entitled for good |
| SponsorRelay.MixedReadsEntitle | src/sponsor/entitlements.ts:120-247 | an input entitled by every copy from a position on is entitled by reads that each see a different one of them |
| SponsorRelay.ReflectedIsRead | src/sponsor/relay.ts:105-112 | a cursor is seen in the copy exactly when the position is past its record |
| SponsorRelay.RelayOver | src/sponsor/relay.ts:95-134 | an input other than a registration that is entitled in every copy from its cursor on is never finally refused, however the reader's commits fall between the reads, and is sponsored when both decisions and the wait are answered |
| SponsorRegistrations.AuthorisedMeansSigned | src/sponsor/entitlements.ts:120-170 | a registration is left to the rate limit exactly if a registered credential signed it, or it is its account's first and signed by the credential it registers |
| SponsorRegistrations.MixedReadsAuthorise | src/sponsor/entitlements.ts:128-166 | authorised by every copy from a position on, it is by reads that each see a different one of them |
| SponsorRegistrations.RelayRegistration | src/sponsor/relay.ts:95-134 | a registration is sponsored exactly when a decision made authorises it and its account has room then, and is counted exactly then; authorised in every copy from its cursor on, it is finally refused only for its rate |
| OperatorSessions.RevocationEndsAll | src/operators/service.ts:193-225 | the moment a revocation commits no session is live and no code can be redeemed |
| OperatorSessions.LiveSessionsComeAfter | src/operators/service.ts:129-225 | every session live later was opened by a code issued afterwards, whatever redemptions and issuances raced |
| OperatorSessions.StepKeepsInv | src/auth/service.ts:370-409 | redemptions, issuances and revocations under their row locks keep what makes it so |
| OperatorSessions.ASessionLivesExactlyWhile | src/auth/service.ts:370-409 | over every run a session opened lives for a day, exactly until that is over or a revocation commits |
| OperatorSessions.ACodeIsUsableExactlyWhile | src/operators/service.ts:129-225 | over every run a code can be redeemed for an hour from when its issuance began, exactly until a redemption of it or a revocation commits; so it opens at most one session |
| OperatorSessions.AnAbortLeavesNothing | src/operators/service.ts:155-225 | a request that fails or stops leaves codes and sessions as they were and gives up every row it held |
| CheckoutPairing.ConfirmedAccountIsFinal | src/sales/checkout.ts:332-437 | a confirmed account never changes, is the beginner's own or one whose pairing code was checked, and every sale and ticket is its |
| CheckoutPairing.NothingBeforeConfirmation | src/sales/checkout.ts:439-463 | before a confirmation there is no hold, sale or ticket |
| CheckoutPairing.AnUndisturbedPairingConfirms | src/sales/checkout.ts:332-408 | the account that links and whose code is checked is the one confirmed |
| CheckoutPairing.ADiscardedLinkIsGone | src/sales/checkout.ts:410-437 | a discard takes the link away and starts another generation: no link under way from before ever takes hold, whatever comes later |
| CheckoutPairing.AConfirmedCheckoutIsServed | src/sales/checkout.ts:439-463 | with the account confirmed a hold, its sale and its ticket follow, and the ticket is that account's |
| Invitations.AtMostOneTicket | src/events/invitations.ts:215-269 | however many redemptions race and refusals reopen it, at most one ticket exists or may come to |
| Invitations.WithoutAVerdictNeverAgain | src/events/invitations.ts:247-262 | a redemption that ends without a verdict, recorded as such or stopped before anything is recorded, is the last |
| Invitations.ItIsWhatTheLastAttemptCameTo | src/events/invitations.ts:215-269 | over every run the invitation is what its last attempt was told and recorded: redeemed with its ticket on the ledger, open again with none, or spent |
| Invitations.AnUndisturbedRedemption | src/events/invitations.ts:215-269 | left alone, a redemption of an open invitation ends it redeemed with one more ticket, or open again with none, as the ledger issues or refuses |
| CapacityProofs.UndisturbedApprovalRaises | src/proofs/service.ts:121-257 | an approval raises the capacity if the ledger took no other one between the request's check and its insertion, however decreases and approvals that stop half-way intervene |
| CapacityProofs.ApprovalsRaiseExactlyWhen | src/proofs/service.ts:121-257 | every approval of a request raises the capacity, whatever happens until then, exactly if its bound is no lower than the capacity when it enters the queue |
| CapacityProofs.ADecisionIsFinal | src/proofs/service.ts:121-257 | a request once approved or rejected leaves the queue and is never approved again, over every run |
| CapacityProofs.CapacityIsTheLastWritten | src/proofs/service.ts:121-208 | over every run the capacity is the last bound a decrease or an approval wrote, recorded or not |
| CapacityProofs.AStoppedApprovalStays | src/proofs/service.ts:121-208 | an approval that stops before it is recorded leaves the request in the queue, to be approved again to the same effect |
| CapacityProofs.ASecondApprovalMayLower | src/proofs/service.ts:121-257 | a run after which an approval lowers the capacity |

## Left out

- HTTP, routers, parsing, configuration, object storage, mail notices, and the audit steps recorded beside each change: single-branch plumbing.
- WebAuthn, key management, P-256, BLAKE2b and the ledger's SDK: foreign code, ideal functions here.
- The seat lock is not a lock of its own: every allocation of a seat takes the event's lock after it (`src/sales/allocation.ts:30-39`), which alone gives the proofs.
- Events other than the one modelled share nothing with it but the clock; row locks on hosted checkouts and PostgreSQL's deadlock detection are not modelled.
- A hosted checkout the provider created for a `pay` that then rolled back has no row: its payment, if any, is nobody's to verify here, and no result speaks of it.
- SaleProtocol.Extend: takes its time when it is executed, not when it was sent; nothing in the program calls it, and a `pay`, which extends too, reads the clock with the hold's row locked. Releases, lapses and refusals of payments may carry an older time.
- The machine may do more than the program: the ledger's event and the seat are read at any point after the lock; the sweep may cancel any row's checkout; a sale whose ticket id was not recorded may be refunded on cancellation as if it were. The results hold all the same.
- The payment machine, the scheduled finish, operator sessions, pairing and invitations are modelled on values, one state to the next, and not as objects updated in place, because their requests interleave; `Payments` adds the in-place form for one request at a time.
- Payments.Desk.ReleaseAll: the numbers it answers of holds released, checkouts cancelled and refunds are not computed.
- Payments.Desk.TakePlace: its sale's issuance is another step of the machine; the wait for the ledger's verdict is not part of the method.
- Payments.Desk.RecordCancellationRefunds: purchased tickets with no sale in Kippu's records, which the recording only reports, are not computed; none exists here, since only this back end issues.
- SaleProtocol.CanRaise: takes it that an approved proof raises the bound; an approval that lowers it (`CapacityProofs.ASecondApprovalMayLower`) is outside what the sale's results cover.
- Payments.Desk.ChangeStatus: the bounded retries of recording refunds after a cancellation are left out; recording again adds nothing.
- FinishSchedule.ScheduledFinishIsSafe: says nothing of a schedule set again after one of its submissions was refused, where `FinishSchedule.ASecondRefusalBreaksIt` and `FinishSchedule.SettingAgainIsSafeExactlyWhen` show it fails.
- FinishOutcomes.ASettlingPassEnds: that a pass which finds a refusal reopens sales its run had closed (`src/events/finish-schedule.ts:237-248`) is not part of the machine.
- DerivedReader.Reader.Step: the hints and waits of the background loop are left out; they only decide when it steps.
- AdmissionFlags.MatchAdmissionFlags: gates and operators of reports are carried along, not computed with.
- That `cannotTransfer` implies `cannotResale` in the copy: the projection clears only the flag a command names.
- Inventory display, freshness waits, pairing and token generation, zones' canonical designations and ticket id derivation: ids and designations are opaque.
- Scale.CompactReads: integers beyond 67 bytes, which the encoding cannot carry.
- Sponsorship.DecodeInvertsEncode: authorisations longer than an array of the host language can be.
- Invitations.AtMostOneTicket: whether the granted issuance fits the event is the sale's (`SaleCommit.ReserveFitsCapacity`).
