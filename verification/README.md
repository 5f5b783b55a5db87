# Inventory Bot: a verified model of the FIFO cost-of-goods-sold engine

The Inventory Bot keeps, beside the Financial Books of a business, an Inventory Book that holds
quantities. Checked purchases, sales and credit notes of the Financial Book are replicated into it.
On request the bot calculates the cost of goods sold of one good: every open sale draws on the open
purchases in FIFO order, purchases that are drawn on in part are split, additional costs and credits
are absorbed into unit costs, and one COGS posting per sale is made. A reset puts the good back to
what replication made. A document that arrives, or is deleted, with a date the calculation already
covers flags the account, and the next calculation resets it instead.

This project models that engine and the replication around it, for one good account, and proves what
the bot is meant to keep over every input and over every run. `dfyconfig.toml` lists the files.

## How the model is built

Two layers describe the same code.

- *Values.* A transaction is a `Tx`, the persisted books of a good a `State`. `Take` is one sale's
  pass over the lots, `ProcessSales` a run, `Calculate`, `ResetState`, `Arrive` and `Delete` are the
  operations, `Do` one event and `Run` a whole history of events. All theorems about histories
  quantify over every sequence of events: arrivals, calculations up to any date with any Financial
  Book, resets, deletions, and locks set or lifted at any time.
- *Objects.* `Stores`, `CalculateProcessor`, `SaleLoop`, `CalculateService`, `ResetService` and
  `EventHandlers` are the imperative form: the books and the account as objects with fields, the two
  processors with their staged maps and lock flags, the sale loop drawing in place on an array of
  working copies. Each method is proved to do to the stores exactly what the value function says, so
  every theorem below holds of the loops.

Quantities are exact non-negative reals. Division and product are parameters of the model
(`Config.div`, `Config.times`): conservation, log agreement, reset, incremental and rebuild results
hold whatever rounding they do, the interval formula for costs is stated for exact arithmetic, and
the drift bound for divisions off by at most `eps`. A `Pending` remote id stands for a UUID that is
drawn when the split is staged.

| file | what it holds |
|---|---|
| `Lists`, `Ledger`, `FifoOrder` | sequences and JavaScript Maps as keyed sequences; transactions; the FIFO order and stable sort |
| `Allocation`, `Settlement`, `Calculation` | one draw; the sales of a run; collection, guard, credit notes, commit |
| `Reset`, `Replication`, `Books`, `Runs` | the other operations; well-formed books; histories and the invariant they keep |
| `Intervals`, `Costs`, `CostRuns`, `Drift`, `Guard`, `LotShape`, `FifoDraws` | FIFO as interval overlap; exact and rounded costs; cost conservation and rounding over histories; the guard; the lot list; which purchase is drawn on first |
| `Staging`, `Collected`, `Commitment`, `BookSums`, `ResetFacts` | staged writes against working copies; what a run does to the whole book |
| `Restoration`, `Families`, `Marks`, `Splits`, `Logs`, `Watermark`, `Flags`, `Locks`, `Feedback` | reset and delete; quantities; the marks of drawn purchases; what splits are; logs; the calculation date, replication; when the account is flagged; what is locked; the bot's own events |
| `RunAlgebra`, `NoteForm`, `TwoRuns`, `NoteRuns`, `Incremental`, `Extras`, `Batch` | what a run reads of the Financial Book; two runs against one |
| `Congruence`, `Unflagged`, `BookChanges`, `SparedNotes`, `UnflaggedLogs` | an unflagged account against a calculation from scratch; Financial Books that change; credit notes that come too late; its logs |
| `Arrivals`, `Samples`, `Histories` | books made by arrivals; short histories worked out to the last property |
| `Counterexamples`, `NoteCounterexamples`, `LateNotes` | where the code falls short |
| `Stores`, `CalculateProcessor`, `SaleLoop`, `CalculateService`, `ResetService`, `EventHandlers` | the imperative layer |

## Model

| member | source | states |
|---|---|---|
| `FifoOrder.FifoIsStrictWeakOrder` | menu/server/src/BotService.ts:74-89 | the comparator orders a list consistently if and only if no transaction without a creation stamp ties with two that carry different milliseconds |
| `FifoOrder.MissingStampBreaksOrder` | menu/server/src/BotService.ts:84-86 | a family of three tied transactions on which the comparator is no order |
| `FifoOrder.SortLast` | menu/server/src/CalculateCostOfSalesService.ts:108-138 | with stamps present sorting gives an ordered permutation whose last element has the latest date |
| `FifoOrder.SortedByFields` | menu/server/src/BotService.ts:74-89 | of two sorted transactions with stamps the first has the earlier date, on equal dates the lower `order`, and on equal dates and orders the lower millisecond, or ties |
| `FifoOrder.SortStable` | menu/server/src/BotService.ts:74-89 | transactions of one date, `order` and millisecond stay in the order in which they came |
| `FifoDraws.EarlierSoldFirst` | menu/server/src/CalculateCostOfSalesService.ts:108-120 | when the sales of a calculation draw on a purchase, every collected purchase that comes before it by date, `order` or millisecond is sold out |
| `FifoDraws.LogInOrder` | menu/server/src/CalculateCostOfSalesService.ts:153-263 | the purchase log that a calculation gives a sale lists its purchases in FIFO order |
| `Histories.LowerOrderFirst` | menu/server/src/BotService.ts:78-82 | two purchases of one day and a sale arrive, the higher `order` first: the sale is posted at the cost of the lower `order`, and the other purchase is left as it was |
| `FifoOrder.SortSplit` | menu/server/src/CalculateCostOfSalesService.ts:108-109 | sorting puts everything up to a date first, each part as if sorted alone |
| `Intervals.FifoRefinement` | menu/server/src/CalculateCostOfSalesService.ts:108-120 | for all sales and lots, what sale `k` logs from lot `j` is the overlap of their cumulative-quantity intervals |
| `Intervals.SaleTakesSlice` | menu/server/src/CalculateCostOfSalesService.ts:142-263 | any additive measure of what sale `k` takes is that measure of the slice between cumulative sales |
| `Costs.FifoCost` | menu/server/src/CalculateCostOfSalesService.ts:178-220 | with exact arithmetic the COGS of a sale is the sum, over lots, of overlap times the lot's effective unit cost |
| `Costs.RemainderDrift` | menu/server/src/CalculateCostOfSalesService.ts:207-220 | one more rounded split keeps the cost taken within `eps` per unit of the pro-rata cost |
| `CostRuns.RoundingDrift` | menu/server/src/CalculateCostOfSalesService.ts:178-220 | after all the sales of a run, the cost taken from a lot is within `eps` per unit taken of its pro-rata share, and exactly what the lot carried once it is used up |
| `Drift.HistoryDrift` | menu/server/src/CalculateCostOfSalesService.ts:170-220 | over every history, the parts sold of an open purchase since the last reset cost, in all, their pro-rata share of what was paid for it and the extras taken in, within `eps` per unit sold, if no credit note took a part of it |
| `Drift.UsedUpExactly` | menu/server/src/CalculateCostOfSalesService.ts:186-220 | over every history and under any rounding, the parts of a purchase that is used up cost exactly what was paid for it and the extras taken in |
| `CostRuns.LotAccounts` | menu/server/src/CalculateCostOfSalesService.ts:186-220 | what was sold of a lot and what is left of it always add up to what it carried, under any rounding |
| `CostRuns.CostsBalance` | menu/server/src/CalculateCostOfSalesService.ts:167-220 | COGS posted by a calculation plus the total cost of open purchases after it equals the total before it plus additional costs less credits of the purchases it first drew on |
| `CostRuns.ExtrasOnce` | menu/server/src/CalculateCostOfSalesService.ts:170-196 | in every reachable state a purchase and its splits cost the purchase cost plus the extras read at its first touch since the last reset, and nothing more while untouched |
| `Extras.CostAdds` | menu/server/src/CalculateCostOfSalesService.ts:324-384 | in properties of the document and days: an additional cost adds its amount to an untouched purchase, a credit takes its amount off, and an unchecked document, one of another code, one outside sixty days or the purchase itself adds nothing |
| `Histories.OwnDocuments` | menu/server/src/CalculateCostOfSalesService.ts:354-384 | a purchase and a sale of all of it arrive and are calculated with a book that holds the two documents: the one posting is what the purchase cost, under any rounding |
| `Histories.FreightAndCredit` | menu/server/src/CalculateCostOfSalesService.ts:354-384 | with freight and a credit of the purchase in the book as well, the posting is what was paid plus the freight less the credit |
| `Settlement.AllFilledIff` | menu/server/src/CalculateCostOfSalesService.ts:57-63 | all sales of a run are filled if and only if the open lots hold what they ask for in total |
| `Guard.GuardSuffices` | menu/server/src/CalculateCostOfSalesService.ts:37-63 | with distinct purchase codes, passing the guard and the credit notes means every collected sale is checked with a log and gets exactly one posting, of its own date, cost and quantity |
| `Guard.AllCheckedIff` | menu/server/src/CalculateCostOfSalesService.ts:47-63 | whatever the codes, every sale comes out checked if and only if there is none, or the purchases kept by the Map, less the kept notes that find one, lack less than the last sale asks for and so little that it rounds to zero |
| `Lists.KeyedFirst` | menu/server/src/CalculateCostOfSalesService.ts:47-55 | the Maps of the collection loop hold, in the order in which keys first came, what came last under each |
| `Counterexamples.DuplicateCodesPartFill` | menu/server/src/CalculateCostOfSalesService.ts:47-50 | two purchases with one code arrive and are calculated: the sale stays unchecked, only the second purchase is drawn, and the whole sale is posted at the cost of that part; the book is given exactly |
| `LotShape.RunShape` | menu/server/src/CalculateCostOfSalesService.ts:112-120 | after any covered run the lots are a sold-out prefix, at most one partly drawn lot, then untouched lots, all open amounts positive |
| `NoteForm.NotesForm` | menu/server/src/CalculateCostOfSalesService.ts:69-106 | the credit-note loop accepts exactly when no lot would give up all it has, and then each lot gives up what its notes say and one split per matched note is made, of the form that `Splits.SplitsAreCut` and `Histories.NotedAndSold` give |
| `NoteForm.NotesChecked` | menu/server/src/CalculateCostOfSalesService.ts:102-104 | a credit note is checked if and only if it finds its purchase |
| `NoteForm.RejectsFirst` | menu/server/src/CalculateCostOfSalesService.ts:76-78 | a rejected run names the first credit note that would take all that its purchase still holds |
| `Incremental.NotesCommute` | menu/server/src/CalculateCostOfSalesService.ts:69-120 | credit notes that spare the lots the sales draw on may be applied before or after them |
| `CalculateService.CalculateCostOfSalesForAccount` | menu/server/src/CalculateCostOfSalesService.ts:3-128 | all or nothing: outcome and stores are those of the specification, a flagged account is reset instead, and otherwise a calculation that does not go through leaves every transaction, posting and account property as it was |
| `Histories.PartSold` | menu/server/src/CalculateCostOfSalesService.ts:142-281 | the book, posting and account after a part of a purchase was sold, to the last property of each |
| `Histories.SoldWhole` | menu/server/src/CalculateCostOfSalesService.ts:142-281 | the same after a purchase was sold whole |
| `Histories.NotedAndSold` | menu/server/src/CalculateCostOfSalesService.ts:69-106 | the book after one calculation of a purchase, a return of a part and a sale of a part of the rest, to the last property of every transaction |
| `Commitment.SettleLots` | menu/server/src/CalculateCostOfSalesService.ts:198-230 | on success every collected purchase of the book is updated to its working copy |
| `Commitment.SettleSales` | menu/server/src/CalculateCostOfSalesService.ts:265-277 | on success every collected sale of the book is updated to its working copy |
| `Commitment.SettleOther` | menu/server/src/CalculateCostOfSalesService.ts:37-55 | what was not collected is not staged, and a credit note is at most checked |
| `Commitment.CommitBook` | menu/server/src/CalculateCostOfSalesProcessor.ts:53-83 | the committed book is the old one updated, then the created splits, every transaction keeping its origin |
| `BookSums.BookConserves` | menu/server/src/CalculateCostOfSalesService.ts:65-125 | any weight that a note, a draw and a settlement only move around has the same total before and after a calculation |
| `Families.FamilyInvariant` | menu/server/src/CalculateCostOfSalesService.ts:73-99 | in every reachable state a purchase and the live splits naming it hold its original quantity |
| `Families.BalanceInvariant` | menu/server/src/ResetCostOfSalesService.ts:56-75 | in every reachable state the good's quantity balance is that of the replicated documents: no calculation and no reset changes it |
| `Splits.SplitsAreCut` | menu/server/src/CalculateCostOfSalesService.ts:73-99 | in every reachable state each live split was cut from a live purchase whose date and purchase code it has and which it names as parent; a sale's has the purchase's `order` and costs its quantity at the logged unit cost; a credit note's has the number and quantity of a checked note for that purchase, if no deletion took an applied note |
| `Logs.LogAgreement` | menu/server/src/CalculateCostOfSalesService.ts:186-280 | over every history in which no deletion since the last unlocked reset hit a replica in use, a checked sale's log agrees entry by entry, in number, quantity and unit cost per purchase, with the checked lots naming it; quantities add up to the sale, costs to its cost; every sold lot names a checked sale, with that sale's date and whole quantity |
| `Logs.DeleteLogsIff` | events/src/InterceptorOrderProcessorDeleteFinancial.ts:29-39 | a deletion keeps the logs in agreement if and only if the document's replica was not in use, that is, neither a purchase drawn on, as its two properties tell, nor a checked sale |
| `Logs.ResetLogs` | menu/server/src/ResetCostOfSalesService.ts:26-95 | an unlocked reset makes the logs agree again, whatever was deleted before |
| `Marks.MarksHold` | menu/server/src/CalculateCostOfSalesService.ts:170-230 | in every reachable state a purchase carries the two properties if and only if some lot of its family was sold |
| `UnflaggedLogs.UnflaggedLogsAgree` | events/src/BotService.ts:134-145 | over every history whose calculations since the last unlocked reset were timely, with any Financial Book at each, an account without the flag has agreeing logs |
| `Counterexamples.DeletedAfterDrawn` | events/src/InterceptorOrderProcessorDeleteFinancial.ts:29-39 | a purchase and a sale arrive and are calculated, the purchase is deleted: the logs agreed, and no longer do |
| `Runs.RunKeeps` | events/src/EventHandlerTransactionChecked.ts:30-153 | every reachable book is well formed, ids, codes and remote ids distinct, postings and checked sales one to one, each posting of its sale's date, cost and quantity |
| `Arrivals.ArrivesIff` | events/src/EventHandlerTransactionChecked.ts:28-157 | a checked document is replicated if and only if it is posted, sells, buys or returns a quantity, in that order of precedence, and has no live replica; the replica is given property by property |
| `Arrivals.EmptyIsMissing` | events/src/EventHandlerTransactionChecked.ts:44-122 | an invoice or credit-note property that is empty counts as missing |
| `ResetFacts.ResetGivesOrigin` | menu/server/src/ResetCostOfSalesService.ts:26-95 | an unlocked reset leaves exactly the replicas as posted, no splits although some were staged for both update and trash, no postings, no flag and no date |
| `Restoration.ResetRestores` | menu/server/src/ResetCostOfSalesService.ts:26-95 | after any history an unlocked reset leaves the fresh replication of the standing documents, whatever calculations were made |
| `Restoration.ResetIdempotent` | menu/server/src/ResetCostOfSalesService.ts:26-95 | a second reset changes nothing |
| `Locks.LockedStays` | menu/server/src/ResetCostOfSalesService.ts:84-87 | no calculation, no reset and no reset fired by the flag changes or trashes a locked transaction or a locked posting |
| `Locks.ResetStopsIff` | menu/server/src/ResetCostOfSalesService.ts:84-97 | in a reachable book a reset changes nothing if a posting, or a transaction other than an open sale, is locked; otherwise it restores the replicas |
| `Locks.CalculationStopsIff` | menu/server/src/CalculateCostOfSalesService.ts:114-120 | a calculation that passes its guards ends in a lock error, changing nothing, if and only if something that it would change is locked |
| `Restoration.DeleteCascades` | events/src/InterceptorOrderProcessorDelete.ts:16-36 | after a purchase is deleted no live transaction is its replica or names it as parent |
| `Flags.DeletesExactly` | events/src/InterceptorOrderProcessorDeleteFinancial.ts:29-39 | in every reachable state the deletion of a document takes its replica, the splits that name it and its posting if the document is that of a purchase, and nothing else |
| `Restoration.DeleteThenReset` | events/src/InterceptorOrderProcessorDeleteFinancial.ts:29-39 | over every history, deleting a document and resetting gives the book of the history in which it never arrived |
| `Watermark.DateNeverDecreases` | menu/server/src/CalculateCostOfSalesService.ts:130-140 | between resets the calculation date never decreases, and the rebuild flag stays until a reset that finds nothing locked |
| `Flags.ArriveFlagsIff` | events/src/EventHandlerTransactionChecked.ts:160-167 | an arrival flags the account if and only if it posts a replica dated up to the calculation date |
| `Flags.PurchaseFlagsIff` | events/src/InterceptorOrderProcessorDeleteFinancial.ts:29-39 | the deletion of a purchase document flags the account if and only if its replica is a purchase or sale dated up to the calculation date |
| `Flags.CreditFlagsIff` | events/src/InterceptorOrderProcessorDeleteFinancial.ts:41-66 | in every reachable state the deletion of a credit changes nothing but the flag, and flags the account if and only if the first transaction of its purchase code within sixty days is a purchase that a live split names, or is no purchase |
| `Flags.CreditDeletedFlags` | events/src/InterceptorOrderProcessorDeleteFinancial.ts:54-58 | a purchase and a sale of a part of it arrive and are calculated; the deletion of a credit of the purchase flags the account and changes nothing else |
| `Watermark.DateCoversCheckedSales` | menu/server/src/CalculateCostOfSalesService.ts:130-140 | in every reachable state the calculation date is at least the date of every checked sale |
| `Watermark.ReplicatedOnce` | events/src/EventHandlerTransaction.ts:43-48 | over every history a document has at most one live replica |
| `Feedback.NoFeedback` | events/src/EventHandlerTransactionChecked.ts:30-38 | in every history the checked events of COGS postings and inventory transactions, read from the properties the bot writes, may be left out: the same state is reached |
| `RunAlgebra.RunSuffix` | menu/server/src/CalculateCostOfSalesService.ts:153-263 | a run that the first lots cover leaves the lots behind them alone |
| `RunAlgebra.RunSkips` | menu/server/src/CalculateCostOfSalesService.ts:155-158 | what a run stages depends only on its open lots |
| `Incremental.StockKept` | menu/server/src/CalculateCostOfSalesService.ts:57-63 | a run leaves the surplus of purchases over sales at every later date as it was, so both guards agree |
| `Batch.SameTwice` | menu/server/src/CalculateCostOfSalesService.ts:27-125 | every transaction comes out of one run to the later date as it comes out of the two runs |
| `Extras.CalculateAlike` | menu/server/src/CalculateCostOfSalesService.ts:170-175 | a calculation that goes through comes out the same with every Financial Book that holds the same extras of the purchases it first draws on |
| `Batch.IncrementalEqualsBatch` | menu/server/src/CalculateCostOfSalesService.ts:27-125 | if calculations to `d1` and then `d2`, each with the Financial Book as it then stands, go through, no note of the second is for a lot the sales of the first drew on, one calculation keeps the notes that they apply, and the later book holds the extras that the first read, then one calculation to `d2` goes through too and leaves the same books, up to ids of new splits |
| `Batch.IncrementalIff` | menu/server/src/CalculateCostOfSalesService.ts:52-55 | if the two go through and the extras are the same, one calculation agrees with two if and only if its Map of credit notes keeps every note that one of the two applies |
| `BookChanges.BatchExtraIff` | menu/server/src/CalculateCostOfSalesService.ts:170-175 | if the two go through and the notes are kept, and one document comes into the Financial Book between them, one calculation agrees with two if and only if the document is no extra of a purchase that the first drew on |
| `NoteRuns.DistinctKept` | menu/server/src/CalculateCostOfSalesService.ts:52-55 | it keeps them when the notes collected up to `d2` have distinct numbers |
| `NoteCounterexamples.OneDocumentTwoReturns` | menu/server/src/CalculateCostOfSalesService.ts:52-55 | two purchases, and two credit notes with one number for parts of them: after these arrivals two calculations apply both notes, one keeps only the last, and the books differ |
| `Congruence.Truncated` | menu/server/src/CalculateCostOfSalesService.ts:69-125 | a calculation whose sales are covered by purchases up to the last of them, and whose applied notes and the purchases they are for are dated no later, comes out as if made up to that date |
| `Unflagged.UnflaggedIsCorrect` | menu/server/src/CalculateCostOfSalesService.ts:13-17 | over every history, whatever Financial Book each calculation finds, an account without the flag equals one calculation from scratch up to its calculation date with book `fin`, if since the last unlocked reset the calculations were timely, their credit notes in time and for purchases that were not drawn on, each read the extras that `fin` holds of the purchases it first drew on, and no deletion took a note that a calculation had applied |
| `Unflagged.CorrectIffTimely` | menu/server/src/CalculateCostOfSalesService.ts:130-140 | from a correct account, with such notes or none and under any rounding, a calculation leaves a correct account if and only if its sales are covered by purchases dated no later than the last of them |
| `SparedNotes.CorrectIff` | menu/server/src/CalculateCostOfSalesService.ts:69-140 | with exact arithmetic, and notes with numbers of their own, a calculation leaves a correct account correct if and only if its sales are so covered, the notes it applies are dated no later than the last sale, like the purchases they are for, and none that it keeps is for a purchase that was drawn on |
| `SparedNotes.NoteForDrawn` | menu/server/src/CalculateCostOfSalesService.ts:69-99 | a calculation that keeps a note for a purchase that was drawn on leaves a correct account wrong, whether the purchase was used up or not, unless it cost nothing |
| `Unflagged.UntimelyFails` | menu/server/src/CalculateCostOfSalesService.ts:153-158 | otherwise the same calculation from scratch ends in a quantity error |
| `BookChanges.CorrectTakes` | menu/server/src/CalculateCostOfSalesService.ts:170-196 | in a correct account a purchase that was drawn on costs, with its splits, what was paid for it and the net extras that the Financial Book holds of it |
| `BookChanges.ExtraIff` | menu/server/src/CalculateCostOfSalesService.ts:170-175 | a document that comes into the Financial Book, or goes, leaves a correct account correct if and only if it is no additional cost and no credit of a purchase that was drawn on |
| `BookChanges.ArriveCorrectIff` | events/src/EventHandlerTransactionChecked.ts:160-167 | an arrival that does not flag a correct account leaves it correct, by the book that holds the document, if and only if the document is no extra of a purchase that was drawn on |
| `BookChanges.DeleteCorrectIff` | events/src/InterceptorOrderProcessorDeleteFinancial.ts:29-66 | a deletion that does not flag a correct account leaves it correct, by the book without the document, if and only if the document was no extra of a purchase that was drawn on; the document was not replicated as a credit note that the calculation date covers |
| `Counterexamples.LaterPurchaseConsumed` | menu/server/src/CalculateCostOfSalesService.ts:153-158 | a sale and a later purchase: the calculation goes through unflagged, yet none from scratch to its date can be made |
| `Counterexamples.ExtrasFlagNothing` | events/src/EventHandlerTransactionChecked.ts:36-38 | a purchase and a sale of all of it arrive and are calculated, and the account is correct; an additional cost of the purchase arrives, flags nothing, and the account is no longer what a calculation from scratch gives |
| `Counterexamples.CreditDeletedUnseen` | events/src/InterceptorOrderProcessorDeleteFinancial.ts:54-61 | after the same history, a credit of the purchase is deleted and flags nothing, because a purchase sold whole keeps its quantity; the account is no longer what a calculation from scratch gives |
| `LateNotes.LateNoteUnflagged` | events/src/EventHandlerTransactionChecked.ts:160-167 | a credit note dated after the calculation date, for a purchase that was drawn on, is calculated without a flag by the Financial Book that holds it, and leaves a correct account only if both the earlier and the later sale have the unit costs of a calculation from scratch |
| `LateNotes.FirstRightIff` | menu/server/src/CalculateCostOfSalesService.ts:178-186 | the earlier sale has its unit cost from scratch if and only if the book credits the note at the unit cost of the purchase |
| `LateNotes.LateSaleWrong` | menu/server/src/CalculateCostOfSalesService.ts:178-220 | with exact arithmetic the earlier or the later sale has another unit cost than from scratch: when the first is right, the credit does not reach the second |
| `LateNotes.ReturnedLate` | events/src/EventHandlerTransactionChecked.ts:122-150 | a purchase and a sale arrive and are calculated, then a credit note for the purchase and a later sale arrive and are calculated with the book that holds the note: the account is unflagged and not what a calculation from scratch gives |
| `SaleLoop.GetAdditionalCostsAndCreditNotes` | menu/server/src/CalculateCostOfSalesService.ts:324-384 | the loop sums exactly the additional costs and the credits of the purchase within two months either way; `Extras.CostAdds` says which documents these are |
| `SaleLoop.DrawOnLot` | menu/server/src/CalculateCostOfSalesService.ts:163-257 | one lot drawn on in place, its update and split staged, is the specified move |
| `SaleLoop.ProcessSaleInPlace` | menu/server/src/CalculateCostOfSalesService.ts:142-281 | the sale loop over the array of working lots computes the recursive draw and stages all of it |
| `CalculateProcessor.CalculateCostOfSalesProcessor.SetToUpdate` | menu/server/src/CalculateCostOfSalesProcessor.ts:26-45 | an update is kept under its id, and the lock flag is up exactly when something locked is staged |
| `CalculateProcessor.CalculateCostOfSalesProcessor.FireBatchOperations` | menu/server/src/CalculateCostOfSalesProcessor.ts:53-83 | the stores end as created, then updated, then posted |
| `CalculateService.Collect` | menu/server/src/CalculateCostOfSalesService.ts:30-55 | the collection loop gives the open sales, the last purchase per code, the last note per number, and both totals |
| `CalculateService.ApplyCreditNotes` | menu/server/src/CalculateCostOfSalesService.ts:69-106 | the loop rejects or stages as the specification of the notes says; `Histories.NotedAndSold` gives the outcome property by property |
| `CalculateService.SettleAll` | menu/server/src/CalculateCostOfSalesService.ts:111-120 | the sales loop with its early exit reports a lock exactly when the whole run would stage a locked transaction |
| `CalculateService.StoreLastCalcTxDate` | menu/server/src/CalculateCostOfSalesService.ts:130-140 | the date moves forward to the last sorted sale only |
| `ResetService.ResetCostOfSalesProcessor.FireBatchOperations` | menu/server/src/ResetCostOfSalesProcessor.ts:44-48 | postings trashed, then updates, then trash, so what is staged for both ends up trashed |
| `ResetService.ResetOne` | menu/server/src/ResetCostOfSalesService.ts:26-82 | one transaction of the loop is reset and staged as specified |
| `ResetService.ResetCostOfSalesForAccount` | menu/server/src/ResetCostOfSalesService.ts:26-97 | the stores end as the specification says, untouched when something is locked; `Locks.ResetStopsIff` says when, `ResetFacts.ResetGivesOrigin` what is left otherwise |
| `EventHandlers.CheckLastTxDate` | events/src/EventHandlerTransactionChecked.ts:160-167 | the account is flagged exactly when the date is covered by the calculation date |
| `EventHandlers.ConnectedTransactionNotFound` | events/src/EventHandlerTransactionChecked.ts:28-157 | posts the replica of a sale, purchase or credit note, or nothing |
| `EventHandlers.ProcessChecked` | events/src/EventHandlerTransaction.ts:24-49 | a checked document leaves the stores as the specification of an arrival says |
| `EventHandlers.CascadeDeleteInventoryTransactions` | events/src/InterceptorOrderProcessorDelete.ts:16-36 | exactly the children of the trashed purchase are trashed |
| `EventHandlers.FlagIfReduced` | events/src/InterceptorOrderProcessorDeleteFinancial.ts:50-63 | the loop flags the account exactly when the first transaction found with the purchase code does not hold its original quantity; `Flags.CreditFlagsIff` says when that is |
| `EventHandlers.InterceptDeleted` | events/src/InterceptorOrderProcessorDeleteFinancial.ts:29-66 | a deleted purchase or credit document leaves the stores as the specification of a deletion says; `Flags.DeletesExactly`, `Flags.PurchaseFlagsIff` and `Flags.CreditFlagsIff` say what that is |

## What the code does against what one would expect

The model follows the code in each of these.

- The last tie-break of the FIFO order is the millisecond field of the creation time, not the
  creation time (`menu/server/src/BotService.ts:84-86`).
- Nothing stops a sale from consuming a purchase dated after it. `Unflagged.CorrectIffTimely` gives
  the exact condition under which this does no harm.
- Purchases are kept one per purchase code but all count in the guard. `Guard.AllCheckedIff` gives the
  exact condition, and the results over histories ask new purchases for a new code.
- Credit notes are kept one per number but all count in the guard. One note document that returns goods
  from two purchases is dropped in part by one calculation and not by two; `Batch.IncrementalIff` gives
  the exact condition.
- Deleting a purchase that was drawn on leaves sales whose logs name lots that are gone.
  `Logs.DeleteLogsIff` gives the exact condition; the account is then flagged, and the reset restores
  the logs.
- A credit note that arrives for a purchase that was drawn on flags nothing unless its date is covered, and a
  note dated after the last sale of a calculation is applied by it. `SparedNotes.CorrectIff` gives the exact
  condition, `LateNotes` says which sale comes out wrong.
- An additional cost that arrives is read by the next first draw on its purchase, and flags nothing.
  `BookChanges.ArriveCorrectIff` gives the exact condition under which the account stays correct.
- A deleted additional cost flags nothing, because the good is looked up by the account that the document credits
  (`events/src/InterceptorOrderProcessorDeleteFinancial.ts:46`, `Flags.CostFlagsNothing`). A deleted credit flags the account only when the
  first transaction found with its purchase code has an amount other than its original quantity, which a purchase
  sold whole has not: `Flags.CreditFlagsIff`. `BookChanges.DeleteCorrectIff` gives the exact condition.
- A second draw on a lot overwrites its `additional_costs` with zero and records as credit-note
  quantity whatever was sold before (`Histories.SecondDraw`). Only the presence of the two properties is relied on.
- The `qt` of a liquidation log is the quantity of the whole sale; the quantity taken is the amount of
  the checked lot.
- Reset unchecks a transaction without a purchase log in memory only. Histories made by the bot never
  have a checked sale without a log.
- Events of a purchase compare and overwrite account properties; the model takes
  `cogs_calc_date` and `needs_rebuild` as kept.

## Left out

- Bkper API, Apps Script, HTTP, time zones and date formats: dates are integers, ids and UUIDs come from counters, and a query returns all live transactions of the account in posting order.
- Client pages, summaries, response texts and book anchors.
- Creation of accounts and groups and the synchronisation of their properties (`events/src/EventHandlerTransactionChecked.ts:170-259`).
- Book lookup by exchange code or fraction digits, and the case that no Financial Book is found.
- Delete interceptor of the Inventory Book: its account-type tests do not match how replicas are posted (`events/src/InterceptorOrderProcessorDeleteGoods.ts:64-72`).
- Deletion of sales and of COGS postings (`events/src/InterceptorOrderProcessorDeleteFinancial.ts:68-96`), with the flags it may set.
- Manual checks and edits in the Inventory Book, which the documentation forbids.
- Floating-point totals in the guard: quantities are exact. A missing purchase code, on which the split of a lot would raise an error, is a code like any other.
- Webhook deliveries handled at the same time: events are handled one after the other.
- `events/src/EventHandlerTransactionUpdated.ts`, which does nothing yet.
- Drift.HistoryDrift: says nothing of a purchase that a credit note took a part of, whose pro-rata share changes with the note; `Drift.UsedUpExactly` still holds of it.
- Splits.SplitsAreCut: that the credit note of a split is still in the book is stated for histories whose deletions spare applied notes; such a deletion takes the note and leaves the split, whose other properties are stated for every history.
- BookChanges.DeleteCorrectIff: asks that a deleted purchase document was not replicated earlier, with other properties, as a credit note that a calculation applied; such a note would be trashed without a flag.
- Unflagged.CorrectIffTimely: exact for the dates only; the conditions on credit notes are exact in `SparedNotes.CorrectIff`.
- SparedNotes.CorrectIff: asks for exact arithmetic and that no purchase drawn on cost nothing, because unit costs that differ may round to the same one and those of such a purchase are all zero; two notes with one number are the matter of `Batch.IncrementalIff`.
- CalculateService.CalculateCostOfSalesForAccount: asks that open purchases hold something and that open credit notes carry their number, because the division by a quantity of zero is not modelled; when a lock aborts a run the UUIDs drawn for discarded splits are not returned, so the UUID counter is the one field stated apart.
