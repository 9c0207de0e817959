# The RigelLedger bookkeeping engine, verified

This project models the double-entry engine in `internal/ledger`: how client
lines become balanced postings, the transactions and opening balances written
from them, the change of a book's base currency, the statements computed from
the postings, the review queue of imported rows, a book's export and import,
and paging. It proves what the engine is for: books that always balance,
statements that articulate and reconcile, a queue that decides each row once
and whose rows never wait in a circle, and round trips.

Amounts are exact numbers (`real`); rounding is written out as the service
does it, half away from zero to a commodity's decimal places. A date is a day
number. What the service changes in place (the store's transactions and
accounts, the import rows, the account importer) is a class whose methods are
proved equal to a function of the old state; what it computes in loops over
rows and maps is a method with a loop. A map is ranged in an arbitrary order.
A database transaction is all or nothing: a method that fails leaves the state
it found.

| module | what it holds |
|---|---|
| Decimals, Sums | rounding and its laws; sums over sequences and sets |
| Core, Rates | the data, the postings queries join, exchange rates |
| Lines, Journal | resolving and balancing lines; `Ledger`, the store |
| Rebase | a new base currency: translation, residues, gaps, dry run |
| Runs | any sequence of the operations that write a book |
| AverageCost | holdings over runs of acquisitions and disposals |
| Groups, Statements, CashFlow | balance sheet, income statement, cash flow |
| RollUp, TreeBalances | totals up the account tree |
| Accepted, Invoices | the lines the queue books; splitting by item category |
| ImportQueue | the queue as a protocol: rows, the legal writes, every run |
| Matching | the matcher's searches and what they may propose |
| Review | `Service`: import, match, accept, ignore, on rows and store |
| Effects | each operation told as balances and dates, before and after; the rows it decides |
| Proposals, InvoiceMatches | each proposal told over the rows, postings and days |
| Claims | no two waiting rows are taken as one transaction |
| Stranding, Stranded | the rows left matched with a decided one, exactly; five such runs |
| ImportAccounts, BookFile, RoundTrip | export, import and the round trip |
| Restorable | the runs whose book its own export restores, exactly |
| Paging | cursors, pages and the account filter |

## Where the code and its comments or design differ

- `internal/ledger/bookfile.go:358-361` says an unbalanced file is refused, not
  repaired. It is repaired exactly when `RoundTrip.UnbalancedTaken` says;
  `RoundTrip.UnbalancedRepaired` is such a file.
- After a change of base the opening balances account keeps its old commodity,
  so a later opening balance can leave an amount its commodity does not allow
  (`Runs.StaleOpening`); when it does is exact in `Runs.OpeningPrecise`. Such a
  book cannot be imported from its own export (`RoundTrip.StaleBookRefused`).
  Over runs that is the only way there, but for what the postings table itself
  refuses: a posting of nothing, of a base amount against its amount, or on an
  account that takes no postings or another commodity
  (`Restorable.StepRestorable`). Its statements stay exact until it is rebased
  to that commodity (`Runs.StepExact`).
- A row can be left matched with a row already decided, where Accept, unless a
  category is given, answers with a conflict and changes nothing
  (`Stranding.StuckIsHeldUp`, `Review.Service.Accept`). For every queue, exactly
  those are left that are matched with a row the acceptance decides and not
  decided with it (`Stranding.AcceptedRowStrands`, `TradeStrands`,
  `InvoiceStrands`). Settling looks at the accepted row alone, so a duplicate of
  a duplicate is left (`Stranded.ChainStranded`), and a duplicate of a
  transfer's other side (`Stranded.TransferStranded`); the other side itself is
  left when the row is booked with a category instead (`Stranded.SideStranded`);
  a trade accepted as one the books already have settles nothing
  (`Stranded.TradeStranded`); and a row set aside because its source is ignored
  leaves what was matched with it (`Stranding.MatchedStrands`,
  `Stranded.AsideStranded`). An import strands none of the rows that were there
  before (`Stranding.ImportStrands`).
- A row proposed as what the books already have (or as an estimate's posted
  form) forgets it when it is matched again, as its source is mapped again or a
  trade is booked near its day: the search for a transaction leaves out those a
  row of the account has matched, itself included (`Proposals.RematchForgets`;
  `internal/db/imports.sql.go:219-221` and `309`). With nothing else like it, it
  becomes new, and accepting it books the movement twice
  (`Proposals.RematchBooksAgain`).
- The queue's own creates do not check the lock date in the service
  (`Runs.QueueCreateHistory` says exactly when history is kept).

## Model

| member | source | states |
|---|---|---|
| Decimals.RoundOdd | internal/ledger/posting.go:127 | Rounding a negated amount gives the negated rounding (half away from zero) |
| Decimals.RoundHalfUnit | internal/ledger/reports.go:90-92 | Rounding moves an amount by at most half a unit of the last place |
| Decimals.RoundMonotone | internal/ledger/posting.go:140-158 | Rounding never reverses the order of two amounts |
| Decimals.RoundIdentity | internal/ledger/posting.go:63-65 | An amount passes the precision check exactly when it lies on the grid of its places, where rounding changes nothing |
| Decimals.RoundIs | internal/ledger/posting.go:120-127 | The rounding of an amount is the one amount on the grid within half a unit of it, the one farther from zero where two are |
| Rates.LatestIsNewest | internal/db/prices.sql.go:27-32 | No price is found only if none is quoted on or before the day; otherwise the one found is quoted then and none quoted then is newer, a manual one winning its day |
| Rates.RateIs | internal/ledger/rates.go:41-86 | A rate exists exactly for a currency in itself, for a pair quoted either way round, and for one whose two legs over the dollar are: it is one, the newest quote or what undoes the newest opposite one to within half a unit of the eighteenth place, or the product of the two legs |
| Rates.RateSign | internal/ledger/rates.go:41-86 | Whatever path a rate takes (same, direct, inverse, crossed), it is never negative |
| Lines.PrepareLines | internal/ledger/posting.go:192-236 | The loop with its running total and foreign flag computes the specified result: first bad line's error, exact balance, one FX line, or the refusal |
| Lines.ResolvedIs | internal/ledger/posting.go:68-185 | A resolved posting has the line's account, amount and commodity (the account's where none is named), and its base is by kind: itself, the one given, within half a unit of the amount at the day's rate, of units times unit cost at the rate of the quote currency, or of the share of the cost there was |
| Lines.ResolvesIff | internal/ledger/posting.go:68-185 | A line resolves exactly when its account takes postings, in the commodity named, the amount is not zero and no finer than it allows, and a base amount is given and fits, or a rate or enough holdings exist |
| Lines.BasisIs | internal/ledger/commodities.go:113-126 | The cost basis of an account adds each transaction's units and cost there up to the day, but for the one left out |
| Lines.ResolvedProper | internal/ledger/posting.go:68-185 | A resolved posting is on an account of the book in a listed commodity, and one in the base currency has its amount as its base amount |
| Lines.PreparedBalances | internal/ledger/posting.go:187-236 | Prepared lines are the given lines in order plus at most one FX line of at most one minor unit, and their base amounts sum to zero |
| Lines.PreparedPrecise | internal/ledger/posting.go:214-235 | On a precise book every prepared amount and base is on its grid, and an FX line is exactly one minor unit |
| Lines.PreparedIff | internal/ledger/posting.go:192-236 | Lines are accepted if and only if there are two or more, each resolves, and they balance or are off by at most a minor unit with a foreign line and an FX account |
| Lines.AverageCostPrecise | internal/ledger/posting.go:140-158 | The cost an average-cost disposal takes out is on the base currency's grid |
| Journal.Ledger.WriteLines | internal/ledger/transactions.go:61-90 | Inserting the prepared postings one by one leaves the specified book, or on an error the book it found |
| Journal.Ledger.CreateTransaction | internal/ledger/transactions.go:92-112 | Refused on or before the lock date; otherwise one new transaction under the next id, or no change |
| Journal.Ledger.CreateUnchecked | internal/ledger/transactions.go:116-134 | The queue's create: the same without the lock check, all or nothing |
| Journal.Ledger.UpdateTransaction | internal/ledger/transactions.go:154-172 | Replaces date and postings unless old or new date is locked; all or nothing |
| Journal.Ledger.DeleteTransaction | internal/ledger/transactions.go:174-190 | Removes the transaction unless its date is locked; all or nothing |
| Journal.Ledger.PostOpeningBalance | internal/ledger/accounts.go:140-195 | Posts the opening line, negated for a liability, and its counter posting of the opposite base; all or nothing |
| Journal.Ledger.CreateAccount | internal/ledger/accounts.go:50-135 | A new account with the parent's class and a default commodity, with its opening balance, or no change |
| Effects.AccountOpens | internal/ledger/accounts.go:50-135 | An account opens exactly when its class is named or its parent's and they agree, it holds a listed commodity, only an asset is cash, and an opening balance is for an asset or a liability that takes postings; it is the next account, with that class and commodity, and no other is touched |
| Effects.NoClassNoAccount | internal/ledger/accounts.go:50-135 | Without a class, or with one its parent contradicts, no account opens |
| Effects.OpeningIff | internal/ledger/accounts.go:140-195 | An opening balance is posted exactly on a day after the lock date, with an opening balances account, when what is stated (owed as a credit) resolves as a line |
| Effects.OpeningMoves | internal/ledger/accounts.go:140-195 | It gives the account what was stated, a liability the negation, from its day on; the worth of that leaves the opening balances account and no other account moves |
| Effects.CreateMoves | internal/ledger/transactions.go:116-134 | A new transaction moves the units of every account by its lines, from its day on and not before; only the FX account may get up to a minor unit more |
| Effects.CreateIff | internal/ledger/transactions.go:92-134 | Creating succeeds exactly after the lock date with lines that are admitted |
| Effects.UpdateMoves | internal/ledger/transactions.go:154-172 | Updating succeeds exactly for a stored transaction, both days after the lock, with lines admitted without its own postings; the old postings are taken back and the lines moved |
| Effects.DeleteMoves | internal/ledger/transactions.go:174-190 | Deleting succeeds exactly for a stored transaction dated after the lock, and takes back what it moved |
| Journal.CreateTxSound | internal/ledger/transactions.go:116-134 | Creating keeps the books sound: every transaction of two or more postings summing to zero |
| Journal.UpdateSound | internal/ledger/transactions.go:154-172 | Updating keeps the books sound |
| Journal.DeleteSound | internal/ledger/transactions.go:174-190 | Deleting keeps the books sound |
| Journal.PostOpeningSound | internal/ledger/accounts.go:140-195 | An opening balance keeps the books sound: its two base amounts cancel |
| Journal.OpenAccountSound | internal/ledger/accounts.go:50-135 | Opening an account, with or without an opening balance, keeps the books sound |
| Runs.EveryRunBalances | internal/ledger/posting.go:187-236 | After any sequence of creates, updates, deletes, queue creates, openings and rebases every transaction has two or more postings summing to zero in base, each on an account of the book, base-currency ones with base equal to amount |
| Runs.LockFreezesHistory | internal/ledger/transactions.go:35-45 | With the lock date fixed, no run of creates, updates, deletes, openings and rebases changes the postings dated on or before any locked date |
| Runs.QueueCreateHistory | internal/ledger/transactions.go:116-134 | A queue create keeps the locked history if and only if it is dated after the lock or its lines are not acceptable: the service has no check there |
| Runs.OpeningPrecise | internal/ledger/accounts.go:167-193 | An opening balance keeps all amounts on their grids if and only if the base amount its line resolves to, before the call, fits the commodity of the opening balances account; always so when that has no fewer places than the base currency |
| Runs.RunPrecise | internal/ledger/posting.go:68-236 | At every moment of a run all amounts are precise if and only if they are at its start and each non-zero opening balance in it fits; rebases and accounts opened without a balance always do |
| Runs.StepExact | internal/ledger/posting.go:68-236 | Books whose base amounts are on the base grid stay so under every operation, ill-fitting openings included, if and only if it is not a rebase to a currency in which they hold an amount off its grid |
| Runs.RunExact | internal/ledger/reports.go:291-340 | The exact statement theorems apply at every moment of a run if and only if they do at its start and each rebase finds the new currency's amounts on their grid |
| Runs.StaleOpening | internal/ledger/accounts.go:173-193 | Not every run does: a yen book rebased to dollars books an opening of half a dollar as half a yen |
| Rebase.Translate | internal/ledger/rebase.go:101-128 | One pass collects every transaction's new base amounts, the number of postings and the missing rates |
| Rebase.Residues | internal/ledger/rebase.go:141-152 | The residues are exactly the non-zero lacks of the transactions, and the total is their sum |
| Rebase.Rewrite | internal/ledger/rebase.go:165-194 | Overwriting the bases and adding the residue postings gives the specified transactions; without an FX account where one is needed nothing changes |
| Rebase.Rebase | internal/ledger/rebase.go:53-199 | The plan is the same for a dry run; the store changes to the specified book only when nothing is refused and no rate is missing |
| Rebase.RebasedTxnKeeps | internal/ledger/rebase.go:101-194 | A rebased transaction keeps id, date and, in order, every posting's account, commodity and amount; it gains one FX posting exactly when its residue is not zero, and it balances in the new base |
| Rebase.NewBaseIs | internal/ledger/rebase.go:101-128 | By kind: a posting in the new base is worth its amount, one in a third currency its amount at its own rate within half a unit, and the old base, securities and points their old base amount at the old base's rate, whatever their units and prices; it is a gap exactly when that rate is missing |
| Rebase.GapsAre | internal/ledger/rebase.go:101-139 | The gaps reported are exactly the rates missing on the postings' days |
| Rebase.RebasedCarries | internal/ledger/rebase.go:101-194 | After a rebase every posting of every transaction has the base amount it is translated to |
| Rebase.RebaseSound | internal/ledger/rebase.go:53-199 | A rebase keeps the books sound in the new base |
| Rebase.RebasePrecise | internal/ledger/rebase.go:106-125 | A rebase leaves every amount and every new base amount on its grid |
| Runs.RebaseBases | internal/ledger/rebase.go:106-125 | A rebase leaves all base amounts on the new grid if and only if the amounts it takes over unrounded are on it |
| Rebase.ResidueBound | internal/ledger/rebase.go:101-152 | Where one rate translates all n legs of a transaction that sums to zero, the residue is at most n half minor units, and zero for two legs |
| Rebase.AtCostResidue | internal/ledger/rebase.go:117-124 | The bound for transactions all of whose legs are carried at cost |
| Rebase.ThirdCurrencyResidue | internal/ledger/rebase.go:109-116 | The bound for transactions in one third currency |
| Groups.OrderFree | internal/db/accounts.sql.go:68-77 | Whatever order the aggregate query returns its groups in, a sum over them is the same |
| Groups.Regroup | internal/db/accounts.sql.go:68-77 | Summing the groups' base over a set of accounts is summing the postings on those accounts |
| Statements.Balances | internal/ledger/reports.go:251-289 | One pass gives each account's value and historical base and the total revaluation, skipping rows of unknown accounts |
| Statements.BalanceSheet | internal/ledger/reports.go:291-340 | For every order of ranging the map: the sheet of the specification, each line in its own total |
| Statements.IncomeStatement | internal/ledger/reports.go:359-411 | Refused for an inverted period; otherwise the specified report, with the revaluation of the period between the two balances |
| Statements.ValueIs | internal/ledger/reports.go:126-165 | Value by kind: the base currency is itself; no units of money or of a listed security are worth nothing; money is within half a unit of its amount at the day's rate, a listed security of units times price times the rate of its quote currency; cost where a price is missing, for a contract, points and all else |
| Statements.WorthItsCost | internal/ledger/reports.go:126-165 | Money brought in at the day's rate, and units bought at the day's price, are worth on that day exactly the base amount their line resolved to |
| Statements.SheetIs | internal/ledger/reports.go:291-340 | In the base currency each part of the sheet is the sum of its own accounts: assets and liabilities at their value, liabilities and equity as credits, equity and the result at cost; totals and unrealised follow from them |
| Statements.IncomeIs | internal/ledger/reports.go:359-411 | Income, expenses and net result told over the period's postings |
| Statements.ReportIs | internal/ledger/reports.go:46-74 | A report currency must be a known currency; its rate is the day's, and without one the report stays in the base currency |
| Statements.SheetTotals | internal/ledger/reports.go:303-337 | Equity less the equity accounts is the signed sum of all shown asset, liability and equity lines; unrealised is what the result leaves of it |
| Statements.EquityAt | internal/ledger/reports.go:291-340 | In the base currency equity less the equity accounts is exactly the revaluation minus all income and expense postings so far, and unrealised is exactly the revaluation |
| Statements.NetResultIs | internal/ledger/reports.go:359-411 | In the base currency the net result is exactly the period's income and expense postings, credit-positive, plus the period's revaluation |
| Statements.StatementsArticulate | internal/ledger/reports.go:251-411 | In the base currency, for every exact book and period, the change in total equity is the net result plus the change in the equity accounts, for any order of every query |
| Statements.TranslatedUnrealised | internal/ledger/reports.go:90-92 | Translated with n lines, unrealised is the revaluation at the report rate to within n + 1 half units of the last place |
| Statements.BaseReport | internal/ledger/reports.go:46-74 | A report asked for in the base currency, or in none, is in the base currency at rate one |
| CashFlow.CashAt | internal/ledger/reports.go:448-464 | Cash at a date is the sum of the cash accounts' values |
| CashFlow.Collect | internal/ledger/reports.go:486-500 | The flows per counter account are minus its postings, opening entries apart, cash accounts left out |
| CashFlow.CashFlow | internal/ledger/reports.go:466-537 | For every order of ranging the map: the specified statement, its exchange effect what closing cash leaves unexplained |
| CashFlow.FlowsAreTheirs | internal/ledger/reports.go:441-537 | Each class is the sum over the accounts shown under it of minus their legs in the period's transactions that move cash; interest and dividends are shown under the class the book chose |
| CashFlow.FlowsAreCashMovement | internal/db/accounts.sql.go:168-179 | The counter legs of transactions that move cash, with the opening entries, sum to minus the cash movement |
| CashFlow.CashFlowReconciles | internal/ledger/reports.go:466-537 | In the base currency the exchange effect is exactly the change over the period in (value - historical base) of the cash accounts |
| CashFlow.NoForeignCash | internal/ledger/reports.go:466-537 | With cash only in the base currency the exchange effect is zero |
| RollUp.Visit | internal/ledger/reports.go:196-207 | An entry's amount is added once to each account on its parent chain |
| RollUp.Range | internal/ledger/reports.go:196-207 | For every order of the range, and whether or not inserted entries are visited, each total is the sum over the account's subtree |
| RollUp.RollUp | internal/ledger/reports.go:195-215 | The result is the report: the accounts with something in or under them, ascending, each with its amount and subtree total |
| RollUp.ReportUnique | internal/ledger/reports.go:195-215 | Only one such report exists, so iteration order cannot show |
| TreeBalances.Climb | internal/ledger/balances.go:123-127 | The walk adds a row's base, value and units once to the account and each of its ancestors |
| TreeBalances.Balances | internal/ledger/balances.go:66-144 | One pass over the rows gives own figures, totals of the subtrees, class totals and values, unrealised and check as sums over the rows |
| TreeBalances.TotalIsSubtree | internal/ledger/balances.go:123-127 | Each account's total base, value and units of a commodity is the sum of the own figures over its subtree |
| TreeBalances.CheckIsZero | internal/ledger/balances.go:108-127 | On zero-sum books check and the class totals are zero at every date and the class values add up to unrealised |
| AverageCost.DisposalKeeps | internal/ledger/posting.go:140-158 | A disposal leaves cost between zero and what it was, exactly zero when all units go, and otherwise moves cost per unit by at most half a minor unit over what remains |
| AverageCost.EntryKeeps | internal/ledger/posting.go:140-158 | Written to the book, an entry changes quantity by its units and cost by its acquisition cost or average share, and neither goes negative |
| AverageCost.NeverNegative | internal/ledger/commodities.go:120-126 | Over every run in one base currency, of entries of the account in date order and of any creates, updates, deletes and openings that do not name it, the holding and its cost stay non-negative |
| AverageCost.DisposalRefused | internal/ledger/posting.go:148-153 | Disposing of more than is held, or of nothing held, is refused |
| Accepted.ClearsLoop | internal/ledger/imports.go:597-619 | Each leg of the estimate is rewritten, in place: the account's own to the posted amount, another in its currency to the opposite, a foreign one pinned |
| Accepted.NewRowExact | internal/ledger/imports.go:653-672 | A row booked as new is accepted if and only if both lines resolve, as those two postings whose bases cancel: no FX line |
| Effects.NewRowMoves | internal/ledger/imports.go:654-670 | Accepted as new, a row moves its account by its amount and the category by the opposite, from its day on, and no other account |
| Effects.TransferMoves | internal/ledger/imports.go:624-653 | Accepted as a transfer, both sides move by their own amounts, from the earlier of their days on, and no other account |
| Effects.ClearsMoves | internal/ledger/imports.go:591-623 | Accepted as an estimate's posted form, the transaction keeps day and legs in order: the row's own leg has the posted amount, one in its currency the opposite, any other its own amount with the posted figure as its base where the row is in the base currency; no other transaction changes |
| Effects.DuplicateKeeps | internal/ledger/imports.go:585-590 | Accepted as what the books have, a row takes that transaction and the books stay as they are |
| Effects.TradeMoves | internal/ledger/securities.go:158-212 | A booked trade writes the units on the security's account and the cash on the settlement account on its day; bought, the units cost the cash; sold, they leave at average cost, and a third posting on the gains account makes up the rest |
| Effects.RowsDecided | internal/ledger/imports.go:585-693 | The rows decided with an accepted row are exactly itself, its waiting duplicates of the queue, and for a transfer the other side; all take the one transaction |
| Accepted.TransferExact | internal/ledger/imports.go:626-646 | A transfer, in one currency or between two, is accepted if and only if both sides resolve, as exactly two postings whose bases cancel |
| Accepted.ClearsExact | internal/ledger/imports.go:597-619 | When the other leg shares the row's currency or the row is in base, a cleared estimate is accepted if and only if both legs resolve, as two postings whose bases cancel, in either order |
| Accepted.BookTradeIn | internal/ledger/securities.go:158-212 | A trade is booked on the store as specified, or nothing changes |
| Accepted.SameResolution | internal/ledger/securities.go:180-199 | A line resolves the same before the transaction is written and while it is, since the transaction is left out of its own cost basis |
| Accepted.TradeExact | internal/ledger/securities.go:158-212 | Every trade that books is its own two or three lines, re-resolved, summing to zero: no FX line |
| Invoices.SplitGroups | internal/ledger/invoices.go:521-541 | Groups on distinct accounts, none the main one, each the sum of its items; groups and rest make the total |
| Invoices.FindCategory | internal/ledger/invoices.go:551-560 | Finds the one income or expense line, or nothing when there is none or more than one |
| Invoices.PlainIs | internal/ledger/invoices.go:547-570 | What may be split posts the invoice's amount on one income or expense account and nothing on any other |
| Invoices.SplitLines | internal/ledger/invoices.go:547-589 | Splits exactly what is plain: one category line, in the currency, of the whole total, every part turned its way; otherwise nothing |
| Invoices.SplitMoves | internal/ledger/invoices.go:547-590 | A split takes from the category what the items name for others and gives each of those its own; no other account is touched |
| Effects.EnrichMoves | internal/ledger/invoices.go:440-461 | So it does to the balances, from the day of the transaction on; unsplit, the books stay as they are |
| Effects.PurchaseMoves | internal/ledger/invoices.go:463-490 | A cash purchase moves the paying account by the amount, the accounts the items name by their items and the category by what is left, from its day on |
| Effects.InvoiceTaken | internal/ledger/invoices.go:382-440 | Neither refused nor without its match is exactly an invoice that goes with the transaction it matched, or states an amount and is proposed as new or given a category |
| Invoices.SplitConserves | internal/ledger/invoices.go:575-588 | A split keeps the sum of amounts of every commodity |
| Invoices.SplitLinesTurn | internal/ledger/invoices.go:567-588 | Every new line of a split is non-zero and of the total's sign |
| Invoices.CashPurchase | internal/ledger/invoices.go:470-481 | The payment first, then lines that make up for it: each account gets what the items name for it and the category what is left; without a category, refused exactly when something is left |
| ImportQueue.StepKeeps | internal/db/imports.sql.go:1590-1596 | Each legal write keeps the invariant: numbered rows, one to an external id, matched with other rows only as their kind allows, waiting only on rows that come before them |
| ImportQueue.EveryRunKeeps | internal/ledger/imports.go:386-401 | The invariant holds after every legal log of writes |
| ImportQueue.NeverWaitsForItself | internal/ledger/imports.go:386-401 | In every reachable queue the waits-on relation (duplicate, same_invoice, enrich) is acyclic |
| ImportQueue.WaitingEnds | internal/ledger/imports.go:565-567 | From every waiting row the waits-on links lead, through waiting rows that are not stuck, to one that waits for none or to a stuck one |
| Stranding.WaitLeads | internal/ledger/imports.go:565-577 | In every reachable queue a waiting row leads, over waiting rows that are not stuck, to a waiting row that is stuck, or that Accept does not refuse because of the row it is matched with, unless that is the other side of a transfer and still to be mapped |
| ImportQueue.DecidedOnce | internal/db/imports.sql.go:172-176 | A row leaves pending at most once: it is decided if and only if the log holds its one decision |
| ImportQueue.DecisionStands | internal/db/imports.sql.go:172-176 | A decision stays whatever follows; a row loses only its link to a transaction deleted since |
| ImportQueue.AcceptedHasTransaction | internal/ledger/imports.go:680-687 | Every accepted transaction, trade or invoice row was decided with a transaction and has it unless that was deleted |
| ImportQueue.KnownStays | internal/db/imports.sql.go:1122-1130 | Once an external id is staged it is known for good |
| ImportQueue.StagedGrows | internal/db/imports.sql.go:1122-1130 | Staging a batch adds consecutive new rows, as many as counted, changes none, and knows every id sent |
| ImportQueue.ResentStagesNothing | internal/ledger/imports.go:97-99 | A batch whose ids are known stages nothing |
| Stranding.StuckIsHeldUp | internal/ledger/imports.go:565-630 | In every reachable queue a waiting row is held up if and only if it is matched with a row it is to wait for, or with one that can be no side of its transfer; so every stuck row is held up |
| ImportQueue.AloneStrands | internal/ledger/imports.go:791-809 | A row is left matched with a decided row by an acceptance if and only if, before it, it is matched with the row without being settled with it (the other side of a transfer among these), with a duplicate that is settled, or with a row decided earlier |
| ImportQueue.TransferStrands | internal/ledger/imports.go:621-687 | The same for both sides of a transfer: the duplicates of the second side are among those left |
| ImportQueue.DecidedStrands | internal/ledger/securities.go:355-371 | The same for a row decided alone: a trade the books already have, an invoice, a row ignored or set aside |
| Stranding.MatchedStrands | internal/ledger/imports.go:319-440 | Matching a row again frees it and leaves no other row stuck, if and only if it is not set aside; then exactly what was matched with it is left |
| Stranding.AcceptStrands | internal/ledger/invoices.go:363-378 | Matching the waiting invoices again frees exactly those |
| Stranding.AcceptedRowStrands | internal/ledger/imports.go:522-694 | Exactly the rows accepting a transaction row leaves stuck, transfer sides included, read off the queue before the call |
| Stranding.EachStrands | internal/ledger/securities.go:228-241 | Several rows matched one after another leave a row that is not among them stuck if and only if it was, or is matched with one of them that is set aside |
| Stranding.TurnStrands | internal/ledger/securities.go:228-241 | One of them is left stuck if and only if its own turn matched it with one set aside after it, or it could not be matched and was; never when none is set aside |
| Stranding.TradeStrands | internal/ledger/securities.go:375-407 | Exactly the rows booking a trade leaves stuck, of those not matched again after it, read off the queue before the call |
| Stranding.TradeTurns | internal/ledger/securities.go:375-407 | Of those matched again after it, exactly the ones matched with a row set aside after their turn; none while no source of theirs is ignored |
| Stranding.InvoiceStrands | internal/ledger/invoices.go:382-511 | Exactly the rows accepting an invoice leaves stuck |
| Stranding.ImportStrands | internal/ledger/imports.go:100-306 | Of the rows there before, an import leaves exactly those stuck that were, less the invoices matched again |
| Stranding.ImportTurns | internal/ledger/imports.go:292-305 | Of the rows staged, exactly the ones, but the invoices matched again, whose own turn matched them with a row set aside after it |
| Stranded.ChainStranded | internal/ledger/imports.go:789-809 | Two alerts and the posted charge, imported and accepted: the second alert is left behind the first, and refused |
| Stranded.TransferStranded | internal/ledger/imports.go:621-687 | A deposit, the same from another source and the withdrawal accepted: the second deposit is left behind the first, and refused |
| Stranded.SideStranded | internal/ledger/imports.go:626-630 | A deposit and its withdrawal paired as a transfer, the deposit accepted with a category: the withdrawal is left a side of a transfer, and refused |
| Stranded.TradeStranded | internal/ledger/securities.go:355-371 | Two trades alike and the purchase entered by hand, as a transaction the ledger accepts: the second trade is left behind the first, and refused |
| Stranded.AsideStranded | internal/ledger/imports.go:328-332 | A pending charge and the posted one of an ignored account in one batch of one connector: the first is left behind the second, and refused |
| Matching.NearestRow | internal/db/imports.sql.go:252-261 | The nearest row by day then id among those where the condition holds, or none if it holds nowhere |
| Matching.NearestTxn | internal/db/imports.sql.go:215-224 | The nearest transaction by key, day and id among those where the condition holds, or none if it holds nowhere |
| Matching.MatchedWrites | internal/ledger/imports.go:319-440 | Whatever the searches find, what is written is legal: a row waits only for a row before it, only the matched row and its pair change, a new link is to a waiting row |
| Matching.BooksFirst | internal/ledger/imports.go:363-385 | A transaction row is matched with a transaction if and only if the books have it or an estimate of it, and with one of those |
| Proposals.OneOfFour | internal/ledger/imports.go:363-439 | A bank row is proposed as a duplicate, as clearing an estimate, as a transfer or as new, with the one link that speaks of |
| Proposals.DuplicateIs | internal/db/imports.sql.go:215-224 | Proposed as the duplicate of a transaction, a row has its amount posted on its account at most three days off by one that no row of the account but ignored ones is or has matched, and none such is nearer |
| Proposals.DuplicateWhen | internal/ledger/imports.go:363-370 | And it is so proposed whenever there is such a transaction |
| Proposals.EstimateIs | internal/db/imports.sql.go:302-312 | Proposed as clearing one, a posted row has an uncleared two-leg transaction within a tenth of its amount and five days, matched by no waiting row, the closest in amount and then in days; and the books do not have the row |
| Proposals.EstimateWhen | internal/ledger/imports.go:371-385 | And it is so proposed whenever there is one |
| Proposals.SameChargeIs | internal/db/imports.sql.go:252-261 | Proposed as the duplicate of a waiting row, a row has one of another source with its account, currency and amount, at most three days off and taken by no third, which is posted where it is not, or came before it |
| Proposals.OtherSideIs | internal/db/imports.sql.go:904-957 | Proposed as a transfer, a row has the other side waiting on another account at most three days off: the opposite amount, or the same movement number and the other way in another currency |
| Proposals.NewWhen | internal/ledger/imports.go:402-439 | A row is new, under its rule's category, only when the books do not have it and no waiting row could be its other side |
| Proposals.RematchForgets | internal/db/imports.sql.go:219-221 | A row matched with a transaction is never given that one again when it is matched again |
| Proposals.RematchBooksAgain | internal/db/imports.sql.go:219-221 | The duplicate of the only transaction like it becomes new when it is matched again, if nothing else is like it |
| Proposals.TradeIs | internal/ledger/securities.go:317-337 | A trade is the duplicate of a transaction if and only if one of its units is on the account of its security at most three days off, which no other trade but ignored ones is or has matched; then of the nearest |
| Proposals.SameTradeIs | internal/ledger/securities.go:338-346 | Proposed as the duplicate of a waiting trade, a trade has one of another source alike, which knows its cash where it does not, or came before it |
| Proposals.TradeNewWhen | internal/ledger/securities.go:338-352 | Else a trade is new, and where trades alike wait one of the nearest now waits for it |
| Claims.ImportedOwn | internal/db/imports.sql.go:219-221 | Importing any batch never has two waiting rows of one account, two estimates' posted forms or two trades proposed as one transaction, if none were before |
| Claims.MatchedEachOwn | internal/db/imports.sql.go:219-221 | Nor does matching any rows again, in any order |
| Claims.RemappedOwn | internal/ledger/imports.go:479-503 | Nor does mapping a source to another account |
| Claims.StepOwn | internal/db/imports.sql.go:172-196 | Nor does any write to the queue but a proposal |
| InvoiceMatches.InvoiceIs | internal/ledger/invoices.go:89-187 | What an invoice's match says of the rows, postings and days: what paid for it to the amount within its days, is not itemised nor another invoice's; what may have paid abroad; what names its seller where no amount is stated; another connector's same bill; or nothing |
| InvoiceMatches.NothingLeft | internal/ledger/invoices.go:89-187 | An invoice waits, or becomes a purchase of its own, only when there is nothing of any of these kinds |
| InvoiceMatches.PaidFirst | internal/ledger/invoices.go:139-144 | Without another bill of its number an invoice goes with a transaction that paid it if there is any: one naming the seller first, then the nearest |
| InvoiceMatches.NumberFirst | internal/ledger/invoices.go:114-127 | A number another bill has decides before anything else; of several waiting bills the first staged |
| Matching.AlikeBooksOnce | internal/ledger/imports.go:386-401 | Where rows alike wait, exactly one of the row matched and the nearest of them, by day and id, waits for the other |
| Matching.AlikeTradesBookOnce | internal/ledger/securities.go:335-351 | Where trades alike wait, exactly one of the trade matched and the nearest of them waits for the other, and not the one that alone has its cash |
| Matching.TransferOrNew | internal/ledger/imports.go:402-439 | A transfer names each side on the other; a row is new only when the books do not have it and no other side waits |
| Matching.PurchaseWhenUnpaid | internal/ledger/invoices.go:113-190 | An invoice becomes a cash purchase only with an amount, after the wait, when nothing that could have paid it is booked or waits |
| Review.Service.InsertImportRow | internal/db/imports.sql.go:1122-1130 | Stages a row under the next id, or nothing when its external id is known |
| Review.Service.DecideRow | internal/db/imports.sql.go:172-176 | Decides a waiting row, once; otherwise nothing |
| Review.Service.ProposeTransaction | internal/ledger/imports.go:357-440 | Writes what the specification of the searches gives, for itself and its pair |
| Review.Service.ProposeTrade | internal/ledger/securities.go:317-351 | The same for a trade |
| Review.Service.ProposeInvoice | internal/ledger/invoices.go:89-191 | The same for an invoice, its items categorised first |
| Review.Service.Propose | internal/ledger/imports.go:319-440 | Dispatches on status, kind and mapping; an unmapped row waits, an ignored source's is set aside, a balance or holding row is applied |
| Review.Service.SettleDuplicates | internal/ledger/imports.go:791-809 | Decides exactly the waiting transaction and trade rows proposed as duplicates of the row, with its transaction |
| Review.Service.RematchInvoices | internal/ledger/invoices.go:363-378 | Matches the waiting invoices again by date and id; nothing else changes |
| Effects.InvoiceTurn | internal/db/imports.sql.go:1419-1426 | At most the first five hundred waiting invoices by date and id; any other comes after every one of them |
| Review.Service.AcceptBoth | internal/ledger/imports.go:647-649 | Both sides of a transfer are decided with the one transaction |
| Review.Service.AcceptTransaction | internal/ledger/imports.go:522-694 | Every refusal, the match-again path, and for each proposal the transaction written and the rows decided with it, all or nothing |
| Review.Service.AcceptTradeDuplicate | internal/ledger/securities.go:355-371 | Takes the matched transaction, waits for a waiting match, or matches again |
| Review.Service.AcceptTrade | internal/ledger/securities.go:375-407 | Books the trade and decides it and its duplicates, then matches the settlement account's near rows again; all or nothing |
| Effects.SettlementRows | internal/ledger/securities.go:227-241 | The rows matched again are the waiting bank rows of the settlement account at most five days off, by date and id |
| Review.ListedInTurn | internal/db/imports.sql.go:1443-1484 | Rows are matched again by day, and by id on one day |
| Review.Service.BookEnriched | internal/ledger/invoices.go:440-461 | Splits the paid transaction by the items when asked and where it can be (a plain purchase of the amount, every part turned its way), keeping every commodity's amounts, else leaves it |
| Review.Service.BookPurchase | internal/ledger/invoices.go:463-490 | Books a cash purchase whose lines sum to zero, the payment first on the mapped account, each account getting its items and the category what is left |
| Review.Service.AcceptInvoice | internal/ledger/invoices.go:382-511 | Every refusal, the match-again path, and the three ways an invoice is accepted, each deciding the row once |
| Review.Service.Accept | internal/ledger/imports.go:522-694 | For every kind: a waiting row becomes accepted with the transaction returned, or the books are unchanged; decided rows stay as they are and sound books stay sound; without a category it answers with a conflict if and only if the row is held up (then nothing changes) or has lost its match |
| Review.Service.IgnoreRow | internal/ledger/imports.go:733-759 | A waiting row is ignored and no row that can be matched still waits for it; otherwise nothing changes |
| Review.Service.IgnoreSource | internal/ledger/imports.go:763-787 | No row of the source is left waiting; decided rows stay as they are |
| Review.Service.MapSourceAccount | internal/ledger/imports.go:479-503 | Sets the mapping; an ignored source keeps no waiting row, a mapped one has its rows matched, decided rows stay as they are |
| Review.Service.Import | internal/ledger/imports.go:100-306 | Received = staged + duplicates; the rows are those staged, matched in order, then the waiting invoices matched again, what the model leaves open read anew |
| Review.Service.DeleteTransaction | internal/ledger/transactions.go:174-190 | Deleting a transaction takes it out of every row that named it |
| Review.ResendChangesNothing | internal/ledger/imports.go:97-99 | A batch sent again stages nothing and changes no decision: only waiting invoices are matched again |
| Review.ResentLater | internal/ledger/imports.go:97-99 | A batch once imported and sent again in any later state of the queue, under any books and mapping, stages nothing and changes no decision |
| Review.HeldIff | internal/ledger/imports.go:565-692 | Whatever the books and prices, a transaction row that would be booked conflicts if and only if it is held up by the row it is matched with |
| Review.LinksMoved | internal/ledger/imports.go:749-757 | Matching a row again removes its link to a decided row and gives no row such a link |
| Review.BookedRowSound | internal/ledger/imports.go:590-693 | Whatever a transaction row books keeps the books sound |
| Review.BookedTradeSound | internal/ledger/securities.go:158-212 | Whatever a trade books keeps the books sound |
| Review.InvoiceBookedSound | internal/ledger/invoices.go:434-505 | Whatever an invoice books keeps the books sound |
| ImportAccounts.LongPathCycles | internal/ledger/bookfile.go:638-640 | A parent chain longer than the file has accounts goes round a cycle (pigeonhole on the depth guard) |
| ImportAccounts.MappedAcyclic | internal/ledger/bookfile.go:632-668 | If every account could be created, no parent chain is cyclic |
| ImportAccounts.Importer.Create | internal/ledger/bookfile.go:632-668 | The guarded recursion creates the account after its ancestors, keeps what was made, and reports a cycle only if there is one |
| ImportAccounts.Import | internal/ledger/bookfile.go:623-675 | Succeeds if and only if ids are distinct, parents present and no chain cyclic; then a total injective map that commutes with parent, parents first; with distinct ids and present parents the error is a cycle exactly when there is one |
| BookFile.ExportBook | internal/ledger/bookfile.go:171-324 | The file: accounts as listed, transactions by date and id, each with its lines in order |
| BookFile.ImportBook | internal/ledger/bookfile.go:362-619 | A book comes out if and only if the base is a currency, the accounts hang together and every transaction passes the line rules; then it is the specified book, archived and locked last |
| BookFile.LineComesBack | internal/ledger/bookfile.go:454-462 | A stored posting imports as itself, renamed, if and only if it keeps the line rules |
| BookFile.TxnsComeBack | internal/ledger/bookfile.go:433-475 | A list of balanced transactions imports if and only if all postings keep the rules, as the same lines with no FX line |
| RoundTrip.ByDateSorts | internal/ledger/bookfile.go:201-204 | The exported order is a permutation of the transactions, strictly by date and id |
| RoundTrip.BookComesBack | internal/ledger/bookfile.go:171-619 | For every sound acyclic book, importing its export succeeds if and only if its stored postings keep the line rules, and gives the same book under an injective account renaming that commutes with parent, sound again |
| RoundTrip.BalancesComeBack | internal/ledger/bookfile.go:171-619 | Then every balance agrees: any set of accounts, any commodity or base, any date |
| RoundTrip.ImportedBookSound | internal/ledger/bookfile.go:356-361 | Whatever the file, an imported book has only transactions of two or more postings summing to zero, all amounts precise, ids in order |
| RoundTrip.ImportedSoundIff | internal/ledger/bookfile.go:362-619 | An imported book has the whole invariant of sound books if and only if its accounts hold listed commodities and its opening balances account, if any, holds one |
| RoundTrip.LivesBalance | internal/ledger/bookfile.go:362-619 | Through any sequence of operations and imports of fit files every transaction has two or more postings, on accounts of the book, summing to zero in base |
| RoundTrip.UnbalancedTaken | internal/ledger/bookfile.go:358-361 | An unbalanced transaction of a file is taken if and only if it is off by at most a minor unit, has a foreign line and the book has an FX account |
| RoundTrip.UnbalancedRepaired | internal/ledger/bookfile.go:358-361 | A yen file whose only transaction lacks a yen (five dollars at 600 yen against 599 yen): every import of it succeeds, with a third posting of the yen |
| RoundTrip.StaleBookRefused | internal/ledger/bookfile.go:362-619 | The book of StaleOpening, which the ledger itself writes, cannot be imported from its own export |
| Restorable.RulesKeptIff | internal/ledger/posting.go:68-158 | The stored postings of a sound book keep the line rules if and only if all are on their grids and checked: not zero, base not against amount, on an account that takes them |
| Restorable.MoneyKeepsSign | internal/ledger/posting.go:106-158 | A line in a currency, or with a base amount given, never resolves to a base amount against its amount |
| Restorable.StepRestorable | internal/ledger/bookfile.go:433-475 | From a book its own export restores, an operation leaves one that it does not if and only if an opening balance does not fit, or it writes a posting that is not checked |
| Restorable.RunRestorable | internal/ledger/bookfile.go:433-475 | At every moment of a run the stored postings keep the line rules if and only if they do at its start, each opening balance fits and each operation writes only checked postings |
| Restorable.StepPortable | internal/ledger/bookfile.go:171-324 | Every operation keeps what the round trip is promised for: sound, its base a currency, parents present and acyclic |
| Restorable.RunComesBack | internal/ledger/bookfile.go:171-619 | Through any such run, importing the export of the book as it then stands succeeds and gives the same book |
| Paging.CursorRoundTrip | internal/ledger/transactions.go:273-294 | Decoding a cursor gives back the date and id encoded |
| Paging.PageFrom | internal/ledger/transactions.go:312-371 | A page continues exactly after the rows listed so far and names its last row, or ends the list |
| Paging.ListAll | internal/ledger/transactions.go:312-371 | Following cursors ends and lists every matching transaction exactly once, newest first |
| Paging.NewestFirstIs | internal/ledger/transactions.go:312-371 | Each transaction listed is of a later day than the next, or of the same with a greater id |
| Paging.Descendants | internal/ledger/transactions.go:296-308 | The growing list is the root's whole subtree, each account once |

## Left out

- Review.Service.AcceptTransaction: the postings' status and cleared date, payee, memo, tags and evidence are not modelled; a duplicate's effect on the books is therefore none.
- Review.Service.AcceptTrade: the account that holds the security is a parameter; finding or creating it (`securityAccount`) is not modelled.
- Review.Service.AcceptInvoice: the items written to the transaction and its attachment are not modelled.
- Review.Service.Import: checks of the batch's fields, files, source accounts and new securities come before the rows and are not modelled.
- Review.Service.MapSourceAccount: the checks that an account fits its source are not modelled.
- Review.Service.Propose: balance assertions written for a balance or holding row are not modelled, only the row's decision.
- Matching.MatchedWrites: text matching, rules, item and connector lookups, uncleared flags, payments found through an exchange rate and the clock are parameters (`Look`), one arbitrary value per row matched; the LIMIT of the seller searches is not applied.
- Matching.NearestTxn: an estimate posted twice on one account is ranked by its first posting there.
- Review.Service.IgnoreRow: the rows that waited are matched again in any order, as the query gives none; errors of the store in the middle are not modelled.
- BookFile.ExportBook: names, codes, unit cost, status, memo, tags, items, assertions, prices, rules and source accounts of the file are not modelled.
- Journal.Ledger.CreateAccount: account names and codes, and the default date of an opening balance, are not modelled.
- Runs.EveryRunBalances: editing, archiving and deleting accounts, and balance adjustments, are not steps of their own; adjustments write through create.
- AverageCost.NeverNegative: one line of the account in a transaction, no base amount given by the caller on a disposal and non-negative acquisition costs are required, as cost basis leaves out the transaction being written; changing or deleting an entry of the account itself, and a rebase, are not steps of its runs.
- RollUp.RollUp: parents are taken to be acyclic (a rank is given): `UpdateAccount` has no check, a trigger of the store has; so in TreeBalances and Paging.
- Statements.BalanceSheet: the report lines (RollUp.RollUp is what makes them), the rates used and missing, holdings and the revalued flag are not modelled.
- Statements.IncomeStatement: the report lines, and the rates used and missing, are not modelled.
- Accepted.BookTradeIn: the account that holds the security is given, not found or created.
- BookFile.ImportBook: assertions, source accounts, rules, prices, items, tags and the attributes of lines that carry no amount are not modelled.
- RoundTrip.ImportedSoundIff: that an account's commodity is listed is a foreign key of the store, here part of the condition.
- CashFlow.CashFlow: the sorted list of lines is not modelled, only its class totals.
- Paging.ListAll: the list of transactions is fixed while it is paged, and the filters are taken as applied.
- The database's triggers and checks (lock date, balance, signs, unique external ids of transactions): the service's own rules are modelled, not the second line of defence.
- Concurrent requests: operations are serial, as the store's transactions make them.
- Drift, tag reports, rules and assertions: they read or write only what is not modelled here.
- Users, roles, mail, connections, HTTP and configuration: no bookkeeping.
