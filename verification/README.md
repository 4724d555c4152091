# Econumo backend: a Dafny model

This project models the parts of the budgeting backend whose correctness spans several functions, and proves what
they are for. `dafny verify dfyconfig.toml` checks all of it.

* **Budget rows.** A budget keeps one row per envelope, category, tag and savings account that takes part in it, and
  planned amounts and comments hang off the row. `ElementSync` is the reconciliation as a class that reads and writes
  the rows through its indexes; `Reconciled` says what a finished one has established; `MissingKeys` and `SortKey` are
  the ordering keys it hands out; `ParticipantRows` says what the rows are in terms of what takes part. `Membership`
  plans, guards and writes changes of members, `MergeElements` merges two entities, `SelfHeal` finds a row to write
  under. `BudgetWrites` runs all of these writes one after another.
* **Money reads.** `MoneyLines` says which amounts an entry adds to which keys of each report. `MoneyReads` is the
  looping code, `DatedReads` the reads clamped at an instant and joined again, and `MoneyTheorems` the conservation
  laws. `Calendar` holds the period arithmetic, `Decimal` and `Convertor` the fixed-point two-hop conversion.
* **Two pages and two reports.** `PlanPage` and `MonthlyPage` file the same rows by different code; `PagesAgree`
  proves they show the same spending, `PagesFromReads` derives what that needs from the reads, and `PageAmounts` says
  what the pages show in terms of the budget's rows and the rates alone. `RunningBalances` and `NetWorth` show running
  balances to be direct ones; `SavingsPage` is the monthly page's savings rows end to end.
* **Imports.** `ImportMatcher` decides what an event is and `ImportLinkOrder` when the order of links matters to it;
  `ImportLedger` is a state machine of guarded moves on the books and what every run of them keeps, and `ImportService`
  is each operation as one transaction proved to be a run of moves. `ImportDecision` says what is decided and written
  over the stored rows, calendar days and words alone.
* **Authorization server.** `AuthModel` is a state machine over the atomic steps of requests that read outside a
  transaction and write conditionally inside it; a request in flight is part of the state, so a run is an
  interleaving. `AuthServer` is the code, each method proved equal to its step; `AuthInvariant` and `AuthTheorems` are
  what holds after every run. `AuthOrigins` and `AuthRotations` trace codes, grants, rotations and revocations back to
  the steps that caused them and what those presented; `AuthEffects` says what each step may do to a stored row.

Identifiers are natural numbers whose order stands for the order of their string forms. Repositories are maps; a
transaction is one method that leaves the maps as they were when it fails. The clock, new identifiers and secrets, a
payload's parse, the rules' resolution, and the answers of the rate store are parameters or fresh choices.

Six promises are true only under a condition, and each is proved with the condition as an if-and-only-if or with the
inputs that break it:

* Every usable access token's grant stays stored through every sweep if and only if each commit that mints a token comes
  no later than 120 days less an hour, plus a nanosecond, after the clock its request read (`AuthTheorems.PromptExactly`);
  a later one is stranded by a sweep (`LateMintStrands`, and a whole run in `LateCommitStrandsToken`).
* The matcher's result depends on the order of a candidate's links if and only if a best candidate has two taps equally
  far off, one of the recorded amount (`ImportLinkOrder.LinkOrderFree`, event in `LinkOrderMatters`).
* The monthly page and the plan agree while the first envelope to name a category is the one with the lowest id
  (`PagesAgree.PagesAgree`, `PagesFromReads.PagesAgreeOnReads`); wherever that fails an expense of the category shows on
  one page only (`PagesDisagree`), and two expense envelopes sharing a category make it fail (`DoubleClaim`).
* Signed account lists equal the account's net if and only if no entry is a transfer from the account to itself, whose
  incoming side the list drops (`MoneyTheorems.AccountListAgrees`, entry in `SelfTransferDiffers`).
* The guard of a membership write looks at the leaving accounts only, so it would let a leftover savings row's plan go
  (`Membership.UnconfirmedLoss`, `LeftoverRowLost`). No run of the writes leaves such a row behind
  (`BudgetWrites.HistoryRooted`), so on every store they reach an unconfirmed write loses nothing
  (`UnconfirmedNeverLoses`).
* A savings row's pending month is valued at its own period's rates while the page's batch is of whole periods
  (`SavingsPage.BuildMonthlySavings`). In general that takes every cross-currency item starting in the month to cover its
  period, and that is exact (`Convertor.OneRangeExactly`); a budget stored with a mid-month start and months from day 1
  breaks it (`MidMonthStart`).

## Model

| member | source | states |
|---|---|---|
| Calendar.PeriodOfIffInWindow | internal/model/budget.go:343-372 | an instant is filed under a month key if and only if it lies in that key's window, for every start day, month length and leap year |
| Calendar.WindowsAbut | internal/model/budget.go:363-367 | each window is non-empty and the next one starts where it ends |
| Calendar.PeriodsPartitionTime | internal/model/budget.go:369-372 | every instant lies in the window of exactly one month key, the one it is filed under |
| Calendar.PeriodStarts | internal/model/budget.go:343-367 | a budget that starts on day d of 1 to 28 has periods from d of the month to d of the next, and one with any other start day has calendar months |
| Calendar.MonthDays | internal/model/budget.go:354-372 | the months have their Gregorian lengths, February 29 days in leap years |
| Calendar.AddDateShifts | internal/model/budget.go:354-372 | adding months and days keeps the day of the month and the clock, and a day the month lacks spills over |
| Decimal.RoundHalfUnit | internal/shared/vo/decimal.go:143-168 | rounding to any number of digits moves a value by at most half a unit of the last digit |
| Decimal.QuoMonotone | internal/shared/vo/decimal.go:129-141 | truncating division by a positive number is monotone, negative amounts included |
| Decimal.RoundExactly | internal/shared/vo/decimal.go:143-168 | rounding picks the nearest multiple of the last digit's weight, and of two as near the one farther from zero; said with the weights written out |
| Decimal.CutExactly | internal/shared/vo/decimal.go:121-141 | products and quotients are cut toward zero at eight decimals: the value is the only one whose remainder has the dividend's sign and is smaller than the divisor |
| Convertor.Convert | internal/currency/convertor.go:152-180 | over any rates: fails exactly when the source currency's first listed rate is zero, where the division panics; else converts by effective rates, the first listed one or 1 for the base and for an unlisted currency |
| Convertor.ConvertedOdd | internal/currency/convertor.go:152-180 | converting a negated amount negates the result |
| Convertor.ConvertedMonotone | internal/currency/convertor.go:152-180 | a larger amount never converts to a smaller one |
| Convertor.ConvertedError | internal/currency/convertor.go:5-12 | the result is within half a unit of the target's digits plus 10^-8 * (rate_to + 1) of the exact quotient, for all positive rates and amounts |
| Convertor.RateUsed | internal/currency/convertor.go:152-180 | a hop uses the first rate listed for its currency, and 1 for the base currency and for one not listed |
| Convertor.Summarize | internal/currency/convertor.go:182-196 | one output item per group of currencies and period days, holding exactly the group's sum |
| Convertor.LoadedRanges | internal/currency/convertor.go:58-84 | the rate ranges loaded are the batch's own and one range some cross-currency item asks for per further month, none missing and none extra |
| Convertor.OneRangeExactly | internal/currency/convertor.go:58-84 | a further month's rates are those of one range in every walk of the batch if and only if its cross-currency items ask for no other range |
| Convertor.BulkConvert | internal/currency/convertor.go:58-109 | every key gets the sum of its groups' conversions at the ranges loaded, in whatever order the batch is walked |
| Convertor.BulkConvertInvariant | internal/currency/convertor.go:58-109 | when the items starting in a month share one range, no key's total changes when items are permuted or one is split in two |
| SortKey.IncrementGrows | internal/shared/sortkey/sortkey.go:126-160 | the incremented integer part is again one and sorts strictly above |
| SortKey.DecrementShrinks | internal/shared/sortkey/sortkey.go:162-197 | the decremented integer part is again one and sorts strictly below |
| SortKey.MidpointBetween | internal/shared/sortkey/sortkey.go:199-255 | the midpoint of two fractions is a fraction strictly between them, the upper one open or not |
| SortKey.BetweenIsBetween | internal/shared/sortkey/sortkey.go:261-346 | a key is found exactly when the bounds are valid, in order, and not at the bottom of the key space; it is valid and strictly between them |
| SortKey.AfterIsAbove | internal/shared/sortkey/sortkey.go:297-313 | appending after any valid key always succeeds and sorts strictly above it |
| ElementSync.Reconciler.Ensure | internal/budget/move.go:303-323 | finds an entity's row by its external id and retypes it in place, or makes one keyless row with a fresh id; no other row changes |
| ElementSync.Reconciler.EnvelopePass | internal/budget/move.go:330-353 | after the envelopes every envelope has its row on the side it was stored with, and the child categories are collected |
| ElementSync.Reconciler.SavingsPass | internal/budget/move.go:402-430 | after the savings members every claim so far has exactly its row, and no other row has changed |
| ElementSync.Reconciler.AssignMissingKeys | internal/budget/move.go:462-500 | gives each live keyless row a key above every key of its no-folder group, in id order; fails exactly when a group to extend ends in a malformed key |
| ElementSync.Reconcile | internal/budget/move.go:269-432 | the four passes and the key assignment reach the state the claims call for |
| Reconciled.ReconciledRows | internal/budget/move.go:303-454 | the rows left are one per claim and no other, survive exactly when claimed, and are keyed exactly when live |
| Reconciled.ExtendableUnlessBlocked | internal/budget/move.go:462-500 | the keys can be handed out if and only if no group that needs one ends in a malformed key, said of the stored rows alone |
| Reconciled.OrderKept | internal/budget/move.go:432-454 | two live rows that had keys keep their relative order |
| Reconciled.NewKeysFollow | internal/budget/move.go:462-500 | newly keyed rows come strictly after every kept folder-less row of their group, and among themselves in id order |
| Reconciled.SyncIdempotent | internal/budget/move.go:269-454 | reconciling reconciled rows again gives the same rows |
| ElementSync.SaveRows | internal/budget/move.go:436-445 | writes exactly the changed rows; the unique index holds after every single write |
| ElementSync.DeleteUnseen | internal/budget/move.go:447-454 | deletes exactly the rows nobody claims, with their limits and comments |
| ElementSync.SyncElements | internal/budget/move.go:269-460 | one transaction: fails without a trace exactly when blocked; else each envelope, category, tag and savings account has one row of its own kind and side, keyed exactly when listed, in no folder where it may not be in one, every other row is gone, what differs was saved and what is unclaimed deleted, and every row, limit and comment of other budgets is as it was |
| ParticipantRows.SyncedPlaces | internal/budget/move.go:303-454 | what a reconciliation leaves, said of what takes part: a tag is keyed exactly unless archived, an envelope keeps its stored side, a category has its own side's kind and is keyed exactly unless archived or in an envelope, a savings row is always keyed; a stored row stays exactly if its entity takes part |
| ElementSync.PlansSurvive | internal/budget/move.go:264-267 | a planned amount is lost exactly when its row's entity stopped taking part; a change of side loses nothing |
| ElementSync.SecondSyncDoesNothing | internal/budget/move.go:269-460 | a second run right after cannot fail, saves nothing and deletes nothing |
| SelfHeal.GetElementSelfHeal | internal/budget/accounts.go:303-324 | a stored row is answered untouched; otherwise the store is reconciled and a row is found exactly when the entity takes part or is a savings member; blocked, nothing changes |
| Membership.LeavingExact | internal/budget/savings_flag.go:54-70 | the leaving accounts are exactly those that were savings members before and are not after |
| Membership.TouchesExact | internal/budget/savings_flag.go:72-89 | a plan touches savings exactly when some savings row appears or disappears |
| Membership.MemberChange.Leaving | internal/budget/savings_flag.go:54-70 | the loops collect exactly the leaving set |
| Membership.PlanOwnMembership | internal/budget/savings_flag.go:184-276 | the refusal is the first failing check in the code's order, and an accepted plan leads exactly to the requested members and roles |
| Membership.OthersUntouched | internal/budget/savings_flag.go:184-276 | an account that is another participant's keeps its membership and role, whatever is asked for |
| Membership.OwnAsNamed | internal/budget/savings_flag.go:184-276 | an own account is a member afterwards exactly if it was named, or was one and no list was given, and saves exactly if it was named for it, or did and no list was given |
| Membership.AllowedExactly | internal/budget/savings_flag.go:184-276 | a request passes exactly if no id is malformed, it drops no locked own member and adds no deleted own account, and each account named for savings is an own one that ends a member |
| Membership.GuardSavingsRemoval | internal/budget/savings_flag.go:99-124 | passes exactly when confirmed, or when no limit and no comment is on a savings row of the budget for a leaving account |
| Membership.ApplyMemberChange | internal/budget/savings_flag.go:126-151 | writes the members and, exactly when a savings row appears or disappears, the reconciled rows; a failed sync leaves no trace |
| Membership.SyncBudget | internal/budget/move.go:269-460 | the reconciliation with the budget's own stored savings members; fails without a trace, and only when blocked |
| Membership.GuardAndApply | internal/budget/savings_flag.go:153-171 | one transaction of guard and write: it either changes nothing or concludes in full |
| Membership.UpdateBudget | internal/budget/crud.go:79-104 | plans, guards and writes in one transaction; any refusal leaves the store as it was, and otherwise this budget's members are the goal and no other budget's change |
| Membership.AddAccount | internal/budget/accounts.go:66-92 | adds a live account or changes a member's role: the account has the role asked for, or the one it had, or none; no other account's membership moves |
| Membership.RemoveAccount | internal/budget/accounts.go:97-122 | drops a member unless its history locks it; no other account's membership moves |
| Membership.UnconfirmedLoss | internal/budget/savings_flag.go:91-124 | when no limit or comment is on a leaving account's savings row, a savings row that holds one is deleted if and only if it had outlived its account's savings role and the write moves some savings |
| Membership.UnconfirmedKeepsPlans | internal/budget/savings_flag.go:91-124 | one write from a store without leftover savings rows: unconfirmed, it changes nothing or keeps every limit and comment on the budget's savings rows with its value; confirmed or not, it leaves no leftover behind |
| Membership.LeftoverRowLost | internal/budget/savings_flag.go:91-124 | what the guard would not catch: on a store with a leftover row, an unconfirmed write deletes the row and the amount planned on it |
| BudgetWrites.SeedMemberAccounts | internal/budget/accesssvc.go:117-142 | a joining participant's live accounts become members, none of them for savings; no row moves |
| BudgetWrites.RemoveMemberRecords | internal/budget/accesssvc.go:144-240 | a departing participant takes their rows and savings rows along first, then their accounts; every other row stays |
| BudgetWrites.WritesRooted | internal/budget/savings_flag.go:91-151 | every kind of write to rows, members or plans (membership changes, reconciliations, merges, joining, departing, opening, seeding, moving, copying and deleting) keeps each savings row with an account that plays the savings role |
| BudgetWrites.HistoryRooted | internal/budget/savings_flag.go:91-151 | so does every run of writes from a store without rows |
| BudgetWrites.UnconfirmedNeverLoses | internal/budget/savings_flag.go:91-124 | on every store such a run reaches, an unconfirmed membership write changes nothing, or every limit slot and every comment on the budget's savings rows is in the new store with the same value |
| BudgetWrites.LeftoverUnreachable | internal/budget/savings_flag.go:91-124 | the store with a leftover row is not one a run reaches |
| MergeElements.MergeElementLimits | internal/budget/merge.go:79-109 | month by month, in integers: where both planned the target plans the sum, where one did that amount, where neither did nothing; every other limit stays |
| MergeElements.MergeElements | internal/budget/merge.go:40-77 | over all budgets the store ends merged: rows absorbed or renamed, limits added, comments moved |
| MergeElements.PlansConserved | internal/budget/merge.go:40-109 | in every budget and month, in integers: the target plans the sum where both planned, that amount where one did, nothing where neither did |
| MergeElements.SourceGone | internal/budget/merge.go:40-77 | no row of the source is left and the target has one row per budget |
| MergeElements.OthersKept | internal/budget/merge.go:40-109 | rows of every other entity keep their place, amounts and comments |
| MergeElements.CommentsFollow | internal/budget/merge.go:40-77 | every comment on either entity ends on the surviving row of its budget, unchanged |
| AuthServer.Server.ApproveAuthorization | internal/authserver/authorize.go:118-160 | under the user lock: a code carrying the generation read, only for a session still live |
| AuthServer.Server.BeginExchange | internal/authserver/token.go:73-88 | the code is consumed before any check; the attempt is let on exactly with its client, its redirect, the verifier of its challenge, an accepted resource and a clock before its end |
| AuthServer.Server.CommitExchange | internal/authserver/token.go:90-126 | one grant and token, the user's earlier grants for the client revoked with their tokens; nothing if the generation moved |
| AuthServer.Server.RevokeOtherGrants | internal/authserver/token.go:112-121 | revokes exactly the user's other unrevoked grants for the client, and the tokens of each |
| AuthServer.Server.BeginRefresh | internal/authserver/token.go:181-192 | finds the one grant holding the hash; an unknown hash goes on to the spent ones |
| AuthServer.Server.RotateGrant | internal/infra/storage/sqlc/query/sqlite/oauth_server.sql:57-62 | changes one row exactly when the presented hash is current and the grant unrevoked |
| AuthServer.Server.CommitRefresh | internal/authserver/token.go:194-225 | rotates, records the spent hash and mints a token together, or changes nothing |
| AuthServer.Server.HandleRotatedRefresh | internal/authserver/token.go:243-273 | revocation starts exactly for a spent token that is not the last one or comes outside the grace window |
| AuthServer.Server.RevokeGrant | internal/authserver/grants.go:20-30 | revokes the grant and its tokens in one transaction |
| AuthServer.Server.RevokeConnectedApp | internal/authserver/grants.go:55-68 | starts a revocation exactly for one of the user's own unrevoked grants |
| AuthServer.Server.Reclaim | internal/user/reclaim.go:17-54 | moves the generation and revokes every session, token and grant of the user |
| AuthServer.Server.Housekeeping | internal/authserver/token.go:152-165 | deletes exactly the expired codes and the long-dead grants and tokens, with the grants' spent hashes |
| AuthInvariant.StepKeeps | internal/authserver/token.go:57-273 | every step of every request keeps the invariant |
| AuthInvariant.RunKeeps | internal/authserver/token.go:57-273 | the invariant holds after every run, under every interleaving |
| AuthTheorems.RotatedAtMostOnce | internal/authserver/token.go:183-225 | in any run no refresh hash is rotated twice |
| AuthTheorems.RefreshIsRotation | internal/authserver/token.go:194-225 | a refresh mints a token exactly when it rotates the presented hash |
| AuthTheorems.CurrentOrSpent | internal/authserver/token.go:183-225 | every hash ever issued for a stored grant is its current one or a spent one, never both |
| AuthTheorems.OneGrantPerClient | internal/authserver/token.go:90-126 | at most one unrevoked grant per user and client, each approved under the user's present generation |
| AuthTheorems.CodeUsedOnce | internal/authserver/token.go:74-88 | a code makes at most one grant (section 4.1.2 of RFC 6749) |
| AuthOrigins.GrantsWereApproved | internal/authserver/token.go:73-126 | in any run every grant ever made goes back to a live session's approval and to a presentation of that code with its client, its redirect, the verifier of its challenge, an accepted resource and a clock less than 120 s after the approval's, committed while the user's generation stood, for ninety days and with a one-hour token (section 4.6 of RFC 7636) |
| AuthOrigins.ApprovedExactly | internal/authserver/authorize.go:118-160 | a code is issued exactly for a session of the user that is neither revoked nor past its end |
| AuthOrigins.PresentedExactly | internal/authserver/token.go:73-88 | in any run a code approved and not used or swept since is let on exactly by such a presentation, and is used up either way |
| AuthOrigins.GrantedExactly | internal/authserver/token.go:90-126 | an exchange under way becomes a grant exactly while the generation is the one the approval saw |
| AuthRotations.RotationsWerePresented | internal/authserver/token.go:181-225 | in any run every hash rotated away goes back to a presentation of it by the grant's own client, while it was current and the grant neither revoked nor past its end, and to a commit while it still was current and unrevoked; the grant then lasts ninety days from the presentation and the new token an hour |
| AuthRotations.RefreshLetOn | internal/authserver/token.go:181-192 | a presented hash goes on to rotation exactly for the grant that holds it, its own client, unrevoked and before its end; held by no grant it goes on to the spent ones; else it is refused |
| AuthRotations.RotatedExactly | internal/authserver/token.go:194-225 | a refresh under way rotates exactly while its hash is current on a stored, unrevoked grant |
| AuthRotations.ReplayExactly | internal/authserver/token.go:243-273 | the search among spent hashes starts a revocation exactly for a spent hash of the client's own unrevoked grant that is not the last one rotated away in the minute before or after |
| AuthRotations.RevocationsHaveCause | internal/authserver/grants.go:20-68 | in any run every revocation under way was asked for by the grant's owner or follows such a replay |
| AuthEffects.GrantFate | internal/authserver/token.go:112-165 | each step leaves a stored grant as it is, except to rotate it by its own refresh, to revoke it for a newer grant of its user and client, a revocation or a reclaim, or to sweep it once revoked or past its end for more than thirty days |
| AuthEffects.TokenFate | internal/authserver/token.go:112-165 | each step leaves a stored token as it is, except to revoke it now with its grant or its user's account, or to sweep it likewise |
| AuthEffects.SessionFate | internal/user/reclaim.go:17-54 | a session is ended by its user's reclaim and by nothing else |
| AuthEffects.HousekeepingLeaves | internal/authserver/token.go:152-165 | what housekeeping leaves: the codes not past their end, the grants and tokens not dead for thirty days, and the spent hashes of the grants left |
| AuthTheorems.LiveTokensBacked | internal/authserver/token.go:90-126 | while every commit that mints a token does so within the bound, every live access token belongs to an unrevoked grant of its user |
| AuthTheorems.PromptExactly | internal/authserver/token.go:90-225 | a run keeps every usable token's grant through any sweep after any of its steps if and only if each minting commit has now + 1h <= clock read + 90d + 30d + 1ns |
| AuthTheorems.LateMintStrands | internal/authserver/token.go:152-225 | any commit that mints beyond that bound, by a nanosecond or more, has its token stranded by a sweep at the token's last instant |
| AuthTheorems.LateCommitStrandsToken | internal/authserver/token.go:90-165 | beyond the bound it fails: a six-step run that leaves a live token whose grant housekeeping deleted |
| AuthTheorems.LiveTokenNeverOnRevoked | internal/authserver/grants.go:20-30 | prompt or not, no live token is on a grant stored as revoked |
| AuthTheorems.CondemnedForever | internal/authserver/grants.go:20-30 | once revoked, a grant and its tokens stay dead in every later state |
| AuthTheorems.ReplayDetected | internal/authserver/token.go:243-273 | a spent token either starts its grant's revocation or changes no grant and no token, by one condition |
| AuthTheorems.ReplayEndsGrant | internal/authserver/token.go:243-273 | however other requests interleave, a detected replay that runs to its end leaves the grant dead for good (section 4.14.2 of RFC 9700) |
| AuthTheorems.ReclaimCondemns | internal/authserver/grants.go:70-74 | a reclaim ends every grant of the user |
| AuthTheorems.ReclaimOutlivesCode | internal/authserver/token.go:103-111 | a code outstanding at a reclaim never becomes a grant |
| AuthTheorems.ReclaimStopsExchange | internal/authserver/token.go:103-111 | neither does one whose exchange had begun but not committed |
| ImportMatcher.Tokens | internal/imports/matcher.go:153-169 | exactly the lower-cased words of at least the given length |
| ImportMatcher.Match | internal/imports/matcher.go:46-123 | the (days, id) minimum of the qualifying exact-amount candidates, else the (delta, days, id) minimum of the qualifying tips, else create |
| ImportMatcher.OrderFree | internal/imports/matcher.go:46-123 | with distinct transaction ids the whole result, the correction flag included, does not depend on candidate order |
| ImportLinkOrder.LinkOrderFree | internal/imports/matcher.go:84-110 | every order of every candidate's links gives one result if and only if no best candidate has two qualifying taps equally far off, one of the recorded amount and one not |
| ImportLinkOrder.LinkOrderMatters | internal/imports/matcher.go:84-110 | such an event, and its two orders: one corrects the amount and the other does not |
| ImportDecision.DecidedExactly | internal/imports/matcher.go:46-178 | the decision over calendar days and words alone: the same money of the same kind, not yet from this source, at most the window's days away, nearest and then by id; else the pushed tap of the same merchant within the percentage, nearest in amount, days and id; else a new transaction |
| ImportDecision.PlacedExactly | internal/imports/ingest.go:258-337 | what an event is placed by: that decision over exactly the account's transactions, either way, within the wider window of days and one day more, each as stored with exactly its ledger rows; an adopted one is overwritten exactly when that is allowed and it still carries the tap's amount |
| ImportDecision.TakenExactly | internal/imports/ingest.go:184-249 | one event's whole effect: recorded under its source, card in any case and external id it changes nothing, and new it leaves one row with what it said, waiting, passed over or linked to where it was placed |
| ImportDecision.OnCardExactly | internal/imports/accountlink.go:145-338 | the rows a card's operations take: this source's, queued, of that card name in any case |
| ImportService.Importer.Place | internal/imports/ingest.go:258-337 | places an event by the matcher's decision over the listed transactions, each with exactly its ledger rows as links; what it picks has no row of this source |
| ImportService.Importer.ApplyEvent | internal/imports/ingest.go:184-249 | a key already in the ledger changes nothing; a new one leaves exactly one row, of the resolved status, with the event's amount and payee, on the transaction the matcher chose |
| ImportService.Importer.Ingest | internal/imports/ingest.go:17-52 | a payload is stored once; one that does not parse changes no ledger row |
| ImportService.Importer.ProcessEvent | internal/imports/ingest.go:84-101 | push and retry apply an event the same way, never correcting an amount |
| ImportService.Importer.SyncAccount | internal/imports/sync.go:119-171 | one transaction per account: the counters add up to the rows, the ledger gains as many linked rows as imported and matched and as many skipped ones as skipped, and a failure restores rows and counters |
| ImportService.Importer.ConvertQueued | internal/imports/accountlink.go:145-222 | each queued row of the card ends as its own verdict says; every other row stays, and the counters add up |
| ImportService.Importer.IgnoreAccount | internal/imports/accountlink.go:241-289 | skips exactly the card's queued rows |
| ImportService.Importer.UnlinkAccount | internal/imports/accountlink.go:291-338 | drops exactly the card's queued rows and their inbox events |
| ImportService.Importer.ImportQueuedEvent | internal/imports/queue.go:103-159 | links a waiting row to a new transaction; anything else is refused without a trace |
| ImportService.Importer.FlipLink | internal/imports/queue.go:172-198 | moves a row between queued and skipped, only from the expected status |
| ImportService.Importer.DeleteTransaction | internal/model/imports.go:121-153 | a deleted transaction leaves its linked rows as tombstones; no other row or transaction changes |
| ImportService.Importer.DeleteSource | internal/imports/source.go:68-80 | a deleted source takes exactly its own rows and inbox events with it |
| ImportLedger.RunKeeps | internal/imports/ingest.go:184-249 | over any run of moves on the books: one row per (source, card, external id), no key linked twice, no two rows of a source on one transaction; every operation of the import code is such a run |
| ImportLedger.LinkedForGood | internal/imports/queue.go:103-196 | over any run of moves a linked key never goes back to queued or skipped while its source exists, and is linked once |
| ImportLedger.MoveKeeps | internal/imports/ingest.go:184-249 | each of the eight moves, guard included, keeps the books sound and what was linked linked |
| ImportLedger.InsertKeeps | internal/imports/ingest.go:211-249 | inserting a row for a new key keeps the books sound and what was linked linked |
| ImportLedger.LinkKeeps | internal/imports/accountlink.go:185-215 | linking a waiting row to a transaction the source has no row for does too |
| MoneyReads.ReadSpending | internal/budget/projected_read.go:331-369 | one row per (month, category, tag, currency) that occurs, with its total |
| MoneyReads.ReadIncomeByMonth | internal/budget/projected_read.go:402-418 | one row per (month, category, currency), with its total |
| MoneyReads.ReadTransfersByMonth | internal/budget/projected_read.go:420-472 | what crosses the account set, out and in, each side in its own currency, with its total |
| MoneyReads.TransfersByMonthRows | internal/budget/projected_read.go:430-472 | one row per month and currency holding both sides' totals, by month and then currency |
| MoneyReads.ReadAccountMonths | internal/budget/projected_read.go:477-515 | what each account gained or lost per month, by month and then account |
| MoneyReads.ReadBalances | internal/budget/projected_read.go:285-313 | the balance change before a date of every known account asked for, in the order asked, zero included |
| MoneyTheorems.SplitAnywhere | internal/budget/dated_read.go:42-154 | any read up to t plus the read from t is the unrestricted read, key by key, skipped reads included |
| MoneyTheorems.BalanceSplitAnywhere | internal/budget/dated_read.go:54-82 | the same for balances, through the subtraction branch |
| MoneyTheorems.WindowBalanceMeans | internal/budget/dated_read.go:54-82 | a windowed balance is the total of the entries dated inside the window before the date |
| MoneyTheorems.BalanceIsEffects | internal/budget/projected_read.go:285-313 | an account's balance is the sum of what the entries before the date did to it, income in, expenses and outgoing transfers out, incoming transfers with what arrives, whatever other accounts are asked for |
| MoneyTheorems.LabelsCountInFull | internal/budget/projected_read.go:371-400 | an expense counts in full under each of its labels: a label's total is that of the accounts' expenses that carry it |
| DatedReads.WindowReport | internal/budget/dated_read.go:42-154 | the clamped read totals the window's part of the interval, and is skipped exactly when nothing is left of it |
| DatedReads.WindowBalances | internal/budget/dated_read.go:54-82 | rows in the order asked, each the windowed balance |
| DatedReads.MergeRows | internal/budget/dated_read.go:196-216 | adds the totals of a key both reads hold; the keys come out in the order first seen |
| DatedReads.UnionReport | internal/budget/dated_read.go:236-343 | every total is the future-dated read's plus the projection's |
| DatedReads.BothPassesCoverOnce | internal/budget/dated_read.go:160-194 | the booked pass and the upcoming pass together count all stored and all projected money once |
| DatedReads.ChooseUpcoming | internal/budget/dated_read.go:160-186 | nothing exactly for a past window or one with neither kind of money, both exactly when a stored entry of the accounts is dated ahead in it |
| DatedReads.UpcomingReport | internal/budget/dated_read.go:160-186 | whichever is chosen, the report shows all future-dated and projected money of the window |
| MoneyTheorems.DoubleEntry | internal/budget/projected_read.go:402-513 | per month, net is income less expenses plus transfers in less out, up to an exact drift |
| MoneyTheorems.DoubleEntryExact | internal/budget/projected_read.go:402-513 | the drift is zero when all categories are in the set, transfers name a recipient, and inside transfers lose nothing |
| MoneyTheorems.NetsAreBalanceDifference | internal/budget/projected_read.go:285-313 | per account, the nets of any interval are the difference of the balances at its ends |
| MoneyTheorems.MonthBucketIsWindow | internal/budget/projected_read.go:331-369 | a by-month bucket is the plain read over that month's window |
| MoneyTheorems.SpendingDrillsDown | internal/budget/projected_read.go:517-556 | every spending cell is the sum of the one list it drills down to |
| MoneyTheorems.IncomeListsCover | internal/budget/projected_read.go:600-628 | known and uncategorized income lists partition all income |
| MoneyTheorems.TransfersDrillDown | internal/budget/projected_read.go:577-598 | the crossing list sums to the transfers read, each way |
| MoneyTheorems.AccountListIsNet | internal/budget/projected_read.go:630-653 | an account's signed list is its net, short of what transfers from the account to itself bring in |
| MoneyTheorems.NoSelfGain | internal/budget/projected_read.go:630-653 | that difference is zero when no transfer names its own account |
| MoneyTheorems.AccountListAgrees | internal/budget/projected_read.go:630-653 | amounts being positive, list and net are equal if and only if no filed entry names its own account as recipient |
| MoneyTheorems.SelfTransferDiffers | internal/budget/projected_read.go:630-653 | one transfer of 30 from an account to itself: the list sums to -30, the net is 0 |
| DatedReads.BudgetTransactionsByTag | internal/budget/projected_read.go:536-550 | the list code keeps exactly the tag's expenses asked for, in entry order |
| DatedReads.BudgetTransactionsOnAccount | internal/budget/projected_read.go:630-653 | the list code keeps exactly the entries touching the account, signed |
| PlanPage.ChildMaps | internal/budget/builder_plan.go:303-320 | the category maps name the lowest-id envelope of each side that lists a category, whatever order they are stored in |
| Filing.OwnerOrderFree | internal/budget/builder_plan.go:298-302 | ownership does not depend on the order of the envelopes |
| PlanPage.Sheet.FileSpending | internal/budget/builder_plan.go:455-497 | every month's cells gain exactly that month's expense rows of their element |
| PlanPage.Sheet.FileIncome | internal/budget/builder_plan.go:499-537 | every month's cells gain exactly that month's income rows of their element |
| PlanPage.EmitPlanElements | internal/budget/builder_plan.go:570-598 | shows exactly the rows the visibility rules keep, and never drops one with actuals |
| PlanPage.BuildPlan | internal/budget/builder_plan.go:217-568 | every cell holds its month's filed rows and converts at the ranges loaded; the elements kept are exactly those the visibility rules show |
| PlanPage.EveryRowHasAnElement | internal/budget/builder_plan.go:455-537 | every income row has one income element, every untagged or known-tag expense of a known category one expense element |
| Filing.FilingPartitions | internal/budget/builder_plan.go:455-537 | over elements that take every filed row, their money adds up to the month's: nothing lost, nothing twice |
| PlanPage.PlanConserves | internal/budget/builder_plan.go:455-598 | in one currency the shown elements of each side add up to the month's filed rows |
| MonthlyPage.BuildElementsSpending | internal/budget/builder_structure.go:98-156 | every bucket holds exactly its tag's and category's rows, in row order |
| MonthlyPage.EnvelopePass | internal/budget/builder_structure_build.go:92-130 | the categories used are exactly the known ones some expense envelope names, and each is taken by the first to name it, once |
| MonthlyPage.BuildStructure | internal/budget/builder_structure_build.go:92-283 | every element's queued money is exactly that of the rows filed under it, and its spending that money's total at the ranges loaded |
| PageAmounts.ShowPlan | internal/budget/builder_plan.go:298-600 | the plan, with no item or file rule in the statement: which elements have a row, and in each month the sum over currencies of the element's rows' totals, converted from the rows' currency into the element's at the month's own rates |
| PageAmounts.ShowMonth | internal/budget/builder_structure_build.go:92-410 | the monthly page likewise: each element's spending is the sum over currencies of its rows' totals, converted into its currency at the period's rates |
| PageAmounts.CellIsValued | internal/budget/builder_plan.go:455-568 | one cell of the plan: the rows of a tag, of a category, or of the lowest envelope that lists the category, that month, valued in the element's currency |
| PagesAgree.PagesAgree | internal/budget/builder_structure_build.go:279-334 | for the same rows of known categories, an expense element's monthly spending equals its plan cell, in its currency, when the first envelope to name a category is its owner |
| PagesAgree.ClaimedOnceFirstIsOwner | internal/budget/builder_plan.go:298-320 | that holds whenever no category is named by two expense envelopes |
| PagesAgree.PagesDisagree | internal/budget/builder_plan.go:303-320 | where it does not hold, an expense of that category shows in full under the first envelope on the monthly page and as zero in that envelope's plan cell |
| PagesAgree.DoubleClaim | internal/budget/builder_plan.go:303-320 | two expense envelopes naming one category: the first to name it is one of them, the owner the other |
| PagesFromReads.ReadsAgree | internal/budget/builder_structure.go:98-156 | the period's spending read and that month of the by-month read are the same rows, all of known categories |
| PagesFromReads.PagesAgreeOnReads | internal/budget/builder_structure_build.go:279-334 | so the pages agree on what they read from the stored entries, with only the owner condition left |
| PagesAgree.CellOfPeriod | internal/budget/builder_plan.go:541-553 | in a batch of whole periods, however spread, a period's items convert at that period's own rates |
| PagesAgree.CellAtItsPeriod | internal/budget/builder_plan.go:541-553 | over distinct months every cell converts at its own period's rates, month 0 included |
| RunningBalances.MonthMovesBalance | internal/budget/builder_savings.go:300-349 | a month's net moves the balance from the month's start to its end, both cut at a cap |
| RunningBalances.AddPlanSavingsClosings | internal/budget/builder_savings.go:305-349 | every cell queues the balance booked before its month's end, run up from the opening by nets |
| SavingsPage.AddSavingsPending | internal/budget/builder_savings.go:175-229 | from the current period through the selected one each planned month of a live account is pending and carries what moved in it; a past period has none |
| SavingsPage.BuildMonthlySavings | internal/budget/builder_savings.go:142-277 | each row shows what was saved in the period and closes with the booked balance plus every pending month's positive shortfall, each at its own period's rates; deleted accounts show only with activity and count no plan |
| SavingsPage.MidMonthStart | internal/budget/builder_structure.go:155-175 | a batch of a budget whose stored start is a 15th, where a pending month need not get its own rates |
| SavingsPage.ClosingsAgree | internal/budget/builder_savings.go:248-349 | the plan's closing cell of a month is the monthly page's closing balance without the unmet plans |
| NetWorth.BuildSeries | internal/budget/report_networth.go:131-195 | every account's series is its balance before min(month end, tomorrow) |
| NetWorth.BuildNetWorth | internal/budget/report_networth.go:118-228 | exactly one row per account with any non-zero balance, each balance at its own month's rates; the caller's first, then by owner, name and id |
| NetWorth.MergeOthersEveryday | internal/budget/report_networth.go:231-261 | every owner keeps their per-month total; own, savings and shared rows stay as they are; each other owner has one nameless row left, without an id; the rows stand by owner, name and id, the caller's first |
| NetWorth.BudgetNetWorth | internal/budget/report_networth.go:17-91 | an account has a row, and it is the account's own, exactly if it is the caller's, a savings account or one the caller has access to, and is not zero throughout; whoever looks, every owner's total of every month is that of all the owner's accounts |

## Left out

- AuthTheorems.LiveTokensBacked: for runs whose minting commits keep the bound; `PromptExactly` shows the bound is needed.
- Membership.UnconfirmedKeepsPlans: one write from a store without leftover rows; `BudgetWrites.UnconfirmedNeverLoses` has no such premise.
- PagesAgree.PagesAgree: takes the rows of the two reads as the same; `PagesFromReads.PagesAgreeOnReads` derives it from the reads.
- SavingsPage.BuildMonthlySavings: for a page batch of whole budget periods; `MidMonthStart` is a batch that is not, `Convertor.OneRangeExactly` says when it matters. The rows come in the order given; their sorting is not modelled.
- SavingsPage.ClosingsAgree: the plan's batch is of whole periods, as its builder makes it.
- NetWorth.MergeOthersEveryday: a merged row, which has no name, is ordered after rows with an id only among rows of the same owner without a name, of which there are none.
- BudgetWrites.HistoryRooted: a run starts from a store without rows; seeding rows, moving them, copying a budget and deleting an envelope or a budget are given as what they may change, not as their code.
- Convertor.BulkConvert: for positive rates, as the ones a user enters are checked to be; `Convert` says what any other rate does.
- MergeElements.MergeElements: requires two different entities; its callers reject equal ids before calling it.
- PlanPage.BuildPlan: the element cells of the batch; the cells of envelope and tag children and the savings rows' actuals, and the row order, are not modelled.
- MonthlyPage.BuildStructure: spending in the element's currency; child rows, the budget-currency twin keys, limits, carry-over from earlier periods and labels are not modelled.
- ImportService.Importer.Place: the transactions listed are those of the account in a range of instants; nothing is claimed about transactions outside that range that fall on the same days.
- ImportMatcher.Tokens: letter case is folded for ASCII letters only; how the code and the database fold other letters is not modelled.
- Moving elements between folders and envelopes, resequencing of keys, and claims about key length.
- SQL statements: stored reads are taken to follow the same filing rules as the projected ones.
- Row locks: the savings guard and the write it guards are one atomic step.
- Projection of recurring templates into occurrences, and the inputs of rule resolution.
- Discarding a failed inbox event, which touches no ledger row.
- Budget and envelope fields other than those above, and their timestamps.
- Role checks, name and icon validation, result objects, logging, mail, rate limiting, provider clients, HTTP and the command line: single-branch facts or plumbing.
- Hashing is injective and secrets are fresh by assumption of the model; encoding and URL handling are not modelled.
