# Hamyan backend: the savings engine and its money rules, in Dafny

This project models the core of the Hamyan backend, a Django service for
collective savings. It covers two kinds of box.

A **cashbox** (a rotating savings club) runs in periods. Each period is
split into cycles. Every member of a period holds a membership with a
number of shares. Each cycle draws one winner, who is paid the whole
pooled balance. The model covers:

- the weighted lottery, built from each membership's shares not yet won;
- the manual and manager-first draws;
- the won-share accounting, the balance reset and the commissions;
- the batch draw with its cash-outs, share-group payouts split pro rata,
  announcement recipients and removability;
- the share-group views that create, update and kick out groups of
  members who share one share.

A **moneypool** keeps cash-ins, cash-outs and loans. The model covers:

- the record/transactional deed rules and the bank-balance charges;
- the access wrappers and the validation chains of the loan and
  cash-out views;
- the create/update/archive views and the listing order;
- the payment serializers: transaction lists with a mother transaction,
  cash-in lists, loans with repaid installments, discount codes and orders;
- the gateway-pay views, including the group pay;
- the subscription (abonnement) price;
- the migration that turned absolute balances into percentages.

The modules follow the source:

- `Common` holds Option/Result, sums, Python's `round` and `int()`.
- `Ledger` is the append-only transaction table.
- `Cashbox` holds cycle.py, membership.py and cashbox.py. The models
  refer to each other, so they share one module.
- `DrawProperties` holds the lemmas about the draw and the payouts.
- `ShareGroupViews`, `Moneypool` (moneypool_cashout.py and cashin_utils.py),
  `Decorators`, `MoneypoolViews`, `LoanViews`, `CashoutViews`,
  `PaymentSerializers`, `GatewayViews`, `Abonnements` and
  `BalanceMigration` follow their source files.

Objects the source updates in place are classes: Period, Membership,
Cycle, Cashbox, Moneypool, Poolship, the cash-in and cash-out deeds, the
installments, the ledger and the order book. Their methods are specified
by `modifies` frames and by what the new state is. Pure logic is
functions: validation chains, sort keys, the invoice price and the
discount checks. Lemmas relate the functions to one another.

A Python exception becomes `Raised(name)`. Money that the source
computes with `/` (pro-rata portions, remaining commission, pre-reduced
loans, percentages) is an exact `real`. Members are identified by their
phone number.

## Model

| member | source | states |
|---|---|---|
| Cashbox.Membership.ShareWeight | cashbox_management/models/membership.py:184-199 | The share weight times the share value gives back the share amount (shares × share value + residue). A zero share value raises ZeroDivisionError. |
| Cashbox.Membership.NonWonShares | cashbox_management/models/membership.py:229-235 | Never negative. Positive exactly when the membership is valid (both accept flags) and shares remain to win. Equals shares − won shares when won shares are in range. |
| Cashbox.Membership.Commission | cashbox_management/models/membership.py:200-216 | Rosca boxes charge the membership's rosca commission. Regular boxes charge 0 in trial time (first period, cycle index within the trial cycles). Otherwise they charge the box's manual commission, or the calculator applied to the share amount. |
| Cashbox.Membership.RemainingCommission | cashbox_management/models/membership.py:375-380 | The remaining commission is (share amount − balance)/share amount of the commission. A fully paid membership owes 0, one that paid nothing owes the whole commission, and a zero share amount raises. |
| Cashbox.Membership.RemainingCommissionPerAmount | cashbox_management/models/membership.py:381-388 | 0 under the zero-commission feature or without the payment feature. Otherwise amount/share amount of the commission; raises only for a zero share amount. |
| Cashbox.Membership.MakeWinner | cashbox_management/models/membership.py:363-369 | Returns −1 and changes nothing when every share is won. Otherwise it raises won shares by one and returns the new count. |
| Cashbox.Membership.UnmakeWinner | cashbox_management/models/membership.py:370-374 | Lowers won shares by one, and never below 0. |
| Cashbox.Membership.ResetBalance | cashbox_management/models/membership.py:343-352 | Returns the previous balance and zeroes the percentage, so the balance becomes 0. The period's bank balance drops by the previous balance only for the box-bank-account destination. |
| Cashbox.Membership.Reset | cashbox_management/models/membership.py:353-362 | Like the balance reset, and also sets won shares to 0. |
| Cashbox.Membership.SetShareGroup | cashbox_management/models/membership.py:279-285 | The membership takes the given group and residue. |
| Cashbox.Membership.ResetShareGroup | cashbox_management/models/membership.py:276-278 | The membership leaves its group and its residue becomes 0. |
| Cashbox.Membership.Delete | cashbox_management/models/membership.py:573-580 | Clears both accept flags and removes exactly this membership from its period. The period stays well formed. |
| Cashbox.NewestFirst | cashbox_management/models/membership.py:116-118 | A share group lists its memberships by descending id: a membership created later comes first. |
| Cashbox.Cycle.Chosen | cashbox_management/models/cycle.py:114-130 | A given winner is taken as is (manual draw). On cycle 1 of a manager-first period, the owner is taken (manual). Otherwise an automatic pick is one of the lottery's members. |
| Cashbox.Cycle.TotalMemberChances | cashbox_management/models/cycle.py:121-125 | The lottery loop builds the candidate list: each valid membership's member once per share not yet won. |
| Cashbox.Cycle.Choose | cashbox_management/models/cycle.py:114-130 | The method returns exactly the pick `Chosen` describes, and it raises IndexError on an empty lottery or a missing owner. |
| Cashbox.Cycle.Draw | cashbox_management/models/cycle.py:103-140 | Returns None and changes nothing when a winner exists, the box is not financially satisfied, or a membership is unpaid. Otherwise the draw: sets winner, date and manual flag; gives the winner one more won share; appends one cycle transaction of the whole pre-draw balance to the winner's wallet; empties every valid balance; and appends one Winner with the satisfactory amount as loan, so the cycle is drawn. |
| Cashbox.Cycle.RecordWinner | cashbox_management/models/cycle.py:132-140 | The payout half of a draw. Raises when the winner has no membership, and otherwise pays out and records the Winner. |
| Cashbox.Cycle.SetWinnerAndSetupTransaction | cashbox_management/models/cycle.py:173-195 | Sets winner and date (today by default), counts the won share, pays the pre-reset box balance to the winner's wallet in one cycle transaction and empties the valid balances. Fails, changing nothing, when the winner has no membership. |
| Cashbox.Cycle.SetWinner | cashbox_management/models/cycle.py:152-171 | Fails, changing nothing, when the winner has no membership. Otherwise it sets winner and date (today by default), counts the won share (only while shares remain) and records one Winner with the satisfactory amount. The manual flag and the other winners stay; the cycle's id and period are constant. It records no transaction. |
| Cashbox.Cycle.RollbackWinner | cashbox_management/models/cycle.py:142-150 | A no-op without a winner. Otherwise the winner's membership loses one won share (never below 0) and winner and date are cleared. The ledger is not touched. |
| Cashbox.Cashbox.Balance | cashbox_management/models/cashbox.py:185-189 | The current period's balance, and 0 without a current period. |
| Cashbox.Cashbox.MuxList | cashbox_management/models/cashbox.py:277-291 | At most one multiplexer. Payping for a verified Payping account; otherwise Hamyan for a worried box in progress or verified. |
| Cashbox.Cashbox.IsRemovable | cashbox_management/models/cashbox.py:235-266 | Not removable while a paid package runs. Removable when not activated and period index ≤ 1. Raises without a current period. Otherwise removable iff no successful cycle transaction reached the box balance or bank account. |
| Cashbox.Cashbox.CheckoutBalanceAndReset | cashbox_management/models/cashbox.py:432-437 | Returns the balance before the reset, and every valid membership's balance becomes 0. |
| Cashbox.Cashbox.CreateCashout | cashbox_management/models/cashbox.py:441-490 | Records nothing and returns None when the amount exceeds the balance or no member is given. Otherwise it appends one cycle cash-out from the box to the member's bank account, paid by the owner. |
| Cashbox.Cashbox.CreateCashoutForWinner | cashbox_management/models/cashbox.py:492-522 | A membership winner gets one cash-out of the loan. A share-group winner gets one cash-out per member (loan × residue / share value), and true iff the count created equals the portions. Both or neither set gives False and no record. |
| Cashbox.Cashbox.CreateGroupCashouts | cashbox_management/models/cashbox.py:505-518 | The ledger grows by exactly the pro-rata cash-outs that fit the balance, and the returned count is their number. |
| Cashbox.LegsAllCreated | cashbox_management/models/cashbox.py:505-519 | Every portion is paid out (count = portions) exactly when each portion is within the balance. |
| Cashbox.Cashbox.Draw | cashbox_management/models/cashbox.py:359-390 | Checks in this order: an inactivated box gives None; with cash-outs, winners × amount > balance gives −1 before any selection, using the count before its −1/0 → number-of-loans substitution; no winners chosen gives −2. Without cash-outs nothing is recorded and the winners are returned. With cash-outs the ledger grows by each winner's payout in order, up to the first payout that raises; that raise (ZeroDivisionError) ends the draw, otherwise the winners are returned. |
| Cashbox.Cashbox.PayWinner | cashbox_management/models/cashbox.py:386-387 | One winner's `create_cashout_for_winner`: it raises iff the winner's payout raises, leaving the ledger as it was; otherwise the ledger grows by exactly that payout. |
| Cashbox.Cashbox.Payouts | cashbox_management/models/cashbox.py:386-387 | One payout per winner, each the winner's own payout, in the winners' order. |
| Cashbox.Cashbox.PayWinners | cashbox_management/models/cashbox.py:386-390 | The ledger grows by the winners' payouts in order up to the first that raises; the result is that raise, or the winners. |
| Cashbox.Cashbox.PayInOrder | cashbox_management/models/cashbox.py:386-387 | The loop over the winners adds exactly the payouts up to the first raise, and reports whether one raised. |
| Cashbox.UpToRaiseStep | cashbox_management/models/cashbox.py:386-387 | One more payout after a prefix that did not raise either raises (adding nothing) or appends its transactions. |
| Cashbox.RaisedPrefix | cashbox_management/models/cashbox.py:386-387 | Once a prefix of the payouts raises, later winners add nothing: the draw stops at the first raise. |
| Cashbox.NoRaiseIsAllPayouts | cashbox_management/models/cashbox.py:386-387 | When no payout raises, the draw records every winner's transactions in turn and does not raise. |
| Cashbox.Cashbox.DrawCycleAndStartNew | cashbox_management/models/cashbox.py:336-357 | An inactivated box changes nothing and gives None. Otherwise the current cycle is drawn as `Cycle.Draw` states: None with the cycle, ledger and memberships unchanged when the cycle is not ready; a raise, changing nothing, when the pick fails or has no membership; else the winner is returned, the cycle records winner, date, manual flag and Winner row, and the winner is paid out. Then a new cycle is opened iff cycles remain, else the box is inactivated, whether the draw returned None or not; after a raise neither happens. |
| Cashbox.Cashbox.ContinueOrInactivate | cashbox_management/models/cashbox.py:349-353 | Opens the next cycle when cycles remain, otherwise inactivates the box. |
| Cashbox.Cashbox.Recipients | cashbox_management/models/cashbox.py:539-580 | As a set: nobody for an archived or silent box; just the owners in just-owner mode, otherwise every member of the current period. |
| Cashbox.Cashbox.UpdateTrustState | cashbox_management/models/cashbox.py:581-588 | Sets the given trust state; without one the box becomes trusted. |
| DrawProperties.CandidateHasOpenShares | cashbox_management/models/cycle.py:121-126 | Every name in the lottery belongs to a membership with a share left to win. |
| DrawProperties.OpenSharesAreCandidates | cashbox_management/models/cycle.py:121-126 | Every membership with a share left to win is in the lottery. |
| DrawProperties.LotteryIgnoresInvalid | cashbox_management/models/cycle.py:114-125 | Filtering the valid memberships first does not change the lottery. |
| DrawProperties.CandidateCount | cashbox_management/models/cycle.py:121-125 | With one membership per member, the lottery holds each member exactly as often as its shares not yet won. |
| DrawProperties.DrawChances | cashbox_management/models/cycle.py:114-126 | A member's chances in the automatic draw are its shares not yet won, and a fully won member has none. |
| DrawProperties.FullyWonNeverDrawn | cashbox_management/models/cycle.py:121-127 | A fully won membership is never the winner of an automatic draw. |
| DrawProperties.AutomaticWinnerHasOpenShares | cashbox_management/models/cycle.py:121-127 | The automatic winner holds a valid membership with a share left to win. |
| DrawProperties.LotterySizeIsRemainedCycles | cashbox_management/models/cycle.py:121-126 | The lottery has one ticket per remaining cycle. |
| DrawProperties.AutomaticDrawSucceedsWhileCyclesRemain | cashbox_management/models/cycle.py:121-127 | While cycles remain, the automatic draw always finds a winner; `random.choice` never sees an empty list. |
| DrawProperties.WinThenUndo | cashbox_management/models/membership.py:363-374 | Winning a share and rolling it back restores the won-share count. |
| DrawProperties.RecipientsAreAnnounced | cashbox_management/models/cashbox.py:539-580 | A current member gets notifications (or text messages) exactly when the box is not archived and its membership's announce mode reaches its role. |
| DrawProperties.PortionsSplitTheLoan | cashbox_management/models/cashbox.py:505-511 | The portions are the loan split in the ratio of the residues: their sum times the share value is loan × the residue total. |
| DrawProperties.LegsCarryThePortions | cashbox_management/models/cashbox.py:505-518 | When every portion fits the balance, the cash-outs carry exactly the portions, in the group's order (newest membership first). |
| DrawProperties.GroupPayoutIsTheLoan | cashbox_management/models/cashbox.py:503-519 | A group whose residues make up one share, paid out in full, receives exactly the loan. |
| DrawProperties.PortionsTotalTheLoan | cashbox_management/models/cashbox.py:505-511 | Residues that make up one share split the whole loan. |
| ShareGroupViews.ScreenPasses | cashbox_management/views/share_group_function_views.py:56-68 | The member screening passes iff every item has a phone number and a residue and no listed member is in a share group already; on a pass its total is the sum of the residues. |
| ShareGroupViews.ScreenMembers | cashbox_management/views/share_group_function_views.py:55-73 | The screening loop computes the screening function: 400 for a missing phone number, 403 for an already-grouped member, else the residue total. |
| ShareGroupViews.PhoneCheckFails | cashbox_management/views/share_group_function_views.py:75-85 | The phone check fails iff some phone number is missing (400) or invalid (401). |
| ShareGroupViews.CheckPhones | cashbox_management/views/share_group_function_views.py:238-251 | The phone loop computes the phone check. |
| ShareGroupViews.AddResidues | cashbox_management/views/share_group_function_views.py:267-269 | The residue loop computes the residue total. |
| ShareGroupViews.FindGroup | cashbox_management/views/share_group_function_views.py:93-98 | A group found has the id; none found means no group of the period has it. |
| ShareGroupViews.RemoveGroup | cashbox_management/views/share_group_function_views.py:200 | Exactly the group with the id is gone. |
| ShareGroupViews.RenameGroup | cashbox_management/views/share_group_function_views.py:276-280 | Only the group with the id changes, and only its name. |
| ShareGroupViews.TargetGroup | cashbox_management/views/share_group_function_views.py:89-98 | An absent or zero id creates a new group with a fresh id. Otherwise the id must name a group of the period. |
| ShareGroupViews.CreateSucceeds | cashbox_management/views/share_group_function_views.py:41-98 | Creation answers 200 iff the data is present, the period is not terminated, no listed member is grouped, the residues sum to the share value, the phones are valid and the group id is new or known. |
| ShareGroupViews.CreateShareGroup | cashbox_management/views/share_group_function_views.py:41-132 | Every rejection comes before any change. On success, every listed member holds a membership (new ones with 0 shares) carrying the group and its residue. |
| ShareGroupViews.AssignGroup | cashbox_management/views/share_group_function_views.py:102-123 | Each listed member ends with a membership in the group with its listed residue. Memberships of unlisted members are untouched. |
| ShareGroupViews.AssignOne | cashbox_management/views/share_group_function_views.py:112-123 | Finds or creates (0 shares) the member's membership and assigns group and residue; only that membership changes. |
| ShareGroupViews.FirstBlocked | cashbox_management/views/share_group_function_views.py:176-188 | The members before the index have no successful cycle transaction, and the one at it has. |
| ShareGroupViews.ReleaseGroup | cashbox_management/views/share_group_function_views.py:176-191 | Releases the members before the first blocked one: each loses group and residue, zero-share ones are deleted, and later ones are untouched (no rollback). |
| ShareGroupViews.ReleaseOne | cashbox_management/views/share_group_function_views.py:189-191 | The membership leaves its group, and a zero-share one is deleted from the period. |
| ShareGroupViews.KickOutRefusal | cashbox_management/views/share_group_function_views.py:157-174 | 400 for an activated box past cycle 1, 403 for a terminated period, 404 for a group not in the period, in that order. |
| ShareGroupViews.KickOutShareGroup | cashbox_management/views/share_group_function_views.py:144-201 | A refusal answers its code and changes nothing. Otherwise the group's memberships are released newest first until one has a successful cycle transaction: the ones before it lose group and residue, those without whole shares among them are deleted, it and later ones are untouched, and the answer is 400 with the groups unchanged. With none blocked, the group is deleted, no membership is left in it, and the answer is 200. Memberships outside the group are kept and untouched, and no membership is added. |
| ShareGroupViews.KickOutMembers | cashbox_management/views/share_group_function_views.py:176-201 | The release and deletion part of the kick-out: the same newest-first partial release (no rollback), exactly the released zero-share memberships deleted, memberships outside the group untouched, and 200 with the group deleted iff every member was released. |
| ShareGroupViews.ReleaseShareGroup | cashbox_management/views/share_group_function_views.py:176-191 | The group's memberships, newest first, are released up to the first blocked one (all of them without the transaction check): each loses group and residue and has both accept flags cleared when deleted; exactly the released ones without whole shares leave the period. Memberships outside the group are untouched, and after a full release none is left in the group. |
| ShareGroupViews.NoneLeftInGroup | cashbox_management/views/share_group_function_views.py:192-198 | After a full release no membership refers to the group, so the "still a member" 400 cannot happen. |
| ShareGroupViews.GroupOfDistinct | cashbox_management/models/membership.py:116-118 | A share group's memberships, read from distinct memberships, are themselves distinct, so a release visits each once. |
| ShareGroupViews.DeletedIsGroupWithoutShares | cashbox_management/views/share_group_function_views.py:189-191 | A complete release deletes exactly the group's memberships without whole shares. |
| ShareGroupViews.UpdateSucceeds | cashbox_management/views/share_group_function_views.py:232-274 | The update answers 200 iff the data is present, the phones are valid, the period is not terminated, cycle index ≤ 1, the group exists and the residues sum to the share value. |
| ShareGroupViews.UpdateShareGroup | cashbox_management/views/share_group_function_views.py:232-313 | The answer is the update status function's, and a refusal changes nothing. On success the group is renamed when a name is given; every listed member holds a membership in the group with its listed residue; no unlisted membership stays in the group; exactly the old group members without whole shares are deleted; new memberships are fresh, enrolled and listed; memberships neither in the old group nor listed are untouched. |
| ShareGroupViews.Regroup | cashbox_management/views/share_group_function_views.py:282-310 | Every listed member ends in the group with its residue and no unlisted one stays in it; exactly the old group members without whole shares are deleted; old members not relisted are released; memberships neither in the old group nor listed are untouched; added memberships are fresh and listed. |
| Moneypool.DeedOf | payment/models/moneypool_cashout.py:97-103 | Transactional iff a transaction is attached, record otherwise. |
| Moneypool.MoneypoolCashout.DeedType | payment/models/moneypool_cashout.py:97-103 | Transactional iff a transaction is attached, as the deed type of its transaction field. |
| Moneypool.MoneypoolCashout.State | payment/models/moneypool_cashout.py:86-96 | Successful without a transaction, otherwise the transaction's state. |
| Moneypool.MoneypoolCashout.IsReportable | payment/models/moneypool_cashout.py:108-111 | Reportable when no transaction is attached. |
| Moneypool.MoneypoolCashout.IsRemovable | payment/models/moneypool_cashout.py:112-115 | Removable iff the deed type is record. |
| Moneypool.MoneypoolCashout.WithdrawBankBalance | payment/models/moneypool_cashout.py:121-125 | A record cash-out withdraws exactly its amount. A transactional one raises ValueError and changes nothing. |
| Moneypool.MoneypoolCashout.RollbackBankBalance | payment/models/moneypool_cashout.py:127-129 | A record cash-out charges exactly its amount back; otherwise nothing changes. |
| Moneypool.MoneypoolCashout.SetTransaction | payment/models/moneypool_cashout.py:131-145 | Idempotent. It creates a payout transaction only when none is attached; otherwise it returns the attached one and the ledger is unchanged. |
| Moneypool.PayoutTransaction | payment/models/moneypool_cashout.py:135-144 | The payout carries the cash-out amount from the pool's balance to the poolship's member, into the wallet by default. |
| Moneypool.MoneypoolCashout.Remove | payment/models/moneypool_cashout.py:147-151 | A non-removable cash-out raises and nothing changes. Otherwise its amount is charged back to the bank balance and it is deleted. |
| Moneypool.RemovableIsSuccessful | payment/models/moneypool_cashout.py:86-115 | A removable cash-out has no transaction and so reads as successful. |
| Moneypool.WithdrawThenRollback | payment/models/moneypool_cashout.py:121-129 | Withdrawing then rolling back a record cash-out leaves the pool's bank balance as it was. |
| Moneypool.CashinDestination | moneypool_management/utils/cashin_utils.py:32-34 | The box bank account iff the pool is a worried box, else the box balance. |
| Moneypool.CashinTransaction | moneypool_management/utils/cashin_utils.py:39-50 | The cash-in transaction: caller pays the receiver the amount, into the destination, in the pool's context, with the default gateway when none is given. |
| Moneypool.CreateMoneypoolCashin | moneypool_management/utils/cashin_utils.py:13-140 | Raises exactly for a transactional deed from another source (UnboundLocalError, before any write), or a gateway one without mother and gateway (AttributeError, after its transaction and cash-in, with their fields, are saved). A transaction is recorded only for transactional deeds or a record wallet deed. Record deeds charge the bank balance by the amount, transactional ones never. The cash-in is appended with its fields, its time defaulting to now. |
| Moneypool.RemoveMoneypoolCashin | moneypool_management/utils/cashin_utils.py:143-149 | A removable record cash-in is dropped and its amount withdrawn; anything else changes nothing. |
| Moneypool.RecordCashinRoundTrip | moneypool_management/utils/cashin_utils.py:105-149 | Registering then removing a record cash-in (not from the wallet) restores the bank balance and the cash-in table. |
| Decorators.MemberGate | moneypool_management/decorators.py:7-24 | 404 without the pool or without the caller's poolship in it; otherwise it admits with that pool and poolship. |
| Decorators.OwnerGate | moneypool_management/decorators.py:27-49 | As the member wrapper, then 403 unless the poolship is the owner. |
| Decorators.OwnerOrManagerGate | moneypool_management/decorators.py:52-78 | As the member wrapper, then 403 unless the poolship is owner or manager. |
| Decorators.AdmissionIsMonotone | moneypool_management/decorators.py:7-78 | Owner-admitted implies owner-or-manager-admitted, which implies member-admitted. A member refusal is every wrapper's answer. |
| Decorators.AdmissionByRole | moneypool_management/decorators.py:7-78 | For a caller with a poolship in an existing pool, each wrapper admits exactly by role. |
| MoneypoolViews.InitialState | moneypool_management/views/moneypool_function_views.py:71-103 | The new pool is unpaid iff the caller owns a blocking box: a cashbox without the unlimited permission that is not unpaid, test or archived, or such a moneypool that is not unpaid or archived. Otherwise it is activated. |
| MoneypoolViews.PlanSettings | moneypool_management/views/moneypool_function_views.py:73-80 | The Hamyan plan gives payable with announce-all; other plans give hybrid single-pay with just-owner. |
| MoneypoolViews.CreateMoneypool | moneypool_management/views/moneypool_function_views.py:51-136 | 2052 for empty data or no share value, 2051 for serializer rejection, else 2100 with the initial state, the plan's settings and a share count defaulting to 1. |
| MoneypoolViews.UpdateMoneypool | moneypool_management/views/moneypool_function_views.py:214-261 | 2052 for empty data. 2051 for a bank account the caller does not own, before any change. The share value is applied only when it is an int. The hamyan-to-bank transfer happens only when the trust state changes into worried-in-progress. |
| MoneypoolViews.ArchiveMoneypool | moneypool_management/views/moneypool_function_views.py:273-283 | 2050 and archived when removable, else 406 with nothing changed. |
| MoneypoolViews.SortBy | moneypool_management/views/moneypool_function_views.py:441-442 | The result is sorted by the key and is a permutation of the input. |
| MoneypoolViews.Filter | moneypool_management/views/moneypool_function_views.py:295-349 | The queryset filter: an element is kept iff it is in the input and passes the test, and the result is no longer than the input. |
| MoneypoolViews.ListCashinsAndCashouts | moneypool_management/views/moneypool_function_views.py:295-355 | A permutation of the listed cash-ins and cash-outs, by time descending. |
| MoneypoolViews.ListingIsComplete | moneypool_management/views/moneypool_function_views.py:295-355 | A deed is in the listing iff it is a listed cash-in or cash-out of the pool. |
| MoneypoolViews.LoanRank | moneypool_management/views/moneypool_function_views.py:392-403 | Rank 1 iff the viewer's own loan; for a normal viewer every other loan is 2; for an owner or manager, delayed loans are 2 and the rest 3. |
| MoneypoolViews.ListLoans | moneypool_management/views/moneypool_function_views.py:383-443 | A permutation of the listed loans, ordered by rank, and by pay date descending within a rank (two stable sorts). |
| MoneypoolViews.OwnLoansFirst | moneypool_management/views/moneypool_function_views.py:392-403 | Any loan ahead of one of the viewer's loans is the viewer's own. |
| MoneypoolViews.DelayedLoansNext | moneypool_management/views/moneypool_function_views.py:398-403 | For an owner or manager, another member's loan listed ahead of another member's delayed loan has a delayed installment too. |
| LoanViews.FindReceiver | moneypool_management/views/loan_function_views.py:100-107 | A receiver found is a poolship of the pool with the id; none found means no such poolship. |
| LoanViews.RepaidCount | moneypool_management/views/loan_function_views.py:57-64 | The repaid count is the given int when present and non-negative, and 0 when missing, non-int or negative. |
| LoanViews.CreateLoanCheck | moneypool_management/views/loan_function_views.py:39-107 | 2101 for a non-registrable pool without a repaid count; 2052 for a missing or non-int amount. On acceptance the defaults are tag LOAN, interest 0.0 and mid-appended mode, with the receiver a poolship of the pool. |
| LoanViews.CreateLoanRefusals | moneypool_management/views/loan_function_views.py:39-107 | The later refusals, in order: 2052 for missing or non-int repayments, 2052 for a missing interval, TypeError for a list or dict interval, 2051 for an unknown interval, AttributeError for an unparseable payment time, 2052 when the due date is not after the payment time, 2052 for a missing receiver id and 2054 for a receiver outside the pool. |
| LoanViews.CreateLoanAccepts | moneypool_management/views/loan_function_views.py:39-107 | The request is accepted iff every check passes and the receiver is a poolship of the pool; the accepted request carries the parsed payment time and due date. |
| LoanViews.ForeignReceiverRefused | moneypool_management/views/loan_function_views.py:100-107 | A receiver outside the pool is never accepted. |
| LoanViews.RemoveLoanStatus | moneypool_management/views/loan_function_views.py:154-169 | In order: 2101 non-registrable, 2054 not found, 2053 not removable, wrong registrar or failed removal. 2050 iff the pool's loan is removable, registered by the caller and removed. |
| LoanViews.RemovedLoanBelongsToCaller | moneypool_management/views/loan_function_views.py:157-169 | Only a loan of the pool, registered by the caller, is ever removed. |
| LoanViews.GraceStatusAsWritten | moneypool_management/views/loan_function_views.py:202-220 | As written: 2052 for a bad count, 2054 for no loan with the id in any pool, 2051 fully repaid, else 2050. |
| LoanViews.GraceReachesForeignLoan | moneypool_management/views/loan_function_views.py:213 | A manager of pool 1 gets 2050 for a loan of pool 2 as written, but 2054 when the lookup is limited to its pool. |
| LoanViews.GraceStatus | moneypool_management/views/loan_function_views.py:202-220 | Grace with the loan looked up in the caller's pool: 2050 iff the count is an int and the pool's loan exists and is not fully repaid. |
| LoanViews.GraceStaysInPool | moneypool_management/views/loan_function_views.py:207-219 | Grace is given only to a loan of the caller's pool that is not fully repaid. |
| CashoutViews.SetCashoutCheck | moneypool_management/views/cashout_function_views.py:44-74 | 2101 non-registrable; 2052 missing amount or type; 2051 non-custom type. On acceptance the tag defaults to CASHOUT and the time to now, and the receiver is a poolship of the pool. |
| CashoutViews.SetCashoutRefusals | moneypool_management/views/cashout_function_views.py:37-92 | Past the type check: 2051 for an unparseable time, 2052 for a missing receiver id, 2054 for a receiver outside the pool; the request is accepted iff none of these applies. |
| CashoutViews.SetCashout | moneypool_management/views/cashout_function_views.py:37-92 | 2110 iff the checks accept and a cash-out is created. A refusal answers its code. |
| CashoutViews.FindCashout | moneypool_management/views/cashout_function_views.py:113-115 | A cash-out found belongs to the pool and has the id; none found means none such exists. |
| CashoutViews.RemoveCashoutRefusal | moneypool_management/views/cashout_function_views.py:110-121 | In order: 2101, 2054 not found, 2053 not removable, 2053 wrong registrar; 0 iff the pool's cash-out is removable and registered by the caller. |
| CashoutViews.RemoveCashoutAsWritten | moneypool_management/views/cashout_function_views.py:104-125 | As written: on acceptance the cash-out is deleted and the bank balance is left unchanged. |
| CashoutViews.RemoveCashout | moneypool_management/views/cashout_function_views.py:104-125 | Removing through the cash-out's own removal, which charges its amount back to the bank balance. |
| CashoutViews.RemovalsDisagree | moneypool_management/views/cashout_function_views.py:123 | For a record cash-out of 100 in an empty pool, the bank balance ends at 0 as written and at 100 through the model's removal. |
| PaymentSerializers.ChildrenTotal | payment/api/serializers.py:45-50 | The item transactions' amounts add up to the item amounts' sum. |
| PaymentSerializers.ListMotherIsChildrenSum | payment/api/serializers.py:39-55 | With a mother (more than one item, the first not from the box balance), one group-pay mother with no receiver is created whose amount is the children's total, and every child links to it. |
| PaymentSerializers.ListWithoutMother | payment/api/serializers.py:51-60 | Without a mother only the item transactions are created, and none links to a mother. |
| PaymentSerializers.TransactionListSave | payment/api/serializers.py:35-60 | The ledger grows by the mother (when one is due) and the children. The result is the mother, else the last item, else None. |
| PaymentSerializers.CreateChildren | payment/api/serializers.py:45-55 | The loop appends one transaction per item, linked to the mother, and returns the last one's id. |
| PaymentSerializers.CashinChildren | payment/api/serializers.py:118-146 | One transaction per item that carries transaction data: its amount is the cash-in amount, payer the registrar, linked to the mother. |
| PaymentSerializers.CashinChildrenTotal | payment/api/serializers.py:118-130 | The cash-in children add up to the sum of the amounts of the items carrying transaction data. |
| PaymentSerializers.ChildOfPaidItem | payment/api/serializers.py:130-146 | The child created for an item that carries transaction data is that item's transaction. |
| PaymentSerializers.CashinMotherIsChildrenSum | payment/api/serializers.py:118-146 | The cash-in mother is a group pay with no receiver, paid by the registrar, whose amount is its children's total. |
| PaymentSerializers.CashinListSave | payment/api/serializers.py:114-147 | The mother (when due), then one cash-in per item with its fields. Items with transaction data get their child transaction, and the cash-in table grows by exactly these. |
| PaymentSerializers.CreateCashins | payment/api/serializers.py:130-146 | The loop appends the children and the cash-ins, each tied to its item. |
| PaymentSerializers.CashoutAmount | payment/api/serializers.py:323-326 | Pre-reduced mode gives loan × (1 − rate); other modes keep the loan. |
| PaymentSerializers.CashoutWithinLoan | payment/api/serializers.py:323-326 | With a rate in [0, 1] and a non-negative loan, the cash-out is between 0 and the loan. |
| PaymentSerializers.CashoutRecord | payment/api/serializers.py:255-262 | The cash-out's transaction: paid by the registrar's member to the poolship's member, of the cash-out amount, with the given source, destination, context and gateway, and no mother. |
| PaymentSerializers.CashoutCreate | payment/api/serializers.py:255-266 | Appends one fresh cash-out with the given fields; with transaction data it first records the cash-out's transaction and links it, otherwise the ledger is unchanged. |
| PaymentSerializers.PreReducedCanBeFractional | payment/api/serializers.py:323-338 | Without pre-reduction the cash-out amount is always whole; pre-reduction can make it fractional (1001 at rate 0.5 gives 500.5), which the integer amount field rejects. |
| PaymentSerializers.RepaidPrefix | payment/api/serializers.py:343 | `zip` with `range(k)` walks no installment for k ≤ 0, k of them when k is within the count, and all of them otherwise. |
| PaymentSerializers.RepayInstallments | payment/api/serializers.py:343-355 | The first n installments each get a fresh repayment cash-in of their amount, appended in order; later ones are untouched; the bank balance grows by their total unless discharge is off. |
| PaymentSerializers.LoanSave | payment/api/serializers.py:315-357 | An invalid cash-out (rejected data, or a fractional pre-reduced amount) raises InvalidInstanceData and changes nothing. Otherwise the cash-out with the (reduced) amount is created, with its transaction to the poolship's member when transaction data is given, and a fresh loan holding it and its installments is returned. The first min(k, n) installments (none for a negative k) each get a fresh repayment cash-in of their amount, appended in order; later ones are untouched. The bank balance grows by those amounts unless discharge is off. |
| PaymentSerializers.GetDiscount | payment/api/serializers.py:471-473 | DoesNotExist for no match, MultipleObjectsReturned for several, else the single match. |
| PaymentSerializers.UsedCount | payment/api/serializers.py:475-478 | 0 iff no successful transaction used the discount. |
| PaymentSerializers.ValidateCode | payment/api/serializers.py:469-480 | The code is accepted, and returned, iff exactly one discount has it and its limit exceeds its successful uses. Several discounts with the code raise MultipleObjectsReturned. |
| PaymentSerializers.OrderDiscount | payment/api/serializers.py:532-568 | No code means no discount. An accepted discount is the active one with the code, within its limit, not expired, targeted at the payer and not yet used by them; any failing check raises. |
| PaymentSerializers.OrderAcceptanceImpliesValidation | payment/api/serializers.py:469-480 | With unique codes, a discount the order accepts also passes the code validation. |
| PaymentSerializers.ExhaustedDiscountRefused | payment/api/serializers.py:469-568 | A discount used as often as its limit is refused by both the validation and the order. |
| PaymentSerializers.OrderSave | payment/api/serializers.py:526-578 | Every discount failure raises before anything is stored. An unknown box kind raises UnboundLocalError, a missing box Http404. Otherwise one order and one transaction into the platform pool, with the discount, are recorded. |
| GatewayViews.ActiveGateway | payment/views/gateway_function_views.py:49-52 | A gateway found is active and has the id; none found means none such exists. |
| GatewayViews.ActiveGatewayByCode | payment/views/gateway_function_views.py:174-184 | The same, by unique code. |
| GatewayViews.PayRefusal | payment/views/gateway_function_views.py:47-84 | Checks in order: 1111 no gateway id, 1112 inactive gateway, 1112 no payer, 1111 no total, 1111 no destination, 1113 a destination that is neither box balance nor wallet, 1112 no box, 1114 not activated. 0 iff every check passes. |
| GatewayViews.CurrentCycleId | payment/views/gateway_function_views.py:90-119 | The current cycle's id, raising when the box has no current period or cycle. |
| GatewayViews.CommissionDue | payment/views/gateway_function_views.py:98-126 | The receiver's remaining commission, (remaining share / share amount) × commission. |
| GatewayViews.GatewayPayPlan | payment/views/gateway_function_views.py:86-126 | The recorded amount plus commission is the total. A wallet payment has payer = receiver = caller and the whole total. A box payment lands in the bank account of a worried box, else the balance, and carries the receiver's remaining commission. |
| GatewayViews.RequestGatewayPay | payment/views/gateway_function_views.py:31-146 | A refusal records nothing. Otherwise the planned transaction is recorded; the answer is 1115 when the payment stays unsuccessful, else 1110 with the total and a commission of 0 (total − amount with amount = total). |
| GatewayViews.BoxMembership | payment/views/gateway_function_views.py:186-191 | A membership found belongs to the box; none found means none of the table's matches does. |
| GatewayViews.DuesOf | payment/views/gateway_function_views.py:186-200 | Memberships outside the box are skipped, so there are never more dues than ids. |
| GatewayViews.DueTotalSplits | payment/views/gateway_function_views.py:186-200 | The total due is the commission sum plus the share sum. |
| GatewayViews.CollectDues | payment/views/gateway_function_views.py:186-200 | The loop computes the dues and their commission and total sums. |
| GatewayViews.GroupChildren | payment/views/gateway_function_views.py:218-230 | One child per due, carrying its remaining share and commission, linked to the mother. |
| GatewayViews.GroupMotherIsChildrenSum | payment/views/gateway_function_views.py:205-230 | The group mother's amount is the children's share sum and its commission their commission sum. |
| GatewayViews.ChildrenSums | payment/views/gateway_function_views.py:218-230 | The children's amounts add up to the shares and their commissions to the commission sum. |
| GatewayViews.GroupGateway | payment/views/gateway_function_views.py:174-184 | A given id must name an active gateway (else raises); without one, the client's preset code is looked up. |
| GatewayViews.RequestGroupPay | payment/views/gateway_function_views.py:158-247 | Without memberships the view answers the corrected 400, recording nothing; 1112 for a bad gateway, recording nothing; otherwise the dues are collected and paid. |
| GatewayViews.JsonResponse | payment/views/gateway_function_views.py:171 | A dict body gives a response with the status; a set body raises TypeError (the `safe` check). |
| GatewayViews.MissingMembershipsAsWritten | payment/views/gateway_function_views.py:170-171 | As written, the missing-memberships answer raises. |
| GatewayViews.MissingMembershipsRaises | payment/views/gateway_function_views.py:170-171 | The as-written answer is TypeError and never the 400 the view means. |
| GatewayViews.MissingMemberships | payment/views/gateway_function_views.py:170-171 | With the message as a dict, the answer is a 400 response. |
| GatewayViews.PayDues | payment/views/gateway_function_views.py:202-247 | The mother (amount = share sum, commission = commission sum), then the children, are recorded. 1115 when unsuccessful, else 200 with the total and the commission sum; no gateway crashes after recording. |
| GatewayViews.CreateGroupChildren | payment/views/gateway_function_views.py:218-230 | The loop appends exactly the group children. |
| Abonnements.TypeCoef | moneypool_management/models/abonnement.py:38-45 | The custom coefficient times the type's coefficient for payable, registrable and hybrid; unchanged for other types. |
| Abonnements.TierAmount | moneypool_management/models/abonnement.py:46-81 | The amount of the first tier (S, M, L, XL) whose inclusive bounds contain the count; XL when none does. |
| Abonnements.InvoiceByTier | moneypool_management/models/abonnement.py:37-82 | The invoice is the coefficient times the amount of the first covering tier, or XL. |
| Abonnements.TierAmountGrows | moneypool_management/models/abonnement.py:46-81 | On a graded tariff (adjacent tiers, amounts rising), from the smallest tier up, more poolships never cost a lower tier amount. |
| Abonnements.InvoiceGrowsWithCount | moneypool_management/models/abonnement.py:37-82 | With a non-negative coefficient on a graded tariff, the invoice never falls as the poolship count grows from the smallest tier up. |
| Abonnements.BelowSmallestIsXL | moneypool_management/models/abonnement.py:46-81 | A count below the smallest tier falls through to the XL amount. |
| BalanceMigration.FeedPeriod | cashbox_management/migrations/0040_auto_20190623_1145.py:13-24 | The hamyan balance becomes the memberships' total minus the bank balance. Each nonzero balance becomes balance/total. It raises ZeroDivisionError iff the total is 0 with a nonzero balance, leaving all percentages as they were. |
| BalanceMigration.FeedBalanceData | cashbox_management/migrations/0040_auto_20190623_1145.py:10-24 | Succeeds iff no period divides by zero. Then every period is converted as above, and memberships of other periods keep their percentage. |
| BalanceMigration.NonNegativeNeverDividesByZero | cashbox_management/migrations/0040_auto_20190623_1145.py:14-24 | With non-negative balances the total is non-negative and the conversion never divides by zero. |
| BalanceMigration.PercentagesScaleToBalances | cashbox_management/migrations/0040_auto_20190623_1145.py:21-24 | The converted percentages times the total give back the balance total. |
| BalanceMigration.PercentagesSumToOne | cashbox_management/migrations/0040_auto_20190623_1145.py:14-24 | A converted period's percentages sum to 1 when its total is not 0. |
| BalanceMigration.MigrationKeepsBalance | cashbox_management/migrations/0040_auto_20190623_1145.py:17-24 | After the migration the balance computed from the percentage (percentage × (bank + hamyan), rounded) is the old absolute balance, for zero and nonzero balances alike. |

## Left out

- Announcements, SMS, notifications, logging and serializer output are not modelled. They are fire-and-forget I/O.
- `period.py`, the ShareGroup, Winner, Loan, Commission and Moneypool models, and `Transaction` methods are not part of this model. The period's derived quantities are given concrete definitions. They are the valid and unpaid memberships, the satisfactory amount, the number of remaining cycles, the owner and the creation of the next cycle.
- `random.choice` is an index `pick` taken modulo the candidate count.
- `choose_winners`, `Commission.calculate_cycle_commission`, `gateway.request_pay`, `get_service_package_amount`, `calculate_order_end_date`, `transfer_hamyan_balance_to_bank` and the serializers' field validation are parameters. These are the `choose`, `rate`, `unsuccessful`, `amount`, `endDate`, `validated`/`serializerValid` and `cashoutValid` parameters, or a flag in the result.
- Gateway pay: the pay URL, the client type and the JSON parsing of the request body are not modelled. The client's preset gateway is given as a code.
- Gateway pay: the membership ids are natural numbers. The "receiver None" 1112 branch is not modelled because a request always names a receiver.
- The due-date refresh of `update_moneypool` and the pagination and text search of the list views are not modelled.
- Dates are compared only, and the Jalali parsing of times is a parameter.
- Discount expiry is a stored flag.
- The tariff constants of the abonnement price are a parameter, because the settings module is not part of this model.
- Money computed with `/` is an exact real: Python 3's true division without floating-point rounding. `Membership.Balance` rounds half to even, as Python's `round` does on an exact value.
- Membership.calculate_local_score and the other float scoring are not modelled.
- BalanceMigration.FeedBalanceData: a ZeroDivisionError leaves the periods converted before it changed. The model does not capture the migration's transaction rollback.
- The `SET_NULL` case of a membership's member is not modelled: a membership always has a member.
- Concurrency and the lack of locking are not modelled.
- Scheduled jobs, admin pages, scripts, URL routing and authentication are not modelled.
- Cashbox.Period.Valid: it assumes one membership per member in a period. The source's `unique_together` includes the id, so duplicates are possible there, and the `get` lookups would then raise MultipleObjectsReturned. The model does not capture that error.
- Cashbox.Cashbox.CreateCashoutForWinner: it compares the count created with the number of group members, standing for the group's `number_of_portions`, because the ShareGroup model is not part of this model.
- Cashbox.Cashbox.CreateCashout: it requires a current period with a current cycle when the cash-out is made. The source raises AttributeError there for a box without one, which the model does not capture; the draw callers always have a current cycle.
- LoanViews.FindReceiver: only integer ids match. The ORM's coercion of a numeric string id, and its ValueError for a non-numeric one, are not modelled.
- Cashbox.Cashbox.Recipients: the recipients are stated as a set; their order, by descending membership id, is not modelled.
- Cashbox.Cashbox.DrawCycleAndStartNew: it requires a current period with a current cycle even for an inactivated box, which the source returns from before reading either.
- PaymentSerializers.LoanSave: `create_installments` is not modelled. The installments it creates are a parameter, and the loan's own fields (interest, modes, dates) are not stored on the modelled Loan. The pre-reduced amount is exact real arithmetic, not a Python float.
- PaymentSerializers.CashinData: the cash-in `time` is a read-only serializer field. It stands for the time the record is stamped with, not for request data.

## Findings

| source | as written | input that shows it | evidently intended | confidence | as-written member | corrected member |
|---|---|---|---|---|---|---|
| moneypool_management/views/loan_function_views.py:213 | `grace_installments` looks the loan up by id alone, so a manager of one pool can grant grace on a loan of another pool | manager of pool 1, loan 7 of pool 2, count 1: 2050 | look the loan up in the caller's pool, as `remove_loan` does at line 157, so the answer is 2054 | high, not executed | LoanViews.GraceStatusAsWritten | LoanViews.GraceStatus |
| moneypool_management/views/cashout_function_views.py:123 | `remove_cashout` calls `cashout.delete()`, so the pool's bank balance is not charged back | record cash-out of 100 in a pool with bank balance 0: the balance stays 0 | remove through `MoneypoolCashout.remove` (payment/models/moneypool_cashout.py:147-151), which charges the 100 back | medium, not executed | CashoutViews.RemoveCashoutAsWritten | CashoutViews.RemoveCashout |
| payment/views/gateway_function_views.py:170-171 | `request_group_pay` answers a request without memberships with `JsonResponse({"Message", "No Membership in request"}, status=400)`, a set literal, which `JsonResponse` refuses with TypeError | a group-pay request body without a "memberships" key: TypeError instead of a response | the dict `{"Message": "No Membership in request"}`, so the answer is 400 | high, not executed | GatewayViews.MissingMembershipsAsWritten | GatewayViews.MissingMemberships |
