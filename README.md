# Account ledger of the investment wallet

The wallet page keeps one mutable account object: a cash balance in whole
Colombian pesos, the yield plans the user has bought, a newest-first history of
transactions, and the day on which daily earnings were last credited. Form and
button handlers change it. Users can deposit, withdraw (subject to a minimum set
by the most restrictive active plan), buy a plan, and log out. Whenever the dashboard
is refreshed (after login and after each accepted deposit, withdrawal or purchase),
one day's yield from every plan is credited, at most once per calendar day.

This project models that ledger in Dafny:

- `records.dfy` (module `Records`) holds the value types and the pure computations:
  - transactions, plans and parsed amounts;
  - the signed total of a history (`Net`);
  - the governing withdrawal minimum (`MinWithdrawal`);
  - the daily yield (`TotalDailyROI`) and the Earning entries one accrual logs (`EarningLog`);
  - the ordered withdrawal checks (`WithdrawalCheck`).
- `ledger.dfy` (module `AppState`) holds the class `Ledger`. Its fields are the ledger
  fields of the account object, and its methods are the handler bodies. `Ledger.Valid()`
  is the ledger invariant. The constructor establishes it, and every handler method keeps
  it (`SimulateDailyEarnings`, `Deposit`, `Withdraw`, `PurchasePlan`, `Logout`, `Refresh`,
  `SubmitDeposit`, `SubmitWithdrawal` and `BuyPlan`). The two logging helpers,
  `LogTransaction` and `LogDailyEarnings`, run in the middle of an update and keep only
  the newest-first order. The invariant says:
  - the balance is never negative;
  - the balance equals deposits plus earnings minus withdrawals and purchases, as recorded in the history;
  - every active plan pays a positive daily yield;
  - transaction ids strictly decrease from the head of the history.
- `scenarios.dfy` (module `Scenarios`) walks concrete sessions through the class
  contracts alone, checked by the verifier. Examples: a deposit into an empty account, rejected inputs,
  the order in which withdrawal errors are reported, accrual over two plans and its
  idempotence, and logout keeping the accrual day.

Points where the code's behaviour may be unexpected, which the model follows as written:

- One accrual logs one Earning entry per plan, not one aggregated entry (script.js:75-79).
- A deposit only needs to be a positive number; there is no 10000 minimum (script.js:365).
- Once a plan is active, the withdrawal minimum is the largest plan minimum, even when that
  is below 10000. It is not floored at 10000 (script.js:185-188, 380-382).
- Logout does not reset the last accrual day (script.js:439-441).

Conventions:

- Money is an unbounded integer of whole pesos. The amounts are displayed with no fractional digits.
- A parsed form field is `Num(n)` or `NaN`.
- A day is an abstract `Day` value, compared only for equality. It is passed in as `today`.
- The `Date.now()` ids become a counter, `nextId`.

## Model

| member | source | states |
|---|---|---|
| Records.Unshift | script.js:59-67 | the new entry is at index 0 and the entries after it are exactly the earlier history, each one place later |
| Records.NewestFirstOrdered | script.js:59-61 | a newest-first history has every id below the next id to be issued, and every entry's id above those of all entries after it |
| Records.UnshiftNewestFirst | script.js:59-61 | prepending an entry stamped with the next id keeps the history newest first |
| Records.NetUnshift | script.js:59-66 | logging an entry moves the accounted balance by exactly that entry's signed amount |
| Records.MaxMinWithdrawal | script.js:187 | the result is one of the plans' minimums and no plan's minimum exceeds it |
| Records.MinWithdrawal | script.js:184-188 | 10000 with no active plan; otherwise the maximum `minWithdrawal` over the active plans (attained by some plan, bounding all) |
| Records.MinWithdrawalAfterPurchase | script.js:379-382 | after a plan is appended, the minimum is at least that plan's minimum and, if a plan was already active, at least the previous minimum |
| Records.TotalDailyROIPositive | script.js:74-83 | with positive plan yields, the day's total is non-negative and positive as soon as one plan is active, so the `> 0` guard credits exactly the logged total |
| Records.EarningLog | script.js:75-79 | one accrual logs exactly one entry per active plan |
| Records.EarningLogAt | script.js:75-79 | entry k of one accrual's log is the Earning entry, with yield and name, of the plan k places from the end of the list, stamped in plan order; so the last plan's entry ends up first |
| Records.AccrualStep | script.js:75-79 | one turn of the loop over plan i puts that plan's entry on top of the entries for the plans before it and adds its yield to the running total |
| Records.NetEarningLog | script.js:75-82 | the entries one accrual logs account for exactly the total daily yield |
| Records.EarningLogAccounted | script.js:75-82 | prepending one accrual's entries raises the balance the history accounts for by exactly the total daily yield |
| Records.EarningLogNewestFirst | script.js:75-77 | the entries one accrual logs have consecutive ids and keep the history newest first |
| Records.WithdrawalCheck | script.js:384-395 | accepted exactly when the amount is a positive number, at least the minimum and at most the balance; otherwise the first failing check is reported: InvalidAmount, then BelowMinimum (carrying the minimum), then InsufficientFunds |
| Records.DueLog | script.js:70-79 | nothing is logged when today is the last accrual day; otherwise one entry per plan, together accounting for the total daily yield |
| Records.DueCredit | script.js:73-83 | the credit is non-negative, and positive exactly when today is a new day and some plan is active |
| AppState.Ledger.constructor | script.js:3-13 | a session starts with balance 0, no plans, no history, and the accrual day set to today; the invariant holds |
| AppState.Ledger.LogTransaction | script.js:59-67 | the history becomes the new entry (stamped with the next id) followed by the old history; balance, plans and accrual day are unchanged |
| AppState.Ledger.LogDailyEarnings | script.js:74-79 | the loop prepends the entries of `EarningLog` for the active plans, stamped from the next id, and returns the plans' total daily yield; the history stays newest first and nothing else changes |
| AppState.Ledger.SimulateDailyEarnings | script.js:70-86 | on the last accrual day, nothing changes; otherwise one Earning entry per plan is prepended in plan order, the balance rises by the plans' total yield, and the accrual day becomes today; the invariant is kept, so a second call on the same day is a no-op |
| AppState.Ledger.Deposit | script.js:362-370 | a non-numeric or non-positive amount is rejected with InvalidAmount and nothing changes; otherwise the balance rises by exactly the amount and one Deposit entry of the amount is prepended; plans are untouched |
| AppState.Ledger.Withdraw | script.js:376-397 | the outcome is the ordered check against the governing minimum and the balance; a rejection changes nothing; an acceptance lowers the balance by exactly the amount (still non-negative), leaves the plans untouched and prepends one Withdrawal entry |
| AppState.Ledger.PurchasePlan | script.js:403-422 | rejected with InsufficientFunds, changing nothing, when the price exceeds the balance; otherwise the balance drops by the price (still non-negative), the plan is appended after the earlier plans, and one Purchase entry of the price is prepended |
| AppState.Ledger.Logout | script.js:436-443 | balance 0, no plans, empty history; the last accrual day is kept; the invariant holds from any state |
| AppState.Ledger.Refresh | script.js:170-190 | accrues as SimulateDailyEarnings does, and the minimum shown on the withdrawal page, as computed at each refresh, is the same `MinWithdrawal` the withdrawal check uses |
| AppState.Ledger.SubmitDeposit | script.js:362-374 | a rejected deposit changes nothing; an accepted one is the deposit followed by the day's accrual, which prepends its entries above the Deposit entry; the id counter ends past the ids of every entry logged |
| AppState.Ledger.SubmitWithdrawal | script.js:376-401 | a rejected withdrawal changes nothing; an accepted one is the withdrawal followed by the day's accrual; the id counter ends past the ids of every entry logged |
| AppState.Ledger.BuyPlan | script.js:403-426 | a rejected purchase changes nothing; an accepted one is the purchase followed by the day's accrual, which already includes the new plan; the id counter ends past the ids of every entry logged |

## Left out

- Rendering is not modelled: `renderActivePlans`, `renderHistory`, the text updates of `updateUI`, `formatCurrency`, `navigateTo`, `createNav` and `updateNav` are presentation only. `Refresh` keeps only the ledger part of `updateUI`.
- The notification modal and every `setTimeout` delay are not modelled. They are timing and UI only.
- The login, registration, recovery, profile-edit and password-change handlers are not modelled. Login (script.js:303) and password change (script.js:346) compare against hard-coded demo values; registration, recovery and profile edit (script.js:316-326, 428-434) check nothing. None of them touches the ledger. A successful login calls `updateUI` (script.js:305), which is `Refresh`.
- Dark mode and its `localStorage` persistence are not modelled. They are browser I/O.
- The user profile fields of the account object are not modelled. No ledger operation reads them.
- Money is not floating point. `parseFloat` can yield fractions or `Infinity`, which passes the `> 0` checks. The model uses whole pesos and the `NaN` case only.
- Transaction ids: `Date.now()` is modelled as a counter, so ids are unique. In the source, any entries logged in the same millisecond share an id. That covers the entries of one accrual loop, and also a Deposit, Withdrawal or Purchase entry together with the accrual entries of the `updateUI` call that follows it (script.js:370-371, 397-398, 422-423).
- The transaction date string (`toLocaleString`) is not kept. The plan's purchase date is the abstract `today`.
- AppState.Ledger.PurchasePlan: the plan template's fields are assumed positive (`WellFormedOffer`), because the source never validates the parsed `data-*` values. A missing value has a different effect for each field. A missing price gives `NaN > balance`, which is false, so the purchase goes through and the balance becomes `NaN` (script.js:407, 415, 420). A missing daily yield (script.js:410) leaves the balance a number, but each accrual then logs a `NaN` Earning entry (script.js:77) and makes the day's total `NaN` (script.js:78). `NaN > 0` is false (script.js:81), so nothing that day is credited, not even the other plans' yield. A missing withdrawal minimum (script.js:411) makes `Math.max` return `NaN` (script.js:381), so `amount < minWithdrawal` (script.js:388) never holds and the minimum check is switched off.
- AppState.Ledger.Refresh: the shown minimum is only recomputed by a refresh. `Logout` (script.js:436-443) does not refresh, and navigation has no login guard (script.js:248-266). So after a logout and before the next login, the withdrawal page still shows the previous plans' minimum, while the check at script.js:379-382 already uses 10000. The model does not keep the displayed value as state.
