/** The application's mutable account state and the handlers that change it.
    The browser object `appState` becomes one `Ledger` object; the clock is the
    `today` parameter and the `Date.now()` ids are the counter `nextId`. */
module AppState {
  import opened Records

  class Ledger {
    var balance: int
    var activePlans: seq<Plan>
    var transactions: seq<Transaction>   // newest first
    var lastEarningDate: Day
    var nextId: nat                      // stands for the clock behind `Date.now()`

    /** The ledger invariant: the balance is never negative and is exactly what
        the history accounts for; plans pay a positive yield; the history is newest first. */
    ghost predicate Valid()
      reads this
    {
      balance >= 0 &&
      balance == Net(transactions) &&
      PositiveYields(activePlans) &&
      NewestFirst(transactions, nextId)
    }

    /** The state a session starts in. */
    constructor (today: Day)
      ensures Valid()
      ensures balance == 0 && activePlans == [] && transactions == []
      ensures lastEarningDate == today && nextId == 0
    {
      balance := 0;
      activePlans := [];
      transactions := [];
      lastEarningDate := today;
      nextId := 0;
    }

    /** Records one entry at the head of the history. */
    method LogTransaction(kind: Kind, amount: int, description: string)
      requires NewestFirst(transactions, nextId)
      modifies this
      ensures transactions == Unshift(old(transactions), Transaction(old(nextId), kind, amount, description))
      ensures nextId == old(nextId) + 1
      ensures NewestFirst(transactions, nextId)
      ensures balance == old(balance) && activePlans == old(activePlans)
      ensures lastEarningDate == old(lastEarningDate)
    {
      var entry := Transaction(nextId, kind, amount, description);
      UnshiftNewestFirst(transactions, nextId, entry);
      transactions := Unshift(transactions, entry);
      nextId := nextId + 1;
    }

    /** The `forEach` over the active plans: logs one Earning entry per plan, in plan
        order, and returns the sum of their yields. */
    method LogDailyEarnings() returns (total: int)
      requires NewestFirst(transactions, nextId)
      modifies this
      ensures total == TotalDailyROI(activePlans)
      ensures transactions == EarningLog(activePlans, old(nextId)) + old(transactions)
      ensures nextId == old(nextId) + |activePlans|
      ensures NewestFirst(transactions, nextId)
      ensures balance == old(balance) && activePlans == old(activePlans)
      ensures lastEarningDate == old(lastEarningDate)
    {
      total := 0;
      var i := 0;
      while i < |activePlans|
        invariant 0 <= i <= |activePlans|
        invariant activePlans == old(activePlans) && balance == old(balance)
        invariant lastEarningDate == old(lastEarningDate) && nextId == old(nextId) + i
        invariant total == TotalDailyROI(activePlans[..i])
        invariant transactions == EarningLog(activePlans[..i], old(nextId)) + old(transactions)
        invariant NewestFirst(transactions, nextId)
      {
        var plan := activePlans[i];
        AccrualStep(activePlans, i, old(nextId), old(transactions));
        LogTransaction(Earning, plan.dailyROI, EarningNote(plan.machineName));
        total := total + plan.dailyROI;
        i := i + 1;
      }
      assert activePlans[..i] == activePlans;
    }

    /** Credits one day's yield at most once per day: on a day other than the last
        accrual day, logs one Earning entry per plan and adds their total to the balance. */
    method SimulateDailyEarnings(today: Day)
      requires Valid()
      modifies this
      ensures Valid()
      ensures old(lastEarningDate) == today ==> unchanged(this)
      ensures transactions == DueLog(old(activePlans), old(lastEarningDate), today, old(nextId)) + old(transactions)
      ensures balance == old(balance) + DueCredit(old(activePlans), old(lastEarningDate), today)
      ensures nextId == old(nextId) + |DueLog(old(activePlans), old(lastEarningDate), today, old(nextId))|
      ensures activePlans == old(activePlans) && lastEarningDate == today
    {
      if lastEarningDate != today {
        EarningLogAccounted(activePlans, nextId, transactions);
        TotalDailyROIPositive(activePlans);
        var total := LogDailyEarnings();
        if total > 0 {
          balance := balance + total;
        }
        lastEarningDate := today;
      }
    }

    /** Credits a deposit: rejected unless the amount is a positive number. */
    method Deposit(input: Amount) returns (outcome: Outcome)
      requires Valid()
      modifies this
      ensures Valid()
      ensures outcome == (if ValidAmount(input) then Accepted else Rejected(InvalidAmount))
      ensures outcome.Rejected? ==> unchanged(this)
      ensures outcome.Accepted? ==>
                balance == old(balance) + input.value &&
                transactions == Unshift(old(transactions), Transaction(old(nextId), Kind.Deposit, input.value, DepositNote)) &&
                nextId == old(nextId) + 1
      ensures activePlans == old(activePlans) && lastEarningDate == old(lastEarningDate)
    {
      if !ValidAmount(input) {
        return Rejected(InvalidAmount);
      }
      balance := balance + input.value;
      NetUnshift(transactions, Transaction(nextId, Kind.Deposit, input.value, DepositNote));
      LogTransaction(Kind.Deposit, input.value, DepositNote);
      outcome := Accepted;
    }

    /** Debits a withdrawal after the three checks, in order: a positive number,
        at least the governing minimum, at most the balance. */
    method Withdraw(input: Amount) returns (outcome: Outcome)
      requires Valid()
      modifies this
      ensures Valid()
      ensures outcome == WithdrawalCheck(input, MinWithdrawal(old(activePlans)), old(balance))
      ensures outcome.Rejected? ==> unchanged(this)
      ensures outcome.Accepted? ==>
                balance == old(balance) - input.value && balance >= 0 &&
                transactions == Unshift(old(transactions), Transaction(old(nextId), Withdrawal, input.value, WithdrawalNote)) &&
                nextId == old(nextId) + 1
      ensures activePlans == old(activePlans) && lastEarningDate == old(lastEarningDate)
    {
      var minimum := MinWithdrawal(activePlans);
      if !ValidAmount(input) {
        return Rejected(InvalidAmount);
      }
      if input.value < minimum {
        return Rejected(BelowMinimum(minimum));
      }
      if input.value > balance {
        return Rejected(InsufficientFunds);
      }
      balance := balance - input.value;
      NetUnshift(transactions, Transaction(nextId, Withdrawal, input.value, WithdrawalNote));
      LogTransaction(Withdrawal, input.value, WithdrawalNote);
      outcome := Accepted;
    }

    /** Buys a plan: rejected when its price exceeds the balance; otherwise debits the
        price, appends the plan and logs the purchase, as one step. */
    method PurchasePlan(offer: PlanOffer, today: Day) returns (outcome: Outcome)
      requires Valid() && WellFormedOffer(offer)
      modifies this
      ensures Valid()
      ensures outcome == (if offer.price > old(balance) then Rejected(InsufficientFunds) else Accepted)
      ensures outcome.Rejected? ==> unchanged(this)
      ensures outcome.Accepted? ==>
                balance == old(balance) - offer.price && balance >= 0 &&
                activePlans == old(activePlans) + [Bought(offer, today)] &&
                transactions == Unshift(old(transactions),
                                        Transaction(old(nextId), Purchase, offer.price, PurchaseNote(offer.machineName))) &&
                nextId == old(nextId) + 1
      ensures lastEarningDate == old(lastEarningDate)
    {
      if offer.price > balance {
        return Rejected(InsufficientFunds);
      }
      var plan := Bought(offer, today);
      balance := balance - plan.price;
      activePlans := activePlans + [plan];
      NetUnshift(transactions, Transaction(nextId, Purchase, plan.price, PurchaseNote(plan.machineName)));
      LogTransaction(Purchase, plan.price, PurchaseNote(plan.machineName));
      outcome := Accepted;
    }

    /** Clears the account on logout; the last accrual day (and the id clock) carry over. */
    method Logout()
      modifies this
      ensures Valid()
      ensures balance == 0 && activePlans == [] && transactions == []
      ensures lastEarningDate == old(lastEarningDate) && nextId == old(nextId)
    {
      balance := 0;
      activePlans := [];
      transactions := [];
    }

    /** The ledger part of refreshing the dashboard: accrue the day's earnings, then
        compute the withdrawal minimum shown to the user. */
    method Refresh(today: Day) returns (shownMinimum: int)
      requires Valid()
      modifies this
      ensures Valid()
      ensures shownMinimum == MinWithdrawal(activePlans)
      ensures old(lastEarningDate) == today ==> unchanged(this)
      ensures transactions == DueLog(old(activePlans), old(lastEarningDate), today, old(nextId)) + old(transactions)
      ensures balance == old(balance) + DueCredit(old(activePlans), old(lastEarningDate), today)
      ensures nextId == old(nextId) + |DueLog(old(activePlans), old(lastEarningDate), today, old(nextId))|
      ensures activePlans == old(activePlans) && lastEarningDate == today
    {
      SimulateDailyEarnings(today);
      shownMinimum := MinWithdrawal(activePlans);
    }

    /** The deposit form: a rejected deposit changes nothing; an accepted one is
        followed by the dashboard refresh, which may accrue the day's earnings on top. */
    method SubmitDeposit(input: Amount, today: Day) returns (outcome: Outcome)
      requires Valid()
      modifies this
      ensures Valid()
      ensures outcome == (if ValidAmount(input) then Accepted else Rejected(InvalidAmount))
      ensures outcome.Rejected? ==> unchanged(this)
      ensures outcome.Accepted? ==>
                balance == old(balance) + input.value + DueCredit(old(activePlans), old(lastEarningDate), today) &&
                transactions == DueLog(old(activePlans), old(lastEarningDate), today, old(nextId) + 1) +
                                Unshift(old(transactions), Transaction(old(nextId), Kind.Deposit, input.value, DepositNote)) &&
                nextId == old(nextId) + 1 + |DueLog(old(activePlans), old(lastEarningDate), today, old(nextId) + 1)| &&
                activePlans == old(activePlans) && lastEarningDate == today
    {
      outcome := Deposit(input);
      if outcome.Accepted? {
        var _ := Refresh(today);
      }
    }

    /** The withdrawal form: a rejected withdrawal changes nothing; an accepted one is
        followed by the dashboard refresh. */
    method SubmitWithdrawal(input: Amount, today: Day) returns (outcome: Outcome)
      requires Valid()
      modifies this
      ensures Valid()
      ensures outcome == WithdrawalCheck(input, MinWithdrawal(old(activePlans)), old(balance))
      ensures outcome.Rejected? ==> unchanged(this)
      ensures outcome.Accepted? ==>
                balance == old(balance) - input.value + DueCredit(old(activePlans), old(lastEarningDate), today) &&
                transactions == DueLog(old(activePlans), old(lastEarningDate), today, old(nextId) + 1) +
                                Unshift(old(transactions), Transaction(old(nextId), Withdrawal, input.value, WithdrawalNote)) &&
                nextId == old(nextId) + 1 + |DueLog(old(activePlans), old(lastEarningDate), today, old(nextId) + 1)| &&
                activePlans == old(activePlans) && lastEarningDate == today
    {
      outcome := Withdraw(input);
      if outcome.Accepted? {
        var _ := Refresh(today);
      }
    }

    /** A click on a plan's buy button: a rejected purchase changes nothing; an accepted
        one is followed by the dashboard refresh, whose accrual already includes the new plan. */
    method BuyPlan(offer: PlanOffer, today: Day) returns (outcome: Outcome)
      requires Valid() && WellFormedOffer(offer)
      modifies this
      ensures Valid()
      ensures outcome == (if offer.price > old(balance) then Rejected(InsufficientFunds) else Accepted)
      ensures outcome.Rejected? ==> unchanged(this)
      ensures outcome.Accepted? ==>
                var plans := old(activePlans) + [Bought(offer, today)];
                balance == old(balance) - offer.price + DueCredit(plans, old(lastEarningDate), today) &&
                transactions == DueLog(plans, old(lastEarningDate), today, old(nextId) + 1) +
                                Unshift(old(transactions),
                                        Transaction(old(nextId), Purchase, offer.price, PurchaseNote(offer.machineName))) &&
                nextId == old(nextId) + 1 + |DueLog(plans, old(lastEarningDate), today, old(nextId) + 1)| &&
                activePlans == plans && lastEarningDate == today
    {
      outcome := PurchasePlan(offer, today);
      if outcome.Accepted? {
        var _ := Refresh(today);
      }
    }
  }
}
