/** Concrete sessions driven through the `Ledger` contracts alone. */
module Scenarios {
  import opened Records
  import opened AppState

  const Basic := PlanOffer("Plan Básico", "Minero A1", 30000, 1050, 15000)
  const Small := PlanOffer("Plan Inicial", "Minero S1", 20000, 900, 5000)

  method DepositIntoEmptyAccount(day: Day) {
    var l := new Ledger(day);
    var o := l.Deposit(Num(10000));
    assert o == Accepted && l.balance == 10000;
    assert l.transactions == [Transaction(0, Kind.Deposit, 10000, DepositNote)];
  }

  method RejectedInputsChangeNothing(day: Day) {
    var l := new Ledger(day);
    var o := l.Deposit(NaN);
    assert o == Rejected(InvalidAmount) && l.balance == 0 && l.transactions == [];
    o := l.Deposit(Num(0));
    assert o == Rejected(InvalidAmount) && l.transactions == [];
    o := l.Withdraw(Num(-5));
    assert o == Rejected(InvalidAmount) && l.transactions == [];
  }

  method WithdrawBelowFallbackMinimum(day: Day) {
    var l := new Ledger(day);
    var o := l.Deposit(Num(10000));
    o := l.Withdraw(Num(5000));
    assert o == Rejected(BelowMinimum(10000));
    assert l.balance == 10000 && |l.transactions| == 1;
  }

  /** The minimum check comes before the balance check. */
  method BelowMinimumReportedBeforeInsufficientFunds(day: Day) {
    var l := new Ledger(day);
    var o := l.Withdraw(Num(5000));
    assert o == Rejected(BelowMinimum(10000));
  }

  method BuyTwoPlans(day: Day) {
    var l := new Ledger(day);
    var o := l.Deposit(Num(70000));
    o := l.PurchasePlan(Basic, day);
    assert o == Accepted && l.balance == 40000 && l.activePlans == [Bought(Basic, day)];
    assert l.transactions[0] == Transaction(1, Purchase, 30000, PurchaseNote("Minero A1"));
    o := l.PurchasePlan(Small, day);
    assert l.balance == 20000 && l.activePlans == [Bought(Basic, day), Bought(Small, day)];
  }

  /** Accrual over the two plans bought in `BuyTwoPlans`. */
  method AccrueTwoPlans(l: Ledger, day: Day)
    requires l.Valid() && l.lastEarningDate == day
    requires l.activePlans == [Bought(Basic, day), Bought(Small, day)]
    modifies l
  {
    ghost var plans := l.activePlans;
    ghost var before := l.balance;
    ghost var id := l.nextId;
    assert TotalDailyROI(plans) == 1950 by {
      var first := plans[..1];
      assert first == [Bought(Basic, day)] && first[..0] == [];
      assert TotalDailyROI(first) == TotalDailyROI([]) + 1050;
      assert TotalDailyROI(plans) == TotalDailyROI(first) + 900;
    }

    // Same day: nothing accrues.
    l.SimulateDailyEarnings(day);
    assert l.balance == before && l.nextId == id;

    // Next day: one Earning entry per plan, the later plan's entry first.
    l.SimulateDailyEarnings(day + 1);
    assert l.balance == before + 1950 && l.nextId == id + 2;
    EarningLogAt(plans, id, 0);
    EarningLogAt(plans, id, 1);
    assert l.transactions[0] == EarningEntry(Bought(Small, day), id + 1);
    assert l.transactions[1] == EarningEntry(Bought(Basic, day), id);

    // The same day again: a no-op.
    l.SimulateDailyEarnings(day + 1);
    assert l.balance == before + 1950 && l.nextId == id + 2;
  }

  method WithdrawMoreThanBalance(day: Day) {
    var l := new Ledger(day);
    var o := l.Deposit(Num(130000));
    o := l.PurchasePlan(Basic, day);
    assert l.balance == 100000;
    o := l.Withdraw(Num(200000));
    assert o == Rejected(InsufficientFunds) && l.balance == 100000;
  }

  method PurchaseOverBalance(day: Day) {
    var l := new Ledger(day);
    var o := l.Deposit(Num(50000));
    o := l.PurchasePlan(PlanOffer("Plan Oro", "Minero G1", 60000, 2100, 30000), day);
    assert o == Rejected(InsufficientFunds);
    assert l.balance == 50000 && l.activePlans == [] && |l.transactions| == 1;
  }

  /** With a plan active, its own minimum governs even when it is below the fallback. */
  method PlanMinimumBelowFallback(day: Day) {
    var l := new Ledger(day);
    var o := l.Deposit(Num(40000));
    o := l.PurchasePlan(Small, day);
    assert MinWithdrawal(l.activePlans) == 5000;
    o := l.Withdraw(Num(6000));
    assert o == Accepted && l.balance == 14000;
  }

  /** Logout empties the account but keeps the last accrual day, so logging back in on
      the same day accrues nothing. */
  method LogoutKeepsAccrualDay(day: Day) {
    var l := new Ledger(day - 1);
    var o := l.Deposit(Num(30000));
    o := l.PurchasePlan(Basic, day - 1);
    var shown := l.Refresh(day);
    assert shown == 15000 && l.balance == 1050;
    l.Logout();
    assert l.lastEarningDate == day;
    shown := l.Refresh(day);
    assert shown == FallbackMinWithdrawal && l.balance == 0 && l.transactions == [];
  }

  /** A purchase on a new day is followed by a refresh whose accrual includes the new plan. */
  method PurchaseOnNewDayAccruesNewPlan(day: Day) {
    var l := new Ledger(day);
    var o := l.Deposit(Num(30000));
    o := l.BuyPlan(Basic, day + 1);
    assert o == Accepted && l.balance == 1050 && |l.transactions| == 3;
    assert l.transactions[0].kind == Earning;
  }
}
