/** Value types of the account ledger and the pure computations over them:
    transaction entries and their signed total, purchased plans, the governing
    withdrawal minimum, the daily yield and the entries one accrual logs. */
module Records {

  /** A calendar day. The application compares days only for equality
      (the date string of `new Date().toDateString()`), so any integer coding works. */
  type Day = int

  /** The fallback withdrawal minimum, in whole pesos, used while no plan is active. */
  const FallbackMinWithdrawal: int := 10000

  datatype Kind = Deposit | Withdrawal | Purchase | Earning

  /** One history entry. `id` stands for the creation stamp; `amount` is a magnitude
      whose sign follows from `kind`. */
  datatype Transaction = Transaction(id: nat, kind: Kind, amount: int, description: string)

  /** A plan as offered on the plan page, before it is bought. */
  datatype PlanOffer = PlanOffer(name: string, machineName: string, price: int, dailyROI: int, minWithdrawal: int)

  /** A purchased plan: the offer's fields plus the day it was bought. */
  datatype Plan = Plan(name: string, machineName: string, price: int, dailyROI: int, minWithdrawal: int, purchaseDate: Day)

  /** The outcome of parsing a form field as a number: either not a number, or a whole amount. */
  datatype Amount = NaN | Num(value: int)

  datatype LedgerError =
    | InvalidAmount               // not a number, or not positive
    | BelowMinimum(minimum: int)  // under the governing withdrawal minimum
    | InsufficientFunds           // more than the balance

  datatype Outcome = Accepted | Rejected(error: LedgerError)

  const DepositNote: string := "Depósito confirmado vía Nequi"
  const WithdrawalNote: string := "Retiro solicitado a Nequi"

  function PurchaseNote(machineName: string): string { "Compra del plan " + machineName }

  function EarningNote(machineName: string): string { "Ganancia diaria por " + machineName }

  /** The plan templates carry positive price, daily yield and minimum. */
  predicate WellFormedOffer(o: PlanOffer) {
    o.price > 0 && o.dailyROI > 0 && o.minWithdrawal > 0
  }

  predicate PositiveYields(plans: seq<Plan>) {
    forall i :: 0 <= i < |plans| ==> plans[i].dailyROI > 0
  }

  /** The plan recorded when `o` is bought on day `today`. */
  function Bought(o: PlanOffer, today: Day): Plan
  {
    Plan(o.name, o.machineName, o.price, o.dailyROI, o.minWithdrawal, today)
  }

  // ---------------------------------------------------------------------------
  // Transaction history

  /** Prepending to the history: the new entry takes index 0 and every earlier
      entry moves one place later, unchanged. */
  function Unshift(txs: seq<Transaction>, t: Transaction): (r: seq<Transaction>)
    ensures |r| == |txs| + 1 && r[0] == t && r[1..] == txs
  {
    [t] + txs
  }

  /** Ids strictly decrease from the front of the history (newest first) and are
      all below `bound`, the next id to be issued. */
  predicate NewestFirst(txs: seq<Transaction>, bound: nat)
  {
    txs == [] || (txs[0].id < bound && NewestFirst(txs[1..], txs[0].id))
  }

  /** What `NewestFirst` means entry by entry: every id is below the bound and
      every entry is strictly newer than all entries after it. */
  lemma {:induction false} NewestFirstOrdered(txs: seq<Transaction>, bound: nat)
    requires NewestFirst(txs, bound)
    ensures forall i :: 0 <= i < |txs| ==> txs[i].id < bound
    ensures forall i, j :: 0 <= i < j < |txs| ==> txs[j].id < txs[i].id
  {
    if txs != [] {
      var rest := txs[1..];
      NewestFirstOrdered(rest, txs[0].id);
      assert forall i :: 0 < i < |txs| ==> txs[i] == rest[i - 1];
    }
  }

  lemma UnshiftNewestFirst(txs: seq<Transaction>, bound: nat, t: Transaction)
    requires NewestFirst(txs, bound) && t.id == bound
    ensures NewestFirst(Unshift(txs, t), bound + 1)
  {
    assert Unshift(txs, t)[1..] == txs;
  }

  /** Sum of the amounts of the entries of kind `k`. */
  function SumOf(txs: seq<Transaction>, k: Kind): int
  {
    if txs == [] then 0
    else (if txs[0].kind == k then txs[0].amount else 0) + SumOf(txs[1..], k)
  }

  /** The balance the history accounts for: deposits and earnings in,
      withdrawals and purchases out. */
  function Net(txs: seq<Transaction>): int
  {
    SumOf(txs, Deposit) + SumOf(txs, Earning) - SumOf(txs, Withdrawal) - SumOf(txs, Purchase)
  }

  /** The signed effect of one entry on the balance. */
  function Signed(t: Transaction): int
  {
    match t.kind
    case Deposit | Earning => t.amount
    case Withdrawal | Purchase => -t.amount
  }

  lemma {:induction false} SumOfConcat(a: seq<Transaction>, b: seq<Transaction>, k: Kind)
    ensures SumOf(a + b, k) == SumOf(a, k) + SumOf(b, k)
  {
    if a != [] {
      assert (a + b)[1..] == a[1..] + b;
      SumOfConcat(a[1..], b, k);
    } else {
      assert a + b == b;
    }
  }

  lemma NetConcat(a: seq<Transaction>, b: seq<Transaction>)
    ensures Net(a + b) == Net(a) + Net(b)
  {
    SumOfConcat(a, b, Deposit);
    SumOfConcat(a, b, Earning);
    SumOfConcat(a, b, Withdrawal);
    SumOfConcat(a, b, Purchase);
  }

  /** Logging one entry moves the accounted balance by exactly that entry's signed amount. */
  lemma NetUnshift(txs: seq<Transaction>, t: Transaction)
    ensures Net(Unshift(txs, t)) == Signed(t) + Net(txs)
  {
    assert Unshift(txs, t)[1..] == txs;
  }

  // ---------------------------------------------------------------------------
  // Plans: withdrawal minimum and daily yield

  /** The largest `minWithdrawal` among non-empty `plans` (`Math.max` over the mapped list). */
  function MaxMinWithdrawal(plans: seq<Plan>): (m: int)
    requires plans != []
    ensures forall i :: 0 <= i < |plans| ==> plans[i].minWithdrawal <= m
    ensures exists i :: 0 <= i < |plans| && plans[i].minWithdrawal == m
  {
    if |plans| == 1 then plans[0].minWithdrawal
    else
      var rest := MaxMinWithdrawal(plans[1..]);
      if plans[0].minWithdrawal >= rest then plans[0].minWithdrawal else rest
  }

  /** The governing withdrawal minimum: the fallback while no plan is active,
      otherwise the most restrictive plan's minimum (with no floor at the fallback). */
  function MinWithdrawal(plans: seq<Plan>): (m: int)
    ensures plans == [] ==> m == FallbackMinWithdrawal
    ensures plans != [] ==> exists i :: 0 <= i < |plans| && plans[i].minWithdrawal == m
    ensures forall i :: 0 <= i < |plans| ==> plans[i].minWithdrawal <= m
  {
    if |plans| > 0 then MaxMinWithdrawal(plans) else FallbackMinWithdrawal
  }

  /** Buying another plan never lowers the governing minimum once some plan is active,
      and the new plan's own minimum always binds. */
  lemma MinWithdrawalAfterPurchase(plans: seq<Plan>, p: Plan)
    ensures MinWithdrawal(plans + [p]) >= p.minWithdrawal
    ensures plans != [] ==> MinWithdrawal(plans + [p]) >= MinWithdrawal(plans)
  {
    var q := plans + [p];
    assert q[|plans|] == p;
    if plans != [] {
      var i :| 0 <= i < |plans| && plans[i].minWithdrawal == MinWithdrawal(plans);
      assert q[i] == plans[i];
    }
  }

  /** Total daily yield of `plans`, accumulated front to back as the loop does. */
  function TotalDailyROI(plans: seq<Plan>): int
    decreases |plans|
  {
    if plans == [] then 0
    else TotalDailyROI(plans[..|plans| - 1]) + plans[|plans| - 1].dailyROI
  }

  lemma {:induction false} TotalDailyROIPositive(plans: seq<Plan>)
    requires PositiveYields(plans)
    ensures TotalDailyROI(plans) >= 0
    ensures plans != [] ==> TotalDailyROI(plans) > 0
    decreases |plans|
  {
    if plans != [] {
      var init := plans[..|plans| - 1];
      assert forall i :: 0 <= i < |init| ==> init[i] == plans[i];
      TotalDailyROIPositive(init);
    }
  }

  function EarningEntry(p: Plan, id: nat): Transaction {
    Transaction(id, Earning, p.dailyROI, EarningNote(p.machineName))
  }

  /** The entries one accrual prepends to the history: one Earning entry per plan,
      logged in plan order from id `firstId` on, so that the last plan's entry ends up first. */
  function EarningLog(plans: seq<Plan>, firstId: nat): (log: seq<Transaction>)
    ensures |log| == |plans|
    decreases |plans|
  {
    if plans == [] then []
    else [EarningEntry(plans[|plans| - 1], firstId + |plans| - 1)] + EarningLog(plans[..|plans| - 1], firstId)
  }

  /** Entry `k` of one accrual's log belongs to the plan `k` places from the end of the
      plan list: the plans are logged in order, so the last plan's entry ends up first. */
  lemma {:induction false} EarningLogAt(plans: seq<Plan>, firstId: nat, k: nat)
    requires k < |plans|
    ensures EarningLog(plans, firstId)[k] == EarningEntry(plans[|plans| - 1 - k], firstId + |plans| - 1 - k)
    decreases |plans|
  {
    if k > 0 {
      var init := plans[..|plans| - 1];
      EarningLogAt(init, firstId, k - 1);
      assert init[|init| - 1 - (k - 1)] == plans[|plans| - 1 - k];
    }
  }

  /** One more turn of the accrual loop: plan `i`'s entry goes on top of the history
      and its yield onto the running total. */
  lemma AccrualStep(plans: seq<Plan>, i: nat, firstId: nat, txs: seq<Transaction>)
    requires i < |plans|
    ensures EarningLog(plans[..i + 1], firstId) + txs
         == [EarningEntry(plans[i], firstId + i)] + (EarningLog(plans[..i], firstId) + txs)
    ensures TotalDailyROI(plans[..i + 1]) == TotalDailyROI(plans[..i]) + plans[i].dailyROI
  {
    var q := plans[..i + 1];
    assert q[..|q| - 1] == plans[..i] && q[|q| - 1] == plans[i];
  }

  /** The entries one accrual logs account for exactly the daily yield it credits. */
  lemma {:induction false} NetEarningLog(plans: seq<Plan>, firstId: nat)
    ensures Net(EarningLog(plans, firstId)) == TotalDailyROI(plans)
    decreases |plans|
  {
    if plans != [] {
      var init := plans[..|plans| - 1];
      var e := EarningEntry(plans[|plans| - 1], firstId + |plans| - 1);
      NetEarningLog(init, firstId);
      NetUnshift(EarningLog(init, firstId), e);
      assert EarningLog(plans, firstId) == Unshift(EarningLog(init, firstId), e);
    }
  }

  /** Prepending one accrual's entries to a history raises what it accounts for by
      exactly the total daily yield. */
  lemma EarningLogAccounted(plans: seq<Plan>, firstId: nat, txs: seq<Transaction>)
    ensures Net(EarningLog(plans, firstId) + txs) == TotalDailyROI(plans) + Net(txs)
  {
    NetEarningLog(plans, firstId);
    NetConcat(EarningLog(plans, firstId), txs);
  }

  /** Prepending the entries one accrual logs, stamped from `firstId` on, keeps the
      history newest first. */
  lemma {:induction false} EarningLogNewestFirst(plans: seq<Plan>, firstId: nat, txs: seq<Transaction>)
    requires NewestFirst(txs, firstId)
    ensures NewestFirst(EarningLog(plans, firstId) + txs, firstId + |plans|)
    decreases |plans|
  {
    if plans != [] {
      var init := plans[..|plans| - 1];
      var e := EarningEntry(plans[|plans| - 1], firstId + |plans| - 1);
      EarningLogNewestFirst(init, firstId, txs);
      UnshiftNewestFirst(EarningLog(init, firstId) + txs, firstId + |init|, e);
      assert EarningLog(plans, firstId) + txs == Unshift(EarningLog(init, firstId) + txs, e);
    } else {
      assert EarningLog(plans, firstId) + txs == txs;
    }
  }

  // ---------------------------------------------------------------------------
  // Validation

  /** A parsed amount the handlers accept at all: a number greater than zero. */
  predicate ValidAmount(a: Amount) {
    a.Num? && a.value > 0
  }

  /** The withdrawal checks in their fixed order; only the first failure is reported. */
  function WithdrawalCheck(a: Amount, minimum: int, balance: int): (r: Outcome)
    ensures r == Accepted <==> ValidAmount(a) && minimum <= a.value <= balance
    ensures r == Rejected(InvalidAmount) <==> !ValidAmount(a)
    ensures r == Rejected(BelowMinimum(minimum)) <==> ValidAmount(a) && a.value < minimum
    ensures r == Rejected(InsufficientFunds) <==> ValidAmount(a) && minimum <= a.value && balance < a.value
  {
    if !ValidAmount(a) then Rejected(InvalidAmount)
    else if a.value < minimum then Rejected(BelowMinimum(minimum))
    else if a.value > balance then Rejected(InsufficientFunds)
    else Accepted
  }

  /** The entries logged by an accrual attempt on `today` when the last one was on `last`. */
  function DueLog(plans: seq<Plan>, last: Day, today: Day, firstId: nat): (log: seq<Transaction>)
    ensures last == today ==> log == []
    ensures last != today ==> |log| == |plans| && Net(log) == TotalDailyROI(plans)
  {
    NetEarningLog(plans, firstId);
    if last == today then [] else EarningLog(plans, firstId)
  }

  /** The amount credited by an accrual attempt on `today` when the last one was on `last`. */
  function DueCredit(plans: seq<Plan>, last: Day, today: Day): (c: int)
    requires PositiveYields(plans)
    ensures c >= 0
    ensures c > 0 <==> last != today && plans != []
  {
    TotalDailyROIPositive(plans);
    if last == today then 0 else TotalDailyROI(plans)
  }
}
