/**
  What each wallet and subscription write does, on the fields of the rows: which rows a charge
  reaches and in which order, who may subscribe, when a renewal advances, what a cancel pays back.
*/
module Writes {
  import opened Prelude
  import opened Calendar
  import opened Billing

  // ---- charges ----------------------------------------------------------------------------------

  /** Row i can pay at `now`. */
  predicate CanPay(a: Account, i: nat, now: Time) {
    i < |a.subs| && a.subs[i].status == Active && a.subs[i].periodEnd > now && a.subs[i].remaining > 0
  }

  lemma {:induction false} PaidShare(a: Account, now: Time, order: seq<nat>, cost: int, hasKey: bool, i: nat)
    returns (k: nat)
    requires QueryOrder(a.subs, now, order) && cost > 0 && CanPay(a, i, now)
    ensures k < |order| && order[k] == i && |Charge(a, order, cost, hasKey).subs| == |a.subs|
    ensures Charge(a, order, cost, hasKey).subs[i].remaining
            == a.subs[i].remaining - Min(a.subs[i].remaining, Max(0, cost - Before(a.subs, order, k)))
  {
    assert i in order;
    k :| 0 <= k < |order| && order[k] == i;
    DrainedAt(a.subs, order, now, cost, k, |order|);
  }

  lemma {:induction false} BeforeGrows(subs: seq<Sub>, now: Time, order: seq<nat>, j: nat, k: nat)
    requires QueryOrder(subs, now, order) && j < k <= |order|
    ensures Before(subs, order, k) >= Before(subs, order, j) + subs[order[j]].remaining
  {
    if j + 1 < k { BeforeGrows(subs, now, order, j, k - 1); }
  }

  /** A row that can pay gives only when every row that can pay and ends sooner is empty. */
  lemma {:induction false} SoonestEndFirst(
      a: Account, now: Time, order: seq<nat>, cost: int, hasKey: bool, i: nat, j: nat)
    requires QueryOrder(a.subs, now, order) && CanPay(a, i, now) && CanPay(a, j, now)
    requires a.subs[j].periodEnd < a.subs[i].periodEnd
    ensures var c := Charge(a, order, cost, hasKey);
            |c.subs| == |a.subs| && (c.subs[i].remaining < a.subs[i].remaining ==> c.subs[j].remaining == 0)
  {
    if cost > 0 {
      var p := PaidShare(a, now, order, cost, hasKey, i);
      var q := PaidShare(a, now, order, cost, hasKey, j);
      hide Charge, Before;
      if q < p { BeforeGrows(a.subs, now, order, q, p); }
    }
  }

  /** The wallet gives only when every row that can pay is empty, and rows that cannot are left. */
  lemma {:induction false} WalletLast(a: Account, now: Time, order: seq<nat>, cost: int, hasKey: bool, i: nat)
    requires QueryOrder(a.subs, now, order) && i < |a.subs|
    ensures var c := Charge(a, order, cost, hasKey);
            && |c.subs| == |a.subs|
            && (c.wallet != a.wallet && CanPay(a, i, now) ==> c.subs[i].remaining == 0)
            && (!CanPay(a, i, now) ==> c.subs[i] == a.subs[i])
  {
    ChargeRow(a, now, order, cost, hasKey, i);
    if cost > 0 && CanPay(a, i, now) {
      var p := PaidShare(a, now, order, cost, hasKey, i);
      BeforeGrows(a.subs, now, order, p, |order|);
    }
  }

  // ---- refunds ----------------------------------------------------------------------------------

  /** Of a refund the wallet first gets back what the charge took from it. */
  lemma {:induction false} WalletFirst(a: Account, now: Time, ts: seq<Take>, amount: int, hasKey: bool)
    requires NonNegative(ts) && amount > 0 && ts != []
    ensures RefundTo(a, now, ts, amount, hasKey).wallet - a.wallet >= Min(AmountFrom(ts, Wallet), amount)
  {
    SplitTotals(a.subs, now, ts, amount - Min(AmountFrom(ts, Wallet), amount));
  }

  // ---- subscribing ------------------------------------------------------------------------------

  ghost function RowsOf(subs: seq<Sub>, planId: nat): set<int> {
    set i | 0 <= i < |subs| && subs[i].planId == planId
  }

  /** Purchases are all rows of the plan, whatever became of them. */
  lemma {:induction false} PurchasesAreRows(subs: seq<Sub>, planId: nat)
    ensures Purchases(subs, planId) == |RowsOf(subs, planId)|
  {
    if subs != [] {
      var n := |subs| - 1;
      PurchasesAreRows(subs[..n], planId);
      if subs[n].planId == planId {
        assert RowsOf(subs, planId) == RowsOf(subs[..n], planId) + {n};
      } else {
        assert RowsOf(subs, planId) == RowsOf(subs[..n], planId);
      }
    }
  }

  /** The user holds the plan at `now`. */
  ghost predicate HasPlan(a: Account, planId: nat, now: Time) {
    exists i :: 0 <= i < |a.subs| && a.subs[i].planId == planId
                && a.subs[i].status == Active && a.subs[i].periodEnd > now
  }

  ghost predicate CapUsedUp(a: Account, plan: Plan) {
    plan.oneTime && plan.maxPurchases.Some? && |RowsOf(a.subs, plan.id)| >= plan.maxPurchases.value
  }

  /** Who may subscribe, and why not. */
  lemma {:induction false} SubscribeVerdict(a: Account, plan: Plan, now: Time)
    ensures SubscribeCheck(a, plan, now)
            == if HasPlan(a, plan.id, now) then AlreadySubscribed
               else if CapUsedUp(a, plan) then LimitReached
               else if a.wallet < plan.price && plan.price > 0 then Short
               else Subscribed
  {
    PurchasesAreRows(a.subs, plan.id);
    if HasPlan(a, plan.id, now) {
      var i :| 0 <= i < |a.subs| && a.subs[i].planId == plan.id
               && a.subs[i].status == Active && a.subs[i].periodEnd > now;
      assert Running(a.subs[i], plan.id, now);
    }
  }

  /** The row a grant adds: full, active, from now to the end of its first period. */
  lemma {:induction false} GrantedRow(a: Account, plan: Plan, now: Time)
    ensures var b := GrantPlan(a, plan, now);
            && |b.subs| == |a.subs| + 1 && b.subs[..|a.subs|] == a.subs
            && b.wallet == a.wallet && b.keyUsed == a.keyUsed
            && var s := b.subs[|a.subs|];
               && s.planId == plan.id && s.status == Active && s.remaining == plan.quota && !s.cancelAtPeriodEnd
               && s.periodStart == now < s.periodEnd
               && (plan.oneTime && plan.durationDays > 0 ==> s.periodEnd == now + plan.durationDays * DAY)
               && (!plan.oneTime ==> s.periodEnd == FirstOf(Succ(MonthOf(now))))
  {
    InitialPeriod(plan, now);
    hide InitialPeriodEnd;
  }

  // ---- renewing ---------------------------------------------------------------------------------

  /** What lets a renewal advance the row: a recurring plan that still exists, no end scheduled, an
      active user, and a wallet that covers the price. */
  predicate MayAdvance(a: Account, s: Sub, plan: Option<Plan>, userActive: bool) {
    plan.Some? && !s.cancelAtPeriodEnd && !plan.value.oneTime && userActive && plan.value.price <= a.wallet
  }

  /** What a renewal leaves: only the one row and, if it advances, the wallet change. */
  lemma {:induction false} RenewalOutcome(a: Account, i: nat, plan: Option<Plan>, userActive: bool)
    requires i < |a.subs| && a.subs[i].periodStart < a.subs[i].periodEnd
    ensures var s, b := a.subs[i], Renew(a, i, plan, userActive);
            var closing := plan.Some? && (s.cancelAtPeriodEnd || plan.value.oneTime);
            && (forall j | 0 <= j < |a.subs| && j != i :: b.subs[j] == a.subs[j])
            && (b.subs[i].periodStart != s.periodStart <==> MayAdvance(a, s, plan, userActive))
            && (b.subs[i].status == PastDue && b.subs[i].remaining == 0 && b.subs[i].periodEnd == s.periodEnd
                <== plan.Some? && !closing && userActive && plan.value.price > a.wallet)
            && (b.subs[i] == s.(status := Expired, remaining := if closing then 0 else s.remaining)
                <== plan.None? || closing || !userActive)
            && b.wallet == a.wallet - (if MayAdvance(a, s, plan, userActive) then plan.value.price else 0)
  {
    hide NextPeriodEnd;
  }

  /** A renewal on demand does nothing while the period runs or after the row is closed. */
  lemma {:induction false} RenewOnDemandIff(a: Account, i: nat, plan: Option<Plan>, userActive: bool, now: Time)
    requires i < |a.subs| && a.subs[i].periodStart < a.subs[i].periodEnd
    ensures var s, b := a.subs[i], RenewNow(a, i, plan, userActive, now);
            && ((s.status == Active && s.periodEnd > now) || s.status == Canceled || s.status == Expired ==> b == a)
            && ((s.status == Active && s.periodEnd <= now) || s.status == PastDue ==>
                  (b.subs[i].periodStart != s.periodStart <==> MayAdvance(a, s, plan, userActive)))
  {
    RenewalOutcome(a, i, plan, userActive);
    hide Renew, RenewCheck;
  }

  // ---- canceling and resuming -------------------------------------------------------------------

  /** An immediate cancel of an open row pays back the unused share of the price, rounded down, in
      one refund transaction, closes and empties the row at `now`, and touches nothing else. */
  lemma {:induction false} CancelPaysBack(a: Account, i: nat, plan: Plan, now: Time)
    requires i < |a.subs| && (a.subs[i].status == Active || a.subs[i].status == PastDue)
    requires plan.quota > 0 && 0 <= a.subs[i].remaining <= plan.quota
    ensures var s, b := a.subs[i], Cancel(a, i, Immediately, Some(plan), now);
            var back := b.wallet - a.wallet;
            && back * plan.quota <= plan.price * s.remaining < (back + 1) * plan.quota
            && b.txs == (if back > 0 then a.txs + [Tx(Refund, back, b.wallet)] else a.txs)
            && b.keyUsed == a.keyUsed && |b.subs| == |a.subs|
            && (forall j | 0 <= j < |a.subs| && j != i :: b.subs[j] == a.subs[j])
            && b.subs[i].status == Canceled && b.subs[i].remaining == 0 && b.subs[i].periodEnd == now
            && b.subs[i].periodStart == s.periodStart && b.subs[i].planId == s.planId
  {
    CancelKeepsUsedShare(plan, a.subs[i].remaining);
    FloorBounds(plan.price * a.subs[i].remaining, plan.quota);
    if plan.price == 0 { assert plan.price * a.subs[i].remaining == 0; }
    hide ProratedRefund;
    CancelWallet(a, i, plan, now);
  }

  lemma {:induction false} CancelWallet(a: Account, i: nat, plan: Plan, now: Time)
    requires i < |a.subs| && Open(a.subs[i])
    ensures Cancel(a, i, Immediately, Some(plan), now).wallet
            == a.wallet + ProratedRefund(Some(plan), a.subs[i].remaining)
  {
    hide ProratedRefund;
  }

  /** Without a plan, a price or a quota to prorate by, a cancel pays nothing; a cancel at the period
      end only schedules; and a closed row is left alone. */
  lemma {:induction false} CancelOtherwise(a: Account, i: nat, mode: CancelMode, plan: Option<Plan>, now: Time)
    requires i < |a.subs|
    ensures var s, b := a.subs[i], Cancel(a, i, mode, plan, now);
            && (s.status == Canceled || s.status == Expired ==> b == a)
            && ((s.status == Active || s.status == PastDue) && mode == AtPeriodEnd ==>
                  b == a.(subs := a.subs[i := s.(cancelAtPeriodEnd := true)]))
            && (plan.None? || plan.value.price == 0 || plan.value.quota == 0 ==>
                  b.wallet == a.wallet && b.txs == a.txs)
  {
  }

  /** A resume unschedules the end of an open row, and does nothing else. */
  lemma {:induction false} ResumeUnschedules(a: Account, i: nat)
    requires i < |a.subs|
    ensures var s, b := a.subs[i], Resume(a, i);
            && b.(subs := a.subs) == a && |b.subs| == |a.subs|
            && (forall j | 0 <= j < |a.subs| && j != i :: b.subs[j] == a.subs[j])
            && (s.status == Canceled || s.status == Expired ==> b.subs[i] == s)
            && (s.status == Active || s.status == PastDue ==> b.subs[i] == s.(cancelAtPeriodEnd := false))
  {
  }
}
