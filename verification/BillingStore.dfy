/** The rows of one user as the billing code updates them, step by step. */
module BillingStore {
  import opened Prelude
  import opened Calendar
  import opened Billing

  class Ledger {
    var wallet: int
    var subs: seq<Sub>
    var keyUsed: int
    var txs: seq<Tx>

    ghost function State(): Account
      reads this
    {
      Account(wallet, subs, keyUsed, txs)
    }

    method Position(order: seq<nat>, end: Time) returns (p: nat)
      requires InRange(subs, order)
      ensures p <= |order| && (p < |order| ==> end < subs[order[p]].periodEnd)
      ensures forall j | 0 <= j < p :: subs[order[j]].periodEnd <= end
    {
      p := 0;
      while p < |order| && subs[order[p]].periodEnd <= end
        invariant p <= |order|
        invariant forall j | 0 <= j < p :: subs[order[j]].periodEnd <= end
      {
        p := p + 1;
      }
    }

    /** The query: filter the serving rows, order them by period end. */
    method ActiveSubscriptions(now: Time) returns (order: seq<nat>)
      ensures QueryOrder(subs, now, order)
    {
      order := [];
      for i := 0 to |subs|
        invariant QueryOrder(subs[..i], now, order)
      {
        assert subs[..i + 1][..i] == subs[..i];
        if Serving(subs[i], now) {
          var p := Position(order, subs[i].periodEnd);
          InsertRow(subs[..i + 1], now, order, p);
          order := order[..p] + [i] + order[p..];
        }
      }
      assert subs[..|subs|] == subs;
    }

    method AvailableCents(now: Time) returns (cents: int)
      ensures cents == Available(State(), now)
    {
      var order := ActiveSubscriptions(now);
      cents := 0;
      for k := 0 to |order|
        invariant cents == Before(subs, order, k)
      {
        cents := cents + subs[order[k]].remaining;
      }
      QuerySum(subs, now, order);
      cents := cents + Max(0, wallet);
    }

    method HasQuota(now: Time, keyCap: int) returns (v: QuotaVerdict)
      ensures v == QuotaGate(State(), now, keyCap)
    {
      if keyCap > 0 && keyUsed >= keyCap {
        return KeyCapReached;
      }
      var order := ActiveSubscriptions(now);
      if order != [] {
        assert Serving(subs[order[0]], now);
        return Allowed;
      }
      v := if wallet > 0 then Allowed else NothingToSpend;
    }

    /** The draining loop of charge_user, with its early exit. */
    method DrainRows(rows: seq<nat>, now: Time, cost: int) returns (remaining: int, taken: seq<Take>)
      requires QueryOrder(subs, now, rows) && cost > 0
      modifies this`subs
      ensures subs == Drained(old(subs), rows, cost, |rows|)
      ensures taken == Takes(old(subs), rows, cost, |rows|)
      ensures remaining == Rest(old(subs), rows, cost)
    {
      hide Drained, Takes, Before, Share;
      DrainNone(subs, rows, cost);
      remaining := cost;
      taken := [];
      var k := 0;
      while k < |rows| && remaining > 0
        invariant k <= |rows| && |subs| == |old(subs)|
        invariant remaining == Max(0, cost - Before(old(subs), rows, k))
        invariant subs == Drained(old(subs), rows, cost, k)
        invariant taken == Takes(old(subs), rows, cost, k)
      {
        DrainNext(old(subs), rows, now, cost, k);
        var take := Min(subs[rows[k]].remaining, remaining);
        subs := subs[rows[k] := subs[rows[k]].(remaining := subs[rows[k]].remaining - take)];
        remaining := remaining - take;
        taken := taken + [Take(Quota(rows[k]), take)];
        k := k + 1;
      }
      DrainStops(old(subs), rows, now, cost, k);
    }

    method ChargeUser(now: Time, cost: int, hasKey: bool) returns (taken: seq<Take>, ghost order: seq<nat>)
      modifies this
      ensures QueryOrder(old(subs), now, order)
      ensures State() == Charge(old(State()), order, cost, hasKey)
      ensures taken == Breakdown(old(subs), order, cost)
    {
      var rows := ActiveSubscriptions(now);
      order := rows;
      if cost <= 0 {
        return [], order;
      }
      var remaining;
      remaining, taken := DrainRows(rows, now, cost);
      if remaining > 0 {
        wallet := wallet - remaining;
        taken := taken + [Take(Wallet, remaining)];
      }
      if hasKey {
        keyUsed := keyUsed + cost;
      }
      txs := txs + [Tx(Consume, -cost, wallet)];
    }

    /** The loop of refund_to_sources that decides where each subscription share goes. */
    method SplitShares(now: Time, taken: seq<Take>, amount: int) returns (credits: seq<Take>, rerouted: int)
      ensures var s := SplitRefund(subs, now, taken, amount); credits == s.credits && rerouted == s.rerouted
    {
      credits, rerouted := [], 0;
      var left := amount;
      for k := 0 to |taken|
        invariant SplitRefund(subs, now, taken[..k], amount) == Split(credits, rerouted, left)
      {
        assert taken[..k + 1][..k] == taken[..k];
        var t := taken[k];
        if t.source.Quota? && left > 0 {
          var give := Min(t.amount, left);
          if t.source.id < |subs| && Serving(subs[t.source.id], now) {
            credits := credits + [Take(t.source, give)];
          } else {
            rerouted := rerouted + give;
          }
          left := left - give;
        }
      }
      assert taken[..|taken|] == taken;
    }

    method CreditRows(credits: seq<Take>) returns (sum: int)
      requires CreditsInRange(subs, credits)
      modifies this`subs
      ensures subs == Credit(old(subs), credits) && sum == Amounts(credits)
    {
      sum := 0;
      for k := 0 to |credits|
        invariant |subs| == |old(subs)|
        invariant CreditsInRange(old(subs), credits[..k]) && subs == Credit(old(subs), credits[..k])
        invariant sum == Amounts(credits[..k])
      {
        assert credits[..k + 1][..k] == credits[..k];
        var i := credits[k].source.id;
        subs := subs[i := subs[i].(remaining := subs[i].remaining + credits[k].amount)];
        sum := sum + credits[k].amount;
      }
      assert credits[..|credits|] == credits;
    }

    method WalletShare(taken: seq<Take>) returns (sum: int)
      ensures sum == AmountFrom(taken, Wallet)
    {
      sum := 0;
      for k := 0 to |taken|
        invariant sum == AmountFrom(taken[..k], Wallet)
      {
        assert taken[..k + 1][..k] == taken[..k];
        sum := sum + if taken[k].source.Wallet? then taken[k].amount else 0;
      }
      assert taken[..|taken|] == taken;
    }

    /** Where a refund goes: the wallet's share first, then the subscription shares. */
    method PlanSources(now: Time, taken: seq<Take>, amount: int) returns (plan: RefundPlan)
      ensures plan == PlanRefund(subs, now, taken, amount)
    {
      hide AmountFrom, SplitRefund;
      var fromWallet := WalletShare(taken);
      var direct := Min(fromWallet, amount);
      var credits, rerouted := SplitShares(now, taken, amount - direct);
      plan := RefundPlan(direct + rerouted, credits);
    }

    method RefundToSources(now: Time, taken: seq<Take>, amount: int, hasKey: bool) returns (refunded: int)
      modifies this
      ensures State() == RefundTo(old(State()), now, taken, amount, hasKey)
      ensures refunded == RefundTotal(old(State()), now, taken, amount)
    {
      hide PlanRefund, Amounts, Credit;
      if amount <= 0 || taken == [] {
        return 0;
      }
      var plan := PlanSources(now, taken, amount);
      if plan.toWallet > 0 {
        wallet := wallet + plan.toWallet;
      }
      var credited := CreditRows(plan.credits);
      refunded := plan.toWallet + credited;
      if hasKey && refunded > 0 {
        keyUsed := keyUsed - refunded;
      }
      txs := txs + [Tx(Refund, refunded, wallet)];
    }

    method TopupWallet(amount: int)
      modifies this
      ensures State() == TopUp(old(State()), amount)
    {
      wallet := wallet + amount;
      txs := txs + [Tx(Topup, amount, wallet)];
    }

    method GrantSubscription(plan: Plan, now: Time)
      modifies this
      ensures State() == GrantPlan(old(State()), plan, now)
    {
      var end := InitialPeriodEnd(plan, now);
      subs := subs + [Sub(plan.id, now, end, Active, plan.quota, false)];
      txs := txs + [Tx(Grant, plan.quota, wallet)];
    }

    method SubscribeWithBalance(plan: Plan, now: Time) returns (outcome: SubscribeOutcome)
      modifies this
      ensures outcome == SubscribeCheck(old(State()), plan, now)
      ensures State() == Subscribe(old(State()), plan, now)
    {
      hide GrantPlan;
      var bought := 0;
      for i := 0 to |subs|
        invariant forall j | 0 <= j < i :: !Running(subs[j], plan.id, now)
        invariant bought == Purchases(subs[..i], plan.id)
      {
        if Running(subs[i], plan.id, now) {
          return AlreadySubscribed;
        }
        assert subs[..i + 1][..i] == subs[..i];
        bought := bought + if subs[i].planId == plan.id then 1 else 0;
      }
      assert subs[..|subs|] == subs;
      if plan.oneTime && plan.maxPurchases.Some? && bought >= plan.maxPurchases.value {
        return LimitReached;
      }
      if plan.price > 0 && wallet < plan.price {
        return Short;
      }
      if plan.price > 0 {
        wallet := wallet - plan.price;
        txs := txs + [Tx(Consume, 0 - plan.price, wallet)];
      }
      GrantSubscription(plan, now);
      outcome := Subscribed;
    }

    method RenewSubscription(i: nat, plan: Option<Plan>, userActive: bool) returns (outcome: RenewOutcome)
      requires i < |subs|
      modifies this
      ensures outcome == RenewCheck(old(State()), i, plan, userActive)
      ensures State() == Renew(old(State()), i, plan, userActive)
    {
      hide NextPeriodEnd;
      var s := subs[i];
      if plan.None? {
        subs := subs[i := s.(status := Expired)];
        return PlanDeleted;
      }
      if s.cancelAtPeriodEnd {
        subs := subs[i := s.(status := Expired, remaining := 0)];
        return CanceledAtPeriodEnd;
      }
      if plan.value.oneTime {
        subs := subs[i := s.(status := Expired, remaining := 0)];
        return OneTimeExpired;
      }
      if !userActive {
        subs := subs[i := s.(status := Expired)];
        return UserInactive;
      }
      var price := plan.value.price;
      if price > wallet {
        subs := subs[i := s.(status := PastDue, remaining := 0)];
        return InsufficientBalance;
      }
      if price > 0 {
        wallet := wallet - price;
        txs := txs + [Tx(Consume, 0 - price, wallet)];
      }
      s := s.(periodStart := s.periodEnd);
      s := s.(periodEnd := NextPeriodEnd(s.periodStart));
      s := s.(remaining := plan.value.quota, status := Active);
      subs := subs[i := s];
      outcome := Renewed;
    }

    /** Answers whether the row was open; a closed row is refused with 409 and left alone. */
    method CancelSubscription(i: nat, mode: CancelMode, plan: Option<Plan>, now: Time) returns (ok: bool)
      requires i < |subs|
      modifies this
      ensures ok == Open(old(subs)[i])
      ensures State() == Cancel(old(State()), i, mode, plan, now)
    {
      var s := subs[i];
      if !(s.status.Active? || s.status.PastDue?) {
        return false;
      }
      if mode.AtPeriodEnd? {
        if !s.cancelAtPeriodEnd {
          subs := subs[i := s.(cancelAtPeriodEnd := true)];
        } else {
          assert s == s.(cancelAtPeriodEnd := true) && subs == subs[i := s];
        }
        return true;
      }
      var refund := 0;
      if plan.Some? && plan.value.price > 0 && plan.value.quota > 0 {
        refund := plan.value.price * s.remaining / plan.value.quota;
        refund := Max(0, Min(refund, plan.value.price));
      }
      subs := subs[i := s.(status := Canceled, cancelAtPeriodEnd := true, remaining := 0, periodEnd := now)];
      if refund > 0 {
        wallet := wallet + refund;
        txs := txs + [Tx(Refund, refund, wallet)];
      }
      ok := true;
    }

    method ResumeSubscription(i: nat) returns (ok: bool)
      requires i < |subs|
      modifies this
      ensures ok == Open(old(subs)[i])
      ensures State() == Resume(old(State()), i)
    {
      var s := subs[i];
      ok := s.status.Active? || s.status.PastDue?;
      if ok && s.cancelAtPeriodEnd {
        subs := subs[i := s.(cancelAtPeriodEnd := false)];
      } else if ok {
        assert s == s.(cancelAtPeriodEnd := false) && subs == subs[i := s];
      }
    }

    method RenewOnDemand(i: nat, plan: Option<Plan>, userActive: bool, now: Time)
      requires i < |subs|
      modifies this
      ensures State() == RenewNow(old(State()), i, plan, userActive, now)
    {
      if subs[i].status.Active? && subs[i].periodEnd > now {
        return;
      }
      if subs[i].status.Canceled? || subs[i].status.Expired? {
        return;
      }
      var _ := RenewSubscription(i, plan, userActive);
    }
  }

  ghost function Inserted(order: seq<nat>, p: nat, i: nat): seq<nat>
    requires p <= |order|
  {
    order[..p] + [i] + order[p..]
  }

  lemma {:induction false} InsertServing(subs: seq<Sub>, now: Time, order: seq<nat>, p: nat)
    requires subs != [] && Serving(subs[|subs| - 1], now) && p <= |order|
    requires AllServing(subs[..|subs| - 1], now, order)
    ensures AllServing(subs, now, Inserted(order, p, |subs| - 1))
  {
  }

  lemma {:induction false} InsertComplete(subs: seq<Sub>, now: Time, order: seq<nat>, p: nat)
    requires subs != [] && p <= |order|
    requires Complete(subs[..|subs| - 1], now, order)
    ensures Complete(subs, now, Inserted(order, p, |subs| - 1))
  {
    var more := Inserted(order, p, |subs| - 1);
    forall i | 0 <= i < |subs| && Serving(subs[i], now) ensures i in more {
      if i == |subs| - 1 {
        assert more[p] == i;
      } else {
        assert Serving(subs[..|subs| - 1][i], now);
        var k :| 0 <= k < |order| && order[k] == i;
        assert more[if k < p then k else k + 1] == i;
      }
    }
  }

  lemma {:induction false} InsertOrdered(subs: seq<Sub>, order: seq<nat>, p: nat)
    requires subs != [] && p <= |order| && InRange(subs[..|subs| - 1], order)
    requires EndOrdered(subs[..|subs| - 1], order)
    requires forall j | 0 <= j < p :: subs[order[j]].periodEnd <= subs[|subs| - 1].periodEnd
    requires forall j | p <= j < |order| :: subs[|subs| - 1].periodEnd <= subs[order[j]].periodEnd
    ensures InRange(subs, Inserted(order, p, |subs| - 1))
    ensures EndOrdered(subs, Inserted(order, p, |subs| - 1))
  {
    var more := Inserted(order, p, |subs| - 1);
    forall j, k | 0 <= j < k < |more|
      ensures more[j] != more[k] && subs[more[j]].periodEnd <= subs[more[k]].periodEnd
    {
      var j', k' := if j < p then j else j - 1, if k < p then k else k - 1;
      if j != p && k != p { assert more[j] == order[j'] && more[k] == order[k']; }
    }
  }

  lemma {:induction false} InsertRow(subs: seq<Sub>, now: Time, order: seq<nat>, p: nat)
    requires subs != [] && Serving(subs[|subs| - 1], now) && p <= |order|
    requires QueryOrder(subs[..|subs| - 1], now, order)
    requires forall j | 0 <= j < p :: subs[order[j]].periodEnd <= subs[|subs| - 1].periodEnd
    requires p < |order| ==> subs[|subs| - 1].periodEnd < subs[order[p]].periodEnd
    ensures QueryOrder(subs, now, Inserted(order, p, |subs| - 1))
  {
    InsertServing(subs, now, order, p);
    InsertComplete(subs, now, order, p);
    InsertOrdered(subs, order, p);
  }

  // ---- why the early exit of the draining loop is sound -----------------------------------------

  lemma {:induction false} DrainedElsewhereAt(subs: seq<Sub>, order: seq<nat>, now: Time, cost: int, k: nat)
    requires QueryOrder(subs, now, order) && k < |order|
    ensures Drained(subs, order, cost, k)[order[k]] == subs[order[k]]
  {
    assert order[k] !in order[..k];
    DrainedElsewhere(subs, order, cost, order[k], k);
  }

  lemma {:induction false} DrainNone(subs: seq<Sub>, order: seq<nat>, cost: int)
    requires InRange(subs, order)
    ensures Before(subs, order, 0) == 0 && Drained(subs, order, cost, 0) == subs && Takes(subs, order, cost, 0) == []
  {
  }

  /** One round of the loop is one share of the closed form. */
  lemma {:induction false} DrainNext(subs: seq<Sub>, order: seq<nat>, now: Time, cost: int, k: nat)
    requires QueryOrder(subs, now, order) && k < |order| && cost > Before(subs, order, k)
    ensures var d, i, left := Drained(subs, order, cost, k), order[k], cost - Before(subs, order, k);
            var take := Min(d[i].remaining, left);
            && i < |d| && take > 0
            && Drained(subs, order, cost, k + 1) == d[i := d[i].(remaining := d[i].remaining - take)]
            && Takes(subs, order, cost, k + 1) == Takes(subs, order, cost, k) + [Take(Quota(i), take)]
            && Max(0, cost - Before(subs, order, k + 1)) == left - take
  {
    hide Drained;
    DrainedElsewhereAt(subs, order, now, cost, k);
    DrainedOnce(subs, order, cost, k);
    var share := Share(subs, order, cost, k);
    assert share == Min(subs[order[k]].remaining, cost - Before(subs, order, k)) > 0;
    assert Before(subs, order, k + 1) == Before(subs, order, k) + subs[order[k]].remaining;
    assert Takes(subs, order, cost, k + 1) == Takes(subs, order, cost, k) + [Take(Quota(order[k]), share)];
    hide Share, Before, Takes, QueryOrder;
  }

  /** A row reached after the cost is met gives nothing. */
  lemma {:induction false} DrainSkips(subs: seq<Sub>, order: seq<nat>, now: Time, cost: int, k: nat)
    requires QueryOrder(subs, now, order) && k < |order| && cost <= Before(subs, order, k)
    ensures Drained(subs, order, cost, k + 1) == Drained(subs, order, cost, k)
    ensures Takes(subs, order, cost, k + 1) == Takes(subs, order, cost, k)
    ensures cost <= Before(subs, order, k) <= Before(subs, order, k + 1)
  {
    hide Drained;
    var d := Drained(subs, order, cost, k);
    assert Share(subs, order, cost, k) == 0;
    DrainedOnce(subs, order, cost, k);
    assert Move(d, order[k], 0) == d;
  }

  lemma {:induction false} DrainedOnce(subs: seq<Sub>, order: seq<nat>, cost: int, k: nat)
    requires InRange(subs, order) && k < |order|
    ensures Drained(subs, order, cost, k + 1)
            == Move(Drained(subs, order, cost, k), order[k], -Share(subs, order, cost, k))
  {
    hide Share, Before;
  }

  /** Once the cost is met, the rows not reached give nothing. */
  lemma {:induction false} DrainStops(subs: seq<Sub>, order: seq<nat>, now: Time, cost: int, k: nat)
    requires QueryOrder(subs, now, order) && k <= |order|
    requires k < |order| ==> cost <= Before(subs, order, k)
    ensures Drained(subs, order, cost, |order|) == Drained(subs, order, cost, k)
    ensures Takes(subs, order, cost, |order|) == Takes(subs, order, cost, k)
    ensures Max(0, cost - Before(subs, order, |order|)) == Max(0, cost - Before(subs, order, k))
    decreases |order| - k
  {
    if k < |order| {
      DrainSkips(subs, order, now, cost, k);
      hide Drained, Takes, Before;
      DrainStops(subs, order, now, cost, k + 1);
    }
  }
}
