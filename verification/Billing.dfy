/**
  The money of one user: a wallet, the subscription rows, the usage counter of the calling
  api key, and the append-only list of balance transactions.

  A subscription's id is its position in `subs`: rows are only ever appended.
  Values here are the specification; class `BillingStore.Ledger` holds the loops.
*/
module Billing {
  import opened Prelude
  import opened Calendar

  datatype Status = Active | PastDue | Canceled | Expired

  datatype Plan = Plan(
    id: nat,
    price: nat,
    quota: nat,
    oneTime: bool,
    durationDays: int,
    maxPurchases: Option<int>)

  datatype Sub = Sub(
    planId: nat,
    periodStart: Time,
    periodEnd: Time,
    status: Status,
    remaining: int,
    cancelAtPeriodEnd: bool)

  datatype Source = Wallet | Quota(id: nat)
  datatype Take = Take(source: Source, amount: int)

  datatype TxKind = Topup | Grant | Consume | Refund
  datatype Tx = Tx(kind: TxKind, amount: int, balanceAfter: int)

  datatype Account = Account(wallet: int, subs: seq<Sub>, keyUsed: int, txs: seq<Tx>)

  // ---- the query behind active_subscriptions ----------------------------------------------------

  predicate Serving(s: Sub, now: Time) {
    s.status.Active? && s.periodEnd > now && s.remaining > 0
  }

  ghost predicate AllServing(subs: seq<Sub>, now: Time, order: seq<nat>) {
    forall k | 0 <= k < |order| :: order[k] < |subs| && Serving(subs[order[k]], now)
  }

  ghost predicate Complete(subs: seq<Sub>, now: Time, order: seq<nat>) {
    forall i | 0 <= i < |subs| && Serving(subs[i], now) :: i in order
  }

  ghost predicate EndOrdered(subs: seq<Sub>, order: seq<nat>)
    requires InRange(subs, order)
  {
    forall j, k | 0 <= j < k < |order| ::
      order[j] != order[k] && subs[order[j]].periodEnd <= subs[order[k]].periodEnd
  }

  /** `order` is one answer the query may give: every serving row once, soonest end first.
      Rows that end together may come in any order. */
  ghost predicate QueryOrder(subs: seq<Sub>, now: Time, order: seq<nat>) {
    AllServing(subs, now, order) && Complete(subs, now, order) && EndOrdered(subs, order)
  }

  // ---- totals -----------------------------------------------------------------------------------

  function QuotaSum(subs: seq<Sub>): int {
    if subs == [] then 0 else QuotaSum(subs[..|subs| - 1]) + subs[|subs| - 1].remaining
  }

  /** Everything the user owns: wallet plus the quota left in every subscription. */
  function Worth(a: Account): int {
    a.wallet + QuotaSum(a.subs)
  }

  function Amounts(ts: seq<Take>): int {
    if ts == [] then 0 else Amounts(ts[..|ts| - 1]) + ts[|ts| - 1].amount
  }

  /** What `ts` takes from one source. */
  function AmountFrom(ts: seq<Take>, s: Source): int {
    if ts == [] then 0
    else AmountFrom(ts[..|ts| - 1], s) + (if ts[|ts| - 1].source == s then ts[|ts| - 1].amount else 0)
  }

  ghost predicate NonNegative(ts: seq<Take>) {
    forall k | 0 <= k < |ts| :: ts[k].amount >= 0
  }

  function BalanceOf(a: Account, s: Source): int {
    match s
    case Wallet => a.wallet
    case Quota(i) => if i < |a.subs| then a.subs[i].remaining else 0
  }

  function Move(subs: seq<Sub>, i: nat, delta: int): (r: seq<Sub>)
    requires i < |subs|
  {
    subs[i := subs[i].(remaining := subs[i].remaining + delta)]
  }

  lemma {:induction false} MoveSum(subs: seq<Sub>, i: nat, delta: int)
    requires i < |subs|
    ensures QuotaSum(Move(subs, i, delta)) == QuotaSum(subs) + delta
  {
    var n := |subs| - 1;
    var moved := Move(subs, i, delta);
    if i == n {
      assert moved[..n] == subs[..n];
    } else {
      assert moved[..n] == Move(subs[..n], i, delta);
      MoveSum(subs[..n], i, delta);
    }
  }

  // ---- charge_user ------------------------------------------------------------------------------

  predicate InRange(subs: seq<Sub>, order: seq<nat>) {
    forall k | 0 <= k < |order| :: order[k] < |subs|
  }

  /** Quota of the first `k` rows of `order`. */
  function Before(subs: seq<Sub>, order: seq<nat>, k: nat): int
    requires InRange(subs, order) && k <= |order|
  {
    if k == 0 then 0 else Before(subs, order, k - 1) + subs[order[k - 1]].remaining
  }

  /** The closed form: the k-th row gives what is left of the cost, up to all it has. */
  function Share(subs: seq<Sub>, order: seq<nat>, cost: int, k: nat): int
    requires InRange(subs, order) && k < |order|
  {
    Min(subs[order[k]].remaining, Max(0, cost - Before(subs, order, k)))
  }

  function Drained(subs: seq<Sub>, order: seq<nat>, cost: int, k: nat): (r: seq<Sub>)
    requires InRange(subs, order) && k <= |order|
    ensures |r| == |subs|
  {
    if k == 0 then subs
    else Move(Drained(subs, order, cost, k - 1), order[k - 1], -Share(subs, order, cost, k - 1))
  }

  function Takes(subs: seq<Sub>, order: seq<nat>, cost: int, k: nat): seq<Take>
    requires InRange(subs, order) && k <= |order|
  {
    if k == 0 then []
    else
      var share := Share(subs, order, cost, k - 1);
      Takes(subs, order, cost, k - 1) + if share > 0 then [Take(Quota(order[k - 1]), share)] else []
  }

  function Rest(subs: seq<Sub>, order: seq<nat>, cost: int): int
    requires InRange(subs, order)
  {
    Max(0, cost - Before(subs, order, |order|))
  }

  /** The breakdown charge_user returns. */
  function Breakdown(subs: seq<Sub>, order: seq<nat>, cost: int): seq<Take>
    requires InRange(subs, order)
  {
    if cost <= 0 then []
    else
      var rest := Rest(subs, order, cost);
      Takes(subs, order, cost, |order|) + if rest > 0 then [Take(Wallet, rest)] else []
  }

  function Charge(a: Account, order: seq<nat>, cost: int, hasKey: bool): Account
    requires InRange(a.subs, order)
  {
    if cost <= 0 then a
    else
      var wallet := a.wallet - Rest(a.subs, order, cost);
      Account(wallet,
              Drained(a.subs, order, cost, |order|),
              if hasKey then a.keyUsed + cost else a.keyUsed,
              a.txs + [Tx(Consume, -cost, wallet)])
  }

  /** A charge row by row: each queried row gives its share, every other row is untouched. */
  lemma {:induction false} DrainedAt(subs: seq<Sub>, order: seq<nat>, now: Time, cost: int, j: nat, k: nat)
    requires QueryOrder(subs, now, order) && j < k <= |order|
    ensures Drained(subs, order, cost, k)[order[j]]
            == subs[order[j]].(remaining := subs[order[j]].remaining - Share(subs, order, cost, j))
  {
    if j == k - 1 {
      assert order[j] !in order[..j];
      DrainedElsewhere(subs, order, cost, order[j], j);
    } else {
      DrainedAt(subs, order, now, cost, j, k - 1);
    }
  }

  lemma {:induction false} DrainedElsewhere(subs: seq<Sub>, order: seq<nat>, cost: int, i: nat, k: nat)
    requires InRange(subs, order) && k <= |order| && i < |subs| && i !in order[..k]
    ensures Drained(subs, order, cost, k)[i] == subs[i]
  {
    if k > 0 {
      assert order[..k] == order[..k - 1] + [order[k - 1]];
      DrainedElsewhere(subs, order, cost, i, k - 1);
    }
  }

  /** The shares of the first k rows add up to the cost or to all these rows hold. */
  lemma {:induction false} DrainedSum(subs: seq<Sub>, order: seq<nat>, now: Time, cost: int, k: nat)
    requires AllServing(subs, now, order) && k <= |order| && cost >= 0
    ensures Before(subs, order, k) >= 0
    ensures QuotaSum(Drained(subs, order, cost, k)) == QuotaSum(subs) - Min(cost, Before(subs, order, k))
  {
    if k > 0 {
      DrainedSum(subs, order, now, cost, k - 1);
      MoveSum(Drained(subs, order, cost, k - 1), order[k - 1], -Share(subs, order, cost, k - 1));
    }
  }

  lemma {:induction false} TakesSum(subs: seq<Sub>, order: seq<nat>, now: Time, cost: int, k: nat)
    requires AllServing(subs, now, order) && k <= |order| && cost >= 0
    ensures Before(subs, order, k) >= 0
    ensures Amounts(Takes(subs, order, cost, k)) == Min(cost, Before(subs, order, k))
  {
    hide Amounts;
    Unfolded(subs, now, [], 0, Wallet);
    if k > 0 {
      TakesSum(subs, order, now, cost, k - 1);
      var share := Share(subs, order, cost, k - 1);
      var before := Takes(subs, order, cost, k - 1);
      assert before + [] == before;
      PushedAmounts(before, Take(Quota(order[k - 1]), share), Wallet);
    }
  }

  lemma {:induction false} AmountsAppend(s: seq<Take>, t: seq<Take>)
    ensures Amounts(s + t) == Amounts(s) + Amounts(t)
  {
    if t == [] {
      assert s + t == s;
    } else {
      assert (s + t)[..|s + t| - 1] == s + t[..|t| - 1];
      AmountsAppend(s, t[..|t| - 1]);
    }
  }

  lemma {:induction false} AmountFromAppend(s: seq<Take>, t: seq<Take>, src: Source)
    ensures AmountFrom(s + t, src) == AmountFrom(s, src) + AmountFrom(t, src)
  {
    if t == [] {
      assert s + t == s;
    } else {
      assert (s + t)[..|s + t| - 1] == s + t[..|t| - 1];
      AmountFromAppend(s, t[..|t| - 1], src);
    }
  }

  /** A charge costs the user exactly its cost, whatever the tie order, and its breakdown adds
      up to that cost with every entry positive. */
  lemma {:induction false} ChargeConserves(a: Account, now: Time, order: seq<nat>, cost: int, hasKey: bool)
    requires QueryOrder(a.subs, now, order)
    ensures Worth(Charge(a, order, cost, hasKey)) == Worth(a) - Max(0, cost)
    ensures Charge(a, order, cost, hasKey).keyUsed == a.keyUsed + if hasKey then Max(0, cost) else 0
    ensures Amounts(Breakdown(a.subs, order, cost)) == Max(0, cost)
    ensures forall t | t in Breakdown(a.subs, order, cost) :: t.amount > 0
  {
    if cost > 0 {
      DrainedSum(a.subs, order, now, cost, |order|);
      TakesSum(a.subs, order, now, cost, |order|);
      TakesPositive(a.subs, order, cost, |order|);
      var rest := Rest(a.subs, order, cost);
      AmountsAppend(Takes(a.subs, order, cost, |order|), if rest > 0 then [Take(Wallet, rest)] else []);
    }
  }

  lemma {:induction false} TakesPositive(subs: seq<Sub>, order: seq<nat>, cost: int, k: nat)
    requires InRange(subs, order) && k <= |order|
    ensures forall t | t in Takes(subs, order, cost, k) :: t.amount > 0 && t.source.Quota?
  {
    if k > 0 { TakesPositive(subs, order, cost, k - 1); }
  }

  /** The breakdown accounts for the charge source by source. */
  lemma {:induction false} ChargeBySource(a: Account, now: Time, order: seq<nat>, cost: int, hasKey: bool, s: Source)
    requires QueryOrder(a.subs, now, order)
    ensures BalanceOf(Charge(a, order, cost, hasKey), s)
            == BalanceOf(a, s) - AmountFrom(Breakdown(a.subs, order, cost), s)
  {
    if cost > 0 {
      var rest := Rest(a.subs, order, cost);
      var tail := if rest > 0 then [Take(Wallet, rest)] else [];
      AmountFromAppend(Takes(a.subs, order, cost, |order|), tail, s);
      TakesBySource(a.subs, order, cost, |order|, s);
      assert AmountFrom(tail, s) == if s == Wallet then rest else 0;
    }
  }

  lemma {:induction false} TakesBySource(subs: seq<Sub>, order: seq<nat>, cost: int, k: nat, s: Source)
    requires InRange(subs, order) && k <= |order|
    requires forall j | 0 <= j < |order| :: subs[order[j]].remaining >= 0
    ensures s == Wallet ==> AmountFrom(Takes(subs, order, cost, k), s) == 0
    ensures s.Quota? && s.id < |subs| ==>
              Drained(subs, order, cost, k)[s.id].remaining
              == subs[s.id].remaining - AmountFrom(Takes(subs, order, cost, k), s)
    ensures s.Quota? && s.id >= |subs| ==> AmountFrom(Takes(subs, order, cost, k), s) == 0
  {
    hide AmountFrom;
    Unfolded(subs, 0, [], 0, s);
    if k > 0 {
      TakesBySource(subs, order, cost, k - 1, s);
      var share := Share(subs, order, cost, k - 1);
      var before := Takes(subs, order, cost, k - 1);
      assert before + [] == before;
      PushedAmounts(before, Take(Quota(order[k - 1]), share), s);
    }
  }

  /** A charge changes a row only in its quota, only downwards, never below zero, and only if
      the row was serving. */
  lemma {:induction false} ChargeRow(a: Account, now: Time, order: seq<nat>, cost: int, hasKey: bool, i: nat)
    requires QueryOrder(a.subs, now, order) && i < |a.subs|
    ensures var c := Charge(a, order, cost, hasKey);
            && |c.subs| == |a.subs|
            && c.subs[i] == a.subs[i].(remaining := c.subs[i].remaining)
            && c.subs[i].remaining <= a.subs[i].remaining
            && (c.subs[i] != a.subs[i] ==> Serving(a.subs[i], now) && c.subs[i].remaining >= 0)
  {
    if cost > 0 {
      if i in order {
        var j :| 0 <= j < |order| && order[j] == i;
        DrainedAt(a.subs, order, now, cost, j, |order|);
      } else {
        assert order[..|order|] == order;
        DrainedElsewhere(a.subs, order, cost, i, |order|);
      }
    }
  }

  // ---- refund_to_sources ------------------------------------------------------------------------

  /** Subscription shares of a refund: credits to rows still serving, the rest rerouted. */
  datatype Split = Split(credits: seq<Take>, rerouted: int, left: int)

  predicate Live(subs: seq<Sub>, now: Time, s: Source) {
    s.Quota? && s.id < |subs| && Serving(subs[s.id], now)
  }

  function SplitStep(subs: seq<Sub>, now: Time, p: Split, t: Take): Split {
    if t.source.Wallet? || p.left <= 0 then p
    else
      var give := Min(t.amount, p.left);
      if Live(subs, now, t.source)
      then Split(p.credits + [Take(t.source, give)], p.rerouted, p.left - give)
      else Split(p.credits, p.rerouted + give, p.left - give)
  }

  function SplitRefund(subs: seq<Sub>, now: Time, ts: seq<Take>, left: int): Split {
    if ts == [] then Split([], 0, left)
    else SplitStep(subs, now, SplitRefund(subs, now, ts[..|ts| - 1], left), ts[|ts| - 1])
  }

  predicate CreditsInRange(subs: seq<Sub>, ts: seq<Take>) {
    forall k | 0 <= k < |ts| :: ts[k].source.Quota? && ts[k].source.id < |subs|
  }

  function Credit(subs: seq<Sub>, ts: seq<Take>): (r: seq<Sub>)
    requires CreditsInRange(subs, ts)
    ensures |r| == |subs|
  {
    if ts == [] then subs
    else Move(Credit(subs, ts[..|ts| - 1]), ts[|ts| - 1].source.id, ts[|ts| - 1].amount)
  }

  lemma {:induction false} SplitCreditsLive(subs: seq<Sub>, now: Time, ts: seq<Take>, left: int)
    ensures forall t | t in SplitRefund(subs, now, ts, left).credits :: Live(subs, now, t.source)
    ensures CreditsInRange(subs, SplitRefund(subs, now, ts, left).credits)
  {
    if ts != [] { SplitCreditsLive(subs, now, ts[..|ts| - 1], left); }
  }

  datatype RefundPlan = RefundPlan(toWallet: int, credits: seq<Take>) {
    function Total(): int { toWallet + Amounts(credits) }
  }

  /** Wallet first, then the subscription shares. */
  function PlanRefund(subs: seq<Sub>, now: Time, ts: seq<Take>, amount: int): (p: RefundPlan)
    ensures CreditsInRange(subs, p.credits)
  {
    var direct := Min(AmountFrom(ts, Wallet), amount);
    var split := SplitRefund(subs, now, ts, amount - direct);
    SplitCreditsLive(subs, now, ts, amount - direct);
    RefundPlan(direct + split.rerouted, split.credits)
  }

  function RefundTo(a: Account, now: Time, ts: seq<Take>, amount: int, hasKey: bool): Account {
    if amount <= 0 || ts == [] then a
    else
      var p := PlanRefund(a.subs, now, ts, amount);
      var wallet := if p.toWallet > 0 then a.wallet + p.toWallet else a.wallet;
      Account(wallet,
              Credit(a.subs, p.credits),
              if hasKey && p.Total() > 0 then a.keyUsed - p.Total() else a.keyUsed,
              a.txs + [Tx(Refund, p.Total(), wallet)])
  }

  function RefundTotal(a: Account, now: Time, ts: seq<Take>, amount: int): int {
    if amount <= 0 || ts == [] then 0 else PlanRefund(a.subs, now, ts, amount).Total()
  }

  /** Sums and split of a breakdown, one entry at a time. */
  lemma {:induction false} Unfolded(subs: seq<Sub>, now: Time, ts: seq<Take>, left: int, s: Source)
    ensures ts == [] ==>
              && Amounts(ts) == AmountFrom(ts, Wallet) == AmountFrom(ts, s) == 0
              && SplitRefund(subs, now, ts, left) == Split([], 0, left)
    ensures ts != [] ==>
              var init, t := ts[..|ts| - 1], ts[|ts| - 1];
              && Amounts(ts) == Amounts(init) + t.amount
              && AmountFrom(ts, s) == AmountFrom(init, s) + (if t.source == s then t.amount else 0)
              && AmountFrom(ts, Wallet) == AmountFrom(init, Wallet) + (if t.source == Wallet then t.amount else 0)
              && SplitRefund(subs, now, ts, left) == SplitStep(subs, now, SplitRefund(subs, now, init, left), t)
  {
  }

  lemma {:induction false} PushedAmounts(ts: seq<Take>, t: Take, s: Source)
    ensures Amounts(ts + [t]) == Amounts(ts) + t.amount
    ensures AmountFrom(ts + [t], s) == AmountFrom(ts, s) + if t.source == s then t.amount else 0
  {
    assert (ts + [t])[..|ts|] == ts;
  }

  /** What a split hands out in total. */
  lemma {:induction false} SplitTotals(subs: seq<Sub>, now: Time, ts: seq<Take>, left: int)
    requires NonNegative(ts) && left >= 0
    ensures AmountFrom(ts, Wallet) >= 0 && Amounts(ts) >= AmountFrom(ts, Wallet)
    ensures var p, quota := SplitRefund(subs, now, ts, left), Amounts(ts) - AmountFrom(ts, Wallet);
            && p.left == Max(0, left - quota)
            && p.rerouted >= 0
            && p.rerouted + Amounts(p.credits) == left - p.left
  {
    hide Live, Amounts, AmountFrom, SplitRefund;
    Unfolded(subs, now, ts, left, Wallet);
    Unfolded(subs, now, [], left, Wallet);
    if ts != [] {
      SplitTotals(subs, now, ts[..|ts| - 1], left);
      var p := SplitRefund(subs, now, ts[..|ts| - 1], left);
      var t := ts[|ts| - 1];
      PushedAmounts(p.credits, Take(t.source, Min(t.amount, p.left)), Wallet);
    }
  }

  /** What a split hands back to one source: no more than was taken from it, and all of it if the
      refund reaches that far and the source still serves. */
  lemma {:induction false} SplitFromSource(subs: seq<Sub>, now: Time, ts: seq<Take>, left: int, s: Source)
    requires NonNegative(ts) && left >= 0
    ensures var credits := SplitRefund(subs, now, ts, left).credits;
            && 0 <= AmountFrom(credits, s) <= AmountFrom(ts, s)
            && (left >= Amounts(ts) - AmountFrom(ts, Wallet) && s.Quota? ==>
                  AmountFrom(credits, s) == if Live(subs, now, s) then AmountFrom(ts, s) else 0)
  {
    hide Live, Amounts, AmountFrom, SplitRefund;
    Unfolded(subs, now, ts, left, s);
    Unfolded(subs, now, [], left, s);
    if ts != [] {
      SplitTotals(subs, now, ts[..|ts| - 1], left);
      SplitFromSource(subs, now, ts[..|ts| - 1], left, s);
      var p := SplitRefund(subs, now, ts[..|ts| - 1], left);
      var t := ts[|ts| - 1];
      PushedAmounts(p.credits, Take(t.source, Min(t.amount, p.left)), s);
    }
  }

  lemma {:induction false} RefundNothing(a: Account, now: Time, ts: seq<Take>, hasKey: bool)
    ensures RefundTo(a, now, ts, 0, hasKey) == a
  {
  }

  lemma {:induction false} CreditSum(subs: seq<Sub>, ts: seq<Take>)
    requires CreditsInRange(subs, ts)
    ensures QuotaSum(Credit(subs, ts)) == QuotaSum(subs) + Amounts(ts)
  {
    if ts != [] {
      CreditSum(subs, ts[..|ts| - 1]);
      MoveSum(Credit(subs, ts[..|ts| - 1]), ts[|ts| - 1].source.id, ts[|ts| - 1].amount);
    }
  }

  lemma {:induction false} CreditAt(subs: seq<Sub>, ts: seq<Take>, i: nat)
    requires CreditsInRange(subs, ts) && i < |subs|
    ensures Credit(subs, ts)[i] == subs[i].(remaining := subs[i].remaining + AmountFrom(ts, Quota(i)))
  {
    if ts != [] { CreditAt(subs, ts[..|ts| - 1], i); }
  }

  lemma {:induction false} PlanTotals(subs: seq<Sub>, now: Time, ts: seq<Take>, amount: int)
    requires NonNegative(ts) && amount >= 0
    ensures Amounts(ts) >= 0
    ensures PlanRefund(subs, now, ts, amount).toWallet >= 0
    ensures PlanRefund(subs, now, ts, amount).Total() == Min(amount, Amounts(ts))
  {
    SplitTotals(subs, now, ts, 0);
    SplitTotals(subs, now, ts, amount - Min(AmountFrom(ts, Wallet), amount));
  }

  /** A refund pays back exactly the smaller of what was asked and what was taken. */
  lemma {:induction false} RefundConserves(a: Account, now: Time, ts: seq<Take>, amount: int, hasKey: bool)
    requires NonNegative(ts)
    ensures RefundTotal(a, now, ts, amount) == Max(0, Min(amount, Amounts(ts)))
    ensures Worth(RefundTo(a, now, ts, amount, hasKey)) == Worth(a) + RefundTotal(a, now, ts, amount)
    ensures RefundTo(a, now, ts, amount, hasKey).wallet >= a.wallet
    ensures RefundTo(a, now, ts, amount, hasKey).keyUsed
            == a.keyUsed - if hasKey then RefundTotal(a, now, ts, amount) else 0
  {
    PlanTotals(a.subs, now, ts, Max(0, amount));
    CreditSum(a.subs, PlanRefund(a.subs, now, ts, amount).credits);
  }

  /** No subscription is credited more than it gave, and one that no longer serves gets nothing. */
  lemma {:induction false} RefundBySource(a: Account, now: Time, ts: seq<Take>, amount: int, hasKey: bool, i: nat)
    requires NonNegative(ts) && i < |a.subs|
    ensures var after := RefundTo(a, now, ts, amount, hasKey);
            && |after.subs| == |a.subs|
            && after.subs[i] == a.subs[i].(remaining := after.subs[i].remaining)
            && a.subs[i].remaining <= after.subs[i].remaining
                 <= a.subs[i].remaining + AmountFrom(ts, Quota(i))
            && (!Serving(a.subs[i], now) ==> after.subs[i] == a.subs[i])
            && (amount > 0 && amount >= Amounts(ts) && Serving(a.subs[i], now) ==>
                  after.subs[i].remaining == a.subs[i].remaining + AmountFrom(ts, Quota(i)))
  {
    SplitTotals(a.subs, now, ts, 0);
    SplitFromSource(a.subs, now, ts, 0, Quota(i));
    if amount > 0 && ts != [] {
      var left := amount - Min(AmountFrom(ts, Wallet), amount);
      SplitFromSource(a.subs, now, ts, left, Quota(i));
      var credits := SplitRefund(a.subs, now, ts, left).credits;
      SplitCreditsLive(a.subs, now, ts, left);
      CreditAt(a.subs, credits, i);
      if !Serving(a.subs[i], now) { NotTaken(credits, Quota(i)); }
    }
  }

  lemma {:induction false} NotTaken(ts: seq<Take>, s: Source)
    requires forall t | t in ts :: t.source != s
    ensures AmountFrom(ts, s) == 0
  {
    if ts != [] { NotTaken(ts[..|ts| - 1], s); }
  }

  // ---- charge then full refund ------------------------------------------------------------------

  predicate Emptied(before: seq<Sub>, after: seq<Sub>, i: nat)
    requires i < |before| && i < |after|
  {
    before[i].remaining > 0 && after[i].remaining == 0
  }

  /** A charge followed by its full refund at the same instant restores every row except the
      ones the charge emptied; those stay empty and the wallet receives their quota. */
  lemma {:induction false} ChargeThenRefund(a: Account, now: Time, order: seq<nat>, cost: int, hasKey: bool, i: nat)
    requires QueryOrder(a.subs, now, order) && i < |a.subs|
    ensures var c := Charge(a, order, cost, hasKey);
            var r := RefundTo(c, now, Breakdown(a.subs, order, cost), cost, hasKey);
            && |r.subs| == |c.subs| == |a.subs|
            && r.subs[i] == (if Emptied(a.subs, c.subs, i) then c.subs[i] else a.subs[i])
            && Worth(r) == Worth(a)
  {
    var c := Charge(a, order, cost, hasKey);
    var ts := Breakdown(a.subs, order, cost);
    ChargeConserves(a, now, order, cost, hasKey);
    RefundConserves(c, now, ts, cost, hasKey);
    ChargeRow(a, now, order, cost, hasKey, i);
    RefundBySource(c, now, ts, cost, hasKey, i);
    ChargeBySource(a, now, order, cost, hasKey, Quota(i));
  }

  /** The round trip restores the wallet and every row exactly when nothing was charged, no
      row was serving, or the soonest-ending row alone covers the cost with something left. */
  lemma {:induction false} ChargeThenRefundRestores(a: Account, now: Time, order: seq<nat>, cost: int, hasKey: bool)
    requires QueryOrder(a.subs, now, order)
    ensures var r := RefundTo(Charge(a, order, cost, hasKey), now, Breakdown(a.subs, order, cost), cost, hasKey);
            (r.wallet == a.wallet && r.subs == a.subs)
            <==> (cost <= 0 || order == [] || cost < a.subs[order[0]].remaining)
  {
    var c := Charge(a, order, cost, hasKey);
    var r := RefundTo(c, now, Breakdown(a.subs, order, cost), cost, hasKey);
    if cost <= 0 {
    } else if order != [] && cost >= a.subs[order[0]].remaining {
      DrainedAt(a.subs, order, now, cost, 0, |order|);
      ChargeThenRefund(a, now, order, cost, hasKey, order[0]);
    } else {
      ChargeConserves(a, now, order, cost, hasKey);
      RefundConserves(c, now, Breakdown(a.subs, order, cost), cost, hasKey);
      assert |r.subs| == |a.subs|;
      forall i | 0 <= i < |a.subs| ensures r.subs[i] == a.subs[i] {
        ChargeThenRefund(a, now, order, cost, hasKey, i);
        NothingEmptied(a, now, order, cost, hasKey, i);
      }
      assert r.subs == a.subs;
    }
  }

  lemma {:induction false} NothingEmptied(a: Account, now: Time, order: seq<nat>, cost: int, hasKey: bool, i: nat)
    requires QueryOrder(a.subs, now, order) && i < |a.subs|
    requires order != [] ==> cost < a.subs[order[0]].remaining
    ensures !Emptied(a.subs, Charge(a, order, cost, hasKey).subs, i)
  {
    if i in order && cost > 0 {
      var j :| 0 <= j < |order| && order[j] == i;
      DrainedAt(a.subs, order, now, cost, j, |order|);
      if j > 0 { FirstCovers(a.subs, order, now, j); }
    } else if cost > 0 {
      assert order[..|order|] == order;
      DrainedElsewhere(a.subs, order, cost, i, |order|);
    }
  }

  lemma {:induction false} FirstCovers(subs: seq<Sub>, order: seq<nat>, now: Time, k: nat)
    requires QueryOrder(subs, now, order) && 1 <= k <= |order|
    ensures Before(subs, order, k) >= subs[order[0]].remaining
  {
    if k == 1 { assert Before(subs, order, 0) == 0; } else { FirstCovers(subs, order, now, k - 1); }
  }

  // ---- the queried rows are exactly the serving ones --------------------------------------------

  function ServingSum(subs: seq<Sub>, now: Time): int {
    if subs == [] then 0
    else
      var last := subs[|subs| - 1];
      ServingSum(subs[..|subs| - 1], now) + if Serving(last, now) then last.remaining else 0
  }

  lemma {:induction false} ServingSumWithout(subs: seq<Sub>, now: Time, i: nat)
    requires i < |subs| && Serving(subs[i], now)
    ensures ServingSum(subs[i := subs[i].(status := Expired)], now) == ServingSum(subs, now) - subs[i].remaining
  {
    var n := |subs| - 1;
    var without := subs[i := subs[i].(status := Expired)];
    if i == n {
      assert without[..n] == subs[..n];
    } else {
      assert without[..n] == subs[..n][i := subs[i].(status := Expired)];
      ServingSumWithout(subs[..n], now, i);
    }
  }

  lemma {:induction false} NothingServing(subs: seq<Sub>, now: Time)
    requires forall i | 0 <= i < |subs| :: !Serving(subs[i], now)
    ensures ServingSum(subs, now) == 0
  {
    if subs != [] { NothingServing(subs[..|subs| - 1], now); }
  }

  lemma {:induction false} BeforeSame(subs: seq<Sub>, order: seq<nat>, subs': seq<Sub>, order': seq<nat>, k: nat)
    requires InRange(subs, order) && InRange(subs', order') && k <= |order| && k <= |order'|
    requires forall j | 0 <= j < k :: subs[order[j]].remaining == subs'[order'[j]].remaining
    ensures Before(subs, order, k) == Before(subs', order', k)
  {
    if k > 0 { BeforeSame(subs, order, subs', order', k - 1); }
  }

  lemma {:induction false} QueryWithoutLast(subs: seq<Sub>, now: Time, order: seq<nat>)
    requires QueryOrder(subs, now, order) && order != []
    ensures var n, i := |order| - 1, order[|order| - 1];
            QueryOrder(subs[i := subs[i].(status := Expired)], now, order[..n])
  {
    var n, i := |order| - 1, order[|order| - 1];
    var without := subs[i := subs[i].(status := Expired)];
    forall j | 0 <= j < |without| && Serving(without[j], now) ensures j in order[..n] {
      var k :| 0 <= k < |order| && order[k] == j;
      assert order[..n][k] == j;
    }
  }

  /** Adding up an answer of the query gives the quota of the serving rows, in any tie order. */
  lemma {:induction false} QuerySum(subs: seq<Sub>, now: Time, order: seq<nat>)
    requires QueryOrder(subs, now, order)
    ensures Before(subs, order, |order|) == ServingSum(subs, now) >= 0
    decreases |order|
  {
    if order == [] {
      NothingServing(subs, now);
    } else {
      var n, i := |order| - 1, order[|order| - 1];
      var without := subs[i := subs[i].(status := Expired)];
      QueryWithoutLast(subs, now, order);
      QuerySum(without, now, order[..n]);
      ServingSumWithout(subs, now, i);
      BeforeSame(subs, order, without, order[..n], n);
    }
  }

  // ---- gates ------------------------------------------------------------------------------------

  function Available(a: Account, now: Time): int {
    ServingSum(a.subs, now) + Max(0, a.wallet)
  }

  datatype QuotaVerdict = Allowed | KeyCapReached | NothingToSpend

  ghost predicate AnyServing(subs: seq<Sub>, now: Time) {
    exists i :: 0 <= i < |subs| && Serving(subs[i], now)
  }

  ghost function QuotaGate(a: Account, now: Time, keyCap: int): QuotaVerdict {
    if keyCap > 0 && a.keyUsed >= keyCap then KeyCapReached
    else if AnyServing(a.subs, now) || a.wallet > 0 then Allowed
    else NothingToSpend
  }

  /** A hold is covered exactly when the rows serving at that moment and the wallet reach it. */
  lemma {:induction false} HoldKeepsWallet(a: Account, now: Time, order: seq<nat>, cost: int, hasKey: bool)
    requires QueryOrder(a.subs, now, order) && a.wallet >= 0
    ensures Charge(a, order, cost, hasKey).wallet >= 0 <==> cost <= Available(a, now)
  {
    QuerySum(a.subs, now, order);
    assert Rest(a.subs, order, cost) == Max(0, cost - ServingSum(a.subs, now));
  }

  /** A debt takes nothing from what the rows offer: with a wallet below zero, a charge leaves the
      wallet alone exactly when it is within the available amount. */
  lemma {:induction false} HoldFromRows(a: Account, now: Time, order: seq<nat>, cost: int, hasKey: bool)
    requires QueryOrder(a.subs, now, order) && a.wallet <= 0
    ensures Charge(a, order, cost, hasKey).wallet == a.wallet <==> cost <= Available(a, now)
  {
    QuerySum(a.subs, now, order);
    assert Rest(a.subs, order, cost) == Max(0, cost - ServingSum(a.subs, now));
  }

  // ---- wallet and subscription writes -----------------------------------------------------------

  function TopUp(a: Account, amount: int): Account {
    a.(wallet := a.wallet + amount, txs := a.txs + [Tx(Topup, amount, a.wallet + amount)])
  }

  function InitialPeriodEnd(plan: Plan, now: Time): (end: Time)
    ensures now < end
  {
    if plan.oneTime
    then now + Max(1, if plan.durationDays == 0 then 30 else plan.durationDays) * DAY
    else NextPeriodEnd(now)
  }

  /** A recurring plan's first period ends at the next month boundary; a one-time plan's lasts its
      days, thirty if none are given, and at least one. */
  lemma {:induction false} InitialPeriod(plan: Plan, now: Time)
    ensures !plan.oneTime ==> InitialPeriodEnd(plan, now) == FirstOf(Succ(MonthOf(now)))
    ensures plan.oneTime ==> InitialPeriodEnd(plan, now) - now >= DAY
    ensures plan.oneTime && plan.durationDays > 0 ==> InitialPeriodEnd(plan, now) - now == plan.durationDays * DAY
    ensures plan.oneTime && plan.durationDays == 0 ==> InitialPeriodEnd(plan, now) - now == 30 * DAY
  {
    NextPeriodEndIsNextBoundary(now, MonthOf(now));
  }

  function GrantPlan(a: Account, plan: Plan, now: Time): Account {
    a.(subs := a.subs + [Sub(plan.id, now, InitialPeriodEnd(plan, now), Active, plan.quota, false)],
       txs := a.txs + [Tx(Grant, plan.quota, a.wallet)])
  }

  function Purchases(subs: seq<Sub>, planId: nat): nat {
    if subs == [] then 0
    else Purchases(subs[..|subs| - 1], planId) + if subs[|subs| - 1].planId == planId then 1 else 0
  }

  predicate Running(s: Sub, planId: nat, now: Time) {
    s.planId == planId && s.status.Active? && s.periodEnd > now
  }

  datatype SubscribeOutcome = Subscribed | AlreadySubscribed | LimitReached | Short

  function SubscribeCheck(a: Account, plan: Plan, now: Time): SubscribeOutcome {
    if exists i :: 0 <= i < |a.subs| && Running(a.subs[i], plan.id, now) then AlreadySubscribed
    else if plan.oneTime && plan.maxPurchases.Some? && Purchases(a.subs, plan.id) >= plan.maxPurchases.value
    then LimitReached
    else if plan.price > 0 && a.wallet < plan.price then Short
    else Subscribed
  }

  function PayPrice(a: Account, price: nat): Account {
    if price > 0
    then a.(wallet := a.wallet - price, txs := a.txs + [Tx(Consume, 0 - price, a.wallet - price)])
    else a
  }

  function Subscribe(a: Account, plan: Plan, now: Time): Account {
    if SubscribeCheck(a, plan, now) == Subscribed then GrantPlan(PayPrice(a, plan.price), plan, now) else a
  }

  // ---- the subscription lifecycle ---------------------------------------------------------------

  datatype RenewOutcome =
    PlanDeleted | CanceledAtPeriodEnd | OneTimeExpired | UserInactive | InsufficientBalance | Renewed

  function RenewCheck(a: Account, i: nat, plan: Option<Plan>, userActive: bool): RenewOutcome
    requires i < |a.subs|
  {
    if plan.None? then PlanDeleted
    else if a.subs[i].cancelAtPeriodEnd then CanceledAtPeriodEnd
    else if plan.value.oneTime then OneTimeExpired
    else if !userActive then UserInactive
    else if plan.value.price > a.wallet then InsufficientBalance
    else Renewed
  }

  function Renew(a: Account, i: nat, plan: Option<Plan>, userActive: bool): (r: Account)
    requires i < |a.subs|
    ensures |r.subs| == |a.subs|
  {
    var s := a.subs[i];
    match RenewCheck(a, i, plan, userActive)
    case PlanDeleted => a.(subs := a.subs[i := s.(status := Expired)])
    case CanceledAtPeriodEnd => a.(subs := a.subs[i := s.(status := Expired, remaining := 0)])
    case OneTimeExpired => a.(subs := a.subs[i := s.(status := Expired, remaining := 0)])
    case UserInactive => a.(subs := a.subs[i := s.(status := Expired)])
    case InsufficientBalance => a.(subs := a.subs[i := s.(status := PastDue, remaining := 0)])
    case Renewed =>
      PayPrice(a, plan.value.price).(subs := a.subs[i :=
        s.(periodStart := s.periodEnd, periodEnd := NextPeriodEnd(s.periodEnd),
           remaining := plan.value.quota, status := Active)])
  }

  predicate Open(s: Sub) { s.status.Active? || s.status.PastDue? }

  /** The rows the renewal worker selects. */
  predicate Due(s: Sub, now: Time) { s.periodEnd <= now && Open(s) }

  datatype CancelMode = AtPeriodEnd | Immediately

  function ProratedRefund(plan: Option<Plan>, remaining: int): (r: nat) {
    if plan.Some? && plan.value.price > 0 && plan.value.quota > 0
    then Max(0, Min(plan.value.price * remaining / plan.value.quota, plan.value.price))
    else 0
  }

  function Cancel(a: Account, i: nat, mode: CancelMode, plan: Option<Plan>, now: Time): Account
    requires i < |a.subs|
  {
    var s := a.subs[i];
    if !Open(s) then a
    else if mode.AtPeriodEnd? then a.(subs := a.subs[i := s.(cancelAtPeriodEnd := true)])
    else
      var refund := ProratedRefund(plan, s.remaining);
      var closed := a.subs[i := s.(status := Canceled, cancelAtPeriodEnd := true, remaining := 0, periodEnd := now)];
      if refund > 0
      then a.(subs := closed, wallet := a.wallet + refund, txs := a.txs + [Tx(Refund, refund, a.wallet + refund)])
      else a.(subs := closed)
  }

  function Resume(a: Account, i: nat): Account
    requires i < |a.subs|
  {
    if Open(a.subs[i]) then a.(subs := a.subs[i := a.subs[i].(cancelAtPeriodEnd := false)]) else a
  }

  function RenewNow(a: Account, i: nat, plan: Option<Plan>, userActive: bool, now: Time): Account
    requires i < |a.subs|
  {
    var s := a.subs[i];
    if s.status.Active? && s.periodEnd > now then a
    else if !Open(s) then a
    else Renew(a, i, plan, userActive)
  }

  /** An immediate cancel keeps exactly the used share of the price, rounded up, and the clamp
      in the code never changes the quotient, as long as the quota is within the plan's. */
  lemma {:induction false} CancelKeepsUsedShare(plan: Plan, remaining: int)
    requires plan.quota > 0 && 0 <= remaining <= plan.quota
    ensures ProratedRefund(Some(plan), remaining) == plan.price * remaining / plan.quota
    ensures plan.price - ProratedRefund(Some(plan), remaining)
            == CeilDiv(plan.price * (plan.quota - remaining), plan.quota)
  {
    var p, q := plan.price, plan.quota;
    var f := p * remaining / q;
    FloorBounds(p * remaining, q);
    assert 0 <= p * remaining <= p * q;
    FloorWithin(p * remaining, q, f, p);
    CeilComplement(p, q, remaining, f);
  }

  lemma {:induction false} FloorBounds(x: int, q: nat)
    requires q > 0
    ensures (x / q) * q <= x < (x / q + 1) * q
  {
    assert x == (x / q) * q + x % q;
  }

  lemma {:induction false} CeilComplement(p: int, q: nat, r: int, f: int)
    requires q > 0 && f * q <= p * r < (f + 1) * q
    ensures p - f == CeilDiv(p * (q - r), q)
  {
    hide CeilDiv;
    assert p * (q - r) == p * q - p * r;
    assert (p - f - 1) * q == p * q - f * q - q;
    assert (p - f) * q == p * q - f * q;
    CeilDivUnique(p * (q - r), q, p - f);
  }

  lemma {:induction false} FloorWithin(x: int, q: nat, f: int, p: int)
    requires q > 0 && f * q <= x < (f + 1) * q && 0 <= x <= p * q
    ensures 0 <= f <= p
  {
    MulMonotone(f + 1, 0, q);
    MulMonotone(p + 1, f, q);
  }
}
