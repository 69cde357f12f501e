/** Whole runs of wallet and subscription writes: what the balance transactions record. */
module LedgerRuns {
  import opened Prelude
  import opened Calendar
  import opened Billing

  datatype Op =
    | TopupOp(amount: int)
    | GrantOp(plan: Plan, now: Time)
    | ChargeOp(now: Time, order: seq<nat>, cost: int, hasKey: bool)
    | RefundOp(now: Time, taken: seq<Take>, amount: int, hasKey: bool)
    | SubscribeOp(plan: Plan, now: Time)

  /** A charge sees some answer of the query; a refund is given a breakdown of real amounts,
      as every charge returns one. */
  ghost predicate Legal(a: Account, op: Op) {
    match op
    case ChargeOp(now, order, _, _) => QueryOrder(a.subs, now, order)
    case RefundOp(_, taken, _, _) => NonNegative(taken)
    case _ => true
  }

  ghost function Apply(a: Account, op: Op): Account
    requires Legal(a, op)
  {
    match op
    case TopupOp(amount) => TopUp(a, amount)
    case GrantOp(plan, now) => GrantPlan(a, plan, now)
    case ChargeOp(now, order, cost, hasKey) => Charge(a, order, cost, hasKey)
    case RefundOp(now, taken, amount, hasKey) => RefundTo(a, now, taken, amount, hasKey)
    case SubscribeOp(plan, now) => Subscribe(a, plan, now)
  }

  ghost predicate LegalRun(a: Account, ops: seq<Op>)
    decreases |ops|, 0
  {
    ops == [] ||
    (LegalRun(a, ops[..|ops| - 1]) && Legal(Run(a, ops[..|ops| - 1]), ops[|ops| - 1]))
  }

  ghost function Run(a: Account, ops: seq<Op>): Account
    requires LegalRun(a, ops)
    decreases |ops|, 1
  {
    if ops == [] then a else Apply(Run(a, ops[..|ops| - 1]), ops[|ops| - 1])
  }

  function TxSum(txs: seq<Tx>): int {
    if txs == [] then 0 else TxSum(txs[..|txs| - 1]) + txs[|txs| - 1].amount
  }

  lemma {:induction false} TxSumPush(txs: seq<Tx>, t: Tx)
    ensures TxSum(txs + [t]) == TxSum(txs) + t.amount
  {
    assert (txs + [t])[..|txs|] == txs;
  }

  lemma {:induction false} QuotaSumPush(subs: seq<Sub>, s: Sub)
    ensures QuotaSum(subs + [s]) == QuotaSum(subs) + s.remaining
  {
    assert (subs + [s])[..|subs|] == subs;
  }

  /** Rows are appended, each carries the wallet just after the step, a step that writes no row
      leaves the wallet alone, and the amounts written are the change of worth. */
  ghost predicate Recorded(a: Account, b: Account) {
    && a.txs <= b.txs
    && (forall k | |a.txs| <= k < |b.txs| :: b.txs[k].balanceAfter == b.wallet)
    && (a.txs == b.txs ==> a.wallet == b.wallet)
    && TxSum(b.txs) - TxSum(a.txs) == Worth(b) - Worth(a)
  }

  lemma {:induction false} ChargeRecorded(a: Account, now: Time, order: seq<nat>, cost: int, hasKey: bool)
    requires QueryOrder(a.subs, now, order)
    ensures Recorded(a, Charge(a, order, cost, hasKey))
  {
    var b := Charge(a, order, cost, hasKey);
    ChargeConserves(a, now, order, cost, hasKey);
    TxSumPush(a.txs, Tx(Consume, -cost, b.wallet));
  }

  lemma {:induction false} RefundRecorded(a: Account, now: Time, taken: seq<Take>, amount: int, hasKey: bool)
    requires NonNegative(taken)
    ensures Recorded(a, RefundTo(a, now, taken, amount, hasKey))
  {
    var b := RefundTo(a, now, taken, amount, hasKey);
    RefundConserves(a, now, taken, amount, hasKey);
    TxSumPush(a.txs, Tx(Refund, RefundTotal(a, now, taken, amount), b.wallet));
  }

  lemma {:induction false} GrantRecorded(a: Account, plan: Plan, now: Time)
    ensures Recorded(a, GrantPlan(a, plan, now))
  {
    var b := GrantPlan(a, plan, now);
    QuotaSumPush(a.subs, b.subs[|a.subs|]);
    TxSumPush(a.txs, b.txs[|a.txs|]);
  }

  lemma {:induction false} SubscribeRecorded(a: Account, plan: Plan, now: Time)
    ensures Recorded(a, Subscribe(a, plan, now))
  {
    if SubscribeCheck(a, plan, now) == Subscribed {
      var paid := PayPrice(a, plan.price);
      if plan.price > 0 { TxSumPush(a.txs, paid.txs[|a.txs|]); }
      GrantRecorded(paid, plan, now);
    }
  }

  lemma {:induction false} StepRecorded(a: Account, op: Op)
    requires Legal(a, op)
    ensures Recorded(a, Apply(a, op))
  {
    match op
    case TopupOp(amount) => TxSumPush(a.txs, Tx(Topup, amount, a.wallet + amount));
    case GrantOp(plan, now) => GrantRecorded(a, plan, now);
    case ChargeOp(now, order, cost, hasKey) => ChargeRecorded(a, now, order, cost, hasKey);
    case RefundOp(now, taken, amount, hasKey) => RefundRecorded(a, now, taken, amount, hasKey);
    case SubscribeOp(plan, now) => SubscribeRecorded(a, plan, now);
  }

  /** Over any run the transactions add up to the change of worth, and the last one shows the
      wallet. */
  lemma {:induction false} RunRecorded(a: Account, ops: seq<Op>)
    requires LegalRun(a, ops)
    ensures var b := Run(a, ops);
            && a.txs <= b.txs
            && TxSum(b.txs) - TxSum(a.txs) == Worth(b) - Worth(a)
            && b.wallet == if |b.txs| == |a.txs| then a.wallet else b.txs[|b.txs| - 1].balanceAfter
  {
    hide Apply, Legal, Worth;
    if ops != [] {
      RunRecorded(a, ops[..|ops| - 1]);
      StepRecorded(Run(a, ops[..|ops| - 1]), ops[|ops| - 1]);
    }
  }

  /** Every transaction a run wrote shows the wallet as it was right after the step that wrote it. */
  lemma {:induction false} RowShowsItsWallet(a: Account, ops: seq<Op>, k: nat) returns (n: nat)
    requires LegalRun(a, ops) && |a.txs| <= k < |Run(a, ops).txs|
    ensures 0 < n <= |ops| && LegalRun(a, ops[..n]) && LegalRun(a, ops[..n - 1])
    ensures |Run(a, ops[..n - 1]).txs| <= k < |Run(a, ops[..n]).txs|
    ensures Run(a, ops).txs[k].balanceAfter == Run(a, ops[..n]).wallet
  {
    hide Apply, Legal, Worth, TxSum;
    var last := |ops| - 1;
    StepRecorded(Run(a, ops[..last]), ops[last]);
    if k < |Run(a, ops[..last]).txs| {
      n := RowShowsItsWallet(a, ops[..last], k);
      assert ops[..last][..n] == ops[..n] && ops[..last][..n - 1] == ops[..n - 1];
    } else {
      n := |ops|;
      assert ops[..n] == ops;
    }
  }

  // ---- by kind ----------------------------------------------------------------------------------

  function KindSum(txs: seq<Tx>, kind: TxKind): int {
    if txs == [] then 0
    else KindSum(txs[..|txs| - 1], kind) + if txs[|txs| - 1].kind == kind then txs[|txs| - 1].amount else 0
  }

  lemma {:induction false} KindSumPush(txs: seq<Tx>, t: Tx, kind: TxKind)
    ensures KindSum(txs + [t], kind) == KindSum(txs, kind) + if t.kind == kind then t.amount else 0
  {
    assert (txs + [t])[..|txs|] == txs;
  }

  /** What a write should record under each kind: a top-up its amount, a grant the plan's quota, a
      charge its cost, a refund what it returns, and a purchase both its price and the quota. */
  ghost function Booked(a: Account, op: Op, kind: TxKind): int {
    match op
    case TopupOp(amount) => if kind == Topup then amount else 0
    case GrantOp(plan, _) => if kind == Grant then plan.quota else 0
    case ChargeOp(_, _, cost, _) => if kind == Consume then -Max(0, cost) else 0
    case RefundOp(_, taken, amount, _) => if kind == Refund then Max(0, Min(amount, Amounts(taken))) else 0
    case SubscribeOp(plan, now) =>
      if SubscribeCheck(a, plan, now) != Subscribed then 0
      else if kind == Grant then plan.quota else if kind == Consume then 0 - plan.price else 0
  }

  lemma {:induction false} StepByKind(a: Account, op: Op, kind: TxKind)
    requires Legal(a, op)
    ensures KindSum(Apply(a, op).txs, kind) - KindSum(a.txs, kind) == Booked(a, op, kind)
  {
    hide KindSum, Drained, PlanRefund, InitialPeriodEnd, SubscribeCheck, Amounts, Rest;
    match op
    case TopupOp(amount) => KindSumPush(a.txs, Tx(Topup, amount, a.wallet + amount), kind);
    case GrantOp(plan, now) => KindSumPush(a.txs, Tx(Grant, plan.quota, a.wallet), kind);
    case ChargeOp(now, order, cost, hasKey) =>
      KindSumPush(a.txs, Tx(Consume, -cost, Charge(a, order, cost, hasKey).wallet), kind);
    case RefundOp(now, taken, amount, hasKey) =>
      RefundConserves(a, now, taken, amount, hasKey);
      if taken == [] { Unfolded(a.subs, now, taken, 0, Wallet); }
      KindSumPush(a.txs, Tx(Refund, RefundTotal(a, now, taken, amount),
                            RefundTo(a, now, taken, amount, hasKey).wallet), kind);
    case SubscribeOp(plan, now) =>
      var paid := PayPrice(a, plan.price);
      KindSumPush(a.txs, Tx(Consume, 0 - plan.price, a.wallet - plan.price), kind);
      KindSumPush(paid.txs, Tx(Grant, plan.quota, paid.wallet), kind);
  }

  ghost function BookedOver(a: Account, ops: seq<Op>, kind: TxKind): int
    requires LegalRun(a, ops)
  {
    if ops == [] then 0
    else BookedOver(a, ops[..|ops| - 1], kind) + Booked(Run(a, ops[..|ops| - 1]), ops[|ops| - 1], kind)
  }

  /** Over every run the transactions of each kind add up to what the writes of that kind moved. */
  lemma {:induction false} RunByKind(a: Account, ops: seq<Op>, kind: TxKind)
    requires LegalRun(a, ops)
    ensures KindSum(Run(a, ops).txs, kind) - KindSum(a.txs, kind) == BookedOver(a, ops, kind)
  {
    hide Apply, Legal, Booked, KindSum;
    if ops != [] {
      RunByKind(a, ops[..|ops| - 1], kind);
      StepByKind(Run(a, ops[..|ops| - 1]), ops[|ops| - 1], kind);
    }
  }

  /** What is recorded is what moved: a top-up moves the wallet alone, a grant no wallet at all, and
      a top-up, grant or purchase leaves every earlier row and the key counter alone. */
  lemma {:induction false} StepMoves(a: Account, op: Op)
    requires Legal(a, op)
    ensures var b := Apply(a, op);
            && (op.TopupOp? ==> b.wallet == a.wallet + op.amount && b.subs == a.subs)
            && (op.GrantOp? ==> b.wallet == a.wallet)
            && (op.TopupOp? || op.GrantOp? || op.SubscribeOp? ==>
                  b.keyUsed == a.keyUsed && |b.subs| >= |a.subs| && b.subs[..|a.subs|] == a.subs)
  {
    hide SubscribeCheck, InitialPeriodEnd;
  }

  // ---- what the subscribe endpoint guards -------------------------------------------------------

  /** A subscription is paid in full from the wallet, never below zero, and starts running. */
  lemma {:induction false} SubscribePays(a: Account, plan: Plan, now: Time)
    requires SubscribeCheck(a, plan, now) == Subscribed
    ensures var b := Subscribe(a, plan, now);
            && b.wallet == a.wallet - plan.price && (plan.price > 0 ==> b.wallet >= 0)
            && |b.subs| == |a.subs| + 1 && b.subs[..|a.subs|] == a.subs
            && Running(b.subs[|a.subs|], plan.id, now) && b.subs[|a.subs|].remaining == plan.quota
    ensures SubscribeCheck(Subscribe(a, plan, now), plan, now) == AlreadySubscribed
  {
    var b := Subscribe(a, plan, now);
    assert Running(b.subs[|a.subs|], plan.id, now);
  }

  lemma {:induction false} PurchasesPush(subs: seq<Sub>, s: Sub, planId: nat)
    ensures Purchases(subs + [s], planId) == Purchases(subs, planId) + if s.planId == planId then 1 else 0
  {
    assert (subs + [s])[..|subs|] == subs;
  }

  lemma {:induction false} SamePurchases(a: seq<Sub>, b: seq<Sub>, planId: nat)
    requires |a| == |b| && forall i | 0 <= i < |a| :: a[i].planId == b[i].planId
    ensures Purchases(a, planId) == Purchases(b, planId)
  {
    if a != [] { SamePurchases(a[..|a| - 1], b[..|b| - 1], planId); }
  }

  /** Grants of a plan that no cap guards: paid orders, the sign-up plan. */
  predicate Grants(op: Op, planId: nat) { op.GrantOp? && op.plan.id == planId }

  function GrantCount(ops: seq<Op>, planId: nat): nat {
    if ops == [] then 0
    else GrantCount(ops[..|ops| - 1], planId) + if Grants(ops[|ops| - 1], planId) then 1 else 0
  }

  /** Whenever the endpoint sells the plan in this step, it is one-time and capped at `cap` or
      less; the row of the plan may change in between. */
  predicate CappedAt(op: Op, planId: nat, cap: int) {
    op.SubscribeOp? && op.plan.id == planId ==>
      op.plan.oneTime && op.plan.maxPurchases.Some? && op.plan.maxPurchases.value <= cap
  }

  lemma {:induction false} ChargePurchases(a: Account, now: Time, order: seq<nat>, cost: int, hasKey: bool, planId: nat)
    requires QueryOrder(a.subs, now, order)
    ensures Purchases(Charge(a, order, cost, hasKey).subs, planId) == Purchases(a.subs, planId)
  {
    hide Charge, Purchases;
    var b := Charge(a, order, cost, hasKey);
    ChargeRows(a, order, cost, hasKey);
    forall i | 0 <= i < |a.subs| ensures b.subs[i].planId == a.subs[i].planId {
      ChargeRow(a, now, order, cost, hasKey, i);
    }
    SamePurchases(b.subs, a.subs, planId);
  }

  lemma {:induction false} ChargeRows(a: Account, order: seq<nat>, cost: int, hasKey: bool)
    requires InRange(a.subs, order)
    ensures |Charge(a, order, cost, hasKey).subs| == |a.subs|
  {
  }

  lemma {:induction false} RefundPurchases(
      a: Account, now: Time, taken: seq<Take>, amount: int, hasKey: bool, planId: nat)
    requires NonNegative(taken)
    ensures Purchases(RefundTo(a, now, taken, amount, hasKey).subs, planId) == Purchases(a.subs, planId)
  {
    hide Purchases;
    var b := RefundTo(a, now, taken, amount, hasKey);
    assert |b.subs| == |a.subs|;
    forall i | 0 <= i < |a.subs| ensures b.subs[i].planId == a.subs[i].planId {
      RefundBySource(a, now, taken, amount, hasKey, i);
    }
    SamePurchases(b.subs, a.subs, planId);
  }

  lemma {:induction false} SubscribePurchases(a: Account, p: Plan, now: Time, planId: nat, cap: int)
    requires CappedAt(SubscribeOp(p, now), planId, cap)
    ensures var n, m := Purchases(a.subs, planId), Purchases(Subscribe(a, p, now).subs, planId);
            n <= m <= Max(cap, n)
  {
    hide InitialPeriodEnd;
    if SubscribeCheck(a, p, now) == Subscribed {
      PurchasesPush(a.subs, Subscribe(a, p, now).subs[|a.subs|], planId);
    }
  }

  /** A step never lowers the count; a grant raises it by one whatever the cap, a subscribe only
      up to the cap. */
  lemma {:induction false} StepPurchases(a: Account, op: Op, planId: nat, cap: int)
    requires Legal(a, op) && CappedAt(op, planId, cap)
    ensures var n, m := Purchases(a.subs, planId), Purchases(Apply(a, op).subs, planId);
            if Grants(op, planId) then m == n + 1 else n <= m <= Max(cap, n)
  {
    hide Purchases, Charge, RefundTo, Subscribe, InitialPeriodEnd;
    match op
    case TopupOp(_) =>
    case GrantOp(p, now) => PurchasesPush(a.subs, Apply(a, op).subs[|a.subs|], planId);
    case SubscribeOp(p, now) => SubscribePurchases(a, p, now, planId, cap);
    case ChargeOp(now, order, cost, hasKey) => ChargePurchases(a, now, order, cost, hasKey, planId);
    case RefundOp(now, taken, amount, hasKey) => RefundPurchases(a, now, taken, amount, hasKey, planId);
  }

  /** Over every run a capped plan is bought at most as often as its cap allows, plus once for
      each grant, counting every row it ever left. */
  lemma {:induction false} PurchasesBounded(a: Account, ops: seq<Op>, planId: nat, cap: int)
    requires LegalRun(a, ops) && forall k | 0 <= k < |ops| :: CappedAt(ops[k], planId, cap)
    ensures Purchases(a.subs, planId) <= Purchases(Run(a, ops).subs, planId)
    ensures Purchases(Run(a, ops).subs, planId) <= Max(cap, Purchases(a.subs, planId)) + GrantCount(ops, planId)
  {
    hide Apply, Legal;
    if ops != [] {
      PurchasesBounded(a, ops[..|ops| - 1], planId, cap);
      StepPurchases(Run(a, ops[..|ops| - 1]), ops[|ops| - 1], planId, cap);
    }
  }

  lemma {:induction false} LegalPrefix(a: Account, ops: seq<Op>, n: nat)
    requires LegalRun(a, ops) && n <= |ops|
    ensures LegalRun(a, ops[..n])
  {
    if n < |ops| {
      LegalPrefix(a, ops[..|ops| - 1], n);
      assert ops[..|ops| - 1][..n] == ops[..n];
    } else {
      assert ops[..n] == ops;
    }
  }

  /** The n-th step of a run grants the plan although its cap is already used up. */
  ghost predicate GrantsPastCap(a: Account, ops: seq<Op>, planId: nat, cap: int, n: nat)
    requires LegalRun(a, ops) && n < |ops|
  {
    LegalPrefix(a, ops, n);
    Grants(ops[n], planId) && Purchases(Run(a, ops[..n]).subs, planId) >= cap
  }

  lemma {:induction false} PastCapInPrefix(a: Account, ops: seq<Op>, planId: nat, cap: int, n: nat)
    requires LegalRun(a, ops) && n < |ops| - 1
    ensures GrantsPastCap(a, ops[..|ops| - 1], planId, cap, n) <==> GrantsPastCap(a, ops, planId, cap, n)
  {
    assert ops[..|ops| - 1][..n] == ops[..n];
  }

  /** From a count within the cap, a run stays within it if and only if it never grants the plan
      when the cap is already used up. */
  lemma {:induction false} PurchaseCapHoldsIff(a: Account, ops: seq<Op>, planId: nat, cap: int)
    requires LegalRun(a, ops) && Purchases(a.subs, planId) <= cap
    requires forall k | 0 <= k < |ops| :: CappedAt(ops[k], planId, cap)
    ensures Purchases(Run(a, ops).subs, planId) <= cap
            <==> forall n | 0 <= n < |ops| :: !GrantsPastCap(a, ops, planId, cap, n)
  {
    hide Apply, Legal, Purchases;
    if ops != [] {
      var last := |ops| - 1;
      PurchaseCapHoldsIff(a, ops[..last], planId, cap);
      StepPurchases(Run(a, ops[..last]), ops[last], planId, cap);
      forall n | 0 <= n < last
        ensures GrantsPastCap(a, ops[..last], planId, cap, n) <==> GrantsPastCap(a, ops, planId, cap, n)
      {
        PastCapInPrefix(a, ops, planId, cap, n);
      }
      assert GrantsPastCap(a, ops, planId, cap, last)
             <==> Grants(ops[last], planId) && Purchases(Run(a, ops[..last]).subs, planId) >= cap;
    }
  }

  lemma {:induction false} Then(a: Account, ops: seq<Op>, op: Op)
    requires LegalRun(a, ops) && Legal(Run(a, ops), op)
    ensures LegalRun(a, ops + [op]) && Run(a, ops + [op]) == Apply(Run(a, ops), op)
  {
    hide Legal, Apply;
    assert (ops + [op])[..|ops|] == ops;
  }

  lemma {:induction false} RunTwo(a: Account, x: Op, y: Op)
    requires Legal(a, x) && Legal(Apply(a, x), y)
    ensures LegalRun(a, [x, y]) && Run(a, [x, y]) == Apply(Apply(a, x), y)
  {
    assert LegalRun(a, []) && Run(a, []) == a;
    hide LegalRun, Run, Legal, Apply;
    Then(a, [], x);
    assert [] + [x] == [x];
    Then(a, [x], y);
    assert [x] + [y] == [x, y];
  }

  lemma {:induction false} GrantPurchases(a: Account, plan: Plan, now: Time)
    ensures Purchases(GrantPlan(a, plan, now).subs, plan.id) == Purchases(a.subs, plan.id) + 1
  {
    PurchasesPush(a.subs, GrantPlan(a, plan, now).subs[|a.subs|], plan.id);
  }

  /** A paid order does get past the cap: whenever a plan can still be bought with the balance, that
      purchase and an order for the same plan leave two more rows, however few the cap allowed. */
  lemma {:induction false} OrderPassesCap(a: Account, plan: Plan, now: Time)
    requires SubscribeCheck(a, plan, now) == Subscribed
    ensures var ops := [SubscribeOp(plan, now), GrantOp(plan, now)];
            LegalRun(a, ops) && Purchases(Run(a, ops).subs, plan.id) == Purchases(a.subs, plan.id) + 2
  {
    RunTwo(a, SubscribeOp(plan, now), GrantOp(plan, now));
    hide GrantPlan, SubscribeCheck, Purchases, Run, LegalRun;
    GrantPurchases(PayPrice(a, plan.price), plan, now);
    GrantPurchases(Subscribe(a, plan, now), plan, now);
  }

  /** So a plan meant to be sold once per user is sold twice. */
  lemma {:induction false} OnceIsTwice(now: Time)
    ensures var plan := Plan(7, 100, 50, true, 30, Some(1));
            var ops := [SubscribeOp(plan, now), GrantOp(plan, now)];
            var a := Account(100, [], 0, []);
            LegalRun(a, ops) && Purchases(Run(a, ops).subs, plan.id) == 2
  {
    OrderPassesCap(Account(100, [], 0, []), Plan(7, 100, 50, true, 30, Some(1)), now);
  }
}
