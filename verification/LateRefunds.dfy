/**
  Runs in which a charge may be refunded at any later time, in parts, and across renewals: the
  exact account of every row's quota, and when a refund can lift a row above its plan.
*/
module LateRefunds {
  import opened Prelude
  import opened Calendar
  import opened Billing
  import opened BillingStore
  import Lifecycle

  /** A charge of the run: its breakdown and how much of it was handed back so far. */
  datatype Hold = Hold(taken: seq<Take>, refunded: int)

  /** What happened to a row since it was last filled: how many charges the run had made by then,
      the quota it had, what charges took from it and what refunds credited to it. */
  datatype Meter = Meter(since: nat, base: int, taken: int, credited: int)

  datatype World = World(a: Account, holds: seq<Hold>, meters: seq<Meter>)

  /** A relay's hold and settlement are two steps here: a charge and a refund of it. */
  datatype Op =
    | Plain(op: Lifecycle.Op)
    | LateRefund(k: nat, now: Time, amount: int, hasKey: bool)

  ghost predicate Legal(w: World, op: Op) {
    && |w.meters| == |w.a.subs|
    && match op
       case Plain(p) => !p.RelayOp? && Lifecycle.Legal(w.a, p)
       case LateRefund(k, _, _, _) => k < |w.holds|
  }

  /** The step renews row i and fills it again. */
  predicate Refills(a: Account, plan: Plan, op: Lifecycle.Op, i: nat) {
    && op.RenewOp? && op.i == i < |a.subs|
    && Open(a.subs[i]) && !(a.subs[i].status.Active? && a.subs[i].periodEnd > op.now)
    && RenewCheck(a, i, Some(plan), op.userActive) == Renewed
  }

  function TakenBy(a: Account, op: Lifecycle.Op): seq<Take>
    requires op.ChargeOp? ==> InRange(a.subs, op.order)
  {
    if op.ChargeOp? then Breakdown(a.subs, op.order, op.cost) else []
  }

  ghost function NextMeter(w: World, plan: Plan, op: Lifecycle.Op, i: nat): Meter
    requires Legal(w, Plain(op))
  {
    if i >= |w.meters| || Refills(w.a, plan, op, i) then Meter(|w.holds|, plan.quota, 0, 0)
    else w.meters[i].(taken := w.meters[i].taken + AmountFrom(TakenBy(w.a, op), Quota(i)))
  }

  /** What a refund credits to row i. */
  function Credited(a: Account, now: Time, taken: seq<Take>, amount: int, i: nat): int {
    if amount <= 0 || taken == [] then 0 else AmountFrom(PlanRefund(a.subs, now, taken, amount).credits, Quota(i))
  }

  ghost function Apply(w: World, plan: Plan, op: Op): World
    requires Legal(w, op)
  {
    match op
    case Plain(p) =>
      var b := Lifecycle.Apply(w.a, plan, p);
      World(b,
            if p.ChargeOp? then w.holds + [Hold(TakenBy(w.a, p), 0)] else w.holds,
            seq(|b.subs|, i requires 0 <= i < |b.subs| && Legal(w, op) => NextMeter(w, plan, p, i)))
    case LateRefund(k, now, amount, hasKey) =>
      var h := w.holds[k];
      World(RefundTo(w.a, now, h.taken, amount, hasKey),
            w.holds[k := h.(refunded := h.refunded + RefundTotal(w.a, now, h.taken, amount))],
            seq(|w.meters|, i requires 0 <= i < |w.meters| =>
              w.meters[i].(credited := w.meters[i].credited + Credited(w.a, now, h.taken, amount, i))))
  }

  function Start(a: Account): World {
    World(a, [], seq(|a.subs|, i requires 0 <= i < |a.subs| => Meter(0, a.subs[i].remaining, 0, 0)))
  }

  ghost predicate LegalRun(a: Account, plan: Plan, ops: seq<Op>)
    decreases |ops|, 0
  {
    ops == [] ||
    (LegalRun(a, plan, ops[..|ops| - 1]) && Legal(Run(a, plan, ops[..|ops| - 1]), ops[|ops| - 1]))
  }

  ghost function Run(a: Account, plan: Plan, ops: seq<Op>): World
    requires LegalRun(a, plan, ops)
    decreases |ops|, 1
  {
    if ops == [] then Start(a) else Apply(Run(a, plan, ops[..|ops| - 1]), plan, ops[|ops| - 1])
  }

  ghost predicate Charges(w: World) {
    forall k | 0 <= k < |w.holds| :: NonNegative(w.holds[k].taken)
  }

  // ---- one step ---------------------------------------------------------------------------------

  /** Apart from charges, a step fills a row, leaves its quota alone, or empties it and suspends or
      closes it. */
  lemma {:induction false} PlainRow(a: Account, plan: Plan, op: Lifecycle.Op, i: nat)
    requires Lifecycle.Legal(a, op) && !op.ChargeOp? && !op.RelayOp? && i < |a.subs|
    ensures var b := Lifecycle.Apply(a, plan, op);
            && |b.subs| >= |a.subs|
            && if Refills(a, plan, op, i) then b.subs[i].remaining == plan.quota
               else || (b.subs[i].remaining == a.subs[i].remaining
                        && (b.subs[i].status.Active? ==> a.subs[i].status.Active?))
                    || (b.subs[i].remaining == 0 && !b.subs[i].status.Active?)
  {
    hide NextPeriodEnd, ProratedRefund, InitialPeriodEnd;
  }

  lemma {:induction false} NewRow(a: Account, plan: Plan, op: Lifecycle.Op)
    requires Lifecycle.Legal(a, op)
    ensures var b := Lifecycle.Apply(a, plan, op);
            && |b.subs| >= |a.subs|
            && forall i | |a.subs| <= i < |b.subs| ::
                 b.subs[i].remaining == plan.quota && Lifecycle.Sane(plan, b.subs[i])
  {
    Lifecycle.StepLength(a, plan, op);
    if op.GrantOp? { hide NextPeriodEnd; }
  }

  lemma {:induction false} RefundRow(a: Account, now: Time, ts: seq<Take>, amount: int, hasKey: bool, i: nat)
    requires NonNegative(ts) && i < |a.subs|
    ensures var b := RefundTo(a, now, ts, amount, hasKey);
            && |b.subs| == |a.subs|
            && b.subs[i] == a.subs[i].(remaining := a.subs[i].remaining + Credited(a, now, ts, amount, i))
            && (!Serving(a.subs[i], now) ==> Credited(a, now, ts, amount, i) == 0)
  {
    RefundBySource(a, now, ts, amount, hasKey, i);
    if amount > 0 && ts != [] { CreditAt(a.subs, PlanRefund(a.subs, now, ts, amount).credits, i); }
  }

  lemma {:induction false} StepCharges(w: World, plan: Plan, op: Op)
    requires Legal(w, op) && Charges(w)
    ensures Charges(Apply(w, plan, op))
  {
    if op.Plain? && op.op.ChargeOp? {
      ChargeConserves(w.a, op.op.now, op.op.order, op.op.cost, op.op.hasKey);
    }
  }

  // ---- the account of a row's quota -------------------------------------------------------------

  /** An active row holds what it was filled with, less what charges took, plus what refunds put
      back, all since it was last filled. */
  ghost predicate Metered(w: World) {
    && |w.meters| == |w.a.subs|
    && forall i | 0 <= i < |w.a.subs| && w.a.subs[i].status.Active? ::
         w.a.subs[i].remaining == w.meters[i].base - w.meters[i].taken + w.meters[i].credited
  }

  lemma {:induction false} ChargeMetered(w: World, plan: Plan, p: Lifecycle.Op)
    requires Legal(w, Plain(p)) && p.ChargeOp? && Metered(w)
    ensures Metered(Apply(w, plan, Plain(p)))
  {
    hide Charge, Breakdown, AmountFrom;
    var w' := Apply(w, plan, Plain(p));
    Lifecycle.StepLength(w.a, plan, p);
    forall i | 0 <= i < |w.a.subs|
      ensures w'.a.subs[i].status == w.a.subs[i].status
      ensures w'.a.subs[i].remaining == w.a.subs[i].remaining - AmountFrom(TakenBy(w.a, p), Quota(i))
    {
      ChargeRow(w.a, p.now, p.order, p.cost, p.hasKey, i);
      ChargeBySource(w.a, p.now, p.order, p.cost, p.hasKey, Quota(i));
    }
  }

  lemma {:induction false} PlainMetered(w: World, plan: Plan, p: Lifecycle.Op)
    requires Legal(w, Plain(p)) && !p.ChargeOp? && Metered(w)
    ensures Metered(Apply(w, plan, Plain(p)))
  {
    hide Lifecycle.Apply, Lifecycle.Legal, Refills;
    var w' := Apply(w, plan, Plain(p));
    NewRow(w.a, plan, p);
    forall i | 0 <= i < |w'.a.subs| && w'.a.subs[i].status.Active?
      ensures w'.a.subs[i].remaining == w'.meters[i].base - w'.meters[i].taken + w'.meters[i].credited
    {
      if i < |w.a.subs| { PlainRow(w.a, plan, p, i); }
    }
  }

  lemma {:induction false} StepMetered(w: World, plan: Plan, op: Op)
    requires Legal(w, op) && Charges(w) && Metered(w)
    ensures Metered(Apply(w, plan, op))
  {
    match op
    case Plain(p) =>
      if p.ChargeOp? { ChargeMetered(w, plan, p); } else { PlainMetered(w, plan, p); }
    case LateRefund(k, now, amount, hasKey) =>
      hide RefundTo, Credited, RefundTotal;
      var taken := w.holds[k].taken;
      forall i | 0 <= i < |w.a.subs|
        ensures |RefundTo(w.a, now, taken, amount, hasKey).subs| == |w.a.subs|
        ensures RefundTo(w.a, now, taken, amount, hasKey).subs[i]
                == w.a.subs[i].(remaining := w.a.subs[i].remaining + Credited(w.a, now, taken, amount, i))
      {
        RefundRow(w.a, now, taken, amount, hasKey, i);
      }
      SameLength(w.a, now, taken, amount, hasKey);
  }

  lemma {:induction false} SameLength(a: Account, now: Time, ts: seq<Take>, amount: int, hasKey: bool)
    ensures |RefundTo(a, now, ts, amount, hasKey).subs| == |a.subs|
  {
  }

  /** In every run, with any refunds of any of its charges at any time: a row filled during the run
      is within its plan if and only if no more was credited to it than taken from it since it was
      last filled. */
  lemma {:induction false} WithinPlanIff(a: Account, plan: Plan, ops: seq<Op>)
    requires LegalRun(a, plan, ops)
    ensures var w := Run(a, plan, ops);
            && Charges(w) && Metered(w)
            && forall i | 0 <= i < |w.a.subs| && w.a.subs[i].status.Active? && w.meters[i].base == plan.quota ::
                 w.a.subs[i].remaining <= plan.quota <==> w.meters[i].credited <= w.meters[i].taken
  {
    hide Apply, Legal;
    if ops != [] {
      WithinPlanIff(a, plan, ops[..|ops| - 1]);
      StepCharges(Run(a, plan, ops[..|ops| - 1]), plan, ops[|ops| - 1]);
      StepMetered(Run(a, plan, ops[..|ops| - 1]), plan, ops[|ops| - 1]);
    }
  }

  // ---- fair refunds -----------------------------------------------------------------------------

  /** A refund is fair if none of the rows its charge drew on was filled again in between, and it
      does not bring what is handed back for that charge above what the charge took. */
  ghost predicate Fair(w: World, op: Op)
    requires Legal(w, op)
  {
    op.LateRefund? ==>
      var h := w.holds[op.k];
      && (forall i | 0 <= i < |w.meters| && AmountFrom(h.taken, Quota(i)) > 0 :: w.meters[i].since <= op.k)
      && h.refunded + Max(0, Min(op.amount, Amounts(h.taken))) <= Amounts(h.taken)
  }

  ghost predicate FairRun(a: Account, plan: Plan, ops: seq<Op>)
    requires LegalRun(a, plan, ops)
  {
    ops == [] ||
    (FairRun(a, plan, ops[..|ops| - 1]) && Fair(Run(a, plan, ops[..|ops| - 1]), ops[|ops| - 1]))
  }

  /** Row i is the last source the charge drew on, after other rows only. */
  ghost predicate LastFrom(ts: seq<Take>, i: nat) {
    && ts != [] && ts[|ts| - 1].source == Quota(i)
    && AmountFrom(ts[..|ts| - 1], Quota(i)) == 0 && AmountFrom(ts[..|ts| - 1], Wallet) == 0
  }

  /** The share of a row a charge drew on. */
  lemma {:induction false} ShareOf(a: Account, now: Time, order: seq<nat>, cost: int, hasKey: bool, i: nat)
    returns (j: nat)
    requires QueryOrder(a.subs, now, order) && i < |a.subs|
    requires AmountFrom(Breakdown(a.subs, order, cost), Quota(i)) > 0
    ensures cost > 0 && j < |order| && order[j] == i
    ensures Share(a.subs, order, cost, j) == AmountFrom(Breakdown(a.subs, order, cost), Quota(i))
    ensures |Charge(a, order, cost, hasKey).subs| == |a.subs|
    ensures Charge(a, order, cost, hasKey).subs[i].remaining == a.subs[i].remaining - Share(a.subs, order, cost, j)
  {
    ChargeRow(a, now, order, cost, hasKey, i);
    ChargeBySource(a, now, order, cost, hasKey, Quota(i));
    hide Breakdown;
    assert Charge(a, order, cost, hasKey) != a;
    assert i in order;
    j :| 0 <= j < |order| && order[j] == i;
    DrainedAt(a.subs, order, now, cost, j, |order|);
  }

  /** A row a charge drew on without emptying it is the last one it drew on. */
  lemma {:induction false} ChargeLast(subs: seq<Sub>, order: seq<nat>, now: Time, cost: int, j: nat)
    requires QueryOrder(subs, now, order) && cost > 0 && j < |order|
    requires 0 < Share(subs, order, cost, j) < subs[order[j]].remaining
    ensures LastFrom(Breakdown(subs, order, cost), order[j])
  {
    assert cost < Before(subs, order, j + 1);
    hide Share, Before, Takes, LastFrom;
    DrainStops(subs, order, now, cost, j + 1);
    LastTake(subs, order, now, cost, j);
    assert Takes(subs, order, cost, j + 1) + [] == Takes(subs, order, cost, j + 1);
  }

  lemma {:induction false} LastTake(subs: seq<Sub>, order: seq<nat>, now: Time, cost: int, j: nat)
    requires QueryOrder(subs, now, order) && j < |order| && Share(subs, order, cost, j) > 0
    ensures LastFrom(Takes(subs, order, cost, j + 1), order[j])
  {
    var before := Takes(subs, order, cost, j);
    DrainedElsewhereAt(subs, order, now, cost, j);
    TakesBySource(subs, order, cost, j, Quota(order[j]));
    TakesBySource(subs, order, cost, j, Wallet);
    assert Takes(subs, order, cost, j + 1)[..|before|] == before;
  }

  /** A refund reaches the last source of a charge only with what the others leave of it. */
  lemma {:induction false} SplitLast(subs: seq<Sub>, now: Time, ts: seq<Take>, left: int, i: nat)
    requires NonNegative(ts) && LastFrom(ts, i) && left >= 0
    ensures AmountFrom(SplitRefund(subs, now, ts, left).credits, Quota(i))
            <= Max(0, left - (Amounts(ts) - AmountFrom(ts, Quota(i))))
  {
    hide Amounts, AmountFrom, SplitRefund, Live;
    var init, last := ts[..|ts| - 1], ts[|ts| - 1];
    Unfolded(subs, now, ts, left, Quota(i));
    SplitTotals(subs, now, init, left);
    SplitFromSource(subs, now, init, left, Quota(i));
    var p := SplitRefund(subs, now, init, left);
    PushedAmounts(p.credits, Take(last.source, Min(last.amount, p.left)), Quota(i));
  }

  lemma {:induction false} CreditLast(a: Account, now: Time, ts: seq<Take>, amount: int, i: nat)
    requires NonNegative(ts) && LastFrom(ts, i)
    ensures Credited(a, now, ts, amount, i) <= Max(0, amount - (Amounts(ts) - AmountFrom(ts, Quota(i))))
  {
    if amount > 0 {
      Unfolded(a.subs, now, ts, amount, Wallet);
      hide Amounts, AmountFrom, SplitRefund;
      SplitLast(a.subs, now, ts, amount, i);
    }
  }

  // ---- what charges can still bring back --------------------------------------------------------

  /** The most a charge can still return to row i. */
  function Part(h: Hold, i: nat): int {
    Min(AmountFrom(h.taken, Quota(i)), Amounts(h.taken) - h.refunded)
  }

  function Returnable(holds: seq<Hold>, i: nat, since: nat): int {
    if |holds| <= since then 0
    else Returnable(holds[..|holds| - 1], i, since) + Part(holds[|holds| - 1], i)
  }

  lemma {:induction false} ReturnableAfter(holds: seq<Hold>, k: nat, h: Hold, i: nat, since: nat)
    requires k < |holds|
    ensures Returnable(holds[k := h], i, since)
            == Returnable(holds, i, since) + if k >= since then Part(h, i) - Part(holds[k], i) else 0
  {
    hide Part;
    var n := |holds| - 1;
    if n >= since {
      if k == n {
        assert holds[k := h][..n] == holds[..n];
      } else {
        assert holds[k := h][..n] == holds[..n][k := h];
        ReturnableAfter(holds[..n], k, h, i, since);
      }
    }
  }

  lemma {:induction false} ReturnablePush(holds: seq<Hold>, h: Hold, i: nat, since: nat)
    requires since <= |holds|
    ensures Returnable(holds + [h], i, since) == Returnable(holds, i, since) + Part(h, i)
  {
    assert (holds + [h])[..|holds|] == holds;
  }

  /** No charge was refunded beyond what it took. */
  ghost predicate Accounted(holds: seq<Hold>) {
    forall k | 0 <= k < |holds| ::
      NonNegative(holds[k].taken) && 0 <= holds[k].refunded <= Amounts(holds[k].taken)
  }

  /** Row i is sane, and, unless it is empty, it and all that the charges made since it was filled
      can still return stay within the plan; each of these that drew on it drew on it last. */
  ghost predicate HasRoom(plan: Plan, s: Sub, holds: seq<Hold>, i: nat, since: nat) {
    && Lifecycle.Sane(plan, s) && since <= |holds|
    && (s.remaining > 0 ==>
          && s.remaining + Returnable(holds, i, since) <= plan.quota
          && forall k | since <= k < |holds| && AmountFrom(holds[k].taken, Quota(i)) > 0 :: LastFrom(holds[k].taken, i))
  }

  ghost predicate Roomy(w: World, plan: Plan) {
    && |w.meters| == |w.a.subs| && Accounted(w.holds)
    && forall i | 0 <= i < |w.a.subs| :: HasRoom(plan, w.a.subs[i], w.holds, i, w.meters[i].since)
  }

  lemma {:induction false} ChargeRowRoom(w: World, plan: Plan, p: Lifecycle.Op, i: nat)
    requires Legal(w, Plain(p)) && p.ChargeOp? && Roomy(w, plan) && i < |w.a.subs|
    ensures var w' := Apply(w, plan, Plain(p));
            |w'.a.subs| == |w.a.subs| && HasRoom(plan, w'.a.subs[i], w'.holds, i, w'.meters[i].since)
  {
    hide Charge, Breakdown, AmountFrom, Amounts, LastFrom, Returnable;
    var taken := TakenBy(w.a, p);
    var h := Hold(taken, 0);
    ChargeRow(w.a, p.now, p.order, p.cost, p.hasKey, i);
    ChargeBySource(w.a, p.now, p.order, p.cost, p.hasKey, Quota(i));
    ChargeConserves(w.a, p.now, p.order, p.cost, p.hasKey);
    ReturnablePush(w.holds, h, i, w.meters[i].since);
    if AmountFrom(taken, Quota(i)) > 0 {
      var j := ShareOf(w.a, p.now, p.order, p.cost, p.hasKey, i);
      if Share(w.a.subs, p.order, p.cost, j) < w.a.subs[i].remaining {
        ChargeLast(w.a.subs, p.order, p.now, p.cost, j);
      }
    }
  }

  lemma {:induction false} PlainRowRoom(w: World, plan: Plan, p: Lifecycle.Op, i: nat)
    requires Legal(w, Plain(p)) && !p.ChargeOp? && Roomy(w, plan) && i < |w.a.subs|
    ensures var w' := Apply(w, plan, Plain(p));
            |w'.a.subs| >= |w.a.subs| && HasRoom(plan, w'.a.subs[i], w'.holds, i, w'.meters[i].since)
  {
    PlainRow(w.a, plan, p, i);
    Lifecycle.StepRow(w.a, plan, p, i);
    hide Lifecycle.Apply, Lifecycle.Legal, Refills, LastFrom, Amounts, Lifecycle.RowStep;
  }

  lemma {:induction false} FromWithin(ts: seq<Take>, s: Source)
    requires NonNegative(ts)
    ensures 0 <= AmountFrom(ts, s) <= Amounts(ts)
  {
    if ts != [] { FromWithin(ts[..|ts| - 1], s); }
  }

  /** What a refund credits to a row it may still credit, the charge can no longer return. */
  lemma {:induction false} PartShrinks(a: Account, now: Time, h: Hold, amount: int, hasKey: bool, i: nat)
    requires NonNegative(h.taken) && LastFrom(h.taken, i) && 0 <= h.refunded && i < |a.subs|
    requires h.refunded + RefundTotal(a, now, h.taken, amount) <= Amounts(h.taken)
    ensures var h' := h.(refunded := h.refunded + RefundTotal(a, now, h.taken, amount));
            Credited(a, now, h.taken, amount, i) + Part(h', i) <= Part(h, i)
  {
    hide RefundTo, Credited, RefundTotal, AmountFrom, Amounts, LastFrom;
    RefundRow(a, now, h.taken, amount, hasKey, i);
    RefundConserves(a, now, h.taken, amount, hasKey);
    RefundBySource(a, now, h.taken, amount, hasKey, i);
    FromWithin(h.taken, Quota(i));
    CreditLast(a, now, h.taken, amount, i);
  }

  lemma {:induction false} ReturnableNonNegative(holds: seq<Hold>, i: nat, since: nat)
    requires Accounted(holds)
    ensures Returnable(holds, i, since) >= 0
  {
    if |holds| > since {
      FromWithin(holds[|holds| - 1].taken, Quota(i));
      ReturnableNonNegative(holds[..|holds| - 1], i, since);
    }
  }

  lemma {:induction false} RefundAccounted(w: World, plan: Plan, op: Op)
    requires Legal(w, op) && op.LateRefund? && Fair(w, op) && Accounted(w.holds)
    ensures Accounted(Apply(w, plan, op).holds)
  {
    hide RefundTo, RefundTotal, Amounts;
    RefundConserves(w.a, op.now, w.holds[op.k].taken, op.amount, op.hasKey);
  }

  lemma {:induction false} RefundRowRoom(w: World, plan: Plan, op: Op, i: nat)
    requires Legal(w, op) && op.LateRefund? && Fair(w, op) && Roomy(w, plan) && i < |w.a.subs|
    ensures var w' := Apply(w, plan, op);
            |w'.a.subs| == |w.a.subs| && HasRoom(plan, w'.a.subs[i], w'.holds, i, w'.meters[i].since)
  {
    hide RefundTo, Credited, RefundTotal, AmountFrom, Amounts, LastFrom, Returnable;
    var h, s := w.holds[op.k], w.a.subs[i];
    var h' := h.(refunded := h.refunded + RefundTotal(w.a, op.now, h.taken, op.amount));
    RefundRow(w.a, op.now, h.taken, op.amount, op.hasKey, i);
    RefundBySource(w.a, op.now, h.taken, op.amount, op.hasKey, i);
    RefundAccounted(w, plan, op);
    ReturnableAfter(w.holds, op.k, h', i, w.meters[i].since);
    ReturnableNonNegative(w.holds[op.k := h'], i, w.meters[i].since);
    FromWithin(h.taken, Quota(i));
    if s.remaining > 0 {
      if AmountFrom(h.taken, Quota(i)) > 0 {
        RefundConserves(w.a, op.now, h.taken, op.amount, op.hasKey);
        PartShrinks(w.a, op.now, h, op.amount, op.hasKey, i);
      }
      hide Part;
      assert forall k | 0 <= k < |w.holds| :: w.holds[op.k := h'][k].taken == w.holds[k].taken;
    }
  }

  lemma {:induction false} StepRoomy(w: World, plan: Plan, op: Op)
    requires Legal(w, op) && Fair(w, op) && Roomy(w, plan)
    ensures Roomy(Apply(w, plan, op), plan)
  {
    hide HasRoom, Fair;
    var w' := Apply(w, plan, op);
    match op
    case LateRefund(k, now, amount, hasKey) =>
      RefundAccounted(w, plan, op);
      SameLength(w.a, now, w.holds[k].taken, amount, hasKey);
      forall i | 0 <= i < |w.a.subs| ensures HasRoom(plan, w'.a.subs[i], w'.holds, i, w'.meters[i].since) {
        RefundRowRoom(w, plan, op, i);
      }
    case Plain(p) =>
      StepAccounted(w, plan, p);
      NewRow(w.a, plan, p);
      forall i | 0 <= i < |w'.a.subs| ensures HasRoom(plan, w'.a.subs[i], w'.holds, i, w'.meters[i].since) {
        if i >= |w.a.subs| {
          NewRowRoom(w, plan, p, i);
        } else if p.ChargeOp? {
          ChargeRowRoom(w, plan, p, i);
        } else {
          PlainRowRoom(w, plan, p, i);
        }
      }
  }

  lemma {:induction false} StepAccounted(w: World, plan: Plan, p: Lifecycle.Op)
    requires Legal(w, Plain(p)) && Accounted(w.holds)
    ensures Accounted(Apply(w, plan, Plain(p)).holds)
  {
    if p.ChargeOp? { ChargeConserves(w.a, p.now, p.order, p.cost, p.hasKey); }
  }

  lemma {:induction false} NewRowRoom(w: World, plan: Plan, p: Lifecycle.Op, i: nat)
    requires Legal(w, Plain(p)) && |w.a.subs| <= i < |Lifecycle.Apply(w.a, plan, p).subs|
    ensures var w' := Apply(w, plan, Plain(p));
            HasRoom(plan, w'.a.subs[i], w'.holds, i, w'.meters[i].since)
  {
    NewRow(w.a, plan, p);
    Lifecycle.StepLength(w.a, plan, p);
    hide Lifecycle.Apply;
  }

  /** In every run whose refunds are fair, from sane rows, every row stays sane: its quota is never
      negative and never above the plan's. */
  lemma {:induction false} FairRunsStayWithinPlan(a: Account, plan: Plan, ops: seq<Op>)
    requires LegalRun(a, plan, ops) && FairRun(a, plan, ops)
    requires forall i | 0 <= i < |a.subs| :: Lifecycle.Sane(plan, a.subs[i])
    ensures var w := Run(a, plan, ops);
            && Roomy(w, plan)
            && forall i | 0 <= i < |w.a.subs| :: Lifecycle.Sane(plan, w.a.subs[i])
  {
    hide Apply, Legal, Fair;
    if ops != [] {
      FairRunsStayWithinPlan(a, plan, ops[..|ops| - 1]);
      StepRoomy(Run(a, plan, ops[..|ops| - 1]), plan, ops[|ops| - 1]);
    }
  }

  // ---- both halves of fairness are needed -------------------------------------------------------

  const HUNDRED: Plan := Plan(1, 0, 100, false, 0, None)

  /** A full row of that plan. */
  function FullRow(start: Time): Account {
    Account(0, [Sub(HUNDRED.id, start, start + 1, Active, HUNDRED.quota, false)], 0, [])
  }

  function Charge40(start: Time): Op { Plain(Lifecycle.ChargeOp(start, [0], 40, false)) }

  lemma {:induction false} Then(a: Account, plan: Plan, ops: seq<Op>, op: Op)
    requires LegalRun(a, plan, ops) && Legal(Run(a, plan, ops), op)
    ensures LegalRun(a, plan, ops + [op]) && Run(a, plan, ops + [op]) == Apply(Run(a, plan, ops), plan, op)
  {
    hide Apply, Legal;
    assert (ops + [op])[..|ops|] == ops;
  }

  lemma {:induction false} AfterCharge40(start: Time)
    ensures LegalRun(FullRow(start), HUNDRED, [Charge40(start)])
    ensures var w := Run(FullRow(start), HUNDRED, [Charge40(start)]);
            && w.a.subs == [FullRow(start).subs[0].(remaining := 60)] && w.a.wallet == 0
            && w.holds == [Hold([Take(Quota(0), 40)], 0)] && |w.meters| == 1
  {
    var a := FullRow(start);
    var order: seq<nat> := [0];
    assert QueryOrder(a.subs, start, order);
    Then(a, HUNDRED, [], Charge40(start));
    assert [] + [Charge40(start)] == [Charge40(start)];
    assert Before(a.subs, order, 0) == 0 && Before(a.subs, order, 1) == 100;
    assert Share(a.subs, order, 40, 0) == 40;
    assert Takes(a.subs, order, 40, 0) == [] && Drained(a.subs, order, 40, 0) == a.subs;
    assert Takes(a.subs, order, 40, 1) == [Take(Quota(0), 40)];
    assert Breakdown(a.subs, order, 40) == [Take(Quota(0), 40)];
  }

  /** A refund of all 40 adds them to a row that still serves. */
  lemma {:induction false} Refund40(w: World, now: Time)
    requires |w.a.subs| == |w.meters| == 1 && Serving(w.a.subs[0], now)
    requires |w.holds| == 1 && w.holds[0].taken == [Take(Quota(0), 40)]
    ensures var w' := Apply(w, HUNDRED, LateRefund(0, now, 40, false));
            && w'.a.subs == [w.a.subs[0].(remaining := w.a.subs[0].remaining + 40)]
            && |w'.holds| == 1 && w'.holds[0].taken == w.holds[0].taken && |w'.meters| == 1
  {
    var taken := [Take(Quota(0), 40)];
    assert [] + taken == taken;
    PushedAmounts([], taken[0], Quota(0));
    hide RefundTo;
    RefundBySource(w.a, now, taken, 40, false, 0);
  }

  /** Charge, renew, refund: the row holds 140 of 100. */
  lemma {:induction false} RefundAcrossRenewal(start: Time)
    ensures var renew, refund := Plain(Lifecycle.RenewOp(0, true, start + 1)), LateRefund(0, start + 1, 40, false);
            var ops := [Charge40(start), renew, refund];
            && LegalRun(FullRow(start), HUNDRED, ops)
            && var b := Run(FullRow(start), HUNDRED, ops).a;
               |b.subs| == 1 && b.subs[0].remaining == 140
  {
    var a := FullRow(start);
    var renew, refund := Plain(Lifecycle.RenewOp(0, true, start + 1)), LateRefund(0, start + 1, 40, false);
    AfterCharge40(start);
    hide LegalRun, Run;
    var first, second := [Charge40(start)], [Charge40(start), renew];
    Then(a, HUNDRED, first, renew);
    assert first + [renew] == second;
    Then(a, HUNDRED, second, refund);
    assert second + [refund] == [Charge40(start), renew, refund];
    Refund40(Run(a, HUNDRED, second), start + 1);
  }

  /** Charge and refund twice: 140 of 100 again, without any renewal. */
  lemma {:induction false} RefundTwice(start: Time)
    ensures var refund := LateRefund(0, start, 40, false);
            var ops := [Charge40(start), refund, refund];
            && LegalRun(FullRow(start), HUNDRED, ops)
            && var b := Run(FullRow(start), HUNDRED, ops).a;
               |b.subs| == 1 && b.subs[0].remaining == 140
  {
    var a, refund := FullRow(start), LateRefund(0, start, 40, false);
    AfterCharge40(start);
    hide LegalRun, Run;
    var first, second := [Charge40(start)], [Charge40(start), refund];
    Refund40(Run(a, HUNDRED, first), start);
    Then(a, HUNDRED, first, refund);
    assert first + [refund] == second;
    Refund40(Run(a, HUNDRED, second), start);
    Then(a, HUNDRED, second, refund);
    assert second + [refund] == [Charge40(start), refund, refund];
  }
}
