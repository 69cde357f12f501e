/** Runs of one plan's subscriptions: what every operation keeps, and the renewal worker. */
module Lifecycle {
  import opened Prelude
  import opened Calendar
  import opened Billing
  import opened BillingStore

  /** Operations of the relay, the endpoints and the worker. An image relay holds, then settles
      part of its own hold later in the same transaction. */
  datatype Op =
    | TopupOp(amount: int)
    | GrantOp(now: Time)
    | ChargeOp(now: Time, order: seq<nat>, cost: int, hasKey: bool)
    | RelayOp(hold: Time, order: seq<nat>, cost: int, settle: Time, refund: int, hasKey: bool)
    | RenewOp(i: nat, userActive: bool, now: Time)
    | CancelOp(i: nat, mode: CancelMode, now: Time)
    | ResumeOp(i: nat)

  ghost predicate Legal(a: Account, op: Op) {
    match op
    case ChargeOp(now, order, _, _) => QueryOrder(a.subs, now, order)
    case RelayOp(hold, order, _, _, _, _) => QueryOrder(a.subs, hold, order)
    case RenewOp(i, _, _) => i < |a.subs|
    case CancelOp(i, _, _) => i < |a.subs|
    case ResumeOp(i) => i < |a.subs|
    case _ => true
  }

  function Relay(a: Account, order: seq<nat>, cost: int, settle: Time, refund: int, hasKey: bool): Account
    requires InRange(a.subs, order)
  {
    RefundTo(Charge(a, order, cost, hasKey), settle, Breakdown(a.subs, order, cost), refund, hasKey)
  }

  ghost function Apply(a: Account, plan: Plan, op: Op): Account
    requires Legal(a, op)
  {
    match op
    case TopupOp(amount) => TopUp(a, amount)
    case GrantOp(now) => GrantPlan(a, plan, now)
    case ChargeOp(now, order, cost, hasKey) => Charge(a, order, cost, hasKey)
    case RelayOp(hold, order, cost, settle, refund, hasKey) => Relay(a, order, cost, settle, refund, hasKey)
    case RenewOp(i, userActive, now) => RenewNow(a, i, Some(plan), userActive, now)
    case CancelOp(i, mode, now) => Cancel(a, i, mode, Some(plan), now)
    case ResumeOp(i) => Resume(a, i)
  }

  ghost predicate LegalRun(a: Account, plan: Plan, ops: seq<Op>)
    decreases |ops|, 0
  {
    ops == [] ||
    (LegalRun(a, plan, ops[..|ops| - 1]) && Legal(Run(a, plan, ops[..|ops| - 1]), ops[|ops| - 1]))
  }

  ghost function Run(a: Account, plan: Plan, ops: seq<Op>): Account
    requires LegalRun(a, plan, ops)
    decreases |ops|, 1
  {
    if ops == [] then a else Apply(Run(a, plan, ops[..|ops| - 1]), plan, ops[|ops| - 1])
  }

  // ---- one row across one step ------------------------------------------------------------------

  predicate Sane(plan: Plan, s: Sub) {
    && 0 <= s.remaining <= plan.quota
    && (s.status.PastDue? ==> s.remaining == 0)
    && (Open(s) ==> s.periodStart < s.periodEnd)
  }

  predicate Advanced(plan: Plan, s: Sub, s': Sub) {
    && Open(s) && s'.status.Active?
    && s'.periodStart == s.periodEnd && s'.periodEnd == NextPeriodEnd(s.periodEnd)
    && s'.remaining == plan.quota
    && s'.planId == s.planId && s'.cancelAtPeriodEnd == s.cancelAtPeriodEnd
  }

  /** What a step may do to a row: spend its quota, schedule or unschedule its end, advance it by
      one period, or close it. */
  predicate RowStep(plan: Plan, s: Sub, s': Sub) {
    || (s'.(remaining := s.remaining, cancelAtPeriodEnd := s.cancelAtPeriodEnd) == s
        && 0 <= s'.remaining <= s.remaining && (Open(s) || s' == s))
    || Advanced(plan, s, s')
    || (Open(s) && s' == s.(status := PastDue, remaining := 0))
    || (Open(s) && s'.status.Expired? && s'.(status := s.status, remaining := s.remaining) == s
        && (s'.remaining == s.remaining || s'.remaining == 0))
    || (Open(s) && s'.status.Canceled? && s'.remaining == 0 && s'.periodStart == s.periodStart)
  }

  lemma {:induction false} RelayRow(
      a: Account, hold: Time, order: seq<nat>, cost: int, settle: Time, refund: int, hasKey: bool, i: nat)
    requires QueryOrder(a.subs, hold, order) && i < |a.subs|
    ensures var b := Relay(a, order, cost, settle, refund, hasKey);
            && |b.subs| == |a.subs|
            && b.subs[i] == a.subs[i].(remaining := b.subs[i].remaining)
            && b.subs[i].remaining <= a.subs[i].remaining
            && (b.subs[i] != a.subs[i] ==> Serving(a.subs[i], hold) && b.subs[i].remaining >= 0)
  {
    var c := Charge(a, order, cost, hasKey);
    var taken := Breakdown(a.subs, order, cost);
    ChargeConserves(a, hold, order, cost, hasKey);
    ChargeRow(a, hold, order, cost, hasKey, i);
    ChargeBySource(a, hold, order, cost, hasKey, Quota(i));
    RefundBySource(c, settle, taken, refund, hasKey, i);
  }

  lemma {:induction false} RenewRow(a: Account, plan: Plan, i: nat, userActive: bool, now: Time, j: nat)
    requires i < |a.subs| && j < |a.subs| && Sane(plan, a.subs[j])
    ensures var b := RenewNow(a, i, Some(plan), userActive, now);
            |b.subs| == |a.subs| && RowStep(plan, a.subs[j], b.subs[j]) && Sane(plan, b.subs[j])
  {
    hide NextPeriodEnd;
  }

  lemma {:induction false} StepRow(a: Account, plan: Plan, op: Op, i: nat)
    requires Legal(a, op) && i < |a.subs| && Sane(plan, a.subs[i])
    ensures var b := Apply(a, plan, op);
            |b.subs| >= |a.subs| && RowStep(plan, a.subs[i], b.subs[i]) && Sane(plan, b.subs[i])
  {
    hide Drained, Takes, ProratedRefund, PlanRefund, AmountFrom, NextPeriodEnd, InitialPeriodEnd, Advanced;
    match op
    case RenewOp(k, userActive, now) =>
      RenewRow(a, plan, k, userActive, now, i);
      hide RenewNow, RowStep;
    case ChargeOp(now, order, cost, hasKey) => ChargeRow(a, now, order, cost, hasKey, i);
    case RelayOp(hold, order, cost, settle, refund, hasKey) =>
      RelayRow(a, hold, order, cost, settle, refund, hasKey, i);
    case _ =>
  }

  /** A step that advances a row is a paid renewal: the wallet loses exactly one price and does
      not go below zero, and one row records it. */
  lemma {:induction false} AdvanceCostsOnePrice(a: Account, plan: Plan, op: Op, i: nat)
    requires Legal(a, op) && i < |a.subs| && Sane(plan, a.subs[i])
    requires Apply(a, plan, op).subs[i].periodStart != a.subs[i].periodStart
    ensures var b := Apply(a, plan, op);
            && Advanced(plan, a.subs[i], b.subs[i])
            && b.wallet == a.wallet - plan.price >= 0
            && b.txs == (if plan.price > 0 then a.txs + [Tx(Consume, 0 - plan.price, b.wallet)] else a.txs)
  {
    match op
    case ChargeOp(now, order, cost, hasKey) => ChargeRow(a, now, order, cost, hasKey, i);
    case RelayOp(hold, order, cost, settle, refund, hasKey) =>
      RelayRow(a, hold, order, cost, settle, refund, hasKey, i);
    case _ =>
  }

  // ---- whole runs -------------------------------------------------------------------------------

  /** Every row of every run stays sane, and a closed row never changes again. */
  lemma {:induction false} RunRow(a: Account, plan: Plan, ops: seq<Op>, i: nat)
    requires LegalRun(a, plan, ops) && i < |a.subs| && Sane(plan, a.subs[i])
    ensures var b := Run(a, plan, ops);
            && |b.subs| >= |a.subs| && Sane(plan, b.subs[i])
            && (!Open(a.subs[i]) ==> b.subs[i] == a.subs[i])
  {
    if ops != [] {
      RunRow(a, plan, ops[..|ops| - 1], i);
      StepRow(Run(a, plan, ops[..|ops| - 1]), plan, ops[|ops| - 1], i);
    }
  }

  /** Rows granted during a run are sane too. */
  lemma {:induction false} RunSane(a: Account, plan: Plan, ops: seq<Op>)
    requires LegalRun(a, plan, ops) && forall i | 0 <= i < |a.subs| :: Sane(plan, a.subs[i])
    ensures forall i | 0 <= i < |Run(a, plan, ops).subs| :: Sane(plan, Run(a, plan, ops).subs[i])
  {
    if ops != [] {
      RunSane(a, plan, ops[..|ops| - 1]);
      var b := Run(a, plan, ops[..|ops| - 1]);
      forall i | 0 <= i < |Run(a, plan, ops).subs| ensures Sane(plan, Run(a, plan, ops).subs[i]) {
        if i < |b.subs| {
          StepRow(b, plan, ops[|ops| - 1], i);
        } else {
          StepLength(b, plan, ops[|ops| - 1]);
        }
      }
    }
  }

  lemma {:induction false} StepLength(a: Account, plan: Plan, op: Op)
    requires Legal(a, op)
    ensures |Apply(a, plan, op).subs| == if op.GrantOp? then |a.subs| + 1 else |a.subs|
  {
    match op
    case ChargeOp(now, order, cost, hasKey) =>
    case RelayOp(hold, order, cost, settle, refund, hasKey) =>
    case _ =>
  }

  /** The end of the n-th period after one that ends at `end`. */
  function PeriodEnd(end: Time, n: nat): Time {
    if n == 0 then end else NextPeriodEnd(PeriodEnd(end, n - 1))
  }

  /** How often a run advanced row i. */
  ghost function Advances(a: Account, plan: Plan, ops: seq<Op>, i: nat): nat
    requires LegalRun(a, plan, ops) && i < |a.subs| && Sane(plan, a.subs[i])
  {
    if ops == [] then 0
    else
      var before := ops[..|ops| - 1];
      RunRow(a, plan, before, i);
      RunRow(a, plan, ops, i);
      Advances(a, plan, before, i)
      + if Run(a, plan, ops).subs[i].periodStart != Run(a, plan, before).subs[i].periodStart then 1 else 0
  }

  /** Row `s` is in the n-th period after the one it had as `s0`; a canceled row keeps only its
      start. */
  ghost predicate InPeriod(s0: Sub, s: Sub, n: nat) {
    && s.periodStart == (if n == 0 then s0.periodStart else PeriodEnd(s0.periodEnd, n - 1))
    && ((Open(s0) && s.status.Canceled?) || s.periodEnd == PeriodEnd(s0.periodEnd, n))
    && (!Open(s0) ==> s == s0 && n == 0)
  }

  /** A step keeps a row's period, moves it to the next one, or cancels the row. */
  predicate PeriodStep(s: Sub, s': Sub) {
    if s'.periodStart != s.periodStart
    then Open(s) && !s'.status.Canceled? && s'.periodStart == s.periodEnd && s'.periodEnd == NextPeriodEnd(s.periodEnd)
    else s'.periodEnd == s.periodEnd || (Open(s) && s'.status.Canceled?)
  }

  lemma {:induction false} RowStepPeriods(plan: Plan, s: Sub, s': Sub)
    requires Sane(plan, s) && RowStep(plan, s, s')
    ensures PeriodStep(s, s') && (!Open(s) ==> s' == s)
  {
  }

  lemma {:induction false} StepPeriods(s0: Sub, s: Sub, s': Sub, n: nat)
    requires InPeriod(s0, s, n) && PeriodStep(s, s') && (!Open(s) ==> s' == s)
    ensures InPeriod(s0, s', if s'.periodStart != s.periodStart then n + 1 else n)
  {
    hide NextPeriodEnd;
  }

  lemma {:induction false} LastStepPeriods(a: Account, plan: Plan, ops: seq<Op>, i: nat)
    requires LegalRun(a, plan, ops) && ops != [] && i < |a.subs| && Sane(plan, a.subs[i])
    ensures var m, b := Run(a, plan, ops[..|ops| - 1]), Run(a, plan, ops);
            |b.subs| >= |m.subs| >= |a.subs|
            && PeriodStep(m.subs[i], b.subs[i]) && (!Open(m.subs[i]) ==> b.subs[i] == m.subs[i])
  {
    var m := Run(a, plan, ops[..|ops| - 1]);
    RunRow(a, plan, ops[..|ops| - 1], i);
    StepRow(m, plan, ops[|ops| - 1], i);
    RowStepPeriods(plan, m.subs[i], Run(a, plan, ops).subs[i]);
  }

  /** Periods follow one another without gap: after n paid renewals a row is in the n-th period
      after its first, whatever else happened in between. */
  lemma {:induction false} RunPeriods(a: Account, plan: Plan, ops: seq<Op>, i: nat)
    requires LegalRun(a, plan, ops) && i < |a.subs| && Sane(plan, a.subs[i])
    ensures |Run(a, plan, ops).subs| >= |a.subs|
    ensures InPeriod(a.subs[i], Run(a, plan, ops).subs[i], Advances(a, plan, ops, i))
  {
    if ops != [] {
      var before := ops[..|ops| - 1];
      LastStepPeriods(a, plan, ops, i);
      RunPeriods(a, plan, before, i);
      var s, s' := Run(a, plan, before).subs[i], Run(a, plan, ops).subs[i];
      var n := Advances(a, plan, before, i);
      assert Advances(a, plan, ops, i) == if s'.periodStart != s.periodStart then n + 1 else n;
      StepPeriods(a.subs[i], s, s', n);
    }
  }

  // ---- a scheduled end --------------------------------------------------------------------------

  /** Resuming undoes a scheduled cancel; left alone, the next renewal closes the row, empties it
      and takes nothing from the wallet. */
  lemma {:induction false} ScheduleAndResume(a: Account, i: nat, plan: Plan, now: Time, userActive: bool)
    requires i < |a.subs| && Open(a.subs[i]) && !a.subs[i].cancelAtPeriodEnd
    ensures var c := Cancel(a, i, AtPeriodEnd, Some(plan), now);
            && Resume(c, i) == a && c.wallet == a.wallet && c.subs[i].remaining == a.subs[i].remaining
            && Renew(c, i, Some(plan), userActive)
               == a.(subs := a.subs[i := a.subs[i].(cancelAtPeriodEnd := true, status := Expired, remaining := 0)])
  {
    var c := Cancel(a, i, AtPeriodEnd, Some(plan), now);
    assert Resume(c, i).subs == a.subs;
    assert c.subs[i := c.subs[i].(status := Expired, remaining := 0)]
           == a.subs[i := a.subs[i].(cancelAtPeriodEnd := true, status := Expired, remaining := 0)];
  }

  lemma {:induction false} StepScheduled(a: Account, plan: Plan, op: Op, i: nat)
    requires Legal(a, op) && i < |a.subs| && a.subs[i].cancelAtPeriodEnd && op != ResumeOp(i)
    ensures var b := Apply(a, plan, op);
            |b.subs| >= |a.subs| && b.subs[i].cancelAtPeriodEnd && b.subs[i].periodStart == a.subs[i].periodStart
  {
    hide NextPeriodEnd;
    match op
    case ChargeOp(now, order, cost, hasKey) => ChargeRow(a, now, order, cost, hasKey, i);
    case RelayOp(hold, order, cost, settle, refund, hasKey) =>
      RelayRow(a, hold, order, cost, settle, refund, hasKey, i);
    case _ =>
  }

  /** Over every run without a resume, a row scheduled to end is never renewed, so never billed,
      again. */
  lemma {:induction false} ScheduledEndIsFinal(a: Account, plan: Plan, ops: seq<Op>, i: nat)
    requires LegalRun(a, plan, ops) && i < |a.subs| && a.subs[i].cancelAtPeriodEnd && ResumeOp(i) !in ops
    ensures var b := Run(a, plan, ops);
            |b.subs| >= |a.subs| && b.subs[i].cancelAtPeriodEnd && b.subs[i].periodStart == a.subs[i].periodStart
  {
    hide Apply, Legal;
    if ops != [] {
      assert ops[|ops| - 1] in ops;
      ScheduledEndIsFinal(a, plan, ops[..|ops| - 1], i);
      StepScheduled(Run(a, plan, ops[..|ops| - 1]), plan, ops[|ops| - 1], i);
    }
  }

  // ---- the renewal worker -----------------------------------------------------------------------

  function PlanOf(plans: map<nat, Plan>, s: Sub): Option<Plan> {
    if s.planId in plans then Some(plans[s.planId]) else None
  }

  /** The worker's pass over the first k rows: those due at the scan are renewed in id order. */
  function Scanned(a: Account, plans: map<nat, Plan>, userActive: bool, now: Time, k: nat): (r: Account)
    requires k <= |a.subs|
    ensures |r.subs| == |a.subs|
  {
    if k == 0 then a
    else
      var b := Scanned(a, plans, userActive, now, k - 1);
      if Due(a.subs[k - 1], now)
      then Renew(b, k - 1, PlanOf(plans, a.subs[k - 1]), userActive)
      else b
  }

  /** Prices of the rows among the first k that the pass advanced. */
  function PaidFor(a: Account, b: Account, plans: map<nat, Plan>, k: nat): nat
    requires k <= |a.subs| == |b.subs|
  {
    if k == 0 then 0
    else
      var s := a.subs[k - 1];
      PaidFor(a, b, plans, k - 1)
      + if b.subs[k - 1].periodStart != s.periodStart && s.planId in plans then plans[s.planId].price else 0
  }

  /** How the pass leaves a due row, given the wallet at its turn: expired if its plan is gone, its
      end was scheduled, its plan is one-time or the user is inactive, emptied in the second and
      third case; one period further and full if the wallet covers the price; else past due with
      nothing left. */
  predicate Settled(s: Sub, s': Sub, plans: map<nat, Plan>, userActive: bool, wallet: int) {
    var closing := s.planId in plans && (s.cancelAtPeriodEnd || plans[s.planId].oneTime);
    if s.planId !in plans || closing || !userActive
    then s' == s.(status := Expired, remaining := if closing then 0 else s.remaining)
    else if plans[s.planId].price <= wallet then Advanced(plans[s.planId], s, s')
    else s' == s.(status := PastDue, remaining := 0)
  }

  lemma {:induction false} PaidForSame(a: Account, b: Account, c: Account, plans: map<nat, Plan>, k: nat)
    requires k <= |a.subs| == |b.subs| == |c.subs|
    requires forall i | 0 <= i < k :: b.subs[i] == c.subs[i]
    ensures PaidFor(a, b, plans, k) == PaidFor(a, c, plans, k)
  {
    if k > 0 { PaidForSame(a, b, c, plans, k - 1); }
  }

  lemma {:induction false} ScannedNext(a: Account, plans: map<nat, Plan>, userActive: bool, now: Time, k: nat)
    requires 0 < k <= |a.subs|
    ensures var b, s := Scanned(a, plans, userActive, now, k - 1), a.subs[k - 1];
            Scanned(a, plans, userActive, now, k)
            == if Overdue(s, now) then Renew(b, k - 1, PlanOf(plans, s), userActive) else b
    ensures Overdue(a.subs[k - 1], now) ==> Open(a.subs[k - 1])
  {
    hide Renew;
  }

  lemma {:induction false} PaidForNext(a: Account, b: Account, plans: map<nat, Plan>, k: nat)
    requires 0 < k <= |a.subs| == |b.subs|
    ensures var s := a.subs[k - 1];
            PaidFor(a, b, plans, k)
            == PaidFor(a, b, plans, k - 1)
               + if b.subs[k - 1].periodStart != s.periodStart && s.planId in plans then plans[s.planId].price else 0
  {
  }

  /** Selected by the pass: open, and the period is over. */
  predicate Overdue(s: Sub, now: Time) {
    (s.status == Active || s.status == PastDue) && s.periodEnd <= now
  }

  /** Among the first k rows those due are settled with the wallet at their turn; all others are as
      they were. */
  ghost predicate RowsSettled(a: Account, b: Account, plans: map<nat, Plan>, userActive: bool, now: Time, k: nat)
    requires k <= |a.subs| == |b.subs|
  {
    && (forall i | 0 <= i < |a.subs| && (i >= k || !Overdue(a.subs[i], now)) :: b.subs[i] == a.subs[i])
    && (forall i | 0 <= i < k && Overdue(a.subs[i], now) ::
          Settled(a.subs[i], b.subs[i], plans, userActive, Scanned(a, plans, userActive, now, i).wallet))
  }

  lemma {:induction false} RowsSettledNext(
      a: Account, b: Account, c: Account, plans: map<nat, Plan>, userActive: bool, now: Time, k: nat)
    requires 0 < k <= |a.subs| == |b.subs| == |c.subs| && RowsSettled(a, b, plans, userActive, now, k - 1)
    requires forall j | 0 <= j < |b.subs| && j != k - 1 :: c.subs[j] == b.subs[j]
    requires b.wallet == Scanned(a, plans, userActive, now, k - 1).wallet
    requires if Overdue(a.subs[k - 1], now)
             then Settled(a.subs[k - 1], c.subs[k - 1], plans, userActive, b.wallet)
             else c.subs[k - 1] == b.subs[k - 1]
    ensures RowsSettled(a, c, plans, userActive, now, k)
  {
    hide Settled, Overdue, Scanned;
  }

  /** One pass: rows not due are untouched, every due row is settled with the wallet at its turn,
      the wallet pays exactly the prices of the rows advanced, it only falls, and one that was not
      overdrawn is not overdrawn after. */
  lemma {:induction false} ScanSettles(a: Account, plans: map<nat, Plan>, userActive: bool, now: Time, k: nat)
    requires k <= |a.subs|
    requires forall i | 0 <= i < |a.subs| && Open(a.subs[i]) :: a.subs[i].periodStart < a.subs[i].periodEnd
    ensures var b := Scanned(a, plans, userActive, now, k);
            && RowsSettled(a, b, plans, userActive, now, k)
            && b.wallet == a.wallet - PaidFor(a, b, plans, k)
            && (forall i | 0 <= i <= k :: Scanned(a, plans, userActive, now, i).wallet >= b.wallet)
            && (a.wallet >= 0 ==> b.wallet >= 0)
  {
    hide Settled, Overdue, Scanned, PaidFor, RowsSettled;
    if k == 0 {
      ScanNone(a, plans, userActive, now);
    } else {
      ScanSettles(a, plans, userActive, now, k - 1);
      var b, c := Scanned(a, plans, userActive, now, k - 1), Scanned(a, plans, userActive, now, k);
      NotReached(a, b, plans, userActive, now, k - 1);
      OneTurn(a, plans, userActive, now, k);
      RowsSettledNext(a, b, c, plans, userActive, now, k);
      PaidForSame(a, b, c, plans, k - 1);
      PaidForNext(a, c, plans, k);
    }
  }

  lemma {:induction false} ScanNone(a: Account, plans: map<nat, Plan>, userActive: bool, now: Time)
    ensures Scanned(a, plans, userActive, now, 0) == a && PaidFor(a, a, plans, 0) == 0
    ensures RowsSettled(a, a, plans, userActive, now, 0)
  {
  }

  lemma {:induction false} NotReached(
      a: Account, b: Account, plans: map<nat, Plan>, userActive: bool, now: Time, k: nat)
    requires k < |a.subs| == |b.subs| && RowsSettled(a, b, plans, userActive, now, k)
    ensures b.subs[k] == a.subs[k]
  {
  }

  /** What the pass does at one row. */
  lemma {:induction false} OneTurn(a: Account, plans: map<nat, Plan>, userActive: bool, now: Time, k: nat)
    requires 0 < k <= |a.subs| && Scanned(a, plans, userActive, now, k - 1).subs[k - 1] == a.subs[k - 1]
    requires Open(a.subs[k - 1]) ==> a.subs[k - 1].periodStart < a.subs[k - 1].periodEnd
    ensures var b, c := Scanned(a, plans, userActive, now, k - 1), Scanned(a, plans, userActive, now, k);
            var s := a.subs[k - 1];
            && (forall j | 0 <= j < |b.subs| && j != k - 1 :: c.subs[j] == b.subs[j])
            && (if Overdue(s, now) then Settled(s, c.subs[k - 1], plans, userActive, b.wallet)
                else c.subs[k - 1] == b.subs[k - 1])
            && c.wallet <= b.wallet && (b.wallet >= 0 ==> c.wallet >= 0)
            && c.wallet == b.wallet
               - (if c.subs[k - 1].periodStart != s.periodStart && s.planId in plans then plans[s.planId].price else 0)
  {
    RenewOne(Scanned(a, plans, userActive, now, k - 1), k - 1, plans, userActive);
    ScannedNext(a, plans, userActive, now, k);
    hide Settled, Overdue, Scanned, Renew;
  }

  /** One renewal of the pass: the other rows stay, the row is settled, and the wallet pays the
      price exactly if the row advanced. */
  lemma {:induction false} RenewOne(b: Account, i: nat, plans: map<nat, Plan>, userActive: bool)
    requires i < |b.subs| && Open(b.subs[i]) ==> b.subs[i].periodStart < b.subs[i].periodEnd
    ensures i < |b.subs| && Open(b.subs[i]) ==>
              var s := b.subs[i];
              var c := Renew(b, i, PlanOf(plans, s), userActive);
              && (forall j | 0 <= j < |b.subs| && j != i :: c.subs[j] == b.subs[j])
              && Settled(s, c.subs[i], plans, userActive, b.wallet)
              && c.wallet <= b.wallet && (b.wallet >= 0 ==> c.wallet >= 0)
              && c.wallet == b.wallet
                 - (if c.subs[i].periodStart != s.periodStart && s.planId in plans then plans[s.planId].price else 0)
  {
    hide NextPeriodEnd;
  }

  /** The worker's loop computes that pass. */
  method ScanOnce(l: Ledger, plans: map<nat, Plan>, userActive: bool, now: Time)
    modifies l
    ensures l.State() == Scanned(old(l.State()), plans, userActive, now, |old(l.subs)|)
  {
    var rows := l.subs;
    for i := 0 to |rows|
      invariant |l.subs| == |rows|
      invariant l.State() == Scanned(old(l.State()), plans, userActive, now, i)
    {
      if rows[i].periodEnd <= now && (rows[i].status.Active? || rows[i].status.PastDue?) {
        var _ := l.RenewSubscription(i, PlanOf(plans, rows[i]), userActive);
      }
    }
  }
}
