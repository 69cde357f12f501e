/**
  The Redis mirror of one user's wallet and subscription quota, and the ways it is kept in step
  with Postgres: post-commit mirrors of charges, post-commit invalidation, hydration and TTL.
  Each transaction and each Redis pipeline is one step.
*/
module QuotaCache {
  import opened Prelude
  import opened Calendar
  import opened Billing
  import opened BillingStore

  /** Keys wallet:{uid} and subq:{sid} by the source they mirror; the zset usubs:{uid} in score
      order (empty is absent); counters kused:{kid}:w{ws}. */
  datatype Redis = Redis(vals: map<Source, int>, listed: seq<nat>, kused: map<(nat, int), int>)

  // ---- mirror, invalidate, hydrate --------------------------------------------------------------

  function DecrIfExists(vals: map<Source, int>, s: Source, amount: int): map<Source, int> {
    if s in vals then vals[s := vals[s] - amount] else vals
  }

  function Mirrored(vals: map<Source, int>, ts: seq<Take>): map<Source, int> {
    if ts == [] then vals
    else
      var t := ts[|ts| - 1];
      var before := Mirrored(vals, ts[..|ts| - 1]);
      if t.amount <= 0 then before else DecrIfExists(before, t.source, t.amount)
  }

  ghost predicate AllPositive(ts: seq<Take>) {
    forall k | 0 <= k < |ts| :: ts[k].amount > 0
  }

  /** A mirror never creates a wallet or quota key, and moves an existing one by what the charge
      took from that source. */
  lemma {:induction false} MirrorMovesExistingKeys(vals: map<Source, int>, ts: seq<Take>)
    requires AllPositive(ts)
    ensures Mirrored(vals, ts).Keys == vals.Keys
    ensures forall s | s in vals :: Mirrored(vals, ts)[s] == vals[s] - AmountFrom(ts, s)
  {
    if ts != [] { MirrorMovesExistingKeys(vals, ts[..|ts| - 1]); }
  }

  function Keys(listed: seq<nat>): set<Source> {
    set i | i in listed :: Quota(i)
  }

  function Invalidated(r: Redis): Redis {
    r.(vals := r.vals - {Wallet} - Keys(r.listed), listed := [])
  }

  predicate InPeriod(s: Sub, now: Time) { s.status.Active? && s.periodEnd > now }

  /** `listed` is an order in which the zset may hold the rows hydration selects. Rows with no
      quota left are among them. */
  ghost predicate Listing(subs: seq<Sub>, now: Time, listed: seq<nat>) {
    && (forall k | 0 <= k < |listed| :: listed[k] < |subs|)
    && (forall i | 0 <= i < |subs| :: InPeriod(subs[i], now) <==> i in listed)
  }

  function Hydrated(r: Redis, a: Account, listed: seq<nat>): Redis
    requires InRange(a.subs, listed)
  {
    r.(vals := r.vals[Wallet := a.wallet] + map s | s in Keys(listed) :: BalanceOf(a, s),
       listed := listed)
  }

  // ---- the step system --------------------------------------------------------------------------

  /** A charge committed by the access-log path whose mirror has not run yet. `overtaken` says a
      hydration ran in between, so Redis already includes the charge. */
  datatype Pending = Pending(taken: seq<Take>, overtaken: bool)

  /** `late`: mirrors applied since the last hydration although that hydration already included
      their charge. `invalidations`: marked commits whose invalidation task has not run yet. */
  datatype World = World(
    pg: Account,
    redis: Redis,
    mirrors: seq<Pending>,
    late: seq<Take>,
    invalidations: nat)

  /** Commits that change balances and mark no invalidation: a cancel, a renewal that closes or
      suspends the row, an administrator's adjustment. */
  datatype Unmarked =
    | CancelWrite(i: nat, mode: CancelMode, plan: Option<Plan>, now: Time)
    | CloseWrite(i: nat, plan: Option<Plan>, userActive: bool)
    | AdjustWrite(amount: int)

  function Adjusted(a: Account, amount: int): Account {
    var wallet := Max(a.wallet + amount, 0);
    a.(wallet := wallet, txs := a.txs + [Tx(if amount >= 0 then Grant else Refund, amount, wallet)])
  }

  predicate Possible(a: Account, u: Unmarked) {
    match u
    case CancelWrite(i, _, _, _) => i < |a.subs|
    case CloseWrite(i, plan, userActive) => i < |a.subs| && RenewCheck(a, i, plan, userActive) != Renewed
    case AdjustWrite(_) => true
  }

  function Written(a: Account, u: Unmarked): Account
    requires Possible(a, u)
  {
    match u
    case CancelWrite(i, mode, plan, now) => Cancel(a, i, mode, plan, now)
    case CloseWrite(i, plan, userActive) => Renew(a, i, plan, userActive)
    case AdjustWrite(amount) => Adjusted(a, amount)
  }

  datatype Step =
    | CommitCharge(now: Time, order: seq<nat>, cost: int, hasKey: bool)
    | RunMirror(k: nat)
    | MarkedWrite(after: Account)
    | UnmarkedWrite(write: Unmarked)
    | RunInvalidation
    | Hydrate(now: Time, listed: seq<nat>)
    | DropKey(s: Source)
    | DropListing

  ghost predicate Enabled(w: World, step: Step) {
    match step
    case CommitCharge(now, order, cost, _) => QueryOrder(w.pg.subs, now, order)
    case RunMirror(k) => k < |w.mirrors|
    case UnmarkedWrite(u) => Possible(w.pg, u)
    case RunInvalidation => w.invalidations > 0
    case Hydrate(now, listed) => Listing(w.pg.subs, now, listed)
    case _ => true
  }

  function Overtaken(ms: seq<Pending>): (r: seq<Pending>)
    ensures |r| == |ms|
  {
    seq(|ms|, i requires 0 <= i < |ms| => ms[i].(overtaken := true))
  }

  ghost function Next(w: World, step: Step): World
    requires Enabled(w, step)
  {
    match step
    case CommitCharge(now, order, cost, hasKey) =>
      w.(pg := Charge(w.pg, order, cost, hasKey),
         mirrors := w.mirrors + [Pending(Breakdown(w.pg.subs, order, cost), false)])
    case RunMirror(k) =>
      var m := w.mirrors[k];
      w.(redis := w.redis.(vals := Mirrored(w.redis.vals, m.taken)),
         mirrors := w.mirrors[..k] + w.mirrors[k + 1..],
         late := if m.overtaken then w.late + m.taken else w.late)
    case MarkedWrite(after) => w.(pg := after, invalidations := w.invalidations + 1)
    case UnmarkedWrite(u) => w.(pg := Written(w.pg, u))
    case RunInvalidation => w.(redis := Invalidated(w.redis), invalidations := w.invalidations - 1)
    case Hydrate(now, listed) =>
      w.(redis := Hydrated(w.redis, w.pg, listed), mirrors := Overtaken(w.mirrors), late := [])
    case DropKey(s) => w.(redis := w.redis.(vals := w.redis.vals - {s}))
    case DropListing => w.(redis := w.redis.(listed := []))
  }

  /** Charges on source `s` committed but not in Redis in any way yet. */
  function Unmirrored(ms: seq<Pending>, s: Source): int {
    if ms == [] then 0
    else
      var m := ms[|ms| - 1];
      Unmirrored(ms[..|ms| - 1], s) + if m.overtaken then 0 else AmountFrom(m.taken, s)
  }

  predicate Visible(r: Redis, s: Source) {
    s in r.vals && (s.Wallet? || s.id in r.listed)
  }

  ghost predicate Positive(w: World) {
    (forall k | 0 <= k < |w.mirrors| :: AllPositive(w.mirrors[k].taken)) && AllPositive(w.late)
  }

  /** While no invalidation is pending, every counter the quota check can read differs from
      Postgres by exactly the charges waiting to be mirrored, less those mirrored twice. */
  ghost predicate Coherent(w: World) {
    && Positive(w)
    && (w.invalidations == 0 ==>
          forall s | Visible(w.redis, s) ::
            w.redis.vals[s] == BalanceOf(w.pg, s) + Unmirrored(w.mirrors, s) - AmountFrom(w.late, s))
  }

  lemma {:induction false} UnmirroredWithout(ms: seq<Pending>, k: nat, s: Source)
    requires k < |ms|
    ensures Unmirrored(ms[..k] + ms[k + 1..], s)
            == Unmirrored(ms, s) - if ms[k].overtaken then 0 else AmountFrom(ms[k].taken, s)
  {
    var n := |ms| - 1;
    var without := ms[..k] + ms[k + 1..];
    if k == n {
      assert without == ms[..n];
    } else {
      assert without[..n - 1] == ms[..n][..k] + ms[..n][k + 1..];
      UnmirroredWithout(ms[..n], k, s);
    }
  }

  lemma {:induction false} UnmirroredOvertaken(ms: seq<Pending>, s: Source)
    ensures Unmirrored(Overtaken(ms), s) == 0
  {
    if ms != [] {
      assert Overtaken(ms)[..|ms| - 1] == Overtaken(ms[..|ms| - 1]);
      UnmirroredOvertaken(ms[..|ms| - 1], s);
    }
  }

  lemma {:induction false} CommitCoherent(w: World, now: Time, order: seq<nat>, cost: int, hasKey: bool)
    requires Coherent(w) && Enabled(w, CommitCharge(now, order, cost, hasKey))
    ensures Coherent(Next(w, CommitCharge(now, order, cost, hasKey)))
  {
    var taken := Breakdown(w.pg.subs, order, cost);
    var w' := Next(w, CommitCharge(now, order, cost, hasKey));
    ChargeConserves(w.pg, now, order, cost, hasKey);
    assert w'.mirrors[..|w.mirrors|] == w.mirrors;
    forall s | Visible(w.redis, s)
      ensures BalanceOf(w'.pg, s) + Unmirrored(w'.mirrors, s) == BalanceOf(w.pg, s) + Unmirrored(w.mirrors, s)
    {
      ChargeBySource(w.pg, now, order, cost, hasKey, s);
    }
  }

  lemma {:induction false} MirrorCoherent(w: World, k: nat)
    requires Coherent(w) && k < |w.mirrors|
    ensures Coherent(Next(w, RunMirror(k)))
  {
    var m := w.mirrors[k];
    var w' := Next(w, RunMirror(k));
    MirrorMovesExistingKeys(w.redis.vals, m.taken);
    forall s | Visible(w.redis, s)
      ensures Unmirrored(w'.mirrors, s) - AmountFrom(w'.late, s)
              == Unmirrored(w.mirrors, s) - AmountFrom(w.late, s) - AmountFrom(m.taken, s)
    {
      UnmirroredWithout(w.mirrors, k, s);
      AmountFromAppend(w.late, m.taken, s);
    }
    forall s | Visible(w'.redis, s)
      ensures w'.redis.vals[s] == BalanceOf(w'.pg, s) + Unmirrored(w'.mirrors, s) - AmountFrom(w'.late, s)
              || w.invalidations > 0
    {
      assert Visible(w.redis, s);
    }
  }

  /** Hydration brings the cache in step from whatever state it was in. */
  lemma {:induction false} HydrateCoherent(w: World, now: Time, listed: seq<nat>)
    requires Positive(w) && Listing(w.pg.subs, now, listed)
    ensures Coherent(Next(w, Hydrate(now, listed)))
    ensures forall s | Visible(Next(w, Hydrate(now, listed)).redis, s) ::
              Next(w, Hydrate(now, listed)).redis.vals[s] == BalanceOf(w.pg, s)
  {
    var w' := Next(w, Hydrate(now, listed));
    forall s | Visible(w'.redis, s)
      ensures w'.redis.vals[s] == BalanceOf(w.pg, s) && Unmirrored(w'.mirrors, s) == 0
    {
      UnmirroredOvertaken(w.mirrors, s);
    }
  }

  // ---- writes that mark nothing -----------------------------------------------------------------

  /** Judged before the write: it will leave every counter the check can read where it is, or
      another invalidation is due anyway. */
  ghost predicate Harmless(w: World, u: Unmarked)
    requires Possible(w.pg, u)
  {
    || w.invalidations > 0
    || match u
       case CancelWrite(i, mode, plan, _) =>
         || !Open(w.pg.subs[i]) || mode.AtPeriodEnd?
         || ((Visible(w.redis, Quota(i)) ==> w.pg.subs[i].remaining == 0)
             && (Visible(w.redis, Wallet) ==> ProratedRefund(plan, w.pg.subs[i].remaining) == 0))
       case CloseWrite(i, plan, userActive) =>
         || plan.None?
         || (!w.pg.subs[i].cancelAtPeriodEnd && !plan.value.oneTime && !userActive)
         || (Visible(w.redis, Quota(i)) ==> w.pg.subs[i].remaining == 0)
       case AdjustWrite(amount) =>
         || !Visible(w.redis, Wallet)
         || (amount == 0 && w.pg.wallet >= 0) || (amount <= 0 && w.pg.wallet == 0)
  }

  /** The balances a write changes are the row it names and the wallet. */
  lemma {:induction false} WrittenBalance(a: Account, u: Unmarked, s: Source)
    requires Possible(a, u)
    ensures BalanceOf(Written(a, u), s) == BalanceOf(a, s)
            <==> match u
                 case CancelWrite(i, mode, plan, _) =>
                   || !Open(a.subs[i]) || mode.AtPeriodEnd?
                   || ((s == Quota(i) ==> a.subs[i].remaining == 0)
                       && (s == Wallet ==> ProratedRefund(plan, a.subs[i].remaining) == 0))
                 case CloseWrite(i, plan, userActive) =>
                   || plan.None? || (!a.subs[i].cancelAtPeriodEnd && !plan.value.oneTime && !userActive)
                   || (s == Quota(i) ==> a.subs[i].remaining == 0)
                 case AdjustWrite(amount) =>
                   s == Wallet ==> (amount == 0 && a.wallet >= 0) || (amount <= 0 && a.wallet == 0)
  {
    hide ProratedRefund;
  }

  /** A write that marks nothing keeps the cache in step if and only if it was harmless: nothing
      readable is given up, refunded, closed or adjusted. */
  lemma {:induction false} UnmarkedCoherentIff(w: World, u: Unmarked)
    requires Coherent(w) && Possible(w.pg, u)
    ensures Coherent(Next(w, UnmarkedWrite(u))) <==> Harmless(w, u)
  {
    hide Written, BalanceOf, ProratedRefund, Visible;
    var w' := Next(w, UnmarkedWrite(u));
    assert Positive(w');
    forall s ensures Coherent(w') && w.invalidations == 0 && Visible(w.redis, s) ==>
                       BalanceOf(w'.pg, s) == BalanceOf(w.pg, s) {
    }
    if !u.AdjustWrite? { WrittenBalance(w.pg, u, Quota(u.i)); }
    WrittenBalance(w.pg, u, Wallet);
    if Harmless(w, u) {
      forall s | Visible(w.redis, s) ensures w.invalidations > 0 || BalanceOf(w'.pg, s) == BalanceOf(w.pg, s) {
        WrittenBalance(w.pg, u, s);
      }
    }
  }

  // ---- every step -------------------------------------------------------------------------------

  /** Steps after which the cache is in step whatever happened before. */
  predicate Heals(step: Step) { step.Hydrate? || step.RunInvalidation? }

  ghost predicate Harms(w: World, step: Step)
    requires Enabled(w, step)
  {
    step.UnmarkedWrite? && !Harmless(w, step.write)
  }

  lemma {:induction false} StepPositive(w: World, step: Step)
    requires Positive(w) && Enabled(w, step)
    ensures Positive(Next(w, step))
  {
    if step.CommitCharge? { ChargeConserves(w.pg, step.now, step.order, step.cost, step.hasKey); }
  }

  lemma {:induction false} StepCoherent(w: World, step: Step)
    requires Positive(w) && Enabled(w, step)
    requires Heals(step) || (Coherent(w) && !Harms(w, step))
    ensures Coherent(Next(w, step))
  {
    match step
    case CommitCharge(now, order, cost, hasKey) => CommitCoherent(w, now, order, cost, hasKey);
    case RunMirror(k) => MirrorCoherent(w, k);
    case UnmarkedWrite(u) => UnmarkedCoherentIff(w, u);
    case Hydrate(now, listed) => HydrateCoherent(w, now, listed);
    case DropKey(s) => assert forall t | Visible(Next(w, step).redis, t) :: Visible(w.redis, t);
    case _ =>
  }

  ghost predicate Runs(w: World, steps: seq<Step>)
    decreases |steps|, 0
  {
    steps == [] || (Runs(w, steps[..|steps| - 1]) && Enabled(After(w, steps[..|steps| - 1]), steps[|steps| - 1]))
  }

  ghost function After(w: World, steps: seq<Step>): World
    requires Runs(w, steps)
    decreases |steps|, 1
  {
    if steps == [] then w else Next(After(w, steps[..|steps| - 1]), steps[|steps| - 1])
  }

  function Start(pg: Account): World {
    World(pg, Redis(map[], [], map[]), [], [], 0)
  }

  /** A harmful unmarked write has happened since the last hydration or invalidation. */
  ghost predicate Damaged(w: World, steps: seq<Step>)
    requires Runs(w, steps)
  {
    && steps != []
    && var before, last := steps[..|steps| - 1], steps[|steps| - 1];
       !Heals(last) && (Damaged(w, before) || Harms(After(w, before), last))
  }

  lemma {:induction false} UndamagedByMarkedWrites(w: World, steps: seq<Step>)
    requires Runs(w, steps) && forall k | 0 <= k < |steps| :: !steps[k].UnmarkedWrite?
    ensures !Damaged(w, steps)
  {
    if steps != [] { UndamagedByMarkedWrites(w, steps[..|steps| - 1]); }
  }

  lemma {:induction false} RunCoherent(pg: Account, steps: seq<Step>)
    requires Runs(Start(pg), steps)
    ensures Positive(After(Start(pg), steps))
    ensures !Damaged(Start(pg), steps) ==> Coherent(After(Start(pg), steps))
  {
    if steps != [] {
      hide Coherent, Positive, Next, Enabled;
      var w := After(Start(pg), steps[..|steps| - 1]);
      RunCoherent(pg, steps[..|steps| - 1]);
      StepPositive(w, steps[|steps| - 1]);
      if !Damaged(Start(pg), steps) { StepCoherent(w, steps[|steps| - 1]); }
    }
  }

  /** All charges on `s` whose mirror has still to run. */
  function Waiting(ms: seq<Pending>, s: Source): int {
    if ms == [] then 0 else Waiting(ms[..|ms| - 1], s) + AmountFrom(ms[|ms| - 1].taken, s)
  }

  lemma {:induction false} AmountFromPositive(ts: seq<Take>, s: Source)
    requires AllPositive(ts)
    ensures AmountFrom(ts, s) >= 0
  {
    if ts != [] { AmountFromPositive(ts[..|ts| - 1], s); }
  }

  lemma {:induction false} UnmirroredWithinWaiting(ms: seq<Pending>, s: Source)
    requires forall k | 0 <= k < |ms| :: AllPositive(ms[k].taken)
    ensures 0 <= Unmirrored(ms, s) <= Waiting(ms, s)
  {
    if ms != [] {
      UnmirroredWithinWaiting(ms[..|ms| - 1], s);
      AmountFromPositive(ms[|ms| - 1].taken, s);
    }
  }

  /** In every interleaving, with no invalidation pending: a readable counter exceeds Postgres by
      at most the charges still waiting to be mirrored, and equals it once none is waiting and no
      hydration overtook a mirror. Unmarked writes may be among the steps, as long as none since
      the last hydration or invalidation was a harmful one. */
  lemma {:induction false} CacheNeverFarAhead(pg: Account, steps: seq<Step>, s: Source)
    requires Runs(Start(pg), steps) && !Damaged(Start(pg), steps)
    ensures var w := After(Start(pg), steps);
            w.invalidations == 0 && Visible(w.redis, s) ==>
              && w.redis.vals[s] <= BalanceOf(w.pg, s) + Waiting(w.mirrors, s)
              && (w.mirrors == [] && w.late == [] ==> w.redis.vals[s] == BalanceOf(w.pg, s))
  {
    var w := After(Start(pg), steps);
    RunCoherent(pg, steps);
    UnmirroredWithinWaiting(w.mirrors, s);
    AmountFromPositive(w.late, s);
  }

  /** Only hydration makes a wallet or quota key appear. */
  lemma {:induction false} OnlyHydrationCreatesKeys(w: World, step: Step, s: Source)
    requires Positive(w) && Enabled(w, step) && s !in w.redis.vals && !step.Hydrate?
    ensures s !in Next(w, step).redis.vals
  {
    if step.RunMirror? { MirrorMovesExistingKeys(w.redis.vals, w.mirrors[step.k].taken); }
  }

  /** An immediate cancel can harm: Redis goes on showing the quota the user gave up. */
  lemma {:induction false} UnmarkedCancelLeavesQuotaVisible()
    ensures var s := Sub(0, 0, 10, Active, 100, false);
            var w := Start(Account(0, [s], 0, []));
            var steps := [Hydrate(5, [0]), UnmarkedWrite(CancelWrite(0, Immediately, None, 5))];
            && Runs(w, steps)
            && var h := After(w, steps);
               && !Coherent(h)
               && Visible(h.redis, Quota(0)) && h.redis.vals[Quota(0)] == 100 && BalanceOf(h.pg, Quota(0)) == 0
  {
    var s := Sub(0, 0, 10, Active, 100, false);
    var w := Start(Account(0, [s], 0, []));
    var hydrate, cancel := Hydrate(5, [0]), UnmarkedWrite(CancelWrite(0, Immediately, None, 5));
    assert [hydrate, cancel][..1] == [hydrate] && [hydrate][..0] == [];
    assert Runs(w, []) && After(w, []) == w;
    assert 0 in [0] && Quota(0) in Keys([0]);
    assert Listing(w.pg.subs, 5, [0]);
    assert Runs(w, [hydrate]);
    UnmarkedCoherentIff(After(w, [hydrate]), cancel.write);
  }

  // ---- the read path ----------------------------------------------------------------------------

  datatype Answer = Miss | Known(verdict: QuotaVerdict)

  function CheckWallet(vals: map<Source, int>): Answer {
    if Wallet !in vals || vals[Wallet] < 0 then Miss
    else if vals[Wallet] > 0 then Known(Allowed)
    else Known(NothingToSpend)
  }

  function CheckFrom(r: Redis, k: nat): Answer
    requires k <= |r.listed|
    decreases |r.listed| - k
  {
    if k == |r.listed| then CheckWallet(r.vals)
    else
      var s := Quota(r.listed[k]);
      if s !in r.vals || r.vals[s] < 0 then Miss
      else if r.vals[s] > 0 then Known(Allowed)
      else CheckFrom(r, k + 1)
  }

  function Check(r: Redis, key: (nat, int), cap: int): Answer {
    if cap > 0 && key !in r.kused then Miss
    else if cap > 0 && r.kused[key] >= cap then Known(KeyCapReached)
    else CheckFrom(r, 0)
  }

  /** What has_quota_fast answers: on a miss it hydrates (if it gets the lock) and retries, and
      a second miss is allowed. */
  function HasQuotaFast(r: Redis, a: Account, listed: seq<nat>, gotLock: bool, key: (nat, int), cap: int): QuotaVerdict
    requires InRange(a.subs, listed)
  {
    match Check(r, key, cap)
    case Known(v) => v
    case Miss =>
      match Check(Reloaded(r, a, listed, gotLock, key), key, cap)
      case Known(v) => v
      case Miss => Allowed
  }

  function Reloaded(r: Redis, a: Account, listed: seq<nat>, gotLock: bool, key: (nat, int)): Redis
    requires InRange(a.subs, listed)
  {
    var h := if gotLock then Hydrated(r, a, listed) else r;
    h.(kused := h.kused[key := a.keyUsed])
  }

  /** Wallet and listed counters are all there and equal to Postgres. */
  ghost predicate InStep(r: Redis, a: Account) {
    && Wallet in r.vals && r.vals[Wallet] == a.wallet
    && forall j | 0 <= j < |r.listed| ::
         Quota(r.listed[j]) in r.vals && r.vals[Quota(r.listed[j])] == BalanceOf(a, Quota(r.listed[j]))
  }

  ghost predicate SomePositive(a: Account, listed: seq<nat>, k: nat) {
    exists j :: k <= j < |listed| && BalanceOf(a, Quota(listed[j])) > 0
  }

  ghost predicate SomeBelow(a: Account, listed: seq<nat>, k: nat) {
    exists j :: k <= j < |listed| && BalanceOf(a, Quota(listed[j])) < 0
  }

  /** On a cache in step the scan finds a positive row, misses on a negative one, or falls
      through to the wallet when every row is empty. */
  lemma {:induction false} CheckInStep(r: Redis, a: Account, k: nat)
    requires InStep(r, a) && k <= |r.listed|
    ensures CheckFrom(r, k) == CheckWallet(r.vals)
            || (CheckFrom(r, k) == Known(Allowed) && SomePositive(a, r.listed, k))
            || (CheckFrom(r, k) == Miss && SomeBelow(a, r.listed, k))
    ensures CheckFrom(r, k) == CheckWallet(r.vals) || SomePositive(a, r.listed, k) || SomeBelow(a, r.listed, k)
    ensures CheckFrom(r, k) == Known(NothingToSpend) ==> !SomePositive(a, r.listed, k) && !SomeBelow(a, r.listed, k)
    decreases |r.listed| - k
  {
    if k < |r.listed| {
      assert Quota(r.listed[k]) in r.vals;
      CheckInStep(r, a, k + 1);
      assert SomePositive(a, r.listed, k) <==> BalanceOf(a, Quota(r.listed[k])) > 0 || SomePositive(a, r.listed, k + 1);
      assert SomeBelow(a, r.listed, k) <==> BalanceOf(a, Quota(r.listed[k])) < 0 || SomeBelow(a, r.listed, k + 1);
    }
  }

  predicate CapReached(used: int, cap: int) { cap > 0 && used >= cap }

  /** The gate as Postgres would answer it for the rows listed, with `used` spent on the key. */
  ghost function ListedGate(a: Account, listed: seq<nat>, used: int, cap: int): QuotaVerdict {
    if CapReached(used, cap) then KeyCapReached
    else if SomePositive(a, listed, 0) || a.wallet > 0 then Allowed
    else NothingToSpend
  }

  /** The state in which the two verdicts part: the key's cap is not reached, no listed row and no
      wallet has anything left, yet one of them is below zero, which the fast path takes for a
      stale cache and lets through. */
  ghost predicate ListedOverdrawn(a: Account, listed: seq<nat>, used: int, cap: int) {
    && !CapReached(used, cap) && !SomePositive(a, listed, 0) && a.wallet <= 0
    && (a.wallet < 0 || SomeBelow(a, listed, 0))
  }

  /** The first answer of the fast path, a miss being allowed. */
  function FastVerdict(h: Redis, key: (nat, int), cap: int): QuotaVerdict {
    match Check(h, key, cap) case Known(v) => v case Miss => Allowed
  }

  /** What the cache says was spent on the key. */
  function UsedOf(r: Redis, key: (nat, int)): int {
    if key in r.kused then r.kused[key] else 0
  }

  /** On a cache in step the fast verdict is the gate's over the listed rows if and only if these
      are not overdrawn; with nothing below zero there is no miss. */
  lemma {:induction false} VerdictIff(h: Redis, a: Account, key: (nat, int), cap: int)
    requires InStep(h, a) && (cap > 0 ==> key in h.kused)
    ensures FastVerdict(h, key, cap) == ListedGate(a, h.listed, UsedOf(h, key), cap)
            <==> !ListedOverdrawn(a, h.listed, UsedOf(h, key), cap)
    ensures a.wallet >= 0 && !SomeBelow(a, h.listed, 0) ==> Check(h, key, cap).Known?
  {
    hide CheckFrom, SomePositive, SomeBelow;
    CheckInStep(h, a, 0);
  }

  /** In every run, with no invalidation pending, no mirror waiting or late and no harm done, if
      every listed counter is present the cache is in step, whatever the key's counter says: the
      verdict is the gate's over the listed rows unless these are overdrawn, and with nothing
      below zero no hydration happens at all. */
  lemma {:induction false} RunVerdictIff(
      pg: Account, steps: seq<Step>, kused: map<(nat, int), int>, key: (nat, int), cap: int,
      rows: seq<nat>, gotLock: bool)
    requires Runs(Start(pg), steps) && !Damaged(Start(pg), steps) && (cap > 0 ==> key in kused)
    ensures var w := After(Start(pg), steps);
            var r := w.redis.(kused := kused);
            w.invalidations == 0 && w.mirrors == [] && w.late == [] && Wallet in r.vals
            && (forall j | 0 <= j < |r.listed| :: Quota(r.listed[j]) in r.vals) ==>
              && (FastVerdict(r, key, cap) == ListedGate(w.pg, r.listed, UsedOf(r, key), cap)
                  <==> !ListedOverdrawn(w.pg, r.listed, UsedOf(r, key), cap))
              && (w.pg.wallet >= 0 && !SomeBelow(w.pg, r.listed, 0) && InRange(w.pg.subs, rows) ==>
                    HasQuotaFast(r, w.pg, rows, gotLock, key, cap) == ListedGate(w.pg, r.listed, UsedOf(r, key), cap))
  {
    hide CheckFrom, SomePositive, SomeBelow, ListedGate, Check;
    var w := After(Start(pg), steps);
    var r := w.redis.(kused := kused);
    if w.invalidations == 0 && w.mirrors == [] && w.late == [] && Wallet in r.vals
       && (forall j | 0 <= j < |r.listed| :: Quota(r.listed[j]) in r.vals)
    {
      CacheNeverFarAhead(pg, steps, Wallet);
      forall j | 0 <= j < |r.listed|
        ensures r.vals[Quota(r.listed[j])] == BalanceOf(w.pg, Quota(r.listed[j]))
      {
        assert Visible(w.redis, Quota(r.listed[j]));
        CacheNeverFarAhead(pg, steps, Quota(r.listed[j]));
      }
      VerdictIff(r, w.pg, key, cap);
    }
  }

  // ---- right after a hydration ------------------------------------------------------------------

  /** Overdrawn at `now`: nothing to spend, and a counter that hydration loads is below zero. */
  ghost predicate Overdrawn(a: Account, now: Time, cap: int) {
    && !CapReached(a.keyUsed, cap) && !AnyServing(a.subs, now) && a.wallet <= 0
    && (a.wallet < 0 || exists i :: 0 <= i < |a.subs| && InPeriod(a.subs[i], now) && a.subs[i].remaining < 0)
  }

  /** A listing taken at `now` turns the gate over its rows into the gate itself. */
  lemma {:induction false} ListingGate(a: Account, now: Time, listed: seq<nat>, cap: int)
    requires Listing(a.subs, now, listed)
    ensures ListedGate(a, listed, a.keyUsed, cap) == QuotaGate(a, now, cap)
    ensures ListedOverdrawn(a, listed, a.keyUsed, cap) <==> Overdrawn(a, now, cap)
  {
    ListedBalances(a, now, listed);
  }

  lemma {:induction false} ListedBalances(a: Account, now: Time, listed: seq<nat>)
    requires Listing(a.subs, now, listed)
    ensures SomePositive(a, listed, 0) <==> AnyServing(a.subs, now)
    ensures SomeBelow(a, listed, 0)
            <==> exists i :: 0 <= i < |a.subs| && InPeriod(a.subs[i], now) && a.subs[i].remaining < 0
  {
    if AnyServing(a.subs, now) {
      var i :| 0 <= i < |a.subs| && Serving(a.subs[i], now);
      var j :| 0 <= j < |listed| && listed[j] == i;
      assert BalanceOf(a, Quota(listed[j])) > 0;
    }
    forall j | 0 <= j < |listed| ensures InPeriod(a.subs[listed[j]], now) {
      assert listed[j] in listed;
    }
    if i :| 0 <= i < |a.subs| && InPeriod(a.subs[i], now) && a.subs[i].remaining < 0 {
      var j :| 0 <= j < |listed| && listed[j] == i;
      assert BalanceOf(a, Quota(listed[j])) < 0;
    }
  }

  lemma {:induction false} HydratedInStep(r: Redis, a: Account, listed: seq<nat>, key: (nat, int))
    requires InRange(a.subs, listed)
    ensures var h := Reloaded(r, a, listed, true, key);
            InStep(h, a) && h.listed == listed && key in h.kused && h.kused[key] == a.keyUsed
  {
    var h := Reloaded(r, a, listed, true, key);
    forall j | 0 <= j < |listed|
      ensures Quota(listed[j]) in h.vals && h.vals[Quota(listed[j])] == a.subs[listed[j]].remaining
    {
      assert Quota(listed[j]) in Keys(listed);
    }
  }

  /** Right after a hydration, the fast path and Postgres give the same verdict and reason exactly
      when the user is not overdrawn. */
  lemma {:induction false} FastPathAgreesIff(
      r: Redis, a: Account, now: Time, listed: seq<nat>, gotLock: bool, key: (nat, int), cap: int)
    requires Listing(a.subs, now, listed)
    ensures HasQuotaFast(Reloaded(r, a, listed, true, key), a, listed, gotLock, key, cap) == QuotaGate(a, now, cap)
            <==> !Overdrawn(a, now, cap)
  {
    hide CheckFrom, QuotaGate, Overdrawn, ListedOverdrawn, ListedGate;
    var h := Reloaded(r, a, listed, true, key);
    HydratedInStep(r, a, listed, key);
    HydratedInStep(h, a, listed, key);
    assert FastVerdict(h, key, cap) == HasQuotaFast(h, a, listed, gotLock, key, cap) by {
      CheckSame(h, Reloaded(h, a, listed, gotLock, key), a, 0);
    }
    VerdictIff(h, a, key, cap);
    ListingGate(a, now, listed, cap);
  }

  /** So they agree for every user whose wallet and rows are not below zero. */
  lemma {:induction false} FastPathAgrees(
      r: Redis, a: Account, now: Time, listed: seq<nat>, gotLock: bool, key: (nat, int), cap: int)
    requires Listing(a.subs, now, listed) && a.wallet >= 0
    requires forall i | 0 <= i < |a.subs| :: a.subs[i].remaining >= 0
    ensures HasQuotaFast(Reloaded(r, a, listed, true, key), a, listed, gotLock, key, cap) == QuotaGate(a, now, cap)
  {
    FastPathAgreesIff(r, a, now, listed, gotLock, key, cap);
  }

  /** A miss is answered by loading: with the lock, whatever the cache held, the answer is the one of
      Postgres, again unless the user is overdrawn. */
  lemma {:induction false} MissIsLoaded(r: Redis, a: Account, now: Time, listed: seq<nat>, key: (nat, int), cap: int)
    requires Listing(a.subs, now, listed) && Check(r, key, cap) == Miss
    ensures HasQuotaFast(r, a, listed, true, key, cap) == QuotaGate(a, now, cap) <==> !Overdrawn(a, now, cap)
  {
    hide CheckFrom, QuotaGate, Overdrawn, ListedOverdrawn, ListedGate;
    HydratedInStep(r, a, listed, key);
    VerdictIff(Reloaded(r, a, listed, true, key), a, key, cap);
    ListingGate(a, now, listed, cap);
  }

  /** The first answer stands if it is one, and without the lock an empty cache lets the user through. */
  lemma {:induction false} KnownStands(r: Redis, a: Account, listed: seq<nat>, gotLock: bool, key: (nat, int), cap: int)
    requires InRange(a.subs, listed)
    ensures Check(r, key, cap).Known? ==> HasQuotaFast(r, a, listed, gotLock, key, cap) == Check(r, key, cap).verdict
    ensures r.vals == map[] && r.listed == [] && !gotLock && !CapReached(a.keyUsed, cap)
            && !(key in r.kused && CapReached(r.kused[key], cap)) ==>
              HasQuotaFast(r, a, listed, gotLock, key, cap) == Allowed
  {
  }

  /** And they part for a wallet below zero: Postgres refuses, the fast path allows. */
  lemma {:induction false} OverdrawnWalletIsLetThrough(r: Redis, now: Time, gotLock: bool, key: (nat, int))
    ensures var a := Account(-5, [], 0, []);
            && Overdrawn(a, now, 0) && QuotaGate(a, now, 0) == NothingToSpend
            && HasQuotaFast(Reloaded(r, a, [], true, key), a, [], gotLock, key, 0) == Allowed
  {
    var a := Account(-5, [], 0, []);
    assert Listing(a.subs, now, []);
    HydratedInStep(r, a, [], key);
    HydratedInStep(Reloaded(r, a, [], true, key), a, [], key);
  }

  lemma {:induction false} CheckSame(r: Redis, r': Redis, a: Account, k: nat)
    requires InStep(r, a) && InStep(r', a) && r.listed == r'.listed && k <= |r.listed|
    ensures CheckFrom(r, k) == CheckFrom(r', k)
    decreases |r.listed| - k
  {
    if k < |r.listed| { CheckSame(r, r', a, k + 1); }
  }

  /** The selection of hydrate_user_quota always has an answer. */
  lemma {:induction false} ListingOf(subs: seq<Sub>, now: Time) returns (listed: seq<nat>)
    ensures Listing(subs, now, listed)
  {
    listed := [];
    if subs != [] {
      var n := |subs| - 1;
      listed := ListingOf(subs[..n], now);
      if InPeriod(subs[n], now) { listed := listed + [n]; }
    }
  }

  ghost function LoadedTo(vals: map<Source, int>, a: Account, ids: seq<nat>, k: nat): map<Source, int>
    requires k <= |ids|
  {
    vals[Wallet := a.wallet] + map s | s in Keys(ids[..k]) :: BalanceOf(a, s)
  }

  lemma {:induction false} LoadNext(vals: map<Source, int>, a: Account, ids: seq<nat>, k: nat)
    requires k < |ids| && ids[k] < |a.subs|
    ensures LoadedTo(vals, a, ids, k + 1) == LoadedTo(vals, a, ids, k)[Quota(ids[k]) := a.subs[ids[k]].remaining]
  {
    assert Keys(ids[..k + 1]) == Keys(ids[..k]) + {Quota(ids[k])};
  }

  method SelectInPeriod(l: Ledger, now: Time) returns (ids: seq<nat>)
    ensures Listing(l.subs, now, ids)
  {
    ids := [];
    for i := 0 to |l.subs|
      invariant forall k | 0 <= k < |ids| :: ids[k] < i
      invariant forall j | 0 <= j < i :: InPeriod(l.subs[j], now) <==> j in ids
    {
      if l.subs[i].status.Active? && l.subs[i].periodEnd > now {
        ids := ids + [i];
      }
    }
  }

  // ---- the counters as the code updates them ----------------------------------------------------

  class Cache {
    var vals: map<Source, int>
    var listed: seq<nat>
    var kused: map<(nat, int), int>

    ghost function State(): Redis
      reads this
    {
      Redis(vals, listed, kused)
    }

    /** Mirrors a committed charge. The usage counter of the key is created if absent. */
    method ApplyCharge(key: Option<(nat, int)>, cost: int, taken: seq<Take>)
      modifies this
      ensures State() == (if cost <= 0 then old(State()) else
                            Redis(Mirrored(old(vals), taken), old(listed),
                                  if key.None? then old(kused)
                                  else old(kused)[key.value :=
                                    cost + if key.value in old(kused) then old(kused)[key.value] else 0]))
    {
      if cost <= 0 {
        return;
      }
      for k := 0 to |taken|
        invariant vals == Mirrored(old(vals), taken[..k])
        invariant listed == old(listed) && kused == old(kused)
      {
        assert taken[..k + 1][..k] == taken[..k];
        var t := taken[k];
        if t.amount > 0 && t.source in vals {
          vals := vals[t.source := vals[t.source] - t.amount];
        }
      }
      assert taken[..|taken|] == taken;
      if key.Some? {
        kused := kused[key.value := cost + if key.value in kused then kused[key.value] else 0];
      }
    }

    method InvalidateUserQuota()
      modifies this
      ensures State() == Invalidated(old(State()))
    {
      var ids := listed;
      vals := vals - {Wallet};
      listed := [];
      for k := 0 to |ids|
        invariant vals == old(vals) - {Wallet} - Keys(ids[..k])
        invariant listed == [] && kused == old(kused)
      {
        assert Keys(ids[..k + 1]) == Keys(ids[..k]) + {Quota(ids[k])};
        vals := vals - {Quota(ids[k])};
      }
      assert ids[..|ids|] == ids;
    }

    /** Loads wallet and in-period rows; does nothing without the lock. */
    method HydrateUserQuota(l: Ledger, now: Time, gotLock: bool) returns (ghost rows: seq<nat>)
      modifies this
      ensures Listing(l.subs, now, rows)
      ensures State() == if gotLock then Hydrated(old(State()), l.State(), rows) else old(State())
    {
      if !gotLock {
        rows := ListingOf(l.subs, now);
        return;
      }
      var ids := SelectInPeriod(l, now);
      rows := ids;
      vals := vals[Wallet := l.wallet];
      listed := ids;
      for k := 0 to |ids|
        invariant vals == LoadedTo(old(vals), l.State(), ids, k)
        invariant listed == ids && kused == old(kused)
      {
        LoadNext(old(vals), l.State(), ids, k);
        vals := vals[Quota(ids[k]) := l.subs[ids[k]].remaining];
      }
      assert ids[..|ids|] == ids;
    }

    method CheckQuota(key: (nat, int), cap: int) returns (a: Answer)
      ensures a == Check(State(), key, cap)
    {
      if cap > 0 {
        if key !in kused {
          return Miss;
        }
        if kused[key] >= cap {
          return Known(KeyCapReached);
        }
      }
      for k := 0 to |listed|
        invariant CheckFrom(State(), 0) == CheckFrom(State(), k)
      {
        var s := Quota(listed[k]);
        if s !in vals || vals[s] < 0 {
          return Miss;
        }
        if vals[s] > 0 {
          return Known(Allowed);
        }
      }
      if Wallet !in vals || vals[Wallet] < 0 {
        return Miss;
      }
      a := if vals[Wallet] > 0 then Known(Allowed) else Known(NothingToSpend);
    }

    method HasQuota(l: Ledger, now: Time, gotLock: bool, key: (nat, int), cap: int)
      returns (v: QuotaVerdict, ghost rows: seq<nat>)
      modifies this
      ensures Listing(l.subs, now, rows)
      ensures v == HasQuotaFast(old(State()), l.State(), rows, gotLock, key, cap)
    {
      var a := CheckQuota(key, cap);
      if a.Known? {
        rows := ListingOf(l.subs, now);
        return a.verdict, rows;
      }
      rows := HydrateUserQuota(l, now, gotLock);
      kused := kused[key := l.keyUsed];
      a := CheckQuota(key, cap);
      v := if a.Known? then a.verdict else Allowed;
    }
  }
}
