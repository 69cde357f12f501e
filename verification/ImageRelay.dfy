/** Image pricing, and the hold, generate, reconcile loop over a chain of upstreams. */
module ImageRelay {
  import opened Prelude
  import opened Calendar
  import opened Billing
  import opened BillingStore

  // ---- pricing ----------------------------------------------------------------------------------

  datatype Tier = Tier(size: string, quality: Option<string>, price: nat)

  datatype Pricing =
    | PerImage(tiers: seq<Tier>, defaultPrice: nat)
    | ByToken(outTokens: map<string, nat>, defaultOut: nat)

  datatype Model = Model(id: int, promptRate: nat, completionRate: nat, pricing: Pricing)

  predicate Matches(t: Tier, size: string, quality: string) {
    t.size == size && (t.quality.None? || t.quality.value == quality)
  }

  function FirstMatch(tiers: seq<Tier>, size: string, quality: string): Option<nat> {
    if tiers == [] then None
    else if Matches(tiers[0], size, quality) then Some(tiers[0].price)
    else FirstMatch(tiers[1..], size, quality)
  }

  function Dearest(tiers: seq<Tier>): nat {
    if tiers == [] then 0 else Max(tiers[0].price, Dearest(tiers[1..]))
  }

  function UnitPrice(tiers: seq<Tier>, defaultPrice: nat, size: string, quality: string): nat {
    match FirstMatch(tiers, size, quality)
    case Some(p) => p
    case None => if tiers != [] then Dearest(tiers) else defaultPrice
  }

  /** A tier for this size, and for this quality or any. */
  predicate Fits(t: Tier, size: string, quality: string) {
    t.size == size && (t.quality == None || t.quality == Some(quality))
  }

  /** `unit` is the price of the k-th tier, and that tier is the first that fits, or none fits and
      no tier is dearer. */
  predicate PricedBy(tiers: seq<Tier>, size: string, quality: string, unit: nat, k: int) {
    && 0 <= k < |tiers| && tiers[k].price == unit
    && (if Fits(tiers[k], size, quality)
        then forall j | 0 <= j < k :: !Fits(tiers[j], size, quality)
        else forall j | 0 <= j < |tiers| :: !Fits(tiers[j], size, quality) && tiers[j].price <= unit)
  }

  /** The price of one image: by some tier, or the default price when there are none. */
  ghost predicate Priced(tiers: seq<Tier>, defaultPrice: nat, size: string, quality: string, unit: nat) {
    if tiers == [] then unit == defaultPrice else exists k :: PricedBy(tiers, size, quality, unit, k)
  }

  lemma {:induction false} UnitPriceNeverUnder(tiers: seq<Tier>, defaultPrice: nat, size: string, quality: string)
    ensures Priced(tiers, defaultPrice, size, quality, UnitPrice(tiers, defaultPrice, size, quality))
  {
    if tiers != [] {
      var unit := UnitPrice(tiers, defaultPrice, size, quality);
      if !Matches(tiers[0], size, quality) && |tiers| > 1 {
        var rest := tiers[1..];
        UnitPriceNeverUnder(rest, defaultPrice, size, quality);
        var below := UnitPrice(rest, defaultPrice, size, quality);
        var k :| PricedBy(rest, size, quality, below, k);
        MatchFound(rest, size, quality);
        var w := if !Matches(rest[k], size, quality) && tiers[0].price >= rest[k].price then 0 else k + 1;
        assert forall j | 1 <= j < |tiers| :: tiers[j] == rest[j - 1];
        assert PricedBy(tiers, size, quality, unit, w);
      } else {
        assert |tiers| == 1 ==>
                 tiers[1..] == [] && Dearest(tiers[1..]) == 0 && FirstMatch(tiers[1..], size, quality) == None;
        assert PricedBy(tiers, size, quality, unit, 0);
      }
    }
  }

  lemma {:induction false} MatchFound(tiers: seq<Tier>, size: string, quality: string)
    ensures FirstMatch(tiers, size, quality).Some? <==> exists j :: 0 <= j < |tiers| && Matches(tiers[j], size, quality)
  {
    if tiers != [] {
      MatchFound(tiers[1..], size, quality);
      assert forall j | 1 <= j < |tiers| :: tiers[j] == tiers[1..][j - 1];
    }
  }

  function CalcCostCents(m: Model, promptTokens: int, completionTokens: int): int {
    CeilDiv(promptTokens * m.promptRate + completionTokens * m.completionRate, 10_000_000)
  }

  function OutTokens(outTokens: map<string, nat>, defaultOut: nat, size: string, quality: string): nat {
    var key := size + "|" + quality;
    if key in outTokens then outTokens[key] else defaultOut
  }

  function Micro(m: Model, size: string, quality: string, n: int, prompt: string): int {
    match m.pricing
    case ByToken(outTokens, defaultOut) =>
      var promptTokens := if prompt != "" then Max(1, |prompt| / 4) else 0;
      promptTokens * m.promptRate + OutTokens(outTokens, defaultOut, size, quality) * Max(0, n) * m.completionRate
    case PerImage(tiers, defaultPrice) =>
      UnitPrice(tiers, defaultPrice, size, quality) * Max(0, n)
  }

  function QuoteImageCostCents(m: Model, size: string, quality: string, n: int, prompt: string): int {
    CeilDiv(Micro(m, size, quality, n, prompt), if m.pricing.ByToken? then 10_000_000 else 10_000)
  }

  /** A quote by the image is the price of the images, rounded up to whole cents. */
  lemma {:induction false} QuoteByImage(m: Model, size: string, quality: string, n: int, prompt: string)
    requires m.pricing.PerImage?
    ensures var unit := UnitPrice(m.pricing.tiers, m.pricing.defaultPrice, size, quality);
            var cents := QuoteImageCostCents(m, size, quality, n, prompt);
            && Priced(m.pricing.tiers, m.pricing.defaultPrice, size, quality, unit)
            && (n >= 0 ==> (cents - 1) * 10_000 < unit * n <= cents * 10_000)
            && (n <= 0 ==> cents == 0)
  {
    UnitPriceNeverUnder(m.pricing.tiers, m.pricing.defaultPrice, size, quality);
  }

  /** A quarter of the prompt's length, but at least one token unless it is empty. */
  ghost predicate PromptEstimate(prompt: string, tokens: int) {
    if prompt == "" then tokens == 0
    else tokens >= 1 && (tokens == 1 || 4 * tokens <= |prompt|) && |prompt| < 4 * (tokens + 1)
  }

  /** A quote by tokens: the estimated prompt and, for each image, the tokens listed under its size
      and quality or else the default, at the model's rates, rounded up. */
  lemma {:induction false} QuoteByToken(m: Model, size: string, quality: string, n: int, prompt: string)
    returns (tokens: int)
    requires m.pricing.ByToken?
    ensures PromptEstimate(prompt, tokens)
    ensures var key := size + "|" + quality;
            var out := if key in m.pricing.outTokens then m.pricing.outTokens[key] else m.pricing.defaultOut;
            var cents := QuoteImageCostCents(m, size, quality, n, prompt);
            var micro := tokens * m.promptRate + out * (if n >= 0 then n else 0) * m.completionRate;
            (cents - 1) * 10_000_000 < micro <= cents * 10_000_000
  {
    tokens := if prompt != "" then Max(1, |prompt| / 4) else 0;
  }

  /** The cost of a usage is its tokens at the model's rates, rounded up to whole cents. */
  lemma {:induction false} CostOfUsage(m: Model, promptTokens: int, completionTokens: int)
    ensures var cents := CalcCostCents(m, promptTokens, completionTokens);
            var micro := promptTokens * m.promptRate + completionTokens * m.completionRate;
            (cents - 1) * 10_000_000 < micro <= cents * 10_000_000
  {
  }

  /** Fewer images never cost more: the hold for the requested number covers any smaller delivery. */
  lemma {:induction false} QuoteMonotone(m: Model, size: string, quality: string, n: int, n': int, prompt: string)
    requires n <= n'
    ensures 0 <= QuoteImageCostCents(m, size, quality, n, prompt) <= QuoteImageCostCents(m, size, quality, n', prompt)
  {
    var x, y := Max(0, n), Max(0, n');
    match m.pricing {
      case ByToken(outTokens, defaultOut) =>
        var out := OutTokens(outTokens, defaultOut, size, quality);
        MulMonotone(x, y, out);
        assert 0 <= out * x <= out * y;
        MulMonotone(out * x, out * y, m.completionRate);
        MulMonotone(0, out * x, m.completionRate);
      case PerImage(tiers, defaultPrice) =>
        MulMonotone(x, y, UnitPrice(tiers, defaultPrice, size, quality));
    }
    var d := if m.pricing.ByToken? then 10_000_000 else 10_000;
    CeilDivMonotone(0, Micro(m, size, quality, n, prompt), d);
    CeilDivMonotone(Micro(m, size, quality, n, prompt), Micro(m, size, quality, n', prompt), d);
  }

  // ---- the relay --------------------------------------------------------------------------------

  datatype Reply = Reply(status: int, images: nat, usage: Option<(int, int)>)

  /** A candidate with what its upstream will answer and the clock at its gate, hold and settlement. */
  datatype Candidate = Candidate(
    model: Model,
    hasAdapter: bool,
    supported: bool,
    reply: Reply,
    gate: Time,
    hold: Time,
    settle: Time)

  datatype Request = Request(size: string, quality: string, n: int, prompt: string)

  datatype UsageLog = UsageLog(modelId: int, cost: int, images: nat, ok: bool)

  datatype Outcome =
    | NoUpstream
    | Insufficient(at: nat)
    | Delivered(winner: nat)
    | AllFailed(status: int)

  predicate Usable(c: Candidate) { c.hasAdapter && c.supported }

  predicate Delivers(c: Candidate) { Usable(c) && c.reply.status == 200 && c.reply.images > 0 }

  function Estimate(c: Candidate, q: Request): int {
    QuoteImageCostCents(c.model, q.size, q.quality, q.n, q.prompt)
  }

  function Actual(c: Candidate, q: Request): int {
    if c.model.pricing.ByToken? && c.reply.usage.Some?
    then CalcCostCents(c.model, c.reply.usage.value.0, c.reply.usage.value.1)
    else QuoteImageCostCents(c.model, q.size, q.quality, c.reply.images, q.prompt)
  }

  /** What is held is the quote for the images requested; what is charged in the end is the reported
      usage for a model billed by tokens, and otherwise the quote for the images delivered. */
  lemma {:induction false} HeldAndCharged(c: Candidate, q: Request)
    ensures Estimate(c, q) == QuoteImageCostCents(c.model, q.size, q.quality, q.n, q.prompt)
    ensures c.model.pricing.ByToken? && c.reply.usage.Some? ==>
              var (prompt, completion) := c.reply.usage.value;
              var micro := prompt * c.model.promptRate + completion * c.model.completionRate;
              (Actual(c, q) - 1) * 10_000_000 < micro <= Actual(c, q) * 10_000_000
    ensures c.model.pricing.PerImage? || c.reply.usage.None? ==>
              Actual(c, q) == QuoteImageCostCents(c.model, q.size, q.quality, c.reply.images, q.prompt)
  {
    hide QuoteImageCostCents;
  }

  /** The logged cost is negative exactly when the model is billed by tokens and the upstream
      reports so negative a usage. */
  lemma {:induction false} NegativeCostIff(c: Candidate, q: Request)
    ensures Actual(c, q) < 0
            <==> (c.model.pricing.ByToken? && c.reply.usage.Some?
                  && c.reply.usage.value.0 * c.model.promptRate + c.reply.usage.value.1 * c.model.completionRate
                     <= -10_000_000)
  {
    QuoteMonotone(c.model, q.size, q.quality, c.reply.images, c.reply.images, q.prompt);
  }

  /** Such a reply: ten million prompt tokens less than none, at the lowest rate. */
  lemma {:induction false} NegativeCostIsLogged(q: Request, t: Time)
    ensures var m := Model(1, 1, 0, ByToken(map[], 0));
            var c := Candidate(m, true, true, Reply(200, 1, Some((-10_000_000, 0))), t, t, t);
            Delivers(c) && Actual(c, q) == -1
  {
  }

  function StatusAfter(cs: seq<Candidate>): int {
    if cs == [] then 502
    else if Usable(cs[|cs| - 1]) then cs[|cs| - 1].reply.status
    else 502
  }

  ghost predicate SamePeriods(a: seq<Sub>, b: seq<Sub>) {
    |a| == |b| && forall i | 0 <= i < |a| :: b[i] == a[i].(remaining := b[i].remaining)
  }

  /** No row's period ends between a candidate's gate and its hold. */
  ghost predicate NoneExpires(subs: seq<Sub>, c: Candidate) {
    c.gate <= c.hold && forall i | 0 <= i < |subs| :: !(c.gate < subs[i].periodEnd <= c.hold)
  }

  lemma {:induction false} ServingSumSteady(subs: seq<Sub>, t: Time, t': Time)
    requires t <= t' && forall i | 0 <= i < |subs| :: !(t < subs[i].periodEnd <= t')
    ensures ServingSum(subs, t) == ServingSum(subs, t')
  {
    if subs != [] { ServingSumSteady(subs[..|subs| - 1], t, t'); }
  }

  lemma {:induction false} ChargeSamePeriods(a: Account, now: Time, order: seq<nat>, cost: int, hasKey: bool)
    requires QueryOrder(a.subs, now, order)
    ensures SamePeriods(a.subs, Charge(a, order, cost, hasKey).subs)
  {
    forall i | 0 <= i < |a.subs|
      ensures var b := Charge(a, order, cost, hasKey);
              |b.subs| == |a.subs| && b.subs[i] == a.subs[i].(remaining := b.subs[i].remaining)
    {
      ChargeRow(a, now, order, cost, hasKey, i);
    }
  }

  lemma {:induction false} RefundSamePeriods(a: Account, now: Time, taken: seq<Take>, amount: int, hasKey: bool)
    requires NonNegative(taken)
    ensures SamePeriods(a.subs, RefundTo(a, now, taken, amount, hasKey).subs)
  {
    forall i | 0 <= i < |a.subs|
      ensures var b := RefundTo(a, now, taken, amount, hasKey);
              |b.subs| == |a.subs| && b.subs[i] == a.subs[i].(remaining := b.subs[i].remaining)
    {
      RefundBySource(a, now, taken, amount, hasKey, i);
    }
  }

  /** A hold that passed its gate leaves the wallet non-negative if no row expires in between. */
  lemma {:induction false} GateCoversHold(a: Account, c: Candidate, order: seq<nat>, cost: int, hasKey: bool)
    requires QueryOrder(a.subs, c.hold, order) && a.wallet >= 0 && NoneExpires(a.subs, c)
    requires cost > 0 ==> cost <= Available(a, c.gate)
    ensures Charge(a, order, cost, hasKey).wallet >= 0
  {
    ServingSumSteady(a.subs, c.gate, c.hold);
    HoldKeepsWallet(a, c.hold, order, cost, hasKey);
    QuerySum(a.subs, c.hold, order);
  }

  /** Without that proviso the gate is no guarantee: a row that ends between gate and hold
      leaves the wallet to pay, below zero. */
  lemma {:induction false} GateCanBeOutrun()
    ensures var s := Sub(0, 0, 10, Active, 100, false);
            var a := Account(0, [s], 0, []);
            && Available(a, 9) == 100 && QueryOrder(a.subs, 10, [])
            && Charge(a, [], 100, false).wallet == -100
  {
    var s := Sub(0, 0, 10, Active, 100, false);
    assert [s][..0] == [];
    assert ServingSum([s], 9) == ServingSum([], 9) + 100;
  }

  lemma {:induction false} PeriodsCompose(a: seq<Sub>, b: seq<Sub>, c: seq<Sub>, k: Candidate)
    requires SamePeriods(a, b)
    ensures SamePeriods(b, c) ==> SamePeriods(a, c)
    ensures NoneExpires(a, k) ==> NoneExpires(b, k)
  {
  }

  /** A settled attempt, hold included, costs exactly the actual price, or nothing if the
      upstream reported a negative one. */
  ghost predicate Settles(a: Account, b: Account, actual: int, hasKey: bool) {
    && Worth(b) == Worth(a) - Max(0, actual)
    && b.keyUsed == a.keyUsed + (if hasKey then Max(0, actual) else 0)
    && SamePeriods(a.subs, b.subs)
  }

  lemma {:induction false} HoldThenRefundPeriods(
      a: Account, c: Candidate, order: seq<nat>, estimate: int, refund: int, hasKey: bool)
    requires QueryOrder(a.subs, c.hold, order)
    ensures var taken, h := Breakdown(a.subs, order, estimate), Charge(a, order, estimate, hasKey);
            SamePeriods(a.subs, RefundTo(h, c.settle, taken, refund, hasKey).subs)
  {
    var taken, h := Breakdown(a.subs, order, estimate), Charge(a, order, estimate, hasKey);
    ChargeConserves(a, c.hold, order, estimate, hasKey);
    ChargeSamePeriods(a, c.hold, order, estimate, hasKey);
    RefundSamePeriods(h, c.settle, taken, refund, hasKey);
    PeriodsCompose(a.subs, h.subs, RefundTo(h, c.settle, taken, refund, hasKey).subs, c);
  }

  lemma {:induction false} RefundSettles(
      a: Account, c: Candidate, order: seq<nat>, estimate: int, actual: int, hasKey: bool)
    requires QueryOrder(a.subs, c.hold, order) && estimate >= 0 && actual <= estimate
    ensures var taken, h := Breakdown(a.subs, order, estimate), Charge(a, order, estimate, hasKey);
            var b := RefundTo(h, c.settle, taken, estimate - actual, hasKey);
            Settles(a, b, actual, hasKey) && b.wallet >= h.wallet
  {
    hide Charge, Breakdown, RefundTo, RefundTotal, Worth;
    var taken, h := Breakdown(a.subs, order, estimate), Charge(a, order, estimate, hasKey);
    ChargeConserves(a, c.hold, order, estimate, hasKey);
    RefundConserves(h, c.settle, taken, estimate - actual, hasKey);
    HoldThenRefundPeriods(a, c, order, estimate, estimate - actual, hasKey);
  }

  lemma {:induction false} ChargeSettles(
      a: Account, c: Candidate, order: seq<nat>, estimate: int, more: seq<nat>, actual: int, hasKey: bool)
    requires QueryOrder(a.subs, c.hold, order) && 0 <= estimate < actual
    requires QueryOrder(Charge(a, order, estimate, hasKey).subs, c.settle, more)
    ensures Settles(a, Charge(Charge(a, order, estimate, hasKey), more, actual - estimate, hasKey), actual, hasKey)
  {
    hide Charge, Breakdown, Worth;
    var h := Charge(a, order, estimate, hasKey);
    var b := Charge(h, more, actual - estimate, hasKey);
    ChargeConserves(a, c.hold, order, estimate, hasKey);
    ChargeConserves(h, c.settle, more, actual - estimate, hasKey);
    assert SamePeriods(a.subs, b.subs) by {
      ChargeSamePeriods(a, c.hold, order, estimate, hasKey);
      ChargeSamePeriods(h, c.settle, more, actual - estimate, hasKey);
      PeriodsCompose(a.subs, h.subs, b.subs, c);
    }
  }

  /** One attempt of the loop: hold the estimate, take the upstream's reply, then charge the
      difference, refund it, or refund everything. `held` is the wallet right after the hold. */
  method Attempt(l: Ledger, hasKey: bool, c: Candidate, q: Request, estimate: int)
    returns (delivered: bool, actual: int, ghost held: int)
    requires Usable(c) && estimate == Estimate(c, q) >= 0
    requires estimate > 0 ==> estimate <= Available(l.State(), c.gate)
    modifies l
    ensures delivered == Delivers(c) && actual == if delivered then Actual(c, q) else 0
    ensures Settles(old(l.State()), l.State(), actual, hasKey)
    ensures old(l.wallet) >= 0 && NoneExpires(old(l.subs), c) ==> held >= 0 && (!delivered ==> l.wallet >= 0)
  {
    hide Charge, Breakdown, RefundTo, RefundTotal, Worth, Available;
    ghost var a := l.State();
    var taken, order := l.ChargeUser(c.hold, estimate, hasKey);
    held := l.wallet;
    if a.wallet >= 0 && NoneExpires(a.subs, c) { GateCoversHold(a, c, order, estimate, hasKey); }
    delivered := c.reply.status == 200 && c.reply.images > 0;
    actual := if delivered then Actual(c, q) else 0;
    if actual <= estimate {
      RefundSettles(a, c, order, estimate, actual, hasKey);
      RefundNothing(l.State(), c.settle, taken, hasKey);
      if actual < estimate {
        var _ := l.RefundToSources(c.settle, taken, estimate - actual, hasKey);
      }
    } else {
      ghost var more;
      taken, more := l.ChargeUser(c.settle, actual - estimate, hasKey);
      ChargeSettles(a, c, order, estimate, more, actual, hasKey);
    }
  }

  /**
    For any candidates, replies and clock readings: the user's worth changes by exactly the cost
    in the one usage row written (a negative reported cost charges nothing), nothing is charged
    when every candidate fails or a gate refuses, the row is the first delivering candidate's,
    and no hold overdraws the wallet while no row expires between gate and hold.
    `holds` lists the wallet right after each hold.
  */
  method ExecuteImageRelay(l: Ledger, hasKey: bool, cs: seq<Candidate>, q: Request)
    returns (outcome: Outcome, logs: seq<UsageLog>, ghost holds: seq<int>)
    modifies l
    ensures outcome.NoUpstream? <==> cs == []
    ensures match outcome
            case NoUpstream => l.State() == old(l.State()) && logs == []
            case Insufficient(k) =>
              && k < |cs| && cs[k].hasAdapter && cs[k].supported && Estimate(cs[k], q) > 0
              && (forall j | 0 <= j < k :: !Delivers(cs[j]))
              && logs == [] && Estimate(cs[k], q) > Available(l.State(), cs[k].gate)
            case Delivered(w) =>
              && w < |cs| && Delivers(cs[w]) && (forall j | 0 <= j < w :: !Delivers(cs[j]))
              && cs[w].reply.status == 200 && cs[w].reply.images > 0
              && (forall j | 0 <= j < w && cs[j].hasAdapter && cs[j].supported ::
                    cs[j].reply.status != 200 || cs[j].reply.images == 0)
              && logs == [UsageLog(cs[w].model.id, Actual(cs[w], q), cs[w].reply.images, true)]
            case AllFailed(status) =>
              && (forall j | 0 <= j < |cs| && cs[j].hasAdapter && cs[j].supported ::
                    cs[j].reply.status != 200 || cs[j].reply.images == 0)
              && (var last := cs[|cs| - 1];
                  status == if last.hasAdapter && last.supported then last.reply.status else 502)
              && logs == [UsageLog(cs[0].model.id, 0, 0, false)]
    ensures var cost := if logs == [] then 0 else Max(0, logs[0].cost);
            && Worth(l.State()) == old(Worth(l.State())) - cost
            && l.keyUsed == old(l.keyUsed) + if hasKey then cost else 0
    ensures SamePeriods(old(l.subs), l.subs)
    ensures old(l.wallet) >= 0 && (forall c | c in cs :: NoneExpires(old(l.subs), c)) ==>
              forall k | 0 <= k < |holds| :: holds[k] >= 0
  {
    hide QuoteImageCostCents, Actual, Available, Worth;
    holds := [];
    if cs == [] {
      return NoUpstream, [], holds;
    }
    var status := 502;
    for k := 0 to |cs|
      invariant status == StatusAfter(cs[..k])
      invariant forall j | 0 <= j < k :: !Delivers(cs[j])
      invariant Worth(l.State()) == old(Worth(l.State())) && l.keyUsed == old(l.keyUsed)
      invariant SamePeriods(old(l.subs), l.subs)
      invariant old(l.wallet) >= 0 && (forall c | c in cs :: NoneExpires(old(l.subs), c)) ==>
                  l.wallet >= 0 && forall k | 0 <= k < |holds| :: holds[k] >= 0
    {
      var c := cs[k];
      assert cs[..k + 1][k] == c;
      if !c.hasAdapter || !c.supported {
        status := 502;
        continue;
      }
      var estimate := QuoteImageCostCents(c.model, q.size, q.quality, q.n, q.prompt);
      if estimate > 0 {
        var available := l.AvailableCents(c.gate);
        if available < estimate {
          return Insufficient(k), [], holds;
        }
      }
      QuoteMonotone(c.model, q.size, q.quality, q.n, q.n, q.prompt);
      var delivered, actual;
      ghost var held;
      ghost var before := l.subs;
      delivered, actual, held := Attempt(l, hasKey, c, q, estimate);
      PeriodsCompose(old(l.subs), before, l.subs, c);
      holds := holds + [held];
      if delivered {
        return Delivered(k), [UsageLog(c.model.id, actual, c.reply.images, true)], holds;
      }
      status := c.reply.status;
    }
    assert cs[..|cs|] == cs;
    logs := [UsageLog(cs[0].model.id, 0, 0, false)];
    outcome := AllFailed(status);
  }
}
