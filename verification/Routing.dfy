/** Choosing a routing chain, printing it into a header, and reading it back in the translator. */
module Routing {
  import opened Prelude
  import opened Framing

  datatype Model = Model(id: nat, enabled: bool, channelId: nat, upstream: string)
  datatype Channel = Channel(id: nat, enabled: bool)
  datatype Target = Target(modelId: nat, tag: Option<string>, weight: int)
  datatype Pair = Pair(model: Model, channel: Channel, target: Target)

  /** The rows, by primary key. */
  datatype Rows = Rows(models: map<nat, Model>, channels: map<nat, Channel>) {
    ghost predicate Keyed() {
      && (forall i | i in models :: models[i].id == i)
      && (forall i | i in channels :: channels[i].id == i)
    }

    predicate Serves(modelId: nat, channelId: nat) {
      modelId in models && models[modelId].enabled && ChannelUp(channelId)
    }

    predicate ChannelUp(channelId: nat) { channelId in channels && channels[channelId].enabled }

    /** The upstream's name for a model, empty if the row is gone. */
    function Upstream(modelId: nat): string { if modelId in models then models[modelId].upstream else "" }
  }

  /** The strategy with what it drew: the chosen label, the cursor, the random number. */
  datatype Strategy = Smart(chosen: Option<string>, draw: real) | RoundRobin(cursor: nat) | Weighted(draw: real)

  datatype Policy = Policy(targets: seq<Target>, fallback: Option<nat>, strategy: Strategy)

  // ---- picking ----------------------------------------------------------------------------------

  ghost predicate Usable(rows: Rows, p: Pair) {
    && rows.Serves(p.model.id, p.channel.id) && p.channel.id == p.model.channelId
    && rows.models[p.model.id] == p.model && rows.channels[p.channel.id] == p.channel
  }

  predicate TargetServes(rows: Rows, t: Target) {
    t.modelId in rows.models && rows.Serves(t.modelId, rows.models[t.modelId].channelId)
  }

  /** The targets that serve, in order, with their rows. */
  function UsablePairs(targets: seq<Target>, rows: Rows): seq<Pair> {
    if targets == [] then []
    else
      var t := targets[|targets| - 1];
      UsablePairs(targets[..|targets| - 1], rows)
      + if TargetServes(rows, t)
        then [Pair(rows.models[t.modelId], rows.channels[rows.models[t.modelId].channelId], t)] else []
  }

  /** These are usable pairs of the targets, one at least for each target that serves. */
  lemma {:induction false} UsablePairsServe(targets: seq<Target>, rows: Rows)
    requires rows.Keyed()
    ensures forall p | p in UsablePairs(targets, rows) ::
              Usable(rows, p) && p.target in targets && p.target.modelId == p.model.id
    ensures forall t | t in targets && TargetServes(rows, t) ::
              exists p :: p in UsablePairs(targets, rows) && p.target == t
  {
    if targets != [] {
      var n := |targets| - 1;
      UsablePairsServe(targets[..n], rows);
      var before, all := UsablePairs(targets[..n], rows), UsablePairs(targets, rows);
      assert forall p | p in before :: p in all;
      if TargetServes(rows, targets[n]) { assert all[|before|].target == targets[n]; }
      forall t | t in targets && TargetServes(rows, t) ensures exists p :: p in all && p.target == t {
        if t != targets[n] { assert t in targets[..n]; }
      }
    }
  }

  /** The order is that of the targets. */
  lemma {:induction false} UsableInOrder(targets: seq<Target>, more: seq<Target>, rows: Rows)
    ensures UsablePairs(targets + more, rows) == UsablePairs(targets, rows) + UsablePairs(more, rows)
  {
    if more == [] {
      assert targets + more == targets;
    } else {
      var n := |more| - 1;
      assert (targets + more)[..|targets| + n] == targets + more[..n];
      UsableInOrder(targets, more[..n], rows);
    }
  }

  method OrderedTargets(policy: Policy, rows: Rows) returns (out: seq<Pair>)
    requires rows.Keyed()
    ensures out == UsablePairs(policy.targets, rows)
    ensures forall p | p in out :: Usable(rows, p) && p.target in policy.targets && p.target.modelId == p.model.id
    ensures forall t | t in policy.targets && TargetServes(rows, t) :: exists p :: p in out && p.target == t
  {
    out := [];
    var ts := policy.targets;
    for k := 0 to |ts|
      invariant out == UsablePairs(ts[..k], rows)
    {
      assert ts[..k + 1][..k] == ts[..k];
      var t := ts[k];
      if t.modelId !in rows.models || !rows.models[t.modelId].enabled {
        continue;
      }
      var m := rows.models[t.modelId];
      if m.channelId !in rows.channels || !rows.channels[m.channelId].enabled {
        continue;
      }
      out := out + [Pair(m, rows.channels[m.channelId], t)];
    }
    assert ts[..|ts|] == ts;
    UsablePairsServe(ts, rows);
  }

  function Weight(p: Pair): nat { Max(p.target.weight, 0) }

  /** Total weight of the first k pairs. */
  function Upto(pairs: seq<Pair>, k: nat): nat
    requires k <= |pairs|
  {
    if k == 0 then 0 else Upto(pairs, k - 1) + Weight(pairs[k - 1])
  }

  /** The k-th is the first pair whose running total reaches the draw; without any weight it is the
      first pair, and beyond the total the last. */
  predicate ReachedFirst(pairs: seq<Pair>, draw: real, k: int) {
    && 0 <= k < |pairs|
    && if Upto(pairs, |pairs|) == 0 then k == 0
       else (forall j | 1 <= j <= k :: Upto(pairs, j) as real < draw)
            && (draw <= Upto(pairs, k + 1) as real || k == |pairs| - 1)
  }

  method WeightedPick(pairs: seq<Pair>, draw: real) returns (k: nat)
    requires pairs != []
    ensures ReachedFirst(pairs, draw, k)
  {
    var total := 0;
    for j := 0 to |pairs|
      invariant total == Upto(pairs, j)
    {
      total := total + Weight(pairs[j]);
    }
    if total <= 0 {
      return 0;
    }
    var accumulated := 0;
    for j := 0 to |pairs|
      invariant accumulated == Upto(pairs, j)
      invariant forall i | 1 <= i <= j :: Upto(pairs, i) as real < draw
    {
      accumulated := accumulated + Weight(pairs[j]);
      if draw <= accumulated as real {
        return j;
      }
    }
    k := |pairs| - 1;
  }

  /** With a draw within the total and above zero, the pair picked has weight, and the draw lies
      within that weight after the pairs before it: so each is picked in proportion. */
  lemma {:induction false} ZeroWeightNeverPicked(pairs: seq<Pair>, draw: real, k: nat)
    requires ReachedFirst(pairs, draw, k) && 0.0 < draw <= Upto(pairs, |pairs|) as real
    ensures pairs[k].target.weight > 0
    ensures Upto(pairs, k) as real < draw <= (Upto(pairs, k) + pairs[k].target.weight) as real
  {
    assert k > 0 ==> Upto(pairs, k) as real < draw;
    assert Upto(pairs, k + 1) == Upto(pairs, k) + Weight(pairs[k]);
  }

  /** The total is that of the weights, negative ones counted as zero. */
  lemma {:induction false} TotalWeight(pairs: seq<Pair>, k: nat)
    requires k < |pairs|
    ensures Upto(pairs, 0) == 0
    ensures pairs[k].target.weight >= 0 ==> Upto(pairs, k + 1) == Upto(pairs, k) + pairs[k].target.weight
    ensures pairs[k].target.weight < 0 ==> Upto(pairs, k + 1) == Upto(pairs, k)
  {
  }

  predicate HasModel(pairs: seq<Pair>, id: nat) {
    exists k :: 0 <= k < |pairs| && pairs[k].model.id == id
  }

  /** One pair for each model, the first of each. */
  function FirstOfEach(pairs: seq<Pair>): seq<Pair> {
    if pairs == [] then []
    else
      var before, last := FirstOfEach(pairs[..|pairs| - 1]), pairs[|pairs| - 1];
      if HasModel(before, last.model.id) then before else before + [last]
  }

  predicate Distinct(pairs: seq<Pair>) {
    forall j, k | 0 <= j < k < |pairs| :: pairs[j].model.id != pairs[k].model.id
  }

  lemma {:induction false} FirstOfEachDistinct(pairs: seq<Pair>)
    ensures var out := FirstOfEach(pairs);
            && Distinct(out) && (forall p | p in out :: p in pairs)
            && (forall id :: HasModel(out, id) <==> HasModel(pairs, id))
  {
    if pairs != [] {
      var n := |pairs| - 1;
      var before, last, out := FirstOfEach(pairs[..n]), pairs[n], FirstOfEach(pairs);
      FirstOfEachDistinct(pairs[..n]);
      assert pairs == pairs[..n] + [last];
      if !HasModel(before, last.model.id) { DistinctPush(before, last); }
      assert out == before || out == before + [last];
      forall id ensures HasModel(out, id) <==> HasModel(pairs, id) {
        HasModelPush(pairs[..n], last, id);
        HasModelPush(before, last, id);
      }
    }
  }

  lemma {:induction false} DistinctPush(pairs: seq<Pair>, p: Pair)
    requires Distinct(pairs) && !HasModel(pairs, p.model.id)
    ensures Distinct(pairs + [p])
  {
  }

  lemma {:induction false} HasModelPush(pairs: seq<Pair>, p: Pair, id: nat)
    ensures HasModel(pairs + [p], id) <==> HasModel(pairs, id) || p.model.id == id
  {
    assert (pairs + [p])[|pairs|] == p;
    if k :| 0 <= k < |pairs| && pairs[k].model.id == id { assert (pairs + [p])[k] == pairs[k]; }
  }

  /** Pairs that come later add models after those already there, and change none. */
  lemma {:induction false} FirstOfEachPrefix(pairs: seq<Pair>, more: seq<Pair>)
    ensures FirstOfEach(pairs) <= FirstOfEach(pairs + more)
  {
    if more == [] {
      assert pairs + more == pairs;
    } else {
      hide HasModel;
      var n := |more| - 1;
      assert (pairs + more)[..|pairs| + n] == pairs + more[..n];
      FirstOfEachPrefix(pairs, more[..n]);
    }
  }

  method UniqueModels(pairs: seq<Pair>) returns (out: seq<Pair>)
    ensures out == FirstOfEach(pairs)
    ensures Distinct(out)
    ensures forall p | p in out :: p in pairs
    ensures forall id :: HasModel(out, id) <==> HasModel(pairs, id)
  {
    out := [];
    var seen: set<nat> := {};
    for i := 0 to |pairs|
      invariant out == FirstOfEach(pairs[..i])
      invariant forall id :: id in seen <==> HasModel(out, id)
    {
      assert pairs[..i + 1][..i] == pairs[..i];
      if pairs[i].model.id in seen {
        continue;
      }
      seen := seen + {pairs[i].model.id};
      forall id ensures HasModel(out + [pairs[i]], id) <==> HasModel(out, id) || pairs[i].model.id == id {
        HasModelPush(out, pairs[i], id);
      }
      out := out + [pairs[i]];
    }
    assert pairs[..|pairs|] == pairs;
    FirstOfEachDistinct(pairs);
  }

  function RoundRobinPick(pairs: seq<Pair>, cursor: nat): Option<Pair> {
    var unique := FirstOfEach(pairs);
    if unique == [] then None else Some(unique[cursor % |unique|])
  }

  predicate Picks(pairs: seq<Pair>, cursor: nat, id: nat) {
    RoundRobinPick(pairs, cursor).Some? && RoundRobinPick(pairs, cursor).value.model.id == id
  }

  /** Over as many consecutive cursors as there are distinct models, each model among the pairs is
      picked exactly once. */
  lemma {:induction false} RoundRobinIsFair(pairs: seq<Pair>, cursor: nat, id: nat)
    requires HasModel(pairs, id)
    ensures var n := |FirstOfEach(pairs)|;
            && (exists c :: cursor <= c < cursor + n && Picks(pairs, c, id))
            && (forall c, d | cursor <= c < d < cursor + n :: !(Picks(pairs, c, id) && Picks(pairs, d, id)))
  {
    var unique := FirstOfEach(pairs);
    var n := |unique|;
    FirstOfEachDistinct(pairs);
    var x :| 0 <= x < n && unique[x].model.id == id;
    var j := CursorFor(cursor, n, x);
    assert Picks(pairs, cursor + j, id);
    forall c, d | cursor <= c < d < cursor + n ensures !(Picks(pairs, c, id) && Picks(pairs, d, id)) {
      CursorsDiffer(cursor, n, c - cursor, d - cursor);
    }
  }

  lemma {:induction false} CursorFor(cursor: nat, n: nat, x: nat) returns (j: nat)
    requires x < n
    ensures j < n && (cursor + j) % n == x
  {
    var q, c := cursor / n, cursor % n;
    assert cursor == q * n + c;
    if c <= x {
      j := x - c;
      assert cursor + j == q * n + x;
      RemainderOf(q, n, x);
    } else {
      j := x + n - c;
      assert cursor + j == (q + 1) * n + x;
      RemainderOf(q + 1, n, x);
    }
  }

  lemma {:induction false} RemainderOf(q: nat, n: nat, x: nat)
    requires x < n
    ensures (q * n + x) % n == x
  {
    var y := q * n + x;
    assert y == (y / n) * n + y % n;
    MulMonotone(q + 1, y / n, n);
    MulMonotone(y / n + 1, q, n);
  }

  lemma {:induction false} CursorsDiffer(cursor: nat, n: nat, j: nat, k: nat)
    requires j < k < n
    ensures (cursor + j) % n != (cursor + k) % n
  {
    var x, y := cursor + j, cursor + k;
    var q, r := x / n, y / n;
    assert x == q * n + x % n && y == r * n + y % n;
    assert y - x == (r - q) * n + (y % n - x % n);
    MulMonotone(1, r - q, n);
    MulMonotone(r - q, 0, n);
  }

  function TargetLabel(t: Target): string {
    var normalized := if t.tag.Some? then Strip(t.tag.value) else "";
    if normalized != "" then normalized else "default"
  }

  lemma {:induction false} AllSpaceStrips(s: string)
    requires forall i | 0 <= i < |s| :: Space(s[i])
    ensures Strip(s) == ""
  {
    if s != "" { AllSpaceStrips(s[1..]); }
  }

  /** A target without a tag, or with a blank one, has the default label; a tag without surrounding
      space is the label. */
  lemma {:induction false} LabelOfTag(t: Target)
    ensures t.tag == None ==> TargetLabel(t) == "default"
    ensures t.tag.Some? && (forall i | 0 <= i < |t.tag.value| :: Space(t.tag.value[i])) ==> TargetLabel(t) == "default"
    ensures t.tag.Some? && t.tag.value != "" && !Space(t.tag.value[0]) && !Space(t.tag.value[|t.tag.value| - 1]) ==>
              TargetLabel(t) == t.tag.value
  {
    if t.tag.Some? {
      var s := t.tag.value;
      if forall i | 0 <= i < |s| :: Space(s[i]) { AllSpaceStrips(s); }
      if s != "" && !Space(s[0]) { StripKeeps(s); }
    }
  }

  /** The pairs with a label, in order. */
  function Labeled(pairs: seq<Pair>, name: string): seq<Pair> {
    if pairs == [] then []
    else
      var last := pairs[|pairs| - 1];
      Labeled(pairs[..|pairs| - 1], name) + if TargetLabel(last.target) == name then [last] else []
  }

  lemma {:induction false} LabeledMembers(pairs: seq<Pair>, name: string, p: Pair)
    ensures p in Labeled(pairs, name) <==> p in pairs && TargetLabel(p.target) == name
  {
    if pairs != [] {
      LabeledMembers(pairs[..|pairs| - 1], name, p);
      assert pairs == pairs[..|pairs| - 1] + [pairs[|pairs| - 1]];
    }
  }

  lemma {:induction false} LabeledPush(pairs: seq<Pair>, p: Pair, name: string)
    ensures Labeled(pairs + [p], name) == Labeled(pairs, name) + if TargetLabel(p.target) == name then [p] else []
  {
    hide TargetLabel;
    assert (pairs + [p])[..|pairs|] == pairs;
  }

  lemma {:induction false} LabeledNone(name: string)
    ensures Labeled([], name) == []
  {
  }

  lemma {:induction false} LabeledInOrder(pairs: seq<Pair>, more: seq<Pair>, name: string)
    ensures Labeled(pairs + more, name) == Labeled(pairs, name) + Labeled(more, name)
  {
    hide TargetLabel, Labeled;
    if more == [] {
      LabeledNone(name);
      assert pairs + more == pairs;
    } else {
      var n := |more| - 1;
      LabeledInOrder(pairs, more[..n], name);
      LabeledPush(pairs + more[..n], more[n], name);
      LabeledPush(more[..n], more[n], name);
      assert pairs + more == (pairs + more[..n]) + [more[n]];
      assert more == more[..n] + [more[n]];
    }
  }

  method WithLabel(pairs: seq<Pair>, name: string) returns (out: seq<Pair>)
    ensures out == Labeled(pairs, name)
  {
    out := [];
    for k := 0 to |pairs|
      invariant out == Labeled(pairs[..k], name)
    {
      assert pairs[..k + 1][..k] == pairs[..k];
      if TargetLabel(pairs[k].target) == name {
        out := out + [pairs[k]];
      }
    }
    assert pairs[..|pairs|] == pairs;
  }

  /** Drawn by weight from the pairs; nothing from none. */
  ghost predicate DrawnFrom(pairs: seq<Pair>, draw: real, primary: Option<Pair>) {
    if pairs == [] then primary == None
    else exists k :: ReachedFirst(pairs, draw, k) && primary == Some(pairs[k])
  }

  /** The label the smart strategy goes by: the chosen one if a target has it, else the default. */
  function SmartLabel(pairs: seq<Pair>, chosen: Option<string>): string {
    var wanted := if chosen.Some? then Strip(chosen.value) else "";
    if wanted != "" && Labeled(pairs, wanted) != [] then wanted else "default"
  }

  method SmartPick(pairs: seq<Pair>, chosen: Option<string>, draw: real) returns (primary: Option<Pair>)
    ensures DrawnFrom(Labeled(pairs, SmartLabel(pairs, chosen)), draw, primary)
  {
    var wanted := if chosen.Some? then Strip(chosen.value) else "";
    if wanted != "" {
      var matched := WithLabel(pairs, wanted);
      if matched != [] {
        var k := WeightedPick(matched, draw);
        return Some(matched[k]);
      }
    }
    var rest := WithLabel(pairs, "default");
    if rest == [] {
      return None;
    }
    var k := WeightedPick(rest, draw);
    primary := Some(rest[k]);
  }

  /** A primary of the smart strategy carries the chosen label if any target does, else the
      default label; there is none exactly when no target carries the label gone by. */
  lemma {:induction false} SmartPrimary(pairs: seq<Pair>, chosen: Option<string>, draw: real, primary: Option<Pair>)
    requires DrawnFrom(Labeled(pairs, SmartLabel(pairs, chosen)), draw, primary)
    ensures var wanted := if chosen.Some? then Strip(chosen.value) else "";
            var hit := wanted != "" && exists p :: p in pairs && TargetLabel(p.target) == wanted;
            && (primary.Some? ==>
                  primary.value in pairs && TargetLabel(primary.value.target) == if hit then wanted else "default")
            && (primary.None? <==> !hit && forall p | p in pairs :: TargetLabel(p.target) != "default")
  {
    hide Labeled, TargetLabel, ReachedFirst;
    var wanted := if chosen.Some? then Strip(chosen.value) else "";
    LabelUsed(pairs, wanted);
    LabelUsed(pairs, "default");
    if primary.Some? {
      var from := Labeled(pairs, SmartLabel(pairs, chosen));
      assert primary.value in from by { ReachedInside(from, draw, primary); }
      LabeledMembers(pairs, SmartLabel(pairs, chosen), primary.value);
    }
  }

  lemma {:induction false} ReachedInside(from: seq<Pair>, draw: real, primary: Option<Pair>)
    requires DrawnFrom(from, draw, primary) && primary.Some?
    ensures primary.value in from
  {
  }

  lemma {:induction false} LabelUsed(pairs: seq<Pair>, name: string)
    ensures Labeled(pairs, name) != [] <==> exists p :: p in pairs && TargetLabel(p.target) == name
  {
    hide Labeled, TargetLabel;
    var out := Labeled(pairs, name);
    if out != [] {
      LabeledMembers(pairs, name, out[0]);
      assert out[0] in out;
    }
    if p :| p in pairs && TargetLabel(p.target) == name { LabeledMembers(pairs, name, p); }
  }

  /** The primary of each strategy among the usable pairs. */
  ghost predicate IsPrimary(strategy: Strategy, pairs: seq<Pair>, primary: Option<Pair>) {
    match strategy
    case Smart(chosen, draw) => DrawnFrom(Labeled(pairs, SmartLabel(pairs, chosen)), draw, primary)
    case RoundRobin(cursor) => primary == RoundRobinPick(pairs, cursor)
    case Weighted(draw) => DrawnFrom(pairs, draw, primary)
  }

  /** A primary is one of the pairs; only the smart strategy may find none among some. */
  lemma {:induction false} PrimaryAmongPairs(strategy: Strategy, pairs: seq<Pair>, primary: Option<Pair>)
    requires IsPrimary(strategy, pairs, primary)
    ensures primary.Some? ==> primary.value in pairs
    ensures !strategy.Smart? && pairs != [] ==> primary.Some?
  {
    match strategy
    case Smart(chosen, draw) => SmartPrimary(pairs, chosen, draw, primary);
    case RoundRobin(cursor) =>
      FirstOfEachDistinct(pairs);
      if pairs != [] { assert HasModel(pairs, pairs[0].model.id); }
      if primary.Some? { assert primary.value in FirstOfEach(pairs); }
    case Weighted(draw) =>
  }

  ghost predicate FallbackServes(policy: Policy, rows: Rows) {
    && policy.fallback.Some? && policy.fallback.value != 0 && policy.fallback.value in rows.models
    && rows.Serves(policy.fallback.value, rows.models[policy.fallback.value].channelId)
  }

  function Ids(chain: seq<(Model, Channel)>): seq<(nat, nat)> {
    seq(|chain|, i requires 0 <= i < |chain| => (chain[i].0.id, chain[i].1.id))
  }

  method PickPrimary(strategy: Strategy, pairs: seq<Pair>) returns (primary: Option<Pair>)
    ensures IsPrimary(strategy, pairs, primary)
  {
    match strategy {
      case Smart(chosen, draw) =>
        primary := SmartPick(pairs, chosen, draw);
      case RoundRobin(cursor) =>
        var unique := UniqueModels(pairs);
        primary := if unique == [] then None else Some(unique[cursor % |unique|]);
      case Weighted(draw) =>
        primary := None;
        if pairs != [] {
          var k := WeightedPick(pairs, draw);
          primary := Some(pairs[k]);
        }
    }
  }

  /** The chain: the strategy's primary among the usable pairs and, if it serves and is another
      model, the fallback. Every entry is an enabled model on its own enabled channel, and no model
      appears twice. */
  method SelectRoute(policy: Policy, rows: Rows) returns (chain: seq<(Model, Channel)>, ghost primary: Option<Pair>)
    requires rows.Keyed()
    ensures IsPrimary(policy.strategy, UsablePairs(policy.targets, rows), primary)
    ensures primary.Some? ==> chain != [] && chain[0] == (primary.value.model, primary.value.channel)
    ensures |chain| == (if primary.Some? then 1 else 0)
                       + if FallbackServes(policy, rows)
                            && (primary.Some? ==> primary.value.model.id != policy.fallback.value) then 1 else 0
    ensures |chain| > (if primary.Some? then 1 else 0) ==>
              chain[|chain| - 1].0.id == policy.fallback.value
    ensures forall k | 0 <= k < |chain| ::
              rows.Serves(chain[k].0.id, chain[k].1.id) && chain[k].1.id == chain[k].0.channelId
    ensures forall j, k | 0 <= j < k < |chain| :: chain[j].0.id != chain[k].0.id
    ensures primary.Some? ==> exists t :: t in policy.targets && t.modelId == primary.value.model.id
    ensures primary.None? && !policy.strategy.Smart? ==> forall t | t in policy.targets :: !TargetServes(rows, t)
  {
    hide IsPrimary, UsablePairs;
    var pairs := OrderedTargets(policy, rows);
    var picked := PickPrimary(policy.strategy, pairs);
    primary := picked;
    PrimaryAmongPairs(policy.strategy, pairs, picked);
    chain := [];
    if picked.Some? {
      chain := [(picked.value.model, picked.value.channel)];
      assert picked.value.target in policy.targets;
    }
    if policy.fallback.Some? && policy.fallback.value != 0
       && (picked.None? || policy.fallback.value != picked.value.model.id)
       && policy.fallback.value in rows.models
    {
      var m := rows.models[policy.fallback.value];
      if m.enabled && m.channelId in rows.channels && rows.channels[m.channelId].enabled {
        chain := chain + [(m, rows.channels[m.channelId])];
      }
    }
  }

  // ---- decimal numbers --------------------------------------------------------------------------

  predicate Digit(c: char) { '0' <= c <= '9' }

  predicate IsDigits(s: string) { s != "" && forall i | 0 <= i < |s| :: Digit(s[i]) }

  function Itoa(n: nat): (s: string)
    ensures IsDigits(s)
  {
    var last := [('0' as int + n % 10) as char];
    if n < 10 then last else Itoa(n / 10) + last
  }

  function DigitValue(c: char): (v: nat)
    requires Digit(c)
    ensures v < 10
  {
    c as int - '0' as int
  }

  function Atoi(s: string): nat
    requires forall i | 0 <= i < |s| :: Digit(s[i])
  {
    if s == "" then 0 else 10 * Atoi(s[..|s| - 1]) + DigitValue(s[|s| - 1])
  }

  lemma {:induction false} AtoiItoa(n: nat)
    ensures Atoi(Itoa(n)) == n
  {
    var s := Itoa(n);
    if n < 10 {
      assert s[..0] == "";
    } else {
      AtoiItoa(n / 10);
      assert s[..|s| - 1] == Itoa(n / 10);
    }
  }

  // ---- the header -------------------------------------------------------------------------------

  function Item(id: (nat, nat)): string { Itoa(id.0) + ":" + Itoa(id.1) }

  function PrintChain(ids: seq<(nat, nat)>): string {
    if ids == [] then "" else if |ids| == 1 then Item(ids[0]) else Item(ids[0]) + "," + PrintChain(ids[1..])
  }

  function SplitCommas(s: string): seq<string> {
    var p := IndexOf(s, ',');
    if p == |s| then [s] else [s[..p]] + SplitCommas(s[p + 1..])
  }

  /** One item of the header: two digit strings around the first colon, else nothing. */
  function ReadItem(item: string): Option<(nat, nat)> {
    var s := Strip(item);
    var p := IndexOf(s, ':');
    if p < |s| && IsDigits(s[..p]) && IsDigits(s[p + 1..]) then Some((Atoi(s[..p]), Atoi(s[p + 1..]))) else None
  }

  /** Items in order, without the unreadable and the repeated ones. */
  function ReadItems(items: seq<string>): seq<(nat, nat)> {
    if items == [] then []
    else
      var before := ReadItems(items[..|items| - 1]);
      match ReadItem(items[|items| - 1])
      case None => before
      case Some(id) => if id in before then before else before + [id]
  }

  function Serving(ids: seq<(nat, nat)>, rows: Rows): seq<(nat, nat)> {
    if ids == [] then []
    else
      var id := ids[|ids| - 1];
      Serving(ids[..|ids| - 1], rows) + if rows.Serves(id.0, id.1) then [id] else []
  }

  /** Only serving ids are kept, in order. */
  lemma {:induction false} ServingInOrder(ids: seq<(nat, nat)>, more: seq<(nat, nat)>, rows: Rows)
    ensures Serving(ids + more, rows) == Serving(ids, rows) + Serving(more, rows)
  {
    if more == [] {
      assert ids + more == ids;
    } else {
      var n := |more| - 1;
      assert (ids + more)[..|ids| + n] == ids + more[..n];
      ServingInOrder(ids, more[..n], rows);
    }
  }

  ghost predicate AllSpace(s: string) { forall i | 0 <= i < |s| :: Space(s[i]) }

  lemma {:induction false} StripLeftPad(pad: string, s: string)
    requires AllSpace(pad)
    ensures StripLeft(pad + s) == StripLeft(s)
  {
    if pad == "" {
      assert pad + s == s;
    } else {
      assert (pad + s)[1..] == pad[1..] + s;
      StripLeftPad(pad[1..], s);
    }
  }

  lemma {:induction false} StripRightPad(s: string, pad: string)
    requires AllSpace(pad)
    ensures StripRight(s + pad) == StripRight(s)
  {
    if pad == "" {
      assert s + pad == s;
    } else {
      var n := |pad| - 1;
      assert (s + pad)[..|s| + n] == s + pad[..n];
      StripRightPad(s, pad[..n]);
    }
  }

  /** Space around an item is ignored. */
  lemma {:induction false} PaddedItemReads(left: string, id: (nat, nat), right: string)
    requires AllSpace(left) && AllSpace(right)
    ensures ReadItem(left + Item(id) + right) == Some(id)
  {
    hide Item, StripLeft, StripRight;
    ItemShape(id);
    var s := Item(id);
    assert s != "" by { assert |s| >= 1 by { ItemNotEmpty(id); } }
    assert left + s + right == left + (s + right);
    StripLeftPad(left, s + right);
    assert (s + right)[0] == s[0];
    StripKeeps(s + right);
    StripKeeps(s);
    StripRightPad(s, right);
  }

  lemma {:induction false} ItemNotEmpty(id: (nat, nat))
    ensures |Item(id)| >= 1
  {
    hide Itoa;
  }

  /** An item is read if and only if, stripped, it is two runs of digits around a colon; the numbers
      are theirs. */
  lemma {:induction false} ItemReadIff(item: string, id: (nat, nat))
    ensures ReadItem(item) == Some(id)
            <==> exists p :: ColonAt(Strip(item), p) && id == (Atoi(Strip(item)[..p]), Atoi(Strip(item)[p + 1..]))
  {
    hide Atoi, Strip;
    var s := Strip(item);
    var p := IndexOf(s, ':');
    if ReadItem(item).Some? { assert ColonAt(s, p); }
    forall q | ColonAt(s, q) ensures q == p {
      assert forall j | 0 <= j < q :: s[j] == s[..q][j] != ':';
    }
  }

  ghost predicate ColonAt(s: string, p: int) {
    0 <= p < |s| && s[p] == ':' && IsDigits(s[..p]) && IsDigits(s[p + 1..])
  }

  ghost predicate Reads(items: seq<string>, id: (nat, nat)) {
    exists k :: 0 <= k < |items| && ReadItem(items[k]) == Some(id)
  }

  lemma {:induction false} ReadsPush(items: seq<string>, item: string, id: (nat, nat))
    ensures Reads(items + [item], id) <==> Reads(items, id) || ReadItem(item) == Some(id)
  {
    hide ReadItem;
    assert (items + [item])[|items|] == item;
    if k :| 0 <= k < |items| && ReadItem(items[k]) == Some(id) { assert (items + [item])[k] == items[k]; }
  }

  predicate NoRepeats(ids: seq<(nat, nat)>) { forall j, k | 0 <= j < k < |ids| :: ids[j] != ids[k] }

  /** The ids read are those of the readable items, each once. */
  lemma {:induction false} ReadItemsOnce(items: seq<string>, id: (nat, nat))
    ensures NoRepeats(ReadItems(items))
    ensures id in ReadItems(items) <==> Reads(items, id)
  {
    hide ReadItem, Reads;
    if items == [] {
      NothingRead(id);
    } else {
      var n := |items| - 1;
      ReadItemsOnce(items[..n], id);
      ReadsPush(items[..n], items[n], id);
      assert items == items[..n] + [items[n]];
    }
  }

  lemma {:induction false} NothingRead(id: (nat, nat))
    ensures !Reads([], id)
  {
  }

  lemma {:induction false} ReadItemsPush(items: seq<string>, item: string)
    ensures ReadItems(items) <= ReadItems(items + [item])
  {
    hide ReadItem;
    assert (items + [item])[..|items|] == items;
  }

  /** In the order of their first item. */
  lemma {:induction false} ReadItemsPrefix(items: seq<string>, more: seq<string>)
    ensures ReadItems(items) <= ReadItems(items + more)
  {
    hide ReadItems;
    if more == [] {
      assert items + more == items;
    } else {
      var n := |more| - 1;
      ReadItemsPrefix(items, more[..n]);
      ReadItemsPush(items + more[..n], more[n]);
      assert items + more == (items + more[..n]) + [more[n]];
    }
  }

  lemma {:induction false} NextItem(items: seq<string>, k: nat, rows: Rows)
    requires k < |items|
    ensures var before := ReadItems(items[..k]);
            match ReadItem(items[k])
            case None => ReadItems(items[..k + 1]) == before
            case Some(id) =>
              if id in before then ReadItems(items[..k + 1]) == before
              else ReadItems(items[..k + 1]) == before + [id]
                   && Serving(before + [id], rows)
                      == Serving(before, rows) + if rows.Serves(id.0, id.1) then [id] else []
  {
    assert items[..k + 1][..k] == items[..k];
    var before := ReadItems(items[..k]);
    var read := ReadItem(items[k]);
    if read.Some? { assert (before + [read.value])[..|before|] == before; }
  }

  lemma {:induction false} NoItems(rows: Rows)
    ensures ReadItems([]) == [] && Serving([], rows) == []
  {
  }

  method ReadChain(header: string, rows: Rows) returns (candidates: seq<(nat, nat)>)
    ensures candidates == Serving(ReadItems(SplitCommas(header)), rows)
  {
    hide ReadItems, Serving, Strip, IndexOf, Atoi, SplitCommas;
    var items := SplitCommas(header);
    NoItems(rows);
    candidates := [];
    var seen: set<(nat, nat)> := {};
    for k := 0 to |items|
      invariant forall id :: id in seen <==> id in ReadItems(items[..k])
      invariant candidates == Serving(ReadItems(items[..k]), rows)
    {
      NextItem(items, k, rows);
      var s := Strip(items[k]);
      var p := IndexOf(s, ':');
      if p == |s| || !IsDigits(s[..p]) || !IsDigits(s[p + 1..]) {
        continue;
      }
      var id := (Atoi(s[..p]), Atoi(s[p + 1..]));
      if id in seen {
        continue;
      }
      seen := seen + {id};
      if rows.Serves(id.0, id.1) {
        candidates := candidates + [id];
      }
    }
    assert items[..|items|] == items;
  }

  lemma {:induction false} ItemShape(id: (nat, nat))
    ensures forall j | 0 <= j < |Item(id)| :: Digit(Item(id)[j]) || Item(id)[j] == ':'
    ensures ReadItem(Item(id)) == Some(id)
  {
    hide Itoa, Atoi, Strip, IndexOf;
    var a, b := Itoa(id.0), Itoa(id.1);
    var s := Item(id);
    assert s == a + ":" + b;
    assert s[0] == a[0] && s[|s| - 1] == b[|b| - 1];
    StripKeeps(s);
    IndexOfUnique(s, ':', |a|);
    assert s[..|a|] == a && s[|a| + 1..] == b;
    AtoiItoa(id.0);
    AtoiItoa(id.1);
  }

  function Items(ids: seq<(nat, nat)>): (items: seq<string>)
    ensures |items| == |ids| && forall i | 0 <= i < |ids| :: items[i] == Item(ids[i])
  {
    seq(|ids|, i requires 0 <= i < |ids| => Item(ids[i]))
  }

  lemma {:induction false} CommaCuts(first: string, rest: string)
    requires forall j | 0 <= j < |first| :: first[j] != ','
    ensures SplitCommas(first) == [first]
    ensures SplitCommas(first + "," + rest) == [first] + SplitCommas(rest)
  {
    var s := first + "," + rest;
    assert IndexOf(first, ',') == |first|;
    IndexOfUnique(s, ',', |first|);
    assert s[..|first|] == first && s[|first| + 1..] == rest;
  }

  lemma {:induction false} PrintedItems(ids: seq<(nat, nat)>)
    requires ids != []
    ensures SplitCommas(PrintChain(ids)) == Items(ids)
  {
    hide Item, SplitCommas;
    var first := Item(ids[0]);
    assert forall j | 0 <= j < |first| :: first[j] != ',' by { ItemShape(ids[0]); }
    if |ids| == 1 {
      CommaCuts(first, "");
      assert Items(ids) == [first];
    } else {
      PrintedItems(ids[1..]);
      CommaCuts(first, PrintChain(ids[1..]));
      assert Items(ids) == [first] + Items(ids[1..]);
    }
  }

  lemma {:induction false} ItemsReadBack(ids: seq<(nat, nat)>)
    requires forall j, k | 0 <= j < k < |ids| :: ids[j] != ids[k]
    ensures ReadItems(Items(ids)) == ids
  {
    hide Item, ReadItem;
    if ids != [] {
      var n := |ids| - 1;
      var items := Items(ids);
      assert items[..n] == Items(ids[..n]);
      ItemsReadBack(ids[..n]);
      ItemShape(ids[n]);
      NotEarlier(ids);
      assert ids == ids[..n] + [ids[n]];
    }
  }

  lemma {:induction false} NotEarlier(ids: seq<(nat, nat)>)
    requires ids != [] && forall j, k | 0 <= j < k < |ids| :: ids[j] != ids[k]
    ensures ids[|ids| - 1] !in ids[..|ids| - 1]
  {
  }

  lemma {:induction false} ServingSome(ids: seq<(nat, nat)>, rows: Rows)
    ensures |Serving(ids, rows)| <= |ids|
    ensures forall id :: id in Serving(ids, rows) <==> id in ids && rows.Serves(id.0, id.1)
    ensures (forall k | 0 <= k < |ids| :: rows.Serves(ids[k].0, ids[k].1)) <==> Serving(ids, rows) == ids
  {
    if ids != [] {
      var n := |ids| - 1;
      ServingSome(ids[..n], rows);
      assert ids == ids[..n] + [ids[n]];
      if Serving(ids, rows) == ids {
        assert forall k | 0 <= k < |ids| :: ids[k] in Serving(ids, rows);
      }
    }
  }

  /** A printed chain of distinct pairs reads back as itself; of it the translator tries, in order,
      the pairs that serve, which are all of them exactly while every row serves. */
  lemma {:induction false} ChainReadsBack(ids: seq<(nat, nat)>, rows: Rows)
    requires forall j, k | 0 <= j < k < |ids| :: ids[j] != ids[k]
    ensures ReadItems(SplitCommas(PrintChain(ids))) == ids
    ensures forall id :: id in Serving(ids, rows) <==> id in ids && rows.Serves(id.0, id.1)
    ensures (forall k | 0 <= k < |ids| :: rows.Serves(ids[k].0, ids[k].1)) <==> Serving(ids, rows) == ids
  {
    if ids == [] {
      assert IndexOf("", ',') == 0;
      assert SplitCommas("") == [""];
      assert [""][..0] == [];
      assert ReadItem("") == None;
    } else {
      PrintedItems(ids);
      ItemsReadBack(ids);
    }
    ServingSome(ids, rows);
  }

  // ---- what the translator tries ----------------------------------------------------------------

  /** The routing headers of a request; each may be missing. */
  datatype Headers = Headers(
    chain: Option<string>,
    modelId: Option<string>,
    channelId: Option<string>,
    upstream: Option<string>)

  /** A model row, if one was found, the channel, and the name the upstream is asked for. */
  datatype Candidate = Candidate(modelId: Option<nat>, channelId: nat, upstream: string)

  datatype Loaded = Tries(candidates: seq<Candidate>) | Refused(status: int)

  function Entries(ids: seq<(nat, nat)>, rows: Rows): seq<Candidate> {
    seq(|ids|, k requires 0 <= k < |ids| => Candidate(Some(ids[k].0), ids[k].1, rows.Upstream(ids[k].0)))
  }

  function Text(h: Option<string>): string { if h.Some? then h.value else "" }

  function Number(h: Option<string>): Option<nat> {
    if IsDigits(Text(h)) then Some(Atoi(Text(h))) else None
  }

  /** When nothing of the chain serves: one candidate from the single headers, if its channel is up
      and it has a name. Whether its model is enabled, or there, is not asked. */
  function Fallback(h: Headers, rows: Rows): Loaded {
    match Number(h.channelId)
    case None => Refused(400)
    case Some(channel) =>
      if !rows.ChannelUp(channel) then Refused(502)
      else
        var model := Number(h.modelId);
        var found := if model.Some? && model.value in rows.models then model else None;
        var stored := if found.Some? then rows.Upstream(found.value) else "";
        var name := if Text(h.upstream) != "" then Text(h.upstream) else stored;
        if name == "" then Refused(400) else Tries([Candidate(found, channel, name)])
  }

  function Load(h: Headers, rows: Rows): Loaded {
    var ids := Serving(ReadItems(SplitCommas(Text(h.chain))), rows);
    if ids != [] then Tries(Entries(ids, rows)) else Fallback(h, rows)
  }

  method LoadCandidates(h: Headers, rows: Rows) returns (loaded: Loaded)
    ensures loaded == Load(h, rows)
  {
    hide ReadItems, SplitCommas, Serving, Atoi;
    var ids := ReadChain(Text(h.chain), rows);
    if ids != [] {
      return Tries(Entries(ids, rows));
    }
    if h.channelId.None? || !IsDigits(h.channelId.value) {
      return Refused(400);
    }
    var channel := Atoi(h.channelId.value);
    if channel !in rows.channels || !rows.channels[channel].enabled {
      return Refused(502);
    }
    var model: Option<nat> := None;
    if h.modelId.Some? && IsDigits(h.modelId.value) && Atoi(h.modelId.value) in rows.models {
      model := Some(Atoi(h.modelId.value));
    }
    var name := Text(h.upstream);
    if name == "" && model.Some? {
      name := rows.models[model.value].upstream;
    }
    loaded := if name == "" then Refused(400) else Tries([Candidate(model, channel, name)]);
  }

  /** The headers a selected chain is announced in: all of it, and its primary once more. */
  function PrintHeaders(chain: seq<(Model, Channel)>): Headers
    requires chain != []
  {
    Headers(Some(PrintChain(Ids(chain))),
            Some(Itoa(chain[0].0.id)), Some(Itoa(chain[0].1.id)), Some(chain[0].0.upstream))
  }

  ghost predicate SomeServes(chain: seq<(Model, Channel)>, rows: Rows) {
    exists k :: 0 <= k < |chain| && rows.Serves(chain[k].0.id, chain[k].1.id)
  }

  ghost predicate AllServe(chain: seq<(Model, Channel)>, rows: Rows) {
    forall k | 0 <= k < |chain| :: rows.Serves(chain[k].0.id, chain[k].1.id)
  }

  /** The name the primary is asked for under: as selected, or as it is now if that was empty. */
  function PrimaryName(chain: seq<(Model, Channel)>, rows: Rows): string
    requires chain != []
  {
    if chain[0].0.upstream != "" then chain[0].0.upstream else rows.Upstream(chain[0].0.id)
  }

  /** What becomes of a selected chain, with the rows as they are when the translator looks: the
      pairs that serve, in order; if none does, the primary on its channel alone. */
  function Tried(chain: seq<(Model, Channel)>, rows: Rows): Loaded
    requires chain != []
  {
    var ids, (model, channel) := Serving(Ids(chain), rows), chain[0];
    if ids != [] then Tries(Entries(ids, rows))
    else if !rows.ChannelUp(channel.id) then Refused(502)
    else if PrimaryName(chain, rows) == "" then Refused(400)
    else Tries([Candidate(if model.id in rows.models then Some(model.id) else None,
                          channel.id, PrimaryName(chain, rows))])
  }

  lemma {:induction false} IdsDistinct(chain: seq<(Model, Channel)>)
    requires forall j, k | 0 <= j < k < |chain| :: chain[j].0.id != chain[k].0.id
    ensures forall j, k | 0 <= j < k < |Ids(chain)| :: Ids(chain)[j] != Ids(chain)[k]
  {
  }

  /** The translator makes of the headers what became of the chain. */
  lemma {:induction false} HeadersReadBack(chain: seq<(Model, Channel)>, rows: Rows)
    requires chain != [] && forall j, k | 0 <= j < k < |chain| :: chain[j].0.id != chain[k].0.id
    ensures Load(PrintHeaders(chain), rows) == Tried(chain, rows)
  {
    hide PrintChain, ReadItems, SplitCommas, Serving, Itoa, Atoi;
    IdsDistinct(chain);
    ChainReadsBack(Ids(chain), rows);
    AtoiItoa(chain[0].0.id);
    AtoiItoa(chain[0].1.id);
  }

  lemma {:induction false} ServingOfChain(chain: seq<(Model, Channel)>, rows: Rows)
    ensures Serving(Ids(chain), rows) != [] <==> SomeServes(chain, rows)
    ensures Serving(Ids(chain), rows) == Ids(chain) <==> AllServe(chain, rows)
    ensures forall id | id in Serving(Ids(chain), rows) :: rows.Serves(id.0, id.1)
  {
    var ids := Ids(chain);
    ServingSome(ids, rows);
    hide Serving;
    if SomeServes(chain, rows) {
      var k :| 0 <= k < |chain| && rows.Serves(chain[k].0.id, chain[k].1.id);
      assert ids[k] in ids && ids[k] in Serving(ids, rows);
    }
    if Serving(ids, rows) != [] {
      var id := Serving(ids, rows)[0];
      assert id in Serving(ids, rows);
      var k :| 0 <= k < |ids| && ids[k] == id;
    }
    assert forall k | 0 <= k < |chain| :: ids[k] == (chain[k].0.id, chain[k].1.id);
  }

  predicate Fit(c: Candidate, rows: Rows) { c.modelId.Some? && rows.Serves(c.modelId.value, c.channelId) }

  /** Only pairs that serve are tried, if and only if some pair of the chain serves, or the primary's
      channel is down, or the primary has no name. */
  lemma {:induction false} OnlyServingTriedIff(chain: seq<(Model, Channel)>, rows: Rows)
    requires chain != []
    ensures (Tried(chain, rows).Tries? ==> forall c | c in Tried(chain, rows).candidates :: Fit(c, rows))
            <==> (SomeServes(chain, rows) || !rows.ChannelUp(chain[0].1.id) || PrimaryName(chain, rows) == "")
  {
    ServingOfChain(chain, rows);
    hide Serving;
    var ids := Serving(Ids(chain), rows);
    if ids != [] {
      forall c | c in Entries(ids, rows) ensures Fit(c, rows) {
        var k :| 0 <= k < |ids| && c == Entries(ids, rows)[k];
        assert ids[k] in ids;
      }
    } else if Tried(chain, rows).Tries? {
      assert !rows.Serves(chain[0].0.id, chain[0].1.id);
      assert Tried(chain, rows).candidates[0] in Tried(chain, rows).candidates;
    }
  }

  ghost predicate TriesAll(chain: seq<(Model, Channel)>, loaded: Loaded) {
    && loaded.Tries? && |loaded.candidates| == |chain|
    && forall k | 0 <= k < |chain| ::
         loaded.candidates[k].modelId == Some(chain[k].0.id) && loaded.candidates[k].channelId == chain[k].1.id
  }

  /** The whole chain is tried, in order, if and only if all of it serves, or it is one pair whose
      channel is up and whose model is still there, enabled or not, with a name. */
  lemma {:induction false} AllTriedIff(chain: seq<(Model, Channel)>, rows: Rows)
    requires chain != []
    ensures TriesAll(chain, Tried(chain, rows))
            <==> (AllServe(chain, rows)
                  || (|chain| == 1 && rows.ChannelUp(chain[0].1.id) && chain[0].0.id in rows.models
                      && PrimaryName(chain, rows) != ""))
  {
    ServingOfChain(chain, rows);
    hide Serving;
    var ids, all := Serving(Ids(chain), rows), Ids(chain);
    if ids != [] && TriesAll(chain, Tried(chain, rows)) {
      assert forall k | 0 <= k < |chain| :: Entries(ids, rows)[k].modelId == Some(ids[k].0);
      assert forall k | 0 <= k < |chain| :: ids[k] == all[k];
      assert ids == all;
    }
    if |chain| == 1 && SomeServes(chain, rows) { assert AllServe(chain, rows); }
    if AllServe(chain, rows) { assert rows.Serves(chain[0].0.id, chain[0].1.id); }
  }

  /** So a pair whose model was disabled after the selection is still tried. */
  lemma {:induction false} DisabledModelIsTried()
    ensures var model, channel := Model(1, true, 2, "gpt"), Channel(2, true);
            var later := Rows(map[1 := model.(enabled := false)], map[2 := channel]);
            !later.Serves(1, 2) && Tried([(model, channel)], later) == Tries([Candidate(Some(1), 2, "gpt")])
  {
    var model, channel := Model(1, true, 2, "gpt"), Channel(2, true);
    var later := Rows(map[1 := model.(enabled := false)], map[2 := channel]);
    ServingOfChain([(model, channel)], later);
  }

  /** End to end, with the rows as they are when the route is selected and as they are `later`, when
      the translator looks. An empty selection is refused before the translator is reached. */
  method RouteRequest(policy: Policy, rows: Rows, later: Rows)
    returns (chain: seq<(Model, Channel)>, loaded: Loaded, ghost primary: Option<Pair>)
    requires rows.Keyed()
    ensures IsPrimary(policy.strategy, UsablePairs(policy.targets, rows), primary)
    ensures primary.Some? ==> chain != [] && chain[0] == (primary.value.model, primary.value.channel)
    ensures chain == [] ==> loaded == Refused(502)
    ensures chain != [] ==> loaded == Tried(chain, later)
    ensures chain != [] && AllServe(chain, later) ==> TriesAll(chain, loaded)
    ensures AllServe(chain, rows)
    ensures forall j, k | 0 <= j < k < |chain| :: chain[j].0.id != chain[k].0.id
  {
    hide PrintHeaders, Load, Tried, IsPrimary, UsablePairs;
    chain, primary := SelectRoute(policy, rows);
    if chain == [] {
      return chain, Refused(502), primary;
    }
    HeadersReadBack(chain, later);
    AllTriedIff(chain, later);
    loaded := LoadCandidates(PrintHeaders(chain), later);
  }
}
