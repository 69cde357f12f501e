/** The in-process LRU cache with expiry, and the plain map it stands for. */
module TtlCache {
  import opened Prelude

  type Clock = real

  datatype Entry<K, V> = Entry(key: K, expires: Clock, value: V)
  datatype Config = Config(maxsize: nat, ttl: Clock)

  // ---- operations on the ordered dictionary, least recently used first --------------------------

  function Position<K(==), V>(d: seq<Entry<K, V>>, k: K): (p: nat)
    ensures p <= |d| && (p < |d| ==> d[p].key == k)
    ensures forall j | 0 <= j < p :: d[j].key != k
  {
    if d == [] then 0 else if d[0].key == k then 0 else 1 + Position(d[1..], k)
  }

  predicate Holds<K(==), V>(d: seq<Entry<K, V>>, k: K) { Position(d, k) < |d| }

  function Without<K(==), V>(d: seq<Entry<K, V>>, k: K): seq<Entry<K, V>> {
    var p := Position(d, k);
    if p < |d| then d[..p] + d[p + 1..] else d
  }

  function GetAt<K(==), V>(d: seq<Entry<K, V>>, k: K, now: Clock): Option<V> {
    var p := Position(d, k);
    if p < |d| && d[p].expires > now then Some(d[p].value) else None
  }

  function AfterGet<K(==), V>(d: seq<Entry<K, V>>, k: K, now: Clock): seq<Entry<K, V>> {
    var p := Position(d, k);
    if p == |d| then d
    else if d[p].expires <= now then Without(d, k)
    else Without(d, k) + [d[p]]
  }

  function Trim<K, V>(d: seq<Entry<K, V>>, n: nat): seq<Entry<K, V>> {
    if |d| > n then d[|d| - n..] else d
  }

  function AfterSet<K(==), V>(d: seq<Entry<K, V>>, k: K, v: V, now: Clock, c: Config): seq<Entry<K, V>> {
    Trim(Without(d, k) + [Entry(k, now + c.ttl, v)], c.maxsize)
  }

  // ---- runs, and what they mean -----------------------------------------------------------------

  datatype Op<K, V> = Get(key: K) | Set(key: K, value: V) | Pop(key: K) | Clear
  datatype Call<K, V> = Call(op: Op<K, V>, at: Clock)

  function Step<K(==), V>(d: seq<Entry<K, V>>, call: Call<K, V>, c: Config): seq<Entry<K, V>> {
    match call.op
    case Get(k) => AfterGet(d, k, call.at)
    case Set(k, v) => AfterSet(d, k, v, call.at, c)
    case Pop(k) => Without(d, k)
    case Clear => []
  }

  function Run<K(==), V>(calls: seq<Call<K, V>>, c: Config): seq<Entry<K, V>> {
    if calls == [] then [] else Step(Run(calls[..|calls| - 1], c), calls[|calls| - 1], c)
  }

  /** The plain map: when and to what the key was last set, unless popped or cleared since. */
  function LastSet<K(==), V>(calls: seq<Call<K, V>>, k: K): Option<(Clock, V)> {
    if calls == [] then None
    else
      var last := calls[|calls| - 1];
      if last.op.Clear? || (last.op.Pop? && last.op.key == k) then None
      else if last.op.Set? && last.op.key == k then Some((last.at, last.op.value))
      else LastSet(calls[..|calls| - 1], k)
  }

  predicate Touches<K(==), V>(d: seq<Entry<K, V>>, call: Call<K, V>) {
    call.op.Set? || (call.op.Get? && GetAt(d, call.op.key, call.at).Some?)
  }

  /** Other keys set or found since the key itself was last set or found. */
  function TouchedSince<K(==), V>(calls: seq<Call<K, V>>, c: Config, k: K): set<K> {
    if calls == [] then {}
    else
      var before := calls[..|calls| - 1];
      var last := calls[|calls| - 1];
      if !Touches(Run(before, c), last) then TouchedSince(before, c, k)
      else if last.op.key == k then {}
      else TouchedSince(before, c, k) + {last.op.key}
  }

  predicate Advancing<K, V>(calls: seq<Call<K, V>>) {
    forall i, j | 0 <= i < j < |calls| :: calls[i].at <= calls[j].at
  }

  // ---- what every call keeps --------------------------------------------------------------------

  predicate Distinct<K(==), V>(d: seq<Entry<K, V>>) {
    forall i, j | 0 <= i < j < |d| :: d[i].key != d[j].key
  }

  /** Entries hold the last value set, with its expiry. */
  ghost predicate Faithful<K, V>(d: seq<Entry<K, V>>, calls: seq<Call<K, V>>, c: Config) {
    forall i | 0 <= i < |d| ::
      && LastSet(calls, d[i].key).Some?
      && d[i].value == LastSet(calls, d[i].key).value.1
      && d[i].expires == LastSet(calls, d[i].key).value.0 + c.ttl
  }

  /** Entries are ordered by recency: whatever is behind a key was touched after it. */
  ghost predicate ByRecency<K, V>(d: seq<Entry<K, V>>, calls: seq<Call<K, V>>, c: Config) {
    forall i, j | 0 <= i < j < |d| :: d[j].key in TouchedSince(calls, c, d[i].key)
  }

  /** A key that was set and is gone has expired, or was pushed out by others. */
  ghost predicate GoneForReason<K, V>(d: seq<Entry<K, V>>, calls: seq<Call<K, V>>, c: Config, k: K) {
    LastSet(calls, k).Some? && !Holds(d, k) ==>
      || (calls != [] && LastSet(calls, k).value.0 + c.ttl <= calls[|calls| - 1].at)
      || |TouchedSince(calls, c, k)| >= c.maxsize
  }

  ghost predicate Shaped<K, V>(calls: seq<Call<K, V>>, c: Config) {
    var d := Run(calls, c);
    Distinct(d) && |d| <= c.maxsize && Faithful(d, calls, c) && ByRecency(d, calls, c)
  }

  lemma {:induction false} HoldsMember<K, V>(d: seq<Entry<K, V>>, i: nat)
    requires i < |d|
    ensures Holds(d, d[i].key)
  {
  }

  lemma {:induction false} WithoutLacks<K, V>(d: seq<Entry<K, V>>, k: K)
    requires Distinct(d)
    ensures Distinct(Without(d, k)) && forall i | 0 <= i < |Without(d, k)| :: Without(d, k)[i].key != k
    ensures |Without(d, k)| == if Holds(d, k) then |d| - 1 else |d|
    ensures forall x :: Holds(Without(d, k), x) <==> x != k && Holds(d, x)
  {
    var w, p := Without(d, k), Position(d, k);
    forall x ensures Holds(w, x) <==> x != k && Holds(d, x) {
      var q := Position(d, x);
      if q < |d| && x != k { HoldsMember(w, if q < p then q else q - 1); }
      var r := Position(w, x);
      if r < |w| { HoldsMember(d, if r < p then r else r + 1); }
    }
  }

  /** Removing an entry keeps recency order, if no touch happened. */
  lemma {:induction false} RemoveShaped<K, V>(calls: seq<Call<K, V>>, c: Config)
    requires calls != [] && Shaped(calls[..|calls| - 1], c)
    requires var call := calls[|calls| - 1];
             var d := Run(calls[..|calls| - 1], c);
             call.op.Pop? || (call.op.Get? && !Touches(d, call))
    ensures Shaped(calls, c)
  {
    var before, k := calls[..|calls| - 1], calls[|calls| - 1].op.key;
    var d := Run(before, c);
    WithoutLacks(d, k);
    WithoutKeeps(d, k, before, c);
    assert Run(calls, c) == Without(d, k);
    forall i | 0 <= i < |Without(d, k)|
      ensures LastSet(calls, Without(d, k)[i].key) == LastSet(before, Without(d, k)[i].key)
      ensures TouchedSince(calls, c, Without(d, k)[i].key) == TouchedSince(before, c, Without(d, k)[i].key)
    {
    }
  }

  /** Moving or putting an entry at the end keeps the order: every other key now has it behind. */
  lemma {:induction false} EndShaped<K, V>(calls: seq<Call<K, V>>, c: Config, e: Entry<K, V>)
    requires calls != [] && Shaped(calls[..|calls| - 1], c)
    requires var call := calls[|calls| - 1];
             && Touches(Run(calls[..|calls| - 1], c), call) && e.key == call.op.key
             && LastSet(calls, e.key).Some?
             && e.value == LastSet(calls, e.key).value.1
             && e.expires == LastSet(calls, e.key).value.0 + c.ttl
    ensures var d' := Without(Run(calls[..|calls| - 1], c), e.key) + [e];
            Distinct(d') && Faithful(d', calls, c) && ByRecency(d', calls, c)
  {
    hide Touches, Run, Without, LastSet, TouchedSince;
    var before := calls[..|calls| - 1];
    var d := Run(before, c);
    var w := Without(d, e.key);
    WithoutLacks(d, e.key);
    WithoutKeeps(d, e.key, before, c);
    forall i | 0 <= i < |w|
      ensures LastSet(calls, w[i].key) == LastSet(before, w[i].key)
      ensures TouchedSince(calls, c, w[i].key) == TouchedSince(before, c, w[i].key) + {e.key}
    {
      TouchOfOther(calls, c, w[i].key);
    }
  }

  lemma {:induction false} TouchOfOther<K, V>(calls: seq<Call<K, V>>, c: Config, k: K)
    requires calls != [] && Touches(Run(calls[..|calls| - 1], c), calls[|calls| - 1])
    requires k != calls[|calls| - 1].op.key
    ensures LastSet(calls, k) == LastSet(calls[..|calls| - 1], k)
    ensures TouchedSince(calls, c, k) == TouchedSince(calls[..|calls| - 1], c, k) + {calls[|calls| - 1].op.key}
  {
  }

  lemma {:induction false} WithoutKeeps<K, V>(d: seq<Entry<K, V>>, k: K, calls: seq<Call<K, V>>, c: Config)
    requires Faithful(d, calls, c) && ByRecency(d, calls, c)
    ensures Faithful(Without(d, k), calls, c) && ByRecency(Without(d, k), calls, c)
  {
    hide LastSet, TouchedSince;
  }

  lemma {:induction false} FoundShaped<K, V>(calls: seq<Call<K, V>>, c: Config)
    requires calls != [] && Shaped(calls[..|calls| - 1], c)
    requires calls[|calls| - 1].op.Get? && Touches(Run(calls[..|calls| - 1], c), calls[|calls| - 1])
    ensures Shaped(calls, c)
  {
    var d, k := Run(calls[..|calls| - 1], c), calls[|calls| - 1].op.key;
    EndShaped(calls, c, d[Position(d, k)]);
    WithoutLacks(d, k);
  }

  lemma {:induction false} TrimShaped<K, V>(d: seq<Entry<K, V>>, calls: seq<Call<K, V>>, c: Config)
    requires Distinct(d) && Faithful(d, calls, c) && ByRecency(d, calls, c)
    ensures var t := Trim(d, c.maxsize);
            |t| <= c.maxsize && Distinct(t) && Faithful(t, calls, c) && ByRecency(t, calls, c)
  {
  }

  /** The dictionary during a set, before it is trimmed. */
  ghost function Untrimmed<K, V>(calls: seq<Call<K, V>>, c: Config): seq<Entry<K, V>>
    requires calls != [] && calls[|calls| - 1].op.Set?
  {
    var call := calls[|calls| - 1];
    Without(Run(calls[..|calls| - 1], c), call.op.key) + [Entry(call.op.key, call.at + c.ttl, call.op.value)]
  }

  lemma {:induction false} SetTrims<K, V>(calls: seq<Call<K, V>>, c: Config)
    requires calls != [] && calls[|calls| - 1].op.Set?
    ensures Run(calls, c) == Trim(Untrimmed(calls, c), c.maxsize)
    ensures Touches(Run(calls[..|calls| - 1], c), calls[|calls| - 1])
    ensures LastSet(calls, calls[|calls| - 1].op.key) == Some((calls[|calls| - 1].at, calls[|calls| - 1].op.value))
  {
    hide Without, Trim;
  }

  lemma {:induction false} UntrimmedShaped<K, V>(calls: seq<Call<K, V>>, c: Config)
    requires calls != [] && Shaped(calls[..|calls| - 1], c) && calls[|calls| - 1].op.Set?
    ensures Distinct(Untrimmed(calls, c)) && Faithful(Untrimmed(calls, c), calls, c)
    ensures ByRecency(Untrimmed(calls, c), calls, c)
  {
    hide Shaped, Run, LastSet, Touches, Without, Distinct, Faithful, ByRecency;
    var call := calls[|calls| - 1];
    SetTrims(calls, c);
    EndShaped(calls, c, Entry(call.op.key, call.at + c.ttl, call.op.value));
  }

  lemma {:induction false} SetShaped<K, V>(calls: seq<Call<K, V>>, c: Config)
    requires calls != [] && Shaped(calls[..|calls| - 1], c) && calls[|calls| - 1].op.Set?
    ensures Shaped(calls, c)
  {
    hide Run, Untrimmed, LastSet, Touches, Trim, Distinct, Faithful, ByRecency;
    SetTrims(calls, c);
    UntrimmedShaped(calls, c);
    TrimShaped(Untrimmed(calls, c), calls, c);
  }

  lemma {:induction false} RunShaped<K, V>(calls: seq<Call<K, V>>, c: Config)
    ensures Shaped(calls, c)
  {
    if calls != [] {
      RunShaped(calls[..|calls| - 1], c);
      var call := calls[|calls| - 1];
      if call.op.Set? {
        SetShaped(calls, c);
      } else if call.op.Get? && Touches(Run(calls[..|calls| - 1], c), call) {
        FoundShaped(calls, c);
      } else if !call.op.Clear? {
        RemoveShaped(calls, c);
      }
    }
  }

  // ---- evictions --------------------------------------------------------------------------------

  ghost function KeysOf<K, V>(d: seq<Entry<K, V>>): set<K> {
    set i | 0 <= i < |d| :: d[i].key
  }

  lemma {:induction false} DistinctKeys<K, V>(d: seq<Entry<K, V>>)
    requires Distinct(d)
    ensures |KeysOf(d)| == |d|
  {
    if d != [] {
      var n := |d| - 1;
      DistinctKeys(d[..n]);
      assert KeysOf(d) == KeysOf(d[..n]) + {d[n].key};
    }
  }

  lemma {:induction false} SubsetSize<K>(a: set<K>, b: set<K>)
    requires a <= b
    ensures |a| <= |b|
  {
    if x :| x in a {
      SubsetSize(a - {x}, b - {x});
    }
  }

  lemma {:induction false} TrimHolds<K, V>(d: seq<Entry<K, V>>, n: nat, p: nat)
    requires p < |d| <= n + 1
    ensures p > 0 || |d| <= n ==> Holds(Trim(d, n), d[p].key)
  {
    var t := Trim(d, n);
    if p > 0 || |d| <= n { HoldsMember(t, p - (|d| - |t|)); }
  }

  /** The entry a full cache drops has all the others, the new one included, touched after it. */
  lemma {:induction false} DroppedWasOldest<K, V>(d: seq<Entry<K, V>>, calls: seq<Call<K, V>>, c: Config, k: K)
    requires Distinct(d) && ByRecency(d, calls, c) && |d| <= c.maxsize + 1
    requires Holds(d, k) && !Holds(Trim(d, c.maxsize), k)
    ensures |TouchedSince(calls, c, k)| >= c.maxsize
  {
    hide TouchedSince;
    TrimHolds(d, c.maxsize, Position(d, k));
    DistinctKeys(d[1..]);
    assert KeysOf(d[1..]) <= TouchedSince(calls, c, k);
    SubsetSize(KeysOf(d[1..]), TouchedSince(calls, c, k));
  }

  lemma {:induction false} UntrimmedHolds<K, V>(calls: seq<Call<K, V>>, c: Config, k: K)
    requires calls != [] && calls[|calls| - 1].op.Set? && Shaped(calls[..|calls| - 1], c)
    requires k != calls[|calls| - 1].op.key ==> Holds(Run(calls[..|calls| - 1], c), k)
    ensures Holds(Untrimmed(calls, c), k) && |Untrimmed(calls, c)| <= c.maxsize + 1
  {
    hide Run, Without, Faithful, ByRecency;
    var d, call := Run(calls[..|calls| - 1], c), calls[|calls| - 1];
    var full := Untrimmed(calls, c);
    WithoutLacks(d, call.op.key);
    if k == call.op.key {
      HoldsMember(full, |full| - 1);
    } else {
      var p := Position(Without(d, call.op.key), k);
      assert full[p].key == k;
      HoldsMember(full, p);
    }
  }

  lemma {:induction false} SetGone<K, V>(calls: seq<Call<K, V>>, c: Config, k: K)
    requires calls != [] && calls[|calls| - 1].op.Set? && !Holds(Run(calls, c), k)
    requires k != calls[|calls| - 1].op.key ==> Holds(Run(calls[..|calls| - 1], c), k)
    ensures |TouchedSince(calls, c, k)| >= c.maxsize
  {
    hide Run, Untrimmed, Holds, Shaped, Distinct, Faithful, ByRecency, Trim, TouchedSince, LastSet;
    RunShaped(calls[..|calls| - 1], c);
    SetTrims(calls, c);
    UntrimmedShaped(calls, c);
    UntrimmedHolds(calls, c, k);
    DroppedWasOldest(Untrimmed(calls, c), calls, c, k);
  }

  /** An absent key stays absent for its reason until it is set again. */
  lemma {:induction false} GoneStays<K, V>(calls: seq<Call<K, V>>, c: Config, k: K)
    requires calls != [] && Advancing(calls) && !Holds(Run(calls[..|calls| - 1], c), k)
    requires GoneForReason(Run(calls[..|calls| - 1], c), calls[..|calls| - 1], c, k)
    requires !(calls[|calls| - 1].op.Set? && calls[|calls| - 1].op.key == k)
    ensures GoneForReason(Run(calls, c), calls, c, k)
  {
    var before := calls[..|calls| - 1];
    if LastSet(calls, k).Some? {
      assert LastSet(before, k) == LastSet(calls, k) && before != [];
      assert TouchedSince(before, c, k) <= TouchedSince(calls, c, k);
      SubsetSize(TouchedSince(before, c, k), TouchedSince(calls, c, k));
    }
  }

  /** A call other than a set drops a present key only by popping, clearing or expiring it. */
  lemma {:induction false} DropGone<K, V>(calls: seq<Call<K, V>>, c: Config, k: K)
    requires calls != [] && !calls[|calls| - 1].op.Set? && Shaped(calls[..|calls| - 1], c)
    requires Holds(Run(calls[..|calls| - 1], c), k)
    ensures GoneForReason(Run(calls, c), calls, c, k)
  {
    var d, call := Run(calls[..|calls| - 1], c), calls[|calls| - 1];
    if !call.op.Clear? {
      WithoutLacks(d, call.op.key);
      if call.op.Get? && Touches(d, call) {
        var full := Without(d, call.op.key) + [d[Position(d, call.op.key)]];
        if k == call.op.key {
          HoldsMember(full, |full| - 1);
        } else {
          var p := Position(Without(d, call.op.key), k);
          assert full[p].key == k;
          HoldsMember(full, p);
        }
      }
    }
  }

  /** A key set and not popped is gone only because it expired or because at least `maxsize`
      other keys were touched since its last touch. */
  lemma {:induction false} RunGoneForReason<K, V>(calls: seq<Call<K, V>>, c: Config, k: K)
    requires Advancing(calls)
    ensures GoneForReason(Run(calls, c), calls, c, k)
  {
    if calls != [] {
      var before, call := calls[..|calls| - 1], calls[|calls| - 1];
      RunGoneForReason(before, c, k);
      RunShaped(before, c);
      if call.op.Set? && (k == call.op.key || Holds(Run(before, c), k)) {
        if LastSet(calls, k).Some? && !Holds(Run(calls, c), k) { SetGone(calls, c, k); }
      } else if Holds(Run(before, c), k) {
        DropGone(calls, c, k);
      } else {
        GoneStays(calls, c, k);
      }
    }
  }

  // ---- the cache refines the plain map ----------------------------------------------------------

  /** The size stays within bounds; a hit is the last value set, not popped or cleared since and
      younger than the ttl; and such a value is found unless `maxsize` others were touched since
      its last touch. */
  lemma {:induction false} CacheRefinesMap<K, V>(calls: seq<Call<K, V>>, c: Config, k: K, now: Clock)
    requires Advancing(calls) && (calls != [] ==> calls[|calls| - 1].at <= now)
    ensures var hit := GetAt(Run(calls, c), k, now);
            var meant := LastSet(calls, k);
            && |Run(calls, c)| <= c.maxsize
            && (hit.Some? ==> meant.Some? && hit.value == meant.value.1 && now < meant.value.0 + c.ttl)
            && (meant.Some? && now < meant.value.0 + c.ttl && |TouchedSince(calls, c, k)| < c.maxsize ==>
                  hit == Some(meant.value.1))
  {
    RunShaped(calls, c);
    RunGoneForReason(calls, c, k);
  }

  // ---- the cache as the code updates it ---------------------------------------------------------

  class Cache<K(==), V> {
    var data: seq<Entry<K, V>>
    const config: Config

    constructor (maxsize: nat, ttl: Clock)
      ensures data == [] && config == Config(maxsize, ttl)
    {
      data := [];
      config := Config(maxsize, ttl);
    }

    method Lookup(key: K) returns (p: nat)
      ensures p == Position(data, key)
    {
      p := 0;
      while p < |data| && data[p].key != key
        invariant p <= |data| && forall j | 0 <= j < p :: data[j].key != key
      {
        p := p + 1;
      }
      PositionUnique(data, key, p);
    }

    method Get(key: K, now: Clock) returns (v: Option<V>)
      modifies this`data
      ensures v == GetAt(old(data), key, now) && data == AfterGet(old(data), key, now)
    {
      var p := Lookup(key);
      if p == |data| {
        return None;
      }
      var e := data[p];
      if e.expires <= now {
        data := data[..p] + data[p + 1..];
        return None;
      }
      data := data[..p] + data[p + 1..] + [e];
      v := Some(e.value);
    }

    method Set(key: K, value: V, now: Clock)
      modifies this`data
      ensures data == AfterSet(old(data), key, value, now, config)
    {
      hide Position;
      var expires := now + config.ttl;
      var p := Lookup(key);
      if p < |data| {
        data := data[..p] + data[p + 1..];
      }
      data := data + [Entry(key, expires, value)];
      ghost var full := data;
      assert full == Without(old(data), key) + [Entry(key, expires, value)];
      hide Without, Trim;
      while |data| > config.maxsize
        invariant Trim(data, config.maxsize) == Trim(full, config.maxsize)
      {
        TrimTail(data, config.maxsize);
        data := data[1..];
      }
      TrimNothing(data, config.maxsize);
    }

    method Pop(key: K)
      modifies this`data
      ensures data == Without(old(data), key)
    {
      var p := Lookup(key);
      if p < |data| {
        data := data[..p] + data[p + 1..];
      }
    }

    method Clear()
      modifies this`data
      ensures data == []
    {
      data := [];
    }
  }

  lemma {:induction false} TrimTail<K, V>(d: seq<Entry<K, V>>, n: nat)
    requires |d| > n
    ensures Trim(d[1..], n) == Trim(d, n)
  {
  }

  lemma {:induction false} TrimNothing<K, V>(d: seq<Entry<K, V>>, n: nat)
    requires |d| <= n
    ensures Trim(d, n) == d
  {
  }

  lemma {:induction false} PositionUnique<K, V>(d: seq<Entry<K, V>>, k: K, p: nat)
    requires p <= |d| && (p < |d| ==> d[p].key == k) && forall j | 0 <= j < p :: d[j].key != k
    ensures p == Position(d, k)
  {
  }
}
