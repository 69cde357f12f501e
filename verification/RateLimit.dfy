/** The per-minute request counter. The increment and its expiry are one step. */
module RateLimit {
  import opened Prelude

  type Clock = real

  const DEFAULT_RPM: nat := 600
  const MINUTE: Clock := 60.0

  /** The counter key: absent, or counting since the request that created it. */
  datatype Counter = Absent | Live(n: nat, since: Clock)

  function Hit(c: Counter, now: Clock): (r: Counter)
    ensures r.Live?
  {
    if c.Live? && now < c.since + MINUTE then Live(c.n + 1, c.since) else Live(1, now)
  }

  function After(times: seq<Clock>): Counter {
    if times == [] then Absent else Hit(After(times[..|times| - 1]), times[|times| - 1])
  }

  /** Whether the last of these requests is let through. */
  predicate Admitted(times: seq<Clock>, limit: nat)
    requires times != []
  {
    Hit(After(times[..|times| - 1]), times[|times| - 1]).n <= limit
  }

  predicate Advancing(times: seq<Clock>) {
    forall i, j | 0 <= i < j < |times| :: times[i] <= times[j]
  }

  // ---- one bucket -------------------------------------------------------------------------------

  /** Requests let through while the counter created at `since` lived. */
  function AdmittedInBucket(times: seq<Clock>, limit: nat, since: Clock): nat {
    if times == [] then 0
    else
      AdmittedInBucket(times[..|times| - 1], limit, since)
      + if Admitted(times, limit) && After(times).since == since then 1 else 0
  }

  lemma {:induction false} BucketState(times: seq<Clock>)
    requires Advancing(times) && times != []
    ensures var c, now := After(times), times[|times| - 1];
            c.Live? && c.n >= 1 && c.since <= now < c.since + MINUTE
  {
    if |times| > 1 { BucketState(times[..|times| - 1]); }
  }

  /** A bucket lets through exactly its first `limit` requests. */
  lemma {:induction false} BucketBound(times: seq<Clock>, limit: nat, since: Clock)
    requires Advancing(times)
    ensures var c, k := After(times), AdmittedInBucket(times, limit, since);
            && (c.Absent? || c.since < since ==> k == 0)
            && (c.Live? && c.since == since ==> k == Min(c.n, limit))
            && k <= limit
  {
    if times != [] {
      var before := times[..|times| - 1];
      BucketBound(before, limit, since);
      if before != [] { BucketState(before); }
    }
  }

  // ---- any minute -------------------------------------------------------------------------------

  /** Requests let through in the closed minute from `from`; `closed` false leaves out its end. */
  function AdmittedInMinute(times: seq<Clock>, limit: nat, from: Clock, closed: bool): nat {
    if times == [] then 0
    else
      var now := times[|times| - 1];
      AdmittedInMinute(times[..|times| - 1], limit, from, closed)
      + if from <= now && (now < from + MINUTE || (closed && now == from + MINUTE)) && Admitted(times, limit)
        then 1 else 0
  }

  /** What `k` admissions in the minute can be, by where the current bucket began: before the
      minute its first request is outside; inside, one earlier bucket may have contributed, and
      not at all if this one began right at the start; a bucket at the very end follows one at
      the very start. */
  predicate MinuteBound(c: Counter, k: nat, limit: nat, from: Clock, closed: bool) {
    if c.Absent? then k == 0
    else if c.since < from then k <= Max(0, Min(c.n, limit) - 1) && (k > 0 ==> from < c.since + MINUTE)
    else if c.since < from + MINUTE
    then k <= (if c.since == from then 0 else Max(0, limit - 1)) + Min(c.n, limit)
    else if closed then k <= limit + (if c.since == from + MINUTE then Min(c.n, limit) else limit)
    else k <= Max(0, 2 * limit - 1)
  }

  lemma {:induction false} MinuteBounded(times: seq<Clock>, limit: nat, from: Clock, closed: bool)
    requires Advancing(times)
    ensures MinuteBound(After(times), AdmittedInMinute(times, limit, from, closed), limit, from, closed)
  {
    if times != [] {
      var before := times[..|times| - 1];
      MinuteBounded(before, limit, from, closed);
      BucketState(times);
      if before != [] { BucketState(before); }
    }
  }

  /** No minute lets through more than twice the limit, and no half-open one that many: a minute
      never meets three buckets. */
  lemma {:induction false} AtMostTwiceTheLimit(times: seq<Clock>, limit: nat, from: Clock)
    requires Advancing(times)
    ensures AdmittedInMinute(times, limit, from, true) <= 2 * limit
    ensures AdmittedInMinute(times, limit, from, false) <= Max(0, 2 * limit - 1)
  {
    MinuteBounded(times, limit, from, true);
    MinuteBounded(times, limit, from, false);
  }

  /** `limit` requests at the start of a minute and as many at its end. */
  function Burst(limit: nat): seq<Clock> {
    seq(2 * limit, i => if i < limit then 0.0 else MINUTE)
  }

  /** The bound is reached, for every limit. */
  lemma {:induction false} TwiceTheLimitIsReached(limit: nat, k: nat)
    requires k <= 2 * limit
    ensures Advancing(Burst(limit))
    ensures AdmittedInMinute(Burst(limit)[..k], limit, 0.0, true) == k
    ensures k > 0 ==> After(Burst(limit)[..k]) == if k <= limit then Live(k, 0.0) else Live(k - limit, MINUTE)
  {
    if k > 0 {
      TwiceTheLimitIsReached(limit, k - 1);
      assert Burst(limit)[..k][..k - 1] == Burst(limit)[..k - 1];
    }
  }

  class Limiter {
    var counter: Counter

    method RateLimit(perMinute: Option<int>, now: Clock) returns (admitted: bool)
      modifies this
      ensures counter == Hit(old(counter), now)
      ensures admitted == (counter.n <= if perMinute.Some? && perMinute.value > 0 then perMinute.value else DEFAULT_RPM)
    {
      var limit := if perMinute.Some? && perMinute.value > 0 then perMinute.value else DEFAULT_RPM;
      if counter.Absent? || counter.since + MINUTE <= now {
        counter := Live(1, now);
      } else {
        counter := Live(counter.n + 1, counter.since);
      }
      admitted := counter.n <= limit;
    }
  }
}
