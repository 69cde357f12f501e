/** Quota windows of an api key and the lazy state machine that rolls them. */
module KeyWindow {
  import opened Prelude
  import opened Calendar

  datatype Period = Daily | Weekly | Monthly
  datatype Window = Window(start: Time, end: Time)

  function NextQuotaWindow(start: Time, p: Period): (end: Time)
    ensures start < end <= start + 31 * DAY
  {
    match p
    case Daily => start + DAY
    case Weekly => start + 7 * DAY
    case Monthly => NextPeriodEnd(start)
  }

  /** The window that the fast-forward loop reaches at `now`. */
  function Roll(w: Window, p: Period, now: Time): (r: Window)
    ensures now < r.end && (w.end <= now ==> r.start <= now)
    ensures now < w.end ==> r == w
    decreases Max(0, now + 1 - w.end)
  {
    if now < w.end then w else Roll(Window(w.end, NextQuotaWindow(w.end, p)), p, now)
  }

  // ---- closed forms -----------------------------------------------------------------------------

  function Length(p: Period): (len: nat)
    requires p != Monthly
    ensures len > 0
  {
    if p == Daily then DAY else 7 * DAY
  }

  lemma {:induction false} DivStep(x: nat, d: nat)
    requires d > 0
    ensures (x + d) / d == x / d + 1
    ensures (x + d) / d * d == x / d * d + d
    ensures x < d ==> x / d == 0
  {
    var q, r, s := x / d, x % d, (x + d) / d;
    assert x + d == (q + 1) * d + r == s * d + (x + d) % d;
    MulSmall(s - (q + 1), d, r - (x + d) % d);
    if x < d { MulSmall(q, d, x - r); }
  }

  /** Fixed-length windows: whole lengths after the old end, the last one holding `now`. */
  lemma {:induction false} RollFixed(w: Window, p: Period, now: Time)
    requires p != Monthly && w.end <= now
    ensures Roll(w, p, now).start == w.end + (now - w.end) / Length(p) * Length(p)
    ensures Roll(w, p, now).end == Roll(w, p, now).start + Length(p)
    decreases now - w.end
  {
    var len := Length(p);
    var next := Window(w.end, w.end + len);
    if now < next.end {
      DivStep(now - w.end, len);
    } else {
      RollFixed(next, p, now);
      DivStep(now - next.end, len);
      assert now - w.end == now - next.end + len;
    }
  }

  /** Month windows: from the old end or the first of the month of `now`, whichever is later,
      to the next month boundary. */
  lemma {:induction false} RollMonthly(w: Window, now: Time)
    requires w.end <= now
    ensures Roll(w, Monthly, now) == Window(Max(w.end, FirstOf(MonthOf(now))), NextPeriodEnd(now))
    decreases now - w.end
  {
    hide NextPeriodEnd, MonthOf, FirstOf, Succ;
    var next := Window(w.end, NextPeriodEnd(w.end));
    NextPeriodEndIsNextBoundary(w.end, MonthOf(w.end));
    NextPeriodEndIsNextBoundary(now, MonthOf(now));
    if now < next.end {
      MonthOfUnique(now, MonthOf(w.end));
    } else {
      LaterMonth(w.end, now);
      RollMonthly(next, now);
    }
  }

  lemma {:induction false} LaterMonth(t: Time, now: Time)
    requires t <= now && FirstOf(Succ(MonthOf(t))) <= now
    ensures FirstOf(Succ(MonthOf(t))) <= FirstOf(MonthOf(now))
  {
    hide MonthOf, FirstOf;
    if Index(MonthOf(t)) < Index(MonthOf(now)) {
      MonthsOrdered(MonthOf(t), MonthOf(now));
    } else if Index(MonthOf(now)) < Index(MonthOf(t)) {
      MonthsOrdered(MonthOf(now), MonthOf(t));
    }
  }

  // ---- idle and busy keys agree -----------------------------------------------------------------

  /** Rolling at an earlier instant first does not change the window reached. */
  lemma {:induction false} RollTwice(w: Window, p: Period, earlier: Time, now: Time)
    requires earlier <= now
    ensures Roll(Roll(w, p, earlier), p, now) == Roll(w, p, now)
    decreases Max(0, earlier + 1 - w.end)
  {
    if w.end <= earlier {
      RollTwice(Window(w.end, NextQuotaWindow(w.end, p)), p, earlier, now);
    }
  }

  function RollAll(w: Window, p: Period, instants: seq<Time>): Window {
    if instants == [] then w
    else Roll(RollAll(w, p, instants[..|instants| - 1]), p, instants[|instants| - 1])
  }

  /** A key rolled at any advancing instants holds the window of a key rolled only at the last. */
  lemma {:induction false} RollAllIsRollOnce(w: Window, p: Period, instants: seq<Time>)
    requires instants != []
    requires forall i, j | 0 <= i < j < |instants| :: instants[i] <= instants[j]
    ensures RollAll(w, p, instants) == Roll(w, p, instants[|instants| - 1])
  {
    var n := |instants| - 1;
    if n > 0 {
      RollAllIsRollOnce(w, p, instants[..n]);
      RollTwice(w, p, instants[n - 1], instants[n]);
    }
  }

  // ---- the row and its snapshot -----------------------------------------------------------------

  datatype KeyStatus = Active | Disabled | Expired
  datatype QuotaMode = UntilDepleted | Periodic

  datatype Row = Row(
    status: KeyStatus,
    expiresAt: Option<Time>,
    mode: QuotaMode,
    period: Option<Period>,
    start: Option<Time>,
    end: Option<Time>,
    quota: int,
    used: int)

  /** The cached copy: everything but the usage counter. */
  datatype Snapshot = Snapshot(
    status: KeyStatus,
    expiresAt: Option<Time>,
    mode: QuotaMode,
    period: Option<Period>,
    start: Option<Time>,
    end: Option<Time>,
    quota: int)

  function SnapshotFromRow(r: Row): Snapshot {
    Snapshot(r.status, r.expiresAt, r.mode, r.period, r.start, r.end, r.quota)
  }

  /** A snapshot holds all of a row but its usage: two rows with the same snapshot differ in nothing
      else, and each setting is the row's. */
  lemma {:induction false} SnapshotHoldsRow(r: Row, other: Row)
    ensures var s := SnapshotFromRow(r);
            && s.status == r.status && s.expiresAt == r.expiresAt && s.mode == r.mode && s.period == r.period
            && s.start == r.start && s.end == r.end && s.quota == r.quota
    ensures SnapshotFromRow(other) == SnapshotFromRow(r) <==> other == r.(used := other.used)
  {
  }

  predicate PastExpiry(status: KeyStatus, expiresAt: Option<Time>, now: Time) {
    status == Active && expiresAt.Some? && expiresAt.value <= now
  }

  predicate WindowOver(mode: QuotaMode, period: Option<Period>, end: Option<Time>, now: Time) {
    mode == Periodic && period.Some? && end.Some? && end.value <= now
  }

  function RollRow(r: Row, now: Time): Row
    requires WindowOver(r.mode, r.period, r.end, now)
  {
    var w := Roll(Window(0, r.end.value), r.period.value, now);
    r.(start := Some(w.start), end := Some(w.end), used := 0)
  }

  datatype Verdict = Pass | KeyExpired | KeyNotFound

  function Enforce(r: Row, now: Time): (Row, Verdict) {
    if PastExpiry(r.status, r.expiresAt, now) then (r.(status := Expired), KeyExpired)
    else if r.status == Active && WindowOver(r.mode, r.period, r.end, now) then (RollRow(r, now), Pass)
    else (r, Pass)
  }

  datatype CachedResult = CachedResult(row: Option<Row>, verdict: Verdict, snap: Snapshot)

  function EnforceCached(s: Snapshot, stored: Option<Row>, now: Time): CachedResult {
    var needsExpire := PastExpiry(s.status, s.expiresAt, now);
    var needsRoll := s.status == Active && WindowOver(s.mode, s.period, s.end, now);
    if !needsExpire && !needsRoll then CachedResult(stored, Pass, s)
    else if stored.None? then CachedResult(stored, KeyNotFound, s)
    else
      var r := stored.value;
      if needsExpire && PastExpiry(r.status, r.expiresAt, now)
      then CachedResult(Some(r.(status := Expired)), KeyExpired, s)
      else
        var r' := if needsRoll && WindowOver(r.mode, r.period, r.end, now) then RollRow(r, now) else r;
        CachedResult(Some(r'), Pass, SnapshotFromRow(r'))
  }

  /** A key is refused if and only if it is active and its expiry has come, and then only its status
      changes. Otherwise an active periodic key whose window is over gets a window that holds `now`,
      begins no earlier than the old one ended and is a whole number of periods on, with nothing
      used; and any other key is left alone. */
  lemma {:induction false} EnforceMeaning(r: Row, now: Time)
    ensures var (after, verdict) := Enforce(r, now);
            var expired := r.status == Active && r.expiresAt.Some? && r.expiresAt.value <= now;
            var over := r.status == Active && r.mode == Periodic && r.period.Some? && r.end.Some? && r.end.value <= now;
            && verdict == (if expired then KeyExpired else Pass)
            && (expired ==> after == r.(status := Expired))
            && (!expired && over ==>
                  && after == r.(start := after.start, end := after.end, used := 0)
                  && after.start.Some? && after.end.Some?
                  && r.end.value <= after.start.value <= now < after.end.value
                  && (r.period.value == Daily ==>
                        after.end.value == after.start.value + DAY && (after.start.value - r.end.value) % DAY == 0)
                  && (r.period.value == Weekly ==>
                        && after.end.value == after.start.value + 7 * DAY
                        && (after.start.value - r.end.value) % (7 * DAY) == 0)
                  && (r.period.value == Monthly ==>
                        && after.end.value == FirstOf(Succ(MonthOf(now)))
                        && after.start.value == Max(r.end.value, FirstOf(MonthOf(now)))))
            && (!expired && !over ==> after == r)
  {
    if r.mode == Periodic && r.period.Some? && r.end.Some? && r.end.value <= now {
      RolledWindow(Window(0, r.end.value), r.period.value, now);
    }
    hide Roll;
  }

  lemma {:induction false} RolledWindow(w: Window, p: Period, now: Time)
    requires w.end <= now
    ensures var r := Roll(w, p, now);
            && w.end <= r.start <= now < r.end
            && (p == Daily ==> r.end == r.start + DAY && (r.start - w.end) % DAY == 0)
            && (p == Weekly ==> r.end == r.start + 7 * DAY && (r.start - w.end) % (7 * DAY) == 0)
            && (p == Monthly ==>
                  r.end == FirstOf(Succ(MonthOf(now))) && r.start == Max(w.end, FirstOf(MonthOf(now))))
  {
    hide Roll, FirstOf, MonthOf, Succ, NextPeriodEnd;
    if p == Monthly {
      RollMonthly(w, now);
      NextPeriodEndIsNextBoundary(now, MonthOf(now));
    } else {
      RollFixed(w, p, now);
      WholeLengths((now - w.end) / Length(p), Length(p));
      NonNegativeQuotient(now - w.end, Length(p));
    }
  }

  lemma {:induction false} WholeLengths(q: int, len: nat)
    requires len > 0
    ensures (q * len) % len == 0
  {
    Quotient(q * len, len, q, 0);
  }

  lemma {:induction false} NonNegativeQuotient(x: nat, len: nat)
    requires len > 0
    ensures x / len * len >= 0
  {
    MulMonotone(0, x / len, len);
  }

  /** With a snapshot of the current row, the cached path is the uncached one. */
  lemma {:induction false} FreshSnapshotAgrees(r: Row, now: Time)
    ensures var c := EnforceCached(SnapshotFromRow(r), Some(r), now);
            && c.row == Some(Enforce(r, now).0)
            && c.verdict == Enforce(r, now).1
            && (c.verdict == Pass ==> c.snap == SnapshotFromRow(c.row.value))
  {
  }

  /** With any snapshot, exactly when the cached path leaves the row the uncached one would. */
  lemma {:induction false} StaleSnapshotAgreesIff(s: Snapshot, r: Row, now: Time)
    ensures var needsExpire := PastExpiry(s.status, s.expiresAt, now);
            var needsRoll := s.status == Active && WindowOver(s.mode, s.period, s.end, now);
            var over := WindowOver(r.mode, r.period, r.end, now);
            EnforceCached(s, Some(r), now).row == Some(Enforce(r, now).0)
            <==> (if PastExpiry(r.status, r.expiresAt, now) then needsExpire
                  else if r.status == Active then over ==> needsRoll
                  else !(needsRoll && over))
  {
    if WindowOver(r.mode, r.period, r.end, now) {
      assert RollRow(r, now).end.value > now;
    }
  }

  /** The cached path asks for the row only if the snapshot says the key has expired or its window is
      over; a row that is then gone is not found; and after a pass the snapshot in use is the row's. */
  lemma {:induction false} CachedMeaning(s: Snapshot, stored: Option<Row>, now: Time)
    ensures var c := EnforceCached(s, stored, now);
            var asks := s.status == Active
                        && ((s.expiresAt.Some? && s.expiresAt.value <= now)
                            || (s.mode == Periodic && s.period.Some? && s.end.Some? && s.end.value <= now));
            && (!asks ==> c == CachedResult(stored, Pass, s))
            && (c.verdict == KeyNotFound <==> asks && stored.None?)
            && (c.row.Some? <==> stored.Some?)
            && (asks && c.verdict == Pass ==> c.row.Some? && c.snap == SnapshotFromRow(c.row.value))
            && (c.verdict == KeyExpired ==> c.row.Some? && c.row.value.status == Expired)
  {
  }

  /** One that does not: a snapshot whose window is still open hides that the row's is over. */
  lemma {:induction false} StaleSnapshotSkipsRoll(now: Time, used: int)
    requires now >= DAY
    ensures var r := Row(Active, None, Periodic, Some(Daily), Some(0), Some(DAY), 100, used);
            var s := SnapshotFromRow(r).(end := Some(now + 1));
            && EnforceCached(s, Some(r), now).row == Some(r)
            && Enforce(r, now).0.used == 0 && Enforce(r, now).0 != r
  {
    var r := Row(Active, None, Periodic, Some(Daily), Some(0), Some(DAY), 100, used);
    assert RollRow(r, now).end.value > now;
  }

  /** However stale the snapshot, usage is zeroed only after its window closed, the new window
      holds `now`, and a row expires only after its expiry. */
  lemma {:induction false} StaleSnapshotIsSafe(s: Snapshot, r: Row, now: Time)
    ensures var after := EnforceCached(s, Some(r), now).row.value;
            && (after.used != r.used || after.end != r.end ==>
                  && r.end.Some? && r.end.value <= now
                  && after.start.Some? && after.end.Some? && after.start.value <= now < after.end.value
                  && after.used == 0)
            && (after.status != r.status ==>
                  && after == r.(status := Expired)
                  && r.expiresAt.Some? && r.expiresAt.value <= now)
  {
  }

  // ---- the row as the code updates it -----------------------------------------------------------

  class KeyRow {
    var status: KeyStatus
    var expiresAt: Option<Time>
    var mode: QuotaMode
    var period: Option<Period>
    var start: Option<Time>
    var end: Option<Time>
    var quota: int
    var used: int

    ghost function State(): Row
      reads this
    {
      Row(status, expiresAt, mode, period, start, end, quota, used)
    }

    method RollForward(now: Time)
      requires WindowOver(mode, period, end, now)
      modifies this
      ensures State() == RollRow(old(State()), now)
    {
      var newStart: Time := end.value;
      var newEnd: Time := NextQuotaWindow(newStart, period.value);
      while newEnd <= now
        invariant Roll(Window(newStart, newEnd), period.value, now) == Roll(Window(0, end.value), period.value, now)
        decreases now - newEnd
      {
        newStart := newEnd;
        newEnd := NextQuotaWindow(newStart, period.value);
      }
      start, end, used := Some(newStart), Some(newEnd), 0;
    }

    method EnforceKeyState(now: Time) returns (v: Verdict)
      modifies this
      ensures (State(), v) == Enforce(old(State()), now)
    {
      if status == Active && expiresAt.Some? && expiresAt.value <= now {
        status := Expired;
        return KeyExpired;
      }
      if status == Active && mode == Periodic && period.Some? && end.Some? && end.value <= now {
        RollForward(now);
      }
      v := Pass;
    }

    method EnforceKeyStateCached(snap: Snapshot, now: Time) returns (v: Verdict, current: Snapshot)
      modifies this
      ensures var c := EnforceCached(snap, Some(old(State())), now);
              c == CachedResult(Some(State()), v, current)
    {
      current := snap;
      var needsExpire := snap.status == Active && snap.expiresAt.Some? && snap.expiresAt.value <= now;
      var needsRoll := snap.status == Active && snap.mode == Periodic && snap.period.Some?
                       && snap.end.Some? && snap.end.value <= now;
      if !needsExpire && !needsRoll {
        return Pass, snap;
      }
      if needsExpire && status == Active && expiresAt.Some? && expiresAt.value <= now {
        status := Expired;
        return KeyExpired, snap;
      }
      if needsRoll && mode == Periodic && period.Some? && end.Some? && end.value <= now {
        RollForward(now);
      }
      v := Pass;
      current := Snapshot(status, expiresAt, mode, period, start, end, quota);
    }
  }
}
