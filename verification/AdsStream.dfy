/**
  One ADS stream: the reader classifies discovery requests while the push loop wakes, builds and
  sends. The two interleave at every await, so each stretch between awaits is one step.
*/
module AdsStream {
  import opened Prelude

  type TypeUrl = string
  type Resources = seq<string>
  type Snapshot = map<TypeUrl, Resources>

  const CLUSTER: TypeUrl := "type.googleapis.com/envoy.config.cluster.v3.Cluster"
  const LISTENER: TypeUrl := "type.googleapis.com/envoy.config.listener.v3.Listener"
  const ROUTE: TypeUrl := "type.googleapis.com/envoy.config.route.v3.RouteConfiguration"

  predicate Known(t: TypeUrl) { t == CLUSTER || t == LISTENER || t == ROUTE }

  datatype Request = Request(typeUrl: TypeUrl, nack: bool, nonce: string)

  /** Where the push loop stands: at its wait, awaiting the resources, or between two sends.
      `todo` are the types of this wake not looked at yet. */
  datatype Phase =
    | Waiting
    | Building(todo: set<TypeUrl>)
    | Pushing(todo: set<TypeUrl>, built: Snapshot)

  datatype Stream = Stream(
    subscribed: set<TypeUrl>,
    pending: set<TypeUrl>,
    sentVersion: map<TypeUrl, string>,
    sentNonce: map<TypeUrl, string>,
    event: bool,
    phase: Phase)

  function Content(b: Snapshot, t: TypeUrl): Resources {
    if t in b then b[t] else []
  }

  // ---- the steps of one stream ------------------------------------------------------------------

  function Opened(first: TypeUrl): Stream {
    var subscribed := if first != "" then {first} else {};
    Stream(subscribed, subscribed, map[], map[], true, Waiting)
  }

  function Received(s: Stream, r: Request): Stream {
    if r.typeUrl == "" then s
    else
      var t := r.typeUrl;
      var isNew := t !in s.subscribed;
      var s := s.(subscribed := s.subscribed + {t});
      if r.nack then s.(sentVersion := s.sentVersion - {t}, pending := s.pending + {t}, event := true)
      else if r.nonce != "" && t in s.sentNonce && r.nonce == s.sentNonce[t] then s
      else if isNew || r.nonce == "" then s.(pending := s.pending + {t}, event := true)
      else s
  }

  function Notified(s: Stream): Stream { s.(event := true) }

  function WakeSet(s: Stream): set<TypeUrl> {
    (if s.pending == {} then s.subscribed else s.pending) * s.subscribed
  }

  function Woken(s: Stream): Stream
    requires s.phase.Waiting? && s.event
  {
    var s := s.(event := false);
    if s.subscribed == {} then s
    else
      var todo := WakeSet(s);
      s.(pending := {}, phase := if todo == {} then Waiting else Building(todo))
  }

  function Built(s: Stream, b: Snapshot): Stream
    requires s.phase.Building?
  {
    s.(phase := Pushing(s.phase.todo, b))
  }

  predicate Sends(s: Stream, hash: Resources -> string, t: TypeUrl)
    requires s.phase.Pushing?
  {
    Known(t) && !(t in s.sentVersion && s.sentVersion[t] == hash(Content(s.phase.built, t)))
  }

  /** One round of the sending loop, for any type still to look at. */
  function Pushed(s: Stream, hash: Resources -> string, t: TypeUrl, nonce: string): Stream
    requires s.phase.Pushing? && t in s.phase.todo
  {
    var rest := s.(phase := Pushing(s.phase.todo - {t}, s.phase.built));
    if Sends(s, hash, t)
    then rest.(sentVersion := s.sentVersion[t := hash(Content(s.phase.built, t))],
               sentNonce := s.sentNonce[t := nonce])
    else rest
  }

  function Finished(s: Stream): Stream { s.(phase := Waiting) }

  // ---- runs, with what happened along them ------------------------------------------------------

  datatype Step =
    | Receive(request: Request)
    | Notify
    | Heartbeat
    | Wake
    | Build(resources: Snapshot)
    | Push(t: TypeUrl, nonce: string)
    | Finish

  /** A stream with its history: types sent, types rejected, snapshots built, what was subscribed,
      pending and already sent at the last wake, which types were rejected since, and which types
      were rejected and not sent again yet. */
  datatype Run = Run(
    stream: Stream,
    sent: seq<TypeUrl>,
    nacks: seq<TypeUrl>,
    builds: seq<Snapshot>,
    wokeSubscribed: set<TypeUrl>,
    wokePending: set<TypeUrl>,
    wokeVersion: map<TypeUrl, string>,
    nackedSince: set<TypeUrl>,
    rejected: set<TypeUrl>)

  predicate Enabled(r: Run, step: Step) {
    match step
    case Receive(_) => true
    case Notify => true
    case Heartbeat => r.stream.phase.Waiting?
    case Wake => r.stream.phase.Waiting? && r.stream.event
    case Build(_) => r.stream.phase.Building?
    case Push(t, _) => r.stream.phase.Pushing? && t in r.stream.phase.todo
    case Finish => r.stream.phase.Pushing? && r.stream.phase.todo == {}
  }

  function Next(r: Run, hash: Resources -> string, step: Step): Run
    requires Enabled(r, step)
  {
    var s := r.stream;
    match step
    case Receive(q) =>
      var r' := r.(stream := Received(s, q));
      if q.nack && q.typeUrl != ""
      then r'.(nacks := r.nacks + [q.typeUrl],
               nackedSince := r.nackedSince + {q.typeUrl},
               rejected := r.rejected + {q.typeUrl})
      else r'
    case Notify => r.(stream := Notified(s))
    case Heartbeat => r
    case Wake =>
      r.(stream := Woken(s), wokeSubscribed := s.subscribed, wokePending := s.pending,
         wokeVersion := s.sentVersion, nackedSince := {})
    case Build(b) => r.(stream := Built(s, b), builds := r.builds + [b])
    case Push(t, nonce) =>
      var r' := r.(stream := Pushed(s, hash, t, nonce));
      if Sends(s, hash, t) then r'.(sent := r.sent + [t], rejected := r.rejected - {t}) else r'
    case Finish => r.(stream := Finished(s))
  }

  predicate Legal(first: TypeUrl, hash: Resources -> string, steps: seq<Step>)
    decreases |steps|, 0
  {
    steps == [] ||
    (Legal(first, hash, steps[..|steps| - 1])
     && Enabled(After(first, hash, steps[..|steps| - 1]), steps[|steps| - 1]))
  }

  function After(first: TypeUrl, hash: Resources -> string, steps: seq<Step>): Run
    requires Legal(first, hash, steps)
    decreases |steps|, 1
  {
    if steps == [] then Run(Opened(first), [], [], [], {}, {}, map[], {}, {})
    else Next(After(first, hash, steps[..|steps| - 1]), hash, steps[|steps| - 1])
  }

  function Count(ts: seq<TypeUrl>, t: TypeUrl): nat {
    if ts == [] then 0 else Count(ts[..|ts| - 1], t) + if ts[|ts| - 1] == t then 1 else 0
  }

  /** How often the content of a type changed from one build to the next. */
  function Changes(bs: seq<Snapshot>, t: TypeUrl): nat {
    if |bs| <= 1 then 0
    else Changes(bs[..|bs| - 1], t) + if Content(bs[|bs| - 1], t) != Content(bs[|bs| - 2], t) then 1 else 0
  }

  // ---- no ACK loop ------------------------------------------------------------------------------

  /** One send of `t` is owed while the last version sent is not that of the last build. */
  function Owed(r: Run, hash: Resources -> string, t: TypeUrl): nat {
    if r.builds == [] then 0
    else if t in r.stream.sentVersion && r.stream.sentVersion[t] == hash(Content(r.builds[|r.builds| - 1], t)) then 0
    else 1
  }

  ghost predicate WithinBudget(r: Run, hash: Resources -> string, t: TypeUrl) {
    && (r.stream.phase.Pushing? ==> r.builds != [] && r.builds[|r.builds| - 1] == r.stream.phase.built)
    && Count(r.sent, t) + Owed(r, hash, t)
       <= (if r.builds == [] then 0 else 1) + Count(r.nacks, t) + Changes(r.builds, t)
  }

  lemma {:induction false} CountPush(ts: seq<TypeUrl>, u: TypeUrl, t: TypeUrl)
    ensures Count(ts + [u], t) == Count(ts, t) + if u == t then 1 else 0
  {
    assert (ts + [u])[..|ts|] == ts;
  }

  lemma {:induction false} ChangesPush(bs: seq<Snapshot>, b: Snapshot, t: TypeUrl)
    ensures Changes(bs + [b], t)
            == Changes(bs, t) + if bs != [] && Content(b, t) != Content(bs[|bs| - 1], t) then 1 else 0
  {
    assert (bs + [b])[..|bs|] == bs;
  }

  lemma {:induction false} ReceiveWithinBudget(r: Run, hash: Resources -> string, q: Request, t: TypeUrl)
    requires WithinBudget(r, hash, t)
    ensures WithinBudget(Next(r, hash, Receive(q)), hash, t)
  {
    hide Count, Changes, Content;
    var s' := Received(r.stream, q);
    CountPush(r.nacks, q.typeUrl, t);
    assert s'.phase == r.stream.phase;
    if !(q.nack && q.typeUrl == t) {
      assert t in r.stream.sentVersion ==> t in s'.sentVersion && s'.sentVersion[t] == r.stream.sentVersion[t];
    }
  }

  lemma {:induction false} PushWithinBudget(r: Run, hash: Resources -> string, u: TypeUrl, nonce: string, t: TypeUrl)
    requires Enabled(r, Push(u, nonce)) && WithinBudget(r, hash, t)
    ensures WithinBudget(Next(r, hash, Push(u, nonce)), hash, t)
  {
    hide Known, Count, Changes, Content;
    CountPush(r.sent, u, t);
  }

  lemma {:induction false} StepWithinBudget(r: Run, hash: Resources -> string, step: Step, t: TypeUrl)
    requires Enabled(r, step) && WithinBudget(r, hash, t)
    ensures WithinBudget(Next(r, hash, step), hash, t)
  {
    hide Count, Changes, Content, Known;
    match step
    case Receive(q) => ReceiveWithinBudget(r, hash, q, t);
    case Build(b) => ChangesPush(r.builds, b, t);
    case Push(u, nonce) => PushWithinBudget(r, hash, u, nonce, t);
    case _ =>
  }

  /** In every run a type is sent at most once, plus once for each rejection and each change of
      its content, whatever the hash. */
  lemma {:induction false} SendsAreBounded(first: TypeUrl, hash: Resources -> string, steps: seq<Step>, t: TypeUrl)
    requires Legal(first, hash, steps)
    ensures var r := After(first, hash, steps);
            && WithinBudget(r, hash, t)
            && Count(r.sent, t) <= 1 + Count(r.nacks, t) + Changes(r.builds, t)
  {
    if steps != [] {
      SendsAreBounded(first, hash, steps[..|steps| - 1], t);
      StepWithinBudget(After(first, hash, steps[..|steps| - 1]), hash, steps[|steps| - 1], t);
    }
  }

  lemma {:induction false} NoChange(bs: seq<Snapshot>, t: TypeUrl)
    requires forall j, k | 0 <= j < k < |bs| :: Content(bs[j], t) == Content(bs[k], t)
    ensures Changes(bs, t) == 0
  {
    if |bs| > 1 {
      var n := |bs| - 1;
      assert Content(bs[n - 1], t) == Content(bs[n], t);
      NoChange(bs[..n], t);
    }
  }

  /** With constant content and no rejection, no type is ever sent twice: ACKs cannot loop. */
  lemma {:induction false} NoAckLoop(first: TypeUrl, hash: Resources -> string, steps: seq<Step>, t: TypeUrl)
    requires Legal(first, hash, steps)
    ensures var r := After(first, hash, steps);
            Count(r.nacks, t) == 0
            && (forall j, k | 0 <= j < k < |r.builds| :: Content(r.builds[j], t) == Content(r.builds[k], t))
            ==> Count(r.sent, t) <= 1
  {
    var r := After(first, hash, steps);
    SendsAreBounded(first, hash, steps, t);
    if forall j, k | 0 <= j < k < |r.builds| :: Content(r.builds[j], t) == Content(r.builds[k], t) {
      NoChange(r.builds, t);
    }
  }

  // ---- no wake-up is lost -----------------------------------------------------------------------

  predicate UpToDate(s: Stream, hash: Resources -> string, t: TypeUrl)
    requires s.phase.Pushing?
  {
    t in s.sentVersion && s.sentVersion[t] == hash(Content(s.phase.built, t))
  }

  /** The types the last wake set out to send: the pending ones, or all if none was pending. */
  function Covered(r: Run): set<TypeUrl> {
    if r.wokePending == {} then r.wokeSubscribed else r.wokePending
  }

  ghost predicate Awake(r: Run, hash: Resources -> string) {
    var s := r.stream;
    && s.pending <= s.subscribed
    && (s.pending != {} ==> s.event)
    && (!s.phase.Waiting? ==>
          && r.wokePending <= r.wokeSubscribed
          && s.phase.todo <= Covered(r))
    && (s.phase.Building? ==> s.phase.todo == Covered(r))
    && (s.phase.Pushing? ==>
          forall t | t in Covered(r)
                     && t !in s.phase.todo && Known(t) ::
            UpToDate(s, hash, t) || (t in s.pending && t in r.nackedSince))
  }

  lemma {:induction false} ReceiveAwake(r: Run, hash: Resources -> string, q: Request)
    requires Awake(r, hash)
    ensures Awake(Next(r, hash, Receive(q)), hash)
  {
    hide Known, Content;
  }

  lemma {:induction false} PushAwake(r: Run, hash: Resources -> string, t: TypeUrl, nonce: string)
    requires Enabled(r, Push(t, nonce)) && Awake(r, hash)
    ensures Awake(Next(r, hash, Push(t, nonce)), hash)
  {
    hide Known, Content;
  }

  lemma {:induction false} StepAwake(r: Run, hash: Resources -> string, step: Step)
    requires Enabled(r, step) && Awake(r, hash)
    ensures Awake(Next(r, hash, step), hash)
  {
    hide Known, Content;
    match step
    case Receive(q) => ReceiveAwake(r, hash, q);
    case Push(t, nonce) => PushAwake(r, hash, t, nonce);
    case _ =>
  }

  /** At every point of every run, pending types are subscribed and have the event set, so the
      next wait returns at once. When the sends of a wake are done, each known type it set out
      to send carries the version just built or was rejected and is pending again; a wake with
      nothing pending sets out to send every subscribed type. */
  lemma {:induction false} NoWakeUpIsLost(first: TypeUrl, hash: Resources -> string, steps: seq<Step>)
    requires Legal(first, hash, steps)
    ensures var r := After(first, hash, steps);
            && Awake(r, hash)
            && (Enabled(r, Finish) ==>
                  forall t | t in Covered(r) && Known(t) ::
                    UpToDate(r.stream, hash, t) || (t in r.stream.pending && t in r.nackedSince))
  {
    if steps != [] {
      NoWakeUpIsLost(first, hash, steps[..|steps| - 1]);
      StepAwake(After(first, hash, steps[..|steps| - 1]), hash, steps[|steps| - 1]);
    }
  }

  /** A type that must still be sent: due at the next wake or in this one. */
  predicate Scheduled(s: Stream, t: TypeUrl) {
    t in s.pending || (!s.phase.Waiting? && t in s.phase.todo)
  }

  ghost predicate Served(r: Run) {
    var s := r.stream;
    && s.sentNonce.Keys <= s.subscribed
    && (!s.phase.Waiting? ==> s.phase.todo <= s.subscribed)
    && (forall t | t in r.rejected :: t in s.subscribed && t !in s.sentVersion)
    && (forall t | t in s.subscribed && Known(t) && t !in s.sentVersion :: Scheduled(s, t))
  }

  lemma {:induction false} ReceiveServed(r: Run, hash: Resources -> string, q: Request)
    requires Served(r)
    ensures Served(Next(r, hash, Receive(q)))
  {
    hide Known;
  }

  lemma {:induction false} PushServed(r: Run, hash: Resources -> string, t: TypeUrl, nonce: string)
    requires Enabled(r, Push(t, nonce)) && Served(r)
    ensures Served(Next(r, hash, Push(t, nonce)))
  {
    hide Content;
  }

  lemma {:induction false} StepServed(r: Run, hash: Resources -> string, step: Step)
    requires Enabled(r, step) && Awake(r, hash) && Served(r)
    ensures Served(Next(r, hash, step))
  {
    hide Known;
    match step
    case Receive(q) => ReceiveServed(r, hash, q);
    case Push(t, nonce) => PushServed(r, hash, t, nonce);
    case _ =>
  }

  /** In every run, every known subscribed type that has not been sent, or was rejected and not
      sent again, is scheduled; so a stream at rest has sent a version of each, unrejected. */
  lemma {:induction false} NothingIsForgotten(first: TypeUrl, hash: Resources -> string, steps: seq<Step>)
    requires Legal(first, hash, steps)
    ensures var r := After(first, hash, steps);
            && Served(r)
            && (r.stream.phase.Waiting? && !r.stream.event ==>
                  forall t | t in r.stream.subscribed && Known(t) :: t in r.stream.sentVersion && t !in r.rejected)
  {
    NoWakeUpIsLost(first, hash, steps);
    if steps != [] {
      NoWakeUpIsLost(first, hash, steps[..|steps| - 1]);
      NothingIsForgotten(first, hash, steps[..|steps| - 1]);
      StepServed(After(first, hash, steps[..|steps| - 1]), hash, steps[|steps| - 1]);
    }
  }

  // ---- what a wake brings up to date ------------------------------------------------------------

  function VersionOf(versions: map<TypeUrl, string>, t: TypeUrl): Option<string> {
    if t in versions then Some(versions[t]) else None
  }

  /** Between a wake and its end, a type neither rejected nor looked at yet shows what it showed
      at the wake. */
  ghost predicate Untouched(r: Run) {
    forall t | !r.stream.phase.Waiting? && t !in r.nackedSince
               && (r.stream.phase.Building? || t in r.stream.phase.todo || t !in Covered(r)) ::
      VersionOf(r.stream.sentVersion, t) == VersionOf(r.wokeVersion, t)
  }

  lemma {:induction false} ReceiveUntouched(r: Run, hash: Resources -> string, q: Request)
    requires Untouched(r)
    ensures Untouched(Next(r, hash, Receive(q)))
  {
    hide Known;
  }

  lemma {:induction false} PushUntouched(r: Run, hash: Resources -> string, t: TypeUrl, nonce: string)
    requires Enabled(r, Push(t, nonce)) && Awake(r, hash) && Untouched(r)
    ensures Untouched(Next(r, hash, Push(t, nonce)))
  {
    hide Known, Content;
  }

  lemma {:induction false} StepUntouched(r: Run, hash: Resources -> string, step: Step)
    requires Enabled(r, step) && Awake(r, hash) && Untouched(r)
    ensures Untouched(Next(r, hash, step))
  {
    hide Known, Content;
    match step
    case Receive(q) => ReceiveUntouched(r, hash, q);
    case Push(t, nonce) => PushUntouched(r, hash, t, nonce);
    case _ =>
  }

  lemma {:induction false} RunUntouched(first: TypeUrl, hash: Resources -> string, steps: seq<Step>)
    requires Legal(first, hash, steps)
    ensures Untouched(After(first, hash, steps))
  {
    if steps != [] {
      NoWakeUpIsLost(first, hash, steps[..|steps| - 1]);
      RunUntouched(first, hash, steps[..|steps| - 1]);
      StepUntouched(After(first, hash, steps[..|steps| - 1]), hash, steps[|steps| - 1]);
    }
  }

  /** In every run, when the sends of a wake are done, a known type not rejected meanwhile shows
      the version just built if and only if the wake covered it (it was pending, or subscribed
      and nothing was pending) or it showed that version at the wake already. */
  lemma {:induction false} UpToDateIff(first: TypeUrl, hash: Resources -> string, steps: seq<Step>, t: TypeUrl)
    requires Legal(first, hash, steps) && Enabled(After(first, hash, steps), Finish)
    requires Known(t) && t !in After(first, hash, steps).nackedSince
    ensures var r := After(first, hash, steps);
            UpToDate(r.stream, hash, t)
            <==> (t in r.wokePending || (r.wokePending == {} && t in r.wokeSubscribed)
                  || (t in r.wokeVersion && r.wokeVersion[t] == hash(Content(r.stream.phase.built, t))))
  {
    hide Known, Content;
    NoWakeUpIsLost(first, hash, steps);
    RunUntouched(first, hash, steps);
    var r := After(first, hash, steps);
    if t !in Covered(r) {
      assert VersionOf(r.stream.sentVersion, t) == VersionOf(r.wokeVersion, t);
    }
  }

  lemma {:induction false} Then(first: TypeUrl, hash: Resources -> string, steps: seq<Step>, step: Step)
    requires Legal(first, hash, steps) && Enabled(After(first, hash, steps), step)
    ensures Legal(first, hash, steps + [step])
    ensures After(first, hash, steps + [step]) == Next(After(first, hash, steps), hash, step)
  {
    assert (steps + [step])[..|steps|] == steps;
  }

  // ---- a notification at rest is served ---------------------------------------------------------

  /** A wake of a stream with subscriptions always takes up work: the pending types, or, if none is
      pending, all it is subscribed to. */
  lemma {:induction false} WakeTakesWork(r: Run, hash: Resources -> string)
    requires Enabled(r, Wake) && r.stream.pending <= r.stream.subscribed
    ensures var s, s' := r.stream, Next(r, hash, Wake).stream;
            && s'.phase == (if s.subscribed == {} then Waiting
                            else if s.pending == {} then Building(s.subscribed)
                            else Building(s.pending))
            && !s'.event && s'.pending == {} && s'.subscribed == s.subscribed && s'.sentVersion == s.sentVersion
  {
    var s := r.stream;
    assert s.subscribed * s.subscribed == s.subscribed && s.pending * s.subscribed == s.pending;
  }

  /** The sends of a wake can always be done one after the other. */
  lemma {:induction false} SendAll(first: TypeUrl, hash: Resources -> string, steps: seq<Step>, nonce: string)
    returns (more: seq<Step>)
    requires Legal(first, hash, steps) && After(first, hash, steps).stream.phase.Pushing?
    ensures steps <= more && Legal(first, hash, more)
    ensures var r, r' := After(first, hash, steps), After(first, hash, more);
            && r'.stream.phase == Pushing({}, r.stream.phase.built)
            && r'.stream.pending == r.stream.pending && r'.stream.event == r.stream.event
            && r'.stream.subscribed == r.stream.subscribed && r'.nackedSince == r.nackedSince
            && r'.wokePending == r.wokePending && r'.wokeSubscribed == r.wokeSubscribed
    decreases After(first, hash, steps).stream.phase.todo
  {
    hide Legal, After;
    var r := After(first, hash, steps);
    if r.stream.phase.todo == {} {
      more := steps;
    } else {
      var t :| t in r.stream.phase.todo;
      Then(first, hash, steps, Push(t, nonce));
      more := SendAll(first, hash, steps + [Push(t, nonce)], nonce);
    }
  }

  /** From every run that left the stream at rest, a notification leads on to a build and back to
      rest, with every subscribed cluster, listener and route type at the version built. */
  lemma {:induction false} NotifyDelivers(
      first: TypeUrl, hash: Resources -> string, steps: seq<Step>, b: Snapshot, nonce: string)
    returns (more: seq<Step>)
    requires Legal(first, hash, steps)
    requires var s := After(first, hash, steps).stream; s.phase.Waiting? && s.pending == {} && s.subscribed != {}
    ensures steps + [Notify, Wake, Build(b)] <= more && Legal(first, hash, more)
    ensures var s, s' := After(first, hash, steps).stream, After(first, hash, more).stream;
            && s'.phase.Waiting? && !s'.event && s'.pending == {} && s'.subscribed == s.subscribed
            && forall t | t in s.subscribed && (t == CLUSTER || t == LISTENER || t == ROUTE) ::
                 t in s'.sentVersion && s'.sentVersion[t] == hash(if t in b then b[t] else [])
  {
    hide Legal, After;
    Then(first, hash, steps, Notify);
    var notified := steps + [Notify];
    WakeTakesWork(After(first, hash, notified), hash);
    Then(first, hash, notified, Wake);
    var woken := notified + [Wake];
    Then(first, hash, woken, Build(b));
    var built := woken + [Build(b)];
    assert built == steps + [Notify, Wake, Build(b)];
    var sent := SendAll(first, hash, built, nonce);
    NoWakeUpIsLost(first, hash, sent);
    Then(first, hash, sent, Finish);
    more := sent + [Finish];
  }

  lemma {:induction false} NoWakeBetween(first: TypeUrl, hash: Resources -> string, steps: seq<Step>, mid: seq<Step>)
    requires Legal(first, hash, steps) && Legal(first, hash, steps + mid) && Wake !in mid
    ensures var r, r' := After(first, hash, steps), After(first, hash, steps + mid);
            r'.wokePending == r.wokePending && r'.wokeSubscribed == r.wokeSubscribed
  {
    if mid == [] {
      assert steps + mid == steps;
    } else {
      var n := |mid| - 1;
      assert (steps + mid)[..|steps| + n] == steps + mid[..n];
      assert mid[n] in mid;
      NoWakeBetween(first, hash, steps, mid[..n]);
      hide Known, Content, Received, Pushed, Built;
    }
  }

  /** Whatever the reader does meanwhile: a wake that finds nothing pending leaves, when its sends are
      done, every cluster, listener and route type subscribed at the wake and not rejected since at
      the version just built. */
  lemma {:induction false} QuietWakeServesAll(
      first: TypeUrl, hash: Resources -> string, steps: seq<Step>, mid: seq<Step>, t: TypeUrl)
    requires Legal(first, hash, steps) && Enabled(After(first, hash, steps), Wake)
    requires var s := After(first, hash, steps).stream; s.pending == {} && t in s.subscribed
    requires Legal(first, hash, steps + [Wake] + mid) && Wake !in mid
    requires Enabled(After(first, hash, steps + [Wake] + mid), Finish)
    requires (t == CLUSTER || t == LISTENER || t == ROUTE) && t !in After(first, hash, steps + [Wake] + mid).nackedSince
    ensures UpToDate(After(first, hash, steps + [Wake] + mid).stream, hash, t)
  {
    hide Content;
    Then(first, hash, steps, Wake);
    NoWakeBetween(first, hash, steps + [Wake], mid);
    UpToDateIff(first, hash, steps + [Wake] + mid, t);
  }

  // ---- what is asked for, what is sent ----------------------------------------------------------

  /** What a request changes, type by type: a type asked for is subscribed from then on; it becomes
      pending if it is rejected, or if it is no acknowledgement of the last response and either new or
      without a nonce; a rejection alone forgets the version sent; the event is set with the pending
      set and never cleared. */
  lemma {:induction false} RequestChanges(s: Stream, q: Request, t: TypeUrl)
    ensures var s' := Received(s, q);
            var asked := t == q.typeUrl && t != "";
            var acked := q.nonce != "" && t in s.sentNonce && s.sentNonce[t] == q.nonce;
            var wanted := q.nack || (!acked && (t !in s.subscribed || q.nonce == ""));
            && (t in s'.subscribed <==> t in s.subscribed || asked)
            && (t in s'.pending <==> t in s.pending || (asked && wanted))
            && VersionOf(s'.sentVersion, t) == (if asked && q.nack then None else VersionOf(s.sentVersion, t))
            && (s.event ==> s'.event) && (asked && wanted ==> s'.event)
            && (s'.event && !s.event ==> s'.pending != {})
            && s'.sentNonce == s.sentNonce && s'.phase == s.phase
  {
  }

  /** The acknowledgement of a response just sent changes nothing. */
  lemma {:induction false} AckIsQuiet(s: Stream, hash: Resources -> string, t: TypeUrl, nonce: string)
    requires s.phase.Pushing? && t in s.phase.todo && Sends(s, hash, t)
    requires t in s.subscribed && t != "" && nonce != ""
    ensures Received(Pushed(s, hash, t, nonce), Request(t, false, nonce)) == Pushed(s, hash, t, nonce)
  {
    var s' := Pushed(s, hash, t, nonce);
    assert s'.subscribed + {t} == s'.subscribed;
  }

  /** In every run only cluster, listener and route types are ever sent. */
  lemma {:induction false} OnlyKnownTypesSent(first: TypeUrl, hash: Resources -> string, steps: seq<Step>, t: TypeUrl)
    requires Legal(first, hash, steps) && t != CLUSTER && t != LISTENER && t != ROUTE
    ensures t !in After(first, hash, steps).sent && t !in After(first, hash, steps).stream.sentVersion
  {
    if steps != [] {
      hide Content;
      OnlyKnownTypesSent(first, hash, steps[..|steps| - 1], t);
    }
  }

  // ---- a notification that is used up -----------------------------------------------------------

  /** A stream that has sent its clusters and waits. */
  lemma {:induction false} ServingClusters(hash: Resources -> string, b: Snapshot, nonce: string)
    returns (steps: seq<Step>)
    ensures Legal(CLUSTER, hash, steps)
    ensures var s := After(CLUSTER, hash, steps).stream;
            && s.phase.Waiting? && !s.event && s.pending == {} && s.subscribed == {CLUSTER}
            && s.sentVersion == map[CLUSTER := hash(Content(b, CLUSTER))] && s.sentNonce.Keys == {CLUSTER}
  {
    steps := [];
    Then(CLUSTER, hash, steps, Wake);
    steps := steps + [Wake];
    assert After(CLUSTER, hash, steps).stream.phase == Building({CLUSTER});
    Then(CLUSTER, hash, steps, Build(b));
    steps := steps + [Build(b)];
    Then(CLUSTER, hash, steps, Push(CLUSTER, nonce));
    steps := steps + [Push(CLUSTER, nonce)];
    assert After(CLUSTER, hash, steps).stream.phase.todo == {};
    Then(CLUSTER, hash, steps, Finish);
    steps := steps + [Finish];
  }

  lemma {:induction false} ListenerOnly(s: Stream)
    requires s.phase.Waiting? && s.pending == {} && s.subscribed == {CLUSTER} && s.sentNonce.Keys == {CLUSTER}
    ensures var woken := Woken(Notified(Received(s, Request(LISTENER, false, ""))));
            woken == s.(subscribed := {CLUSTER, LISTENER}, event := false, phase := Building({LISTENER}))
  {
    assert |CLUSTER| != |LISTENER|;
    assert WakeSet(Notified(Received(s, Request(LISTENER, false, "")))) == {LISTENER};
  }

  /** A listener request and a notification make one wake, for the listeners. */
  lemma {:induction false} AskedAndNotified(hash: Resources -> string, b: Snapshot, nonce: string)
    returns (steps: seq<Step>)
    ensures Legal(CLUSTER, hash, steps) && Notify in steps
    ensures var s := After(CLUSTER, hash, steps).stream;
            && s.phase == Building({LISTENER}) && !s.event && s.pending == {}
            && s.sentVersion == map[CLUSTER := hash(Content(b, CLUSTER))]
  {
    hide Content, Legal, After;
    steps := ServingClusters(hash, b, nonce);
    ListenerOnly(After(CLUSTER, hash, steps).stream);
    var ask := Receive(Request(LISTENER, false, ""));
    Then(CLUSTER, hash, steps, ask);
    steps := steps + [ask];
    Then(CLUSTER, hash, steps, Notify);
    steps := steps + [Notify];
    assert steps[|steps| - 1] == Notify;
    Then(CLUSTER, hash, steps, Wake);
    steps := steps + [Wake];
    assert steps[|steps| - 2] == Notify;
  }

  /** So a notification that meets a pending type is used up on that type alone: whenever the
      cluster content changes, there is a run in which the change is notified and built, and the
      stream comes to rest still showing the old clusters. */
  lemma {:induction false} NotifyCanBeAbsorbed(hash: Resources -> string, b: Snapshot, b': Snapshot, nonce: string)
    returns (steps: seq<Step>)
    requires hash(Content(b, CLUSTER)) != hash(Content(b', CLUSTER))
    ensures Legal(CLUSTER, hash, steps) && Notify in steps && Build(b') in steps
    ensures var r := After(CLUSTER, hash, steps);
            && r.stream.phase.Waiting? && !r.stream.event && r.stream.pending == {}
            && r.builds != [] && r.builds[|r.builds| - 1] == b'
            && CLUSTER in r.stream.sentVersion
            && r.stream.sentVersion[CLUSTER] != hash(Content(b', CLUSTER))
  {
    hide Content, Legal, After;
    var before := AskedAndNotified(hash, b, nonce);
    Then(CLUSTER, hash, before, Build(b'));
    steps := before + [Build(b')];
    Then(CLUSTER, hash, steps, Push(LISTENER, nonce));
    steps := steps + [Push(LISTENER, nonce)];
    assert |CLUSTER| != |LISTENER|;
    assert After(CLUSTER, hash, steps).stream.phase.todo == {};
    Then(CLUSTER, hash, steps, Finish);
    steps := steps + [Finish];
    assert steps[|before|] == Build(b');
  }

  // ---- the stream as the code updates it --------------------------------------------------------

  class AdsService {
    var subscribed: set<TypeUrl>
    var pending: set<TypeUrl>
    var sentVersion: map<TypeUrl, string>
    var sentNonce: map<TypeUrl, string>
    var event: bool
    ghost var phase: Phase

    ghost function State(): Stream
      reads this
    {
      Stream(subscribed, pending, sentVersion, sentNonce, event, phase)
    }

    constructor (first: TypeUrl)
      ensures State() == Opened(first)
    {
      subscribed := if first != "" then {first} else {};
      pending := if first != "" then {first} else {};
      sentVersion, sentNonce := map[], map[];
      event := true;
      phase := Waiting;
    }

    method ProcessRequest(r: Request)
      modifies this
      ensures State() == Received(old(State()), r)
    {
      var t := r.typeUrl;
      if t == "" {
        return;
      }
      var isNew := t !in subscribed;
      subscribed := subscribed + {t};
      if r.nack {
        sentVersion := sentVersion - {t};
        pending := pending + {t};
        event := true;
        return;
      }
      var last := if t in sentNonce then sentNonce[t] else "";
      if r.nonce != "" && r.nonce == last {
        return;
      }
      if isNew || r.nonce == "" {
        pending := pending + {t};
        event := true;
      }
    }

    method LocalNotify()
      modifies this
      ensures State() == Notified(old(State()))
    {
      event := true;
    }

    /** From the end of the wait to the build; the result is empty when the loop waits again. */
    method TakeWork() returns (todo: set<TypeUrl>)
      requires phase.Waiting? && event
      modifies this
      ensures State() == Woken(old(State()))
      ensures todo == if phase.Building? then phase.todo else {}
    {
      event := false;
      if subscribed == {} {
        return {};
      }
      if pending == {} {
        pending := subscribed;
      }
      todo := pending * subscribed;
      pending := {};
      phase := if todo == {} then Waiting else Building(todo);
    }

    ghost method ResourcesBuilt(b: Snapshot)
      requires phase.Building?
      modifies this
      ensures State() == Built(old(State()), b)
    {
      phase := Pushing(phase.todo, b);
    }

    /** One round of the sending loop. Answers whether a response goes out. */
    method PushType(t: TypeUrl, b: Snapshot, hash: Resources -> string, nonce: string) returns (sent: bool)
      requires phase.Pushing? && t in phase.todo && b == phase.built
      modifies this
      ensures State() == Pushed(old(State()), hash, t, nonce)
      ensures sent == Sends(old(State()), hash, t)
    {
      phase := Pushing(phase.todo - {t}, phase.built);
      if !Known(t) {
        return false;
      }
      var version := hash(if t in b then b[t] else []);
      if t in sentVersion && sentVersion[t] == version {
        return false;
      }
      sentVersion := sentVersion[t := version];
      sentNonce := sentNonce[t := nonce];
      sent := true;
    }
  }
}
