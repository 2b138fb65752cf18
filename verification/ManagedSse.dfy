/** The reconnect protocol of `frontend/lib/managed-sse.ts`.

    `Stream` holds the five closure variables of `startManagedEventStream` together with the part of
    the browser that can call back into it: armed timers, unsettled probes, and EventSources that have
    not been closed.  Every callback body runs to completion, so each one is one `Step`.  `ManagedStream`
    is the closure itself; its methods are proved against the step functions.

    The user callbacks may call the returned stop function while they run.  `stopInside` says that they do. */
module ManagedSse {
  import opened Numbers
  import opened Optional

  const BASE_RECONNECT_DELAY_MS: nat := 1000
  const MAX_RECONNECT_DELAY_MS: nat := 30000
  const AUTH_RETRY_PAUSE_MS: nat := 60000

  /** What `Math.random` may return. */
  type Random = r: real | 0.0 <= r < 1.0 witness 0.0

  // ---------------------------------------------------------------- delays

  function BaseDelay(attempt: int): nat {
    Min(BASE_RECONNECT_DELAY_MS * Pow2(Max(0, attempt)), MAX_RECONNECT_DELAY_MS)
  }

  /** `Math.round`. */
  function Round(x: real): int { (x + 0.5).Floor }

  function JitterFactor(random: Random): real { 0.8 + random * 0.4 }

  function Scaled(base: real, factor: real): real { base * factor }

  function ReconnectDelay(attempt: int, random: Random): int {
    Round(Scaled(BaseDelay(attempt) as real, JitterFactor(random)))
  }

  /** Whatever is drawn, a delay stays within 20% of its base, and every delay lies in [800, 36000]. */
  lemma DelayWindow(attempt: int, random: Random)
    ensures 4 * BaseDelay(attempt) <= 5 * ReconnectDelay(attempt, random) <= 6 * BaseDelay(attempt)
    ensures 800 <= ReconnectDelay(attempt, random) <= 36000
  {
    hide BaseDelay, Round, Scaled, Min, Pow2;
    var k := Min(Pow2(Max(0, attempt)), 30);
    BaseIsThousands(attempt);
    ScaledWithin(k, JitterFactor(random));
    RoundBetween(Scaled((1000 * k) as real, JitterFactor(random)), 800 * k, 1200 * k);
  }

  lemma BaseIsThousands(attempt: int)
    ensures var k := Min(Pow2(Max(0, attempt)), 30); 1 <= k <= 30 && BaseDelay(attempt) == 1000 * k
  {
  }

  lemma ScaledWithin(k: nat, factor: real)
    requires 0.8 <= factor <= 1.2
    ensures (800 * k) as real <= Scaled((1000 * k) as real, factor) <= (1200 * k) as real
  {
    var base := (1000 * k) as real;
    assert base * 0.8 == (800 * k) as real && base * 1.2 == (1200 * k) as real;
    ScaledMonotone(base, 0.8, factor);
    ScaledMonotone(base, factor, 1.2);
  }

  lemma ScaledMonotone(base: real, low: real, high: real)
    requires 0.0 <= base && low <= high
    ensures Scaled(base, low) <= Scaled(base, high)
  {
  }

  lemma RoundBetween(x: real, low: int, high: int)
    requires low as real <= x <= high as real
    ensures low <= Round(x) <= high
  {
  }

  /** A delay is the nearest integer, halves up, to its base times a factor that grows from 0.8 to 1.2 with the draw. */
  lemma DelayIsNearest(attempt: int, random: Random)
    ensures var base := Min(1000 * Pow2(Max(0, attempt)), 30000);
            var exact := base as real * (8.0 + 4.0 * random) / 10.0;
            var delay := ReconnectDelay(attempt, random) as real;
            delay - 0.5 <= exact < delay + 0.5
  {
    hide Min, Pow2;
    var base := BaseDelay(attempt) as real;
    assert Scaled(base, JitterFactor(random)) == base * (8.0 + 4.0 * random) / 10.0;
  }

  /** The sum of the bases of `n` consecutive backoffs that start from attempt 0. */
  function TotalBaseDelay(n: nat): nat {
    if n == 0 then 0 else TotalBaseDelay(n - 1) + BaseDelay(n - 1)
  }

  lemma {:induction false} TotalBaseDelayClosedForm(n: nat)
    ensures TotalBaseDelay(n) == if n <= 5 then 1000 * (Pow2(n) - 1) else 31000 + 30000 * (n - 5)
  {
    assert Pow2(5) == 32 by { assert Pow2(4) == 16 by { assert Pow2(2) == 4; } }
    if n > 0 {
      TotalBaseDelayClosedForm(n - 1);
      if n >= 6 {
        Pow2Monotone(5, n - 1);
      } else {
        Pow2Monotone(n - 1, 4);
        assert Pow2(4) == 16 by { assert Pow2(2) == 4; }
      }
    }
  }

  // ---------------------------------------------------------------- state

  /** What the protocol does to the outside, in order: user callbacks, EventSources constructed,
      and delays drawn by `getReconnectDelayMs`. */
  datatype Entry =
    | Constructed(source: nat)
    | AuthPaused(until: int)
    | AuthCleared
    | Disconnected
    | Opened
    | Message(data: string)
    | Backoff(attempt: nat, delay: int)

  datatype Stream = Stream(
    // the closure
    authPauseMs: int,
    disposed: bool,
    reconnectTimeout: Option<nat>,
    eventSource: Option<nat>,
    reconnectAttempt: nat,
    connectSequence: nat,
    // the browser
    armed: map<nat, int>,
    inFlight: set<nat>,
    open: set<nat>,
    timers: nat,
    sources: nat,
    log: seq<Entry>)

  datatype ProbeOutcome = Rejected | Status(code: nat)

  predicate IsAuthStatus(code: nat) { code == 401 || code == 403 }

  predicate IsOk(code: nat) { 200 <= code <= 299 }

  // ---------------------------------------------------------------- the closure's helpers

  function ClearTimer(s: Stream): Stream {
    match s.reconnectTimeout
    case None => s
    case Some(id) => s.(armed := s.armed - {id}, reconnectTimeout := None)
  }

  function CloseSource(s: Stream): Stream {
    match s.eventSource
    case None => s
    case Some(es) => s.(open := s.open - {es}, eventSource := None, log := s.log + [Disconnected])
  }

  function Schedule(s: Stream, delay: int): Stream {
    if s.disposed then s
    else
      var t := ClearTimer(s);
      t.(armed := t.armed[t.timers := delay], reconnectTimeout := Some(t.timers), timers := t.timers + 1)
  }

  function ScheduleBackoff(s: Stream, random: Random): Stream {
    var delay := ReconnectDelay(s.reconnectAttempt, random);
    Schedule(s.(log := s.log + [Backoff(s.reconnectAttempt, delay)],
                reconnectAttempt := s.reconnectAttempt + 1), delay)
  }

  function Connect(s: Stream): Stream {
    if s.disposed then s
    else
      var t := CloseSource(ClearTimer(s.(connectSequence := s.connectSequence + 1)));
      t.(inFlight := t.inFlight + {t.connectSequence})
  }

  function StopStream(s: Stream): Stream {
    var t := CloseSource(ClearTimer(s.(disposed := true)));
    t.(log := t.log + [AuthCleared])
  }

  function StopIf(stopInside: bool, s: Stream): Stream { if stopInside then StopStream(s) else s }

  // ---------------------------------------------------------------- callbacks

  function Start(authPauseMs: int): Stream {
    Connect(Stream(authPauseMs, false, None, None, 0, 0, map[], {}, {}, 0, 0, []))
  }

  /** The rest of `connect` once the probe of sequence number `n` settles. */
  function ProbeSettles(s: Stream, n: nat, outcome: ProbeOutcome, now: int, random: Random, stopInside: bool): Stream {
    var t := s.(inFlight := s.inFlight - {n});
    if t.disposed || n != t.connectSequence then t
    else if outcome.Status? && IsAuthStatus(outcome.code) then PauseForAuth(t, now, stopInside)
    else if outcome.Rejected? || !IsOk(outcome.code) then ScheduleBackoff(t, random)
    else Accept(t, stopInside)
  }

  function PauseForAuth(s: Stream, now: int, stopInside: bool): Stream {
    Schedule(StopIf(stopInside, s.(log := s.log + [AuthPaused(now + s.authPauseMs)])), s.authPauseMs)
  }

  function Accept(s: Stream, stopInside: bool): Stream {
    var t := StopIf(stopInside, s.(log := s.log + [AuthCleared]));
    t.(reconnectAttempt := 0, eventSource := Some(t.sources), open := t.open + {t.sources},
       sources := t.sources + 1, log := t.log + [Constructed(t.sources)])
  }

  function TimerFires(s: Stream, id: nat): Stream { Connect(s.(armed := s.armed - {id})) }

  function SourceOpens(s: Stream): Stream { s.(reconnectAttempt := 0, log := s.log + [Opened]) }

  function SourceFails(s: Stream, es: nat, random: Random, stopInside: bool): Stream {
    if s.eventSource != Some(es) then s
    else ScheduleBackoff(StopIf(stopInside, CloseSource(s)), random)
  }

  datatype Event =
    | Probe(n: nat, outcome: ProbeOutcome, now: int, random: Random, stopInside: bool)
    | Timer(id: nat)
    | Open(es: nat)
    | Receive(es: nat, data: string)
    | Fail(es: nat, random: Random, stopInside: bool)
    | Stop

  /** When the browser can deliver an event: a probe settles once, a cancelled timer never fires, a
      closed EventSource neither opens nor receives.  A closed one may still report an error. */
  predicate Enabled(s: Stream, e: Event) {
    match e
    case Probe(n, _, _, _, _) => n in s.inFlight
    case Timer(id) => id in s.armed
    case Open(es) => es in s.open
    case Receive(es, _) => es in s.open
    case Fail(es, _, _) => es < s.sources
    case Stop => true
  }

  function Step(s: Stream, e: Event): Stream {
    if !Enabled(s, e) then s
    else match e
      case Probe(n, outcome, now, random, stopInside) => ProbeSettles(s, n, outcome, now, random, stopInside)
      case Timer(id) => TimerFires(s, id)
      case Open(_) => SourceOpens(s)
      case Receive(_, data) => s.(log := s.log + [Message(data)])
      case Fail(es, random, stopInside) => SourceFails(s, es, random, stopInside)
      case Stop => StopStream(s)
  }

  /** The state after any interleaving of callbacks. */
  function Run(authPauseMs: int, events: seq<Event>): Stream {
    if events == [] then Start(authPauseMs)
    else Step(Run(authPauseMs, events[..|events| - 1]), events[|events| - 1])
  }

  // ---------------------------------------------------------------- invariant

  ghost predicate Waiting(s: Stream) {
    && s.reconnectTimeout.Some?
    && s.armed.Keys == {s.reconnectTimeout.value}
    && s.inFlight == {} && s.open == {} && s.eventSource.None?
  }

  ghost predicate Probing(s: Stream) {
    s.inFlight == {s.connectSequence}
    && s.reconnectTimeout.None? && s.armed == map[] && s.open == {} && s.eventSource.None?
  }

  ghost predicate Live(s: Stream) {
    && s.eventSource.Some?
    && s.open == {s.eventSource.value}
    && s.reconnectTimeout.None? && s.armed == map[] && s.inFlight == {}
    && s.reconnectAttempt == 0
  }

  /** A stopped stream holds no timer and at most the last probe.  `Leaked` is the one way in which it
      can still hold an EventSource. */
  ghost predicate Stopped(s: Stream) {
    && s.reconnectTimeout.None? && s.armed == map[]
    && s.inFlight <= {s.connectSequence}
    && s.eventSource.None? && s.open == {}
  }

  ghost predicate Leaked(s: Stream) {
    && s.reconnectTimeout.None? && s.armed == map[] && s.inFlight == {}
    && s.eventSource.Some? && s.open == {s.eventSource.value}
    && s.reconnectAttempt == 0
  }

  ghost predicate Shape(s: Stream) {
    && (forall id :: id in s.armed ==> id < s.timers)
    && (forall es :: es in s.open ==> es < s.sources)
    && if s.disposed then Stopped(s) || Leaked(s) else Waiting(s) || Probing(s) || Live(s)
  }

  function Count(log: seq<Entry>, p: Entry -> bool): nat {
    if log == [] then 0
    else Count(log[..|log| - 1], p) + if p(log[|log| - 1]) then 1 else 0
  }

  function Constructions(log: seq<Entry>): nat { Count(log, (x: Entry) => x.Constructed?) }

  function Disconnections(log: seq<Entry>): nat { Count(log, (x: Entry) => x.Disconnected?) }

  /** Backoffs drawn since a probe was last accepted or an EventSource last opened. */
  function BackoffsSinceSuccess(log: seq<Entry>): nat {
    if log == [] then 0
    else match log[|log| - 1]
      case Constructed(_) => 0
      case Opened => 0
      case Backoff(_, _) => BackoffsSinceSuccess(log[..|log| - 1]) + 1
      case _ => BackoffsSinceSuccess(log[..|log| - 1])
  }

  /** Entry `i`, if it is a backoff, is numbered by the backoffs before it and jitters that number's base. */
  ghost predicate BackoffIsNumbered(log: seq<Entry>, i: nat)
    requires i < |log|
  {
    log[i].Backoff? ==>
      && log[i].attempt == BackoffsSinceSuccess(log[..i])
      && exists random: Random :: log[i].delay == ReconnectDelay(log[i].attempt, random)
  }

  ghost predicate Books(s: Stream) {
    && s.reconnectAttempt == BackoffsSinceSuccess(s.log)
    && s.sources == Constructions(s.log)
    && s.sources == Disconnections(s.log) + |s.open|
    && forall i: nat :: i < |s.log| ==> BackoffIsNumbered(s.log, i)
  }

  ghost predicate Inv(s: Stream) { Shape(s) && Books(s) }

  // ---------------------------------------------------------------- the invariant is inductive

  lemma ShapeStep(s: Stream, e: Event)
    requires Shape(s)
    ensures Shape(Step(s, e))
  {
    if Enabled(s, e) {
      match e
      case Probe(n, outcome, now, random, stopInside) => assert n == s.connectSequence;
      case Timer(id) => assert s.armed.Keys == {id};
        assert s.armed - {id} == map[];
      case Open(_) =>
      case Receive(_, _) =>
      case Fail(_, _, _) =>
      case Stop => if s.reconnectTimeout.Some? { assert s.armed - {s.reconnectTimeout.value} == map[]; }
    }
  }

  lemma Appended(log: seq<Entry>, x: Entry)
    requires forall i: nat :: i < |log| ==> BackoffIsNumbered(log, i)
    requires x.Backoff? ==> x.attempt == BackoffsSinceSuccess(log) &&
                            exists random: Random :: x.delay == ReconnectDelay(x.attempt, random)
    ensures forall i: nat :: i < |log + [x]| ==> BackoffIsNumbered(log + [x], i)
    ensures Constructions(log + [x]) == Constructions(log) + if x.Constructed? then 1 else 0
    ensures Disconnections(log + [x]) == Disconnections(log) + if x.Disconnected? then 1 else 0
    ensures BackoffsSinceSuccess(log + [x]) ==
            if x.Constructed? || x.Opened? then 0
            else BackoffsSinceSuccess(log) + if x.Backoff? then 1 else 0
  {
    var longer := log + [x];
    assert longer[..|longer| - 1] == log;
    forall i: nat | i < |longer| ensures BackoffIsNumbered(longer, i) {
      if i < |log| {
        assert BackoffIsNumbered(log, i);
        assert longer[..i] == log[..i];
      } else {
        assert longer[..i] == log;
      }
    }
  }

  lemma CloseSourceBooks(s: Stream)
    requires Books(s) && (s.eventSource.Some? ==> s.open == {s.eventSource.value})
    ensures Books(CloseSource(s))
  {
    hide Constructions, Disconnections, BackoffsSinceSuccess, BackoffIsNumbered;
    Appended(s.log, Disconnected);
  }

  lemma StopBooks(s: Stream)
    requires Books(s) && (s.eventSource.Some? ==> s.open == {s.eventSource.value})
    ensures Books(StopStream(s))
  {
    hide Constructions, Disconnections, BackoffsSinceSuccess, BackoffIsNumbered, CloseSource;
    var t := ClearTimer(s.(disposed := true));
    assert Books(t);
    CloseSourceBooks(t);
    Appended(CloseSource(t).log, AuthCleared);
  }

  lemma StopIfBooks(stopInside: bool, s: Stream)
    requires Books(s) && (s.eventSource.Some? ==> s.open == {s.eventSource.value})
    ensures Books(StopIf(stopInside, s))
  {
    hide Books, StopStream;
    StopBooks(s);
  }

  lemma ScheduleBackoffBooks(s: Stream, random: Random)
    requires Books(s)
    ensures Books(ScheduleBackoff(s, random))
  {
    hide Constructions, Disconnections, BackoffsSinceSuccess, BackoffIsNumbered;
    Appended(s.log, Backoff(s.reconnectAttempt, ReconnectDelay(s.reconnectAttempt, random)));
  }

  lemma ProbeBooks(s: Stream, n: nat, outcome: ProbeOutcome, now: int, random: Random, stopInside: bool)
    requires Inv(s) && n in s.inFlight
    ensures Books(ProbeSettles(s, n, outcome, now, random, stopInside))
  {
    hide Constructions, Disconnections, BackoffsSinceSuccess, BackoffIsNumbered, ScheduleBackoff, PauseForAuth, Accept;
    var t := s.(inFlight := s.inFlight - {n});
    if !t.disposed {
      if outcome.Status? && IsAuthStatus(outcome.code) {
        PauseForAuthBooks(t, now, stopInside);
      } else if outcome.Rejected? || !IsOk(outcome.code) {
        ScheduleBackoffBooks(t, random);
      } else {
        AcceptBooks(t, stopInside);
      }
    }
  }

  lemma PauseForAuthBooks(s: Stream, now: int, stopInside: bool)
    requires Books(s) && s.eventSource.None?
    ensures Books(PauseForAuth(s, now, stopInside))
  {
    hide Constructions, Disconnections, BackoffsSinceSuccess, BackoffIsNumbered, StopIf;
    Appended(s.log, AuthPaused(now + s.authPauseMs));
    StopIfBooks(stopInside, s.(log := s.log + [AuthPaused(now + s.authPauseMs)]));
  }

  lemma AcceptBooks(s: Stream, stopInside: bool)
    requires Books(s) && s.eventSource.None? && s.open == {}
    ensures Books(Accept(s, stopInside))
  {
    hide Constructions, Disconnections, BackoffsSinceSuccess, BackoffIsNumbered;
    Appended(s.log, AuthCleared);
    var t := s.(log := s.log + [AuthCleared]);
    StopIfBooks(stopInside, t);
    var u := StopIf(stopInside, t);
    assert u.open + {u.sources} == {u.sources};
    Appended(u.log, Constructed(u.sources));
  }

  lemma ConnectBooks(s: Stream)
    requires Books(s) && (s.eventSource.Some? ==> s.open == {s.eventSource.value})
    ensures Books(Connect(s))
  {
    hide Constructions, Disconnections, BackoffsSinceSuccess, BackoffIsNumbered, CloseSource;
    var t := ClearTimer(s.(connectSequence := s.connectSequence + 1));
    assert Books(t);
    CloseSourceBooks(t);
  }

  lemma FailBooks(s: Stream, es: nat, random: Random, stopInside: bool)
    requires Books(s) && (s.eventSource.Some? ==> s.open == {s.eventSource.value})
    ensures Books(SourceFails(s, es, random, stopInside))
  {
    hide Books, ScheduleBackoff, StopIf;
    if s.eventSource == Some(es) {
      CloseSourceBooks(s);
      StopIfBooks(stopInside, CloseSource(s));
      ScheduleBackoffBooks(StopIf(stopInside, CloseSource(s)), random);
    }
  }

  lemma BooksStep(s: Stream, e: Event)
    requires Inv(s)
    ensures Books(Step(s, e))
  {
    hide Constructions, Disconnections, BackoffsSinceSuccess, BackoffIsNumbered, ProbeSettles, SourceFails, Connect,
         StopStream;
    if Enabled(s, e) {
      match e
      case Probe(n, outcome, now, random, stopInside) => ProbeBooks(s, n, outcome, now, random, stopInside);
      case Timer(id) => ConnectBooks(s.(armed := s.armed - {id}));
      case Open(_) => Appended(s.log, Opened);
      case Receive(_, data) => Appended(s.log, Message(data));
      case Fail(es, random, stopInside) => FailBooks(s, es, random, stopInside);
      case Stop => StopBooks(s);
    }
  }

  lemma StepKeepsInv(s: Stream, e: Event)
    requires Inv(s)
    ensures Inv(Step(s, e))
  {
    hide Shape, Books, Step;
    ShapeStep(s, e);
    BooksStep(s, e);
  }

  lemma StartKeepsInv(authPauseMs: int)
    ensures Inv(Start(authPauseMs))
  {
  }

  lemma {:induction false} RunKeepsInv(authPauseMs: int, events: seq<Event>)
    ensures Inv(Run(authPauseMs, events))
  {
    hide Inv, Step, Start;
    if events == [] {
      StartKeepsInv(authPauseMs);
    } else {
      RunKeepsInv(authPauseMs, events[..|events| - 1]);
      StepKeepsInv(Run(authPauseMs, events[..|events| - 1]), events[|events| - 1]);
    }
  }

  // ---------------------------------------------------------------- main results

  /** Before stop there is exactly one of: the pending timer, the probe of the current sequence number,
      the live EventSource.  So one probe at most is in flight and it is never a stale one. */
  lemma ExactlyOneOutstanding(authPauseMs: int, events: seq<Event>)
    ensures var s := Run(authPauseMs, events);
            !s.disposed ==>
              && |s.armed| + |s.inFlight| + |s.open| == 1
              && s.inFlight <= {s.connectSequence}
              && (forall id :: id in s.armed <==> s.reconnectTimeout == Some(id))
              && (forall es :: es in s.open <==> s.eventSource == Some(es))
  {
    RunKeepsInv(authPauseMs, events);
    var s := Run(authPauseMs, events);
    assert |s.armed| == |s.armed.Keys|;
  }

  /** Every EventSource ever constructed has been reported disconnected once, except a live one. */
  lemma ConstructionsMatchDisconnections(authPauseMs: int, events: seq<Event>)
    ensures var s := Run(authPauseMs, events);
            && Constructions(s.log) == Disconnections(s.log) + |s.open|
            && |s.open| == if s.eventSource.Some? then 1 else 0
  {
    RunKeepsInv(authPauseMs, events);
  }

  /** In every run, the n-th backoff since the last success draws its delay around min(1000 * 2^(n-1), 30000),
      however many authentication pauses fell in between. */
  lemma BackoffSchedule(authPauseMs: int, events: seq<Event>, i: nat)
    requires i < |Run(authPauseMs, events).log| && Run(authPauseMs, events).log[i].Backoff?
    ensures var log := Run(authPauseMs, events).log;
            var n := BackoffsSinceSuccess(log[..i]) + 1;
            var base := Min(1000 * Pow2(n - 1), 30000);
            4 * base <= 5 * log[i].delay <= 6 * base && 800 <= log[i].delay <= 36000
  {
    RunKeepsInv(authPauseMs, events);
    var log := Run(authPauseMs, events).log;
    assert BackoffIsNumbered(log, i);
    var random: Random :| log[i].delay == ReconnectDelay(log[i].attempt, random);
    DelayWindow(log[i].attempt, random);
  }

  /** Is `e` the acceptance of the current probe with a stop call inside the `onAuthPause(null)` of line 115? */
  ghost predicate StopsInsideAcceptance(s: Stream, e: Event) {
    && Enabled(s, e) && e.Probe? && e.stopInside && !s.disposed && e.n == s.connectSequence
    && e.outcome.Status? && IsOk(e.outcome.code)
  }

  /** The step that stops a stream. */
  lemma StopStep(s: Stream, e: Event)
    requires Shape(s) && !s.disposed && Step(s, e).disposed
    ensures var t := Step(s, e);
            && t.armed == map[] && t.reconnectTimeout.None?
            && |t.inFlight| <= 1
            && (t.open != {} <==> StopsInsideAcceptance(s, e))
            && (t.eventSource.Some? <==> StopsInsideAcceptance(s, e))
  {
    hide ReconnectDelay;
    ShapeStep(s, e);
    var t := Step(s, e);
    if t.inFlight != {} { assert t.inFlight == {t.connectSequence}; }
  }

  /** Stop takes everything away, in whichever callback it is called, with one exception: called inside the
      acceptance callback it is followed by the construction of an EventSource. */
  lemma StopReleasesEverything(authPauseMs: int, events: seq<Event>, e: Event)
    requires !Run(authPauseMs, events).disposed && Run(authPauseMs, events + [e]).disposed
    ensures var s := Run(authPauseMs, events + [e]);
            && s.armed == map[] && s.reconnectTimeout.None?
            && |s.inFlight| <= 1
            && (s.open != {} <==> StopsInsideAcceptance(Run(authPauseMs, events), e))
            && (s.eventSource.Some? <==> StopsInsideAcceptance(Run(authPauseMs, events), e))
  {
    hide Shape, Books, Step, Start, StopsInsideAcceptance;
    assert (events + [e])[..|events + [e]| - 1] == events;
    RunKeepsInv(authPauseMs, events);
    StopStep(Run(authPauseMs, events), e);
  }

  /** The exception happens: a user callback that stops the stream when the first probe is accepted
      leaves an open EventSource on a disposed stream. */
  lemma StopInsideAcceptanceLeaks(authPauseMs: int)
    ensures var s := Run(authPauseMs, [Probe(1, Status(200), 0, 0.0, true)]);
            s.disposed && s.open == {0}
  {
    var e := Probe(1, Status(200), 0, 0.0, true);
    assert [e][..0] == [];
    assert Run(authPauseMs, []) == Start(authPauseMs);
    assert Start(authPauseMs).inFlight == {1};
    var s := Run(authPauseMs, [e]);
    assert s == Step(Run(authPauseMs, [e][..0]), e);
  }

  /** What is left open is closed by its own error or by another stop call, and by nothing else. */
  lemma LeakIsClosedBy(s: Stream, e: Event)
    requires Shape(s) && s.disposed && s.open != {}
    ensures Step(s, e).open == {} <==> e.Stop? || (e.Fail? && e.es in s.open)
    ensures Step(s, e).open == {} || Step(s, e).open == s.open
  {
    hide ReconnectDelay;
  }

  /** `n` stop calls on a stream that is stopped already do no more than clear the auth pause `n` times. */
  function Cleared(n: nat): seq<Entry> { if n == 0 then [] else [AuthCleared] + Cleared(n - 1) }

  function StopCalls(events: seq<Event>): nat {
    if events == [] then 0 else (if events[0].Stop? then 1 else 0) + StopCalls(events[1..])
  }

  lemma QuietStep(s: Stream, e: Event)
    requires Shape(s) && s.disposed && s.open == {}
    ensures var t := Step(s, e);
            && Shape(t)
            && t == s.(inFlight := t.inFlight, log := s.log + if e.Stop? then [AuthCleared] else [])
            && t.inFlight <= s.inFlight
  {
    hide ReconnectDelay;
    ShapeStep(s, e);
  }

  /** Once stopped without that exception, nothing comes back: whatever follows, no timer, no EventSource, no further
      backoff or callback but the one each repeated stop call makes itself, and a late probe only leaves the
      in-flight set. */
  lemma {:induction false} QuietAfterStop(s: Stream, later: seq<Event>)
    requires Shape(s) && s.disposed && s.open == {}
    ensures var t := StepAll(s, later);
            && t == s.(inFlight := t.inFlight, log := s.log + Cleared(StopCalls(later)))
            && t.inFlight <= s.inFlight
    decreases |later|
  {
    hide Shape, Step;
    if later == [] {
      assert s.log + [] == s.log;
    } else {
      QuietStep(s, later[0]);
      var t := Step(s, later[0]);
      QuietAfterStop(t, later[1..]);
      assert t.log + Cleared(StopCalls(later[1..])) == s.log + Cleared(StopCalls(later));
    }
  }

  function StepAll(s: Stream, events: seq<Event>): Stream
    decreases |events|
  {
    if events == [] then s else StepAll(Step(s, events[0]), events[1..])
  }

  lemma {:induction false} RunThenStepAll(authPauseMs: int, before: seq<Event>, after: seq<Event>)
    ensures Run(authPauseMs, before + after) == StepAll(Run(authPauseMs, before), after)
    decreases |after|
  {
    if after == [] {
      assert before + after == before;
    } else {
      var longer := before + [after[0]];
      assert longer[..|longer| - 1] == before;
      assert longer + after[1..] == before + after;
      RunThenStepAll(authPauseMs, longer, after[1..]);
    }
  }

  /** The same over whole runs: what a run looked like right after stop is what it looks like ever after, but for
      the repeated stop calls. */
  lemma RunIsQuietAfterStop(authPauseMs: int, before: seq<Event>, later: seq<Event>)
    requires Run(authPauseMs, before).disposed && Run(authPauseMs, before).open == {}
    ensures var s := Run(authPauseMs, before);
            var t := Run(authPauseMs, before + later);
            && t.log == s.log + Cleared(StopCalls(later))
            && t.armed == map[] && t.open == {} && t.sources == s.sources
            && t.inFlight <= s.inFlight
  {
    hide Books, Step, Run, StepAll;
    RunKeepsInv(authPauseMs, before);
    RunThenStepAll(authPauseMs, before, later);
    QuietAfterStop(Run(authPauseMs, before), later);
  }

  /** Nothing was started on the way from `s` to `t`. */
  ghost predicate NothingStarted(s: Stream, t: Stream) {
    && t.disposed && t.armed == map[] && t.timers == s.timers
    && t.sources == s.sources && t.open <= s.open
    && t.connectSequence == s.connectSequence && t.inFlight <= s.inFlight
  }

  lemma DisposedStep(s: Stream, e: Event)
    requires Shape(s) && s.disposed
    ensures Shape(Step(s, e)) && NothingStarted(s, Step(s, e))
  {
    hide ReconnectDelay;
    ShapeStep(s, e);
  }

  /** With the exception too, nothing is ever started after stop: no timer is armed, no probe sent, no EventSource
      constructed or opened. */
  lemma {:induction false} NothingStartsAfterStop(authPauseMs: int, before: seq<Event>, later: seq<Event>)
    requires Run(authPauseMs, before).disposed
    ensures NothingStarted(Run(authPauseMs, before), Run(authPauseMs, before + later))
    decreases |later|
  {
    hide Books, Step, Start;
    RunKeepsInv(authPauseMs, before);
    if later == [] {
      assert before + later == before;
    } else {
      var n := |later| - 1;
      NothingStartsAfterStop(authPauseMs, before, later[..n]);
      var all := before + later;
      assert all[..|all| - 1] == before + later[..n] && all[|all| - 1] == later[n];
      RunKeepsInv(authPauseMs, before + later[..n]);
      DisposedStep(Run(authPauseMs, before + later[..n]), later[n]);
    }
  }

  // ---------------------------------------------------------------- what the user and the server see of each event

  /** The messages handed to the user. */
  function Messages(log: seq<Entry>): seq<string> {
    if log == [] then []
    else Messages(log[..|log| - 1]) + match log[|log| - 1] case Message(data) => [data] case _ => []
  }

  /** The messages that arrived at an EventSource while it was open. */
  function Arrived(authPauseMs: int, events: seq<Event>): seq<string> {
    if events == [] then []
    else
      var before, e := events[..|events| - 1], events[|events| - 1];
      Arrived(authPauseMs, before) + if e.Receive? && e.es in Run(authPauseMs, before).open then [e.data] else []
  }

  lemma MessagesSnoc(log: seq<Entry>, x: Entry)
    ensures Messages(log + [x]) == Messages(log) + if x.Message? then [x.data] else []
  {
    assert (log + [x])[..|log|] == log;
  }

  lemma CloseSourceMessages(s: Stream)
    ensures Messages(CloseSource(s).log) == Messages(s.log)
  {
    hide Messages;
    MessagesSnoc(s.log, Disconnected);
  }

  lemma StopMessages(s: Stream)
    ensures Messages(StopStream(s).log) == Messages(s.log)
  {
    hide Messages, CloseSource;
    var t := ClearTimer(s.(disposed := true));
    CloseSourceMessages(t);
    MessagesSnoc(CloseSource(t).log, AuthCleared);
  }

  lemma BackoffMessages(s: Stream, random: Random)
    ensures Messages(ScheduleBackoff(s, random).log) == Messages(s.log)
  {
    hide Messages;
    MessagesSnoc(s.log, Backoff(s.reconnectAttempt, ReconnectDelay(s.reconnectAttempt, random)));
  }

  lemma ProbeMessages(s: Stream, n: nat, outcome: ProbeOutcome, now: int, random: Random, stopInside: bool)
    ensures Messages(ProbeSettles(s, n, outcome, now, random, stopInside).log) == Messages(s.log)
  {
    hide Messages, StopStream, ScheduleBackoff;
    var t := s.(inFlight := s.inFlight - {n});
    BackoffMessages(t, random);
    MessagesSnoc(t.log, AuthPaused(now + t.authPauseMs));
    StopMessages(t.(log := t.log + [AuthPaused(now + t.authPauseMs)]));
    MessagesSnoc(t.log, AuthCleared);
    StopMessages(t.(log := t.log + [AuthCleared]));
    var u := StopIf(stopInside, t.(log := t.log + [AuthCleared]));
    MessagesSnoc(u.log, Constructed(u.sources));
  }

  lemma StepMessages(s: Stream, e: Event)
    ensures Messages(Step(s, e).log) == Messages(s.log) + if e.Receive? && e.es in s.open then [e.data] else []
  {
    hide Messages, ProbeSettles, ScheduleBackoff, StopStream, CloseSource;
    match e
    case Probe(n, outcome, now, random, stopInside) => ProbeMessages(s, n, outcome, now, random, stopInside);
    case Timer(id) => CloseSourceMessages(ClearTimer(s.(armed := s.armed - {id}, connectSequence := s.connectSequence
        + 1)));
    case Open(_) => MessagesSnoc(s.log, Opened);
    case Receive(_, data) => MessagesSnoc(s.log, Message(data));
    case Fail(es, random, stopInside) =>
      CloseSourceMessages(s);
      StopMessages(CloseSource(s));
      BackoffMessages(StopIf(stopInside, CloseSource(s)), random);
    case Stop => StopMessages(s);
  }

  /** Over every run the user gets exactly the messages that arrived while their EventSource was open, in order. */
  lemma {:induction false} MessagesReachUser(authPauseMs: int, events: seq<Event>)
    ensures Messages(Run(authPauseMs, events).log) == Arrived(authPauseMs, events)
  {
    hide Messages, Step, Start;
    if events == [] {
      NothingArrived(authPauseMs);
    } else {
      MessagesReachUser(authPauseMs, events[..|events| - 1]);
      StepMessages(Run(authPauseMs, events[..|events| - 1]), events[|events| - 1]);
    }
  }

  lemma NothingArrived(authPauseMs: int)
    ensures Messages(Start(authPauseMs).log) == []
  {
  }

  /** To begin with there is one probe and nothing else. */
  lemma StartsWithProbe(authPauseMs: int)
    ensures var s := Run(authPauseMs, []);
            && !s.disposed && s.inFlight == {1} && s.connectSequence == 1
            && s.armed == map[] && s.open == {} && s.log == [] && s.reconnectAttempt == 0
                && s.authPauseMs == authPauseMs
  {
  }

  lemma {:induction false} PauseIsFixed(authPauseMs: int, events: seq<Event>)
    ensures Run(authPauseMs, events).authPauseMs == authPauseMs
  {
    hide ReconnectDelay;
    if events != [] { PauseIsFixed(authPauseMs, events[..|events| - 1]); }
  }

  /** What the answer of a probe that is awaited brings about.  `random` is drawn where there is a backoff. */
  ghost predicate Answered(s: Stream, outcome: ProbeOutcome, now: int, random: Random, stopInside: bool, t: Stream) {
    && t.inFlight == {}
    && match outcome
       case Status(code) =>
         if code == 401 || code == 403 then
           && t.log == s.log + [AuthPaused(now + s.authPauseMs)] + (if stopInside then [AuthCleared] else [])
           && t.disposed == stopInside && t.open == {} && t.reconnectAttempt == s.reconnectAttempt
           && t.armed == if stopInside then map[] else map[s.timers := s.authPauseMs]
         else if 200 <= code <= 299 then
           && t.log == s.log + [AuthCleared] + (if stopInside then [AuthCleared] else []) + [Constructed(s.sources)]
           && t.disposed == stopInside && t.open == {s.sources} && t.reconnectAttempt == 0 && t.armed == map[]
         else BacksOff(s, random, t)
       case Rejected => BacksOff(s, random, t)
  }

  ghost predicate BacksOff(s: Stream, random: Random, t: Stream) {
    var delay := ReconnectDelay(s.reconnectAttempt, random);
    && t.log == s.log + [Backoff(s.reconnectAttempt, delay)]
    && !t.disposed && t.open == {} && t.reconnectAttempt == s.reconnectAttempt + 1
    && t.armed == map[s.timers := delay]
  }

  /** In every state before stop the answer of the awaited probe pauses for authentication on 401 and 403, opens an
      EventSource on 200 to 299, and backs off on everything else. */
  lemma ProbeIsAnswered(authPauseMs: int, events: seq<Event>, n: nat, outcome: ProbeOutcome, now: int, random: Random,
                        stopInside: bool)
    requires !Run(authPauseMs, events).disposed && n in Run(authPauseMs, events).inFlight
    ensures Answered(Run(authPauseMs, events), outcome, now, random, stopInside,
                     Step(Run(authPauseMs, events), Probe(n, outcome, now, random, stopInside)))
    ensures Run(authPauseMs, events).authPauseMs == authPauseMs
  {
    hide Books, Run, ReconnectDelay;
    RunKeepsInv(authPauseMs, events);
    PauseIsFixed(authPauseMs, events);
    AnswerStep(Run(authPauseMs, events), n, outcome, now, random, stopInside);
  }

  lemma AnswerStep(s: Stream, n: nat, outcome: ProbeOutcome, now: int, random: Random, stopInside: bool)
    requires Shape(s) && !s.disposed && n in s.inFlight
    ensures Answered(s, outcome, now, random, stopInside, Step(s, Probe(n, outcome, now, random, stopInside)))
  {
    hide ReconnectDelay;
    assert n == s.connectSequence;
  }

  /** In every state before stop: a timer that fires sends the next probe; an open event is reported and resets the
      backoff; the error of the live EventSource closes it and backs off within [800, 1200]; stop reports the
      EventSource, if there is one, and clears the pause. */
  lemma EventsAreAnswered(authPauseMs: int, events: seq<Event>, e: Event)
    requires !Run(authPauseMs, events).disposed && Enabled(Run(authPauseMs, events), e)
    ensures var s := Run(authPauseMs, events);
            var t := Step(s, e);
            match e
            case Timer(_) =>
              t.log == s.log && t.armed == map[] && t.inFlight == {s.connectSequence + 1}
                  && t.reconnectAttempt == s.reconnectAttempt
            case Open(_) => t == s.(log := s.log + [Opened], reconnectAttempt := 0)
            case Receive(_, data) => t == s.(log := s.log + [Message(data)])
            case Fail(es, random, stopInside) =>
              if es !in s.open then t == s
              else
                var delay := ReconnectDelay(0, random);
                && 800 <= delay <= 1200 && t.open == {}
                && t.log == s.log + [Disconnected] + (if stopInside then [AuthCleared] else []) + [Backoff(0, delay)]
                && t.disposed == stopInside && t.armed == if stopInside then map[] else map[s.timers := delay]
            case Stop =>
              && t.log == s.log + (if s.open != {} then [Disconnected] else []) + [AuthCleared]
              && t.disposed && t.armed == map[] && t.open == {}
            case Probe(_, _, _, _, _) => true
  {
    hide Books, Run, ReconnectDelay;
    RunKeepsInv(authPauseMs, events);
    match e
    case Timer(id) => TimerStep(Run(authPauseMs, events), id);
    case Fail(es, random, stopInside) =>
      FirstDelay(random);
      FailStep(Run(authPauseMs, events), es, random, stopInside);
    case Stop => StopAnswer(Run(authPauseMs, events));
    case _ =>
  }

  lemma FirstDelay(random: Random)
    ensures 800 <= ReconnectDelay(0, random) <= 1200
  {
    DelayWindow(0, random);
  }

  lemma TimerStep(s: Stream, id: nat)
    requires Shape(s) && !s.disposed && id in s.armed
    ensures var t := Step(s, Timer(id));
            t.log == s.log && t.armed == map[] && t.inFlight == {s.connectSequence + 1}
                && t.reconnectAttempt == s.reconnectAttempt
  {
    assert id in s.armed.Keys;
    assert s.armed - {id} == map[];
  }

  lemma FailStep(s: Stream, es: nat, random: Random, stopInside: bool)
    requires Shape(s) && !s.disposed && es < s.sources
    ensures var t := Step(s, Fail(es, random, stopInside));
            var delay := ReconnectDelay(0, random);
            if es !in s.open then t == s
            else
              && t.open == {}
              && t.log == s.log + [Disconnected] + (if stopInside then [AuthCleared] else []) + [Backoff(0, delay)]
              && t.disposed == stopInside && t.armed == if stopInside then map[] else map[s.timers := delay]
  {
    hide ReconnectDelay;
  }

  lemma StopAnswer(s: Stream)
    requires Shape(s) && !s.disposed
    ensures var t := Step(s, Event.Stop);
            && t.log == s.log + (if s.open != {} then [Disconnected] else []) + [AuthCleared]
            && t.disposed && t.armed == map[] && t.open == {}
  {
    if s.reconnectTimeout.Some? { assert s.armed - {s.reconnectTimeout.value} == map[]; }
  }

  // ---------------------------------------------------------------- refinement of a phase machine

  /** The protocol without sequence numbers, timer handles, identity checks or a disposed flag. */
  datatype Phase = AwaitingProbe(failures: nat) | Pausing(failures: nat, delay: int) | Streaming | Ended

  ghost function Abs(s: Stream): Phase
    requires Shape(s)
  {
    if s.disposed then Ended
    else if s.reconnectTimeout.Some? then Pausing(s.reconnectAttempt, s.armed[s.reconnectTimeout.value])
    else if s.eventSource.Some? then Streaming
    else AwaitingProbe(s.reconnectAttempt)
  }

  function PhaseAfterProbe(failures: nat, outcome: ProbeOutcome, authPauseMs: int, random: Random): Phase {
    match outcome
    case Rejected => Pausing(failures + 1, ReconnectDelay(failures, random))
    case Status(code) =>
      if IsAuthStatus(code) then Pausing(failures, authPauseMs)
      else if IsOk(code) then Streaming
      else Pausing(failures + 1, ReconnectDelay(failures, random))
  }

  function PhaseStep(p: Phase, e: Event, authPauseMs: int): Phase {
    match (p, e)
    case (Ended, _) => Ended
    case (_, Stop) => Ended
    case (AwaitingProbe(n), Probe(_, outcome, _, random, stopInside)) =>
      if stopInside && outcome.Status? && (IsAuthStatus(outcome.code) || IsOk(outcome.code)) then Ended
      else PhaseAfterProbe(n, outcome, authPauseMs, random)
    case (Pausing(n, _), Timer(_)) => AwaitingProbe(n)
    case (Streaming, Fail(_, random, stopInside)) =>
      if stopInside then Ended else Pausing(1, ReconnectDelay(0, random))
    case _ => p
  }

  /** An event the browser delivers, other than an error from an EventSource that was replaced or closed. */
  ghost predicate Effective(s: Stream, e: Event) {
    Enabled(s, e) && (e.Fail? ==> e.es in s.open)
  }

  /** Each callback is one step of the phase machine, and what is not effective is no step at all.
      The phase machine has no guards, so before stop no guard of the code ever decides anything. */
  lemma RefinesPhases(s: Stream, e: Event)
    requires Shape(s)
    ensures Shape(Step(s, e))
    ensures Effective(s, e) ==> Abs(Step(s, e)) == PhaseStep(Abs(s), e, s.authPauseMs)
    ensures !Effective(s, e) ==> Step(s, e) == s
  {
    ShapeStep(s, e);
    if Enabled(s, e) {
      match e
      case Probe(n, outcome, now, random, stopInside) => PhaseOfProbe(s, n, outcome, now, random, stopInside);
      case Timer(id) => assert s.armed.Keys == {id};
      case Open(_) =>
      case Receive(_, _) =>
      case Fail(es, random, stopInside) => PhaseOfFail(s, es, random, stopInside);
      case Stop =>
    }
  }

  lemma PhaseOfProbe(s: Stream, n: nat, outcome: ProbeOutcome, now: int, random: Random, stopInside: bool)
    requires Shape(s) && n in s.inFlight
    requires Shape(ProbeSettles(s, n, outcome, now, random, stopInside))
    ensures Abs(ProbeSettles(s, n, outcome, now, random, stopInside)) ==
            PhaseStep(Abs(s), Probe(n, outcome, now, random, stopInside), s.authPauseMs)
  {
    assert n == s.connectSequence;
  }

  lemma PhaseOfFail(s: Stream, es: nat, random: Random, stopInside: bool)
    requires Shape(s)
    requires Shape(SourceFails(s, es, random, stopInside))
    ensures es in s.open ==>
              Abs(SourceFails(s, es, random, stopInside)) ==
              PhaseStep(Abs(s), Fail(es, random, stopInside), s.authPauseMs)
    ensures es !in s.open ==> SourceFails(s, es, random, stopInside) == s
  {
  }

  /** A probe or timer that is outstanding before stop always has an event that moves the stream on, and a
      live stream moves on when its EventSource fails: the protocol is never stuck. */
  lemma NeverStuck(s: Stream)
    requires Shape(s) && !s.disposed
    ensures exists e: Event :: !e.Stop? && Effective(s, e) && Shape(Step(s, e)) && Abs(Step(s, e)) != Abs(s)
  {
    var e := if s.reconnectTimeout.Some? then Timer(s.reconnectTimeout.value)
             else if s.eventSource.Some? then Fail(s.eventSource.value, 0.0, false)
             else Probe(s.connectSequence, Status(200), 0, 0.0, false);
    if e.Timer? { assert e.id in s.armed.Keys; }
    RefinesPhases(s, e);
    assert Effective(s, e);
  }

  // ---------------------------------------------------------------- the closure

  class ManagedStream {
    const authPauseMs: int
    var disposed: bool
    var reconnectTimeout: Option<nat>
    var eventSource: Option<nat>
    var reconnectAttempt: nat
    var connectSequence: nat

    var armed: map<nat, int>
    var inFlight: set<nat>
    var open: set<nat>
    var timers: nat
    var sources: nat
    var log: seq<Entry>

    ghost function View(): Stream
      reads this
    {
      Stream(authPauseMs, disposed, reconnectTimeout, eventSource, reconnectAttempt, connectSequence,
             armed, inFlight, open, timers, sources, log)
    }

    ghost predicate Valid()
      reads this
    {
      Inv(View())
    }

    constructor (authRetryPauseMs: Option<int>)
      ensures Valid() && View() == Run(if authRetryPauseMs.Some? then authRetryPauseMs.value else 60000, [])
    {
      authPauseMs := if authRetryPauseMs.Some? then authRetryPauseMs.value else AUTH_RETRY_PAUSE_MS;
      disposed, reconnectTimeout, eventSource, reconnectAttempt, connectSequence := false, None, None, 0, 0;
      armed, inFlight, open, timers, sources, log := map[], {}, {}, 0, 0, [];
      new;
      Reconnect();
      RunKeepsInv(authPauseMs, []);
    }

    method ClearReconnectTimeout()
      modifies this
      ensures View() == ClearTimer(old(View()))
    {
      if reconnectTimeout == None { return; }
      armed := armed - {reconnectTimeout.value};
      reconnectTimeout := None;
    }

    method CloseEventSource()
      modifies this
      ensures View() == CloseSource(old(View()))
    {
      if eventSource == None { return; }
      open := open - {eventSource.value};
      eventSource := None;
      log := log + [Disconnected];
    }

    method ScheduleReconnect(delayMs: int)
      modifies this
      ensures View() == Schedule(old(View()), delayMs)
    {
      if disposed { return; }
      ClearReconnectTimeout();
      armed := armed[timers := delayMs];
      reconnectTimeout := Some(timers);
      timers := timers + 1;
    }

    method BackOff(random: Random)
      modifies this
      ensures View() == ScheduleBackoff(old(View()), random)
    {
      var delayMs := ReconnectDelay(reconnectAttempt, random);
      log := log + [Backoff(reconnectAttempt, delayMs)];
      reconnectAttempt := reconnectAttempt + 1;
      ScheduleReconnect(delayMs);
    }

    /** `connect` up to its `await`. */
    method Reconnect()
      modifies this
      ensures View() == Connect(old(View()))
    {
      if disposed { return; }
      connectSequence := connectSequence + 1;
      ClearReconnectTimeout();
      CloseEventSource();
      inFlight := inFlight + {connectSequence};
    }

    /** `connect` from its `await` on, for the call that drew `currentConnectSequence`. */
    method OnProbeSettled(currentConnectSequence: nat, outcome: ProbeOutcome, now: int, random: Random,
        stopInside: bool)
      requires Valid() && currentConnectSequence in inFlight
      modifies this
      ensures Valid()
      ensures View() == Step(old(View()), Probe(currentConnectSequence, outcome, now, random, stopInside))
    {
      hide Inv, ProbeSettles;
      StepKeepsInv(View(), Probe(currentConnectSequence, outcome, now, random, stopInside));
      Settle(currentConnectSequence, outcome, now, random, stopInside);
    }

    method Settle(currentConnectSequence: nat, outcome: ProbeOutcome, now: int, random: Random, stopInside: bool)
      modifies this
      ensures View() == ProbeSettles(old(View()), currentConnectSequence, outcome, now, random, stopInside)
    {
      inFlight := inFlight - {currentConnectSequence};
      if disposed || currentConnectSequence != connectSequence { return; }
      match outcome {
        case Rejected =>
          BackOff(random);
        case Status(code) =>
          if code == 401 || code == 403 {
            PauseForAuthentication(now, stopInside);
          } else if !(200 <= code <= 299) {
            BackOff(random);
          } else {
            OpenEventSource(stopInside);
          }
      }
    }

    method PauseForAuthentication(now: int, stopInside: bool)
      modifies this
      ensures View() == PauseForAuth(old(View()), now, stopInside)
    {
      log := log + [AuthPaused(now + authPauseMs)];
      if stopInside { Dispose(); }
      ScheduleReconnect(authPauseMs);
    }

    method OpenEventSource(stopInside: bool)
      modifies this
      ensures View() == Accept(old(View()), stopInside)
    {
      log := log + [AuthCleared];
      if stopInside { Dispose(); }
      reconnectAttempt := 0;
      eventSource := Some(sources);
      open := open + {sources};
      log := log + [Constructed(sources)];
      sources := sources + 1;
    }

    method OnTimer(id: nat)
      requires Valid() && id in armed
      modifies this
      ensures Valid() && View() == Step(old(View()), Timer(id))
    {
      hide Inv, Connect;
      StepKeepsInv(View(), Timer(id));
      armed := armed - {id};
      Reconnect();
    }

    method OnOpen(es: nat)
      requires Valid() && es in open
      modifies this
      ensures Valid() && View() == Step(old(View()), Open(es))
    {
      hide Inv;
      StepKeepsInv(View(), Open(es));
      reconnectAttempt := 0;
      log := log + [Opened];
    }

    method OnMessage(es: nat, data: string)
      requires Valid() && es in open
      modifies this
      ensures Valid() && View() == Step(old(View()), Receive(es, data))
    {
      hide Inv;
      StepKeepsInv(View(), Receive(es, data));
      log := log + [Message(data)];
    }

    method OnError(es: nat, random: Random, stopInside: bool)
      requires Valid() && es < sources
      modifies this
      ensures Valid() && View() == Step(old(View()), Fail(es, random, stopInside))
    {
      hide Inv, CloseSource, ScheduleBackoff, StopStream;
      StepKeepsInv(View(), Fail(es, random, stopInside));
      if eventSource != Some(es) { return; }
      CloseEventSource();
      if stopInside { Dispose(); }
      BackOff(random);
    }

    /** The returned stop function. */
    method StopManagedStream()
      requires Valid()
      modifies this
      ensures Valid() && View() == Step(old(View()), Event.Stop)
    {
      hide Inv, StopStream;
      StepKeepsInv(View(), Event.Stop);
      Dispose();
    }

    /** Its body, which user callbacks may also run in the middle of a step. */
    method Dispose()
      modifies this
      ensures View() == StopStream(old(View()))
    {
      disposed := true;
      ClearReconnectTimeout();
      CloseEventSource();
      log := log + [AuthCleared];
    }
  }
}
