/** The three-state circuit breaker and the HTTP interceptors that feed it
    (src/utils/circuit-breaker.ts, src/config/nomba.ts). The clock is a parameter. */
module CircuitBreakers {
  import opened Wrappers

  datatype Options = Options(
    failureThreshold: nat, successThreshold: nat, baseCooldownMs: nat, maxCooldownMs: nat, halfOpenMaxProbes: nat)

  const NOMBA_OPTIONS := Options(5, 2, 30_000, 300_000, 2)

  predicate Sound(o: Options) {
    && o.failureThreshold >= 1 && o.successThreshold >= 1 && o.halfOpenMaxProbes >= 1
    && o.baseCooldownMs <= o.maxCooldownMs
  }

  datatype Phase = Closed | Open | HalfOpen

  datatype Breaker = Breaker(
    phase: Phase, consecutiveFailures: nat, cooldownMs: nat, nextProbeAt: int,
    halfOpenSuccesses: nat, halfOpenInFlight: nat)

  function Fresh(o: Options): Breaker {
    Breaker(Closed, 0, o.baseCooldownMs, 0, 0, 0)
  }

  function Trip(b: Breaker, now: int): Breaker {
    b.(phase := Open, nextProbeAt := now + b.cooldownMs)
  }

  /** The new state, and for a refused request how long it should wait. */
  function Admit(o: Options, b: Breaker, now: int): (Breaker, Option<int>) {
    if b.phase == Closed then (b, None)
    else if b.phase == Open && now < b.nextProbeAt then (b, Some(b.nextProbeAt - now))
    else
      var h := if b.phase == Open then b.(phase := HalfOpen, halfOpenSuccesses := 0, halfOpenInFlight := 0) else b;
      if h.halfOpenInFlight >= o.halfOpenMaxProbes then (h, Some(h.cooldownMs))
      else (h.(halfOpenInFlight := h.halfOpenInFlight + 1), None)
  }

  function OnSuccess(o: Options, b: Breaker): Breaker {
    match b.phase
    case HalfOpen =>
      var counted := b.(halfOpenInFlight := Max(0, b.halfOpenInFlight - 1),
                        halfOpenSuccesses := b.halfOpenSuccesses + 1);
      if counted.halfOpenSuccesses >= o.successThreshold
      then counted.(phase := Closed, consecutiveFailures := 0, cooldownMs := o.baseCooldownMs) else counted
    case Closed => b.(consecutiveFailures := 0)
    case Open => b
  }

  function OnFailure(o: Options, b: Breaker, now: int): Breaker {
    match b.phase
    case HalfOpen =>
      Trip(b.(halfOpenInFlight := Max(0, b.halfOpenInFlight - 1),
              cooldownMs := Min(b.cooldownMs * 2, o.maxCooldownMs)), now)
    case Closed =>
      var counted := b.(consecutiveFailures := b.consecutiveFailures + 1);
      if counted.consecutiveFailures >= o.failureThreshold
      then Trip(counted.(cooldownMs := o.baseCooldownMs), now) else counted
    case Open => b
  }

  class CircuitBreaker {
    const o: Options
    var state: Phase
    var consecutiveFailures: nat
    var cooldownMs: nat
    var nextProbeAt: int
    var halfOpenSuccesses: nat
    var halfOpenInFlight: nat

    constructor (o: Options)
      ensures this.o == o && View() == Fresh(o)
    {
      this.o := o;
      state, consecutiveFailures, cooldownMs, nextProbeAt := Closed, 0, o.baseCooldownMs, 0;
      halfOpenSuccesses, halfOpenInFlight := 0, 0;
    }

    ghost function View(): Breaker
      reads this
    {
      Breaker(state, consecutiveFailures, cooldownMs, nextProbeAt, halfOpenSuccesses, halfOpenInFlight)
    }

    method AssertRequestAllowed(now: int) returns (refused: Option<int>)
      modifies this
      ensures (View(), refused) == Admit(o, old(View()), now)
    {
      if state == Closed {
        return None;
      }
      if state == Open {
        if now < nextProbeAt {
          return Some(nextProbeAt - now);
        }
        state, halfOpenSuccesses, halfOpenInFlight := HalfOpen, 0, 0;
      }
      if halfOpenInFlight >= o.halfOpenMaxProbes {
        return Some(cooldownMs);
      }
      halfOpenInFlight := halfOpenInFlight + 1;
      refused := None;
    }

    method RecordSuccess()
      modifies this
      ensures View() == OnSuccess(o, old(View()))
    {
      if state == HalfOpen {
        halfOpenInFlight := Max(0, halfOpenInFlight - 1);
        halfOpenSuccesses := halfOpenSuccesses + 1;
        if halfOpenSuccesses >= o.successThreshold {
          state, consecutiveFailures, cooldownMs := Closed, 0, o.baseCooldownMs;
        }
        return;
      }
      if state == Closed {
        consecutiveFailures := 0;
      }
    }

    method RecordFailure(now: int)
      modifies this
      ensures View() == OnFailure(o, old(View()), now)
    {
      if state == HalfOpen {
        halfOpenInFlight := Max(0, halfOpenInFlight - 1);
        cooldownMs := Min(cooldownMs * 2, o.maxCooldownMs);
        TripNow(now);
        return;
      }
      if state == Closed {
        consecutiveFailures := consecutiveFailures + 1;
        if consecutiveFailures >= o.failureThreshold {
          cooldownMs := o.baseCooldownMs;
          TripNow(now);
        }
      }
    }

    method TripNow(now: int)
      modifies this`state, this`nextProbeAt
      ensures View() == Trip(old(View()), now)
    {
      state, nextProbeAt := Open, now + cooldownMs;
    }
  }

  // ----- The interceptors -----

  /** How a call ends: a 2xx response, an error with a status, no response at all, or the
      breaker's own refusal, which reaches the same error interceptor. */
  datatype Ending = Response | ErrorResponse(status: nat) | NoResponse | Refusal(retryInMs: int)

  predicate IsSystemicFailure(e: Ending) {
    e.NoResponse? || (e.ErrorResponse? && e.status >= 500)
  }

  /** What one ending does to the breaker. */
  function Observe(o: Options, b: Breaker, e: Ending, now: int): Breaker {
    if e.Refusal? then b else if IsSystemicFailure(e) then OnFailure(o, b, now) else OnSuccess(o, b)
  }

  /** Both API clients share one breaker. */
  class NombaClient {
    const breaker: CircuitBreaker

    constructor (breaker: CircuitBreaker)
      ensures this.breaker == breaker
    {
      this.breaker := breaker;
    }

    method OnResponse(now: int)
      modifies breaker
      ensures breaker.View() == Observe(breaker.o, old(breaker.View()), Response, now)
    {
      breaker.RecordSuccess();
    }

    /** The error interceptor; a refusal surfaces as "unavailable" with its wait. */
    method OnError(e: Ending, now: int) returns (unavailable: Option<int>)
      requires !e.Response?
      modifies breaker
      ensures breaker.View() == Observe(breaker.o, old(breaker.View()), e, now)
      ensures unavailable == if e.Refusal? then Some(e.retryInMs) else None
    {
      if e.Refusal? {
        return Some(e.retryInMs);
      }
      if e.NoResponse? || e.status >= 500 {
        breaker.RecordFailure(now);
      } else {
        breaker.RecordSuccess();
      }
      unavailable := None;
    }
  }

  // ----- Runs -----

  /** A request arrives, or an admitted one ends; `probe` says whether it was admitted in the
      half-open phase now in force. */
  datatype Event = Request(now: int) | Ends(ending: Ending, now: int, probe: bool)

  /** The breaker and the admitted requests that have not ended: those of the current
      half-open phase, and all earlier ones. */
  datatype System = System(b: Breaker, late: nat, probes: nat)

  function Outstanding(s: System): nat {
    s.late + s.probes
  }

  function Step(o: Options, s: System, e: Event): System {
    match e
    case Request(now) =>
      var (b, refused) := Admit(o, s.b, now);
      // A refusal goes through the error interceptor too.
      if refused.Some? then s.(b := Observe(o, b, Refusal(refused.value), now))
      else if b.phase == HalfOpen then s.(b := b, probes := s.probes + 1)
      else s.(b := b, late := s.late + 1)
    case Ends(ending, now, probe) =>
      var b := Observe(o, s.b, ending, now);
      var late := if probe then s.late else Max(0, s.late - 1);
      var probes := if probe then Max(0, s.probes - 1) else s.probes;
      if b.phase == HalfOpen then System(b, late, probes) else System(b, late + probes, 0)
  }

  function Exec(o: Options, es: seq<Event>): System {
    if es == [] then System(Fresh(o), 0, 0) else Step(o, Exec(o, es[..|es| - 1]), es[|es| - 1])
  }

  predicate Admitted(o: Options, s: System, e: Event) {
    e.Request? && Admit(o, s.b, e.now).1.None?
  }

  /** Only an outstanding request can end, once, and not by a refusal. */
  predicate CanHappen(s: System, e: Event) {
    e.Ends? ==> !e.ending.Refusal? && if e.probe then s.probes > 0 else s.late > 0
  }

  /** Runs: the clock never steps back. */
  predicate IsRun(o: Options, es: seq<Event>) {
    es == [] ||
    var n := |es| - 1;
    IsRun(o, es[..n]) && (n > 0 ==> es[n].now >= es[n - 1].now) && CanHappen(Exec(o, es[..n]), es[n])
  }

  predicate IsSuccess(e: Event) {
    e.Ends? && !IsSystemicFailure(e.ending)
  }

  predicate IsFailure(e: Event) {
    e.Ends? && IsSystemicFailure(e.ending)
  }

  // ----- What the events say, without the breaker's counters -----

  /** Failures since the last success. */
  function Streak(es: seq<Event>): nat {
    if es == [] then 0
    else
      var before := Streak(es[..|es| - 1]);
      var e := es[|es| - 1];
      if IsFailure(e) then before + 1 else if IsSuccess(e) then 0 else before
  }

  /** Failed probe phases since the circuit was last closed. */
  function FailedPhases(o: Options, es: seq<Event>): nat {
    if es == [] then 0
    else
      var was, now := Exec(o, es[..|es| - 1]).b.phase, Exec(o, es).b.phase;
      if now == Closed then 0 else if was == HalfOpen && now == Open then FailedPhases(o, es[..|es| - 1]) + 1
      else FailedPhases(o, es[..|es| - 1])
  }

  predicate Trips(o: Options, es: seq<Event>) {
    es != [] && Exec(o, es[..|es| - 1]).b.phase != Open && Exec(o, es).b.phase == Open
  }

  /** When the circuit last opened. */
  function TripTime(o: Options, es: seq<Event>): int {
    if es == [] then 0 else if Trips(o, es) then es[|es| - 1].now else TripTime(o, es[..|es| - 1])
  }

  /** Successes in the half-open phase up to here, by its own probes or by earlier requests. */
  function PhaseOks(o: Options, es: seq<Event>, byProbes: bool): nat {
    if es == [] || Exec(o, es[..|es| - 1]).b.phase != HalfOpen then 0
    else
      var e := es[|es| - 1];
      PhaseOks(o, es[..|es| - 1], byProbes) + if IsSuccess(e) && e.probe == byProbes then 1 else 0
  }

  /** Requests still outstanding when the half-open phase began. */
  function LateAtStart(o: Options, es: seq<Event>): nat {
    if es == [] then 0
    else if Exec(o, es[..|es| - 1]).b.phase != HalfOpen then Exec(o, es[..|es| - 1]).late
    else LateAtStart(o, es[..|es| - 1])
  }

  function Doubled(base: nat, k: nat): nat {
    if k == 0 then base else 2 * Doubled(base, k - 1)
  }

  // ----- The invariant -----

  ghost predicate Tracks(o: Options, es: seq<Event>) {
    var s := Exec(o, es);
    && (s.b.phase == Closed ==> s.b.consecutiveFailures == Streak(es) < o.failureThreshold)
    && s.b.cooldownMs == Min(Doubled(o.baseCooldownMs, FailedPhases(o, es)), o.maxCooldownMs)
    && (s.b.phase == Open ==> s.b.nextProbeAt == TripTime(o, es) + s.b.cooldownMs)
    && (s.b.phase != HalfOpen ==> s.probes == 0)
    && (s.b.phase == HalfOpen ==>
          && s.b.halfOpenSuccesses == PhaseOks(o, es, true) + PhaseOks(o, es, false) < o.successThreshold
          && s.b.halfOpenInFlight <= o.halfOpenMaxProbes
          && s.b.halfOpenInFlight <= s.probes
          && s.probes <= s.b.halfOpenInFlight + PhaseOks(o, es, false)
          && LateAtStart(o, es) == s.late + PhaseOks(o, es, false))
  }

  lemma {:induction false} TracksHistory(o: Options, es: seq<Event>)
    requires Sound(o) && IsRun(o, es)
    ensures Tracks(o, es)
  {
    if es != [] {
      var n := |es| - 1;
      TracksHistory(o, es[..n]);
      match es[n]
      case Request(_) => RequestTracks(o, es);
      case Ends(ending, _, _) =>
        if IsSystemicFailure(ending) {
          FailureTracks(o, es);
        } else {
          SuccessTracks(o, es);
        }
    }
  }

  lemma RequestTracks(o: Options, es: seq<Event>)
    requires Sound(o) && es != [] && Tracks(o, es[..|es| - 1]) && es[|es| - 1].Request?
    ensures Tracks(o, es)
  {
  }

  lemma SuccessTracks(o: Options, es: seq<Event>)
    requires Sound(o) && es != [] && Tracks(o, es[..|es| - 1]) && IsSuccess(es[|es| - 1])
    requires CanHappen(Exec(o, es[..|es| - 1]), es[|es| - 1])
    ensures Tracks(o, es)
  {
  }

  lemma FailureTracks(o: Options, es: seq<Event>)
    requires Sound(o) && es != [] && Tracks(o, es[..|es| - 1]) && IsFailure(es[|es| - 1])
    requires CanHappen(Exec(o, es[..|es| - 1]), es[|es| - 1])
    ensures Tracks(o, es)
  {
    if Exec(o, es[..|es| - 1]).b.phase == HalfOpen {
      assert FailedPhases(o, es) == FailedPhases(o, es[..|es| - 1]) + 1;
    }
  }

  // ----- Main results -----

  lemma Last(o: Options, es: seq<Event>, e: Event)
    ensures (es + [e])[..|es|] == es && Exec(o, es + [e]) == Step(o, Exec(o, es), e)
  {
    assert (es + [e])[..|es|] == es;
  }

  lemma Extend(o: Options, es: seq<Event>, e: Event) returns (more: seq<Event>)
    requires IsRun(o, es) && (es != [] ==> e.now >= es[|es| - 1].now) && CanHappen(Exec(o, es), e)
    ensures more == es + [e] && IsRun(o, more) && Exec(o, more) == Step(o, Exec(o, es), e)
  {
    Last(o, es, e);
    more := es + [e];
  }

  /** What each kind of ending does in each phase: an answer below 500, whatever its status,
      shows the upstream alive; no answer, or one from 500 up, is a failure. */
  lemma EndingMeaning(o: Options, es: seq<Event>, ending: Ending, now: int, probe: bool)
    requires Sound(o) && IsRun(o, es + [Ends(ending, now, probe)])
    ensures var b, b' := Exec(o, es).b, Exec(o, es + [Ends(ending, now, probe)]).b;
      match ending
      case Response => Succeeds(o, b, b')
      case ErrorResponse(status) => if status < 500 then Succeeds(o, b, b') else Fails(o, b, b', now)
      case NoResponse => Fails(o, b, b', now)
      case Refusal(_) => false
  {
    Last(o, es, Ends(ending, now, probe));
    assert (es + [Ends(ending, now, probe)])[|es|] == Ends(ending, now, probe);
    TracksHistory(o, es);
  }

  /** Closed: the streak is over. Half-open: one success more, and the last one closes. */
  ghost predicate Succeeds(o: Options, b: Breaker, b': Breaker) {
    match b.phase
    case Closed => b' == b.(consecutiveFailures := 0)
    case Open => b' == b
    case HalfOpen =>
      && b'.halfOpenSuccesses == b.halfOpenSuccesses + 1
      && b'.phase == if b'.halfOpenSuccesses < o.successThreshold then HalfOpen else Closed
  }

  /** Closed: one failure more, and the last one opens. Half-open: open again, for longer. */
  ghost predicate Fails(o: Options, b: Breaker, b': Breaker, now: int) {
    match b.phase
    case Closed =>
      && b'.consecutiveFailures == b.consecutiveFailures + 1
      && b'.phase == if b'.consecutiveFailures < o.failureThreshold then Closed else Open
    case Open => b' == b
    case HalfOpen =>
      && b'.phase == Open && b'.nextProbeAt == now + b'.cooldownMs
      && b'.cooldownMs == (if 2 * b.cooldownMs < o.maxCooldownMs then 2 * b.cooldownMs else o.maxCooldownMs)
  }

  /** How long a refused caller is told to wait. While open: until the moment from which the
      circuit lets a request through, and not before. While half-open: the current cooldown. */
  lemma RetryAfterIsExact(o: Options, es: seq<Event>, now: int)
    requires Sound(o) && IsRun(o, es)
    ensures var s := Exec(o, es); var refused := Admit(o, s.b, now).1;
      refused.Some? ==>
        && Exec(o, es + [Request(now)]) == s
        && (s.b.phase == Open ==>
              refused.value > 0 && forall t :: Admitted(o, s, Request(t)) <==> t >= now + refused.value)
        && (s.b.phase != Open ==>
              s.b.phase == HalfOpen
              && refused.value == Min(Doubled(o.baseCooldownMs, FailedPhases(o, es)), o.maxCooldownMs))
  {
    Last(o, es, Request(now));
    TracksHistory(o, es);
  }

  /** Under the shipped settings the waits are 30, 60, 120 and 240 seconds, then 5 minutes. */
  lemma {:induction false} ShippedWaits(k: nat)
    ensures Min(Doubled(NOMBA_OPTIONS.baseCooldownMs, k), NOMBA_OPTIONS.maxCooldownMs)
      == if k == 0 then 30_000 else if k == 1 then 60_000 else if k == 2 then 120_000 else if k == 3 then 240_000
         else 300_000
    ensures Sound(NOMBA_OPTIONS)
  {
    if k > 4 {
      ShippedWaits(k - 1);
    } else {
      assert Doubled(30_000, 2) == 2 * Doubled(30_000, 1);
      assert Doubled(30_000, 4) == 2 * Doubled(30_000, 3) == 4 * Doubled(30_000, 2);
    }
  }

  /** A closed circuit opens on the failure that makes the streak since the last success as
      long as the threshold, and on nothing else. */
  lemma TripsExactlyAtThreshold(o: Options, es: seq<Event>, e: Event)
    requires Sound(o) && IsRun(o, es + [e]) && Exec(o, es).b.phase == Closed
    ensures Exec(o, es + [e]).b.phase == (if Streak(es + [e]) == o.failureThreshold then Open else Closed)
    ensures Streak(es + [e]) <= o.failureThreshold
  {
    Last(o, es, e);
    TracksHistory(o, es);
  }

  /** In every state the cooldown is the base doubled once per failed probe phase since the
      circuit was last closed, up to the cap; while open, probing is due that long after the
      trip. */
  lemma BackoffDoublesToCap(o: Options, es: seq<Event>)
    requires Sound(o) && IsRun(o, es)
    ensures var b := Exec(o, es).b;
      && b.cooldownMs == Min(Doubled(o.baseCooldownMs, FailedPhases(o, es)), o.maxCooldownMs)
      && (b.phase == Open ==> b.nextProbeAt == TripTime(o, es) + b.cooldownMs)
  {
    TracksHistory(o, es);
  }

  /** From a trip until its cooldown has passed no request is admitted. */
  lemma SilentAfterTrip(o: Options, es: seq<Event>, i: nat, j: nat)
    requires Sound(o) && IsRun(o, es) && i < j < |es|
    requires Trips(o, es[..i + 1]) && Admitted(o, Exec(o, es[..j]), es[j])
    ensures es[j].now >= es[i].now + Min(Doubled(o.baseCooldownMs, FailedPhases(o, es[..i + 1])), o.maxCooldownMs)
  {
    RunPrefix(o, es, i + 1);
    BackoffDoublesToCap(o, es[..i + 1]);
    StaysOpen(o, es, i, j);
    var s := Exec(o, es[..j]);
    if s.b.phase != Open || s.b.nextProbeAt != Exec(o, es[..i + 1]).b.nextProbeAt {
      ClockAt(o, es, j);
    }
  }

  lemma {:induction false} RunPrefix(o: Options, es: seq<Event>, n: nat)
    requires IsRun(o, es) && n <= |es|
    ensures IsRun(o, es[..n])
    decreases |es|
  {
    if n == |es| {
      assert es[..n] == es;
    } else {
      RunPrefix(o, es[..|es| - 1], n);
      assert es[..|es| - 1][..n] == es[..n];
    }
  }

  lemma ClockAt(o: Options, es: seq<Event>, j: nat)
    requires IsRun(o, es) && 0 < j < |es|
    ensures es[j].now >= es[j - 1].now
  {
    RunPrefix(o, es, j + 1);
  }

  /** After a trip the circuit is still open on the same deadline, or the clock has passed it. */
  lemma {:induction false} StaysOpen(o: Options, es: seq<Event>, i: nat, j: nat)
    requires IsRun(o, es) && i < j <= |es| && Trips(o, es[..i + 1])
    ensures var due := Exec(o, es[..i + 1]).b.nextProbeAt;
      var b := Exec(o, es[..j]).b;
      (b.phase == Open && b.nextProbeAt == due) || es[j - 1].now >= due
    decreases j
  {
    if j > i + 1 {
      StaysOpen(o, es, i, j - 1);
      ClockAt(o, es, j - 1);
      assert es[..j][..j - 1] == es[..j - 1];
    }
  }

  /** The circuit closes again only from half-open, exactly on the success that completes
      successThreshold successes in one half-open phase, and any failure reopens it. */
  lemma ClosesExactlyAtThreshold(o: Options, es: seq<Event>, e: Event)
    requires Sound(o) && IsRun(o, es + [e]) && Exec(o, es).b.phase != Closed
    ensures Exec(o, es + [e]).b.phase == Closed <==>
      && Exec(o, es).b.phase == HalfOpen
      && PhaseOks(o, es + [e], true) + PhaseOks(o, es + [e], false) == o.successThreshold
    ensures Exec(o, es).b.phase == HalfOpen && IsFailure(e) ==> Exec(o, es + [e]).b.phase == Open
  {
    Last(o, es, e);
    TracksHistory(o, es);
  }

  /** `more` takes a half-open circuit to its next closing without leaving half-open before. */
  ghost predicate ClosesPhase(o: Options, es: seq<Event>, more: seq<Event>) {
    && more != [] && IsRun(o, es + more)
    && (forall j :: 0 <= j < |more| ==> Exec(o, es + more[..j]).b.phase == HalfOpen)
    && Exec(o, es + more).b.phase == Closed
  }

  /** The closing successes are at most those of the phase's probes and of the requests that
      were outstanding when it began. */
  lemma {:induction false} LateStays(o: Options, es: seq<Event>, more: seq<Event>)
    requires forall j :: 0 <= j < |more| ==> Exec(o, es + more[..j]).b.phase == HalfOpen
    ensures more != [] ==> LateAtStart(o, es + more) == LateAtStart(o, es)
    decreases |more|
  {
    if more != [] {
      var n := |more| - 1;
      assert forall j :: 0 <= j < n ==> more[..n][..j] == more[..j];
      LateStays(o, es, more[..n]);
      assert (es + more)[..|es + more| - 1] == es + more[..n];
      assert es + [] == es;
    }
  }

  lemma ClosingSuccesses(o: Options, es: seq<Event>, more: seq<Event>)
    requires Sound(o) && ClosesPhase(o, es, more)
    ensures PhaseOks(o, es + more, true) + PhaseOks(o, es + more, false) == o.successThreshold
    ensures PhaseOks(o, es + more, false) <= LateAtStart(o, es)
  {
    var n := |more| - 1;
    var before, e := es + more[..n], more[n];
    assert es + more == before + [e];
    assert Exec(o, es + more[..n]).b.phase == HalfOpen;
    Last(o, before, e);
    TracksHistory(o, before);
    ClosesExactlyAtThreshold(o, before, e);
    assert forall j :: 0 <= j < n ==> more[..n][..j] == more[..j];
    LateStays(o, es, more[..n]);
    assert es + [] == es;
  }

  /** One more success of the phase's own, or the probe it still needs. */
  lemma TowardsClosing(o: Options, s: System, now: int)
    requires Sound(o) && s.b.phase == HalfOpen && s.b.halfOpenSuccesses + 1 < o.successThreshold
    requires s.b.halfOpenInFlight <= s.probes
    ensures var e := if s.probes > 0 then Ends(Response, now, true) else Request(now);
      var s' := Step(o, s, e);
      && CanHappen(s, e) && s'.b.phase == HalfOpen && s'.late == s.late
      && if s.probes > 0 then s'.b.halfOpenSuccesses == s.b.halfOpenSuccesses + 1
         else s'.b.halfOpenSuccesses == s.b.halfOpenSuccesses && s'.probes == 1
  {
  }

  lemma ClosesAfter(o: Options, es: seq<Event>, e: Event, rest: seq<Event>)
    requires Exec(o, es).b.phase == HalfOpen && ClosesPhase(o, es + [e], rest)
    ensures ClosesPhase(o, es, [e] + rest) && es + ([e] + rest) == es + [e] + rest
  {
    hide Exec, IsRun;
    var more := [e] + rest;
    assert es + more == es + [e] + rest;
    forall j | 0 <= j < |more| ensures Exec(o, es + more[..j]).b.phase == HalfOpen {
      if j == 0 {
        assert es + more[..0] == es;
      } else {
        assert es + more[..j] == es + [e] + rest[..j - 1];
      }
    }
  }

  lemma LateAnswerCloses(o: Options, es: seq<Event>, now: int)
    requires Sound(o) && IsRun(o, es) && es != [] && now == es[|es| - 1].now
    requires Exec(o, es).b.phase == HalfOpen && Exec(o, es).late > 0
    requires Exec(o, es).b.halfOpenSuccesses + 1 == o.successThreshold
    ensures var more := [Ends(Response, now, false)];
      ClosesPhase(o, es, more) && PhaseOks(o, es + more, false) > 0
  {
    var more := [Ends(Response, now, false)];
    var closed := Extend(o, es, more[0]);
    assert (es + more)[..|es|] == es;
    assert more[..0] == [] && es + [] == es;
  }

  /** While an earlier request is outstanding, a half-open circuit can always still be closed
      by its answer: probes make up all but the last success. */
  lemma {:induction false} LateAnswerCanClose(o: Options, es: seq<Event>) returns (more: seq<Event>)
    requires Sound(o) && IsRun(o, es) && es != []
    requires Exec(o, es).b.phase == HalfOpen && Exec(o, es).late > 0
    ensures ClosesPhase(o, es, more) && PhaseOks(o, es + more, false) > 0
    ensures more != [] && IsSuccess(more[|more| - 1]) && !more[|more| - 1].probe
    decreases o.successThreshold - Exec(o, es).b.halfOpenSuccesses, if Exec(o, es).probes > 0 then 0 else 1
  {
    hide Step, PhaseOks, ClosesPhase;
    TracksHistory(o, es);
    var s, now := Exec(o, es), es[|es| - 1].now;
    if s.b.halfOpenSuccesses + 1 == o.successThreshold {
      LateAnswerCloses(o, es, now);
      more := [Ends(Response, now, false)];
    } else {
      var e := if s.probes > 0 then Ends(Response, now, true) else Request(now);
      TowardsClosing(o, s, now);
      var next := Extend(o, es, e);
      var rest := LateAnswerCanClose(o, next);
      ClosesAfter(o, es, e, rest);
      more := [e] + rest;
    }
  }

  /** "Only a half-open probe may close the circuit" holds of a half-open phase, whatever
      happens in it, if and only if no request was outstanding when it began. */
  lemma OnlyProbesCloseIff(o: Options, es: seq<Event>)
    requires Sound(o) && IsRun(o, es) && es != []
    requires Exec(o, es[..|es| - 1]).b.phase != HalfOpen && Exec(o, es).b.phase == HalfOpen
    ensures LateAtStart(o, es) == 0 <==>
      forall more :: ClosesPhase(o, es, more) ==> PhaseOks(o, es + more, true) == o.successThreshold
  {
    TracksHistory(o, es);
    if LateAtStart(o, es) == 0 {
      forall more | ClosesPhase(o, es, more) ensures PhaseOks(o, es + more, true) == o.successThreshold {
        ClosingSuccesses(o, es, more);
      }
    } else {
      var more := LateAnswerCanClose(o, es);
      ClosingSuccesses(o, es, more);
    }
  }

  /** The in-flight count never exceeds the probe limit or what is really outstanding. The
      probes really outstanding exceed the limit by at most the earlier requests that
      succeeded during the phase, fewer than successThreshold. */
  lemma ProbesAreBounded(o: Options, es: seq<Event>)
    requires Sound(o) && IsRun(o, es) && Exec(o, es).b.phase == HalfOpen
    ensures var s := Exec(o, es);
      && s.b.halfOpenInFlight <= Min(o.halfOpenMaxProbes, Outstanding(s))
      && s.probes <= o.halfOpenMaxProbes + PhaseOks(o, es, false)
      && s.probes <= o.halfOpenMaxProbes + o.successThreshold - 1
      && (LateAtStart(o, es) == 0 ==> s.probes <= o.halfOpenMaxProbes)
  {
    TracksHistory(o, es);
  }

  /** `more` never takes a half-open circuit out of its phase. */
  ghost predicate StaysHalfOpen(o: Options, es: seq<Event>, more: seq<Event>) {
    IsRun(o, es + more) && forall j :: 0 <= j <= |more| ==> Exec(o, es + more[..j]).b.phase == HalfOpen
  }

  lemma StaysTwice(o: Options, es: seq<Event>, more: seq<Event>, rest: seq<Event>)
    requires StaysHalfOpen(o, es, more) && StaysHalfOpen(o, es + more, rest)
    ensures StaysHalfOpen(o, es, more + rest) && es + (more + rest) == es + more + rest
  {
    hide Exec, IsRun;
    var all := more + rest;
    assert es + all == es + more + rest;
    forall j | 0 <= j <= |all| ensures Exec(o, es + all[..j]).b.phase == HalfOpen {
      if j <= |more| {
        assert all[..j] == more[..j];
      } else {
        assert es + all[..j] == es + more + rest[..j - |more|];
      }
    }
  }

  lemma StaysOne(o: Options, es: seq<Event>, e: Event)
    requires Sound(o) && IsRun(o, es) && (es != [] ==> e.now >= es[|es| - 1].now) && CanHappen(Exec(o, es), e)
    requires Exec(o, es).b.phase == HalfOpen && Step(o, Exec(o, es), e).b.phase == HalfOpen
    ensures StaysHalfOpen(o, es, [e]) && Exec(o, es + [e]) == Step(o, Exec(o, es), e)
  {
    var next := Extend(o, es, e);
    hide IsRun, Exec, Step;
    assert es + [e][..0] == es && [e][..1] == [e];
  }

  /** Requests until the phase's slots are taken. */
  lemma {:induction false} FillSlots(o: Options, es: seq<Event>) returns (more: seq<Event>)
    requires Sound(o) && IsRun(o, es) && es != [] && Exec(o, es).b.phase == HalfOpen
    requires Exec(o, es).b.halfOpenInFlight <= o.halfOpenMaxProbes
    ensures StaysHalfOpen(o, es, more) && (es + more)[|es + more| - 1].now == es[|es| - 1].now
    ensures var s, s' := Exec(o, es), Exec(o, es + more);
      && s'.b.halfOpenInFlight == o.halfOpenMaxProbes
      && s'.late == s.late && s'.b.halfOpenSuccesses == s.b.halfOpenSuccesses
    decreases o.halfOpenMaxProbes - Exec(o, es).b.halfOpenInFlight
  {
    var e := Request(es[|es| - 1].now);
    if Exec(o, es).b.halfOpenInFlight == o.halfOpenMaxProbes {
      more := [];
      assert es + [] == es;
    } else {
      StaysOne(o, es, e);
      hide Exec, IsRun;
      var rest := FillSlots(o, es + [e]);
      StaysTwice(o, es, [e], rest);
      more := [e] + rest;
    }
  }

  /** With every slot taken, a late success frees one without a probe having ended. */
  lemma OneTooMany(o: Options, es: seq<Event>) returns (more: seq<Event>)
    requires Sound(o) && IsRun(o, es) && es != [] && Exec(o, es).b.phase == HalfOpen && Exec(o, es).late > 0
    requires Exec(o, es).b.halfOpenInFlight == o.halfOpenMaxProbes <= Exec(o, es).probes
    requires Exec(o, es).b.halfOpenSuccesses + 1 < o.successThreshold
    ensures StaysHalfOpen(o, es, more) && Exec(o, es + more).probes > o.halfOpenMaxProbes
  {
    var now := es[|es| - 1].now;
    var late, request := Ends(Response, now, false), Request(now);
    StaysOne(o, es, late);
    hide IsRun, Exec;
    StaysOne(o, es + [late], request);
    StaysTwice(o, es, [late], [request]);
    more := [late] + [request];
  }

  /** "At most halfOpenMaxProbes probes at once" holds of a half-open phase, whatever happens
      in it, if and only if no request was outstanding when it began or one success closes. */
  lemma ProbeLimitHoldsIff(o: Options, es: seq<Event>)
    requires Sound(o) && IsRun(o, es) && es != []
    requires Exec(o, es[..|es| - 1]).b.phase != HalfOpen && Exec(o, es).b.phase == HalfOpen
    ensures LateAtStart(o, es) == 0 || o.successThreshold == 1 <==>
      forall more :: StaysHalfOpen(o, es, more) ==> Exec(o, es + more).probes <= o.halfOpenMaxProbes
  {
    hide Step, IsRun;
    TracksHistory(o, es);
    if LateAtStart(o, es) == 0 || o.successThreshold == 1 {
      forall more | StaysHalfOpen(o, es, more) ensures Exec(o, es + more).probes <= o.halfOpenMaxProbes {
        assert more[..|more|] == more && (more == [] ==> es + more == es);
        LateStays(o, es, more);
        ProbesAreBounded(o, es + more);
      }
    } else {
      assert Exec(o, es).late > 0 && Exec(o, es).b.halfOpenSuccesses == 0;
      var more := FillSlots(o, es);
      assert more[..|more|] == more;
      TracksHistory(o, es + more);
      var rest := OneTooMany(o, es + more);
      StaysTwice(o, es, more, rest);
    }
  }

  /** The breaker never wedges: with nothing outstanding and the cooldown over, the next
      request is admitted. */
  lemma NeverWedges(o: Options, es: seq<Event>, now: int)
    requires Sound(o) && IsRun(o, es)
    requires Outstanding(Exec(o, es)) == 0
    requires Exec(o, es).b.phase == Open ==>
      now >= TripTime(o, es) + Min(Doubled(o.baseCooldownMs, FailedPhases(o, es)), o.maxCooldownMs)
    ensures Admitted(o, Exec(o, es), Request(now))
  {
    TracksHistory(o, es);
  }

  // ----- What late successes do under the shipped settings -----

  /** n requests sent while closed, five of which time out: the circuit is open until 30 s. */
  lemma TimedOut(n: nat) returns (es: seq<Event>)
    requires n >= 5
    ensures IsRun(NOMBA_OPTIONS, es) && es != [] && es[|es| - 1].now == 0
    ensures Exec(NOMBA_OPTIONS, es) == System(Breaker(Open, 5, 30_000, 30_000, 0, 0), n - 5, 0)
  {
    es := [];
    for k := 0 to n
      invariant IsRun(NOMBA_OPTIONS, es) && |es| == k && (k > 0 ==> es[k - 1].now == 0)
      invariant Exec(NOMBA_OPTIONS, es) == System(Fresh(NOMBA_OPTIONS), k, 0)
    {
      es := Extend(NOMBA_OPTIONS, es, Request(0));
    }
    for k := 0 to 5
      invariant IsRun(NOMBA_OPTIONS, es) && |es| == n + k && es[n + k - 1].now == 0
      invariant Exec(NOMBA_OPTIONS, es) == System(
        if k < 5 then Fresh(NOMBA_OPTIONS).(consecutiveFailures := k) else Breaker(Open, 5, 30_000, 30_000, 0, 0),
        n - k, 0)
    {
      es := Extend(NOMBA_OPTIONS, es, Ends(NoResponse, 0, false));
    }
  }

  /** Two answers to requests sent before the trip close the circuit before its one probe
      has come back. */
  lemma LateSuccessesClose() returns (es: seq<Event>)
    ensures IsRun(NOMBA_OPTIONS, es) && |es| > 0
    ensures Exec(NOMBA_OPTIONS, es[..|es| - 1]).b.phase == HalfOpen && Exec(NOMBA_OPTIONS, es).b.phase == Closed
    ensures PhaseOks(NOMBA_OPTIONS, es, true) == 0
  {
    es := TimedOut(7);
    es := Extend(NOMBA_OPTIONS, es, Request(30_000));
    assert PhaseOks(NOMBA_OPTIONS, es, true) == 0;
    es := Extend(NOMBA_OPTIONS, es, Ends(Response, 30_000, false));
    assert PhaseOks(NOMBA_OPTIONS, es, true) == 0;
    es := Extend(NOMBA_OPTIONS, es, Ends(Response, 30_000, false));
  }

  /** One such answer lets a third probe out while two are outstanding. */
  lemma LateSuccessAdmitsThirdProbe() returns (es: seq<Event>)
    ensures IsRun(NOMBA_OPTIONS, es) && Exec(NOMBA_OPTIONS, es).probes > NOMBA_OPTIONS.halfOpenMaxProbes
  {
    es := TimedOut(6);
    es := Extend(NOMBA_OPTIONS, es, Request(30_000));
    es := Extend(NOMBA_OPTIONS, es, Request(30_000));
    es := Extend(NOMBA_OPTIONS, es, Ends(Response, 30_000, false));
    es := Extend(NOMBA_OPTIONS, es, Request(30_000));
  }
}
