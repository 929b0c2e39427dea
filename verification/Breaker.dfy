/** The circuit breaker of services/resolver/fetchers/__init__.py, and how often a failing
    upstream can be called through it. Times are seconds on a monotonic clock. */
module Breaker {
  import opened Common

  datatype Limits = Limits(threshold: int, cooldown: real) {
    /** Consecutive failures after which the circuit opens: the threshold, but never before a call
        has failed. */
    function Trip(): nat {
      if threshold < 1 then 1 else threshold
    }
  }

  datatype Circuit = Circuit(failures: nat, openedAt: Option<real>) {
    /** `opened_at` is set exactly when the failures have reached the threshold. */
    predicate Consistent(limits: Limits) {
      openedAt.Some? <==> failures >= limits.Trip()
    }
  }

  const FRESH := Circuit(0, None)

  /** The circuit refuses a call made now. */
  predicate Refuses(c: Circuit, limits: Limits, now: real) {
    c.openedAt.Some? && now - c.openedAt.value < limits.cooldown
  }

  /** The circuit after the question whether it is open. */
  function Polled(c: Circuit, limits: Limits, now: real): Circuit {
    if c.openedAt.Some? && !Refuses(c, limits, now) then FRESH else c
  }

  /** The circuit after a call's outcome. */
  function Noted(c: Circuit, limits: Limits, ok: bool, now: real): Circuit {
    if ok then FRESH
    else if c.failures + 1 >= limits.threshold then Circuit(c.failures + 1, Some(now))
    else c.(failures := c.failures + 1)
  }

  class CircuitBreaker {
    const limits: Limits
    var failures: nat
    var openedAt: Option<real>

    function Value(): Circuit reads this {
      Circuit(failures, openedAt)
    }

    constructor (limits: Limits)
      ensures this.limits == limits && Value() == FRESH
    {
      this.limits := limits;
      failures := 0;
      openedAt := None;
    }

    method IsOpen(now: real) returns (open: bool)
      modifies this
      ensures open == old(Refuses(Value(), limits, now))
      ensures Value() == old(Polled(Value(), limits, now))
    {
      if openedAt.None? {
        return false;
      }
      if now - openedAt.value >= limits.cooldown {
        openedAt := None;
        failures := 0;
        return false;
      }
      return true;
    }

    method Record(ok: bool, now: real)
      modifies this
      ensures Value() == old(Noted(Value(), limits, ok, now))
    {
      if ok {
        failures := 0;
        openedAt := None;
      } else {
        failures := failures + 1;
        if failures >= limits.threshold {
          openedAt := Some(now);
        }
      }
    }

    /** `guarded`: the upstream is called only when the circuit is not open; `ok` is how that call
        would end, and a timeout and an exception both count as a failure. */
    method Guarded(now: real, ok: bool) returns (called: bool)
      modifies this
      ensures called == old(!Refuses(Value(), limits, now))
      ensures Value() == old(AfterCall(Value(), limits, Call(now, ok)))
    {
      var open := IsOpen(now);
      if open {
        return false;
      }
      Record(ok, now);
      return true;
    }
  }

  // ------------------------------------------------------------------------------- runs

  datatype Call = Call(at: real, ok: bool)

  function AfterCall(c: Circuit, limits: Limits, call: Call): Circuit {
    if Refuses(c, limits, call.at) then c else Noted(Polled(c, limits, call.at), limits, call.ok, call.at)
  }

  /** The circuit after calls one after another. */
  function AfterCalls(c: Circuit, limits: Limits, calls: seq<Call>): Circuit
    decreases |calls|
  {
    if calls == [] then c
    else AfterCall(AfterCalls(c, limits, calls[..|calls| - 1]), limits, calls[|calls| - 1])
  }

  /** How many of the calls reached the upstream. */
  function Upstream(c: Circuit, limits: Limits, calls: seq<Call>): nat
    decreases |calls|
  {
    if calls == [] then 0
    else
      var front := calls[..|calls| - 1];
      Upstream(c, limits, front)
      + if Refuses(AfterCalls(c, limits, front), limits, calls[|calls| - 1].at) then 0 else 1
  }

  /** How many times the circuit opened during the calls. */
  function Openings(c: Circuit, limits: Limits, calls: seq<Call>): nat
    decreases |calls|
  {
    if calls == [] then 0
    else
      var front := calls[..|calls| - 1];
      var before := AfterCalls(c, limits, front);
      Openings(c, limits, front)
      + if !Refuses(before, limits, calls[|calls| - 1].at)
        && AfterCall(before, limits, calls[|calls| - 1]).openedAt.Some?
        then 1 else 0
  }

  /** Every run keeps `opened_at` and the failure count in step. */
  lemma {:induction false} RunsKeepCircuitConsistent(c: Circuit, limits: Limits, calls: seq<Call>)
    requires c.Consistent(limits)
    ensures AfterCalls(c, limits, calls).Consistent(limits)
    decreases |calls|
  {
    if calls != [] {
      RunsKeepCircuitConsistent(c, limits, calls[..|calls| - 1]);
    }
  }

  ghost predicate InOrder(calls: seq<Call>) {
    forall i, j :: 0 <= i <= j < |calls| ==> calls[i].at <= calls[j].at
  }

  /** Failing calls from `start` on, made one after another. */
  ghost predicate FailingFrom(calls: seq<Call>, start: real) {
    InOrder(calls) && forall i :: 0 <= i < |calls| ==> !calls[i].ok && start <= calls[i].at
  }

  /** The earliest moment of the n-th opening after the first: n cooldowns after the start. */
  function Earliest(limits: Limits, start: real, n: int): (r: real) {
    start + n as real * limits.cooldown
  }

  /** What failing calls up to `last` leave behind: each opening used up at most the threshold's
      calls, and two openings are a cooldown apart. */
  ghost predicate Paced(c: Circuit, limits: Limits, start: real, last: real, upstream: int, opens: int) {
    && c.Consistent(limits)
    && upstream <= limits.Trip() * opens + (if c.openedAt.None? then c.failures else 0)
    && (c.openedAt.Some? && opens > 0 ==> Earliest(limits, start, opens - 1) <= c.openedAt.value <= last)
    && (c.openedAt.None? && opens > 0 ==> Earliest(limits, start, opens) <= last)
  }

  /** One more failing call keeps the pace. */
  lemma CallKeepsPace(c: Circuit, limits: Limits, start: real, last: real, upstream: int, opens: int, now: real)
    requires limits.cooldown > 0.0 && opens >= 0 && start <= now && last <= now
    requires Paced(c, limits, start, last, upstream, opens)
    ensures var d := AfterCall(c, limits, Call(now, false));
            if Refuses(c, limits, now) then Paced(d, limits, start, now, upstream, opens)
            else Paced(d, limits, start, now, upstream + 1, opens + if d.openedAt.Some? then 1 else 0)
  {
    var trip := limits.Trip();
    assert trip * (opens + 1) == trip * opens + trip;
    assert Earliest(limits, start, opens) == Earliest(limits, start, opens - 1) + limits.cooldown;
    assert Earliest(limits, start, 0) == start;
  }

  lemma {:induction false} OpeningsPaceCalls(c: Circuit, limits: Limits, calls: seq<Call>, start: real)
    requires c.Consistent(limits) && limits.cooldown > 0.0 && FailingFrom(calls, start) && calls != []
    ensures Paced(AfterCalls(c, limits, calls), limits, start, calls[|calls| - 1].at,
                  Upstream(c, limits, calls), Openings(c, limits, calls))
    decreases |calls|
  {
    var front, last := calls[..|calls| - 1], calls[|calls| - 1];
    var before := AfterCalls(c, limits, front);
    if front == [] {
      CallKeepsPace(c, limits, start, start, 0, 0, last.at);
    } else {
      OpeningsPaceCalls(c, limits, front, start);
      assert front[|front| - 1].at <= last.at;
      CallKeepsPace(before, limits, start, front[|front| - 1].at, Upstream(c, limits, front),
                    Openings(c, limits, front), last.at);
    }
    assert last == Call(last.at, false);
  }

  /** A window of length `span` has room for at most floor(span / cooldown) cooldowns. */
  lemma CooldownsFit(limits: Limits, span: real, n: nat)
    requires limits.cooldown > 0.0 && n as real * limits.cooldown <= span
    ensures n <= (span / limits.cooldown).Floor
  {
    var q := span / limits.cooldown;
    assert q * limits.cooldown == span;
    assert (n as real - q) * limits.cooldown <= 0.0;
    assert n as real <= q;
  }

  lemma ProductGrows(k: nat, a: nat, b: nat)
    requires a <= b
    ensures k * a <= k * b
  {
  }

  /** At the end of a window, its pace bounds its calls. */
  lemma PaceBoundsCalls(c: Circuit, limits: Limits, start: real, span: real, upstream: int, opens: nat)
    requires limits.cooldown > 0.0 && span >= 0.0 && Paced(c, limits, start, start + span, upstream, opens)
    ensures upstream <= limits.Trip() * ((span / limits.cooldown).Floor + 1)
  {
    var trip, room := limits.Trip(), (span / limits.cooldown).Floor;
    CooldownsFit(limits, span, 0);
    if c.openedAt.None? {
      CooldownsFit(limits, span, opens);
      ProductGrows(trip, opens + 1, room + 1);
      assert trip * (opens + 1) == trip * opens + trip;
    } else {
      if opens > 0 {
        CooldownsFit(limits, span, opens - 1);
      }
      ProductGrows(trip, opens, room + 1);
    }
  }

  /** The rate bound. However the circuit was used before, while every call that reaches the
      upstream fails, a stretch of `span` seconds sees at most threshold * (floor(span / cooldown) + 1)
      of them. */
  lemma FailingUpstreamIsSpared(limits: Limits, before: seq<Call>, window: seq<Call>, start: real, span: real)
    requires limits.cooldown > 0.0 && span >= 0.0
    requires FailingFrom(window, start) && forall i :: 0 <= i < |window| ==> window[i].at <= start + span
    ensures Upstream(AfterCalls(FRESH, limits, before), limits, window)
            <= limits.Trip() * ((span / limits.cooldown).Floor + 1)
  {
    var c := AfterCalls(FRESH, limits, before);
    RunsKeepCircuitConsistent(FRESH, limits, before);
    if window == [] {
      PaceBoundsCalls(FRESH, limits, start, span, 0, 0);
    } else {
      OpeningsPaceCalls(c, limits, window, start);
      PaceBoundsCalls(AfterCalls(c, limits, window), limits, start, span,
                      Upstream(c, limits, window), Openings(c, limits, window));
    }
  }

  /** The bound is met: of n failing calls at one moment, exactly the threshold's number reach the
      upstream. */
  lemma {:induction false} BurstReachesThreshold(limits: Limits, now: real, n: nat)
    requires limits.cooldown > 0.0
    ensures var burst := seq(n, _ => Call(now, false));
            && Upstream(FRESH, limits, burst) == (if n < limits.Trip() then n else limits.Trip())
            && AfterCalls(FRESH, limits, burst)
               == (if n < limits.Trip() then Circuit(n, None) else Circuit(limits.Trip(), Some(now)))
  {
    if n > 0 {
      BurstReachesThreshold(limits, now, n - 1);
      assert seq(n, _ => Call(now, false))[..n - 1] == seq(n - 1, _ => Call(now, false));
    }
  }

  /** Without a positive cooldown the circuit never refuses a call. */
  lemma {:induction false} NoCooldownNoProtection(limits: Limits, calls: seq<Call>)
    requires limits.cooldown <= 0.0 && InOrder(calls)
    ensures Upstream(FRESH, limits, calls) == |calls|
    ensures var after := AfterCalls(FRESH, limits, calls);
            after.openedAt.Some? ==> calls != [] && after.openedAt.value <= calls[|calls| - 1].at
    decreases |calls|
  {
    if calls != [] {
      NoCooldownNoProtection(limits, calls[..|calls| - 1]);
    }
  }

  /** A success, or the end of the cooldown, forgives all failures: the next burst gets as far as the first. */
  lemma {:induction false} BurstAfterCooldown(c: Circuit, limits: Limits, now: real, n: nat)
    requires limits.cooldown > 0.0 && c.openedAt.Some? && now - c.openedAt.value >= limits.cooldown && n > 0
    ensures var burst := seq(n, _ => Call(now, false));
            && Upstream(c, limits, burst) == (if n < limits.Trip() then n else limits.Trip())
            && AfterCalls(c, limits, burst) == AfterCalls(FRESH, limits, burst)
  {
    BurstReachesThreshold(limits, now, n);
    assert seq(n, _ => Call(now, false))[..n - 1] == seq(n - 1, _ => Call(now, false));
    if n > 1 {
      BurstAfterCooldown(c, limits, now, n - 1);
      BurstReachesThreshold(limits, now, n - 1);
    } else {
      assert seq(0, _ => Call(now, false)) == [];
    }
  }

  lemma SuccessForgives(c: Circuit, limits: Limits, now: real)
    requires c.openedAt.None? || now - c.openedAt.value >= limits.cooldown
    ensures AfterCall(c, limits, Call(now, true)) == FRESH
  {
  }
}
