/** The breaker's state and answers as facts about its plain history, for every threshold and timeout. */
module CircuitBreakerLaws {
  import opened Options
  import opened CircuitBreaking

  predicate Cures(e: Event) {
    e.Success? || e.Reset?
  }

  predicate Hurts(e: Event) {
    e.Failure? || e.ForceOpen?
  }

  /** Failures recorded since the last success or reset. */
  function FailuresSince(es: seq<Event>): nat {
    if es == [] || Cures(Last(es)) then 0
    else FailuresSince(Init(es)) + if Last(es).Failure? then 1 else 0
  }

  /** Whether the breaker was forced open since the last success or reset. */
  predicate ForcedSince(es: seq<Event>) {
    es != [] && !Cures(Last(es)) && (Last(es).ForceOpen? || ForcedSince(Init(es)))
  }

  /** When the last failure or forced opening happened; the zero time if none did. */
  function LastHurt(es: seq<Event>): real {
    if es == [] then 0.0 else if Hurts(Last(es)) then Last(es).at else LastHurt(Init(es))
  }

  /** Event `i` opens the breaker. */
  predicate TripsAt(cfg: Settings, es: seq<Event>, i: nat)
    requires i < |es|
  {
    es[i].ForceOpen? || (es[i].Failure? && FailuresSince(es[..i + 1]) >= cfg.threshold)
  }

  /** Event `j` is a call that comes later than the timeout after the last failure before it. */
  predicate ProbesAt(cfg: Settings, es: seq<Event>, j: nat)
    requires j < |es|
  {
    es[j].Allow? && es[j].at - LastHurt(es[..j]) > cfg.resetTimeout
  }

  /** Event `i` opens the breaker and nothing after it cures or probes. */
  ghost predicate HeldOpenBy(cfg: Settings, es: seq<Event>, i: nat) {
    && i < |es|
    && TripsAt(cfg, es, i)
    && forall j :: i < j < |es| ==> !Cures(es[j]) && !ProbesAt(cfg, es, j)
  }

  ghost predicate HeldOpen(cfg: Settings, es: seq<Event>) {
    exists i :: HeldOpenBy(cfg, es, i)
  }

  ghost predicate Timely(es: seq<Event>) {
    forall i, j :: 0 <= i <= j < |es| ==> es[i].at <= es[j].at
  }

  /** Count and clock: the failure count is that of the history, and so is the time measured from. */
  lemma {:induction false} CountsAgree(cfg: Settings, es: seq<Event>)
    ensures Run(cfg, es).failures == FailuresSince(es)
    ensures Run(cfg, es).lastFailure == LastHurt(es)
  {
    if es != [] {
      CountsAgree(cfg, Init(es));
    }
  }

  /** Closed exactly when, since the last cure, nothing forced it and failures stayed below the threshold. */
  lemma {:induction false} ClosedIff(cfg: Settings, es: seq<Event>)
    ensures Run(cfg, es).state == Closed
            <==> !ForcedSince(es) && (FailuresSince(es) == 0 || FailuresSince(es) < cfg.threshold)
  {
    if es != [] {
      ClosedIff(cfg, Init(es));
      CountsAgree(cfg, Init(es));
    }
  }

  lemma HeldOpenInit(cfg: Settings, es: seq<Event>)
    requires es != [] && !Cures(Last(es)) && !ProbesAt(cfg, es, |es| - 1) && !TripsAt(cfg, es, |es| - 1)
    ensures HeldOpen(cfg, es) <==> HeldOpen(cfg, Init(es))
  {
    var past := Init(es);
    forall i: nat | i < |past|
      ensures TripsAt(cfg, es, i) == TripsAt(cfg, past, i) && ProbesAt(cfg, es, i) == ProbesAt(cfg, past, i)
    {
      assert es[..i + 1] == past[..i + 1] && es[..i] == past[..i];
    }
    if HeldOpen(cfg, es) {
      var i: nat :| HeldOpenBy(cfg, es, i);
      assert HeldOpenBy(cfg, past, i);
    }
    if HeldOpen(cfg, past) {
      var i: nat :| HeldOpenBy(cfg, past, i);
      assert HeldOpenBy(cfg, es, i);
    }
  }

  /** Open exactly while some trip is followed by neither a cure nor a late enough call. */
  lemma {:induction false} OpenIff(cfg: Settings, es: seq<Event>)
    ensures Run(cfg, es).state == Open <==> HeldOpen(cfg, es)
  {
    if es != [] {
      var n := |es| - 1;
      OpenIff(cfg, Init(es));
      CountsAgree(cfg, Init(es));
      CountsAgree(cfg, es);
      assert es[..n + 1] == es && es[..n] == Init(es);
      if TripsAt(cfg, es, n) {
        assert HeldOpenBy(cfg, es, n);
      } else if !Cures(es[n]) && !ProbesAt(cfg, es, n) {
        HeldOpenInit(cfg, es);
      }
    }
  }

  /** A call is refused exactly when a trip still holds and no more than the timeout has passed since the last failure. */
  lemma RefusedIff(cfg: Settings, es: seq<Event>, now: real)
    ensures !Admits(cfg, Run(cfg, es), now) <==> HeldOpen(cfg, es) && now <= LastHurt(es) + cfg.resetTimeout
  {
    OpenIff(cfg, es);
    CountsAgree(cfg, es);
  }

  lemma {:induction false} HurtSince(es: seq<Event>, i: nat)
    requires Timely(es) && i < |es| && Hurts(es[i])
    ensures es[i].at <= LastHurt(es)
  {
    if i < |es| - 1 && !Hurts(Last(es)) {
      HurtSince(Init(es), i);
    }
  }

  lemma {:induction false} LastHurtIsAnEvent(es: seq<Event>, i: nat) returns (k: nat)
    requires i < |es| && Hurts(es[i])
    ensures k < |es| && Hurts(es[k]) && LastHurt(es) == es[k].at
  {
    if Hurts(Last(es)) {
      k := |es| - 1;
    } else {
      k := LastHurtIsAnEvent(Init(es), i);
    }
  }

  /**
   * After a trip, every call within the timeout is refused unless a success or reset came in
   * between; failures recorded late only prolong it.
   */
  lemma RefusedAfterTrip(cfg: Settings, es: seq<Event>, i: nat, now: real)
    requires Timely(es) && i < |es| && TripsAt(cfg, es, i)
    requires forall j :: i < j < |es| ==> !Cures(es[j]) && es[j].at <= now
    requires now <= es[i].at + cfg.resetTimeout
    ensures !Admits(cfg, Run(cfg, es), now)
  {
    forall j | i < j < |es|
      ensures !ProbesAt(cfg, es, j)
    {
      HurtSince(es[..j], i);
    }
    assert HeldOpenBy(cfg, es, i);
    HurtSince(es, i);
    RefusedIff(cfg, es, now);
  }

  /** With no failure or forced opening in the preceding timeout, every call is admitted. */
  lemma AdmittedWhenQuiet(cfg: Settings, es: seq<Event>, now: real)
    requires forall j :: 0 <= j < |es| && Hurts(es[j]) ==> es[j].at < now - cfg.resetTimeout
    ensures Admits(cfg, Run(cfg, es), now)
  {
    RefusedIff(cfg, es, now);
    if HeldOpen(cfg, es) {
      var i: nat :| HeldOpenBy(cfg, es, i);
      var k := LastHurtIsAnEvent(es, i);
    }
  }

  // ---- Half-open is not a single probe -----------------------------------------------------

  /** Half-open, every call is admitted, however many there are. */
  lemma {:induction false} HalfOpenAdmitsEveryCall(cfg: Settings, es: seq<Event>, calls: seq<Event>, now: real)
    requires Run(cfg, es).state == HalfOpen
    requires forall i :: 0 <= i < |calls| ==> calls[i].Allow?
    ensures Run(cfg, es + calls).state == HalfOpen && Admits(cfg, Run(cfg, es + calls), now)
  {
    if calls == [] {
      assert es + calls == es;
    } else {
      HalfOpenAdmitsEveryCall(cfg, es, Init(calls), now);
      assert Init(es + calls) == es + Init(calls) && Last(es + calls) == calls[|calls| - 1];
    }
  }

  /** A failed probe reopens the breaker exactly when it is at least the threshold-th failure in a row. */
  lemma FailedProbeReopensIff(cfg: Settings, es: seq<Event>, at: real)
    requires Run(cfg, es).state == HalfOpen
    ensures Run(cfg, es + [Failure(at)]).state == Open <==> FailuresSince(es) + 1 >= cfg.threshold
  {
    CountsAgree(cfg, es);
    assert Init(es + [Failure(at)]) == es;
  }

  /** Forced open by the health monitor, probed after the timeout, failed: still half-open, still admitting. */
  lemma FailedProbeMayNotReopen(cfg: Settings)
    requires cfg == Settings(5, 30.0)
    ensures var es := [ForceOpen(0.0), Allow(31.0), Failure(31.0)];
            Run(cfg, es).state == HalfOpen && Admits(cfg, Run(cfg, es), 31.0)
  {
    var es := [ForceOpen(0.0), Allow(31.0), Failure(31.0)];
    assert Init(es) == [ForceOpen(0.0), Allow(31.0)];
    assert Init(Init(es)) == [ForceOpen(0.0)];
    assert Run(cfg, [ForceOpen(0.0)]) == Circuit(Open, 0, 0.0);
    assert Run(cfg, Init(es)) == Circuit(HalfOpen, 0, 0.0);
  }
}
