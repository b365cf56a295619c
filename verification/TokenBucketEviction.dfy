/**
 * Idle eviction, as the tenant sweep of cmd/apicorex/main.go:95-101 schedules it: exactly when
 * dropping a bucket is invisible to every caller.
 */
module TokenBucketEviction {
  import opened Options
  import opened TokenBucket
  import opened TokenBucketLaws

  /** The same history without its sweeps. */
  function Unswept(es: seq<Event>): (r: seq<Event>)
    ensures SweepFree(r)
  {
    if es == [] then []
    else Unswept(Init(es)) + if Last(es).Call? then [Last(es)] else []
  }

  ghost predicate SweptAt(es: seq<Event>, maxIdle: real) {
    forall i :: 0 <= i < |es| && es[i].Sweep? ==> es[i].maxIdle == maxIdle
  }

  /** No schedule of sweeps at `maxIdle` changes any answer to any caller. */
  ghost predicate Invisible(l: Limits, maxIdle: real) {
    forall es :: Timely(es) && SweptAt(es, maxIdle) ==> Log(l, es) == Log(l, Unswept(es))
  }

  predicate HarmlessSweep(l: Limits, maxIdle: real) {
    l.burst < 1.0 || l.burst <= l.rate * maxIdle
  }

  // ---- Harmless sweeps are invisible -------------------------------------------------------

  ghost predicate FullBy(l: Limits, b: Bucket, t: real) {
    b.last <= t && b.tokens >= 0.0 && l.burst <= b.tokens + (t - b.last) * l.rate
  }

  /** `s` lacks only buckets of `u` that are full again by time `t`. */
  ghost predicate LacksOnlyFull(l: Limits, s: Store, u: Store, t: real) {
    && (forall key :: key in s ==> key in u && s[key] == u[key])
    && (forall key :: key in u && key !in s ==> FullBy(l, u[key], t))
    && (forall key :: key in u ==> 0.0 <= u[key].tokens && u[key].last <= t)
  }

  lemma Product(a: real, b: real, rate: real)
    requires 0.0 <= rate && a <= b
    ensures a * rate <= b * rate
    ensures 0.0 <= a ==> 0.0 <= a * rate
  {
  }

  lemma StaysFull(l: Limits, b: Bucket, t: real, t': real)
    requires l.rate >= 0.0 && FullBy(l, b, t) && t <= t'
    ensures FullBy(l, b, t') && Level(l, Some(b), t') == l.burst
  {
    Product(t - b.last, t' - b.last, l.rate);
  }

  lemma LaterStillFull(l: Limits, s: Store, u: Store, t: real, t': real)
    requires l.rate >= 0.0 && LacksOnlyFull(l, s, u, t) && t <= t'
    ensures LacksOnlyFull(l, s, u, t')
  {
    forall key | key in u && key !in s {
      StaysFull(l, u[key], t, t');
    }
  }

  lemma LevelNonNegative(l: Limits, u: Store, key: string, t: real)
    requires l.rate >= 0.0 && l.burst >= 1.0
    requires key in u ==> 0.0 <= u[key].tokens && u[key].last <= t
    ensures Level(l, Find(u, key), t) >= 0.0
  {
    if key in u {
      var b := u[key];
      var elapsed := t - b.last;
      Product(elapsed, elapsed, l.rate);
      assert Level(l, Some(b), t) == Min(l.burst, b.tokens + elapsed * l.rate);
    }
  }

  lemma CallKeepsHidden(l: Limits, s: Store, u: Store, key: string, t: real)
    requires l.rate >= 0.0 && l.burst >= 1.0 && LacksOnlyFull(l, s, u, t)
    ensures Admits(l, s, key, t) == Admits(l, u, key, t)
    ensures LacksOnlyFull(l, Charged(l, s, key, t), Charged(l, u, key, t), t)
  {
    if key in u && key !in s {
      StaysFull(l, u[key], t, t);
    }
    LevelNonNegative(l, u, key, t);
  }

  lemma IdleRefills(l: Limits, b: Bucket, t: real, maxIdle: real)
    requires l.rate >= 0.0 && l.burst <= l.rate * maxIdle
    requires 0.0 <= b.tokens && b.last <= t && b.last < t - maxIdle
    ensures FullBy(l, b, t)
  {
    Product(maxIdle, t - b.last, l.rate);
    assert l.rate * maxIdle == maxIdle * l.rate;
  }

  lemma SweepHidesOnlyFull(l: Limits, s: Store, u: Store, t: real, maxIdle: real)
    requires l.rate >= 0.0 && l.burst <= l.rate * maxIdle && LacksOnlyFull(l, s, u, t)
    ensures LacksOnlyFull(l, Evicted(s, t - maxIdle), u, t)
  {
    forall key | key in u && key in s && key !in Evicted(s, t - maxIdle)
      ensures FullBy(l, u[key], t)
    {
      IdleRefills(l, u[key], t, maxIdle);
    }
  }

  lemma StepKeepsHidden(l: Limits, s: Store, u: Store, e: Event, maxIdle: real)
    requires l.rate >= 0.0 && l.burst >= 1.0 && l.burst <= l.rate * maxIdle
    requires LacksOnlyFull(l, s, u, e.at) && (e.Sweep? ==> e.maxIdle == maxIdle)
    ensures LacksOnlyFull(l, Apply(l, s, e), if e.Call? then Apply(l, u, e) else u, e.at)
    ensures e.Call? ==> Answer(l, s, e) == Answer(l, u, e)
  {
    match e
    case Call(at, key) => CallKeepsHidden(l, s, u, key, at);
    case Sweep(at, _) => SweepHidesOnlyFull(l, s, u, at, maxIdle);
  }

  lemma TimelyPrefix(es: seq<Event>)
    requires Timely(es) && es != []
    ensures Timely(Init(es))
    ensures Init(es) != [] ==> Last(Init(es)).at <= Last(es).at
  {
  }

  lemma {:induction false} SweepsStayHidden(l: Limits, es: seq<Event>, maxIdle: real)
    requires l.rate >= 0.0 && l.burst >= 1.0 && l.burst <= l.rate * maxIdle
    requires Timely(es) && SweptAt(es, maxIdle)
    ensures Log(l, es) == Log(l, Unswept(es))
    ensures es == [] || LacksOnlyFull(l, Run(l, es), Run(l, Unswept(es)), Last(es).at)
  {
    if es != [] {
      var e, past := Last(es), Init(es);
      TimelyPrefix(es);
      assert SweptAt(past, maxIdle);
      SweepsStayHidden(l, past, maxIdle);
      var s, u := Run(l, past), Run(l, Unswept(past));
      if past != [] {
        LaterStillFull(l, s, u, Last(past).at, e.at);
      }
      assert e == es[|es| - 1];
      StepKeepsHidden(l, s, u, e, maxIdle);
      if e.Call? {
        assert Init(Unswept(es)) == Unswept(past) && Last(Unswept(es)) == e;
      } else {
        assert Unswept(es) == Unswept(past);
      }
    }
  }

  /** A bucket smaller than one token refuses everything, evicted or not. */
  lemma {:induction false} SmallBucketRefusesAll(l: Limits, es: seq<Event>)
    requires l.burst < 1.0
    ensures Log(l, es) == Log(l, Unswept(es))
    ensures forall i :: 0 <= i < |Log(l, es)| ==> !Log(l, es)[i].ok
  {
    if es != [] {
      SmallBucketRefusesAll(l, Init(es));
      if Last(es).Call? {
        assert Init(Unswept(es)) == Unswept(Init(es)) && Last(Unswept(es)) == Last(es);
      } else {
        assert Unswept(es) == Unswept(Init(es));
      }
    }
  }

  lemma HarmlessIsInvisible(l: Limits, es: seq<Event>, maxIdle: real)
    requires l.rate >= 0.0 && HarmlessSweep(l, maxIdle)
    requires Timely(es) && SweptAt(es, maxIdle)
    ensures Log(l, es) == Log(l, Unswept(es))
  {
    if l.burst < 1.0 {
      SmallBucketRefusesAll(l, es);
    } else {
      SweepsStayHidden(l, es, maxIdle);
    }
  }

  /** The window bound survives the sweep. */
  lemma WindowBound(l: Limits, es: seq<Event>, maxIdle: real, key: string, t1: real, t2: real)
    requires l.rate >= 0.0 && HarmlessSweep(l, maxIdle)
    requires Timely(es) && SweptAt(es, maxIdle) && t1 <= t2
    ensures Within(Passed(Log(l, es), key, t1, t2), l, t1, t2)
  {
    HarmlessIsInvisible(l, es, maxIdle);
    WindowBoundUnswept(l, Unswept(es), key, t1, t2);
  }

  // ---- Any other sweep is visible ----------------------------------------------------------

  function Calls(n: nat, at: real): (r: seq<Event>)
    ensures |r| == n && forall i :: 0 <= i < n ==> r[i] == Call(at, "")
  {
    seq(n, _ => Call(at, ""))
  }

  /** What a call on the witness key would find after the events. */
  ghost function Found(l: Limits, es: seq<Event>, at: real): real {
    Level(l, Find(Run(l, es), ""), at)
  }

  /** A call at `at` takes one token or none, and the level then grows by rate up to burst. */
  lemma AfterCall(l: Limits, es: seq<Event>, at: real, t: real)
    ensures var left := Found(l, es, at) - if Found(l, es, at) >= 1.0 then 1.0 else 0.0;
            Found(l, es + [Call(at, "")], t) == Min(l.burst, left + (t - at) * l.rate)
    ensures Log(l, es + [Call(at, "")]) == Log(l, es) + [Verdict(at, "", Found(l, es, at) >= 1.0)]
  {
    assert Init(es + [Call(at, "")]) == es;
  }

  /** `n` calls at one instant spend `n` of the tokens found, as long as there are that many. */
  lemma {:induction false} Drain(l: Limits, es: seq<Event>, n: nat, at: real)
    requires n as real <= Found(l, es, at)
    ensures Found(l, es + Calls(n, at), at) == Found(l, es, at) - n as real
  {
    if n == 0 {
      assert es + Calls(0, at) == es;
    } else {
      Drain(l, es, n - 1, at);
      AfterCall(l, es + Calls(n - 1, at), at, at);
      assert es + Calls(n, at) == es + Calls(n - 1, at) + [Call(at, "")];
      assert Found(l, es + Calls(n - 1, at), at) <= l.burst;
    }
  }

  lemma DrainThenWait(l: Limits, es: seq<Event>, n: nat, at: real, t: real)
    requires 1 <= n && n as real <= Found(l, es, at)
    ensures Found(l, es + Calls(n, at), t) == Min(l.burst, Found(l, es, at) - n as real + (t - at) * l.rate)
  {
    Drain(l, es, n - 1, at);
    AfterCall(l, es + Calls(n - 1, at), at, t);
    assert es + Calls(n, at) == es + Calls(n - 1, at) + [Call(at, "")];
  }

  /** A sweep late enough makes the witness key look new. */
  lemma SweepForgets(l: Limits, past: seq<Event>, lastCall: real, at: real, maxIdle: real)
    requires past != [] && Last(past) == Call(lastCall, "") && lastCall < at - maxIdle
    ensures Found(l, past + [Sweep(at, maxIdle)], at) == l.burst
  {
    var swept := past + [Sweep(at, maxIdle)];
    assert Init(swept) == past && Last(swept) == Sweep(at, maxIdle);
    assert Run(l, past) == Charged(l, Run(l, Init(past)), "", lastCall);
    assert "" !in Run(l, swept);
  }

  lemma {:induction false} UnsweptSplit(a: seq<Event>, b: seq<Event>)
    ensures Unswept(a + b) == Unswept(a) + Unswept(b)
  {
    if b == [] {
      assert a + b == a;
    } else {
      UnsweptSplit(a, Init(b));
      assert Init(a + b) == a + Init(b) && Last(a + b) == Last(b);
    }
  }

  lemma {:induction false} UnsweptOfSweepFree(es: seq<Event>)
    requires SweepFree(es)
    ensures Unswept(es) == es
  {
    if es != [] {
      var past, last := Init(es), Last(es);
      assert es == past + [last] && last == es[|es| - 1];
      UnsweptOfSweepFree(past);
    }
  }

  lemma SweepAlone(sweep: Event)
    requires sweep.Sweep?
    ensures Unswept([sweep]) == []
  {
  }

  lemma UnsweptOnce(past: seq<Event>, sweep: Event, tail: seq<Event>)
    requires SweepFree(past) && SweepFree(tail) && sweep.Sweep?
    ensures Unswept(past + [sweep] + tail) == past + tail
  {
    UnsweptSplit(past + [sweep], tail);
    UnsweptSplit(past, [sweep]);
    UnsweptOfSweepFree(past);
    UnsweptOfSweepFree(tail);
    SweepAlone(sweep);
    assert past + [] == past;
  }

  lemma SweepTold(l: Limits, past: seq<Event>, at: real, maxIdle: real, tail: seq<Event>)
    requires SweepFree(past) && SweepFree(tail) && Timely(past + [Sweep(at, maxIdle)] + tail)
    requires Log(l, past + tail) != Log(l, past + [Sweep(at, maxIdle)] + tail)
    ensures !Invisible(l, maxIdle)
  {
    UnsweptOnce(past, Sweep(at, maxIdle), tail);
    OneSweepAt(past, Sweep(at, maxIdle), tail);
    Told(l, past + [Sweep(at, maxIdle)] + tail, maxIdle);
  }

  lemma OneSweepAt(past: seq<Event>, sweep: Event, tail: seq<Event>)
    requires SweepFree(past) && SweepFree(tail) && sweep.Sweep?
    ensures SweptAt(past + [sweep] + tail, sweep.maxIdle)
  {
  }

  lemma Told(l: Limits, es: seq<Event>, maxIdle: real)
    requires Timely(es) && SweptAt(es, maxIdle) && Log(l, es) != Log(l, Unswept(es))
    ensures !Invisible(l, maxIdle)
  {
  }

  /** One call tells two histories apart when it finds a token in exactly one of them. */
  lemma CallTells(l: Limits, a: seq<Event>, b: seq<Event>, at: real)
    requires Found(l, a, at) < 1.0 <= Found(l, b, at)
    ensures Log(l, a + [Call(at, "")]) != Log(l, b + [Call(at, "")])
  {
    AfterCall(l, a, at, at);
    AfterCall(l, b, at, at);
    assert Last(Log(l, a + [Call(at, "")])).ok != Last(Log(l, b + [Call(at, "")])).ok;
  }

  lemma Quotient(num: real, rate: real)
    requires rate > 0.0
    ensures num / rate * rate == num
    ensures num >= 0.0 ==> num / rate >= 0.0
  {
  }

  lemma StaysDrained(l: Limits, n: nat, t: real)
    requires l.rate == 0.0 && 1 <= n && n as real <= l.burst < n as real + 1.0
    ensures Found(l, Calls(n, 0.0), t) < 1.0
  {
    assert [] + Calls(n, 0.0) == Calls(n, 0.0);
    DrainThenWait(l, [], n, 0.0, t);
    NoRefill(t - 0.0, l.rate);
  }

  lemma NoRefill(elapsed: real, rate: real)
    requires rate == 0.0
    ensures elapsed * rate == 0.0
  {
  }

  /** With no refill, only the sweep gives a drained key its tokens back. */
  lemma VisibleWithoutRefill(l: Limits, maxIdle: real)
    requires l.rate == 0.0 && l.burst >= 1.0 && maxIdle >= 0.0
    ensures !Invisible(l, maxIdle)
  {
    var n, at := l.burst.Floor, maxIdle + 1.0;
    var past, sweep, tail := Calls(n, 0.0), [Sweep(at, maxIdle)], [Call(at, "")];
    StaysDrained(l, n, at);
    SweepForgets(l, past, 0.0, at, maxIdle);
    CallTells(l, past, past + sweep, at);
    SweepTold(l, past, at, maxIdle, tail);
  }

  /** Some instant lies past the idle limit but before a full refill. */
  lemma HalfRefilled(rate: real, burst: real, maxIdle: real) returns (idle: real)
    requires rate > 0.0 && rate * maxIdle < burst && maxIdle >= 0.0
    ensures maxIdle < idle && 0.0 <= idle * rate < burst
  {
    Quotient(burst, rate);
    idle := (maxIdle + burst / rate) / 2.0;
    assert idle * rate == (maxIdle * rate + burst) / 2.0;
    if burst / rate <= maxIdle {
      Product(burst / rate, maxIdle, rate);
    }
  }

  /** Enough calls at once leave less than a token; wait for exactly one more, and take it. */
  lemma EmptyKey(l: Limits, idle: real) returns (past: seq<Event>, emptied: real)
    requires l.rate > 0.0 && l.burst >= 1.0 && idle >= 0.0 && 0.0 <= idle * l.rate < l.burst
    ensures SweepFree(past) && Timely(past) && past != [] && Last(past) == Call(emptied, "")
    ensures Found(l, past, emptied + idle) == idle * l.rate
  {
    var n := l.burst.Floor;
    emptied := TimeForOne(l.burst, l.rate, n);
    past := Calls(n, 0.0) + [Call(emptied, "")];
    WaitForOne(l, n, emptied);
    TakeLast(l, Calls(n, 0.0), emptied, idle);
  }

  lemma TimeForOne(burst: real, rate: real, n: nat) returns (t: real)
    requires rate > 0.0 && n as real <= burst < n as real + 1.0
    ensures t >= 0.0 && t * rate == 1.0 - (burst - n as real)
  {
    var lack := 1.0 - (burst - n as real);
    Quotient(lack, rate);
    t := lack / rate;
  }

  lemma TakeLast(l: Limits, es: seq<Event>, at: real, idle: real)
    requires Found(l, es, at) == 1.0 && idle * l.rate < l.burst
    ensures Found(l, es + [Call(at, "")], at + idle) == idle * l.rate
  {
    var t := at + idle;
    AfterCall(l, es, at, t);
    Waited(l, Found(l, es, at), Found(l, es + [Call(at, "")], t), at, t, idle);
  }

  lemma Waited(l: Limits, found: real, after: real, at: real, t: real, idle: real)
    requires found == 1.0 && t == at + idle && idle * l.rate < l.burst
    requires after == Min(l.burst, found - (if found >= 1.0 then 1.0 else 0.0) + (t - at) * l.rate)
    ensures after == idle * l.rate
  {
    var waited := t - at;
    assert waited == idle;
    assert after == Min(l.burst, waited * l.rate);
  }

  lemma WaitForOne(l: Limits, n: nat, t: real)
    requires 1 <= n && n as real <= l.burst && t * l.rate == 1.0 - (l.burst - n as real)
    ensures Found(l, Calls(n, 0.0), t) == 1.0
  {
    assert [] + Calls(n, 0.0) == Calls(n, 0.0);
    DrainThenWait(l, [], n, 0.0, t);
    assert t - 0.0 == t;
  }

  lemma TimelyWitness(past: seq<Event>, sweep: Event, n: nat, again: real)
    requires Timely(past) && past != [] && Last(past).at <= sweep.at <= again
    ensures Timely(past + [sweep] + (Calls(n, sweep.at) + [Call(sweep.at, ""), Call(again, "")]))
    ensures Timely(past + [sweep] + (Calls(n, sweep.at) + [Call(sweep.at, "")]))
  {
  }

  /** The unswept history has less than a token left, the swept one at least one: the next call tells. */
  lemma TellNow(l: Limits, past: seq<Event>, sweep: Event, n: nat)
    requires SweepFree(past) && Timely(past) && past != [] && sweep.Sweep? && Last(past).at <= sweep.at
    requires Found(l, past + Calls(n, sweep.at), sweep.at) < 1.0 <= Found(l, past + [sweep] + Calls(n, sweep.at), sweep.at)
    ensures !Invisible(l, sweep.maxIdle)
  {
    var at := sweep.at;
    CallTells(l, past + Calls(n, at), past + [sweep] + Calls(n, at), at);
    TimelyWitness(past, sweep, n, at);
    Regroup(past, Calls(n, at), [Call(at, "")]);
    Regroup(past + [sweep], Calls(n, at), [Call(at, "")]);
    CallsSweepFree(n, at, [Call(at, "")]);
    SweepTold(l, past, at, sweep.maxIdle, Calls(n, at) + [Call(at, "")]);
  }

  lemma CallsSweepFree(n: nat, at: real, more: seq<Event>)
    requires SweepFree(more)
    ensures SweepFree(Calls(n, at) + more)
  {
  }

  lemma WaitTells(l: Limits, a: seq<Event>, b: seq<Event>, at: real, again: real)
    requires l.burst >= 1.0 && Found(l, a, at) < Found(l, b, at) < 1.0
    requires (again - at) * l.rate == 1.0 - Found(l, b, at)
    ensures Found(l, a + [Call(at, "")], again) < 1.0 <= Found(l, b + [Call(at, "")], again)
  {
    AfterCall(l, a, at, again);
    AfterCall(l, b, at, again);
  }

  lemma Refilled(found: real, rate: real, at: real) returns (again: real)
    requires rate > 0.0 && found < 1.0
    ensures again >= at && (again - at) * rate == 1.0 - found
  {
    Quotient(1.0 - found, rate);
    again := at + (1.0 - found) / rate;
    assert again - at == (1.0 - found) / rate;
  }

  /** Both have less than a token left, the swept one more of it: a call at the right moment tells. */
  lemma TellLater(l: Limits, past: seq<Event>, sweep: Event, n: nat)
    requires l.rate > 0.0 && l.burst >= 1.0
    requires SweepFree(past) && Timely(past) && past != [] && sweep.Sweep? && Last(past).at <= sweep.at
    requires Found(l, past + Calls(n, sweep.at), sweep.at) < Found(l, past + [sweep] + Calls(n, sweep.at), sweep.at) < 1.0
    ensures !Invisible(l, sweep.maxIdle)
  {
    var at, one := sweep.at, [Call(sweep.at, "")];
    var a, b := past + Calls(n, at), past + [sweep] + Calls(n, at);
    var again := Refilled(Found(l, b, at), l.rate, at);
    TimelyWitness(past, sweep, n, again);
    WaitTells(l, a, b, at, again);
    CallTells(l, a + one, b + one, again);
    TwoMore(past, Calls(n, at), Call(at, ""), Call(again, ""));
    TwoMore(past + [sweep], Calls(n, at), Call(at, ""), Call(again, ""));
    CallsSweepFree(n, at, [Call(at, ""), Call(again, "")]);
    SweepTold(l, past, at, sweep.maxIdle, Calls(n, at) + [Call(at, ""), Call(again, "")]);
  }

  lemma TwoMore(a: seq<Event>, b: seq<Event>, x: Event, y: Event)
    ensures a + b + [x] + [y] == a + (b + [x, y])
  {
  }

  /** With refill, spend what the unswept history has left, then compare. */
  lemma VisibleWithRefill(l: Limits, maxIdle: real)
    requires l.rate > 0.0 && l.burst >= 1.0 && maxIdle >= 0.0 && l.rate * maxIdle < l.burst
    ensures !Invisible(l, maxIdle)
  {
    var idle := HalfRefilled(l.rate, l.burst, maxIdle);
    var past, emptied := EmptyKey(l, idle);
    var left := idle * l.rate;
    var sweep, n := Sweep(emptied + idle, maxIdle), left.Floor;
    SweepForgets(l, past, emptied, sweep.at, maxIdle);
    Drain(l, past, n, sweep.at);
    Drain(l, past + [sweep], n, sweep.at);
    if l.burst - n as real >= 1.0 {
      TellNow(l, past, sweep, n);
    } else {
      TellLater(l, past, sweep, n);
    }
  }

  /** Eviction is invisible exactly for buckets under one token and for idle times long enough to refill. */
  lemma EvictionInvisibleIff(l: Limits, maxIdle: real)
    requires l.rate >= 0.0 && maxIdle >= 0.0
    ensures Invisible(l, maxIdle) <==> HarmlessSweep(l, maxIdle)
  {
    if HarmlessSweep(l, maxIdle) {
      forall es | Timely(es) && SweptAt(es, maxIdle)
        ensures Log(l, es) == Log(l, Unswept(es))
      {
        HarmlessIsInvisible(l, es, maxIdle);
      }
    } else if l.rate == 0.0 {
      VisibleWithoutRefill(l, maxIdle);
    } else {
      VisibleWithRefill(l, maxIdle);
    }
  }
}
