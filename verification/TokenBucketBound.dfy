/** When the window bound survives eviction: under every sweep schedule, exactly if sweeping is harmless. */
module TokenBucketBound {
  import opened Options
  import opened TokenBucket
  import opened TokenBucketEviction

  /** No run with sweeps at `maxIdle` lets any key, in any window, past burst + rate * length. */
  ghost predicate Bounded(l: Limits, maxIdle: real) {
    forall es, key, t1, t2 :: Timely(es) && SweptAt(es, maxIdle) && t1 <= t2 ==> Within(Passed(Log(l, es), key, t1, t2), l, t1, t2)
  }

  // ---- Counting a witness run --------------------------------------------------------------

  /** Calls on the witness key admitted from time 0 on. */
  function Admitted(l: Limits, es: seq<Event>, until: real): nat {
    Passed(Log(l, es), "", 0.0, until)
  }

  lemma OneMore(l: Limits, es: seq<Event>, at: real, until: real)
    requires Found(l, es, at) >= 1.0 && 0.0 <= at <= until
    ensures Admitted(l, es + [Call(at, "")], until) == Admitted(l, es, until) + 1
  {
    AfterCall(l, es, at, at);
    var g := Log(l, es);
    assert Init(g + [Verdict(at, "", true)]) == g;
  }

  lemma {:induction false} ManyMore(l: Limits, es: seq<Event>, n: nat, at: real, until: real)
    requires n as real <= Found(l, es, at) && 0.0 <= at <= until
    ensures Admitted(l, es + Calls(n, at), until) == Admitted(l, es, until) + n
  {
    if n == 0 {
      assert es + Calls(0, at) == es;
    } else {
      ManyMore(l, es, n - 1, at, until);
      NthMore(l, es, n, at, until);
    }
  }

  lemma NthMore(l: Limits, es: seq<Event>, n: nat, at: real, until: real)
    requires 1 <= n && n as real <= Found(l, es, at) && 0.0 <= at <= until
    ensures Admitted(l, es + Calls(n, at), until) == Admitted(l, es + Calls(n - 1, at), until) + 1
  {
    OneLeft(l, es, n, at);
    OneMore(l, es + Calls(n - 1, at), at, until);
    LastCall(es, n, at);
  }

  lemma LastCall(es: seq<Event>, n: nat, at: real)
    requires 1 <= n
    ensures es + Calls(n, at) == es + Calls(n - 1, at) + [Call(at, "")]
  {
  }

  lemma OneLeft(l: Limits, es: seq<Event>, n: nat, at: real)
    requires 1 <= n && n as real <= Found(l, es, at)
    ensures Found(l, es + Calls(n - 1, at), at) >= 1.0
  {
    Drain(l, es, n - 1, at);
  }

  lemma SweepAdmitsNone(l: Limits, es: seq<Event>, sweep: Event, until: real)
    requires sweep.Sweep?
    ensures Admitted(l, es + [sweep], until) == Admitted(l, es, until)
  {
    assert Init(es + [sweep]) == es;
    assert Log(l, es) + [] == Log(l, es);
  }

  /** `n` calls at once, and one more when the fraction left over has grown to a token. */
  function Bucketful(n: nat, at: real, wait: real): seq<Event> {
    Calls(n, at) + [Call(at + wait, "")]
  }

  lemma RefilledToOne(l: Limits, n: nat, found: real, after: real, at: real, t: real, wait: real)
    requires n as real <= l.burst == found && 1 <= n && t == at + wait && wait * l.rate == 1.0 - (l.burst - n as real)
    requires after == Min(l.burst, found - n as real + (t - at) * l.rate)
    ensures after == 1.0
  {
    var elapsed := t - at;
    assert elapsed == wait;
    assert after == Min(l.burst, found - n as real + elapsed * l.rate);
  }

  lemma WaitedForOne(l: Limits, es: seq<Event>, n: nat, at: real, wait: real)
    requires Found(l, es, at) == l.burst && 1 <= n && n as real <= l.burst
    requires wait * l.rate == 1.0 - (l.burst - n as real)
    ensures Found(l, es + Calls(n, at), at + wait) == 1.0
  {
    var t := at + wait;
    DrainThenWait(l, es, n, at, t);
    RefilledToOne(l, n, Found(l, es, at), Found(l, es + Calls(n, at), t), at, t, wait);
  }

  /** A full bucket gives `n` + 1 calls, the whole tokens and one more for the wait. */
  lemma BucketfulAdmitted(l: Limits, es: seq<Event>, n: nat, at: real, wait: real, until: real)
    requires Found(l, es, at) == l.burst && 1 <= n && n as real <= l.burst
    requires wait * l.rate == 1.0 - (l.burst - n as real)
    requires 0.0 <= at && 0.0 <= wait && at + wait <= until
    ensures Admitted(l, es + Bucketful(n, at, wait), until) == Admitted(l, es, until) + n + 1
  {
    ManyMore(l, es, n, at, until);
    WaitedForOne(l, es, n, at, wait);
    OneMore(l, es + Calls(n, at), at + wait, until);
    Regroup(es, Calls(n, at), [Call(at + wait, "")]);
  }

  // ---- Two buckets around one sweep --------------------------------------------------------

  lemma BreaksBound(l: Limits, maxIdle: real, es: seq<Event>, until: real)
    requires Timely(es) && SweptAt(es, maxIdle) && 0.0 <= until
    requires !Within(Admitted(l, es, until), l, 0.0, until)
    ensures !Bounded(l, maxIdle)
  {
  }

  /** A drained key, swept after `idle`, and drained again. */
  function TwoBuckets(n: nat, wait: real, idle: real, maxIdle: real): seq<Event> {
    Bucketful(n, 0.0, wait) + [Sweep(wait + idle, maxIdle)] + Bucketful(n, wait + idle, wait)
  }

  lemma TwoBucketsTimely(n: nat, wait: real, idle: real, maxIdle: real)
    requires 0.0 <= wait && 0.0 <= idle
    ensures Timely(TwoBuckets(n, wait, idle, maxIdle)) && SweptAt(TwoBuckets(n, wait, idle, maxIdle), maxIdle)
  {
  }

  lemma TwoBucketsAdmitted(l: Limits, n: nat, wait: real, idle: real, maxIdle: real)
    requires 1 <= n && n as real <= l.burst && wait * l.rate == 1.0 - (l.burst - n as real)
    requires 0.0 <= wait && 0.0 <= maxIdle < idle
    ensures Admitted(l, TwoBuckets(n, wait, idle, maxIdle), wait + idle + wait) == 2 * (n + 1)
  {
    var first, sweep, until := Bucketful(n, 0.0, wait), Sweep(wait + idle, maxIdle), wait + idle + wait;
    FirstBucket(l, n, wait, until);
    assert Last(first) == Call(wait, "");
    SweepForgets(l, first, wait, wait + idle, maxIdle);
    SweepAdmitsNone(l, first, sweep, until);
    BucketfulAdmitted(l, first + [sweep], n, wait + idle, wait, until);
  }

  lemma FirstBucket(l: Limits, n: nat, wait: real, until: real)
    requires 1 <= n && n as real <= l.burst && wait * l.rate == 1.0 - (l.burst - n as real) && 0.0 <= wait <= until
    ensures Admitted(l, Bucketful(n, 0.0, wait), until) == n + 1
  {
    BucketfulAdmitted(l, [], n, 0.0, wait, until);
    assert [] + Bucketful(n, 0.0, wait) == Bucketful(n, 0.0, wait);
  }

  /** What refills over the run pays for less than was admitted. */
  lemma TwoBucketsTooMany(l: Limits, n: nat, wait: real, idle: real)
    requires wait * l.rate == 1.0 - (l.burst - n as real) && idle * l.rate < l.burst
    ensures !Within(2 * (n + 1), l, 0.0, wait + idle + wait)
  {
    var length := wait + idle + wait;
    assert l.rate * length == wait * l.rate + idle * l.rate + wait * l.rate;
    assert length - 0.0 == length;
  }

  lemma BrokenWithRefill(l: Limits, maxIdle: real)
    requires l.rate > 0.0 && l.burst >= 1.0 && maxIdle >= 0.0 && l.rate * maxIdle < l.burst
    ensures !Bounded(l, maxIdle)
  {
    var n := l.burst.Floor;
    var idle := HalfRefilled(l.rate, l.burst, maxIdle);
    var wait := TimeForOne(l.burst, l.rate, n);
    TwoBucketsTimely(n, wait, idle, maxIdle);
    TwoBucketsAdmitted(l, n, wait, idle, maxIdle);
    TwoBucketsTooMany(l, n, wait, idle);
    BreaksBound(l, maxIdle, TwoBuckets(n, wait, idle, maxIdle), wait + idle + wait);
  }

  /** Without refill the whole tokens alone, taken twice, are too many. */
  lemma BrokenWithoutRefill(l: Limits, maxIdle: real)
    requires l.rate == 0.0 && l.burst >= 1.0 && maxIdle >= 0.0
    ensures !Bounded(l, maxIdle)
  {
    var n, at := l.burst.Floor, maxIdle + 1.0;
    TwiceAdmitted(l, n, at, maxIdle);
    NoRefill(at, l.rate);
    TwiceTooMany(l, n, at);
    TwiceTimely(n, at, maxIdle);
    BreaksBound(l, maxIdle, Calls(n, 0.0) + [Sweep(at, maxIdle)] + Calls(n, at), at);
  }

  lemma TwiceAdmitted(l: Limits, n: nat, at: real, maxIdle: real)
    requires 1 <= n && n as real <= l.burst && 0.0 <= maxIdle < at
    ensures Admitted(l, Calls(n, 0.0) + [Sweep(at, maxIdle)] + Calls(n, at), at) == 2 * n
  {
    var first, sweep := Calls(n, 0.0), Sweep(at, maxIdle);
    assert [] + first == first;
    ManyMore(l, [], n, 0.0, at);
    SweepForgets(l, first, 0.0, at, maxIdle);
    SweepAdmitsNone(l, first, sweep, at);
    ManyMore(l, first + [sweep], n, at, at);
  }

  lemma TwiceTimely(n: nat, at: real, maxIdle: real)
    requires 0.0 <= at
    ensures var es := Calls(n, 0.0) + [Sweep(at, maxIdle)] + Calls(n, at); Timely(es) && SweptAt(es, maxIdle)
  {
  }

  lemma TwiceTooMany(l: Limits, n: nat, at: real)
    requires 1 <= n && l.burst < n as real + 1.0 && at * l.rate == 0.0
    ensures !Within(2 * n, l, 0.0, at)
  {
    assert l.rate * (at - 0.0) == at * l.rate;
  }

  /**
   * The window bound holds of every key, in every window and under every schedule of sweeps, if and only
   * if the burst is below one token or no more than what refills over the idle limit.
   */
  lemma BoundedIff(l: Limits, maxIdle: real)
    requires l.rate >= 0.0 && maxIdle >= 0.0
    ensures Bounded(l, maxIdle) <==> HarmlessSweep(l, maxIdle)
  {
    if HarmlessSweep(l, maxIdle) {
      forall es, key, t1, t2 | Timely(es) && SweptAt(es, maxIdle) && t1 <= t2
        ensures Within(Passed(Log(l, es), key, t1, t2), l, t1, t2)
      {
        WindowBound(l, es, maxIdle, key, t1, t2);
      }
    } else if l.rate == 0.0 {
      BrokenWithoutRefill(l, maxIdle);
    } else {
      BrokenWithRefill(l, maxIdle);
    }
  }
}
