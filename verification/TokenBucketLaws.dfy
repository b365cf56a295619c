/** What a run of the token bucket guarantees, for every limit, key, window and sweep schedule. */
module TokenBucketLaws {
  import opened Options
  import opened TokenBucket

  /** `level` is the least of `burst` and `xs`. */
  ghost predicate IsLeast(level: real, burst: real, xs: seq<real>) {
    && level <= burst
    && (forall i :: 0 <= i < |xs| ==> level <= xs[i])
    && (level == burst || level in xs)
  }

  /** The allowance of every window opened by a call on `key`; other keys' calls open none. */
  ghost function Windows(l: Limits, g: seq<Verdict>, key: string, now: real): (xs: seq<real>)
    ensures |xs| == |g|
  {
    seq(|g|, i requires 0 <= i < |g| => if g[i].key == key then Allowance(l, g, i, key, now) else l.burst)
  }

  lemma LeastAfterShift(level: real, burst: real, xs: seq<real>, ys: seq<real>, shift: real)
    requires IsLeast(level, burst, xs)
    requires |ys| == |xs| + 1 && Last(ys) == burst + shift
    requires forall i :: 0 <= i < |xs| ==> (ys[i] == burst && xs[i] == burst) || ys[i] == xs[i] + shift
    ensures IsLeast(Min(burst, level + shift), burst, ys)
  {
    if Min(burst, level + shift) != burst && level != burst {
      var i :| 0 <= i < |xs| && xs[i] == level;
      assert ys[i] == level + shift;
    }
  }

  lemma SpentAppend(g: seq<Verdict>, v: Verdict, from: nat, key: string)
    requires from <= |g|
    ensures Spent(g + [v], from, key) == Spent(g, from, key) + if v.key == key && v.ok then 1 else 0
  {
    assert Init(g + [v]) == g;
  }

  lemma Shift(rate: real, a: real, b: real, c: real)
    ensures rate * (c - a) == rate * (c - b) + rate * (b - a)
  {
  }

  lemma AllowanceAppend(l: Limits, g: seq<Verdict>, v: Verdict, i: nat, key: string, now: real)
    requires i < |g|
    ensures v.key == key ==> Allowance(l, g + [v], i, key, now)
                             == Allowance(l, g, i, key, v.at) + l.rate * (now - v.at) - if v.ok then 1.0 else 0.0
    ensures v.key != key ==> Allowance(l, g + [v], i, key, now) == Allowance(l, g, i, key, now)
  {
    SpentAppend(g, v, i, key);
    Shift(l.rate, g[i].at, v.at, now);
  }

  /** The answers of calls on other keys open no window and spend nothing. */
  lemma OtherKeyKeepsWindows(l: Limits, g: seq<Verdict>, v: Verdict, key: string, now: real)
    requires v.key != key
    ensures Windows(l, g + [v], key, now) == Windows(l, g, key, now) + [l.burst]
  {
    forall i | 0 <= i < |g| {
      AllowanceAppend(l, g, v, i, key, now);
    }
  }

  lemma NewWindow(l: Limits, g: seq<Verdict>, v: Verdict, now: real)
    ensures Allowance(l, g + [v], |g|, v.key, now) == l.burst + (l.rate * (now - v.at) - if v.ok then 1.0 else 0.0)
  {
    SpentAppend(g, v, |g|, v.key);
    assert (g + [v])[|g|] == v;
  }

  /** A call on `key` opens its own window and charges the earlier ones. */
  lemma SameKeyTightensWindows(l: Limits, g: seq<Verdict>, v: Verdict, now: real, level: real)
    requires IsLeast(level, l.burst, Windows(l, g, v.key, v.at))
    ensures var shift := l.rate * (now - v.at) - if v.ok then 1.0 else 0.0;
            IsLeast(Min(l.burst, level + shift), l.burst, Windows(l, g + [v], v.key, now))
  {
    var shift := l.rate * (now - v.at) - if v.ok then 1.0 else 0.0;
    var xs, ys := Windows(l, g, v.key, v.at), Windows(l, g + [v], v.key, now);
    forall i | 0 <= i < |g|
      ensures (ys[i] == l.burst && xs[i] == l.burst) || ys[i] == xs[i] + shift
    {
      AllowanceAppend(l, g, v, i, v.key, now);
    }
    NewWindow(l, g, v, now);
    LeastAfterShift(level, l.burst, xs, ys, shift);
  }

  lemma LevelAfterCall(l: Limits, s: Store, v: Verdict, now: real)
    requires v.ok == Admits(l, s, v.key, v.at)
    ensures Level(l, Find(Charged(l, s, v.key, v.at), v.key), now)
            == Min(l.burst, Level(l, Find(s, v.key), v.at) + (l.rate * (now - v.at) - if v.ok then 1.0 else 0.0))
  {
    var left := Level(l, Find(s, v.key), v.at) - if v.ok then 1.0 else 0.0;
    assert Find(Charged(l, s, v.key, v.at), v.key) == Some(Bucket(left, v.at));
    Grown(l, left, v.at, now);
  }

  lemma Grown(l: Limits, left: real, at: real, now: real)
    ensures Level(l, Some(Bucket(left, at)), now) == Min(l.burst, left + l.rate * (now - at))
  {
    var elapsed := now - at;
    assert elapsed * l.rate == l.rate * elapsed;
  }

  /** The exact token law: what a call finds is the tightest window over the key's own past calls. */
  lemma {:induction false} ExactTokenLaw(l: Limits, es: seq<Event>, key: string, now: real)
    requires SweepFree(es)
    ensures IsLeast(Level(l, Find(Run(l, es), key), now), l.burst, Windows(l, Log(l, es), key, now))
  {
    if es != [] {
      var e, past := Last(es), Init(es);
      var s, g := Run(l, past), Log(l, past);
      assert e == es[|es| - 1] && e.Call? && SweepFree(past);
      var v := Verdict(e.at, e.key, Admits(l, s, e.key, e.at));
      if e.key == key {
        ExactTokenLaw(l, past, key, e.at);
        SameKeyTightensWindows(l, g, v, now, Level(l, Find(s, key), e.at));
        LevelAfterCall(l, s, v, now);
      } else {
        ExactTokenLaw(l, past, key, now);
        OtherKeyKeepsWindows(l, g, v, key, now);
        assert Find(Run(l, es), key) == Find(s, key);
      }
    }
  }

  ghost predicate LacksToken(burst: real, xs: seq<real>) {
    burst < 1.0 || exists i :: 0 <= i < |xs| && xs[i] < 1.0
  }

  lemma LeastBelowOne(level: real, burst: real, xs: seq<real>)
    requires IsLeast(level, burst, xs)
    ensures level < 1.0 <==> LacksToken(burst, xs)
  {
  }

  /** A call is refused exactly when the bucket is smaller than a token or some window ending now has less than one left. */
  lemma RefusedIffWindowExhausted(l: Limits, es: seq<Event>, key: string, now: real)
    requires SweepFree(es)
    ensures !Admits(l, Run(l, es), key, now) <==> LacksToken(l.burst, Windows(l, Log(l, es), key, now))
  {
    ExactTokenLaw(l, es, key, now);
    LeastBelowOne(Level(l, Find(Run(l, es), key), now), l.burst, Windows(l, Log(l, es), key, now));
  }

  lemma {:induction false} FirstInWindow(g: seq<Verdict>, key: string, t1: real, t2: real) returns (i: nat)
    requires Passed(g, key, t1, t2) > 0
    ensures i < |g| && g[i].key == key && t1 <= g[i].at
    ensures Passed(g, key, t1, t2) <= Spent(g, i, key)
  {
    var past := Init(g);
    if Passed(past, key, t1, t2) == 0 {
      i := |past|;
    } else {
      i := FirstInWindow(past, key, t1, t2);
    }
  }

  lemma MulMonotone(rate: real, a: real, b: real)
    requires rate >= 0.0 && a <= b
    ensures rate * a <= rate * b
  {
  }

  lemma MulNonNegative(rate: real, a: real)
    requires rate >= 0.0 && a >= 0.0
    ensures rate * a >= 0.0
  {
  }

  lemma Room(passed: nat, spent: nat, burst: real, shorter: real, longer: real)
    requires passed <= spent && shorter <= longer
    requires 1.0 <= burst + shorter - spent as real
    ensures (passed + 1) as real <= burst + longer
  {
  }

  lemma LeastIsBelow(level: real, burst: real, xs: seq<real>, i: nat)
    requires IsLeast(level, burst, xs) && i < |xs|
    ensures level <= burst && level <= xs[i]
  {
  }

  /** The window from `i` opens at or after t1, so it has earned no more than [t1, t2]. */
  lemma Earned(l: Limits, g: seq<Verdict>, key: string, at: real, i: nat, t1: real, t2: real) returns (earned: real)
    requires l.rate >= 0.0 && t1 <= at <= t2 && i < |g| && g[i].key == key && t1 <= g[i].at
    ensures earned <= l.rate * (t2 - t1)
    ensures Windows(l, g, key, at)[i] == l.burst + earned - Spent(g, i, key) as real
  {
    earned := l.rate * (at - g[i].at);
    MulMonotone(l.rate, at - g[i].at, t2 - t1);
  }

  /** One more admitted call still fits the window. */
  lemma OneMoreFits(l: Limits, g: seq<Verdict>, key: string, at: real, level: real, t1: real, t2: real)
    requires IsLeast(level, l.burst, Windows(l, g, key, at)) && level >= 1.0
    requires l.rate >= 0.0 && t1 <= at <= t2
    ensures (Passed(g, key, t1, t2) + 1) as real <= l.burst + l.rate * (t2 - t1)
  {
    var longer := l.rate * (t2 - t1);
    MulNonNegative(l.rate, t2 - t1);
    if Passed(g, key, t1, t2) == 0 {
      Room(0, 0, l.burst, 0.0, longer);
    } else {
      var i := FirstInWindow(g, key, t1, t2);
      var earned := Earned(l, g, key, at, i, t1, t2);
      LeastIsBelow(level, l.burst, Windows(l, g, key, at), i);
      Room(Passed(g, key, t1, t2), Spent(g, i, key), l.burst, earned, longer);
    }
  }

  /** No window [t1, t2] admits more than burst + rate * (t2 - t1) calls on one key. */
  lemma {:induction false} WindowBoundUnswept(l: Limits, es: seq<Event>, key: string, t1: real, t2: real)
    requires SweepFree(es) && l.rate >= 0.0 && t1 <= t2
    ensures Within(Passed(Log(l, es), key, t1, t2), l, t1, t2)
  {
    if es != [] {
      var e, past := Last(es), Init(es);
      assert e == es[|es| - 1] && e.Call? && SweepFree(past);
      WindowBoundUnswept(l, past, key, t1, t2);
      assert Init(Log(l, es)) == Log(l, past);
      if e.key == key && Admits(l, Run(l, past), key, e.at) && t1 <= e.at <= t2 {
        ExactTokenLaw(l, past, key, e.at);
        OneMoreFits(l, Log(l, past), key, e.at, Level(l, Find(Run(l, past), key), e.at), t1, t2);
      }
    }
  }
}
