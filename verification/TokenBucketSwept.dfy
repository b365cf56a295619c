/** The exact token law of every run, sweeps included: windows count from the last sweep that found the key idle. */
module TokenBucketSwept {
  import opened Options
  import opened TokenBucket
  import opened TokenBucketLaws
  import TBE = TokenBucketEviction

  /** No call on the key at `cutoff` or later. */
  ghost predicate Idle(g: seq<Verdict>, key: string, cutoff: real) {
    forall i :: 0 <= i < |g| && g[i].key == key ==> g[i].at < cutoff
  }

  /** How many answers had been given when a sweep last found the key idle, or none. */
  ghost function Restart(l: Limits, es: seq<Event>, key: string): nat {
    if es == [] then 0
    else
      match Last(es)
      case Call(_, _) => Restart(l, Init(es), key)
      case Sweep(at, maxIdle) =>
        var g := Log(l, Init(es));
        if Idle(g, key, at - maxIdle) then |g| else Restart(l, Init(es), key)
  }

  /** The allowance of every window opened by a call on `key` from answer number `from` on. */
  ghost function WindowsSince(l: Limits, g: seq<Verdict>, key: string, now: real, from: nat): (xs: seq<real>)
    ensures |xs| == |g|
  {
    seq(|g|, i requires 0 <= i < |g| => if i >= from && g[i].key == key then Allowance(l, g, i, key, now) else l.burst)
  }

  lemma {:induction false} RestartInLog(l: Limits, es: seq<Event>, key: string)
    ensures Restart(l, es, key) <= |Log(l, es)|
  {
    if es != [] {
      RestartInLog(l, Init(es), key);
    }
  }

  // ---- The bucket remembers the key's last call --------------------------------------------

  lemma {:induction false} LogIsPast(l: Limits, es: seq<Event>)
    requires Timely(es) && es != []
    ensures forall i :: 0 <= i < |Log(l, es)| ==> Log(l, es)[i].at <= Last(es).at
  {
    var past, e := Init(es), Last(es);
    assert es == past + [e] && e == es[|es| - 1];
    TBE.TimelyPrefix(es);
    if past != [] {
      LogIsPast(l, past);
    }
  }

  ghost predicate Remembers(s: Store, g: seq<Verdict>, key: string) {
    key in s ==>
      && (forall i :: 0 <= i < |g| && g[i].key == key ==> g[i].at <= s[key].last)
      && exists i :: 0 <= i < |g| && g[i].key == key && g[i].at == s[key].last
  }

  lemma RemembersCall(l: Limits, s: Store, g: seq<Verdict>, v: Verdict, key: string)
    requires Remembers(s, g, key) && forall i :: 0 <= i < |g| ==> g[i].at <= v.at
    ensures Remembers(Charged(l, s, v.key, v.at), g + [v], key)
  {
    var s', g' := Charged(l, s, v.key, v.at), g + [v];
    if v.key == key {
      assert g'[|g|] == v && s'[key].last == v.at;
    } else if key in s {
      var i :| 0 <= i < |g| && g[i].key == key && g[i].at == s[key].last;
      assert g'[i] == g[i];
    }
  }

  lemma {:induction false} AlwaysRemembers(l: Limits, es: seq<Event>, key: string)
    requires Timely(es)
    ensures Remembers(Run(l, es), Log(l, es), key)
  {
    if es != [] {
      var past, e := Init(es), Last(es);
      var s, g := Run(l, past), Log(l, past);
      assert es == past + [e] && e == es[|es| - 1];
      TBE.TimelyPrefix(es);
      AlwaysRemembers(l, past, key);
      if past != [] {
        LogIsPast(l, past);
      }
      if e.Call? {
        RemembersCall(l, s, g, Verdict(e.at, e.key, Admits(l, s, e.key, e.at)), key);
      } else {
        assert Log(l, es) == g;
      }
    }
  }

  // ---- One event ---------------------------------------------------------------------------

  lemma OtherKeyKeeps(l: Limits, g: seq<Verdict>, v: Verdict, key: string, now: real, from: nat)
    requires v.key != key
    ensures WindowsSince(l, g + [v], key, now, from) == WindowsSince(l, g, key, now, from) + [l.burst]
  {
    forall i | 0 <= i < |g| {
      AllowanceAppend(l, g, v, i, key, now);
    }
  }

  lemma SameKeyTightens(l: Limits, g: seq<Verdict>, v: Verdict, now: real, level: real, from: nat)
    requires from <= |g| && IsLeast(level, l.burst, WindowsSince(l, g, v.key, v.at, from))
    ensures var shift := l.rate * (now - v.at) - if v.ok then 1.0 else 0.0;
            IsLeast(Min(l.burst, level + shift), l.burst, WindowsSince(l, g + [v], v.key, now, from))
  {
    var shift := l.rate * (now - v.at) - if v.ok then 1.0 else 0.0;
    var xs, ys := WindowsSince(l, g, v.key, v.at, from), WindowsSince(l, g + [v], v.key, now, from);
    forall i | 0 <= i < |g|
      ensures (ys[i] == l.burst && xs[i] == l.burst) || ys[i] == xs[i] + shift
    {
      AllowanceAppend(l, g, v, i, v.key, now);
    }
    NewWindow(l, g, v, now);
    LeastAfterShift(level, l.burst, xs, ys, shift);
  }

  /** A sweep that finds the key idle makes it new; any other leaves its bucket alone. */
  lemma SweepRestarts(l: Limits, s: Store, g: seq<Verdict>, key: string, cutoff: real)
    requires Remembers(s, g, key)
    ensures Find(Evicted(s, cutoff), key) == if Idle(g, key, cutoff) then None else Find(s, key)
  {
    if key in s && Idle(g, key, cutoff) {
      var i :| 0 <= i < |g| && g[i].key == key && g[i].at == s[key].last;
    }
  }

  lemma NoWindows(l: Limits, g: seq<Verdict>, key: string, now: real)
    ensures IsLeast(l.burst, l.burst, WindowsSince(l, g, key, now, |g|))
  {
  }

  // ---- The law -----------------------------------------------------------------------------

  /** What a call finds is the tightest window over the key's calls since a sweep last found it idle. */
  lemma {:induction false} SweptTokenLaw(l: Limits, es: seq<Event>, key: string, now: real)
    requires Timely(es)
    ensures IsLeast(Level(l, Find(Run(l, es), key), now), l.burst, WindowsSince(l, Log(l, es), key, now, Restart(l, es, key)))
  {
    if es != [] {
      var past, e := Init(es), Last(es);
      TBE.TimelyPrefix(es);
      if e.Sweep? {
        SweptStep(l, es, key, now);
        if !Idle(Log(l, past), key, e.at - e.maxIdle) {
          SweptTokenLaw(l, past, key, now);
        }
      } else if e.key == key {
        SweptTokenLaw(l, past, key, e.at);
        CallStep(l, es, now);
      } else {
        SweptTokenLaw(l, past, key, now);
        OtherStep(l, es, key, now);
      }
    }
  }

  lemma SweptStep(l: Limits, es: seq<Event>, key: string, now: real)
    requires Timely(es) && es != [] && Last(es).Sweep?
    ensures var (past, e) := (Init(es), Last(es));
            && Log(l, es) == Log(l, past)
            && if Idle(Log(l, past), key, e.at - e.maxIdle)
               then IsLeast(Level(l, Find(Run(l, es), key), now), l.burst,
                            WindowsSince(l, Log(l, es), key, now, Restart(l, es, key)))
               else Find(Run(l, es), key) == Find(Run(l, past), key) && Restart(l, es, key) == Restart(l, past, key)
  {
    var past, e := Init(es), Last(es);
    TBE.TimelyPrefix(es);
    AlwaysRemembers(l, past, key);
    SweepRestarts(l, Run(l, past), Log(l, past), key, e.at - e.maxIdle);
    NoWindows(l, Log(l, past), key, now);
    assert Log(l, past) + [] == Log(l, past);
  }

  lemma CallStep(l: Limits, es: seq<Event>, now: real)
    requires es != [] && Last(es).Call?
    requires var (past, e) := (Init(es), Last(es));
             IsLeast(Level(l, Find(Run(l, past), e.key), e.at), l.burst,
                     WindowsSince(l, Log(l, past), e.key, e.at, Restart(l, past, e.key)))
    ensures var key := Last(es).key;
            IsLeast(Level(l, Find(Run(l, es), key), now), l.burst, WindowsSince(l, Log(l, es), key, now, Restart(l, es, key)))
  {
    var past, e := Init(es), Last(es);
    var s, g := Run(l, past), Log(l, past);
    var v := Verdict(e.at, e.key, Admits(l, s, e.key, e.at));
    RestartInLog(l, past, e.key);
    CallTightens(l, s, g, v, now, Restart(l, past, e.key));
    Unfolds(l, es, v);
  }

  lemma CallTightens(l: Limits, s: Store, g: seq<Verdict>, v: Verdict, now: real, from: nat)
    requires from <= |g| && v.ok == Admits(l, s, v.key, v.at)
    requires IsLeast(Level(l, Find(s, v.key), v.at), l.burst, WindowsSince(l, g, v.key, v.at, from))
    ensures IsLeast(Level(l, Find(Charged(l, s, v.key, v.at), v.key), now), l.burst, WindowsSince(l, g + [v], v.key, now, from))
  {
    SameKeyTightens(l, g, v, now, Level(l, Find(s, v.key), v.at), from);
    LevelAfterCall(l, s, v, now);
  }

  lemma Unfolds(l: Limits, es: seq<Event>, v: Verdict)
    requires es != [] && Last(es) == Call(v.at, v.key) && v.ok == Admits(l, Run(l, Init(es)), v.key, v.at)
    ensures Run(l, es) == Charged(l, Run(l, Init(es)), v.key, v.at) && Log(l, es) == Log(l, Init(es)) + [v]
    ensures Restart(l, es, v.key) == Restart(l, Init(es), v.key)
  {
  }

  lemma OtherStep(l: Limits, es: seq<Event>, key: string, now: real)
    requires es != [] && Last(es).Call? && Last(es).key != key
    requires var past := Init(es);
             IsLeast(Level(l, Find(Run(l, past), key), now), l.burst,
                     WindowsSince(l, Log(l, past), key, now, Restart(l, past, key)))
    ensures IsLeast(Level(l, Find(Run(l, es), key), now), l.burst, WindowsSince(l, Log(l, es), key, now, Restart(l, es, key)))
  {
    var past, e := Init(es), Last(es);
    var s := Run(l, past);
    OtherKeyKeeps(l, Log(l, past), Verdict(e.at, e.key, Admits(l, s, e.key, e.at)), key, now, Restart(l, past, key));
    assert Find(Run(l, es), key) == Find(s, key);
  }

  /** A call is refused exactly when, since a sweep last found the key idle, some window ending now has less than a token left. */
  lemma RefusedIffSpent(l: Limits, es: seq<Event>, key: string, now: real)
    requires Timely(es)
    ensures !Admits(l, Run(l, es), key, now)
            <==> LacksToken(l.burst, WindowsSince(l, Log(l, es), key, now, Restart(l, es, key)))
  {
    SweptTokenLaw(l, es, key, now);
    LeastBelowOne(Level(l, Find(Run(l, es), key), now), l.burst, WindowsSince(l, Log(l, es), key, now, Restart(l, es, key)));
  }

  /** Without sweeps, since ever. */
  lemma {:induction false} NeverRestarts(l: Limits, es: seq<Event>, key: string, now: real)
    requires SweepFree(es)
    ensures Restart(l, es, key) == 0
    ensures WindowsSince(l, Log(l, es), key, now, 0) == Windows(l, Log(l, es), key, now)
  {
    if es != [] {
      assert Last(es) == es[|es| - 1] && SweepFree(Init(es));
      NeverRestarts(l, Init(es), key, now);
    }
  }
}
