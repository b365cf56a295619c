/** internal/protection/ratelimiter.go: a token bucket per key, refilled by elapsed time. */
module TokenBucket {
  import opened Options

  /** Refill rate in tokens per second, and the most a bucket can hold. */
  datatype Limits = Limits(rate: real, burst: real)

  /** One key's entry: what `tokens` and `lastSeen` hold for it. Times are in seconds. */
  datatype Bucket = Bucket(tokens: real, last: real)

  type Store = map<string, Bucket>

  function Min(a: real, b: real): real {
    if a < b then a else b
  }

  /** What a call at `now` finds in the bucket, before it takes anything. */
  function Level(l: Limits, b: Option<Bucket>, now: real): real {
    match b
    case None => l.burst
    case Some(b) => Min(l.burst, b.tokens + (now - b.last) * l.rate)
  }

  function Admits(l: Limits, s: Store, key: string, now: real): bool {
    Level(l, Find(s, key), now) >= 1.0
  }

  function Charged(l: Limits, s: Store, key: string, now: real): Store {
    var level := Level(l, Find(s, key), now);
    s[key := Bucket(if level >= 1.0 then level - 1.0 else level, now)]
  }

  function Evicted(s: Store, cutoff: real): Store {
    map key | key in s && s[key].last >= cutoff :: s[key]
  }

  class RateLimiter {
    var tokens: map<string, real>
    var lastSeen: map<string, real>
    const limits: Limits

    ghost predicate Valid()
      reads this
    {
      tokens.Keys == lastSeen.Keys
    }

    ghost function Buckets(): Store
      requires Valid()
      reads this
    {
      map key | key in tokens :: Bucket(tokens[key], lastSeen[key])
    }

    constructor (ratePerSec: real, burst: real)
      ensures Valid() && Buckets() == map[] && limits == Limits(ratePerSec, burst)
    {
      tokens := map[];
      lastSeen := map[];
      limits := Limits(ratePerSec, burst);
    }

    method Allow(now: real, key: string) returns (ok: bool)
      requires Valid()
      modifies this
      ensures Valid()
      ensures ok == Admits(limits, old(Buckets()), key, now)
      ensures Buckets() == Charged(limits, old(Buckets()), key, now)
    {
      ghost var before := Buckets();
      ghost var level := Level(limits, Find(before, key), now);
      if key !in lastSeen {
        tokens := tokens[key := limits.burst];
        lastSeen := lastSeen[key := now];
      } else {
        var elapsed := now - lastSeen[key];
        tokens := tokens[key := Min(limits.burst, tokens[key] + elapsed * limits.rate)];
        lastSeen := lastSeen[key := now];
      }
      assert tokens == old(tokens)[key := level] && lastSeen == old(lastSeen)[key := now];
      ok := tokens[key] >= 1.0;
      if ok {
        tokens := tokens[key := tokens[key] - 1.0];
      }
      assert Buckets() == before[key := Bucket(if level >= 1.0 then level - 1.0 else level, now)];
    }

    /** A peek for the dashboard: what was left after the last call, not what a call would find. */
    method Tokens(key: string) returns (left: real)
      requires Valid()
      ensures left == match Find(Buckets(), key) case None => limits.burst case Some(b) => b.tokens
    {
      if key in tokens {
        return tokens[key];
      }
      return limits.burst;
    }

    method EvictIdle(now: real, maxIdle: real)
      requires Valid()
      modifies this
      ensures Valid()
      ensures Buckets() == Evicted(old(Buckets()), now - maxIdle)
    {
      var cutoff := now - maxIdle;
      var todo := lastSeen.Keys;
      while todo != {}
        invariant Valid()
        invariant todo <= lastSeen.Keys
        invariant forall key :: key in tokens <==> key in old(tokens) && (key in todo || old(lastSeen)[key] >= cutoff)
        invariant forall key :: key in tokens ==> tokens[key] == old(tokens)[key] && lastSeen[key] == old(lastSeen)[key]
        decreases todo
      {
        var key :| key in todo;
        if lastSeen[key] < cutoff {
          lastSeen := lastSeen - {key};
          tokens := tokens - {key};
        }
        todo := todo - {key};
      }
    }
  }

  /** What happens to one limiter: calls to Allow and calls to EvictIdle, in lock order. */
  datatype Event = Call(at: real, key: string) | Sweep(at: real, maxIdle: real)

  /** One answer given by Allow. */
  datatype Verdict = Verdict(at: real, key: string, ok: bool)

  function Apply(l: Limits, s: Store, e: Event): Store {
    match e
    case Call(at, key) => Charged(l, s, key, at)
    case Sweep(at, maxIdle) => Evicted(s, at - maxIdle)
  }

  /** The buckets of a new limiter after the events. */
  function Run(l: Limits, es: seq<Event>): Store {
    if es == [] then map[] else Apply(l, Run(l, Init(es)), Last(es))
  }

  function Answer(l: Limits, s: Store, e: Event): seq<Verdict> {
    match e
    case Call(at, key) => [Verdict(at, key, Admits(l, s, key, at))]
    case Sweep(_, _) => []
  }

  /** Every answer a new limiter gives over the events, in order. */
  function Log(l: Limits, es: seq<Event>): seq<Verdict> {
    if es == [] then [] else Log(l, Init(es)) + Answer(l, Run(l, Init(es)), Last(es))
  }

  ghost predicate Timely(es: seq<Event>) {
    forall i, j :: 0 <= i <= j < |es| ==> es[i].at <= es[j].at
  }

  ghost predicate SweepFree(es: seq<Event>) {
    forall i :: 0 <= i < |es| ==> es[i].Call?
  }

  /** Tokens spent on `key` by the answers from index `from` on. */
  function Spent(g: seq<Verdict>, from: nat, key: string): nat {
    if |g| <= from then 0
    else Spent(Init(g), from, key) + if Last(g).key == key && Last(g).ok then 1 else 0
  }

  /** Calls on `key` admitted at a time in [t1, t2]. */
  function Passed(g: seq<Verdict>, key: string, t1: real, t2: real): nat {
    if g == [] then 0
    else Passed(Init(g), key, t1, t2)
         + if Last(g).key == key && Last(g).ok && t1 <= Last(g).at <= t2 then 1 else 0
  }

  /** What the window from answer `i` to `now` still leaves for `key`. */
  function Allowance(l: Limits, g: seq<Verdict>, i: nat, key: string, now: real): real
    requires i < |g|
  {
    l.burst + l.rate * (now - g[i].at) - Spent(g, i, key) as real
  }

  /** `n` admissions are no more than a full bucket and what [t1, t2] refills. */
  predicate Within(n: nat, l: Limits, t1: real, t2: real) {
    n > 0 ==> n as real <= l.burst + l.rate * (t2 - t1)
  }
}
