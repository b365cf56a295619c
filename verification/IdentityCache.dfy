/**
 * internal/auth/introspect.go and internal/auth/domain.go: short-lived caches in front of Identity,
 * swept on every store.
 */
module IdentityCaches {
  import opened Options
  import opened Strings

  /** cacheTTL, in seconds. */
  const CACHE_TTL := 30.0

  /** What Identity says: a definitive answer, or nothing because it cannot be reached. */
  datatype Reply<+V> = Unavailable | Definite(answer: V)

  datatype Entry<+V> = Entry(answer: V, exp: real)

  type Cache<V> = map<string, Entry<V>>

  function Hit<V>(c: Cache<V>, key: string, now: real): Option<V> {
    if key in c && now < c[key].exp then Some(c[key].answer) else None
  }

  function Swept<V>(c: Cache<V>, now: real): Cache<V> {
    map key | key in c && now <= c[key].exp :: c[key]
  }

  function Stored<V>(c: Cache<V>, key: string, v: V, now: real): Cache<V> {
    Swept(c, now)[key := Entry(v, now + CACHE_TTL)]
  }

  /** The loop that drops what has expired. */
  method Sweep<V>(c: Cache<V>, now: real) returns (left: Cache<V>)
    ensures left == Swept(c, now)
  {
    left := c;
    var todo := c.Keys;
    while todo != {}
      invariant todo <= c.Keys
      invariant forall key :: key in left <==> key in c && (key in todo || now <= c[key].exp)
      invariant forall key :: key in left ==> left[key] == c[key]
      decreases todo
    {
      var key :| key in todo;
      if now > c[key].exp {
        left := left - {key};
      }
      todo := todo - {key};
    }
  }

  /** The answers introspection caches: an identity, or one of the two refusals. */
  datatype Introspection<+I> = Resolved(identity: I) | InvalidToken | MembershipRevoked

  /** What introspection is asked about. */
  datatype Query = Device(tokenHash: string, actingUser: string) | Platform(token: string)

  function QueryKey(q: Query): string {
    match q
    case Device(tokenHash, actingUser) => tokenHash + "|" + actingUser
    case Platform(token) => "platform|" + token
  }

  predicate IsHex(s: string) {
    forall i :: 0 <= i < |s| ==> '0' <= s[i] <= '9' || 'a' <= s[i] <= 'f'
  }

  /** The hash is a SHA-256 digest printed in hexadecimal. */
  predicate Hashed(q: Query) {
    q.Device? ==> IsHex(q.tokenHash)
  }

  /** The two key spaces share one map and never collide. */
  lemma QueryKeysDistinct(a: Query, b: Query)
    requires Hashed(a) && Hashed(b) && QueryKey(a) == QueryKey(b)
    ensures a == b
  {
    var (ha, ua) := if a.Device? then (a.tokenHash, a.actingUser) else ("platform", a.token);
    var (hb, ub) := if b.Device? then (b.tokenHash, b.actingUser) else ("platform", b.token);
    assert "platform|" == "platform" + ['|'];
    assert QueryKey(a) == ha + ['|'] + ua && QueryKey(b) == hb + ['|'] + ub;
    CutAt(ha, '|', ua);
    CutAt(hb, '|', ub);
    assert !IsHex("platform") by {
      assert "platform"[0] == 'p';
    }
  }

  function Normalized(hostname: string): string {
    ToLower(TrimSpace(hostname))
  }

  /** Each hostname is outer white space around a core, and the cores are equal up to ASCII letter case. */
  ghost predicate SameHost(a: string, b: string) {
    exists c, d :: CoreOf(a, c, White) && CoreOf(b, d, White) && SameLetters(c, d)
  }

  /** Two hostnames share a cache key exactly if they are the same host. */
  lemma NormalizedIff(a: string, b: string)
    ensures Normalized(a) == Normalized(b) <==> SameHost(a, b)
  {
    TrimSpaceIsCore(a);
    TrimSpaceIsCore(b);
    ToLowerIff(TrimSpace(a), TrimSpace(b));
    if c, d :| CoreOf(a, c, White) && CoreOf(b, d, White) && SameLetters(c, d) {
      CoreUnique(a, c, TrimSpace(a), White);
      CoreUnique(b, d, TrimSpace(b), White);
    }
  }

  /** One cache key's whole exchange, when nobody else touches the cache meanwhile. */
  function Exchanged<V>(c: Cache<V>, key: string, lookupAt: real, fetched: Reply<V>, storeAt: real): (Reply<V>, Cache<V>) {
    match Hit(c, key, lookupAt)
    case Some(v) => (Definite(v), c)
    case None => (fetched, if fetched.Definite? then Stored(c, key, fetched.answer, storeAt) else c)
  }

  class Introspector<I> {
    var cache: Cache<Introspection<I>>

    constructor ()
      ensures cache == map[]
    {
      cache := map[];
    }

    /** Resolve and ResolvePlatform: `fetched` is what Identity would answer to this very query. */
    method Resolve(q: Query, lookupAt: real, fetched: Reply<Introspection<I>>, storeAt: real)
      returns (reply: Reply<Introspection<I>>)
      modifies this
      ensures (reply, cache) == Exchanged(old(cache), QueryKey(q), lookupAt, fetched, storeAt)
    {
      var key := QueryKey(q);
      if key in cache && lookupAt < cache[key].exp {
        return Definite(cache[key].answer);
      }
      if fetched.Definite? {
        var left := Sweep(cache, storeAt);
        cache := left[key := Entry(fetched.answer, storeAt + CACHE_TTL)];
      }
      return fetched;
    }
  }

  /** The answers the domain resolver caches: a resolved domain, or that nobody claimed it. */
  datatype Resolution<+D> = Claimed(domain: D) | DomainNotFound

  class DomainResolver<D> {
    var cache: Cache<Resolution<D>>

    constructor ()
      ensures cache == map[]
    {
      cache := map[];
    }

    method Resolve(hostname: string, lookupAt: real, fetched: Reply<Resolution<D>>, storeAt: real)
      returns (reply: Reply<Resolution<D>>)
      modifies this
      ensures (reply, cache) == Exchanged(old(cache), Normalized(hostname), lookupAt, fetched, storeAt)
    {
      var key := Normalized(hostname);
      if key in cache && lookupAt < cache[key].exp {
        return Definite(cache[key].answer);
      }
      if fetched.Definite? {
        var left := Sweep(cache, storeAt);
        cache := left[key := Entry(fetched.answer, storeAt + CACHE_TTL)];
      }
      return fetched;
    }
  }
}
