/**
 * The caches in front of Identity under concurrent callers: lookup, fetch and store are separate
 * steps of each caller, and any number of callers interleave.
 */
module IdentityCacheLaws {
  import opened Options
  import opened IdentityCaches

  datatype Stage<+V> = Started | Missed | Fetched(reply: Reply<V>, at: real) | Done(reply: Reply<V>)

  datatype Caller<+Q, +V> = Caller(q: Q, stage: Stage<V>)

  /** Identity's reply `reply` to the query `q`, given at `at`. */
  datatype Said<+Q, +V> = Said(q: Q, reply: Reply<V>, at: real)

  /** A store of `v` for `q` at `at`, from a reply given at `saidAt`. */
  datatype Put<+Q, +V> = Put(q: Q, v: V, at: real, saidAt: real)

  /** A lookup at `at` that was answered from the cache. */
  datatype Served<+Q, +V> = Served(q: Q, v: V, at: real)

  datatype System<Q, V> = System(
    cache: Cache<V>,
    callers: map<nat, Caller<Q, V>>,
    said: seq<Said<Q, V>>,
    puts: seq<Put<Q, V>>,
    served: seq<Served<Q, V>>)

  datatype Step<+Q, +V> =
    | Begin(who: nat, q: Q, at: real)
    | Lookup(who: nat, at: real)
    | Fetch(who: nat, reply: Reply<V>, at: real)
    | Store(who: nat, at: real)

  /** One step of one caller; a step out of turn does nothing. */
  function Do<Q, V>(key: Q -> string, s: System<Q, V>, step: Step<Q, V>): System<Q, V> {
    match step
    case Begin(who, q, _) =>
      if who in s.callers then s else s.(callers := s.callers[who := Caller(q, Started)])
    case Lookup(who, at) =>
      if who in s.callers && s.callers[who].stage.Started? then
        var q := s.callers[who].q;
        match Hit(s.cache, key(q), at)
        case Some(v) => s.(callers := s.callers[who := Caller(q, Done(Definite(v)))], served := s.served + [Served(q, v, at)])
        case None => s.(callers := s.callers[who := Caller(q, Missed)])
      else s
    case Fetch(who, reply, at) =>
      if who in s.callers && s.callers[who].stage.Missed? then
        var q := s.callers[who].q;
        s.(callers := s.callers[who := Caller(q, Fetched(reply, at))], said := s.said + [Said(q, reply, at)])
      else s
    case Store(who, at) =>
      if who in s.callers && s.callers[who].stage.Fetched? then
        var (q, reply) := (s.callers[who].q, s.callers[who].stage.reply);
        var done := s.(callers := s.callers[who := Caller(q, Done(reply))]);
        match reply
        case Unavailable => done
        case Definite(v) =>
          done.(cache := Stored(s.cache, key(q), v, at), puts := s.puts + [Put(q, v, at, s.callers[who].stage.at)])
      else s
  }

  function Exec<Q, V>(key: Q -> string, steps: seq<Step<Q, V>>): System<Q, V> {
    if steps == [] then System(map[], map[], [], [], []) else Do(key, Exec(key, Init(steps)), Last(steps))
  }

  ghost predicate Timely<Q, V>(steps: seq<Step<Q, V>>) {
    forall i, j :: 0 <= i <= j < |steps| ==> steps[i].at <= steps[j].at
  }

  // ---- The cache as its plain history ------------------------------------------------------

  /** The last value put under `k`, if it was put less than the time to live before `now`. */
  function Recent<Q, V>(key: Q -> string, puts: seq<Put<Q, V>>, k: string, now: real): Option<V> {
    if puts == [] then None
    else if key(Last(puts).q) == k then if now < Last(puts).at + CACHE_TTL then Some(Last(puts).v) else None
    else Recent(key, Init(puts), k, now)
  }

  /** From `now` on, the cache answers as the history of puts does; sweeping has changed nothing. */
  ghost predicate AnswersAsHistory<Q, V>(key: Q -> string, c: Cache<V>, puts: seq<Put<Q, V>>, now: real) {
    forall k, t :: now <= t ==> Hit(c, k, t) == Recent(key, puts, k, t)
  }

  lemma PutAnswersAsHistory<Q, V>(key: Q -> string, c: Cache<V>, puts: seq<Put<Q, V>>, p: Put<Q, V>, now: real)
    requires AnswersAsHistory(key, c, puts, now) && now <= p.at
    ensures AnswersAsHistory(key, Stored(c, key(p.q), p.v, p.at), puts + [p], p.at)
  {
    forall k, t | p.at <= t
      ensures Hit(Stored(c, key(p.q), p.v, p.at), k, t) == Recent(key, puts + [p], k, t)
    {
      assert Init(puts + [p]) == puts;
      assert Hit(c, k, t) == Recent(key, puts, k, t);
    }
  }

  ghost predicate PutFresh<Q, V>(p: Put<Q, V>, v: V, t: real) {
    p.v == v && p.at <= t < p.at + CACHE_TTL
  }

  lemma {:induction false} RecentIsAPut<Q, V>(key: Q -> string, puts: seq<Put<Q, V>>, k: string, t: real) returns (i: nat)
    requires Recent(key, puts, k, t).Some?
    requires forall j :: 0 <= j < |puts| ==> puts[j].at <= t
    ensures i < |puts| && key(puts[i].q) == k && PutFresh(puts[i], Recent(key, puts, k, t).value, t)
  {
    if key(Last(puts).q) == k {
      i := |puts| - 1;
    } else {
      i := RecentIsAPut(key, Init(puts), k, t);
    }
  }

  // ---- Every run ---------------------------------------------------------------------------

  /** The put answers a query with the same key, and Identity said just that to the query it was put for. */
  ghost predicate Backs<Q, V>(key: Q -> string, s: System<Q, V>, p: Put<Q, V>, r: Served<Q, V>) {
    && key(p.q) == key(r.q)
    && PutFresh(p, r.v, r.at)
    && p.saidAt <= p.at
    && Said(p.q, Definite(p.v), p.saidAt) in s.said
  }

  ghost predicate Backed<Q, V>(key: Q -> string, s: System<Q, V>, r: Served<Q, V>) {
    exists p :: p in s.puts && Backs(key, s, p, r)
  }

  ghost predicate AllBacked<Q, V>(key: Q -> string, s: System<Q, V>) {
    forall r :: r in s.served ==> Backed(key, s, r)
  }

  ghost predicate Sound<Q, V>(key: Q -> string, s: System<Q, V>, now: real) {
    && AnswersAsHistory(key, s.cache, s.puts, now)
    && (forall who :: who in s.callers && s.callers[who].stage.Fetched? ==>
          && s.callers[who].stage.at <= now
          && Said(s.callers[who].q, s.callers[who].stage.reply, s.callers[who].stage.at) in s.said)
    && (forall p :: p in s.puts ==> p.saidAt <= p.at <= now && Said(p.q, Definite(p.v), p.saidAt) in s.said)
    && AllBacked(key, s)
  }

  lemma GrowthKeepsBacking<Q, V>(key: Q -> string, s: System<Q, V>, s': System<Q, V>)
    requires s.puts <= s'.puts && s.said <= s'.said
    requires AllBacked(key, s)
    ensures forall r :: r in s.served ==> Backed(key, s', r)
  {
    forall r | r in s.served
      ensures Backed(key, s', r)
    {
      assert Backed(key, s, r);
      var p :| p in s.puts && Backs(key, s, p, r);
      assert p in s'.puts && Backs(key, s', p, r);
    }
  }

  lemma LookupStaysSound<Q, V>(key: Q -> string, s: System<Q, V>, step: Step<Q, V>, now: real)
    requires Sound(key, s, now) && now <= step.at && step.Lookup?
    ensures Sound(key, Do(key, s, step), step.at)
  {
    var s' := Do(key, s, step);
    GrowthKeepsBacking(key, s, s');
    if s'.served != s.served {
      var r := Last(s'.served);
      assert s'.served == s.served + [r];
      assert forall j :: 0 <= j < |s.puts| ==> s.puts[j] in s.puts;
      var j := RecentIsAPut(key, s.puts, key(r.q), step.at);
      assert s.puts[j] in s.puts && Backs(key, s', s.puts[j], r);
    }
  }

  lemma StoreStaysSound<Q, V>(key: Q -> string, s: System<Q, V>, step: Step<Q, V>, now: real)
    requires Sound(key, s, now) && now <= step.at && step.Store?
    ensures Sound(key, Do(key, s, step), step.at)
  {
    var s' := Do(key, s, step);
    GrowthKeepsBacking(key, s, s');
    if s'.puts != s.puts {
      PutAnswersAsHistory(key, s.cache, s.puts, Last(s'.puts), now);
    }
  }

  lemma StepStaysSound<Q, V>(key: Q -> string, s: System<Q, V>, step: Step<Q, V>, now: real)
    requires Sound(key, s, now) && now <= step.at
    ensures Sound(key, Do(key, s, step), step.at)
  {
    match step
    case Begin(_, _, _) => GrowthKeepsBacking(key, s, Do(key, s, step));
    case Lookup(_, _) => LookupStaysSound(key, s, step, now);
    case Fetch(_, _, _) => GrowthKeepsBacking(key, s, Do(key, s, step));
    case Store(_, _) => StoreStaysSound(key, s, step, now);
  }

  lemma {:induction false} EveryRunSound<Q, V>(key: Q -> string, steps: seq<Step<Q, V>>, now: real)
    requires Timely(steps) && (steps != [] ==> Last(steps).at == now)
    ensures Sound(key, Exec(key, steps), now)
  {
    if steps != [] {
      var past := Init(steps);
      assert Timely(past);
      var before := if past == [] then now else Last(past).at;
      EveryRunSound(key, past, before);
      StepStaysSound(key, Exec(key, past), Last(steps), before);
    }
  }

  /** In every interleaving a lookup hits exactly when the last store under its key is younger than the time to live. */
  lemma HitIffRecentlyStored<Q, V>(key: Q -> string, steps: seq<Step<Q, V>>, k: string, now: real)
    requires Timely(steps) && (steps != [] ==> Last(steps).at <= now)
    ensures Hit(Exec(key, steps).cache, k, now) == Recent(key, Exec(key, steps).puts, k, now)
  {
    EveryRunSound(key, steps, if steps == [] then now else Last(steps).at);
  }

  /**
   * In every interleaving, what the introspection cache serves at t was stored at some c with
   * c <= t < c + 30 s, and Identity gave it for exactly this token hash and acting user, or
   * exactly this platform token.
   */
  lemma IntrospectionFresh<V>(steps: seq<Step<Query, V>>, i: nat)
    requires Timely(steps) && forall j :: 0 <= j < |steps| && steps[j].Begin? ==> Hashed(steps[j].q)
    requires i < |Exec(QueryKey, steps).served|
    ensures var (s, r) := (Exec(QueryKey, steps), Exec(QueryKey, steps).served[i]);
            exists p :: p in s.puts && p.q == r.q && p.v == r.v && p.at <= r.at < p.at + 30.0 && Said(r.q, Definite(r.v), p.saidAt) in s.said
  {
    var s := Exec(QueryKey, steps);
    EveryRunSound(QueryKey, steps, if steps == [] then 0.0 else Last(steps).at);
    var r := s.served[i];
    assert Backed(QueryKey, s, r);
    var p :| p in s.puts && Backs(QueryKey, s, p, r);
    QueriesHashed(steps);
    QueryKeysDistinct(p.q, r.q);
  }

  ghost predicate AllHashed<V>(s: System<Query, V>) {
    && (forall who :: who in s.callers ==> Hashed(s.callers[who].q))
    && (forall p :: p in s.puts ==> Hashed(p.q))
    && (forall r :: r in s.served ==> Hashed(r.q))
  }

  lemma StepKeepsHashed<V>(s: System<Query, V>, step: Step<Query, V>)
    requires AllHashed(s) && (step.Begin? ==> Hashed(step.q))
    ensures AllHashed(Do(QueryKey, s, step))
  {
  }

  lemma {:induction false} QueriesHashed<V>(steps: seq<Step<Query, V>>)
    requires forall j :: 0 <= j < |steps| && steps[j].Begin? ==> Hashed(steps[j].q)
    ensures AllHashed(Exec(QueryKey, steps))
  {
    if steps != [] {
      assert Last(steps) == steps[|steps| - 1];
      QueriesHashed(Init(steps));
      StepKeepsHashed(Exec(QueryKey, Init(steps)), Last(steps));
    }
  }

  /**
   * The same for the domain cache: what is served for a hostname was stored for one that differs in outer
   * white space and letter case at most, and Identity had given it for that.
   */
  lemma DomainFresh<V>(steps: seq<Step<string, V>>, i: nat)
    requires Timely(steps) && i < |Exec(Normalized, steps).served|
    ensures var (s, r) := (Exec(Normalized, steps), Exec(Normalized, steps).served[i]);
            exists p :: p in s.puts && SameHost(p.q, r.q) && p.v == r.v && p.at <= r.at < p.at + 30.0
                        && Said(p.q, Definite(r.v), p.saidAt) in s.said
  {
    var s := Exec(Normalized, steps);
    EveryRunSound(Normalized, steps, if steps == [] then 0.0 else Last(steps).at);
    var r := s.served[i];
    assert Backed(Normalized, s, r);
    var p :| p in s.puts && Backs(Normalized, s, p, r);
    NormalizedIff(p.q, r.q);
  }

  // ---- How old the reply itself may be -----------------------------------------------------

  /** An answer served from the cache is less than the time to live older than its store, and its store as late as it may be. */
  lemma ServedReplyAge<Q, V>(key: Q -> string, steps: seq<Step<Q, V>>, i: nat, delay: real)
    requires Timely(steps) && i < |Exec(key, steps).served|
    requires forall p :: p in Exec(key, steps).puts ==> p.at <= p.saidAt + delay
    ensures var (s, r) := (Exec(key, steps), Exec(key, steps).served[i]);
            exists p :: p in s.puts && key(p.q) == key(r.q) && Said(p.q, Definite(r.v), p.saidAt) in s.said
                        && p.saidAt <= r.at < p.saidAt + delay + CACHE_TTL
  {
    var s := Exec(key, steps);
    EveryRunSound(key, steps, if steps == [] then 0.0 else Last(steps).at);
    assert Backed(key, s, s.served[i]);
  }

  /** Every store comes at most `delay` after the reply it stores. */
  ghost predicate Prompt<Q, V>(puts: seq<Put<Q, V>>, delay: real) {
    forall p :: p in puts ==> p.at <= p.saidAt + delay
  }

  /** Some put that backs the served answer has a reply behind it younger than the time to live. */
  ghost predicate Young<Q, V>(key: Q -> string, s: System<Q, V>, r: Served<Q, V>) {
    exists p :: p in s.puts && Backs(key, s, p, r) && r.at < p.saidAt + CACHE_TTL
  }

  /** Callers who store within `delay` of the reply are never served a reply as old as the time to live. */
  ghost predicate RepliesStayYoung<Q(!new), V(!new)>(key: Q -> string, delay: real) {
    forall steps: seq<Step<Q, V>> :: Timely(steps) && Prompt(Exec(key, steps).puts, delay) ==>
      forall r :: r in Exec(key, steps).served ==> Young(key, Exec(key, steps), r)
  }

  /** One caller is told at 0 and stores at `lag`; another looks up at 30. */
  function LateStore<Q, V>(q: Q, v: V, lag: real): seq<Step<Q, V>> {
    [Begin(0, q, 0.0), Begin(1, q, 0.0), Lookup(0, 0.0), Fetch(0, Definite(v), 0.0), Store(0, lag), Lookup(1, CACHE_TTL)]
  }

  lemma LateMissed<Q, V>(key: Q -> string, q: Q, v: V, lag: real)
    ensures var s := Exec(key, LateStore(q, v, lag)[..3]);
            && s.cache == map[] && s.puts == [] && s.served == []
            && s.callers == map[0 := Caller(q, Missed), 1 := Caller(q, Started)]
  {
    var steps := LateStore(q, v, lag);
    ExecPrefix(key, steps, 0);
    ExecPrefix(key, steps, 1);
    ExecPrefix(key, steps, 2);
  }

  lemma LateStored<Q, V>(key: Q -> string, q: Q, v: V, lag: real)
    ensures var s := Exec(key, LateStore(q, v, lag)[..5]);
            && s.cache == map[key(q) := Entry(v, lag + CACHE_TTL)] && s.puts == [Put(q, v, lag, 0.0)] && s.served == []
            && 1 in s.callers && s.callers[1] == Caller(q, Started)
  {
    var steps := LateStore(q, v, lag);
    LateMissed(key, q, v, lag);
    ExecPrefix(key, steps, 3);
    ExecPrefix(key, steps, 4);
  }

  lemma LateStoreServesOld<Q, V>(key: Q -> string, q: Q, v: V, lag: real)
    requires 0.0 < lag <= CACHE_TTL
    ensures var s := Exec(key, LateStore(q, v, lag));
            Timely(LateStore(q, v, lag)) && s.puts == [Put(q, v, lag, 0.0)] && s.served == [Served(q, v, CACHE_TTL)]
  {
    var steps := LateStore(q, v, lag);
    LateStored(key, q, v, lag);
    ExecPrefix(key, steps, 5);
    assert steps[..6] == steps;
  }

  /**
   * The thirty seconds hold of the reply itself, in every run whose stores lag replies by at most `delay`,
   * if and only if there is no delay at all.
   */
  lemma RepliesStayYoungIff<Q(!new), V(!new)>(key: Q -> string, q: Q, v: V, delay: real)
    ensures RepliesStayYoung<Q, V>(key, delay) <==> delay <= 0.0
  {
    if delay <= 0.0 {
      forall steps: seq<Step<Q, V>> | Timely(steps) && Prompt(Exec(key, steps).puts, delay)
        ensures forall r :: r in Exec(key, steps).served ==> Young(key, Exec(key, steps), r)
      {
        forall r | r in Exec(key, steps).served
          ensures Young(key, Exec(key, steps), r)
        {
          EveryRunSound(key, steps, if steps == [] then 0.0 else Last(steps).at);
          assert Backed(key, Exec(key, steps), r);
        }
      }
    } else {
      var lag := if delay < CACHE_TTL then delay else CACHE_TTL;
      LateStoreServesOld(key, q, v, lag);
      var s := Exec(key, LateStore(q, v, lag));
      assert Served(q, v, CACHE_TTL) in s.served && !Young(key, s, Served(q, v, CACHE_TTL));
    }
  }

  const ASKED := Device("ab", "u")

  /** Two callers miss; the first is told "valid" and the second "revoked"; the second stores first; a third looks up. */
  const SLOW_STORE: seq<Step<Query, bool>> :=
    [Begin(0, ASKED, 0.0), Begin(1, ASKED, 0.0), Begin(2, ASKED, 0.0), Lookup(0, 0.0), Lookup(1, 0.0),
     Fetch(0, Definite(true), 0.0), Fetch(1, Definite(false), 1.0), Store(1, 2.0), Store(0, 3.0), Lookup(2, 32.0)]

  const BOTH_SAID: seq<Said<Query, bool>> := [Said(ASKED, Definite(true), 0.0), Said(ASKED, Definite(false), 1.0)]

  lemma AllBegin()
    ensures Exec(QueryKey, SLOW_STORE[..3])
            == System(map[], map[0 := Caller(ASKED, Started), 1 := Caller(ASKED, Started), 2 := Caller(ASKED, Started)], [], [], [])
  {
    ExecPrefix(QueryKey, SLOW_STORE, 0);
    ExecPrefix(QueryKey, SLOW_STORE, 1);
    ExecPrefix(QueryKey, SLOW_STORE, 2);
  }

  lemma BothMiss()
    ensures Exec(QueryKey, SLOW_STORE[..5])
            == System(map[], map[0 := Caller(ASKED, Missed), 1 := Caller(ASKED, Missed), 2 := Caller(ASKED, Started)], [], [], [])
  {
    AllBegin();
    ExecPrefix(QueryKey, SLOW_STORE, 3);
    ExecPrefix(QueryKey, SLOW_STORE, 4);
  }

  lemma BothAreTold()
    ensures var s := Exec(QueryKey, SLOW_STORE[..7]);
            && s.cache == map[] && s.served == [] && s.said == BOTH_SAID
            && s.callers == map[0 := Caller(ASKED, Fetched(Definite(true), 0.0)),
                                1 := Caller(ASKED, Fetched(Definite(false), 1.0)), 2 := Caller(ASKED, Started)]
  {
    BothMiss();
    ExecPrefix(QueryKey, SLOW_STORE, 5);
    ExecPrefix(QueryKey, SLOW_STORE, 6);
  }

  lemma StoreOverwrites<V>(c: Cache<V>, k: string, old_: V, oldAt: real, new_: V, newAt: real)
    requires c == map[k := Entry(old_, oldAt + CACHE_TTL)] && newAt <= oldAt + CACHE_TTL
    ensures Stored(c, k, new_, newAt) == map[k := Entry(new_, newAt + CACHE_TTL)]
  {
  }

  lemma BothStore()
    ensures var s := Exec(QueryKey, SLOW_STORE[..9]);
            && s.cache == map[QueryKey(ASKED) := Entry(true, 33.0)] && s.served == [] && s.said == BOTH_SAID
            && 2 in s.callers && s.callers[2] == Caller(ASKED, Started)
  {
    BothAreTold();
    ExecPrefix(QueryKey, SLOW_STORE, 7);
    var s := Exec(QueryKey, SLOW_STORE[..8]);
    assert s.cache == map[QueryKey(ASKED) := Entry(false, 32.0)];
    ExecPrefix(QueryKey, SLOW_STORE, 8);
    StoreOverwrites(s.cache, QueryKey(ASKED), false, 2.0, true, 3.0);
  }

  /**
   * The time to live counts from the store, not from Identity's reply: a slow caller stores an answer
   * over a newer one, and the revoked session is still served more than 30 s after Identity revoked it.
   */
  lemma RevocationMayOutliveTtl()
    ensures Timely(SLOW_STORE)
    ensures var s := Exec(QueryKey, SLOW_STORE);
            s.served == [Served(ASKED, true, 32.0)] && Said(ASKED, Definite(false), 1.0) in s.said
  {
    BothStore();
    ExecPrefix(QueryKey, SLOW_STORE, 9);
    assert SLOW_STORE[..10] == SLOW_STORE;
    assert BOTH_SAID[1] == Said(ASKED, Definite(false), 1.0);
  }

  lemma ExecPrefix<Q, V>(key: Q -> string, steps: seq<Step<Q, V>>, n: nat)
    requires n < |steps|
    ensures Exec(key, steps[..n + 1]) == Do(key, Exec(key, steps[..n]), steps[n])
  {
    assert Init(steps[..n + 1]) == steps[..n];
  }
}
