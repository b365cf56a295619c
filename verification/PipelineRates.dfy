/** What the two rate layers let through, in every interleaving. */
module PipelineRates {
  import opened Options
  import opened Dispatchers
  import opened ControlPlane
  import opened Pipeline
  import opened PipelineInvariants
  import TB = TokenBucket
  import TBL = TokenBucketLaws
  import TBE = TokenBucketEviction

  // ---- Limiters are what their histories make them -----------------------------------------

  ghost predicate Sound(l: Limiter, maxIdle: real, now: real) {
    && l.buckets == TB.Run(l.limits, l.events)
    && |l.callers| == |TB.Log(l.limits, l.events)|
    && TB.Timely(l.events) && (l.events != [] ==> Last(l.events).at <= now)
    && TBE.SweptAt(l.events, maxIdle)
    && (!l.perTenant ==> TB.SweepFree(l.events))
  }

  lemma TouchedSound(l: Limiter, e: TB.Event, callers: seq<nat>, maxIdle: real, now: real)
    requires Sound(l, maxIdle, now) && now <= e.at
    requires if e.Call? then |callers| == 1 else callers == [] && l.perTenant && e.maxIdle == maxIdle
    ensures Sound(Touched(l, e, callers), maxIdle, e.at)
    ensures TB.Log(l.limits, l.events + [e]) == TB.Log(l.limits, l.events) + TB.Answer(l.limits, l.buckets, e)
  {
    var es := l.events + [e];
    assert Init(es) == l.events && Last(es) == e;
    assert forall i :: 0 <= i < |l.events| ==> l.events[i].at <= l.events[|l.events| - 1].at;
  }

  lemma SoundLater(l: Limiter, maxIdle: real, now: real, later: real)
    requires Sound(l, maxIdle, now) && now <= later
    ensures Sound(l, maxIdle, later)
  {
  }

  /** What a step asks of a limiter, and for which request. */
  function LimiterCall(cfg: Config, s: State, step: Step): Option<(nat, TB.Event, seq<nat>)> {
    match step
    case Advance(who, _, at) =>
      if who !in s.requests then None
      else
        var meter := Metering(s, s.requests[who]);
        if meter.Some? then Some((meter.value.0, TB.Call(at, meter.value.1), [who])) else None
    case Sweep(k, at) =>
      if k < |s.limiters| && s.limiters[k].perTenant then Some((k, TB.Sweep(at, cfg.maxIdle), [])) else None
    case _ => None
  }

  predicate Unused(l: Limiter) {
    l.buckets == map[] && l.events == [] && l.callers == []
  }

  lemma SharedLimiters(cfg: Config, s: State, who: nat, at: real)
    requires who in s.requests
    ensures Shared(cfg, s, who, at).limiters == Metered(s, who, Metering(s, s.requests[who]), at).limiters
  {
    var r := s.requests[who];
    if !r.stage.Limited? && !r.stage.InBudget? {
      assert Metering(s, r) == None;
    }
  }

  lemma NextLimiters(cfg: Config, s: State, step: Step)
    ensures var t := Next(cfg, s, step).limiters;
            if step.Register? then
              && |t| == |s.limiters| + 2 && t[..|s.limiters|] == s.limiters
              && Unused(t[|s.limiters|]) && !t[|s.limiters|].perTenant
              && Unused(t[|s.limiters| + 1]) && t[|s.limiters| + 1].perTenant
              && t[|s.limiters|].owner == t[|s.limiters| + 1].owner == PluginID(step.m.name, step.tag)
            else match LimiterCall(cfg, s, step)
              case None => t == s.limiters
              case Some((k, e, callers)) =>
                k < |s.limiters| && t == s.limiters[k := Touched(s.limiters[k], e, callers)]
  {
    if step.Advance? && step.who in s.requests {
      SharedLimiters(cfg, s, step.who, step.at);
    }
  }

  /** Limiters are only ever added and used: kind and limits of an old one stay. */
  lemma LimitersStay(cfg: Config, s: State, step: Step, k: nat)
    requires k < |s.limiters|
    ensures var t := Next(cfg, s, step).limiters;
            && k < |t| && t[k].limits == s.limiters[k].limits
            && t[k].perTenant == s.limiters[k].perTenant && t[k].owner == s.limiters[k].owner
  {
    NextLimiters(cfg, s, step);
    if step.Register? {
      assert Next(cfg, s, step).limiters[..|s.limiters|][k] == s.limiters[k];
    }
  }

  lemma NextSound(cfg: Config, s: State, step: Step, k: nat, now: real)
    requires k < |s.limiters| ==> Sound(s.limiters[k], cfg.maxIdle, now)
    requires now <= step.at
    ensures var t := Next(cfg, s, step).limiters; k < |t| ==> Sound(t[k], cfg.maxIdle, step.at)
  {
    var t := Next(cfg, s, step).limiters;
    NextLimiters(cfg, s, step);
    if k < |s.limiters| {
      SoundLater(s.limiters[k], cfg.maxIdle, now, step.at);
      assert step.Register? ==> t[..|s.limiters|][k] == s.limiters[k];
      match LimiterCall(cfg, s, step)
      case Some((n, e, callers)) =>
        if n == k {
          TouchedSound(s.limiters[k], e, callers, cfg.maxIdle, now);
        }
      case None =>
    }
  }

  lemma {:induction false} EveryLimiterSound(cfg: Config, steps: seq<Step>, k: nat, now: real)
    requires Timely(steps) && (steps != [] ==> Last(steps).at <= now)
    ensures var ls := Exec(cfg, steps).limiters; k < |ls| ==> Sound(ls[k], cfg.maxIdle, now)
  {
    if steps != [] {
      var at := Last(steps).at;
      TimelyInit(steps);
      EveryLimiterSound(cfg, Init(steps), k, at);
      NextSound(cfg, Exec(cfg, Init(steps)), Last(steps), k, at);
      if k < |Exec(cfg, steps).limiters| {
        SoundLater(Exec(cfg, steps).limiters[k], cfg.maxIdle, at, now);
      }
    }
  }

  // ---- References to limiters are good ------------------------------------------------------

  /** A reference to an existing limiter of the wanted kind, made for the plugin ID. */
  predicate Names(ls: seq<Limiter>, ref: Option<nat>, perTenant: bool, id: string) {
    ref.Some? ==> ref.value < |ls| && ls[ref.value].perTenant == perTenant && ls[ref.value].owner == id
  }

  ghost predicate MapsGood(s: State) {
    && (forall id :: Names(s.limiters, Find(s.core.pluginRL, id), false, id))
    && (forall id :: Names(s.limiters, Find(s.core.tenantRL, id), true, id))
  }

  predicate StageGood(ls: seq<Limiter>, stage: Stage) {
    match stage
    case Limited(e, rl, trl) => Names(ls, rl, false, e.pluginID) && Names(ls, trl, true, e.pluginID)
    case InBudget(e, trl) => Names(ls, trl, true, e.pluginID)
    case _ => true
  }

  lemma NamesStay(cfg: Config, s: State, step: Step, ref: Option<nat>, perTenant: bool, id: string)
    requires Names(s.limiters, ref, perTenant, id)
    ensures Names(Next(cfg, s, step).limiters, ref, perTenant, id)
  {
    if ref.Some? {
      LimitersStay(cfg, s, step, ref.value);
    }
  }

  /** A map lookup after a control-plane action: what it was, nothing, or the limiter the action brought. */
  lemma DoFinds(c: Core<nat>, a: Action<nat>, id: string)
    ensures var was, found := Find(c.pluginRL, id), Find(Do(c, a).pluginRL, id);
            found == was || found.None? || (a.Register? && found == Some(a.rl) && id == PluginID(a.m.name, a.tag))
    ensures var was, found := Find(c.tenantRL, id), Find(Do(c, a).tenantRL, id);
            found == was || found.None? || (a.Register? && found == a.trl && id == PluginID(a.m.name, a.tag))
  {
  }

  lemma NextMaps(cfg: Config, s: State, step: Step)
    requires MapsGood(s)
    ensures MapsGood(Next(cfg, s, step))
  {
    var t := Next(cfg, s, step);
    NextCore(cfg, s, step);
    NextLimiters(cfg, s, step);
    forall id
      ensures Names(t.limiters, Find(t.core.pluginRL, id), false, id)
      ensures Names(t.limiters, Find(t.core.tenantRL, id), true, id)
    {
      NamesStay(cfg, s, step, Find(s.core.pluginRL, id), false, id);
      NamesStay(cfg, s, step, Find(s.core.tenantRL, id), true, id);
      var a := Governing(s, step);
      if a.Some? {
        DoFinds(s.core, a.value, id);
      }
    }
  }

  lemma {:induction false} MapsAlwaysGood(cfg: Config, steps: seq<Step>)
    ensures MapsGood(Exec(cfg, steps))
  {
    if steps != [] {
      MapsAlwaysGood(cfg, Init(steps));
      NextMaps(cfg, Exec(cfg, Init(steps)), Last(steps));
    }
  }

  lemma StageGoodStays(cfg: Config, s: State, step: Step, stage: Stage)
    requires StageGood(s.limiters, stage)
    ensures StageGood(Next(cfg, s, step).limiters, stage)
  {
    match stage
    case Limited(e, rl, trl) =>
      NamesStay(cfg, s, step, rl, false, e.pluginID);
      NamesStay(cfg, s, step, trl, true, e.pluginID);
    case InBudget(e, trl) => NamesStay(cfg, s, step, trl, true, e.pluginID);
    case _ =>
  }

  lemma OnwardStageGood(cfg: Config, s: State, r: Request, result: ProxyResult, at: real)
    requires MapsGood(s) && StageGood(s.limiters, r.stage)
    ensures StageGood(s.limiters, After(cfg, s, r, result, at))
  {
  }

  lemma {:induction false} StagesAlwaysGood(cfg: Config, steps: seq<Step>, who: nat)
    ensures var s := Exec(cfg, steps); who in s.requests ==> StageGood(s.limiters, s.requests[who].stage)
  {
    if steps != [] {
      var s, step := Exec(cfg, Init(steps)), Last(steps);
      StagesAlwaysGood(cfg, Init(steps), who);
      MapsAlwaysGood(cfg, Init(steps));
      NextRequests(cfg, s, step);
      if who in s.requests {
        StageGoodStays(cfg, s, step, s.requests[who].stage);
        if step.Advance? && step.who == who {
          OnwardStageGood(cfg, s, s.requests[who], step.result, step.at);
          StageGoodStays(cfg, s, step, After(cfg, s, s.requests[who], step.result, step.at));
        }
      }
    }
  }

  // ---- Receipts ----------------------------------------------------------------------------

  /** Answer number `i` of the limiter was `v`, given to request `who`. */
  ghost predicate OnRecord(l: Limiter, i: nat, who: nat, v: TB.Verdict) {
    var g := TB.Log(l.limits, l.events);
    i < |l.callers| && l.callers[i] == who && i < |g| && g[i] == v
  }

  ghost predicate Backed(ls: seq<Limiter>, who: nat, p: Option<Pass>, perTenant: bool) {
    p.Some? ==>
      && p.value.limiter < |ls|
      && ls[p.value.limiter].perTenant == perTenant
      && OnRecord(ls[p.value.limiter], p.value.index, who, TB.Verdict(p.value.at, p.value.key, true))
  }

  lemma BackedStays(cfg: Config, s: State, step: Step, who: nat, p: Option<Pass>, perTenant: bool, now: real)
    requires Backed(s.limiters, who, p, perTenant)
    requires forall k :: 0 <= k < |s.limiters| ==> Sound(s.limiters[k], cfg.maxIdle, now)
    requires now <= step.at
    ensures Backed(Next(cfg, s, step).limiters, who, p, perTenant)
  {
    if p.Some? {
      var k := p.value.limiter;
      NextLimiters(cfg, s, step);
      LimitersStay(cfg, s, step, k);
      assert step.Register? ==> Next(cfg, s, step).limiters[..|s.limiters|][k] == s.limiters[k];
      var call := LimiterCall(cfg, s, step);
      if call.Some? && call.value.0 == k {
        TouchedSound(s.limiters[k], call.value.1, call.value.2, cfg.maxIdle, now);
      }
    }
  }

  lemma ReceiptBacked(cfg: Config, s: State, step: Step, perTenant: bool, now: real)
    requires step.Advance? && step.who in s.requests
    requires forall k :: 0 <= k < |s.limiters| ==> Sound(s.limiters[k], cfg.maxIdle, now)
    requires now <= step.at
    requires var r := s.requests[step.who];
             StageGood(s.limiters, r.stage) && if perTenant then r.stage.InBudget? else r.stage.Limited?
    ensures var r := s.requests[step.who];
            var p := Receipt(s, r, step.at, None);
            Backed(Next(cfg, s, step).limiters, step.who, p, perTenant)
  {
    var r := s.requests[step.who];
    var meter := Metering(s, r);
    if meter.Some? {
      var (k, key) := meter.value;
      NextLimiters(cfg, s, step);
      LimitersStay(cfg, s, step, k);
      TouchedSound(s.limiters[k], TB.Call(step.at, key), [step.who], cfg.maxIdle, now);
    }
  }

  lemma AllSound(cfg: Config, steps: seq<Step>, now: real)
    requires Timely(steps) && (steps != [] ==> Last(steps).at <= now)
    ensures var ls := Exec(cfg, steps).limiters; forall k :: 0 <= k < |ls| ==> Sound(ls[k], cfg.maxIdle, now)
  {
    forall k | 0 <= k < |Exec(cfg, steps).limiters|
      ensures Sound(Exec(cfg, steps).limiters[k], cfg.maxIdle, now)
    {
      EveryLimiterSound(cfg, steps, k, now);
    }
  }

  lemma NextReceipts(cfg: Config, s: State, step: Step, who: nat)
    requires forall k :: 0 <= k < |s.limiters| ==> Sound(s.limiters[k], cfg.maxIdle, step.at)
    requires who in s.requests && StageGood(s.limiters, s.requests[who].stage)
    requires Backed(s.limiters, who, s.requests[who].budget, false) && Backed(s.limiters, who, s.requests[who].share, true)
    ensures var t := Next(cfg, s, step);
            && who in t.requests
            && Backed(t.limiters, who, t.requests[who].budget, false)
            && Backed(t.limiters, who, t.requests[who].share, true)
  {
    var r := s.requests[who];
    NextRequests(cfg, s, step);
    BackedStays(cfg, s, step, who, r.budget, false, step.at);
    BackedStays(cfg, s, step, who, r.share, true, step.at);
    if step.Advance? && step.who == who {
      if r.stage.Limited? {
        ReceiptBacked(cfg, s, step, false, step.at);
      } else if r.stage.InBudget? {
        ReceiptBacked(cfg, s, step, true, step.at);
      }
    }
  }

  /** Every receipt is backed by an answer that its limiter gave, to that request, at that time. */
  lemma {:induction false} EveryReceiptBacked(cfg: Config, steps: seq<Step>, who: nat)
    requires Timely(steps)
    ensures var s := Exec(cfg, steps);
            who in s.requests ==>
              && Backed(s.limiters, who, s.requests[who].budget, false)
              && Backed(s.limiters, who, s.requests[who].share, true)
  {
    if steps != [] {
      var s, step := Exec(cfg, Init(steps)), Last(steps);
      TimelyInit(steps);
      EveryReceiptBacked(cfg, Init(steps), who);
      if who in s.requests {
        StagesAlwaysGood(cfg, Init(steps), who);
        AllSound(cfg, Init(steps), step.at);
        NextReceipts(cfg, s, step, who);
      } else {
        NextRequests(cfg, s, step);
      }
    }
  }

  // ---- Receipts are the request's own -------------------------------------------------------

  /** A request holds the entry it was routed to until it is finished. */
  predicate OnRoute(r: Request) {
    match r.stage
    case Arrived => r.route.None?
    case Finished(_) => true
    case _ => r.route == Some(r.stage.entry)
  }

  lemma {:induction false} AlwaysOnRoute(cfg: Config, steps: seq<Step>, who: nat)
    ensures var s := Exec(cfg, steps); who in s.requests ==> OnRoute(s.requests[who])
  {
    if steps != [] {
      var s, step := Exec(cfg, Init(steps)), Last(steps);
      AlwaysOnRoute(cfg, Init(steps), who);
      NextRequests(cfg, s, step);
      if step.Advance? && step.who == who && who in s.requests {
        OnwardOnRoute(cfg, s, s.requests[who], step.result, step.at);
      }
    }
  }

  lemma OnwardOnRoute(cfg: Config, s: State, r: Request, result: ProxyResult, at: real)
    requires OnRoute(r)
    ensures OnRoute(Onward(cfg, s, r, result, at))
    ensures r.route.Some? ==> Onward(cfg, s, r, result, at).route == r.route
  {
  }

  /** The limiter behind the receipt was made for the plugin of the request's route. */
  predicate MadeFor(ls: seq<Limiter>, r: Request, p: Option<Pass>) {
    p.Some? ==> r.route.Some? && p.value.limiter < |ls| && ls[p.value.limiter].owner == r.route.value.pluginID
  }

  /** A receipt is for the request's own plugin and, in the tenant layer, for its own tenant. */
  predicate OwnReceipts(ls: seq<Limiter>, r: Request) {
    && MadeFor(ls, r, r.budget) && MadeFor(ls, r, r.share)
    && (r.budget.Some? ==> r.budget.value.key == r.route.value.pluginID)
    && (r.share.Some? ==> TenantKey(r, r.route.value) == Some(r.share.value.key))
  }

  lemma OwnReceiptsStay(cfg: Config, s: State, step: Step, r: Request)
    requires OwnReceipts(s.limiters, r)
    ensures OwnReceipts(Next(cfg, s, step).limiters, r)
  {
    if r.budget.Some? {
      LimitersStay(cfg, s, step, r.budget.value.limiter);
    }
    if r.share.Some? {
      LimitersStay(cfg, s, step, r.share.value.limiter);
    }
  }

  lemma OnwardOwnReceipts(cfg: Config, s: State, r: Request, result: ProxyResult, at: real)
    requires OwnReceipts(s.limiters, r) && OnRoute(r) && StageGood(s.limiters, r.stage)
    ensures OwnReceipts(s.limiters, Onward(cfg, s, r, result, at))
  {
    OnwardOnRoute(cfg, s, r, result, at);
  }

  lemma {:induction false} ReceiptsAreOwn(cfg: Config, steps: seq<Step>, who: nat)
    ensures var s := Exec(cfg, steps); who in s.requests ==> OwnReceipts(s.limiters, s.requests[who])
  {
    if steps != [] {
      var s, step := Exec(cfg, Init(steps)), Last(steps);
      ReceiptsAreOwn(cfg, Init(steps), who);
      StagesAlwaysGood(cfg, Init(steps), who);
      AlwaysOnRoute(cfg, Init(steps), who);
      NextRequests(cfg, s, step);
      if who in s.requests {
        OwnReceiptsStay(cfg, s, step, s.requests[who]);
        if step.Advance? && step.who == who {
          OnwardOwnReceipts(cfg, s, s.requests[who], step.result, step.at);
          OwnReceiptsStay(cfg, s, step, Onward(cfg, s, s.requests[who], step.result, step.at));
        }
      }
    }
  }

  // ---- Where a limiter comes from ----------------------------------------------------------

  predicate Registers(step: Step, id: string) {
    step.Register? && PluginID(step.m.name, step.tag) == id
  }

  /** The limits a registration gives its plugin, or each of the plugin's tenants. */
  function LimitsOf(step: Step, perTenant: bool): TB.Limits
    requires step.Register?
  {
    Scale(if perTenant then step.limits.tenant else step.limits.plugin, step.m.pluginType, step.limits.overridden)
  }

  ghost predicate MadeAt(l: Limiter, steps: seq<Step>, n: nat) {
    n < |steps| && Registers(steps[n], l.owner) && l.limits == LimitsOf(steps[n], l.perTenant)
  }

  lemma NewLimiters(cfg: Config, s: State, step: Step, k: nat)
    requires step.Register? && |s.limiters| <= k < |Next(cfg, s, step).limiters|
    ensures var l := Next(cfg, s, step).limiters[k]; Registers(step, l.owner) && l.limits == LimitsOf(step, l.perTenant)
    ensures |Next(cfg, s, step).limiters| == |s.limiters| + 2 && (Next(cfg, s, step).limiters[k].perTenant <==> k > |s.limiters|)
  {
  }

  lemma {:induction false} LimiterIsMade(cfg: Config, steps: seq<Step>, k: nat) returns (n: nat)
    requires k < |Exec(cfg, steps).limiters|
    ensures MadeAt(Exec(cfg, steps).limiters[k], steps, n)
  {
    var s, step := Exec(cfg, Init(steps)), Last(steps);
    NextLimiters(cfg, s, step);
    if k < |s.limiters| {
      n := LimiterIsMade(cfg, Init(steps), k);
      LimitersStay(cfg, s, step, k);
    } else {
      n := |steps| - 1;
      NewLimiters(cfg, s, step, k);
    }
  }

  /** No ID comes up twice: a UUID is fresh. */
  ghost predicate RegisteredOnce(steps: seq<Step>, id: string) {
    forall i, j :: 0 <= i < j < |steps| ==> !(Registers(steps[i], id) && Registers(steps[j], id))
  }

  /** An ID registered once has one limiter of each kind. */
  lemma {:induction false} OneLimiterEach(cfg: Config, steps: seq<Step>, id: string, j: nat, k: nat)
    requires RegisteredOnce(steps, id)
    requires var ls := Exec(cfg, steps).limiters;
             j < k < |ls| && ls[j].owner == id == ls[k].owner
    ensures Exec(cfg, steps).limiters[j].perTenant != Exec(cfg, steps).limiters[k].perTenant
  {
    var s, step := Exec(cfg, Init(steps)), Last(steps);
    NextLimiters(cfg, s, step);
    if k < |s.limiters| {
      LimitersStay(cfg, s, step, j);
      LimitersStay(cfg, s, step, k);
      OneLimiterEach(cfg, Init(steps), id, j, k);
    } else {
      NewLimiters(cfg, s, step, k);
      if j < |s.limiters| {
        LimitersStay(cfg, s, step, j);
        var n := LimiterIsMade(cfg, Init(steps), j);
      } else {
        NewLimiters(cfg, s, step, j);
      }
    }
  }

  // ---- The bounds --------------------------------------------------------------------------

  predicate PassedIn(p: Option<Pass>, t1: real, t2: real) {
    p.Some? && t1 <= p.value.at <= t2
  }

  predicate RoutedTo(r: Request, id: string) {
    r.route.Some? && r.route.value.pluginID == id
  }

  /** The requests for a plugin that were admitted by the plugin-wide layer in [t1, t2]. */
  ghost function ThroughBudget(s: State, id: string, t1: real, t2: real): set<nat> {
    set who | who in s.requests && RoutedTo(s.requests[who], id) && PassedIn(s.requests[who].budget, t1, t2)
  }

  /** The requests of a tenant for a plugin that were admitted by the tenant layer in [t1, t2]. */
  ghost function ThroughShare(s: State, id: string, tenant: string, t1: real, t2: real): set<nat> {
    set who | who in s.requests && RoutedTo(s.requests[who], id) && PassedIn(s.requests[who].share, t1, t2)
              && s.requests[who].identity.Some? && s.requests[who].identity.value.tenantID == tenant
  }

  predicate Counts(v: TB.Verdict, key: string, t1: real, t2: real) {
    v.key == key && v.ok && t1 <= v.at <= t2
  }

  ghost predicate Served(g: seq<TB.Verdict>, callers: seq<nat>, who: nat, key: string, t1: real, t2: real) {
    exists i :: 0 <= i < |g| && i < |callers| && callers[i] == who && Counts(g[i], key, t1, t2)
  }

  /** Different requests were given different answers. */
  lemma {:induction false} ServedAtMostPassed(
    g: seq<TB.Verdict>, callers: seq<nat>, those: set<nat>, key: string, t1: real, t2: real)
    requires |callers| == |g|
    requires forall who :: who in those ==> Served(g, callers, who, key, t1, t2)
    ensures |those| <= TB.Passed(g, key, t1, t2)
  {
    if g == [] {
      assert forall who :: !Served(g, callers, who, key, t1, t2);
      assert those == {};
    } else {
      var past, last := Init(g), Last(callers);
      var rest := if Counts(Last(g), key, t1, t2) then those - {last} else those;
      forall who | who in rest
        ensures Served(past, Init(callers), who, key, t1, t2)
      {
        assert Served(g, callers, who, key, t1, t2);
        var i :| 0 <= i < |g| && callers[i] == who && Counts(g[i], key, t1, t2);
        assert past[i] == g[i] && Init(callers)[i] == who;
      }
      ServedAtMostPassed(past, Init(callers), rest, key, t1, t2);
    }
  }

  lemma FewerWithin(n: nat, m: nat, limits: TB.Limits, t1: real, t2: real)
    requires n <= m && TB.Within(m, limits, t1, t2)
    ensures TB.Within(n, limits, t1, t2)
  {
  }

  lemma PassedWithin(l: Limiter, maxIdle: real, now: real, key: string, t1: real, t2: real)
    requires Sound(l, maxIdle, now) && l.limits.rate >= 0.0 && t1 <= t2
    requires l.perTenant ==> TBE.HarmlessSweep(l.limits, maxIdle)
    ensures TB.Within(TB.Passed(TB.Log(l.limits, l.events), key, t1, t2), l.limits, t1, t2)
  {
    if l.perTenant {
      TBE.WindowBound(l.limits, l.events, maxIdle, key, t1, t2);
    } else {
      TBL.WindowBoundUnswept(l.limits, l.events, key, t1, t2);
    }
  }

  lemma SoundBound(l: Limiter, maxIdle: real, now: real, those: set<nat>, key: string, t1: real, t2: real)
    requires Sound(l, maxIdle, now) && l.limits.rate >= 0.0 && t1 <= t2
    requires l.perTenant ==> TBE.HarmlessSweep(l.limits, maxIdle)
    requires forall who :: who in those ==> Served(TB.Log(l.limits, l.events), l.callers, who, key, t1, t2)
    ensures TB.Within(|those|, l.limits, t1, t2)
  {
    var g := TB.Log(l.limits, l.events);
    ServedAtMostPassed(g, l.callers, those, key, t1, t2);
    PassedWithin(l, maxIdle, now, key, t1, t2);
    FewerWithin(|those|, TB.Passed(g, key, t1, t2), l.limits, t1, t2);
  }

  lemma BackedServed(ls: seq<Limiter>, who: nat, p: Option<Pass>, perTenant: bool, t1: real, t2: real)
    requires Backed(ls, who, p, perTenant) && PassedIn(p, t1, t2)
    ensures var l := ls[p.value.limiter]; Served(TB.Log(l.limits, l.events), l.callers, who, p.value.key, t1, t2)
  {
    assert Counts(TB.Verdict(p.value.at, p.value.key, true), p.value.key, t1, t2);
  }

  /** The requests that limiter `k` itself admitted to the plugin-wide layer in [t1, t2]. */
  ghost function FromLimiter(s: State, k: nat, t1: real, t2: real): set<nat> {
    set who | who in s.requests && PassedIn(s.requests[who].budget, t1, t2) && s.requests[who].budget.value.limiter == k
  }

  /** And those of one tenant that it admitted to the tenant layer. */
  ghost function FromLimiterFor(s: State, k: nat, tenant: string, t1: real, t2: real): set<nat> {
    set who | who in s.requests && PassedIn(s.requests[who].share, t1, t2) && s.requests[who].share.value.limiter == k
              && s.requests[who].identity.Some? && s.requests[who].identity.value.tenantID == tenant
  }

  /** One registration's limiter admits no more than its bound, and only requests for its plugin, even if an ID recurs. */
  lemma LimiterRateBound(cfg: Config, steps: seq<Step>, k: nat, t1: real, t2: real)
    requires Timely(steps) && t1 <= t2
    requires k < |Exec(cfg, steps).limiters| && Exec(cfg, steps).limiters[k].limits.rate >= 0.0
    ensures var s := Exec(cfg, steps);
            && TB.Within(|FromLimiter(s, k, t1, t2)|, s.limiters[k].limits, t1, t2)
            && forall who :: who in FromLimiter(s, k, t1, t2) ==> RoutedTo(s.requests[who], s.limiters[k].owner)
  {
    var s := Exec(cfg, steps);
    var those, l := FromLimiter(s, k, t1, t2), s.limiters[k];
    EveryLimiterSound(cfg, steps, k, Now(steps));
    forall who | who in those
      ensures Served(TB.Log(l.limits, l.events), l.callers, who, l.owner, t1, t2) && !l.perTenant
      ensures RoutedTo(s.requests[who], l.owner)
    {
      EveryReceiptBacked(cfg, steps, who);
      ReceiptsAreOwn(cfg, steps, who);
      BackedServed(s.limiters, who, s.requests[who].budget, false, t1, t2);
    }
    if those != {} {
      SoundBound(l, cfg.maxIdle, Now(steps), those, l.owner, t1, t2);
    }
  }

  lemma TenantLimiterRateBound(cfg: Config, steps: seq<Step>, k: nat, tenant: string, t1: real, t2: real)
    requires Timely(steps) && t1 <= t2
    requires k < |Exec(cfg, steps).limiters| && Exec(cfg, steps).limiters[k].limits.rate >= 0.0
    requires TBE.HarmlessSweep(Exec(cfg, steps).limiters[k].limits, cfg.maxIdle)
    ensures var s := Exec(cfg, steps);
            && TB.Within(|FromLimiterFor(s, k, tenant, t1, t2)|, s.limiters[k].limits, t1, t2)
            && forall who :: who in FromLimiterFor(s, k, tenant, t1, t2) ==> RoutedTo(s.requests[who], s.limiters[k].owner)
  {
    var s := Exec(cfg, steps);
    var those, l := FromLimiterFor(s, k, tenant, t1, t2), s.limiters[k];
    EveryLimiterSound(cfg, steps, k, Now(steps));
    forall who | who in those
      ensures Served(TB.Log(l.limits, l.events), l.callers, who, l.owner + ":" + tenant, t1, t2)
      ensures RoutedTo(s.requests[who], l.owner)
    {
      EveryReceiptBacked(cfg, steps, who);
      ReceiptsAreOwn(cfg, steps, who);
      BackedServed(s.limiters, who, s.requests[who].share, true, t1, t2);
    }
    SoundBound(l, cfg.maxIdle, Now(steps), those, l.owner + ":" + tenant, t1, t2);
  }

  /** Receipts of one kind for one plugin are all from the one limiter. */
  lemma SameLimiter(cfg: Config, steps: seq<Step>, id: string, k: nat, who: nat, p: Option<Pass>, perTenant: bool)
    requires RegisteredOnce(steps, id)
    requires var ls := Exec(cfg, steps).limiters;
             && k < |ls| && ls[k].owner == id && ls[k].perTenant == perTenant
             && p.Some? && Backed(ls, who, p, perTenant) && ls[p.value.limiter].owner == id
    ensures p.value.limiter == k
  {
    if p.value.limiter < k {
      OneLimiterEach(cfg, steps, id, p.value.limiter, k);
    } else if k < p.value.limiter {
      OneLimiterEach(cfg, steps, id, k, p.value.limiter);
    }
  }

  lemma ThroughBudgetIsFromLimiter(cfg: Config, steps: seq<Step>, id: string, k: nat, t1: real, t2: real)
    requires Timely(steps) && RegisteredOnce(steps, id)
    requires var ls := Exec(cfg, steps).limiters; k < |ls| && ls[k].owner == id && !ls[k].perTenant
    ensures ThroughBudget(Exec(cfg, steps), id, t1, t2) <= FromLimiter(Exec(cfg, steps), k, t1, t2)
  {
    var s := Exec(cfg, steps);
    forall who | who in ThroughBudget(s, id, t1, t2)
      ensures s.requests[who].budget.value.limiter == k
    {
      EveryReceiptBacked(cfg, steps, who);
      ReceiptsAreOwn(cfg, steps, who);
      SameLimiter(cfg, steps, id, k, who, s.requests[who].budget, false);
    }
  }

  lemma ThroughShareIsFromLimiter(cfg: Config, steps: seq<Step>, id: string, k: nat, tenant: string, t1: real, t2: real)
    requires Timely(steps) && RegisteredOnce(steps, id)
    requires var ls := Exec(cfg, steps).limiters; k < |ls| && ls[k].owner == id && ls[k].perTenant
    ensures ThroughShare(Exec(cfg, steps), id, tenant, t1, t2) <= FromLimiterFor(Exec(cfg, steps), k, tenant, t1, t2)
  {
    var s := Exec(cfg, steps);
    forall who | who in ThroughShare(s, id, tenant, t1, t2)
      ensures s.requests[who].share.value.limiter == k
    {
      EveryReceiptBacked(cfg, steps, who);
      ReceiptsAreOwn(cfg, steps, who);
      SameLimiter(cfg, steps, id, k, who, s.requests[who].share, true);
    }
  }

  lemma SubsetWithin(some: set<nat>, all: set<nat>, limits: TB.Limits, t1: real, t2: real)
    requires some <= all && TB.Within(|all|, limits, t1, t2)
    ensures TB.Within(|some|, limits, t1, t2)
  {
    var rest := all - some;
    assert all == some + rest && some !! rest;
    FewerWithin(|some|, |all|, limits, t1, t2);
  }

  /** A limiter of the ID has the limits of its one registration. */
  lemma RegisteredLimits(cfg: Config, steps: seq<Step>, n: nat, k: nat)
    requires n < |steps| && k < |Exec(cfg, steps).limiters| && Registers(steps[n], Exec(cfg, steps).limiters[k].owner)
    requires RegisteredOnce(steps, Exec(cfg, steps).limiters[k].owner)
    ensures var l := Exec(cfg, steps).limiters[k]; l.limits == LimitsOf(steps[n], l.perTenant)
  {
    var m := LimiterIsMade(cfg, steps, k);
    assert m == n;
  }

  /**
   * In every interleaving, whichever window one looks at: of the requests for a plugin, however they raced
   * with registrations, other plugins and sweeps, the plugin-wide layer admits no more than the burst of
   * its registration and what the window refills.
   */
  lemma PluginRateBound(cfg: Config, steps: seq<Step>, n: nat, t1: real, t2: real)
    requires Timely(steps) && t1 <= t2 && n < |steps| && steps[n].Register?
    requires RegisteredOnce(steps, PluginID(steps[n].m.name, steps[n].tag)) && LimitsOf(steps[n], false).rate >= 0.0
    ensures var id := PluginID(steps[n].m.name, steps[n].tag);
            TB.Within(|ThroughBudget(Exec(cfg, steps), id, t1, t2)|, LimitsOf(steps[n], false), t1, t2)
  {
    var s, id := Exec(cfg, steps), PluginID(steps[n].m.name, steps[n].tag);
    var those := ThroughBudget(s, id, t1, t2);
    if first :| first in those {
      EveryReceiptBacked(cfg, steps, first);
      ReceiptsAreOwn(cfg, steps, first);
      var k := s.requests[first].budget.value.limiter;
      RegisteredLimits(cfg, steps, n, k);
      LimiterRateBound(cfg, steps, k, t1, t2);
      ThroughBudgetIsFromLimiter(cfg, steps, id, k, t1, t2);
      SubsetWithin(those, FromLimiter(s, k, t1, t2), s.limiters[k].limits, t1, t2);
    } else {
      assert those == {};
    }
  }

  /** The same for the requests of each tenant, however often idle buckets are swept, if sweeping is harmless. */
  lemma TenantRateBound(cfg: Config, steps: seq<Step>, n: nat, tenant: string, t1: real, t2: real)
    requires Timely(steps) && t1 <= t2 && n < |steps| && steps[n].Register?
    requires RegisteredOnce(steps, PluginID(steps[n].m.name, steps[n].tag)) && LimitsOf(steps[n], true).rate >= 0.0
    requires TBE.HarmlessSweep(LimitsOf(steps[n], true), cfg.maxIdle)
    ensures var id := PluginID(steps[n].m.name, steps[n].tag);
            TB.Within(|ThroughShare(Exec(cfg, steps), id, tenant, t1, t2)|, LimitsOf(steps[n], true), t1, t2)
  {
    var s, id := Exec(cfg, steps), PluginID(steps[n].m.name, steps[n].tag);
    var those := ThroughShare(s, id, tenant, t1, t2);
    if first :| first in those {
      EveryReceiptBacked(cfg, steps, first);
      ReceiptsAreOwn(cfg, steps, first);
      var k := s.requests[first].share.value.limiter;
      RegisteredLimits(cfg, steps, n, k);
      TenantLimiterRateBound(cfg, steps, k, tenant, t1, t2);
      ThroughShareIsFromLimiter(cfg, steps, id, k, tenant, t1, t2);
      SubsetWithin(those, FromLimiterFor(s, k, tenant, t1, t2), s.limiters[k].limits, t1, t2);
    } else {
      assert those == {};
    }
  }

  function Now(steps: seq<Step>): real {
    if steps == [] then 0.0 else Last(steps).at
  }
}
