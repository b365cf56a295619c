/** What it means, in every interleaving, that a request got as far as it did. */
module PipelineGates {
  import opened Options
  import opened Routes
  import opened Manifests
  import opened Registries
  import opened ControlPlane
  import opened Dispatchers
  import opened Firewall
  import opened Maintenances
  import opened Pipeline
  import opened PipelineInvariants
  import opened PipelineRates
  import Authz
  import TB = TokenBucket
  import CBL = CircuitBreakerLaws
  import ML = MaintenanceLaws
  import CPL = ControlPlaneLaws

  // ---- Firewall, routing and permission ----------------------------------------------------

  /** The route is open, asks for nothing, or asks for what the caller is granted; a platform admin is granted all. */
  ghost predicate MayPass(r: Request, e: RouteEntry) {
    || e.public
    || e.permission == ""
    || (&& r.identity.Some?
        && (|| r.identity.value.userType == "platform_admin"
            || exists g :: g in r.identity.value.permissions && Authz.Grants(g, e.permission)))
  }

  lemma MayCallIff(r: Request, e: RouteEntry)
    ensures MayCall(r, e) <==> MayPass(r, e)
  {
    if r.identity.Some? {
      Authz.PermissionAllowedIff(r.identity.value.permissions, e.permission);
    }
  }

  /** A request that holds a route entry was let past the firewall to it, and from then on may call it. */
  ghost predicate Entitled(r: Request) {
    match r.stage
    case Arrived => true
    case Finished(_) => true
    case Matched(e) => Routed(r, e)
    case _ => Routed(r, r.stage.entry) && MayPass(r, r.stage.entry)
  }

  ghost predicate Routed(r: Request, e: RouteEntry) {
    !Reserved(r.path) && Serves(e, r.verb, r.path)
  }

  lemma OnwardEntitled(cfg: Config, s: State, r: Request, result: ProxyResult, at: real)
    requires Entitled(r)
    ensures Entitled(Onward(cfg, s, r, result, at))
  {
    if r.stage.Arrived? && Match(s.core.table, r.verb, r.path).Some? {
      BlockedIff(r.path);
      MatchIsThere(s.core.table, r.verb, r.path);
    }
    if r.stage.Matched? {
      MayCallIff(r, r.stage.entry);
    }
  }

  /** Whatever reaches a plugin is routable, was routed to it and is authorized, whatever changed meanwhile. */
  lemma {:induction false} ProxiedIsEntitled(cfg: Config, steps: seq<Step>, who: nat)
    ensures var s := Exec(cfg, steps); who in s.requests ==> Entitled(s.requests[who])
  {
    if steps != [] {
      var s, step := Exec(cfg, Init(steps)), Last(steps);
      ProxiedIsEntitled(cfg, Init(steps), who);
      NextRequests(cfg, s, step);
      if step.Advance? && step.who == who && who in s.requests {
        OnwardEntitled(cfg, s, s.requests[who], step.result, step.at);
      }
    }
  }

  /** The route a request is given is one of a plugin registered at that moment. */
  lemma MatchedIsRegistered(cfg: Config, steps: seq<Step>, r: Request, result: ProxyResult, at: real)
    requires r.stage.Arrived? && After(cfg, Exec(cfg, steps), r, result, at).Matched?
    ensures var core, e := Exec(cfg, steps).core, After(cfg, Exec(cfg, steps), r, result, at).entry;
            && e.pluginID in core.plugins && e.pluginID in core.pluginRL
            && e.pluginName == core.plugins[e.pluginID].name
            && e in Entries(e.pluginID, e.pluginName, core.plugins[e.pluginID].manifest.routes)
  {
    CoreIsItsHistory(cfg, steps);
    CPL.MatchNamesRegistered(ControlHistory(cfg, steps), r.verb, r.path);
  }

  // ---- Early refusals spend nothing --------------------------------------------------------

  /** The replies given before any bucket is asked. */
  predicate Early(reply: Reply) {
    reply in {Blocked, NotFound, MissingPermission, Unavailable} || reply.UnderMaintenance?
  }

  /** The stages of a request that a bucket of the given kind may have charged. */
  predicate MayBeCharged(stage: Stage, perTenant: bool) {
    match stage
    case InBudget(_, _) => !perTenant
    case InShare(_) => true
    case Holding(_) => true
    case Proxying(_) => true
    case Proxied(_, _) => true
    case Leaving(_, reply) => !Early(reply) && reply != RateLimited
    case Finished(reply) => !Early(reply) && (perTenant ==> reply != RateLimited)
    case _ => false
  }

  lemma ChargedGoesOn(cfg: Config, s: State, r: Request, result: ProxyResult, at: real, perTenant: bool)
    requires MayBeCharged(r.stage, perTenant)
    ensures MayBeCharged(After(cfg, s, r, result, at), perTenant)
  {
  }

  lemma ChargedNow(cfg: Config, s: State, r: Request, result: ProxyResult, at: real)
    requires StageGood(s.limiters, r.stage) && Metering(s, r).Some?
    ensures var perTenant := s.limiters[Metering(s, r).value.0].perTenant;
            !MayBeCharged(r.stage, perTenant) && MayBeCharged(After(cfg, s, r, result, at), perTenant)
  {
  }

  /** A limiter charged the request at most once, and only if it came that far. */
  ghost predicate ChargedOnce(s: State, k: nat, who: nat) {
    k < |s.limiters| ==>
      && multiset(s.limiters[k].callers)[who] <= 1
      && (who in s.limiters[k].callers ==>
            who in s.requests && MayBeCharged(s.requests[who].stage, s.limiters[k].perTenant))
  }

  lemma NextChargedOnce(cfg: Config, s: State, step: Step, k: nat, who: nat)
    requires ChargedOnce(s, k, who)
    requires who in s.requests ==> StageGood(s.limiters, s.requests[who].stage)
    ensures ChargedOnce(Next(cfg, s, step), k, who)
  {
    NextRequests(cfg, s, step);
    NextLimiters(cfg, s, step);
    if k < |s.limiters| {
      LimitersStay(cfg, s, step, k);
      assert step.Register? ==> Next(cfg, s, step).limiters[..|s.limiters|][k] == s.limiters[k];
      if step.Advance? && step.who == who && who in s.requests {
        var r := s.requests[who];
        if who in s.limiters[k].callers {
          ChargedGoesOn(cfg, s, r, step.result, step.at, s.limiters[k].perTenant);
        }
        if Metering(s, r).Some? {
          ChargedNow(cfg, s, r, step.result, step.at);
        }
      }
    }
  }

  /**
   * Requests refused by the firewall, for want of a route or a permission, because the plugin is down or
   * under maintenance, appear in no limiter's history; the others at most once in each.
   */
  lemma {:induction false} EarlyRefusalSpendsNothing(cfg: Config, steps: seq<Step>, k: nat, who: nat)
    ensures ChargedOnce(Exec(cfg, steps), k, who)
  {
    if steps != [] {
      EarlyRefusalSpendsNothing(cfg, Init(steps), k, who);
      StagesAlwaysGood(cfg, Init(steps), who);
      NextChargedOnce(cfg, Exec(cfg, Init(steps)), Last(steps), k, who);
    }
  }

  // ---- The timed gates ---------------------------------------------------------------------

  /** The breaker turns a request away exactly when its history holds it open. */
  lemma BreakerRefusesIff(cfg: Config, steps: seq<Step>, r: Request, result: ProxyResult, at: real)
    requires Timely(steps) && (steps != [] ==> Last(steps).at <= at)
    requires r.stage.Holding?
    ensures var s := Exec(cfg, steps);
            var es := BreakerHistory(cfg, steps, r.stage.entry.pluginID);
            After(cfg, s, r, result, at) == Leaving(r.stage.entry, CircuitOpen)
            <==> CBL.HeldOpen(cfg.breaker, es) && at <= CBL.LastHurt(es) + cfg.breaker.resetTimeout
  {
    CircuitIsItsHistory(cfg, steps, r.stage.entry.pluginID, at);
    CBL.RefusedIff(cfg.breaker, BreakerHistory(cfg, steps, r.stage.entry.pluginID), at);
  }

  /** Maintenance turns a request away exactly when the history of Sets and Clears says so, for 1 to 901 s. */
  lemma MaintenanceRefusesIff(cfg: Config, steps: seq<Step>, r: Request, result: ProxyResult, at: real)
    requires Timely(steps) && (steps != [] ==> Last(steps).at <= at)
    requires r.stage.Live?
    ensures var s := Exec(cfg, steps);
            var stage := After(cfg, s, r, result, at);
            var w := ML.InForce(MaintenanceHistory(cfg, steps), r.stage.entry.pluginName, at);
            if w.Some?
            then
              && stage.Finished? && stage.reply.UnderMaintenance?
              && var n := stage.reply.retryAfter;
              1 <= n <= 901 && at + n as real - 1.0 <= w.value.until < at + n as real
            else stage == Serving(r.stage.entry)
  {
    var s := Exec(cfg, steps);
    WindowsAreTheirHistory(cfg, steps, at);
    ML.MaintenanceIsItsHistory(MaintenanceHistory(cfg, steps), r.stage.entry.pluginName, at);
    if OpenWindow(s.windows, r.stage.entry.pluginName, at).Some? {
      ML.RetryAfterRange(MaintenanceHistory(cfg, steps), r.stage.entry.pluginName, at);
      var w := OpenWindow(s.windows, r.stage.entry.pluginName, at).value;
      ML.RetryAfterIsTight(w, at, RetryAfter(w, at));
      ML.RetryAfterIsTight(w, at, RetryAfter(w, at) - 1);
    }
  }

  // ---- Requests that no bucket counts ------------------------------------------------------

  /** At step `n` the request looks up its plugin's limiters, and `lacks` says what it will not find. */
  ghost predicate LooksUpAt(cfg: Config, steps: seq<Step>, n: nat, who: nat, lacks: (State, nat) -> bool) {
    n < |steps| && steps[n].Advance? && steps[n].who == who && lacks(Exec(cfg, steps[..n]), who)
  }

  /** Its plugin is registered no more. */
  predicate Gone(s: State, who: nat) {
    who in s.requests && s.requests[who].stage.Serving? && s.requests[who].stage.entry.pluginID !in s.core.plugins
  }

  /** Its plugin has no limiter for tenants. */
  predicate Undivided(s: State, who: nat) {
    who in s.requests && s.requests[who].stage.Serving? && s.requests[who].stage.entry.pluginID !in s.core.tenantRL
  }

  ghost predicate LookedUp(cfg: Config, steps: seq<Step>, who: nat, lacks: (State, nat) -> bool) {
    exists n :: LooksUpAt(cfg, steps, n, who, lacks)
  }

  lemma LookedUpEarlier(cfg: Config, steps: seq<Step>, n: nat, who: nat, lacks: (State, nat) -> bool)
    requires n < |steps| - 1
    ensures LooksUpAt(cfg, steps, n, who, lacks) <==> LooksUpAt(cfg, Init(steps), n, who, lacks)
  {
    assert steps[..n] == Init(steps)[..n];
  }

  lemma LookedUpNext(cfg: Config, steps: seq<Step>, who: nat, lacks: (State, nat) -> bool)
    requires steps != []
    ensures LookedUp(cfg, steps, who, lacks)
            <==> LookedUp(cfg, Init(steps), who, lacks) || LooksUpAt(cfg, steps, |steps| - 1, who, lacks)
  {
    forall n: nat | n < |steps| - 1
      ensures LooksUpAt(cfg, steps, n, who, lacks) <==> LooksUpAt(cfg, Init(steps), n, who, lacks)
    {
      LookedUpEarlier(cfg, steps, n, who, lacks);
    }
  }

  /** The request is past the plugin-wide layer and was not refused there. */
  predicate PastBudget(stage: Stage) {
    MayBeCharged(stage, false) && !(stage.Finished? && stage.reply == RateLimited)
  }

  /** The request is past the tenant layer as well. */
  predicate PastShare(stage: Stage) {
    MayBeCharged(stage, true) && !((stage.Leaving? || stage.Finished?) && stage.reply == TenantRateLimited)
  }

  ghost predicate Accounted(r: Request, gone: bool) {
    if PastBudget(r.stage) then r.budget.None? <==> gone
    else if r.stage.Limited? then r.budget.None? && (r.stage.rl.None? <==> gone)
    else r.budget.None? && !gone
  }

  ghost predicate ShareAccounted(r: Request, undivided: bool) {
    if PastShare(r.stage) then r.route.Some? && (r.share.None? <==> undivided || TenantKey(r, r.route.value).None?)
    else if r.stage.Limited? then r.share.None? && (r.stage.trl.None? <==> undivided)
    else if r.stage.InBudget? then r.share.None? && (r.stage.trl.None? <==> undivided)
    else r.share.None? && (undivided ==> r.stage.Finished?)
  }

  lemma OnwardAccounted(cfg: Config, s: State, r: Request, result: ProxyResult, at: real, gone: bool)
    requires Accounted(r, gone) && StageGood(s.limiters, r.stage)
    requires s.core.pluginRL.Keys == s.core.plugins.Keys
    requires r.stage.Leaving? ==> PastBudget(r.stage)
    ensures Accounted(Onward(cfg, s, r, result, at),
                      gone || (r.stage.Serving? && r.stage.entry.pluginID !in s.core.plugins))
  {
  }

  lemma OnwardShareAccounted(cfg: Config, s: State, r: Request, result: ProxyResult, at: real, undivided: bool)
    requires ShareAccounted(r, undivided) && StageGood(s.limiters, r.stage) && OnRoute(r)
    requires r.stage.Leaving? ==> PastShare(r.stage)
    ensures ShareAccounted(Onward(cfg, s, r, result, at),
                           undivided || (r.stage.Serving? && r.stage.entry.pluginID !in s.core.tenantRL))
  {
  }

  lemma AfterLeaving(cfg: Config, s: State, r: Request, result: ProxyResult, at: real)
    ensures var stage := After(cfg, s, r, result, at); stage.Leaving? ==> PastBudget(stage) && PastShare(stage)
  {
  }

  lemma {:induction false} LeavingIsPast(cfg: Config, steps: seq<Step>, who: nat)
    ensures var s := Exec(cfg, steps);
            who in s.requests && s.requests[who].stage.Leaving?
            ==> PastBudget(s.requests[who].stage) && PastShare(s.requests[who].stage)
  {
    if steps != [] {
      var s, step := Exec(cfg, Init(steps)), Last(steps);
      LeavingIsPast(cfg, Init(steps), who);
      NextRequests(cfg, s, step);
      if step.Advance? && step.who == who && who in s.requests {
        AfterLeaving(cfg, s, s.requests[who], step.result, step.at);
      }
    }
  }

  lemma {:induction false} EveryRequestAccounted(cfg: Config, steps: seq<Step>, who: nat)
    ensures var s, gone := Exec(cfg, steps), LookedUp(cfg, steps, who, Gone);
            if who in s.requests then Accounted(s.requests[who], gone) else !gone
  {
    if steps != [] {
      var past, step := Init(steps), Last(steps);
      var s := Exec(cfg, past);
      EveryRequestAccounted(cfg, past, who);
      StagesAlwaysGood(cfg, past, who);
      LeavingIsPast(cfg, past, who);
      CoreIsItsHistory(cfg, past);
      CPL.StaysInStep(ControlHistory(cfg, past));
      LookedUpNext(cfg, steps, who, Gone);
      NextRequests(cfg, s, step);
      assert steps[..|steps| - 1] == past;
      if step.Advance? && step.who == who && who in s.requests {
        OnwardAccounted(cfg, s, s.requests[who], step.result, step.at, LookedUp(cfg, past, who, Gone));
      }
    }
  }

  lemma {:induction false} EveryShareAccounted(cfg: Config, steps: seq<Step>, who: nat)
    ensures var s, undivided := Exec(cfg, steps), LookedUp(cfg, steps, who, Undivided);
            if who in s.requests then ShareAccounted(s.requests[who], undivided) else !undivided
  {
    if steps != [] {
      var past, step := Init(steps), Last(steps);
      var s := Exec(cfg, past);
      EveryShareAccounted(cfg, past, who);
      StagesAlwaysGood(cfg, past, who);
      AlwaysOnRoute(cfg, past, who);
      LeavingIsPast(cfg, past, who);
      LookedUpNext(cfg, steps, who, Undivided);
      NextRequests(cfg, s, step);
      assert steps[..|steps| - 1] == past;
      if step.Advance? && step.who == who && who in s.requests {
        OnwardShareAccounted(cfg, s, s.requests[who], step.result, step.at, LookedUp(cfg, past, who, Undivided));
      }
    }
  }

  /**
   * A request passes the plugin-wide layer without being counted exactly when its plugin was deregistered
   * after the liveness check and before the limiter lookup: no limiter, no limit.
   */
  lemma UncountedIffDeregistered(cfg: Config, steps: seq<Step>, who: nat)
    ensures var s := Exec(cfg, steps);
            who in s.requests && PastBudget(s.requests[who].stage) ==>
              (s.requests[who].budget.None? <==> LookedUp(cfg, steps, who, Gone))
  {
    EveryRequestAccounted(cfg, steps, who);
  }

  /** It passes the tenant layer uncounted exactly when it has no verified tenant or the plugin had no tenant limiter. */
  lemma UnsharedIff(cfg: Config, steps: seq<Step>, who: nat)
    ensures var s := Exec(cfg, steps);
            who in s.requests && PastShare(s.requests[who].stage) ==>
              var r := s.requests[who];
              && r.route.Some?
              && (r.share.None? <==> TenantKey(r, r.route.value).None? || LookedUp(cfg, steps, who, Undivided))
  {
    EveryShareAccounted(cfg, steps, who);
  }

  /** The last registration of the ID in the run. */
  function LastRegistration(steps: seq<Step>, id: string): Option<Step> {
    if steps == [] then None
    else if Registers(Last(steps), id) then Some(Last(steps))
    else LastRegistration(Init(steps), id)
  }

  lemma {:induction false} LastIsBorn(cfg: Config, steps: seq<Step>, id: string)
    ensures var (last, born) := (LastRegistration(steps, id), CPL.Born(ControlHistory(cfg, steps), id));
            && (last.Some? <==> born.Some?)
            && (last.Some? ==> last.value.Register? && born.value.Register?
                               && (born.value.trl.Some? <==> last.value.limits.tenant.rate > 0.0))
  {
    if steps != [] {
      var past, a := ControlHistory(cfg, Init(steps)), Governing(Exec(cfg, Init(steps)), Last(steps));
      LastIsBorn(cfg, Init(steps), id);
      if a.Some? {
        assert Init(past + [a.value]) == past && Last(past + [a.value]) == a.value;
      }
    }
  }

  /** A plugin has a tenant limiter exactly while it is registered, by a registration that gave tenants a rate. */
  lemma TenantLimiterIff(cfg: Config, steps: seq<Step>, id: string)
    ensures var core, last := Exec(cfg, steps).core, LastRegistration(steps, id);
            id in core.tenantRL
            <==> id in core.plugins && last.Some? && last.value.Register? && last.value.limits.tenant.rate > 0.0
  {
    CoreIsItsHistory(cfg, steps);
    CPL.StaysInStep(ControlHistory(cfg, steps));
    LastIsBorn(cfg, steps, id);
    if id in Exec(cfg, steps).core.plugins {
      CPL.LimitersAreBorn(ControlHistory(cfg, steps), id);
    }
  }

  lemma ExecMore(cfg: Config, steps: seq<Step>, step: Step)
    ensures Exec(cfg, steps + [step]) == Next(cfg, Exec(cfg, steps), step)
  {
    assert Init(steps + [step]) == steps;
  }

  function Thrice(who: nat, at: real): seq<Step> {
    [Advance(who, Panicked, at), Advance(who, Panicked, at), Advance(who, Panicked, at)]
  }

  lemma ExecThrice(cfg: Config, steps: seq<Step>, who: nat, at: real)
    ensures var a := Advance(who, Panicked, at);
            Exec(cfg, steps + Thrice(who, at)) == Next(cfg, Next(cfg, Next(cfg, Exec(cfg, steps), a), a), a)
  {
    var a := Advance(who, Panicked, at);
    ExecMore(cfg, steps, a);
    ExecMore(cfg, steps + [a], a);
    ExecMore(cfg, steps + [a] + [a], a);
    assert steps + Thrice(who, at) == steps + [a] + [a] + [a];
  }

  /** With its plugin gone, a request at the limiter lookup goes through both rate layers whatever the limits. */
  lemma GoneGoesThrough(cfg: Config, steps: seq<Step>, who: nat, at: real)
    requires Gone(Exec(cfg, steps), who)
    ensures var (s, t) := (Exec(cfg, steps), Exec(cfg, steps + Thrice(who, at)));
            who in t.requests && t.requests[who].stage == InShare(s.requests[who].stage.entry) && t.limiters == s.limiters
  {
    var s := Exec(cfg, steps);
    ExecThrice(cfg, steps, who, at);
    CoreIsItsHistory(cfg, steps);
    CPL.StaysInStep(ControlHistory(cfg, steps));
    LooksUp(cfg, s, who, Panicked, at);
    var t := Forward(cfg, s, who, Panicked, at);
    assert t.requests[who].stage == Limited(s.requests[who].stage.entry, None, None);
    NoLimiters(cfg, t, who, Panicked, at);
  }

  lemma NoLimiters(cfg: Config, s: State, who: nat, result: ProxyResult, at: real)
    requires who in s.requests && s.requests[who].stage.Limited?
    requires s.requests[who].stage.rl.None? && s.requests[who].stage.trl.None?
    ensures var t := Forward(cfg, s, who, result, at);
            && who in t.requests
            && var u := Forward(cfg, t, who, result, at);
            who in u.requests && u.requests[who].stage == InShare(s.requests[who].stage.entry) && u.limiters == s.limiters
  {
    var t := Forward(cfg, s, who, result, at);
    assert t.requests[who].stage == InBudget(s.requests[who].stage.entry, None) && t.limiters == s.limiters;
  }

  /** A plugin of one public route whose limits admit nothing at all. */
  const SHUT := Step.Register(
    Manifest("p", "", [Route("GET", "/a", true, "")], [], []), "", "00000000",
    PluginLimits(TB.Limits(0.0, 0.0), TB.Limits(0.0, 0.0), true), 0.0)

  /** One request, arrived and past the liveness and maintenance checks. */
  const CAUGHT: seq<Step> :=
    [SHUT, Arrive(0, "GET", "/a", None, 0.0), Advance(0, Panicked, 0.0)] + Thrice(0, 0.0)

  lemma ShutRegisters(cfg: Config)
    ensures var s := Next(cfg, START, SHUT);
            && s.core.table == [RouteEntry("p-00000000", "p", "GET", "/a", true, "")]
            && s.core.plugins.Keys == {"p-00000000"} && s.core.plugins["p-00000000"].alive
            && s.core.pluginRL == map["p-00000000" := 0]
            && s.windows == map[] && s.requests == map[]
            && |s.limiters| == 2 && s.limiters[0].limits == TB.Limits(0.0, 0.0) && s.limiters[0].buckets == map[]
  {
    assert PluginID("p", "00000000") == "p-00000000";
    assert Without([], {"p-00000000"}) == [];
    var upper := Entry("p-00000000", "p", Route("GET", "/a", true, "")).verb;
    assert |upper| == 3 && upper[0] == 'G' && upper[1] == 'E' && upper[2] == 'T';
    assert upper == "GET";
    assert Entries("p-00000000", "p", [Route("GET", "/a", true, "")])
        == [RouteEntry("p-00000000", "p", "GET", "/a", true, "")];
    assert IDsNamed(map[], "p") == {};
  }

  lemma CaughtMatched(cfg: Config)
    ensures var s := Exec(cfg, [SHUT, Arrive(0, "GET", "/a", None, 0.0), Advance(0, Panicked, 0.0)]);
            && 0 in s.requests && s.requests[0].stage == Matched(RouteEntry("p-00000000", "p", "GET", "/a", true, ""))
            && s.core == Next(cfg, START, SHUT).core && s.limiters == Next(cfg, START, SHUT).limiters
            && s.windows == map[]
  {
    var (arrive, advance) := (Arrive(0, "GET", "/a", None, 0.0), Advance(0, Panicked, 0.0));
    ShutRegisters(cfg);
    assert Exec(cfg, []) == START;
    ExecMore(cfg, [], SHUT);
    ExecMore(cfg, [SHUT], arrive);
    ExecMore(cfg, [SHUT, arrive], advance);
    assert [] + [SHUT] == [SHUT] && [SHUT] + [arrive] == [SHUT, arrive];
    assert [SHUT, arrive] + [advance] == [SHUT, arrive, advance];
    assert !IsRouteBlocked("/a");
    assert Match([RouteEntry("p-00000000", "p", "GET", "/a", true, "")], "GET", "/a").Some?;
  }

  /** Public, alive and not under maintenance: three steps on, the request is at the limiter lookup. */
  lemma OnToServing(cfg: Config, steps: seq<Step>, who: nat, e: RouteEntry)
    requires var s := Exec(cfg, steps);
             && who in s.requests && s.requests[who].stage == Matched(e) && e.public && s.windows == map[]
             && e.pluginID in s.core.plugins && s.core.plugins[e.pluginID].alive
    ensures var (s, t) := (Exec(cfg, steps), Exec(cfg, steps + Thrice(who, 0.0)));
            && who in t.requests && t.requests[who].stage == Serving(e)
            && t.core == s.core && t.limiters == s.limiters
  {
    ExecThrice(cfg, steps, who, 0.0);
  }

  lemma CaughtServing(cfg: Config)
    ensures var s := Exec(cfg, CAUGHT);
            && 0 in s.requests && s.requests[0].stage == Serving(RouteEntry("p-00000000", "p", "GET", "/a", true, ""))
            && s.core == Next(cfg, START, SHUT).core && s.limiters == Next(cfg, START, SHUT).limiters
  {
    CaughtMatched(cfg);
    ShutRegisters(cfg);
    OnToServing(
      cfg, [SHUT, Arrive(0, "GET", "/a", None, 0.0), Advance(0, Panicked, 0.0)], 0,
      RouteEntry("p-00000000", "p", "GET", "/a", true, ""));
  }

  lemma LooksUp(cfg: Config, s: State, who: nat, result: ProxyResult, at: real)
    requires who in s.requests && s.requests[who].stage.Serving?
    ensures var (t, e) := (Forward(cfg, s, who, result, at), s.requests[who].stage.entry);
            && who in t.requests && t.limiters == s.limiters
            && t.requests[who].stage == Limited(e, Find(s.core.pluginRL, e.pluginID), Find(s.core.tenantRL, e.pluginID))
  {
  }

  lemma BudgetRefuses(cfg: Config, s: State, who: nat, result: ProxyResult, at: real)
    requires who in s.requests && s.requests[who].stage.Limited? && !Granted(s, s.requests[who], at)
    ensures var t := Forward(cfg, s, who, result, at);
            who in t.requests && t.requests[who].stage == Finished(RateLimited)
  {
  }

  lemma FinishedStays(cfg: Config, s: State, who: nat, result: ProxyResult, at: real)
    requires who in s.requests && s.requests[who].stage.Finished?
    ensures Forward(cfg, s, who, result, at).requests[who] == s.requests[who]
  {
  }

  lemma ShutRefuses(cfg: Config)
    ensures var s := Exec(cfg, CAUGHT + Thrice(0, 0.0)); 0 in s.requests && s.requests[0].stage == Finished(RateLimited)
  {
    CaughtServing(cfg);
    ShutRegisters(cfg);
    ExecThrice(cfg, CAUGHT, 0, 0.0);
    RefusedAtLimiter(cfg, Exec(cfg, CAUGHT), 0, 0.0);
  }

  /** The plugin's limiter has no token left: looked up, asked, refused. */
  lemma RefusedAtLimiter(cfg: Config, s: State, who: nat, at: real)
    requires who in s.requests && s.requests[who].stage.Serving?
    requires var e := s.requests[who].stage.entry;
             && e.pluginID in s.core.pluginRL && s.core.pluginRL[e.pluginID] < |s.limiters|
             && var l := s.limiters[s.core.pluginRL[e.pluginID]];
             !TB.Admits(l.limits, l.buckets, e.pluginID, at)
    ensures var t := Forward(cfg, s, who, Panicked, at);
            && who in t.requests
            && var u := Forward(cfg, t, who, Panicked, at);
            && who in u.requests
            && var v := Forward(cfg, u, who, Panicked, at);
            who in v.requests && v.requests[who].stage == Finished(RateLimited)
  {
    LooksUp(cfg, s, who, Panicked, at);
    var t := Forward(cfg, s, who, Panicked, at);
    BudgetRefuses(cfg, t, who, Panicked, at);
    FinishedStays(cfg, Forward(cfg, t, who, Panicked, at), who, Panicked, at);
  }

  lemma DeregisterLeavesGone(cfg: Config)
    ensures Gone(Exec(cfg, CAUGHT + [Step.Deregister("p-00000000", 0.0)]), 0)
  {
    CaughtServing(cfg);
    ShutRegisters(cfg);
    ExecMore(cfg, CAUGHT, Step.Deregister("p-00000000", 0.0));
  }

  /** The plugin's limits admit nothing, and nothing passes; deregister it in time, and the request passes. */
  lemma DeregisteredGoesUncounted(cfg: Config)
    ensures var s := Exec(cfg, CAUGHT + Thrice(0, 0.0)); 0 in s.requests && s.requests[0].stage == Finished(RateLimited)
    ensures var s := Exec(cfg, CAUGHT + [Step.Deregister("p-00000000", 0.0)] + Thrice(0, 0.0));
            0 in s.requests && s.requests[0].stage.InShare?
  {
    ShutRefuses(cfg);
    DeregisterLeavesGone(cfg);
    GoneGoesThrough(cfg, CAUGHT + [Step.Deregister("p-00000000", 0.0)], 0, 0.0);
  }
}
