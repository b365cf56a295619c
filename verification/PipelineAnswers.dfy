/** What each answer of Dispatch means, on the request's own fields and on what happened in the run. */
module PipelineAnswers {
  import opened Options
  import opened Routes
  import opened Registries
  import opened ControlPlane
  import opened Firewall
  import opened Pipeline
  import opened PipelineInvariants
  import opened PipelineRates
  import opened PipelineGates
  import TB = TokenBucket
  import TBL = TokenBucketLaws
  import TBS = TokenBucketSwept
  import CB = CircuitBreaking
  import CPL = ControlPlaneLaws

  // ---- Firewall and routing: 403 and 404 ---------------------------------------------------

  ghost predicate FirewallKept(r: Request) {
    !r.stage.Arrived? ==> (r.stage == Finished(Blocked) <==> Reserved(r.path))
  }

  lemma OnwardFirewallKept(cfg: Config, s: State, r: Request, result: ProxyResult, at: real)
    requires FirewallKept(r) && (r.stage.Leaving? ==> !Early(r.stage.reply))
    ensures FirewallKept(Onward(cfg, s, r, result, at))
  {
    BlockedIff(r.path);
  }

  /** In every interleaving the firewall turns away exactly the requests for reserved paths. */
  lemma {:induction false} FirewallDecides(cfg: Config, steps: seq<Step>, who: nat)
    ensures var s := Exec(cfg, steps); who in s.requests ==> FirewallKept(s.requests[who])
  {
    if steps != [] {
      var s, step := Exec(cfg, Init(steps)), Last(steps);
      FirewallDecides(cfg, Init(steps), who);
      LeavingIsPast(cfg, Init(steps), who);
      NextRequests(cfg, s, step);
      if step.Advance? && step.who == who && who in s.requests {
        OnwardFirewallKept(cfg, s, s.requests[who], step.result, step.at);
      }
    }
  }

  /** A request is given the winning route, and no route exactly when no registered one serves it. */
  lemma RoutingDecides(cfg: Config, s: State, r: Request, result: ProxyResult, at: real)
    requires r.stage.Arrived? && !Reserved(r.path)
    ensures var (table, stage) := (s.core.table, After(cfg, s, r, result, at));
            if stage.Matched? then exists i :: 0 <= i < |table| && table[i] == stage.entry && Wins(table, i, r.verb, r.path)
            else stage == Finished(NotFound) && forall e :: e in table ==> !Serves(e, r.verb, r.path)
  {
    BlockedIff(r.path);
    MatchIsWinner(s.core.table, r.verb, r.path);
  }

  // ---- Permission: 403 ---------------------------------------------------------------------

  /** The permission check is behind the request. */
  predicate Judged(stage: Stage) {
    !stage.Arrived? && !stage.Matched? && stage != Finished(Blocked) && stage != Finished(NotFound)
  }

  ghost predicate PermissionKept(r: Request) {
    Judged(r.stage) ==> r.route.Some? && (r.stage == Finished(MissingPermission) <==> !MayPass(r, r.route.value))
  }

  lemma OnwardPermissionKept(cfg: Config, s: State, r: Request, result: ProxyResult, at: real)
    requires PermissionKept(r) && OnRoute(r) && (r.stage.Leaving? ==> !Early(r.stage.reply))
    ensures PermissionKept(Onward(cfg, s, r, result, at))
  {
    OnwardOnRoute(cfg, s, r, result, at);
    if r.stage.Matched? {
      MayCallIff(r, r.stage.entry);
    }
  }

  /**
   * In every interleaving a request past the permission check was refused there exactly when its route is not
   * public, asks for a permission, and the caller is neither a platform admin nor granted it.
   */
  lemma {:induction false} PermissionDecides(cfg: Config, steps: seq<Step>, who: nat)
    ensures var s := Exec(cfg, steps); who in s.requests ==> PermissionKept(s.requests[who])
  {
    if steps != [] {
      var s, step := Exec(cfg, Init(steps)), Last(steps);
      PermissionDecides(cfg, Init(steps), who);
      AlwaysOnRoute(cfg, Init(steps), who);
      LeavingIsPast(cfg, Init(steps), who);
      NextRequests(cfg, s, step);
      if step.Advance? && step.who == who && who in s.requests {
        OnwardPermissionKept(cfg, s, s.requests[who], step.result, step.at);
      }
    }
  }

  // ---- Liveness: 503 -----------------------------------------------------------------------

  /** Registered in the run, and since then neither deregistered nor replaced by another instance of its name. */
  predicate Standing(steps: seq<Step>, id: string) {
    if steps == [] then false
    else
      match Last(steps)
      case Register(m, _, tag, _, _) => PluginID(m.name, tag) == id || (m.name != NameOf(id) && Standing(Init(steps), id))
      case Deregister(gone, _) => gone != id && Standing(Init(steps), id)
      case _ => Standing(Init(steps), id)
  }

  /** The last word on the plugin's health was a registration or a heartbeat, not a failed check. */
  predicate Healthy(steps: seq<Step>, id: string) {
    if steps == [] then false
    else
      match Last(steps)
      case Register(m, _, tag, _, _) => PluginID(m.name, tag) == id || Healthy(Init(steps), id)
      case Beat(who, _) => who == id || Healthy(Init(steps), id)
      case MarkDead(who, _) => who != id && Healthy(Init(steps), id)
      case _ => Healthy(Init(steps), id)
  }

  /** The registry's entry, seen from the run. */
  ghost predicate EntryKept(ps: Plugins, steps: seq<Step>, id: string) {
    && (id in ps <==> Standing(steps, id))
    && (id in ps ==> (ps[id].alive <==> Healthy(steps, id)))
  }

  lemma GovernedEntryKept(c: Core<nat>, a: Action<nat>, past: seq<Step>, step: Step, id: string)
    requires EntryKept(c.plugins, past, id) && forall other :: other in c.plugins ==> c.plugins[other].name == NameOf(other)
    requires match step
             case Register(m, _, tag, _, _) => a.Register? && a.m == m && a.tag == tag
             case Deregister(gone, _) => a == Action.Deregister(gone)
             case Beat(who, at) => a == Action.Beat(who, at)
             case MarkDead(who, _) => a == Action.MarkDead(who)
             case _ => false
    ensures EntryKept(Do(c, a).plugins, past + [step], id)
  {
    assert Init(past + [step]) == past;
    if a.Register? {
      CPL.NameOfPluginID(a.m.name, a.tag);
    }
  }

  /** A plugin is registered, and alive, exactly as the run's registrations, removals, heartbeats and checks have it. */
  lemma {:induction false} RegistryIsItsHistory(cfg: Config, steps: seq<Step>, id: string)
    ensures EntryKept(Exec(cfg, steps).core.plugins, steps, id)
  {
    if steps != [] {
      var past, step := Init(steps), Last(steps);
      var s := Exec(cfg, past);
      assert steps == past + [step];
      RegistryIsItsHistory(cfg, past, id);
      CoreIsItsHistory(cfg, past);
      CPL.StaysInStep(ControlHistory(cfg, past));
      NextCore(cfg, s, step);
      var a := Governing(s, step);
      if a.Some? {
        GovernedEntryKept(s.core, a.value, past, step, id);
      }
    }
  }

  /** A request is told its plugin is unavailable exactly when it is gone or its last report was a failed health check. */
  lemma UnavailableIff(cfg: Config, steps: seq<Step>, r: Request, result: ProxyResult, at: real)
    requires r.stage.Permitted?
    ensures var (stage, id) := (After(cfg, Exec(cfg, steps), r, result, at), r.stage.entry.pluginID);
            if Standing(steps, id) && Healthy(steps, id) then stage == Live(r.stage.entry) else stage == Finished(Unavailable)
  {
    RegistryIsItsHistory(cfg, steps, r.stage.entry.pluginID);
  }

  // ---- Rate limits: 429 --------------------------------------------------------------------

  /**
   * In every reachable state the plugin-wide layer refuses a request exactly when the plugin has a limiter
   * and some window of it ending now has less than a token left.
   */
  lemma RateLimitedIff(cfg: Config, steps: seq<Step>, who: nat, result: ProxyResult, at: real)
    requires Timely(steps) && (steps != [] ==> Last(steps).at <= at)
    requires var s := Exec(cfg, steps); who in s.requests && s.requests[who].stage.Limited?
    ensures var s := Exec(cfg, steps);
            var r := s.requests[who];
            var (id, rl) := (r.stage.entry.pluginID, r.stage.rl);
            && (rl.Some? ==> rl.value < |s.limiters| && s.limiters[rl.value].owner == id)
            && (After(cfg, s, r, result, at) == Finished(RateLimited)
                <==> rl.Some? &&
                     var l := s.limiters[rl.value];
                     TBL.LacksToken(l.limits.burst, TBL.Windows(l.limits, TB.Log(l.limits, l.events), id, at)))
  {
    var s := Exec(cfg, steps);
    var r := s.requests[who];
    StagesAlwaysGood(cfg, steps, who);
    if r.stage.rl.Some? {
      var l := s.limiters[r.stage.rl.value];
      EveryLimiterSound(cfg, steps, r.stage.rl.value, at);
      TBL.RefusedIffWindowExhausted(l.limits, l.events, r.stage.entry.pluginID, at);
    }
  }

  /** A tenant's window ending at `at`, counted since a sweep last found the tenant idle, has less than a token left. */
  ghost predicate TenantSpent(l: Limiter, key: string, at: real) {
    var g := TB.Log(l.limits, l.events);
    TBL.LacksToken(l.limits.burst, TBS.WindowsSince(l.limits, g, key, at, TBS.Restart(l.limits, l.events, key)))
  }

  /**
   * And the tenant layer refuses it exactly when the caller has a verified tenant, the plugin has a tenant
   * limiter, and that tenant's windows are spent, counted since a sweep last found the tenant idle.
   */
  lemma TenantRateLimitedIff(cfg: Config, steps: seq<Step>, who: nat, result: ProxyResult, at: real)
    requires Timely(steps) && (steps != [] ==> Last(steps).at <= at)
    requires var s := Exec(cfg, steps); who in s.requests && s.requests[who].stage.InBudget?
    ensures var s := Exec(cfg, steps);
            var r := s.requests[who];
            var (id, trl) := (r.stage.entry.pluginID, r.stage.trl);
            && (trl.Some? ==> trl.value < |s.limiters| && s.limiters[trl.value].owner == id)
            && (After(cfg, s, r, result, at) == Finished(TenantRateLimited)
                <==> trl.Some? && r.identity.Some? && r.identity.value.tenantID != ""
                     && TenantSpent(s.limiters[trl.value], id + ":" + r.identity.value.tenantID, at))
  {
    var s := Exec(cfg, steps);
    var r := s.requests[who];
    StagesAlwaysGood(cfg, steps, who);
    if r.stage.trl.Some? && r.identity.Some? {
      var l := s.limiters[r.stage.trl.value];
      EveryLimiterSound(cfg, steps, r.stage.trl.value, at);
      TBS.RefusedIffSpent(l.limits, l.events, r.stage.entry.pluginID + ":" + r.identity.value.tenantID, at);
    }
  }

  // ---- Bulkhead: 503 -----------------------------------------------------------------------

  /** A request finds the plugin busy exactly when as many requests as allowed, or more, hold a slot of it. */
  lemma BusyIff(cfg: Config, steps: seq<Step>, r: Request, result: ProxyResult, at: real)
    requires r.stage.InShare?
    ensures var s, e := Exec(cfg, steps), r.stage.entry;
            After(cfg, s, r, result, at)
            == if |Holders(s.requests, e.pluginID)| >= cfg.maxConc then Finished(Busy) else Holding(e)
  {
    BulkheadExact(cfg, steps, r.stage.entry.pluginID);
  }

  // ---- Outcomes ----------------------------------------------------------------------------

  /** What a request carries as its plugin's answer is one: the exchange did not panic. */
  predicate HonestAnswer(stage: Stage) {
    match stage
    case Proxied(_, result) => !result.Panicked?
    case Leaving(_, reply) => reply.Answered? ==> !reply.result.Panicked?
    case Finished(reply) => reply.Answered? ==> !reply.result.Panicked?
    case _ => true
  }

  /** So a panic is never reported to the breaker, neither as a failure nor as a success. */
  lemma {:induction false} PanicsAreNotAnswers(cfg: Config, steps: seq<Step>, who: nat)
    ensures var s := Exec(cfg, steps); who in s.requests ==> HonestAnswer(s.requests[who].stage)
  {
    if steps != [] {
      var s, step := Exec(cfg, Init(steps)), Last(steps);
      PanicsAreNotAnswers(cfg, Init(steps), who);
      NextRequests(cfg, s, step);
      if step.Advance? && step.who == who && who in s.requests {
        OnwardHonest(cfg, s, s.requests[who], step.result, step.at);
      }
    }
  }

  lemma OnwardHonest(cfg: Config, s: State, r: Request, result: ProxyResult, at: real)
    requires HonestAnswer(r.stage)
    ensures HonestAnswer(After(cfg, s, r, result, at))
    ensures r.stage.Proxying? && result.Panicked? ==> !WasAnswered(After(cfg, s, r, result, at))
  {
  }

  /** An answer of 500 or more is reported to its plugin's breaker as a failure, any other as a success. */
  lemma OutcomeReported(cfg: Config, steps: seq<Step>, who: nat, result: ProxyResult, at: real)
    requires var s := Exec(cfg, steps); who in s.requests && s.requests[who].stage.Proxied?
    ensures var stage := Exec(cfg, steps).requests[who].stage;
            var failed := stage.result.Status? && stage.result.code >= 500;
            forall plugin :: BreakerHistory(cfg, steps + [Advance(who, result, at)], plugin)
                             == BreakerHistory(cfg, steps, plugin)
                                + if plugin != stage.entry.pluginID then []
                                  else if failed then [CB.Failure(at)] else [CB.Success(at)]
  {
    assert Init(steps + [Advance(who, result, at)]) == steps;
  }
}
