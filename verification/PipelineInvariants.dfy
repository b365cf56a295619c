/** What every interleaving of requests, control plane, health monitor, operators and sweeps keeps. */
module PipelineInvariants {
  import opened Options
  import opened ControlPlane
  import opened Bulkheads
  import opened Pipeline
  import CB = CircuitBreaking
  import CBL = CircuitBreakerLaws
  import ML = MaintenanceLaws
  import CPL = ControlPlaneLaws

  lemma TimelyInit(steps: seq<Step>)
    requires Timely(steps) && steps != []
    ensures Timely(Init(steps))
    ensures Init(steps) != [] ==> Last(Init(steps)).at <= Last(steps).at
  {
  }

  // ---- Each shared object is what its history makes it --------------------------------------

  /** What a step does to the breaker, seen from the request it advances. */
  function BreakerCall(s: State, step: Step): Option<(string, CB.Event)> {
    match step
    case ForceOpen(id, at) => Some((id, CB.ForceOpen(at)))
    case ResetBreaker(id, at) => Some((id, CB.Reset(at)))
    case Advance(who, _, at) =>
      if who !in s.requests then None
      else
        var stage := s.requests[who].stage;
        if stage.Holding? then Some((stage.entry.pluginID, CB.Allow(at)))
        else if stage.Proxied? then Some((stage.entry.pluginID, Outcome(stage.result, at)))
        else None
    case _ => None
  }

  /** What was done to a plugin's breaker, read off the run. */
  function BreakerHistory(cfg: Config, steps: seq<Step>, plugin: string): seq<CB.Event> {
    if steps == [] then []
    else
      var past := BreakerHistory(cfg, Init(steps), plugin);
      match BreakerCall(Exec(cfg, Init(steps)), Last(steps))
      case Some((id, e)) => if id == plugin then past + [e] else past
      case None => past
  }

  lemma MeteredOnly(s: State, who: nat, meter: Option<(nat, string)>, at: real)
    requires meter.Some? ==> meter.value.0 < |s.limiters|
    ensures Metered(s, who, meter, at) == s.(limiters := Metered(s, who, meter, at).limiters)
  {
  }

  lemma SharedBreaker(cfg: Config, s: State, who: nat, at: real)
    requires who in s.requests
    ensures var (stage, t) := (s.requests[who].stage, Shared(cfg, s, who, at));
            if stage.Holding? then t == Tripped(cfg, s, stage.entry.pluginID, CB.Allow(at))
            else if stage.Proxied? then
              t == Tripped(cfg, s, stage.entry.pluginID, Outcome(stage.result, at)).(outcomes := s.outcomes + [who])
            else t.circuits == s.circuits && t.outcomes == s.outcomes
  {
    var r := s.requests[who];
    if r.stage.Limited? || r.stage.InBudget? {
      MeteredOnly(s, who, Metering(s, r), at);
    }
  }

  lemma NextBreaker(cfg: Config, s: State, step: Step)
    ensures var t := Next(cfg, s, step);
            match BreakerCall(s, step)
            case None => t.circuits == s.circuits
            case Some((plugin, e)) =>
              t.circuits == s.circuits[plugin := CB.Step(cfg.breaker, CircuitOf(s, plugin), e)] && e.at == step.at
  {
    if step.Advance? && step.who in s.requests {
      SharedBreaker(cfg, s, step.who, step.at);
    }
  }

  /** What a step does to the maintenance windows. */
  function MaintenanceCall(s: State, step: Step): Option<ML.Event> {
    match step
    case SetMaintenance(name, reason, d, at) => Some(ML.Set(name, reason, d, at))
    case ClearMaintenance(name, at) => Some(ML.Clear(name, at))
    case Advance(who, _, at) =>
      if who in s.requests && s.requests[who].stage.Live?
      then Some(ML.Ask(s.requests[who].stage.entry.pluginName, at))
      else None
    case _ => None
  }

  function MaintenanceHistory(cfg: Config, steps: seq<Step>): seq<ML.Event> {
    if steps == [] then []
    else
      var past := MaintenanceHistory(cfg, Init(steps));
      match MaintenanceCall(Exec(cfg, Init(steps)), Last(steps))
      case Some(e) => past + [e]
      case None => past
  }

  lemma SharedMaintenance(cfg: Config, s: State, who: nat, at: real)
    requires who in s.requests
    ensures var (stage, t) := (s.requests[who].stage, Shared(cfg, s, who, at));
            if stage.Live? then t == Maintained(s, ML.Ask(stage.entry.pluginName, at)) else t.windows == s.windows
  {
    var r := s.requests[who];
    if r.stage.Limited? || r.stage.InBudget? {
      MeteredOnly(s, who, Metering(s, r), at);
    }
  }

  lemma NextMaintenance(cfg: Config, s: State, step: Step)
    ensures var t := Next(cfg, s, step);
            match MaintenanceCall(s, step)
            case None => t.windows == s.windows
            case Some(e) => t.windows == Maintained(s, e).windows && e.at == step.at
  {
    if step.Advance? && step.who in s.requests {
      SharedMaintenance(cfg, s, step.who, step.at);
    }
  }

  /** What a step does to the registry, the routes and the limiter maps. */
  function Governing(s: State, step: Step): Option<Action<nat>> {
    match step
    case Register(m, baseURL, tag, limits, at) => Some(Registering(s, m, baseURL, tag, limits, at))
    case Deregister(id, _) => Some(Action.Deregister(id))
    case Beat(id, at) => Some(Action.Beat(id, at))
    case MarkDead(id, _) => Some(Action.MarkDead(id))
    case _ => None
  }

  function ControlHistory(cfg: Config, steps: seq<Step>): seq<Action<nat>> {
    if steps == [] then []
    else
      var past := ControlHistory(cfg, Init(steps));
      match Governing(Exec(cfg, Init(steps)), Last(steps))
      case Some(a) => past + [a]
      case None => past
  }

  lemma SharedCore(cfg: Config, s: State, who: nat, at: real)
    requires who in s.requests
    ensures Shared(cfg, s, who, at).core == s.core
  {
    var r := s.requests[who];
    if r.stage.Limited? || r.stage.InBudget? {
      MeteredOnly(s, who, Metering(s, r), at);
    }
  }

  lemma SharedRequests(cfg: Config, s: State, who: nat, at: real)
    requires who in s.requests
    ensures Shared(cfg, s, who, at).requests == s.requests
  {
    var r := s.requests[who];
    if r.stage.Limited? || r.stage.InBudget? {
      MeteredOnly(s, who, Metering(s, r), at);
    }
  }

  lemma NextCore(cfg: Config, s: State, step: Step)
    ensures var t := Next(cfg, s, step);
            match Governing(s, step)
            case None => t.core == s.core
            case Some(a) => t.core == Do(s.core, a)
  {
    if step.Advance? && step.who in s.requests {
      SharedCore(cfg, s, step.who, step.at);
    }
  }

  /** Registry, routes and limiter maps are what the run's control-plane calls make them; no request changes them. */
  lemma {:induction false} CoreIsItsHistory(cfg: Config, steps: seq<Step>)
    ensures Exec(cfg, steps).core == CPL.Exec(ControlHistory(cfg, steps))
  {
    if steps != [] {
      var s, past := Exec(cfg, Init(steps)), ControlHistory(cfg, Init(steps));
      CoreIsItsHistory(cfg, Init(steps));
      NextCore(cfg, s, Last(steps));
      var a := Governing(s, Last(steps));
      if a.Some? {
        assert Init(past + [a.value]) == past;
      }
    }
  }

  ghost predicate CircuitFollows(breaker: CB.Settings, c: CB.Circuit, es: seq<CB.Event>, now: real) {
    c == CB.Run(breaker, es) && CBL.Timely(es) && (es != [] ==> Last(es).at <= now)
  }

  lemma CircuitFollowsNext(breaker: CB.Settings, c: CB.Circuit, es: seq<CB.Event>, e: CB.Event, now: real)
    requires CircuitFollows(breaker, c, es, now) && now <= e.at
    ensures CircuitFollows(breaker, CB.Step(breaker, c, e), es + [e], e.at)
  {
    assert Init(es + [e]) == es;
    assert forall i :: 0 <= i < |es| ==> es[i].at <= es[|es| - 1].at;
  }

  /** A plugin's breaker is what the run's calls, outcomes, resets and forced openings for it make it. */
  lemma {:induction false} CircuitIsItsHistory(cfg: Config, steps: seq<Step>, plugin: string, now: real)
    requires Timely(steps) && (steps != [] ==> Last(steps).at <= now)
    ensures CircuitFollows(cfg.breaker, CircuitOf(Exec(cfg, steps), plugin), BreakerHistory(cfg, steps, plugin), now)
  {
    if steps != [] {
      var s, step := Exec(cfg, Init(steps)), Last(steps);
      TimelyInit(steps);
      CircuitIsItsHistory(cfg, Init(steps), plugin, step.at);
      NextBreaker(cfg, s, step);
      var c := BreakerCall(s, step);
      if c.Some? && c.value.0 == plugin {
        CircuitFollowsNext(cfg.breaker, CircuitOf(s, plugin), BreakerHistory(cfg, Init(steps), plugin), c.value.1, step.at);
      }
    }
  }

  /** The maintenance windows are what the run's Sets, Clears and passing requests make them. */
  lemma {:induction false} WindowsAreTheirHistory(cfg: Config, steps: seq<Step>, now: real)
    requires Timely(steps) && (steps != [] ==> Last(steps).at <= now)
    ensures var es := MaintenanceHistory(cfg, steps);
            Exec(cfg, steps).windows == ML.Run(es) && ML.Timely(es) && (es != [] ==> Last(es).at <= now)
  {
    if steps != [] {
      var s, step := Exec(cfg, Init(steps)), Last(steps);
      TimelyInit(steps);
      WindowsAreTheirHistory(cfg, Init(steps), step.at);
      NextMaintenance(cfg, s, step);
      var e := MaintenanceCall(s, step);
      if e.Some? {
        MaintenanceFollowsNext(MaintenanceHistory(cfg, Init(steps)), e.value);
      }
    }
  }

  lemma MaintenanceFollowsNext(es: seq<ML.Event>, e: ML.Event)
    requires ML.Timely(es) && (es != [] ==> Last(es).at <= e.at)
    ensures ML.Timely(es + [e]) && Last(es + [e]) == e && Init(es + [e]) == es
  {
    assert forall i :: 0 <= i < |es| ==> es[i].at <= es[|es| - 1].at;
  }

  // ---- Slots -------------------------------------------------------------------------------

  predicate HoldsSlot(stage: Stage, plugin: string) {
    (stage.Holding? || stage.Proxying? || stage.Proxied? || stage.Leaving?) && stage.entry.pluginID == plugin
  }

  ghost function Holders(requests: map<nat, Request>, plugin: string): set<nat> {
    set who | who in requests && HoldsSlot(requests[who].stage, plugin)
  }

  /** The bulkhead counts exactly the requests that hold a slot for `plugin`, and never more than the limit. */
  ghost predicate SlotsCounted(maxConc: int, active: map<string, int>, requests: map<nat, Request>, plugin: string) {
    && Slots(active, plugin) == |Holders(requests, plugin)|
    && (Slots(active, plugin) <= maxConc || Slots(active, plugin) == 0)
  }

  lemma HoldersMoved(requests: map<nat, Request>, who: nat, r: Request, plugin: string)
    ensures var after := Holders(requests[who := r], plugin);
            var before := Holders(requests, plugin);
            after == if HoldsSlot(r.stage, plugin) then before + {who} else before - {who}
  {
  }

  /** The change to a plugin's count that a request's move makes. */
  function Weight(stage: Stage, plugin: string): int {
    if HoldsSlot(stage, plugin) then 1 else 0
  }

  lemma MoveCounts(requests: map<nat, Request>, who: nat, r: Request, plugin: string)
    ensures var w := if who in requests then Weight(requests[who].stage, plugin) else 0;
            |Holders(requests[who := r], plugin)| == |Holders(requests, plugin)| + Weight(r.stage, plugin) - w
  {
    HoldersMoved(requests, who, r, plugin);
    var before := Holders(requests, plugin);
    assert who in before <==> who in requests && HoldsSlot(requests[who].stage, plugin);
  }

  /** Only an arrival and a request's own step change what is known of requests. */
  lemma NextRequests(cfg: Config, s: State, step: Step)
    ensures var t := Next(cfg, s, step);
            match step
            case Arrive(who, verb, path, identity, _) =>
              t.requests == if who in s.requests then s.requests
                            else s.requests[who := Request(verb, path, identity, Arrived, None, None, None)]
            case Advance(who, result, at) =>
              t.requests == if who in s.requests then s.requests[who := Onward(cfg, s, s.requests[who], result, at)]
                            else s.requests
            case _ => t.requests == s.requests
  {
    if step.Advance? && step.who in s.requests {
      SharedRequests(cfg, s, step.who, step.at);
    }
  }

  lemma SharedSlots(cfg: Config, s: State, who: nat, at: real)
    requires who in s.requests
    ensures var (stage, active) := (s.requests[who].stage, Shared(cfg, s, who, at).active);
            if stage.InShare? && HasRoom(cfg.maxConc, s.active, stage.entry.pluginID)
            then active == Acquired(s.active, stage.entry.pluginID)
            else if stage.Leaving? then active == Released(s.active, stage.entry.pluginID)
            else active == s.active
  {
    var r := s.requests[who];
    if r.stage.Limited? || r.stage.InBudget? {
      MeteredOnly(s, who, Metering(s, r), at);
    }
  }

  /** A slot is taken on entering Holding and given back on leaving Leaving, whatever the request's end. */
  lemma NextSlots(cfg: Config, s: State, step: Step)
    ensures var t := Next(cfg, s, step);
            if step.Advance? && step.who in s.requests && s.requests[step.who].stage.InShare?
               && HasRoom(cfg.maxConc, s.active, s.requests[step.who].stage.entry.pluginID)
            then t.active == Acquired(s.active, s.requests[step.who].stage.entry.pluginID)
            else if step.Advance? && step.who in s.requests && s.requests[step.who].stage.Leaving?
            then t.active == Released(s.active, s.requests[step.who].stage.entry.pluginID)
            else t.active == s.active
  {
    if step.Advance? && step.who in s.requests {
      SharedSlots(cfg, s, step.who, step.at);
    }
  }

  /** What one step does to the request's hold on a slot. */
  lemma OnwardHold(cfg: Config, s: State, r: Request, result: ProxyResult, at: real, plugin: string)
    ensures var stage := r.stage;
            Weight(After(cfg, s, r, result, at), plugin) - Weight(stage, plugin) ==
            if stage.InShare? && HasRoom(cfg.maxConc, s.active, stage.entry.pluginID) && stage.entry.pluginID == plugin then 1
            else if stage.Leaving? && stage.entry.pluginID == plugin then -1
            else 0
  {
  }

  lemma NextCountsSlots(cfg: Config, s: State, step: Step, plugin: string)
    requires SlotsCounted(cfg.maxConc, s.active, s.requests, plugin)
    ensures SlotsCounted(cfg.maxConc, Next(cfg, s, step).active, Next(cfg, s, step).requests, plugin)
  {
    NextRequests(cfg, s, step);
    NextSlots(cfg, s, step);
    match step
    case Arrive(who, verb, path, identity, _) =>
      MoveCounts(s.requests, who, Request(verb, path, identity, Arrived, None, None, None), plugin);
    case Advance(who, result, at) =>
      if who in s.requests {
        var r := s.requests[who];
        OnwardHold(cfg, s, r, result, at, plugin);
        MoveCounts(s.requests, who, Onward(cfg, s, r, result, at), plugin);
        assert r.stage.Leaving? && r.stage.entry.pluginID == plugin ==> who in Holders(s.requests, plugin);
      }
    case _ =>
  }

  /** In every interleaving the bulkhead's count is the number of requests holding a slot, within the limit. */
  lemma {:induction false} BulkheadExact(cfg: Config, steps: seq<Step>, plugin: string)
    ensures var s := Exec(cfg, steps); SlotsCounted(cfg.maxConc, s.active, s.requests, plugin)
  {
    if steps != [] {
      BulkheadExact(cfg, Init(steps), plugin);
      NextCountsSlots(cfg, Exec(cfg, Init(steps)), Last(steps), plugin);
    } else {
      assert Holders(START.requests, plugin) == {};
    }
  }

  /** Release's guard against zero never decides anything: whoever releases is counted. */
  lemma ReleaseGuardNeverNeeded(cfg: Config, steps: seq<Step>, who: nat)
    requires var s := Exec(cfg, steps); who in s.requests && s.requests[who].stage.Leaving?
    ensures var s := Exec(cfg, steps);
            var plugin := s.requests[who].stage.entry.pluginID;
            Slots(s.active, plugin) > 0 && Slots(Released(s.active, plugin), plugin) == Slots(s.active, plugin) - 1
  {
    var s := Exec(cfg, steps);
    var plugin := s.requests[who].stage.entry.pluginID;
    BulkheadExact(cfg, steps, plugin);
    assert who in Holders(s.requests, plugin);
  }

  // ---- Outcomes ----------------------------------------------------------------------------

  /** The breaker let the request through, its plugin answered, and it is past recording that. */
  predicate WasAnswered(stage: Stage) {
    (stage.Leaving? || stage.Finished?) && stage.reply.Answered?
  }

  /** How often `who` appears among the recorded outcomes. */
  ghost function Recorded(s: State, who: nat): nat {
    multiset(s.outcomes)[who]
  }

  lemma NextOutcomes(cfg: Config, s: State, step: Step)
    ensures var t := Next(cfg, s, step);
            t.outcomes == s.outcomes + if step.Advance? && step.who in s.requests && s.requests[step.who].stage.Proxied?
                                       then [step.who] else []
  {
    if step.Advance? && step.who in s.requests {
      SharedBreaker(cfg, s, step.who, step.at);
    }
  }

  /** Stages from which the answer is still to come never carry it. */
  lemma AnsweredOnceRecorded(cfg: Config, s: State, r: Request, result: ProxyResult, at: real)
    ensures WasAnswered(After(cfg, s, r, result, at)) <==> WasAnswered(r.stage) || r.stage.Proxied?
  {
  }

  /**
   * A request records exactly one outcome if the breaker admitted it and its plugin answered, before it
   * gives its slot back, and none otherwise: not when the breaker refused it, nor when the proxy panicked.
   */
  lemma {:induction false} OneOutcomePerAnswer(cfg: Config, steps: seq<Step>, who: nat)
    ensures var s := Exec(cfg, steps);
            Recorded(s, who) == if who in s.requests && WasAnswered(s.requests[who].stage) then 1 else 0
  {
    if steps != [] {
      var s, step := Exec(cfg, Init(steps)), Last(steps);
      OneOutcomePerAnswer(cfg, Init(steps), who);
      NextOutcomes(cfg, s, step);
      NextRequests(cfg, s, step);
      if step.Advance? && step.who in s.requests {
        AnsweredOnceRecorded(cfg, s, s.requests[step.who], step.result, step.at);
      }
    }
  }
}
