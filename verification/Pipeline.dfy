/**
 * Dispatch (internal/dispatcher/dispatcher.go:330-505) as many requests in flight at once: each moves
 * through the layers in steps, one step per lock section, and between two steps of one request any
 * other request, the control plane, the health monitor, an operator or the sweep may take theirs.
 */
module Pipeline {
  import opened Options
  import opened Routes
  import opened Manifests
  import opened ControlPlane
  import opened Dispatchers
  import opened Authz
  import opened Firewall
  import opened Bulkheads
  import opened Maintenances
  import TB = TokenBucket
  import CB = CircuitBreaking
  import ML = MaintenanceLaws

  datatype Config = Config(maxConc: int, breaker: CB.Settings, maxIdle: real)

  /** A limiter object: the plugin ID it was made for, its buckets, everything done to it, and which request made its i-th Allow call. */
  datatype Limiter = Limiter(
    owner: string,
    limits: TB.Limits,
    perTenant: bool,
    buckets: TB.Store,
    events: seq<TB.Event>,
    callers: seq<nat>)

  /** How the proxied exchange ended; a panic unwinds through the deferred release. */
  datatype ProxyResult = Status(code: int) | WebSocket | Panicked

  datatype Reply =
    | Blocked
    | NotFound
    | MissingPermission
    | Unavailable
    | UnderMaintenance(retryAfter: int)
    | RateLimited
    | TenantRateLimited
    | Busy
    | CircuitOpen
    | Answered(result: ProxyResult)
    | Crashed

  /** Where a request stands: what it has been through, and the route entry it holds a copy of. */
  datatype Stage =
    | Arrived
    | Matched(entry: RouteEntry)
    | Permitted(entry: RouteEntry)
    | Live(entry: RouteEntry)
    | Serving(entry: RouteEntry)
    | Limited(entry: RouteEntry, rl: Option<nat>, trl: Option<nat>)
    | InBudget(entry: RouteEntry, trl: Option<nat>)
    | InShare(entry: RouteEntry)
    | Holding(entry: RouteEntry)
    | Proxying(entry: RouteEntry)
    | Proxied(entry: RouteEntry, result: ProxyResult)
    | Leaving(entry: RouteEntry, reply: Reply)
    | Finished(reply: Reply)

  /** An admitted rate check: which limiter gave which answer to it, under which key and when. */
  datatype Pass = Pass(limiter: nat, index: nat, key: string, at: real)

  /** A request, with the route it was given, whatever became of it, and its receipts. */
  datatype Request = Request(
    verb: string,
    path: string,
    identity: Option<Identity>,
    stage: Stage,
    route: Option<RouteEntry>,
    budget: Option<Pass>,
    share: Option<Pass>)

  /** The shared objects and the requests in flight. `outcomes` lists who reported to the breaker. */
  datatype State = State(
    core: Core<nat>,
    windows: Windows,
    limiters: seq<Limiter>,
    active: map<string, int>,
    circuits: map<string, CB.Circuit>,
    requests: map<nat, Request>,
    outcomes: seq<nat>)

  const START := State(Core(map[], [], map[], map[]), map[], [], map[], map[], map[], [])

  datatype Step =
    | Arrive(who: nat, verb: string, path: string, identity: Option<Identity>, at: real)
    | Advance(who: nat, result: ProxyResult, at: real)
    | Register(m: Manifest, baseURL: string, tag: Tag, limits: PluginLimits, at: real)
    | Deregister(id: string, at: real)
    | Beat(id: string, at: real)
    | MarkDead(id: string, at: real)
    | ForceOpen(id: string, at: real)
    | ResetBreaker(id: string, at: real)
    | SetMaintenance(name: string, reason: string, d: real, at: real)
    | ClearMaintenance(name: string, at: real)
    | Sweep(limiter: nat, at: real)

  function CircuitOf(s: State, plugin: string): CB.Circuit {
    GetOr(s.circuits, plugin, CB.FRESH)
  }

  // ---- Effects on one shared object --------------------------------------------------------

  function Governed(s: State, a: Action<nat>): State {
    s.(core := Do(s.core, a))
  }

  function Maintained(s: State, e: ML.Event): State {
    s.(windows := ML.Step(s.windows, e))
  }

  function Tripped(cfg: Config, s: State, plugin: string, e: CB.Event): State {
    s.(circuits := s.circuits[plugin := CB.Step(cfg.breaker, CircuitOf(s, plugin), e)])
  }

  function Touched(l: Limiter, e: TB.Event, callers: seq<nat>): Limiter {
    l.(buckets := TB.Apply(l.limits, l.buckets, e), events := l.events + [e], callers := l.callers + callers)
  }

  function Moved(s: State, who: nat, r: Request): State {
    s.(requests := s.requests[who := r])
  }

  // ---- One step of one request -------------------------------------------------------------

  function AfterArrival(table: seq<RouteEntry>, r: Request): Stage {
    if IsRouteBlocked(r.path) then Finished(Blocked)
    else match Match(table, r.verb, r.path)
      case None => Finished(NotFound)
      case Some(e) => Matched(e)
  }

  predicate MayCall(r: Request, e: RouteEntry) {
    e.public || e.permission == "" || Authorized(r.identity, e.permission)
  }

  /** The key a tenant's share is counted under, if the caller has a verified tenant. */
  function TenantKey(r: Request, e: RouteEntry): Option<string> {
    if r.identity.Some? && r.identity.value.tenantID != ""
    then Some(e.pluginID + ":" + r.identity.value.tenantID)
    else None
  }

  /** The bucket the request's next step draws on, if its plugin has one: which limiter, under which key. */
  function Metering(s: State, r: Request): Option<(nat, string)> {
    match r.stage
    case Limited(e, rl, _) => if rl.Some? && rl.value < |s.limiters| then Some((rl.value, e.pluginID)) else None
    case InBudget(e, trl) =>
      var key := TenantKey(r, e);
      if trl.Some? && trl.value < |s.limiters| && key.Some? then Some((trl.value, key.value)) else None
    case _ => None
  }

  /** No bucket to ask counts as admitted. */
  predicate Granted(s: State, r: Request, at: real) {
    match Metering(s, r)
    case None => true
    case Some((k, key)) => TB.Admits(s.limiters[k].limits, s.limiters[k].buckets, key, at)
  }

  function Outcome(result: ProxyResult, at: real): CB.Event {
    if result.Status? && result.code >= 500 then CB.Failure(at) else CB.Success(at)
  }

  /** Where a request's next step leads. Only the proxied exchange itself takes `result` from outside. */
  function After(cfg: Config, s: State, r: Request, result: ProxyResult, at: real): Stage {
    match r.stage
    case Arrived => AfterArrival(s.core.table, r)
    case Matched(e) => if MayCall(r, e) then Permitted(e) else Finished(MissingPermission)
    case Permitted(e) =>
      if e.pluginID in s.core.plugins && s.core.plugins[e.pluginID].alive then Live(e) else Finished(Unavailable)
    case Live(e) =>
      var w := OpenWindow(s.windows, e.pluginName, at);
      if w.Some? then Finished(UnderMaintenance(RetryAfter(w.value, at))) else Serving(e)
    case Serving(e) => Limited(e, Find(s.core.pluginRL, e.pluginID), Find(s.core.tenantRL, e.pluginID))
    case Limited(e, _, trl) => if Granted(s, r, at) then InBudget(e, trl) else Finished(RateLimited)
    case InBudget(e, _) => if Granted(s, r, at) then InShare(e) else Finished(TenantRateLimited)
    case InShare(e) => if HasRoom(cfg.maxConc, s.active, e.pluginID) then Holding(e) else Finished(Busy)
    case Holding(e) =>
      if CB.Admits(cfg.breaker, CircuitOf(s, e.pluginID), at) then Proxying(e) else Leaving(e, CircuitOpen)
    case Proxying(e) => if result.Panicked? then Leaving(e, Crashed) else Proxied(e, result)
    case Proxied(e, res) => Leaving(e, Answered(res))
    case Leaving(_, reply) => Finished(reply)
    case Finished(_) => r.stage
  }

  /** The receipt an admitted rate check leaves with the request. */
  function Receipt(s: State, r: Request, at: real, was: Option<Pass>): Option<Pass> {
    match Metering(s, r)
    case None => was
    case Some((k, key)) => if Granted(s, r, at) then Some(Pass(k, |s.limiters[k].callers|, key, at)) else was
  }

  function Onward(cfg: Config, s: State, r: Request, result: ProxyResult, at: real): Request {
    var stage := After(cfg, s, r, result, at);
    r.(stage := stage,
       route := if r.stage.Arrived? && stage.Matched? then Some(stage.entry) else r.route,
       budget := if r.stage.Limited? then Receipt(s, r, at, r.budget) else r.budget,
       share := if r.stage.InBudget? then Receipt(s, r, at, r.share) else r.share)
  }

  /** What a request's next step does to the shared objects. */
  function Shared(cfg: Config, s: State, who: nat, at: real): State
    requires who in s.requests
  {
    var r := s.requests[who];
    match r.stage
    case Live(e) => Maintained(s, ML.Ask(e.pluginName, at))
    case Limited(_, _, _) => Metered(s, who, Metering(s, r), at)
    case InBudget(_, _) => Metered(s, who, Metering(s, r), at)
    case InShare(e) =>
      if HasRoom(cfg.maxConc, s.active, e.pluginID) then s.(active := Acquired(s.active, e.pluginID)) else s
    case Holding(e) => Tripped(cfg, s, e.pluginID, CB.Allow(at))
    case Proxied(e, res) => Tripped(cfg, s, e.pluginID, Outcome(res, at)).(outcomes := s.outcomes + [who])
    case Leaving(e, _) => s.(active := Released(s.active, e.pluginID))
    case _ => s
  }

  function Metered(s: State, who: nat, meter: Option<(nat, string)>, at: real): State
    requires meter.Some? ==> meter.value.0 < |s.limiters|
  {
    match meter
    case None => s
    case Some((k, key)) => s.(limiters := s.limiters[k := Touched(s.limiters[k], TB.Call(at, key), [who])])
  }

  function Forward(cfg: Config, s: State, who: nat, result: ProxyResult, at: real): State
    requires who in s.requests
  {
    Moved(Shared(cfg, s, who, at), who, Onward(cfg, s, s.requests[who], result, at))
  }

  /** A registration allocates the plugin's limiter, and a second one if tenants have a rate of their own. */
  function Registered(s: State, m: Manifest, baseURL: string, tag: Tag, limits: PluginLimits, at: real): State {
    var id := PluginID(m.name, tag);
    var own := Limiter(id, Scale(limits.plugin, m.pluginType, limits.overridden), false, map[], [], []);
    var shared := Limiter(id, Scale(limits.tenant, m.pluginType, limits.overridden), true, map[], [], []);
    Governed(s, Registering(s, m, baseURL, tag, limits, at)).(limiters := s.limiters + [own, shared])
  }

  function Registering(s: State, m: Manifest, baseURL: string, tag: Tag, limits: PluginLimits, at: real): Action<nat> {
    var trl := if limits.tenant.rate > 0.0 then Some(|s.limiters| + 1) else None;
    Action.Register(m, baseURL, tag, |s.limiters|, trl, at)
  }

  function Next(cfg: Config, s: State, step: Step): State {
    match step
    case Arrive(who, verb, path, identity, _) =>
      if who in s.requests then s else Moved(s, who, Request(verb, path, identity, Arrived, None, None, None))
    case Advance(who, result, at) => if who in s.requests then Forward(cfg, s, who, result, at) else s
    case Register(m, baseURL, tag, limits, at) => Registered(s, m, baseURL, tag, limits, at)
    case Deregister(id, _) => Governed(s, Action.Deregister(id))
    case Beat(id, at) => Governed(s, Action.Beat(id, at))
    case MarkDead(id, _) => Governed(s, Action.MarkDead(id))
    case ForceOpen(id, at) => Tripped(cfg, s, id, CB.ForceOpen(at))
    case ResetBreaker(id, at) => Tripped(cfg, s, id, CB.Reset(at))
    case SetMaintenance(name, reason, d, at) => Maintained(s, ML.Set(name, reason, d, at))
    case ClearMaintenance(name, at) => Maintained(s, ML.Clear(name, at))
    case Sweep(k, at) =>
      if k < |s.limiters| && s.limiters[k].perTenant
      then s.(limiters := s.limiters[k := Touched(s.limiters[k], TB.Sweep(at, cfg.maxIdle), [])])
      else s
  }

  function Exec(cfg: Config, steps: seq<Step>): State {
    if steps == [] then START else Next(cfg, Exec(cfg, Init(steps)), Last(steps))
  }

  ghost predicate Timely(steps: seq<Step>) {
    forall i, j :: 0 <= i <= j < |steps| ==> steps[i].at <= steps[j].at
  }
}
