/**
 * internal/controlplane/handlers.go: registration and removal of plugins, each handler one step over
 * the registry, the route table and the two limiter maps.
 */
module ControlPlane {
  import opened Options
  import opened Routes
  import opened Manifests
  import opened Registries
  import opened Dispatchers
  import opened TokenBucket

  /** Everything the handlers keep in step. `L` stands for a limiter, known here by its identity only. */
  datatype Core<L> = Core(
    plugins: Plugins,
    table: seq<RouteEntry>,
    pluginRL: map<string, L>,
    tenantRL: map<string, L>)

  function Emptied<L>(c: Core<L>, ids: set<string>): Core<L> {
    Core(c.plugins - ids, Without(c.table, ids), c.pluginRL - ids, c.tenantRL - ids)
  }

  function WithPlugin<L>(c: Core<L>, id: string, entry: PluginEntry, rl: L, trl: Option<L>): Core<L> {
    Core(
      c.plugins[id := entry],
      Without(c.table, {id}) + Entries(id, entry.name, entry.manifest.routes),
      c.pluginRL[id := rl],
      if trl.Some? then c.tenantRL[id := trl.value] else c.tenantRL - {id})
  }

  /** The first eight characters of a UUID. */
  type Tag = s: string | |s| == 8 witness "00000000"

  function PluginID(name: string, tag: Tag): string {
    name + "-" + tag
  }

  function NameOf(id: string): string {
    if |id| < 9 then "" else id[..|id| - 9]
  }

  /** The handler calls that change something; refused ones leave the state alone. */
  datatype Action<L> =
    | Register(m: Manifest, baseURL: string, tag: Tag, rl: L, trl: Option<L>, now: real)
    | Deregister(id: string)
    | Beat(id: string, now: real)
    | MarkDead(id: string)

  function Do<L>(c: Core<L>, a: Action<L>): Core<L> {
    match a
    case Register(m, baseURL, tag, rl, trl, now) =>
      WithPlugin(Emptied(c, IDsNamed(c.plugins, m.name)), PluginID(m.name, tag), NewEntry(baseURL, m, now), rl, trl)
    case Deregister(id) => if id in c.plugins then Emptied(c, {id}) else c
    case Beat(id, now) => c.(plugins := Refreshed(c.plugins, id, now))
    case MarkDead(id) => c.(plugins := Dead(c.plugins, id))
  }

  datatype RegisterReply =
    | BadRequest
    | Unauthorized
    | BadGateway
    | Forbidden
    | Registered(pluginID: string)

  /** Whether the key lets a plugin register; without a key of its own the gateway lets everybody. */
  predicate KeyFits(apiKey: string, key: string) {
    apiKey == "" || key == apiKey
  }

  const MANIFEST_PATH := "/_apicorex/manifest"

  /** Of url.Parse: what it refuses of a base URL it refuses of the manifest's URL, which begins with it. */
  ghost predicate RefusesExtended(parses: string -> bool) {
    forall url :: parses(url + MANIFEST_PATH) ==> parses(url)
  }

  class Handlers {
    const reg: Registry
    const disp: Dispatcher
    const apiKey: string
    const allowlist: set<string>

    ghost predicate Valid()
      reads disp
    {
      disp.Valid()
    }

    ghost function State(): Core<RateLimiter>
      requires Valid()
      reads reg, disp, disp.backing
    {
      Core(reg.plugins, disp.Table(), disp.pluginRL, disp.tenantRL)
    }

    constructor (apiKey: string, allowlist: set<string>)
      ensures Valid() && State() == Core(map[], [], map[], map[])
      ensures this.apiKey == apiKey && this.allowlist == allowlist
      ensures fresh(reg) && fresh(disp) && fresh(disp.backing)
    {
      reg := new Registry();
      disp := new Dispatcher();
      this.apiKey := apiKey;
      this.allowlist := allowlist;
    }

    method Evict(id: string)
      requires Valid()
      modifies reg, disp, disp.backing
      ensures Valid() && disp.backing == old(disp.backing)
      ensures State() == Emptied(old(State()), {id})
    {
      reg.Deregister(id);
      disp.RemoveRoutes(id);
    }

    /** The eviction loop of `register`: every instance that runs under the name. */
    method EvictNamed(name: string)
      requires Valid()
      modifies reg, disp, disp.backing
      ensures Valid() && disp.backing == old(disp.backing)
      ensures State() == Emptied(old(State()), IDsNamed(old(reg.plugins), name))
    {
      var stale := reg.IDsByName(name);
      ghost var gone: set<string> := {};
      EmptiedOfNone(State());
      for i := 0 to |stale|
        invariant Valid() && disp.backing == old(disp.backing)
        invariant gone == set j | 0 <= j < i :: stale[j]
        invariant State() == Emptied(old(State()), gone)
      {
        Evict(stale[i]);
        EmptiedTwice(old(State()), gone, {stale[i]});
        gone := gone + {stale[i]};
      }
      assert gone == IDsNamed(old(reg.plugins), name);
    }

    /**
     * Evict what runs under the name, then register under a new ID. `parses` is url.Parse: the client that
     * pulled the manifest has parsed its URL, so the registry's own parse of the base URL cannot fail.
     */
    method Register(key: string, baseURL: string, pulled: Option<Manifest>, parses: string -> bool, tag: Tag,
                    limits: PluginLimits, now: real) returns (reply: RegisterReply)
      requires Valid()
      requires RefusesExtended(parses) && (pulled.Some? ==> parses(baseURL + MANIFEST_PATH))
      modifies reg, disp, disp.backing
      ensures Valid()
      ensures reply == Unauthorized <==> apiKey != "" && key != apiKey
      ensures reply == BadRequest <==> KeyFits(apiKey, key) && baseURL == ""
      ensures reply == BadGateway <==> KeyFits(apiKey, key) && baseURL != "" && (pulled.None? || pulled.value.name == "")
      ensures reply == Forbidden <==>
                && KeyFits(apiKey, key) && baseURL != "" && pulled.Some? && pulled.value.name != ""
                && allowlist != {} && pulled.value.name !in allowlist
      ensures if !reply.Registered? then State() == old(State())
              else
                pulled.Some? &&
                var m := pulled.value;
                var id := PluginID(m.name, tag);
                && reply == Registered(id)
                && id in disp.pluginRL && fresh(disp.pluginRL[id])
                && disp.pluginRL[id].limits == Scale(limits.plugin, m.pluginType, limits.overridden)
                && disp.pluginRL[id].Valid() && disp.pluginRL[id].Buckets() == map[]
                && (id in disp.tenantRL <==> limits.tenant.rate > 0.0)
                && (id in disp.tenantRL ==>
                      && fresh(disp.tenantRL[id]) && disp.tenantRL[id] != disp.pluginRL[id]
                      && disp.tenantRL[id].limits == Scale(limits.tenant, m.pluginType, limits.overridden)
                      && disp.tenantRL[id].Valid() && disp.tenantRL[id].Buckets() == map[])
                && State() == Do(old(State()),
                                 Action.Register(m, baseURL, tag, disp.pluginRL[id], Find(disp.tenantRL, id), now))
    {
      if apiKey != "" && key != apiKey {
        return Unauthorized;
      }
      if baseURL == "" {
        return BadRequest;
      }
      if pulled.None? || pulled.value.name == "" {
        return BadGateway;
      }
      if allowlist != {} && pulled.value.name !in allowlist {
        return Forbidden;
      }
      var m := pulled.value;
      EvictNamed(m.name);
      var id := PluginID(m.name, tag);
      var ok := reg.Register(id, baseURL, m, parses(baseURL), now);
      assert ok;
      disp.AddRoutes(id, m.name, m.pluginType, m.routes, limits);
      return Registered(id);
    }

    /** Both deregister and the operator's adminDeregister once their caller is let in. */
    method Deregister(authorized: bool, id: string) returns (done: bool)
      requires Valid()
      modifies reg, disp, disp.backing
      ensures Valid()
      ensures done == (authorized && id in old(reg.plugins))
      ensures State() == if authorized then Do(old(State()), Action.Deregister(id)) else old(State())
    {
      if !authorized || id !in reg.plugins {
        return false;
      }
      Evict(id);
      return true;
    }

    method Heartbeat(authorized: bool, id: string, now: real) returns (ok: bool)
      requires Valid()
      modifies reg
      ensures Valid()
      ensures ok == (authorized && id in old(reg.plugins))
      ensures State() == if authorized then Do(old(State()), Beat(id, now)) else old(State())
    {
      if !authorized {
        return false;
      }
      ok := reg.Heartbeat(id, now);
    }
  }

  lemma EmptiedOfNone<L>(c: Core<L>)
    ensures Emptied(c, {}) == c
  {
    WithoutNone(c.table);
  }

  lemma {:induction false} WithoutNone(rs: seq<RouteEntry>)
    ensures Without(rs, {}) == rs
  {
    if rs != [] {
      var past, last := Init(rs), Last(rs);
      assert rs == past + [last];
      WithoutNone(past);
    }
  }

  lemma EmptiedTwice<L>(c: Core<L>, ids: set<string>, more: set<string>)
    ensures Emptied(Emptied(c, ids), more) == Emptied(c, ids + more)
  {
    WithoutTwice(c.table, ids, more);
    assert c.plugins - ids - more == c.plugins - (ids + more);
    assert c.pluginRL - ids - more == c.pluginRL - (ids + more);
    assert c.tenantRL - ids - more == c.tenantRL - (ids + more);
  }
}
