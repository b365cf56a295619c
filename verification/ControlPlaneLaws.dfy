/** What every history of registrations, removals, heartbeats and failed health checks keeps. */
module ControlPlaneLaws {
  import opened Options
  import opened Routes
  import opened Registries
  import opened ControlPlane
  import opened PluginTokens

  function Exec<L>(h: seq<Action<L>>): Core<L> {
    if h == [] then Core(map[], [], map[], map[]) else Do(Exec(Init(h)), Last(h))
  }

  function Keep(order: seq<string>, gone: string -> bool): seq<string> {
    if order == [] then [] else Keep(Init(order), gone) + if gone(Last(order)) then [] else [Last(order)]
  }

  /** The live plugin IDs in the order they registered, read off the history alone. */
  function Order<L>(h: seq<Action<L>>): seq<string> {
    if h == [] then [] else Reordered(Order(Init(h)), Last(h))
  }

  function Reordered<L>(order: seq<string>, a: Action<L>): seq<string> {
    match a
    case Register(m, _, tag, _, _, _) => Keep(order, id => NameOf(id) == m.name) + [PluginID(m.name, tag)]
    case Deregister(gone) => Keep(order, id => id == gone)
    case _ => order
  }

  ghost predicate Holds(order: seq<string>, ps: Plugins) {
    forall id :: id in order ==> id in ps
  }

  /** The registered plugins' routes, plugin after plugin. */
  ghost function Flatten(order: seq<string>, ps: Plugins): seq<RouteEntry>
    requires Holds(order, ps)
  {
    if order == [] then []
    else
      var id := Last(order);
      Flatten(Init(order), ps) + Entries(id, ps[id].name, ps[id].manifest.routes)
  }

  ghost predicate NamesUnique(ps: Plugins) {
    forall a, b :: a in ps && b in ps && ps[a].name == ps[b].name ==> a == b
  }

  ghost predicate Distinct(order: seq<string>) {
    forall i, j :: 0 <= i < j < |order| ==> order[i] != order[j]
  }

  /** The stores agree with each other and with the registration order. */
  ghost predicate InStep<L>(c: Core<L>, order: seq<string>) {
    KeysInStep(c, order) && c.table == Flatten(order, c.plugins)
  }

  ghost predicate KeysInStep<L>(c: Core<L>, order: seq<string>) {
    && (forall id :: id in c.plugins ==> c.plugins[id].name == NameOf(id) == c.plugins[id].manifest.name)
    && NamesUnique(c.plugins)
    && c.pluginRL.Keys == c.plugins.Keys
    && c.tenantRL.Keys <= c.plugins.Keys
    && Distinct(order)
    && Holds(order, c.plugins)
    && (forall id :: id in c.plugins ==> id in order)
  }

  // ---- Removal -----------------------------------------------------------------------------

  lemma {:induction false} KeepFilters(order: seq<string>, gone: string -> bool)
    ensures forall id :: id in Keep(order, gone) <==> id in order && !gone(id)
    ensures Distinct(order) ==> Distinct(Keep(order, gone))
  {
    if order != [] {
      var past, last := Init(order), Last(order);
      assert order == past + [last];
      KeepFilters(past, gone);
      if Distinct(order) {
        assert Distinct(past);
        assert last !in past;
      }
    }
  }

  lemma {:induction false} FlattenAgrees(order: seq<string>, ps: Plugins, qs: Plugins)
    requires Holds(order, ps) && Holds(order, qs)
    requires forall id :: id in order ==> ps[id].name == qs[id].name && ps[id].manifest == qs[id].manifest
    ensures Flatten(order, ps) == Flatten(order, qs)
  {
    if order != [] {
      var past, last := Init(order), Last(order);
      assert order == past + [last];
      FlattenAgrees(past, ps, qs);
    }
  }

  lemma {:induction false} FlattenWithout(order: seq<string>, ps: Plugins, ids: set<string>, gone: string -> bool)
    requires Holds(order, ps) && Holds(Keep(order, gone), ps)
    requires forall id :: id in order ==> (gone(id) <==> id in ids)
    ensures Without(Flatten(order, ps), ids) == Flatten(Keep(order, gone), ps)
  {
    if order != [] {
      var past, id := Init(order), Last(order);
      assert order == past + [id];
      KeepFilters(past, gone);
      assert Holds(Keep(past, gone), ps);
      FlattenWithout(past, ps, ids, gone);
      var mine := Entries(id, ps[id].name, ps[id].manifest.routes);
      WithoutAppend(Flatten(past, ps), mine, ids);
      WithoutOfOne(mine, id, ids);
      if gone(id) {
        assert Keep(order, gone) == Keep(past, gone);
      } else {
        assert Init(Keep(order, gone)) == Keep(past, gone);
      }
    }
  }

  lemma EmptiedStaysInStep<L>(c: Core<L>, order: seq<string>, ids: set<string>, gone: string -> bool)
    requires InStep(c, order)
    requires forall id :: id in order ==> (gone(id) <==> id in ids)
    ensures InStep(Emptied(c, ids), Keep(order, gone))
  {
    KeepFilters(order, gone);
    var kept := Keep(order, gone);
    assert Holds(kept, c.plugins);
    FlattenWithout(order, c.plugins, ids, gone);
    assert Holds(kept, c.plugins - ids);
    FlattenAgrees(kept, c.plugins, c.plugins - ids);
  }

  // ---- Addition ----------------------------------------------------------------------------

  lemma {:induction false} FlattenHasOnly(order: seq<string>, ps: Plugins)
    requires Holds(order, ps)
    ensures forall r :: r in Flatten(order, ps) ==>
              r.pluginID in order && r in Entries(r.pluginID, ps[r.pluginID].name, ps[r.pluginID].manifest.routes)
  {
    if order != [] {
      var past, last := Init(order), Last(order);
      assert order == past + [last];
      FlattenHasOnly(past, ps);
    }
  }

  lemma {:induction false} WithoutAbsent(rs: seq<RouteEntry>, id: string)
    requires forall r :: r in rs ==> r.pluginID != id
    ensures Without(rs, {id}) == rs
  {
    if rs != [] {
      var past, last := Init(rs), Last(rs);
      assert rs == past + [last];
      WithoutAbsent(past, id);
    }
  }

  lemma FlattenMore(order: seq<string>, ps: Plugins, id: string, entry: PluginEntry)
    requires Holds(order, ps) && id !in order
    ensures Flatten(order + [id], ps[id := entry]) == Flatten(order, ps) + Entries(id, entry.name, entry.manifest.routes)
  {
    FlattenAgrees(order, ps, ps[id := entry]);
    assert Init(order + [id]) == order;
  }

  lemma StillUnique(order: seq<string>, ps: Plugins, id: string, entry: PluginEntry)
    requires NamesUnique(ps) && Distinct(order) && id !in order
    requires forall other :: other in ps ==> ps[other].name != entry.name
    ensures NamesUnique(ps[id := entry]) && Distinct(order + [id])
  {
  }

  lemma WithPluginKeepsKeys<L>(c: Core<L>, order: seq<string>, id: string, entry: PluginEntry, rl: L, trl: Option<L>)
    requires KeysInStep(c, order) && id !in order
    requires entry.name == NameOf(id) == entry.manifest.name
    requires forall other :: other in c.plugins ==> c.plugins[other].name != entry.name
    ensures KeysInStep(WithPlugin(c, id, entry, rl, trl), order + [id])
  {
    StillUnique(order, c.plugins, id, entry);
  }

  lemma WithPluginStaysInStep<L>(c: Core<L>, order: seq<string>, id: string, entry: PluginEntry, rl: L, trl: Option<L>)
    requires InStep(c, order)
    requires entry.name == NameOf(id) == entry.manifest.name
    requires forall other :: other in c.plugins ==> c.plugins[other].name != entry.name
    ensures InStep(WithPlugin(c, id, entry, rl, trl), order + [id])
  {
    assert id !in order;
    WithPluginKeepsKeys(c, order, id, entry, rl, trl);
    FlattenHasOnly(order, c.plugins);
    WithoutAbsent(c.table, id);
    FlattenMore(order, c.plugins, id, entry);
  }

  lemma NameOfPluginID(name: string, tag: Tag)
    ensures NameOf(PluginID(name, tag)) == name
  {
    assert PluginID(name, tag)[..|name|] == name;
  }

  /** Alive flags and heartbeat times are not what the stores agree on. */
  lemma SameEntriesStayInStep<L>(c: Core<L>, order: seq<string>, ps: Plugins)
    requires InStep(c, order) && ps.Keys == c.plugins.Keys
    requires forall id :: id in ps ==> ps[id].name == c.plugins[id].name && ps[id].manifest == c.plugins[id].manifest
    ensures InStep(c.(plugins := ps), order)
  {
    FlattenAgrees(order, c.plugins, ps);
  }

  lemma RegisterStaysInStep<L>(c: Core<L>, order: seq<string>, a: Action<L>)
    requires InStep(c, order) && a.Register?
    ensures InStep(Do(c, a), Reordered(order, a))
  {
    var ids, gone := IDsNamed(c.plugins, a.m.name), (id: string) => NameOf(id) == a.m.name;
    EmptiedStaysInStep(c, order, ids, gone);
    NameOfPluginID(a.m.name, a.tag);
    WithPluginStaysInStep(Emptied(c, ids), Keep(order, gone), PluginID(a.m.name, a.tag),
                          NewEntry(a.baseURL, a.m, a.now), a.rl, a.trl);
  }

  lemma DeregisterStaysInStep<L>(c: Core<L>, order: seq<string>, a: Action<L>)
    requires InStep(c, order) && a.Deregister?
    ensures InStep(Do(c, a), Reordered(order, a))
  {
    var gone := (id: string) => id == a.id;
    if a.id in c.plugins {
      EmptiedStaysInStep(c, order, {a.id}, gone);
    } else {
      KeepAll(order, gone);
    }
  }

  lemma StepStaysInStep<L>(c: Core<L>, order: seq<string>, a: Action<L>)
    requires InStep(c, order)
    ensures InStep(Do(c, a), Reordered(order, a))
  {
    match a
    case Register(_, _, _, _, _, _) => RegisterStaysInStep(c, order, a);
    case Deregister(_) => DeregisterStaysInStep(c, order, a);
    case Beat(id, now) => SameEntriesStayInStep(c, order, Refreshed(c.plugins, id, now));
    case MarkDead(id) => SameEntriesStayInStep(c, order, Dead(c.plugins, id));
  }

  lemma {:induction false} KeepAll(order: seq<string>, gone: string -> bool)
    requires forall id :: id in order ==> !gone(id)
    ensures Keep(order, gone) == order
  {
    if order != [] {
      var past, last := Init(order), Last(order);
      assert order == past + [last];
      KeepAll(past, gone);
    }
  }

  /** Every history keeps the four stores in step and every registered name unique. */
  lemma {:induction false} StaysInStep<L>(h: seq<Action<L>>)
    ensures InStep(Exec(h), Order(h))
  {
    if h != [] {
      StaysInStep(Init(h));
      StepStaysInStep(Exec(Init(h)), Order(Init(h)), Last(h));
    }
  }

  /** Whatever wins a request belongs to a registered plugin, under its name and from its own manifest. */
  lemma MatchNamesRegistered<L>(h: seq<Action<L>>, verb: string, path: string)
    requires Match(Exec(h).table, verb, path).Some?
    ensures var (r, ps) := (Match(Exec(h).table, verb, path).value, Exec(h).plugins);
            && r.pluginID in ps && r.pluginName == ps[r.pluginID].name
            && r in Entries(r.pluginID, r.pluginName, ps[r.pluginID].manifest.routes)
            && r.pluginID in Exec(h).pluginRL
  {
    StaysInStep(h);
    MatchIsThere(Exec(h).table, verb, path);
    FlattenHasOnly(Order(h), Exec(h).plugins);
  }

  /** The routes of one plugin, in order. */
  function Own(rs: seq<RouteEntry>, id: string): seq<RouteEntry> {
    if rs == [] then [] else Own(Init(rs), id) + if Last(rs).pluginID == id then [Last(rs)] else []
  }

  lemma {:induction false} OwnAppend(a: seq<RouteEntry>, b: seq<RouteEntry>, id: string)
    requires forall i :: 0 <= i < |b| ==> b[i].pluginID != id
    ensures Own(a + b, id) == Own(a, id)
  {
    if b == [] {
      assert a + b == a;
    } else {
      assert Init(a + b) == a + Init(b) && Last(a + b) == b[|b| - 1];
      OwnAppend(a, Init(b), id);
    }
  }

  lemma {:induction false} OwnWithout(rs: seq<RouteEntry>, ids: set<string>, id: string)
    requires id !in ids
    ensures Own(Without(rs, ids), id) == Own(rs, id)
  {
    if rs != [] {
      var past, last := Init(rs), Last(rs);
      OwnWithout(past, ids, id);
      if last.pluginID !in ids {
        assert Init(Without(past, ids) + [last]) == Without(past, ids);
      } else {
        assert Without(rs, ids) == Without(past, ids) && Own(rs, id) == Own(past, id);
      }
    }
  }

  /** A registration touches no plugin of another name: not its entry, its routes or its limiters. */
  lemma RegisterKeepsOthers<L>(h: seq<Action<L>>, a: Action<L>, id: string)
    requires a.Register? && id in Exec(h).plugins && Exec(h).plugins[id].name != a.m.name
    ensures var (c, d) := (Exec(h), Do(Exec(h), a));
            && id in d.plugins && d.plugins[id] == c.plugins[id]
            && Find(d.pluginRL, id) == Find(c.pluginRL, id) && Find(d.tenantRL, id) == Find(c.tenantRL, id)
            && Own(d.table, id) == Own(c.table, id)
  {
    var c, fresh_, ids := Exec(h), PluginID(a.m.name, a.tag), IDsNamed(Exec(h).plugins, a.m.name);
    StaysInStep(h);
    NameOfPluginID(a.m.name, a.tag);
    OwnWithout(c.table, ids, id);
    OwnWithout(Without(c.table, ids), {fresh_}, id);
    OwnAppend(Without(Without(c.table, ids), {fresh_}), Entries(fresh_, a.m.name, a.m.routes), id);
  }

  /** After a registration the new instance is the only one of its name, with the routes of its manifest last. */
  lemma RegistrationReplaces<L>(h: seq<Action<L>>, a: Action<L>)
    requires a.Register?
    ensures var (c, d, id) := (Exec(h), Do(Exec(h), a), PluginID(a.m.name, a.tag));
            && IDsNamed(d.plugins, a.m.name) == {id} && d.plugins[id] == NewEntry(a.baseURL, a.m, a.now)
            && Find(d.pluginRL, id) == Some(a.rl) && Find(d.tenantRL, id) == a.trl
            && d.table == Without(c.table, IDsNamed(c.plugins, a.m.name)) + Entries(id, a.m.name, a.m.routes)
  {
    var c, id, ids := Exec(h), PluginID(a.m.name, a.tag), IDsNamed(Exec(h).plugins, a.m.name);
    StaysInStep(h);
    NameOfPluginID(a.m.name, a.tag);
    FlattenHasOnly(Order(h), c.plugins);
    WithoutHasNone(c.table, ids);
    WithoutAbsent(Without(c.table, ids), id);
  }

  /** The last registration of the ID, if there was one. */
  function Born<L>(h: seq<Action<L>>, id: string): Option<Action<L>> {
    if h == [] then None
    else if Last(h).Register? && PluginID(Last(h).m.name, Last(h).tag) == id then Some(Last(h))
    else Born(Init(h), id)
  }

  /** A registered plugin has the limiters its last registration brought. */
  lemma {:induction false} LimitersAreBorn<L>(h: seq<Action<L>>, id: string)
    requires id in Exec(h).plugins
    ensures var born := Born(h, id);
            && born.Some? && born.value.Register?
            && Find(Exec(h).pluginRL, id) == Some(born.value.rl) && Find(Exec(h).tenantRL, id) == born.value.trl
  {
    var past, a := Init(h), Last(h);
    if !(a.Register? && PluginID(a.m.name, a.tag) == id) {
      LimitersAreBorn(past, id);
    }
  }

  // ---- Plugin tokens -----------------------------------------------------------------------

  const TOKEN_TTL: real := 86400.0

  lemma DotOfPluginID(name: string, tag: Tag)
    requires '.' !in tag
    ensures '.' in PluginID(name, tag) <==> '.' in name
  {
    assert PluginID(name, tag) == name + ("-" + tag);
  }

  /**
   * The token handed out at registration lets its holder act for an ID exactly when that is the ID registered,
   * within a day, and the manifest's name has no dot: a plugin whose name has one can neither report itself
   * alive nor deregister.
   */
  lemma TokenOpensIff(mac: Mac, name: Bytes, tag: Tag, id: string, issued: real, now: real)
    requires '.' !in tag && forall i :: 0 <= i < |tag| ==> tag[i] as int < 256
    requires INT64_MIN <= Unix(issued + TOKEN_TTL) <= INT64_MAX
    ensures Opens(mac, Issue(mac, PluginID(name, tag), issued, TOKEN_TTL), id, now)
            <==> '.' !in name && id == PluginID(name, tag) && now.Floor <= (issued + 86400.0).Floor
  {
    DotOfPluginID(name, tag);
    OpensIff(mac, PluginID(name, tag), id, issued, TOKEN_TTL, now);
  }
}
