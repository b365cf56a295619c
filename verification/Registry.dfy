/** internal/registry/registry.go: the ID-keyed store of registered plugins. */
module Registries {
  import opened Options
  import opened Manifests

  datatype PluginEntry = PluginEntry(
    name: string,
    baseURL: string,
    manifest: Manifest,
    registeredAt: real,
    lastHeartbeat: real,
    alive: bool)

  type Plugins = map<string, PluginEntry>

  function NewEntry(baseURL: string, m: Manifest, now: real): PluginEntry {
    PluginEntry(m.name, baseURL, m, now, now, true)
  }

  function IDsNamed(ps: Plugins, name: string): set<string> {
    set id | id in ps && ps[id].name == name
  }

  function Refreshed(ps: Plugins, id: string, now: real): Plugins {
    if id in ps then ps[id := ps[id].(lastHeartbeat := now, alive := true)] else ps
  }

  function Dead(ps: Plugins, id: string): Plugins {
    if id in ps then ps[id := ps[id].(alive := false)] else ps
  }

  class Registry {
    var plugins: Plugins

    constructor ()
      ensures plugins == map[]
    {
      plugins := map[];
    }

    /** `parses` is whether url.Parse accepts the base URL. */
    method Register(id: string, baseURL: string, m: Manifest, parses: bool, now: real) returns (ok: bool)
      modifies this
      ensures ok == parses
      ensures plugins == if parses then old(plugins)[id := NewEntry(baseURL, m, now)] else old(plugins)
    {
      if parses {
        plugins := plugins[id := PluginEntry(m.name, baseURL, m, now, now, true)];
      }
      return parses;
    }

    method Heartbeat(id: string, now: real) returns (ok: bool)
      modifies this
      ensures ok == (id in old(plugins))
      ensures plugins == Refreshed(old(plugins), id, now)
    {
      if id !in plugins {
        return false;
      }
      plugins := plugins[id := plugins[id].(lastHeartbeat := now, alive := true)];
      return true;
    }

    method Deregister(id: string)
      modifies this
      ensures plugins == old(plugins) - {id}
    {
      plugins := plugins - {id};
    }

    method MarkDead(id: string)
      modifies this
      ensures plugins == Dead(old(plugins), id)
    {
      if id in plugins {
        plugins := plugins[id := plugins[id].(alive := false)];
      }
    }

    method List() returns (entries: seq<PluginEntry>)
      ensures multiset(entries) == multiset(Values(plugins.Keys, plugins))
    {
      entries := [];
      var todo := plugins.Keys;
      while todo != {}
        invariant todo <= plugins.Keys
        invariant multiset(entries) + multiset(Values(todo, plugins)) == multiset(Values(plugins.Keys, plugins))
        decreases todo
      {
        var id :| id in todo;
        ValuesTake(todo, plugins, id);
        entries := entries + [plugins[id]];
        todo := todo - {id};
      }
    }

    method IDsByName(name: string) returns (ids: seq<string>)
      ensures forall id :: id in ids <==> id in IDsNamed(plugins, name)
    {
      ids := [];
      var todo := plugins.Keys;
      while todo != {}
        invariant todo <= plugins.Keys
        invariant forall id :: id in ids <==> id in IDsNamed(plugins, name) && id !in todo
        decreases todo
      {
        var id :| id in todo;
        if plugins[id].name == name {
          ids := ids + [id];
        }
        todo := todo - {id};
      }
    }

    /** A live plugin of that name, whichever the map yields first. */
    method FindByName(name: string) returns (found: Option<PluginEntry>)
      ensures found.Some? ==> exists id :: id in plugins && plugins[id] == found.value && found.value.name == name && found.value.alive
      ensures found.None? ==> forall id :: id in plugins ==> !(plugins[id].name == name && plugins[id].alive)
    {
      var todo := plugins.Keys;
      while todo != {}
        invariant todo <= plugins.Keys
        invariant forall id :: id in plugins && id !in todo ==> !(plugins[id].name == name && plugins[id].alive)
        decreases todo
      {
        var id :| id in todo;
        if plugins[id].name == name && plugins[id].alive {
          return Some(plugins[id]);
        }
        todo := todo - {id};
      }
      return None;
    }
  }

  /** The entries of `ids` in some fixed order: what a range over the map yields, up to order. */
  ghost function Values(ids: set<string>, ps: Plugins): seq<PluginEntry>
    requires ids <= ps.Keys
  {
    if ids == {} then [] else var id :| id in ids; [ps[id]] + Values(ids - {id}, ps)
  }

  lemma {:induction false} ValuesTake(ids: set<string>, ps: Plugins, id: string)
    requires id in ids && ids <= ps.Keys
    ensures multiset(Values(ids, ps)) == multiset{ps[id]} + multiset(Values(ids - {id}, ps))
    decreases ids
  {
    var first :| first in ids && Values(ids, ps) == [ps[first]] + Values(ids - {first}, ps);
    if first != id {
      ValuesTake(ids - {first}, ps, id);
      ValuesTake(ids - {id}, ps, first);
      assert ids - {first} - {id} == ids - {id} - {first};
    }
  }
}
