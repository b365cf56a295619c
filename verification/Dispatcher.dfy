/**
 * internal/dispatcher/dispatcher.go: the route table over its backing array, compacted in place,
 * and the rate limiters that come and go with a plugin's routes.
 */
module Dispatchers {
  import opened Options
  import opened Routes
  import opened TokenBucket

  /** The limits config.For yields for a plugin, and whether the plugin has an entry of its own there. */
  datatype PluginLimits = PluginLimits(plugin: Limits, tenant: Limits, overridden: bool)

  /** A public plugin gets a tenth of the limits, unless an override names its own. */
  function Scale(l: Limits, pluginType: string, overridden: bool): (r: Limits)
    ensures pluginType == "public" && !overridden ==> 10.0 * r.rate == l.rate && 10.0 * r.burst == l.burst
    ensures pluginType != "public" || overridden ==> r == l
  {
    if pluginType == "public" && !overridden then Limits(l.rate / 10.0, l.burst / 10.0) else l
  }

  class Dispatcher {
    var backing: array<RouteEntry>
    var count: nat
    var pluginRL: map<string, RateLimiter>
    var tenantRL: map<string, RateLimiter>

    ghost predicate Valid()
      reads this
    {
      count <= backing.Length
    }

    /** The routes slice. */
    ghost function Table(): seq<RouteEntry>
      requires Valid()
      reads this, backing
    {
      backing[..count]
    }

    constructor ()
      ensures Valid() && fresh(backing) && Table() == [] && pluginRL == map[] && tenantRL == map[]
    {
      backing := new RouteEntry[0];
      count := 0;
      pluginRL := map[];
      tenantRL := map[];
    }

    /** The filter overwrites the slice it is still reading, always behind the read position. */
    method DropRoutes(id: string)
      requires Valid()
      modifies this`count, backing
      ensures Valid()
      ensures Table() == Without(old(Table()), {id})
    {
      var kept := 0;
      for i := 0 to count
        invariant kept <= i
        invariant backing[..kept] == Without(old(backing[..i]), {id})
        invariant backing[i..] == old(backing[i..])
      {
        var r := backing[i];
        assert old(backing[..i + 1]) == old(backing[..i]) + [r];
        if r.pluginID != id {
          backing[kept] := r;
          kept := kept + 1;
        }
        assert backing[i + 1..] == backing[i..][1..];
      }
      count := kept;
    }

    /** append: in place while the capacity lasts, into a new array once it does not. */
    method Append(r: RouteEntry)
      requires Valid()
      modifies this`count, this`backing, backing
      ensures Valid()
      ensures backing == old(backing) || fresh(backing)
      ensures Table() == old(Table()) + [r]
    {
      if count == backing.Length {
        var old_ := backing;
        var grown := new RouteEntry[2 * count + 1](i requires 0 <= i reads old_ => if i < old_.Length then old_[i] else r);
        backing := grown;
      }
      backing[count] := r;
      count := count + 1;
    }

    method AddRoutes(id: string, name: string, pluginType: string, routes: seq<Route>, limits: PluginLimits)
      requires Valid()
      modifies this, backing
      ensures Valid() && (backing == old(backing) || fresh(backing))
      ensures Table() == Without(old(Table()), {id}) + Entries(id, name, routes)
      ensures id in pluginRL && fresh(pluginRL[id]) && pluginRL == old(pluginRL)[id := pluginRL[id]]
      ensures pluginRL[id].limits == Scale(limits.plugin, pluginType, limits.overridden)
      ensures pluginRL[id].Valid() && pluginRL[id].Buckets() == map[]
      ensures id in tenantRL <==> limits.tenant.rate > 0.0
      ensures id in tenantRL ==>
                && fresh(tenantRL[id]) && tenantRL[id] != pluginRL[id] && tenantRL == old(tenantRL)[id := tenantRL[id]]
                && tenantRL[id].limits == Scale(limits.tenant, pluginType, limits.overridden)
                && tenantRL[id].Valid() && tenantRL[id].Buckets() == map[]
      ensures id !in tenantRL ==> tenantRL == old(tenantRL) - {id}
    {
      DropRoutes(id);
      for i := 0 to |routes|
        invariant Valid() && (backing == old(backing) || fresh(backing))
        invariant Table() == Without(old(Table()), {id}) + Entries(id, name, routes)[..i]
        invariant pluginRL == old(pluginRL) && tenantRL == old(tenantRL)
      {
        Append(Entry(id, name, routes[i]));
      }
      RenewLimiters(id, pluginType, limits);
    }

    /** The second half of AddRoutes: a fresh plugin-wide bucket, and a fresh tenant one or none. */
    method RenewLimiters(id: string, pluginType: string, limits: PluginLimits)
      modifies this`pluginRL, this`tenantRL
      ensures id in pluginRL && fresh(pluginRL[id]) && pluginRL == old(pluginRL)[id := pluginRL[id]]
      ensures pluginRL[id].limits == Scale(limits.plugin, pluginType, limits.overridden)
      ensures pluginRL[id].Valid() && pluginRL[id].Buckets() == map[]
      ensures id in tenantRL <==> limits.tenant.rate > 0.0
      ensures id in tenantRL ==>
                && fresh(tenantRL[id]) && tenantRL[id] != pluginRL[id] && tenantRL == old(tenantRL)[id := tenantRL[id]]
                && tenantRL[id].limits == Scale(limits.tenant, pluginType, limits.overridden)
                && tenantRL[id].Valid() && tenantRL[id].Buckets() == map[]
      ensures id !in tenantRL ==> tenantRL == old(tenantRL) - {id}
    {
      var l := Scale(limits.plugin, pluginType, limits.overridden);
      var limiter := new RateLimiter(l.rate, l.burst);
      pluginRL := pluginRL[id := limiter];
      if limits.tenant.rate > 0.0 {
        var t := Scale(limits.tenant, pluginType, limits.overridden);
        var tenantLimiter := new RateLimiter(t.rate, t.burst);
        tenantRL := tenantRL[id := tenantLimiter];
      } else {
        tenantRL := tenantRL - {id};
      }
    }

    method RemoveRoutes(id: string)
      requires Valid()
      modifies this, backing
      ensures Valid() && backing == old(backing)
      ensures Table() == Without(old(Table()), {id})
      ensures pluginRL == old(pluginRL) - {id} && tenantRL == old(tenantRL) - {id}
    {
      DropRoutes(id);
      pluginRL := pluginRL - {id};
      tenantRL := tenantRL - {id};
    }

    method MatchRoute(verb: string, path: string) returns (winner: Option<RouteEntry>)
      requires Valid()
      ensures winner == Match(Table(), verb, path)
      ensures match winner
              case Some(r) => exists i :: 0 <= i < |Table()| && Table()[i] == r && Wins(Table(), i, verb, path)
              case None => forall r :: r in Table() ==> !Serves(r, verb, path)
    {
      MatchIsWinner(Table(), verb, path);
      for i := 0 to count
        invariant FirstLiteral(Table(), verb, path) == FirstLiteral(Table()[i..], verb, path)
      {
        var r := backing[i];
        assert Table()[i..][0] == r && Table()[i..][1..] == Table()[i + 1..];
        if Literal(r, verb, path) {
          return Some(r);
        }
      }
      for i := 0 to count
        invariant FirstCovering(Table(), verb, path) == FirstCovering(Table()[i..], verb, path)
      {
        var r := backing[i];
        assert Table()[i..][0] == r && Table()[i..][1..] == Table()[i + 1..];
        if Covers(r, verb, path) {
          return Some(r);
        }
      }
      return None;
    }
  }
}
