/** internal/protection/bulkhead.go: a cap on in-flight requests per plugin. */
module Bulkheads {
  import opened Options

  function Slots(active: map<string, int>, plugin: string): int {
    GetOr(active, plugin, 0)
  }

  predicate HasRoom(maxConc: int, active: map<string, int>, plugin: string) {
    Slots(active, plugin) < maxConc
  }

  function Acquired(active: map<string, int>, plugin: string): map<string, int> {
    active[plugin := Slots(active, plugin) + 1]
  }

  /** Release never goes below zero; that it never has to is a fact about its callers. */
  function Released(active: map<string, int>, plugin: string): map<string, int> {
    if Slots(active, plugin) > 0 then active[plugin := Slots(active, plugin) - 1] else active
  }

  class Bulkhead {
    var active: map<string, int>
    const maxConc: int

    constructor (maxConcurrent: int)
      ensures active == map[] && maxConc == maxConcurrent
    {
      active := map[];
      maxConc := maxConcurrent;
    }

    method Acquire(plugin: string) returns (ok: bool)
      modifies this
      ensures ok == HasRoom(maxConc, old(active), plugin)
      ensures active == if ok then Acquired(old(active), plugin) else old(active)
    {
      if GetOr(active, plugin, 0) >= maxConc {
        return false;
      }
      active := active[plugin := GetOr(active, plugin, 0) + 1];
      return true;
    }

    method Release(plugin: string)
      modifies this
      ensures active == Released(old(active), plugin)
    {
      if GetOr(active, plugin, 0) > 0 {
        active := active[plugin := active[plugin] - 1];
      }
    }
  }
}
