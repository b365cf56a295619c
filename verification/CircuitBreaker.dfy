/** internal/protection/circuit_breaker.go: a breaker per plugin, tripped by failures or by the health monitor. */
module CircuitBreaking {
  import opened Options

  datatype State = Closed | Open | HalfOpen

  /** Consecutive failures that trip the breaker, and how long it then refuses, in seconds. */
  datatype Settings = Settings(threshold: int, resetTimeout: real)

  datatype Circuit = Circuit(state: State, failures: int, lastFailure: real)

  /** What the maps read for a plugin never seen: the zero time is read only after a trip sets it. */
  const FRESH := Circuit(Closed, 0, 0.0)

  /** What happens to one plugin's circuit, in lock order. Allow is a call whatever its answer. */
  datatype Event =
    | Allow(at: real)
    | Success(at: real)
    | Failure(at: real)
    | Reset(at: real)
    | ForceOpen(at: real)

  predicate Admits(cfg: Settings, c: Circuit, now: real) {
    c.state == Open ==> now - c.lastFailure > cfg.resetTimeout
  }

  function Step(cfg: Settings, c: Circuit, e: Event): Circuit {
    match e
    case Allow(at) => if c.state == Open && Admits(cfg, c, at) then c.(state := HalfOpen) else c
    case Success(_) => c.(state := Closed, failures := 0)
    case Reset(_) => c.(state := Closed, failures := 0)
    case Failure(at) =>
      Circuit(if c.failures + 1 >= cfg.threshold then Open else c.state, c.failures + 1, at)
    case ForceOpen(at) => c.(state := Open, lastFailure := at)
  }

  function Run(cfg: Settings, es: seq<Event>): Circuit {
    if es == [] then FRESH else Step(cfg, Run(cfg, Init(es)), Last(es))
  }

  class CircuitBreaker {
    var states: map<string, State>
    var failures: map<string, int>
    var lastFailure: map<string, real>
    const cfg: Settings

    ghost function At(plugin: string): Circuit
      reads this
    {
      Circuit(GetOr(states, plugin, Closed), GetOr(failures, plugin, 0), GetOr(lastFailure, plugin, 0.0))
    }

    /** The method did to `plugin` what the event does, and nothing to any other plugin. */
    twostate predicate Took(plugin: string, e: Event)
      reads this
    {
      && At(plugin) == Step(cfg, old(At(plugin)), e)
      && forall other :: other != plugin ==> At(other) == old(At(other))
    }

    constructor (threshold: int, resetTimeout: real)
      ensures cfg == Settings(threshold, resetTimeout)
      ensures forall plugin :: At(plugin) == FRESH
    {
      states := map[];
      failures := map[];
      lastFailure := map[];
      cfg := Settings(threshold, resetTimeout);
    }

    method Allow(plugin: string, now: real) returns (ok: bool)
      modifies this
      ensures ok == Admits(cfg, old(At(plugin)), now)
      ensures Took(plugin, Event.Allow(now))
    {
      match GetOr(states, plugin, Closed)
      case Open =>
        if now - GetOr(lastFailure, plugin, 0.0) > cfg.resetTimeout {
          states := states[plugin := HalfOpen];
          return true;
        }
        return false;
      case Closed => return true;
      case HalfOpen => return true;
    }

    method RecordSuccess(plugin: string, ghost now: real)
      modifies this
      ensures Took(plugin, Success(now))
    {
      failures := failures[plugin := 0];
      states := states[plugin := Closed];
    }

    method RecordFailure(plugin: string, now: real)
      modifies this
      ensures Took(plugin, Failure(now))
    {
      failures := failures[plugin := GetOr(failures, plugin, 0) + 1];
      lastFailure := lastFailure[plugin := now];
      if failures[plugin] >= cfg.threshold {
        states := states[plugin := Open];
      }
    }

    method ResetPlugin(plugin: string, ghost now: real)
      modifies this
      ensures Took(plugin, Reset(now))
    {
      failures := failures[plugin := 0];
      states := states[plugin := Closed];
    }

    method Trip(plugin: string, now: real)
      modifies this
      ensures Took(plugin, ForceOpen(now))
    {
      states := states[plugin := Open];
      lastFailure := lastFailure[plugin := now];
    }
  }
}
