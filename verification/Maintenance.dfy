/** internal/registry/maintenance.go: clamped windows per plugin name, dropped lazily once expired. */
module Maintenances {
  import opened Options

  /** Fifteen minutes, in seconds. */
  const MAX_MAINTENANCE := 900.0

  datatype Window = Window(reason: string, since: real, until: real)

  type Windows = map<string, Window>

  /** Fifteen minutes for anything that is not a positive length within them. */
  function Clamp(d: real): (r: real)
    ensures r == d || r == 15.0 * 60.0
    ensures r == d <==> 0.0 < d <= 15.0 * 60.0
  {
    if d <= 0.0 || d > MAX_MAINTENANCE then MAX_MAINTENANCE else d
  }

  /** The window a Set stores: an open one keeps its start. */
  function Opened(ws: Windows, name: string, reason: string, d: real, now: real): Window {
    var since := if name in ws && now < ws[name].until then ws[name].since else now;
    Window(reason, since, now + Clamp(d))
  }

  /** What a request for `name` at `now` is told. */
  function OpenWindow(ws: Windows, name: string, now: real): Option<Window> {
    if name in ws && now <= ws[name].until then Some(ws[name]) else None
  }

  /** What asking leaves behind: an expired window is gone. */
  function Asked(ws: Windows, name: string, now: real): Windows {
    if OpenWindow(ws, name, now).None? then ws - {name} else ws
  }

  class MaintenanceStore {
    var windows: Windows

    constructor ()
      ensures windows == map[]
    {
      windows := map[];
    }

    method SetMaintenance(name: string, reason: string, d: real, now: real) returns (w: Window)
      modifies this
      ensures w == Opened(old(windows), name, reason, d, now)
      ensures windows == old(windows)[name := w]
    {
      var length := d;
      if length <= 0.0 || length > MAX_MAINTENANCE {
        length := MAX_MAINTENANCE;
      }
      w := Window(reason, now, now + length);
      if name in windows && now < windows[name].until {
        w := w.(since := windows[name].since);
      }
      windows := windows[name := w];
    }

    method ClearMaintenance(name: string)
      modifies this
      ensures windows == old(windows) - {name}
    {
      windows := windows - {name};
    }

    method MaintenanceFor(name: string, now: real) returns (w: Option<Window>)
      modifies this
      ensures w == OpenWindow(old(windows), name, now)
      ensures windows == Asked(old(windows), name, now)
    {
      if name !in windows {
        return None;
      }
      if now > windows[name].until {
        ClearMaintenance(name);
        return None;
      }
      return Some(windows[name]);
    }

    /** Every open window; the listing drops the expired ones on its way. */
    method List(now: real) returns (open: Windows)
      modifies this
      ensures forall name :: name in open <==> OpenWindow(old(windows), name, now).Some?
      ensures forall name :: name in open ==> name in old(windows) && open[name] == old(windows)[name]
      ensures windows == open
    {
      open := map[];
      var todo := windows.Keys;
      while todo != {}
        invariant todo <= windows.Keys && todo !! open.Keys
        invariant forall name :: name in windows <==> name in todo || name in open
        invariant forall name :: name in windows ==> name in old(windows) && windows[name] == old(windows)[name]
        invariant forall name :: name in old(windows) && name !in windows ==> now > old(windows)[name].until
        invariant forall name :: name in open ==> open[name] == windows[name] && now <= open[name].until
        decreases todo
      {
        var name :| name in todo;
        var w := MaintenanceFor(name, now);
        if w.Some? {
          open := open[name := w.value];
        }
        todo := todo - {name};
      }
    }
  }

  /** int(time.Until(w.Until).Seconds()) + 1: truncated toward zero, then one more. */
  function RetryAfter(w: Window, now: real): int {
    var left := w.until - now;
    (if left >= 0.0 then left.Floor else -(-left).Floor) + 1
  }
}
