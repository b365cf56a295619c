/** Maintenance as its plain history: lazy dropping is invisible, and Retry-After is always long enough. */
module MaintenanceLaws {
  import opened Options
  import opened Maintenances

  /** What happens to the store, in lock order. Ask is a MaintenanceFor call, by a request or a listing. */
  datatype Event =
    | Set(name: string, reason: string, d: real, at: real)
    | Clear(name: string, at: real)
    | Ask(name: string, at: real)

  function Step(ws: Windows, e: Event): Windows {
    match e
    case Set(name, reason, d, at) => ws[name := Opened(ws, name, reason, d, at)]
    case Clear(name, _) => ws - {name}
    case Ask(name, at) => Asked(ws, name, at)
  }

  function Run(es: seq<Event>): Windows {
    if es == [] then map[] else Step(Run(Init(es)), Last(es))
  }

  ghost predicate Timely(es: seq<Event>) {
    forall i, j :: 0 <= i <= j < |es| ==> es[i].at <= es[j].at
  }

  /** The history up to and including the last Set or Clear on `name`; empty if there was none. */
  function LastWord(es: seq<Event>, name: string): (r: seq<Event>)
    ensures r <= es
    ensures r == [] || (Last(r).name == name && !Last(r).Ask?)
  {
    if es == [] || (Last(es).name == name && !Last(es).Ask?) then es else LastWord(Init(es), name)
  }

  /** Until when the last word on `name` keeps it under maintenance; `None` if that was not a Set. */
  function Until(es: seq<Event>, name: string): Option<real> {
    var word := LastWord(es, name);
    if word != [] && Last(word).Set? then Some(Last(word).at + Clamp(Last(word).d)) else None
  }

  /** Start of the unbroken chain of Sets that ends in the last word on `name`, itself a Set. */
  function ChainStart(es: seq<Event>, name: string): real
    requires Until(es, name).Some?
    decreases |LastWord(es, name)|
  {
    var word := LastWord(es, name);
    var before := Init(word);
    if Until(before, name).Some? && Last(word).at < Until(before, name).value
    then ChainStart(before, name)
    else Last(word).at
  }

  /** The last Set with its chain's start, if it still runs at `now`. */
  function InForce(es: seq<Event>, name: string, now: real): Option<Window> {
    if Until(es, name).Some? && now <= Until(es, name).value
    then Some(Window(Last(LastWord(es, name)).reason, ChainStart(es, name), Until(es, name).value))
    else None
  }

  lemma LastWordSkips(es: seq<Event>, name: string)
    requires es != [] && (Last(es).name != name || Last(es).Ask?)
    ensures LastWord(es, name) == LastWord(Init(es), name)
    ensures Until(es, name) == Until(Init(es), name)
    ensures Until(es, name).Some? ==> ChainStart(es, name) == ChainStart(Init(es), name)
  {
  }

  /** What the store holds for a name: nothing, or the window its history puts in force, perhaps expired. */
  ghost predicate Tells(ws: Windows, es: seq<Event>, name: string, now: real) {
    if name in ws then
      && Until(es, name) == Some(ws[name].until)
      && ws[name] == Window(Last(LastWord(es, name)).reason, ChainStart(es, name), ws[name].until)
    else Until(es, name).None? || Until(es, name).value < now
  }

  lemma {:induction false} StoreTellsHistory(es: seq<Event>, name: string, now: real)
    requires Timely(es) && (es != [] ==> Last(es).at <= now)
    ensures Tells(Run(es), es, name, now)
  {
    if es != [] {
      var past, e := Init(es), Last(es);
      assert Timely(past);
      assert past != [] ==> Last(past).at <= e.at;
      StoreTellsHistory(past, name, e.at);
      if e.name != name || e.Ask? {
        LastWordSkips(es, name);
      }
    }
  }

  /**
   * A name is under maintenance exactly while the last Set or Clear on it was a Set no older than its
   * clamped length, and the window reported starts where the unbroken chain of Sets does.
   */
  lemma MaintenanceIsItsHistory(es: seq<Event>, name: string, now: real)
    requires Timely(es) && (es != [] ==> Last(es).at <= now)
    ensures OpenWindow(Run(es), name, now) == InForce(es, name, now)
  {
    StoreTellsHistory(es, name, now);
  }

  function Unasked(es: seq<Event>): seq<Event> {
    if es == [] then [] else Unasked(Init(es)) + if Last(es).Ask? then [] else [Last(es)]
  }

  lemma TimelyPrefix(es: seq<Event>, k: nat)
    requires Timely(es) && k <= |es|
    ensures Timely(es[..k])
  {
  }

  lemma {:induction false} UnaskedKeepsWord(es: seq<Event>, name: string)
    ensures LastWord(Unasked(es), name) == Unasked(LastWord(es, name))
  {
    if es != [] {
      UnaskedKeepsWord(Init(es), name);
      if !Last(es).Ask? {
        assert Init(Unasked(es)) == Unasked(Init(es)) && Last(Unasked(es)) == Last(es);
      } else {
        assert Unasked(es) == Unasked(Init(es));
      }
    }
  }

  lemma {:induction false} UnaskedKeepsWindow(es: seq<Event>, name: string, now: real)
    ensures Until(Unasked(es), name) == Until(es, name)
    ensures Until(es, name).Some? ==> ChainStart(Unasked(es), name) == ChainStart(es, name)
    ensures InForce(Unasked(es), name, now) == InForce(es, name, now)
    decreases |es|
  {
    UnaskedKeepsWord(es, name);
    var word := LastWord(es, name);
    if word != [] {
      var before := Init(word);
      assert Init(Unasked(word)) == Unasked(before) && Last(Unasked(word)) == Last(word);
      UnaskedKeepsWindow(before, name, now);
    }
  }

  lemma TimelyMore(es: seq<Event>, e: Event)
    requires Timely(es) && (es != [] ==> Last(es).at <= e.at)
    ensures Timely(es + [e])
  {
    assert forall i :: 0 <= i < |es| ==> es[i].at <= es[|es| - 1].at;
  }

  lemma {:induction false} UnaskedIsTimely(es: seq<Event>)
    requires Timely(es)
    ensures Timely(Unasked(es))
    ensures Unasked(es) != [] ==> Last(Unasked(es)).at <= Last(es).at
  {
    if es != [] {
      var past, last := Init(es), Last(es);
      assert es == past + [last] && last == es[|es| - 1];
      assert past != [] ==> Last(past).at <= last.at;
      TimelyPrefix(es, |past|);
      UnaskedIsTimely(past);
      TimelyMore(Unasked(past), last);
    }
  }

  /** Dropping expired windows on the way past is invisible: no answer depends on who asked before. */
  lemma LazyDropInvisible(es: seq<Event>, name: string, now: real)
    requires Timely(es) && (es != [] ==> Last(es).at <= now)
    ensures OpenWindow(Run(es), name, now) == OpenWindow(Run(Unasked(es)), name, now)
  {
    UnaskedIsTimely(es);
    MaintenanceIsItsHistory(es, name, now);
    MaintenanceIsItsHistory(Unasked(es), name, now);
    UnaskedKeepsWindow(es, name, now);
  }

  lemma {:induction false} WordIsPast(es: seq<Event>, name: string, now: real)
    requires Timely(es) && (es != [] ==> Last(es).at <= now)
    ensures LastWord(es, name) != [] ==> Last(LastWord(es, name)).at <= now
  {
    var word := LastWord(es, name);
    if word != [] {
      assert Last(word) == es[|word| - 1];
    }
  }

  /** The client is told between 1 and 901 seconds. */
  lemma RetryAfterRange(es: seq<Event>, name: string, now: real)
    requires Timely(es) && (es != [] ==> Last(es).at <= now)
    requires OpenWindow(Run(es), name, now).Some?
    ensures 1 <= RetryAfter(OpenWindow(Run(es), name, now).value, now) <= 901
  {
    MaintenanceIsItsHistory(es, name, now);
    WordIsPast(es, name, now);
  }

  /** Retry-After is the least whole number of seconds that lies beyond the window. */
  lemma RetryAfterIsTight(w: Window, now: real, seconds: int)
    requires now <= w.until
    ensures seconds >= RetryAfter(w, now) <==> now + seconds as real > w.until
  {
  }

  lemma RetryAfterSuffices(w: Window, now: real)
    ensures now + RetryAfter(w, now) as real > w.until
  {
  }

  lemma {:induction false} WordStands(es: seq<Event>, later: seq<Event>, name: string)
    requires forall i :: 0 <= i < |later| ==> !(later[i].Set? && later[i].name == name)
    ensures Until(es + later, name).None? || Until(es + later, name) == Until(es, name)
  {
    if later == [] {
      assert es + later == es;
    } else {
      var all := es + later;
      assert Init(all) == es + Init(later) && Last(all) == Last(later) == later[|later| - 1];
      WordStands(es, Init(later), name);
      if !(Last(all).name == name && !Last(all).Ask?) {
        LastWordSkips(all, name);
      }
    }
  }

  /** A client that waits as long as it was told finds the window closed, unless someone set a new one. */
  lemma WaitingRetryAfterOut(es: seq<Event>, later: seq<Event>, name: string, now: real, back: real)
    requires Timely(es + later) && (es != [] ==> Last(es).at <= now) && (later != [] ==> Last(later).at <= back)
    requires forall i :: 0 <= i < |later| ==> !(later[i].Set? && later[i].name == name)
    requires OpenWindow(Run(es), name, now).Some?
    requires back >= now + RetryAfter(OpenWindow(Run(es), name, now).value, now) as real
    ensures OpenWindow(Run(es + later), name, back).None?
  {
    var w := OpenWindow(Run(es), name, now).value;
    assert (es + later)[..|es|] == es;
    TimelyPrefix(es + later, |es|);
    MaintenanceIsItsHistory(es, name, now);
    RetryAfterSuffices(w, now);
    RetryAfterRange(es, name, now);
    if later == [] {
      assert es + later == es;
    }
    MaintenanceIsItsHistory(es + later, name, back);
    WordStands(es, later, name);
  }
}
