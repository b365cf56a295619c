/** internal/dispatcher/nav.go: the suite's merged menu for one caller. */
module Nav {
  import opened Options
  import opened Strings
  import opened Manifests
  import opened Registries
  import Authz

  datatype NavEntry = NavEntry(
    plugin: string,
    key: string,
    labels: map<string, string>,
    icon: string,
    href: string,
    group: string,
    groupLabels: map<string, string>,
    groupSort: int)

  function Qualify(pluginName: string, feature: string): string {
    if ':' in feature then feature else pluginName + ":" + feature
  }

  function SetOf(values: seq<string>): set<string> {
    set v | v in values && v != ""
  }

  /** Whether the caller may open the item. */
  predicate Shows(pluginName: string, item: NavItem, perms: seq<string>, features: set<string>) {
    && item.href != "" && item.key != ""
    && Authz.PermissionAllowed(perms, item.permission)
    && (item.feature == "" || Qualify(pluginName, item.feature) in features)
  }

  function EntryOf(pluginName: string, item: NavItem): NavEntry {
    NavEntry(pluginName, item.key, item.labels, item.icon, item.href, item.group, item.groupLabels, item.groupSort)
  }

  /** The entries of one plugin's manifest the caller may open, in manifest order. */
  function Shown(name: string, items: seq<NavItem>, perms: seq<string>, features: set<string>): seq<NavEntry> {
    if items == [] then []
    else Shown(name, Init(items), perms, features)
         + if Shows(name, Last(items), perms, features) then [EntryOf(name, Last(items))] else []
  }

  function Offered(p: PluginEntry, perms: seq<string>, features: set<string>): seq<NavEntry> {
    if p.alive then Shown(p.name, p.manifest.nav, perms, features) else []
  }

  function Collected(ps: seq<PluginEntry>, perms: seq<string>, features: set<string>): seq<NavEntry> {
    if ps == [] then [] else Collected(Init(ps), perms, features) + Offered(Last(ps), perms, features)
  }

  function SortIn(items: seq<NavItem>, key: string): Option<int> {
    if items == [] then None
    else if items[0].key == key then Some(items[0].sort)
    else SortIn(items[1..], key)
  }

  /** The declared order of the entry within its group: that of the first item with its key. */
  function SortOf(ps: seq<PluginEntry>, e: NavEntry): int {
    if ps == [] then 0
    else
      var here := if ps[0].name == e.plugin then SortIn(ps[0].manifest.nav, e.key) else None;
      match here
      case Some(n) => n
      case None => SortOf(ps[1..], e)
  }

  /** What the comparator looks at, most significant first. */
  datatype Rank = Rank(groupSort: int, group: string, sort: int, plugin: string)

  function RankOf(ps: seq<PluginEntry>, e: NavEntry): Rank {
    Rank(e.groupSort, e.group, SortOf(ps, e), e.plugin)
  }

  predicate Before(a: Rank, b: Rank) {
    if a.groupSort != b.groupSort then a.groupSort < b.groupSort
    else if a.group != b.group then Less(a.group, b.group)
    else if a.sort != b.sort then a.sort < b.sort
    else Less(a.plugin, b.plugin)
  }

  /** Insert behind every entry that does not rank after it. */
  function Insert(ps: seq<PluginEntry>, sorted: seq<NavEntry>, e: NavEntry): seq<NavEntry> {
    if sorted != [] && Before(RankOf(ps, e), RankOf(ps, Last(sorted)))
    then Insert(ps, Init(sorted), e) + [Last(sorted)]
    else sorted + [e]
  }

  /** sort.SliceStable under the comparator. */
  function StableSort(ps: seq<PluginEntry>, entries: seq<NavEntry>): seq<NavEntry> {
    if entries == [] then [] else Insert(ps, StableSort(ps, Init(entries)), Last(entries))
  }

  function Menu(ps: seq<PluginEntry>, perms: seq<string>, features: seq<string>): seq<NavEntry> {
    StableSort(ps, Collected(ps, perms, SetOf(features)))
  }

  method BuildNav(ps: seq<PluginEntry>, perms: seq<string>, features: seq<string>) returns (out: seq<NavEntry>)
    ensures out == Menu(ps, perms, features)
  {
    var featureSet := SetOf(features);
    out := [];
    for i := 0 to |ps|
      invariant out == Collected(ps[..i], perms, featureSet)
    {
      var p := ps[i];
      assert Init(ps[..i + 1]) == ps[..i] && Last(ps[..i + 1]) == p;
      if !p.alive {
        continue;
      }
      var items := p.manifest.nav;
      ghost var before := out;
      for j := 0 to |items|
        invariant out == before + Shown(p.name, items[..j], perms, featureSet)
      {
        var item := items[j];
        assert Init(items[..j + 1]) == items[..j] && Last(items[..j + 1]) == item;
        if item.href == "" || item.key == "" {
          continue;
        }
        if !Authz.PermissionAllowed(perms, item.permission) {
          continue;
        }
        if item.feature != "" && Qualify(p.name, item.feature) !in featureSet {
          continue;
        }
        out := out + [EntryOf(p.name, item)];
      }
      assert items[..|items|] == items;
    }
    assert ps[..|ps|] == ps;
    out := StableSort(ps, out);
  }
}
