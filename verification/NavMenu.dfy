/** The merged menu on the fields of plugins, items and entries: who is in it, and who comes first. */
module NavMenu {
  import opened Options
  import opened Strings
  import opened Manifests
  import opened Registries
  import opened Nav
  import opened NavLaws
  import Authz

  // ---- Who is in it ------------------------------------------------------------------------

  /** The feature is unconditional, or among the caller's: as it stands if it names a plugin, else under its own. */
  predicate FeatureOn(name: string, feature: string, features: seq<string>) {
    feature == "" || (if ':' in feature then feature in features else name + ":" + feature in features)
  }

  ghost predicate MayOpen(name: string, item: NavItem, perms: seq<string>, features: seq<string>) {
    && item.href != "" && item.key != ""
    && (item.permission == "" || exists g :: g in perms && Authz.Grants(g, item.permission))
    && FeatureOn(name, item.feature, features)
  }

  /** The entry shows the item, field by field. */
  predicate Depicts(e: NavEntry, name: string, item: NavItem) {
    && e.plugin == name && e.key == item.key && e.labels == item.labels && e.icon == item.icon && e.href == item.href
    && e.group == item.group && e.groupLabels == item.groupLabels && e.groupSort == item.groupSort
  }

  lemma ShowsIff(name: string, item: NavItem, perms: seq<string>, features: seq<string>)
    ensures Shows(name, item, perms, SetOf(features)) <==> MayOpen(name, item, perms, features)
  {
    Authz.PermissionAllowedIff(perms, item.permission);
  }

  /** The menu holds an entry exactly if it shows an item of a live plugin that the caller may open. */
  lemma MenuOnFields(ps: seq<PluginEntry>, perms: seq<string>, features: seq<string>, e: NavEntry)
    ensures e in Menu(ps, perms, features)
            <==> exists p, item :: p in ps && p.alive && item in p.manifest.nav && MayOpen(p.name, item, perms, features)
                                   && Depicts(e, p.name, item)
  {
    MenuHoldsExactlyOffers(ps, perms, features, e);
    forall p: PluginEntry, item: NavItem
      ensures Shows(p.name, item, perms, SetOf(features)) <==> MayOpen(p.name, item, perms, features)
    {
      ShowsIff(p.name, item, perms, features);
    }
    if e in Menu(ps, perms, features) {
      var p :| p in ps && OffersTo(p, perms, SetOf(features), e);
      var item :| item in p.manifest.nav && Shows(p.name, item, perms, SetOf(features)) && e == EntryOf(p.name, item);
      assert MayOpen(p.name, item, perms, features) && Depicts(e, p.name, item);
    }
    if p, item :| p in ps && p.alive && item in p.manifest.nav && MayOpen(p.name, item, perms, features)
                  && Depicts(e, p.name, item) {
      assert e == EntryOf(p.name, item);
      assert OffersTo(p, perms, SetOf(features), e);
    }
  }

  // ---- Who comes first ---------------------------------------------------------------------

  predicate Declares(ps: seq<PluginEntry>, e: NavEntry, i: nat, j: nat) {
    i < |ps| && ps[i].name == e.plugin && j < |ps[i].manifest.nav| && ps[i].manifest.nav[j].key == e.key
  }

  /** Item `j` of plugin `i` is the first with the entry's key under the entry's plugin name. */
  ghost predicate FirstDeclared(ps: seq<PluginEntry>, e: NavEntry, i: nat, j: nat) {
    Declares(ps, e, i, j) && forall k: nat, m: nat :: Declares(ps, e, k, m) ==> i < k || (i == k && j <= m)
  }

  ghost predicate DeclaredSort(ps: seq<PluginEntry>, e: NavEntry, n: int) {
    exists i: nat, j: nat :: FirstDeclared(ps, e, i, j) && ps[i].manifest.nav[j].sort == n
  }

  lemma {:induction false} SortInFirst(items: seq<NavItem>, key: string) returns (j: nat)
    requires exists item :: item in items && item.key == key
    ensures j < |items| && items[j].key == key && forall m :: 0 <= m < j ==> items[m].key != key
    ensures SortIn(items, key) == Some(items[j].sort)
  {
    if items[0].key == key {
      j := 0;
    } else {
      var item :| item in items && item.key == key;
      assert item in items[1..];
      j := SortInFirst(items[1..], key);
      j := j + 1;
    }
  }

  lemma {:induction false} SortInNone(items: seq<NavItem>, key: string)
    requires forall item :: item in items ==> item.key != key
    ensures SortIn(items, key) == None
  {
    if items != [] {
      SortInNone(items[1..], key);
    }
  }

  lemma DeclaredLater(ps: seq<PluginEntry>, e: NavEntry, i: nat, j: nat)
    requires ps != [] && FirstDeclared(ps[1..], e, i, j) && forall m: nat :: !Declares(ps, e, 0, m)
    ensures FirstDeclared(ps, e, i + 1, j)
  {
    forall k: nat, m: nat | Declares(ps, e, k, m)
      ensures i + 1 < k || (i + 1 == k && j <= m)
    {
      assert k > 0;
      assert Declares(ps[1..], e, k - 1, m);
    }
  }

  lemma {:induction false} SortOfIsDeclared(ps: seq<PluginEntry>, e: NavEntry, i: nat, j: nat)
    requires Declares(ps, e, i, j)
    ensures DeclaredSort(ps, e, SortOf(ps, e))
  {
    if ps[0].name == e.plugin && exists item :: item in ps[0].manifest.nav && item.key == e.key {
      var m := SortInFirst(ps[0].manifest.nav, e.key);
      assert FirstDeclared(ps, e, 0, m);
    } else {
      if ps[0].name == e.plugin {
        SortInNone(ps[0].manifest.nav, e.key);
      }
      assert forall m: nat :: !Declares(ps, e, 0, m) by {
        assert forall m :: 0 <= m < |ps[0].manifest.nav| ==> ps[0].manifest.nav[m] in ps[0].manifest.nav;
      }
      assert Declares(ps[1..], e, i - 1, j);
      SortOfIsDeclared(ps[1..], e, i - 1, j);
      var k: nat, m: nat :| FirstDeclared(ps[1..], e, k, m) && ps[1..][k].manifest.nav[m].sort == SortOf(ps[1..], e);
      DeclaredLater(ps, e, k, m);
    }
  }

  lemma MenuEntryDeclared(ps: seq<PluginEntry>, perms: seq<string>, features: seq<string>, e: NavEntry)
    requires e in Menu(ps, perms, features)
    ensures DeclaredSort(ps, e, SortOf(ps, e))
  {
    MenuOnFields(ps, perms, features, e);
    var p, item :| p in ps && p.alive && item in p.manifest.nav && MayOpen(p.name, item, perms, features)
                   && Depicts(e, p.name, item);
    var i :| 0 <= i < |ps| && ps[i] == p;
    var j :| 0 <= j < |p.manifest.nav| && p.manifest.nav[j] == item;
    assert Declares(ps, e, i, j);
    SortOfIsDeclared(ps, e, i, j);
  }

  ghost predicate NotAfter(a: string, b: string) {
    a == b || Precedes(a, b)
  }

  /** By declared group order, then group name, then declared order within the group, then plugin name. */
  ghost predicate InOrder(a: NavEntry, m: int, b: NavEntry, n: int) {
    && a.groupSort <= b.groupSort
    && (a.groupSort == b.groupSort ==> NotAfter(a.group, b.group))
    && (a.groupSort == b.groupSort && a.group == b.group ==> m <= n)
    && (a.groupSort == b.groupSort && a.group == b.group && m == n ==> NotAfter(a.plugin, b.plugin))
  }

  /** Of any two entries of the menu the earlier does not come after the later. */
  lemma MenuInOrder(ps: seq<PluginEntry>, perms: seq<string>, features: seq<string>, i: nat, j: nat)
    requires i < j < |Menu(ps, perms, features)|
    ensures var a, b := Menu(ps, perms, features)[i], Menu(ps, perms, features)[j];
            exists m, n :: DeclaredSort(ps, a, m) && DeclaredSort(ps, b, n) && InOrder(a, m, b, n)
  {
    var a, b := Menu(ps, perms, features)[i], Menu(ps, perms, features)[j];
    MenuEntryDeclared(ps, perms, features, a);
    MenuEntryDeclared(ps, perms, features, b);
    MenuHoldsExactlyOffers(ps, perms, features, a);
    RanksInOrder(ps, a, b);
  }

  lemma RanksInOrder(ps: seq<PluginEntry>, a: NavEntry, b: NavEntry)
    requires !Before(RankOf(ps, b), RankOf(ps, a))
    ensures InOrder(a, SortOf(ps, a), b, SortOf(ps, b))
  {
    BeforeTrichotomy(RankOf(ps, a), RankOf(ps, b));
    LessIff(a.group, b.group);
    LessIff(a.plugin, b.plugin);
  }
}
