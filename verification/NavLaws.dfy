/** The merged menu: what it holds, how it is ordered, and that the registry's map order never shows. */
module NavLaws {
  import opened Options
  import opened Strings
  import opened Manifests
  import opened Registries
  import opened Nav
  import Authz
  import ControlPlane
  import ControlPlaneLaws

  // ---- The comparator ----------------------------------------------------------------------

  /** The comparator orders ranks totally: irreflexive, asymmetric, and equal ranks are the only ties. */
  lemma BeforeTrichotomy(a: Rank, b: Rank)
    ensures Before(a, b) || a == b || Before(b, a)
    ensures !(Before(a, b) && Before(b, a)) && !Before(a, a)
  {
    LessTrichotomy(a.group, b.group);
    LessTrichotomy(a.plugin, b.plugin);
    LessTrichotomy(a.plugin, a.plugin);
  }

  lemma BeforeTransitive(a: Rank, b: Rank, c: Rank)
    requires Before(a, b) && Before(b, c)
    ensures Before(a, c)
  {
    if Less(a.group, b.group) && Less(b.group, c.group) {
      LessTransitive(a.group, b.group, c.group);
      LessTrichotomy(a.group, c.group);
    }
    if Less(a.plugin, b.plugin) && Less(b.plugin, c.plugin) {
      LessTransitive(a.plugin, b.plugin, c.plugin);
    }
    LessTrichotomy(a.group, b.group);
    LessTrichotomy(b.group, c.group);
  }

  // ---- Stable sorting ----------------------------------------------------------------------

  ghost predicate Sorted(ps: seq<PluginEntry>, xs: seq<NavEntry>) {
    forall i, j :: 0 <= i < j < |xs| ==> !Before(RankOf(ps, xs[j]), RankOf(ps, xs[i]))
  }

  /** The entries of one rank, in order. */
  ghost function OfRank(ps: seq<PluginEntry>, xs: seq<NavEntry>, k: Rank): seq<NavEntry> {
    if xs == [] then [] else OfRank(ps, Init(xs), k) + if RankOf(ps, Last(xs)) == k then [Last(xs)] else []
  }

  lemma {:induction false} OfRankAppend(ps: seq<PluginEntry>, xs: seq<NavEntry>, ys: seq<NavEntry>, k: Rank)
    ensures OfRank(ps, xs + ys, k) == OfRank(ps, xs, k) + OfRank(ps, ys, k)
  {
    if ys == [] {
      assert xs + ys == xs;
    } else {
      assert Init(xs + ys) == xs + Init(ys) && Last(xs + ys) == Last(ys);
      OfRankAppend(ps, xs, Init(ys), k);
    }
  }

  lemma {:induction false} OfRankIn(ps: seq<PluginEntry>, xs: seq<NavEntry>, k: Rank, e: NavEntry)
    ensures e in OfRank(ps, xs, k) <==> e in xs && RankOf(ps, e) == k
  {
    if xs != [] {
      OfRankIn(ps, Init(xs), k, e);
      assert xs == Init(xs) + [Last(xs)];
    }
  }

  lemma {:induction false} InsertSorts(ps: seq<PluginEntry>, xs: seq<NavEntry>, e: NavEntry)
    requires Sorted(ps, xs)
    ensures Sorted(ps, Insert(ps, xs, e))
    ensures forall x :: x in Insert(ps, xs, e) <==> x in xs || x == e
  {
    if xs != [] {
      var past, last := Init(xs), Last(xs);
      assert xs == past + [last];
      var re, rl := RankOf(ps, e), RankOf(ps, last);
      if Before(re, rl) {
        InsertSorts(ps, past, e);
        BeforeTrichotomy(re, rl);
        forall x | x in Insert(ps, past, e)
          ensures !Before(rl, RankOf(ps, x))
        {
        }
      } else {
        forall x | x in past
          ensures !Before(re, RankOf(ps, x))
        {
          assert !Before(rl, RankOf(ps, x));
          NotAfterTransitive(re, rl, RankOf(ps, x));
        }
      }
    }
  }

  lemma NotAfterTransitive(a: Rank, b: Rank, c: Rank)
    requires !Before(a, b) && !Before(b, c)
    ensures !Before(a, c)
  {
    BeforeTrichotomy(a, b);
    BeforeTrichotomy(b, c);
    if Before(b, a) && Before(c, b) {
      BeforeTransitive(c, b, a);
    }
    BeforeTrichotomy(a, c);
  }

  lemma {:induction false} InsertIsStable(ps: seq<PluginEntry>, xs: seq<NavEntry>, e: NavEntry, k: Rank)
    requires Sorted(ps, xs)
    ensures OfRank(ps, Insert(ps, xs, e), k) == OfRank(ps, xs, k) + if RankOf(ps, e) == k then [e] else []
  {
    OfRankAppend(ps, xs, [e], k);
    assert Init([e]) == [];
    if xs != [] && Before(RankOf(ps, e), RankOf(ps, Last(xs))) {
      var past, last := Init(xs), Last(xs);
      assert xs == past + [last];
      InsertIsStable(ps, past, e, k);
      OfRankAppend(ps, Insert(ps, past, e), [last], k);
      assert Init([last]) == [];
      BeforeTrichotomy(RankOf(ps, e), RankOf(ps, last));
    }
  }

  lemma {:induction false} SortIsStable(ps: seq<PluginEntry>, xs: seq<NavEntry>)
    ensures Sorted(ps, StableSort(ps, xs))
    ensures forall k :: OfRank(ps, StableSort(ps, xs), k) == OfRank(ps, xs, k)
  {
    if xs != [] {
      SortIsStable(ps, Init(xs));
      InsertSorts(ps, StableSort(ps, Init(xs)), Last(xs));
      forall k
        ensures OfRank(ps, StableSort(ps, xs), k) == OfRank(ps, xs, k)
      {
        InsertIsStable(ps, StableSort(ps, Init(xs)), Last(xs), k);
      }
    }
  }

  ghost predicate SameRanks(ps: seq<PluginEntry>, xs: seq<NavEntry>, ys: seq<NavEntry>) {
    forall k :: OfRank(ps, xs, k) == OfRank(ps, ys, k)
  }

  lemma LastRanks(ps: seq<PluginEntry>, xs: seq<NavEntry>, ys: seq<NavEntry>)
    requires Sorted(ps, xs) && SameRanks(ps, xs, ys) && xs != []
    ensures ys != [] && !Before(RankOf(ps, Last(xs)), RankOf(ps, Last(ys)))
  {
    var k := RankOf(ps, Last(xs));
    OfRankIn(ps, xs, k, Last(xs));
    OfRankIn(ps, ys, k, Last(xs));
    var last := Last(ys);
    OfRankIn(ps, ys, RankOf(ps, last), last);
    OfRankIn(ps, xs, RankOf(ps, last), last);
    var i :| 0 <= i < |xs| && xs[i] == last;
    BeforeTrichotomy(k, k);
    assert i < |xs| - 1 ==> !Before(RankOf(ps, xs[|xs| - 1]), RankOf(ps, xs[i]));
  }

  lemma DropLast(ps: seq<PluginEntry>, xs: seq<NavEntry>, r: Rank)
    requires xs != []
    ensures var tail := if RankOf(ps, Last(xs)) == r then [Last(xs)] else [];
            OfRank(ps, xs, r) == OfRank(ps, Init(xs), r) + tail
  {
  }

  lemma CancelTail(a: seq<NavEntry>, b: seq<NavEntry>, tail: seq<NavEntry>)
    requires a + tail == b + tail
    ensures a == b
  {
    assert |a| == |b|;
    assert a == (a + tail)[..|a|] && b == (b + tail)[..|b|];
  }

  lemma LastsAgree(ps: seq<PluginEntry>, xs: seq<NavEntry>, ys: seq<NavEntry>)
    requires Sorted(ps, xs) && Sorted(ps, ys) && SameRanks(ps, xs, ys) && xs != []
    ensures ys != [] && Last(xs) == Last(ys) && SameRanks(ps, Init(xs), Init(ys))
  {
    LastRanks(ps, xs, ys);
    LastRanks(ps, ys, xs);
    var k := RankOf(ps, Last(xs));
    BeforeTrichotomy(k, RankOf(ps, Last(ys)));
    DropLast(ps, xs, k);
    DropLast(ps, ys, k);
    assert OfRank(ps, xs, k) == OfRank(ps, ys, k);
    assert Last(OfRank(ps, xs, k)) == Last(xs) && Last(OfRank(ps, ys, k)) == Last(ys);
    forall r
      ensures OfRank(ps, Init(xs), r) == OfRank(ps, Init(ys), r)
    {
      assert OfRank(ps, xs, r) == OfRank(ps, ys, r);
      DropLast(ps, xs, r);
      DropLast(ps, ys, r);
      CancelTail(OfRank(ps, Init(xs), r), OfRank(ps, Init(ys), r), if r == k then [Last(xs)] else []);
    }
  }

  /** A sorted list is determined by the order of its ties: stable sorting has one result. */
  lemma {:induction false} StableSortUnique(ps: seq<PluginEntry>, xs: seq<NavEntry>, ys: seq<NavEntry>)
    requires Sorted(ps, xs) && Sorted(ps, ys) && SameRanks(ps, xs, ys)
    ensures xs == ys
    decreases |xs|
  {
    if xs == [] {
      if ys != [] {
        LastRanks(ps, ys, xs);
      }
    } else {
      LastsAgree(ps, xs, ys);
      StableSortUnique(ps, Init(xs), Init(ys));
      assert xs == Init(xs) + [Last(xs)] && ys == Init(ys) + [Last(ys)];
    }
  }

  // ---- Contents ----------------------------------------------------------------------------

  lemma {:induction false} ShownIn(name: string, items: seq<NavItem>, perms: seq<string>, features: set<string>, e: NavEntry)
    ensures e in Shown(name, items, perms, features)
            <==> exists item :: item in items && Shows(name, item, perms, features) && e == EntryOf(name, item)
  {
    if items != [] {
      var past, last := Init(items), Last(items);
      assert items == past + [last];
      ShownIn(name, past, perms, features, e);
    }
  }

  /** `p` is up and offers the entry to this caller. */
  ghost predicate OffersTo(p: PluginEntry, perms: seq<string>, features: set<string>, e: NavEntry) {
    p.alive && exists item :: item in p.manifest.nav && Shows(p.name, item, perms, features) && e == EntryOf(p.name, item)
  }

  lemma {:induction false} CollectedIn(ps: seq<PluginEntry>, perms: seq<string>, features: set<string>, e: NavEntry)
    ensures e in Collected(ps, perms, features) <==> exists p :: p in ps && OffersTo(p, perms, features, e)
  {
    if ps != [] {
      var past, last := Init(ps), Last(ps);
      assert ps == past + [last];
      CollectedIn(past, perms, features, e);
      assert e in Collected(ps, perms, features) <==> e in Collected(past, perms, features) || e in Offered(last, perms, features);
      ShownIn(last.name, last.manifest.nav, perms, features, e);
      assert e in Offered(last, perms, features) <==> OffersTo(last, perms, features, e);
    }
  }

  lemma SortedIn(ps: seq<PluginEntry>, xs: seq<NavEntry>, e: NavEntry)
    ensures e in StableSort(ps, xs) <==> e in xs
  {
    SortIsStable(ps, xs);
    var k := RankOf(ps, e);
    OfRankIn(ps, xs, k, e);
    OfRankIn(ps, StableSort(ps, xs), k, e);
    assert OfRank(ps, StableSort(ps, xs), k) == OfRank(ps, xs, k);
  }

  /** The menu holds exactly what live plugins offer this caller, in rank order. */
  lemma MenuHoldsExactlyOffers(ps: seq<PluginEntry>, perms: seq<string>, features: seq<string>, e: NavEntry)
    ensures Sorted(ps, Menu(ps, perms, features))
    ensures e in Menu(ps, perms, features) <==> exists p :: p in ps && OffersTo(p, perms, SetOf(features), e)
  {
    var found := Collected(ps, perms, SetOf(features));
    SortIsStable(ps, found);
    SortedIn(ps, found, e);
    CollectedIn(ps, perms, SetOf(features), e);
  }

  /** A menu entry's permission would let the caller through the gateway. */
  lemma MenuEntriesAuthorized(ps: seq<PluginEntry>, id: Authz.Identity, e: NavEntry)
    requires e in Menu(ps, id.permissions, id.features)
    ensures exists p, item :: p in ps && p.alive && item in p.manifest.nav && e == EntryOf(p.name, item)
                              && Authz.Authorized(Some(id), item.permission)
  {
    MenuHoldsExactlyOffers(ps, id.permissions, id.features, e);
    var p :| p in ps && OffersTo(p, id.permissions, SetOf(id.features), e);
    var item :| item in p.manifest.nav && Shows(p.name, item, id.permissions, SetOf(id.features)) && e == EntryOf(p.name, item);
    assert Authz.Authorized(Some(id), item.permission);
  }

  // ---- Any listing gives the same menu -----------------------------------------------------

  /** No two plugins of the list share a name, and none is listed twice. */
  ghost predicate DistinctNames(ps: seq<PluginEntry>) {
    forall i, j :: 0 <= i < j < |ps| ==> ps[i].name != ps[j].name
  }

  lemma DistinctInAnyOrder(ps: seq<PluginEntry>, qs: seq<PluginEntry>)
    requires DistinctNames(ps) && multiset(ps) == multiset(qs)
    ensures DistinctNames(qs)
  {
    forall i, j | 0 <= i < j < |qs|
      ensures qs[i].name != qs[j].name
    {
      var a, b := qs[i], qs[j];
      assert a in multiset(qs) && b in multiset(qs);
      assert a in ps && b in ps;
      if a == b {
        TwiceCounts(qs, i, j);
        OnceCounts(ps, a);
      }
    }
  }

  lemma TwiceCounts(qs: seq<PluginEntry>, i: nat, j: nat)
    requires i < j < |qs| && qs[i] == qs[j]
    ensures multiset(qs)[qs[i]] >= 2
  {
    assert qs == qs[..j] + [qs[j]] + qs[j + 1..];
    assert qs[i] in qs[..j];
  }

  lemma {:induction false} OnceCounts(ps: seq<PluginEntry>, a: PluginEntry)
    requires DistinctNames(ps)
    ensures multiset(ps)[a] <= 1
  {
    if ps != [] {
      var past, last := Init(ps), Last(ps);
      assert ps == past + [last];
      OnceCounts(past, a);
      if a == last {
        assert a !in past;
      }
    }
  }

  lemma {:induction false} SortOfOwn(ps: seq<PluginEntry>, p: PluginEntry, e: NavEntry)
    requires DistinctNames(ps) && p in ps && p.name == e.plugin
    ensures SortOf(ps, e) == match SortIn(p.manifest.nav, e.key) case Some(n) => n case None => 0
  {
    if ps[0] == p {
      SortOfForeign(ps[1..], e);
    } else {
      assert p in ps[1..];
      assert ps[0].name != p.name;
      SortOfOwn(ps[1..], p, e);
    }
  }

  lemma {:induction false} SortOfForeign(ps: seq<PluginEntry>, e: NavEntry)
    requires forall i :: 0 <= i < |ps| ==> ps[i].name != e.plugin
    ensures SortOf(ps, e) == 0
  {
    if ps != [] {
      SortOfForeign(ps[1..], e);
    }
  }

  lemma SortOfInAnyOrder(ps: seq<PluginEntry>, qs: seq<PluginEntry>, e: NavEntry)
    requires DistinctNames(ps) && multiset(ps) == multiset(qs)
    ensures SortOf(ps, e) == SortOf(qs, e)
  {
    DistinctInAnyOrder(ps, qs);
    if p :| p in ps && p.name == e.plugin {
      assert p in multiset(ps);
      assert p in qs;
      SortOfOwn(ps, p, e);
      SortOfOwn(qs, p, e);
    } else {
      forall i | 0 <= i < |qs|
        ensures qs[i].name != e.plugin
      {
        assert qs[i] in multiset(qs);
        assert qs[i] in ps;
      }
      SortOfForeign(ps, e);
      SortOfForeign(qs, e);
    }
  }

  lemma {:induction false} OfRankInAnyOrder(ps: seq<PluginEntry>, qs: seq<PluginEntry>, xs: seq<NavEntry>, k: Rank)
    requires DistinctNames(ps) && multiset(ps) == multiset(qs)
    ensures OfRank(ps, xs, k) == OfRank(qs, xs, k)
  {
    if xs != [] {
      OfRankInAnyOrder(ps, qs, Init(xs), k);
      SortOfInAnyOrder(ps, qs, Last(xs));
    }
  }

  lemma {:induction false} ShownIsNamed(name: string, items: seq<NavItem>, perms: seq<string>, features: set<string>)
    ensures forall i :: 0 <= i < |Shown(name, items, perms, features)| ==> Shown(name, items, perms, features)[i].plugin == name
  {
    if items != [] {
      ShownIsNamed(name, Init(items), perms, features);
    }
  }

  lemma {:induction false} ForeignRank(ps: seq<PluginEntry>, xs: seq<NavEntry>, k: Rank)
    requires forall i :: 0 <= i < |xs| ==> xs[i].plugin != k.plugin
    ensures OfRank(ps, xs, k) == []
  {
    if xs != [] {
      ForeignRank(ps, Init(xs), k);
    }
  }

  /** Entries of one rank all come from the one plugin of that name, in manifest order. */
  lemma {:induction false} RankComesFromOne(
      ps: seq<PluginEntry>, some: seq<PluginEntry>, perms: seq<string>, features: set<string>, k: Rank)
    requires DistinctNames(some)
    ensures forall p :: p in some && p.name == k.plugin ==>
              OfRank(ps, Collected(some, perms, features), k) == OfRank(ps, Offered(p, perms, features), k)
    ensures (forall p :: p in some ==> p.name != k.plugin) ==> OfRank(ps, Collected(some, perms, features), k) == []
  {
    if some != [] {
      var past, last := Init(some), Last(some);
      assert some == past + [last];
      RankComesFromOne(ps, past, perms, features, k);
      OfRankAppend(ps, Collected(past, perms, features), Offered(last, perms, features), k);
      ShownIsNamed(last.name, last.manifest.nav, perms, features);
      if last.name != k.plugin {
        ForeignRank(ps, Offered(last, perms, features), k);
      } else {
        assert forall p :: p in past ==> p.name != k.plugin;
      }
    }
  }

  /** Ties in the menu stand in manifest order. */
  lemma TiesInManifestOrder(ps: seq<PluginEntry>, p: PluginEntry, perms: seq<string>, features: seq<string>, k: Rank)
    requires DistinctNames(ps) && p in ps && p.name == k.plugin
    ensures OfRank(ps, Menu(ps, perms, features), k) == OfRank(ps, Offered(p, perms, SetOf(features)), k)
  {
    SortIsStable(ps, Collected(ps, perms, SetOf(features)));
    RankComesFromOne(ps, ps, perms, SetOf(features), k);
  }

  lemma CollectedInAnyOrder(ps: seq<PluginEntry>, qs: seq<PluginEntry>, perms: seq<string>, features: set<string>, k: Rank)
    requires DistinctNames(ps) && multiset(ps) == multiset(qs)
    ensures OfRank(ps, Collected(ps, perms, features), k) == OfRank(ps, Collected(qs, perms, features), k)
  {
    DistinctInAnyOrder(ps, qs);
    RankComesFromOne(ps, ps, perms, features, k);
    RankComesFromOne(ps, qs, perms, features, k);
    assert forall p :: p in ps <==> p in multiset(ps);
    assert forall p :: p in qs <==> p in multiset(qs);
  }

  /** With distinct names, the menu is the same whatever order the plugins are listed in. */
  lemma MenuInAnyOrder(ps: seq<PluginEntry>, qs: seq<PluginEntry>, perms: seq<string>, features: seq<string>)
    requires DistinctNames(ps) && multiset(ps) == multiset(qs)
    ensures Menu(ps, perms, features) == Menu(qs, perms, features)
  {
    var a, b := Menu(ps, perms, features), Menu(qs, perms, features);
    SortIsStable(ps, Collected(ps, perms, SetOf(features)));
    SortIsStable(qs, Collected(qs, perms, SetOf(features)));
    forall k
      ensures OfRank(ps, a, k) == OfRank(ps, b, k)
    {
      CollectedInAnyOrder(ps, qs, perms, SetOf(features), k);
      OfRankInAnyOrder(ps, qs, b, k);
      OfRankInAnyOrder(ps, qs, Collected(qs, perms, SetOf(features)), k);
      assert OfRank(qs, b, k) == OfRank(qs, Collected(qs, perms, SetOf(features)), k);
    }
    forall i, j | 0 <= i < j < |b|
      ensures !Before(RankOf(ps, b[j]), RankOf(ps, b[i]))
    {
      SortOfInAnyOrder(ps, qs, b[i]);
      SortOfInAnyOrder(ps, qs, b[j]);
    }
    StableSortUnique(ps, a, b);
  }

  lemma {:induction false} ValuesDistinct(ids: set<string>, ps: Plugins)
    requires ids <= ps.Keys && ControlPlaneLaws.NamesUnique(ps)
    ensures DistinctNames(Values(ids, ps))
    ensures forall p :: p in Values(ids, ps) ==> exists id :: id in ids && ps[id] == p
    decreases ids
  {
    if ids != {} {
      var first :| first in ids && Values(ids, ps) == [ps[first]] + Values(ids - {first}, ps);
      ValuesDistinct(ids - {first}, ps);
      forall p | p in Values(ids - {first}, ps)
        ensures p.name != ps[first].name
      {
        var id :| id in ids - {first} && ps[id] == p;
      }
    }
  }

  /** Whatever the control plane did before, two listings of the registry give one caller the same menu. */
  lemma ListingsGiveOneMenu<L>(
      h: seq<ControlPlane.Action<L>>, xs: seq<PluginEntry>, ys: seq<PluginEntry>, perms: seq<string>, features: seq<string>)
    requires var ps := ControlPlaneLaws.Exec(h).plugins;
             multiset(xs) == multiset(Values(ps.Keys, ps)) == multiset(ys)
    ensures Menu(xs, perms, features) == Menu(ys, perms, features)
  {
    var ps := ControlPlaneLaws.Exec(h).plugins;
    ControlPlaneLaws.StaysInStep(h);
    ValuesDistinct(ps.Keys, ps);
    DistinctInAnyOrder(Values(ps.Keys, ps), xs);
    MenuInAnyOrder(xs, ys, perms, features);
  }
}
