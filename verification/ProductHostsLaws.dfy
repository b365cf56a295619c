/** What an accepted PRODUCT_HOSTS setting guarantees about every request it rewrites. */
module ProductHostsLaws {
  import opened Options
  import opened Strings
  import opened Routes
  import opened Firewall
  import opened ProductHosts

  // ---- Accepted settings -------------------------------------------------------------------

  function NonBlank(items: seq<string>): seq<string> {
    if items == [] then []
    else NonBlank(Init(items)) + if TrimSpace(Last(items)) == "" then [] else [TrimSpace(Last(items))]
  }

  ghost predicate AllParse(entries: seq<string>) {
    forall i :: 0 <= i < |entries| ==> ParseEntry(entries[i]).Ok?
  }

  ghost predicate HostsDistinct(entries: seq<string>)
    requires AllParse(entries)
  {
    forall i, j :: 0 <= i < j < |entries| ==> ParseEntry(entries[i]).value.0 != ParseEntry(entries[j]).value.0
  }

  /** The map is the entries' mappings, one for each. */
  ghost predicate IsMapOf(hosts: map<string, string>, entries: seq<string>)
    requires AllParse(entries)
  {
    && |hosts| == |entries|
    && forall host, prefix :: Maps(entries, host, prefix) <==> host in hosts && hosts[host] == prefix
  }

  /** Some entry maps `host` to `prefix`. */
  ghost predicate Maps(entries: seq<string>, host: string, prefix: string) {
    exists i :: 0 <= i < |entries| && ParseEntry(entries[i]) == Ok((host, prefix))
  }

  lemma MapsOneMore(entries: seq<string>, entry: string, host: string, prefix: string)
    ensures Maps(entries + [entry], host, prefix) <==> Maps(entries, host, prefix) || ParseEntry(entry) == Ok((host, prefix))
  {
    var more := entries + [entry];
    assert more[|entries|] == entry;
    if Maps(entries, host, prefix) {
      var i :| 0 <= i < |entries| && ParseEntry(entries[i]) == Ok((host, prefix));
      assert more[i] == entries[i];
    }
  }

  lemma NewHostDistinct(hosts: map<string, string>, entries: seq<string>, entry: string)
    requires AllParse(entries) && HostsDistinct(entries) && IsMapOf(hosts, entries) && ParseEntry(entry).Ok?
    ensures AllParse(entries + [entry])
    ensures ParseEntry(entry).value.0 in hosts <==> !HostsDistinct(entries + [entry])
  {
    var host := ParseEntry(entry).value.0;
    var more := entries + [entry];
    assert more[|entries|] == entry;
    if host in hosts {
      assert Maps(entries, host, hosts[host]);
      var i :| 0 <= i < |entries| && ParseEntry(entries[i]) == Ok((host, hosts[host]));
      assert more[i] == entries[i];
    } else {
      forall i | 0 <= i < |entries|
        ensures ParseEntry(entries[i]).value.0 != host
      {
        var (h, p) := ParseEntry(entries[i]).value;
        assert Maps(entries, h, p);
      }
    }
  }

  lemma MapOfOneMore(hosts: map<string, string>, entries: seq<string>, entry: string)
    requires AllParse(entries) && IsMapOf(hosts, entries)
    requires ParseEntry(entry).Ok? && ParseEntry(entry).value.0 !in hosts
    ensures AllParse(entries + [entry])
    ensures IsMapOf(hosts[ParseEntry(entry).value.0 := ParseEntry(entry).value.1], entries + [entry])
  {
    var (host, prefix) := ParseEntry(entry).value;
    forall h, p
      ensures Maps(entries + [entry], h, p) <==> h in hosts[host := prefix] && hosts[host := prefix][h] == p
    {
      MapsOneMore(entries, entry, h, p);
      assert Maps(entries, h, p) <==> h in hosts && hosts[h] == p;
    }
  }

  lemma {:induction false} ItemsAcceptedIff(items: seq<string>)
    ensures ParseItems(items).Ok? <==> AllParse(NonBlank(items)) && HostsDistinct(NonBlank(items))
    ensures ParseItems(items).Ok? ==> IsMapOf(ParseItems(items).value, NonBlank(items))
  {
    if items != [] {
      var past, entry := Init(items), TrimSpace(Last(items));
      ItemsAcceptedIff(past);
      var before := NonBlank(past);
      if entry != "" {
        var now := before + [entry];
        assert NonBlank(items) == now;
        assert forall i :: 0 <= i < |before| ==> now[i] == before[i];
        assert now[|before|] == entry;
        if ParseItems(past).Ok? && ParseEntry(entry).Ok? {
          NewHostDistinct(ParseItems(past).value, before, entry);
          if ParseItems(items).Ok? {
            MapOfOneMore(ParseItems(past).value, before, entry);
          }
        }
      } else {
        assert NonBlank(items) == before;
      }
    }
  }

  /** A setting is accepted exactly when every non-blank item parses and no host repeats; it then maps one host per item. */
  lemma AcceptedIff(raw: string)
    ensures var entries := NonBlank(Split(raw, ','));
            && (Parse(raw).Ok? <==> AllParse(entries) && HostsDistinct(entries))
            && (Parse(raw).Ok? ==> IsMapOf(Parse(raw).value, entries))
  {
    ItemsAcceptedIff(Split(raw, ','));
    if TrimSpace(raw) == "" {
      BlankHasNoEntries(raw);
    }
  }

  lemma BlankHasNoEntries(raw: string)
    requires TrimSpace(raw) == ""
    ensures NonBlank(Split(raw, ',')) == []
  {
    BlankIsSpaces(raw);
    assert ',' !in raw && Split(raw, ',') == [raw];
    assert Init([raw]) == [];
  }

  lemma {:induction false} BlankIsSpaces(s: string)
    requires TrimSpace(s) == ""
    ensures forall c :: c in s ==> IsSpace(c)
  {
    if s != "" {
      if !IsSpace(s[0]) {
        TrimSpaceKeeps(s);
      }
      BlankIsSpaces(s[1..]);
    }
  }

  lemma {:induction false} TrimSpaceKeeps(s: string)
    requires s != "" && !IsSpace(s[0])
    ensures TrimSpace(s) != ""
  {
    if IsSpace(Last(s)) {
      TrimSpaceKeeps(Init(s));
    }
  }

  // ---- Prefixes stay out of the reserved namespaces ----------------------------------------

  /** What every accepted prefix looks like. */
  predicate GoodPrefix(prefix: string) {
    && HasPrefix(prefix, "/")
    && (prefix == "/" || (prefix[1] != '/' && Last(prefix) != '/'))
    && !IsRouteBlocked(prefix + "/")
  }

  ghost predicate GoodHosts(hosts: map<string, string>) {
    forall host :: host in hosts ==> GoodPrefix(hosts[host])
  }

  lemma EntryPrefixGood(entry: string)
    requires ParseEntry(entry).Ok?
    ensures GoodPrefix(ParseEntry(entry).value.1)
  {
  }

  lemma AcceptedHostsGood(raw: string)
    ensures Parse(raw).Ok? ==> GoodHosts(Parse(raw).value)
  {
    if Parse(raw).Ok? {
      AcceptedIff(raw);
      EntriesGood(Parse(raw).value, NonBlank(Split(raw, ',')));
    }
  }

  lemma EntriesGood(hosts: map<string, string>, entries: seq<string>)
    requires AllParse(entries) && IsMapOf(hosts, entries)
    ensures GoodHosts(hosts)
  {
    forall host | host in hosts
      ensures GoodPrefix(hosts[host])
    {
      assert Maps(entries, host, hosts[host]);
      var i :| 0 <= i < |entries| && ParseEntry(entries[i]) == Ok((host, hosts[host]));
      EntryPrefixGood(entries[i]);
    }
  }

  /** What a server's request path can be: empty, rooted, or the asterisk of OPTIONS. */
  predicate RequestPath(path: string) {
    path == "" || path[0] == '/' || path == "*"
  }

  lemma PrefixSpells(prefix: string, rest: string, blocked: string)
    requires |prefix| >= 1 && RequestPath(rest) && HasPrefix(prefix + rest, blocked)
    requires |blocked| >= 2 && Last(blocked) == '/' && forall i :: 1 <= i < |blocked| - 1 ==> blocked[i] != '/'
    requires '*' !in blocked
    ensures HasPrefix(prefix + "/", blocked)
  {
    assert forall i :: 0 <= i < |blocked| ==> (prefix + rest)[i] == blocked[i];
    assert |prefix| < |blocked| ==> rest[0] == blocked[|prefix|];
    assert forall i :: 0 <= i < |blocked| && i < |prefix| ==> prefix[i] == blocked[i];
  }

  lemma PrefixedNotBlocked(prefix: string, path: string)
    requires GoodPrefix(prefix) && RequestPath(path)
    ensures !IsRouteBlocked(Prefixed(prefix, path))
  {
    var rest := TrimSuffix(path, "/");
    if i :| 0 <= i < |BLOCKED_PREFIXES| && HasPrefix(prefix + rest, BLOCKED_PREFIXES[i]) {
      PrefixSpells(prefix, rest, BLOCKED_PREFIXES[i]);
      assert false;
    }
  }

  /** For every accepted setting, the product-host rewrite moves no request into a reserved namespace and none out of it. */
  lemma RewriteRespectsFirewall(raw: string, table: seq<RouteEntry>, verb: string, host: string, path: string)
    requires RequestPath(path)
    ensures Parse(raw).Ok? ==>
              var after := AfterProductHost(table, Parse(raw).value, verb, host, path);
              && (IsRouteBlocked(after) <==> IsRouteBlocked(path))
              && (IsRouteBlocked(path) || IsRoutable(table, verb, path) ==> after == path)
  {
    if Parse(raw).Ok? {
      AcceptedHostsGood(raw);
      var prefix := ProductPrefix(table, Parse(raw).value, verb, host, path);
      if prefix.Some? {
        PrefixedNotBlocked(prefix.value, path);
      }
    }
  }

  // ---- Both rewrites -----------------------------------------------------------------------

  lemma {:induction false} FirstFinds(rs: seq<RouteEntry>, p: RouteEntry -> bool, r: RouteEntry)
    requires r in rs && p(r)
    ensures First(rs, p).Some?
  {
    if !p(rs[0]) {
      assert r in rs[1..];
      FirstFinds(rs[1..], p, r);
    }
  }

  /** A path is routable exactly if some entry of the table serves it. */
  lemma IsRoutableIff(table: seq<RouteEntry>, verb: string, path: string)
    ensures IsRoutable(table, verb, path) <==> exists r :: r in table && Serves(r, verb, path)
  {
    MatchIsWinner(table, verb, path);
  }

  /** A registered catch-all makes everything below its prefix routable. */
  lemma CatchAllRoutes(table: seq<RouteEntry>, verb: string, prefix: string, path: string, r: RouteEntry)
    requires r in table && MethodMatch(r.verb, verb) && r.pattern == prefix + "/*"
    ensures IsRoutable(table, verb, Prefixed(prefix, path))
  {
    assert TrimSuffix(r.pattern, "/*") == prefix;
    assert Covers(r, verb, Prefixed(prefix, path));
    FirstFinds(table, x => Covers(x, verb, Prefixed(prefix, path)), r);
  }

  /**
   * When the plugin behind a product host registers its prefix's catch-all, the rewritten request is
   * routable, so the custom-domain rewrite and any second pass leave it alone.
   */
  lemma ProductRewriteIsFinal(
      table: seq<RouteEntry>, hosts: map<string, string>, claim: Option<Claim>, verb: string, host: string, path: string,
      prefix: string, r: RouteEntry)
    requires r in table && MethodMatch(r.verb, verb) && r.pattern == prefix + "/*"
    ensures ProductPrefix(table, hosts, verb, host, path) == Some(prefix) ==>
              var once := Rewritten(table, hosts, claim, verb, host, path);
              && once == Prefixed(prefix, path)
              && IsRoutable(table, verb, once)
              && Rewritten(table, hosts, claim, verb, host, once) == once
  {
    CatchAllRoutes(table, verb, prefix, path, r);
  }

  predicate Slashes(s: string) {
    forall i :: 0 <= i < |s| ==> s[i] == '/'
  }

  lemma {:induction false} ShiftedSlash(s: string)
    requires s != "" && "/" + Init(s) == s
    ensures Slashes(s)
  {
    assert s[0] == '/';
    if |s| > 1 {
      assert forall i :: 1 <= i < |s| ==> s[i] == s[i - 1];
      assert "/" + Init(Init(s)) == Init(s);
      ShiftedSlash(Init(s));
    }
  }

  lemma OnlyRootSettles(prefix: string, path: string)
    requires GoodPrefix(prefix) && Prefixed(prefix, Prefixed(prefix, path)) == Prefixed(prefix, path)
    ensures prefix == "/" && Slashes(path)
  {
    var once := Prefixed(prefix, path);
    FixedIsShifted(prefix, once);
    ShiftedSlash(once);
    SlashesInside(path);
  }

  lemma FixedIsShifted(prefix: string, once: string)
    requires GoodPrefix(prefix) && Prefixed(prefix, once) == once
    ensures prefix == "/" && once != "" && "/" + Init(once) == once
  {
    assert |prefix| + |TrimSuffix(once, "/")| == |once|;
  }

  lemma SlashesInside(path: string)
    requires Slashes(Prefixed("/", path))
    ensures Slashes(path)
  {
    var once := Prefixed("/", path);
    assert forall i :: 0 <= i < |once| - 1 ==> path[i] == once[i + 1];
  }

  lemma RootSettles(path: string)
    requires Slashes(path)
    ensures Prefixed("/", Prefixed("/", path)) == Prefixed("/", path)
  {
    var once := Prefixed("/", path);
    assert once == "/" + TrimSuffix(path, "/") && Slashes(once) && Last(once) == '/';
    assert TrimSuffix(once, "/") == Init(once);
  }

  /**
   * A second pass over both rewrites changes nothing once the result routes. On a host nobody claims the
   * result also settles where the first pass added nothing, or added the root to slashes; otherwise
   * the prefix is added again.
   */
  lemma SecondPassSettlesIff(raw: string, table: seq<RouteEntry>, claim: Option<Claim>, verb: string, host: string, path: string)
    requires RequestPath(path)
    ensures Parse(raw).Ok? ==>
              var (hosts, once) := (Parse(raw).value, Rewritten(table, Parse(raw).value, claim, verb, host, path));
              && (IsRoutable(table, verb, once) ==> Rewritten(table, hosts, claim, verb, host, once) == once)
              && (claim.None? ==>
                    var prefix := ProductPrefix(table, hosts, verb, host, path);
                    Rewritten(table, hosts, claim, verb, host, once) == once
                    <==> IsRoutable(table, verb, once) || prefix.None? || (prefix.value == "/" && Slashes(path)))
  {
    if Parse(raw).Ok? {
      AcceptedHostsGood(raw);
      SettlesIff(table, Parse(raw).value, verb, host, path);
    }
  }

  /** Where nobody claims the host. */
  lemma SettlesIff(table: seq<RouteEntry>, hosts: map<string, string>, verb: string, host: string, path: string)
    requires GoodHosts(hosts) && RequestPath(path)
    ensures var (once, prefix) := (AfterProductHost(table, hosts, verb, host, path), ProductPrefix(table, hosts, verb, host, path));
            AfterProductHost(table, hosts, verb, host, once) == once
            <==> IsRoutable(table, verb, once) || prefix.None? || (prefix.value == "/" && Slashes(path))
  {
    var prefix := ProductPrefix(table, hosts, verb, host, path);
    if prefix.Some? {
      PrefixedNotBlocked(prefix.value, path);
      if Prefixed(prefix.value, Prefixed(prefix.value, path)) == Prefixed(prefix.value, path) {
        OnlyRootSettles(prefix.value, path);
      }
      if prefix.value == "/" && Slashes(path) {
        RootSettles(path);
      }
    }
  }

  /** What a claim puts in front of a path. */
  function ClaimBase(claim: Claim): string {
    claim.surface.pathPrefix + if claim.surface.sessionScoped then "" else "/" + claim.domain.tenantSlug
  }

  /** What a claim makes of a reserved path is outside the reserved namespaces. */
  predicate LeavesReserved(base: string, path: string) {
    if base == "" then path in BLOCKED_PREFIXES else !IsRouteBlocked(base + "/")
  }

  /**
   * A blocked, unroutable path stays put under the first rewrite. The second has no such check: on a claimed
   * host the path leaves the reserved namespaces exactly if what is put in front of it is not reserved
   * itself or, where nothing is, the path is a reserved prefix and loses its slash.
   */
  lemma BlockedPathLeavesIff(
      table: seq<RouteEntry>, hosts: map<string, string>, claim: Option<Claim>, verb: string, host: string, path: string)
    requires IsRouteBlocked(path) && !IsRoutable(table, verb, path)
    ensures AfterProductHost(table, hosts, verb, host, path) == path
    ensures !IsRouteBlocked(Rewritten(table, hosts, claim, verb, host, path))
            <==> claim.Some? && LeavesReserved(ClaimBase(claim.value), path)
  {
    assert Rewritten(table, hosts, claim, verb, host, path) == if claim.Some? then ClaimedPath(claim.value, path) else path;
    if claim.Some? {
      ClaimedIsPrefixed(claim.value, path);
      if ClaimBase(claim.value) == "" {
        BareBase(path);
      } else {
        BaseDecides(ClaimBase(claim.value), path);
      }
    }
  }

  /** A base in front of a reserved path: only the base counts. */
  lemma BaseDecides(base: string, path: string)
    requires base != "" && IsRouteBlocked(path)
    ensures IsRouteBlocked(Prefixed(base, path)) <==> IsRouteBlocked(base + "/")
  {
    var rest := TrimSuffix(path, "/");
    BlockedKeepsSlash(path);
    forall i | 0 <= i < |BLOCKED_PREFIXES|
      ensures HasPrefix(base + rest, BLOCKED_PREFIXES[i]) <==> HasPrefix(base + "/", BLOCKED_PREFIXES[i])
    {
      ReservedShape(i);
      OnlyFirstSlashCounts(base, rest, BLOCKED_PREFIXES[i]);
    }
  }

  lemma ReservedShape(i: nat)
    requires i < |BLOCKED_PREFIXES|
    ensures var blocked := BLOCKED_PREFIXES[i];
            |blocked| >= 2 && Last(blocked) == '/' && '*' !in blocked && forall j :: 1 <= j < |blocked| - 1 ==> blocked[j] != '/'
  {
  }

  lemma OnlyFirstSlashCounts(base: string, rest: string, blocked: string)
    requires base != "" && rest != "" && rest[0] == '/'
    requires |blocked| >= 2 && Last(blocked) == '/' && '*' !in blocked && forall j :: 1 <= j < |blocked| - 1 ==> blocked[j] != '/'
    ensures HasPrefix(base + rest, blocked) <==> HasPrefix(base + "/", blocked)
  {
    if HasPrefix(base + rest, blocked) {
      PrefixSpells(base, rest, blocked);
    }
    if HasPrefix(base + "/", blocked) {
      assert forall j :: 0 <= j < |blocked| ==> (base + "/")[j] == (base + rest)[j];
    }
  }

  lemma BlockedKeepsSlash(path: string)
    requires IsRouteBlocked(path)
    ensures |TrimSuffix(path, "/")| > 0 && TrimSuffix(path, "/")[0] == '/'
  {
  }

  lemma BareBase(path: string)
    requires IsRouteBlocked(path)
    ensures !IsRouteBlocked(Prefixed("", path)) <==> path in BLOCKED_PREFIXES
  {
    var rest := TrimSuffix(path, "/");
    assert "" + rest == rest;
    var i :| 0 <= i < |BLOCKED_PREFIXES| && HasPrefix(path, BLOCKED_PREFIXES[i]);
    if path in BLOCKED_PREFIXES {
      ReservedWithoutSlash(path);
    } else {
      LongerKeepsPrefix(path, BLOCKED_PREFIXES[i]);
    }
  }

  lemma LongerKeepsPrefix(path: string, blocked: string)
    requires HasPrefix(path, blocked) && path != blocked
    ensures HasPrefix(TrimSuffix(path, "/"), blocked)
  {
    assert |path| > |blocked|;
  }

  lemma ReservedWithoutSlash(blocked: string)
    requires blocked in BLOCKED_PREFIXES
    ensures !IsRouteBlocked(TrimSuffix(blocked, "/"))
  {
    var rest := TrimSuffix(blocked, "/");
    assert rest == "/internal" || rest == "/admin" || rest == "/_core";
    forall i | 0 <= i < |BLOCKED_PREFIXES|
      ensures !HasPrefix(rest, BLOCKED_PREFIXES[i])
    {
      assert rest[1] == BLOCKED_PREFIXES[i][1] ==> |rest| < |BLOCKED_PREFIXES[i]|;
    }
  }

  lemma ClaimedIsPrefixed(claim: Claim, path: string)
    ensures ClaimedPath(claim, path) == Prefixed(ClaimBase(claim), path)
  {
    assert claim.surface.pathPrefix + "" == claim.surface.pathPrefix;
  }

  // ---- An entry the parser lets through --------------------------------------------------

  /** The empty-prefix check comes before the slashes are trimmed, so a run of slashes is accepted as the root prefix. */
  lemma AcceptedPrefixRootIff(entry: string)
    requires ParseEntry(entry).Ok?
    ensures ParseEntry(entry).value.1 == "/"
            <==> var prefix := TrimSpace(Cut(entry, '=').value.1);
                 |prefix| >= 2 && forall i :: 0 <= i < |prefix| ==> prefix[i] == '/'
  {
    TrimEmptyIff(TrimSpace(Cut(entry, '=').value.1));
  }

  lemma {:induction false} TrimLeftEmptyIff(s: string)
    ensures TrimLeft(s, '/') == "" <==> forall i :: 0 <= i < |s| ==> s[i] == '/'
  {
    if s != "" {
      TrimLeftEmptyIff(s[1..]);
      if s[0] == '/' {
        assert forall i :: 1 <= i < |s| ==> s[i] == s[1..][i - 1];
      }
    }
  }

  lemma {:induction false} TrimRightKeeps(s: string)
    requires s != "" && s[0] != '/'
    ensures TrimRight(s, '/') != ""
  {
    if Last(s) == '/' {
      TrimRightKeeps(Init(s));
    }
  }

  lemma TrimEmptyIff(s: string)
    ensures Trim(s, '/') == "" <==> forall i :: 0 <= i < |s| ==> s[i] == '/'
  {
    TrimLeftEmptyIff(s);
    if TrimLeft(s, '/') != "" {
      TrimRightKeeps(TrimLeft(s, '/'));
    }
  }

  lemma EntryAccepted(host: string, prefix: string)
    requires host != "" && TrimSpace(host) == host && '=' !in host && '/' !in host && ':' !in HostKey(host)
    requires TrimSpace(prefix) == prefix && prefix != "" && prefix != "/"
    requires !IsRouteBlocked("/" + Trim(prefix, '/') + "/")
    ensures ParseEntry(host + "=" + prefix) == Ok((HostKey(host), "/" + Trim(prefix, '/')))
  {
    CutAt(host, '=', prefix);
  }

  lemma TrimmedX()
    ensures Trim("/x", '/') == "x" && "/" + "x" == "/x" && !IsRouteBlocked("/" + "x" + "/")
  {
    assert "/x"[1..] == "x";
    assert ("/" + "x" + "/")[1] == 'x';
  }

  /** Any run of slashes but a single one is accepted for a prefix: among others the entry "a=//". */
  lemma SlashesAccepted(slashes: string)
    requires |slashes| >= 2 && Slashes(slashes)
    ensures ParseEntry("a" + "=" + slashes) == Ok(("a", "/"))
  {
    TrimEmptyIff(slashes);
    assert "/" + "" == "/" && "/" + "/" == "//";
    assert "//"[1] == '/' && !IsRouteBlocked("//");
    assert StripHostPort("a") == "a" && HostKey("a") == "a";
    EntryAccepted("a", slashes);
  }
}
