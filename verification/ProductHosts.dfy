/**
 * server/product_host.go and server/domain_resolve.go: the PRODUCT_HOSTS setting, and the two
 * rewrites that put a host's missing path prefix back before a request is routed.
 */
module ProductHosts {
  import opened Options
  import opened Strings
  import opened Routes
  import opened Manifests
  import opened Firewall

  datatype ParseError = NoPrefix | EmptyHost | NotBareHost | EmptyPrefix | ReservedPrefix | Duplicate

  datatype Result<+T> = Ok(value: T) | Err(error: ParseError)

  function IndexOf(s: string, c: char): (r: Option<nat>)
    ensures r.Some? ==> r.value < |s| && s[r.value] == c && c !in s[..r.value]
    ensures r.None? ==> c !in s
  {
    if s == [] then None
    else if s[0] == c then Some(0)
    else match IndexOf(s[1..], c)
      case None => None
      case Some(i) => assert s[..i + 1] == [s[0]] + s[1..][..i]; Some(i + 1)
  }

  function LastIndexOf(s: string, c: char): (r: Option<nat>)
    ensures r.Some? ==> r.value < |s| && s[r.value] == c && c !in s[r.value + 1..]
    ensures r.None? ==> c !in s
  {
    if s == [] then None
    else if Last(s) == c then Some(|s| - 1)
    else match LastIndexOf(Init(s), c)
      case None => None
      case Some(i) => assert s[i + 1..] == Init(s)[i + 1..] + [Last(s)]; Some(i)
  }

  /** The host net.SplitHostPort finds, if it accepts the address. */
  function SplitHost(address: string): Option<string> {
    match LastIndexOf(address, ':')
    case None => None
    case Some(colon) =>
      if address[0] == '[' then
        match IndexOf(address, ']')
        case None => None
        case Some(end) =>
          if end == 0 || end + 1 != colon || '[' in address[1..] || ']' in address[end + 1..] then None
          else Some(address[1..end])
      else if ':' in address[..colon] || '[' in address || ']' in address then None
      else Some(address[..colon])
  }

  function StripHostPort(host: string): string {
    match SplitHost(host) case Some(h) => h case None => host
  }

  function HostKey(host: string): string {
    ToLower(StripHostPort(host))
  }

  function ParseEntry(entry: string): Result<(string, string)> {
    match Cut(entry, '=')
    case None => Err(NoPrefix)
    case Some((left, right)) =>
      var host, prefix := TrimSpace(left), TrimSpace(right);
      if host == "" then Err(EmptyHost)
      else if '/' in host || ':' in HostKey(host) then Err(NotBareHost)
      else if prefix == "" || prefix == "/" then Err(EmptyPrefix)
      else if IsRouteBlocked("/" + Trim(prefix, '/') + "/") then Err(ReservedPrefix)
      else Ok((HostKey(host), "/" + Trim(prefix, '/')))
  }

  function ParseItems(items: seq<string>): Result<map<string, string>> {
    if items == [] then Ok(map[])
    else
      match ParseItems(Init(items))
      case Err(e) => Err(e)
      case Ok(out) =>
        if TrimSpace(Last(items)) == "" then Ok(out)
        else
          match ParseEntry(TrimSpace(Last(items)))
          case Err(e) => Err(e)
          case Ok((host, prefix)) => if host in out then Err(Duplicate) else Ok(out[host := prefix])
  }

  function Parse(raw: string): Result<map<string, string>> {
    if TrimSpace(raw) == "" then Ok(map[]) else ParseItems(Split(raw, ','))
  }

  lemma {:induction false} ErrorSticks(items: seq<string>, n: nat)
    requires n <= |items| && ParseItems(items[..n]).Err?
    ensures ParseItems(items) == ParseItems(items[..n])
  {
    if n < |items| {
      assert Init(items)[..n] == items[..n];
      ErrorSticks(Init(items), n);
    } else {
      assert items[..n] == items;
    }
  }

  method ParseProductHosts(raw: string) returns (r: Result<map<string, string>>)
    ensures r == Parse(raw)
  {
    if TrimSpace(raw) == "" {
      return Ok(map[]);
    }
    var out: map<string, string> := map[];
    var items := Split(raw, ',');
    for i := 0 to |items|
      invariant ParseItems(items[..i]) == Ok(out)
    {
      assert Init(items[..i + 1]) == items[..i] && Last(items[..i + 1]) == items[i];
      var entry := TrimSpace(items[i]);
      if entry == "" {
        continue;
      }
      match ParseEntry(entry)
      case Err(e) =>
        ErrorSticks(items, i + 1);
        return Err(e);
      case Ok((host, prefix)) =>
        if host in out {
          ErrorSticks(items, i + 1);
          return Err(Duplicate);
        }
        out := out[host := prefix];
    }
    assert items[..|items|] == items;
    return Ok(out);
  }

  predicate IsRoutable(table: seq<RouteEntry>, verb: string, path: string) {
    Match(table, verb, path).Some?
  }

  /** The prefix a product host adds to this request, if it adds one. */
  function ProductPrefix(table: seq<RouteEntry>, hosts: map<string, string>, verb: string, host: string, path: string): Option<string> {
    if IsRoutable(table, verb, path) || IsRouteBlocked(path) then None else Find(hosts, HostKey(host))
  }

  function Prefixed(prefix: string, path: string): string {
    prefix + TrimSuffix(path, "/")
  }

  datatype ResolvedDomain = ResolvedDomain(tenantID: string, tenantSlug: string)

  /** What a custom domain resolves to: Identity's answer and the surface a live plugin declares for it. */
  datatype Claim = Claim(domain: ResolvedDomain, surface: DomainSurface)

  function ClaimedPath(claim: Claim, path: string): string {
    if claim.surface.sessionScoped then Prefixed(claim.surface.pathPrefix, path)
    else Prefixed(claim.surface.pathPrefix + "/" + claim.domain.tenantSlug, path)
  }

  class Request {
    const verb: string
    const host: string
    var path: string
    var hostPrefix: Option<string>
    var hostTenant: Option<string>

    constructor (verb: string, host: string, path: string)
      ensures this.verb == verb && this.host == host && this.path == path
      ensures hostPrefix == None && hostTenant == None
    {
      this.verb := verb;
      this.host := host;
      this.path := path;
      hostPrefix := None;
      hostTenant := None;
    }

    method ProductHostRewrite(table: seq<RouteEntry>, hosts: map<string, string>)
      modifies this`path, this`hostPrefix
      ensures var added := ProductPrefix(table, hosts, verb, host, old(path));
              && path == (if added.Some? then Prefixed(added.value, old(path)) else old(path))
              && hostPrefix == (if added.Some? then added else old(hostPrefix))
    {
      if |hosts| == 0 {
        return;
      }
      if IsRoutable(table, verb, path) {
        return;
      }
      if IsRouteBlocked(path) {
        return;
      }
      var key := HostKey(host);
      if key !in hosts {
        return;
      }
      path := hosts[key] + TrimSuffix(path, "/");
      hostPrefix := Some(hosts[key]);
    }

    /** `claim` is what resolving the host and looking its surface up would give. */
    method ResolveCustomDomain(table: seq<RouteEntry>, claim: Option<Claim>)
      modifies this`path, this`hostPrefix, this`hostTenant
      ensures var moved := !IsRoutable(table, verb, old(path)) && claim.Some?;
              && path == (if moved then ClaimedPath(claim.value, old(path)) else old(path))
              && hostPrefix == (if moved && claim.value.surface.sessionScoped then Some(claim.value.surface.pathPrefix) else old(hostPrefix))
              && hostTenant == (if moved && claim.value.surface.sessionScoped then Some(claim.value.domain.tenantID) else old(hostTenant))
    {
      if IsRoutable(table, verb, path) || claim.None? {
        return;
      }
      var declared, resolved := claim.value.surface, claim.value.domain;
      if declared.sessionScoped {
        path := declared.pathPrefix + TrimSuffix(path, "/");
        hostPrefix := Some(declared.pathPrefix);
        hostTenant := Some(resolved.tenantID);
      } else {
        path := declared.pathPrefix + "/" + resolved.tenantSlug + TrimSuffix(path, "/");
      }
    }
  }

  /** Where the first rewrite leaves a request. */
  function AfterProductHost(table: seq<RouteEntry>, hosts: map<string, string>, verb: string, host: string, path: string): string {
    match ProductPrefix(table, hosts, verb, host, path)
    case Some(prefix) => Prefixed(prefix, path)
    case None => path
  }

  /** Where the second leaves it. */
  function AfterCustomDomain(table: seq<RouteEntry>, claim: Option<Claim>, verb: string, path: string): string {
    if !IsRoutable(table, verb, path) && claim.Some? then ClaimedPath(claim.value, path) else path
  }

  /** Both, in the order the server mounts them. */
  function Rewritten(
      table: seq<RouteEntry>, hosts: map<string, string>, claim: Option<Claim>, verb: string, host: string, path: string): string {
    AfterCustomDomain(table, claim, verb, AfterProductHost(table, hosts, verb, host, path))
  }
}
