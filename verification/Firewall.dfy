/** internal/protection/firewall.go: the reserved path prefixes. */
module Firewall {
  import opened Strings

  const BLOCKED_PREFIXES: seq<string> := ["/internal/", "/admin/", "/_core/"]

  predicate IsRouteBlocked(path: string) {
    exists i :: 0 <= i < |BLOCKED_PREFIXES| && HasPrefix(path, BLOCKED_PREFIXES[i])
  }

  predicate Below(path: string, root: string, rest: string) {
    path == root + rest
  }

  /** A path in one of the three reserved namespaces. */
  ghost predicate Reserved(path: string) {
    || (exists rest :: Below(path, "/internal/", rest))
    || (exists rest :: Below(path, "/admin/", rest))
    || exists rest :: Below(path, "/_core/", rest)
  }

  lemma PrefixIsBelow(path: string, root: string)
    ensures HasPrefix(path, root) <==> exists rest :: Below(path, root, rest)
  {
    if HasPrefix(path, root) {
      assert Below(path, root, path[|root|..]);
    }
  }

  lemma BlockedIff(path: string)
    ensures IsRouteBlocked(path) <==> Reserved(path)
  {
    PrefixIsBelow(path, "/internal/");
    PrefixIsBelow(path, "/admin/");
    PrefixIsBelow(path, "/_core/");
    assert BLOCKED_PREFIXES[0] == "/internal/" && BLOCKED_PREFIXES[1] == "/admin/" && BLOCKED_PREFIXES[2] == "/_core/";
  }
}
