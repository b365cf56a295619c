/** internal/dispatcher/dispatcher.go: the route table as a value, and which entry wins a request. */
module Routes {
  import opened Options
  import opened Strings

  /** One route a plugin declares in its manifest. */
  datatype Route = Route(verb: string, path: string, public: bool, permission: string)

  datatype RouteEntry = RouteEntry(
    pluginID: string,
    pluginName: string,
    verb: string,
    pattern: string,
    public: bool,
    permission: string)

  predicate MethodMatch(pattern: string, verb: string) {
    pattern == "*" || pattern == verb
  }

  function Segments(path: string): (parts: seq<string>)
    ensures parts != [] && forall i :: 0 <= i < |parts| ==> '/' !in parts[i]
  {
    Split(Trim(path, '/'), '/')
  }

  predicate SegmentMatch(pattern: string, segment: string) {
    HasPrefix(pattern, ":") || pattern == segment
  }

  predicate PatternMatch(pattern: string, path: string) {
    var pp, cp := Segments(pattern), Segments(path);
    |pp| == |cp| && forall i :: 0 <= i < |pp| ==> SegmentMatch(pp[i], cp[i])
  }

  predicate PrefixMatch(pattern: string, path: string) {
    HasSuffix(pattern, "/*") && HasPrefix(path, TrimSuffix(pattern, "/*"))
  }

  predicate Literal(r: RouteEntry, verb: string, path: string) {
    MethodMatch(r.verb, verb) && r.pattern == path
  }

  predicate Covers(r: RouteEntry, verb: string, path: string) {
    MethodMatch(r.verb, verb) && (PatternMatch(r.pattern, path) || PrefixMatch(r.pattern, path))
  }

  /** The first entry of the table that satisfies `p`. */
  function First(rs: seq<RouteEntry>, p: RouteEntry -> bool): Option<RouteEntry> {
    if rs == [] then None else if p(rs[0]) then Some(rs[0]) else First(rs[1..], p)
  }

  function FirstLiteral(rs: seq<RouteEntry>, verb: string, path: string): Option<RouteEntry> {
    First(rs, r => Literal(r, verb, path))
  }

  function FirstCovering(rs: seq<RouteEntry>, verb: string, path: string): Option<RouteEntry> {
    First(rs, r => Covers(r, verb, path))
  }

  /** Literal routes win over patterns; within each pass the earliest registered wins. */
  function Match(rs: seq<RouteEntry>, verb: string, path: string): Option<RouteEntry> {
    match FirstLiteral(rs, verb, path)
    case Some(r) => Some(r)
    case None => FirstCovering(rs, verb, path)
  }

  /** The entries of every plugin but `ids`, in order. */
  function Without(rs: seq<RouteEntry>, ids: set<string>): seq<RouteEntry> {
    if rs == [] then []
    else Without(Init(rs), ids) + if Last(rs).pluginID !in ids then [Last(rs)] else []
  }

  function ToUpper(c: char): char {
    if 'a' <= c <= 'z' then c - 'a' + 'A' else c
  }

  function Entry(id: string, name: string, r: Route): RouteEntry {
    RouteEntry(id, name, seq(|r.verb|, i requires 0 <= i < |r.verb| => ToUpper(r.verb[i])), r.path, r.public, r.permission)
  }

  /** The method in upper case, by the characters' codes. */
  predicate UpperOf(upper: string, verb: string) {
    |upper| == |verb| && forall i :: 0 <= i < |verb| ==>
      upper[i] as int == if 97 <= verb[i] as int <= 122 then verb[i] as int - 32 else verb[i] as int
  }

  /** One entry for each declared route, in order, field by field. */
  function Entries(id: string, name: string, routes: seq<Route>): (rs: seq<RouteEntry>)
    ensures |rs| == |routes| && forall i :: 0 <= i < |rs| ==> rs[i].pluginID == id && rs[i].pluginName == name
    ensures forall i :: 0 <= i < |rs| ==>
              && UpperOf(rs[i].verb, routes[i].verb) && rs[i].pattern == routes[i].path
              && rs[i].public == routes[i].public && rs[i].permission == routes[i].permission
  {
    seq(|routes|, i requires 0 <= i < |routes| => Entry(id, name, routes[i]))
  }

  // ---- What a pattern means ----------------------------------------------------------------

  /** The trimmed pattern with the i-th segment replaced by `fill[i]` where it is a parameter. */
  function Filled(pattern: string, fill: seq<string>): (r: seq<string>)
    requires |fill| == |Segments(pattern)|
    ensures |r| == |fill|
  {
    var pp := Segments(pattern);
    seq(|pp|, i requires 0 <= i < |pp| => if HasPrefix(pp[i], ":") then fill[i] else pp[i])
  }

  ghost predicate FillsTo(pattern: string, fill: seq<string>, path: string) {
    && |fill| == |Segments(pattern)|
    && (forall i :: 0 <= i < |fill| ==> '/' !in fill[i])
    && Join(Filled(pattern, fill), '/') == Trim(path, '/')
  }

  /** A pattern matches exactly the paths its parameters can be filled in to give, slashes at the ends aside. */
  lemma PatternMatchIff(pattern: string, path: string)
    ensures PatternMatch(pattern, path) <==> exists fill :: FillsTo(pattern, fill, path)
  {
    var pp, cp := Segments(pattern), Segments(path);
    if PatternMatch(pattern, path) {
      assert Filled(pattern, cp) == cp;
      JoinSplit(Trim(path, '/'), '/');
      assert FillsTo(pattern, cp, path);
    }
    if fill :| FillsTo(pattern, fill, path) {
      SplitJoin(Filled(pattern, fill), '/');
      assert cp == Filled(pattern, fill);
    }
  }

  method MatchPattern(pattern: string, path: string) returns (ok: bool)
    ensures ok <==> exists fill :: FillsTo(pattern, fill, path)
  {
    PatternMatchIff(pattern, path);
    var pp, cp := Segments(pattern), Segments(path);
    if |pp| != |cp| {
      return false;
    }
    for i := 0 to |pp|
      invariant forall j :: 0 <= j < i ==> SegmentMatch(pp[j], cp[j])
    {
      if !HasPrefix(pp[i], ":") && pp[i] != cp[i] {
        return false;
      }
    }
    return true;
  }

  // ---- Non-interference between plugins ----------------------------------------------------

  lemma {:induction false} FirstOfAppend(a: seq<RouteEntry>, b: seq<RouteEntry>, p: RouteEntry -> bool)
    ensures First(a + b, p) == if First(a, p).Some? then First(a, p) else First(b, p)
  {
    if a == [] {
      assert a + b == b;
    } else {
      assert (a + b)[1..] == a[1..] + b;
      FirstOfAppend(a[1..], b, p);
    }
  }

  lemma {:induction false} FirstIsThere(rs: seq<RouteEntry>, p: RouteEntry -> bool)
    ensures match First(rs, p)
            case Some(r) => exists i :: 0 <= i < |rs| && rs[i] == r && p(r) && forall j :: 0 <= j < i ==> !p(rs[j])
            case None => forall i :: 0 <= i < |rs| ==> !p(rs[i])
  {
    if rs != [] && !p(rs[0]) {
      FirstIsThere(rs[1..], p);
      if First(rs, p).Some? {
        var i :| 0 <= i < |rs[1..]| && rs[1..][i] == First(rs, p).value && forall j :: 0 <= j < i ==> !p(rs[1..][j]);
        assert rs[i + 1] == First(rs, p).value;
        assert forall j :: 0 < j < i + 1 ==> rs[j] == rs[1..][j - 1];
      }
    }
  }

  lemma {:induction false} FirstWithout(rs: seq<RouteEntry>, ids: set<string>, p: RouteEntry -> bool)
    ensures First(rs, p).None? ==> First(Without(rs, ids), p).None?
    ensures First(rs, p).Some? && First(rs, p).value.pluginID !in ids ==> First(Without(rs, ids), p) == First(rs, p)
  {
    if rs != [] {
      FirstWithout(Init(rs), ids, p);
      assert rs == Init(rs) + [Last(rs)];
      FirstOfAppend(Init(rs), [Last(rs)], p);
      var kept := if Last(rs).pluginID !in ids then [Last(rs)] else [];
      FirstOfAppend(Without(Init(rs), ids), kept, p);
      assert [Last(rs)][1..] == [];
    }
  }

  lemma {:induction false} WithoutHasNone(rs: seq<RouteEntry>, ids: set<string>)
    ensures forall r :: r in Without(rs, ids) <==> r in rs && r.pluginID !in ids
  {
    if rs != [] {
      WithoutHasNone(Init(rs), ids);
      assert rs == Init(rs) + [Last(rs)];
    }
  }

  lemma {:induction false} WithoutAppend(a: seq<RouteEntry>, b: seq<RouteEntry>, ids: set<string>)
    ensures Without(a + b, ids) == Without(a, ids) + Without(b, ids)
  {
    if b == [] {
      assert a + b == a;
    } else {
      WithoutAppend(a, Init(b), ids);
      assert Init(a + b) == a + Init(b) && Last(a + b) == Last(b);
    }
  }

  lemma {:induction false} WithoutTwice(rs: seq<RouteEntry>, ids: set<string>, more: set<string>)
    ensures Without(Without(rs, ids), more) == Without(rs, ids + more)
  {
    if rs != [] {
      WithoutTwice(Init(rs), ids, more);
      var kept := if Last(rs).pluginID !in ids then [Last(rs)] else [];
      WithoutAppend(Without(Init(rs), ids), kept, more);
      assert Init([Last(rs)]) == [];
    }
  }

  /** A plugin's own entries are all dropped or all kept. */
  lemma {:induction false} WithoutOfOne(rs: seq<RouteEntry>, id: string, ids: set<string>)
    requires forall i :: 0 <= i < |rs| ==> rs[i].pluginID == id
    ensures Without(rs, ids) == if id in ids then [] else rs
  {
    if rs != [] {
      var past, last := Init(rs), Last(rs);
      assert rs == past + [last];
      assert last == rs[|rs| - 1];
      WithoutOfOne(past, id, ids);
    }
  }

  /** The entry's method is the request's, or any. */
  predicate ForVerb(r: RouteEntry, verb: string) {
    r.verb == "*" || r.verb == verb
  }

  predicate Extends(pattern: string, base: string, path: string, rest: string) {
    pattern == base + "/*" && path == base + rest
  }

  /** The pattern is the path, is filled in to it, or is a catch-all above it. */
  ghost predicate Spells(pattern: string, path: string) {
    || pattern == path
    || (exists fill :: FillsTo(pattern, fill, path))
    || exists base, rest :: Extends(pattern, base, path, rest)
  }

  ghost predicate Serves(r: RouteEntry, verb: string, path: string) {
    ForVerb(r, verb) && Spells(r.pattern, path)
  }

  lemma PrefixMatchIff(pattern: string, path: string)
    ensures PrefixMatch(pattern, path) <==> exists base, rest :: Extends(pattern, base, path, rest)
  {
    if PrefixMatch(pattern, path) {
      var base := TrimSuffix(pattern, "/*");
      assert Extends(pattern, base, path, path[|base|..]);
    }
    if base, rest :| Extends(pattern, base, path, rest) {
      assert TrimSuffix(pattern, "/*") == base;
    }
  }

  lemma ServesIff(r: RouteEntry, verb: string, path: string)
    ensures Literal(r, verb, path) <==> ForVerb(r, verb) && r.pattern == path
    ensures Literal(r, verb, path) || Covers(r, verb, path) <==> Serves(r, verb, path)
  {
    PatternMatchIff(r.pattern, path);
    PrefixMatchIff(r.pattern, path);
  }

  /** A path fills itself in, so a literal route covers its path as well. */
  lemma LiteralCovers(r: RouteEntry, verb: string, path: string)
    requires Literal(r, verb, path)
    ensures Covers(r, verb, path)
  {
  }

  /**
   * The `i`th entry is the one to serve the request: the first to spell out the very path or, if no entry of
   * the table does, the first to serve it at all.
   */
  ghost predicate Wins(rs: seq<RouteEntry>, i: nat, verb: string, path: string)
    requires i < |rs|
  {
    && Serves(rs[i], verb, path)
    && if rs[i].pattern == path then forall j :: 0 <= j < i ==> !(ForVerb(rs[j], verb) && rs[j].pattern == path)
       else
         && (forall j :: 0 <= j < |rs| ==> !(ForVerb(rs[j], verb) && rs[j].pattern == path))
         && forall j :: 0 <= j < i ==> !Serves(rs[j], verb, path)
  }

  /** Match answers with the winner where one exists, and otherwise no entry serves the request. */
  lemma MatchIsWinner(rs: seq<RouteEntry>, verb: string, path: string)
    ensures match Match(rs, verb, path)
            case Some(r) => exists i :: 0 <= i < |rs| && rs[i] == r && Wins(rs, i, verb, path)
            case None => forall r :: r in rs ==> !Serves(r, verb, path)
  {
    FirstIsThere(rs, r => Literal(r, verb, path));
    FirstIsThere(rs, r => Covers(r, verb, path));
    forall r
      ensures Literal(r, verb, path) <==> ForVerb(r, verb) && r.pattern == path
      ensures Covers(r, verb, path) <==> Serves(r, verb, path)
    {
      ServesIff(r, verb, path);
      if Literal(r, verb, path) {
        LiteralCovers(r, verb, path);
      }
    }
  }

  lemma MatchIsThere(rs: seq<RouteEntry>, verb: string, path: string)
    requires Match(rs, verb, path).Some?
    ensures Match(rs, verb, path).value in rs && Serves(Match(rs, verb, path).value, verb, path)
  {
    MatchIsWinner(rs, verb, path);
  }

  /** Removing plugins changes the answer to a request exactly when one of them had won it. */
  lemma RemovalChangesIff(rs: seq<RouteEntry>, ids: set<string>, verb: string, path: string)
    ensures Match(Without(rs, ids), verb, path) != Match(rs, verb, path)
            <==> Match(rs, verb, path).Some? && Match(rs, verb, path).value.pluginID in ids
  {
    FirstWithout(rs, ids, r => Literal(r, verb, path));
    FirstWithout(rs, ids, r => Covers(r, verb, path));
    WithoutHasNone(rs, ids);
    if Match(Without(rs, ids), verb, path).Some? {
      MatchIsThere(Without(rs, ids), verb, path);
    }
  }

  /**
   * Adding a plugin not yet in the table changes the answer exactly when nothing matched before
   * and it matches, or nothing matched literally and it declares the very path.
   */
  lemma AdditionChangesIff(rs: seq<RouteEntry>, more: seq<RouteEntry>, id: string, verb: string, path: string)
    requires forall r :: r in rs ==> r.pluginID != id
    requires forall r :: r in more ==> r.pluginID == id
    ensures Match(rs + more, verb, path) != Match(rs, verb, path)
            <==> if Match(rs, verb, path).None? then Match(more, verb, path).Some?
                 else FirstLiteral(rs, verb, path).None? && FirstLiteral(more, verb, path).Some?
  {
    FirstOfAppend(rs, more, r => Literal(r, verb, path));
    FirstOfAppend(rs, more, r => Covers(r, verb, path));
    if Match(rs, verb, path).Some? {
      MatchIsThere(rs, verb, path);
    }
    if Match(more, verb, path).Some? {
      MatchIsThere(more, verb, path);
    }
  }
}
