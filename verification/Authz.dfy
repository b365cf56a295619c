/** internal/middleware/authz.go: granted permissions with "*" in either segment. */
module Authz {
  import opened Options
  import opened Strings

  predicate PermMatch(granted: string, required: string) {
    if granted == required || granted == "*:*" then true
    else match (Cut(granted, ':'), Cut(required, ':'))
      case (Some((gr, ga)), Some((rr, ra))) => (gr == "*" || gr == rr) && (ga == "*" || ga == ra)
      case (_, _) => false
  }

  predicate PermissionAllowed(granted: seq<string>, required: string) {
    required == "" || exists i :: 0 <= i < |granted| && PermMatch(granted[i], required)
  }

  /** The resolved caller, as far as the gateway reads it. */
  datatype Identity = Identity(tenantID: string, userType: string, permissions: seq<string>, features: seq<string>)

  /** dispatcher.go's authorized: a platform admin, or a grant that matches. */
  predicate Authorized(id: Option<Identity>, permission: string) {
    id.Some? && (id.value.userType == "platform_admin" || PermissionAllowed(id.value.permissions, permission))
  }

  // ---- What a grant grants -----------------------------------------------------------------

  /** The two sides of a string's first colon. */
  predicate Halves(s: string, resource: string, action: string) {
    s == resource + ":" + action && ':' !in resource
  }

  predicate StarOr(granted: string, required: string) {
    granted == "*" || granted == required
  }

  /** The string itself, everything, or half by half with a star for any half. */
  ghost predicate Grants(granted: string, required: string) {
    || granted == required
    || granted == "*:*"
    || exists a, b, x, y :: Halves(granted, a, b) && Halves(required, x, y) && StarOr(a, x) && StarOr(b, y)
  }

  lemma HalvesAreCut(s: string, resource: string, action: string)
    ensures Halves(s, resource, action) <==> Cut(s, ':') == Some((resource, action))
  {
    if Halves(s, resource, action) {
      CutAt(resource, ':', action);
    }
  }

  lemma PermMatchIff(granted: string, required: string)
    ensures PermMatch(granted, required) <==> Grants(granted, required)
  {
    if a, b, x, y :| Halves(granted, a, b) && Halves(required, x, y) && StarOr(a, x) && StarOr(b, y) {
      HalvesAreCut(granted, a, b);
      HalvesAreCut(required, x, y);
    }
    if PermMatch(granted, required) && granted != required && granted != "*:*" {
      var (a, b) := Cut(granted, ':').value;
      var (x, y) := Cut(required, ':').value;
      assert Halves(granted, a, b) && Halves(required, x, y) && StarOr(a, x) && StarOr(b, y);
    }
  }

  /** A set of grants allows what needs no permission, and what one of them grants. */
  lemma PermissionAllowedIff(granted: seq<string>, required: string)
    ensures PermissionAllowed(granted, required) <==> required == "" || exists g :: g in granted && Grants(g, required)
  {
    forall g
      ensures PermMatch(g, required) <==> Grants(g, required)
    {
      PermMatchIff(g, required);
    }
  }

  // ---- Matching as an order ----------------------------------------------------------------

  lemma StarCut(p: string)
    requires Cut(p, ':') == Some(("*", "*"))
    ensures p == "*:*"
  {
  }

  /** Matching composes: what a matched grant matches, the matching grant matches. */
  lemma PermMatchTransitive(a: string, b: string, c: string)
    requires PermMatch(a, b) && PermMatch(b, c)
    ensures PermMatch(a, c)
  {
    if b == "*:*" && a != b {
      CutAt("*", ':', "*");
      StarCut(a);
    }
  }

  /** With reflexivity and transitivity this makes matching a partial order on permission strings. */
  lemma PermMatchAntisymmetric(a: string, b: string)
    requires PermMatch(a, b) && PermMatch(b, a)
    ensures a == b
  {
    CutAt("*", ':', "*");
  }

  /** A grant adds nothing, for any required permission, exactly when the set already satisfies it. */
  lemma GrantRedundantIff(granted: seq<string>, grant: string)
    ensures PermissionAllowed(granted, grant)
            <==> forall required :: PermissionAllowed(granted + [grant], required) == PermissionAllowed(granted, required)
  {
    var more := granted + [grant];
    if PermissionAllowed(granted, grant) {
      forall required
        ensures PermissionAllowed(more, required) == PermissionAllowed(granted, required)
      {
        AddedGrant(granted, grant, required);
      }
    }
    assert more[|granted|] == grant && PermMatch(grant, grant);
    assert PermissionAllowed(more, grant);
  }

  lemma AddedGrant(granted: seq<string>, grant: string, required: string)
    requires PermissionAllowed(granted, grant)
    ensures PermissionAllowed(granted + [grant], required) == PermissionAllowed(granted, required)
  {
    var more := granted + [grant];
    if required != "" && PermissionAllowed(more, required) {
      var i :| 0 <= i < |more| && PermMatch(more[i], required);
      if i < |granted| {
        assert PermMatch(granted[i], required);
      } else {
        assert grant != "";
        var j :| 0 <= j < |granted| && PermMatch(granted[j], grant);
        PermMatchTransitive(granted[j], grant, required);
      }
    }
    if required != "" && PermissionAllowed(granted, required) {
      var i :| 0 <= i < |granted| && PermMatch(granted[i], required);
      assert PermMatch(more[i], required);
    }
  }
}
