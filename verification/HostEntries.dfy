/** Hosts and PRODUCT_HOSTS entries, character by character: what net.SplitHostPort splits and what an entry must spell. */
module HostEntries {
  import opened Options
  import opened Strings
  import opened Firewall
  import opened ProductHosts
  import opened ProductHostsLaws

  // ---- Which hosts share a key -------------------------------------------------------------

  /** No separator and no bracket. */
  predicate Plain(s: string) {
    ':' !in s && '[' !in s && ']' !in s
  }

  /** `host:port`, or `[host]:port` where the host may hold colons. */
  predicate NamesHost(address: string, host: string, port: string) {
    || (address == host + ":" + port && Plain(host) && Plain(port))
    || (address == "[" + host + "]:" + port && '[' !in host && ']' !in host && Plain(port))
  }

  lemma SplitNames(address: string) returns (port: string)
    requires SplitHost(address).Some?
    ensures NamesHost(address, SplitHost(address).value, port)
  {
    var colon := LastIndexOf(address, ':').value;
    var host := SplitHost(address).value;
    port := address[colon + 1..];
    if address[0] == '[' {
      assert address == "[" + host + "]:" + port;
      assert forall c :: c in host ==> c in address[1..];
      assert forall c :: c in port ==> c in address[1..] && c in address[colon..];
    } else {
      assert address == host + ":" + port;
    }
  }

  lemma {:induction false} LastIndexAt(s: string, c: char, k: nat)
    requires k < |s| && s[k] == c && c !in s[k + 1..]
    ensures LastIndexOf(s, c) == Some(k)
  {
    if k < |s| - 1 {
      assert Last(s) == s[k + 1..][|s| - k - 2] && s[k + 1..] == Init(s)[k + 1..] + [Last(s)];
      LastIndexAt(Init(s), c, k);
    }
  }

  lemma {:induction false} IndexAt(s: string, c: char, k: nat)
    requires k < |s| && s[k] == c && c !in s[..k]
    ensures IndexOf(s, c) == Some(k)
  {
    if k > 0 {
      assert s[0] == s[..k][0] && s[..k] == [s[0]] + s[1..][..k - 1];
      IndexAt(s[1..], c, k - 1);
    }
  }

  lemma NamedPlainly(host: string, port: string)
    requires Plain(host) && Plain(port)
    ensures SplitHost(host + ":" + port) == Some(host)
  {
    var address := host + ":" + port;
    assert address[|host| + 1..] == port && address[..|host|] == host;
    LastIndexAt(address, ':', |host|);
  }

  lemma NamedInBrackets(host: string, port: string)
    requires '[' !in host && ']' !in host && Plain(port)
    ensures SplitHost("[" + host + "]:" + port) == Some(host)
  {
    var address, end := "[" + host + "]:" + port, |host| + 1;
    assert address[0] == '[' && address[end] == ']' && address[end + 1] == ':';
    assert address[end + 2..] == port && address[..end] == "[" + host;
    LastIndexAt(address, ':', end + 1);
    IndexAt(address, ']', end);
    Bracketed(host, port);
    assert address[1..end] == host;
  }

  lemma Tail(front: string, back: string)
    ensures (front + back)[|front|..] == back
  {
  }

  lemma Bracketed(host: string, port: string)
    ensures var address := "[" + host + "]:" + port;
            address[1..] == host + "]:" + port && address[|host| + 2..] == ":" + port
  {
    Tail("[", host + "]:" + port);
    assert "[" + (host + "]:" + port) == "[" + host + "]:" + port;
    Tail("[" + host + "]", ":" + port);
    assert "[" + host + "]" + (":" + port) == "[" + host + "]:" + port;
  }

  lemma SplitHostIff(address: string, host: string)
    ensures SplitHost(address) == Some(host) <==> exists port :: NamesHost(address, host, port)
  {
    if SplitHost(address) == Some(host) {
      var port := SplitNames(address);
    }
    if port :| NamesHost(address, host, port) {
      if address == host + ":" + port && Plain(host) {
        NamedPlainly(host, port);
      } else {
        NamedInBrackets(host, port);
      }
    }
  }

  /** The host an address names: before its port if it has one, else the whole. */
  ghost predicate HostOf(address: string, host: string) {
    || (exists port :: NamesHost(address, host, port))
    || (host == address && forall h, port :: !NamesHost(address, h, port))
  }

  lemma StripHostPortIff(address: string, host: string)
    ensures StripHostPort(address) == host <==> HostOf(address, host)
  {
    SplitHostIff(address, host);
    if SplitHost(address).Some? {
      var port := SplitNames(address);
    } else {
      forall h, port
        ensures !NamesHost(address, h, port)
      {
        SplitHostIff(address, h);
      }
    }
  }

  /** Two addresses share a product-host key exactly if they name one host, up to ASCII letter case. */
  lemma HostKeyIff(a: string, b: string)
    ensures HostKey(a) == HostKey(b) <==> exists h, i :: HostOf(a, h) && HostOf(b, i) && SameLetters(h, i)
  {
    StripHostPortIff(a, StripHostPort(a));
    StripHostPortIff(b, StripHostPort(b));
    ToLowerIff(StripHostPort(a), StripHostPort(b));
    if h, i :| HostOf(a, h) && HostOf(b, i) && SameLetters(h, i) {
      StripHostPortIff(a, h);
      StripHostPortIff(b, i);
    }
  }

  /** A port makes no difference. */
  lemma PortIgnored(host: string, port: string)
    requires Plain(host) && Plain(port)
    ensures HostKey(host + ":" + port) == HostKey(host)
  {
    NamedPlainly(host, port);
  }

  // ---- An entry the parser lets through ----------------------------------------------------

  /** A port without a host, or with an empty pair of brackets for one. */
  predicate Hostless(address: string) {
    (HasPrefix(address, ":") && Plain(address[1..])) || (HasPrefix(address, "[]:") && Plain(address[3..]))
  }

  lemma HostlessIff(address: string)
    ensures Hostless(address) <==> exists port :: NamesHost(address, "", port)
  {
    if HasPrefix(address, ":") && Plain(address[1..]) {
      assert address == "" + ":" + address[1..];
      assert NamesHost(address, "", address[1..]);
    }
    if HasPrefix(address, "[]:") && Plain(address[3..]) {
      assert address == "[" + "" + "]:" + address[3..];
      assert NamesHost(address, "", address[3..]);
    }
    if port :| NamesHost(address, "", port) {
      assert address == ":" + port || address == "[]:" + port;
      assert address == ":" + port ==> address[1..] == port;
      assert address == "[]:" + port ==> address[3..] == port;
    }
  }

  /** The empty-host check comes before the port is stripped, so a port without a host is accepted as the empty host. */
  lemma AcceptedHostEmptyIff(entry: string)
    requires ParseEntry(entry).Ok?
    ensures ParseEntry(entry).value.0 == "" <==> Hostless(TrimSpace(Cut(entry, '=').value.0))
  {
    HostlessIff(TrimSpace(Cut(entry, '=').value.0));
    SplitHostIff(TrimSpace(Cut(entry, '=').value.0), "");
  }

  /** Any port alone is accepted for a host: among others the entry ":8080=/x". */
  lemma BarePortAccepted(port: string)
    requires Plain(port) && '=' !in port && '/' !in port && (port == "" || !IsSpace(Last(port)))
    ensures ParseEntry(":" + port + "=" + "/x") == Ok(("", "/x"))
  {
    BarePortKey(port);
    TrimmedX();
    EntryAccepted(":" + port, "/x");
  }

  lemma BarePortKey(port: string)
    requires Plain(port)
    ensures HostKey(":" + port) == ""
  {
    NamedPlainly("", port);
    assert "" + ":" + port == ":" + port;
  }

  // ---- Which entries parse, and to what ----------------------------------------------------

  /** The entry is `name = spelled`, both between white space. */
  ghost predicate Reads(entry: string, left: string, right: string, name: string, spelled: string) {
    entry == left + "=" + right && '=' !in left && CoreOf(left, name, White) && CoreOf(right, spelled, White)
  }

  /** The slashes around the spelled prefix are immaterial, but one alone or none is no prefix. */
  ghost predicate SpellsPrefix(spelled: string, prefix: string) {
    && spelled != "" && spelled != "/"
    && (exists tail :: CoreOf(spelled, tail, Only('/')) && prefix == "/" + tail)
    && !Reserved(prefix + "/")
  }

  lemma SpellsPrefixIff(spelled: string, prefix: string)
    ensures SpellsPrefix(spelled, prefix)
            <==> spelled != "" && spelled != "/" && prefix == "/" + Trim(spelled, '/') && !IsRouteBlocked(prefix + "/")
  {
    BlockedIff(prefix + "/");
    TrimIff(spelled, '/', Trim(spelled, '/'));
    if tail :| CoreOf(spelled, tail, Only('/')) && prefix == "/" + tail {
      TrimIff(spelled, '/', tail);
    }
  }

  /** An entry is accepted as key and prefix exactly if it reads as a bare host and a prefix outside the reserved namespaces. */
  lemma EntryIff(entry: string, key: string, prefix: string)
    ensures ParseEntry(entry) == Ok((key, prefix))
            <==> exists left, right, name, spelled ::
                   && Reads(entry, left, right, name, spelled)
                   && name != "" && '/' !in name && key == HostKey(name) && ':' !in key
                   && SpellsPrefix(spelled, prefix)
  {
    if ParseEntry(entry) == Ok((key, prefix)) {
      EntryReads(entry, key, prefix);
    }
    if left, right, name, spelled :|
         Reads(entry, left, right, name, spelled)
         && name != "" && '/' !in name && key == HostKey(name) && ':' !in key && SpellsPrefix(spelled, prefix) {
      CutAt(left, '=', right);
      TrimSpaceIff(left, name);
      TrimSpaceIff(right, spelled);
      SpellsPrefixIff(spelled, prefix);
    }
  }

  lemma EntryReads(entry: string, key: string, prefix: string)
    requires ParseEntry(entry) == Ok((key, prefix))
    ensures exists left, right, name, spelled ::
              && Reads(entry, left, right, name, spelled)
              && name != "" && '/' !in name && key == HostKey(name) && ':' !in key
              && SpellsPrefix(spelled, prefix)
  {
    var (left, right) := Cut(entry, '=').value;
    var name, spelled := TrimSpace(left), TrimSpace(right);
    TrimSpaceIsCore(left);
    TrimSpaceIsCore(right);
    SpellsPrefixIff(spelled, prefix);
    assert Reads(entry, left, right, name, spelled);
  }
}
