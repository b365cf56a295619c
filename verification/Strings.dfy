/** The parts of Go's strings package the gateway uses, on sequences of characters. */
module Strings {
  import opened Options

  predicate HasPrefix(s: string, prefix: string) {
    prefix <= s
  }

  predicate HasSuffix(s: string, suffix: string) {
    |suffix| <= |s| && s[|s| - |suffix|..] == suffix
  }

  function TrimSuffix(s: string, suffix: string): (r: string)
    ensures s == r + suffix || (r == s && !HasSuffix(s, suffix))
  {
    if HasSuffix(s, suffix) then s[..|s| - |suffix|] else s
  }

  lemma HasSuffixIff(s: string, suffix: string)
    ensures HasSuffix(s, suffix) <==> exists r :: Ends(s, r, suffix)
  {
    if HasSuffix(s, suffix) {
      assert Ends(s, s[..|s| - |suffix|], suffix);
    }
  }

  predicate Ends(s: string, rest: string, suffix: string) {
    s == rest + suffix
  }

  /** strings.Cut on a one-character separator: what stands before and after its first occurrence. */
  function Cut(s: string, sep: char): (r: Option<(string, string)>)
    ensures r.None? <==> sep !in s
    ensures r.Some? ==> s == r.value.0 + [sep] + r.value.1 && sep !in r.value.0
  {
    if s == [] then None
    else if s[0] == sep then Some(([], s[1..]))
    else match Cut(s[1..], sep)
      case None => None
      case Some((before, after)) => Some(([s[0]] + before, after))
  }

  function TrimLeft(s: string, c: char): (r: string)
    ensures r == [] || r[0] != c
  {
    if s != [] && s[0] == c then TrimLeft(s[1..], c) else s
  }

  function TrimRight(s: string, c: char): (r: string)
    ensures r == [] || Last(r) != c
    ensures r <= s
  {
    if s != [] && Last(s) == c then TrimRight(Init(s), c) else s
  }

  /** strings.Trim with a one-character cutset. */
  function Trim(s: string, c: char): (r: string)
    ensures r == [] || (r[0] != c && Last(r) != c)
  {
    TrimRight(TrimLeft(s, c), c)
  }

  /** strings.Split on a one-character separator: always at least one part, none holding it. */
  function Split(s: string, sep: char): (parts: seq<string>)
    ensures parts != []
    ensures forall i :: 0 <= i < |parts| ==> sep !in parts[i]
    decreases |s|
  {
    match Cut(s, sep)
    case None => [s]
    case Some((before, after)) => [before] + Split(after, sep)
  }

  function Join(parts: seq<string>, sep: char): string {
    if parts == [] then ""
    else if |parts| == 1 then parts[0]
    else parts[0] + [sep] + Join(parts[1..], sep)
  }

  lemma {:induction false} JoinSplit(s: string, sep: char)
    ensures Join(Split(s, sep), sep) == s
    decreases |s|
  {
    match Cut(s, sep)
    case None =>
    case Some((before, after)) =>
      JoinSplit(after, sep);
      assert Split(s, sep)[1..] == Split(after, sep);
  }

  /** The first separator is where Cut finds it. */
  lemma {:induction false} CutAt(before: string, sep: char, after: string)
    requires sep !in before
    ensures Cut(before + [sep] + after, sep) == Some((before, after))
  {
    var s := before + [sep] + after;
    if before == [] {
      assert s[1..] == after;
    } else {
      CutAt(before[1..], sep, after);
      assert s[1..] == before[1..] + [sep] + after;
      assert [before[0]] + before[1..] == before;
    }
  }

  lemma {:induction false} SplitJoin(parts: seq<string>, sep: char)
    requires parts != [] && forall i :: 0 <= i < |parts| ==> sep !in parts[i]
    ensures Split(Join(parts, sep), sep) == parts
  {
    if |parts| > 1 {
      SplitJoin(parts[1..], sep);
      CutAt(parts[0], sep, Join(parts[1..], sep));
    }
  }

  /** Go's string order, character by character. */
  predicate Less(a: string, b: string) {
    b != [] && (a == [] || a[0] < b[0] || (a[0] == b[0] && Less(a[1..], b[1..])))
  }

  lemma {:induction false} LessTransitive(a: string, b: string, c: string)
    requires Less(a, b) && Less(b, c)
    ensures Less(a, c)
  {
    if a != [] && a[0] == b[0] && b[0] == c[0] {
      LessTransitive(a[1..], b[1..], c[1..]);
    }
  }

  lemma {:induction false} LessTrichotomy(a: string, b: string)
    ensures Less(a, b) || a == b || Less(b, a)
    ensures !(Less(a, b) && Less(b, a)) && !Less(a, a)
  {
    if a != [] && b != [] {
      LessTrichotomy(a[1..], b[1..]);
      LessTrichotomy(a[1..], a[1..]);
      assert a == [a[0]] + a[1..] && b == [b[0]] + b[1..];
    } else if a != [] {
      LessTrichotomy(a[1..], a[1..]);
    }
  }

  predicate IsSpace(c: char) {
    c in " \t\n\r" || c == '\U{0B}' || c == '\U{0C}'
  }

  /** strings.TrimSpace on ASCII input. */
  function TrimSpace(s: string): (r: string)
    ensures r == [] || (!IsSpace(r[0]) && !IsSpace(Last(r)))
  {
    if s == [] then []
    else if IsSpace(s[0]) then TrimSpace(s[1..])
    else if IsSpace(Last(s)) then TrimSpace(Init(s))
    else s
  }

  function Lower(c: char): char {
    if 'A' <= c <= 'Z' then c - 'A' + 'a' else c
  }

  /** strings.ToLower on ASCII input. */
  function ToLower(s: string): (r: string)
    ensures |r| == |s|
  {
    seq(|s|, i requires 0 <= i < |s| => Lower(s[i]))
  }

  // ---- What trimming, lower case and order mean --------------------------------------------

  ghost predicate All(s: string, pad: char -> bool) {
    forall c :: c in s ==> pad(c)
  }

  /** `s` is `core` between padding, and the core neither begins nor ends in padding. */
  ghost predicate Padded(s: string, before: string, core: string, after: string, pad: char -> bool) {
    && s == before + core + after && All(before, pad) && All(after, pad)
    && (core == "" || (!pad(core[0]) && !pad(Last(core))))
  }

  ghost predicate CoreOf(s: string, core: string, pad: char -> bool) {
    exists before, after :: Padded(s, before, core, after, pad)
  }

  lemma PaddedIsAll(s: string, before: string, after: string, pad: char -> bool)
    requires Padded(s, before, "", after, pad)
    ensures All(s, pad)
  {
  }

  /** Where a core begins and ends. */
  lemma MarginsAt(s: string, a: string, t: string, b: string, pad: char -> bool)
    requires Padded(s, a, t, b, pad) && t != ""
    ensures |a| + |t| <= |s| && !pad(s[|a|]) && !pad(s[|a| + |t| - 1]) && s[|a|] in s
    ensures forall i :: 0 <= i < |a| || |a| + |t| <= i < |s| ==> pad(s[i])
  {
    assert forall i :: 0 <= i < |a| ==> s[i] == a[i];
    assert forall i :: |a| + |t| <= i < |s| ==> s[i] == b[i - |a| - |t|];
  }

  lemma CoreUnique(s: string, t: string, u: string, pad: char -> bool)
    requires CoreOf(s, t, pad) && CoreOf(s, u, pad)
    ensures t == u
  {
    var a, b :| Padded(s, a, t, b, pad);
    var a', b' :| Padded(s, a', u, b', pad);
    if t != "" {
      MarginsAt(s, a, t, b, pad);
    } else {
      PaddedIsAll(s, a, b, pad);
    }
    if u != "" {
      MarginsAt(s, a', u, b', pad);
    } else {
      PaddedIsAll(s, a', b', pad);
    }
    if t != "" && u != "" {
      assert |a| == |a'| && |t| == |u|;
      assert t == s[|a|..|a| + |t|] && u == s[|a'|..|a'| + |u|];
    }
  }

  lemma WiderMargins(s: string, inner: string, front: string, back: string, core: string, pad: char -> bool)
    requires s == front + inner + back && All(front, pad) && All(back, pad) && CoreOf(inner, core, pad)
    ensures CoreOf(s, core, pad)
  {
    var a, b :| Padded(inner, a, core, b, pad);
    assert s == (front + a) + core + (b + back);
    assert Padded(s, front + a, core, b + back, pad);
  }

  /** White space by its code: tab to carriage return, and the blank. */
  predicate White(c: char) {
    9 <= c as int <= 13 || c as int == 32
  }

  lemma {:induction false} TrimSpaceIsCore(s: string)
    ensures CoreOf(s, TrimSpace(s), White)
  {
    if s != "" && IsSpace(s[0]) {
      TrimSpaceIsCore(s[1..]);
      assert s == [s[0]] + s[1..] + "";
      WiderMargins(s, s[1..], [s[0]], "", TrimSpace(s), White);
    } else if s != "" && IsSpace(Last(s)) {
      TrimSpaceIsCore(Init(s));
      assert s == "" + Init(s) + [Last(s)];
      WiderMargins(s, Init(s), "", [Last(s)], TrimSpace(s), White);
    } else {
      assert Padded(s, "", s, "", White);
    }
  }

  /** TrimSpace gives the core between the outer white space, and nothing else. */
  lemma TrimSpaceIff(s: string, core: string)
    ensures TrimSpace(s) == core <==> CoreOf(s, core, White)
  {
    TrimSpaceIsCore(s);
    if CoreOf(s, core, White) {
      CoreUnique(s, core, TrimSpace(s), White);
    }
  }

  function Only(c: char): char -> bool {
    x => x == c
  }

  lemma {:induction false} TrimLeftSplits(s: string, c: char) returns (front: string)
    ensures s == front + TrimLeft(s, c) && All(front, Only(c))
  {
    front := "";
    if s != "" && s[0] == c {
      var rest := TrimLeftSplits(s[1..], c);
      front := [c] + rest;
    }
  }

  lemma {:induction false} TrimRightSplits(s: string, c: char) returns (back: string)
    ensures s == TrimRight(s, c) + back && All(back, Only(c))
  {
    back := "";
    if s != "" && Last(s) == c {
      var rest := TrimRightSplits(Init(s), c);
      back := rest + [c];
    }
  }

  /** Trim likewise, with one character for padding. */
  lemma TrimIff(s: string, c: char, core: string)
    ensures Trim(s, c) == core <==> CoreOf(s, core, Only(c))
  {
    var front := TrimLeftSplits(s, c);
    var back := TrimRightSplits(TrimLeft(s, c), c);
    assert s == front + Trim(s, c) + back;
    assert Padded(s, front, Trim(s, c), back, Only(c));
    if CoreOf(s, core, Only(c)) {
      CoreUnique(s, core, Trim(s, c), Only(c));
    }
  }

  /** Equal, or the two cases of one ASCII letter. */
  predicate SameLetter(c: char, d: char) {
    || c == d
    || (65 <= c as int <= 90 && d as int == c as int + 32)
    || (97 <= c as int <= 122 && c as int == d as int + 32)
  }

  predicate SameLetters(s: string, t: string) {
    |s| == |t| && forall i :: 0 <= i < |s| ==> SameLetter(s[i], t[i])
  }

  lemma ToLowerIff(s: string, t: string)
    ensures ToLower(s) == ToLower(t) <==> SameLetters(s, t)
  {
    if ToLower(s) == ToLower(t) {
      forall i | 0 <= i < |s|
        ensures SameLetter(s[i], t[i])
      {
        assert Lower(s[i]) == ToLower(s)[i] == ToLower(t)[i] == Lower(t[i]);
      }
    }
  }

  /** `a` and `b` agree up to `k`, where `a` ends or has the smaller character. */
  predicate DiffersAt(a: string, b: string, k: nat) {
    k <= |a| && k < |b| && a[..k] == b[..k] && (k == |a| || a[k] < b[k])
  }

  /** `a` is `b` cut short, or smaller where they first differ. */
  ghost predicate Precedes(a: string, b: string) {
    exists k :: DiffersAt(a, b, k)
  }

  lemma {:induction false} LessIff(a: string, b: string)
    ensures Less(a, b) <==> Precedes(a, b)
  {
    if a != "" && b != "" && a[0] == b[0] {
      LessIff(a[1..], b[1..]);
      if k: nat :| DiffersAt(a[1..], b[1..], k) {
        assert a[..k + 1] == [a[0]] + a[1..][..k] && b[..k + 1] == [b[0]] + b[1..][..k];
        assert DiffersAt(a, b, k + 1);
      }
      if k: nat :| DiffersAt(a, b, k) {
        assert k > 0;
        assert a[1..][..k - 1] == a[..k][1..] && b[1..][..k - 1] == b[..k][1..];
        assert DiffersAt(a[1..], b[1..], k - 1);
      }
    } else if b != "" && (a == "" || a[0] < b[0]) {
      assert DiffersAt(a, b, 0);
    } else {
      forall k: nat
        ensures !DiffersAt(a, b, k)
      {
        if 0 < k <= |a| && k < |b| {
          assert a[..k][0] == a[0] && b[..k][0] == b[0];
        }
      }
    }
  }
}
