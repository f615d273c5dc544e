/**
 * The host allowlist of the proxy: the configured comma-separated string is
 * split on every `,` (as `String.prototype.split(",")` does) and each item
 * is trimmed (as `String.prototype.trim` does).
 */
module Allowlist {

  /**
   * The code points `String.prototype.trim` removes: ECMAScript WhiteSpace
   * (TAB, VT, FF, ZWNBSP and the space separators of category Zs) and
   * LineTerminator (LF, CR, LS, PS).
   */
  predicate IsTrimSpace(c: char) {
    || c == '\t' || c == '\n' || c == '\U{B}' || c == '\U{C}' || c == '\r'
    || c == ' ' || c == '\U{A0}' || c == '\U{1680}'
    || ('\U{2000}' <= c <= '\U{200A}')
    || c == '\U{2028}' || c == '\U{2029}' || c == '\U{202F}' || c == '\U{205F}'
    || c == '\U{3000}' || c == '\U{FEFF}'
  }

  predicate AllSpace(s: string) {
    forall i :: 0 <= i < |s| ==> IsTrimSpace(s[i])
  }

  /** The number of commas in `s`. */
  function Commas(s: string): nat {
    multiset(s)[',']
  }

  // ---------------------------------------------------------------------------
  // Splitting on ","
  // ---------------------------------------------------------------------------

  /**
   * `s.split(",")`: the pieces between commas, in order. An empty string
   * gives one empty piece, and adjacent commas give empty pieces.
   */
  function Split(s: string): (parts: seq<string>)
    ensures |parts| >= 1
    decreases |s|
  {
    if s == [] then [""]
    else
      var rest := Split(s[1..]);
      if s[0] == ',' then [""] + rest
      else [[s[0]] + rest[0]] + rest[1..]
  }

  /** `s.split(",")` has one more piece than `s` has commas. */
  lemma {:induction false} SplitCount(s: string)
    ensures |Split(s)| == Commas(s) + 1
    decreases |s|
  {
    if s != [] {
      SplitCount(s[1..]);
      assert s == [s[0]] + s[1..];
      assert multiset(s) == multiset{s[0]} + multiset(s[1..]);
    }
  }

  /** No piece of `s.split(",")` contains a comma. */
  lemma {:induction false} SplitPiecesCommaFree(s: string)
    ensures forall k :: 0 <= k < |Split(s)| ==> ',' !in Split(s)[k]
    decreases |s|
  {
    if s != [] {
      SplitPiecesCommaFree(s[1..]);
      var rest := Split(s[1..]);
      if s[0] != ',' {
        var parts := Split(s);
        assert parts == [[s[0]] + rest[0]] + rest[1..];
        forall k | 0 <= k < |parts| ensures ',' !in parts[k] {
          if k == 0 {
            assert ',' !in rest[0];
          } else {
            assert parts[k] == rest[k];
          }
        }
      }
    }
  }

  /** `parts.join(",")`, the inverse of `Split`. */
  function Join(parts: seq<string>): string
    decreases |parts|
  {
    if |parts| == 0 then ""
    else if |parts| == 1 then parts[0]
    else parts[0] + "," + Join(parts[1..])
  }

  /** Prefixing `x` to the first piece prefixes `x` to the join. */
  lemma {:induction false} JoinPrefixFirst(x: string, parts: seq<string>)
    requires |parts| >= 1
    ensures Join([x + parts[0]] + parts[1..]) == x + Join(parts)
  {
    var q := [x + parts[0]] + parts[1..];
    assert |q| == |parts| && q[0] == x + parts[0];
    if |parts| == 1 {
      assert Join(q) == q[0];
    } else {
      assert q[1..] == parts[1..];
      assert Join(q) == q[0] + "," + Join(q[1..]);
      assert Join(parts) == parts[0] + "," + Join(parts[1..]);
      assert (x + parts[0]) + "," + Join(parts[1..]) == x + (parts[0] + "," + Join(parts[1..]));
    }
  }

  /** Joining the pieces of `s` with commas gives back `s`. */
  lemma {:induction false} JoinSplit(s: string)
    ensures Join(Split(s)) == s
    decreases |s|
  {
    if s != [] {
      var rest := Split(s[1..]);
      JoinSplit(s[1..]);
      assert s == [s[0]] + s[1..];
      if s[0] == ',' {
        assert Split(s) == [""] + rest;
        assert ([""] + rest)[1..] == rest;
      } else {
        assert Split(s) == [[s[0]] + rest[0]] + rest[1..];
        JoinPrefixFirst([s[0]], rest);
      }
    }
  }

  /** Splitting a comma-free prefix `p` off the front of `p + t`. */
  lemma {:induction false} SplitPrefix(p: string, t: string)
    requires ',' !in p
    ensures Split(p + t) == [p + Split(t)[0]] + Split(t)[1..]
    decreases |p|
  {
    if p != [] {
      var s := p + t;
      assert s[1..] == p[1..] + t;
      assert s[0] == p[0];
      SplitPrefix(p[1..], t);
      var rest := Split(s[1..]);
      assert rest[0] == p[1..] + Split(t)[0];
      assert rest[1..] == Split(t)[1..];
      assert Split(s) == [[p[0]] + rest[0]] + rest[1..];
      assert [p[0]] + (p[1..] + Split(t)[0]) == p + Split(t)[0];
    } else {
      assert p + t == t;
      assert p + Split(t)[0] == Split(t)[0];
      assert Split(t) == [Split(t)[0]] + Split(t)[1..];
    }
  }

  /** Splitting a join of comma-free pieces gives back those pieces. */
  lemma {:induction false} SplitJoin(parts: seq<string>)
    requires |parts| >= 1
    requires forall k :: 0 <= k < |parts| ==> ',' !in parts[k]
    ensures Split(Join(parts)) == parts
    decreases |parts|
  {
    if |parts| == 1 {
      SplitPrefix(parts[0], "");
      assert parts[0] + "" == parts[0];
    } else {
      var t := "," + Join(parts[1..]);
      SplitPrefix(parts[0], t);
      SplitJoin(parts[1..]);
      assert t[1..] == Join(parts[1..]);
      assert t == [','] + t[1..];
      assert Split(t) == [""] + parts[1..];
      assert Join(parts) == parts[0] + t;
      assert parts[0] + "" == parts[0];
      assert parts == [parts[0]] + parts[1..];
    }
  }

  // ---------------------------------------------------------------------------
  // Trimming
  // ---------------------------------------------------------------------------

  /** `s` without its leading whitespace. */
  function TrimStart(s: string): string
    decreases |s|
  {
    if s != [] && IsTrimSpace(s[0]) then TrimStart(s[1..]) else s
  }

  /** `s` without its trailing whitespace. */
  function TrimEnd(s: string): string
    decreases |s|
  {
    if s != [] && IsTrimSpace(s[|s| - 1]) then TrimEnd(s[..|s| - 1]) else s
  }

  /** `s.trim()`. */
  function Trim(s: string): string {
    TrimEnd(TrimStart(s))
  }

  /** `TrimStart(s)` is the suffix of `s` after a run of whitespace, and starts with non-whitespace. */
  lemma {:induction false} TrimStartSpec(s: string)
    ensures var r := TrimStart(s);
      && |r| <= |s| && r == s[|s| - |r|..]
      && AllSpace(s[..|s| - |r|])
      && (r == [] || !IsTrimSpace(r[0]))
    decreases |s|
  {
    if s != [] && IsTrimSpace(s[0]) {
      TrimStartSpec(s[1..]);
      var r := TrimStart(s[1..]);
      assert s[..|s| - |r|] == [s[0]] + s[1..][..|s| - 1 - |r|];
    }
  }

  /** `TrimEnd(s)` is the prefix of `s` before a run of whitespace, and ends with non-whitespace. */
  lemma {:induction false} TrimEndSpec(s: string)
    ensures var r := TrimEnd(s);
      && |r| <= |s| && r == s[..|r|]
      && AllSpace(s[|r|..])
      && (r == [] || !IsTrimSpace(r[|r| - 1]))
    decreases |s|
  {
    if s != [] && IsTrimSpace(s[|s| - 1]) {
      TrimEndSpec(s[..|s| - 1]);
      var r := TrimEnd(s[..|s| - 1]);
      assert s[|r|..] == s[..|s| - 1][|r|..] + [s[|s| - 1]];
    }
  }

  /**
   * `s.trim()` is the part of `s` between a leading and a trailing run of
   * whitespace, and it starts and ends with non-whitespace.
   */
  lemma {:induction false} TrimSpec(s: string)
    ensures var r := Trim(s);
      var i := |s| - |TrimStart(s)|;
      && 0 <= i && i + |r| <= |s|
      && r == s[i..i + |r|]
      && AllSpace(s[..i])
      && AllSpace(s[i + |r|..])
      && (r == [] || (!IsTrimSpace(r[0]) && !IsTrimSpace(r[|r| - 1])))
  {
    var t := TrimStart(s);
    var r := TrimEnd(t);
    TrimStartSpec(s);
    TrimEndSpec(t);
    var i := |s| - |t|;
    assert t == s[i..];
    assert r == s[i..i + |r|];
    assert t[|r|..] == s[i + |r|..];
    assert r != [] ==> r[0] == t[0];
  }

  lemma {:induction false} TrimStartOfSpacePrefix(a: string, t: string)
    requires AllSpace(a)
    requires t == [] || !IsTrimSpace(t[0])
    ensures TrimStart(a + t) == t
    decreases |a|
  {
    if a != [] {
      assert (a + t)[1..] == a[1..] + t;
      TrimStartOfSpacePrefix(a[1..], t);
    }
  }

  lemma {:induction false} TrimEndOfSpaceSuffix(t: string, b: string)
    requires AllSpace(b)
    requires t == [] || !IsTrimSpace(t[|t| - 1])
    ensures TrimEnd(t + b) == t
    decreases |b|
  {
    if b != [] {
      assert (t + b)[..|t + b| - 1] == t + b[..|b| - 1];
      TrimEndOfSpaceSuffix(t, b[..|b| - 1]);
    }
  }

  /**
   * Trim is determined by what it keeps: whatever whitespace surrounds a
   * middle part that starts and ends with non-whitespace, trimming yields
   * exactly that middle part.
   */
  lemma {:induction false} TrimUnique(a: string, m: string, b: string)
    requires AllSpace(a) && AllSpace(b)
    requires m == [] || (!IsTrimSpace(m[0]) && !IsTrimSpace(m[|m| - 1]))
    ensures Trim(a + m + b) == m
  {
    if m == [] {
      assert AllSpace(a + b);
      assert a + m + b == (a + b) + [];
      TrimStartOfSpacePrefix(a + b, []);
      TrimEndOfSpaceSuffix([], []);
    } else {
      assert a + m + b == a + (m + b);
      TrimStartOfSpacePrefix(a, m + b);
      TrimEndOfSpaceSuffix(m, b);
    }
  }

  /** Trimming twice is trimming once. */
  lemma {:induction false} TrimIdempotent(s: string)
    ensures Trim(Trim(s)) == Trim(s)
  {
    var r := Trim(s);
    TrimSpec(s);
    TrimUnique([], r, []);
    assert [] + r + [] == r;
  }

  // ---------------------------------------------------------------------------
  // The allowlist
  // ---------------------------------------------------------------------------

  /** `parts.map(s => s.trim())`. */
  function TrimAll(parts: seq<string>): seq<string> {
    if parts == [] then [] else [Trim(parts[0])] + TrimAll(parts[1..])
  }

  /** `TrimAll` trims each piece in place. */
  lemma {:induction false} TrimAllPointwise(parts: seq<string>)
    ensures |TrimAll(parts)| == |parts|
    ensures forall k :: 0 <= k < |parts| ==> TrimAll(parts)[k] == Trim(parts[k])
  {
    if parts != [] {
      TrimAllPointwise(parts[1..]);
      var r := TrimAll(parts);
      assert r == [Trim(parts[0])] + TrimAll(parts[1..]);
      forall k | 1 <= k < |parts| ensures r[k] == Trim(parts[k]) {
        assert r[k] == TrimAll(parts[1..])[k - 1];
        assert parts[1..][k - 1] == parts[k];
      }
    }
  }

  /** `config.split(",").map(s => s.trim())`. */
  function HostList(config: string): seq<string> {
    TrimAll(Split(config))
  }

  /**
   * The allowlist has one entry per comma-separated item, each without
   * commas and without surrounding whitespace.
   */
  lemma {:induction false} HostListShape(config: string)
    ensures |HostList(config)| == Commas(config) + 1
    ensures forall k :: 0 <= k < |HostList(config)| ==>
      ',' !in HostList(config)[k] && Trim(HostList(config)[k]) == HostList(config)[k]
  {
    var parts := Split(config);
    var hosts := HostList(config);
    SplitCount(config);
    SplitPiecesCommaFree(config);
    TrimAllPointwise(parts);
    forall k | 0 <= k < |hosts|
      ensures ',' !in hosts[k] && Trim(hosts[k]) == hosts[k]
    {
      TrimmedPiece(parts[k]);
    }
  }

  /** Trimming a comma-free piece keeps it comma-free and leaves nothing more to trim. */
  lemma {:induction false} TrimmedPiece(p: string)
    requires ',' !in p
    ensures ',' !in Trim(p) && Trim(Trim(p)) == Trim(p)
  {
    TrimIdempotent(p);
    TrimSpec(p);
    var r := Trim(p);
    var i := |p| - |TrimStart(p)|;
    assert r == p[i..i + |r|];
    assert forall c :: c in r ==> c in p;
  }

  /** A host is on the list exactly when it is one of the pieces, trimmed. */
  lemma {:induction false} HostListMembership(config: string, host: string)
    ensures host in HostList(config) <==>
      exists k :: 0 <= k < |Split(config)| && Trim(Split(config)[k]) == host
  {
    var parts := Split(config);
    var hosts := HostList(config);
    TrimAllPointwise(parts);
    assert hosts == TrimAll(parts);
    if host in hosts {
      var k :| 0 <= k < |hosts| && hosts[k] == host;
      assert 0 <= k < |parts| && Trim(parts[k]) == host;
      assert exists j :: 0 <= j < |Split(config)| && Trim(Split(config)[j]) == host;
    } else {
      forall k | 0 <= k < |parts| ensures Trim(parts[k]) != host {
        assert hosts[k] == Trim(parts[k]);
      }
    }
  }

  /**
   * A host is on the list built from `items` joined by commas exactly when
   * it equals, case-sensitively, one item with its surrounding whitespace
   * removed.
   */
  lemma {:induction false} HostListOfItems(items: seq<string>, host: string)
    requires |items| >= 1
    requires forall k :: 0 <= k < |items| ==> ',' !in items[k]
    ensures |HostList(Join(items))| == |items|
    ensures host in HostList(Join(items)) <==> exists k :: 0 <= k < |items| && Trim(items[k]) == host
  {
    SplitJoin(items);
    var hosts := HostList(Join(items));
    TrimAllPointwise(items);
    if host in hosts {
      var k :| 0 <= k < |hosts| && hosts[k] == host;
      assert Trim(items[k]) == host;
    }
  }
}
