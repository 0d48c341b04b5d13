/** The URL check and the copyable embed snippet of utils/embed.py.

    `is_url_safe` accepts a URL that starts with "http://" or "https://" and
    whose remainder matches a fixed regular expression, read under Python's
    IGNORECASE flag: a host (a dotted domain name, "localhost" or four
    dot-separated groups of digits), an optional port and an optional path
    or query. The expression is written out below as predicates, one per
    part, so that each alternative of the pattern is one disjunct. */
module Embed {

  // ---------------------------------------------------------------------
  // Character classes
  // ---------------------------------------------------------------------

  predicate IsLetter(c: char) {
    'a' <= c <= 'z' || 'A' <= c <= 'Z'
  }

  /** `\d` */
  predicate IsDigit(c: char) {
    '0' <= c <= '9'
  }

  /** `[A-Z0-9]` under IGNORECASE */
  predicate IsAlnum(c: char) {
    IsLetter(c) || IsDigit(c)
  }

  /** `\s` in a str pattern, the complement of `\S`: the characters
      Python's str.isspace accepts. Tab, line feed, vertical tab, form feed
      and carriage return (U+0009 to U+000D), the file, group, record and
      unit separators (U+001C to U+001F), space, next line (U+0085),
      no-break space (U+00A0), the Ogham space mark (U+1680), the spaces
      U+2000 to U+200A, the line and paragraph separators (U+2028, U+2029),
      the narrow no-break space (U+202F), the medium mathematical space
      (U+205F) and the ideographic space (U+3000). */
  predicate IsWhitespace(c: char) {
    '\U{0009}' <= c <= '\U{000D}' || '\U{001C}' <= c <= '\U{0020}' ||
    c == '\U{0085}' || c == '\U{00A0}' || c == '\U{1680}' ||
    '\U{2000}' <= c <= '\U{200A}' || c == '\U{2028}' || c == '\U{2029}' ||
    c == '\U{202F}' || c == '\U{205F}' || c == '\U{3000}'
  }

  /** ASCII lower case, the folding IGNORECASE applies to the pattern's letters. */
  function Lower(c: char): (l: char)
    ensures IsLetter(c) ==> 'a' <= l <= 'z'
    ensures !IsLetter(c) ==> l == c
  {
    if 'A' <= c <= 'Z' then (c as int + 32) as char else c
  }

  function LowerAll(s: string): (l: string)
    ensures |l| == |s|
    ensures forall i :: 0 <= i < |s| ==> l[i] == Lower(s[i])
  {
    seq(|s|, i requires 0 <= i < |s| => Lower(s[i]))
  }

  predicate StartsWith(s: string, prefix: string) {
    |prefix| <= |s| && s[..|prefix|] == prefix
  }

  // ---------------------------------------------------------------------
  // The host
  // ---------------------------------------------------------------------

  /** `[A-Z0-9](?:[A-Z0-9-]{0,61}[A-Z0-9])?`: 1 to 63 letters, digits and
      hyphens, neither first nor last a hyphen. */
  predicate IsLabel(s: string) {
    1 <= |s| <= 63 && IsAlnum(s[0]) && IsAlnum(s[|s| - 1]) &&
    forall i :: 0 <= i < |s| ==> IsAlnum(s[i]) || s[i] == '-'
  }

  /** `(?:label\.)+`: one or more labels, each followed by a dot. */
  predicate IsLabels(s: string)
    decreases |s|, 1
  {
    exists i :: 0 < i < |s| && LabelsAt(s, i)
  }

  /** A first label s[..i], its dot, and then either nothing or more labels. */
  predicate LabelsAt(s: string, i: int)
    decreases |s|, 0
  {
    0 < i < |s| && s[i] == '.' && IsLabel(s[..i]) && (i + 1 == |s| || IsLabels(s[i + 1..]))
  }

  /** `[A-Z]{2,6}` */
  predicate IsTld(s: string) {
    2 <= |s| <= 6 && forall i :: 0 <= i < |s| ==> IsLetter(s[i])
  }

  /** The domain alternative: labels h[..i], then a top-level domain and an
      optional dot. */
  predicate DomainAt(h: string, i: int) {
    0 < i < |h| && IsLabels(h[..i]) &&
      (IsTld(h[i..]) || (h[|h| - 1] == '.' && IsTld(h[i..|h| - 1])))
  }

  predicate IsDomain(h: string) {
    exists i :: 0 < i < |h| && DomainAt(h, i)
  }

  /** `localhost`, in any letter case */
  predicate IsLocalhost(h: string) {
    LowerAll(h) == "localhost"
  }

  /** `\d{1,3}` */
  predicate IsDigitGroup(s: string) {
    1 <= |s| <= 3 && forall i :: 0 <= i < |s| ==> IsDigit(s[i])
  }

  /** `\d{1,3}\.\d{1,3}\.\d{1,3}\.\d{1,3}`: no group is range-checked. */
  predicate IsDottedQuad(h: string) {
    exists a, b, c :: 0 < a < b < c < |h| && QuadAt(h, a, b, c)
  }

  /** Dots at positions a, b and c separate four digit groups. */
  predicate QuadAt(h: string, a: int, b: int, c: int) {
    0 < a < b < c < |h| && h[a] == '.' && h[b] == '.' && h[c] == '.' &&
      IsDigitGroup(h[..a]) && IsDigitGroup(h[a + 1..b]) && IsDigitGroup(h[b + 1..c]) && IsDigitGroup(h[c + 1..])
  }

  predicate IsHost(h: string) {
    IsDomain(h) || IsLocalhost(h) || IsDottedQuad(h)
  }

  // ---------------------------------------------------------------------
  // Port, path and end of input
  // ---------------------------------------------------------------------

  /** `(?::\d+)?` */
  predicate IsPort(p: string) {
    p == "" || (|p| >= 2 && p[0] == ':' && forall i :: 1 <= i < |p| ==> IsDigit(p[i]))
  }

  /** `(?:/?|[/?]\S+)`: nothing, a single slash, or a slash or question
      mark followed by one or more non-whitespace characters. */
  predicate IsTail(t: string) {
    t == "" || t == "/" ||
    (|t| >= 2 && (t[0] == '/' || t[0] == '?') && forall i :: 1 <= i < |t| ==> !IsWhitespace(t[i]))
  }

  /** The tail followed by `$`, which matches at the end of the input and
      also just before a newline that ends it. */
  predicate IsTailAtEnd(t: string) {
    IsTail(t) || (|t| >= 1 && t[|t| - 1] == '\n' && IsTail(t[..|t| - 1]))
  }

  /** The text after the scheme splits into a host r[..i], a port r[i..j]
      and a tail r[j..]. */
  predicate SplitsAt(r: string, i: int, j: int) {
    0 <= i <= j <= |r| && IsHost(r[..i]) && IsPort(r[i..j]) && IsTailAtEnd(r[j..])
  }

  /** The pattern after `^(?:http|https)://`; the regular expression engine
      backtracks over every split. */
  predicate MatchesAfterScheme(r: string) {
    exists i, j :: 0 <= i <= j <= |r| && SplitsAt(r, i, j)
  }

  /** `is_url_safe(url)`: the scheme test is case-sensitive, so the
      pattern's own case-insensitive scheme only ever sees "http://" or
      "https://". Only URLs in those two schemes, in lower case, pass. */
  function IsUrlSafe(url: string): (ok: bool)
    ensures ok ==> StartsWith(url, "http://") || StartsWith(url, "https://")
  {
    if StartsWith(url, "http://") then MatchesAfterScheme(url[7..])
    else if StartsWith(url, "https://") then MatchesAfterScheme(url[8..])
    else false
  }

  // ---------------------------------------------------------------------
  // Properties of the check
  // ---------------------------------------------------------------------

  /** Every character of a host is a letter, a digit, a hyphen or a dot. */
  predicate HostChars(h: string) {
    forall k :: 0 <= k < |h| ==> IsAlnum(h[k]) || h[k] == '-' || h[k] == '.'
  }

  lemma {:induction false} LabelsChars(s: string)
    requires IsLabels(s)
    ensures HostChars(s)
    decreases |s|
  {
    var i :| 0 < i < |s| && LabelsAt(s, i);
    assert forall k :: 0 <= k < i ==> s[k] == s[..i][k];
    if i + 1 < |s| {
      LabelsChars(s[i + 1..]);
      assert forall k :: i + 1 <= k < |s| ==> s[k] == s[i + 1..][k - i - 1];
    }
  }

  lemma DomainChars(h: string, i: int)
    requires DomainAt(h, i)
    ensures HostChars(h)
  {
    LabelsChars(h[..i]);
    assert forall k :: 0 <= k < i ==> h[k] == h[..i][k];
    if IsTld(h[i..]) {
      assert forall k :: i <= k < |h| ==> h[k] == h[i..][k - i];
    } else {
      assert forall k :: i <= k < |h| - 1 ==> h[k] == h[i..|h| - 1][k - i];
    }
  }

  lemma LocalhostChars(h: string)
    requires IsLocalhost(h)
    ensures HostChars(h)
  {
    forall k | 0 <= k < |h|
      ensures IsAlnum(h[k])
    {
      assert Lower(h[k]) == "localhost"[k];
    }
  }

  lemma QuadChars(h: string, a: int, b: int, c: int)
    requires QuadAt(h, a, b, c)
    ensures HostChars(h)
  {
    forall k | 0 <= k < |h|
      ensures IsAlnum(h[k]) || h[k] == '.'
    {
      if k < a {
        assert h[k] == h[..a][k];
      } else if a < k < b {
        assert h[k] == h[a + 1..b][k - a - 1];
      } else if b < k < c {
        assert h[k] == h[b + 1..c][k - b - 1];
      } else if c < k {
        assert h[k] == h[c + 1..][k - c - 1];
      }
    }
  }

  /** A host is never empty and uses only letters, digits, hyphens and dots,
      so it never swallows a port, a path or a query. */
  lemma HostShape(h: string)
    ensures IsHost(h) ==> |h| > 0 && HostChars(h)
  {
    if IsDomain(h) {
      var i :| 0 < i < |h| && DomainAt(h, i);
      DomainChars(h, i);
    } else if IsLocalhost(h) {
      LocalhostChars(h);
    } else if IsDottedQuad(h) {
      var a, b, c :| 0 < a < b < c < |h| && QuadAt(h, a, b, c);
      QuadChars(h, a, b, c);
    }
  }

  /** After the scheme, a URL whose first character can start neither a
      host, nor a port, a path or a query, nor the final newline, is
      refused whatever follows. */
  lemma RefusesBadFirstChar(r: string)
    requires |r| > 0 && !IsAlnum(r[0]) && r[0] != '-' && r[0] != '.'
    requires r[0] != ':' && r[0] != '/' && r[0] != '?' && r[0] != '\n'
    ensures !MatchesAfterScheme(r)
  {
    forall i, j | 0 <= i <= j <= |r|
      ensures !SplitsAt(r, i, j)
    {
      HostShape(r[..i]);
      if i > 0 {
        assert r[..i][0] == r[0];
      }
    }
  }

  /** A whitespace character anywhere after the scheme makes the URL
      refused, unless it is the newline that ends the input: a host holds
      none, a port holds none and `\S+` admits none. */
  lemma RefusesWhitespace(r: string, p: int)
    requires 0 <= p < |r| && IsWhitespace(r[p]) && !(p == |r| - 1 && r[p] == '\n')
    ensures !MatchesAfterScheme(r)
  {
    forall i, j | 0 <= i <= j <= |r|
      ensures !SplitsAt(r, i, j)
    {
      if p < i {
        assert r[..i][p] == r[p];
        HostHasNoWhitespace(r[..i], p);
      } else if p < j {
        assert r[i..j][p - i] == r[p];
      } else {
        assert r[j..][p - j] == r[p];
        TailHasNoWhitespace(r[j..], p - j);
      }
    }
  }

  lemma HostHasNoWhitespace(h: string, k: int)
    requires 0 <= k < |h|
    ensures IsHost(h) ==> !IsWhitespace(h[k])
  {
    HostShape(h);
  }

  /** Only the newline that `$` allows at the very end. */
  lemma TailHasNoWhitespace(t: string, k: int)
    requires 0 <= k < |t| && !(k == |t| - 1 && t[k] == '\n')
    ensures IsTailAtEnd(t) ==> !IsWhitespace(t[k])
  {
    if k < |t| - 1 {
      assert t[..|t| - 1][k] == t[k];
    }
  }

  /** The ASCII separator U+001C counts as whitespace, so `\S+` stops at it. */
  lemma RefusesSeparatorInPath(url: string)
    requires url == "http://example.org/a\U{001C}b"
    ensures !IsUrlSafe(url)
  {
    assert url[..7] == "http://";
    assert url[7..][13] == '\U{001C}';
    RefusesWhitespace(url[7..], 13);
  }

  /** A host, a port and a tail, written one after the other, match. */
  lemma Compose(host: string, port: string, tail: string)
    requires IsHost(host) && IsPort(port) && IsTailAtEnd(tail)
    ensures MatchesAfterScheme(host + port + tail)
  {
    var r := host + port + tail;
    assert r[..|host|] == host;
    assert r[|host|..|host| + |port|] == port;
    assert r[|host| + |port|..] == tail;
    assert SplitsAt(r, |host|, |host| + |port|);
  }

  /** A host on its own, with neither port nor path, matches. */
  lemma HostAlone(host: string)
    requires IsHost(host)
    ensures MatchesAfterScheme(host)
  {
    assert host[..|host|] == host && host[|host|..|host|] == "" && host[|host|..] == "";
    assert SplitsAt(host, |host|, |host|);
  }

  lemma HttpAccepts(url: string, r: string)
    requires url == "http://" + r && MatchesAfterScheme(r)
    ensures IsUrlSafe(url)
  {
    assert url[..7] == "http://" && url[7..] == r;
  }

  lemma HttpsAccepts(url: string, r: string)
    requires url == "https://" + r && MatchesAfterScheme(r)
    ensures IsUrlSafe(url)
  {
    assert url[4] == 's';
    assert url[..8] == "https://" && url[8..] == r;
  }

  /** "example." is one label followed by its dot. */
  lemma ExampleLabel()
    ensures IsLabels("example.")
  {
    assert "example."[..7] == "example";
    assert LabelsAt("example.", 7);
  }

  lemma ExampleOrgHost()
    ensures IsHost("example.org")
  {
    ExampleLabel();
    assert "example.org"[..8] == "example." && "example.org"[8..] == "org";
    assert DomainAt("example.org", 8);
  }

  lemma QuadHost()
    ensures IsHost("999.999.999.999")
  {
    var quad := "999.999.999.999";
    assert quad[..3] == "999" && quad[4..7] == "999" && quad[8..11] == "999" && quad[12..] == "999";
    assert QuadAt(quad, 3, 7, 11);
  }

  /** Dotted quads are not range-checked: 999.999.999.999 is accepted. */
  lemma AcceptsOutOfRangeQuad()
    ensures IsUrlSafe("http://" + "999.999.999.999")
  {
    QuadHost();
    HostAlone("999.999.999.999");
    HttpAccepts("http://" + "999.999.999.999", "999.999.999.999");
  }

  lemma WwwExampleLabels()
    ensures IsLabels("www.example.")
  {
    ExampleLabel();
    assert IsLabel("www");
    assert "www.example."[..3] == "www" && "www.example."[4..] == "example.";
    assert LabelsAt("www.example.", 3);
  }

  lemma WwwExampleComHost()
    ensures IsHost("www.example.com")
  {
    var host := "www.example.com";
    WwwExampleLabels();
    assert host[..12] == "www.example." && host[12..] == "com";
    assert DomainAt(host, 12);
  }

  lemma DomainPortPathMatches()
    ensures MatchesAfterScheme("www.example.com:8080/a?b=1")
  {
    WwwExampleComHost();
    PortAndPath();
    Compose("www.example.com", ":8080", "/a?b=1");
    assert "www.example.com" + ":8080" + "/a?b=1" == "www.example.com:8080/a?b=1";
  }

  lemma PortAndPath()
    ensures IsPort(":8080") && IsTailAtEnd("/a?b=1")
  {
    assert IsPort(":8080");
    assert IsTailAtEnd("/a?b=1");
  }

  /** A domain name with a port, a path and a query is accepted. */
  lemma AcceptsDomainPortPath()
    ensures IsUrlSafe("https://" + "www.example.com:8080/a?b=1")
  {
    DomainPortPathMatches();
    HttpsAccepts("https://" + "www.example.com:8080/a?b=1", "www.example.com:8080/a?b=1");
  }

  /** "localhost" is accepted in any letter case, here with a port. */
  lemma AcceptsLocalhostPort()
    ensures IsUrlSafe("http://" + "LocalHost:8501")
  {
    LocalhostPortMatches();
    HttpAccepts("http://" + "LocalHost:8501", "LocalHost:8501");
  }

  lemma LocalhostPortMatches()
    ensures MatchesAfterScheme("LocalHost:8501")
  {
    assert LowerAll("LocalHost") == "localhost";
    assert IsPort(":8501");
    Compose("LocalHost", ":8501", "");
    assert "LocalHost" + ":8501" + "" == "LocalHost:8501";
  }

  lemma TrailingDotHost()
    ensures IsHost("example.org.")
  {
    var d := "example.org.";
    ExampleLabel();
    assert d[..8] == "example." && d[8..] == "org." && d[8..11] == "org";
    assert DomainAt(d, 8);
  }

  /** A fully qualified name ending in a dot is accepted. */
  lemma AcceptsTrailingDot()
    ensures IsUrlSafe("http://" + "example.org.")
  {
    TrailingDotHost();
    HostAlone("example.org.");
    HttpAccepts("http://" + "example.org.", "example.org.");
  }

  /** `$` also matches before a final newline, so a URL ending in one is
      accepted. */
  lemma AcceptsFinalNewline()
    ensures IsUrlSafe("http://" + "example.org/\n")
  {
    FinalNewlineMatches();
    HttpAccepts("http://" + "example.org/\n", "example.org/\n");
  }

  lemma FinalNewlineMatches()
    ensures MatchesAfterScheme("example.org/\n")
  {
    ExampleOrgHost();
    assert "/\n"[..1] == "/";
    Compose("example.org", "", "/\n");
    assert "example.org" + "" + "/\n" == "example.org/\n";
  }

  /** The prefix test is case-sensitive and admits only http and https:
      an upper-case scheme and any other scheme are refused. */
  lemma RefusesOtherSchemes(url: string)
    requires url == "HTTP://example.org" || url == "ftp://example.org"
    ensures !IsUrlSafe(url)
  {
    assert url[..7][0] == url[0] && url[..8][0] == url[0];
  }

  /** A host may not start with an underscore. */
  lemma RefusesUnderscoreHost(url: string)
    requires url == "http://_example.org"
    ensures !IsUrlSafe(url)
  {
    assert url[..7] == "http://";
    assert url[7..][0] == '_';
    RefusesBadFirstChar(url[7..]);
  }

  // ---------------------------------------------------------------------
  // Case-insensitivity
  // ---------------------------------------------------------------------

  lemma LowerAllSlice(s: string, a: int, b: int)
    requires 0 <= a <= b <= |s|
    ensures LowerAll(s)[a..b] == LowerAll(s[a..b])
  {
  }

  lemma LabelLower(s: string)
    ensures IsLabel(LowerAll(s)) <==> IsLabel(s)
  {
    var l := LowerAll(s);
    assert forall k :: 0 <= k < |s| ==> (IsAlnum(l[k]) <==> IsAlnum(s[k])) && (l[k] == '-' <==> s[k] == '-');
  }

  lemma {:induction false} LabelsLower(s: string)
    ensures IsLabels(LowerAll(s)) <==> IsLabels(s)
    decreases |s|, 1
  {
    forall i | 0 < i < |s|
      ensures LabelsAt(LowerAll(s), i) <==> LabelsAt(s, i)
    {
      LabelsAtLower(s, i);
    }
  }

  lemma {:induction false} LabelsAtLower(s: string, i: int)
    requires 0 < i < |s|
    ensures LabelsAt(LowerAll(s), i) <==> LabelsAt(s, i)
    decreases |s|, 0
  {
    var l := LowerAll(s);
    LowerAllSlice(s, 0, i);
    LabelLower(s[..i]);
    assert l[..i] == LowerAll(s[..i]);
    if i + 1 < |s| {
      LowerAllSlice(s, i + 1, |s|);
      assert l[i + 1..] == LowerAll(s[i + 1..]);
      LabelsLower(s[i + 1..]);
    }
    assert l[i] == '.' <==> s[i] == '.';
  }

  lemma TldLower(s: string)
    ensures IsTld(LowerAll(s)) <==> IsTld(s)
  {
    var l := LowerAll(s);
    assert forall k :: 0 <= k < |s| ==> (IsLetter(l[k]) <==> IsLetter(s[k]));
  }

  lemma DomainAtLower(h: string, i: int)
    requires 0 < i < |h|
    ensures DomainAt(LowerAll(h), i) <==> DomainAt(h, i)
  {
    var l := LowerAll(h);
    LowerAllSlice(h, 0, i);
    LowerAllSlice(h, i, |h|);
    LowerAllSlice(h, i, |h| - 1);
    LabelsLower(h[..i]);
    TldLower(h[i..]);
    TldLower(h[i..|h| - 1]);
    assert l[|h| - 1] == '.' <==> h[|h| - 1] == '.';
  }

  lemma DomainLower(h: string)
    ensures IsDomain(LowerAll(h)) <==> IsDomain(h)
  {
    forall i | 0 < i < |h|
      ensures DomainAt(LowerAll(h), i) <==> DomainAt(h, i)
    {
      DomainAtLower(h, i);
    }
  }

  lemma DigitGroupLower(s: string)
    ensures IsDigitGroup(LowerAll(s)) <==> IsDigitGroup(s)
  {
    var l := LowerAll(s);
    assert forall k :: 0 <= k < |s| ==> (IsDigit(l[k]) <==> IsDigit(s[k]));
  }

  lemma QuadAtLower(h: string, a: int, b: int, c: int)
    requires 0 < a < b < c < |h|
    ensures QuadAt(LowerAll(h), a, b, c) <==> QuadAt(h, a, b, c)
  {
    var l := LowerAll(h);
    LowerAllSlice(h, 0, a);
    LowerAllSlice(h, a + 1, b);
    LowerAllSlice(h, b + 1, c);
    LowerAllSlice(h, c + 1, |h|);
    DigitGroupLower(h[..a]);
    DigitGroupLower(h[a + 1..b]);
    DigitGroupLower(h[b + 1..c]);
    DigitGroupLower(h[c + 1..]);
    assert (l[a] == '.' <==> h[a] == '.') && (l[b] == '.' <==> h[b] == '.') && (l[c] == '.' <==> h[c] == '.');
  }

  lemma DottedQuadLower(h: string)
    ensures IsDottedQuad(LowerAll(h)) <==> IsDottedQuad(h)
  {
    forall a, b, c | 0 < a < b < c < |h|
      ensures QuadAt(LowerAll(h), a, b, c) <==> QuadAt(h, a, b, c)
    {
      QuadAtLower(h, a, b, c);
    }
  }

  lemma LowerAllIdempotent(s: string)
    ensures LowerAll(LowerAll(s)) == LowerAll(s)
  {
  }

  lemma HostLower(h: string)
    ensures IsHost(LowerAll(h)) <==> IsHost(h)
  {
    DomainLower(h);
    DottedQuadLower(h);
    LowerAllIdempotent(h);
  }

  lemma PortLower(p: string)
    ensures IsPort(LowerAll(p)) <==> IsPort(p)
  {
    var l := LowerAll(p);
    assert forall k :: 0 <= k < |p| ==> (IsDigit(l[k]) <==> IsDigit(p[k])) && (l[k] == ':' <==> p[k] == ':');
    assert p == "" <==> l == "";
  }

  lemma TailLower(t: string)
    ensures IsTail(LowerAll(t)) <==> IsTail(t)
  {
    var l := LowerAll(t);
    assert forall k :: 0 <= k < |t| ==>
      (IsWhitespace(l[k]) <==> IsWhitespace(t[k])) && (l[k] == '/' <==> t[k] == '/') && (l[k] == '?' <==> t[k] == '?');
    assert t == "" <==> l == "";
    assert t == "/" <==> l == "/";
  }

  lemma TailAtEndLower(t: string)
    ensures IsTailAtEnd(LowerAll(t)) <==> IsTailAtEnd(t)
  {
    TailLower(t);
    if |t| >= 1 {
      LowerAllSlice(t, 0, |t| - 1);
      TailLower(t[..|t| - 1]);
      assert LowerAll(t)[|t| - 1] == '\n' <==> t[|t| - 1] == '\n';
    }
  }

  /** The pattern is case-insensitive: changing the letter case of what
      follows the scheme never changes the verdict. */
  lemma MatchIgnoresCase(r: string)
    ensures MatchesAfterScheme(LowerAll(r)) <==> MatchesAfterScheme(r)
  {
    forall i, j | 0 <= i <= j <= |r|
      ensures SplitsAt(LowerAll(r), i, j) <==> SplitsAt(r, i, j)
    {
      SplitsAtLower(r, i, j);
    }
  }

  lemma SplitsAtLower(r: string, i: int, j: int)
    requires 0 <= i <= j <= |r|
    ensures SplitsAt(LowerAll(r), i, j) <==> SplitsAt(r, i, j)
  {
    var l := LowerAll(r);
    assert l[..i] == LowerAll(r[..i]);
    assert l[i..j] == LowerAll(r[i..j]);
    assert l[j..] == LowerAll(r[j..]);
    HostLower(r[..i]);
    PortLower(r[i..j]);
    TailAtEndLower(r[j..]);
  }

  // ---------------------------------------------------------------------
  // The embed snippet
  // ---------------------------------------------------------------------

  const SrcPrefix: string := "<iframe src=\""

  /** The attributes after the src value, from its closing quote on. */
  function AfterSrc(width: string, height: string): string {
    "\" width=\"" + width + "\" height=\"" + height + "\" frameborder=\"0\" scrolling=\"yes\"></iframe>"
  }

  /** `get_embed_code(url, width, height)`: an iframe element whose src,
      width and height attributes hold the three arguments verbatim. A URL
      without double quotes is exactly what a browser reads back as the src,
      for any width and height. */
  function GetEmbedCode(url: string, width: string, height: string): (code: string)
    ensures '"' !in url ==> SrcOf(code) == url
  {
    if '"' !in url then
      SrcOfSnippet(url, AfterSrc(width, height));
      SrcPrefix + url + AfterSrc(width, height)
    else
      SrcPrefix + url + AfterSrc(width, height)
  }

  /** The snippet with the default size, 100% wide and 600 pixels high; its
      src is the URL too when the URL has no double quote. */
  function DefaultEmbedCode(url: string): (code: string)
    ensures '"' !in url ==> SrcOf(code) == url
  {
    GetEmbedCode(url, "100%", "600px")
  }

  /** The characters of s before its first double quote. */
  function UpToQuote(s: string): (r: string)
    ensures |r| <= |s| && r == s[..|r|]
    ensures '"' !in r
  {
    if s == [] || s[0] == '"' then [] else [s[0]] + UpToQuote(s[1..])
  }

  /** What a browser reads as the iframe's src attribute: everything after
      `src="` up to the next double quote. */
  function SrcOf(code: string): string {
    if StartsWith(code, SrcPrefix) then UpToQuote(code[|SrcPrefix|..]) else ""
  }

  lemma {:induction false} UpToQuoteStops(a: string, b: string)
    requires '"' !in a && |b| > 0 && b[0] == '"'
    ensures UpToQuote(a + b) == a
  {
    if a != [] {
      assert (a + b)[1..] == a[1..] + b;
      UpToQuoteStops(a[1..], b);
    } else {
      assert a + b == b;
    }
  }

  /** The src of a snippet built from a prefix and what follows it. */
  lemma SrcOfSnippet(url: string, after: string)
    requires '"' !in url && |after| > 0 && after[0] == '"'
    ensures SrcOf(SrcPrefix + url + after) == url
  {
    var code := SrcPrefix + url + after;
    assert code == SrcPrefix + (url + after);
    assert code[..|SrcPrefix|] == SrcPrefix;
    assert code[|SrcPrefix|..] == url + after;
    UpToQuoteStops(url, after);
  }

  lemma QuoteInPathMatches()
    ensures MatchesAfterScheme("example.org/\"onload=\"x")
  {
    ExampleOrgHost();
    assert IsTailAtEnd("/\"onload=\"x");
    Compose("example.org", "", "/\"onload=\"x");
    assert "example.org" + "" + "/\"onload=\"x" == "example.org/\"onload=\"x";
  }

  /** The src of the default snippet stops at the URL's first double
      quote. */
  lemma SrcStopsAtQuote(url: string, rest: string)
    requires '"' !in url && |rest| > 0 && rest[0] == '"'
    ensures SrcOf(DefaultEmbedCode(url + rest)) == url
  {
    var after := rest + AfterSrc("100%", "600px");
    assert DefaultEmbedCode(url + rest) == SrcPrefix + url + after;
    SrcOfSnippet(url, after);
  }

  /** The check lets a double quote through in the path, and the snippet
      then ends the src attribute early: the rest of the URL becomes
      further iframe attributes. */
  lemma QuoteInPathLeavesSrc()
    ensures IsUrlSafe("http://" + "example.org/\"onload=\"x")
    ensures SrcOf(DefaultEmbedCode("http://example.org/" + "\"onload=\"x")) == "http://example.org/"
  {
    QuoteInPathMatches();
    HttpAccepts("http://" + "example.org/\"onload=\"x", "example.org/\"onload=\"x");
    SrcStopsAtQuote("http://example.org/", "\"onload=\"x");
  }
}
