/**
 * The CORS origin gate of the now-playing proxy.
 *
 * Two regular expressions decide which browser origins may read responses:
 *   domain:    ^https:\/\/([a-zA-Z0-9-]+\.)*<D>(?::\d+)?$
 *   localhost: ^http:\/\/localhost(?::\d+)?$
 * where <D> is the configured domain after `replace('.', '\\.')`, which escapes
 * only the FIRST dot of the domain. The regular expressions are modelled here as
 * languages (ghost predicates saying how a string splits into the pieces of the
 * pattern) and as executable tests, and the two are proved to agree.
 */
module OriginGate {
  import opened Wrappers

  // ---------------------------------------------------------------------------
  // Character classes
  // ---------------------------------------------------------------------------

  /** `\d` in a JavaScript regular expression without the `u` flag: ASCII digits only. */
  predicate IsDigit(c: char) { '0' <= c <= '9' }

  predicate IsLetter(c: char) { 'a' <= c <= 'z' || 'A' <= c <= 'Z' }

  /** The class `[a-zA-Z0-9-]` of a subdomain label. */
  predicate IsLabelChar(c: char) { IsLetter(c) || IsDigit(c) || c == '-' }

  /** The characters `.` does not match in a JavaScript regular expression without the `s` flag. */
  predicate IsLineTerminator(c: char) {
    c == '\n' || c == '\r' || c == '\U{2028}' || c == '\U{2029}'
  }

  predicate AllDigits(s: string) { forall i :: 0 <= i < |s| ==> IsDigit(s[i]) }

  predicate AllLabelChars(s: string) { forall i :: 0 <= i < |s| ==> IsLabelChar(s[i]) }

  /**
   * The configured domains this model covers: letters, digits, `-` and `.`, so
   * that the only regular-expression metacharacter the domain can hold is `.`.
   */
  predicate IsConfiguredDomain(domain: string) {
    forall i :: 0 <= i < |domain| ==> IsLabelChar(domain[i]) || domain[i] == '.'
  }

  // ---------------------------------------------------------------------------
  // Building the domain pattern
  // ---------------------------------------------------------------------------

  /** One single-character atom of a regular expression: a literal or `.`. */
  datatype Atom = Lit(c: char) | Wildcard

  predicate AtomMatches(a: Atom, c: char) {
    match a
    case Lit(d) => c == d
    case Wildcard => !IsLineTerminator(c)
  }

  /** The host part matches the atoms one for one. */
  predicate MatchesAtoms(pattern: seq<Atom>, host: string) {
    |pattern| == |host| && forall i :: 0 <= i < |host| ==> AtomMatches(pattern[i], host[i])
  }

  /** The index of the first `.` of `s`, if any. */
  function FirstDot(s: string): Option<nat>
  {
    if s == [] then None
    else if s[0] == '.' then Some(0)
    else
      match FirstDot(s[1..])
      case None => None
      case Some(i) => Some(i + 1)
  }

  lemma {:induction false} FirstDotSpec(s: string)
    ensures FirstDot(s).None? <==> '.' !in s
    ensures FirstDot(s).Some? ==>
      var i := FirstDot(s).value; i < |s| && s[i] == '.' && '.' !in s[..i]
  {
    if s != [] && s[0] != '.' {
      FirstDotSpec(s[1..]);
      assert forall c :: c in s <==> c == s[0] || c in s[1..];
      if FirstDot(s[1..]).Some? {
        var i := FirstDot(s[1..]).value;
        assert s[..i + 1] == [s[0]] + s[1..][..i];
      }
    }
  }

  /**
   * JavaScript's `s.replace('.', '\\.')`: with a string (not a regular
   * expression) as pattern, only the first occurrence is replaced.
   */
  function ReplaceFirstDot(s: string): string
  {
    if s == [] then []
    else if s[0] == '.' then "\\." + s[1..]
    else [s[0]] + ReplaceFirstDot(s[1..])
  }

  /** Without a dot the text is unchanged; otherwise the first dot, and only it, becomes `\.`. */
  lemma {:induction false} ReplaceFirstDotSpec(s: string)
    ensures FirstDot(s).None? ==> ReplaceFirstDot(s) == s
    ensures FirstDot(s).Some? ==>
      var i := FirstDot(s).value; i < |s| && ReplaceFirstDot(s) == s[..i] + "\\." + s[i + 1..]
  {
    if s != [] && s[0] != '.' {
      ReplaceFirstDotSpec(s[1..]);
      FirstDotSpec(s[1..]);
      if FirstDot(s[1..]).Some? {
        var i := FirstDot(s[1..]).value;
        assert s[..i + 1] == [s[0]] + s[1..][..i];
        assert s[i + 2..] == s[1..][i + 1..];
      }
    }
  }

  /**
   * Reads the text of a regular expression made of literal characters, `.`
   * and the escape `\.`, as a sequence of atoms.
   */
  function ParseAtoms(src: string): seq<Atom>
  {
    if src == [] then []
    else if src[0] == '\\' && |src| >= 2 && src[1] == '.' then [Lit('.')] + ParseAtoms(src[2..])
    else if src[0] == '.' then [Wildcard] + ParseAtoms(src[1..])
    else [Lit(src[0])] + ParseAtoms(src[1..])
  }

  lemma {:induction false} ParseAtomsAppend(a: string, b: string)
    requires '\\' !in a
    ensures ParseAtoms(a + b) == ParseAtoms(a) + ParseAtoms(b)
  {
    if a != [] {
      assert (a + b)[0] == a[0] && a[0] != '\\';
      assert (a + b)[1..] == a[1..] + b;
      assert forall c :: c in a[1..] ==> c in a;
      ParseAtomsAppend(a[1..], b);
      var atom := if a[0] == '.' then Wildcard else Lit(a[0]);
      assert ParseAtoms(a) == [atom] + ParseAtoms(a[1..]);
      assert ParseAtoms(a + b) == [atom] + ParseAtoms(a[1..] + b);
    } else {
      assert a + b == b;
    }
  }

  /** Every character of a backslash-free text is read as itself, with `.` as a wildcard. */
  lemma {:induction false} ParseAtomsPlain(s: string)
    requires '\\' !in s
    ensures |ParseAtoms(s)| == |s|
    ensures forall i :: 0 <= i < |s| ==>
      ParseAtoms(s)[i] == if s[i] == '.' then Wildcard else Lit(s[i])
  {
    if s != [] {
      assert s[0] in s;
      assert forall c :: c in s[1..] ==> c in s;
      ParseAtomsPlain(s[1..]);
    }
  }

  /** The atoms of the domain part of the domain regular expression. */
  function DomainPattern(domain: string): seq<Atom>
  {
    ParseAtoms(ReplaceFirstDot(domain))
  }

  /** No configured domain holds a backslash, the only escape character. */
  lemma ConfiguredDomainHasNoBackslash(domain: string)
    requires IsConfiguredDomain(domain)
    ensures '\\' !in domain
  {
  }

  /** Around the first dot, the pattern is the plain text, an escaped dot, and the plain text. */
  lemma DomainPatternAroundFirstDot(domain: string, k: nat)
    requires '\\' !in domain
    requires FirstDot(domain) == Some(k) && k < |domain|
    ensures DomainPattern(domain) == ParseAtoms(domain[..k]) + ([Lit('.')] + ParseAtoms(domain[k + 1..]))
  {
    var head, tail := domain[..k], domain[k + 1..];
    NoBackslashInPrefix(domain, k);
    ReplacedAtFirstDot(domain, k);
    ParseAtomsAppend(head, "\\." + tail);
    ParseEscapedDot(tail);
  }

  lemma NoBackslashInPrefix(s: string, k: nat)
    requires '\\' !in s && k <= |s|
    ensures '\\' !in s[..k]
  {
    assert forall c :: c in s[..k] ==> c in s;
  }

  lemma ReplacedAtFirstDot(domain: string, k: nat)
    requires FirstDot(domain) == Some(k) && k < |domain|
    ensures ReplaceFirstDot(domain) == domain[..k] + ("\\." + domain[k + 1..])
  {
    ReplaceFirstDotSpec(domain);
    assert domain[..k] + "\\." + domain[k + 1..] == domain[..k] + ("\\." + domain[k + 1..]);
  }

  lemma ParseEscapedDot(tail: string)
    ensures ParseAtoms("\\." + tail) == [Lit('.')] + ParseAtoms(tail)
  {
    var rest := "\\." + tail;
    assert rest[0] == '\\' && rest[1] == '.' && rest[2..] == tail;
  }

  /**
   * What escaping only the first dot means: every non-dot character and the
   * first dot match themselves literally; every later dot matches any
   * character except a line terminator.
   */
  lemma DomainPatternAtoms(domain: string)
    requires IsConfiguredDomain(domain)
    ensures |DomainPattern(domain)| == |domain|
    ensures forall i :: 0 <= i < |domain| ==>
      DomainPattern(domain)[i] ==
        if domain[i] == '.' && '.' in domain[..i] then Wildcard else Lit(domain[i])
  {
    ConfiguredDomainHasNoBackslash(domain);
    FirstDotSpec(domain);
    ReplaceFirstDotSpec(domain);
    match FirstDot(domain)
    case None =>
      ParseAtomsPlain(domain);
      forall i | 0 <= i < |domain|
        ensures '.' !in domain[..i]
      {
        assert forall c :: c in domain[..i] ==> c in domain;
      }
    case Some(k) =>
      assert k < |domain|;
      var head, tail := domain[..k], domain[k + 1..];
      assert forall c :: c in head ==> c in domain;
      assert forall c :: c in tail ==> c in domain;
      DomainPatternAroundFirstDot(domain, k);
      ParseAtomsPlain(head);
      ParseAtomsPlain(tail);
      var p := DomainPattern(domain);
      forall i | 0 <= i < |domain|
        ensures p[i] == if domain[i] == '.' && '.' in domain[..i] then Wildcard else Lit(domain[i])
      {
        if i < k {
          assert domain[..i] == head[..i];
          assert forall c :: c in head[..i] ==> c in head;
          assert p[i] == ParseAtoms(head)[i];
        } else if i > k {
          assert domain[..i][k] == '.';
          assert domain[i] == tail[i - k - 1];
          assert p[i] == ParseAtoms(tail)[i - k - 1];
        }
      }
  }

  /**
   * A domain with at most one dot is matched literally: its host part must be
   * exactly the domain.
   */
  lemma SingleDotDomainIsLiteral(domain: string, host: string)
    requires IsConfiguredDomain(domain)
    requires forall i, j :: 0 <= i < j < |domain| && domain[i] == '.' ==> domain[j] != '.'
    ensures |DomainPattern(domain)| == |domain|
    ensures MatchesAtoms(DomainPattern(domain), host) <==> host == domain
  {
    DomainPatternAtoms(domain);
    var p := DomainPattern(domain);
    forall i | 0 <= i < |domain|
      ensures p[i] == Lit(domain[i])
    {
      if domain[i] == '.' {
        assert forall j :: 0 <= j < i ==> domain[..i][j] != '.';
      }
    }
    if MatchesAtoms(p, host) {
      assert forall i :: 0 <= i < |host| ==> host[i] == domain[i];
    }
  }

  // ---------------------------------------------------------------------------
  // Subdomain labels `([a-zA-Z0-9-]+\.)*`
  // ---------------------------------------------------------------------------

  /** Labels followed each by a dot: `l1.l2.` ... */
  function Dotted(labels: seq<string>): string
  {
    if labels == [] then [] else labels[0] + "." + Dotted(labels[1..])
  }

  predicate ValidLabels(labels: seq<string>) {
    forall i :: 0 <= i < |labels| ==> labels[i] != [] && AllLabelChars(labels[i])
  }

  /** The language of `([a-zA-Z0-9-]+\.)*`. */
  ghost predicate InLabelsLanguage(s: string) {
    exists labels :: ValidLabels(labels) && Dotted(labels) == s
  }

  /** The length of the longest prefix of `s` made of label characters. */
  function LabelRun(s: string): (n: nat)
    ensures n <= |s|
    ensures AllLabelChars(s[..n])
    ensures n < |s| ==> !IsLabelChar(s[n])
  {
    if s == [] || !IsLabelChar(s[0]) then 0
    else
      var n := 1 + LabelRun(s[1..]);
      assert s[..n] == [s[0]] + s[1..][..n - 1];
      n
  }

  /**
   * Executable test for `([a-zA-Z0-9-]+\.)*` matching all of `s`. Labels hold
   * no dot, so each label is the longest run of label characters.
   */
  predicate MatchesLabels(s: string)
    decreases |s|
  {
    s == [] || (var n := LabelRun(s); 0 < n < |s| && s[n] == '.' && MatchesLabels(s[n + 1..]))
  }

  lemma {:induction false} LabelRunOfLabel(first: string, rest: string)
    requires AllLabelChars(first)
    ensures LabelRun(first + "." + rest) == |first|
  {
    if first != [] {
      assert (first + "." + rest)[1..] == first[1..] + "." + rest;
      LabelRunOfLabel(first[1..], rest);
    }
  }

  /** The executable label test accepts exactly the language of the label group. */
  lemma MatchesLabelsCorrect(s: string)
    ensures MatchesLabels(s) <==> InLabelsLanguage(s)
  {
    if MatchesLabels(s) {
      var labels := MatchesLabelsSound(s);
    }
    if InLabelsLanguage(s) {
      var labels :| ValidLabels(labels) && Dotted(labels) == s;
      MatchesLabelsComplete(labels);
    }
  }

  /** A string the scanner accepts is the dotted concatenation of the labels it finds. */
  lemma {:induction false} MatchesLabelsSound(s: string) returns (labels: seq<string>)
    requires MatchesLabels(s)
    ensures ValidLabels(labels) && Dotted(labels) == s
    decreases |s|
  {
    if s == [] {
      labels := [];
    } else {
      var n := LabelRun(s);
      var rest := MatchesLabelsSound(s[n + 1..]);
      labels := [s[..n]] + rest;
      assert labels[1..] == rest;
      assert s == s[..n] + "." + s[n + 1..];
    }
  }

  /** The scanner accepts every dotted concatenation of labels. */
  lemma {:induction false} MatchesLabelsComplete(labels: seq<string>)
    requires ValidLabels(labels)
    ensures MatchesLabels(Dotted(labels))
  {
    if labels != [] {
      var rest := Dotted(labels[1..]);
      LabelRunOfLabel(labels[0], rest);
      assert Dotted(labels)[|labels[0]| + 1..] == rest;
      assert ValidLabels(labels[1..]);
      MatchesLabelsComplete(labels[1..]);
    }
  }

  /** A non-empty run of labels ends with the dot of its last label. */
  lemma {:induction false} MatchesLabelsEndsInDot(s: string)
    requires MatchesLabels(s) && s != []
    ensures s[|s| - 1] == '.'
    decreases |s|
  {
    var n := LabelRun(s);
    if s[n + 1..] != [] {
      MatchesLabelsEndsInDot(s[n + 1..]);
    }
  }

  // ---------------------------------------------------------------------------
  // The optional port `(?::\d+)?`
  // ---------------------------------------------------------------------------

  /** The language of `(?::\d+)?`: nothing, or a colon followed by one or more digits. */
  predicate OptionalPort(s: string) {
    s == [] || (|s| >= 2 && s[0] == ':' && AllDigits(s[1..]))
  }

  // ---------------------------------------------------------------------------
  // The two regular expressions
  // ---------------------------------------------------------------------------

  /** The language of `^https:\/\/([a-zA-Z0-9-]+\.)*<pattern>(?::\d+)?$`. */
  ghost predicate InDomainLanguage(pattern: seq<Atom>, s: string) {
    exists labels: string, host: string, port: string
      {:trigger InLabelsLanguage(labels), MatchesAtoms(pattern, host), OptionalPort(port)} ::
      s == "https://" + labels + host + port
      && InLabelsLanguage(labels) && MatchesAtoms(pattern, host) && OptionalPort(port)
  }

  /** The language of `^http:\/\/localhost(?::\d+)?$`. */
  ghost predicate InLocalhostLanguage(s: string) {
    exists port :: OptionalPort(port) && s == "http://localhost" + port
  }

  /**
   * The host part of `s` starts at index `k`: `https://`, then labels, then
   * a host as long as the pattern and matching it, then an optional port.
   */
  predicate DomainSplitAt(p: seq<Atom>, s: string, k: int) {
    8 <= k <= |s| - |p| && s[..8] == "https://" &&
    MatchesLabels(s[8..k]) && MatchesAtoms(p, s[k..k + |p|]) && OptionalPort(s[k + |p|..])
  }

  /**
   * `domainRegex.test(s)`: tries every start position of the host part after
   * `https://`; the host is as long as the pattern.
   */
  function DomainRegexTest(domain: string, s: string): (r: bool)
    requires IsConfiguredDomain(domain)
    ensures r <==> InDomainLanguage(DomainPattern(domain), s)
  {
    var p := DomainPattern(domain);
    DomainSplitCorrect(p, s);
    exists k :: 8 <= k <= |s| - |p| && DomainSplitAt(p, s, k)
  }

  lemma DomainSplitCorrect(p: seq<Atom>, s: string)
    ensures (exists k :: 8 <= k <= |s| - |p| && DomainSplitAt(p, s, k)) <==> InDomainLanguage(p, s)
  {
    if exists k :: 8 <= k <= |s| - |p| && DomainSplitAt(p, s, k) {
      var k :| 8 <= k <= |s| - |p| && DomainSplitAt(p, s, k);
      DomainSplitSound(p, s, k);
    }
    if InDomainLanguage(p, s) {
      DomainSplitComplete(p, s);
    }
  }

  lemma DomainSplitSound(p: seq<Atom>, s: string, k: int)
    requires DomainSplitAt(p, s, k)
    ensures InDomainLanguage(p, s)
  {
    var labels, host, port := s[8..k], s[k..k + |p|], s[k + |p|..];
    MatchesLabelsCorrect(labels);
    assert s == "https://" + labels + host + port;
  }

  lemma DomainSplitComplete(p: seq<Atom>, s: string)
    requires InDomainLanguage(p, s)
    ensures exists k :: 8 <= k <= |s| - |p| && DomainSplitAt(p, s, k)
  {
    var labels: string, host: string, port: string :|
      s == "https://" + labels + host + port
      && InLabelsLanguage(labels) && MatchesAtoms(p, host) && OptionalPort(port);
    var k := 8 + |labels|;
    assert s[..8] == "https://";
    assert s[8..k] == labels;
    assert s[k..k + |p|] == host;
    assert s[k + |p|..] == port;
    MatchesLabelsCorrect(labels);
    assert DomainSplitAt(p, s, k);
  }

  /** `localhostRegex.test(s)`. */
  function LocalhostRegexTest(s: string): (r: bool)
    ensures r <==> InLocalhostLanguage(s)
  {
    var r := |s| >= 16 && s[..16] == "http://localhost" && OptionalPort(s[16..]);
    assert r ==> s == "http://localhost" + s[16..];
    assert InLocalhostLanguage(s) ==> r by {
      if InLocalhostLanguage(s) {
        var port :| OptionalPort(port) && s == "http://localhost" + port;
        assert s[16..] == port;
      }
    }
    r
  }

  // ---------------------------------------------------------------------------
  // The gate
  // ---------------------------------------------------------------------------

  /**
   * The `origin` callback given to the CORS middleware: an absent or empty
   * `Origin` header is allowed (`!origin`), as is one in the language of either
   * regular expression; anything else is answered with `callback(null, false)`.
   */
  function Allowed(domain: string, origin: Option<string>): (allowed: bool)
    requires IsConfiguredDomain(domain)
    ensures allowed <==>
      match origin
      case None => true
      case Some(o) =>
        o == [] || InDomainLanguage(DomainPattern(domain), o) || InLocalhostLanguage(o)
  {
    match origin
    case None => true
    case Some(o) => o == [] || DomainRegexTest(domain, o) || LocalhostRegexTest(o)
  }

  // ---------------------------------------------------------------------------
  // Worked origins
  // ---------------------------------------------------------------------------

  /**
   * The localhost pattern wants exactly `http://localhost`, optionally with a
   * colon and at least one digit: another scheme, a bare colon or a longer host
   * is refused.
   */
  lemma LocalhostOrigins()
    ensures InLocalhostLanguage("http://localhost")
    ensures InLocalhostLanguage("http://localhost:5173")
    ensures !InLocalhostLanguage("https://localhost")
    ensures !InLocalhostLanguage("http://localhost:")
    ensures !InLocalhostLanguage("http://localhost.evil.com")
  {
    assert LocalhostRegexTest("http://localhost");
    assert "http://localhost:5173"[16..] == ":5173";
    assert LocalhostRegexTest("http://localhost:5173");
    assert "https://localhost"[4] != "http://localhost"[4];
    assert !LocalhostRegexTest("https://localhost");
    assert !LocalhostRegexTest("http://localhost:");
    assert "http://localhost.evil.com"[16] == '.';
    assert !LocalhostRegexTest("http://localhost.evil.com");
  }

  /** An origin built from the pieces of the domain pattern is allowed. */
  lemma AllowedFromPieces(domain: string, s: string, labels: string, host: string, port: string)
    requires IsConfiguredDomain(domain)
    requires MatchesLabels(labels) && MatchesAtoms(DomainPattern(domain), host) && OptionalPort(port)
    requires s == "https://" + labels + host + port
    ensures Allowed(domain, Some(s))
  {
    MatchesLabelsCorrect(labels);
    assert InDomainLanguage(DomainPattern(domain), s);
  }

  /** A non-empty origin is refused when the host part can start nowhere and it is not localhost. */
  lemma DeniedWithoutSplit(domain: string, s: string)
    requires IsConfiguredDomain(domain)
    requires s != [] && !LocalhostRegexTest(s)
    requires forall k :: 8 <= k <= |s| - |DomainPattern(domain)| ==> !DomainSplitAt(DomainPattern(domain), s, k)
    ensures !Allowed(domain, Some(s))
  {
    DomainSplitCorrect(DomainPattern(domain), s);
  }

  // The worked origins below fix their domain through a parameter `d` and a
  // `requires d == ...`, not a literal in the `ensures`: a literal domain gets
  // unfolded through every function applied to it, which runs the solver out of
  // resource. Each lemma still speaks of that one domain only.

  /** With the domain `example.com`, a subdomain and a port are allowed. */
  lemma ExampleComAllows(d: string)
    requires d == "example.com"
    ensures IsConfiguredDomain(d)
    ensures Allowed(d, Some("https://blog.example.com"))
    ensures Allowed(d, Some("https://example.com:8443"))
  {
    SingleDotDomainIsLiteral(d, d);
    assert MatchesLabels("blog.") by {
      LabelRunOfLabel("blog", []);
      assert "blog" + "." + [] == "blog." && "blog."[5..] == [];
    }
    assert "https://blog.example.com" == "https://" + "blog." + d + "";
    assert "https://example.com:8443" == "https://" + "" + d + ":8443";
    assert OptionalPort(":8443");
    AllowedFromPieces(d, "https://blog.example.com", "blog.", d, "");
    AllowedFromPieces(d, "https://example.com:8443", "", d, ":8443");
  }

  lemma EvilExampleHasNoSplit(d: string, s: string)
    requires d == "example.com" && s == "https://evilexample.com"
    ensures IsConfiguredDomain(d)
    ensures forall k :: 8 <= k <= |s| - |DomainPattern(d)| ==> !DomainSplitAt(DomainPattern(d), s, k)
  {
    var p := DomainPattern(d);
    SingleDotDomainIsLiteral(d, d);
    forall k | 8 <= k <= |s| - |p|
      ensures !DomainSplitAt(p, s, k)
    {
      if k == 8 {
        SingleDotDomainIsLiteral(d, s[8..19]);
        assert s[8..19][1] != d[1];
      } else {
        assert s[8] != '.' && s[9] != '.' && s[10] != '.' && s[11] != '.';
        assert s[8..k][k - 9] == s[k - 1] != '.';
        if MatchesLabels(s[8..k]) {
          MatchesLabelsEndsInDot(s[8..k]);
        }
      }
    }
  }

  lemma ExampleXcomHasNoSplit(d: string, s: string)
    requires d == "example.com" && s == "https://exampleXcom"
    ensures IsConfiguredDomain(d)
    ensures forall k :: 8 <= k <= |s| - |DomainPattern(d)| ==> !DomainSplitAt(DomainPattern(d), s, k)
  {
    var p := DomainPattern(d);
    SingleDotDomainIsLiteral(d, d);
    forall k | 8 <= k <= |s| - |p|
      ensures !DomainSplitAt(p, s, k)
    {
      SingleDotDomainIsLiteral(d, s[8..19]);
      assert s[8..19][7] != d[7];
    }
  }

  /**
   * With the domain `example.com`, a prefix glued to the domain without a dot
   * is refused, and the one dot of the domain matches only a dot.
   */
  lemma ExampleComDenies(d: string)
    requires d == "example.com"
    ensures IsConfiguredDomain(d)
    ensures !Allowed(d, Some("https://evilexample.com"))
    ensures !Allowed(d, Some("https://exampleXcom"))
  {
    EvilExampleHasNoSplit(d, "https://evilexample.com");
    assert !LocalhostRegexTest("https://evilexample.com") by {
      assert "https://evilexample.com"[4] != "http://localhost"[4];
    }
    DeniedWithoutSplit(d, "https://evilexample.com");
    ExampleXcomHasNoSplit(d, "https://exampleXcom");
    assert !LocalhostRegexTest("https://exampleXcom") by {
      assert "https://exampleXcom"[4] != "http://localhost"[4];
    }
    DeniedWithoutSplit(d, "https://exampleXcom");
  }

  lemma MyExampleHost(d: string, host: string)
    requires d == "my.example.com" && host == "my.exampleXcom"
    ensures IsConfiguredDomain(d)
    ensures MatchesAtoms(DomainPattern(d), host)
  {
    var p := DomainPattern(d);
    DomainPatternAtoms(d);
    assert d[..10][2] == '.';
    assert '.' !in d[..2];
    forall i | 0 <= i < |host|
      ensures AtomMatches(p[i], host[i])
    {
      if i != 10 {
        assert host[i] == d[i];
      }
    }
  }

  /**
   * Only the first dot is escaped: with the domain `my.example.com`, the second
   * dot matches any character, so `https://my.exampleXcom` is allowed.
   */
  lemma LaterDotsMatchAnyCharacter(d: string)
    requires d == "my.example.com"
    ensures IsConfiguredDomain(d)
    ensures Allowed(d, Some("https://my.exampleXcom"))
  {
    MyExampleHost(d, "my.exampleXcom");
    assert "https://my.exampleXcom" == "https://" + "" + "my.exampleXcom" + "" by {}
    AllowedFromPieces(d, "https://my.exampleXcom", "", "my.exampleXcom", "");
  }
}
