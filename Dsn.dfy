/**
  The transport DSN `kafka://host:port/path`: a simplified reading of the
  generic URI syntax of section 3 of RFC 3986 (scheme, authority, path,
  query, fragment), followed by the builder's two guards.
*/
module Dsn {
  import opened Wrappers
  import opened Decimal
  import opened ConfigError

  /** The parts `parse_url` reports; a part the text lacks is None. */
  datatype Url = Url(
    scheme: string,
    host: Option<string>,
    port: Option<nat>,
    path: Option<string>,
    query: Option<string>,
    fragment: Option<string>)

  datatype DsnConfiguration = DsnConfiguration(host: string, transportName: string, securityConfig: seq<(string, string)>)

  const MaxPort: nat := 65535

  predicate IsSchemeChar(c: char) {
    'a' <= c <= 'z' || 'A' <= c <= 'Z' || IsDigit(c) || c == '+' || c == '-' || c == '.'
  }

  /** The length of the longest prefix of `s` whose characters all satisfy `p`. */
  function SpanLength(s: string, p: char -> bool): (n: nat)
    ensures n <= |s|
    ensures forall i :: 0 <= i < n ==> p(s[i])
    ensures n < |s| ==> !p(s[n])
  {
    if s == [] || !p(s[0]) then 0 else 1 + SpanLength(s[1..], p)
  }

  /** The position of the last occurrence of `c` in `s`. */
  function LastIndex(s: string, c: char): (r: Option<nat>)
    ensures r.Some? ==> r.value < |s| && s[r.value] == c && c !in s[r.value + 1..]
    ensures r.None? ==> c !in s
  {
    if s == [] then None
    else if s[|s| - 1] == c then Some(|s| - 1)
    else
      var r := LastIndex(s[..|s| - 1], c);
      assert s == s[..|s| - 1] + [s[|s| - 1]];
      r
  }

  /** Splits `host[:port]`; a port that is not a number up to 65535 makes the whole URL unparsable. */
  function SplitHostPort(hp: string): Option<(string, Option<nat>)> {
    match LastIndex(hp, ':')
    case None => Some((hp, None))
    case Some(j) =>
      var digits := hp[j + 1..];
      if digits == [] then Some((hp[..j], None))
      else
        match ParseNat(digits)
        case Some(p) => if p <= MaxPort then Some((hp[..j], Some(p))) else None
        case None => None
  }

  /** `scheme://` and what follows it. */
  function SplitScheme(s: string): (r: Option<(string, string)>)
    ensures r.Some? ==> |r.value.1| < |s|
  {
    var n := SpanLength(s, IsSchemeChar);
    if n == 0 || |s| < n + 3 || s[n..n + 3] != "://" then None
    else Some((s[..n], s[n + 3..]))
  }

  predicate EndsAuthority(c: char) { c == '/' || c == '?' || c == '#' }

  /** The authority runs up to the first `/`, `?` or `#`. */
  function SplitAuthority(rest: string): (string, string) {
    var a := SpanLength(rest, c => !EndsAuthority(c));
    (rest[..a], rest[a..])
  }

  /** The host and optional port of an authority, after any `userinfo@`. */
  function ParseAuthority(authority: string): Option<(string, Option<nat>)> {
    var hostPort := match LastIndex(authority, '@')
      case Some(at) => authority[at + 1..]
      case None => authority;
    SplitHostPort(hostPort)
  }

  /** Path, query and fragment of what follows the authority; an empty part is absent. */
  function SplitPath(tail: string): (Option<string>, Option<string>, Option<string>) {
    var p := SpanLength(tail, c => c != '?' && c != '#');
    var path := tail[..p];
    var afterPath := tail[p..];
    var q := if afterPath != [] && afterPath[0] == '?' then SpanLength(afterPath, c => c != '#') else 0;
    var query := if q > 0 then Some(afterPath[1..q]) else None;
    var afterQuery := afterPath[q..];
    var fragment := if afterQuery != [] then Some(afterQuery[1..]) else None;
    (if path == [] then None else Some(path), query, fragment)
  }

  /**
    `parse_url` on `scheme://[userinfo@]host[:port][/path][?query][#fragment]`.
    None is `parse_url` answering false, and also any text without a
    `scheme://` prefix or without a host, which the builder rejects alike.
  */
  function ParseUrl(s: string): (r: Option<Url>)
    ensures r.Some? ==> r.value.host.Some?
  {
    match SplitScheme(s)
    case None => None
    case Some((scheme, rest)) =>
      var (authority, tail) := SplitAuthority(rest);
      match ParseAuthority(authority)
      case None => None
      case Some((host, port)) =>
        if host == [] then None
        else
          var (path, query, fragment) := SplitPath(tail);
          Some(Url(scheme, Some(host), port, path, query, fragment))
  }

  /**
    `DsnConfigurationBuilder::build`: the host and port joined by a colon,
    and the path (leading slash included) as the transport name, `kafka`
    when there is none. Query parameters are not read.
  */
  function Build(dsn: string): (r: Result<DsnConfiguration, ConfigError>)
    ensures r.Ok? ==> r.value.securityConfig == [] && |r.value.transportName| > 0
    ensures r.Err? ==> r.error == InvalidDsn(dsn) || r.error == DsnSchemeNotKafka(dsn)
  {
    match ParseUrl(dsn)
    case None => Err(InvalidDsn(dsn))
    case Some(u) =>
      if u.port.None? then Err(InvalidDsn(dsn))
      else if u.scheme != "kafka" then Err(DsnSchemeNotKafka(dsn))
      else
        var name := match u.path
          case Some(p) => p
          case None => "kafka";
        Ok(DsnConfiguration(u.host.value + ":" + NatToString(u.port.value), name, []))
  }

  /** A host name as the builder expects it: no delimiter of the URI syntax inside. */
  predicate PlainHost(h: string) {
    h != [] && forall i :: 0 <= i < |h| ==> h[i] !in ":/?#@"
  }

  /** A path as the builder expects it: empty, or a slash followed by no query or fragment delimiter. */
  predicate PlainPath(p: string) {
    p == [] || (p[0] == '/' && forall i :: 0 <= i < |p| ==> p[i] !in "?#")
  }

  lemma SpanWhole(s: string, t: string, p: char -> bool)
    requires forall i :: 0 <= i < |s| ==> p(s[i])
    requires t == [] || !p(t[0])
    ensures SpanLength(s + t, p) == |s|
  {
    if s != [] {
      assert (s + t)[1..] == s[1..] + t;
      SpanWhole(s[1..], t, p);
    }
  }

  lemma SchemeOf(scheme: string, rest: string)
    requires scheme != [] && forall i :: 0 <= i < |scheme| ==> IsSchemeChar(scheme[i])
    ensures SplitScheme(scheme + "://" + rest) == Some((scheme, rest))
  {
    var s := scheme + "://" + rest;
    SpanWhole(scheme, "://" + rest, IsSchemeChar);
    assert s == scheme + ("://" + rest);
    assert s[|scheme|..|scheme| + 3] == "://";
    assert s[..|scheme|] == scheme && s[|scheme| + 3..] == rest;
  }

  lemma AuthorityOf(authority: string, tail: string)
    requires forall i :: 0 <= i < |authority| ==> !EndsAuthority(authority[i])
    requires tail == [] || EndsAuthority(tail[0])
    ensures SplitAuthority(authority + tail) == (authority, tail)
  {
    SpanWhole(authority, tail, c => !EndsAuthority(c));
    assert (authority + tail)[..|authority|] == authority;
    assert (authority + tail)[|authority|..] == tail;
  }

  /** The last occurrence is the one no later occurrence follows. */
  lemma {:induction false} LastIndexAt(s: string, c: char, j: nat)
    requires j < |s| && s[j] == c && c !in s[j + 1..]
    ensures LastIndex(s, c) == Some(j)
    decreases |s|
  {
    if j < |s| - 1 {
      assert s[|s| - 1] == s[j + 1..][|s| - 2 - j];
      var s' := s[..|s| - 1];
      assert s'[j + 1..] == s[j + 1..|s| - 1];
      LastIndexAt(s', c, j);
    }
  }

  /** The parts of a URL from the parts of its text. */
  lemma ParseUrlOf(s: string, scheme: string, rest: string, authority: string, tail: string, host: string, port: Option<nat>)
    requires SplitScheme(s) == Some((scheme, rest))
    requires SplitAuthority(rest) == (authority, tail)
    requires ParseAuthority(authority) == Some((host, port)) && host != []
    ensures ParseUrl(s) == Some(Url(scheme, Some(host), port, SplitPath(tail).0, SplitPath(tail).1, SplitPath(tail).2))
  {
  }

  lemma HostPortOf(h: string, port: nat)
    requires PlainHost(h) && port <= MaxPort
    ensures ParseAuthority(h + ":" + NatToString(port)) == Some((h, Some(port)))
  {
    var digits := NatToString(port);
    var authority := h + ":" + digits;
    assert ':' !in digits && '@' !in digits by {
      assert forall i :: 0 <= i < |digits| ==> IsDigit(digits[i]);
    }
    assert '@' !in h;
    assert '@' !in authority by {
      assert authority == h + [':'] + digits;
    }
    assert LastIndex(authority, '@') == None;
    assert authority[|h|] == ':';
    assert authority[|h| + 1..] == digits;
    LastIndexAt(authority, ':', |h|);
    assert authority[..|h|] == h;
    ParseNatToString(port);
    assert ParseNat(digits) == Some(port);
    assert SplitHostPort(authority) == Some((h, Some(port)));
  }

  lemma HostOnlyOf(h: string)
    requires PlainHost(h)
    ensures ParseAuthority(h) == Some((h, None))
  {
    assert '@' !in h && ':' !in h by {
      forall i | 0 <= i < |h| ensures h[i] != '@' && h[i] != ':' {
      }
    }
  }

  lemma NoPathOf(path: string)
    requires PlainPath(path)
    ensures SplitPath(path) == (if path == [] then None else Some(path), None, None)
  {
    SpanWhole(path, [], c => c != '?' && c != '#');
    assert path + [] == path;
    assert path[..|path|] == path;
  }

  lemma PlainAuthority(h: string, port: nat)
    requires PlainHost(h)
    ensures var authority := h + ":" + NatToString(port);
      forall i :: 0 <= i < |authority| ==> !EndsAuthority(authority[i])
  {
    var digits := NatToString(port);
    var authority := h + ":" + digits;
    forall i | 0 <= i < |authority| ensures !EndsAuthority(authority[i]) {
      if i < |h| { assert authority[i] == h[i]; }
      else if i > |h| { assert authority[i] == digits[i - |h| - 1]; }
    }
  }

  /** What the builder makes of a DSN whose scheme, authority and remainder are known. */
  lemma BuildFromParts(dsn: string, scheme: string, authority: string, tail: string, h: string, port: nat)
    requires SplitScheme(dsn) == Some((scheme, authority + tail))
    requires SplitAuthority(authority + tail) == (authority, tail)
    requires ParseAuthority(authority) == Some((h, Some(port))) && h != []
    ensures Build(dsn) ==
      if scheme != "kafka" then Err(DsnSchemeNotKafka(dsn))
      else Ok(DsnConfiguration(h + ":" + NatToString(port), SplitPath(tail).0.GetOr("kafka"), []))
  {
    ParseUrlOf(dsn, scheme, authority + tail, authority, tail, h, Some(port));
  }

  predicate PlainScheme(scheme: string) {
    scheme != [] && forall i :: 0 <= i < |scheme| ==> IsSchemeChar(scheme[i])
  }

  /** The scheme, authority and remainder of a DSN written from its parts. */
  lemma WrittenParts(scheme: string, h: string, port: nat, tail: string)
    requires PlainScheme(scheme) && PlainHost(h) && port <= MaxPort
    requires tail == [] || EndsAuthority(tail[0])
    ensures var authority := h + ":" + NatToString(port);
      SplitScheme(scheme + "://" + authority + tail) == Some((scheme, authority + tail))
      && SplitAuthority(authority + tail) == (authority, tail)
      && ParseAuthority(authority) == Some((h, Some(port)))
  {
    var authority := h + ":" + NatToString(port);
    assert scheme + "://" + authority + tail == scheme + "://" + (authority + tail);
    SchemeOf(scheme, authority + tail);
    HostPortOf(h, port);
    PlainAuthority(h, port);
    AuthorityOf(authority, tail);
  }

  /**
    Round trip: a DSN written from a host, a port and a path builds a
    configuration with exactly that host and port, and the path as the
    transport name (`kafka` when the path is empty).
  */
  lemma BuildWritten(h: string, port: nat, path: string)
    requires PlainHost(h) && port <= MaxPort && PlainPath(path)
    ensures Build("kafka://" + (h + ":" + NatToString(port)) + path)
      == Ok(DsnConfiguration(h + ":" + NatToString(port), if path == [] then "kafka" else path, []))
  {
    var authority := h + ":" + NatToString(port);
    var dsn := "kafka://" + authority + path;
    assert "kafka://" + authority + path == "kafka" + "://" + authority + path;
    WrittenParts("kafka", h, port, path);
    BuildFromParts(dsn, "kafka", authority, path, h, port);
    NoPathOf(path);
  }

  /**
    A DSN with host and port but any scheme other than exactly `kafka`
    (such as `ed+kafka`) passes the presence check and fails the scheme check.
  */
  lemma OtherSchemeRejected(scheme: string, h: string, port: nat, path: string)
    requires PlainScheme(scheme) && scheme != "kafka"
    requires PlainHost(h) && port <= MaxPort && PlainPath(path)
    ensures var dsn := scheme + "://" + (h + ":" + NatToString(port)) + path;
      Build(dsn) == Err(DsnSchemeNotKafka(dsn))
  {
    var authority := h + ":" + NatToString(port);
    WrittenParts(scheme, h, port, path);
    BuildFromParts(scheme + "://" + authority + path, scheme, authority, path, h, port);
  }

  /** The port is mandatory: a DSN without one is invalid, not given a default port. */
  lemma MissingPortRejected(h: string, path: string)
    requires PlainHost(h) && PlainPath(path)
    ensures Build("kafka://" + h + path) == Err(InvalidDsn("kafka://" + h + path))
  {
    var dsn := "kafka://" + h + path;
    assert dsn == "kafka" + "://" + (h + path);
    SchemeOf("kafka", h + path);
    assert forall i :: 0 <= i < |h| ==> !EndsAuthority(h[i]);
    AuthorityOf(h, path);
    HostOnlyOf(h);
    ParseUrlOf(dsn, "kafka", h + path, h, path, h, None);
  }
}
