/** `normalizeRemoteURL` of cmd/warmblyctl/remote_client.go: the origin a credential is
    bound to. URLs arrive as Go's parser leaves them; hosts are those it prints unescaped. */
module RemoteUrl {
  import opened Wrappers

  predicate Digit(c: char) {
    '0' <= c <= '9'
  }

  predicate AllDigits(s: string) {
    forall i | 0 <= i < |s| :: Digit(s[i])
  }

  predicate PlainHost(h: string) {
    forall i | 0 <= i < |h| :: h[i] !in "[]/?#@%"
  }

  /** The parser has lowered the scheme and taken the brackets off the host. */
  datatype Url = Url(scheme: string, host: string, port: string, path: string,
                     user: bool, query: bool, fragment: bool, isOpaque: bool, rawPath: bool)

  predicate Parsed(u: Url) {
    PlainHost(u.host) && AllDigits(u.port)
  }

  function LowerChar(c: char): char {
    if 'A' <= c <= 'Z' then c - 'A' + 'a' else c
  }

  function Lower(h: string): string {
    seq(|h|, i requires 0 <= i < |h| => LowerChar(h[i]))
  }

  function DigitValue(c: char): int {
    c as int - '0' as int
  }

  function Value(p: string): int {
    if p == "" then 0 else 10 * Value(p[..|p| - 1]) + DigitValue(p[|p| - 1])
  }

  /** "443" for HTTPS, "80" for HTTP. */
  function Default(scheme: string): string {
    if scheme == "https" then "443" else "80"
  }

  /** The port as it stays in the origin. */
  function Kept(u: Url): string {
    if u.port == Default(u.scheme) then "" else u.port
  }

  predicate Accepts(u: Url, loopback: string -> bool) {
    && Parsed(u) && u.host != "" && !u.user && !u.query && !u.fragment && !u.isOpaque && !u.rawPath
    && u.path in {"", "/"}
    && (u.scheme == "https" || (u.scheme == "http" && (Lower(u.host) == "localhost" || loopback(Lower(u.host)))))
    && (u.port != "" ==> 1 <= Value(u.port) <= 65535)
  }

  function Bracketed(host: string): string {
    if ':' in host then "[" + host + "]" else host
  }

  function HostPort(host: string, port: string): string {
    Bracketed(host) + (if port == "" then "" else ":" + port)
  }

  function Origin(u: Url): string {
    u.scheme + "://" + HostPort(Lower(u.host), Kept(u))
  }

  predicate Local(u: Url, loopback: string -> bool) {
    Lower(u.host) == "localhost" || loopback(Lower(u.host))
  }

  /** Credentials travel over HTTPS, or stay on this host; and the URL is a bare origin. */
  lemma AcceptedIsSecure(u: Url, loopback: string -> bool)
    requires Accepts(u, loopback)
    ensures u.scheme == "https" || (u.scheme == "http" && Local(u, loopback))
    ensures !u.user && !u.query && !u.fragment && !u.isOpaque && (u.path == "" || u.path == "/") && u.host != ""
    ensures u.port != "" ==> 1 <= Value(u.port) <= 65535
  {
  }

  /** And every bare HTTPS origin is accepted. */
  lemma BareHttpsIsAccepted(host: string, port: string, loopback: string -> bool)
    requires host != "" && PlainHost(host) && AllDigits(port) && (port != "" ==> 1 <= Value(port) <= 65535)
    ensures Accepts(Url("https", host, port, "", false, false, false, false, false), loopback)
  {
  }

  method Normalize(u: Url, loopback: string -> bool) returns (r: Option<string>)
    requires Parsed(u)
    ensures r == if Accepts(u, loopback) then Some(Origin(u)) else None
    ensures r.Some? ==> "https://" <= r.value || ("http://" <= r.value && Local(u, loopback))
  {
    if u.host == "" || u.user || u.query || u.fragment || u.isOpaque || (u.path != "" && u.path != "/") || u.rawPath {
      return None;
    }
    var host := Lower(u.host);
    if u.scheme != "https" && !(u.scheme == "http" && (host == "localhost" || loopback(host))) {
      return None;
    }
    var port := u.port;
    if port != "" {
      var n := Value(port);
      if n < 1 || n > 65535 {
        return None;
      }
      if (u.scheme == "https" && port == "443") || (u.scheme == "http" && port == "80") {
        port := "";
      }
    }
    var out := Bracketed(host);
    assert HostPort(host, "") == out;
    if port != "" {
      Joined(host, port);
      out := JoinHostPort(host, port);
    }
    return Some(u.scheme + "://" + out);
  }

  /** Go's net.JoinHostPort. */
  function JoinHostPort(host: string, port: string): string {
    if ':' in host then "[" + host + "]:" + port else host + ":" + port
  }

  lemma Joined(host: string, port: string)
    requires port != ""
    ensures JoinHostPort(host, port) == HostPort(host, port)
  {
    assert "[" + host + "]" + ":" + port == "[" + host + ("]:" + port);
    assert JoinHostPort(host, port) == Bracketed(host) + ":" + port;
  }

  // ---------- reading an origin back ----------

  function LastColon(s: string): (n: int)
    ensures -1 <= n < |s| && (n >= 0 ==> s[n] == ':')
  {
    if s == "" then -1
    else if s[|s| - 1] == ':' then |s| - 1
    else LastColon(s[..|s| - 1])
  }

  lemma {:induction false} NoColonAfter(s: string, port: string)
    requires AllDigits(port)
    ensures LastColon(s + port) == LastColon(s)
  {
    if port == "" {
      assert s + port == s;
    } else {
      assert (s + port)[..|s + port| - 1] == s + port[..|port| - 1];
      NoColonAfter(s, port[..|port| - 1]);
    }
  }

  /** How Go's parser takes host and port apart: a port is digits after the last colon. */
  function SplitHostPort(s: string): (string, string) {
    var colon := LastColon(s);
    if colon >= 0 && AllDigits(s[colon + 1..]) then (Unbracket(s[..colon]), s[colon + 1..])
    else (Unbracket(s), "")
  }

  function Unbracket(s: string): string {
    if |s| >= 2 && s[0] == '[' && s[|s| - 1] == ']' then s[1..|s| - 1] else s
  }

  lemma Unbracketed(host: string)
    requires host != "" && PlainHost(host)
    ensures Unbracket(Bracketed(host)) == host
  {
    assert host[0] != '[';
    if ':' in host {
      assert Bracketed(host)[1..|host| + 1] == host;
    }
  }

  lemma {:induction false} NoColon(s: string)
    requires ':' !in s
    ensures LastColon(s) == -1
  {
    if s == "" {
    } else {
      assert s[|s| - 1] in s && ':' !in s[..|s| - 1];
      NoColon(s[..|s| - 1]);
    }
  }

  lemma SplitsPort(h: string, port: string)
    requires AllDigits(port)
    ensures SplitHostPort(h + ":" + port) == (Unbracket(h), port)
  {
    var s := h + ":";
    NoColonAfter(s, port);
    assert (s + port)[..|h|] == h && (s + port)[|h| + 1..] == port;
  }

  /** What follows a last colon ends as the text ends, so not in a digit. */
  lemma NoPortBefore(s: string, end: char)
    requires !Digit(end) && end != ':'
    ensures SplitHostPort(s + [end]) == (Unbracket(s + [end]), "")
  {
    var t := s + [end];
    var tail := t[LastColon(t) + 1..];
    assert LastColon(t) != |s|;
    assert tail[|tail| - 1] == end;
  }

  lemma SplitsNoPort(host: string)
    requires host != "" && PlainHost(host)
    ensures SplitHostPort(Bracketed(host)) == (Unbracket(Bracketed(host)), "")
  {
    if ':' in host {
      NoPortBefore("[" + host, ']');
    } else {
      NoColon(host);
    }
  }

  lemma SplitsBack(host: string, port: string)
    requires host != "" && PlainHost(host) && AllDigits(port)
    ensures SplitHostPort(HostPort(host, port)) == (host, port)
  {
    Unbracketed(host);
    if port == "" {
      SplitsNoPort(host);
      assert HostPort(host, port) == Bracketed(host);
    } else {
      SplitsPort(Bracketed(host), port);
      assert HostPort(host, port) == Bracketed(host) + ":" + port;
    }
  }

  /** What the parser makes of an origin. */
  function Reparsed(u: Url): Url {
    Url(u.scheme, Lower(u.host), Kept(u), "", false, false, false, false, false)
  }

  lemma LowerIsPlain(h: string)
    requires PlainHost(h)
    ensures PlainHost(Lower(h)) && Lower(Lower(h)) == Lower(h)
  {
  }

  /** Parsing an origin finds its host and port again, and normalising it changes nothing. */
  lemma NormalizingTwice(u: Url, loopback: string -> bool)
    requires Accepts(u, loopback)
    ensures Accepts(Reparsed(u), loopback) && Origin(Reparsed(u)) == Origin(u)
    ensures SplitHostPort(Origin(u)[|u.scheme| + 3..]) == (Reparsed(u).host, Reparsed(u).port)
  {
    LowerIsPlain(u.host);
    SplitsBack(Lower(u.host), Kept(u));
    assert Origin(u)[|u.scheme| + 3..] == HostPort(Lower(u.host), Kept(u));
  }

  /** The scheme ends at the fifth or sixth character. */
  lemma SchemeReadsBack(u: Url, v: Url)
    requires u.scheme in {"http", "https"} && v.scheme in {"http", "https"} && Origin(u) == Origin(v)
    ensures u.scheme == v.scheme
  {
    assert Origin(u)[4] == if u.scheme == "https" then 's' else ':';
    assert Origin(v)[4] == if v.scheme == "https" then 's' else ':';
  }

  /** Two URLs name one origin exactly when scheme, host in any case, and kept port agree. */
  lemma SameOrigin(u: Url, v: Url, loopback: string -> bool)
    requires Accepts(u, loopback) && Accepts(v, loopback)
    ensures Origin(u) == Origin(v) <==> u.scheme == v.scheme && Lower(u.host) == Lower(v.host) && Kept(u) == Kept(v)
  {
    if Origin(u) == Origin(v) {
      SchemeReadsBack(u, v);
      NormalizingTwice(u, loopback);
      NormalizingTwice(v, loopback);
    }
  }

  // ---------- ports ----------

  function Decimal(n: int): string
    decreases n
  {
    if n < 10 then [DigitChar(n)] else Decimal(n / 10) + [DigitChar(n % 10)]
  }

  function DigitChar(n: int): char {
    if 0 <= n < 10 then '0' + n as char else '0'
  }

  function Number(u: Url): int {
    if u.port == "" then Value(Default(u.scheme)) else Value(u.port)
  }

  /** The port the place is spelled with. */
  function CanonicalPort(u: Url): string {
    if Number(u) == Value(Default(u.scheme)) then "" else Decimal(Number(u))
  }

  /** The one spelling of the place a URL reaches. */
  function Canonical(u: Url): string {
    u.scheme + "://" + HostPort(Lower(u.host), CanonicalPort(u))
  }

  predicate LeadingZero(p: string) {
    p != "" && p[0] == '0'
  }

  lemma {:induction false} DecimalOf(p: string)
    requires p != "" && AllDigits(p) && !LeadingZero(p)
    ensures Decimal(Value(p)) == p && Value(p) >= 1
  {
    var start, last := p[..|p| - 1], p[|p| - 1];
    assert Digit(last) && p == start + [last] && DigitChar(DigitValue(last)) == last;
    if |p| > 1 {
      DecimalOf(start);
      assert Value(p) / 10 == Value(start) && Value(p) % 10 == DigitValue(last);
    } else {
      assert start == "";
    }
  }

  lemma {:induction false} DecimalStarts(n: int)
    requires n >= 1
    ensures Decimal(n) != "" && AllDigits(Decimal(n)) && !LeadingZero(Decimal(n))
    decreases n
  {
    if n >= 10 {
      DecimalStarts(n / 10);
    }
  }

  lemma CanonicalPortUnlessLeadingZero(u: Url, loopback: string -> bool)
    requires Accepts(u, loopback)
    ensures AllDigits(CanonicalPort(u))
    ensures Kept(u) == CanonicalPort(u) <==> !LeadingZero(u.port)
  {
    DecimalOf("443");
    DecimalOf("80");
    DecimalStarts(Number(u));
    if u.port != "" && !LeadingZero(u.port) {
      DecimalOf(u.port);
    }
  }

  lemma SameRest(scheme: string, a: string, b: string)
    requires scheme + "://" + a == scheme + "://" + b
    ensures a == b
  {
    assert (scheme + "://" + a)[|scheme| + 3..] == a;
    assert (scheme + "://" + b)[|scheme| + 3..] == b;
  }

  /** A port written with a leading zero gets an origin of its own: https://h:0443 is not
      https://h, though both reach port 443. Every other accepted URL is canonical. */
  lemma CanonicalUnlessLeadingZero(u: Url, loopback: string -> bool)
    requires Accepts(u, loopback)
    ensures Origin(u) == Canonical(u) <==> !LeadingZero(u.port)
  {
    CanonicalPortUnlessLeadingZero(u, loopback);
    LowerIsPlain(u.host);
    SplitsBack(Lower(u.host), Kept(u));
    SplitsBack(Lower(u.host), CanonicalPort(u));
    if Origin(u) == Canonical(u) {
      SameRest(u.scheme, HostPort(Lower(u.host), Kept(u)), HostPort(Lower(u.host), CanonicalPort(u)));
    }
  }

  lemma OnePlaceTwoOrigins(loopback: string -> bool) returns (u: Url, v: Url)
    ensures Accepts(u, loopback) && Accepts(v, loopback)
    ensures u.scheme == v.scheme && u.host == v.host && Number(u) == Number(v) && Origin(u) != Origin(v)
  {
    u := Url("https", "h", "0443", "", false, false, false, false, false);
    v := u.(port := "");
    assert Value("4") == 4 && Value("44") == 44 && Value("443") == 443;
    assert "0443"[..3] == "044" && "044"[..2] == "04" && "04"[..1] == "0" && "0"[..0] == "";
    assert Value("0") == 0 && Value("04") == 4 && Value("044") == 44 && Value("0443") == 443;
    CanonicalUnlessLeadingZero(u, loopback);
    CanonicalUnlessLeadingZero(v, loopback);
    assert Canonical(u) == Canonical(v);
  }

  lemma SameNumber(u: Url, v: Url, loopback: string -> bool)
    requires Accepts(u, loopback) && Accepts(v, loopback) && u.scheme == v.scheme && Kept(u) == Kept(v)
    ensures Number(u) == Number(v)
  {
  }

  /** So without leading zeros an origin is a place: scheme, host and port number. */
  lemma OriginIsPlace(u: Url, v: Url, loopback: string -> bool)
    requires Accepts(u, loopback) && Accepts(v, loopback) && !LeadingZero(u.port) && !LeadingZero(v.port)
    ensures Origin(u) == Origin(v) <==> u.scheme == v.scheme && Lower(u.host) == Lower(v.host) && Number(u) == Number(v)
  {
    SameOrigin(u, v, loopback);
    CanonicalPortUnlessLeadingZero(u, loopback);
    CanonicalPortUnlessLeadingZero(v, loopback);
    if Kept(u) == Kept(v) && u.scheme == v.scheme {
      SameNumber(u, v, loopback);
    }
  }

  /** The same letter, or its other case. */
  predicate SameLetter(a: char, b: char) {
    || a == b
    || ('A' <= a <= 'Z' && b as int == a as int + 32)
    || ('A' <= b <= 'Z' && a as int == b as int + 32)
  }

  /** Hosts are equal up to the case of their letters exactly when they lower to one host. */
  lemma CaseIsIgnored(h: string, g: string)
    ensures Lower(h) == Lower(g) <==> |h| == |g| && forall i | 0 <= i < |h| :: SameLetter(h[i], g[i])
  {
    assert |Lower(h)| == |h| && |Lower(g)| == |g|;
    if Lower(h) == Lower(g) {
      forall i | 0 <= i < |h|
        ensures SameLetter(h[i], g[i])
      {
        assert Lower(h)[i] == Lower(g)[i];
      }
    }
  }
}
