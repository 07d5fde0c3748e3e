/** How the gateway forwards requests: the proxy target each route is given at
    startup, the path rewrite applied before forwarding, the registration loop
    over the startup table, and the choice of the proxy that handles a request. */
module Proxy {
  import opened Wrappers
  import opened Seqs
  import opened Routes

  /** `config.hostname || 'localhost'`: an empty or missing hostname means this host. */
  function HostOrLocalhost(hostname: string): (h: string)
    ensures h != ""
    ensures hostname == "" ==> h == "localhost"
    ensures hostname != "" ==> h == hostname
  {
    if hostname == "" then "localhost" else hostname
  }

  /** Choosing the default is idempotent, so a stored hostname is used as it is. */
  lemma HostOrLocalhostIdempotent(hostname: string)
    ensures HostOrLocalhost(HostOrLocalhost(hostname)) == HostOrLocalhost(hostname)
  {
  }

  // ---- Decimal text of an integer port, as a template literal renders integers below 1e21 ----

  predicate IsDigit(c: char) {
    '0' <= c <= '9'
  }

  predicate AllDigits(s: string) {
    forall i :: 0 <= i < |s| ==> IsDigit(s[i])
  }

  function DigitChar(d: nat): (c: char)
    requires d < 10
    ensures IsDigit(c) && c as int - '0' as int == d
  {
    ('0' as int + d) as char
  }

  /** The shortest decimal text of `n`: digits only, no leading zero. */
  function NatToDecimal(n: nat): (s: string)
    ensures |s| > 0 && AllDigits(s)
    ensures s[0] == '0' <==> n == 0
    decreases n
  {
    if n < 10 then [DigitChar(n)] else NatToDecimal(n / 10) + [DigitChar(n % 10)]
  }

  /** `${n}` for an integer: a minus sign before the digits of a negative number. */
  function IntToDecimal(n: int): string {
    if n < 0 then "-" + NatToDecimal(-n) else NatToDecimal(n)
  }

  /** The number a string of digits denotes, most significant digit first. */
  function DigitsValue(s: string): nat
    requires AllDigits(s)
  {
    if |s| == 0 then 0
    else DigitsValue(s[..|s| - 1]) * 10 + (s[|s| - 1] as int - '0' as int)
  }

  /** Reads back an optionally negative decimal integer; `None` for anything else. */
  function ParseDecimal(s: string): Option<int> {
    if |s| > 1 && s[0] == '-' && AllDigits(s[1..]) then
      var magnitude: int := DigitsValue(s[1..]);
      Some(-magnitude)
    else if |s| > 0 && AllDigits(s) then Some(DigitsValue(s))
    else None
  }

  lemma {:induction false} NatToDecimalRoundTrip(n: nat)
    ensures DigitsValue(NatToDecimal(n)) == n
    decreases n
  {
    var s := NatToDecimal(n);
    if n >= 10 {
      NatToDecimalRoundTrip(n / 10);
      assert s[..|s| - 1] == NatToDecimal(n / 10);
      assert s[|s| - 1] == DigitChar(n % 10);
    }
  }

  /** The decimal text of every integer reads back as that integer. */
  lemma IntToDecimalRoundTrip(n: int)
    ensures ParseDecimal(IntToDecimal(n)) == Some(n)
  {
    var s := IntToDecimal(n);
    if n < 0 {
      NatToDecimalRoundTrip(-n);
      assert s[1..] == NatToDecimal(-n);
    } else {
      NatToDecimalRoundTrip(n);
      assert IsDigit(s[0]);
    }
  }

  // ---- Proxy targets ----

  const Scheme := "http://"

  /** The last position of `c` among the first `n` characters of `s`. */
  function LastIndexBefore(s: string, c: char, n: nat): (r: Option<nat>)
    requires n <= |s|
    ensures r.None? ==> forall j :: 0 <= j < n ==> s[j] != c
    ensures r.Some? ==> r.value < n && s[r.value] == c && forall j :: r.value < j < n ==> s[j] != c
  {
    if n == 0 then None
    else if s[n - 1] == c then Some(n - 1)
    else LastIndexBefore(s, c, n - 1)
  }

  /** The last position of `c` in `s`. */
  function LastIndexOf(s: string, c: char): Option<nat> {
    LastIndexBefore(s, c, |s|)
  }

  /** Splits a target URL into the host before its last colon and the port after it. */
  function ParseTarget(t: string): Option<(string, int)> {
    if !(Scheme <= t) then None
    else
      var rest := t[|Scheme|..];
      match LastIndexOf(rest, ':')
      case None => None
      case Some(k) =>
        match ParseDecimal(rest[k + 1..])
        case None => None
        case Some(port) => Some((rest[..k], port))
  }

  /** No decimal text contains a colon. */
  lemma DecimalHasNoColon(n: int)
    ensures forall j :: 0 <= j < |IntToDecimal(n)| ==> IntToDecimal(n)[j] != ':'
  {
  }

  /** A position holding `c` with no `c` after it is the one `LastIndexOf` finds. */
  lemma LastIndexOfIs(s: string, c: char, k: nat)
    requires k < |s| && s[k] == c
    requires forall j :: k < j < |s| ==> s[j] != c
    ensures LastIndexOf(s, c) == Some(k)
  {
    var r := LastIndexBefore(s, c, |s|);
    assert r.Some?;
  }

  /** The colon written after the host is the last one in the target. */
  lemma LastColonAfterHost(host: string, digits: string)
    requires forall j :: 0 <= j < |digits| ==> digits[j] != ':'
    ensures LastIndexOf(host + ":" + digits, ':') == Some(|host|)
  {
    var rest := host + ":" + digits;
    assert rest[|host|] == ':';
    forall j | |host| < j < |rest| ensures rest[j] != ':' {
      assert rest[j] == digits[j - |host| - 1];
    }
    LastIndexOfIs(rest, ':', |host|);
  }

  /** `http://${config.hostname || 'localhost'}:${appConfig.port}`. The target
      names exactly the configured host (or `localhost`) and the route's port:
      splitting it at its last colon gives both back. */
  function Target(hostname: string, port: int): (t: string)
    ensures Scheme <= t
    ensures ParseTarget(t) == Some((HostOrLocalhost(hostname), port))
  {
    var host := HostOrLocalhost(hostname);
    var digits := IntToDecimal(port);
    var rest := host + ":" + digits;
    DecimalHasNoColon(port);
    LastColonAfterHost(host, digits);
    IntToDecimalRoundTrip(port);
    assert rest[..|host|] == host;
    assert rest[|host| + 1..] == digits;
    assert (Scheme + rest)[|Scheme|..] == rest;
    Scheme + rest
  }

  // ---- Path rewrite ----

  /** `pathRewrite: { ['^' + path]: '' }`: a leading occurrence of the route's
      path is removed; any other request path is left unchanged. The path
      is matched as literal text. */
  function Rewrite(mount: string, path: string): (r: string)
    ensures mount <= path ==> mount + r == path
    ensures !(mount <= path) ==> r == path
  {
    if mount <= path then path[|mount|..] else path
  }

  /** Stripping the prefix undoes prepending it; a request for exactly the
      route's path is rewritten to the empty string. */
  lemma RewriteStripsPrefix(mount: string, rest: string)
    ensures Rewrite(mount, mount + rest) == rest
    ensures Rewrite(mount, mount) == ""
  {
  }

  // ---- Registration and dispatch ----

  /** One registered `http-proxy-middleware` instance: the mount path and its target. */
  datatype ProxyRoute = ProxyRoute(mount: string, target: string)

  /** `config.apps.forEach(...)`: one proxy per startup entry, in table order,
      mounted at the entry's path, with a target naming the effective host and
      the entry's port. */
  function RegisterAll(hostname: string, apps: seq<App>): (proxies: seq<ProxyRoute>)
    ensures |proxies| == |apps|
    ensures forall i :: 0 <= i < |apps| ==> proxies[i].mount == apps[i].path
    ensures forall i :: 0 <= i < |apps| ==> ParseTarget(proxies[i].target) == Some((HostOrLocalhost(hostname), apps[i].port))
  {
    seq(|apps|, j requires 0 <= j < |apps| => ProxyRoute(apps[j].path, Target(hostname, apps[j].port)))
  }

  /** Express's decision whether a middleware mounted at the first path handles
      a request for the second. It belongs to the framework, so it is supplied. */
  type MountMatch = (string, string) -> bool

  function MountedAt(mounted: MountMatch, path: string): ProxyRoute -> bool {
    (p: ProxyRoute) => mounted(p.mount, path)
  }

  /** The proxy that handles a request: the first registered one whose mount
      matches, since a proxy answers the request itself and never passes it on. */
  function Dispatch(proxies: seq<ProxyRoute>, mounted: MountMatch, path: string): (r: Option<nat>)
    ensures r.None? <==> forall j :: 0 <= j < |proxies| ==> !mounted(proxies[j].mount, path)
    ensures r.Some? ==> r.value < |proxies| && mounted(proxies[r.value].mount, path)
    ensures r.Some? ==> forall j :: 0 <= j < r.value ==> !mounted(proxies[j].mount, path)
  {
    var r := FindIndex(proxies, MountedAt(mounted, path));
    assert r.None? ==> forall j :: 0 <= j < |proxies| ==> !mounted(proxies[j].mount, path) by {
      if r.None? {
        forall j | 0 <= j < |proxies| ensures !mounted(proxies[j].mount, path) {
          assert !MountedAt(mounted, path)(proxies[j]);
        }
      }
    }
    assert r.Some? ==> forall j :: 0 <= j < r.value ==> !mounted(proxies[j].mount, path) by {
      if r.Some? {
        assert MountedAt(mounted, path)(proxies[r.value]);
        forall j | 0 <= j < r.value ensures !mounted(proxies[j].mount, path) {
          assert !MountedAt(mounted, path)(proxies[j]);
        }
      }
    }
    r
  }
}
