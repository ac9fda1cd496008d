/**
 * The URL builders of tsqa/test_cases.py: `DynamicHTTPEndpointCase.endpoint_url`
 * (lines 128-135) and the string that `EnvironmentCase.proxies` (line 104)
 * builds. Both format a URL on the loopback address; `str(port)` is modelled
 * by `DecimalString`.
 */
module Urls {
  import opened Wrappers

  const LoopbackPrefix: string := "http://127.0.0.1:"

  predicate IsDigit(c: char)
  {
    '0' <= c <= '9'
  }

  predicate AllDigits(s: string)
  {
    forall i :: 0 <= i < |s| ==> IsDigit(s[i])
  }

  function DigitChar(d: nat): (c: char)
    requires d < 10
    ensures IsDigit(c)
  {
    (d + '0' as int) as char
  }

  function DigitValue(c: char): (d: nat)
    requires IsDigit(c)
    ensures d < 10
  {
    (c as int - '0' as int) as nat
  }

  /** Python's `str(n)` for a non-negative int: decimal digits, no leading zero. */
  function DecimalString(n: nat): (s: string)
    ensures |s| >= 1 && AllDigits(s)
    ensures s[0] == '0' ==> s == "0"
    decreases n
  {
    if n < 10 then [DigitChar(n)] else DecimalString(n / 10) + [DigitChar(n % 10)]
  }

  /** The value of a string of decimal digits (the inverse of `DecimalString`). */
  function DecimalValue(s: string): nat
    requires AllDigits(s)
  {
    if s == [] then 0 else DecimalValue(s[..|s| - 1]) * 10 + DigitValue(s[|s| - 1])
  }

  lemma {:induction false} DecimalRoundTrip(n: nat)
    ensures DecimalValue(DecimalString(n)) == n
    decreases n
  {
    var s := DecimalString(n);
    if n >= 10 {
      DecimalRoundTrip(n / 10);
      assert s[..|s| - 1] == DecimalString(n / 10);
    }
  }

  /**
   * The path as `endpoint_url` uses it: a non-empty path that does not start
   * with `/` gets one `/` in front; an empty path, or one that starts with `/`,
   * is kept as it is.
   */
  function NormalizePath(path: string): (p: string)
    ensures p == [] <==> path == []
    ensures p == [] || p[0] == '/'
    ensures p == path <==> path == [] || path[0] == '/'
    ensures p != path ==> p == "/" + path
  {
    if path != [] && path[0] != '/' then "/" + path else path
  }

  /** Normalising twice is normalising once. */
  lemma NormalizeIdempotent(path: string)
    ensures NormalizePath(NormalizePath(path)) == NormalizePath(path)
  {
  }

  /** `endpoint_url(path)` for the endpoint listening on `port`. */
  function EndpointUrl(port: nat, path: string): (url: string)
    ensures |url| > |LoopbackPrefix| && url[..|LoopbackPrefix|] == LoopbackPrefix
  {
    LoopbackPrefix + DecimalString(port) + NormalizePath(path)
  }

  /** The number of leading decimal digits of `s`. */
  function DigitRun(s: string): (k: nat)
    ensures k <= |s| && AllDigits(s[..k])
    ensures k < |s| ==> !IsDigit(s[k])
  {
    if s != [] && IsDigit(s[0]) then
      var k := 1 + DigitRun(s[1..]);
      assert s[..k] == [s[0]] + s[1..][..k - 1];
      k
    else 0
  }

  /** Splits an endpoint URL back into the port and the path. */
  function ParseEndpointUrl(url: string): Option<(nat, string)>
  {
    if |url| < |LoopbackPrefix| || url[..|LoopbackPrefix|] != LoopbackPrefix then None
    else
      var rest := url[|LoopbackPrefix|..];
      var k := DigitRun(rest);
      if k == 0 then None else Some((DecimalValue(rest[..k]), rest[k..]))
  }

  lemma {:induction false} DigitRunOfDigitsThen(digits: string, tail: string)
    requires AllDigits(digits)
    requires tail == [] || !IsDigit(tail[0])
    ensures DigitRun(digits + tail) == |digits|
    decreases |digits|
  {
    if digits != [] {
      assert (digits + tail)[1..] == digits[1..] + tail;
      DigitRunOfDigitsThen(digits[1..], tail);
    } else {
      assert digits + tail == tail;
    }
  }

  /**
   * An endpoint URL determines its port and its normalised path: the port's
   * digits end exactly where the path begins, because a normalised path is
   * empty or starts with `/`.
   */
  lemma {:induction false} EndpointUrlRoundTrip(port: nat, path: string)
    ensures ParseEndpointUrl(EndpointUrl(port, path)) == Some((port, NormalizePath(path)))
  {
    var digits, p := DecimalString(port), NormalizePath(path);
    var url := EndpointUrl(port, path);
    assert url == LoopbackPrefix + (digits + p);
    assert url[..|LoopbackPrefix|] == LoopbackPrefix;
    var rest := url[|LoopbackPrefix|..];
    assert rest == digits + p;
    DigitRunOfDigitsThen(digits, p);
    assert rest[..|digits|] == digits;
    assert rest[|digits|..] == p;
    DecimalRoundTrip(port);
  }

  /** The proxy URL `proxies` builds from the records value of `proxy.config.http.server_ports`. */
  function ProxyUrl(serverPorts: string): (url: string)
    ensures |url| == |LoopbackPrefix| + |serverPorts|
    ensures url[..|LoopbackPrefix|] == LoopbackPrefix && url[|LoopbackPrefix|..] == serverPorts
  {
    LoopbackPrefix + serverPorts
  }
}
