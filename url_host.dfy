/**
 * The organisation display name that prefixes every repository name the
 * adapter emits, and the part of URL parsing (`urlparse(url).hostname`)
 * it depends on.
 */
module UrlHost {
  import opened Wrappers
  import opened Strings
  import opened BaseUrl

  /** The name used when an organisation URL yields no better one. */
  const DefaultCollection: string := "DefaultCollection"

  /** A character allowed in a URL scheme: an ASCII letter, digit, '+', '-' or '.'. */
  predicate SchemeChar(c: char) {
    ('a' <= c <= 'z') || ('A' <= c <= 'Z') || ('0' <= c <= '9') || c == '+' || c == '-' || c == '.'
  }

  /**
   * What follows the scheme: when the text before the first ':' is a
   * non-empty scheme starting with an ASCII letter, the text after that
   * ':'; otherwise the whole URL.
   */
  function AfterScheme(url: string): (r: string)
    ensures |r| <= |url|
  {
    match IndexOfChar(url, ':')
    case None => url
    case Some(i) =>
      if i > 0 && (('a' <= url[0] <= 'z') || ('A' <= url[0] <= 'Z'))
         && forall k :: 0 <= k < i ==> SchemeChar(url[k])
      then url[i + 1..]
      else url
  }

  /** The network location: after "//", up to the first '/', '?' or '#'; `None` without "//". */
  function Netloc(url: string): (r: Option<string>)
    ensures r.Some? ==> '/' !in r.value
  {
    var rest := AfterScheme(url);
    if StartsWith(rest, "//") then
      var tail := rest[2..];
      Some(tail[..SpanUntil(tail, "/?#")])
    else None
  }

  /** The host part of a network location: after the last '@', then inside brackets or before the first ':'. */
  function HostPart(netloc: string): (host: string)
    ensures forall x :: x in host ==> x in netloc
  {
    var (user, at, hostinfo) := RPartition(netloc, '@');
    assert forall x :: x in hostinfo ==> x in netloc by {
      assert netloc == user + (if at then ['@'] else []) + hostinfo;
    }
    var (before, bracket, bracketed) := Partition(hostinfo, '[');
    if bracket then
      var (inside, close, after) := Partition(bracketed, ']');
      assert hostinfo == before + ['['] + (inside + (if close then [']'] else []) + after);
      inside
    else
      var (host, colon, port) := Partition(hostinfo, ':');
      assert hostinfo == host + (if colon then [':'] else []) + port;
      host
  }

  /** `h.lower()` applied before the first '%' (the zone suffix keeps its case). */
  function LowerBeforeZone(h: string): (r: string)
    ensures |r| == |h|
    ensures '/' !in h ==> '/' !in r
  {
    var (name, percent, zone) := Partition(h, '%');
    var r := Lower(name) + (if percent then "%" else "") + zone;
    assert '/' !in h ==> '/' !in name && '/' !in zone by {
      assert h == name + (if percent then "%" else "") + zone;
    }
    r
  }

  /**
   * `urlparse(url).hostname`: the host part of the network location,
   * lower-cased before any '%' zone; `None` when it is empty or there is
   * no network location.
   */
  function Hostname(url: string): (r: Option<string>)
    ensures r.Some? ==> r.value != [] && '/' !in r.value
  {
    match Netloc(url)
    case None => None
    case Some(netloc) =>
      var host := HostPart(netloc);
      if host == [] then None else Some(LowerBeforeZone(host))
  }

  /**
   * The organisation name the walks put in front of "project/repo": on a
   * custom base, the first '.'-label of the organisation URL's host; on the
   * default base, the last '/'-segment of the organisation URL, unless that
   * URL is the base itself; `DefaultCollection` when neither applies.
   */
  function OrgDisplayName(baseUrl: string, orgUrl: string): (name: string)
    ensures '/' !in name
  {
    if baseUrl != DefaultBase then
      match Hostname(orgUrl)
      case None => DefaultCollection
      case Some(host) => Split(host, '.')[0]
    else if orgUrl != baseUrl then Last(Split(orgUrl, '/'))
    else DefaultCollection
  }

  /** On the default base, the organisation URL `base/name` displays as `name`. */
  lemma {:induction false} OrgNameOnDefaultBase(name: string)
    requires '/' !in name
    ensures OrgDisplayName(DefaultBase, DefaultBase + "/" + name) == name
  {
    var url := DefaultBase + "/" + name;
    assert url == DefaultBase + ['/'] + name;
    SplitConcat(DefaultBase, name, '/');
    SplitNoSeparator(name, '/');
    assert url != DefaultBase by {
      assert |url| > |DefaultBase|;
    }
  }

  /** On a custom base, an organisation URL with no network location displays as `DefaultCollection`. */
  lemma OrgNameWithoutHost(baseUrl: string, orgUrl: string)
    requires baseUrl != DefaultBase
    requires ':' !in orgUrl && !StartsWith(orgUrl, "//")
    ensures OrgDisplayName(baseUrl, orgUrl) == DefaultCollection
  {
  }

  /** The default base itself displays as `DefaultCollection`. */
  lemma OrgNameOfDefaultBase()
    ensures OrgDisplayName(DefaultBase, DefaultBase) == DefaultCollection
  {
  }

  /** A host without user, port, brackets, zone or path characters. */
  predicate PlainHost(host: string) {
    host != [] && '/' !in host && '?' !in host && '#' !in host
    && '@' !in host && '[' !in host && ':' !in host && '%' !in host
  }

  /** A scheme `urlparse` recognises: an ASCII letter followed by scheme characters, no ':'. */
  predicate PlainScheme(scheme: string) {
    scheme != [] && 'a' <= scheme[0] <= 'z' && ':' !in scheme
    && forall k :: 0 <= k < |scheme| ==> SchemeChar(scheme[k])
  }

  /** A plain host is its own network location, host part and (lower-cased) host name. */
  lemma HostOnly(host: string)
    requires PlainHost(host)
    ensures SpanUntil(host, "/?#") == |host|
    ensures HostPart(host) == host
    ensures LowerBeforeZone(host) == Lower(host)
  {
  }

  /** `scheme://host` has the network location `host`. */
  lemma NetlocOfSchemeHost(scheme: string, host: string)
    requires PlainScheme(scheme) && PlainHost(host)
    ensures Netloc(scheme + "://" + host) == Some(host)
  {
    var url := scheme + "://" + host;
    assert url[..|scheme|] == scheme;
    assert IndexOfChar(url, ':') == Some(|scheme|);
    assert forall k :: 0 <= k < |scheme| ==> url[k] == scheme[k];
    assert url[|scheme| + 1..] == "//" + host;
    assert AfterScheme(url) == "//" + host;
    var rest := "//" + host;
    assert StartsWith(rest, "//");
    assert rest[2..] == host;
    HostOnly(host);
    assert host[..|host|] == host;
  }

  /**
   * On a custom base, `scheme://host` (a host without port, user, brackets
   * or zone) displays as the first '.'-label of the lower-cased host.
   */
  lemma OrgNameOnCustomHost(baseUrl: string, scheme: string, host: string)
    requires baseUrl != DefaultBase
    requires PlainScheme(scheme) && PlainHost(host)
    ensures OrgDisplayName(baseUrl, scheme + "://" + host) == Split(Lower(host), '.')[0]
  {
    NetlocOfSchemeHost(scheme, host);
    HostOnly(host);
  }
}
