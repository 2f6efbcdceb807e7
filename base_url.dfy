/**
 * The endpoint resolver of the service constructor: from the configured
 * base domain to the canonical base URL every request is built on.
 */
module BaseUrl {
  import opened Wrappers
  import opened Strings
  import opened Types

  /** The multi-tenant default host. */
  const DefaultBase: string := "https://dev.azure.com"

  /** `'/'.join(url.split('/')[:3])`: the scheme and host of a URL with a path. */
  function FirstThreeSegments(url: string): string {
    var parts := Split(url, '/');
    Join(parts[..if |parts| < 3 then |parts| else 3], '/')
  }

  /** `url.split('://', 1)[1]`, or `None` where Python raises IndexError (no "://"). */
  function AfterSchemeSeparator(url: string): Option<string> {
    match Find(url, "://")
    case None => None
    case Some(i) => Some(url[i + 3..])
  }

  /**
   * The base URL the constructor stores: the default host when no domain
   * is configured, `https://` in front of a domain that does not start
   * with "http", and otherwise the URL without trailing slashes, cut down
   * to its first three '/'-segments when a path follows the host.
   */
  function NormalizeBaseUrl(baseDomain: Option<string>): (r: Result<string, ServiceError>)
    ensures baseDomain.None? || baseDomain == Some([]) ==> r == Success(DefaultBase)
    ensures baseDomain.Some? && baseDomain.value != [] && !StartsWith(baseDomain.value, "http")
            ==> r == Success("https://" + baseDomain.value)
    ensures baseDomain.Some? && StartsWith(baseDomain.value, "http")
            ==> (r.Failure? <==> !Contains(RStrip(baseDomain.value, '/'), "://"))
    ensures r.Failure? ==> r.error == IndexError
  {
    if baseDomain.None? || baseDomain.value == [] then Success(DefaultBase)
    else
      var d := baseDomain.value;
      if !StartsWith(d, "http") then Success("https://" + d)
      else
        var u := RStrip(d, '/');
        match AfterSchemeSeparator(u)
        case None => Failure(IndexError)
        case Some(rest) => if '/' in rest then Success(FirstThreeSegments(u)) else Success(u)
  }

  /** Trailing separators of the right-hand side are all that `rstrip` removes from a concatenation. */
  lemma {:induction false} RStripConcat(a: string, b: string, c: char)
    ensures RStrip(b, c) != [] ==> RStrip(a + b, c) == a + RStrip(b, c)
    ensures RStrip(b, c) == [] ==> RStrip(a + b, c) == RStrip(a, c)
  {
    if b == [] {
      assert a + b == a;
    } else if b[|b| - 1] == c {
      assert (a + b)[..|a + b| - 1] == a + b[..|b| - 1];
      RStripConcat(a, b[..|b| - 1], c);
    }
  }

  /** The '/'-segments of `scheme://rest`: the scheme with its ':', an empty segment, then those of `rest`. */
  lemma SplitSchemeUrl(sc: string, rest: string)
    requires '/' !in sc
    ensures Split(sc + "://" + rest, '/') == [sc + ":", []] + Split(rest, '/')
  {
    assert sc + "://" + rest == (sc + ":") + ['/'] + ("/" + rest);
    SplitConcat(sc + ":", "/" + rest, '/');
    SplitNoSeparator(sc + ":", '/');
    assert "/" + rest == [] + ['/'] + rest;
    SplitConcat([], rest, '/');
  }

  /** The first three '/'-segments of `scheme://rest` are the scheme and the first segment of `rest`. */
  lemma {:induction false} FirstThreeOfSchemeUrl(sc: string, rest: string)
    requires '/' !in sc
    ensures FirstThreeSegments(sc + "://" + rest) == sc + "://" + Split(rest, '/')[0]
  {
    SplitSchemeUrl(sc, rest);
    var parts := Split(sc + "://" + rest, '/');
    var three := parts[..3];
    assert three == [sc + ":", [], Split(rest, '/')[0]];
    assert Join(three, '/') == (sc + ":") + ['/'] + Join(three[1..], '/');
    assert Join(three[1..], '/') == [] + ['/'] + Split(rest, '/')[0];
  }

  /**
   * For an "http..." domain whose scheme (the text before the first "://")
   * holds no '/', the result is that scheme, "://" and the first
   * '/'-segment after it: scheme plus host, whatever path followed.
   */
  lemma {:induction false} NormalizeKeepsSchemeAndHost(d: string, k: nat)
    requires StartsWith(d, "http")
    requires Find(RStrip(d, '/'), "://") == Some(k)
    requires '/' !in d[..k]
    ensures k + 3 <= |RStrip(d, '/')|
    ensures NormalizeBaseUrl(Some(d)) == Success(d[..k] + "://" + Split(RStrip(d, '/')[k + 3..], '/')[0])
  {
    var u := RStrip(d, '/');
    var sc := u[..k];
    var rest := u[k + 3..];
    assert sc == d[..k];
    assert u == sc + "://" + rest by {
      assert u[k..k + 3] == "://";
    }
    assert AfterSchemeSeparator(u) == Some(rest);
    if '/' !in rest {
      SplitNoSeparator(rest, '/');
    } else {
      FirstThreeOfSchemeUrl(sc, rest);
    }
  }

  /** The first "://" of `scheme://rest` is the one after a scheme without ':'. */
  lemma FindSchemeSeparator(scheme: string, rest: string)
    requires ':' !in scheme
    ensures Find(scheme + "://" + rest, "://") == Some(|scheme|)
  {
    var u := scheme + "://" + rest;
    var n := |scheme|;
    assert OccursAt(u, "://", n) by {
      assert u[n..n + 3] == "://";
    }
    forall j: nat | j < n
      ensures !OccursAt(u, "://", j)
    {
      assert u[j] == scheme[j];
      assert scheme[j] in scheme;
      assert j + 3 <= |u| ==> u[j..j + 3][0] == u[j];
    }
  }

  /** The first '/'-segment of a host followed by nothing or by a path is the host. */
  lemma FirstSegmentOfHost(host: string, t: string)
    requires '/' !in host
    requires t == [] || t[0] == '/'
    ensures Split(host + t, '/')[0] == host
  {
    SplitNoSeparator(host, '/');
    if t == [] {
      assert host + t == host;
    } else {
      assert host + t == host + ['/'] + t[1..];
      SplitConcat(host, t[1..], '/');
    }
  }

  /** Stripping the slashes of `host + tail` leaves the host followed by nothing or by a '/'-path. */
  lemma RStripAfterHost(prefix: string, tail: string)
    requires prefix != [] && prefix[|prefix| - 1] != '/'
    requires tail == [] || tail[0] == '/'
    ensures var t := RStrip(tail, '/');
            RStrip(prefix + tail, '/') == prefix + t && (t == [] || t[0] == '/')
  {
    RStripConcat(prefix, tail, '/');
    var t := RStrip(tail, '/');
    if t != [] {
      assert StartsWith(tail, t);
      assert t[0] == tail[0];
    }
  }

  /** Stripping the slashes of `scheme://host` and a '/'-path only shortens the path. */
  lemma StripSchemeHost(scheme: string, host: string, tail: string)
    requires host != [] && '/' !in host
    requires tail == [] || tail[0] == '/'
    ensures var t := RStrip(tail, '/');
            RStrip(scheme + "://" + host + tail, '/') == scheme + "://" + (host + t) && (t == [] || t[0] == '/')
  {
    var prefix := scheme + "://" + host;
    assert scheme + "://" + host + tail == prefix + tail;
    assert prefix[|prefix| - 1] != '/' by {
      assert prefix[|prefix| - 1] == host[|host| - 1];
      assert host[|host| - 1] in host;
    }
    RStripAfterHost(prefix, tail);
  }

  /**
   * `scheme://host`, `scheme://host/` and `scheme://host/any/path` all
   * resolve to `scheme://host`.
   */
  lemma {:induction false} NormalizeTruncatesToSchemeHost(scheme: string, host: string, tail: string)
    requires StartsWith(scheme, "http") && ':' !in scheme && '/' !in scheme
    requires host != [] && '/' !in host
    requires tail == [] || tail[0] == '/'
    ensures NormalizeBaseUrl(Some(scheme + "://" + host + tail)) == Success(scheme + "://" + host)
  {
    var d := scheme + "://" + host + tail;
    StripSchemeHost(scheme, host, tail);
    assert StartsWith(d, "http") by {
      assert d[..4] == scheme[..4];
    }
    var t := RStrip(tail, '/');
    var u := RStrip(d, '/');
    FindSchemeSeparator(scheme, host + t);
    var n := |scheme|;
    assert d[..n] == scheme;
    NormalizeKeepsSchemeAndHost(d, n);
    assert u[n + 3..] == host + t;
    FirstSegmentOfHost(host, t);
  }

  /** For an "http..." `scheme://host[/path]` URL, normalising the result once more leaves it unchanged. */
  lemma NormalizeIdempotent(scheme: string, host: string, tail: string)
    requires StartsWith(scheme, "http") && ':' !in scheme && '/' !in scheme
    requires host != [] && '/' !in host
    requires tail == [] || tail[0] == '/'
    ensures NormalizeBaseUrl(Some(scheme + "://" + host + tail)).Success?
    ensures var once := NormalizeBaseUrl(Some(scheme + "://" + host + tail)).value;
            NormalizeBaseUrl(Some(once)) == Success(once)
  {
    NormalizeTruncatesToSchemeHost(scheme, host, tail);
    NormalizeTruncatesToSchemeHost(scheme, host, []);
    assert scheme + "://" + host + [] == scheme + "://" + host;
  }

  /**
   * Outside "http..." inputs normalising twice is not normalising once: a
   * domain with a path gains "https://" and keeps its path, and normalising
   * that result cuts the path off.
   */
  lemma NormalizeTwiceDropsPath(scheme: string, host: string, path: string)
    requires scheme == "https"
    requires host != [] && '/' !in host && !StartsWith(host + path, "http")
    requires path != [] && path[0] == '/'
    ensures NormalizeBaseUrl(Some(host + path)) == Success(scheme + "://" + host + path)
    ensures NormalizeBaseUrl(Some(scheme + "://" + host + path)) == Success(scheme + "://" + host)
    ensures scheme + "://" + host + path != scheme + "://" + host
  {
    assert "https://" + (host + path) == scheme + "://" + host + path;
    assert StartsWith(scheme, "http") && ':' !in scheme && '/' !in scheme by {
      assert scheme[..4] == "http";
    }
    NormalizeTruncatesToSchemeHost(scheme, host, path);
    assert |scheme + "://" + host + path| > |scheme + "://" + host|;
  }

  /** A string without ':' has no "://" in it. */
  lemma NoColonNoSeparator(s: string)
    requires ':' !in s
    ensures !Contains(s, "://")
  {
    forall j: nat
      ensures !OccursAt(s, "://", j)
    {
      if j + 3 <= |s| {
        assert s[j..j + 3][0] == s[j];
        assert s[j] in s;
      }
    }
  }

  /**
   * The constructor's own example: an organisation URL with a project path
   * is cut to the organisation.
   */
  lemma NormalizeExampleWithPath(scheme: string, host: string, path: string)
    requires scheme == "https" && host == "org.visualstudio.com" && path == "/project"
    ensures NormalizeBaseUrl(Some(scheme + "://" + host + path)) == Success(scheme + "://" + host)
  {
    ExampleParts(scheme, host, path);
    NormalizeTruncatesToSchemeHost(scheme, host, path);
  }

  /** The example's scheme, host and path meet the conditions of `NormalizeTruncatesToSchemeHost`. */
  lemma ExampleParts(scheme: string, host: string, tail: string)
    requires scheme == "https" && host == "org.visualstudio.com" && tail == "/project"
    ensures StartsWith(scheme, "http") && ':' !in scheme && '/' !in scheme
    ensures host != [] && '/' !in host && tail[0] == '/'
  {
    assert scheme[..4] == "http";
  }

  /** A value starting with "http" but without "://" makes the constructor raise. */
  lemma NormalizeRejectsMissingSeparator(d: string)
    requires d == "httpbin.org"
    ensures NormalizeBaseUrl(Some(d)) == Failure(IndexError)
  {
    assert RStrip(d, '/') == d;
    NoColonNoSeparator(d);
  }
}
