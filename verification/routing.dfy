/**
 * The QR URL the generator prints (index.js line 167) and how a request
 * for that URL reaches `POST /track/:code`:
 * the scheme ends at the first `:`, the authority at the first `/`, `?` or
 * `#`, the path at the first `?` or `#`, and `:code` must be one non-empty
 * path segment after `/track/`. The generator does not escape the ids.
 */
module Routing {
  import opened Wrappers
  import opened Codes

  /** The characters that end the authority part of a URL. */
  const AuthorityEnd: set<char> := {'/', '?', '#'}

  /** The characters that end the path part of a URL. */
  const PathEnd: set<char> := {'?', '#'}

  const TrackPrefix: string := "/track/"

  /** The longest prefix of `s` that contains none of `stops`. */
  function TakeUntil(s: string, stops: set<char>): (t: string)
    ensures t <= s
    ensures forall i :: 0 <= i < |t| ==> t[i] !in stops
    ensures |t| < |s| ==> s[|t|] in stops
  {
    if |s| == 0 || s[0] in stops then "" else [s[0]] + TakeUntil(s[1..], stops)
  }

  /** A stop-free head followed by a stop (or nothing) is exactly what `TakeUntil` keeps. */
  lemma {:induction false} TakeUntilHead(a: string, b: string, stops: set<char>)
    requires forall i :: 0 <= i < |a| ==> a[i] !in stops
    requires |b| == 0 || b[0] in stops
    ensures TakeUntil(a + b, stops) == a
  {
    if |a| == 0 {
      assert a + b == b;
    } else {
      assert (a + b)[0] == a[0];
      assert (a + b)[1..] == a[1..] + b;
      TakeUntilHead(a[1..], b, stops);
      assert [a[0]] + a[1..] == a;
    }
  }

  /** Express's non-strict routing: one trailing `/` does not stop a route from matching. */
  function StripTrailingSlash(s: string): string
  {
    if |s| > 0 && s[|s| - 1] == '/' then s[..|s| - 1] else s
  }

  /** What follows `scheme://` in a URL, the scheme ending at the first `:`. */
  function AfterScheme(url: string): Option<string>
  {
    var scheme := TakeUntil(url, {':'});
    var rest := url[|scheme|..];
    if "://" <= rest then Some(rest[3..]) else None
  }

  /**
   * The path of a URL: what follows the authority, which ends at the first
   * `/`, `?` or `#`, up to the first `?` or `#`.
   */
  function PathOf(url: string): Option<string>
  {
    match AfterScheme(url)
    case None => None
    case Some(afterScheme) =>
      var authority := TakeUntil(afterScheme, AuthorityEnd);
      Some(TakeUntil(afterScheme[|authority|..], PathEnd))
  }

  /**
   * The `:code` an Express app receives for a URL, or `None` when the URL's
   * path is not `/track/` followed by one non-empty segment (and at most a
   * trailing `/`). A segment holding `%` would be percent-decoded first;
   * such URLs are not modelled and give `None`.
   */
  function RouteCode(url: string): Option<string>
  {
    match PathOf(url)
    case None => None
    case Some(path) =>
      if !(TrackPrefix <= path) then None
      else
        var segment := StripTrailingSlash(path[|TrackPrefix|..]);
        if segment == "" || '/' in segment || '%' in segment then None else Some(segment)
  }

  /**
   * An id that travels through a URL path segment unchanged: none of the
   * characters that end or split a segment (`/`, and `\` which URL parsers
   * read as `/`), end the path (`?`, `#`), start an escape (`%`), or that
   * URL parsers delete (tab, line feed, carriage return).
   */
  predicate UrlSafe(s: string)
  {
    && '/' !in s && '\\' !in s && '?' !in s && '#' !in s && '%' !in s
    && '\t' !in s && '\n' !in s && '\r' !in s
  }

  /**
   * The id that ends the URL does not end in a space or control character,
   * which URL parsers trim from the end of a URL.
   */
  predicate NoTrailingBlank(s: string)
  {
    |s| == 0 || s[|s| - 1] > ' '
  }

  /** A host that is all authority: nothing in it ends the authority part. */
  predicate HostSafe(host: string)
  {
    '/' !in host && '\\' !in host && '?' !in host && '#' !in host
  }

  /** The schemes `req.protocol` reports: a request for the URL is an HTTP request. */
  predicate WebScheme(protocol: string)
  {
    protocol == "http" || protocol == "https"
  }

  /** A character of an ordinary host name: an ASCII letter, a digit, `.` or `-`. */
  predicate HostNameChar(c: char)
  {
    ('a' <= c <= 'z') || ('A' <= c <= 'Z') || ('0' <= c <= '9') || c == '.' || c == '-'
  }

  /**
   * A `Host` header that names a server: a non-empty host name, optionally
   * followed by `:` and a numeric port.
   */
  predicate PlainHost(host: string)
  {
    && |host| > 0
    && HostNameChar(host[0])
    && forall i :: 0 <= i < |host| ==> HostNameChar(host[i]) || PortStart(host, i)
  }

  /** Position `i` of `host` is the `:` before a port of digits only. */
  predicate PortStart(host: string, i: nat)
    requires i < |host|
  {
    host[i] == ':' && forall j :: i < j < |host| ==> '0' <= host[j] <= '9'
  }

  /** A plain host contains nothing that ends the authority part. */
  lemma PlainHostIsSafe(host: string)
    requires PlainHost(host)
    ensures HostSafe(host)
  {
  }

  /** The tracking URL encoded in the QR image: `${protocol}://${host}/track/${adId}-${locationId}`. */
  function TrackUrl(protocol: string, host: string, adId: string, locationId: string): string
  {
    protocol + "://" + host + TrackPrefix + MakeCode(adId, locationId)
  }

  /** A scheme without `:` is cut off cleanly. */
  lemma SchemeOf(protocol: string, afterScheme: string)
    requires ':' !in protocol
    ensures AfterScheme(protocol + "://" + afterScheme) == Some(afterScheme)
  {
    var rest := "://" + afterScheme;
    assert protocol + "://" + afterScheme == protocol + rest;
    TakeUntilHead(protocol, rest, {':'});
    assert (protocol + rest)[|protocol|..] == rest;
  }

  /** A host without `/`, `?` or `#` is cut off cleanly, leaving a path free of `?` and `#` whole. */
  lemma {:induction false} AuthorityOf(host: string, path: string)
    requires HostSafe(host)
    requires |path| > 0 && path[0] == '/' && '?' !in path && '#' !in path
    ensures TakeUntil(host + path, AuthorityEnd) == host
    ensures TakeUntil((host + path)[|host|..], PathEnd) == path
  {
    TakeUntilHead(host, path, AuthorityEnd);
    assert (host + path)[|host|..] == path;
    TakeUntilHead(path, "", PathEnd);
    assert path + "" == path;
  }

  /** For a plain protocol and host, the path of a tracking URL is `/track/` followed by the code. */
  lemma {:induction false} TrackUrlPath(protocol: string, host: string, code: string)
    requires ':' !in protocol && HostSafe(host)
    requires '?' !in code && '#' !in code
    ensures PathOf(protocol + "://" + host + TrackPrefix + code) == Some(TrackPrefix + code)
  {
    var tail := TrackPrefix + code;
    assert protocol + "://" + host + TrackPrefix + code == protocol + "://" + (host + tail);
    SchemeOf(protocol, host + tail);
    AuthorityOf(host, tail);
  }

  /**
   * For an HTTP scheme, a plain host and ids that survive a URL path
   * segment, the code the tracker receives for the printed URL is exactly
   * the generated code.
   */
  lemma {:induction false} TrackUrlRoutesCode(protocol: string, host: string, adId: string, locationId: string)
    requires WebScheme(protocol) && PlainHost(host)
    requires UrlSafe(adId) && UrlSafe(locationId) && NoTrailingBlank(locationId)
    ensures RouteCode(TrackUrl(protocol, host, adId, locationId)) == Some(MakeCode(adId, locationId))
  {
    PlainHostIsSafe(host);
    var code := MakeCode(adId, locationId);
    assert '?' !in code && '#' !in code && '/' !in code && '%' !in code;
    TrackUrlPath(protocol, host, code);
    assert (TrackPrefix + code)[|TrackPrefix|..] == code;
    assert StripTrailingSlash(code) == code;
  }

  /**
   * A `/` inside the ad id (and no `?` or `#` in either id) splits the
   * printed path into more than one segment after `/track/`, so the
   * tracking route does not match. Without `.` or `%` in the ids no piece
   * is a dot segment, which a URL parser would remove.
   */
  lemma {:induction false} SlashInIdIsNotRouted(protocol: string, host: string, adId: string, locationId: string)
    requires ':' !in protocol && HostSafe(host)
    requires '?' !in adId && '#' !in adId && '?' !in locationId && '#' !in locationId
    requires '.' !in adId && '.' !in locationId && '%' !in adId && '%' !in locationId
    requires '/' in adId
    ensures RouteCode(TrackUrl(protocol, host, adId, locationId)) == None
  {
    var code := MakeCode(adId, locationId);
    assert '?' !in code && '#' !in code;
    TrackUrlPath(protocol, host, code);
    assert (TrackPrefix + code)[|TrackPrefix|..] == code;
    var k :| 0 <= k < |adId| && adId[k] == '/';
    assert code[k] == '/' && k < |code| - 1;
    assert StripTrailingSlash(code)[k] == '/';
  }

  /** The ad id `a/b` at location `c` prints `/track/a/b-c`, which the tracker never receives. */
  lemma SlashedAdIdWitness()
    ensures RouteCode(TrackUrl("https", "example.com", "a/b", "c")) == None
  {
    SlashInIdIsNotRouted("https", "example.com", "a/b", "c");
  }
}
