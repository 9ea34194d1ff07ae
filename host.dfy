/**
 * The host-name extraction the probe applies to the GraphQL endpoint before it
 * puts the host into the connection header and into the `start` envelope's
 * authorization extension.
 *
 * `extractHostFromUrl` is a chain of two anchored regular-expression replaces
 * (`/^https?:\/\//` then `/^wss?:\/\//`, each removing at most one match)
 * followed by `split('/')[0]`.
 */
module HostName {

  predicate HasPrefix(s: string, p: string) {
    |p| <= |s| && s[..|p|] == p
  }

  /** One anchored replace of `^<base>s?://` by the empty string. */
  function StripScheme(s: string, base: string): (r: string)
    // at most one prefix is removed, and what remains is the rest of the input
    ensures r == s || s == base + "://" + r || s == base + "s://" + r
    // the input is changed exactly when it starts with one of the two spellings
    ensures r != s <==> HasPrefix(s, base + "://") || HasPrefix(s, base + "s://")
  {
    if HasPrefix(s, base + "://") then
      assert s == base + "://" + s[|base| + 3..];
      s[|base| + 3..]
    else if HasPrefix(s, base + "s://") then
      assert s == base + "s://" + s[|base| + 4..];
      s[|base| + 4..]
    else
      s
  }

  /** The URL after both replaces: first `http(s)://`, then `ws(s)://`. */
  function SchemeStripped(url: string): string {
    StripScheme(StripScheme(url, "http"), "ws")
  }

  /** `split('/')[0]`: the part before the first slash, or all of it. */
  function BeforeSlash(s: string): (r: string)
    ensures '/' !in r
    ensures HasPrefix(s, r)
    ensures |r| < |s| ==> s[|r|] == '/'
  {
    if s == [] || s[0] == '/' then []
    else
      var rest := BeforeSlash(s[1..]);
      assert s == [s[0]] + s[1..];
      [s[0]] + rest
  }

  /** `extractHostFromUrl(url)`. */
  function ExtractHost(url: string): (r: string)
    ensures '/' !in r
    ensures HasPrefix(SchemeStripped(url), r)
    ensures |r| < |SchemeStripped(url)| ==> SchemeStripped(url)[|r|] == '/'
  {
    BeforeSlash(SchemeStripped(url))
  }

  /**
   * The three properties in ExtractHost's postcondition pin the result down:
   * any string with them is the extracted host.
   */
  lemma ExtractHostUnique(url: string, h: string)
    requires '/' !in h
    requires HasPrefix(SchemeStripped(url), h)
    requires |h| < |SchemeStripped(url)| ==> SchemeStripped(url)[|h|] == '/'
    ensures h == ExtractHost(url)
  {
  }

  /** A string with no slash at all has no scheme prefix and stays as it is. */
  lemma NoSlashUnchanged(url: string)
    requires '/' !in url
    ensures ExtractHost(url) == url
  {
  }

  /** Extracting twice gives what extracting once gives. */
  lemma ExtractHostIdempotent(url: string)
    ensures ExtractHost(ExtractHost(url)) == ExtractHost(url)
  {
  }

  /** A replace removes exactly the spelling of the scheme the string starts with. */
  lemma StripKnownScheme(base: string, secure: bool, rest: string)
    ensures StripScheme((if secure then base + "s://" else base + "://") + rest, base) == rest
  {
    var p := if secure then base + "s://" else base + "://";
    var s := p + rest;
    assert s[..|p|] == p;
    if secure {
      assert s[..|base| + 3][|base|] == 's';
    }
  }

  /** The two replaces are sequential: a `wss://` behind an `https://` goes too. */
  lemma NestedSchemesBothStripped(host: string, path: string)
    requires '/' !in host
    ensures ExtractHost("https://wss://" + host + "/" + path) == host
  {
    var url := "https://wss://" + host + "/" + path;
    var rest := host + "/" + path;
    assert url == ("http" + "s://") + (("ws" + "s://") + rest);
    StripKnownScheme("http", true, ("ws" + "s://") + rest);
    StripKnownScheme("ws", true, rest);
    assert rest[..|host|] == host;
    assert rest[|host|] == '/';
    ExtractHostUnique(url, host);
  }

  /**
   * A scheme whose first slash is at `i` can only be a prefix of
   * `host + "/" + path`, for a host without slash, if the host is exactly
   * the part of the scheme before that slash.
   */
  lemma SchemeAfterHost(host: string, path: string, scheme: string, i: nat)
    requires '/' !in host
    requires i < |scheme| && scheme[i] == '/' && '/' !in scheme[..i]
    ensures HasPrefix(host + "/" + path, scheme) ==> host == scheme[..i]
  {
    var rest := host + "/" + path;
    if HasPrefix(rest, scheme) {
      assert rest[|host|] == '/';
      assert host == rest[..i] == scheme[..i];
    }
  }

  /**
   * An `https` endpoint yields its host, ports included; only the hosts
   * `ws:` and `wss:` would read as a second scheme.
   */
  lemma HttpsEndpointHost(host: string, path: string)
    requires '/' !in host && host != "ws:" && host != "wss:"
    ensures ExtractHost("https://" + host + "/" + path) == host
  {
    var url := "https://" + host + "/" + path;
    var rest := host + "/" + path;
    assert url == ("http" + "s://") + rest;
    StripKnownScheme("http", true, rest);
    assert "ws://"[..3] == "ws:" && "wss://"[..4] == "wss:";
    SchemeAfterHost(host, path, "ws://", 3);
    SchemeAfterHost(host, path, "wss://", 4);
    assert SchemeStripped(url) == rest;
    assert rest[..|host|] == host;
    assert rest[|host|] == '/';
    ExtractHostUnique(url, host);
  }

  /** Each replace removes one match only: a doubled `http://` keeps its second copy. */
  lemma RepeatedSchemeStrippedOnce(rest: string)
    ensures ExtractHost("http://http://" + rest) == "http:"
  {
    var url := "http://http://" + rest;
    var second := "http://" + rest;
    assert url == ("http" + "://") + second;
    StripKnownScheme("http", false, second);
    assert second[..5][0] == 'h' && second[..6][0] == 'h';
    assert SchemeStripped(url) == second;
    assert second[..5] == "http:";
    assert second[5] == '/';
    ExtractHostUnique(url, "http:");
  }
}
