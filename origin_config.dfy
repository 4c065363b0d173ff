/**
 * Endpoint URLs as `config.js` builds them: an override with one trailing
 * slash removed, or the page's own protocol and host on port 8000, and
 * endpoints that always start with a slash.
 */
module OriginConfig {
  import opened Strings

  /** The page address parts that are read: `window.location.protocol` and `.hostname`. */
  datatype Location = Location(protocol: string, hostname: string)

  const ApiPort: string := "8000"

  /** `s.replace(/\/$/, '')`: drop one '/' at the very end, if there is one. */
  function StripTrailingSlash(s: string): (r: string)
    ensures EndsWith(s, "/") ==> r + "/" == s
    ensures !EndsWith(s, "/") ==> r == s
  {
    if EndsWith(s, "/") then s[..|s| - 1] else s
  }

  /** `envUrl` is `VITE_API_URL`, "" when unset (an empty value is falsy too). */
  function ApiBaseUrl(envUrl: string, loc: Location): (base: string)
    ensures envUrl != "" ==> base == StripTrailingSlash(envUrl)
    ensures envUrl == "" ==> base == loc.protocol + "//" + loc.hostname + ":" + ApiPort
  {
    if envUrl != "" then StripTrailingSlash(envUrl)
    else loc.protocol + "//" + loc.hostname + ":" + ApiPort
  }

  /** Only one slash goes: an override ending in "//" keeps one. */
  lemma DoubledSlashKeepsOne(prefix: string, loc: Location)
    ensures ApiBaseUrl(prefix + "//", loc) == prefix + "/"
  {
    var s := prefix + "//";
    assert s[|s| - 1..] == "/";
    assert s[..|s| - 1] == prefix + "/";
  }

  /** `https:` on host `example.org` gives "https://example.org:8000". */
  lemma BaseFromLocation()
    ensures ApiBaseUrl("", Location("https:", "example.org")) == "https://example.org:8000"
  {
  }

  /** Prepend '/' unless the endpoint already starts with one. */
  function NormalizeEndpoint(endpoint: string): (r: string)
    ensures StartsWith(r, "/")
    ensures StartsWith(endpoint, "/") ==> r == endpoint
    ensures !StartsWith(endpoint, "/") ==> r == "/" + endpoint
  {
    if StartsWith(endpoint, "/") then endpoint else "/" + endpoint
  }

  function GetApiUrl(envUrl: string, loc: Location, endpoint: string): (url: string)
    ensures url == ApiBaseUrl(envUrl, loc) + NormalizeEndpoint(endpoint)
    ensures |url| > |ApiBaseUrl(envUrl, loc)| && url[|ApiBaseUrl(envUrl, loc)|] == '/'
  {
    var base := ApiBaseUrl(envUrl, loc);
    var endpoint' := NormalizeEndpoint(endpoint);
    assert endpoint'[0] == '/';
    base + endpoint'
  }

  /** A missing leading slash is added, so "x" and "/x" give the same URL. */
  lemma SlashOptional(envUrl: string, loc: Location, x: string)
    requires !StartsWith(x, "/")
    ensures GetApiUrl(envUrl, loc, x) == GetApiUrl(envUrl, loc, "/" + x)
  {
    assert StartsWith("/" + x, "/");
  }

  /**
   * Unless the override ends with "//" or the endpoint starts with "//", exactly
   * one '/' separates the base from the rest of the endpoint.
   */
  lemma SingleSlashAtJoin(envUrl: string, loc: Location, endpoint: string)
    requires !EndsWith(envUrl, "//") && !StartsWith(endpoint, "//")
    ensures var base := ApiBaseUrl(envUrl, loc);
      var rest := if StartsWith(endpoint, "/") then endpoint[1..] else endpoint;
      GetApiUrl(envUrl, loc, endpoint) == base + "/" + rest &&
      !EndsWith(base, "/") && !StartsWith(rest, "/")
  {
    var base := ApiBaseUrl(envUrl, loc);
    if envUrl == "" {
      LocationBaseNoSlash(loc);
    } else if EndsWith(envUrl, "/") {
      DropLastSlash(envUrl);
      assert base == envUrl[..|envUrl| - 1];
    } else {
      assert base == envUrl;
    }
    assert !EndsWith(base, "/");
    if StartsWith(endpoint, "/") {
      DropFirstSlash(endpoint);
      assert NormalizeEndpoint(endpoint) == "/" + endpoint[1..];
    } else {
      assert NormalizeEndpoint(endpoint) == "/" + endpoint;
    }
  }

  /** The base built from the page location ends with the port, not a slash. */
  lemma LocationBaseNoSlash(loc: Location)
    ensures !EndsWith(ApiBaseUrl("", loc), "/")
  {
    var base := ApiBaseUrl("", loc);
    var head := loc.protocol + "//" + loc.hostname + ":";
    assert base == head + ApiPort;
    assert base[|base| - 1] == '0';
    assert base[|base| - 1..] == [base[|base| - 1]];
  }

  /** The address shown to the user is the base itself. */
  function GetApiDisplayUrl(envUrl: string, loc: Location): (url: string)
    ensures url == ApiBaseUrl(envUrl, loc)
  {
    ApiBaseUrl(envUrl, loc)
  }
}
