/**
 * frontend/src/apiBase.js: the API base URL taken from the build's
 * environment, and the joining of a path onto it.
 */
module ApiBase {
  import opened Wrappers
  import opened Text

  const FallbackBase: string := "/api"

  /** `import.meta.env.VITE_API_URL || '/api'`: an unset or empty variable falls back. */
  function Raw(viteApiUrl: Option<string>): (r: string)
    ensures r != ""
    ensures viteApiUrl.Some? && viteApiUrl.value != "" ==> r == viteApiUrl.value
  {
    match viteApiUrl
    case Some(url) => if url != "" then url else FallbackBase
    case None => FallbackBase
  }

  /** `s.replace(/\/$/, '')`: one trailing slash, if any, is removed. */
  function StripTrailingSlash(s: string): (r: string)
    ensures r == s || r + "/" == s
    ensures EndsWith(s, "/") <==> r + "/" == s
  {
    if |s| > 0 && s[|s| - 1] == '/' then s[..|s| - 1] else s
  }

  /** `p.replace(/^\//, '')`: one leading slash, if any, is removed. */
  function StripLeadingSlash(p: string): (r: string)
    ensures r == p || "/" + r == p
    ensures StartsWith(p, "/") <==> "/" + r == p
  {
    if |p| > 0 && p[0] == '/' then p[1..] else p
  }

  /** `API_BASE_URL`. */
  function ApiBaseUrl(viteApiUrl: Option<string>): string {
    StripTrailingSlash(Raw(viteApiUrl))
  }

  /** `apiUrl(p)`: the base, one slash, and the path without its leading slash. */
  function ApiUrl(base: string, p: string): (r: string)
    ensures StartsWith(r, base + "/")
    ensures r[|base| + 1..] == p || "/" + r[|base| + 1..] == p
  {
    base + "/" + StripLeadingSlash(p)
  }

  /**
   * The base URL is the configured one (or "/api") with at most one trailing
   * slash removed; an unset variable gives "/api".
   */
  lemma ApiBaseUrlFacts(viteApiUrl: Option<string>)
    ensures var raw := Raw(viteApiUrl);
      && (ApiBaseUrl(viteApiUrl) == raw || ApiBaseUrl(viteApiUrl) + "/" == raw)
      && (EndsWith(raw, "/") <==> ApiBaseUrl(viteApiUrl) + "/" == raw)
    ensures viteApiUrl.None? ==> ApiBaseUrl(viteApiUrl) == "/api"
    ensures viteApiUrl == Some("") ==> ApiBaseUrl(viteApiUrl) == "/api"
    ensures forall u :: viteApiUrl == Some(u) && u != "" && EndsWith(u, "/") ==> ApiBaseUrl(viteApiUrl) == u[..|u| - 1]
    ensures forall u :: viteApiUrl == Some(u) && u != "" && !EndsWith(u, "/") ==> ApiBaseUrl(viteApiUrl) == u
  {
    assert !EndsWith("/api", "/");
  }

  /** A path with no leading slash is appended after exactly one slash. */
  lemma ApiUrlPlain(base: string, p: string)
    requires !StartsWith(p, "/")
    ensures ApiUrl(base, p) == base + "/" + p
  {
  }

  /** Exactly one leading slash is stripped: `apiUrl("/" + p)` is `apiUrl(p)`. */
  lemma ApiUrlLeadingSlash(base: string, p: string)
    requires !StartsWith(p, "/")
    ensures ApiUrl(base, "/" + p) == ApiUrl(base, p)
  {
    ApiUrlPlain(base, p);
    assert ("/" + p)[1..] == p;
  }

  /** Stripping is not repeated: a doubled slash keeps one. */
  lemma ApiUrlDoubleSlash(base: string, p: string)
    ensures ApiUrl(base, "//" + p) == base + "//" + p
  {
    assert ("//" + p)[1..] == "/" + p;
  }

  /** `apiUrl()` with the default empty path is the base and one slash. */
  lemma ApiUrlDefault(base: string)
    ensures ApiUrl(base, "") == base + "/"
  {
  }
}
