/**
 * The API configuration of the report service: the base URL, the endpoint paths, the
 * default headers, URL assembly, header merging and the per-environment settings.
 */
module ApiConfig {
  import opened JsText
  import opened Wrappers

  const BaseUrl: string := "https://backendextorapp-production.up.railway.app/api/v1"

  const ReportsEndpoint: string := "/reports"
  const ReportStatusEndpoint: string := "/reports/status"
  const ReportByCaseEndpoint: string := "/reports/case"

  type Headers = map<string, string>

  const DefaultHeaders: Headers :=
    map["Content-Type" := "application/json", "User-Agent" := "PoliciaApp/1.0 (React Native)"]

  /**
   * `new URLSearchParams(params).toString()`: each entry as `key=value`, joined by `&`, in the
   * order of the entries. The percent-encoding itself is the library's and is a parameter.
   */
  function QueryString(params: seq<(string, string)>, encode: string -> string): (q: string)
    ensures q == "" <==> params == []
  {
    var pairs := seq(|params|, i requires 0 <= i < |params| =>
      encode(params[i].0) + "=" + encode(params[i].1));
    if params != [] then
      assert '=' in pairs[0];
      JoinNonEmpty(pairs, "&");
      Join(pairs, "&")
    else
      Join(pairs, "&")
  }

  lemma {:induction false} JoinNonEmpty(parts: seq<string>, sep: string)
    requires parts != [] && parts[0] != ""
    ensures Join(parts, sep) != ""
  {
    if |parts| > 1 {
      assert |Join(parts, sep)| >= |parts[0]|;
    }
  }

  /** `buildApiUrl(endpoint, params)`: the base URL, the endpoint, and `?query` when the query is not empty. */
  function BuildApiUrl(endpoint: string, params: seq<(string, string)>, encode: string -> string): (url: string)
    ensures params == [] ==> url == BaseUrl + endpoint
    ensures params != [] ==> url == BaseUrl + endpoint + "?" + QueryString(params, encode)
  {
    var query := QueryString(params, encode);
    if query != "" then BaseUrl + endpoint + "?" + query else BaseUrl + endpoint
  }

  /** The index of the first `?` in `s`, or `|s|` when there is none. */
  function QueryStart(s: string): (k: nat)
    ensures k <= |s|
    ensures forall i :: 0 <= i < k ==> s[i] != '?'
    ensures k < |s| ==> s[k] == '?'
  {
    if s == [] then 0 else if s[0] == '?' then 0 else 1 + QueryStart(s[1..])
  }

  /**
   * The inverse of `BuildApiUrl` on the endpoints the service uses: the path after the base
   * URL up to the first `?`, and the query after it.
   */
  function ParseApiUrl(url: string): (r: Option<(string, string)>)
    ensures r.Some? <==> StartsWith(url, BaseUrl)
    ensures r.Some? ==> url == BaseUrl + r.value.0 + (if r.value.1 == "" && '?' !in url[|BaseUrl|..] then "" else "?" + r.value.1)
  {
    if !StartsWith(url, BaseUrl) then None
    else
      var rest := url[|BaseUrl|..];
      var k := QueryStart(rest);
      if k == |rest| then Some((rest, "")) else Some((rest[..k], rest[k + 1..]))
  }

  /** Building and parsing are inverse when the endpoint holds no `?`. */
  lemma ParseBuildApiUrl(endpoint: string, params: seq<(string, string)>, encode: string -> string)
    requires '?' !in endpoint
    ensures ParseApiUrl(BuildApiUrl(endpoint, params, encode)) == Some((endpoint, QueryString(params, encode)))
  {
    var q := QueryString(params, encode);
    var url := BuildApiUrl(endpoint, params, encode);
    assert url[..|BaseUrl|] == BaseUrl;
    var rest := url[|BaseUrl|..];
    if q == "" {
      assert rest == endpoint;
      QueryStartFree(endpoint);
    } else {
      assert rest == endpoint + "?" + q;
      QueryStartAfter(endpoint, q);
      assert rest[..|endpoint|] == endpoint;
      assert rest[|endpoint| + 1..] == q;
    }
  }

  lemma {:induction false} QueryStartFree(s: string)
    requires '?' !in s
    ensures QueryStart(s) == |s|
  {
    if s != [] {
      QueryStartFree(s[1..]);
    }
  }

  lemma {:induction false} QueryStartAfter(e: string, q: string)
    requires '?' !in e
    ensures QueryStart(e + "?" + q) == |e|
  {
    if e != [] {
      assert (e + "?" + q)[1..] == e[1..] + "?" + q;
      QueryStartAfter(e[1..], q);
    } else {
      assert (e + "?" + q)[0] == '?';
    }
  }

  /** `getApiHeaders(additional)`: the defaults overridden key by key by the additional headers. */
  function GetApiHeaders(additional: Headers): (h: Headers)
    ensures h.Keys == DefaultHeaders.Keys + additional.Keys
    ensures forall k :: k in additional ==> h[k] == additional[k]
    ensures forall k :: k in DefaultHeaders && k !in additional ==> h[k] == DefaultHeaders[k]
  {
    DefaultHeaders + additional
  }

  /** Without additional headers the result is exactly the defaults. */
  lemma GetApiHeadersDefault()
    ensures GetApiHeaders(map[]) == DefaultHeaders
  {
  }

  datatype EnvConfig = EnvConfig(apiUrl: string, debug: bool, logRequests: bool)

  const Development: EnvConfig := EnvConfig(BaseUrl, true, true)
  const Staging: EnvConfig := EnvConfig(BaseUrl, true, false)
  const Production: EnvConfig := EnvConfig(BaseUrl, false, false)

  /** `getCurrentConfig()`, with `__DEV__` as a parameter; staging is never selected. */
  function GetCurrentConfig(dev: bool): (c: EnvConfig)
    ensures c.apiUrl == BaseUrl
    ensures c.debug == dev && c.logRequests == dev
    ensures c != Staging
  {
    if dev then Development else Production
  }
}
