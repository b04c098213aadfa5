/** The backend endpoint table and URL building (lib/api/endpoints.ts). */
module Endpoints {
  import opened Wrappers
  import opened Strings

  const Classify := "/api/classify"
  const Purpose := "/api/purpose"
  const Standards := "/api/standards"
  const Refine := "/api/refine"

  const DefaultBaseUrl := "http://localhost:8000"

  /** `API_ENDPOINTS`: four distinct paths, each under `/api/`. */
  function ApiEndpoints(): (es: seq<string>)
    ensures |es| == 4
    ensures forall i, j :: 0 <= i < j < |es| ==> es[i] != es[j]
    ensures forall i :: 0 <= i < |es| ==> IsPrefix("/api/", es[i])
  {
    [Classify, Purpose, Standards, Refine]
  }

  /** The base URL: `NEXT_PUBLIC_API_URL`, or the default when it is unset or empty. */
  function BaseUrl(envApiUrl: Option<string>): (b: string)
    ensures envApiUrl.Some? && envApiUrl.value != "" ==> b == envApiUrl.value
    ensures envApiUrl.None? || envApiUrl.value == "" ==> b == DefaultBaseUrl
  {
    OrElse(envApiUrl, DefaultBaseUrl)
  }

  /** `getApiUrl(endpoint)`: the base URL immediately followed by the endpoint. */
  function GetApiUrl(envApiUrl: Option<string>, endpoint: string): (url: string)
    ensures IsPrefix(BaseUrl(envApiUrl), url)
    ensures url[|BaseUrl(envApiUrl)|..] == endpoint
  {
    BaseUrl(envApiUrl) + endpoint
  }

  /** For a fixed environment, distinct endpoints give distinct URLs. */
  lemma GetApiUrlInjective(envApiUrl: Option<string>, e1: string, e2: string)
    ensures GetApiUrl(envApiUrl, e1) == GetApiUrl(envApiUrl, e2) <==> e1 == e2
  {
    var n := |BaseUrl(envApiUrl)|;
    assert e1 == GetApiUrl(envApiUrl, e1)[n..];
    assert e2 == GetApiUrl(envApiUrl, e2)[n..];
  }
}
