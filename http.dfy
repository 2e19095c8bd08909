/** The HTTP request a provider hands to `fetch_json`, and the collaborator
    bundle every call into code outside the model goes through. */
module Http {
  import opened Wrappers
  import opened Json
  import opened Geo
  import opened Center

  /** A query parameter value. */
  datatype Param = TextParam(s: string) | RealParam(r: real) | IntParam(i: int)

  datatype Request = Request(url: string, params: map<string, Param>, headers: map<string, string>)

  /** Why a provider's `fetch` raised: the centre could not be resolved, or
      the request failed. */
  datatype FetchError = BadCenter(reason: CenterError) | RequestFailed(message: string)

  /** `fetch_json`: the decoded body, or the error it raises once its retries
      are used up. */
  type FetchJson = Request -> Result<Value, string>

  /** Everything the core calls but does not define: the geocoder, haversine,
      the HTTP helper, Python's float parser, `format(x, "g")`, `str(float)`,
      `urllib.parse.quote_plus`, and the `RENTCAST_API_KEY` environment variable. */
  datatype Host = Host(
    geocode: Geocoder,
    distanceKm: Distance,
    fetchJson: FetchJson,
    parseFloat: string -> Option<real>,
    formatG: real -> string,
    floatStr: real -> string,
    quotePlus: string -> string,
    rentcastKeyEnv: Option<string>)
}
