/** The HTTP calls the API clients make, as values handed to an oracle. Nothing here
    talks to a network: every operation that makes a call takes the oracle as a
    parameter, and every property is stated for all oracles. */
module Http {
  import opened Python

  /** A GET: the full URL and the request headers. */
  datatype Request = Request(url: string, headers: map<string, string>)

  /** A POST with a JSON body. */
  datatype Post = Post(url: string, headers: map<string, string>, body: Json)

  /** What `requests` hands back once `raise_for_status()` has passed:
      `Failed` when the call raised (connection error, error status, or a body that
      is not JSON), `Empty` for an empty body, `Body(j)` for a decoded JSON body. */
  datatype Response = Failed | Empty | Body(json: Json)
}
