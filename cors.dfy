/** The `origin` callback given to the CORS middleware. */
module Cors {
  import opened JsValues

  const LocalDevOrigin := "http://localhost:5173"
  const FrontendOrigin := "https://next-hire-nine.vercel.app"
  const AllowedOrigins: seq<string> := [LocalDevOrigin, FrontendOrigin]

  /** What the callback reports: allowed, or an error that rejects the
      request. */
  datatype Decision = Allow | Reject(message: string)

  /** The `Origin` header is `None` when the request has none. The callback
      allows a falsy origin (no header, or the empty string) and the two
      listed origins, compared as whole strings. */
  function CheckOrigin(origin: Option<string>): (d: Decision)
    ensures d == Allow <==>
      origin == None || origin == Some("") ||
      origin == Some("http://localhost:5173") || origin == Some("https://next-hire-nine.vercel.app")
    ensures d.Reject? ==> d.message == "Not allowed by CORS"
  {
    var originValue := if origin.Some? then Str(origin.value) else Undefined;
    if !Truthy(originValue) || origin.value in AllowedOrigins then Allow
    else Reject("Not allowed by CORS")
  }

  /** Matching is exact: an allowed origin with anything appended (a path,
      a port, another domain level) is rejected. */
  lemma ExtendedOriginsRejected(k: nat, suffix: string)
    requires k < |AllowedOrigins| && suffix != ""
    ensures CheckOrigin(Some(AllowedOrigins[k] + suffix)).Reject?
  {
    var o := AllowedOrigins[k] + suffix;
    assert o[..|AllowedOrigins[k]|] == AllowedOrigins[k];
    assert o[4] == AllowedOrigins[k][4];
    assert |o| > |AllowedOrigins[k]|;
    if k == 0 {
      assert o != FrontendOrigin by {
        assert |o| != |FrontendOrigin| || o[4] != FrontendOrigin[4];
      }
    }
  }
}
