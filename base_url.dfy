/** The base URL handed to the official client (service/src/chatgpt/index.ts, the init block). */
module BaseUrl {
  import opened Wrappers
  import opened Text
  import opened Environment

  /**
   * `apiBaseUrl` from `OPENAI_API_BASE_URL`: unset for an absent or empty
   * value, kept as it is when it already contains `/v1` anywhere, and given
   * a `/v1` suffix otherwise.
   */
  function NormaliseBaseUrl(url: Option<string>): (r: Option<string>)
    ensures r.Some? <==> IsNotEmptyString(url)
    ensures r.Some? ==> Contains(r.value, "/v1")
    ensures r.Some? ==> url.value <= r.value && (r == url || r.value == url.value + "/v1")
    ensures r.Some? && r != url ==> !Contains(url.value, "/v1")
  {
    if IsNotEmptyString(url) then
      if Contains(url.value, "/v1") then url
      else
        ContainsSuffix(url.value, "/v1");
        Some(url.value + "/v1")
    else None
  }

  /** Normalising an already normalised URL changes nothing. */
  lemma NormaliseIdempotent(url: Option<string>)
    ensures NormaliseBaseUrl(NormaliseBaseUrl(url)) == NormaliseBaseUrl(url)
  {
  }
}
