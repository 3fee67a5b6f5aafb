/**
 * The API-key middleware. The configured key (the `API_KEY` environment
 * variable) and the request's `x-api-key` header are inputs; the outcome is
 * either passing the request on to the next handler or answering it with a
 * status code and a JSON `error` text.
 */
module Auth {
  import opened Wrappers
  import opened JsString

  datatype Decision =
    | Pass
    | Reject(status: nat, error: string)

  const MissingKeyError := "API key is required. Please provide X-API-Key header."
  const InvalidKeyError := "Invalid API key"

  /** The middleware's decision for one request. */
  function Authenticate(configuredKey: Option<string>, header: Option<string>): (d: Decision)
    ensures d.Pass? <==> Missing(configuredKey) || header == configuredKey
    ensures d == Reject(401, MissingKeyError) <==> !Missing(configuredKey) && Missing(header)
    ensures d == Reject(403, InvalidKeyError) <==> !Missing(configuredKey) && !Missing(header) && header != configuredKey
    ensures d.Pass? || d == Reject(401, MissingKeyError) || d == Reject(403, InvalidKeyError)
  {
    if Missing(configuredKey) then Pass
    else if Missing(header) then Reject(401, MissingKeyError)
    else if header != configuredKey then Reject(403, InvalidKeyError)
    else Pass
  }

  /** Without a configured key the header is not looked at: every request passes. */
  lemma NoKeyIgnoresHeader(configuredKey: Option<string>, h1: Option<string>, h2: Option<string>)
    requires Missing(configuredKey)
    ensures Authenticate(configuredKey, h1) == Authenticate(configuredKey, h2) == Pass
  {
  }

  /** With a configured key, the one header value that passes is the key itself. */
  lemma OnlyTheKeyPasses(key: string, h1: Option<string>, h2: Option<string>)
    requires key != ""
    requires Authenticate(Some(key), h1).Pass? && Authenticate(Some(key), h2).Pass?
    ensures h1 == h2 == Some(key)
  {
  }

  /** The key is compared exactly: a header that differs from it in letter case alone is refused. */
  lemma CaseMatters(key: string, h: string)
    requires key != "" && h != "" && h != key && ToLowerCase(h) == ToLowerCase(key)
    ensures Authenticate(Some(key), Some(h)) == Reject(403, InvalidKeyError)
  {
  }
}
