/**
 * The token exchange: the form-encoded POST that trades a signed assertion
 * for an access token, and how the endpoint's answer is read.
 */
module TokenRequest {
  import opened Wrappers
  import opened AuthErrors

  /** The OAuth2 base URL of the API. */
  const OAuth2ApiUrl: string := "https://api.box.com/oauth2"

  /** The token endpoint, OAUTH2_API_URL + "/token". */
  const TokenUrl: string := OAuth2ApiUrl + "/token"

  /** The JWT bearer grant type of section 2.1 of RFC 7523. */
  const GrantType: string := "urn:ietf:params:oauth:grant-type:jwt-bearer"

  const BoxDeviceId: string := "0"

  const FormContentType: string := "application/x-www-form-urlencoded"

  /** The set of form fields the request body carries. */
  const FormFields: set<string> :=
    {"grant_type", "client_id", "client_secret", "assertion", "box_device_id", "box_device_name"}

  /** One call of the network layer: method, URL, form data, headers and the access token attached. */
  datatype Request = Request(
    httpMethod: string,
    url: string,
    data: map<string, string>,
    headers: map<string, string>,
    accessToken: Option<string>)

  /** The network layer's answer: ok, status, body text, and the access_token of its JSON body if present. */
  datatype Response = Response(ok: bool, statusCode: int, content: string, accessToken: Option<string>)

  /** The token request for one assertion. */
  function TokenRequestFor(clientId: string, clientSecret: string, deviceName: string, assertion: string): (req: Request)
    ensures req.httpMethod == "POST" && req.url == TokenUrl
    ensures req.data.Keys == FormFields
    ensures req.data["grant_type"] == GrantType
    ensures req.data["client_id"] == clientId && req.data["client_secret"] == clientSecret
    ensures req.data["assertion"] == assertion
    ensures req.data["box_device_id"] == BoxDeviceId && req.data["box_device_name"] == deviceName
    ensures req.headers == map["content-type" := FormContentType]
    ensures req.accessToken.None?
  {
    Request(
      "POST",
      TokenUrl,
      map[
        "grant_type" := GrantType,
        "client_id" := clientId,
        "client_secret" := clientSecret,
        "assertion" := assertion,
        "box_device_id" := BoxDeviceId,
        "box_device_name" := deviceName],
      map["content-type" := FormContentType],
      None)
  }

  /** The access token of a response, or the OAuth error carrying its status and body. */
  function TokenFromResponse(resp: Response): (r: Result<string, AuthError>)
    ensures r.Success? <==> resp.ok && resp.accessToken.Some?
    ensures r.Success? ==> r.value == resp.accessToken.value
    ensures r.Failure? ==> r.error == TokenRequestFailed(resp.statusCode, resp.content) && r.error.Kind() == OAuthError
  {
    if resp.ok && resp.accessToken.Some? then Success(resp.accessToken.value)
    else Failure(TokenRequestFailed(resp.statusCode, resp.content))
  }
}
