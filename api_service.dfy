/** `api.service.ts`: how every API call is sent and how its reply is read.
    The base URL comes from `NEXT_PUBLIC_API_URL`; `fetch` is not modelled,
    its outcome is a `Reply` value, and `JSON.parse` is the `parse`
    parameter. Request bodies are the job form; their JSON text is not
    modelled. */
module ApiService {
  import opened Wrappers
  import opened Strings
  import opened ClientTypes

  const DefaultApiUrl: string := "http://localhost:8080"
  const JsonContentType: string := "application/json"

  /** `API_URL`: the configured URL, or the local server when it is unset or
      empty. */
  function ApiUrl(env: Option<string>): (url: string)
    ensures Truthy(env) ==> url == env.value
    ensures !Truthy(env) ==> url == DefaultApiUrl
  {
    OrElse(env, DefaultApiUrl)
  }

  /** `getHeaders`: the JSON content type always, and a bearer
      `Authorization` header exactly when there is a non-empty token. */
  function GetHeaders(token: string): (h: map<string, string>)
    ensures "Content-Type" in h && h["Content-Type"] == JsonContentType
    ensures "Authorization" in h <==> token != ""
    ensures "Authorization" in h ==> h["Authorization"] == "Bearer " + token
    ensures h.Keys <= {"Content-Type", "Authorization"}
  {
    var headers := map["Content-Type" := JsonContentType];
    if token != "" then headers["Authorization" := "Bearer " + token] else headers
  }

  /** The arguments of one `fetch` call. */
  datatype HttpRequest = HttpRequest(
    url: string,
    verb: string,
    headers: map<string, string>,
    body: Option<FormData>)

  /** The `fetch` that `request` issues: the base URL followed by the
      endpoint, the method (`verb`), the headers for the token, and the body only
      when one is given (an object is always truthy). */
  function Request(env: Option<string>, endpoint: string, verb: string, body: Option<FormData>, token: string): (r: HttpRequest)
    ensures ApiUrl(env) <= r.url && r.url[|ApiUrl(env)|..] == endpoint
    ensures r.verb == verb && r.body == body && r.headers == GetHeaders(token)
  {
    HttpRequest(ApiUrl(env) + endpoint, verb, GetHeaders(token), body)
  }

  function Get(env: Option<string>, endpoint: string, token: string): HttpRequest {
    Request(env, endpoint, "GET", None, token)
  }

  function Post(env: Option<string>, endpoint: string, body: FormData, token: string): HttpRequest {
    Request(env, endpoint, "POST", Some(body), token)
  }

  function Patch(env: Option<string>, endpoint: string, body: FormData, token: string): HttpRequest {
    Request(env, endpoint, "PATCH", Some(body), token)
  }

  function Delete(env: Option<string>, endpoint: string, token: string): HttpRequest {
    Request(env, endpoint, "DELETE", None, token)
  }

  /** The four delegations: GET and DELETE send no body, POST and PATCH
      send theirs, each names its own method, and all four send the JSON
      content type. */
  lemma Delegations(env: Option<string>, endpoint: string, body: FormData, token: string)
    ensures Get(env, endpoint, token).body == None && Delete(env, endpoint, token).body == None
    ensures Post(env, endpoint, body, token).body == Some(body) && Patch(env, endpoint, body, token).body == Some(body)
    ensures [Get(env, endpoint, token).verb, Post(env, endpoint, body, token).verb,
             Patch(env, endpoint, body, token).verb, Delete(env, endpoint, token).verb]
            == ["GET", "POST", "PATCH", "DELETE"]
    ensures Get(env, endpoint, token).headers["Content-Type"] == JsonContentType
    ensures Delete(env, endpoint, token).headers["Content-Type"] == JsonContentType
  {
  }

  /** What `fetch` gave: a rejection with its message, or a response with
      `ok`, `statusText` and the body text. */
  datatype Reply =
    | NetworkFailure(message: string)
    | Received(ok: bool, statusText: string, text: string)

  /** The rest of `request`: a rejected fetch propagates, a non-ok response
      fails with "API Error: " and the status text, an empty body reads as
      null (None), and any other body is parsed. */
  function Classify<T>(reply: Reply, parse: string -> Outcome<T>): (r: Outcome<Option<T>>)
    ensures reply.NetworkFailure? ==> r == Fail(reply.message)
    ensures reply.Received? && !reply.ok ==> r == Fail("API Error: " + reply.statusText)
    ensures reply.Received? && reply.ok && reply.text == "" ==> r == Ok(None)
    ensures reply.Received? && reply.ok && reply.text != "" ==>
      (r.Ok? <==> parse(reply.text).Ok?) &&
      (r.Ok? ==> r.value == Some(parse(reply.text).value)) &&
      (r.Fail? ==> r == Fail(parse(reply.text).message))
  {
    match reply
    case NetworkFailure(m) => Fail(m)
    case Received(ok, statusText, text) =>
      if !ok then Fail("API Error: " + statusText)
      else if text == "" then Ok(None)
      else match parse(text)
        case Ok(v) => Ok(Some(v))
        case Fail(m) => Fail(m)
  }

  /** A failed response's body is never read: two error responses with the
      same status text fail the same way, whatever the server said. */
  lemma ServerMessageIgnored<T>(statusText: string, text1: string, text2: string, parse: string -> Outcome<T>)
    ensures Classify(Received(false, statusText, text1), parse) == Classify(Received(false, statusText, text2), parse)
  {
  }

  /** A success never fails on an empty body (such as a DELETE reply). */
  lemma EmptySuccessIsNull<T>(statusText: string, parse: string -> Outcome<T>)
    ensures Classify(Received(true, statusText, ""), parse) == Ok(None)
  {
  }
}
