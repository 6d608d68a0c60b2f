/** Request shaping: where the login token goes (query string or
    `Authorization` header), which headers every request carries, and the
    request object that `GetRoutine`/`PostRoutine` fill in step by step. */
module Requests {
  import opened Base

  datatype Verb = GET | POST

  /** What the transport reports once a request has been sent: the two
      failure flags of the request object and the downloaded body text. */
  datatype Response = Response(isHttpError: bool, isNetworkError: bool, text: string)

  const LoginTokenParam: string := "logintoken="
  const JsonMediaType: string := "application/json"

  /** The character that joins a new query parameter onto `path`: `&` once
      the path already has a query string, `?` otherwise. */
  function Separator(path: string): (c: char)
    ensures c == '&' <==> '?' in path
    ensures c == '?' <==> '?' !in path
  {
    if '?' in path then '&' else '?'
  }

  /** `path` with the query parameter text `param` appended by the `?`/`&` rule. */
  function AppendQuery(path: string, param: string): (r: string)
    ensures |r| == |path| + 1 + |param|
    ensures r[..|path|] == path && r[|path|] == Separator(path) && r[|path| + 1..] == param
  {
    path + [Separator(path)] + param
  }

  /** The path a request is sent to: the login token is added as the
      `logintoken` query parameter when tokens travel in the query string and
      the token is not empty; otherwise the path is left as it is. */
  function TokenPath(path: string, loginToken: string, viaGet: bool): (r: string)
    ensures |path| <= |r| && r[..|path|] == path
    ensures r == path <==> !(viaGet && loginToken != "")
  {
    if viaGet && loginToken != "" then AppendQuery(path, LoginTokenParam + loginToken) else path
  }

  /** The headers a request ends up with: `Accept` and `Content-Type` always,
      `Authorization: Bearer <token>` exactly when the token is not empty and
      tokens do not travel in the query string. */
  function RequestHeaders(loginToken: string, viaGet: bool): (h: map<string, string>)
    ensures "Accept" in h && h["Accept"] == JsonMediaType
    ensures "Content-Type" in h && h["Content-Type"] == JsonMediaType
    ensures "Authorization" in h <==> !viaGet && loginToken != ""
    ensures "Authorization" in h ==> h["Authorization"] == "Bearer " + loginToken
    ensures h.Keys <= {"Accept", "Content-Type", "Authorization"}
  {
    var auth := if !viaGet && loginToken != "" then map["Authorization" := "Bearer " + loginToken] else map[];
    auth["Accept" := JsonMediaType]["Content-Type" := JsonMediaType]
  }

  /** With a non-empty token sent in the query string, the final path is the
      original path, `&` or `?`, `logintoken=` and the token, in that order. */
  lemma TokenQueryForm(path: string, loginToken: string)
    requires loginToken != ""
    ensures TokenPath(path, loginToken, true)
         == path + (if '?' in path then "&" else "?") + "logintoken=" + loginToken
  {
  }

  /** The number of `?` characters after adding the token: one more than
      before when the path had none, unchanged when it had one already, plus
      whatever the (unescaped) token itself contains. */
  lemma QuestionMarkCount(path: string, loginToken: string, viaGet: bool)
    ensures Count(TokenPath(path, loginToken, viaGet), '?')
         == if viaGet && loginToken != ""
            then Count(path, '?') + (if '?' in path then 0 else 1) + Count(loginToken, '?')
            else Count(path, '?')
  {
    if viaGet && loginToken != "" {
      var sep := Separator(path);
      CountAppend(path, [sep], '?');
      CountAppend(path + [sep], LoginTokenParam + loginToken, '?');
      CountAppend(LoginTokenParam, loginToken, '?');
      CountPositive(LoginTokenParam, '?');
      assert '?' !in LoginTokenParam;
      assert Count([sep], '?') == if '?' in path then 0 else 1;
    }
  }

  /** For a token free of `?`: a path without a query string ends up with
      exactly one `?`, and a path that has one keeps its count. */
  lemma SingleQueryString(path: string, loginToken: string, viaGet: bool)
    requires '?' !in loginToken
    ensures '?' !in path ==> Count(TokenPath(path, loginToken, viaGet), '?') == (if viaGet && loginToken != "" then 1 else 0)
    ensures '?' in path ==> Count(TokenPath(path, loginToken, viaGet), '?') == Count(path, '?')
  {
    QuestionMarkCount(path, loginToken, viaGet);
    CountPositive(loginToken, '?');
    CountPositive(path, '?');
  }

  /** A non-empty token is placed exactly once: in the query string when
      `viaGet` holds, in the `Authorization` header otherwise; never both,
      never neither. An empty token is placed nowhere. */
  lemma CredentialPlacement(path: string, loginToken: string, viaGet: bool)
    ensures loginToken != "" ==>
      (TokenPath(path, loginToken, viaGet) != path <==> viaGet) &&
      ("Authorization" in RequestHeaders(loginToken, viaGet) <==> !viaGet)
    ensures loginToken != "" ==>
      (TokenPath(path, loginToken, viaGet) != path) != ("Authorization" in RequestHeaders(loginToken, viaGet))
    ensures loginToken == "" ==>
      TokenPath(path, loginToken, viaGet) == path && "Authorization" !in RequestHeaders(loginToken, viaGet)
  {
  }

  /** The request object of the transport layer. Its target, verb and upload
      body are fixed when it is created; headers are set one by one and the
      response arrives when it is sent. */
  class WebRequest {
    const verb: Verb
    const url: string
    const uploadData: Option<string>
    var headers: map<string, string>
    var response: Option<Response>

    /** A GET request to `url`: no body, no headers yet, not sent. */
    constructor Get(url: string)
      ensures verb == GET && this.url == url && uploadData == None
      ensures headers == map[] && response == None
    {
      verb := GET;
      this.url := url;
      uploadData := None;
      headers := map[];
      response := None;
    }

    /** A POST request to `url` carrying `data`: no headers yet, not sent. */
    constructor Post(url: string, data: string)
      ensures verb == POST && this.url == url && uploadData == Some(data)
      ensures headers == map[] && response == None
    {
      verb := POST;
      this.url := url;
      uploadData := Some(data);
      headers := map[];
      response := None;
    }

    /** Sets (or replaces) one header. */
    method SetRequestHeader(name: string, value: string)
      modifies this
      ensures headers == old(headers)[name := value]
      ensures response == old(response)
    {
      headers := headers[name := value];
    }

    /** Performs the single network exchange; what the network answers is
        `exchange`. */
    method SendWebRequest(exchange: Response)
      modifies this
      ensures response == Some(exchange)
      ensures headers == old(headers)
    {
      response := Some(exchange);
    }
  }
}
