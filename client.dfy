/** The web service client: its configuration fields and the GET/POST
    routines that shape a request, send it once and hand the outcome to the
    completion callback. A callback is modelled by the sequence of values it
    was invoked with; the network's answer is a parameter. */
module Client {
  import opened Base
  import opened Requests
  import opened Results

  class WebServiceClient {
    var serviceUrl: string
    var debug: bool
    var sendLoginTokenViaGetMethod: bool

    /** The field initialisers of the component. */
    constructor ()
      ensures serviceUrl == "http://localhost/tbrpg-php-service"
      ensures !debug && !sendLoginTokenViaGetMethod
    {
      serviceUrl := "http://localhost/tbrpg-php-service";
      debug := false;
      sendLoginTokenViaGetMethod := false;
    }

    /** Adds the token to the path when tokens travel in the query string
        (the first step of both routines). */
    method QueryPath(path: string, loginToken: string) returns (p: string)
      ensures p == TokenPath(path, loginToken, sendLoginTokenViaGetMethod)
    {
      p := path;
      if sendLoginTokenViaGetMethod && loginToken != "" {
        if '?' in p {
          p := p + "&" + LoginTokenParam + loginToken;
        } else {
          p := p + "?" + LoginTokenParam + loginToken;
        }
      }
    }

    /** Sets the headers of a freshly built request: the bearer token when it
        does not travel in the query string, then `Accept` and `Content-Type`. */
    method SetHeaders(www: WebRequest, loginToken: string)
      requires www.headers == map[]
      modifies www
      ensures www.headers == RequestHeaders(loginToken, sendLoginTokenViaGetMethod)
      ensures www.response == old(www.response)
    {
      if !sendLoginTokenViaGetMethod && loginToken != "" {
        www.SetRequestHeader("Authorization", "Bearer " + loginToken);
      }
      www.SetRequestHeader("Accept", JsonMediaType);
      www.SetRequestHeader("Content-Type", JsonMediaType);
    }

    /** One GET exchange. `hasOnDone` says whether a callback was given;
        `onDone` lists its invocations. */
    method GetRoutine(path: string, loginToken: string, hasOnDone: bool, exchange: Response)
      returns (www: WebRequest, onDone: seq<Response>)
      ensures fresh(www)
      ensures www.verb == GET && www.uploadData == None
      ensures www.url == serviceUrl + TokenPath(path, loginToken, sendLoginTokenViaGetMethod)
      ensures www.headers == RequestHeaders(loginToken, sendLoginTokenViaGetMethod)
      ensures www.response == Some(exchange)
      ensures onDone == if hasOnDone then [exchange] else []
    {
      var p := QueryPath(path, loginToken);
      www := new WebRequest.Get(serviceUrl + p);
      SetHeaders(www, loginToken);
      www.SendWebRequest(exchange);
      onDone := [];
      if hasOnDone {
        onDone := onDone + [www.response.value];
      }
    }

    /** One POST exchange carrying `data` as its body. */
    method PostRoutine(path: string, data: string, loginToken: string, hasOnDone: bool, exchange: Response)
      returns (www: WebRequest, onDone: seq<Response>)
      ensures fresh(www)
      ensures www.verb == POST && www.uploadData == Some(data)
      ensures www.url == serviceUrl + TokenPath(path, loginToken, sendLoginTokenViaGetMethod)
      ensures www.headers == RequestHeaders(loginToken, sendLoginTokenViaGetMethod)
      ensures www.response == Some(exchange)
      ensures onDone == if hasOnDone then [exchange] else []
    {
      var p := QueryPath(path, loginToken);
      www := new WebRequest.Post(serviceUrl + p, data);
      SetHeaders(www, loginToken);
      www.SendWebRequest(exchange);
      onDone := [];
      if hasOnDone {
        onDone := onDone + [www.response.value];
      }
    }

    /** A GET whose outcome is classified into a typed result and delivered
        to the caller exactly once. */
    method GetAsDecodedJSON<D>(path: string, loginToken: string, exchange: Response,
                               zero: D, deserialize: string -> ServiceResult<D>)
      returns (www: WebRequest, onDone: seq<ServiceResult<D>>)
      ensures fresh(www)
      ensures www.verb == GET && www.uploadData == None
      ensures www.url == serviceUrl + TokenPath(path, loginToken, sendLoginTokenViaGetMethod)
      ensures www.headers == RequestHeaders(loginToken, sendLoginTokenViaGetMethod)
      ensures onDone == [Classify(exchange, zero, deserialize)]
    {
      var raw;
      www, raw := GetRoutine(path, loginToken, true, exchange);
      // every invocation of the inner callback classifies and forwards once
      onDone := seq(|raw|, k requires 0 <= k < |raw| => Classify(raw[k], zero, deserialize));
    }

    /** A POST whose outcome is classified into a typed result and delivered
        to the caller exactly once. */
    method PostAsDecodedJSON<D>(path: string, data: string, loginToken: string, exchange: Response,
                                zero: D, deserialize: string -> ServiceResult<D>)
      returns (www: WebRequest, onDone: seq<ServiceResult<D>>)
      ensures fresh(www)
      ensures www.verb == POST && www.uploadData == Some(data)
      ensures www.url == serviceUrl + TokenPath(path, loginToken, sendLoginTokenViaGetMethod)
      ensures www.headers == RequestHeaders(loginToken, sendLoginTokenViaGetMethod)
      ensures onDone == [Classify(exchange, zero, deserialize)]
    {
      var raw;
      www, raw := PostRoutine(path, data, loginToken, true, exchange);
      // every invocation of the inner callback classifies and forwards once
      onDone := seq(|raw|, k requires 0 <= k < |raw| => Classify(raw[k], zero, deserialize));
    }
  }
}
