/** Register-or-login: register first, log in only after a successful
    registration, and report exactly one result to the caller. */
module Auth {
  import opened Requests
  import opened Results

  /** The backend calls the composite operation can issue. */
  datatype Call = Register(username: string, password: string) | Login(username: string, password: string)

  /** What one composite operation did: the calls it issued, in order, and
      every invocation of the caller's completion callback. */
  datatype Trace<D> = Trace(calls: seq<Call>, finished: seq<ServiceResult<D>>)

  /** Register-or-login over the results the two calls would deliver:
      `register` and `login` give the decoded result of each call for the
      given credentials. */
  function RegisterOrLogin<D>(username: string, password: string,
                              register: (string, string) -> ServiceResult<D>,
                              login: (string, string) -> ServiceResult<D>): (t: Trace<D>)
    ensures |t.calls| >= 1 && t.calls[0] == Register(username, password)
    ensures Login(username, password) in t.calls <==> register(username, password).Success()
    ensures |t.finished| == 1
    ensures !register(username, password).Success() ==>
      t.calls == [Register(username, password)] && t.finished == [register(username, password)]
    ensures register(username, password).Success() ==>
      t.calls == [Register(username, password), Login(username, password)] &&
      t.finished == [login(username, password)]
  {
    var registerResult := register(username, password);
    if registerResult.Success() then
      Trace([Register(username, password), Login(username, password)], [login(username, password)])
    else
      Trace([Register(username, password)], [registerResult])
  }

  /** When the registration request fails in transport (an HTTP or a network
      error), no login is issued and the caller receives the client's own
      error code with zero fields, whatever the login would have returned. */
  lemma RegisterTransportFailureStops<D>(username: string, password: string, www: Response, zero: D,
                                         deserialize: string -> ServiceResult<D>,
                                         register: (string, string) -> ServiceResult<D>,
                                         login: (string, string) -> ServiceResult<D>)
    requires register(username, password) == Classify(www, zero, deserialize)
    requires www.isHttpError || www.isNetworkError
    ensures RegisterOrLogin(username, password, register, login).calls == [Register(username, password)]
    ensures var f := RegisterOrLogin(username, password, register, login).finished;
      f == [ServiceResult(if www.isHttpError then Unknow else Network, zero)]
  {
  }
}
