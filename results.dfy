/** Typed service results and the rule that turns a finished request into
    one: an HTTP error beats a network error, and only a request with
    neither has its body decoded. */
module Results {
  import opened Requests

  /** The error signal every result carries. `Unknow` and `Network` are the
      two codes the client assigns itself; every other code comes from the
      decoded body. */
  datatype ErrorCode = NoError | Unknow | Network | Domain(code: string)

  /** A typed result: its error code and the result type's own fields. */
  datatype ServiceResult<D> = ServiceResult(error: ErrorCode, data: D)
  {
    predicate Success() { error == NoError }
  }

  /** The result handed to the caller once the request `www` has finished.
      `zero` is what a freshly constructed result holds in its own fields and
      `deserialize` is the JSON decoder applied to the body text. */
  function Classify<D>(www: Response, zero: D, deserialize: string -> ServiceResult<D>): (r: ServiceResult<D>)
    ensures www.isHttpError ==> r == ServiceResult(Unknow, zero)
    ensures !www.isHttpError && www.isNetworkError ==> r == ServiceResult(Network, zero)
    ensures !www.isHttpError && !www.isNetworkError ==> r == deserialize(www.text)
  {
    var blank := ServiceResult(NoError, zero);
    if www.isHttpError then blank.(error := Unknow)
    else if www.isNetworkError then blank.(error := Network)
    else deserialize(www.text)
  }

  /** A classified result is a success exactly when the transport reported
      no failure and the decoded body itself reports success; a request that
      failed in transport never yields a success, and its fields are the
      zero fields. */
  lemma ClassifySuccess<D>(www: Response, zero: D, deserialize: string -> ServiceResult<D>)
    ensures Classify(www, zero, deserialize).Success()
        <==> !www.isHttpError && !www.isNetworkError && deserialize(www.text).Success()
    ensures (www.isHttpError || www.isNetworkError) ==>
      Classify(www, zero, deserialize).data == zero &&
      Classify(www, zero, deserialize).error in {Unknow, Network}
  {
  }

  /** The codes the client assigns itself depend on the two flags alone,
      never on the body: two requests with the same failure flags but any
      bodies and decoders classify to the same result. */
  lemma TransportFailureIgnoresBody<D>(a: Response, b: Response, zero: D,
                                       da: string -> ServiceResult<D>, db: string -> ServiceResult<D>)
    requires a.isHttpError == b.isHttpError && a.isNetworkError == b.isNetworkError
    requires a.isHttpError || a.isNetworkError
    ensures Classify(a, zero, da) == Classify(b, zero, db)
  {
  }
}
