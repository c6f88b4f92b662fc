/**
 * The parts of the PSR-7 and PSR-15 interfaces that the error-handling middleware touches.
 * Requests, responses and request handlers are opaque values; the only operation on them that
 * the middleware uses is `withAttribute` on a server request.
 */
module Psr {

  /** The two kinds of PHP `Throwable`: `Exception` and `Error`. */
  datatype Category = Exception | Error

  /** A thrown object: its kind, and an identity standing for everything else about it. */
  datatype Throwable = Throwable(category: Category, id: nat)

  /** A value stored as a request attribute: a thrown object, or anything else. */
  datatype AttributeValue = ThrowableValue(thrown: Throwable) | OtherValue(id: nat)

  /** A server request: an identity for everything the middleware does not look at, plus its attributes. */
  datatype Request = Request(id: nat, attributes: map<string, AttributeValue>)

  /** A response; the middleware never looks inside one. */
  datatype Response = Response(id: nat)

  /** A request handler (`RequestHandlerInterface`), known only by its identity. */
  datatype Handler = Handler(id: nat)

  /** What a call into a handler or a middleware does: return a response, or throw. */
  datatype Outcome = Returned(response: Response) | Threw(thrown: Throwable)

  /**
   * `ServerRequestInterface::withAttribute`: a new request instance that binds `name` to `value`.
   * The contract below is the interface's promise, read pointwise off the map update that
   * defines the function here: every other attribute, and everything else in the request, is as
   * in `request`. Being a value, `request` itself is never changed.
   */
  function WithAttribute(request: Request, name: string, value: AttributeValue): (r: Request)
    ensures r.id == request.id
    ensures name in r.attributes && r.attributes[name] == value
    ensures forall other :: other != name ==>
      (other in r.attributes <==> other in request.attributes) &&
      (other in r.attributes ==> r.attributes[other] == request.attributes[other])
  {
    Request(request.id, request.attributes[name := value])
  }
}
