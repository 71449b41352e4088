/** Requests, responses and the error taxonomy the login controller speaks.

The response helpers (`badRequest`, `unauthorized`, `serverError`, `ok`) and the
error classes live in a protocols module that is not part of this model; they
are represented here by abstract constructors, without status codes.
 */
module Http {

  datatype Option<+T> = None | Some(value: T)

  /** A request body: field name to text. A field that is absent, `undefined`
      or `null` in the request is a key missing from the map. */
  type Body = map<string, string>

  /** The inbound request. `body` is `None` when the request carries no body at all. */
  datatype Request = Request(body: Option<Body>)

  /** The two domain errors a 400 response can carry. */
  datatype ParamError = MissingParam(name: string) | InvalidParam(name: string)

  /** What was caught by the controller's outer `catch`. `ErrorStack` is an error
      object raised by a collaborator, with its opaque `stack` text;
      `BodyTypeError` is the runtime's own error for reading a field of an
      undefined body, whose stack text the model leaves abstract. */
  datatype Thrown = ErrorStack(stack: string) | BodyTypeError

  /** The outcome of `handle`. `NoResponse` is the `undefined` the handler
      resolves to when it falls off the end of its body. */
  datatype Response =
    | BadRequest(error: ParamError)
    | Unauthorized
    | ServerErr(fault: Thrown)
    | Ok(accessToken: string)
    | NoResponse

  /** Looks a field up in a body; absent fields are `None`. */
  function Field(body: Body, name: string): Option<string>
  {
    if name in body then Some(body[name]) else None
  }

  /** JavaScript truthiness of an optional text: absent and `""` are falsy. */
  predicate Truthy(v: Option<string>)
  {
    v.Some? && v.value != ""
  }
}
