/** `LoginController.handle` as a pure function of the request and of what its
    two collaborators do, returning the response together with the calls made.

`HandleAsWritten` follows the handler step by step, including its missing
`return` on the success path. The `for … of` loop over the required fields
appears there as the function `MissingField`, which the loop method
`CheckRequiredFields` is proved equal to; `Handle` is the same handler with that `return`
in place, and is the one whose contract states the controller's behaviour.
 */
module Login {
  import opened Http
  import opened Collaborators
  import opened RequiredFields

  /** What one invocation of `handle` produced, and the collaborator calls it
      made on the way, in order. */
  datatype Outcome = Outcome(response: Response, calls: seq<Call>)

  datatype Credentials = Credentials(email: string, password: string)

  /** The credentials of a request, when its body carries a truthy `email` and
      a truthy `password`; stated directly on the two fields, independently of
      the required-field loop. */
  function CredentialsOf(req: Request): Option<Credentials>
  {
    match req.body
    case None => None
    case Some(body) =>
      var email := Field(body, "email");
      var password := Field(body, "password");
      if Truthy(email) && Truthy(password) then Some(Credentials(email.value, password.value))
      else None
  }

  /** The request has credentials and the validator accepted their email. */
  predicate ValidatorAccepted(req: Request, isValid: EmailValidator)
  {
    CredentialsOf(req).Some? && isValid(CredentialsOf(req).value.email) == Returns(true)
  }

  /** How `auth` settles on the request's credentials. */
  function AuthSettles(req: Request, isValid: EmailValidator, auth: Authentication): AuthOutcome
    requires ValidatorAccepted(req, isValid)
  {
    auth(CredentialsOf(req).value.email, CredentialsOf(req).value.password)
  }

  /** The handler as written: after the falsy-token check the `try` block ends
      and the function resolves to `undefined`. */
  function HandleAsWritten(req: Request, isValid: EmailValidator, auth: Authentication): (o: Outcome)
    ensures !o.response.Ok?
    ensures o.response == NoResponse <==>
              ValidatorAccepted(req, isValid)
              && AuthSettles(req, isValid, auth).Resolves?
              && Truthy(AuthSettles(req, isValid, auth).token)
    ensures Handle(req, isValid, auth).response.Ok? ==>
              o == Outcome(NoResponse, Handle(req, isValid, auth).calls)
    ensures !Handle(req, isValid, auth).response.Ok? ==> o == Handle(req, isValid, auth)
  {
    match req.body
    // Reading a field of an undefined body raises inside the `try`.
    case None => Outcome(ServerErr(BodyTypeError), [])
    case Some(body) =>
      match MissingField(LoginFields, body)
      case Some(field) => Outcome(BadRequest(MissingParam(field)), [])
      case None =>
        assert Truthy(Field(body, LoginFields[0])) && Truthy(Field(body, LoginFields[1]));
        var email := body["email"];
        var password := body["password"];
        match isValid(email)
        case Throws(stack) => Outcome(ServerErr(ErrorStack(stack)), [IsValid(email)])
        case Returns(valid) =>
          if !valid then Outcome(BadRequest(InvalidParam("email")), [IsValid(email)])
          else
            var calls := [IsValid(email), Auth(email, password)];
            match auth(email, password)
            case Rejects(stack) => Outcome(ServerErr(ErrorStack(stack)), calls)
            case Resolves(token) =>
              if !Truthy(token) then Outcome(Unauthorized, calls)
              else Outcome(NoResponse, calls)
  }

  /** The handler with the success `return` its tests expect. */
  function Handle(req: Request, isValid: EmailValidator, auth: Authentication): (o: Outcome)
    // Every path yields a response; a fault never escapes.
    ensures o.response != NoResponse
    // Required fields, `email` before `password`; no collaborator is asked.
    ensures req.body.None? ==> o == Outcome(ServerErr(BodyTypeError), [])
    ensures req.body.Some? && !Truthy(Field(req.body.value, "email")) ==>
              o == Outcome(BadRequest(MissingParam("email")), [])
    ensures req.body.Some? && Truthy(Field(req.body.value, "email"))
            && !Truthy(Field(req.body.value, "password")) ==>
              o == Outcome(BadRequest(MissingParam("password")), [])
    // Collaborators are called only with credentials: the validator first and
    // once, with exactly the email; then at most one `auth`, with exactly the
    // email and password.
    ensures CredentialsOf(req).None? <==> o.calls == []
    ensures CredentialsOf(req).Some? ==>
              var c := CredentialsOf(req).value;
              1 <= |o.calls| && o.calls <= [IsValid(c.email), Auth(c.email, c.password)]
    ensures |o.calls| == 2 <==> ValidatorAccepted(req, isValid)
    // What the validator's answer leads to.
    ensures CredentialsOf(req).Some? && isValid(CredentialsOf(req).value.email) == Returns(false) ==>
              o.response == BadRequest(InvalidParam("email"))
    ensures CredentialsOf(req).Some? && isValid(CredentialsOf(req).value.email).Throws? ==>
              o.response == ServerErr(ErrorStack(isValid(CredentialsOf(req).value.email).stack))
    // What the authenticator's settlement leads to.
    ensures ValidatorAccepted(req, isValid) ==>
              match AuthSettles(req, isValid, auth)
              case Rejects(stack) => o.response == ServerErr(ErrorStack(stack))
              case Resolves(token) =>
                o.response == if Truthy(token) then Ok(token.value) else Unauthorized
    // 401 is a rejected credential and nothing else; a fault is never a 401.
    ensures o.response.Unauthorized? <==>
              ValidatorAccepted(req, isValid)
              && AuthSettles(req, isValid, auth).Resolves?
              && !Truthy(AuthSettles(req, isValid, auth).token)
    ensures o.response.Ok? <==>
              ValidatorAccepted(req, isValid)
              && AuthSettles(req, isValid, auth).Resolves?
              && Truthy(AuthSettles(req, isValid, auth).token)
  {
    // Identical to `HandleAsWritten` except for the last branch, which answers
    // `Ok` where the code as written yields no response.
    match req.body
    case None => Outcome(ServerErr(BodyTypeError), [])
    case Some(body) =>
      match MissingField(LoginFields, body)
      case Some(field) => Outcome(BadRequest(MissingParam(field)), [])
      case None =>
        assert Truthy(Field(body, LoginFields[0])) && Truthy(Field(body, LoginFields[1]));
        var email := body["email"];
        var password := body["password"];
        match isValid(email)
        case Throws(stack) => Outcome(ServerErr(ErrorStack(stack)), [IsValid(email)])
        case Returns(valid) =>
          if !valid then Outcome(BadRequest(InvalidParam("email")), [IsValid(email)])
          else
            var calls := [IsValid(email), Auth(email, password)];
            match auth(email, password)
            case Rejects(stack) => Outcome(ServerErr(ErrorStack(stack)), calls)
            case Resolves(token) =>
              if !Truthy(token) then Outcome(Unauthorized, calls)
              else Outcome(Ok(token.value), calls)
  }

  /** The request and stubs of the test at login.spec.ts:132-140: the test
      expects `Ok("any_token")`, the handler as written yields no response. */
  lemma StubbedLoginFallsThrough()
    ensures var req := Request(Some(map["email" := "valid@mail.com", "password" := "valid_password"]));
            var isValid: EmailValidator := (e: string) => Returns(true);
            var auth: Authentication := (e: string, p: string) => Resolves(Some("any_token"));
            && Handle(req, isValid, auth).response == Ok("any_token")
            && HandleAsWritten(req, isValid, auth).response == NoResponse
  {
  }
}
