# Login controller — a Dafny model

This project models `LoginController.handle` of the login API: the handler
that takes a login request, checks that `email` and `password` are present
and non-empty (JavaScript truthiness, so `""` counts as missing), asks an
injected `EmailValidator` whether the email is well formed, asks an injected
`Authentication` service for an access token, and maps each outcome to a
response: a bad request naming the missing or invalid parameter, an
unauthorized response, or a server error carrying the caught fault's stack. On
success the code as written gives no response at all: it falls off the end of
the handler (see Findings). `Handle` restores the `ok` answer carrying the
token.

The handler is modelled as a pure function. What the two collaborators do is an
input: the validator is a total function from the email to
`Returns(valid) | Throws(stack)`, and the authenticator is a total function from
`(email, password)` to how its promise settles, `Resolves(token) | Rejects(stack)`.
A synchronous throw from `auth`, before it returns a promise, reaches the same
`catch` and is folded into `Rejects(stack)`.
Besides the response, the handler returns the trace of collaborator calls it
made, `[IsValid(email), Auth(email, password)]` or a prefix of it. This makes
"never called" and "called once with exactly these arguments" statable.

Files and modules:

- `http.dfy`, module `Http`: the request (an optional body mapping field names
  to text), the error taxonomy (`MissingParam`, `InvalidParam`), what a `catch`
  can receive, the response, and JavaScript truthiness of an optional text.
  An absent, `undefined` or `null` field is a missing key. The empty string is
  present but falsy.
- `collaborators.dfy`, module `Collaborators`: the collaborator outcomes and
  the call trace.
- `required_fields.dfy`, module `RequiredFields`: the ordered required-field
  check. It has a recursive reference definition (`FirstMissingIndex`) and the
  handler's `for … of` loop as a method (`CheckRequiredFields`) proved equal to it.
- `login.dfy`, module `Login`: the handler as written (`HandleAsWritten`) and
  the handler with its missing success `return` restored (`Handle`).

Two behaviours of the code that a reader might not expect:

- When the request has no body at all, `httpRequest.body[field]` raises inside
  the `try`. The outer `catch` turns that into a server error, so the model
  answers `ServerErr(BodyTypeError)` with no collaborator called.
- The handler as written never answers on success (see Findings).

Calls with identical inputs and identical collaborator behaviour give identical
outcomes. That holds by construction, because the model is a function.

## Model

| member | source | states |
|---|---|---|
| `RequiredFields.FirstMissingIndex` | src/presentation/controllers/login/login.ts:12-17 | the position it returns is that of the first absent-or-falsy field: every earlier field is truthy, and the one at the position is falsy unless every field is truthy |
| `RequiredFields.MissingField` | src/presentation/controllers/login/login.ts:12-17 | no field is reported exactly when every required field is truthy; a reported field is the first of the required fields, in list order, that is absent or falsy in the body, every field before it being truthy |
| `RequiredFields.CheckRequiredFields` | src/presentation/controllers/login/login.ts:13-17 | the loop that returns at the first falsy field reports exactly the field the reference definition reports |
| `RequiredFields.FirstMissingAppend` | src/presentation/controllers/login/login.ts:12-16 | checking a list of fields in order is checking its first part and then, only if that part is complete, its second part |
| `RequiredFields.EmailBeforePassword` | src/presentation/controllers/login/login.ts:12-16 | on the login field list, a falsy `email` is reported whatever the password; `password` is reported only when the email is truthy and the password is absent or falsy; nothing is reported when both are truthy |
| `Login.Handle` | src/presentation/controllers/login/login.ts:10-31 | every path yields a response. With no body, the result is a server error and nothing is called. A falsy `email` gives `MissingParam("email")` whatever the password; a truthy email with a falsy `password` gives `MissingParam("password")`; in both cases no collaborator is called. Collaborators are called only when both fields are truthy. The validator is then called first and once, with exactly the email. `auth` is called at most once, after it, with exactly the email and password, and only if the validator returned true. A false answer gives `InvalidParam("email")`. A validator throw or an `auth` rejection gives a server error carrying that fault's stack. A falsy token gives `Unauthorized`; a truthy token gives `Ok(token)`. `Unauthorized` arises only from a resolved falsy token, never from a fault |
| `Login.HandleAsWritten` | src/presentation/controllers/login/login.ts:10-33 | the handler as written never answers `Ok`. It yields no response exactly when the validator accepted and `auth` resolved a truthy token; then its call trace is the corrected handler's. On every other input it agrees with the corrected handler |
| `Login.StubbedLoginFallsThrough` | src/presentation/controllers/login/login.spec.ts:132-140 | with the test's request and stubs (validator returns true, `auth` resolves `"any_token"`), the corrected handler answers `Ok("any_token")`, as the test expects, and the handler as written yields no response |

## Left out

- Status codes and the concrete shapes produced by `badRequest`, `unauthorized`, `serverError` and `ok`: these helpers and the error classes are defined in `login-protocols`, which is not part of this model. They appear as the abstract constructors of `Http.Response` and `Http.ParamError`.
- The stack text of a caught error is opaque. For the runtime error raised by reading a field of a missing body, the model does not know the text and uses the abstract value `BodyTypeError`.
- Faults that are not `Error` objects. A thrown `null` or `undefined` makes `error.stack` in the `catch` itself raise, which rejects the handler's promise. A thrown string, number or plain object without a stack gives `serverError(new ServerError(undefined))`. Faults are modelled as error objects with a text stack.
- Body values that are not text, such as numbers or booleans, and JavaScript falsiness for them: fields are text or absent.
- Promise and async machinery: the single `await` is strictly sequential after the validator call, so `auth`'s settled result is an input value.
- The real `EmailValidator` and `Authentication` implementations, HTTP transport and request parsing.
- Test-framework spying and mocking: replaced by the explicit call trace.

## Findings

| source | as written | input that shows it | evidently intended | confidence | as-written member | corrected member |
|---|---|---|---|---|---|---|
| src/presentation/controllers/login/login.ts:26-33 | after the falsy-token check the `try` block ends with no `return`, so a successful login resolves to `undefined`; `ok` is not even imported at line 1 | body `{email: "valid@mail.com", password: "valid_password"}`, validator returns true, `auth` resolves `"any_token"` (the test at login.spec.ts:132-140) | answer `ok({accessToken: token})` | high; not executed | `Login.HandleAsWritten` (with `Login.StubbedLoginFallsThrough`) | `Login.Handle` |

The test at login.spec.ts:132-140 is titled "Should return 500 if Authentication
throws". This repeats the previous test's title, but the test itself checks the
success response.
