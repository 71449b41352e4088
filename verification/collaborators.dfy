/** The two capabilities injected into the login controller, and the trace of
    calls the controller makes on them.

A collaborator's behaviour is an input of the model: the validator and the
authenticator are total functions from their arguments to what the call did —
returned a value, or raised a fault.
 */
module Collaborators {
  import opened Http

  /** What one `isValid(email)` call did. */
  datatype ValidatorOutcome = Returns(valid: bool) | Throws(stack: string)

  /** How the promise of one `auth(email, password)` call settled. A resolved
      `None` stands for `null` or `undefined`. A synchronous throw from `auth`
      reaches the same `catch` and is folded into `Rejects(stack)`. */
  datatype AuthOutcome = Resolves(token: Option<string>) | Rejects(stack: string)

  type EmailValidator = string -> ValidatorOutcome

  type Authentication = (string, string) -> AuthOutcome

  /** One call made on a collaborator, with its arguments. */
  datatype Call = IsValid(email: string) | Auth(email: string, password: string)
}
