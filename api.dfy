/**
 * What the HTTP layer hands to and takes from the controllers: the caller that
 * the authentication middleware resolved from the bearer token, the role names,
 * and a reply carrying the status code the controller sends.
 */
module Api {

  type UserId = nat

  const Admin := "admin"
  const User := "user"

  /** `req.user`, already authenticated: an account id and a role. */
  datatype Caller = Caller(id: UserId, role: string)

  predicate IsAdmin(caller: Caller) {
    caller.role == Admin
  }

  const OK: nat := 200
  const CREATED: nat := 201
  const BAD_REQUEST: nat := 400
  const UNAUTHORIZED: nat := 401
  const NOT_FOUND: nat := 404
  const SERVER_ERROR: nat := 500

  /** `res.status(code).json(value)` on success, `res.status(code).json({message})` on failure. */
  datatype Reply<+T> = Ok(code: nat, value: T) | Err(code: nat)
}
