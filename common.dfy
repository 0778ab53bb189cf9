/** Shared vocabulary of the marketplace backend: identifiers, the enumerations
    of the relational schema, the service-layer errors and the abstract
    collaborators (password hashing, JWT signing). */
module Common {

  type Id = string

  datatype Option<T> = None | Some(value: T)

  /** JavaScript truthiness of an optional string: absent and "" are falsy. */
  predicate Truthy(s: Option<string>) {
    s.Some? && s.value != ""
  }

  datatype Role = USER | ADMIN

  datatype Region = INDIA | FOREIGN

  /** Task status. The four named states appear in the services; the schema
      is not part of this model, so OTHER stands for any further value an
      administrator may set through the generic status update. */
  datatype TaskStatus = SUBMITTED | ACCEPTED | IN_PROGRESS | COMPLETED | OTHER

  datatype PaymentStatus = PENDING | SUCCESS | FAILED

  /** Errors raised by the services. The first five are HTTP exceptions of the
      web framework (or, for Plain, a bare `Error`); StoreError is an error of
      the relational store itself, identified by the store's error code. */
  datatype Error =
    | BadRequest(msg: string)
    | Unauthorized(msg: string)
    | Forbidden(msg: string)
    | NotFound(msg: string)
    | Plain(msg: string)
    | StoreError(code: string)

  datatype Result<T> = Ok(value: T) | Err(error: Error) {
    predicate IsFailure() {
      Err?
    }

    function PropagateFailure<U>(): Result<U>
      requires Err?
    {
      Err(error)
    }

    function Extract(): T
      requires Ok?
    {
      value
    }
  }

  /** Store error code for a violated unique constraint. */
  const UNIQUE_VIOLATION: string := "P2002"
  /** Store error code for an update of a row that does not exist. */
  const RECORD_MISSING: string := "P2025"

  /** Milliseconds in seven days. */
  const SEVEN_DAYS_MS: int := 7 * 24 * 60 * 60 * 1000

  /** The claims carried by both access and refresh tokens. */
  datatype Claims = Claims(sub: Id, email: string, role: Role)

  /** Which signing secret a JWT operation uses. */
  datatype Secret = AccessSecret | RefreshSecret

  /** The cryptographic collaborators, left uninterpreted.
      hash(password) is bcrypt's hash; compare(plain, hashed) is bcrypt's check;
      sign(claims, secret, now) and verify(token, secret, now) are the JWT
      service (verify yields None for a bad signature or an expired token). */
  datatype Crypto = Crypto(
    hash: string -> string,
    compare: (string, string) -> bool,
    sign: (Claims, Secret, int) -> string,
    verify: (string, Secret, int) -> Option<Claims>)
}
