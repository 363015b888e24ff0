/** Driver errors, the domain errors they become, and the status codes a caller sees. */
module Errors {
  datatype PgCode = UniqueViolation | InvalidTextRepresentation | ForeignKeyViolation | OtherCode

  /** What database/sql hands back: no row, a PostgreSQL error, or anything else (network, context). */
  datatype DriverError = NoRows | Pg(code: PgCode, constraint: string, text: string) | Io

  /** A failure of the call itself; an empty answer is not one of those. */
  type IoError = e: DriverError | !e.NoRows? witness Io

  datatype DomainError =
    | InvalidUserId | InvalidEmail | InvalidUsername | InvalidPasswordHash | InvalidVerificationCode
    | EmailAlreadyTaken | CredentialsAlreadyExist | AuthNotFound | EmailNotVerified
    | InvalidCredentials | InvalidRefreshToken | RefreshTokenExpired | RefreshTokenRevoked
    | FailedToCreateCredential | FailedToCreateVerificationCode | FailedToVerifyEmail
    | FailedToCreateRefreshToken | FailedToRotateRefreshToken | FailedToFindCredential
    | FailedToDeactivateCredential | FailedToDeleteCredential
    | SigningFailed  // raised by the token signer; no domain sentinel

  const PRIMARY_KEY := "auth_credentials_pkey"
  const EMAIL_KEY := "auth_credentials_email_key"

  /** `strings.Contains`. */
  predicate Contains(s: string, part: string) {
    part <= s || (s != [] && Contains(s[1..], part))
  }

  predicate OccursAt(s: string, part: string, i: int) {
    0 <= i <= |s| - |part| && s[i..i + |part|] == part
  }

  lemma {:induction false} ContainsMeans(s: string, part: string)
    ensures Contains(s, part) <==> exists i :: OccursAt(s, part, i)
  {
    if part <= s {
      assert OccursAt(s, part, 0);
    } else if s != [] {
      ContainsMeans(s[1..], part);
      if i :| OccursAt(s, part, i) {
        assert i > 0 && OccursAt(s[1..], part, i - 1);
      }
      if i :| OccursAt(s[1..], part, i) {
        assert OccursAt(s, part, i + 1);
      }
    }
  }

  function TranslateCreateCredential(e: DriverError): DomainError {
    if e.Pg? && e.code.UniqueViolation? then
      if e.constraint == PRIMARY_KEY then CredentialsAlreadyExist
      else if e.constraint == EMAIL_KEY then EmailAlreadyTaken
      else if Contains(e.text, PRIMARY_KEY) then CredentialsAlreadyExist
      else if Contains(e.text, EMAIL_KEY) then EmailAlreadyTaken
      else FailedToCreateCredential
    else if e.Pg? && e.code.InvalidTextRepresentation? then InvalidUserId
    else FailedToCreateCredential
  }

  /** A duplicate is told by the constraint named, or else by the message, where the primary key counts first. */
  lemma DuplicateIsTold(constraint: string, text: string)
    ensures TranslateCreateCredential(Pg(UniqueViolation, constraint, text))
            == if constraint == "auth_credentials_pkey" then CredentialsAlreadyExist
               else if constraint == "auth_credentials_email_key" then EmailAlreadyTaken
               else if exists i :: OccursAt(text, "auth_credentials_pkey", i) then CredentialsAlreadyExist
               else if exists i :: OccursAt(text, "auth_credentials_email_key", i) then EmailAlreadyTaken
               else FailedToCreateCredential
  {
    ContainsMeans(text, PRIMARY_KEY);
    ContainsMeans(text, EMAIL_KEY);
  }

  function TranslateCreateVerificationCode(e: DriverError): DomainError {
    if e.Pg? && e.code.InvalidTextRepresentation? then InvalidUserId
    else if e.Pg? && e.code.ForeignKeyViolation? then AuthNotFound
    else FailedToCreateVerificationCode
  }

  function TranslateVerifyEmail(e: DriverError): DomainError {
    if e.NoRows? then InvalidVerificationCode
    else if e.Pg? && e.code.InvalidTextRepresentation? then InvalidUserId
    else FailedToVerifyEmail
  }

  function TranslateCreateRefreshToken(e: DriverError): DomainError {
    if e.Pg? && e.code.InvalidTextRepresentation? then InvalidUserId
    else if e.Pg? && e.code.ForeignKeyViolation? then AuthNotFound
    else FailedToCreateRefreshToken
  }

  function TranslateRotateRefreshToken(e: DriverError): DomainError {
    if e.Pg? && e.code.InvalidTextRepresentation? then InvalidRefreshToken
    else if e.Pg? && e.code.ForeignKeyViolation? then AuthNotFound
    else FailedToRotateRefreshToken
  }

  function TranslateFindCredential(e: DriverError): DomainError {
    if e.NoRows? then AuthNotFound else FailedToFindCredential
  }

  function TranslateDeactivateCredential(e: DriverError): DomainError {
    if e.Pg? && e.code.InvalidTextRepresentation? then InvalidUserId else FailedToDeactivateCredential
  }

  function TranslateDeleteCredential(e: DriverError): DomainError {
    FailedToDeleteCredential
  }

  // ---- gRPC ----

  datatype StatusCode = OK | Unauthenticated | InvalidArgument | Internal

  function RefreshStatus(e: DomainError): StatusCode {
    match e
    case InvalidRefreshToken => Unauthenticated
    case RefreshTokenExpired | RefreshTokenRevoked | InvalidCredentials | AuthNotFound => Unauthenticated
    case _ => Internal
  }

  function SignOutStatus(e: DomainError): StatusCode {
    match e
    case InvalidRefreshToken => InvalidArgument
    case RefreshTokenExpired | RefreshTokenRevoked | InvalidCredentials | AuthNotFound => Unauthenticated
    case _ => Internal
  }
}
