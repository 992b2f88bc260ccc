/**
 * The user manager's password rule and the lifetime of database access
 * tokens.
 */
module AuthDependables {
  import opened Wrappers
  import Auth

  const ACCESS_TOKEN_LIFETIME_IN_SECONDS: int := 3600

  /** The shortest password `validate_password` lets through. */
  const MINIMUM_PASSWORD_LENGTH: int := 8

  datatype InvalidPasswordReason = PasswordTooShort {
    function Value(): string {
      "PASSWORD_TOO_SHORT"
    }
  }

  datatype InvalidPasswordException = InvalidPasswordException(reason: InvalidPasswordReason)

  /** `UserManager.validate_password`: raises (Some) exactly for a password of
      fewer than 8 characters, always with reason PASSWORD_TOO_SHORT; a
      password of 8 characters or more passes. The user is not consulted. */
  function ValidatePassword<U>(password: string, user: U): (r: Option<InvalidPasswordException>)
    ensures r.Some? <==> |password| < MINIMUM_PASSWORD_LENGTH
    ensures r.Some? ==> r.value.reason == PasswordTooShort && r.value.reason.Value() == "PASSWORD_TOO_SHORT"
  {
    if |password| < 8 then Some(InvalidPasswordException(PasswordTooShort)) else None
  }

  /** The outcome depends on the password alone. */
  lemma PasswordIgnoresUser<U>(password: string, u1: U, u2: U)
    ensures ValidatePassword(password, u1) == ValidatePassword(password, u2)
  {
  }

  /** The part of fastapi-users' `DatabaseStrategy` this project configures. */
  datatype DatabaseStrategy = DatabaseStrategy(lifetimeSeconds: int)

  /** `get_database_strategy`: tokens stored in the database live an hour,
      exactly as long as the auth cookie that carries them. */
  function GetDatabaseStrategy(): (s: DatabaseStrategy)
    ensures s.lifetimeSeconds == ACCESS_TOKEN_LIFETIME_IN_SECONDS == 3600
    ensures s.lifetimeSeconds == Auth.AUTH_COOKIE_MAX_AGE
  {
    DatabaseStrategy(ACCESS_TOKEN_LIFETIME_IN_SECONDS)
  }
}
