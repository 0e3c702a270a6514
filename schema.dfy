/**
 * The client-side validation schema of the login form: an email field that
 * must be a well-formed address and a password field with a minimum length.
 * The email format check belongs to the validation library and is not part of
 * this model; its verdict is taken as a parameter.
 */
module LoginSchema {

  /** Minimum number of characters the schema demands of a password. */
  const MinPasswordLength: nat := 8

  /** The field errors the schema can report, each shown under its input. */
  datatype FieldError = InvalidEmail | InvalidPassword

  /** The password rule: long enough, and nothing else. */
  predicate PasswordAccepted(password: string) {
    |password| >= MinPasswordLength
  }

  /**
   * The field errors the schema reports for a pair of credentials, given the
   * email format verdict. The form calls its submit handler only when this
   * set is empty.
   */
  function SchemaErrors(emailWellFormed: bool, password: string): (errors: set<FieldError>)
    ensures InvalidEmail in errors <==> !emailWellFormed
    ensures InvalidPassword in errors <==> |password| < MinPasswordLength
    ensures errors <= {InvalidEmail, InvalidPassword}
    ensures errors == {} <==> emailWellFormed && PasswordAccepted(password)
  {
    (if emailWellFormed then {} else {InvalidEmail}) +
    (if PasswordAccepted(password) then {} else {InvalidPassword})
  }

}
