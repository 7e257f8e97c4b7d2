/** The field checks the login and registration screens share. The email
    pattern (android.util.Patterns.EMAIL_ADDRESS) is a parameter, `isEmail`;
    nothing is assumed of it. */
module FormRules {
  import opened Common
  import opened Text
  import opened ActionStates

  const EmailEmpty := "Email cannot be empty"
  const InvalidEmail := "Invalid email format"
  const PasswordEmpty := "Password cannot be empty"
  const FullNameEmpty := "Full name cannot be empty"
  const EmailExists := "Email already exists"

  /** The Login and Register buttons are enabled exactly when no request
      is in flight. */
  function ButtonEnabled(state: ActionState): (enabled: bool)
    ensures enabled <==> state != Loading
  {
    !state.Loading?
  }

  /** The error a button click sets on the email field, if any: blankness is
      checked first, the pattern only for a non-blank email. */
  function EmailError(email: string, isEmail: string -> bool): (e: Option<string>)
    ensures e.None? <==> !IsBlank(email) && isEmail(email)
    ensures IsBlank(email) ==> e == Some(EmailEmpty)
    ensures !IsBlank(email) && !isEmail(email) ==> e == Some(InvalidEmail)
  {
    if IsBlank(email) then Some(EmailEmpty)
    else if !isEmail(email) then Some(InvalidEmail)
    else None
  }

  /** The "cannot be empty" check of one field: `message` exactly when the
      value is blank. */
  function BlankError(value: string, message: string): (e: Option<string>)
    ensures e.None? <==> !IsBlank(value)
    ensures e.Some? ==> e.value == message
  {
    if IsBlank(value) then Some(message) else None
  }

  /** A blank email is reported as empty whatever the pattern says of it, so
      the pattern is never consulted for it. */
  lemma BlankEmailIgnoresPattern(email: string, isEmail1: string -> bool, isEmail2: string -> bool)
    requires IsBlank(email)
    ensures EmailError(email, isEmail1) == EmailError(email, isEmail2) == Some(EmailEmpty)
  {
  }
}
