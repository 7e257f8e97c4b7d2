/** The state behind LoginMainContent in LoginScreen.kt: the two fields and
    their errors, the Login button's handler and the reaction to Success.
    Navigation and the snackbar are not modelled. */
module LoginScreen {
  import opened Common
  import opened Text
  import opened ActionStates
  import opened FormRules
  import Login

  class LoginForm {
    var email: string
    var password: string
    var emailError: Option<string>
    var passwordError: Option<string>
    const isEmail: string -> bool

    constructor(isEmail: string -> bool)
      ensures email == "" && password == "" && emailError == None && passwordError == None
      ensures this.isEmail == isEmail
    {
      email := "";
      password := "";
      emailError := None;
      passwordError := None;
      this.isEmail := isEmail;
    }

    method ClearFieldErrors()
      modifies this`emailError, this`passwordError
      ensures emailError == None && passwordError == None
    {
      emailError := None;
      passwordError := None;
    }

    /** Editing the email clears both errors. */
    method OnEmailChange(value: string)
      modifies this`email, this`emailError, this`passwordError
      ensures email == value && emailError == None && passwordError == None
    {
      email := value;
      ClearFieldErrors();
    }

    /** Editing the password clears both errors. */
    method OnPasswordChange(value: string)
      modifies this`password, this`emailError, this`passwordError
      ensures password == value && emailError == None && passwordError == None
    {
      password := value;
      ClearFieldErrors();
    }

    /** The Login button's `onClick`, reachable only while the button is
      enabled. Each failing check sets its own error (a passing one leaves
      the old error in place); `login` is called only when both pass. */
    method OnLoginClick(vm: Login.LoginViewModel) returns (submitted: bool)
      requires ButtonEnabled(vm.loginState)
      modifies this`emailError, this`passwordError, vm
      ensures submitted <==> EmailError(email, isEmail).None? && BlankError(password, PasswordEmpty).None?
      ensures emailError == if EmailError(email, isEmail).Some? then EmailError(email, isEmail) else old(emailError)
      ensures passwordError ==
                if BlankError(password, PasswordEmpty).Some? then BlankError(password, PasswordEmpty) else old(passwordError)
      ensures submitted ==> vm.loginState == Loading && vm.trace == old(vm.trace) + [Loading]
      ensures !submitted ==> unchanged(vm)
    {
      var valid := true;
      if IsBlank(email) {
        emailError := Some(EmailEmpty);
        valid := false;
      } else if !isEmail(email) {
        emailError := Some(InvalidEmail);
        valid := false;
      }
      if IsBlank(password) {
        passwordError := Some(PasswordEmpty);
        valid := false;
      }
      if valid {
        var _ := vm.Login();
      }
      submitted := valid;
    }

    /** The `when (loginState)` reaction: on Success both fields are emptied
      and the view model is reset; any other state changes nothing here. */
    method OnLoginState(vm: Login.LoginViewModel)
      modifies this`email, this`password, vm
      ensures old(vm.loginState).Success? ==>
                email == "" && password == "" && vm.loginState == Idle && vm.trace == old(vm.trace) + [Idle]
      ensures !old(vm.loginState).Success? ==>
                email == old(email) && password == old(password) && unchanged(vm)
    {
      if vm.loginState.Success? {
        email := "";
        password := "";
        vm.ResetState();
      }
    }
  }
}
