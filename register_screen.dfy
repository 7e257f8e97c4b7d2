/** The state behind RegisterMainContent in RegisterScreen.kt: three fields
    and their errors, the per-field edit and focus rules, the Register
    button's handler and the reaction to the registration state. */
module RegisterScreen {
  import opened Common
  import opened Text
  import opened ActionStates
  import opened FormRules
  import opened UserSession
  import Requests
  import Register

  /** The email error after the `when (state)` reaction: "Email already
      exists" for an Error mentioning 409, otherwise the current one. */
  function EmailErrorAfter(state: ActionState, current: Option<string>): (e: Option<string>)
    ensures state.Error? && Contains(state.error, "409") ==> e == Some(EmailExists)
    ensures !(state.Error? && Contains(state.error, "409")) ==> e == current
  {
    if state.Error? && Contains(state.error, "409") then Some(EmailExists) else current
  }

  /** A registration answered 409 ends with "Email already exists" under the
      email field, whatever error was there before. */
  lemma ConflictShowsEmailExists(response: Response<Register.RegisterBody>, current: Option<string>)
    requires response.Response? && response.status.value == Register.ConflictStatus
    ensures var state := Fold(Discard(Register.CheckRegister(response)), Register.Registered, Requests.UnknownError);
            state.Error? && EmailErrorAfter(state, current) == Some(EmailExists)
  {
    Register.ConflictMentions409(response);
  }

  /** A successful registration never sets the email error. */
  lemma SuccessKeepsEmailError(response: Response<Register.RegisterBody>, current: Option<string>)
    requires Register.CheckRegister(response).Ok?
    ensures var state := Fold(Discard(Register.CheckRegister(response)), Register.Registered, Requests.UnknownError);
            state == Success(Register.Registered) && EmailErrorAfter(state, current) == current
  {
  }

  /** The fields and errors of the registration form. The `when (state)`
      block assigns the email error during composition, so it runs again on
      every recomposition: each handler below ends with that re-application
      (ReapplyConflict) against the view model's current state, which is why
      after a 409 no edit of the email can show anything but "Email already
      exists" until the state changes. */
  class RegisterForm {
    var fullName: string
    var email: string
    var password: string
    var fullNameError: Option<string>
    var emailError: Option<string>
    var passwordError: Option<string>
    const isEmail: string -> bool

    constructor(isEmail: string -> bool)
      ensures fullName == "" && email == "" && password == ""
      ensures fullNameError == None && emailError == None && passwordError == None
      ensures this.isEmail == isEmail
    {
      fullName := "";
      email := "";
      password := "";
      fullNameError := None;
      emailError := None;
      passwordError := None;
      this.isEmail := isEmail;
    }

    /** The email-error assignment of the `when (state)` block, as every
      recomposition performs it. */
    method ReapplyConflict(state: ActionState)
      modifies this`emailError
      ensures emailError == EmailErrorAfter(state, old(emailError))
    {
      if state.Error? && Contains(state.error, "409") {
        emailError := Some(EmailExists);
      }
    }

    /** Editing a field sets its own error exactly when the new value is
      blank; the other fields' errors are untouched, apart from the
      recomposition's 409 reaction on the email error. */
    method OnFullNameChange(value: string, vm: Register.RegisterViewModel)
      modifies this`fullName, this`fullNameError, this`emailError
      ensures fullName == value && fullNameError == BlankError(value, FullNameEmpty)
      ensures emailError == EmailErrorAfter(vm.registerState, old(emailError))
    {
      fullName := value;
      fullNameError := if IsBlank(value) then Some(FullNameEmpty) else None;
      ReapplyConflict(vm.registerState);
    }

    method OnEmailChange(value: string, vm: Register.RegisterViewModel)
      modifies this`email, this`emailError
      ensures email == value
      ensures emailError == EmailErrorAfter(vm.registerState, BlankError(value, EmailEmpty))
    {
      email := value;
      emailError := if IsBlank(value) then Some(EmailEmpty) else None;
      ReapplyConflict(vm.registerState);
    }

    method OnPasswordChange(value: string, vm: Register.RegisterViewModel)
      modifies this`password, this`passwordError, this`emailError
      ensures password == value && passwordError == BlankError(value, PasswordEmpty)
      ensures emailError == EmailErrorAfter(vm.registerState, old(emailError))
    {
      password := value;
      passwordError := if IsBlank(value) then Some(PasswordEmpty) else None;
      ReapplyConflict(vm.registerState);
    }

    /** Focusing a blank field sets its "cannot be empty" error; focusing a
      non-blank one (or losing focus) leaves the error as it was. */
    method OnFullNameFocus(isFocused: bool, vm: Register.RegisterViewModel)
      modifies this`fullNameError, this`emailError
      ensures fullNameError == if isFocused && IsBlank(fullName) then Some(FullNameEmpty) else old(fullNameError)
      ensures emailError == EmailErrorAfter(vm.registerState, old(emailError))
    {
      if isFocused && IsBlank(fullName) {
        fullNameError := Some(FullNameEmpty);
      }
      ReapplyConflict(vm.registerState);
    }

    method OnEmailFocus(isFocused: bool, vm: Register.RegisterViewModel)
      modifies this`emailError
      ensures emailError ==
                EmailErrorAfter(vm.registerState,
                                if isFocused && IsBlank(email) then Some(EmailEmpty) else old(emailError))
    {
      if isFocused && IsBlank(email) {
        emailError := Some(EmailEmpty);
      }
      ReapplyConflict(vm.registerState);
    }

    method OnPasswordFocus(isFocused: bool, vm: Register.RegisterViewModel)
      modifies this`passwordError, this`emailError
      ensures passwordError == if isFocused && IsBlank(password) then Some(PasswordEmpty) else old(passwordError)
      ensures emailError == EmailErrorAfter(vm.registerState, old(emailError))
    {
      if isFocused && IsBlank(password) {
        passwordError := Some(PasswordEmpty);
      }
      ReapplyConflict(vm.registerState);
    }

    /** The Register button's `onClick`, reachable only while the button is
      enabled: every failing check sets its own error in one click, and
      `registerUser` runs only when all three pass. The recomposition then
      re-applies the 409 reaction against the resulting state. */
    method OnRegisterClick(vm: Register.RegisterViewModel, session: UserSessionManager,
                           response: Response<Register.RegisterBody>) returns (submitted: bool)
      requires ButtonEnabled(vm.registerState)
      requires session.Valid()
      modifies this`fullNameError, this`emailError, this`passwordError, vm, session
      ensures session.Valid()
      ensures submitted <==> && EmailError(email, isEmail).None?
                             && BlankError(password, PasswordEmpty).None?
                             && BlankError(fullName, FullNameEmpty).None?
      ensures emailError ==
                EmailErrorAfter(vm.registerState,
                                if EmailError(email, isEmail).Some? then EmailError(email, isEmail) else old(emailError))
      ensures passwordError ==
                if BlankError(password, PasswordEmpty).Some? then BlankError(password, PasswordEmpty) else old(passwordError)
      ensures fullNameError ==
                if BlankError(fullName, FullNameEmpty).Some? then BlankError(fullName, FullNameEmpty) else old(fullNameError)
      ensures submitted ==>
                && vm.registerState == Fold(Discard(Register.CheckRegister(response)), Register.Registered, Requests.UnknownError)
                && vm.trace == old(vm.trace) + [vm.registerState]
      ensures submitted && Register.CheckRegister(response).Ok? ==>
                && session.GetUser() == Some(Register.CheckRegister(response).value)
                && session.GetAccessToken() == Some(Register.PlaceholderToken)
                && session.IsLoggedIn()
      ensures submitted && Register.CheckRegister(response).Err? ==> unchanged(session)
      ensures !submitted ==> unchanged(vm) && unchanged(session)
    {
      var valid := true;
      if IsBlank(email) {
        emailError := Some(EmailEmpty);
        valid := false;
      } else if !isEmail(email) {
        emailError := Some(InvalidEmail);
        valid := false;
      }
      if IsBlank(password) {
        passwordError := Some(PasswordEmpty);
        valid := false;
      }
      if IsBlank(fullName) {
        fullNameError := Some(FullNameEmpty);
        valid := false;
      }
      if valid {
        vm.RegisterUser(session, response);
      }
      ReapplyConflict(vm.registerState);
      submitted := valid;
    }

    /** The `when (state)` block reached through a state change: an Error
      mentioning 409 marks the email as taken; Success runs its
      LaunchedEffect once, emptying all three fields and resetting the view
      model. */
    method OnRegisterState(vm: Register.RegisterViewModel)
      modifies this`fullName, this`email, this`password, this`emailError, vm
      ensures emailError == EmailErrorAfter(old(vm.registerState), old(emailError))
      ensures old(vm.registerState).Success? ==>
                && fullName == "" && email == "" && password == ""
                && vm.registerState == Idle && vm.trace == old(vm.trace) + [Idle]
      ensures !old(vm.registerState).Success? ==>
                fullName == old(fullName) && email == old(email) && password == old(password) && unchanged(vm)
    {
      var state := vm.registerState;
      if state.Error? {
        ReapplyConflict(state);
      } else if state.Success? {
        email := "";
        password := "";
        fullName := "";
        vm.ResetState();
      }
    }
  }

  /** After a 409, an edit of the email shows "Email already exists" whatever
      was typed, as long as the view model stays in that Error. */
  lemma ConflictOverridesEmailEdit(state: ActionState, value: string)
    requires state.Error? && Contains(state.error, "409")
    ensures EmailErrorAfter(state, BlankError(value, EmailEmpty)) == Some(EmailExists)
  {
  }
}
