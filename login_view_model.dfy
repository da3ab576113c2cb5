/**
 * The combined login/registration screen's view model: the form fields, and an
 * authentication state that the simulated login and registration update.
 */
module LoginForm {
  import opened Strings
  import opened AuthModel
  import LoginUseCase
  import RegisterUseCase

  datatype LoginUiState = LoginUiState(email: string, password: string, name: string, mobile: string,
                                       showPassword: bool)

  datatype LoginState = LoginState(isLoading: bool, isLoggedIn: bool, isRegistered: bool, error: string)

  const DefaultLoginUiState := LoginUiState("", "", "", "", false)
  const DefaultLoginState := LoginState(false, false, false, "")

  /** The authentication state `login` leaves behind once its simulated delay is over. */
  function LoginOutcome(ui: LoginUiState, ls: LoginState): (r: LoginState)
    ensures !r.isLoading && r.isRegistered == ls.isRegistered
    ensures IsBlank(ui.email) || IsBlank(ui.password) ==>
              r == ls.(isLoading := false, error := "Email and password cannot be empty")
    ensures !IsBlank(ui.email) && !IsBlank(ui.password) ==> r == ls.(isLoading := false, isLoggedIn := true)
  {
    if IsBlank(ui.email) || IsBlank(ui.password) then
      ls.(error := "Email and password cannot be empty", isLoading := false)
    else
      ls.(isLoading := false, isLoggedIn := true)
  }

  /** The authentication state `register` leaves behind once its simulated delay is over. */
  function RegisterOutcome(ui: LoginUiState, ls: LoginState): (r: LoginState)
    ensures !r.isLoading && r.isLoggedIn == ls.isLoggedIn
    ensures IsBlank(ui.name) || IsBlank(ui.email) || IsBlank(ui.mobile) || IsBlank(ui.password) ==>
              r == ls.(isLoading := false, error := "All fields are required")
    ensures !IsBlank(ui.name) && !IsBlank(ui.email) && !IsBlank(ui.mobile) && !IsBlank(ui.password) ==>
              r == ls.(isLoading := false, isRegistered := true)
  {
    if IsBlank(ui.name) || IsBlank(ui.email) || IsBlank(ui.mobile) || IsBlank(ui.password) then
      ls.(error := "All fields are required", isLoading := false)
    else
      ls.(isLoading := false, isRegistered := true)
  }

  /**
   * The screen's simulated login accepts exactly the inputs the login use case would
   * pass on to the repository.
   */
  lemma LoginAgreesWithUseCase(ui: LoginUiState, ls: LoginState)
    ensures LoginOutcome(ui, ls).isLoggedIn && !ls.isLoggedIn
            ==> LoginUseCase.Invoke(ui.email, ui.password) == CallsRepository(Login(LoginCredentials(ui.email, ui.password)))
    ensures LoginUseCase.Invoke(ui.email, ui.password).CallsRepository? ==> LoginOutcome(ui, ls).isLoggedIn
  {
  }

  /**
   * The screen's simulated registration is weaker than the registration use case: it
   * asks only for non-blank fields, so a one-character mobile number and password go
   * through here and are refused there.
   */
  lemma RegisterLaxerThanUseCase()
    ensures var ui := LoginUiState("a@b", "p", "N", "1", false);
            && RegisterOutcome(ui, DefaultLoginState).isRegistered
            && RegisterUseCase.Invoke(ui.name, ui.email, ui.mobile, ui.password)
               == Failure("Mobile number must be at least 10 digits")
  {
    assert !IsBlank("a@b") by { assert !IsWhitespace("a@b"[0]); }
    assert !IsBlank("p") by { assert !IsWhitespace("p"[0]); }
    assert !IsBlank("N") by { assert !IsWhitespace("N"[0]); }
    assert !IsBlank("1") by { assert !IsWhitespace("1"[0]); }
    assert Contains("a@b", "@") by { ContainsAt("a@b", "@", 1); }
  }

  class LoginViewModel {
    var uiState: LoginUiState
    var loginState: LoginState

    constructor ()
      ensures uiState == DefaultLoginUiState && loginState == DefaultLoginState
    {
      uiState := DefaultLoginUiState;
      loginState := DefaultLoginState;
    }

    method UpdateEmail(email: string)
      modifies this
      ensures uiState == old(uiState).(email := email) && loginState == old(loginState)
    {
      uiState := uiState.(email := email);
    }

    method UpdatePassword(password: string)
      modifies this
      ensures uiState == old(uiState).(password := password) && loginState == old(loginState)
    {
      uiState := uiState.(password := password);
    }

    method UpdateName(name: string)
      modifies this
      ensures uiState == old(uiState).(name := name) && loginState == old(loginState)
    {
      uiState := uiState.(name := name);
    }

    method UpdateMobile(mobile: string)
      modifies this
      ensures uiState == old(uiState).(mobile := mobile) && loginState == old(loginState)
    {
      uiState := uiState.(mobile := mobile);
    }

    method TogglePasswordVisibility()
      modifies this
      ensures uiState == old(uiState).(showPassword := !old(uiState).showPassword)
      ensures loginState == old(loginState)
    {
      uiState := uiState.(showPassword := !uiState.showPassword);
    }

    /** `login`; `succeeded` reports whether `onSuccess` runs. The form is left as it was. */
    method Login() returns (succeeded: bool)
      modifies this
      ensures loginState == LoginOutcome(old(uiState), old(loginState))
      ensures succeeded <==> !IsBlank(uiState.email) && !IsBlank(uiState.password)
      ensures uiState == old(uiState)
    {
      loginState := loginState.(isLoading := true);
      if IsBlank(uiState.email) || IsBlank(uiState.password) {
        loginState := loginState.(error := "Email and password cannot be empty", isLoading := false);
        return false;
      }
      loginState := loginState.(isLoading := false, isLoggedIn := true);
      succeeded := true;
    }

    /** `register`; `succeeded` reports whether `onSuccess` runs. The form is left as it was. */
    method Register() returns (succeeded: bool)
      modifies this
      ensures loginState == RegisterOutcome(old(uiState), old(loginState))
      ensures succeeded <==> !IsBlank(uiState.name) && !IsBlank(uiState.email)
                             && !IsBlank(uiState.mobile) && !IsBlank(uiState.password)
      ensures uiState == old(uiState)
    {
      loginState := loginState.(isLoading := true);
      if IsBlank(uiState.name) || IsBlank(uiState.email) || IsBlank(uiState.mobile) || IsBlank(uiState.password) {
        loginState := loginState.(error := "All fields are required", isLoading := false);
        return false;
      }
      loginState := loginState.(isLoading := false, isRegistered := true);
      succeeded := true;
    }

    method LoginWithGoogle()
      modifies this
      ensures loginState == old(loginState).(error := "Google login is not implemented in this demo")
      ensures uiState == old(uiState)
    {
      loginState := loginState.(error := "Google login is not implemented in this demo");
    }

    method LoginWithDigiLocker()
      modifies this
      ensures loginState == old(loginState).(error := "DigiLocker login is not implemented in this demo")
      ensures uiState == old(uiState)
    {
      loginState := loginState.(error := "DigiLocker login is not implemented in this demo");
    }

    method ClearError()
      modifies this
      ensures loginState == old(loginState).(error := "") && uiState == old(uiState)
    {
      loginState := loginState.(error := "");
    }
  }

  /** Showing and hiding the password leaves the screen as it was. */
  method TogglePasswordVisibilityTwice(vm: LoginViewModel)
    modifies vm
    ensures vm.uiState == old(vm.uiState) && vm.loginState == old(vm.loginState)
  {
    vm.TogglePasswordVisibility();
    vm.TogglePasswordVisibility();
  }
}
