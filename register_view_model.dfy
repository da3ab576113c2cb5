/**
 * The registration form: field setters, the login-ID availability check and the
 * fourteen ordered checks that gate submission.
 */
module RegisterForm {
  import opened Wrappers
  import opened Strings
  import opened Validation

  datatype RegisterUiState = RegisterUiState(
    passportOffice: string,
    givenName: string,
    surname: string,
    dateOfBirth: string,
    email: string,
    loginIdSameAsEmail: bool,
    loginId: string,
    password: string,
    confirmPassword: string,
    hintQuestion: string,
    hintAnswer: string,
    captcha: string,
    showPassword: bool,
    showConfirmPassword: bool,
    showHintAnswer: bool,
    isCheckingAvailability: bool,
    isLoginIdAvailable: bool,
    loginIdChecked: bool,
    isLoading: bool,
    isRegistered: bool,
    error: string)

  /** Every text field empty, every flag off. */
  const DefaultRegisterUiState :=
    RegisterUiState("", "", "", "", "", false, "", "", "", "", "", "",
                    false, false, false, false, false, false, false, false, "")

  const MinPasswordLength := 8

  /** The messages `checkLoginIdAvailability` leaves in `error`. */
  const EmptyLoginIdMessage := "Login ID cannot be empty"
  const TakenLoginIdMessage := "This login ID is already taken"

  /** The checks of `validateForm`, in the order they run. */
  function FormChecks(s: RegisterUiState): seq<Check> {
    [ Check(IsBlank(s.passportOffice), "Please select a passport office"),
      Check(IsBlank(s.givenName), "Given name is required"),
      Check(IsBlank(s.surname), "Surname is required"),
      Check(IsBlank(s.dateOfBirth), "Date of birth is required"),
      Check(IsBlank(s.email), "Email is required"),
      Check(!Contains(s.email, "@"), "Please enter a valid email address"),
      Check(IsBlank(s.loginId), "Login ID is required"),
      Check(IsBlank(s.password), "Password is required"),
      Check(Utf16Length(s.password) < MinPasswordLength, "Password must be at least 8 characters long"),
      Check(s.password != s.confirmPassword, "Passwords do not match"),
      Check(IsBlank(s.hintQuestion), "Please select a hint question"),
      Check(IsBlank(s.hintAnswer), "Hint answer is required"),
      Check(IsBlank(s.captcha), "Please enter the captcha"),
      Check(!s.loginIdChecked || !s.isLoginIdAvailable, "Please check login ID availability first") ]
  }

  /** A form `validateForm` accepts. */
  predicate FormComplete(s: RegisterUiState) {
    && !IsBlank(s.passportOffice) && !IsBlank(s.givenName) && !IsBlank(s.surname)
    && !IsBlank(s.dateOfBirth) && !IsBlank(s.email) && Contains(s.email, "@")
    && !IsBlank(s.loginId) && !IsBlank(s.password) && Utf16Length(s.password) >= MinPasswordLength
    && s.password == s.confirmPassword
    && !IsBlank(s.hintQuestion) && !IsBlank(s.hintAnswer) && !IsBlank(s.captcha)
    && s.loginIdChecked && s.isLoginIdAvailable
  }

  /**
   * `validateForm`: the message of the first failing check, or "" when there is none.
   * Every message is non-empty, so "" comes back exactly for a complete form.
   */
  function ValidateForm(s: RegisterUiState): (msg: string)
    ensures msg == FirstFailure(FormChecks(s)).GetOr("")
    ensures msg == "" <==> FormComplete(s)
  {
    var c := FormChecks(s);
    if c[0].fails then c[0].message
    else if c[1].fails then c[1].message
    else if c[2].fails then c[2].message
    else if c[3].fails then c[3].message
    else if c[4].fails then c[4].message
    else if c[5].fails then c[5].message
    else if c[6].fails then c[6].message
    else if c[7].fails then c[7].message
    else if c[8].fails then c[8].message
    else if c[9].fails then c[9].message
    else if c[10].fails then c[10].message
    else if c[11].fails then c[11].message
    else if c[12].fails then c[12].message
    else if c[13].fails then c[13].message
    else ""
  }

  /** `checkLoginIdAvailability` once its simulated request has finished. */
  function AvailabilityChecked(s: RegisterUiState): (t: RegisterUiState)
    ensures IsBlank(s.loginId) ==> t == s.(error := EmptyLoginIdMessage)
    ensures !IsBlank(s.loginId) ==>
              && t.loginIdChecked && !t.isCheckingAvailability
              && (t.isLoginIdAvailable <==> !Contains(s.loginId, "taken"))
              && (t.error == "" <==> t.isLoginIdAvailable)
              && t == s.(isLoginIdAvailable := t.isLoginIdAvailable, isCheckingAvailability := false,
                         loginIdChecked := true, error := t.error)
  {
    if IsBlank(s.loginId) then s.(error := EmptyLoginIdMessage)
    else
      var available := !Contains(s.loginId, "taken");
      s.(isLoginIdAvailable := available, isCheckingAvailability := false, loginIdChecked := true,
         error := if !available then TakenLoginIdMessage else "")
  }

  /**
   * Only a checked, available login ID lets the form through: a form that passes
   * validation right after the check holds a non-blank ID without "taken" in it.
   */
  lemma AcceptedAfterCheckMeansAvailable(s: RegisterUiState)
    requires ValidateForm(AvailabilityChecked(s)) == ""
    ensures !IsBlank(s.loginId)
    ensures !Contains(s.loginId, "taken")
  {
  }

  /**
   * The availability flags are not reset when the login ID is edited, so an ID
   * changed after a successful check still passes the last gate.
   */
  lemma EditedLoginIdKeepsAvailability(s: RegisterUiState, newId: string)
    requires FormComplete(s) && !IsBlank(newId)
    ensures FormComplete(s.(loginId := newId))
  {
  }

  /** The registration form keeps the login ID equal to the email while the box is ticked. */
  predicate LoginIdMirrorsEmail(s: RegisterUiState) {
    s.loginIdSameAsEmail ==> s.loginId == s.email
  }

  class RegisterViewModel {
    var uiState: RegisterUiState

    constructor ()
      ensures uiState == DefaultRegisterUiState
      ensures LoginIdMirrorsEmail(uiState)
    {
      uiState := DefaultRegisterUiState;
    }

    method UpdateGivenName(name: string)
      modifies this
      ensures uiState == old(uiState).(givenName := name)
    {
      uiState := uiState.(givenName := name);
    }

    method UpdateSurname(surname: string)
      modifies this
      ensures uiState == old(uiState).(surname := surname)
    {
      uiState := uiState.(surname := surname);
    }

    method UpdateDateOfBirth(dob: string)
      modifies this
      ensures uiState == old(uiState).(dateOfBirth := dob)
    {
      uiState := uiState.(dateOfBirth := dob);
    }

    /** A new email is copied into the login ID while the "same as email" box is ticked. */
    method UpdateEmail(email: string)
      modifies this
      ensures old(uiState).loginIdSameAsEmail ==> uiState == old(uiState).(email := email, loginId := email)
      ensures !old(uiState).loginIdSameAsEmail ==> uiState == old(uiState).(email := email)
      ensures LoginIdMirrorsEmail(old(uiState)) ==> LoginIdMirrorsEmail(uiState)
    {
      uiState := uiState.(email := email);
      if uiState.loginIdSameAsEmail {
        uiState := uiState.(loginId := email);
      }
    }

    /** Ticking the box copies the email into the login ID; unticking keeps the ID as it is. */
    method UpdateLoginIdSameAsEmail(isSame: bool)
      modifies this
      ensures uiState == old(uiState).(loginIdSameAsEmail := isSame,
                                       loginId := if isSame then old(uiState).email else old(uiState).loginId)
      ensures LoginIdMirrorsEmail(uiState)
    {
      uiState := uiState.(loginIdSameAsEmail := isSame,
                          loginId := if isSame then uiState.email else uiState.loginId);
    }

    /** Sets the login ID directly; the availability flags are left as they were. */
    method UpdateLoginId(loginId: string)
      modifies this
      ensures uiState == old(uiState).(loginId := loginId)
    {
      uiState := uiState.(loginId := loginId);
    }

    method UpdatePassword(password: string)
      modifies this
      ensures uiState == old(uiState).(password := password)
    {
      uiState := uiState.(password := password);
    }

    method UpdateConfirmPassword(confirmPassword: string)
      modifies this
      ensures uiState == old(uiState).(confirmPassword := confirmPassword)
    {
      uiState := uiState.(confirmPassword := confirmPassword);
    }

    method UpdateHintQuestion(question: string)
      modifies this
      ensures uiState == old(uiState).(hintQuestion := question)
    {
      uiState := uiState.(hintQuestion := question);
    }

    method UpdateHintAnswer(answer: string)
      modifies this
      ensures uiState == old(uiState).(hintAnswer := answer)
    {
      uiState := uiState.(hintAnswer := answer);
    }

    method UpdateCaptcha(captcha: string)
      modifies this
      ensures uiState == old(uiState).(captcha := captcha)
    {
      uiState := uiState.(captcha := captcha);
    }

    method UpdatePassportOffice(office: string)
      modifies this
      ensures uiState == old(uiState).(passportOffice := office)
    {
      uiState := uiState.(passportOffice := office);
    }

    method TogglePasswordVisibility()
      modifies this
      ensures uiState == old(uiState).(showPassword := !old(uiState).showPassword)
    {
      uiState := uiState.(showPassword := !uiState.showPassword);
    }

    method ToggleConfirmPasswordVisibility()
      modifies this
      ensures uiState == old(uiState).(showConfirmPassword := !old(uiState).showConfirmPassword)
    {
      uiState := uiState.(showConfirmPassword := !uiState.showConfirmPassword);
    }

    method ToggleHintAnswerVisibility()
      modifies this
      ensures uiState == old(uiState).(showHintAnswer := !old(uiState).showHintAnswer)
    {
      uiState := uiState.(showHintAnswer := !uiState.showHintAnswer);
    }

    /** `checkLoginIdAvailability`, from the blank-ID guard to the final availability state. */
    method CheckLoginIdAvailability()
      modifies this
      ensures uiState == AvailabilityChecked(old(uiState))
      ensures LoginIdMirrorsEmail(old(uiState)) ==> LoginIdMirrorsEmail(uiState)
    {
      if IsBlank(uiState.loginId) {
        uiState := uiState.(error := EmptyLoginIdMessage);
        return;
      }
      uiState := uiState.(isCheckingAvailability := true);
      var isAvailable := !Contains(uiState.loginId, "taken");
      uiState := uiState.(isLoginIdAvailable := isAvailable, isCheckingAvailability := false,
                          loginIdChecked := true,
                          error := if !isAvailable then TakenLoginIdMessage else "");
    }

    /**
     * `register`: a form that fails validation only gets its error message; a complete
     * one ends registered and not loading. `succeeded` reports whether `onSuccess` runs.
     */
    method Register() returns (succeeded: bool)
      modifies this
      ensures succeeded <==> FormComplete(old(uiState))
      ensures !succeeded ==> uiState == old(uiState).(error := ValidateForm(old(uiState))) && uiState.error != ""
      ensures succeeded ==> uiState == old(uiState).(isLoading := false, isRegistered := true)
    {
      var validationError := ValidateForm(uiState);
      if validationError != "" {
        uiState := uiState.(error := validationError);
        return false;
      }
      uiState := uiState.(isLoading := true);
      uiState := uiState.(isLoading := false, isRegistered := true);
      succeeded := true;
    }

    method ClearForm()
      modifies this
      ensures uiState == DefaultRegisterUiState
    {
      uiState := DefaultRegisterUiState;
    }

    method ClearError()
      modifies this
      ensures uiState == old(uiState).(error := "")
    {
      uiState := uiState.(error := "");
    }
  }

  /** Each visibility toggle flips one flag, so pressing each twice restores the form. */
  method ToggleVisibilityTwice(vm: RegisterViewModel)
    modifies vm
    ensures vm.uiState == old(vm.uiState)
  {
    vm.TogglePasswordVisibility();
    vm.TogglePasswordVisibility();
    vm.ToggleConfirmPasswordVisibility();
    vm.ToggleConfirmPasswordVisibility();
    vm.ToggleHintAnswerVisibility();
    vm.ToggleHintAnswerVisibility();
  }
}
