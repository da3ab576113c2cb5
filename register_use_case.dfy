/** RegisterUseCase: seven ordered checks, then one call to the repository. */
module RegisterUseCase {
  import opened Wrappers
  import opened Strings
  import opened Validation
  import opened AuthModel

  /** The checks of `validateRegistrationData`, in the order they run. */
  function RegistrationChecks(name: string, email: string, mobile: string, password: string): seq<Check> {
    [ Check(IsBlank(name), "Name cannot be empty"),
      Check(IsBlank(email), "Email cannot be empty"),
      Check(!Contains(email, "@"), "Invalid email format"),
      Check(IsBlank(mobile), "Mobile number cannot be empty"),
      Check(Utf16Length(mobile) < 10, "Mobile number must be at least 10 digits"),
      Check(IsBlank(password), "Password cannot be empty"),
      Check(Utf16Length(password) < 6, "Password must be at least 6 characters") ]
  }

  /** `validateRegistrationData`: the failure message, or `None` for `Result.success(true)`. */
  function ValidateRegistrationData(name: string, email: string, mobile: string, password: string)
    : (error: Option<string>)
    ensures error.None? <==>
              !IsBlank(name) && !IsBlank(email) && Contains(email, "@") && !IsBlank(mobile)
              && Utf16Length(mobile) >= 10 && !IsBlank(password) && Utf16Length(password) >= 6
  {
    if IsBlank(name) then Some("Name cannot be empty")
    else if IsBlank(email) then Some("Email cannot be empty")
    else if !Contains(email, "@") then Some("Invalid email format")
    else if IsBlank(mobile) then Some("Mobile number cannot be empty")
    else if Utf16Length(mobile) < 10 then Some("Mobile number must be at least 10 digits")
    else if IsBlank(password) then Some("Password cannot be empty")
    else if Utf16Length(password) < 6 then Some("Password must be at least 6 characters")
    else None
  }

  /** The early returns report the first failing check of the ordered list. */
  lemma ValidateRegistrationDataIsFirstFailure(name: string, email: string, mobile: string, password: string)
    ensures ValidateRegistrationData(name, email, mobile, password)
            == FirstFailure(RegistrationChecks(name, email, mobile, password))
  {
    var checks := RegistrationChecks(name, email, mobile, password);
    var k := if checks[0].fails then 0 else if checks[1].fails then 1 else if checks[2].fails then 2
             else if checks[3].fails then 3 else if checks[4].fails then 4 else if checks[5].fails then 5
             else if checks[6].fails then 6 else 7;
    if k < 7 {
      FirstFailureAt(checks, k);
    }
  }

  /** The mobile number is judged by its length alone: any non-blank 10 UTF-16 units will do. */
  lemma MobileCheckedByLengthOnly(name: string, email: string, mobile: string, password: string)
    requires !IsBlank(mobile) && Utf16Length(mobile) >= 10
    ensures ValidateRegistrationData(name, email, mobile, password)
            == ValidateRegistrationData(name, email, "0123456789", password)
  {
    TenDigits();
  }

  /** The reference mobile number is ten plain digits. */
  lemma TenDigits()
    ensures !IsBlank("0123456789") && Utf16Length("0123456789") == 10
  {
    assert !IsWhitespace("0123456789"[0]);
  }

  /** A ten-letter mobile number passes, together with a six-digit password. */
  lemma LettersPassAsMobileNumber()
    ensures ValidateRegistrationData("A", "a@b", "abcdefghij", "123456").None?
  {
    SampleInputs();
  }

  /** Facts about the sample inputs, each a short plain-ASCII literal. */
  lemma SampleInputs()
    ensures !IsBlank("A") && !IsBlank("a@b") && Contains("a@b", "@")
    ensures !IsBlank("abcdefghij") && Utf16Length("abcdefghij") == 10
    ensures !IsBlank("123456") && Utf16Length("123456") == 6
  {
    assert !IsWhitespace("A"[0]);
    assert !IsWhitespace("a@b"[0]);
    ContainsAt("a@b", "@", 1);
    assert !IsWhitespace("abcdefghij"[0]);
    assert !IsWhitespace("123456"[0]);
  }

  /** `invoke`: a failed validation never reaches the repository; otherwise the inputs go through unchanged. */
  function Invoke(name: string, email: string, mobile: string, password: string): (r: UseCaseResult)
    ensures r.Failure? <==> ValidateRegistrationData(name, email, mobile, password).Some?
    ensures r.Failure? ==> Some(r.message) == ValidateRegistrationData(name, email, mobile, password)
    ensures r.CallsRepository? ==> r.request == Register(RegistrationData(name, email, mobile, password))
  {
    match ValidateRegistrationData(name, email, mobile, password)
    case Some(message) => Failure(message)
    case None => CallsRepository(Register(RegistrationData(name, email, mobile, password)))
  }
}
