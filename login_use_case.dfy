/** LoginUseCase: blank-input guards in front of the repository's login calls. */
module LoginUseCase {
  import opened Strings
  import opened AuthModel

  /** `invoke(email, password)`: the email is checked first, then the password. */
  function Invoke(email: string, password: string): (r: UseCaseResult)
    ensures IsBlank(email) ==> r == Failure("Email cannot be empty")
    ensures !IsBlank(email) && IsBlank(password) ==> r == Failure("Password cannot be empty")
    ensures r.CallsRepository? <==> !IsBlank(email) && !IsBlank(password)
    ensures r.CallsRepository? ==> r.request == Login(LoginCredentials(email, password))
  {
    if IsBlank(email) then Failure("Email cannot be empty")
    else if IsBlank(password) then Failure("Password cannot be empty")
    else CallsRepository(Login(LoginCredentials(email, password)))
  }

  function LoginWithGoogleToken(idToken: string): (r: UseCaseResult)
    ensures r.CallsRepository? <==> !IsBlank(idToken)
    ensures r.Failure? ==> r.message == "Google ID token cannot be empty"
    ensures r.CallsRepository? ==> r.request == LoginWithGoogle(idToken)
  {
    if IsBlank(idToken) then Failure("Google ID token cannot be empty")
    else CallsRepository(LoginWithGoogle(idToken))
  }

  function LoginWithDigiLockerCode(authCode: string): (r: UseCaseResult)
    ensures r.CallsRepository? <==> !IsBlank(authCode)
    ensures r.Failure? ==> r.message == "DigiLocker auth code cannot be empty"
    ensures r.CallsRepository? ==> r.request == LoginWithDigiLocker(authCode)
  {
    if IsBlank(authCode) then Failure("DigiLocker auth code cannot be empty")
    else CallsRepository(LoginWithDigiLocker(authCode))
  }
}
