/**
 * The records the auth use cases hand to the repository, and their result: either a
 * failure decided before the repository is reached, or the repository call itself,
 * whose result the use case returns unchanged.
 */
module AuthModel {

  datatype LoginCredentials = LoginCredentials(email: string, password: string)

  datatype RegistrationData = RegistrationData(name: string, email: string, mobile: string, password: string)

  /** The call made on the repository. */
  datatype AuthRequest =
    | Login(credentials: LoginCredentials)
    | Register(registrationData: RegistrationData)
    | LoginWithGoogle(idToken: string)
    | LoginWithDigiLocker(authCode: string)

  datatype UseCaseResult =
    | Failure(message: string)
    | CallsRepository(request: AuthRequest)
}
