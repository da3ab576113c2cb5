# Passport Seva: a verified model of the app's core logic

This project models, in Dafny, the behaviour of the Passport Seva Android app's view
models, use cases and screen-level rules. The app is written in Kotlin with Jetpack
Compose. The model covers:

- the fee calculator: the JSON fee-schedule lookup, the age banding, the senior/child
  discount and which form fields the screen shows;
- the registration form: fourteen ordered checks, the login-ID availability check and
  submission;
- the login and registration use cases, with their ordered input checks;
- the login screen's state;
- appointment selection and its validity flag;
- the annexure viewer: document navigation, Drive file ids and viewer URLs, and the
  counter;
- the FAQ and document-advisor search filters, and their expand/collapse sets;
- the navigation routes.

View models whose methods replace their state are classes with a `uiState` field. The
Login screen adds a `loginState` field. Every setter states the whole new state. The
search filters, validators and URL derivations are pure functions. Each is tied to a
reference definition or to an inverse by a lemma:

- `Validation.FirstFailure` is the generic "first failing check of an ordered list";
- `FeeSchedule.LookupPath` reads the schedule at a key path;
- `Sequences.Embeds` is an order-preserving embedding;
- `Strings.SubstringAfter` and `Strings.SubstringBefore` follow Kotlin's rules;
- `Strings.Utf16Length` is Kotlin's `String.length`, counted in UTF-16 units.

All source paths are relative to the repository root. In the fee calculator:

- any failed lookup gives a fee of 0.0: the `catch` in `calculateFee` (app/src/main/java/com/harshsinghio/passportseva/presentation/screens/feecalculator/FeeCalculatorViewModel.kt:236-241) turns every exception into 0.0, and no error reaches the state.
- `updateApplicationType` (app/src/main/java/com/harshsinghio/passportseva/presentation/screens/feecalculator/FeeCalculatorViewModel.kt:59-67) sets only the type and the fee; the other selections keep their values.
- the schedule keys are the ones the code reads, such as "lost_damaged", "tatkaal", "expired_yes" and "36_pages".

## Model

| member | source | states |
|---|---|---|
| FeeCalculator.AgeBand | app/src/main/java/com/harshsinghio/passportseva/presentation/screens/feecalculator/FeeCalculatorViewModel.kt:89-95 | the three age bands of `updateAge`: under 15, 15 to 17, 18 and over, each as an if-and-only-if |
| FeeCalculator.CalculateFee | app/src/main/java/com/harshsinghio/passportseva/presentation/screens/feecalculator/FeeCalculatorViewModel.kt:146-243 | 0.0 when no schedule is loaded, for an unknown application type, and for a passport whose service is neither fresh nor reissue |
| FeeCalculator.SchemeFeeFollowsPath | app/src/main/java/com/harshsinghio/passportseva/presentation/screens/feecalculator/FeeCalculatorViewModel.kt:163-211 | the scheme lookup reads `[scheme]` under 15 and `[scheme][pages]` otherwise |
| FeeCalculator.PassportFeeFollowsPath | app/src/main/java/com/harshsinghio/passportseva/presentation/screens/feecalculator/FeeCalculatorViewModel.kt:150-213 | for a passport, the chain of `getJSONObject`/`getDouble` calls yields exactly the leaf at the key path, or 0.0 when a key is missing |
| FeeSchedule.LeafNumber | app/src/main/java/com/harshsinghio/passportseva/presentation/screens/feecalculator/FeeCalculatorViewModel.kt:169-173 | `getDouble` reads a number leaf as it is and a string leaf of decimal digits as its value; objects and other values fail |
| FeeSchedule.NumeralLeafReadsBack | app/src/main/java/com/harshsinghio/passportseva/presentation/screens/feecalculator/FeeCalculatorViewModel.kt:169-173 | a fee stored as the digit string of a whole number reads back as that number |
| FeeCalculator.CalculateFeeFollowsPath | app/src/main/java/com/harshsinghio/passportseva/presentation/screens/feecalculator/FeeCalculatorViewModel.kt:146-243 | for every state, `calculateFee` equals the schedule leaf at the key path built from the selections, or 0.0 when a lookup fails |
| FeeCalculator.FlatFeeIgnoresSelection | app/src/main/java/com/harshsinghio/passportseva/presentation/screens/feecalculator/FeeCalculatorViewModel.kt:216-231 | pcc, surrender and background-verification fees are the `[type]["fee"]` leaf, whatever else is selected |
| FeeCalculator.IdentityCertificateFeeDependsOnServiceTypeOnly | app/src/main/java/com/harshsinghio/passportseva/presentation/screens/feecalculator/FeeCalculatorViewModel.kt:220-225 | the identity-certificate fee is `[identity_certificate][serviceType]["fee"]` and depends on nothing else |
| FeeCalculator.FreshUnder15IgnoresPages | app/src/main/java/com/harshsinghio/passportseva/presentation/screens/feecalculator/FeeCalculatorViewModel.kt:163-170 | a fresh passport under 15 reads `[passport][fresh][ageGroup][scheme]`, so pages do not matter |
| FeeCalculator.FreshFifteenAndOverReadsPages | app/src/main/java/com/harshsinghio/passportseva/presentation/screens/feecalculator/FeeCalculatorViewModel.kt:171-176 | a fresh passport in the other age bands reads `[...][scheme][pages]` |
| FeeCalculator.ReissueLostStatusLevel | app/src/main/java/com/harshsinghio/passportseva/presentation/screens/feecalculator/FeeCalculatorViewModel.kt:177-211 | the lost/damaged reissue inserts a lostStatus level; every other reason ignores lostStatus |
| FeeCalculator.ShouldApplyDiscount | app/src/main/java/com/harshsinghio/passportseva/presentation/screens/feecalculator/FeeCalculatorViewModel.kt:245-250 | the discount applies exactly to fresh passports whose age is outside 8..60 |
| FeeCalculator.DiscountBoundaries | app/src/main/java/com/harshsinghio/passportseva/presentation/screens/feecalculator/FeeCalculatorViewModel.kt:245-250 | the discount applies to fresh passports at ages 7 and 61 but not at 8 or 60, and never to reissues or other types |
| FeeCalculator.FinalFee | app/src/main/java/com/harshsinghio/passportseva/presentation/screens/feecalculator/FeeCalculatorViewModel.kt:253-256 | with the discount the final fee is nine tenths of the calculated fee, without it the calculated fee itself; it never exceeds a non-negative calculated fee |
| FeeCalculator.Recalculated | app/src/main/java/com/harshsinghio/passportseva/presentation/screens/feecalculator/FeeCalculatorViewModel.kt:59-143 | a setter's second write: `calculatedFee` becomes the fee of the new selections and nothing else changes |
| FeeCalculator.FeeCalculatorViewModel.constructor | app/src/main/java/com/harshsinghio/passportseva/presentation/screens/feecalculator/FeeCalculatorViewModel.kt:260-275 | the default state, whose age group matches its age and whose fee is current |
| FeeCalculator.FeeCalculatorViewModel.FeeDataLoaded | app/src/main/java/com/harshsinghio/passportseva/presentation/screens/feecalculator/FeeCalculatorViewModel.kt:20-33 | loading a schedule stores it, clears isLoading and recalculates the fee; the age-group invariant is kept |
| FeeCalculator.FeeCalculatorViewModel.FeeDataFailed | app/src/main/java/com/harshsinghio/passportseva/presentation/screens/feecalculator/FeeCalculatorViewModel.kt:34-39 | a load failure records "Failed to load fee data: " + message and clears isLoading, nothing else |
| FeeCalculator.FeeCalculatorViewModel.UpdateApplicationType | app/src/main/java/com/harshsinghio/passportseva/presentation/screens/feecalculator/FeeCalculatorViewModel.kt:59-66 | sets the type only (no other field is reset) and recalculates; the age-group invariant is kept |
| FeeCalculator.FeeCalculatorViewModel.UpdateServiceType | app/src/main/java/com/harshsinghio/passportseva/presentation/screens/feecalculator/FeeCalculatorViewModel.kt:69-76 | sets the service type and recalculates; the age-group invariant is kept |
| FeeCalculator.FeeCalculatorViewModel.UpdateAgeGroup | app/src/main/java/com/harshsinghio/passportseva/presentation/screens/feecalculator/FeeCalculatorViewModel.kt:79-86 | sets the age group without touching age; the invariant then holds exactly when the new group is the band of the age |
| FeeCalculator.FeeCalculatorViewModel.UpdateAge | app/src/main/java/com/harshsinghio/passportseva/presentation/screens/feecalculator/FeeCalculatorViewModel.kt:89-103 | writes age and its band together and recalculates, so the age-group invariant holds afterwards |
| FeeCalculator.FeeCalculatorViewModel.UpdatePages | app/src/main/java/com/harshsinghio/passportseva/presentation/screens/feecalculator/FeeCalculatorViewModel.kt:106-113 | sets pages and recalculates; the age-group invariant is kept |
| FeeCalculator.FeeCalculatorViewModel.UpdateScheme | app/src/main/java/com/harshsinghio/passportseva/presentation/screens/feecalculator/FeeCalculatorViewModel.kt:116-123 | sets the scheme and recalculates; the age-group invariant is kept |
| FeeCalculator.FeeCalculatorViewModel.UpdateReissueReason | app/src/main/java/com/harshsinghio/passportseva/presentation/screens/feecalculator/FeeCalculatorViewModel.kt:126-133 | sets the reissue reason and recalculates; the age-group invariant is kept |
| FeeCalculator.FeeCalculatorViewModel.UpdateLostStatus | app/src/main/java/com/harshsinghio/passportseva/presentation/screens/feecalculator/FeeCalculatorViewModel.kt:136-143 | sets the lost status and recalculates; the age-group invariant is kept |
| FeeCalculatorScreen.AgeEditAccepted | app/src/main/java/com/harshsinghio/passportseva/presentation/screens/feecalculator/FeeCalculatorScreen.kt:468-470 | an edit reaches `updateAge` exactly when every character of it is a digit (so the empty text too) |
| FeeCalculatorScreen.AgeFromText | app/src/main/java/com/harshsinghio/passportseva/presentation/screens/feecalculator/FeeCalculatorScreen.kt:468-471 | an accepted edit maps "" to 0 and a digit string to its value, or to 0 when `toIntOrNull` overflows |
| FeeCalculatorScreen.AgeTextRoundTrip | app/src/main/java/com/harshsinghio/passportseva/presentation/screens/feecalculator/FeeCalculatorScreen.kt:466-471 | the text shown for an age is an accepted edit that reads back as that age |
| FeeCalculatorScreen.OnAgeValueChange | app/src/main/java/com/harshsinghio/passportseva/presentation/screens/feecalculator/FeeCalculatorScreen.kt:468-471 | an accepted edit updates age and band as `updateAge` does; a rejected edit leaves the state unchanged |
| FeeCalculatorScreen.AgeGroupLabel | app/src/main/java/com/harshsinghio/passportseva/presentation/screens/feecalculator/FeeCalculatorScreen.kt:490-494 | the label uses the same thresholds as the view model's banding |
| FeeCalculatorScreen.ShowServiceTypeField | app/src/main/java/com/harshsinghio/passportseva/presentation/screens/feecalculator/FeeCalculatorScreen.kt:103-115 | the service type is offered for passports and identity certificates, never for a flat-fee type |
| FeeCalculatorScreen.ShowAgeAndSchemeFields | app/src/main/java/com/harshsinghio/passportseva/presentation/screens/feecalculator/FeeCalculatorScreen.kt:117-174 | age and scheme appear for passports only; when they are hidden no discount applies |
| FeeCalculatorScreen.ShowPagesField | app/src/main/java/com/harshsinghio/passportseva/presentation/screens/feecalculator/FeeCalculatorScreen.kt:124-135 | the pages dropdown sits inside the passport block and is hidden for the under-15 group |
| FeeCalculatorScreen.ShowReissueReasonField | app/src/main/java/com/harshsinghio/passportseva/presentation/screens/feecalculator/FeeCalculatorScreen.kt:137-149 | the reissue reason sits inside the passport block, under a shown service type, and never with a discount |
| FeeCalculatorScreen.ShowLostStatusField | app/src/main/java/com/harshsinghio/passportseva/presentation/screens/feecalculator/FeeCalculatorScreen.kt:151-162 | the lost status is nested under the reissue reason and shown only for "lost_damaged" |
| FeeCalculatorScreen.HiddenFieldsDoNotAffectFee | app/src/main/java/com/harshsinghio/passportseva/presentation/screens/feecalculator/FeeCalculatorScreen.kt:103-174 | a field the screen hides (service type, age and scheme, pages, reissue reason, lost status) cannot change the fee |
| FeeCalculatorScreen.TruncateToInt | app/src/main/java/com/harshsinghio/passportseva/presentation/screens/feecalculator/FeeCalculatorScreen.kt:225 | `Double.toInt`: truncation toward zero, saturating at the 32-bit bounds |
| FeeCalculatorScreen.FeeText | app/src/main/java/com/harshsinghio/passportseva/presentation/screens/feecalculator/FeeCalculatorScreen.kt:225 | the fee line starts with "₹ " and ends with ".00" |
| FeeCalculatorScreen.FeeTextShowsWholeRupees | app/src/main/java/com/harshsinghio/passportseva/presentation/screens/feecalculator/FeeCalculatorScreen.kt:225 | the fee text is "₹ " + the whole-rupee part of the fee + ".00" |
| FeeCalculatorScreen.DisplayName | app/src/main/java/com/harshsinghio/passportseva/presentation/screens/feecalculator/FeeCalculatorScreen.kt:401 | the label of the first option whose key matches, or the raw key when none does |
| RegisterForm.ValidateForm | app/src/main/java/com/harshsinghio/passportseva/presentation/screens/register/RegisterViewModel.kt:145-164 | `validateForm` returns the message of the first failing check in the fixed order, office to login-ID check, and "" exactly when all fourteen checks pass (password length counted in UTF-16 units) |
| RegisterForm.AvailabilityChecked | app/src/main/java/com/harshsinghio/passportseva/presentation/screens/register/RegisterViewModel.kt:85-107 | a blank ID only sets "Login ID cannot be empty"; otherwise the ID is available iff it lacks "taken", it is marked checked and the error is empty iff it is available |
| RegisterForm.AcceptedAfterCheckMeansAvailable | app/src/main/java/com/harshsinghio/passportseva/presentation/screens/register/RegisterViewModel.kt:85-107 | a form accepted right after the availability check holds a non-blank ID without "taken" |
| RegisterForm.EditedLoginIdKeepsAvailability | app/src/main/java/com/harshsinghio/passportseva/presentation/screens/register/RegisterViewModel.kt:44-46 | editing the login ID does not reset the availability flags, so a complete form stays complete |
| RegisterForm.RegisterViewModel.constructor | app/src/main/java/com/harshsinghio/passportseva/presentation/screens/register/RegisterViewModel.kt:178-206 | every text field empty and every flag off |
| RegisterForm.RegisterViewModel.UpdateGivenName | app/src/main/java/com/harshsinghio/passportseva/presentation/screens/register/RegisterViewModel.kt:16-18 | changes only the given name |
| RegisterForm.RegisterViewModel.UpdateSurname | app/src/main/java/com/harshsinghio/passportseva/presentation/screens/register/RegisterViewModel.kt:20-22 | changes only the surname |
| RegisterForm.RegisterViewModel.UpdateDateOfBirth | app/src/main/java/com/harshsinghio/passportseva/presentation/screens/register/RegisterViewModel.kt:24-26 | changes only the date of birth |
| RegisterForm.RegisterViewModel.UpdateEmail | app/src/main/java/com/harshsinghio/passportseva/presentation/screens/register/RegisterViewModel.kt:28-35 | sets the email and, while the box is ticked, copies it into the login ID; "login ID mirrors email" is kept |
| RegisterForm.RegisterViewModel.UpdateLoginIdSameAsEmail | app/src/main/java/com/harshsinghio/passportseva/presentation/screens/register/RegisterViewModel.kt:37-42 | ticking copies the email into the login ID, unticking keeps the ID; the mirror property holds afterwards |
| RegisterForm.RegisterViewModel.UpdateLoginId | app/src/main/java/com/harshsinghio/passportseva/presentation/screens/register/RegisterViewModel.kt:44-46 | changes only the login ID (the availability flags stay) |
| RegisterForm.RegisterViewModel.UpdatePassword | app/src/main/java/com/harshsinghio/passportseva/presentation/screens/register/RegisterViewModel.kt:48-50 | changes only the password |
| RegisterForm.RegisterViewModel.UpdateConfirmPassword | app/src/main/java/com/harshsinghio/passportseva/presentation/screens/register/RegisterViewModel.kt:52-54 | changes only the confirmation |
| RegisterForm.RegisterViewModel.UpdateHintQuestion | app/src/main/java/com/harshsinghio/passportseva/presentation/screens/register/RegisterViewModel.kt:56-58 | changes only the hint question |
| RegisterForm.RegisterViewModel.UpdateHintAnswer | app/src/main/java/com/harshsinghio/passportseva/presentation/screens/register/RegisterViewModel.kt:60-62 | changes only the hint answer |
| RegisterForm.RegisterViewModel.UpdateCaptcha | app/src/main/java/com/harshsinghio/passportseva/presentation/screens/register/RegisterViewModel.kt:64-66 | changes only the captcha |
| RegisterForm.RegisterViewModel.UpdatePassportOffice | app/src/main/java/com/harshsinghio/passportseva/presentation/screens/register/RegisterViewModel.kt:68-70 | changes only the passport office |
| RegisterForm.RegisterViewModel.TogglePasswordVisibility | app/src/main/java/com/harshsinghio/passportseva/presentation/screens/register/RegisterViewModel.kt:72-74 | flips only showPassword |
| RegisterForm.RegisterViewModel.ToggleConfirmPasswordVisibility | app/src/main/java/com/harshsinghio/passportseva/presentation/screens/register/RegisterViewModel.kt:76-78 | flips only showConfirmPassword |
| RegisterForm.RegisterViewModel.ToggleHintAnswerVisibility | app/src/main/java/com/harshsinghio/passportseva/presentation/screens/register/RegisterViewModel.kt:80-82 | flips only showHintAnswer |
| RegisterForm.RegisterViewModel.CheckLoginIdAvailability | app/src/main/java/com/harshsinghio/passportseva/presentation/screens/register/RegisterViewModel.kt:85-107 | ends in the availability-checked state and keeps "login ID mirrors email" |
| RegisterForm.RegisterViewModel.Register | app/src/main/java/com/harshsinghio/passportseva/presentation/screens/register/RegisterViewModel.kt:112-142 | succeeds iff the form is complete; on failure only `error` changes, to a non-empty message; on success isLoading ends false and isRegistered true |
| RegisterForm.RegisterViewModel.ClearForm | app/src/main/java/com/harshsinghio/passportseva/presentation/screens/register/RegisterViewModel.kt:167-170 | restores every default |
| RegisterForm.RegisterViewModel.ClearError | app/src/main/java/com/harshsinghio/passportseva/presentation/screens/register/RegisterViewModel.kt:172-174 | changes only `error`, to "" |
| RegisterForm.ToggleVisibilityTwice | app/src/main/java/com/harshsinghio/passportseva/presentation/screens/register/RegisterViewModel.kt:72-82 | each visibility toggle applied twice restores the state |
| RegisterUseCase.ValidateRegistrationData | app/src/main/java/com/harshsinghio/passportseva/domain/usecase/auth/RegisterUseCase.kt:54-89 | no error iff name, email and mobile are not blank, the email has "@", the mobile has at least 10 UTF-16 units and the password at least 6 |
| RegisterUseCase.ValidateRegistrationDataIsFirstFailure | app/src/main/java/com/harshsinghio/passportseva/domain/usecase/auth/RegisterUseCase.kt:60-86 | the result is the message of the first failing check, in the order name, email, "@", mobile, mobile length, password, password length |
| RegisterUseCase.MobileCheckedByLengthOnly | app/src/main/java/com/harshsinghio/passportseva/domain/usecase/auth/RegisterUseCase.kt:76-78 | any non-blank mobile of ten or more UTF-16 units is judged exactly like ten digits |
| RegisterUseCase.LettersPassAsMobileNumber | app/src/main/java/com/harshsinghio/passportseva/domain/usecase/auth/RegisterUseCase.kt:76-78 | ten letters pass as a mobile number: nothing checks that it holds digits |
| RegisterUseCase.Invoke | app/src/main/java/com/harshsinghio/passportseva/domain/usecase/auth/RegisterUseCase.kt:23-43 | fails iff validation fails, with its message; otherwise forwards the four inputs unchanged to the repository |
| LoginUseCase.Invoke | app/src/main/java/com/harshsinghio/passportseva/domain/usecase/auth/LoginUseCase.kt:21-33 | a blank email fails first, then a blank password; otherwise the repository's login gets exactly these credentials |
| LoginUseCase.LoginWithGoogleToken | app/src/main/java/com/harshsinghio/passportseva/domain/usecase/auth/LoginUseCase.kt:41-47 | a blank token fails without calling the repository; otherwise the token is passed on |
| LoginUseCase.LoginWithDigiLockerCode | app/src/main/java/com/harshsinghio/passportseva/domain/usecase/auth/LoginUseCase.kt:55-61 | a blank code fails without calling the repository; otherwise the code is passed on |
| LoginForm.LoginOutcome | app/src/main/java/com/harshsinghio/passportseva/presentation/screens/login/LoginViewModel.kt:42-75 | a blank email or password ends with "Email and password cannot be empty"; otherwise logged in; loading ends false either way |
| LoginForm.RegisterOutcome | app/src/main/java/com/harshsinghio/passportseva/presentation/screens/login/LoginViewModel.kt:78-112 | any blank field ends with "All fields are required"; otherwise registered; loading ends false either way |
| LoginForm.LoginAgreesWithUseCase | app/src/main/java/com/harshsinghio/passportseva/presentation/screens/login/LoginViewModel.kt:42-75 | the screen logs in exactly when the login use case would call the repository with the same credentials |
| LoginForm.RegisterLaxerThanUseCase | app/src/main/java/com/harshsinghio/passportseva/presentation/screens/login/LoginViewModel.kt:78-112 | the screen registers a form ("a@b", "p", "N", "1") that the registration use case rejects for its mobile number |
| LoginForm.LoginViewModel.constructor | app/src/main/java/com/harshsinghio/passportseva/presentation/screens/login/LoginViewModel.kt:134-148 | the default screen and login states |
| LoginForm.LoginViewModel.UpdateEmail | app/src/main/java/com/harshsinghio/passportseva/presentation/screens/login/LoginViewModel.kt:21-23 | changes only the email |
| LoginForm.LoginViewModel.UpdatePassword | app/src/main/java/com/harshsinghio/passportseva/presentation/screens/login/LoginViewModel.kt:25-27 | changes only the password |
| LoginForm.LoginViewModel.UpdateName | app/src/main/java/com/harshsinghio/passportseva/presentation/screens/login/LoginViewModel.kt:29-31 | changes only the name |
| LoginForm.LoginViewModel.UpdateMobile | app/src/main/java/com/harshsinghio/passportseva/presentation/screens/login/LoginViewModel.kt:33-35 | changes only the mobile |
| LoginForm.LoginViewModel.TogglePasswordVisibility | app/src/main/java/com/harshsinghio/passportseva/presentation/screens/login/LoginViewModel.kt:37-39 | flips only showPassword |
| LoginForm.LoginViewModel.Login | app/src/main/java/com/harshsinghio/passportseva/presentation/screens/login/LoginViewModel.kt:42-75 | the login state becomes the login outcome and `onSuccess` runs iff both fields are non-blank |
| LoginForm.LoginViewModel.Register | app/src/main/java/com/harshsinghio/passportseva/presentation/screens/login/LoginViewModel.kt:78-112 | the login state becomes the register outcome and `onSuccess` runs iff all four fields are non-blank |
| LoginForm.LoginViewModel.LoginWithGoogle | app/src/main/java/com/harshsinghio/passportseva/presentation/screens/login/LoginViewModel.kt:115-119 | only sets the "not implemented" error |
| LoginForm.LoginViewModel.LoginWithDigiLocker | app/src/main/java/com/harshsinghio/passportseva/presentation/screens/login/LoginViewModel.kt:121-125 | only sets the "not implemented" error |
| LoginForm.LoginViewModel.ClearError | app/src/main/java/com/harshsinghio/passportseva/presentation/screens/login/LoginViewModel.kt:128-130 | only clears `error` |
| LoginForm.TogglePasswordVisibilityTwice | app/src/main/java/com/harshsinghio/passportseva/presentation/screens/login/LoginViewModel.kt:37-39 | toggling twice restores both states |
| Appointment.ValidateAppointment | app/src/main/java/com/harshsinghio/passportseva/presentation/screens/appointment/AppointmentViewModel.kt:125-131 | valid iff a location, a non-empty date and a time slot are all chosen |
| Appointment.UnavailableSlotStillValid | app/src/main/java/com/harshsinghio/passportseva/presentation/screens/appointment/AppointmentViewModel.kt:125-131 | the slot's availability flag is not consulted |
| Appointment.AppointmentViewModel.constructor | app/src/main/java/com/harshsinghio/passportseva/presentation/screens/appointment/AppointmentViewModel.kt:135-142 | no location, empty date, no slot, not valid; the validity flag is current |
| Appointment.AppointmentViewModel.SelectLocation | app/src/main/java/com/harshsinghio/passportseva/presentation/screens/appointment/AppointmentViewModel.kt:68-78 | changes the location and the validity flag, which is then recomputed from the new triple |
| Appointment.AppointmentViewModel.SelectDate | app/src/main/java/com/harshsinghio/passportseva/presentation/screens/appointment/AppointmentViewModel.kt:80-90 | changes the date and the validity flag, which is then recomputed from the new triple |
| Appointment.AppointmentViewModel.SelectTimeSlot | app/src/main/java/com/harshsinghio/passportseva/presentation/screens/appointment/AppointmentViewModel.kt:92-102 | changes the slot and the validity flag, which is then recomputed from the new triple |
| Appointment.AppointmentViewModel.ShowConfirmationDialog | app/src/main/java/com/harshsinghio/passportseva/presentation/screens/appointment/AppointmentViewModel.kt:104-107 | changes only the dialog flag |
| Appointment.AppointmentViewModel.DismissConfirmationDialog | app/src/main/java/com/harshsinghio/passportseva/presentation/screens/appointment/AppointmentViewModel.kt:109-112 | changes only the dialog flag |
| Appointment.AppointmentViewModel.ConfirmAppointment | app/src/main/java/com/harshsinghio/passportseva/presentation/screens/appointment/AppointmentViewModel.kt:114-119 | marks the appointment confirmed and closes the dialog without checking validity |
| Appointment.BookInOrder | app/src/main/java/com/harshsinghio/passportseva/presentation/screens/appointment/AppointmentViewModel.kt:68-102 | choosing a location, then a date, then a time slot, in that order, yields a valid appointment |
| Annexures.IndexOfDocument | app/src/main/java/com/harshsinghio/passportseva/presentation/screens/annexures/AnnexuresViewModel.kt:96-101 | `indexOf`: the first index holding the document, or -1 iff it is absent |
| Annexures.Navigated | app/src/main/java/com/harshsinghio/passportseva/presentation/screens/annexures/AnnexuresViewModel.kt:109-124 | "next" and "prev" move one step within bounds and open the document at the new index; any other direction changes nothing; the index stays in range |
| Annexures.NextThenPrevReturns | app/src/main/java/com/harshsinghio/passportseva/presentation/screens/annexures/AnnexuresViewModel.kt:109-124 | "next" then "prev" from an inner document returns to the starting state |
| Annexures.AnnexuresViewModel.constructor | app/src/main/java/com/harshsinghio/passportseva/presentation/screens/annexures/AnnexuresViewModel.kt:127-133 | the initial state: loading, no annexures, nothing open, index 0 |
| Annexures.AnnexuresViewModel.AnnexuresLoaded | app/src/main/java/com/harshsinghio/passportseva/presentation/screens/annexures/AnnexuresViewModel.kt:17-28 | the loaded list is stored and loading ends |
| Annexures.AnnexuresViewModel.OpenDocument | app/src/main/java/com/harshsinghio/passportseva/presentation/screens/annexures/AnnexuresViewModel.kt:96-101 | opens the document and sets the index to its first position, or -1 |
| Annexures.AnnexuresViewModel.CloseDocument | app/src/main/java/com/harshsinghio/passportseva/presentation/screens/annexures/AnnexuresViewModel.kt:103-107 | clears the open document and keeps the index |
| Annexures.AnnexuresViewModel.NavigateDocument | app/src/main/java/com/harshsinghio/passportseva/presentation/screens/annexures/AnnexuresViewModel.kt:109-124 | the state becomes the navigated state |
| AnnexuresScreen.FileId | app/src/main/java/com/harshsinghio/passportseva/presentation/screens/annexures/AnnexuresScreen.kt:95 | the corrected file id: the segment after the first "/d/", cut at the next "/" |
| AnnexuresScreen.DownloadUrl | app/src/main/java/com/harshsinghio/passportseva/presentation/screens/annexures/AnnexuresScreen.kt:96 | the download link is the Drive file prefix, the id and "/view"; the id sits between index 32 and the last five characters |
| AnnexuresScreen.DriveLinkFirstD | app/src/main/java/com/harshsinghio/passportseva/presentation/screens/annexures/AnnexuresScreen.kt:95 | in a Drive file link the first "/d/" is the one that ends the fixed prefix |
| AnnexuresScreen.FileIdOfDriveLink | app/src/main/java/com/harshsinghio/passportseva/presentation/screens/annexures/AnnexuresScreen.kt:95 | the corrected id of a Drive link is its segment after "/d/" |
| AnnexuresScreen.FileIdOfDownloadUrl | app/src/main/java/com/harshsinghio/passportseva/presentation/screens/annexures/AnnexuresScreen.kt:95-96 | round trip: the id read back from a download link is the id it was built from |
| AnnexuresScreen.FileIdAsWritten | app/src/main/java/com/harshsinghio/passportseva/presentation/screens/annexures/AnnexuresScreen.kt:95 | the id as written (`substringAfter("/d/")` then `substringBefore("/preview")`) is no longer than the link; see the two rows below |
| AnnexuresScreen.AsWrittenReadsPreviewLinks | app/src/main/java/com/harshsinghio/passportseva/presentation/screens/annexures/AnnexuresScreen.kt:95 | the code as written extracts the id from links ending in "/preview" |
| AnnexuresScreen.AsWrittenKeepsViewSuffix | app/src/main/java/com/harshsinghio/passportseva/presentation/screens/annexures/AnnexuresScreen.kt:95-96 | the code as written keeps "/view" in the id of a ".../view" link and builds ".../view/view" |
| AnnexuresScreen.ViewerUrl | app/src/main/java/com/harshsinghio/passportseva/presentation/screens/annexures/AnnexuresScreen.kt:258-259 | the viewer URL is the gview prefix, the download prefix and the document id; the download prefix follows the gview prefix directly |
| AnnexuresScreen.ViewerUrlNamesDocument | app/src/main/java/com/harshsinghio/passportseva/presentation/screens/annexures/AnnexuresScreen.kt:258-259 | the text after the first "&id=" of the viewer URL is the document id |
| AnnexuresScreen.Subtitle | app/src/main/java/com/harshsinghio/passportseva/presentation/screens/annexures/AnnexuresScreen.kt:135-139 | the subtitle is shown iff the annexure code is non-empty and quotes the code |
| AnnexuresScreen.ButtonsMatchNavigation | app/src/main/java/com/harshsinghio/passportseva/presentation/screens/annexures/AnnexuresScreen.kt:290-308 | Previous is shown iff "prev" would move, Next iff "next" would move |
| AnnexuresScreen.CounterText | app/src/main/java/com/harshsinghio/passportseva/presentation/screens/annexures/AnnexuresScreen.kt:272 | the counter is the position (index + 1), "/", and the total |
| AnnexuresScreen.CounterTextReadsBack | app/src/main/java/com/harshsinghio/passportseva/presentation/screens/annexures/AnnexuresScreen.kt:272 | the two numbers of the counter read back as index + 1 and the total |
| Expansion.Toggled | app/src/main/java/com/harshsinghio/passportseva/presentation/screens/faq/FaqViewModel.kt:29-40 | the id is added if absent and removed if present; no other id changes |
| Expansion.ToggledTwice | app/src/main/java/com/harshsinghio/passportseva/presentation/screens/faq/FaqViewModel.kt:30-36 | toggling the same id twice restores the set |
| Faq.FaqViewModel.constructor | app/src/main/java/com/harshsinghio/passportseva/presentation/screens/faq/FaqViewModel.kt:19-24 | after init: not loading, the data loaded, every expanded set empty, the query "" |
| Faq.FaqViewModel.ToggleCategory | app/src/main/java/com/harshsinghio/passportseva/presentation/screens/faq/FaqViewModel.kt:29-40 | toggles the id in the expanded categories only |
| Faq.FaqViewModel.ToggleSubcategory | app/src/main/java/com/harshsinghio/passportseva/presentation/screens/faq/FaqViewModel.kt:42-53 | toggles the id in the expanded subcategories only |
| Faq.FaqViewModel.ToggleQuestion | app/src/main/java/com/harshsinghio/passportseva/presentation/screens/faq/FaqViewModel.kt:55-66 | toggles the id in the expanded questions only |
| Faq.FaqViewModel.UpdateSearchQuery | app/src/main/java/com/harshsinghio/passportseva/presentation/screens/faq/FaqViewModel.kt:68-70 | changes only the query |
| Faq.ToggleCategoryTwice | app/src/main/java/com/harshsinghio/passportseva/presentation/screens/faq/FaqViewModel.kt:29-40 | toggling a category twice restores the state |
| FaqSearch.MatchingQuestions | app/src/main/java/com/harshsinghio/passportseva/presentation/screens/faq/FaqScreen.kt:38-40 | exactly the questions whose text or answer contains the query, ignoring case, each kept as often as it occurs, in their order |
| FaqSearch.FilterSubcategory | app/src/main/java/com/harshsinghio/passportseva/presentation/screens/faq/FaqScreen.kt:36-50 | kept iff a question matches or the title matches; narrowed to the matching questions when some match, otherwise kept whole |
| FaqSearch.FilterSubcategories | app/src/main/java/com/harshsinghio/passportseva/presentation/screens/faq/FaqScreen.kt:34-50 | the surviving subcategories, each a narrowing of an original one, in the original order |
| FaqSearch.FilterCategory | app/src/main/java/com/harshsinghio/passportseva/presentation/screens/faq/FaqScreen.kt:52-58 | kept iff a subcategory survives or the title matches; with the surviving subcategories when some survive, otherwise whole |
| FaqSearch.FilterCategories | app/src/main/java/com/harshsinghio/passportseva/presentation/screens/faq/FaqScreen.kt:32-60 | the surviving categories, each a narrowing of an original one, in order |
| FaqSearch.FilteredCategories | app/src/main/java/com/harshsinghio/passportseva/presentation/screens/faq/FaqScreen.kt:29-61 | a blank query returns the categories unchanged; otherwise the result is `FilterCategories` (the surviving narrowed categories), which embeds in order into the input and is no longer |
| FaqSearch.SubcategoriesEmbedSelf | app/src/main/java/com/harshsinghio/passportseva/presentation/screens/faq/FaqScreen.kt:34-50 | every list of subcategories narrows into itself (the blank-query case) |
| FaqSearch.CategoriesEmbedSelf | app/src/main/java/com/harshsinghio/passportseva/presentation/screens/faq/FaqScreen.kt:29-31 | every list of categories narrows into itself (the blank-query case) |
| FaqSearch.MatchingQuestionsIdempotent | app/src/main/java/com/harshsinghio/passportseva/presentation/screens/faq/FaqScreen.kt:38-40 | filtering questions twice with the same query gives the same list |
| FaqSearch.FilterSubcategoryIdempotent | app/src/main/java/com/harshsinghio/passportseva/presentation/screens/faq/FaqScreen.kt:36-50 | a filtered subcategory filters to itself |
| FaqSearch.FilterSubcategoriesIdempotent | app/src/main/java/com/harshsinghio/passportseva/presentation/screens/faq/FaqScreen.kt:34-50 | filtering subcategories twice gives the same list |
| FaqSearch.FilterCategoryIdempotent | app/src/main/java/com/harshsinghio/passportseva/presentation/screens/faq/FaqScreen.kt:52-58 | a filtered category filters to itself |
| FaqSearch.FilterCategoriesIdempotent | app/src/main/java/com/harshsinghio/passportseva/presentation/screens/faq/FaqScreen.kt:32-60 | filtering categories twice gives the same list |
| FaqSearch.FilteredCategoriesIdempotent | app/src/main/java/com/harshsinghio/passportseva/presentation/screens/faq/FaqScreen.kt:29-61 | applying the search filter again with the same query changes nothing |
| DocumentAdvisor.DocumentAdvisorViewModel.constructor | app/src/main/java/com/harshsinghio/passportseva/presentation/screens/documentadvisor/DocumentAdvisorViewModel.kt:15-21 | after init: the categories loaded, nothing selected, nothing expanded, not loading |
| DocumentAdvisor.DocumentAdvisorViewModel.SelectCategory | app/src/main/java/com/harshsinghio/passportseva/presentation/screens/documentadvisor/DocumentAdvisorViewModel.kt:23-27 | changes only the selected category |
| DocumentAdvisor.DocumentAdvisorViewModel.ExpandDocument | app/src/main/java/com/harshsinghio/passportseva/presentation/screens/documentadvisor/DocumentAdvisorViewModel.kt:29-39 | toggles the id in the expanded documents only |
| DocumentAdvisor.ExpandDocumentTwice | app/src/main/java/com/harshsinghio/passportseva/presentation/screens/documentadvisor/DocumentAdvisorViewModel.kt:30-35 | expanding the same document twice restores the state |
| DocumentSearch.MatchingDocuments | app/src/main/java/com/harshsinghio/passportseva/presentation/screens/documentadvisor/DocumentAdvisorScreen.kt:73-80 | exactly the documents whose title, description or notes contain the query, ignoring case, each kept as often as it occurs, in their order |
| DocumentSearch.NarrowedCategories | app/src/main/java/com/harshsinghio/passportseva/presentation/screens/documentadvisor/DocumentAdvisorScreen.kt:72-80 | each category with its documents narrowed to the matching ones, nothing else changed |
| DocumentSearch.KeptCategories | app/src/main/java/com/harshsinghio/passportseva/presentation/screens/documentadvisor/DocumentAdvisorScreen.kt:81 | exactly the categories that still hold a document or whose title matches, each kept as often as it occurs, in order |
| DocumentSearch.FilteredCategories | app/src/main/java/com/harshsinghio/passportseva/presentation/screens/documentadvisor/DocumentAdvisorScreen.kt:70-71 | a blank query returns the categories unchanged |
| DocumentSearch.FilterNarrowsInOrder | app/src/main/java/com/harshsinghio/passportseva/presentation/screens/documentadvisor/DocumentAdvisorScreen.kt:72-81 | the result embeds in order into the input, each category a narrowing of its original, and holds only matching documents |
| DocumentSearch.KeptNarrowedEmbeds | app/src/main/java/com/harshsinghio/passportseva/presentation/screens/documentadvisor/DocumentAdvisorScreen.kt:72-81 | narrowing then keeping never moves a document between categories or reorders them |
| DocumentSearch.FilterKeepsMatches | app/src/main/java/com/harshsinghio/passportseva/presentation/screens/documentadvisor/DocumentAdvisorScreen.kt:73-81 | a category survives (narrowed) iff one of its documents or its title matches, even with an empty document list |
| DocumentSearch.KeptCommutesWithoutDescriptions | app/src/main/java/com/harshsinghio/passportseva/presentation/screens/documentadvisor/DocumentAdvisorScreen.kt:81 | keeping categories does not read their descriptions |
| DocumentSearch.FilterIgnoresCategoryDescription | app/src/main/java/com/harshsinghio/passportseva/presentation/screens/documentadvisor/DocumentAdvisorScreen.kt:70-82 | two lists that differ only in category descriptions filter to results that differ only there |
| Navigation.Route | app/src/main/java/com/harshsinghio/passportseva/presentation/navigation/Screen.kt:9-20 | every screen route is non-empty and has no "/" |
| Navigation.RoutesDistinct | app/src/main/java/com/harshsinghio/passportseva/presentation/navigation/Screen.kt:9-20 | the ten routes are pairwise distinct |
| Navigation.JoinArgs | app/src/main/java/com/harshsinghio/passportseva/presentation/navigation/Screen.kt:31-33 | no arguments give ""; otherwise the suffix starts with "/" |
| Navigation.CreateRoute | app/src/main/java/com/harshsinghio/passportseva/presentation/navigation/Screen.kt:28-35 | the route followed by "/" + arg for each argument, in order |
| Navigation.BaseRoute | app/src/main/java/com/harshsinghio/passportseva/presentation/navigation/Screen.kt:46 | the text before the first "/", or the whole route when there is none |
| Navigation.FromRoute | app/src/main/java/com/harshsinghio/passportseva/presentation/navigation/Screen.kt:44-61 | the screen whose route is the base route, or Home |
| Navigation.UnknownRouteGoesHome | app/src/main/java/com/harshsinghio/passportseva/presentation/navigation/Screen.kt:59 | a base route that names no screen maps to Home |
| Navigation.EmptyRouteGoesHome | app/src/main/java/com/harshsinghio/passportseva/presentation/navigation/Screen.kt:59 | "" maps to Home |
| Navigation.BaseRouteOfBuiltRoute | app/src/main/java/com/harshsinghio/passportseva/presentation/navigation/Screen.kt:28-46 | the base route of a created route is the screen's own route |
| Navigation.FromRouteOfCreatedRoute | app/src/main/java/com/harshsinghio/passportseva/presentation/navigation/Screen.kt:9-60 | `fromRoute(s.createRoute(args)) == s` for any arguments, and `fromRoute(s.route) == s` |

## Left out

- Asset and JSON loading. `loadFeeData` and `loadJsonFromAsset` read a file through a coroutine and org.json; the schedule is a parameter of `FeeDataLoaded` and the failure message of `FeeDataFailed`.
- The fee schedule is a tree of objects, numbers and strings (`FeeSchedule.Node`). The rest of the org.json API, and its exceptions, are modelled only as "lookup fails".
- `FeeSchedule.LeafNumber`: org.json's `getDouble` parses a string leaf as a `Double`; here only a non-empty run of decimal digits is read. A string with a sign, a decimal point, an exponent or surrounding spaces is treated as a failed lookup (a fee of 0.0).
- Coroutines, `delay` and `viewModelScope.launch`. Each operation is modelled by its final state. Interleavings are not modelled, nor are the intermediate `isLoading`/`isCheckingAvailability` values that other observers could see during the delay.
- `onSuccess` callbacks. `Register` and `Login` return whether the callback would run.
- The `catch` branches of `register` and `login`. Their bodies throw nothing the model can produce.
- Fees are `Double` in the app and `real` here. IEEE rounding of `* 0.9` is not modelled.
- `Double.toInt` is modelled by `TruncateToInt` (truncation with 32-bit saturation).
- Unicode. `contains(…, ignoreCase = true)` folds ASCII letters only. `isDigit` accepts ASCII digits only. `isWhitespace` omits U+180E. A Dafny `char` is a Unicode scalar value, so strings are sequences of code points rather than of UTF-16 units. Where the code compares `length` (the password minimums and the mobile minimum), the model counts UTF-16 units with `Strings.Utf16Length`, in which a character outside the Basic Multilingual Plane counts twice.
- `toIntOrNull` on the age text sees only digit strings, because the screen filter admits nothing else. Signs are therefore not modelled.
- Compose rendering, theming, icons, the bottom bar and every other widget. Only the conditions and texts named in the table are modelled.
- `Intent` launching and `WebView.loadUrl`. Only the URL strings are modelled.
- The hardcoded FAQ, document, annexure, location and time-slot lists. They are parameters (`constructor(faqData)`, `constructor(documentCategories)`, `AnnexuresLoaded(list)`).
- `Location` and `TimeSlot` keep only the fields the view model reads or compares.
- The authentication repository is not modelled. The use cases return `CallsRepository(request)` with the exact request the repository would receive.
- `submitFeedback` in the FAQ view model only logs, so it is not modelled.
- The `FeeCalculatorScreen.Show…Field` predicates give the conditions inside the form (app/src/main/java/com/harshsinghio/passportseva/presentation/screens/feecalculator/FeeCalculatorScreen.kt:103-174). The form itself is on screen only when `FeeCalculatorScreen.FormShown` holds (app/src/main/java/com/harshsinghio/passportseva/presentation/screens/feecalculator/FeeCalculatorScreen.kt:53-70); while the schedule loads a spinner takes its place, and after a failed load the error text does.
- `FeeCalculator.CalculateFee` states only its 0.0 cases in its own contract. The value in every other case is stated by `FeeCalculator.CalculateFeeFollowsPath`.
- `AnnexuresScreen.FileIdAsWritten` states only a length bound in its own contract. Its behaviour is stated by `AnnexuresScreen.AsWrittenReadsPreviewLinks` and `AnnexuresScreen.AsWrittenKeepsViewSuffix`.

## Findings

| source | as written | input that shows it | evidently intended | confidence | as-written member | corrected member |
|---|---|---|---|---|---|---|
| app/src/main/java/com/harshsinghio/passportseva/presentation/screens/annexures/AnnexuresScreen.kt:95 | the file id is `substringAfter("/d/").substringBefore("/preview")`, but the annexure links end in "/view", so the id keeps "/view" and the download link becomes ".../d/ID/view/view" | "https://drive.google.com/file/d/11OfR3uZT6aQixsaMT7uJ-03sY1mOnP21/view" (app/src/main/java/com/harshsinghio/passportseva/presentation/screens/annexures/AnnexuresViewModel.kt:41) | the id is the path segment after "/d/", and the download link is the original link | not executed | AnnexuresScreen.AsWrittenKeepsViewSuffix | AnnexuresScreen.FileIdOfDownloadUrl |
