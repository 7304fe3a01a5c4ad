/** The authentication API layer (`AuthAPI` in src/api/auth.ts): each endpoint turns
    the provider's answer, or the error it throws, into an `AuthResponse`. The
    provider's calls are parameters: what they return, or the code and message of
    what they throw. */
module AuthApi {

  import opened Common

  /** What a provider call did: returned a value, or threw an error whose `code` and
      `message` may be missing. */
  datatype Outcome<T> = Done(value: T) | Failed(code: Option<string>, message: Option<string>)

  /** The provider's user record, as far as the endpoints read it. */
  datatype FirebaseUser = FirebaseUser(uid: string, email: Option<string>, displayName: Option<string>,
                                       emailVerified: bool)

  datatype AuthUser = AuthUser(uid: string, email: Option<string>, displayName: Option<string>,
                               emailVerified: bool)

  datatype AuthResponse = AuthResponse(success: bool, data: Option<AuthUser>, error: Option<string>)

  /** The profile fields an endpoint asks the provider to update. */
  datatype ProfileUpdate = ProfileUpdate(displayName: Option<string>, photoUrl: Option<string>)

  /** A response together with the profile update the endpoint sent, if any. */
  datatype Exchange = Exchange(response: AuthResponse, sent: Option<ProfileUpdate>)

  datatype FirebaseOptions = FirebaseOptions(apiKey: Option<string>, authDomain: Option<string>,
                                             projectId: Option<string>)

  datatype ConfigurationCheck = ConfigurationCheck(isValid: bool, errors: seq<string>)

  const NoAuthenticatedUser: string := "No authenticated user"
  const CurrentUserFailed: string := "Failed to get current user"
  const UpdateProfileFailed: string := "Failed to update profile"
  const FallbackPrefix: string := "Authentication error: "
  const MissingApiKey: string := "Missing Firebase API key"
  const MissingAuthDomain: string := "Missing Firebase auth domain"
  const MissingProjectId: string := "Missing Firebase project ID"
  const ConfigurationCheckFailed: string := "Failed to check Firebase configuration"

  /** The table of `getAuthErrorMessage`, looked up by code. */
  function AuthErrorText(code: string): Option<string> {
    if code == "auth/email-already-in-use" then Some("This email is already registered. Please use a different email or sign in.")
    else if code == "auth/weak-password" then Some("Password is too weak. Please use at least 6 characters.")
    else if code == "auth/invalid-email" then Some("Please enter a valid email address.")
    else if code == "auth/user-not-found" then Some("No account found with this email. Please check your email or create a new account.")
    else if code == "auth/wrong-password" then Some("Incorrect password. Please try again or reset your password.")
    else if code == "auth/too-many-requests" then Some("Too many failed attempts. Please try again later.")
    else if code == "auth/network-request-failed" then Some("Network error. Please check your connection and try again.")
    else if code == "auth/user-disabled" then Some("This account has been disabled. Please contact support.")
    else if code == "auth/invalid-credential" then Some("Invalid email or password. Please check your credentials.")
    else if code == "auth/operation-not-allowed" then Some("This operation is not allowed. Please contact support.")
    else if code == "auth/requires-recent-login" then Some("Please log in again to perform this action.")
    else if code == "auth/configuration-not-found" then Some("Firebase configuration error. Please check your Firebase setup.")
    else if code == "auth/invalid-api-key" then Some("Invalid Firebase API key. Please check your configuration.")
    else if code == "auth/missing-android-pkg-name" then Some("Missing Android package name.")
    else if code == "auth/missing-continue-uri" then Some("Missing continue URL.")
    else if code == "auth/missing-ios-bundle-id" then Some("Missing iOS bundle ID.")
    else if code == "auth/invalid-continue-uri" then Some("Invalid continue URL.")
    else if code == "auth/unauthorized-continue-uri" then Some("Unauthorized continue URL.")
    else None
  }

  /** A thrown error's `code` as the template literal and the property lookup see
      it: a missing code reads as "undefined". */
  function CodeText(code: Option<string>): (s: string)
    ensures code.Some? ==> s == code.value
  {
    code.GetOr("undefined")
  }

  /** `getAuthErrorMessage(errorCode)`: the table's entry, else a message naming the code. */
  function GetAuthErrorMessage(code: string): (r: string)
    ensures r != ""
    ensures Truthy(AuthErrorText(code)) ==> r == AuthErrorText(code).value
    ensures !Truthy(AuthErrorText(code)) ==> r == FallbackPrefix + code && r[|FallbackPrefix|..] == code
  {
    var r := OrElse(AuthErrorText(code), FallbackPrefix + code);
    assert (FallbackPrefix + code)[|FallbackPrefix|..] == code;
    r
  }

  /** Two codes the table does not know are reported by two different messages, so
      the fallback never loses which code was thrown. */
  lemma UnknownCodesDistinguished(a: string, b: string)
    requires !Truthy(AuthErrorText(a)) && !Truthy(AuthErrorText(b)) && a != b
    ensures GetAuthErrorMessage(a) != GetAuthErrorMessage(b)
  {
    var ma, mb := GetAuthErrorMessage(a), GetAuthErrorMessage(b);
    assert ma[|FallbackPrefix|..] == a && mb[|FallbackPrefix|..] == b;
  }

  /** The response of a failed call that is reported through the table. */
  function Failure(code: Option<string>): (r: AuthResponse)
    ensures !r.success && r.data.None? && r.error == Some(GetAuthErrorMessage(CodeText(code)))
  {
    AuthResponse(false, None, Some(GetAuthErrorMessage(CodeText(code))))
  }

  /** The fields the endpoints report of a user. */
  function Report(user: FirebaseUser, displayName: Option<string>): (u: AuthUser)
    ensures u.uid == user.uid && u.email == user.email && u.emailVerified == user.emailVerified
    ensures u.displayName == displayName
  {
    AuthUser(user.uid, user.email, displayName, user.emailVerified)
  }

  /** `a || b` on optional strings: `a` when it is a non-empty string, else `b`. */
  function Prefer(a: Option<string>, b: Option<string>): (r: Option<string>)
    ensures Truthy(a) ==> r == a
    ensures !Truthy(a) ==> r == b
  {
    if Truthy(a) then a else b
  }

  /** `login(credentials)`, given what the sign-in call did. */
  function Login(signIn: Outcome<FirebaseUser>): (r: AuthResponse)
    ensures r.success <==> signIn.Done?
    ensures signIn.Done? ==> r.data == Some(Report(signIn.value, signIn.value.displayName)) && r.error.None?
    ensures signIn.Failed? ==> r == Failure(signIn.code)
  {
    match signIn
    case Done(user) => AuthResponse(true, Some(Report(user, user.displayName)), None)
    case Failed(code, _) => Failure(code)
  }

  /** `register(userData)`, given what the account creation and the profile update
      did; the profile update is sent only for a non-empty display name. */
  function Register(displayName: Option<string>, create: Outcome<FirebaseUser>, update: Outcome<()>): (x: Exchange)
    ensures create.Failed? ==> x.response == Failure(create.code) && x.sent.None?
    ensures create.Done? ==> (x.sent.Some? <==> Truthy(displayName))
    ensures x.sent.Some? ==> x.sent == Some(ProfileUpdate(displayName, None))
    ensures x.response.success <==> create.Done? && (x.sent.None? || update.Done?)
    ensures x.response.success ==>
              x.response.data == Some(Report(create.value, Prefer(displayName, create.value.displayName)))
    ensures create.Done? && x.sent.Some? && update.Failed? ==> x.response == Failure(update.code)
  {
    match create
    case Failed(code, _) => Exchange(Failure(code), None)
    case Done(user) =>
      if Truthy(displayName) then
        var sent := Some(ProfileUpdate(displayName, None));
        match update
        case Failed(code, _) => Exchange(Failure(code), sent)
        case Done(_) => Exchange(AuthResponse(true, Some(Report(user, Prefer(displayName, user.displayName))), None), sent)
      else
        Exchange(AuthResponse(true, Some(Report(user, Prefer(displayName, user.displayName))), None), None)
  }

  /** The display name `register` reports is the one supplied when it is non-empty,
      and the provider's own otherwise. */
  lemma RegisterDisplayNameChoice(displayName: Option<string>, user: FirebaseUser, update: Outcome<()>)
    requires Truthy(displayName) ==> update.Done?
    ensures var x := Register(displayName, Done(user), update);
            x.response.success &&
            (Truthy(displayName) ==> x.response.data.value.displayName == displayName) &&
            (!Truthy(displayName) ==> x.response.data.value.displayName == user.displayName)
  {
  }

  /** `logout()` and `resetPassword(request)`: success, or the error's message. */
  function Acknowledge(call: Outcome<()>): (r: AuthResponse)
    ensures r.success <==> call.Done?
    ensures r.data.None?
    ensures call.Failed? ==> r.error == Some(GetAuthErrorMessage(CodeText(call.code)))
  {
    match call
    case Done(_) => AuthResponse(true, None, None)
    case Failed(code, _) => Failure(code)
  }

  /** `getCurrentUser()`, given what reading the provider's current user gave. */
  function GetCurrentUser(current: Outcome<Option<FirebaseUser>>): (r: AuthResponse)
    ensures r.success <==> current.Done? && current.value.Some?
    ensures r.success ==> r.data == Some(Report(current.value.value, current.value.value.displayName)) && r.error.None?
    ensures current.Done? && current.value.None? ==> r == AuthResponse(false, None, Some(NoAuthenticatedUser))
    ensures current.Failed? ==> r == AuthResponse(false, None, Some(CurrentUserFailed))
  {
    match current
    case Failed(_, _) => AuthResponse(false, None, Some(CurrentUserFailed))
    case Done(None) => AuthResponse(false, None, Some(NoAuthenticatedUser))
    case Done(Some(user)) => AuthResponse(true, Some(Report(user, user.displayName)), None)
  }

  /** `updateProfile(displayName, photoURL)`: with nobody signed in nothing is sent to
      the provider; otherwise both fields are sent as given, and a failure of the
      update gives a fixed message. */
  function UpdateProfile(displayName: Option<string>, photoUrl: Option<string>, current: Option<FirebaseUser>,
                         update: Outcome<()>): (x: Exchange)
    ensures current.None? ==> x == Exchange(AuthResponse(false, None, Some(NoAuthenticatedUser)), None)
    ensures current.Some? ==> x.sent == Some(ProfileUpdate(displayName, photoUrl))
    ensures x.response.success <==> current.Some? && update.Done?
    ensures x.response.success ==>
              x.response.data == Some(Report(current.value, Prefer(displayName, current.value.displayName)))
    ensures current.Some? && update.Failed? ==> x.response == AuthResponse(false, None, Some(UpdateProfileFailed))
  {
    match current
    case None => Exchange(AuthResponse(false, None, Some(NoAuthenticatedUser)), None)
    case Some(user) =>
      var sent := Some(ProfileUpdate(displayName, photoUrl));
      match update
      case Failed(_, _) => Exchange(AuthResponse(false, None, Some(UpdateProfileFailed)), sent)
      case Done(_) => Exchange(AuthResponse(true, Some(Report(user, Prefer(displayName, user.displayName))), None), sent)
  }

  /** Count of the settings that are missing or empty. */
  function MissingCount(o: FirebaseOptions): nat {
    (if Truthy(o.apiKey) then 0 else 1) + (if Truthy(o.authDomain) then 0 else 1) +
    (if Truthy(o.projectId) then 0 else 1)
  }

  /** `checkConfiguration()`, given the app's options or the failure of reading them:
      one message per missing setting, in the order API key, auth domain, project id,
      and valid exactly when there is none. */
  function CheckConfiguration(app: Outcome<FirebaseOptions>): (c: ConfigurationCheck)
    ensures app.Failed? ==> c == ConfigurationCheck(false, [ConfigurationCheckFailed])
    ensures app.Done? ==> |c.errors| == MissingCount(app.value)
    ensures app.Done? ==> (c.isValid <==> c.errors == [])
    ensures app.Done? ==> (c.isValid <==> Truthy(app.value.apiKey) && Truthy(app.value.authDomain) && Truthy(app.value.projectId))
    ensures app.Done? && !Truthy(app.value.apiKey) ==> c.errors[0] == MissingApiKey
    ensures app.Done? && !Truthy(app.value.projectId) ==> c.errors[|c.errors| - 1] == MissingProjectId
    ensures app.Done? && !Truthy(app.value.authDomain) ==>
              c.errors[if Truthy(app.value.apiKey) then 0 else 1] == MissingAuthDomain
  {
    match app
    case Failed(_, _) => ConfigurationCheck(false, [ConfigurationCheckFailed])
    case Done(o) =>
      var errors := (if Truthy(o.apiKey) then [] else [MissingApiKey]) +
                    (if Truthy(o.authDomain) then [] else [MissingAuthDomain]) +
                    (if Truthy(o.projectId) then [] else [MissingProjectId]);
      ConfigurationCheck(|errors| == 0, errors)
  }
}
