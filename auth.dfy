/** The sign-in and sign-up forms: their schema checks, the mocked credential decisions,
    and the two `localStorage` entries a successful submission writes. The `.email()`
    format check is an input (`emailWellFormed`). */
module Auth {
  import opened Wrappers
  import opened Text
  import opened Numbers

  const MockedExistingEmail := "existinguser@example.com"
  const MockedPassword := "Password123!"

  datatype Field = Username | FullName | Email | Password | ConfirmPassword | Root
  datatype Issue = Issue(field: Field, message: string)

  datatype SignInForm = SignInForm(email: string, password: string)
  datatype SignUpForm = SignUpForm(
    username: string, fullName: string, email: string, password: string, confirmPassword: string)

  /** What sign-up stores under `userProfile`. */
  datatype Profile = Profile(fullName: string, username: string, email: string)

  // ----- Password policy -----

  predicate IsAlphanumeric(c: char) { IsLower(c) || IsUpper(c) || IsDigit(c) }

  /** `/[a-z]/`, `/[A-Z]/`, `/[0-9]/` and `/[^a-zA-Z0-9]/`: some character of the class. */
  predicate HasLower(s: string) { exists i :: 0 <= i < |s| && IsLower(s[i]) }
  predicate HasUpper(s: string) { exists i :: 0 <= i < |s| && IsUpper(s[i]) }
  predicate HasDigit(s: string) { exists i :: 0 <= i < |s| && IsDigit(s[i]) }
  predicate HasSpecial(s: string) { exists i :: 0 <= i < |s| && !IsAlphanumeric(s[i]) }

  /** The sign-up password policy. */
  predicate StrongPassword(pw: string) {
    |pw| >= 8 && HasLower(pw) && HasUpper(pw) && HasDigit(pw) && HasSpecial(pw)
  }

  /** Every failing password check, in schema order. */
  function PasswordIssues(pw: string): (issues: seq<Issue>)
    ensures issues == [] <==> StrongPassword(pw)
    ensures forall x :: x in issues ==> x.field == Password
  {
    (if |pw| < 8 then [Issue(Password, "Password must be at least 8 characters.")] else []) +
    (if !HasLower(pw) then [Issue(Password, "Password must contain at least one lowercase letter.")] else []) +
    (if !HasUpper(pw) then [Issue(Password, "Password must contain at least one uppercase letter.")] else []) +
    (if !HasDigit(pw) then [Issue(Password, "Password must contain at least one number.")] else []) +
    (if !HasSpecial(pw) then [Issue(Password, "Password must contain at least one special character.")] else [])
  }

  /** The mocked account's password meets the policy. */
  lemma MockedPasswordIsStrong()
    ensures StrongPassword(MockedPassword)
  {
    var pw := MockedPassword;
    assert IsUpper(pw[0]) && IsLower(pw[1]) && IsDigit(pw[8]) && !IsAlphanumeric(pw[11]);
  }

  /** Eight letters alone are rejected: a digit and a special character are missing. */
  lemma LettersOnlyRejected()
    ensures var issues := PasswordIssues("Password");
      Issue(Password, "Password must contain at least one number.") in issues &&
      Issue(Password, "Password must contain at least one special character.") in issues
  {
    var pw := "Password";
    assert forall i :: 0 <= i < |pw| ==> !IsDigit(pw[i]) && IsAlphanumeric(pw[i]);
  }

  // ----- Sign-up -----

  predicate SignUpValid(form: SignUpForm, emailWellFormed: bool) {
    3 <= |form.username| <= 20 && 2 <= |form.fullName| <= 50 && emailWellFormed &&
    StrongPassword(form.password) && form.confirmPassword == form.password
  }

  /** The length checks on the username and the full name. */
  function NameIssues(username: string, fullName: string): (issues: seq<Issue>)
    ensures issues == [] <==> 3 <= |username| <= 20 && 2 <= |fullName| <= 50
    ensures forall x :: x in issues ==> x.field == Username || x.field == FullName
  {
    (if |username| < 3 then [Issue(Username, "Username must be at least 3 characters.")] else []) +
    (if |username| > 20 then [Issue(Username, "Username must be 20 characters or less.")] else []) +
    (if |fullName| < 2 then [Issue(FullName, "Full name must be at least 2 characters.")] else []) +
    (if |fullName| > 50 then [Issue(FullName, "Full name must be 50 characters or less.")] else [])
  }

  /** The per-field checks of `signUpSchema`, in schema order. */
  function FieldIssues(form: SignUpForm, emailWellFormed: bool): (issues: seq<Issue>)
    ensures issues == [] <==>
      3 <= |form.username| <= 20 && 2 <= |form.fullName| <= 50 && emailWellFormed &&
      StrongPassword(form.password)
    ensures forall x :: x in issues ==> x.field != ConfirmPassword
  {
    NameIssues(form.username, form.fullName) +
    (if !emailWellFormed then [Issue(Email, "Invalid email address.")] else []) +
    PasswordIssues(form.password)
  }

  /** `signUpSchema`: the field checks, then the refinement that attaches a mismatch to
      `confirmPassword`. */
  function SignUpIssues(form: SignUpForm, emailWellFormed: bool): (issues: seq<Issue>)
    ensures issues == [] <==> SignUpValid(form, emailWellFormed)
    ensures Issue(ConfirmPassword, "Passwords don't match.") in issues <==>
      form.confirmPassword != form.password
    ensures forall x :: x in issues && x.field == ConfirmPassword ==>
      x.message == "Passwords don't match."
  {
    var fieldIssues := FieldIssues(form, emailWellFormed);
    assert Issue(ConfirmPassword, "Passwords don't match.") !in fieldIssues;
    fieldIssues +
    (if form.confirmPassword != form.password then [Issue(ConfirmPassword, "Passwords don't match.")] else [])
  }

  datatype SignUpOutcome =
    | SignUpInvalid(issues: seq<Issue>)
    | EmailTaken(error: Issue)
    | SignedUp(profile: Profile)

  /** `handleSubmit(onSignUpSubmit)`: the schema first, then the registered-email check. */
  function SignUpDecision(form: SignUpForm, emailWellFormed: bool): (r: SignUpOutcome)
    ensures r.SignedUp? <==> SignUpValid(form, emailWellFormed) && form.email != MockedExistingEmail
    ensures r.EmailTaken? <==> SignUpValid(form, emailWellFormed) && form.email == MockedExistingEmail
    ensures r.EmailTaken? ==> r.error == Issue(Email, "This email address is already registered.")
    ensures r.SignedUp? ==> r.profile == Profile(form.fullName, form.username, form.email)
    ensures r.SignUpInvalid? ==> r.issues == SignUpIssues(form, emailWellFormed) && r.issues != []
  {
    var issues := SignUpIssues(form, emailWellFormed);
    if issues != [] then SignUpInvalid(issues)
    else if form.email == MockedExistingEmail then
      EmailTaken(Issue(Email, "This email address is already registered."))
    else SignedUp(Profile(form.fullName, form.username, form.email))
  }

  // ----- Sign-in -----

  /** `signInSchema`: a well-formed email and a non-empty password. */
  function SignInIssues(form: SignInForm, emailWellFormed: bool): (issues: seq<Issue>)
    ensures issues == [] <==> emailWellFormed && |form.password| >= 1
  {
    (if !emailWellFormed then [Issue(Email, "Invalid email address.")] else []) +
    (if |form.password| < 1 then [Issue(Password, "Password is required.")] else [])
  }

  datatype SignInOutcome =
    | SignInInvalid(issues: seq<Issue>)
    | LoginRejected(error: Issue)
    | LoggedIn

  /** `handleSubmit(onSignInSubmit)`: only the mocked email with the mocked password logs in. */
  function SignInDecision(form: SignInForm, emailWellFormed: bool): (r: SignInOutcome)
    ensures r.LoggedIn? <==>
      emailWellFormed && form.email == MockedExistingEmail && form.password == MockedPassword
    ensures r.LoginRejected? <==>
      SignInIssues(form, emailWellFormed) == [] &&
      !(form.email == MockedExistingEmail && form.password == MockedPassword)
    ensures r.LoginRejected? ==> r.error == Issue(Root, "Invalid email or password.")
    ensures r.SignInInvalid? ==> r.issues == SignInIssues(form, emailWellFormed) && r.issues != []
  {
    var issues := SignInIssues(form, emailWellFormed);
    if issues != [] then SignInInvalid(issues)
    else if form.email == MockedExistingEmail && form.password == MockedPassword then LoggedIn
    else LoginRejected(Issue(Root, "Invalid email or password."))
  }

  // ----- Stored session -----

  /** The `isUserLoggedIn` and `userProfile` entries of `localStorage`. */
  class AuthStorage {
    var isUserLoggedIn: Option<string>
    var userProfile: Option<Profile>

    constructor (loggedIn: Option<string>, profile: Option<Profile>)
      ensures isUserLoggedIn == loggedIn && userProfile == profile
    {
      isUserLoggedIn, userProfile := loggedIn, profile;
    }

    /** A successful sign-in sets the flag to `'true'`; nothing else is written. */
    method SubmitSignIn(form: SignInForm, emailWellFormed: bool) returns (outcome: SignInOutcome)
      modifies this
      ensures outcome == SignInDecision(form, emailWellFormed)
      ensures outcome.LoggedIn? ==> isUserLoggedIn == Some("true")
      ensures !outcome.LoggedIn? ==> isUserLoggedIn == old(isUserLoggedIn)
      ensures userProfile == old(userProfile)
    {
      outcome := SignInDecision(form, emailWellFormed);
      if outcome.LoggedIn? {
        isUserLoggedIn := Some("true");
      }
    }

    /** A successful sign-up sets the flag and stores the profile; a taken email or a
        schema error leaves both entries as they were. */
    method SubmitSignUp(form: SignUpForm, emailWellFormed: bool) returns (outcome: SignUpOutcome)
      modifies this
      ensures outcome == SignUpDecision(form, emailWellFormed)
      ensures outcome.SignedUp? ==>
        isUserLoggedIn == Some("true") &&
        userProfile == Some(Profile(form.fullName, form.username, form.email))
      ensures !outcome.SignedUp? ==>
        isUserLoggedIn == old(isUserLoggedIn) && userProfile == old(userProfile)
    {
      outcome := SignUpDecision(form, emailWellFormed);
      if outcome.SignedUp? {
        isUserLoggedIn := Some("true");
        userProfile := Some(outcome.profile);
      }
    }
  }
}
