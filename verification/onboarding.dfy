/**
 * The sign-up and profile-completion pages (pages/SignUp.tsx, pages/CompleteProfile.tsx):
 * the checks each form passes before anything is sent, in the order they are made, and
 * where a finished sign-up lands. The auth calls are parameters.
 */
module Onboarding {
  import opened Wrappers

  /** `searchParams.get("role") || "customer"`: an absent or empty role is a customer. */
  function DefaultRole(param: Option<string>): (role: string)
    ensures role != ""
    ensures param == None || param.value == "" ==> role == "customer"
    ensures param != None && param.value != "" ==> role == param.value
  {
    if param == None || param.value == "" then "customer" else param.value
  }

  datatype SignUpForm = SignUpForm(
    email: string, password: string, confirmPassword: string, fullName: string,
    phone: string, role: string, vendorName: string, location: string)

  datatype ProfileForm = ProfileForm(
    fullName: string, phone: string, role: string, vendorName: string, location: string)

  /** The profile form as first shown: every field empty, the customer role chosen. */
  const InitialProfile := ProfileForm("", "", "customer", "", "")

  /** The profile fields of a sign-up form, as sent to complete the profile. */
  function ProfileOf(f: SignUpForm): ProfileForm {
    ProfileForm(f.fullName, f.phone, f.role, f.vendorName, f.location)
  }

  /**
   * The profile page's checks: an empty name or phone first, then a vendor without a
   * vendor name. None when the form passes.
   */
  function ProfileCheck(p: ProfileForm): (r: Option<string>)
    ensures r == None <==> p.fullName != "" && p.phone != "" && (p.role == "vendor" ==> p.vendorName != "")
    ensures p.fullName == "" || p.phone == "" ==> r == Some("Please fill in all required fields")
    ensures p.fullName != "" && p.phone != "" && p.role == "vendor" && p.vendorName == "" ==>
              r == Some("Please enter your vendor name")
  {
    if p.fullName == "" || p.phone == "" then Some("Please fill in all required fields")
    else if p.role == "vendor" && p.vendorName == "" then Some("Please enter your vendor name")
    else None
  }

  /**
   * The sign-up page's checks: the confirmation must match the password, the password
   * must have at least six characters, and then come the profile checks. None when the
   * form passes.
   */
  function SignUpCheck(f: SignUpForm): (r: Option<string>)
    ensures f.password != f.confirmPassword ==> r == Some("Passwords do not match")
    ensures f.password == f.confirmPassword && |f.password| < 6 ==>
              r == Some("Password must be at least 6 characters")
    ensures r == None <==> f.password == f.confirmPassword && |f.password| >= 6 && ProfileCheck(ProfileOf(f)) == None
  {
    if f.password != f.confirmPassword then Some("Passwords do not match")
    else if |f.password| < 6 then Some("Password must be at least 6 characters")
    else ProfileCheck(ProfileOf(f))
  }

  /** Past the password checks, the sign-up page refuses exactly what the profile page
      refuses, with the same message; in particular, a customer needs no vendor name. */
  lemma SignUpChecksProfile(f: SignUpForm)
    requires f.password == f.confirmPassword && |f.password| >= 6
    ensures SignUpCheck(f) == ProfileCheck(ProfileOf(f))
    ensures f.role != "vendor" && f.fullName != "" && f.phone != "" ==> SignUpCheck(f) == None
  {
  }

  /** Where a finished sign-up or profile lands. */
  function HomeFor(role: string): (path: string)
    ensures role == "vendor" <==> path == "/vendor/menu"
    ensures role != "vendor" <==> path == "/customer/vendors"
  {
    if role == "vendor" then "/vendor/menu" else "/customer/vendors"
  }

  /** What a thrown error carries: the server's `error` field when it answered, and the
      error's own message. */
  datatype Thrown = Thrown(serverError: Option<string>, message: string)

  /** `error.response?.data?.error || error.message || fallback`. */
  function ErrorText(e: Thrown, fallback: string): (text: string)
    ensures e.serverError != None && e.serverError.value != "" ==> text == e.serverError.value
    ensures (e.serverError == None || e.serverError.value == "") && e.message != "" ==> text == e.message
    ensures (e.serverError == None || e.serverError.value == "") && e.message == "" ==> text == fallback
  {
    if e.serverError != None && e.serverError.value != "" then e.serverError.value
    else if e.message != "" then e.message
    else fallback
  }

  datatype Submission =
    | Invalid(message: string)      // a check's toast; nothing sent
    | Failed(message: string)       // a call threw
    | Landed(path: string)          // done; the page moved on

  /**
   * `handleSubmit` on the sign-up page: the checks, then registration, an automatic
   * email verification when registration returned a code (whose failure is ignored),
   * then profile completion with the form's profile fields, then the role's home page.
   */
  function SubmitSignUp(f: SignUpForm,
                        register: SignUpForm -> Result<Option<string>, Thrown>,
                        verifyEmail: (string, string) -> Result<(), Thrown>,
                        completeProfile: ProfileForm -> Result<(), Thrown>): (r: Submission)
    ensures SignUpCheck(f) != None ==> r == Invalid(SignUpCheck(f).value)
    ensures r.Landed? <==> SignUpCheck(f) == None && register(f).Success? && completeProfile(ProfileOf(f)).Success?
    ensures r.Landed? ==> r.path == HomeFor(f.role)
    ensures SignUpCheck(f) == None ==> !r.Invalid?
    ensures r.Failed? && register(f).Failure? ==> r.message == ErrorText(register(f).error, "Failed to create account")
    ensures r.Failed? && register(f).Success? ==>
              completeProfile(ProfileOf(f)).Failure?
              && r.message == ErrorText(completeProfile(ProfileOf(f)).error, "Failed to create account")
  {
    match SignUpCheck(f)
    case Some(m) => Invalid(m)
    case None =>
      match register(f)
      case Failure(e) => Failed(ErrorText(e, "Failed to create account"))
      case Success(code) =>
        var _ := if code != None && code.value != "" then verifyEmail(f.email, code.value) else Success(());
        match completeProfile(ProfileOf(f))
        case Failure(e) => Failed(ErrorText(e, "Failed to create account"))
        case Success(_) => Landed(HomeFor(f.role))
  }

  /** The outcome of a sign-up does not depend on whether the automatic verification
      succeeded. */
  lemma VerificationFailureIgnored(f: SignUpForm,
                                   register: SignUpForm -> Result<Option<string>, Thrown>,
                                   verify1: (string, string) -> Result<(), Thrown>,
                                   verify2: (string, string) -> Result<(), Thrown>,
                                   completeProfile: ProfileForm -> Result<(), Thrown>)
    ensures SubmitSignUp(f, register, verify1, completeProfile) == SubmitSignUp(f, register, verify2, completeProfile)
  {
  }

  /**
   * `handleSubmit` on the profile page: the checks, then profile completion, then the
   * role's home page. (The automatic verification it tries first from stored data has
   * no effect on the outcome and is not modelled.)
   */
  function SubmitProfile(p: ProfileForm, completeProfile: ProfileForm -> Result<(), Thrown>): (r: Submission)
    ensures ProfileCheck(p) != None ==> r == Invalid(ProfileCheck(p).value)
    ensures ProfileCheck(p) == None ==> !r.Invalid?
    ensures r.Landed? <==> ProfileCheck(p) == None && completeProfile(p).Success?
    ensures r.Landed? ==> r.path == HomeFor(p.role)
    ensures r.Failed? ==> r.message == ErrorText(completeProfile(p).error, "Failed to complete profile")
  {
    match ProfileCheck(p)
    case Some(m) => Invalid(m)
    case None =>
      match completeProfile(p)
      case Failure(e) => Failed(ErrorText(e, "Failed to complete profile"))
      case Success(_) => Landed(HomeFor(p.role))
  }

  /** The profile page as first shown is refused until a name and phone are typed, and
      with them it passes, a customer needing no vendor name. */
  lemma InitialProfileIsCustomer(fullName: string, phone: string)
    ensures InitialProfile.role == "customer" && ProfileCheck(InitialProfile).Some?
    ensures fullName != "" && phone != "" ==>
              ProfileCheck(InitialProfile.(fullName := fullName, phone := phone)) == None
  {
  }

  /** A sign-up that lands where a profile completion with the same fields would. */
  lemma SignUpLandsLikeProfile(f: SignUpForm,
                               register: SignUpForm -> Result<Option<string>, Thrown>,
                               verifyEmail: (string, string) -> Result<(), Thrown>,
                               completeProfile: ProfileForm -> Result<(), Thrown>)
    requires SubmitSignUp(f, register, verifyEmail, completeProfile).Landed?
    ensures SubmitProfile(ProfileOf(f), completeProfile) == SubmitSignUp(f, register, verifyEmail, completeProfile)
  {
  }
}
