/** The employer sign-up form: its validation schema, the registration payload
    built from valid data, and the navigation that follows a successful call. */
module Signup {
  import opened Common
  import opened Text

  /** The form's fields (`first_name`, `last_name` and `phone_number` in the
      form and in the payload). */
  datatype SignupFormData = SignupFormData(
    email: string,
    password: string,
    confirmPassword: string,
    firstName: string,
    lastName: string,
    phoneNumber: string,
    location: string,
    tribe: string,
    religion: string)

  /** The registration request body. It has no `confirmPassword`. */
  datatype CreateEmployer = CreateEmployer(
    email: string,
    password: string,
    firstName: string,
    lastName: string,
    phoneNumber: string,
    location: string,
    tribe: string,
    religion: string,
    role: string)

  const EmployerRole: string := "employer"
  const DashboardRoute: string := "/employer/dashboard"
  const MismatchIssue: Issue := Issue("confirmPassword", "Passwords do not match")

  /** The schema's rules, one conjunct per rule. The email rule belongs to the
      validation library and is passed in as `isEmail`. */
  predicate Valid(d: SignupFormData, isEmail: string -> bool) {
    && isEmail(d.email)
    && Utf16Length(d.password) >= 8
    && Utf16Length(d.firstName) >= 1
    && Utf16Length(d.lastName) >= 1
    && Utf16Length(d.phoneNumber) >= 10
    && Utf16Length(d.location) >= 1
    && Utf16Length(d.tribe) >= 1
    && Utf16Length(d.religion) >= 1
    && d.password == d.confirmPassword
  }

  /** The issues the schema reports, field by field in declaration order, then
      the password-confirmation refinement. */
  function Issues(d: SignupFormData, isEmail: string -> bool): seq<Issue> {
      Check(isEmail(d.email), Issue("email", "Please enter a valid email address"))
    + Check(Utf16Length(d.password) >= 8, PasswordIssue)
    + Check(Utf16Length(d.firstName) >= 1, Issue("first_name", "First name is required"))
    + Check(Utf16Length(d.lastName) >= 1, Issue("last_name", "Last name is required"))
    + Check(Utf16Length(d.phoneNumber) >= 10, Issue("phone_number", "Phone number is required"))
    + Check(Utf16Length(d.location) >= 1, Issue("location", "Location is required"))
    + Check(Utf16Length(d.tribe) >= 1, Issue("tribe", "Tribe is required"))
    + Check(Utf16Length(d.religion) >= 1, Issue("religion", "Religion is required"))
    + Check(d.password == d.confirmPassword, MismatchIssue)
  }

  /** The form passes exactly when no issue is reported, and a passing form
      meets every individual rule. */
  lemma ValidIffNoIssues(d: SignupFormData, isEmail: string -> bool)
    ensures Valid(d, isEmail) <==> Issues(d, isEmail) == []
    ensures Valid(d, isEmail) ==>
              Utf16Length(d.password) >= 8 && d.password == d.confirmPassword && Utf16Length(d.phoneNumber) >= 10 &&
              d.firstName != "" && d.lastName != "" && d.location != "" && d.tribe != "" && d.religion != ""
  {
  }

  const PasswordIssue: Issue := Issue("password", "Password must be at least 8 characters long")

  /** The password issue is reported exactly when the password is shorter
      than eight UTF-16 code units. */
  lemma PasswordIssueReported(d: SignupFormData, isEmail: string -> bool)
    ensures PasswordIssue in Issues(d, isEmail) <==> Utf16Length(d.password) < 8
  {
  }

  /** The length rules count UTF-16 code units, as a JavaScript string's
      `length` does: a password of four emoji from outside the Basic
      Multilingual Plane has four characters but eight code units, and the
      eight-character rule accepts it. */
  lemma AstralPasswordAccepted(d: SignupFormData, isEmail: string -> bool)
    requires d.password == "\U{1F600}\U{1F600}\U{1F600}\U{1F600}"
    ensures |d.password| == 4 && Utf16Length(d.password) == 8
    ensures PasswordIssue !in Issues(d, isEmail)
  {
    var s := d.password;
    assert Utf16Length(s[3..]) == 2;
    assert Utf16Length(s[2..]) == 2 + Utf16Length(s[2..][1..]) by { assert s[2..][1..] == s[3..]; }
    PasswordIssueReported(d, isEmail);
  }

  /** Differing passwords are reported on `confirmPassword` with the message
      "Passwords do not match", and only then. */
  lemma MismatchReported(d: SignupFormData, isEmail: string -> bool)
    ensures MismatchIssue in Issues(d, isEmail) <==> d.password != d.confirmPassword
  {
  }

  /** The payload sent to the registration endpoint. */
  function Payload(d: SignupFormData): CreateEmployer {
    CreateEmployer(d.email, d.password, d.firstName, d.lastName, d.phoneNumber,
                   d.location, d.tribe, d.religion, EmployerRole)
  }

  /** The form data a payload came from, given the confirmation it dropped. */
  function FormOf(p: CreateEmployer, confirmPassword: string): SignupFormData {
    SignupFormData(p.email, p.password, confirmPassword, p.firstName, p.lastName,
                   p.phoneNumber, p.location, p.tribe, p.religion)
  }

  /** The payload copies every field but the confirmation, which is all it
      loses, and always carries the employer role. */
  lemma PayloadRoundTrip(d: SignupFormData)
    ensures Payload(d).role == EmployerRole
    ensures FormOf(Payload(d), d.confirmPassword) == d
    ensures forall c :: Payload(FormOf(Payload(d), c)) == Payload(d)
  {
  }

  /** What a submission of the form leads to. */
  datatype SignupOutcome =
    | NotSent(issues: seq<Issue>)          // the schema blocked the submission
    | SentAndFailed(payload: CreateEmployer) // the call rejected; the error is caught
    | Registered(payload: CreateEmployer)    // the call resolved

  /** Submitting: invalid data is not sent; valid data is sent as the payload,
      and `registered` says whether the registration call resolved. */
  function Submit(d: SignupFormData, isEmail: string -> bool, registered: bool): SignupOutcome {
    if !Valid(d, isEmail) then NotSent(Issues(d, isEmail))
    else if registered then Registered(Payload(d))
    else SentAndFailed(Payload(d))
  }

  /** The route navigated to after a submission, if any. */
  function Navigation(o: SignupOutcome): Option<string> {
    if o.Registered? then Some(DashboardRoute) else None
  }

  /** The dashboard is reached exactly when the data is valid and the call
      resolved; whatever is sent is the payload of the data. */
  lemma NavigatesOnlyOnSuccess(d: SignupFormData, isEmail: string -> bool, registered: bool)
    ensures Navigation(Submit(d, isEmail, registered)) == Some(DashboardRoute) <==>
              Valid(d, isEmail) && registered
    ensures Navigation(Submit(d, isEmail, registered)) != Some(DashboardRoute) ==>
              Navigation(Submit(d, isEmail, registered)) == None
    ensures !Submit(d, isEmail, registered).NotSent? ==> Submit(d, isEmail, registered).payload == Payload(d)
    ensures Submit(d, isEmail, registered).NotSent? ==> Submit(d, isEmail, registered).issues != []
  {
    ValidIffNoIssues(d, isEmail);
  }
}
