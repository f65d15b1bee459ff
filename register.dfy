/** The registration page of `pages/register.tsx`: the field rules of its
    form, the password policy, and what submitting does with the answer of
    the account service (which is not part of this model and is a
    parameter). Whether an email address is well formed is a predicate
    passed in. Every rule of the form is checked and every failure
    reported, field by field. */
module Register {
  import opened Base
  import opened JsText

  datatype RegisterForm = RegisterForm(
    fullName: string,
    username: string,
    email: string,
    password: string,
    confirmPassword: string)

  datatype Field = FullName | Username | Email | Password | ConfirmPassword

  /** One failed rule of the form. */
  type Issue = FieldIssue<Field>

  /** `/[A-Z]/.test(s)` */
  predicate HasUpper(s: string) { exists i :: 0 <= i < |s| && IsUpper(s[i]) }

  /** `/[a-z]/.test(s)` */
  predicate HasLower(s: string) { exists i :: 0 <= i < |s| && IsLower(s[i]) }

  /** `/[0-9]/.test(s)` */
  predicate HasDigit(s: string) { exists i :: 0 <= i < |s| && IsDigit(s[i]) }

  /** The password policy: at least eight characters with an upper-case
      letter, a lower-case letter and a digit. */
  predicate StrongPassword(p: string)
  {
    |p| >= 8 && HasUpper(p) && HasLower(p) && HasDigit(p)
  }

  /** The checks on the password, all of them, in order: a password passes
      exactly when it meets the policy, and every failure is reported under
      the password field. */
  function PasswordIssues(p: string): (r: seq<Issue>)
    ensures r == [] <==> StrongPassword(p)
    ensures |r| <= 4
    ensures forall x :: x in r ==> x.field == Password
  {
    var a := IssueIf(|p| < 8, Password, "Password must be at least 8 characters");
    var b := IssueIf(!HasUpper(p), Password, "Password must contain at least one uppercase letter");
    var c := IssueIf(!HasLower(p), Password, "Password must contain at least one lowercase letter");
    var d := IssueIf(!HasDigit(p), Password, "Password must contain at least one number");
    assert |a + b + c + d| == |a| + |b| + |c| + |d|;
    a + b + c + d
  }

  /** The rules of `registerSchema`, together. */
  predicate FormValid(f: RegisterForm, isEmail: string -> bool)
  {
    |f.fullName| >= 2 && |f.username| >= 3 && isEmail(f.email)
    && StrongPassword(f.password) && f.password == f.confirmPassword
  }

  /** The issues `registerSchema` reports: none exactly when the full name
      has two characters, the username three, the email is well formed, the
      password meets the policy and the confirmation repeats it. */
  function Issues(f: RegisterForm, isEmail: string -> bool): (r: seq<Issue>)
    ensures r == [] <==> FormValid(f, isEmail)
  {
    var a := IssueIf(|f.fullName| < 2, FullName, "Full name is required");
    var b := IssueIf(|f.username| < 3, Username, "Username must be at least 3 characters");
    var c := IssueIf(!isEmail(f.email), Email, "Valid email is required");
    var d := PasswordIssues(f.password);
    var e := IssueIf(f.password != f.confirmPassword, ConfirmPassword, "Passwords don't match");
    assert |a + b + c + d + e| == |a| + |b| + |c| + |d| + |e|;
    a + b + c + d + e
  }

  /** A confirmation that differs from the password is reported under the
      confirmation field, as the last issue, and no other rule reports under
      that field. */
  lemma MismatchOnConfirmField(f: RegisterForm, isEmail: string -> bool)
    requires f.password != f.confirmPassword
    ensures var all := Issues(f, isEmail);
      all != [] && all[|all| - 1] == FieldIssue(ConfirmPassword, "Passwords don't match")
      && forall x :: x in all[..|all| - 1] ==> x.field != ConfirmPassword
  {
    var all := Issues(f, isEmail);
    var before :=
      IssueIf(|f.fullName| < 2, FullName, "Full name is required")
      + IssueIf(|f.username| < 3, Username, "Username must be at least 3 characters")
      + IssueIf(!isEmail(f.email), Email, "Valid email is required")
      + PasswordIssues(f.password);
    assert all == before + [FieldIssue(ConfirmPassword, "Passwords don't match")];
    assert all[..|all| - 1] == before;
  }

  const UsernameTaken := "Username already exists. Please choose another one."
  const EmailTaken := "Email already exists. Please use another email or log in."
  const GenericError := "An error occurred. Please try again."
  const RegistrationFailed := "Registration failed. Please try again."

  /** The message shown for a thrown error: a taken username first, then a
      taken email, else the generic text; an error without a message gets
      the generic text. */
  function ErrorText(message: Option<string>): (r: string)
    ensures message.Some? && Includes(message.value, "Username already exists") ==> r == UsernameTaken
    ensures (message.Some? && !Includes(message.value, "Username already exists")
             && Includes(message.value, "Email already exists")) ==> r == EmailTaken
    ensures r == GenericError <==>
      message.None? || (!Includes(message.value, "Username already exists") && !Includes(message.value, "Email already exists"))
  {
    if message.Some? && message.value != "" && Includes(message.value, "Username already exists") then UsernameTaken
    else if message.Some? && message.value != "" && Includes(message.value, "Email already exists") then EmailTaken
    else GenericError
  }

  /** How the account service answered: with a flag, or by throwing an
      error that may carry a message. */
  datatype Outcome = Resolved(ok: bool) | Rejected(message: Option<string>)

  class RegisterPage {
    var isLoading: bool
    var error: string
    var success: bool

    constructor ()
      ensures !isLoading && error == "" && !success
    {
      isLoading := false;
      error := "";
      success := false;
    }

    /** `onSubmit` for a form that passed its rules: success on a true
        answer, the failure text on a false one, the mapped message on a
        thrown error; `isLoading` is on while waiting and off afterwards on
        every path. */
    method OnSubmit(outcome: Outcome) returns (ghost loadingWhileWaiting: bool)
      modifies this
      ensures loadingWhileWaiting && !isLoading
      ensures outcome == Resolved(true) ==> success && error == ""
      ensures outcome == Resolved(false) ==> error == RegistrationFailed && success == old(success)
      ensures outcome.Rejected? ==> error == ErrorText(outcome.message) && success == old(success)
    {
      isLoading := true;
      error := "";
      loadingWhileWaiting := isLoading;
      match outcome {
        case Resolved(ok) =>
          if ok {
            success := true;
          } else {
            error := RegistrationFailed;
          }
        case Rejected(message) =>
          error := ErrorText(message);
      }
      isLoading := false;
    }
  }
}
