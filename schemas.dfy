/** Validation of raw sign-up and sign-in submissions (src/lib/auth/schemas.ts).
    A schema turns the submitted fields into a command, or into the list of
    field-scoped issues the form redisplays. Email syntax is left abstract:
    every validator takes the predicate `isEmail` as a parameter. */
module AuthSchemas {
  import opened Wrappers

  /** The form fields an issue can be attached to (zod's one-key path). */
  datatype Field = Name | Email | Password | ConfirmPassword

  /** A recoverable, field-scoped validation failure. */
  datatype Issue = Issue(path: Field, message: string)

  /** The sign-up payload; zod's input and output types have the same shape. */
  datatype SignUpData = SignUpData(name: string, email: string, password: string, confirmPassword: string)

  /** The sign-in payload; `rememberMe` is optional. */
  datatype SignInData = SignInData(email: string, password: string, rememberMe: Option<bool>)

  const NameRequired := "Name is required"
  const InvalidEmail := "Invalid email address"
  const PasswordTooShort := "Password must be at least 8 characters"
  const ConfirmRequired := "Please confirm your password"
  const PasswordsDiffer := "Passwords do not match"
  const PasswordRequired := "Password is required"

  /** The sign-up password minimum, `z.string().min(8, ...)`. */
  const MinPasswordLength := 8

  // ---------------------------------------------------------------------------
  // The individual rules, each looking at one field only

  /** `z.string().min(1, 'Name is required')` on `name`. */
  function NameIssues(name: string): seq<Issue> {
    if |name| < 1 then [Issue(Name, NameRequired)] else []
  }

  /** `z.email('Invalid email address')` on `email`. */
  function EmailIssues(email: string, isEmail: string -> bool): seq<Issue> {
    if isEmail(email) then [] else [Issue(Email, InvalidEmail)]
  }

  /** `z.string().min(8, 'Password must be at least 8 characters')` on the sign-up password. */
  function SignUpPasswordIssues(password: string): seq<Issue> {
    if |password| < MinPasswordLength then [Issue(Password, PasswordTooShort)] else []
  }

  /** `z.string().min(1, 'Please confirm your password')` on `confirmPassword`. */
  function ConfirmIssues(confirmPassword: string): seq<Issue> {
    if |confirmPassword| < 1 then [Issue(ConfirmPassword, ConfirmRequired)] else []
  }

  /** The object-level refine: equal passwords, reported on `confirmPassword`. */
  function MatchIssues(password: string, confirmPassword: string): seq<Issue> {
    if password == confirmPassword then [] else [Issue(ConfirmPassword, PasswordsDiffer)]
  }

  /** `z.string().min(1, 'Password is required')` on the sign-in password. */
  function SignInPasswordIssues(password: string): seq<Issue> {
    if |password| < 1 then [Issue(Password, PasswordRequired)] else []
  }

  // ---------------------------------------------------------------------------
  // The two schemas

  /** All issues of a sign-up submission, in the schema's key order, followed
      by the refine. Field issues are collected, never short-circuited; the
      string checks leave the object parse continuable, so the refine is
      evaluated as well. */
  function SignUpIssues(input: SignUpData, isEmail: string -> bool): seq<Issue> {
    NameIssues(input.name) + EmailIssues(input.email, isEmail)
    + SignUpPasswordIssues(input.password) + ConfirmIssues(input.confirmPassword)
    + MatchIssues(input.password, input.confirmPassword)
  }

  /** What the sign-up rules demand of a payload, stated rule by rule. */
  predicate SignUpAcceptable(input: SignUpData, isEmail: string -> bool) {
    SignUpFieldsValid(input, isEmail) && input.password == input.confirmPassword
  }

  /** Every sign-up field passes its own rule (the refine aside). */
  predicate SignUpFieldsValid(input: SignUpData, isEmail: string -> bool) {
    |input.name| >= 1 && isEmail(input.email) && |input.password| >= MinPasswordLength
    && |input.confirmPassword| >= 1
  }

  /** `signUpSchema`: the validated command, or a non-empty list of issues. */
  function ValidateSignUp(input: SignUpData, isEmail: string -> bool): (r: Result<SignUpData, seq<Issue>>)
    ensures r.Success? <==> SignUpAcceptable(input, isEmail)
    ensures r.Success? ==> r.value == input
    ensures r.Failure? ==> r.error != []
  {
    var issues := SignUpIssues(input, isEmail);
    if issues == [] then Success(input) else Failure(issues)
  }

  /** What the sign-in rules demand of a payload. */
  predicate SignInAcceptable(input: SignInData, isEmail: string -> bool) {
    isEmail(input.email) && |input.password| >= 1
  }

  /** All issues of a sign-in submission; `rememberMe` is optional and never fails. */
  function SignInIssues(input: SignInData, isEmail: string -> bool): seq<Issue> {
    EmailIssues(input.email, isEmail) + SignInPasswordIssues(input.password)
  }

  /** `signInSchema`: the validated command, or a non-empty list of issues. */
  function ValidateSignIn(input: SignInData, isEmail: string -> bool): (r: Result<SignInData, seq<Issue>>)
    ensures r.Success? <==> SignInAcceptable(input, isEmail)
    ensures r.Success? ==> r.value == input
    ensures r.Failure? ==> r.error != []
  {
    var issues := SignInIssues(input, isEmail);
    if issues == [] then Success(input) else Failure(issues)
  }

  // ---------------------------------------------------------------------------
  // Reading issues back per field

  /** The issues of a validation outcome; none on success. */
  function IssuesOf<T>(r: Result<T, seq<Issue>>): seq<Issue> {
    if r.Failure? then r.error else []
  }

  /** The issues attached to field `f`, in order. */
  function IssuesAt(issues: seq<Issue>, f: Field): seq<Issue> {
    if issues == [] then []
    else (if issues[0].path == f then [issues[0]] else []) + IssuesAt(issues[1..], f)
  }

  lemma {:induction false} IssuesAtConcat(a: seq<Issue>, b: seq<Issue>, f: Field)
    ensures IssuesAt(a + b, f) == IssuesAt(a, f) + IssuesAt(b, f)
  {
    if a == [] {
      assert a + b == b;
    } else {
      var head := if a[0].path == f then [a[0]] else [];
      assert (a + b)[0] == a[0];
      assert (a + b)[1..] == a[1..] + b;
      assert IssuesAt(a + b, f) == head + IssuesAt(a[1..] + b, f);
      IssuesAtConcat(a[1..], b, f);
      assert IssuesAt(a, f) == head + IssuesAt(a[1..], f);
    }
  }

  /** The issues of a rule that yields nothing or one issue, read back at field `f`. */
  lemma IssuesAtSmall(issues: seq<Issue>, f: Field)
    requires |issues| <= 1
    ensures IssuesAt(issues, f) == if issues != [] && issues[0].path == f then issues else []
  {
  }

  /** Reading field `f` back distributes over the five rules of sign-up. */
  lemma SignUpIssuesAt(input: SignUpData, isEmail: string -> bool, f: Field)
    ensures IssuesAt(SignUpIssues(input, isEmail), f)
         == IssuesAt(NameIssues(input.name), f) + IssuesAt(EmailIssues(input.email, isEmail), f)
          + IssuesAt(SignUpPasswordIssues(input.password), f) + IssuesAt(ConfirmIssues(input.confirmPassword), f)
          + IssuesAt(MatchIssues(input.password, input.confirmPassword), f)
  {
    var n, e, p, c, m := NameIssues(input.name), EmailIssues(input.email, isEmail),
      SignUpPasswordIssues(input.password), ConfirmIssues(input.confirmPassword),
      MatchIssues(input.password, input.confirmPassword);
    IssuesAtConcat(n + e + p + c, m, f);
    IssuesAtConcat(n + e + p, c, f);
    IssuesAtConcat(n + e, p, f);
    IssuesAtConcat(n, e, f);
  }

  /** The issues of field `f` in the sign-up outcome: each field's issues
      depend on that field alone (and, for `confirmPassword`, on the refine). */
  lemma SignUpIssuesPerField(input: SignUpData, isEmail: string -> bool, f: Field)
    ensures IssuesAt(SignUpIssues(input, isEmail), f) ==
      match f
      case Name => NameIssues(input.name)
      case Email => EmailIssues(input.email, isEmail)
      case Password => SignUpPasswordIssues(input.password)
      case ConfirmPassword => ConfirmIssues(input.confirmPassword) + MatchIssues(input.password, input.confirmPassword)
  {
    match f
    case Name => SignUpIssuesAtName(input, isEmail);
    case Email => SignUpIssuesAtEmail(input, isEmail);
    case Password => SignUpIssuesAtPassword(input, isEmail);
    case ConfirmPassword => SignUpIssuesAtConfirmPassword(input, isEmail);
  }

  /** The sign-up issues on `name`. */
  lemma SignUpIssuesAtName(input: SignUpData, isEmail: string -> bool)
    ensures IssuesAt(SignUpIssues(input, isEmail), Name) == NameIssues(input.name)
  {
    var n, e, p, c, m := NameIssues(input.name), EmailIssues(input.email, isEmail),
      SignUpPasswordIssues(input.password), ConfirmIssues(input.confirmPassword),
      MatchIssues(input.password, input.confirmPassword);
    SignUpIssuesAt(input, isEmail, Name);
    assert IssuesAt(n, Name) == n by { IssuesAtSmall(n, Name); }
    assert IssuesAt(e, Name) == [] by { IssuesAtSmall(e, Name); }
    assert IssuesAt(p, Name) == [] by { IssuesAtSmall(p, Name); }
    assert IssuesAt(c, Name) == [] by { IssuesAtSmall(c, Name); }
    assert IssuesAt(m, Name) == [] by { IssuesAtSmall(m, Name); }
    assert IssuesAt(SignUpIssues(input, isEmail), Name) == n + [] + [] + [] + [];
  }

  /** The sign-up issues on `email`. */
  lemma SignUpIssuesAtEmail(input: SignUpData, isEmail: string -> bool)
    ensures IssuesAt(SignUpIssues(input, isEmail), Email) == EmailIssues(input.email, isEmail)
  {
    var n, e, p, c, m := NameIssues(input.name), EmailIssues(input.email, isEmail),
      SignUpPasswordIssues(input.password), ConfirmIssues(input.confirmPassword),
      MatchIssues(input.password, input.confirmPassword);
    SignUpIssuesAt(input, isEmail, Email);
    assert IssuesAt(n, Email) == [] by { IssuesAtSmall(n, Email); }
    assert IssuesAt(e, Email) == e by { IssuesAtSmall(e, Email); }
    assert IssuesAt(p, Email) == [] by { IssuesAtSmall(p, Email); }
    assert IssuesAt(c, Email) == [] by { IssuesAtSmall(c, Email); }
    assert IssuesAt(m, Email) == [] by { IssuesAtSmall(m, Email); }
    assert IssuesAt(SignUpIssues(input, isEmail), Email) == [] + e + [] + [] + [];
  }

  /** The sign-up issues on `password`. */
  lemma SignUpIssuesAtPassword(input: SignUpData, isEmail: string -> bool)
    ensures IssuesAt(SignUpIssues(input, isEmail), Password) == SignUpPasswordIssues(input.password)
  {
    var n, e, p, c, m := NameIssues(input.name), EmailIssues(input.email, isEmail),
      SignUpPasswordIssues(input.password), ConfirmIssues(input.confirmPassword),
      MatchIssues(input.password, input.confirmPassword);
    SignUpIssuesAt(input, isEmail, Password);
    assert IssuesAt(n, Password) == [] by { IssuesAtSmall(n, Password); }
    assert IssuesAt(e, Password) == [] by { IssuesAtSmall(e, Password); }
    assert IssuesAt(p, Password) == p by { IssuesAtSmall(p, Password); }
    assert IssuesAt(c, Password) == [] by { IssuesAtSmall(c, Password); }
    assert IssuesAt(m, Password) == [] by { IssuesAtSmall(m, Password); }
    assert IssuesAt(SignUpIssues(input, isEmail), Password) == [] + [] + p + [] + [];
  }

  /** The sign-up issues on `confirmPassword`. */
  lemma SignUpIssuesAtConfirmPassword(input: SignUpData, isEmail: string -> bool)
    ensures IssuesAt(SignUpIssues(input, isEmail), ConfirmPassword) == ConfirmIssues(input.confirmPassword) + MatchIssues(input.password, input.confirmPassword)
  {
    var n, e, p, c, m := NameIssues(input.name), EmailIssues(input.email, isEmail),
      SignUpPasswordIssues(input.password), ConfirmIssues(input.confirmPassword),
      MatchIssues(input.password, input.confirmPassword);
    SignUpIssuesAt(input, isEmail, ConfirmPassword);
    assert IssuesAt(n, ConfirmPassword) == [] by { IssuesAtSmall(n, ConfirmPassword); }
    assert IssuesAt(e, ConfirmPassword) == [] by { IssuesAtSmall(e, ConfirmPassword); }
    assert IssuesAt(p, ConfirmPassword) == [] by { IssuesAtSmall(p, ConfirmPassword); }
    assert IssuesAt(c, ConfirmPassword) == c by { IssuesAtSmall(c, ConfirmPassword); }
    assert IssuesAt(m, ConfirmPassword) == m by { IssuesAtSmall(m, ConfirmPassword); }
    assert IssuesAt(SignUpIssues(input, isEmail), ConfirmPassword) == [] + [] + [] + c + m;
  }

  // ---------------------------------------------------------------------------
  // The field rules of sign-up, each in both directions

  /** An empty name is reported as "Name is required" on `name`; a non-empty one draws no issue there. */
  lemma NameRule(input: SignUpData, isEmail: string -> bool)
    ensures |input.name| == 0 ==>
      ValidateSignUp(input, isEmail).Failure?
      && IssuesAt(IssuesOf(ValidateSignUp(input, isEmail)), Name) == [Issue(Name, NameRequired)]
    ensures |input.name| > 0 ==> IssuesAt(IssuesOf(ValidateSignUp(input, isEmail)), Name) == []
  {
    SignUpIssuesPerField(input, isEmail, Name);
  }

  /** An email the predicate rejects is reported as "Invalid email address" on `email`. */
  lemma SignUpEmailRule(input: SignUpData, isEmail: string -> bool)
    ensures !isEmail(input.email) ==>
      ValidateSignUp(input, isEmail).Failure?
      && IssuesAt(IssuesOf(ValidateSignUp(input, isEmail)), Email) == [Issue(Email, InvalidEmail)]
    ensures isEmail(input.email) ==> IssuesAt(IssuesOf(ValidateSignUp(input, isEmail)), Email) == []
  {
    SignUpIssuesPerField(input, isEmail, Email);
  }

  /** A password shorter than 8 is reported on `password`; 8 or more draws no issue there. */
  lemma PasswordLengthRule(input: SignUpData, isEmail: string -> bool)
    ensures |input.password| < MinPasswordLength ==>
      ValidateSignUp(input, isEmail).Failure?
      && IssuesAt(IssuesOf(ValidateSignUp(input, isEmail)), Password) == [Issue(Password, PasswordTooShort)]
    ensures |input.password| >= MinPasswordLength ==>
      IssuesAt(IssuesOf(ValidateSignUp(input, isEmail)), Password) == []
  {
    SignUpIssuesPerField(input, isEmail, Password);
  }

  /** An empty confirmation is reported as "Please confirm your password" on `confirmPassword`. */
  lemma ConfirmRule(input: SignUpData, isEmail: string -> bool)
    ensures |input.confirmPassword| == 0 ==>
      ValidateSignUp(input, isEmail).Failure?
      && Issue(ConfirmPassword, ConfirmRequired) in IssuesAt(IssuesOf(ValidateSignUp(input, isEmail)), ConfirmPassword)
    ensures |input.confirmPassword| > 0 ==>
      Issue(ConfirmPassword, ConfirmRequired) !in IssuesOf(ValidateSignUp(input, isEmail))
  {
    SignUpIssuesPerField(input, isEmail, ConfirmPassword);
    var issues := IssuesOf(ValidateSignUp(input, isEmail));
    if |input.confirmPassword| > 0 && Issue(ConfirmPassword, ConfirmRequired) in issues {
      var k :| 0 <= k < |issues| && issues[k] == Issue(ConfirmPassword, ConfirmRequired);
      IssueInIssuesAt(issues, k);
    }
  }

  /** An issue at index `k` shows up among the issues of its own field. */
  lemma {:induction false} IssueInIssuesAt(issues: seq<Issue>, k: nat)
    requires k < |issues|
    ensures issues[k] in IssuesAt(issues, issues[k].path)
  {
    if k > 0 {
      IssueInIssuesAt(issues[1..], k - 1);
    }
  }

  /** With every field valid, a mismatch is the one and only issue, on
      `confirmPassword`; and equal passwords are accepted unchanged. */
  lemma MismatchRule(input: SignUpData, isEmail: string -> bool)
    requires SignUpFieldsValid(input, isEmail)
    ensures input.password != input.confirmPassword ==>
      ValidateSignUp(input, isEmail) == Failure([Issue(ConfirmPassword, PasswordsDiffer)])
    ensures input.password == input.confirmPassword ==> ValidateSignUp(input, isEmail) == Success(input)
  {
    assert SignUpIssues(input, isEmail) == MatchIssues(input.password, input.confirmPassword);
  }

  /** Two failing fields are reported together: the empty-name, short-password
      submission draws exactly those two issues, in field order. */
  lemma CollectsEveryIssue(isEmail: string -> bool)
    requires isEmail("a@b.com")
    ensures ValidateSignUp(SignUpData("", "a@b.com", "short", "short"), isEmail)
         == Failure([Issue(Name, NameRequired), Issue(Password, PasswordTooShort)])
  {
    var input := SignUpData("", "a@b.com", "short", "short");
    assert NameIssues(input.name) == [Issue(Name, NameRequired)];
    assert EmailIssues(input.email, isEmail) == [];
    assert SignUpPasswordIssues(input.password) == [Issue(Password, PasswordTooShort)];
    assert ConfirmIssues(input.confirmPassword) == [] && MatchIssues(input.password, input.confirmPassword) == [];
    assert SignUpIssues(input, isEmail) == [Issue(Name, NameRequired), Issue(Password, PasswordTooShort)];
  }

  /** An accepted command is accepted again, unchanged. */
  lemma SignUpIdempotent(input: SignUpData, isEmail: string -> bool)
    requires ValidateSignUp(input, isEmail).Success?
    ensures ValidateSignUp(input, isEmail).value == input
    ensures ValidateSignUp(ValidateSignUp(input, isEmail).value, isEmail) == ValidateSignUp(input, isEmail)
  {
  }

  // ---------------------------------------------------------------------------
  // Sign-in

  /** The email rule is the same in the sign-in schema. */
  lemma SignInEmailRule(input: SignInData, isEmail: string -> bool)
    ensures !isEmail(input.email) ==>
      ValidateSignIn(input, isEmail).Failure?
      && IssuesAt(IssuesOf(ValidateSignIn(input, isEmail)), Email) == [Issue(Email, InvalidEmail)]
    ensures isEmail(input.email) ==> IssuesAt(IssuesOf(ValidateSignIn(input, isEmail)), Email) == []
  {
    IssuesAtConcat(EmailIssues(input.email, isEmail), SignInPasswordIssues(input.password), Email);
  }

  /** Sign-in fails on the password only when it is empty ("Password is
      required"); any non-empty password, however short, passes, and
      `rememberMe` absent, true or false changes nothing. */
  lemma SignInPasswordRule(input: SignInData, isEmail: string -> bool)
    ensures |input.password| == 0 ==>
      ValidateSignIn(input, isEmail).Failure?
      && IssuesAt(IssuesOf(ValidateSignIn(input, isEmail)), Password) == [Issue(Password, PasswordRequired)]
    ensures |input.password| > 0 ==> IssuesAt(IssuesOf(ValidateSignIn(input, isEmail)), Password) == []
    ensures isEmail(input.email) && |input.password| > 0 ==> ValidateSignIn(input, isEmail) == Success(input)
  {
    IssuesAtConcat(EmailIssues(input.email, isEmail), SignInPasswordIssues(input.password), Password);
  }

  /** The outcome of sign-in validation does not depend on `rememberMe`, other than carrying it. */
  lemma SignInIgnoresRememberMe(input: SignInData, remember: Option<bool>, isEmail: string -> bool)
    ensures ValidateSignIn(input.(rememberMe := remember), isEmail).Success? == ValidateSignIn(input, isEmail).Success?
    ensures IssuesOf(ValidateSignIn(input.(rememberMe := remember), isEmail)) == IssuesOf(ValidateSignIn(input, isEmail))
  {
  }

  /** An accepted sign-in command is accepted again, unchanged. */
  lemma SignInIdempotent(input: SignInData, isEmail: string -> bool)
    requires ValidateSignIn(input, isEmail).Success?
    ensures ValidateSignIn(input, isEmail).value == input
    ensures ValidateSignIn(ValidateSignIn(input, isEmail).value, isEmail) == ValidateSignIn(input, isEmail)
  {
  }
}
