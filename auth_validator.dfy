/** The Zod schemas of the authentication API (register, login, refresh,
    forgot-password, reset-password, update-profile): for each request body
    the issues Zod reports, in the order it reports them, and the parsed
    body when there are none. */
module AuthValidator {
  import opened Wrappers
  import opened Strings
  import opened ValidateMiddleware

  // ------------------------------------------------------------ messages

  const InvalidEmail: string := "Invalid email address"
  const PasswordTooShort: string := "Password must be at least 8 characters"
  const PasswordTooWeak: string :=
    "Password must contain at least one uppercase letter, one lowercase letter, and one number"
  const FullNameTooShort: string := "Full name must be at least 2 characters"
  const InvalidPhone: string := "Invalid Indian phone number"
  const CollegeRequired: string := "College name is required"
  const PasswordRequired: string := "Password is required"
  const RefreshTokenRequired: string := "Refresh token is required"
  const ResetTokenRequired: string := "Reset token is required"

  /** Zod's own message for a missing required field. */
  const Required: string := "Required"

  /** The values `yearOfStudy` may take. */
  const YearsOfStudy: seq<string> := ["1st Year", "2nd Year", "3rd Year", "4th Year", "Graduate", "Postgraduate"]

  /** Zod's own message for a value outside an enum. */
  function InvalidYear(received: string): string {
    "Invalid enum value. Expected '1st Year' | '2nd Year' | '3rd Year' | '4th Year' | 'Graduate' | 'Postgraduate', received '"
      + received + "'"
  }

  // ------------------------------------------------------------ password pattern

  predicate IsLowerLetter(c: char) { 'a' <= c <= 'z' }
  predicate IsUpperLetter(c: char) { 'A' <= c <= 'Z' }
  /** `\d` of a JavaScript regular expression. */
  predicate IsDigit(c: char) { '0' <= c <= '9' }

  /** The characters `.` does not match without the `s` flag. */
  predicate IsLineTerminator(c: char) {
    c == '\n' || c == '\r' || c == '\U{2028}' || c == '\U{2029}'
  }

  /** `(?=.*[...])` tried at the start of `s`, for the character class
      `kind`: some character of the class is preceded only by characters
      that `.` matches. */
  predicate Lookahead(s: string, kind: char -> bool) {
    exists i :: 0 <= i < |s| && kind(s[i]) && forall j :: 0 <= j < i ==> !IsLineTerminator(s[j])
  }

  /** `/^(?=.*[a-z])(?=.*[A-Z])(?=.*\d)/.test(s)` */
  predicate StrongPattern(s: string) {
    Lookahead(s, IsLowerLetter) && Lookahead(s, IsUpperLetter) && Lookahead(s, IsDigit)
  }

  /** The text before the first line terminator. */
  function FirstLine(s: string): (r: string)
    ensures |r| <= |s| && r == s[..|r|]
    ensures forall j :: 0 <= j < |r| ==> !IsLineTerminator(r[j])
    ensures |r| < |s| ==> IsLineTerminator(s[|r|])
  {
    if s == [] || IsLineTerminator(s[0]) then [] else [s[0]] + FirstLine(s[1..])
  }

  /** The lookaheads only see the first line of the password. */
  lemma LookaheadSeesFirstLine(s: string, kind: char -> bool)
    requires forall c :: kind(c) ==> !IsLineTerminator(c)
    ensures Lookahead(s, kind) <==> exists i :: 0 <= i < |FirstLine(s)| && kind(FirstLine(s)[i])
  {
    var line := FirstLine(s);
    if Lookahead(s, kind) {
      var i :| 0 <= i < |s| && kind(s[i]) && forall j :: 0 <= j < i ==> !IsLineTerminator(s[j]);
      assert line[i] == s[i];
      assert 0 <= i < |FirstLine(s)| && kind(FirstLine(s)[i]);
    } else {
      forall i | 0 <= i < |line| ensures !kind(line[i]) {
        assert forall j :: 0 <= j < i ==> s[j] == line[j] && !IsLineTerminator(s[j]);
        assert s[i] == line[i];
      }
    }
  }

  /** For a password on one line the pattern asks for a lower-case letter,
      an upper-case letter and a digit anywhere in it. */
  lemma StrongPatternOnOneLine(p: string)
    requires forall j :: 0 <= j < |p| ==> !IsLineTerminator(p[j])
    ensures StrongPattern(p) <==>
      (exists i :: 0 <= i < |p| && IsLowerLetter(p[i])) &&
      (exists i :: 0 <= i < |p| && IsUpperLetter(p[i])) &&
      (exists i :: 0 <= i < |p| && IsDigit(p[i]))
  {
    LookaheadSeesFirstLine(p, IsLowerLetter);
    LookaheadSeesFirstLine(p, IsUpperLetter);
    LookaheadSeesFirstLine(p, IsDigit);
    assert FirstLine(p) == p;
  }

  /** A lookahead stops at the first line break. */
  lemma LookaheadIgnoresLaterLines(a: string, c: char, b: string, kind: char -> bool)
    requires forall j :: 0 <= j < |a| ==> !IsLineTerminator(a[j])
    requires IsLineTerminator(c)
    requires forall c :: kind(c) ==> !IsLineTerminator(c)
    ensures Lookahead(a + [c] + b, kind) == Lookahead(a, kind)
  {
    FirstLineOfBrokenLine(a, c, b);
    LookaheadSeesFirstLine(a + [c] + b, kind);
    LookaheadSeesFirstLine(a, kind);
    assert FirstLine(a) == a;
  }

  /** Whatever follows a line break does not count towards the pattern. */
  lemma StrongPatternIgnoresLaterLines(a: string, c: char, b: string)
    requires forall j :: 0 <= j < |a| ==> !IsLineTerminator(a[j])
    requires IsLineTerminator(c)
    ensures StrongPattern(a + [c] + b) == StrongPattern(a)
  {
    LookaheadIgnoresLaterLines(a, c, b, IsLowerLetter);
    LookaheadIgnoresLaterLines(a, c, b, IsUpperLetter);
    LookaheadIgnoresLaterLines(a, c, b, IsDigit);
  }

  lemma {:induction false} FirstLineOfBrokenLine(a: string, c: char, b: string)
    requires forall j :: 0 <= j < |a| ==> !IsLineTerminator(a[j])
    requires IsLineTerminator(c)
    ensures FirstLine(a + [c] + b) == a
  {
    if a != [] {
      assert (a + [c] + b)[1..] == a[1..] + [c] + b;
      FirstLineOfBrokenLine(a[1..], c, b);
    }
  }

  // ------------------------------------------------------------ field checks

  /** The checks of `password` in register and reset, both reported when
      both fail. */
  function PasswordChecks(p: string): (r: seq<string>)
    ensures r == [] <==> |p| >= 8 && StrongPattern(p)
    ensures |p| < 8 <==> PasswordTooShort in r
    ensures !StrongPattern(p) <==> PasswordTooWeak in r
  {
    (if |p| < 8 then [PasswordTooShort] else []) + (if StrongPattern(p) then [] else [PasswordTooWeak])
  }

  /** `/^[6-9]\d{9}$/.test(s)` */
  predicate IndianMobile(s: string) {
    |s| == 10 && '6' <= s[0] <= '9' && forall i :: 1 <= i < |s| ==> IsDigit(s[i])
  }

  function PhoneChecks(s: string): seq<string> {
    if IndianMobile(s) then [] else [InvalidPhone]
  }

  function FullNameChecks(s: string): seq<string> {
    if |s| < 2 then [FullNameTooShort] else []
  }

  function CollegeChecks(s: string): seq<string> {
    if |s| < 2 then [CollegeRequired] else []
  }

  function YearChecks(s: string): seq<string> {
    if s in YearsOfStudy then [] else [InvalidYear(s)]
  }

  /** `z.string().min(1, message)` */
  function NonEmpty(message: string): string -> seq<string> {
    s => if |s| < 1 then [message] else []
  }

  /** `z.string().email(...)`; the address syntax itself is an input. */
  function EmailChecks(isEmail: string -> bool): string -> seq<string> {
    s => if isEmail(s) then [] else [InvalidEmail]
  }

  /** `z.string()` with no further check. */
  function NoChecks(s: string): seq<string> { [] }

  /** The issues of one string field: "Required" when a required field is
      missing, otherwise one issue per failed check, all at the field's key. */
  function FieldIssues(key: string, value: Option<string>, optional: bool, checks: string -> seq<string>): (r: seq<Issue>)
    ensures r == [] <==> (value.None? ==> optional) && (value.Some? ==> checks(value.value) == [])
    ensures forall i :: 0 <= i < |r| ==> r[i].path == [Key(key)]
    ensures value.Some? ==> |r| == |checks(value.value)|
    ensures value.Some? ==> forall i :: 0 <= i < |r| ==> r[i].message == checks(value.value)[i]
  {
    match value
    case None => if optional then [] else [Issue([Key(key)], Required)]
    case Some(s) =>
      var failed := checks(s);
      seq(|failed|, i requires 0 <= i < |failed| => Issue([Key(key)], failed[i]))
  }

  /** Every message of a present field is reported at its key. */
  lemma FieldReportsEveryCheck(key: string, s: string, optional: bool, checks: string -> seq<string>, m: string)
    requires m in checks(s)
    ensures Issue([Key(key)], m) in FieldIssues(key, Some(s), optional, checks)
  {
    var failed := checks(s);
    var i :| 0 <= i < |failed| && failed[i] == m;
    assert FieldIssues(key, Some(s), optional, checks)[i] == Issue([Key(key)], m);
  }

  /** `schema.parse(body)`: the body when there are no issues, the Zod
      error otherwise. */
  function Parse<T>(body: T, issues: seq<Issue>): (r: Result<T, Failure>)
    ensures r.Ok? <==> issues == []
    ensures r.Ok? ==> r.value == body
    ensures r.Err? ==> r.error == Invalid(issues)
  {
    if issues == [] then Ok(body) else Err(Invalid(issues))
  }

  // ------------------------------------------------------------ register

  datatype RegisterBody = RegisterBody(
    email: Option<string>,
    password: Option<string>,
    fullName: Option<string>,
    phone: Option<string>,
    college: Option<string>,
    yearOfStudy: Option<string>,
    rollNumber: Option<string>)

  /** `registerSchema`, field by field in declaration order. */
  function RegisterIssues(b: RegisterBody, isEmail: string -> bool): seq<Issue> {
    FieldIssues("email", b.email, false, EmailChecks(isEmail))
    + FieldIssues("password", b.password, false, PasswordChecks)
    + FieldIssues("fullName", b.fullName, false, FullNameChecks)
    + FieldIssues("phone", b.phone, true, PhoneChecks)
    + FieldIssues("college", b.college, true, CollegeChecks)
    + FieldIssues("yearOfStudy", b.yearOfStudy, true, YearChecks)
    + FieldIssues("rollNumber", b.rollNumber, true, NoChecks)
  }

  function ParseRegister(b: RegisterBody, isEmail: string -> bool): Result<RegisterBody, Failure> {
    Parse(b, RegisterIssues(b, isEmail))
  }

  /** A strong password: at least eight characters and the pattern. */
  predicate ValidPassword(p: string) {
    |p| >= 8 && StrongPattern(p)
  }

  /** The registration rules, stated field by field. */
  predicate ValidRegistration(b: RegisterBody, isEmail: string -> bool) {
    && b.email.Some? && isEmail(b.email.value)
    && b.password.Some? && ValidPassword(b.password.value)
    && b.fullName.Some? && |b.fullName.value| >= 2
    && (b.phone.Some? ==> IndianMobile(b.phone.value))
    && (b.college.Some? ==> |b.college.value| >= 2)
    && (b.yearOfStudy.Some? ==> b.yearOfStudy.value in YearsOfStudy)
  }

  /** Registration is accepted exactly when every rule holds, and then the
      body passes on unchanged. */
  lemma RegisterAccepts(b: RegisterBody, isEmail: string -> bool)
    ensures ParseRegister(b, isEmail).Ok? <==> ValidRegistration(b, isEmail)
    ensures ParseRegister(b, isEmail).Ok? ==> ParseRegister(b, isEmail).value == b
  {
  }

  /** A rejected password reports each rule it breaks, at "password". */
  lemma RegisterReportsPasswordRules(b: RegisterBody, isEmail: string -> bool)
    requires b.password.Some?
    ensures |b.password.value| < 8 ==> Issue([Key("password")], PasswordTooShort) in RegisterIssues(b, isEmail)
    ensures !StrongPattern(b.password.value) ==> Issue([Key("password")], PasswordTooWeak) in RegisterIssues(b, isEmail)
  {
    var p := b.password.value;
    if |p| < 8 {
      FieldReportsEveryCheck("password", p, false, PasswordChecks, PasswordTooShort);
    }
    if !StrongPattern(p) {
      FieldReportsEveryCheck("password", p, false, PasswordChecks, PasswordTooWeak);
    }
  }

  // ------------------------------------------------------------ login, refresh, forgot

  datatype LoginBody = LoginBody(email: Option<string>, password: Option<string>)

  function LoginIssues(b: LoginBody, isEmail: string -> bool): seq<Issue> {
    FieldIssues("email", b.email, false, EmailChecks(isEmail))
    + FieldIssues("password", b.password, false, NonEmpty(PasswordRequired))
  }

  function ParseLogin(b: LoginBody, isEmail: string -> bool): Result<LoginBody, Failure> {
    Parse(b, LoginIssues(b, isEmail))
  }

  /** Login needs an address and any non-empty password: the strength
      rules are not applied again. */
  lemma LoginAccepts(b: LoginBody, isEmail: string -> bool)
    ensures ParseLogin(b, isEmail).Ok? <==>
      b.email.Some? && isEmail(b.email.value) && b.password.Some? && b.password.value != ""
  {
  }

  datatype RefreshBody = RefreshBody(refreshToken: Option<string>)

  function ParseRefresh(b: RefreshBody): Result<RefreshBody, Failure> {
    Parse(b, FieldIssues("refreshToken", b.refreshToken, false, NonEmpty(RefreshTokenRequired)))
  }

  /** A refresh request needs a non-empty token; an empty one is reported
      with its own message, a missing one as required. */
  lemma RefreshAccepts(b: RefreshBody)
    ensures ParseRefresh(b).Ok? <==> b.refreshToken.Some? && b.refreshToken.value != ""
    ensures b.refreshToken == Some("") ==>
      ParseRefresh(b) == Err(Invalid([Issue([Key("refreshToken")], RefreshTokenRequired)]))
    ensures b.refreshToken == None ==>
      ParseRefresh(b) == Err(Invalid([Issue([Key("refreshToken")], Required)]))
  {
    if b.refreshToken == Some("") {
      var r := FieldIssues("refreshToken", b.refreshToken, false, NonEmpty(RefreshTokenRequired));
      assert |r| == 1 && r[0] == Issue([Key("refreshToken")], RefreshTokenRequired);
      assert r == [Issue([Key("refreshToken")], RefreshTokenRequired)];
    }
  }

  datatype ForgotBody = ForgotBody(email: Option<string>)

  function ParseForgot(b: ForgotBody, isEmail: string -> bool): Result<ForgotBody, Failure> {
    Parse(b, FieldIssues("email", b.email, false, EmailChecks(isEmail)))
  }

  lemma ForgotAccepts(b: ForgotBody, isEmail: string -> bool)
    ensures ParseForgot(b, isEmail).Ok? <==> b.email.Some? && isEmail(b.email.value)
  {
  }

  // ------------------------------------------------------------ reset

  datatype ResetBody = ResetBody(token: Option<string>, password: Option<string>)

  function ResetIssues(b: ResetBody): seq<Issue> {
    FieldIssues("token", b.token, false, NonEmpty(ResetTokenRequired))
    + FieldIssues("password", b.password, false, PasswordChecks)
  }

  function ParseReset(b: ResetBody): Result<ResetBody, Failure> {
    Parse(b, ResetIssues(b))
  }

  /** A reset needs a non-empty token and a password that registration
      would accept. */
  lemma ResetAccepts(b: ResetBody)
    ensures ParseReset(b).Ok? <==> b.token.Some? && b.token.value != "" && b.password.Some? && ValidPassword(b.password.value)
  {
  }

  // ------------------------------------------------------------ update profile

  datatype ProfileUpdate = ProfileUpdate(
    fullName: Option<string>,
    phone: Option<string>,
    college: Option<string>,
    yearOfStudy: Option<string>,
    rollNumber: Option<string>)

  function ProfileIssues(b: ProfileUpdate): seq<Issue> {
    FieldIssues("fullName", b.fullName, true, FullNameChecks)
    + FieldIssues("phone", b.phone, true, PhoneChecks)
    + FieldIssues("college", b.college, true, CollegeChecks)
    + FieldIssues("yearOfStudy", b.yearOfStudy, true, YearChecks)
    + FieldIssues("rollNumber", b.rollNumber, true, NoChecks)
  }

  function ParseProfileUpdate(b: ProfileUpdate): Result<ProfileUpdate, Failure> {
    Parse(b, ProfileIssues(b))
  }

  /** Every profile field may be left out; a present one obeys the same
      rule as at registration. */
  lemma ProfileUpdateAccepts(b: ProfileUpdate)
    ensures ParseProfileUpdate(b).Ok? <==>
      && (b.fullName.Some? ==> |b.fullName.value| >= 2)
      && (b.phone.Some? ==> IndianMobile(b.phone.value))
      && (b.college.Some? ==> |b.college.value| >= 2)
      && (b.yearOfStudy.Some? ==> b.yearOfStudy.value in YearsOfStudy)
    ensures ParseProfileUpdate(ProfileUpdate(None, None, None, None, None)).Ok?
  {
  }

  /** The profile rules are the optional forms of the registration rules:
      a registration's profile fields always make a valid update. */
  lemma RegistrationFieldsUpdateProfile(b: RegisterBody, isEmail: string -> bool)
    requires ValidRegistration(b, isEmail)
    ensures ParseProfileUpdate(ProfileUpdate(b.fullName, b.phone, b.college, b.yearOfStudy, b.rollNumber)).Ok?
  {
    ProfileUpdateAccepts(ProfileUpdate(b.fullName, b.phone, b.college, b.yearOfStudy, b.rollNumber));
  }
}
