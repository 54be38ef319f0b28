/**
  The sign-up form's validation schema and submit rule (src/pages/signup.jsx).
  Lengths are counted in characters; whether an e-mail address is well formed
  is decided by the validation library and is an input here.
*/
module SignupForm {

  import opened JsValues

  const NameMinLength := 3
  const PasswordMinLength := 8
  const SpecialCharacters := "#?!@$%^&*-"

  const NameMessage := "Name must be at least 3 characters long"
  const EmailMessage := "Invalid email address"
  const PasswordLengthMessage := "Password must be at least 8 characters long"
  const PasswordPatternMessage :=
    "Password must contain at least one uppercase letter, one lowercase letter, one number, and one special character"
  const DateOfBirthMessage := "Date of birth is required"
  const MismatchMessage := "Passwords do not match"
  const GenderMessage := "Gender must be either 'male' or 'female'"

  const LoginRoute := "/login"

  /** The values the form fields hold when it is submitted. */
  datatype Entries = Entries(name: string, email: string, password: string, rePassword: string, dateOfBirth: string)

  /** A validation issue: the field it is reported on and its message. */
  datatype Issue = Issue(path: string, message: string)

  /** The characters a regular expression's `.` does not match. */
  predicate IsLineTerminator(c: char) {
    c == '\n' || c == '\r' || c == '\U{2028}' || c == '\U{2029}'
  }

  /** The longest prefix of `s` without a line terminator. */
  function FirstLine(s: string): (r: string)
    ensures |r| <= |s| && r == s[..|r|]
    ensures forall i :: 0 <= i < |r| ==> !IsLineTerminator(r[i])
    ensures |r| < |s| ==> IsLineTerminator(s[|r|])
  {
    if s == [] || IsLineTerminator(s[0]) then [] else [s[0]] + FirstLine(s[1..])
  }

  predicate IsUpper(c: char) { 'A' <= c <= 'Z' }
  predicate IsLower(c: char) { 'a' <= c <= 'z' }
  predicate IsDigit(c: char) { '0' <= c <= '9' }
  predicate IsSpecial(c: char) { c in SpecialCharacters }

  /**
    The password pattern: four look-aheads anchored at the start, each of the
    form `.*?[class]`, so each character class must occur before the first
    line terminator.
  */
  predicate MatchesPattern(password: string) {
    var line := FirstLine(password);
    (exists i :: 0 <= i < |line| && IsUpper(line[i]))
    && (exists i :: 0 <= i < |line| && IsLower(line[i]))
    && (exists i :: 0 <= i < |line| && IsDigit(line[i]))
    && (exists i :: 0 <= i < |line| && IsSpecial(line[i]))
  }

  /** On a single-line password the pattern asks for one character of each class anywhere. */
  lemma SingleLinePattern(password: string)
    requires forall i :: 0 <= i < |password| ==> !IsLineTerminator(password[i])
    ensures MatchesPattern(password) <==>
              (exists i :: 0 <= i < |password| && IsUpper(password[i]))
              && (exists i :: 0 <= i < |password| && IsLower(password[i]))
              && (exists i :: 0 <= i < |password| && IsDigit(password[i]))
              && (exists i :: 0 <= i < |password| && IsSpecial(password[i]))
  {
    assert FirstLine(password) == password;
  }

  /** A class that occurs only after a line break does not count: "aaaa1#\nA" has its only capital on the second line. */
  lemma SecondLineIgnored()
    ensures !MatchesPattern("aaaa1#\nA")
  {
    var line := FirstLine("aaaa1#\nA");
    assert line == "aaaa1#";
    assert !exists i :: 0 <= i < |line| && IsUpper(line[i]);
  }

  /** One rule of the schema: whether it failed, and what it reports if so. */
  datatype Check = Check(failed: bool, issue: Issue)

  /** The issues of the failed checks, in order. */
  function Reported(checks: seq<Check>): seq<Issue> {
    if checks == [] then []
    else (if checks[0].failed then [checks[0].issue] else []) + Reported(checks[1..])
  }

  /** Nothing is reported exactly when no check failed. */
  lemma {:induction false} ReportedEmptyIff(checks: seq<Check>)
    ensures Reported(checks) == [] <==> forall i :: 0 <= i < |checks| ==> !checks[i].failed
  {
    if checks != [] {
      ReportedEmptyIff(checks[1..]);
      assert forall i :: 1 <= i < |checks| ==> checks[i] == checks[1..][i - 1];
    }
  }

  /** An issue is reported exactly when some check that carries it failed. */
  lemma {:induction false} ReportedIff(checks: seq<Check>, issue: Issue)
    ensures issue in Reported(checks) <==> exists i :: 0 <= i < |checks| && checks[i].failed && checks[i].issue == issue
  {
    if checks != [] {
      ReportedIff(checks[1..], issue);
      if issue in Reported(checks[1..]) {
        var i :| 0 <= i < |checks[1..]| && checks[1..][i].failed && checks[1..][i].issue == issue;
        assert checks[i + 1] == checks[1..][i];
      }
      if exists i :: 0 <= i < |checks| && checks[i].failed && checks[i].issue == issue {
        var i :| 0 <= i < |checks| && checks[i].failed && checks[i].issue == issue;
        if i > 0 { assert checks[1..][i - 1] == checks[i]; }
      }
    }
  }

  /** The schema's rules, in its order: the field rules, then the two refinements. */
  function Checks(e: Entries, gender: string, emailValid: bool): seq<Check> {
    [ Check(|e.name| < NameMinLength, Issue("name", NameMessage)),
      Check(!emailValid, Issue("email", EmailMessage)),
      Check(|e.password| < PasswordMinLength, Issue("password", PasswordLengthMessage)),
      Check(!MatchesPattern(e.password), Issue("password", PasswordPatternMessage)),
      Check(|e.dateOfBirth| < 1, Issue("dateOfBirth", DateOfBirthMessage)),
      Check(e.password != e.rePassword, Issue("rePassword", MismatchMessage)),
      Check(gender != "male" && gender != "female", Issue("gender", GenderMessage)) ]
  }

  /**
    The issues the schema reports. The field rules do not stop validation, so
    the refinements are checked too and every failed rule is reported.
  */
  function Issues(e: Entries, gender: string, emailValid: bool): seq<Issue> {
    Reported(Checks(e, gender, emailValid))
  }

  /** The form is accepted exactly when every rule holds. */
  lemma AcceptedIff(e: Entries, gender: string, emailValid: bool)
    ensures Issues(e, gender, emailValid) == [] <==>
              |e.name| >= NameMinLength && emailValid
              && |e.password| >= PasswordMinLength && MatchesPattern(e.password)
              && |e.dateOfBirth| >= 1 && e.password == e.rePassword
              && (gender == "male" || gender == "female")
  {
    var checks := Checks(e, gender, emailValid);
    ReportedEmptyIff(checks);
    var holds := forall i :: 0 <= i < |checks| ==> !checks[i].failed;
    assert holds <==> !checks[0].failed && !checks[1].failed && !checks[2].failed && !checks[3].failed
                      && !checks[4].failed && !checks[5].failed && !checks[6].failed;
  }

  /** A password mismatch is reported, and on the `rePassword` field only when the passwords differ. */
  lemma MismatchOnRePassword(e: Entries, gender: string, emailValid: bool)
    ensures Issue("rePassword", MismatchMessage) in Issues(e, gender, emailValid) <==> e.password != e.rePassword
  {
    var checks := Checks(e, gender, emailValid);
    ReportedIff(checks, Issue("rePassword", MismatchMessage));
    if e.password != e.rePassword {
      assert checks[5].failed && checks[5].issue == Issue("rePassword", MismatchMessage);
    }
  }

  /**
    `onSubmit` runs only for an accepted form; it navigates to /login exactly
    when the sign-up result is truthy and carries no truthy `error`.
  */
  function SubmitRoutes(e: Entries, gender: string, emailValid: bool, result: Value): (routes: seq<string>)
    ensures routes == [] || routes == [LoginRoute]
    ensures routes == [LoginRoute] <==>
              Issues(e, gender, emailValid) == [] && Truthy(result) && !Truthy(OptionalMember(result, "error"))
  {
    if Issues(e, gender, emailValid) != [] then []
    else if Truthy(result) && !Truthy(Member(result, "error").value) then [LoginRoute]
    else []
  }
}
