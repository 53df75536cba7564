/** The password policy of the sign-up form (src/routes/auth.tsx): five
    requirements, each tested by a regular expression or a length, and the
    rule that enables the submit button. */
module AuthForm {
  import opened Wrappers
  import AuthContext

  /** One row of the requirement checklist shown under the password field. */
  datatype Requirement = Requirement(caption: string, valid: bool)

  const MinPasswordLength: nat := 12

  /** The character class `[!@#$%^&*()_+\-=[\]{};':"\\|,.<>/?]`, written out. */
  const SpecialChars: string := "!@#$%^&*()_+-=[]{};':\"\\|,.<>/?"

  predicate IsAsciiUpper(c: char) { 'A' <= c <= 'Z' }
  predicate IsAsciiLower(c: char) { 'a' <= c <= 'z' }
  /** `\d` without the `u` flag matches the ASCII digits only. */
  predicate IsAsciiDigit(c: char) { '0' <= c <= '9' }
  /** The class is every printable ASCII symbol except '`' and '~': the four
      ranges below. */
  predicate IsSpecial(c: char)
  {
    '!' <= c <= '/' || ':' <= c <= '@' || '[' <= c <= '_' || '{' <= c <= '}'
  }

  lemma SpecialCharsAreTheClass(c: char)
    ensures IsSpecial(c) <==> c in SpecialChars
  {
  }

  /** `/[A-Z]/.test(pw)` and its three siblings: some character of the class occurs. */
  predicate HasUpper(pw: string) { exists i :: 0 <= i < |pw| && IsAsciiUpper(pw[i]) }
  predicate HasLower(pw: string) { exists i :: 0 <= i < |pw| && IsAsciiLower(pw[i]) }
  predicate HasDigit(pw: string) { exists i :: 0 <= i < |pw| && IsAsciiDigit(pw[i]) }
  predicate HasSpecial(pw: string) { exists i :: 0 <= i < |pw| && IsSpecial(pw[i]) }

  /** The checklist, in display order. */
  function Requirements(pw: string): (r: seq<Requirement>)
    ensures |r| == 5
    ensures r[0].valid <==> |pw| >= MinPasswordLength
    ensures r[1].valid <==> HasUpper(pw)
    ensures r[2].valid <==> HasLower(pw)
    ensures r[3].valid <==> HasDigit(pw)
    ensures r[4].valid <==> HasSpecial(pw)
  {
    [ Requirement("At least 12 characters", |pw| >= MinPasswordLength),
      Requirement("Uppercase letter (A-Z)", HasUpper(pw)),
      Requirement("Lowercase letter (a-z)", HasLower(pw)),
      Requirement("Number (0-9)", HasDigit(pw)),
      Requirement("Special character (!@#$%^&* etc)", HasSpecial(pw)) ]
  }

  /** `passwordRequirements.every(req => req.valid)`. */
  predicate AllRequirementsMet(pw: string)
  {
    var reqs := Requirements(pw);
    forall k :: 0 <= k < |reqs| ==> reqs[k].valid
  }

  /** The password is accepted exactly when it is long enough and has an
      upper-case letter, a lower-case letter, a digit and a special character. */
  lemma AllRequirementsMetIff(pw: string)
    ensures AllRequirementsMet(pw) <==>
      |pw| >= 12 && HasUpper(pw) && HasLower(pw) && HasDigit(pw) && HasSpecial(pw)
  {
    var reqs := Requirements(pw);
    if |pw| >= 12 && HasUpper(pw) && HasLower(pw) && HasDigit(pw) && HasSpecial(pw) {
      forall k | 0 <= k < |reqs| ensures reqs[k].valid {
      }
    }
  }

  /** Tilde, back-quote and space are outside the special-character class, so
      a password whose only non-alphanumeric characters are those fails it. */
  lemma OtherSymbolsAreNotSpecial(pw: string)
    requires forall i :: 0 <= i < |pw| ==>
      IsAsciiUpper(pw[i]) || IsAsciiLower(pw[i]) || IsAsciiDigit(pw[i]) || pw[i] in "~` "
    ensures !HasSpecial(pw)
    ensures !AllRequirementsMet(pw)
  {
    AllRequirementsMetIff(pw);
  }

  /** Typing more characters never turns a met requirement into an unmet one. */
  lemma AppendKeepsRequirements(pw: string, more: string)
    ensures |pw| >= MinPasswordLength ==> |pw + more| >= MinPasswordLength
    ensures HasUpper(pw) ==> HasUpper(pw + more)
    ensures HasLower(pw) ==> HasLower(pw + more)
    ensures HasDigit(pw) ==> HasDigit(pw + more)
    ensures HasSpecial(pw) ==> HasSpecial(pw + more)
    ensures AllRequirementsMet(pw) ==> AllRequirementsMet(pw + more)
  {
    var longer := pw + more;
    if HasUpper(pw) {
      var i :| 0 <= i < |pw| && IsAsciiUpper(pw[i]);
      assert longer[i] == pw[i];
    }
    if HasLower(pw) {
      var i :| 0 <= i < |pw| && IsAsciiLower(pw[i]);
      assert longer[i] == pw[i];
    }
    if HasDigit(pw) {
      var i :| 0 <= i < |pw| && IsAsciiDigit(pw[i]);
      assert longer[i] == pw[i];
    }
    if HasSpecial(pw) {
      var i :| 0 <= i < |pw| && IsSpecial(pw[i]);
      assert longer[i] == pw[i];
    }
    AllRequirementsMetIff(pw);
    AllRequirementsMetIff(longer);
  }

  /** `disabled={isLoading || (isSignUp && !allRequirementsMet)}`. */
  predicate SubmitDisabled(isLoading: bool, isSignUp: bool, pw: string)
  {
    isLoading || (isSignUp && !AllRequirementsMet(pw))
  }

  /** While loading the button is always disabled; signing in ignores the
      policy; signing up is enabled exactly for a policy-conforming password. */
  lemma SubmitRule(pw: string)
    ensures SubmitDisabled(true, true, pw) && SubmitDisabled(true, false, pw)
    ensures !SubmitDisabled(false, false, pw)
    ensures !SubmitDisabled(false, true, pw) <==>
      |pw| >= 12 && HasUpper(pw) && HasLower(pw) && HasDigit(pw) && HasSpecial(pw)
  {
    AllRequirementsMetIff(pw);
  }

  /** A twelve-character password with one character of every class passes;
      replacing its special character by '~' makes it fail. */
  lemma ExamplePasswords(strong: string, weak: string)
    requires strong == "Abcdefghij1!" && weak == "Abcdefghij1~"
    ensures AllRequirementsMet(strong)
    ensures !AllRequirementsMet(weak)
  {
    assert IsAsciiUpper(strong[0]) && IsAsciiLower(strong[1]) && IsAsciiDigit(strong[10]);
    assert IsSpecial(strong[11]);
    AllRequirementsMetIff(strong);
    OtherSymbolsAreNotSpecial(weak);
  }

  /** `handleSubmit`: the action the form calls, the report that action makes
      for the library's `outcome`, and the navigation to "/" that follows
      unless the action rethrew (the form swallows the error). */
  datatype SubmitResult = SubmitResult(report: AuthContext.Report, navigateTo: Option<string>)

  function HandleSubmit(isSignUp: bool, email: string, name: string, outcome: Option<AuthContext.Thrown>): (r: SubmitResult)
    ensures r.navigateTo.Some? <==> outcome.None?
    ensures r.navigateTo.Some? ==> r.navigateTo.value == "/"
    ensures isSignUp ==> r.report == AuthContext.SignUpReport(name, outcome)
    ensures !isSignUp ==> r.report == AuthContext.SignInReport(email, outcome)
  {
    var report := if isSignUp then AuthContext.SignUpReport(name, outcome) else AuthContext.SignInReport(email, outcome);
    SubmitResult(report, if report.rethrown.None? then Some("/") else None)
  }
}
