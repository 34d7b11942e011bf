/**
 * The client-side validation schemas of the register, login and
 * change-password forms. Formik runs the schema before submitting and never
 * calls the submit handler while a field is invalid, so these predicates
 * decide whether a request is sent at all.
 */
module Validators {
  import opened Common

  // ---------------------------------------------------------------------
  // The password pattern shared by the three forms:
  //   ^(?=.*?[A-Z])(?=.*?[a-z])(?=.*?[0-9])(?=.*?[#?!@$%^&*-]).{8,}$
  // ---------------------------------------------------------------------

  /** The character classes the pattern's four lookaheads search for. */
  datatype CharClass = Upper | Lower | Digit | Special

  predicate InClass(c: char, k: CharClass) {
    match k
    case Upper => 'A' <= c <= 'Z'
    case Lower => 'a' <= c <= 'z'
    case Digit => '0' <= c <= '9'
    case Special => c in "#?!@$%^&*-"
  }

  /** The characters `.` does not match in a pattern without the `s` flag. */
  predicate IsLineTerminator(c: char) {
    c == '\n' || c == '\r' || c == '\U{2028}' || c == '\U{2029}'
  }

  /** `s` is matched by a run of `.`. */
  predicate DotRun(s: string) {
    forall i :: 0 <= i < |s| ==> !IsLineTerminator(s[i])
  }

  /** `(?=.*?[k])` at the start of `p`: a run of `.` followed by a character of class `k`. */
  predicate LookaheadFinds(p: string, k: CharClass) {
    exists j :: 0 <= j < |p| && DotRun(p[..j]) && InClass(p[j], k)
  }

  /**
   * The regular expression as the JavaScript engine reads it: the four
   * lookaheads at position 0, then `.{8,}` anchored to the end of the input
   * (no `m` flag, so `$` is the end of the string).
   */
  predicate MatchesPasswordPattern(p: string)
    ensures MatchesPasswordPattern(p) ==>
      |p| >= 8 && HasClass(p, Upper) && HasClass(p, Lower) && HasClass(p, Digit) && HasClass(p, Special)
  {
    && LookaheadFinds(p, Upper)
    && LookaheadFinds(p, Lower)
    && LookaheadFinds(p, Digit)
    && LookaheadFinds(p, Special)
    && |p| >= 8 && DotRun(p)
  }

  /** `p` holds some character of class `k`. */
  predicate HasClass(p: string, k: CharClass) {
    exists i :: 0 <= i < |p| && InClass(p[i], k)
  }

  /**
   * The password rule in plain words: at least eight characters, none of them
   * a line terminator, with an ASCII upper-case letter, an ASCII lower-case
   * letter, a digit and one of `#?!@$%^&*-`.
   */
  predicate PasswordRule(p: string) {
    && |p| >= 8
    && (forall i :: 0 <= i < |p| ==> !IsLineTerminator(p[i]))
    && HasClass(p, Upper) && HasClass(p, Lower) && HasClass(p, Digit) && HasClass(p, Special)
  }

  /** One lookahead succeeds on a line-terminator-free string exactly when the class occurs in it. */
  lemma LookaheadOnDotRun(p: string, k: CharClass)
    requires DotRun(p)
    ensures LookaheadFinds(p, k) <==> HasClass(p, k)
  {
    if HasClass(p, k) {
      var i :| 0 <= i < |p| && InClass(p[i], k);
      assert DotRun(p[..i]);
    }
  }

  /** The pattern accepts exactly the passwords the plain rule describes. */
  lemma PatternIsRule(p: string)
    ensures MatchesPasswordPattern(p) <==> PasswordRule(p)
  {
    if DotRun(p) {
      LookaheadOnDotRun(p, Upper);
      LookaheadOnDotRun(p, Lower);
      LookaheadOnDotRun(p, Digit);
      LookaheadOnDotRun(p, Special);
    }
  }

  /** Every password shorter than eight characters, the empty initial value included, fails the pattern. */
  lemma ShortPasswordRejected(p: string)
    requires |p| < 8
    ensures !MatchesPasswordPattern(p)
  {
  }

  // ---------------------------------------------------------------------
  // Register
  // ---------------------------------------------------------------------

  /**
   * The register form. `dateOfBirth` is a day number, absent when the date
   * input is empty or unparseable.
   */
  datatype RegisterForm = RegisterForm(
    name: string,
    email: string,
    password: string,
    rePassword: string,
    dateOfBirth: Option<int>,
    gender: string)

  datatype RegisterField = Name | Email | Password | RePassword | DateOfBirth | Gender

  /** One field's Yup rule; `today` is the day number of the moment the schema is built. */
  predicate RegisterFieldOk(f: RegisterField, form: RegisterForm, today: int) {
    match f
    case Name => form.name != "" && |form.name| >= 3 && |form.name| <= 30
    case Email => form.email != ""
    case Password => form.password != "" && MatchesPasswordPattern(form.password)
    case RePassword => form.rePassword != "" && form.rePassword == form.password
    case DateOfBirth => form.dateOfBirth.Some? && form.dateOfBirth.value <= today
    case Gender => form.gender != "" && form.gender in {"male", "female"}
  }

  /** The fields whose rule fails; the form is submitted only when there are none. */
  function RegisterErrors(form: RegisterForm, today: int): (bad: set<RegisterField>)
    ensures Name in bad <==> !(3 <= |form.name| <= 30)
    ensures Email in bad <==> form.email == ""
    ensures Password in bad <==> !PasswordRule(form.password)
    ensures RePassword in bad <==> form.rePassword == "" || form.rePassword != form.password
    ensures DateOfBirth in bad <==> (form.dateOfBirth.None? || form.dateOfBirth.value > today)
    ensures Gender in bad <==> form.gender != "male" && form.gender != "female"
  {
    PatternIsRule(form.password);
    set f | f in {Name, Email, Password, RePassword, DateOfBirth, Gender} && !RegisterFieldOk(f, form, today)
  }

  /**
   * A register form passes exactly when every rule holds; the confirmation's
   * own "required" is then implied, since it equals a password of eight or
   * more characters.
   */
  lemma RegisterAccepts(form: RegisterForm, today: int)
    ensures RegisterErrors(form, today) == {} <==>
      && 3 <= |form.name| <= 30
      && form.email != ""
      && PasswordRule(form.password)
      && form.rePassword == form.password
      && form.dateOfBirth.Some? && form.dateOfBirth.value <= today
      && (form.gender == "male" || form.gender == "female")
  {
    var bad := RegisterErrors(form, today);
    if bad == {} {
      assert Name !in bad && Email !in bad && Password !in bad;
      assert RePassword !in bad && DateOfBirth !in bad && Gender !in bad;
    }
  }

  // ---------------------------------------------------------------------
  // Login and change-password
  // ---------------------------------------------------------------------

  datatype LoginForm = LoginForm(email: string, password: string)

  /** The login schema: email required (format check not modelled), password required and patterned. */
  predicate LoginValid(form: LoginForm)
    ensures LoginValid(form) <==> form.email != "" && PasswordRule(form.password)
  {
    PatternIsRule(form.password);
    form.email != "" && form.password != "" && MatchesPasswordPattern(form.password)
  }

  datatype ChangePassForm = ChangePassForm(newPassword: string, password: string)

  /** The change-password schema: both the new and the current password must satisfy the rule. */
  predicate ChangePassValid(form: ChangePassForm)
    ensures ChangePassValid(form) <==> PasswordRule(form.newPassword) && PasswordRule(form.password)
  {
    PatternIsRule(form.newPassword);
    PatternIsRule(form.password);
    && form.newPassword != "" && MatchesPasswordPattern(form.newPassword)
    && form.password != "" && MatchesPasswordPattern(form.password)
  }
}
