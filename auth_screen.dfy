/**
 * The login / sign-up screen: the e-mail and password validators, the error
 * dictionary built on submit, the live re-validation on every keystroke and
 * the forgot-password check.
 */
module AuthScreen {
  import opened JsText
  import opened Wrappers

  // ---------------------------------------------------------------------------
  // Password rules (validatePassword)
  // ---------------------------------------------------------------------------

  /** The character classes the password rules test for. */
  datatype CharClass = Uppercase | Lowercase | Digit | Special

  /** `[A-Z]`, `[a-z]`, `[0-9]` and `[!@#$%^&*]`. */
  predicate InClass(c: char, cls: CharClass)
  {
    match cls
    case Uppercase => 'A' <= c <= 'Z'
    case Lowercase => 'a' <= c <= 'z'
    case Digit => '0' <= c <= '9'
    case Special => c in "!@#$%^&*"
  }

  /** `/[...]/.test(s)`: a scan for one character of the class. */
  function HasCharIn(s: string, cls: CharClass): (r: bool)
    ensures r <==> exists i :: 0 <= i < |s| && InClass(s[i], cls)
  {
    if |s| == 0 then false
    else if InClass(s[0], cls) then true
    else
      assert forall i :: 1 <= i < |s| ==> s[i] == s[1..][i - 1];
      HasCharIn(s[1..], cls)
  }

  /** The object validatePassword returns: one verdict per requirement. */
  datatype PasswordChecks = PasswordChecks(length: bool, uppercase: bool, lowercase: bool, number: bool, special: bool)

  function ValidatePassword(p: string): (c: PasswordChecks)
    ensures c.length <==> |p| >= 8
    ensures c.uppercase <==> exists i :: 0 <= i < |p| && 'A' <= p[i] <= 'Z'
    ensures c.lowercase <==> exists i :: 0 <= i < |p| && 'a' <= p[i] <= 'z'
    ensures c.number <==> exists i :: 0 <= i < |p| && '0' <= p[i] <= '9'
    ensures c.special <==> exists i :: 0 <= i < |p| && p[i] in "!@#$%^&*"
  {
    PasswordChecks(|p| >= 8, HasCharIn(p, Uppercase), HasCharIn(p, Lowercase),
                   HasCharIn(p, Digit), HasCharIn(p, Special))
  }

  /** `Object.values(validatePassword(p)).every((v) => v)`. */
  predicate MeetsRequirements(p: string)
  {
    var c := ValidatePassword(p);
    c.length && c.uppercase && c.lowercase && c.number && c.special
  }

  /** The empty password fails the rules (it is shorter than 8). */
  lemma EmptyPasswordFails()
    ensures !MeetsRequirements("")
  {
  }

  // ---------------------------------------------------------------------------
  // E-mail shape (validateEmail)
  // ---------------------------------------------------------------------------

  /** `[^\s@]`: neither whitespace nor '@'. */
  predicate Plain(c: char)
  {
    c != '@' && !IsWhitespace(c)
  }

  predicate AllPlain(s: string)
  {
    forall i :: 0 <= i < |s| ==> Plain(s[i])
  }

  /** The pattern `^[^\s@]+@[^\s@]+\.[^\s@]+$` read positionally: an '@' at
      `i`, a '.' at `j`, and three non-empty runs of plain characters around them. */
  ghost predicate MatchesEmailPattern(e: string)
  {
    exists i, j :: 0 < i && i + 1 < j && j + 1 < |e| && e[i] == '@' && e[j] == '.'
                   && AllPlain(e[..i]) && AllPlain(e[i + 1..j]) && AllPlain(e[j + 1..])
  }

  /** The first index of `c` in `s`, if any. */
  function IndexOf(s: string, c: char): (r: Option<nat>)
    ensures r.Some? ==> r.value < |s| && s[r.value] == c && forall k :: 0 <= k < r.value ==> s[k] != c
    ensures r.None? ==> forall k :: 0 <= k < |s| ==> s[k] != c
  {
    if |s| == 0 then None
    else if s[0] == c then Some(0)
    else match IndexOf(s[1..], c)
      case None => None
      case Some(k) => Some(k + 1)
  }

  /** validateEmail: the text before the first '@' is a non-empty plain run, and
      the text after it is plain with a '.' that is neither first nor last. */
  function ValidateEmail(e: string): (r: bool)
    ensures r <==> MatchesEmailPattern(e)
  {
    match IndexOf(e, '@')
    case None =>
      assert !MatchesEmailPattern(e);
      false
    case Some(i) =>
      var domain := e[i + 1..];
      var r := 0 < i && AllPlain(e[..i]) && AllPlain(domain)
               && exists j :: 0 < j < |domain| - 1 && domain[j] == '.';
      EmailPatternAt(e, i);
      assert r == DomainOk(e, i);
      r
  }

  lemma AllPlainSlice(s: string, lo: nat, hi: nat)
    requires lo <= hi <= |s| && AllPlain(s)
    ensures AllPlain(s[lo..hi])
  {
    assert forall k :: 0 <= k < hi - lo ==> s[lo..hi][k] == s[lo + k];
  }

  lemma AllPlainJoin(a: string, c: char, b: string)
    requires AllPlain(a) && Plain(c) && AllPlain(b)
    ensures AllPlain(a + [c] + b)
  {
    var s := a + [c] + b;
    forall k | 0 <= k < |s|
      ensures Plain(s[k])
    {
      if k < |a| {
        assert s[k] == a[k];
      } else if k > |a| {
        assert s[k] == b[k - |a| - 1];
      }
    }
  }

  /** The domain's conditions in ValidateEmail, given the first '@' at `i`. */
  ghost predicate DomainOk(e: string, i: nat)
    requires i < |e|
  {
    var domain := e[i + 1..];
    0 < i && AllPlain(e[..i]) && AllPlain(domain)
    && exists j :: 0 < j < |domain| - 1 && domain[j] == '.'
  }

  /** With `i` the first '@', the pattern holds exactly when the local part and
      the domain meet ValidateEmail's conditions. */
  lemma EmailPatternAt(e: string, i: nat)
    requires i < |e| && e[i] == '@' && forall k :: 0 <= k < i ==> e[k] != '@'
    ensures MatchesEmailPattern(e) <==> DomainOk(e, i)
  {
    if MatchesEmailPattern(e) {
      PatternGivesDomain(e, i);
    }
    if DomainOk(e, i) {
      DomainGivesPattern(e, i);
    }
  }

  /** Two '@'s where neither has an '@' before it are the same one. */
  lemma FirstAtUnique(e: string, i: nat, a: nat)
    requires i < |e| && e[i] == '@' && forall k :: 0 <= k < i ==> e[k] != '@'
    requires a < |e| && e[a] == '@' && AllPlain(e[..a])
    ensures a == i
  {
    assert forall k :: 0 <= k < a ==> e[..a][k] == e[k];
  }

  /** A plain run, a '.', and a plain run after the '@' make the domain's
      conditions. */
  lemma DomainFromParts(e: string, i: nat, b: nat)
    requires 0 < i && i + 1 < b && b + 1 < |e|
    requires e[b] == '.' && AllPlain(e[..i]) && AllPlain(e[i + 1..b]) && AllPlain(e[b + 1..])
    ensures DomainOk(e, i)
  {
    var domain := e[i + 1..];
    assert domain == e[i + 1..b] + [e[b]] + e[b + 1..];
    AllPlainJoin(e[i + 1..b], e[b], e[b + 1..]);
    assert domain[b - i - 1] == '.';
  }

  lemma PatternGivesDomain(e: string, i: nat)
    requires i < |e| && e[i] == '@' && forall k :: 0 <= k < i ==> e[k] != '@'
    requires MatchesEmailPattern(e)
    ensures DomainOk(e, i)
  {
    var a, b :| 0 < a && a + 1 < b && b + 1 < |e| && e[a] == '@' && e[b] == '.'
                && AllPlain(e[..a]) && AllPlain(e[a + 1..b]) && AllPlain(e[b + 1..]);
    FirstAtUnique(e, i, a);
    DomainFromParts(e, a, b);
  }

  lemma DomainGivesPattern(e: string, i: nat)
    requires i < |e| && e[i] == '@'
    requires DomainOk(e, i)
    ensures MatchesEmailPattern(e)
  {
    var domain := e[i + 1..];
    var j :| 0 < j < |domain| - 1 && domain[j] == '.';
    var b := i + 1 + j;
    assert e[b] == '.';
    assert e[i + 1..b] == domain[..j];
    assert e[b + 1..] == domain[j + 1..];
    AllPlainSlice(domain, 0, j);
    AllPlainSlice(domain, j + 1, |domain|);
    assert domain[j + 1..|domain|] == domain[j + 1..];
  }

  /** Three plain runs around an '@' at `i` and a '.' at `j`: every other
      character of the string is plain. */
  lemma PlainOutsideAt(e: string, i: nat, j: nat)
    requires i < j < |e| && e[j] == '.'
    requires AllPlain(e[..i]) && AllPlain(e[i + 1..j]) && AllPlain(e[j + 1..])
    ensures forall k :: 0 <= k < |e| && k != i ==> Plain(e[k])
  {
    forall k | 0 <= k < |e| && k != i
      ensures Plain(e[k])
    {
      if k < i {
        assert e[k] == e[..i][k];
      } else if k < j {
        assert e[k] == e[i + 1..j][k - i - 1];
      } else if k > j {
        assert e[k] == e[j + 1..][k - j - 1];
      }
    }
  }

  /** The shape in words: exactly one '@', no whitespace, something before the
      '@', and a '.' after it that is neither the domain's first nor its last
      character. */
  ghost predicate EmailShape(e: string, i: int)
  {
    0 < i < |e| && e[i] == '@'
    && (forall k :: 0 <= k < |e| && k != i ==> e[k] != '@')
    && (forall k :: 0 <= k < |e| ==> !IsWhitespace(e[k]))
    && (exists j :: i + 1 < j < |e| - 1 && e[j] == '.')
  }

  /** The shape gives the three plain runs of the pattern. */
  lemma ShapeGivesPattern(e: string, i: int)
    requires EmailShape(e, i)
    ensures MatchesEmailPattern(e)
  {
    var j :| i + 1 < j < |e| - 1 && e[j] == '.';
    var local, mid, top := e[..i], e[i + 1..j], e[j + 1..];
    forall k | 0 <= k < |local| ensures Plain(local[k]) {
      assert local[k] == e[k];
    }
    forall k | 0 <= k < |mid| ensures Plain(mid[k]) {
      assert mid[k] == e[i + 1 + k];
    }
    forall k | 0 <= k < |top| ensures Plain(top[k]) {
      assert top[k] == e[j + 1 + k];
    }
  }

  lemma EmailAcceptedIff(e: string)
    ensures ValidateEmail(e) <==> exists i :: EmailShape(e, i)
  {
    if ValidateEmail(e) {
      var i, j :| 0 < i && i + 1 < j && j + 1 < |e| && e[i] == '@' && e[j] == '.'
                  && AllPlain(e[..i]) && AllPlain(e[i + 1..j]) && AllPlain(e[j + 1..]);
      PlainOutsideAt(e, i, j);
      assert EmailShape(e, i);
    }
    if exists i :: EmailShape(e, i) {
      var i :| EmailShape(e, i);
      ShapeGivesPattern(e, i);
    }
  }

  // ---------------------------------------------------------------------------
  // Form data and the error dictionary
  // ---------------------------------------------------------------------------

  datatype Field = Email | Password | ConfirmPassword | FullName

  datatype FormData = FormData(email: string, password: string, confirmPassword: string, fullName: string)
  {
    function Get(field: Field): string
    {
      match field
      case Email => email
      case Password => password
      case ConfirmPassword => confirmPassword
      case FullName => fullName
    }

    /** `{ ...prev, [field]: value }` */
    function Set(field: Field, value: string): (f: FormData)
      ensures f.Get(field) == value
      ensures forall other :: other != field ==> f.Get(other) == Get(other)
    {
      match field
      case Email => this.(email := value)
      case Password => this.(password := value)
      case ConfirmPassword => this.(confirmPassword := value)
      case FullName => this.(fullName := value)
    }
  }

  const EmptyForm := FormData("", "", "", "")

  /** The `errors` state: a message per field; an empty message hides it. */
  type Errors = map<Field, string>

  const EmailRequired := "Email is required"
  const InvalidEmail := "Invalid email format"
  const PasswordRequired := "Password is required"
  const FullNameRequired := "Full name is required"
  const PasswordWeak := "Password does not meet requirements"
  const PasswordMismatch := "Passwords do not match"
  const EnterEmail := "Please enter your email"

  /** The `newErrors` dictionary of handleSubmit, filled check by check. */
  function SubmitErrors(form: FormData, isLogin: bool): (errs: Errors)
    ensures Email in errs <==> !ValidateEmail(form.email)
    ensures Email in errs ==> errs[Email] == if form.email == "" then EmailRequired else InvalidEmail
    ensures isLogin ==> errs.Keys <= {Email, Password}
    ensures isLogin ==> (Password in errs <==> form.password == "")
    ensures isLogin && Password in errs ==> errs[Password] == PasswordRequired
    ensures !isLogin ==> (FullName in errs <==> form.fullName == "")
    ensures !isLogin && FullName in errs ==> errs[FullName] == FullNameRequired
    ensures !isLogin ==> (Password in errs <==> !MeetsRequirements(form.password))
    ensures !isLogin && Password in errs ==> errs[Password] == PasswordWeak
    ensures !isLogin ==> (ConfirmPassword in errs <==> form.password != form.confirmPassword)
    ensures !isLogin && ConfirmPassword in errs ==> errs[ConfirmPassword] == PasswordMismatch
  {
    var withEmail: Errors :=
      if form.email == "" then map[Email := EmailRequired]
      else if !ValidateEmail(form.email) then map[Email := InvalidEmail]
      else map[];
    assert form.email == "" ==> !ValidateEmail(form.email);
    var withPassword := if form.password == "" then withEmail[Password := PasswordRequired] else withEmail;
    if isLogin then withPassword
    else
      var withName := if form.fullName == "" then withPassword[FullName := FullNameRequired] else withPassword;
      EmptyPasswordFails();
      var withRules := if !MeetsRequirements(form.password) then withName[Password := PasswordWeak] else withName;
      if form.password != form.confirmPassword then withRules[ConfirmPassword := PasswordMismatch]
      else withRules
  }

  /** Submission goes through exactly when every check passes. */
  lemma SubmitSucceedsIff(form: FormData, isLogin: bool)
    ensures SubmitErrors(form, isLogin) == map[] <==>
      && ValidateEmail(form.email)
      && form.password != ""
      && (!isLogin ==> form.fullName != "" && MeetsRequirements(form.password)
                       && form.password == form.confirmPassword)
  {
    var errs := SubmitErrors(form, isLogin);
    if !isLogin && !MeetsRequirements(form.password) {
      assert Password in errs;
    }
    if !isLogin && form.password == "" {
      assert Password in errs;
    }
  }

  /** Whether the keystroke's own re-check flags the edited field. */
  predicate Reflagged(field: Field, value: string, form: FormData, isLogin: bool)
  {
    match field
    case Email => value != "" && !ValidateEmail(value)
    case Password => value != "" && !isLogin && !MeetsRequirements(value)
    case ConfirmPassword => value != "" && !isLogin && value != form.password
    case FullName => false
  }

  /** The message the re-check puts on the edited field. */
  function ReflagMessage(field: Field): string
  {
    match field
    case Email => InvalidEmail
    case Password => PasswordWeak
    case ConfirmPassword => PasswordMismatch
    case FullName => ""
  }

  /**
   * The errors after handleInputChange(field, value): the queued updates run in
   * order on the previous errors; first a shown error on the field is blanked,
   * then the field's own check may set its message again. `form` is the form
   * before the keystroke (the closure's `formData`).
   */
  function InputChangeErrors(errors: Errors, form: FormData, isLogin: bool, field: Field, value: string): (r: Errors)
    ensures forall f :: f != field ==> (f in r <==> f in errors) && (f in errors ==> r[f] == errors[f])
    ensures Reflagged(field, value, form, isLogin) ==> field in r && r[field] == ReflagMessage(field)
    ensures !Reflagged(field, value, form, isLogin) ==> (field in r <==> field in errors) && (field in r ==> r[field] == "")
  {
    var cleared := if field in errors && errors[field] != "" then errors[field := ""] else errors;
    var withEmail := if field == Email && value != "" && !ValidateEmail(value) then cleared[Email := InvalidEmail] else cleared;
    var withPassword := if field == Password && value != "" && !isLogin && !MeetsRequirements(value)
                        then withEmail[Password := PasswordWeak] else withEmail;
    if field == ConfirmPassword && value != "" && !isLogin && value != form.password
    then withPassword[ConfirmPassword := PasswordMismatch] else withPassword
  }

  /** handleForgotPassword's check: the message it shows, or None when the reset
      link is sent. */
  function ForgotPasswordError(email: string): (r: Option<string>)
    ensures r.None? <==> ValidateEmail(email)
    ensures r == Some(EnterEmail) <==> email == ""
    ensures r.Some? && email != "" ==> r.value == InvalidEmail
  {
    if email == "" then
      assert !ValidateEmail(email);
      Some(EnterEmail)
    else if !ValidateEmail(email) then Some(InvalidEmail)
    else None
  }

  // ---------------------------------------------------------------------------
  // The screen's state
  // ---------------------------------------------------------------------------

  class AuthForm {
    var isLogin: bool
    var form: FormData
    var errors: Errors
    var showForgotPassword: bool

    constructor ()
      ensures isLogin && form == EmptyForm && errors == map[] && !showForgotPassword
    {
      isLogin, form, errors, showForgotPassword := true, EmptyForm, map[], false;
    }

    /** The Login and Sign Up tabs: switch mode, clear every error, close the
        forgot-password form. */
    method SelectMode(login: bool)
      modifies this
      ensures isLogin == login && errors == map[] && !showForgotPassword && form == old(form)
    {
      isLogin, errors, showForgotPassword := login, map[], false;
    }

    /** The "Forgot password?" link and the back button of that form. */
    method SetShowForgotPassword(show: bool)
      modifies this
      ensures showForgotPassword == show
      ensures isLogin == old(isLogin) && form == old(form) && errors == old(errors)
    {
      showForgotPassword := show;
    }

    /** handleInputChange */
    method InputChange(field: Field, value: string)
      modifies this
      ensures form == old(form).Set(field, value)
      ensures errors == InputChangeErrors(old(errors), old(form), isLogin, field, value)
      ensures isLogin == old(isLogin) && showForgotPassword == old(showForgotPassword)
    {
      errors := InputChangeErrors(errors, form, isLogin, field, value);
      form := form.Set(field, value);
    }

    /** handleSubmit: either the error dictionary replaces `errors`, or the
        submission succeeds and nothing changes. */
    method Submit() returns (success: bool)
      modifies this
      ensures success <==> SubmitErrors(old(form), old(isLogin)) == map[]
      ensures errors == if success then old(errors) else SubmitErrors(old(form), old(isLogin))
      ensures form == old(form) && isLogin == old(isLogin) && showForgotPassword == old(showForgotPassword)
    {
      var newErrors := SubmitErrors(form, isLogin);
      success := newErrors == map[];
      if !success {
        errors := newErrors;
      }
    }

    /** handleForgotPassword: a bad e-mail replaces the whole error map with one
        e-mail message; a good one sends the link and closes the form. */
    method ForgotPassword() returns (sent: bool)
      modifies this
      ensures sent <==> ValidateEmail(old(form).email)
      ensures sent ==> errors == old(errors) && !showForgotPassword
      ensures !sent ==> errors == map[Email := ForgotPasswordError(old(form).email).value]
                        && showForgotPassword == old(showForgotPassword)
      ensures form == old(form) && isLogin == old(isLogin)
    {
      var problem := ForgotPasswordError(form.email);
      if problem.Some? {
        errors := map[Email := problem.value];
        sent := false;
      } else {
        showForgotPassword := false;
        sent := true;
      }
    }
  }
}
