/** The sign-up screen's view model: the password strength score and the label shown for it,
    the fail-fast form validator, the clear-on-edit handlers and the sign-up command. */
module Signup {
  import opened Text

  // ---------------------------------------------------------------------------------------------
  // Password strength score.

  predicate IsDigit(c: char) { '0' <= c <= '9' }

  /** The class `[^a-zA-Z0-9]`: anything that is not an ASCII letter or digit. */
  predicate IsSymbol(c: char) { !(IsAsciiLower(c) || IsAsciiUpper(c) || IsDigit(c)) }

  predicate HasLower(p: string) { exists i :: 0 <= i < |p| && IsAsciiLower(p[i]) }
  predicate HasUpper(p: string) { exists i :: 0 <= i < |p| && IsAsciiUpper(p[i]) }
  predicate HasDigit(p: string) { exists i :: 0 <= i < |p| && IsDigit(p[i]) }
  predicate HasSymbol(p: string) { exists i :: 0 <= i < |p| && IsSymbol(p[i]) }

  function Point(b: bool): nat { if b then 1 else 0 }

  /** CalculatePasswordStrength: one point for each test that holds. */
  function Score(p: string): (r: nat)
    ensures r <= 6
    ensures |p| < 8 ==> r <= 4
  {
    Point(|p| >= 8) + Point(|p| >= 12)
    + Point(HasLower(p)) + Point(HasUpper(p)) + Point(HasDigit(p)) + Point(HasSymbol(p))
  }

  /** The six tests, in the order the scorer applies them. */
  function Tests(p: string): seq<bool>
  {
    [|p| >= 8, |p| >= 12, HasLower(p), HasUpper(p), HasDigit(p), HasSymbol(p)]
  }

  /** How many of `tests` hold. */
  function CountHolding(tests: seq<bool>): (n: nat)
    ensures n <= |tests|
    ensures n == |tests| <==> forall i :: 0 <= i < |tests| ==> tests[i]
    ensures n == 0 <==> forall i :: 0 <= i < |tests| ==> !tests[i]
  {
    if tests == [] then 0 else Point(tests[0]) + CountHolding(tests[1..])
  }

  /** The score is the number of the six tests that the password passes. */
  lemma ScoreCountsPassingTests(p: string)
    ensures Score(p) == CountHolding(Tests(p))
  {
    var t := Tests(p);
    calc {
      CountHolding(t);
      Point(t[0]) + CountHolding(t[1..]);
      Point(t[0]) + Point(t[1]) + CountHolding(t[2..]);
      Point(t[0]) + Point(t[1]) + Point(t[2]) + CountHolding(t[3..]);
      Point(t[0]) + Point(t[1]) + Point(t[2]) + Point(t[3]) + CountHolding(t[4..]);
      Point(t[0]) + Point(t[1]) + Point(t[2]) + Point(t[3]) + Point(t[4]) + CountHolding(t[5..]);
      { assert t[6..] == []; }
      Point(t[0]) + Point(t[1]) + Point(t[2]) + Point(t[3]) + Point(t[4]) + Point(t[5]);
    }
  }

  /** The top score needs twelve characters and all four character classes, and nothing else. */
  lemma FullScoreIff(p: string)
    ensures Score(p) == 6 <==> |p| >= 12 && HasLower(p) && HasUpper(p) && HasDigit(p) && HasSymbol(p)
  {
  }

  /** Only the length tests can tell a password of eight lower-case letters from a shorter one,
      and they already give it the two points the validator asks for. */
  lemma {:induction false} LowercaseOnlyScore(p: string)
    requires |p| >= 8
    requires forall i :: 0 <= i < |p| ==> IsAsciiLower(p[i])
    ensures Score(p) == if |p| >= 12 then 3 else 2
  {
    assert IsAsciiLower(p[0]);
    assert !HasUpper(p) && !HasDigit(p) && !HasSymbol(p) by {
      forall i | 0 <= i < |p| ensures !IsAsciiUpper(p[i]) && !IsDigit(p[i]) && !IsSymbol(p[i]) {
        assert IsAsciiLower(p[i]);
      }
    }
  }

  /** A two-character password of one letter and one digit scores 2, enough for the validator. */
  lemma TwoCharactersCanScoreTwo()
    ensures Score("a1") == 2
  {
    var p := "a1";
    assert IsAsciiLower(p[0]) && IsDigit(p[1]);
    assert !HasUpper(p) && !HasSymbol(p) by {
      forall i | 0 <= i < |p| ensures !IsAsciiUpper(p[i]) && !IsSymbol(p[i]) {
        assert p[i] == 'a' || p[i] == '1';
      }
    }
  }

  // ---------------------------------------------------------------------------------------------
  // Strength label.

  datatype StrengthColor = Gray | Red | Orange | Green

  /** What the screen shows under the password: PasswordStrengthMessage and PasswordStrengthColor. */
  datatype Indicator = Indicator(message: NString, color: StrengthColor)

  const NoIndicator := Indicator(Str(""), Gray)
  const WeakIndicator := Indicator(Str("Weak"), Red)
  const MediumIndicator := Indicator(Str("Medium"), Orange)
  const StrongIndicator := Indicator(Str("Strong"), Green)

  /** The switch on the score: `None` is a score that no case matches. */
  function LabelFor(score: int): (r: Option<Indicator>)
    ensures r.Some? <==> 0 <= score <= 5
    ensures r.Some? ==> !IsNullOrEmpty(r.value.message) && r.value.color != Gray
  {
    if score == 0 || score == 1 then Some(WeakIndicator)
    else if score == 2 || score == 3 then Some(MediumIndicator)
    else if score == 4 || score == 5 then Some(StrongIndicator)
    else None
  }

  /** UpdatePasswordStrength: the indicator after the password became `password`, when `shown`
      was on screen before. */
  function StrengthAfter(password: NString, shown: Indicator): Indicator
  {
    if IsNullOrEmpty(password) then NoIndicator
    else match LabelFor(Score(password.value))
      case Some(indicator) => indicator
      case None => shown
  }

  /** The label table: an empty or null password clears the indicator; otherwise scores 0-1 show
      Weak/Red, 2-3 Medium/Orange, 4-5 Strong/Green, and a score of 6 leaves the indicator as it was. */
  lemma StrengthTable(password: NString, shown: Indicator)
    ensures IsNullOrEmpty(password) ==> StrengthAfter(password, shown) == NoIndicator
    ensures !IsNullOrEmpty(password) ==>
      var s := Score(password.value);
      && (s <= 1 ==> StrengthAfter(password, shown) == WeakIndicator)
      && (2 <= s <= 3 ==> StrengthAfter(password, shown) == MediumIndicator)
      && (4 <= s <= 5 ==> StrengthAfter(password, shown) == StrongIndicator)
      && (s == 6 ==> StrengthAfter(password, shown) == shown)
  {
  }

  /** The indicator depends on what was shown before exactly for the passwords that score 6:
      for every other password it is a function of the password alone. */
  lemma StaleIndicatorIff(p: string)
    ensures (forall a, b :: StrengthAfter(Str(p), a) == StrengthAfter(Str(p), b))
            <==> (p == "" || Score(p) < 6)
  {
    if p != "" && Score(p) == 6 {
      assert StrengthAfter(Str(p), WeakIndicator) != StrengthAfter(Str(p), StrongIndicator);
    }
  }

  /** A password shorter than eight characters can never score 6, so it is always labelled. */
  lemma ShortPasswordIsAlwaysLabelled(p: string, shown: Indicator)
    requires 0 < |p| < 8
    ensures StrengthAfter(Str(p), shown) in {WeakIndicator, MediumIndicator, StrongIndicator}
  {
  }

  /** A concrete instance of the gap: a twelve-character password with every character class
      keeps a stale "Weak" label from an earlier, weaker password. */
  lemma StrongestPasswordKeepsWeakLabel()
    ensures StrengthAfter(Str("Abcdefgh12!?"), WeakIndicator) == WeakIndicator
  {
    var p := "Abcdefgh12!?";
    assert IsAsciiUpper(p[0]) && IsAsciiLower(p[1]) && IsDigit(p[8]) && IsSymbol(p[10]);
    FullScoreIff(p);
  }

  // ---------------------------------------------------------------------------------------------
  // Form validation.

  /** The six inputs of the form. */
  datatype SignupForm = SignupForm(
    fullName: NString,
    email: NString,
    password: NString,
    confirmPassword: NString,
    phoneNumber: NString,
    acceptTerms: bool)

  /** The checks ValidateForm applies, in its order. */
  datatype SignupCheck =
    | FullNameRequired
    | EmailRequired
    | PasswordRequired
    | ConfirmationRequired
    | EmailMalformed
    | PasswordsDiffer
    | PasswordTooWeak
    | TermsNotAccepted

  function Position(c: SignupCheck): nat
  {
    match c
    case FullNameRequired => 0
    case EmailRequired => 1
    case PasswordRequired => 2
    case ConfirmationRequired => 3
    case EmailMalformed => 4
    case PasswordsDiffer => 5
    case PasswordTooWeak => 6
    case TermsNotAccepted => 7
  }

  function Message(c: SignupCheck): (m: string)
    ensures m != ""
  {
    match c
    case FullNameRequired => "Full name is required."
    case EmailRequired => "Email is required."
    case PasswordRequired => "Password is required."
    case ConfirmationRequired => "Please confirm your password."
    case EmailMalformed => "Please enter a valid email address."
    case PasswordsDiffer => "Passwords do not match."
    case PasswordTooWeak =>
      "Password is too weak. Please use at least 8 characters with a mix of letters, numbers, and symbols."
    case TermsNotAccepted => "Please accept the Terms & Conditions to continue."
  }

  /** Whether the form fails check `c`, taken on its own. A null password cannot be scored; the
      validator never scores one, because the blank-password check comes first. */
  predicate Fails(parse: MailParser, f: SignupForm, c: SignupCheck)
  {
    match c
    case FullNameRequired => IsNullOrWhiteSpace(f.fullName)
    case EmailRequired => IsNullOrWhiteSpace(f.email)
    case PasswordRequired => IsNullOrWhiteSpace(f.password)
    case ConfirmationRequired => IsNullOrWhiteSpace(f.confirmPassword)
    case EmailMalformed => !IsValidEmail(parse, f.email)
    case PasswordsDiffer => f.password != f.confirmPassword
    case PasswordTooWeak => f.password.Null? || Score(f.password.value) < 2
    case TermsNotAccepted => !f.acceptTerms
  }

  /** ValidateForm's decision: the first check in order that fails, or `None`. */
  function FirstFailedCheck(parse: MailParser, f: SignupForm): Option<SignupCheck>
  {
    if IsNullOrWhiteSpace(f.fullName) then Some(FullNameRequired)
    else if IsNullOrWhiteSpace(f.email) then Some(EmailRequired)
    else if IsNullOrWhiteSpace(f.password) then Some(PasswordRequired)
    else if IsNullOrWhiteSpace(f.confirmPassword) then Some(ConfirmationRequired)
    else if !IsValidEmail(parse, f.email) then Some(EmailMalformed)
    else if f.password != f.confirmPassword then Some(PasswordsDiffer)
    else if Score(f.password.value) < 2 then Some(PasswordTooWeak)
    else if !f.acceptTerms then Some(TermsNotAccepted)
    else None
  }

  /** The validator reports check `c` exactly when `c` fails and every earlier check passes. */
  lemma FirstFailedCheckIsFirst(parse: MailParser, f: SignupForm, c: SignupCheck)
    ensures FirstFailedCheck(parse, f) == Some(c)
        <==> Fails(parse, f, c) && forall d :: Position(d) < Position(c) ==> !Fails(parse, f, d)
  {
    if Fails(parse, f, c) && forall d :: Position(d) < Position(c) ==> !Fails(parse, f, d) {
      assert Position(FullNameRequired) == 0 && Position(EmailRequired) == 1;
      assert Position(PasswordRequired) == 2 && Position(ConfirmationRequired) == 3;
      assert Position(EmailMalformed) == 4 && Position(PasswordsDiffer) == 5;
      assert Position(PasswordTooWeak) == 6;
    }
  }

  /** The form is accepted exactly when all eight checks pass. */
  lemma AcceptedIffAllChecksPass(parse: MailParser, f: SignupForm)
    ensures FirstFailedCheck(parse, f).None? <==> forall c :: !Fails(parse, f, c)
  {
    if FirstFailedCheck(parse, f).Some? {
      var c := FirstFailedCheck(parse, f).value;
      FirstFailedCheckIsFirst(parse, f, c);
    }
  }

  /** The phone number takes no part in validation. */
  lemma PhoneNumberIsNeverValidated(parse: MailParser, f: SignupForm, phone: NString)
    ensures FirstFailedCheck(parse, f.(phoneNumber := phone)) == FirstFailedCheck(parse, f)
  {
  }

  /** With everything else in order, a password of eight or more lower-case letters passes. */
  lemma LowercasePasswordIsAccepted(parse: MailParser, f: SignupForm)
    requires !IsNullOrWhiteSpace(f.fullName) && !IsNullOrWhiteSpace(f.email) && IsValidEmail(parse, f.email)
    requires f.acceptTerms
    requires f.password == f.confirmPassword && f.password.Str? && |f.password.value| >= 8
    requires forall i :: 0 <= i < |f.password.value| ==> IsAsciiLower(f.password.value[i])
    ensures FirstFailedCheck(parse, f) == None
  {
    var p := f.password.value;
    LowercaseOnlyScore(p);
    assert !IsWhiteSpace(p[0]) by { assert IsAsciiLower(p[0]); }
    VisibleCharacterIsNotBlank(p, 0);
  }

  // ---------------------------------------------------------------------------------------------
  // The view model.

  const SignupFailedMessage := "An error occurred during signup. Please try again."

  class SignupViewModel {
    /** The platform's mail-address parser, used by IsValidEmail. */
    const parse: MailParser

    var isLoading: bool
    var fullName: NString
    var email: NString
    var password: NString
    var confirmPassword: NString
    var phoneNumber: NString
    var acceptTerms: bool
    var errorMessage: NString
    var strengthMessage: NString
    var strengthColor: StrengthColor

    function Form(): SignupForm
      reads this
    {
      SignupForm(fullName, email, password, confirmPassword, phoneNumber, acceptTerms)
    }

    function Shown(): Indicator
      reads this
    {
      Indicator(strengthMessage, strengthColor)
    }

    constructor(parse: MailParser)
      ensures this.parse == parse && !isLoading
      ensures Form() == SignupForm(Str(""), Str(""), Str(""), Str(""), Str(""), false)
      ensures errorMessage == Str("") && Shown() == NoIndicator
    {
      this.parse := parse;
      isLoading := false;
      fullName, email, password, confirmPassword, phoneNumber := Str(""), Str(""), Str(""), Str(""), Str("");
      acceptTerms := false;
      errorMessage := Str("");
      strengthMessage, strengthColor := Str(""), Gray;
    }

    /** The body shared by every `On<Field>Changed` handler. */
    method ClearErrorOnEdit()
      modifies this`errorMessage
      ensures errorMessage == ClearedOnEdit(old(errorMessage))
    {
      if !IsNullOrEmpty(errorMessage) {
        errorMessage := Str("");
      }
    }

    method UpdatePasswordStrength()
      modifies this`strengthMessage, this`strengthColor
      ensures Shown() == StrengthAfter(password, old(Shown()))
    {
      if IsNullOrEmpty(password) {
        strengthMessage := Str("");
        strengthColor := Gray;
        return;
      }
      var score := Score(password.value);
      if score == 0 || score == 1 {
        strengthMessage, strengthColor := Str("Weak"), Red;
      } else if score == 2 || score == 3 {
        strengthMessage, strengthColor := Str("Medium"), Orange;
      } else if score == 4 || score == 5 {
        strengthMessage, strengthColor := Str("Strong"), Green;
      }
    }

    /** Setting FullName: a new value clears a pending error; setting the same value does nothing. */
    method SetFullName(value: NString)
      modifies this`fullName, this`errorMessage
      ensures fullName == value
      ensures errorMessage == if value != old(fullName) then ClearedOnEdit(old(errorMessage)) else old(errorMessage)
    {
      if value != fullName {
        fullName := value;
        ClearErrorOnEdit();
      }
    }

    method SetEmail(value: NString)
      modifies this`email, this`errorMessage
      ensures email == value
      ensures errorMessage == if value != old(email) then ClearedOnEdit(old(errorMessage)) else old(errorMessage)
    {
      if value != email {
        email := value;
        ClearErrorOnEdit();
      }
    }

    /** Setting Password is the one edit that also recomputes the strength indicator. */
    method SetPassword(value: NString)
      modifies this`password, this`errorMessage, this`strengthMessage, this`strengthColor
      ensures password == value
      ensures value != old(password) ==>
        errorMessage == ClearedOnEdit(old(errorMessage)) && Shown() == StrengthAfter(value, old(Shown()))
      ensures value == old(password) ==> errorMessage == old(errorMessage) && Shown() == old(Shown())
    {
      if value != password {
        password := value;
        ClearErrorOnEdit();
        UpdatePasswordStrength();
      }
    }

    method SetConfirmPassword(value: NString)
      modifies this`confirmPassword, this`errorMessage
      ensures confirmPassword == value
      ensures errorMessage ==
        if value != old(confirmPassword) then ClearedOnEdit(old(errorMessage)) else old(errorMessage)
    {
      if value != confirmPassword {
        confirmPassword := value;
        ClearErrorOnEdit();
      }
    }

    method SetPhoneNumber(value: NString)
      modifies this`phoneNumber, this`errorMessage
      ensures phoneNumber == value
      ensures errorMessage ==
        if value != old(phoneNumber) then ClearedOnEdit(old(errorMessage)) else old(errorMessage)
    {
      if value != phoneNumber {
        phoneNumber := value;
        ClearErrorOnEdit();
      }
    }

    method SetAcceptTerms(value: bool)
      modifies this`acceptTerms, this`errorMessage
      ensures acceptTerms == value
      ensures errorMessage ==
        if value != old(acceptTerms) then ClearedOnEdit(old(errorMessage)) else old(errorMessage)
    {
      if value != acceptTerms {
        acceptTerms := value;
        ClearErrorOnEdit();
      }
    }

    /** ValidateForm: true exactly when no check fails, with an empty error message; otherwise
        false, with the message of the first failing check. */
    method ValidateForm() returns (ok: bool)
      modifies this`errorMessage
      ensures ok <==> FirstFailedCheck(parse, Form()).None?
      ensures errorMessage == if ok then Str("") else Str(Message(FirstFailedCheck(parse, Form()).value))
    {
      errorMessage := Str("");
      if IsNullOrWhiteSpace(fullName) {
        errorMessage := Str(Message(FullNameRequired));
        return false;
      }
      if IsNullOrWhiteSpace(email) {
        errorMessage := Str(Message(EmailRequired));
        return false;
      }
      if IsNullOrWhiteSpace(password) {
        errorMessage := Str(Message(PasswordRequired));
        return false;
      }
      if IsNullOrWhiteSpace(confirmPassword) {
        errorMessage := Str(Message(ConfirmationRequired));
        return false;
      }
      if !IsValidEmail(parse, email) {
        errorMessage := Str(Message(EmailMalformed));
        return false;
      }
      if password != confirmPassword {
        errorMessage := Str(Message(PasswordsDiffer));
        return false;
      }
      if Score(password.value) < 2 {
        errorMessage := Str(Message(PasswordTooWeak));
        return false;
      }
      if !acceptTerms {
        errorMessage := Str(Message(TermsNotAccepted));
        return false;
      }
      return true;
    }

    /** SignupAsync up to its first await: a form that fails validation stops the command with
        IsLoading untouched; a valid one sets IsLoading and clears the error. */
    method BeginSignup() returns (proceed: bool)
      modifies this`errorMessage, this`isLoading
      ensures proceed <==> FirstFailedCheck(parse, Form()).None?
      ensures !proceed ==>
        isLoading == old(isLoading) && errorMessage == Str(Message(FirstFailedCheck(parse, Form()).value))
      ensures proceed ==> isLoading && errorMessage == Str("")
    {
      proceed := ValidateForm();
      if !proceed {
        return;
      }
      isLoading := true;
      errorMessage := Str("");
    }

    /** The rest of SignupAsync. The delay and the success alert are not modelled; `faulted` says
        whether one of them threw, which the catch block turns into a generic error. */
    method FinishSignup(faulted: bool)
      modifies this`errorMessage, this`isLoading
      ensures !isLoading
      ensures errorMessage == if faulted then Str(SignupFailedMessage) else old(errorMessage)
    {
      if faulted {
        errorMessage := Str(SignupFailedMessage);
      }
      isLoading := false;
    }

    /** SignupAsync as one step. */
    method SignupAsync(faulted: bool) returns (proceeded: bool)
      modifies this`errorMessage, this`isLoading
      ensures proceeded <==> FirstFailedCheck(parse, Form()).None?
      ensures !proceeded ==>
        isLoading == old(isLoading) && errorMessage == Str(Message(FirstFailedCheck(parse, Form()).value))
      ensures proceeded ==> !isLoading && errorMessage == if faulted then Str(SignupFailedMessage) else Str("")
    {
      proceeded := BeginSignup();
      if proceeded {
        FinishSignup(faulted);
      }
    }
  }
}
