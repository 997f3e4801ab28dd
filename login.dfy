/** The login screen's view model: two ordered blank checks, then a comparison against one
    hard-coded demo account. */
module Login {
  import opened Text

  const DemoEmail := "14asifcr7@gmail.com"
  const DemoPassword := "Admin@123"

  const EmailEmptyMessage := "Email cannot be empty"
  const PasswordEmptyMessage := "Password cannot be empty"
  const InvalidCredentialsMessage := "Invalid email or password. Please try again."
  const LoginFailedMessage := "An error occurred during login. Please try again."

  /** The blank checks at the head of LoginAsync: the message that stops the command, or `None`
      when both fields hold a visible character. The e-mail is checked first. */
  function BlankFieldMessage(email: NString, password: NString): (r: Option<string>)
    ensures r == Some(EmailEmptyMessage) <==> IsNullOrWhiteSpace(email)
    ensures r == Some(PasswordEmptyMessage) <==> !IsNullOrWhiteSpace(email) && IsNullOrWhiteSpace(password)
    ensures r.None? <==> !IsNullOrWhiteSpace(email) && !IsNullOrWhiteSpace(password)
  {
    if IsNullOrWhiteSpace(email) then Some(EmailEmptyMessage)
    else if IsNullOrWhiteSpace(password) then Some(PasswordEmptyMessage)
    else None
  }

  /** The demo credential test: the e-mail is compared after lower-casing, the password as it is. */
  predicate CredentialsAccepted(email: string, password: NString)
  {
    AsciiLower(email) == DemoEmail && password == Str(DemoPassword)
  }

  /** Character by character: the e-mail has the demo address's length and lower-cases to it at
      every position, and the password is the demo password exactly. */
  lemma CredentialsAcceptedIff(email: string, password: NString)
    ensures CredentialsAccepted(email, password) <==>
      && |email| == |DemoEmail|
      && (forall i :: 0 <= i < |email| ==> LowerChar(email[i]) == DemoEmail[i])
      && password == Str(DemoPassword)
  {
  }

  /** The e-mail comparison ignores case: upper-casing the e-mail never changes the decision. */
  lemma EmailComparisonIgnoresCase(email: string, password: NString)
    ensures CredentialsAccepted(AsciiUpper(email), password) == CredentialsAccepted(email, password)
  {
  }

  /** The demo account is accepted. */
  lemma DemoAccountIsAccepted()
    ensures CredentialsAccepted(DemoEmail, Str(DemoPassword))
  {
    LowerKeepsCaselessText(DemoEmail);
  }

  /** The demo account is also accepted with its e-mail typed in capitals. */
  lemma CapitalisedDemoAccountIsAccepted()
    ensures CredentialsAccepted(AsciiUpper(DemoEmail), Str(DemoPassword))
  {
    DemoAccountIsAccepted();
    EmailComparisonIgnoresCase(DemoEmail, Str(DemoPassword));
  }

  /** The password comparison respects case, and neither input is trimmed. */
  lemma PasswordIsCaseSensitiveAndNothingIsTrimmed(email: string)
    ensures !CredentialsAccepted(email, Str("admin@123"))
    ensures !CredentialsAccepted(" " + DemoEmail, Str(DemoPassword))
    ensures !CredentialsAccepted(DemoEmail, Str(DemoPassword + " "))
  {
  }

  /** The error message once the awaited part of LoginAsync has run with the fields as they are
      then. `faulted` says whether the delay or the success alert threw; a null e-mail makes
      ToLower throw as well. Both end in the catch block's generic message. An accepted login
      writes no message, so `current` stays. */
  function AttemptError(email: NString, password: NString, faulted: bool, current: NString): (r: NString)
    ensures faulted || email.Null? ==> r == Str(LoginFailedMessage)
    ensures !faulted && email.Str? && CredentialsAccepted(email.value, password) ==> r == current
    ensures !faulted && email.Str? && !CredentialsAccepted(email.value, password) ==> r == Str(InvalidCredentialsMessage)
  {
    if faulted || email.Null? then Str(LoginFailedMessage)
    else if CredentialsAccepted(email.value, password) then current
    else Str(InvalidCredentialsMessage)
  }

  class LoginViewModel {
    var isLoading: bool
    var userEmail: NString
    var password: NString
    var errorMessage: NString

    /** The string fields have no initialiser in the view model, so they start null. */
    constructor()
      ensures !isLoading && userEmail == Null && password == Null && errorMessage == Null
    {
      isLoading := false;
      userEmail, password, errorMessage := Null, Null, Null;
    }

    /** The body shared by OnUserEmailChanged and OnPasswordChanged. */
    method ClearErrorOnEdit()
      modifies this`errorMessage
      ensures errorMessage == ClearedOnEdit(old(errorMessage))
    {
      if !IsNullOrEmpty(errorMessage) {
        errorMessage := Str("");
      }
    }

    /** Setting UserEmail: a new value clears a pending error; setting the same value does nothing. */
    method SetUserEmail(value: NString)
      modifies this`userEmail, this`errorMessage
      ensures userEmail == value
      ensures errorMessage ==
        if value != old(userEmail) then ClearedOnEdit(old(errorMessage)) else old(errorMessage)
    {
      if value != userEmail {
        userEmail := value;
        ClearErrorOnEdit();
      }
    }

    method SetPassword(value: NString)
      modifies this`password, this`errorMessage
      ensures password == value
      ensures errorMessage ==
        if value != old(password) then ClearedOnEdit(old(errorMessage)) else old(errorMessage)
    {
      if value != password {
        password := value;
        ClearErrorOnEdit();
      }
    }

    /** LoginAsync up to its first await: a blank field stops the command with its message and
        IsLoading untouched; otherwise the error is cleared and IsLoading set. */
    method BeginLogin() returns (proceed: bool)
      modifies this`errorMessage, this`isLoading
      ensures proceed <==> BlankFieldMessage(userEmail, password).None?
      ensures !proceed ==>
        errorMessage == Str(BlankFieldMessage(userEmail, password).value) && isLoading == old(isLoading)
      ensures proceed ==> errorMessage == Str("") && isLoading
    {
      if IsNullOrWhiteSpace(userEmail) {
        errorMessage := Str(EmailEmptyMessage);
        return false;
      }
      if IsNullOrWhiteSpace(password) {
        errorMessage := Str(PasswordEmptyMessage);
        return false;
      }
      errorMessage := Str("");
      isLoading := true;
      return true;
    }

    /** The rest of LoginAsync: the credential decision, the catch block and the finally block. */
    method FinishLogin(faulted: bool)
      modifies this`errorMessage, this`isLoading
      ensures !isLoading
      ensures errorMessage == AttemptError(userEmail, password, faulted, old(errorMessage))
    {
      if faulted || userEmail.Null? {
        errorMessage := Str(LoginFailedMessage);
      } else if AsciiLower(userEmail.value) == DemoEmail && password == Str(DemoPassword) {
        // the success alert is shown; no field changes
      } else {
        errorMessage := Str(InvalidCredentialsMessage);
      }
      isLoading := false;
    }

    /** LoginAsync as one step, with no edit during the await. */
    method LoginAsync(faulted: bool) returns (attempted: bool)
      modifies this`errorMessage, this`isLoading
      ensures attempted <==> BlankFieldMessage(userEmail, password).None?
      ensures !attempted ==>
        errorMessage == Str(BlankFieldMessage(userEmail, password).value) && isLoading == old(isLoading)
      ensures attempted ==> !isLoading
      ensures attempted ==> errorMessage == AttemptError(userEmail, password, faulted, Str(""))
    {
      attempted := BeginLogin();
      if attempted {
        FinishLogin(faulted);
      }
    }
  }
}
