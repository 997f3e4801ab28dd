/** The forgot-password screen's view model: the e-mail validator and the send-reset-link command. */
module ForgotPassword {
  import opened Text
  import Signup

  const EmailRequiredMessage := "Email address is required."
  const EmailInvalidMessage := "Please enter a valid email address."
  const ResetSentMessage := "Password reset link has been sent to your email address."
  const ResetFailedMessage := "An error occurred while sending the reset link. Please try again."

  /** ValidateEmail's decision: the message of the first failing check, or `None`. The blank
      check comes before the format check. */
  function EmailProblem(parse: MailParser, email: NString): (r: Option<string>)
    ensures r == Some(EmailRequiredMessage) <==> IsNullOrWhiteSpace(email)
    ensures r == Some(EmailInvalidMessage) <==> !IsNullOrWhiteSpace(email) && !IsValidEmail(parse, email)
    ensures r.None? <==> !IsNullOrWhiteSpace(email) && IsValidEmail(parse, email)
  {
    if IsNullOrWhiteSpace(email) then Some(EmailRequiredMessage)
    else if !IsValidEmail(parse, email) then Some(EmailInvalidMessage)
    else None
  }

  /** An e-mail that gets the sign-up form accepted also passes this screen's validator, and the
      two screens word the format error the same way. */
  lemma SignupEmailPassesResetCheck(parse: MailParser, f: Signup.SignupForm)
    requires Signup.FirstFailedCheck(parse, f).None?
    ensures EmailProblem(parse, f.email).None?
    ensures Signup.Message(Signup.EmailMalformed) == EmailInvalidMessage
  {
  }

  /** Where an awaited step of SendResetLinkAsync threw, if one did: the first delay, or the
      second delay or the navigation that follow the success message. */
  datatype Fault = NoFault | BeforeSent | AfterSent

  class ForgotPasswordViewModel {
    /** The platform's mail-address parser, used by IsValidEmail. */
    const parse: MailParser

    var isLoading: bool
    var email: NString
    var errorMessage: NString
    var successMessage: NString

    constructor(parse: MailParser)
      ensures this.parse == parse && !isLoading
      ensures email == Str("") && errorMessage == Str("") && successMessage == Str("")
    {
      this.parse := parse;
      isLoading := false;
      email, errorMessage, successMessage := Str(""), Str(""), Str("");
    }

    /** The body of OnEmailChanged. */
    method ClearErrorOnEdit()
      modifies this`errorMessage
      ensures errorMessage == ClearedOnEdit(old(errorMessage))
    {
      if !IsNullOrEmpty(errorMessage) {
        errorMessage := Str("");
      }
    }

    /** Setting Email: a new value clears a pending error; setting the same value does nothing. */
    method SetEmail(value: NString)
      modifies this`email, this`errorMessage
      ensures email == value
      ensures errorMessage ==
        if value != old(email) then ClearedOnEdit(old(errorMessage)) else old(errorMessage)
    {
      if value != email {
        email := value;
        ClearErrorOnEdit();
      }
    }

    /** ValidateEmail: the error is reset first, then set to the first failing check's message. */
    method ValidateEmail() returns (ok: bool)
      modifies this`errorMessage
      ensures ok <==> EmailProblem(parse, email).None?
      ensures errorMessage == if ok then Str("") else Str(EmailProblem(parse, email).value)
    {
      errorMessage := Str("");
      if IsNullOrWhiteSpace(email) {
        errorMessage := Str(EmailRequiredMessage);
        return false;
      }
      if !IsValidEmail(parse, email) {
        errorMessage := Str(EmailInvalidMessage);
        return false;
      }
      return true;
    }

    /** SendResetLinkAsync up to its first await: an invalid e-mail stops the command with only
        the error set; a valid one sets IsLoading and clears both messages. */
    method BeginSendReset() returns (proceed: bool)
      modifies this`errorMessage, this`successMessage, this`isLoading
      ensures proceed <==> EmailProblem(parse, email).None?
      ensures !proceed ==>
        && errorMessage == Str(EmailProblem(parse, email).value)
        && isLoading == old(isLoading) && successMessage == old(successMessage)
      ensures proceed ==> isLoading && errorMessage == Str("") && successMessage == Str("")
    {
      proceed := ValidateEmail();
      if !proceed {
        return;
      }
      isLoading := true;
      errorMessage := Str("");
      successMessage := Str("");
    }

    /** The rest of SendResetLinkAsync. The success message is written after the first delay, so
        a fault after it leaves both the success and the error message on screen. */
    method FinishSendReset(fault: Fault)
      modifies this`errorMessage, this`successMessage, this`isLoading
      ensures !isLoading
      ensures successMessage == if fault == BeforeSent then old(successMessage) else Str(ResetSentMessage)
      ensures errorMessage == if fault == NoFault then old(errorMessage) else Str(ResetFailedMessage)
    {
      if fault != BeforeSent {
        successMessage := Str(ResetSentMessage);
      }
      if fault != NoFault {
        errorMessage := Str(ResetFailedMessage);
      }
      isLoading := false;
    }

    /** SendResetLinkAsync as one step, with no edit during the awaits. */
    method SendResetLinkAsync(fault: Fault) returns (proceeded: bool)
      modifies this`errorMessage, this`successMessage, this`isLoading
      ensures proceeded <==> EmailProblem(parse, email).None?
      ensures !proceeded ==>
        && errorMessage == Str(EmailProblem(parse, email).value)
        && isLoading == old(isLoading) && successMessage == old(successMessage)
      ensures proceeded ==> !isLoading
      ensures proceeded ==> successMessage == if fault == BeforeSent then Str("") else Str(ResetSentMessage)
      ensures proceeded ==> errorMessage == if fault == NoFault then Str("") else Str(ResetFailedMessage)
    {
      proceeded := BeginSendReset();
      if proceeded {
        FinishSendReset(fault);
      }
    }
  }
}
