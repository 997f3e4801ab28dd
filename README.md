# Orama authentication screens: a verified model of the client-side credential checks

Orama is a .NET MAUI app. Its login, sign-up and forgot-password screens are backed by three
view models. Each view model holds the observable fields the screen binds to (the inputs,
`ErrorMessage`, `IsLoading`, and the password strength label and colour). It updates those
fields when an input changes and when a command runs. This project models those three view
models in Dafny and proves what they guarantee:

- **Password strength** (`SignupViewModel.CalculatePasswordStrength` / `UpdatePasswordStrength`).
  The score is the number of six tests that hold, so it lies in 0..6. The tests are: length ≥ 8,
  length ≥ 12, an ASCII lower-case letter, an ASCII capital, an ASCII digit, and any other
  character. The two length points are nested, so a password shorter than eight characters
  scores at most 4. The label switch covers the scores 0 to 5 only. A password scoring 6 needs
  twelve characters and all four classes, and it leaves whatever label and colour were shown
  before. The model proves that this is the only case in which the label depends on history.
  It also proves that the two-character password `a1` scores 2, which is enough for the
  validator even though its message asks for eight characters.
- **Sign-up form validation** (`ValidateForm`). There are eight checks in a fixed order, and the
  validator stops at the first one that fails. It reports check *c* exactly when *c* fails and
  every earlier check passes. It accepts the form exactly when all eight checks pass, and then
  `ErrorMessage` is empty. The phone number is never looked at. A failed validation stops
  `SignupAsync` before `IsLoading` is touched.
- **Login** (`LoginAsync`). A blank e-mail is checked before a blank password. The demo
  credentials are accepted exactly when the lower-cased e-mail is `14asifcr7@gmail.com` and the
  password is exactly `Admin@123`: e-mail case is ignored (for ASCII letters, under the model's
  culture-free lower-casing), password case is not, and nothing is trimmed.
- **Forgot password** (`ValidateEmail`, `SendResetLinkAsync`). The blank check comes before
  the format check. A fault after the success message was written leaves both messages on
  screen.
- **Clear-on-edit.** Changing any input clears a non-empty `ErrorMessage`. Only a password
  change recomputes the strength label.

Layout: `text.dfy` (module `Text`) holds what the three screens share:

- nullable strings (`NString`);
- `string.IsNullOrEmpty`, and `string.IsNullOrWhiteSpace` over the whitespace set of
  `char.IsWhiteSpace`;
- ASCII case mapping;
- the clear-on-edit rule;
- `IsValidEmail`, which both `SignupViewModel.cs` and `ForgotPasswordViewModel.cs` define
  identically.

`signup.dfy`, `login.dfy` and `forgot_password.dfy` each hold the pure decision functions of
one view model, the lemmas about them, and a class with the view model's fields. The class
methods are proved against those functions.

Modelling choices:

- A C# `string` field is an `NString`, either `Null` or `Str(s)`. The login view model's
  string fields have no initialiser, so they start `Null`. The other view models' fields start
  empty.
- Each generated property setter (`SetFullName`, `SetPassword`, …) runs the field's
  `On<Field>Changed` handler only when the new value differs from the old one. This matches the
  setters that `[ObservableProperty]` generates.
- Each async command is split at its first `await`:
  - `Begin…` validates and, on success, sets `IsLoading`;
  - `Finish…` runs the rest, including the `catch` and `finally` blocks;
  - the command itself (`SignupAsync`, `LoginAsync`, `SendResetLinkAsync`) runs both.
  A caller can therefore see the state during the attempt and can edit fields between the two
  halves, as the UI can.
- The awaited platform calls are not modelled. Whether one of them threw is a parameter:
  - `faulted` for sign-up and login;
  - `Fault` for the reset link, because it matters whether the fault came before or after the
    success message.
- In `FinishLogin`, a `UserEmail` that became null during the await makes `ToLower` throw. That
  case ends in the same generic message as the other faults.

## Model

| member | source | states |
|---|---|---|
| `Text.ClearedOnEdit` | Orama/ViewModels/SignupViewModel.cs:43-91 | a non-empty error message becomes empty, an empty or null one is kept; afterwards it is always empty or null |
| `Text.AsciiLower` | Orama/ViewModels/LoginViewModel.cs:71 | lower-casing keeps the length, lowers every ASCII capital and keeps every other character |
| `Text.LowerForgetsCase` | Orama/ViewModels/LoginViewModel.cs:71 | a string and its upper-cased form lower-case to the same string |
| `Signup.Score` | Orama/ViewModels/SignupViewModel.cs:168-180 | the strength score is at most 6, and at most 4 for a password shorter than 8 characters |
| `Signup.ScoreCountsPassingTests` | Orama/ViewModels/SignupViewModel.cs:168-180 | the score equals the number of the six tests (≥8, ≥12, a-z, A-Z, 0-9, other) that hold |
| `Signup.FullScoreIff` | Orama/ViewModels/SignupViewModel.cs:172-177 | the score is 6 exactly when the password has 12 or more characters and all four character classes |
| `Signup.LowercaseOnlyScore` | Orama/ViewModels/SignupViewModel.cs:172-177 | eight or more lower-case letters and nothing else score 2 (3 from twelve characters on) |
| `Signup.TwoCharactersCanScoreTwo` | Orama/ViewModels/SignupViewModel.cs:226-230 | the two-character password "a1" scores 2, which passes the strength check |
| `Signup.LabelFor` | Orama/ViewModels/SignupViewModel.cs:148-165 | the switch matches exactly the scores 0..5, and every matched case shows a non-empty message in a colour other than Gray |
| `Signup.StrengthTable` | Orama/ViewModels/SignupViewModel.cs:137-166 | empty or null password: empty message, Gray; scores 0-1 Weak/Red, 2-3 Medium/Orange, 4-5 Strong/Green; score 6 keeps the previous message and colour |
| `Signup.StaleIndicatorIff` | Orama/ViewModels/SignupViewModel.cs:148-165 | the indicator after a password change is independent of the previous indicator exactly when the password is empty or scores below 6 |
| `Signup.ShortPasswordIsAlwaysLabelled` | Orama/ViewModels/SignupViewModel.cs:148-177 | a non-empty password shorter than 8 characters always gets Weak, Medium or Strong |
| `Signup.StrongestPasswordKeepsWeakLabel` | Orama/ViewModels/SignupViewModel.cs:148-180 | "Abcdefgh12!?" leaves a previous "Weak"/Red indicator on screen |
| `Signup.Message` | Orama/ViewModels/SignupViewModel.cs:182-240 | every validation check has a non-empty message |
| `Signup.FirstFailedCheckIsFirst` | Orama/ViewModels/SignupViewModel.cs:182-240 | the validator reports check c exactly when c fails and every earlier check in the fixed order passes |
| `Signup.AcceptedIffAllChecksPass` | Orama/ViewModels/SignupViewModel.cs:182-240 | the form is accepted exactly when none of the eight checks fails |
| `Signup.PhoneNumberIsNeverValidated` | Orama/ViewModels/SignupViewModel.cs:182-240 | changing the phone number never changes the validator's decision |
| `Signup.LowercasePasswordIsAccepted` | Orama/ViewModels/SignupViewModel.cs:182-240 | with every other field in order, a password of 8 or more lower-case letters is accepted |
| `Signup.SignupViewModel.constructor` | Orama/ViewModels/SignupViewModel.cs:13-41 | all inputs and messages start empty, terms unaccepted, not loading, colour Gray |
| `Signup.SignupViewModel.ClearErrorOnEdit` | Orama/ViewModels/SignupViewModel.cs:43-91 | the handler body leaves the error message as ClearedOnEdit of the old one and changes nothing else |
| `Signup.SignupViewModel.UpdatePasswordStrength` | Orama/ViewModels/SignupViewModel.cs:137-166 | the indicator becomes StrengthAfter(password, previous indicator); no other field changes |
| `Signup.SignupViewModel.SetFullName` | Orama/ViewModels/SignupViewModel.cs:43-50 | a changed full name clears a non-empty error; an unchanged one leaves the error alone |
| `Signup.SignupViewModel.SetEmail` | Orama/ViewModels/SignupViewModel.cs:51-58 | a changed e-mail clears a non-empty error; an unchanged one leaves the error alone |
| `Signup.SignupViewModel.SetPassword` | Orama/ViewModels/SignupViewModel.cs:59-67 | a changed password clears a non-empty error and recomputes the indicator; an unchanged one changes neither |
| `Signup.SignupViewModel.SetConfirmPassword` | Orama/ViewModels/SignupViewModel.cs:68-75 | a changed confirmation clears a non-empty error; the indicator is not touched |
| `Signup.SignupViewModel.SetPhoneNumber` | Orama/ViewModels/SignupViewModel.cs:76-83 | a changed phone number clears a non-empty error |
| `Signup.SignupViewModel.SetAcceptTerms` | Orama/ViewModels/SignupViewModel.cs:84-91 | a changed terms flag clears a non-empty error |
| `Signup.SignupViewModel.ValidateForm` | Orama/ViewModels/SignupViewModel.cs:182-240 | returns true exactly when `FirstFailedCheck` reports no failing check, leaving the error empty; otherwise false with the message of the check `FirstFailedCheck` reports |
| `Signup.SignupViewModel.BeginSignup` | Orama/ViewModels/SignupViewModel.cs:101-105 | a form `FirstFailedCheck` rejects sets only the error (that check's message) and leaves IsLoading as it was; an accepted one sets IsLoading and clears the error |
| `Signup.SignupViewModel.FinishSignup` | Orama/ViewModels/SignupViewModel.cs:107-123 | IsLoading ends false; a fault sets the generic sign-up error, otherwise the error is kept |
| `Signup.SignupViewModel.SignupAsync` | Orama/ViewModels/SignupViewModel.cs:98-124 | the whole command: validation gate, then IsLoading false and an error that is empty or the generic fault message |
| `Login.BlankFieldMessage` | Orama/ViewModels/LoginViewModel.cs:50-59 | a blank e-mail gives "Email cannot be empty" whatever the password; a blank password with a non-blank e-mail gives "Password cannot be empty"; otherwise no message |
| `Login.CredentialsAcceptedIff` | Orama/ViewModels/LoginViewModel.cs:71 | `CredentialsAccepted` (the test at line 71) holds exactly when the e-mail has the demo address's length, lower-cases to it at every position, and the password equals "Admin@123" |
| `Login.EmailComparisonIgnoresCase` | Orama/ViewModels/LoginViewModel.cs:71 | upper-casing the e-mail never changes the credential decision (under ASCII lower-casing) |
| `Login.DemoAccountIsAccepted` | Orama/ViewModels/LoginViewModel.cs:71 | "14asifcr7@gmail.com" with "Admin@123" is accepted |
| `Login.CapitalisedDemoAccountIsAccepted` | Orama/ViewModels/LoginViewModel.cs:71 | the demo e-mail typed in capitals is accepted too (under ASCII lower-casing) |
| `Login.PasswordIsCaseSensitiveAndNothingIsTrimmed` | Orama/ViewModels/LoginViewModel.cs:71 | "admin@123" is rejected with any e-mail; a leading space on the e-mail or a trailing space on the password is rejected |
| `Login.AttemptError` | Orama/ViewModels/LoginViewModel.cs:65-89 | a fault or a null e-mail gives the generic login error; rejected credentials give "Invalid email or password. Please try again."; accepted ones keep the current message |
| `Login.LoginViewModel.constructor` | Orama/ViewModels/LoginViewModel.cs:13-23 | the e-mail, password and error start null; not loading |
| `Login.LoginViewModel.ClearErrorOnEdit` | Orama/ViewModels/LoginViewModel.cs:25-40 | the handler body leaves the error message as ClearedOnEdit of the old one |
| `Login.LoginViewModel.SetUserEmail` | Orama/ViewModels/LoginViewModel.cs:25-32 | a changed e-mail clears a non-empty error; an unchanged one leaves the error alone |
| `Login.LoginViewModel.SetPassword` | Orama/ViewModels/LoginViewModel.cs:33-40 | a changed password clears a non-empty error; an unchanged one leaves the error alone |
| `Login.LoginViewModel.BeginLogin` | Orama/ViewModels/LoginViewModel.cs:50-63 | a blank field sets its message and leaves IsLoading as it was; otherwise the error is cleared and IsLoading set |
| `Login.LoginViewModel.FinishLogin` | Orama/ViewModels/LoginViewModel.cs:65-89 | the error becomes AttemptError of the current fields, and IsLoading ends false |
| `Login.LoginViewModel.LoginAsync` | Orama/ViewModels/LoginViewModel.cs:47-90 | the whole command: blank checks first; once they pass, IsLoading ends false with an empty error exactly for accepted credentials without a fault |
| `ForgotPassword.EmailProblem` | Orama/ViewModels/ForgotPasswordViewModel.cs:80-97 | a blank e-mail gives "Email address is required."; a non-blank invalid one gives "Please enter a valid email address."; otherwise no message |
| `ForgotPassword.SignupEmailPassesResetCheck` | Orama/ViewModels/ForgotPasswordViewModel.cs:80-97 | an e-mail the sign-up validator accepts also passes this validator, and both screens use the same format message |
| `ForgotPassword.ForgotPasswordViewModel.constructor` | Orama/ViewModels/ForgotPasswordViewModel.cs:11-21 | e-mail and both messages start empty; not loading |
| `ForgotPassword.ForgotPasswordViewModel.ClearErrorOnEdit` | Orama/ViewModels/ForgotPasswordViewModel.cs:23-30 | the handler body leaves the error message as ClearedOnEdit of the old one |
| `ForgotPassword.ForgotPasswordViewModel.SetEmail` | Orama/ViewModels/ForgotPasswordViewModel.cs:23-30 | a changed e-mail clears a non-empty error; an unchanged one leaves the error alone |
| `ForgotPassword.ForgotPasswordViewModel.ValidateEmail` | Orama/ViewModels/ForgotPasswordViewModel.cs:80-97 | true exactly when no check fails, with an empty error whatever it was before; otherwise false with the first failing check's message |
| `ForgotPassword.ForgotPasswordViewModel.BeginSendReset` | Orama/ViewModels/ForgotPasswordViewModel.cs:40-45 | an invalid e-mail sets only the error; a valid one sets IsLoading and clears both messages |
| `ForgotPassword.ForgotPasswordViewModel.FinishSendReset` | Orama/ViewModels/ForgotPasswordViewModel.cs:47-65 | the success message is written unless the first delay failed; the generic error is written on any fault; IsLoading ends false |
| `ForgotPassword.ForgotPasswordViewModel.SendResetLinkAsync` | Orama/ViewModels/ForgotPasswordViewModel.cs:37-66 | the whole command: validation gate, then IsLoading false with the success and error messages the fault point determines |

## Left out

- `String.ToLower` is culture-sensitive. The model lower-cases ASCII capitals only, so
  culture-specific mappings are not captured in either direction. Onto the demo address: the
  Turkish dotted capital `İ` lowers to `i` under a Turkish culture. Away from it: under a Turkish
  or Azerbaijani culture the ASCII capital `I` lowers to the dotless `ı` (U+0131), so there
  `14ASIFCR7@GMAIL.COM` lowers to `14asıfcr7@gmaıl.com` and the capitalised demo e-mail is
  rejected. `EmailComparisonIgnoresCase` and `CapitalisedDemoAccountIsAccepted` hold only under
  the model's ASCII lower-casing, as under an invariant or English culture.
- `System.Net.Mail.MailAddress` parsing is outside the model. It is the parameter `parse`: a
  parsed address, or `None` for a constructor that throws.
- String lengths count characters, not UTF-16 code units. A character outside the Basic
  Multilingual Plane counts 1 here and 2 in .NET.
- `Task.Delay`, `DisplayAlert` and `Application.Current` are not modelled. Whether one of them
  threw is the `faulted` or `Fault` parameter.
- Navigation is not modelled: the reset flow's return to the login page, the login screen's
  links to sign-up and forgot-password, `NavigationService` and the shell route tables.
  These are calls into the MAUI shell.
- The sign-up screen's `ShowTermsAsync` and `ShowPrivacyAsync` are left out. They only show an
  alert.
- Property-change notification and the `OnChanging` hooks of the generated properties are left
  out. No core logic depends on them.
- Overlapping runs of one command are left out. The generated async commands refuse a second
  run while one is in progress. Edits during a run are covered: the setters can be called
  between `Begin…` and `Finish…`.
- Colours are the enumeration `StrengthColor`, not MAUI `Color` values.
- App start-up (`App.xaml.cs`, where `IsUserLoggedIn` is the constant false), dependency
  injection (`MauiProgram.cs`) and the views' code-behind are not part of this model. They only
  wire things together.
- The server in `Orama App API` is not part of this model: accounts, password hashing and
  history, one-time codes and tokens. No screen modelled here calls it. Sign-up and password
  reset only simulate the call with a delay.
