/** Strings as the view models see them: nullable .NET strings, the whitespace test behind
    string.IsNullOrWhiteSpace, ASCII case mapping, the clear-on-edit rule shared by every
    observable input, and the e-mail format test built on the platform's address parser. */
module Text {

  datatype Option<+T> = None | Some(value: T)

  /** A .NET string reference: either null or a sequence of characters. */
  datatype NString = Null | Str(value: string)

  /** The characters System.Char.IsWhiteSpace accepts: U+0009..U+000D, U+0085 and the Unicode
      space, line and paragraph separators. */
  predicate IsWhiteSpace(c: char)
  {
    || ('\U{0009}' <= c <= '\U{000D}')
    || c == '\U{0020}' || c == '\U{0085}' || c == '\U{00A0}' || c == '\U{1680}'
    || ('\U{2000}' <= c <= '\U{200A}')
    || c == '\U{2028}' || c == '\U{2029}' || c == '\U{202F}' || c == '\U{205F}' || c == '\U{3000}'
  }

  /** string.IsNullOrEmpty */
  predicate IsNullOrEmpty(s: NString)
  {
    s.Null? || s.value == ""
  }

  /** string.IsNullOrWhiteSpace: null, or no character other than whitespace. */
  predicate IsNullOrWhiteSpace(s: NString)
  {
    s.Null? || forall i :: 0 <= i < |s.value| ==> IsWhiteSpace(s.value[i])
  }

  /** A string holding a character that is not whitespace is not blank. */
  lemma VisibleCharacterIsNotBlank(s: string, i: nat)
    requires i < |s| && !IsWhiteSpace(s[i])
    ensures !IsNullOrWhiteSpace(Str(s))
  {
  }

  /** The effect of every `On<Field>Changed` handler on the error message: a non-empty message is
      cleared, an empty or null one is left as it is. */
  function ClearedOnEdit(error: NString): (r: NString)
    ensures IsNullOrEmpty(r)
    ensures IsNullOrEmpty(error) ==> r == error
    ensures !IsNullOrEmpty(error) ==> r == Str("")
  {
    if IsNullOrEmpty(error) then error else Str("")
  }

  // ---------------------------------------------------------------------------------------------
  // ASCII case mapping (the model's stand-in for String.ToLower).

  predicate IsAsciiUpper(c: char) { 'A' <= c <= 'Z' }
  predicate IsAsciiLower(c: char) { 'a' <= c <= 'z' }

  function LowerChar(c: char): (r: char)
    ensures IsAsciiUpper(c) ==> IsAsciiLower(r) && r as int == c as int + 32
    ensures !IsAsciiUpper(c) ==> r == c
  {
    if IsAsciiUpper(c) then (c as int + 32) as char else c
  }

  function UpperChar(c: char): (r: char)
    ensures IsAsciiLower(c) ==> IsAsciiUpper(r) && r as int == c as int - 32
    ensures !IsAsciiLower(c) ==> r == c
  {
    if IsAsciiLower(c) then (c as int - 32) as char else c
  }

  /** Lower-cases every ASCII letter and keeps every other character; the length never changes. */
  function AsciiLower(s: string): (r: string)
    ensures |r| == |s|
    ensures forall i :: 0 <= i < |s| ==> r[i] == LowerChar(s[i])
  {
    if s == [] then [] else [LowerChar(s[0])] + AsciiLower(s[1..])
  }

  function AsciiUpper(s: string): (r: string)
    ensures |r| == |s|
    ensures forall i :: 0 <= i < |s| ==> r[i] == UpperChar(s[i])
  {
    if s == [] then [] else [UpperChar(s[0])] + AsciiUpper(s[1..])
  }

  /** Lower-casing forgets case: a string and its upper-cased form lower-case to the same string. */
  lemma LowerForgetsCase(s: string)
    ensures AsciiLower(AsciiUpper(s)) == AsciiLower(s)
  {
  }

  /** A string with no upper-case ASCII letter is its own lower-cased form. */
  lemma LowerKeepsCaselessText(s: string)
    requires forall i :: 0 <= i < |s| ==> !IsAsciiUpper(s[i])
    ensures AsciiLower(s) == s
  {
  }

  // ---------------------------------------------------------------------------------------------
  // E-mail format.

  /** System.Net.Mail.MailAddress's constructor, which lies outside the model: `Some(address)`
      is the `Address` it parses out of the text, `None` means the constructor throws. */
  type MailParser = string -> Option<string>

  /** IsValidEmail: the text is accepted exactly when the parser succeeds and the address it
      extracts is the whole text, unchanged; a null string or a parse failure gives false. */
  predicate IsValidEmail(parse: MailParser, email: NString)
  {
    match email
    case Null => false
    case Str(e) =>
      match parse(e)
      case None => false
      case Some(address) => address == e
  }
}
