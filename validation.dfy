/** The older form checks (`validation.ts`): the same messages as the
    validators, but the emptiness tests look at the raw string, the e-mail is
    first checked for an `@`, and a password has no upper bound. */
module Validation {
  import opened Options
  import opened Strings
  import Validators

  /** `validateEmail`: empty, then no `@`, then the pattern. */
  function ValidateEmail(email: string): (r: Option<string>)
    ensures r == Some(Validators.EmailRequired) <==> email == ""
    ensures r.None? ==> Includes(email, "@") && Validators.EmailPattern(email)
  {
    Validators.EmailShapedIsPattern(email);
    if email == "" then Some(Validators.EmailRequired)
    else if !Includes(email, "@") then Some(Validators.EmailInvalid)
    else if !Validators.EmailShaped(email) then Some(Validators.EmailInvalid)
    else None
  }

  /** The `@` test is subsumed by the pattern: the result depends only on
      emptiness and the pattern. */
  lemma EmailAtTestRedundant(email: string)
    ensures ValidateEmail(email) ==
      if email == "" then Some(Validators.EmailRequired)
      else if Validators.EmailPattern(email) then None
      else Some(Validators.EmailInvalid)
  {
    Validators.EmailShapedIsPattern(email);
    IncludesChar(email, '@');
  }

  /** The two e-mail checks agree except on a non-empty blank input, which
      `validators.email` calls missing and `validateEmail` calls invalid. */
  lemma EmailChecksAgree(email: string)
    ensures Trim(email) != "" ==> ValidateEmail(email) == Validators.Email(email)
    ensures email != "" && Trim(email) == "" ==>
      ValidateEmail(email) == Some(Validators.EmailInvalid) && Validators.Email(email) == Some(Validators.EmailRequired)
  {
    EmailAtTestRedundant(email);
    if email != "" && Trim(email) == "" {
      // A blank string has no `@`, so it cannot match.
      assert !Validators.PlainChar(email[0]);
      Validators.EmailShapedIsPattern(email);
    }
  }

  /** `validatePassword`: non-empty and at least 6 characters. */
  function ValidatePassword(password: string): (r: Option<string>)
    ensures r.None? <==> |password| >= 6
    ensures r == Some(Validators.PasswordRequired) <==> password == ""
    ensures r.Some? ==> r.value == Validators.PasswordRequired || r.value == Validators.PasswordShort
  {
    if password == "" then Some(Validators.PasswordRequired)
    else if |password| < 6 then Some(Validators.PasswordShort)
    else None
  }

  /** The two password checks differ exactly on passwords longer than 128 characters. */
  lemma PasswordChecksAgree(password: string)
    ensures ValidatePassword(password) == Validators.Password(password) <==> |password| <= 128
  {
  }

  /** `validateName`: only the empty string is missing; the length is of the trimmed name. */
  function ValidateName(name: string): (r: Option<string>)
    ensures r == Some(Validators.NameRequired) <==> name == ""
    ensures r.None? <==> name != "" && |Trim(name)| >= 2
  {
    if name == "" then Some(Validators.NameRequired)
    else if |Trim(name)| < 2 then Some(Validators.NameShort)
    else None
  }

  /** A name of spaces is not missing here; it is too short. */
  lemma BlankNameTooShort(name: string)
    requires name != "" && AllWhitespace(name)
    ensures ValidateName(name) == Some(Validators.NameShort)
    ensures Validators.Name(name) == Some(Validators.NameRequired)
  {
  }

  /** `validateRequired`: missing when empty or blank, and the message names the field. */
  function ValidateRequired(value: string, fieldName: string): (r: Option<string>)
    ensures r.None? <==> !AllWhitespace(value)
    ensures r.Some? ==> r.value == fieldName + " is required"
  {
    if value == "" || |Trim(value)| == 0 then Some(fieldName + " is required") else None
  }

  /** Both required-field checks give the same answer. */
  lemma RequiredChecksAgree(value: string, fieldName: string)
    ensures ValidateRequired(value, fieldName) == Validators.Required(value, fieldName)
  {
  }
}
