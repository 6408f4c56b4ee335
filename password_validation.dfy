/** `MaximumLengthValidator` (`user/password_validation.py`). */
module PasswordValidation {
  import opened Wrappers
  import opened PyStr
  import opened Models

  /** Django's `ValidationError`: the untranslated message, its code and its parameters. */
  datatype ValidationError = ValidationError(message: string, code: string, params: map<string, int>)

  const TooLongMessage := "This password must contain no more than %(max_length)d characters."

  datatype MaximumLengthValidator = MaximumLengthValidator(maxLength: int)
  {
    /** `validate`: the error raised, if any; the user is not consulted. */
    function Validate(password: string, user: Option<User>): (r: Option<ValidationError>)
      ensures r.None? <==> |password| <= maxLength
      ensures r.Some? ==> r.value == ValidationError(TooLongMessage, "password_too_long", map["max_length" := maxLength])
    {
      if |password| > maxLength then
        Some(ValidationError(TooLongMessage, "password_too_long", map["max_length" := maxLength]))
      else None
    }

    /** `get_help_text`, untranslated: the number it shows is the limit. */
    function HelpText(): (r: string)
      ensures StartsWith(r, HelpPrefix) && |r| >= |HelpPrefix| + |HelpSuffix|
      ensures r[|r| - |HelpSuffix|..] == HelpSuffix
      ensures ParseInt(r[|HelpPrefix|..|r| - |HelpSuffix|]) == Some(maxLength)
    {
      var n := IntToStr(maxLength);
      ParseIntOfIntToStr(maxLength);
      var r := HelpPrefix + n + HelpSuffix;
      assert r[|HelpPrefix|..|r| - |HelpSuffix|] == n;
      assert r[..|HelpPrefix|] == HelpPrefix;
      assert r[|r| - |HelpSuffix|..] == HelpSuffix;
      r
    }
  }

  const HelpPrefix := "Your password must be shorter than "
  const HelpSuffix := " characters."

  /** `MaximumLengthValidator()`: the default limit is 64 characters. */
  function DefaultValidator(): (v: MaximumLengthValidator)
    ensures v.maxLength == 64
  {
    MaximumLengthValidator(64)
  }

  /**
   * A password of exactly the limit is accepted, although the help text
   * asks for one shorter than the limit.
   */
  lemma LimitItselfAccepted(v: MaximumLengthValidator, password: string, user: Option<User>)
    requires |password| == v.maxLength
    ensures v.Validate(password, user).None?
    ensures ParseInt(v.HelpText()[|HelpPrefix|..|v.HelpText()| - |HelpSuffix|]) == Some(|password|)
  {
  }
}
