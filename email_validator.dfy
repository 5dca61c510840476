/** EmailValidator: deliberately loose, a length bound and an at sign. */
module EmailValidation {
  import opened Wrappers
  import opened Errors
  import opened Text
  import opened Domain

  const MaxLength: nat := 77

  /** ValidadorChaveStrategy.getTipoChave. */
  const Tipo: TipoChave := EMAIL

  /**
   * EmailValidator.validar: null, more than 77 characters, or no '@' fails
   * with EMAIL_INVALIDO; nothing else is looked at.
   */
  function Validar(valor: Option<string>): (r: Outcome)
    ensures r == Pass <==> valor.Some? && |valor.value| <= MaxLength && '@' in valor.value
    ensures r != Pass ==> r == Fail(Unprocessable(EMAIL_INVALIDO))
  {
    if valor.None? || |valor.value| > MaxLength then Fail(Unprocessable(EMAIL_INVALIDO))
    else
      ContainsChar(valor.value, '@');
      if !Contains(valor.value, "@") then Fail(Unprocessable(EMAIL_INVALIDO))
      else Pass
  }

  /** "a@b.co" is accepted, "no-at-sign.com" refused, and so is a 78-character text with '@'. */
  lemma Examples(long: string)
    requires |long| == 78 && '@' in long
    ensures Validar(Some("a@b.co")) == Pass
    ensures Validar(Some("no-at-sign.com")) == Fail(Unprocessable(EMAIL_INVALIDO))
    ensures Validar(Some(long)) == Fail(Unprocessable(EMAIL_INVALIDO))
  {
    assert "a@b.co"[1] == '@';
    var t := "no-at-sign.com";
    assert forall i :: 0 <= i < |t| ==> t[i] != '@';
  }
}
