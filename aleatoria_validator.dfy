/** AleatoriaValidator: the pattern `^[a-zA-Z0-9]{36}$`. */
module AleatoriaValidation {
  import opened Wrappers
  import opened Errors
  import opened Text
  import opened Domain

  const Length: nat := 36

  /** ValidadorChaveStrategy.getTipoChave. */
  const Tipo: TipoChave := ALEATORIA

  /** AleatoriaValidator.validar: anything but 36 ASCII letters and digits fails with ALEATORIA_INVALIDA. */
  function Validar(valor: Option<string>): (r: Outcome)
    ensures r == Pass ==> valor.Some? && |valor.value| == Length
    ensures valor.Some? && (exists i :: 0 <= i < |valor.value| && !IsAlphanumeric(valor.value[i])) ==> r != Pass
    ensures (valor.Some? && |valor.value| == Length &&
             forall i :: 0 <= i < |valor.value| ==> IsAlphanumeric(valor.value[i])) ==> r == Pass
    ensures r != Pass ==> r == Fail(Unprocessable(ALEATORIA_INVALIDA))
  {
    if valor.None? || !(|valor.value| == Length && forall i :: 0 <= i < |valor.value| ==> IsAlphanumeric(valor.value[i]))
    then Fail(Unprocessable(ALEATORIA_INVALIDA))
    else Pass
  }

  /** A UUID in its usual hyphenated text form is refused: '-' is not alphanumeric. */
  lemma HyphenatedUuidRefused()
    ensures Validar(Some("123e4567-e89b-12d3-a456-426614174000")) == Fail(Unprocessable(ALEATORIA_INVALIDA))
  {
    var s := "123e4567-e89b-12d3-a456-426614174000";
    assert !IsAlphanumeric(s[8]);
  }

  /** The 32 hexadecimal digits of a UUID without its hyphens are refused too: 32 is not 36. */
  lemma BareUuidRefused()
    ensures Validar(Some("123e4567e89b12d3a456426614174000")) == Fail(Unprocessable(ALEATORIA_INVALIDA))
  {
  }
}
