/** CnpjValidator: fourteen digits whose last two are weighted modulo-11 check digits. */
module CnpjValidation {
  import opened Wrappers
  import opened Errors
  import opened Text
  import opened CheckDigits
  import opened Domain

  /** The source's `pesos1`, applied to digits 0-11. */
  const Weights1: seq<int> := [5, 4, 3, 2, 9, 8, 7, 6, 5, 4, 3, 2]

  /** The source's `pesos2`, applied to digits 0-12. */
  const Weights2: seq<int> := [6, 5, 4, 3, 2, 9, 8, 7, 6, 5, 4, 3, 2]

  /** sum mod 11; a remainder below 2 gives 0, any other r gives 11 - r. */
  function CheckDigit(sum: int): (d: int)
    ensures 0 <= d <= 9
  {
    var r := sum % 11;
    if r < 2 then 0 else 11 - r
  }

  function FirstDigit(s: string): int
    requires |s| == 14 && AllDigits(s)
  {
    CheckDigit(WeightedSum(s, Weights1, 12))
  }

  function SecondDigit(s: string): int
    requires |s| == 14 && AllDigits(s)
  {
    CheckDigit(WeightedSum(s, Weights2, 13))
  }

  /** What CnpjValidator accepts. */
  predicate IsValid(s: string)
  {
    && |s| == 14 && AllDigits(s)
    && !Repeated(s)
    && s[12] == ForDigit(FirstDigit(s))
    && s[13] == ForDigit(SecondDigit(s))
  }

  /** The outcome of CnpjValidator.validar: null or any invalid text fails with CNPJ_INVALIDO. */
  function Spec(valor: Option<string>): Outcome
  {
    if valor.Some? && IsValid(valor.value) then Pass else Fail(Unprocessable(CNPJ_INVALIDO))
  }

  /** ValidadorChaveStrategy.getTipoChave. */
  const Tipo: TipoChave := CNPJ

  /** CnpjValidator.validar: two loops summing digit times weight. */
  method Validar(valor: Option<string>) returns (r: Outcome)
    ensures r == Spec(valor)
  {
    if valor.None? || !(|valor.value| == 14 && AllDigits(valor.value)) {
      return Fail(Unprocessable(CNPJ_INVALIDO));
    }
    var s := valor.value;
    if Repeated(s) {
      return Fail(Unprocessable(CNPJ_INVALIDO));
    }

    var pesos1, pesos2 := Weights1, Weights2;

    var soma := 0;
    for i := 0 to 12
      invariant soma == WeightedSum(s, pesos1, i)
    {
      soma := soma + DigitValue(s[i]) * pesos1[i];
    }
    var dig1 := soma % 11;
    dig1 := if dig1 < 2 then 0 else 11 - dig1;

    soma := 0;
    for i := 0 to 13
      invariant soma == WeightedSum(s, pesos2, i)
    {
      soma := soma + DigitValue(s[i]) * pesos2[i];
    }
    var dig2 := soma % 11;
    dig2 := if dig2 < 2 then 0 else 11 - dig2;

    if s[12] != ForDigit(dig1) || s[13] != ForDigit(dig2) {
      return Fail(Unprocessable(CNPJ_INVALIDO));
    }
    return Pass;
  }

  /** Accepted values are exactly fourteen ASCII digits, not all the same. */
  lemma AcceptedShape(valor: Option<string>)
    requires Spec(valor) == Pass
    ensures valor.Some? && |valor.value| == 14 && AllDigits(valor.value) && !Repeated(valor.value)
  {
  }

  /** "11222333000181" is accepted. */
  lemma Example()
    ensures Spec(Some("11222333000181")) == Pass
  {
    var s := "11222333000181";
    assert !Repeated(s) by { assert s[2] != s[0]; }
    var w, v := Weights1, Weights2;
    assert WeightedSum(s, w, 4) == 19;
    assert WeightedSum(s, w, 8) == 100;
    assert WeightedSum(s, w, 12) == 102;
    assert WeightedSum(s, v, 4) == 25;
    assert WeightedSum(s, v, 8) == 101;
    assert WeightedSum(s, v, 12) == 104;
    assert WeightedSum(s, v, 13) == 120;
  }

  /**
   * Fourteen zeros carry matching check digits; only the repetition rule
   * keeps them out.
   */
  lemma ZerosPassCheckDigits()
    ensures var s := seq(14, _ => '0');
      && s[12] == ForDigit(FirstDigit(s))
      && s[13] == ForDigit(SecondDigit(s))
      && Spec(Some(s)) == Fail(Unprocessable(CNPJ_INVALIDO))
  {
    var s := seq(14, _ => '0');
    WeightedSumRepeated(s, Weights1, 12);
    WeightedSumRepeated(s, Weights2, 13);
  }
}
