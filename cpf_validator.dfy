/** CpfValidator: eleven digits whose last two are modulo-11 check digits. */
module CpfValidation {
  import opened Wrappers
  import opened Errors
  import opened Text
  import opened CheckDigits
  import opened Domain

  /** The weights top, top-1, ... that the source's decrementing `peso` runs through. */
  function Weights(top: int, n: nat): (w: seq<int>)
    ensures |w| == n
    ensures forall i :: 0 <= i < n ==> w[i] == top - i
  {
    seq(n, i => top - i)
  }

  /** 11 - (sum mod 11), with 10 and 11 mapped to 0. */
  function CheckDigit(sum: int): (d: int)
    ensures 0 <= d <= 9
  {
    var d := 11 - sum % 11;
    if d > 9 then 0 else d
  }

  /** First check digit: weights 10..2 over digits 0-8. */
  function FirstDigit(s: string): (d: int)
    requires |s| == 11 && AllDigits(s)
  {
    CheckDigit(WeightedSum(s, Weights(10, 9), 9))
  }

  /** Second check digit: weights 11..2 over digits 0-9. */
  function SecondDigit(s: string): (d: int)
    requires |s| == 11 && AllDigits(s)
  {
    CheckDigit(WeightedSum(s, Weights(11, 10), 10))
  }

  /** What CpfValidator accepts. */
  predicate IsValid(s: string)
  {
    && |s| == 11 && AllDigits(s)
    && !Repeated(s)
    && s[9] == ForDigit(FirstDigit(s))
    && s[10] == ForDigit(SecondDigit(s))
  }

  /** The outcome of CpfValidator.validar: null or any invalid text fails with CPF_INVALIDO. */
  function Spec(valor: Option<string>): Outcome
  {
    if valor.Some? && IsValid(valor.value) then Pass else Fail(Unprocessable(CPF_INVALIDO))
  }

  /** ValidadorChaveStrategy.getTipoChave. */
  const Tipo: TipoChave := CPF

  /** CpfValidator.validar: the two accumulating loops of the source. */
  method Validar(valor: Option<string>) returns (r: Outcome)
    ensures r == Spec(valor)
  {
    if valor.None? || !(|valor.value| == 11 && AllDigits(valor.value)) {
      return Fail(Unprocessable(CPF_INVALIDO));
    }
    var s := valor.value;
    if Repeated(s) {
      return Fail(Unprocessable(CPF_INVALIDO));
    }

    var soma, peso := 0, 10;
    for i := 0 to 9
      invariant soma == WeightedSum(s, Weights(10, 9), i)
      invariant peso == 10 - i
    {
      soma := soma + DigitValue(s[i]) * peso;
      peso := peso - 1;
    }
    var digito1 := 11 - soma % 11;
    if digito1 > 9 {
      digito1 := 0;
    }

    soma, peso := 0, 11;
    for i := 0 to 10
      invariant soma == WeightedSum(s, Weights(11, 10), i)
      invariant peso == 11 - i
    {
      soma := soma + DigitValue(s[i]) * peso;
      peso := peso - 1;
    }
    var digito2 := 11 - soma % 11;
    if digito2 > 9 {
      digito2 := 0;
    }

    if s[9] != ForDigit(digito1) || s[10] != ForDigit(digito2) {
      return Fail(Unprocessable(CPF_INVALIDO));
    }
    return Pass;
  }

  /** Both check digits lie in 0..9, so Character.forDigit always yields a digit character. */
  lemma CheckDigitsAreDigits(s: string)
    requires |s| == 11 && AllDigits(s)
    ensures IsDigit(ForDigit(FirstDigit(s))) && IsDigit(ForDigit(SecondDigit(s)))
  {
  }

  /** Accepted values are exactly eleven ASCII digits, not all the same. */
  lemma AcceptedShape(valor: Option<string>)
    requires Spec(valor) == Pass
    ensures valor.Some? && |valor.value| == 11 && AllDigits(valor.value) && !Repeated(valor.value)
  {
  }

  /** "11144477735" is accepted; "11144477700" is refused for its check digits. */
  lemma Examples()
    ensures Spec(Some("11144477735")) == Pass
    ensures Spec(Some("11144477700")) == Fail(Unprocessable(CPF_INVALIDO))
  {
    var s := "11144477735";
    assert !Repeated(s) by { assert s[3] != s[0]; }
    FirstSumExample(s);
    SecondSumExample(s);
    var t := "11144477700";
    assert !Repeated(t) by { assert t[3] != t[0]; }
    FirstSumExample(t);
  }

  /**
   * "12345678901" is refused: its first check digit 0 matches, but the second
   * computes to 9 where the text has 1.
   */
  lemma SequentialDigitsRefused()
    ensures Spec(Some("12345678901")) == Fail(Unprocessable(CPF_INVALIDO))
    ensures SecondDigit("12345678901") == 9
  {
    var s := "12345678901";
    var w := Weights(11, 10);
    assert s[0] == '1' && s[1] == '2' && s[2] == '3' && s[3] == '4' && s[4] == '5'
      && s[5] == '6' && s[6] == '7' && s[7] == '8' && s[8] == '9' && s[9] == '0';
    assert WeightedSum(s, w, 1) == 11;
    assert WeightedSum(s, w, 2) == 31;
    assert WeightedSum(s, w, 3) == 58;
    assert WeightedSum(s, w, 4) == 90;
    assert WeightedSum(s, w, 5) == 125;
    assert WeightedSum(s, w, 6) == 161;
    assert WeightedSum(s, w, 7) == 196;
    assert WeightedSum(s, w, 8) == 228;
    assert WeightedSum(s, w, 9) == 255;
    assert WeightedSum(s, w, 10) == 255;
  }

  lemma FirstSumExample(s: string)
    requires |s| == 11 && AllDigits(s) && s[..9] == "111444777"
    ensures WeightedSum(s, Weights(10, 9), 9) == 162
  {
    var w := Weights(10, 9);
    assert s[0] == '1' && s[1] == '1' && s[2] == '1' && s[3] == '4' && s[4] == '4'
      && s[5] == '4' && s[6] == '7' && s[7] == '7' && s[8] == '7' by {
      assert forall i :: 0 <= i < 9 ==> s[i] == s[..9][i];
    }
    assert WeightedSum(s, w, 1) == 10;
    assert WeightedSum(s, w, 2) == 19;
    assert WeightedSum(s, w, 3) == 27;
    assert WeightedSum(s, w, 4) == 55;
    assert WeightedSum(s, w, 5) == 79;
    assert WeightedSum(s, w, 6) == 99;
    assert WeightedSum(s, w, 7) == 127;
    assert WeightedSum(s, w, 8) == 148;
  }

  lemma SecondSumExample(s: string)
    requires |s| == 11 && AllDigits(s) && s[..10] == "1114447773"
    ensures WeightedSum(s, Weights(11, 10), 10) == 204
  {
    var w := Weights(11, 10);
    assert s[0] == '1' && s[1] == '1' && s[2] == '1' && s[3] == '4' && s[4] == '4'
      && s[5] == '4' && s[6] == '7' && s[7] == '7' && s[8] == '7' && s[9] == '3' by {
      assert forall i :: 0 <= i < 10 ==> s[i] == s[..10][i];
    }
    assert WeightedSum(s, w, 1) == 11;
    assert WeightedSum(s, w, 2) == 21;
    assert WeightedSum(s, w, 3) == 30;
    assert WeightedSum(s, w, 4) == 62;
    assert WeightedSum(s, w, 5) == 90;
    assert WeightedSum(s, w, 6) == 114;
    assert WeightedSum(s, w, 7) == 149;
    assert WeightedSum(s, w, 8) == 177;
    assert WeightedSum(s, w, 9) == 198;
  }

  /**
   * Eleven copies of one digit always carry matching check digits, so only the
   * repetition rule keeps them out.
   */
  lemma RepeatedPassesCheckDigits(c: char)
    requires IsDigit(c)
    ensures var s := seq(11, _ => c);
      && s[9] == ForDigit(FirstDigit(s))
      && s[10] == ForDigit(SecondDigit(s))
      && Spec(Some(s)) == Fail(Unprocessable(CPF_INVALIDO))
  {
    var s := seq(11, _ => c);
    var d := DigitValue(c);
    WeightedSumRepeated(s, Weights(10, 9), 9);
    WeightedSumRepeated(s, Weights(11, 10), 10);
    TotalOfWeights();
    RepeatedCheckDigit(d);
    assert ForDigit(d) == c;
  }

  lemma TotalOfWeights()
    ensures WeightTotal(Weights(10, 9), 9) == 54
    ensures WeightTotal(Weights(11, 10), 10) == 65
  {
    var w := Weights(10, 9);
    assert WeightTotal(w, 3) == 27;
    assert WeightTotal(w, 6) == 45;
    assert WeightTotal(w, 9) == 54;
    var v := Weights(11, 10);
    assert WeightTotal(v, 3) == 30;
    assert WeightTotal(v, 6) == 51;
    assert WeightTotal(v, 9) == 63;
  }

  /** 54 and 65 are both -1 modulo 11, so the check digit of d*54 and of d*65 is d. */
  lemma RepeatedCheckDigit(d: int)
    requires 0 <= d <= 9
    ensures CheckDigit(d * 54) == d && CheckDigit(d * 65) == d
  {
    if d == 0 {
    } else if d == 1 {
    } else if d == 2 {
    } else if d == 3 {
    } else if d == 4 {
    } else if d == 5 {
    } else if d == 6 {
    } else if d == 7 {
    } else if d == 8 {
    } else {
    }
  }
}
