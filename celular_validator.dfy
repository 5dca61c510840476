/** CelularValidator: the pattern `^\+\d{1,2}\d{2}\d{9}$`. */
module CelularValidation {
  import opened Wrappers
  import opened Errors
  import opened Text
  import opened Domain

  /** ValidadorChaveStrategy.getTipoChave. */
  const Tipo: TipoChave := CELULAR

  /** `\d{n}\d{2}\d{9}` over the whole text, with n the country-code width. */
  predicate DigitGroups(t: string, n: nat)
  {
    && |t| == n + 2 + 9
    && AllDigits(t[..n])
    && AllDigits(t[n..n + 2])
    && AllDigits(t[n + 2..])
  }

  /** The source pattern, group by group: '+', one or two digits, two digits, nine digits. */
  predicate MatchesPattern(s: string)
  {
    |s| >= 1 && s[0] == '+' && (DigitGroups(s[1..], 1) || DigitGroups(s[1..], 2))
  }

  /** CelularValidator.validar: null or a text off the pattern fails with CELULAR_INVALIDO. */
  function Validar(valor: Option<string>): (r: Outcome)
    ensures r == Pass <==> && valor.Some? && |valor.value| >= 1 && valor.value[0] == '+'
                           && AllDigits(valor.value[1..])
                           && (|valor.value| == 13 || |valor.value| == 14)
    ensures r != Pass ==> r == Fail(Unprocessable(CELULAR_INVALIDO))
  {
    if valor.None? then Fail(Unprocessable(CELULAR_INVALIDO))
    else
      PatternMeaning(valor.value);
      if !MatchesPattern(valor.value) then Fail(Unprocessable(CELULAR_INVALIDO))
      else Pass
  }

  lemma AllDigitsSplit(t: string, i: nat, j: nat)
    requires i <= j <= |t|
    ensures AllDigits(t) ==> AllDigits(t[..i]) && AllDigits(t[i..j]) && AllDigits(t[j..])
    ensures AllDigits(t[..i]) && AllDigits(t[i..j]) && AllDigits(t[j..]) ==> AllDigits(t)
  {
    if AllDigits(t[..i]) && AllDigits(t[i..j]) && AllDigits(t[j..]) {
      forall k | 0 <= k < |t| ensures IsDigit(t[k]) {
        if k < i {
          assert t[k] == t[..i][k];
        } else if k < j {
          assert t[k] == t[i..j][k - i];
        } else {
          assert t[k] == t[j..][k - j];
        }
      }
    }
  }

  /** The pattern says no more than: '+' followed by twelve or thirteen digits. */
  lemma PatternMeaning(s: string)
    ensures MatchesPattern(s) <==> |s| >= 1 && s[0] == '+' && (|s| == 13 || |s| == 14) && AllDigits(s[1..])
  {
    if |s| >= 1 {
      var t := s[1..];
      if |t| == 12 {
        AllDigitsSplit(t, 1, 3);
      } else if |t| == 13 {
        AllDigitsSplit(t, 2, 4);
      }
    }
  }

  /** "+5511987654321" is accepted; without the '+' it is refused. */
  lemma Examples()
    ensures Validar(Some("+5511987654321")) == Pass
    ensures Validar(Some("5511987654321")) == Fail(Unprocessable(CELULAR_INVALIDO))
  {
    var s := "+5511987654321";
    assert AllDigits(s[1..]) by {
      assert forall i :: 0 <= i < |s[1..]| ==> s[1..][i] == s[i + 1];
    }
  }
}
