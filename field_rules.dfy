/**
 * The field rules that both ChavePix.validar and ChavePixValidator.validarCampos
 * apply to the owner's names and to the branch and account numbers.
 */
module FieldRules {
  import opened Wrappers
  import opened Text
  import opened Domain

  const MaxNome: nat := 30
  const MaxSobrenome: nat := 45
  const MaxAgencia: nat := 4
  const MaxConta: nat := 8

  /** The first name is required and has at most 30 characters; an empty one passes. */
  predicate NomeValido(nome: Option<string>)
  {
    nome.Some? && |nome.value| <= MaxNome
  }

  /** The last name is optional; when present it has at most 45 characters. */
  predicate SobrenomeValido(sobrenome: Option<string>)
  {
    sobrenome.None? || |sobrenome.value| <= MaxSobrenome
  }

  /** The branch is required and Integer.toString of it has at most 4 characters. */
  predicate AgenciaValida(agencia: Option<Int32>)
  {
    agencia.Some? && |IntToString(agencia.value as int)| <= MaxAgencia
  }

  /** The account is required and Integer.toString of it has at most 8 characters. */
  predicate ContaValida(conta: Option<Int32>)
  {
    conta.Some? && |IntToString(conta.value as int)| <= MaxConta
  }

  /** The length test on the decimal text admits exactly -999..9999: the minus sign counts. */
  lemma AgenciaRange(n: Int32)
    ensures AgenciaValida(Some(n)) <==> -999 <= n <= 9999
  {
    IntToStringLength(n as int, 4);
    assert Pow10(3) == 1000 && Pow10(4) == 10000;
  }

  /** The length test on the decimal text admits exactly -9999999..99999999. */
  lemma ContaRange(n: Int32)
    ensures ContaValida(Some(n)) <==> -9_999_999 <= n <= 99_999_999
  {
    IntToStringLength(n as int, 8);
    assert Pow10(7) == 10_000_000 && Pow10(8) == 100_000_000;
  }

  /** 1234 and 567890 pass; 12345 and 123456789 fail; "" passes as a first name. */
  lemma Examples()
    ensures AgenciaValida(Some(1234)) && !AgenciaValida(Some(12345))
    ensures ContaValida(Some(567890)) && !ContaValida(Some(123456789))
    ensures NomeValido(Some("")) && SobrenomeValido(None)
  {
    AgenciaRange(1234);
    AgenciaRange(12345);
    ContaRange(567890);
    ContaRange(123456789);
  }
}
