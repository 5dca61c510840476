/**
 * ChavePixValidator: the application-level checks. The duplicate and quota
 * checks read the store; validarCampos checks a request's fields in a fixed
 * order and reports the first failure with its error code.
 */
module ChavePixValidatorModel {
  import opened Wrappers
  import opened Errors
  import opened Text
  import opened Domain
  import opened TipoContaEnum
  import opened FieldRules
  import opened CheckDigits
  import opened ChavePixEntityModel
  import opened ChavePixRepositoryModel
  import CpfValidation
  import CnpjValidation
  import EmailValidation
  import CelularValidation
  import AleatoriaValidation
  import ValidadorChave
  import ChavePixModel

  /** How many keys one account may hold: 5 for an individual, 20 otherwise. */
  function Limite(tipoPessoa: Option<TipoPessoa>): nat
  {
    if tipoPessoa == Some(PESSOA_FISICA) then 5 else 20
  }

  /**
   * What validarCampos decides: key format, account type, first name, last
   * name, branch, account, in that order; the first failure is reported.
   */
  function CamposSpec(
    tipoChave: TipoChave, valorChave: Option<string>, tipoConta: Option<TipoConta>,
    numeroAgencia: Option<Int32>, numeroConta: Option<Int32>,
    nomeCorrentista: Option<string>, sobrenomeCorrentista: Option<string>): Outcome
  {
    var formato := ValidadorChave.FormatSpec(tipoChave, valorChave);
    if formato.Fail? then formato
    else if tipoConta.None? then Fail(Unprocessable(CONTA_INVALIDA))
    else if !NomeValido(nomeCorrentista) then Fail(Unprocessable(NOME_INVALIDO))
    else if !SobrenomeValido(sobrenomeCorrentista) then Fail(Unprocessable(SOBRENOME_INVALIDO))
    else if !AgenciaValida(numeroAgencia) then Fail(Unprocessable(AGENCIA_INVALIDA))
    else if !ContaValida(numeroConta) then Fail(Unprocessable(CONTA_INVALIDA))
    else Pass
  }

  /**
   * validarCampos and the record's own validar accept exactly the same values:
   * they differ only in the errors they raise.
   */
  lemma CamposAgreesWithRecord(
    tipoChave: TipoChave, valorChave: string, tipoConta: TipoConta,
    numeroAgencia: Option<Int32>, numeroConta: Option<Int32>,
    nomeCorrentista: Option<string>, sobrenomeCorrentista: Option<string>)
    ensures CamposSpec(tipoChave, Some(valorChave), Some(tipoConta), numeroAgencia, numeroConta,
                       nomeCorrentista, sobrenomeCorrentista) == Pass
        <==> ChavePixModel.ValidarSpec(tipoChave, valorChave, tipoConta, numeroAgencia, numeroConta,
                                       nomeCorrentista, sobrenomeCorrentista) == Pass
  {
    ChavePixModel.ValidarSpecPasses(tipoChave, valorChave, tipoConta, numeroAgencia, numeroConta,
                                    nomeCorrentista, sobrenomeCorrentista);
  }

  /**
   * A null key value fails the format rule of its type, and a null account
   * type fails with CONTA_INVALIDA once the value is well formed; so
   * validarCampos passes only when both are present.
   */
  lemma CamposAcceptsOnlyPresent(
    tipoChave: TipoChave, valorChave: Option<string>, tipoConta: Option<TipoConta>,
    numeroAgencia: Option<Int32>, numeroConta: Option<Int32>,
    nomeCorrentista: Option<string>, sobrenomeCorrentista: Option<string>)
    ensures var r := CamposSpec(tipoChave, valorChave, tipoConta, numeroAgencia, numeroConta,
                                nomeCorrentista, sobrenomeCorrentista);
      && (valorChave.None? ==> r == Fail(Unprocessable(ValidadorChave.FormatCode(tipoChave))))
      && (ValidadorChave.FormatSpec(tipoChave, valorChave) == Pass && tipoConta.None? ==>
            r == Fail(Unprocessable(CONTA_INVALIDA)))
      && (r == Pass ==> valorChave.Some? && tipoConta.Some?)
  {
    ValidadorChave.FormatRefusesNull(tipoChave);
  }

  /**
   * Each field error code names the first rule broken. CONTA_INVALIDA is
   * shared by a missing account type and a bad account number.
   */
  lemma CamposFirstFailure(
    tipoChave: TipoChave, valorChave: Option<string>, tipoConta: Option<TipoConta>,
    numeroAgencia: Option<Int32>, numeroConta: Option<Int32>,
    nomeCorrentista: Option<string>, sobrenomeCorrentista: Option<string>)
    ensures var r := CamposSpec(tipoChave, valorChave, tipoConta, numeroAgencia, numeroConta,
                                nomeCorrentista, sobrenomeCorrentista);
      var formatoOk := ValidadorChave.FormatSpec(tipoChave, valorChave) == Pass;
      && (r.Fail? ==> r.error.Unprocessable?)
      && (r == Pass <==>
            formatoOk && tipoConta.Some? && NomeValido(nomeCorrentista) &&
            SobrenomeValido(sobrenomeCorrentista) && AgenciaValida(numeroAgencia) &&
            ContaValida(numeroConta))
      && (r == Fail(Unprocessable(NOME_INVALIDO)) <==>
            formatoOk && tipoConta.Some? && !NomeValido(nomeCorrentista))
      && (r == Fail(Unprocessable(SOBRENOME_INVALIDO)) <==>
            formatoOk && tipoConta.Some? && NomeValido(nomeCorrentista) &&
            !SobrenomeValido(sobrenomeCorrentista))
      && (r == Fail(Unprocessable(AGENCIA_INVALIDA)) <==>
            formatoOk && tipoConta.Some? && NomeValido(nomeCorrentista) &&
            SobrenomeValido(sobrenomeCorrentista) && !AgenciaValida(numeroAgencia))
      && (r == Fail(Unprocessable(CONTA_INVALIDA)) <==>
            formatoOk &&
            (tipoConta.None? ||
             (NomeValido(nomeCorrentista) && SobrenomeValido(sobrenomeCorrentista) &&
              AgenciaValida(numeroAgencia) && !ContaValida(numeroConta))))
  {
    var f := ValidadorChave.FormatSpec(tipoChave, valorChave);
    assert f.Fail? ==>
      (f.error.Unprocessable? &&
       f.error.code in {CPF_INVALIDO, CNPJ_INVALIDO, EMAIL_INVALIDO, CELULAR_INVALIDO, ALEATORIA_INVALIDA});
  }

  /** A stored row whose record the record's own validar would accept. */
  predicate RegistroValido(e: ChavePixEntity)
  {
    ChavePixModel.ValidarSpec(e.tipoChave, e.valorChave, e.tipoConta, e.numeroAgencia,
                              e.numeroConta, e.nomeCorrentista, e.sobrenomeCorrentista) == Pass
  }

  /** Every stored row passes the record's own rules. */
  ghost predicate TodosValidos(rows: map<Uuid, ChavePixEntity>)
  {
    forall id :: id in rows ==> RegistroValido(rows[id])
  }

  /** A row that passes the record's rules also fits every column constraint of the store. */
  lemma RegistroValidoFitsColumns(e: ChavePixEntity)
    requires RegistroValido(e)
    ensures ColumnsFit(e)
  {
    ChavePixModel.ValidarSpecPasses(e.tipoChave, e.valorChave, e.tipoConta, e.numeroAgencia,
                                    e.numeroConta, e.nomeCorrentista, e.sobrenomeCorrentista);
  }

  class ChavePixValidator {
    const repository: Repositorio

    constructor (repository: Repositorio)
      ensures this.repository == repository
    {
      this.repository := repository;
    }

    /** validarChaveExistente: refuses a key value some stored row already holds. */
    function ValidarChaveExistente(valorChave: Option<string>): (r: Outcome)
      reads repository
      requires repository.Valid()
      ensures r.Fail? <==>
        valorChave.Some? &&
        exists id :: id in repository.rows && repository.rows[id].valorChave == valorChave.value
      ensures r.Fail? ==> r.error == BadRequest(CHAVE_EXISTENTE)
    {
      if repository.ChaveJaExiste(valorChave) then Fail(BadRequest(CHAVE_EXISTENTE)) else Pass
    }

    /**
     * validarLimitePorConta: refuses once the account holds its quota of keys,
     * counting every stored row of the account, inactive ones included.
     */
    function ValidarLimitePorConta(
      numeroAgencia: Option<Int32>, numeroConta: Option<Int32>, tipoPessoa: Option<TipoPessoa>): (r: Outcome)
      reads repository
      requires repository.Valid()
      ensures r.Fail? <==>
        |set e | e in repository.rows.Values && Atende(ContaIgual(numeroAgencia, numeroConta), e)|
          >= Limite(tipoPessoa)
      ensures r.Fail? ==> r.error == BadRequest(LIMITE_CHAVE_EXCEDIDO)
    {
      if |repository.BuscarPorConta(numeroAgencia, numeroConta)| >= Limite(tipoPessoa)
      then Fail(BadRequest(LIMITE_CHAVE_EXCEDIDO))
      else Pass
    }

    /** validarCampos. */
    method ValidarCampos(
      tipoChave: TipoChave, valorChave: Option<string>, tipoConta: Option<TipoConta>,
      numeroAgencia: Option<Int32>, numeroConta: Option<Int32>,
      nomeCorrentista: Option<string>, sobrenomeCorrentista: Option<string>)
      returns (r: Outcome)
      ensures r == CamposSpec(tipoChave, valorChave, tipoConta, numeroAgencia, numeroConta,
                              nomeCorrentista, sobrenomeCorrentista)
    {
      r := ValidarTipoChave(tipoChave, valorChave);
      if r.Fail? {
        return;
      }
      r := ValidarTipoConta(tipoConta);
      if r.Fail? {
        return;
      }
      if nomeCorrentista.None? || |nomeCorrentista.value| > MaxNome {
        return Fail(Unprocessable(NOME_INVALIDO));
      }
      if sobrenomeCorrentista.Some? && |sobrenomeCorrentista.value| > MaxSobrenome {
        return Fail(Unprocessable(SOBRENOME_INVALIDO));
      }
      if numeroAgencia.None? || |IntToString(numeroAgencia.value as int)| > MaxAgencia {
        return Fail(Unprocessable(AGENCIA_INVALIDA));
      }
      if numeroConta.None? || |IntToString(numeroConta.value as int)| > MaxConta {
        return Fail(Unprocessable(CONTA_INVALIDA));
      }
      return Pass;
    }

    /**
     * validarTipoChave: the inline format checks, one per key type. They decide
     * exactly what the per-type strategies decide, with the same codes.
     */
    method ValidarTipoChave(tipo: TipoChave, valor: Option<string>) returns (r: Outcome)
      ensures r == ValidadorChave.FormatSpec(tipo, valor)
    {
      match tipo
      case CPF => r := ValidarCpf(valor);
      case CNPJ => r := ValidarCnpj(valor);
      case EMAIL => r := EmailValidation.Validar(valor);
      case CELULAR => r := CelularValidation.Validar(valor);
      case ALEATORIA => r := AleatoriaValidation.Validar(valor);
    }

    /** validarCpf: the inline CPF check, two loops decrementing the weight. */
    method ValidarCpf(valor: Option<string>) returns (r: Outcome)
      ensures r == CpfValidation.Spec(valor)
    {
      if valor.None? || !(|valor.value| == 11 && AllDigits(valor.value)) {
        return Fail(Unprocessable(CPF_INVALIDO));
      }
      var s := valor.value;
      if Repeated(s) {
        return Fail(Unprocessable(CPF_INVALIDO));
      }

      var soma, peso := 0, 10;
      for i := 0 to 9
        invariant soma == WeightedSum(s, CpfValidation.Weights(10, 9), i)
        invariant peso == 10 - i
      {
        soma := soma + DigitValue(s[i]) * peso;
        peso := peso - 1;
      }
      var digito1 := 11 - soma % 11;
      if digito1 > 9 {
        digito1 := 0;
      }

      soma, peso := 0, 11;
      for i := 0 to 10
        invariant soma == WeightedSum(s, CpfValidation.Weights(11, 10), i)
        invariant peso == 11 - i
      {
        soma := soma + DigitValue(s[i]) * peso;
        peso := peso - 1;
      }
      var digito2 := 11 - soma % 11;
      if digito2 > 9 {
        digito2 := 0;
      }

      if s[9] != ForDigit(digito1) || s[10] != ForDigit(digito2) {
        return Fail(Unprocessable(CPF_INVALIDO));
      }
      return Pass;
    }

    /** validarCnpj: the inline CNPJ check, two loops over the weight arrays. */
    method ValidarCnpj(valor: Option<string>) returns (r: Outcome)
      ensures r == CnpjValidation.Spec(valor)
    {
      if valor.None? || !(|valor.value| == 14 && AllDigits(valor.value)) {
        return Fail(Unprocessable(CNPJ_INVALIDO));
      }
      var s := valor.value;
      if Repeated(s) {
        return Fail(Unprocessable(CNPJ_INVALIDO));
      }

      var pesos1, pesos2 := CnpjValidation.Weights1, CnpjValidation.Weights2;

      var soma := 0;
      for i := 0 to 12
        invariant soma == WeightedSum(s, pesos1, i)
      {
        soma := soma + DigitValue(s[i]) * pesos1[i];
      }
      var dig1 := soma % 11;
      dig1 := if dig1 < 2 then 0 else 11 - dig1;

      soma := 0;
      for i := 0 to 13
        invariant soma == WeightedSum(s, pesos2, i)
      {
        soma := soma + DigitValue(s[i]) * pesos2[i];
      }
      var dig2 := soma % 11;
      dig2 := if dig2 < 2 then 0 else 11 - dig2;

      if s[12] != ForDigit(dig1) || s[13] != ForDigit(dig2) {
        return Fail(Unprocessable(CNPJ_INVALIDO));
      }
      return Pass;
    }

    /** validarTipoConta: a missing account type is refused with CONTA_INVALIDA. */
    function ValidarTipoConta(tipoConta: Option<TipoConta>): (r: Outcome)
      ensures r == Pass <==> tipoConta.Some?
      ensures r.Fail? ==> r.error == Unprocessable(CONTA_INVALIDA)
    {
      assert tipoConta.Some? ==> tipoConta.value == CORRENTE || tipoConta.value == POUPANCA;
      if tipoConta.None? || (tipoConta.value != CORRENTE && tipoConta.value != POUPANCA)
      then Fail(Unprocessable(CONTA_INVALIDA))
      else Pass
    }
  }

  /**
   * The quota boundary: an account of an individual passes the check while it
   * holds at most 4 keys, any other account (a business, or a null owner kind)
   * while it holds at most 19; one more key and the check refuses.
   */
  lemma QuotaBoundary(
    v: ChavePixValidator, numeroAgencia: Option<Int32>, numeroConta: Option<Int32>,
    tipoPessoa: Option<TipoPessoa>)
    requires v.repository.Valid()
    ensures var chaves :=
        |set e | e in v.repository.rows.Values && Atende(ContaIgual(numeroAgencia, numeroConta), e)|;
      var r := v.ValidarLimitePorConta(numeroAgencia, numeroConta, tipoPessoa);
      && (tipoPessoa == Some(PESSOA_FISICA) ==> (r == Pass <==> chaves <= 4))
      && (tipoPessoa != Some(PESSOA_FISICA) ==> (r == Pass <==> chaves <= 19))
  {
  }

  /**
   * An inactive key still counts against the quota: a store whose rows of the
   * account are all inactive can still refuse a new key.
   */
  lemma InactiveKeysCount(v: ChavePixValidator, e: ChavePixEntity)
    requires v.repository.Valid()
    requires e.dataHoraInativacao.Some?
    requires e.id in v.repository.rows && v.repository.rows[e.id] == e
    ensures e in v.repository.BuscarPorConta(e.numeroAgencia, e.numeroConta)
  {
  }
}
