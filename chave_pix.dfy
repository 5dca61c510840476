/** ChavePix: the key record, its self-validation and its one in-place update. */
module ChavePixModel {
  import opened Wrappers
  import opened Errors
  import opened Domain
  import opened FieldRules
  import opened TipoContaEnum
  import ValidadorChave

  /**
   * What ChavePix.validar decides, check by check: the key value against its
   * type's format rule, the account type, then first name, last name, branch
   * and account; the first failing check is reported.
   */
  function ValidarSpec(
    tipoChave: TipoChave, valorChave: string, tipoConta: TipoConta,
    numeroAgencia: Option<Int32>, numeroConta: Option<Int32>,
    nomeCorrentista: Option<string>, sobrenomeCorrentista: Option<string>): Outcome
  {
    var formato := ValidadorChave.FormatSpec(tipoChave, Some(valorChave));
    if formato.Fail? then formato
    else if TipoContaEnum.Validar(tipoConta).Fail? then TipoContaEnum.Validar(tipoConta)
    else if !NomeValido(nomeCorrentista) then Fail(IllegalArgument(NomeCorrentista))
    else if !SobrenomeValido(sobrenomeCorrentista) then Fail(IllegalArgument(SobrenomeCorrentista))
    else if !AgenciaValida(numeroAgencia) then Fail(IllegalArgument(NumeroAgencia))
    else if !ContaValida(numeroConta) then Fail(IllegalArgument(NumeroConta))
    else Pass
  }

  /** validar passes exactly when every rule holds. */
  lemma ValidarSpecPasses(
    tipoChave: TipoChave, valorChave: string, tipoConta: TipoConta,
    numeroAgencia: Option<Int32>, numeroConta: Option<Int32>,
    nomeCorrentista: Option<string>, sobrenomeCorrentista: Option<string>)
    ensures ValidarSpec(tipoChave, valorChave, tipoConta, numeroAgencia, numeroConta,
                        nomeCorrentista, sobrenomeCorrentista) == Pass
      <==> && ValidadorChave.FormatSpec(tipoChave, Some(valorChave)) == Pass
           && NomeValido(nomeCorrentista) && SobrenomeValido(sobrenomeCorrentista)
           && AgenciaValida(numeroAgencia) && ContaValida(numeroConta)
  {
  }

  class ChavePix {
    var id: Uuid
    var tipoChave: TipoChave
    var valorChave: string
    var tipoConta: TipoConta
    var tipoPessoa: TipoPessoa
    var numeroAgencia: Option<Int32>
    var numeroConta: Option<Int32>
    var nomeCorrentista: Option<string>
    var sobrenomeCorrentista: Option<string>
    var dataHoraInclusao: Timestamp
    var dataHoraInativacao: Option<Timestamp>

    /** The all-arguments constructor: it stores every argument and validates nothing. */
    constructor (
      id: Uuid, tipoChave: TipoChave, valorChave: string, tipoConta: TipoConta,
      tipoPessoa: TipoPessoa, numeroAgencia: Option<Int32>, numeroConta: Option<Int32>,
      nomeCorrentista: Option<string>, sobrenomeCorrentista: Option<string>,
      dataHoraInclusao: Timestamp, dataHoraInativacao: Option<Timestamp>)
      ensures this.id == id && this.tipoChave == tipoChave && this.valorChave == valorChave
      ensures this.tipoConta == tipoConta && this.tipoPessoa == tipoPessoa
      ensures this.numeroAgencia == numeroAgencia && this.numeroConta == numeroConta
      ensures this.nomeCorrentista == nomeCorrentista
      ensures this.sobrenomeCorrentista == sobrenomeCorrentista
      ensures this.dataHoraInclusao == dataHoraInclusao
      ensures this.dataHoraInativacao == dataHoraInativacao
    {
      this.id := id;
      this.tipoChave := tipoChave;
      this.valorChave := valorChave;
      this.tipoConta := tipoConta;
      this.tipoPessoa := tipoPessoa;
      this.numeroAgencia := numeroAgencia;
      this.numeroConta := numeroConta;
      this.nomeCorrentista := nomeCorrentista;
      this.sobrenomeCorrentista := sobrenomeCorrentista;
      this.dataHoraInclusao := dataHoraInclusao;
      this.dataHoraInativacao := dataHoraInativacao;
    }

    /** estaInativa: a record is inactive once it carries an inactivation instant. */
    predicate EstaInativa()
      reads this
    {
      dataHoraInativacao.Some?
    }

    /** validar: `tipoChave.validar(valorChave)` runs the strategy of the record's key type. */
    method Validar() returns (r: Outcome)
      ensures r == ValidarSpec(tipoChave, valorChave, tipoConta, numeroAgencia, numeroConta,
                               nomeCorrentista, sobrenomeCorrentista)
    {
      r := ValidadorChave.Validar(ValidadorChave.StrategyFor(tipoChave), Some(valorChave));
      if r.Fail? {
        return;
      }
      r := TipoContaEnum.Validar(tipoConta);
      if r.Fail? {
        return;
      }
      if nomeCorrentista.None? || |nomeCorrentista.value| > MaxNome {
        return Fail(IllegalArgument(NomeCorrentista));
      }
      if sobrenomeCorrentista.Some? && |sobrenomeCorrentista.value| > MaxSobrenome {
        return Fail(IllegalArgument(SobrenomeCorrentista));
      }
      if !AgenciaValida(numeroAgencia) {
        return Fail(IllegalArgument(NumeroAgencia));
      }
      if !ContaValida(numeroConta) {
        return Fail(IllegalArgument(NumeroConta));
      }
      return Pass;
    }

    /**
     * atualizarDadosPermitidos: refused on an inactive record, which is left as
     * it was. Otherwise the five mutable fields are overwritten FIRST and the
     * record validated afterwards, so a failed validation leaves the new values
     * in place. Identity, key, owner kind and instants never change.
     */
    method AtualizarDadosPermitidos(
      tipoConta: TipoConta, numeroAgencia: Option<Int32>, numeroConta: Option<Int32>,
      nomeCorrentista: Option<string>, sobrenomeCorrentista: Option<string>)
      returns (r: Outcome)
      modifies this
      ensures old(EstaInativa()) ==> r == Fail(IllegalState(ChaveInativa)) && unchanged(this)
      ensures !old(EstaInativa()) ==>
        && this.tipoConta == tipoConta
        && this.numeroAgencia == numeroAgencia
        && this.numeroConta == numeroConta
        && this.nomeCorrentista == nomeCorrentista
        && this.sobrenomeCorrentista == sobrenomeCorrentista
        && r == ValidarSpec(tipoChave, valorChave, tipoConta, numeroAgencia, numeroConta,
                            nomeCorrentista, sobrenomeCorrentista)
      ensures id == old(id) && tipoChave == old(tipoChave) && valorChave == old(valorChave)
      ensures tipoPessoa == old(tipoPessoa) && dataHoraInclusao == old(dataHoraInclusao)
      ensures dataHoraInativacao == old(dataHoraInativacao)
    {
      if EstaInativa() {
        return Fail(IllegalState(ChaveInativa));
      }
      this.tipoConta := tipoConta;
      this.numeroAgencia := numeroAgencia;
      this.numeroConta := numeroConta;
      this.nomeCorrentista := nomeCorrentista;
      this.sobrenomeCorrentista := sobrenomeCorrentista;
      r := Validar();
    }
  }

  /**
   * The validating constructor: a new identifier and the creation instant
   * (handed in), every argument stored as given, no inactivation instant, then
   * validar; a failed validation means no record escapes.
   */
  method Create(
    id: Uuid, agora: Timestamp,
    tipoChave: TipoChave, valorChave: string, tipoConta: TipoConta, tipoPessoa: TipoPessoa,
    numeroAgencia: Option<Int32>, numeroConta: Option<Int32>,
    nomeCorrentista: Option<string>, sobrenomeCorrentista: Option<string>)
    returns (r: Result<ChavePix>)
    ensures var v := ValidarSpec(tipoChave, valorChave, tipoConta, numeroAgencia, numeroConta,
                                 nomeCorrentista, sobrenomeCorrentista);
      && (r.Ok? <==> v == Pass)
      && (r.Err? ==> Fail(r.error) == v)
    ensures r.Ok? ==> var c := r.value;
      && fresh(c) && !c.EstaInativa()
      && c.id == id && c.dataHoraInclusao == agora
      && c.tipoChave == tipoChave && c.valorChave == valorChave
      && c.tipoConta == tipoConta && c.tipoPessoa == tipoPessoa
      && c.numeroAgencia == numeroAgencia && c.numeroConta == numeroConta
      && c.nomeCorrentista == nomeCorrentista && c.sobrenomeCorrentista == sobrenomeCorrentista
  {
    var c := new ChavePix(id, tipoChave, valorChave, tipoConta, tipoPessoa, numeroAgencia,
                          numeroConta, nomeCorrentista, sobrenomeCorrentista, agora, None);
    var v := c.Validar();
    if v.Fail? {
      return Err(v.error);
    }
    return Ok(c);
  }
}
