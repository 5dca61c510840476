/**
 * AlterarChavePixService: alteration of an existing key, a fail-fast sequence
 * of lookup, inactive check, key-type match, validarCampos on the request,
 * the record's in-place update (which revalidates the record) and the save.
 */
module AlterarChavePixServiceModel {
  import opened Wrappers
  import opened Errors
  import opened Domain
  import opened TipoContaEnum
  import opened ChavePixEntityModel
  import opened ChavePixModel
  import opened ChavePixMapper
  import opened ChavePixResponseMapper
  import opened ChavePixRepositoryModel
  import opened ChavePixValidatorModel
  import ValidadorChave

  /** The arguments of alterarChave after the id; any reference among them may be null. */
  datatype AlterarChavePixRequest = AlterarChavePixRequest(
    tipoChave: Option<TipoChave>,
    valorChave: Option<string>,
    tipoConta: Option<TipoConta>,
    numeroAgencia: Option<Int32>,
    numeroConta: Option<Int32>,
    nomeCorrentista: Option<string>,
    sobrenomeCorrentista: Option<string>)

  /** The stored row with the five fields an alteration may change replaced by the request's. */
  function Alterado(e: ChavePixEntity, p: AlterarChavePixRequest): ChavePixEntity
    requires p.tipoConta.Some?
  {
    e.(tipoConta := p.tipoConta.value, numeroAgencia := p.numeroAgencia, numeroConta := p.numeroConta,
       nomeCorrentista := p.nomeCorrentista, sobrenomeCorrentista := p.sobrenomeCorrentista)
  }

  /** The validarCampos outcome for the request, once its key type is known to be present. */
  function CamposDoPedido(p: AlterarChavePixRequest): Outcome
    requires p.tipoChave.Some?
  {
    CamposSpec(p.tipoChave.value, p.valorChave, p.tipoConta, p.numeroAgencia,
               p.numeroConta, p.nomeCorrentista, p.sobrenomeCorrentista)
  }

  /**
   * What alterarChave answers against the stored rows: not found, inactive,
   * type mismatch (a null key type never equals the stored one), the
   * request's field error, the updated record's own validation error, or the
   * updated record's response, in that order.
   */
  function AlterarSpec(rows: map<Uuid, ChavePixEntity>, id: Uuid, p: AlterarChavePixRequest)
    : (r: Result<AlterarChavePixResponse>)
    ensures r.Ok? ==>
      && id in rows && rows[id].dataHoraInativacao.None?
      && p.tipoChave == Some(rows[id].tipoChave)
      && p.valorChave.Some? && p.tipoConta.Some?
  {
    if id !in rows then Err(NotFound(CHAVE_NAO_ENCONTRADA))
    else if rows[id].dataHoraInativacao.Some? then Err(BadRequest(CHAVE_INATIVA))
    else if p.tipoChave != Some(rows[id].tipoChave) then Err(Unprocessable(TIPO_CHAVE_NAO_CORRESPONDE))
    else if CamposDoPedido(p).Fail? then Err(CamposDoPedido(p).error)
    else
      CamposAcceptsOnlyPresent(p.tipoChave.value, p.valorChave, p.tipoConta, p.numeroAgencia,
                               p.numeroConta, p.nomeCorrentista, p.sobrenomeCorrentista);
      var novo := Alterado(rows[id], p);
      var v := ValidarSpec(novo.tipoChave, novo.valorChave, novo.tipoConta, novo.numeroAgencia,
                           novo.numeroConta, novo.nomeCorrentista, novo.sobrenomeCorrentista);
      if v.Fail? then Err(v.error) else Ok(ToAlterarResponse(novo))
  }

  class AlterarChavePixService {
    const repository: Repositorio
    const validator: ChavePixValidator

    constructor (repository: Repositorio, validator: ChavePixValidator)
      ensures this.repository == repository && this.validator == validator
    {
      this.repository := repository;
      this.validator := validator;
    }

    /**
     * alterarChave: on success the row under `id` is replaced by the altered
     * record and no other row changes; on any failure nothing is saved.
     */
    method AlterarChave(
      id: Uuid, tipoChave: Option<TipoChave>, valorChave: Option<string>, tipoConta: Option<TipoConta>,
      numeroAgencia: Option<Int32>, numeroConta: Option<Int32>,
      nomeCorrentista: Option<string>, sobrenomeCorrentista: Option<string>)
      returns (r: Result<AlterarChavePixResponse>)
      requires repository.Valid()
      modifies repository
      ensures repository.Valid()
      ensures var p := AlterarChavePixRequest(tipoChave, valorChave, tipoConta, numeroAgencia,
                                              numeroConta, nomeCorrentista, sobrenomeCorrentista);
        && r == AlterarSpec(old(repository.rows), id, p)
        && (r.Ok? ==> repository.rows == old(repository.rows)[id := Alterado(old(repository.rows)[id], p)]
                      && repository.ids == old(repository.ids))
        && (r.Err? ==> unchanged(repository))
      ensures old(TodosValidos(repository.rows)) ==> TodosValidos(repository.rows)
    {
      var p := AlterarChavePixRequest(tipoChave, valorChave, tipoConta, numeroAgencia,
                                      numeroConta, nomeCorrentista, sobrenomeCorrentista);
      var encontrada := repository.BuscarPorId(id);
      if encontrada.None? {
        return Err(NotFound(CHAVE_NAO_ENCONTRADA));
      }
      var chave := encontrada.value;
      if chave.EstaInativa() {
        return Err(BadRequest(CHAVE_INATIVA));
      }
      if Some(chave.tipoChave) != tipoChave {
        return Err(Unprocessable(TIPO_CHAVE_NAO_CORRESPONDE));
      }
      var campos := validator.ValidarCampos(
        tipoChave.value, valorChave, tipoConta, numeroAgencia, numeroConta,
        nomeCorrentista, sobrenomeCorrentista);
      if campos.Fail? {
        return Err(campos.error);
      }
      CamposAcceptsOnlyPresent(
        tipoChave.value, valorChave, tipoConta, numeroAgencia, numeroConta,
        nomeCorrentista, sobrenomeCorrentista);
      var atualizado := chave.AtualizarDadosPermitidos(
        tipoConta.value, numeroAgencia, numeroConta, nomeCorrentista, sobrenomeCorrentista);
      if atualizado.Fail? {
        return Err(atualizado.error);
      }
      ghost var novo := Alterado(old(repository.rows)[id], p);
      assert ToEntity(chave) == novo;
      RegistroValidoFitsColumns(novo);
      var salvo := repository.Salvar(chave);
      assert salvo == Pass;
      if TodosValidos(old(repository.rows)) {
        AlterarPreservesValidity(old(repository.rows), id, p);
      }
      return Ok(ToAlterarResponse(ToEntity(chave)));
    }
  }

  /**
   * A successful alteration changes only the five permitted fields: the id,
   * key type, key value, owner kind and both instants stay those of the row.
   */
  lemma AlterarKeepsIdentity(rows: map<Uuid, ChavePixEntity>, id: Uuid, p: AlterarChavePixRequest)
    requires AlterarSpec(rows, id, p).Ok?
    ensures id in rows
    ensures var novo := Alterado(rows[id], p);
      && novo.id == rows[id].id && novo.tipoChave == rows[id].tipoChave
      && novo.valorChave == rows[id].valorChave && novo.tipoPessoa == rows[id].tipoPessoa
      && novo.dataHoraInclusao == rows[id].dataHoraInclusao
      && novo.dataHoraInativacao.None?
      && AlterarSpec(rows, id, p).value == ToAlterarResponse(novo)
  {
  }

  /**
   * Once the type matches, the key value in the request is only checked for
   * format: two requests that differ only in a well-formed key value have the
   * same outcome, and the stored value is the one kept.
   */
  lemma RequestValueOnlyChecked(
    rows: map<Uuid, ChavePixEntity>, id: Uuid, p: AlterarChavePixRequest, outro: Option<string>)
    requires p.tipoChave.Some?
    requires ValidadorChave.FormatSpec(p.tipoChave.value, p.valorChave) == Pass
    requires ValidadorChave.FormatSpec(p.tipoChave.value, outro) == Pass
    ensures AlterarSpec(rows, id, p) == AlterarSpec(rows, id, p.(valorChave := outro))
  {
  }

  /**
   * A stored key value that fails its own format rule blocks every alteration
   * of that record that gets past the request checks: the revalidation of the
   * updated record reports the stored value's format error.
   */
  lemma StoredFormatBlocksAlteration(
    rows: map<Uuid, ChavePixEntity>, id: Uuid, p: AlterarChavePixRequest)
    requires id in rows && rows[id].dataHoraInativacao.None? && p.tipoChave == Some(rows[id].tipoChave)
    requires CamposDoPedido(p) == Pass
    requires ValidadorChave.FormatSpec(rows[id].tipoChave, Some(rows[id].valorChave)).Fail?
    ensures AlterarSpec(rows, id, p)
         == Err(ValidadorChave.FormatSpec(rows[id].tipoChave, Some(rows[id].valorChave)).error)
  {
  }

  /**
   * When the stored value is well formed, the request checks decide alone:
   * every request that passes validarCampos is applied.
   */
  lemma ValidStoredRowAccepts(rows: map<Uuid, ChavePixEntity>, id: Uuid, p: AlterarChavePixRequest)
    requires id in rows && rows[id].dataHoraInativacao.None? && p.tipoChave == Some(rows[id].tipoChave)
    requires RegistroValido(rows[id])
    ensures AlterarSpec(rows, id, p).Ok? <==> CamposDoPedido(p) == Pass
    ensures AlterarSpec(rows, id, p).Ok? ==> RegistroValido(Alterado(rows[id], p))
  {
    var e := rows[id];
    ValidarSpecPasses(e.tipoChave, e.valorChave, e.tipoConta, e.numeroAgencia, e.numeroConta,
                      e.nomeCorrentista, e.sobrenomeCorrentista);
    if CamposDoPedido(p) == Pass {
      CamposAcceptsOnlyPresent(p.tipoChave.value, p.valorChave, p.tipoConta, p.numeroAgencia,
                               p.numeroConta, p.nomeCorrentista, p.sobrenomeCorrentista);
      CamposAgreesWithRecord(p.tipoChave.value, p.valorChave.value, p.tipoConta.value, p.numeroAgencia,
                             p.numeroConta, p.nomeCorrentista, p.sobrenomeCorrentista);
      var n := Alterado(e, p);
      ValidarSpecPasses(n.tipoChave, n.valorChave, n.tipoConta, n.numeroAgencia, n.numeroConta,
                        n.nomeCorrentista, n.sobrenomeCorrentista);
    }
  }

  /** An inactive record is refused with CHAVE_INATIVA whatever the request holds. */
  lemma InactiveRefusedFirst(rows: map<Uuid, ChavePixEntity>, id: Uuid, p: AlterarChavePixRequest)
    requires id in rows && rows[id].dataHoraInativacao.Some?
    ensures AlterarSpec(rows, id, p) == Err(BadRequest(CHAVE_INATIVA))
  {
  }

  /**
   * Null arguments on an active record: a null key type is a type mismatch, a
   * null key value fails the format rule of the stored type, and a null
   * account type, once the value is well formed, fails with CONTA_INVALIDA.
   */
  lemma NullArgumentsRefused(rows: map<Uuid, ChavePixEntity>, id: Uuid, p: AlterarChavePixRequest)
    requires id in rows && rows[id].dataHoraInativacao.None?
    ensures p.tipoChave.None? ==> AlterarSpec(rows, id, p) == Err(Unprocessable(TIPO_CHAVE_NAO_CORRESPONDE))
    ensures p.tipoChave == Some(rows[id].tipoChave) && p.valorChave.None? ==>
      AlterarSpec(rows, id, p) == Err(Unprocessable(ValidadorChave.FormatCode(rows[id].tipoChave)))
    ensures p.tipoChave == Some(rows[id].tipoChave) && p.tipoConta.None? &&
            ValidadorChave.FormatSpec(rows[id].tipoChave, p.valorChave) == Pass ==>
      AlterarSpec(rows, id, p) == Err(Unprocessable(CONTA_INVALIDA))
  {
    CamposAcceptsOnlyPresent(rows[id].tipoChave, p.valorChave, p.tipoConta, p.numeroAgencia,
                             p.numeroConta, p.nomeCorrentista, p.sobrenomeCorrentista);
  }

  /** Alteration keeps every stored row valid when they all were. */
  lemma AlterarPreservesValidity(rows: map<Uuid, ChavePixEntity>, id: Uuid, p: AlterarChavePixRequest)
    requires TodosValidos(rows)
    requires AlterarSpec(rows, id, p).Ok?
    ensures TodosValidos(rows[id := Alterado(rows[id], p)])
  {
  }
}
