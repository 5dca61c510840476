/**
 * CadastrarChavePixService: registration of a new key. As written it checks
 * for a duplicate value, then the account's quota, then saves a record built
 * with the all-arguments constructor, so the record's own validation never
 * runs and validarCampos is never called. CadastrarChaveValidado is the
 * registration the service's tests describe, with both checks done through
 * ChavePixValidator and validarCampos before the save.
 */
module CadastrarChavePixServiceModel {
  import opened Wrappers
  import opened Errors
  import opened Domain
  import opened TipoContaEnum
  import opened ChavePixEntityModel
  import opened ChavePixModel
  import opened ChavePixMapper
  import opened ChavePixResponseMapper
  import opened ChavePixRepositoryModel
  import opened ChavePixValidatorModel
  import CpfValidation

  /** The arguments of cadastrarChave; any reference among them may be null. */
  datatype CadastrarChavePixRequest = CadastrarChavePixRequest(
    tipoChave: Option<TipoChave>,
    valorChave: Option<string>,
    tipoConta: Option<TipoConta>,
    tipoPessoa: Option<TipoPessoa>,
    numeroAgencia: Option<Int32>,
    numeroConta: Option<Int32>,
    nomeCorrentista: Option<string>,
    sobrenomeCorrentista: Option<string>)

  /**
   * The request fills the four columns that the record keeps as non-null
   * values: key type, key value, account type and owner kind.
   */
  predicate Completo(p: CadastrarChavePixRequest)
  {
    p.tipoChave.Some? && p.valorChave.Some? && p.tipoConta.Some? && p.tipoPessoa.Some?
  }

  /** The row of the record registration builds: the request as given, created now, active. */
  function NovoRegistro(novoId: Uuid, agora: Timestamp, p: CadastrarChavePixRequest): ChavePixEntity
    requires Completo(p)
  {
    ChavePixEntity(
      novoId, p.tipoChave.value, p.valorChave.value, p.tipoConta.value, p.tipoPessoa.value,
      p.numeroAgencia, p.numeroConta, p.nomeCorrentista, p.sobrenomeCorrentista, agora, None)
  }

  /**
   * What validarCampos answers for the request. Its first step switches on the
   * key type, so a null key type throws NullPointerException there.
   */
  function CamposDoCadastro(p: CadastrarChavePixRequest): Outcome
  {
    if p.tipoChave.None? then Fail(NullPointer)
    else CamposSpec(p.tipoChave.value, p.valorChave, p.tipoConta, p.numeroAgencia,
                    p.numeroConta, p.nomeCorrentista, p.sobrenomeCorrentista)
  }

  class CadastrarChavePixService {
    const repository: Repositorio
    const validator: ChavePixValidator

    constructor (repository: Repositorio, validator: ChavePixValidator)
      ensures this.repository == repository && this.validator == validator
    {
      this.repository := repository;
      this.validator := validator;
    }

    /**
     * cadastrarChave as written: duplicate check, then quota check, then the
     * save of an unvalidated record; the response carries the new id. A null
     * key type, key value, account type or owner kind passes both checks and
     * is refused by its not-null column on save. On any failure the store is
     * left as it was.
     */
    method CadastrarChave(
      novoId: Uuid, agora: Timestamp,
      tipoChave: Option<TipoChave>, valorChave: Option<string>, tipoConta: Option<TipoConta>,
      tipoPessoa: Option<TipoPessoa>,
      numeroAgencia: Option<Int32>, numeroConta: Option<Int32>,
      nomeCorrentista: Option<string>, sobrenomeCorrentista: Option<string>)
      returns (r: Result<CadastrarChavePixResponse>)
      requires repository.Valid() && novoId !in repository.rows
      modifies repository
      ensures repository.Valid()
      ensures var p := CadastrarChavePixRequest(
                tipoChave, valorChave, tipoConta, tipoPessoa, numeroAgencia, numeroConta,
                nomeCorrentista, sobrenomeCorrentista);
        if old(repository.ChaveJaExiste(valorChave)) then
          r == Err(ChavePixFailure(ChaveJaCadastrada)) && unchanged(repository)
        else if old(|repository.BuscarPorConta(numeroAgencia, numeroConta)|) >= Limite(tipoPessoa) then
          r == Err(ChavePixFailure(LimiteExcedido)) && unchanged(repository)
        else if !Completo(p) || !ColumnsFit(NovoRegistro(novoId, agora, p)) then
          r == Err(ColumnViolation) && unchanged(repository)
        else
          && r == Ok(ToCadastrarResponse(NovoRegistro(novoId, agora, p)))
          && repository.rows == old(repository.rows)[novoId := NovoRegistro(novoId, agora, p)]
          && repository.ids == old(repository.ids) + [novoId]
      ensures r.Ok? ==>
        && repository.ChaveJaExiste(valorChave)
        && repository.BuscarPorConta(numeroAgencia, numeroConta)
             == old(repository.BuscarPorConta(numeroAgencia, numeroConta))
                + [repository.rows[novoId]]
    {
      if repository.ChaveJaExiste(valorChave) {
        return Err(ChavePixFailure(ChaveJaCadastrada));
      }
      var chavesExistentes := repository.BuscarPorConta(numeroAgencia, numeroConta);
      if |chavesExistentes| >= Limite(tipoPessoa) {
        return Err(ChavePixFailure(LimiteExcedido));
      }
      // The record class holds these four columns as values, so a record with
      // a null among them is not built; its save would be refused anyway.
      if tipoChave.None? || valorChave.None? || tipoConta.None? || tipoPessoa.None? {
        return Err(ColumnViolation);
      }
      var novaChave := new ChavePix(
        novoId, tipoChave.value, valorChave.value, tipoConta.value, tipoPessoa.value,
        numeroAgencia, numeroConta, nomeCorrentista, sobrenomeCorrentista, agora, None);
      ghost var antes := repository.Entries();
      var salvo := repository.Salvar(novaChave);
      if salvo.Fail? {
        return Err(salvo.error);
      }
      FilterAppend(antes, ToEntity(novaChave), ContaIgual(numeroAgencia, numeroConta));
      assert repository.rows[novoId].valorChave == valorChave.value;
      return Ok(ToCadastrarResponse(ToEntity(novaChave)));
    }

    /** cadastrar: cadastrarChave on the request's fields. */
    method Cadastrar(novoId: Uuid, agora: Timestamp, p: CadastrarChavePixRequest)
      returns (r: Result<CadastrarChavePixResponse>)
      requires repository.Valid() && novoId !in repository.rows
      modifies repository
      ensures repository.Valid()
      ensures
        if old(repository.ChaveJaExiste(p.valorChave)) then
          r == Err(ChavePixFailure(ChaveJaCadastrada)) && unchanged(repository)
        else if old(|repository.BuscarPorConta(p.numeroAgencia, p.numeroConta)|) >= Limite(p.tipoPessoa) then
          r == Err(ChavePixFailure(LimiteExcedido)) && unchanged(repository)
        else if !Completo(p) || !ColumnsFit(NovoRegistro(novoId, agora, p)) then
          r == Err(ColumnViolation) && unchanged(repository)
        else
          && r == Ok(ToCadastrarResponse(NovoRegistro(novoId, agora, p)))
          && repository.rows == old(repository.rows)[novoId := NovoRegistro(novoId, agora, p)]
          && repository.ids == old(repository.ids) + [novoId]
    {
      r := CadastrarChave(
        novoId, agora, p.tipoChave, p.valorChave, p.tipoConta, p.tipoPessoa,
        p.numeroAgencia, p.numeroConta, p.nomeCorrentista, p.sobrenomeCorrentista);
    }

    /**
     * Registration with validation: the duplicate and quota checks of
     * ChavePixValidator, then validarCampos, then the save. Only records that
     * pass the record's own rules are stored, so a store of valid rows stays so.
     */
    method CadastrarChaveValidado(novoId: Uuid, agora: Timestamp, p: CadastrarChavePixRequest)
      returns (r: Result<CadastrarChavePixResponse>)
      requires repository.Valid() && novoId !in repository.rows
      requires validator.repository == repository
      modifies repository
      ensures repository.Valid()
      ensures
        if old(repository.ChaveJaExiste(p.valorChave)) then
          r == Err(BadRequest(CHAVE_EXISTENTE)) && unchanged(repository)
        else if old(|repository.BuscarPorConta(p.numeroAgencia, p.numeroConta)|) >= Limite(p.tipoPessoa) then
          r == Err(BadRequest(LIMITE_CHAVE_EXCEDIDO)) && unchanged(repository)
        else if CamposDoCadastro(p).Fail? then
          r == Err(CamposDoCadastro(p).error) && unchanged(repository)
        else if p.tipoPessoa.None? then
          r == Err(ColumnViolation) && unchanged(repository)
        else
          && Completo(p)
          && RegistroValido(NovoRegistro(novoId, agora, p))
          && r == Ok(ToCadastrarResponse(NovoRegistro(novoId, agora, p)))
          && repository.rows == old(repository.rows)[novoId := NovoRegistro(novoId, agora, p)]
          && repository.ids == old(repository.ids) + [novoId]
      ensures old(TodosValidos(repository.rows)) ==> TodosValidos(repository.rows)
    {
      var existente := validator.ValidarChaveExistente(p.valorChave);
      if existente.Fail? {
        return Err(existente.error);
      }
      var limite := validator.ValidarLimitePorConta(p.numeroAgencia, p.numeroConta, p.tipoPessoa);
      if limite.Fail? {
        return Err(limite.error);
      }
      if p.tipoChave.None? {
        return Err(NullPointer);
      }
      var campos := validator.ValidarCampos(
        p.tipoChave.value, p.valorChave, p.tipoConta, p.numeroAgencia, p.numeroConta,
        p.nomeCorrentista, p.sobrenomeCorrentista);
      if campos.Fail? {
        return Err(campos.error);
      }
      CamposAcceptsOnlyPresent(
        p.tipoChave.value, p.valorChave, p.tipoConta, p.numeroAgencia, p.numeroConta,
        p.nomeCorrentista, p.sobrenomeCorrentista);
      if p.tipoPessoa.None? {
        return Err(ColumnViolation);
      }
      var e := NovoRegistro(novoId, agora, p);
      CamposAgreesWithRecord(
        p.tipoChave.value, p.valorChave.value, p.tipoConta.value, p.numeroAgencia, p.numeroConta,
        p.nomeCorrentista, p.sobrenomeCorrentista);
      RegistroValidoFitsColumns(e);
      var novaChave := new ChavePix(
        novoId, p.tipoChave.value, p.valorChave.value, p.tipoConta.value, p.tipoPessoa.value,
        p.numeroAgencia, p.numeroConta, p.nomeCorrentista, p.sobrenomeCorrentista, agora, None);
      var salvo := repository.Salvar(novaChave);
      assert salvo == Pass;
      return Ok(ToCadastrarResponse(ToEntity(novaChave)));
    }
  }

  /** The registration the service's tests start from: an individual's CPF key on a valid account. */
  const Fixture: CadastrarChavePixRequest := CadastrarChavePixRequest(
    Some(CPF), Some("12345678901"), Some(CORRENTE), Some(PESSOA_FISICA), Some(1234), Some(567890),
    Some("João"), Some("Silva"))

  /**
   * As written, registration stores a key that fails its own format rule: on
   * an empty store the fixture request succeeds, although "12345678901" is not
   * a valid CPF, and the stored row breaks the rules the record enforces.
   */
  method UnvalidatedRegistration() returns (r: Result<CadastrarChavePixResponse>, stored: ChavePixEntity)
    ensures r.Ok? && r.value.id == stored.id
    ensures Completo(Fixture) && stored == NovoRegistro(0, 0, Fixture)
    ensures !RegistroValido(stored)
    ensures CpfValidation.Spec(Some(stored.valorChave)) == Fail(Unprocessable(CPF_INVALIDO))
  {
    var repository := new Repositorio();
    var validator := new ChavePixValidator(repository);
    var service := new CadastrarChavePixService(repository, validator);
    var p := Fixture;
    r := service.CadastrarChave(
      0, 0, p.tipoChave, p.valorChave, p.tipoConta, p.tipoPessoa,
      p.numeroAgencia, p.numeroConta, p.nomeCorrentista, p.sobrenomeCorrentista);
    stored := NovoRegistro(0, 0, p);
    CpfValidation.SequentialDigitsRefused();
  }

  /** With validation, the same request on an empty store is refused with CPF_INVALIDO. */
  method ValidatedRegistrationRefuses() returns (r: Result<CadastrarChavePixResponse>)
    ensures r == Err(Unprocessable(CPF_INVALIDO))
  {
    var repository := new Repositorio();
    var validator := new ChavePixValidator(repository);
    var service := new CadastrarChavePixService(repository, validator);
    CpfValidation.SequentialDigitsRefused();
    r := service.CadastrarChaveValidado(0, 0, Fixture);
  }
}
